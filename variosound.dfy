// Model of variosound.cpp: the mapping from climb rate to sound
// (`calculateSoundCharacteristics`), the pulse/stop state of `VarioSound`,
// and `generateTone`, which renders one buffer of 16-bit little-endian PCM
// with smoothed frequency and amplitude, a linear fade-in and fade-out, and a
// phase accumulator kept across calls.

module Audio {
  import opened Utils

  // ---------------------------------------------------------------------
  // calculateSoundCharacteristics

  datatype SoundCharacteristics =
    SoundCharacteristics(frequency: real, amplitude: real, pulseLength: int, silenceLength: int)

  /** |v| (qAbs). */
  function Abs(v: real): real
  {
    if v < 0.0 then -v else v
  }

  /** The sound for climb rate `vario`: inside the dead band a silent base
      tone; in lift short 50 ms pulses rising 100 Hz per m/s with ever
      shorter silences; in sink one continuous tone falling 40 Hz per m/s. */
  function CalculateSoundCharacteristics(vario: real, deadband: real, baseFrequency: real)
    : (c: SoundCharacteristics)
    ensures Abs(vario) < deadband ==> c == SoundCharacteristics(baseFrequency, 0.0, 0, 1000)
    ensures Abs(vario) >= deadband && vario > 0.0 ==>
      c.frequency == baseFrequency + 100.0 * vario && c.amplitude == 0.8 &&
      c.pulseLength == 50 && c.silenceLength == Trunc(75.0 - 10.0 * vario)
    ensures Abs(vario) >= deadband && vario <= 0.0 ==>
      c == SoundCharacteristics(baseFrequency + 40.0 * vario, 0.8, 1000, 0)
  {
    if Abs(vario) < deadband then
      SoundCharacteristics(baseFrequency, 0.0, 0, 1000)
    else if vario > 0.0 then
      SoundCharacteristics(baseFrequency + vario * 100.0, 0.8, 50, Trunc(75.0 - vario * 10.0))
    else
      SoundCharacteristics(baseFrequency + vario * 40.0, 0.8, 1000, 0)
  }

  /** A stronger climb never gives a lower frequency, whatever the dead band. */
  lemma FrequencyMonotone(v1: real, v2: real, deadband: real, baseFrequency: real)
    requires v1 <= v2
    ensures CalculateSoundCharacteristics(v1, deadband, baseFrequency).frequency <=
            CalculateSoundCharacteristics(v2, deadband, baseFrequency).frequency
  {
  }

  /** Sound is on (pulse length positive, amplitude 0.8) exactly outside the
      dead band; inside it the amplitude is 0. */
  lemma AudibleOutsideDeadband(vario: real, deadband: real, baseFrequency: real)
    ensures var c := CalculateSoundCharacteristics(vario, deadband, baseFrequency);
      (c.pulseLength > 0 <==> Abs(vario) >= deadband) &&
      (c.amplitude == 0.8 <==> Abs(vario) >= deadband) &&
      (c.amplitude == 0.0 <==> Abs(vario) < deadband)
  {
  }

  /** The climb silence 75 - 10 v is truncated but not clamped: it is
      negative exactly from 7.6 m/s up (between 7.5 and 7.6 it truncates to
      0), and the pulse period 50 + silence falls with it. */
  lemma ClimbSilence(vario: real, deadband: real, baseFrequency: real)
    requires vario > 0.0 && vario >= deadband
    ensures var c := CalculateSoundCharacteristics(vario, deadband, baseFrequency);
      (c.silenceLength < 0 <==> vario >= 7.6) &&
      (vario <= 7.5 ==> c.silenceLength >= 0) &&
      c.pulseLength + c.silenceLength <= 125
  {
    var c := CalculateSoundCharacteristics(vario, deadband, baseFrequency);
    var r := 75.0 - 10.0 * vario;
    assert c.silenceLength == Trunc(r);
    if vario >= 7.6 {
      assert r <= -1.0;
    } else {
      assert r > -1.0;
    }
  }

  // ---------------------------------------------------------------------
  // Little-endian 16-bit samples

  /** Low byte of the two's-complement form of `v` (qToLittleEndian). */
  function Lo(v: Int16): Byte
  {
    (v % 65536) % 256
  }

  /** High byte of the two's-complement form of `v`. */
  function Hi(v: Int16): Byte
  {
    (v % 65536) / 256
  }

  /** Reads back a little-endian 16-bit sample (qFromLittleEndian). */
  function Decode16(lo: Byte, hi: Byte): Int16
  {
    var u := lo + 256 * hi;
    if u >= 32768 then u - 65536 else u
  }

  /** Writing a sample and reading it back gives the sample. */
  lemma Decode16Encode(v: Int16)
    ensures Decode16(Lo(v), Hi(v)) == v
  {
    var u := v % 65536;
    assert u == 256 * (u / 256) + u % 256;
    if v < 0 {
      DivModUnique(v, -1, v + 65536, 65536);
    } else {
      DivModUnique(v, 0, v, 65536);
    }
  }

  /** Whether `calculateToneParameters` leaves the pulse timer running:
      a positive pulse restarts it with interval pulse + silence, and
      `QTimer::start` stops the timer and then refuses a negative
      interval. */
  predicate PulseTimerStarts(c: SoundCharacteristics)
  {
    c.pulseLength > 0 && c.pulseLength + c.silenceLength >= 0
  }

  /** The pulse timer runs in every sink outside the dead band, never inside
      it, and in a climb only below 12.6 m/s: from there the unclamped
      silence makes the interval negative and the pulse stops flipping. */
  lemma PulseTimerRange(vario: real, deadband: real, baseFrequency: real)
    ensures var c := CalculateSoundCharacteristics(vario, deadband, baseFrequency);
      && (Abs(vario) < deadband ==> !PulseTimerStarts(c))
      && (Abs(vario) >= deadband && vario <= 0.0 ==> PulseTimerStarts(c))
      && (Abs(vario) >= deadband && vario > 0.0 ==> (PulseTimerStarts(c) <==> vario < 12.6))
  {
    if Abs(vario) >= deadband && vario > 0.0 {
      var r := 75.0 - 10.0 * vario;
      if vario < 12.6 {
        assert r > -51.0;
      } else {
        assert r <= -51.0;
      }
    }
  }

  // ---------------------------------------------------------------------
  // generateTone: per-sample arithmetic

  /** The synthesiser state `generateTone` keeps in static locals. */
  datatype Synth = Synth(phase: real, lastFreq: real, lastAmplitude: real)

  /** What one call of `generateTone` aims for: the target frequency and
      amplitude, the phase step per hertz and the number of frames. */
  datatype Pass = Pass(targetFreq: real, targetAmplitude: real, d: real, numSamples: nat)

  /** The pass for `tone`: the frequency adds 60 Hz per m/s on top of the
      tone's base frequency; the amplitude is 0 while the pulse is off. */
  function PassOf(tone: Tone, isPulseOn: bool, sampleRate: int, numSamples: nat): (p: Pass)
    requires sampleRate > 0
    ensures p.targetFreq == tone.baseFrequency + 60.0 * tone.vario
    ensures p.targetAmplitude == if isPulseOn then tone.amplitude else 0.0
    ensures p.d * (sampleRate as real) == TWO_PI && p.numSamples == numSamples
  {
    Pass(tone.baseFrequency + tone.vario * 60.0,
         if isPulseOn then tone.amplitude else 0.0,
         TWO_PI / (sampleRate as real), numSamples)
  }

  /** One smoothing step: 10% of the remaining distance to the target. */
  function Approach(x: real, target: real): (r: real)
    ensures r - target == 0.9 * (x - target)
    ensures x <= target ==> x <= r <= target
    ensures target <= x ==> target <= r <= x
  {
    x + (target - x) * 0.1
  }

  /** The phase after `while (phase > 2 pi) phase -= 2 pi`. */
  function Wrap(p: real): real
    decreases (p / TWO_PI).Floor
  {
    if p > TWO_PI then
      assert (p - TWO_PI) / TWO_PI == p / TWO_PI - 1.0;
      Wrap(p - TWO_PI)
    else p
  }

  /** Wrapping leaves a phase in (0, 2 pi] alone and brings any larger one
      into (0, 2 pi]. */
  lemma {:induction false} WrapRange(p: real)
    ensures Wrap(p) <= TWO_PI
    ensures p <= TWO_PI ==> Wrap(p) == p
    ensures p > TWO_PI ==> 0.0 < Wrap(p)
    decreases (p / TWO_PI).Floor
  {
    if p > TWO_PI {
      assert (p - TWO_PI) / TWO_PI == p / TWO_PI - 1.0;
      WrapRange(p - TWO_PI);
    }
  }

  /** How many turns of 2 pi the wrap loop removes. */
  function Turns(p: real): nat
    decreases (p / TWO_PI).Floor
  {
    if p > TWO_PI then
      assert (p - TWO_PI) / TWO_PI == p / TWO_PI - 1.0;
      1 + Turns(p - TWO_PI)
    else 0
  }

  /** Wrapping only removes whole turns. */
  lemma {:induction false} WrapTurns(p: real)
    ensures Wrap(p) == p - (Turns(p) as real) * TWO_PI
    decreases (p / TWO_PI).Floor
  {
    if p > TWO_PI {
      assert (p - TWO_PI) / TWO_PI == p / TWO_PI - 1.0;
      WrapTurns(p - TWO_PI);
      assert (Turns(p) as real) * TWO_PI == TWO_PI + (Turns(p - TWO_PI) as real) * TWO_PI;
    }
  }

  /** The state after one sample: frequency and amplitude smoothed, the phase
      advanced by d x frequency and wrapped. */
  function Step(s: Synth, pass: Pass): Synth
  {
    Synth(Wrap(Advanced(s, pass)), Approach(s.lastFreq, pass.targetFreq),
          Approach(s.lastAmplitude, pass.targetAmplitude))
  }

  /** The phase after one sample, before wrapping: advanced by d times the
      smoothed frequency. */
  function Advanced(s: Synth, pass: Pass): real
  {
    s.phase + pass.d * Approach(s.lastFreq, pass.targetFreq)
  }

  /** The state after `k` samples. */
  function States(s0: Synth, pass: Pass, k: nat): Synth
  {
    if k == 0 then s0 else Step(States(s0, pass, k - 1), pass)
  }

  /** The fade multiplier of sample `n` of `numSamples`: a ramp up over the
      first tenth, a ramp down over the last tenth, 1 in between. */
  function Fade(n: nat, numSamples: nat): (m: real)
    requires n < numSamples
    ensures 0.0 <= m <= 1.0
    ensures n == 0 && numSamples >= 10 ==> m == 0.0
    ensures numSamples < 10 ==> m == 1.0
  {
    var fadeLength := numSamples / 10;
    if n < fadeLength then
      RatioBounds(n as real, fadeLength as real);
      (n as real) / (fadeLength as real)
    else if n > numSamples - fadeLength then
      RatioBounds((numSamples - n) as real, fadeLength as real);
      ((numSamples - n) as real) / (fadeLength as real)
    else 1.0
  }

  lemma RatioBounds(a: real, b: real)
    requires 0.0 <= a <= b && b > 0.0
    ensures 0.0 <= a / b <= 1.0
  {
    assert a / b * b == a;
  }

  lemma RatioMonotone(a1: real, a2: real, b: real)
    requires a1 <= a2 && b > 0.0
    ensures a1 / b <= a2 / b
  {
    assert a1 / b * b == a1 && a2 / b * b == a2;
  }

  /** The fade-in rises and the fade-out falls. */
  lemma FadeRamps(n1: nat, n2: nat, numSamples: nat)
    requires n1 <= n2 < numSamples
    ensures n2 < numSamples / 10 ==> Fade(n1, numSamples) <= Fade(n2, numSamples)
    ensures n1 > numSamples - numSamples / 10 ==> Fade(n2, numSamples) <= Fade(n1, numSamples)
  {
    var fadeLength := numSamples / 10;
    if n2 < fadeLength {
      RatioMonotone(n1 as real, n2 as real, fadeLength as real);
    }
    if n1 > numSamples - fadeLength {
      RatioMonotone((numSamples - n2) as real, (numSamples - n1) as real, fadeLength as real);
    }
  }

  /** The signal of a sample taken in state `s` as sample `n` of the pass,
      before conversion to PCM: the smoothed amplitude (after this sample's
      step) times the fade, times the sine of the phase before the step.
      `sin` stands for qSin. */
  function Signal(s: Synth, pass: Pass, n: nat, sin: real -> real): real
    requires n < pass.numSamples
  {
    Approach(s.lastAmplitude, pass.targetAmplitude) * Fade(n, pass.numSamples) * sin(s.phase)
  }

  /** The PCM value of that sample; `pcm` stands for realToPcm. */
  function SampleFrom(s: Synth, pass: Pass, n: nat, sin: real -> real, pcm: real -> Int16): Int16
    requires n < pass.numSamples
  {
    pcm(Signal(s, pass, n, sin))
  }

  /** The PCM value of sample `n` of a pass begun in state `s0`. */
  function SampleValue(s0: Synth, pass: Pass, n: nat, sin: real -> real, pcm: real -> Int16): Int16
    requires n < pass.numSamples
  {
    SampleFrom(States(s0, pass, n), pass, n, sin, pcm)
  }

  /** Byte `k` of a buffer of `channels`-channel 16-bit frames: it belongs
      to the 16-bit slot k / 2, which belongs to frame (k / 2) / channels;
      every slot of a frame holds the frame's sample, low byte first. */
  function ToneByte(s0: Synth, pass: Pass, channels: nat, sin: real -> real, pcm: real -> Int16,
                    k: nat): Byte
    requires channels > 0 && k < 2 * (channels * pass.numSamples)
  {
    SlotFrame(k, channels, pass.numSamples);
    var v := SampleValue(s0, pass, k / 2 / channels, sin, pcm);
    if k % 2 == 0 then Lo(v) else Hi(v)
  }

  /** 0.9^k. */
  function Decay(k: nat): real
  {
    if k == 0 then 1.0 else 0.9 * Decay(k - 1)
  }

  /** After k samples the frequency and the amplitude have each closed all
      but 0.9^k of their distance to the target. */
  lemma {:induction false} SmoothingClosedForm(s0: Synth, pass: Pass, k: nat)
    ensures States(s0, pass, k).lastFreq - pass.targetFreq ==
      Decay(k) * (s0.lastFreq - pass.targetFreq)
    ensures States(s0, pass, k).lastAmplitude - pass.targetAmplitude ==
      Decay(k) * (s0.lastAmplitude - pass.targetAmplitude)
  {
    if k > 0 {
      SmoothingClosedForm(s0, pass, k - 1);
      var s := States(s0, pass, k - 1);
      assert States(s0, pass, k).lastFreq == Approach(s.lastFreq, pass.targetFreq);
      assert States(s0, pass, k).lastAmplitude == Approach(s.lastAmplitude, pass.targetAmplitude);
      ApproachScales(s.lastFreq, pass.targetFreq, Decay(k - 1), s0.lastFreq - pass.targetFreq);
      ApproachScales(s.lastAmplitude, pass.targetAmplitude, Decay(k - 1),
                     s0.lastAmplitude - pass.targetAmplitude);
    }
  }

  /** A distance of D x e to the target becomes 0.9 D x e. */
  lemma ApproachScales(x: real, target: real, decay: real, e: real)
    requires x - target == decay * e
    ensures Approach(x, target) - target == (0.9 * decay) * e
  {
    assert 0.9 * (decay * e) == (0.9 * decay) * e;
  }

  /** While the pulse is off and the amplitude has settled at 0, every
      sample is the PCM value of silence. */
  lemma {:induction false} SilentWhilePulseOff(s0: Synth, pass: Pass, n: nat,
                                               sin: real -> real, pcm: real -> Int16)
    requires pass.targetAmplitude == 0.0 && s0.lastAmplitude == 0.0 && n < pass.numSamples
    ensures SampleValue(s0, pass, n, sin, pcm) == pcm(0.0)
  {
    AmplitudeStaysZero(s0, pass, n);
  }

  lemma {:induction false} AmplitudeStaysZero(s0: Synth, pass: Pass, k: nat)
    requires pass.targetAmplitude == 0.0 && s0.lastAmplitude == 0.0
    ensures States(s0, pass, k).lastAmplitude == 0.0
  {
    if k > 0 {
      AmplitudeStaysZero(s0, pass, k - 1);
    }
  }

  /** A non-negative phase with a non-negative step stays within [0, 2 pi]. */
  lemma PhaseInRange(s: Synth, pass: Pass)
    requires 0.0 <= s.phase && 0.0 <= pass.d * Approach(s.lastFreq, pass.targetFreq)
    ensures 0.0 <= Step(s, pass).phase <= TWO_PI
  {
    WrapRange(Advanced(s, pass));
  }

  /** Every channel of a frame reads back as the frame's sample. */
  lemma ChannelSample(s0: Synth, pass: Pass, channels: nat, sin: real -> real, pcm: real -> Int16,
                      j: nat)
    requires channels > 0 && j < channels * pass.numSamples
    ensures j / channels < pass.numSamples
    ensures Decode16(ToneByte(s0, pass, channels, sin, pcm, 2 * j),
                     ToneByte(s0, pass, channels, sin, pcm, 2 * j + 1)) ==
            SampleValue(s0, pass, j / channels, sin, pcm)
  {
    DivModUnique(2 * j, j, 0, 2);
    DivModUnique(2 * j + 1, j, 1, 2);
    SlotFrame(2 * j, channels, pass.numSamples);
    Decode16Encode(SampleValue(s0, pass, j / channels, sin, pcm));
  }

  /** A byte inside the frames lies in one of the frames. */
  lemma SlotFrame(k: nat, channels: nat, numSamples: nat)
    requires channels > 0 && k < 2 * (channels * numSamples)
    ensures k / 2 / channels < numSamples
  {
    var slot := k / 2;
    DivModUnique(k, slot, k % 2, 2);
    assert slot < channels * numSamples;
    var q := slot / channels;
    DivModUnique(slot, q, slot % channels, channels);
    if q >= numSamples {
      MulAtLeast(channels, q - numSamples + 1);
    }
  }

  /** Offset `n * 2c + r` is byte `r` of frame `n`. */
  lemma FrameByte(n: nat, channels: nat, r: nat)
    requires channels > 0 && r < 2 * channels
    ensures (n * (2 * channels) + r) / 2 / channels == n
    ensures (n * (2 * channels) + r) % 2 == r % 2
  {
    var k := n * (2 * channels) + r;
    assert k == (n * channels + r / 2) * 2 + r % 2;
    DivModUnique(k, n * channels + r / 2, r % 2, 2);
    DivModUnique(n * channels + r / 2, n, r / 2, channels);
  }

  /** Byte `k` of the frame at `p` that `WriteChannels` puts down for
      sample `n` is byte `k` of `ToneByte`. */
  lemma FrameWritten(s0: Synth, pass: Pass, channels: nat, sin: real -> real, pcm: real -> Int16,
                     n: nat, p: nat, k: nat)
    requires channels > 0 && n < pass.numSamples && p == n * (channels * 2)
    requires p <= k < p + 2 * channels
    ensures k < 2 * (channels * pass.numSamples)
    ensures ToneByte(s0, pass, channels, sin, pcm, k) ==
      var v := SampleValue(s0, pass, n, sin, pcm);
      if (k - p) % 2 == 0 then Lo(v) else Hi(v)
  {
    FrameSlot(n, channels, pass.numSamples, p, k);
  }

  /** Byte `k` of the frame at `p` lies in frame `n`, with the parity of its
      offset in the frame. */
  lemma FrameSlot(n: nat, channels: nat, numSamples: nat, p: nat, k: nat)
    requires channels > 0 && n < numSamples && p == n * (channels * 2)
    requires p <= k < p + 2 * channels
    ensures k < 2 * (channels * numSamples)
    ensures k / 2 / channels == n && k % 2 == (k - p) % 2
  {
    FrameEnd(numSamples, n, channels * 2);
    assert n * (2 * channels) == p;
    FrameByte(n, channels, k - p);
    DivModUnique(p, n * channels, 0, 2);
    ModShift(p, k - p, 2);
  }

  /** `while (phase > 2 pi) phase -= 2 pi`. */
  method WrapPhase(unwrapped: real) returns (phase: real)
    ensures phase == Wrap(unwrapped)
  {
    phase := unwrapped;
    while phase > TWO_PI
      invariant Wrap(phase) == Wrap(unwrapped)
      decreases (phase / TWO_PI).Floor
    {
      assert (phase - TWO_PI) / TWO_PI == phase / TWO_PI - 1.0;
      phase := phase - TWO_PI;
    }
  }

  /** The fade branch of the sample loop of `generateTone`. */
  method FadeMultiplier(currentSample: nat, numSamples: nat) returns (fadeMultiplier: real)
    requires currentSample < numSamples
    ensures fadeMultiplier == Fade(currentSample, numSamples)
  {
    var fadeLength := numSamples / 10;
    fadeMultiplier := 1.0;
    if currentSample < fadeLength {
      fadeMultiplier := (currentSample as real) / (fadeLength as real);
    } else if currentSample > numSamples - fadeLength {
      fadeMultiplier := ((numSamples - currentSample) as real) / (fadeLength as real);
    }
  }

  /** The body of the sample loop of `generateTone` for sample `n`: the
      frequency and amplitude smoothed, the fade, the PCM value, and the
      phase advanced and wrapped. */
  method NextSample(s: Synth, pass: Pass, n: nat, sin: real -> real, pcm: real -> Int16)
    returns (value: Int16, next: Synth)
    requires n < pass.numSamples
    ensures value == SampleFrom(s, pass, n, sin, pcm)
    ensures next == Step(s, pass)
  {
    var freqChangeRate := 0.1;
    var phase, lastFreq, lastAmplitude := s.phase, s.lastFreq, s.lastAmplitude;
    lastFreq := lastFreq + (pass.targetFreq - lastFreq) * freqChangeRate;

    var fadeMultiplier := FadeMultiplier(n, pass.numSamples);
    lastAmplitude := lastAmplitude + (pass.targetAmplitude - lastAmplitude) * 0.1;
    var currentAmplitude := lastAmplitude * fadeMultiplier;
    var x := currentAmplitude * sin(phase);
    assert x == Signal(s, pass, n, sin);
    value := pcm(x);

    phase := phase + pass.d * lastFreq;
    assert phase == Advanced(s, pass);
    phase := WrapPhase(phase);
    next := Synth(phase, lastFreq, lastAmplitude);
  }

  /** The sample loop of `generateTone`: from state `s0`, one frame per
      sample, each channel holding the sample low byte first; returns the
      state after the last sample. */
  method RenderTone(buf: array<Byte>, channels: nat, s0: Synth, pass: Pass,
                    sin: real -> real, pcm: real -> Int16) returns (s: Synth)
    requires channels > 0 && buf.Length == 2 * (channels * pass.numSamples)
    modifies buf
    ensures s == States(s0, pass, pass.numSamples)
    ensures forall k :: 0 <= k < buf.Length ==> buf[k] == ToneByte(s0, pass, channels, sin, pcm, k)
  {
    var channelBytes := 2;
    var sampleBytes := channels * channelBytes;
    var numSamples := pass.numSamples;
    var length := buf.Length;
    s := s0;
    var currentSample := 0;
    var p := 0;  // the offset of `ptr`
    assert sampleBytes == channels * 2;
    assert buf.Length == numSamples * sampleBytes;
    while length != 0
      invariant 0 <= currentSample <= numSamples
      invariant p == currentSample * sampleBytes && length == buf.Length - p
      invariant s == States(s0, pass, currentSample)
      invariant forall k :: 0 <= k < p ==>
        k < 2 * (channels * numSamples) && buf[k] == ToneByte(s0, pass, channels, sin, pcm, k)
      decreases length
    {
      FrameStep(numSamples, currentSample, sampleBytes, p);
      var value;
      value, s := NextSample(s, pass, currentSample, sin, pcm);
      WriteChannels(buf, p, channels, value);
      forall k | p <= k < p + sampleBytes
        ensures k < 2 * (channels * numSamples) && buf[k] == ToneByte(s0, pass, channels, sin, pcm, k)
      {
        FrameWritten(s0, pass, channels, sin, pcm, currentSample, p, k);
      }
      length := length - sampleBytes;
      p := p + sampleBytes;
      currentSample := currentSample + 1;
    }
    MulCancel(currentSample, numSamples, sampleBytes);
  }

  /** `channels` copies of `v`, low byte first, at offset `p`: the
      per-channel loop of `generateTone`. */
  method WriteChannels(buf: array<Byte>, p: nat, channels: nat, v: Int16)
    requires p + 2 * channels <= buf.Length
    modifies buf
    ensures forall k :: p <= k < p + 2 * channels ==>
      buf[k] == if (k - p) % 2 == 0 then Lo(v) else Hi(v)
    ensures forall k :: 0 <= k < buf.Length && !(p <= k < p + 2 * channels) ==> buf[k] == old(buf[k])
  {
    var q := p;
    var i := 0;
    while i < channels
      invariant 0 <= i <= channels && q == p + 2 * i
      invariant forall k :: p <= k < q ==> buf[k] == if (k - p) % 2 == 0 then Lo(v) else Hi(v)
      invariant forall k :: 0 <= k < buf.Length && !(p <= k < q) ==> buf[k] == old(buf[k])
    {
      buf[q] := Lo(v);
      buf[q + 1] := Hi(v);
      DivModUnique(q - p, i, 0, 2);
      DivModUnique(q + 1 - p, i, 1, 2);
      q := q + 2;
      i := i + 1;
    }
  }

  // ---------------------------------------------------------------------
  // VarioSound

  /** The synthesiser state a `generateTone` call for tone `t` starts from:
      the statics `s`, or, on the first call, their initialisers (phase 0,
      the tone's base frequency, amplitude 0). */
  function StartState(started: bool, s: Synth, t: Tone): Synth
  {
    if started then s else Synth(0.0, t.baseFrequency, 0.0)
  }

  /** The tone being played (the Tone record of variosound.cpp). */
  datatype Tone = Tone(baseFrequency: real, amplitude: real, pulseLength: int, silenceLength: int, vario: real)

  class VarioSound {
    const deadband: real
    const baseFrequency: real
    const sampleRate: int
    /** Whether the default device supported the format, so that the
        constructor created `m_audioOutput`. */
    const hasOutput: bool
    /** The pieces of the runtime the model leaves abstract: qSin and
        realToPcm. */
    const sin: real -> real
    const pcm: real -> Int16

    var currentVario: real
    var tone: Tone
    var isPulseOn: bool
    var stop: bool
    /** `m_pulseTimer`: running or not, and its interval in ms. */
    var timerActive: bool
    var timerInterval: int
    /** Whether `m_audioOutput` was last started (rather than stopped). */
    var outputRunning: bool
    /** `m_buffer`: mono 16-bit frames. */
    var buffer: array<Byte>
    /** The static locals of `generateTone`, and whether they have been
        initialised by a first call. */
    var synth: Synth
    var synthStarted: bool

    /** The sample rate is positive, the buffer holds whole 16-bit frames,
        and only an existing output can have been started. */
    ghost predicate Valid()
      reads this
    {
      sampleRate > 0 && buffer.Length % 2 == 0 && (outputRunning ==> hasOutput)
    }

    /** The constructor: a silent buffer of `frames` mono Int16 frames and
        the initial tone at the base frequency. */
    constructor (deadband: real, baseFrequency: real, sampleRate: int, frames: nat,
                 hasOutput: bool, sin: real -> real, pcm: real -> Int16)
      requires sampleRate > 0
      ensures Valid() && fresh(buffer) && buffer.Length == 2 * frames
      ensures forall k :: 0 <= k < buffer.Length ==> buffer[k] == 0
      ensures this.deadband == deadband && this.baseFrequency == baseFrequency
      ensures this.sampleRate == sampleRate && this.hasOutput == hasOutput
      ensures this.sin == sin && this.pcm == pcm
      ensures tone == Tone(baseFrequency, 0.8, 0, 0, 0.0)
      ensures !timerActive && !outputRunning && !synthStarted
    {
      this.deadband := deadband;
      this.baseFrequency := baseFrequency;
      this.sampleRate := sampleRate;
      this.hasOutput := hasOutput;
      this.sin := sin;
      this.pcm := pcm;
      buffer := new Byte[2 * frames](_ => 0);
      tone := Tone(baseFrequency, 0.8, 0, 0, 0.0);
      timerActive := false;
      timerInterval := 0;
      outputRunning := false;
      synth := Synth(0.0, baseFrequency, 0.0);
      synthStarted := false;
      var v: real :| true;
      currentVario := v;
      var pulse: bool :| true;
      isPulseOn := pulse;
      var stopped: bool :| true;
      stop := stopped;
    }

    /** `generateTone` for a 16-bit format of `channels` channels at
        `rate` Hz: one sample per frame, the same value in every channel. */
    method GenerateTone(t: Tone, rate: int, channels: nat, buf: array<Byte>, pulseOn: bool)
      requires rate > 0 && channels > 0 && buf.Length % (2 * channels) == 0
      modifies buf, this`synth, this`synthStarted
      ensures (AlignedFrames(buf.Length, channels);
        var pass := PassOf(t, pulseOn, rate, buf.Length / 2 / channels);
        && synthStarted
        && synth == States(StartState(old(synthStarted), old(synth), t), pass, pass.numSamples)
        && forall k :: 0 <= k < buf.Length ==>
             buf[k] == ToneByte(StartState(old(synthStarted), old(synth), t), pass, channels, sin, pcm, k))
    {
      var numSamples := buf.Length / 2 / channels;
      AlignedFrames(buf.Length, channels);
      if !synthStarted {
        synth := Synth(0.0, t.baseFrequency, 0.0);
        synthStarted := true;
      }
      var d := TWO_PI / (rate as real);
      var targetFreq := t.baseFrequency + t.vario * 60.0;
      var targetAmplitude := if pulseOn then t.amplitude else 0.0;
      var pass := Pass(targetFreq, targetAmplitude, d, numSamples);
      synth := RenderTone(buf, channels, synth, pass, sin, pcm);
    }

    /** `calculateToneParameters`: the tone takes the four characteristics
        of the current climb rate. A positive pulse restarts the pulse
        timer with period pulse + silence, and it runs only when that
        period is not negative (`PulseTimerStarts`); otherwise the timer is
        stopped. */
    method CalculateToneParameters()
      modifies this`tone, this`timerActive, this`timerInterval
      ensures var c := CalculateSoundCharacteristics(currentVario, deadband, baseFrequency);
        && tone == old(tone).(baseFrequency := c.frequency, amplitude := c.amplitude,
                              pulseLength := c.pulseLength, silenceLength := c.silenceLength)
        && timerActive == PulseTimerStarts(c)
        && timerInterval == if c.pulseLength > 0 then c.pulseLength + c.silenceLength else old(timerInterval)
    {
      var chars := CalculateSoundCharacteristics(currentVario, deadband, baseFrequency);
      tone := tone.(baseFrequency := chars.frequency);
      tone := tone.(amplitude := chars.amplitude);
      tone := tone.(pulseLength := chars.pulseLength);
      tone := tone.(silenceLength := chars.silenceLength);
      if tone.pulseLength > 0 {
        timerInterval := tone.pulseLength + tone.silenceLength;
        timerActive := timerInterval >= 0;
      } else {
        timerActive := false;
      }
    }

    /** `playSound`: with an output and not stopped, renders the current
        tone into the buffer and starts the output on it; otherwise does
        nothing. */
    method PlaySound()
      requires Valid()
      modifies buffer, this`synth, this`synthStarted, this`outputRunning
      ensures Valid()
      ensures !hasOutput || stop ==>
        unchanged(buffer) && synth == old(synth) && synthStarted == old(synthStarted) &&
        outputRunning == old(outputRunning)
      ensures hasOutput && !stop ==>
        var pass := PassOf(tone, isPulseOn, sampleRate, buffer.Length / 2);
        && outputRunning && synthStarted
        && synth == States(StartState(old(synthStarted), old(synth), tone), pass, pass.numSamples)
        && forall k :: 0 <= k < buffer.Length ==>
             buffer[k] == ToneByte(StartState(old(synthStarted), old(synth), tone), pass, 1, sin, pcm, k)
    {
      if !hasOutput || stop {
        return;
      }
      GenerateTone(tone, sampleRate, 1, buffer, isPulseOn);
      outputRunning := true;
    }

    /** `updateVario`: records the climb rate in the tone, recomputes the
        tone parameters and plays. */
    method UpdateVario(vario: real)
      requires Valid()
      modifies this`currentVario, this`tone, this`timerActive, this`timerInterval,
               buffer, this`synth, this`synthStarted, this`outputRunning
      ensures Valid() && currentVario == vario
      ensures var c := CalculateSoundCharacteristics(vario, deadband, baseFrequency);
        && tone == Tone(c.frequency, c.amplitude, c.pulseLength, c.silenceLength, vario)
        && timerActive == PulseTimerStarts(c)
        && timerInterval == if c.pulseLength > 0 then c.pulseLength + c.silenceLength else old(timerInterval)
      ensures outputRunning == (old(outputRunning) || (hasOutput && !stop))
      ensures !hasOutput || stop ==>
        unchanged(buffer) && synth == old(synth) && synthStarted == old(synthStarted)
      ensures hasOutput && !stop ==>
        var pass := PassOf(tone, isPulseOn, sampleRate, buffer.Length / 2);
        && synthStarted
        && synth == States(StartState(old(synthStarted), old(synth), tone), pass, pass.numSamples)
        && forall k :: 0 <= k < buffer.Length ==>
             buffer[k] == ToneByte(StartState(old(synthStarted), old(synth), tone), pass, 1, sin, pcm, k)
    {
      currentVario := vario;
      tone := tone.(vario := vario);
      CalculateToneParameters();
      PlaySound();
    }

    /** `updatePulseTimer`: each tick flips the pulse and, unless stopped,
        plays. */
    method UpdatePulseTimer()
      requires Valid()
      modifies this`isPulseOn, buffer, this`synth, this`synthStarted, this`outputRunning
      ensures Valid() && isPulseOn == !old(isPulseOn)
      ensures stop || !hasOutput ==>
        unchanged(buffer) && synth == old(synth) && synthStarted == old(synthStarted) &&
        outputRunning == old(outputRunning)
      ensures !stop && hasOutput ==>
        var pass := PassOf(tone, isPulseOn, sampleRate, buffer.Length / 2);
        && outputRunning && synthStarted
        && synth == States(StartState(old(synthStarted), old(synth), tone), pass, pass.numSamples)
        && forall k :: 0 <= k < buffer.Length ==>
             buffer[k] == ToneByte(StartState(old(synthStarted), old(synth), tone), pass, 1, sin, pcm, k)
    {
      isPulseOn := !isPulseOn;
      if !stop {
        PlaySound();
      }
    }

    /** `setStop`: stopping halts the pulse timer and the output; resuming
        recomputes the tone for the current climb rate. The output is
        stopped only when it exists (`SetStopCalls`), where the source
        stops it unconditionally (`SetStopCallsAsWritten`). */
    method SetStop(newStop: bool)
      requires Valid()
      modifies this`stop, this`timerActive, this`outputRunning, this`tone, this`timerInterval
      ensures Valid() && stop == newStop
      ensures newStop ==>
        !timerActive && !outputRunning && tone == old(tone) && timerInterval == old(timerInterval)
      ensures newStop ==>
        outputRunning == (old(outputRunning) && StopAudioOutput !in SetStopCalls(hasOutput, newStop))
      ensures !newStop ==>
        var c := CalculateSoundCharacteristics(currentVario, deadband, baseFrequency);
        && tone == old(tone).(baseFrequency := c.frequency, amplitude := c.amplitude,
                              pulseLength := c.pulseLength, silenceLength := c.silenceLength)
        && timerActive == PulseTimerStarts(c) && outputRunning == old(outputRunning)
        && timerInterval == if c.pulseLength > 0 then c.pulseLength + c.silenceLength else old(timerInterval)
    {
      stop := newStop;
      if stop {
        timerActive := false;
        if hasOutput {
          outputRunning := false;
        }
      } else {
        CalculateToneParameters();
      }
    }
  }

  /** The calls `setStop` makes on the pulse timer and the audio sink. */
  datatype DeviceCall = StopPulseTimer | StopAudioOutput

  /** `setStop` as written: stopping stops the timer and then the sink,
      whether or not the constructor created one. */
  function SetStopCallsAsWritten(newStop: bool): seq<DeviceCall>
  {
    if newStop then [StopPulseTimer, StopAudioOutput] else []
  }

  /** `setStop` with the sink guarded as `playSound` guards it. */
  function SetStopCalls(hasOutput: bool, newStop: bool): seq<DeviceCall>
  {
    if newStop then [StopPulseTimer] + (if hasOutput then [StopAudioOutput] else []) else []
  }

  /** The calls never reach a sink that does not exist. */
  predicate SinkSafe(calls: seq<DeviceCall>, hasOutput: bool)
  {
    hasOutput || StopAudioOutput !in calls
  }

  /** As written, `setStop` reaches a missing sink exactly when it stops a
      `VarioSound` whose format the device did not support. */
  lemma SetStopAsWrittenFaults(hasOutput: bool, newStop: bool)
    ensures SinkSafe(SetStopCallsAsWritten(newStop), hasOutput) <==> hasOutput || !newStop
    ensures !SinkSafe(SetStopCallsAsWritten(true), false)
  {
    assert SetStopCallsAsWritten(true)[1] == StopAudioOutput;
  }

  /** Guarded, `setStop` is safe in every state, still stops the timer
      exactly when stopping, and makes the same calls as written whenever
      the sink exists. */
  lemma SetStopGuardedSafe(hasOutput: bool, newStop: bool)
    ensures SinkSafe(SetStopCalls(hasOutput, newStop), hasOutput)
    ensures StopPulseTimer in SetStopCalls(hasOutput, newStop) <==> newStop
    ensures hasOutput ==> SetStopCalls(hasOutput, newStop) == SetStopCallsAsWritten(newStop)
  {
    if newStop {
      assert SetStopCalls(hasOutput, newStop)[0] == StopPulseTimer;
    }
  }

  /** A whole number of frames: counting frames directly or 16-bit slots
      first gives the same count. */
  lemma AlignedFrames(length: nat, channels: nat)
    requires channels > 0 && length % (2 * channels) == 0
    ensures length / (channels * 2) == length / 2 / channels
    ensures length == 2 * (channels * (length / 2 / channels))
  {
    var q := length / (2 * channels);
    assert length == q * (2 * channels);
    DivModUnique(length, q * channels, 0, 2);
    DivModUnique(q * channels, q, 0, channels);
    DivModUnique(length, q, 0, channels * 2);
  }
}
