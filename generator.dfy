// Model of generator.cpp: the looping sample source `Generator`, a QIODevice
// that synthesises one period of samples into a byte buffer and then serves
// reads from it circularly.

module SignalGenerator {
  import Utils

  /** QAudioFormat::SampleFormat. */
  datatype SampleFormat = Unknown | UInt8 | Int16 | Int32 | Float

  /** QAudioFormat::bytesPerSample. */
  function BytesPerSample(f: SampleFormat): (n: nat)
    ensures n == 0 <==> f == Unknown
    ensures n <= 4
  {
    match f
    case Unknown => 0
    case UInt8 => 1
    case Int16 => 2
    case Int32 => 4
    case Float => 4
  }

  /** The parts of a QAudioFormat the generator reads. */
  datatype AudioFormat = AudioFormat(sampleRate: int, channelCount: int, sampleFormat: SampleFormat)

  /** QAudioFormat::isValid. */
  predicate IsValid(f: AudioFormat)
  {
    f.sampleRate > 0 && f.channelCount > 0 && f.sampleFormat != Unknown
  }

  /** The sample formats `generateData` has a case for; any other one makes
      it return before the first byte is written. */
  predicate Handled(f: SampleFormat)
  {
    f == Int16 || f == Int32 || f == Float
  }

  /** Bytes in one frame: one sample for every channel. */
  function FrameBytes(f: AudioFormat): int
  {
    f.channelCount * BytesPerSample(f.sampleFormat)
  }

  /** C++ integer division, truncating toward zero. */
  function CDiv(a: int, b: int): (q: int)
    requires b > 0
    ensures a >= 0 ==> q == a / b
    ensures a < 0 ==> q == -((-a) / b)
  {
    if a >= 0 then a / b else -((-a) / b)
  }

  /** The byte count `generateData` computes for `durationUs` microseconds:
      rate x channels x bytes per sample x duration / 1000000, rounded toward
      zero; QByteArray::resize treats a negative size as empty. */
  function RawLength(f: AudioFormat, durationUs: int): nat
  {
    var q := CDiv(f.sampleRate * FrameBytes(f) * durationUs, 1000000);
    if q > 0 then q else 0
  }

  // ---------------------------------------------------------------------
  // The buffer length as written and the overrun it allows

  /** Bytes the `generateData` loop writes when it starts with `length`
      bytes to go: it tests `length > 0` once per frame, and the
      per-channel loop inside writes a whole frame of `frame` bytes. */
  function WrittenAsWritten(length: int, frame: nat): (n: nat)
    requires frame > 0
    decreases if length > 0 then length else 0
  {
    if length <= 0 then 0 else frame + WrittenAsWritten(length - frame, frame)
  }

  /** The loop writes whole frames until `length` is used up: the smallest
      multiple of the frame size not below `length`. */
  lemma {:induction false} WrittenAsWrittenRounds(length: nat, frame: nat)
    requires frame > 0
    ensures WrittenAsWritten(length, frame) % frame == 0
    ensures length <= WrittenAsWritten(length, frame) < length + frame
    decreases length
  {
    if length >= frame {
      WrittenAsWrittenRounds(length - frame, frame);
      Utils.AddMultiple(WrittenAsWritten(length - frame, frame), frame);
    } else if length > 0 {
      assert WrittenAsWritten(length - frame, frame) == 0;
    }
  }

  /** As written the loop stays inside the buffer exactly when the buffer
      length is a whole number of frames. */
  lemma WrittenAsWrittenOverruns(length: nat, frame: nat)
    requires frame > 0
    ensures WrittenAsWritten(length, frame) >= length
    ensures WrittenAsWritten(length, frame) > length <==> length % frame != 0
  {
    WrittenAsWrittenRounds(length, frame);
    var w := WrittenAsWritten(length, frame);
    if length % frame == 0 {
      assert length == length / frame * frame;
      Utils.DivModUnique(w, length / frame, w - length, frame);
    }
  }

  /** 10 microseconds of 44.1 kHz stereo Int16 give a 1-byte buffer, and the
      loop writes a 4-byte frame into it. */
  lemma UnalignedOverrun()
    ensures var f := AudioFormat(44100, 2, Int16);
      RawLength(f, 10) == 1 && WrittenAsWritten(RawLength(f, 10), FrameBytes(f)) == 4
  {
    var f := AudioFormat(44100, 2, Int16);
    assert FrameBytes(f) == 4;
    assert f.sampleRate * FrameBytes(f) * 10 == 1764000;
    assert WrittenAsWritten(1 - 4, 4) == 0;
  }

  /** The buffer length used by this model: the computed byte count rounded
      down to whole frames, as QAudioFormat::bytesForDuration gives it. */
  function FrameLength(f: AudioFormat, durationUs: int): (n: nat)
    ensures n <= RawLength(f, durationUs)
    ensures FrameBytes(f) > 0 ==> n % FrameBytes(f) == 0
    ensures FrameBytes(f) > 0 ==> RawLength(f, durationUs) - n < FrameBytes(f)
  {
    var sb := FrameBytes(f);
    if sb <= 0 then 0 else RoundDown(RawLength(f, durationUs), sb)
  }

  /** `n` rounded down to a multiple of `m`. */
  function RoundDown(n: nat, m: int): (r: nat)
    requires m > 0
    ensures r <= n && r % m == 0 && n - r < m
  {
    assert n == n / m * m + n % m;
    Utils.DivModUnique(n / m * m, n / m, 0, m);
    n / m * m
  }

  /** With whole frames the loop writes exactly the buffer. */
  lemma FrameLengthFits(f: AudioFormat, durationUs: int)
    requires FrameBytes(f) > 0
    ensures WrittenAsWritten(FrameLength(f, durationUs), FrameBytes(f)) == FrameLength(f, durationUs)
  {
    var n, sb := FrameLength(f, durationUs), FrameBytes(f);
    WrittenAsWrittenRounds(n, sb);
    SameRound(n, WrittenAsWritten(n, sb), sb);
  }

  /** Two multiples of `m` less than `m` apart are equal. */
  lemma SameRound(a: int, b: int, m: int)
    requires m > 0 && a % m == 0 && b % m == 0 && a <= b < a + m
    ensures a == b
  {
    assert a == a / m * m;
    Utils.DivModUnique(b, a / m, b - a, m);
  }

  // ---------------------------------------------------------------------
  // Frame contents

  /** The sine value of frame `s`: qSin of 2 pi x rate x (s mod the format's
      rate) / the format's rate; `sin` stands for qSin. */
  function FrameValue(f: AudioFormat, rate: int, sin: real -> real, s: nat): real
    requires f.sampleRate > 0
  {
    sin(FrameAngle(f, rate, s))
  }

  /** The argument of qSin for frame `s`. */
  function FrameAngle(f: AudioFormat, rate: int, s: nat): real
    requires f.sampleRate > 0
  {
    Utils.TWO_PI * (rate as real) * ((s % f.sampleRate) as real) / (f.sampleRate as real)
  }

  /** The byte at offset `k`: byte `(k mod frame) mod sampleBytes` of the
      encoding of the value of frame `k / frame`. `encode` stands for the
      static_cast and memcpy of each format's case. */
  function ByteAt(f: AudioFormat, rate: int, sin: real -> real,
                  encode: (SampleFormat, real) -> seq<Utils.Byte>, k: nat): Utils.Byte
    requires IsValid(f)
    requires forall fm, x :: |encode(fm, x)| == BytesPerSample(fm)
  {
    var sb := FrameBytes(f);
    assert sb > 0 by { Utils.MulAtLeast(f.channelCount, BytesPerSample(f.sampleFormat)); }
    encode(f.sampleFormat, FrameValue(f, rate, sin, k / sb))[(k % sb) % BytesPerSample(f.sampleFormat)]
  }

  /** Every channel of a frame carries the same sample. */
  lemma SameSampleEveryChannel(f: AudioFormat, rate: int, sin: real -> real,
                               encode: (SampleFormat, real) -> seq<Utils.Byte>,
                               s: nat, c1: nat, c2: nat, j: nat)
    requires IsValid(f) && forall fm, x :: |encode(fm, x)| == BytesPerSample(fm)
    requires c1 < f.channelCount && c2 < f.channelCount && j < BytesPerSample(f.sampleFormat)
    ensures var cb := BytesPerSample(f.sampleFormat);
      ByteAt(f, rate, sin, encode, s * FrameBytes(f) + c1 * cb + j) ==
      ByteAt(f, rate, sin, encode, s * FrameBytes(f) + c2 * cb + j)
  {
    var cb := BytesPerSample(f.sampleFormat);
    FrameOffset(f, s, c1, j);
    FrameOffset(f, s, c2, j);
  }

  /** Offset `s * frame + c * sampleBytes + j` lies in frame `s`, channel `c`,
      byte `j`. */
  lemma FrameOffset(f: AudioFormat, s: nat, c: nat, j: nat)
    requires IsValid(f) && c < f.channelCount && j < BytesPerSample(f.sampleFormat)
    ensures var cb, sb := BytesPerSample(f.sampleFormat), FrameBytes(f);
      var k := s * sb + c * cb + j;
      k / sb == s && (k % sb) % cb == j
  {
    var cb, sb := BytesPerSample(f.sampleFormat), FrameBytes(f);
    var n := f.channelCount;
    Utils.MulAtLeast(n - c, cb);
    assert (n - c) * cb == sb - c * cb;
    Utils.DivModUnique(s * sb + c * cb + j, s, c * cb + j, sb);
    Utils.DivModUnique(c * cb + j, c, j, cb);
  }

  /** The samples repeat with the format's rate: frame s and frame s + rate
      hold the same value. */
  lemma FramePeriodic(f: AudioFormat, rate: int, sin: real -> real, s: nat)
    requires f.sampleRate > 0
    ensures FrameValue(f, rate, sin, s + f.sampleRate) == FrameValue(f, rate, sin, s)
  {
    var r := f.sampleRate;
    assert (s + r) % r == s % r by {
      assert s == s / r * r + s % r;
      assert s + r == (s / r + 1) * r + s % r;
      Utils.DivModUnique(s + r, s / r + 1, s % r, r);
    }
    assert FrameAngle(f, rate, s + r) == FrameAngle(f, rate, s);
  }

  /** `b` written `n` times in a row. */
  function Repeat(b: seq<Utils.Byte>, n: nat): seq<Utils.Byte>
  {
    if n == 0 then [] else Repeat(b, n - 1) + b
  }

  /** `n` copies of `b` take `n * |b|` bytes. */
  lemma {:induction false} RepeatLength(b: seq<Utils.Byte>, n: nat)
    ensures |Repeat(b, n)| == n * |b|
    decreases n
  {
    if n > 0 {
      RepeatLength(b, n - 1);
      assert n * |b| == (n - 1) * |b| + |b|;
    }
  }

  /** Byte `m` of the repetition is byte `m mod |b|` of `b`. */
  lemma {:induction false} RepeatAt(b: seq<Utils.Byte>, n: nat, m: nat)
    requires |b| > 0 && m < |Repeat(b, n)|
    ensures Repeat(b, n)[m] == b[m % |b|]
    decreases n
  {
    var r := Repeat(b, n - 1);
    if m < |r| {
      RepeatAt(b, n - 1, m);
    } else {
      RepeatLength(b, n - 1);
      Utils.DivModUnique(m, n - 1, m - |r|, |b|);
    }
  }

  /** The bytes the per-channel loop writes for frame `s`: the encoded
      sample once for every channel. */
  function Frame(f: AudioFormat, rate: int, sin: real -> real,
                 encode: (SampleFormat, real) -> seq<Utils.Byte>, s: nat): seq<Utils.Byte>
    requires IsValid(f)
  {
    Repeat(encode(f.sampleFormat, FrameValue(f, rate, sin, s)), f.channelCount)
  }

  /** The bytes of frames 0 to count - 1, one after the other. */
  function Frames(f: AudioFormat, rate: int, sin: real -> real,
                  encode: (SampleFormat, real) -> seq<Utils.Byte>, count: nat): seq<Utils.Byte>
    requires IsValid(f)
  {
    if count == 0 then [] else Frames(f, rate, sin, encode, count - 1) + Frame(f, rate, sin, encode, count - 1)
  }

  /** A frame takes `FrameBytes` bytes. */
  lemma FrameSize(f: AudioFormat, rate: int, sin: real -> real,
                  encode: (SampleFormat, real) -> seq<Utils.Byte>, s: nat)
    requires IsValid(f) && forall fm, x :: |encode(fm, x)| == BytesPerSample(fm)
    ensures |Frame(f, rate, sin, encode, s)| == FrameBytes(f)
  {
    RepeatLength(encode(f.sampleFormat, FrameValue(f, rate, sin, s)), f.channelCount);
  }

  /** `count` frames take `count * FrameBytes` bytes. */
  lemma {:induction false} FramesSize(f: AudioFormat, rate: int, sin: real -> real,
                                      encode: (SampleFormat, real) -> seq<Utils.Byte>, count: nat)
    requires IsValid(f) && forall fm, x :: |encode(fm, x)| == BytesPerSample(fm)
    ensures |Frames(f, rate, sin, encode, count)| == count * FrameBytes(f)
    decreases count
  {
    if count > 0 {
      FramesSize(f, rate, sin, encode, count - 1);
      FrameSize(f, rate, sin, encode, count - 1);
      assert count * FrameBytes(f) == (count - 1) * FrameBytes(f) + FrameBytes(f);
    }
  }

  /** The buffer built frame by frame agrees byte for byte with the closed
      form `ByteAt`: frame `k / frame`, byte `(k mod frame) mod sampleBytes`. */
  lemma {:induction false} FramesAt(f: AudioFormat, rate: int, sin: real -> real,
                                    encode: (SampleFormat, real) -> seq<Utils.Byte>, count: nat, k: nat)
    requires IsValid(f) && forall fm, x :: |encode(fm, x)| == BytesPerSample(fm)
    requires k < |Frames(f, rate, sin, encode, count)|
    ensures Frames(f, rate, sin, encode, count)[k] == ByteAt(f, rate, sin, encode, k)
    decreases count
  {
    var prev := Frames(f, rate, sin, encode, count - 1);
    if k < |prev| {
      FramesAt(f, rate, sin, encode, count - 1, k);
    } else {
      var sb := FrameBytes(f);
      var bytes := encode(f.sampleFormat, FrameValue(f, rate, sin, count - 1));
      FramesSize(f, rate, sin, encode, count - 1);
      FrameSize(f, rate, sin, encode, count - 1);
      var m := k - |prev|;
      RepeatAt(bytes, f.channelCount, m);
      Utils.DivModUnique(k, count - 1, m, sb);
    }
  }

  /** Whole frames the buffer holds. */
  function FrameCount(f: AudioFormat, durationUs: int): nat
    requires IsValid(f)
  {
    Utils.MulAtLeast(f.channelCount, BytesPerSample(f.sampleFormat));
    FrameLength(f, durationUs) / FrameBytes(f)
  }

  /** The frames of the buffer fill exactly `FrameLength` bytes. */
  lemma FrameCountSize(f: AudioFormat, rate: int, sin: real -> real,
                       encode: (SampleFormat, real) -> seq<Utils.Byte>, durationUs: int)
    requires IsValid(f) && forall fm, x :: |encode(fm, x)| == BytesPerSample(fm)
    ensures |Frames(f, rate, sin, encode, FrameCount(f, durationUs))| == FrameLength(f, durationUs)
  {
    var sb := FrameBytes(f);
    Utils.MulAtLeast(f.channelCount, BytesPerSample(f.sampleFormat));
    var n := FrameLength(f, durationUs);
    FramesSize(f, rate, sin, encode, n / sb);
    Whole(n, sb);
  }

  /** A multiple of `m` is its quotient times `m`. */
  lemma Whole(n: int, m: int)
    requires m > 0 && n % m == 0
    ensures n / m * m == n
  {
  }

  /** Each later frame count takes at least one more frame of bytes. */
  lemma {:induction false} FramesGrowStrictly(f: AudioFormat, rate: int, sin: real -> real,
                                              encode: (SampleFormat, real) -> seq<Utils.Byte>, i: nat, j: nat)
    requires IsValid(f) && forall fm, x :: |encode(fm, x)| == BytesPerSample(fm)
    requires i < j
    ensures |Frames(f, rate, sin, encode, i)| + FrameBytes(f) <= |Frames(f, rate, sin, encode, j)|
    decreases j - i
  {
    FrameSize(f, rate, sin, encode, j - 1);
    if i < j - 1 {
      FramesGrowStrictly(f, rate, sin, encode, i, j - 1);
    }
  }

  /** Writing one more frame after the first `i` extends them. */
  lemma FramesGrow(before: seq<Utils.Byte>, after: seq<Utils.Byte>, f: AudioFormat, rate: int, sin: real -> real,
                   encode: (SampleFormat, real) -> seq<Utils.Byte>, i: nat, p: nat)
    requires IsValid(f) && forall fm, x :: |encode(fm, x)| == BytesPerSample(fm)
    requires p + FrameBytes(f) <= |before| == |after| && before[..p] == Frames(f, rate, sin, encode, i)
    requires after == before[..p] + Frame(f, rate, sin, encode, i) + before[p + FrameBytes(f)..]
    ensures after[..p + FrameBytes(f)] == Frames(f, rate, sin, encode, i + 1)
    ensures |Frames(f, rate, sin, encode, i + 1)| == p + FrameBytes(f)
  {
    FrameSize(f, rate, sin, encode, i);
    assert after[..p + FrameBytes(f)] == before[..p] + Frame(f, rate, sin, encode, i);
  }

  // ---------------------------------------------------------------------
  // Copying bytes

  /** memcpy of `src` into `dst` at offset `at`. */
  method CopyBytes(dst: array<Utils.Byte>, at: nat, src: seq<Utils.Byte>)
    requires at + |src| <= dst.Length
    modifies dst
    ensures forall j :: 0 <= j < |src| ==> dst[at + j] == src[j]
    ensures forall k :: 0 <= k < dst.Length && !(at <= k < at + |src|) ==> dst[k] == old(dst[k])
    ensures dst[..] == old(dst[..])[..at] + src + old(dst[..])[at + |src|..]
  {
    var j := 0;
    while j < |src|
      invariant 0 <= j <= |src|
      invariant forall i :: 0 <= i < j ==> dst[at + i] == src[i]
      invariant forall k :: 0 <= k < dst.Length && !(at <= k < at + j) ==> dst[k] == old(dst[k])
    {
      dst[at + j] := src[j];
      j := j + 1;
    }
    assert forall k :: 0 <= k < dst.Length ==> dst[..][k] == (old(dst[..])[..at] + src + old(dst[..])[at + |src|..])[k];
  }

  /** One pass of the per-channel loop of `generateData`: frame `s`, at
      offset `p`, gets the encoded value in every channel; the `default`
      case of the format switch returns before writing anything. */
  method WriteFrame(buf: array<Utils.Byte>, format: AudioFormat, rate: int, sin: real -> real,
                    encode: (SampleFormat, real) -> seq<Utils.Byte>, s: nat, p: nat)
    returns (ok: bool)
    requires IsValid(format) && forall fm, x :: |encode(fm, x)| == BytesPerSample(fm)
    requires p + FrameBytes(format) <= buf.Length
    modifies buf
    ensures ok == Handled(format.sampleFormat)
    ensures ok ==> buf[..] == old(buf[..])[..p] + Frame(format, rate, sin, encode, s) + old(buf[..])[p + FrameBytes(format)..]
    ensures !ok ==> buf[..] == old(buf[..])
  {
    var cb := BytesPerSample(format.sampleFormat);
    ghost var orig := buf[..];
    var x := FrameValue(format, rate, sin, s);
    var q := p;
    var i := 0;
    while i < format.channelCount
      invariant 0 <= i <= format.channelCount
      invariant i > 0 ==> Handled(format.sampleFormat)
      invariant q == p + i * cb
      invariant buf[..] == orig[..p] + Repeat(encode(format.sampleFormat, x), i) + orig[q..]
    {
      if !Handled(format.sampleFormat) {
        assert orig[..p] + orig[p..] == orig;
        return false;
      }
      var bytes := encode(format.sampleFormat, x);
      ChannelStep(format, i, p, q);
      ghost var before := buf[..];
      CopyBytes(buf, q, bytes);
      Splice(orig, before, buf[..], p, q, Repeat(bytes, i), bytes);
      q := q + cb;
      i := i + 1;
    }
    ChannelStep(format, i, p, q);
    return true;
  }

  /** The `while (length > 0)` loop of `generateData`: writes frame after
      frame, counting `sampleIndex` up, until the buffer is full; it stops
      at once if the sample format has no case. */
  method WriteFrames(buf: array<Utils.Byte>, format: AudioFormat, rate: int, sin: real -> real,
                     encode: (SampleFormat, real) -> seq<Utils.Byte>, ghost frames: nat)
    requires IsValid(format) && forall fm, x :: |encode(fm, x)| == BytesPerSample(fm)
    requires buf.Length == |Frames(format, rate, sin, encode, frames)|
    modifies buf
    ensures Handled(format.sampleFormat) ==> buf[..] == Frames(format, rate, sin, encode, frames)
  {
    var sb := FrameBytes(format);
    Utils.MulAtLeast(format.channelCount, BytesPerSample(format.sampleFormat));
    var length := buf.Length;
    var p := 0;
    var sampleIndex := 0;
    while length - p > 0
      invariant sampleIndex <= frames && p == |Frames(format, rate, sin, encode, sampleIndex)|
      invariant p <= length
      invariant buf[..p] == Frames(format, rate, sin, encode, sampleIndex)
      decreases frames - sampleIndex
    {
      if sampleIndex < frames {
        FramesGrowStrictly(format, rate, sin, encode, sampleIndex, frames);
      }
      ghost var before := buf[..];
      var ok := WriteFrame(buf, format, rate, sin, encode, sampleIndex, p);
      if !ok {
        return;
      }
      FramesGrow(before, buf[..], format, rate, sin, encode, sampleIndex, p);
      p := p + sb;
      sampleIndex := sampleIndex + 1;
    }
    if sampleIndex < frames {
      FramesGrowStrictly(format, rate, sin, encode, sampleIndex, frames);
    }
    assert buf[..] == buf[..p];
  }

  /** Writing `piece` just after the part `r` already written over `orig`
      from `p` on extends that part by `piece`. */
  lemma Splice(orig: seq<Utils.Byte>, before: seq<Utils.Byte>, after: seq<Utils.Byte>,
               p: nat, q: nat, r: seq<Utils.Byte>, piece: seq<Utils.Byte>)
    requires q == p + |r| && q + |piece| <= |orig|
    requires before == orig[..p] + r + orig[q..]
    requires after == before[..q] + piece + before[q + |piece|..]
    ensures after == orig[..p] + (r + piece) + orig[q + |piece|..]
  {
    assert before[..q] == orig[..p] + r;
    assert before[q + |piece|..] == orig[q + |piece|..];
  }

  /** Channel `i` of the frame at `p` occupies the next sample's bytes,
      and the last channel ends the frame. */
  lemma ChannelStep(format: AudioFormat, i: nat, p: int, q: int)
    requires IsValid(format) && i <= format.channelCount
    requires q == p + i * BytesPerSample(format.sampleFormat)
    ensures var cb := BytesPerSample(format.sampleFormat);
      && (i < format.channelCount ==> q + cb <= p + FrameBytes(format) && q + cb == p + (i + 1) * cb)
      && (i == format.channelCount ==> q == p + FrameBytes(format))
  {
    var cb := BytesPerSample(format.sampleFormat);
    if i < format.channelCount {
      Utils.MulAtLeast(format.channelCount - i, cb);
      assert (format.channelCount - i) * cb == FrameBytes(format) - i * cb;
    }
  }

  /** The read position after one byte: `(i + 1) % n` for `i < n`. */
  function Next(i: nat, n: nat): (r: nat)
    requires i < n
    ensures r < n && r == (i + 1) % n
  {
    Utils.DivModUnique(i + 1, if i + 1 == n then 1 else 0, if i + 1 == n then 0 else i + 1, n);
    if i + 1 == n then 0 else i + 1
  }

  /** The read position after `count` bytes starting at `from`. */
  function Advance(from: nat, count: nat, n: nat): (r: nat)
    requires from < n
    ensures r < n
    decreases count
  {
    if count == 0 then from else Advance(Next(from, n), count - 1, n)
  }

  /** `count` bytes of `src` read circularly from `from`. */
  function Circular(src: seq<Utils.Byte>, from: nat, count: nat): (r: seq<Utils.Byte>)
    requires from < |src|
    ensures |r| == count
    decreases count
  {
    if count == 0 then [] else [src[from]] + Circular(src, Next(from, |src|), count - 1)
  }

  /** Advancing by `count` lands on (from + count) mod n. */
  lemma {:induction false} AdvanceMod(from: nat, count: nat, n: nat)
    requires from < n
    ensures Advance(from, count, n) == (from + count) % n
    decreases count
  {
    if count == 0 {
      Utils.DivModUnique(from, 0, from, n);
    } else {
      AdvanceMod(Next(from, n), count - 1, n);
      Utils.ModShift(from + 1, count - 1, n);
    }
  }

  /** Advancing by `a + b` is advancing by `a`, then by `b`. */
  lemma {:induction false} AdvanceAdd(from: nat, a: nat, b: nat, n: nat)
    requires from < n
    ensures Advance(from, a + b, n) == Advance(Advance(from, a, n), b, n)
    decreases a
  {
    if a > 0 {
      AdvanceAdd(Next(from, n), a - 1, b, n);
    }
  }

  /** Reading `a + b` bytes is reading `a`, then `b` more from there. */
  lemma {:induction false} CircularAdd(src: seq<Utils.Byte>, from: nat, a: nat, b: nat)
    requires from < |src|
    ensures Circular(src, from, a + b) == Circular(src, from, a) + Circular(src, Advance(from, a, |src|), b)
    decreases a
  {
    if a > 0 {
      CircularAdd(src, Next(from, |src|), a - 1, b);
    }
  }

  /** A read that does not reach the end of `src` is a plain slice. */
  lemma {:induction false} CircularSlice(src: seq<Utils.Byte>, from: nat, count: nat)
    requires from < |src| && from + count <= |src|
    ensures Circular(src, from, count) == src[from..from + count]
    decreases count
  {
    if count > 1 {
      CircularSlice(src, from + 1, count - 1);
      assert src[from..from + count] == [src[from]] + src[from + 1..from + count];
    }
  }

  /** Byte `k` of a circular read is byte (from + k) mod |src| of `src`. */
  lemma {:induction false} CircularAt(src: seq<Utils.Byte>, from: nat, count: nat)
    requires from < |src|
    ensures forall k :: 0 <= k < count ==> Circular(src, from, count)[k] == src[(from + k) % |src|]
    decreases count
  {
    if count > 0 {
      CircularAt(src, Next(from, |src|), count - 1);
      forall k | 0 <= k < count
        ensures Circular(src, from, count)[k] == src[(from + k) % |src|]
      {
        if k == 0 {
          Utils.DivModUnique(from, 0, from, |src|);
        } else {
          Utils.ModShift(from + 1, k - 1, |src|);
        }
      }
    }
  }

  /** One pass of the loop of `readData`: copies the chunk from the read
      position `p` up to the end of `buffer` or to `len`, whichever comes
      first, to offset `total` of `data`, and moves `p` past it modulo the
      buffer size. */
  method ReadChunk(data: array<Utils.Byte>, buffer: array<Utils.Byte>, p: nat, total: nat, len: int,
                   ghost start: nat, ghost orig: seq<Utils.Byte>)
    returns (p': nat, total': nat)
    requires data != buffer && start < buffer.Length && p < buffer.Length
    requires total < len <= data.Length && |orig| == data.Length
    requires p == Advance(start, total, buffer.Length)
    requires data[..] == Circular(buffer[..], start, total) + orig[total..]
    modifies data
    ensures total < total' <= len && p' < buffer.Length
    ensures p' == Advance(start, total', buffer.Length)
    ensures data[..] == Circular(buffer[..], start, total') + orig[total'..]
  {
    var n := buffer.Length;
    var chunk := if n - p < len - total then n - p else len - total;
    ghost var before := data[..];
    CopyBytes(data, total, buffer[p..p + chunk]);
    ReadStep(before, data[..], buffer[..], start, total, p, buffer[p..p + chunk], orig);
    p' := (p + chunk) % n;
    total' := total + chunk;
  }

  /** One pass of the loop of `readData` in sequence terms: copying the
      chunk that starts at the current position and stops at the end of
      `src` at the latest extends the circular read by that chunk, and the
      new position is the old one plus the chunk, modulo |src|. */
  lemma ReadStep(before: seq<Utils.Byte>, after: seq<Utils.Byte>, src: seq<Utils.Byte>, start: nat,
                 total: nat, p: nat, piece: seq<Utils.Byte>, orig: seq<Utils.Byte>)
    requires start < |src| && total + |piece| <= |orig|
    requires p == Advance(start, total, |src|) && p + |piece| <= |src| && piece == src[p..p + |piece|]
    requires before == Circular(src, start, total) + orig[total..]
    requires after == before[..total] + piece + before[total + |piece|..]
    ensures after == Circular(src, start, total + |piece|) + orig[total + |piece|..]
    ensures (p + |piece|) % |src| == Advance(start, total + |piece|, |src|)
  {
    if |piece| > 0 {
      CircularSlice(src, p, |piece|);
    }
    CircularAdd(src, start, total, |piece|);
    AdvanceAdd(start, total, |piece|, |src|);
    AdvanceMod(p, |piece|, |src|);
    assert before[..total] == Circular(src, start, total);
    assert before[total + |piece|..] == orig[total + |piece|..];
  }

  // ---------------------------------------------------------------------
  // Generator

  class Generator {
    var buffer: array<Utils.Byte>
    var pos: int
    var isOpen: bool
    const sampleRate: int

    /** `m_pos` indexes the buffer (and is 0 while it is empty). */
    ghost predicate Valid()
      reads this
    {
      0 <= pos && (pos < buffer.Length || pos == 0)
    }

    /** The constructor: an invalid format leaves the buffer empty. */
    constructor (format: AudioFormat, durationUs: int, rate: int,
                 sin: real -> real, encode: (SampleFormat, real) -> seq<Utils.Byte>)
      requires forall fm, x :: |encode(fm, x)| == BytesPerSample(fm)
      ensures Valid() && pos == 0 && !isOpen && sampleRate == rate && fresh(buffer)
      ensures !IsValid(format) ==> buffer.Length == 0
      ensures IsValid(format) ==> buffer.Length == FrameLength(format, durationUs)
      ensures IsValid(format) && Handled(format.sampleFormat) ==>
        buffer[..] == Frames(format, rate, sin, encode, FrameCount(format, durationUs))
    {
      pos := 0;
      isOpen := false;
      sampleRate := rate;
      buffer := new Utils.Byte[0];
      new;
      if IsValid(format) {
        GenerateData(format, durationUs, rate, sin, encode);
      }
    }

    /** `start`: rewinds and opens the device. */
    method Start()
      modifies this`pos, this`isOpen
      ensures pos == 0 && isOpen
    {
      pos := 0;
      isOpen := true;
    }

    /** `stop`: rewinds and closes the device. */
    method Stop()
      modifies this`pos, this`isOpen
      ensures pos == 0 && !isOpen
    {
      pos := 0;
      isOpen := false;
    }

    /** `generateData`: sizes the buffer and writes frame after frame, each
        channel of a frame getting the same encoded value; an unhandled
        sample format returns before writing. The buffer length is rounded
        down to whole frames (see FrameLength). */
    method GenerateData(format: AudioFormat, durationUs: int, rate: int,
                        sin: real -> real, encode: (SampleFormat, real) -> seq<Utils.Byte>)
      requires IsValid(format) && forall fm, x :: |encode(fm, x)| == BytesPerSample(fm)
      modifies this`buffer
      ensures fresh(buffer) && buffer.Length == FrameLength(format, durationUs)
      ensures Handled(format.sampleFormat) ==>
        buffer[..] == Frames(format, rate, sin, encode, FrameCount(format, durationUs))
    {
      var length := FrameLength(format, durationUs);
      FrameCountSize(format, rate, sin, encode, durationUs);
      var buf := new Utils.Byte[length];
      buffer := buf;
      WriteFrames(buf, format, rate, sin, encode, FrameCount(format, durationUs));
    }

    /** `readData`: copies `len` bytes starting at `m_pos`, wrapping round
        the end of the buffer, and leaves `m_pos` after the last byte read;
        an empty buffer or a non-positive `len` reads nothing. */
    method ReadData(data: array<Utils.Byte>, len: int) returns (total: int)
      requires Valid() && data != buffer && (len > 0 ==> len <= data.Length)
      modifies this`pos, data
      ensures Valid()
      ensures total == if buffer.Length == 0 || len <= 0 then 0 else len
      ensures buffer.Length > 0 ==> data[..] == Circular(buffer[..], old(pos), total) + old(data[..])[total..]
      ensures buffer.Length > 0 ==> pos == (old(pos) + total) % buffer.Length
      ensures buffer.Length == 0 ==> pos == old(pos) && data[..] == old(data[..])
    {
      total := 0;
      var n := buffer.Length;
      if n > 0 {
        var p: nat := pos;
        ghost var start: nat := pos;
        ghost var orig := data[..];
        while len - total > 0
          invariant 0 <= total && (len > 0 ==> total <= len) && (len <= 0 ==> total == 0)
          invariant p < n && p == Advance(start, total, n)
          invariant data[..] == Circular(buffer[..], start, total) + orig[total..]
          decreases len - total
        {
          p, total := ReadChunk(data, buffer, p, total, len, start, orig);
        }
        AdvanceMod(start, total, n);
        pos := p;
      }
    }

    /** `writeData`: the device is read-only, nothing is written. */
    method WriteData(data: seq<Utils.Byte>, len: int) returns (written: int)
      ensures written == 0
    {
      written := 0;
    }
  }
}
