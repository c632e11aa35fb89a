# VariometerAll core in Dafny

VariometerAll is a Qt variometer for paragliding. It reads barometric
pressure and GPS fixes, filters them with two Kalman filters, and turns the
climb rate into beeps. This project models the core of that program in
Dafny and proves properties of the model. There is one file, and one module,
per C++ file:

- `utils.dfy` (module `Utils`, from `utils.h`): the shared constants, the
  C++ float-to-int cast, and `listToString`, which joins formatted numbers
  with `", "`.
- `beepthread.dfy` (module `Beep`, from `beepthread.cpp`):
  - `PiecewiseLinearFunction`: sorted insertion with `addNewPoint`, and
    linear interpolation with flat ends in `getValue`;
  - the two 20-entry tables the `BeepThread` constructor builds;
  - the per-iteration choice in `run` between a climb beep, the sink tone
    and silence;
  - `SetVario`.
- `variosound.dfy` (module `Audio`, from `variosound.cpp`):
  - the climb-rate-to-sound mapping (`calculateSoundCharacteristics`);
  - the tone, pulse-timer and stop state of `VarioSound`;
  - `generateTone`: exponential smoothing of frequency and amplitude, a
    linear fade-in and fade-out, a wrapped phase accumulator kept across
    calls in static locals, and 16-bit little-endian frames.
- `generator.dfy` (module `SignalGenerator`, from `generator.cpp`): the
  looping sample source `Generator`. `generateData` fills a byte buffer one
  frame at a time. `readData` serves it circularly through `m_pos`. `start`,
  `stop` and `writeData` are also modelled.
- `readgps.dfy` (module `Gps`, from `readgps.cpp`): the retry state machine
  of `ReadGps`, over the source, the retry timer, `retryCount`,
  `isWaitingForFix` and `updatesStarted`, plus `captureGpsData`.
- `mainwindow.dfy` (module `Window`, from `mainwindow.cpp`):
  - the gate that decides when a pressure sample reaches the two Kalman
    filters, with its timestamp bookkeeping, its dt and its noise values;
  - the reading of the GPS list;
  - the two slider handlers;
  - the constructor's initial state.

Each class keeps the fields its C++ counterpart updates in place, and its
methods carry `modifies` clauses. Some pieces of the runtime are passed in
as function-typed parameters rather than modelled:

- `qSin`, `std::pow` and `realToPcm`;
- the PCM encodings of `generateData`;
- `QString::number`.

The Kalman filter's source is not part of this model. `KalmanFilter` records
each `Reset` and `Update` made on it, with its arguments, and its outputs
are arbitrary values. Timers are a running flag and an interval. The wall
clock is a parameter in milliseconds. The signals `ReadGps` emits and the
calls it makes on its position source are kept as logs.

Three places follow a corrected reading rather than the code as written.
All three are listed under "## Findings", and the code as written is
modelled beside each correction:

- the buffer length in `generateData`;
- the list positions read by `getGpsInfo`;
- the unguarded stop of the audio sink in `setStop`.

## Model

| member | source | states |
|---|---|---|
| Utils.ConstantsAgree | utils.h:5-15 | SEA_LEVEL_PRESSURE is 100 x SEA_LEVEL_PRESSURE_HPA. Both default variances are positive. The two orientations differ. |
| Utils.Trunc | mainwindow.cpp:28-29 | `static_cast<int>` truncates toward zero: the result lies on the zero side of the value, less than 1 away. |
| Utils.Formatted | utils.h:19-20 | One formatted number per value, in input order. |
| Utils.ListToString | utils.h:17-28 | The loop's result is the formatted values joined by ", ", with no trailing separator. |
| Utils.ListToStringEdgeCases | utils.h:17-28 | An empty list gives "". A single value gives exactly its formatted number. |
| Utils.JoinSnoc | utils.h:19-26 | One more value adds exactly one ", " and that value's text at the end. |
| Utils.JoinLength | utils.h:19-26 | The length is the sum of the formatted lengths plus 2 x (n - 1). |
| Utils.JoinSeparatorCount | utils.h:22-25 | n comma-free numbers are separated by exactly n - 1 commas. |
| Utils.SplitJoin | utils.h:17-28 | Cutting the joined line at each ", " gives back the formatted numbers, so nothing is lost or merged. |
| Beep.FirstGreater | beepthread.cpp:20-25 | The insertion loop stops at the first stored point with a strictly greater x: every point before it has x at most the new x. |
| Beep.InsertedShape | beepthread.cpp:9-27 | `addNewPoint` either leaves the list as it was or inserts the point at one position. The size grows by at most one. A point with a zero coordinate changes nothing. |
| Beep.InsertedAppends | beepthread.cpp:13-18 | A non-zero point whose x is beyond the last x, or the first point, is appended. |
| Beep.InsertedStores | beepthread.cpp:11-25 | On a sorted list the point ends up stored exactly when both coordinates are non-zero and its x differs from the last stored x. A point with x equal to the last x is dropped. |
| Beep.InsertedSorted | beepthread.cpp:9-27 | Insertion keeps the points sorted by non-decreasing x. |
| Beep.InsertedStrictlySorted | beepthread.cpp:9-27 | Inserting a non-zero point at an x not yet stored keeps a strictly sorted list strictly sorted, and `getValue` at that x then returns the point's y. |
| Beep.PiecewiseLinearFunction.constructor | beepthread.cpp:3-7 | The list starts empty and both infinity values are 0. |
| Beep.PiecewiseLinearFunction.AddNewPoint | beepthread.cpp:9-27 | The loop with push_back and insert leaves the list that `Inserted` describes. |
| Beep.PiecewiseLinearFunction.GetSize | beepthread.cpp:47-50 | Returns the number of stored points. |
| Beep.PiecewiseLinearFunction.GetValue | beepthread.cpp:29-45 | The scan with `lastPoint` returns `ValueAt`. The list must not be empty, because the source reads `points.at(0)`. |
| Beep.ValueAtSegment | beepthread.cpp:36-41 | Inside the range of the list, the value interpolates on the first segment whose right end is not left of x. |
| Beep.ValueAtEnds | beepthread.cpp:32-44 | At or below the first x the value is the first y. Beyond the last x of a sorted list it is the last y. |
| Beep.ValueAtKnot | beepthread.cpp:36-41 | At a stored x of a strictly sorted list the value is exactly that point's y. |
| Beep.ValueBetweenKnots | beepthread.cpp:38-40 | Between two neighbouring points the value lies between their y values. |
| Beep.LerpBetween | beepthread.cpp:39-40 | An interpolated value lies between the two end values. |
| Beep.ValueAtRange | beepthread.cpp:29-45 | When the y values are ordered along a sorted list, every value lies between the first and the last y. |
| Beep.ValueAtMonotone | beepthread.cpp:29-45 | When the y values are ordered along a strictly sorted list, `getValue` is monotone in the same direction. |
| Beep.VarioCurveShape | beepthread.cpp:64-85 | The stored cycle curve has 19 points, from (0.20, 0.190) to (10.00, 0.030). They are strictly sorted and non-zero, with falling y. |
| Beep.ToneCurveShape | beepthread.cpp:89-110 | The stored tone curve has 19 points, from (0.20, 350) to (10.00, 1800). They are strictly sorted and non-zero, with rising y. |
| Beep.AddAscending | beepthread.cpp:66-85 | Adding strictly increasing non-zero points to an empty list stores them all, in order. |
| Beep.NewVarioFunction | beepthread.cpp:64-85 | The 20 `addNewPoint` calls reject (0.00, 0.200) and store the other 19 points. |
| Beep.NewToneFunction | beepthread.cpp:89-110 | The 20 `addNewPoint` calls reject (0.00, 300) and store the other 19 points. |
| Beep.ClimbMode | beepthread.cpp:130-153 | At or above 0.2f m/s the rate is clamped to 10. The tone is 350..1800 Hz, the beep 30..190 ms and the silence equals the beep. A stronger climb never lowers the tone and never lengthens the beep. |
| Beep.SinkAndSilentModes | beepthread.cpp:130-179 | At or below -2 m/s the output is a 150 Hz tone for 500 ms. Strictly between the thresholds it is 100 ms of silence. A climb beep happens exactly at or above 0.2f. |
| Beep.BeepThread.constructor | beepthread.cpp:52-111 | Both curves hold their 19 stored points. The thresholds, the tone sample rate and the duration take their constants. |
| Beep.BeepThread.NextMode | beepthread.cpp:128-179 | One loop iteration chooses `Decide` for the stored climb rate, looked up through both curves. |
| Beep.BeepThread.SetVario | beepthread.cpp:239-243 | Stores the climb rate and tdiff and nothing else. |
| Audio.CalculateSoundCharacteristics | variosound.cpp:96-121 | Inside the dead band the result is a silent base tone with pulse 0 and silence 1000. In lift it is 0.8 amplitude, +100 Hz per m/s, 50 ms pulses and silence trunc(75 - 10v). In sink it is one 1000 ms tone at -40 Hz per m/s. |
| Audio.FrequencyMonotone | variosound.cpp:100-118 | A stronger climb never gives a lower frequency, whatever the dead band. |
| Audio.AudibleOutsideDeadband | variosound.cpp:100-118 | The pulse length is positive and the amplitude is 0.8 exactly outside the dead band. The amplitude is 0 exactly inside it. |
| Audio.ClimbSilence | variosound.cpp:108-112 | The climb silence is negative exactly from 7.6 m/s up, because it is not clamped. The pulse period is at most 125 ms. |
| Audio.PulseTimerRange | variosound.cpp:100-136 | After `calculateToneParameters` the pulse timer runs in every sink outside the dead band and never inside it. In a climb it runs exactly below 12.6 m/s: from there pulse + silence is negative, and `QTimer::start` refuses it. |
| Audio.Decode16Encode | variosound.cpp:80-83 | Reading back the two little-endian bytes of a qint16 gives the sample. |
| Audio.PassOf | variosound.cpp:49-51 | The target frequency is base + 60 Hz per m/s, the target amplitude is 0 while the pulse is off, and d x rate = 2 pi. |
| Audio.Approach | variosound.cpp:60-73 | Each smoothing step closes 10% of the distance to the target and never overshoots. |
| Audio.WrapRange | variosound.cpp:88-90 | The wrap loop leaves a phase up to 2 pi unchanged and brings a larger one into (0, 2 pi]. |
| Audio.WrapTurns | variosound.cpp:88-90 | Wrapping removes whole turns of 2 pi only. |
| Audio.Fade | variosound.cpp:54-70 | The fade multiplier lies in [0, 1]. It is 0 at the first sample when there are at least 10 samples, and 1 throughout when there are fewer than 10. |
| Audio.FadeRamps | variosound.cpp:63-70 | The fade-in rises over the first tenth and the fade-out falls over the last tenth. |
| Audio.SmoothingClosedForm | variosound.cpp:58-92 | After k samples the frequency and the amplitude are each 0.9^k of their starting distance from the target. |
| Audio.SilentWhilePulseOff | variosound.cpp:51-80 | With the pulse off and the amplitude settled at 0, every sample is the PCM value of silence. |
| Audio.PhaseInRange | variosound.cpp:88-90 | A non-negative phase advanced by a non-negative step stays in [0, 2 pi]. |
| Audio.ChannelSample | variosound.cpp:82-86 | Every channel of every frame reads back as that frame's sample. |
| Audio.AlignedFrames | variosound.cpp:40-43 | For whole frames, the two ways of counting frames agree and cover the buffer. |
| Audio.WrapPhase | variosound.cpp:89-90 | The subtraction loop computes `Wrap`. |
| Audio.FadeMultiplier | variosound.cpp:63-70 | The fade branch computes `Fade`. |
| Audio.NextSample | variosound.cpp:58-92 | One loop pass gives that sample's PCM value and the next smoothed, advanced and wrapped state. |
| Audio.RenderTone | variosound.cpp:57-93 | The sample loop writes every byte as `ToneByte` and leaves the state after numSamples steps. |
| Audio.WriteChannels | variosound.cpp:82-86 | The channel loop writes the sample low byte first into every channel of one frame, and changes no other byte. |
| Audio.VarioSound.constructor | variosound.cpp:4-29 | The buffer is silent and the initial tone is (base frequency, 0.8, 0, 0). The timer and the output are idle. |
| Audio.VarioSound.GenerateTone | variosound.cpp:38-94 | The statics start from (0, base frequency, 0) on the first call and carry over afterwards. The buffer holds the rendered frames and the statics end in the state after the last sample. |
| Audio.VarioSound.CalculateToneParameters | variosound.cpp:123-137 | The tone takes the four characteristics. A positive pulse sets the timer's interval to pulse + silence, and the timer runs exactly when `PulseTimerStarts` holds: a positive pulse and a non-negative interval. Otherwise the timer is stopped. |
| Audio.VarioSound.PlaySound | variosound.cpp:155-169 | Without an output or while stopped nothing changes. Otherwise the current tone is rendered into the buffer and the output starts. |
| Audio.VarioSound.UpdateVario | variosound.cpp:139-145 | Records the rate in the tone and recomputes the tone and the timer's state and interval. With an output and not stopped, the buffer holds the rendered tone and the output runs. Otherwise the buffer and the statics are unchanged. |
| Audio.VarioSound.UpdatePulseTimer | variosound.cpp:147-153 | Flips the pulse. With an output and not stopped, the buffer holds the rendered tone and the output runs. Otherwise the buffer, the statics and the output state are unchanged. |
| Audio.VarioSound.SetStop | variosound.cpp:187-196 | Stopping halts the timer, and the output when one exists. Resuming recomputes the tone, the timer's state and its interval for the current rate. No state is excluded. |
| Audio.SetStopAsWrittenFaults | variosound.cpp:187-196 | As written, `setStop` calls stop on a missing sink exactly when it stops a `VarioSound` without an output. |
| Audio.SetStopGuardedSafe | variosound.cpp:155-196 | Guarded as `playSound` is, `setStop` never reaches a missing sink. It stops the timer exactly when stopping, and makes the same calls as written when the sink exists. |
| SignalGenerator.BytesPerSample | generator.cpp:31 | Only an unknown format has 0 bytes per sample, and no format has more than 4. |
| SignalGenerator.CDiv | generator.cpp:34-35 | C++ division truncates toward zero for negative durations too. |
| SignalGenerator.WrittenAsWrittenRounds | generator.cpp:41-69 | As written, the loop writes the smallest whole number of frames not below the computed length. |
| SignalGenerator.WrittenAsWrittenOverruns | generator.cpp:34-69 | As written, the loop writes past the buffer exactly when its length is not a whole number of frames. |
| SignalGenerator.UnalignedOverrun | generator.cpp:34-69 | As written, 10 us of 44.1 kHz stereo Int16 gives a 1-byte buffer, and the loop writes 4 bytes into it. |
| SignalGenerator.FrameLength | generator.cpp:34-37 | The buffer length is the computed length rounded down to whole frames: at most that length, and less than one frame below it. |
| SignalGenerator.FrameLengthFits | generator.cpp:37-69 | With whole frames, the loop writes exactly the buffer and nothing past it. |
| SignalGenerator.SameSampleEveryChannel | generator.cpp:45-67 | Every channel of a frame carries the same encoded sample. |
| SignalGenerator.FrameOffset | generator.cpp:45-67 | Byte s x frame + c x sampleBytes + j lies in frame s, channel c, byte j. |
| SignalGenerator.FramePeriodic | generator.cpp:43 | `sampleIndex % format.sampleRate()` makes frame s and frame s + rate hold the same value. |
| SignalGenerator.FrameSize | generator.cpp:45-67 | One frame takes channelCount x bytesPerSample bytes. |
| SignalGenerator.FramesSize | generator.cpp:41-69 | n frames take n frame sizes. |
| SignalGenerator.FramesAt | generator.cpp:41-69 | Byte k of the buffer is byte (k mod frame) mod sampleBytes of the encoding of frame k / frame. |
| SignalGenerator.FrameCountSize | generator.cpp:34-41 | The whole frames exactly fill the buffer. |
| SignalGenerator.CopyBytes | generator.cpp:78 | memcpy places the source bytes at the offset and leaves every other byte alone. |
| SignalGenerator.WriteFrame | generator.cpp:45-67 | One pass of the channel loop writes the frame's encoded value into every channel. The `default` case returns before writing anything. |
| SignalGenerator.WriteFrames | generator.cpp:41-69 | The frame loop fills the buffer with frames 0, 1, and so on, when the sample format has a case. |
| SignalGenerator.Next | generator.cpp:79 | The position after one byte is (i + 1) mod size. |
| SignalGenerator.AdvanceMod | generator.cpp:79 | Advancing by n bytes lands on (start + n) mod size. |
| SignalGenerator.CircularAdd | generator.cpp:76-81 | Reading a + b bytes is reading a bytes and then b more from where that stopped. |
| SignalGenerator.CircularSlice | generator.cpp:77-78 | A read that stays before the end of the buffer is a plain slice. |
| SignalGenerator.CircularAt | generator.cpp:76-81 | Byte k of a read from position p is buffer byte (p + k) mod size. |
| SignalGenerator.ReadChunk | generator.cpp:77-80 | One loop pass copies min(size - pos, len - total) bytes and advances the position modulo the size. |
| SignalGenerator.ReadStep | generator.cpp:77-80 | Copying one chunk extends the circular read by that chunk. |
| SignalGenerator.Generator.constructor | generator.cpp:3-10 | The position starts at 0. An invalid format leaves the buffer empty. A valid one generates the data. |
| SignalGenerator.Generator.Start | generator.cpp:17-21 | Rewinds and opens. |
| SignalGenerator.Generator.Stop | generator.cpp:23-27 | Rewinds and closes. |
| SignalGenerator.Generator.GenerateData | generator.cpp:29-70 | The buffer has FrameLength bytes and holds `Frames` when the sample format is handled. |
| SignalGenerator.Generator.ReadData | generator.cpp:72-84 | Returns len, or 0 for an empty buffer or a non-positive len. The data receives the circular read from m_pos, which moves to (m_pos + total) mod size. Bytes past total are unchanged. |
| SignalGenerator.Generator.WriteData | generator.cpp:86-91 | Writes nothing and returns 0. |
| Gps.CaptureGpsData | readgps.cpp:121-145 | An invalid fix gives an empty list and a valid one exactly 5 values. |
| Gps.CaptureGpsDataLayout | readgps.cpp:129-142 | The list holds altitude, heading (0 when absent), latitude, longitude and ground speed x 3.75 (0 when absent), in that order. |
| Gps.InitialInv | readgps.cpp:3-13 | The constructor's state satisfies the invariant: 0 <= retryCount < MAX_RETRIES, updates and waiting need a source, and only an existing timer runs. |
| Gps.RetryNeedsWaiting | readgps.cpp:68 | `retryUpdate` is a no-op unless the reader is waiting for a fix. |
| Gps.RetryOutcome | readgps.cpp:66-86 | At MAX_RETRIES the count returns to 0, waiting stops, the source and timer are torn down, gpsTimeout is emitted and a restart is scheduled in 1000 ms. Otherwise the count grows by one and an update is requested. |
| Gps.HelpersKeepInv | readgps.cpp:45-119 | startRetryTimer, stopRetryTimer, requestSingleUpdate, cleanupGPS and initializeGPS keep the invariant. |
| Gps.RetryKeepsInv | readgps.cpp:66-86 | `retryUpdate` keeps 0 <= retryCount < MAX_RETRIES and the rest of the invariant. |
| Gps.PositionKeepsInv | readgps.cpp:147-160 | `positionUpdated` keeps the invariant. |
| Gps.HandleErrKeepsInv | readgps.cpp:162-191 | `handleError` keeps the invariant for every error kind. |
| Gps.CheckInitKeepsInv | readgps.cpp:20-43 | `checkPermissionAndInitialize` keeps the invariant whether or not a source is created. |
| Gps.CleanupResets | readgps.cpp:98-119 | Cleanup leaves no source, no timer, no updates, no waiting and a zero count. A second cleanup changes nothing. |
| Gps.PositionOutcome | readgps.cpp:147-160 | A fix clears waiting, the count and the timer, and emits the captured list. It starts continuous updates at most once. |
| Gps.InitializeOnce | readgps.cpp:88-96 | `initializeGPS` is a no-op without a source or once updates run, so calling it twice is the same as calling it once. |
| Gps.HandleErrOutcome | readgps.cpp:162-191 | With no source the handler does nothing. AccessError clears updates and waiting but keeps the count. A timeout retries only when the timer is absent or idle. Any other error tears down and schedules a restart. |
| Gps.RequestSingleOutcome | readgps.cpp:45-64 | Without a source nothing happens. Otherwise the reader waits, requests one update with INITIAL_TIMEOUT, and starts the timer at INITIAL_TIMEOUT + 1000, creating it only if there was none. |
| Gps.ReadGps.constructor | readgps.cpp:3-13 | No source, no timer, count 0, nothing pending, and checkPermissionAndInitialize scheduled in 100 ms. |
| Gps.ReadGps.StopRetryTimer | readgps.cpp:112-119 | The handler's new state is `StopTimer` of the old one. |
| Gps.ReadGps.StartRetryTimer | readgps.cpp:56-64 | The handler's new state is `StartTimer` of the old one. |
| Gps.ReadGps.RequestSingleUpdate | readgps.cpp:45-54 | The handler's new state is `RequestSingle` of the old one. |
| Gps.ReadGps.CleanupGPS | readgps.cpp:98-110 | The handler's new state is `Cleanup` of the old one. |
| Gps.ReadGps.RetryUpdate | readgps.cpp:66-86 | The handler's new state is `Retry` of the old one. |
| Gps.ReadGps.RetryTimerFired | readgps.cpp:58-63 | The single-shot timer stops and then runs `retryUpdate`. |
| Gps.ReadGps.InitializeGPS | readgps.cpp:88-96 | The handler's new state is `Initialize` of the old one. |
| Gps.ReadGps.PositionUpdated | readgps.cpp:147-160 | The handler's new state is `Position` of the old one and the fix. |
| Gps.ReadGps.HandleError | readgps.cpp:162-191 | The handler's new state is `HandleErr` of the old one and the error kind. |
| Gps.ReadGps.CheckPermissionAndInitialize | readgps.cpp:20-43 | The handler's new state is `CheckInit` of the old one and whether a source was created. |
| Window.KalmanFilter.constructor | mainwindow.cpp:45-48 | A new filter keeps its acceleration variance and has had no calls. |
| Window.KalmanFilter.Reset | mainwindow.cpp:46-48 | Records one Reset with its value. |
| Window.KalmanFilter.Update | mainwindow.cpp:96-103 | Records one Update with its measurement, variance and dt. |
| Window.DeltaCases | mainwindow.cpp:79-83 | The quint64 difference is 0 exactly for an equal timestamp. Going forwards it is the plain difference, and going backwards it wraps to 2^64 less the gap. |
| Window.AcceptsIff | mainwindow.cpp:81-91 | A sample reaches the filters exactly when a previous timestamp is recorded, the timestamp differs from it, the pressure is not 0 and wall-clock time has passed. |
| Window.RepeatedTimestampRejected | mainwindow.cpp:81-85 | A repeated timestamp never reaches the filters. |
| Window.BackwardsTimestampAccepted | mainwindow.cpp:81-85 | A timestamp that went backwards wraps to a huge delta and is not rejected. |
| Window.BaroAltitudeShape | mainwindow.cpp:102 | For a `pow` that is increasing and 1 at base 1, sea-level pressure gives altitude 0 and a lower pressure a higher altitude. |
| Window.GpsFieldsAsWritten | mainwindow.cpp:134-137 | As written, positions 0, 1, 2 and 3 are read as altitude, latitude, longitude and truncated speed, and at least 4 entries are needed. |
| Window.GpsAsWrittenMisreads | mainwindow.cpp:134-137 | As written, for the list `captureGpsData` sends, the heading is shown as latitude and the latitude as longitude. |
| Window.GpsAsWrittenInvalidFix | mainwindow.cpp:134 | As written, the list sent for an invalid fix is too short for the reads. |
| Window.GpsFields | mainwindow.cpp:134-137 | The corrected reading takes positions 0, 2, 3 and 4, and ignores a list shorter than 5. |
| Window.GpsFieldsRoundTrip | mainwindow.cpp:134-137 | The corrected reading of `captureGpsData`'s list recovers the fix's altitude, latitude, longitude and truncated speed, and gives nothing for an invalid fix. |
| Window.SliderVariance | mainwindow.cpp:161-169 | A slider position stands for value / 100, which is non-negative for a non-negative position. |
| Window.SliderPosition | mainwindow.cpp:28-29 | The constructor's slider position is int(variance x 100). |
| Window.InitialSliderPositions | mainwindow.cpp:21-33 | The initial positions are 0 and 5. The measurement slider stands for its initial variance. The acceleration slider stands for 0, not KF_VAR_ACCEL, and no position gives KF_VAR_ACCEL. |
| Window.MainWindow.constructor | mainwindow.cpp:21-48 | The variances take the defaults and the sliders read 0 and 5. Reading is on, p_start is now, the altitude is 0 and the pressure is sea level. The pressure filter is reset to 101325 and the altitude filter to 0. |
| Window.MainWindow.GetSensorInfo | mainwindow.cpp:72-129 | While stopReading is set nothing changes. Otherwise the timestamp is recorded on every call. Only accepted samples reach the filters, with dt = elapsed ms / 1000. p_start moves only after an update. |
| Window.MainWindow.GateSample | mainwindow.cpp:81-127 | pDeltaT is the wrapped delta / 1e6. When `Accepts` holds both filters are fed and p_start becomes now. Otherwise the filters and outputs are unchanged. |
| Window.MainWindow.FeedFilters | mainwindow.cpp:93-107 | The pressure filter gets the raw pressure with KF_VAR_MEASUREMENT. Its output x 0.01 gives the barometric altitude, which the altitude filter gets with `measurementVariance`. Both use the same dt, and vario is the altitude filter's velocity. |
| Window.MainWindow.GetGpsInfo | mainwindow.cpp:132-147 | A fix list updates altitude, latitude, longitude and speed through the corrected reading. The status line is "Gps: " followed by the joined list. |
| Window.MainWindow.OnScrollBarMeasurement | mainwindow.cpp:161-164 | measurementVariance becomes value / 100, and the slider's recorded position becomes value. |
| Window.MainWindow.OnScrollBarAccel | mainwindow.cpp:166-175 | Both filters are replaced by new ones with variance value / 100, which are not reset. Reading is on again afterwards, and the slider's recorded position becomes value. |

## Left out

- Audio devices are not modelled: `QAudioSink`, `QMediaDevices`, `initializeAudio`, `handleStateChanged`, `setVolume`, `resumeBeep`, `startBeep` and `stopBeep`. They are I/O. `VarioSound` keeps only whether an output exists and whether it was last started.
- Audio.VarioSound.PlaySound: assumes that the QBuffer opens. The early return when `open` fails is not modelled, because the device is outside the model.
- Audio.VarioSound.GenerateTone: requires a buffer of whole frames. The constructor's buffer from `bytesForDuration` is one. With any other length the source's `while (length)` loop would step past zero and never end.
- Threads are not modelled: the `while (m_running)` loop of `BeepThread::run`, the sleeps, and generator swapping inside it. `NextMode` is the decision of one iteration. The `Generator` construction in `run` does not match the constructor in generator.cpp, so the two are not connected.
- Window.SliderVariance: is computed in reals. In doubles, position -> variance -> position is not the identity: 29, 57 and 58 come back as 28, 56 and 57. The program never makes that round trip, and for the constructor's two constants both readings agree.
- Audio.VarioSound.CalculateToneParameters: records a negative interval as given and treats the timer as stopped, which is how `QTimer::start` handles a negative interval. Any warning Qt prints for it is not modelled.
- Floating point is modelled as real arithmetic. That covers double and float rounding, the float -> PCM scaling of `generateData`, and the u64 -> double conversion of the sensor delta. One exception: the float thresholds of `BeepThread` are kept exact, so 0.2f is 0.20000000298023223876953125.
- `qSin`, `std::pow`, `realToPcm`, the per-format encodings of `generateData` and `QString::number` are function-typed parameters. Only their results' lengths or shapes are assumed.
- The Kalman filter's source is not part of this model. Its state update is replaced by arbitrary outputs, and only the calls made on it are recorded.
- MAX_RETRIES, INITIAL_TIMEOUT, NORMAL_TIMEOUT, `m_deadband`, `m_baseFrequency`, BufferDurationUs and the sample rate are not defined in the files modelled here. They are parameters.
- Labels, stylesheets, `printInfo`'s widget, `on_pushExit_clicked`, the destructors, `SensorManager`, and the creation and signal wiring of `ReadGps` in `MainWindow` are not modelled. These are user interface and application plumbing. The status text is kept as a field.
- The `valueChanged` signals that the constructor's `setValue` calls may emit are not modelled. For the initial positions 0 and 5 they would leave the variances as they are.
- Some fields are never initialised by their constructors, and the model leaves them arbitrary:
  - in `MainWindow`: `lastPressTimestamp`, `pDeltaT`, `p_dt` and the GPS fields;
  - in `VarioSound`: `m_stop`, `m_isPulseOn` and `m_currentVario`.
- Window.MainWindow.GetSensorInfo: requires the timestamp to lie in [0, 2^64). `static_cast<quint64>` of any other double is undefined behaviour.
- `qDebug` output, `Generator::bytesAvailable`, the `QIODevice` open mode, and the `QGeoPositionInfoSource` itself are not modelled. The source's creation result and error kind are parameters. The requests made on it are logged.

## Findings

| source | as written | input that shows it | evidently intended | confidence | as-written member | corrected member |
|---|---|---|---|---|---|---|
| generator.cpp:34-69 | The buffer gets rate x channels x bytes x duration / 1e6 bytes, but the loop writes a whole frame every time `length > 0`. | Format 44100 Hz, 2 channels, Int16, duration 10 us: the buffer is 1 byte and 4 bytes are written. | The length is rounded down to whole frames, so the loop writes exactly the buffer. | not executed | SignalGenerator.UnalignedOverrun | SignalGenerator.FrameLengthFits |
| mainwindow.cpp:134-137 | `getGpsInfo` reads positions 1, 2 and 3 as latitude, longitude and speed. `captureGpsData` (readgps.cpp:129-142) sends altitude, heading, latitude, longitude, speed. | A fix at 45 N 7 E heading 90: latitude shows 90 and longitude shows 45. | Positions 2, 3 and 4. | not executed | Window.GpsAsWrittenMisreads | Window.GpsFieldsRoundTrip |
| variosound.cpp:187-196 | `setStop(true)` calls `m_audioOutput->stop()` without the null check that `playSound` makes (variosound.cpp:157). The constructor assigns `m_audioOutput` only when the device supports the format (variosound.cpp:19-22), and never assigns it otherwise. | `setStop(true)` on a `VarioSound` whose default device rejected 16-bit mono. | Stop the sink only when it exists. | not executed | Audio.SetStopAsWrittenFaults | Audio.SetStopGuardedSafe |
| mainwindow.cpp:134 | `info.at(0)` is read from the list `captureGpsData` sends, which is empty for an invalid fix (readgps.cpp:125-127). | A position update whose QGeoPositionInfo is not valid. | A list without a fix is ignored. | not executed | Window.GpsAsWrittenInvalidFix | Window.GpsFieldsRoundTrip |
