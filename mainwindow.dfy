// Model of mainwindow.cpp: the handlers of `MainWindow` that decide when a
// pressure sample reaches the two Kalman filters, how the GPS list is read,
// and how the tuning sliders rebuild the filters. The Kalman filter's source
// is not part of this model: `KalmanFilter` records the calls made on it and
// its outputs are arbitrary values. Clocks, `std::pow` and number formatting
// are parameters; labels and stylesheets are left out.

module Window {
  import Utils
  import Gps

  /** quint64: timestamps and their difference wrap modulo 2^64. */
  const U64_MOD: int := 0x1_0000_0000_0000_0000
  type U64 = x: int | 0 <= x < U64_MOD

  // ---------------------------------------------------------------------
  // The opaque Kalman filter

  /** A call made on a filter. */
  datatype FilterCall = Reset(x: real) | Update(z: real, variance: real, dt: real)

  class KalmanFilter {
    const accelVariance: real
    /** Every Reset and Update made on this filter, oldest first. */
    var calls: seq<FilterCall>
    var xAbs: real
    var xVel: real

    constructor (accel: real)
      ensures accelVariance == accel && calls == []
    {
      accelVariance := accel;
      calls := [];
    }

    method Reset(x: real)
      modifies this
      ensures calls == old(calls) + [FilterCall.Reset(x)]
    {
      calls := calls + [FilterCall.Reset(x)];
      var a: real :| true;
      var v: real :| true;
      xAbs, xVel := a, v;
    }

    method Update(z: real, variance: real, dt: real)
      modifies this
      ensures calls == old(calls) + [FilterCall.Update(z, variance, dt)]
    {
      calls := calls + [FilterCall.Update(z, variance, dt)];
      var a: real :| true;
      var v: real :| true;
      xAbs, xVel := a, v;
    }

    function GetXAbs(): real
      reads this
    {
      xAbs
    }

    function GetXVel(): real
      reads this
    {
      xVel
    }
  }

  // ---------------------------------------------------------------------
  // Sample gating

  /** `timestamp - lastPressTimestamp` on quint64: wraps below zero. */
  function Delta(timestamp: U64, last: U64): (d: U64)
  {
    (timestamp - last) % U64_MOD
  }

  /** The unsigned difference is zero exactly for an equal timestamp, the
      plain difference going forwards and 2^64 less the gap going
      backwards. */
  lemma DeltaCases(timestamp: U64, last: U64)
    ensures Delta(timestamp, last) == 0 <==> timestamp == last
    ensures timestamp >= last ==> Delta(timestamp, last) == timestamp - last
    ensures timestamp < last ==> Delta(timestamp, last) == U64_MOD - (last - timestamp)
  {
    if timestamp >= last {
      Utils.DivModUnique(timestamp - last, 0, timestamp - last, U64_MOD);
    } else {
      Utils.DivModUnique(timestamp - last, -1, timestamp - last + U64_MOD, U64_MOD);
    }
  }

  /** Whether `getSensorInfo` feeds the filters: a previous timestamp was
      recorded, the unsigned difference divided by 1e6 is positive, the
      pressure is not zero and wall-clock time has passed. */
  predicate Accepts(last: U64, timestamp: U64, pressure: real, elapsedMs: int)
  {
    && last > 0
    && Delta(timestamp, last) as real / 1000000.0 > 0.0
    && pressure != 0.0
    && elapsedMs > 0
  }

  /** The gate, stated without the unsigned arithmetic: any timestamp other
      than the previous one passes, including one that went backwards. */
  lemma AcceptsIff(last: U64, timestamp: U64, pressure: real, elapsedMs: int)
    ensures Accepts(last, timestamp, pressure, elapsedMs) <==>
      last > 0 && timestamp != last && pressure != 0.0 && elapsedMs > 0
  {
    DeltaCases(timestamp, last);
  }

  /** A repeated timestamp is never fed to the filters. */
  lemma RepeatedTimestampRejected(t: U64, pressure: real, elapsedMs: int)
    ensures !Accepts(t, t, pressure, elapsedMs)
  {
    DeltaCases(t, t);
  }

  /** A timestamp that went backwards wraps to a huge positive delta and
      is not rejected. */
  lemma BackwardsTimestampAccepted(last: U64, timestamp: U64, pressure: real, elapsedMs: int)
    requires 0 <= timestamp < last && pressure != 0.0 && elapsedMs > 0
    ensures Accepts(last, timestamp, pressure, elapsedMs)
    ensures Delta(timestamp, last) > U64_MOD - last - 1
  {
    DeltaCases(timestamp, last);
  }

  /** The barometric formula on the filtered pressure in hPa. */
  function BaroAltitude(hPa: real, pow: (real, real) -> real): (h: real)
  {
    44330.0 * (1.0 - pow(hPa / Utils.SEA_LEVEL_PRESSURE_HPA, 0.19))
  }

  /** Sea-level pressure gives altitude 0 and a lower pressure a higher
      altitude, for any `pow` that is increasing in its base and gives 1 at
      base 1. */
  lemma BaroAltitudeShape(p: real, q: real, pow: (real, real) -> real)
    requires pow(1.0, 0.19) == 1.0
    requires p < q ==> pow(p / Utils.SEA_LEVEL_PRESSURE_HPA, 0.19) < pow(q / Utils.SEA_LEVEL_PRESSURE_HPA, 0.19)
    ensures BaroAltitude(Utils.SEA_LEVEL_PRESSURE_HPA, pow) == 0.0
    ensures p < q ==> BaroAltitude(p, pow) > BaroAltitude(q, pow)
  {
  }

  // ---------------------------------------------------------------------
  // Reading the GPS list

  /** The GPS fields the window keeps. */
  datatype GpsFix = GpsFix(altitude: real, latitude: real, longitude: real, groundSpeed: int)

  /** The reading of `getGpsInfo` as written: positions 0..3 taken as
      altitude, latitude, longitude and speed; `at` needs four entries. */
  function GpsFieldsAsWritten(info: seq<real>): (f: GpsFix)
    requires |info| >= 4
    ensures f.altitude == info[0] && f.latitude == info[1] && f.longitude == info[2]
    ensures info[3] >= 0.0 ==> 0 <= f.groundSpeed && f.groundSpeed as real <= info[3]
  {
    GpsFix(info[0], info[1], info[2], Utils.Trunc(info[3]))
  }

  /** The reading that matches the list `captureGpsData` sends
      (altitude, heading, latitude, longitude, speed); a list too short to
      hold a fix, such as the empty one sent for an invalid fix, is
      ignored. */
  function GpsFields(info: seq<real>): (f: Gps.Option<GpsFix>)
    ensures f.Some? <==> |info| >= 5
  {
    if |info| < 5 then Gps.None
    else Gps.Some(GpsFix(info[0], info[2], info[3], Utils.Trunc(info[4])))
  }

  /** As written, a fix heading east at 45 degrees north is shown with
      latitude 90 (the heading) and longitude 45 (the latitude). */
  lemma GpsAsWrittenMisreads()
    ensures var p := Gps.PositionInfo(true, 100.0, 45.0, 7.0, Gps.Some(90.0), Gps.None);
      && GpsFieldsAsWritten(Gps.CaptureGpsData(p)).latitude == 90.0
      && GpsFieldsAsWritten(Gps.CaptureGpsData(p)).longitude == 45.0
      && p.latitude == 45.0 && p.longitude == 7.0
  {
  }

  /** As written, the empty list sent for an invalid fix is read at
      position 0 although it holds nothing. */
  lemma GpsAsWrittenInvalidFix()
    ensures |Gps.CaptureGpsData(Gps.NoFix)| < 4
  {
  }

  /** The corrected reading recovers the fix that `captureGpsData` sent:
      altitude, latitude, longitude and the truncated speed, and nothing for
      an invalid fix. */
  lemma GpsFieldsRoundTrip(p: Gps.PositionInfo)
    ensures !p.isValid ==> GpsFields(Gps.CaptureGpsData(p)).None?
    ensures p.isValid ==>
      GpsFields(Gps.CaptureGpsData(p)) ==
        Gps.Some(GpsFix(p.altitude, p.latitude, p.longitude,
                        Utils.Trunc(if p.groundSpeed.Some? then p.groundSpeed.value * 3.75 else 0.0)))
  {
    if p.isValid {
      Gps.CaptureGpsDataLayout(p);
    }
  }

  // ---------------------------------------------------------------------
  // Sliders

  /** The variance a slider position stands for (`value / 100.0`). */
  function SliderVariance(value: int): (v: real)
    ensures value >= 0 ==> v >= 0.0
  {
    value as real / 100.0
  }

  /** The position the constructor gives a slider for a variance. */
  function SliderPosition(variance: real): (value: int)
    ensures variance >= 0.0 ==> 0 <= value && value as real <= variance * 100.0
  {
    Utils.Trunc(variance * 100.0)
  }

  /** The initial positions are 0 and 5: the measurement slider stands for
      its initial variance, the acceleration slider for 0 instead of
      KF_VAR_ACCEL, a value no position reaches. */
  lemma InitialSliderPositions()
    ensures SliderPosition(Utils.KF_VAR_ACCEL) == 0
    ensures SliderPosition(Utils.KF_VAR_MEASUREMENT) == 5
    ensures SliderVariance(SliderPosition(Utils.KF_VAR_MEASUREMENT)) == Utils.KF_VAR_MEASUREMENT
    ensures forall v :: SliderVariance(v) != Utils.KF_VAR_ACCEL
  {
  }

  // ---------------------------------------------------------------------
  // The window

  class MainWindow {
    var pressureFilter: KalmanFilter
    var altitudeFilter: KalmanFilter
    var pDt: real
    var lastPressTimestamp: U64
    var pDeltaT: real
    /** `p_start` and `p_end` as milliseconds of the wall clock. */
    var pStart: int
    var pEnd: int
    var accelVariance: real
    var measurementVariance: real
    var latitude: real
    var longitude: real
    var groundSpeed: int
    var pressure: real
    var temperature: real
    var altitude: real
    var baroaltitude: real
    var vario: real
    var stopReading: bool
    /** The text of the status line (`printInfo`). */
    var status: string
    /** The positions of the two tuning sliders, which the handlers
        receive as `value`. */
    var sliderAccel: int
    var sliderMeasurement: int

    /** The two filters are distinct objects. */
    predicate Valid()
      reads this
    {
      pressureFilter != altitudeFilter
    }

    /** `now` is the wall clock at construction. `lastPressTimestamp` is
        never initialised by the constructor: it holds an arbitrary value. */
    constructor (now: int)
      ensures Valid()
      ensures accelVariance == Utils.KF_VAR_ACCEL && measurementVariance == Utils.KF_VAR_MEASUREMENT
      ensures sliderAccel == 0 && sliderMeasurement == 5
      ensures !stopReading && pStart == now
      ensures altitude == 0.0 && pressure == Utils.SEA_LEVEL_PRESSURE
      ensures fresh(pressureFilter) && fresh(altitudeFilter)
      ensures pressureFilter.accelVariance == Utils.KF_VAR_ACCEL
      ensures altitudeFilter.accelVariance == Utils.KF_VAR_ACCEL
      ensures pressureFilter.calls == [Reset(Utils.SEA_LEVEL_PRESSURE)]
      ensures altitudeFilter.calls == [Reset(0.0)]
    {
      accelVariance := Utils.KF_VAR_ACCEL;
      measurementVariance := Utils.KF_VAR_MEASUREMENT;
      InitialSliderPositions();
      sliderAccel := SliderPosition(Utils.KF_VAR_ACCEL);
      sliderMeasurement := SliderPosition(Utils.KF_VAR_MEASUREMENT);
      stopReading := false;
      pStart := now;
      altitude := 0.0;
      pressure := Utils.SEA_LEVEL_PRESSURE;
      var pf := new KalmanFilter(Utils.KF_VAR_ACCEL);
      pf.Reset(Utils.SEA_LEVEL_PRESSURE);
      var af := new KalmanFilter(Utils.KF_VAR_ACCEL);
      af.Reset(0.0);
      pressureFilter := pf;
      altitudeFilter := af;
      status := "";
    }

    /** `getSensorInfo`: `info` is (pressure in Pa, temperature, timestamp
        in microseconds) and `now` the wall clock in milliseconds. */
    method GetSensorInfo(info: seq<real>, now: int, pow: (real, real) -> real)
      requires Valid() && |info| >= 3 && 0.0 <= info[2] < U64_MOD as real
      modifies this`pressure, this`temperature, this`lastPressTimestamp, this`pDeltaT,
               this`pEnd, this`pStart, this`pDt, this`baroaltitude, this`vario,
               pressureFilter, altitudeFilter
      ensures old(stopReading) ==>
        && unchanged(this) && unchanged(pressureFilter) && unchanged(altitudeFilter)
      ensures !old(stopReading) ==>
        && lastPressTimestamp == Utils.Trunc(info[2])
        && temperature == info[1]
        && (old(lastPressTimestamp) > 0 ==>
              pDeltaT == Delta(lastPressTimestamp, old(lastPressTimestamp)) as real / 1000000.0)
        && (old(lastPressTimestamp) == 0 ==> pDeltaT == old(pDeltaT))
      ensures !old(stopReading) && Accepts(old(lastPressTimestamp), Utils.Trunc(info[2]), info[0], now - old(pStart)) ==>
        var dt := (now - old(pStart)) as real / 1000.0;
        && pressureFilter.calls == old(pressureFilter.calls) + [Update(info[0], Utils.KF_VAR_MEASUREMENT, dt)]
        && pressure == pressureFilter.xAbs * 0.01
        && altitudeFilter.calls == old(altitudeFilter.calls) + [Update(BaroAltitude(pressure, pow), measurementVariance, dt)]
        && baroaltitude == altitudeFilter.xAbs
        && vario == altitudeFilter.xVel
        && pDt == dt && pStart == now
      ensures !old(stopReading) && !Accepts(old(lastPressTimestamp), Utils.Trunc(info[2]), info[0], now - old(pStart)) ==>
        && unchanged(pressureFilter) && unchanged(altitudeFilter)
        && pressure == info[0] && pStart == old(pStart)
        && baroaltitude == old(baroaltitude) && vario == old(vario) && pDt == old(pDt)
    {
      if stopReading {
        return;
      }
      pressure := info[0];
      temperature := info[1];
      var timestamp: U64 := Utils.Trunc(info[2]);
      GateSample(timestamp, now, pow);
      lastPressTimestamp := timestamp;
    }

    /** `getGpsInfo`, reading the list `captureGpsData` sends at the
        positions it uses (see GpsFieldsAsWritten for the positions the code
        reads); the status line shows "Gps: " and the joined list. */
    method GetGpsInfo(info: seq<real>, format: real -> string)
      modifies this`altitude, this`latitude, this`longitude, this`groundSpeed, this`status
      ensures GpsFields(info).Some? ==>
        GpsFix(altitude, latitude, longitude, groundSpeed) == GpsFields(info).value
      ensures GpsFields(info).None? ==>
        altitude == old(altitude) && latitude == old(latitude)
        && longitude == old(longitude) && groundSpeed == old(groundSpeed)
      ensures status == "Gps: " + Utils.Join(Utils.Formatted(info, format))
    {
      var fields := GpsFields(info);
      if fields.Some? {
        altitude := fields.value.altitude;
        latitude := fields.value.latitude;
        longitude := fields.value.longitude;
        groundSpeed := fields.value.groundSpeed;
      }
      var values := Utils.ListToString(info, format);
      status := "Gps: " + values;
    }

    /** The timestamp test of `getSensorInfo`, before the new timestamp is
        recorded: the filters are fed when Accepts holds, and p_start then
        moves to `now`. */
    method GateSample(timestamp: U64, now: int, pow: (real, real) -> real)
      requires Valid()
      modifies this`pressure, this`pDeltaT, this`pEnd, this`pStart, this`pDt,
               this`baroaltitude, this`vario, pressureFilter, altitudeFilter
      ensures lastPressTimestamp > 0 ==> pDeltaT == Delta(timestamp, lastPressTimestamp) as real / 1000000.0
      ensures lastPressTimestamp == 0 ==> pDeltaT == old(pDeltaT)
      ensures Accepts(lastPressTimestamp, timestamp, old(pressure), now - old(pStart)) ==>
        var dt := (now - old(pStart)) as real / 1000.0;
        && pressureFilter.calls == old(pressureFilter.calls) + [Update(old(pressure), Utils.KF_VAR_MEASUREMENT, dt)]
        && pressure == pressureFilter.xAbs * 0.01
        && altitudeFilter.calls == old(altitudeFilter.calls) + [Update(BaroAltitude(pressure, pow), measurementVariance, dt)]
        && baroaltitude == altitudeFilter.xAbs
        && vario == altitudeFilter.xVel
        && pDt == dt && pStart == now
      ensures !Accepts(lastPressTimestamp, timestamp, old(pressure), now - old(pStart)) ==>
        && unchanged(pressureFilter) && unchanged(altitudeFilter)
        && pressure == old(pressure) && pStart == old(pStart)
        && baroaltitude == old(baroaltitude) && vario == old(vario) && pDt == old(pDt)
    {
      if lastPressTimestamp > 0 {
        pDeltaT := Delta(timestamp, lastPressTimestamp) as real / 1000000.0;
        if pDeltaT > 0.0 {
          pEnd := now;
          var elapsedTimeMillis := pEnd - pStart;
          if pressure != 0.0 && elapsedTimeMillis > 0 {
            FeedFilters(elapsedTimeMillis, pow);
            pStart := pEnd;
          }
        }
      }
    }

    /** The accepted branch of `getSensorInfo`: the raw pressure goes to
        the pressure filter with the constant KF_VAR_MEASUREMENT, its output
        in hPa gives the barometric altitude, which goes to the altitude
        filter with the adjustable `measurementVariance`; both take the
        wall-clock dt in seconds, and vario is the altitude filter's
        velocity. */
    method FeedFilters(elapsedMs: int, pow: (real, real) -> real)
      requires Valid()
      modifies this`pressure, this`pDt, this`baroaltitude, this`vario, pressureFilter, altitudeFilter
      ensures var dt := elapsedMs as real / 1000.0;
        && pressureFilter.calls == old(pressureFilter.calls) + [Update(old(pressure), Utils.KF_VAR_MEASUREMENT, dt)]
        && pressure == pressureFilter.xAbs * 0.01
        && altitudeFilter.calls == old(altitudeFilter.calls) + [Update(BaroAltitude(pressure, pow), measurementVariance, dt)]
        && baroaltitude == altitudeFilter.xAbs
        && vario == altitudeFilter.xVel
        && pDt == dt
    {
      pDt := elapsedMs as real / 1000.0;
      pressureFilter.Update(pressure, Utils.KF_VAR_MEASUREMENT, pDt);
      pressure := pressureFilter.GetXAbs();
      pressure := pressure * 0.01;
      baroaltitude := BaroAltitude(pressure, pow);
      altitudeFilter.Update(baroaltitude, measurementVariance, pDt);
      baroaltitude := altitudeFilter.GetXAbs();
      vario := altitudeFilter.GetXVel();
    }

    /** `on_scrollBarMeasurement_valueChanged`: only the altitude filter's
        measurement noise follows the slider. */
    method OnScrollBarMeasurement(value: int)
      modifies this`measurementVariance, this`sliderMeasurement
      ensures measurementVariance == SliderVariance(value) && sliderMeasurement == value
    {
      sliderMeasurement := value;
      measurementVariance := SliderVariance(value);
    }

    /** `on_scrollBarAccel_valueChanged`: both filters are replaced by new
        ones built with the slider's variance and, unlike in the
        constructor, not reset; reading resumes afterwards. */
    method OnScrollBarAccel(value: int)
      modifies this`stopReading, this`accelVariance, this`pressureFilter, this`altitudeFilter,
               this`sliderAccel
      ensures Valid() && !stopReading
      ensures accelVariance == SliderVariance(value) && sliderAccel == value
      ensures fresh(pressureFilter) && fresh(altitudeFilter)
      ensures pressureFilter.accelVariance == accelVariance && pressureFilter.calls == []
      ensures altitudeFilter.accelVariance == accelVariance && altitudeFilter.calls == []
    {
      sliderAccel := value;
      stopReading := true;
      accelVariance := SliderVariance(value);
      pressureFilter := new KalmanFilter(accelVariance);
      altitudeFilter := new KalmanFilter(accelVariance);
      stopReading := false;
    }
  }
}
