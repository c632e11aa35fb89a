// Model of readgps.cpp: `ReadGps`, the GPS reader with its retry state
// machine. The position source, the retry timer and the signals the class
// emits are represented by the state the handlers change: whether a source
// and a timer exist, whether the timer runs and with which interval, and
// logs of the calls made on the source, of the emitted signals and of the
// single-shot re-initialisations scheduled.

module Gps {

  datatype Option<T> = None | Some(value: T)

  /** The parts of a QGeoPositionInfo that `captureGpsData` reads. */
  datatype PositionInfo = PositionInfo(
    isValid: bool,
    altitude: real,
    latitude: real,
    longitude: real,
    direction: Option<real>,
    groundSpeed: Option<real>)

  /** A default-constructed QGeoPositionInfo: not valid. */
  const NoFix := PositionInfo(false, 0.0, 0.0, 0.0, None, None)

  /** `captureGpsData`: nothing for an invalid fix, otherwise altitude,
      heading (0 when absent), latitude, longitude and ground speed x 3.75
      (0 when absent), in that order. */
  function CaptureGpsData(info: PositionInfo): (r: seq<real>)
    ensures |r| == 0 <==> !info.isValid
    ensures info.isValid ==> |r| == 5
  {
    if !info.isValid then []
    else
      var heading := if info.direction.Some? then info.direction.value else 0.0;
      var speed := if info.groundSpeed.Some? then info.groundSpeed.value * 3.75 else 0.0;
      [info.altitude, heading, info.latitude, info.longitude, speed]
  }

  /** What each slot of the list holds, stated slot by slot. */
  lemma CaptureGpsDataLayout(info: PositionInfo)
    requires info.isValid
    ensures var r := CaptureGpsData(info);
      && r[0] == info.altitude
      && r[2] == info.latitude
      && r[3] == info.longitude
      && (info.direction.Some? ==> r[1] == info.direction.value)
      && (info.direction.None? ==> r[1] == 0.0)
      && (info.groundSpeed.Some? ==> r[4] == 3.75 * info.groundSpeed.value)
      && (info.groundSpeed.None? ==> r[4] == 0.0)
  {
  }

  /** MAX_RETRIES, INITIAL_TIMEOUT and NORMAL_TIMEOUT (milliseconds): their
      definitions are not part of this model, so they are parameters. */
  datatype Config = Config(maxRetries: int, initialTimeout: int, normalTimeout: int)

  /** QGeoPositionInfoSource::Error. */
  datatype ErrorKind = AccessError | ClosedError | UpdateTimeoutError | UnknownSourceError | NoError

  /** Calls the reader makes on its position source. */
  datatype SourceCall =
    | SetPreferredAllMethods
    | SetUpdateInterval(ms: int)
    | RequestUpdate(timeout: int)
    | StartUpdates
    | StopUpdates

  /** Signals the reader emits. */
  datatype Signal = GpsTimeout | PermissionDenied | SendInfo(values: seq<real>)

  /** Everything the handlers read or change. */
  datatype GpsState = GpsState(
    hasSource: bool,
    hasTimer: bool,
    timerActive: bool,
    timerInterval: int,
    timersCreated: nat,
    retryCount: int,
    updatesStarted: bool,
    isWaitingForFix: bool,
    positionInfo: PositionInfo,
    sourceCalls: seq<SourceCall>,
    signals: seq<Signal>,
    scheduled: seq<int>)

  /** The state the constructor leaves: no source, no timer, nothing
      pending, and checkPermissionAndInitialize scheduled in 100 ms. */
  const Initial := GpsState(false, false, false, 0, 0, 0, false, false, NoFix, [], [], [100])

  /** What holds between events: the retry count stays below the maximum,
      continuous updates and waiting for a fix need a source, and only an
      existing timer runs. */
  predicate Inv(s: GpsState, c: Config)
  {
    && 0 <= s.retryCount < c.maxRetries
    && (s.updatesStarted ==> s.hasSource)
    && (s.isWaitingForFix ==> s.hasSource)
    && (s.timerActive ==> s.hasTimer)
  }

  // ---------------------------------------------------------------------
  // The handlers as functions of the state

  /** `stopRetryTimer`. */
  function StopTimer(s: GpsState): GpsState
  {
    if s.hasTimer then s.(timerActive := false, hasTimer := false) else s
  }

  /** `startRetryTimer`: creates the single-shot timer if there is none and
      (re)starts it with INITIAL_TIMEOUT + 1000 ms. */
  function StartTimer(s: GpsState, c: Config): GpsState
  {
    var t := if s.hasTimer then s else s.(hasTimer := true, timerActive := false, timersCreated := s.timersCreated + 1);
    t.(timerActive := true, timerInterval := c.initialTimeout + 1000)
  }

  /** `requestSingleUpdate`. */
  function RequestSingle(s: GpsState, c: Config): GpsState
  {
    if !s.hasSource then s
    else StartTimer(s.(isWaitingForFix := true, sourceCalls := s.sourceCalls + [RequestUpdate(c.initialTimeout)]), c)
  }

  /** `cleanupGPS`. */
  function Cleanup(s: GpsState): GpsState
  {
    var t := StopTimer(s);
    var u := if t.hasSource then t.(sourceCalls := t.sourceCalls + [StopUpdates], hasSource := false) else t;
    u.(updatesStarted := false, isWaitingForFix := false, retryCount := 0)
  }

  /** `retryUpdate`. */
  function Retry(s: GpsState, c: Config): GpsState
  {
    if !s.isWaitingForFix then s
    else
      var n := s.retryCount + 1;
      if n >= c.maxRetries then
        var t := Cleanup(s.(signals := s.signals + [GpsTimeout], retryCount := 0, isWaitingForFix := false));
        t.(scheduled := t.scheduled + [1000])
      else
        RequestSingle(s.(retryCount := n), c)
  }

  /** `initializeGPS`. */
  function Initialize(s: GpsState): GpsState
  {
    if !s.hasSource || s.updatesStarted then s
    else s.(sourceCalls := s.sourceCalls + [StartUpdates], updatesStarted := true)
  }

  /** `positionUpdated`. */
  function Position(s: GpsState, info: PositionInfo): GpsState
  {
    var t := StopTimer(s).(isWaitingForFix := false, retryCount := 0, positionInfo := info);
    var u := t.(signals := t.signals + [SendInfo(CaptureGpsData(info))]);
    if !u.updatesStarted then Initialize(u) else u
  }

  /** `handleError`. */
  function HandleErr(s: GpsState, e: ErrorKind, c: Config): GpsState
  {
    if !s.hasSource then s
    else
      match e
      case AccessError =>
        s.(updatesStarted := false, isWaitingForFix := false, signals := s.signals + [PermissionDenied])
      case UpdateTimeoutError =>
        if !s.hasTimer || !s.timerActive then Retry(s, c) else s
      case _ =>
        var t := Cleanup(s);
        t.(scheduled := t.scheduled + [1000])
  }

  /** `checkPermissionAndInitialize`; `created` says whether
      QGeoPositionInfoSource::createDefaultSource returned a source. */
  function CheckInit(s: GpsState, created: bool, c: Config): GpsState
  {
    var t := if s.hasSource then Cleanup(s) else s;
    if !created then t.(hasSource := false)
    else RequestSingle(t.(hasSource := true,
                          sourceCalls := t.sourceCalls + [SetPreferredAllMethods, SetUpdateInterval(c.normalTimeout)]), c)
  }

  // ---------------------------------------------------------------------
  // Properties of the handlers

  /** The constructor's state satisfies the invariant once MAX_RETRIES is
      at least 1. */
  lemma InitialInv(c: Config)
    requires c.maxRetries >= 1
    ensures Inv(Initial, c)
  {
  }

  /** `retryUpdate` does nothing unless the reader waits for a fix. */
  lemma RetryNeedsWaiting(s: GpsState, c: Config)
    requires !s.isWaitingForFix
    ensures Retry(s, c) == s
  {
  }

  /** A retry while waiting either gives up at MAX_RETRIES (count back to
      0, no longer waiting, source torn down, gpsTimeout emitted and a
      restart scheduled in one second) or counts one more attempt and
      requests another update, waiting again. */
  lemma RetryOutcome(s: GpsState, c: Config)
    requires Inv(s, c) && s.isWaitingForFix
    ensures var r := Retry(s, c);
      if s.retryCount + 1 >= c.maxRetries then
        && r.retryCount == 0 && !r.isWaitingForFix && !r.hasSource && !r.hasTimer && !r.updatesStarted
        && r.signals == s.signals + [GpsTimeout] && r.scheduled == s.scheduled + [1000]
      else
        && r.retryCount == s.retryCount + 1 && r.isWaitingForFix
        && r.timerActive && r.timerInterval == c.initialTimeout + 1000
        && r.sourceCalls == s.sourceCalls + [RequestUpdate(c.initialTimeout)]
        && r.signals == s.signals
  {
  }

  /** The timer and cleanup helpers keep the invariant. */
  lemma HelpersKeepInv(s: GpsState, c: Config)
    requires Inv(s, c)
    ensures Inv(StartTimer(s, c), c) && Inv(StopTimer(s), c)
    ensures Inv(RequestSingle(s, c), c)
    ensures Inv(Cleanup(s), c) && Inv(Initialize(s), c)
  {
  }

  /** `retryUpdate` keeps the retry count in [0, MAX_RETRIES) and the
      rest of the invariant. */
  lemma RetryKeepsInv(s: GpsState, c: Config)
    requires Inv(s, c)
    ensures Inv(Retry(s, c), c)
  {
    if s.isWaitingForFix && s.retryCount + 1 < c.maxRetries {
      HelpersKeepInv(s.(retryCount := s.retryCount + 1), c);
    }
  }

  /** `positionUpdated` keeps the invariant. */
  lemma PositionKeepsInv(s: GpsState, info: PositionInfo, c: Config)
    requires Inv(s, c)
    ensures Inv(Position(s, info), c)
  {
  }

  /** `handleError` keeps the invariant. */
  lemma HandleErrKeepsInv(s: GpsState, e: ErrorKind, c: Config)
    requires Inv(s, c)
    ensures Inv(HandleErr(s, e, c), c)
  {
    if s.hasSource && e == UpdateTimeoutError {
      RetryKeepsInv(s, c);
    }
  }

  /** `checkPermissionAndInitialize` keeps the invariant. */
  lemma CheckInitKeepsInv(s: GpsState, created: bool, c: Config)
    requires Inv(s, c)
    ensures Inv(CheckInit(s, created, c), c)
  {
  }

  /** `cleanupGPS` leaves no source, no timer, no updates, no waiting and
      a zero count, and a second call changes nothing. */
  lemma CleanupResets(s: GpsState)
    requires s.timerActive ==> s.hasTimer
    ensures var t := Cleanup(s);
      && !t.hasSource && !t.hasTimer && !t.timerActive && !t.updatesStarted
      && !t.isWaitingForFix && t.retryCount == 0
      && Cleanup(t) == t
  {
  }

  /** `positionUpdated` ends the wait and the count, stops the retry timer,
      emits the captured list and leaves continuous updates running when
      there is a source; it starts them at most once. */
  lemma PositionOutcome(s: GpsState, info: PositionInfo)
    requires s.timerActive ==> s.hasTimer
    ensures var t := Position(s, info);
      && !t.isWaitingForFix && t.retryCount == 0 && !t.timerActive && !t.hasTimer
      && t.positionInfo == info
      && t.signals == s.signals + [SendInfo(CaptureGpsData(info))]
      && (s.hasSource ==> t.updatesStarted)
      && (s.updatesStarted ==> t.sourceCalls == s.sourceCalls)
      && (!s.updatesStarted && s.hasSource ==> t.sourceCalls == s.sourceCalls + [StartUpdates])
  {
  }

  /** `initializeGPS` is a no-op without a source or once updates run, so
      a second call changes nothing. */
  lemma InitializeOnce(s: GpsState)
    ensures (!s.hasSource || s.updatesStarted) ==> Initialize(s) == s
    ensures Initialize(Initialize(s)) == Initialize(s)
  {
  }

  /** `handleError`: no-op without a source; AccessError clears updates and
      waiting but keeps the count; a timeout retries only when the retry
      timer is absent or idle; any other error tears down and schedules a
      restart. */
  lemma HandleErrOutcome(s: GpsState, e: ErrorKind, c: Config)
    ensures !s.hasSource ==> HandleErr(s, e, c) == s
    ensures s.hasSource && e == AccessError ==>
      var t := HandleErr(s, e, c);
      !t.updatesStarted && !t.isWaitingForFix && t.retryCount == s.retryCount
      && t.signals == s.signals + [PermissionDenied]
    ensures s.hasSource && e == UpdateTimeoutError ==>
      HandleErr(s, e, c) == if !s.hasTimer || !s.timerActive then Retry(s, c) else s
    ensures s.hasSource && e != AccessError && e != UpdateTimeoutError ==>
      var t := HandleErr(s, e, c);
      !t.hasSource && t.retryCount == 0 && t.scheduled == s.scheduled + [1000]
  {
  }

  /** `requestSingleUpdate`: no-op without a source; otherwise waiting,
      one requestUpdate(INITIAL_TIMEOUT) and the retry timer running, a
      timer being created only if there was none. */
  lemma RequestSingleOutcome(s: GpsState, c: Config)
    ensures !s.hasSource ==> RequestSingle(s, c) == s
    ensures s.hasSource ==>
      var t := RequestSingle(s, c);
      && t.isWaitingForFix && t.hasTimer && t.timerActive
      && t.timerInterval == c.initialTimeout + 1000
      && t.sourceCalls == s.sourceCalls + [RequestUpdate(c.initialTimeout)]
      && t.timersCreated == s.timersCreated + (if s.hasTimer then 0 else 1)
  {
  }

  // ---------------------------------------------------------------------
  // The class

  class ReadGps {
    var hasSource: bool
    var hasTimer: bool
    var timerActive: bool
    var timerInterval: int
    var timersCreated: nat
    var retryCount: int
    var updatesStarted: bool
    var isWaitingForFix: bool
    var positionInfo: PositionInfo
    var sourceCalls: seq<SourceCall>
    var signals: seq<Signal>
    var scheduled: seq<int>
    const config: Config

    /** The fields as one value. */
    function State(): GpsState
      reads this
    {
      GpsState(hasSource, hasTimer, timerActive, timerInterval, timersCreated, retryCount,
               updatesStarted, isWaitingForFix, positionInfo, sourceCalls, signals, scheduled)
    }

    constructor (c: Config)
      ensures State() == Initial && config == c
    {
      config := c;
      hasSource := false;
      hasTimer := false;
      timerActive := false;
      timerInterval := 0;
      timersCreated := 0;
      retryCount := 0;
      updatesStarted := false;
      isWaitingForFix := false;
      positionInfo := NoFix;
      sourceCalls := [];
      signals := [];
      scheduled := [100];
    }

    method StopRetryTimer()
      modifies this
      ensures State() == StopTimer(old(State()))
    {
      if hasTimer {
        timerActive := false;
        hasTimer := false;
      }
    }

    method StartRetryTimer()
      modifies this
      ensures State() == StartTimer(old(State()), config)
    {
      if !hasTimer {
        hasTimer := true;
        timerActive := false;
        timersCreated := timersCreated + 1;
      }
      timerActive := true;
      timerInterval := config.initialTimeout + 1000;
    }

    method RequestSingleUpdate()
      modifies this
      ensures State() == RequestSingle(old(State()), config)
    {
      if !hasSource {
        return;
      }
      isWaitingForFix := true;
      sourceCalls := sourceCalls + [RequestUpdate(config.initialTimeout)];
      StartRetryTimer();
    }

    method CleanupGPS()
      modifies this
      ensures State() == Cleanup(old(State()))
    {
      StopRetryTimer();
      if hasSource {
        sourceCalls := sourceCalls + [StopUpdates];
        hasSource := false;
      }
      updatesStarted := false;
      isWaitingForFix := false;
      retryCount := 0;
    }

    method RetryUpdate()
      modifies this
      ensures State() == Retry(old(State()), config)
    {
      if !isWaitingForFix {
        return;
      }
      ghost var s := State();
      retryCount := retryCount + 1;
      if retryCount >= config.maxRetries {
        signals := signals + [GpsTimeout];
        retryCount := 0;
        isWaitingForFix := false;
        assert State() == s.(signals := s.signals + [GpsTimeout], retryCount := 0, isWaitingForFix := false);
        CleanupGPS();
        scheduled := scheduled + [1000];
        return;
      }
      assert State() == s.(retryCount := s.retryCount + 1);
      RequestSingleUpdate();
    }

    /** The single-shot retry timer fires: it stops and calls retryUpdate. */
    method RetryTimerFired()
      requires hasTimer && timerActive
      modifies this
      ensures State() == Retry(old(State()).(timerActive := false), config)
    {
      timerActive := false;
      RetryUpdate();
    }

    method InitializeGPS()
      modifies this
      ensures State() == Initialize(old(State()))
    {
      if !hasSource {
        return;
      }
      if !updatesStarted {
        sourceCalls := sourceCalls + [StartUpdates];
        updatesStarted := true;
      }
    }

    method PositionUpdated(info: PositionInfo)
      modifies this
      ensures State() == Position(old(State()), info)
    {
      StopRetryTimer();
      isWaitingForFix := false;
      retryCount := 0;
      positionInfo := info;
      signals := signals + [SendInfo(CaptureGpsData(positionInfo))];
      if !updatesStarted {
        InitializeGPS();
      }
    }

    method HandleError(e: ErrorKind)
      modifies this
      ensures State() == HandleErr(old(State()), e, config)
    {
      if !hasSource {
        return;
      }
      match e
      case AccessError =>
        updatesStarted := false;
        isWaitingForFix := false;
        signals := signals + [PermissionDenied];
      case UpdateTimeoutError =>
        if !hasTimer || !timerActive {
          RetryUpdate();
        }
      case _ =>
        CleanupGPS();
        scheduled := scheduled + [1000];
    }

    method CheckPermissionAndInitialize(created: bool)
      modifies this
      ensures State() == CheckInit(old(State()), created, config)
    {
      if hasSource {
        CleanupGPS();
      }
      hasSource := created;
      if hasSource {
        sourceCalls := sourceCalls + [SetPreferredAllMethods, SetUpdateInterval(config.normalTimeout)];
        RequestSingleUpdate();
      }
    }

  }
}
