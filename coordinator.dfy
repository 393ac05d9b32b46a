/**
 * The coordinator of coordinator.py: polling with failure accounting and a
 * cached-status fallback, the operation phase shown to listeners, the
 * irrigation record, and the synthetic statuses it caches when the device
 * cannot confirm a command.
 *
 * Each method of `GalconCoordinator` is specified by a function on the
 * coordinator's whole state (`CoordState`): the new state is that function of
 * the old one. The properties the coordinator promises are lemmas about those
 * functions.
 */
module Coordinator {
  import opened Consts
  import opened Options
  import opened Status
  import Device

  /** The visual phase of a device operation, with its display string. */
  datatype OperationState = Idle | Connecting | Opening | Closing | Verifying | Confirmed | Error | Scanning
  {
    function Label(): string
    {
      match this
      case Idle => "Idle"
      case Connecting => "Connecting..."
      case Opening => "Opening..."
      case Closing => "Closing..."
      case Verifying => "Verifying..."
      case Confirmed => "Confirmed"
      case Error => "Error"
      case Scanning => "Scanning..."
    }
  }

  /** `OperationState(label)`: the phase a display string names, if any. */
  function FromLabel(name: string): Option<OperationState>
  {
    if name == "Idle" then Some(Idle)
    else if name == "Connecting..." then Some(Connecting)
    else if name == "Opening..." then Some(Opening)
    else if name == "Closing..." then Some(Closing)
    else if name == "Verifying..." then Some(Verifying)
    else if name == "Confirmed" then Some(Confirmed)
    else if name == "Error" then Some(Error)
    else if name == "Scanning..." then Some(Scanning)
    else None
  }

  lemma LabelRoundTrip(a: OperationState)
    ensures FromLabel(a.Label()) == Some(a)
  {
  }

  /** Distinct phases show distinct strings. */
  lemma LabelsDistinct(a: OperationState, b: OperationState)
    ensures a.Label() == b.Label() <==> a == b
  {
    LabelRoundTrip(a);
    LabelRoundTrip(b);
  }

  /** A registered state listener, by identity. */
  type Listener = nat

  /** One call of a listener, made while the phase was `state`. */
  datatype Notification = Notification(listener: Listener, state: OperationState)

  /** The calls `_set_operation_state(state)` makes: every listener once, in registration order. */
  function Announce(ls: seq<Listener>, state: OperationState): (ns: seq<Notification>)
    ensures |ns| == |ls|
    ensures forall i :: 0 <= i < |ls| ==> ns[i] == Notification(ls[i], state)
  {
    if ls == [] then [] else [Notification(ls[0], state)] + Announce(ls[1..], state)
  }

  /** The 24-hour update interval used while polling is disabled, in seconds. */
  const DISABLED_INTERVAL: int := 24 * 3600

  /** Everything the coordinator's methods update. */
  datatype CoordState = CoordState(
    consecutiveFailures: nat,
    lastSuccessfulPoll: Option<int>,
    lastKnownStatus: Option<GalconStatus>,
    pollingEnabled: bool,
    updateInterval: int,
    durationMinutes: int,
    lastIrrigationStart: Option<int>,
    lastIrrigationDurationMin: Option<int>,
    currentIrrigationStart: Option<int>,
    currentIrrigationDuration: int,
    operationState: OperationState,
    listeners: seq<Listener>,
    notifications: seq<Notification>,
    data: Option<GalconStatus>)

  /** `scan_interval or DEFAULT_SCAN_INTERVAL`: a missing or zero interval falls back to the default. */
  function BaseInterval(scanInterval: Option<int>): (base: int)
    ensures scanInterval.None? ==> base == DEFAULT_SCAN_INTERVAL
    ensures scanInterval.Some? ==> base == if scanInterval.value == 0 then DEFAULT_SCAN_INTERVAL else scanInterval.value
    ensures base != 0
  {
    match scanInterval
    case None => DEFAULT_SCAN_INTERVAL
    case Some(v) => if v != 0 then v else DEFAULT_SCAN_INTERVAL
  }

  function Initial(base: int): CoordState
  {
    CoordState(0, None, None, false, base, 20, None, None, None, 0, Idle, [], [], None)
  }

  /** `reachable` */
  predicate Reachable(s: CoordState)
  {
    s.consecutiveFailures < MAX_CONSECUTIVE_FAILURES
  }

  // ---- the state transitions ----

  /** `_set_operation_state` */
  function Phase(s: CoordState, state: OperationState): CoordState
  {
    s.(operationState := state, notifications := s.notifications + Announce(s.listeners, state))
  }

  /** `set_polling` */
  function AfterSetPolling(s: CoordState, enabled: bool, base: int): CoordState
  {
    if enabled then s.(pollingEnabled := true, consecutiveFailures := 0, updateInterval := base)
    else Phase(s.(pollingEnabled := false, updateInterval := DISABLED_INTERVAL), Idle)
  }

  /** The raw bytes and battery level a synthetic status carries over from the cache. */
  function CarriedRaw(cache: Option<GalconStatus>): Bytes
  {
    if cache.Some? then cache.value.raw else []
  }

  function CarriedBattery(cache: Option<GalconStatus>): Option<int>
  {
    if cache.Some? then cache.value.batteryLevel else None
  }

  /**
   * `_async_update_data`, given what the device call returned (`None`: no call
   * was made).
   */
  function AfterPoll(s: CoordState, fetched: Option<Device.Outcome<GalconStatus>>, now: int): CoordState
  {
    if !s.pollingEnabled then
      if s.lastKnownStatus.Some? then s else s.(lastKnownStatus := Some(ClosedStatus([], None)))
    else
      var scanning := Phase(s, Scanning);
      match fetched
      case Some(Value(status)) =>
        Phase(scanning.(consecutiveFailures := 0, lastSuccessfulPoll := Some(now), lastKnownStatus := Some(status)), Idle)
      case _ =>
        Phase(scanning.(consecutiveFailures := s.consecutiveFailures + 1), Idle)
  }

  /** What `_async_update_data` hands to the framework: a status, or `UpdateFailed`. */
  datatype PollResult = Polled(status: GalconStatus) | UpdateFailed

  function PollAnswer(s: CoordState, fetched: Option<Device.Outcome<GalconStatus>>): PollResult
  {
    if !s.pollingEnabled then
      Polled(if s.lastKnownStatus.Some? then s.lastKnownStatus.value else ClosedStatus([], None))
    else
      match fetched
      case Some(Value(status)) => Polled(status)
      case _ => if s.lastKnownStatus.Some? then Polled(s.lastKnownStatus.value) else UpdateFailed
  }

  /** `_record_irrigation_start` */
  function AfterRecordStart(s: CoordState, now: int, minutes: int): CoordState
  {
    s.(currentIrrigationStart := Some(now), currentIrrigationDuration := minutes)
  }

  /** `_record_irrigation_end` */
  function AfterRecordEnd(s: CoordState): CoordState
  {
    if s.currentIrrigationStart.Some? then
      s.(lastIrrigationStart := s.currentIrrigationStart,
         lastIrrigationDurationMin := Some(s.currentIrrigationDuration),
         currentIrrigationStart := None)
    else s
  }

  /** The duration `async_open_valve` records: whole minutes, a started minute counting as one. */
  function RecordedMinutes(hours: int, minutes: int, seconds: int): int
  {
    hours * 60 + minutes + (if seconds != 0 then 1 else 0)
  }

  /** The status cached when an open is sent but not confirmed. */
  function AssumedOpen(cache: Option<GalconStatus>, hours: int, minutes: int, seconds: int): GalconStatus
  {
    GalconStatus(true, true, hours, minutes, seconds, CarriedRaw(cache), CarriedBattery(cache))
  }

  /** The status cached when a close is not confirmed, or the countdown expires. */
  function AssumedClosed(cache: Option<GalconStatus>): GalconStatus
  {
    ClosedStatus(CarriedRaw(cache), CarriedBattery(cache))
  }

  /** `async_open_valve`, given the device's outcome. */
  function AfterOpen(s: CoordState, hours: int, minutes: int, seconds: int,
                     r: Device.Outcome<Device.Verdict>, now: int): CoordState
  {
    var opening := Phase(Phase(s, Connecting), Opening);
    match r
    case Failed(_) => Phase(opening, Error)
    case Value(v) =>
      var confirmed := Phase(opening, Confirmed);
      var cache := if v.Confirmed? then v.status else AssumedOpen(s.lastKnownStatus, hours, minutes, seconds);
      AfterRecordStart(confirmed.(lastKnownStatus := Some(cache)), now, RecordedMinutes(hours, minutes, seconds))
        .(data := Some(cache))
  }

  /** `async_close_valve`, given the device's outcome. */
  function AfterClose(s: CoordState, r: Device.Outcome<Device.Verdict>): CoordState
  {
    var closing := Phase(Phase(s, Connecting), Closing);
    match r
    case Failed(_) => Phase(closing, Error)
    case Value(v) =>
      var ended := AfterRecordEnd(Phase(closing, Confirmed));
      var cache := if v.Confirmed? then v.status else AssumedClosed(s.lastKnownStatus);
      ended.(lastKnownStatus := Some(cache), data := Some(cache))
  }

  /** `async_irrigation_ended` */
  function AfterIrrigationEnded(s: CoordState): CoordState
  {
    var cache := AssumedClosed(s.lastKnownStatus);
    AfterSetPolling(AfterRecordEnd(s).(lastKnownStatus := Some(cache), data := Some(cache)), false, 0)
  }

  // ---- the properties ----

  /** `set_polling`: enabling resets the failure count and restores the base interval; disabling keeps the count. */
  lemma SetPollingEffects(s: CoordState, base: int)
    ensures var on := AfterSetPolling(s, true, base);
      on.pollingEnabled && on.consecutiveFailures == 0 && Reachable(on) && on.updateInterval == base &&
      on.operationState == s.operationState && on.notifications == s.notifications
    ensures var off := AfterSetPolling(s, false, base);
      !off.pollingEnabled && off.consecutiveFailures == s.consecutiveFailures &&
      off.updateInterval == 24 * 60 * 60 && off.operationState == Idle &&
      off.notifications == s.notifications + Announce(s.listeners, Idle)
  {
  }

  /** With polling disabled a poll calls nothing and answers with the cache, creating a closed one if there is none. */
  lemma DisabledPoll(s: CoordState, now: int)
    requires !s.pollingEnabled
    ensures var t := AfterPoll(s, None, now);
      PollAnswer(s, None) == Polled(t.lastKnownStatus.value) &&
      (s.lastKnownStatus.Some? ==> t == s) &&
      (s.lastKnownStatus.None? ==> t.lastKnownStatus == Some(GalconStatus(false, false, 0, 0, 0, [], None)) &&
                                   t == s.(lastKnownStatus := t.lastKnownStatus))
    ensures AfterPoll(AfterPoll(s, None, now), None, now) == AfterPoll(s, None, now)
  {
  }

  /**
   * A poll with polling enabled: success resets the failure count, stamps the
   * poll time and caches the status; failure adds exactly one failure, keeps
   * the cache, and answers with it or with `UpdateFailed` when there is none.
   * Either way the phase goes Scanning, then Idle.
   */
  lemma PollAccounting(s: CoordState, fetched: Device.Outcome<GalconStatus>, now: int)
    requires s.pollingEnabled
    ensures var t := AfterPoll(s, Some(fetched), now);
      t.operationState == Idle &&
      t.notifications == s.notifications + Announce(s.listeners, Scanning) + Announce(s.listeners, Idle) &&
      t.pollingEnabled && t.listeners == s.listeners && t.data == s.data
    ensures fetched.Value? ==>
      var t := AfterPoll(s, Some(fetched), now);
      t.consecutiveFailures == 0 && Reachable(t) && t.lastSuccessfulPoll == Some(now) &&
      t.lastKnownStatus == Some(fetched.value) && PollAnswer(s, Some(fetched)) == Polled(fetched.value)
    ensures fetched.Failed? ==>
      var t := AfterPoll(s, Some(fetched), now);
      t.consecutiveFailures == s.consecutiveFailures + 1 && t.lastKnownStatus == s.lastKnownStatus &&
      t.lastSuccessfulPoll == s.lastSuccessfulPoll &&
      (PollAnswer(s, Some(fetched)) == UpdateFailed <==> s.lastKnownStatus.None?) &&
      (s.lastKnownStatus.Some? ==> PollAnswer(s, Some(fetched)) == Polled(s.lastKnownStatus.value))
  {
  }

  /** `n` polls in a row that all fail. */
  function FailedPolls(s: CoordState, n: nat, now: int): CoordState
  {
    if n == 0 then s else AfterPoll(FailedPolls(s, n - 1, now), Some(Device.Failed(Device.Unexpected)), now)
  }

  /**
   * Failures accumulate one per failed poll and nothing else in the poll
   * bookkeeping moves: the device stays reachable for exactly
   * MAX_CONSECUTIVE_FAILURES - 1 - failures more failed polls.
   */
  lemma {:induction false} FailuresAccumulate(s: CoordState, n: nat, now: int)
    requires s.pollingEnabled
    ensures var t := FailedPolls(s, n, now);
      t.consecutiveFailures == s.consecutiveFailures + n && t.pollingEnabled &&
      t.lastKnownStatus == s.lastKnownStatus && t.lastSuccessfulPoll == s.lastSuccessfulPoll
    ensures Reachable(FailedPolls(s, n, now)) <==> s.consecutiveFailures + n < MAX_CONSECUTIVE_FAILURES
  {
    if n > 0 {
      FailuresAccumulate(s, n - 1, now);
    }
  }

  /** From a fresh count, the fifth failed poll in a row is the first that makes the device unreachable. */
  lemma UnreachableAfterFiveFailures(s: CoordState, now: int)
    requires s.pollingEnabled && s.consecutiveFailures == 0
    ensures Reachable(FailedPolls(s, MAX_CONSECUTIVE_FAILURES - 1, now))
    ensures !Reachable(FailedPolls(s, MAX_CONSECUTIVE_FAILURES, now))
    ensures Reachable(AfterPoll(FailedPolls(s, MAX_CONSECUTIVE_FAILURES, now), Some(Device.Value(ClosedStatus([], None))), now))
  {
    FailuresAccumulate(s, MAX_CONSECUTIVE_FAILURES - 1, now);
    FailuresAccumulate(s, MAX_CONSECUTIVE_FAILURES, now);
  }

  /** Finalising the irrigation record copies the session in flight and clears it, so a second call changes nothing. */
  lemma RecordEndIdempotent(s: CoordState)
    ensures AfterRecordEnd(AfterRecordEnd(s)) == AfterRecordEnd(s)
    ensures AfterRecordEnd(s).currentIrrigationStart.None?
    ensures s.currentIrrigationStart.Some? ==>
      AfterRecordEnd(s).lastIrrigationStart == s.currentIrrigationStart &&
      AfterRecordEnd(s).lastIrrigationDurationMin == Some(s.currentIrrigationDuration)
    ensures s.currentIrrigationStart.None? ==> AfterRecordEnd(s) == s
  {
  }

  /**
   * An open the device answered: the phase ends Confirmed (not Idle), the
   * confirmed status or an assumed-open one carrying the previous raw bytes and
   * battery is cached and published, and an irrigation session of the
   * requested length starts now. A failed open ends in phase Error and changes
   * nothing else but the listener calls.
   */
  lemma OpenEffects(s: CoordState, hours: int, minutes: int, seconds: int, r: Device.Outcome<Device.Verdict>, now: int)
    ensures var t := AfterOpen(s, hours, minutes, seconds, r, now);
      t.notifications == s.notifications + Announce(s.listeners, Connecting) + Announce(s.listeners, Opening) +
        Announce(s.listeners, if r.Value? then Confirmed else Error) &&
      t.consecutiveFailures == s.consecutiveFailures && t.pollingEnabled == s.pollingEnabled
    ensures r.Failed? ==>
      AfterOpen(s, hours, minutes, seconds, r, now) ==
        s.(operationState := Error, notifications := AfterOpen(s, hours, minutes, seconds, r, now).notifications)
    ensures r.Value? ==>
      var t := AfterOpen(s, hours, minutes, seconds, r, now);
      t.operationState == Confirmed && t.data == t.lastKnownStatus && t.lastKnownStatus.Some? &&
      t.currentIrrigationStart == Some(now) &&
      t.currentIrrigationDuration == RecordedMinutes(hours, minutes, seconds) &&
      (r.value.Confirmed? ==> t.lastKnownStatus == Some(r.value.status)) &&
      (r.value.Unconfirmed? ==>
        var c := t.lastKnownStatus.value;
        c.valveOpen && c.manualOpen && c.hoursRemaining == hours && c.minutesRemaining == minutes &&
        c.secondsRemaining == seconds && c.raw == CarriedRaw(s.lastKnownStatus) &&
        c.batteryLevel == CarriedBattery(s.lastKnownStatus))
  {
  }

  /**
   * A close the device answered finalises the irrigation record and caches the
   * confirmed status or an assumed-closed one carrying the previous raw bytes
   * and battery.
   */
  lemma CloseEffects(s: CoordState, r: Device.Outcome<Device.Verdict>)
    ensures r.Failed? ==>
      AfterClose(s, r) == s.(operationState := Error, notifications :=
        s.notifications + Announce(s.listeners, Connecting) + Announce(s.listeners, Closing) + Announce(s.listeners, Error))
    ensures r.Value? ==>
      var t := AfterClose(s, r);
      t.operationState == Confirmed && t.data == t.lastKnownStatus && t.currentIrrigationStart.None? &&
      t.lastIrrigationStart == AfterRecordEnd(s).lastIrrigationStart &&
      t.lastIrrigationDurationMin == AfterRecordEnd(s).lastIrrigationDurationMin &&
      t.lastKnownStatus == Some(if r.value.Confirmed? then r.value.status else
        GalconStatus(false, false, 0, 0, 0, CarriedRaw(s.lastKnownStatus), CarriedBattery(s.lastKnownStatus)))
  {
  }

  /**
   * Countdown expiry: the record is finalised, a closed status carrying the
   * previous raw bytes and battery is cached and published, and polling ends
   * disabled with phase Idle.
   */
  lemma IrrigationEndedEffects(s: CoordState)
    ensures var t := AfterIrrigationEnded(s);
      !t.pollingEnabled && t.operationState == Idle && t.updateInterval == DISABLED_INTERVAL &&
      t.currentIrrigationStart.None? && t.consecutiveFailures == s.consecutiveFailures &&
      t.lastKnownStatus == Some(GalconStatus(false, false, 0, 0, 0, CarriedRaw(s.lastKnownStatus), CarriedBattery(s.lastKnownStatus))) &&
      t.data == t.lastKnownStatus &&
      t.lastKnownStatus.value.TimeRemainingSeconds() == 0
  {
  }

  /**
   * A full session: open for a duration the device accepts, then let the countdown
   * expire. The record holds the open's start time and recorded length, and the
   * cache keeps the raw bytes and battery the open cached.
   */
  lemma {:induction false} OpenThenExpire(s: CoordState, hours: int, minutes: int, seconds: int, v: Device.Verdict, now: int)
    ensures var t := AfterIrrigationEnded(AfterOpen(s, hours, minutes, seconds, Device.Value(v), now));
      t.lastIrrigationStart == Some(now) &&
      t.lastIrrigationDurationMin == Some(RecordedMinutes(hours, minutes, seconds)) &&
      t.currentIrrigationStart.None? && !t.pollingEnabled && t.operationState == Idle &&
      t.lastKnownStatus.value.raw == (if v.Confirmed? then v.status.raw else CarriedRaw(s.lastKnownStatus)) &&
      t.lastKnownStatus.value.batteryLevel ==
        (if v.Confirmed? then v.status.batteryLevel else CarriedBattery(s.lastKnownStatus))
  {
    var started := AfterOpen(s, hours, minutes, seconds, Device.Value(v), now);
    assert started.currentIrrigationStart == Some(now);
    assert started.currentIrrigationDuration == RecordedMinutes(hours, minutes, seconds);
  }

  // ---- the coordinator object ----

  class GalconCoordinator {
    const device: Device.GalconDevice
    const baseInterval: int
    var consecutiveFailures: nat
    var lastSuccessfulPoll: Option<int>
    var lastKnownStatus: Option<GalconStatus>
    var pollingEnabled: bool
    var updateInterval: int
    var durationMinutes: int
    var lastIrrigationStart: Option<int>
    var lastIrrigationDurationMin: Option<int>
    var currentIrrigationStart: Option<int>
    var currentIrrigationDuration: int
    var operationState: OperationState
    var listeners: seq<Listener>
    var notifications: seq<Notification>   // the listener calls made so far
    var data: Option<GalconStatus>          // what was last published to the entities

    function State(): CoordState
      reads this
    {
      CoordState(consecutiveFailures, lastSuccessfulPoll, lastKnownStatus, pollingEnabled, updateInterval,
                 durationMinutes, lastIrrigationStart, lastIrrigationDurationMin, currentIrrigationStart,
                 currentIrrigationDuration, operationState, listeners, notifications, data)
    }

    constructor (device: Device.GalconDevice, scanInterval: Option<int>)
      ensures this.device == device && baseInterval == BaseInterval(scanInterval)
      ensures State() == Initial(BaseInterval(scanInterval))
    {
      this.device := device;
      baseInterval := BaseInterval(scanInterval);
      consecutiveFailures, lastSuccessfulPoll, lastKnownStatus := 0, None, None;
      pollingEnabled := false;
      updateInterval := BaseInterval(scanInterval);
      durationMinutes := 20;
      lastIrrigationStart, lastIrrigationDurationMin := None, None;
      currentIrrigationStart, currentIrrigationDuration := None, 0;
      operationState, listeners, notifications, data := Idle, [], [], None;
    }

    /** `register_state_listener` */
    method RegisterStateListener(listener: Listener)
      modifies this
      ensures State() == old(State()).(listeners := old(listeners) + [listener])
    {
      listeners := listeners + [listener];
    }

    /** `_set_operation_state`: set the phase, then call every listener in order. */
    method SetOperationState(state: OperationState)
      modifies this
      ensures State() == Phase(old(State()), state)
    {
      operationState := state;
      var i := 0;
      while i < |listeners|
        modifies this`notifications
        invariant 0 <= i <= |listeners|
        invariant notifications == old(notifications) + Announce(listeners[..i], state)
      {
        assert Announce(listeners[..i + 1], state) == Announce(listeners[..i], state) + [Notification(listeners[i], state)];
        notifications := notifications + [Notification(listeners[i], state)];
        i := i + 1;
      }
      assert listeners[..i] == listeners;
    }

    /** `reachable` */
    function IsReachable(): (r: bool)
      reads this
      ensures r == Reachable(State())
    {
      consecutiveFailures < MAX_CONSECUTIVE_FAILURES
    }

    /** `set_polling` */
    method SetPolling(enabled: bool)
      modifies this
      ensures State() == AfterSetPolling(old(State()), enabled, baseInterval)
    {
      pollingEnabled := enabled;
      if enabled {
        consecutiveFailures := 0;
        updateInterval := baseInterval;
      } else {
        updateInterval := DISABLED_INTERVAL;
        SetOperationState(Idle);
      }
    }

    /**
     * `_async_update_data` at time `now`; `links` and `gatt` script the radio
     * for the device call. `fetched` is what that call returned, `None` when
     * polling is disabled and no call is made.
     */
    method AsyncUpdateData(now: int, links: seq<Device.LinkReply>, gatt: seq<Device.GattReply>)
      returns (r: PollResult, fetched: Option<Device.Outcome<GalconStatus>>)
      modifies this
      ensures fetched.Some? <==> old(pollingEnabled)
      ensures fetched.Some? && fetched.value.Value? ==> Device.ReadBack(gatt, fetched.value.value)
      ensures r == PollAnswer(old(State()), fetched)
      ensures State() == AfterPoll(old(State()), fetched, now)
    {
      if !pollingEnabled {
        fetched := None;
        if lastKnownStatus.Some? {
          return Polled(lastKnownStatus.value), fetched;
        }
        var synthetic := GalconStatus(false, false, 0, 0, 0, [], None);
        lastKnownStatus := Some(synthetic);
        return Polled(synthetic), fetched;
      }
      SetOperationState(Scanning);
      var outcome, trace := device.GetStatus(links, gatt);
      fetched := Some(outcome);
      match outcome
      case Value(status) =>
        consecutiveFailures := 0;
        lastSuccessfulPoll := Some(now);
        lastKnownStatus := Some(status);
        SetOperationState(Idle);
        r := Polled(status);
      case Failed(_) =>
        consecutiveFailures := consecutiveFailures + 1;
        SetOperationState(Idle);
        r := if lastKnownStatus.Some? then Polled(lastKnownStatus.value) else UpdateFailed;
    }

    /** `_record_irrigation_start` */
    method RecordIrrigationStart(now: int, minutes: int)
      modifies this
      ensures State() == AfterRecordStart(old(State()), now, minutes)
    {
      currentIrrigationStart := Some(now);
      currentIrrigationDuration := minutes;
    }

    /** `_record_irrigation_end` */
    method RecordIrrigationEnd()
      modifies this
      ensures State() == AfterRecordEnd(old(State()))
    {
      if currentIrrigationStart.Some? {
        lastIrrigationStart := currentIrrigationStart;
        lastIrrigationDurationMin := Some(currentIrrigationDuration);
        currentIrrigationStart := None;
      }
    }

    /**
     * `async_open_valve`: the device's open under Connecting, Opening, then
     * Confirmed or Error; `r` is the device's outcome, re-raised when it failed.
     */
    method AsyncOpenValve(hours: int, minutes: int, seconds: int, now: int,
                          links: seq<Device.LinkReply>, gatt: seq<Device.GattReply>)
      returns (r: Device.Outcome<Device.Verdict>)
      modifies this
      ensures r.Value? && r.value.Confirmed? ==> r.value.status.valveOpen && Device.ReadBack(gatt, r.value.status)
      ensures State() == AfterOpen(old(State()), hours, minutes, seconds, r, now)
    {
      SetOperationState(Connecting);
      SetOperationState(Opening);
      var trace;
      r, trace := device.OpenValve(hours, minutes, seconds, links, gatt);
      if r.Failed? {
        SetOperationState(Error);
        return;
      }
      SetOperationState(Confirmed);
      match r.value {
        case Confirmed(status) =>
          lastKnownStatus := Some(status);
        case Unconfirmed =>
          lastKnownStatus := Some(GalconStatus(true, true, hours, minutes, seconds,
            if lastKnownStatus.Some? then lastKnownStatus.value.raw else [],
            if lastKnownStatus.Some? then lastKnownStatus.value.batteryLevel else None));
      }
      RecordIrrigationStart(now, hours * 60 + minutes + (if seconds != 0 then 1 else 0));
      data := lastKnownStatus;
    }

    /**
     * `async_close_valve`: the device's close under Connecting, Closing, then
     * Confirmed or Error; `r` is the device's outcome, re-raised when it failed.
     */
    method AsyncCloseValve(links: seq<Device.LinkReply>, gatt: seq<Device.GattReply>)
      returns (r: Device.Outcome<Device.Verdict>)
      modifies this
      ensures r.Value? && r.value.Confirmed? ==> !r.value.status.valveOpen && Device.ReadBack(gatt, r.value.status)
      ensures State() == AfterClose(old(State()), r)
    {
      SetOperationState(Connecting);
      SetOperationState(Closing);
      var trace;
      r, trace := device.CloseValve(links, gatt);
      if r.Failed? {
        SetOperationState(Error);
        return;
      }
      SetOperationState(Confirmed);
      RecordIrrigationEnd();
      match r.value {
        case Confirmed(status) =>
          lastKnownStatus := Some(status);
        case Unconfirmed =>
          lastKnownStatus := Some(GalconStatus(false, false, 0, 0, 0,
            if lastKnownStatus.Some? then lastKnownStatus.value.raw else [],
            if lastKnownStatus.Some? then lastKnownStatus.value.batteryLevel else None));
      }
      data := lastKnownStatus;
    }

    /** `async_irrigation_ended`: the local countdown reached zero. */
    method AsyncIrrigationEnded()
      modifies this
      ensures State() == AfterIrrigationEnded(old(State()))
    {
      RecordIrrigationEnd();
      lastKnownStatus := Some(GalconStatus(false, false, 0, 0, 0,
        if lastKnownStatus.Some? then lastKnownStatus.value.raw else [],
        if lastKnownStatus.Some? then lastKnownStatus.value.batteryLevel else None));
      data := lastKnownStatus;
      SetPolling(false);
    }
  }
}
