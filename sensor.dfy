/**
 * The sensors of sensor.py: the operation-phase sensor and its icon table, the
 * time-remaining sensor with its local one-second countdown and clock-style
 * formatting, and the battery sensor with its cache. Time is whole seconds,
 * passed in by the caller.
 */
module Sensor {
  import opened Options
  import opened Status
  import opened Text
  import opened Coordinator

  // ---- the operation sensor ----

  const DEFAULT_ICON: string := "mdi:help-circle-outline"

  /** `STATE_ICONS` */
  const STATE_ICONS: map<OperationState, string> := map[
    Idle := "mdi:sleep",
    Connecting := "mdi:bluetooth-connect",
    Opening := "mdi:valve-open",
    Closing := "mdi:valve-closed",
    Verifying := "mdi:check-circle-outline",
    Confirmed := "mdi:check-bold",
    Error := "mdi:alert-circle",
    Scanning := "mdi:bluetooth-audio"]

  /** `STATE_ICONS.get(state, DEFAULT_ICON)` */
  function Icon(state: OperationState): string
  {
    if state in STATE_ICONS then STATE_ICONS[state] else DEFAULT_ICON
  }

  /** Every phase has its own icon, so the fallback is never shown. */
  lemma IconsComplete(a: OperationState, b: OperationState)
    ensures a in STATE_ICONS && Icon(a) == STATE_ICONS[a] && Icon(a) != DEFAULT_ICON
    ensures Icon(a) == Icon(b) <==> a == b
  {
  }

  class OperationSensor {
    const coordinator: GalconCoordinator

    constructor (coordinator: GalconCoordinator)
      ensures this.coordinator == coordinator
    {
      this.coordinator := coordinator;
    }

    /** `native_value`: the phase's display string. */
    function NativeValue(): (v: string)
      reads coordinator
      ensures FromLabel(v) == Some(coordinator.operationState)
    {
      LabelRoundTrip(coordinator.operationState);
      coordinator.operationState.Label()
    }

    /** `icon` */
    function CurrentIcon(): (icon: string)
      reads coordinator
      ensures coordinator.operationState in STATE_ICONS
      ensures icon == STATE_ICONS[coordinator.operationState] && icon != DEFAULT_ICON
    {
      IconsComplete(coordinator.operationState, coordinator.operationState);
      Icon(coordinator.operationState)
    }

    /** `async_added_to_hass`: register this sensor (as `me`) for phase changes. */
    method AsyncAddedToHass(me: Listener)
      modifies coordinator
      ensures coordinator.State() == old(coordinator.State()).(listeners := old(coordinator.listeners) + [me])
    {
      coordinator.RegisterStateListener(me);
    }
  }

  // ---- clock formatting ----

  /** `divmod(t, 3600)`, then `divmod(remainder, 60)`. */
  function Clock(t: nat): (hms: (nat, nat, nat))
  {
    (t / 3600, (t % 3600) / 60, (t % 3600) % 60)
  }

  lemma ClockParts(t: nat)
    ensures var (h, m, s) := Clock(t); h * 3600 + m * 60 + s == t && m < 60 && s < 60
  {
  }

  /** `_format_time`: "00:00" for nothing left, else "h:MM:SS" or "m:SS". */
  function FormatTime(total: int): string
  {
    if total <= 0 then "00:00"
    else
      var (h, m, s) := Clock(total);
      if h > 0 then Decimal(h) + ":" + Pad2(m) + ":" + Pad2(s) else Decimal(m) + ":" + Pad2(s)
  }

  /** The position of the first ':' in `s`. */
  function FirstColon(s: string): (i: nat)
    requires ':' in s
    ensures i < |s| && s[i] == ':' && ':' !in s[..i]
  {
    if s[0] == ':' then 0
    else
      var j := FirstColon(s[1..]);
      assert s[..j + 1] == [s[0]] + s[1..][..j];
      j + 1
  }

  /** `s.split(":")` */
  function Fields(s: string): (fs: seq<string>)
    ensures |fs| >= 1
    decreases |s|
  {
    if ':' !in s then [s]
    else
      var i := FirstColon(s);
      [s[..i]] + Fields(s[i + 1..])
  }

  lemma {:induction false} FirstColonAfter(a: string, b: string)
    requires ':' !in a
    ensures FirstColon(a + ":" + b) == |a|
    decreases |a|
  {
    if a != [] {
      assert (a + ":" + b)[1..] == a[1..] + ":" + b;
      FirstColonAfter(a[1..], b);
    }
  }

  lemma FieldsJoin(a: string, b: string)
    requires ':' !in a
    ensures Fields(a + ":" + b) == [a] + Fields(b)
  {
    var s := a + ":" + b;
    FirstColonAfter(a, b);
    assert s[..|a|] == a;
    assert s[|a| + 1..] == b;
  }

  /** The fields of clock strings built from digit runs. */
  lemma ClockFields(hs: string, ms: string, ss: string)
    requires AllDigits(hs) && AllDigits(ms) && AllDigits(ss)
    ensures Fields(hs + ":" + ms + ":" + ss) == [hs, ms, ss]
    ensures Fields(ms + ":" + ss) == [ms, ss]
  {
    DigitsNoColon(hs);
    DigitsNoColon(ms);
    DigitsNoColon(ss);
    assert Fields(ss) == [ss];
    FieldsJoin(ms, ss);
    assert hs + ":" + ms + ":" + ss == hs + ":" + (ms + ":" + ss);
    FieldsJoin(hs, ms + ":" + ss);
  }

  lemma DigitsNoColon(s: string)
    requires AllDigits(s)
    ensures ':' !in s
  {
  }

  /** Reads a clock string back into seconds: "h:MM:SS" or "m:SS". */
  function ReadClock(text: string): int
  {
    var fs := Fields(text);
    if |fs| == 3 then DecimalValue(fs[0]) * 3600 + DecimalValue(fs[1]) * 60 + DecimalValue(fs[2])
    else if |fs| == 2 then DecimalValue(fs[0]) * 60 + DecimalValue(fs[1])
    else DecimalValue(fs[0])
  }

  lemma FormatZero(t: int)
    requires t <= 0
    ensures FormatTime(t) == "00:00" && Fields(FormatTime(t)) == ["00", "00"] && ReadClock(FormatTime(t)) == 0
  {
    assert "00:00" == "00" + ":" + "00";
    ClockFields("00", "00", "00");
    assert "00"[..1] == "0" && "0"[..0] == "";
  }

  lemma FormatWithHours(t: int)
    requires t >= 3600
    ensures var (h, m, s) := Clock(t);
      Fields(FormatTime(t)) == [Decimal(h), Pad2(m), Pad2(s)] && ReadClock(FormatTime(t)) == t &&
      |Pad2(m)| == 2 && |Pad2(s)| == 2
  {
    var (h, m, s) := Clock(t);
    ClockParts(t);
    Pad2RoundTrip(m);
    Pad2RoundTrip(s);
    DecimalRoundTrip(h);
    ClockFields(Decimal(h), Pad2(m), Pad2(s));
  }

  lemma FormatWithoutHours(t: int)
    requires 0 < t < 3600
    ensures var (h, m, s) := Clock(t);
      Fields(FormatTime(t)) == [Decimal(m), Pad2(s)] && ReadClock(FormatTime(t)) == t && |Pad2(s)| == 2
  {
    var (h, m, s) := Clock(t);
    ClockParts(t);
    Pad2RoundTrip(s);
    DecimalRoundTrip(m);
    ClockFields(Pad2(m), Decimal(m), Pad2(s));
  }

  /**
   * `_format_time` loses nothing: reading its clock back gives the seconds it
   * was given, 0 for anything not positive. The minutes and seconds fields are
   * two digits wide, and the hours field is present exactly when there is at
   * least one hour.
   */
  lemma FormatTimeRoundTrip(t: int)
    ensures ReadClock(FormatTime(t)) == if t <= 0 then 0 else t
    ensures t <= 0 ==> FormatTime(t) == "00:00"
    ensures var fs := Fields(FormatTime(t));
      (|fs| == 3 <==> t >= 3600) && (|fs| == 3 || |fs| == 2) &&
      |fs[|fs| - 1]| == 2 && (|fs| == 3 ==> |fs[1]| == 2)
  {
    if t <= 0 {
      FormatZero(t);
    } else if t >= 3600 {
      FormatWithHours(t);
    } else {
      FormatWithoutHours(t);
    }
  }

  /** The clock shows "00:00" exactly when no time is left. */
  lemma FormatTimeZeroOnlyAtZero(t: int)
    ensures FormatTime(t) == "00:00" <==> t <= 0
  {
    FormatZero(0);
    if t > 0 {
      FormatTimeRoundTrip(t);
    }
  }

  // ---- the time-remaining sensor ----

  /** `_remaining_seconds`: whole seconds until `endTime`, never negative; 0 without an end time. */
  function RemainingSeconds(endTime: Option<int>, now: int): (r: nat)
    ensures endTime.None? ==> r == 0
    ensures endTime.Some? ==> (r == 0 <==> now >= endTime.value) && (r > 0 ==> now + r == endTime.value)
  {
    match endTime
    case None => 0
    case Some(e) => if e - now > 0 then e - now else 0
  }

  /**
   * The countdown: an end time set `trs` seconds ahead shows exactly `trs`,
   * then never goes up as time passes, and reaches 0 at the end time.
   */
  lemma CountdownMonotone(endTime: Option<int>, now: int, later: int, trs: int)
    requires now <= later
    ensures RemainingSeconds(endTime, later) <= RemainingSeconds(endTime, now)
    ensures trs > 0 ==> RemainingSeconds(Some(now + trs), now) == trs
    ensures endTime.Some? && later >= endTime.value ==> RemainingSeconds(endTime, later) == 0
    ensures endTime.None? ==> RemainingSeconds(endTime, now) == 0
  {
  }

  class TimeRemainingSensor {
    const coordinator: GalconCoordinator
    var endTime: Option<int>
    var unsubTimer: Option<nat>   // the running one-second tick, by number
    var timersStarted: nat
    var timersCancelled: nat

    /** At most one tick timer runs, and it is the one `unsubTimer` holds. */
    predicate Valid()
      reads this
    {
      match unsubTimer
      case None => timersCancelled == timersStarted
      case Some(id) => timersStarted == timersCancelled + 1 && id == timersCancelled
    }

    constructor (coordinator: GalconCoordinator)
      ensures Valid() && this.coordinator == coordinator
      ensures endTime == None && unsubTimer == None && timersStarted == 0
    {
      this.coordinator := coordinator;
      endTime, unsubTimer := None, None;
      timersStarted, timersCancelled := 0, 0;
    }

    /**
     * `native_value` at time `now`: the countdown as a clock, which shows
     * "00:00" exactly when nothing is left and reads back as the seconds left.
     */
    function NativeValue(now: int): (v: string)
      reads this
      ensures v == "00:00" <==> RemainingSeconds(endTime, now) == 0
      ensures ReadClock(v) == RemainingSeconds(endTime, now)
      ensures endTime.None? ==> v == "00:00"
    {
      var left := RemainingSeconds(endTime, now);
      FormatTimeRoundTrip(left);
      FormatTimeZeroOnlyAtZero(left);
      FormatTime(left)
    }

    /** `icon` at time `now` */
    function CurrentIcon(now: int): (icon: string)
      reads this
      ensures icon == "mdi:timer-sand" <==> NativeValue(now) != "00:00"
    {
      var left := RemainingSeconds(endTime, now);
      FormatTimeZeroOnlyAtZero(left);
      if left > 0 then "mdi:timer-sand" else "mdi:timer-outline"
    }

    /** `_ensure_timer`: start the tick only when none runs. */
    method EnsureTimer()
      requires Valid()
      modifies this
      ensures Valid() && unsubTimer.Some? && endTime == old(endTime)
      ensures old(unsubTimer).Some? ==> unsubTimer == old(unsubTimer) && timersStarted == old(timersStarted)
      ensures old(unsubTimer).None? ==> timersStarted == old(timersStarted) + 1
      ensures timersCancelled == old(timersCancelled)
    {
      if unsubTimer.None? {
        unsubTimer := Some(timersStarted);
        timersStarted := timersStarted + 1;
      }
    }

    /** `_cancel_timer`: stop the tick if one runs; a second call does nothing. */
    method CancelTimer()
      requires Valid()
      modifies this
      ensures Valid() && unsubTimer.None? && endTime == old(endTime) && timersStarted == old(timersStarted)
      ensures timersCancelled == old(timersCancelled) + (if old(unsubTimer).Some? then 1 else 0)
    {
      if unsubTimer.Some? {
        timersCancelled := timersCancelled + 1;
        unsubTimer := None;
      }
    }

    /**
     * `_handle_coordinator_update` at time `now`: an open valve with time left
     * (re)starts the countdown from the device's time, a closed valve stops it,
     * anything else leaves it alone.
     */
    method HandleCoordinatorUpdate(now: int)
      requires Valid()
      modifies this
      ensures Valid()
      ensures var st := coordinator.data;
        if st.Some? && st.value.valveOpen && st.value.TimeRemainingSeconds() > 0 then
          endTime == Some(now + st.value.TimeRemainingSeconds()) && unsubTimer.Some? &&
          RemainingSeconds(endTime, now) == st.value.TimeRemainingSeconds() &&
          (old(unsubTimer).Some? ==> unsubTimer == old(unsubTimer))
        else if st.Some? && !st.value.valveOpen then
          endTime == None && unsubTimer == None && NativeValue(now) == "00:00"
        else
          endTime == old(endTime) && unsubTimer == old(unsubTimer) && timersStarted == old(timersStarted)
    {
      var status := coordinator.data;
      if status.Some? && status.value.valveOpen && status.value.TimeRemainingSeconds() > 0 {
        endTime := Some(now + status.value.TimeRemainingSeconds());
        EnsureTimer();
      } else if status.Some? && !status.value.valveOpen {
        endTime := None;
        CancelTimer();
      }
      FormatTimeRoundTrip(0);
    }

    /**
     * `_tick` at time `now`: once nothing is left, stop the countdown and tell
     * the coordinator the irrigation ended; otherwise change nothing.
     */
    method Tick(now: int)
      requires Valid()
      modifies this, coordinator
      ensures Valid()
      ensures old(RemainingSeconds(endTime, now)) == 0 ==>
        endTime == None && unsubTimer == None &&
        coordinator.State() == AfterIrrigationEnded(old(coordinator.State()))
      ensures old(RemainingSeconds(endTime, now)) > 0 ==>
        unchanged(this) && coordinator.State() == old(coordinator.State())
    {
      if RemainingSeconds(endTime, now) <= 0 {
        endTime := None;
        CancelTimer();
        coordinator.AsyncIrrigationEnded();
      }
    }
  }

  // ---- the battery sensor ----

  /** What the battery cache holds after one coordinator update. */
  function BatteryAfter(cached: Option<int>, data: Option<GalconStatus>): Option<int>
  {
    if data.Some? && data.value.batteryLevel.Some? then data.value.batteryLevel else cached
  }

  /** The cache after a run of coordinator updates, oldest first. */
  function BatteryAfterAll(cached: Option<int>, updates: seq<Option<GalconStatus>>): Option<int>
  {
    if updates == [] then cached
    else BatteryAfter(BatteryAfterAll(cached, updates[..|updates| - 1]), updates[|updates| - 1])
  }

  /** The battery level of the most recent update that had one. */
  function LatestBattery(updates: seq<Option<GalconStatus>>): Option<int>
  {
    if updates == [] then None
    else
      var last := updates[|updates| - 1];
      if last.Some? && last.value.batteryLevel.Some? then last.value.batteryLevel
      else LatestBattery(updates[..|updates| - 1])
  }

  /**
   * The cache shows the latest reported battery level, or what it held before
   * when no update reported one: updates without a level never clear it.
   */
  lemma {:induction false} BatteryIsLatest(cached: Option<int>, updates: seq<Option<GalconStatus>>)
    ensures BatteryAfterAll(cached, updates) == if LatestBattery(updates).Some? then LatestBattery(updates) else cached
    ensures cached.Some? ==> BatteryAfterAll(cached, updates).Some?
    decreases |updates|
  {
    if updates != [] {
      BatteryIsLatest(cached, updates[..|updates| - 1]);
    }
  }

  /** Some update in the run reported a battery level. */
  predicate AnyBattery(updates: seq<Option<GalconStatus>>)
  {
    exists i :: 0 <= i < |updates| && updates[i].Some? && updates[i].value.batteryLevel.Some?
  }

  lemma {:induction false} LatestBatteryFound(updates: seq<Option<GalconStatus>>)
    ensures LatestBattery(updates).Some? <==> AnyBattery(updates)
    decreases |updates|
  {
    if updates != [] {
      var init := updates[..|updates| - 1];
      LatestBatteryFound(init);
      if AnyBattery(init) {
        var i :| 0 <= i < |init| && init[i].Some? && init[i].value.batteryLevel.Some?;
        assert updates[i] == init[i];
      }
      if AnyBattery(updates) {
        var i :| 0 <= i < |updates| && updates[i].Some? && updates[i].value.batteryLevel.Some?;
        if i < |init| {
          assert init[i] == updates[i];
        }
      }
    }
  }

  /**
   * A battery sensor that starts with nothing cached becomes available exactly
   * once some update has reported a level, and then shows the latest one.
   */
  lemma BatteryAvailableAfterUpdates(updates: seq<Option<GalconStatus>>)
    ensures BatteryAfterAll(None, updates).Some? <==> AnyBattery(updates)
    ensures BatteryAfterAll(None, updates) == LatestBattery(updates)
  {
    BatteryIsLatest(None, updates);
    LatestBatteryFound(updates);
  }

  class BatterySensor {
    const coordinator: GalconCoordinator
    var cachedBattery: Option<int>

    constructor (coordinator: GalconCoordinator)
      ensures this.coordinator == coordinator && cachedBattery == None
    {
      this.coordinator := coordinator;
      cachedBattery := None;
    }

    /** `_handle_coordinator_update`: keep a reported battery level, ignore a missing one. */
    method HandleCoordinatorUpdate()
      modifies this
      ensures cachedBattery == BatteryAfter(old(cachedBattery), coordinator.data)
    {
      var status := coordinator.data;
      if status.Some? && status.value.batteryLevel.Some? {
        cachedBattery := status.value.batteryLevel;
      }
    }

    /** `native_value` */
    function NativeValue(): Option<int>
      reads this
    {
      cachedBattery
    }

    /** `available`: once a level has been seen. */
    function Available(): (r: bool)
      reads this
      ensures r <==> NativeValue().Some?
    {
      cachedBattery.Some?
    }
  }
}
