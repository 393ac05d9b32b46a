/**
 * The valve entity of valve.py: the valve state and availability it derives
 * from the coordinator, its extra state attributes, and the open and close
 * actions, which split the configured duration into hours, minutes and
 * seconds and swallow connection errors.
 */
module Valve {
  import opened Consts
  import opened Options
  import opened Status
  import opened Text
  import opened Coordinator
  import Device

  // ---- the duration split ----

  /**
   * `divmod(duration * 60, 3600)` then `divmod(remainder, 60)`. Python's divmod
   * floors; for the positive divisors used here that is Dafny's `/` and `%`.
   */
  function SplitDuration(duration: int): (int, int, int)
  {
    var hours := (duration * 60) / 3600;
    var remainder := (duration * 60) % 3600;
    (hours, remainder / 60, remainder % 60)
  }

  lemma MinutesAsSeconds(duration: int)
    ensures (duration * 60) / 3600 == duration / 60
    ensures (duration * 60) % 3600 == (duration % 60) * 60
  {
    var q, r := duration / 60, duration % 60;
    assert duration * 60 == 3600 * q + r * 60;
    ModOfDecomposition(duration * 60, 3600, q, r * 60);
  }

  /**
   * The split loses nothing: it covers exactly `duration` minutes, with fewer
   * than 60 minutes and no seconds, and the minutes the coordinator records
   * for it are `duration` again.
   */
  lemma SplitDurationExact(duration: int)
    ensures var (h, m, s) := SplitDuration(duration);
      && h * 3600 + m * 60 + s == duration * 60
      && 0 <= m < 60 && s == 0
      && h == duration / 60
      && RecordedMinutes(h, m, s) == duration
  {
    MinutesAsSeconds(duration);
    var r := duration % 60;
    ModOfDecomposition(r * 60, 60, r, 0);
    ModOfDecomposition(duration, 60, duration / 60, r);
  }

  /**
   * Opening through the valve entity records an irrigation of exactly the
   * configured duration once the device answers.
   */
  lemma OpenRecordsConfiguredDuration(s: CoordState, v: Device.Verdict, now: int)
    ensures var (h, m, sec) := SplitDuration(s.durationMinutes);
      var t := AfterOpen(s, h, m, sec, Device.Value(v), now);
      t.currentIrrigationDuration == s.durationMinutes && t.currentIrrigationStart == Some(now)
  {
    SplitDurationExact(s.durationMinutes);
  }

  // ---- derived state ----

  /** `is_closed`: unknown without data, otherwise the opposite of the valve bit. */
  function IsClosed(data: Option<GalconStatus>): (closed: Option<bool>)
    ensures closed.None? <==> data.None?
    ensures data.Some? ==> (closed.value <==> !data.value.valveOpen)
  {
    match data
    case None => None
    case Some(status) => Some(!status.valveOpen)
  }

  /** `available`: the valve is offered only while polling is enabled. */
  function Available(s: CoordState): bool
  {
    s.pollingEnabled
  }

  /**
   * Availability follows `set_polling` alone: enabling or disabling polling sets
   * it, polls and commands leave it as it was, and countdown expiry turns it off.
   */
  lemma AvailabilityFollowsPolling(s: CoordState, enabled: bool, base: int,
                                   fetched: Option<Device.Outcome<GalconStatus>>, now: int,
                                   hours: int, minutes: int, seconds: int, r: Device.Outcome<Device.Verdict>)
    ensures Available(AfterSetPolling(s, enabled, base)) == enabled
    ensures Available(AfterPoll(s, fetched, now)) == Available(s)
    ensures Available(AfterOpen(s, hours, minutes, seconds, r, now)) == Available(s)
    ensures Available(AfterClose(s, r)) == Available(s)
    ensures !Available(AfterIrrigationEnded(s))
  {
  }

  /** The valve is reported closed after the countdown ends, and it is then unavailable. */
  lemma ClosedAfterIrrigationEnded(s: CoordState)
    ensures var t := AfterIrrigationEnded(s);
      IsClosed(t.data) == Some(true) && !Available(t)
  {
  }

  /** After a confirmed open the valve is reported open, and after a confirmed close closed. */
  lemma ConfirmedCommandsShow(s: CoordState, h: int, m: int, sec: int, open: GalconStatus, closed: GalconStatus,
                              now: int)
    requires open.valveOpen && !closed.valveOpen
    ensures IsClosed(AfterOpen(s, h, m, sec, Device.Value(Device.Confirmed(open)), now).data) == Some(false)
    ensures IsClosed(AfterOpen(s, h, m, sec, Device.Value(Device.Unconfirmed), now).data) == Some(false)
    ensures IsClosed(AfterClose(s, Device.Value(Device.Confirmed(closed))).data) == Some(true)
    ensures IsClosed(AfterClose(s, Device.Value(Device.Unconfirmed)).data) == Some(true)
  {
  }

  // ---- extra state attributes ----

  /** The status part of `extra_state_attributes`, present when there is data. */
  datatype StatusAttributes = StatusAttributes(
    manualOpen: bool,
    hoursRemaining: int,
    minutesRemaining: int,
    secondsRemaining: int,
    timeRemainingTotalSeconds: int,
    rawStatus: string)

  /** `extra_state_attributes`; `last_seen` is kept as the poll time in seconds. */
  datatype ValveAttributes = ValveAttributes(
    bluetoothAddress: string,
    consecutivePollFailures: nat,
    lastSeen: Option<int>,
    status: Option<StatusAttributes>)

  /** The attributes a status contributes; `raw_status` is `raw.hex()`. */
  function StatusAttributesOf(st: GalconStatus): (sa: StatusAttributes)
    ensures sa.manualOpen == st.manualOpen
    ensures sa.hoursRemaining * 3600 + sa.minutesRemaining * 60 + sa.secondsRemaining == sa.timeRemainingTotalSeconds
    ensures sa.timeRemainingTotalSeconds == st.TimeRemainingSeconds()
    ensures |sa.rawStatus| == 2 * |st.raw| && FromHex(sa.rawStatus) == st.raw
  {
    HexRoundTrip(st.raw);
    StatusAttributes(st.manualOpen, st.hoursRemaining, st.minutesRemaining, st.secondsRemaining,
                     st.TimeRemainingSeconds(), Hex(st.raw))
  }

  function Attributes(address: string, s: CoordState): (a: ValveAttributes)
    ensures a.bluetoothAddress == address && a.consecutivePollFailures == s.consecutiveFailures
    ensures a.lastSeen == s.lastSuccessfulPoll
    ensures a.status.Some? <==> s.data.Some?
    ensures s.data.Some? ==> a.status.value == StatusAttributesOf(s.data.value)
  {
    var status := if s.data.Some? then Some(StatusAttributesOf(s.data.value)) else None;
    ValveAttributes(address, s.consecutiveFailures, s.lastSuccessfulPoll, status)
  }

  /** The raw status attribute is lower-case hex, two characters per byte. */
  lemma RawStatusIsLowerHex(address: string, s: CoordState)
    requires s.data.Some?
    ensures var raw := Attributes(address, s).status.value.rawStatus;
      forall i :: 0 <= i < |raw| ==> IsLowerHex(raw[i])
  {
  }

  // ---- actions ----

  /** What `async_open_valve`/`async_close_valve` let escape: everything but a connection error. */
  function Escaped<T>(r: Device.Outcome<T>): (e: Option<Device.Error>)
    ensures e.Some? <==> r.Failed? && !r.error.ConnectionError?
    ensures e.Some? ==> e.value == Device.Unexpected
  {
    match r
    case Failed(Unexpected) => Some(Device.Unexpected)
    case _ => None
  }

  /** `GalconValve` */
  class GalconValve {
    const coordinator: GalconCoordinator
    const address: string

    constructor (coordinator: GalconCoordinator, address: string)
      ensures this.coordinator == coordinator && this.address == address
    {
      this.coordinator := coordinator;
      this.address := address;
    }

    /**
     * `async_open_valve`: opens for the coordinator's configured duration,
     * split into h/m/s; a connection error is logged and swallowed, anything
     * else propagates as `raised`.
     */
    method AsyncOpenValve(now: int, links: seq<Device.LinkReply>, gatt: seq<Device.GattReply>)
      returns (outcome: Device.Outcome<Device.Verdict>, raised: Option<Device.Error>)
      modifies coordinator
      ensures var (h, m, s) := SplitDuration(old(coordinator.durationMinutes));
        coordinator.State() == AfterOpen(old(coordinator.State()), h, m, s, outcome, now)
      ensures raised == Escaped(outcome)
    {
      var (hours, minutes, seconds) := SplitDuration(coordinator.durationMinutes);
      outcome := coordinator.AsyncOpenValve(hours, minutes, seconds, now, links, gatt);
      raised := Escaped(outcome);
    }

    /** `async_close_valve`: a connection error is logged and swallowed, anything else propagates. */
    method AsyncCloseValve(links: seq<Device.LinkReply>, gatt: seq<Device.GattReply>)
      returns (outcome: Device.Outcome<Device.Verdict>, raised: Option<Device.Error>)
      modifies coordinator
      ensures coordinator.State() == AfterClose(old(coordinator.State()), outcome)
      ensures raised == Escaped(outcome)
    {
      outcome := coordinator.AsyncCloseValve(links, gatt);
      raised := Escaped(outcome);
    }
  }
}
