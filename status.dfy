/**
 * The status codec and the control payloads of galcon_device.py:
 * `GalconStatus`, its `time_remaining_seconds`, `_parse_status` and the
 * payload selection of `open_valve`.
 */
module Status {
  import opened Consts
  import opened Options

  /** A parsed (or coordinator-synthesised) status of the controller. */
  datatype GalconStatus = GalconStatus(
    valveOpen: bool,
    manualOpen: bool,
    hoursRemaining: int,
    minutesRemaining: int,
    secondsRemaining: int,
    raw: Bytes,
    batteryLevel: Option<int>)
  {
    /** `time_remaining_seconds` */
    function TimeRemainingSeconds(): int
    {
      hoursRemaining * 3600 + minutesRemaining * 60 + secondsRemaining
    }
  }

  /** A closed valve with nothing left to run: what a short read decodes to and what the coordinator synthesises. */
  function ClosedStatus(raw: Bytes, battery: Option<int>): GalconStatus
  {
    GalconStatus(false, false, 0, 0, 0, raw, battery)
  }

  // ---- Python's `&` with a non-negative mask ----

  function Pow2(k: nat): (r: nat)
    ensures r >= 1
  {
    if k == 0 then 1 else 2 * Pow2(k - 1)
  }

  /**
   * `a & mask` as Python computes it for a non-negative `mask`: bit by bit, lowest
   * bit first, with `a` in two's complement (floor division by 2 drops its lowest bit,
   * also when `a` is negative).
   */
  function BitAnd(a: int, mask: nat): nat
    decreases mask
  {
    if mask == 0 then 0 else 2 * BitAnd(a / 2, mask / 2) + (a % 2) * (mask % 2)
  }

  lemma MulAtLeast(d: nat, n: int)
    requires n >= 1
    ensures d * n >= d
  {
  }

  /** Quotient and remainder are the only ones with `a == d * q + r` and `0 <= r < d`. */
  lemma ModOfDecomposition(a: int, d: nat, q: int, r: int)
    requires d > 0 && 0 <= r < d && a == d * q + r
    ensures a % d == r && a / d == q
  {
    var q', r' := a / d, a % d;
    assert d * (q - q') == r' - r;
    if q > q' {
      MulAtLeast(d, q - q');
    } else if q < q' {
      MulAtLeast(d, q' - q);
    }
  }

  lemma Euclid(h: int, p: int)
    requires p > 0
    ensures h == p * (h / p) + h % p
  {
  }

  lemma Regroup(p: int, t: int, u: int, b: int)
    ensures 2 * (p * t + u) + b == (2 * p) * t + (2 * u + b)
  {
  }

  /** Masking with 2^k - 1 keeps the k low bits: the floor remainder modulo 2^k. */
  lemma {:induction false} BitAndLowBits(a: int, k: nat)
    ensures BitAnd(a, Pow2(k) - 1) == a % Pow2(k)
    decreases k
  {
    if k > 0 {
      var p := Pow2(k - 1);
      var m := Pow2(k) - 1;
      assert m == 2 * (p - 1) + 1;
      assert m / 2 == p - 1 && m % 2 == 1;
      var h, b := a / 2, a % 2;
      assert a == 2 * h + b;
      BitAndLowBits(h, k - 1);
      var u, t := h % p, h / p;
      assert BitAnd(a, m) == 2 * u + b;
      Euclid(h, p);
      Regroup(p, t, u, b);
      ModOfDecomposition(a, 2 * p, t, 2 * u + b);
    }
  }

  /** `x & 0xFF`: the low byte of `x`. */
  function LowByte(x: int): (b: Byte)
    ensures b == x % 256
  {
    assert Pow2(8) - 1 == 0xFF by {
      assert Pow2(2) == 4;
      assert Pow2(4) == 16;
      assert Pow2(6) == 64;
    }
    BitAndLowBits(x, 8);
    BitAnd(x, 0xFF)
  }

  /** `bool(b & 0x01)`: the lowest bit of a byte. */
  function LowBit(b: Byte): (set_: bool)
    ensures set_ <==> b % 2 == 1
  {
    assert Pow2(1) - 1 == 0x01;
    BitAndLowBits(b, 1);
    BitAnd(b, STATUS_VALVE_OPEN_MASK) != 0
  }

  // ---- decoding ----

  /**
   * `_parse_status`. Total: a buffer shorter than five bytes degrades to a
   * closed, zeroed status; otherwise byte 0 bit 0 is the valve, byte 1 bit 0 the
   * manual flag, bytes 2..4 the remaining h/m/s and byte 5, when present, the
   * battery level. The input is always kept as `raw`.
   */
  function ParseStatus(data: Bytes): (st: GalconStatus)
    ensures st.raw == data
    ensures |data| < 5 ==> st == ClosedStatus(data, None)
    ensures |data| >= 5 ==>
      && (st.valveOpen <==> data[0] % 2 == 1)
      && (st.manualOpen <==> data[1] % 2 == 1)
      && st.hoursRemaining == data[2]
      && st.minutesRemaining == data[3]
      && st.secondsRemaining == data[4]
      && st.batteryLevel == (if |data| >= 6 then Some(data[5]) else None)
  {
    if |data| < 5 then
      GalconStatus(false, false, 0, 0, 0, data, None)
    else
      var valveOpen := LowBit(data[0]);
      var manualOpen := if |data| > 1 then BitAnd(data[1], STATUS_MANUAL_OPEN_MASK) != 0 else false;
      var hours: int := if |data| > 2 then data[2] else 0;
      var minutes: int := if |data| > 3 then data[3] else 0;
      var seconds: int := if |data| > 4 then data[4] else 0;
      var battery := if |data| > 5 then Some(data[5] as int) else None;
      assert manualOpen == LowBit(data[1]);
      GalconStatus(valveOpen, manualOpen, hours, minutes, seconds, data, battery)
  }

  /**
   * The status buffer as the controller lays it out on the wire:
   * [valve bit, manual bit, hours, minutes, seconds, battery?, reserved...].
   */
  function WireStatus(valveOpen: bool, manualOpen: bool, hours: Byte, minutes: Byte, seconds: Byte,
                      tail: Bytes): Bytes
  {
    [if valveOpen then 1 else 0, if manualOpen then 1 else 0, hours, minutes, seconds] + tail
  }

  /** Decoding a well-formed buffer gives back every field that was laid out in it. */
  lemma DecodeWireStatus(valveOpen: bool, manualOpen: bool, hours: Byte, minutes: Byte, seconds: Byte,
                         tail: Bytes)
    ensures var st := ParseStatus(WireStatus(valveOpen, manualOpen, hours, minutes, seconds, tail));
      && st.valveOpen == valveOpen && st.manualOpen == manualOpen
      && st.hoursRemaining == hours && st.minutesRemaining == minutes && st.secondsRemaining == seconds
      && st.batteryLevel == (if tail == [] then None else Some(tail[0] as int))
      && st.TimeRemainingSeconds() == hours * 3600 + minutes * 60 + seconds
  {
    var w := WireStatus(valveOpen, manualOpen, hours, minutes, seconds, tail);
    assert |w| >= 5 && w[2] == hours && w[3] == minutes && w[4] == seconds;
    assert tail != [] ==> w[5] == tail[0];
  }

  /**
   * A decoded status never reports negative time and reports none at all exactly
   * when the three counters are zero, so "time remaining > 0" means some counter is set.
   */
  lemma ParsedTimeRemaining(data: Bytes)
    ensures var st := ParseStatus(data);
      && 0 <= st.TimeRemainingSeconds() <= 255 * 3600 + 255 * 60 + 255
      && (st.TimeRemainingSeconds() == 0 <==>
            st.hoursRemaining == 0 && st.minutesRemaining == 0 && st.secondsRemaining == 0)
  {
  }

  // ---- control payloads ----

  /**
   * The control payload `open_valve` sends: the fixed open command for an
   * all-zero duration, otherwise the timed-open command carrying each field's
   * low byte.
   */
  function OpenPayload(hours: int, minutes: int, seconds: int): (p: Bytes)
    ensures |p| == 7
    ensures hours == 0 && minutes == 0 && seconds == 0 ==> p == CMD_OPEN_VALVE
    ensures !(hours == 0 && minutes == 0 && seconds == 0) ==>
      p == [0x00, 0x03, 0x00, hours % 256, minutes % 256, seconds % 256, 0x00]
  {
    if hours == 0 && minutes == 0 && seconds == 0 then
      CMD_OPEN_VALVE
    else
      [0x00, 0x03, 0x00, LowByte(hours), LowByte(minutes), LowByte(seconds), 0x00]
  }

  /** The open, timed-open and close commands are told apart by their first two bytes. */
  lemma PayloadsDistinct(hours: int, minutes: int, seconds: int)
    ensures OpenPayload(hours, minutes, seconds) != CMD_CLOSE_VALVE
    ensures OpenPayload(hours, minutes, seconds) == CMD_OPEN_VALVE
        <==> hours == 0 && minutes == 0 && seconds == 0
  {
    var p := OpenPayload(hours, minutes, seconds);
    assert p[0] == 0 && CMD_CLOSE_VALVE[0] == 1;
    if !(hours == 0 && minutes == 0 && seconds == 0) {
      assert p[1] == 3 && CMD_OPEN_VALVE[1] == 1;
    }
  }
}
