/**
 * The BLE driver of galcon_device.py: the retry executor `_execute`, the
 * verified-command protocol `_verified_command`, and `get_status`,
 * `open_valve` and `close_valve` built on them.
 *
 * The radio is an oracle. `links` holds its answer to each connection attempt
 * in turn; `gatt` holds its answer to each GATT write or read in turn, consumed
 * in order across attempts (past its end every step times out). Each operation
 * returns, besides its result, the trace of what it did to the radio: connection
 * attempts, control writes and disconnects are counted on it, backoffs collected,
 * and the prelude and each verify round are stated as their exact trace.
 */
module Device {
  import opened Consts
  import opened Options
  import opened Status

  /** How an I/O step failed: BleakError, TimeoutError or OSError (retried), or anything else. */
  datatype Fault = Transient | Fatal

  /** The radio's answer to one connection attempt; `live` is the client's `is_connected`. */
  datatype LinkReply = Linked(live: bool) | LinkFailed(fault: Fault)

  /** The radio's answer to one GATT write or read; for a read, the bytes read. */
  datatype GattReply = GattOk(data: Bytes) | GattFailed(fault: Fault)

  function LinkAt(links: seq<LinkReply>, i: nat): LinkReply
  {
    if i < |links| then links[i] else LinkFailed(Transient)
  }

  function GattAt(gatt: seq<GattReply>, i: nat): GattReply
  {
    if i < |gatt| then gatt[i] else GattFailed(Transient)
  }

  /** What an operation does to the radio, in order. */
  datatype Event =
    | Connect(viaHint: bool, linked: bool)   // a connection attempt; `linked`: a client came back
    | Disconnect                             // `client.disconnect()`
    | WakeWrite(bytes: Bytes)                // a write to the wake characteristic
    | StatusRead                             // a read of the status characteristic
    | ControlWrite(payload: Bytes)           // a command to the control characteristic
    | Sleep(ms: nat)                         // a delay inside an operation
    | Backoff(ms: nat)                       // a delay between connection attempts

  /** The kinds of event that are counted; a GATT step is a wake write, a status read or a control write. */
  datatype Kind = KConnect | KLinked | KDisconnect | KGatt | KWrite

  predicate Is(e: Event, k: Kind)
  {
    match k
    case KConnect => e.Connect?
    case KLinked => e.Connect? && e.linked
    case KDisconnect => e.Disconnect?
    case KGatt => e.WakeWrite? || e.StatusRead? || e.ControlWrite?
    case KWrite => e.ControlWrite?
  }

  /** How many events of kind `k` the trace holds. */
  function CountOf(t: seq<Event>, k: Kind): nat
  {
    if t == [] then 0 else CountOf(t[..|t| - 1], k) + (if Is(t[|t| - 1], k) then 1 else 0)
  }

  lemma {:induction false} CountOfAppend(a: seq<Event>, b: seq<Event>, k: Kind)
    ensures CountOf(a + b, k) == CountOf(a, k) + CountOf(b, k)
    decreases |b|
  {
    if b == [] {
      assert a + b == a;
    } else {
      assert (a + b)[..|a + b| - 1] == a + b[..|b| - 1];
      CountOfAppend(a, b[..|b| - 1], k);
    }
  }

  /** The durations of the backoff sleeps, in order. */
  function Backoffs(t: seq<Event>): seq<nat>
  {
    if t == [] then []
    else Backoffs(t[..|t| - 1]) + (if t[|t| - 1].Backoff? then [t[|t| - 1].ms] else [])
  }

  lemma {:induction false} BackoffsAppend(a: seq<Event>, b: seq<Event>)
    ensures Backoffs(a + b) == Backoffs(a) + Backoffs(b)
    decreases |b|
  {
    if b == [] {
      assert a + b == a;
    } else {
      assert (a + b)[..|a + b| - 1] == a + b[..|b| - 1];
      BackoffsAppend(a, b[..|b| - 1]);
    }
  }

  /** Counting over a concatenation adds up the parts. */
  lemma Concat(a: seq<Event>, b: seq<Event>)
    ensures CountOf(a + b, KConnect) == CountOf(a, KConnect) + CountOf(b, KConnect)
    ensures CountOf(a + b, KLinked) == CountOf(a, KLinked) + CountOf(b, KLinked)
    ensures CountOf(a + b, KDisconnect) == CountOf(a, KDisconnect) + CountOf(b, KDisconnect)
    ensures CountOf(a + b, KGatt) == CountOf(a, KGatt) + CountOf(b, KGatt)
    ensures CountOf(a + b, KWrite) == CountOf(a, KWrite) + CountOf(b, KWrite)
    ensures Backoffs(a + b) == Backoffs(a) + Backoffs(b)
    ensures OnConnection(a) && OnConnection(b) ==> OnConnection(a + b)
  {
    CountOfAppend(a, b, KConnect);
    CountOfAppend(a, b, KLinked);
    CountOfAppend(a, b, KDisconnect);
    CountOfAppend(a, b, KGatt);
    CountOfAppend(a, b, KWrite);
    BackoffsAppend(a, b);
  }

  /** Appending work on the connection that writes only `payload` keeps both properties and adds up the steps. */
  lemma ConcatOnConnection(a: seq<Event>, b: seq<Event>, payload: Bytes)
    requires OnConnection(a) && OnConnection(b) && WritesOnly(a, payload) && WritesOnly(b, payload)
    ensures OnConnection(a + b) && WritesOnly(a + b, payload)
    ensures CountOf(a + b, KGatt) == CountOf(a, KGatt) + CountOf(b, KGatt)
    ensures CountOf(a + b, KWrite) == CountOf(a, KWrite) + CountOf(b, KWrite)
  {
    CountOfAppend(a, b, KGatt);
    CountOfAppend(a, b, KWrite);
  }

  /** `2.0 * attempt` seconds after each of the first `n` failed attempts. */
  function BackoffDelays(n: nat): seq<nat>
  {
    if n == 0 then [] else BackoffDelays(n - 1) + [2000 * n]
  }

  /** The GATT steps of a trace: each consumes one reply of the `gatt` script. */
  function GattSteps(t: seq<Event>): nat
  {
    CountOf(t, KGatt)
  }

  /** A trace of work on an open connection: no connecting, disconnecting or backoff. */
  predicate OnConnection(t: seq<Event>)
  {
    forall i :: 0 <= i < |t| ==> !t[i].Connect? && !t[i].Disconnect? && !t[i].Backoff?
  }

  lemma {:induction false} OnConnectionCounts(t: seq<Event>)
    requires OnConnection(t)
    ensures CountOf(t, KConnect) == 0 && CountOf(t, KLinked) == 0 && CountOf(t, KDisconnect) == 0
    ensures Backoffs(t) == []
    decreases |t|
  {
    if t != [] {
      OnConnectionCounts(t[..|t| - 1]);
    }
  }

  /** Every control write in `t` carries `payload`. */
  predicate WritesOnly(t: seq<Event>, payload: Bytes)
  {
    forall i :: 0 <= i < |t| && t[i].ControlWrite? ==> t[i].payload == payload
  }

  lemma {:induction false} NoWritesOnly(t: seq<Event>, payload: Bytes)
    requires CountOf(t, KWrite) == 0
    ensures WritesOnly(t, payload)
    decreases |t|
  {
    if t != [] {
      NoWritesOnly(t[..|t| - 1], payload);
      assert t == t[..|t| - 1] + [t[|t| - 1]];
    }
  }

  /** `st` is the decoding of bytes the radio actually returned. */
  predicate ReadBack(gatt: seq<GattReply>, st: GalconStatus)
  {
    GattOk(st.raw) in gatt && st == ParseStatus(st.raw)
  }

  // ---- one connection: wake, read, verified command ----

  /** The wake write, the settle delay and the status read that start every operation. */
  function Prelude(): seq<Event>
  {
    [WakeWrite(WAKE_PAYLOAD), Sleep(WAKE_SETTLE_DELAY_MS), StatusRead]
  }

  /** Both steps of the prelude succeed, starting at reply `pos`. */
  predicate PreludeOk(gatt: seq<GattReply>, pos: nat)
  {
    GattAt(gatt, pos).GattOk? && GattAt(gatt, pos + 1).GattOk?
  }

  function PreStatus(gatt: seq<GattReply>, pos: nat): GalconStatus
    requires PreludeOk(gatt, pos)
  {
    ParseStatus(GattAt(gatt, pos + 1).data)
  }

  /** `wake_up` then `_read_status_raw`; a failure of either propagates. */
  method WakeAndRead(gatt: seq<GattReply>, pos: nat) returns (r: Attempt<GalconStatus>, next: nat, trace: seq<Event>)
    ensures OnConnection(trace) && next == pos + GattSteps(trace) && CountOf(trace, KWrite) == 0
    ensures GattAt(gatt, pos).GattFailed? ==> trace == [WakeWrite(WAKE_PAYLOAD)] && r == Raised(GattAt(gatt, pos).fault)
    ensures GattAt(gatt, pos).GattOk? ==> trace == Prelude()
    ensures PreludeOk(gatt, pos) ==> r == Returned(PreStatus(gatt, pos))
    ensures GattAt(gatt, pos).GattOk? && GattAt(gatt, pos + 1).GattFailed? ==>
      r == Raised(GattAt(gatt, pos + 1).fault)
    ensures r.Returned? ==> ReadBack(gatt, r.value)
    ensures r == PreludeAnswer(gatt, pos).result && next == PreludeAnswer(gatt, pos).next
  {
    var wake := GattAt(gatt, pos);
    trace, next := Snoc([], WakeWrite(WAKE_PAYLOAD)), pos + 1;
    if wake.GattFailed? {
      r := Raised(wake.fault);
      return;
    }
    var read := GattAt(gatt, next);
    trace := Snoc(trace, Sleep(WAKE_SETTLE_DELAY_MS));
    trace, next := Snoc(trace, StatusRead), next + 1;
    match read
    case GattFailed(f) =>
      r := Raised(f);
    case GattOk(data) =>
      r := Returned(ParseStatus(data));
  }

  /** The result of the callback run on a connected client, or the exception it raised. */
  datatype Attempt<T> = Returned(value: T) | Raised(fault: Fault)

  /** The pause after a successful re-wake inside a verify round (galcon_device.py:191). */
  const REWAKE_DELAY_MS: nat := 500

  /** The pause before the next verify round when a round did not confirm (galcon_device.py:219). */
  const ROUND_RETRY_DELAY_MS: nat := 1000

  /** The pause that ends a round which goes on to the next one, and nothing for a round that decides. */
  function RetryPause(r: Round): seq<Event>
  {
    if r.Continue? then [Sleep(ROUND_RETRY_DELAY_MS)] else []
  }

  /** How one write-and-verify round ended. */
  datatype Round = Confirm(status: GalconStatus) | Abort(fault: Fault) | Continue

  /**
   * One round of the verify loop: write the command and wait, then re-wake and
   * read back.
   */
  method VerifyRound(gatt: seq<GattReply>, pos: nat, payload: Bytes, expectOpen: bool)
    returns (r: Round, next: nat, trace: seq<Event>)
    ensures OnConnection(trace) && next == pos + GattSteps(trace)
    ensures WritesOnly(trace, payload) && CountOf(trace, KWrite) == 1
    ensures r.Confirm? ==> r.status.valveOpen == expectOpen && ReadBack(gatt, r.status)
    ensures r == Abort(Transient) ==> trace == [ControlWrite(payload)]
    ensures GattAt(gatt, pos).GattFailed? ==> trace == [ControlWrite(payload)]
    ensures GattAt(gatt, pos).GattOk? && GattAt(gatt, pos + 1).GattOk? ==>
      trace == [ControlWrite(payload), Sleep(POST_COMMAND_DELAY_MS),
                WakeWrite(WAKE_PAYLOAD), Sleep(REWAKE_DELAY_MS), StatusRead] + RetryPause(r)
    ensures GattAt(gatt, pos).GattOk? && GattAt(gatt, pos + 1) == GattFailed(Transient) ==>
      trace == [ControlWrite(payload), Sleep(POST_COMMAND_DELAY_MS), WakeWrite(WAKE_PAYLOAD), StatusRead] + RetryPause(r)
    ensures GattAt(gatt, pos).GattOk? && GattAt(gatt, pos + 1) == GattFailed(Fatal) ==>
      trace == [ControlWrite(payload), Sleep(POST_COMMAND_DELAY_MS), WakeWrite(WAKE_PAYLOAD)]
    ensures (r, next) == RoundAnswer(gatt, pos, expectOpen)
  {
    var write := GattAt(gatt, pos);
    trace, next := Snoc([], ControlWrite(payload)), pos + 1;
    if write.GattFailed? {
      r := Abort(write.fault);
      return;
    }
    trace := Snoc(trace, Sleep(POST_COMMAND_DELAY_MS));
    var t;
    r, next, t := ReWakeAndReadBack(gatt, next, expectOpen);
    NoWritesOnly(t, payload);
    ConcatOnConnection(trace, t, payload);
    assert trace == [ControlWrite(payload), Sleep(POST_COMMAND_DELAY_MS)];
    RoundTraceCases(payload, GattAt(gatt, pos + 1), r, t);
    trace := trace + t;
  }

  /** The post-command write and sleep put in front of each shape of read-back trace. */
  lemma RoundTraceCases(payload: Bytes, wake: GattReply, r: Round, t: seq<Event>)
    requires wake.GattOk? ==> t == [WakeWrite(WAKE_PAYLOAD), Sleep(REWAKE_DELAY_MS), StatusRead] + RetryPause(r)
    requires wake == GattFailed(Transient) ==> t == [WakeWrite(WAKE_PAYLOAD), StatusRead] + RetryPause(r)
    requires wake == GattFailed(Fatal) ==> t == [WakeWrite(WAKE_PAYLOAD)]
    ensures var trace := [ControlWrite(payload), Sleep(POST_COMMAND_DELAY_MS)] + t;
      && (wake.GattOk? ==> trace == [ControlWrite(payload), Sleep(POST_COMMAND_DELAY_MS),
                                     WakeWrite(WAKE_PAYLOAD), Sleep(REWAKE_DELAY_MS), StatusRead] + RetryPause(r))
      && (wake == GattFailed(Transient) ==>
            trace == [ControlWrite(payload), Sleep(POST_COMMAND_DELAY_MS), WakeWrite(WAKE_PAYLOAD), StatusRead] + RetryPause(r))
      && (wake == GattFailed(Fatal) ==> trace == [ControlWrite(payload), Sleep(POST_COMMAND_DELAY_MS), WakeWrite(WAKE_PAYLOAD)])
  {
  }

  /**
   * The second half of a round: re-wake (a transient failure is swallowed), read
   * back (a transient failure falls through), and wait again when the valve is not
   * yet as expected. Nothing here is retried by raising a transient fault.
   */
  method ReWakeAndReadBack(gatt: seq<GattReply>, pos: nat, expectOpen: bool)
    returns (r: Round, next: nat, trace: seq<Event>)
    ensures OnConnection(trace) && next == pos + GattSteps(trace)
    ensures CountOf(trace, KWrite) == 0
    ensures r.Confirm? ==> r.status.valveOpen == expectOpen && ReadBack(gatt, r.status)
    ensures r != Abort(Transient)
    ensures GattAt(gatt, pos).GattOk? ==>
      trace == [WakeWrite(WAKE_PAYLOAD), Sleep(REWAKE_DELAY_MS), StatusRead] + RetryPause(r)
    ensures GattAt(gatt, pos) == GattFailed(Transient) ==> trace == [WakeWrite(WAKE_PAYLOAD), StatusRead] + RetryPause(r)
    ensures GattAt(gatt, pos) == GattFailed(Fatal) ==> trace == [WakeWrite(WAKE_PAYLOAD)]
    ensures (r, next) == ReadBackAnswer(gatt, pos, expectOpen)
  {
    var wake := GattAt(gatt, pos);
    trace, next := Snoc([], WakeWrite(WAKE_PAYLOAD)), pos + 1;
    if wake.GattOk? {
      trace := Snoc(trace, Sleep(REWAKE_DELAY_MS));
    } else if wake.fault == Fatal {
      r := Abort(Fatal);
      return;
    }
    var read := GattAt(gatt, next);
    trace, next := Snoc(trace, StatusRead), next + 1;
    if read.GattOk? {
      var post := ParseStatus(read.data);
      if post.valveOpen == expectOpen {
        r := Confirm(post);
        return;
      }
    } else if read.fault == Fatal {
      r := Abort(Fatal);
      return;
    }
    trace := Snoc(trace, Sleep(ROUND_RETRY_DELAY_MS));
    r := Continue;
  }

  /** A command's result: the confirming status, or `False` when the verify budget ran out. */
  datatype Verdict = Confirmed(status: GalconStatus) | Unconfirmed

  // ---- what each step answers, as a function of the radio's replies ----

  /** An answer, the index of the next unused reply, and how many control writes were made. */
  datatype Run<T> = Run(result: Attempt<T>, next: nat, writes: nat)

  /** What `wake_up` then `_read_status_raw` answer, starting at reply `pos`. */
  function PreludeAnswer(gatt: seq<GattReply>, pos: nat): Run<GalconStatus>
  {
    match GattAt(gatt, pos)
    case GattFailed(f) => Run(Raised(f), pos + 1, 0)
    case GattOk(_) =>
      match GattAt(gatt, pos + 1)
      case GattFailed(f) => Run(Raised(f), pos + 2, 0)
      case GattOk(data) => Run(Returned(ParseStatus(data)), pos + 2, 0)
  }

  /**
   * How the re-wake and read-back at reply `pos` end, and the next reply: a
   * fatal fault aborts, a read showing the expected state confirms, and
   * anything else (a transient fault, the other state) goes on to the next round.
   */
  function ReadBackAnswer(gatt: seq<GattReply>, pos: nat, expectOpen: bool): (Round, nat)
  {
    if GattAt(gatt, pos) == GattFailed(Fatal) then (Abort(Fatal), pos + 1)
    else
      match GattAt(gatt, pos + 1)
      case GattOk(data) =>
        (if ParseStatus(data).valveOpen == expectOpen then Confirm(ParseStatus(data)) else Continue, pos + 2)
      case GattFailed(f) => (if f == Fatal then Abort(Fatal) else Continue, pos + 2)
  }

  /** How the round whose control write is reply `pos` ends, and the next reply. */
  function RoundAnswer(gatt: seq<GattReply>, pos: nat, expectOpen: bool): (Round, nat)
  {
    match GattAt(gatt, pos)
    case GattFailed(f) => (Abort(f), pos + 1)
    case GattOk(_) => ReadBackAnswer(gatt, pos + 1, expectOpen)
  }

  /** The round number `i` (from 0) of a run of rounds starting at reply `pos`, were all before it to continue. */
  function RoundAt(gatt: seq<GattReply>, pos: nat, expectOpen: bool, i: nat): Round
  {
    RoundAnswer(gatt, pos + 3 * i, expectOpen).0
  }

  /** Round `i` of the command whose wake write is reply `pos`: the rounds start after the pre-read. */
  function CommandRound(gatt: seq<GattReply>, pos: nat, expectOpen: bool, i: nat): Round
  {
    RoundAt(gatt, pos + 2, expectOpen, i)
  }

  /** Up to `k` rounds from reply `pos`: the first round that does not continue decides. */
  function Rounds(gatt: seq<GattReply>, pos: nat, expectOpen: bool, k: nat): Run<Verdict>
    decreases k
  {
    if k == 0 then Run(Returned(Unconfirmed), pos, 0)
    else
      var (round, next) := RoundAnswer(gatt, pos, expectOpen);
      match round
      case Confirm(status) => Run(Returned(Confirmed(status)), next, 1)
      case Abort(f) => Run(Raised(f), next, 1)
      case Continue =>
        var rest := Rounds(gatt, next, expectOpen, k - 1);
        rest.(writes := rest.writes + 1)
  }

  /** One round of a run of `k > 0` rounds: it decides, or the rest of the run does with one more write. */
  lemma RoundsStep(gatt: seq<GattReply>, pos: nat, expectOpen: bool, k: nat)
    requires k > 0
    ensures var (round, next) := RoundAnswer(gatt, pos, expectOpen);
      && (round.Confirm? ==> Rounds(gatt, pos, expectOpen, k) == Run(Returned(Confirmed(round.status)), next, 1))
      && (round.Abort? ==> Rounds(gatt, pos, expectOpen, k) == Run(Raised(round.fault), next, 1))
      && (round.Continue? ==>
            var run, rest := Rounds(gatt, pos, expectOpen, k), Rounds(gatt, next, expectOpen, k - 1);
            run.result == rest.result && run.next == rest.next && run.writes == rest.writes + 1)
  {
  }

  /** What `_verified_command` answers, starting at reply `pos`. */
  function CommandAnswer(gatt: seq<GattReply>, pos: nat, expectOpen: bool): Run<Verdict>
  {
    var pre := PreludeAnswer(gatt, pos);
    match pre.result
    case Raised(f) => Run(Raised(f), pre.next, 0)
    case Returned(status) =>
      if status.valveOpen == expectOpen then Run(Returned(Confirmed(status)), pre.next, 0)
      else Rounds(gatt, pre.next, expectOpen, COMMAND_VERIFY_ATTEMPTS)
  }

  /**
   * A round confirms exactly when its control write succeeds, the re-wake does
   * not fail fatally and the read-back shows the expected state; it aborts with
   * a retried fault only when the control write fails with one; a round that
   * goes on has used exactly three replies.
   */
  lemma RoundConfirmIff(gatt: seq<GattReply>, pos: nat, expectOpen: bool)
    ensures RoundAnswer(gatt, pos, expectOpen).0.Confirm? <==>
      GattAt(gatt, pos).GattOk? && GattAt(gatt, pos + 1) != GattFailed(Fatal) && GattAt(gatt, pos + 2).GattOk? &&
      ParseStatus(GattAt(gatt, pos + 2).data).valveOpen == expectOpen
    ensures RoundAnswer(gatt, pos, expectOpen).0.Confirm? ==>
      RoundAnswer(gatt, pos, expectOpen).0.status == ParseStatus(GattAt(gatt, pos + 2).data)
    ensures RoundAnswer(gatt, pos, expectOpen).0 == Abort(Transient) <==> GattAt(gatt, pos) == GattFailed(Transient)
    ensures RoundAnswer(gatt, pos, expectOpen).0.Continue? ==> RoundAnswer(gatt, pos, expectOpen).1 == pos + 3
  {
  }

  /** Round `i` of the rounds after the first is round `i + 1` of the whole run. */
  lemma RoundAtShift(gatt: seq<GattReply>, pos: nat, expectOpen: bool, i: nat)
    ensures RoundAt(gatt, pos + 3, expectOpen, i) == RoundAt(gatt, pos, expectOpen, i + 1)
  {
    assert pos + 3 + 3 * i == pos + 3 * (i + 1);
  }

  /**
   * The first round that confirms decides: when rounds 0 .. j-1 all go on and
   * round j confirms, within the budget, that confirmation is the answer, after
   * exactly j + 1 control writes.
   */
  lemma {:induction false} FirstConfirmingRound(gatt: seq<GattReply>, pos: nat, expectOpen: bool, k: nat, j: nat)
    requires j < k
    requires forall i :: 0 <= i < j ==> RoundAt(gatt, pos, expectOpen, i).Continue?
    requires RoundAt(gatt, pos, expectOpen, j).Confirm?
    ensures Rounds(gatt, pos, expectOpen, k).result == Returned(Confirmed(RoundAt(gatt, pos, expectOpen, j).status))
    ensures Rounds(gatt, pos, expectOpen, k).writes == j + 1
    decreases j
  {
    if j > 0 {
      assert RoundAt(gatt, pos, expectOpen, 0).Continue?;
      RoundConfirmIff(gatt, pos, expectOpen);
      var after := pos + 3;
      forall i | 0 <= i < j - 1
        ensures RoundAt(gatt, after, expectOpen, i).Continue?
      {
        RoundAtShift(gatt, pos, expectOpen, i);
      }
      RoundAtShift(gatt, pos, expectOpen, j - 1);
      FirstConfirmingRound(gatt, after, expectOpen, k - 1, j - 1);
    }
  }

  /**
   * `False` is answered exactly when every one of the `k` rounds goes on, and
   * then after exactly `k` control writes.
   */
  lemma {:induction false} UnconfirmedIff(gatt: seq<GattReply>, pos: nat, expectOpen: bool, k: nat)
    ensures Rounds(gatt, pos, expectOpen, k).result == Returned(Unconfirmed) <==>
      forall i :: 0 <= i < k ==> RoundAt(gatt, pos, expectOpen, i).Continue?
    ensures Rounds(gatt, pos, expectOpen, k).result == Returned(Unconfirmed) ==> Rounds(gatt, pos, expectOpen, k).writes == k
    decreases k
  {
    if k > 0 {
      RoundConfirmIff(gatt, pos, expectOpen);
      var after := pos + 3;
      UnconfirmedIff(gatt, after, expectOpen, k - 1);
      forall i | 0 <= i < k - 1
        ensures RoundAt(gatt, after, expectOpen, i) == RoundAt(gatt, pos, expectOpen, i + 1)
      {
        RoundAtShift(gatt, pos, expectOpen, i);
      }
      if forall i :: 0 <= i < k ==> RoundAt(gatt, pos, expectOpen, i).Continue? {
        assert RoundAt(gatt, pos, expectOpen, 0).Continue?;
      } else if RoundAt(gatt, pos, expectOpen, 0).Continue? {
        var i :| 0 <= i < k && !RoundAt(gatt, pos, expectOpen, i).Continue?;
        assert i > 0 && !RoundAt(gatt, after, expectOpen, i - 1).Continue?;
      }
    }
  }

  /**
   * A command sent because the pre-read showed the other state is confirmed
   * by the first read-back that shows the expected state, after exactly as
   * many control writes as rounds it took.
   */
  lemma CommandConfirmsAtRound(gatt: seq<GattReply>, pos: nat, expectOpen: bool, j: nat)
    requires PreludeOk(gatt, pos) && PreStatus(gatt, pos).valveOpen != expectOpen
    requires j < COMMAND_VERIFY_ATTEMPTS
    requires forall i :: 0 <= i < j ==> CommandRound(gatt, pos, expectOpen, i).Continue?
    requires CommandRound(gatt, pos, expectOpen, j).Confirm?
    ensures CommandAnswer(gatt, pos, expectOpen).result ==
      Returned(Confirmed(CommandRound(gatt, pos, expectOpen, j).status))
    ensures CommandRound(gatt, pos, expectOpen, j).status.valveOpen == expectOpen
    ensures CommandAnswer(gatt, pos, expectOpen).writes == j + 1
  {
    var start := pos + 2;
    forall i | 0 <= i < j
      ensures RoundAt(gatt, start, expectOpen, i).Continue?
    {
      assert CommandRound(gatt, pos, expectOpen, i).Continue?;
    }
    FirstConfirmingRound(gatt, start, expectOpen, COMMAND_VERIFY_ATTEMPTS, j);
    RoundConfirmIff(gatt, pos + 2 + 3 * j, expectOpen);
  }

  /**
   * The usual open: the pre-read shows the valve closed, the write of
   * CMD_OPEN_VALVE succeeds and the first read-back shows it open, so the
   * command is confirmed with that status after one write.
   */
  lemma OpenConfirmedInOneRound()
    ensures var gatt := [GattOk([]), GattOk([0, 0, 0, 20, 0]), GattOk([]), GattOk([]), GattOk([1, 0, 0, 20, 0])];
      CommandAnswer(gatt, 0, true) == Run(Returned(Confirmed(ParseStatus([1, 0, 0, 20, 0]))), 5, 1)
  {
    var gatt := [GattOk([]), GattOk([0, 0, 0, 20, 0]), GattOk([]), GattOk([]), GattOk([1, 0, 0, 20, 0])];
    assert ParseStatus([0, 0, 0, 20, 0]).valveOpen == false;
    assert ParseStatus([1, 0, 0, 20, 0]).valveOpen == true;
    assert RoundAnswer(gatt, 2, true) == (Confirm(ParseStatus([1, 0, 0, 20, 0])), 5);
  }

  /**
   * The verify loop of `_verified_command`: up to COMMAND_VERIFY_ATTEMPTS
   * rounds from reply `pos`, stopping at the first that confirms or aborts.
   */
  method VerifyRounds(gatt: seq<GattReply>, pos: nat, payload: Bytes, expectOpen: bool)
    returns (r: Attempt<Verdict>, next: nat, trace: seq<Event>)
    ensures OnConnection(trace) && next == pos + GattSteps(trace)
    ensures WritesOnly(trace, payload) && 1 <= CountOf(trace, KWrite) <= COMMAND_VERIFY_ATTEMPTS
    ensures r.Returned? && r.value.Confirmed? ==>
      r.value.status.valveOpen == expectOpen && ReadBack(gatt, r.value.status)
    ensures r == Raised(Transient) ==> trace != [] && trace[|trace| - 1].ControlWrite?
    ensures var run := Rounds(gatt, pos, expectOpen, COMMAND_VERIFY_ATTEMPTS);
      r == run.result && next == run.next && CountOf(trace, KWrite) == run.writes
  {
    trace, next := [], pos;
    ghost var run := Rounds(gatt, pos, expectOpen, COMMAND_VERIFY_ATTEMPTS);
    var attempt := 1;
    while attempt <= COMMAND_VERIFY_ATTEMPTS
      invariant 1 <= attempt <= COMMAND_VERIFY_ATTEMPTS + 1
      invariant OnConnection(trace) && next == pos + GattSteps(trace)
      invariant WritesOnly(trace, payload)
      invariant CountOf(trace, KWrite) == attempt - 1
      invariant var rest := Rounds(gatt, next, expectOpen, COMMAND_VERIFY_ATTEMPTS - attempt + 1);
        run.result == rest.result && run.next == rest.next && run.writes == rest.writes + attempt - 1
    {
      var round, t;
      RoundsStep(gatt, next, expectOpen, COMMAND_VERIFY_ATTEMPTS - attempt + 1);
      round, next, t := VerifyRound(gatt, next, payload, expectOpen);
      ConcatOnConnection(trace, t, payload);
      trace := trace + t;
      match round
      case Confirm(status) =>
        r := Returned(Confirmed(status));
        return;
      case Abort(fault) =>
        r := Raised(fault);
        return;
      case Continue =>
        attempt := attempt + 1;
    }
    r := Returned(Unconfirmed);
  }

  /**
   * `_verified_command`: wake, pre-read, return at once when the valve already
   * is as expected, otherwise the verify loop.
   */
  method VerifiedCommand(gatt: seq<GattReply>, pos: nat, payload: Bytes, expectOpen: bool)
    returns (r: Attempt<Verdict>, next: nat, trace: seq<Event>)
    ensures OnConnection(trace) && next == pos + GattSteps(trace)
    ensures WritesOnly(trace, payload)
    ensures CountOf(trace, KWrite) <= COMMAND_VERIFY_ATTEMPTS
    ensures r.Returned? && r.value.Confirmed? ==>
      r.value.status.valveOpen == expectOpen && ReadBack(gatt, r.value.status)
    ensures r == Returned(Unconfirmed) ==> CountOf(trace, KWrite) == COMMAND_VERIFY_ATTEMPTS
    // the idempotent short-circuit, and that nothing else avoids writing
    ensures PreludeOk(gatt, pos) && PreStatus(gatt, pos).valveOpen == expectOpen ==>
      r == Returned(Confirmed(PreStatus(gatt, pos))) && trace == Prelude()
    ensures CountOf(trace, KWrite) > 0 <==>
      PreludeOk(gatt, pos) && PreStatus(gatt, pos).valveOpen != expectOpen
    // once writing has begun, only a failed control write or a non-transient fault ends the loop
    ensures r == Raised(Transient) ==> |trace| <= |Prelude()| || trace[|trace| - 1].ControlWrite?
    // the answer, where the next reply is, and the number of writes, as CommandAnswer says
    ensures r == CommandAnswer(gatt, pos, expectOpen).result && next == CommandAnswer(gatt, pos, expectOpen).next
    ensures CountOf(trace, KWrite) == CommandAnswer(gatt, pos, expectOpen).writes
  {
    var pre;
    pre, next, trace := WakeAndRead(gatt, pos);
    if pre.Raised? {
      r := Raised(pre.fault);
      return;
    }
    if pre.value.valveOpen == expectOpen {
      r := Returned(Confirmed(pre.value));
      return;
    }
    var t;
    r, next, t := VerifyRounds(gatt, next, payload, expectOpen);
    UnconfirmedIff(gatt, pos + 2, expectOpen, COMMAND_VERIFY_ATTEMPTS);
    Concat(trace, t);
    trace := trace + t;
  }


  /** `t + [e]`, with what it does to the counts. */
  function Snoc(t: seq<Event>, e: Event): (u: seq<Event>)
    ensures u == t + [e]
    ensures forall k {:trigger CountOf(u, k)} :: CountOf(u, k) == CountOf(t, k) + (if Is(e, k) then 1 else 0)
    ensures Backoffs(u) == Backoffs(t) + (if e.Backoff? then [e.ms] else [])
    ensures OnConnection(t) && !e.Connect? && !e.Disconnect? && !e.Backoff? ==> OnConnection(u)
  {
    assert (t + [e])[..|t|] == t;
    t + [e]
  }

  // ---- the retry executor ----

  /** The callback `_execute` runs: `get_status`'s read, or a verified command. */
  datatype Op = ReadOp | CommandOp(payload: Bytes, expectOpen: bool)

  datatype OpResult = StatusResult(status: GalconStatus) | VerdictResult(verdict: Verdict)

  /** What a successful callback may return. */
  predicate Sound(gatt: seq<GattReply>, op: Op, v: OpResult)
  {
    match op
    case ReadOp => v.StatusResult? && ReadBack(gatt, v.status)
    case CommandOp(_, expectOpen) =>
      v.VerdictResult? &&
      (v.verdict.Confirmed? ==> v.verdict.status.valveOpen == expectOpen && ReadBack(gatt, v.verdict.status))
  }

  /** The writes an operation may make over `sessions` connections. */
  predicate WritesOf(op: Op, t: seq<Event>, sessions: nat)
  {
    match op
    case ReadOp => CountOf(t, KWrite) == 0
    case CommandOp(payload, _) => CountOf(t, KWrite) <= sessions * COMMAND_VERIFY_ATTEMPTS && WritesOnly(t, payload)
  }

  method RunOp(gatt: seq<GattReply>, pos: nat, op: Op) returns (r: Attempt<OpResult>, next: nat, trace: seq<Event>)
    ensures OnConnection(trace) && next == pos + GattSteps(trace) && WritesOf(op, trace, 1)
    ensures r.Returned? ==> Sound(gatt, op, r.value)
    ensures op.CommandOp? && PreludeOk(gatt, pos) && PreStatus(gatt, pos).valveOpen == op.expectOpen ==>
      r == Returned(VerdictResult(Confirmed(PreStatus(gatt, pos)))) && CountOf(trace, KWrite) == 0
    ensures r == OpAnswer(gatt, pos, op).result && next == OpAnswer(gatt, pos, op).next
    ensures CountOf(trace, KWrite) == OpAnswer(gatt, pos, op).writes
  {
    match op
    case ReadOp =>
      var a;
      a, next, trace := WakeAndRead(gatt, pos);
      r := if a.Returned? then Returned(StatusResult(a.value)) else Raised(a.fault);
    case CommandOp(payload, expectOpen) =>
      var a;
      a, next, trace := VerifiedCommand(gatt, pos, payload, expectOpen);
      r := if a.Returned? then Returned(VerdictResult(a.value)) else Raised(a.fault);
  }

  /** What `_execute` raises: ConnectionError after the last attempt, or whatever was not retried. */
  datatype Error = ConnectionError(address: string) | Unexpected

  datatype Outcome<T> = Value(value: T) | Failed(error: Error)

  /** A command's answer as the callback's result. */
  function Lifted(a: Attempt<Verdict>): Attempt<OpResult>
  {
    match a
    case Returned(v) => Returned(VerdictResult(v))
    case Raised(f) => Raised(f)
  }

  /** What the callback answers on a live client, starting at reply `pos`. */
  function OpAnswer(gatt: seq<GattReply>, pos: nat, op: Op): Run<OpResult>
  {
    match op
    case ReadOp =>
      var pre := PreludeAnswer(gatt, pos);
      Run(if pre.result.Returned? then Returned(StatusResult(pre.result.value)) else Raised(pre.result.fault), pre.next, 0)
    case CommandOp(_, expectOpen) =>
      var c := CommandAnswer(gatt, pos, expectOpen);
      Run(Lifted(c.result), c.next, c.writes)
  }

  /** What one pass through the retry loop's body answers: the connect, the live check, the callback. */
  function ConnAnswer(link: LinkReply, gatt: seq<GattReply>, pos: nat, op: Op): Run<OpResult>
  {
    match link
    case LinkFailed(f) => Run(Raised(f), pos, 0)
    case Linked(live) => if live then OpAnswer(gatt, pos, op) else Run(Raised(Transient), pos, 0)
  }

  /**
   * The answers of `_execute`'s attempts from attempt number `attempt` on, in
   * order: it goes on after a retried failure, up to MAX_RETRIES attempts, and
   * stops at the first answer that is not a retried failure.
   */
  function AttemptsFrom(links: seq<LinkReply>, gatt: seq<GattReply>, op: Op, attempt: nat, pos: nat)
    : (answers: seq<Attempt<OpResult>>)
    requires 1 <= attempt <= MAX_RETRIES
    ensures 1 <= |answers| <= MAX_RETRIES - attempt + 1
    decreases MAX_RETRIES - attempt
  {
    var c := ConnAnswer(LinkAt(links, attempt - 1), gatt, pos, op);
    if c.result == Raised(Transient) && attempt < MAX_RETRIES then
      [c.result] + AttemptsFrom(links, gatt, op, attempt + 1, c.next)
    else
      [c.result]
  }

  /**
   * Every attempt but the last ended in a retried failure, and the last one
   * did too only when it was attempt MAX_RETRIES.
   */
  lemma {:induction false} AttemptsShape(links: seq<LinkReply>, gatt: seq<GattReply>, op: Op, attempt: nat, pos: nat)
    requires 1 <= attempt <= MAX_RETRIES
    ensures var answers := AttemptsFrom(links, gatt, op, attempt, pos);
      && (forall i :: 0 <= i < |answers| - 1 ==> answers[i] == Raised(Transient))
      && (answers[|answers| - 1] == Raised(Transient) ==> |answers| == MAX_RETRIES - attempt + 1)
    decreases MAX_RETRIES - attempt
  {
    var c := ConnAnswer(LinkAt(links, attempt - 1), gatt, pos, op);
    if c.result == Raised(Transient) && attempt < MAX_RETRIES {
      AttemptsShape(links, gatt, op, attempt + 1, c.next);
    }
  }

  function Attempts(links: seq<LinkReply>, gatt: seq<GattReply>, op: Op): (answers: seq<Attempt<OpResult>>)
    ensures 1 <= |answers| <= MAX_RETRIES
  {
    AttemptsFrom(links, gatt, op, 1, 0)
  }

  /** What `_execute` returns or raises after its attempts: decided by the last one. */
  function Result(address: string, answers: seq<Attempt<OpResult>>): Outcome<OpResult>
    requires answers != []
  {
    match answers[|answers| - 1]
    case Returned(v) => Value(v)
    case Raised(f) => if f == Fatal then Failed(Unexpected) else Failed(ConnectionError(address))
  }

  /**
   * The outcome of `_execute`: a value exactly when the last attempt's callback
   * returned one; `Unexpected` exactly when the last attempt failed with an
   * error that is not retried, which propagates at once; ConnectionError
   * exactly when all MAX_RETRIES attempts failed with retried errors.
   */
  lemma ExecuteOutcome(address: string, links: seq<LinkReply>, gatt: seq<GattReply>, op: Op)
    ensures var answers := Attempts(links, gatt, op);
      var r := Result(address, answers);
      && (r.Value? <==> answers[|answers| - 1].Returned?)
      && (r.Value? ==> answers[|answers| - 1] == Returned(r.value))
      && (r == Failed(Unexpected) <==> answers[|answers| - 1] == Raised(Fatal))
      && (r == Failed(ConnectionError(address)) <==>
            |answers| == MAX_RETRIES && forall i :: 0 <= i < |answers| ==> answers[i] == Raised(Transient))
  {
    var answers := Attempts(links, gatt, op);
    AttemptsShape(links, gatt, op, 1, 0);
    if answers[|answers| - 1] == Raised(Transient) {
      assert forall i :: 0 <= i < |answers| ==> answers[i] == Raised(Transient) by {
        forall i | 0 <= i < |answers| ensures answers[i] == Raised(Transient) {
          if i < |answers| - 1 {
          }
        }
      }
    }
  }

  /** Attempt `attempt + i` answers by its link alone when the link fails or is not live. */
  lemma {:induction false} AttemptsFollowLinks(links: seq<LinkReply>, gatt: seq<GattReply>, op: Op, attempt: nat, pos: nat, i: nat)
    requires 1 <= attempt <= MAX_RETRIES
    requires i < |AttemptsFrom(links, gatt, op, attempt, pos)|
    ensures LinkAt(links, attempt - 1 + i).LinkFailed? ==>
      AttemptsFrom(links, gatt, op, attempt, pos)[i] == Raised(LinkAt(links, attempt - 1 + i).fault)
    ensures LinkAt(links, attempt - 1 + i) == Linked(false) ==>
      AttemptsFrom(links, gatt, op, attempt, pos)[i] == Raised(Transient)
    decreases i
  {
    if i > 0 {
      var c := ConnAnswer(LinkAt(links, attempt - 1), gatt, pos, op);
      AttemptsFollowLinks(links, gatt, op, attempt + 1, c.next, i - 1);
    }
  }

  /**
   * A live first link with a successful wake and read: `get_status` returns the
   * status read, on the first attempt.
   */
  lemma LiveReadReturnsStatus(address: string, links: seq<LinkReply>, gatt: seq<GattReply>)
    requires LinkAt(links, 0) == Linked(true) && PreludeOk(gatt, 0)
    ensures Attempts(links, gatt, ReadOp) == [Returned(StatusResult(PreStatus(gatt, 0)))]
    ensures Result(address, Attempts(links, gatt, ReadOp)) == Value(StatusResult(PreStatus(gatt, 0)))
  {
  }

  /**
   * A live first link and a pre-read that already shows the expected state:
   * the command is confirmed on the first attempt with no control write.
   */
  lemma LiveMatchDecides(links: seq<LinkReply>, gatt: seq<GattReply>, op: Op)
    requires LinkAt(links, 0) == Linked(true) && op.CommandOp? && PreludeOk(gatt, 0)
    requires PreStatus(gatt, 0).valveOpen == op.expectOpen
    ensures Attempts(links, gatt, op) == [Returned(VerdictResult(Confirmed(PreStatus(gatt, 0))))]
    ensures ConnAnswer(LinkAt(links, 0), gatt, 0, op).writes == 0
  {
  }

  /**
   * A live first link, a pre-read in the other state, and rounds that go on
   * until round `j` confirms: the command is confirmed on the first attempt
   * with the status round `j` read back.
   */
  lemma LiveCommandConfirms(address: string, links: seq<LinkReply>, gatt: seq<GattReply>, payload: Bytes, expectOpen: bool, j: nat)
    requires LinkAt(links, 0) == Linked(true) && PreludeOk(gatt, 0) && PreStatus(gatt, 0).valveOpen != expectOpen
    requires j < COMMAND_VERIFY_ATTEMPTS
    requires forall i :: 0 <= i < j ==> CommandRound(gatt, 0, expectOpen, i).Continue?
    requires CommandRound(gatt, 0, expectOpen, j).Confirm?
    ensures Attempts(links, gatt, CommandOp(payload, expectOpen)) ==
      [Returned(VerdictResult(Confirmed(CommandRound(gatt, 0, expectOpen, j).status)))]
    ensures Result(address, Attempts(links, gatt, CommandOp(payload, expectOpen))) ==
      Value(VerdictResult(Confirmed(CommandRound(gatt, 0, expectOpen, j).status)))
  {
    CommandConfirmsAtRound(gatt, 0, expectOpen, j);
  }

  /**
   * Links that fail with retried errors and then one that fails with an error
   * that is not retried: that error propagates at once, on attempt j + 1,
   * without further retries.
   */
  lemma {:induction false} FatalLinkPropagates(address: string, links: seq<LinkReply>, gatt: seq<GattReply>, op: Op, j: nat)
    requires j < MAX_RETRIES
    requires forall i :: 0 <= i < j ==> LinkAt(links, i) == LinkFailed(Transient)
    requires LinkAt(links, j) == LinkFailed(Fatal)
    ensures |Attempts(links, gatt, op)| == j + 1
    ensures Result(address, Attempts(links, gatt, op)) == Failed(Unexpected)
  {
    var answers := Attempts(links, gatt, op);
    AttemptsShape(links, gatt, op, 1, 0);
    forall i | 0 <= i < |answers| && i <= j
      ensures answers[i] == Raised(LinkAt(links, i).fault)
    {
      AttemptsFollowLinks(links, gatt, op, 1, 0, i);
    }
  }

  /**
   * Where attempt number `attempt` starts reading replies, when every attempt
   * before it failed with a retried error; None when one of them did not.
   */
  function Pending(links: seq<LinkReply>, gatt: seq<GattReply>, op: Op, attempt: nat): Option<nat>
    requires attempt >= 1
    decreases attempt
  {
    if attempt == 1 then Some(0)
    else
      match Pending(links, gatt, op, attempt - 1)
      case None => None
      case Some(p) =>
        var c := ConnAnswer(LinkAt(links, attempt - 2), gatt, p, op);
        if c.result == Raised(Transient) then Some(c.next) else None
  }

  /** Attempt `m + 1` is reached only through a retried failure of attempt `m`, which says where it starts. */
  lemma PendingStep(links: seq<LinkReply>, gatt: seq<GattReply>, op: Op, m: nat)
    requires m >= 1 && Pending(links, gatt, op, m + 1).Some?
    ensures Pending(links, gatt, op, m).Some?
    ensures var c := ConnAnswer(LinkAt(links, m - 1), gatt, Pending(links, gatt, op, m).value, op);
      c.result == Raised(Transient) && Pending(links, gatt, op, m + 1).value == c.next
  {
  }

  /** After retried failures up to attempt `n`, the answers from attempt `m` on run through attempt `n`'s. */
  lemma {:induction false} Resume(links: seq<LinkReply>, gatt: seq<GattReply>, op: Op, m: nat, n: nat)
    requires 1 <= m <= n <= MAX_RETRIES && Pending(links, gatt, op, n).Some?
    ensures Pending(links, gatt, op, m).Some?
    ensures var from := AttemptsFrom(links, gatt, op, m, Pending(links, gatt, op, m).value);
      var rest := AttemptsFrom(links, gatt, op, n, Pending(links, gatt, op, n).value);
      |from| == n - m + |rest| && from[n - m..] == rest
    decreases n - m
  {
    if m < n {
      Resume(links, gatt, op, m + 1, n);
      PendingStep(links, gatt, op, m);
      var p := Pending(links, gatt, op, m).value;
      var c := ConnAnswer(LinkAt(links, m - 1), gatt, p, op);
      var tail := AttemptsFrom(links, gatt, op, m + 1, c.next);
      assert AttemptsFrom(links, gatt, op, m, p) == [c.result] + tail;
      assert ([c.result] + tail)[n - m..] == tail[n - m - 1..];
    }
  }

  /**
   * Attempt number `n`, reached after retried failures, ends the attempts when
   * it does not fail with a retried error or is the last one: there are `n`
   * answers and its answer decides the outcome.
   */
  lemma Decided(address: string, links: seq<LinkReply>, gatt: seq<GattReply>, op: Op, n: nat, pos: nat)
    requires 1 <= n <= MAX_RETRIES && Pending(links, gatt, op, n) == Some(pos)
    requires ConnAnswer(LinkAt(links, n - 1), gatt, pos, op).result != Raised(Transient) || n == MAX_RETRIES
    ensures |Attempts(links, gatt, op)| == n
    ensures var a := ConnAnswer(LinkAt(links, n - 1), gatt, pos, op).result;
      Result(address, Attempts(links, gatt, op)) ==
        match a
        case Returned(v) => Value(v)
        case Raised(f) => if f == Fatal then Failed(Unexpected) else Failed(ConnectionError(address))
  {
    Resume(links, gatt, op, 1, n);
    var answers := Attempts(links, gatt, op);
    var last := AttemptsFrom(links, gatt, op, n, pos);
    assert |last| == 1;
    assert answers[n - 1] == last[0];
  }

  /** Links that failed with retried errors leave the reply position where it was. */
  lemma {:induction false} PendingAfterFailedLinks(links: seq<LinkReply>, gatt: seq<GattReply>, op: Op, k: nat)
    requires forall i :: 0 <= i < k ==> LinkAt(links, i) == LinkFailed(Transient)
    ensures Pending(links, gatt, op, k + 1) == Some(0)
  {
    if k > 0 {
      PendingAfterFailedLinks(links, gatt, op, k - 1);
    }
  }

  /**
   * Links that fail with retried errors and then attempt number `j + 1`, whose
   * answer from the first reply on is not a retried failure: that answer ends
   * the attempts and decides the outcome. A callback's value is returned; an
   * error that is not retried, from the link or from a GATT step, propagates
   * as Unexpected.
   */
  lemma LaterAttemptDecides(address: string, links: seq<LinkReply>, gatt: seq<GattReply>, op: Op, j: nat)
    requires j < MAX_RETRIES
    requires forall i :: 0 <= i < j ==> LinkAt(links, i) == LinkFailed(Transient)
    requires ConnAnswer(LinkAt(links, j), gatt, 0, op).result != Raised(Transient)
    ensures |Attempts(links, gatt, op)| == j + 1
    ensures Attempts(links, gatt, op)[j] == ConnAnswer(LinkAt(links, j), gatt, 0, op).result
    ensures var a := ConnAnswer(LinkAt(links, j), gatt, 0, op).result;
      && (a.Returned? ==> Result(address, Attempts(links, gatt, op)) == Value(a.value))
      && (a == Raised(Fatal) ==> Result(address, Attempts(links, gatt, op)) == Failed(Unexpected))
  {
    PendingAfterFailedLinks(links, gatt, op, j);
    Decided(address, links, gatt, op, j + 1, 0);
  }

  /** Attempt number `attempt` either decides the outcome or is followed by attempt `attempt + 1`. */
  lemma Advance(address: string, links: seq<LinkReply>, gatt: seq<GattReply>, op: Op, attempt: nat, pos: nat)
    requires 1 <= attempt <= MAX_RETRIES && Pending(links, gatt, op, attempt) == Some(pos)
    ensures var c := ConnAnswer(LinkAt(links, attempt - 1), gatt, pos, op);
      && (c.result == Raised(Transient) && attempt < MAX_RETRIES ==> Pending(links, gatt, op, attempt + 1) == Some(c.next))
      && (c.result != Raised(Transient) || attempt == MAX_RETRIES ==>
            |Attempts(links, gatt, op)| == attempt &&
            Result(address, Attempts(links, gatt, op)) ==
              match c.result
              case Returned(v) => Value(v)
              case Raised(f) => if f == Fatal then Failed(Unexpected) else Failed(ConnectionError(address)))
  {
    var c := ConnAnswer(LinkAt(links, attempt - 1), gatt, pos, op);
    if c.result != Raised(Transient) || attempt == MAX_RETRIES {
      Decided(address, links, gatt, op, attempt, pos);
    }
  }

  /** All MAX_RETRIES connection attempts fail with a retried error. */
  predicate LinksAllFail(links: seq<LinkReply>)
  {
    forall i :: 0 <= i < MAX_RETRIES ==> LinkAt(links, i) == LinkFailed(Transient)
  }

  /** Every connection attempt in `t` went through the device hint exactly when `viaHint`. */
  predicate Hinted(t: seq<Event>, viaHint: bool)
  {
    forall i :: 0 <= i < |t| && t[i].Connect? ==> t[i].viaHint == viaHint
  }

  lemma ConcatShapes(a: seq<Event>, b: seq<Event>, viaHint: bool, payload: Bytes)
    ensures Hinted(a, viaHint) && Hinted(b, viaHint) ==> Hinted(a + b, viaHint)
    ensures WritesOnly(a, payload) && WritesOnly(b, payload) ==> WritesOnly(a + b, payload)
  {
  }

  /** The work on a live client: `op`, then the `finally` disconnect. */
  method LiveSession(viaHint: bool, gatt: seq<GattReply>, pos: nat, op: Op)
    returns (a: Attempt<OpResult>, next: nat, t: seq<Event>)
    ensures CountOf(t, KConnect) == 1 && CountOf(t, KLinked) == 1 && CountOf(t, KDisconnect) == 1
    ensures Backoffs(t) == [] && Hinted(t, viaHint)
    ensures WritesOf(op, t, 1)
    ensures a.Returned? ==> Sound(gatt, op, a.value)
    ensures op.CommandOp? && PreludeOk(gatt, pos) && PreStatus(gatt, pos).valveOpen == op.expectOpen ==>
      a == Returned(VerdictResult(Confirmed(PreStatus(gatt, pos)))) && CountOf(t, KWrite) == 0
    ensures a == OpAnswer(gatt, pos, op).result && next == OpAnswer(gatt, pos, op).next
    ensures CountOf(t, KWrite) == OpAnswer(gatt, pos, op).writes
  {
    var u;
    a, next, u := RunOp(gatt, pos, op);
    OnConnectionCounts(u);
    var before := [Connect(viaHint, true)];
    Concat(before, u);
    ConcatShapes(before, u, viaHint, if op.CommandOp? then op.payload else []);
    t := Snoc(before + u, Disconnect);
  }

  /**
   * One pass through the body of `_execute`'s retry loop: connect, check the
   * link is live, run `op`, and in the `finally` disconnect any client it got.
   */
  method Connection(viaHint: bool, link: LinkReply, gatt: seq<GattReply>, pos: nat, op: Op)
    returns (a: Attempt<OpResult>, next: nat, t: seq<Event>)
    ensures CountOf(t, KConnect) == 1 && Backoffs(t) == [] && Hinted(t, viaHint)
    ensures CountOf(t, KDisconnect) == CountOf(t, KLinked)
    ensures WritesOf(op, t, 1)
    ensures a.Returned? ==> Sound(gatt, op, a.value)
    ensures link.LinkFailed? ==> a == Raised(link.fault) && t == [Connect(viaHint, false)]
    ensures link.LinkFailed? ==> CountOf(t, KLinked) == 0 && CountOf(t, KGatt) == 0
    ensures link == Linked(false) ==> a == Raised(Transient) && t == [Connect(viaHint, true), Disconnect]
    ensures a == ConnAnswer(link, gatt, pos, op).result && next == ConnAnswer(link, gatt, pos, op).next
    ensures CountOf(t, KWrite) == ConnAnswer(link, gatt, pos, op).writes
    ensures link == Linked(true) && op.CommandOp? && PreludeOk(gatt, pos) && PreStatus(gatt, pos).valveOpen == op.expectOpen ==>
      a == Returned(VerdictResult(Confirmed(PreStatus(gatt, pos)))) && CountOf(t, KWrite) == 0
  {
    next := pos;
    match link
    case LinkFailed(f) =>
      t := Snoc([], Connect(viaHint, false));
      a := Raised(f);
    case Linked(live) =>
      if !live {
        // "Failed to connect": raised inside the try, so the client is still disconnected
        t := Snoc(Snoc([], Connect(viaHint, true)), Disconnect);
        a := Raised(Transient);
      } else {
        a, next, t := LiveSession(viaHint, gatt, pos, op);
      }
  }

  /**
   * What `_execute` leaves behind, whatever its result: between one and
   * MAX_RETRIES connection attempts, all alike in using the hint, a backoff
   * after each but the last, a disconnect for every client obtained, and at
   * most one verified command's writes per attempt.
   */
  predicate Executed(trace: seq<Event>, viaHint: bool, op: Op)
  {
    var n := CountOf(trace, KConnect);
    1 <= n <= MAX_RETRIES && Hinted(trace, viaHint) && Backoffs(trace) == BackoffDelays(n - 1) &&
    CountOf(trace, KDisconnect) == CountOf(trace, KLinked) && WritesOf(op, trace, n)
  }

  /** After `n` attempts that each ended in a retried failure and were followed by a backoff. */
  predicate Retrying(trace: seq<Event>, n: nat, viaHint: bool, op: Op)
  {
    CountOf(trace, KConnect) == n && Hinted(trace, viaHint) && Backoffs(trace) == BackoffDelays(n) &&
    CountOf(trace, KDisconnect) == CountOf(trace, KLinked) && WritesOf(op, trace, n)
  }

  /** One more attempt `t` after `n` retried ones: the trace is complete, or retries once more. */
  lemma Extend(trace: seq<Event>, t: seq<Event>, n: nat, viaHint: bool, op: Op)
    requires Retrying(trace, n, viaHint, op) && n < MAX_RETRIES
    requires CountOf(t, KConnect) == 1 && Hinted(t, viaHint) && Backoffs(t) == []
    requires CountOf(t, KDisconnect) == CountOf(t, KLinked) && WritesOf(op, t, 1)
    ensures Executed(trace + t, viaHint, op) && CountOf(trace + t, KConnect) == n + 1
    ensures CountOf(trace + t, KLinked) == CountOf(trace, KLinked) + CountOf(t, KLinked)
    ensures CountOf(trace + t, KGatt) == CountOf(trace, KGatt) + CountOf(t, KGatt)
    ensures CountOf(trace + t, KWrite) == CountOf(trace, KWrite) + CountOf(t, KWrite)
    ensures n + 1 < MAX_RETRIES ==> Retrying(Snoc(trace + t, Backoff(2000 * (n + 1))), n + 1, viaHint, op)
  {
    Concat(trace, t);
    ConcatShapes(trace, t, viaHint, if op.CommandOp? then op.payload else []);
    var u := Snoc(trace + t, Backoff(2000 * (n + 1)));
    ConcatShapes(trace + t, [Backoff(2000 * (n + 1))], viaHint, if op.CommandOp? then op.payload else []);
  }

  /** A retried attempt followed by its backoff sleep. */
  lemma RetriedAttempt(trace: seq<Event>, t: seq<Event>, attempt: nat, viaHint: bool, op: Op)
    requires 1 <= attempt < MAX_RETRIES && Retrying(trace, attempt - 1, viaHint, op)
    requires CountOf(t, KConnect) == 1 && Hinted(t, viaHint) && Backoffs(t) == []
    requires CountOf(t, KDisconnect) == CountOf(t, KLinked) && WritesOf(op, t, 1)
    ensures var u := Snoc(trace + t, Backoff(2000 * attempt));
      && Retrying(u, attempt, viaHint, op)
      && CountOf(u, KLinked) == CountOf(trace, KLinked) + CountOf(t, KLinked)
      && CountOf(u, KGatt) == CountOf(trace, KGatt) + CountOf(t, KGatt)
      && CountOf(u, KWrite) == CountOf(trace, KWrite) + CountOf(t, KWrite)
  {
    Extend(trace, t, attempt - 1, viaHint, op);
  }

  /**
   * One iteration of `_execute`'s retry loop, attempt number `attempt`: a
   * connection, then, when it failed with a retried error and was not the last
   * attempt, the backoff sleep of `2.0 * attempt` seconds.
   */
  method RetryStep(address: string, trace: seq<Event>, attempt: nat, viaHint: bool, links: seq<LinkReply>,
                   gatt: seq<GattReply>, pos: nat, op: Op)
    returns (a: Attempt<OpResult>, next: nat, after: seq<Event>)
    requires 1 <= attempt <= MAX_RETRIES && Retrying(trace, attempt - 1, viaHint, op)
    requires Pending(links, gatt, op, attempt) == Some(pos)
    ensures a == Raised(Transient) && attempt < MAX_RETRIES ==>
      Retrying(after, attempt, viaHint, op) && Pending(links, gatt, op, attempt + 1) == Some(next)
    ensures a != Raised(Transient) || attempt == MAX_RETRIES ==>
      && Executed(after, viaHint, op) && CountOf(after, KConnect) == attempt
      && |Attempts(links, gatt, op)| == attempt
      && Result(address, Attempts(links, gatt, op)) ==
           match a
           case Returned(v) => Value(v)
           case Raised(f) => if f == Fatal then Failed(Unexpected) else Failed(ConnectionError(address))
    ensures a.Returned? ==> Sound(gatt, op, a.value)
    ensures LinkAt(links, attempt - 1).LinkFailed? ==>
      a == Raised(LinkAt(links, attempt - 1).fault) && CountOf(after, KLinked) == CountOf(trace, KLinked) &&
      CountOf(after, KGatt) == CountOf(trace, KGatt)
    ensures trace == [] && LinkAt(links, attempt - 1) == LinkFailed(Fatal) ==> after == [Connect(viaHint, false)]
    ensures LinkAt(links, attempt - 1) == Linked(true) && op.CommandOp? && PreludeOk(gatt, pos) &&
            PreStatus(gatt, pos).valveOpen == op.expectOpen ==>
      a == Returned(VerdictResult(Confirmed(PreStatus(gatt, pos)))) && CountOf(after, KWrite) == CountOf(trace, KWrite)
  {
    var t;
    a, next, t := Connection(viaHint, LinkAt(links, attempt - 1), gatt, pos, op);
    Advance(address, links, gatt, op, attempt, pos);
    if a == Raised(Transient) && attempt < MAX_RETRIES {
      RetriedAttempt(trace, t, attempt, viaHint, op);
      after := Snoc(trace + t, Backoff(2000 * attempt));
    } else {
      Extend(trace, t, attempt - 1, viaHint, op);
      after := trace + t;
    }
  }

  /**
   * `_execute`: up to MAX_RETRIES attempts, each connecting (through the cached
   * device hint when there is one), checking the link is live, running `op` and
   * always disconnecting a client it got; a retried failure sleeps
   * `2.0 * attempt` seconds unless it was the last attempt.
   */
  method Execute(address: string, viaHint: bool, links: seq<LinkReply>, gatt: seq<GattReply>, op: Op)
    returns (r: Outcome<OpResult>, trace: seq<Event>)
    ensures Executed(trace, viaHint, op)
    ensures r.Value? ==> Sound(gatt, op, r.value)
    ensures r.Failed? && r.error.ConnectionError? ==>
      r.error.address == address && CountOf(trace, KConnect) == MAX_RETRIES
    ensures LinksAllFail(links) ==>
      r == Failed(ConnectionError(address)) && CountOf(trace, KLinked) == 0 && CountOf(trace, KGatt) == 0
    ensures LinkAt(links, 0) == LinkFailed(Fatal) ==> r == Failed(Unexpected) && trace == [Connect(viaHint, false)]
    ensures LinkAt(links, 0) == Linked(true) && op.CommandOp? && PreludeOk(gatt, 0) &&
            PreStatus(gatt, 0).valveOpen == op.expectOpen ==>
      r == Value(VerdictResult(Confirmed(PreStatus(gatt, 0)))) && CountOf(trace, KWrite) == 0
    ensures r == Result(address, Attempts(links, gatt, op))
    ensures CountOf(trace, KConnect) == |Attempts(links, gatt, op)|
  {
    trace := [];
    var pos := 0;
    var attempt := 1;
    while attempt <= MAX_RETRIES
      invariant 1 <= attempt <= MAX_RETRIES + 1
      invariant attempt <= MAX_RETRIES ==> Retrying(trace, attempt - 1, viaHint, op)
      invariant attempt > MAX_RETRIES ==> Executed(trace, viaHint, op) && CountOf(trace, KConnect) == MAX_RETRIES
      invariant LinksAllFail(links) ==> CountOf(trace, KLinked) == 0 && CountOf(trace, KGatt) == 0
      invariant attempt == 1 ==> trace == [] && pos == 0
      invariant attempt > 1 ==> LinkAt(links, 0) != LinkFailed(Fatal)
      invariant attempt <= MAX_RETRIES ==> Pending(links, gatt, op, attempt) == Some(pos)
      invariant attempt > MAX_RETRIES ==>
        |Attempts(links, gatt, op)| == MAX_RETRIES && Result(address, Attempts(links, gatt, op)) == Failed(ConnectionError(address))
    {
      var a;
      a, pos, trace := RetryStep(address, trace, attempt, viaHint, links, gatt, pos, op);
      match a
      case Returned(v) =>
        r := Value(v);
        return;
      case Raised(f) =>
        if f == Fatal {
          r := Failed(Unexpected);
          return;
        }
      attempt := attempt + 1;
    }
    r := Failed(ConnectionError(address));
  }

  // ---- the device object ----

  /** The identity hint Home Assistant's Bluetooth scanner hands over. */
  datatype BleDevice = BleDevice(address: string)

  class GalconDevice {
    const address: string
    var bleDevice: Option<BleDevice>

    constructor (address: string)
      ensures this.address == address && bleDevice == None
    {
      this.address := address;
      bleDevice := None;
    }

    /** `set_ble_device` */
    method SetBleDevice(device: BleDevice)
      modifies this
      ensures bleDevice == Some(device)
    {
      bleDevice := Some(device);
    }

    /** `get_status`: wake and read under the retry executor; never writes a command. */
    method GetStatus(links: seq<LinkReply>, gatt: seq<GattReply>) returns (r: Outcome<GalconStatus>, trace: seq<Event>)
      ensures 1 <= CountOf(trace, KConnect) <= MAX_RETRIES
      ensures CountOf(trace, KWrite) == 0
      ensures CountOf(trace, KDisconnect) == CountOf(trace, KLinked)
      ensures r.Value? ==> ReadBack(gatt, r.value)
      ensures r.Failed? && r.error.ConnectionError? ==> CountOf(trace, KConnect) == MAX_RETRIES
      ensures LinksAllFail(links) ==> r == Failed(ConnectionError(address))
      ensures Result(address, Attempts(links, gatt, ReadOp)) ==
        if r.Value? then Value(StatusResult(r.value)) else Failed(r.error)
      ensures LinkAt(links, 0) == Linked(true) && PreludeOk(gatt, 0) ==> r == Value(PreStatus(gatt, 0))
    {
      if LinkAt(links, 0) == Linked(true) && PreludeOk(gatt, 0) {
        LiveReadReturnsStatus(address, links, gatt);
      }
      var o;
      o, trace := Execute(address, bleDevice.Some?, links, gatt, ReadOp);
      r := if o.Value? then Value(o.value.status) else Failed(o.error);
    }

    /**
     * `open_valve`: the verified command with OpenPayload(hours, minutes, seconds),
     * expecting the valve open.
     */
    method OpenValve(hours: int, minutes: int, seconds: int, links: seq<LinkReply>, gatt: seq<GattReply>)
      returns (r: Outcome<Verdict>, trace: seq<Event>)
      ensures 1 <= CountOf(trace, KConnect) <= MAX_RETRIES
      ensures CountOf(trace, KWrite) <= MAX_RETRIES * COMMAND_VERIFY_ATTEMPTS
      ensures WritesOnly(trace, OpenPayload(hours, minutes, seconds))
      ensures CountOf(trace, KDisconnect) == CountOf(trace, KLinked)
      ensures r.Value? && r.value.Confirmed? ==> r.value.status.valveOpen && ReadBack(gatt, r.value.status)
      ensures LinkAt(links, 0) == Linked(true) && PreludeOk(gatt, 0) && PreStatus(gatt, 0).valveOpen ==>
        r == Value(Confirmed(PreStatus(gatt, 0))) && CountOf(trace, KWrite) == 0
      ensures Result(address, Attempts(links, gatt, CommandOp(OpenPayload(hours, minutes, seconds), true))) ==
        if r.Value? then Value(VerdictResult(r.value)) else Failed(r.error)
      ensures LinkAt(links, 0) == Linked(true) && PreludeOk(gatt, 0) && !PreStatus(gatt, 0).valveOpen ==>
        forall j | 0 <= j < COMMAND_VERIFY_ATTEMPTS && CommandRound(gatt, 0, true, j).Confirm? &&
                   (forall i :: 0 <= i < j ==> CommandRound(gatt, 0, true, i).Continue?) ::
          r == Value(Confirmed(CommandRound(gatt, 0, true, j).status))
    {
      var payload := OpenPayload(hours, minutes, seconds);
      forall j | LinkAt(links, 0) == Linked(true) && PreludeOk(gatt, 0) && !PreStatus(gatt, 0).valveOpen &&
                 0 <= j < COMMAND_VERIFY_ATTEMPTS && CommandRound(gatt, 0, true, j).Confirm? &&
                 (forall i :: 0 <= i < j ==> CommandRound(gatt, 0, true, i).Continue?)
        ensures Result(address, Attempts(links, gatt, CommandOp(payload, true))) ==
          Value(VerdictResult(Confirmed(CommandRound(gatt, 0, true, j).status)))
      {
        LiveCommandConfirms(address, links, gatt, payload, true, j);
      }
      var o;
      o, trace := Execute(address, bleDevice.Some?, links, gatt, CommandOp(payload, true));
      r := if o.Value? then Value(o.value.verdict) else Failed(o.error);
    }

    /** `close_valve`: the verified command with CMD_CLOSE_VALVE, expecting the valve closed. */
    method CloseValve(links: seq<LinkReply>, gatt: seq<GattReply>) returns (r: Outcome<Verdict>, trace: seq<Event>)
      ensures 1 <= CountOf(trace, KConnect) <= MAX_RETRIES
      ensures CountOf(trace, KWrite) <= MAX_RETRIES * COMMAND_VERIFY_ATTEMPTS
      ensures WritesOnly(trace, CMD_CLOSE_VALVE)
      ensures CountOf(trace, KDisconnect) == CountOf(trace, KLinked)
      ensures r.Value? && r.value.Confirmed? ==> !r.value.status.valveOpen && ReadBack(gatt, r.value.status)
      ensures LinkAt(links, 0) == Linked(true) && PreludeOk(gatt, 0) && !PreStatus(gatt, 0).valveOpen ==>
        r == Value(Confirmed(PreStatus(gatt, 0))) && CountOf(trace, KWrite) == 0
      ensures Result(address, Attempts(links, gatt, CommandOp(CMD_CLOSE_VALVE, false))) ==
        if r.Value? then Value(VerdictResult(r.value)) else Failed(r.error)
      ensures LinkAt(links, 0) == Linked(true) && PreludeOk(gatt, 0) && PreStatus(gatt, 0).valveOpen ==>
        forall j | 0 <= j < COMMAND_VERIFY_ATTEMPTS && CommandRound(gatt, 0, false, j).Confirm? &&
                   (forall i :: 0 <= i < j ==> CommandRound(gatt, 0, false, i).Continue?) ::
          r == Value(Confirmed(CommandRound(gatt, 0, false, j).status))
    {
      forall j | LinkAt(links, 0) == Linked(true) && PreludeOk(gatt, 0) && PreStatus(gatt, 0).valveOpen &&
                 0 <= j < COMMAND_VERIFY_ATTEMPTS && CommandRound(gatt, 0, false, j).Confirm? &&
                 (forall i :: 0 <= i < j ==> CommandRound(gatt, 0, false, i).Continue?)
        ensures Result(address, Attempts(links, gatt, CommandOp(CMD_CLOSE_VALVE, false))) ==
          Value(VerdictResult(Confirmed(CommandRound(gatt, 0, false, j).status)))
      {
        LiveCommandConfirms(address, links, gatt, CMD_CLOSE_VALVE, false, j);
      }
      var o;
      o, trace := Execute(address, bleDevice.Some?, links, gatt, CommandOp(CMD_CLOSE_VALVE, false));
      r := if o.Value? then Value(o.value.verdict) else Failed(o.error);
    }
  }
}
