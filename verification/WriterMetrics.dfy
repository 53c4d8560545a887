/**
 * The counters that all writers share, as an interleaved transition system over
 * any number of writers, and as the object one writer increments.
 */
module WriterMetrics {
  /** What one writer does to the counters: a `dl_write` returns, its outcome is counted, a packet is rejected. */
  datatype Step = Attempt(client: nat, ok: bool) | Count(client: nat) | Reject(client: nat)

  /**
   * The three counters; the history of write outcomes of each writer; whether its
   * last outcome is still to be counted; and how many packets it rejected.
   */
  datatype Shared = Shared(
    written: nat, failed: nat, invalid: nat,
    outcomes: seq<seq<bool>>, pending: seq<bool>, rejected: seq<nat>)

  function Start(clients: nat): Shared {
    Shared(0, 0, 0, seq(clients, _ => []), seq(clients, _ => false), seq(clients, _ => 0))
  }

  ghost predicate WellFormed(s: Shared) {
    && |s.pending| == |s.outcomes| && |s.rejected| == |s.outcomes|
    && forall i :: 0 <= i < |s.outcomes| && s.pending[i] ==> s.outcomes[i] != []
  }

  /** A writer writes, then counts; a step that is not its next one changes nothing. */
  function Advance(s: Shared, step: Step): (after: Shared)
    requires WellFormed(s)
    ensures WellFormed(after) && |after.outcomes| == |s.outcomes|
  {
    var i := step.client;
    if i >= |s.outcomes| then s
    else
      match step
      case Attempt(_, ok) =>
        if s.pending[i] then s
        else s.(outcomes := s.outcomes[i := s.outcomes[i] + [ok]], pending := s.pending[i := true])
      case Count(_) =>
        if !s.pending[i] then s
        else if s.outcomes[i][|s.outcomes[i]| - 1] then s.(written := s.written + 1, pending := s.pending[i := false])
        else s.(failed := s.failed + 1, pending := s.pending[i := false])
      case Reject(_) =>
        if s.pending[i] then s
        else s.(invalid := s.invalid + 1, rejected := s.rejected[i := s.rejected[i] + 1])
  }

  function Run(clients: nat, schedule: seq<Step>): (s: Shared)
    ensures WellFormed(s) && |s.outcomes| == clients
  {
    if schedule == [] then Start(clients)
    else Advance(Run(clients, schedule[..|schedule| - 1]), schedule[|schedule| - 1])
  }

  /** A writer that can write, count or reject does so, in its own history and the one counter concerned. */
  lemma StepsTakeEffect(s: Shared, i: nat, ok: bool)
    requires WellFormed(s) && i < |s.outcomes|
    ensures !s.pending[i] ==>
              var after := Advance(s, Attempt(i, ok));
              && after.outcomes == s.outcomes[i := s.outcomes[i] + [ok]] && after.pending == s.pending[i := true]
              && after.written == s.written && after.failed == s.failed && after.invalid == s.invalid
    ensures s.pending[i] && s.outcomes[i][|s.outcomes[i]| - 1] == ok ==>
              var after := Advance(s, Count(i));
              && after.written == s.written + (if ok then 1 else 0) && after.failed == s.failed + (if ok then 0 else 1)
              && after.pending == s.pending[i := false] && after.outcomes == s.outcomes && after.invalid == s.invalid
    ensures !s.pending[i] ==>
              var after := Advance(s, Reject(i));
              && after.invalid == s.invalid + 1 && after.rejected == s.rejected[i := s.rejected[i] + 1]
              && after.written == s.written && after.failed == s.failed && after.outcomes == s.outcomes
  {
  }

  // Sums over the writers.

  function CountOf(outcomes: seq<bool>, ok: bool): nat {
    if outcomes == [] then 0
    else CountOf(outcomes[..|outcomes| - 1], ok) + if outcomes[|outcomes| - 1] == ok then 1 else 0
  }

  function Sum(xs: seq<nat>): nat {
    if xs == [] then 0 else Sum(xs[..|xs| - 1]) + xs[|xs| - 1]
  }

  lemma {:induction false} SumUpdated(xs: seq<nat>, i: nat, x: nat)
    requires i < |xs|
    ensures Sum(xs[i := x]) == Sum(xs) - xs[i] + x
  {
    var init := xs[..|xs| - 1];
    if i == |xs| - 1 {
      assert xs[i := x][..|xs| - 1] == init;
    } else {
      SumUpdated(init, i, x);
      assert xs[i := x][..|xs| - 1] == init[i := x];
    }
  }

  lemma {:induction false} SumOfZeros(xs: seq<nat>)
    requires forall i :: 0 <= i < |xs| ==> xs[i] == 0
    ensures Sum(xs) == 0
  {
    if xs != [] {
      SumOfZeros(xs[..|xs| - 1]);
    }
  }

  lemma {:induction false} EveryOutcomeCounts(outcomes: seq<bool>)
    ensures CountOf(outcomes, true) + CountOf(outcomes, false) == |outcomes|
  {
    if outcomes != [] {
      EveryOutcomeCounts(outcomes[..|outcomes| - 1]);
    }
  }

  lemma CountAppended(outcomes: seq<bool>, last: bool, ok: bool)
    ensures CountOf(outcomes + [last], ok) == CountOf(outcomes, ok) + if last == ok then 1 else 0
  {
    assert (outcomes + [last])[..|outcomes|] == outcomes;
  }

  /** The outcomes of a writer that were counted: all but the one that is pending. */
  function Counted(s: Shared, i: nat): seq<bool>
    requires WellFormed(s) && i < |s.outcomes|
  {
    if s.pending[i] then s.outcomes[i][..|s.outcomes[i]| - 1] else s.outcomes[i]
  }

  /** Per writer, how many of its counted outcomes are `ok`. */
  function Tallies(s: Shared, ok: bool): seq<nat>
    requires WellFormed(s)
  {
    seq(|s.outcomes|, i requires 0 <= i < |s.outcomes| => CountOf(Counted(s, i), ok))
  }

  /** Per writer, how many writes it attempted. */
  function Attempts(s: Shared): seq<nat> {
    seq(|s.outcomes|, i requires 0 <= i < |s.outcomes| => |s.outcomes[i]|)
  }

  ghost predicate CountersAgree(s: Shared)
    requires WellFormed(s)
  {
    && s.written == Sum(Tallies(s, true))
    && s.failed == Sum(Tallies(s, false))
    && s.invalid == Sum(s.rejected)
  }

  /** Attempting or rejecting leaves the counted outcomes as they were. */
  lemma TalliesKept(s: Shared, step: Step, ok: bool)
    requires WellFormed(s) && !step.Count?
    ensures Tallies(Advance(s, step), ok) == Tallies(s, ok)
  {
    var after, i := Advance(s, step), step.client;
    assert i < |s.outcomes| && after != s && step.Attempt? ==> after.outcomes[i][..|s.outcomes[i]|] == s.outcomes[i];
  }

  /** Counting adds one to the tally of the outcome's kind. */
  lemma TalliesMove(s: Shared, i: nat, ok: bool)
    requires WellFormed(s) && i < |s.outcomes| && s.pending[i]
    ensures Sum(Tallies(Advance(s, Count(i)), ok)) ==
            Sum(Tallies(s, ok)) + if s.outcomes[i][|s.outcomes[i]| - 1] == ok then 1 else 0
  {
    hide Sum, CountOf;
    var after, last := Advance(s, Count(i)), s.outcomes[i][|s.outcomes[i]| - 1];
    var more := if last == ok then 1 else 0;
    assert s.outcomes[i] == Counted(s, i) + [last];
    CountAppended(Counted(s, i), last, ok);
    assert Tallies(after, ok) == Tallies(s, ok)[i := Tallies(s, ok)[i] + more];
    SumUpdated(Tallies(s, ok), i, Tallies(s, ok)[i] + more);
  }

  lemma StepKeepsCounters(s: Shared, step: Step)
    requires WellFormed(s) && CountersAgree(s)
    ensures CountersAgree(Advance(s, step))
  {
    hide Tallies, Sum;
    var i := step.client;
    if !step.Count? {
      TalliesKept(s, step, true);
      TalliesKept(s, step, false);
    } else if i < |s.outcomes| && s.pending[i] {
      TalliesMove(s, i, true);
      TalliesMove(s, i, false);
    }
    if step.Reject? && i < |s.outcomes| {
      SumUpdated(s.rejected, i, s.rejected[i] + 1);
    }
  }

  /**
   * For any number of writers and every interleaving: each counter is the sum over
   * the writers of the outcomes of that kind they have counted.
   */
  lemma {:induction false} CountersAlwaysAgree(clients: nat, schedule: seq<Step>)
    ensures CountersAgree(Run(clients, schedule))
  {
    if schedule == [] {
      var s := Start(clients);
      SumOfZeros(Tallies(s, true));
      SumOfZeros(Tallies(s, false));
      SumOfZeros(s.rejected);
    } else {
      CountersAlwaysAgree(clients, schedule[..|schedule| - 1]);
      StepKeepsCounters(Run(clients, schedule[..|schedule| - 1]), schedule[|schedule| - 1]);
    }
  }

  /** The writes of the first n writers, split into counted successes, counted failures and pending ones. */
  lemma {:induction false} AttemptsSplit(s: Shared, n: nat)
    requires WellFormed(s) && n <= |s.outcomes|
    ensures Sum(Tallies(s, true)[..n]) + Sum(Tallies(s, false)[..n]) + CountOf(s.pending[..n], true) ==
            Sum(Attempts(s)[..n])
  {
    if n > 0 {
      AttemptsSplit(s, n - 1);
      EveryOutcomeCounts(Counted(s, n - 1));
      assert Tallies(s, true)[..n][..n - 1] == Tallies(s, true)[..n - 1];
      assert Tallies(s, false)[..n][..n - 1] == Tallies(s, false)[..n - 1];
      assert s.pending[..n][..n - 1] == s.pending[..n - 1];
      assert Attempts(s)[..n][..n - 1] == Attempts(s)[..n - 1];
    }
  }

  /**
   * Written plus failed is the number of writes attempted over all writers, less
   * the writers that are between a write and its increment.
   */
  lemma EveryAttemptIsCounted(clients: nat, schedule: seq<Step>)
    ensures var s := Run(clients, schedule);
            s.written + s.failed + CountOf(s.pending, true) == Sum(Attempts(s))
  {
    var s := Run(clients, schedule);
    CountersAlwaysAgree(clients, schedule);
    AttemptsSplit(s, clients);
    assert Tallies(s, true)[..clients] == Tallies(s, true) && Tallies(s, false)[..clients] == Tallies(s, false);
    assert s.pending[..clients] == s.pending && Attempts(s)[..clients] == Attempts(s);
  }

  // The object.

  /** One increment of a counter, with the write or the packet it is for. */
  datatype Increment = Sent(ok: bool) | Rejected

  /** What the increment of writer `client` does when nobody is between a write and its increment. */
  function Settle(s: Shared, client: nat, increment: Increment): Shared
    requires WellFormed(s) && client < |s.outcomes|
  {
    match increment
    case Sent(true) => s.(written := s.written + 1, outcomes := s.outcomes[client := s.outcomes[client] + [true]])
    case Sent(false) => s.(failed := s.failed + 1, outcomes := s.outcomes[client := s.outcomes[client] + [false]])
    case Rejected => s.(invalid := s.invalid + 1, rejected := s.rejected[client := s.rejected[client] + 1])
  }

  function StepsOf(client: nat, increment: Increment): seq<Step> {
    match increment
    case Sent(ok) => [Attempt(client, ok), Count(client)]
    case Rejected => [Reject(client)]
  }

  lemma SettleIsRun(clients: nat, schedule: seq<Step>, client: nat, increment: Increment)
    requires client < clients && !Run(clients, schedule).pending[client]
    ensures Run(clients, schedule + StepsOf(client, increment)) == Settle(Run(clients, schedule), client, increment)
  {
    var s := Run(clients, schedule);
    match increment
    case Sent(ok) =>
      var first := schedule + [Attempt(client, ok)];
      assert first[..|schedule|] == schedule;
      assert schedule + StepsOf(client, increment) == first + [Count(client)];
      assert (first + [Count(client)])[..|first|] == first;
      assert s.pending[client := true][client := false] == s.pending;
    case Rejected =>
      assert (schedule + [Reject(client)])[..|schedule|] == schedule;
  }

  /** The state after the increments that the writers other than `client` make. */
  function SettleOthers(s: Shared, client: nat, increments: seq<(nat, Increment)>): (after: Shared)
    requires WellFormed(s) && client < |s.outcomes| && forall i :: 0 <= i < |s.pending| ==> !s.pending[i]
    ensures WellFormed(after) && |after.outcomes| == |s.outcomes| && after.pending == s.pending
  {
    if increments == [] then s
    else
      var before := SettleOthers(s, client, increments[..|increments| - 1]);
      var (other, increment) := increments[|increments| - 1];
      if other < |s.outcomes| && other != client then Settle(before, other, increment) else before
  }

  /** Before each increment of one writer the others may make any number of theirs. */
  type Interference = nat -> seq<(nat, Increment)>

  /** `WriterMetricsSingleton` */
  class WriterMetrics {
    const clients: nat
    const interference: Interference
    var calls: nat
    var mPacketsWritten: nat
    var mFailedPacketsSent: nat
    var mInvalidPackets: nat
    /** The interleaving so far, and the state it leads to. */
    ghost var schedule: seq<Step>
    ghost var shared: Shared

    ghost predicate Valid()
      reads this
    {
      && shared == Run(clients, schedule)
      && (forall i :: 0 <= i < clients ==> !shared.pending[i])
      && mPacketsWritten == shared.written && mFailedPacketsSent == shared.failed && mInvalidPackets == shared.invalid
    }

    constructor (clients: nat, interference: Interference)
      ensures Valid() && this.clients == clients && schedule == []
    {
      this.clients, this.interference, calls := clients, interference, 0;
      mPacketsWritten, mFailedPacketsSent, mInvalidPackets := 0, 0, 0;
      schedule, shared := [], Run(clients, []);
    }

    /** Any writer's increment. */
    method Record(client: nat, increment: Increment)
      requires Valid() && client < clients
      modifies this
      ensures Valid() && shared == Settle(old(shared), client, increment) && calls == old(calls)
    {
      hide Run;
      SettleIsRun(clients, schedule, client, increment);
      match increment {
        case Sent(true) => mPacketsWritten := mPacketsWritten + 1;
        case Sent(false) => mFailedPacketsSent := mFailedPacketsSent + 1;
        case Rejected => mInvalidPackets := mInvalidPackets + 1;
      }
      schedule, shared := schedule + StepsOf(client, increment), Settle(shared, client, increment);
    }

    /** What the others do changes the histories of the others only. */
    method OthersIncrement(client: nat)
      requires Valid() && client < clients
      modifies this
      ensures Valid() && calls == old(calls) + 1
      ensures shared == SettleOthers(old(shared), client, interference(old(calls)))
      ensures shared.outcomes[client] == old(shared).outcomes[client]
      ensures shared.rejected[client] == old(shared).rejected[client]
    {
      hide Run;
      var increments := interference(calls);
      calls := calls + 1;
      for k := 0 to |increments|
        invariant Valid() && calls == old(calls) + 1
        invariant shared == SettleOthers(old(shared), client, increments[..k])
        invariant shared.outcomes[client] == old(shared).outcomes[client]
        invariant shared.rejected[client] == old(shared).rejected[client]
      {
        assert increments[..k + 1][..k] == increments[..k];
        var (other, increment) := increments[k];
        if other < clients && other != client {
          Record(other, increment);
        }
      }
      assert increments[..|increments|] == increments;
    }

    method IncrementPacketsWritten(client: nat)
      requires Valid() && client < clients
      modifies this
      ensures shared == Settle(SettleOthers(old(shared), client, interference(old(calls))), client, Sent(true))
      ensures Valid() && shared.outcomes[client] == old(shared).outcomes[client] + [true]
      ensures shared.rejected[client] == old(shared).rejected[client]
    {
      OthersIncrement(client);
      Record(client, Sent(true));
    }

    method IncrementFailedPacketsSent(client: nat)
      requires Valid() && client < clients
      modifies this
      ensures shared == Settle(SettleOthers(old(shared), client, interference(old(calls))), client, Sent(false))
      ensures Valid() && shared.outcomes[client] == old(shared).outcomes[client] + [false]
      ensures shared.rejected[client] == old(shared).rejected[client]
    {
      OthersIncrement(client);
      Record(client, Sent(false));
    }

    method IncrementInvalidPackets(client: nat)
      requires Valid() && client < clients
      modifies this
      ensures shared == Settle(SettleOthers(old(shared), client, interference(old(calls))), client, Rejected)
      ensures Valid() && shared.outcomes[client] == old(shared).outcomes[client]
      ensures shared.rejected[client] == old(shared).rejected[client] + 1
    {
      OthersIncrement(client);
      Record(client, Rejected);
    }

    /** What the counters of a valid object say about the writes of all writers. */
    lemma CountersSayWhatHappened()
      requires Valid()
      ensures mPacketsWritten + mFailedPacketsSent == Sum(Attempts(shared))
      ensures mPacketsWritten == Sum(Tallies(shared, true)) && mFailedPacketsSent == Sum(Tallies(shared, false))
      ensures mInvalidPackets == Sum(shared.rejected)
      ensures forall i, ok :: 0 <= i < clients ==> Tallies(shared, ok)[i] == CountOf(shared.outcomes[i], ok)
    {
      EveryAttemptIsCounted(clients, schedule);
      CountersAlwaysAgree(clients, schedule);
      NonePending(shared.pending);
    }
  }

  lemma {:induction false} NonePending(pending: seq<bool>)
    requires forall i :: 0 <= i < |pending| ==> !pending[i]
    ensures CountOf(pending, true) == 0
  {
    if pending != [] {
      NonePending(pending[..|pending| - 1]);
    }
  }
}
