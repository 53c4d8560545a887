/**
 * One bounded first-in-first-out queue between a single producer thread and a
 * single consumer thread, at the granularity of the queue's atomic operations.
 *
 * The producer is either `Process::addPacketCallback` (import queue) or
 * `DataLinkClientImpl::enqueue` (export queue): it samples the size, and while
 * the queue is full it bumps a counter and pops the oldest packet, and finally
 * it tries to push.  The consumer may pop between any two of those operations.
 */
module BoundedChannel {
  import opened Sequences

  /** Who removed a packet from the queue. */
  datatype Removal<P> = Evicted(packet: P) | Taken(packet: P)

  /** The operation the producer will perform next, with the packet it is carrying. */
  datatype Producer<P> =
    | Idle
    | SizeTest(packet: P)
    | LoopTest(packet: P)
    | Bump(packet: P)
    | TryPop(packet: P)
    | TryPush(packet: P)

  /** `pushed`, `removed` and `misses` record the history; the other fields are the program's. */
  datatype Channel<P> = Channel(
    capacity: nat,
    leaveLoopOnMiss: bool,  // the import producer breaks out of its loop when a pop finds nothing
    items: seq<P>,
    producer: Producer<P>,
    bumps: nat,
    rejects: nat,
    pushed: seq<P>,
    removed: seq<Removal<P>>,
    misses: nat)

  datatype Action<P> = Offer(packet: P) | Produce | Consume

  function Empty<P>(capacity: nat, leaveLoopOnMiss: bool): Channel<P> {
    Channel(capacity, leaveLoopOnMiss, [], Idle, 0, 0, [], [], 0)
  }

  predicate Full<P>(c: Channel<P>) {
    |c.items| >= c.capacity
  }

  /** One atomic operation of the producer. */
  function ProducerStep<P>(c: Channel<P>): Channel<P> {
    match c.producer
    case Idle => c
    case SizeTest(p) => c.(producer := if Full(c) then LoopTest(p) else TryPush(p))
    case LoopTest(p) => c.(producer := if Full(c) then Bump(p) else TryPush(p))
    case Bump(p) => c.(bumps := c.bumps + 1, producer := TryPop(p))
    case TryPop(p) =>
      if c.items == [] then
        c.(misses := c.misses + 1, producer := if c.leaveLoopOnMiss then TryPush(p) else LoopTest(p))
      else
        c.(items := c.items[1..], removed := c.removed + [Evicted(c.items[0])], producer := LoopTest(p))
    case TryPush(p) =>
      if Full(c) then
        c.(rejects := c.rejects + 1, producer := Idle)
      else
        c.(items := c.items + [p], pushed := c.pushed + [p], producer := Idle)
  }

  /** Every schedule is a sequence of actions; an action that is not enabled changes nothing. */
  function Step<P>(c: Channel<P>, action: Action<P>): Channel<P> {
    match action
    case Offer(p) => if c.producer.Idle? then c.(producer := SizeTest(p)) else c
    case Produce => ProducerStep(c)
    case Consume =>
      if c.items == [] then c
      else c.(items := c.items[1..], removed := c.removed + [Taken(c.items[0])])
  }

  function Exec<P>(c: Channel<P>, schedule: seq<Action<P>>): Channel<P> {
    if schedule == [] then c
    else Step(Exec(c, schedule[..|schedule| - 1]), schedule[|schedule| - 1])
  }

  // What the removal history says.

  function Packets<P>(removed: seq<Removal<P>>): seq<P> {
    if removed == [] then []
    else Packets(removed[..|removed| - 1]) + [removed[|removed| - 1].packet]
  }

  function TakenOf<P>(removed: seq<Removal<P>>): seq<P> {
    if removed == [] then []
    else
      var last := removed[|removed| - 1];
      TakenOf(removed[..|removed| - 1]) + if last.Taken? then [last.packet] else []
  }

  function EvictedOf<P>(removed: seq<Removal<P>>): seq<P> {
    if removed == [] then []
    else
      var last := removed[|removed| - 1];
      EvictedOf(removed[..|removed| - 1]) + if last.Evicted? then [last.packet] else []
  }

  function InFlight<P>(c: Channel<P>): seq<P> {
    if c.producer.Idle? then [] else [c.producer.packet]
  }

  lemma RemovalAppended<P>(removed: seq<Removal<P>>, r: Removal<P>)
    ensures Packets(removed + [r]) == Packets(removed) + [r.packet]
    ensures TakenOf(removed + [r]) == TakenOf(removed) + if r.Taken? then [r.packet] else []
    ensures EvictedOf(removed + [r]) == EvictedOf(removed) + if r.Evicted? then [r.packet] else []
  {
    assert (removed + [r])[..|removed|] == removed;
  }

  /** The consumer sees, in queue order, what left the queue and was not evicted. */
  lemma {:induction false} TakenIsSubsequence<P(!new)>(removed: seq<Removal<P>>)
    ensures IsSubsequence(TakenOf(removed), Packets(removed))
    ensures multiset(Packets(removed)) == multiset(TakenOf(removed)) + multiset(EvictedOf(removed))
  {
    if removed == [] {
      assert Embeds([], TakenOf(removed), Packets(removed));
    } else {
      var before, last := removed[..|removed| - 1], removed[|removed| - 1];
      TakenIsSubsequence(before);
      SubsequenceGrows(TakenOf(before), Packets(before), last.packet);
      if last.Evicted? {
        assert TakenOf(removed) == TakenOf(before);
      } else {
        assert EvictedOf(removed) == EvictedOf(before);
      }
    }
  }

  // Safety over every schedule.

  ghost predicate Inv<P>(c: Channel<P>) {
    && 0 < c.capacity
    && |c.items| <= c.capacity
    && c.pushed == Packets(c.removed) + c.items
    && c.rejects == 0
    && (c.producer.TryPush? ==> |c.items| < c.capacity)
    && c.bumps == |EvictedOf(c.removed)| + c.misses + if c.producer.TryPop? then 1 else 0
  }

  /** Moving the oldest item to the removal history keeps the push history intact. */
  lemma RemovalKeepsOrder<P>(c: Channel<P>, r: Removal<P>)
    requires c.items != [] && r.packet == c.items[0] && c.pushed == Packets(c.removed) + c.items
    ensures c.pushed == Packets(c.removed + [r]) + c.items[1..]
    ensures |EvictedOf(c.removed + [r])| == |EvictedOf(c.removed)| + if r.Evicted? then 1 else 0
  {
    RemovalAppended(c.removed, r);
    assert c.items == [c.items[0]] + c.items[1..];
  }

  lemma StepKeepsInv<P>(c: Channel<P>, action: Action<P>)
    requires Inv(c)
    ensures Inv(Step(c, action))
  {
    hide Packets, EvictedOf;
    if c.items != [] {
      RemovalKeepsOrder(c, Evicted(c.items[0]));
      RemovalKeepsOrder(c, Taken(c.items[0]));
    }
  }

  /** The packet in the producer's hands is pushed and never lost. */
  lemma ProduceKeepsOffered<P>(c: Channel<P>)
    requires Inv(c)
    ensures var c' := Step(c, Produce);
            && c'.pushed + InFlight(c') == c.pushed + InFlight(c)
            && TakenOf(c'.removed) == TakenOf(c.removed)
  {
    if c.items != [] {
      RemovalAppended(c.removed, Evicted(c.items[0]));
    }
  }

  /**
   * Whatever the interleaving: the push history is the removal history followed
   * by the contents, the queue never exceeds its capacity, no push is ever
   * rejected, and the pop counter is the number of evictions plus the pops that
   * found the queue already drained (plus one while a pop is pending).
   */
  lemma {:induction false} ChannelIsSafe<P>(capacity: nat, leaveLoopOnMiss: bool, schedule: seq<Action<P>>)
    requires 0 < capacity
    ensures Inv(Exec(Empty(capacity, leaveLoopOnMiss), schedule))
  {
    if schedule != [] {
      ChannelIsSafe(capacity, leaveLoopOnMiss, schedule[..|schedule| - 1]);
      StepKeepsInv(Exec(Empty(capacity, leaveLoopOnMiss), schedule[..|schedule| - 1]), schedule[|schedule| - 1]);
    }
  }

  /**
   * The pop counter is not the number of evicted packets: with capacity one the
   * consumer can empty the queue between the size test and the pop.
   */
  lemma PopCounterOvercounts<P>(p: P, q: P, leaveLoopOnMiss: bool)
    ensures var c := Exec(Empty(1, leaveLoopOnMiss),
                          [Offer(p), Produce, Produce, Offer(q), Produce, Produce, Produce, Consume, Produce]);
            c.bumps == 1 && c.removed == [Taken(p)] && c.misses == 1
  {
    hide Packets, EvictedOf, TakenOf, Exec;
    var c0 := Empty<P>(1, leaveLoopOnMiss);
    var first: seq<Action<P>>, second: seq<Action<P>>, third: seq<Action<P>> :=
      [Offer(p), Produce, Produce], [Offer(q), Produce, Produce], [Produce, Consume, Produce];
    ThreeSteps(c0, first);
    var c3 := Exec(c0, first);
    assert c3.items == [p] && c3.producer == Idle;
    ThreeSteps(c3, second);
    var c6 := Exec(c3, second);
    assert c6.producer == Bump(q) && c6.items == [p];
    ThreeSteps(c6, third);
    ExecConcat(c0, first, second);
    ExecConcat(c0, first + second, third);
    assert first + second + third ==
           [Offer(p), Produce, Produce, Offer(q), Produce, Produce, Produce, Consume, Produce];
  }

  lemma {:induction false} ExecConcat<P>(c: Channel<P>, s: seq<Action<P>>, t: seq<Action<P>>)
    ensures Exec(c, s + t) == Exec(Exec(c, s), t)
  {
    if t == [] {
      assert s + t == s;
    } else {
      ExecConcat(c, s, t[..|t| - 1]);
      assert (s + t)[..|s + t| - 1] == s + t[..|t| - 1];
    }
  }

  lemma ThreeSteps<P>(c: Channel<P>, s: seq<Action<P>>)
    requires |s| == 3
    ensures Exec(c, s) == Step(Step(Step(c, s[0]), s[1]), s[2])
  {
    hide Step;
    assert s[..2][..1] == s[..1] && s[..1][..0] == [];
    assert Exec(c, s[..1]) == Step(Exec(c, s[..0]), s[0]);
    assert Exec(c, s[..2]) == Step(Exec(c, s[..1]), s[1]);
  }

  // The eviction loop: how long it runs and how much it drops.

  /** A bound on the number of producer operations left in the current call. */
  function Rank<P>(c: Channel<P>): nat {
    match c.producer
    case Idle => 0
    case SizeTest(_) => 6
    case LoopTest(_) => if Full(c) then 5 else 2
    case Bump(_) => 4
    case TryPop(_) => 3
    case TryPush(_) => 1
  }

  /** Evictions so far, plus the one the current call may still perform. */
  function EvictionBudget<P>(c: Channel<P>): nat {
    |EvictedOf(c.removed)| +
    match c.producer
    case Idle => 0
    case SizeTest(_) => if Full(c) then 1 else 0
    case LoopTest(_) => if Full(c) then 1 else 0
    case Bump(_) => 1
    case TryPop(_) => 1
    case TryPush(_) => 0
  }

  lemma StepProgress<P>(c: Channel<P>, action: Action<P>)
    requires Inv(c) && !action.Offer?
    ensures Rank(Step(c, action)) <= Rank(c)
    ensures action.Produce? && !c.producer.Idle? ==> Rank(Step(c, action)) < Rank(c)
    ensures EvictionBudget(Step(c, action)) <= EvictionBudget(c)
  {
    hide Packets, EvictedOf, TakenOf;
    if c.items != [] {
      RemovalAppended(c.removed, Evicted(c.items[0]));
      RemovalAppended(c.removed, Taken(c.items[0]));
    }
  }

  function ProduceCount<P>(schedule: seq<Action<P>>): nat {
    if schedule == [] then 0
    else ProduceCount(schedule[..|schedule| - 1]) + if schedule[|schedule| - 1].Produce? then 1 else 0
  }

  ghost predicate NoOffer<P(!new)>(schedule: seq<Action<P>>) {
    forall a :: a in schedule ==> !a.Offer?
  }

  lemma {:induction false} CallProgress<P(!new)>(c: Channel<P>, schedule: seq<Action<P>>)
    requires Inv(c) && NoOffer(schedule)
    ensures Inv(Exec(c, schedule))
    ensures Exec(c, schedule).producer.Idle? || Rank(Exec(c, schedule)) + ProduceCount(schedule) <= Rank(c)
    ensures EvictionBudget(Exec(c, schedule)) <= EvictionBudget(c)
  {
    if schedule != [] {
      var before := schedule[..|schedule| - 1];
      CallProgress(c, before);
      StepKeepsInv(Exec(c, before), schedule[|schedule| - 1]);
      StepProgress(Exec(c, before), schedule[|schedule| - 1]);
    }
  }

  /**
   * From any reachable state and under any interference by the consumer, one
   * call finishes within six queue operations, evicts at most one packet, and
   * evicts nothing unless the queue was full when the call began.
   */
  lemma EnqueueIsBounded<P(!new)>(c: Channel<P>, p: P, schedule: seq<Action<P>>)
    requires Inv(c) && c.producer.Idle? && NoOffer(schedule)
    ensures var after := Exec(Step(c, Offer(p)), schedule);
            && (ProduceCount(schedule) >= 6 ==> after.producer.Idle?)
            && |EvictedOf(after.removed)| <= |EvictedOf(c.removed)| + 1
            && (!Full(c) ==> |EvictedOf(after.removed)| <= |EvictedOf(c.removed)|)
  {
    StepKeepsInv(c, Offer(p));
    CallProgress(Step(c, Offer(p)), schedule);
    assert forall x: Channel<P> :: Rank(x) == 0 ==> x.producer.Idle?;
  }

  /** Left alone, a call on a full queue replaces exactly the oldest packet by the new one. */
  lemma UndisturbedEnqueue<P>(c: Channel<P>, p: P)
    requires Inv(c) && c.producer.Idle?
    ensures var after := Exec(Step(c, Offer(p)), [Produce, Produce, Produce, Produce, Produce, Produce]);
            && after.producer.Idle?
            && after.items == (if Full(c) then c.items[1..] else c.items) + [p]
            && after.pushed == c.pushed + [p]
            && TakenOf(after.removed) == TakenOf(c.removed)
            && EvictedOf(after.removed) == EvictedOf(c.removed) + if Full(c) then [c.items[0]] else []
  {
    var s: seq<Action<P>> := [Produce, Produce, Produce, Produce, Produce, Produce];
    var b := Step(c, Offer(p));
    forall k | 0 <= k < 6 ensures Exec(b, s[..k + 1]) == ProducerStep(Exec(b, s[..k])) {
      assert s[..k + 1][..k] == s[..k];
    }
    assert s[..0] == [] && s[..6] == s;
    assert Exec(b, s[..1]) == ProducerStep(b);
    assert Exec(b, s[..2]) == ProducerStep(ProducerStep(b));
    var b3 := Exec(b, s[..3]);
    if Full(c) {
      RemovalAppended(c.removed, Evicted(c.items[0]));
      assert b3.producer == TryPop(p);
      var b4 := Exec(b, s[..4]);
      assert b4.producer == LoopTest(p) && b4.items == c.items[1..];
      var b5 := Exec(b, s[..5]);
      assert b5.producer == TryPush(p);
    } else {
      assert b3.producer == Idle;
      assert Exec(b, s[..4]) == b3;
      assert Exec(b, s[..5]) == b3;
    }
  }
}
