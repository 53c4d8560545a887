/**
 * The whole store-and-forward pipeline as an interleaved transition system:
 * the SEEDLink reader produces into the import queue, the metrics thread
 * consumes it and fans every packet out to one export queue per writer, and each
 * writer consumes its own export queue.  A schedule is any sequence of actions.
 */
module Pipeline {
  import opened Sequences
  import opened BoundedChannel

  /**
   * The metrics thread: waiting for a packet, or offering `hand` to export queue
   * `next`.  `hand` is `None` once the packet was moved into an `enqueue` call;
   * `entered` says that the call on queue `next` has begun.
   */
  datatype Metrics<P> = Waiting | Fanning(hand: Hand<P>, next: nat, entered: bool)
  datatype Hand<P> = Holding(packet: P) | MovedFrom

  /** `arrived`, `handed` and `usedMovedFrom` are history; the rest is program state. */
  datatype State<P> = State(
    imports: Channel<P>,
    metrics: Metrics<P>,
    exports: seq<Channel<P>>,
    arrived: seq<P>,       // what SEEDLink delivered
    handed: seq<P>,        // what the metrics thread took from the import queue
    usedMovedFrom: bool)   // a moved-from packet was enqueued

  datatype Event<P> =
    | Arrive(packet: P)    // SEEDLink calls addPacketCallback
    | Reader               // one queue operation of addPacketCallback
    | MetricsPop           // the metrics thread's try_pop on the import queue
    | NextClient           // the fan-out loop enters enqueue, or ends
    | FanOut               // one queue operation of the enqueue call in progress
    | Writer(client: nat)  // a writer's try_pop on its export queue

  function Start<P>(importCapacity: nat, exportCapacities: seq<nat>): State<P> {
    State(Empty(importCapacity, true), Waiting,
          seq(|exportCapacities|, i requires 0 <= i < |exportCapacities| => Empty(exportCapacities[i], false)),
          [], [], false)
  }

  function Advance<P>(s: State<P>, event: Event<P>): State<P> {
    match event
    case Arrive(p) =>
      if s.imports.producer.Idle? then
        s.(arrived := s.arrived + [p], imports := Step(s.imports, Offer(p)))
      else
        s
    case Reader => s.(imports := Step(s.imports, Produce))
    case MetricsPop =>
      if s.metrics.Waiting? && s.imports.items != [] then
        s.(imports := Step(s.imports, Consume),
           handed := s.handed + [s.imports.items[0]],
           metrics := Fanning(Holding(s.imports.items[0]), 0, false))
      else
        s
    case NextClient =>
      if s.metrics.Waiting? || s.metrics.entered then s
      else if s.metrics.next >= |s.exports| then s.(metrics := Waiting)
      else if s.metrics.hand.MovedFrom? then s.(usedMovedFrom := true)
      else
        var i := s.metrics.next;
        var movePacket := |s.exports| == 1;
        s.(exports := s.exports[i := Step(s.exports[i], Offer(s.metrics.hand.packet))],
           metrics := Fanning(if movePacket then MovedFrom else s.metrics.hand, i, true))
    case FanOut =>
      if s.metrics.Waiting? || !s.metrics.entered || s.metrics.next >= |s.exports| then s
      else
        var i := s.metrics.next;
        var c := Step(s.exports[i], Produce);
        s.(exports := s.exports[i := c],
           metrics := if c.producer.Idle? then Fanning(s.metrics.hand, i + 1, false) else s.metrics)
    case Writer(i) =>
      if i < |s.exports| then s.(exports := s.exports[i := Step(s.exports[i], Consume)]) else s
  }

  function Run<P>(s: State<P>, events: seq<Event<P>>): State<P> {
    if events == [] then s
    else Advance(Run(s, events[..|events| - 1]), events[|events| - 1])
  }

  /** What writer `i` has dequeued so far. */
  function Dequeued<P>(s: State<P>, i: nat): seq<P>
    requires i < |s.exports|
  {
    TakenOf(s.exports[i].removed)
  }

  /** The packet the metrics thread holds that export queue `i` has not been offered yet. */
  function NotYetOffered<P>(s: State<P>, i: nat): seq<P> {
    if s.metrics.Fanning? && (s.metrics.next < i || (s.metrics.next == i && !s.metrics.entered)) && s.handed != [] then
      [s.handed[|s.handed| - 1]]
    else
      []
  }

  // The invariant.

  ghost predicate ImportInv<P>(s: State<P>) {
    && Inv(s.imports)
    && s.imports.pushed + InFlight(s.imports) == s.arrived
    && TakenOf(s.imports.removed) == s.handed
  }

  ghost predicate ExportInv<P>(s: State<P>, i: nat)
    requires i < |s.exports|
  {
    var c := s.exports[i];
    && Inv(c)
    && (c.producer.Idle? <==> !(s.metrics.Fanning? && s.metrics.next == i && s.metrics.entered))
    && c.pushed + InFlight(c) + NotYetOffered(s, i) == s.handed
  }

  ghost predicate HandInv<P>(s: State<P>) {
    s.metrics.Fanning? ==>
      && s.handed != []
      && s.metrics.next <= |s.exports|
      && (s.metrics.entered ==> s.metrics.next < |s.exports|)
      && (s.metrics.hand.Holding? ==> s.metrics.hand.packet == s.handed[|s.handed| - 1])
      && (s.metrics.hand.MovedFrom? ==> |s.exports| == 1 && (s.metrics.entered || s.metrics.next == 1))
  }

  ghost predicate PipelineInv<P>(s: State<P>) {
    && ImportInv(s)
    && HandInv(s)
    && !s.usedMovedFrom
    && forall i :: 0 <= i < |s.exports| ==> ExportInv(s, i)
  }

  lemma ArriveKeepsInv<P>(s: State<P>, p: P)
    requires PipelineInv(s)
    ensures PipelineInv(Advance(s, Arrive(p)))
  {
    hide Packets, TakenOf, EvictedOf;
    var s' := Advance(s, Arrive(p));
    StepKeepsInv(s.imports, Offer(p));
    forall i | 0 <= i < |s'.exports| ensures ExportInv(s', i) {
      assert ExportInv(s, i);
    }
  }

  lemma ReaderKeepsInv<P>(s: State<P>)
    requires PipelineInv(s)
    ensures PipelineInv(Advance(s, Reader))
  {
    hide Packets, TakenOf, EvictedOf;
    var s' := Advance(s, Reader);
    StepKeepsInv(s.imports, Produce);
    ProduceKeepsOffered(s.imports);
    forall i | 0 <= i < |s'.exports| ensures ExportInv(s', i) {
      assert ExportInv(s, i);
    }
  }

  lemma MetricsPopKeepsInv<P>(s: State<P>)
    requires PipelineInv(s)
    ensures PipelineInv(Advance(s, MetricsPop))
  {
    hide Packets, TakenOf, EvictedOf;
    var s' := Advance(s, MetricsPop);
    if s.metrics.Waiting? && s.imports.items != [] {
      StepKeepsInv(s.imports, Consume);
      RemovalAppended(s.imports.removed, Taken(s.imports.items[0]));
      forall i | 0 <= i < |s'.exports| ensures ExportInv(s', i) {
        assert ExportInv(s, i);
      }
    }
  }

  lemma NextClientKeepsInv<P>(s: State<P>)
    requires PipelineInv(s)
    ensures PipelineInv(Advance(s, NextClient))
  {
    hide Packets, TakenOf, EvictedOf;
    var s' := Advance(s, NextClient);
    forall i | 0 <= i < |s'.exports| ensures ExportInv(s', i) {
      assert ExportInv(s, i);
    }
  }

  lemma FanOutKeepsInv<P>(s: State<P>)
    requires PipelineInv(s)
    ensures PipelineInv(Advance(s, FanOut))
  {
    hide Packets, TakenOf, EvictedOf;
    var s' := Advance(s, FanOut);
    if s.metrics.Fanning? && s.metrics.entered {
      var k := s.metrics.next;
      assert ExportInv(s, k);
      StepKeepsInv(s.exports[k], Produce);
      ProduceKeepsOffered(s.exports[k]);
      var c, c' := s.exports[k], Step(s.exports[k], Produce);
      assert s'.exports == s.exports[k := c'] && s'.imports == s.imports && s'.handed == s.handed;
      forall i | 0 <= i < |s'.exports| ensures ExportInv(s', i) {
        assert ExportInv(s, i);
        assert NotYetOffered(s', i) == NotYetOffered(s, i);
      }
    }
  }

  lemma WriterKeepsInv<P>(s: State<P>, client: nat)
    requires PipelineInv(s)
    ensures PipelineInv(Advance(s, Writer(client)))
  {
    hide Packets, TakenOf, EvictedOf;
    var s' := Advance(s, Writer(client));
    if client < |s.exports| {
      assert ExportInv(s, client);
      StepKeepsInv(s.exports[client], Consume);
    }
    forall i | 0 <= i < |s'.exports| ensures ExportInv(s', i) {
      assert ExportInv(s, i);
    }
  }

  lemma AdvanceKeepsInv<P>(s: State<P>, event: Event<P>)
    requires PipelineInv(s)
    ensures PipelineInv(Advance(s, event)) && |Advance(s, event).exports| == |s.exports|
  {
    match event
    case Arrive(p) => ArriveKeepsInv(s, p);
    case Reader => ReaderKeepsInv(s);
    case MetricsPop => MetricsPopKeepsInv(s);
    case NextClient => NextClientKeepsInv(s);
    case FanOut => FanOutKeepsInv(s);
    case Writer(i) => WriterKeepsInv(s, i);
  }

  lemma {:induction false} RunKeepsInv<P>(s: State<P>, events: seq<Event<P>>)
    requires PipelineInv(s)
    ensures PipelineInv(Run(s, events)) && |Run(s, events).exports| == |s.exports|
  {
    if events != [] {
      RunKeepsInv(s, events[..|events| - 1]);
      AdvanceKeepsInv(Run(s, events[..|events| - 1]), events[|events| - 1]);
    }
  }

  lemma StartInv<P>(importCapacity: nat, exportCapacities: seq<nat>)
    requires 0 < importCapacity && forall c :: c in exportCapacities ==> 0 < c
    ensures PipelineInv<P>(Start(importCapacity, exportCapacities))
  {
    var s := Start<P>(importCapacity, exportCapacities);
    forall i | 0 <= i < |s.exports| ensures ExportInv(s, i) {
      assert exportCapacities[i] in exportCapacities;
    }
  }

  // The theorems, for every schedule and any number of writers.

  /**
   * No queue ever exceeds its capacity or rejects a packet, no moved-from packet
   * is ever enqueued, and every writer is offered the same packets in the same
   * order: what was pushed to its queue is all but at most the newest packet
   * that left the import queue.
   */
  lemma QueuesAreSafe<P>(importCapacity: nat, exportCapacities: seq<nat>, events: seq<Event<P>>)
    requires 0 < importCapacity && forall c :: c in exportCapacities ==> 0 < c
    ensures var s := Run(Start(importCapacity, exportCapacities), events);
            && |s.imports.items| <= s.imports.capacity && s.imports.rejects == 0
            && s.imports.pushed <= s.arrived && |s.arrived| <= |s.imports.pushed| + 1
            && !s.usedMovedFrom
            && |s.exports| == |exportCapacities|
            && forall i :: 0 <= i < |s.exports| ==>
                 && |s.exports[i].items| <= s.exports[i].capacity && s.exports[i].rejects == 0
                 && s.exports[i].pushed <= s.handed && |s.handed| <= |s.exports[i].pushed| + 1
  {
    var start := Start<P>(importCapacity, exportCapacities);
    StartInv<P>(importCapacity, exportCapacities);
    RunKeepsInv(start, events);
    var s := Run(start, events);
    forall i | 0 <= i < |s.exports|
      ensures && |s.exports[i].items| <= s.exports[i].capacity && s.exports[i].rejects == 0
              && s.exports[i].pushed <= s.handed && |s.handed| <= |s.exports[i].pushed| + 1
    {
      assert ExportInv(s, i);
    }
  }

  /** Each history is what was removed, then what is still on its way. */
  lemma HistoriesSplit<P>(s: State<P>, i: nat)
    requires PipelineInv(s) && i < |s.exports|
    ensures var c := s.exports[i];
            s.handed == Packets(c.removed) + (c.items + InFlight(c) + NotYetOffered(s, i))
    ensures s.arrived == Packets(s.imports.removed) + (s.imports.items + InFlight(s.imports))
  {
    assert ExportInv(s, i);
  }

  lemma DequeuedIsOrdered<P(!new)>(s: State<P>, i: nat)
    requires PipelineInv(s) && i < |s.exports|
    ensures IsSubsequence(Dequeued(s, i), s.arrived)
  {
    var c := s.exports[i];
    var left, left' := Packets(c.removed), Packets(s.imports.removed);
    HistoriesSplit(s, i);
    TakenIsSubsequence(c.removed);
    PrefixIsSubsequence(left, c.items + InFlight(c) + NotYetOffered(s, i));
    SubsequenceIsTransitive(TakenOf(c.removed), left, s.handed);
    TakenIsSubsequence(s.imports.removed);
    PrefixIsSubsequence(left', s.imports.items + InFlight(s.imports));
    SubsequenceIsTransitive(s.handed, left', s.arrived);
    SubsequenceIsTransitive(TakenOf(c.removed), s.handed, s.arrived);
  }

  /**
   * What writer `i` dequeues is a subsequence of what SEEDLink delivered: arrival
   * order is kept and each delivery is dequeued at most once.
   */
  lemma WritersSeeArrivalOrder<P(!new)>(importCapacity: nat, exportCapacities: seq<nat>, events: seq<Event<P>>, i: nat)
    requires 0 < importCapacity && (forall c :: c in exportCapacities ==> 0 < c) && i < |exportCapacities|
    ensures var s := Run(Start(importCapacity, exportCapacities), events);
            i < |s.exports| && IsSubsequence(Dequeued(s, i), s.arrived)
  {
    StartInv<P>(importCapacity, exportCapacities);
    RunKeepsInv(Start<P>(importCapacity, exportCapacities), events);
    DequeuedIsOrdered(Run(Start(importCapacity, exportCapacities), events), i);
  }

  /**
   * Every delivered packet is accounted for at writer `i`: dequeued, evicted from
   * or waiting in one of the two queues, or in the hands of a thread between them.
   */
  lemma EveryPacketIsAccountedFor<P(!new)>(importCapacity: nat, exportCapacities: seq<nat>,
                                           events: seq<Event<P>>, i: nat)
    requires 0 < importCapacity && (forall c :: c in exportCapacities ==> 0 < c) && i < |exportCapacities|
    ensures var s := Run(Start(importCapacity, exportCapacities), events);
            && i < |s.exports|
            && multiset(s.arrived) ==
               multiset(Dequeued(s, i))
               + multiset(EvictedOf(s.exports[i].removed)) + multiset(s.exports[i].items)
               + multiset(InFlight(s.exports[i])) + multiset(NotYetOffered(s, i))
               + multiset(EvictedOf(s.imports.removed)) + multiset(s.imports.items)
               + multiset(InFlight(s.imports))
  {
    StartInv<P>(importCapacity, exportCapacities);
    RunKeepsInv(Start<P>(importCapacity, exportCapacities), events);
    var s := Run(Start(importCapacity, exportCapacities), events);
    HistoriesSplit(s, i);
    TakenIsSubsequence(s.exports[i].removed);
    TakenIsSubsequence(s.imports.removed);
  }

  // The fan-out of one packet is bounded.

  /** A bound on the metrics thread's remaining steps before it waits for a packet again. */
  function FanOutRank<P>(s: State<P>): int {
    match s.metrics
    case Waiting => 0
    case Fanning(_, next, entered) =>
      8 * (|s.exports| - next) + 1 - (if entered && next < |s.exports| then 7 - Rank(s.exports[next]) else 0)
  }

  /** The metrics thread's one enabled step while it is fanning out. */
  predicate OwnStep<P>(s: State<P>, event: Event<P>) {
    s.metrics.Fanning? && if s.metrics.entered then event.FanOut? else event.NextClient?
  }

  /**
   * The metrics thread's own step, when it is enabled, brings the end of the
   * fan-out closer; no step of any other thread postpones it.
   */
  lemma FanOutProgress<P>(s: State<P>, event: Event<P>)
    requires PipelineInv(s) && s.metrics.Fanning?
    ensures var s' := Advance(s, event);
            && (OwnStep(s, event) ==> FanOutRank(s') < FanOutRank(s))
            && FanOutRank(s') <= FanOutRank(s)
            && 0 <= FanOutRank(s')
  {
    hide Packets, TakenOf, EvictedOf;
    AdvanceKeepsInv(s, event);
    if s.metrics.entered {
      var i := s.metrics.next;
      assert ExportInv(s, i);
      StepProgress(s.exports[i], Produce);
      StepProgress(s.exports[i], Consume);
    } else if s.metrics.next < |s.exports| {
      assert ExportInv(s, s.metrics.next);
    }
  }

  lemma FanOutRankPositive<P>(s: State<P>)
    requires PipelineInv(s) && s.metrics.Fanning?
    ensures FanOutRank(s) > 0
  {
    if s.metrics.entered {
      assert ExportInv(s, s.metrics.next);
    }
  }

  /** The metrics thread's enabled steps within a schedule. */
  function OwnSteps<P>(s: State<P>, events: seq<Event<P>>): nat {
    if events == [] then 0
    else
      var before := Run(s, events[..|events| - 1]);
      OwnSteps(s, events[..|events| - 1])
      + if OwnStep(before, events[|events| - 1]) then 1 else 0
  }

  /**
   * Whatever the reader and the writers do meanwhile, handing one packet to all
   * writers takes the metrics thread at most 8 steps per writer plus one.
   */
  lemma {:induction false} FanOutIsBounded<P(!new)>(s: State<P>, events: seq<Event<P>>)
    requires PipelineInv(s) && s.metrics.Fanning? && !s.metrics.entered && s.metrics.next == 0
    requires forall e :: e in events ==> !e.MetricsPop?
    ensures OwnSteps(s, events) + FanOutRank(Run(s, events)) <= 8 * |s.exports| + 1
    ensures OwnSteps(s, events) > 8 * |s.exports| ==> Run(s, events).metrics.Waiting?
  {
    if events != [] {
      var init, last := events[..|events| - 1], events[|events| - 1];
      assert last in events;
      FanOutIsBounded(s, init);
      RunKeepsInv(s, init);
      var before := Run(s, init);
      if before.metrics.Fanning? {
        FanOutProgress(before, last);
      }
      RunKeepsInv(s, events);
    }
    var after := Run(s, events);
    if after.metrics.Fanning? {
      FanOutRankPositive(after);
    }
  }

  // What the steps achieve, and that everything can be delivered.

  /** A step of a thread that has something to do does it. */
  lemma StepsTakeEffect<P>(s: State<P>, p: P, client: nat)
    requires PipelineInv(s)
    ensures s.imports.producer.Idle? ==>
              var s' := Advance(s, Arrive(p)); s'.arrived == s.arrived + [p] && InFlight(s'.imports) == [p]
    ensures !s.imports.producer.Idle? ==>
              var s' := Advance(s, Reader);
              && Rank(s'.imports) < Rank(s.imports)
              && (s'.imports.producer.Idle? ==> s'.imports.pushed == s.imports.pushed + InFlight(s.imports))
    ensures s.metrics.Waiting? && s.imports.items != [] ==>
              var s' := Advance(s, MetricsPop);
              && s'.handed == s.handed + [s.imports.items[0]] && s'.imports.items == s.imports.items[1..]
              && s'.metrics == Fanning(Holding(s.imports.items[0]), 0, false)
    ensures client < |s.exports| && s.exports[client].items != [] ==>
              var s' := Advance(s, Writer(client));
              && Dequeued(s', client) == Dequeued(s, client) + [s.exports[client].items[0]]
              && s'.exports[client].items == s.exports[client].items[1..]
  {
    hide Packets, EvictedOf, TakenOf;
    StepProgress(s.imports, Produce);
    ProduceKeepsOffered(s.imports);
    if client < |s.exports| && s.exports[client].items != [] {
      RemovalAppended(s.exports[client].removed, Taken(s.exports[client].items[0]));
    }
  }

  /** No thread has anything left to do. */
  ghost predicate Settled<P>(s: State<P>) {
    && s.metrics.Waiting? && s.imports.producer.Idle? && s.imports.items == []
    && forall i :: 0 <= i < |s.exports| ==> s.exports[i].items == [] && s.exports[i].producer.Idle?
  }

  function SumItems<P>(exports: seq<Channel<P>>): nat {
    if exports == [] then 0 else SumItems(exports[..|exports| - 1]) + |exports[|exports| - 1].items|
  }

  lemma {:induction false} SumItemsUpdated<P>(exports: seq<Channel<P>>, i: nat, c: Channel<P>)
    requires i < |exports|
    ensures SumItems(exports[i := c]) == SumItems(exports) - |exports[i].items| + |c.items|
  {
    var init := exports[..|exports| - 1];
    if i == |exports| - 1 {
      assert exports[i := c][..|exports| - 1] == init;
    } else {
      SumItemsUpdated(init, i, c);
      assert exports[i := c][..|exports| - 1] == init[i := c];
    }
  }

  /** What a schedule without arrivals must not exceed: evictions so far and those of calls already begun. */
  ghost predicate NoMoreEvictions<P>(s: State<P>, s': State<P>) {
    && |s'.exports| == |s.exports| && s'.arrived == s.arrived
    && EvictionBudget(s'.imports) <= EvictionBudget(s.imports)
    && forall i :: 0 <= i < |s.exports| ==> EvictionBudget(s'.exports[i]) <= EvictionBudget(s.exports[i])
  }

  /** Nearer to being settled, in the order in which the threads are run. */
  ghost predicate Closer<P>(s': State<P>, s: State<P>) {
    || Rank(s'.imports) < Rank(s.imports)
    || (Rank(s'.imports) == Rank(s.imports)
        && (|s'.imports.items| < |s.imports.items|
            || (|s'.imports.items| == |s.imports.items|
                && (FanOutRank(s') < FanOutRank(s)
                    || (FanOutRank(s') == FanOutRank(s) && SumItems(s'.exports) < SumItems(s.exports))))))
  }

  ghost predicate Useful<P>(s: State<P>, event: Event<P>) {
    && !event.Arrive? && PipelineInv(Advance(s, event))
    && NoMoreEvictions(s, Advance(s, event)) && Closer(Advance(s, event), s)
  }

  lemma ReaderIsUseful<P>(s: State<P>)
    requires PipelineInv(s) && !s.imports.producer.Idle?
    ensures Useful(s, Reader)
  {
    hide Packets, EvictedOf, TakenOf;
    AdvanceKeepsInv(s, Reader);
    StepProgress(s.imports, Produce);
  }

  lemma WriterIsUseful<P>(s: State<P>, i: nat)
    requires PipelineInv(s) && i < |s.exports| && s.exports[i].items != []
    ensures Useful(s, Writer(i))
  {
    hide Packets, EvictedOf, TakenOf;
    assert ExportInv(s, i);
    AdvanceKeepsInv(s, Writer(i));
    StepProgress(s.exports[i], Consume);
    SumItemsUpdated(s.exports, i, Step(s.exports[i], Consume));
    if s.metrics.Fanning? {
      FanOutProgress(s, Writer(i));
    }
  }

  /** With all export queues empty, going on with the fan-out cannot evict anything. */
  lemma MetricsIsUseful<P>(s: State<P>)
    requires PipelineInv(s) && s.metrics.Fanning?
    requires forall i :: 0 <= i < |s.exports| ==> s.exports[i].items == []
    ensures Useful(s, if s.metrics.entered then FanOut else NextClient)
  {
    hide Packets, EvictedOf, TakenOf;
    var event := if s.metrics.entered then FanOut else NextClient;
    AdvanceKeepsInv(s, event);
    FanOutProgress(s, event);
    var k := s.metrics.next;
    if k < |s.exports| {
      assert ExportInv(s, k);
      StepProgress(s.exports[k], Produce);
    }
  }

  lemma PopIsUseful<P>(s: State<P>)
    requires PipelineInv(s) && s.metrics.Waiting? && s.imports.producer.Idle? && s.imports.items != []
    ensures Useful(s, MetricsPop)
  {
    hide Packets, EvictedOf, TakenOf;
    AdvanceKeepsInv(s, MetricsPop);
    StepProgress(s.imports, Consume);
  }

  lemma SomeStepIsUseful<P>(s: State<P>) returns (event: Event<P>)
    requires PipelineInv(s) && !Settled(s)
    ensures Useful(s, event)
  {
    if !s.imports.producer.Idle? {
      ReaderIsUseful(s);
      event := Reader;
    } else if i :| 0 <= i < |s.exports| && s.exports[i].items != [] {
      WriterIsUseful(s, i);
      event := Writer(i);
    } else if s.metrics.Fanning? {
      MetricsIsUseful(s);
      event := if s.metrics.entered then FanOut else NextClient;
    } else {
      forall i | 0 <= i < |s.exports| ensures s.exports[i].producer.Idle? {
        assert ExportInv(s, i);
      }
      PopIsUseful(s);
      event := MetricsPop;
    }
  }

  ghost predicate NoArrival<P(!new)>(events: seq<Event<P>>) {
    forall e :: e in events ==> !e.Arrive?
  }

  lemma {:induction false} RunConcat<P>(s: State<P>, a: seq<Event<P>>, b: seq<Event<P>>)
    ensures Run(s, a + b) == Run(Run(s, a), b)
  {
    if b == [] {
      assert a + b == a;
    } else {
      RunConcat(s, a, b[..|b| - 1]);
      assert (a + b)[..|a + b| - 1] == a + b[..|b| - 1];
    }
  }

  lemma FanOutRankNonNegative<P>(s: State<P>)
    requires PipelineInv(s)
    ensures FanOutRank(s) >= 0
  {
    if s.metrics.Fanning? {
      FanOutRankPositive(s);
    }
  }

  /** From any state that keeps the invariant some schedule without arrivals settles everything. */
  lemma {:induction false} SomeScheduleSettles<P(!new)>(s: State<P>) returns (events: seq<Event<P>>)
    requires PipelineInv(s)
    ensures NoArrival(events)
    ensures var t := Run(s, events); PipelineInv(t) && Settled(t) && NoMoreEvictions(s, t)
    decreases Rank(s.imports), |s.imports.items|, FanOutRank(s), SumItems(s.exports)
  {
    hide PipelineInv, EvictionBudget, Advance, FanOutRank, SumItems, Settled, Rank;
    FanOutRankNonNegative(s);
    if Settled(s) {
      events := [];
    } else {
      var event := SomeStepIsUseful(s);
      var rest := SomeScheduleSettles(Advance(s, event));
      assert Run(s, [event]) == Advance(s, event) by {
        assert [event][..0] == [];
      }
      RunConcat(s, [event], rest);
      events := [event] + rest;
    }
  }

  /** What the eviction budgets mean once no call is in progress, and at any time before. */
  lemma BudgetIsEvictions<P>(c: Channel<P>)
    ensures |EvictedOf(c.removed)| <= EvictionBudget(c) <= |EvictedOf(c.removed)| + if c.producer.Idle? then 0 else 1
  {
  }

  /**
   * From every reachable state some schedule without arrivals empties all queues
   * and idles all threads.  Then every arrival was dequeued by every writer or
   * evicted, and nothing was evicted beyond what was before and at most one packet
   * for each call that had already begun.
   */
  lemma EverythingCanBeDelivered<P(!new)>(importCapacity: nat, exportCapacities: seq<nat>, events: seq<Event<P>>)
      returns (more: seq<Event<P>>)
    requires 0 < importCapacity && forall c :: c in exportCapacities ==> 0 < c
    ensures NoArrival(more)
    ensures var start := Start<P>(importCapacity, exportCapacities);
            var s, t := Run(start, events), Run(start, events + more);
            && Settled(t) && t.arrived == s.arrived && |t.exports| == |s.exports| == |exportCapacities|
            && |EvictedOf(t.imports.removed)| <=
               |EvictedOf(s.imports.removed)| + (if s.imports.producer.Idle? then 0 else 1)
            && forall i :: 0 <= i < |t.exports| ==>
                 && multiset(t.arrived) == multiset(Dequeued(t, i)) + multiset(EvictedOf(t.exports[i].removed))
                                           + multiset(EvictedOf(t.imports.removed))
                 && |EvictedOf(t.exports[i].removed)| <=
                    |EvictedOf(s.exports[i].removed)| + (if s.exports[i].producer.Idle? then 0 else 1)
  {
    var start := Start<P>(importCapacity, exportCapacities);
    StartInv<P>(importCapacity, exportCapacities);
    RunKeepsInv(start, events);
    var s := Run(start, events);
    more := SomeScheduleSettles(s);
    RunConcat(start, events, more);
    var t := Run(start, events + more);
    BudgetIsEvictions(s.imports);
    BudgetIsEvictions(t.imports);
    forall i | 0 <= i < |t.exports|
      ensures multiset(t.arrived) == multiset(Dequeued(t, i)) + multiset(EvictedOf(t.exports[i].removed))
                                     + multiset(EvictedOf(t.imports.removed))
      ensures |EvictedOf(t.exports[i].removed)| <=
              |EvictedOf(s.exports[i].removed)| + (if s.exports[i].producer.Idle? then 0 else 1)
    {
      BudgetIsEvictions(s.exports[i]);
      BudgetIsEvictions(t.exports[i]);
      EveryPacketIsAccountedFor(importCapacity, exportCapacities, events + more, i);
    }
  }

  lemma {:induction false} NothingEvicted<P>(removed: seq<Removal<P>>)
    requires EvictedOf(removed) == []
    ensures TakenOf(removed) == Packets(removed)
  {
    if removed != [] {
      NothingEvicted(removed[..|removed| - 1]);
    }
  }

  /** If no queue evicted anything, a settled pipeline has delivered exactly the arrivals, in order, to every writer. */
  lemma SettledDeliversAll<P>(s: State<P>, i: nat)
    requires PipelineInv(s) && Settled(s) && i < |s.exports|
    requires EvictedOf(s.imports.removed) == [] && EvictedOf(s.exports[i].removed) == []
    ensures Dequeued(s, i) == s.arrived
  {
    assert ExportInv(s, i);
    NothingEvicted(s.imports.removed);
    NothingEvicted(s.exports[i].removed);
  }
}
