/**
 * The two drop-oldest producers as imperative code, run against a consumer that
 * may pop any number of packets between two of their queue operations.
 */
module DropOldestQueue {
  import opened BoundedChannel
  import opened Common

  /** How many pops the consumer attempts just before the producer's k-th operation. */
  type Interference = nat -> nat

  function Consumes<P>(attempts: nat): seq<Action<P>> {
    seq(attempts, _ => Consume)
  }

  /** The first n operations of the producer, each after the pops the consumer attempts before it. */
  function Interleaved<P>(consumer: Interference, n: nat): seq<Action<P>> {
    if n == 0 then [] else Interleaved(consumer, n - 1) + Consumes(consumer(n - 1)) + [Produce]
  }

  lemma InterleavedMore<P>(consumer: Interference, n: nat)
    ensures Interleaved<P>(consumer, n + 1) == Interleaved<P>(consumer, n) + Consumes(consumer(n)) + [Produce]
    ensures Interleaved<P>(consumer, 0) == []
  {
  }

  ghost predicate Quiet(consumer: Interference) {
    forall k :: consumer(k) == 0
  }

  /** Starting from `start`, the interleaving `schedule` of one call leads to `now`. */
  ghost predicate Ran<P(!new)>(start: Channel<P>, schedule: seq<Action<P>>, now: Channel<P>) {
    NoOffer(schedule) && Inv(start) && now == Exec(start, schedule)
  }

  lemma RanOn<P(!new)>(start: Channel<P>, schedule: seq<Action<P>>, now: Channel<P>, action: Action<P>)
    requires Ran(start, schedule, now) && !action.Offer?
    ensures Ran(start, schedule + [action], Step(now, action))
    ensures ProduceCount(schedule + [action]) == ProduceCount(schedule) + if action.Produce? then 1 else 0
  {
    assert (schedule + [action])[..|schedule|] == schedule;
  }

  lemma NothingRan<P(!new)>(start: Channel<P>)
    requires Inv(start)
    ensures Ran(start, [], start)
  {
  }

  class DropOldestQueue<P(!new)> {
    const capacity: nat
    const leaveLoopOnMiss: bool
    var items: seq<P>
    var bumps: nat
    var rejects: nat
    ghost var pushed: seq<P>
    ghost var removed: seq<Removal<P>>
    ghost var misses: nat

    /** The queue together with what the producer is about to do. */
    ghost function At(producer: Producer<P>): Channel<P>
      reads this
    {
      Channel(capacity, leaveLoopOnMiss, items, producer, bumps, rejects, pushed, removed, misses)
    }

    ghost predicate Valid()
      reads this
    {
      Inv(At(Idle))
    }

    constructor (capacity: nat, leaveLoopOnMiss: bool)
      requires 0 < capacity
      ensures Valid()
      ensures At(Idle) == Empty(capacity, leaveLoopOnMiss)
    {
      this.capacity, this.leaveLoopOnMiss := capacity, leaveLoopOnMiss;
      items, bumps, rejects := [], 0, 0;
      pushed, removed, misses := [], [], 0;
    }

    /** The consumer's `try_pop`, while the producer is idle. */
    method TakeOldest() returns (packet: Option<P>)
      requires Valid()
      modifies this`items, this`removed
      ensures Valid() && At(Idle) == Step(old(At(Idle)), Consume)
      ensures packet == if old(items) == [] then None else Some(old(items)[0])
      ensures items == if packet.Some? then old(items)[1..] else []
      ensures removed == if packet.Some? then old(removed) + [Taken(packet.value)] else old(removed)
    {
      StepKeepsInv(At(Idle), Consume);
      if items == [] {
        return None;
      }
      packet := Some(items[0]);
      items, removed := items[1..], removed + [Taken(items[0])];
    }

    /** The consumer's `try_pop`, `attempts` times in a row. */
    method ConsumerPops(attempts: nat, ghost pc: Producer<P>, ghost start: Channel<P>, ghost soFar: seq<Action<P>>)
        returns (ghost schedule: seq<Action<P>>)
      requires Ran(start, soFar, At(pc))
      modifies this`items, this`removed
      ensures Ran(start, schedule, At(pc)) && ProduceCount(schedule) == ProduceCount(soFar)
      ensures |items| <= |old(items)| && (attempts == 0 ==> removed == old(removed))
      ensures schedule == soFar + Consumes(attempts)
    {
      schedule := soFar;
      for k := 0 to attempts
        invariant k == 0 ==> removed == old(removed)
        invariant schedule == soFar + Consumes(k)
        invariant Ran(start, schedule, At(pc)) && ProduceCount(schedule) == ProduceCount(soFar)
        invariant |items| <= |old(items)|
      {
        RanOn(start, schedule, At(pc), Consume);
        schedule := schedule + [Consume];
        if items != [] {
          items, removed := items[1..], removed + [Taken(items[0])];
        }
      }
    }

    /** `mQueue.size() >= mMaximumInternalQueueSize`, in the outer `if` or in the loop. */
    method IsFull(attempts: nat, ghost pc: Producer<P>, ghost start: Channel<P>, ghost soFar: seq<Action<P>>)
        returns (full: bool, ghost next: Producer<P>, ghost schedule: seq<Action<P>>)
      requires Ran(start, soFar, At(pc)) && (pc.SizeTest? || pc.LoopTest?)
      modifies this`items, this`removed
      ensures full == (|items| >= capacity) && |items| <= |old(items)|
      ensures schedule == soFar + Consumes(attempts) + [Produce]
      ensures attempts == 0 ==> removed == old(removed)
      ensures next == if !full then TryPush(pc.packet)
                      else if pc.SizeTest? then LoopTest(pc.packet) else Bump(pc.packet)
      ensures Ran(start, schedule, At(next))
    {
      schedule := ConsumerPops(attempts, pc, start, soFar);
      full := |items| >= capacity;
      RanOn(start, schedule, At(pc), Produce);
      next := Step(At(pc), Produce).producer;
      schedule := schedule + [Produce];
    }

    method CountPop(attempts: nat, ghost pc: Producer<P>, ghost start: Channel<P>, ghost soFar: seq<Action<P>>)
        returns (ghost schedule: seq<Action<P>>)
      requires Ran(start, soFar, At(pc)) && pc.Bump?
      modifies this`items, this`removed, this`bumps
      ensures Ran(start, schedule, At(TryPop(pc.packet))) && |items| <= |old(items)|
      ensures schedule == soFar + Consumes(attempts) + [Produce]
      ensures attempts == 0 ==> removed == old(removed)
    {
      schedule := ConsumerPops(attempts, pc, start, soFar);
      RanOn(start, schedule, At(pc), Produce);
      schedule := schedule + [Produce];
      bumps := bumps + 1;
    }

    method PopOldest(attempts: nat, ghost pc: Producer<P>, ghost start: Channel<P>, ghost soFar: seq<Action<P>>)
        returns (hit: bool, ghost schedule: seq<Action<P>>)
      requires Ran(start, soFar, At(pc)) && pc.TryPop?
      modifies this`items, this`removed, this`misses
      ensures Ran(start, schedule, At(if hit || !leaveLoopOnMiss then LoopTest(pc.packet) else TryPush(pc.packet)))
      ensures if hit then |items| < |old(items)| else items == []
      ensures schedule == soFar + Consumes(attempts) + [Produce]
      ensures attempts == 0 ==> TakenOf(removed) == TakenOf(old(removed))
    {
      schedule := ConsumerPops(attempts, pc, start, soFar);
      RanOn(start, schedule, At(pc), Produce);
      schedule := schedule + [Produce];
      hit := items != [];
      if hit {
        RemovalAppended(removed, Evicted(items[0]));
        items, removed := items[1..], removed + [Evicted(items[0])];
      } else {
        misses := misses + 1;
      }
    }

    method PushNewest(packet: P, attempts: nat, ghost start: Channel<P>, ghost soFar: seq<Action<P>>)
        returns (accepted: bool, ghost schedule: seq<Action<P>>)
      requires Ran(start, soFar, At(TryPush(packet)))
      modifies this`items, this`removed, this`pushed, this`rejects
      ensures Ran(start, schedule, At(Idle))
      ensures pushed == old(pushed) + if accepted then [packet] else []
      ensures schedule == soFar + Consumes(attempts) + [Produce]
      ensures rejects == old(rejects) + if accepted then 0 else 1
      ensures accepted ==> items != [] && items[|items| - 1] == packet
      ensures attempts == 0 ==> removed == old(removed)
    {
      schedule := ConsumerPops(attempts, TryPush(packet), start, soFar);
      RanOn(start, schedule, At(TryPush(packet)), Produce);
      schedule := schedule + [Produce];
      accepted := |items| < capacity;
      if accepted {
        items, pushed := items + [packet], pushed + [packet];
      } else {
        rejects := rejects + 1;
      }
    }

    /**
     * `DataLinkClientImpl::enqueue` (when `!leaveLoopOnMiss`) and
     * `Process::addPacketCallback` (when `leaveLoopOnMiss`).  The call is one run
     * of the transition system: `schedule` is the interleaving that took place.
     */
    method Enqueue(packet: P, consumer: Interference) returns (ghost schedule: seq<Action<P>>)
      requires Valid()
      modifies this
      ensures Valid()
      ensures exists n :: schedule == Interleaved(consumer, n)
      ensures NoOffer(schedule) && At(Idle) == Exec(old(At(SizeTest(packet))), schedule)
      ensures pushed == old(pushed) + [packet] && items != [] && items[|items| - 1] == packet
      ensures rejects == old(rejects)
      ensures Quiet(consumer) ==> TakenOf(removed) == TakenOf(old(removed))
      ensures |EvictedOf(removed)| <= |EvictedOf(old(removed))| + if |old(items)| < capacity then 0 else 1
    {
      hide Exec, Packets, EvictedOf, TakenOf, ProduceCount, Interleaved, Consumes;
      InterleavedMore<P>(consumer, 0);
      ghost var start, pc := At(SizeTest(packet)), SizeTest(packet);
      NothingRan(start);
      schedule := [];
      var full;
      full, pc, schedule := IsFull(consumer(0), pc, start, schedule);
      var k := 1;
      if full {
        InterleavedMore<P>(consumer, 1);
        full, pc, schedule := IsFull(consumer(1), pc, start, schedule);
        k := 2;
        while full
          invariant Ran(start, schedule, At(pc)) && pushed == old(pushed)
          invariant Quiet(consumer) ==> TakenOf(removed) == TakenOf(old(removed))
          invariant pc == if full then Bump(packet) else TryPush(packet)
          invariant k > 0 && schedule == Interleaved(consumer, k)
          decreases if full then |items| + 1 else 0
        {
          InterleavedMore<P>(consumer, k);
          InterleavedMore<P>(consumer, k + 1);
          InterleavedMore<P>(consumer, k + 2);
          schedule := CountPop(consumer(k), pc, start, schedule);
          var hit;
          hit, schedule := PopOldest(consumer(k + 1), TryPop(packet), start, schedule);
          k := k + 2;
          if !hit && leaveLoopOnMiss {
            pc := TryPush(packet);
            break;
          }
          full, pc, schedule := IsFull(consumer(k), LoopTest(packet), start, schedule);
          k := k + 1;
        }
      }
      var accepted;
      InterleavedMore<P>(consumer, k);
      accepted, schedule := PushNewest(packet, consumer(k), start, schedule);
      CallProgress(start, schedule);
    }
  }
}
