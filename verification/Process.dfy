/**
 * The fan-out of `Process`: the metrics thread takes packets from the import
 * queue and hands each one to the queue of every writer.
 */
module Process {
  import opened Common
  import opened BoundedChannel
  import opened DropOldestQueue
  import P = Packet

  type Queue = DropOldestQueue<P.State>

  /**
   * What the other threads do during one round of the loop: what the reader
   * delivers before the pop and before each hand-over to a writer, and how each
   * writer drains its queue meanwhile.
   */
  datatype Round = Round(arrivals: seq<P.State>, meanwhile: nat -> seq<P.State>, writers: nat -> Interference)

  /** What arrives before the first n hand-overs. */
  function Meanwhile(round: Round, n: nat): seq<P.State> {
    if n == 0 then [] else Meanwhile(round, n - 1) + round.meanwhile(n - 1)
  }

  lemma MeanwhileMore(round: Round, n: nat)
    ensures Meanwhile(round, 0) == []
    ensures Meanwhile(round, n + 1) == Meanwhile(round, n) + round.meanwhile(n)
  {
  }

  /** Everything that arrives during the rounds, with `n` writers. */
  function AllArrivals(rounds: seq<Round>, n: nat): seq<P.State> {
    if rounds == [] then []
    else
      var last := rounds[|rounds| - 1];
      AllArrivals(rounds[..|rounds| - 1], n) + (last.arrivals + Meanwhile(last, n))
  }

  class Process {
    const mImportQueue: Queue
    const mDataLinkClients: seq<Queue>

    ghost predicate Distinct() {
      && mImportQueue !in mDataLinkClients
      && forall i, j :: 0 <= i < j < |mDataLinkClients| ==> mDataLinkClients[i] != mDataLinkClients[j]
    }

    ghost predicate Valid()
      reads mImportQueue, mDataLinkClients
    {
      && Distinct() && mImportQueue.Valid()
      && forall i :: 0 <= i < |mDataLinkClients| ==> mDataLinkClients[i].Valid()
    }

    constructor (importQueue: Queue, clients: seq<Queue>)
      requires importQueue.Valid() && importQueue !in clients
      requires forall i :: 0 <= i < |clients| ==> clients[i].Valid()
      requires forall i, j :: 0 <= i < j < |clients| ==> clients[i] != clients[j]
      ensures Valid() && mImportQueue == importQueue && mDataLinkClients == clients
    {
      mImportQueue, mDataLinkClients := importQueue, clients;
    }

    /** `addPacketCallback` for each arrival, in order, while the metrics thread pops as it likes. */
    method Deliver(arrivals: seq<P.State>, consumer: nat -> Interference)
      requires Valid()
      modifies mImportQueue
      ensures Valid() && mImportQueue.pushed == old(mImportQueue.pushed) + arrivals
      ensures (forall k :: Quiet(consumer(k))) ==> TakenOf(mImportQueue.removed) == old(TakenOf(mImportQueue.removed))
      ensures if arrivals == [] then mImportQueue.items == old(mImportQueue.items) else mImportQueue.items != []
    {
      hide Inv, Exec, TakenOf, Quiet;
      for k := 0 to |arrivals|
        invariant Valid() && mImportQueue.pushed == old(mImportQueue.pushed) + arrivals[..k]
        invariant (forall k :: Quiet(consumer(k))) ==>
                    TakenOf(mImportQueue.removed) == old(TakenOf(mImportQueue.removed))
        invariant if k == 0 then mImportQueue.items == old(mImportQueue.items) else mImportQueue.items != []
      {
        ghost var schedule := mImportQueue.Enqueue(arrivals[k], consumer(k));
        assert arrivals[..k + 1] == arrivals[..k] + [arrivals[k]];
      }
      assert arrivals[..|arrivals|] == arrivals;
    }

    /** Arrivals while the metrics thread, the only consumer, is busy elsewhere. */
    method DeliverUndisturbed(arrivals: seq<P.State>)
      requires Valid()
      modifies mImportQueue
      ensures Valid() && mImportQueue.pushed == old(mImportQueue.pushed) + arrivals
      ensures TakenOf(mImportQueue.removed) == old(TakenOf(mImportQueue.removed))
      ensures if arrivals == [] then mImportQueue.items == old(mImportQueue.items) else mImportQueue.items != []
    {
      var nobody: Interference := _ => 0;
      assert Quiet(nobody);
      Deliver(arrivals, _ => nobody);
    }

    /**
     * With one writer the packet is moved into its queue, otherwise copied; nobody
     * gets a moved-from packet.  Between the hand-overs the reader goes on.
     */
    method Propagate(packet: P.State, round: Round)
      requires Valid()
      modifies mImportQueue, mDataLinkClients
      ensures Valid()
      ensures mImportQueue.pushed == old(mImportQueue.pushed) + Meanwhile(round, |mDataLinkClients|)
      ensures TakenOf(mImportQueue.removed) == old(TakenOf(mImportQueue.removed))
      ensures forall i :: 0 <= i < |mDataLinkClients| ==>
                mDataLinkClients[i].pushed == old(mDataLinkClients[i].pushed) + [packet]
    {
      hide Inv, Exec, TakenOf, Meanwhile, EvictedOf, Quiet;
      MeanwhileMore(round, 0);
      var movePacket := |mDataLinkClients| == 1;
      var hand := Some(packet);
      for i := 0 to |mDataLinkClients|
        invariant Valid()
        invariant mImportQueue.pushed == old(mImportQueue.pushed) + Meanwhile(round, i)
        invariant TakenOf(mImportQueue.removed) == old(TakenOf(mImportQueue.removed))
        invariant hand == Some(packet) || (movePacket && i == 1)
        invariant forall k :: 0 <= k < |mDataLinkClients| ==>
                    mDataLinkClients[k].pushed == old(mDataLinkClients[k].pushed) + if k < i then [packet] else []
      {
        MeanwhileMore(round, i);
        DeliverUndisturbed(round.meanwhile(i));
        ghost var schedule := mDataLinkClients[i].Enqueue(hand.value, round.writers(i));
        if movePacket {
          hand := None;
        }
      }
    }

    /** Without a packet the thread sleeps, and the reader goes on all the same. */
    method Sleep(round: Round)
      requires Valid()
      modifies mImportQueue
      ensures Valid()
      ensures mImportQueue.pushed == old(mImportQueue.pushed) + Meanwhile(round, |mDataLinkClients|)
      ensures TakenOf(mImportQueue.removed) == old(TakenOf(mImportQueue.removed))
    {
      hide TakenOf, Valid;
      for i := 0 to |mDataLinkClients|
        invariant Valid()
        invariant mImportQueue.pushed == old(mImportQueue.pushed) + Meanwhile(round, i)
        invariant TakenOf(mImportQueue.removed) == old(TakenOf(mImportQueue.removed))
      {
        DeliverUndisturbed(round.meanwhile(i));
      }
    }

    /** `mImportQueue.try_pop` */
    method TakePacket() returns (packet: Option<P.State>, ghost taken: seq<P.State>)
      requires Valid()
      modifies mImportQueue
      ensures Valid() && mImportQueue.pushed == old(mImportQueue.pushed)
      ensures TakenOf(mImportQueue.removed) == old(TakenOf(mImportQueue.removed)) + taken
      ensures taken == if packet.Some? then [packet.value] else []
      ensures packet.None? <==> old(mImportQueue.items) == []
    {
      hide Inv, Exec, TakenOf, Step;
      ghost var removed := mImportQueue.removed;
      packet := mImportQueue.TakeOldest();
      taken := [];
      if packet.Some? {
        taken := [packet.value];
        RemovalAppended(removed, Taken(packet.value));
      }
    }

    /** The rest of a round, once the thread knows whether it has a packet. */
    method HandOver(packet: Option<P.State>, round: Round, ghost taken: seq<P.State>)
      requires Valid() && taken == if packet.Some? then [packet.value] else []
      modifies mImportQueue, mDataLinkClients
      ensures Valid()
      ensures mImportQueue.pushed == old(mImportQueue.pushed) + Meanwhile(round, |mDataLinkClients|)
      ensures TakenOf(mImportQueue.removed) == old(TakenOf(mImportQueue.removed))
      ensures forall i :: 0 <= i < |mDataLinkClients| ==>
                mDataLinkClients[i].pushed == old(mDataLinkClients[i].pushed) + taken
    {
      assert Distinct();
      hide Valid, TakenOf, Meanwhile;
      if packet.Some? {
        Propagate(packet.value, round);
      } else {
        Sleep(round);
      }
    }

    /** What has arrived by then, and the pop itself: it fails only on an empty queue. */
    method Fetch(arrivals: seq<P.State>) returns (packet: Option<P.State>, ghost taken: seq<P.State>)
      requires Valid()
      modifies mImportQueue
      ensures Valid() && mImportQueue.pushed == old(mImportQueue.pushed) + arrivals
      ensures TakenOf(mImportQueue.removed) == old(TakenOf(mImportQueue.removed)) + taken
      ensures taken == if packet.Some? then [packet.value] else []
      ensures packet.None? <==> arrivals == [] && old(mImportQueue.items) == []
    {
      hide Valid, TakenOf;
      DeliverUndisturbed(arrivals);
      packet, taken := TakePacket();
    }

    /** One round of the loop takes a packet unless there is none. */
    method TabulateOnce(round: Round) returns (ghost taken: seq<P.State>)
      requires Valid()
      modifies mImportQueue, mDataLinkClients
      ensures Valid()
      ensures mImportQueue.pushed ==
              old(mImportQueue.pushed) + (round.arrivals + Meanwhile(round, |mDataLinkClients|))
      ensures TakenOf(mImportQueue.removed) == old(TakenOf(mImportQueue.removed)) + taken
      ensures |taken| <= 1 && (taken != [] <==> round.arrivals != [] || old(mImportQueue.items) != [])
      ensures forall i :: 0 <= i < |mDataLinkClients| ==>
                mDataLinkClients[i].pushed == old(mDataLinkClients[i].pushed) + taken
    {
      assert Distinct();
      hide Valid, TakenOf, Meanwhile;
      var packet;
      packet, taken := Fetch(round.arrivals);
      HandOver(packet, round, taken);
    }

    /**
     * Every packet taken from the import queue goes to every writer, once and in
     * the order it was taken, whether or not the metrics could count it.
     */
    method TabulateMetrics(rounds: seq<Round>) returns (ghost taken: seq<P.State>)
      requires Valid()
      modifies mImportQueue, mDataLinkClients
      ensures Valid()
      ensures mImportQueue.pushed == old(mImportQueue.pushed) + AllArrivals(rounds, |mDataLinkClients|)
      ensures TakenOf(mImportQueue.removed) == old(TakenOf(mImportQueue.removed)) + taken
      ensures |taken| <= |rounds|
      ensures forall i :: 0 <= i < |mDataLinkClients| ==>
                mDataLinkClients[i].pushed == old(mDataLinkClients[i].pushed) + taken
    {
      hide Valid, TakenOf, Meanwhile;
      taken := [];
      for n := 0 to |rounds|
        invariant Valid() && |taken| <= n
        invariant mImportQueue.pushed == old(mImportQueue.pushed) + AllArrivals(rounds[..n], |mDataLinkClients|)
        invariant TakenOf(mImportQueue.removed) == old(TakenOf(mImportQueue.removed)) + taken
        invariant forall i :: 0 <= i < |mDataLinkClients| ==>
                    mDataLinkClients[i].pushed == old(mDataLinkClients[i].pushed) + taken
      {
        assert rounds[..n + 1][..n] == rounds[..n];
        ghost var newly := TabulateOnce(rounds[n]);
        taken := taken + newly;
      }
      assert rounds[..|rounds|] == rounds;
    }
  }
}
