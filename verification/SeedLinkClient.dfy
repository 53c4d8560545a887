/**
 * The SEEDLink polling loop: what reaches the callback and when the state file
 * is saved.  libslink is an oracle for what each poll returns.
 */
module SeedLinkClient {
  import opened Common
  import opened MiniSeedRecords
  import P = Packet

  /** What `sl_collect` returns. */
  datatype Poll =
    | DataPacket(payload: string)   // SLPACKET with a miniSEED payload
    | OtherPacket                   // SLPACKET with any other payload
    | TooLarge | NoPacket | Unhandled
    | Terminate

  /** The payloads of the data packets up to the first terminate. */
  function Payloads(polls: seq<Poll>): seq<string> {
    if polls == [] || polls[0].Terminate? then []
    else (if polls[0].DataPacket? then [polls[0].payload] else []) + Payloads(polls[1..])
  }

  /** The packets of every payload that unpacks; a payload that does not is skipped whole. */
  function Delivered(parse: Parser, minRecLen: nat, payloads: seq<string>): seq<P.State>
    requires SoundParser(parse)
  {
    if payloads == [] then []
    else
      var packets := PacketsIn(parse, minRecLen, payloads[|payloads| - 1]);
      Delivered(parse, minRecLen, payloads[..|payloads| - 1]) + if packets.Ok? then packets.value else []
  }

  /** Before the first poll nothing is delivered or saved. */
  lemma NothingDelivered(parse: Parser, minRecLen: nat, period: nat)
    requires SoundParser(parse) && period > 0
    ensures Delivered(parse, minRecLen, []) == [] && Payloads([]) == []
    ensures MultiplesUpTo([], 0, period) && Multiple(0, period) == 0
  {
  }

  /** Payloads are taken poll by poll, in order, until the server terminates. */
  lemma {:induction false} PayloadsConcat(a: seq<Poll>, b: seq<Poll>)
    ensures Payloads(a + b) == Payloads(a) + if Poll.Terminate in a then [] else Payloads(b)
  {
    if a == [] {
      assert a + b == b;
    } else {
      var rest := a[1..];
      assert (a + b)[0] == a[0] && (a + b)[1..] == rest + b;
      assert Poll.Terminate in a <==> a[0].Terminate? || Poll.Terminate in rest by {
        assert a == [a[0]] + rest;
      }
      PayloadsConcat(rest, b);
    }
  }

  lemma PayloadOfPoll(poll: Poll)
    ensures Payloads([poll]) == if poll.DataPacket? then [poll.payload] else []
  {
    assert [poll][1..] == [];
  }

  /** Every packet of a payload that unpacks is delivered, unless the server terminated before. */
  lemma PayloadsAreDelivered(parse: Parser, minRecLen: nat, polls: seq<Poll>, k: nat)
    requires SoundParser(parse) && k < |polls| && Poll.Terminate !in polls[..k] && polls[k].DataPacket?
    ensures var packets := PacketsIn(parse, minRecLen, polls[k].payload);
            var before := Delivered(parse, minRecLen, Payloads(polls[..k]));
            var upTo := Delivered(parse, minRecLen, Payloads(polls[..k + 1]));
            && upTo == before + (if packets.Ok? then packets.value else [])
            && upTo <= Delivered(parse, minRecLen, Payloads(polls))
  {
    hide PacketsIn;
    assert polls[..k + 1] == polls[..k] + [polls[k]];
    PayloadsConcat(polls[..k], [polls[k]]);
    PayloadOfPoll(polls[k]);
    DeliveredOneMore(parse, minRecLen, Payloads(polls[..k]), polls[k].payload);
    assert polls == polls[..k + 1] + polls[k + 1..];
    PayloadsConcat(polls[..k + 1], polls[k + 1..]);
    DeliveredGrows(parse, minRecLen, Payloads(polls[..k + 1]), Payloads(polls[k + 1..]));
  }

  lemma {:induction false} DeliveredGrows(parse: Parser, minRecLen: nat, a: seq<string>, b: seq<string>)
    requires SoundParser(parse)
    ensures Delivered(parse, minRecLen, a) <= Delivered(parse, minRecLen, a + b)
    decreases |b|
  {
    hide PacketsIn;
    if b == [] {
      assert a + b == a;
    } else {
      DeliveredGrows(parse, minRecLen, a, b[..|b| - 1]);
      assert a + b == (a + b[..|b| - 1]) + [b[|b| - 1]];
      DeliveredOneMore(parse, minRecLen, a + b[..|b| - 1], b[|b| - 1]);
    }
  }

  lemma PayloadsOneMore(polls: seq<Poll>, i: nat)
    requires i < |polls|
    ensures Payloads(polls[i..]) ==
            if polls[i].Terminate? then []
            else (if polls[i].DataPacket? then [polls[i].payload] else []) + Payloads(polls[i + 1..])
  {
    assert polls[i..][1..] == polls[i + 1..];
  }

  lemma DeliveredOneMore(parse: Parser, minRecLen: nat, payloads: seq<string>, payload: string)
    requires SoundParser(parse)
    ensures Delivered(parse, minRecLen, payloads + [payload]) ==
            Delivered(parse, minRecLen, payloads) +
            if PacketsIn(parse, minRecLen, payload).Ok? then PacketsIn(parse, minRecLen, payload).value else []
  {
    assert (payloads + [payload])[..|payloads|] == payloads;
  }

  /** The k-th multiple of the period. */
  function Multiple(k: nat, period: nat): nat {
    if k == 0 then 0 else Multiple(k - 1, period) + period
  }

  lemma {:induction false} MultipleIsProduct(k: nat, period: nat)
    ensures Multiple(k, period) == k * period
  {
    if k > 0 {
      MultipleIsProduct(k - 1, period);
      assert k * period == (k - 1) * period + period;
    }
  }

  /** `saves` are the multiples of the period up to `n`, in order. */
  ghost predicate MultiplesUpTo(saves: seq<nat>, n: nat, period: nat) {
    && Multiple(|saves|, period) <= n < Multiple(|saves| + 1, period)
    && forall k :: 0 <= k < |saves| ==> saves[k] == Multiple(k + 1, period)
  }

  lemma {:induction false} MultiplesGrow(j: nat, k: nat, period: nat)
    requires period > 0 && j < k
    ensures Multiple(j, period) < Multiple(k, period)
  {
    if j < k - 1 {
      MultiplesGrow(j, k - 1, period);
    }
  }

  lemma MultiplesOrdered(j: nat, k: nat, period: nat)
    requires period > 0
    ensures Multiple(j, period) < Multiple(k, period) <==> j < k
  {
    if j < k {
      MultiplesGrow(j, k, period);
    } else if k < j {
      MultiplesGrow(k, j, period);
    }
  }

  /** Exactly the data packets whose number is a positive multiple of the period. */
  lemma SavesAreExactlyTheMultiples(saves: seq<nat>, n: nat, period: nat, m: nat)
    requires period > 0 && MultiplesUpTo(saves, n, period)
    ensures m in saves <==> 0 < m <= n && exists k :: m == Multiple(k, period)
  {
    if m in saves {
      var i :| 0 <= i < |saves| && saves[i] == m;
      MultiplesOrdered(0, i + 1, period);
      MultiplesOrdered(|saves|, i + 1, period);
      assert m == Multiple(i + 1, period);
    }
    if k :| 0 < m <= n && m == Multiple(k, period) {
      MultiplesOrdered(0, k, period);
      MultiplesOrdered(k, |saves| + 1, period);
      assert saves[k - 1] == m;
    }
  }

  class SeedLinkClient {
    const parse: Parser
    const minRecLen: nat
    const mUseStateFile: bool
    const mDeleteStateFileOnStop: bool
    const mStateFileUpdateInterval: nat
    var mConnected: bool
    /** Every packet handed to the callback. */
    ghost var delivered: seq<P.State>

    constructor (parse: Parser, minRecLen: nat, useStateFile: bool, deleteStateFileOnStop: bool, interval: nat)
      ensures !mConnected && delivered == []
      ensures this.parse == parse && this.minRecLen == minRecLen && mUseStateFile == useStateFile
      ensures mDeleteStateFileOnStop == deleteStateFileOnStop && mStateFileUpdateInterval == interval
    {
      this.parse, this.minRecLen, mUseStateFile := parse, minRecLen, useStateFile;
      mDeleteStateFileOnStop, mStateFileUpdateInterval := deleteStateFileOnStop, interval;
      mConnected, delivered := false, [];
    }

    /** One payload; nothing is delivered from one that fails to unpack, and callback exceptions are swallowed. */
    method Propagate(payload: string)
      requires SoundParser(parse) && |payload| < TWO_TO_THE_31
      modifies this`delivered
      ensures var packets := PacketsIn(parse, minRecLen, payload);
              delivered == old(delivered) + if packets.Ok? then packets.value else []
    {
      hide PacketsIn, PacketOf;
      var packets := MiniSEEDToDataPackets(parse, minRecLen, payload);
      if packets.Ok? {
        for k := 0 to |packets.value|
          invariant delivered == old(delivered) + packets.value[..k]
        {
          delivered := delivered + [packets.value[k]];
        }
      }
    }

    /** The state file was saved at the multiples of interval + 1; the counter is the distance from the last one. */
    ghost predicate Counting(updateStateFile: int, n: nat, saves: seq<nat>) {
      && 1 <= updateStateFile <= mStateFileUpdateInterval + 1
      && if mUseStateFile then
           && MultiplesUpTo(saves, n, mStateFileUpdateInterval + 1)
           && updateStateFile == n - Multiple(|saves|, mStateFileUpdateInterval + 1) + 1
         else
           saves == []
    }

    lemma NothingSaved()
      ensures Counting(1, 0, [])
    {
    }

    lemma SavedWhileCounting(updateStateFile: int, n: nat, saves: seq<nat>)
      requires Counting(updateStateFile, n, saves)
      ensures if mUseStateFile then MultiplesUpTo(saves, n, mStateFileUpdateInterval + 1) else saves == []
    {
    }

    /** The counter's part of the loop; `n` data packets came before this one. */
    method UpdateStateFile(updateStateFile: int, ghost n: nat, ghost saves: seq<nat>)
        returns (next: int, ghost saves': seq<nat>)
      requires Counting(updateStateFile, n, saves)
      ensures Counting(next, n + 1, saves')
      ensures saves' == if mUseStateFile && updateStateFile > mStateFileUpdateInterval then saves + [n + 1] else saves
    {
      next, saves' := updateStateFile, saves;
      if mUseStateFile {
        if next > mStateFileUpdateInterval {
          saves' := saves + [n + 1];
          next := 0;
        }
        next := next + 1;
      }
    }

    /** The branch for a data packet; `done` are the payloads before it, and what they delivered. */
    method TakePayload(payload: string, updateStateFile: int, ghost done: seq<string>, ghost saves: seq<nat>,
                       ghost before: seq<P.State>)
        returns (next: int, ghost saves': seq<nat>)
      requires SoundParser(parse) && |payload| < TWO_TO_THE_31 && Counting(updateStateFile, |done|, saves)
      requires delivered == before + Delivered(parse, minRecLen, done)
      modifies this`delivered
      ensures Counting(next, |done| + 1, saves')
      ensures delivered == before + Delivered(parse, minRecLen, done + [payload])
    {
      hide Counting, SoundParser, PacketsIn, Delivered;
      DeliveredOneMore(parse, minRecLen, done, payload);
      Propagate(payload);
      next, saves' := UpdateStateFile(updateStateFile, |done|, saves);
    }

    /** The polling loop, until the polls run out (a stop) or the server terminates. */
    method PollServer(polls: seq<Poll>) returns (terminated: bool, ghost saves: seq<nat>)
      requires SoundParser(parse)
      requires forall k :: 0 <= k < |polls| && polls[k].DataPacket? ==> |polls[k].payload| < TWO_TO_THE_31
      modifies this
      ensures delivered == old(delivered) + Delivered(parse, minRecLen, Payloads(polls))
      ensures if mUseStateFile then MultiplesUpTo(saves, |Payloads(polls)|, mStateFileUpdateInterval + 1)
              else saves == []
      ensures terminated <==> Poll.Terminate in polls
    {
      hide PacketsIn, PacketOf, Delivered, Payloads, Multiple, MultiplesUpTo, SoundParser, Counting;
      NothingDelivered(parse, minRecLen, mStateFileUpdateInterval + 1);
      NothingSaved();
      terminated, saves := false, [];
      var updateStateFile := 1;
      var i := 0;
      ghost var done: seq<string> := [];
      assert polls[0..] == polls;
      while i < |polls|
        invariant 0 <= i <= |polls| && forall k :: 0 <= k < i ==> polls[k] != Poll.Terminate
        invariant Payloads(polls) == done + Payloads(polls[i..])
        invariant delivered == old(delivered) + Delivered(parse, minRecLen, done)
        invariant Counting(updateStateFile, |done|, saves)
      {
        PayloadsOneMore(polls, i);
        match polls[i] {
          case DataPacket(payload) =>
            updateStateFile, saves := TakePayload(payload, updateStateFile, done, saves, old(delivered));
            done := done + [payload];
          case Terminate =>
            terminated := true;
            break;
          case _ =>
        }
        i := i + 1;
      }
      assert !terminated ==> polls[i..] == [];
      assert Payloads(polls) == done + [] == done;
      SavedWhileCounting(updateStateFile, |done|, saves);
    }

    /**
     * A whole run, for any sequence of polls.  The three flags are the outcomes of
     * recovering and of purging the state file, and whether a stop was requested
     * by the time the server terminated.
     */
    method PacketToCallback(polls: seq<Poll>, recovered: bool, purged: bool, stopRequested: bool)
        returns (r: Result<()>, ghost saves: seq<nat>)
      requires SoundParser(parse)
      requires forall k :: 0 <= k < |polls| && polls[k].DataPacket? ==> |polls[k].payload| < TWO_TO_THE_31
      modifies this
      ensures if mUseStateFile && !recovered then
                r.Err? && delivered == old(delivered) && saves == []
              else
                && delivered == old(delivered) + Delivered(parse, minRecLen, Payloads(polls))
                && (if mUseStateFile then MultiplesUpTo(saves, |Payloads(polls)|, mStateFileUpdateInterval + 1)
                    else saves == [])
                && (r.Ok? <==> (mUseStateFile && mDeleteStateFileOnStop ==> purged)
                               && (Poll.Terminate in polls ==> stopRequested))
                && (r.Ok? ==> !mConnected)
    {
      hide PacketsIn, PacketOf, Delivered, Payloads, Multiple, MultiplesUpTo, SoundParser;
      mConnected, saves := true, [];
      if mUseStateFile {
        if !recovered {
          return Err(RuntimeError), [];
        }
      }
      var terminated;
      terminated, saves := PollServer(polls);
      if terminated {
        mConnected := false;
      }
      if mUseStateFile && mDeleteStateFileOnStop {
        if !purged {
          return Err(RuntimeError), saves;
        }
      }
      if terminated && !stopRequested {
        return Err(RuntimeError), saves;
      }
      mConnected := false;
      r := Ok(());
    }
  }
}
