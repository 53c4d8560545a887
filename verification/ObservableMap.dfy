/**
 * The counter maps shared between the metrics thread, which adds to them, and
 * the main thread, which sums them one key at a time for its periodic summary.
 */
module ObservableMap {
  import opened Common

  /** `add_or_assign` */
  function Added(m: map<string, int>, key: string, value: int): map<string, int> {
    m[key := if key in m then m[key] + value else value]
  }

  function Get(m: map<string, int>, key: string): int {
    if key in m then m[key] else 0
  }

  /** The sum of all values. */
  ghost function Total(m: map<string, int>): int
    decreases |m|
  {
    if m == map[] then 0
    else
      var key :| key in m;
      m[key] + Total(m - {key})
  }

  /** The sum does not depend on the order in which keys are taken. */
  lemma {:induction false} TotalSplits(m: map<string, int>, key: string)
    requires key in m
    ensures Total(m) == m[key] + Total(m - {key})
    decreases |m|
  {
    var first :| first in m && Total(m) == m[first] + Total(m - {first});
    if first != key {
      TotalSplits(m - {first}, key);
      TotalSplits(m - {key}, first);
      assert m - {first} - {key} == m - {key} - {first};
    }
  }

  lemma TotalOfNothing()
    ensures Total(map[]) == 0
  {
  }

  /** Setting one entry moves the total by the difference. */
  lemma TotalUpdated(m: map<string, int>, key: string, value: int)
    ensures Total(m[key := value]) == Total(m) - Get(m, key) + value
  {
    TotalSplits(m[key := value], key);
    assert m[key := value] - {key} == m - {key};
    if key in m {
      TotalSplits(m, key);
    } else {
      assert m - {key} == m;
    }
  }

  /** If at most the entry of one key moves, so does the total. */
  lemma TotalMoves(before: map<string, int>, after: map<string, int>, key: string, moves: bool, delta: int)
    requires forall k :: k in after <==> k in before || (moves && k == key)
    requires forall k :: k in after ==> after[k] == Get(before, k) + if moves && k == key then delta else 0
    ensures Total(after) == Total(before) + if moves then delta else 0
  {
    hide Total;
    if moves {
      var moved := before[key := Get(before, key) + delta];
      assert after.Keys == moved.Keys;
      assert after == moved;
      TotalUpdated(before, key, Get(before, key) + delta);
    } else {
      assert after.Keys == before.Keys;
      assert after == before;
    }
  }

  ghost predicate NonNegative(m: map<string, int>) {
    forall key :: key in m ==> m[key] >= 0
  }

  /** Every entry of `before` is still there and has not decreased. */
  ghost predicate Grown(before: map<string, int>, after: map<string, int>) {
    before.Keys <= after.Keys && forall key :: key in before ==> before[key] <= after[key]
  }

  lemma {:induction false} TotalMonotone(before: map<string, int>, after: map<string, int>)
    requires Grown(before, after) && NonNegative(after)
    ensures Total(before) <= Total(after)
    decreases |after|
  {
    if after != map[] {
      var key :| key in after;
      TotalSplits(after, key);
      if key in before {
        TotalSplits(before, key);
        TotalMonotone(before - {key}, after - {key});
      } else {
        TotalMonotone(before, after - {key});
      }
    }
  }

  class ObservableMap {
    var mMap: map<string, int>

    constructor ()
      ensures mMap == map[]
    {
      mMap := map[];
    }

    method AddOrAssign(key: string, value: int)
      modifies this
      ensures mMap == Added(old(mMap), key, value)
    {
      if key in mMap {
        mMap := mMap[key := mMap[key] + value];
      } else {
        mMap := mMap[key := value];
      }
    }

    method Keys() returns (result: set<string>)
      ensures result == mMap.Keys
    {
      result := mMap.Keys;
    }

    method At(key: string) returns (r: Option<int>)
      ensures r == if key in mMap then Some(mMap[key]) else None
    {
      if key in mMap {
        return Some(mMap[key]);
      }
      return None;
    }
  }

  // The summary, read while tabulation goes on.

  /** One `add_or_assign` by the metrics thread; counts are never negative. */
  type Addition = (string, nat)

  /** What the metrics thread adds just before the summary's k-th locked access. */
  type Interference = nat -> seq<Addition>

  /** The map after the additions, in order. */
  function AddedAll(m: map<string, int>, additions: seq<Addition>): map<string, int> {
    if additions == [] then m
    else
      var last := additions[|additions| - 1];
      Added(AddedAll(m, additions[..|additions| - 1]), last.0, last.1)
  }

  /** The map after all additions before the first n locked accesses. */
  function Interfered(m: map<string, int>, metrics: Interference, n: nat): map<string, int> {
    if n == 0 then m else AddedAll(Interfered(m, metrics, n - 1), metrics(n - 1))
  }

  method Interfere(counts: ObservableMap, additions: seq<Addition>)
    requires NonNegative(counts.mMap)
    modifies counts
    ensures counts.mMap == AddedAll(old(counts.mMap), additions)
    ensures NonNegative(counts.mMap) && Grown(old(counts.mMap), counts.mMap)
  {
    for k := 0 to |additions|
      invariant counts.mMap == AddedAll(old(counts.mMap), additions[..k])
      invariant NonNegative(counts.mMap) && Grown(old(counts.mMap), counts.mMap)
    {
      assert additions[..k + 1][..k] == additions[..k];
      counts.AddOrAssign(additions[k].0, additions[k].1);
    }
    assert additions[..|additions|] == additions;
  }

  /** Every value read so far lies between its value when the keys were taken and its present one. */
  ghost predicate ReadSoFar(first: map<string, int>, read: map<string, int>, present: map<string, int>) {
    && NonNegative(first) && Grown(first, present) && read.Keys <= first.Keys
    && forall key :: key in read ==> first[key] <= read[key] <= present[key]
  }

  lemma ReadNothing(first: map<string, int>)
    requires NonNegative(first)
    ensures ReadSoFar(first, map[], first)
  {
  }

  lemma InterferedOnce(m: map<string, int>, metrics: Interference, n: nat)
    ensures Interfered(m, metrics, n + 1) == AddedAll(Interfered(m, metrics, n), metrics(n))
    ensures Interfered(m, metrics, 0) == m
  {
  }

  lemma ReadOneMore(first: map<string, int>, read: map<string, int>,
                    before: map<string, int>, present: map<string, int>, key: string)
    requires ReadSoFar(first, read, before) && Grown(before, present) && key in first && key !in read
    ensures key in present && ReadSoFar(first, read[key := present[key]], present)
    ensures Total(read[key := present[key]]) == Total(read) + present[key]
  {
    TotalUpdated(read, key, present[key]);
  }

  lemma ReadAll(first: map<string, int>, read: map<string, int>, present: map<string, int>)
    requires ReadSoFar(first, read, present) && read.Keys == first.Keys && NonNegative(present)
    ensures Total(first) <= Total(read) <= Total(present) && Grown(first, present)
  {
    TotalMonotone(first, read);
    TotalMonotone(read, present);
  }

  /**
   * `sumTotalPacketsReceived`: the key set is taken under the lock, then every
   * value under its own lock, in some order.  `first` is the map when the keys
   * were taken.
   */
  method SumTotalPacketsReceived(counts: ObservableMap, metrics: Interference)
      returns (result: int, ghost first: map<string, int>)
    requires NonNegative(counts.mMap)
    modifies counts
    ensures NonNegative(counts.mMap)
    ensures Grown(old(counts.mMap), first) && Grown(first, counts.mMap) && NonNegative(first)
    ensures Total(first) <= result <= Total(counts.mMap)
    ensures first == Interfered(old(counts.mMap), metrics, 1)
    ensures counts.mMap == Interfered(old(counts.mMap), metrics, |first| + 1)
  {
    hide Total, AddedAll, Interfered, Grown, NonNegative, ReadSoFar;
    TotalOfNothing();
    InterferedOnce(counts.mMap, metrics, 0);
    Interfere(counts, metrics(0));
    ReadNothing(counts.mMap);
    first := counts.mMap;
    var keys := counts.Keys();
    result := 0;
    var k := 1;
    ghost var read: map<string, int> := map[];
    while keys != {}
      invariant NonNegative(counts.mMap) && ReadSoFar(first, read, counts.mMap)
      invariant keys <= first.Keys && read.Keys == first.Keys - keys
      invariant result == Total(read)
      invariant k == |first| - |keys| + 1 && counts.mMap == Interfered(old(counts.mMap), metrics, k)
      decreases |keys|
    {
      ghost var before := counts.mMap;
      InterferedOnce(old(counts.mMap), metrics, k);
      Interfere(counts, metrics(k));
      var key :| key in keys;
      ReadOneMore(first, read, before, counts.mMap, key);
      var value := counts.At(key);
      if value.Some? {
        result := result + value.value;
        read := read[key := value.value];
      }
      keys := keys - {key};
      k := k + 1;
    }
    assert read.Keys == first.Keys;
    ReadAll(first, read, counts.mMap);
  }

  function SumOfReports(xs: seq<int>): int {
    if xs == [] then 0 else SumOfReports(xs[..|xs| - 1]) + xs[|xs| - 1]
  }

  /** `printSummary`'s counter part; the two flags say whether the interval is positive and has passed. */
  class Summary {
    var mReceivedLastReport: int
    /** Every difference printed so far. */
    ghost var printed: seq<int>

    /** All printed differences are non-negative and add up to the last value read. */
    ghost predicate Valid()
      reads this
    {
      mReceivedLastReport == SumOfReports(printed) && forall i :: 0 <= i < |printed| ==> printed[i] >= 0
    }

    /** What was last read is no more than is there now. */
    ghost predicate Behind(counts: ObservableMap)
      reads this, counts
    {
      NonNegative(counts.mMap) && mReceivedLastReport <= Total(counts.mMap)
    }

    constructor (counts: ObservableMap)
      requires NonNegative(counts.mMap)
      ensures Valid() && Behind(counts) && printed == []
    {
      mReceivedLastReport := 0;
      printed := [];
      new;
      TotalMonotone(map[], counts.mMap);
    }

    method PrintSummary(counts: ObservableMap, enabled: bool, due: bool, metrics: Interference)
      requires Valid() && Behind(counts)
      modifies this, counts
      ensures Valid() && Behind(counts)
      ensures Grown(old(counts.mMap), counts.mMap)
      ensures if enabled && due then
                |printed| == |old(printed)| + 1 && printed[..|old(printed)|] == old(printed)
                && Total(old(counts.mMap)) <= mReceivedLastReport <= Total(counts.mMap)
                && printed[|old(printed)|] == mReceivedLastReport - old(mReceivedLastReport)
              else
                printed == old(printed) && counts.mMap == old(counts.mMap)
    {
      if !enabled {
        return;
      }
      if !due {
        return;
      }
      var nReceived;
      ghost var first;
      nReceived, first := SumTotalPacketsReceived(counts, metrics);
      TotalMonotone(old(counts.mMap), first);
      var nReceivedReport := nReceived - mReceivedLastReport;
      printed := printed + [nReceivedReport];
      assert printed[..|printed| - 1] == old(printed);
      mReceivedLastReport := nReceived;
    }
  }
}
