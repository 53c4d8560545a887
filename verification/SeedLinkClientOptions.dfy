/** The selector list of `SEEDLinkClientOptions` and its duplicate rejection. */
module SeedLinkClientOptions {
  import opened Common
  import Selector = StreamSelector

  type Key = (string, string, string)

  /** Two selectors ask the server for the same thing when these agree. */
  function KeyOf(f: Selector.Fields): Key {
    (f.network, f.station, Selector.SelectorText(f))
  }

  ghost predicate Distinct(selectors: seq<Selector.Fields>) {
    forall i, j :: 0 <= i < j < |selectors| ==> KeyOf(selectors[i]) != KeyOf(selectors[j])
  }

  predicate Accepts(selectors: seq<Selector.Fields>, f: Selector.Fields) {
    f.network != "" && forall i :: 0 <= i < |selectors| ==> KeyOf(selectors[i]) != KeyOf(f)
  }

  class SeedLinkClientOptions {
    var mSelectors: seq<Selector.Fields>

    ghost predicate Valid()
      reads this
    {
      Distinct(mSelectors) && forall f :: f in mSelectors ==> f.network != ""
    }

    constructor ()
      ensures Valid() && mSelectors == []
    {
      mSelectors := [];
    }

    method AddStreamSelector(selector: Selector.Fields) returns (r: Result<()>)
      requires Valid()
      modifies this
      ensures Valid()
      ensures r.Ok? <==> Accepts(old(mSelectors), selector)
      ensures r.Ok? <==>
              && selector.network != ""
              && forall mine :: mine in old(mSelectors) ==>
                   || mine.network != selector.network || mine.station != selector.station
                   || Selector.SelectorText(mine) != Selector.SelectorText(selector)
      ensures mSelectors == old(mSelectors) + if r.Ok? then [selector] else []
    {
      if selector.network == "" {
        return Err(InvalidArgument);
      }
      for i := 0 to |mSelectors|
        invariant forall j :: 0 <= j < i ==> KeyOf(mSelectors[j]) != KeyOf(selector)
        invariant mSelectors == old(mSelectors)
      {
        var mine := mSelectors[i];
        if mine.network == selector.network && mine.station == selector.station &&
           Selector.SelectorText(mine) == Selector.SelectorText(selector)
        {
          return Err(InvalidArgument);
        }
      }
      mSelectors := mSelectors + [selector];
      return Ok(());
    }
  }

  /** The list after a sequence of calls, rejected ones included. */
  function AddAll(calls: seq<Selector.Fields>): seq<Selector.Fields> {
    if calls == [] then []
    else
      var before := AddAll(calls[..|calls| - 1]);
      var last := calls[|calls| - 1];
      if Accepts(before, last) then before + [last] else before
  }

  /** A selector is either appended, or one with its key is already there. */
  lemma {:induction false} OfferedKeyIsHeld(calls: seq<Selector.Fields>, f: Selector.Fields)
    requires f in calls && f.network != ""
    ensures exists g :: g in AddAll(calls) && KeyOf(g) == KeyOf(f)
  {
    hide KeyOf;
    var init, last := calls[..|calls| - 1], calls[|calls| - 1];
    var before, after := AddAll(init), AddAll(calls);
    if f == last {
      if Accepts(before, last) {
        assert after == before + [f] && f in after;
      } else {
        var i :| 0 <= i < |before| && KeyOf(before[i]) == KeyOf(last);
        assert before[i] in after;
      }
    } else {
      OfferedKeyIsHeld(init, f);
      var g :| g in before && KeyOf(g) == KeyOf(f);
      assert g in after;
    }
  }

  /** Only selectors that were offered with a network are held, and no key twice. */
  lemma {:induction false} HeldOnce(calls: seq<Selector.Fields>)
    ensures Distinct(AddAll(calls))
    ensures forall f :: f in AddAll(calls) ==> f in calls && f.network != ""
  {
    hide KeyOf;
    if calls != [] {
      HeldOnce(calls[..|calls| - 1]);
    }
  }

  /**
   * Over any sequence of calls the list has no two selectors with the same key,
   * and it has one for exactly the keys that were ever offered with a network.
   */
  lemma {:induction false} ListHoldsEachKeyOnce(calls: seq<Selector.Fields>, key: Key)
    ensures Distinct(AddAll(calls))
    ensures (exists g :: g in AddAll(calls) && KeyOf(g) == key) <==>
            (exists f :: f in calls && f.network != "" && KeyOf(f) == key)
  {
    hide KeyOf, AddAll, Distinct;
    HeldOnce(calls);
    if f :| f in calls && f.network != "" && KeyOf(f) == key {
      OfferedKeyIsHeld(calls, f);
    }
  }
}
