/** Order-preserving subsequences, witnessed by the positions that survive. */
module Sequences {

  /** `positions` places every element of `part` in `whole`, left to right. */
  ghost predicate Embeds<T(!new)>(positions: seq<nat>, part: seq<T>, whole: seq<T>) {
    && |positions| == |part|
    && (forall k :: 0 <= k < |part| ==> positions[k] < |whole| && part[k] == whole[positions[k]])
    && (forall j, k :: 0 <= j < k < |part| ==> positions[j] < positions[k])
  }

  ghost predicate IsSubsequence<T(!new)>(part: seq<T>, whole: seq<T>) {
    exists positions: seq<nat> :: Embeds(positions, part, whole)
  }

  lemma PrefixIsSubsequence<T(!new)>(part: seq<T>, rest: seq<T>)
    ensures IsSubsequence(part, part + rest)
  {
    var positions: seq<nat> := seq(|part|, i requires 0 <= i < |part| => i);
    assert Embeds(positions, part, part + rest);
  }

  lemma SubsequenceIsTransitive<T(!new)>(a: seq<T>, b: seq<T>, c: seq<T>)
    requires IsSubsequence(a, b) && IsSubsequence(b, c)
    ensures IsSubsequence(a, c)
  {
    var inner: seq<nat> :| Embeds(inner, a, b);
    var outer: seq<nat> :| Embeds(outer, b, c);
    var both: seq<nat> := seq(|a|, k requires 0 <= k < |a| => outer[inner[k]]);
    assert Embeds(both, a, c);
  }

  /** Appending to the whole, and optionally to the part as well, keeps the order. */
  lemma SubsequenceGrows<T(!new)>(part: seq<T>, whole: seq<T>, x: T)
    requires IsSubsequence(part, whole)
    ensures IsSubsequence(part, whole + [x])
    ensures IsSubsequence(part + [x], whole + [x])
  {
    var positions: seq<nat> :| Embeds(positions, part, whole);
    assert Embeds(positions, part, whole + [x]);
    assert Embeds(positions + [|whole|], part + [x], whole + [x]);
  }
}
