/** The sums the metrics take over one packet's samples. */
module PacketSums {
  import opened Common
  import opened Statistics
  import P = Packet

  function ToReals(xs: seq<int>): seq<real> {
    seq(|xs|, i requires 0 <= i < |xs| => xs[i] as real)
  }

  function SumInts(xs: seq<int>): int {
    if xs == [] then 0 else SumInts(xs[..|xs| - 1]) + xs[|xs| - 1]
  }

  function SumIntSquares(xs: seq<int>): int {
    if xs == [] then 0 else SumIntSquares(xs[..|xs| - 1]) + xs[|xs| - 1] * xs[|xs| - 1]
  }

  /** Over exact numbers the sums of integer samples are the integer sums. */
  lemma {:induction false} IntegerSums(xs: seq<int>)
    ensures Sum(ToReals(xs)) == SumInts(xs) as real
    ensures SumOfSquares(ToReals(xs)) == SumIntSquares(xs) as real
  {
    if xs == [] {
      assert Squares(ToReals(xs)) == [];
    } else {
      var init, x := xs[..|xs| - 1], xs[|xs| - 1];
      IntegerSums(init);
      assert ToReals(xs) == ToReals(init) + [x as real];
      assert Squares(ToReals(xs)) == Squares(ToReals(init)) + [Square(x as real)];
      SumAppend(ToReals(init), x as real);
      SumAppend(Squares(ToReals(init)), Square(x as real));
    }
  }

  /** The samples of a numeric packet; text has none. */
  function NumericSamples(p: P.State): seq<real> {
    match p.dataType
    case Integer32 => ToReals(p.integer32Data)
    case Float => p.floatData
    case Double => p.doubleData
    case Text => []
    case Unknown => []
  }

  predicate IsNumeric(p: P.State) {
    p.dataType == P.Integer32 || p.dataType == P.Double || p.dataType == P.Float
  }

  method ComputeSumOfSamples(p: P.State) returns (r: Result<real>)
    ensures r == if P.Size(p) < 1 || IsNumeric(p) then Ok(Sum(NumericSamples(p))) else Err(RuntimeError)
  {
    if P.Size(p) < 1 {
      return Ok(0.0);
    }
    if !IsNumeric(p) {
      return Err(RuntimeError);
    }
    var xs := NumericSamples(p);
    var result := 0.0;
    for k := 0 to |xs|
      invariant result == Sum(xs[..k])
    {
      SumAppend(xs[..k], xs[k]);
      assert xs[..k + 1] == xs[..k] + [xs[k]];
      result := result + xs[k];
    }
    assert xs[..|xs|] == xs;
    return Ok(result);
  }

  method ComputeSumOfSamplesSquared(p: P.State) returns (r: Result<real>)
    ensures r == if P.Size(p) < 1 || IsNumeric(p) then Ok(SumOfSquares(NumericSamples(p))) else Err(RuntimeError)
  {
    if P.Size(p) < 1 {
      assert Squares(NumericSamples(p)) == [];
      return Ok(0.0);
    }
    if !IsNumeric(p) {
      return Err(RuntimeError);
    }
    var xs := NumericSamples(p);
    var result := 0.0;
    for k := 0 to |xs|
      invariant result == Sum(Squares(xs)[..k])
    {
      SumAppend(Squares(xs)[..k], Square(xs[k]));
      assert Squares(xs)[..k + 1] == Squares(xs)[..k] + [Square(xs[k])];
      result := result + xs[k] * xs[k];
    }
    assert Squares(xs)[..|xs|] == Squares(xs);
    return Ok(result);
  }
}
