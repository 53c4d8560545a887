/** Sums, mean and population variance of a batch of samples, in exact arithmetic. */
module Statistics {

  /** Products are named so that equal factors visibly give equal products. */
  function Times(a: real, b: real): real {
    a * b
  }

  function Square(x: real): real {
    Times(x, x)
  }

  /** `std::accumulate` from zero. */
  function Sum(xs: seq<real>): real {
    if xs == [] then 0.0 else Sum(xs[..|xs| - 1]) + xs[|xs| - 1]
  }

  function Squares(xs: seq<real>): seq<real> {
    seq(|xs|, i requires 0 <= i < |xs| => Square(xs[i]))
  }

  /** `std::inner_product` of a range with itself, from zero. */
  function SumOfSquares(xs: seq<real>): real {
    Sum(Squares(xs))
  }

  /** The squared distance of every sample from m. */
  function Distances(xs: seq<real>, m: real): seq<real> {
    seq(|xs|, i requires 0 <= i < |xs| => Square(xs[i] - m))
  }

  function Mean(xs: seq<real>): real
    requires xs != []
  {
    Sum(xs) / |xs| as real
  }

  function Variance(xs: seq<real>): real
    requires xs != []
  {
    Sum(Distances(xs, Mean(xs))) / |xs| as real
  }

  /** E[x^2] - E[x]^2, as the program computes it from the running sums. */
  function VarianceFromSums(sum: real, sumOfSquares: real, n: int): real
    requires n > 0
  {
    sumOfSquares / n as real - Square(sum / n as real)
  }

  predicate AllEqual(xs: seq<real>, m: real) {
    forall i :: 0 <= i < |xs| ==> xs[i] == m
  }

  // Arithmetic.

  lemma PositiveTimes(a: real, b: real)
    requires a > 0.0 && b > 0.0
    ensures Times(a, b) > 0.0
  {
  }

  lemma NegateBoth(a: real, b: real)
    ensures Times(-a, -b) == Times(a, b)
  {
  }

  lemma SquareNonNegative(x: real)
    ensures Square(x) >= 0.0
    ensures Square(x) == 0.0 <==> x == 0.0
  {
    if x > 0.0 {
      PositiveTimes(x, x);
    } else if x < 0.0 {
      PositiveTimes(-x, -x);
      NegateBoth(x, x);
    }
  }

  lemma Distribute(a: real, b: real, c: real)
    ensures Times(a, b + c) == Times(a, b) + Times(a, c)
    ensures Times(b + c, a) == Times(b, a) + Times(c, a)
  {
  }

  lemma Commute(a: real, b: real)
    ensures Times(a, b) == Times(b, a)
  {
  }

  lemma Associate(a: real, b: real, c: real)
    ensures Times(a, Times(b, c)) == Times(Times(a, b), c)
  {
  }

  lemma SquareOfDifference(x: real, m: real)
    ensures Square(x - m) == Square(x) - 2.0 * Times(m, x) + Square(m)
  {
  }

  lemma DivideBack(a: real, n: real)
    requires n != 0.0
    ensures Times(a / n, n) == a
  {
  }

  lemma CancelOrder(a: real, b: real, n: real)
    requires n > 0.0 && Times(a, n) <= Times(b, n)
    ensures a <= b
  {
    if b < a {
      PositiveTimes(a - b, n);
      Distribute(n, a - b, b);
    }
  }

  lemma CancelFactor(a: real, b: real, n: real)
    requires n > 0.0 && Times(a, n) == Times(b, n)
    ensures a == b
  {
    CancelOrder(a, b, n);
    CancelOrder(b, a, n);
  }

  lemma ScaleInequality(n: real, a: real, b: real)
    requires n >= 0.0 && a <= b
    ensures Times(n, a) <= Times(n, b)
  {
    Distribute(n, a, b - a);
    if n > 0.0 && b - a > 0.0 {
      PositiveTimes(n, b - a);
    }
  }

  // Sums.

  lemma SumAppend(xs: seq<real>, x: real)
    ensures Sum(xs + [x]) == Sum(xs) + x
  {
    assert (xs + [x])[..|xs|] == xs;
  }

  lemma {:induction false} SumConcat(xs: seq<real>, ys: seq<real>)
    ensures Sum(xs + ys) == Sum(xs) + Sum(ys)
  {
    if ys == [] {
      assert xs + ys == xs;
    } else {
      SumConcat(xs, ys[..|ys| - 1]);
      assert (xs + ys)[..|xs + ys| - 1] == xs + ys[..|ys| - 1];
    }
  }

  /** Splitting the samples into packets does not change either sum. */
  lemma SumsConcat(xs: seq<real>, ys: seq<real>)
    ensures Sum(xs + ys) == Sum(xs) + Sum(ys)
    ensures SumOfSquares(xs + ys) == SumOfSquares(xs) + SumOfSquares(ys)
  {
    SumConcat(xs, ys);
    SumConcat(Squares(xs), Squares(ys));
    assert Squares(xs + ys) == Squares(xs) + Squares(ys);
  }

  lemma {:induction false} SumNonNegative(ys: seq<real>)
    requires forall i :: 0 <= i < |ys| ==> ys[i] >= 0.0
    ensures Sum(ys) >= 0.0
    ensures Sum(ys) == 0.0 <==> AllEqual(ys, 0.0)
  {
    if ys != [] {
      var init, y := ys[..|ys| - 1], ys[|ys| - 1];
      SumNonNegative(init);
      assert ys == init + [y];
      assert AllEqual(ys, 0.0) <==> AllEqual(init, 0.0) && y == 0.0;
    }
  }

  lemma {:induction false} SumIsBetween(xs: seq<real>, lo: real, hi: real)
    requires forall i :: 0 <= i < |xs| ==> lo <= xs[i] <= hi
    ensures Times(lo, |xs| as real) <= Sum(xs) <= Times(hi, |xs| as real)
  {
    if xs != [] {
      var n := (|xs| - 1) as real;
      SumIsBetween(xs[..|xs| - 1], lo, hi);
      assert |xs| as real == n + 1.0;
      Distribute(lo, n, 1.0);
      Distribute(hi, n, 1.0);
    }
  }

  // The mean and the variance.

  lemma MeanIsBetween(xs: seq<real>, lo: real, hi: real)
    requires xs != [] && forall i :: 0 <= i < |xs| ==> lo <= xs[i] <= hi
    ensures lo <= Mean(xs) <= hi
  {
    SumIsBetween(xs, lo, hi);
    DivideBack(Sum(xs), |xs| as real);
    CancelOrder(lo, Mean(xs), |xs| as real);
    CancelOrder(Mean(xs), hi, |xs| as real);
  }

  lemma DistancesNonNegative(xs: seq<real>, m: real)
    ensures Sum(Distances(xs, m)) >= 0.0
    ensures Sum(Distances(xs, m)) == 0.0 <==> AllEqual(xs, m)
  {
    var ds := Distances(xs, m);
    forall i | 0 <= i < |ds| ensures ds[i] >= 0.0 && (ds[i] == 0.0 <==> xs[i] == m) {
      SquareNonNegative(xs[i] - m);
    }
    SumNonNegative(ds);
  }

  /** The sum of squared distances from m, given the three running sums. */
  function Expanded(sumOfSquares: real, sum: real, n: real, m: real): real {
    sumOfSquares - 2.0 * Times(m, sum) + Times(n, Square(m))
  }

  lemma ExpandStep(q: real, s: real, n: real, m: real, x: real)
    ensures Expanded(q, s, n, m) + Square(x - m) == Expanded(q + Square(x), s + x, n + 1.0, m)
  {
    SquareOfDifference(x, m);
    Distribute(m, s, x);
    Distribute(Square(m), n, 1.0);
  }

  lemma SumsAppend(xs: seq<real>, x: real, m: real)
    ensures Sum(xs + [x]) == Sum(xs) + x
    ensures SumOfSquares(xs + [x]) == SumOfSquares(xs) + Square(x)
    ensures Sum(Distances(xs + [x], m)) == Sum(Distances(xs, m)) + Square(x - m)
  {
    SumAppend(xs, x);
    assert Squares(xs + [x]) == Squares(xs) + [Square(x)];
    SumAppend(Squares(xs), Square(x));
    assert Distances(xs + [x], m) == Distances(xs, m) + [Square(x - m)];
    SumAppend(Distances(xs, m), Square(x - m));
  }

  lemma {:induction false} DistancesExpanded(xs: seq<real>, m: real)
    ensures Sum(Distances(xs, m)) == Expanded(SumOfSquares(xs), Sum(xs), |xs| as real, m)
  {
    if xs == [] {
      assert Squares(xs) == [] && Distances(xs, m) == [];
    } else {
      var x, init := xs[|xs| - 1], xs[..|xs| - 1];
      var n := |init| as real;
      assert xs == init + [x] && |xs| as real == n + 1.0;
      calc {
        Sum(Distances(xs, m));
        { SumsAppend(init, x, m); }
        Sum(Distances(init, m)) + Square(x - m);
        { DistancesExpanded(init, m); }
        Expanded(SumOfSquares(init), Sum(init), n, m) + Square(x - m);
        { ExpandStep(SumOfSquares(init), Sum(init), n, m, x); }
        Expanded(SumOfSquares(init) + Square(x), Sum(init) + x, n + 1.0, m);
        { SumsAppend(init, x, m); }
        Expanded(SumOfSquares(xs), Sum(xs), |xs| as real, m);
      }
    }
  }

  /** Around the mean the linear term cancels. */
  lemma ExpandedAtMean(q: real, s: real, n: real, m: real)
    requires Times(m, n) == s
    ensures Expanded(q, s, n, m) == q - Times(n, Square(m))
  {
    Associate(m, m, n);
    Commute(Square(m), n);
  }

  /** The squared distances from the mean, from the three sums. */
  lemma DistancesFromMean(xs: seq<real>)
    requires xs != []
    ensures Sum(Distances(xs, Mean(xs))) == SumOfSquares(xs) - Times(|xs| as real, Square(Mean(xs)))
    ensures Times(Mean(xs), |xs| as real) == Sum(xs)
  {
    DistancesExpanded(xs, Mean(xs));
    DivideBack(Sum(xs), |xs| as real);
    ExpandedAtMean(SumOfSquares(xs), Sum(xs), |xs| as real, Mean(xs));
  }

  lemma DivideDifference(q: real, b: real, n: real)
    requires n > 0.0
    ensures (q - Times(n, b)) / n == q / n - b
  {
    var x, y := (q - Times(n, b)) / n, q / n;
    DivideBack(q, n);
    DivideBack(q - Times(n, b), n);
    Commute(n, b);
    Distribute(n, y - b, b);
    CancelFactor(x, y - b, n);
  }

  lemma FormulaStep(d: real, q: real, m: real, n: real)
    requires n > 0.0 && d == q - Times(n, Square(m))
    ensures d / n == q / n - Square(m)
  {
    DivideDifference(q, Square(m), n);
  }

  /** The one-pass formula is the population variance of the batch. */
  lemma VarianceFormula(xs: seq<real>)
    requires xs != []
    ensures VarianceFromSums(Sum(xs), SumOfSquares(xs), |xs|) == Variance(xs)
  {
    DistancesFromMean(xs);
    FormulaStep(Sum(Distances(xs, Mean(xs))), SumOfSquares(xs), Mean(xs), |xs| as real);
  }

  lemma QuotientSign(a: real, n: real)
    requires a >= 0.0 && n > 0.0
    ensures a / n >= 0.0
    ensures a / n == 0.0 <==> a == 0.0
  {
    DivideBack(a, n);
    CancelOrder(0.0, a / n, n);
  }

  /** Never negative, and zero exactly when all samples agree. */
  lemma VarianceNonNegative(xs: seq<real>)
    requires xs != []
    ensures Variance(xs) >= 0.0
    ensures Variance(xs) == 0.0 <==> AllEqual(xs, xs[0])
  {
    DistancesNonNegative(xs, Mean(xs));
    if AllEqual(xs, xs[0]) {
      MeanIsBetween(xs, xs[0], xs[0]);
    }
    QuotientSign(Sum(Distances(xs, Mean(xs))), |xs| as real);
  }

  lemma CauchyStep(n: real, m: real, s: real, q: real)
    requires n >= 0.0 && q >= Times(n, Square(m)) && Times(m, n) == s
    ensures Times(n, q) >= Square(s)
  {
    ScaleInequality(n, Times(n, Square(m)), q);
    Commute(m, n);
    Associate(n, m, m);
    Associate(n, s, m);
    Commute(n, s);
    Associate(s, n, m);
  }

  /** n times the sum of squares dominates the square of the sum. */
  lemma CauchySchwarz(xs: seq<real>)
    ensures Times(|xs| as real, SumOfSquares(xs)) >= Square(Sum(xs))
  {
    if xs != [] {
      DistancesFromMean(xs);
      DistancesNonNegative(xs, Mean(xs));
      CauchyStep(|xs| as real, Mean(xs), Sum(xs), SumOfSquares(xs));
    }
  }
}
