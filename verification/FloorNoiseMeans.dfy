/** The noise gate and the floor, for means: with one floor, the widest real values are
    close to those where the runs at it used nothing. */
module FloorNoiseMeans {
  import opened RealArithmetic
  import opened OrderStats
  import opened Summaries
  import opened Comparing
  import opened ComparingLaws
  import opened PeakFloor
  import opened FloorNoise

  /** The sum of the squares. */
  function Squares(s: seq<real>): real {
    if s == [] then 0.0 else Squares(s[..|s| - 1]) + Times(s[|s| - 1], s[|s| - 1])
  }

  lemma SquareOfDifference(x: real, m: real)
    ensures Times(x - m, x - m) == Times(x, x) - 2.0 * Times(m, x) + Times(m, m)
  {
  }

  lemma DeviationsStep(q: real, sum: real, n: real, x: real, m: real)
    ensures q - 2.0 * Times(m, sum) + Times(n, Times(m, m)) + Times(x - m, x - m)
         == q + Times(x, x) - 2.0 * Times(m, sum + x) + Times(n + 1.0, Times(m, m))
  {
    SquareOfDifference(x, m);
    Distributes(m, sum, x);
    Distributes(Times(m, m), n, 1.0);
  }

  lemma {:induction false} DeviationsFromSquares(s: seq<real>, m: real)
    ensures SquaredDeviations(s, m) == Squares(s) - 2.0 * Times(m, Sum(s)) + Times(|s| as real, Times(m, m))
  {
    if s == [] {
      assert Times(m, 0.0) == 0.0 && Times(0.0, Times(m, m)) == 0.0;
    } else {
      var n := |s| - 1;
      DeviationsFromSquares(s[..n], m);
      DeviationsStep(Squares(s[..n]), Sum(s[..n]), n as real, s[n], m);
    }
  }

  /** The largest sum of squares the gate lets pass, for this sum of n samples. */
  function Allowance(n: real, limit: real): real
    requires n > 0.0
  {
    (n + (n - 1.0) * Times(limit, limit)) / n / n
  }

  lemma MeanSquares(q: real, sum: real, n: real)
    requires n > 0.0
    ensures q - 2.0 * Times(sum / n, sum) + Times(n, Times(sum / n, sum / n)) == q - Times(n, Times(sum / n, sum / n))
  {
    var m := sum / n;
    assert sum == n * m;
    assert Times(m, sum) == n * (m * m);
  }

  /** Too wide, in terms of the two sums. */
  lemma WideInSums(q: real, sum: real, n: real, limit: real)
    requires n > 1.0 && sum > 0.0 && limit > 0.0
    ensures var m := sum / n;
      (q - Times(n, Times(m, m))) / (n - 1.0) > Times(Times(limit, m), Times(limit, m))
      <==> q > Times(Allowance(n, limit), Times(sum, sum))
  {
    var m, mm, ll := sum / n, Times(sum / n, sum / n), Times(limit, limit);
    assert Times(Times(limit, m), Times(limit, m)) == ll * mm by {
      assert (limit * m) * (limit * m) == (limit * limit) * (m * m);
    }
    AllowanceOfMean(sum, n, limit);
    var d := q - n * mm;
    QuotientUndone(d, n - 1.0);
    ProductOrders(n - 1.0, ll * mm, d / (n - 1.0));
    assert (n - 1.0) * (ll * mm) == ((n - 1.0) * ll) * mm;
  }

  lemma AllowanceOfMean(sum: real, n: real, limit: real)
    requires n > 0.0
    ensures var mm := Times(sum / n, sum / n);
      Times(Allowance(n, limit), Times(sum, sum)) == n * mm + (n - 1.0) * Times(limit, limit) * mm
  {
    var m, k := sum / n, n + (n - 1.0) * Times(limit, limit);
    assert sum == n * m;
    assert sum * sum == (n * n) * (m * m);
    QuotientUndone(k, n);
    QuotientUndone(k / n, n);
    var a := k / n / n;
    assert a * n * n == k;
    assert a * ((n * n) * (m * m)) == (a * n * n) * (m * m);
    Distributes(m * m, n, (n - 1.0) * Times(limit, limit));
  }

  lemma RootExceeds(r: real, x: real)
    requires r >= 0.0 && x >= 0.0
    ensures r > x <==> Times(r, r) > Times(x, x)
  {
    if r > x {
      ProductMonotone(r, x, r);
      ProductMonotone(x, x, r);
      if r * r == x * x {
        Difference(r, x);
      }
    } else {
      ProductMonotone(x, r, x);
      ProductMonotone(r, r, x);
    }
  }

  lemma QuotientExceeds(r: real, m: real, limit: real)
    requires m > 0.0
    ensures r / m > limit <==> r > Times(limit, m)
  {
    QuotientUndone(r, m);
    ProductOrders(m, limit, r / m);
  }

  /** The spread of the mean exceeds the limit when the squares exceed the allowance. */
  lemma SpreadExceeds(s: seq<real>, sqrt: Root, limit: real)
    requires |s| >= 2 && Sum(s) > 0.0 && limit > 0.0 && IsRoot(sqrt)
    ensures Spread(s, sqrt) > limit <==> Exceeds(Squares(s), Sum(s), Allowance(|s| as real, limit)) == true
  {
    var n, m := |s| as real, MeanOf(s);
    QuotientSign(Sum(s), n);
    VarianceNotNegative(s);
    QuotientExceeds(Deviation(s, sqrt), m, limit);
    ProductNotNegative(limit, m);
    RootExceeds(Deviation(s, sqrt), Times(limit, m));
    DeviationsFromSquares(s, m);
    MeanSquares(Squares(s), Sum(s), n);
    WideInSums(Squares(s), Sum(s), n, limit);
  }

  // The widest values.

  /** The samples with nothing in the marked places. */
  function Bare(s: seq<real>, mask: seq<bool>): seq<real>
    requires |mask| == |s|
  {
    Lowered(s, mask, 0.0)
  }

  /** Values that agree where the bare ones are at least f, and are at most f elsewhere. */
  predicate Dressed(truth: seq<real>, bare: seq<real>, f: real) {
    && |truth| == |bare|
    && forall i | 0 <= i < |bare| ::
         (truth[i] == bare[i] && bare[i] >= f) || (bare[i] == 0.0 && 0.0 <= truth[i] <= f)
  }

  lemma SquareBetween(x: real, f: real)
    requires 0.0 <= x
    ensures x <= f ==> Times(x, x) <= Times(f, x)
    ensures x >= f ==> Times(x, x) >= Times(f, x)
  {
    if x <= f {
      ProductMonotone(x, x, f);
    } else {
      ProductMonotone(x, f, x);
    }
  }

  /** What dressing the first samples adds to the sum and to the squares. */
  predicate Adds(sum: real, squares: real, bareSum: real, bareSquares: real, f: real) {
    bareSum <= sum && squares - bareSquares <= Times(f, sum - bareSum) && Times(f, bareSum) <= bareSquares
  }

  lemma AddsOne(sum: real, squares: real, bareSum: real, bareSquares: real, f: real, x: real, b: real)
    requires Adds(sum, squares, bareSum, bareSquares, f)
    requires f >= 0.0 && ((x == b && b >= f) || (b == 0.0 && 0.0 <= x <= f))
    ensures Adds(sum + x, squares + Times(x, x), bareSum + b, bareSquares + Times(b, b), f)
  {
    DressedOne(x, b, f);
    Distributes(f, sum - bareSum, x - b);
    Distributes(f, bareSum, b);
    assert sum + x - (bareSum + b) == (sum - bareSum) + (x - b);
  }

  lemma {:induction false} DressingAdds(truth: seq<real>, bare: seq<real>, f: real)
    requires Dressed(truth, bare, f) && f >= 0.0
    ensures Adds(Sum(truth), Squares(truth), Sum(bare), Squares(bare), f) == true
  {
    if bare == [] {
      assert Times(f, 0.0) == 0.0;
    } else {
      var n := |bare| - 1;
      DressingAdds(truth[..n], bare[..n], f);
      AddsOne(Sum(truth[..n]), Squares(truth[..n]), Sum(bare[..n]), Squares(bare[..n]), f, truth[n], bare[n]);
    }
  }

  lemma DressedOne(x: real, b: real, f: real)
    requires f >= 0.0 && ((x == b && b >= f) || (b == 0.0 && 0.0 <= x <= f))
    ensures Times(x, x) - Times(b, b) <= Times(f, x - b) && Times(f, b) <= Times(b, b)
  {
    SquareBetween(x, f);
    SquareBetween(b, f);
    assert Times(f, x - b) == Times(f, x) - Times(f, b) by {
      Distributes(f, x, b);
    }
  }

  lemma SquareOfSum(a: real, s: real, u: real)
    ensures Times(a, Times(s + u, s + u)) == Times(a, Times(s, s)) + 2.0 * Times(Times(a, s), u) + Times(a, Times(u, u))
  {
    assert (s + u) * (s + u) == s * s + 2.0 * (s * u) + u * u;
    Distributes(a, s * s + 2.0 * (s * u), u * u);
    Distributes(a, s * s, 2.0 * (s * u));
    assert a * (s * u) == (a * s) * u;
  }

  /** What is added stays within the allowance. */
  lemma AllowanceGrows(a: real, f: real, q: real, s: real, v: real, u: real)
    requires a >= 0.0 && f >= 0.0 && s > 0.0 && u >= 0.0 && Times(f, s) <= q && v <= Times(f, u)
    requires q <= Times(a, Times(s, s))
    ensures q + v <= Times(a, Times(s + u, s + u))
  {
    assert Times(a, Times(s, s)) == Times(s, Times(a, s));
    TimesOrders(s, f, Times(a, s));
    assert Times(s, f) == Times(f, s);
    ProductMonotone(u, f, Times(a, s));
    assert Times(f, u) == u * f && Times(Times(a, s), u) == u * Times(a, s);
    ProductNotNegative(f, u);
    SquareNotNegative(u);
    ProductNotNegative(a, Times(u, u));
    SquareOfSum(a, s, u);
  }

  lemma {:induction false} SquaresWithinSquare(s: seq<real>)
    requires forall i | 0 <= i < |s| :: s[i] >= 0.0
    ensures Sum(s) >= 0.0 && Squares(s) <= Times(Sum(s), Sum(s))
  {
    if s != [] {
      var n := |s| - 1;
      SquaresWithinSquare(s[..n]);
      ProductNotNegative(Sum(s[..n]), s[n]);
      SquareOfSum(1.0, Sum(s[..n]), s[n]);
    }
  }

  lemma {:induction false} OneNonzero(s: seq<real>, g: nat)
    requires forall i | 0 <= i < |s| && i != g :: s[i] == 0.0
    ensures Sum(s) == (if g < |s| then s[g] else 0.0)
    ensures Squares(s) == if g < |s| then Times(s[g], s[g]) else 0.0
  {
    if s != [] {
      OneNonzero(s[..|s| - 1], g);
    }
  }

  /** What lowering to t instead of nothing adds. */
  predicate LoweredBy(sum: real, squares: real, bareSum: real, bareSquares: real, k: real, t: real) {
    sum == bareSum + Times(k, t) && squares >= bareSquares
  }

  lemma LoweredOne(sum: real, squares: real, bareSum: real, bareSquares: real, k: real, t: real)
    requires LoweredBy(sum, squares, bareSum, bareSquares, k, t)
    ensures LoweredBy(sum + t, squares + Times(t, t), bareSum + 0.0, bareSquares + Times(0.0, 0.0), k + 1.0, t)
  {
    SquareNotNegative(t);
    Distributes(t, k, 1.0);
  }

  lemma KeptOne(sum: real, squares: real, bareSum: real, bareSquares: real, k: real, t: real, x: real)
    requires LoweredBy(sum, squares, bareSum, bareSquares, k, t)
    ensures LoweredBy(sum + x, squares + Times(x, x), bareSum + x, bareSquares + Times(x, x), k, t)
  {
  }

  lemma LoweredAddsOne(low: seq<real>, bare: seq<real>, k: real, t: real, x: real, marked: bool)
    requires LoweredBy(Sum(low), Squares(low), Sum(bare), Squares(bare), k, t) == true
    ensures var low', bare' := low + [if marked then t else x], bare + [if marked then 0.0 else x];
      LoweredBy(Sum(low'), Squares(low'), Sum(bare'), Squares(bare'), if marked then k + 1.0 else k, t) == true
  {
    SumsSnoc(low, if marked then t else x);
    SumsSnoc(bare, if marked then 0.0 else x);
    if marked {
      LoweredOne(Sum(low), Squares(low), Sum(bare), Squares(bare), k, t);
    } else {
      KeptOne(Sum(low), Squares(low), Sum(bare), Squares(bare), k, t, x);
    }
  }

  lemma {:induction false} LoweredAdds(s: seq<real>, mask: seq<bool>, t: real)
    requires |mask| == |s|
    ensures LoweredBy(Sum(Lowered(s, mask, t)), Squares(Lowered(s, mask, t)),
                      Sum(Bare(s, mask)), Squares(Bare(s, mask)), Marks(mask) as real, t) == true
  {
    if s == [] {
      assert Times(0.0, t) == 0.0;
    } else {
      var n := |s| - 1;
      LoweredAdds(s[..n], mask[..n], t);
      LoweredAddsOne(Lowered(s[..n], mask[..n], t), Bare(s[..n], mask[..n]), Marks(mask[..n]) as real, t, s[n], mask[n]);
      LoweredSnoc(s, mask, t);
      LoweredSnoc(s, mask, 0.0);
    }
  }

  lemma SumsSnoc(s: seq<real>, x: real)
    ensures Sum(s + [x]) == Sum(s) + x && Squares(s + [x]) == Squares(s) + Times(x, x)
  {
    assert (s + [x])[..|s|] == s;
  }

  function Smaller(a: real, b: real): real {
    if a <= b then a else b
  }

  /** A step small enough not to use up what is left. */
  lemma SmallStep(left: real, cost: real, q: real) returns (t: real)
    requires left > 0.0 && cost >= 0.0 && q > 0.0
    ensures 0.0 < t <= 1.0 && t < q && Times(t, cost) < left
  {
    var part := left / (cost + 1.0);
    QuotientSign(left, cost + 1.0);
    QuotientUndone(left, cost + 1.0);
    t := Smaller(1.0, Smaller(q / 2.0, part));
    ProductMonotone(cost, t, part);
    Distributes(part, cost, 1.0);
  }

  predicate Exceeds(squares: real, sum: real, a: real) {
    squares > Times(a, Times(sum, sum))
  }

  /** Values near the bare ones exceed the allowance when those do. */
  lemma StillExceeds(a: real, squares: real, sum: real, m: real, q: real) returns (t: real)
    requires a >= 0.0 && sum >= 0.0 && m >= 0.0 && q > 0.0 && Exceeds(squares, sum, a)
    ensures 0.0 < t < q
    ensures Exceeds(squares, sum + Times(m, t), a) == true
  {
    var cost := Times(Times(a, m), 2.0 * sum + m);
    ProductNotNegative(a, m);
    ProductNotNegative(a * m, 2.0 * sum + m);
    t := SmallStep(squares - Times(a, Times(sum, sum)), cost, q);
    StepCosts(a, sum, m, t);
  }

  lemma StepCosts(a: real, sum: real, m: real, t: real)
    requires a >= 0.0 && sum >= 0.0 && m >= 0.0 && 0.0 < t <= 1.0
    ensures Times(a, Times(sum + Times(m, t), sum + Times(m, t)))
         <= Times(a, Times(sum, sum)) + Times(t, Times(Times(a, m), 2.0 * sum + m))
  {
    var u := Times(m, t);
    StepIsSmaller(m, t);
    SquareOfSum(a, sum, u);
    CostOfStep(a, sum, m, u);
    StepFactor(a, m, t, 2.0 * sum + m);
  }

  lemma StepIsSmaller(m: real, t: real)
    requires m >= 0.0 && 0.0 < t <= 1.0
    ensures 0.0 <= Times(m, t) <= m
  {
    ProductNotNegative(m, t);
    ProductMonotone(m, t, 1.0);
  }

  lemma CostOfStep(a: real, sum: real, m: real, u: real)
    requires a >= 0.0 && 0.0 <= u <= m
    ensures 2.0 * Times(Times(a, sum), u) + Times(a, Times(u, u)) <= Times(Times(a, u), 2.0 * sum + m)
  {
    var w := a * u;
    ProductNotNegative(a, u);
    ProductMonotone(w, u, m);
    Distributes(w, 2.0 * sum, m);
    assert (a * sum) * u == w * sum && a * (u * u) == w * u;
  }

  lemma StepFactor(a: real, m: real, t: real, k: real)
    ensures Times(Times(a, Times(m, t)), k) == Times(t, Times(Times(a, m), k))
  {
    assert a * (m * t) == t * (a * m);
  }

  // The real values of runs with one floor.

  /** At least two runs with one floor, and a greatest of them. */
  ghost predicate OneFloor(peaks: seq<int>, floors: seq<int>, floor: int, g: nat) {
    Measured(peaks, floors) && IsGreatest(peaks, g) && |peaks| >= 2 && forall i | 0 <= i < |floors| :: floors[i] == floor
  }

  /** The observed values with nothing used by the runs at the floor, but a greatest one. */
  function Barest(peaks: seq<int>, floors: seq<int>, g: nat): seq<real>
    requires |floors| == |peaks|
  {
    Bare(AsSamples(peaks), AtFloorBut(peaks, floors, g))
  }

  lemma BarestSum(peaks: seq<int>, floors: seq<int>, floor: int, g: nat)
    requires OneFloor(peaks, floors, floor, g)
    ensures Sum(Barest(peaks, floors, g)) > 0.0
  {
    SumWithOne(Barest(peaks, floors, g), 0.0, g);
  }

  lemma TruthSum(truth: seq<real>)
    requires truth != [] && AllPositive(truth)
    ensures Sum(truth) > 0.0
  {
    SumWithOne(truth, 0.0, 0);
  }

  lemma AllowanceNotNegative(n: real, limit: real)
    requires n > 1.0
    ensures Allowance(n, limit) >= 0.0
  {
    SquareNotNegative(limit);
    ProductNotNegative(n - 1.0, Times(limit, limit));
    QuotientSign(n + (n - 1.0) * Times(limit, limit), n);
    QuotientSign((n + (n - 1.0) * Times(limit, limit)) / n, n);
  }

  /** When a greatest run is at the floor all are, and every sum of squares is allowed that
      the square of the sum is. */
  lemma AllAtFloor(truth: seq<real>, bare: seq<real>, g: nat, a: real)
    requires AllPositive(truth) && |bare| == |truth| && g < |bare| && Sum(bare) > 0.0
    requires forall i | 0 <= i < |bare| && i != g :: bare[i] == 0.0
    requires Squares(bare) <= Times(a, Times(Sum(bare), Sum(bare)))
    ensures Squares(truth) <= Times(a, Times(Sum(truth), Sum(truth)))
  {
    OneNonzero(bare, g);
    SquaresWithinSquare(truth);
    SquareNotNegative(Sum(truth));
    assert Squares(bare) == Times(Sum(bare), Sum(bare));
    SquarePositive(Sum(bare));
    AtLeastOne(a, Times(Sum(bare), Sum(bare)), Times(Sum(truth), Sum(truth)));
  }

  lemma SquarePositive(x: real)
    requires x > 0.0
    ensures Times(x, x) > 0.0
  {
    TimesOrders(x, 0.0, x);
    assert Times(x, 0.0) == 0.0;
  }

  lemma AtLeastOne(a: real, square: real, other: real)
    requires square > 0.0 && square <= Times(a, square) && other >= 0.0
    ensures other <= Times(a, other)
  {
    ProductOrders(square, 1.0, a);
    ProductMonotone(other, 1.0, a);
  }

  lemma SomeAboveFloor(truth: seq<real>, bare: seq<real>, f: real, a: real)
    requires Dressed(truth, bare, f) && f >= 0.0 && a >= 0.0 && Sum(bare) > 0.0
    requires Squares(bare) <= Times(a, Times(Sum(bare), Sum(bare)))
    ensures Squares(truth) <= Times(a, Times(Sum(truth), Sum(truth)))
  {
    DressingAdds(truth, bare, f);
    AllowanceGrows(a, f, Squares(bare), Sum(bare), Squares(truth) - Squares(bare), Sum(truth) - Sum(bare));
  }

  lemma TruthIsDressed(truth: seq<real>, peaks: seq<int>, floors: seq<int>, floor: int, g: nat)
    requires OneFloor(peaks, floors, floor, g) && Explains(truth, peaks, floors) && peaks[g] > floor
    ensures Dressed(truth, Barest(peaks, floors, g), floor as real)
  {
    ExplainsMeans(truth, peaks, floors);
  }

  /** No real values are wider than the barest ones. */
  lemma BarestIsWidest(truth: seq<real>, peaks: seq<int>, floors: seq<int>, floor: int, g: nat, sqrt: Root, limit: real)
    requires OneFloor(peaks, floors, floor, g) && Explains(truth, peaks, floors) && AllPositive(truth)
    requires limit > 0.0 && IsRoot(sqrt) && Spread(Barest(peaks, floors, g), sqrt) <= limit
    ensures Spread(truth, sqrt) <= limit
  {
    var bare, a := Barest(peaks, floors, g), Allowance(|peaks| as real, limit);
    BarestSum(peaks, floors, floor, g);
    TruthSum(truth);
    SpreadExceeds(bare, sqrt, limit);
    SpreadExceeds(truth, sqrt, limit);
    AllowanceNotNegative(|peaks| as real, limit);
    if peaks[g] <= floor {
      AllAtFloor(truth, bare, g, a);
    } else {
      TruthIsDressed(truth, peaks, floors, floor, g);
      SomeAboveFloor(truth, bare, floor as real, a);
    }
  }

  lemma ExceedsMore(squares: real, sum: real, bareSquares: real, bareSum: real, k: real, t: real, a: real)
    requires LoweredBy(sum, squares, bareSum, bareSquares, k, t) == true && Exceeds(bareSquares, bareSum + Times(k, t), a) == true
    ensures Exceeds(squares, sum, a) == true
  {
  }

  lemma WideStep(s: seq<real>, mask: seq<bool>, sqrt: Root, limit: real, q: real) returns (t: real)
    requires |mask| == |s| >= 2 && limit > 0.0 && IsRoot(sqrt) && q > 0.0 && Sum(Bare(s, mask)) > 0.0
    requires Spread(Bare(s, mask), sqrt) > limit
    ensures 0.0 < t < q
    ensures Sum(Lowered(s, mask, t)) > 0.0 ==> Spread(Lowered(s, mask, t), sqrt) > limit
  {
    var bare, a := Bare(s, mask), Allowance(|s| as real, limit);
    SpreadExceeds(bare, sqrt, limit);
    AllowanceNotNegative(|s| as real, limit);
    t := StillExceeds(a, Squares(bare), Sum(bare), Marks(mask) as real, q);
    var low := Lowered(s, mask, t);
    LoweredAdds(s, mask, t);
    ExceedsMore(Squares(low), Sum(low), Squares(bare), Sum(bare), Marks(mask) as real, t, a);
    if Sum(low) > 0.0 {
      SpreadExceeds(low, sqrt, limit);
    }
  }

  /** And some are as wide as any limit they exceed. */
  lemma SomeTruthIsWide(peaks: seq<int>, floors: seq<int>, floor: int, g: nat, sqrt: Root, limit: real) returns (truth: seq<real>)
    requires OneFloor(peaks, floors, floor, g) && limit > 0.0 && IsRoot(sqrt)
    requires Spread(Barest(peaks, floors, g), sqrt) > limit
    ensures Explains(truth, peaks, floors) && AllPositive(truth) && Spread(truth, sqrt) > limit
    ensures Greatest(truth) == Greatest(AsSamples(peaks)) && Least(truth) <= Least(AsSamples(peaks))
  {
    var mask, observed := AtFloorBut(peaks, floors, g), AsSamples(peaks);
    PeaksArePositive(peaks, floors);
    BarestSum(peaks, floors, floor, g);
    var t := WideStep(observed, mask, sqrt, limit, Least(observed));
    truth := Lowered(observed, mask, t);
    LoweredIsPossible(peaks, floors, mask, g, t);
    TruthSum(truth);
    LoweredLeast(observed, mask, t);
  }

  lemma LoweredLeast(s: seq<real>, mask: seq<bool>, t: real)
    requires |mask| == |s| > 0 && t < Least(s)
    ensures Least(Lowered(s, mask, t)) <= Least(s)
  {
    StatisticMonotone(Lowered(s, mask, t), s, Min);
  }
}
