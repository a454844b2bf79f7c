/** Lloyd's iteration over the dequantized sample, and why it never makes the clustering worse.
  * Cells that win no sample row keep their old centroid.
  */
module Lloyd {
  import opened Grid

  /** The lowest-index centroid nearest to `x` among the first `k`. */
  function Nearest(x: Codes, cents: seq<Vec>, k: nat): (c: nat)
    requires 1 <= k <= |cents|
    ensures c < k
    ensures forall j | 0 <= j < k :: Dist2(cents[c], x) <= Dist2(cents[j], x)
    ensures forall j | 0 <= j < c :: Dist2(cents[c], x) < Dist2(cents[j], x)
  {
    if k == 1 then 0
    else
      var b := Nearest(x, cents, k - 1);
      if Dist2(cents[k - 1], x) < Dist2(cents[b], x) then k - 1 else b
  }

  function Plus(v: Vec, x: Codes): (r: Vec)
    ensures forall d | 0 <= d < DIMS :: r[d] == v[d] + Dequant(x[d])
  {
    seq(DIMS, d requires 0 <= d < DIMS => v[d] + Dequant(x[d]))
  }

  function Zero(): Vec {
    seq(DIMS, _ => 0.0)
  }

  function Scaled(v: Vec, n: nat): (r: Vec)
    requires n > 0
    ensures forall d | 0 <= d < DIMS :: r[d] == v[d] / n as real
  {
    seq(DIMS, d requires 0 <= d < DIMS => v[d] / n as real)
  }

  function Cnt(sample: seq<Codes>, cents: seq<Vec>, k: nat, c: nat, i: nat): nat
    requires 1 <= k <= |cents| && i <= |sample|
  {
    if i == 0 then 0
    else Cnt(sample, cents, k, c, i - 1) + if Nearest(sample[i - 1], cents, k) == c then 1 else 0
  }

  /** Sum of the first `i` sample rows that cell `c` wins. */
  function SumOf(sample: seq<Codes>, cents: seq<Vec>, k: nat, c: nat, i: nat): Vec
    requires 1 <= k <= |cents| && i <= |sample|
  {
    if i == 0 then Zero()
    else if Nearest(sample[i - 1], cents, k) == c then Plus(SumOf(sample, cents, k, c, i - 1), sample[i - 1])
    else SumOf(sample, cents, k, c, i - 1)
  }

  function Moved(sample: seq<Codes>, cents: seq<Vec>, k: nat, c: nat): Vec
    requires 1 <= k <= |cents| && c < k
  {
    var n := Cnt(sample, cents, k, c, |sample|);
    if n == 0 then cents[c] else Scaled(SumOf(sample, cents, k, c, |sample|), n)
  }

  function Step(sample: seq<Codes>, cents: seq<Vec>): (r: seq<Vec>)
    requires 1 <= |cents|
    ensures |r| == |cents|
    ensures forall c | 0 <= c < |cents| :: r[c] == Moved(sample, cents, |cents|, c)
  {
    seq(|cents|, c requires 0 <= c < |cents| => Moved(sample, cents, |cents|, c))
  }

  function Iterate(sample: seq<Codes>, cents: seq<Vec>, iters: nat): (r: seq<Vec>)
    requires 1 <= |cents|
    ensures |r| == |cents|
  {
    if iters == 0 then cents else Step(sample, Iterate(sample, cents, iters - 1))
  }

  /** Sum of squared distances of the first `i` sample rows to their nearest centroid. */
  function Cost(sample: seq<Codes>, cents: seq<Vec>, i: nat): real
    requires 1 <= |cents| && i <= |sample|
  {
    if i == 0 then 0.0
    else Cost(sample, cents, i - 1) + Dist2(cents[Nearest(sample[i - 1], cents, |cents|)], sample[i - 1])
  }

  // --- the same sum with the assignment frozen, cell by cell ---

  /** Cost of the rows cell `c` wins under `prior`, measured to `v`. */
  function CellCost(sample: seq<Codes>, prior: seq<Vec>, c: nat, v: Vec, i: nat): real
    requires 1 <= |prior| && i <= |sample|
  {
    if i == 0 then 0.0
    else
      var more := if Nearest(sample[i - 1], prior, |prior|) == c then Dist2(v, sample[i - 1]) else 0.0;
      CellCost(sample, prior, c, v, i - 1) + more
  }

  /** Assignment under `prior`, distances to `cents`, summed over the first `k` cells. */
  function FrozenCost(sample: seq<Codes>, prior: seq<Vec>, cents: seq<Vec>, k: nat, i: nat): real
    requires 1 <= |prior| && k <= |cents| && i <= |sample|
  {
    if k == 0 then 0.0
    else FrozenCost(sample, prior, cents, k - 1, i) + CellCost(sample, prior, k - 1, cents[k - 1], i)
  }

  /** One more row adds its distance once, in the cell that wins it. */
  lemma {:induction false} FrozenStep(sample: seq<Codes>, prior: seq<Vec>, cents: seq<Vec>, k: nat, i: nat)
    requires 1 <= |prior| && k <= |cents| == |prior| && 0 < i <= |sample|
    ensures FrozenCost(sample, prior, cents, k, i) ==
      FrozenCost(sample, prior, cents, k, i - 1) +
      var w := Nearest(sample[i - 1], prior, |prior|); if w < k then Dist2(cents[w], sample[i - 1]) else 0.0
  {
    hide Nearest, Dist2;
    if k > 0 {
      FrozenStep(sample, prior, cents, k - 1, i);
    }
  }

  lemma {:induction false} FrozenZero(sample: seq<Codes>, prior: seq<Vec>, cents: seq<Vec>, k: nat)
    requires 1 <= |prior| && k <= |cents|
    ensures FrozenCost(sample, prior, cents, k, 0) == 0.0
  {
    if k > 0 {
      FrozenZero(sample, prior, cents, k - 1);
    }
  }

  /** Re-assigning to the nearest centroid costs no more than any frozen assignment, and exactly as
    * much as its own. */
  lemma {:induction false} ReassignHelps(sample: seq<Codes>, prior: seq<Vec>, cents: seq<Vec>, i: nat)
    requires 1 <= |prior| == |cents| && i <= |sample|
    ensures Cost(sample, cents, i) <= FrozenCost(sample, prior, cents, |cents|, i)
    ensures prior == cents ==> Cost(sample, cents, i) == FrozenCost(sample, prior, cents, |cents|, i)
  {
    if i == 0 {
      FrozenZero(sample, prior, cents, |cents|);
    } else {
      ReassignHelps(sample, prior, cents, i - 1);
      FrozenStep(sample, prior, cents, |cents|, i);
      hide Dist2;
      var w := Nearest(sample[i - 1], prior, |prior|);
      var b := Nearest(sample[i - 1], cents, |cents|);
      assert Dist2(cents[b], sample[i - 1]) <= Dist2(cents[w], sample[i - 1]);
    }
  }

  // --- the mean minimises a cell's cost ---

  function Dev(y: real, x: real): real {
    (y - x) * (y - x)
  }

  /** Squared deviation of coordinate `d` of the rows of cell `c` from `y`. */
  function DimCost(sample: seq<Codes>, prior: seq<Vec>, c: nat, d: nat, y: real, i: nat): real
    requires 1 <= |prior| && i <= |sample| && d < DIMS
  {
    if i == 0 then 0.0
    else
      var more := if Nearest(sample[i - 1], prior, |prior|) == c then Dev(y, Dequant(sample[i - 1][d])) else 0.0;
      DimCost(sample, prior, c, d, y, i - 1) + more
  }

  function DimCosts(sample: seq<Codes>, prior: seq<Vec>, c: nat, v: Vec, i: nat): (s: seq<real>)
    requires 1 <= |prior| && i <= |sample|
    ensures |s| == DIMS && forall d | 0 <= d < DIMS :: s[d] == DimCost(sample, prior, c, d, v[d], i)
  {
    seq(DIMS, d requires 0 <= d < DIMS => DimCost(sample, prior, c, d, v[d], i))
  }

  lemma {:induction false} SumPlus(u: seq<real>, v: seq<real>, w: seq<real>, k: nat)
    requires |u| == |v| == |w| && k <= |u|
    requires forall i | 0 <= i < |u| :: w[i] == u[i] + v[i]
    ensures SumTo(w, k) == SumTo(u, k) + SumTo(v, k)
  {
    if k > 0 {
      SumPlus(u, v, w, k - 1);
    }
  }

  lemma {:induction false} SumOfZeros(u: seq<real>, k: nat)
    requires k <= |u| && forall i | 0 <= i < |u| :: u[i] == 0.0
    ensures SumTo(u, k) == 0.0
  {
    if k > 0 {
      SumOfZeros(u, k - 1);
    }
  }

  lemma {:induction false} SumMonotone(u: seq<real>, v: seq<real>, k: nat)
    requires |u| == |v| && k <= |u|
    requires forall i | 0 <= i < |u| :: u[i] <= v[i]
    ensures SumTo(u, k) <= SumTo(v, k)
  {
    if k > 0 {
      SumMonotone(u, v, k - 1);
    }
  }

  lemma {:induction false} CellCostByDim(sample: seq<Codes>, prior: seq<Vec>, c: nat, v: Vec, i: nat)
    requires 1 <= |prior| && i <= |sample|
    ensures CellCost(sample, prior, c, v, i) == SumTo(DimCosts(sample, prior, c, v, i), DIMS)
  {
    if i == 0 {
      SumOfZeros(DimCosts(sample, prior, c, v, 0), DIMS);
    } else {
      CellCostByDim(sample, prior, c, v, i - 1);
      var x := sample[i - 1];
      var before, now := DimCosts(sample, prior, c, v, i - 1), DimCosts(sample, prior, c, v, i);
      if Nearest(x, prior, |prior|) == c {
        forall d | 0 <= d < DIMS
          ensures now[d] == before[d] + Terms(v, x)[d]
        {
        }
        SumPlus(before, Terms(v, x), now, DIMS);
      } else {
        assert now == before;
      }
    }
  }

  function Parabola(n: nat, s: real, squares: real, y: real): real {
    n as real * (y * y) - 2.0 * (y * s) + squares
  }

  /** The cost in one coordinate is a parabola in the centroid's coordinate. */
  lemma {:induction false} DimCostIsParabola(sample: seq<Codes>, prior: seq<Vec>, c: nat, d: nat, y: real, i: nat)
    requires 1 <= |prior| && i <= |sample| && d < DIMS
    ensures DimCost(sample, prior, c, d, y, i) ==
      Parabola(Cnt(sample, prior, |prior|, c, i), SumOf(sample, prior, |prior|, c, i)[d],
               DimCost(sample, prior, c, d, 0.0, i), y)
  {
    if i == 0 {
      assert Parabola(0, 0.0, 0.0, y) == 0.0;
    } else {
      DimCostIsParabola(sample, prior, c, d, y, i - 1);
      hide Nearest, Dequant, Parabola, Dev;
      ParabolaStep(Cnt(sample, prior, |prior|, c, i - 1), SumOf(sample, prior, |prior|, c, i - 1)[d],
                   DimCost(sample, prior, c, d, 0.0, i - 1), y, Dequant(sample[i - 1][d]));
    }
  }

  lemma ParabolaStep(n: nat, s: real, squares: real, y: real, x: real)
    ensures Parabola(n, s, squares, y) + Dev(y, x) == Parabola(n + 1, s + x, squares + Dev(0.0, x), y)
  {
    assert y * (s + x) == y * s + y * x;
    assert (y - x) * (y - x) == y * y - 2.0 * (y * x) + x * x;
    assert (n as real + 1.0) * (y * y) == n as real * (y * y) + y * y;
  }

  lemma VertexIsLowest(n: nat, s: real, squares: real, m: real, y: real)
    requires n > 0 && m == s / n as real
    ensures Parabola(n, s, squares, m) <= Parabola(n, s, squares, y)
  {
    var k := n as real;
    assert s == k * m;
    assert y * s == k * (y * m) && m * s == k * (m * m);
    assert (y - m) * (y - m) >= 0.0;
    assert (y - m) * (y - m) == y * y - 2.0 * (y * m) + m * m;
    assert k * ((y - m) * (y - m)) >= 0.0;
    assert k * ((y - m) * (y - m)) == k * (y * y) - 2.0 * (k * (y * m)) + k * (m * m);
  }

  lemma MeanIsBestInDim(sample: seq<Codes>, prior: seq<Vec>, c: nat, d: nat, y: real)
    requires 1 <= |prior| && c < |prior| && Cnt(sample, prior, |prior|, c, |sample|) > 0 && d < DIMS
    ensures DimCost(sample, prior, c, d, Moved(sample, prior, |prior|, c)[d], |sample|)
         <= DimCost(sample, prior, c, d, y, |sample|)
  {
    hide Nearest, SumOf, Cnt, DimCost, Parabola;
    var i, m := |sample|, Moved(sample, prior, |prior|, c)[d];
    DimCostIsParabola(sample, prior, c, d, m, i);
    DimCostIsParabola(sample, prior, c, d, y, i);
    VertexIsLowest(Cnt(sample, prior, |prior|, c, i), SumOf(sample, prior, |prior|, c, i)[d],
                   DimCost(sample, prior, c, d, 0.0, i), m, y);
  }

  lemma MeanIsBest(sample: seq<Codes>, prior: seq<Vec>, c: nat, v: Vec)
    requires 1 <= |prior| && c < |prior| && Cnt(sample, prior, |prior|, c, |sample|) > 0
    ensures CellCost(sample, prior, c, Moved(sample, prior, |prior|, c), |sample|)
         <= CellCost(sample, prior, c, v, |sample|)
  {
    hide Nearest, SumOf, Cnt, DimCost, CellCost, Moved;
    var i, m := |sample|, Moved(sample, prior, |prior|, c);
    CellCostByDim(sample, prior, c, m, i);
    CellCostByDim(sample, prior, c, v, i);
    var ms, vs := DimCosts(sample, prior, c, m, i), DimCosts(sample, prior, c, v, i);
    forall d | 0 <= d < DIMS
      ensures ms[d] <= vs[d]
    {
      MeanIsBestInDim(sample, prior, c, d, v[d]);
    }
    SumMonotone(ms, vs, DIMS);
  }

  /** A cell that wins none of the first `i` rows costs nothing, and a cell that wins one has a count. */
  lemma {:induction false} CountedIffWon(sample: seq<Codes>, prior: seq<Vec>, c: nat, v: Vec, i: nat)
    requires 1 <= |prior| && i <= |sample|
    ensures Cnt(sample, prior, |prior|, c, i) == 0 <==> forall j | 0 <= j < i :: Nearest(sample[j], prior, |prior|) != c
    ensures Cnt(sample, prior, |prior|, c, i) == 0 ==> CellCost(sample, prior, c, v, i) == 0.0
  {
    hide Nearest, Dist2;
    if i > 0 {
      CountedIffWon(sample, prior, c, v, i - 1);
    }
  }

  /** After an iteration each centroid is as near to the rows that its cell has won as a point can be, and that of
    * a cell that won none is where it was. */
  lemma StepIsBest(sample: seq<Codes>, prior: seq<Vec>, c: nat, v: Vec)
    requires 1 <= |prior| && c < |prior|
    ensures CellCost(sample, prior, c, Step(sample, prior)[c], |sample|) <= CellCost(sample, prior, c, v, |sample|)
    ensures (forall j | 0 <= j < |sample| :: Nearest(sample[j], prior, |prior|) != c) ==>
      Step(sample, prior)[c] == prior[c]
  {
    hide Nearest, CellCost, Cnt, SumOf;
    CountedIffWon(sample, prior, c, v, |sample|);
    CountedIffWon(sample, prior, c, prior[c], |sample|);
    if Cnt(sample, prior, |prior|, c, |sample|) > 0 {
      MeanIsBest(sample, prior, c, v);
    }
  }

  /** Moving every centroid to its mean lowers the frozen cost; empty cells contribute nothing new. */
  lemma {:induction false} MovingHelps(sample: seq<Codes>, cents: seq<Vec>, k: nat)
    requires 1 <= |cents| && k <= |cents|
    ensures FrozenCost(sample, cents, Step(sample, cents), k, |sample|)
         <= FrozenCost(sample, cents, cents, k, |sample|)
  {
    hide CellCost, Cnt, SumOf;
    if k > 0 {
      MovingHelps(sample, cents, k - 1);
      if Cnt(sample, cents, |cents|, k - 1, |sample|) > 0 {
        MeanIsBest(sample, cents, k - 1, cents[k - 1]);
      }
    }
  }

  /** One Lloyd iteration never increases the sample's cost. */
  lemma StepNeverWorse(sample: seq<Codes>, cents: seq<Vec>)
    requires 1 <= |cents|
    ensures Cost(sample, Step(sample, cents), |sample|) <= Cost(sample, cents, |sample|)
  {
    hide Cost, FrozenCost, Step;
    ReassignHelps(sample, cents, cents, |sample|);
    MovingHelps(sample, cents, |cents|);
    ReassignHelps(sample, cents, Step(sample, cents), |sample|);
  }

  /** So training longer never hurts the sample. */
  lemma {:induction false} TrainingNeverWorse(sample: seq<Codes>, seeds: seq<Vec>, fewer: nat, more: nat)
    requires 1 <= |seeds| && fewer <= more
    ensures Cost(sample, Iterate(sample, seeds, more), |sample|)
         <= Cost(sample, Iterate(sample, seeds, fewer), |sample|)
    decreases more
  {
    hide Cost, Step;
    if fewer < more {
      TrainingNeverWorse(sample, seeds, fewer, more - 1);
      StepNeverWorse(sample, Iterate(sample, seeds, more - 1));
    }
  }

  // --- when nothing moves ---

  lemma DistToItself(x: Codes)
    ensures Dist2(DequantVec(x), x) == 0.0
  {
    SumOfZeros(Terms(DequantVec(x), x), DIMS);
  }

  /** Only its own value is at distance 0 from a row. */
  lemma AtDistanceZero(v: Vec, x: Codes)
    requires Dist2(v, x) <= 0.0
    ensures v == DequantVec(x)
  {
    forall d | 0 <= d < DIMS
      ensures v[d] == Dequant(x[d])
    {
      TermAtMostSum(Terms(v, x), DIMS, d);
      OnlyZeroSquares(v[d] - Dequant(x[d]), Term(v, x, d));
    }
  }

  lemma {:induction false} TermAtMostSum(s: seq<real>, k: nat, d: nat)
    requires d < k <= |s| && forall i | 0 <= i < |s| :: 0.0 <= s[i]
    ensures s[d] <= SumTo(s, k)
  {
    if d < k - 1 {
      TermAtMostSum(s, k - 1, d);
    } else {
      SumNonNegative(s, k - 1);
    }
  }

  function Product(x: real, y: real): real {
    x * y
  }

  lemma ProductPositive(x: real, y: real)
    requires x > 0.0 && y > 0.0
    ensures Product(x, y) > 0.0
  {
  }

  lemma OnlyZeroSquares(x: real, square: real)
    requires square == x * x && square <= 0.0
    ensures x == 0.0
  {
    assert square == Product(x, x);
    assert square == Product(-x, -x);
    hide Product;
    if x > 0.0 {
      ProductPositive(x, x);
    } else if x < 0.0 {
      ProductPositive(-x, -x);
    }
  }

  /** A row whose value is among the centroids goes to a centroid with that value. */
  lemma NearestIsValue(x: Codes, cents: seq<Vec>, k: nat, j: nat)
    requires 1 <= k <= |cents| && j < k && cents[j] == DequantVec(x)
    ensures cents[Nearest(x, cents, k)] == DequantVec(x) && Nearest(x, cents, k) <= j
  {
    DistToItself(x);
    AtDistanceZero(cents[Nearest(x, cents, k)], x);
  }

  function Times(n: nat, x: real): real {
    n as real * x
  }

  lemma TimesStep(n: nat, x: real)
    ensures Times(n + 1, x) == Times(n, x) + x && Times(0, x) == 0.0
  {
  }

  /** When every sampled row lies on its centroid, a cell's sum is its count times the centroid. */
  lemma {:induction false} SumOfCopies(sample: seq<Codes>, cents: seq<Vec>, k: nat, c: nat, d: nat, i: nat)
    requires 1 <= k <= |cents| && c < k && d < DIMS && i <= |sample|
    requires forall j | 0 <= j < |sample| :: cents[Nearest(sample[j], cents, k)] == DequantVec(sample[j])
    ensures SumOf(sample, cents, k, c, i)[d] == Times(Cnt(sample, cents, k, c, i), cents[c][d])
  {
    hide Nearest, Dequant, Times, DequantVec;
    if i == 0 {
      TimesStep(0, cents[c][d]);
    } else {
      SumOfCopies(sample, cents, k, c, d, i - 1);
      TimesStep(Cnt(sample, cents, k, c, i - 1), cents[c][d]);
      var x := sample[i - 1];
      if Nearest(x, cents, k) == c {
        assert DequantVec(x)[d] == Dequant(x[d]);
      }
    }
  }

  /** Then an iteration moves nothing, and neither does training. */
  lemma NothingMoves(sample: seq<Codes>, cents: seq<Vec>)
    requires 1 <= |cents|
    requires forall j | 0 <= j < |sample| :: cents[Nearest(sample[j], cents, |cents|)] == DequantVec(sample[j])
    ensures Step(sample, cents) == cents
  {
    hide Nearest, Moved;
    forall c | 0 <= c < |cents|
      ensures Moved(sample, cents, |cents|, c) == cents[c]
    {
      StaysPut(sample, cents, c);
    }
  }

  lemma StaysPut(sample: seq<Codes>, cents: seq<Vec>, c: nat)
    requires c < |cents|
    requires forall j | 0 <= j < |sample| :: cents[Nearest(sample[j], cents, |cents|)] == DequantVec(sample[j])
    ensures Moved(sample, cents, |cents|, c) == cents[c]
  {
    hide Nearest, Cnt, SumOf, Times;
    var n := Cnt(sample, cents, |cents|, c, |sample|);
    if n > 0 {
      var total := SumOf(sample, cents, |cents|, c, |sample|);
      forall d | 0 <= d < DIMS
        ensures Scaled(total, n)[d] == cents[c][d]
      {
        SumOfCopies(sample, cents, |cents|, c, d, |sample|);
        DivideBack(n, cents[c][d]);
      }
      assert Scaled(total, n) == cents[c];
    }
  }

  lemma DivideBack(n: nat, x: real)
    requires n > 0
    ensures Times(n, x) / n as real == x
  {
  }

  lemma {:induction false} TrainingStays(sample: seq<Codes>, cents: seq<Vec>, iters: nat)
    requires 1 <= |cents| && Step(sample, cents) == cents
    ensures Iterate(sample, cents, iters) == cents
  {
    hide Step;
    if iters > 0 {
      TrainingStays(sample, cents, iters - 1);
    }
  }
}
