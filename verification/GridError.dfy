/** How far the integer metric is from the exact one, and exactly when the cross-bucket prune,
  * which mixes the two, is safe for the integer collector.
  */
module GridError {
  import opened Grid

  // --- rounding the query moves each coordinate by at most half a grid step ---

  /** The exact coordinate difference, in grid steps. */
  function Exact(q: Vec, c: Codes, i: int): real
    requires 0 <= i < DIMS
  {
    10000.0 * (q[i] - Dequant(c[i]))
  }

  /** The coordinate difference after the query is rounded to the grid. */
  function Rounded(q: Vec, c: Codes, i: int): real
    requires 0 <= i < DIMS
  {
    (QuantizeVec(q)[i] - c[i]) as real
  }

  lemma RoundingError(q: Vec, c: Codes, b: int, i: int)
    requires WellFormed(q) && InBucket(c, b) && SameNull(q, b) && 0 <= i < DIMS
    ensures -0.5 <= Exact(q, c, i) - Rounded(q, c, i) <= 0.5
  {
    if c[i] > 0 {
      assert 10000.0 * Dequant(c[i]) == (c[i] - 1) as real;
    }
  }

  lemma HalfSquare(e: real)
    requires -0.5 <= e <= 0.5
    ensures 0.0 <= e * e <= 0.25
  {
    if e >= 0.0 {
      assert e * e <= 0.5 * e;
    } else {
      assert e * e == -e * -e <= 0.5 * -e;
    }
  }

  /** (y + e)^2 <= (1 + l) y^2 + (1 + 1/l) e^2, with m standing for 1/l. */
  lemma Stretch(x: real, y: real, l: real, m: real)
    requires -0.5 <= x - y <= 0.5
    requires l > 0.0 && l * m == 1.0
    ensures x * x <= (1.0 + l) * (y * y) + (1.0 + m) * 0.25
  {
    var e := x - y;
    CompleteSquare(y, e, l, m);
    HalfSquare(e);
    assert m > 0.0;
    assert m * (e * e) <= m * 0.25;
    assert x * x == y * y + 2.0 * (y * e) + e * e;
  }

  function Square(x: real): real {
    x * x
  }

  /** Sum of the first `k` squares. */
  function Norm2(s: seq<real>, k: nat): (n: real)
    requires k <= |s|
  {
    if k == 0 then 0.0 else Norm2(s, k - 1) + Square(s[k - 1])
  }

  predicate HalfApart(e: seq<real>, r: seq<real>) {
    && |e| == |r|
    && forall i | 0 <= i < |e| :: -0.5 <= e[i] - r[i] <= 0.5
  }

  lemma {:induction false} StretchSum(e: seq<real>, r: seq<real>, l: real, m: real, k: nat)
    requires HalfApart(e, r) && k <= |e|
    requires l > 0.0 && l * m == 1.0
    ensures Norm2(e, k) <= (1.0 + l) * Norm2(r, k) + (1.0 + m) * (0.25 * k as real)
  {
    if k > 0 {
      StretchSum(e, r, l, m, k - 1);
      Stretch(e[k - 1], r[k - 1], l, m);
      AddScaled(Norm2(e, k - 1), e[k - 1] * e[k - 1], Norm2(r, k - 1), r[k - 1] * r[k - 1],
                1.0 + l, 1.0 + m, 0.25 * (k - 1) as real);
    }
  }

  /** The three flags are never rounded. */
  predicate FlagsEqual(e: seq<real>, r: seq<real>)
    requires |e| == |r| == DIMS
  {
    forall i | 9 <= i <= 11 :: e[i] == r[i]
  }

  /** How many of the first `k` coordinates can be rounded. */
  function FreeTo(k: nat): nat {
    if k == 0 then 0 else FreeTo(k - 1) + if 9 <= k - 1 <= 11 then 0 else 1
  }

  lemma ElevenFree()
    ensures FreeTo(DIMS) == 11
  {
    assert FreeTo(4) == 4 && FreeTo(8) == 8 && FreeTo(12) == 9;
  }

  /** The two squared norms `n` and `o` differ by twice the cross term and the squared error of `free`
    * coordinates. */
  predicate Gap(n: real, o: real, free: nat, l: real, m: real) {
    && o - n <= l * n + (m + 1.0) * (0.25 * free as real)
    && n - o <= l * n + m * (0.25 * free as real)
  }

  lemma {:induction false} GapSum(e: seq<real>, r: seq<real>, l: real, m: real, k: nat)
    requires |e| == |r| == DIMS && HalfApart(e, r) && FlagsEqual(e, r) && k <= DIMS
    requires l > 0.0 && l * m == 1.0
    ensures Gap(Norm2(e, k), Norm2(r, k), FreeTo(k), l, m)
  {
    hide Gap, Square;
    if k == 0 {
      GapStart(l, m);
    } else {
      GapSum(e, r, l, m, k - 1);
      GapStep(Norm2(e, k - 1), Norm2(r, k - 1), FreeTo(k - 1), e[k - 1], r[k - 1], !(9 <= k - 1 <= 11), l, m);
    }
  }

  lemma GapStart(l: real, m: real)
    ensures Gap(0.0, 0.0, 0, l, m)
  {
  }

  lemma GapStep(n: real, o: real, free: nat, x: real, y: real, rounded: bool, l: real, m: real)
    requires l > 0.0 && l * m == 1.0 && (if rounded then -0.5 <= x - y <= 0.5 else x == y)
    requires Gap(n, o, free, l, m)
    ensures Gap(n + Square(x), o + Square(y), free + if rounded then 1 else 0, l, m)
  {
    if rounded {
      var slack := 0.25 * free as real;
      SquareGap(x, y, l, m);
      AddScaled(o - n, y * y - x * x, n, x * x, l, m + 1.0, slack);
      AddScaled(n - o, x * x - y * y, n, x * x, l, m, slack);
      assert 0.25 * (free + 1) as real == slack + 0.25;
    } else {
      ScaledMore(l, n, x);
    }
  }

  lemma ScaledMore(l: real, n: real, x: real)
    requires l > 0.0
    ensures l * n <= l * (n + x * x)
  {
    assert l * (x * x) >= 0.0;
    assert l * (n + x * x) == l * n + l * (x * x);
  }

  lemma AddScaled(u: real, ut: real, v: real, vt: real, s: real, m: real, slack: real)
    requires u <= s * v + m * slack && ut <= s * vt + m * 0.25
    ensures u + ut <= s * (v + vt) + m * (slack + 0.25)
  {
    assert s * (v + vt) == s * v + s * vt;
    assert m * (slack + 0.25) == m * slack + m * 0.25;
  }

  lemma {:induction false} NormIsExact(e: seq<real>, t: seq<real>, k: nat)
    requires |e| == |t| && k <= |e|
    requires forall i | 0 <= i < |e| :: e[i] * e[i] == 1e8 * t[i]
    ensures Norm2(e, k) == 1e8 * SumTo(t, k)
  {
    if k > 0 {
      NormIsExact(e, t, k - 1);
    }
  }

  lemma {:induction false} NormIsRounded(r: seq<real>, t: seq<int>, k: nat)
    requires |r| == |t| && k <= |r|
    requires forall i | 0 <= i < |r| :: r[i] * r[i] == t[i] as real
    ensures Norm2(r, k) == ISumTo(t, k) as real
  {
    if k > 0 {
      NormIsRounded(r, t, k - 1);
    }
  }

  lemma ScaleSquare(d: real, x: real)
    requires x == 10000.0 * d
    ensures x * x == 1e8 * (d * d)
  {
  }

  lemma IntSquare(t: int, y: real)
    requires y == t as real
    ensures y * y == (t * t) as real
  {
  }

  function ExactVec(q: Vec, c: Codes): (e: seq<real>)
    ensures |e| == DIMS && forall i | 0 <= i < DIMS :: e[i] == Exact(q, c, i)
  {
    seq(DIMS, i requires 0 <= i < DIMS => Exact(q, c, i))
  }

  function RoundedVec(q: Vec, c: Codes): (r: seq<real>)
    ensures |r| == DIMS && forall i | 0 <= i < DIMS :: r[i] == Rounded(q, c, i)
  {
    seq(DIMS, i requires 0 <= i < DIMS => Rounded(q, c, i))
  }

  lemma ExactSquare(q: Vec, c: Codes, i: int)
    requires 0 <= i < DIMS
    ensures ExactVec(q, c)[i] * ExactVec(q, c)[i] == 1e8 * Terms(q, c)[i]
  {
    ScaleSquare(q[i] - Dequant(c[i]), ExactVec(q, c)[i]);
  }

  lemma RoundedSquare(q: Vec, c: Codes, i: int)
    requires 0 <= i < DIMS
    ensures RoundedVec(q, c)[i] * RoundedVec(q, c)[i] == ITerms(QuantizeVec(q), c)[i] as real
  {
    IntSquare(QuantizeVec(q)[i] - c[i], RoundedVec(q, c)[i]);
  }

  /** The squared norms of the two difference vectors are the two distances. */
  lemma Norms(q: Vec, c: Codes)
    ensures Norm2(ExactVec(q, c), DIMS) == 1e8 * Dist2(q, c)
    ensures Norm2(RoundedVec(q, c), DIMS) == IntDist(QuantizeVec(q), c) as real
  {
    ExactNorm(q, c);
    RoundedNorm(q, c);
  }

  lemma ExactNorm(q: Vec, c: Codes)
    ensures Norm2(ExactVec(q, c), DIMS) == 1e8 * Dist2(q, c)
  {
    forall i | 0 <= i < DIMS
      ensures ExactVec(q, c)[i] * ExactVec(q, c)[i] == 1e8 * Terms(q, c)[i]
    {
      ExactSquare(q, c, i);
    }
    NormIsExact(ExactVec(q, c), Terms(q, c), DIMS);
  }

  lemma RoundedNorm(q: Vec, c: Codes)
    ensures Norm2(RoundedVec(q, c), DIMS) == IntDist(QuantizeVec(q), c) as real
  {
    forall i | 0 <= i < DIMS
      ensures RoundedVec(q, c)[i] * RoundedVec(q, c)[i] == ITerms(QuantizeVec(q), c)[i] as real
    {
      RoundedSquare(q, c, i);
    }
    NormIsRounded(RoundedVec(q, c), ITerms(QuantizeVec(q), c), DIMS);
  }

  lemma VectorsHalfApart(q: Vec, c: Codes, b: int)
    requires WellFormed(q) && InBucket(c, b) && SameNull(q, b)
    ensures HalfApart(ExactVec(q, c), RoundedVec(q, c)) && HalfApart(RoundedVec(q, c), ExactVec(q, c))
  {
    forall i | 0 <= i < DIMS
      ensures -0.5 <= ExactVec(q, c)[i] - RoundedVec(q, c)[i] <= 0.5
    {
      RoundingError(q, c, b, i);
    }
  }

  /** If one norm is within `a` (squared: a^2), a stretch that adds rounding stays within a + 2. */
  lemma Widen(u: real, v: real, a: real, l: real, m: real)
    requires a >= 0.0 && 0.0 <= u <= a * a
    requires l > 0.0 && l * m == 1.0
    requires a > 0.0 ==> l * a == 2.0
    requires a == 0.0 ==> m == 0.001
    requires v <= (1.0 + l) * u + (1.0 + m) * 3.5
    ensures v <= (a + 2.0) * (a + 2.0)
    ensures u < a * a ==> v < (a + 2.0) * (a + 2.0)
  {
    if a > 0.0 {
      assert (1.0 + l) * u <= (1.0 + l) * (a * a);
      assert (1.0 + l) * (a * a) == a * a + (l * a) * a;
      assert m == 0.5 * a by { assert (l * m) * a == m * (l * a); }
    }
  }

  lemma StretchFor(a: real) returns (l: real, m: real)
    requires a >= 0.0
    ensures l > 0.0 && l * m == 1.0
    ensures a > 0.0 ==> l * a == 2.0
    ensures a == 0.0 ==> m == 0.001
  {
    if a > 0.0 { l, m := 2.0 / a, a / 2.0; } else { l, m := 1000.0, 0.001; }
  }

  /** The two implications the refine step relies on: four grid steps of slack separate the rows
    * the integer metric calls near from those it calls far, also for the exact metric. */
  lemma MarginTransfers(q: Vec, c: Codes, b: int, a: real)
    requires WellFormed(q) && InBucket(c, b) && SameNull(q, b) && a >= 0.0
    ensures IntDist(QuantizeVec(q), c) as real <= a * a
        ==> 1e8 * Dist2(q, c) <= (a + 2.0) * (a + 2.0)
    ensures IntDist(QuantizeVec(q), c) as real >= (a + 4.0) * (a + 4.0)
        ==> 1e8 * Dist2(q, c) >= (a + 2.0) * (a + 2.0)
  {
    var e, r := ExactVec(q, c), RoundedVec(q, c);
    Norms(q, c);
    VectorsHalfApart(q, c, b);
    var i, d := IntDist(QuantizeVec(q), c) as real, 1e8 * Dist2(q, c);
    if i <= a * a {
      var l, m := StretchFor(a);
      StretchSum(e, r, l, m, DIMS);
      Widen(i, d, a, l, m);
    }
    var a' := a + 2.0;
    if d < a' * a' {
      var l, m := StretchFor(a');
      StretchSum(r, e, l, m, DIMS);
      Widen(d, i, a', l, m);
      assert a' + 2.0 == a + 4.0;
    }
  }

  lemma FlagsNotRounded(q: Vec, c: Codes)
    requires WellFormed(q) && forall i | 9 <= i <= 11 :: c[i] > 0
    ensures FlagsEqual(ExactVec(q, c), RoundedVec(q, c))
  {
    forall i | 9 <= i <= 11
      ensures Exact(q, c, i) == Rounded(q, c, i)
    {
      assert (10000.5).Floor == 10000 && (0.5).Floor == 0;
      assert q[i] == 0.0 || q[i] == 1.0;
      assert 10000.0 * Dequant(c[i]) == (c[i] - 1) as real;
    }
  }

  /** |intDist - 1e8 dist2| <= 1e4 sqrt(11 dist2) + 2.75, with `r` any bound on sqrt(11 dist2). */
  lemma ErrorBound(q: Vec, c: Codes, b: int, r: real)
    requires WellFormed(q) && InBucket(c, b) && SameNull(q, b)
    requires r >= 0.0 && 11.0 * Dist2(q, c) <= r * r
    ensures -(1e4 * r) <= IntDist(QuantizeVec(q), c) as real - 1e8 * Dist2(q, c) <= 1e4 * r + 2.75
  {
    Norms(q, c);
    VectorsHalfApart(q, c, b);
    FlagsNotRounded(q, c);
    GapByRadius(ExactVec(q, c), RoundedVec(q, c), 1e8 * Dist2(q, c), IntDist(QuantizeVec(q), c), r);
  }

  lemma GapByRadius(e: seq<real>, f: seq<real>, d: real, i: int, r: real)
    requires |e| == |f| == DIMS && HalfApart(e, f) && FlagsEqual(e, f)
    requires Norm2(e, DIMS) == d && Norm2(f, DIMS) == i as real
    requires r >= 0.0 && 0.0 <= d <= 1e8 / 11.0 * (r * r)
    ensures -(1e4 * r) <= i as real - d <= 1e4 * r + 2.75
  {
    ElevenFree();
    if r > 0.0 {
      var l, m := 5.5 / (1e4 * r), 1e4 * r / 5.5;
      Reciprocal(r, l, m);
      GapSum(e, f, l, m, DIMS);
      ScaleByRadius(d, r, l);
    } else {
      NormIsSum(f, DIMS);
      GapSum(e, f, 100.0, 0.01, DIMS); // the integer distance is at most 2.7775, hence at most 2
    }
  }

  lemma {:induction false} NormIsSum(f: seq<real>, k: nat)
    requires k <= |f|
    ensures Norm2(f, k) >= 0.0
  {
    if k > 0 {
      NormIsSum(f, k - 1);
    }
  }

  lemma Reciprocal(r: real, l: real, m: real)
    requires r > 0.0 && l == 5.5 / (1e4 * r) && m == 1e4 * r / 5.5
    ensures l > 0.0 && l * m == 1.0
  {
    assert l * (1e4 * r) == 5.5;
  }

  lemma ScaleByRadius(d: real, r: real, l: real)
    requires r > 0.0 && l == 5.5 / (1e4 * r) && d <= 1e8 / 11.0 * (r * r)
    ensures l * d <= 0.5 * (1e4 * r)
  {
    assert l * (1e4 * r) == 5.5;
    assert l > 0.0;
    assert l * d <= l * (1e8 / 11.0 * (r * r));
    assert l * (1e8 / 11.0 * (r * r)) == (l * (1e4 * r)) * (1e4 / 11.0 * r);
  }

  lemma SquareGap(x: real, y: real, l: real, m: real)
    requires -0.5 <= x - y <= 0.5 && l > 0.0 && l * m == 1.0
    ensures -(l * (x * x) + m * 0.25) <= y * y - x * x <= l * (x * x) + (m + 1.0) * 0.25
  {
    CrossTerm(x, y - x, l, m);
    assert y * y - x * x == 2.0 * (x * (y - x)) + (y - x) * (y - x);
  }

  lemma CrossTerm(x: real, e: real, l: real, m: real)
    requires -0.5 <= e <= 0.5 && l > 0.0 && l * m == 1.0
    ensures -(l * (x * x) + m * 0.25) <= 2.0 * (x * e) <= l * (x * x) + m * 0.25
    ensures 0.0 <= e * e <= 0.25
  {
    assert m > 0.0;
    HalfSquare(e);
    CompleteSquare(x, e, l, m);
    CompleteSquare(x, -e, l, m);
    assert m * (e * e) <= m * 0.25;
  }

  lemma CompleteSquare(x: real, e: real, l: real, m: real)
    requires l > 0.0 && l * m == 1.0
    ensures 2.0 * (x * e) <= l * (x * x) + m * (e * e)
  {
    var z := x - m * e;
    assert z * z >= 0.0;
    assert z * z == x * x - 2.0 * (m * (x * e)) + m * (m * (e * e));
    assert l * (z * z) == l * (x * x) - 2.0 * ((l * m) * (x * e)) + (l * m) * (m * (e * e));
    assert l * (z * z) >= 0.0;
  }

  // --- the prune ---

  /** The prune test of scanRange against a full collector whose worst distance is `worst`. */
  predicate PruneFires(q: Vec, b: int, worst: int) {
    BucketPenalty(q, b) * 1e8 >= worst as real + 1e5
  }

  /** A row of bucket `b` that meets the floor. */
  function Nearest(q: Vec, b: int): (c: Codes)
    requires WellFormed(q)
    ensures InBucket(c, b)
  {
    seq(DIMS, i requires 0 <= i < DIMS => NearestCode(q, b, i))
  }

  function NearestCode(q: Vec, b: int, i: int): (c: int)
    requires WellFormed(q) && 0 <= i < DIMS
    ensures 0 <= c <= MAX_CODE && (i != 5 && i != 6 ==> c > 0)
    ensures i == 5 || i == 6 ==> (c == 0 <==> Bit(b, 1) == 1)
  {
    if 9 <= i <= 11 then (if Bit(b, if i == 9 then 8 else if i == 10 then 4 else 2) == 1 then MAX_CODE else 1)
    else if (i == 5 || i == 6) && !SameNull(q, b) then (if Bit(b, 1) == 1 then 0 else 1)
    else Quantize(q[i])
  }

  lemma NearestMeetsFloor(q: Vec, b: int)
    requires WellFormed(q)
    ensures IntDist(QuantizeVec(q), Nearest(q, b)) == IntFloor(q, b)
  {
    var qc, c := QuantizeVec(q), Nearest(q, b);
    FlagITerm(q, c, 9, Bit(b, 8));
    FlagITerm(q, c, 10, Bit(b, 4));
    FlagITerm(q, c, 11, Bit(b, 2));
    NearestNullTerms(q, b);
    forall i | 0 <= i < DIMS && !(9 <= i <= 11) && i != 5 && i != 6
      ensures ITerms(qc, c)[i] == 0
    {
      ITermZero(qc, c, i);
    }
    hide ITerm, Quantize;
    ISumOfFourteen(ITerms(qc, c));
  }

  lemma NearestNullTerms(q: Vec, b: int)
    requires WellFormed(q)
    ensures var qc, c := QuantizeVec(q), Nearest(q, b);
      ITerm(qc, c, 5) + ITerm(qc, c, 6) ==
        if SameNull(q, b) then 0
        else if q[5] < 0.0 then 2
        else Quantize(q[5]) * Quantize(q[5]) + Quantize(q[6]) * Quantize(q[6])
  {
    var qc, c := QuantizeVec(q), Nearest(q, b);
    if SameNull(q, b) {
      ITermZero(qc, c, 5);
      ITermZero(qc, c, 6);
    } else {
      ITermIs(qc, c, 5, if q[5] < 0.0 then -1 else Quantize(q[5]));
      ITermIs(qc, c, 6, if q[5] < 0.0 then -1 else Quantize(q[6]));
    }
  }

  lemma ITermZero(qc: Codes, c: Codes, i: int)
    requires 0 <= i < DIMS && qc[i] == c[i]
    ensures ITerm(qc, c, i) == 0
  {
  }

  /** Exactly when skipping bucket `b` is invisible to the integer collector, whatever rows the
    * bucket holds: the bucket's integer floor must have reached the worst kept distance.
    * With the query's own null flag that always holds; across the null flag it can fail. */
  lemma PruneSoundIff(q: Vec, b: int, worst: int)
    requires WellFormed(q) && PruneFires(q, b, worst)
    ensures (forall c: Codes | InBucket(c, b) :: IntDist(QuantizeVec(q), c) >= worst)
        <==> IntFloor(q, b) >= worst
    ensures SameNull(q, b) ==> IntFloor(q, b) >= worst
  {
    forall c: Codes | InBucket(c, b)
      ensures IntDist(QuantizeVec(q), c) >= IntFloor(q, b)
    {
      IntFloorIsLowerBound(q, c, b);
    }
    NearestMeetsFloor(q, b);
    IntFloorIsLowerBound(q, Nearest(q, b), b);
  }
}
