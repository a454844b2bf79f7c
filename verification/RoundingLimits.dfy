/** The program's comment bounds the gap between the two metrics by 1e4 sqrt(14 d). Rounding is to the
  * nearest code, so a row at integer distance n can break the bound only when n is small and made of few
  * small steps; here are exactly the distances at which one does.
  */
module RoundingLimits {
  import opened Grid
  import opened GridError

  /** Integer distance minus exact distance, in squared grid steps. */
  function Gain(q: Vec, c: Codes): real {
    IntDist(QuantizeVec(q), c) as real - 1e8 * Dist2(q, c)
  }

  /** |gap| <= sqrt(14 d), squared. */
  predicate Bounded(gap: real, d: real) {
    gap * gap <= 14.0 * d
  }

  /** |intDist - 1e8 dist2| <= 1e4 sqrt(14 dist2). */
  predicate WithinComment(q: Vec, c: Codes) {
    Bounded(Gain(q, c), 1e8 * Dist2(q, c))
  }

  /** The bound holds for all rows of the query's null flag at integer distance `n`. */
  ghost predicate CommentHoldsAt(n: int) {
    forall q: Vec, c: Codes, b: int |
      WellFormed(q) && InBucket(c, b) && SameNull(q, b) && IntDist(QuantizeVec(q), c) == n :: WithinComment(q, c)
  }

  predicate Exceptional(n: int) {
    7 <= n <= 14 || n == 17 || n == 20 || n == 35 || n == 38 || n == 41 || n == 44 || n == 49
  }

  // --- far rows ---

  /** The integer metric never undershoots by that much. */
  lemma NeverUndershoots(q: Vec, c: Codes, b: int)
    requires WellFormed(q) && InBucket(c, b) && SameNull(q, b)
    ensures Gain(q, c) <= 0.0 ==> WithinComment(q, c)
  {
    hide Dist2, IntDist, InBucket, WellFormed, SameNull, QuantizeVec;
    var h := -Gain(q, c);
    assert h * h == Gain(q, c) * Gain(q, c);
    if h > 0.0 && h * h > 14.0 * (1e8 * Dist2(q, c)) {
      Scaled(0.9, h, 1e8 * Dist2(q, c));
      ErrorBound(q, c, b, 0.9 * h / 1e4);
    }
  }

  /** A share of `h`, in units of 1, still covers 11 `dist2` where `h` covers 14. */
  lemma Scaled(share: real, h: real, d: real)
    requires h > 0.0 && d >= 0.0 && h * h > 14.0 * d && share > 0.0 && share * share * 14.0 >= 11.0
    ensures share * h / 1e4 >= 0.0 && 11.0 * (d / 1e8) <= share * h / 1e4 * (share * h / 1e4)
  {
    var x := share * h;
    assert x * x == share * share * (h * h);
    assert share * share * (h * h) >= share * share * (14.0 * d);
    assert share * share * (14.0 * d) == share * share * 14.0 * d >= 11.0 * d;
    assert x / 1e4 * (x / 1e4) == x * x / 1e8;
  }

  /** It overshoots only within 6.5 grid steps. */
  lemma OvershootsNear(q: Vec, c: Codes, b: int)
    requires WellFormed(q) && InBucket(c, b) && SameNull(q, b)
    ensures WithinComment(q, c) || (0.0 < Gain(q, c) <= 24.23 && 1e8 * Dist2(q, c) < 42.0)
  {
    hide Dist2, IntDist, InBucket, WellFormed, SameNull, QuantizeVec;
    var g, d := Gain(q, c), 1e8 * Dist2(q, c);
    NeverUndershoots(q, c, b);
    if g > 0.0 && g * g > 14.0 * d {
      Scaled(0.8865, g, d);
      ErrorBound(q, c, b, 0.8865 * g / 1e4);
      SquareAtLeast(24.23, g);
    }
  }

  // --- near rows ---

  /** Four times what rounding can add to the square of a step count. */
  function Lead(t: int): (lead: int)
    ensures lead >= 0
  {
    if t == 0 then 0 else 4 * (if t < 0 then -t else t) - 1
  }

  function LeadTo(qc: Codes, c: Codes, k: nat): int
    requires k <= DIMS
  {
    if k == 0 then 0 else LeadTo(qc, c, k - 1) + if 9 <= k - 1 <= 11 then 0 else Lead(qc[k - 1] - c[k - 1])
  }

  /** What step counts are left over from ones and twos only, and from twos and threes only. */
  predicate Remainders(squares: int, free: int, lead: int) {
    && 0 <= lead <= 3 * squares
    && var small, large := 4 * squares + 5 * free - 3 * lead, 4 * squares + 19 * free - 5 * lead;
    && (small == 0 || small == 5 || small == 8 || small >= 10) && (large == 0 || large >= 8)
  }

  predicate Many(s: int, lead: int) {
    0 <= lead <= 3 * s && 4 * s + 5 - 3 * lead >= 10 && 4 * s + 19 - 5 * lead >= 8
  }

  lemma ManySquares(u: int)
    requires u >= 4
    ensures Many(u * u, 4 * u - 1)
  {
    if u >= 5 {
      assert u * u >= 5 * u;
    }
  }

  lemma AbsSquare(t: int, u: int)
    requires u == if t < 0 then -t else t
    ensures t * t == u * u
  {
  }

  /** No step, one, two or three, or more. */
  predicate Steps(s: int, l: int) {
    (s == l == 0) || (s == 1 && l == 3) || (s == 4 && l == 7) || (s == 9 && l == 11) || Many(s, l)
  }

  lemma SmallSquares(t: int)
    ensures Steps(t * t, Lead(t))
  {
    var u := if t < 0 then -t else t;
    AbsSquare(t, u);
    if u >= 4 {
      ManySquares(u);
    }
  }

  lemma RemaindersAdd(squares: int, free: int, lead: int, s: int, l: int)
    requires Remainders(squares, free, lead)
    requires Steps(s, l)
    ensures Remainders(squares + s, free + 1, lead + l)
  {
  }

  lemma RemaindersKeep(squares: int, free: int, lead: int, s: int)
    requires Remainders(squares, free, lead) && (s == 0 || s >= 3)
    ensures Remainders(squares + s, free, lead)
  {
  }

  lemma LeadBelow(x: real, t: int)
    requires -0.5 <= x - t as real <= 0.5
    ensures Square(x) >= (t * t) as real - Lead(t) as real / 4.0
  {
    var u := if t < 0 then -t else t;
    var y := if x < 0.0 then -x else x;
    assert x * x == y * y && t * t == u * u;
    if u > 0 {
      SquareAtLeast(y, u as real - 0.5);
      IntSquare(u, u as real);
    }
  }

  /** What the sums of squares, exact and rounded, and the sum of leads keep. */
  predicate Led(norm: real, squares: int, free: int, lead: int) {
    norm >= squares as real - lead as real / 4.0 && Remainders(squares, free, lead)
  }

  lemma LedStep(norm: real, squares: int, free: int, lead: int, x: real, s: int, l: int, rounded: bool)
    requires Led(norm, squares, free, lead) && x >= s as real - (if rounded then l else 0) as real / 4.0
    requires if rounded then Steps(s, l) else s == 0 || s >= 3
    ensures Led(norm + x, squares + s, free + if rounded then 1 else 0, lead + if rounded then l else 0)
  {
    hide Remainders, Steps;
    if rounded {
      RemaindersAdd(squares, free, lead, s, l);
    } else {
      RemaindersKeep(squares, free, lead, s);
    }
  }

  lemma {:induction false} LeadSum(q: Vec, c: Codes, b: int, k: nat)
    requires WellFormed(q) && InBucket(c, b) && SameNull(q, b) && k <= DIMS
    ensures var qc := QuantizeVec(q);
      Led(Norm2(ExactVec(q, c), k), ISumTo(ITerms(qc, c), k), FreeTo(k), LeadTo(qc, c, k))
  {
    hide WellFormed, InBucket, SameNull, QuantizeVec, Square, ITerm, Led, Lead, Steps;
    if k == 0 {
      LedStart();
    } else {
      var i, qc := k - 1, QuantizeVec(q);
      LeadSum(q, c, b, i);
      LeadTerm(q, c, b, i);
      LedStep(Norm2(ExactVec(q, c), i), ISumTo(ITerms(qc, c), i), FreeTo(i), LeadTo(qc, c, i),
        Square(ExactVec(q, c)[i]), ITerms(qc, c)[i], Lead(qc[i] - c[i]), !(9 <= i <= 11));
    }
  }

  lemma LedStart()
    ensures Led(0.0, 0, 0, 0)
  {
  }

  lemma IsSquare(qc: Codes, c: Codes, i: int)
    requires 0 <= i < DIMS
    ensures ITerms(qc, c)[i] == (qc[i] - c[i]) * (qc[i] - c[i])
  {
  }

  /** One coordinate: a flag is not rounded at all. */
  lemma LeadTerm(q: Vec, c: Codes, b: int, i: int)
    requires WellFormed(q) && InBucket(c, b) && SameNull(q, b) && 0 <= i < DIMS
    ensures var t := QuantizeVec(q)[i] - c[i];
      Square(ExactVec(q, c)[i])
      >= ITerms(QuantizeVec(q), c)[i] as real - (if 9 <= i <= 11 then 0 else Lead(t)) as real / 4.0
    ensures var s, t := ITerms(QuantizeVec(q), c)[i], QuantizeVec(q)[i] - c[i];
      if 9 <= i <= 11 then s == 0 || s >= 3 else Steps(s, Lead(t))
  {
    IsSquare(QuantizeVec(q), c, i);
    RoundingError(q, c, b, i);
    FlagsNotRounded(q, c);
    hide WellFormed, InBucket, SameNull, QuantizeVec, Exact;
    var x, t := ExactVec(q, c)[i], QuantizeVec(q)[i] - c[i];
    assert RoundedVec(q, c)[i] == t as real;
    if 9 <= i <= 11 {
      IntSquare(t, x);
      FlagSteps(q, c, b, i);
    } else {
      SmallSquares(t);
      LeadBelow(x, t);
    }
  }

  lemma FlagSteps(q: Vec, c: Codes, b: int, i: int)
    requires WellFormed(q) && InBucket(c, b) && 9 <= i <= 11
    ensures ITerms(QuantizeVec(q), c)[i] == 0 || ITerms(QuantizeVec(q), c)[i] >= 3
  {
    FlagITerm(q, c, i, Bit(b, if i == 9 then 8 else if i == 10 then 4 else 2));
  }

  // --- the squares that few steps can give ---

  /** T^2 + 56 T <= 224 n, with T four times the lead. */
  predicate Slow(n: int, lead: int) {
    lead * lead + 56 * lead <= 224 * n
  }

  lemma SlowBelow(n: int, lead: int, most: int)
    requires 0 <= lead <= most && Slow(n, most)
    ensures Slow(n, lead)
  {
    assert lead * lead <= most * lead <= most * most;
  }

  /** Distances 3 j, 3 j + 1 and 3 j + 2, with at least two, one and no coordinate that does not fit. */
  lemma ByThirds(j: int, lead: int)
    requires 0 <= lead
    ensures 5 <= j <= 16 && lead <= 4 * j + 15 ==> Slow(3 * j, lead)
    ensures 5 <= j <= 14 && lead <= 4 * j + 18 ==> Slow(3 * j + 1, lead)
    ensures 7 <= j <= 10 && lead <= 4 * j + 21 ==> Slow(3 * j + 2, lead)
  {
    if 5 <= j <= 16 && lead <= 4 * j + 15 {
      Between(j, 5, 16, 4, 15);
      SlowBelow(3 * j, lead, 4 * j + 15);
    }
    if 5 <= j <= 14 && lead <= 4 * j + 18 {
      Between(j, 5, 14, 4, 18);
      SlowBelow(3 * j + 1, lead, 4 * j + 18);
    }
    if 7 <= j <= 10 && lead <= 4 * j + 21 {
      Between(j, 7, 10, 4, 21);
      SlowBelow(3 * j + 2, lead, 4 * j + 21);
    }
  }

  /** The square of a linear bound, between two places. */
  lemma Between(j: int, lo: int, hi: int, k: int, c: int)
    requires lo <= j <= hi
    ensures j * j <= (lo + hi) * j - lo * hi
    ensures (k * j + c) * (k * j + c) == k * k * (j * j) + 2 * k * c * j + c * c
  {
    assert (j - lo) * (hi - j) >= 0;
    assert (j - lo) * (hi - j) == (lo + hi) * j - lo * hi - j * j;
  }

  lemma FewSteps(n: int, lead: int)
    requires 15 <= n <= 45 && !Exceptional(n) && Remainders(n, 11, lead)
    ensures Slow(n, lead)
  {
    ByThirds(n / 3, lead);
    var small := 4 * n + 55 - 3 * lead;
    if n % 3 == 0 {
      assert small % 3 == 1 && small >= 10;
    } else if n % 3 == 1 {
      assert small % 3 == 2 && small >= 5;
    } else {
      assert n / 3 <= 10;
    }
  }

  lemma ManySteps(n: int, lead: int)
    requires 46 <= n <= 66 && n != 49 && Remainders(n, 11, lead)
    ensures Slow(n, lead)
  {
    if n <= 51 {
      var most := if n <= 47 then 77 else if n == 48 then 78 else if n == 50 then 81 else 82;
      assert Slow(n, most);
      SlowBelow(n, lead, most);
    } else {
      Between(n, 52, 66, 4, 209);
      FifthsSlow(n, lead);
    }
  }

  lemma FifthsSlow(n: int, lead: int)
    requires 52 <= n <= 66 && n * n <= 118 * n - 3432 && 0 <= lead && 5 * lead <= 4 * n + 209
    requires (4 * n + 209) * (4 * n + 209) == 16 * (n * n) + 1672 * n + 43681
    ensures Slow(n, lead)
  {
    SquareMonotone(5 * lead, 4 * n + 209);
    FiveTimes(lead);
    Fifths(n, n * n, lead, lead * lead);
  }

  lemma FiveTimes(x: int)
    ensures (5 * x) * (5 * x) == 25 * (x * x)
  {
  }

  lemma Fifths(n: int, nn: int, lead: int, square: int)
    requires 52 <= n <= 66 && nn <= 118 * n - 3432 && 5 * lead <= 4 * n + 209
    requires 25 * square <= 16 * nn + 1672 * n + 43681
    ensures square + 56 * lead <= 224 * n
  {
  }

  /** Elsewhere the leads are too small. */
  lemma LeadIsSlow(n: int, lead: int)
    requires 0 <= n <= 66 && !Exceptional(n) && Remainders(n, 11, lead)
    ensures Slow(n, lead)
  {
    if n <= 6 {
      assert 3 * n * (3 * n) == 9 * (n * n) && n * n <= 6 * n;
      SlowBelow(n, lead, 3 * n);
    } else if n <= 45 {
      FewSteps(n, lead);
    } else {
      ManySteps(n, lead);
    }
  }

  // --- the theorem ---

  /** A gain of at most a quarter of a slow lead stays within the bound. */
  lemma SlowIsWithin(n: int, d: real, lead: int)
    requires Slow(n, lead) && lead >= 0 && 0.0 < n as real - d <= lead as real / 4.0
    ensures Bounded(n as real - d, d)
  {
    var g, t := n as real - d, lead as real / 4.0;
    SquareAtLeast(t, g);
    QuarterSquare(lead, t);
    SlowLinear(n, d, lead, lead * lead, t, t * t, g * g);
  }

  lemma SlowLinear(n: int, d: real, lead: int, square: int, t: real, tt: real, gg: real)
    requires square + 56 * lead <= 224 * n && lead as real == 4.0 * t && 16.0 * tt == square as real
    requires gg <= tt && n as real - d <= t
    ensures gg <= 14.0 * d
  {
    assert square as real + 56.0 * lead as real <= 224.0 * n as real;
  }

  lemma QuarterSquare(lead: int, t: real)
    requires t == lead as real / 4.0
    ensures 16.0 * (t * t) == (lead * lead) as real
  {
    IntSquare(lead, 4.0 * t);
  }

  lemma LeadOfRow(q: Vec, c: Codes, b: int)
    requires WellFormed(q) && InBucket(c, b) && SameNull(q, b)
    ensures var qc := QuantizeVec(q);
      && Gain(q, c) <= LeadTo(qc, c, DIMS) as real / 4.0
      && Remainders(IntDist(qc, c), 11, LeadTo(qc, c, DIMS))
  {
    hide WellFormed, InBucket, SameNull, QuantizeVec, Remainders, LeadTo, Norm2;
    ElevenFree();
    ExactNorm(q, c);
    LeadSum(q, c, b, DIMS);
  }

  lemma WithinElsewhere(q: Vec, c: Codes, b: int)
    requires WellFormed(q) && InBucket(c, b) && SameNull(q, b) && !Exceptional(IntDist(QuantizeVec(q), c))
    ensures WithinComment(q, c)
  {
    hide WellFormed, InBucket, SameNull, QuantizeVec, Remainders, Slow, Exceptional, LeadTo, Bounded, Dist2, IntDist;
    var qc := QuantizeVec(q);
    var n, lead := IntDist(qc, c), LeadTo(qc, c, DIMS);
    NeverUndershoots(q, c, b);
    OvershootsNear(q, c, b);
    if n <= 66 && Gain(q, c) > 0.0 {
      LeadOfRow(q, c, b);
      LeadIsSlow(n, lead);
      LeadPositive(n, lead);
      SlowIsWithin(n, 1e8 * Dist2(q, c), lead);
    }
  }

  lemma LeadPositive(n: int, lead: int)
    requires Remainders(n, 11, lead)
    ensures lead >= 0
  {
  }

  // --- rows that break the bound ---

  /** A mix of coordinates three, two and one steps away after rounding, each half a step nearer before. */
  datatype Mix = Mix(threes: nat, twos: nat, ones: nat)

  predicate Fits(m: Mix) {
    m.threes + m.twos + m.ones <= 11
  }

  function StepAt(m: Mix, i: int): (t: int)
    ensures 0 <= t <= 3 && (9 <= i <= 11 ==> t == 0)
  {
    var p := if i < 9 then i else i - 3;
    if 9 <= i <= 11 then 0
    else if p < m.threes then 3
    else if p < m.threes + m.twos then 2
    else if p < m.threes + m.twos + m.ones then 1
    else 0
  }

  function Halfway(t: int): real {
    if t == 0 then 0.0 else (t as real - 0.5) / 10000.0
  }

  /** The square of the steps before rounding. */
  function Before(t: int): real {
    if t == 0 then 0.0 else if t == 1 then 0.25 else if t == 2 then 2.25 else 6.25
  }

  function MixQuery(m: Mix): (q: Vec)
    ensures forall i | 0 <= i < DIMS :: q[i] == Halfway(StepAt(m, i))
  {
    seq(DIMS, i requires 0 <= i < DIMS => Halfway(StepAt(m, i)))
  }

  function Ones(): Codes {
    seq(DIMS, _ => 1)
  }

  lemma HalfwayTerms(t: int)
    requires 0 <= t <= 3
    ensures 0.0 <= Halfway(t) <= 1.0 && Quantize(Halfway(t)) == t + 1
    ensures 1e8 * (Halfway(t) * Halfway(t)) == Before(t)
  {
    if t > 0 {
      var h := Halfway(t);
      assert h * 10000.0 + 0.5 == t as real;
      assert (t as real).Floor == t;
    } else {
      assert (0.5).Floor == 0;
    }
  }

  lemma MixTerm(m: Mix, i: int)
    requires 0 <= i < DIMS
    ensures var t := StepAt(m, i);
      && ITerm(QuantizeVec(MixQuery(m)), Ones(), i) == t * t
      && 1e8 * Term(MixQuery(m), Ones(), i) == Before(t)
  {
    HalfwayTerms(StepAt(m, i));
    hide Quantize, Halfway, StepAt;
    assert Dequant(1) == 0.0;
  }

  /** The steps among the first `k` coordinates. */
  function MixTo(m: Mix, k: nat): Mix {
    if k == 0 then Mix(0, 0, 0)
    else
      OneMore(MixTo(m, k - 1), StepAt(m, k - 1))
  }

  function OneMore(m: Mix, t: int): Mix {
    if t == 0 then m
    else if t == 1 then m.(ones := m.ones + 1)
    else if t == 2 then m.(twos := m.twos + 1)
    else m.(threes := m.threes + 1)
  }

  function Min(x: int, y: int): int {
    if x < y then x else y
  }

  lemma {:induction false} MixPrefix(m: Mix, k: nat)
    requires k <= DIMS
    ensures var p := if k < 9 then k else if k < 12 then 9 else k - 3;
      && MixTo(m, k).threes == Min(p, m.threes)
      && MixTo(m, k).threes + MixTo(m, k).twos == Min(p, m.threes + m.twos)
      && MixTo(m, k).threes + MixTo(m, k).twos + MixTo(m, k).ones == Min(p, m.threes + m.twos + m.ones)
  {
    if k > 0 {
      MixPrefix(m, k - 1);
    }
  }

  predicate SumsTo(m: Mix, squares: int, exact: real) {
    squares == 9 * m.threes + 4 * m.twos + m.ones
    && exact == 6.25 * m.threes as real + 2.25 * m.twos as real + 0.25 * m.ones as real
  }

  lemma SumsStep(m: Mix, squares: int, exact: real, t: int, term: real)
    requires SumsTo(m, squares, exact) && 0 <= t <= 3
    requires 1e8 * term == Before(t)
    ensures SumsTo(OneMore(m, t), squares + t * t, exact + 1e8 * term)
  {
  }

  lemma {:induction false} MixSums(m: Mix, k: nat)
    requires k <= DIMS
    ensures var q := MixQuery(m);
      SumsTo(MixTo(m, k), ISumTo(ITerms(QuantizeVec(q), Ones()), k), 1e8 * SumTo(Terms(q, Ones()), k))
  {
    if k > 0 {
      MixSums(m, k - 1);
      MixTerm(m, k - 1);
      hide ITerm, Term, QuantizeVec, MixQuery, Ones, StepAt, SumsTo, OneMore, Before;
      var q := MixQuery(m);
      SumsStep(MixTo(m, k - 1), ISumTo(ITerms(QuantizeVec(q), Ones()), k - 1), 1e8 * SumTo(Terms(q, Ones()), k - 1),
        StepAt(m, k - 1), Term(q, Ones(), k - 1));
    }
  }

  lemma MixShape(m: Mix)
    ensures WellFormed(MixQuery(m)) && InBucket(Ones(), 0) && SameNull(MixQuery(m), 0)
  {
    forall i | 0 <= i < DIMS
      ensures 0.0 <= MixQuery(m)[i] <= 1.0 && (9 <= i <= 11 ==> MixQuery(m)[i] == 0.0)
    {
      HalfwayTerms(StepAt(m, i));
    }
  }

  function MixFor(n: int): (m: Mix)
    requires Exceptional(n)
    ensures Fits(m) && 9 * m.threes + 4 * m.twos + m.ones == n
  {
    if n <= 11 then Mix(0, 0, n)
    else if n <= 14 then Mix(0, 1, n - 4)
    else if n == 17 then Mix(0, 2, 9)
    else if n == 20 then Mix(0, 3, 8)
    else if n == 49 then Mix(1, 10, 0)
    else Mix(0, (n - 11) / 3, 11 - (n - 11) / 3)
  }

  /** Four times the gain and four times the exact distance of a mix. */
  lemma MixBreaks(n: int)
    requires Exceptional(n)
    ensures var m := MixFor(n); var gain := 11 * m.threes + 7 * m.twos + 3 * m.ones;
      gain * gain > 56 * (4 * n - gain)
  {
    if n == 7 {
    } else if n == 8 {
    } else if n == 9 {
    } else if n == 10 {
    } else if n == 11 {
    } else if n == 12 {
    } else if n == 13 {
    } else if n == 14 {
    }
  }

  lemma Quarters(gain: int, n: int, g: real)
    requires gain as real == 4.0 * g && gain * gain > 56 * (4 * n - gain)
    ensures !Bounded(g, n as real - g)
  {
    IntSquare(gain, 4.0 * g);
    assert (gain * gain) as real > 56.0 * (4.0 * n as real - 4.0 * g);
  }

  lemma MixDistances(m: Mix)
    requires Fits(m)
    ensures var q := MixQuery(m);
      SumsTo(m, IntDist(QuantizeVec(q), Ones()), 1e8 * Dist2(q, Ones()))
  {
    MixSums(m, DIMS);
    MixPrefix(m, DIMS);
    assert MixTo(m, DIMS) == m;
  }

  lemma BrokenAt(n: int)
    requires Exceptional(n)
    ensures var q := MixQuery(MixFor(n));
      IntDist(QuantizeVec(q), Ones()) == n && !WithinComment(q, Ones())
  {
    hide Bounded, IntDist, Dist2, MixFor, QuantizeVec, MixQuery, Exceptional;
    var m := MixFor(n);
    MixDistances(m);
    MixBreaks(n);
    Quarters(11 * m.threes + 7 * m.twos + 3 * m.ones, n,
      2.75 * m.threes as real + 1.75 * m.twos as real + 0.75 * m.ones as real);
  }

  /** The commented bound holds for every query and every row of its null flag at integer distance `n` if
    * and only if `n` is not one of fifteen numbers, the largest of them 49. */
  lemma CommentBoundIff(n: int)
    ensures CommentHoldsAt(n) <==> !Exceptional(n)
  {
    hide WellFormed, InBucket, SameNull, QuantizeVec, WithinComment, MixFor;
    if Exceptional(n) {
      BrokenAt(n);
      MixShape(MixFor(n));
    } else {
      forall q: Vec, c: Codes, b: int | WellFormed(q) && InBucket(c, b) && SameNull(q, b)
        && IntDist(QuantizeVec(q), c) == n
        ensures WithinComment(q, c)
      {
        WithinElsewhere(q, c, b);
      }
    }
  }
}
