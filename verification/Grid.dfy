/** The 4-decimal grid: vectors, 16-bit codes, hard buckets and the two metrics.
  * A distance over reals (float64 in the program) and a distance over codes (int32) are
  * defined independently; the lemmas below say how far apart they can be.
  */
module Grid {
  const DIMS: int := 14
  const K: int := 5
  const CAND_K: int := 64
  const BUCKETS: int := 16
  const MAX_PROBE: int := 512
  const MAX_CODE: int := 10001
  const MAX_INT32: int := 0x7FFF_FFFF
  const TAIL_PAD: int := 8

  type Vec = v: seq<real> | |v| == DIMS witness seq(DIMS, _ => 0.0)

  predicate IsCodes(c: seq<int>) {
    && |c| == DIMS
    && forall i | 0 <= i < DIMS :: 0 <= c[i] <= MAX_CODE
  }

  type Codes = c: seq<int> | IsCodes(c) witness seq(DIMS, _ => 0)

  /** The shape the vectorizer produces (see module Vectorizer): dims 9..11 are flags, dims 5 and 6
    * are -1 together when there is no last transaction, everything else lies in [0, 1]. */
  predicate WellFormed(v: Vec) {
    && (forall i | 0 <= i < DIMS && i != 5 && i != 6 :: 0.0 <= v[i] <= 1.0)
    && (forall i | 9 <= i <= 11 :: v[i] == 0.0 || v[i] == 1.0)
    && (v[5] == v[6] == -1.0 || (0.0 <= v[5] <= 1.0 && 0.0 <= v[6] <= 1.0))
  }

  // --- quantization ---

  /** math.Round of a non-negative value, as an integer. */
  function Round(x: real): int
    requires 0.0 <= x
  {
    (x + 0.5).Floor
  }

  function Quantize(v: real): (c: int)
    ensures 0 <= c <= MAX_CODE
    ensures c == 0 <==> v < 0.0
    ensures 0.0 <= v <= 1.0 ==> -0.5 <= c as real - (10000.0 * v + 1.0) <= 0.5
  {
    if v < 0.0 then 0
    else Round((if v > 1.0 then 1.0 else v) * 10000.0) + 1
  }

  function Dequant(u: int): real {
    if u == 0 then -1.0 else (u - 1) as real / 10000.0
  }

  function QuantizeVec(v: Vec): (c: Codes)
    ensures forall i | 0 <= i < DIMS :: c[i] == Quantize(v[i])
  {
    seq(DIMS, i requires 0 <= i < DIMS => Quantize(v[i]))
  }

  /** Every stored code survives the trip through its value, so the stored grid loses nothing. */
  lemma QuantizeInvertsDequant(u: int)
    requires 0 <= u <= MAX_CODE
    ensures Quantize(Dequant(u)) == u
  {
    if u > 0 {
      var k := u - 1;
      assert Dequant(u) * 10000.0 == k as real;
      assert (k as real + 0.5).Floor == k;
    }
  }

  /** A value of the data's native grid: the null sentinel, or four decimals in [0, 1]. */
  predicate OnNativeGrid(v: real) {
    v == -1.0 || exists k: int :: 0 <= k <= 10000 && v == Decimal(k)
  }

  function Decimal(k: int): real {
    k as real / 10000.0
  }

  /** Storing loses nothing exactly on the native grid. */
  lemma LosslessIff(v: real)
    ensures Dequant(Quantize(v)) == v <==> OnNativeGrid(v)
  {
    var c := Quantize(v);
    if Dequant(c) == v && c > 0 {
      var k := c - 1;
      assert 0 <= k <= 10000 && v == Decimal(k);
    }
    if OnNativeGrid(v) && v != -1.0 {
      var k :| 0 <= k <= 10000 && v == Decimal(k);
      assert v == Dequant(k + 1);
      QuantizeInvertsDequant(k + 1);
    }
  }

  function DequantVec(x: Codes): (v: Vec)
    ensures forall d | 0 <= d < DIMS :: v[d] == Dequant(x[d])
  {
    seq(DIMS, d requires 0 <= d < DIMS => Dequant(x[d]))
  }

  lemma CodesSurvive(x: Codes)
    ensures QuantizeVec(DequantVec(x)) == x
  {
    forall d | 0 <= d < DIMS
      ensures QuantizeVec(DequantVec(x))[d] == x[d]
    {
      QuantizeInvertsDequant(x[d]);
    }
  }

  lemma QuantizeMonotone(v: real, w: real)
    requires v <= w
    ensures Quantize(v) <= Quantize(w)
  {
    if 0.0 <= v {
      var v' := if v > 1.0 then 1.0 else v;
      var w' := if w > 1.0 then 1.0 else w;
      assert v' * 10000.0 + 0.5 <= w' * 10000.0 + 0.5;
    }
  }

  // --- hard buckets ---

  /** Bit `k` of a bucket number. */
  function Bit(b: int, weight: int): int
    requires weight > 0
  {
    b / weight % 2
  }

  function BucketOf(v: Vec): (b: int)
    ensures 0 <= b < BUCKETS
  {
    (if v[9] >= 0.5 then 8 else 0) + (if v[10] >= 0.5 then 4 else 0) +
    (if v[11] >= 0.5 then 2 else 0) + (if v[5] < 0.0 then 1 else 0)
  }

  /** The four bits of the bucket number are the four key tests. */
  lemma BucketBits(v: Vec)
    ensures Bit(BucketOf(v), 8) == 1 <==> v[9] >= 0.5
    ensures Bit(BucketOf(v), 4) == 1 <==> v[10] >= 0.5
    ensures Bit(BucketOf(v), 2) == 1 <==> v[11] >= 0.5
    ensures Bit(BucketOf(v), 1) == 1 <==> v[5] < 0.0
  {
  }

  function FlagPenalty(v: real, bit: int): real {
    if (if v >= 0.5 then 1 else 0) != bit then 1.0 else 0.0
  }

  function NullPenalty(q: Vec, bit: int): real {
    var qnull := if q[5] < 0.0 then 1 else 0;
    if qnull == bit then 0.0
    else if qnull == 1 then 2.0
    else (q[5] + 1.0) * (q[5] + 1.0) + (q[6] + 1.0) * (q[6] + 1.0)
  }

  function BucketPenalty(q: Vec, target: int): real {
    FlagPenalty(q[9], Bit(target, 8)) + FlagPenalty(q[10], Bit(target, 4)) +
    FlagPenalty(q[11], Bit(target, 2)) + NullPenalty(q, Bit(target, 1))
  }

  predicate SameNull(q: Vec, b: int) {
    Bit(b, 1) == if q[5] < 0.0 then 1 else 0
  }

  /** What bucket `b` says about the codes of its rows. */
  predicate InBucket(c: Codes, b: int) {
    && c[9] == (if Bit(b, 8) == 1 then MAX_CODE else 1)
    && c[10] == (if Bit(b, 4) == 1 then MAX_CODE else 1)
    && c[11] == (if Bit(b, 2) == 1 then MAX_CODE else 1)
    && (if Bit(b, 1) == 1 then c[5] == c[6] == 0 else c[5] > 0 && c[6] > 0)
    && (forall i | 0 <= i < DIMS && i != 5 && i != 6 :: c[i] > 0)
  }

  /** Quantizing a well-formed vector puts its codes in the bucket the vector hashes to. */
  lemma QuantizedInBucket(v: Vec)
    requires WellFormed(v)
    ensures InBucket(QuantizeVec(v), BucketOf(v))
  {
    var c := QuantizeVec(v);
    BucketBits(v);
    assert (10000.5).Floor == 10000 && (0.5).Floor == 0;
    forall i | 9 <= i <= 11
      ensures c[i] == if v[i] >= 0.5 then MAX_CODE else 1
    {
      assert v[i] == 0.0 || v[i] == 1.0;
    }
    forall i | 0 <= i < DIMS && i != 5 && i != 6
      ensures c[i] > 0
    {
      assert 0.0 <= v[i];
    }
  }

  // --- the two metrics ---

  function SumTo(s: seq<real>, k: nat): real
    requires k <= |s|
  {
    if k == 0 then 0.0 else SumTo(s, k - 1) + s[k - 1]
  }

  function ISumTo(s: seq<int>, k: nat): int
    requires k <= |s|
  {
    if k == 0 then 0 else ISumTo(s, k - 1) + s[k - 1]
  }

  lemma SumNonNegative(s: seq<real>, k: nat)
    requires k <= |s| && forall i | 0 <= i < |s| :: 0.0 <= s[i]
    ensures 0.0 <= SumTo(s, k)
  {
  }

  lemma ISumBounds(s: seq<int>, k: nat, m: nat)
    requires k <= |s| && forall i | 0 <= i < |s| :: 0 <= s[i] <= m
    ensures 0 <= ISumTo(s, k) <= m * k
  {
    if k > 0 {
      ISumBounds(s, k - 1, m);
      assert m * k == m * (k - 1) + m;
    }
  }

  function Term(q: Vec, c: Codes, i: int): (t: real)
    requires 0 <= i < DIMS
    ensures 0.0 <= t
  {
    (q[i] - Dequant(c[i])) * (q[i] - Dequant(c[i]))
  }

  function ITerm(qc: Codes, c: Codes, i: int): (t: int)
    requires 0 <= i < DIMS
    ensures 0 <= t <= MAX_CODE * MAX_CODE
  {
    ITermBound(qc[i] - c[i]);
    (qc[i] - c[i]) * (qc[i] - c[i])
  }

  lemma SquareMonotone(x: int, m: int)
    requires 0 <= x <= m
    ensures 0 <= x * x <= m * m
  {
    assert x * x <= m * x <= m * m;
  }

  lemma ITermBound(x: int)
    requires -MAX_CODE <= x <= MAX_CODE
    ensures 0 <= x * x <= MAX_CODE * MAX_CODE
  {
    if x >= 0 {
      SquareMonotone(x, MAX_CODE);
    } else {
      SquareMonotone(-x, MAX_CODE);
    }
  }

  function Terms(q: Vec, c: Codes): (t: seq<real>)
    ensures |t| == DIMS && forall i | 0 <= i < DIMS :: t[i] == Term(q, c, i)
  {
    seq(DIMS, i requires 0 <= i < DIMS => Term(q, c, i))
  }

  function ITerms(qc: Codes, c: Codes): (t: seq<int>)
    ensures |t| == DIMS && forall i | 0 <= i < DIMS :: t[i] == ITerm(qc, c, i)
  {
    seq(DIMS, i requires 0 <= i < DIMS => ITerm(qc, c, i))
  }

  /** Exact squared distance, query un-quantized. */
  function Dist2(q: Vec, c: Codes): (d: real)
    ensures 0.0 <= d
  {
    SumNonNegative(Terms(q, c), DIMS);
    SumTo(Terms(q, c), DIMS)
  }

  /** Integer squared distance, query quantized. It never reaches the empty-slot sentinel. */
  function IntDist(qc: Codes, c: Codes): (d: int)
    ensures 0 <= d < MAX_INT32
  {
    ISumBounds(ITerms(qc, c), DIMS, MAX_CODE * MAX_CODE);
    ISumTo(ITerms(qc, c), DIMS)
  }

  /** Exact squared distance of two vectors. */
  function VecDist2(q: Vec, v: Vec): real {
    SumTo(seq(DIMS, i requires 0 <= i < DIMS => (q[i] - v[i]) * (q[i] - v[i])), DIMS)
  }

  /** For a vector of the native grid, the distance to its stored codes is the distance to the vector. */
  lemma StoredDistance(q: Vec, v: Vec)
    requires forall i | 0 <= i < DIMS :: OnNativeGrid(v[i])
    ensures Dist2(q, QuantizeVec(v)) == VecDist2(q, v)
  {
    var c := QuantizeVec(v);
    var terms := seq(DIMS, i requires 0 <= i < DIMS => (q[i] - v[i]) * (q[i] - v[i]));
    forall i | 0 <= i < DIMS
      ensures Terms(q, c)[i] == terms[i]
    {
      LosslessIff(v[i]);
    }
    assert Terms(q, c) == terms;
  }

  /** All fourteen terms, written out. */
  lemma SumOfFourteen(s: seq<real>)
    requires |s| == DIMS
    ensures SumTo(s, DIMS) == s[0] + s[1] + s[2] + s[3] + s[4] + s[5] + s[6]
                            + s[7] + s[8] + s[9] + s[10] + s[11] + s[12] + s[13]
  {
    assert SumTo(s, 1) == s[0];
    assert SumTo(s, 2) == s[0] + s[1];
    assert SumTo(s, 4) == SumTo(s, 2) + s[2] + s[3];
    assert SumTo(s, 6) == SumTo(s, 4) + s[4] + s[5];
    assert SumTo(s, 8) == SumTo(s, 6) + s[6] + s[7];
    assert SumTo(s, 10) == SumTo(s, 8) + s[8] + s[9];
    assert SumTo(s, 12) == SumTo(s, 10) + s[10] + s[11];
  }

  lemma ISumOfFourteen(s: seq<int>)
    requires |s| == DIMS
    ensures ISumTo(s, DIMS) == s[0] + s[1] + s[2] + s[3] + s[4] + s[5] + s[6]
                             + s[7] + s[8] + s[9] + s[10] + s[11] + s[12] + s[13]
  {
    assert ISumTo(s, 1) == s[0];
    assert ISumTo(s, 2) == s[0] + s[1];
    assert ISumTo(s, 4) == ISumTo(s, 2) + s[2] + s[3];
    assert ISumTo(s, 6) == ISumTo(s, 4) + s[4] + s[5];
    assert ISumTo(s, 8) == ISumTo(s, 6) + s[6] + s[7];
    assert ISumTo(s, 10) == ISumTo(s, 8) + s[8] + s[9];
    assert ISumTo(s, 12) == ISumTo(s, 10) + s[10] + s[11];
  }

  // --- bucketPenalty is a lower bound ---

  lemma FlagTerm(q: Vec, c: Codes, i: int, bit: int)
    requires WellFormed(q) && 9 <= i <= 11
    requires bit == 0 || bit == 1
    requires c[i] == if bit == 1 then MAX_CODE else 1
    ensures Term(q, c, i) == FlagPenalty(q[i], bit)
  {
    assert q[i] == 0.0 || q[i] == 1.0;
    assert Dequant(1) == 0.0 && Dequant(MAX_CODE) == 1.0;
  }

  lemma FlagITerm(q: Vec, c: Codes, i: int, bit: int)
    requires WellFormed(q) && 9 <= i <= 11
    requires bit == 0 || bit == 1
    requires c[i] == if bit == 1 then MAX_CODE else 1
    ensures ITerm(QuantizeVec(q), c, i) == if FlagPenalty(q[i], bit) == 1.0 then 100_000_000 else 0
  {
    assert q[i] == 0.0 || q[i] == 1.0;
    assert (10000.5).Floor == 10000 && (0.5).Floor == 0;
    assert Quantize(1.0) == MAX_CODE && Quantize(0.0) == 1;
    assert -10000 * -10000 == 100_000_000 == 10000 * 10000;
  }

  lemma NullTerms(q: Vec, c: Codes, b: int)
    requires WellFormed(q) && InBucket(c, b)
    ensures Term(q, c, 5) + Term(q, c, 6) >= NullPenalty(q, Bit(b, 1))
    ensures !SameNull(q, b) ==> NullPenalty(q, Bit(b, 1)) >= 2.0
  {
    if !SameNull(q, b) {
      if Bit(b, 1) == 1 {
        SquareAtLeast(q[5] + 1.0, 1.0);
        SquareAtLeast(q[6] + 1.0, 1.0);
      } else {
        SquareAtLeast(Dequant(c[5]) + 1.0, 1.0);
        SquareAtLeast(Dequant(c[6]) + 1.0, 1.0);
        assert Term(q, c, 5) == (Dequant(c[5]) + 1.0) * (Dequant(c[5]) + 1.0);
        assert Term(q, c, 6) == (Dequant(c[6]) + 1.0) * (Dequant(c[6]) + 1.0);
      }
    }
  }

  lemma SquareAtLeast(x: real, m: real)
    requires 0.0 <= m <= x
    ensures x * x >= m * m
  {
    assert x * x >= m * x >= m * m;
  }

  /** bucketPenalty(q, b) never exceeds the exact distance to a row of bucket `b`,
    * and a null mismatch alone costs 2. */
  lemma PenaltyBoundsDist2(q: Vec, c: Codes, b: int)
    requires WellFormed(q) && InBucket(c, b)
    ensures Dist2(q, c) >= BucketPenalty(q, b)
    ensures !SameNull(q, b) ==> BucketPenalty(q, b) >= 2.0
  {
    FlagTerm(q, c, 9, Bit(b, 8));
    FlagTerm(q, c, 10, Bit(b, 4));
    FlagTerm(q, c, 11, Bit(b, 2));
    NullTerms(q, c, b);
    SumOfFourteen(Terms(q, c));
  }

  function Gap2(q: Vec, v: Vec, i: int): (g: real)
    requires 0 <= i < DIMS
    ensures g >= 0.0 && (q[i] == v[i] ==> g == 0.0)
  {
    (q[i] - v[i]) * (q[i] - v[i])
  }

  lemma VecTerms(q: Vec, v: Vec)
    ensures VecDist2(q, v) == Gap2(q, v, 0) + Gap2(q, v, 1) + Gap2(q, v, 2) + Gap2(q, v, 3) + Gap2(q, v, 4)
      + Gap2(q, v, 5) + Gap2(q, v, 6) + Gap2(q, v, 7) + Gap2(q, v, 8) + Gap2(q, v, 9) + Gap2(q, v, 10)
      + Gap2(q, v, 11) + Gap2(q, v, 12) + Gap2(q, v, 13)
  {
    SumOfFourteen(seq(DIMS, i requires 0 <= i < DIMS => (q[i] - v[i]) * (q[i] - v[i])));
  }

  /** The vector of bucket `b` that agrees with `q` as far as the bucket lets it. */
  function NearestIn(q: Vec, b: int): (v: Vec)
    requires WellFormed(q) && 0 <= b < BUCKETS
    ensures WellFormed(v) && BucketOf(v) == b
  {
    var last := if SameNull(q, b) then q[5..7] else if Bit(b, 1) == 1 then [-1.0, -1.0] else [0.0, 0.0];
    q[..5] + last + q[7..9] + [Bit(b, 8) as real, Bit(b, 4) as real, Bit(b, 2) as real] + q[12..]
  }

  lemma FlagGap(q: Vec, v: Vec, i: int)
    requires WellFormed(q) && WellFormed(v) && 9 <= i <= 11
    ensures Gap2(q, v, i) == FlagPenalty(q[i], if v[i] >= 0.5 then 1 else 0)
  {
    assert (q[i] == 0.0 || q[i] == 1.0) && (v[i] == 0.0 || v[i] == 1.0);
  }

  lemma NullGap(q: Vec, v: Vec)
    requires WellFormed(q) && WellFormed(v)
    ensures var bit := if v[5] < 0.0 then 1 else 0;
      && Gap2(q, v, 5) + Gap2(q, v, 6) >= NullPenalty(q, bit)
      && ((bit == 0 && q[5] < 0.0 ==> v[5] == v[6] == 0.0) && (bit == 0 && q[5] >= 0.0 ==> v[5..7] == q[5..7])
          ==> Gap2(q, v, 5) + Gap2(q, v, 6) == NullPenalty(q, bit))
  {
    if q[5] < 0.0 && v[5] >= 0.0 {
      SquareAtLeast(v[5] + 1.0, 1.0);
      SquareAtLeast(v[6] + 1.0, 1.0);
    } else if q[5] >= 0.0 && v[5] >= 0.0 {
      assert v[5..7] == q[5..7] ==> v[5] == v[5..7][0] == q[5] && v[6] == v[5..7][1] == q[6];
    }
  }

  lemma VecAtLeast(q: Vec, v: Vec, b: int)
    requires WellFormed(q) && WellFormed(v) && 0 <= b < BUCKETS && BucketOf(v) == b
    ensures VecDist2(q, v) >= BucketPenalty(q, b)
    ensures v == NearestIn(q, b) ==> VecDist2(q, v) == BucketPenalty(q, b)
  {
    BucketBits(v);
    VecTerms(q, v);
    FlagGap(q, v, 9);
    FlagGap(q, v, 10);
    FlagGap(q, v, 11);
    NullGap(q, v);
    if v == NearestIn(q, b) {
      NearestAgrees(q, b);
    }
    hide Gap2, WellFormed, VecDist2, BucketOf, FlagPenalty, NullPenalty, NearestIn;
  }

  lemma NearestAgrees(q: Vec, b: int)
    requires WellFormed(q) && 0 <= b < BUCKETS
    ensures var v := NearestIn(q, b);
      && (forall i | 0 <= i < DIMS && i != 5 && i != 6 && !(9 <= i <= 11) :: Gap2(q, v, i) == 0.0)
      && (v[5] >= 0.0 && q[5] < 0.0 ==> v[5] == v[6] == 0.0) && (v[5] >= 0.0 && q[5] >= 0.0 ==> v[5..7] == q[5..7])
  {
  }

  /** The bucket penalty is the least distance of a vector of the bucket: none is nearer, and one is as near. */
  lemma PenaltyIsLeast(q: Vec, b: int)
    requires WellFormed(q) && 0 <= b < BUCKETS
    ensures forall v: Vec | WellFormed(v) && BucketOf(v) == b :: VecDist2(q, v) >= BucketPenalty(q, b)
    ensures exists v: Vec | WellFormed(v) && BucketOf(v) == b :: VecDist2(q, v) == BucketPenalty(q, b)
  {
    hide WellFormed, VecDist2, BucketOf, BucketPenalty, NearestIn;
    forall v: Vec | WellFormed(v) && BucketOf(v) == b
      ensures VecDist2(q, v) >= BucketPenalty(q, b)
    {
      VecAtLeast(q, v, b);
    }
    VecAtLeast(q, NearestIn(q, b), b);
  }

  /** The least integer distance a row of bucket `b` can have from `q`. */
  function IntFloor(q: Vec, b: int): int {
    (if FlagPenalty(q[9], Bit(b, 8)) == 1.0 then 100_000_000 else 0) +
    (if FlagPenalty(q[10], Bit(b, 4)) == 1.0 then 100_000_000 else 0) +
    (if FlagPenalty(q[11], Bit(b, 2)) == 1.0 then 100_000_000 else 0) +
    (if SameNull(q, b) then 0
     else if q[5] < 0.0 then 2
     else Quantize(q[5]) * Quantize(q[5]) + Quantize(q[6]) * Quantize(q[6]))
  }

  lemma IntFloorIsLowerBound(q: Vec, c: Codes, b: int)
    requires WellFormed(q) && InBucket(c, b)
    ensures IntDist(QuantizeVec(q), c) >= IntFloor(q, b)
    ensures SameNull(q, b) ==> IntFloor(q, b) as real == BucketPenalty(q, b) * 1e8
  {
    var qc := QuantizeVec(q);
    FlagITerm(q, c, 9, Bit(b, 8));
    FlagITerm(q, c, 10, Bit(b, 4));
    FlagITerm(q, c, 11, Bit(b, 2));
    if !SameNull(q, b) {
      if q[5] < 0.0 {
        ITermIs(qc, c, 5, -c[5]);
        ITermIs(qc, c, 6, -c[6]);
      } else {
        ITermIs(qc, c, 5, Quantize(q[5]));
        ITermIs(qc, c, 6, Quantize(q[6]));
      }
    }
    SumAtLeastKeyTerms(ITerms(qc, c));
  }

  lemma ITermIs(qc: Codes, c: Codes, i: int, t: int)
    requires 0 <= i < DIMS && qc[i] - c[i] == t
    ensures ITerm(qc, c, i) == t * t
    ensures t != 0 ==> t * t >= 1
  {
    if t > 0 {
      SquareMonotone(1, t);
    } else if t < 0 {
      SquareMonotone(1, -t);
      assert t * t == -t * -t;
    }
  }

  lemma SumAtLeastKeyTerms(s: seq<int>)
    requires |s| == DIMS && forall i | 0 <= i < DIMS :: 0 <= s[i]
    ensures ISumTo(s, DIMS) >= s[5] + s[6] + s[9] + s[10] + s[11]
  {
    ISumOfFourteen(s);
  }
}
