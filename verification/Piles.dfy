/** Indexes as a build makes them from a few values: in each of the first four buckets one row of one value
  * followed by rows of another. Their layout can be written down, so a search can be followed through it.
  */
module Piles {
  import opened Grid
  import opened Layout
  import opened Packing
  import opened Permutation
  import opened Lloyd
  import opened Training
  import opened Build
  import opened Builder

  const PILES := 4

  /** The rows of a bucket: `first`, then `rest` for the others. */
  datatype Pile = Pile(size: nat, first: Codes, rest: Codes, fraud: bool)

  function Zeros(): Codes {
    seq(DIMS, _ => 1)
  }

  type Piling = p: seq<Pile> | |p| == PILES witness seq(PILES, _ => Pile(0, Zeros(), Zeros(), false))

  predicate Belongs(x: Codes, b: int) {
    WellFormed(DequantVec(x)) && BucketOf(DequantVec(x)) == b
  }

  predicate Proper(p: Piling) {
    forall b | 0 <= b < PILES :: Belongs(p[b].first, b) && Belongs(p[b].rest, b)
  }

  /** Where bucket `b` begins. */
  function Begin(p: Piling, b: int): (i: nat)
  {
    if b <= 0 then 0
    else if b == 1 then p[0].size
    else if b == 2 then p[0].size + p[1].size
    else if b == 3 then p[0].size + p[1].size + p[2].size
    else p[0].size + p[1].size + p[2].size + p[3].size
  }

  function Total(p: Piling): nat
  {
    Begin(p, PILES)
  }

  /** The bucket of row `i`. */
  function PileOf(p: Piling, i: int): (b: int)
    ensures 0 <= b < PILES && (0 <= i < Total(p) ==> Begin(p, b) <= i < Begin(p, b + 1))
    ensures forall c | 0 <= c && Begin(p, c) <= i < Begin(p, c + 1) :: c == b
  {
    if i < Begin(p, 1) then 0 else if i < Begin(p, 2) then 1 else if i < Begin(p, 3) then 2 else 3
  }

  /** Row `j` of a pile. */
  function PileRow(x: Pile, j: int): Codes {
    if j == 0 then x.first else x.rest
  }

  function RowOf(p: Piling, i: int): Codes
  {
    PileRow(p[PileOf(p, i)], i - Begin(p, PileOf(p, i)))
  }

  // --- what is added ---

  function Added(p: Piling): (s: seq<(Vec, bool)>)
    ensures |s| == Total(p)
    ensures forall i | 0 <= i < |s| :: s[i] == (DequantVec(RowOf(p, i)), p[PileOf(p, i)].fraud)
  {
    seq(Total(p), i => (DequantVec(RowOf(p, i)), p[PileOf(p, i)].fraud))
  }

  lemma AddedFacts(p: Piling, i: int)
    requires Proper(p) && 0 <= i < Total(p)
    ensures WellFormed(Added(p)[i].0) && QuantizeVec(Added(p)[i].0) == RowOf(p, i)
    ensures BucketOf(Added(p)[i].0) == PileOf(p, i)
  {
    hide WellFormed, BucketOf, DequantVec, QuantizeVec, Begin;
    CodesSurvive(RowOf(p, i));
    assert Belongs(RowOf(p, i), PileOf(p, i));
  }

  /** The vectors of a bucket that were added in one go. */
  lemma {:induction false} BucketInterval(added: seq<(Vec, bool)>, b: int, lo: int, hi: int, i: int)
    requires 0 <= lo <= hi <= |added| && 0 <= i <= |added|
    requires forall j | 0 <= j < |added| :: BucketOf(added[j].0) == b <==> lo <= j < hi
    ensures |BucketRows(added[..i], b)| == if i <= lo then 0 else if i <= hi then i - lo else hi - lo
    ensures var x := BucketRows(added[..i], b);
      forall j | 0 <= j < |x| :: x[j] == QuantizeVec(added[lo + j].0)
    decreases i
  {
    hide BucketOf, QuantizeVec;
    if i > 0 {
      BucketInterval(added, b, lo, hi, i - 1);
      assert added[..i][..i - 1] == added[..i - 1] && added[..i][i - 1] == added[i - 1];
    }
  }

  lemma PileBounds(p: Piling, b: int)
    requires 0 <= b < BUCKETS
    ensures 0 <= Begin(p, b) <= Begin(p, b + 1) <= Total(p)
    ensures Begin(p, b + 1) == Begin(p, b) + if b < PILES then p[b].size else 0
    ensures forall j | 0 <= j < Total(p) :: PileOf(p, j) == b <==> Begin(p, b) <= j < Begin(p, b + 1)
  {
  }

  lemma RowsOfBucket(p: Piling, b: int)
    requires Proper(p) && 0 <= b < BUCKETS
    ensures var x := BucketRows(Added(p), b);
      && |x| == (if b < PILES then p[b].size else 0)
      && forall j | 0 <= j < |x| :: b < PILES && x[j] == PileRow(p[b], j)
  {
    hide BucketOf, QuantizeVec, DequantVec, BucketRows, PileRow, Proper, Begin, PileOf;
    var added := Added(p);
    PileBounds(p, b);
    forall j | 0 <= j < Total(p)
      ensures QuantizeVec(added[j].0) == RowOf(p, j) && BucketOf(added[j].0) == PileOf(p, j)
    {
      AddedFacts(p, j);
    }
    assert added[..Total(p)] == added;
    BucketInterval(added, b, Begin(p, b), Begin(p, b + 1), Total(p));
  }

  // --- its centroids ---

  /** The first cell of a pile takes its first row's value, the second the other, both zero when unused. */
  function CentroidOf(p: Piling, c: int): Codes
    requires 0 <= c
  {
    if c < 2 * PILES && p[c / 2].size > c % 2 then PileRow(p[c / 2], c % 2) else Zeros()
  }

  lemma ZerosAreZero()
    ensures DequantVec(Zeros()) == Zero()
  {
    assert Dequant(1) == 0.0;
  }

  function Cents(p: Piling): (s: seq<Vec>)
    ensures |s| == 2 * BUCKETS && forall c | 0 <= c < 2 * BUCKETS :: s[c] == DequantVec(CentroidOf(p, c))
  {
    seq(2 * BUCKETS, c requires 0 <= c => DequantVec(CentroidOf(p, c)))
  }

  lemma PileCents(p: Piling, b: int, c: int)
    requires 0 <= b < PILES && 0 <= c < 2 && c < p[b].size
    ensures Cents(p)[b * 2 + c] == DequantVec(PileRow(p[b], c))
  {
    hide DequantVec, PileRow;
    assert (b * 2 + c) / 2 == b && (b * 2 + c) % 2 == c;
  }

  /** The seeds of a pile's two cells are its two values. */
  lemma PileSeeds(x: seq<Codes>, y: Pile, k: nat)
    requires |x| == y.size > 0 && k == Cells(2, |x|) && forall j | 0 <= j < |x| :: x[j] == PileRow(y, j)
    ensures 1 <= k <= |x| && k <= 2 && forall c | 0 <= c < k :: SeedsOf(x, k)[c] == DequantVec(PileRow(y, c))
  {
    hide DequantVec;
    forall c | 0 <= c < k
      ensures SeedAt(x, k, c) == DequantVec(PileRow(y, c))
    {
      DivFits(|x|, k);
      Spread(c, |x| / k, k, |x|);
      assert c == 0 ==> c * (|x| / k) == 0;
      assert c == 1 ==> c * (|x| / k) == |x| / k >= 1;
    }
  }

  lemma PileTrained(x: seq<Codes>, y: Pile, iters: nat)
    requires |x| == y.size > 0 && forall j | 0 <= j < |x| :: x[j] == PileRow(y, j)
    ensures var k := Cells(2, |x|);
      |Trained(x, k, iters)| == k && forall c | 0 <= c < k :: Trained(x, k, iters)[c] == DequantVec(PileRow(y, c))
  {
    hide DequantVec, Trained, SeedsOf;
    var k := Cells(2, |x|);
    PileSeeds(x, y, k);
    forall j | 0 <= j < |x|
      ensures IsSeed(x, k, j)
    {
      var c := if j == 0 then 0 else 1;
      assert c < k && PileRow(y, c) == x[j];
      assert SeedsOf(x, k)[c] == DequantVec(x[j]);
    }
    SeedsStay(x, k, iters);
  }

  lemma BucketTrained(p: Piling, b: int, iters: nat)
    requires Proper(p) && 0 <= b < BUCKETS
    ensures CentroidsTrained(BucketRows(Added(p), b), Cents(p), b * 2, 2, iters)
  {
    ZerosAreZero();
    hide BucketRows, Added, DequantVec, Zeros, Zero, Trained, PileRow, Proper;
    var x, cents := BucketRows(Added(p), b), Cents(p);
    RowsOfBucket(p, b);
    if |x| > 0 {
      PileTrained(x, p[b], iters);
      var k := Cells(2, |x|);
      forall c | 0 <= c < k
        ensures cents[b * 2 + c] == Trained(x, k, iters)[c]
      {
        PileCents(p, b, c);
      }
      assert cents[b * 2..b * 2 + Cells(2, |x|)] == Trained(x, Cells(2, |x|), iters);
    }
  }

  // --- its layout ---

  function Labels(p: Piling): (s: seq<bool>)
    ensures |s| == Total(p) && forall i | 0 <= i < |s| :: s[i] == p[PileOf(p, i)].fraud
  {
    seq(Total(p), i => p[PileOf(p, i)].fraud)
  }

  function BucketStarts(p: Piling): (s: seq<int>)
    ensures |s| == BUCKETS + 1 && NonDecreasing(s) && forall b | 0 <= b <= BUCKETS :: s[b] == Begin(p, b)
  {
    seq(BUCKETS + 1, b => Begin(p, b))
  }

  /** How many rows of a pile its first cell has. */
  function FirstSize(x: Pile): (m: nat)
    ensures m <= x.size && (x.size > 0 ==> m > 0)
  {
    if x.size == 0 then 0 else if x.first == x.rest then x.size else 1
  }

  function CellBegin(p: Piling, c: nat): nat
  {
    Begin(p, c / 2) + if c % 2 == 1 && c / 2 < PILES then FirstSize(p[c / 2]) else 0
  }

  function CellStarts(p: Piling): (s: seq<int>)
    ensures |s| == 2 * BUCKETS + 1 && NonDecreasing(s) && forall c | 0 <= c <= 2 * BUCKETS :: s[c] == CellBegin(p, c)
  {
    hide FirstSize;
    seq(2 * BUCKETS + 1, c requires 0 <= c => CellBegin(p, c))
  }

  /** Code number `j` of a pile, dimension by dimension. */
  function PileCode(x: Pile, j: int): (c: int)
    ensures 0 <= c <= MAX_CODE
  {
    if x.size > 0 && 0 <= j / x.size < DIMS then PileRow(x, j % x.size)[j / x.size] else 0
  }

  function DataAt(p: Piling, i: int): (c: int)
    ensures 0 <= c <= MAX_CODE
  {
    if i < Begin(p, 1) * DIMS then PileCode(p[0], i)
    else if i < Begin(p, 2) * DIMS then PileCode(p[1], i - Begin(p, 1) * DIMS)
    else if i < Begin(p, 3) * DIMS then PileCode(p[2], i - Begin(p, 2) * DIMS)
    else if i < Begin(p, 4) * DIMS then PileCode(p[3], i - Begin(p, 3) * DIMS)
    else 0
  }

  function Data(p: Piling): (s: seq<int>)
    ensures |s| == Total(p) * DIMS + TAIL_PAD && OnGrid(s) && forall i | 0 <= i < |s| :: s[i] == DataAt(p, i)
  {
    seq(Total(p) * DIMS + TAIL_PAD, i => DataAt(p, i))
  }

  function TwinData(p: Piling): (s: seq<int>)
    ensures |s| == BUCKETS * 2 * DIMS + TAIL_PAD && OnGrid(s)
  {
    seq(BUCKETS * 2 * DIMS + TAIL_PAD, i requires 0 <= i =>
      if i < BUCKETS * 2 * DIMS then CentroidOf(p, i / 28 * 2 + i % 2)[i % 28 / 2] else 0)
  }

  function Piled(p: Piling): (L: Layout)
  {
    Layout(Total(p), 2, Data(p), Packed(Labels(p), Total(p)), TwinData(p), CellStarts(p), BucketStarts(p))
  }

  lemma PiledParts(p: Piling)
    ensures var L := Piled(p);
      && L.n == Total(p) && L.nlist == 2 && L.cellStart == CellStarts(p) && L.bucketStart == BucketStarts(p)
      && L.centroidsI16 == TwinData(p)
  {
  }

  lemma PiledShape(p: Piling)
    requires Total(p) <= MAX_INT32
    ensures Shape(Piled(p))
  {
    hide Packed, Data, TwinData, OnGrid, NonDecreasing, FirstSize;
    var L := Piled(p);
    forall b | 0 <= b <= BUCKETS
      ensures CellAt(L, b) == L.bucketStart[b]
    {
      assert b * L.nlist == 2 * b;
      assert 2 * b / 2 == b && 2 * b % 2 == 0;
    }
  }

  lemma PileCodeAt(x: Pile, d: int, l: int)
    requires 0 <= d < DIMS && 0 <= l < x.size
    ensures 0 <= d * x.size + l < x.size * DIMS && PileCode(x, d * x.size + l) == PileRow(x, l)[d]
  {
    hide PileRow;
    Quotient(d, x.size, l);
  }

  lemma Quotient(d: int, m: int, l: int)
    requires 0 <= d < DIMS && 0 <= l < m
    ensures (d * m + l) / m == d && (d * m + l) % m == l && 0 <= d * m + l < m * DIMS
  {
    var i := d * m + l;
    BlockIndexInRange(0, m, d, l);
    Split(i, m, DIMS);
    BlockIndexInjective(0, m, d, l, i / m, i % m);
  }

  lemma PiledCode(p: Piling, b: int, r: int, d: int)
    requires Total(p) <= MAX_INT32 && Shape(Piled(p)) && RowIn(Piled(p), b, r)
    requires b < PILES && 0 <= d < DIMS
    ensures RowCodes(Piled(p), b, r)[d] == PileRow(p[b], r - Begin(p, b))[d]
  {
    hide Packed, TwinData, OnGrid, PileCode, Shape, PileRow;
    var L := Piled(p);
    RowRead(L, b, r, d);
    PileCodeAt(p[b], d, r - Begin(p, b));
  }

  lemma PiledRow(p: Piling, r: int)
    requires Total(p) <= MAX_INT32 && Shape(Piled(p)) && 0 <= r < Total(p)
    ensures var b := PileOf(p, r);
      && RowIn(Piled(p), b, r) && RowCodes(Piled(p), b, r) == RowOf(p, r) && IsFraud(Piled(p), r) == p[b].fraud
  {
    var L, b := Piled(p), PileOf(p, r);
    assert RowIn(L, b, r);
    PackedFlags(Labels(p), Total(p), r);
    assert FlagAt(L.fraud, r) == p[b].fraud;
    assert IsFraud(L, r) == FlagAt(L.fraud, r);
    hide Shape, Piled, RowCodes, IsFraud, PileOf;
    var c := RowCodes(L, b, r);
    forall d | 0 <= d < DIMS
      ensures c[d] == RowOf(p, r)[d]
    {
      PiledCode(p, b, r, d);
    }
    assert c == RowOf(p, r);
  }

  lemma TwinAt(p: Piling, b: int, c: int, d: int)
    requires 0 <= b < BUCKETS && 0 <= c < 2 && 0 <= d < DIMS
    ensures 0 <= b * 2 * DIMS + c + d * 2 < |TwinData(p)|
    ensures TwinData(p)[b * 2 * DIMS + c + d * 2] == CentroidOf(p, 2 * b + c)[d]
  {
    hide OnGrid, CentroidOf;
    var i := b * 2 * DIMS + c + d * 2;
    assert i / 28 == b && i % 2 == c && i % 28 / 2 == d;
  }

  lemma PiledCentroid(p: Piling, b: int, c: int)
    requires Shape(Piled(p)) && 0 <= b < BUCKETS && 0 <= c < 2
    ensures CentroidCodes(Piled(p), b, c) == CentroidOf(p, 2 * b + c)
  {
    hide Shape, Piled, OnGrid, CentroidOf, TwinData, Strided;
    var L := Piled(p);
    PiledParts(p);
    CellBase(b, 2);
    var codes := CentroidCodes(L, b, c);
    forall d | 0 <= d < DIMS
      ensures codes[d] == CentroidOf(p, 2 * b + c)[d]
    {
      StridedAt(TwinData(p), b * 2 * DIMS + c, 2, d);
      TwinAt(p, b, c, d);
    }
    assert codes == CentroidOf(p, 2 * b + c);
  }

  // --- it is what a build makes ---

  function CellNumber(x: Pile, j: int): int {
    if j == 0 || x.first == x.rest then 0 else 1
  }

  function CellOf(p: Piling): (s: seq<int>)
    ensures |s| == Total(p)
    ensures forall r | 0 <= r < |s| :: s[r] == CellNumber(p[PileOf(p, r)], r - Begin(p, PileOf(p, r)))
  {
    seq(Total(p), r => CellNumber(p[PileOf(p, r)], r - Begin(p, PileOf(p, r))))
  }

  lemma FirstValue(cents: seq<Vec>, base: nat, k: nat, x: Codes, c: nat)
    requires c < k && c <= 1 && base + k <= |cents| && cents[base + c] == DequantVec(x)
    requires c == 1 ==> cents[base] != DequantVec(x)
    ensures NearestCell(cents, base, k, x, c)
  {
    hide Nearest, DequantVec;
    NearestIsValue(x, cents[base..base + k], k, c);
  }

  /** Each row belongs to the first centroid of its bucket that has its value. */
  lemma PileNearest(p: Piling, b: int, j: int)
    requires 0 <= b < PILES && 0 <= j < p[b].size
    ensures NearestCell(Cents(p), b * 2, Cells(2, p[b].size), PileRow(p[b], j), CellNumber(p[b], j))
  {
    hide Nearest, NearestCell, DequantVec, Cents, QuantizeVec, CentroidOf;
    PileCents(p, b, 0);
    var x := PileRow(p[b], j);
    if CellNumber(p[b], j) == 0 {
      FirstValue(Cents(p), b * 2, Cells(2, p[b].size), x, 0);
    } else {
      PileCents(p, b, 1);
      CodesSurvive(p[b].first);
      CodesSurvive(p[b].rest);
      FirstValue(Cents(p), b * 2, Cells(2, p[b].size), x, 1);
    }
  }

  lemma PiledNearest(p: Piling, r: int)
    requires 0 <= r < Total(p)
    ensures var b := PileOf(p, r);
      NearestCell(Cents(p), b * 2, Cells(2, p[b].size), RowOf(p, r), CellOf(p)[r])
  {
    hide NearestCell, PileOf, Begin, Cents, PileRow, CellNumber;
    var b := PileOf(p, r);
    PileSize(p, b);
    PileNearest(p, b, r - Begin(p, b));
  }

  lemma PileSize(p: Piling, b: int)
    requires 0 <= b < PILES
    ensures Begin(p, b + 1) == Begin(p, b) + p[b].size
  {
  }

  lemma PiledPlaced(p: Piling, L: Layout, r: int)
    requires Proper(p) && Total(p) <= MAX_INT32 && L == Piled(p) && Shape(L) && 0 <= r < Total(p)
    ensures L.n == Total(p) && RowPlaced(L, Added(p), Numbers(Total(p)), CellOf(p), Cents(p), r)
  {
    hide Shape, Packed, Data, TwinData, RowCodes, IsFraud, WellFormed, BucketOf, DequantVec, NearestCell, RowOf,
      QuantizeVec, Proper, PileOf;
    AddedFacts(p, r);
    PiledRow(p, r);
    PiledNearest(p, r);
    PiledParts(p);
    var b := PileOf(p, r);
    PileSize(p, b);
    assert b * L.nlist == 2 * b;
    InFirstCell(p, b, r - Begin(p, b));
  }

  lemma InFirstCell(p: Piling, b: int, j: int)
    requires 0 <= b < PILES && 0 <= j < p[b].size
    ensures var c := CellNumber(p[b], j);
      0 <= c < 2 && CellBegin(p, 2 * b + c) <= Begin(p, b) + j < CellBegin(p, 2 * b + c + 1)
  {
    PileSize(p, b);
    assert (2 * b + 1) / 2 == b && (2 * b + 2) / 2 == b + 1;
  }

  lemma PiledOrdered(p: Piling, r: int, s: int)
    requires Proper(p) && 0 <= r < s < Total(p)
    ensures RowsOrdered(Added(p), Numbers(Total(p)), CellOf(p), r, s)
  {
    hide WellFormed, BucketOf, DequantVec, RowOf, QuantizeVec, Proper;
    AddedFacts(p, r);
    AddedFacts(p, s);
  }

  lemma PiledStored(p: Piling, L: Layout)
    requires L == Piled(p) && Shape(L)
    ensures CentroidsStored(L, Cents(p))
  {
    PiledParts(p);
    hide Shape, Piled, CentroidCodes, QuantizeVec, DequantVec, CentroidOf;
    forall b, c | 0 <= b < BUCKETS && 0 <= c < L.nlist
      ensures CentroidStored(L, Cents(p), b, c)
    {
      PiledCentroid(p, b, c);
      CodesSurvive(CentroidOf(p, 2 * b + c));
    }
  }

  lemma PiledFilled(p: Piling, L: Layout)
    requires Proper(p) && L == Piled(p) && Shape(L)
    ensures BucketsFilled(L, Added(p))
  {
    PiledParts(p);
    hide Shape, Piled, BucketRows, Added, Begin, Proper;
    forall b | 0 <= b < BUCKETS
      ensures L.bucketStart[b + 1] - L.bucketStart[b] == |BucketRows(Added(p), b)|
    {
      RowsOfBucket(p, b);
      PileBounds(p, b);
    }
  }

  /** Building the added vectors with two cells a bucket, whatever the number of iterations, gives the piled
    * index. */
  lemma PiledIsBuilt(p: Piling, iters: nat)
    requires Proper(p) && Total(p) <= MAX_INT32 && 1 <= iters
    ensures BuiltFrom(Piled(p), Added(p), iters, Numbers(Total(p)), CellOf(p), Cents(p))
    ensures AllWellFormed(Added(p)) && Built(Piled(p)) && ValidLayout(Piled(p))
  {
    hide Shape, CentroidsStored, CentroidsTrained, RowPlaced, RowsOrdered, WellFormed, Data, TwinData, Packed,
      Proper, Begin, ValidLayout, BucketsFilled;
    var L, added, n := Piled(p), Added(p), Total(p);
    PiledShape(p);
    PiledParts(p);
    forall r | 0 <= r < n
      ensures RowPlaced(L, added, Numbers(n), CellOf(p), Cents(p), r) && WellFormed(added[r].0)
    {
      PiledPlaced(p, L, r);
      AddedFacts(p, r);
    }
    forall r, s | 0 <= r < s < n
      ensures RowsOrdered(added, Numbers(n), CellOf(p), r, s)
    {
      PiledOrdered(p, r, s);
    }
    PiledStored(p, L);
    PiledFilled(p, L);
    forall b | 0 <= b < BUCKETS
      ensures CentroidsTrained(BucketRows(added, b), Cents(p), b * 2, 2, iters)
    {
      BucketTrained(p, b, iters);
    }
    assert BuiltFrom(L, added, iters, Numbers(n), CellOf(p), Cents(p));
    BuiltValid(L);
  }
}
