/** The stored index as a value: dim-major codes per bucket, CSR cells inside buckets, and the
  * bookkeeping that ties them together.
  */
module Layout {
  import opened Grid
  import opened Words

  datatype Layout = Layout(
    n: int,
    nlist: int,
    data: seq<int>,          // per bucket, dimension by dimension
    fraud: seq<int>,         // one bit per row, 64 to a word
    centroidsI16: seq<int>,  // per bucket, dimension by dimension
    cellStart: seq<int>,     // rows of cell i: [cellStart[i], cellStart[i + 1])
    bucketStart: seq<int>    // rows of bucket b: [bucketStart[b], bucketStart[b + 1])
  )

  predicate OnGrid(s: seq<int>) {
    forall i | 0 <= i < |s| :: 0 <= s[i] <= MAX_CODE
  }

  predicate NonDecreasing(s: seq<int>) {
    forall i, j | 0 <= i <= j < |s| :: s[i] <= s[j]
  }

  /** Sizes, tiling of [0, n) by buckets, tiling of every bucket by its cells. */
  ghost predicate Shape(L: Layout) {
    && 0 <= L.n <= MAX_INT32 && 1 <= L.nlist
    && |L.data| == L.n * DIMS + TAIL_PAD && OnGrid(L.data)
    && |L.fraud| == (L.n + 63) / 64 && (forall i | 0 <= i < |L.fraud| :: L.fraud[i] >= 0)
    && |L.centroidsI16| == BUCKETS * L.nlist * DIMS + TAIL_PAD && OnGrid(L.centroidsI16)
    && |L.bucketStart| == BUCKETS + 1 && NonDecreasing(L.bucketStart)
    && L.bucketStart[0] == 0 && L.bucketStart[BUCKETS] == L.n
    && |L.cellStart| == BUCKETS * L.nlist + 1 && NonDecreasing(L.cellStart)
    && (forall b | 0 <= b <= BUCKETS :: CellAt(L, b) == L.bucketStart[b])
  }

  /** Where the cells of bucket `b` begin. */
  function CellAt(L: Layout, b: int): int
    requires 0 <= b <= BUCKETS && 1 <= L.nlist && |L.cellStart| == BUCKETS * L.nlist + 1
  {
    CellBase(b, L.nlist);
    L.cellStart[b * L.nlist]
  }

  lemma CellBase(b: int, nlist: int)
    requires 0 <= b <= BUCKETS && 1 <= nlist
    ensures 0 <= b * nlist <= BUCKETS * nlist
    ensures b < BUCKETS ==> (b + 1) * nlist == b * nlist + nlist <= BUCKETS * nlist
  {
  }

  /** The unquantified part of Shape. */
  lemma Basics(L: Layout)
    requires Shape(L)
    ensures 0 <= L.n <= MAX_INT32 && 1 <= L.nlist
    ensures |L.data| == L.n * DIMS + TAIL_PAD && OnGrid(L.data)
    ensures |L.fraud| == (L.n + 63) / 64
    ensures |L.centroidsI16| == BUCKETS * L.nlist * DIMS + TAIL_PAD && OnGrid(L.centroidsI16)
    ensures |L.bucketStart| == BUCKETS + 1 && |L.cellStart| == BUCKETS * L.nlist + 1
  {
  }

  lemma BucketBounds(L: Layout, b: int)
    requires Shape(L) && 0 <= b < BUCKETS
    ensures |L.bucketStart| == BUCKETS + 1
    ensures 0 <= L.bucketStart[b] <= L.bucketStart[b + 1] <= L.n
  {
    assert L.bucketStart[0] <= L.bucketStart[b] && L.bucketStart[b + 1] <= L.bucketStart[BUCKETS];
  }

  // --- strided reads ---

  /** The fourteen codes found at `off`, `off + stride`, ... */
  function Strided(s: seq<int>, off: int, stride: int): (c: Codes)
    requires OnGrid(s) && 0 <= off && 0 <= stride && off + 13 * stride < |s|
  {
    assert forall d | 0 <= d < DIMS :: StrideIn(s, off, stride, d) by {
      forall d | 0 <= d < DIMS
        ensures StrideIn(s, off, stride, d)
      {
        StrideBound(stride, d);
      }
    }
    seq(DIMS, d requires 0 <= d < DIMS && StrideIn(s, off, stride, d) => s[off + d * stride])
  }

  predicate StrideIn(s: seq<int>, off: int, stride: int, d: int) {
    0 <= off + d * stride < |s|
  }

  lemma StrideBound(stride: int, d: int)
    requires 0 <= stride && 0 <= d <= 13
    ensures 0 <= d * stride <= 13 * stride
  {
  }

  lemma StridedAt(s: seq<int>, off: int, stride: int, d: int)
    requires OnGrid(s) && 0 <= off && 0 <= stride && off + 13 * stride < |s| && 0 <= d < DIMS
    ensures 0 <= off + d * stride < |s| && Strided(s, off, stride)[d] == s[off + d * stride]
  {
    StrideBound(stride, d);
    assert StrideIn(s, off, stride, d);
  }

  // --- rows ---

  predicate RowIn(L: Layout, b: int, r: int) {
    && 0 <= b < BUCKETS && |L.bucketStart| == BUCKETS + 1
    && L.bucketStart[b] <= r < L.bucketStart[b + 1]
  }

  /** The codes of row `r`, read back from bucket `b`'s dim-major block. */
  function RowCodes(L: Layout, b: int, r: int): Codes
    requires Shape(L) && RowIn(L, b, r)
  {
    var lo := L.bucketStart[b];
    Strided(L.data, lo * DIMS + (r - lo), L.bucketStart[b + 1] - lo)
  }

  lemma RowRead(L: Layout, b: int, r: int, d: int)
    requires Shape(L) && RowIn(L, b, r) && 0 <= d < DIMS
    ensures var lo := L.bucketStart[b]; var rows := L.bucketStart[b + 1] - lo;
      && 0 <= lo * DIMS + d * rows + (r - lo) < |L.data|
      && RowCodes(L, b, r)[d] == L.data[lo * DIMS + d * rows + (r - lo)]
  {
    BucketBounds(L, b);
    var lo := L.bucketStart[b];
    StridedAt(L.data, lo * DIMS + (r - lo), L.bucketStart[b + 1] - lo, d);
  }

  /** The bucket a row lies in: the first whose end is beyond it. */
  function BucketOfRow(L: Layout, r: int): (b: int)
    requires Shape(L) && 0 <= r < L.n
    ensures RowIn(L, b, r)
  {
    BucketFrom(L, r, 0)
  }

  function BucketFrom(L: Layout, r: int, b: nat): (c: int)
    requires Shape(L) && b < BUCKETS && L.bucketStart[b] <= r < L.n
    ensures b <= c && RowIn(L, c, r)
    decreases BUCKETS - b
  {
    if r < L.bucketStart[b + 1] || b == BUCKETS - 1 then b else BucketFrom(L, r, b + 1)
  }

  lemma BucketUnique(L: Layout, b: int, c: int, r: int)
    requires Shape(L) && RowIn(L, b, r) && RowIn(L, c, r)
    ensures b == c
  {
  }

  lemma RowInRange(L: Layout, b: int, r: int)
    requires Shape(L) && RowIn(L, b, r)
    ensures 0 <= r < L.n && BucketOfRow(L, r) == b
  {
    assert L.bucketStart[0] <= L.bucketStart[b] && L.bucketStart[b + 1] <= L.bucketStart[BUCKETS];
    BucketUnique(L, b, BucketOfRow(L, r), r);
  }

  function RowAt(L: Layout, r: int): Codes
    requires Shape(L) && 0 <= r < L.n
  {
    RowCodes(L, BucketOfRow(L, r), r)
  }

  function IsFraud(L: Layout, r: int): bool
    requires Shape(L) && 0 <= r < L.n
  {
    BitAt(L.fraud[r / 64], r % 64)
  }

  function CentroidCodes(L: Layout, b: int, c: int): Codes
    requires Shape(L) && 0 <= b < BUCKETS && 0 <= c < L.nlist
  {
    CellBase(b, L.nlist);
    Strided(L.centroidsI16, b * L.nlist * DIMS + c, L.nlist)
  }

  /** Everything the search relies on: the shape, and rows that belong where they are stored. */
  ghost predicate ValidLayout(L: Layout) {
    && Shape(L)
    && forall b, r | RowIn(L, b, r) :: InBucket(RowCodes(L, b, r), b)
  }

  /** The cells of bucket `b` are sub-ranges of the bucket. */
  lemma CellInBucket(L: Layout, b: int, cell: int)
    requires Shape(L) && 0 <= b < BUCKETS && b * L.nlist <= cell < b * L.nlist + L.nlist
    ensures 0 <= cell < BUCKETS * L.nlist
    ensures L.bucketStart[b] <= L.cellStart[cell] <= L.cellStart[cell + 1] <= L.bucketStart[b + 1]
  {
    CellBase(b, L.nlist);
    assert CellAt(L, b) == L.bucketStart[b] && CellAt(L, b + 1) == L.bucketStart[b + 1];
  }
}
