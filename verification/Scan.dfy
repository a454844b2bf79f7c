/** What the two-tier search feeds to its collector, as functions over the stored layout.
  * The imperative search in module Search is proved to follow these functions; the theorems about
  * the search are theorems about them.
  */
module Scan {
  import opened Grid
  import opened Ranking
  import opened Layout
  import opened Collectors

  /** Runtime knobs of an index. */
  datatype Knobs = Knobs(
    nprobe: int,
    maxScan: int,
    nprobeHigh: int,
    highByCount: seq<int>,
    triggerRadius: real,
    triggerMargin: real
  )

  /** What the constructors establish and every setter keeps. */
  predicate ValidKnobs(kn: Knobs, nlist: int) {
    && 1 <= kn.nprobe <= nlist
    && 0 <= kn.maxScan
    && 0 <= kn.nprobeHigh <= nlist && kn.nprobeHigh <= MAX_PROBE
    && |kn.highByCount| == K + 1
    && (forall i | 0 <= i <= K :: 0 <= kn.highByCount[i] <= nlist && kn.highByCount[i] <= MAX_PROBE)
  }

  // --- one cell ---

  function RowEntry(L: Layout, qc: Codes, b: int, r: int): (e: Entry<int>)
    requires Shape(L) && RowIn(L, b, r)
  {
    Entry(IntDist(qc, RowCodes(L, b, r)) as real, r)
  }

  function CellFeed(L: Layout, qc: Codes, b: int, lo: int, hi: int): (f: seq<Entry<int>>)
    requires Shape(L) && 0 <= b < BUCKETS && L.bucketStart[b] <= lo <= hi <= L.bucketStart[b + 1]
    ensures |f| == hi - lo
    ensures forall i | 0 <= i < |f| :: f[i] == RowEntry(L, qc, b, lo + i)
  {
    seq(hi - lo, i requires 0 <= i < hi - lo => RowEntry(L, qc, b, lo + i))
  }

  lemma CellFeedJoin(L: Layout, qc: Codes, b: int, lo: int, mid: int, hi: int)
    requires Shape(L) && 0 <= b < BUCKETS && |L.bucketStart| == BUCKETS + 1
    requires L.bucketStart[b] <= lo <= mid <= hi <= L.bucketStart[b + 1]
    ensures CellFeed(L, qc, b, lo, hi) == CellFeed(L, qc, b, lo, mid) + CellFeed(L, qc, b, mid, hi)
  {
    hide Shape, RowEntry;
  }

  lemma ChunksJoin(L: Layout, qc: Codes, b: int, lo: int, mid: int, hi: int, past: seq<Entry<int>>)
    requires Shape(L) && 0 <= b < BUCKETS && |L.bucketStart| == BUCKETS + 1
    requires L.bucketStart[b] <= lo <= mid <= hi <= L.bucketStart[b + 1]
    ensures past + CellFeed(L, qc, b, lo, hi) == past + CellFeed(L, qc, b, lo, mid) + CellFeed(L, qc, b, mid, hi)
  {
    hide Shape, CellFeed;
    CellFeedJoin(L, qc, b, lo, mid, hi);
    Associate(past, CellFeed(L, qc, b, lo, mid), CellFeed(L, qc, b, mid, hi));
  }

  lemma Associate<A>(x: seq<A>, y: seq<A>, z: seq<A>)
    ensures x + (y + z) == x + y + z
    ensures y == [] ==> x + y == x
  {
  }

  // --- ranking a bucket's cells ---

  function CentroidFeed(L: Layout, qc: Codes, b: int): (f: seq<Entry<int>>)
    requires Shape(L) && 0 <= b < BUCKETS
    ensures |f| == L.nlist
    ensures forall c | 0 <= c < L.nlist ::
      f[c] == Entry(IntDist(qc, CentroidCodes(L, b, c)) as real, b * L.nlist + c)
  {
    seq(L.nlist, c requires 0 <= c < L.nlist =>
      Entry(IntDist(qc, CentroidCodes(L, b, c)) as real, b * L.nlist + c))
  }

  predicate CellsOf(L: Layout, b: int, cells: seq<Entry<int>>) {
    forall i | 0 <= i < |cells| :: b * L.nlist <= cells[i].tag < b * L.nlist + L.nlist
  }

  /** The `np` cells of bucket `b` nearest to the query, nearest first. */
  function Ranked(L: Layout, qc: Codes, b: int, np: nat): (cells: seq<Entry<int>>)
    requires Shape(L) && 0 <= b < BUCKETS
    ensures CellsOf(L, b, cells)
    ensures |cells| == if np <= L.nlist then np else L.nlist
  {
    var feed := CentroidFeed(L, qc, b);
    RankedAreCells(L, qc, b, np);
    Best(np, feed)
  }

  lemma RankedAreCells(L: Layout, qc: Codes, b: int, np: nat)
    requires Shape(L) && 0 <= b < BUCKETS
    ensures CellsOf(L, b, Best(np, CentroidFeed(L, qc, b)))
  {
    var feed := CentroidFeed(L, qc, b);
    var cells := Best(np, feed);
    BestSorted(np, feed);
    forall i | 0 <= i < |cells|
      ensures b * L.nlist <= cells[i].tag < b * L.nlist + L.nlist
    {
      assert cells[i] in multiset(cells);
      assert cells[i] in feed;
    }
  }

  /** How many ranks a probe up to `npHi` selects. */
  function ProbeCount(nlist: int, npHi: int): (np: int)
    requires 1 <= nlist
    ensures 1 <= np <= nlist && np <= 512
    ensures np > 1 ==> np <= npHi
    ensures np < npHi ==> np == nlist || np == 512
  {
    var np := if npHi > nlist then nlist else npHi;
    var np' := if np > MAX_PROBE then MAX_PROBE else np;
    if np' < 1 then 1 else np'
  }

  // --- one bucket ---

  function CellRows(L: Layout, qc: Codes, b: int, cell: int): (f: seq<Entry<int>>)
    requires Shape(L) && 0 <= b < BUCKETS && b * L.nlist <= cell < b * L.nlist + L.nlist
    ensures 0 <= cell < BUCKETS * L.nlist && |f| == L.cellStart[cell + 1] - L.cellStart[cell]
  {
    CellInBucket(L, b, cell);
    CellFeed(L, qc, b, L.cellStart[cell], L.cellStart[cell + 1])
  }

  lemma CellRowsFeed(L: Layout, qc: Codes, b: int, cell: int)
    requires Shape(L) && 0 <= b < BUCKETS && b * L.nlist <= cell < b * L.nlist + L.nlist
    ensures 0 <= cell < |L.cellStart| - 1 && |L.bucketStart| == BUCKETS + 1
    ensures L.bucketStart[b] <= L.cellStart[cell] <= L.cellStart[cell + 1] <= L.bucketStart[b + 1]
    ensures CellRows(L, qc, b, cell) == CellFeed(L, qc, b, L.cellStart[cell], L.cellStart[cell + 1])
  {
    CellInBucket(L, b, cell);
  }

  /** Cells from rank `i` on, stopping after the cell that reaches the cap (0 = no cap). */
  function RanksFeed(L: Layout, qc: Codes, b: int, cells: seq<Entry<int>>, i: nat, scanned: int, cap: int)
    : (f: seq<Entry<int>>)
    requires Shape(L) && 0 <= b < BUCKETS && i <= |cells| && CellsOf(L, b, cells)
    decreases |cells| - i
  {
    if i == |cells| then []
    else
      var rows := CellRows(L, qc, b, cells[i].tag);
      if |rows| > 0 && cap > 0 && scanned + |rows| >= cap then rows
      else rows + RanksFeed(L, qc, b, cells, i + 1, scanned + |rows|, cap)
  }

  /** probeBucketRange: the cells of bucket `b` ranked [npLo, npHi). */
  function ProbeFeed(L: Layout, qc: Codes, b: int, npLo: int, npHi: int, scanned: int, cap: int)
    : (f: seq<Entry<int>>)
    requires Shape(L) && 0 <= b < BUCKETS
  {
    var np := ProbeCount(L.nlist, npHi);
    var lo := if npLo < 0 then 0 else npLo;
    if lo >= np then [] else RanksFeed(L, qc, b, Ranked(L, qc, b, np), lo, scanned, cap)
  }

  // --- all buckets ---

  /** The cross-bucket prune: the collector is full and the bucket's penalty reaches its worst. */
  predicate Pruned(q: Vec, b: int, fed: seq<Entry<int>>) {
    |fed| >= CAND_K && BucketPenalty(q, b) * 1e8 >= WorstOf(fed) + 1e5
  }

  /** Buckets `b`, `b + 1`, ... other than the query's own; the result is everything fed so far. */
  function ScanFrom(L: Layout, q: Vec, b: nat, npLo: int, npHi: int, fed: seq<Entry<int>>, scanned: int, cap: int)
    : (f: seq<Entry<int>>)
    requires Shape(L) && b <= BUCKETS
    ensures fed <= f
    decreases BUCKETS - b
  {
    if b == BUCKETS then fed
    else if b == BucketOf(q) then ScanFrom(L, q, b + 1, npLo, npHi, fed, scanned, cap)
    else if cap > 0 && scanned >= cap then fed
    else if Pruned(q, b, fed) then ScanFrom(L, q, b + 1, npLo, npHi, fed, scanned, cap)
    else
      var f := ProbeFeed(L, QuantizeVec(q), b, npLo, npHi, scanned, cap);
      ScanFrom(L, q, b + 1, npLo, npHi, fed + f, scanned + |f|, cap)
  }

  /** scanRange: the query's own bucket first, then the others in order. */
  function ScanRange(L: Layout, q: Vec, npLo: int, npHi: int, fed: seq<Entry<int>>, scanned: int, cap: int)
    : (f: seq<Entry<int>>)
    requires Shape(L)
    ensures fed <= f
  {
    var f := ProbeFeed(L, QuantizeVec(q), BucketOf(q), npLo, npHi, scanned, cap);
    ScanFrom(L, q, 0, npLo, npHi, fed + f, scanned + |f|, cap)
  }

  lemma ScanStep(L: Layout, q: Vec, b: nat, npLo: int, npHi: int, fed: seq<Entry<int>>, scanned: int, cap: int)
    requires Shape(L) && b < BUCKETS
    ensures ScanFrom(L, q, b, npLo, npHi, fed, scanned, cap) ==
      if b == BucketOf(q) then ScanFrom(L, q, b + 1, npLo, npHi, fed, scanned, cap)
      else if cap > 0 && scanned >= cap then fed
      else if |fed| >= CAND_K && BucketPenalty(q, b) * 1e8 >= WorstOf(fed) + 1e5 then
        ScanFrom(L, q, b + 1, npLo, npHi, fed, scanned, cap)
      else
        var f := ProbeFeed(L, QuantizeVec(q), b, npLo, npHi, scanned, cap);
        ScanFrom(L, q, b + 1, npLo, npHi, fed + f, scanned + |f|, cap)
  {
    hide Shape, ProbeFeed, BucketPenalty, QuantizeVec, BucketOf, WorstOf;
  }

  lemma ScanEnd(L: Layout, q: Vec, npLo: int, npHi: int, fed: seq<Entry<int>>, scanned: int, cap: int)
    requires Shape(L)
    ensures ScanFrom(L, q, BUCKETS, npLo, npHi, fed, scanned, cap) == fed
  {
    hide Shape;
  }

  // --- refine and vote ---

  /** The exact distance and label of row `r`. */
  function ExactEntry(L: Layout, q: Vec, r: int): Entry<bool>
    requires Shape(L) && 0 <= r < L.n
  {
    Entry(Dist2(q, RowAt(L, r)), IsFraud(L, r))
  }

  predicate RowTags(L: Layout, fed: seq<Entry<int>>) {
    forall i | 0 <= i < |fed| :: 0 <= fed[i].tag < L.n
  }

  /** What refine feeds to the five nearest: the collected rows, in collector order. */
  function RefineFeed(L: Layout, q: Vec, kept: seq<Entry<int>>): (f: seq<Entry<bool>>)
    requires Shape(L) && RowTags(L, kept)
    ensures |f| == |kept|
    ensures forall i | 0 <= i < |f| :: f[i] == ExactEntry(L, q, kept[i].tag)
  {
    seq(|kept|, i requires 0 <= i < |kept| => ExactEntry(L, q, kept[i].tag))
  }

  /** BruteDebug's feed: every row. */
  function BruteFeed(L: Layout, q: Vec): (f: seq<Entry<bool>>)
    requires Shape(L)
    ensures |f| == L.n
    ensures forall r | 0 <= r < L.n :: f[r] == ExactEntry(L, q, r)
  {
    seq(L.n, r requires 0 <= r < L.n => ExactEntry(L, q, r))
  }

  function Brute(L: Layout, q: Vec): seq<Entry<bool>>
    requires Shape(L)
  {
    Best(K, Visible(BruteFeed(L, q)))
  }

  function Refined(L: Layout, q: Vec, fed: seq<Entry<int>>): (nearest: seq<Entry<bool>>)
    requires Shape(L) && RowTags(L, Best(CAND_K, fed))
    ensures |nearest| <= K
  {
    Best(K, Visible(RefineFeed(L, q, Best(CAND_K, fed))))
  }

  /** The sixth nearest is strictly farther than the fifth. */
  predicate GapAfterFive(feed: seq<Entry<bool>>) {
    |feed| > K && Sort(feed)[K - 1].key < Sort(feed)[K].key
  }

  function HighProbe(kn: Knobs, count: int): int
    requires |kn.highByCount| == K + 1
  {
    if 0 <= count <= K && kn.highByCount[count] > 0 then kn.highByCount[count] else kn.nprobeHigh
  }

  /** A well-formed query is at most 56 away from everything. */
  lemma WellFormedDistance(q: Vec, c: Codes)
    requires WellFormed(q)
    ensures Dist2(q, c) <= 56.0
  {
    forall i | 0 <= i < DIMS
      ensures Terms(q, c)[i] <= 4.0
    {
      TermAtMostFour(q, c, i);
    }
    SumBounded(Terms(q, c), DIMS, 4.0);
  }

  /** So no row is too far to be seen. */
  lemma WellFormedSeesAll(L: Layout, q: Vec)
    requires Shape(L) && WellFormed(q)
    ensures Brute(L, q) == Best(K, BruteFeed(L, q))
    ensures Visible(BruteFeed(L, q)) == BruteFeed(L, q)
    ensures forall kept: seq<Entry<int>> | RowTags(L, kept) :: Visible(RefineFeed(L, q, kept)) == RefineFeed(L, q, kept)
  {
    hide Shape, Dist2, RowAt;
    forall r | 0 <= r < L.n
      ensures ExactEntry(L, q, r).key < MAX_FLOAT
    {
      WellFormedDistance(q, RowAt(L, r));
    }
    AllVisible(BruteFeed(L, q));
    forall kept: seq<Entry<int>> | RowTags(L, kept)
      ensures Visible(RefineFeed(L, q, kept)) == RefineFeed(L, q, kept)
    {
      AllVisible(RefineFeed(L, q, kept));
    }
  }

  lemma TermAtMostFour(q: Vec, c: Codes, i: int)
    requires WellFormed(q) && 0 <= i < DIMS
    ensures Term(q, c, i) <= 4.0
  {
    var x := q[i] - Dequant(c[i]);
    assert -1.0 <= Dequant(c[i]) <= 1.0;
    assert -2.0 <= x <= 2.0;
    ProductNonNegative(2.0 - x, 2.0 + x);
    assert 4.0 - x * x == (2.0 - x) * (2.0 + x);
  }

  lemma ProductNonNegative(x: real, y: real)
    requires x >= 0.0 && y >= 0.0
    ensures x * y >= 0.0
  {
  }

  lemma {:induction false} SumBounded(s: seq<real>, k: nat, m: real)
    requires k <= |s| && forall i | 0 <= i < |s| :: s[i] <= m
    ensures SumTo(s, k) <= m * k as real
  {
    if k > 0 {
      SumBounded(s, k - 1, m);
    }
  }

  /** Distance of the fifth nearest, or MaxFloat64 while there are fewer. */
  function Radius(nearest: seq<Entry<bool>>): real {
    if |nearest| >= K then nearest[K - 1].key else MAX_FLOAT
  }

  predicate ShouldEscalate(kn: Knobs, nearest: seq<Entry<bool>>) {
    if kn.triggerMargin >= 0.0 then
      var d := FraudCount(nearest) as real - 3.0;
      (if d < 0.0 then -d else d) <= kn.triggerMargin
    else
      Radius(nearest) >= kn.triggerRadius
  }

  /** With a margin, the votes around three are in doubt; without one, an answer whose fifth distance reaches
    * the radius, or that has no fifth. */
  lemma InDoubtWhen(kn: Knobs, nearest: seq<Entry<bool>>)
    requires |nearest| <= 5
    ensures var votes, margin, yes := FraudCount(nearest), kn.triggerMargin, ShouldEscalate(kn, nearest);
      && (0.0 <= margin < 1.0 ==> (yes <==> votes == 3))
      && (1.0 <= margin < 2.0 ==> (yes <==> 2 <= votes <= 4))
      && (2.0 <= margin < 3.0 ==> (yes <==> 1 <= votes <= 5))
      && (margin >= 3.0 ==> yes)
      && (margin < 0.0 && |nearest| < 5 ==> (yes <==> kn.triggerRadius <= MAX_FLOAT))
      && (margin < 0.0 && |nearest| == 5 ==> (yes <==> nearest[4].key >= kn.triggerRadius))
  {
    hide FraudCount;
  }

  // --- the two tiers ---

  function CheapFeed(L: Layout, kn: Knobs, q: Vec): seq<Entry<int>>
    requires Shape(L)
  {
    ScanRange(L, q, 0, kn.nprobe, [], 0, kn.maxScan)
  }

  predicate Escalates(L: Layout, kn: Knobs, q: Vec)
    requires Shape(L) && |kn.highByCount| == K + 1
    requires RowTags(L, Best(CAND_K, CheapFeed(L, kn, q)))
  {
    var nearest := Refined(L, q, CheapFeed(L, kn, q));
    HighProbe(kn, FraudCount(nearest)) > kn.nprobe && ShouldEscalate(kn, nearest)
  }

  /** Everything fed to the collector by one search. */
  function SearchFeed(L: Layout, kn: Knobs, q: Vec): seq<Entry<int>>
    requires Shape(L) && |kn.highByCount| == K + 1
    requires RowTags(L, Best(CAND_K, CheapFeed(L, kn, q)))
  {
    var cheap := CheapFeed(L, kn, q);
    if Escalates(L, kn, q) then
      ScanRange(L, q, kn.nprobe, HighProbe(kn, FraudCount(Refined(L, q, cheap))), cheap, 0, 0)
    else cheap
  }
}
