/** No row votes twice: everything both tiers feed is, as a multiset, contained in the list of all
  * rows. Also the pieces the exactness theorems reuse: what an uncapped probe feeds, how two tiers
  * of ranks add up, and that probing every rank feeds the whole bucket.
  */
module Tiers {
  import opened Grid
  import opened Ranking
  import opened Layout
  import opened Collectors
  import opened Scan
  import opened ScanFacts

  // --- rows of a list of cells ---

  function Rows(L: Layout, qc: Codes, b: int, cells: seq<Entry<int>>): seq<Entry<int>>
    requires Shape(L) && 0 <= b < BUCKETS && CellsOf(L, b, cells)
  {
    if cells == [] then [] else CellRows(L, qc, b, cells[0].tag) + Rows(L, qc, b, cells[1..])
  }

  lemma {:induction false} RowsConcat(L: Layout, qc: Codes, b: int, x: seq<Entry<int>>, y: seq<Entry<int>>)
    requires Shape(L) && 0 <= b < BUCKETS && CellsOf(L, b, x) && CellsOf(L, b, y)
    ensures CellsOf(L, b, x + y)
    ensures Rows(L, qc, b, x + y) == Rows(L, qc, b, x) + Rows(L, qc, b, y)
  {
    hide Shape, CellRows;
    if x == [] {
      assert x + y == y;
    } else {
      RowsConcat(L, qc, b, x[1..], y);
      assert (x + y)[1..] == x[1..] + y;
    }
  }

  lemma RowsSplit(L: Layout, qc: Codes, b: int, cells: seq<Entry<int>>, k: nat)
    requires Shape(L) && 0 <= b < BUCKETS && CellsOf(L, b, cells) && k <= |cells|
    ensures CellsOf(L, b, cells[..k]) && CellsOf(L, b, cells[k..])
    ensures Rows(L, qc, b, cells) == Rows(L, qc, b, cells[..k]) + Rows(L, qc, b, cells[k..])
  {
    hide Shape, Rows;
    RowsConcat(L, qc, b, cells[..k], cells[k..]);
    assert cells == cells[..k] + cells[k..];
  }

  /** Without a cap the probe loop feeds every row of every rank; a cap only cuts the end off. */
  lemma {:induction false} RanksAreRows(L: Layout, qc: Codes, b: int, cells: seq<Entry<int>>, i: nat, scanned: int,
      cap: int)
    requires Shape(L) && 0 <= b < BUCKETS && i <= |cells| && CellsOf(L, b, cells)
    ensures RanksFeed(L, qc, b, cells, i, scanned, cap) <= Rows(L, qc, b, cells[i..])
    ensures cap == 0 ==> RanksFeed(L, qc, b, cells, i, scanned, cap) == Rows(L, qc, b, cells[i..])
    decreases |cells| - i
  {
    hide Shape, CellRows;
    if i < |cells| {
      RanksAreRows(L, qc, b, cells, i + 1, scanned + |CellRows(L, qc, b, cells[i].tag)|, cap);
      assert cells[i..][1..] == cells[i + 1..];
    }
  }

  /** Only which cells are visited matters, not their order. */
  lemma {:induction false} RowsRearranged(L: Layout, qc: Codes, b: int, x: seq<Entry<int>>, y: seq<Entry<int>>)
    requires Shape(L) && 0 <= b < BUCKETS && CellsOf(L, b, x) && CellsOf(L, b, y)
    requires multiset(x) == multiset(y)
    ensures multiset(Rows(L, qc, b, x)) == multiset(Rows(L, qc, b, y))
    decreases |x|
  {
    hide Shape, CellRows;
    SameSize(x, y);
    if x != [] {
      var j := PickFirst(x, y);
      var y' := y[..j] + y[j + 1..];
      RowsRearranged(L, qc, b, x[1..], y');
      RowsConcat(L, qc, b, y[..j], y[j + 1..]);
      RowsSplit(L, qc, b, y, j);
      assert y[j..][0] == y[j] && y[j..][1..] == y[j + 1..];
    }
  }

  /** Cells `c`, `c + 1`, ... of bucket `b`, in storage order. */
  lemma {:induction false} StorageOrderRows(L: Layout, qc: Codes, b: int, c: int)
    requires Shape(L) && 0 <= b < BUCKETS && 0 <= c <= L.nlist
    ensures CellsOf(L, b, CentroidFeed(L, qc, b)[c..])
    ensures 0 <= b * L.nlist + c < |L.cellStart| && |L.bucketStart| == BUCKETS + 1
    ensures L.bucketStart[b] <= L.cellStart[b * L.nlist + c] <= L.bucketStart[b + 1]
    ensures Rows(L, qc, b, CentroidFeed(L, qc, b)[c..])
         == CellFeed(L, qc, b, L.cellStart[b * L.nlist + c], L.bucketStart[b + 1])
    decreases L.nlist - c
  {
    CellBase(b, L.nlist);
    if c == L.nlist {
      assert CellAt(L, b + 1) == L.bucketStart[b + 1];
      BucketBounds(L, b);
    } else {
      hide Shape, CentroidFeed, Rows, CellFeed, CellsOf;
      StorageOrderRows(L, qc, b, c + 1);
      StorageStep(L, qc, b, c);
    }
  }

  lemma RowsHead(L: Layout, qc: Codes, b: int, cells: seq<Entry<int>>, c: nat)
    requires Shape(L) && 0 <= b < BUCKETS && CellsOf(L, b, cells) && c < |cells|
    ensures CellsOf(L, b, cells[c..]) && CellsOf(L, b, cells[c + 1..])
    ensures Rows(L, qc, b, cells[c..]) == CellRows(L, qc, b, cells[c].tag) + Rows(L, qc, b, cells[c + 1..])
  {
    hide Shape, CellRows;
    assert cells[c..][0] == cells[c] && cells[c..][1..] == cells[c + 1..];
  }

  lemma StorageStep(L: Layout, qc: Codes, b: int, c: int)
    requires Shape(L) && 0 <= b < BUCKETS && 0 <= c < L.nlist
    requires var cells := CentroidFeed(L, qc, b);
      && CellsOf(L, b, cells[c + 1..])
      && 0 <= b * L.nlist + c + 1 < |L.cellStart| && |L.bucketStart| == BUCKETS + 1
      && L.bucketStart[b] <= L.cellStart[b * L.nlist + c + 1] <= L.bucketStart[b + 1]
      && Rows(L, qc, b, cells[c + 1..]) == CellFeed(L, qc, b, L.cellStart[b * L.nlist + c + 1], L.bucketStart[b + 1])
    ensures CellsOf(L, b, CentroidFeed(L, qc, b)[c..])
    ensures 0 <= b * L.nlist + c
    ensures L.bucketStart[b] <= L.cellStart[b * L.nlist + c] <= L.bucketStart[b + 1]
    ensures Rows(L, qc, b, CentroidFeed(L, qc, b)[c..])
         == CellFeed(L, qc, b, L.cellStart[b * L.nlist + c], L.bucketStart[b + 1])
  {
    var cells := CentroidFeed(L, qc, b);
    var cell := b * L.nlist + c;
    CellRowsFeed(L, qc, b, cell);
    CellFeedJoin(L, qc, b, L.cellStart[cell], L.cellStart[cell + 1], L.bucketStart[b + 1]);
    hide Shape, CellRows, CellFeed, CentroidCodes, IntDist;
    assert cells[c].tag == cell;
    RowsHead(L, qc, b, cells, c);
  }

  // --- one bucket ---

  /** Every row of bucket `b`, in storage order. */
  function BucketFeed(L: Layout, qc: Codes, b: int): seq<Entry<int>>
    requires Shape(L) && 0 <= b < BUCKETS
  {
    CellFeed(L, qc, b, L.bucketStart[b], L.bucketStart[b + 1])
  }

  /** What an uncapped probe of ranks [lo, hi) feeds. */
  function Full(L: Layout, qc: Codes, b: int, lo: int, hi: int): seq<Entry<int>>
    requires Shape(L) && 0 <= b < BUCKETS
  {
    ProbeFeed(L, qc, b, lo, hi, 0, 0)
  }

  lemma ProbeIsPrefix(L: Layout, qc: Codes, b: int, lo: int, hi: int, scanned: int, cap: int)
    requires Shape(L) && 0 <= b < BUCKETS
    ensures ProbeFeed(L, qc, b, lo, hi, scanned, cap) <= Full(L, qc, b, lo, hi)
    ensures cap == 0 ==> ProbeFeed(L, qc, b, lo, hi, scanned, cap) == Full(L, qc, b, lo, hi)
  {
    Basics(L);
    hide Shape, Ranked, RanksFeed;
    var np := ProbeCount(L.nlist, hi);
    var from := if lo < 0 then 0 else lo;
    if from < np {
      var cells := Ranked(L, qc, b, np);
      RanksAreRows(L, qc, b, cells, from, scanned, cap);
      RanksAreRows(L, qc, b, cells, from, 0, 0);
    }
  }

  lemma FullIsRows(L: Layout, qc: Codes, b: int, lo: int, hi: int)
    requires Shape(L) && 0 <= b < BUCKETS && 0 <= lo
    ensures var np := ProbeCount(L.nlist, hi); var cells := Ranked(L, qc, b, np);
      Full(L, qc, b, lo, hi) == if lo >= np then [] else Rows(L, qc, b, cells[lo..])
  {
    Basics(L);
    hide Shape, Ranked, RanksFeed;
    var np := ProbeCount(L.nlist, hi);
    if lo < np {
      RanksAreRows(L, qc, b, Ranked(L, qc, b, np), lo, 0, 0);
    }
  }

  lemma RankedPrefix(L: Layout, qc: Codes, b: int, j: nat, k: nat)
    requires Shape(L) && 0 <= b < BUCKETS && j <= k <= L.nlist
    ensures Ranked(L, qc, b, j) == Ranked(L, qc, b, k)[..j]
  {
    BestPrefix(j, k, CentroidFeed(L, qc, b));
  }

  /** Integer distance of the query to the centroid of cell `c` of bucket `b`. */
  function CellDist(L: Layout, qc: Codes, b: int, c: int): int
    requires Shape(L) && 0 <= b < BUCKETS && 0 <= c < L.nlist
  {
    IntDist(qc, CentroidCodes(L, b, c))
  }

  function CellEntry(L: Layout, qc: Codes, b: int, c: int): Entry<int>
    requires Shape(L) && 0 <= b < BUCKETS && 0 <= c < L.nlist
  {
    Entry(CellDist(L, qc, b, c) as real, b * L.nlist + c)
  }

  /** The full ranking holds an entry for every cell ... */
  lemma RankOfCell(L: Layout, qc: Codes, b: int, c: int) returns (m: nat)
    requires Shape(L) && 0 <= b < BUCKETS && 0 <= c < L.nlist
    ensures m < L.nlist && Ranked(L, qc, b, L.nlist)[m] == CellEntry(L, qc, b, c)
  {
    hide Shape, IntDist, CentroidCodes, Sort;
    var feed := CentroidFeed(L, qc, b);
    assert feed[c] == CellEntry(L, qc, b, c);
    SortHolds(feed, feed[c]);
    m :| 0 <= m < L.nlist && Sort(feed)[m] == feed[c];
  }

  /** ... and nothing else. */
  lemma CellOfRank(L: Layout, qc: Codes, b: int, m: nat) returns (c: nat)
    requires Shape(L) && 0 <= b < BUCKETS && m < L.nlist
    ensures c < L.nlist && Ranked(L, qc, b, L.nlist)[m] == CellEntry(L, qc, b, c)
  {
    hide Shape, IntDist, CentroidCodes, Sort;
    var feed := CentroidFeed(L, qc, b);
    SortHolds(feed, Sort(feed)[m]);
    c :| 0 <= c < L.nlist && feed[c] == Sort(feed)[m];
  }

  /** The cells of a probe come nearest centroid first, and no other cell of the bucket has a nearer one. */
  lemma NearestCellsFirst(L: Layout, qc: Codes, b: int, np: nat, i: nat, c: nat)
    requires Shape(L) && 0 <= b < BUCKETS && i < np <= L.nlist && c < L.nlist
    ensures var cells := Ranked(L, qc, b, np); var base := b * L.nlist;
      && 0 <= cells[i].tag - base < L.nlist
      && (CellDist(L, qc, b, cells[i].tag - base) <= CellDist(L, qc, b, c)
          || exists j | 0 <= j < i :: cells[j].tag == base + c)
  {
    hide Shape, CellDist, Ranked, Sort;
    RankedPrefix(L, qc, b, np, L.nlist);
    RankedSorted(L, qc, b);
    var all := Ranked(L, qc, b, L.nlist);
    var own := CellOfRank(L, qc, b, i);
    var m := RankOfCell(L, qc, b, c);
    if m < i {
      assert Ranked(L, qc, b, np)[m].tag == b * L.nlist + c;
    } else {
      assert m == i || all[i].key <= all[m].key;
    }
  }

  lemma RankedSorted(L: Layout, qc: Codes, b: int)
    requires Shape(L) && 0 <= b < BUCKETS
    ensures Sorted(Ranked(L, qc, b, L.nlist))
  {
    BestSorted(L.nlist, CentroidFeed(L, qc, b));
  }

  /** The cheap ranks and the escalated ranks are disjoint and add up to a fresh wide probe. */
  lemma FullSplit(L: Layout, qc: Codes, b: int, np: int, hi: int)
    requires Shape(L) && 0 <= b < BUCKETS && 1 <= np <= hi
    ensures Full(L, qc, b, 0, np) + Full(L, qc, b, np, hi) == Full(L, qc, b, 0, hi)
  {
    Basics(L);
    ProbeCounts(L.nlist, np, hi);
    hide Shape, Ranked, Full, Rows, CellsOf, ProbeCount;
    FullIsRows(L, qc, b, 0, np);
    FullIsRows(L, qc, b, np, hi);
    FullIsRows(L, qc, b, 0, hi);
    var p, w := ProbeCount(L.nlist, np), ProbeCount(L.nlist, hi);
    var near, wide := Ranked(L, qc, b, p), Ranked(L, qc, b, w);
    assert near[0..] == near && wide[0..] == wide;
    if np < w {
      RankedPrefix(L, qc, b, p, w);
      RowsSplit(L, qc, b, wide, np);
    }
  }

  lemma ProbeCounts(nlist: int, np: int, hi: int)
    requires 1 <= nlist && 1 <= np <= hi
    ensures ProbeCount(nlist, np) <= ProbeCount(nlist, hi)
    ensures ProbeCount(nlist, np) == if np < ProbeCount(nlist, hi) then np else ProbeCount(nlist, hi)
  {
  }

  /** The ranks of a probe hold distinct rows of the bucket; all ranks hold all of them. */
  lemma FullWithinBucket(L: Layout, qc: Codes, b: int, hi: int)
    requires Shape(L) && 0 <= b < BUCKETS
    ensures multiset(Full(L, qc, b, 0, hi)) <= multiset(BucketFeed(L, qc, b))
    ensures hi >= L.nlist && L.nlist <= MAX_PROBE ==> multiset(Full(L, qc, b, 0, hi)) == multiset(BucketFeed(L, qc, b))
  {
    AllRanksFeedBucket(L, qc, b);
    Basics(L);
    hide Shape, Ranked, Full, BucketFeed, Rows, CellsOf;
    FullIsRows(L, qc, b, 0, hi);
    var np := ProbeCount(L.nlist, hi);
    var cells, all := Ranked(L, qc, b, np), Ranked(L, qc, b, L.nlist);
    RankedPrefix(L, qc, b, np, L.nlist);
    assert cells[0..] == cells;
    RowsSplit(L, qc, b, all, np);
    if np == L.nlist {
      assert all[..np] == all;
    }
  }

  lemma AllRanksFeedBucket(L: Layout, qc: Codes, b: int)
    requires Shape(L) && 0 <= b < BUCKETS
    ensures multiset(Rows(L, qc, b, Ranked(L, qc, b, L.nlist))) == multiset(BucketFeed(L, qc, b))
  {
    var feed := CentroidFeed(L, qc, b);
    var all := Ranked(L, qc, b, L.nlist);
    SortKeeps(feed);
    assert all == Sort(feed);
    StorageOrderRows(L, qc, b, 0);
    assert feed[0..] == feed;
    RowsRearranged(L, qc, b, all, feed);
    assert CellAt(L, b) == L.bucketStart[b];
  }

  // --- a scan without a cap ---

  /** One bucket of an uncapped scan. */
  function Fed(L: Layout, q: Vec, b: int, lo: int, hi: int, fed: seq<Entry<int>>): seq<Entry<int>>
    requires Shape(L) && 0 <= b < BUCKETS
  {
    if b == BucketOf(q) || Pruned(q, b, fed) then fed else fed + Full(L, QuantizeVec(q), b, lo, hi)
  }

  /** The buckets from `b` on, in order, each skipped when it is the query's own or pruned. */
  function FedFrom(L: Layout, q: Vec, b: nat, lo: int, hi: int, fed: seq<Entry<int>>): seq<Entry<int>>
    requires Shape(L) && b <= BUCKETS
    decreases BUCKETS - b
  {
    if b == BUCKETS then fed else FedFrom(L, q, b + 1, lo, hi, Fed(L, q, b, lo, hi, fed))
  }

  lemma ScanOne(L: Layout, q: Vec, b: nat, lo: int, hi: int, fed: seq<Entry<int>>, scanned: int) returns (s: int)
    requires Shape(L) && b < BUCKETS
    ensures ScanFrom(L, q, b, lo, hi, fed, scanned, 0) == ScanFrom(L, q, b + 1, lo, hi, Fed(L, q, b, lo, hi, fed), s, 0)
  {
    hide Shape, Full, ProbeFeed, BucketOf, QuantizeVec, Pruned;
    ProbeIsPrefix(L, QuantizeVec(q), b, lo, hi, scanned, 0);
    s := if b == BucketOf(q) || Pruned(q, b, fed) then scanned else scanned + |Full(L, QuantizeVec(q), b, lo, hi)|;
  }

  lemma {:induction false} ScanIsFed(L: Layout, q: Vec, b: nat, lo: int, hi: int, fed: seq<Entry<int>>, scanned: int)
    requires Shape(L) && b <= BUCKETS
    ensures ScanFrom(L, q, b, lo, hi, fed, scanned, 0) == FedFrom(L, q, b, lo, hi, fed)
    decreases BUCKETS - b
  {
    if b == BUCKETS {
      ScanEnd(L, q, lo, hi, fed, scanned, 0);
    } else {
      hide Shape, Fed, ScanFrom;
      var s := ScanOne(L, q, b, lo, hi, fed, scanned);
      ScanIsFed(L, q, b + 1, lo, hi, Fed(L, q, b, lo, hi, fed), s);
    }
  }

  // --- all rows ---

  function AllFeed(L: Layout, qc: Codes): (f: seq<Entry<int>>)
    requires Shape(L)
    ensures |f| == L.n
    ensures forall r | 0 <= r < L.n :: f[r] == AnyEntry(L, qc, r) && f[r].tag == r
  {
    seq(L.n, r requires 0 <= r < L.n => AnyEntry(L, qc, r))
  }

  function BucketSum(L: Layout, qc: Codes, k: nat): multiset<Entry<int>>
    requires Shape(L) && k <= BUCKETS
  {
    if k == 0 then multiset{} else BucketSum(L, qc, k - 1) + multiset(BucketFeed(L, qc, k - 1))
  }

  lemma {:induction false} BucketSumIsPrefix(L: Layout, qc: Codes, k: nat)
    requires Shape(L) && k <= BUCKETS
    ensures |L.bucketStart| == BUCKETS + 1 && 0 <= L.bucketStart[k] <= L.n
    ensures BucketSum(L, qc, k) == multiset(AllFeed(L, qc)[..L.bucketStart[k]])
  {
    if k == 0 {
      Basics(L);
      BucketBounds(L, 0);
    } else {
      BucketSumIsPrefix(L, qc, k - 1);
      BucketBounds(L, k - 1);
      AllFeedSlice(L, qc, k - 1);
      hide Shape, AllFeed, BucketFeed;
      TakeMore(AllFeed(L, qc), L.bucketStart[k - 1], L.bucketStart[k]);
    }
  }

  lemma TakeMore<A>(s: seq<A>, lo: nat, hi: nat)
    requires lo <= hi <= |s|
    ensures multiset(s[..hi]) == multiset(s[..lo]) + multiset(s[lo..hi])
  {
    assert s[..hi] == s[..lo] + s[lo..hi];
  }

  lemma AllFeedAt(L: Layout, qc: Codes, b: int, r: int)
    requires Shape(L) && RowIn(L, b, r)
    ensures 0 <= r < L.n && 0 <= r - L.bucketStart[b] < |BucketFeed(L, qc, b)|
    ensures BucketFeed(L, qc, b)[r - L.bucketStart[b]] == AllFeed(L, qc)[r]
  {
    RowInRange(L, b, r);
    hide Shape, RowEntry;
    assert AllFeed(L, qc)[r] == AnyEntry(L, qc, r);
  }

  lemma AllFeedSlice(L: Layout, qc: Codes, b: int)
    requires Shape(L) && 0 <= b < BUCKETS
    ensures |L.bucketStart| == BUCKETS + 1 && 0 <= L.bucketStart[b] <= L.bucketStart[b + 1] <= L.n
    ensures BucketFeed(L, qc, b) == AllFeed(L, qc)[L.bucketStart[b]..L.bucketStart[b + 1]]
  {
    BucketBounds(L, b);
    var part, all := BucketFeed(L, qc, b), AllFeed(L, qc);
    var lo, hi := L.bucketStart[b], L.bucketStart[b + 1];
    hide Shape, AllFeed, BucketFeed, RowEntry, AnyEntry;
    forall i | 0 <= i < hi - lo
      ensures part[i] == all[lo..hi][i]
    {
      AllFeedAt(L, qc, b, lo + i);
    }
    assert |part| == hi - lo by { BucketFeedSize(L, qc, b); }
  }

  lemma BucketFeedSize(L: Layout, qc: Codes, b: int)
    requires Shape(L) && 0 <= b < BUCKETS
    ensures |BucketFeed(L, qc, b)| == L.bucketStart[b + 1] - L.bucketStart[b]
  {
  }

  lemma BucketsHoldAllRows(L: Layout, qc: Codes)
    requires Shape(L)
    ensures BucketSum(L, qc, BUCKETS) == multiset(AllFeed(L, qc))
  {
    BucketSumIsPrefix(L, qc, BUCKETS);
    assert AllFeed(L, qc)[..L.n] == AllFeed(L, qc);
  }

  // --- the budget of both tiers ---

  /** What ranks [0, upto) of a bucket may contribute. */
  function Part(L: Layout, qc: Codes, b: int, upto: int): multiset<Entry<int>>
    requires Shape(L) && 0 <= b < BUCKETS
  {
    if upto <= 0 then multiset{} else multiset(Full(L, qc, b, 0, upto))
  }

  predicate Visited(b0: int, next: int, b: int) {
    b == b0 || b < next
  }

  /** Buckets below `k`: ranks [0, hi) where this tier has been, [0, lo) where it has not. */
  function Budget(L: Layout, qc: Codes, b0: int, next: int, lo: int, hi: int, k: nat): multiset<Entry<int>>
    requires Shape(L) && k <= BUCKETS
  {
    if k == 0 then multiset{}
    else Budget(L, qc, b0, next, lo, hi, k - 1) + Part(L, qc, k - 1, if Visited(b0, next, k - 1) then hi else lo)
  }

  lemma PartGrows(L: Layout, qc: Codes, b: int, lo: int, hi: int)
    requires Shape(L) && 0 <= b < BUCKETS && 0 <= lo < hi
    ensures Part(L, qc, b, hi) == Part(L, qc, b, lo) + multiset(Full(L, qc, b, lo, hi))
    ensures Part(L, qc, b, hi) <= multiset(BucketFeed(L, qc, b))
  {
    hide Shape, Full, BucketFeed;
    FullWithinBucket(L, qc, b, hi);
    if lo >= 1 {
      FullSplit(L, qc, b, lo, hi);
    }
  }

  lemma Regroup<A>(x: multiset<A>, y: multiset<A>, z: multiset<A>)
    ensures x + (y + z) == (x + y) + z
    ensures (x + z) + y == (x + y) + z
  {
  }

  /** Moving on to bucket `b` buys exactly the rows of its ranks [lo, hi). */
  lemma {:induction false} BudgetStep(L: Layout, qc: Codes, b0: int, b: nat, lo: int, hi: int, k: nat)
    requires Shape(L) && k <= BUCKETS && b < BUCKETS && b != b0 && 0 <= lo < hi
    ensures Budget(L, qc, b0, b + 1, lo, hi, k) ==
      Budget(L, qc, b0, b, lo, hi, k) + if b < k then multiset(Full(L, qc, b, lo, hi)) else multiset{}
  {
    hide Shape, Full, Part;
    if k > 0 {
      BudgetStep(L, qc, b0, b, lo, hi, k - 1);
      var past, bought := Budget(L, qc, b0, b, lo, hi, k - 1), multiset(Full(L, qc, b, lo, hi));
      if b == k - 1 {
        PartGrows(L, qc, b, lo, hi);
        Regroup(past, Part(L, qc, b, lo), bought);
      } else {
        assert Visited(b0, b + 1, k - 1) == Visited(b0, b, k - 1);
        Regroup(past, Part(L, qc, k - 1, if Visited(b0, b, k - 1) then hi else lo), bought);
      }
    }
  }

  /** The home bucket comes first. */
  lemma {:induction false} BudgetHome(L: Layout, qc: Codes, b0: nat, lo: int, hi: int, k: nat)
    requires Shape(L) && k <= BUCKETS && b0 < BUCKETS && 0 <= lo < hi
    ensures Budget(L, qc, b0, 0, lo, hi, k) ==
      Budget(L, qc, b0, 0, lo, lo, k) + if b0 < k then multiset(Full(L, qc, b0, lo, hi)) else multiset{}
  {
    hide Shape, Full, Part;
    if k > 0 {
      BudgetHome(L, qc, b0, lo, hi, k - 1);
      var past, bought := Budget(L, qc, b0, 0, lo, lo, k - 1), multiset(Full(L, qc, b0, lo, hi));
      if b0 == k - 1 {
        PartGrows(L, qc, b0, lo, hi);
      }
      Regroup(past, Part(L, qc, k - 1, lo), bought);
    }
  }

  lemma {:induction false} BudgetWithinBuckets(L: Layout, qc: Codes, b0: int, next: int, lo: int, hi: int, k: nat)
    requires Shape(L) && k <= BUCKETS && 0 <= lo < hi
    ensures Budget(L, qc, b0, next, lo, hi, k) <= BucketSum(L, qc, k)
    ensures Budget(L, qc, b0, next, lo, hi, k) <= Budget(L, qc, b0, BUCKETS, lo, hi, k)
  {
    hide Shape, Full, Part, BucketFeed;
    if k > 0 {
      BudgetWithinBuckets(L, qc, b0, next, lo, hi, k - 1);
      PartGrows(L, qc, k - 1, lo, hi);
    }
  }

  /** A tier that starts where another left off: every bucket below the old `hi` counts as visited. */
  lemma {:induction false} BudgetHandOver(L: Layout, qc: Codes, b0: int, lo: int, hi: int, k: nat)
    requires Shape(L) && k <= BUCKETS
    ensures Budget(L, qc, b0, BUCKETS, lo, hi, k) == Budget(L, qc, b0, 0, hi, hi, k)
  {
    hide Shape, Full, Part;
    if k > 0 {
      BudgetHandOver(L, qc, b0, lo, hi, k - 1);
    }
  }

  lemma {:induction false} BudgetEmpty(L: Layout, qc: Codes, b0: int, k: nat)
    requires Shape(L) && k <= BUCKETS
    ensures Budget(L, qc, b0, 0, 0, 0, k) == multiset{}
  {
    if k > 0 {
      BudgetEmpty(L, qc, b0, k - 1);
    }
  }

  ghost predicate Within(L: Layout, qc: Codes, b0: int, next: int, lo: int, hi: int, fed: seq<Entry<int>>)
    requires Shape(L)
  {
    multiset(fed) <= Budget(L, qc, b0, next, lo, hi, BUCKETS)
  }

  /** The loop of scanRange never spends more than its budget, whatever it prunes and wherever the
    * cap stops it. */
  lemma {:induction false} ScanFromWithinBudget(
      L: Layout, q: Vec, b: nat, lo: int, hi: int, fed: seq<Entry<int>>, scanned: int, cap: int)
    requires Shape(L) && b <= BUCKETS && 0 <= lo < hi
    requires Within(L, QuantizeVec(q), BucketOf(q), b, lo, hi, fed)
    ensures Within(L, QuantizeVec(q), BucketOf(q), BUCKETS, lo, hi, ScanFrom(L, q, b, lo, hi, fed, scanned, cap))
    decreases BUCKETS - b
  {
    hide Shape, ProbeFeed, Within, BucketPenalty, WorstOf, QuantizeVec, BucketOf, ScanFrom;
    var qc, b0 := QuantizeVec(q), BucketOf(q);
    if b == BUCKETS {
      ScanEnd(L, q, lo, hi, fed, scanned, cap);
    } else {
      ScanStep(L, q, b, lo, hi, fed, scanned, cap);
      WithinAdvances(L, qc, b0, b, lo, hi, fed);
      if b == b0 {
        ScanFromWithinBudget(L, q, b + 1, lo, hi, fed, scanned, cap);
      } else if cap > 0 && scanned >= cap {
      } else if |fed| >= CAND_K && BucketPenalty(q, b) * 1e8 >= WorstOf(fed) + 1e5 {
        ScanFromWithinBudget(L, q, b + 1, lo, hi, fed, scanned, cap);
      } else {
        var f := ProbeFeed(L, qc, b, lo, hi, scanned, cap);
        WithinProbe(L, qc, b0, b, lo, hi, fed, scanned, cap);
        ScanFromWithinBudget(L, q, b + 1, lo, hi, fed + f, scanned + |f|, cap);
      }
    }
  }

  lemma WithinAdvances(L: Layout, qc: Codes, b0: int, b: nat, lo: int, hi: int, fed: seq<Entry<int>>)
    requires Shape(L) && 0 <= b0 < BUCKETS && b < BUCKETS && 0 <= lo < hi
    requires Within(L, qc, b0, b, lo, hi, fed)
    ensures Within(L, qc, b0, b + 1, lo, hi, fed) && Within(L, qc, b0, BUCKETS, lo, hi, fed)
  {
    hide Shape, Full, Budget;
    if b == b0 {
      BudgetSkipsHome(L, qc, b, lo, hi, BUCKETS);
    } else {
      BudgetStep(L, qc, b0, b, lo, hi, BUCKETS);
    }
    BudgetWithinBuckets(L, qc, b0, b, lo, hi, BUCKETS);
  }

  lemma WithinProbe(L: Layout, qc: Codes, b0: int, b: nat, lo: int, hi: int, fed: seq<Entry<int>>, scanned: int,
      cap: int)
    requires Shape(L) && b < BUCKETS && b != b0 && 0 <= lo < hi
    requires Within(L, qc, b0, b, lo, hi, fed)
    ensures Within(L, qc, b0, b + 1, lo, hi, fed + ProbeFeed(L, qc, b, lo, hi, scanned, cap))
  {
    hide Shape, ProbeFeed, Full, Budget;
    ProbeIsPrefix(L, qc, b, lo, hi, scanned, cap);
    PrefixWithin(fed, ProbeFeed(L, qc, b, lo, hi, scanned, cap), Full(L, qc, b, lo, hi),
                 Budget(L, qc, b0, b, lo, hi, BUCKETS));
    BudgetStep(L, qc, b0, b, lo, hi, BUCKETS);
  }

  lemma {:induction false} BudgetSkipsHome(L: Layout, qc: Codes, b0: nat, lo: int, hi: int, k: nat)
    requires Shape(L) && k <= BUCKETS
    ensures Budget(L, qc, b0, b0 + 1, lo, hi, k) == Budget(L, qc, b0, b0, lo, hi, k)
  {
    hide Shape, Full, Part;
    if k > 0 {
      BudgetSkipsHome(L, qc, b0, lo, hi, k - 1);
    }
  }

  lemma PrefixWithin<A>(fed: seq<A>, x: seq<A>, y: seq<A>, budget: multiset<A>)
    requires multiset(fed) <= budget && x <= y
    ensures multiset(fed + x) <= budget + multiset(y)
  {
    assert y == x + y[|x|..];
  }

  lemma ScanWithinBudget(L: Layout, q: Vec, lo: int, hi: int, fed: seq<Entry<int>>, scanned: int, cap: int)
    requires Shape(L) && 0 <= lo < hi
    requires Within(L, QuantizeVec(q), BucketOf(q), 0, lo, lo, fed)
    ensures Within(L, QuantizeVec(q), BucketOf(q), BUCKETS, lo, hi, ScanRange(L, q, lo, hi, fed, scanned, cap))
  {
    hide Shape, ProbeFeed, Full, Budget, QuantizeVec, BucketOf, ScanFrom;
    var qc, b0 := QuantizeVec(q), BucketOf(q);
    var f := ProbeFeed(L, qc, b0, lo, hi, scanned, cap);
    ProbeIsPrefix(L, qc, b0, lo, hi, scanned, cap);
    PrefixWithin(fed, f, Full(L, qc, b0, lo, hi), Budget(L, qc, b0, 0, lo, lo, BUCKETS));
    BudgetHome(L, qc, b0, lo, hi, BUCKETS);
    ScanFromWithinBudget(L, q, 0, lo, hi, fed + f, scanned + |f|, cap);
  }

  // --- the theorem ---

  lemma {:induction false} DistinctTags(s: seq<Entry<int>>, e: Entry<int>)
    requires forall i, j | 0 <= i < j < |s| :: s[i].tag != s[j].tag
    ensures multiset(s)[e] <= 1
  {
    if s != [] {
      DropLast(s);
      DistinctTags(s[..|s| - 1], e);
      if s[|s| - 1] == e {
        assert e !in s[..|s| - 1];
      }
    }
  }

  lemma {:induction false} TwiceCounts<A>(s: seq<A>, i: nat, j: nat)
    requires i < j < |s| && s[i] == s[j]
    ensures multiset(s)[s[i]] >= 2
  {
    assert s == s[..j] + s[j..];
    assert s[i] in s[..j] && s[j] in s[j..];
  }

  lemma WithinAllRows(L: Layout, qc: Codes, fed: seq<Entry<int>>)
    requires Shape(L) && multiset(fed) <= multiset(AllFeed(L, qc))
    ensures |fed| <= L.n
    ensures forall i, j | 0 <= i < j < |fed| :: fed[i].tag != fed[j].tag
    ensures forall e | e in fed :: GenuineEntry(L, qc, e)
  {
    hide Shape, AnyEntry;
    var all := AllFeed(L, qc);
    SubsetSize(fed, all);
    forall e | e in fed
      ensures GenuineEntry(L, qc, e) && e == all[e.tag]
    {
      assert e in multiset(fed);
      assert e in all;
    }
    forall i, j | 0 <= i < j < |fed|
      ensures fed[i].tag != fed[j].tag
    {
      if fed[i].tag == fed[j].tag {
        assert fed[i] in fed && fed[j] in fed;
        TwiceCounts(fed, i, j);
        DistinctTags(all, fed[i]);
      }
    }
  }

  lemma SubsetSize<A>(x: seq<A>, y: seq<A>)
    requires multiset(x) <= multiset(y)
    ensures |x| <= |y|
  {
    assert |multiset(x)| == |x| && |multiset(y)| == |y|;
    assert multiset(y) == multiset(x) + (multiset(y) - multiset(x));
  }

  /** For every query, every admissible tuning and every cap, one search feeds no row twice across
    * both tiers, so the rows scanned in both tiers together never exceed the rows stored. */
  lemma NoRowTwice(L: Layout, kn: Knobs, q: Vec)
    requires Shape(L) && ValidKnobs(kn, L.nlist)
    ensures RowTags(L, Best(CAND_K, CheapFeed(L, kn, q)))
    ensures multiset(SearchFeed(L, kn, q)) <= multiset(AllFeed(L, QuantizeVec(q)))
    ensures |SearchFeed(L, kn, q)| <= L.n
    ensures forall i, j | 0 <= i < j < |SearchFeed(L, kn, q)| ::
      SearchFeed(L, kn, q)[i].tag != SearchFeed(L, kn, q)[j].tag
  {
    CheapFacts(L, kn, q);
    hide Shape, ScanRange, Budget, QuantizeVec, BucketOf, AllFeed;
    var qc, b0 := QuantizeVec(q), BucketOf(q);
    BudgetEmpty(L, qc, b0, BUCKETS);
    var cheap := CheapFeed(L, kn, q);
    ScanWithinBudget(L, q, 0, kn.nprobe, [], 0, kn.maxScan);
    BudgetWithinBuckets(L, qc, b0, BUCKETS, 0, kn.nprobe, BUCKETS);
    if Escalates(L, kn, q) {
      var hi := HighProbe(kn, FraudCount(Refined(L, q, cheap)));
      BudgetHandOver(L, qc, b0, 0, kn.nprobe, BUCKETS);
      ScanWithinBudget(L, q, kn.nprobe, hi, cheap, 0, 0);
      BudgetWithinBuckets(L, qc, b0, BUCKETS, kn.nprobe, hi, BUCKETS);
    }
    BucketsHoldAllRows(L, qc);
    WithinAllRows(L, qc, SearchFeed(L, kn, q));
  }
}
