/** Escalating into the same collector gives what one fresh wide scan gives. The cross-bucket prune
  * compares an exact penalty with an integer distance, which is harmless inside the query's own
  * null flag; the hypothesis that the home bucket settles the collector, or that no row of the other
  * flag is stored, keeps the buckets of the other flag out of both scans, and module EscalationLimits
  * shows that without it the two can differ.
  */
module Escalation {
  import opened Grid
  import opened GridError
  import opened Ranking
  import opened Layout
  import opened Collectors
  import opened Scan
  import opened ScanFacts
  import opened Tiers

  /** After the home bucket's cheap cells the collector is full and its worst distance is below the
    * 2.0 that a null mismatch costs, by the prune's margin. */
  predicate Settled(L: Layout, q: Vec, np: int)
    requires Shape(L)
  {
    SettledFeed(Full(L, QuantizeVec(q), BucketOf(q), 0, np))
  }

  predicate SettledFeed(fed: seq<Entry<int>>) {
    |fed| >= CAND_K && WorstOf(fed) <= 2e8 - 1e5
  }

  /** No row of the other null flag is stored. */
  predicate OneFlag(L: Layout, q: Vec)
    requires Shape(L)
  {
    forall b | 0 <= b < BUCKETS && !SameNull(q, b) :: L.bucketStart[b] == L.bucketStart[b + 1]
  }

  lemma OneFlagEmpty(L: Layout, q: Vec, b: int, lo: int, hi: int, scanned: int)
    requires Shape(L) && OneFlag(L, q) && 0 <= b < BUCKETS && !SameNull(q, b)
    ensures ProbeFeed(L, QuantizeVec(q), b, lo, hi, scanned, 0) == []
  {
    ProbeOfBucket(L, QuantizeVec(q), b, lo, hi, scanned, 0);
    SomeRow(L, QuantizeVec(q), b, ProbeFeed(L, QuantizeVec(q), b, lo, hi, scanned, 0));
  }

  lemma SomeRow(L: Layout, qc: Codes, b: int, f: seq<Entry<int>>)
    requires Shape(L) && 0 <= b < BUCKETS && OfBucket(L, qc, b, f)
    ensures f != [] ==> L.bucketStart[b] < L.bucketStart[b + 1]
  {
    if f != [] {
      assert EntryOf(L, qc, b, f[0]);
    }
  }

  lemma SettledStays(fed: seq<Entry<int>>, more: seq<Entry<int>>)
    requires SettledFeed(fed)
    ensures SettledFeed(fed + more)
  {
    BestNeverRises(CAND_K, fed, more);
  }

  /** Buckets `b`, `b + 1`, ... with the query's null flag, unpruned. */
  function IdealFrom(L: Layout, q: Vec, b: nat, lo: int, hi: int): seq<Entry<int>>
    requires Shape(L) && b <= BUCKETS
    decreases BUCKETS - b
  {
    if b == BUCKETS then []
    else if b == BucketOf(q) || !SameNull(q, b) then IdealFrom(L, q, b + 1, lo, hi)
    else Full(L, QuantizeVec(q), b, lo, hi) + IdealFrom(L, q, b + 1, lo, hi)
  }

  lemma IdealStep(L: Layout, q: Vec, b: nat, lo: int, hi: int)
    requires Shape(L) && b <= BUCKETS
    ensures IdealFrom(L, q, b, lo, hi) ==
      if b == BUCKETS then []
      else if b == BucketOf(q) || !SameNull(q, b) then IdealFrom(L, q, b + 1, lo, hi)
      else Full(L, QuantizeVec(q), b, lo, hi) + IdealFrom(L, q, b + 1, lo, hi)
  {
    hide Shape, Full, BucketOf, SameNull, QuantizeVec;
  }

  function Ideal(L: Layout, q: Vec, lo: int, hi: int): seq<Entry<int>>
    requires Shape(L)
  {
    Full(L, QuantizeVec(q), BucketOf(q), lo, hi) + IdealFrom(L, q, 0, lo, hi)
  }

  // --- a pruned bucket would not have mattered ---

  lemma PrunedRowsTooFar(L: Layout, q: Vec, b: int, lo: int, hi: int, fed: seq<Entry<int>>)
    requires ValidLayout(L) && WellFormed(q) && 0 <= b < BUCKETS && SameNull(q, b) && Pruned(q, b, fed)
    ensures forall e | e in Full(L, QuantizeVec(q), b, lo, hi) :: e.key >= WorstOf(fed)
  {
    var qc := QuantizeVec(q);
    hide Shape, ProbeFeed, BucketPenalty, IntFloor, WorstOf;
    ProbeOfBucket(L, qc, b, lo, hi, 0, 0);
    forall e | e in Full(L, qc, b, lo, hi)
      ensures e.key >= WorstOf(fed)
    {
      assert RowIn(L, b, e.tag);
      IntFloorIsLowerBound(q, RowCodes(L, b, e.tag), b);
    }
  }

  /** Skipping a bucket of the query's own null flag leaves the collector as if it had been fed. */
  lemma PruneInvisible(L: Layout, q: Vec, b: int, lo: int, hi: int, fed: seq<Entry<int>>)
    requires ValidLayout(L) && WellFormed(q) && 0 <= b < BUCKETS && SameNull(q, b) && Pruned(q, b, fed)
    ensures Best(CAND_K, fed + Full(L, QuantizeVec(q), b, lo, hi)) == Best(CAND_K, fed)
  {
    PrunedRowsTooFar(L, q, b, lo, hi, fed);
    hide Shape, Full, Pruned;
    BestIgnores(CAND_K, fed, Full(L, QuantizeVec(q), b, lo, hi));
  }

  /** The prune's margin covers the rounding of both distances: inside the query's null flag every collected
    * row is nearer, by the exact distance, than every row of a pruned bucket. */
  lemma PruneLeavesNearer(L: Layout, q: Vec, b: int, fed: seq<Entry<int>>, e: Entry<int>, r: int)
    requires ValidLayout(L) && WellFormed(q) && SameNull(q, b) && Pruned(q, b, fed) && RowIn(L, b, r)
    requires Genuine(L, QuantizeVec(q), fed) && e in Best(CAND_K, fed)
    requires 0 <= e.tag < L.n && SameNull(q, BucketOfRow(L, e.tag)) && 0 <= r < L.n
    ensures Dist2(q, RowAt(L, e.tag)) + 0.000425 <= Dist2(q, RowAt(L, r))
  {
    var kept := Best(CAND_K, fed);
    GenuineKept(L, QuantizeVec(q), CAND_K, fed);
    BestSorted(CAND_K, fed);
    RowInRange(L, b, r);
    hide Shape, Dist2, IntDist, BucketPenalty, RowCodes, InBucket;
    var j :| 0 <= j < |kept| && kept[j] == e;
    assert e.key <= kept[CAND_K - 1].key == WorstOf(fed);
    MarginCovers(q, b, RowAt(L, r), BucketOfRow(L, e.tag), RowAt(L, e.tag), WorstOf(fed));
  }

  lemma MarginCovers(q: Vec, b: int, c: Codes, b': int, x: Codes, worst: real)
    requires WellFormed(q) && SameNull(q, b) && InBucket(c, b) && SameNull(q, b') && InBucket(x, b')
    requires BucketPenalty(q, b) * 1e8 >= worst + 1e5 && IntDist(QuantizeVec(q), x) as real <= worst
    ensures Dist2(q, x) + 0.000425 <= Dist2(q, c)
  {
    assert BucketPenalty(q, b) <= 3.0;
    PenaltyBoundsDist2(q, c, b);
    WellFormedDistance(q, x);
    hide Dist2, IntDist, BucketPenalty, InBucket;
    ErrorBound(q, x, b', 25.0);
    ErrorBound(q, x, b', 5.75);
  }

  /** A settled collector always prunes the other null flag. */
  lemma OtherFlagPruned(q: Vec, b: int, fed: seq<Entry<int>>)
    requires WellFormed(q) && 0 <= b < BUCKETS && !SameNull(q, b) && SettledFeed(fed)
    ensures Pruned(q, b, fed)
  {
    var c := Nearest(q, b);
    PenaltyBoundsDist2(q, c, b);
  }

  /** From bucket `b` on, the pruned scan and the unpruned scan of the own null flag leave the same
    * collector, even when they start from different pasts with the same kept entries. */
  lemma {:induction false} ScanIsIdeal(L: Layout, q: Vec, b: nat, lo: int, hi: int,
      fed: seq<Entry<int>>, past: seq<Entry<int>>, scanned: int)
    requires ValidLayout(L) && WellFormed(q) && b <= BUCKETS && (SettledFeed(fed) || OneFlag(L, q))
    requires Best(CAND_K, fed) == Best(CAND_K, past)
    ensures Best(CAND_K, ScanFrom(L, q, b, lo, hi, fed, scanned, 0))
         == Best(CAND_K, past + IdealFrom(L, q, b, lo, hi))
    decreases BUCKETS - b
  {
    hide Shape, ProbeFeed, QuantizeVec, BucketOf, ScanFrom, SettledFeed, OneFlag, SameNull, BucketPenalty, WorstOf,
      Best, IdealFrom;
    IdealStep(L, q, b, lo, hi);
    if b == BUCKETS {
      ScanEnd(L, q, lo, hi, fed, scanned, 0);
      Associate(past, [], []);
    } else {
      ScanStep(L, q, b, lo, hi, fed, scanned, 0);
      var rest := IdealFrom(L, q, b + 1, lo, hi);
      if b == BucketOf(q) {
        ScanIsIdeal(L, q, b + 1, lo, hi, fed, past, scanned);
      } else if !SameNull(q, b) {
        if SettledFeed(fed) {
          OtherFlagPruned(q, b, fed);
        } else {
          OneFlagEmpty(L, q, b, lo, hi, scanned);
          assert fed + [] == fed;
        }
        ScanIsIdeal(L, q, b + 1, lo, hi, fed, past, scanned);
      } else {
        var f := Full(L, QuantizeVec(q), b, lo, hi);
        BestForgets(CAND_K, fed, past, f);
        Associate(past, f, rest);
        if Pruned(q, b, fed) {
          PruneInvisible(L, q, b, lo, hi, fed);
          ScanIsIdeal(L, q, b + 1, lo, hi, fed, past + f, scanned);
        } else {
          ProbeIsPrefix(L, QuantizeVec(q), b, lo, hi, scanned, 0);
          if SettledFeed(fed) {
            SettledStays(fed, f);
          }
          ScanIsIdeal(L, q, b + 1, lo, hi, fed + f, past + f, scanned + |f|);
        }
      }
    }
  }

  // --- two tiers against one ---

  lemma {:induction false} IdealSplit(L: Layout, q: Vec, b: nat, np: int, hi: int)
    requires Shape(L) && b <= BUCKETS && 1 <= np <= hi
    ensures multiset(IdealFrom(L, q, b, 0, np)) + multiset(IdealFrom(L, q, b, np, hi))
         == multiset(IdealFrom(L, q, b, 0, hi))
    decreases BUCKETS - b
  {
    hide Shape, Full, BucketOf, SameNull, QuantizeVec, IdealFrom;
    IdealStep(L, q, b, 0, np);
    IdealStep(L, q, b, np, hi);
    IdealStep(L, q, b, 0, hi);
    if b < BUCKETS {
      IdealSplit(L, q, b + 1, np, hi);
      if b != BucketOf(q) && SameNull(q, b) {
        var qc := QuantizeVec(q);
        FullSplit(L, qc, b, np, hi);
        Merge(Full(L, qc, b, 0, np), Full(L, qc, b, np, hi), Full(L, qc, b, 0, hi),
          IdealFrom(L, q, b + 1, 0, np), IdealFrom(L, q, b + 1, np, hi), IdealFrom(L, q, b + 1, 0, hi));
      }
    }
  }

  lemma Merge<A>(f1: seq<A>, f2: seq<A>, f: seq<A>, r1: seq<A>, r2: seq<A>, r: seq<A>)
    requires multiset(f1) + multiset(f2) == multiset(f) && multiset(r1) + multiset(r2) == multiset(r)
    ensures multiset(f1 + r1) + multiset(f2 + r2) == multiset(f + r)
  {
  }

  lemma IdealsAddUp(L: Layout, q: Vec, np: int, hi: int)
    requires Shape(L) && 1 <= np <= hi
    ensures multiset(Ideal(L, q, 0, np) + Ideal(L, q, np, hi)) == multiset(Ideal(L, q, 0, hi))
  {
    hide Shape, Full, BucketOf, IdealFrom, QuantizeVec;
    IdealSplit(L, q, 0, np, hi);
    FullSplit(L, QuantizeVec(q), BucketOf(q), np, hi);
  }

  /** One scanRange on a collector that ends up settled after the home bucket. */
  lemma RangeIsIdeal(L: Layout, q: Vec, lo: int, hi: int, fed: seq<Entry<int>>, past: seq<Entry<int>>, scanned: int)
    requires ValidLayout(L) && WellFormed(q)
    requires Best(CAND_K, fed) == Best(CAND_K, past)
    requires SettledFeed(fed + Full(L, QuantizeVec(q), BucketOf(q), lo, hi)) || OneFlag(L, q)
    ensures Best(CAND_K, ScanRange(L, q, lo, hi, fed, scanned, 0)) == Best(CAND_K, past + Ideal(L, q, lo, hi))
  {
    hide Shape, ProbeFeed, QuantizeVec, BucketOf, ScanFrom, SettledFeed, OneFlag, IdealFrom, Best;
    var home := Full(L, QuantizeVec(q), BucketOf(q), lo, hi);
    ProbeIsPrefix(L, QuantizeVec(q), BucketOf(q), lo, hi, scanned, 0);
    BestForgets(CAND_K, fed, past, home);
    ScanIsIdeal(L, q, 0, lo, hi, fed + home, past + home, scanned + |home|);
    Associate(past, home, IdealFrom(L, q, 0, lo, hi));
  }

  /** Settled by the cheap home cells, still settled wherever the scan goes on from there. */
  lemma ScanKeepsSettled(L: Layout, q: Vec, np: int, hi: int)
    requires Shape(L) && Settled(L, q, np) && 1 <= np <= hi
    ensures SettledFeed(ScanRange(L, q, 0, np, [], 0, 0))
    ensures SettledFeed(Full(L, QuantizeVec(q), BucketOf(q), 0, hi))
  {
    hide Shape, ProbeFeed, QuantizeVec, BucketOf, ScanFrom, SettledFeed;
    var qc, b0 := QuantizeVec(q), BucketOf(q);
    var home := Full(L, qc, b0, 0, np);
    ProbeIsPrefix(L, qc, b0, 0, np, 0, 0);
    assert [] + home == home;
    var all := ScanFrom(L, q, 0, 0, np, home, |home|, 0);
    assert all == home + all[|home|..];
    SettledStays(home, all[|home|..]);
    FullSplit(L, qc, b0, np, hi);
    SettledStays(home, Full(L, qc, b0, np, hi));
  }

  /** Both scans leave what an unpruned scan of the query's null flag leaves. */
  lemma ScansAreIdeal(L: Layout, q: Vec, np: int, hi: int)
    requires ValidLayout(L) && WellFormed(q) && 1 <= np <= hi && (Settled(L, q, np) || OneFlag(L, q))
    ensures var cheap := ScanRange(L, q, 0, np, [], 0, 0);
      && Best(CAND_K, ScanRange(L, q, np, hi, cheap, 0, 0)) == Best(CAND_K, Ideal(L, q, 0, np) + Ideal(L, q, np, hi))
      && Best(CAND_K, ScanRange(L, q, 0, hi, [], 0, 0)) == Best(CAND_K, Ideal(L, q, 0, hi))
  {
    hide Shape, Full, QuantizeVec, BucketOf, ScanRange, Ideal, Best, SettledFeed, OneFlag;
    var qc, b0 := QuantizeVec(q), BucketOf(q);
    var cheap := ScanRange(L, q, 0, np, [], 0, 0);
    var near, wide := Ideal(L, q, 0, np), Ideal(L, q, 0, hi);
    assert [] + near == near && [] + wide == wide;
    assert [] + Full(L, qc, b0, 0, np) == Full(L, qc, b0, 0, np);
    assert [] + Full(L, qc, b0, 0, hi) == Full(L, qc, b0, 0, hi);
    if Settled(L, q, np) {
      ScanKeepsSettled(L, q, np, hi);
      SettledStays(cheap, Full(L, qc, b0, np, hi));
    }
    RangeIsIdeal(L, q, 0, np, [], [], 0);
    RangeIsIdeal(L, q, np, hi, cheap, near, 0);
    RangeIsIdeal(L, q, 0, hi, [], [], 0);
  }

  /** The 64th and the 65th nearest rows of the query's null flag in the probed cells differ in their
    * integer distance, or there is no 65th. */
  predicate ApartAtTheCut(L: Layout, q: Vec, hi: int)
    requires Shape(L)
  {
    var rows := Ideal(L, q, 0, hi);
    |rows| > CAND_K ==> Sort(rows)[CAND_K - 1].key < Sort(rows)[CAND_K].key
  }

  /** The incremental escalation against the fresh wide scan, when the home bucket settles the collector
    * or no row of the other null flag is stored: the same distances, and the same rows strictly below
    * the worst of them. Rows at the worst distance itself may differ, because ties go to whichever was
    * fed first; when no tie crosses the cut, all rows are the same. */
  lemma IncrementalEqualsFresh(L: Layout, q: Vec, np: int, hi: int)
    requires ValidLayout(L) && WellFormed(q) && 1 <= np <= hi && (Settled(L, q, np) || OneFlag(L, q))
    ensures var cheap := ScanRange(L, q, 0, np, [], 0, 0);
      var incremental := ScanRange(L, q, np, hi, cheap, 0, 0);
      var wide := ScanRange(L, q, 0, hi, [], 0, 0);
      && Keys(Best(CAND_K, incremental)) == Keys(Best(CAND_K, wide))
      && (forall e: Entry<int> | |Best(CAND_K, wide)| == CAND_K && e.key < Best(CAND_K, wide)[CAND_K - 1].key ::
            multiset(Best(CAND_K, incremental))[e] == multiset(Best(CAND_K, wide))[e])
      && (ApartAtTheCut(L, q, hi) ==> multiset(Best(CAND_K, incremental)) == multiset(Best(CAND_K, wide)))
  {
    hide Shape, Full, QuantizeVec, BucketOf, ScanRange, Ideal, Best, SettledFeed, Keys, OneFlag;
    ScansAreIdeal(L, q, np, hi);
    IdealsAddUp(L, q, np, hi);
    var both, wide := Ideal(L, q, 0, np) + Ideal(L, q, np, hi), Ideal(L, q, 0, hi);
    BestKeysRearranged(CAND_K, both, wide);
    SameSize(both, wide);
    if |wide| >= CAND_K {
      forall e: Entry<int> | e.key < Best(CAND_K, wide)[CAND_K - 1].key
        ensures multiset(Best(CAND_K, both))[e] == multiset(Best(CAND_K, wide))[e]
      {
        SameWorst(both, wide);
        BestKeepsBelow(CAND_K, both, e);
        BestKeepsBelow(CAND_K, wide, e);
      }
    }
    if ApartAtTheCut(L, q, hi) {
      if |wide| > CAND_K {
        BestRearrangedAtGap(CAND_K, wide, both);
      } else {
        WholeKept(CAND_K, both);
        WholeKept(CAND_K, wide);
      }
    }
  }

  // --- the answers ---

  function RefineOf(L: Layout, q: Vec): Entry<int> -> Entry<bool>
    requires Shape(L)
  {
    (e: Entry<int>) => if 0 <= e.tag < L.n then ExactEntry(L, q, e.tag) else Entry(0.0, false)
  }

  /** The same collected rows give the same five exact distances, and the same vote unless the fifth and
    * the sixth of them tie. */
  lemma SameRowsSameAnswer(L: Layout, q: Vec, f: seq<Entry<int>>, g: seq<Entry<int>>)
    requires Shape(L) && RowTags(L, Best(CAND_K, f)) && RowTags(L, Best(CAND_K, g))
    requires multiset(Best(CAND_K, f)) == multiset(Best(CAND_K, g))
    ensures Keys(Refined(L, q, f)) == Keys(Refined(L, q, g))
    ensures GapAfterFive(Visible(RefineFeed(L, q, Best(CAND_K, f)))) ==>
      FraudCount(Refined(L, q, f)) == FraudCount(Refined(L, q, g))
  {
    hide Shape, ExactEntry, Best, Visible;
    var x, y := RefineFeed(L, q, Best(CAND_K, f)), RefineFeed(L, q, Best(CAND_K, g));
    MapRearranged(RefineOf(L, q), Best(CAND_K, f), Best(CAND_K, g));
    assert x == Map(RefineOf(L, q), Best(CAND_K, f)) && y == Map(RefineOf(L, q), Best(CAND_K, g));
    VisibleRearranged(x, y);
    BestKeysRearranged(K, Visible(x), Visible(y));
    if GapAfterFive(Visible(x)) {
      BestRearrangedAtGap(K, Visible(x), Visible(y));
      FraudCountRearranged(Best(K, Visible(x)), Best(K, Visible(y)));
    }
  }

  /** An escalated search and a single pass at its wider probe count report the same five distances, when
    * no tie crosses the cut of the collector. */
  lemma EscalationKeepsAnswer(L: Layout, q: Vec, np: int, hi: int)
    requires ValidLayout(L) && WellFormed(q) && 1 <= np <= hi && (Settled(L, q, np) || OneFlag(L, q))
    requires ApartAtTheCut(L, q, hi)
    ensures var cheap := ScanRange(L, q, 0, np, [], 0, 0);
      var incremental := ScanRange(L, q, np, hi, cheap, 0, 0);
      var wide := ScanRange(L, q, 0, hi, [], 0, 0);
      && RowTags(L, Best(CAND_K, incremental)) && RowTags(L, Best(CAND_K, wide))
      && Keys(Refined(L, q, incremental)) == Keys(Refined(L, q, wide))
      && (GapAfterFive(Visible(RefineFeed(L, q, Best(CAND_K, incremental)))) ==>
            FraudCount(Refined(L, q, incremental)) == FraudCount(Refined(L, q, wide)))
  {
    hide Shape, ScanRange, Best, Refined, Visible, FraudCount, Keys, Settled, OneFlag, ApartAtTheCut, QuantizeVec;
    IncrementalEqualsFresh(L, q, np, hi);
    var cheap := ScanRange(L, q, 0, np, [], 0, 0);
    var incremental, wide := ScanRange(L, q, np, hi, cheap, 0, 0), ScanRange(L, q, 0, hi, [], 0, 0);
    GenuineScan(L, q, 0, np, [], 0, 0);
    GenuineScan(L, q, np, hi, cheap, 0, 0);
    GenuineScan(L, q, 0, hi, [], 0, 0);
    GenuineKept(L, QuantizeVec(q), CAND_K, incremental);
    GenuineKept(L, QuantizeVec(q), CAND_K, wide);
    SameRowsSameAnswer(L, q, incremental, wide);
  }

  lemma SameWorst(f: seq<Entry<int>>, g: seq<Entry<int>>)
    requires multiset(f) == multiset(g) && |g| >= CAND_K
    ensures |f| == |g| && Best(CAND_K, f)[CAND_K - 1].key == Best(CAND_K, g)[CAND_K - 1].key
  {
    SameSize(f, g);
    BestKeysRearranged(CAND_K, f, g);
    assert Keys(Best(CAND_K, f))[CAND_K - 1] == Best(CAND_K, f)[CAND_K - 1].key;
    assert Keys(Best(CAND_K, g))[CAND_K - 1] == Best(CAND_K, g)[CAND_K - 1].key;
  }
}
