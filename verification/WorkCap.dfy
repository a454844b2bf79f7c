/** The scan cap is a guard, not a limit: it is checked after each cell, so the cheap tier can
  * overshoot it, but by less than one cell. It only ever cuts the end off, only once it is reached,
  * and never from the wide tier.
  */
module WorkCap {
  import opened Grid
  import opened Ranking
  import opened Layout
  import opened Collectors
  import opened Scan
  import opened ScanFacts
  import opened Tiers

  /** No cell holds more than `m` rows. */
  predicate CellsAtMost(L: Layout, m: nat)
    requires Shape(L)
  {
    forall cell | 0 <= cell < BUCKETS * L.nlist :: L.cellStart[cell + 1] - L.cellStart[cell] <= m
  }

  lemma CellSize(L: Layout, qc: Codes, b: int, cell: int, m: nat)
    requires Shape(L) && 0 <= b < BUCKETS && b * L.nlist <= cell < b * L.nlist + L.nlist && CellsAtMost(L, m)
    ensures |CellRows(L, qc, b, cell)| <= m
  {
    CellRowsFeed(L, qc, b, cell);
  }

  lemma {:induction false} RanksOvershoot(L: Layout, qc: Codes, b: int, cells: seq<Entry<int>>, i: nat, scanned: int,
      cap: int, m: nat)
    requires Shape(L) && 0 <= b < BUCKETS && i <= |cells| && CellsOf(L, b, cells)
    requires 0 <= scanned < cap && CellsAtMost(L, m)
    ensures scanned + |RanksFeed(L, qc, b, cells, i, scanned, cap)| <= cap - 1 + m
    decreases |cells| - i
  {
    hide Shape, CellsAtMost, CellRows;
    if i < |cells| {
      var rows := CellRows(L, qc, b, cells[i].tag);
      CellSize(L, qc, b, cells[i].tag, m);
      if scanned + |rows| < cap {
        RanksOvershoot(L, qc, b, cells, i + 1, scanned + |rows|, cap, m);
      }
    }
  }

  lemma ProbeOvershoot(L: Layout, qc: Codes, b: int, lo: int, hi: int, scanned: int, cap: int, m: nat)
    requires Shape(L) && 0 <= b < BUCKETS && 0 <= scanned < cap && CellsAtMost(L, m)
    ensures scanned + |ProbeFeed(L, qc, b, lo, hi, scanned, cap)| <= cap - 1 + m
  {
    Basics(L);
    hide Shape, CellsAtMost, RanksFeed, Ranked;
    var np := ProbeCount(L.nlist, hi);
    var from := if lo < 0 then 0 else lo;
    if from < np {
      RanksOvershoot(L, qc, b, Ranked(L, qc, b, np), from, scanned, cap, m);
    }
  }

  lemma {:induction false} FromOvershoot(L: Layout, q: Vec, b: nat, lo: int, hi: int, fed: seq<Entry<int>>, cap: int,
      m: nat)
    requires Shape(L) && b <= BUCKETS && CellsAtMost(L, m) && 0 < cap && |fed| <= cap - 1 + m
    ensures |ScanFrom(L, q, b, lo, hi, fed, |fed|, cap)| <= cap - 1 + m
    decreases BUCKETS - b
  {
    hide Shape, CellsAtMost, ProbeFeed, ScanFrom, BucketOf, QuantizeVec, BucketPenalty, WorstOf;
    if b == BUCKETS {
      ScanEnd(L, q, lo, hi, fed, |fed|, cap);
    } else {
      ScanStep(L, q, b, lo, hi, fed, |fed|, cap);
      FromOvershoot(L, q, b + 1, lo, hi, fed, cap, m);
      if |fed| < cap {
        var f := ProbeFeed(L, QuantizeVec(q), b, lo, hi, |fed|, cap);
        ProbeOvershoot(L, QuantizeVec(q), b, lo, hi, |fed|, cap, m);
        FromOvershoot(L, q, b + 1, lo, hi, fed + f, cap, m);
      }
    }
  }

  /** With a cap set, the cheap tier visits at most cap - 1 rows plus one largest cell, whatever the
    * bucket order and cell ranking. */
  lemma CheapWorkBounded(L: Layout, kn: Knobs, q: Vec, m: nat)
    requires Shape(L) && kn.maxScan > 0 && CellsAtMost(L, m)
    ensures |CheapFeed(L, kn, q)| <= kn.maxScan - 1 + m
  {
    hide Shape, CellsAtMost, ProbeFeed, ScanFrom, BucketOf, QuantizeVec;
    var f := ProbeFeed(L, QuantizeVec(q), BucketOf(q), 0, kn.nprobe, 0, kn.maxScan);
    ProbeOvershoot(L, QuantizeVec(q), BucketOf(q), 0, kn.nprobe, 0, kn.maxScan, m);
    assert [] + f == f;
    FromOvershoot(L, q, 0, 0, kn.nprobe, f, kn.maxScan, m);
  }

  // --- what the cap cuts off ---

  /** Stopping after rank i or later leaves at least a cap's worth of rows. */
  lemma {:induction false} RanksCut(L: Layout, qc: Codes, b: int, cells: seq<Entry<int>>, i: nat, scanned: int,
      cap: int)
    requires Shape(L) && 0 <= b < BUCKETS && i <= |cells| && CellsOf(L, b, cells)
    ensures var f, all := RanksFeed(L, qc, b, cells, i, scanned, cap), RanksFeed(L, qc, b, cells, i, 0, 0);
      f == all || scanned + |f| >= cap > 0
    decreases |cells| - i
  {
    hide Shape, CellRows;
    if i < |cells| {
      var rows := CellRows(L, qc, b, cells[i].tag);
      RanksCut(L, qc, b, cells, i + 1, scanned + |rows|, cap);
      RanksCut(L, qc, b, cells, i + 1, |rows|, 0);
    }
  }

  lemma ProbeCut(L: Layout, qc: Codes, b: int, lo: int, hi: int, scanned: int, cap: int)
    requires Shape(L) && 0 <= b < BUCKETS
    ensures var f := ProbeFeed(L, qc, b, lo, hi, scanned, cap);
      && f <= Full(L, qc, b, lo, hi)
      && (f == Full(L, qc, b, lo, hi) || scanned + |f| >= cap > 0)
  {
    ProbeIsPrefix(L, qc, b, lo, hi, scanned, cap);
    Basics(L);
    hide Shape, RanksFeed, Ranked;
    var np := ProbeCount(L.nlist, hi);
    var from := if lo < 0 then 0 else lo;
    if from < np {
      RanksCut(L, qc, b, Ranked(L, qc, b, np), from, scanned, cap);
    }
  }

  /** Once the cap is reached, no other bucket is visited. */
  lemma {:induction false} ScanStops(L: Layout, q: Vec, b: nat, lo: int, hi: int, fed: seq<Entry<int>>, scanned: int,
      cap: int)
    requires Shape(L) && b <= BUCKETS && 0 < cap <= scanned
    ensures ScanFrom(L, q, b, lo, hi, fed, scanned, cap) == fed
    decreases BUCKETS - b
  {
    hide Shape, ProbeFeed, ScanFrom, BucketOf, QuantizeVec, BucketPenalty, WorstOf;
    if b == BUCKETS {
      ScanEnd(L, q, lo, hi, fed, scanned, cap);
    } else {
      ScanStep(L, q, b, lo, hi, fed, scanned, cap);
      ScanStops(L, q, b + 1, lo, hi, fed, scanned, cap);
    }
  }

  /** `f` is `all`, or a beginning of it with at least `cap` entries. */
  predicate CutAt<A(==)>(f: seq<A>, all: seq<A>, cap: int) {
    f <= all && (f == all || |f| >= cap > 0)
  }

  lemma {:induction false} ScanCut(L: Layout, q: Vec, b: nat, lo: int, hi: int, fed: seq<Entry<int>>, cap: int)
    requires Shape(L) && b <= BUCKETS
    ensures CutAt(ScanFrom(L, q, b, lo, hi, fed, |fed|, cap), FedFrom(L, q, b, lo, hi, fed), cap)
    decreases BUCKETS - b, 0
  {
    hide Shape, ProbeFeed, ScanFrom, BucketOf, QuantizeVec, BucketPenalty, WorstOf, Full;
    if b == BUCKETS {
      ScanEnd(L, q, lo, hi, fed, |fed|, cap);
    } else {
      ScanStep(L, q, b, lo, hi, fed, |fed|, cap);
      ScanIsFed(L, q, b, lo, hi, fed, |fed|);
      if b != BucketOf(q) && !(cap > 0 && |fed| >= cap) && !Pruned(q, b, fed) {
        ProbeCut(L, QuantizeVec(q), b, lo, hi, |fed|, cap);
        CutOrOn(L, q, b + 1, lo, hi, fed, ProbeFeed(L, QuantizeVec(q), b, lo, hi, |fed|, cap),
          Full(L, QuantizeVec(q), b, lo, hi), cap);
      } else {
        ScanCut(L, q, b + 1, lo, hi, fed, cap);
      }
    }
  }

  /** A bucket that was fed whole is followed by the others; one that was cut is the last. */
  lemma CutOrOn(L: Layout, q: Vec, b: nat, lo: int, hi: int, fed: seq<Entry<int>>, f: seq<Entry<int>>,
                all: seq<Entry<int>>, cap: int)
    requires Shape(L) && b <= BUCKETS && f <= all && (f == all || |fed| + |f| >= cap > 0)
    ensures CutAt(ScanFrom(L, q, b, lo, hi, fed + f, |fed| + |f|, cap), FedFrom(L, q, b, lo, hi, fed + all), cap)
    decreases BUCKETS - b, 1
  {
    hide Shape, ScanFrom, FedFrom;
    assert |fed + f| == |fed| + |f|;
    if f == all {
      ScanCut(L, q, b, lo, hi, fed + f, cap);
    } else {
      ScanStops(L, q, b, lo, hi, fed + f, |fed| + |f|, cap);
      ScanIsFed(L, q, b, lo, hi, fed + all, 0);
      assert fed + f <= fed + all;
    }
  }

  /** What a cap leaves of the cheap tier is a beginning of what the uncapped tier feeds, and all of it
    * unless at least `maxScan` rows have been scanned. */
  lemma CheapIsCut(L: Layout, kn: Knobs, q: Vec)
    requires Shape(L)
    ensures var f, all := CheapFeed(L, kn, q), CheapFeed(L, kn.(maxScan := 0), q);
      f <= all && (f == all || |f| >= kn.maxScan > 0)
  {
    hide Shape, ProbeFeed, ScanFrom, FedFrom, BucketOf, QuantizeVec, Full;
    var qc, b0 := QuantizeVec(q), BucketOf(q);
    var f, all := ProbeFeed(L, qc, b0, 0, kn.nprobe, 0, kn.maxScan), Full(L, qc, b0, 0, kn.nprobe);
    ProbeCut(L, qc, b0, 0, kn.nprobe, 0, kn.maxScan);
    ProbeIsPrefix(L, qc, b0, 0, kn.nprobe, 0, 0);
    assert [] + f == f && [] + all == all;
    CutOrOn(L, q, 0, 0, kn.nprobe, [], f, all, kn.maxScan);
    ScanIsFed(L, q, 0, 0, kn.nprobe, all, |all|);
  }

  /** A cap of at least the rows that the uncapped cheap tier scans, as one of at least all rows is,
    * changes nothing: neither what is fed, nor the answer, nor the vote. */
  lemma LargeCapChangesNothing(L: Layout, kn: Knobs, q: Vec)
    requires Shape(L) && ValidKnobs(kn, L.nlist)
    requires kn.maxScan >= |CheapFeed(L, kn.(maxScan := 0), q)| || kn.maxScan >= L.n
    ensures RowTags(L, Best(CAND_K, CheapFeed(L, kn.(maxScan := 0), q)))
    ensures RowTags(L, Best(CAND_K, SearchFeed(L, kn.(maxScan := 0), q)))
    ensures CheapFeed(L, kn, q) == CheapFeed(L, kn.(maxScan := 0), q)
    ensures RowTags(L, Best(CAND_K, CheapFeed(L, kn, q))) && RowTags(L, Best(CAND_K, SearchFeed(L, kn, q)))
    ensures SearchFeed(L, kn, q) == SearchFeed(L, kn.(maxScan := 0), q)
    ensures Refined(L, q, SearchFeed(L, kn, q)) == Refined(L, q, SearchFeed(L, kn.(maxScan := 0), q))
    ensures FraudCount(Refined(L, q, SearchFeed(L, kn, q)))
         == FraudCount(Refined(L, q, SearchFeed(L, kn.(maxScan := 0), q)))
  {
    hide Shape, CheapFeed, Refined, ScanRange;
    SearchFacts(L, kn, q);
    SearchFacts(L, kn.(maxScan := 0), q);
    NoRowTwice(L, kn.(maxScan := 0), q);
    CheapIsCut(L, kn, q);
    AtLeastCheap(L, kn.(maxScan := 0), q);
  }

  lemma AtLeastCheap(L: Layout, kn: Knobs, q: Vec)
    requires Shape(L) && |kn.highByCount| == K + 1
    requires RowTags(L, Best(CAND_K, CheapFeed(L, kn, q)))
    ensures |SearchFeed(L, kn, q)| >= |CheapFeed(L, kn, q)|
  {
    hide Shape, CheapFeed, Escalates, ScanFrom, ProbeFeed;
  }

  /** The wide tier is never cut: when the search escalates, the ranks beyond the cheap ones of the
    * query's bucket are all fed, and so are those of every other bucket that is not pruned. */
  lemma WideIsUncapped(L: Layout, kn: Knobs, q: Vec)
    requires Shape(L) && |kn.highByCount| == K + 1
    requires RowTags(L, Best(CAND_K, CheapFeed(L, kn, q))) && Escalates(L, kn, q)
    ensures var cheap := CheapFeed(L, kn, q);
      var hi := HighProbe(kn, FraudCount(Refined(L, q, cheap)));
      SearchFeed(L, kn, q)
        == FedFrom(L, q, 0, kn.nprobe, hi, cheap + Full(L, QuantizeVec(q), BucketOf(q), kn.nprobe, hi))
  {
    hide Shape, CheapFeed, Escalates, ScanFrom, FedFrom, ProbeFeed, Full, BucketOf, QuantizeVec, Refined;
    var cheap := CheapFeed(L, kn, q);
    var hi := HighProbe(kn, FraudCount(Refined(L, q, cheap)));
    var f := Full(L, QuantizeVec(q), BucketOf(q), kn.nprobe, hi);
    ProbeIsPrefix(L, QuantizeVec(q), BucketOf(q), kn.nprobe, hi, 0, 0);
    ScanIsFed(L, q, 0, kn.nprobe, hi, cheap + f, |f|);
  }
}
