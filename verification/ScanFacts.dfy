/** Every entry the search feeds is a stored row with its own integer distance. */
module ScanFacts {
  import opened Grid
  import opened Ranking
  import opened Layout
  import opened Collectors
  import opened Scan

  function AnyEntry(L: Layout, qc: Codes, r: int): Entry<int>
    requires Shape(L) && 0 <= r < L.n
  {
    RowEntry(L, qc, BucketOfRow(L, r), r)
  }

  predicate GenuineEntry(L: Layout, qc: Codes, e: Entry<int>)
    requires Shape(L)
  {
    0 <= e.tag < L.n && e == AnyEntry(L, qc, e.tag)
  }

  ghost predicate Genuine(L: Layout, qc: Codes, fed: seq<Entry<int>>)
    requires Shape(L)
  {
    forall e | e in fed :: GenuineEntry(L, qc, e)
  }

  /** Entries of a probe of bucket `b` are rows of bucket `b`. */
  predicate EntryOf(L: Layout, qc: Codes, b: int, e: Entry<int>)
    requires Shape(L)
  {
    RowIn(L, b, e.tag) && e == RowEntry(L, qc, b, e.tag)
  }

  ghost predicate OfBucket(L: Layout, qc: Codes, b: int, fed: seq<Entry<int>>)
    requires Shape(L)
  {
    forall e | e in fed :: EntryOf(L, qc, b, e)
  }

  lemma CellFeedOfBucket(L: Layout, qc: Codes, b: int, lo: int, hi: int)
    requires Shape(L) && 0 <= b < BUCKETS && |L.bucketStart| == BUCKETS + 1
    requires L.bucketStart[b] <= lo <= hi <= L.bucketStart[b + 1]
    ensures OfBucket(L, qc, b, CellFeed(L, qc, b, lo, hi))
  {
    hide Shape, RowCodes, IntDist;
    var rows := CellFeed(L, qc, b, lo, hi);
    forall i | 0 <= i < |rows|
      ensures EntryOf(L, qc, b, rows[i])
    {
      assert rows[i] == RowEntry(L, qc, b, lo + i);
    }
  }

  lemma {:induction false} RanksOfBucket(L: Layout, qc: Codes, b: int, cells: seq<Entry<int>>, i: nat, scanned: int,
      cap: int)
    requires Shape(L) && 0 <= b < BUCKETS && i <= |cells| && CellsOf(L, b, cells)
    ensures OfBucket(L, qc, b, RanksFeed(L, qc, b, cells, i, scanned, cap))
    decreases |cells| - i
  {
    hide Shape, CellRows, EntryOf;
    if i < |cells| {
      var cell := cells[i].tag;
      CellRowsFeed(L, qc, b, cell);
      CellFeedOfBucket(L, qc, b, L.cellStart[cell], L.cellStart[cell + 1]);
      RanksOfBucket(L, qc, b, cells, i + 1, scanned + |CellRows(L, qc, b, cell)|, cap);
    }
  }

  lemma ProbeOfBucket(L: Layout, qc: Codes, b: int, npLo: int, npHi: int, scanned: int, cap: int)
    requires Shape(L) && 0 <= b < BUCKETS
    ensures OfBucket(L, qc, b, ProbeFeed(L, qc, b, npLo, npHi, scanned, cap))
  {
    Basics(L);
    hide Shape, RanksFeed, Ranked, EntryOf;
    var np := ProbeCount(L.nlist, npHi);
    var lo := if npLo < 0 then 0 else npLo;
    if lo < np {
      RanksOfBucket(L, qc, b, Ranked(L, qc, b, np), lo, scanned, cap);
    }
  }

  lemma GenuineProbe(L: Layout, qc: Codes, b: int, npLo: int, npHi: int, scanned: int, cap: int)
    requires Shape(L) && 0 <= b < BUCKETS
    ensures Genuine(L, qc, ProbeFeed(L, qc, b, npLo, npHi, scanned, cap))
  {
    hide Shape, ProbeFeed, RowEntry;
    ProbeOfBucket(L, qc, b, npLo, npHi, scanned, cap);
    forall e | e in ProbeFeed(L, qc, b, npLo, npHi, scanned, cap)
      ensures GenuineEntry(L, qc, e)
    {
      RowInRange(L, b, e.tag);
    }
  }

  lemma {:induction false} GenuineFrom(L: Layout, q: Vec, b: nat, npLo: int, npHi: int, fed: seq<Entry<int>>,
      scanned: int, cap: int)
    requires Shape(L) && b <= BUCKETS && Genuine(L, QuantizeVec(q), fed)
    ensures Genuine(L, QuantizeVec(q), ScanFrom(L, q, b, npLo, npHi, fed, scanned, cap))
    decreases BUCKETS - b
  {
    hide Shape, ProbeFeed, BucketOf, QuantizeVec, Pruned;
    if b < BUCKETS {
      if b == BucketOf(q) || (!(cap > 0 && scanned >= cap) && Pruned(q, b, fed)) {
        GenuineFrom(L, q, b + 1, npLo, npHi, fed, scanned, cap);
      } else if !(cap > 0 && scanned >= cap) {
        var f := ProbeFeed(L, QuantizeVec(q), b, npLo, npHi, scanned, cap);
        GenuineProbe(L, QuantizeVec(q), b, npLo, npHi, scanned, cap);
        GenuineFrom(L, q, b + 1, npLo, npHi, fed + f, scanned + |f|, cap);
      }
    }
  }

  lemma GenuineScan(L: Layout, q: Vec, npLo: int, npHi: int, fed: seq<Entry<int>>, scanned: int, cap: int)
    requires Shape(L) && Genuine(L, QuantizeVec(q), fed)
    ensures Genuine(L, QuantizeVec(q), ScanRange(L, q, npLo, npHi, fed, scanned, cap))
  {
    hide Shape, ProbeFeed, ScanFrom;
    var f := ProbeFeed(L, QuantizeVec(q), BucketOf(q), npLo, npHi, scanned, cap);
    GenuineProbe(L, QuantizeVec(q), BucketOf(q), npLo, npHi, scanned, cap);
    GenuineFrom(L, q, 0, npLo, npHi, fed + f, scanned + |f|, cap);
  }

  /** Hence every collected row can be refined. */
  lemma GenuineKept(L: Layout, qc: Codes, k: nat, fed: seq<Entry<int>>)
    requires Shape(L) && Genuine(L, qc, fed)
    ensures Genuine(L, qc, Best(k, fed)) && RowTags(L, Best(k, fed))
  {
    BestSorted(k, fed);
    var kept := Best(k, fed);
    forall e | e in kept
      ensures GenuineEntry(L, qc, e)
    {
      assert e in multiset(kept);
      assert e in fed;
    }
    assert forall i | 0 <= i < |kept| :: kept[i] in kept;
  }

  lemma CheapFacts(L: Layout, kn: Knobs, q: Vec)
    requires Shape(L)
    ensures Genuine(L, QuantizeVec(q), CheapFeed(L, kn, q))
    ensures RowTags(L, Best(CAND_K, CheapFeed(L, kn, q)))
  {
    GenuineScan(L, q, 0, kn.nprobe, [], 0, kn.maxScan);
    GenuineKept(L, QuantizeVec(q), CAND_K, CheapFeed(L, kn, q));
  }

  lemma SearchFacts(L: Layout, kn: Knobs, q: Vec)
    requires Shape(L) && |kn.highByCount| == K + 1
    ensures RowTags(L, Best(CAND_K, CheapFeed(L, kn, q)))
    ensures Genuine(L, QuantizeVec(q), SearchFeed(L, kn, q))
    ensures RowTags(L, Best(CAND_K, SearchFeed(L, kn, q)))
  {
    CheapFacts(L, kn, q);
    if Escalates(L, kn, q) {
      var cheap := CheapFeed(L, kn, q);
      GenuineScan(L, q, kn.nprobe, HighProbe(kn, FraudCount(Refined(L, q, cheap))), cheap, 0, 0);
    }
    GenuineKept(L, QuantizeVec(q), CAND_K, SearchFeed(L, kn, q));
  }
}
