/** When the integer pre-filter, the prune and the refine together return what brute force returns.
  * A certificate the caller can read off the collector after the search suffices for any index;
  * without looking at the collector, exactness for every query is guaranteed if and only if the
  * index has at most CAND_K rows.
  */
module Exactness {
  import opened Grid
  import opened GridError
  import opened Ranking
  import opened Layout
  import opened Collectors
  import opened Scan
  import opened ScanFacts
  import opened Tiers
  import opened Permutation

  // --- which rows the search has not seen ---

  /** Too far to matter: the collector was full and the exact distance reaches its worst. */
  predicate Far(L: Layout, q: Vec, r: int, fed: seq<Entry<int>>)
    requires Shape(L)
  {
    0 <= r < L.n && |fed| >= CAND_K && Dist2(q, RowAt(L, r)) * 1e8 >= WorstOf(fed) + 1e5
  }

  predicate Settles(L: Layout, q: Vec, e: Entry<int>, fed: seq<Entry<int>>)
    requires Shape(L)
  {
    e in fed || Far(L, q, e.tag, fed)
  }

  lemma SettlesStays(L: Layout, q: Vec, e: Entry<int>, fed: seq<Entry<int>>, more: seq<Entry<int>>)
    requires Shape(L) && Settles(L, q, e, fed)
    ensures Settles(L, q, e, fed + more)
  {
    hide Shape, Dist2, RowAt, Best;
    if e !in fed {
      BestNeverRises(CAND_K, fed, more);
    }
  }

  ghost predicate AllSettle(L: Layout, q: Vec, es: seq<Entry<int>>, fed: seq<Entry<int>>)
    requires Shape(L)
  {
    forall e | e in es :: Settles(L, q, e, fed)
  }

  lemma AllSettleStays(L: Layout, q: Vec, es: seq<Entry<int>>, fed: seq<Entry<int>>, later: seq<Entry<int>>)
    requires Shape(L) && AllSettle(L, q, es, fed) && fed <= later
    ensures AllSettle(L, q, es, later)
  {
    hide Shape, Settles;
    assert later == fed + later[|fed|..];
    forall e | e in es
      ensures Settles(L, q, e, later)
    {
      SettlesStays(L, q, e, fed, later[|fed|..]);
    }
  }

  /** A pruned bucket holds only rows whose exact distance is out of reach. */
  lemma PrunedSettles(L: Layout, q: Vec, b: int, lo: int, hi: int, fed: seq<Entry<int>>)
    requires ValidLayout(L) && WellFormed(q) && 0 <= b < BUCKETS && Pruned(q, b, fed)
    ensures AllSettle(L, q, Full(L, QuantizeVec(q), b, lo, hi), fed)
  {
    var qc := QuantizeVec(q);
    hide Shape, ProbeFeed, BucketPenalty, WorstOf, Dist2;
    ProbeOfBucket(L, qc, b, lo, hi, 0, 0);
    forall e | e in Full(L, qc, b, lo, hi)
      ensures Settles(L, q, e, fed)
    {
      assert RowIn(L, b, e.tag);
      RowInRange(L, b, e.tag);
      PenaltyBoundsDist2(q, RowCodes(L, b, e.tag), b);
    }
  }

  /** Everything in ranks [lo, hi) of a visited bucket is fed or out of reach. */
  ghost predicate Covered(L: Layout, q: Vec, b: int, lo: int, hi: int, fed: seq<Entry<int>>)
    requires Shape(L) && 0 <= b < BUCKETS
  {
    AllSettle(L, q, Full(L, QuantizeVec(q), b, lo, hi), fed)
  }

  lemma {:induction false} ScanFromCovers(L: Layout, q: Vec, b: nat, lo: int, hi: int, fed: seq<Entry<int>>,
      scanned: int)
    requires ValidLayout(L) && WellFormed(q) && b <= BUCKETS
    requires forall c | 0 <= c < BUCKETS && Visited(BucketOf(q), b, c) :: Covered(L, q, c, lo, hi, fed)
    ensures forall c | 0 <= c < BUCKETS :: Covered(L, q, c, lo, hi, ScanFrom(L, q, b, lo, hi, fed, scanned, 0))
    decreases BUCKETS - b
  {
    hide Shape, ProbeFeed, Covered, BucketPenalty, WorstOf, QuantizeVec, BucketOf, ScanFrom;
    if b == BUCKETS {
      ScanEnd(L, q, lo, hi, fed, scanned, 0);
    } else {
      ScanStep(L, q, b, lo, hi, fed, scanned, 0);
      if b == BucketOf(q) {
        ScanFromCovers(L, q, b + 1, lo, hi, fed, scanned);
      } else if |fed| >= CAND_K && BucketPenalty(q, b) * 1e8 >= WorstOf(fed) + 1e5 {
        CoverPruned(L, q, b, lo, hi, fed);
        ScanFromCovers(L, q, b + 1, lo, hi, fed, scanned);
      } else {
        var f := ProbeFeed(L, QuantizeVec(q), b, lo, hi, scanned, 0);
        CoverProbed(L, q, b, lo, hi, fed, scanned);
        forall c | 0 <= c < BUCKETS && Visited(BucketOf(q), b + 1, c)
          ensures Covered(L, q, c, lo, hi, fed + f)
        {
          if c != b {
            CoveredStays(L, q, c, lo, hi, fed, fed + f);
          }
        }
        ScanFromCovers(L, q, b + 1, lo, hi, fed + f, scanned + |f|);
      }
    }
  }

  lemma CoverPruned(L: Layout, q: Vec, b: nat, lo: int, hi: int, fed: seq<Entry<int>>)
    requires ValidLayout(L) && WellFormed(q) && b < BUCKETS && Pruned(q, b, fed)
    ensures Covered(L, q, b, lo, hi, fed)
  {
    hide Shape, ProbeFeed;
    PrunedSettles(L, q, b, lo, hi, fed);
  }

  lemma CoverProbed(L: Layout, q: Vec, b: nat, lo: int, hi: int, fed: seq<Entry<int>>, scanned: int)
    requires Shape(L) && b < BUCKETS
    ensures Covered(L, q, b, lo, hi, fed + ProbeFeed(L, QuantizeVec(q), b, lo, hi, scanned, 0))
  {
    hide Shape, ProbeFeed, Far;
    ProbeIsPrefix(L, QuantizeVec(q), b, lo, hi, scanned, 0);
  }

  lemma CoveredStays(L: Layout, q: Vec, b: nat, lo: int, hi: int, fed: seq<Entry<int>>, later: seq<Entry<int>>)
    requires Shape(L) && b < BUCKETS && Covered(L, q, b, lo, hi, fed) && fed <= later
    ensures Covered(L, q, b, lo, hi, later)
  {
    hide Shape, ProbeFeed, AllSettle;
    AllSettleStays(L, q, Full(L, QuantizeVec(q), b, lo, hi), fed, later);
  }

  lemma ScanCovers(L: Layout, q: Vec, lo: int, hi: int, fed: seq<Entry<int>>, scanned: int)
    requires ValidLayout(L) && WellFormed(q)
    ensures forall c | 0 <= c < BUCKETS :: Covered(L, q, c, lo, hi, ScanRange(L, q, lo, hi, fed, scanned, 0))
  {
    hide Shape, ProbeFeed, Covered, QuantizeVec, BucketOf, ScanFrom;
    var f := ProbeFeed(L, QuantizeVec(q), BucketOf(q), lo, hi, scanned, 0);
    CoverProbed(L, q, BucketOf(q), lo, hi, fed, scanned);
    ScanFromCovers(L, q, 0, lo, hi, fed + f, scanned + |f|);
  }

  // --- searches that have looked at every cell ---

  /** No cap, and the last tier reaches every rank: either the cheap tier is already that wide, or
    * the search escalated that far. */
  predicate Exhaustive(L: Layout, kn: Knobs, q: Vec)
    requires Shape(L) && |kn.highByCount| == K + 1
    requires RowTags(L, Best(CAND_K, CheapFeed(L, kn, q)))
  {
    && kn.maxScan == 0 && L.nlist <= MAX_PROBE
    && (kn.nprobe == L.nlist ||
        (Escalates(L, kn, q) && HighProbe(kn, FraudCount(Refined(L, q, CheapFeed(L, kn, q)))) == L.nlist))
  }

  lemma WideProbeFeedsRow(L: Layout, qc: Codes, r: int)
    requires Shape(L) && 0 <= r < L.n && L.nlist <= MAX_PROBE
    ensures AnyEntry(L, qc, r) in Full(L, qc, BucketOfRow(L, r), 0, L.nlist)
  {
    var b := BucketOfRow(L, r);
    FullWithinBucket(L, qc, b, L.nlist);
    AllFeedAt(L, qc, b, r);
    hide Shape, Full, BucketFeed;
    assert AnyEntry(L, qc, r) in BucketFeed(L, qc, b);
    assert AnyEntry(L, qc, r) in multiset(BucketFeed(L, qc, b));
  }

  /** An exhaustive search scans all ranks in one tier or in two. */
  lemma ExhaustiveFeed(L: Layout, kn: Knobs, q: Vec)
    requires Shape(L) && ValidKnobs(kn, L.nlist)
    requires RowTags(L, Best(CAND_K, CheapFeed(L, kn, q))) && Exhaustive(L, kn, q)
    ensures SearchFeed(L, kn, q) == if kn.nprobe == L.nlist then CheapFeed(L, kn, q)
                                    else ScanRange(L, q, kn.nprobe, L.nlist, CheapFeed(L, kn, q), 0, 0)
  {
    hide Shape, CheapFeed, ScanRange, Refined, Best, RowTags, FraudCount;
    HighProbeBound(kn, L.nlist, FraudCount(Refined(L, q, CheapFeed(L, kn, q))));
  }

  /** In an exhaustive search every stored row was fed or is out of reach. */
  lemma ExhaustiveSettles(L: Layout, kn: Knobs, q: Vec, r: int)
    requires ValidLayout(L) && ValidKnobs(kn, L.nlist) && WellFormed(q) && 0 <= r < L.n
    requires RowTags(L, Best(CAND_K, CheapFeed(L, kn, q))) && Exhaustive(L, kn, q)
    ensures Settles(L, q, AnyEntry(L, QuantizeVec(q), r), SearchFeed(L, kn, q))
  {
    var qc, b := QuantizeVec(q), BucketOfRow(L, r);
    var cheap := CheapFeed(L, kn, q);
    WideProbeFeedsRow(L, qc, r);
    hide Shape, ValidLayout, ScanRange, Full, Settles, BucketOfRow, QuantizeVec, AnyEntry, Refined, Best, RowTags;
    ScanCovers(L, q, 0, kn.nprobe, [], 0);
    assert Covered(L, q, b, 0, kn.nprobe, cheap);
    ExhaustiveFeed(L, kn, q);
    hide CheapFeed, SearchFeed, Exhaustive;
    if kn.nprobe != L.nlist {
      ScanCovers(L, q, kn.nprobe, L.nlist, cheap, 0);
      TwoTiersSettle(L, q, b, kn.nprobe, cheap, ScanRange(L, q, kn.nprobe, L.nlist, cheap, 0, 0));
    }
  }

  lemma TwoTiersSettle(L: Layout, q: Vec, b: int, np: int, cheap: seq<Entry<int>>, wide: seq<Entry<int>>)
    requires Shape(L) && 0 <= b < BUCKETS && 1 <= np <= L.nlist && cheap <= wide
    requires Covered(L, q, b, 0, np, cheap) && Covered(L, q, b, np, L.nlist, wide)
    ensures AllSettle(L, q, Full(L, QuantizeVec(q), b, 0, L.nlist), wide)
  {
    hide Shape, Full, Settles, QuantizeVec;
    AllSettleStays(L, q, Full(L, QuantizeVec(q), b, 0, np), cheap, wide);
    FullSplit(L, QuantizeVec(q), b, np, L.nlist);
  }

  lemma HighProbeBound(kn: Knobs, nlist: int, count: int)
    requires ValidKnobs(kn, nlist)
    ensures 0 <= HighProbe(kn, count) <= nlist
  {
  }

  // --- refining part of the rows ---

  function TotalEntry(L: Layout, q: Vec): int -> Entry<bool>
    requires Shape(L)
  {
    (r: int) => if 0 <= r < L.n then ExactEntry(L, q, r) else Entry(0.0, false)
  }

  function Tags(fed: seq<Entry<int>>): (t: seq<int>)
    ensures |t| == |fed| && forall i | 0 <= i < |t| :: t[i] == fed[i].tag
  {
    seq(|fed|, i requires 0 <= i < |fed| => fed[i].tag)
  }

  lemma FeedsAreMaps(L: Layout, q: Vec, kept: seq<Entry<int>>, missing: seq<int>)
    requires Shape(L) && RowTags(L, kept)
    requires forall i | 0 <= i < |missing| :: 0 <= missing[i] < L.n
    ensures Map(TotalEntry(L, q), Tags(kept) + missing) == RefineFeed(L, q, kept) + Map(TotalEntry(L, q), missing)
    ensures Map(TotalEntry(L, q), Numbers(L.n)) == BruteFeed(L, q)
    ensures forall i | 0 <= i < |missing| :: Map(TotalEntry(L, q), missing)[i] == ExactEntry(L, q, missing[i])
  {
    hide Shape, ExactEntry;
  }

  /** The rows not kept, refined as well: together with the refined rows they are the brute feed. */
  lemma BruteIsRefinedPlusRest(L: Layout, q: Vec, kept: seq<Entry<int>>) returns (rest: seq<Entry<bool>>)
    requires Shape(L) && RowTags(L, kept)
    requires forall i, j | 0 <= i < j < |kept| :: kept[i].tag != kept[j].tag
    ensures multiset(RefineFeed(L, q, kept) + rest) == multiset(BruteFeed(L, q))
    ensures forall x | x in rest :: exists r :: 0 <= r < L.n && r !in Tags(kept) && x == ExactEntry(L, q, r)
    ensures (forall r | 0 <= r < L.n :: r in Tags(kept)) ==> rest == []
  {
    hide Shape, ExactEntry, Missing, TotalEntry, RefineFeed, BruteFeed, Map;
    Basics(L);
    var h, rows := TotalEntry(L, q), Tags(kept);
    var missing := Missing(L.n, rows);
    MissingCompletes(L.n, rows);
    MapRearranged(h, rows + missing, Numbers(L.n));
    FeedsAreMaps(L, q, kept, missing);
    rest := Map(h, missing);
    RestEntries(L, q, rows, missing, rest);
    if forall r | 0 <= r < L.n :: r in rows {
      NoneMissing(L.n, rows);
    }
  }

  lemma RestEntries(L: Layout, q: Vec, rows: seq<int>, missing: seq<int>, rest: seq<Entry<bool>>)
    requires Shape(L) && |rest| == |missing|
    requires forall i | 0 <= i < |missing| :: 0 <= missing[i] < L.n && missing[i] !in rows
    requires forall i | 0 <= i < |rest| :: rest[i] == ExactEntry(L, q, missing[i])
    ensures forall x | x in rest :: exists r :: 0 <= r < L.n && r !in rows && x == ExactEntry(L, q, r)
  {
    hide Shape, ExactEntry;
  }

  lemma FifthAtMost(feed: seq<Entry<bool>>, t: real)
    requires |feed| >= K && forall i | 0 <= i < K :: feed[i].key <= t
    ensures Best(K, feed)[K - 1].key <= t
  {
    var head := feed[..K];
    SortKeeps(head);
    var s := Sort(head);
    assert s[K - 1] in multiset(head);
    assert s[K - 1] in head;
    assert feed == head + feed[K..];
    BestNeverRises(K, head, feed[K..]);
  }

  /** If the first five kept rows are within `t` and every row not kept is at least `t` away, the
    * refined distances are the brute-force distances, and at a strict gap so is the vote. */
  lemma RefineIsBrute(L: Layout, q: Vec, kept: seq<Entry<int>>, t: real)
    requires Shape(L) && RowTags(L, kept) && |kept| >= K
    requires forall i, j | 0 <= i < j < |kept| :: kept[i].tag != kept[j].tag
    requires forall i | 0 <= i < K :: Dist2(q, RowAt(L, kept[i].tag)) <= t
    requires forall r | 0 <= r < L.n && r !in Tags(kept) :: Dist2(q, RowAt(L, r)) >= t
    ensures Keys(Best(K, Visible(RefineFeed(L, q, kept)))) == Keys(Brute(L, q))
    ensures StrictGap(L, q) ==> FraudCount(Best(K, Visible(RefineFeed(L, q, kept)))) == FraudCount(Brute(L, q))
  {
    hide Shape, Dist2, RowAt, IsFraud, Best, Visible;
    var feed := RefineFeed(L, q, kept);
    var rest := BruteIsRefinedPlusRest(L, q, kept);
    VisibleConcat(feed, rest);
    VisibleRearranged(feed + rest, BruteFeed(L, q));
    RestIgnored(feed, rest, t);
    var all := Visible(BruteFeed(L, q));
    BestKeysRearranged(K, Visible(feed) + Visible(rest), all);
    if StrictGap(L, q) {
      BestRearrangedAtGap(K, all, Visible(feed) + Visible(rest));
      FraudCountRearranged(Best(K, all), Best(K, Visible(feed) + Visible(rest)));
    }
  }

  /** The five best of a feed whose first five are within `t` are within `t`. */
  lemma FirstFiveVisible(feed: seq<Entry<bool>>, t: real)
    requires |feed| >= K && (forall i | 0 <= i < K :: feed[i].key <= t) && t < MAX_FLOAT
    ensures |Visible(feed)| >= K && Best(K, Visible(feed))[K - 1].key <= t
  {
    hide Best, Visible;
    var head, tail := feed[..K], feed[K..];
    assert feed == head + tail;
    VisibleConcat(head, tail);
    AllVisible(head);
    FifthAtMost(head + Visible(tail), t);
  }

  /** Rows at least as far as the first five cannot change the five best. */
  lemma RestIgnored(feed: seq<Entry<bool>>, rest: seq<Entry<bool>>, t: real)
    requires |feed| >= K && (forall i | 0 <= i < K :: feed[i].key <= t) && forall x | x in rest :: x.key >= t
    ensures Best(K, Visible(feed) + Visible(rest)) == Best(K, Visible(feed))
  {
    hide Best, Visible;
    VisibleKeys(rest);
    var near, far := Visible(feed), Visible(rest);
    if far == [] {
      assert near + far == near;
    } else {
      assert far[0] in far;
      FirstFiveVisible(feed, t);
      BestIgnores(K, near, far);
    }
  }

  /** The sixth nearest row is strictly farther than the fifth. */
  predicate StrictGap(L: Layout, q: Vec)
    requires Shape(L)
  {
    GapAfterFive(Visible(BruteFeed(L, q)))
  }

  // --- the certificate ---

  /** Read off the collector after the search: the five integer-nearest rows carry the query's null
    * flag and are within `a` grid steps, everything dropped is beyond `a + 4`, and `a + 2` steps
    * are less than a null mismatch. */
  predicate Certificate(L: Layout, q: Vec, fed: seq<Entry<int>>, a: real)
    requires Shape(L)
  {
    var kept := Best(CAND_K, fed);
    && 0.0 <= a && |kept| >= K && RowTags(L, kept)
    && (forall i | 0 <= i < K :: kept[i].key <= a * a && SameNull(q, BucketOfRow(L, kept[i].tag)))
    && (a + 4.0) * (a + 4.0) <= WorstOf(fed)
    && (a + 2.0) * (a + 2.0) <= 2e8
  }

  /** Integer distance at least (a + 4)^2: exact distance at least (a + 2)^2, whichever null flag. */
  lemma DroppedRowIsFar(L: Layout, q: Vec, r: int, a: real)
    requires ValidLayout(L) && WellFormed(q) && 0 <= r < L.n && 0.0 <= a
    requires AnyEntry(L, QuantizeVec(q), r).key >= (a + 4.0) * (a + 4.0)
    requires (a + 2.0) * (a + 2.0) <= 2e8
    ensures 1e8 * Dist2(q, RowAt(L, r)) >= (a + 2.0) * (a + 2.0)
  {
    var b := BucketOfRow(L, r);
    var c := RowCodes(L, b, r);
    assert InBucket(c, b);
    hide Shape, Dist2, IntDist;
    if SameNull(q, b) {
      MarginTransfers(q, c, b, a);
    } else {
      PenaltyBoundsDist2(q, c, b);
    }
  }

  lemma NearRowIsNear(L: Layout, q: Vec, r: int, a: real)
    requires ValidLayout(L) && WellFormed(q) && 0 <= r < L.n && 0.0 <= a
    requires AnyEntry(L, QuantizeVec(q), r).key <= a * a && SameNull(q, BucketOfRow(L, r))
    ensures 1e8 * Dist2(q, RowAt(L, r)) <= (a + 2.0) * (a + 2.0)
  {
    var b := BucketOfRow(L, r);
    assert InBucket(RowCodes(L, b, r), b);
    hide Shape, Dist2, IntDist;
    MarginTransfers(q, RowCodes(L, b, r), b, a);
  }

  lemma KeptIfBelow(fed: seq<Entry<int>>, e: Entry<int>)
    requires e in fed && (|fed| < CAND_K || e.key < WorstOf(fed))
    ensures e in Best(CAND_K, fed)
  {
    SortKeeps(fed);
    if |fed| < CAND_K {
      assert e in multiset(Sort(fed));
    } else {
      BestKeepsBelow(CAND_K, fed, e);
      assert multiset(fed)[e] > 0;
      assert e in multiset(Best(CAND_K, fed));
    }
  }

  /** A fed row that is not kept is at the worst kept distance or beyond. */
  lemma DroppedKey(fed: seq<Entry<int>>, e: Entry<int>)
    requires e in fed && e !in Best(CAND_K, fed)
    ensures |fed| >= CAND_K && e.key >= WorstOf(fed)
  {
    if |fed| < CAND_K || e.key < WorstOf(fed) {
      KeptIfBelow(fed, e);
    }
  }

  /** Exactness with a certificate: an exhaustive search whose collector shows the certificate
    * returns the five brute-force distances, and the brute-force vote unless the fifth and sixth
    * nearest rows tie. */
  lemma CertifiedExact(L: Layout, kn: Knobs, q: Vec, a: real)
    requires ValidLayout(L) && ValidKnobs(kn, L.nlist) && WellFormed(q)
    requires RowTags(L, Best(CAND_K, CheapFeed(L, kn, q))) && Exhaustive(L, kn, q)
    requires Certificate(L, q, SearchFeed(L, kn, q), a)
    ensures Keys(Refined(L, q, SearchFeed(L, kn, q))) == Keys(Brute(L, q))
    ensures StrictGap(L, q) ==> FraudCount(Refined(L, q, SearchFeed(L, kn, q))) == FraudCount(Brute(L, q))
  {
    var fed := SearchFeed(L, kn, q);
    var x := (a + 2.0) * (a + 2.0);
    SearchKept(L, kn, q);
    var kept := Best(CAND_K, fed);
    hide Shape, ValidLayout, QuantizeVec, SearchFeed, CheapFeed, Exhaustive, Dist2, RowAt, Best, WorstOf, Genuine;
    assert |kept| >= K;
    hide Certificate;
    forall i | 0 <= i < K
      ensures Dist2(q, RowAt(L, kept[i].tag)) <= x / 1e8
    {
      KeptIsNear(L, q, fed, i, a);
    }
    forall r | 0 <= r < L.n && r !in Tags(kept)
      ensures Dist2(q, RowAt(L, r)) >= x / 1e8
    {
      UnkeptIsFar(L, kn, q, r, a);
    }
    RefineIsBrute(L, q, kept, x / 1e8);
  }

  lemma SearchKept(L: Layout, kn: Knobs, q: Vec)
    requires Shape(L) && ValidKnobs(kn, L.nlist)
    requires RowTags(L, Best(CAND_K, CheapFeed(L, kn, q)))
    ensures var kept := Best(CAND_K, SearchFeed(L, kn, q));
      && Genuine(L, QuantizeVec(q), SearchFeed(L, kn, q)) && RowTags(L, kept)
      && forall i, j | 0 <= i < j < |kept| :: kept[i].tag != kept[j].tag
  {
    SearchFacts(L, kn, q);
    NoRowTwice(L, kn, q);
    hide SearchFeed, CheapFeed, Best;
    KeptDistinct(SearchFeed(L, kn, q));
  }

  lemma KeptIsNear(L: Layout, q: Vec, fed: seq<Entry<int>>, i: int, a: real)
    requires ValidLayout(L) && WellFormed(q) && Genuine(L, QuantizeVec(q), fed)
    requires Certificate(L, q, fed, a) && 0 <= i < K
    ensures 1e8 * Dist2(q, RowAt(L, Best(CAND_K, fed)[i].tag)) <= (a + 2.0) * (a + 2.0)
  {
    var kept := Best(CAND_K, fed);
    GenuineKept(L, QuantizeVec(q), CAND_K, fed);
    hide Shape, QuantizeVec, AnyEntry, Dist2, RowAt, Best, WorstOf;
    assert kept[i] in kept;
    NearRowIsNear(L, q, kept[i].tag, a);
  }

  lemma UnkeptIsFar(L: Layout, kn: Knobs, q: Vec, r: int, a: real)
    requires ValidLayout(L) && ValidKnobs(kn, L.nlist) && WellFormed(q) && 0 <= r < L.n
    requires RowTags(L, Best(CAND_K, CheapFeed(L, kn, q))) && Exhaustive(L, kn, q)
    requires Certificate(L, q, SearchFeed(L, kn, q), a)
    requires r !in Tags(Best(CAND_K, SearchFeed(L, kn, q)))
    ensures 1e8 * Dist2(q, RowAt(L, r)) >= (a + 2.0) * (a + 2.0)
  {
    var fed, e := SearchFeed(L, kn, q), AnyEntry(L, QuantizeVec(q), r);
    ExhaustiveSettles(L, kn, q, r);
    assert e.tag == r;
    hide Shape, QuantizeVec, AnyEntry, SearchFeed, CheapFeed, Exhaustive, Dist2, RowAt, Best, WorstOf;
    if e in fed {
      if e in Best(CAND_K, fed) {
        TagOfKept(Best(CAND_K, fed), e);
      }
      DroppedKey(fed, e);
      DroppedRowIsFar(L, q, r, a);
    } else {
      Wider(a);
    }
  }

  lemma Wider(a: real)
    requires 0.0 <= a
    ensures (a + 2.0) * (a + 2.0) <= (a + 4.0) * (a + 4.0)
  {
  }

  lemma TagOfKept(kept: seq<Entry<int>>, e: Entry<int>)
    requires e in kept
    ensures e.tag in Tags(kept)
  {
    var i :| 0 <= i < |kept| && kept[i] == e;
    assert Tags(kept)[i] == e.tag;
  }

  lemma KeptDistinct(fed: seq<Entry<int>>)
    requires forall i, j | 0 <= i < j < |fed| :: fed[i].tag != fed[j].tag
    ensures forall i, j | 0 <= i < j < |Best(CAND_K, fed)| :: Best(CAND_K, fed)[i].tag != Best(CAND_K, fed)[j].tag
  {
    SortKeeps(fed);
    var s := Sort(fed);
    forall i, j | 0 <= i < j < |s|
      ensures s[i].tag != s[j].tag
    {
      if s[i].tag == s[j].tag {
        assert s[i] in multiset(fed) && s[j] in multiset(fed);
        assert s[i] in fed && s[j] in fed;
        assert s[i] == s[j];
        TwiceCounts(s, i, j);
        DistinctTags(fed, s[i]);
      }
    }
  }

  // --- small indexes need no certificate ---

  /** With at most CAND_K rows an exhaustive search collects every row. */
  lemma SmallIndexKeepsAll(L: Layout, kn: Knobs, q: Vec, r: int)
    requires ValidLayout(L) && ValidKnobs(kn, L.nlist) && WellFormed(q) && 0 <= r < L.n <= CAND_K
    requires RowTags(L, Best(CAND_K, CheapFeed(L, kn, q))) && Exhaustive(L, kn, q)
    ensures r in Tags(Best(CAND_K, SearchFeed(L, kn, q)))
  {
    var fed, e := SearchFeed(L, kn, q), AnyEntry(L, QuantizeVec(q), r);
    ExhaustiveSettles(L, kn, q, r);
    NoRowTwice(L, kn, q);
    assert e.tag == r && AllFeed(L, QuantizeVec(q))[r] == e;
    hide Shape, QuantizeVec, AnyEntry, SearchFeed, CheapFeed, Exhaustive, Dist2, RowAt, WorstOf;
    if |fed| >= CAND_K {
      FullSubset(fed, AllFeed(L, QuantizeVec(q)));
      assert e in multiset(fed);
    }
    SortKeeps(fed);
    assert e in multiset(Sort(fed));
    WholeKept(CAND_K, fed);
    TagOfKept(Best(CAND_K, fed), e);
  }

  lemma FullSubset<A>(x: seq<A>, y: seq<A>)
    requires multiset(x) <= multiset(y) && |x| == |y|
    ensures multiset(x) == multiset(y)
  {
    assert |multiset(x)| == |x| && |multiset(y)| == |y|;
    assert multiset(y) == multiset(x) + (multiset(y) - multiset(x));
  }

  lemma SmallIndexExact(L: Layout, kn: Knobs, q: Vec)
    requires ValidLayout(L) && ValidKnobs(kn, L.nlist) && WellFormed(q) && L.n <= CAND_K
    requires RowTags(L, Best(CAND_K, CheapFeed(L, kn, q))) && Exhaustive(L, kn, q)
    ensures RowTags(L, Best(CAND_K, SearchFeed(L, kn, q)))
    ensures Keys(Refined(L, q, SearchFeed(L, kn, q))) == Keys(Brute(L, q))
  {
    SearchKept(L, kn, q);
    var fed := SearchFeed(L, kn, q);
    hide SearchFeed, Best;
    forall r | 0 <= r < L.n
      ensures r in Tags(Best(CAND_K, fed))
    {
      SmallIndexKeepsAll(L, kn, q, r);
    }
    hide Shape, ValidLayout, CheapFeed, Exhaustive;
    RefineOfAllIsBrute(L, q, Best(CAND_K, fed));
  }

  lemma RefineOfAllIsBrute(L: Layout, q: Vec, kept: seq<Entry<int>>)
    requires Shape(L) && RowTags(L, kept)
    requires forall i, j | 0 <= i < j < |kept| :: kept[i].tag != kept[j].tag
    requires forall r | 0 <= r < L.n :: r in Tags(kept)
    ensures Keys(Best(K, Visible(RefineFeed(L, q, kept)))) == Keys(Brute(L, q))
  {
    hide Shape, ExactEntry, Visible;
    var rest := BruteIsRefinedPlusRest(L, q, kept);
    assert RefineFeed(L, q, kept) + rest == RefineFeed(L, q, kept);
    VisibleRearranged(RefineFeed(L, q, kept), BruteFeed(L, q));
    BestKeysRearranged(K, Visible(RefineFeed(L, q, kept)), Visible(BruteFeed(L, q)));
  }
}
