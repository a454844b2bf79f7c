/** How far the equality of incremental and fresh scans goes without the hypothesis `Settled`: exactly
  * to indexes the collector can hold whole. Beyond, a fresh scan of an index a build makes may skip a
  * bucket of the other null flag that the cheap pass had let in, and even the vote can turn around.
  */
module EscalationLimits {
  import opened Grid
  import opened Ranking
  import opened Layout
  import opened Collectors
  import opened Scan
  import opened ScanFacts
  import opened Tiers
  import opened Escalation
  import opened Builder
  import opened Piles
  import opened ForkedIndex
  import opened Eviction

  // --- the statement ---

  function Cheap(L: Layout, q: Vec, np: int): seq<Entry<int>>
    requires Shape(L)
  {
    ScanRange(L, q, 0, np, [], 0, 0)
  }

  function Incremental(L: Layout, q: Vec, np: int, hi: int): seq<Entry<int>>
    requires Shape(L)
  {
    ScanRange(L, q, np, hi, Cheap(L, q, np), 0, 0)
  }

  function Collected(feed: seq<Entry<int>>): seq<real> {
    Keys(Best(CAND_K, feed))
  }

  /** Incremental escalation from any probe count to any other collects what the fresh scan collects. */
  ghost predicate SameFor(L: Layout, q: Vec)
    requires Shape(L)
  {
    forall np: int, hi: int | 1 <= np <= hi :: Collected(Incremental(L, q, np, hi)) == Collected(Cheap(L, q, hi))
  }

  /** So it does on every built index of `n` rows, for every query. */
  ghost predicate AlwaysSame(n: int) {
    forall L: Layout, q: Vec | Built(L) && Shape(L) && WellFormed(q) && L.n == n :: SameFor(L, q)
  }

  lemma AlwaysSameIff(n: int)
    requires 0 <= n <= MAX_INT32
    ensures AlwaysSame(n) <==> n <= CAND_K
  {
    hide Built, Shape, WellFormed, SameFor, Fork, Piled, Crowded, Query, Arena;
    if n <= CAND_K {
      forall L: Layout, q: Vec | Built(L) && Shape(L) && WellFormed(q) && L.n == n
        ensures SameFor(L, q)
      {
        SmallSameFor(L, q);
      }
    } else {
      var L, q := Piled(Crowded(true, 1, n - 1)), Query(true);
      CrowdedIsFork(true, 1, n - 1, L, q);
      FirstDiffers(true, 1, n - 1, L, q);
      ForkArena(true, 1, n - 1, L, q);
    }
  }

  // --- small indexes ---

  /** Buckets `b`, `b + 1`, ... other than the query's own, unpruned. */
  function OthersFrom(L: Layout, q: Vec, b: nat, lo: int, hi: int): seq<Entry<int>>
    requires Shape(L) && b <= BUCKETS
    decreases BUCKETS - b
  {
    if b == BUCKETS then []
    else if b == BucketOf(q) then OthersFrom(L, q, b + 1, lo, hi)
    else Full(L, QuantizeVec(q), b, lo, hi) + OthersFrom(L, q, b + 1, lo, hi)
  }

  /** A collector with room for everything prunes nothing that holds a row. */
  lemma {:induction false} RoomyScan(L: Layout, q: Vec, b: nat, lo: int, hi: int, fed: seq<Entry<int>>, scanned: int)
    requires Shape(L) && b <= BUCKETS && |fed| + |OthersFrom(L, q, b, lo, hi)| <= CAND_K
    ensures ScanFrom(L, q, b, lo, hi, fed, scanned, 0) == fed + OthersFrom(L, q, b, lo, hi)
    decreases BUCKETS - b
  {
    hide Shape, Full, ProbeFeed, QuantizeVec, BucketOf, ScanFrom, BucketPenalty, WorstOf;
    if b == BUCKETS {
      ScanEnd(L, q, lo, hi, fed, scanned, 0);
      assert fed + [] == fed;
    } else {
      ScanStep(L, q, b, lo, hi, fed, scanned, 0);
      if b == BucketOf(q) {
        RoomyScan(L, q, b + 1, lo, hi, fed, scanned);
      } else {
        var f, rest := Full(L, QuantizeVec(q), b, lo, hi), OthersFrom(L, q, b + 1, lo, hi);
        ProbeIsPrefix(L, QuantizeVec(q), b, lo, hi, scanned, 0);
        Associate(fed, f, rest);
        if |fed| >= CAND_K {
          assert f == [] && fed + f == fed;
        }
        RoomyScan(L, q, b + 1, lo, hi, fed, scanned);
        RoomyScan(L, q, b + 1, lo, hi, fed + f, scanned + |f|);
      }
    }
  }

  lemma {:induction false} OthersSplit(L: Layout, q: Vec, b: nat, np: int, hi: int)
    requires Shape(L) && b <= BUCKETS && 1 <= np <= hi
    ensures multiset(OthersFrom(L, q, b, 0, np)) + multiset(OthersFrom(L, q, b, np, hi))
         == multiset(OthersFrom(L, q, b, 0, hi))
    decreases BUCKETS - b
  {
    hide Shape, Full, BucketOf, QuantizeVec;
    if b < BUCKETS {
      OthersSplit(L, q, b + 1, np, hi);
      if b != BucketOf(q) {
        var qc := QuantizeVec(q);
        FullSplit(L, qc, b, np, hi);
        Merge(Full(L, qc, b, 0, np), Full(L, qc, b, np, hi), Full(L, qc, b, 0, hi),
          OthersFrom(L, q, b + 1, 0, np), OthersFrom(L, q, b + 1, np, hi), OthersFrom(L, q, b + 1, 0, hi));
      }
    }
  }

  /** A probe of a bucket's first ranks feeds no more than the bucket. */
  lemma FullAtMost(L: Layout, qc: Codes, b: int, hi: int)
    requires Shape(L) && 0 <= b < BUCKETS
    ensures |L.bucketStart| == BUCKETS + 1 && |Full(L, qc, b, 0, hi)| <= L.bucketStart[b + 1] - L.bucketStart[b]
  {
    FullWithinBucket(L, qc, b, hi);
    BucketFeedSize(L, qc, b);
    hide Shape, Full, BucketFeed;
    SubsetSize(Full(L, qc, b, 0, hi), BucketFeed(L, qc, b));
  }

  lemma {:induction false} OthersAtMost(L: Layout, q: Vec, b: nat, hi: int)
    requires Shape(L) && b <= BUCKETS
    ensures |L.bucketStart| == BUCKETS + 1
    ensures |OthersFrom(L, q, b, 0, hi)|
          + (if b <= BucketOf(q) then |Full(L, QuantizeVec(q), BucketOf(q), 0, hi)| else 0)
         <= L.n - L.bucketStart[b]
    decreases BUCKETS - b
  {
    Basics(L);
    if b == BUCKETS {
      assert L.bucketStart[BUCKETS] == L.n;
    } else {
      OthersAtMost(L, q, b + 1, hi);
      FullAtMost(L, QuantizeVec(q), b, hi);
      hide Shape, Full, BucketOf, QuantizeVec;
    }
  }

  /** Everything a first-ranks scan of a small index feeds. */
  lemma SmallScan(L: Layout, q: Vec, hi: int)
    requires Shape(L) && L.n <= CAND_K
    ensures Cheap(L, q, hi) == Full(L, QuantizeVec(q), BucketOf(q), 0, hi) + OthersFrom(L, q, 0, 0, hi)
    ensures |Cheap(L, q, hi)| <= CAND_K
  {
    hide Shape, ProbeFeed, QuantizeVec, BucketOf, ScanFrom, OthersFrom;
    OthersAtMost(L, q, 0, hi);
    BucketBounds(L, 0);
    var home := Full(L, QuantizeVec(q), BucketOf(q), 0, hi);
    assert [] + home == home;
    RoomyScan(L, q, 0, 0, hi, home, |home|);
  }

  /** Incremental and fresh scans of an index the collector can hold feed the same rows. */
  lemma SmallFeedsSame(L: Layout, q: Vec, np: int, hi: int)
    requires Shape(L) && L.n <= CAND_K && 1 <= np <= hi
    ensures multiset(Incremental(L, q, np, hi)) == multiset(Cheap(L, q, hi))
    ensures |Incremental(L, q, np, hi)| == |Cheap(L, q, hi)| <= CAND_K
  {
    hide Shape, Full, QuantizeVec, BucketOf, ScanFrom, OthersFrom, Cheap;
    var qc, b0 := QuantizeVec(q), BucketOf(q);
    SmallScan(L, q, np);
    SmallScan(L, q, hi);
    OthersSplit(L, q, 0, np, hi);
    FullSplit(L, qc, b0, np, hi);
    var h0, h1, o0, o1 := Full(L, qc, b0, 0, np), Full(L, qc, b0, np, hi), OthersFrom(L, q, 0, 0, np),
      OthersFrom(L, q, 0, np, hi);
    var cheap, wide := Cheap(L, q, np), Cheap(L, q, hi);
    Merge(h0, h1, Full(L, qc, b0, 0, hi), o0, o1, OthersFrom(L, q, 0, 0, hi));
    Regrouped(h0, h1, o0, o1, wide);
    SecondTier(L, q, np, hi, cheap, h1, o1);
    SameSize(cheap + h1 + o1, wide);
  }

  lemma SmallIndexSame(L: Layout, q: Vec, np: int, hi: int)
    requires Shape(L) && L.n <= CAND_K && 1 <= np <= hi
    ensures Collected(Incremental(L, q, np, hi)) == Collected(Cheap(L, q, hi))
  {
    hide Shape, Incremental, Cheap, Best;
    SmallFeedsSame(L, q, np, hi);
    BestKeysRearranged(CAND_K, Incremental(L, q, np, hi), Cheap(L, q, hi));
  }

  lemma SmallSameFor(L: Layout, q: Vec)
    requires Shape(L) && L.n <= CAND_K
    ensures SameFor(L, q)
  {
    hide Shape, Incremental, Cheap, Collected;
    forall np: int, hi: int | 1 <= np <= hi
      ensures Collected(Incremental(L, q, np, hi)) == Collected(Cheap(L, q, hi))
    {
      SmallIndexSame(L, q, np, hi);
    }
  }

  lemma SecondTier(L: Layout, q: Vec, np: int, hi: int, cheap: seq<Entry<int>>, h1: seq<Entry<int>>,
      o1: seq<Entry<int>>)
    requires Shape(L) && cheap == Cheap(L, q, np) && h1 == Full(L, QuantizeVec(q), BucketOf(q), np, hi)
    requires o1 == OthersFrom(L, q, 0, np, hi) && |cheap| + |h1| + |o1| <= CAND_K
    ensures Incremental(L, q, np, hi) == cheap + h1 + o1
  {
    hide Shape, ProbeFeed, QuantizeVec, BucketOf, ScanFrom, OthersFrom, Cheap;
    RoomyScan(L, q, 0, np, hi, cheap + h1, |h1|);
  }

  lemma Regrouped<A>(h0: seq<A>, h1: seq<A>, o0: seq<A>, o1: seq<A>, wide: seq<A>)
    requires multiset(h0 + o0) + multiset(h1 + o1) == multiset(wide)
    ensures multiset(h0 + o0 + h1 + o1) == multiset(wide) && |h0 + o0| + |h1| + |o1| == |wide|
  {
    assert h0 + o0 + h1 + o1 == (h0 + o0) + (h1 + o1);
    assert |multiset(h0 + o0 + h1 + o1)| == |h0 + o0 + h1 + o1|;
    assert |multiset(wide)| == |wide|;
  }

  // --- what the scans do with a forked index ---

  lemma ForkArena(alone: bool, a: nat, h: nat, L: Layout, q: Vec)
    requires Fork(alone, a, h, L, q)
    ensures Shape(L) && Arena(alone, L, q) && ValidLayout(L) && Built(L) && WellFormed(q) && L.nlist == 2
      && L.n == a + h
    ensures BucketOf(q) == Home(alone) && (q[5] < 0.0) == alone
    ensures Size(L, Home(alone)) == h && Size(L, Cross(alone)) == a && Size(L, Side(alone)) == 0
  {
    hide Built, WellFormed, BucketOf, Full, GenuineEntry, ExactEntry, Sparse;
  }

  /** All ranks of the query's own bucket: its rows settle the collector. */
  lemma HomeSettles(alone: bool, a: nat, h: nat, L: Layout, q: Vec)
    requires Shape(L) && Fork(alone, a, h, L, q) && h >= CAND_K
    ensures SettledFeed(Full(L, QuantizeVec(q), Home(alone), 0, 2))
      && |Full(L, QuantizeVec(q), Home(alone), 0, 2)| >= CAND_K
  {
    hide Shape, Arena, QuantizeVec, Full, Fork, RowAway, IsFraud, Built, ValidLayout, WellFormed, BucketOf, Best;
    ForkArena(alone, a, h, L, q);
    var home := Full(L, QuantizeVec(q), Home(alone), 0, 2);
    FullSize(L, QuantizeVec(q), Home(alone), 2);
    ForkKinds(alone, a, h, L, q, 0, 2);
    LastWithin(CAND_K, home, 10000.0);
  }

  /** The probe count alone decides: both cells of the query's bucket settle the collector, one does not. */
  lemma SettledWhenWide(alone: bool, a: nat, h: nat) returns (L: Layout, q: Vec)
    requires h >= CAND_K && a + h <= MAX_INT32
    ensures Built(L) && Shape(L) && WellFormed(q) && (q[5] < 0.0) == alone && L.n == a + h
    ensures Settled(L, q, 2) && !Settled(L, q, 1)
  {
    L, q := Piled(Crowded(alone, a, h)), Query(alone);
    CrowdedIsFork(alone, a, h, L, q);
    hide Built, Piled, Crowded, Query, WellFormed, Full, SettledFeed, Shape, BucketOf, Arena;
    ForkArena(alone, a, h, L, q);
    HomeSettles(alone, a, h, L, q);
    OneSettlesNothing(Full(L, QuantizeVec(q), Home(alone), 0, 1));
  }

  lemma OneSettlesNothing(fed: seq<Entry<int>>)
    requires |fed| == 1
    ensures !SettledFeed(fed)
  {
  }

  /** The fresh wide scan never meets the other null flag. */
  lemma WideIsHome(alone: bool, a: nat, h: nat, L: Layout, q: Vec)
    requires Shape(L) && Fork(alone, a, h, L, q) && h >= CAND_K
    ensures Cheap(L, q, 2) == Full(L, QuantizeVec(q), Home(alone), 0, 2)
  {
    hide Shape, Fork, Arena, Full, SettledFeed, QuantizeVec, BucketOf, SameNull, WellFormed, ScanRange,
      BucketPenalty, WorstOf;
    ForkArena(alone, a, h, L, q);
    HomeSettles(alone, a, h, L, q);
    ForkScan(alone, a, h, L, q, 0, 2, []);
    var home := Full(L, QuantizeVec(q), Home(alone), 0, 2);
    assert [] + home == home;
    OtherFlags(alone, q);
    OtherFlagPruned(q, Cross(alone), home);
  }

  lemma OtherFlags(alone: bool, q: Vec)
    requires (q[5] < 0.0) == alone
    ensures !SameNull(q, Cross(alone)) && !SameNull(q, Side(alone)) && SameNull(q, Home(alone))
  {
  }

  lemma ForkProbes(alone: bool, a: nat, h: nat, L: Layout, q: Vec)
    requires Shape(L) && Fork(alone, a, h, L, q)
    ensures |Full(L, QuantizeVec(q), Home(alone), 0, 1)| <= 1 && |Full(L, QuantizeVec(q), Cross(alone), 0, 1)| == a
  {
    hide Shape, Arena, QuantizeVec, GenuineEntry, Full, ExactEntry;
  }

  /** The cheap pass finds at most one home row, so it lets the crowd in, before any other row. */
  lemma CheapMeetsCrowd(alone: bool, a: nat, h: nat, L: Layout, q: Vec)
    returns (home: seq<Entry<int>>, crowd: seq<Entry<int>>, after: seq<Entry<int>>)
    requires Shape(L) && Fork(alone, a, h, L, q)
    ensures Incremental(L, q, 1, 2) == home + crowd + after && |crowd| == a
    ensures forall e | e in crowd :: e.key == 2.0
  {
    hide Shape, Fork, Arena, Full, QuantizeVec, BucketOf, WellFormed, ScanRange, RowAway, IsFraud, BucketPenalty,
      WorstOf;
    home, crowd := Full(L, QuantizeVec(q), Home(alone), 0, 1), Full(L, QuantizeVec(q), Cross(alone), 0, 1);
    ForkProbes(alone, a, h, L, q);
    ForkArena(alone, a, h, L, q);
    ForkKinds(alone, a, h, L, q, 0, 1);
    ForkScan(alone, a, h, L, q, 0, 1, []);
    assert [] + home == home;
    var cheap, all := Cheap(L, q, 1), Incremental(L, q, 1, 2);
    assert cheap == home + crowd && cheap <= all;
    after := all[|home + crowd|..];
    assert all == home + crowd + after;
  }

  lemma FirstAtMost(feed: seq<Entry<int>>, e: Entry<int>)
    requires e in feed
    ensures |Collected(feed)| > 0 && Collected(feed)[0] <= e.key
  {
    SortKeeps(feed);
    assert e in multiset(Sort(feed));
    var i :| 0 <= i < |feed| && Sort(feed)[i] == e;
    assert Sort(feed)[0].key <= Sort(feed)[i].key;
  }

  /** The first kept distance is one that was fed. */
  lemma FirstWasFed(feed: seq<Entry<int>>) returns (e: Entry<int>)
    requires feed != []
    ensures e in feed && |Collected(feed)| > 0 && Collected(feed)[0] == e.key
  {
    e := Best(CAND_K, feed)[0];
    assert e in Best(CAND_K, feed);
    KeptWasFed(CAND_K, feed, e);
  }

  /** The two collectors already differ in their nearest entry: 2 against at least 100. */
  lemma FirstDiffers(alone: bool, a: nat, h: nat, L: Layout, q: Vec)
    requires Shape(L) && Fork(alone, a, h, L, q) && a >= 1 && h >= CAND_K
    ensures !SameFor(L, q)
  {
    hide Shape, Fork, QuantizeVec, Full, Incremental, Cheap, Collected, RowAway, IsFraud;
    var home, crowd, after := CheapMeetsCrowd(alone, a, h, L, q);
    assert crowd[0] in home + crowd + after;
    FirstAtMost(Incremental(L, q, 1, 2), crowd[0]);
    HomeSettles(alone, a, h, L, q);
    WideIsHome(alone, a, h, L, q);
    ForkKinds(alone, a, h, L, q, 0, 2);
    var first := FirstWasFed(Cheap(L, q, 2));
    assert Collected(Incremental(L, q, 1, 2)) != Collected(Cheap(L, q, 2));
  }

  // --- the answers ---

  /** Rank 0 first, and rank 1 as well whatever the cheap vote. */
  function TwoTier(): Knobs {
    Knobs(1, 0, 2, [2, 2, 2, 2, 2, 2], 0.0, 100.0)
  }

  lemma AlwaysEscalates(L: Layout, q: Vec, kn: Knobs)
    requires Shape(L) && kn == TwoTier()
    ensures RowTags(L, Best(CAND_K, CheapFeed(L, kn, q))) && Escalates(L, kn, q)
    ensures SearchFeed(L, kn, q) == Incremental(L, q, 1, 2)
  {
    hide Shape, ScanRange, Best, Refined;
    CheapFacts(L, kn, q);
    assert |Refined(L, q, CheapFeed(L, kn, q))| <= K by { AtMostFive(L, q, CheapFeed(L, kn, q)); }
  }

  lemma AtMostFive(L: Layout, q: Vec, fed: seq<Entry<int>>)
    requires Shape(L) && RowTags(L, Best(CAND_K, fed))
    ensures |Refined(L, q, fed)| <= K
  {
  }

  /** With 64 rows of either null flag in a built index, the escalated search reports distance 2 first and
    * five votes for fraud; one wide pass finds its nearest within 0.0001 and no vote for fraud. */
  lemma AnswersDiffer(alone: bool, a: nat, h: nat) returns (L: Layout, q: Vec)
    requires a >= CAND_K && h >= CAND_K && a + h <= MAX_INT32
    ensures Built(L) && Shape(L) && WellFormed(q) && (q[5] < 0.0) == alone && L.n == a + h
    ensures ValidKnobs(TwoTier(), L.nlist) && ValidKnobs(OneTier(), L.nlist)
    ensures StartsAt(Keys(Answer(L, TwoTier(), q)), 2.0) && FraudCount(Answer(L, TwoTier(), q)) == K
    ensures StartsWithin(Keys(Answer(L, OneTier(), q)), 0.0001) && FraudCount(Answer(L, OneTier(), q)) == 0
  {
    hide Built, Shape, Piled, Crowded, Query, Fork, Answer, StartsAt, StartsWithin, Keys, FraudCount, WellFormed,
      BucketOf, Arena, ValidKnobs, TwoTier, OneTier;
    L, q := Piled(Crowded(alone, a, h)), Query(alone);
    CrowdedIsFork(alone, a, h, L, q);
    ForkArena(alone, a, h, L, q);
    TierKnobs();
    AfterEscalation(alone, a, h, L, q, TwoTier());
    AfterWidePass(alone, a, h, L, q, OneTier());
  }

  lemma TierKnobs()
    ensures ValidKnobs(TwoTier(), 2) && ValidKnobs(OneTier(), 2)
  {
  }

  lemma AfterEscalation(alone: bool, a: nat, h: nat, L: Layout, q: Vec, kn: Knobs)
    requires Shape(L) && a >= CAND_K && Fork(alone, a, h, L, q) && kn == TwoTier()
    ensures StartsAt(Keys(Answer(L, kn, q)), 2.0) && FraudCount(Answer(L, kn, q)) == K
  {
    hide Shape, Arena, WellFormed, QuantizeVec, Full, SearchFeed, CheapFeed, Incremental, Best, Refined, Fork,
      BucketOf, Keys, StartsAt, StartsWithin, Dist2, RowAt, IsFraud, FraudCount, Genuine, GenuineEntry, Escalates,
      RowIn, Built, ValidLayout;
    ForkArena(alone, a, h, L, q);
    SearchFacts(L, kn, q);
    AlwaysEscalates(L, q, kn);
    var home, crowd, after := CheapMeetsCrowd(alone, a, h, L, q);
    CrowdBounds(CAND_K, home, crowd, after, 2.0);
    var feed := SearchFeed(L, kn, q);
    GenuineKept(L, QuantizeVec(q), CAND_K, feed);
    forall e | e in Best(CAND_K, feed)
      ensures 0 <= e.tag < L.n && Dist2(q, RowAt(L, e.tag)) == 2.0 && IsFraud(L, e.tag)
    {
      KeptGenuine(L, QuantizeVec(q), feed, e);
      ForkEntryKinds(alone, a, h, L, q, e);
    }
    RefinedAlike(L, q, feed, 2.0, true);
  }

  lemma ForkEntryKinds(alone: bool, a: nat, h: nat, L: Layout, q: Vec, e: Entry<int>)
    requires Shape(L) && Fork(alone, a, h, L, q) && GenuineEntry(L, QuantizeVec(q), e)
    ensures HomeEntry(L, q, alone, e) || CrowdEntry(L, q, alone, e)
  {
    hide Shape, Arena, QuantizeVec, GenuineEntry, HomeEntry, CrowdEntry, Full, ExactEntry;
  }

  lemma KeptGenuine(L: Layout, qc: Codes, feed: seq<Entry<int>>, e: Entry<int>)
    requires Shape(L) && Genuine(L, qc, Best(CAND_K, feed)) && e in Best(CAND_K, feed)
    ensures GenuineEntry(L, qc, e)
  {
    hide Shape, GenuineEntry;
  }

  lemma AfterWidePass(alone: bool, a: nat, h: nat, L: Layout, q: Vec, kn: Knobs)
    requires Shape(L) && h >= CAND_K && Fork(alone, a, h, L, q) && kn == OneTier()
    ensures StartsWithin(Keys(Answer(L, kn, q)), 0.0001) && FraudCount(Answer(L, kn, q)) == 0
  {
    hide Shape, Arena, WellFormed, QuantizeVec, Full, Best, Refined, Fork, Answer, SearchFeed, BucketOf, RowIn,
      Built, Keys, StartsAt, StartsWithin, Dist2, RowAt, IsFraud, FraudCount, Genuine, GenuineEntry, ScanRange,
      ValidLayout;
    ForkArena(alone, a, h, L, q);
    SearchIsCheap(L, kn, q);
    HomeSettles(alone, a, h, L, q);
    WideIsHome(alone, a, h, L, q);
    ForkKinds(alone, a, h, L, q, 0, 2);
    var feed := Cheap(L, q, 2);
    assert CheapFeed(L, kn, q) == feed;
    hide Cheap, CheapFeed;
    forall e | e in Best(CAND_K, feed)
      ensures 0 <= e.tag < L.n && Dist2(q, RowAt(L, e.tag)) <= 0.0001 && !IsFraud(L, e.tag)
    {
      KeptWasFed(CAND_K, feed, e);
    }
    RefinedAlike(L, q, feed, 0.0001, false);
  }
}
