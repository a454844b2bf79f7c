/** The integer metric charges a null mismatch as little as 2 where the exact metric charges 2.0
  * (2e8 in its units), so 64 rows of the other null flag can push a true neighbour out of the
  * collector even when every cell is scanned. Hence the size bound of SmallIndexExact is sharp, and
  * it is sharp on indexes a build makes.
  */
module Eviction {
  import opened Grid
  import opened Ranking
  import opened Layout
  import opened Collectors
  import opened Scan
  import opened ScanFacts
  import opened Tiers
  import opened Exactness
  import opened Builder
  import opened Piles
  import opened ForkedIndex

  // --- the statement ---

  /** Every cell of every admitted bucket is scanned, without a cap. */
  ghost predicate FullSearch(L: Layout, kn: Knobs, q: Vec) {
    && ValidLayout(L) && ValidKnobs(kn, L.nlist) && WellFormed(q)
    && kn.maxScan == 0 && kn.nprobe == L.nlist && L.nlist <= MAX_PROBE
  }

  function Answer(L: Layout, kn: Knobs, q: Vec): seq<Entry<bool>>
    requires Shape(L) && |kn.highByCount| == K + 1
  {
    SearchFacts(L, kn, q);
    Refined(L, q, SearchFeed(L, kn, q))
  }

  /** Every full search of every built index of `n` rows reports the brute-force distances. */
  ghost predicate AlwaysExact(n: int) {
    forall L: Layout, kn: Knobs, q: Vec | Built(L) && FullSearch(L, kn, q) && L.n == n ::
      Keys(Answer(L, kn, q)) == Keys(Brute(L, q))
  }

  /** A full search is exact for every built index of `n` rows and every query if and only if the
    * collector can hold all `n` rows. */
  lemma AlwaysExactIff(n: int)
    requires 0 <= n <= MAX_INT32
    ensures AlwaysExact(n) <==> n <= CAND_K
  {
    hide Built, Brute, Answer, Keys, Query, Crowded, Piled;
    if n <= CAND_K {
      forall L: Layout, kn: Knobs, q: Vec | Built(L) && FullSearch(L, kn, q) && L.n == n
        ensures Keys(Answer(L, kn, q)) == Keys(Brute(L, q))
      {
        SmallFullSearch(L, kn, q);
      }
    } else {
      var L, kn, q := Piled(Crowded(true, n - 1, 1)), OneTier(), Query(true);
      CrowdedIsFork(true, n - 1, 1, L, q);
      ArenaSearched(true, L, q);
      Evicted(true, n, L, kn, q);
      assert Built(L) && FullSearch(L, kn, q) && L.n == n;
    }
  }

  lemma SmallFullSearch(L: Layout, kn: Knobs, q: Vec)
    requires FullSearch(L, kn, q) && L.n <= CAND_K
    ensures Keys(Answer(L, kn, q)) == Keys(Brute(L, q))
  {
    hide Shape, WellFormed, CheapFeed, SearchFeed, Brute, Refined;
    SearchFacts(L, kn, q);
    SmallIndexExact(L, kn, q);
  }

  // --- crowds ---

  /** k entries within `t` anywhere in the feed bring every kept distance within `t`. */
  lemma CrowdBounds<T>(k: nat, before: seq<Entry<T>>, crowd: seq<Entry<T>>, after: seq<Entry<T>>, t: real)
    requires 0 < k <= |crowd| && forall e | e in crowd :: e.key <= t
    ensures forall i | 0 <= i < k :: Best(k, before + crowd + after)[i].key <= t
  {
    LastWithin(k, crowd, t);
    hide Best;
    BestNeverRises(k, crowd, before);
    BestKeysRearranged(k, crowd + before, before + crowd);
    assert Keys(Best(k, crowd + before))[k - 1] == Keys(Best(k, before + crowd))[k - 1];
    BestNeverRises(k, before + crowd, after);
    BestSorted(k, before + crowd + after);
  }

  lemma LastWithin<T>(k: nat, crowd: seq<Entry<T>>, t: real)
    requires 0 < k <= |crowd| && forall e | e in crowd :: e.key <= t
    ensures Best(k, crowd)[k - 1].key <= t
  {
    SortKeeps(crowd);
    assert Sort(crowd)[k - 1] in multiset(Sort(crowd));
    assert Sort(crowd)[k - 1] in crowd;
  }

  lemma KeptWasFed<T>(k: nat, feed: seq<Entry<T>>, e: Entry<T>)
    requires e in Best(k, feed)
    ensures e in feed
  {
    BestSorted(k, feed);
    assert e in multiset(Best(k, feed));
  }

  /** One tier that probes both cells of a bucket. */
  function OneTier(): Knobs {
    Knobs(2, 0, 0, [0, 0, 0, 0, 0, 0], 0.0, 0.0)
  }

  lemma ArenaSearched(alone: bool, L: Layout, q: Vec)
    requires Shape(L) && Arena(alone, L, q)
    ensures FullSearch(L, OneTier(), q)
  {
    hide ValidLayout, WellFormed, Built, Sparse;
  }

  /** All ranks of a bucket feed as many rows as it has. */
  lemma FullSize(L: Layout, qc: Codes, b: int, hi: int)
    requires Shape(L) && L.nlist <= hi && L.nlist <= MAX_PROBE && 0 <= b < BUCKETS
    ensures |L.bucketStart| == BUCKETS + 1 && |Full(L, qc, b, 0, hi)| == L.bucketStart[b + 1] - L.bucketStart[b]
  {
    FullWithinBucket(L, qc, b, hi);
    BucketFeedSize(L, qc, b);
    hide Shape, Full, BucketFeed;
    SameSize(Full(L, qc, b, 0, hi), BucketFeed(L, qc, b));
  }

  /** What is fed from a bucket are genuine entries of its rows. */
  lemma FullGenuine(L: Layout, qc: Codes, b: int, lo: int, hi: int, e: Entry<int>)
    requires Shape(L) && 0 <= b < BUCKETS && e in Full(L, qc, b, lo, hi)
    ensures RowIn(L, b, e.tag) && GenuineEntry(L, qc, e)
  {
    ProbeOfBucket(L, qc, b, lo, hi, 0, 0);
    GenuineProbe(L, qc, b, lo, hi, 0, 0);
    hide Shape, Full, RowIn, RowEntry;
    assert EntryOf(L, qc, b, e);
  }

  /** A scan of a forked index: the home bucket, then the other null flag unless pruned. */
  lemma ForkScan(alone: bool, a: nat, h: nat, L: Layout, q: Vec, lo: int, hi: int, fed: seq<Entry<int>>)
    requires Shape(L) && Fork(alone, a, h, L, q)
    ensures ScanRange(L, q, lo, hi, fed, 0, 0)
         == Fed(L, q, Cross(alone), lo, hi, fed + Full(L, QuantizeVec(q), Home(alone), lo, hi))
  {
    hide Shape, ValidLayout, Built, WellFormed, BucketOf, Full, Fed, QuantizeVec, ScanRange, ExactEntry;
    ScanOfThree(alone, L, q, lo, hi, fed, 0);
    var cross := Fed(L, q, Cross(alone), lo, hi, fed + Full(L, QuantizeVec(q), Home(alone), lo, hi));
    FedNothing(L, q, Side(alone), lo, hi, cross);
  }

  /** The crowd is at integer distance 2, and all rows of the query's bucket are farther. */
  lemma ForkKinds(alone: bool, a: nat, h: nat, L: Layout, q: Vec, lo: int, hi: int)
    requires Shape(L) && Fork(alone, a, h, L, q)
    ensures forall e | e in Full(L, QuantizeVec(q), Cross(alone), lo, hi) :: CrowdEntry(L, q, alone, e)
    ensures forall e | e in Full(L, QuantizeVec(q), Home(alone), lo, hi) :: HomeEntry(L, q, alone, e)
  {
    hide Shape, Arena, Full, QuantizeVec, GenuineEntry, ExactEntry, Dist2, IsFraud;
    forall e | e in Full(L, QuantizeVec(q), Cross(alone), lo, hi)
      ensures CrowdEntry(L, q, alone, e)
    {
      FullGenuine(L, QuantizeVec(q), Cross(alone), lo, hi, e);
      OneBucket(L, alone, e.tag);
    }
    forall e | e in Full(L, QuantizeVec(q), Home(alone), lo, hi)
      ensures HomeEntry(L, q, alone, e)
    {
      FullGenuine(L, QuantizeVec(q), Home(alone), lo, hi, e);
      OneBucket(L, alone, e.tag);
    }
  }

  lemma OneBucket(L: Layout, alone: bool, r: int)
    requires Shape(L)
    ensures !(RowIn(L, Home(alone), r) && RowIn(L, Cross(alone), r))
    ensures !(RowIn(L, Home(alone), r) && RowIn(L, Side(alone), r))
      && !(RowIn(L, Cross(alone), r) && RowIn(L, Side(alone), r))
  {
  }

  /** All kept rows are of the crowd: every kept integer distance is at most 2. */
  lemma KeptAreCrowd(alone: bool, n: int, L: Layout, q: Vec)
    requires Shape(L) && CAND_K < n && Fork(alone, n - 1, 1, L, q)
    ensures var kept := Best(CAND_K, CheapFeed(L, OneTier(), q));
      |kept| == CAND_K && forall i | 0 <= i < CAND_K :: kept[i].key <= 2.0
  {
    hide Shape, ValidLayout, Built, WellFormed, QuantizeVec, BucketOf, Full, IsFraud, ScanRange, ExactEntry,
      GenuineEntry, Dist2, RowAt, RowIn;
    var qc := QuantizeVec(q);
    FullSize(L, qc, Home(alone), 2);
    FullSize(L, qc, Cross(alone), 2);
    ForkKinds(alone, n - 1, 1, L, q, 0, 2);
    ForkScan(alone, n - 1, 1, L, q, 0, 2, []);
    var home, crowd := Full(L, qc, Home(alone), 0, 2), Full(L, qc, Cross(alone), 0, 2);
    assert [] + home == home && home + crowd + [] == home + crowd;
    CrowdBounds(CAND_K, home, crowd, [], 2.0);
  }

  // --- answers ---

  predicate StartsAt(s: seq<real>, d: real) {
    s != [] && s[0] == d
  }

  predicate StartsWithin(s: seq<real>, d: real) {
    s != [] && s[0] <= d
  }

  /** Refining rows that all are at distance `d` reports `d` first; rows within `d`, at most `d`; rows
    * with the same label vote alike. */
  lemma RefinedAlike(L: Layout, q: Vec, feed: seq<Entry<int>>, d: real, fraud: bool)
    requires Shape(L) && WellFormed(q) && RowTags(L, Best(CAND_K, feed)) && |feed| >= K
    requires forall e | e in Best(CAND_K, feed) :: 0 <= e.tag < L.n && Dist2(q, RowAt(L, e.tag)) <= d
    requires forall e | e in Best(CAND_K, feed) :: 0 <= e.tag < L.n && IsFraud(L, e.tag) == fraud
    ensures StartsWithin(Keys(Refined(L, q, feed)), d)
    ensures (forall e | e in Best(CAND_K, feed) :: Dist2(q, RowAt(L, e.tag)) == d)
      ==> StartsAt(Keys(Refined(L, q, feed)), d)
    ensures FraudCount(Refined(L, q, feed)) == if fraud then K else 0
  {
    hide Shape, WellFormed, Dist2, RowAt, IsFraud, Best, Visible, FraudCount;
    var kept := Best(CAND_K, feed);
    assert forall i | 0 <= i < |kept| :: kept[i] in kept;
    WellFormedSeesAll(L, q);
    var refine := RefineFeed(L, q, kept);
    var best := Best(K, refine);
    assert Refined(L, q, feed) == best;
    forall e | e in best
      ensures e.key <= d && e.tag == fraud
      ensures (forall x | x in kept :: Dist2(q, RowAt(L, x.tag)) == d) ==> e.key == d
    {
      KeptWasFed(K, refine, e);
      var i :| 0 <= i < |refine| && refine[i] == e;
      assert kept[i] in kept;
    }
    assert best[0] in best;
    VotesAlike(best, fraud);
  }

  lemma {:induction false} VotesAlike(s: seq<Entry<bool>>, fraud: bool)
    requires forall e | e in s :: e.tag == fraud
    ensures FraudCount(s) == if fraud then |s| else 0
  {
    if s != [] {
      assert s[|s| - 1] in s;
      VotesAlike(s[..|s| - 1], fraud);
    }
  }

  lemma NoEscalation(L: Layout, kn: Knobs, q: Vec)
    requires Shape(L) && |kn.highByCount| == K + 1 && kn.nprobe >= 1 && kn.nprobeHigh == 0
    requires forall c | 0 <= c <= K :: kn.highByCount[c] == 0
    requires RowTags(L, Best(CAND_K, CheapFeed(L, kn, q)))
    ensures SearchFeed(L, kn, q) == CheapFeed(L, kn, q)
  {
    hide Shape, CheapFeed, Refined, ShouldEscalate, FraudCount, ScanRange, Best;
  }

  lemma SearchIsCheap(L: Layout, kn: Knobs, q: Vec)
    requires Shape(L) && kn == OneTier()
    ensures RowTags(L, Best(CAND_K, CheapFeed(L, kn, q)))
      && Genuine(L, QuantizeVec(q), Best(CAND_K, CheapFeed(L, kn, q)))
    ensures Answer(L, kn, q) == Refined(L, q, CheapFeed(L, kn, q))
  {
    hide Shape, CheapFeed, SearchFeed, Refined, Best;
    CheapFacts(L, kn, q);
    GenuineKept(L, QuantizeVec(q), CAND_K, CheapFeed(L, kn, q));
    NoEscalation(L, kn, q);
  }

  lemma BruteFindsNearest(L: Layout, q: Vec, r: int)
    requires Shape(L) && WellFormed(q) && 0 <= r < L.n
    ensures StartsWithin(Keys(Brute(L, q)), ExactEntry(L, q, r).key)
  {
    hide Shape, ExactEntry, WellFormed, Visible;
    WellFormedSeesAll(L, q);
    var feed := BruteFeed(L, q);
    SortKeeps(feed);
    assert feed[r] in multiset(Sort(feed));
    var i :| 0 <= i < |feed| && Sort(feed)[i] == feed[r];
    assert Sort(feed)[0].key <= Sort(feed)[i].key;
  }

  /** The true nearest neighbour, a kilometre away, is lost: the search reports distance 2 first. */
  lemma Evicted(alone: bool, n: int, L: Layout, kn: Knobs, q: Vec)
    requires Shape(L) && CAND_K < n && Fork(alone, n - 1, 1, L, q) && kn == OneTier()
    ensures StartsAt(Keys(Answer(L, kn, q)), 2.0) && StartsWithin(Keys(Brute(L, q)), 0.000001)
    ensures Keys(Answer(L, kn, q)) != Keys(Brute(L, q))
  {
    hide Shape, CheapFeed, Brute, Refined, Keys, Best, Dist2, RowAt, IsFraud, QuantizeVec, GenuineEntry, Answer,
      RowIn, Full, ExactEntry, WellFormed, ValidLayout, Built, BucketOf;
    Basics(L);
    BruteFindsNearest(L, q, L.bucketStart[Home(alone)]);
    SearchIsCheap(L, kn, q);
    KeptAreCrowd(alone, n, L, q);
    var kept := Best(CAND_K, CheapFeed(L, kn, q));
    forall e | e in kept
      ensures 0 <= e.tag < L.n && Dist2(q, RowAt(L, e.tag)) == 2.0 && IsFraud(L, e.tag)
    {
      assert GenuineEntry(L, QuantizeVec(q), e);
    }
    FeedLongEnough(CheapFeed(L, kn, q));
    RefinedAlike(L, q, CheapFeed(L, kn, q), 2.0, true);
  }

  lemma FeedLongEnough(feed: seq<Entry<int>>)
    requires |Best(CAND_K, feed)| == CAND_K
    ensures |feed| >= CAND_K
  {
  }
}
