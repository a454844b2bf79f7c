/** The exact limits of escalation, read off the index: with `h` rows of the query's null flag and `o` of the
  * other, incremental and fresh scans always collect the same if and only if there are none of the other or
  * the collector can hold all. The reported distances fare no better.
  */
module FlagLimits {
  import opened Grid
  import opened Ranking
  import opened Layout
  import opened Collectors
  import opened Scan
  import opened ScanFacts
  import opened Tiers
  import opened Escalation
  import opened Builder
  import opened Piles
  import opened ForkedIndex
  import opened Eviction
  import opened EscalationLimits

  // --- the statements ---

  /** The rows without a last transaction (`alone`), or with one, in the buckets below `b`. */
  function RowsOf(L: Layout, alone: bool, b: nat): int
    requires Shape(L) && b <= BUCKETS
  {
    if b == 0 then 0 else RowsOf(L, alone, b - 1) + if ((b - 1) % 2 == 1) == alone then Size(L, b - 1) else 0
  }

  /** Escalation collects what a fresh scan collects on every built index with `h` rows of one null flag and
    * `o` of the other, for every query of the first. */
  ghost predicate SameWith(alone: bool, h: int, o: int) {
    forall L: Layout, q: Vec |
      Built(L) && Shape(L) && WellFormed(q) && (q[5] < 0.0) == alone
      && RowsOf(L, alone, BUCKETS) == h && RowsOf(L, !alone, BUCKETS) == o :: SameFor(L, q)
  }

  lemma SameWithIff(alone: bool, h: int, o: int)
    requires 0 <= h && 0 <= o && h + o <= MAX_INT32
    ensures SameWith(alone, h, o) <==> o == 0 || h + o <= CAND_K
  {
    hide Built, Shape, WellFormed, SameFor, RowsOf, Piled, Crowded, Beside, Query, Fork, Flank;
    if o == 0 || h + o <= CAND_K {
      forall L: Layout, q: Vec |
        Built(L) && Shape(L) && WellFormed(q) && (q[5] < 0.0) == alone
        && RowsOf(L, alone, BUCKETS) == h && RowsOf(L, !alone, BUCKETS) == o
        ensures SameFor(L, q)
      {
        SameWithin(alone, h, o, L, q);
      }
    } else {
      var L, q := DiffersWith(alone, h, o);
    }
  }

  /** The five distances that are reported after escalating from `np` cells to `hi`. */
  function Escalated(L: Layout, q: Vec, np: int, hi: int): seq<real>
    requires Shape(L)
  {
    IncrementalTags(L, q, np, hi);
    Keys(Refined(L, q, Incremental(L, q, np, hi)))
  }

  /** The five that one pass over `hi` cells reports. */
  function Fresh(L: Layout, q: Vec, hi: int): seq<real>
    requires Shape(L)
  {
    CheapTags(L, q, hi);
    Keys(Refined(L, q, Cheap(L, q, hi)))
  }

  ghost predicate SameAnswers(L: Layout, q: Vec)
    requires Shape(L)
  {
    forall np: int, hi: int | 1 <= np <= hi :: Escalated(L, q, np, hi) == Fresh(L, q, hi)
  }

  ghost predicate AlwaysSameAnswers(n: int) {
    forall L: Layout, q: Vec | Built(L) && Shape(L) && WellFormed(q) && L.n == n :: SameAnswers(L, q)
  }

  /** The reported distances, too, are those of a fresh scan for all built indexes of `n` rows and all queries
    * if and only if the collector can hold all rows. */
  lemma AlwaysSameAnswersIff(n: int)
    requires 0 <= n <= MAX_INT32
    ensures AlwaysSameAnswers(n) <==> n <= CAND_K
  {
    hide Built, Shape, WellFormed, SameAnswers, Piled, Beside, Query, Flank, Arena;
    if n <= CAND_K {
      forall L: Layout, q: Vec | Built(L) && Shape(L) && WellFormed(q) && L.n == n
        ensures SameAnswers(L, q)
      {
        SmallAnswers(L, q);
      }
    } else {
      var L, q := Piled(Beside(true, 0, n - 1)), Query(true);
      BesideIsFlank(true, 0, n - 1, L, q);
      FlankArena(true, 0, n - 1, L, q);
      AnswersMove(true, n - 1, L, q);
    }
  }

  lemma CheapTags(L: Layout, q: Vec, hi: int)
    requires Shape(L)
    ensures Genuine(L, QuantizeVec(q), Cheap(L, q, hi))
    ensures RowTags(L, Best(CAND_K, Cheap(L, q, hi))) && Genuine(L, QuantizeVec(q), Best(CAND_K, Cheap(L, q, hi)))
  {
    hide Shape, ScanRange, Best;
    GenuineScan(L, q, 0, hi, [], 0, 0);
    GenuineKept(L, QuantizeVec(q), CAND_K, Cheap(L, q, hi));
  }

  lemma IncrementalTags(L: Layout, q: Vec, np: int, hi: int)
    requires Shape(L)
    ensures RowTags(L, Best(CAND_K, Incremental(L, q, np, hi)))
    ensures Genuine(L, QuantizeVec(q), Best(CAND_K, Incremental(L, q, np, hi)))
  {
    hide Shape, ScanRange, Best;
    CheapTags(L, q, np);
    GenuineScan(L, q, np, hi, Cheap(L, q, np), 0, 0);
    GenuineKept(L, QuantizeVec(q), CAND_K, Incremental(L, q, np, hi));
  }

  // --- counting rows by their null flag ---

  lemma {:induction false} AllRows(L: Layout, alone: bool, b: nat)
    requires Shape(L) && b <= BUCKETS
    ensures |L.bucketStart| == BUCKETS + 1 && RowsOf(L, alone, b) + RowsOf(L, !alone, b) == L.bucketStart[b]
  {
    Basics(L);
    if b == 0 {
      assert L.bucketStart[0] == 0;
    } else {
      hide Shape;
      AllRows(L, alone, b - 1);
    }
  }

  lemma {:induction false} NoRows(L: Layout, alone: bool, b: nat)
    requires Shape(L) && b <= BUCKETS
    ensures 0 <= RowsOf(L, alone, b)
    ensures RowsOf(L, alone, b) == 0 ==> forall c | 0 <= c < b && (c % 2 == 1) == alone :: Empty(L, c)
  {
    if b > 0 {
      NoRows(L, alone, b - 1);
      BucketBounds(L, b - 1);
      hide Shape;
    }
  }

  lemma {:induction false} SparseRows(L: Layout, alone: bool, b: nat)
    requires Shape(L) && Sparse(L, alone) && b <= BUCKETS
    ensures RowsOf(L, alone, b) == if b <= Home(alone) then 0 else Size(L, Home(alone))
    ensures RowsOf(L, !alone, b) == (if b <= Cross(alone) then 0 else Size(L, Cross(alone)))
                                  + (if b <= Side(alone) then 0 else Size(L, Side(alone)))
  {
    hide Shape;
    if b > 0 {
      SparseRows(L, alone, b - 1);
      assert b - 1 != Home(alone) && b - 1 != Cross(alone) && b - 1 != Side(alone) ==> Empty(L, b - 1);
    }
  }

  // --- where they agree ---

  lemma SameWithin(alone: bool, h: int, o: int, L: Layout, q: Vec)
    requires Built(L) && Shape(L) && WellFormed(q) && (q[5] < 0.0) == alone && (o == 0 || h + o <= CAND_K)
    requires RowsOf(L, alone, BUCKETS) == h && RowsOf(L, !alone, BUCKETS) == o
    ensures SameFor(L, q)
  {
    AllRows(L, alone, BUCKETS);
    assert L.bucketStart[BUCKETS] == L.n;
    hide Shape, Built, WellFormed, RowsOf, Collected, Cheap, Incremental;
    if L.n <= CAND_K {
      SmallSameFor(L, q);
    } else {
      BuiltValid(L);
      NoRows(L, !alone, BUCKETS);
      FlagFree(alone, L, q);
      forall np: int, hi: int | 1 <= np <= hi
        ensures Collected(Incremental(L, q, np, hi)) == Collected(Cheap(L, q, hi))
      {
        OneFlagSame(L, q, np, hi);
      }
    }
  }

  lemma FlagFree(alone: bool, L: Layout, q: Vec)
    requires Shape(L) && (q[5] < 0.0) == alone && forall c | 0 <= c < BUCKETS && (c % 2 == 1) == !alone :: Empty(L, c)
    ensures OneFlag(L, q)
  {
    hide Shape;
    forall b | 0 <= b < BUCKETS && !SameNull(q, b)
      ensures Empty(L, b)
    {
      assert b / 1 == b;
    }
  }

  lemma OneFlagSame(L: Layout, q: Vec, np: int, hi: int)
    requires Shape(L) && ValidLayout(L) && WellFormed(q) && OneFlag(L, q) && 1 <= np <= hi
    ensures Collected(Incremental(L, q, np, hi)) == Collected(Cheap(L, q, hi))
  {
    hide Shape, ValidLayout, WellFormed, OneFlag, ScanRange, Best;
    IncrementalEqualsFresh(L, q, np, hi);
  }

  lemma SmallAnswers(L: Layout, q: Vec)
    requires Shape(L) && L.n <= CAND_K
    ensures SameAnswers(L, q)
  {
    hide Shape, Cheap, Incremental, Best, Refined, Keys;
    forall np: int, hi: int | 1 <= np <= hi
      ensures Escalated(L, q, np, hi) == Fresh(L, q, hi)
    {
      IncrementalTags(L, q, np, hi);
      CheapTags(L, q, hi);
      SmallFeedsSame(L, q, np, hi);
      WholeKept(CAND_K, Incremental(L, q, np, hi));
      WholeKept(CAND_K, Cheap(L, q, hi));
      SameRowsSameAnswer(L, q, Incremental(L, q, np, hi), Cheap(L, q, hi));
    }
  }

  // --- where they differ ---

  lemma DiffersWith(alone: bool, h: int, o: int) returns (L: Layout, q: Vec)
    requires 0 <= h && 1 <= o && CAND_K < h + o <= MAX_INT32
    ensures Built(L) && Shape(L) && WellFormed(q) && (q[5] < 0.0) == alone
    ensures RowsOf(L, alone, BUCKETS) == h && RowsOf(L, !alone, BUCKETS) == o && !SameFor(L, q)
  {
    hide Built, Shape, WellFormed, SameFor, RowsOf, Piled, Crowded, Beside, Query, Fork, Flank, BucketOf, Sparse;
    q := Query(alone);
    if h >= CAND_K {
      L := Piled(Crowded(alone, o, h));
      CrowdedIsFork(alone, o, h, L, q);
      ForkArena(alone, o, h, L, q);
      FirstDiffers(alone, o, h, L, q);
    } else {
      L := Piled(Beside(alone, h, o - 1));
      BesideIsFlank(alone, h, o - 1, L, q);
      FlankArena(alone, h, o - 1, L, q);
      KeptDiffers(alone, h, o - 1, L, q);
    }
    SparseRows(L, alone, BUCKETS);
  }

  lemma FlankArena(alone: bool, h: nat, x: nat, L: Layout, q: Vec)
    requires Flank(alone, h, x, L, q)
    ensures Shape(L) && Arena(alone, L, q) && ValidLayout(L) && Built(L) && WellFormed(q) && L.nlist == 2
      && L.n == h + x + 1
    ensures BucketOf(q) == Home(alone) && (q[5] < 0.0) == alone && BucketPenalty(q, Side(alone)) == 3.0
      && Sparse(L, alone)
    ensures Size(L, Home(alone)) == h && Size(L, Cross(alone)) == x && Size(L, Side(alone)) == 1
  {
    hide Built, WellFormed, BucketOf, Full, GenuineEntry, Sparse, BucketPenalty;
  }

  lemma FlankProbes(alone: bool, h: nat, x: nat, L: Layout, q: Vec)
    requires Shape(L) && Flank(alone, h, x, L, q)
    ensures var qc := QuantizeVec(q);
      && |Full(L, qc, Home(alone), 0, 1)| <= 1 && |Full(L, qc, Cross(alone), 0, 1)| <= 1
      && |Full(L, qc, Side(alone), 0, 1)| == 1
  {
    hide Shape, Arena, QuantizeVec, GenuineEntry, Full, BucketPenalty;
  }

  lemma FlankEntry(alone: bool, h: nat, x: nat, L: Layout, q: Vec, e: Entry<int>)
    requires Shape(L) && Flank(alone, h, x, L, q) && GenuineEntry(L, QuantizeVec(q), e)
    ensures HomeEntry(L, q, alone, e) || FarEntry(L, q, alone, e) || AsideEntry(L, q, alone, e)
  {
    hide Shape, Arena, QuantizeVec, GenuineEntry, HomeEntry, FarEntry, AsideEntry, Full, BucketPenalty;
  }

  lemma FlankKinds(alone: bool, h: nat, x: nat, L: Layout, q: Vec, lo: int, hi: int)
    requires Shape(L) && Flank(alone, h, x, L, q)
    ensures forall e | e in Full(L, QuantizeVec(q), Home(alone), lo, hi) :: HomeEntry(L, q, alone, e)
    ensures forall e | e in Full(L, QuantizeVec(q), Cross(alone), lo, hi) :: FarEntry(L, q, alone, e)
    ensures forall e | e in Full(L, QuantizeVec(q), Side(alone), lo, hi) :: AsideEntry(L, q, alone, e)
  {
    hide Shape, Flank, Full, QuantizeVec, GenuineEntry, Dist2, IsFraud, RowIn;
    forall e, b | b in [Home(alone), Cross(alone), Side(alone)] && e in Full(L, QuantizeVec(q), b, lo, hi)
      ensures if b == Home(alone) then HomeEntry(L, q, alone, e) else if b == Cross(alone) then FarEntry(L, q, alone, e)
              else AsideEntry(L, q, alone, e)
    {
      FullGenuine(L, QuantizeVec(q), b, lo, hi, e);
      OneBucket(L, alone, e.tag);
      FlankEntry(alone, h, x, L, q, e);
    }
    var three := [Home(alone), Cross(alone), Side(alone)];
    assert three[0] in three && three[1] in three && three[2] in three;
  }

  /** One cell a bucket leaves the collector room for all three. */
  lemma FlankCheap(alone: bool, h: nat, x: nat, L: Layout, q: Vec)
    requires Shape(L) && Flank(alone, h, x, L, q)
    ensures var qc := QuantizeVec(q);
      Cheap(L, q, 1)
      == Full(L, qc, Home(alone), 0, 1) + Full(L, qc, Cross(alone), 0, 1) + Full(L, qc, Side(alone), 0, 1)
  {
    hide Shape, Flank, Arena, Full, QuantizeVec, BucketOf, WellFormed, ScanRange, BucketPenalty, WorstOf, Sparse;
    FlankArena(alone, h, x, L, q);
    FlankProbes(alone, h, x, L, q);
    ScanOfThree(alone, L, q, 0, 1, [], 0);
    var home := Full(L, QuantizeVec(q), Home(alone), 0, 1);
    assert [] + home == home;
  }

  /** Two cells a bucket fill the collector before the row aside is reached, and it is pruned. */
  lemma FlankWide(alone: bool, h: nat, x: nat, L: Layout, q: Vec)
    requires Shape(L) && Flank(alone, h, x, L, q) && h < CAND_K <= h + x
    ensures var qc := QuantizeVec(q);
      && |Full(L, qc, Home(alone), 0, 2)| == h && |Full(L, qc, Cross(alone), 0, 2)| == x
      && Cheap(L, q, 2) == Full(L, qc, Home(alone), 0, 2) + Full(L, qc, Cross(alone), 0, 2)
  {
    hide Shape, Flank, Arena, Full, QuantizeVec, BucketOf, WellFormed, ScanRange, BucketPenalty, Sparse, RowAway,
      IsFraud, Best;
    FlankArena(alone, h, x, L, q);
    FullSize(L, QuantizeVec(q), Home(alone), 2);
    FullSize(L, QuantizeVec(q), Cross(alone), 2);
    ScanOfThree(alone, L, q, 0, 2, [], 0);
    FlankKinds(alone, h, x, L, q, 0, 2);
    var home, cross := Full(L, QuantizeVec(q), Home(alone), 0, 2), Full(L, QuantizeVec(q), Cross(alone), 0, 2);
    assert [] + home == home;
    LastWithin(CAND_K, home + cross, 149_000_002.0);
  }

  /** If only entries of `a` are below `t`, no more than |a| of the smallest are. */
  lemma LowCount(a: seq<Entry<int>>, b: seq<Entry<int>>, t: real, j: nat)
    requires j <= |Sort(a + b)| && forall e | e in b :: e.key >= t
    requires forall i | 0 <= i < j :: Sort(a + b)[i].key < t
    ensures j <= |a|
  {
    var s := Sort(a + b);
    SortKeeps(a + b);
    hide Sort;
    var low := s[..j];
    assert s == low + s[j..];
    assert multiset(s) == multiset(a) + multiset(b);
    assert multiset(s) == multiset(low) + multiset(s[j..]);
    forall e | e in multiset(low)
      ensures multiset(low)[e] <= multiset(a)[e]
    {
      assert e in low;
      assert multiset(b)[e] == 0;
      assert multiset(s)[e] == multiset(a)[e];
    }
    assert multiset(low) <= multiset(a);
    SubsetSize(low, a);
  }

  lemma LowPrefix(a: seq<Entry<int>>, b: seq<Entry<int>>, t: real)
    requires b != [] && forall e | e in b :: e.key >= t
    ensures |a| < |Sort(a + b)| && Sort(a + b)[|a|].key >= t
  {
    SortKeeps(a + b);
    if Sort(a + b)[|a|].key < t {
      LowCount(a, b, t, |a| + 1);
    }
  }

  /** The fresh scan keeps the `h` home rows and then rows far across. */
  lemma FreshNext(alone: bool, h: nat, x: nat, L: Layout, q: Vec)
    requires Shape(L) && Flank(alone, h, x, L, q) && h < CAND_K <= h + x
    ensures |Collected(Cheap(L, q, 2))| == CAND_K && Collected(Cheap(L, q, 2))[h] >= 136_000_002.0
  {
    hide Shape, Flank, Full, QuantizeVec, Cheap, RowAway, IsFraud, Sort;
    FlankWide(alone, h, x, L, q);
    FlankKinds(alone, h, x, L, q, 0, 2);
    var home, cross := Full(L, QuantizeVec(q), Home(alone), 0, 2), Full(L, QuantizeVec(q), Cross(alone), 0, 2);
    LowPrefix(home, cross, 136_000_002.0);
  }

  /** The escalated scan, as far as the home cells of the second tier. */
  lemma EscalatedStart(alone: bool, h: nat, x: nat, L: Layout, q: Vec) returns (rest: seq<Entry<int>>)
    requires Shape(L) && Flank(alone, h, x, L, q)
    ensures var qc := QuantizeVec(q);
      var cheap := Full(L, qc, Home(alone), 0, 1) + Full(L, qc, Cross(alone), 0, 1) + Full(L, qc, Side(alone), 0, 1);
      Incremental(L, q, 1, 2) == cheap + Full(L, qc, Home(alone), 1, 2) + rest
  {
    hide Shape, Flank, Arena, Full, QuantizeVec, BucketOf, WellFormed, ScanRange, BucketPenalty, Sparse, Fed, Cheap,
      Incremental;
    FlankArena(alone, h, x, L, q);
    FlankCheap(alone, h, x, L, q);
    HomeNext(L, q, alone, Cheap(L, q, 1));
    var start, all := Cheap(L, q, 1) + Full(L, QuantizeVec(q), Home(alone), 1, 2), Incremental(L, q, 1, 2);
    rest := all[|start|..];
    assert all == start + rest;
  }

  /** The home rows and the one aside. */
  lemma NearRows(alone: bool, h: nat, x: nat, L: Layout, q: Vec) returns (near: seq<Entry<int>>)
    requires Shape(L) && Flank(alone, h, x, L, q)
    ensures var qc := QuantizeVec(q);
      near == Full(L, qc, Home(alone), 0, 1) + Full(L, qc, Home(alone), 1, 2) + Full(L, qc, Side(alone), 0, 1)
    ensures |near| == h + 1 && forall e | e in near :: e.key <= 100_000_002.0
  {
    hide Shape, Flank, Arena, Full, QuantizeVec, BucketOf, WellFormed, BucketPenalty, Sparse, RowAway, IsFraud;
    var qc := QuantizeVec(q);
    FlankArena(alone, h, x, L, q);
    FlankProbes(alone, h, x, L, q);
    FlankKinds(alone, h, x, L, q, 0, 1);
    FlankKinds(alone, h, x, L, q, 1, 2);
    FullSize(L, qc, Home(alone), 2);
    FullSplit(L, qc, Home(alone), 1, 2);
    near := Full(L, qc, Home(alone), 0, 1) + Full(L, qc, Home(alone), 1, 2) + Full(L, qc, Side(alone), 0, 1);
  }

  /** The escalated scan feeds the home rows and the one aside, and others. */
  lemma EscalatedRows(alone: bool, h: nat, x: nat, L: Layout, q: Vec)
    returns (near: seq<Entry<int>>, others: seq<Entry<int>>)
    requires Shape(L) && Flank(alone, h, x, L, q)
    ensures |near| == h + 1 && multiset(near + others) == multiset(Incremental(L, q, 1, 2))
    ensures forall e | e in near :: e.key <= 100_000_002.0
  {
    hide Shape, Flank, Full, QuantizeVec, Incremental;
    var qc := QuantizeVec(q);
    var rest := EscalatedStart(alone, h, x, L, q);
    near := NearRows(alone, h, x, L, q);
    others := Full(L, qc, Cross(alone), 0, 1) + rest;
    Shuffled(Full(L, qc, Home(alone), 0, 1), Full(L, qc, Cross(alone), 0, 1), Full(L, qc, Side(alone), 0, 1),
      Full(L, qc, Home(alone), 1, 2), rest);
  }

  lemma HomeNext(L: Layout, q: Vec, alone: bool, cheap: seq<Entry<int>>)
    requires Shape(L) && cheap == Cheap(L, q, 1) && BucketOf(q) == Home(alone)
    ensures cheap + Full(L, QuantizeVec(q), Home(alone), 1, 2) <= Incremental(L, q, 1, 2)
  {
    hide Shape, ProbeFeed, ScanFrom, QuantizeVec, Cheap;
    ProbeIsPrefix(L, QuantizeVec(q), Home(alone), 1, 2, 0, 0);
  }

  lemma Shuffled<A>(h1: seq<A>, c1: seq<A>, s1: seq<A>, h2: seq<A>, rest: seq<A>)
    ensures multiset((h1 + h2 + s1) + (c1 + rest)) == multiset(h1 + c1 + s1 + h2 + rest)
  {
  }

  lemma EscalatedNext(alone: bool, h: nat, x: nat, L: Layout, q: Vec)
    requires Shape(L) && Flank(alone, h, x, L, q) && h < CAND_K
    ensures |Collected(Incremental(L, q, 1, 2))| > h && Collected(Incremental(L, q, 1, 2))[h] <= 100_000_002.0
  {
    hide Shape, Flank, Incremental, Best;
    var near, others := EscalatedRows(alone, h, x, L, q);
    var all := Incremental(L, q, 1, 2);
    assert [] + near + others == near + others;
    CrowdBounds(h + 1, [], near, others, 100_000_002.0);
    BestKeysRearranged(CAND_K, near + others, all);
    SameSize(near + others, all);
    BestPrefix(h + 1, CAND_K, near + others);
    assert Keys(Best(CAND_K, near + others))[h] == Best(CAND_K, near + others)[h].key;
  }

  lemma KeptDiffers(alone: bool, h: nat, x: nat, L: Layout, q: Vec)
    requires Shape(L) && Flank(alone, h, x, L, q) && h < CAND_K <= h + x
    ensures !SameFor(L, q)
  {
    hide Shape, Flank, Incremental, Cheap, Collected;
    FreshNext(alone, h, x, L, q);
    EscalatedNext(alone, h, x, L, q);
    assert Collected(Incremental(L, q, 1, 2)) != Collected(Cheap(L, q, 2));
  }

  // --- the reported distances ---

  /** Refining reports nothing beyond a kept row, and nothing nearer than all of them. */
  lemma RefinedBounds(L: Layout, q: Vec, feed: seq<Entry<int>>, d: real)
    requires Shape(L) && WellFormed(q) && RowTags(L, Best(CAND_K, feed)) && feed != []
    ensures |Keys(Refined(L, q, feed))| > 0
    ensures (exists e :: e in Best(CAND_K, feed) && Dist2(q, RowAt(L, e.tag)) <= d)
      ==> Keys(Refined(L, q, feed))[0] <= d
    ensures (forall e | e in Best(CAND_K, feed) :: Dist2(q, RowAt(L, e.tag)) >= d) ==> Keys(Refined(L, q, feed))[0] >= d
  {
    hide Shape, WellFormed, Dist2, RowAt, IsFraud, Best, Visible;
    var kept := Best(CAND_K, feed);
    assert forall i | 0 <= i < |kept| :: kept[i] in kept;
    WellFormedSeesAll(L, q);
    var refine := RefineFeed(L, q, kept);
    assert Refined(L, q, feed) == Best(K, refine);
    SmallestOf(refine);
    if e :| e in kept && Dist2(q, RowAt(L, e.tag)) <= d {
      var i :| 0 <= i < |kept| && kept[i] == e;
      assert refine[i] in refine;
    }
  }

  /** The first kept distance is the smallest fed. */
  lemma SmallestOf(feed: seq<Entry<bool>>)
    requires feed != []
    ensures |Best(K, feed)| > 0 && (forall e | e in feed :: Best(K, feed)[0].key <= e.key)
    ensures exists i :: 0 <= i < |feed| && feed[i].key == Best(K, feed)[0].key
  {
    SortKeeps(feed);
    var s := Sort(feed);
    forall e | e in feed
      ensures s[0].key <= e.key
    {
      assert e in multiset(s);
      var i :| 0 <= i < |s| && s[i] == e;
    }
    assert s[0] in multiset(s);
    assert s[0] in feed;
  }

  /** Without a row of the query's null flag: 3.0 first after escalating, 3.36 or more after one wide pass. */
  lemma AnswersMove(alone: bool, x: nat, L: Layout, q: Vec)
    requires Shape(L) && Flank(alone, 0, x, L, q) && x >= CAND_K
    ensures !SameAnswers(L, q)
  {
    hide Shape, Flank, Incremental, Cheap, Refined, Keys;
    NearAfterEscalating(alone, x, L, q);
    FarAfterFresh(alone, x, L, q);
    assert Escalated(L, q, 1, 2) != Fresh(L, q, 2);
  }

  lemma NoHomeEntry(alone: bool, x: nat, L: Layout, q: Vec, e: Entry<int>)
    requires Shape(L) && Flank(alone, 0, x, L, q)
    ensures !HomeEntry(L, q, alone, e)
  {
    hide Shape, Arena, GenuineEntry, FarEntry, AsideEntry, Full, QuantizeVec, BucketPenalty, Dist2, IsFraud;
  }

  lemma NearAfterEscalating(alone: bool, x: nat, L: Layout, q: Vec)
    requires Shape(L) && Flank(alone, 0, x, L, q)
    ensures |Escalated(L, q, 1, 2)| > 0 && Escalated(L, q, 1, 2)[0] <= 3.0
  {
    hide Shape, Flank, Arena, Incremental, Refined, WellFormed, BucketOf, Dist2, RowAt, IsFraud, GenuineEntry, Keys;
    FlankArena(alone, 0, x, L, q);
    IncrementalTags(L, q, 1, 2);
    EscalatedNext(alone, 0, x, L, q);
    var feed := Incremental(L, q, 1, 2);
    KeysFirst(feed);
    hide Best;
    var e := Best(CAND_K, feed)[0];
    KeptGenuine(L, QuantizeVec(q), feed, e);
    FlankEntry(alone, 0, x, L, q, e);
    NoHomeEntry(alone, x, L, q, e);
    RefinedBounds(L, q, feed, 3.0);
  }

  lemma KeysFirst(feed: seq<Entry<int>>)
    requires |Collected(feed)| > 0
    ensures feed != [] && |Best(CAND_K, feed)| > 0 && Best(CAND_K, feed)[0].key == Collected(feed)[0]
    ensures Best(CAND_K, feed)[0] in Best(CAND_K, feed)
  {
  }

  lemma FarAfterFresh(alone: bool, x: nat, L: Layout, q: Vec)
    requires Shape(L) && Flank(alone, 0, x, L, q) && x >= CAND_K
    ensures |Fresh(L, q, 2)| > 0 && Fresh(L, q, 2)[0] >= 3.36
  {
    hide Shape, Flank, Arena, Cheap, Refined, WellFormed, BucketOf, Dist2, RowAt, IsFraud, Keys, Full, QuantizeVec,
      Best;
    FlankArena(alone, 0, x, L, q);
    CheapTags(L, q, 2);
    FlankWide(alone, 0, x, L, q);
    FlankKinds(alone, 0, x, L, q, 0, 2);
    var home, feed := Full(L, QuantizeVec(q), Home(alone), 0, 2), Cheap(L, q, 2);
    var cross := Full(L, QuantizeVec(q), Cross(alone), 0, 2);
    assert home == [] && home + cross == cross;
    forall e | e in Best(CAND_K, feed)
      ensures Dist2(q, RowAt(L, e.tag)) >= 3.36
    {
      KeptWasFed(CAND_K, feed, e);
    }
    RefinedBounds(L, q, feed, 3.36);
  }
}
