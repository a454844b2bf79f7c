/** Built indexes on which the two metrics part ways, and what a scan does with them. A row that differs from
  * the query only in having, or not having, a last transaction is at integer distance 2 and exact distance 2;
  * rows of the query's own bucket are farther in the one metric and nearer in the other.
  */
module ForkedIndex {
  import opened Grid
  import opened Ranking
  import opened Builder
  import opened Escalation
  import opened Layout
  import opened Scan
  import opened ScanFacts
  import opened Tiers
  import opened Piles

  // --- rows and a query ---

  /** A row without a last transaction (`alone`) or with one at distance zero and just now; most dimensions are
    * those of the query. */
  function Row(alone: bool, amount: int, hour: int, km: int, unknown: int): Codes
    requires 1 <= amount <= MAX_CODE && 1 <= hour <= MAX_CODE && 1 <= km <= MAX_CODE && 1 <= unknown <= MAX_CODE
  {
    var last := if alone then 0 else 1;
    [amount, MAX_CODE, MAX_CODE, hour, 1, last, last, km, 1, 1, 1, unknown, 1501, 1]
  }

  /** A purchase far above the limits, at midnight on a Monday, at a known merchant of the lowest risk. */
  function Base(alone: bool): Codes {
    Row(alone, MAX_CODE, 1, 1, 1)
  }

  function Query(alone: bool): Vec {
    DequantVec(Base(alone))
  }

  /** The query with the other null flag. */
  function Mixed(alone: bool): Codes {
    Row(!alone, MAX_CODE, 1, 1, 1)
  }

  /** A kilometre from home, and ten. */
  function Lone(alone: bool): Codes {
    Row(alone, MAX_CODE, 1, 11, 1)
  }

  function Near(alone: bool): Codes {
    Row(alone, MAX_CODE, 1, 101, 1)
  }

  /** The other null flag, a small amount, and far from home. */
  function Far(alone: bool, km: int): Codes
    requires 1 <= km <= MAX_CODE
  {
    Row(!alone, 1, 1, km, 1)
  }

  /** The other null flag and an unknown merchant. */
  function Aside(alone: bool): Codes {
    Row(!alone, MAX_CODE, 1, 1, MAX_CODE)
  }

  /** The query's bucket, the one across the null flag, and the one that also differs in the merchant. */
  function Home(alone: bool): int {
    if alone then 1 else 0
  }

  function Cross(alone: bool): int {
    1 - Home(alone)
  }

  function Side(alone: bool): int {
    Cross(alone) + 2
  }

  lemma RowBelongs(alone: bool, amount: int, hour: int, km: int, unknown: int)
    requires 1 <= amount <= MAX_CODE && 1 <= hour <= MAX_CODE && 1 <= km <= MAX_CODE
      && (unknown == 1 || unknown == MAX_CODE)
    ensures Belongs(Row(alone, amount, hour, km, unknown), Home(alone) + if unknown == 1 then 0 else 2)
  {
    var c := Row(alone, amount, hour, km, unknown);
    assert Dequant(0) == -1.0 && Dequant(1) == 0.0 && Dequant(MAX_CODE) == 1.0;
    forall i | 0 <= i < DIMS
      ensures c[i] > 0 ==> 0.0 <= DequantVec(c)[i] <= 1.0
    {
    }
  }

  lemma QueryFacts(alone: bool)
    ensures var q := Query(alone);
      && WellFormed(q) && BucketOf(q) == Home(alone) && QuantizeVec(q) == Base(alone) && (q[5] < 0.0) == alone
      && BucketPenalty(q, Side(alone)) == 3.0 && !SameNull(q, Cross(alone)) && !SameNull(q, Side(alone))
  {
    RowBelongs(alone, MAX_CODE, 1, 1, 1);
    CodesSurvive(Base(alone));
    assert Dequant(0) == -1.0 && Dequant(1) == 0.0 && Dequant(MAX_CODE) == 1.0;
  }

  /** Both distances of a row, in squared grid steps. */
  lemma RowDistances(alone: bool, other: bool, amount: int, hour: int, km: int, unknown: int)
    requires 1 <= amount <= MAX_CODE && 1 <= hour <= MAX_CODE && 1 <= km <= MAX_CODE && 1 <= unknown <= MAX_CODE
    ensures var c, a, h, k, u := Row(other, amount, hour, km, unknown), MAX_CODE - amount, hour - 1, km - 1,
      unknown - 1;
      var steps := a * a + h * h + k * k + u * u;
      && IntDist(Base(alone), c) == steps + (if other == alone then 0 else 2)
      && 1e8 * Dist2(Query(alone), c) == steps as real + (if other == alone then 0.0 else 2e8)
  {
    var q, c := Query(alone), Row(other, amount, hour, km, unknown);
    var a, h, k, u := MAX_CODE - amount, hour - 1, km - 1, unknown - 1;
    forall i | 0 <= i < DIMS
      ensures var t := if i == 0 then a else if i == 3 then h else if i == 7 then k else if i == 11 then u else 0;
        && ITerms(Base(alone), c)[i] == (if (i == 5 || i == 6) && other != alone then 1 else t * t)
        && 1e8 * Terms(q, c)[i] == if (i == 5 || i == 6) && other != alone then 1e8 else (t * t) as real
    {
      RowTerm(alone, other, amount, hour, km, unknown, i);
    }
    hide Row, Base, Query, Term, ITerm;
    SumOfFourteen(Terms(q, c));
    ISumOfFourteen(ITerms(Base(alone), c));
  }

  lemma RowTerm(alone: bool, other: bool, amount: int, hour: int, km: int, unknown: int, i: int)
    requires 1 <= amount <= MAX_CODE && 1 <= hour <= MAX_CODE && 1 <= km <= MAX_CODE && 1 <= unknown <= MAX_CODE
    requires 0 <= i < DIMS
    ensures var c := Row(other, amount, hour, km, unknown);
      var t := if i == 0 then MAX_CODE - amount else if i == 3 then hour - 1 else if i == 7 then km - 1
               else if i == 11 then unknown - 1 else 0;
      && ITerm(Base(alone), c, i) == (if (i == 5 || i == 6) && other != alone then 1 else t * t)
      && 1e8 * Term(Query(alone), c, i) == if (i == 5 || i == 6) && other != alone then 1e8 else (t * t) as real
  {
    var c := Row(other, amount, hour, km, unknown);
    if (i == 5 || i == 6) && other != alone {
      NullTerm(Base(alone), c, i);
    } else {
      var t := if i == 0 then MAX_CODE - amount else if i == 3 then hour - 1 else if i == 7 then km - 1
               else if i == 11 then unknown - 1 else 0;
      StepsTerm(Base(alone), c, i, t);
    }
  }

  lemma NullTerm(b: Codes, c: Codes, i: int)
    requires 0 <= i < DIMS && ((b[i] == 0 && c[i] == 1) || (b[i] == 1 && c[i] == 0))
    ensures ITerm(b, c, i) == 1 && 1e8 * Term(DequantVec(b), c, i) == 1e8
  {
    assert Dequant(0) == -1.0 && Dequant(1) == 0.0;
  }

  lemma StepsTerm(b: Codes, c: Codes, i: int, t: int)
    requires 0 <= i < DIMS && ((b[i] > 0 && c[i] > 0) || b[i] == c[i] == 0) && (t == c[i] - b[i] || t == b[i] - c[i])
    ensures ITerm(b, c, i) == t * t && 1e8 * Term(DequantVec(b), c, i) == (t * t) as real
  {
    var d := b[i] - c[i];
    assert d * d == t * t;
    var x := DequantVec(b)[i] - Dequant(c[i]);
    assert 10000.0 * x == d as real;
    RealSquare(d, x);
  }

  lemma RealSquare(t: int, x: real)
    requires 10000.0 * x == t as real
    ensures 1e8 * (x * x) == (t * t) as real
  {
    assert (10000.0 * x) * (10000.0 * x) == 1e8 * (x * x);
  }

  lemma UnusedIsFar(alone: bool)
    ensures IntDist(Base(alone), Zeros()) >= 300_000_000
  {
    var t := ITerms(Base(alone), Zeros());
    assert forall i | 0 <= i < 3 :: t[i] == 10000 * 10000;
    ISumOfFourteen(t);
  }

  /** The distances of the rows above. */
  lemma Distances(alone: bool)
    ensures IntDist(Base(alone), Mixed(alone)) == 2 && Dist2(Query(alone), Mixed(alone)) == 2.0
    ensures IntDist(Base(alone), Lone(alone)) == 100 && Dist2(Query(alone), Lone(alone)) == 0.000001
    ensures IntDist(Base(alone), Near(alone)) == 10000 && Dist2(Query(alone), Near(alone)) == 0.0001
    ensures IntDist(Base(alone), Far(alone, 6001)) == 136_000_002 && Dist2(Query(alone), Far(alone, 6001)) == 3.36
    ensures IntDist(Base(alone), Far(alone, 7001)) == 149_000_002 && Dist2(Query(alone), Far(alone, 7001)) == 3.49
    ensures IntDist(Base(alone), Aside(alone)) == 100_000_002 && Dist2(Query(alone), Aside(alone)) == 3.0
  {
    hide IntDist, Dist2, Row, Base, Query;
    RowDistances(alone, !alone, MAX_CODE, 1, 1, 1);
    RowDistances(alone, alone, MAX_CODE, 1, 11, 1);
    RowDistances(alone, alone, MAX_CODE, 1, 101, 1);
    RowDistances(alone, !alone, 1, 1, 6001, 1);
    RowDistances(alone, !alone, 1, 1, 7001, 1);
    RowDistances(alone, !alone, MAX_CODE, 1, 1, MAX_CODE);
  }

  // --- two families ---

  function Arranged(alone: bool, home: Pile, cross: Pile, side: Pile): Piling {
    var other := Row(alone, MAX_CODE, 1, 1, MAX_CODE);
    var empty := Pile(0, other, other, false);
    if alone then [cross, home, side, empty] else [home, cross, empty, side]
  }

  /** `a` fraudulent rows of the other null flag, and `h` honest ones of the query's: one nearest, alone in its
    * cell, and the others near. */
  function Crowded(alone: bool, a: nat, h: nat): Piling {
    Arranged(alone, Pile(h, Lone(alone), Near(alone), false), Pile(a, Mixed(alone), Mixed(alone), true),
      Pile(0, Aside(alone), Aside(alone), true))
  }

  /** `h` rows of the query's null flag, `x` far ones of the other, one of them alone in its cell, and one more
    * of the other in a bucket of its own. */
  function Beside(alone: bool, h: nat, x: nat): Piling {
    Arranged(alone, Pile(h, Lone(alone), Near(alone), false), Pile(x, Far(alone, 6001), Far(alone, 7001), true),
      Pile(1, Aside(alone), Aside(alone), true))
  }

  lemma ArrangedProper(alone: bool, home: Pile, cross: Pile, side: Pile)
    requires Belongs(home.first, Home(alone)) && Belongs(home.rest, Home(alone))
    requires Belongs(cross.first, Cross(alone)) && Belongs(cross.rest, Cross(alone))
    requires Belongs(side.first, Side(alone)) && Belongs(side.rest, Side(alone))
    ensures var p := Arranged(alone, home, cross, side);
      && Proper(p) && Total(p) == home.size + cross.size + side.size
      && p[Home(alone)] == home && p[Cross(alone)] == cross && p[Side(alone)] == side && p[5 - Side(alone)].size == 0
  {
    RowBelongs(alone, MAX_CODE, 1, 1, MAX_CODE);
    hide Belongs, Row;
  }

  lemma CrowdedProper(alone: bool, a: nat, h: nat)
    ensures var p := Crowded(alone, a, h);
      && Proper(p) && Total(p) == a + h && p[Home(alone)] == Pile(h, Lone(alone), Near(alone), false)
      && p[Cross(alone)] == Pile(a, Mixed(alone), Mixed(alone), true)
        && p[Side(alone)].size == p[5 - Side(alone)].size == 0
  {
    hide Belongs, Row, Proper, Total, Arranged;
    RowBelongs(alone, MAX_CODE, 1, 11, 1);
    RowBelongs(alone, MAX_CODE, 1, 101, 1);
    RowBelongs(!alone, MAX_CODE, 1, 1, 1);
    RowBelongs(!alone, MAX_CODE, 1, 1, MAX_CODE);
    ArrangedProper(alone, Pile(h, Lone(alone), Near(alone), false), Pile(a, Mixed(alone), Mixed(alone), true),
      Pile(0, Aside(alone), Aside(alone), true));
  }

  lemma BesideProper(alone: bool, h: nat, x: nat)
    ensures var p := Beside(alone, h, x);
      && Proper(p) && Total(p) == h + x + 1 && p[Home(alone)] == Pile(h, Lone(alone), Near(alone), false)
      && p[Cross(alone)] == Pile(x, Far(alone, 6001), Far(alone, 7001), true)
      && p[Side(alone)] == Pile(1, Aside(alone), Aside(alone), true) && p[5 - Side(alone)].size == 0
  {
    hide Belongs, Row, Proper, Total, Arranged;
    RowBelongs(alone, MAX_CODE, 1, 11, 1);
    RowBelongs(alone, MAX_CODE, 1, 101, 1);
    RowBelongs(!alone, 1, 1, 6001, 1);
    RowBelongs(!alone, 1, 1, 7001, 1);
    RowBelongs(!alone, MAX_CODE, 1, 1, MAX_CODE);
    ArrangedProper(alone, Pile(h, Lone(alone), Near(alone), false), Pile(x, Far(alone, 6001), Far(alone, 7001), true),
      Pile(1, Aside(alone), Aside(alone), true));
  }

  // --- the first cells ---

  /** Of two cells the nearer, or else the first, is ranked first. */
  lemma FirstOfTwo(first: Entry<int>, second: Entry<int>)
    requires first.key <= second.key
    ensures Best(1, [first, second]) == [first]
  {
    BestOfOne(first);
    BestStep(1, [first], second);
    assert [first] + [second] == [first, second];
    assert Insert([first], second) == [first, second];
  }

  lemma BestOfOne(e: Entry<int>)
    ensures Best(1, [e]) == [e]
  {
    assert [e][..0] == [];
  }

  /** A probe of one rank reads the bucket's first cell when its centroid is not the farther one. */
  lemma FirstCell(L: Layout, qc: Codes, b: int)
    requires Shape(L) && 0 <= b < BUCKETS && L.nlist == 2
    requires IntDist(qc, CentroidCodes(L, b, 0)) <= IntDist(qc, CentroidCodes(L, b, 1))
    ensures |L.cellStart| == 2 * BUCKETS + 1
    ensures |Full(L, qc, b, 0, 1)| == L.cellStart[2 * b + 1] - L.cellStart[2 * b]
  {
    Basics(L);
    FullIsRows(L, qc, b, 0, 1);
    hide Shape, IntDist, CentroidCodes, Full, CellRows;
    var feed := CentroidFeed(L, qc, b);
    FirstOfTwo(feed[0], feed[1]);
    assert feed == [feed[0], feed[1]];
    var cells := Ranked(L, qc, b, 1);
    assert cells == [feed[0]] && cells[0..] == cells;
    assert cells[0].tag == b * 2 + 0 == 2 * b;
    var all := CellRows(L, qc, b, 2 * b);
    assert cells[1..] == [];
    assert Rows(L, qc, b, cells) == all + [] == all;
  }

  /** The nearest value of a pile is probed first, and an unused cell last. */
  lemma PileProbe(p: Piling, L: Layout, qc: Codes, b: int)
    requires L == Piled(p) && Shape(L) && 0 <= b < PILES
    requires IntDist(qc, p[b].first) <= IntDist(qc, p[b].rest) && IntDist(qc, p[b].first) <= IntDist(qc, Zeros())
    ensures |Full(L, qc, b, 0, 1)| == FirstSize(p[b])
  {
    hide Shape, Piled, IntDist, CentroidCodes, Full, FirstSize, Zeros;
    PiledParts(p);
    PiledCentroid(p, b, 0);
    PiledCentroid(p, b, 1);
    assert (2 * b + 1) / 2 == b && (2 * b + 1) % 2 == 1 && 2 * b / 2 == b && 2 * b % 2 == 0;
    FirstCell(L, qc, b);
    PileSize(p, b);
  }

  // --- a scan of an index with three buckets in use ---

  predicate Empty(L: Layout, b: int)
    requires Shape(L) && 0 <= b < BUCKETS
  {
    L.bucketStart[b] == L.bucketStart[b + 1]
  }

  lemma FedNothing(L: Layout, q: Vec, b: int, lo: int, hi: int, fed: seq<Entry<int>>)
    requires Shape(L) && 0 <= b < BUCKETS && Empty(L, b)
    ensures Fed(L, q, b, lo, hi, fed) == fed
  {
    ProbeOfBucket(L, QuantizeVec(q), b, lo, hi, 0, 0);
    SomeRow(L, QuantizeVec(q), b, Full(L, QuantizeVec(q), b, lo, hi));
    hide Shape, Full, BucketOf, QuantizeVec, Pruned;
    assert fed + [] == fed;
  }

  lemma {:induction false} FedRest(L: Layout, q: Vec, b: nat, lo: int, hi: int, fed: seq<Entry<int>>)
    requires Shape(L) && b <= BUCKETS && forall c | b <= c < BUCKETS :: Empty(L, c)
    ensures FedFrom(L, q, b, lo, hi, fed) == fed
    decreases BUCKETS - b
  {
    hide Shape, Fed, Empty;
    if b < BUCKETS {
      FedNothing(L, q, b, lo, hi, fed);
      FedRest(L, q, b + 1, lo, hi, fed);
    }
  }

  /** Rows in the query's bucket and the two others only. */
  predicate Sparse(L: Layout, alone: bool)
    requires Shape(L)
  {
    forall b | 0 <= b < BUCKETS && b != Home(alone) && b != Cross(alone) && b != Side(alone) :: Empty(L, b)
  }

  lemma FedOfThree(alone: bool, L: Layout, q: Vec, lo: int, hi: int, home: seq<Entry<int>>)
    requires Shape(L) && Sparse(L, alone) && BucketOf(q) == Home(alone)
    ensures FedFrom(L, q, 0, lo, hi, home) == Fed(L, q, Side(alone), lo, hi, Fed(L, q, Cross(alone), lo, hi, home))
  {
    hide Shape, BucketOf, Empty, Fed, FedFrom;
    var cross := Fed(L, q, Cross(alone), lo, hi, home);
    var all := Fed(L, q, Side(alone), lo, hi, cross);
    FourSteps(L, q, lo, hi, home);
    FedHome(L, q, Home(alone), lo, hi, home);
    FedHome(L, q, Home(alone), lo, hi, cross);
    FedNothing(L, q, 5 - Side(alone), lo, hi, cross);
    FedNothing(L, q, 5 - Side(alone), lo, hi, all);
    FedRest(L, q, 4, lo, hi, all);
  }

  /** A scan feeds the home bucket, then the one across unless pruned, then the one aside unless pruned. */
  lemma ScanOfThree(alone: bool, L: Layout, q: Vec, lo: int, hi: int, fed: seq<Entry<int>>, scanned: int)
    requires Shape(L) && Sparse(L, alone) && BucketOf(q) == Home(alone)
    ensures var home := fed + Full(L, QuantizeVec(q), Home(alone), lo, hi);
      ScanRange(L, q, lo, hi, fed, scanned, 0) == Fed(L, q, Side(alone), lo, hi, Fed(L, q, Cross(alone), lo, hi, home))
  {
    hide Shape, Full, ProbeFeed, ScanFrom, QuantizeVec, BucketOf, Fed, FedFrom, Sparse, Cross, Side;
    var f := Full(L, QuantizeVec(q), Home(alone), lo, hi);
    ProbeIsPrefix(L, QuantizeVec(q), Home(alone), lo, hi, scanned, 0);
    ScanIsFed(L, q, 0, lo, hi, fed + f, scanned + |f|);
    FedOfThree(alone, L, q, lo, hi, fed + f);
  }

  lemma FedHome(L: Layout, q: Vec, b: int, lo: int, hi: int, fed: seq<Entry<int>>)
    requires Shape(L) && 0 <= b < BUCKETS && b == BucketOf(q)
    ensures Fed(L, q, b, lo, hi, fed) == fed
  {
  }

  lemma FourSteps(L: Layout, q: Vec, lo: int, hi: int, fed: seq<Entry<int>>)
    requires Shape(L)
    ensures var two := Fed(L, q, 1, lo, hi, Fed(L, q, 0, lo, hi, fed));
      FedFrom(L, q, 0, lo, hi, fed) == FedFrom(L, q, 4, lo, hi, Fed(L, q, 3, lo, hi, Fed(L, q, 2, lo, hi, two)))
  {
    hide Shape, Fed;
    var one := Fed(L, q, 0, lo, hi, fed);
    var two := Fed(L, q, 1, lo, hi, one);
    var three := Fed(L, q, 2, lo, hi, two);
    assert FedFrom(L, q, 0, lo, hi, fed) == FedFrom(L, q, 1, lo, hi, one);
    assert FedFrom(L, q, 1, lo, hi, one) == FedFrom(L, q, 2, lo, hi, two);
    assert FedFrom(L, q, 2, lo, hi, two) == FedFrom(L, q, 3, lo, hi, three);
  }

  // --- what a search meets in the two families ---

  function Size(L: Layout, b: int): int
    requires Shape(L) && 0 <= b < BUCKETS
  {
    L.bucketStart[b + 1] - L.bucketStart[b]
  }

  /** A built index with rows in three buckets, and a query of the vectorizer's shape. */
  ghost predicate Arena(alone: bool, L: Layout, q: Vec) {
    && ValidLayout(L) && Built(L) && L.nlist == 2 && Sparse(L, alone)
    && WellFormed(q) && BucketOf(q) == Home(alone) && (q[5] < 0.0) == alone
  }

  predicate RowAway(L: Layout, q: Vec, b: int, e: Entry<int>, d: real)
    requires Shape(L)
  {
    RowIn(L, b, e.tag) && 0 <= e.tag < L.n && Dist2(q, RowAt(L, e.tag)) == d
  }

  predicate HomeEntry(L: Layout, q: Vec, alone: bool, e: Entry<int>)
    requires Shape(L)
  {
    && (RowAway(L, q, Home(alone), e, 0.000001) || RowAway(L, q, Home(alone), e, 0.0001))
    && 100.0 <= e.key <= 10000.0 && !IsFraud(L, e.tag)
  }

  predicate CrowdEntry(L: Layout, q: Vec, alone: bool, e: Entry<int>)
    requires Shape(L)
  {
    RowAway(L, q, Cross(alone), e, 2.0) && e.key == 2.0 && IsFraud(L, e.tag)
  }

  predicate FarEntry(L: Layout, q: Vec, alone: bool, e: Entry<int>)
    requires Shape(L)
  {
    && (RowAway(L, q, Cross(alone), e, 3.36) || RowAway(L, q, Cross(alone), e, 3.49))
    && 136_000_002.0 <= e.key <= 149_000_002.0
  }

  predicate AsideEntry(L: Layout, q: Vec, alone: bool, e: Entry<int>)
    requires Shape(L)
  {
    RowAway(L, q, Side(alone), e, 3.0) && e.key == 100_000_002.0
  }

  ghost predicate Fork(alone: bool, a: nat, h: nat, L: Layout, q: Vec) {
    && Arena(alone, L, q) && L.n == a + h
    && Size(L, Home(alone)) == h && Size(L, Cross(alone)) == a && Empty(L, Side(alone))
    && (forall e | GenuineEntry(L, QuantizeVec(q), e) :: HomeEntry(L, q, alone, e) || CrowdEntry(L, q, alone, e))
    && |Full(L, QuantizeVec(q), Home(alone), 0, 1)| == (if h > 0 then 1 else 0)
    && |Full(L, QuantizeVec(q), Cross(alone), 0, 1)| == a
    && (h > 0 ==> 0 <= L.bucketStart[Home(alone)] < L.n && ExactEntry(L, q, L.bucketStart[Home(alone)]).key == 0.000001)
  }

  ghost predicate Flank(alone: bool, h: nat, x: nat, L: Layout, q: Vec) {
    && Arena(alone, L, q) && L.n == h + x + 1
    && Size(L, Home(alone)) == h && Size(L, Cross(alone)) == x && Size(L, Side(alone)) == 1
    && (forall e | GenuineEntry(L, QuantizeVec(q), e) ::
          HomeEntry(L, q, alone, e) || FarEntry(L, q, alone, e) || AsideEntry(L, q, alone, e))
    && |Full(L, QuantizeVec(q), Home(alone), 0, 1)| <= 1 && |Full(L, QuantizeVec(q), Cross(alone), 0, 1)| <= 1
    && |Full(L, QuantizeVec(q), Side(alone), 0, 1)| == 1 && BucketPenalty(q, Side(alone)) == 3.0
  }

  lemma PiledSizes(p: Piling, L: Layout, b: int)
    requires L == Piled(p) && Shape(L) && 0 <= b < BUCKETS
    ensures Size(L, b) == (if b < PILES then p[b].size else 0) && L.bucketStart[b] == Begin(p, b)
  {
    hide Shape, Piled, Begin, Total;
    PiledParts(p);
    PileBounds(p, b);
  }

  lemma PiledSparse(alone: bool, p: Piling, L: Layout)
    requires L == Piled(p) && Shape(L) && p[5 - Side(alone)].size == 0
    ensures Sparse(L, alone)
  {
    hide Shape, Piled;
    forall b | 0 <= b < BUCKETS && b != Home(alone) && b != Cross(alone) && b != Side(alone)
      ensures Empty(L, b)
    {
      PiledSizes(p, L, b);
    }
  }

  lemma PiledArena(alone: bool, p: Piling, L: Layout, q: Vec)
    requires Proper(p) && Total(p) <= MAX_INT32 && L == Piled(p) && q == Query(alone) && p[5 - Side(alone)].size == 0
    ensures Shape(L) && Arena(alone, L, q) && L.n == Total(p)
    ensures forall b | 0 <= b < PILES :: Size(L, b) == p[b].size && L.bucketStart[b] == Begin(p, b)
  {
    hide Shape, Built, Piled, Proper, BucketPenalty, BucketOf, SameNull, WellFormed, Query, Begin, Total, Sparse;
    PiledIsBuilt(p, 1);
    PiledShape(p);
    PiledParts(p);
    Basics(L);
    QueryFacts(alone);
    PiledSparse(alone, p, L);
    forall b | 0 <= b < PILES
      ensures Size(L, b) == p[b].size && L.bucketStart[b] == Begin(p, b)
    {
      PiledSizes(p, L, b);
    }
  }

  /** A fed row has the distances of its value. */
  lemma PiledEntry(p: Piling, L: Layout, q: Vec, e: Entry<int>)
    requires Total(p) <= MAX_INT32 && L == Piled(p) && Shape(L) && GenuineEntry(L, QuantizeVec(q), e)
    ensures 0 <= e.tag < L.n && 0 <= e.tag < Total(p)
    ensures var b := PileOf(p, e.tag); var c := PileRow(p[b], e.tag - Begin(p, b));
      && RowIn(L, b, e.tag) && e.key == IntDist(QuantizeVec(q), c) as real && RowAt(L, e.tag) == c
      && IsFraud(L, e.tag) == p[b].fraud
  {
    hide Shape, Piled, IntDist, PileOf, IsFraud, QuantizeVec;
    PiledParts(p);
    PiledRow(p, e.tag);
    RowInRange(L, PileOf(p, e.tag), e.tag);
  }

  lemma CrowdedEntry(alone: bool, a: nat, h: nat, L: Layout, q: Vec, e: Entry<int>)
    requires a + h <= MAX_INT32 && L == Piled(Crowded(alone, a, h)) && q == Query(alone) && Shape(L)
    requires GenuineEntry(L, QuantizeVec(q), e)
    ensures HomeEntry(L, q, alone, e) || CrowdEntry(L, q, alone, e)
  {
    hide Shape, Piled, Crowded, IsFraud, RowAt, IntDist, Dist2, Base, Query, QuantizeVec, Lone, Near, Mixed, Aside,
      PileOf, WellFormed, BucketOf, BucketPenalty, SameNull, Proper, Total, Begin;
    var p := Crowded(alone, a, h);
    CrowdedProper(alone, a, h);
    QueryFacts(alone);
    Distances(alone);
    PiledEntry(p, L, q, e);
    UsedPile(p, e.tag);
  }

  lemma UsedPile(p: Piling, i: int)
    requires 0 <= i < Total(p)
    ensures p[PileOf(p, i)].size > 0
  {
    PileSize(p, PileOf(p, i));
  }

  lemma CrowdedProbes(alone: bool, a: nat, h: nat, L: Layout, q: Vec)
    requires a + h <= MAX_INT32 && L == Piled(Crowded(alone, a, h)) && q == Query(alone) && Shape(L)
    ensures |Full(L, QuantizeVec(q), Home(alone), 0, 1)| == (if h > 0 then 1 else 0)
    ensures |Full(L, QuantizeVec(q), Cross(alone), 0, 1)| == a
  {
    hide Shape, Piled, Crowded, IntDist, Dist2, Base, Query, QuantizeVec, Lone, Near, Mixed, Aside, Full, FirstSize,
      Zeros, WellFormed, BucketOf, BucketPenalty, SameNull, Proper, Total;
    var p := Crowded(alone, a, h);
    CrowdedProper(alone, a, h);
    QueryFacts(alone);
    Distances(alone);
    UnusedIsFar(alone);
    PileProbe(p, L, QuantizeVec(q), Home(alone));
    PileProbe(p, L, QuantizeVec(q), Cross(alone));
    FirstSizes(h, Lone(alone), Near(alone), a, Mixed(alone));
  }

  lemma CrowdedIsFork(alone: bool, a: nat, h: nat, L: Layout, q: Vec)
    requires a + h <= MAX_INT32 && L == Piled(Crowded(alone, a, h)) && q == Query(alone)
    ensures Shape(L) && Fork(alone, a, h, L, q)
  {
    hide Shape, Arena, Piled, Crowded, Query, QuantizeVec, Full, Dist2, IntDist, GenuineEntry, HomeEntry, CrowdEntry,
      Proper, Lone, Near, Mixed, Aside, ExactEntry;
    var p := Crowded(alone, a, h);
    CrowdedProper(alone, a, h);
    PiledArena(alone, p, L, q);
    Distances(alone);
    forall e | GenuineEntry(L, QuantizeVec(q), e)
      ensures HomeEntry(L, q, alone, e) || CrowdEntry(L, q, alone, e)
    {
      CrowdedEntry(alone, a, h, L, q, e);
    }
    CrowdedProbes(alone, a, h, L, q);
    if h > 0 {
      FirstOfPile(p, L, q, Home(alone));
    }
  }

  lemma FirstSizes(h: nat, first: Codes, rest: Codes, a: nat, all: Codes)
    requires first != rest
    ensures FirstSize(Pile(h, first, rest, false)) == (if h > 0 then 1 else 0)
    ensures FirstSize(Pile(a, all, all, true)) == a
  {
  }

  lemma FirstOfPile(p: Piling, L: Layout, q: Vec, b: int)
    requires Total(p) <= MAX_INT32 && L == Piled(p) && Shape(L) && 0 <= b < PILES && p[b].size > 0
    ensures L.bucketStart[b] == Begin(p, b) && 0 <= Begin(p, b) < L.n
    ensures ExactEntry(L, q, Begin(p, b)).key == Dist2(q, p[b].first)
  {
    hide Shape, Piled, IsFraud;
    PiledParts(p);
    PileSize(p, b);
    PiledRow(p, Begin(p, b));
    RowInRange(L, b, Begin(p, b));
  }

  lemma BesideEntry(alone: bool, h: nat, x: nat, L: Layout, q: Vec, e: Entry<int>)
    requires h + x + 1 <= MAX_INT32 && L == Piled(Beside(alone, h, x)) && q == Query(alone) && Shape(L)
    requires GenuineEntry(L, QuantizeVec(q), e)
    ensures HomeEntry(L, q, alone, e) || FarEntry(L, q, alone, e) || AsideEntry(L, q, alone, e)
  {
    hide Shape, Piled, Beside, IsFraud, RowAt, IntDist, Dist2, Base, Query, QuantizeVec, Lone, Near, Far, Aside,
      PileOf, WellFormed, BucketOf, BucketPenalty, SameNull, Proper, Total, Begin;
    var p := Beside(alone, h, x);
    BesideProper(alone, h, x);
    QueryFacts(alone);
    Distances(alone);
    PiledEntry(p, L, q, e);
    UsedPile(p, e.tag);
  }

  lemma BesideProbes(alone: bool, h: nat, x: nat, L: Layout, q: Vec)
    requires h + x + 1 <= MAX_INT32 && L == Piled(Beside(alone, h, x)) && q == Query(alone) && Shape(L)
    ensures |Full(L, QuantizeVec(q), Home(alone), 0, 1)| <= 1 && |Full(L, QuantizeVec(q), Cross(alone), 0, 1)| <= 1
    ensures |Full(L, QuantizeVec(q), Side(alone), 0, 1)| == 1
  {
    hide Shape, Piled, Beside, IntDist, Dist2, Base, Query, QuantizeVec, Lone, Near, Far, Aside, Full, FirstSize,
      Zeros, WellFormed, BucketOf, BucketPenalty, SameNull, Proper, Total;
    var p := Beside(alone, h, x);
    BesideProper(alone, h, x);
    QueryFacts(alone);
    Distances(alone);
    UnusedIsFar(alone);
    PileProbe(p, L, QuantizeVec(q), Home(alone));
    PileProbe(p, L, QuantizeVec(q), Cross(alone));
    PileProbe(p, L, QuantizeVec(q), Side(alone));
    FirstSizes(h, Lone(alone), Near(alone), 1, Aside(alone));
    FirstSizes(x, Far(alone, 6001), Far(alone, 7001), 1, Aside(alone));
    SameFirstSize(p[Cross(alone)]);
  }

  lemma SameFirstSize(x: Pile)
    ensures FirstSize(x) == FirstSize(x.(fraud := false))
  {
  }

  lemma BesideIsFlank(alone: bool, h: nat, x: nat, L: Layout, q: Vec)
    requires h + x + 1 <= MAX_INT32 && L == Piled(Beside(alone, h, x)) && q == Query(alone)
    ensures Shape(L) && Flank(alone, h, x, L, q)
  {
    hide Shape, Arena, Piled, Beside, Query, QuantizeVec, Full, GenuineEntry, HomeEntry, FarEntry, AsideEntry,
      Proper, Lone, Near, Far, Aside, WellFormed, BucketOf, BucketPenalty, SameNull;
    var p := Beside(alone, h, x);
    BesideProper(alone, h, x);
    PiledArena(alone, p, L, q);
    QueryFacts(alone);
    forall e | GenuineEntry(L, QuantizeVec(q), e)
      ensures HomeEntry(L, q, alone, e) || FarEntry(L, q, alone, e) || AsideEntry(L, q, alone, e)
    {
      BesideEntry(alone, h, x, L, q, e);
    }
    BesideProbes(alone, h, x, L, q);
  }
}
