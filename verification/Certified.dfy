/** The certificate in the form a caller can read off: all cells probed, a home bucket that fills the
  * collector, and a gap of four grid steps between the fifth collected distance and the worst.
  */
module Certified {
  import opened Grid
  import opened Ranking
  import opened Layout
  import opened Collectors
  import opened Scan
  import opened ScanFacts
  import opened Tiers
  import opened Escalation
  import opened Exactness

  predicate OwnFlag(L: Layout, q: Vec, e: Entry<int>)
    requires Shape(L)
  {
    0 <= e.tag < L.n && SameNull(q, BucketOfRow(L, e.tag))
  }

  ghost predicate AllOwnFlag(L: Layout, q: Vec, fed: seq<Entry<int>>)
    requires Shape(L)
  {
    forall e | e in fed :: OwnFlag(L, q, e)
  }

  lemma ProbeOwnFlag(L: Layout, q: Vec, b: int, lo: int, hi: int, scanned: int, cap: int)
    requires Shape(L) && 0 <= b < BUCKETS && SameNull(q, b)
    ensures AllOwnFlag(L, q, ProbeFeed(L, QuantizeVec(q), b, lo, hi, scanned, cap))
  {
    ProbeOfBucket(L, QuantizeVec(q), b, lo, hi, scanned, cap);
    hide Shape, ProbeFeed, RowEntry, SameNull, BucketOfRow;
    forall e | e in ProbeFeed(L, QuantizeVec(q), b, lo, hi, scanned, cap)
      ensures OwnFlag(L, q, e)
    {
      assert EntryOf(L, QuantizeVec(q), b, e);
      RowInRange(L, b, e.tag);
    }
  }

  /** Once settled, only buckets of the query's own null flag are scanned. */
  lemma {:induction false} SettledOwnFlag(L: Layout, q: Vec, b: nat, lo: int, hi: int, fed: seq<Entry<int>>,
      scanned: int)
    requires Shape(L) && WellFormed(q) && b <= BUCKETS && SettledFeed(fed) && AllOwnFlag(L, q, fed)
    ensures AllOwnFlag(L, q, ScanFrom(L, q, b, lo, hi, fed, scanned, 0))
    decreases BUCKETS - b
  {
    hide Shape, ProbeFeed, QuantizeVec, BucketOf, ScanFrom, SettledFeed, SameNull, BucketPenalty, WorstOf, OwnFlag;
    if b == BUCKETS {
      ScanEnd(L, q, lo, hi, fed, scanned, 0);
    } else {
      ScanStep(L, q, b, lo, hi, fed, scanned, 0);
      SettledOwnFlag(L, q, b + 1, lo, hi, fed, scanned);
      if b != BucketOf(q) && !Pruned(q, b, fed) {
        assert SameNull(q, b) by {
          if !SameNull(q, b) {
            OtherFlagPruned(q, b, fed);
          }
        }
        var f := ProbeFeed(L, QuantizeVec(q), b, lo, hi, scanned, 0);
        ProbeOwnFlag(L, q, b, lo, hi, scanned, 0);
        SettledStays(fed, f);
        SettledOwnFlag(L, q, b + 1, lo, hi, fed + f, scanned + |f|);
      }
    }
  }

  lemma HomeOwnFlag(q: Vec)
    ensures SameNull(q, BucketOf(q))
  {
    BucketBits(q);
  }

  /** A settled scan of all ranks collects rows of the query's own null flag only. */
  lemma CheapOwnFlag(L: Layout, kn: Knobs, q: Vec)
    requires Shape(L) && WellFormed(q) && kn.maxScan == 0 && Settled(L, q, kn.nprobe)
    ensures AllOwnFlag(L, q, CheapFeed(L, kn, q)) && SettledFeed(CheapFeed(L, kn, q))
  {
    hide Shape, ProbeFeed, QuantizeVec, BucketOf, ScanFrom, SettledFeed, SameNull, OwnFlag;
    var home := Full(L, QuantizeVec(q), BucketOf(q), 0, kn.nprobe);
    HomeOwnFlag(q);
    ProbeOwnFlag(L, q, BucketOf(q), 0, kn.nprobe, 0, 0);
    assert [] + home == home;
    SettledOwnFlag(L, q, 0, 0, kn.nprobe, home, |home|);
    var all := CheapFeed(L, kn, q);
    assert all == home + all[|home|..];
    SettledStays(home, all[|home|..]);
  }

  /** With every cell probed and a settled home bucket, a gap of four grid steps around some natural
    * `a` between the fifth and the last collected integer distance certifies the answer: the five
    * brute-force distances, and the brute-force vote unless the fifth and sixth nearest rows tie. */
  lemma GapCertifiesExactness(L: Layout, kn: Knobs, q: Vec, a: nat)
    requires ValidLayout(L) && ValidKnobs(kn, L.nlist) && WellFormed(q)
    requires kn.maxScan == 0 && kn.nprobe == L.nlist <= MAX_PROBE && Settled(L, q, L.nlist)
    requires var kept := Best(CAND_K, CheapFeed(L, kn, q));
      |kept| == CAND_K ==> kept[K - 1].key <= (a * a) as real && ((a + 4) * (a + 4)) as real <= kept[CAND_K - 1].key
    ensures RowTags(L, Best(CAND_K, CheapFeed(L, kn, q))) && RowTags(L, Best(CAND_K, SearchFeed(L, kn, q)))
    ensures Keys(Refined(L, q, SearchFeed(L, kn, q))) == Keys(Brute(L, q))
    ensures StrictGap(L, q) ==> FraudCount(Refined(L, q, SearchFeed(L, kn, q))) == FraudCount(Brute(L, q))
  {
    hide Shape, CheapFeed, Refined, Best, AllOwnFlag, Settled, FraudCount, ShouldEscalate, Brute, StrictGap, Keys;
    SearchFacts(L, kn, q);
    CheapOwnFlag(L, kn, q);
    HighProbeBound(kn, L.nlist, FraudCount(Refined(L, q, CheapFeed(L, kn, q))));
    assert SearchFeed(L, kn, q) == CheapFeed(L, kn, q);
    GapIsCertificate(L, q, CheapFeed(L, kn, q), a);
    CertifiedExact(L, kn, q, a as real);
  }

  lemma GapIsCertificate(L: Layout, q: Vec, fed: seq<Entry<int>>, a: nat)
    requires Shape(L) && RowTags(L, Best(CAND_K, fed)) && AllOwnFlag(L, q, fed) && SettledFeed(fed)
    requires var kept := Best(CAND_K, fed);
      |kept| == CAND_K ==> kept[K - 1].key <= (a * a) as real && ((a + 4) * (a + 4)) as real <= kept[CAND_K - 1].key
    ensures Certificate(L, q, fed, a as real)
  {
    hide Shape, SameNull, BucketOfRow;
    var kept := Best(CAND_K, fed);
    BestSorted(CAND_K, fed);
    assert |kept| == CAND_K && WorstOf(fed) == kept[CAND_K - 1].key;
    forall i | 0 <= i < K
      ensures kept[i].key <= (a * a) as real && OwnFlag(L, q, kept[i])
    {
      assert kept[i] in multiset(kept);
      assert kept[i] in fed;
      assert i < K - 1 ==> kept[i].key <= kept[K - 1].key;
    }
    SquaresAsReals(a);
  }

  lemma SquaresAsReals(a: nat)
    ensures (a * a) as real == (a as real) * (a as real)
    ensures ((a + 4) * (a + 4)) as real == (a as real + 4.0) * (a as real + 4.0)
    ensures (a as real + 2.0) * (a as real + 2.0) <= (a as real + 4.0) * (a as real + 4.0)
  {
  }
}
