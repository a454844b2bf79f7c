/** What brute force over a built index computes: the plain nearest neighbours of the query among the
  * vectors as they were added. The rearrangement by buckets and cells is invisible to it.
  */
module Oracle {
  import opened Grid
  import opened Ranking
  import opened Layout
  import opened Collectors
  import opened Scan
  import opened Exactness
  import opened Permutation
  import opened Builder

  function AddedEntry(q: Vec, x: (Vec, bool)): Entry<bool> {
    Entry(VecDist2(q, x.0), x.1)
  }

  /** Every added vector with its exact distance, in the order of adding. */
  function AddedFeed(q: Vec, added: seq<(Vec, bool)>): (f: seq<Entry<bool>>)
    ensures |f| == |added| && forall i | 0 <= i < |f| :: f[i] == AddedEntry(q, added[i])
  {
    seq(|added|, i requires 0 <= i < |added| => AddedEntry(q, added[i]))
  }

  function StoredEntry(q: Vec, x: (Vec, bool)): Entry<bool> {
    Entry(Dist2(q, QuantizeVec(x.0)), x.1)
  }

  /** Every added vector with the distance of the codes it is stored as. */
  function StoredFeed(q: Vec, added: seq<(Vec, bool)>): (f: seq<Entry<bool>>)
    ensures |f| == |added| && forall i | 0 <= i < |f| :: f[i] == StoredEntry(q, added[i])
  {
    seq(|added|, i requires 0 <= i < |added| => StoredEntry(q, added[i]))
  }

  /** Every coordinate is a value of the native four-decimal grid. */
  ghost predicate Native(added: seq<(Vec, bool)>) {
    forall i, d | 0 <= i < |added| && 0 <= d < DIMS :: OnNativeGrid(added[i].0[d])
  }

  lemma NativeFeeds(q: Vec, added: seq<(Vec, bool)>)
    requires Native(added)
    ensures StoredFeed(q, added) == AddedFeed(q, added)
  {
    hide OnNativeGrid, Dist2, VecDist2, QuantizeVec;
    forall i | 0 <= i < |added|
      ensures StoredEntry(q, added[i]) == AddedEntry(q, added[i])
    {
      StoredDistance(q, added[i].0);
    }
  }

  // --- brute force ---

  /** BruteDebug on a built index sees the added vectors, each once. */
  lemma BruteFeedIsStored(L: Layout, added: seq<(Vec, bool)>, order: seq<int>, cells: seq<int>, cents: seq<Vec>, q: Vec)
    requires Placed(L, added, order, cells, cents)
    ensures multiset(BruteFeed(L, q)) == multiset(StoredFeed(q, added))
  {
    hide Shape, RowCodes, IsFraud, NearestCell, InCell, Dist2, QuantizeVec, BucketOf;
    var n := L.n;
    forall r | 0 <= r < n
      ensures 0 <= order[r] < n && BruteFeed(L, q)[r] == StoredEntry(q, added[order[r]])
    {
      assert RowPlaced(L, added, order, cells, cents, r);
      RowInRange(L, BucketOf(added[order[r]].0), r);
    }
    forall r, s | 0 <= r < s < n
      ensures order[r] != order[s]
    {
      assert RowsOrdered(added, order, cells, r, s);
    }
    PermutationOfNumbers(order, n);
    var h := (i: int) => if 0 <= i < |added| then StoredEntry(q, added[i]) else Entry(0.0, false);
    MapRearranged(h, order, Numbers(n));
    assert BruteFeed(L, q) == Map(h, order);
    assert StoredFeed(q, added) == Map(h, Numbers(n));
  }

  /** The five distances brute force reports on a built index are those of the five best by stored codes,
    * and so is the vote unless the fifth and sixth nearest tie. */
  lemma BruteOverStored(L: Layout, added: seq<(Vec, bool)>, order: seq<int>, cells: seq<int>, cents: seq<Vec>, q: Vec)
    requires Placed(L, added, order, cells, cents)
    ensures Keys(Brute(L, q)) == Keys(Best(K, Visible(StoredFeed(q, added))))
    ensures StrictGap(L, q) ==> FraudCount(Brute(L, q)) == FraudCount(Best(K, Visible(StoredFeed(q, added))))
  {
    hide Shape, RowPlaced, RowsOrdered, Dist2, QuantizeVec, ExactEntry, Best, Visible;
    BruteFeedIsStored(L, added, order, cells, cents, q);
    var f, g := BruteFeed(L, q), StoredFeed(q, added);
    VisibleRearranged(f, g);
    BestKeysRearranged(K, Visible(f), Visible(g));
    if StrictGap(L, q) {
      BestRearrangedAtGap(K, Visible(f), Visible(g));
      FraudCountRearranged(Best(K, Visible(f)), Best(K, Visible(g)));
    }
  }

  /** For data of the native grid that is the answer of plain nearest neighbours over the vectors as they
    * were added. */
  lemma BruteOverAdded(L: Layout, added: seq<(Vec, bool)>, order: seq<int>, cells: seq<int>, cents: seq<Vec>, q: Vec)
    requires Placed(L, added, order, cells, cents) && Native(added)
    ensures Keys(Brute(L, q)) == Keys(Best(K, Visible(AddedFeed(q, added))))
    ensures StrictGap(L, q) ==> FraudCount(Brute(L, q)) == FraudCount(Best(K, Visible(AddedFeed(q, added))))
  {
    hide Shape, RowPlaced, RowsOrdered, Brute, Best, Visible, StrictGap, FraudCount, Keys, StoredFeed, AddedFeed,
      Native;
    BruteOverStored(L, added, order, cells, cents, q);
    NativeFeeds(q, added);
  }
}
