/** The builder object: rows are added one by one, then rearranged into an index. Every added vector
  * lands at exactly one final row, where the search can read it back.
  */
module Builder {
  import opened Grid
  import opened Layout
  import opened CountingSort
  import opened Lloyd
  import opened Training
  import opened Packing
  import opened Permutation
  import opened Build
  import opened Search

  const DEFAULT_NLIST: int := 1024
  const DEFAULT_ITERS: int := 10

  /** Everything the steps of one build produced. */
  datatype Stages = Stages(
    rows: seq<Codes>, labels: seq<bool>, bucket: seq<int>,          // as added
    starts: seq<int>, mid: seq<Codes>, midLabels: seq<bool>,        // after the bucket sort
    nlist: int, iters: int, cents: seq<Vec>, assigns: seq<seq<int>>, cellStart: seq<int>,
    final: seq<Codes>, finalLabels: seq<bool>)                      // after the cell sorts

  /** `mid` lists the added rows in the stable order of their buckets; `starts` marks the runs. */
  ghost predicate SortedByBucket(rows: seq<Codes>, labels: seq<bool>, bucket: seq<int>,
                                 starts: seq<int>, mid: seq<Codes>, midLabels: seq<bool>)
  {
    && |rows| == |labels| == |bucket| == |mid| == |midLabels| && KeysBelow(bucket, BUCKETS)
    && |Order(bucket, BUCKETS)| == |rows|
    && |starts| == BUCKETS + 1 && (forall k | 0 <= k <= BUCKETS :: starts[k] == Start(bucket, k))
    && (forall t | 0 <= t < |rows| ::
          mid[t] == rows[Order(bucket, BUCKETS)[t]] && midLabels[t] == labels[Order(bucket, BUCKETS)[t]])
  }

  ghost predicate BucketStage(s: Stages) {
    SortedByBucket(s.rows, s.labels, s.bucket, s.starts, s.mid, s.midLabels)
  }

  ghost predicate CellStage(s: Stages) {
    && |s.rows| == |s.mid| == |s.midLabels| == |s.final| == |s.finalLabels| && Tiles(s.starts, |s.rows|)
    && 1 <= s.nlist && 1 <= s.iters && |s.cents| == BUCKETS * s.nlist && |s.assigns| == BUCKETS
    && |s.cellStart| == BUCKETS * s.nlist + 1 && SortedUpTo(s.cellStart, |s.rows|)
    && s.cellStart[BUCKETS * s.nlist] == |s.rows|
    && forall b | 0 <= b < BUCKETS ::
         BucketDone(s.mid, s.midLabels, s.starts, s.nlist, s.iters, b, s.assigns[b], s.final, s.finalLabels, s.cents,
           s.cellStart)
  }

  ghost predicate Done(s: Stages) {
    BucketStage(s) && CellStage(s)
  }

  predicate InRun(s: Stages, b: int, r: int) {
    |s.starts| == BUCKETS + 1 && 0 <= b < BUCKETS && s.starts[b] <= r < s.starts[b + 1]
  }

  // --- slots and keys ---

  /** Slots in the run of key `k` hold elements with key `k`. */
  lemma KeyOfSlot(keys: seq<int>, m: nat, t: nat, k: nat)
    requires KeysBelow(keys, m) && t < |Order(keys, m)| && Start(keys, k) <= t < Start(keys, k + 1)
    ensures var i := Order(keys, m)[t]; 0 <= i < |keys| && keys[i] == k
  {
    hide Start, Order;
    var i := OrderEntry(keys, m, t);
    SlotInRange(keys, i);
    if keys[i] < k {
      StartMonotone(keys, keys[i] + 1, k);
    } else if keys[i] > k {
      StartMonotone(keys, k + 1, keys[i]);
    }
  }

  lemma BucketRunsTile(keys: seq<int>, starts: seq<int>)
    requires KeysBelow(keys, BUCKETS) && |starts| == BUCKETS + 1
    requires forall k | 0 <= k <= BUCKETS :: starts[k] == Start(keys, k)
    ensures Tiles(starts, |keys|)
  {
    hide Start;
    forall i, j | 0 <= i <= j <= BUCKETS
      ensures starts[i] <= starts[j]
    {
      StartMonotone(keys, i, j);
    }
    StartOfZero(keys);
    OrderIsComplete(keys, BUCKETS);
    StartIsLength(keys, BUCKETS);
  }

  // --- where a final row came from ---

  /** Cell `c` is the lowest-index nearest to `x` of the `k` centroids from `base`. */
  ghost predicate NearestCell(cents: seq<Vec>, base: int, k: int, x: Codes, c: int) {
    0 <= base && 1 <= k && base + k <= |cents| && c == Nearest(x, cents[base..base + k], k)
  }

  /** What is known about final row `r` of bucket `b`: its place `a` among the bucket's rows before
    * the cell sort, the number `i` under which it was added, and its cell `c`. */
  datatype Source = Source(a: int, i: int, c: int)

  function SourceOf(s: Stages, b: int, r: int): Source
    requires Done(s) && InRun(s, b, r)
  {
    RunFacts(s, b, r);
    var a := Order(s.assigns[b], s.nlist)[r - s.starts[b]];
    Source(a, Order(s.bucket, BUCKETS)[s.starts[b] + a], s.assigns[b][a])
  }

  lemma RunFacts(s: Stages, b: int, r: int)
    requires Done(s) && InRun(s, b, r)
    ensures |s.assigns| == BUCKETS && |s.assigns[b]| == Size(s.starts, b) == |Order(s.assigns[b], s.nlist)|
    ensures KeysBelow(s.assigns[b], s.nlist)
    ensures 0 <= s.starts[b] && s.starts[b + 1] <= |s.rows| == |Order(s.bucket, BUCKETS)|
    ensures 0 <= Order(s.assigns[b], s.nlist)[r - s.starts[b]] < |s.assigns[b]|
  {
    hide CellsAreNearest, Start;
    assert BucketDone(s.mid, s.midLabels, s.starts, s.nlist, s.iters, b, s.assigns[b], s.final, s.finalLabels, s.cents,
      s.cellStart);
  }

  /** The row's codes and label are those it was added with, under its own bucket, and its cell is its
    * nearest centroid of that bucket. */
  lemma SourceFacts(s: Stages, b: int, r: int)
    requires Done(s) && InRun(s, b, r)
    ensures var o := SourceOf(s, b, r); var m := Size(s.starts, b);
      && 0 <= o.i < |s.rows| && 0 <= r < |s.rows| && s.bucket[o.i] == b
      && s.final[r] == s.rows[o.i] && s.finalLabels[r] == s.labels[o.i]
      && NearestCell(s.cents, b * s.nlist, Cells(s.nlist, m), s.rows[o.i], o.c)
  {
    hide Nearest, Start, Order;
    RunFacts(s, b, r);
    assert BucketDone(s.mid, s.midLabels, s.starts, s.nlist, s.iters, b, s.assigns[b], s.final, s.finalLabels, s.cents,
      s.cellStart);
    var o := SourceOf(s, b, r);
    KeyOfSlot(s.bucket, BUCKETS, s.starts[b] + o.a, b);
    assert s.mid[s.starts[b] + o.a] == s.rows[o.i] && s.midLabels[s.starts[b] + o.a] == s.labels[o.i];
    var t := r - s.starts[b];
    assert s.final[Lo(s.starts, b) + t] == s.mid[Lo(s.starts, b) + o.a];
  }

  /** The CSR range of a row's cell contains the row. */
  lemma SourceCell(s: Stages, b: int, r: int)
    requires Done(s) && InRun(s, b, r)
    ensures var o := SourceOf(s, b, r);
      && 0 <= o.c < s.nlist && 0 <= b * s.nlist && b * s.nlist + o.c + 1 < |s.cellStart|
      && s.cellStart[b * s.nlist + o.c] <= r < s.cellStart[b * s.nlist + o.c + 1]
  {
    hide Nearest, Start, Order, CellsAreNearest, BucketSorted;
    RunFacts(s, b, r);
    assert BucketDone(s.mid, s.midLabels, s.starts, s.nlist, s.iters, b, s.assigns[b], s.final, s.finalLabels, s.cents,
      s.cellStart);
    var o := SourceOf(s, b, r);
    var t := r - s.starts[b];
    SlotOfOrder(s.assigns[b], s.nlist, t);
    SlotInRange(s.assigns[b], o.a);
    CellBase(b, s.nlist);
    NextCell(s, b, o.c);
  }

  /** The offset after a cell's is where its slots end, also for the last cell of a bucket. */
  lemma NextCell(s: Stages, b: int, c: int)
    requires Done(s) && 0 <= b < BUCKETS && 0 <= c < s.nlist
    ensures |s.assigns| == BUCKETS && |s.starts| == BUCKETS + 1
    ensures 0 <= b * s.nlist && b * s.nlist + c + 1 < |s.cellStart|
    ensures s.cellStart[b * s.nlist + c + 1] == s.starts[b] + Start(s.assigns[b], c + 1)
  {
    hide Nearest, Start, Order, CellsAreNearest;
    CellBase(b, s.nlist);
    assert BucketDone(s.mid, s.midLabels, s.starts, s.nlist, s.iters, b, s.assigns[b], s.final, s.finalLabels, s.cents,
      s.cellStart);
    if c + 1 == s.nlist {
      StartIsLength(s.assigns[b], s.nlist);
      BucketOffset(s, b + 1);
    }
  }

  /** A bucket's first cell starts where the bucket starts. */
  lemma BucketOffset(s: Stages, b: int)
    requires Done(s) && 0 <= b <= BUCKETS
    ensures 0 <= b * s.nlist < |s.cellStart| && |s.starts| == BUCKETS + 1
    ensures s.cellStart[b * s.nlist] == s.starts[b]
  {
    hide Nearest, Order, CellsAreNearest, BucketSorted;
    CellBase(b, s.nlist);
    if b < BUCKETS {
      assert BucketDone(s.mid, s.midLabels, s.starts, s.nlist, s.iters, b, s.assigns[b], s.final, s.finalLabels,
        s.cents, s.cellStart);
      StartOfZero(s.assigns[b]);
      assert s.cellStart[b * s.nlist + 0] == Lo(s.starts, b) + Start(s.assigns[b], 0);
    }
  }

  /** Later rows of the same bucket come from later cells, or were added later. */
  lemma SourceOrder(s: Stages, b: int, r: int, r': int)
    requires Done(s) && InRun(s, b, r) && InRun(s, b, r') && r < r'
    ensures var o, o' := SourceOf(s, b, r), SourceOf(s, b, r');
      o.i != o'.i && (o.c < o'.c || (o.c == o'.c && o.i < o'.i))
  {
    hide Nearest, Start, Order, CellsAreNearest, BucketSorted, CentroidsTrained;
    RunFacts(s, b, r);
    RunFacts(s, b, r');
    var o, o' := SourceOf(s, b, r), SourceOf(s, b, r');
    SortedStablePermutation(s.assigns[b], s.nlist, r - s.starts[b], r' - s.starts[b]);
    var t, t' := s.starts[b] + o.a, s.starts[b] + o'.a;
    KeyOfSlot(s.bucket, BUCKETS, t, b);
    KeyOfSlot(s.bucket, BUCKETS, t', b);
    if o.a < o'.a {
      SortedStablePermutation(s.bucket, BUCKETS, t, t');
    } else {
      SortedStablePermutation(s.bucket, BUCKETS, t', t);
    }
  }

  // --- the layout ---

  /** `L` stores the outcome of `s`. */
  ghost predicate Assembled(L: Layout, s: Stages) {
    && Done(s) && |s.rows| <= MAX_INT32
    && L.n == |s.rows| && L.nlist == s.nlist && L.bucketStart == s.starts && L.cellStart == s.cellStart
    && IsWords(L.fraud, L.n) && (forall r | 0 <= r < L.n :: FlagAt(L.fraud, r) == s.finalLabels[r])
    && |L.data| == L.n * DIMS + TAIL_PAD && OnGrid(L.data)
    && (forall b | 0 <= b < BUCKETS :: StoredBlock(L.data, s.final, s.starts, b))
    && |L.centroidsI16| == BUCKETS * L.nlist * DIMS + TAIL_PAD && OnGrid(L.centroidsI16)
    && (forall b | 0 <= b < BUCKETS ::
          StoredBlock(L.centroidsI16, QuantizeAll(s.cents), Multiples(s.nlist, BUCKETS), b))
  }

  lemma AssembledShape(L: Layout, s: Stages)
    requires Assembled(L, s)
    ensures Shape(L)
  {
    hide BucketDone, BucketStage, StoredBlock, FlagAt;
    forall b | 0 <= b <= BUCKETS
      ensures CellAt(L, b) == L.bucketStart[b]
    {
      BucketOffset(s, b);
    }
  }

  /** Reading row `r` back gives the final row's codes and label. */
  lemma AssembledRow(L: Layout, s: Stages, b: int, r: int)
    requires Assembled(L, s) && Shape(L) && InRun(s, b, r)
    ensures RowIn(L, b, r) && 0 <= r < L.n
    ensures RowCodes(L, b, r) == s.final[r] && IsFraud(L, r) == s.finalLabels[r]
  {
    hide BucketDone, BucketStage, Strided, BlockHolds;
    BucketBounds(L, b);
    StoredReads(L.data, s.final, s.starts, b, r);
    assert FlagAt(L.fraud, r) == s.finalLabels[r];
  }

  lemma AssembledCentroid(L: Layout, s: Stages, b: int, c: int)
    requires Assembled(L, s) && Shape(L) && 0 <= b < BUCKETS && 0 <= c < L.nlist
    ensures CentroidStored(L, s.cents, b, c)
  {
    hide BucketDone, BucketStage, Strided, BlockHolds, FlagAt;
    CellBase(b, L.nlist);
    StoredReads(L.centroidsI16, QuantizeAll(s.cents), Multiples(s.nlist, BUCKETS), b, b * L.nlist + c);
  }

  // --- what a build promises ---

  /** Final row `r` is added vector number `order[r]`: stored under its own bucket, in the CSR range of
    * its nearest cell, with the codes and the label it was added with. */
  ghost predicate RowPlaced(L: Layout, added: seq<(Vec, bool)>, order: seq<int>, cells: seq<int>, cents: seq<Vec>,
      r: int)
    requires Shape(L) && 0 <= r < L.n == |order| == |cells|
  {
    && 0 <= order[r] < |added|
    && var b, v := BucketOf(added[order[r]].0), added[order[r]].0;
    && RowIn(L, b, r) && RowCodes(L, b, r) == QuantizeVec(v) && IsFraud(L, r) == added[order[r]].1
    && 0 <= cells[r] < L.nlist && InCell(L, b, cells[r], r)
    && NearestCell(cents, b * L.nlist, Cells(L.nlist, L.bucketStart[b + 1] - L.bucketStart[b]), QuantizeVec(v),
      cells[r])
  }

  predicate InCell(L: Layout, b: int, c: int, r: int)
    requires Shape(L) && 0 <= b < BUCKETS && 0 <= c < L.nlist
  {
    CellBase(b, L.nlist);
    L.cellStart[b * L.nlist + c] <= r < L.cellStart[b * L.nlist + c + 1]
  }

  /** Row `r` comes before row `s`: by bucket, then by cell, then by the order of adding. */
  ghost predicate RowsOrdered(added: seq<(Vec, bool)>, order: seq<int>, cells: seq<int>, r: int, s: int)
    requires 0 <= r < s < |order| == |cells|
  {
    && 0 <= order[r] < |added| && 0 <= order[s] < |added| && order[r] != order[s]
    && var b, c := BucketOf(added[order[r]].0), BucketOf(added[order[s]].0);
    (b < c || (b == c && (cells[r] < cells[s] || (cells[r] == cells[s] && order[r] < order[s]))))
  }

  ghost predicate Placed(L: Layout, added: seq<(Vec, bool)>, order: seq<int>, cells: seq<int>, cents: seq<Vec>) {
    && Shape(L) && L.n == |added| == |order| == |cells|
    && (forall r | 0 <= r < L.n :: RowPlaced(L, added, order, cells, cents, r))
    && (forall r, s | 0 <= r < s < L.n :: RowsOrdered(added, order, cells, r, s))
  }

  /** The stored centroids are the trained ones on the code grid. */
  ghost predicate CentroidsStored(L: Layout, cents: seq<Vec>) {
    && Shape(L) && |cents| == BUCKETS * L.nlist
    && forall b, c | 0 <= b < BUCKETS && 0 <= c < L.nlist ::
         CentroidStored(L, cents, b, c)
  }

  ghost predicate CentroidStored(L: Layout, cents: seq<Vec>, b: int, c: int)
    requires Shape(L) && 0 <= b < BUCKETS && 0 <= c < L.nlist
  {
    0 <= b * L.nlist + c < |cents| && CentroidCodes(L, b, c) == QuantizeVec(cents[b * L.nlist + c])
  }

  ghost predicate Records(added: seq<(Vec, bool)>, rows: seq<Codes>, bucket: seq<int>, labels: seq<bool>) {
    && |added| == |rows| == |bucket| == |labels|
    && forall i | 0 <= i < |added| ::
         rows[i] == QuantizeVec(added[i].0) && bucket[i] == BucketOf(added[i].0) && labels[i] == added[i].1
  }

  /** The codes of the vectors of bucket `b`, in the order of adding. */
  function BucketRows(added: seq<(Vec, bool)>, b: int): seq<Codes> {
    if added == [] then []
    else
      var last := added[|added| - 1].0;
      BucketRows(added[..|added| - 1], b) + if BucketOf(last) == b then [QuantizeVec(last)] else []
  }

  /** Every bucket's centroids come from Lloyd's algorithm on the sample of its rows, from its evenly
    * spaced seeds; centroids beyond the number of rows stay at zero. */
  ghost predicate TrainedOn(added: seq<(Vec, bool)>, nlist: nat, iters: nat, cents: seq<Vec>) {
    |cents| == BUCKETS * nlist &&
    forall b | 0 <= b < BUCKETS :: CentroidsTrained(BucketRows(added, b), cents, b * nlist, nlist, iters)
  }

  /** Every bucket has a row for each vector that was added to it. */
  ghost predicate BucketsFilled(L: Layout, added: seq<(Vec, bool)>) {
    Shape(L) && forall b | 0 <= b < BUCKETS :: L.bucketStart[b + 1] - L.bucketStart[b] == |BucketRows(added, b)|
  }

  /** `L` is what a build of `added` with `iters` iterations stores. */
  ghost predicate BuiltFrom(L: Layout, added: seq<(Vec, bool)>, iters: nat, order: seq<int>, cells: seq<int>,
                            cents: seq<Vec>)
  {
    && Placed(L, added, order, cells, cents) && CentroidsStored(L, cents)
    && BucketsFilled(L, added) && 1 <= iters && TrainedOn(added, L.nlist, iters, cents)
  }

  ghost predicate AllWellFormed(added: seq<(Vec, bool)>) {
    forall i | 0 <= i < |added| :: WellFormed(added[i].0)
  }

  /** `L` is the outcome of building an index from vectors of the vectorizer's shape. */
  ghost predicate Built(L: Layout) {
    exists added: seq<(Vec, bool)>, iters: nat, order: seq<int>, cells: seq<int>, cents: seq<Vec> ::
      BuiltFrom(L, added, iters, order, cells, cents) && AllWellFormed(added)
  }

  lemma {:induction false} HoldersAreBucketRows(added: seq<(Vec, bool)>, rows: seq<Codes>, bucket: seq<int>,
                                                labels: seq<bool>, b: int, i: nat)
    requires Records(added, rows, bucket, labels) && i <= |added|
    ensures |BucketRows(added[..i], b)| == CountTo(bucket, b, i)
    ensures forall j | 0 <= j < CountTo(bucket, b, i) :: BucketRows(added[..i], b)[j] == rows[Holders(bucket, b, i)[j]]
  {
    hide QuantizeVec, BucketOf;
    if i > 0 {
      HoldersAreBucketRows(added, rows, bucket, labels, b, i - 1);
      assert added[..i][..i - 1] == added[..i - 1] && added[..i][i - 1] == added[i - 1];
    }
  }

  /** After the bucket sort, the run of bucket `b` holds its rows in the order of adding. */
  lemma RunIsBucketRows(s: Stages, added: seq<(Vec, bool)>, b: int)
    requires Done(s) && Records(added, s.rows, s.bucket, s.labels) && 0 <= b < BUCKETS
    ensures 0 <= Lo(s.starts, b) && 0 <= Size(s.starts, b) && Lo(s.starts, b) + Size(s.starts, b) <= |s.mid|
    ensures s.mid[Lo(s.starts, b)..Lo(s.starts, b) + Size(s.starts, b)] == BucketRows(added, b)
  {
    hide CellStage, Records, Order, Start, Holders, BucketRows, CountTo;
    assert Tiles(s.starts, |s.rows|) by { CellStageTiles(s); }
    TileBounds(s.starts, |s.rows|, b);
    StartStep(s.bucket, b);
    HoldersAreBucketRows(added, s.rows, s.bucket, s.labels, b, |added|);
    assert |added| == |s.bucket| && added[..|added|] == added by { RecordsSize(added, s.rows, s.bucket, s.labels); }
    var lo, m := Lo(s.starts, b), Size(s.starts, b);
    assert lo == Start(s.bucket, b) && m == CountTo(s.bucket, b, |s.bucket|);
    forall j | 0 <= j < m
      ensures s.mid[lo + j] == BucketRows(added, b)[j]
    {
      OrderRun(s.bucket, BUCKETS, b, j);
    }
  }

  lemma CellStageTiles(s: Stages)
    requires CellStage(s)
    ensures Tiles(s.starts, |s.rows|)
  {
  }

  lemma RecordsSize(added: seq<(Vec, bool)>, rows: seq<Codes>, bucket: seq<int>, labels: seq<bool>)
    requires Records(added, rows, bucket, labels)
    ensures |added| == |rows| == |bucket| == |labels|
  {
  }

  lemma StagesTrained(s: Stages, added: seq<(Vec, bool)>)
    requires Done(s) && Records(added, s.rows, s.bucket, s.labels)
    ensures TrainedOn(added, s.nlist, s.iters, s.cents)
  {
    hide BucketStage, Records, BucketRows, BucketSorted, CellsAreNearest, CentroidsTrained, Start;
    forall b | 0 <= b < BUCKETS
      ensures CentroidsTrained(BucketRows(added, b), s.cents, b * s.nlist, s.nlist, s.iters)
    {
      RunIsBucketRows(s, added, b);
      assert BucketDone(s.mid, s.midLabels, s.starts, s.nlist, s.iters, b, s.assigns[b], s.final, s.finalLabels,
        s.cents, s.cellStart);
    }
  }

  lemma BucketsHeld(L: Layout, s: Stages, added: seq<(Vec, bool)>)
    requires Assembled(L, s) && Shape(L) && Records(added, s.rows, s.bucket, s.labels)
    ensures BucketsFilled(L, added)
  {
    hide Shape, BucketStage, CellStage, Records, BucketRows, StoredBlock, FlagAt;
    assert |L.bucketStart| == BUCKETS + 1 by { Basics(L); }
    forall b | 0 <= b < BUCKETS
      ensures L.bucketStart[b + 1] - L.bucketStart[b] == |BucketRows(added, b)|
    {
      RunIsBucketRows(s, added, b);
    }
  }

  /** The numbers and cells of the final rows. */
  lemma Sources(L: Layout, s: Stages, added: seq<(Vec, bool)>) returns (order: seq<int>, cells: seq<int>)
    requires Assembled(L, s) && Shape(L) && Records(added, s.rows, s.bucket, s.labels)
    ensures Placed(L, added, order, cells, s.cents)
  {
    hide Shape, BucketDone, BucketStage, CellStage, StoredBlock, FlagAt, RowCodes, IsFraud, NearestCell, SourceOf,
      QuantizeVec;
    order := seq(L.n, r requires 0 <= r < L.n => SourceOfRow(L, s, r).i);
    cells := seq(L.n, r requires 0 <= r < L.n => SourceOfRow(L, s, r).c);
    forall r | 0 <= r < L.n
      ensures RowPlaced(L, added, order, cells, s.cents, r)
    {
      PlacedAt(L, s, added, order, cells, r);
    }
    forall r, t | 0 <= r < t < L.n
      ensures RowsOrdered(added, order, cells, r, t)
    {
      OrderedAt(L, s, added, order, cells, r, t);
    }
  }

  function SourceOfRow(L: Layout, s: Stages, r: int): Source
    requires Assembled(L, s) && Shape(L) && 0 <= r < L.n
  {
    assert InRun(s, BucketOfRow(L, r), r) by { assert RowIn(L, BucketOfRow(L, r), r); }
    SourceOf(s, BucketOfRow(L, r), r)
  }

  lemma PlacedAt(L: Layout, s: Stages, added: seq<(Vec, bool)>, order: seq<int>, cells: seq<int>, r: int)
    requires Assembled(L, s) && Shape(L) && Records(added, s.rows, s.bucket, s.labels)
    requires 0 <= r < L.n == |order| == |cells|
    requires order[r] == SourceOfRow(L, s, r).i && cells[r] == SourceOfRow(L, s, r).c
    ensures RowPlaced(L, added, order, cells, s.cents, r)
  {
    hide Shape, BucketDone, BucketStage, CellStage, StoredBlock, FlagAt, RowCodes, IsFraud, NearestCell, SourceOf;
    var b := BucketOfRow(L, r);
    SourceFacts(s, b, r);
    SourceCell(s, b, r);
    AssembledRow(L, s, b, r);
  }

  lemma OrderedAt(L: Layout, s: Stages, added: seq<(Vec, bool)>, order: seq<int>, cells: seq<int>, r: int, t: int)
    requires Assembled(L, s) && Shape(L) && Records(added, s.rows, s.bucket, s.labels)
    requires 0 <= r < t < L.n == |order| == |cells|
    requires order[r] == SourceOfRow(L, s, r).i && cells[r] == SourceOfRow(L, s, r).c
    requires order[t] == SourceOfRow(L, s, t).i && cells[t] == SourceOfRow(L, s, t).c
    ensures RowsOrdered(added, order, cells, r, t)
  {
    hide Shape, BucketDone, BucketStage, CellStage, StoredBlock, FlagAt, RowCodes, IsFraud, NearestCell, SourceOf;
    var b, c := BucketOfRow(L, r), BucketOfRow(L, t);
    SourceFacts(s, b, r);
    SourceFacts(s, c, t);
    BucketsAscend(L, b, c, r, t);
    if b == c {
      SourceOrder(s, b, r, t);
    }
  }

  lemma BucketsAscend(L: Layout, b: int, c: int, r: int, t: int)
    requires Shape(L) && RowIn(L, b, r) && RowIn(L, c, t) && r < t
    ensures b <= c
  {
  }

  // --- consequences ---

  /** Every added vector lands at exactly one final row. */
  lemma EveryVectorOnce(L: Layout, added: seq<(Vec, bool)>, order: seq<int>, cells: seq<int>, cents: seq<Vec>, i: int)
    returns (r: int)
    requires Placed(L, added, order, cells, cents) && 0 <= i < |added|
    ensures 0 <= r < L.n && order[r] == i
    ensures forall s | 0 <= s < L.n && order[s] == i :: s == r
  {
    hide Shape, RowCodes, IsFraud, NearestCell, InCell;
    forall r | 0 <= r < L.n
      ensures 0 <= order[r] < |added|
    {
      assert RowPlaced(L, added, order, cells, cents, r);
    }
    forall r, s | 0 <= r < s < L.n
      ensures order[r] != order[s]
    {
      assert RowsOrdered(added, order, cells, r, s);
    }
    r := HitBy(order, |added|, i);
  }

  /** A vector's codes are among the rows of its bucket. */
  lemma {:induction false} AmongBucketRows(added: seq<(Vec, bool)>, i: nat) returns (j: nat)
    requires i < |added|
    ensures var x := BucketRows(added, BucketOf(added[i].0)); j < |x| && x[j] == QuantizeVec(added[i].0)
  {
    hide QuantizeVec, BucketOf;
    var init := added[..|added| - 1];
    if i < |init| {
      j := AmongBucketRows(init, i);
    } else {
      j := |BucketRows(init, BucketOf(added[i].0))|;
    }
  }

  /** The stored cell of row `r` is that of its codes among the centroids of its bucket. */
  lemma CellOfRow(L: Layout, added: seq<(Vec, bool)>, iters: nat, order: seq<int>, cells: seq<int>, cents: seq<Vec>,
                  r: int)
    requires BuiltFrom(L, added, iters, order, cells, cents) && 0 <= r < L.n
    ensures 0 <= order[r] < |added|
    ensures var v := added[order[r]].0; var b := BucketOf(v);
      && RowIn(L, b, r) && RowCodes(L, b, r) == QuantizeVec(v)
      && NearestCell(cents, b * L.nlist, Cells(L.nlist, |BucketRows(added, b)|), QuantizeVec(v), cells[r])
  {
    hide Shape, CentroidsStored, TrainedOn, NearestCell, RowCodes, IsFraud, InCell, BucketRows, QuantizeVec, BucketOf;
    assert RowPlaced(L, added, order, cells, cents, r);
  }

  /** The centroids from `base` on are the values `vals`. */
  ghost predicate Hold(cents: seq<Vec>, base: int, vals: seq<Codes>) {
    && 0 <= base && base + |vals| <= |cents|
    && forall c | 0 <= c < |vals| :: cents[base + c] == DequantVec(vals[c])
  }

  lemma BlocksHeld(x: seq<Codes>, cents: seq<Vec>, base: int, nlist: nat, iters: nat, vals: seq<Codes>)
    requires CentroidsTrained(x, cents, base, nlist, iters)
    requires InBlocks(x, vals) && |vals| == if nlist < |x| then nlist else |x|
    ensures Hold(cents, base, vals)
  {
    BlocksTrained(x, vals, iters);
    hide Trained, InBlocks, DequantVec;
    forall c | 0 <= c < |vals|
      ensures cents[base + c] == DequantVec(vals[c])
    {
      assert cents[base + c] == cents[base..base + |vals|][c];
    }
  }

  /** A row goes to the first cell with its value. */
  lemma FirstWithValue(cents: seq<Vec>, base: int, vals: seq<Codes>, x: Codes, c: int)
    requires Hold(cents, base, vals) && x in vals && NearestCell(cents, base, |vals|, x, c)
    ensures 0 <= c < |vals| && vals[c] == x && forall j | 0 <= j < c :: vals[j] != x
  {
    hide Nearest, DequantVec, QuantizeVec;
    var run := cents[base..base + |vals|];
    forall j | 0 <= j < |vals| && vals[j] == x
      ensures c <= j && run[c] == DequantVec(x)
    {
      NearestIsValue(x, run, |vals|, j);
    }
    CodesSurvive(x);
    CodesSurvive(vals[c]);
  }

  /** What a build makes of vectors whose codes come in equal blocks of one value each, as many blocks as the bucket
    * has cells: block by block its centroids are those values, and every row lies in the first cell of its value. */
  lemma BlocksBuilt(L: Layout, added: seq<(Vec, bool)>, iters: nat, order: seq<int>, cells: seq<int>, cents: seq<Vec>,
                    b: int, vals: seq<Codes>)
    requires BuiltFrom(L, added, iters, order, cells, cents) && 0 <= b < BUCKETS
    requires var x := BucketRows(added, b); InBlocks(x, vals) && |vals| == if L.nlist < |x| then L.nlist else |x|
    ensures |vals| <= L.nlist && forall c | 0 <= c < |vals| :: CentroidCodes(L, b, c) == vals[c]
    ensures forall r | RowIn(L, b, r) ::
      && 0 <= r < |cells| && 0 <= cells[r] < |vals| && vals[cells[r]] == RowCodes(L, b, r)
      && forall c | 0 <= c < cells[r] :: vals[c] != RowCodes(L, b, r)
  {
    hide Shape, RowPlaced, RowsOrdered, BucketRows, CentroidsTrained, BucketOf, NearestCell, RowCodes, InBlocks,
      QuantizeVec, DequantVec, CentroidCodes;
    var x := BucketRows(added, b);
    Basics(L);
    BlocksHeld(x, cents, b * L.nlist, L.nlist, iters, vals);
    forall c | 0 <= c < |vals|
      ensures CentroidCodes(L, b, c) == vals[c]
    {
      assert CentroidStored(L, cents, b, c);
      CodesSurvive(vals[c]);
    }
    forall r | RowIn(L, b, r)
      ensures 0 <= r < |cells| && 0 <= cells[r] < |vals| && vals[cells[r]] == RowCodes(L, b, r)
      ensures forall c | 0 <= c < cells[r] :: vals[c] != RowCodes(L, b, r)
    {
      BlockRow(L, added, iters, order, cells, cents, b, vals, r);
    }
  }

  lemma BlockRow(L: Layout, added: seq<(Vec, bool)>, iters: nat, order: seq<int>, cells: seq<int>, cents: seq<Vec>,
                 b: int, vals: seq<Codes>, r: int)
    requires BuiltFrom(L, added, iters, order, cells, cents) && RowIn(L, b, r) && Hold(cents, b * L.nlist, vals)
    requires var x := BucketRows(added, b); InBlocks(x, vals) && |vals| == if L.nlist < |x| then L.nlist else |x|
    ensures 0 <= r < |cells| && 0 <= cells[r] < |vals| && vals[cells[r]] == RowCodes(L, b, r)
    ensures forall c | 0 <= c < cells[r] :: vals[c] != RowCodes(L, b, r)
  {
    RowInRange(L, b, r);
    CellOfRow(L, added, iters, order, cells, cents, r);
    BucketUnique(L, b, BucketOf(added[order[r]].0), r);
    var j := AmongBucketRows(added, order[r]);
    hide Shape, BuiltFrom, BucketRows, BucketOf, NearestCell, RowCodes, QuantizeVec, Hold, BlockOf;
    FirstWithValue(cents, b * L.nlist, vals, RowCodes(L, b, r), cells[r]);
  }

  /** Rows built from well-formed vectors satisfy everything the search theorems ask of an index. */
  lemma BuiltIsValid(L: Layout, added: seq<(Vec, bool)>, order: seq<int>, cells: seq<int>, cents: seq<Vec>)
    requires Placed(L, added, order, cells, cents) && AllWellFormed(added)
    ensures ValidLayout(L)
  {
    hide Shape, IsFraud, NearestCell, InCell, RowCodes, InBucket, WellFormed, BucketOf;
    forall b, r | RowIn(L, b, r)
      ensures InBucket(RowCodes(L, b, r), b)
    {
      RowInRange(L, b, r);
      assert RowPlaced(L, added, order, cells, cents, r);
      var v := added[order[r]].0;
      BucketUnique(L, b, BucketOf(v), r);
      QuantizedInBucket(v);
    }
  }

  lemma BuiltValid(L: Layout)
    requires Built(L)
    ensures ValidLayout(L)
  {
    hide Placed, AllWellFormed, CentroidsStored, TrainedOn, ValidLayout;
    var added: seq<(Vec, bool)>, iters: nat, order: seq<int>, cells: seq<int>, cents: seq<Vec> :|
      BuiltFrom(L, added, iters, order, cells, cents) && AllWellFormed(added);
    BuiltIsValid(L, added, order, cells, cents);
  }

  // --- the builder ---

  class Builder {
    var rows: seq<Codes>
    var bucket: seq<int>
    var fraud: seq<bool>
    const nlist: int
    const iters: int
    ghost var added: seq<(Vec, bool)>

    ghost predicate Valid()
      reads this
    {
      1 <= nlist && 1 <= iters && Records(added, rows, bucket, fraud)
    }

    /** Non-positive parameters mean the defaults. */
    constructor (nlistHint: int, itersHint: int)
      ensures Valid() && added == []
      ensures nlist == if nlistHint <= 0 then 1024 else nlistHint
      ensures iters == if itersHint <= 0 then 10 else itersHint
    {
      rows, bucket, fraud, added := [], [], [], [];
      nlist := if nlistHint <= 0 then DEFAULT_NLIST else nlistHint;
      iters := if itersHint <= 0 then DEFAULT_ITERS else itersHint;
    }

    method Add(v: Vec, isFraud: bool)
      requires Valid()
      modifies this
      ensures Valid() && added == old(added) + [(v, isFraud)]
    {
      rows := rows + [QuantizeVec(v)];
      bucket := bucket + [BucketOf(v)];
      fraud := fraud + [isFraud];
      added := added + [(v, isFraud)];
    }

    /** The bucket sort. */
    method SortBuckets() returns (starts: seq<int>, mid: seq<Codes>, midLabels: seq<bool>)
      requires Valid()
      ensures |mid| == |midLabels| == |rows| && Tiles(starts, |rows|)
      ensures SortedByBucket(rows, fraud, bucket, starts, mid, midLabels)
    {
      hide Order, Start;
      starts := Offsets(bucket, BUCKETS, 0);
      var a := new Codes[|rows|](_ => seq(DIMS, _ => 0));
      var l := new bool[|rows|](_ => false);
      Scatter(rows, fraud, bucket, BUCKETS, starts, 0, a, l);
      mid, midLabels := a[..], l[..];
      BucketRunsTile(bucket, starts);
    }

    /** Build: the index holds every added vector, sorted by bucket, cell and order of adding, where the
      * cells are those of the bucket's trained centroids. All of a bucket's cells are probed by default,
      * up to the probe buffer. */
    method Build(procs: int, simd: bool) returns (ix: Index, ghost order: seq<int>, ghost cells: seq<int>,
        cents: seq<Vec>)
      requires Valid() && |rows| <= MAX_INT32
      ensures fresh(ix) && ix.Valid() && ix.nlist == nlist
      ensures BuiltFrom(ix.Stored(), added, iters, order, cells, cents)
      ensures ix.centroids == cents && IsWords(ix.fraud, ix.n) && IsTwin(ix.centroidsI16, cents, nlist)
      ensures ix.Tuning().nprobe == if nlist > 512 then 512 else nlist
    {
      hide Shape, BucketDone, SortedByBucket, CellStage, StoredBlock, FlagAt, QuantizeVec, Placed, CentroidsStored,
        TrainedOn, Records, Tiles, NonDecreasing, OnGrid, IsWords, IsTwin;
      var starts, mid, midLabels := SortBuckets();
      var final, finalLabels, cellStart;
      ghost var assigns;
      final, finalLabels, cents, cellStart, assigns := SortCells(mid, midLabels, starts, nlist, iters, procs);
      ghost var s := Stages(rows, fraud, bucket, starts, mid, midLabels, nlist, iters, cents, assigns, cellStart,
        final, finalLabels);
      var words := PackBits(finalLabels);
      TilesEnds(starts, |rows|);
      var soa := TransposeAll(final, starts, BUCKETS);
      var twin := CentroidTwin(cents, nlist);
      TwinParts(twin, cents, nlist);
      var L := Layout(|rows|, nlist, soa, words, twin, cellStart, starts);
      CellStageHolds(s);
      assert Assembled(L, s);
      AssembledShape(L, s);
      order, cells := Sources(L, s, added);
      CentroidsHeld(L, s);
      StagesTrained(s, added);
      BucketsHeld(L, s, added);
      ix := new Index(L, cents, if nlist > MAX_PROBE then MAX_PROBE else nlist, simd);
    }
  }

  lemma TwinParts(s: seq<int>, cents: seq<Vec>, nlist: nat)
    requires IsTwin(s, cents, nlist)
    ensures |s| == BUCKETS * nlist * DIMS + TAIL_PAD && OnGrid(s)
    ensures forall b | 0 <= b < BUCKETS :: StoredBlock(s, QuantizeAll(cents), Multiples(nlist, BUCKETS), b)
  {
  }

  lemma TilesEnds(starts: seq<int>, n: int)
    requires Tiles(starts, n)
    ensures |starts| == BUCKETS + 1 && NonDecreasing(starts) && starts[0] == 0 && starts[BUCKETS] == n
  {
  }

  lemma CellStageHolds(s: Stages)
    requires |s.rows| == |s.mid| == |s.midLabels| == |s.final| == |s.finalLabels| && Tiles(s.starts, |s.rows|)
    requires 1 <= s.nlist && 1 <= s.iters && |s.cents| == BUCKETS * s.nlist && |s.assigns| == BUCKETS
    requires |s.cellStart| == BUCKETS * s.nlist + 1 && SortedUpTo(s.cellStart, |s.rows|)
    requires s.cellStart[BUCKETS * s.nlist] == |s.rows|
    requires forall b | 0 <= b < BUCKETS ::
      BucketDone(s.mid, s.midLabels, s.starts, s.nlist, s.iters, b, s.assigns[b], s.final, s.finalLabels, s.cents,
        s.cellStart)
    ensures CellStage(s)
  {
  }

  lemma CentroidsHeld(L: Layout, s: Stages)
    requires Assembled(L, s) && Shape(L)
    ensures CentroidsStored(L, s.cents)
  {
    hide Shape, BucketDone, BucketStage, StoredBlock, FlagAt, QuantizeVec, CentroidStored;
    forall b, c | 0 <= b < BUCKETS && 0 <= c < L.nlist
      ensures CentroidStored(L, s.cents, b, c)
    {
      AssembledCentroid(L, s, b, c);
    }
  }
}
