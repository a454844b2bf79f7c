/** Building an index: two chained stable counting sorts (by bucket, then by k-means cell), bit
  * packing and the transpose. The result is a rearrangement of the added rows in which every row
  * can be read back, sits in its own bucket and cell, and keeps its label.
  */
module Build {
  import opened Grid
  import opened Layout
  import opened CountingSort
  import opened Lloyd
  import opened Training
  import opened Packing

  // --- one counting sort ---

  /** Histogram and running sum: where each key's run begins, from `base`. */
  method Offsets(keys: seq<int>, m: nat, base: int) returns (starts: seq<int>)
    requires KeysBelow(keys, m)
    ensures |starts| == m + 1
    ensures forall k | 0 <= k <= m :: starts[k] == base + Start(keys, k)
  {
    hide Start;
    var counts := new int[m](_ => 0);
    for i := 0 to |keys|
      invariant forall k | 0 <= k < m :: counts[k] == CountTo(keys, k, i)
    {
      counts[keys[i]] := counts[keys[i]] + 1;
    }
    var out := new int[m + 1];
    var acc := base;
    StartOfZero(keys);
    for k := 0 to m
      invariant acc == base + Start(keys, k)
      invariant forall j | 0 <= j < k :: out[j] == base + Start(keys, j)
      invariant forall j | 0 <= j < m :: counts[j] == CountTo(keys, j, |keys|)
    {
      out[k] := acc;
      StartStep(keys, k);
      acc := acc + counts[k];
    }
    out[m] := acc;
    starts := out[..];
  }

  lemma StartOfZero(keys: seq<int>)
    ensures Start(keys, 0) == 0
  {
  }

  /** The scatter loop: element i goes to its key's next free slot. Read by slot, the destination
    * lists the source in the stable order of its keys. */
  method Scatter(src: seq<Codes>, labels: seq<bool>, keys: seq<int>, m: nat, starts: seq<int>, base: nat,
                 dst: array<Codes>, dstLabels: array<bool>)
    requires |src| == |labels| == |keys| && KeysBelow(keys, m)
    requires |starts| == m + 1 && forall k | 0 <= k <= m :: starts[k] == base + Start(keys, k)
    requires base + |src| <= dst.Length == dstLabels.Length
    modifies dst, dstLabels
    ensures |Order(keys, m)| == |src|
    ensures forall t | 0 <= t < |src| ::
      dst[base + t] == src[Order(keys, m)[t]] && dstLabels[base + t] == labels[Order(keys, m)[t]]
    ensures forall r | 0 <= r < dst.Length && !(base <= r < base + |src|) ::
      dst[r] == old(dst[r]) && dstLabels[r] == old(dstLabels[r])
  {
    hide Start, CountTo, Order;
    OrderIsComplete(keys, m);
    var n := |src|;
    var pos := new int[m];
    for k := 0 to m
      invariant forall j | 0 <= j < k :: pos[j] == starts[j]
      modifies pos
    {
      pos[k] := starts[k];
    }
    forall k | 0 <= k < m
      ensures pos[k] == base + Start(keys, k) + CountTo(keys, k, 0)
    {
      CountOfNone(keys, k);
    }
    for i := 0 to n
      invariant forall k | 0 <= k < m :: pos[k] == base + Start(keys, k) + CountTo(keys, k, i)
      invariant forall j | 0 <= j < i :: Landed(src, labels, keys, m, base, dst[..], dstLabels[..], j)
      invariant forall r | 0 <= r < dst.Length && !(base <= r < base + n) ::
        dst[r] == old(dst[r]) && dstLabels[r] == old(dstLabels[r])
    {
      var k := keys[i];
      OrderAtSlot(keys, m, i);
      var to := pos[k];
      assert to == base + Slot(keys, i);
      pos[k] := pos[k] + 1;
      ghost var d0, l0 := dst[..], dstLabels[..];
      dst[to] := src[i];
      dstLabels[to] := labels[i];
      forall j | 0 <= j < i
        ensures Landed(src, labels, keys, m, base, dst[..], dstLabels[..], j)
      {
        assert Landed(src, labels, keys, m, base, d0, l0, j);
        OrderAtSlot(keys, m, j);
      }
      forall j | 0 <= j < m
        ensures pos[j] == base + Start(keys, j) + CountTo(keys, j, i + 1)
      {
        CountStep(keys, j, i);
      }
    }
    forall t | 0 <= t < n
      ensures dst[base + t] == src[Order(keys, m)[t]] && dstLabels[base + t] == labels[Order(keys, m)[t]]
    {
      var i := OrderEntry(keys, m, t);
      assert Landed(src, labels, keys, m, base, dst[..], dstLabels[..], i);
    }
  }

  lemma OrderEntry(keys: seq<int>, m: nat, t: nat) returns (i: nat)
    requires KeysBelow(keys, m) && t < |Order(keys, m)|
    ensures i == Order(keys, m)[t] && i < |keys| && 0 <= keys[i] < m && Slot(keys, i) == t
  {
    i := Order(keys, m)[t];
    SlotOfOrder(keys, m, t);
  }

  lemma CountOfNone(keys: seq<int>, k: int)
    ensures CountTo(keys, k, 0) == 0
  {
  }

  lemma CountStep(keys: seq<int>, k: int, i: nat)
    requires i < |keys|
    ensures CountTo(keys, k, i + 1) == CountTo(keys, k, i) + if keys[i] == k then 1 else 0
  {
  }

  predicate Landed(src: seq<Codes>, labels: seq<bool>, keys: seq<int>, m: nat, base: nat,
                   dst: seq<Codes>, dstLabels: seq<bool>, i: nat)
    requires |src| == |labels| == |keys| && KeysBelow(keys, m) && base + |src| <= |dst| == |dstLabels|
  {
    i < |src| && var to := base + Slot(keys, i); to < |dst| && dst[to] == src[i] && dstLabels[to] == labels[i]
  }

  // --- one bucket: train, assign, sort by cell ---

  /** What building bucket rows [lo, lo + m) leaves behind: `assign` holds each row's cell in bucket
    * order, and the final rows list the bucket rows in the stable order of their cells. */
  ghost predicate BucketSorted(rows: seq<Codes>, labels: seq<bool>, lo: nat, m: nat, nlist: nat, assign: seq<int>,
                               final: seq<Codes>, finalLabels: seq<bool>)
    requires |rows| == |labels| == |final| == |finalLabels| && lo + m <= |rows|
  {
    && |assign| == m && KeysBelow(assign, nlist) && |Order(assign, nlist)| == m
    && forall t | 0 <= t < m ::
         final[lo + t] == rows[lo + Order(assign, nlist)[t]]
         && finalLabels[lo + t] == labels[lo + Order(assign, nlist)[t]]
  }

  /** Every row's cell is the lowest-index nearest trained centroid of its bucket. */
  ghost predicate CellsAreNearest(rows: seq<Codes>, lo: nat, m: nat, cents: seq<Vec>, base: nat, nlist: nat,
      assign: seq<int>)
    requires lo + m <= |rows| && base + nlist <= |cents| && |assign| == m && 1 <= nlist
  {
    m > 0 ==> forall i | 0 <= i < m ::
      assign[i] == Nearest(rows[lo + i], cents[base..base + Cells(nlist, m)], Cells(nlist, m))
  }

  /** The bucket's trained centroids, the unused ones still at zero. */
  ghost predicate CentroidsTrained(x: seq<Codes>, cents: seq<Vec>, base: int, nlist: nat, iters: nat) {
    && 0 <= base && 1 <= nlist && base + nlist <= |cents|
    && (|x| > 0 ==> cents[base..base + Cells(nlist, |x|)] == Trained(x, Cells(nlist, |x|), iters))
    && (forall j | base + Cells(nlist, |x|) <= j < base + nlist :: cents[j] == Zero())
  }

  method BuildBucket(rows: seq<Codes>, labels: seq<bool>, lo: nat, m: nat, cents: array<Vec>, base: nat, nlist: nat,
                     iters: nat, procs: int, final: array<Codes>, finalLabels: array<bool>)
    returns (assign: seq<int>, starts: seq<int>)
    requires |rows| == |labels| == final.Length == finalLabels.Length && lo + m <= |rows|
    requires 1 <= nlist && base + nlist <= cents.Length
    requires forall j | base <= j < base + nlist :: cents[j] == Zero()
    modifies cents, final, finalLabels
    ensures BucketSorted(rows, labels, lo, m, nlist, assign, final[..], finalLabels[..])
    ensures CellsAreNearest(rows, lo, m, cents[..], base, nlist, assign)
    ensures CentroidsTrained(rows[lo..lo + m], cents[..], base, nlist, iters)
    ensures |starts| == nlist + 1 && forall c | 0 <= c <= nlist :: starts[c] == lo + Start(assign, c)
    ensures forall r | 0 <= r < |rows| && !(lo <= r < lo + m) ::
      final[r] == old(final[r]) && finalLabels[r] == old(finalLabels[r])
    ensures forall j | 0 <= j < cents.Length && !(base <= j < base + nlist) :: cents[j] == old(cents[j])
  {
    hide Nearest, Order, Start, Trained, CellsAreNearest, BucketSorted;
    assign := Run(rows, lo, m, cents, base, nlist, iters, procs);
    AssignedNearest(rows, lo, m, cents[..], base, nlist, assign);
    ghost var trained := cents[..];
    starts := Offsets(assign, nlist, lo);
    Scatter(rows[lo..lo + m], labels[lo..lo + m], assign, nlist, starts, lo, final, finalLabels);
    SliceSorted(rows, labels, lo, m, nlist, assign, final[..], finalLabels[..]);
    assert cents[..] == trained;
  }

  lemma AssignedNearest(rows: seq<Codes>, lo: nat, m: nat, cents: seq<Vec>, base: nat, nlist: nat, assign: seq<int>)
    requires lo + m <= |rows| && base + nlist <= |cents| && |assign| == m && 1 <= nlist
    requires m > 0 ==> forall i | 0 <= i < m ::
      assign[i] == Nearest(rows[lo + i], cents[base..base + Cells(nlist, m)], Cells(nlist, m))
    ensures CellsAreNearest(rows, lo, m, cents, base, nlist, assign) && KeysBelow(assign, nlist)
  {
  }

  lemma SliceSorted(rows: seq<Codes>, labels: seq<bool>, lo: nat, m: nat, nlist: nat, assign: seq<int>,
                    final: seq<Codes>, finalLabels: seq<bool>)
    requires |rows| == |labels| == |final| == |finalLabels| && lo + m <= |rows|
    requires |assign| == m && KeysBelow(assign, nlist) && |Order(assign, nlist)| == m
    requires forall t | 0 <= t < m ::
      final[lo + t] == rows[lo..lo + m][Order(assign, nlist)[t]]
      && finalLabels[lo + t] == labels[lo..lo + m][Order(assign, nlist)[t]]
    ensures BucketSorted(rows, labels, lo, m, nlist, assign, final, finalLabels)
  {
    hide Order;
    forall t | 0 <= t < m
      ensures final[lo + t] == rows[lo + Order(assign, nlist)[t]]
        && finalLabels[lo + t] == labels[lo + Order(assign, nlist)[t]]
    {
      var i := OrderEntry(assign, nlist, t);
    }
  }

  // --- all buckets ---

  /** Bucket boundaries: sixteen runs that tile [0, n). */
  predicate Tiles(starts: seq<int>, n: int) {
    |starts| == BUCKETS + 1 && NonDecreasing(starts) && starts[0] == 0 && starts[BUCKETS] == n
  }

  function Lo(starts: seq<int>, b: int): int
    requires |starts| == BUCKETS + 1 && 0 <= b < BUCKETS
  {
    starts[b]
  }

  function Size(starts: seq<int>, b: int): int
    requires |starts| == BUCKETS + 1 && 0 <= b < BUCKETS
  {
    starts[b + 1] - starts[b]
  }

  lemma TileBounds(starts: seq<int>, n: int, b: int)
    requires Tiles(starts, n) && 0 <= b < BUCKETS
    ensures 0 <= Lo(starts, b) && 0 <= Size(starts, b) && Lo(starts, b) + Size(starts, b) <= n
    ensures forall c | 0 <= c < b :: Lo(starts, c) + Size(starts, c) <= Lo(starts, b)
  {
    assert starts[0] <= starts[b] <= starts[b + 1] <= starts[BUCKETS];
    forall c | 0 <= c < b
      ensures Lo(starts, c) + Size(starts, c) <= Lo(starts, b)
    {
      assert starts[c + 1] <= starts[b];
    }
  }

  /** Everything the cell sort promises about bucket `b`. */
  ghost predicate BucketDone(rows: seq<Codes>, labels: seq<bool>, starts: seq<int>, nlist: nat, iters: nat, b: int,
                             assign: seq<int>, final: seq<Codes>, finalLabels: seq<bool>, cents: seq<Vec>,
                             cellStart: seq<int>)
  {
    && |rows| == |labels| == |final| == |finalLabels| && Tiles(starts, |rows|) && 0 <= b < BUCKETS && 1 <= nlist
    && 0 <= b * nlist && b * nlist + nlist <= |cents| && b * nlist + nlist <= |cellStart|
    && 0 <= Lo(starts, b) && 0 <= Size(starts, b) && Lo(starts, b) + Size(starts, b) <= |rows|
    && BucketSorted(rows, labels, Lo(starts, b), Size(starts, b), nlist, assign, final, finalLabels)
    && CellsAreNearest(rows, Lo(starts, b), Size(starts, b), cents, b * nlist, nlist, assign)
    && CentroidsTrained(rows[Lo(starts, b)..Lo(starts, b) + Size(starts, b)], cents, b * nlist, nlist, iters)
    && (forall c | 0 <= c < nlist :: cellStart[b * nlist + c] == Lo(starts, b) + Start(assign, c))
  }

  /** Later buckets touch neither the rows, nor the centroids, nor the offsets of earlier ones. */
  lemma BucketDoneKept(rows: seq<Codes>, labels: seq<bool>, starts: seq<int>, nlist: nat, iters: nat, b: int,
      assign: seq<int>, final: seq<Codes>, finalLabels: seq<bool>, cents: seq<Vec>, cellStart: seq<int>,
      final': seq<Codes>, finalLabels': seq<bool>, cents': seq<Vec>, cellStart': seq<int>)
    requires BucketDone(rows, labels, starts, nlist, iters, b, assign, final, finalLabels, cents, cellStart)
    requires |final'| == |final| && |finalLabels'| == |finalLabels| && |cents'| == |cents| && cellStart <= cellStart'
    requires forall r | Lo(starts, b) <= r < Lo(starts, b) + Size(starts, b) ::
      final'[r] == final[r] && finalLabels'[r] == finalLabels[r]
    requires forall j | b * nlist <= j < b * nlist + nlist :: cents'[j] == cents[j]
    ensures BucketDone(rows, labels, starts, nlist, iters, b, assign, final', finalLabels', cents', cellStart')
  {
    hide Nearest, Order, Start, Trained;
    var base, k := b * nlist, Cells(nlist, Size(starts, b));
    assert cents'[base..base + k] == cents[base..base + k];
  }

  /** The offsets appended so far are sorted and do not pass `bound`. */
  predicate SortedUpTo(s: seq<int>, bound: int) {
    NonDecreasing(s) && forall i | 0 <= i < |s| :: s[i] <= bound
  }

  lemma AppendSorted(s: seq<int>, t: seq<int>, mid: int, bound: int)
    requires SortedUpTo(s, mid) && SortedUpTo(t, bound) && mid <= bound
    requires forall i | 0 <= i < |t| :: mid <= t[i]
    ensures SortedUpTo(s + t, bound)
  {
  }

  lemma SegmentSorted(assign: seq<int>, nlist: nat, lo: int, starts: seq<int>)
    requires KeysBelow(assign, nlist)
    requires |starts| == nlist + 1 && forall c | 0 <= c <= nlist :: starts[c] == lo + Start(assign, c)
    ensures SortedUpTo(starts[..nlist], lo + |assign|)
    ensures forall c | 0 <= c < nlist :: lo <= starts[c]
  {
    hide Start;
    OrderIsComplete(assign, nlist);
    assert Start(assign, nlist) == |assign| by { StartIsLength(assign, nlist); }
    forall i, j | 0 <= i <= j <= nlist
      ensures starts[i] <= starts[j]
    {
      StartMonotone(assign, i, j);
    }
    StartOfZero(assign);
    assert lo == starts[0];
    assert forall c | 0 <= c < nlist :: starts[0] <= starts[c] <= starts[nlist];
  }

  lemma StartIsLength(keys: seq<int>, k: nat)
    ensures Start(keys, k) == |Order(keys, k)|
  {
  }

  /** Step 3 of Build: per bucket, train, assign and sort by cell. */
  method SortCells(rows: seq<Codes>, labels: seq<bool>, starts: seq<int>, nlist: nat, iters: nat, procs: int)
    returns (final: seq<Codes>, finalLabels: seq<bool>, cents: seq<Vec>, cellStart: seq<int>,
      ghost assigns: seq<seq<int>>)
    requires |rows| == |labels| && Tiles(starts, |rows|) && 1 <= nlist
    ensures |final| == |finalLabels| == |rows| && |cents| == BUCKETS * nlist && |assigns| == BUCKETS
    ensures |cellStart| == BUCKETS * nlist + 1 && SortedUpTo(cellStart, |rows|) && cellStart[BUCKETS * nlist] == |rows|
    ensures forall b | 0 <= b < BUCKETS ::
      BucketDone(rows, labels, starts, nlist, iters, b, assigns[b], final, finalLabels, cents, cellStart)
  {
    hide BucketSorted, CellsAreNearest, CentroidsTrained, Start, BucketDone, Tiles, Zero;
    var n := |rows|;
    var fa := new Codes[n](_ => seq(DIMS, _ => 0));
    var fl := new bool[n](_ => false);
    var ca := new Vec[BUCKETS * nlist](_ => Zero());
    cellStart, assigns := [], [];
    NoOffsets(starts, n);
    for b := 0 to BUCKETS
      invariant |assigns| == b && |cellStart| == b * nlist
      invariant SortedUpTo(cellStart, starts[b])
      invariant forall j | b * nlist <= j < BUCKETS * nlist :: ca[j] == Zero()
      invariant forall c | 0 <= c < b ::
        BucketDone(rows, labels, starts, nlist, iters, c, assigns[c], fa[..], fl[..], ca[..], cellStart)
    {
      TileBounds(starts, n, b);
      CellBase(b, nlist);
      ghost var fa0, fl0, ca0, cs0, as0 := fa[..], fl[..], ca[..], cellStart, assigns;
      var assign, offsets := BuildBucket(rows, labels, Lo(starts, b), Size(starts, b), ca, b * nlist, nlist, iters,
        procs, fa, fl);
      SegmentFacts(rows, labels, starts, nlist, b, assign, fa[..], fl[..], offsets);
      AppendSorted(cellStart, offsets[..nlist], starts[b], starts[b + 1]);
      cellStart := cellStart + offsets[..nlist];
      assigns := assigns + [assign];
      forall c | 0 <= c < b
        ensures BucketDone(rows, labels, starts, nlist, iters, c, assigns[c], fa[..], fl[..], ca[..], cellStart)
      {
        EarlierBucket(c, b, nlist);
        TileBounds(starts, n, c);
        BucketDoneKept(rows, labels, starts, nlist, iters, c, as0[c], fa0, fl0, ca0, cs0, fa[..], fl[..], ca[..],
          cellStart);
      }
      NowDone(rows, labels, starts, nlist, iters, b, assign, fa[..], fl[..], ca[..], cs0, offsets);
    }
    final, finalLabels, cents := fa[..], fl[..], ca[..];
    LastTile(starts, n);
    AppendSorted(cellStart, [n], n, n);
    ghost var cs0 := cellStart;
    cellStart := cellStart + [n];
    forall b | 0 <= b < BUCKETS
      ensures BucketDone(rows, labels, starts, nlist, iters, b, assigns[b], final, finalLabels, cents, cellStart)
    {
      BucketDoneKept(rows, labels, starts, nlist, iters, b, assigns[b], final, finalLabels, cents, cs0, final,
        finalLabels, cents, cellStart);
    }
  }

  lemma NoOffsets(starts: seq<int>, n: int)
    requires Tiles(starts, n)
    ensures |starts| == BUCKETS + 1 && SortedUpTo([], starts[0])
  {
  }

  lemma LastTile(starts: seq<int>, n: int)
    requires Tiles(starts, n)
    ensures |starts| == BUCKETS + 1 && starts[BUCKETS] == n
  {
  }

  lemma {:induction false} EarlierBucket(c: int, b: int, nlist: nat)
    requires 0 <= c < b
    ensures 0 <= c * nlist && c * nlist + nlist <= b * nlist
    decreases b - c
  {
    assert b * nlist == (b - 1) * nlist + nlist;
    if c < b - 1 {
      EarlierBucket(c, b - 1, nlist);
    }
  }

  lemma SegmentFacts(rows: seq<Codes>, labels: seq<bool>, starts: seq<int>, nlist: nat, b: int, assign: seq<int>,
                     final: seq<Codes>, finalLabels: seq<bool>, offsets: seq<int>)
    requires |rows| == |labels| == |final| == |finalLabels| && Tiles(starts, |rows|) && 0 <= b < BUCKETS
    requires 0 <= Lo(starts, b) && 0 <= Size(starts, b) && Lo(starts, b) + Size(starts, b) <= |rows|
    requires BucketSorted(rows, labels, Lo(starts, b), Size(starts, b), nlist, assign, final, finalLabels)
    requires |offsets| == nlist + 1 && forall c | 0 <= c <= nlist :: offsets[c] == Lo(starts, b) + Start(assign, c)
    ensures SortedUpTo(offsets[..nlist], starts[b + 1]) && starts[b] <= starts[b + 1]
    ensures forall c | 0 <= c < nlist :: starts[b] <= offsets[..nlist][c]
  {
    hide Start, Order;
    SegmentSorted(assign, nlist, Lo(starts, b), offsets);
  }

  lemma NowDone(rows: seq<Codes>, labels: seq<bool>, starts: seq<int>, nlist: nat, iters: nat, b: int, assign: seq<int>,
                final: seq<Codes>, finalLabels: seq<bool>, cents: seq<Vec>, before: seq<int>, offsets: seq<int>)
    requires |rows| == |labels| == |final| == |finalLabels| && Tiles(starts, |rows|) && 0 <= b < BUCKETS && 1 <= nlist
    requires 0 <= b * nlist && b * nlist + nlist <= |cents| && |before| == b * nlist
    requires 0 <= Lo(starts, b) && 0 <= Size(starts, b) && Lo(starts, b) + Size(starts, b) <= |rows|
    requires BucketSorted(rows, labels, Lo(starts, b), Size(starts, b), nlist, assign, final, finalLabels)
    requires CellsAreNearest(rows, Lo(starts, b), Size(starts, b), cents, b * nlist, nlist, assign)
    requires CentroidsTrained(rows[Lo(starts, b)..Lo(starts, b) + Size(starts, b)], cents, b * nlist, nlist, iters)
    requires |offsets| == nlist + 1 && forall c | 0 <= c <= nlist :: offsets[c] == Lo(starts, b) + Start(assign, c)
    ensures BucketDone(rows, labels, starts, nlist, iters, b, assign, final, finalLabels, cents,
      before + offsets[..nlist])
  {
    hide Start, BucketSorted, CellsAreNearest, CentroidsTrained;
  }

  // --- dim-major storage ---

  lemma BlockHoldsKept(s: seq<int>, s': seq<int>, base: int, src: seq<Codes>)
    requires 0 <= base && base + DIMS * |src| <= |s| == |s'|
    requires BlockHolds(s, base, src, |src|)
    requires forall i | base <= i < base + DIMS * |src| :: s'[i] == s[i]
    ensures BlockHolds(s', base, src, |src|)
  {
    hide BlockIndex;
    forall l, d | 0 <= l < |src| && 0 <= d < DIMS
      ensures CodeStored(s', base, src, l, d)
    {
      BlockIndexInRange(base, |src|, d, l);
      assert CodeStored(s, base, src, l, d);
    }
  }

  /** Block `b` of `s`, whose blocks start at `first[b]` rows, holds the rows of `src` from there. */
  ghost predicate StoredBlock(s: seq<int>, src: seq<Codes>, first: seq<int>, b: int) {
    && 0 <= b && b + 1 < |first| && 0 <= first[b] <= first[b + 1] <= |src|
    && first[b] * DIMS + DIMS * (first[b + 1] - first[b]) <= |s|
    && BlockHolds(s, first[b] * DIMS, src[first[b]..first[b + 1]], first[b + 1] - first[b])
  }

  /** The transpose of all buckets, or of all centroid blocks: block b is rows [first[b], first[b + 1])
    * of `src`, stored dim-major, with a zero tail for the kernel's wide loads. */
  method TransposeAll(src: seq<Codes>, first: seq<int>, blocks: nat) returns (s: seq<int>)
    requires |first| == blocks + 1 && NonDecreasing(first) && first[0] == 0 && first[blocks] == |src|
    ensures |s| == |src| * DIMS + TAIL_PAD && OnGrid(s)
    ensures forall b | 0 <= b < blocks :: StoredBlock(s, src, first, b)
    ensures forall i | |src| * DIMS <= i < |s| :: s[i] == 0
  {
    hide BlockHolds;
    var a := new int[|src| * DIMS + TAIL_PAD](_ => 0);
    for b := 0 to blocks
      invariant OnGrid(a[..])
      invariant forall c | 0 <= c < b :: StoredBlock(a[..], src, first, c)
      invariant forall i | |src| * DIMS <= i < a.Length :: a[i] == 0
    {
      assert first[0] <= first[b] <= first[b + 1] <= first[blocks];
      ghost var a0 := a[..];
      TransposeBlock(a, first[b] * DIMS, src[first[b]..first[b + 1]]);
      forall c | 0 <= c < b
        ensures StoredBlock(a[..], src, first, c)
      {
        assert StoredBlock(a0, src, first, c);
        assert first[c + 1] <= first[b];
        BlockHoldsKept(a0, a[..], first[c] * DIMS, src[first[c]..first[c + 1]]);
      }
    }
    s := a[..];
  }

  /** Read back with the search's strides. */
  lemma StoredReads(s: seq<int>, src: seq<Codes>, first: seq<int>, b: int, r: int)
    requires OnGrid(s) && StoredBlock(s, src, first, b) && first[b] <= r < first[b + 1]
    ensures Strided(s, first[b] * DIMS + (r - first[b]), first[b + 1] - first[b]) == src[r]
  {
    hide BlockHolds, Strided;
    BlockReadsBack(s, first[b] * DIMS, src[first[b]..first[b + 1]], r - first[b]);
  }

  function QuantizeAll(cents: seq<Vec>): (q: seq<Codes>)
    ensures |q| == |cents| && forall i | 0 <= i < |q| :: q[i] == QuantizeVec(cents[i])
  {
    seq(|cents|, i requires 0 <= i < |cents| => QuantizeVec(cents[i]))
  }

  function Multiples(nlist: nat, blocks: nat): (f: seq<int>)
    ensures |f| == blocks + 1 && forall b | 0 <= b <= blocks :: f[b] == b * nlist
  {
    seq(blocks + 1, b requires 0 <= b => b * nlist)
  }

  /** The quantized, dim-major twin of the centroids: block b holds the codes of bucket b's, the tail
    * is zero. */
  ghost predicate IsTwin(s: seq<int>, cents: seq<Vec>, nlist: nat) {
    && |cents| == BUCKETS * nlist && |s| == BUCKETS * nlist * DIMS + TAIL_PAD && OnGrid(s)
    && (forall b | 0 <= b < BUCKETS :: StoredBlock(s, QuantizeAll(cents), Multiples(nlist, BUCKETS), b))
    && (forall i | BUCKETS * nlist * DIMS <= i < |s| :: s[i] == 0)
  }

  /** buildCentroidI16 */
  method CentroidTwin(cents: seq<Vec>, nlist: nat) returns (s: seq<int>)
    requires |cents| == BUCKETS * nlist
    ensures IsTwin(s, cents, nlist)
  {
    hide StoredBlock, OnGrid;
    forall b, c | 0 <= b <= c <= BUCKETS
      ensures b * nlist <= c * nlist
    {
      Ordered(b, c, nlist);
    }
    s := TransposeAll(QuantizeAll(cents), Multiples(nlist, BUCKETS), BUCKETS);
  }

  lemma Split(i: int, m: int, k: int)
    requires 0 <= i < k * m && 0 < m
    ensures 0 <= i / m < k && i == (i / m) * m + i % m && 0 <= i % m < m
  {
    if i / m >= k {
      assert (i / m) * m >= k * m by { Grows(k, i / m, m); }
    }
  }

  lemma Grows(k: int, x: int, m: int)
    requires k <= x && 0 < m
    ensures k * m <= x * m
  {
    assert x * m == k * m + (x - k) * m;
    assert (x - k) * m >= 0;
  }

  lemma StoredAgree(s: seq<int>, t: seq<int>, src: seq<Codes>, first: seq<int>, b: int, j: int)
    requires StoredBlock(s, src, first, b) && StoredBlock(t, src, first, b)
    requires 0 <= j < DIMS * (first[b + 1] - first[b])
    ensures 0 <= first[b] * DIMS + j < |s| && first[b] * DIMS + j < |t|
    ensures s[first[b] * DIMS + j] == t[first[b] * DIMS + j]
  {
    var rows := first[b + 1] - first[b];
    Split(j, rows, DIMS);
    var block := src[first[b]..first[b + 1]];
    assert CodeStored(s, first[b] * DIMS, block, j % rows, j / rows);
    assert CodeStored(t, first[b] * DIMS, block, j % rows, j / rows);
  }

  /** The twin is determined by the centroids: computing it again gives the same array. */
  lemma TwinUnique(s: seq<int>, t: seq<int>, cents: seq<Vec>, nlist: nat)
    requires 1 <= nlist && IsTwin(s, cents, nlist) && IsTwin(t, cents, nlist)
    ensures s == t
  {
    hide StoredBlock, OnGrid;
    forall i | 0 <= i < |s|
      ensures s[i] == t[i]
    {
      if i < BUCKETS * nlist * DIMS {
        var m := DIMS * nlist;
        Split(i, m, BUCKETS);
        var b := i / m;
        var first := Multiples(nlist, BUCKETS);
        assert first[b] * DIMS == b * m;
        assert first[b + 1] - first[b] == nlist;
        StoredAgree(s, t, QuantizeAll(cents), first, b, i % m);
      }
    }
  }
}
