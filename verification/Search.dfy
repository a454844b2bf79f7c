/** The index object and its two-tier search, statement by statement. */
module Search {
  import opened Grid
  import opened Ranking
  import opened Words
  import opened Layout
  import opened Collectors
  import opened Scan
  import ScanFacts
  import opened Kernel
  import Tiers

  const CHUNK: int := 512

  class Index {
    var data: seq<int>
    var fraud: seq<int>
    var n: int
    var nlist: int
    var centroids: seq<Vec>
    var centroidsI16: seq<int>
    var cellStart: seq<int>
    var bucketStart: seq<int>

    var nprobe: int
    var maxScan: int
    var nprobeHigh: int
    var highByCount: seq<int>
    var triggerRadius: real
    var triggerMargin: real

    const useSimd: bool

    ghost function Stored(): Layout
      reads this
    {
      Layout(n, nlist, data, fraud, centroidsI16, cellStart, bucketStart)
    }

    ghost function Tuning(): Knobs
      reads this
    {
      Knobs(nprobe, maxScan, nprobeHigh, highByCount, triggerRadius, triggerMargin)
    }

    ghost predicate Valid()
      reads this
    {
      Shape(Stored()) && ValidKnobs(Tuning(), nlist)
    }

    /** A loaded or freshly built layout starts untuned: escalation off, no scan cap. It is valid as soon
      * as the layout has the shape of an index and at least one cell is probed. */
    constructor (L: Layout, cents: seq<Vec>, probes: int, simd: bool)
      ensures Shape(L) && 1 <= probes <= L.nlist ==> Valid()
      ensures Stored() == L && centroids == cents && useSimd == simd
      ensures Tuning() == Knobs(probes, 0, 0, [0, 0, 0, 0, 0, 0], 0.0, 0.0)
    {
      data, fraud, n, nlist := L.data, L.fraud, L.n, L.nlist;
      centroids := cents;
      centroidsI16, cellStart, bucketStart := L.centroidsI16, L.cellStart, L.bucketStart;
      nprobe, maxScan, nprobeHigh := probes, 0, 0;
      highByCount := [0, 0, 0, 0, 0, 0];
      triggerRadius, triggerMargin := 0.0, 0.0;
      useSimd := simd;
    }

    // --- knobs ---

    function Clamped(np: int): (r: int)
      reads this
      ensures 1 <= np && 1 <= nlist ==>
        1 <= r <= nlist && r <= 512 && r <= np && (r == np || r == nlist || r == 512)
    {
      var m := if np > nlist then nlist else np;
      if m > MAX_PROBE then MAX_PROBE else m
    }

    method SetNProbe(np: int)
      requires Valid()
      modifies this`nprobe
      ensures Valid()
      ensures nprobe == if np <= 0 then old(nprobe) else Clamped(np)
    {
      if np <= 0 {
        return;
      }
      nprobe := Clamped(np);
    }

    method SetMaxScan(rows: int)
      requires Valid()
      modifies this`maxScan
      ensures Valid()
      ensures maxScan == if rows < 0 then 0 else rows
    {
      maxScan := if rows < 0 then 0 else rows;
    }

    method SetNProbeHigh(np: int)
      requires Valid()
      modifies this`nprobeHigh, this`highByCount
      ensures Valid()
      ensures nprobeHigh == if np <= 0 then 0 else Clamped(np)
      ensures forall i | 0 <= i <= K :: highByCount[i] == nprobeHigh
      ensures forall count :: HighProbe(Tuning(), count) == if np <= 0 then 0 else Clamped(np)
    {
      nprobeHigh := if np <= 0 then 0 else Clamped(np);
      for i := 0 to |highByCount|
        invariant |highByCount| == K + 1
        invariant forall j | 0 <= j < i :: highByCount[j] == nprobeHigh
        invariant forall j | 0 <= j <= K :: 0 <= highByCount[j] <= nlist && highByCount[j] <= MAX_PROBE
        modifies this`highByCount
      {
        highByCount := highByCount[i := nprobeHigh];
      }
    }

    method SetNProbeHighForCount(count: int, np: int)
      requires Valid()
      modifies this`highByCount
      ensures Valid()
      ensures highByCount == if 0 <= count <= K then old(highByCount)[count := if np <= 0 then 0 else Clamped(np)]
                             else old(highByCount)
      ensures 0 <= count <= K ==> HighProbe(Tuning(), count) == if np <= 0 then nprobeHigh else Clamped(np)
      ensures forall other | other != count :: HighProbe(Tuning(), other) == old(HighProbe(Tuning(), other))
    {
      if count < 0 || count > K {
        return;
      }
      highByCount := highByCount[count := if np <= 0 then 0 else Clamped(np)];
    }

    method SetTriggerRadius(r: real)
      requires Valid()
      modifies this`triggerRadius
      ensures Valid()
      ensures triggerRadius == if r <= 0.0 then old(triggerRadius) else r
    {
      if r <= 0.0 {
        return;
      }
      triggerRadius := r;
    }

    method SetTriggerMargin(m: real)
      requires Valid()
      modifies this`triggerMargin
      ensures Valid() && triggerMargin == m
    {
      triggerMargin := m;
    }

    // --- reading rows ---

    /** bucketOfRow: linear search for the first bucket that ends beyond the row. */
    method FindBucket(row: int) returns (b: int)
      requires Shape(Stored()) && 0 <= row < n
      ensures b == BucketOfRow(Stored(), row)
    {
      b := 0;
      while b < BUCKETS
        invariant 0 <= b <= BUCKETS
        invariant b < BUCKETS ==> bucketStart[b] <= row
        invariant b < BUCKETS ==> BucketFrom(Stored(), row, b) == BucketOfRow(Stored(), row)
        invariant b == BUCKETS ==> bucketStart[BUCKETS] <= row
      {
        if row < bucketStart[b + 1] {
          return;
        }
        b := b + 1;
      }
      assert false;
    }

    /** dist2: exact distance of a stored row. */
    method RowDist2(q: Vec, row: int) returns (d: real)
      requires Shape(Stored()) && 0 <= row < n
      ensures d == Dist2(q, RowAt(Stored(), row))
    {
      hide Shape, RowCodes, Dequant;
      var b := FindBucket(row);
      BucketBounds(Stored(), b);
      var lo := bucketStart[b];
      var rows := bucketStart[b + 1] - lo;
      ghost var c := RowCodes(Stored(), b, row);
      d := 0.0;
      for i := 0 to DIMS
        invariant d == SumTo(Terms(q, c), i)
      {
        RowRead(Stored(), b, row, i);
        var diff := q[i] - Dequant(data[lo * DIMS + i * rows + (row - lo)]);
        d := d + diff * diff;
      }
    }

    function FraudBit(row: int): bool
      requires Shape(Stored()) && 0 <= row < n
      reads this
      ensures FraudBit(row) == IsFraud(Stored(), row)
    {
      BitAt(fraud[row / 64], row % 64)
    }

    // --- scanning ---

    /** One chunk of scanCellCollect: eight rows at a time while full blocks last, then one by one.
      * The collector sees the same feed with and without the kernel. */
    method ScanChunk(qc: Codes, b: int, lo: int, c: int, buf: array<int>, col: IntTopK)
      requires Shape(Stored()) && 0 <= b < BUCKETS && 0 <= c <= CHUNK == buf.Length
      requires |bucketStart| == BUCKETS + 1 && bucketStart[b] <= lo && lo + c <= bucketStart[b + 1]
      requires col.Valid() && buf != col.dist && buf != col.row
      modifies col, col.dist, col.row, buf
      ensures col.Valid()
      ensures col.fed == old(col.fed) + CellFeed(Stored(), qc, b, lo, lo + c)
    {
      hide Shape, IntDist, Strided, OnGrid, IntTopK.Valid, CellFeed, Offered;
      ghost var L := Stored();
      ghost var all := CellFeed(L, qc, b, lo, lo + c);
      Basics(L);
      BucketBounds(L, b);
      var bLo := bucketStart[b];
      var rows := bucketStart[b + 1] - bLo;
      var base := bLo * DIMS + (lo - bLo);
      var i := 0;
      if useSimd {
        var nb := c / LANES;
        if nb > 0 {
          DistSoAi16(qc, data, base, rows, nb, buf);
          while i < nb * LANES
            invariant 0 <= i <= nb * LANES
            invariant forall r | 0 <= r < nb * LANES :: buf[r] == IntDist(qc, Strided(data, base + r, rows))
            invariant col.Valid() && col.fed == old(col.fed) + all[..i]
          {
            RowCell(L, qc, b, lo, c, i, old(col.fed));
            col.Consider(buf[i], lo + i);
            i := i + 1;
          }
        }
      }
      while i < c
        invariant 0 <= i <= c
        invariant col.Valid() && col.fed == old(col.fed) + all[..i]
      {
        RowCell(L, qc, b, lo, c, i, old(col.fed));
        var d := ScalarIntDist(qc, data, base + i, rows);
        col.Consider(d, lo + i);
        i := i + 1;
      }
      assert all[..c] == all;
    }

    /** scanCellCollect: rows [gLo, gLo + m) of bucket `b`, chunk by chunk. */
    method ScanCellCollect(qc: Codes, b: int, gLo: int, m: int, col: IntTopK)
      requires Shape(Stored()) && 0 <= b < BUCKETS && 0 <= m
      requires |bucketStart| == BUCKETS + 1 && bucketStart[b] <= gLo && gLo + m <= bucketStart[b + 1]
      requires col.Valid()
      modifies col, col.dist, col.row
      ensures col.Valid()
      ensures col.fed == old(col.fed) + CellFeed(Stored(), qc, b, gLo, gLo + m)
    {
      hide Shape, IntTopK.Valid, CellFeed;
      var buf := new int[CHUNK];
      var done := 0;
      while done < m
        invariant 0 <= done <= m
        invariant col.Valid() && col.fed == old(col.fed) + CellFeed(Stored(), qc, b, gLo, gLo + done)
      {
        var c := if m - done > CHUNK then CHUNK else m - done;
        ScanChunk(qc, b, gLo + done, c, buf, col);
        ChunksJoin(Stored(), qc, b, gLo, gLo + done, gLo + done + c, old(col.fed));
        done := done + c;
      }
    }

    /** probeBucketRange: rank the bucket's cells, scan ranks [npLo, npHi), stop at the cap. */
    method ProbeBucketRange(qc: Codes, b: int, npLo: int, npHi: int, col: IntTopK, scanned: int, cap: int)
      returns (scanned': int)
      requires Shape(Stored()) && 0 <= b < BUCKETS
      requires col.Valid()
      modifies col, col.dist, col.row
      ensures col.Valid()
      ensures col.fed == old(col.fed) + ProbeFeed(Stored(), qc, b, npLo, npHi, scanned, cap)
      ensures scanned' == scanned + |ProbeFeed(Stored(), qc, b, npLo, npHi, scanned, cap)|
    {
      hide Shape, IntTopK.Valid, CellFeed, CellRows, Ranked, RanksFeed, IntSlots;
      ghost var L := Stored();
      Basics(L);
      scanned' := scanned;
      var np := ProbeCount(nlist, npHi);
      var lo := if npLo < 0 then 0 else npLo;
      if lo >= np {
        return;
      }
      var pd, pc := SelectCells(qc, b, np);
      ghost var cells := Ranked(L, qc, b, np);
      ghost var target := old(col.fed) + RanksFeed(L, qc, b, cells, lo, scanned, cap);
      var i := lo;
      while i < np
        invariant lo <= i <= np
        invariant scanned' - |col.fed| == scanned - |old(col.fed)|
        invariant col.Valid() && col.fed + RanksFeed(L, qc, b, cells, i, scanned', cap) == target
      {
        SlotAt(pd, pc, cells, i);
        if pd[i] == MAX_INT32 {
          break;
        }
        var cell := pc[i];
        RanksStep(L, qc, b, cells, i, scanned', cap, col.fed);
        CellRowsFeed(L, qc, b, cell);
        var m := cellStart[cell + 1] - cellStart[cell];
        if m <= 0 {
          i := i + 1;
          continue;
        }
        ScanCellCollect(qc, b, cellStart[cell], m, col);
        scanned' := scanned' + m;
        if cap > 0 && scanned' >= cap {
          return;
        }
        i := i + 1;
      }
      RanksEnd(L, qc, b, cells, scanned', cap, col.fed);
    }

    /** One chunk of centroids, ranked with the kernel for full blocks and one by one after. */
    method RankChunk(qc: Codes, b: int, np: int, done: int, c: int, buf: array<int>, pd: array<int>, pc: array<int>)
      requires Shape(Stored()) && 0 <= b < BUCKETS && 1 <= np <= nlist && np <= MAX_PROBE
      requires 0 <= done && 0 <= c <= CHUNK == buf.Length && done + c <= nlist
      requires pd.Length == pc.Length == MAX_PROBE && pd != pc && pd != buf && pc != buf
      requires IntSlots(pd[..np], pc[..np], Best(np, CentroidFeed(Stored(), qc, b)[..done]))
      modifies buf, pd, pc
      ensures IntSlots(pd[..np], pc[..np], Best(np, CentroidFeed(Stored(), qc, b)[..done + c]))
    {
      hide Shape, IntDist, Strided, OnGrid, IntSlots, CentroidFeed, Best, Offered;
      ghost var L := Stored();
      ghost var all := CentroidFeed(L, qc, b);
      var first := b * nlist;
      CentroidBound(L, b, first);
      var block := first * DIMS;
      var i := 0;
      if useSimd {
        var nb := c / LANES;
        if nb > 0 {
          DistSoAi16(qc, centroidsI16, block + done, nlist, nb, buf);
          while i < nb * LANES
            invariant 0 <= i <= nb * LANES
            invariant forall r | 0 <= r < nb * LANES ::
              buf[r] == IntDist(qc, Strided(centroidsI16, block + done + r, nlist))
            invariant IntSlots(pd[..np], pc[..np], Best(np, all[..done + i]))
          {
            CentroidCell(L, qc, b, first, done + i);
            InsertProbe(pd, pc, np, buf[i], first + done + i, all[..done + i]);
            i := i + 1;
          }
        }
      }
      while i < c
        invariant 0 <= i <= c
        invariant IntSlots(pd[..np], pc[..np], Best(np, all[..done + i]))
      {
        CentroidCell(L, qc, b, first, done + i);
        var d := ScalarIntDist(qc, centroidsI16, block + done + i, nlist);
        InsertProbe(pd, pc, np, d, first + done + i, all[..done + i]);
        i := i + 1;
      }
    }

    /** The cell ranking of probeBucketRange: all centroids of the bucket, chunk by chunk. */
    method SelectCells(qc: Codes, b: int, np: int) returns (dists: seq<int>, cells: seq<int>)
      requires Shape(Stored()) && 0 <= b < BUCKETS && 1 <= np <= nlist && np <= MAX_PROBE
      ensures IntSlots(dists, cells, Ranked(Stored(), qc, b, np))
    {
      hide Shape, IntSlots, CentroidFeed, Best;
      ghost var all := CentroidFeed(Stored(), qc, b);
      var pd := new int[MAX_PROBE];
      var pc := new int[MAX_PROBE];
      for i := 0 to np
        invariant forall j | 0 <= j < i :: pd[j] == MAX_INT32
      {
        pd[i] := MAX_INT32;
      }
      EmptySlots(pd[..np], pc[..np]);
      assert all[..0] == [];
      var buf := new int[CHUNK];
      var done := 0;
      while done < nlist
        invariant 0 <= done <= nlist
        invariant IntSlots(pd[..np], pc[..np], Best(np, all[..done]))
      {
        var c := if nlist - done > CHUNK then CHUNK else nlist - done;
        RankChunk(qc, b, np, done, c, buf, pd, pc);
        done := done + c;
      }
      assert all[..nlist] == all;
      dists, cells := pd[..np], pc[..np];
    }

    /** scanRange: own bucket, then every other bucket that the prune admits. */
    method ScanBuckets(q: Vec, qc: Codes, npLo: int, npHi: int, col: IntTopK, scanned: int, cap: int)
      returns (scanned': int)
      requires Shape(Stored()) && qc == QuantizeVec(q)
      requires col.Valid()
      modifies col, col.dist, col.row
      ensures col.Valid()
      ensures col.fed == ScanRange(Stored(), q, npLo, npHi, old(col.fed), scanned, cap)
      ensures scanned' == scanned + |col.fed| - |old(col.fed)|
    {
      hide Shape, ProbeFeed, BucketPenalty, QuantizeVec, BucketOf, IntTopK.Valid, WorstOf, ScanFrom, Pruned;
      ghost var L := Stored();
      var b0 := BucketOf(q);
      scanned' := ProbeBucketRange(qc, b0, npLo, npHi, col, scanned, cap);
      ghost var target := ScanRange(L, q, npLo, npHi, old(col.fed), scanned, cap);
      var b := 0;
      while b < BUCKETS
        invariant 0 <= b <= BUCKETS
        invariant col.Valid()
        invariant scanned' == scanned + |col.fed| - |old(col.fed)|
        invariant target == ScanFrom(L, q, b, npLo, npHi, col.fed, scanned', cap)
      {
        ScanStep(L, q, b, npLo, npHi, col.fed, scanned', cap);
        if b == b0 {
          b := b + 1;
          continue;
        }
        if cap > 0 && scanned' >= cap {
          return;
        }
        col.FullWorst();
        if col.Full() && BucketPenalty(q, b) * 1e8 >= col.Worst() as real + 1e5 {
          b := b + 1;
          continue;
        }
        scanned' := ProbeBucketRange(qc, b, npLo, npHi, col, scanned', cap);
        b := b + 1;
      }
      ScanEnd(L, q, npLo, npHi, col.fed, scanned', cap);
    }

    /** refine: exact distances of the collected rows, five nearest kept. */
    method Refine(q: Vec, col: IntTopK) returns (tk: TopK)
      requires Shape(Stored()) && col.Valid()
      requires RowTags(Stored(), Best(CAND_K, col.fed))
      ensures fresh(tk) && fresh(tk.dist) && fresh(tk.fraud) && tk.Valid()
      ensures tk.fed == Visible(RefineFeed(Stored(), q, Best(CAND_K, col.fed)))
      ensures Best(K, tk.fed) == Refined(Stored(), q, col.fed)
    {
      hide Shape, Dist2, RowAt, TopK.Valid, Visible, OfferedReal;
      ghost var kept := Best(CAND_K, col.fed);
      ghost var feed := RefineFeed(Stored(), q, kept);
      tk := new TopK();
      VisibleNone(feed);
      for i := 0 to col.n
        invariant fresh(tk) && fresh(tk.dist) && fresh(tk.fraud) && tk.Valid()
        invariant tk.fed == Visible(feed[..i])
      {
        assert col.dist[..][i] == col.dist[i] && col.row[..][i] == col.row[i];
        var row := col.row[i];
        assert kept[i].tag == row && feed[i] == ExactEntry(Stored(), q, row);
        var d := RowDist2(q, row);
        tk.Consider(d, FraudBit(row));
        VisibleStep(feed, i);
      }
      assert feed[..col.n] == feed;
    }

    method HighProbeForCount(count: int) returns (np: int)
      requires Valid()
      ensures np == HighProbe(Tuning(), count)
      ensures 0 <= np <= nlist && np <= MAX_PROBE
      ensures 0 <= count <= K && highByCount[count] > 0 ==> np == highByCount[count]
      ensures !(0 <= count <= K) || highByCount[count] == 0 ==> np == nprobeHigh
    {
      if count >= 0 && count <= K && highByCount[count] > 0 {
        return highByCount[count];
      }
      np := nprobeHigh;
    }

    method ShouldEscalateOn(tk: TopK) returns (yes: bool)
      requires Valid() && tk.Valid()
      ensures yes == ShouldEscalate(Tuning(), Best(K, tk.fed))
      ensures triggerMargin >= 0.0 ==>
        (yes <==> 3.0 - triggerMargin <= FraudCount(Best(K, tk.fed)) as real <= 3.0 + triggerMargin)
    {
      if triggerMargin >= 0.0 {
        var votes := tk.Vote();
        var d := votes as real - 3.0;
        if d < 0.0 {
          d := -d;
        }
        yes := d <= triggerMargin;
      } else {
        yes := tk.Worst() >= triggerRadius;
      }
    }

    /** searchTopKTrace: cheap tier, then, if the vote is in doubt, the wider ranks into the same
      * collector. */
    method SearchTopK(q: Vec) returns (tk: TopK, scanned: int, highScanned: int, escalated: bool)
      requires Valid()
      ensures RowTags(Stored(), Best(CAND_K, CheapFeed(Stored(), Tuning(), q)))
      ensures RowTags(Stored(), Best(CAND_K, SearchFeed(Stored(), Tuning(), q)))
      ensures tk.Valid() && Best(K, tk.fed) == Refined(Stored(), q, SearchFeed(Stored(), Tuning(), q))
      ensures escalated == Escalates(Stored(), Tuning(), q)
      ensures var cheap := Refined(Stored(), q, CheapFeed(Stored(), Tuning(), q));
        var votes := FraudCount(cheap);
        && (HighProbe(Tuning(), votes) <= nprobe ==> !escalated)
        && (HighProbe(Tuning(), votes) > nprobe ==>
              && (0.0 <= triggerMargin < 1.0 ==> (escalated <==> votes == 3))
              && (1.0 <= triggerMargin < 2.0 ==> (escalated <==> 2 <= votes <= 4))
              && (2.0 <= triggerMargin < 3.0 ==> (escalated <==> 1 <= votes <= 5))
              && (triggerMargin >= 3.0 ==> escalated)
              && (triggerMargin < 0.0 && |cheap| < 5 ==> (escalated <==> triggerRadius <= MAX_FLOAT))
              && (triggerMargin < 0.0 && |cheap| >= 5 ==> (escalated <==> cheap[4].key >= triggerRadius)))
      ensures scanned == |CheapFeed(Stored(), Tuning(), q)|
      ensures scanned + highScanned == |SearchFeed(Stored(), Tuning(), q)|
      ensures !escalated ==> highScanned == 0
      ensures scanned + highScanned <= n
    {
      hide Shape, ScanRange, ShouldEscalate, FraudCount, Visible, Refined, Best, IntTopK.Valid, TopK.Valid;
      ghost var L, kn := Stored(), Tuning();
      ScanFacts.SearchFacts(L, kn, q);
      Tiers.NoRowTwice(L, kn, q);
      InDoubtWhen(kn, Refined(L, q, CheapFeed(L, kn, q)));
      var qc := QuantizeVec(q);
      var col := new IntTopK();
      scanned := ScanBuckets(q, qc, 0, nprobe, col, 0, maxScan);
      tk := Refine(q, col);
      highScanned, escalated := 0, false;
      var votes := tk.Vote();
      var high := HighProbeForCount(votes);
      if high > nprobe {
        escalated := ShouldEscalateOn(tk);
        if escalated {
          highScanned := ScanBuckets(q, qc, nprobe, high, col, 0, 0);
          tk := Refine(q, col);
        }
      }
    }

    /** ScoreCount: the fraud votes of the five nearest found. */
    method ScoreCount(q: Vec) returns (votes: int)
      requires Valid()
      ensures RowTags(Stored(), Best(CAND_K, CheapFeed(Stored(), Tuning(), q)))
      ensures RowTags(Stored(), Best(CAND_K, SearchFeed(Stored(), Tuning(), q)))
      ensures votes == FraudCount(Refined(Stored(), q, SearchFeed(Stored(), Tuning(), q)))
    {
      ScanFacts.SearchFacts(Stored(), Tuning(), q);
      if n == 0 {
        EmptyVote(Stored(), Tuning(), q);
        return 0;
      }
      var tk, scanned, highScanned, escalated := SearchTopK(q);
      votes := tk.Vote();
    }

    /** BruteDebug: every row, exact distances, vote and search radius. */
    method BruteDebug(q: Vec) returns (votes: int, radius: real)
      requires Shape(Stored())
      ensures votes == FraudCount(Brute(Stored(), q))
      ensures radius == if n == 0 then 0.0 else Radius(Brute(Stored(), q))
    {
      hide Shape, Dist2, RowAt, TopK.Valid, Visible, OfferedReal;
      ghost var feed := BruteFeed(Stored(), q);
      VisibleNone(feed);
      if n == 0 {
        assert feed[..0] == feed;
        return 0, 0.0;
      }
      var tk := new TopK();
      for r := 0 to n
        invariant fresh(tk) && fresh(tk.dist) && fresh(tk.fraud) && tk.Valid()
        invariant tk.fed == Visible(feed[..r])
      {
        var d := RowDist2(q, r);
        VisibleStep(feed, r);
        tk.Consider(d, FraudBit(r));
      }
      assert feed[..n] == feed;
      votes := tk.Vote();
      radius := tk.Worst();
    }
  }

  lemma EmptySlots(dist: seq<int>, tag: seq<int>)
    requires |dist| == |tag| && forall i | 0 <= i < |dist| :: dist[i] == MAX_INT32
    ensures IntSlots(dist, tag, Best(|dist|, []))
  {
  }

  lemma SlotAt(dist: seq<int>, tag: seq<int>, best: seq<Entry<int>>, i: int)
    requires IntSlots(dist, tag, best) && 0 <= i < |best|
    ensures |dist| == |tag| && i < |dist| && dist[i] < MAX_INT32 && tag[i] == best[i].tag
  {
  }

  /** One round of the probe loop, seen from a collector that was fed `past` before it. */
  lemma RanksStep(L: Layout, qc: Codes, b: int, cells: seq<Entry<int>>, i: nat, scanned: int, cap: int,
                  past: seq<Entry<int>>)
    requires Shape(L) && 0 <= b < BUCKETS && i < |cells| && CellsOf(L, b, cells)
    ensures var rows := CellRows(L, qc, b, cells[i].tag);
      past + RanksFeed(L, qc, b, cells, i, scanned, cap) ==
      if |rows| > 0 && cap > 0 && scanned + |rows| >= cap then past + rows
      else past + rows + RanksFeed(L, qc, b, cells, i + 1, scanned + |rows|, cap)
    ensures CellRows(L, qc, b, cells[i].tag) == [] ==> past + CellRows(L, qc, b, cells[i].tag) == past
  {
    hide Shape, CellRows;
    var rows := CellRows(L, qc, b, cells[i].tag);
    Associate(past, rows, RanksFeed(L, qc, b, cells, i + 1, scanned + |rows|, cap));
  }

  lemma RanksEnd(L: Layout, qc: Codes, b: int, cells: seq<Entry<int>>, scanned: int, cap: int, past: seq<Entry<int>>)
    requires Shape(L) && 0 <= b < BUCKETS && CellsOf(L, b, cells)
    ensures past + RanksFeed(L, qc, b, cells, |cells|, scanned, cap) == past
  {
    hide Shape;
  }

  /** Feeding row `i` of a cell after the first `i` extends the prefix fed by one. */
  lemma RowCell(L: Layout, qc: Codes, b: int, gLo: int, m: int, i: int, past: seq<Entry<int>>)
    requires Shape(L) && 0 <= b < BUCKETS && 0 <= i < m && |L.bucketStart| == BUCKETS + 1
    requires L.bucketStart[b] <= gLo && gLo + m <= L.bucketStart[b + 1]
    ensures var lo := L.bucketStart[b]; var rows := L.bucketStart[b + 1] - lo;
      var off := lo * DIMS + (gLo - lo) + i;
      var f := CellFeed(L, qc, b, gLo, gLo + m);
      && OnGrid(L.data) && 0 <= off && off + 13 * rows < |L.data|
      && past + f[..i + 1] == past + f[..i] + Offered(IntDist(qc, Strided(L.data, off, rows)), gLo + i)
  {
    Basics(L);
    BucketBounds(L, b);
    hide Shape;
    assert RowIn(L, b, gLo + i);
    var f := CellFeed(L, qc, b, gLo, gLo + m);
    assert f[..i + 1] == f[..i] + [f[i]];
    Associate(past, f[..i], [f[i]]);
  }

  lemma CentroidCell(L: Layout, qc: Codes, b: int, first: int, c: int)
    requires Shape(L) && 0 <= b < BUCKETS && 0 <= c < L.nlist && first == b * L.nlist
    ensures var off := first * DIMS + c;
      && OnGrid(L.centroidsI16) && 0 <= off && off + 13 * L.nlist < |L.centroidsI16|
      && CentroidFeed(L, qc, b)[..c + 1]
         == CentroidFeed(L, qc, b)[..c] + Offered(IntDist(qc, Strided(L.centroidsI16, off, L.nlist)), first + c)
  {
    Basics(L);
    CellBase(b, L.nlist);
    hide Shape, Strided;
    var f := CentroidFeed(L, qc, b);
    assert f[..c + 1] == f[..c] + [f[c]];
  }

  /** A block of centroids that ends within the bucket stays within the centroid array. */
  lemma CentroidBound(L: Layout, b: int, first: int)
    requires Shape(L) && 0 <= b < BUCKETS && first == b * L.nlist
    ensures OnGrid(L.centroidsI16) && 0 <= first && first * DIMS + DIMS * L.nlist <= |L.centroidsI16|
  {
    Basics(L);
    CellBase(b, L.nlist);
  }

  lemma EmptyVote(L: Layout, kn: Knobs, q: Vec)
    requires Shape(L) && L.n == 0 && |kn.highByCount| == K + 1
    requires RowTags(L, Best(CAND_K, CheapFeed(L, kn, q)))
    requires RowTags(L, Best(CAND_K, SearchFeed(L, kn, q)))
    ensures FraudCount(Refined(L, q, SearchFeed(L, kn, q))) == 0
  {
    hide Shape, SearchFeed, CheapFeed;
    NoRowsNoEntries(L, Best(CAND_K, SearchFeed(L, kn, q)));
  }

  lemma NoRowsNoEntries(L: Layout, kept: seq<Entry<int>>)
    requires RowTags(L, kept)
    ensures |kept| > 0 ==> L.n > 0
  {
    if |kept| > 0 {
      assert 0 <= kept[0].tag < L.n;
    }
  }
}
