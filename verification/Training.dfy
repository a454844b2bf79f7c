/** The k-means training of one bucket: evenly spaced seeds, Lloyd iterations on a sample, and the
  * parallel assignment of every row.
  */
module Training {
  import opened Grid
  import opened Lloyd
  import Words

  const SAMPLE: int := 50000
  const PARALLEL_MIN: int := 8192

  // --- evenly spaced rows ---

  lemma Spread(i: int, stride: int, count: int, m: int)
    requires 0 <= i < count && 0 <= stride && count * stride <= m
    ensures 0 <= i * stride && i * stride + stride <= m
  {
    assert (i + 1) * stride <= count * stride;
  }

  lemma DivFits(m: int, count: int)
    requires 0 <= m && 0 < count
    ensures 0 <= m / count && count * (m / count) <= m
    ensures count <= m ==> 1 <= m / count
  {
  }

  /** How far apart the sampled rows are: neighbours when all `m` rows are taken. */
  function SampleStride(m: int, size: int): (stride: int)
    requires 0 <= m && 1 <= size
    ensures 1 <= stride
  {
    DivFits(m, size);
    if size >= m then 1 else m / size
  }

  function SampleCount(m: int, size: int): int {
    if size >= m then m else size
  }

  lemma SampleFits(m: int, size: int, i: int)
    requires 0 <= m && 1 <= size && 0 <= i < SampleCount(m, size)
    ensures 0 <= i * SampleStride(m, size) < m
  {
    DivFits(m, size);
    Spread(i, SampleStride(m, size), SampleCount(m, size), m);
  }

  /** sampleRows: up to `size` distinct rows of [lo, hi), evenly spaced from the first. */
  method SampleRows(lo: int, hi: int, size: int) returns (ids: seq<int>)
    requires 0 <= lo <= hi && 1 <= size
    ensures |ids| == if size >= hi - lo then hi - lo else size
    ensures forall i | 0 <= i < |ids| :: ids[i] == lo + i * SampleStride(hi - lo, size)
    ensures forall i | 0 <= i < |ids| :: lo <= ids[i] < hi
    ensures forall i, j | 0 <= i < j < |ids| :: ids[i] < ids[j]
  {
    var m := hi - lo;
    var stride := if size >= m then 1 else m / size;
    var count := if size >= m then m else size;
    var a := new int[count];
    for i := 0 to count
      invariant forall j | 0 <= j < i :: a[j] == lo + j * stride
    {
      a[i] := lo + i * stride;
    }
    ids := a[..];
    forall i | 0 <= i < count
      ensures lo <= ids[i] < hi
    {
      SampleFits(m, size, i);
    }
    forall i, j | 0 <= i < j < count
      ensures ids[i] < ids[j]
    {
      Ordered(i, j, stride);
    }
  }

  lemma {:induction false} Ordered(u: int, w: int, step: int)
    requires 0 <= u <= w && 0 <= step
    ensures 0 <= u * step <= w * step
    ensures u < w ==> u * step + step <= w * step
    decreases w - u
  {
    if u < w {
      Ordered(u, w - 1, step);
      assert w * step == (w - 1) * step + step;
    }
  }

  // --- nearest ---

  method NearestCentroid(x: Codes, cents: seq<Vec>, k: nat) returns (best: nat)
    requires 1 <= k <= |cents|
    ensures best == Nearest(x, cents, k)
  {
    hide Dist2;
    best := 0;
    var bestD, first := 0.0, true;
    for c := 0 to k
      invariant first <==> c == 0
      invariant c > 0 ==> best == Nearest(x, cents, c) && bestD == Dist2(cents[best], x)
    {
      var d := DistanceLoop(x, cents[c]);
      if first || d < bestD {
        best, bestD, first := c, d, false;
      }
    }
  }

  method DistanceLoop(x: Codes, v: Vec) returns (d: real)
    ensures d == Dist2(v, x)
  {
    hide Dequant;
    d := 0.0;
    for j := 0 to DIMS
      invariant d == SumTo(Terms(v, x), j)
    {
      var diff := Dequant(x[j]) - v[j];
      Mirror(Dequant(x[j]), v[j]);
      d := d + diff * diff;
    }
  }

  lemma Mirror(a: real, b: real)
    ensures (a - b) * (a - b) == (b - a) * (b - a)
  {
  }

  // --- parallel assignment ---

  /** Chunk `w` of [0, n): [ChunkLo(w), ChunkHi(w)). */
  function ChunkLo(n: int, chunk: int, w: int): int {
    if w * chunk > n then n else w * chunk
  }

  function ChunkHi(n: int, chunk: int, w: int): int {
    if w * chunk + chunk > n then n else w * chunk + chunk
  }

  function CeilDiv(n: int, workers: int): int
    requires workers > 0
  {
    (n + workers - 1) / workers
  }

  /** The chunks of all workers cover [0, n) ... */
  lemma ChunkOwner(n: int, workers: int, i: int) returns (w: int)
    requires 1 <= workers && 0 <= i < n
    ensures 0 <= w < workers
    ensures ChunkLo(n, CeilDiv(n, workers), w) <= i < ChunkHi(n, CeilDiv(n, workers), w)
  {
    var chunk := CeilDiv(n, workers);
    CeilCovers(n, workers);
    w := i / chunk;
    assert w * chunk <= i < w * chunk + chunk;
    if w >= workers {
      Ordered(workers, w, chunk);
    }
  }

  lemma CeilCovers(n: int, workers: int)
    requires 1 <= workers && 1 <= n
    ensures 1 <= CeilDiv(n, workers) && workers * CeilDiv(n, workers) >= n
  {
    var q, r := CeilDiv(n, workers), (n + workers - 1) % workers;
    assert n + workers - 1 == workers * q + r;
    if q <= 0 {
      NotPositive(workers, q);
    }
  }

  lemma NotPositive(a: int, b: int)
    requires 0 <= a && b <= 0
    ensures a * b <= 0
  {
  }

  /** ... and do not overlap. */
  lemma ChunksDisjoint(n: int, chunk: int, u: int, w: int)
    requires 0 <= u < w && 0 <= chunk && 0 <= n
    ensures ChunkHi(n, chunk, u) <= ChunkLo(n, chunk, w)
  {
    Ordered(u, w, chunk);
  }

  function Remaining(n: int, chunk: int, cur: seq<int>, k: nat): int
    requires k <= |cur|
  {
    if k == 0 then 0 else Remaining(n, chunk, cur, k - 1) + ChunkHi(n, chunk, k - 1) - cur[k - 1]
  }

  predicate InChunks(n: int, chunk: int, cur: seq<int>) {
    forall w | 0 <= w < |cur| :: ChunkLo(n, chunk, w) <= cur[w] <= ChunkHi(n, chunk, w)
  }

  lemma {:induction false} RemainingStep(n: int, chunk: int, cur: seq<int>, w: nat, k: nat)
    requires k <= |cur| && w < |cur| && InChunks(n, chunk, cur)
    ensures Remaining(n, chunk, cur, k) >= 0
    ensures Remaining(n, chunk, cur[w := cur[w] + 1], k) == Remaining(n, chunk, cur, k) - if w < k then 1 else 0
  {
    hide ChunkHi, ChunkLo;
    if k > 0 {
      RemainingStep(n, chunk, cur, w, k - 1);
    }
  }

  predicate Assigned(a: seq<int>, rows: seq<Codes>, lo: nat, cents: seq<Vec>, k: nat, from: int, to: int)
    requires lo + |a| <= |rows| && 1 <= k <= |cents|
  {
    forall i | from <= i < to :: RowAssigned(a, rows, lo, cents, k, i)
  }

  predicate RowAssigned(a: seq<int>, rows: seq<Codes>, lo: nat, cents: seq<Vec>, k: nat, i: int)
    requires lo + |a| <= |rows| && 1 <= k <= |cents|
  {
    0 <= i < |a| && a[i] == Nearest(rows[lo + i], cents, k)
  }

  /** Every worker has finished its chunk up to its cursor. */
  ghost predicate Progress(a: seq<int>, rows: seq<Codes>, lo: nat, cents: seq<Vec>, k: nat, chunk: int, cur: seq<int>)
    requires lo + |a| <= |rows| && 1 <= k <= |cents|
  {
    forall w | 0 <= w < |cur| :: Assigned(a, rows, lo, cents, k, ChunkLo(|a|, chunk, w), cur[w])
  }

  /** One worker doing one row, at any moment, keeps everybody's progress. */
  lemma ProgressStep(a: seq<int>, rows: seq<Codes>, lo: nat, cents: seq<Vec>, k: nat, chunk: int, cur: seq<int>, w: nat)
    requires lo + |a| <= |rows| && 1 <= k <= |cents| && 0 <= chunk
    requires w < |cur| && InChunks(|a|, chunk, cur) && cur[w] < ChunkHi(|a|, chunk, w) && 0 <= cur[w] < |a|
    requires Progress(a, rows, lo, cents, k, chunk, cur)
    ensures Progress(a[cur[w] := Nearest(rows[lo + cur[w]], cents, k)], rows, lo, cents, k, chunk, cur[w := cur[w] + 1])
  {
    hide Nearest, ChunkLo, ChunkHi, InChunks;
    var i := cur[w];
    var a', cur' := a[i := Nearest(rows[lo + i], cents, k)], cur[w := i + 1];
    forall u | 0 <= u < |cur|
      ensures Assigned(a', rows, lo, cents, k, ChunkLo(|a|, chunk, u), cur'[u])
    {
      assert Assigned(a, rows, lo, cents, k, ChunkLo(|a|, chunk, u), cur[u]);
      if u != w {
        OtherChunk(|a|, chunk, cur, u, w);
      }
      forall j | ChunkLo(|a|, chunk, u) <= j < cur'[u]
        ensures RowAssigned(a', rows, lo, cents, k, j)
      {
        assert j == i || RowAssigned(a, rows, lo, cents, k, j);
      }
    }
  }

  /** When every worker is done, every row is assigned. */
  lemma ProgressDone(a: seq<int>, rows: seq<Codes>, lo: nat, cents: seq<Vec>, k: nat, cur: seq<int>, i: nat)
    requires lo + |a| <= |rows| && 1 <= k <= |cents| && 1 <= |cur| && i < |a|
    requires Progress(a, rows, lo, cents, k, CeilDiv(|a|, |cur|), cur)
    requires forall w | 0 <= w < |cur| :: cur[w] >= ChunkHi(|a|, CeilDiv(|a|, |cur|), w)
    ensures a[i] == Nearest(rows[lo + i], cents, k)
  {
    hide Nearest, ChunkLo, ChunkHi, CeilDiv;
    var w := ChunkOwner(|a|, |cur|, i);
    assert Assigned(a, rows, lo, cents, k, ChunkLo(|a|, CeilDiv(|a|, |cur|), w), cur[w]);
    assert RowAssigned(a, rows, lo, cents, k, i);
  }

  /** parallelFor over the rows of a bucket. Each round of the loop lets an arbitrary unfinished
    * worker do one row, so the postcondition holds under every interleaving. */
  method ParallelAssign(rows: seq<Codes>, lo: nat, n: nat, cents: seq<Vec>, k: nat, procs: int)
    returns (assign: seq<int>)
    requires lo + n <= |rows| && 1 <= k <= |cents|
    ensures |assign| == n
    ensures forall i | 0 <= i < n :: assign[i] == Nearest(rows[lo + i], cents, k)
  {
    hide Nearest, ChunkLo, ChunkHi, CeilDiv, Remaining, InChunks, Progress;
    if procs <= 1 || n < PARALLEL_MIN {
      assign := SequentialAssign(rows, lo, n, cents, k);
      return;
    }
    var a := new int[n];
    var workers := if procs > n then n else procs;
    var chunk := CeilDiv(n, workers);
    CeilCovers(n, workers);
    var cur := seq(workers, w requires 0 <= w => ChunkLo(n, chunk, w));
    StartsInChunks(n, chunk, workers);
    assert Progress(a[..], rows, lo, cents, k, chunk, cur) by { ProgressStart(a[..], rows, lo, cents, k, chunk, cur); }
    while exists w :: 0 <= w < workers && cur[w] < ChunkHi(n, chunk, w)
      invariant |cur| == workers && InChunks(n, chunk, cur)
      invariant Progress(a[..], rows, lo, cents, k, chunk, cur)
      decreases Remaining(n, chunk, cur, workers)
    {
      var w :| 0 <= w < workers && cur[w] < ChunkHi(n, chunk, w);
      ghost var cur0, a0 := cur, a[..];
      var i := cur[w];
      CursorInRange(n, chunk, cur, w);
      a[i] := NearestCentroid(rows[lo + i], cents, k);
      cur := cur[w := i + 1];
      assert a[..] == a0[i := Nearest(rows[lo + i], cents, k)];
      ProgressStep(a0, rows, lo, cents, k, chunk, cur0, w);
      RemainingStep(n, chunk, cur0, w, workers);
      RemainingPositive(n, chunk, cur, workers);
    }
    assign := a[..];
    forall i | 0 <= i < n
      ensures assign[i] == Nearest(rows[lo + i], cents, k)
    {
      ProgressDone(assign, rows, lo, cents, k, cur, i);
    }
  }

  lemma ProgressStart(a: seq<int>, rows: seq<Codes>, lo: nat, cents: seq<Vec>, k: nat, chunk: int, cur: seq<int>)
    requires lo + |a| <= |rows| && 1 <= k <= |cents|
    requires forall w | 0 <= w < |cur| :: cur[w] == ChunkLo(|a|, chunk, w)
    ensures Progress(a, rows, lo, cents, k, chunk, cur)
  {
  }

  /** The single-threaded path, and the reference for the parallel one. */
  method SequentialAssign(rows: seq<Codes>, lo: nat, n: nat, cents: seq<Vec>, k: nat) returns (assign: seq<int>)
    requires lo + n <= |rows| && 1 <= k <= |cents|
    ensures |assign| == n
    ensures forall i | 0 <= i < n :: assign[i] == Nearest(rows[lo + i], cents, k)
  {
    hide Nearest;
    var a := new int[n];
    for i := 0 to n
      invariant forall j | 0 <= j < i :: a[j] == Nearest(rows[lo + j], cents, k)
    {
      a[i] := NearestCentroid(rows[lo + i], cents, k);
    }
    assign := a[..];
  }

  lemma CursorInRange(n: int, chunk: int, cur: seq<int>, w: int)
    requires InChunks(n, chunk, cur) && 0 <= w < |cur| && 0 <= chunk && 0 <= n && cur[w] < ChunkHi(n, chunk, w)
    ensures ChunkLo(n, chunk, w) <= cur[w] && 0 <= cur[w] < n
    ensures InChunks(n, chunk, cur[w := cur[w] + 1])
  {
    ChunkInRange(n, chunk, w);
  }

  /** The row worker `w` is at is not among those of another worker. */
  lemma OtherChunk(n: int, chunk: int, cur: seq<int>, u: int, w: int)
    requires InChunks(n, chunk, cur) && 0 <= u < |cur| && 0 <= w < |cur| && u != w && 0 <= chunk && 0 <= n
    requires cur[w] < ChunkHi(n, chunk, w)
    ensures cur[w] < ChunkLo(n, chunk, u) || cur[w] >= cur[u]
  {
    if u < w {
      ChunksDisjoint(n, chunk, u, w);
    } else {
      ChunksDisjoint(n, chunk, w, u);
    }
  }

  lemma {:induction false} RemainingPositive(n: int, chunk: int, cur: seq<int>, k: nat)
    requires k <= |cur| && InChunks(n, chunk, cur)
    ensures Remaining(n, chunk, cur, k) >= 0
  {
    hide ChunkHi, ChunkLo;
    if k > 0 {
      RemainingPositive(n, chunk, cur, k - 1);
    }
  }

  lemma ChunkInRange(n: int, chunk: int, w: int)
    requires 0 <= w && 0 <= chunk && 0 <= n
    ensures 0 <= ChunkLo(n, chunk, w) <= ChunkHi(n, chunk, w) <= n
  {
    Ordered(0, w, chunk);
  }

  lemma StartsInChunks(n: int, chunk: int, workers: nat)
    requires 0 <= chunk && 0 <= n
    ensures InChunks(n, chunk, seq(workers, w requires 0 <= w => ChunkLo(n, chunk, w)))
  {
    forall w | 0 <= w < workers
      ensures ChunkLo(n, chunk, w) <= ChunkHi(n, chunk, w)
    {
      ChunkInRange(n, chunk, w);
    }
  }

  // --- one Lloyd iteration, in place ---

  /** Adds up the sample rows each centroid wins. */
  method Accumulate(sample: seq<Codes>, cents: seq<Vec>, sum: array<Vec>, cnt: array<int>)
    requires 1 <= |cents| == sum.Length == cnt.Length
    modifies sum, cnt
    ensures forall c | 0 <= c < |cents| ::
      cnt[c] == Cnt(sample, cents, |cents|, c, |sample|) && sum[c] == SumOf(sample, cents, |cents|, c, |sample|)
  {
    hide Nearest, Plus;
    var k := |cents|;
    for c := 0 to k
      invariant forall j | 0 <= j < c :: sum[j] == Zero() && cnt[j] == 0
    {
      sum[c] := Zero();
      cnt[c] := 0;
    }
    for i := 0 to |sample|
      invariant forall c | 0 <= c < k :: cnt[c] == Cnt(sample, cents, k, c, i)
      invariant forall c | 0 <= c < k :: sum[c] == SumOf(sample, cents, k, c, i)
    {
      var c := NearestCentroid(sample[i], cents, k);
      sum[c] := Plus(sum[c], sample[i]);
      cnt[c] := cnt[c] + 1;
    }
  }

  lemma TimesInverse(x: real, n: int)
    requires n > 0
    ensures x * (1.0 / n as real) == x / n as real
  {
  }

  /** One iteration over the centroids at [base, base + k): cells that won nothing stay put. */
  method LloydIteration(sample: seq<Codes>, cents: array<Vec>, base: nat, k: nat, sum: array<Vec>, cnt: array<int>)
    requires 1 <= k == sum.Length == cnt.Length && base + k <= cents.Length && cents != sum
    modifies cents, sum, cnt
    ensures cents[base..base + k] == Step(sample, old(cents[base..base + k]))
    ensures forall j | 0 <= j < cents.Length && !(base <= j < base + k) :: cents[j] == old(cents[j])
  {
    hide Nearest, Cnt, SumOf;
    ghost var before := cents[base..base + k];
    Accumulate(sample, cents[base..base + k], sum, cnt);
    for c := 0 to k
      invariant forall j | 0 <= j < c :: cents[base + j] == Moved(sample, before, k, j)
      invariant forall j | c <= j < k :: cents[base + j] == before[j]
      invariant forall j | 0 <= j < cents.Length && !(base <= j < base + k) :: cents[j] == old(cents[j])
      invariant forall j | 0 <= j < k :: cnt[j] == Cnt(sample, before, k, j, |sample|)
      invariant forall j | 0 <= j < k :: sum[j] == SumOf(sample, before, k, j, |sample|)
    {
      if cnt[c] == 0 {
        continue;
      }
      var inv := 1.0 / cnt[c] as real;
      var total := sum[c];
      ghost var mean := Scaled(total, cnt[c]);
      var moved := seq(DIMS, d requires 0 <= d < DIMS => total[d] * inv);
      forall d | 0 <= d < DIMS
        ensures moved[d] == mean[d]
      {
        TimesInverse(total[d], cnt[c]);
      }
      assert moved == mean;
      cents[base + c] := moved;
    }
    assert cents[base..base + k] == Step(sample, before);
  }

  // --- the whole run ---

  /** The rows k-means trains on: evenly spaced rows of the bucket, from the first. */
  function SampleOf(x: seq<Codes>): (s: seq<Codes>)
    ensures |s| == SampleCount(|x|, SAMPLE)
  {
    seq(SampleCount(|x|, SAMPLE), i requires 0 <= i < SampleCount(|x|, SAMPLE) => SampleAt(x, i))
  }

  function SampleAt(x: seq<Codes>, i: int): Codes
    requires 0 <= i < SampleCount(|x|, SAMPLE)
  {
    SampleFits(|x|, SAMPLE, i);
    x[i * SampleStride(|x|, SAMPLE)]
  }

  /** Centroid `c` starts at the c-th of k evenly spaced rows. */
  function SeedsOf(x: seq<Codes>, k: nat): (s: seq<Vec>)
    requires 1 <= k <= |x|
    ensures |s| == k
  {
    seq(k, c requires 0 <= c < k => SeedAt(x, k, c))
  }

  function SeedAt(x: seq<Codes>, k: nat, c: nat): Vec
    requires 1 <= k <= |x| && c < k
  {
    DivFits(|x|, k);
    Spread(c, |x| / k, k, |x|);
    DequantVec(x[c * (|x| / k)])
  }

  /** The k centroids of a bucket with rows `x`: Lloyd's algorithm on the sample, from the seeds. */
  function Trained(x: seq<Codes>, k: nat, iters: nat): (t: seq<Vec>)
    requires 1 <= k <= |x|
    ensures |t| == k
  {
    Iterate(SampleOf(x), SeedsOf(x, k), iters)
  }

  /** With more iterations the sample's clustering is never worse than with fewer, nor than with the seeds. */
  lemma TrainedNeverWorse(x: seq<Codes>, k: nat, fewer: nat, more: nat)
    requires 1 <= k <= |x| && fewer <= more
    ensures var s := SampleOf(x);
      && Cost(s, Trained(x, k, more), |s|) <= Cost(s, Trained(x, k, fewer), |s|)
      && Trained(x, k, 0) == SeedsOf(x, k)
  {
    TrainingNeverWorse(SampleOf(x), SeedsOf(x, k), fewer, more);
  }

  /** Training starts with the first of every |x| / k rows, and looks at all rows, or at 50000 as evenly spaced. */
  lemma TrainingStarts(x: seq<Codes>, k: nat, c: nat, i: nat)
    requires 1 <= k <= |x| && c < k
    ensures 0 <= c * (|x| / k) < |x| && Trained(x, k, 0)[c] == DequantVec(x[c * (|x| / k)])
    ensures |x| <= 50000 ==> SampleOf(x) == x
    ensures |x| > 50000 && i < 50000 ==>
      |SampleOf(x)| == 50000 && 0 <= i * (|x| / 50000) < |x| && SampleOf(x)[i] == x[i * (|x| / 50000)]
  {
    DivFits(|x|, k);
    Spread(c, |x| / k, k, |x|);
    if |x| <= 50000 {
      assert SampleOf(x) == x;
    } else if i < 50000 {
      SampleFits(|x|, SAMPLE, i);
    }
  }

  /** Every iteration moves each centroid to the point that is nearest to the sampled rows it wins, by their summed
    * squared distance, and leaves it where it is when it wins none. */
  lemma TrainingMoves(x: seq<Codes>, k: nat, iters: nat, c: nat, v: Vec)
    requires 1 <= k <= |x| && c < k && 1 <= iters
    ensures var s, was, now := SampleOf(x), Trained(x, k, iters - 1), Trained(x, k, iters);
      && CellCost(s, was, c, now[c], |s|) <= CellCost(s, was, c, v, |s|)
      && ((forall i | 0 <= i < |s| :: Nearest(s[i], was, k) != c) ==> now[c] == was[c])
  {
    hide Nearest, CellCost, Step;
    StepIsBest(SampleOf(x), Trained(x, k, iters - 1), c, v);
  }

  predicate IsSeed(x: seq<Codes>, k: nat, j: int)
    requires 1 <= k <= |x| && 0 <= j < |x|
  {
    exists c | 0 <= c < k :: SeedsOf(x, k)[c] == DequantVec(x[j])
  }

  /** Seeds that already are the values of all rows are what training ends with. */
  lemma SeedsStay(x: seq<Codes>, k: nat, iters: nat)
    requires 1 <= k <= |x|
    requires forall j | 0 <= j < |x| :: IsSeed(x, k, j)
    ensures Trained(x, k, iters) == SeedsOf(x, k)
  {
    hide Nearest, SeedsOf, DequantVec, Step;
    var seeds, sample := SeedsOf(x, k), SampleOf(x);
    forall i | 0 <= i < |sample|
      ensures seeds[Nearest(sample[i], seeds, k)] == DequantVec(sample[i])
    {
      SampleFits(|x|, SAMPLE, i);
      var j := i * SampleStride(|x|, SAMPLE);
      assert sample[i] == x[j] && IsSeed(x, k, j);
      var c :| 0 <= c < k && seeds[c] == DequantVec(x[j]);
      NearestIsValue(x[j], seeds, k, c);
    }
    NothingMoves(sample, seeds);
    TrainingStays(sample, seeds, iters);
  }

  /** The block that row `j` is in when m rows are cut into k equal blocks and the last takes what is left. */
  function BlockOf(m: nat, k: nat, j: nat): (c: nat)
    requires 1 <= k <= m
    ensures c < k
  {
    DivFits(m, k);
    if j / (m / k) < k then j / (m / k) else k - 1
  }

  /** The rows come in blocks of one value each. */
  predicate InBlocks(x: seq<Codes>, vals: seq<Codes>) {
    1 <= |vals| <= |x| && forall j | 0 <= j < |x| :: x[j] == vals[BlockOf(|x|, |vals|, j)]
  }

  lemma FirstOfBlock(m: nat, k: nat, c: nat)
    requires 1 <= k <= m && c < k
    ensures 0 <= c * (m / k) < m && BlockOf(m, k, c * (m / k)) == c
  {
    DivFits(m, k);
    Spread(c, m / k, k, m);
    Words.OneQuotient(c * (m / k), m / k, c, 0);
  }

  /** Rows in blocks are clustered into their blocks: for every number of iterations the centroids are the values
    * of the blocks, in order. */
  lemma BlocksTrained(x: seq<Codes>, vals: seq<Codes>, iters: nat)
    requires InBlocks(x, vals)
    ensures forall c | 0 <= c < |vals| :: Trained(x, |vals|, iters)[c] == DequantVec(vals[c])
  {
    hide BlockOf, DequantVec, Trained;
    var k := |vals|;
    forall c | 0 <= c < k
      ensures SeedsOf(x, k)[c] == DequantVec(vals[c])
    {
      FirstOfBlock(|x|, k, c);
    }
    forall j | 0 <= j < |x|
      ensures IsSeed(x, k, j)
    {
      assert SeedsOf(x, k)[BlockOf(|x|, k, j)] == DequantVec(x[j]);
    }
    SeedsStay(x, k, iters);
  }

  function Cells(nlist: nat, m: nat): nat {
    if nlist > m then m else nlist
  }

  method Seed(rows: seq<Codes>, lo: nat, m: nat, cents: array<Vec>, base: nat, k: nat)
    requires 1 <= k <= m && lo + m <= |rows| && base + k <= cents.Length
    modifies cents
    ensures cents[base..base + k] == SeedsOf(rows[lo..lo + m], k)
    ensures forall j | 0 <= j < cents.Length && !(base <= j < base + k) :: cents[j] == old(cents[j])
  {
    DivFits(m, k);
    var stride := m / k;
    ghost var x := rows[lo..lo + m];
    for c := 0 to k
      invariant forall j | 0 <= j < c :: cents[base + j] == SeedAt(x, k, j)
      invariant forall j | 0 <= j < cents.Length && !(base <= j < base + k) :: cents[j] == old(cents[j])
    {
      Spread(c, stride, k, m);
      assert x[c * stride] == rows[lo + c * stride];
      cents[base + c] := DequantVec(rows[lo + c * stride]);
    }
  }

  /** The rows at the sampled numbers are the bucket's sample. */
  lemma PickedIsSample(rows: seq<Codes>, lo: nat, m: nat, ids: seq<int>, picked: seq<Codes>)
    requires lo + m <= |rows| && |ids| == SampleCount(m, SAMPLE) == |picked|
    requires forall i | 0 <= i < |ids| ::
      ids[i] == lo + i * SampleStride(m, SAMPLE) && lo <= ids[i] < lo + m && picked[i] == rows[ids[i]]
    ensures picked == SampleOf(rows[lo..lo + m])
  {
    var x := rows[lo..lo + m];
    forall i | 0 <= i < |ids|
      ensures picked[i] == SampleAt(x, i)
    {
      assert x[ids[i] - lo] == rows[ids[i]];
    }
  }

  /** kmeans.run on rows [lo, lo + m): centroids [base, base + k) are trained on the bucket's sample,
    * where k is the smaller of nlist and m; the others are left alone; every row is assigned to its
    * nearest trained centroid. */
  method Run(rows: seq<Codes>, lo: nat, m: nat, cents: array<Vec>, base: nat, nlist: nat, iters: nat, procs: int)
    returns (assign: seq<int>)
    requires lo + m <= |rows| && 1 <= nlist && base + nlist <= cents.Length
    modifies cents
    ensures |assign| == m
    ensures forall j | 0 <= j < cents.Length && !(base <= j < base + Cells(nlist, m)) :: cents[j] == old(cents[j])
    ensures m > 0 ==>
      var k := Cells(nlist, m);
      && cents[base..base + k] == Trained(rows[lo..lo + m], k, iters)
      && (forall i | 0 <= i < m :: assign[i] == Nearest(rows[lo + i], cents[base..base + k], k))
  {
    hide Nearest, Step, SampleOf, SeedsOf;
    if m == 0 {
      return [];
    }
    var k := Cells(nlist, m);
    ghost var x := rows[lo..lo + m];
    Seed(rows, lo, m, cents, base, k);
    var ids := SampleRows(lo, lo + m, SAMPLE);
    var picked := seq(|ids|, i requires 0 <= i < |ids| && 0 <= ids[i] < |rows| => rows[ids[i]]);
    PickedIsSample(rows, lo, m, ids, picked);
    var sum := new Vec[k](_ => Zero());
    var cnt := new int[k];
    for it := 0 to iters
      invariant cents[base..base + k] == Trained(x, k, it)
      invariant forall j | 0 <= j < cents.Length && !(base <= j < base + k) :: cents[j] == old(cents[j])
    {
      LloydIteration(picked, cents, base, k, sum, cnt);
    }
    assign := ParallelAssign(rows, lo, m, cents[base..base + k], k, procs);
  }
}
