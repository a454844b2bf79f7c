/** Saving an index and loading it again: every stored field comes back, the derived integer centroids
  * are recomputed equal, and, although loading resets the probe count to all cells, every query gets
  * the same votes as before the save.
  */
module Persist {
  import opened Grid
  import opened Ranking
  import opened Bytes
  import opened Layout
  import opened Collectors
  import opened Scan
  import opened Search
  import opened Build
  import opened Serialize

  /** The centroids behind the written words, when word w is the float64 value(w). */
  function Decoded(words: seq<int>, value: int -> real): (c: seq<Vec>)
    ensures |c| == |words| / DIMS
  {
    seq(|words| / DIMS, i requires 0 <= i < |words| / DIMS =>
      seq(DIMS, d requires 0 <= d < DIMS => value(words[i * DIMS + d])))
  }

  /** The words of the centroids, when x is the float64 with pattern bits(x). */
  function Encoded(cents: seq<Vec>, bits: real -> int): (w: seq<int>)
    ensures |w| == |cents| * DIMS
  {
    seq(|cents| * DIMS, i requires 0 <= i < |cents| * DIMS => bits(cents[i / DIMS][i % DIMS]))
  }

  function ImageOf(L: Layout, words: seq<int>): Image {
    Image(L.n, L.nlist, L.data, L.fraud, L.bucketStart, words, L.cellStart)
  }

  function LayoutOf(img: Image, twin: seq<int>): Layout {
    Layout(img.n, img.nlist, img.data, img.fraud, twin, img.cellStart, img.bucketStart)
  }

  /** Every coordinate of a centroid is a float64: its pattern is a 64-bit word and stands for it. */
  predicate Floats(cents: seq<Vec>, bits: real -> int, value: int -> real) {
    forall c, d | 0 <= c < |cents| && 0 <= d < DIMS :: IsFloat(cents[c][d], bits, value)
  }

  predicate IsFloat(x: real, bits: real -> int, value: int -> real) {
    0 <= bits(x) < 0x1_0000_0000_0000_0000 && value(bits(x)) == x
  }

  lemma EncodedAt(cents: seq<Vec>, bits: real -> int, c: int, d: int)
    requires 0 <= c < |cents| && 0 <= d < DIMS
    ensures 0 <= c * DIMS + d < |cents| * DIMS && Encoded(cents, bits)[c * DIMS + d] == bits(cents[c][d])
  {
    var i := c * DIMS + d;
    assert i / DIMS == c && i % DIMS == d;
  }

  /** Float64 patterns lose nothing. */
  lemma DecodedOfEncoded(cents: seq<Vec>, bits: real -> int, value: int -> real)
    requires Floats(cents, bits, value)
    ensures Decoded(Encoded(cents, bits), value) == cents && InWidth(Encoded(cents, bits), 8)
  {
    Widths();
    var words := Encoded(cents, bits);
    var back := Decoded(words, value);
    hide Pow256, Encoded;
    forall c | 0 <= c < |cents|
      ensures back[c] == cents[c]
    {
      forall d | 0 <= d < DIMS
        ensures back[c][d] == cents[c][d]
      {
        EncodedAt(cents, bits, c, d);
        assert IsFloat(cents[c][d], bits, value);
      }
    }
    forall i | 0 <= i < |words|
      ensures 0 <= words[i] < Pow256(8)
    {
      EncodedAt(cents, bits, i / DIMS, i % DIMS);
      assert IsFloat(cents[i / DIMS][i % DIMS], bits, value);
    }
  }

  /** `L` with float centroids `cents` is an index a 64-bit machine can hold, and its integer centroids
    * are derived from the float ones. */
  ghost predicate Saveable(L: Layout, cents: seq<Vec>) {
    && Shape(L) && L.nlist < 0x1_0000_0000 && InWidth(L.fraud, 8)
    && |cents| == BUCKETS * L.nlist && IsTwin(L.centroidsI16, cents, L.nlist)
  }

  lemma SaveableIsLoadable(L: Layout, cents: seq<Vec>, words: seq<int>, limit: Limit)
    requires Saveable(L, cents) && InWidth(words, 8) && |words| == BUCKETS * L.nlist * DIMS
    requires Allocatable(ImageOf(L, words), limit)
    ensures Loadable(ImageOf(L, words), limit)
  {
    hide IsTwin, Pow256;
    Widths();
    assert L.bucketStart[BUCKETS] == L.n && L.cellStart[BUCKETS * L.nlist] == L.n by {
      assert CellAt(L, BUCKETS) == L.bucketStart[BUCKETS];
    }
    assert CellAt(L, 0) == L.bucketStart[0] == 0;
    forall i | 0 <= i < |L.cellStart|
      ensures 0 <= L.cellStart[i] <= L.n
    {
      assert L.cellStart[0] <= L.cellStart[i] <= L.cellStart[BUCKETS * L.nlist];
    }
    forall i | 0 <= i < |L.bucketStart|
      ensures 0 <= L.bucketStart[i] <= L.n
    {
      assert L.bucketStart[0] <= L.bucketStart[i] <= L.bucketStart[BUCKETS];
    }
  }

  /** Loading what was saved restores the whole layout, the recomputed twin included. */
  lemma LoadRestores(L: Layout, cents: seq<Vec>, bits: real -> int, value: int -> real, twin: seq<int>,
                     tail: seq<Byte>, limit: Limit)
    requires Saveable(L, cents) && Floats(cents, bits, value)
    requires Allocatable(ImageOf(L, Encoded(cents, bits)), limit) && IsTwin(twin, cents, L.nlist)
    ensures var img := ImageOf(L, Encoded(cents, bits));
      && Parse(Print(img) + tail, limit) == Done(img, tail)
      && Decoded(img.centroids, value) == cents && LayoutOf(img, twin) == L
  {
    hide Shape, IsTwin, Parse, Print, Loadable, Encoded, Decoded, Floats, Allocatable;
    DecodedOfEncoded(cents, bits, value);
    SaveableIsLoadable(L, cents, Encoded(cents, bits), limit);
    ParseOfPrint(ImageOf(L, Encoded(cents, bits)), tail, limit);
    assert L.nlist >= 1 by { Basics(L); }
    TwinUnique(twin, L.centroidsI16, cents, L.nlist);
  }

  // --- the loaded index ---

  /** Knobs of a freshly loaded index: all cells are probed, escalation is off. */
  function Untuned(probes: int): Knobs {
    Knobs(probes, 0, 0, [0, 0, 0, 0, 0, 0], 0.0, 0.0)
  }

  /** Save: the object's own fields, without its knobs and integer centroids. */
  method SaveIndex(ix: Index, bits: real -> int, out: Writer)
    modifies out
    ensures out.out == old(out.out) + Print(ImageOf(ix.Stored(), Encoded(ix.centroids, bits)))
  {
    hide Print, Encoded;
    WriteTo(out, Image(ix.n, ix.nlist, ix.data, ix.fraud, ix.bucketStart, Encoded(ix.centroids, bits), ix.cellStart));
  }

  /** `ix` holds the image's fields, the float centroids behind its words, and their integer twin. */
  ghost predicate Restored(img: Image, value: int -> real, ix: Index)
    reads ix
  {
    && ix.Stored() == LayoutOf(img, ix.centroidsI16) && ix.Tuning() == Untuned(img.nlist)
    && 0 <= img.nlist && |img.centroids| == BUCKETS * img.nlist * DIMS
    && ix.centroids == Decoded(img.centroids, value) && IsTwin(ix.centroidsI16, ix.centroids, img.nlist)
  }

  /** LoadIndex, on every stream: the image's fields, the twin recomputed from the float centroids, all
    * cells probed. The offsets are taken as they come; the index is valid when they describe one. */
  method LoadIndex(src: Reader, value: int -> real, limit: Limit, simd: bool) returns (r: Outcome<Index>)
    requires src.Valid()
    modifies src
    ensures src.Valid()
    ensures match Parse(old(src.Rest()), limit) {
      case Failed => r.Error?
      case Panicked => r.Panic?
      case Done(img, rest) =>
        && r.Read? && fresh(r.value) && src.Rest() == rest && r.value.useSimd == simd
        && Restored(img, value, r.value) && (Shape(r.value.Stored()) ==> r.value.Valid())
    }
  {
    hide Shape, IsTwin, Parse, Decoded;
    ghost var bytes := src.Rest();
    var img :- ReadFrom(src, limit);
    PrintOfParse(bytes, limit);
    SizesOf(img, limit);
    var cents := Decoded(img.centroids, value);
    var twin := CentroidTwin(cents, img.nlist);
    var ix := new Index(LayoutOf(img, twin), cents, img.nlist, simd);
    assert Shape(ix.Stored()) ==> 1 <= img.nlist by {
      if Shape(ix.Stored()) {
        Basics(ix.Stored());
      }
    }
    r := Read(ix);
  }

  lemma SizesOf(img: Image, limit: Limit)
    requires Loadable(img, limit)
    ensures 0 <= img.nlist && |img.centroids| == BUCKETS * img.nlist * DIMS
    ensures |img.centroids| / DIMS == BUCKETS * img.nlist
  {
  }

  /** Saving and loading again gives an index with the same layout and the same centroids. */
  method SaveAndLoad(ix: Index, bits: real -> int, value: int -> real, limit: Limit, simd: bool) returns (jx: Index)
    requires ix.Valid() && Saveable(ix.Stored(), ix.centroids) && Floats(ix.centroids, bits, value)
    requires Allocatable(ImageOf(ix.Stored(), Encoded(ix.centroids, bits)), limit)
    ensures fresh(jx) && jx.Valid() && jx.Tuning() == Untuned(ix.nlist)
    ensures jx.Stored() == ix.Stored() && jx.centroids == ix.centroids
  {
    hide Shape, IsTwin, Parse, Print, Saveable, Encoded, Decoded, Floats, Allocatable;
    var out := new Writer();
    SaveIndex(ix, bits, out);
    var src := new Reader(out.out);
    ghost var L := ix.Stored();
    assert IsTwin(L.centroidsI16, ix.centroids, L.nlist) by { SaveableTwin(L, ix.centroids); }
    LoadRestores(L, ix.centroids, bits, value, L.centroidsI16, [], limit);
    assert out.out == Print(ImageOf(L, Encoded(ix.centroids, bits))) + [];
    var r := LoadIndex(src, value, limit, simd);
    jx := r.value;
    LoadRestores(L, ix.centroids, bits, value, jx.centroidsI16, [], limit);
  }

  lemma SaveableTwin(L: Layout, cents: seq<Vec>)
    requires Saveable(L, cents)
    ensures IsTwin(L.centroidsI16, cents, L.nlist)
  {
  }

  // --- votes after a reload ---

  function Capped(probes: int): int {
    if probes > MAX_PROBE then MAX_PROBE else probes
  }

  lemma {:induction false} ScanCapped(L: Layout, q: Vec, b: nat, p: int, p': int, fed: seq<Entry<int>>, scanned: int,
      cap: int)
    requires Shape(L) && b <= BUCKETS && Capped(p) == Capped(p') && p <= L.nlist && p' <= L.nlist
    ensures ScanFrom(L, q, b, 0, p, fed, scanned, cap) == ScanFrom(L, q, b, 0, p', fed, scanned, cap)
    decreases BUCKETS - b
  {
    hide Shape, BucketPenalty, QuantizeVec, BucketOf, WorstOf, RanksFeed, Ranked, ProbeFeed, Pruned;
    if b < BUCKETS {
      ProbeCapped(L, QuantizeVec(q), b, p, p', scanned, cap);
      var f := ProbeFeed(L, QuantizeVec(q), b, 0, p, scanned, cap);
      ScanCapped(L, q, b + 1, p, p', fed, scanned, cap);
      ScanCapped(L, q, b + 1, p, p', fed + f, scanned + |f|, cap);
    }
  }

  lemma ProbeCapped(L: Layout, qc: Codes, b: int, p: int, p': int, scanned: int, cap: int)
    requires Shape(L) && 0 <= b < BUCKETS && Capped(p) == Capped(p') && p <= L.nlist && p' <= L.nlist
    ensures ProbeFeed(L, qc, b, 0, p, scanned, cap) == ProbeFeed(L, qc, b, 0, p', scanned, cap)
  {
    hide Shape, RanksFeed, Ranked;
  }

  /** Two indexes over the same layout whose probe counts agree up to the probe buffer, and whose
    * other knobs are equal, feed every query the same rows and count the same votes. In particular a
    * reloaded index (all cells) and the built one (all cells, capped), and both after the same calls
    * of the setters. */
  lemma ReloadVotesAlike(L: Layout, kn: Knobs, kn': Knobs, q: Vec)
    requires Shape(L) && ValidKnobs(kn, L.nlist) && ValidKnobs(kn', L.nlist)
    requires Capped(kn.nprobe) == Capped(kn'.nprobe) && kn' == kn.(nprobe := kn'.nprobe)
    ensures RowTags(L, Best(CAND_K, CheapFeed(L, kn, q))) && CheapFeed(L, kn', q) == CheapFeed(L, kn, q)
    ensures RowTags(L, Best(CAND_K, SearchFeed(L, kn, q))) && SearchFeed(L, kn', q) == SearchFeed(L, kn, q)
    ensures FraudCount(Refined(L, q, SearchFeed(L, kn', q))) == FraudCount(Refined(L, q, SearchFeed(L, kn, q)))
  {
    hide Shape, BucketPenalty, QuantizeVec, BucketOf, WorstOf, RanksFeed, Ranked, ProbeFeed, ScanFrom, Best, Refined,
      FraudCount, ShouldEscalate;
    ScanFacts.SearchFacts(L, kn, q);
    var p, p' := kn.nprobe, kn'.nprobe;
    ProbeCapped(L, QuantizeVec(q), BucketOf(q), p, p', 0, kn.maxScan);
    var f := ProbeFeed(L, QuantizeVec(q), BucketOf(q), 0, p, 0, kn.maxScan);
    ScanCapped(L, q, 0, p, p', [] + f, 0 + |f|, kn.maxScan);
    assert CheapFeed(L, kn', q) == CheapFeed(L, kn, q);
    if p != p' {
      assert !Escalates(L, kn, q) && !Escalates(L, kn', q);
    }
  }
}
