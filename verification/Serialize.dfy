/** The binary format of a saved index: a fixed header and length-prefixed little-endian slices.
  * Printing and parsing are inverse to each other in both directions, and no image is a strict
  * prefix of another.
  */
module Serialize {
  import opened Grid
  import opened Words
  import opened Bytes

  const MAGIC: int := 0x3249_4652
  const VERSION: int := 4

  /** What is written: everything but the derived integer centroids and the runtime knobs. A float64
    * is its 64-bit pattern. */
  datatype Image = Image(
    n: int,
    nlist: int,
    data: seq<int>,
    fraud: seq<int>,
    bucketStart: seq<int>,
    centroids: seq<int>,
    cellStart: seq<int>
  )

  predicate IsInt32s(s: seq<int>) {
    forall i | 0 <= i < |s| :: -0x8000_0000 <= s[i] < 0x8000_0000
  }

  /** The field types. */
  predicate Typed(img: Image) {
    && -0x8000_0000_0000_0000 <= img.n < 0x8000_0000_0000_0000
    && 0 <= img.nlist < Pow256(4)
    && InWidth(img.data, 2) && InWidth(img.fraud, 8) && InWidth(img.centroids, 8)
    && IsInt32s(img.bucketStart) && IsInt32s(img.cellStart)
  }

  /** The checks at the end of readFrom, in 64-bit arithmetic. */
  predicate SizesChecked(img: Image) {
    && |img.bucketStart| == BUCKETS + 1
    && |img.data| == Wrap64(Wrap64(img.n * DIMS) + TAIL_PAD)
    && |img.cellStart| == BUCKETS * img.nlist + 1
    && |img.centroids| == BUCKETS * img.nlist * DIMS
  }

  /** No slice is larger than the largest allocation the runtime grants. */
  predicate Allocatable(img: Image, limit: nat) {
    && |img.data| * 2 <= limit && |img.fraud| * 8 <= limit && |img.bucketStart| * 4 <= limit
    && |img.centroids| * 8 <= limit && |img.cellStart| * 4 <= limit
  }

  predicate Loadable(img: Image, limit: nat) {
    Typed(img) && SizesChecked(img) && Allocatable(img, limit)
  }

  // --- printing ---

  function Slice(s: seq<int>, w: nat): seq<Byte> {
    Le(|s|, 8) + Fixed(s, w)
  }

  function Unsigned32(s: seq<int>): (u: seq<int>)
    ensures |u| == |s| && forall i | 0 <= i < |s| :: u[i] == s[i] % 0x1_0000_0000
  {
    seq(|s|, i requires 0 <= i < |s| => s[i] % 0x1_0000_0000)
  }

  function Signed32(u: seq<int>): (s: seq<int>)
    ensures |s| == |u| && forall i | 0 <= i < |u| :: s[i] == Wrap32(u[i])
  {
    seq(|u|, i requires 0 <= i < |u| => Wrap32(u[i]))
  }

  function Header(): seq<Byte> {
    Le(MAGIC, 4) + Le(VERSION, 4) + Le(DIMS, 4) + Le(K, 4)
  }

  function Counts(img: Image): seq<Byte> {
    Le(img.n, 8) + Le(img.nlist, 4)
  }

  function Print(img: Image): seq<Byte> {
    Header() + Counts(img) + Slice(img.data, 2) + Slice(img.fraud, 8) + Slice(Unsigned32(img.bucketStart), 4)
    + Slice(img.centroids, 8) + Slice(Unsigned32(img.cellStart), 4)
  }

  // --- the bytes of a file ---

  /** Where the slices begin, after the header and the two counts. */
  function FraudAt(img: Image): int {
    28 + 8 + |img.data| * 2
  }

  function BucketStartAt(img: Image): int {
    FraudAt(img) + 8 + |img.fraud| * 8
  }

  function CentroidsAt(img: Image): int {
    BucketStartAt(img) + 8 + |img.bucketStart| * 4
  }

  function CellStartAt(img: Image): int {
    CentroidsAt(img) + 8 + |img.centroids| * 8
  }

  /** `b` is the file of `img`: the letters RFI2, the version, the dimensions and the votes, the counts, and then
    * codes, labels, bucket offsets, centroids and cell offsets, each after its length. Offsets are in two's
    * complement. */
  predicate FileOf(b: seq<Byte>, img: Image) {
    && |b| >= 28
    && b[..16] == [0x52, 0x46, 0x49, 0x32, 4, 0, 0, 0, 14, 0, 0, 0, 5, 0, 0, 0]
    && WordAt(b, 16, img.n, 8) && WordAt(b, 24, img.nlist, 4)
    && SliceAt(b, 28, img.data, 2)
    && SliceAt(b, FraudAt(img), img.fraud, 8)
    && SliceAt(b, BucketStartAt(img), img.bucketStart, 4)
    && SliceAt(b, CentroidsAt(img), img.centroids, 8)
    && SliceAt(b, CellStartAt(img), img.cellStart, 4)
    && |b| == CellStartAt(img) + 8 + |img.cellStart| * 4
  }

  lemma UnsignedBytes(v: int)
    ensures Le(v % 0x1_0000_0000, 4) == Le(v, 4)
  {
    Widths();
    LeWraps(v, -(v / 0x1_0000_0000), 4);
  }

  lemma {:induction false} UnsignedRun(s: seq<int>)
    ensures Fixed(Unsigned32(s), 4) == Fixed(s, 4)
  {
    hide Le;
    if s != [] {
      UnsignedBytes(s[0]);
      UnsignedRun(s[1..]);
      assert Unsigned32(s)[1..] == Unsigned32(s[1..]);
    }
  }

  lemma HeaderBytes()
    ensures Header() == [0x52, 0x46, 0x49, 0x32, 4, 0, 0, 0, 14, 0, 0, 0, 5, 0, 0, 0]
  {
    FourBytes(MAGIC);
    FourBytes(VERSION);
    FourBytes(DIMS);
    FourBytes(K);
  }

  lemma FourBytes(v: int)
    ensures Le(v, 4) == [v % 256, v / 256 % 256, v / 256 / 256 % 256, v / 256 / 256 / 256 % 256]
  {
    assert Le(v / 256 / 256 / 256, 1) == [v / 256 / 256 / 256 % 256] + Le(v / 256 / 256 / 256 / 256, 0);
    assert Le(v / 256 / 256, 2) == [v / 256 / 256 % 256] + Le(v / 256 / 256 / 256, 1);
  }

  lemma PrintedSlice(pre: seq<Byte>, s: seq<int>, w: nat, post: seq<Byte>)
    ensures |Slice(s, w)| == 8 + |s| * w && SliceAt(pre + Slice(s, w) + post, |pre|, s, w)
  {
    hide SliceAt, Le, Fixed;
    FixedSize(s, w);
    var b := pre + Slice(s, w) + post;
    assert b[|pre|..|pre| + 8 + |s| * w] == Slice(s, w);
    PlacedSlice(b, |pre|, s, w);
  }

  /** What is printed is the file of the image. */
  lemma PrintIsFile(img: Image)
    ensures FileOf(Print(img), img)
  {
    HeaderBytes();
    UnsignedRun(img.bucketStart);
    UnsignedRun(img.cellStart);
    hide Header, SliceAt, WordAt, Le, Fixed;
    var b := Print(img);
    var s1, s2 := Slice(img.data, 2), Slice(img.fraud, 8);
    var s3, s4 := Slice(img.bucketStart, 4), Slice(img.centroids, 8);
    var s5 := Slice(img.cellStart, 4);
    var p0 := Header() + Counts(img);
    assert b[16..24] == Le(img.n, 8) && b[24..28] == Le(img.nlist, 4);
    PlacedWord(b, 16, img.n, 8);
    PlacedWord(b, 24, img.nlist, 4);
    assert b == p0 + s1 + (s2 + s3 + s4 + s5);
    PrintedSlice(p0, img.data, 2, s2 + s3 + s4 + s5);
    assert b == (p0 + s1) + s2 + (s3 + s4 + s5);
    PrintedSlice(p0 + s1, img.fraud, 8, s3 + s4 + s5);
    assert b == (p0 + s1 + s2) + s3 + (s4 + s5);
    PrintedSlice(p0 + s1 + s2, img.bucketStart, 4, s4 + s5);
    assert b == (p0 + s1 + s2 + s3) + s4 + s5;
    PrintedSlice(p0 + s1 + s2 + s3, img.centroids, 8, s5);
    assert b == (p0 + s1 + s2 + s3 + s4) + s5 + [];
    PrintedSlice(p0 + s1 + s2 + s3 + s4, img.cellStart, 4, []);
  }

  // --- parsing ---

  /** The outcome of a read: a value and what is left of the stream, an error, or a run-time panic
    * (a slice that cannot be allocated). */
  datatype Parsed<T> = Done(value: T, rest: seq<Byte>) | Failed | Panicked {
    predicate IsFailure() {
      !Done?
    }

    function PropagateFailure<U>(): Parsed<U>
      requires IsFailure()
    {
      if Failed? then Failed else Panicked
    }

    function Extract(): (T, seq<Byte>)
      requires !IsFailure()
    {
      (value, rest)
    }
  }

  /** Largest allocation the runtime grants, in bytes. */
  type Limit = n: nat | n < 0x8000_0000_0000_0000

  function ParseWord(b: seq<Byte>, w: nat): Parsed<nat> {
    if |b| < w then Failed else Done(LeValue(b[..w]), b[w..])
  }

  lemma NoWrap(k: int, w: nat, limit: Limit)
    requires 0 <= k && k * w <= limit
    ensures 0 <= k * w && Wrap64(k * w) == k * w
  {
  }

  /** Length in elements, bytes in 64-bit arithmetic, then the words. */
  function ParseSlice(b: seq<Byte>, w: nat, limit: Limit): Parsed<seq<int>> {
    var (count, rest) :- ParseWord(b, 8);
    var k := Wrap64(count);
    var size := Wrap64(k * w);
    if size < 0 || size > limit then Panicked
    else if |rest| < size then Failed
    else if k < 0 || k * w > limit then Panicked
    else
      NoWrap(k, w, limit);
      Done(Unpacked(rest, k, w), rest[size..])
  }

  function Parse(b: seq<Byte>, limit: Limit): Parsed<Image> {
    if |b| < 16 || b[..16] != Header() then Failed
    else
      var (n, b1) :- ParseWord(b[16..], 8);
      var (nlist, b2) :- ParseWord(b1, 4);
      var (data, b3) :- ParseSlice(b2, 2, limit);
      var (fraud, b4) :- ParseSlice(b3, 8, limit);
      var (bucketStart, b5) :- ParseSlice(b4, 4, limit);
      var (centroids, b6) :- ParseSlice(b5, 8, limit);
      var (cellStart, b7) :- ParseSlice(b6, 4, limit);
      var img := Image(Wrap64(n), nlist, data, fraud, Signed32(bucketStart), centroids, Signed32(cellStart));
      if SizesChecked(img) then Done(img, b7) else Failed
  }

  // --- parsing inverts printing ---

  lemma WordOfLe(v: int, w: nat, tail: seq<Byte>)
    requires 0 <= v < Pow256(w)
    ensures ParseWord(Le(v, w) + tail, w) == Done(v, tail)
  {
    ValueOfLe(v, w);
    assert (Le(v, w) + tail)[..w] == Le(v, w);
  }

  lemma SliceOfPrinted(s: seq<int>, w: nat, tail: seq<Byte>, limit: Limit)
    requires w >= 1 && InWidth(s, w) && |s| * w <= limit
    ensures ParseSlice(Slice(s, w) + tail, w, limit) == Done(s, tail)
  {
    hide Pow256, Le, Unpacked, Fixed, InWidth;
    Widths();
    LengthFits(|s|, w, limit);
    var rest := Fixed(s, w) + tail;
    assert Slice(s, w) + tail == Le(|s|, 8) + rest;
    WordOfLe(|s|, 8, rest);
    FixedSize(s, w);
    UnpackedOfFixed(s, w, tail);
    NoWrap(|s|, w, limit);
    assert rest[|s| * w..] == tail;
  }

  lemma LengthFits(k: nat, w: nat, limit: Limit)
    requires w >= 1 && k * w <= limit
    ensures k <= limit
  {
    assert k * w == k * (w - 1) + k;
    assert k * (w - 1) >= 0;
  }

  lemma SignedOfUnsigned(s: seq<int>)
    requires IsInt32s(s)
    ensures Signed32(Unsigned32(s)) == s
    ensures InWidth(Unsigned32(s), 4)
  {
    Widths();
  }

  lemma CountOfPrinted(n: int, tail: seq<Byte>)
    requires -0x8000_0000_0000_0000 <= n < 0x8000_0000_0000_0000
    ensures var p := ParseWord(Le(n, 8) + tail, 8); p.Done? && Wrap64(p.value) == n && p.rest == tail
  {
    hide Le;
    Widths();
    if n >= 0 {
      WordOfLe(n, 8, tail);
    } else {
      LeWraps(n, 1, 8);
      WordOfLe(n + Pow256(8), 8, tail);
    }
  }

  /** Reading back what was written restores every field, whatever follows it in the stream. */
  lemma ParseOfPrint(img: Image, tail: seq<Byte>, limit: Limit)
    requires Loadable(img, limit)
    ensures Parse(Print(img) + tail, limit) == Done(img, tail)
  {
    hide Pow256, Le, Unpacked, Fixed, ParseWord, ParseSlice, InWidth, IsInt32s, Slice, Header;
    var b := Print(img) + tail;
    var c5 := Slice(Unsigned32(img.cellStart), 4) + tail;
    var c4 := Slice(img.centroids, 8) + c5;
    var c3 := Slice(Unsigned32(img.bucketStart), 4) + c4;
    var c2 := Slice(img.fraud, 8) + c3;
    var c1 := Slice(img.data, 2) + c2;
    var c0 := Le(img.nlist, 4) + c1;
    assert |Header()| == 16 by { HeaderSize(); }
    assert b == Header() + (Le(img.n, 8) + c0);
    assert b[..16] == Header() && b[16..] == Le(img.n, 8) + c0;
    CountOfPrinted(img.n, c0);
    WordOfLe(img.nlist, 4, c1);
    SignedOfUnsigned(img.bucketStart);
    SignedOfUnsigned(img.cellStart);
    SliceOfPrinted(img.data, 2, c2, limit);
    SliceOfPrinted(img.fraud, 8, c3, limit);
    SliceOfPrinted(Unsigned32(img.bucketStart), 4, c4, limit);
    SliceOfPrinted(img.centroids, 8, c5, limit);
    SliceOfPrinted(Unsigned32(img.cellStart), 4, tail, limit);
  }

  lemma HeaderSize()
    ensures |Header()| == 16
  {
  }

  // --- printing inverts parsing ---

  lemma LeOfParsed(b: seq<Byte>, w: nat)
    requires ParseWord(b, w).Done?
    ensures b == Le(ParseWord(b, w).value, w) + ParseWord(b, w).rest
    ensures ParseWord(b, w).value < Pow256(w)
  {
    LeOfValue(b[..w]);
    LeValueBounded(b[..w]);
  }

  lemma SliceOfParsed(b: seq<Byte>, w: nat, limit: Limit)
    requires ParseSlice(b, w, limit).Done?
    ensures var p := ParseSlice(b, w, limit);
      && b == Slice(p.value, w) + p.rest && InWidth(p.value, w) && |p.value| * w <= limit
  {
    hide Pow256, Le, Unpacked, Fixed, InWidth, ParseWord;
    Widths();
    var p := ParseSlice(b, w, limit);
    LeOfParsed(b, 8);
    var count, rest := ParseWord(b, 8).value, ParseWord(b, 8).rest;
    var k := Wrap64(count);
    NoWrap(k, w, limit);
    FixedOfUnpacked(rest, k, w);
    assert rest == rest[..k * w] + rest[k * w..];
  }

  lemma UnsignedOfSigned(u: seq<int>)
    requires InWidth(u, 4)
    ensures Unsigned32(Signed32(u)) == u && IsInt32s(Signed32(u))
  {
    Widths();
  }

  lemma CountOfParsed(b: seq<Byte>)
    requires ParseWord(b, 8).Done?
    ensures b == Le(Wrap64(ParseWord(b, 8).value), 8) + ParseWord(b, 8).rest
  {
    hide Le, ParseWord;
    Widths();
    LeOfParsed(b, 8);
    LeWraps(Wrap64(ParseWord(b, 8).value), 1, 8);
  }

  /** Whatever is accepted is a loadable image, and writing it again gives the bytes consumed. */
  lemma PrintOfParse(b: seq<Byte>, limit: Limit)
    requires Parse(b, limit).Done?
    ensures var p := Parse(b, limit); Loadable(p.value, limit) && b == Print(p.value) + p.rest
  {
    hide Pow256, Le, Unpacked, Fixed, ParseWord, ParseSlice, InWidth, IsInt32s, Slice, Header, SizesChecked;
    var p := Parse(b, limit);
    var (n, b1) := ParseWord(b[16..], 8).Extract();
    var (nlist, b2) := ParseWord(b1, 4).Extract();
    var (data, b3) := ParseSlice(b2, 2, limit).Extract();
    var (fraud, b4) := ParseSlice(b3, 8, limit).Extract();
    var (bucketStart, b5) := ParseSlice(b4, 4, limit).Extract();
    var (centroids, b6) := ParseSlice(b5, 8, limit).Extract();
    var (cellStart, b7) := ParseSlice(b6, 4, limit).Extract();
    CountOfParsed(b[16..]);
    LeOfParsed(b1, 4);
    SliceOfParsed(b2, 2, limit);
    SliceOfParsed(b3, 8, limit);
    SliceOfParsed(b4, 4, limit);
    SliceOfParsed(b5, 8, limit);
    SliceOfParsed(b6, 4, limit);
    UnsignedOfSigned(bucketStart);
    UnsignedOfSigned(cellStart);
    assert b == b[..16] + b[16..];
    Chain(b, Header(), Le(p.value.n, 8), Le(nlist, 4), Slice(data, 2), Slice(fraud, 8),
      Slice(bucketStart, 4), Slice(centroids, 8), Slice(cellStart, 4), b7);
  }

  lemma Chain(b: seq<Byte>, h: seq<Byte>, x0: seq<Byte>, x1: seq<Byte>, x2: seq<Byte>, x3: seq<Byte>, x4: seq<Byte>,
              x5: seq<Byte>, x6: seq<Byte>, rest: seq<Byte>)
    requires b == h + (x0 + (x1 + (x2 + (x3 + (x4 + (x5 + (x6 + rest)))))))
    ensures b == h + (x0 + x1) + x2 + x3 + x4 + x5 + x6 + rest
  {
  }

  /** An image cut short anywhere is not accepted. */
  lemma PrefixRejected(img: Image, cut: nat, limit: Limit)
    requires Loadable(img, limit) && cut < |Print(img)|
    ensures !Parse(Print(img)[..cut], limit).Done?
  {
    hide Print, Parse, Loadable;
    var b, missing := Print(img)[..cut], Print(img)[cut..];
    if Parse(b, limit).Done? {
      var p := Parse(b, limit);
      PrintOfParse(b, limit);
      ParseOfPrint(p.value, p.rest + missing, limit);
      ParseOfPrint(img, [], limit);
      SameBytes(img, b, missing, Print(p.value), p.rest);
    }
  }

  lemma SameBytes(img: Image, b: seq<Byte>, missing: seq<Byte>, head: seq<Byte>, rest: seq<Byte>)
    requires Print(img) == b + missing && b == head + rest
    ensures head + (rest + missing) == Print(img) + []
  {
    hide Print;
  }

  /** readFrom's size check on the row codes means what it says exactly when the row count is a count
    * and the product does not wrap around. */
  lemma SizeCheckExact(img: Image)
    requires Typed(img) && SizesChecked(img)
    ensures |img.data| == img.n * DIMS + TAIL_PAD <==> 0 <= img.n && img.n * DIMS + TAIL_PAD < 0x8000_0000_0000_0000
  {
  }

  /** A stored count of 2^63 multiplies to zero and is accepted: the loaded index has a negative
    * number of rows. */
  lemma HugeCountAccepted(limit: Limit)
    requires limit >= 68
    ensures var img := Image(-0x8000_0000_0000_0000, 0, seq(TAIL_PAD, _ => 0), [], seq(BUCKETS + 1, _ => 0), [], [0]);
      Parse(Print(img), limit) == Done(img, [])
  {
    hide Parse, Print, Pow256;
    Widths();
    var img := Image(-0x8000_0000_0000_0000, 0, seq(TAIL_PAD, _ => 0), [], seq(BUCKETS + 1, _ => 0), [], [0]);
    ParseOfPrint(img, [], limit);
    assert Print(img) + [] == Print(img);
  }

  /** Accepted bytes are the file of the image they are read as, and its sizes fit together. */
  lemma AcceptedIsFile(b: seq<Byte>, limit: Limit)
    requires Parse(b, limit).Done?
    ensures var img, rest, end := Parse(b, limit).value, Parse(b, limit).rest,
        CellStartAt(Parse(b, limit).value) + 8 + |Parse(b, limit).value.cellStart| * 4;
      && 0 <= end <= |b| && FileOf(b[..end], img) && rest == b[end..]
      && |img.data| == Wrap64(Wrap64(img.n * 14) + 8) && |img.bucketStart| == 17
      && |img.cellStart| == 16 * img.nlist + 1 && |img.centroids| == 16 * img.nlist * 14
  {
    hide Parse, Print, SliceAt, WordAt, CellStartAt, Typed, Allocatable;
    PrintOfParse(b, limit);
    var img := Parse(b, limit).value;
    PrintIsFile(img);
    assert b[..|Print(img)|] == Print(img);
  }

  /** A length that asks for more than the runtime grants is a panic, one that asks for more than there is an error. */
  lemma BadLength(k: nat, w: nat, rest: seq<Byte>, limit: Limit)
    requires w >= 1 && k < 0x8000_0000_0000_0000 && k * w < 0x8000_0000_0000_0000
    ensures k * w > limit ==> ParseSlice(Le(k, 8) + rest, w, limit) == Panicked
    ensures |rest| < k * w <= limit ==> ParseSlice(Le(k, 8) + rest, w, limit) == Failed
  {
    hide Le;
    Widths();
    WordOfLe(k, 8, rest);
  }

  // --- writing ---

  /** binary.LittleEndian.Put* into a buffer. */
  method Put(buf: array<Byte>, off: nat, v: int, w: nat)
    requires off + w <= buf.Length
    modifies buf
    ensures buf[..] == old(buf[..off]) + Le(v, w) + old(buf[off + w..])
  {
    ghost var was := buf[..];
    var x, i := v, 0;
    while i < w
      invariant 0 <= i <= w
      invariant Le(v, w) == buf[off..off + i] + Le(x, w - i)
      invariant buf[..off] == was[..off] && buf[off + i..] == was[off + i..]
    {
      ghost var done := buf[off..off + i];
      buf[off + i] := x % 256;
      assert buf[off..off + (i + 1)] == done + [x % 256];
      x, i := x / 256, i + 1;
    }
    assert Le(x, 0) == [];
    assert buf[..] == buf[..off] + buf[off..off + w] + buf[off + w..];
  }

  method WriteWord(out: Writer, v: int, w: nat)
    modifies out
    ensures out.out == old(out.out) + Le(v, w)
  {
    var buf := new Byte[w](_ => 0);
    Put(buf, 0, v, w);
    out.Write(buf[..]);
  }

  lemma WordSlot(n: nat, i: nat, w: nat)
    requires i < n
    ensures 0 <= i * w && (i + 1) * w == i * w + w && i * w + w <= n * w
  {
    var k := n - i - 1;
    assert n * w == (i + 1) * w + k * w;
    assert k * w >= 0;
  }

  /** The first `i` words of `s` are in `b`, up to `off`. */
  predicate PackedTo(b: seq<Byte>, off: nat, s: seq<int>, i: nat, w: nat)
    requires off <= |b| && i <= |s|
  {
    Fixed(s, w) == b[..off] + Fixed(s[i..], w)
  }

  lemma PackedStep(was: seq<Byte>, now: seq<Byte>, off: nat, s: seq<int>, i: nat, w: nat)
    requires i < |s| && off + w <= |was| && now == was[..off] + Le(s[i], w) + was[off + w..]
    requires PackedTo(was, off, s, i, w)
    ensures PackedTo(now, off + w, s, i + 1, w)
  {
    hide Le;
    assert s[i..][1..] == s[i + 1..];
    assert now[..off + w] == was[..off] + Le(s[i], w);
  }

  lemma PackedNone(b: seq<Byte>, s: seq<int>, w: nat)
    ensures PackedTo(b, 0, s, 0, w)
  {
    assert s[0..] == s;
  }

  /** The loop that fills a slice's buffer, word by word. */
  method PackWords(s: seq<int>, w: nat) returns (b: seq<Byte>)
    ensures b == Fixed(s, w)
  {
    hide PackedTo, Le;
    var buf := new Byte[|s| * w](_ => 0);
    var i, off := 0, 0;
    PackedNone(buf[..], s, w);
    while i < |s|
      invariant 0 <= i <= |s| && off == i * w && 0 <= off <= buf.Length
      invariant PackedTo(buf[..], off, s, i, w)
    {
      WordSlot(|s|, i, w);
      ghost var was := buf[..];
      Put(buf, off, s[i], w);
      PackedStep(was, buf[..], off, s, i, w);
      i, off := i + 1, off + w;
    }
    b := buf[..];
    PackedAll(b, s, w);
  }

  lemma PackedAll(b: seq<Byte>, s: seq<int>, w: nat)
    requires PackedTo(b, |b|, s, |s|, w)
    ensures b == Fixed(s, w)
  {
  }

  /** writeU16Slice and its siblings for the other widths. */
  method WriteSlice(out: Writer, s: seq<int>, w: nat)
    modifies out
    ensures out.out == old(out.out) + Slice(s, w)
  {
    hide Le, Fixed;
    WriteWord(out, |s|, 8);
    var b := PackWords(s, w);
    out.Write(b);
  }

  method WriteHeader(out: Writer)
    modifies out
    ensures out.out == old(out.out) + Header()
  {
    hide Le;
    var hdr := new Byte[16](_ => 0);
    Put(hdr, 0, MAGIC, 4);
    Put(hdr, 4, VERSION, 4);
    Put(hdr, 8, DIMS, 4);
    Put(hdr, 12, K, 4);
    assert hdr[..] == Header();
    out.Write(hdr[..]);
  }

  /** writeTo */
  method WriteTo(out: Writer, img: Image)
    modifies out
    ensures out.out == old(out.out) + Print(img)
    ensures |out.out| >= |old(out.out)| && FileOf(out.out[|old(out.out)|..], img)
  {
    hide Le, Slice, Header, Unsigned32, FileOf;
    PrintIsFile(img);
    WriteHeader(out);
    WriteWord(out, img.n, 8);
    WriteWord(out, img.nlist, 4);
    WriteSlice(out, img.data, 2);
    WriteSlice(out, img.fraud, 8);
    WriteSlice(out, Unsigned32(img.bucketStart), 4);
    WriteSlice(out, img.centroids, 8);
    WriteSlice(out, Unsigned32(img.cellStart), 4);
    assert out.out[|old(out.out)|..] == Print(img);
  }

  // --- reading ---

  /** What a read returns; on `Read` the stream has moved past the value. */
  datatype Outcome<T> = Read(value: T) | Error | Panic {
    predicate IsFailure() {
      !Read?
    }

    function PropagateFailure<U>(): Outcome<U>
      requires IsFailure()
    {
      if Error? then Error else Panic
    }

    function Extract(): T
      requires !IsFailure()
    {
      value
    }
  }

  /** The outcome of a read and the stream after it are what the parser says. */
  predicate Follows<T(==)>(r: Outcome<T>, rest: seq<Byte>, p: Parsed<T>) {
    match p
    case Done(value, left) => r == Read(value) && rest == left
    case Failed => r.Error?
    case Panicked => r.Panic?
  }

  method ReadWord(src: Reader, w: nat) returns (r: Outcome<nat>)
    requires src.Valid()
    modifies src
    ensures src.Valid() && Follows(r, src.Rest(), ParseWord(old(src.Rest()), w))
  {
    var b := src.ReadFull(w);
    r := if b.None? then Error else Read(LeValue(b.value));
  }

  /** The loop that decodes a slice's buffer. */
  method UnpackWords(b: seq<Byte>, k: nat, w: nat) returns (s: seq<int>)
    requires |b| == k * w
    ensures s == Unpacked(b, k, w)
  {
    var a := new int[k];
    var i, off := 0, 0;
    assert b[0..] == b;
    while i < k
      invariant 0 <= i <= k && off == i * w && 0 <= off && off + (k - i) * w == |b|
      invariant Unpacked(b, k, w) == a[..i] + Unpacked(b[off..], k - i, w)
    {
      OneMore(k - i, w);
      WordSlot(k, i, w);
      a[i] := LeValue(b[off..off + w]);
      assert b[off..][..w] == b[off..off + w] && b[off..][w..] == b[off + w..];
      i, off := i + 1, off + w;
    }
    s := a[..];
  }

  /** readU16Slice and its siblings for the other widths. */
  method ReadSlice(src: Reader, w: nat, limit: Limit) returns (r: Outcome<seq<int>>)
    requires src.Valid()
    modifies src
    ensures src.Valid() && Follows(r, src.Rest(), ParseSlice(old(src.Rest()), w, limit))
  {
    hide Unpacked;
    var count :- ReadWord(src, 8);
    var k := Wrap64(count);
    var size := Wrap64(k * w);
    if size < 0 || size > limit {
      return Panic;
    }
    ghost var rest := src.Rest();
    var buf := src.ReadFull(size);
    if buf.None? {
      return Error;
    }
    if k < 0 || k * w > limit {
      return Panic;
    }
    NoWrap(k, w, limit);
    var s := UnpackWords(buf.value, k, w);
    UnpackedTake(rest, k, w);
    r := Read(s);
  }

  lemma {:induction false} UnpackedTake(b: seq<Byte>, k: nat, w: nat)
    requires k * w <= |b|
    ensures 0 <= k * w && Unpacked(b[..k * w], k, w) == Unpacked(b, k, w)
  {
    if k > 0 {
      OneMore(k, w);
      UnpackedTake(b[w..], k - 1, w);
      assert b[..k * w][..w] == b[..w] && b[..k * w][w..] == b[w..][..(k - 1) * w];
    }
  }

  /** The header is accepted word by word. */
  lemma HeaderWords(b: seq<Byte>)
    requires |b| == 16
    ensures b == Header() <==>
      LeValue(b[..4]) == MAGIC && LeValue(b[4..8]) == VERSION && LeValue(b[8..12]) == DIMS && LeValue(b[12..16]) == K
  {
    hide Le, LeValue;
    Widths();
    ValueOfLe(MAGIC, 4);
    ValueOfLe(VERSION, 4);
    ValueOfLe(DIMS, 4);
    ValueOfLe(K, 4);
    LeOfValue(b[..4]);
    LeOfValue(b[4..8]);
    LeOfValue(b[8..12]);
    LeOfValue(b[12..16]);
    assert b == b[..4] + b[4..8] + b[8..12] + b[12..16];
    var h := Header();
    assert h[..4] == Le(MAGIC, 4) && h[4..8] == Le(VERSION, 4) && h[8..12] == Le(DIMS, 4) && h[12..16] == Le(K, 4);
  }

  method ReadHeader(src: Reader) returns (r: Outcome<bool>)
    requires src.Valid()
    modifies src
    ensures src.Valid() && !r.Panic?
    ensures r.Read? <==> |old(src.Rest())| >= 16 && old(src.Rest())[..16] == Header()
    ensures r.Read? ==> src.Rest() == old(src.Rest())[16..]
  {
    hide LeValue, Header;
    var hdr := src.ReadFull(16);
    if hdr.None? {
      return Error;
    }
    var b := hdr.value;
    HeaderWords(b);
    if LeValue(b[..4]) != MAGIC || LeValue(b[4..8]) != VERSION || LeValue(b[8..12]) != DIMS || LeValue(b[12..16]) != K {
      return Error;
    }
    r := Read(true);
  }

  /** readFrom, up to the construction of the index */
  method ReadFrom(src: Reader, limit: Limit) returns (r: Outcome<Image>)
    requires src.Valid()
    modifies src
    ensures src.Valid() && Follows(r, src.Rest(), Parse(old(src.Rest()), limit))
    ensures var b := old(src.Rest());
      |b| < 16 || b[..16] != [0x52, 0x46, 0x49, 0x32, 4, 0, 0, 0, 14, 0, 0, 0, 5, 0, 0, 0] ==> r.Error?
    ensures r.Read? ==> var b, img, end := old(src.Rest()), r.value, CellStartAt(r.value) + 8 + |r.value.cellStart| * 4;
      && 0 <= end <= |b| && FileOf(b[..end], img) && src.Rest() == b[end..]
      && |img.data| == Wrap64(Wrap64(img.n * 14) + 8) && |img.bucketStart| == 17
      && |img.cellStart| == 16 * img.nlist + 1 && |img.centroids| == 16 * img.nlist * 14
  {
    hide ParseWord, ParseSlice, SizesChecked, Signed32, Header, FileOf, CellStartAt;
    HeaderBytes();
    ghost var b := src.Rest();
    if Parse(b, limit).Done? {
      AcceptedIsFile(b, limit);
    }
    var _ :- ReadHeader(src);
    var n :- ReadWord(src, 8);
    var nlist :- ReadWord(src, 4);
    var data :- ReadSlice(src, 2, limit);
    var fraud :- ReadSlice(src, 8, limit);
    var bucketStart :- ReadSlice(src, 4, limit);
    var centroids :- ReadSlice(src, 8, limit);
    var cellStart :- ReadSlice(src, 4, limit);
    var img := Image(Wrap64(n), nlist, data, fraud, Signed32(bucketStart), centroids, Signed32(cellStart));
    r := if SizesChecked(img) then Read(img) else Error;
  }
}
