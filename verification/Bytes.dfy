/** Little-endian words, and the byte streams an index is written to and read from. */
module Bytes {
  import opened Words
  import opened Wrappers

  type Byte = b: int | 0 <= b < 256

  function Pow256(w: nat): (p: nat)
    ensures p >= 1
  {
    if w == 0 then 1 else 256 * Pow256(w - 1)
  }

  /** The `w` low-order bytes of `v` in two's complement, lowest first. */
  function Le(v: int, w: nat): (b: seq<Byte>)
    ensures |b| == w
    decreases w
  {
    if w == 0 then [] else [v % 256] + Le(v / 256, w - 1)
  }

  function LeValue(b: seq<Byte>): (v: nat) {
    if b == [] then 0 else b[0] + 256 * LeValue(b[1..])
  }

  lemma {:induction false} LeValueBounded(b: seq<Byte>)
    ensures 0 <= LeValue(b) < Pow256(|b|)
  {
    if b != [] {
      LeValueBounded(b[1..]);
    }
  }

  /** Decoding inverts encoding. */
  lemma {:induction false} ValueOfLe(v: int, w: nat)
    requires 0 <= v < Pow256(w)
    ensures LeValue(Le(v, w)) == v
  {
    if w > 0 {
      ValueOfLe(v / 256, w - 1);
      assert Le(v, w)[1..] == Le(v / 256, w - 1);
    }
  }

  lemma LowByte(x: int, rest: int)
    requires 0 <= x < 256
    ensures (x + 256 * rest) % 256 == x && (x + 256 * rest) / 256 == rest
  {
  }

  /** Encoding inverts decoding. */
  lemma {:induction false} LeOfValue(b: seq<Byte>)
    ensures Le(LeValue(b), |b|) == b
  {
    if b != [] {
      LeOfValue(b[1..]);
      LowByte(b[0], LeValue(b[1..]));
      assert b == [b[0]] + b[1..];
    }
  }

  lemma HighPart(v: int, t: int)
    ensures (v + 256 * t) % 256 == v % 256 && (v + 256 * t) / 256 == v / 256 + t
  {
  }

  /** Only the value modulo 256^w is written. */
  lemma {:induction false} LeWraps(v: int, q: int, w: nat)
    ensures Le(v + q * Pow256(w), w) == Le(v, w)
    decreases w
  {
    if w > 0 {
      var t := q * Pow256(w - 1);
      assert q * Pow256(w) == 256 * t;
      HighPart(v, t);
      LeWraps(v / 256, q, w - 1);
    }
  }

  lemma Widths()
    ensures Pow256(2) == 0x1_0000 && Pow256(4) == 0x1_0000_0000 && Pow256(8) == 0x1_0000_0000_0000_0000
  {
    assert Pow256(1) == 256;
    assert Pow256(3) == 256 * Pow256(2);
    assert Pow256(5) == 256 * Pow256(4);
    assert Pow256(6) == 256 * Pow256(5);
    assert Pow256(7) == 256 * Pow256(6);
  }

  /** Byte `i` of a word is its digit of weight 256^i. */
  lemma {:induction false} ByteOfLe(v: int, w: nat, i: nat)
    requires i < w
    ensures Le(v, w)[i] == v / Pow256(i) % 256
    decreases w
  {
    if i > 0 {
      ByteOfLe(v / 256, w - 1, i - 1);
      DivideTwice(v, 256, Pow256(i - 1));
    }
  }

  /** The word `v`, in `w` bytes, lowest first, stands in `b` from `off` on. */
  predicate WordAt(b: seq<Byte>, off: int, v: int, w: nat) {
    0 <= off && off + w <= |b| && forall i | 0 <= i < w :: b[off + i] == v / Pow256(i) % 256
  }

  lemma PlacedWord(b: seq<Byte>, off: int, v: int, w: nat)
    requires 0 <= off && off + w <= |b| && b[off..off + w] == Le(v, w)
    ensures WordAt(b, off, v, w)
  {
    hide Le, Pow256;
    forall i | 0 <= i < w
      ensures b[off + i] == v / Pow256(i) % 256
    {
      ByteOfLe(v, w, i);
      assert b[off + i] == b[off..off + w][i];
    }
  }

  // --- runs of words ---

  function Fixed(s: seq<int>, w: nat): seq<Byte> {
    if s == [] then [] else Le(s[0], w) + Fixed(s[1..], w)
  }

  lemma {:induction false} FixedSize(s: seq<int>, w: nat)
    ensures |Fixed(s, w)| == |s| * w
  {
    if s != [] {
      FixedSize(s[1..], w);
      OneMore(|s|, w);
    }
  }

  lemma {:induction false} FixedAt(s: seq<int>, w: nat, j: nat)
    requires j < |s|
    ensures 0 <= j * w && j * w + w <= |Fixed(s, w)|
    ensures Fixed(s, w)[j * w..j * w + w] == Le(s[j], w)
  {
    hide Le;
    FixedSize(s[1..], w);
    if j > 0 {
      FixedAt(s[1..], w, j - 1);
      OneMore(j, w);
      assert Fixed(s, w)[j * w..j * w + w] == Fixed(s[1..], w)[(j - 1) * w..(j - 1) * w + w];
    }
  }

  /** A run of words stands in `b` from `off` on, its length in front of it. */
  predicate SliceAt(b: seq<Byte>, off: int, s: seq<int>, w: nat) {
    WordAt(b, off, |s|, 8) && forall j | 0 <= j < |s| :: WordAt(b, off + 8 + j * w, s[j], w)
  }

  lemma Within(b: seq<Byte>, p: int, n: int, k: int, w: nat)
    requires 0 <= p && 0 <= k && k + w <= n && p + n <= |b|
    ensures b[p + k..p + k + w] == b[p..p + n][k..k + w]
  {
    var x, y := b[p + k..p + k + w], b[p..p + n];
    forall i | 0 <= i < w
      ensures x[i] == y[k..k + w][i]
    {
      assert x[i] == b[p + (k + i)] == y[k + i];
    }
  }

  lemma PlacedSlice(b: seq<Byte>, off: int, s: seq<int>, w: nat)
    requires 0 <= off && off + 8 + |s| * w <= |b| && b[off..off + 8 + |s| * w] == Le(|s|, 8) + Fixed(s, w)
    ensures SliceAt(b, off, s, w)
  {
    hide Le, Fixed, WordAt;
    var n := |s| * w;
    FixedSize(s, w);
    Within(b, off, 8 + n, 0, 8);
    Within(b, off, 8 + n, 8, n);
    PlacedWord(b, off, |s|, 8);
    assert b[off + 8..off + 8 + n] == Fixed(s, w);
    forall j | 0 <= j < |s|
      ensures WordAt(b, off + 8 + j * w, s[j], w)
    {
      FixedAt(s, w, j);
      Within(b, off + 8, n, j * w, w);
      PlacedWord(b, off + 8 + j * w, s[j], w);
    }
  }

  lemma OneMore(k: nat, w: nat)
    requires k > 0
    ensures k * w == (k - 1) * w + w && 0 <= (k - 1) * w
  {
  }

  /** The first `k` words of `w` bytes each. */
  function Unpacked(b: seq<Byte>, k: nat, w: nat): (s: seq<int>)
    requires k * w <= |b|
    ensures |s| == k
  {
    if k == 0 then []
    else
      OneMore(k, w);
      [LeValue(b[..w])] + Unpacked(b[w..], k - 1, w)
  }

  /** Packing and unpacking a run of words cancel out. */
  lemma {:induction false} UnpackedOfFixed(s: seq<int>, w: nat, tail: seq<Byte>)
    requires InWidth(s, w)
    ensures |s| * w <= |Fixed(s, w) + tail|
    ensures Unpacked(Fixed(s, w) + tail, |s|, w) == s
  {
    FixedSize(s, w);
    if s != [] {
      hide Pow256, Le;
      var b := Fixed(s, w) + tail;
      OneMore(|s|, w);
      UnpackedOfFixed(s[1..], w, tail);
      ValueOfLe(s[0], w);
      assert b[..w] == Le(s[0], w) && b[w..] == Fixed(s[1..], w) + tail;
      assert s == [s[0]] + s[1..];
    }
  }

  predicate InWidth(s: seq<int>, w: nat) {
    forall i | 0 <= i < |s| :: 0 <= s[i] < Pow256(w)
  }

  lemma {:induction false} FixedOfUnpacked(b: seq<Byte>, k: nat, w: nat)
    requires k * w <= |b|
    ensures 0 <= k * w && Fixed(Unpacked(b, k, w), w) == b[..k * w]
    ensures InWidth(Unpacked(b, k, w), w)
  {
    if k > 0 {
      hide Pow256, Le;
      OneMore(k, w);
      FixedOfUnpacked(b[w..], k - 1, w);
      LeOfValue(b[..w]);
      LeValueBounded(b[..w]);
      assert Unpacked(b, k, w)[1..] == Unpacked(b[w..], k - 1, w);
      assert b[..k * w] == b[..w] + b[w..][..(k - 1) * w];
    }
  }

  // --- streams ---

  class Writer {
    var out: seq<Byte>

    constructor ()
      ensures out == []
    {
      out := [];
    }

    method Write(b: seq<Byte>)
      modifies this
      ensures out == old(out) + b
    {
      out := out + b;
    }
  }

  class Reader {
    const input: seq<Byte>
    var pos: nat

    ghost predicate Valid()
      reads this
    {
      pos <= |input|
    }

    function Rest(): seq<Byte>
      requires Valid()
      reads this
    {
      input[pos..]
    }

    constructor (b: seq<Byte>)
      ensures Valid() && Rest() == b
    {
      input, pos := b, 0;
    }

    /** io.ReadFull: all `k` bytes or an error, and then the stream is used up. */
    method ReadFull(k: nat) returns (b: Option<seq<Byte>>)
      requires Valid()
      modifies this
      ensures Valid()
      ensures b.Some? <==> k <= |old(Rest())|
      ensures b.Some? ==> b.value == old(Rest())[..k] && Rest() == old(Rest())[k..]
    {
      if k <= |input| - pos {
        b := Some(input[pos..pos + k]);
        pos := pos + k;
      } else {
        b := None;
        pos := |input|;
      }
    }
  }
}
