/** The low-level rewrites at the end of a build: bits into words, rows into dim-major blocks. */
module Packing {
  import opened Grid
  import opened Words
  import opened Layout

  // --- fraud bits ---

  predicate FlagAt(words: seq<int>, i: int)
    requires 0 <= i && i / 64 < |words| && forall w | 0 <= w < |words| :: words[w] >= 0
  {
    BitAt(words[i / 64], i % 64)
  }

  predicate IsWords(words: seq<int>, n: int) {
    |words| == (n + 63) / 64 && forall w | 0 <= w < |words| :: 0 <= words[w] < Pow2(64)
  }

  lemma SetFlag(words: seq<int>, n: int, r: int, i: int)
    requires IsWords(words, n) && 0 <= r < n && 0 <= i < n
    ensures IsWords(words[r / 64 := SetBit(words[r / 64], r % 64)], n)
    ensures FlagAt(words[r / 64 := SetBit(words[r / 64], r % 64)], i) == (i == r || FlagAt(words, i))
  {
    hide Pow2, SetBit;
    SetBitSets(words[r / 64], r % 64, i % 64);
    SetBitFits(words[r / 64], r % 64, 64);
  }

  /** The packed words after the first `r` bits. */
  function Packed(bits: seq<bool>, r: nat): (words: seq<int>)
    requires r <= |bits|
    ensures IsWords(words, |bits|)
  {
    if r == 0 then (assert Pow2(64) > 0; seq((|bits| + 63) / 64, _ => 0))
    else
      var before := Packed(bits, r - 1);
      SetFlag(before, |bits|, r - 1, r - 1);
      if bits[r - 1] then before[(r - 1) / 64 := SetBit(before[(r - 1) / 64], (r - 1) % 64)] else before
  }

  lemma {:induction false} PackedFlags(bits: seq<bool>, r: nat, i: nat)
    requires r <= |bits| && i < |bits|
    ensures FlagAt(Packed(bits, r), i) == (i < r && bits[i])
  {
    if r == 0 {
      ZeroHasNoBits(i % 64);
    } else {
      PackedFlags(bits, r - 1, i);
      SetFlag(Packed(bits, r - 1), |bits|, r - 1, i);
    }
  }

  lemma FlagIsDigit(words: seq<int>, i: int)
    requires 0 <= i && i / 64 < |words| && forall w | 0 <= w < |words| :: words[w] >= 0
    ensures FlagAt(words, i) <==> words[i / 64] / Pow2(i % 64) % 2 == 1
  {
    BitIsDigit(words[i / 64], i % 64);
  }

  /** One bit per row: bit i of the packed words is the label of row i, lowest bits first. */
  method PackBits(bits: seq<bool>) returns (words: seq<int>)
    ensures IsWords(words, |bits|)
    ensures forall i | 0 <= i < |bits| :: words[i / 64] / Pow2(i % 64) % 2 == 1 <==> bits[i]
    ensures forall i | 0 <= i < |bits| :: FlagAt(words, i) == bits[i]
  {
    var n := |bits|;
    var a := new int[(n + 63) / 64](_ => 0);
    forall i | 0 <= i < n
      ensures !FlagAt(a[..], i)
    {
      ZeroHasNoBits(i % 64);
    }
    assert IsWords(a[..], n) by { assert Pow2(64) > 0; }
    hide FlagAt, SetBit, Pow2;
    for r := 0 to n
      invariant IsWords(a[..], n)
      invariant forall i | 0 <= i < n :: FlagAt(a[..], i) == (i < r && bits[i])
    {
      if bits[r] {
        ghost var before := a[..];
        a[r / 64] := SetBit(a[r / 64], r % 64);
        assert a[..] == before[r / 64 := SetBit(before[r / 64], r % 64)];
        SetFlag(before, n, r, r);
        forall i | 0 <= i < n
          ensures FlagAt(a[..], i) == (i < r + 1 && bits[i])
        {
          SetFlag(before, n, r, i);
        }
      }
    }
    words := a[..];
    forall i | 0 <= i < n
      ensures words[i / 64] / Pow2(i % 64) % 2 == 1 <==> bits[i]
    {
      FlagIsDigit(words, i);
    }
  }

  // --- dim-major blocks ---

  /** Index of dimension `d` of local row `l` in a block of `rows` rows at `base`. */
  function BlockIndex(base: int, rows: int, d: int, l: int): int {
    base + d * rows + l
  }

  lemma BlockIndexInjective(base: int, rows: int, d: int, l: int, d': int, l': int)
    requires 0 <= l < rows && 0 <= l' < rows && 0 <= d && 0 <= d'
    requires BlockIndex(base, rows, d, l) == BlockIndex(base, rows, d', l')
    ensures d == d' && l == l'
  {
    if d < d' {
      DimsApart(d, d', rows);
    } else if d' < d {
      DimsApart(d', d, rows);
    }
  }

  lemma {:induction false} DimsApart(d: int, d': int, rows: int)
    requires 0 <= d < d' && 0 <= rows
    ensures d * rows + rows <= d' * rows
    decreases d' - d
  {
    assert d' * rows == (d' - 1) * rows + rows;
    if d < d' - 1 {
      DimsApart(d, d' - 1, rows);
    }
  }

  lemma BlockIndexInRange(base: int, rows: int, d: int, l: int)
    requires 0 <= d < DIMS && 0 <= l < rows
    ensures base <= BlockIndex(base, rows, d, l) < base + DIMS * rows
  {
    StrideBound(rows, d);
  }

  ghost predicate BlockHolds(s: seq<int>, base: int, src: seq<Codes>, upto: int)
    requires 0 <= base && base + DIMS * |src| <= |s|
  {
    forall l, d | 0 <= l < upto && l < |src| && 0 <= d < DIMS :: CodeStored(s, base, src, l, d)
  }

  predicate CodeStored(s: seq<int>, base: int, src: seq<Codes>, l: int, d: int)
    requires 0 <= base && base + DIMS * |src| <= |s| && 0 <= l < |src| && 0 <= d < DIMS
  {
    BlockIndexInRange(base, |src|, d, l);
    s[BlockIndex(base, |src|, d, l)] == src[l][d]
  }

  /** Stores one row of a block, dimension by dimension. */
  method StoreRow(a: array<int>, base: int, src: seq<Codes>, l: int)
    requires 0 <= base && base + DIMS * |src| <= a.Length && 0 <= l < |src|
    requires BlockHolds(a[..], base, src, l) && OnGrid(a[..])
    modifies a
    ensures BlockHolds(a[..], base, src, l + 1) && OnGrid(a[..])
    ensures forall i | 0 <= i < a.Length && !(base <= i < base + DIMS * |src|) :: a[i] == old(a[i])
  {
    hide CodeStored, BlockIndex;
    for d := 0 to DIMS
      invariant BlockHolds(a[..], base, src, l) && OnGrid(a[..])
      invariant forall e | 0 <= e < d :: CodeStored(a[..], base, src, l, e)
      invariant forall i | 0 <= i < a.Length && !(base <= i < base + DIMS * |src|) :: a[i] == old(a[i])
    {
      ghost var before := a[..];
      BlockIndexInRange(base, |src|, d, l);
      a[BlockIndex(base, |src|, d, l)] := src[l][d];
      assert a[..] == before[BlockIndex(base, |src|, d, l) := src[l][d]];
      forall l', d' | 0 <= l' < |src| && 0 <= d' < DIMS && CodeStored(before, base, src, l', d')
        ensures CodeStored(a[..], base, src, l', d')
      {
        StoreKept(before, base, src, l, d, l', d');
      }
      StoreSets(before, base, src, l, d);
    }
  }

  lemma StoreSets(s: seq<int>, base: int, src: seq<Codes>, l: int, d: int)
    requires 0 <= base && base + DIMS * |src| <= |s| && 0 <= l < |src| && 0 <= d < DIMS
    ensures 0 <= BlockIndex(base, |src|, d, l) < |s|
    ensures CodeStored(s[BlockIndex(base, |src|, d, l) := src[l][d]], base, src, l, d)
  {
    BlockIndexInRange(base, |src|, d, l);
  }

  lemma StoreKept(s: seq<int>, base: int, src: seq<Codes>, l: int, d: int, l': int, d': int)
    requires 0 <= base && base + DIMS * |src| <= |s| && 0 <= l < |src| && 0 <= d < DIMS && 0 <= l' < |src|
      && 0 <= d' < DIMS
    requires CodeStored(s, base, src, l', d')
    ensures 0 <= BlockIndex(base, |src|, d, l) < |s|
    ensures CodeStored(s[BlockIndex(base, |src|, d, l) := src[l][d]], base, src, l', d')
  {
    hide BlockIndex;
    BlockIndexInRange(base, |src|, d, l);
    BlockIndexInRange(base, |src|, d', l');
    if BlockIndex(base, |src|, d, l) == BlockIndex(base, |src|, d', l') {
      BlockIndexInjective(base, |src|, d, l, d', l');
    }
  }

  /** The transpose of one bucket: all rows' dimension 0, then all rows' dimension 1, ... */
  method TransposeBlock(a: array<int>, base: int, src: seq<Codes>)
    requires 0 <= base && base + DIMS * |src| <= a.Length && OnGrid(a[..])
    modifies a
    ensures BlockHolds(a[..], base, src, |src|) && OnGrid(a[..])
    ensures forall i | 0 <= i < a.Length && !(base <= i < base + DIMS * |src|) :: a[i] == old(a[i])
  {
    for l := 0 to |src|
      invariant BlockHolds(a[..], base, src, l) && OnGrid(a[..])
      invariant forall i | 0 <= i < a.Length && !(base <= i < base + DIMS * |src|) :: a[i] == old(a[i])
    {
      StoreRow(a, base, src, l);
    }
  }

  /** Reading a block back with the search's strided reads gives the rows that went in. */
  lemma BlockReadsBack(s: seq<int>, base: int, src: seq<Codes>, l: int)
    requires OnGrid(s) && 0 <= base && base + DIMS * |src| <= |s| && 0 <= l < |src|
    requires BlockHolds(s, base, src, |src|)
    ensures Strided(s, base + l, |src|) == src[l]
  {
    var c := Strided(s, base + l, |src|);
    forall d | 0 <= d < DIMS
      ensures c[d] == src[l][d]
    {
      StridedAt(s, base + l, |src|, d);
      assert CodeStored(s, base, src, l, d);
    }
  }
}
