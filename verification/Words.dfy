/** Bits packed into 64-bit words, and fixed-width integer arithmetic. */
module Words {
  /** Bit `k` of the unsigned word `w`. */
  predicate BitAt(w: int, k: nat)
    requires w >= 0
  {
    if k == 0 then w % 2 == 1 else BitAt(w / 2, k - 1)
  }

  /** w | 1 << k */
  function SetBit(w: int, k: nat): (r: int)
    requires w >= 0
    ensures r >= 0
  {
    if k == 0 then (if w % 2 == 1 then w else w + 1) else 2 * SetBit(w / 2, k - 1) + w % 2
  }

  lemma {:induction false} SetBitSets(w: int, k: nat, j: nat)
    requires w >= 0
    ensures BitAt(SetBit(w, k), j) == (j == k || BitAt(w, j))
  {
    if k > 0 && j > 0 {
      SetBitSets(w / 2, k - 1, j - 1);
      assert SetBit(w, k) / 2 == SetBit(w / 2, k - 1);
    } else if k == 0 && j > 0 {
      assert SetBit(w, k) / 2 == w / 2;
    }
  }

  lemma {:induction false} ZeroHasNoBits(k: nat)
    ensures !BitAt(0, k)
  {
    if k > 0 {
      ZeroHasNoBits(k - 1);
    }
  }

  function Pow2(k: nat): (p: nat)
    ensures p >= 1
  {
    if k == 0 then 1 else 2 * Pow2(k - 1)
  }

  lemma {:induction false} SetBitFits(w: int, k: nat, width: nat)
    requires 0 <= w < Pow2(width) && k < width
    ensures 0 <= SetBit(w, k) < Pow2(width)
  {
    var half := Pow2(width - 1);
    assert Pow2(width) == 2 * half;
    if k > 0 {
      assert w / 2 < half;
      SetBitFits(w / 2, k - 1, width - 1);
    }
  }

  // --- digits ---

  lemma NextMultiple(d: int, q: int, q': int)
    requires d >= 1 && q < q'
    ensures d * q + d <= d * q'
  {
    var more := q' - q - 1;
    assert d * more >= 0;
    assert d * q' == d * q + d + d * more;
  }

  lemma OneQuotient(v: int, d: int, q: int, r: int)
    requires d >= 1 && 0 <= r < d && v == d * q + r
    ensures v / d == q
  {
    if v / d < q {
      NextMultiple(d, v / d, q);
    } else if q < v / d {
      NextMultiple(d, q, v / d);
    }
  }

  lemma DivideTwice(v: int, a: int, p: int)
    requires a >= 1 && p >= 1
    ensures a * p >= 1 && v / a / p == v / (a * p)
  {
    var q, r := v / a, v % a;
    var q', r' := q / p, q % p;
    assert a * q == a * (p * q') + a * r' == (a * p) * q' + a * r';
    NextMultiple(a, 0, p);
    NextMultiple(a, r', p);
    if r' > 0 {
      NextMultiple(a, 0, r');
    }
    OneQuotient(v, a * p, q', a * r' + r);
  }

  /** Bit `k` is the binary digit of weight 2^k. */
  lemma {:induction false} BitIsDigit(w: int, k: nat)
    requires w >= 0
    ensures BitAt(w, k) <==> w / Pow2(k) % 2 == 1
  {
    if k > 0 {
      BitIsDigit(w / 2, k - 1);
      DivideTwice(w, 2, Pow2(k - 1));
    }
  }

  // --- machine arithmetic ---

  /** Two's complement 32-bit wrap-around of int32 arithmetic. */
  function Wrap32(x: int): (r: int)
    ensures -0x8000_0000 <= r < 0x8000_0000
    ensures -0x8000_0000 <= x < 0x8000_0000 ==> r == x
  {
    (x + 0x8000_0000) % 0x1_0000_0000 - 0x8000_0000
  }

  /** Two's complement 64-bit wrap-around of int arithmetic. */
  function Wrap64(x: int): (r: int)
    ensures -0x8000_0000_0000_0000 <= r < 0x8000_0000_0000_0000
    ensures -0x8000_0000_0000_0000 <= x < 0x8000_0000_0000_0000 ==> r == x
  {
    (x + 0x8000_0000_0000_0000) % 0x1_0000_0000_0000_0000 - 0x8000_0000_0000_0000
  }
}
