/** Rearrangements of 0, 1, ..., n - 1, given as sequences of distinct numbers below n. */
module Permutation {
  function Numbers(n: nat): (s: seq<int>)
    ensures |s| == n && forall i | 0 <= i < n :: s[i] == i
  {
    seq(n, i => i)
  }

  function UpTo(n: nat): (s: set<int>)
    ensures forall j :: j in s <==> 0 <= j < n
  {
    if n == 0 then {} else UpTo(n - 1) + {n - 1}
  }

  function Image(order: seq<int>, k: nat): (s: set<int>)
    requires k <= |order|
    ensures forall r | 0 <= r < k :: order[r] in s
  {
    if k == 0 then {} else Image(order, k - 1) + {order[k - 1]}
  }

  lemma {:induction false} Hit(order: seq<int>, k: nat, i: int) returns (r: int)
    requires k <= |order| && i in Image(order, k)
    ensures 0 <= r < k && order[r] == i
  {
    if i == order[k - 1] {
      r := k - 1;
    } else {
      r := Hit(order, k - 1, i);
    }
  }

  lemma {:induction false} ImageSize(order: seq<int>, k: nat)
    requires k <= |order| && forall r, s | 0 <= r < s < k :: order[r] != order[s]
    ensures |Image(order, k)| == k
    ensures forall x | x in Image(order, k) :: exists r | 0 <= r < k :: order[r] == x
  {
    if k > 0 {
      ImageSize(order, k - 1);
    }
  }

  lemma {:induction false} UpToSize(n: nat)
    ensures |UpTo(n)| == n
  {
    if n > 0 {
      UpToSize(n - 1);
    }
  }

  lemma SubsetIsAll(a: set<int>, b: set<int>)
    requires a <= b && |a| == |b|
    ensures a == b
  {
    assert b == a + (b - a);
    assert |b - a| == 0;
  }

  lemma ImageIsAll(s: seq<int>, n: nat)
    requires |s| == n && forall r | 0 <= r < n :: 0 <= s[r] < n
    requires forall i, j | 0 <= i < j < n :: s[i] != s[j]
    ensures Image(s, n) == UpTo(n)
  {
    ImageSize(s, n);
    UpToSize(n);
    SubsetIsAll(Image(s, n), UpTo(n));
  }

  /** An injective map from [0, n) to itself hits everything. */
  lemma HitBy(order: seq<int>, n: int, i: int) returns (r: int)
    requires |order| == n && 0 <= i < n
    requires forall r | 0 <= r < n :: 0 <= order[r] < n
    requires forall r, s | 0 <= r < s < n :: order[r] != order[s]
    ensures 0 <= r < n && order[r] == i
  {
    ImageIsAll(order, n);
    r := Hit(order, n, i);
  }

  lemma {:induction false} DistinctCount(s: seq<int>, r: int)
    requires forall i, j | 0 <= i < j < |s| :: s[i] != s[j]
    ensures multiset(s)[r] == if r in s then 1 else 0
  {
    if s != [] {
      var k := |s| - 1;
      assert s == s[..k] + [s[k]];
      DistinctCount(s[..k], r);
    }
  }

  lemma NumbersHold(n: nat, r: int)
    ensures r in Numbers(n) <==> 0 <= r < n
  {
    if 0 <= r < n {
      assert Numbers(n)[r] == r;
    }
  }

  /** As multisets, all rearrangements are equal. */
  lemma PermutationOfNumbers(order: seq<int>, n: nat)
    requires |order| == n && forall r | 0 <= r < n :: 0 <= order[r] < n
    requires forall r, s | 0 <= r < s < n :: order[r] != order[s]
    ensures multiset(order) == multiset(Numbers(n))
  {
    forall i: int
      ensures multiset(order)[i] == multiset(Numbers(n))[i]
    {
      if 0 <= i < n {
        var r := HitBy(order, n, i);
      }
      NumbersHold(n, i);
      DistinctCount(order, i);
      DistinctCount(Numbers(n), i);
    }
  }

  /** The numbers below `n` that are not listed, in order. */
  function Missing(n: nat, s: seq<int>): (m: seq<int>)
    ensures forall i | 0 <= i < |m| :: 0 <= m[i] < n && m[i] !in s
    ensures forall r | 0 <= r < n && r !in s :: r in m
    ensures forall i, j | 0 <= i < j < |m| :: m[i] < m[j]
  {
    if n == 0 then []
    else if n - 1 in s then Missing(n - 1, s)
    else Missing(n - 1, s) + [n - 1]
  }

  lemma {:induction false} NoneMissing(n: nat, s: seq<int>)
    requires forall r | 0 <= r < n :: r in s
    ensures Missing(n, s) == []
  {
    if n > 0 {
      NoneMissing(n - 1, s);
    }
  }

  /** Distinct numbers and the missing ones together are all numbers. */
  lemma MissingCompletes(n: nat, s: seq<int>)
    requires forall i | 0 <= i < |s| :: 0 <= s[i] < n
    requires forall i, j | 0 <= i < j < |s| :: s[i] != s[j]
    ensures multiset(s + Missing(n, s)) == multiset(Numbers(n))
  {
    forall r: int
      ensures multiset(s + Missing(n, s))[r] == multiset(Numbers(n))[r]
    {
      NumbersHold(n, r);
      DistinctCount(s, r);
      DistinctCount(Missing(n, s), r);
      DistinctCount(Numbers(n), r);
    }
  }
}
