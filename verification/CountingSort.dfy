/** The order a stable counting sort produces, and the slot it sends each element to. */
module CountingSort {
  predicate KeysBelow(keys: seq<int>, m: nat) {
    forall i | 0 <= i < |keys| :: 0 <= keys[i] < m
  }

  /** How many of the first `i` keys equal `k`. */
  function CountTo(keys: seq<int>, k: int, i: nat): nat
    requires i <= |keys|
  {
    if i == 0 then 0 else CountTo(keys, k, i - 1) + if keys[i - 1] == k then 1 else 0
  }

  /** The positions below `i` that hold key `k`, in order. */
  function Holders(keys: seq<int>, k: int, i: nat): (h: seq<int>)
    requires i <= |keys|
    ensures |h| == CountTo(keys, k, i)
    ensures forall j | 0 <= j < |h| :: 0 <= h[j] < i && keys[h[j]] == k
  {
    if i == 0 then [] else Holders(keys, k, i - 1) + if keys[i - 1] == k then [i - 1] else []
  }

  /** All positions with key below `k`: key by key, each key's positions in order. */
  function Order(keys: seq<int>, k: nat): (o: seq<int>)
    ensures forall j | 0 <= j < |o| :: 0 <= o[j] < |keys| && 0 <= keys[o[j]] < k
  {
    if k == 0 then [] else Order(keys, k - 1) + Holders(keys, k - 1, |keys|)
  }

  /** First slot of key `k`. */
  function Start(keys: seq<int>, k: nat): nat {
    |Order(keys, k)|
  }

  /** Where the scatter loop puts element `i`. */
  function Slot(keys: seq<int>, i: nat): nat
    requires i < |keys| && 0 <= keys[i]
  {
    Start(keys, keys[i]) + CountTo(keys, keys[i], i)
  }

  lemma {:induction false} HoldersAt(keys: seq<int>, k: int, n: nat, i: nat)
    requires i < n <= |keys| && keys[i] == k
    ensures CountTo(keys, k, i) < CountTo(keys, k, n)
    ensures Holders(keys, k, n)[CountTo(keys, k, i)] == i
  {
    if i < n - 1 {
      HoldersAt(keys, k, n - 1, i);
    }
  }

  lemma {:induction false} HoldersRank(keys: seq<int>, k: int, n: nat, j: nat)
    requires n <= |keys| && j < CountTo(keys, k, n)
    ensures CountTo(keys, k, Holders(keys, k, n)[j]) == j
  {
    if j < CountTo(keys, k, n - 1) {
      HoldersRank(keys, k, n - 1, j);
    }
  }

  lemma {:induction false} OrderPrefix(keys: seq<int>, k: nat, m: nat, r: nat)
    requires k <= m && r < |Order(keys, k)|
    ensures r < |Order(keys, m)| && Order(keys, m)[r] == Order(keys, k)[r]
    decreases m
  {
    hide Holders;
    if k < m {
      OrderPrefix(keys, k, m - 1, r);
      assert Order(keys, m)[r] == Order(keys, m - 1)[r];
    }
  }

  /** The run of key `k` in the order lists the positions that hold `k`. */
  lemma OrderRun(keys: seq<int>, m: nat, k: nat, j: nat)
    requires k < m && j < CountTo(keys, k, |keys|)
    ensures Start(keys, k) + j < |Order(keys, m)|
    ensures Order(keys, m)[Start(keys, k) + j] == Holders(keys, k, |keys|)[j]
  {
    hide Holders;
    OrderPrefix(keys, k + 1, m, Start(keys, k) + j);
    assert Order(keys, k + 1)[Start(keys, k) + j] == Holders(keys, k, |keys|)[j];
  }

  /** The order lists element `i` in its slot. */
  lemma OrderAtSlot(keys: seq<int>, m: nat, i: nat)
    requires KeysBelow(keys, m) && i < |keys|
    ensures Slot(keys, i) < |Order(keys, m)|
    ensures Order(keys, m)[Slot(keys, i)] == i
  {
    var k := keys[i];
    HoldersAt(keys, k, |keys|, i);
    OrderPrefix(keys, k + 1, m, Slot(keys, i));
    assert Order(keys, k + 1)[Slot(keys, i)] == Holders(keys, k, |keys|)[CountTo(keys, k, i)];
  }

  /** Every slot is the slot of the element listed there. */
  lemma {:induction false} SlotOfOrder(keys: seq<int>, m: nat, r: nat)
    requires r < |Order(keys, m)|
    ensures Slot(keys, Order(keys, m)[r]) == r
  {
    var before := Order(keys, m - 1);
    if r < |before| {
      SlotOfOrder(keys, m - 1, r);
      assert Order(keys, m)[r] == before[r];
    } else {
      var j := r - |before|;
      HoldersRank(keys, m - 1, |keys|, j);
      assert Order(keys, m)[r] == Holders(keys, m - 1, |keys|)[j];
    }
  }

  function Below(keys: seq<int>, k: int, i: nat): nat
    requires i <= |keys|
  {
    if i == 0 then 0 else Below(keys, k, i - 1) + if 0 <= keys[i - 1] < k then 1 else 0
  }

  lemma {:induction false} BelowGrows(keys: seq<int>, k: nat, i: nat)
    requires i <= |keys|
    ensures Below(keys, k + 1, i) == Below(keys, k, i) + CountTo(keys, k, i)
  {
    if i > 0 {
      BelowGrows(keys, k, i - 1);
    }
  }

  lemma {:induction false} BelowAll(keys: seq<int>, m: nat, i: nat)
    requires i <= |keys|
    ensures KeysBelow(keys, m) ==> Below(keys, m, i) == i
    ensures m == 0 ==> Below(keys, m, i) == 0
  {
    if i > 0 {
      BelowAll(keys, m, i - 1);
    }
  }

  lemma {:induction false} StartIsBelow(keys: seq<int>, k: nat)
    ensures Start(keys, k) == Below(keys, k, |keys|)
  {
    if k == 0 {
      BelowAll(keys, 0, |keys|);
    } else {
      StartIsBelow(keys, k - 1);
      BelowGrows(keys, k - 1, |keys|);
    }
  }

  /** Every element has a slot: the order is as long as the input. */
  lemma OrderIsComplete(keys: seq<int>, m: nat)
    requires KeysBelow(keys, m)
    ensures |Order(keys, m)| == |keys|
  {
    StartIsBelow(keys, m);
    BelowAll(keys, m, |keys|);
  }

  lemma {:induction false} StartMonotone(keys: seq<int>, j: nat, k: nat)
    requires j <= k
    ensures Start(keys, j) <= Start(keys, k)
    decreases k
  {
    if j < k {
      StartMonotone(keys, j, k - 1);
      StartStep(keys, k - 1);
    }
  }

  lemma StartStep(keys: seq<int>, k: nat)
    ensures Start(keys, k + 1) == Start(keys, k) + CountTo(keys, k, |keys|)
  {
  }

  /** Slots of key `k` are [Start(k), Start(k + 1)). */
  lemma SlotInRange(keys: seq<int>, i: nat)
    requires i < |keys| && 0 <= keys[i]
    ensures Start(keys, keys[i]) <= Slot(keys, i) < Start(keys, keys[i] + 1)
  {
    HoldersAt(keys, keys[i], |keys|, i);
    StartStep(keys, keys[i]);
  }

  /** Stability: among equal keys, earlier elements get earlier slots. */
  lemma {:induction false} CountToGrows(keys: seq<int>, k: int, i: nat, j: nat)
    requires i < j <= |keys| && keys[i] == k
    ensures CountTo(keys, k, i) < CountTo(keys, k, j)
  {
    HoldersAt(keys, k, j, i);
  }

  /** The counting sort in one statement: listing the elements by slot is a permutation, sorted by
    * key, and stable. */
  lemma SortedStablePermutation(keys: seq<int>, m: nat, r: nat, s: nat)
    requires KeysBelow(keys, m) && r < s < |keys|
    ensures |Order(keys, m)| == |keys|
    ensures var a, b := Order(keys, m)[r], Order(keys, m)[s];
      a != b && (keys[a] < keys[b] || (keys[a] == keys[b] && a < b))
  {
    OrderIsComplete(keys, m);
    var a, b := Order(keys, m)[r], Order(keys, m)[s];
    SlotOfOrder(keys, m, r);
    SlotOfOrder(keys, m, s);
    SlotsOrdered(keys, a, b);
  }

  lemma SlotsOrdered(keys: seq<int>, a: nat, b: nat)
    requires a < |keys| && b < |keys| && 0 <= keys[a] && 0 <= keys[b]
    requires Slot(keys, a) < Slot(keys, b)
    ensures a != b && (keys[a] < keys[b] || (keys[a] == keys[b] && a < b))
  {
    hide Start;
    if keys[b] < keys[a] {
      SlotInRange(keys, a);
      SlotInRange(keys, b);
      StartMonotone(keys, keys[b] + 1, keys[a]);
    } else if keys[a] == keys[b] && b < a {
      CountToGrows(keys, keys[a], b, a);
    }
  }
}
