/** The three sorted insertion buffers of the search, each shifting its arrays in place.
  * Every one of them is proved to hold `Best(k, everything fed)`.
  */
module Collectors {
  import opened Grid
  import opened Ranking

  /** math.MaxFloat64: the distance of an empty slot of TopK. */
  const MAX_FLOAT: real := 179769313486231570814527423731704356798070567525844996598917476803157260780028538760589558632766878171540458953514382464234321326889464182768467546703537516986049910576551282076245490090389328944075868508455133942304583236903222948165808559332123347764797926204144723168738177180919299881250404026184124858368.0

  /** `s` with `x` put at `pos`, the rest moved up and the last element dropped. */
  ghost predicate Shifted<X>(s: seq<X>, s': seq<X>, x: X, pos: nat) {
    && pos < |s| == |s'|
    && (forall i | 0 <= i < pos :: s'[i] == s[i])
    && s'[pos] == x
    && (forall i | pos < i < |s| :: s'[i] == s[i - 1])
  }

  // --- integer buffers ---

  /** The first slots hold `best`; the others hold the sentinel. */
  ghost predicate IntSlots(dist: seq<int>, tag: seq<int>, best: seq<Entry<int>>) {
    && |best| <= |dist| == |tag|
    && Sorted(best)
    && (forall i | 0 <= i < |best| :: dist[i] < MAX_INT32 && best[i] == Entry(dist[i] as real, tag[i]))
    && (forall i | |best| <= i < |dist| :: dist[i] == MAX_INT32)
  }

  /** A distance equal to the sentinel never displaces an empty slot. */
  function Offered(d: int, tag: int): seq<Entry<int>> {
    if d < MAX_INT32 then [Entry(d as real, tag)] else []
  }

  lemma IntShift(dist: seq<int>, tag: seq<int>, best: seq<Entry<int>>, d: int, t: int, pos: nat,
                 dist': seq<int>, tag': seq<int>)
    requires IntSlots(dist, tag, best) && pos < |dist| && d < MAX_INT32
    requires pos > 0 ==> dist[pos - 1] <= d
    requires forall i | pos <= i < |dist| :: d < dist[i]
    requires Shifted(dist, dist', d, pos) && Shifted(tag, tag', t, pos)
    ensures IntSlots(dist', tag', Take(Insert(best, Entry(d as real, t)), |dist|))
  {
    var e := Entry(d as real, t);
    assert pos <= |best|;
    InsertAt(best, e, pos);
    InsertSorted(best, e);
    var b := Take(Insert(best, e), |dist|);
    forall i | 0 <= i < |b|
      ensures dist'[i] < MAX_INT32 && b[i] == Entry(dist'[i] as real, tag'[i])
    {
      if i > pos {
        assert b[i] == best[i - 1];
      }
    }
  }

  lemma IntRejects(dist: seq<int>, tag: seq<int>, best: seq<Entry<int>>, d: int, t: int)
    requires IntSlots(dist, tag, best) && |dist| > 0 && dist[|dist| - 1] <= d < MAX_INT32
    ensures Take(Insert(best, Entry(d as real, t)), |dist|) == best
  {
  }

  /** The shift loop shared by insertProbe and intTopK.consider: makes room at `pos` in the first
    * np slots, dropping the last one. */
  method ShiftInts(dist: array<int>, tag: array<int>, np: int, d: int, t: int) returns (ghost pos: nat)
    requires 1 <= np <= dist.Length && dist.Length == tag.Length && dist != tag
    requires d < dist[np - 1]
    modifies dist, tag
    ensures pos < np
    ensures pos > 0 ==> old(dist[pos - 1]) <= d
    ensures forall i | pos <= i < np :: d < old(dist[i])
    ensures Shifted(old(dist[..np]), dist[..np], d, pos)
    ensures Shifted(old(tag[..np]), tag[..np], t, pos)
  {
    var p := np - 1;
    while p > 0 && dist[p - 1] > d
      invariant 0 <= p < np
      invariant forall i | 0 <= i <= p :: dist[i] == old(dist[i]) && tag[i] == old(tag[i])
      invariant forall i | p < i < np :: dist[i] == old(dist[i - 1]) && tag[i] == old(tag[i - 1])
      invariant forall i | p <= i < np :: d < old(dist[i])
    {
      dist[p] := dist[p - 1];
      tag[p] := tag[p - 1];
      p := p - 1;
    }
    dist[p] := d;
    tag[p] := t;
    pos := p;
  }

  /** insertProbe: the np nearest cells, in the first np slots of two fixed buffers. */
  method InsertProbe(pd: array<int>, pc: array<int>, np: int, d: int, cell: int, ghost fed: seq<Entry<int>>)
    requires 1 <= np <= pd.Length && pd.Length == pc.Length && pd != pc
    requires d <= MAX_INT32
    requires IntSlots(pd[..np], pc[..np], Best(np, fed))
    modifies pd, pc
    ensures IntSlots(pd[..np], pc[..np], Best(np, fed + Offered(d, cell)))
  {
    ghost var pd0, pc0, best := pd[..np], pc[..np], Best(np, fed);
    if d < MAX_INT32 {
      BestStep(np, fed, Entry(d as real, cell));
    } else {
      assert fed + Offered(d, cell) == fed;
    }
    if d >= pd[np - 1] {
      if d < MAX_INT32 {
        IntRejects(pd0, pc0, best, d, cell);
      }
      return;
    }
    ghost var pos := ShiftInts(pd, pc, np, d, cell);
    IntShift(pd0, pc0, best, d, cell, pos, pd[..np], pc[..np]);
  }

  /** intTopK: the CAND_K rows of smallest integer distance. */
  class IntTopK {
    const dist: array<int>
    const row: array<int>
    var n: int
    ghost var fed: seq<Entry<int>>

    ghost predicate Valid()
      reads this, dist, row
    {
      && dist.Length == row.Length == CAND_K && dist != row
      && n == |Best(CAND_K, fed)|
      && IntSlots(dist[..], row[..], Best(CAND_K, fed))
    }

    constructor ()
      ensures Valid() && fed == []
      ensures fresh(dist) && fresh(row)
    {
      dist := new int[CAND_K];
      row := new int[CAND_K](_ => 0);
      n := 0;
      fed := [];
      new;
      for i := 0 to CAND_K
        invariant forall j | 0 <= j < i :: dist[j] == MAX_INT32
        invariant fed == [] && n == 0 && fresh(dist) && fresh(row)
        modifies dist
      {
        dist[i] := MAX_INT32;
      }
    }

    predicate Full()
      reads this
    {
      n >= CAND_K
    }

    function Worst(): (w: int)
      requires Valid()
      reads this, dist, row
      ensures w as real == WorstOf(fed)
      ensures Full() == (|fed| >= CAND_K)
    {
      dist[CAND_K - 1]
    }

    lemma FullWorst()
      requires Valid()
      ensures Full() == (|fed| >= CAND_K)
      ensures Worst() as real == WorstOf(fed)
    {
    }

    /** consider: strict `<`, so among equal distances the first seen wins. */
    method Consider(d: int, r: int)
      requires Valid() && d <= MAX_INT32
      modifies this, dist, row
      ensures Valid()
      ensures fed == old(fed) + Offered(d, r)
    {
      ghost var dist0, row0, best := dist[..], row[..], Best(CAND_K, fed);
      fed := fed + Offered(d, r);
      if d < MAX_INT32 {
        BestStep(CAND_K, old(fed), Entry(d as real, r));
      } else {
        assert fed == old(fed);
      }
      if d >= dist[CAND_K - 1] {
        if d < MAX_INT32 {
          IntRejects(dist0, row0, best, d, r);
        }
        return;
      }
      ghost var pos := ShiftInts(dist, row, CAND_K, d, r);
      assert dist[..] == dist[..CAND_K] && row[..] == row[..CAND_K];
      IntShift(dist0, row0, best, d, r, pos, dist[..], row[..]);
      if n < CAND_K {
        n := n + 1;
      }
    }
  }

  /** The prune threshold: the worst kept distance, or the sentinel while a slot is free. */
  function WorstOf(fed: seq<Entry<int>>): (w: real)
    ensures w == if |fed| >= CAND_K then Best(CAND_K, fed)[CAND_K - 1].key else MAX_INT32 as real
  {
    if |fed| >= CAND_K then Best(CAND_K, fed)[CAND_K - 1].key else MAX_INT32 as real
  }

  // --- the five nearest ---

  ghost predicate RealSlots(dist: seq<real>, fraud: seq<bool>, best: seq<Entry<bool>>) {
    && |best| <= |dist| == |fraud|
    && Sorted(best)
    && (forall i | 0 <= i < |best| :: dist[i] < MAX_FLOAT && best[i] == Entry(dist[i], fraud[i]))
    && (forall i | |best| <= i < |dist| :: dist[i] == MAX_FLOAT && !fraud[i])
  }

  lemma RealShift(dist: seq<real>, fraud: seq<bool>, best: seq<Entry<bool>>, d: real, f: bool, pos: nat,
                  dist': seq<real>, fraud': seq<bool>)
    requires RealSlots(dist, fraud, best) && pos < |dist| && d < MAX_FLOAT
    requires pos > 0 ==> dist[pos - 1] <= d
    requires forall i | pos <= i < |dist| :: d < dist[i]
    requires Shifted(dist, dist', d, pos) && Shifted(fraud, fraud', f, pos)
    ensures RealSlots(dist', fraud', Take(Insert(best, Entry(d, f)), |dist|))
  {
    var e := Entry(d, f);
    assert pos <= |best|;
    InsertAt(best, e, pos);
    InsertSorted(best, e);
    var b := Take(Insert(best, e), |dist|);
    forall i | 0 <= i < |b|
      ensures dist'[i] < MAX_FLOAT && b[i] == Entry(dist'[i], fraud'[i])
    {
      if i > pos {
        assert b[i] == best[i - 1];
      }
    }
  }

  method ShiftReals(dist: array<real>, fraud: array<bool>, d: real, f: bool) returns (ghost pos: nat)
    requires dist.Length == fraud.Length == K
    requires d < dist[K - 1]
    modifies dist, fraud
    ensures pos < K
    ensures pos > 0 ==> old(dist[pos - 1]) <= d
    ensures forall i | pos <= i < K :: d < old(dist[i])
    ensures Shifted(old(dist[..]), dist[..], d, pos)
    ensures Shifted(old(fraud[..]), fraud[..], f, pos)
  {
    var p := K - 1;
    while p > 0 && dist[p - 1] > d
      invariant 0 <= p < K
      invariant forall i | 0 <= i <= p :: dist[i] == old(dist[i]) && fraud[i] == old(fraud[i])
      invariant forall i | p < i < K :: dist[i] == old(dist[i - 1]) && fraud[i] == old(fraud[i - 1])
      invariant forall i | p <= i < K :: d < old(dist[i])
    {
      dist[p] := dist[p - 1];
      fraud[p] := fraud[p - 1];
      p := p - 1;
    }
    dist[p] := d;
    fraud[p] := f;
    pos := p;
  }

  function FraudCount(s: seq<Entry<bool>>): (n: int)
    ensures 0 <= n <= |s|
  {
    if s == [] then 0 else FraudCount(s[..|s| - 1]) + if s[|s| - 1].tag then 1 else 0
  }

  /** The vote does not depend on the order of the voters. */
  lemma {:induction false} FraudCountRearranged(s: seq<Entry<bool>>, t: seq<Entry<bool>>)
    requires multiset(s) == multiset(t)
    ensures FraudCount(s) == FraudCount(t)
    decreases |s|
  {
    SameSize(s, t);
    if s != [] {
      var j := PickFirst(s, t);
      FraudCountRearranged(s[1..], t[..j] + t[j + 1..]);
      FraudCountRemove(s, 0);
      FraudCountRemove(t, j);
      assert s[..0] + s[1..] == s[1..];
    }
  }

  lemma {:induction false} FraudCountRemove(s: seq<Entry<bool>>, j: nat)
    requires j < |s|
    ensures FraudCount(s) == FraudCount(s[..j] + s[j + 1..]) + if s[j].tag then 1 else 0
    decreases |s|
  {
    var init := s[..|s| - 1];
    if j == |s| - 1 {
      assert s[..j] + s[j + 1..] == init;
    } else {
      FraudCountRemove(init, j);
      var r := s[..j] + s[j + 1..];
      assert r[..|r| - 1] == init[..j] + init[j + 1..];
    }
  }

  /** What considering an exact distance feeds: nothing that an empty slot's MaxFloat64 already beats. */
  function OfferedReal(d: real, f: bool): seq<Entry<bool>> {
    if d < MAX_FLOAT then [Entry(d, f)] else []
  }

  /** The part of a feed that the five nearest are chosen from. */
  function Visible(feed: seq<Entry<bool>>): seq<Entry<bool>> {
    if feed == [] then []
    else Visible(feed[..|feed| - 1]) + OfferedReal(feed[|feed| - 1].key, feed[|feed| - 1].tag)
  }

  lemma VisibleNone(feed: seq<Entry<bool>>)
    ensures Visible(feed[..0]) == []
  {
  }

  lemma VisibleStep(feed: seq<Entry<bool>>, i: nat)
    requires i < |feed|
    ensures Visible(feed[..i + 1]) == Visible(feed[..i]) + OfferedReal(feed[i].key, feed[i].tag)
  {
    assert feed[..i + 1][..i] == feed[..i];
  }

  lemma {:induction false} AllVisible(feed: seq<Entry<bool>>)
    requires forall i | 0 <= i < |feed| :: feed[i].key < MAX_FLOAT
    ensures Visible(feed) == feed
  {
    if feed != [] {
      var k := |feed| - 1;
      AllVisible(feed[..k]);
      VisibleLast(feed);
      assert Entry(feed[k].key, feed[k].tag) == feed[k];
      hide Visible;
      assert feed == feed[..k] + [feed[k]];
    }
  }

  lemma VisibleLast(feed: seq<Entry<bool>>)
    requires feed != []
    ensures Visible(feed) == Visible(feed[..|feed| - 1]) + OfferedReal(feed[|feed| - 1].key, feed[|feed| - 1].tag)
  {
  }

  lemma {:induction false} VisibleConcat(f: seq<Entry<bool>>, g: seq<Entry<bool>>)
    ensures Visible(f + g) == Visible(f) + Visible(g)
  {
    if g == [] {
      assert f + g == f;
    } else {
      var front := g[..|g| - 1];
      VisibleConcat(f, front);
      VisibleLast(g);
      VisibleLast(f + g);
      hide Visible, OfferedReal;
      assert (f + g)[..|f + g| - 1] == f + front;
    }
  }

  lemma {:induction false} VisibleKeys(feed: seq<Entry<bool>>)
    ensures forall x | x in Visible(feed) :: x in feed && x.key < MAX_FLOAT
  {
    if feed != [] {
      VisibleKeys(feed[..|feed| - 1]);
    }
  }

  lemma {:induction false} VisibleCount(feed: seq<Entry<bool>>, e: Entry<bool>)
    ensures multiset(Visible(feed))[e] == if e.key < MAX_FLOAT then multiset(feed)[e] else 0
  {
    if feed != [] {
      VisibleCount(feed[..|feed| - 1], e);
      assert feed == feed[..|feed| - 1] + [feed[|feed| - 1]];
    }
  }

  lemma VisibleRearranged(f: seq<Entry<bool>>, g: seq<Entry<bool>>)
    requires multiset(f) == multiset(g)
    ensures multiset(Visible(f)) == multiset(Visible(g))
  {
    forall e: Entry<bool>
      ensures multiset(Visible(f))[e] == multiset(Visible(g))[e]
    {
      VisibleCount(f, e);
      VisibleCount(g, e);
    }
  }

  /** topK: the five smallest exact distances with their labels. */
  class TopK {
    const dist: array<real>
    const fraud: array<bool>
    ghost var fed: seq<Entry<bool>>

    ghost predicate Valid()
      reads this, dist, fraud
    {
      && dist.Length == fraud.Length == K
      && RealSlots(dist[..], fraud[..], Best(K, fed))
    }

    constructor ()
      ensures Valid() && fed == []
      ensures fresh(dist) && fresh(fraud)
    {
      dist := new real[K];
      fraud := new bool[K](_ => false);
      fed := [];
      new;
      for i := 0 to K
        invariant forall j | 0 <= j < i :: dist[j] == MAX_FLOAT
        invariant forall j | 0 <= j < K :: !fraud[j]
        invariant fed == [] && fresh(dist) && fresh(fraud)
        modifies dist
      {
        dist[i] := MAX_FLOAT;
      }
    }

    function Worst(): (w: real)
      requires Valid()
      reads this, dist, fraud
      ensures w == if |fed| >= K then Best(K, fed)[K - 1].key else MAX_FLOAT
    {
      dist[K - 1]
    }

    /** consider: strict `<`, so among equal distances the first seen wins. */
    method Consider(d: real, f: bool)
      requires Valid()
      modifies this, dist, fraud
      ensures Valid()
      ensures fed == old(fed) + OfferedReal(d, f)
    {
      ghost var dist0, fraud0, best := dist[..], fraud[..], Best(K, fed);
      if d < MAX_FLOAT {
        BestStep(K, fed, Entry(d, f));
      } else {
        assert fed + [] == fed;
      }
      fed := fed + OfferedReal(d, f);
      if d >= dist[K - 1] {
        return;
      }
      ghost var pos := ShiftReals(dist, fraud, d, f);
      RealShift(dist0, fraud0, best, d, f, pos, dist[..], fraud[..]);
    }

    /** fraudCount: free slots do not vote. */
    method Vote() returns (n: int)
      requires Valid()
      ensures n == FraudCount(Best(K, fed))
    {
      ghost var best := Best(K, fed);
      n := 0;
      for i := 0 to K
        invariant n == FraudCount(Take(best, i))
      {
        if i < |best| {
          assert Take(best, i + 1)[..i] == Take(best, i);
        }
        if fraud[i] {
          n := n + 1;
        }
      }
    }
  }
}
