/** Keeping the k smallest of a stream: what the three insertion buffers of the search compute.
  * `Best(k, feed)` is the first k entries of the stable sort of everything fed so far.
  */
module Ranking {
  datatype Entry<+T> = Entry(key: real, tag: T)

  /** Where the shift loop puts a new entry: behind every entry that is not strictly greater. */
  function Insert<T>(s: seq<Entry<T>>, e: Entry<T>): (r: seq<Entry<T>>)
    ensures |r| == |s| + 1
  {
    if s == [] || s[|s| - 1].key <= e.key then s + [e]
    else Insert(s[..|s| - 1], e) + [s[|s| - 1]]
  }

  function Sort<T>(feed: seq<Entry<T>>): (s: seq<Entry<T>>)
    ensures |s| == |feed|
  {
    if feed == [] then [] else Insert(Sort(feed[..|feed| - 1]), feed[|feed| - 1])
  }

  function Take<X>(s: seq<X>, k: nat): (r: seq<X>)
    ensures |r| == if |s| <= k then |s| else k
    ensures r <= s
  {
    if |s| <= k then s else s[..k]
  }

  function Best<T>(k: nat, feed: seq<Entry<T>>): (b: seq<Entry<T>>)
    ensures |b| == if |feed| <= k then |feed| else k
  {
    Take(Sort(feed), k)
  }

  predicate Sorted<T>(s: seq<Entry<T>>) {
    forall i, j | 0 <= i < j < |s| :: s[i].key <= s[j].key
  }

  // --- insertion ---

  lemma {:induction false} InsertAt<T>(s: seq<Entry<T>>, e: Entry<T>, p: nat)
    requires p <= |s|
    requires forall i | 0 <= i < p :: s[i].key <= e.key
    requires forall i | p <= i < |s| :: s[i].key > e.key
    ensures Insert(s, e) == s[..p] + [e] + s[p..]
  {
    if p < |s| {
      var t := s[..|s| - 1];
      InsertAt(t, e, p);
      assert t[..p] == s[..p] && t[p..] + [s[|s| - 1]] == s[p..];
    }
  }

  lemma {:induction false} InsertPosition<T>(s: seq<Entry<T>>, e: Entry<T>) returns (p: nat)
    requires Sorted(s)
    ensures p <= |s|
    ensures forall i | 0 <= i < p :: s[i].key <= e.key
    ensures forall i | p <= i < |s| :: s[i].key > e.key
    ensures Insert(s, e) == s[..p] + [e] + s[p..]
  {
    p := |s|;
    while p > 0 && s[p - 1].key > e.key
      invariant p <= |s|
      invariant forall i | p <= i < |s| :: s[i].key > e.key
    {
      p := p - 1;
    }
    InsertAt(s, e, p);
  }

  lemma InsertSorted<T>(s: seq<Entry<T>>, e: Entry<T>)
    requires Sorted(s)
    ensures Sorted(Insert(s, e))
  {
    var p := InsertPosition(s, e);
  }

  lemma {:induction false} InsertAdds<T>(s: seq<Entry<T>>, e: Entry<T>)
    ensures multiset(Insert(s, e)) == multiset(s) + multiset{e}
  {
    if s != [] && s[|s| - 1].key > e.key {
      var init := s[..|s| - 1];
      InsertAdds(init, e);
      assert s == init + [s[|s| - 1]];
    }
  }

  lemma {:induction false} SortKeeps<T>(feed: seq<Entry<T>>)
    ensures Sorted(Sort(feed))
    ensures multiset(Sort(feed)) == multiset(feed)
  {
    if feed != [] {
      var init := feed[..|feed| - 1];
      SortKeeps(init);
      InsertSorted(Sort(init), feed[|feed| - 1]);
      InsertAdds(Sort(init), feed[|feed| - 1]);
      assert feed == init + [feed[|feed| - 1]];
    }
  }

  lemma SortHolds<T>(feed: seq<Entry<T>>, e: Entry<T>)
    ensures e in Sort(feed) <==> e in feed
  {
    SortKeeps(feed);
    assert e in multiset(feed) <==> e in multiset(Sort(feed));
  }

  lemma BestSorted<T>(k: nat, feed: seq<Entry<T>>)
    ensures Sorted(Best(k, feed))
    ensures multiset(Best(k, feed)) <= multiset(feed)
  {
    SortKeeps(feed);
    var s := Sort(feed);
    var b := Best(k, feed);
    assert s == b + s[|b|..];
  }

  /** A short feed is kept whole. */
  lemma WholeKept<T>(k: nat, feed: seq<Entry<T>>)
    requires |feed| <= k
    ensures Best(k, feed) == Sort(feed) && multiset(Best(k, feed)) == multiset(feed)
  {
    SortKeeps(feed);
  }

  // --- the buffer's own step ---

  lemma TakeInsert<T>(k: nat, s: seq<Entry<T>>, e: Entry<T>)
    requires Sorted(s)
    ensures Take(Insert(s, e), k) == Take(Insert(Take(s, k), e), k)
  {
    var p := InsertPosition(s, e);
    var t := Take(s, k);
    if p <= |t| {
      InsertAt(t, e, p);
    } else {
      InsertAt(t, e, |t|);
    }
  }

  /** One more entry: insert it into the kept ones and drop the overflow. */
  lemma BestStep<T>(k: nat, feed: seq<Entry<T>>, e: Entry<T>)
    ensures Best(k, feed + [e]) == Take(Insert(Best(k, feed), e), k)
  {
    assert (feed + [e])[..|feed|] == feed;
    SortKeeps(feed);
    TakeInsert(k, Sort(feed), e);
  }

  /** The kept entries are all the buffer needs to know about the past. */
  lemma {:induction false} BestForgets<T>(k: nat, f: seq<Entry<T>>, g: seq<Entry<T>>, more: seq<Entry<T>>)
    requires Best(k, f) == Best(k, g)
    ensures Best(k, f + more) == Best(k, g + more)
  {
    if more == [] {
      assert f + more == f && g + more == g;
    } else {
      var init, last := more[..|more| - 1], more[|more| - 1];
      BestForgets(k, f, g, init);
      BestStep(k, f + init, last);
      BestStep(k, g + init, last);
      assert f + more == (f + init) + [last] && g + more == (g + init) + [last];
    }
  }

  /** Entries no smaller than the worst kept one leave a full buffer unchanged. */
  lemma {:induction false} BestIgnores<T>(k: nat, f: seq<Entry<T>>, more: seq<Entry<T>>)
    requires 0 < k <= |f|
    requires forall e | e in more :: e.key >= Best(k, f)[k - 1].key
    ensures Best(k, f + more) == Best(k, f)
  {
    if more == [] {
      assert f + more == f;
    } else {
      var init, last := more[..|more| - 1], more[|more| - 1];
      BestIgnores(k, f, init);
      BestStep(k, f + init, last);
      assert last in more;
      assert f + more == (f + init) + [last];
    }
  }

  /** Feeding more never raises a slot. */
  lemma {:induction false} BestNeverRises<T>(k: nat, f: seq<Entry<T>>, more: seq<Entry<T>>)
    ensures |Best(k, f)| <= |Best(k, f + more)|
    ensures forall i | 0 <= i < |Best(k, f)| :: Best(k, f + more)[i].key <= Best(k, f)[i].key
  {
    if more == [] {
      assert f + more == f;
    } else {
      var init, last := more[..|more| - 1], more[|more| - 1];
      BestNeverRises(k, f, init);
      BestStep(k, f + init, last);
      assert f + more == (f + init) + [last];
      BestSorted(k, f + init);
      InsertLowers(k, Best(k, f + init), last);
    }
  }

  lemma InsertLowers<T>(k: nat, b: seq<Entry<T>>, e: Entry<T>)
    requires Sorted(b) && |b| <= k
    ensures forall i | 0 <= i < |b| :: Take(Insert(b, e), k)[i].key <= b[i].key
  {
    var p := InsertPosition(b, e);
    forall i | 0 <= i < |b|
      ensures Take(Insert(b, e), k)[i].key <= b[i].key
    {
      if i > p {
        assert Insert(b, e)[i] == b[i - 1];
      }
    }
  }

  /** Selecting fewer is a prefix of selecting more, so the cells of the cheap tier are exactly the
    * first ranks of the wide tier. */
  lemma BestPrefix<T>(j: nat, k: nat, feed: seq<Entry<T>>)
    requires j <= k
    ensures Best(j, feed) == Take(Best(k, feed), j)
  {
  }

  // --- the stable sort, characterised without insertion ---

  function WithKey<T>(s: seq<Entry<T>>, v: real): seq<Entry<T>> {
    if s == [] then []
    else WithKey(s[..|s| - 1], v) + if s[|s| - 1].key == v then [s[|s| - 1]] else []
  }

  ghost predicate IsStableSort<T(!new)>(feed: seq<Entry<T>>, s: seq<Entry<T>>) {
    && Sorted(s)
    && forall v: real :: WithKey(s, v) == WithKey(feed, v)
  }

  lemma {:induction false} WithKeyInsert<T>(s: seq<Entry<T>>, e: Entry<T>, v: real)
    ensures WithKey(Insert(s, e), v) == WithKey(s, v) + if e.key == v then [e] else []
  {
    var r := Insert(s, e);
    if s == [] || s[|s| - 1].key <= e.key {
      assert r[..|r| - 1] == s;
    } else {
      var init := s[..|s| - 1];
      WithKeyInsert(init, e, v);
      assert r[..|r| - 1] == Insert(init, e);
    }
  }

  lemma {:induction false} SortStable<T>(feed: seq<Entry<T>>, v: real)
    ensures WithKey(Sort(feed), v) == WithKey(feed, v)
  {
    if feed != [] {
      var init := feed[..|feed| - 1];
      SortStable(init, v);
      WithKeyInsert(Sort(init), feed[|feed| - 1], v);
    }
  }

  /** Sort computes the stable sort ... */
  lemma SortIsStableSort<T(!new)>(feed: seq<Entry<T>>)
    ensures IsStableSort(feed, Sort(feed))
  {
    SortKeeps(feed);
    forall v: real
      ensures WithKey(Sort(feed), v) == WithKey(feed, v)
    {
      SortStable(feed, v);
    }
  }

  lemma {:induction false} WithKeyOnly<T>(s: seq<Entry<T>>, v: real)
    ensures forall e | e in WithKey(s, v) :: e in s && e.key == v
  {
    if s != [] {
      WithKeyOnly(s[..|s| - 1], v);
    }
  }

  lemma WithKeyInit<T>(s: seq<Entry<T>>, v: real)
    requires s != []
    ensures var a := WithKey(s, v);
            if s[|s| - 1].key == v then a != [] && WithKey(s[..|s| - 1], v) == a[..|a| - 1]
            else WithKey(s[..|s| - 1], v) == a
  {
  }

  ghost predicate SameByKey<T(!new)>(s: seq<Entry<T>>, t: seq<Entry<T>>) {
    forall v: real :: WithKey(s, v) == WithKey(t, v)
  }

  lemma LastAmong<T(!new)>(s: seq<Entry<T>>, t: seq<Entry<T>>)
    requires s != [] && Sorted(t) && SameByKey(s, t)
    ensures t != [] && s[|s| - 1].key <= t[|t| - 1].key
    ensures var a := WithKey(s, s[|s| - 1].key); a != [] && a[|a| - 1] == s[|s| - 1]
  {
    var v := s[|s| - 1].key;
    assert WithKey(s, v) == WithKey(t, v);
    assert s[|s| - 1] in WithKey(t, v);
    WithKeyOnly(t, v);
  }

  lemma InitSameByKey<T(!new)>(s: seq<Entry<T>>, t: seq<Entry<T>>)
    requires s != [] && t != [] && SameByKey(s, t) && s[|s| - 1].key == t[|t| - 1].key
    ensures SameByKey(s[..|s| - 1], t[..|t| - 1])
  {
    var s', t' := s[..|s| - 1], t[..|t| - 1];
    forall v: real
      ensures WithKey(s', v) == WithKey(t', v)
    {
      assert WithKey(s, v) == WithKey(t, v);
      WithKeyInit(s, v);
      WithKeyInit(t, v);
    }
  }

  lemma {:induction false} SortedByKeyUnique<T(!new)>(s: seq<Entry<T>>, t: seq<Entry<T>>)
    requires Sorted(s) && Sorted(t) && SameByKey(s, t)
    ensures s == t
    decreases |s|
  {
    if s == [] && t == [] {
    } else if s == [] {
      LastAmong(t, s);
    } else {
      LastAmong(s, t);
      LastAmong(t, s);
      InitSameByKey(s, t);
      SortedByKeyUnique(s[..|s| - 1], t[..|t| - 1]);
      assert WithKey(s, s[|s| - 1].key) == WithKey(t, s[|s| - 1].key);
      DropLast(s);
      DropLast(t);
    }
  }

  /** ... and there is only one. */
  lemma StableSortUnique<T(!new)>(feed: seq<Entry<T>>, s: seq<Entry<T>>)
    requires IsStableSort(feed, s)
    ensures s == Sort(feed)
  {
    SortIsStableSort(feed);
    assert SameByKey(s, Sort(feed));
    SortedByKeyUnique(s, Sort(feed));
  }

  // --- order of feeding ---

  function Map<A, B>(h: A -> B, s: seq<A>): (r: seq<B>)
    ensures |r| == |s| && forall i | 0 <= i < |s| :: r[i] == h(s[i])
  {
    seq(|s|, i requires 0 <= i < |s| => h(s[i]))
  }

  function Keys<T>(s: seq<Entry<T>>): (r: seq<real>)
    ensures |r| == |s| && forall i | 0 <= i < |s| :: r[i] == s[i].key
  {
    Map((e: Entry<T>) => e.key, s)
  }

  lemma RemoveAt<A>(t: seq<A>, j: nat)
    requires j < |t|
    ensures multiset(t[..j] + t[j + 1..]) == multiset(t) - multiset{t[j]}
    ensures multiset(t) == multiset(t[..j] + t[j + 1..]) + multiset{t[j]}
  {
    assert t == t[..j] + [t[j]] + t[j + 1..];
  }

  lemma MapRemoveAt<A, B>(h: A -> B, t: seq<A>, j: nat)
    requires j < |t|
    ensures multiset(Map(h, t)) == multiset(Map(h, t[..j] + t[j + 1..])) + multiset{h(t[j])}
  {
    var b := Map(h, t);
    RemoveAt(b, j);
    assert Map(h, t[..j] + t[j + 1..]) == b[..j] + b[j + 1..];
  }

  lemma PickFirst<A>(s: seq<A>, t: seq<A>) returns (j: nat)
    requires s != [] && multiset(s) == multiset(t)
    ensures j < |t| && t[j] == s[0]
    ensures multiset(s[1..]) == multiset(t[..j] + t[j + 1..])
  {
    var x := s[0];
    assert s == [x] + s[1..];
    assert x in multiset(t);
    j :| 0 <= j < |t| && t[j] == x;
    RemoveAt(t, j);
    assert multiset(s[1..]) == multiset(s) - multiset{x};
  }

  /** Mapping a rearranged sequence rearranges the image. */
  lemma {:induction false} MapRearranged<A, B>(h: A -> B, s: seq<A>, t: seq<A>)
    requires multiset(s) == multiset(t)
    ensures multiset(Map(h, s)) == multiset(Map(h, t))
    decreases |s|
  {
    if s == [] {
      SameSize(s, t);
      assert Map(h, s) == Map(h, t);
    } else {
      var j := PickFirst(s, t);
      MapRearranged(h, s[1..], t[..j] + t[j + 1..]);
      MapRemoveAt(h, t, j);
      assert Map(h, s) == [h(s[0])] + Map(h, s[1..]);
    }
  }

  lemma SameSize<A>(s: seq<A>, t: seq<A>)
    requires multiset(s) == multiset(t)
    ensures |s| == |t|
  {
    assert |multiset(s)| == |s| && |multiset(t)| == |t|;
  }

  lemma {:induction false} SortedKeysUnique(a: seq<real>, b: seq<real>)
    requires forall i, j | 0 <= i < j < |a| :: a[i] <= a[j]
    requires forall i, j | 0 <= i < j < |b| :: b[i] <= b[j]
    requires multiset(a) == multiset(b)
    ensures a == b
    decreases |a|
  {
    SameSize(a, b);
    if a != [] {
      var n := |a| - 1;
      LastIsMax(a, b);
      LastIsMax(b, a);
      DropLast(a);
      DropLast(b);
      SortedKeysUnique(a[..n], b[..n]);
    }
  }

  lemma DropLast<A>(s: seq<A>)
    requires s != []
    ensures multiset(s[..|s| - 1]) == multiset(s) - multiset{s[|s| - 1]}
    ensures s == s[..|s| - 1] + [s[|s| - 1]]
  {
    assert s == s[..|s| - 1] + [s[|s| - 1]];
  }

  lemma LastIsMax(a: seq<real>, b: seq<real>)
    requires a != [] && |a| == |b|
    requires forall i, j | 0 <= i < j < |b| :: b[i] <= b[j]
    requires multiset(a) == multiset(b)
    ensures a[|a| - 1] <= b[|b| - 1]
  {
    assert a[|a| - 1] in multiset(b);
  }

  /** The kept distances do not depend on the order of feeding. */
  lemma BestKeysRearranged<T>(k: nat, f: seq<Entry<T>>, g: seq<Entry<T>>)
    requires multiset(f) == multiset(g)
    ensures Keys(Best(k, f)) == Keys(Best(k, g))
  {
    SortKeeps(f);
    SortKeeps(g);
    MapRearranged((e: Entry<T>) => e.key, Sort(f), Sort(g));
    SortedKeysUnique(Keys(Sort(f)), Keys(Sort(g)));
    assert Keys(Best(k, f)) == Take(Keys(Sort(f)), k);
    assert Keys(Best(k, g)) == Take(Keys(Sort(g)), k);
  }

  /** An entry strictly below the worst kept one is kept, as often as it was fed. */
  lemma BestKeepsBelow<T>(k: nat, f: seq<Entry<T>>, x: Entry<T>)
    requires 0 < k <= |f| && x.key < Best(k, f)[k - 1].key
    ensures multiset(Best(k, f))[x] == multiset(f)[x]
  {
    SortKeeps(f);
    var s := Sort(f);
    SplitCount(s, k, x);
    assert x !in s[k..];
  }

  lemma SplitCount<A>(s: seq<A>, k: nat, x: A)
    requires k <= |s|
    ensures multiset(s)[x] == multiset(s[..k])[x] + multiset(s[k..])[x]
  {
    assert s == s[..k] + s[k..];
  }

  lemma CountAtGap<T>(k: nat, f: seq<Entry<T>>, x: Entry<T>)
    requires 0 < k < |f| && Sort(f)[k - 1].key < Sort(f)[k].key
    ensures multiset(Best(k, f))[x] == if x.key < Sort(f)[k].key then multiset(f)[x] else 0
  {
    SortKeeps(f);
    var s := Sort(f);
    SplitCount(s, k, x);
    if x.key < s[k].key {
      NotInTail(s, k, x);
    } else {
      NotInHead(s, k, x);
    }
  }

  lemma NotInTail<T>(s: seq<Entry<T>>, k: nat, x: Entry<T>)
    requires Sorted(s) && k < |s| && x.key < s[k].key
    ensures x !in s[k..]
  {
  }

  lemma NotInHead<T>(s: seq<Entry<T>>, k: nat, x: Entry<T>)
    requires Sorted(s) && 0 < k <= |s| && s[k - 1].key < x.key
    ensures x !in s[..k]
  {
  }

  /** When distance k strictly exceeds distance k - 1, the kept entries, not just their distances,
    * are independent of the order of feeding. */
  lemma BestRearrangedAtGap<T(!new)>(k: nat, f: seq<Entry<T>>, g: seq<Entry<T>>)
    requires multiset(f) == multiset(g) && 0 < k < |f|
    requires Sort(f)[k - 1].key < Sort(f)[k].key
    ensures multiset(Best(k, f)) == multiset(Best(k, g))
  {
    BestKeysRearranged(k + 1, f, g);
    SameSize(f, g);
    assert Keys(Best(k + 1, f))[k] == Sort(f)[k].key && Keys(Best(k + 1, g))[k] == Sort(g)[k].key;
    assert Keys(Best(k + 1, f))[k - 1] == Sort(f)[k - 1].key && Keys(Best(k + 1, g))[k - 1] == Sort(g)[k - 1].key;
    forall x: Entry<T>
      ensures multiset(Best(k, f))[x] == multiset(Best(k, g))[x]
    {
      CountAtGap(k, f, x);
      CountAtGap(k, g, x);
    }
  }
}
