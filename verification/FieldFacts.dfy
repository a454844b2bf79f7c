/** Scanning inverts printing: on a printed payload the scanner finds exactly the value that was
  * printed under the name, although it only searches for the quoted name and counts braces.
  */
module FieldFacts {
  import opened FieldScan
  import opened Json
  import opened Wrappers

  // --- text in which a name does not occur ---

  /** No occurrence of `pat` starts inside `t` when `rest` follows. */
  predicate Quiet(t: string, rest: string, pat: string) {
    forall i | 0 <= i < |t| :: !Occurs(t + rest, pat, i)
  }

  lemma OccursShift(a: string, b: string, pat: string, i: int)
    requires |a| <= i
    ensures Occurs(a + b, pat, i) == Occurs(b, pat, i - |a|)
  {
    if i + |pat| <= |a + b| {
      assert (a + b)[i..i + |pat|] == b[i - |a|..i - |a| + |pat|];
    }
  }

  lemma QuietFlat(t: string, rest: string, key: string)
    requires forall i | 0 <= i < |t| :: t[i] != '"'
    ensures Quiet(t, rest, Quoted(key))
  {
    forall i | 0 <= i < |t|
      ensures !Occurs(t + rest, Quoted(key), i)
    {
      NotAQuote(t + rest, key, i);
    }
  }

  lemma NotAQuote(b: string, key: string, i: int)
    requires 0 <= i < |b| && b[i] != '"'
    ensures !Occurs(b, Quoted(key), i)
  {
    var pat := Quoted(key);
    assert pat[0] == '"';
    if i + |pat| <= |b| {
      assert b[i..i + |pat|][0] == b[i];
    }
  }

  /** What an occurrence means, character by character. */
  lemma OccurrenceParts(b: string, key: string, i: int)
    requires Occurs(b, Quoted(key), i)
    ensures i + |key| + 2 <= |b| && b[i] == '"' && b[i + |key| + 1] == '"'
    ensures forall k | 0 <= k < |key| :: b[i + 1 + k] == key[k]
  {
    var pat := Quoted(key);
    assert |pat| == |key| + 2 && pat[0] == '"' && pat[|key| + 1] == '"';
    forall k | 0 <= k < |key| + 2
      ensures b[i + k] == pat[k]
    {
      assert b[i..i + |pat|][k] == b[i + k];
    }
    forall k | 0 <= k < |key|
      ensures b[i + 1 + k] == key[k]
    {
      assert pat[1 + k] == key[k];
    }
  }

  /** The text goes on, after blanks, with a delimiter: no name can start here. */
  predicate Stopped(s: string) {
    s != "" && (IsStop(s[0]) || (IsSpace(s[0]) && Stopped(s[1..])))
  }

  predicate IsStop(c: char) {
    c == ',' || c == ':' || c == '}' || c == ']'
  }

  lemma {:induction false} StoppedBlank(blank: string, s: string)
    requires Blank(blank) && Stopped(s)
    ensures Stopped(blank + s)
  {
    if blank != "" {
      StoppedBlank(blank[1..], s);
      assert (blank + s)[1..] == blank[1..] + s;
    } else {
      assert blank + s == s;
    }
  }

  /** `s` does not continue with `key` and a quote. */
  predicate Follows(s: string, key: string) {
    |key| < |s| && s[|key|] == '"' && s[..|key|] == key
  }

  lemma {:induction false} StoppedNoName(s: string, key: string)
    requires Stopped(s) && IsName(key)
    ensures !Follows(s, key)
  {
    if Follows(s, key) && key != "" {
      assert s[0] == key[0];
      assert s[1..][..|key| - 1] == key[1..];
      StoppedNoName(s[1..], key[1..]);
    }
  }

  lemma QuietString(s: string, rest: string, key: string)
    requires Plain(s) && IsName(key) && s != key && Stopped(rest)
    ensures Quiet(Quoted(s), rest, Quoted(key))
  {
    var b := Quoted(s) + rest;
    forall i | 0 <= i < |s| + 2
      ensures !Occurs(b, Quoted(key), i)
    {
      if i == 0 {
        DifferentString(s, rest, key);
      } else if i <= |s| {
        assert b[i] == s[i - 1];
        NotAQuote(b, key, i);
      } else {
        ClosingQuote(s, rest, key);
      }
    }
  }

  lemma DifferentString(s: string, rest: string, key: string)
    requires Plain(s) && IsName(key) && s != key
    ensures !Occurs(Quoted(s) + rest, Quoted(key), 0)
  {
    var b := Quoted(s) + rest;
    assert b[|s| + 1] == '"' && forall k | 0 <= k < |s| :: b[1 + k] == s[k];
    if Occurs(b, Quoted(key), 0) {
      OccurrenceParts(b, key, 0);
    }
  }

  lemma ClosingQuote(s: string, rest: string, key: string)
    requires IsName(key) && Stopped(rest)
    ensures !Occurs(Quoted(s) + rest, Quoted(key), |s| + 1)
  {
    var b := Quoted(s) + rest;
    StoppedNoName(rest, key);
    if Occurs(b, Quoted(key), |s| + 1) {
      OccurrenceParts(b, key, |s| + 1);
    }
  }

  // --- what follows a value ---

  lemma StoppedStop(c: char, rest: string)
    requires IsStop(c)
    ensures Stopped([c] + rest)
  {
  }

  lemma StoppedAfterItem(after: string, rest: Items, cont: string)
    requires Blank(after) && CleanItems(rest) && Stopped(cont)
    ensures Stopped(after + (Comma(rest.Item?) + PrintItems(rest)) + cont)
  {
    var tail := Comma(rest.Item?) + PrintItems(rest) + cont;
    if rest.NoItems? {
      StoppedBlank(rest.space, cont);
      assert tail == rest.space + cont;
    }
    StoppedBlank(after, tail);
    assert after + (Comma(rest.Item?) + PrintItems(rest)) + cont == after + tail;
  }

  lemma StoppedAfterField(after: string, rest: Fields, cont: string)
    requires Blank(after) && CleanFields(rest) && Stopped(cont)
    ensures Stopped(after + (Comma(rest.Field?) + PrintFields(rest)) + cont)
  {
    var tail := Comma(rest.Field?) + PrintFields(rest) + cont;
    if rest.NoFields? {
      StoppedBlank(rest.space, cont);
      assert tail == rest.space + cont;
    }
    StoppedBlank(after, tail);
    assert after + (Comma(rest.Field?) + PrintFields(rest)) + cont == after + tail;
  }

  // --- balanced text ---

  lemma {:induction false} NetConcat(a: string, b: string, open: char, close: char)
    ensures Net(a + b, open, close) == Net(a, open, close) + Net(b, open, close)
  {
    if b == "" {
      assert a + b == a;
    } else {
      var front := b[..|b| - 1];
      NetConcat(a, front, open, close);
      assert (a + b)[..|a + b| - 1] == a + front;
    }
  }

  /** Every opening is closed, and nothing is closed that was not opened. */
  predicate Neutral(t: string, open: char, close: char) {
    Net(t, open, close) == 0 && forall m | 0 <= m <= |t| :: Net(t[..m], open, close) >= 0
  }

  lemma NeutralConcat(a: string, b: string, open: char, close: char)
    requires Neutral(a, open, close) && Neutral(b, open, close)
    ensures Neutral(a + b, open, close)
  {
    hide Net;
    NetConcat(a, b, open, close);
    forall m | 0 <= m <= |a + b|
      ensures Net((a + b)[..m], open, close) >= 0
    {
      if m <= |a| {
        assert (a + b)[..m] == a[..m];
      } else {
        assert (a + b)[..m] == a + b[..m - |a|];
        NetConcat(a, b[..m - |a|], open, close);
      }
    }
  }

  lemma {:induction false} NeutralFlat(t: string, open: char, close: char)
    requires open != close && forall i | 0 <= i < |t| :: t[i] != open && t[i] != close
    ensures Neutral(t, open, close)
  {
    if t != "" {
      var front := t[..|t| - 1];
      NeutralFlat(front, open, close);
      forall m | 0 <= m <= |t|
        ensures Net(t[..m], open, close) >= 0
      {
        if m < |t| {
          assert t[..m] == front[..m];
        } else {
          assert t[..m] == t;
        }
      }
    }
  }

  lemma NetOne(c: char, open: char, close: char)
    ensures Net([c], open, close) == Weight(c, open, close)
  {
    assert [c][..0] == "";
  }

  /** Inside the outer pair the depth stays positive. */
  lemma DepthInside(body: string, open: char, close: char, m: nat)
    requires open != close && Neutral(body, open, close) && 1 <= m <= |body| + 1
    ensures Net(([open] + body)[..m], open, close) >= 1
  {
    hide Net;
    NetOne(open, open, close);
    assert ([open] + body)[..m] == [open] + body[..m - 1];
    NetConcat([open], body[..m - 1], open, close);
  }

  lemma NeutralPair(body: string, open: char, close: char)
    requires open != close && Neutral(body, open, close)
    ensures Neutral([open] + (body + [close]), open, close)
  {
    hide Net;
    var t := [open] + (body + [close]);
    NetOne(open, open, close);
    NetOne(close, open, close);
    NetConcat(body, [close], open, close);
    NetConcat([open], body + [close], open, close);
    forall m | 0 <= m <= |t|
      ensures Net(t[..m], open, close) >= 0
    {
      if m == 0 {
        assert t[..0] == "";
        NetNothing(open, close);
      } else if m <= |body| + 1 {
        DepthInside(body, open, close, m);
        assert t[..m] == ([open] + body)[..m];
      } else {
        assert t[..m] == t;
      }
    }
  }

  lemma NetNothing(open: char, close: char)
    ensures Net("", open, close) == 0
  {
  }

  /** The brace that balances the first one is the one that was printed with it. */
  lemma ClosesPair(body: string, rest: string, open: char, close: char)
    requires open != close && Neutral(body, open, close)
    ensures CloseFrom([open] + (body + [close]) + rest, open, close, 0) == |body| + 2
  {
    hide Net;
    var s := [open] + (body + [close]) + rest;
    var n := |body| + 2;
    assert s[..n] == [open] + (body + [close]);
    NeutralPair(body, open, close);
    assert Closes(s, open, close, n);
    forall m | 1 <= m < n
      ensures !Closes(s, open, close, m)
    {
      DepthInside(body, open, close, m);
      assert s[..m] == ([open] + body)[..m];
    }
  }

  predicate Pair(open: char, close: char) {
    (open == '{' && close == '}') || (open == '[' && close == ']')
  }

  lemma {:induction false} NeutralJson(v: Json, open: char, close: char)
    requires Clean(v) && Pair(open, close)
    ensures Neutral(Print(v), open, close)
    decreases v
  {
    hide Neutral, Net;
    match v
    case Str(text) => NeutralFlat(Quoted(text), open, close);
    case Atom(text) =>
      AtomIsWord(text);
      NeutralFlat(text, open, close);
    case Arr(items) =>
      NeutralItems(items, open, close);
      NeutralWrap('[', PrintItems(items), ']', open, close);
    case Obj(fields) =>
      NeutralFields(fields, open, close);
      NeutralWrap('{', PrintFields(fields), '}', open, close);
  }

  lemma NeutralWrap(o: char, body: string, c: char, open: char, close: char)
    requires Pair(open, close) && Pair(o, c) && Neutral(body, open, close)
    ensures Neutral([o] + (body + [c]), open, close)
  {
    hide Neutral, Net;
    if o == open {
      NeutralPair(body, open, close);
    } else {
      NeutralFlat([o], open, close);
      NeutralFlat([c], open, close);
      NeutralConcat(body, [c], open, close);
      NeutralConcat([o], body + [c], open, close);
    }
  }

  lemma NeutralPrefix(a: string, b: string, open: char, close: char)
    requires Pair(open, close) && Neutral(b, open, close) && forall i | 0 <= i < |a| :: !IsBracket(a[i])
    ensures Neutral(a + b, open, close)
  {
    hide Neutral, Net;
    NeutralFlat(a, open, close);
    NeutralConcat(a, b, open, close);
  }

  lemma {:induction false} NeutralItems(items: Items, open: char, close: char)
    requires CleanItems(items) && Pair(open, close)
    ensures Neutral(PrintItems(items), open, close)
    decreases items
  {
    hide Neutral, Net;
    match items
    case NoItems(space) => NeutralFlat(space, open, close);
    case Item(before, value, after, rest) =>
      NeutralItems(rest, open, close);
      NeutralPrefix(Comma(rest.Item?), PrintItems(rest), open, close);
      NeutralPrefix(after, Comma(rest.Item?) + PrintItems(rest), open, close);
      NeutralJson(value, open, close);
      NeutralConcat(Print(value), after + (Comma(rest.Item?) + PrintItems(rest)), open, close);
      NeutralPrefix(before, Print(value) + (after + (Comma(rest.Item?) + PrintItems(rest))), open, close);
  }

  lemma {:induction false} NeutralFields(fields: Fields, open: char, close: char)
    requires CleanFields(fields) && Pair(open, close)
    ensures Neutral(PrintFields(fields), open, close)
    decreases fields
  {
    hide Neutral, Net;
    match fields
    case NoFields(space) => NeutralFlat(space, open, close);
    case Field(before, name, mid, gap, value, after, rest) =>
      var more := after + (Comma(rest.Field?) + PrintFields(rest));
      NeutralFields(rest, open, close);
      NeutralPrefix(Comma(rest.Field?), PrintFields(rest), open, close);
      NeutralPrefix(after, Comma(rest.Field?) + PrintFields(rest), open, close);
      NeutralJson(value, open, close);
      NeutralConcat(Print(value), more, open, close);
      NeutralPrefix(gap, Print(value) + more, open, close);
      NeutralPrefix(":", gap + (Print(value) + more), open, close);
      NeutralPrefix(mid, ":" + (gap + (Print(value) + more)), open, close);
      NeutralPrefix(Quoted(name), mid + (":" + (gap + (Print(value) + more))), open, close);
      NeutralPrefix(before, Quoted(name) + (mid + (":" + (gap + (Print(value) + more)))), open, close);
  }

  // --- taking a value ---

  /** What the scanner returns for a value: its text, for a bare number or word with the blanks after it. */
  lemma ValueOfPrinted(v: Json, blank: string, stop: char, rest: string)
    requires Clean(v) && Blank(blank) && (stop == ',' || stop == '}' || stop == ']')
    ensures Print(v) != "" && !IsSpace(Print(v)[0])
    ensures ValueText(Print(v) + (blank + ([stop] + rest))) == Some(if v.Atom? then v.text + blank else Print(v))
  {
    hide Net, Neutral;
    var tail := blank + ([stop] + rest);
    var s := Print(v) + tail;
    match v
    case Str(text) => StringTaken(text, tail);
    case Atom(text) =>
      AtomIsWord(text);
      AtomTaken(text, blank, stop, rest);
    case Arr(items) =>
      NeutralItems(items, '[', ']');
      ClosesPair(PrintItems(items), tail, '[', ']');
      assert s[..|Print(v)|] == Print(v);
    case Obj(fields) =>
      NeutralFields(fields, '{', '}');
      ClosesPair(PrintFields(fields), tail, '{', '}');
      assert s[..|Print(v)|] == Print(v);
      ObjectTaken(s);
  }

  lemma AtomTaken(text: string, blank: string, stop: char, rest: string)
    requires IsWord(text) && Blank(blank) && (stop == ',' || stop == '}' || stop == ']')
    ensures ValueText(text + (blank + ([stop] + rest))) == Some(text + blank)
  {
    var s := text + (blank + ([stop] + rest));
    var n := |text| + |blank|;
    assert s[n] == stop && s[..n] == text + blank;
    forall j | 0 <= j < n
      ensures !EndsAtom(s[j])
    {
      assert j < |text| ==> s[j] == text[j];
      assert j >= |text| ==> s[j] == blank[j - |text|];
    }
    assert s[0] == text[0];
  }

  lemma StringTaken(text: string, tail: string)
    requires Plain(text)
    ensures ValueText(Quoted(text) + tail) == Some(Quoted(text))
  {
    var s := Quoted(text) + tail;
    assert forall k | 0 <= k < |text| :: s[1 + k] == text[k];
    assert Unescaped(s, |text| + 1);
    assert s[..|text| + 2] == Quoted(text);
  }

  /** An object is taken from its first character when that is the brace. */
  lemma ObjectTaken(s: string)
    requires s != "" && s[0] == '{' && CloseFrom(s, '{', '}', 0) >= 0
    ensures ObjectText(s) == Some(s[..CloseFrom(s, '{', '}', 0)])
  {
    assert s[0..] == s;
  }

  // --- strings with quotes and backslashes ---

  /** The contents of a string literal: quotes and backslashes each after a backslash. */
  function Escaped(s: string): string {
    if s == "" then ""
    else
      var c := s[|s| - 1];
      Escaped(s[..|s| - 1]) + if c == '"' || c == '\\' then ['\\', c] else [c]
  }

  lemma {:induction false} EscapedQuotes(s: string)
    ensures forall k | 0 <= k < |Escaped(s)| && Escaped(s)[k] == '"' :: k >= 1 && Escaped(s)[k - 1] == '\\'
    ensures s == "" <==> Escaped(s) == ""
    ensures s != "" ==> (Escaped(s)[|Escaped(s)| - 1] == '\\' <==> s[|s| - 1] == '\\')
  {
    if s != "" {
      EscapedQuotes(s[..|s| - 1]);
    }
  }

  /** A string literal is taken as it was written, whatever follows it, if and only if its text does not end with a
    * backslash: the scanner takes the backslash before the closing quote for an escape, even an escaped one. */
  lemma EscapedTakenIff(s: string, tail: string)
    ensures ValueText(Quoted(Escaped(s)) + tail) == Some(Quoted(Escaped(s))) <==> s == "" || s[|s| - 1] != '\\'
    ensures TokenEnd(Quoted(Escaped(s)) + tail, 1) == |Escaped(s)| + 1 <==> s == "" || s[|s| - 1] != '\\'
  {
    hide Escaped;
    EscapedQuotes(s);
    var e := Escaped(s);
    var x := Quoted(e) + tail;
    assert forall k | 0 <= k < |e| :: x[1 + k] == e[k];
    forall k | 1 <= k <= |e|
      ensures !Unescaped(x, k)
    {
      assert x[k] == e[k - 1];
      assert k >= 2 ==> x[k - 1] == e[k - 2];
    }
    assert Unescaped(x, |e| + 1) <==> s == "" || s[|s| - 1] != '\\';
    assert x[..|e| + 2] == Quoted(e);
  }

  lemma TrimmedOff(c: char)
    ensures Outer(c) <==> IsTrimmed(c)
  {
  }

  lemma {:induction false} TrimPast(pre: string, s: string)
    requires forall i | 0 <= i < |pre| :: IsTrimmed(pre[i])
    ensures Trim(pre + s) == Trim(s)
    decreases |pre|
  {
    hide Outer, IsTrimmed;
    if pre == "" {
      assert pre + s == s;
    } else {
      TrimmedOff(pre[0]);
      TrimPast(pre[1..], s);
      assert (pre + s)[0] == pre[0] && (pre + s)[1..] == pre[1..] + s;
    }
  }

  /** White space around a text is trimmed off, and nothing else. */
  lemma {:induction false} TrimPadded(pre: string, text: string, post: string)
    requires forall i | 0 <= i < |pre| :: IsTrimmed(pre[i])
    requires forall i | 0 <= i < |post| :: IsTrimmed(post[i])
    requires text != "" ==> !IsTrimmed(text[0]) && !IsTrimmed(text[|text| - 1])
    ensures Trim(pre + (text + post)) == text
    decreases |post|
  {
    hide Outer, IsTrimmed;
    TrimPast(pre, text + post);
    if text == "" {
      TrimPast(post, "");
      assert text + post == post + "";
    } else {
      TrimmedOff(text[0]);
      TrimmedOff(text[|text| - 1]);
      if post == "" {
        assert text + post == text;
      } else {
        var s, k := text + post, |post| - 1;
        TrimmedOff(post[k]);
        TrimPadded("", text, post[..k]);
        assert "" + (text + post[..k]) == text + post[..k];
        assert s[0] == text[0] && s[|s| - 1] == post[k] && s[..|s| - 1] == text + post[..k];
      }
    }
  }

  // --- membership in a printed list ---

  /** The list holds strings only. */
  predicate AllStrings(items: Items) {
    items.Item? ==> items.value.Str? && AllStrings(items.rest)
  }

  function Texts(items: Items): seq<string>
    requires AllStrings(items)
  {
    if items.Item? then [items.value.text] + Texts(items.rest) else []
  }

  lemma {:induction false} TokenEndShift(a: string, b: string, j: nat)
    requires 1 <= j <= |b|
    ensures TokenEnd(a + b, |a| + j) == |a| + TokenEnd(b, j)
    decreases |b| - j
  {
    if j < |b| && !Unescaped(b, j) {
      TokenEndShift(a, b, j + 1);
    }
  }

  lemma {:induction false} HasTokenShift(a: string, b: string, target: string, i: nat)
    ensures HasToken(a + b, target, |a| + i) == HasToken(b, target, i)
    decreases |b| - i
  {
    if i < |b| {
      if b[i] != '"' {
        HasTokenShift(a, b, target, i + 1);
      } else {
        TokenEndShift(a, b, i + 1);
        var j := TokenEnd(b, i + 1);
        HasTokenShift(a, b, target, j + 1);
        assert (a + b)[|a| + i + 1..|a| + j] == b[i + 1..j];
      }
    }
  }

  lemma {:induction false} TokenPastFlat(t: string, b: string, target: string)
    requires forall i | 0 <= i < |t| :: t[i] != '"'
    ensures HasToken(t + b, target, 0) == HasToken(b, target, 0)
  {
    if t == "" {
      assert t + b == b;
    } else {
      var more := t[1..] + b;
      assert t + b == t[..1] + more;
      HasTokenShift(t[..1], more, target, 0);
      TokenPastFlat(t[1..], b, target);
    }
  }

  lemma TokenPastString(text: string, b: string, target: string)
    requires Plain(text)
    ensures HasToken(Quoted(text) + b, target, 0) == (text == target || HasToken(b, target, 0))
  {
    var s := Quoted(text) + b;
    var n := |text| + 1;
    assert s[0] == '"' && forall k | 0 <= k < |text| :: s[1 + k] == text[k];
    assert Unescaped(s, n);
    assert forall k | 1 <= k < n :: !Unescaped(s, k);
    assert TokenEnd(s, 1) == n && s[1..n] == text;
    HasTokenShift(Quoted(text), b, target, 0);
  }

  /** containsQuoted on a printed list of strings is membership, for every target and every spacing. */
  lemma TokensOfPrinted(items: Items, target: string)
    requires CleanItems(items) && AllStrings(items)
    ensures HasToken(Print(Arr(items)), target, 0) <==> target in Texts(items)
  {
    TokenPastFlat("[", PrintItems(items) + "]", target);
    TokensOfItems(items, "]", target);
    TokenPastFlat("]", "", target);
    assert "]" + "" == "]";
  }

  lemma {:induction false} TokensOfItems(items: Items, cont: string, target: string)
    requires CleanItems(items) && AllStrings(items)
    ensures HasToken(PrintItems(items) + cont, target, 0) <==> target in Texts(items) || HasToken(cont, target, 0)
    decreases items
  {
    hide HasToken;
    match items
    case NoItems(space) => TokenPastFlat(space, cont, target);
    case Item(before, value, after, rest) =>
      var more := PrintItems(rest) + cont;
      var comma := Comma(rest.Item?);
      TokensOfItems(rest, cont, target);
      TokenPastFlat(comma, more, target);
      TokenPastFlat(after, comma + more, target);
      TokenPastString(value.text, after + (comma + more), target);
      TokenPastFlat(before, Quoted(value.text) + (after + (comma + more)), target);
      assert PrintItems(items) + cont == before + (Quoted(value.text) + (after + (comma + more)));
  }
}
