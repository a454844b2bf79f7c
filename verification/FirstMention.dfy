/** What the scanner returns on a printed object. It looks for the quoted name and then for a colon, so it
  * goes by the first place that mentions the name, be it a field's name or a string value, and takes the
  * value after the next colon. A state machine over the object says where that leads.
  */
module FirstMention {
  import opened FieldFacts
  import opened FieldScan
  import opened Json
  import opened Wrappers

  /** `NotSeen`: the name has not been mentioned. `Waiting`: it has, and a colon is awaited. `Found`: the
    * colon of this value's field was met. `Lost`: a colon inside this string was met first. */
  datatype Seen = NotSeen | Waiting | Found(value: Json) | Lost(text: string) {
    predicate Active() {
      NotSeen? || Waiting?
    }
  }

  predicate NoColon(s: string) {
    forall i | 0 <= i < |s| :: !IsColon(s[i])
  }

  function SeeText(text: string, key: string, s: Seen): Seen {
    match s
    case NotSeen => if text == key then Waiting else NotSeen
    case Waiting => if NoColon(text) then Waiting else Lost(text)
    case _ => s
  }

  /** The colon between a field's name and its value. */
  function SeeColon(value: Json, s: Seen): Seen {
    if s.Waiting? then Found(value) else s
  }

  function See(v: Json, key: string, s: Seen): Seen {
    match v
    case Str(text) => SeeText(text, key, s)
    case Atom(_) => s
    case Arr(items) => SeeItems(items, key, s)
    case Obj(fields) => SeeFields(fields, key, s)
  }

  function SeeItems(items: Items, key: string, s: Seen): Seen {
    if items.NoItems? then s else SeeItems(items.rest, key, See(items.value, key, s))
  }

  function SeeFields(fields: Fields, key: string, s: Seen): Seen {
    if fields.NoFields? then s
    else SeeFields(fields.rest, key, See(fields.value, key, SeeColon(fields.value, SeeText(fields.name, key, s))))
  }

  // --- what each state promises ---

  /** A value's text, for a bare number or word with blanks after it. */
  predicate RawOf(r: Option<string>, u: Json) {
    r.Some? && Print(u) <= r.value && Blank(r.value[|Print(u)|..]) && (!u.Atom? ==> r.value == Print(u))
  }

  /** What a string holds after its first colon and the blanks that follow. */
  function AfterColon(text: string): string
    requires !NoColon(text)
  {
    var colon := Until(text, IsColon, 0);
    text[Until(text, NotSpace, colon + 1)..]
  }

  /** From a colon inside a string the scanner takes what comes after it in the string: up to the first
    * delimiter there, or else on through the closing quote; when nothing comes after, from the closing quote
    * to the next one. */
  predicate Strays(r: Option<string>, text: string) {
    !NoColon(text) &&
    var y := AfterColon(text);
    if y == "" then r.None? || (|r.value| >= 3 && r.value[0] == '"')
    else
      var k := Until(y, EndsAtom, 0);
      r.Some? && if k < |y| then r.value == y[..k] else y + "\"" <= r.value
  }

  /** The scanner's result on the text `t` from a given state on. */
  function Look(t: string, key: string, s: Seen): Option<string>
    requires s.Active()
  {
    if s.NotSeen? then FieldText(t, key) else ColonText(t)
  }

  /** The result `r` is what the state `s` promises when `cont` is still to be read. */
  predicate Meets(r: Option<string>, s: Seen, cont: string, key: string) {
    match s
    case Found(u) => RawOf(r, u)
    case Lost(text) => Strays(r, text) && r != Some("\"\"")
    case _ => r == Look(cont, key, s)
  }

  // --- one piece of text ---

  /** Text in which the name does not occur is skipped. */
  lemma SkipQuiet(a: string, rest: string, key: string)
    requires Quiet(a, rest, Quoted(key))
    ensures FieldText(a + rest, key) == FieldText(rest, key)
  {
    hide ColonText;
    var b, pat := a + rest, Quoted(key);
    var at := IndexFrom(rest, pat, 0);
    forall j | |a| <= j
      ensures Occurs(b, pat, j) == Occurs(rest, pat, j - |a|)
    {
      OccursShift(a, rest, pat, j);
    }
    if at >= 0 {
      assert Occurs(b, pat, |a| + at);
      assert IndexFrom(b, pat, 0) == |a| + at;
      assert b[|a| + at + |pat|..] == rest[at + |pat|..];
    } else {
      assert IndexFrom(b, pat, 0) < 0;
    }
  }

  lemma UntilPast(a: string, rest: string, p: char -> bool, i: nat)
    requires i <= |rest|
    ensures Until(a + rest, p, |a| + i) == |a| + Until(rest, p, i)
  {
    assert (a + rest)[|a|..] == rest;
    UntilShift(a + rest, p, |a|, i);
  }

  lemma ColonPast(a: string, rest: string)
    requires NoColon(a)
    ensures Until(a + rest, IsColon, 0) == |a| + Until(rest, IsColon, 0)
  {
    UntilPast(a, rest, IsColon, 0);
    assert Until(a + rest, IsColon, 0) == Until(a + rest, IsColon, |a|);
  }

  /** Text without a colon is skipped when a colon is awaited. */
  lemma SkipToColonText(a: string, rest: string)
    requires NoColon(a)
    ensures ColonText(a + rest) == ColonText(rest)
  {
    hide ValueText, Until;
    ColonPast(a, rest);
    var colon := Until(rest, IsColon, 0);
    if colon < |rest| {
      UntilPast(a, rest, NotSpace, colon + 1);
      var i := Until(rest, NotSpace, colon + 1);
      assert (a + rest)[|a| + i..] == rest[i..];
    }
  }

  predicate NoQuote(s: string) {
    forall i | 0 <= i < |s| :: s[i] != '"'
  }

  lemma FlatStep(a: string, rest: string, key: string, s: Seen)
    requires s.Active() && NoQuote(a) && (s.Waiting? ==> NoColon(a))
    ensures Look(a + rest, key, s) == Look(rest, key, s)
  {
    hide FieldText, ColonText, Quiet;
    if s.NotSeen? {
      QuietFlat(a, rest, key);
      SkipQuiet(a, rest, key);
    } else {
      SkipToColonText(a, rest);
    }
  }

  lemma TextStep(text: string, rest: string, key: string, s: Seen)
    requires s.Active() && Plain(text) && IsName(key) && Stopped(rest)
    ensures Meets(Look(Quoted(text) + rest, key, s), SeeText(text, key, s), rest, key)
  {
    hide FieldText, ColonText, Quiet, Stopped, Plain;
    if s.NotSeen? {
      if text == key {
        MentionHere(key, rest);
      } else {
        QuietString(text, rest, key);
        SkipQuiet(Quoted(text), rest, key);
      }
    } else if NoColon(text) {
      assert NoColon(Quoted(text));
      SkipToColonText(Quoted(text), rest);
    } else {
      ColonInside(text, rest);
    }
  }

  lemma MentionHere(key: string, rest: string)
    ensures FieldText(Quoted(key) + rest, key) == ColonText(rest)
  {
    hide ColonText;
    var b, pat := Quoted(key) + rest, Quoted(key);
    assert b[0..0 + |pat|] == pat;
    assert b[0 + |pat|..] == rest;
  }

  /** A colon inside a string leads to what follows it. */
  lemma ColonInside(text: string, rest: string)
    requires Plain(text) && !NoColon(text) && Stopped(rest)
    ensures var r := ColonText(Quoted(text) + rest); Strays(r, text) && r != Some("\"\"")
  {
    hide ColonText, ValueText, Stopped, Until, AfterColon;
    ColonLeads(text, rest);
    AfterColonPlain(text);
    var y := AfterColon(text);
    if y == "" {
      assert y + ("\"" + rest) == "\"" + rest;
      ClosingQuoteTaken(rest);
    } else {
      BareText(y, rest);
    }
  }

  lemma ColonLeads(text: string, rest: string)
    requires !NoColon(text)
    ensures ColonText(Quoted(text) + rest) == ValueText(AfterColon(text) + ("\"" + rest))
  {
    hide ValueText, Until, Quoted;
    var t := "\"" + rest;
    var b := text + t;
    QuoteFirst(text, rest);
    assert NoColon("\"");
    SkipToColonText("\"", b);
    ColonWithin(text);
    var colon := Until(text, IsColon, 0);
    InString(text, t, IsColon, 0);
    InString(text, t, NotSpace, colon + 1);
    var i := Until(text, NotSpace, colon + 1);
    assert b[i..] == text[i..] + t;
  }

  lemma QuoteFirst(text: string, rest: string)
    ensures Quoted(text) + rest == "\"" + (text + ("\"" + rest))
  {
  }

  lemma ColonWithin(text: string)
    requires !NoColon(text)
    ensures Until(text, IsColon, 0) < |text|
  {
  }

  lemma AfterColonPlain(text: string)
    requires Plain(text) && !NoColon(text)
    ensures Plain(AfterColon(text)) && |AfterColon(text)| < |text|
  {
    var i := Until(text, NotSpace, Until(text, IsColon, 0) + 1);
    assert forall j | 0 <= j < |text| - i :: text[i..][j] == text[i + j];
  }

  /** A search that ends inside a string, or at its closing quote, does not look further. */
  lemma InString(text: string, t: string, p: char -> bool, i: nat)
    requires i <= |text| && t != "" && (p(t[0]) || Until(text, p, i) < |text|)
    ensures Until(text + t, p, i) == Until(text, p, i)
  {
    var b, k := text + t, Until(text, p, i);
    assert forall j | i <= j < |text| :: b[j] == text[j];
    assert k == |text| ==> b[k] == t[0];
  }

  lemma BareText(y: string, rest: string)
    requires Plain(y) && y != ""
    ensures var r, k := ValueText(y + ("\"" + rest)), Until(y, EndsAtom, 0);
      && r.Some? && r != Some("\"\"")
      && if k < |y| then r.value == y[..k] else y + "\"" <= r.value
  {
    hide StringEnd, ObjectText, ArrayText, Until;
    var t := "\"" + rest;
    var s, k := y + t, Until(y, EndsAtom, 0);
    var n := Until(s, EndsAtom, 0);
    assert s[0] == y[0];
    assert ValueText(s) == Some(s[..n]);
    if k < |y| {
      InString(y, t, EndsAtom, 0);
      assert s[..k] == y[..k];
    } else {
      NotInString(y, rest);
    }
    FirstOf(s, n);
  }

  lemma NotInString(y: string, rest: string)
    requires Until(y, EndsAtom, 0) == |y|
    ensures var s := y + ("\"" + rest); y + "\"" <= s[..Until(s, EndsAtom, 0)]
  {
    hide Until, EndsAtom;
    var head := y + "\"";
    assert !EndsAtom('"') by { QuoteIsNoEnd(); }
    forall j | 0 <= j < |head|
      ensures !EndsAtom(head[j])
    {
      assert j < |y| ==> head[j] == y[j];
    }
    Regrouped(y, "\"", rest);
    PastHead(head, rest);
  }

  lemma QuoteIsNoEnd()
    ensures !EndsAtom('"')
  {
  }

  lemma Regrouped(x: string, y: string, z: string)
    ensures x + (y + z) == (x + y) + z
  {
  }

  lemma PastHead(head: string, rest: string)
    requires forall j | 0 <= j < |head| :: !EndsAtom(head[j])
    ensures head <= (head + rest)[..Until(head + rest, EndsAtom, 0)]
  {
    hide EndsAtom;
    var n := Until(head + rest, EndsAtom, 0);
    assert forall j | 0 <= j < |head| :: (head + rest)[j] == head[j];
    Prefix(head, rest, n);
  }

  lemma Prefix(head: string, rest: string, n: nat)
    requires |head| <= n <= |head + rest|
    ensures head <= (head + rest)[..n]
  {
  }

  lemma FirstOf(s: string, n: nat)
    requires n <= |s|
    ensures n > 0 ==> s[..n][0] == s[0]
  {
  }

  lemma ClosingQuoteTaken(rest: string)
    requires Stopped(rest)
    ensures var r := ValueText("\"" + rest);
      r.None? || (|r.value| >= 3 && r.value[0] == '"')
  {
    var s := "\"" + rest;
    assert s[1] == rest[0];
    var j := StringEnd(s, 1);
    assert j != 1;
  }

  predicate EndsObject(s: string) {
    s != "" && EndsAtom(s[0])
  }

  /** At a field's colon the value is taken. */
  lemma ColonStep(f: Fields, cont: string, key: string)
    requires f.Field? && CleanFields(f) && EndsObject(cont)
    ensures RawOf(ColonText(":" + (f.gap + (Print(f.value) + (AfterValue(f) + cont)))), f.value)
  {
    hide ColonText, ValueText;
    var stop, rest := NextStop(f, cont);
    var v := Print(f.value) + (Trailing(f) + ([stop] + rest));
    ValueOfPrinted(f.value, Trailing(f), stop, rest);
    ColonHere(f.gap, v);
    if f.value.Atom? {
      assert (Print(f.value) + Trailing(f))[|Print(f.value)|..] == Trailing(f);
    } else {
      assert Print(f.value)[|Print(f.value)|..] == "";
    }
  }

  /** What is printed after a field's value. */
  function AfterValue(f: Fields): string
    requires f.Field?
  {
    f.after + (Comma(f.rest.Field?) + PrintFields(f.rest))
  }

  /** The blanks between a field's value and the next delimiter. */
  function Trailing(f: Fields): string
    requires f.Field?
  {
    f.after + if f.rest.Field? then "" else f.rest.space
  }

  lemma NextStop(f: Fields, cont: string) returns (stop: char, rest: string)
    requires f.Field? && CleanFields(f) && EndsObject(cont)
    ensures EndsAtom(stop) && Blank(Trailing(f)) && AfterValue(f) + cont == Trailing(f) + ([stop] + rest)
  {
    if f.rest.Field? {
      stop, rest := ',', PrintFields(f.rest) + cont;
      assert Trailing(f) == f.after;
    } else {
      stop, rest := cont[0], cont[1..];
    }
  }

  lemma ColonHere(gap: string, value: string)
    requires Blank(gap) && value != "" && !IsSpace(value[0])
    ensures ColonText(":" + (gap + value)) == ValueText(value)
  {
    hide ValueText;
    var t := ":" + (gap + value);
    assert Until(t, IsColon, 0) == 0;
    UntilPast(":" + gap, value, NotSpace, 0);
    assert t == (":" + gap) + value;
    assert forall j | 1 <= j < 1 + |gap| :: t[j] == gap[j - 1];
    assert t[1 + |gap|] == value[0];
    assert Until(t, NotSpace, 1) == 1 + |gap|;
    assert t[1 + |gap|..] == value;
  }

  // --- the walk ---

  lemma {:induction false} Settled(v: Json, key: string, s: Seen)
    requires !s.Active()
    ensures See(v, key, s) == s
    decreases v
  {
    match v
    case Str(_) =>
    case Atom(_) =>
    case Arr(items) => SettledItems(items, key, s);
    case Obj(fields) => SettledFields(fields, key, s);
  }

  lemma {:induction false} SettledItems(items: Items, key: string, s: Seen)
    requires !s.Active()
    ensures SeeItems(items, key, s) == s
    decreases items
  {
    if items.Item? {
      Settled(items.value, key, s);
      SettledItems(items.rest, key, s);
    }
  }

  lemma {:induction false} SettledFields(fields: Fields, key: string, s: Seen)
    requires !s.Active()
    ensures SeeFields(fields, key, s) == s
    decreases fields
  {
    if fields.Field? {
      Settled(fields.value, key, s);
      SettledFields(fields.rest, key, s);
    }
  }

  /** The scanner on a printed value and what follows does what the state machine says. */
  lemma {:induction false} Walk(v: Json, cont: string, key: string, s: Seen)
    requires s.Active() && Clean(v) && IsName(key) && Stopped(cont)
    ensures Meets(Look(Print(v) + cont, key, s), See(v, key, s), cont, key)
    decreases v
  {
    hide Look, RawOf, Stopped, IsName;
    match v
    case Str(text) => TextStep(text, cont, key, s);
    case Atom(text) =>
      AtomIsWord(text);
      FlatStep(text, cont, key, s);
    case Arr(items) =>
      FlatStep("[", PrintItems(items) + ("]" + cont), key, s);
      assert Print(v) + cont == "[" + (PrintItems(items) + ("]" + cont));
      StoppedStop(']', cont);
      WalkItems(items, "]" + cont, key, s);
      Closing("]", cont, key, See(v, key, s));
    case Obj(fields) =>
      FlatStep("{", PrintFields(fields) + ("}" + cont), key, s);
      assert Print(v) + cont == "{" + (PrintFields(fields) + ("}" + cont));
      StoppedStop('}', cont);
      WalkFields(fields, "}" + cont, key, s);
      Closing("}", cont, key, See(v, key, s));
  }

  lemma Closing(a: string, cont: string, key: string, s: Seen)
    requires NoQuote(a) && NoColon(a)
    ensures s.Active() ==> Look(a + cont, key, s) == Look(cont, key, s)
  {
    if s.Active() {
      FlatStep(a, cont, key, s);
    }
  }

  lemma {:induction false} WalkItems(items: Items, cont: string, key: string, s: Seen)
    requires s.Active() && CleanItems(items) && IsName(key) && Stopped(cont)
    ensures Meets(Look(PrintItems(items) + cont, key, s), SeeItems(items, key, s), cont, key)
    decreases items
  {
    hide Look, RawOf, Stopped, IsName;
    match items
    case NoItems(space) => FlatStep(space, cont, key, s);
    case Item(before, value, after, rest) =>
      var more := Comma(rest.Item?) + PrintItems(rest);
      FlatStep(before, Print(value) + (after + more + cont), key, s);
      assert PrintItems(items) + cont == before + (Print(value) + (after + more + cont));
      StoppedAfterItem(after, rest, cont);
      Walk(value, after + more + cont, key, s);
      var s' := See(value, key, s);
      if s'.Active() {
        var gap := after + Comma(rest.Item?);
        FlatStep(gap, PrintItems(rest) + cont, key, s');
        assert after + more + cont == gap + (PrintItems(rest) + cont);
        WalkItems(rest, cont, key, s');
      } else {
        SettledItems(rest, key, s');
      }
  }

  lemma {:induction false} WalkFields(fields: Fields, cont: string, key: string, s: Seen)
    requires s.Active() && CleanFields(fields) && IsName(key) && Stopped(cont) && EndsObject(cont)
    ensures Meets(Look(PrintFields(fields) + cont, key, s), SeeFields(fields, key, s), cont, key)
    decreases fields, 1
  {
    hide Look, RawOf, Stopped, IsName;
    match fields
    case NoFields(space) => FlatStep(space, cont, key, s);
    case Field(before, name, mid, gap, value, after, rest) =>
      var more := Print(value) + (AfterValue(fields) + cont);
      var s1 := SeeText(name, key, s);
      WalkName(fields, more, key, s);
      assert PrintFields(fields) + cont == before + (Quoted(name) + (mid + (":" + (gap + more))));
      if s1.NotSeen? {
        FlatStep(":" + gap, more, key, s1);
        assert ":" + (gap + more) == ":" + gap + more;
        WalkValue(fields, cont, key, s1);
      } else {
        ColonEnds(fields, cont, key, s1, Look(PrintFields(fields) + cont, key, s));
      }
  }

  /** From the blanks before a name to its colon. */
  lemma WalkName(f: Fields, more: string, key: string, s: Seen)
    requires s.Active() && f.Field? && CleanFields(f) && IsName(key)
    ensures Meets(Look(f.before + (Quoted(f.name) + (f.mid + (":" + (f.gap + more)))), key, s),
                  SeeText(f.name, key, s), ":" + (f.gap + more), key)
  {
    hide Look, RawOf, Stopped, IsName;
    var colon := ":" + (f.gap + more);
    FlatStep(f.before, Quoted(f.name) + (f.mid + colon), key, s);
    StoppedStop(':', f.gap + more);
    StoppedBlank(f.mid, colon);
    TextStep(f.name, f.mid + colon, key, s);
    Closing(f.mid, colon, key, SeeText(f.name, key, s));
  }

  /** The value of a field that does not end the search, and the fields after it. */
  lemma {:induction false} WalkValue(f: Fields, cont: string, key: string, s: Seen)
    requires s.Active() && f.Field? && CleanFields(f) && IsName(key) && Stopped(cont) && EndsObject(cont)
    ensures Meets(Look(Print(f.value) + (AfterValue(f) + cont), key, s),
                  SeeFields(f.rest, key, See(f.value, key, s)), cont, key)
    decreases f, 0
  {
    hide Look, RawOf, Stopped, IsName;
    StoppedAfterField(f.after, f.rest, cont);
    Walk(f.value, AfterValue(f) + cont, key, s);
    var s' := See(f.value, key, s);
    if s'.Active() {
      var gap := f.after + Comma(f.rest.Field?);
      FlatStep(gap, PrintFields(f.rest) + cont, key, s');
      assert AfterValue(f) + cont == gap + (PrintFields(f.rest) + cont);
      WalkFields(f.rest, cont, key, s');
    } else {
      SettledFields(f.rest, key, s');
    }
  }

  /** A mentioned name is settled by the next colon. */
  lemma ColonEnds(f: Fields, cont: string, key: string, s: Seen, r: Option<string>)
    requires f.Field? && CleanFields(f) && EndsObject(cont) && !s.NotSeen?
    requires Meets(r, s, ":" + (f.gap + (Print(f.value) + (AfterValue(f) + cont))), key)
    ensures Meets(r, SeeFields(f.rest, key, See(f.value, key, SeeColon(f.value, s))), cont, key)
  {
    hide ColonText, RawOf, Print, AfterValue;
    ColonStep(f, cont, key);
    var s' := SeeColon(f.value, s);
    Settled(f.value, key, s');
    SettledFields(f.rest, key, s');
  }

  // --- whole objects ---

  /** On every printed object, whatever the order of the fields and the whitespace, the scanner returns the
    * value the state machine finds; a name that is not mentioned before a colon is not found. */
  lemma FieldTextOfPrinted(pre: string, fields: Fields, post: string, key: string)
    requires Blank(pre) && Blank(post) && CleanFields(fields) && IsName(key)
    ensures var r := FieldText(pre + Print(Obj(fields)) + post, key);
      match SeeFields(fields, key, NotSeen)
      case Found(u) => RawOf(r, u)
      case Lost(text) => Strays(r, text) && r != Some("\"\"")
      case _ => r.None?
  {
    hide FieldText, ColonText, Stopped, IsName, RawOf;
    var cont := "}" + post;
    var s := SeeFields(fields, key, NotSeen);
    FlatStep(pre + "{", PrintFields(fields) + cont, key, NotSeen);
    assert pre + Print(Obj(fields)) + post == pre + "{" + (PrintFields(fields) + cont);
    StoppedStop('}', post);
    WalkFields(fields, cont, key, NotSeen);
    if s.Active() {
      FlatStep(cont, "", key, s);
      assert cont + "" == cont;
      NothingLeft(key, s);
    }
  }

  lemma NothingLeft(key: string, s: Seen)
    requires s.Active()
    ensures Look("", key, s).None?
  {
  }

  // --- the field meant ---

  predicate Has(fields: Fields, key: string) {
    fields.Field? && (fields.name == key || Has(fields.rest, key))
  }

  /** The value of the first field called `key`. */
  function Own(fields: Fields, key: string): Json
    requires Has(fields, key)
  {
    if fields.name == key then fields.value else Own(fields.rest, key)
  }

  /** `fields` with another value in the first field called `key`. */
  function Put(fields: Fields, key: string, w: Json): Fields
    requires Has(fields, key)
  {
    if fields.name == key then fields.(value := w) else fields.(rest := Put(fields.rest, key, w))
  }

  /** The state in which the scanner arrives at the first field called `key`. */
  function Arrival(fields: Fields, key: string, s: Seen): Seen
    requires Has(fields, key)
  {
    if fields.name == key then s
    else Arrival(fields.rest, key, See(fields.value, key, SeeColon(fields.value, SeeText(fields.name, key, s))))
  }

  /** Between the first mention of `key` and the colon of the field of that name there is no other colon:
    * no other field's, and none in a string. */
  predicate Reached(fields: Fields, key: string) {
    Has(fields, key) && Arrival(fields, key, NotSeen).Active()
  }

  lemma {:induction false} ArrivalDecides(fields: Fields, key: string, s: Seen)
    requires Has(fields, key) && IsName(key)
    ensures var a := Arrival(fields, key, s);
      SeeFields(fields, key, s) == if a.Active() then Found(Own(fields, key)) else a
    decreases fields
  {
    hide IsName, NoColon;
    if fields.name == key {
      NameHasNoColon(key);
      var s' := SeeColon(fields.value, SeeText(key, key, s));
      Settled(fields.value, key, s');
      SettledFields(fields.rest, key, s');
    } else {
      ArrivalDecides(fields.rest, key, See(fields.value, key, SeeColon(fields.value, SeeText(fields.name, key, s))));
    }
  }

  lemma NameHasNoColon(key: string)
    requires IsName(key)
    ensures NoColon(key)
  {
  }

  lemma {:induction false} PutFacts(fields: Fields, key: string, w: Json, s: Seen)
    requires Has(fields, key) && CleanFields(fields) && Clean(w)
    ensures var changed := Put(fields, key, w);
      Has(changed, key) && CleanFields(changed) && Own(changed, key) == w
        && Arrival(changed, key, s) == Arrival(fields, key, s)
    decreases fields
  {
    if fields.name != key {
      PutFacts(fields.rest, key, w, See(fields.value, key, SeeColon(fields.value, SeeText(fields.name, key, s))));
    }
  }

  /** With the value `w` in the field of that name, the scanner returns `w`. */
  predicate Returns(pre: string, fields: Fields, post: string, key: string, w: Json)
    requires Has(fields, key)
  {
    RawOf(FieldText(pre + Print(Obj(Put(fields, key, w))) + post, key), w)
  }

  /** The result after the field's value is replaced: the new value, the value met earlier, or neither. */
  lemma Outcome(pre: string, fields: Fields, post: string, key: string, w: Json)
    requires Blank(pre) && Blank(post) && CleanFields(fields) && IsName(key) && Has(fields, key) && Clean(w)
    ensures var r := FieldText(pre + Print(Obj(Put(fields, key, w))) + post, key);
      match Arrival(fields, key, NotSeen)
      case Found(u) => RawOf(r, u)
      case Lost(_) => r != Some("\"\"")
      case _ => RawOf(r, w)
  {
    hide FieldText, RawOf, IsName, Print;
    PutFacts(fields, key, w, NotSeen);
    ArrivalDecides(Put(fields, key, w), key, NotSeen);
    FieldTextOfPrinted(pre, Put(fields, key, w), post, key);
  }

  /** A text is that of one string only. */
  lemma OneText(r: Option<string>, u: Json, w: Json)
    requires RawOf(r, u) && RawOf(r, w) && w.Str?
    ensures Print(u) == Print(w)
  {
    var t := r.value;
    assert t[|t| - 1] == '"';
    BlankAtEnd(t, |Print(u)|);
  }

  lemma BlankAtEnd(t: string, n: nat)
    requires n < |t| ==> Blank(t[n..])
    ensures n < |t| ==> IsSpace(t[|t| - 1])
  {
    if n < |t| {
      assert t[n..][|t| - 1 - n] == t[|t| - 1];
    }
  }

  lemma SomeStrings()
    ensures Clean(Str("")) && Clean(Str("x")) && Print(Str("")) == "\"\"" != Print(Str("x"))
  {
    assert |Print(Str(""))| != |Print(Str("x"))|;
  }

  lemma StringTextOnly(r: Option<string>, w: Json)
    requires RawOf(r, w) && w.Str?
    ensures r == Some(Print(w))
  {
  }

  /** The scanner returns the value of the field it is asked for, whatever that value is, if and only if no
    * other colon comes between the first mention of the name and the field's own. */
  lemma RightIff(pre: string, fields: Fields, post: string, key: string)
    requires Blank(pre) && Blank(post) && CleanFields(fields) && IsName(key) && Has(fields, key)
    ensures Reached(fields, key) <==> forall w | Clean(w) :: Returns(pre, fields, post, key, w)
  {
    hide FieldText, RawOf, IsName, Print;
    forall w | Clean(w)
      ensures Reached(fields, key) ==> Returns(pre, fields, post, key, w)
    {
      Outcome(pre, fields, post, key, w);
    }
    if !Reached(fields, key) {
      var a := Arrival(fields, key, NotSeen);
      var w := if a.Found? && Print(a.value) == Print(Str("")) then Str("x") else Str("");
      SomeStrings();
      Outcome(pre, fields, post, key, w);
      if Returns(pre, fields, post, key, w) {
        var r := FieldText(pre + Print(Obj(Put(fields, key, w))) + post, key);
        StringTextOnly(r, w);
        if a.Found? {
          OneText(r, a.value, w);
        }
      }
    }
  }
}
