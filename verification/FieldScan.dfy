/** The scanner that finds a field's text in a payload without parsing it: search for the quoted name,
  * skip to the value, and take a string, a balanced object or array, or everything up to the next
  * delimiter.
  */
module FieldScan {
  import opened Wrappers
  import opened Json

  // --- what the loops compute ---

  predicate Occurs(b: string, pat: string, i: int) {
    0 <= i && i + |pat| <= |b| && b[i..i + |pat|] == pat
  }

  /** Where `pat` first occurs from `i` on, or -1. */
  function IndexFrom(b: string, pat: string, i: nat): (r: int)
    ensures r == -1 || Occurs(b, pat, r)
    ensures forall j | i <= j && (r < 0 || j < r) :: !Occurs(b, pat, j)
    decreases |b| - i
  {
    if i + |pat| > |b| then -1
    else if Occurs(b, pat, i) then i
    else IndexFrom(b, pat, i + 1)
  }

  /** First position from `i` on whose character satisfies `p`, or the length. */
  function Until(b: string, p: char -> bool, i: nat): (r: nat)
    requires i <= |b|
    ensures i <= r <= |b| && (r < |b| ==> p(b[r])) && forall j | i <= j < r :: !p(b[j])
    decreases |b| - i
  {
    if i == |b| || p(b[i]) then i else Until(b, p, i + 1)
  }

  lemma {:induction false} UntilShift(b: string, p: char -> bool, from: nat, i: nat)
    requires from + i <= |b|
    ensures Until(b, p, from + i) == from + Until(b[from..], p, i)
    decreases |b| - i
  {
    if from + i < |b| && !p(b[from + i]) {
      UntilShift(b, p, from, i + 1);
    }
  }

  /** Openings minus closings. */
  function Net(s: string, open: char, close: char): int {
    if s == "" then 0 else Net(s[..|s| - 1], open, close) + Weight(s[|s| - 1], open, close)
  }

  function Weight(c: char, open: char, close: char): int {
    if c == open then 1 else if c == close then -1 else 0
  }

  /** `n` characters bring the nesting depth back to zero with a closing one. */
  predicate Closes(s: string, open: char, close: char, n: int) {
    0 < n <= |s| && s[n - 1] == close && Net(s[..n], open, close) == 0
  }

  function CloseFrom(s: string, open: char, close: char, i: nat): (r: int)
    requires i <= |s|
    ensures r == -1 || (i < r && Closes(s, open, close, r))
    ensures forall j | i < j && (r < 0 || j < r) :: !Closes(s, open, close, j)
    decreases |s| - i
  {
    if i == |s| then -1
    else if Closes(s, open, close, i + 1) then i + 1
    else CloseFrom(s, open, close, i + 1)
  }

  /** First quote from `j` on that no backslash precedes, or -1. */
  function StringEnd(s: string, j: nat): (r: int)
    requires 1 <= j <= |s|
    ensures r == -1 || (j <= r < |s| && Unescaped(s, r))
    ensures forall k | j <= k < |s| && (r < 0 || k < r) :: !Unescaped(s, k)
    decreases |s| - j
  {
    if j == |s| then -1 else if Unescaped(s, j) then j else StringEnd(s, j + 1)
  }

  predicate Unescaped(s: string, k: int) {
    1 <= k < |s| && s[k] == '"' && s[k - 1] != '\\'
  }

  predicate NotSpace(c: char) {
    c != ' ' && c != '\n' && c != '\r' && c != '\t'
  }

  /** What bytes.TrimSpace cuts off, in ASCII. */
  predicate Outer(c: char) {
    c == ' ' || c == '\t' || c == '\n' || c == '\U{000B}' || c == '\U{000C}' || c == '\r'
  }

  predicate IsColon(c: char) {
    c == ':'
  }

  predicate EndsAtom(c: char) {
    c == ',' || c == '}' || c == ']'
  }

  /** A leading object: up to the brace that balances the first. */
  function ObjectText(s: string): Option<string> {
    var t := s[Until(s, NotSpace, 0)..];
    if t == "" || t[0] != '{' then None
    else
      var n := CloseFrom(t, '{', '}', 0);
      if n < 0 then None else Some(t[..n])
  }

  function ArrayText(s: string): Option<string> {
    var n := CloseFrom(s, '[', ']', 0);
    if n < 0 then None else Some(s[..n])
  }

  function ValueText(s: string): Option<string>
    requires s != ""
  {
    if s[0] == '"' then
      var j := StringEnd(s, 1);
      if j < 0 then None else Some(s[..j + 1])
    else if s[0] == '{' then ObjectText(s)
    else if s[0] == '[' then ArrayText(s)
    else Some(s[..Until(s, EndsAtom, 0)])
  }

  /** The text of the value after the next colon. */
  function ColonText(t: string): Option<string> {
    var colon := Until(t, IsColon, 0);
    if colon == |t| then None
    else
      var i := Until(t, NotSpace, colon + 1);
      if i == |t| then None else ValueText(t[i..])
  }

  /** The text of the value after the first quoted `key`. */
  function FieldText(b: string, key: string): Option<string> {
    var at := IndexFrom(b, Quoted(key), 0);
    if at < 0 then None else ColonText(b[at + |Quoted(key)|..])
  }

  function ObjectFieldText(b: string, key: string): Option<string> {
    var raw :- FieldText(b, key);
    ObjectText(raw)
  }

  /** The contents of a string value. */
  function StringFieldText(b: string, key: string): Option<string> {
    var raw :- FieldText(b, key);
    if |raw| < 2 || raw[0] != '"' || raw[|raw| - 1] != '"' then None else Some(raw[1..|raw| - 1])
  }

  /** bytes.TrimSpace */
  function Trim(s: string): string
    decreases |s|
  {
    if s == "" then ""
    else if Outer(s[0]) then Trim(s[1..])
    else if Outer(s[|s| - 1]) then Trim(s[..|s| - 1])
    else s
  }

  function TrimmedFieldText(b: string, key: string): Option<string> {
    var raw :- FieldText(b, key);
    Some(Trim(raw))
  }

  // --- the loops ---

  /** bytes.Index */
  method Index(b: string, pat: string) returns (r: int)
    ensures r == IndexFrom(b, pat, 0)
  {
    r := 0;
    while r + |pat| <= |b|
      invariant 0 <= r && IndexFrom(b, pat, 0) == IndexFrom(b, pat, r)
      decreases |b| - r
    {
      if b[r..r + |pat|] == pat {
        return;
      }
      r := r + 1;
    }
    r := -1;
  }

  method SkipSpaceIndex(b: string, start: nat) returns (i: nat)
    requires start <= |b|
    ensures i == Until(b, NotSpace, start)
  {
    i := start;
    while i < |b|
      invariant start <= i <= |b| && Until(b, NotSpace, start) == Until(b, NotSpace, i)
    {
      if NotSpace(b[i]) {
        return;
      }
      i := i + 1;
    }
  }

  lemma NetStep(s: string, open: char, close: char, i: nat)
    requires i < |s|
    ensures Net(s[..i + 1], open, close) == Net(s[..i], open, close) + Weight(s[i], open, close)
  {
    assert s[..i + 1][..i] == s[..i];
  }

  /** The depth-counting loop. */
  method FindClose(s: string, open: char, close: char) returns (n: int)
    requires open != close
    ensures n == CloseFrom(s, open, close, 0)
  {
    var depth := 0;
    for i := 0 to |s|
      invariant depth == Net(s[..i], open, close)
      invariant CloseFrom(s, open, close, 0) == CloseFrom(s, open, close, i)
    {
      NetStep(s, open, close, i);
      if s[i] == open {
        depth := depth + 1;
      } else if s[i] == close {
        depth := depth - 1;
        if depth == 0 {
          return i + 1;
        }
      }
    }
    n := -1;
  }

  method ObjectFromValue(s: string) returns (r: Option<string>)
    ensures r == ObjectText(s)
  {
    var i := SkipSpaceIndex(s, 0);
    var t := s[i..];
    if |t| == 0 || t[0] != '{' {
      return None;
    }
    var n := FindClose(t, '{', '}');
    r := if n < 0 then None else Some(t[..n]);
  }

  method ArrayFromValue(s: string) returns (r: Option<string>)
    ensures r == ArrayText(s)
  {
    var n := FindClose(s, '[', ']');
    r := if n < 0 then None else Some(s[..n]);
  }

  method SkipToColon(b: string, start: nat) returns (i: nat)
    requires start <= |b|
    ensures i == Until(b, IsColon, start)
  {
    i := start;
    while i < |b| && b[i] != ':'
      invariant start <= i <= |b| && Until(b, IsColon, start) == Until(b, IsColon, i)
    {
      i := i + 1;
    }
  }

  /** rawField */
  method RawField(b: string, key: string) returns (r: Option<string>)
    ensures r == FieldText(b, key)
  {
    hide Quoted, ValueText, Until, IndexFrom;
    var pat := Quoted(key);
    var i := Index(b, pat);
    if i < 0 {
      return None;
    }
    ghost var from, t := i + |pat|, b[i + |pat|..];
    UntilShift(b, IsColon, from, 0);
    i := SkipToColon(b, i + |pat|);
    if i >= |b| {
      return None;
    }
    UntilShift(b, NotSpace, from, i + 1 - from);
    i := SkipSpaceIndex(b, i + 1);
    if i >= |b| {
      return None;
    }
    assert b[i..] == t[i - from..];
    r := TakeValue(b[i..]);
  }

  /** The switch on the value's first character. */
  method TakeValue(s: string) returns (r: Option<string>)
    requires s != ""
    ensures r == ValueText(s)
  {
    if s[0] == '"' {
      var j := 1;
      while j < |s|
        invariant 1 <= j <= |s| && StringEnd(s, 1) == StringEnd(s, j)
      {
        if s[j] == '"' && s[j - 1] != '\\' {
          return Some(s[..j + 1]);
        }
        j := j + 1;
      }
      r := None;
    } else if s[0] == '{' {
      r := ObjectFromValue(s);
    } else if s[0] == '[' {
      r := ArrayFromValue(s);
    } else {
      var j := 0;
      while j < |s| && s[j] != ',' && s[j] != '}' && s[j] != ']'
        invariant 0 <= j <= |s| && Until(s, EndsAtom, 0) == Until(s, EndsAtom, j)
      {
        j := j + 1;
      }
      r := Some(s[..j]);
    }
  }

  method ObjectField(b: string, key: string) returns (r: Option<string>)
    ensures r == ObjectFieldText(b, key)
  {
    var raw :- RawField(b, key);
    r := ObjectFromValue(raw);
  }

  method StringField(b: string, key: string) returns (r: Option<string>)
    ensures r == StringFieldText(b, key)
  {
    var raw :- RawField(b, key);
    if |raw| < 2 || raw[0] != '"' || raw[|raw| - 1] != '"' {
      return None;
    }
    r := Some(raw[1..|raw| - 1]);
  }

  // --- membership in a list of strings ---

  /** Where a token that starts after position `i` ends: its closing quote, or the end of the text. */
  function TokenEnd(s: string, j: nat): (r: nat)
    requires 1 <= j <= |s|
    ensures j <= r <= |s| && (r < |s| ==> Unescaped(s, r)) && forall k | j <= k < r :: !Unescaped(s, k)
    decreases |s| - j
  {
    if j == |s| || Unescaped(s, j) then j else TokenEnd(s, j + 1)
  }

  /** Some string token from `i` on is `target`. */
  predicate HasToken(s: string, target: string, i: nat)
    decreases |s| - i
  {
    i < |s| &&
    if s[i] != '"' then HasToken(s, target, i + 1)
    else
      var j := TokenEnd(s, i + 1);
      s[i + 1..j] == target || HasToken(s, target, j + 1)
  }

  /** containsQuoted */
  method ContainsQuoted(s: string, target: string) returns (found: bool)
    ensures found == HasToken(s, target, 0)
  {
    var i := 0;
    while i < |s|
      invariant 0 <= i && HasToken(s, target, 0) == HasToken(s, target, i)
      decreases |s| - i
    {
      if s[i] == '"' {
        var j := i + 1;
        while j < |s| && !(s[j] == '"' && s[j - 1] != '\\')
          invariant i + 1 <= j <= |s| && TokenEnd(s, i + 1) == TokenEnd(s, j)
        {
          j := j + 1;
        }
        if s[i + 1..j] == target {
          return true;
        }
        i := j;
      }
      i := i + 1;
    }
    found := false;
  }
}
