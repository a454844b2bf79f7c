/** JSON payloads as they are printed, with arbitrary whitespace and key order. */
module Json {
  predicate IsSpace(c: char) {
    c == ' ' || c == '\n' || c == '\r' || c == '\t'
  }

  /** ASCII whitespace, all of which is trimmed off numbers and words. */
  predicate IsTrimmed(c: char) {
    IsSpace(c) || c == '\U{000B}' || c == '\U{000C}'
  }

  predicate Blank(s: string) {
    forall i | 0 <= i < |s| :: IsSpace(s[i])
  }

  predicate IsBracket(c: char) {
    c == '{' || c == '}' || c == '[' || c == ']'
  }

  /** String contents without control characters, quotes, backslashes, braces and brackets. */
  predicate Plain(s: string) {
    forall i | 0 <= i < |s| :: ' ' <= s[i] && s[i] != '"' && s[i] != '\\' && !IsBracket(s[i])
  }

  /** Text without delimiters or white space. */
  predicate IsWord(s: string) {
    |s| > 0 && Plain(s) && forall i | 0 <= i < |s| :: s[i] != ',' && s[i] != ':' && !IsTrimmed(s[i])
  }

  predicate IsDigit(c: char) {
    '0' <= c <= '9'
  }

  /** Where the run of digits from `i` ends. */
  function DigitsEnd(s: string, i: nat): (j: nat)
    requires i <= |s|
    ensures i <= j <= |s|
    decreases |s| - i
  {
    if i == |s| || !IsDigit(s[i]) then i else DigitsEnd(s, i + 1)
  }

  predicate NumberChars(s: string) {
    forall i | 0 <= i < |s| :: IsDigit(s[i]) || s[i] == '-' || s[i] == '+' || s[i] == '.' || s[i] == 'e' || s[i] == 'E'
  }

  /** A JSON number: sign, integer without leading zeros, fraction, exponent (RFC 8259, section 6). */
  predicate IsNumber(s: string) {
    NumberChars(s) &&
    var i := if s != "" && s[0] == '-' then 1 else 0;
    var j := DigitsEnd(s, i);
    i < j && (s[i] == '0' ==> j == i + 1) &&
    var k := if j < |s| && s[j] == '.' then DigitsEnd(s, j + 1) else j;
    (j < |s| && s[j] == '.' ==> j + 1 < k) && (k == |s| || IsExponent(s, k))
  }

  predicate IsExponent(s: string, k: nat)
    requires k < |s|
  {
    (s[k] == 'e' || s[k] == 'E') &&
    var m := if k + 1 < |s| && (s[k + 1] == '+' || s[k + 1] == '-') then k + 2 else k + 1;
    m < |s| && DigitsEnd(s, m) == |s|
  }

  /** The text of a number, of true, of false or of null. */
  predicate IsAtom(s: string) {
    s == "true" || s == "false" || s == "null" || IsNumber(s)
  }

  lemma AtomIsWord(s: string)
    requires IsAtom(s)
    ensures IsWord(s)
  {
  }

  /** A name to look up. */
  predicate IsName(s: string) {
    Plain(s) && forall i | 0 <= i < |s| :: s[i] != ',' && s[i] != ':'
  }

  datatype Json = Str(text: string) | Atom(text: string) | Arr(items: Items) | Obj(fields: Fields)

  /** List items with the whitespace around them. */
  datatype Items = NoItems(space: string) | Item(before: string, value: Json, after: string, rest: Items)

  /** Object fields with the whitespace before the name, around the colon, and after the value. */
  datatype Fields =
    | NoFields(space: string)
    | Field(before: string, name: string, mid: string, gap: string, value: Json, after: string, rest: Fields)

  function Quoted(s: string): string {
    "\"" + s + "\""
  }

  function Print(v: Json): string {
    match v
    case Str(text) => Quoted(text)
    case Atom(text) => text
    case Arr(items) => "[" + (PrintItems(items) + "]")
    case Obj(fields) => "{" + (PrintFields(fields) + "}")
  }

  function PrintItems(items: Items): string {
    match items
    case NoItems(space) => space
    case Item(before, value, after, rest) =>
      before + (Print(value) + (after + (Comma(rest.Item?) + PrintItems(rest))))
  }

  function PrintFields(fields: Fields): string {
    match fields
    case NoFields(space) => space
    case Field(before, name, mid, gap, value, after, rest) =>
      var more := after + (Comma(rest.Field?) + PrintFields(rest));
      before + (Quoted(name) + (mid + (":" + (gap + (Print(value) + more)))))
  }

  function Comma(more: bool): string {
    if more then "," else ""
  }

  predicate Clean(v: Json) {
    match v
    case Str(text) => Plain(text)
    case Atom(text) => IsAtom(text)
    case Arr(items) => CleanItems(items)
    case Obj(fields) => CleanFields(fields)
  }

  predicate CleanItems(items: Items) {
    match items
    case NoItems(space) => Blank(space)
    case Item(before, value, after, rest) => Blank(before) && Clean(value) && Blank(after) && CleanItems(rest)
  }

  predicate CleanFields(fields: Fields) {
    match fields
    case NoFields(space) => Blank(space)
    case Field(before, name, mid, gap, value, after, rest) =>
      Blank(before) && Plain(name) && Blank(mid) && Blank(gap) && Clean(value) && Blank(after) && CleanFields(rest)
  }
}
