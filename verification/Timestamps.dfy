/** The fast reader of timestamps. It takes the digits at fixed places and looks at three of the six
  * separators, so it reads back every printed timestamp, and some other texts too.
  */
module Timestamps {
  import opened Json
  import opened Wrappers

  datatype Civil = Civil(year: int, month: int, day: int, hour: int, minute: int, second: int)

  /** The number that a run of digits writes, or -1. */
  function Number(s: string): int {
    if s == "" then 0
    else
      var front, c := Number(s[..|s| - 1]), s[|s| - 1];
      if front < 0 || !IsDigit(c) then -1 else 10 * front + (c as int - '0' as int)
  }

  /** The digits in [lo, hi), or -1. */
  function DigitsAt(b: string, lo: nat, hi: nat): int
    requires lo < hi
  {
    if hi <= |b| then Number(b[lo..hi]) else -1
  }

  /** A timestamp without a zone, read from fixed places. */
  function ParseZ(b: string): Option<Civil> {
    if |b| < 20 || b[4] != '-' || b[7] != '-' || b[10] != 'T' then None
    else
      var c := Civil(Number(b[0..4]), Number(b[5..7]), Number(b[8..10]), Number(b[11..13]), Number(b[14..16]),
        Number(b[17..19]));
      if c.year < 0 || c.month < 1 || c.day < 1 || c.hour < 0 || c.minute < 0 || c.second < 0 then None else Some(c)
  }

  // --- the loop ---

  lemma NoNumber(s: string, m: nat)
    requires m <= |s| && Number(s[..m]) < 0
    ensures Number(s) < 0
    decreases |s| - m
  {
    if m < |s| {
      assert s[..m + 1][..m] == s[..m];
      NoNumber(s, m + 1);
    } else {
      assert s[..m] == s;
    }
  }

  /** digits */
  method Digits(b: string, lo: nat, hi: nat) returns (n: int)
    requires lo < hi
    ensures n == DigitsAt(b, lo, hi)
  {
    n := 0;
    for i := lo to hi
      invariant 0 <= n && (i <= |b| || i == lo)
      invariant i <= |b| ==> n == Number(b[lo..i])
    {
      if i >= |b| {
        return -1;
      }
      assert b[lo..i + 1][..i - lo] == b[lo..i];
      if b[i] < '0' || b[i] > '9' {
        if hi <= |b| {
          assert b[lo..hi][..i + 1 - lo] == b[lo..i + 1];
          NoNumber(b[lo..hi], i + 1 - lo);
          NumberRange(b[lo..hi]);
        }
        return -1;
      }
      n := n * 10 + (b[i] as int - '0' as int);
    }
  }

  /** parseRFC3339Z */
  method ParseRfc3339Z(b: string) returns (r: Option<Civil>)
    ensures r == ParseZ(b)
  {
    if |b| < 20 || b[4] != '-' || b[7] != '-' || b[10] != 'T' {
      return None;
    }
    var year := Digits(b, 0, 4);
    var month := Digits(b, 5, 7);
    var day := Digits(b, 8, 10);
    var hour := Digits(b, 11, 13);
    var minute := Digits(b, 14, 16);
    var second := Digits(b, 17, 19);
    if year < 0 || month < 1 || day < 1 || hour < 0 || minute < 0 || second < 0 {
      return None;
    }
    r := Some(Civil(year, month, day, hour, minute, second));
  }

  // --- printing ---

  /** `n` in `w` digits, leading zeros included. */
  function Padded(n: nat, w: nat): (s: string)
    ensures |s| == w
  {
    if w == 0 then "" else Padded(n / 10, w - 1) + [('0' as int + n % 10) as char]
  }

  function Pow10(w: nat): nat {
    if w == 0 then 1 else 10 * Pow10(w - 1)
  }

  /** YYYY-MM-DDTHH:MM:SSZ */
  function PrintTime(c: Civil): (s: string)
    requires Printable(c)
    ensures |s| == 20
  {
    Padded(c.year, 4) + "-" + Padded(c.month, 2) + "-" + Padded(c.day, 2) + "T"
    + Padded(c.hour, 2) + ":" + Padded(c.minute, 2) + ":" + Padded(c.second, 2) + "Z"
  }

  predicate Printable(c: Civil) {
    && 0 <= c.year < 10000 && 0 <= c.month < 100 && 0 <= c.day < 100
    && 0 <= c.hour < 100 && 0 <= c.minute < 100 && 0 <= c.second < 100
  }

  function DaysIn(year: int, month: int): int {
    if month == 2 then if year % 4 == 0 && (year % 100 != 0 || year % 400 == 0) then 29 else 28
    else if month in {4, 6, 9, 11} then 30
    else 31
  }

  /** A date of the calendar and a time of day. */
  predicate Valid(c: Civil) {
    && 0 <= c.year < 10000 && 1 <= c.month <= 12 && 1 <= c.day <= DaysIn(c.year, c.month)
    && 0 <= c.hour < 24 && 0 <= c.minute < 60 && 0 <= c.second < 60
  }

  /** A number is never below -1, and in `w` digits it stays below 10^w. */
  lemma {:induction false} NumberRange(s: string)
    ensures -1 <= Number(s) < Pow10(|s|)
  {
    if s != "" {
      NumberRange(s[..|s| - 1]);
    }
  }

  /** A text writes `n` exactly when it is `n` padded to its length. */
  lemma {:induction false} NumberIffPadded(s: string, n: nat)
    ensures Number(s) == n <==> n < Pow10(|s|) && s == Padded(n, |s|)
  {
    NumberRange(s);
    if s != "" {
      var front, c := s[..|s| - 1], s[|s| - 1];
      NumberIffPadded(front, n / 10);
      NumberRange(front);
      assert s == front + [c];
      var d := ('0' as int + n % 10) as char;
      assert Padded(n, |s|)[..|s| - 1] == Padded(n / 10, |s| - 1);
      assert Padded(n, |s|)[|s| - 1] == d;
    }
  }

  /** The places the reader looks at. */
  predicate Looked(i: int) {
    0 <= i < 19 && i != 13 && i != 16
  }

  /** The parts of a printed timestamp. */
  lemma PrintedParts(c: Civil)
    requires Printable(c)
    ensures var p := PrintTime(c);
      && p[0..4] == Padded(c.year, 4) && p[5..7] == Padded(c.month, 2) && p[8..10] == Padded(c.day, 2)
      && p[11..13] == Padded(c.hour, 2) && p[14..16] == Padded(c.minute, 2) && p[17..19] == Padded(c.second, 2)
      && p[4] == '-' && p[7] == '-' && p[10] == 'T'
  {
    hide Padded;
  }

  lemma PowersOfTen()
    ensures Pow10(2) == 100 && Pow10(4) == 10000
  {
  }

  /** The parts that are read. */
  predicate SameParts(b: string, p: string)
    requires |b| >= 20 && |p| >= 20
  {
    && b[0..4] == p[0..4] && b[5..7] == p[5..7] && b[8..10] == p[8..10]
    && b[11..13] == p[11..13] && b[14..16] == p[14..16] && b[17..19] == p[17..19]
    && b[4] == p[4] && b[7] == p[7] && b[10] == p[10]
  }

  lemma SamePlaces(b: string, p: string)
    requires |b| >= 20 && |p| >= 20
    ensures SameParts(b, p) <==> forall i | Looked(i) :: b[i] == p[i]
  {
    if SameParts(b, p) {
      forall i | Looked(i)
        ensures b[i] == p[i]
      {
        PlaceOf(b, p, i);
      }
    }
  }

  lemma PlaceOf(b: string, p: string, i: int)
    requires |b| >= 20 && |p| >= 20 && SameParts(b, p) && Looked(i)
    ensures b[i] == p[i]
  {
    var part := if i <= 4 then 0 else if i <= 7 then 1 else if i <= 10 then 2 else if i < 13 then 3
      else if i < 16 then 4 else 5;
    var lo, hi := [0, 5, 8, 11, 14, 17][part], [4, 7, 10, 13, 16, 19][part];
    if i < hi {
      assert b[lo..hi][i - lo] == p[lo..hi][i - lo];
    }
  }

  lemma ReadsPrinted(b: string, c: Civil)
    requires |b| >= 20 && Printable(c)
    ensures SameParts(b, PrintTime(c)) <==>
      && Number(b[0..4]) == c.year && Number(b[5..7]) == c.month && Number(b[8..10]) == c.day
      && Number(b[11..13]) == c.hour && Number(b[14..16]) == c.minute && Number(b[17..19]) == c.second
      && b[4] == '-' && b[7] == '-' && b[10] == 'T'
  {
    hide Number, Padded, PrintTime, Pow10;
    PowersOfTen();
    PrintedParts(c);
    NumberIffPadded(b[0..4], c.year);
    NumberIffPadded(b[5..7], c.month);
    NumberIffPadded(b[8..10], c.day);
    NumberIffPadded(b[11..13], c.hour);
    NumberIffPadded(b[14..16], c.minute);
    NumberIffPadded(b[17..19], c.second);
  }

  lemma ReadIsPrintable(b: string)
    requires ParseZ(b).Some?
    ensures Printable(ParseZ(b).value)
  {
    hide Number, Pow10;
    PowersOfTen();
    NumberRange(b[0..4]);
    NumberRange(b[5..7]);
    NumberRange(b[8..10]);
    NumberRange(b[11..13]);
    NumberRange(b[14..16]);
    NumberRange(b[17..19]);
  }

  /** The reader accepts `b` as `c` exactly when `b` has the printed characters of `c` in all places but the
    * two colons and everything after the seconds; a month or a day 0 is refused. */
  lemma ParseIff(b: string, c: Civil)
    ensures ParseZ(b) == Some(c) <==>
      && |b| >= 20 && Printable(c) && c.month >= 1 && c.day >= 1
      && forall i | Looked(i) :: b[i] == PrintTime(c)[i]
  {
    hide Number, PrintTime;
    if ParseZ(b) == Some(c) {
      ReadIsPrintable(b);
    }
    if |b| >= 20 && Printable(c) {
      ReadsPrinted(b, c);
      SamePlaces(b, PrintTime(c));
    }
  }

  /** Every printed timestamp with a month and a day is read back. */
  lemma ParseOfPrint(c: Civil)
    requires Printable(c) && c.month >= 1 && c.day >= 1
    ensures ParseZ(PrintTime(c)) == Some(c)
  {
    ParseIff(PrintTime(c), c);
  }

  lemma {:induction false} PaddedDigits(n: nat, w: nat)
    ensures forall i | 0 <= i < w :: IsDigit(Padded(n, w)[i])
  {
    if w > 0 {
      PaddedDigits(n / 10, w - 1);
    }
  }

  /** A printed timestamp can stand in a payload as it is. */
  lemma PlainTime(c: Civil)
    requires Printable(c)
    ensures Plain(PrintTime(c))
  {
    hide Padded;
    PaddedDigits(c.year, 4);
    PaddedDigits(c.month, 2);
    PaddedDigits(c.day, 2);
    PaddedDigits(c.hour, 2);
    PaddedDigits(c.minute, 2);
    PaddedDigits(c.second, 2);
  }
}
