/** From a payload to the 14-dimensional vector, twice: from the decoded payload, and straight from the
  * bytes. What they produce is well formed.
  */
module Vectorizer {
  import opened FieldScan
  import opened Grid
  import opened Timestamps
  import opened Wrappers

  const DEFAULT_RISK: real := 0.5

  datatype Norm = Norm(
    maxAmount: real,
    maxInstallments: real,
    amountVsAvgRatio: real,
    maxMinutes: real,
    maxKm: real,
    maxTxCount24h: real,
    maxMerchantAvgAmount: real)

  predicate Positive(n: Norm) {
    && n.maxAmount > 0.0 && n.maxInstallments > 0.0 && n.amountVsAvgRatio > 0.0 && n.maxMinutes > 0.0
    && n.maxKm > 0.0 && n.maxTxCount24h > 0.0 && n.maxMerchantAvgAmount > 0.0
  }

  /** normalization.json */
  function StandardNorm(): (n: Norm)
    ensures Positive(n)
  {
    Norm(10000.0, 12.0, 10.0, 1440.0, 1000.0, 20.0, 10000.0)
  }

  /** An instant, as far as the vector looks at it: hour of the day, weekday from Sunday, and minutes on
    * a common scale. */
  datatype Time = Time(hour: int, weekday: int, minutes: real)

  predicate OnClock(t: Time) {
    0 <= t.hour <= 23 && 0 <= t.weekday <= 6
  }

  /** The library parsers: strconv for numbers, the instant of a date, and the parser of whole timestamps. */
  datatype Readers = Readers(
    float: string -> Option<real>,
    whole: string -> Option<int>,
    date: Civil -> Time,
    parse: string -> Time)

  datatype Last = Last(timestamp: string, km: real)

  datatype Payload = Payload(
    amount: real, installments: int, requestedAt: string,
    avgAmount: real, txCount24h: int, knownMerchants: seq<string>,
    merchantId: string, mcc: string, merchantAvg: real,
    isOnline: bool, cardPresent: bool, kmFromHome: real,
    last: Option<Last>)

  // --- the formulas ---

  datatype Trip = Trip(time: Time, km: real)

  /** What the fourteen dimensions are computed from. */
  datatype Inputs = Inputs(
    amount: real, installments: int, time: Time, last: Option<Trip>,
    avgAmount: real, txCount24h: int, known: bool, risk: real, merchantAvg: real,
    isOnline: bool, cardPresent: bool, kmFromHome: real)

  function Clamp(x: real): (r: real)
    ensures 0.0 <= r <= 1.0 && (0.0 <= x <= 1.0 ==> r == x)
  {
    if x < 0.0 then 0.0 else if x > 1.0 then 1.0 else x
  }

  /** A clamped quotient. */
  function Share(x: real, whole: real): (r: real)
    requires whole != 0.0
    ensures 0.0 <= r <= 1.0
  {
    Clamp(x / whole)
  }

  function BoolToFloat(b: bool): real {
    if b then 1.0 else 0.0
  }

  /** Monday is 0. */
  function WeekdayMonZero(t: Time): int {
    (t.weekday + 6) % 7
  }

  function VectorOf(n: Norm, x: Inputs): Vec
    requires Positive(n) && x.avgAmount != 0.0
  {
    [ Share(x.amount, n.maxAmount),
      Share(x.installments as real, n.maxInstallments),
      Share(x.amount / x.avgAmount, n.amountVsAvgRatio),
      x.time.hour as real / 23.0,
      WeekdayMonZero(x.time) as real / 6.0,
      if x.last.Some? then Share(x.time.minutes - x.last.value.time.minutes, n.maxMinutes) else -1.0,
      if x.last.Some? then Share(x.last.value.km, n.maxKm) else -1.0,
      Share(x.kmFromHome, n.maxKm),
      Share(x.txCount24h as real, n.maxTxCount24h),
      BoolToFloat(x.isOnline),
      BoolToFloat(x.cardPresent),
      BoolToFloat(!x.known),
      x.risk,
      Share(x.merchantAvg, n.maxMerchantAvgAmount) ]
  }

  /** Every vector has the shape the index relies on. */
  lemma VectorWellFormed(n: Norm, x: Inputs)
    requires Positive(n) && x.avgAmount != 0.0 && OnClock(x.time) && 0.0 <= x.risk <= 1.0
    ensures WellFormed(VectorOf(n, x))
    ensures VectorOf(n, x)[5] < 0.0 <==> x.last.None?
  {
    assert 0.0 <= x.time.hour as real / 23.0 <= 1.0;
    assert 0 <= WeekdayMonZero(x.time) <= 6;
    assert 0.0 <= WeekdayMonZero(x.time) as real / 6.0 <= 1.0;
  }

  /** Monday to Sunday are numbered 0 to 6. */
  lemma WeekStartsOnMonday(t: Time)
    requires OnClock(t)
    ensures WeekdayMonZero(t) == if t.weekday == 0 then 6 else t.weekday - 1
  {
  }

  // --- what a vector says ---

  /** `r` is the part that `x` has of `whole`, from nothing up to all of it. */
  predicate IsShare(r: real, x: real, whole: real) {
    && (x <= 0.0 ==> r == 0.0) && (x >= whole ==> r == 1.0)
    && (0.0 <= x <= whole ==> r * whole == x)
  }

  /** `r` is the part that `x` has of `ratio` times the average. */
  predicate IsRatio(r: real, x: real, avg: real, ratio: real) {
    && (avg > 0.0 ==> IsShare(r, x, ratio * avg))
    && (avg < 0.0 ==> IsShare(r, -x, ratio * -avg))
  }

  /** The hour, the weekday and the flags can be read back from a vector, and so can every amount, count,
    * distance and interval that is within its cap; the flags are also the bits of its bucket. */
  predicate Describes(v: Vec, n: Norm, x: Inputs)
    requires Positive(n)
  {
    && IsShare(v[0], x.amount, n.maxAmount)
    && IsShare(v[1], x.installments as real, n.maxInstallments)
    && IsRatio(v[2], x.amount, x.avgAmount, n.amountVsAvgRatio)
    && v[3] * 23.0 == x.time.hour as real
    && (1 <= x.time.weekday <= 6 ==> v[4] * 6.0 == (x.time.weekday - 1) as real)
    && (x.time.weekday == 0 ==> v[4] == 1.0)
    && (x.last.None? ==> v[5] == -1.0 && v[6] == -1.0)
    && (x.last.Some? ==>
          && IsShare(v[5], x.time.minutes - x.last.value.time.minutes, n.maxMinutes)
          && IsShare(v[6], x.last.value.km, n.maxKm))
    && IsShare(v[7], x.kmFromHome, n.maxKm)
    && IsShare(v[8], x.txCount24h as real, n.maxTxCount24h)
    && v[9] == (if x.isOnline then 1.0 else 0.0)
    && v[10] == (if x.cardPresent then 1.0 else 0.0)
    && v[11] == (if x.known then 0.0 else 1.0)
    && v[12] == x.risk
    && IsShare(v[13], x.merchantAvg, n.maxMerchantAvgAmount)
    && (Bit(BucketOf(v), 8) == 1 <==> x.isOnline) && (Bit(BucketOf(v), 4) == 1 <==> x.cardPresent)
    && (Bit(BucketOf(v), 2) == 1 <==> !x.known) && (Bit(BucketOf(v), 1) == 1 <==> x.last.None?)
  }

  lemma ShareIsShare(x: real, whole: real)
    requires whole > 0.0
    ensures IsShare(Share(x, whole), x, whole)
  {
    var y := x / whole;
    assert y * whole == x;
    if x >= whole {
      assert y >= 1.0;
    } else if x <= 0.0 {
      assert y <= 0.0;
    }
  }

  lemma ShareIsRatio(x: real, avg: real, ratio: real)
    requires ratio > 0.0 && avg != 0.0
    ensures IsRatio(Share(x / avg, ratio), x, avg, ratio)
  {
    var y := x / avg;
    ShareIsShare(y, ratio);
    assert y * avg == x;
    if avg > 0.0 {
      ScaledShare(Share(y, ratio), y, ratio, avg);
    } else {
      ScaledShare(Share(y, ratio), y, ratio, -avg);
      assert y * -avg == -x;
    }
  }

  lemma ScaledShare(r: real, x: real, whole: real, f: real)
    requires IsShare(r, x, whole) && f > 0.0 && whole > 0.0
    ensures IsShare(r, x * f, whole * f)
  {
    if x < 0.0 {
      assert x * f < 0.0;
    } else if x > whole {
      assert (x - whole) * f > 0.0;
    } else {
      assert r * whole * f == x * f;
      assert (whole - x) * f >= 0.0 && x * f >= 0.0;
    }
  }

  /** In particular under the constants the program is run with. */
  lemma VectorDescribes(n: Norm, x: Inputs)
    requires Positive(n) && x.avgAmount != 0.0
    ensures Describes(VectorOf(n, x), n, x)
    ensures n == StandardNorm() ==>
      Describes(VectorOf(n, x), Norm(10000.0, 12.0, 10.0, 1440.0, 1000.0, 20.0, 10000.0), x)
  {
    hide IsShare, IsRatio, Share;
    ShareIsShare(x.amount, n.maxAmount);
    ShareIsShare(x.installments as real, n.maxInstallments);
    ShareIsRatio(x.amount, x.avgAmount, n.amountVsAvgRatio);
    if x.last.Some? {
      ShareIsShare(x.time.minutes - x.last.value.time.minutes, n.maxMinutes);
      ShareIsShare(x.last.value.km, n.maxKm);
    }
    ShareIsShare(x.kmFromHome, n.maxKm);
    ShareIsShare(x.txCount24h as real, n.maxTxCount24h);
    ShareIsShare(x.merchantAvg, n.maxMerchantAvgAmount);
    BucketBits(VectorOf(n, x));
  }

  // --- from the decoded payload ---

  /** The result is not a number when the customer's average is zero. */
  datatype Result = Vector(v: Vec) | BadPayload | NotANumber

  function Risk(mcc: map<string, real>, code: string): real {
    if code in mcc then mcc[code] else DEFAULT_RISK
  }

  lemma RiskIsDefault(mcc: map<string, real>, code: string)
    ensures Risk(mcc, code) == if code in mcc then mcc[code] else 0.5
  {
  }

  predicate Risks(mcc: map<string, real>) {
    forall code | code in mcc :: 0.0 <= mcc[code] <= 1.0
  }

  lemma RiskInRange(mcc: map<string, real>, code: string)
    requires Risks(mcc)
    ensures 0.0 <= Risk(mcc, code) <= 1.0
  {
  }

  function InputsOf(p: Payload, time: string -> Time, mcc: map<string, real>): Inputs {
    Inputs(p.amount, p.installments, time(p.requestedAt),
      if p.last.Some? then Some(Trip(time(p.last.value.timestamp), p.last.value.km)) else None,
      p.avgAmount, p.txCount24h, p.merchantId in p.knownMerchants, Risk(mcc, p.mcc), p.merchantAvg,
      p.isOnline, p.cardPresent, p.kmFromHome)
  }

  function Finish(n: Norm, x: Inputs): Result
    requires Positive(n)
  {
    if x.avgAmount == 0.0 then NotANumber else Vector(VectorOf(n, x))
  }

  method Contains(list: seq<string>, s: string) returns (found: bool)
    ensures found <==> s in list
  {
    for i := 0 to |list|
      invariant s !in list[..i]
    {
      if list[i] == s {
        return true;
      }
    }
    found := false;
  }

  method Vectorize(n: Norm, mcc: map<string, real>, time: string -> Time, p: Payload) returns (r: Result)
    requires Positive(n)
    ensures r == Finish(n, InputsOf(p, time, mcc))
    ensures p.avgAmount != 0.0 <==> r.Vector?
    ensures r.Vector? ==>
      Describes(r.v, n, Inputs(amount := p.amount, installments := p.installments, time := time(p.requestedAt),
        last := if p.last.Some? then Some(Trip(time(p.last.value.timestamp), p.last.value.km)) else None,
        avgAmount := p.avgAmount, txCount24h := p.txCount24h, known := p.merchantId in p.knownMerchants,
        risk := if p.mcc in mcc then mcc[p.mcc] else 0.5, merchantAvg := p.merchantAvg,
        isOnline := p.isOnline, cardPresent := p.cardPresent, kmFromHome := p.kmFromHome))
    ensures r.Vector? && OnClock(time(p.requestedAt)) && Risks(mcc) ==> WellFormed(r.v)
  {
    hide Share, BoolToFloat, WeekdayMonZero, WellFormed, Risk, Risks, Describes;
    if p.avgAmount == 0.0 {
      return NotANumber;
    }
    // a [14]float64 is a value, updated once per dimension
    var out := seq(DIMS, _ => 0.0);
    out := out[0 := Share(p.amount, n.maxAmount)];
    out := out[1 := Share(p.installments as real, n.maxInstallments)];
    out := out[2 := Share(p.amount / p.avgAmount, n.amountVsAvgRatio)];
    var t := time(p.requestedAt);
    out := out[3 := t.hour as real / 23.0];
    out := out[4 := WeekdayMonZero(t) as real / 6.0];
    if p.last.Some? {
      var last := time(p.last.value.timestamp);
      out := out[5 := Share(t.minutes - last.minutes, n.maxMinutes)];
      out := out[6 := Share(p.last.value.km, n.maxKm)];
    } else {
      out := out[5 := -1.0];
      out := out[6 := -1.0];
    }
    out := out[7 := Share(p.kmFromHome, n.maxKm)];
    out := out[8 := Share(p.txCount24h as real, n.maxTxCount24h)];
    out := out[9 := BoolToFloat(p.isOnline)];
    out := out[10 := BoolToFloat(p.cardPresent)];
    var known := Contains(p.knownMerchants, p.merchantId);
    out := out[11 := BoolToFloat(!known)];
    out := out[12 := Risk(mcc, p.mcc)];
    out := out[13 := Share(p.merchantAvg, n.maxMerchantAvgAmount)];
    assert out == VectorOf(n, InputsOf(p, time, mcc));
    r := Vector(out);
    RiskIsDefault(mcc, p.mcc);
    VectorDescribes(n, InputsOf(p, time, mcc));
    if OnClock(t) && Risks(mcc) {
      RiskInRange(mcc, p.mcc);
      VectorWellFormed(n, InputsOf(p, time, mcc));
    }
  }

  // --- straight from the bytes ---

  function FastRisk(code: string): real {
    if |code| != 4 then DEFAULT_RISK
    else if code == "5411" then 0.15
    else if code == "5812" then 0.30
    else if code == "5912" then 0.20
    else if code == "5944" then 0.45
    else if code == "7801" then 0.80
    else if code == "7802" then 0.75
    else if code == "7995" then 0.85
    else if code == "4511" then 0.35
    else if code == "5311" then 0.25
    else if code == "5999" then 0.50
    else DEFAULT_RISK
  }

  /** mcc_risk.json */
  function RiskTable(): map<string, real> {
    map["5411" := 0.15, "5812" := 0.30, "5912" := 0.20, "5944" := 0.45, "7801" := 0.80,
        "7802" := 0.75, "7995" := 0.85, "4511" := 0.35, "5311" := 0.25, "5999" := 0.50]
  }

  lemma FastRiskIsTable(code: string)
    ensures FastRisk(code) == Risk(RiskTable(), code)
    ensures 0.0 <= Risk(RiskTable(), code) <= 1.0
  {
  }

  /** The ten codes with a risk of their own, and the risk of all others. */
  lemma RisksListed(code: string)
    ensures FastRisk("5411") == 0.15 && FastRisk("5812") == 0.30 && FastRisk("5912") == 0.20
    ensures FastRisk("5944") == 0.45 && FastRisk("7801") == 0.80 && FastRisk("7802") == 0.75
    ensures FastRisk("7995") == 0.85 && FastRisk("4511") == 0.35 && FastRisk("5311") == 0.25
    ensures FastRisk("5999") == 0.50
    ensures code !in {"5411", "5812", "5912", "5944", "7801", "7802", "7995", "4511", "5311", "5999"} ==>
      FastRisk(code) == 0.5
  {
  }

  function NumberField<T>(b: string, key: string, read: string -> Option<T>): Option<T> {
    var text :- TrimmedFieldText(b, key);
    read(text)
  }

  function ReadBool(text: string): (r: Option<bool>)
    ensures r.Some? <==> text == "true" || text == "false"
    ensures r.Some? ==> (r.value <==> text == "true")
  {
    if text == "true" then Some(true) else if text == "false" then Some(false) else None
  }

  function TimeField(b: string, key: string, rd: Readers): Option<Time> {
    var text :- StringFieldText(b, key);
    var civil :- ParseZ(text);
    Some(rd.date(civil))
  }

  /** The last transaction: null, or an object with a timestamp and a distance. */
  function ScanLast(b: string, rd: Readers): Option<Option<Trip>> {
    var raw :- FieldText(b, "last_transaction");
    if "null" <= raw[Until(raw, NotSpace, 0)..] then Some(None)
    else
      var obj :- ObjectText(raw);
      var time :- TimeField(obj, "timestamp", rd);
      var km :- NumberField(obj, "km_from_current", rd.float);
      Some(Some(Trip(time, km)))
  }

  /** What VectorizeJSON reads out of the payload, field by field. */
  function ScanInputs(b: string, rd: Readers): Option<Inputs> {
    var tx :- ObjectFieldText(b, "transaction");
    var customer :- ObjectFieldText(b, "customer");
    var merchant :- ObjectFieldText(b, "merchant");
    var terminal :- ObjectFieldText(b, "terminal");
    var amount :- NumberField(tx, "amount", rd.float);
    var installments :- NumberField(tx, "installments", rd.whole);
    var time :- TimeField(tx, "requested_at", rd);
    var avgAmount :- NumberField(customer, "avg_amount", rd.float);
    var txCount24h :- NumberField(customer, "tx_count_24h", rd.whole);
    var knownMerchants :- FieldText(customer, "known_merchants");
    var merchantId :- StringFieldText(merchant, "id");
    var mcc :- StringFieldText(merchant, "mcc");
    var merchantAvg :- NumberField(merchant, "avg_amount", rd.float);
    var isOnline :- NumberField(terminal, "is_online", ReadBool);
    var cardPresent :- NumberField(terminal, "card_present", ReadBool);
    var kmFromHome :- NumberField(terminal, "km_from_home", rd.float);
    var last :- ScanLast(b, rd);
    Some(Inputs(amount, installments, time, last, avgAmount, txCount24h,
      HasToken(knownMerchants, merchantId, 0), FastRisk(mcc), merchantAvg, isOnline, cardPresent, kmFromHome))
  }

  method ReadNumber<T>(b: string, key: string, read: string -> Option<T>) returns (r: Option<T>)
    ensures r == NumberField(b, key, read)
  {
    var raw :- RawField(b, key);
    r := read(Trim(raw));
  }

  method ReadTime(b: string, key: string, rd: Readers) returns (r: Option<Time>)
    ensures r == TimeField(b, key, rd)
  {
    var text :- StringField(b, key);
    var civil :- ParseRfc3339Z(text);
    r := Some(rd.date(civil));
  }

  method ReadLast(b: string, rd: Readers) returns (r: Option<Option<Trip>>)
    ensures r == ScanLast(b, rd)
  {
    var raw :- RawField(b, "last_transaction");
    var i := SkipSpaceIndex(raw, 0);
    if "null" <= raw[i..] {
      return Some(None);
    }
    var obj :- ObjectFromValue(raw);
    var time :- ReadTime(obj, "timestamp", rd);
    var km :- ReadNumber(obj, "km_from_current", rd.float);
    r := Some(Some(Trip(time, km)));
  }

  /** Every date has an hour and a weekday. */
  ghost predicate Clocked(rd: Readers) {
    forall c :: OnClock(rd.date(c))
  }

  lemma ScannedInRange(b: string, rd: Readers)
    requires Clocked(rd) && ScanInputs(b, rd).Some?
    ensures var x := ScanInputs(b, rd).value; OnClock(x.time) && 0.0 <= x.risk <= 1.0
  {
    hide FieldText, ObjectFieldText, StringFieldText, NumberField, ScanLast, HasToken, OnClock, ParseZ;
  }

  /** VectorizeJSON */
  method VectorizeJson(n: Norm, b: string, rd: Readers) returns (r: Result)
    requires Positive(n)
    ensures r == match ScanInputs(b, rd) { case None => BadPayload case Some(x) => Finish(n, x) }
    ensures r.Vector? ==> ScanInputs(b, rd).Some? && Describes(r.v, n, ScanInputs(b, rd).value)
    ensures Clocked(rd) && r.Vector? ==> WellFormed(r.v)
  {
    hide Share, BoolToFloat, WeekdayMonZero, FastRisk, FieldText, ObjectFieldText, StringFieldText, NumberField,
      TimeField, ScanLast, VectorOf, WellFormed, Clocked, Describes;
    var x := ReadInputs(b, rd);
    if x.None? {
      return BadPayload;
    }
    if x.value.avgAmount == 0.0 {
      return NotANumber;
    }
    var v := FillVector(n, x.value);
    r := Vector(v);
    VectorDescribes(n, x.value);
    if Clocked(rd) {
      ScannedInRange(b, rd);
      VectorWellFormed(n, x.value);
    }
  }

  /** The field reads, in the order the program makes them. */
  method ReadInputs(b: string, rd: Readers) returns (r: Option<Inputs>)
    ensures r == ScanInputs(b, rd)
  {
    hide FastRisk, FieldText, ObjectFieldText, StringFieldText, NumberField, TimeField, ScanLast, HasToken;
    var tx :- ObjectField(b, "transaction");
    var customer :- ObjectField(b, "customer");
    var merchant :- ObjectField(b, "merchant");
    var terminal :- ObjectField(b, "terminal");
    var amount :- ReadNumber(tx, "amount", rd.float);
    var installments :- ReadNumber(tx, "installments", rd.whole);
    var t :- ReadTime(tx, "requested_at", rd);
    var avgAmount :- ReadNumber(customer, "avg_amount", rd.float);
    var txCount24h :- ReadNumber(customer, "tx_count_24h", rd.whole);
    var knownMerchants :- RawField(customer, "known_merchants");
    var merchantId :- StringField(merchant, "id");
    var mcc :- StringField(merchant, "mcc");
    var merchantAvg :- ReadNumber(merchant, "avg_amount", rd.float);
    var isOnline :- ReadNumber(terminal, "is_online", ReadBool);
    var cardPresent :- ReadNumber(terminal, "card_present", ReadBool);
    var kmFromHome :- ReadNumber(terminal, "km_from_home", rd.float);
    var last :- ReadLast(b, rd);
    var known := ContainsQuoted(knownMerchants, merchantId);
    r := Some(Inputs(amount, installments, t, last, avgAmount, txCount24h, known, FastRisk(mcc), merchantAvg,
      isOnline, cardPresent, kmFromHome));
  }

  /** The fourteen assignments. */
  method FillVector(n: Norm, x: Inputs) returns (out: Vec)
    requires Positive(n) && x.avgAmount != 0.0
    ensures out == VectorOf(n, x)
  {
    hide Share, BoolToFloat, WeekdayMonZero;
    out := seq(DIMS, _ => 0.0);
    out := out[0 := Share(x.amount, n.maxAmount)];
    out := out[1 := Share(x.installments as real, n.maxInstallments)];
    out := out[2 := Share(x.amount / x.avgAmount, n.amountVsAvgRatio)];
    out := out[3 := x.time.hour as real / 23.0];
    out := out[4 := WeekdayMonZero(x.time) as real / 6.0];
    if x.last.None? {
      out := out[5 := -1.0][6 := -1.0];
    } else {
      out := out[5 := Share(x.time.minutes - x.last.value.time.minutes, n.maxMinutes)];
      out := out[6 := Share(x.last.value.km, n.maxKm)];
    }
    out := out[7 := Share(x.kmFromHome, n.maxKm)];
    out := out[8 := Share(x.txCount24h as real, n.maxTxCount24h)];
    out := out[9 := BoolToFloat(x.isOnline)];
    out := out[10 := BoolToFloat(x.cardPresent)];
    out := out[11 := BoolToFloat(!x.known)];
    out := out[12 := x.risk];
    out := out[13 := Share(x.merchantAvg, n.maxMerchantAvgAmount)];
    assert out == VectorOf(n, x);
  }
}
