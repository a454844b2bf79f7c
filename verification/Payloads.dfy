/** The fast path refines the plain one: scanning the bytes of a printed payload gives the inputs of the
  * decoded payload, whatever the key order and the whitespace, when every name that is read occurs once in
  * its object, no colon comes between its first mention and its own, and both read the timestamps alike.
  * Without the second condition it need not, without the third it does not.
  */
module Payloads {
  import opened FieldFacts
  import opened FieldScan
  import opened FirstMention
  import opened Json
  import opened Timestamps
  import opened Vectorizer
  import opened Wrappers

  // --- the plain reading of a payload ---

  /** Letters that differ in case only become equal; two of the letters lie outside ASCII. */
  function Fold(c: char): char {
    if 'A' <= c <= 'Z' then (c as int + 32) as char
    else if c == '\U{017F}' then 's'
    else if c == '\U{212A}' then 'k'
    else c
  }

  predicate SameName(a: string, b: string) {
    |a| == |b| && forall i | 0 <= i < |a| :: Fold(a[i]) == Fold(b[i])
  }

  /** The value of the last field called `key` up to case. */
  function Get(fields: Fields, key: string): Option<Json> {
    if fields.NoFields? then None
    else
      var later := Get(fields.rest, key);
      if later.Some? then later else if SameName(fields.name, key) then Some(fields.value) else None
  }

  function AtomOf(fields: Fields, key: string): Option<string> {
    var v :- Get(fields, key);
    if v.Atom? then Some(v.text) else None
  }

  function TextOf(fields: Fields, key: string): Option<string> {
    var v :- Get(fields, key);
    if v.Str? then Some(v.text) else None
  }

  function FieldsOf(fields: Fields, key: string): Option<Fields> {
    var v :- Get(fields, key);
    if v.Obj? then Some(v.fields) else None
  }

  function StringsOf(fields: Fields, key: string): Option<seq<string>> {
    var v :- Get(fields, key);
    if v.Arr? && AllStrings(v.items) then Some(Texts(v.items)) else None
  }

  function NumberOf<T>(fields: Fields, key: string, read: string -> Option<T>): Option<T> {
    var text :- AtomOf(fields, key);
    read(text)
  }

  function LastOf(doc: Fields, rd: Readers): Option<Option<Last>> {
    var v :- Get(doc, "last_transaction");
    if v == Atom("null") then Some(None)
    else if !v.Obj? then None
    else
      var timestamp :- TextOf(v.fields, "timestamp");
      var km :- NumberOf(v.fields, "km_from_current", rd.float);
      Some(Some(Last(timestamp, km)))
  }

  function Decode(doc: Fields, rd: Readers): Option<Payload> {
    var tx :- FieldsOf(doc, "transaction");
    var customer :- FieldsOf(doc, "customer");
    var merchant :- FieldsOf(doc, "merchant");
    var terminal :- FieldsOf(doc, "terminal");
    var amount :- NumberOf(tx, "amount", rd.float);
    var installments :- NumberOf(tx, "installments", rd.whole);
    var requestedAt :- TextOf(tx, "requested_at");
    var avgAmount :- NumberOf(customer, "avg_amount", rd.float);
    var txCount24h :- NumberOf(customer, "tx_count_24h", rd.whole);
    var knownMerchants :- StringsOf(customer, "known_merchants");
    var merchantId :- TextOf(merchant, "id");
    var mcc :- TextOf(merchant, "mcc");
    var merchantAvg :- NumberOf(merchant, "avg_amount", rd.float);
    var isOnline :- NumberOf(terminal, "is_online", ReadBool);
    var cardPresent :- NumberOf(terminal, "card_present", ReadBool);
    var kmFromHome :- NumberOf(terminal, "km_from_home", rd.float);
    var last :- LastOf(doc, rd);
    Some(Payload(amount, installments, requestedAt, avgAmount, txCount24h, knownMerchants, merchantId, mcc,
      merchantAvg, isOnline, cardPresent, kmFromHome, last))
  }

  // --- when the scan agrees ---

  /** How many fields are called `key` up to case. */
  function Times(fields: Fields, key: string): nat {
    if fields.NoFields? then 0 else Times(fields.rest, key) + if SameName(fields.name, key) then 1 else 0
  }

  /** One field is called `key`, and the scanner reaches it. */
  predicate Clear(fields: Fields, key: string) {
    Times(fields, key) == 1 && Reached(fields, key)
  }

  predicate ClearNames(doc: Fields) {
    && Clear(doc, "transaction") && Clear(doc, "customer") && Clear(doc, "merchant") && Clear(doc, "terminal")
    && Clear(doc, "last_transaction")
  }

  predicate ClearTransaction(doc: Fields) {
    var f := FieldsOf(doc, "transaction");
    f.Some? && Clear(f.value, "amount") && Clear(f.value, "installments") && Clear(f.value, "requested_at")
  }

  /** All but the average. */
  predicate ClearCustomer(doc: Fields) {
    var f := FieldsOf(doc, "customer");
    f.Some? && Clear(f.value, "tx_count_24h") && Clear(f.value, "known_merchants")
  }

  predicate ClearMerchant(doc: Fields) {
    var f := FieldsOf(doc, "merchant");
    f.Some? && Clear(f.value, "id") && Clear(f.value, "mcc") && Clear(f.value, "avg_amount")
  }

  predicate ClearTerminal(doc: Fields) {
    var f := FieldsOf(doc, "terminal");
    f.Some? && Clear(f.value, "is_online") && Clear(f.value, "card_present") && Clear(f.value, "km_from_home")
  }

  predicate ClearLast(doc: Fields) {
    var v := Get(doc, "last_transaction");
    v.Some? && (v.value.Obj? ==> Clear(v.value.fields, "timestamp") && Clear(v.value.fields, "km_from_current"))
  }

  /** All names that are read, the customer's average apart. */
  predicate ClearButAverage(doc: Fields) {
    ClearNames(doc) && ClearTransaction(doc) && ClearCustomer(doc) && ClearMerchant(doc) && ClearTerminal(doc)
      && ClearLast(doc)
  }

  predicate ClearPayload(doc: Fields) {
    ClearButAverage(doc) && Clear(FieldsOf(doc, "customer").value, "avg_amount")
  }

  // --- timestamps ---

  function FastTime(text: string, rd: Readers): Option<Time> {
    var civil :- ParseZ(text);
    Some(rd.date(civil))
  }

  function FastLast(last: Option<Last>, rd: Readers): Option<Option<Trip>> {
    if last.None? then Some(None)
    else
      var time :- FastTime(last.value.timestamp, rd);
      Some(Some(Trip(time, last.value.km)))
  }

  /** The decoded inputs, with `avg` for the customer's average and the fast reader's times. */
  function FastInputs(p: Payload, avg: real, rd: Readers): Option<Inputs> {
    var time :- FastTime(p.requestedAt, rd);
    var last :- FastLast(p.last, rd);
    Some(InputsOf(p, rd.parse, RiskTable()).(avgAmount := avg, time := time, last := last))
  }

  /** Both ways of reading a timestamp agree on the payload's own. */
  predicate TimesAgree(p: Payload, rd: Readers) {
    && FastTime(p.requestedAt, rd) == Some(rd.parse(p.requestedAt))
    && (p.last.Some? ==> FastTime(p.last.value.timestamp, rd) == Some(rd.parse(p.last.value.timestamp)))
  }

  lemma FastIffTimesAgree(p: Payload, rd: Readers)
    ensures FastInputs(p, p.avgAmount, rd) == Some(InputsOf(p, rd.parse, RiskTable())) <==> TimesAgree(p, rd)
  {
    hide RiskTable, Risk, ParseZ;
  }

  /** The text prints a date of the calendar. */
  ghost predicate Canonical(text: string) {
    exists c :: Valid(c) && text == PrintTime(c)
  }

  ghost predicate CanonicalTimes(p: Payload) {
    Canonical(p.requestedAt) && (p.last.Some? ==> Canonical(p.last.value.timestamp))
  }

  /** The parser of whole timestamps reads printed ones as the instant of their date. */
  ghost predicate ParsesPrinted(rd: Readers) {
    forall c | Valid(c) :: rd.parse(PrintTime(c)) == rd.date(c)
  }

  lemma PrintedTime(text: string, rd: Readers)
    requires Canonical(text) && ParsesPrinted(rd)
    ensures FastTime(text, rd) == Some(rd.parse(text))
  {
    hide ParseZ, PrintTime;
    var c :| Valid(c) && text == PrintTime(c);
    ParseOfPrint(c);
  }

  /** They agree on printed dates. */
  lemma PrintedTimesAgree(p: Payload, rd: Readers)
    requires CanonicalTimes(p) && ParsesPrinted(rd)
    ensures TimesAgree(p, rd)
  {
    hide Canonical, ParsesPrinted, FastTime;
    PrintedTime(p.requestedAt, rd);
    if p.last.Some? {
      PrintedTime(p.last.value.timestamp, rd);
    }
  }

  // --- one field ---

  lemma {:induction false} NotNamed(fields: Fields, key: string)
    requires Times(fields, key) == 0
    ensures Get(fields, key).None? && !Has(fields, key)
    decreases fields
  {
    if fields.Field? {
      NotNamed(fields.rest, key);
    }
  }

  lemma {:induction false} GetIsOwn(fields: Fields, key: string)
    requires Times(fields, key) == 1 && Has(fields, key)
    ensures Get(fields, key) == Some(Own(fields, key))
    decreases fields
  {
    if fields.name == key {
      NotNamed(fields.rest, key);
    } else {
      if Times(fields.rest, key) == 0 {
        NotNamed(fields.rest, key);
      }
      GetIsOwn(fields.rest, key);
    }
  }

  lemma {:induction false} GetClean(fields: Fields, key: string)
    requires CleanFields(fields) && Get(fields, key).Some?
    ensures Clean(Get(fields, key).value)
    decreases fields
  {
    if Get(fields.rest, key).Some? {
      GetClean(fields.rest, key);
    }
  }

  /** What the scanner returns for a clear field. */
  lemma RawOfGet(pre: string, fields: Fields, post: string, key: string)
    requires Blank(pre) && Blank(post) && CleanFields(fields) && IsName(key) && Clear(fields, key)
    ensures Get(fields, key).Some? && Clean(Get(fields, key).value)
    ensures RawOf(FieldText(pre + Print(Obj(fields)) + post, key), Get(fields, key).value)
  {
    hide FieldText, Print, RawOf, IsName, Arrival, Has, Times, CleanFields;
    GetIsOwn(fields, key);
    GetClean(fields, key);
    ArrivalDecides(fields, key, NotSeen);
    FieldTextOfPrinted(pre, fields, post, key);
  }

  lemma AtomScanned(pre: string, fields: Fields, post: string, key: string)
    requires Blank(pre) && Blank(post) && CleanFields(fields) && IsName(key) && Clear(fields, key)
      && AtomOf(fields, key).Some?
    ensures TrimmedFieldText(pre + Print(Obj(fields)) + post, key) == Some(AtomOf(fields, key).value)
  {
    hide FieldText, CleanFields, IsName, Trim, IsAtom, Clear;
    RawOfGet(pre, fields, post, key);
    AtomTrimmed(FieldText(pre + Print(Obj(fields)) + post, key), AtomOf(fields, key).value);
  }

  lemma AtomTrimmed(r: Option<string>, text: string)
    requires RawOf(r, Atom(text)) && IsAtom(text)
    ensures r.Some? && Trim(r.value) == text
  {
    hide Trim, IsAtom;
    var blank := r.value[|text|..];
    assert r.value == text + blank;
    AtomIsWord(text);
    TrimPadded("", text, blank);
    assert "" + (text + blank) == text + blank;
  }

  /** The scanner returns the string under a clear name, and refuses a value of another kind. */
  lemma TextScanned(pre: string, fields: Fields, post: string, key: string)
    requires Blank(pre) && Blank(post) && CleanFields(fields) && IsName(key) && Clear(fields, key)
    ensures StringFieldText(pre + Print(Obj(fields)) + post, key) == TextOf(fields, key)
  {
    RawOfGet(pre, fields, post, key);
    var v := Get(fields, key).value;
    var r := FieldText(pre + Print(Obj(fields)) + post, key);
    hide FieldText, CleanFields, IsName, Clear, Clean, Blank;
    if v.Str? {
      assert Quoted(v.text)[1..|Quoted(v.text)| - 1] == v.text;
    } else {
      FirstOf(v);
      assert r.value[0] == Print(v)[0];
    }
  }

  /** The first character of a printed value tells its kind. */
  lemma FirstOf(v: Json)
    requires Clean(v)
    ensures Print(v) != "" && !IsSpace(Print(v)[0])
    ensures Print(v)[0] == '"' <==> v.Str?
    ensures Print(v)[0] == '{' <==> v.Obj?
  {
    if v.Atom? {
      AtomIsWord(v.text);
    }
  }

  /** The same for objects. */
  lemma ObjectScanned(pre: string, fields: Fields, post: string, key: string)
    requires Blank(pre) && Blank(post) && CleanFields(fields) && IsName(key) && Clear(fields, key)
    ensures FieldsOf(fields, key).Some? ==> CleanFields(FieldsOf(fields, key).value)
    ensures ObjectFieldText(pre + Print(Obj(fields)) + post, key) ==
      if FieldsOf(fields, key).Some? then Some(Print(Obj(FieldsOf(fields, key).value))) else None
  {
    hide FieldText, IsName, ObjectText, Clear, CloseFrom;
    RawOfGet(pre, fields, post, key);
    var v := Get(fields, key).value;
    if v.Obj? {
      ObjectOfPrinted(v.fields);
    } else {
      FirstOf(v);
      NoObject(FieldText(pre + Print(Obj(fields)) + post, key).value);
    }
  }

  lemma NoObject(s: string)
    requires s != "" && !IsSpace(s[0]) && s[0] != '{'
    ensures ObjectText(s) == None
  {
    assert Until(s, NotSpace, 0) == 0;
    assert s[0..] == s;
  }

  lemma ObjectOfPrinted(fields: Fields)
    requires CleanFields(fields)
    ensures ObjectText(Print(Obj(fields))) == Some(Print(Obj(fields)))
  {
    hide Neutral, CloseFrom;
    var s := Print(Obj(fields));
    assert s + "" == s;
    NeutralFields(fields, '{', '}');
    ClosesPair(PrintFields(fields), "", '{', '}');
    ObjectTaken(s);
    assert s[..|s|] == s;
  }

  // --- objects inside the payload ---

  /** An inner object is scanned on its own. */
  lemma Alone(s: string)
    ensures "" + s + "" == s
  {
  }

  lemma NumberScanned<T>(fields: Fields, key: string, read: string -> Option<T>)
    requires CleanFields(fields) && IsName(key) && Clear(fields, key) && NumberOf(fields, key, read).Some?
    ensures NumberField(Print(Obj(fields)), key, read) == NumberOf(fields, key, read)
  {
    hide TrimmedFieldText, Print, CleanFields, IsName, Clear;
    Alone(Print(Obj(fields)));
    AtomScanned("", fields, "", key);
  }

  lemma InnerText(fields: Fields, key: string)
    requires CleanFields(fields) && IsName(key) && Clear(fields, key)
    ensures StringFieldText(Print(Obj(fields)), key) == TextOf(fields, key)
  {
    hide StringFieldText, Print, CleanFields, IsName, Clear;
    Alone(Print(Obj(fields)));
    TextScanned("", fields, "", key);
  }

  lemma TimeScanned(fields: Fields, key: string, rd: Readers)
    requires CleanFields(fields) && IsName(key) && Clear(fields, key) && TextOf(fields, key).Some?
    ensures TimeField(Print(Obj(fields)), key, rd) == FastTime(TextOf(fields, key).value, rd)
  {
    hide StringFieldText, Print, CleanFields, IsName, Clear, ParseZ;
    InnerText(fields, key);
  }

  lemma KnownScanned(fields: Fields, key: string, target: string)
    requires CleanFields(fields) && IsName(key) && Clear(fields, key) && StringsOf(fields, key).Some?
    ensures FieldText(Print(Obj(fields)), key).Some?
    ensures HasToken(FieldText(Print(Obj(fields)), key).value, target, 0) <==> target in StringsOf(fields, key).value
  {
    hide FieldText, Print, CleanFields, IsName, HasToken, Clear;
    Alone(Print(Obj(fields)));
    RawOfGet("", fields, "", key);
    TokensOfPrinted(Get(fields, key).value.items, target);
  }

  lemma LastScanned(pre: string, doc: Fields, post: string, rd: Readers)
    requires Blank(pre) && Blank(post) && CleanFields(doc) && LastOf(doc, rd).Some?
    requires Clear(doc, "last_transaction") && ClearLast(doc)
    ensures ScanLast(pre + Print(Obj(doc)) + post, rd) == FastLast(LastOf(doc, rd).value, rd)
  {
    hide FieldText, Print, CleanFields, ObjectText, Until, Clear, RawOf, FastTime;
    NamesAreNames();
    RawOfGet(pre, doc, post, "last_transaction");
    var r := FieldText(pre + Print(Obj(doc)) + post, "last_transaction");
    var v := Get(doc, "last_transaction").value;
    if v.Atom? {
      NullPrefix(r);
    } else {
      assert CleanFields(v.fields) by { InnerClean(v); }
      ObjectRaw(r, v);
      ObjectOfPrinted(v.fields);
      NoNullPrefix(v);
      TimeScanned(v.fields, "timestamp", rd);
      NumberScanned(v.fields, "km_from_current", rd.float);
    }
  }

  lemma ObjectRaw(r: Option<string>, v: Json)
    requires RawOf(r, v) && v.Obj?
    ensures r == Some(Print(v))
  {
  }

  lemma InnerClean(v: Json)
    requires v.Obj? && Clean(v)
    ensures CleanFields(v.fields)
  {
  }

  lemma NullPrefix(r: Option<string>)
    requires RawOf(r, Atom("null"))
    ensures r.Some? && "null" <= r.value[Until(r.value, NotSpace, 0)..]
  {
    var raw := r.value;
    assert raw[0] == 'n';
    assert Until(raw, NotSpace, 0) == 0;
    assert raw[0..] == raw;
  }

  lemma NoNullPrefix(v: Json)
    requires v.Obj?
    ensures !("null" <= Print(v)[Until(Print(v), NotSpace, 0)..])
  {
    assert Print(v)[0] == '{';
    assert Until(Print(v), NotSpace, 0) == 0;
    assert Print(v)[0..] == Print(v);
  }

  lemma NamesAreNames()
    ensures IsName("transaction") && IsName("customer") && IsName("merchant") && IsName("terminal")
    ensures IsName("amount") && IsName("installments") && IsName("requested_at") && IsName("avg_amount")
    ensures IsName("tx_count_24h") && IsName("known_merchants") && IsName("id") && IsName("mcc")
    ensures IsName("is_online") && IsName("card_present") && IsName("km_from_home") && IsName("last_transaction")
    ensures IsName("timestamp") && IsName("km_from_current")
  {
    hide IsName;
    TopNames();
    PartyNames();
    AmountNames();
    CountNames();
    MerchantNames();
    TerminalNames();
    DistanceNames();
    LastNames();
  }

  lemma TopNames()
    ensures IsName("transaction") && IsName("customer")
  {
  }

  lemma PartyNames()
    ensures IsName("merchant") && IsName("terminal")
  {
  }

  lemma AmountNames()
    ensures IsName("amount") && IsName("avg_amount") && IsName("installments")
  {
  }

  lemma CountNames()
    ensures IsName("requested_at") && IsName("tx_count_24h")
  {
  }

  lemma MerchantNames()
    ensures IsName("known_merchants") && IsName("id") && IsName("mcc")
  {
  }

  lemma TerminalNames()
    ensures IsName("is_online") && IsName("card_present")
  {
  }

  lemma DistanceNames()
    ensures IsName("km_from_home") && IsName("km_from_current")
  {
  }

  lemma LastNames()
    ensures IsName("last_transaction") && IsName("timestamp")
  {
  }

  // --- the whole payload ---

  /** What is read besides the customer's average. */
  lemma ScanBesidesAverage(pre: string, doc: Fields, post: string, rd: Readers, avg: real)
    requires Blank(pre) && Blank(post) && CleanFields(doc) && Decode(doc, rd).Some? && ClearButAverage(doc)
    requires NumberField(Print(Obj(FieldsOf(doc, "customer").value)), "avg_amount", rd.float) == Some(avg)
    ensures ScanInputs(pre + Print(Obj(doc)) + post, rd) == FastInputs(Decode(doc, rd).value, avg, rd)
  {
    hide Print, CleanFields, ObjectFieldText, StringFieldText, FieldText, TrimmedFieldText, NumberField, TimeField,
      ScanLast, LastOf, NumberOf, TextOf, FieldsOf, StringsOf, HasToken, IsName, FastRisk, RiskTable, Risk, Clear,
      ClearLast, FastTime, FastLast;
    NamesAreNames();
    ObjectScanned(pre, doc, post, "transaction");
    ObjectScanned(pre, doc, post, "customer");
    ObjectScanned(pre, doc, post, "merchant");
    ObjectScanned(pre, doc, post, "terminal");
    var tx, customer := FieldsOf(doc, "transaction").value, FieldsOf(doc, "customer").value;
    var merchant, terminal := FieldsOf(doc, "merchant").value, FieldsOf(doc, "terminal").value;
    NumberScanned(tx, "amount", rd.float);
    NumberScanned(tx, "installments", rd.whole);
    TimeScanned(tx, "requested_at", rd);
    NumberScanned(customer, "tx_count_24h", rd.whole);
    InnerText(merchant, "id");
    KnownScanned(customer, "known_merchants", TextOf(merchant, "id").value);
    InnerText(merchant, "mcc");
    FastRiskIsTable(TextOf(merchant, "mcc").value);
    NumberScanned(merchant, "avg_amount", rd.float);
    NumberScanned(terminal, "is_online", ReadBool);
    NumberScanned(terminal, "card_present", ReadBool);
    NumberScanned(terminal, "km_from_home", rd.float);
    LastScanned(pre, doc, post, rd);
  }

  /** Scanning the bytes of a printed payload reads the same inputs as decoding it if and only if both ways
    * of reading a timestamp agree on those of the payload. */
  lemma ScanRefinesDecode(pre: string, doc: Fields, post: string, rd: Readers)
    requires Blank(pre) && Blank(post) && CleanFields(doc) && Decode(doc, rd).Some? && ClearPayload(doc)
    ensures var p := Decode(doc, rd).value;
      ScanInputs(pre + Print(Obj(doc)) + post, rd) == Some(InputsOf(p, rd.parse, RiskTable())) <==> TimesAgree(p, rd)
  {
    hide Print, CleanFields, NumberField, ScanInputs, IsName, RiskTable, Risk, Clear, TimesAgree, ClearButAverage,
      FastInputs, InputsOf;
    NamesAreNames();
    CustomerClean(doc);
    var p := Decode(doc, rd).value;
    NumberScanned(FieldsOf(doc, "customer").value, "avg_amount", rd.float);
    ScanBesidesAverage(pre, doc, post, rd, p.avgAmount);
    FastIffTimesAgree(p, rd);
  }

  lemma CustomerClean(doc: Fields)
    requires CleanFields(doc) && FieldsOf(doc, "customer").Some?
    ensures CleanFields(FieldsOf(doc, "customer").value)
  {
    GetClean(doc, "customer");
  }
}
