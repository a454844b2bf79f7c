/** A payload on which the two vectorizers differ: a customer who knows a merchant called avg_amount has
  * that name mentioned before the average, and the scanner takes the value of the next field.
  */
module Misreading {
  import opened FieldFacts
  import opened FieldScan
  import opened FirstMention
  import opened Json
  import opened Payloads
  import opened Timestamps
  import opened Vectorizer
  import opened Wrappers

  /** A field without white space. */
  function Tight(name: string, value: Json, rest: Fields): Fields {
    Field("", name, "", "", value, "", rest)
  }

  function Average(avg: string): Fields {
    Tight("avg_amount", Atom(avg), NoFields(""))
  }

  function CountAndAverage(count: string, avg: string): Fields {
    Tight("tx_count_24h", Atom(count), Average(avg))
  }

  function Known(): Json {
    Arr(Item("", Str("avg_amount"), "", NoItems("")))
  }

  /** A customer who knows a merchant called avg_amount. */
  function Customer(count: string, avg: string): Fields {
    Tight("known_merchants", Known(), CountAndAverage(count, avg))
  }

  lemma CustomerIsClean(count: string, avg: string)
    requires IsAtom(count) && IsAtom(avg)
    ensures CleanFields(Customer(count, avg))
  {
    hide IsAtom;
    AmountNames();
    CountNames();
    MerchantNames();
    assert CleanFields(Average(avg));
    assert CleanFields(CountAndAverage(count, avg));
    assert Clean(Known());
  }

  /** The transaction count is read as the average. */
  lemma CountForAverage(count: string, avg: string, read: string -> Option<real>)
    requires IsAtom(count) && IsAtom(avg)
    ensures NumberField(Print(Obj(Customer(count, avg))), "avg_amount", read) == read(count)
    ensures NumberOf(Customer(count, avg), "avg_amount", read) == read(avg)
  {
    hide FieldText, Print, IsAtom, Trim, RawOf;
    AmountNames();
    var c := Customer(count, avg);
    CustomerIsClean(count, avg);
    Alone(Print(Obj(c)));
    FieldTextOfPrinted("", c, "", "avg_amount");
    AverageSeen(count, avg);
    AtomTrimmed(FieldText(Print(Obj(c)), "avg_amount"), count);
  }

  lemma AverageSeen(count: string, avg: string)
    ensures SeeFields(Customer(count, avg), "avg_amount", NotSeen) == Found(Atom(count))
    ensures Get(Customer(count, avg), "avg_amount") == Some(Atom(avg))
  {
    CountNames();
    assert See(Known(), "avg_amount", NotSeen) == Waiting;
    assert NoColon("tx_count_24h");
    SettledFields(Average(avg), "avg_amount", Found(Atom(count)));
    assert SeeFields(CountAndAverage(count, avg), "avg_amount", Waiting) == Found(Atom(count));
    assert Get(Average(avg), "avg_amount") == Some(Atom(avg));
    assert Get(CountAndAverage(count, avg), "avg_amount") == Some(Atom(avg));
  }

  /** Whatever else is in a payload with such a customer, scanning it takes the transaction count for the
    * average, where decoding it takes the average. */
  lemma ScanMisreads(pre: string, doc: Fields, post: string, rd: Readers, count: string, avg: string)
    requires Blank(pre) && Blank(post) && CleanFields(doc) && Decode(doc, rd).Some? && ClearButAverage(doc)
    requires TimesAgree(Decode(doc, rd).value, rd)
    requires FieldsOf(doc, "customer") == Some(Customer(count, avg)) && IsAtom(count) && IsAtom(avg)
      && rd.float(count).Some?
    ensures rd.float(avg) == Some(Decode(doc, rd).value.avgAmount)
    ensures ScanInputs(pre + Print(Obj(doc)) + post, rd) ==
            Some(InputsOf(Decode(doc, rd).value, rd.parse, RiskTable()).(avgAmount := rd.float(count).value))
  {
    hide Print, CleanFields, NumberField, ScanInputs, IsName, RiskTable, Risk, Clear, ClearButAverage, IsAtom,
      Customer, FieldsOf, NumberOf, FastTime;
    CountForAverage(count, avg, rd.float);
    ScanBesidesAverage(pre, doc, post, rd, rd.float(count).value);
  }

  // --- such a payload ---

  lemma ClearHere(key: string, value: Json, rest: Fields)
    requires Times(rest, key) == 0
    ensures Clear(Tight(key, value, rest), key) && Get(Tight(key, value, rest), key) == Some(value)
  {
    NotNamed(rest, key);
  }

  lemma ClearLater(name: string, value: Json, rest: Fields, key: string)
    requires !SameName(name, key) && See(value, key, NotSeen) == NotSeen && Clear(rest, key)
    ensures Clear(Tight(name, value, rest), key) && Get(Tight(name, value, rest), key) == Get(rest, key)
  {
    hide See;
    GetIsOwn(rest, key);
  }

  function Last3(c: string, w: Json): Fields {
    Tight(c, w, NoFields(""))
  }

  function Three(a: string, u: Json, b: string, v: Json, c: string, w: Json): Fields {
    Tight(a, u, Tight(b, v, Last3(c, w)))
  }

  predicate Apart(a: string, b: string) {
    !SameName(a, b) && !SameName(b, a)
  }

  lemma ThreeClear(a: string, u: Json, b: string, v: Json, c: string, w: Json)
    requires Apart(a, b) && Apart(a, c) && Apart(b, c)
    requires See(u, b, NotSeen) == NotSeen && See(u, c, NotSeen) == NotSeen && See(v, c, NotSeen) == NotSeen
    ensures var f := Three(a, u, b, v, c, w);
      && Clear(f, a) && Clear(f, b) && Clear(f, c)
      && Get(f, a) == Some(u) && Get(f, b) == Some(v) && Get(f, c) == Some(w)
  {
    hide See, SameName, Clear;
    var last := Last3(c, w);
    var more := Tight(b, v, last);
    ClearHere(c, w, NoFields(""));
    ClearHere(b, v, last);
    ClearLater(b, v, last, c);
    assert Times(last, a) == 0;
    ClearHere(a, u, more);
    ClearLater(a, u, more, b);
    ClearLater(a, u, more, c);
  }

  lemma ThreeUnmentioned(a: string, u: Json, b: string, v: Json, c: string, w: Json, key: string)
    requires a != key && b != key && c != key
    requires See(u, key, NotSeen) == NotSeen && See(v, key, NotSeen) == NotSeen && See(w, key, NotSeen) == NotSeen
    ensures See(Obj(Three(a, u, b, v, c, w)), key, NotSeen) == NotSeen
  {
    var last := Last3(c, w);
    assert SeeFields(last, key, NotSeen) == NotSeen;
    assert SeeFields(Tight(b, v, last), key, NotSeen) == NotSeen;
  }

  lemma ThreeClean(a: string, u: Json, b: string, v: Json, c: string, w: Json)
    requires Plain(a) && Plain(b) && Plain(c) && Clean(u) && Clean(v) && Clean(w)
    ensures CleanFields(Three(a, u, b, v, c, w))
  {
    hide Plain;
    var last := Last3(c, w);
    assert CleanFields(last);
    assert CleanFields(Tight(b, v, last));
  }

  // --- the parts ---

  function Transaction(requestedAt: string): Fields {
    Three("amount", Atom("30"), "installments", Atom("1"), "requested_at", Str(requestedAt))
  }

  function Merchant(): Fields {
    Three("id", Str("m"), "mcc", Str("5411"), "avg_amount", Atom("1"))
  }

  function Terminal(): Fields {
    Three("is_online", Atom("false"), "card_present", Atom("true"), "km_from_home", Atom("1"))
  }

  function FromMerchant(): Fields {
    Tight("merchant", Obj(Merchant()), Tight("terminal", Obj(Terminal()), Last3("last_transaction", Atom("null"))))
  }

  function FromCustomer(): Fields {
    Tight("customer", Obj(Customer("3", "100")), FromMerchant())
  }

  function Whole(requestedAt: string): Fields {
    Tight("transaction", Obj(Transaction(requestedAt)), FromCustomer())
  }

  lemma TransactionClear(t: string)
    requires |t| == 20
    ensures var f := Transaction(t); Clear(f, "amount") && Clear(f, "installments") && Clear(f, "requested_at")
    ensures var f := Transaction(t);
      Get(f, "amount") == Some(Atom("30")) && Get(f, "installments") == Some(Atom("1"))
        && Get(f, "requested_at") == Some(Str(t))
  {
    var a, b := "installments", "requested_at";
    assert Fold(a[0]) != Fold(b[0]);
    ThreeClear("amount", Atom("30"), "installments", Atom("1"), "requested_at", Str(t));
  }

  lemma MerchantClear()
    ensures var f := Merchant(); Clear(f, "id") && Clear(f, "mcc") && Clear(f, "avg_amount")
    ensures var f := Merchant();
      Get(f, "id") == Some(Str("m")) && Get(f, "mcc") == Some(Str("5411")) && Get(f, "avg_amount") == Some(Atom("1"))
  {
    ThreeClear("id", Str("m"), "mcc", Str("5411"), "avg_amount", Atom("1"));
  }

  lemma TerminalClear()
    ensures var f := Terminal(); Clear(f, "is_online") && Clear(f, "card_present") && Clear(f, "km_from_home")
    ensures var f := Terminal();
      && Get(f, "is_online") == Some(Atom("false")) && Get(f, "card_present") == Some(Atom("true"))
      && Get(f, "km_from_home") == Some(Atom("1"))
  {
    var a, b := "card_present", "km_from_home";
    assert Fold(a[0]) != Fold(b[0]);
    ThreeClear("is_online", Atom("false"), "card_present", Atom("true"), "km_from_home", Atom("1"));
  }

  lemma CustomerClear(count: string, avg: string)
    ensures var f := Customer(count, avg); Clear(f, "tx_count_24h") && Clear(f, "known_merchants")
    ensures var f := Customer(count, avg);
      && Get(f, "tx_count_24h") == Some(Atom(count)) && Get(f, "avg_amount") == Some(Atom(avg))
      && Get(f, "known_merchants") == Some(Known())
  {
    var more := CountAndAverage(count, avg);
    AverageSeen(count, avg);
    ClearHere("tx_count_24h", Atom(count), Average(avg));
    ClearLater("known_merchants", Known(), more, "tx_count_24h");
    assert Times(Average(avg), "known_merchants") == 0;
    ClearHere("known_merchants", Known(), more);
  }

  /** What an inner object does not mention. */
  predicate Unmentioned(fields: Fields, key: string) {
    See(Obj(fields), key, NotSeen) == NotSeen
  }

  lemma CustomerUnmentioned(count: string, avg: string, key: string)
    requires |key| !in {10, 12, 15}
    ensures Unmentioned(Customer(count, avg), key)
  {
    assert See(Str("avg_amount"), key, NotSeen) == NotSeen;
    assert SeeItems(Known().items, key, NotSeen) == NotSeen;
    assert SeeFields(Average(avg), key, NotSeen) == NotSeen;
    assert SeeFields(CountAndAverage(count, avg), key, NotSeen) == NotSeen;
    assert See(Known(), key, NotSeen) == NotSeen;
    assert SeeFields(Customer(count, avg), key, NotSeen) == NotSeen;
  }

  lemma InnerUnmentioned(t: string, key: string)
    requires |t| == 20 && |key| in {8, 11, 16}
    ensures Unmentioned(Transaction(t), key) && Unmentioned(Merchant(), key) && Unmentioned(Terminal(), key)
  {
    ThreeUnmentioned("amount", Atom("30"), "installments", Atom("1"), "requested_at", Str(t), key);
    ThreeUnmentioned("id", Str("m"), "mcc", Str("5411"), "avg_amount", Atom("1"), key);
    ThreeUnmentioned("is_online", Atom("false"), "card_present", Atom("true"), "km_from_home", Atom("1"), key);
  }

  lemma NamesApart()
    ensures !SameName("customer", "merchant") && !SameName("customer", "terminal") && !SameName("merchant", "terminal")
    ensures !SameName("merchant", "customer") && !SameName("terminal", "customer") && !SameName("terminal", "merchant")
  {
    var a, b, c := "customer", "merchant", "terminal";
    assert Fold(a[0]) != Fold(b[0]) && Fold(a[0]) != Fold(c[0]) && Fold(b[0]) != Fold(c[0]);
  }

  lemma FromMerchantClear(t: string)
    requires |t| == 20
    ensures var f := FromMerchant(); Clear(f, "merchant") && Clear(f, "terminal") && Clear(f, "last_transaction")
    ensures var f := FromMerchant();
      && Get(f, "merchant") == Some(Obj(Merchant())) && Get(f, "terminal") == Some(Obj(Terminal()))
      && Get(f, "last_transaction") == Some(Atom("null"))
  {
    hide See, Clear;
    NamesApart();
    InnerUnmentioned(t, "terminal");
    InnerUnmentioned(t, "last_transaction");
    ThreeClear("merchant", Obj(Merchant()), "terminal", Obj(Terminal()), "last_transaction", Atom("null"));
  }

  lemma WholeClear(t: string)
    requires |t| == 20
    ensures ClearNames(Whole(t))
    ensures var doc := Whole(t);
      && Get(doc, "transaction") == Some(Obj(Transaction(t))) && Get(doc, "customer") == Some(Obj(Customer("3", "100")))
      && Get(doc, "merchant") == Some(Obj(Merchant())) && Get(doc, "terminal") == Some(Obj(Terminal()))
      && Get(doc, "last_transaction") == Some(Atom("null"))
  {
    hide See, Clear, SameName, Transaction, Merchant, Terminal, Customer;
    NamesApart();
    var more, most := FromCustomer(), FromMerchant();
    FromMerchantClear(t);
    CustomerOnce();
    ClearHere("customer", Obj(Customer("3", "100")), most);
    CustomerUnmentioned("3", "100", "merchant");
    CustomerUnmentioned("3", "100", "terminal");
    CustomerUnmentioned("3", "100", "last_transaction");
    LongNames();
    ClearLater("customer", Obj(Customer("3", "100")), most, "merchant");
    ClearLater("customer", Obj(Customer("3", "100")), most, "terminal");
    ClearLater("customer", Obj(Customer("3", "100")), most, "last_transaction");
    TransactionFirst(t, "customer");
    TransactionFirst(t, "merchant");
    TransactionFirst(t, "terminal");
    TransactionFirst(t, "last_transaction");
    ClearHere("transaction", Obj(Transaction(t)), more);
  }

  lemma CustomerOnce()
    ensures Times(FromMerchant(), "customer") == 0 && Times(FromCustomer(), "transaction") == 0
  {
    NamesApart();
    var last := Last3("last_transaction", Atom("null"));
    var two := Tight("terminal", Obj(Terminal()), last);
    assert Times(last, "customer") == 0 && Times(last, "transaction") == 0;
    assert Times(two, "customer") == 0 && Times(two, "transaction") == 0;
    assert Times(FromMerchant(), "customer") == 0 && Times(FromMerchant(), "transaction") == 0;
  }

  lemma LongNames()
    ensures !SameName("customer", "last_transaction") && !SameName("transaction", "customer")
    ensures !SameName("transaction", "merchant") && !SameName("transaction", "terminal")
    ensures !SameName("transaction", "last_transaction")
  {
  }

  lemma TransactionFirst(t: string, key: string)
    requires |t| == 20 && |key| in {8, 16} && Clear(FromCustomer(), key)
    ensures Clear(Whole(t), key) && Get(Whole(t), key) == Get(FromCustomer(), key)
  {
    InnerUnmentioned(t, key);
    ClearLater("transaction", Obj(Transaction(t)), FromCustomer(), key);
  }

  // --- the payload as a whole ---

  lemma Atoms()
    ensures IsAtom("1") && IsAtom("3") && IsAtom("30") && IsAtom("100")
  {
    assert DigitsEnd("30", 1) == 2;
    assert DigitsEnd("100", 2) == 3;
    assert DigitsEnd("100", 1) == 3;
  }

  lemma WholeIsClean(t: string)
    requires Plain(t)
    ensures CleanFields(Whole(t))
  {
    hide IsNumber;
    Atoms();
    NamesAreNames();
    CustomerIsClean("3", "100");
    ThreeClean("amount", Atom("30"), "installments", Atom("1"), "requested_at", Str(t));
    ThreeClean("id", Str("m"), "mcc", Str("5411"), "avg_amount", Atom("1"));
    ThreeClean("is_online", Atom("false"), "card_present", Atom("true"), "km_from_home", Atom("1"));
    ThreeClean("merchant", Obj(Merchant()), "terminal", Obj(Terminal()), "last_transaction", Atom("null"));
    assert CleanFields(FromCustomer());
  }

  /** Whatever reads these six numerals as what they say. */
  predicate ReadsNumerals(rd: Readers) {
    && rd.float("30") == Some(30.0) && rd.float("1") == Some(1.0) && rd.float("3") == Some(3.0)
    && rd.float("100") == Some(100.0) && rd.whole("1") == Some(1) && rd.whole("3") == Some(3)
  }

  /** A purchase of 30 by a customer with an average of 100 and 3 transactions. */
  function Purchase(requestedAt: string): Payload {
    Payload(30.0, 1, requestedAt, 100.0, 3, ["avg_amount"], "m", "5411", 1.0, false, true, 1.0, None)
  }

  lemma WholeDecodes(t: string, rd: Readers)
    requires |t| == 20 && ReadsNumerals(rd)
    ensures Decode(Whole(t), rd) == Some(Purchase(t))
  {
    hide Get, Whole, Transaction, Customer, Merchant, Terminal, Clear;
    WholeClear(t);
    TransactionClear(t);
    CustomerClear("3", "100");
    MerchantClear();
    TerminalClear();
    assert AllStrings(Known().items) && Texts(Known().items) == ["avg_amount"];
  }

  lemma WholeClearButAverage(t: string)
    requires |t| == 20
    ensures ClearButAverage(Whole(t)) && FieldsOf(Whole(t), "customer") == Some(Customer("3", "100"))
  {
    hide Get, Whole, Transaction, Customer, Merchant, Terminal, Clear;
    WholeClear(t);
    TransactionClear(t);
    CustomerClear("3", "100");
    MerchantClear();
    TerminalClear();
  }

  /** The whole payload, scanned: the average is 3 and not 100. */
  lemma WholeScanned(c: Civil, rd: Readers)
    requires Valid(c) && ReadsNumerals(rd) && ParsesPrinted(rd)
    ensures ScanInputs(Print(Obj(Whole(PrintTime(c)))), rd) ==
            Some(InputsOf(Purchase(PrintTime(c)), rd.parse, RiskTable()).(avgAmount := 3.0))
  {
    hide Whole, ScanInputs, Print, Decode, CleanFields, ParsesPrinted, PrintTime, IsAtom, ClearButAverage, FieldsOf,
      Customer, Risk, RiskTable;
    var t := PrintTime(c);
    var doc := Whole(t);
    PlainTime(c);
    Atoms();
    WholeDecodes(t, rd);
    WholeIsClean(t);
    WholeClearButAverage(t);
    Alone(Print(Obj(doc)));
    assert Canonical(t);
    PrintedTimesAgree(Purchase(t), rd);
    ScanMisreads("", doc, "", rd, "3", "100");
  }

  /** On this payload the two vectors differ: the purchase is 0.3 times the average decoded, and 10 times
    * the average scanned. */
  lemma VectorsDiffer(c: Civil, rd: Readers, n: Norm)
    requires Valid(c) && ReadsNumerals(rd) && ParsesPrinted(rd) && Positive(n) && n.amountVsAvgRatio == 10.0
    ensures Decode(Whole(PrintTime(c)), rd) == Some(Purchase(PrintTime(c)))
    ensures VectorOf(n, InputsOf(Purchase(PrintTime(c)), rd.parse, RiskTable()))[2] == 0.03
    ensures ScanInputs(Print(Obj(Whole(PrintTime(c)))), rd).Some?
    ensures var x := ScanInputs(Print(Obj(Whole(PrintTime(c)))), rd).value;
      x.avgAmount != 0.0 && VectorOf(n, x)[2] == 1.0
  {
    hide Whole, ScanInputs, Print, Decode, PrintTime, ParsesPrinted, RiskTable, Risk;
    WholeDecodes(PrintTime(c), rd);
    WholeScanned(c, rd);
  }
}
