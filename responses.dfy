/** Response formatting, the second half of `get_response`: the datastore is an abstract
    collaborator answering the query a `QuerySpec` describes, and each outcome becomes one
    sentence. Monetary amounts are integer cents. */
module Responses {
  import opened Wrappers
  import opened Text
  import opened EntityExtraction
  import opened Translation

  const NoData := "No data available for the specified query."

  // ---------------------------------------------------------------------------------------
  // Amounts

  /** Decimal digits with a comma between groups of three, counted from the right. */
  function GroupThousands(digits: string): string {
    if |digits| <= 3 then digits
    else GroupThousands(digits[..|digits| - 3]) + "," + digits[|digits| - 3..]
  }

  /** The commas of `r` stand exactly where a multiple of four characters, the comma
      included, remain to the end: one after every three digits from the right. */
  predicate CommasEveryThird(r: string) {
    forall i :: 0 <= i < |r| ==> (r[i] == ',' <==> (|r| - i) % 4 == 0)
  }

  /** Grouping only inserts commas: dropping them gives the digits back. */
  lemma {:induction false} GroupThousandsDigits(digits: string)
    requires AllDigits(digits)
    ensures OnlyDigits(GroupThousands(digits)) == digits
  {
    if |digits| <= 3 {
      OnlyDigitsOfDigits(digits);
    } else {
      var head, tail := digits[..|digits| - 3], digits[|digits| - 3..];
      assert head + tail == digits;
      GroupThousandsDigits(head);
      var g := GroupThousands(head);
      assert GroupThousands(digits) == g + ("," + tail);
      OnlyDigitsOfDigits(tail);
      assert OnlyDigits(",") == [] by {
        assert ","[1..] == [];
      }
      OnlyDigitsAppend(",", tail);
      assert OnlyDigits("," + tail) == tail;
      OnlyDigitsAppend(g, "," + tail);
      assert OnlyDigits(GroupThousands(digits)) == head + tail;
    }
  }

  /** The commas fall one before every group of three digits, counted from the right. */
  lemma {:induction false} GroupThousandsCommas(digits: string)
    requires AllDigits(digits)
    ensures CommasEveryThird(GroupThousands(digits))
  {
    if |digits| > 3 {
      var head, tail := digits[..|digits| - 3], digits[|digits| - 3..];
      GroupThousandsCommas(head);
      var g := GroupThousands(head);
      var r := g + "," + tail;
      assert r == GroupThousands(digits);
      forall i | 0 <= i < |r|
        ensures r[i] == ',' <==> (|r| - i) % 4 == 0
      {
        if i < |g| {
          assert r[i] == g[i];
          assert |r| - i == (|g| - i) + 4;
        } else if i > |g| {
          assert r[i] == tail[i - |g| - 1];
        }
      }
    }
  }

  /** Grouping writes nothing but digits and commas. */
  lemma {:induction false} GroupThousandsAlphabet(digits: string)
    requires AllDigits(digits)
    ensures forall i :: 0 <= i < |GroupThousands(digits)| ==>
      IsDigit(GroupThousands(digits)[i]) || GroupThousands(digits)[i] == ','
  {
    if |digits| > 3 {
      var head, tail := digits[..|digits| - 3], digits[|digits| - 3..];
      GroupThousandsAlphabet(head);
      var g := GroupThousands(head);
      var r := g + "," + tail;
      assert r == GroupThousands(digits);
      forall i | 0 <= i < |r|
        ensures IsDigit(r[i]) || r[i] == ','
      {
        if i < |g| {
          assert r[i] == g[i];
        } else if i > |g| {
          assert r[i] == tail[i - |g| - 1];
        }
      }
    }
  }

  /** Grouping keeps the leading digit in front. */
  lemma {:induction false} GroupThousandsStart(digits: string)
    requires |digits| > 0
    ensures |GroupThousands(digits)| > 0 && GroupThousands(digits)[0] == digits[0]
  {
    if |digits| > 3 {
      GroupThousandsStart(digits[..|digits| - 3]);
    }
  }

  /** The digits of a string, every other character dropped. */
  function OnlyDigits(s: string): (r: string)
    ensures AllDigits(r)
  {
    if s == [] then []
    else (if IsDigit(s[0]) then [s[0]] else []) + OnlyDigits(s[1..])
  }

  lemma {:induction false} OnlyDigitsAppend(a: string, b: string)
    ensures OnlyDigits(a + b) == OnlyDigits(a) + OnlyDigits(b)
  {
    if a == [] {
      assert a + b == b;
    } else {
      var h := if IsDigit(a[0]) then [a[0]] else [];
      assert (a + b)[0] == a[0] && (a + b)[1..] == a[1..] + b;
      assert OnlyDigits(a + b) == h + OnlyDigits(a[1..] + b);
      OnlyDigitsAppend(a[1..], b);
      assert OnlyDigits(a) == h + OnlyDigits(a[1..]);
    }
  }

  lemma {:induction false} OnlyDigitsOfDigits(s: string)
    requires AllDigits(s)
    ensures OnlyDigits(s) == s
  {
    if s != [] {
      OnlyDigitsOfDigits(s[1..]);
    }
  }

  /** The last two digits of a cent amount. */
  function Cents(m: nat): string {
    [DigitChar(m % 100 / 10), DigitChar(m % 10)]
  }

  /** An amount in cents with two decimals (`:.2f`), or also with thousands separators
      (`:,.2f`) when `grouped`. */
  function Amount(cents: int, grouped: bool): string {
    var m := if cents < 0 then -cents else cents;
    var whole := Decimal(m / 100);
    (if cents < 0 then "-" else "") + (if grouped then GroupThousands(whole) else whole) + "." + Cents(m)
  }

  /** Reads a rendered amount back as cents: the sign, then its digits with the separators and
      the decimal point skipped. */
  function AmountValue(s: string): int {
    var magnitude := DigitsValue(OnlyDigits(s)) as int;
    if s != [] && s[0] == '-' then -magnitude else magnitude
  }

  /** Rendering an amount loses nothing: reading it back gives the same number of cents. */
  lemma AmountRoundTrip(cents: int, grouped: bool)
    ensures AmountValue(Amount(cents, grouped)) == cents
  {
    var m := if cents < 0 then -cents else cents;
    AmountDigits(cents, grouped);
    DigitsValueAppendCents(Decimal(m / 100), m);
    AmountSign(cents, grouped);
  }

  /** The digits of a rendered amount are the whole part followed by the two cent digits. */
  lemma AmountDigits(cents: int, grouped: bool)
    ensures var m := if cents < 0 then -cents else cents;
      OnlyDigits(Amount(cents, grouped)) == Decimal(m / 100) + Cents(m)
  {
    var m := if cents < 0 then -cents else cents;
    var whole := Decimal(m / 100);
    if grouped { GroupThousandsDigits(whole); } else { OnlyDigitsOfDigits(whole); }
    RenderedDigits(if cents < 0 then "-" else "", if grouped then GroupThousands(whole) else whole, whole, Cents(m));
  }

  lemma RenderedDigits(sign: string, body: string, whole: string, cents: string)
    requires OnlyDigits(sign) == [] && OnlyDigits(body) == whole && AllDigits(cents)
    ensures OnlyDigits(sign + body + "." + cents) == whole + cents
  {
    assert sign + body + "." + cents == sign + (body + ("." + cents));
    OnlyDigitsOfDigits(cents);
    OnlyDigitsAppend(".", cents);
    assert OnlyDigits("." + cents) == cents;
    OnlyDigitsAppend(body, "." + cents);
    OnlyDigitsAppend(sign, body + ("." + cents));
  }

  lemma DigitsValueAppendCents(whole: string, m: nat)
    requires AllDigits(whole)
    ensures AllDigits(whole + Cents(m))
    ensures DigitsValue(whole + Cents(m)) == 100 * DigitsValue(whole) + m % 100
  {
    var c := Cents(m);
    var w1 := whole + [c[0]];
    assert whole + c == w1 + [c[1]];
    assert (w1 + [c[1]])[..|w1|] == w1;
    assert w1[..|whole|] == whole;
  }

  /** The layout of a rendered amount: an optional minus sign, the whole part (grouped or
      plain decimal digits), a single decimal point, and exactly two cent digits. */
  lemma AmountShape(cents: int, grouped: bool)
    ensures var r := Amount(cents, grouped); var m := if cents < 0 then -cents else cents;
      |r| >= 4 && r[|r| - 3] == '.' && r[|r| - 2..] == Cents(m) && AllDigits(r[|r| - 2..]) &&
      r[..|r| - 3] ==
        (if cents < 0 then "-" else "") +
        (if grouped then GroupThousands(Decimal(m / 100)) else Decimal(m / 100))
    ensures var r := Amount(cents, grouped);
      forall i :: 0 <= i < |r| - 3 ==> r[i] != '.'
    ensures var r := Amount(cents, grouped); var start := if cents < 0 then 1 else 0;
      !grouped ==> forall i :: start <= i < |r| - 3 ==> IsDigit(r[i])
  {
    var m := if cents < 0 then -cents else cents;
    var whole := Decimal(m / 100);
    var body := if grouped then GroupThousands(whole) else whole;
    if grouped {
      GroupThousandsStart(whole);
      GroupThousandsAlphabet(whole);
    }
    RenderedShape(if cents < 0 then "-" else "", body, Cents(m));
  }

  /** A sign, a body without a point and two digits, joined by a point, have their point
      exactly three characters from the end. */
  lemma RenderedShape(sign: string, body: string, cents: string)
    requires sign == "" || sign == "-"
    requires |body| > 0 && forall i :: 0 <= i < |body| ==> body[i] != '.'
    requires |cents| == 2 && AllDigits(cents)
    ensures var r := sign + body + "." + cents;
      |r| >= 4 && r[|r| - 3] == '.' && r[|r| - 2..] == cents && AllDigits(r[|r| - 2..]) &&
      r[..|r| - 3] == sign + body &&
      (forall i :: 0 <= i < |r| - 3 ==> r[i] != '.') &&
      (AllDigits(body) ==> forall i :: |sign| <= i < |r| - 3 ==> IsDigit(r[i]))
  {
    var p := sign + body;
    var r := p + "." + cents;
    assert sign + body + "." + cents == r;
    assert r[..|r| - 3] == p;
    assert r[|r| - 2..] == cents;
    forall i | 0 <= i < |r| - 3
      ensures r[i] != '.' && (i >= |sign| ==> r[i] == body[i - |sign|])
    {
      assert r[i] == p[i];
      if i >= |sign| {
        assert p[i] == body[i - |sign|];
      }
    }
  }

  /** A rendered amount starts with a minus sign exactly when it is negative. */
  lemma AmountSign(cents: int, grouped: bool)
    ensures Amount(cents, grouped) != [] && (Amount(cents, grouped)[0] == '-' <==> cents < 0)
  {
    var m := if cents < 0 then -cents else cents;
    var whole := Decimal(m / 100);
    var body := if grouped then GroupThousands(whole) else whole;
    if cents >= 0 {
      assert Amount(cents, grouped) == body + ("." + Cents(m));
      if grouped { GroupThousandsStart(whole); }
      assert body[0] == whole[0];
    }
  }

  // ---------------------------------------------------------------------------------------
  // The datastore

  /** One row of the frequent-items ranking: the grouped item name (absent for documents
      without one) and how many documents had it. */
  datatype ItemCount = ItemCount(name: Option<string>, count: nat)

  /** The datastore as the responder uses it, one function per query shape. */
  datatype Store = Store(
    // documents of the pipeline [match filter, group everything summing the field]; for each,
    // its "total_spending" in cents when present
    sumGroups: (Filter, string) -> seq<Option<int>>,
    countDocuments: Filter -> nat,
    // the pipeline [group by the field counting, sort by count descending, limit]
    rankGroups: (string, nat) -> seq<ItemCount>,
    // "Supplier Name" of the first document matching the filter, if any
    findSupplier: Filter -> Option<string>,
    // "Unit Price" of the first document matching the filter, in cents, if any
    findUnitPrice: Filter -> Option<int>)

  // ---------------------------------------------------------------------------------------
  // Sentences

  function SpendingSentence(groups: seq<Option<int>>): string {
    if groups != [] && groups[0].Some? then
      "The total spending is $" + Amount(groups[0].value, true) + "."
    else NoData
  }

  function CountSentence(count: nat): string {
    "The total number of orders is " + Decimal(count) + "."
  }

  /** Python's `str()` of a group key: the name, or `None`. */
  function NameText(name: Option<string>): string {
    match name
    case Some(s) => s
    case None => "None"
  }

  function RowText(row: ItemCount): string {
    NameText(row.name) + " (" + Decimal(row.count) + " times)"
  }

  /** Python's `", ".join(...)` of the rendered rows. */
  function JoinRows(rows: seq<ItemCount>): string {
    if rows == [] then ""
    else if |rows| == 1 then RowText(rows[0])
    else RowText(rows[0]) + ", " + JoinRows(rows[1..])
  }

  /** Joining the concatenation of two non-empty row lists puts one separator between their
      joined texts: the rows appear in order, each once, separated by ", ". */
  lemma {:induction false} JoinRowsSplit(a: seq<ItemCount>, b: seq<ItemCount>)
    requires a != [] && b != []
    ensures JoinRows(a + b) == JoinRows(a) + ", " + JoinRows(b)
  {
    assert (a + b)[0] == a[0];
    if |a| == 1 {
      assert (a + b)[1..] == b;
    } else {
      assert (a + b)[1..] == a[1..] + b;
      JoinRowsSplit(a[1..], b);
    }
  }

  /** A single row is rendered alone, with no separator. */
  lemma JoinRowsSingle(row: ItemCount)
    ensures JoinRows([row]) == NameText(row.name) + " (" + Decimal(row.count) + " times)"
  {
  }

  function FrequentSentence(rows: seq<ItemCount>): string {
    "The most frequently ordered items are: " + JoinRows(rows) + "."
  }

  function SupplierSentence(item: string, found: Option<string>): string {
    match found
    case Some(supplier) => "The supplier for " + item + " is " + supplier + "."
    case None => "No supplier information found for " + item + "."
  }

  function PriceSentence(item: string, found: Option<int>): string {
    match found
    case Some(price) => "The unit price for " + item + " is $" + Amount(price, false) + "."
    case None => "No pricing information found for " + item + "."
  }

  /** `get_response` on the classifier's raw label. */
  function Respond(predicted: string, e: Entities, store: Store): string {
    GetResponse(ParseIntent(predicted), e, store)
  }

  /** `get_response` on a parsed intent: translate, ask the datastore what the query needs,
      and phrase it. */
  function GetResponse(intent: Intent, e: Entities, store: Store): string {
    match Translate(intent, e)
    case SumOf(filter, field) => SpendingSentence(store.sumGroups(filter, field))
    case CountOf(filter) => CountSentence(store.countDocuments(filter))
    case RankBy(field, limit) => FrequentSentence(store.rankGroups(field, limit))
    case FindSupplier(filter, item) => SupplierSentence(item, store.findSupplier(filter))
    case FindUnitPrice(filter, item) => PriceSentence(item, store.findUnitPrice(filter))
    case NoQuery(reply) => reply
  }

  // ---------------------------------------------------------------------------------------
  // Properties of the responses

  /** The spending sentence is the no-data sentence exactly when the aggregate returned no
      document or its first document has no total; a total of zero is still reported. */
  lemma NoDataExactly(groups: seq<Option<int>>)
    ensures SpendingSentence(groups) == NoData <==> (groups == [] || groups[0].None?)
  {
    if groups != [] && groups[0].Some? {
      assert SpendingSentence(groups)[0] == 'T';
    }
  }

  /** `total_spending` answers "no data", whatever the filter, when the aggregate is empty or
      has no total. */
  lemma SpendingWithoutData(e: Entities, store: Store)
    requires var groups := store.sumGroups(SpendingFilter(e), TotalPriceField);
      groups == [] || groups[0].None?
    ensures GetResponse(TotalSpending, e, store) == NoData
  {
  }

  /** Without an item, both lookups ask for one and the answer does not depend on the
      datastore at all: no lookup is issued. */
  lemma LookupNeedsItem(e: Entities, store1: Store, store2: Store)
    requires !Given(e.item)
    ensures GetResponse(SupplierInformation, e, store1) == SpecifyItem
    ensures GetResponse(ItemPriceInformation, e, store1) == SpecifyItem
    ensures GetResponse(SupplierInformation, e, store1) == GetResponse(SupplierInformation, e, store2)
    ensures GetResponse(ItemPriceInformation, e, store1) == GetResponse(ItemPriceInformation, e, store2)
  {
  }

  /** With an item, the lookups ask the datastore with the item filter and name the ITEM
      value verbatim: the supplier or the two-decimal unit price of the document found, or
      that none was found. */
  lemma LookupAnswers(e: Entities, store: Store)
    requires Given(e.item)
    ensures var item := e.item.value;
      GetResponse(SupplierInformation, e, store) ==
        match store.findSupplier(ItemFilter(item))
        case Some(supplier) => "The supplier for " + item + " is " + supplier + "."
        case None => "No supplier information found for " + item + "."
    ensures var item := e.item.value;
      GetResponse(ItemPriceInformation, e, store) ==
        match store.findUnitPrice(ItemFilter(item))
        case Some(price) => "The unit price for " + item + " is $" + Amount(price, false) + "."
        case None => "No pricing information found for " + item + "."
  {
  }

  /** When the aggregate's first document carries a total, `total_spending` reports it with
      separators and two decimals, and the reported amount reads back as that total. */
  lemma SpendingReportsTotal(e: Entities, store: Store)
    requires var groups := store.sumGroups(SpendingFilter(e), TotalPriceField);
      groups != [] && groups[0].Some?
    ensures var total := store.sumGroups(SpendingFilter(e), TotalPriceField)[0].value;
      GetResponse(TotalSpending, e, store) == "The total spending is $" + Amount(total, true) + "." &&
      AmountValue(Amount(total, true)) == total
  {
    var total := store.sumGroups(SpendingFilter(e), TotalPriceField)[0].value;
    AmountRoundTrip(total, true);
  }

  /** `orders_count` reports the number of documents matching the period filter, in
      decimal digits that read back as that number. */
  lemma OrdersCountReported(e: Entities, store: Store)
    ensures var n := store.countDocuments(PeriodFilter(e));
      GetResponse(OrdersCount, e, store) == "The total number of orders is " + Decimal(n) + "." &&
      DigitsValue(Decimal(n)) == n
  {
  }

  /** `frequent_items` joins the ranking of item names, five at most, whatever the entities;
      an empty ranking still gives the sentence, with nothing listed. */
  lemma FrequentItemsReported(e: Entities, store: Store)
    ensures GetResponse(FrequentItems, e, store) ==
      "The most frequently ordered items are: " + JoinRows(store.rankGroups(ItemField, TopItemsLimit)) + "."
    ensures store.rankGroups(ItemField, TopItemsLimit) == [] ==>
      GetResponse(FrequentItems, e, store) == "The most frequently ordered items are: " + "."
  {
  }

  /** Every label outside the five handled ones gets the fallback sentence, whatever the
      entities and the datastore. */
  lemma UnknownLabelFallback(predicted: string, e: Entities, store: Store)
    requires predicted !in KnownLabels
    ensures Respond(predicted, e, store) == NotUnderstood
  {
  }

  /** Each handled label is answered as its own intent, whatever the entities and the
      datastore. */
  lemma RespondKnownLabel(intent: Intent, e: Entities, store: Store)
    requires !intent.Unrecognized?
    ensures Label(intent) in KnownLabels
    ensures Respond(Label(intent), e, store) == GetResponse(intent, e, store)
  {
  }

  /** Every intent gets a sentence: the response is never empty. */
  lemma ResponseNonEmpty(intent: Intent, e: Entities, store: Store)
    ensures |GetResponse(intent, e, store)| > 0
  {
  }
}
