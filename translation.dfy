/** Query translation, the first half of `get_response`: which datastore query an intent
    asks for, built from which entity slots, and when no query is issued at all. */
module Translation {
  import opened Wrappers
  import opened EntityExtraction

  /** The intents the responder handles; any other classifier label is `Unrecognized`.
      Intents are meant to be built by `ParseIntent` only, which never wraps a handled label
      in `Unrecognized`; `Responses.Respond` is the entry point that takes the raw label. */
  datatype Intent =
    | TotalSpending
    | OrdersCount
    | FrequentItems
    | SupplierInformation
    | ItemPriceInformation
    | Unrecognized(name: string)

  const KnownLabels: set<string> :=
    {"total_spending", "orders_count", "frequent_items", "supplier_information", "item_price_information"}

  /** The classifier label an intent stands for. */
  function Label(intent: Intent): string {
    match intent
    case TotalSpending => "total_spending"
    case OrdersCount => "orders_count"
    case FrequentItems => "frequent_items"
    case SupplierInformation => "supplier_information"
    case ItemPriceInformation => "item_price_information"
    case Unrecognized(name) => name
  }

  /** The string comparisons `get_response` makes on the predicted label. */
  function ParseIntent(predicted: string): (intent: Intent)
    ensures Label(intent) == predicted
    ensures intent.Unrecognized? <==> predicted !in KnownLabels
  {
    if predicted == "total_spending" then TotalSpending
    else if predicted == "orders_count" then OrdersCount
    else if predicted == "frequent_items" then FrequentItems
    else if predicted == "supplier_information" then SupplierInformation
    else if predicted == "item_price_information" then ItemPriceInformation
    else Unrecognized(predicted)
  }

  /** Parsing the label of an intent gives that intent back (an `Unrecognized` one only when
      its name is not one of the handled labels). */
  lemma ParseLabel(intent: Intent)
    requires intent.Unrecognized? ==> intent.name !in KnownLabels
    ensures ParseIntent(Label(intent)) == intent
  {
  }

  // ---------------------------------------------------------------------------------------
  // Filters

  /** One constraint of a match filter. `PartialMatch` is a case-insensitive `$regex` whose
      pattern is the entity text, left uninterpreted; the others are exact matches. */
  datatype Constraint =
    | PartialMatch(pattern: string)
    | EqualsNumber(number: int)
    | EqualsText(text: string)

  /** A match filter: field name to constraint. */
  type Filter = map<string, Constraint>

  const DepartmentField := "Department Name"
  const YearField := "Purchase Year"
  const QuarterField := "Purchase Quarter"
  const ItemField := "Item Name"
  const TotalPriceField := "Total Price"

  /** The number of items the frequent-items ranking keeps. */
  const TopItemsLimit := 5

  const SpecifyItem := "Please specify an item."
  const NotUnderstood := "I'm not sure how to answer that."

  /** Python truthiness of the YEAR slot: set and not zero. */
  predicate YearGiven(e: Entities) {
    e.year.Some? && e.year.value != 0
  }

  /** Python truthiness of a text slot: set and not empty. */
  predicate Given(slot: Option<string>) {
    slot.Some? && slot.value != ""
  }

  /** The year and quarter part of a filter, shared by the spending and counting queries. */
  function PeriodFilter(e: Entities): (f: Filter)
    ensures YearField in f <==> YearGiven(e)
    ensures YearField in f ==> f[YearField] == EqualsNumber(e.year.value)
    ensures QuarterField in f <==> e.quarter.Some?
    ensures QuarterField in f ==> f[QuarterField] == EqualsText(QuarterName(e.quarter.value))
    ensures f.Keys <= {YearField, QuarterField}
  {
    var byYear: Filter := if YearGiven(e) then map[YearField := EqualsNumber(e.year.value)] else map[];
    if e.quarter.Some? then byYear[QuarterField := EqualsText(QuarterName(e.quarter.value))] else byYear
  }

  /** The `total_spending` filter: department as a partial match when it is given, year and
      quarter as exact matches when they are set, and nothing else. */
  function SpendingFilter(e: Entities): (f: Filter)
    ensures DepartmentField in f <==> Given(e.department)
    ensures DepartmentField in f ==> f[DepartmentField] == PartialMatch(e.department.value)
    ensures YearField in f <==> YearGiven(e)
    ensures YearField in f ==> f[YearField] == EqualsNumber(e.year.value)
    ensures QuarterField in f <==> e.quarter.Some?
    ensures QuarterField in f ==> f[QuarterField] == EqualsText(QuarterName(e.quarter.value))
    ensures f.Keys <= {DepartmentField, YearField, QuarterField}
  {
    var period := PeriodFilter(e);
    if Given(e.department) then period[DepartmentField := PartialMatch(e.department.value)]
    else period
  }

  /** The lookup filter: the item name partially matches the ITEM text. */
  function ItemFilter(item: string): (f: Filter)
    ensures f.Keys == {ItemField} && f[ItemField] == PartialMatch(item)
  {
    map[ItemField := PartialMatch(item)]
  }

  // ---------------------------------------------------------------------------------------
  // Query specifications

  /** What the datastore is asked to compute, or the reply given without asking it. */
  datatype QuerySpec =
    | SumOf(filter: Filter, field: string)           // match the filter, then sum the field over one group
    | CountOf(filter: Filter)                        // count the matching documents
    | RankBy(field: string, limit: nat)              // group by the field, count, sort descending, keep `limit`
    | FindSupplier(filter: Filter, item: string)     // one matching document, its "Supplier Name"
    | FindUnitPrice(filter: Filter, item: string)    // one matching document, its "Unit Price"
    | NoQuery(reply: string)

  /** The query `get_response` issues for an intent and the extracted entities. */
  function Translate(intent: Intent, e: Entities): (spec: QuerySpec)
    ensures spec.NoQuery? <==>
      intent.Unrecognized? ||
      ((intent == SupplierInformation || intent == ItemPriceInformation) && !Given(e.item))
    ensures spec.NoQuery? ==> spec.reply == (if intent.Unrecognized? then NotUnderstood else SpecifyItem)
    ensures (spec.FindSupplier? || spec.FindUnitPrice?) ==>
      e.item == Some(spec.item) && spec.filter == ItemFilter(spec.item)
    ensures intent == TotalSpending ==> spec == SumOf(SpendingFilter(e), TotalPriceField)
    ensures intent == OrdersCount ==> spec == CountOf(PeriodFilter(e))
    ensures intent == FrequentItems ==> spec == RankBy(ItemField, TopItemsLimit)
    ensures intent == SupplierInformation && Given(e.item) ==>
      spec == FindSupplier(ItemFilter(e.item.value), e.item.value)
    ensures intent == ItemPriceInformation && Given(e.item) ==>
      spec == FindUnitPrice(ItemFilter(e.item.value), e.item.value)
  {
    match intent
    case TotalSpending => SumOf(SpendingFilter(e), TotalPriceField)
    case OrdersCount => CountOf(PeriodFilter(e))
    case FrequentItems => RankBy(ItemField, TopItemsLimit)
    case SupplierInformation =>
      if Given(e.item) then FindSupplier(ItemFilter(e.item.value), e.item.value) else NoQuery(SpecifyItem)
    case ItemPriceInformation =>
      if Given(e.item) then FindUnitPrice(ItemFilter(e.item.value), e.item.value) else NoQuery(SpecifyItem)
    case Unrecognized(_) => NoQuery(NotUnderstood)
  }

  // ---------------------------------------------------------------------------------------
  // Which slots each intent reads

  /** `total_spending` reads DEPARTMENT, YEAR and QUARTER only. */
  lemma SpendingIgnoresItemAndMethod(e1: Entities, e2: Entities)
    requires e1.department == e2.department && e1.year == e2.year && e1.quarter == e2.quarter
    ensures Translate(TotalSpending, e1) == Translate(TotalSpending, e2)
  {
  }

  /** `orders_count` reads YEAR and QUARTER only. */
  lemma OrdersCountReadsPeriodOnly(e1: Entities, e2: Entities)
    requires e1.year == e2.year && e1.quarter == e2.quarter
    ensures Translate(OrdersCount, e1) == Translate(OrdersCount, e2)
    ensures Translate(OrdersCount, e1).filter.Keys <= {YearField, QuarterField}
  {
  }

  /** `frequent_items` reads no slot: it ranks all documents by item name, keeping five. */
  lemma FrequentItemsReadsNothing(e: Entities)
    ensures Translate(FrequentItems, e) == RankBy(ItemField, TopItemsLimit)
  {
  }

  /** The lookups read ITEM only. */
  lemma LookupsReadItemOnly(e1: Entities, e2: Entities)
    requires e1.item == e2.item
    ensures Translate(SupplierInformation, e1) == Translate(SupplierInformation, e2)
    ensures Translate(ItemPriceInformation, e1) == Translate(ItemPriceInformation, e2)
  {
  }
}
