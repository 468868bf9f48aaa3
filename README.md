# Procurement chatbot core, modelled in Dafny

The procurement chatbot answers questions about purchase orders. This project models its
text-to-query engine, which has two parts:

- **Entity extraction** (`extract_entities`). From a question it fills five slots: YEAR,
  DEPARTMENT, ITEM, QUARTER and ACQUISITION_METHOD. Each slot has its own sources:
  - YEAR: the four-digit DATE spans of the recogniser, overridden by the first word-bounded
    `20dd` token of the text;
  - DEPARTMENT: the ORG spans of the recogniser, overridden by the department lexicon;
  - QUARTER: the markers `Qn` and `quarter n`, tried in the order 1 to 4;
  - ITEM and ACQUISITION_METHOD: their lexicons only.

  Each lexicon (known departments, items and acquisition methods) is scanned
  case-insensitively, and its first matching entry wins.
- **Responding** (`get_response`). The classifier's label picks an intent. Translation turns
  the intent and the entities into a query description (`QuerySpec`): a filter built from a
  chosen subset of slots, or a reply given without asking the datastore. Formatting asks an
  abstract datastore for what the query needs and phrases the answer.

Modules:

- `Wrappers`: `Option`.
- `Text`: the ASCII digit, word and whitespace classes; lower-casing; substring containment;
  `str.strip()`; decimal digits in both directions.
- `EntityExtraction`: the entity record and each override step as a specification function
  (`Extraction`). `ScanSpans` and `ScanLexicon` are the source's loops, which update a slot
  step by step. `ExtractEntities` is the straight-line sequence that applies each step to the
  record in turn. All three are proved equal to the specification.
- `Translation`: intents, filters, `QuerySpec` and `Translate`.
- `Responses`: the datastore as a record of query functions, amount rendering, the sentences
  and `GetResponse`.
- `Scenarios`: whole questions worked through end to end.

Inputs that live outside the core become parameters:

- the recogniser's spans, as a `seq<Span>`;
- the classifier's label, as a string;
- the three `distinct` lists, as `Lexicons`;
- the datastore's answers, as the functions of a `Store`.

Monetary amounts are integer cents, not floating point. `Amount(cents, grouped)` renders
`:,.2f` when `grouped` and `:.2f` otherwise. `AmountValue` reads a rendered amount back, and
the round trip is proved.

Python truthiness is modelled where the source relies on it:

- a YEAR of 0 (from a DATE span `0000`) is false, so it is left out of filters;
- an empty DEPARTMENT or ITEM string is false too, so an empty ITEM gets "Please specify an
  item.".

Two behaviours of the code are easy to misread:

- A total of zero. One might expect a zero total to read as "no data". The code prints
  `$0.00` whenever the first aggregate document carries a `total_spending`. It reports "no
  data" only for an empty result or a document without the sum (chatbot_app.py:84-88).
  `Responses.NoDataExactly` states this.
- The quarter markers are tried in a fixed order, not by position. A text with both "Q2" and
  "quarter 4" gives Q2, but only when it does not also mark Q1, because the chain tests Q1
  first. `Scenarios.QuarterOrderScenario` shows both cases.

## Model

| member | source | states |
|---|---|---|
| EntityExtraction.ExtractEntities | chatbot_app.py:20-65 | The step-by-step extraction (span loop, year search, quarter chain, three lexicon scans) yields exactly `Extraction`, the record the override order defines. |
| EntityExtraction.ScanSpans | chatbot_app.py:25-29 | The span loop leaves YEAR at the integer value of the last four-digit DATE span and DEPARTMENT at the stripped text of the last ORG span, each unset when no span qualifies. |
| EntityExtraction.ScanLexicon | chatbot_app.py:47-63 | One `for ... break` lexicon loop leaves the slot at the first entry whose lower-cased form occurs in the lower-cased text, or unchanged when none does. |
| EntityExtraction.Extraction | chatbot_app.py:20-65 | Specification of the whole extraction, with no contract of its own. `ExtractEntities` is proved equal to it, and `YearPrecedence`, `DepartmentPrecedence`, `ItemFromLexicon` and `MethodFromLexicon` state its slots. |
| EntityExtraction.NerYear | chatbot_app.py:25-27 | The year the spans give, with no contract of its own. It is specified by `NerYearIsLast` and `NerYearUnset`, and `ScanSpans` is proved equal to it. |
| EntityExtraction.NerYearUnset | chatbot_app.py:25-27 | The spans give no year exactly when none of them is a four-digit DATE span. |
| EntityExtraction.NerYearDomain | chatbot_app.py:25-27 | A year the spans give is `int()` of one of their four-digit DATE spans, and lies in 0..9999. |
| EntityExtraction.YearDomain | chatbot_app.py:25-34 | A set YEAR lies in 0..9999. It is the value of the first word-bounded `20dd` token, or, with no token in the text, `int()` of a four-digit DATE span. |
| EntityExtraction.NerDepartment | chatbot_app.py:28-29 | The department the spans give, with no contract of its own. It is specified by `DepartmentPrecedence` (the stripped text of the last ORG span, or unset), and `ScanSpans` is proved equal to it. |
| EntityExtraction.LexiconValue | chatbot_app.py:47-63 | The slot after one lexicon scan, with no contract of its own. It is specified by `LexiconSlot`, and `ScanLexicon` is proved equal to it. |
| EntityExtraction.LastWhere | chatbot_app.py:25-29 | The span that a loop overwriting a slot at every match leaves behind: the last span satisfying the test, or none when no span does. |
| EntityExtraction.NerYearIsLast | chatbot_app.py:25-27 | With no later four-digit DATE span, the spans' year is the integer value of span `k`. |
| EntityExtraction.YearSearch | chatbot_app.py:32 | `re.search` of `\b(20\d{2})\b`: the leftmost word-bounded `20dd` token at or after the start index, or proof that no token exists there. |
| EntityExtraction.YearTokenValue | chatbot_app.py:34 | `int(group(1))` of a token is `2000 + 10*d3 + d4` and lies in 2000..2099. |
| EntityExtraction.YearPrecedence | chatbot_app.py:26-34 | The first `20dd` token sets YEAR, whatever the DATE spans gave; with no token anywhere YEAR is the spans' year, or unset. |
| EntityExtraction.DetectQuarter | chatbot_app.py:37-44 | Unset exactly when no quarter is marked. Otherwise the result is marked, as `Qn` or `quarter n` (case-sensitive), and no lower-numbered quarter is marked. |
| EntityExtraction.FirstMatchIndex | chatbot_app.py:48-51 | The earliest lexicon entry mentioned case-insensitively, or proof that no entry is mentioned. |
| EntityExtraction.FirstMatchUnique | chatbot_app.py:48-51 | Any entry that is mentioned with no earlier entry mentioned is the one the scan stops at. |
| EntityExtraction.LexiconSlot | chatbot_app.py:47-63 | A lexicon scan writes the stored value of the earliest mentioned entry, and leaves the slot's earlier value when no entry is mentioned. |
| EntityExtraction.DepartmentPrecedence | chatbot_app.py:28-51 | DEPARTMENT is the earliest mentioned department entry. When none is mentioned it is the stripped text of the last ORG span, or unset. |
| EntityExtraction.ItemFromLexicon | chatbot_app.py:53-57 | ITEM is the stored (not the typed) value of the earliest mentioned item entry, and unset when none matches. |
| EntityExtraction.MethodFromLexicon | chatbot_app.py:59-63 | ACQUISITION_METHOD is the stored value of the earliest mentioned method entry, and unset when none matches. |
| Text.Lower | chatbot_app.py:49 | `str.lower()` on ASCII text, with no contract of its own. It is used through `Mentions`, which `FirstMatchIndex`, `ScanLexicon` and the lexicon lemmas state. |
| Text.Contains | chatbot_app.py:37 | Python's `in` on strings (some index where the substring occurs), with no contract of its own. It is used by `DetectQuarter` and `Mentions`; `MissingCharExcludes` gives one case in which it fails: a character of the substring missing from the text. |
| Text.DigitsValue | chatbot_app.py:27 | `int()` of a digit string, with no contract of its own. `Decimal` is proved to read back through it, `YearTokenValue` states its value on a year token, and `DigitsValueBound` bounds it by the length. |
| Text.DigitsValueBound | chatbot_app.py:27 | `int()` of `n` ASCII digits is below `10^n`, so a four-digit DATE span reads as at most 9999. |
| Text.Strip | chatbot_app.py:29 | `str.strip()`: the result occurs in the text with only whitespace before and after it, and neither of its ends is whitespace. |
| Text.Decimal | chatbot_app.py:98-107 | `str()` of a count (orders, and each ranked row's count): non-empty decimal digits with no leading zero that read back as the number. |
| Translation.ParseIntent | chatbot_app.py:70-128 | The label comparisons: the parsed intent carries the label back, and is `Unrecognized` exactly when the label is none of the five handled ones. |
| Translation.ParseLabel | chatbot_app.py:70-128 | Parsing an intent's label gives that intent back. An `Unrecognized` intent comes back when its name is not a handled label. |
| Translation.YearGiven | chatbot_app.py:74 | Python truthiness of YEAR (set and not 0), with no contract of its own. `PeriodFilter` and `SpendingFilter` state the year key exactly when it holds. |
| Translation.Given | chatbot_app.py:72 | Python truthiness of a text slot (set and not empty), with no contract of its own. `SpendingFilter`, `Translate` and `LookupNeedsItem` state what it decides. |
| Translation.PeriodFilter | chatbot_app.py:91-95 | The year key is present exactly when YEAR is truthy, and the quarter key exactly when QUARTER is set. Each is an exact match and there is no other key. |
| Translation.SpendingFilter | chatbot_app.py:71-77 | Adds to the period keys a department partial match exactly when DEPARTMENT is truthy. There is no other key, so ITEM and ACQUISITION_METHOD never appear. |
| Translation.ItemFilter | chatbot_app.py:112 | The lookup filter has exactly one key, a partial match of the item name on the ITEM text. |
| Translation.Translate | chatbot_app.py:68-128 | `total_spending` sums "Total Price" under the spending filter, `orders_count` counts under the period filter, and `frequent_items` ranks by item name keeping five. No query runs exactly for an unhandled label, or for a lookup without a truthy ITEM; the reply is then the fallback or "Please specify an item.". With a truthy ITEM, `supplier_information` asks for the supplier and `item_price_information` for the unit price, each under the item filter and carrying ITEM. |
| Translation.SpendingIgnoresItemAndMethod | chatbot_app.py:70-82 | The `total_spending` query depends on DEPARTMENT, YEAR and QUARTER only. |
| Translation.OrdersCountReadsPeriodOnly | chatbot_app.py:90-97 | The `orders_count` query depends on YEAR and QUARTER only, and filters on no other key. |
| Translation.FrequentItemsReadsNothing | chatbot_app.py:100-105 | `frequent_items` reads no slot: it ranks by item name, keeping five. |
| Translation.LookupsReadItemOnly | chatbot_app.py:110-126 | Both lookup queries depend on ITEM only. |
| Responses.GroupThousands | chatbot_app.py:86 | The `,` thousands separator, with no contract of its own. It is specified by `GroupThousandsDigits`, `GroupThousandsAlphabet`, `GroupThousandsCommas` and `GroupThousandsStart`. |
| Responses.Amount | chatbot_app.py:86 | Renders cents as `:,.2f` or `:.2f`, with no contract of its own. It is specified by `AmountShape` (its layout), `AmountRoundTrip`, `AmountSign` and `AmountDigits`. |
| Responses.GroupThousandsDigits | chatbot_app.py:86 | The digits of the grouped text, in order, are exactly the input digits. With `GroupThousandsAlphabet` this means grouping only inserts commas. |
| Responses.GroupThousandsAlphabet | chatbot_app.py:86 | The grouped text holds nothing but digits and commas. |
| Responses.GroupThousandsCommas | chatbot_app.py:86 | Commas stand exactly one before each group of three digits counted from the right. |
| Responses.GroupThousandsStart | chatbot_app.py:86 | Grouping keeps the leading digit first. |
| Responses.AmountSign | chatbot_app.py:86 | A rendered amount starts with a minus sign exactly when it is negative. |
| Responses.AmountDigits | chatbot_app.py:86 | The digits of a rendered amount are the whole part's digits followed by the two cent digits. |
| Responses.AmountShape | chatbot_app.py:86 | Layout of `:,.2f` (line 86) and `:.2f` (line 123): an optional minus sign, then a whole part, then a single decimal point three characters from the end, then exactly the two cent digits. The whole part is the plain decimal digits of the whole amount, or those digits grouped with commas when separators are asked for. Without separators the whole part holds digits only. |
| Responses.AmountRoundTrip | chatbot_app.py:86 | Reading back an amount rendered as at line 86 (`:,.2f`) or line 123 (`:.2f`) gives the same number of cents. |
| Responses.SpendingSentence | chatbot_app.py:84-88 | The spending sentence, with no contract of its own. It is specified by `NoDataExactly` and `SpendingReportsTotal`. |
| Responses.CountSentence | chatbot_app.py:98 | The count sentence, with no contract of its own. It is specified by `OrdersCountReported`. |
| Responses.NameText | chatbot_app.py:107 | `str()` of a group key: the name, or `None` for a missing one. It has no contract of its own. |
| Responses.RowText | chatbot_app.py:107 | One ranked row as "name (count times)". It has no contract of its own and is used through `JoinRows`. |
| Responses.JoinRows | chatbot_app.py:107 | `", ".join` of the rendered rows, with no contract of its own. `JoinRowsSplit` states it for all inputs, `JoinRowsSingle` covers one row, and `Scenarios.RankedRowsText` is a two-row example. |
| Responses.JoinRowsSplit | chatbot_app.py:107 | For all non-empty row lists, joining a concatenation puts exactly one ", " between the two joined parts, so the rows appear in order, each once. |
| Responses.JoinRowsSingle | chatbot_app.py:107 | One row is rendered alone, without a separator. |
| Responses.FrequentSentence | chatbot_app.py:108 | The ranking sentence, with no contract of its own. It is specified by `FrequentItemsReported`. |
| Responses.SupplierSentence | chatbot_app.py:113-115 | The supplier sentence, with no contract of its own. It is specified by `LookupAnswers`. |
| Responses.PriceSentence | chatbot_app.py:122-124 | The price sentence, with no contract of its own. It is specified by `LookupAnswers`. |
| Responses.Respond | chatbot_app.py:68-128 | `get_response` on the raw predicted label, with no contract of its own. It is specified by `UnknownLabelFallback` and `RespondKnownLabel`. |
| Responses.RespondKnownLabel | chatbot_app.py:70-126 | A handled label is one of the five, and is answered as its own intent whatever the entities and the datastore. |
| Responses.GetResponse | chatbot_app.py:68-128 | `get_response` itself, with no contract of its own. Per intent it is specified by `SpendingWithoutData`, `SpendingReportsTotal`, `OrdersCountReported`, `FrequentItemsReported`, `LookupNeedsItem`, `LookupAnswers` and `UnknownLabelFallback`, and overall by `ResponseNonEmpty`. |
| Responses.OrdersCountReported | chatbot_app.py:90-98 | `orders_count` reports the number of documents matching the period filter, in decimal digits that read back as that number. |
| Responses.FrequentItemsReported | chatbot_app.py:100-108 | `frequent_items` joins the ranking by item name, limited to five, whatever the entities. An empty ranking still gives the sentence, with nothing listed. |
| Responses.NoDataExactly | chatbot_app.py:84-88 | The spending sentence is the no-data sentence exactly when the aggregate is empty or its first document has no total. A zero total is reported. |
| Responses.SpendingWithoutData | chatbot_app.py:79-88 | `total_spending` with an empty or sum-less aggregate answers "No data available for the specified query." for every filter. |
| Responses.SpendingReportsTotal | chatbot_app.py:83-86 | A present total is reported with separators and two decimals, and the rendered amount reads back as that total. |
| Responses.LookupNeedsItem | chatbot_app.py:110-126 | With ITEM falsy, both lookups answer "Please specify an item." and the answer does not depend on the datastore. |
| Responses.LookupAnswers | chatbot_app.py:111-124 | With ITEM truthy, each lookup reports the supplier or unit price of the document the item filter finds, and otherwise says nothing was found. Either way it names the ITEM value verbatim. |
| Responses.UnknownLabelFallback | chatbot_app.py:128 | Every label outside the five handled ones gets "I'm not sure how to answer that." whatever the entities and the datastore. |
| Responses.ResponseNonEmpty | chatbot_app.py:68-128 | Every intent gets a non-empty sentence. |
| Scenarios.SpendingScenario | chatbot_app.py:20-86 | "How much did we spend on printers in 2022 Q3?" yields YEAR 2022, QUARTER Q3 and ITEM "Printer". The spending filter leaves ITEM out, and a total of 1500050 cents reads "$15,000.50". |
| Scenarios.FrequentItemsScenario | chatbot_app.py:100-108 | Two ranked rows are joined as "Printer (12 times), Paper (9 times)", whatever the entities. |
| Scenarios.PriceNotFoundScenario | chatbot_app.py:119-124 | "what is the price of Printer" finds ITEM "Printer". With no matching document the answer echoes it. |
| Scenarios.QuarterOrderScenario | chatbot_app.py:37-44 | "Q2" beats "quarter 4", and an added "Q1" beats both. |
| Scenarios.ZeroYearScenario | chatbot_app.py:26-75 | A DATE span "0000" sets YEAR to 0, which is falsy, so the spending filter has no year key. |

## Left out

- The spaCy model and the `nlp(...)` call: a foreign NLP library. Its entity spans are an input sequence.
- The classifier and vectorizer and their `predict`: an opaque statistical model. Its label is an input string.
- The MongoDB connection and the `distinct`, `aggregate`, `count_documents` and `find_one` calls: database I/O.
  - The `distinct` lists are the `Lexicons` parameter.
  - The query answers are the functions of `Store`. The model does not constrain them.
  - Datastore failures, which the code lets propagate as exceptions, are not modelled.
- MongoDB `$regex` semantics: a department or item constraint is an uninterpreted `PartialMatch(pattern)`. The unescaped use of the entity text as a pattern is not modelled.
- The `$group`/`$sort`/`$limit` pipeline of `frequent_items`: it is recorded as `RankBy(ItemField, TopItemsLimit)` (five rows) and is not executed.
- The KeyError the code raises when a found document lacks "Supplier Name" or "Unit Price": the `Store` lookups return the field itself.
- Non-string lexicon values, on which `.lower()` would raise: lexicon entries are strings.
- Group keys, supplier names and unit prices of other types: `ItemCount.name` is a string or `None`, a supplier name is a string and a unit price is cents. A key that is a number or another value, rendered by Python's `str()`, is not represented.
- The Streamlit interface: UI code.
- Responses.AmountRoundTrip: amounts are integer cents, a relaxation of the float formatting `:,.2f` and `:.2f`. Rounding of values with more than two decimals is not modelled.
- Text.Strip: ASCII whitespace only. `\d` and `\w` are ASCII classes, and `str.lower` is ASCII lower-casing, so Unicode case mappings and Unicode digits are not modelled.
