/** Entity extraction (`extract_entities`): fills the five entity slots of a question from
    the named-entity spans a recogniser found in it, from a scan for an explicit year, from
    fixed quarter markers and from the three lexicons of known departments, items and
    acquisition methods. Later steps override earlier ones in a fixed order. */
module EntityExtraction {
  import opened Wrappers
  import opened Text

  /** One named-entity span: the recogniser's label (`DATE`, `ORG`, ...) and the span's text. */
  datatype Span = Span(kind: string, text: string)

  datatype Quarter = Q1 | Q2 | Q3 | Q4

  /** The five slots; `None` is an unset slot. */
  datatype Entities = Entities(
    year: Option<int>,
    department: Option<string>,
    item: Option<string>,
    quarter: Option<Quarter>,
    acquisitionMethod: Option<string>)

  /** The distinct "Department Name", "Item Name" and "Acquisition Method" values of the
      purchase orders, in the order the datastore lists them. */
  datatype Lexicons = Lexicons(
    departments: seq<string>,
    items: seq<string>,
    acquisitionMethods: seq<string>)

  const NoEntities := Entities(None, None, None, None, None)

  // ---------------------------------------------------------------------------------------
  // Named-entity spans

  /** A DATE span whose whole text is four digits. */
  predicate IsYearSpan(span: Span) {
    span.kind == "DATE" && |span.text| == 4 && AllDigits(span.text)
  }

  predicate IsOrgSpan(span: Span) {
    span.kind == "ORG"
  }

  /** The index of the last span satisfying `p`: the one a loop that overwrites a slot at
      every such span leaves behind. */
  function LastWhere(spans: seq<Span>, p: Span -> bool): (r: Option<nat>)
    ensures r.Some? ==>
      r.value < |spans| && p(spans[r.value]) &&
      forall j :: r.value < j < |spans| ==> !p(spans[j])
    ensures r.None? ==> forall j :: 0 <= j < |spans| ==> !p(spans[j])
  {
    if spans == [] then None
    else if p(spans[|spans| - 1]) then Some(|spans| - 1)
    else LastWhere(spans[..|spans| - 1], p)
  }

  /** The year the spans alone give: the value of the last four-digit DATE span. */
  function NerYear(spans: seq<Span>): Option<int> {
    match LastWhere(spans, IsYearSpan)
    case Some(k) => Some(DigitsValue(spans[k].text))
    case None => None
  }

  /** The department the spans alone give: the stripped text of the last ORG span. */
  function NerDepartment(spans: seq<Span>): Option<string> {
    match LastWhere(spans, IsOrgSpan)
    case Some(k) => Some(Strip(spans[k].text))
    case None => None
  }

  // ---------------------------------------------------------------------------------------
  // The explicit year, `\b(20\d{2})\b`

  /** A match of `\b(20\d{2})\b` starts at index `i`. */
  predicate YearTokenAt(s: string, i: int) {
    0 <= i && i + 4 <= |s| &&
    s[i] == '2' && s[i + 1] == '0' && IsDigit(s[i + 2]) && IsDigit(s[i + 3]) &&
    (i == 0 || !IsWordChar(s[i - 1])) &&
    (i + 4 == |s| || !IsWordChar(s[i + 4]))
  }

  /** The integer value of the token at `i`. */
  function YearTokenValue(s: string, i: int): (y: int)
    requires YearTokenAt(s, i)
    ensures 2000 <= y <= 2099
    ensures y == 2000 + 10 * DigitValue(s[i + 2]) + DigitValue(s[i + 3])
  {
    var one := [s[i]];
    assert DigitsValue(one) == 2 by { assert one[..0] == []; }
    var two := one + [s[i + 1]];
    assert two[..1] == one;
    assert DigitsValue(two) == 20;
    var three := two + [s[i + 2]];
    assert three[..2] == two;
    assert DigitsValue(three) == 200 + DigitValue(s[i + 2]);
    var four := three + [s[i + 3]];
    assert four[..3] == three;
    assert DigitsValue(four) == 2000 + 10 * DigitValue(s[i + 2]) + DigitValue(s[i + 3]);
    assert four == s[i..i + 4];
    DigitsValue(s[i..i + 4])
  }

  /** The leftmost match of the year pattern at or after `from`, as `re.search` finds it. */
  function YearSearch(s: string, from: nat): (r: Option<nat>)
    decreases |s| - from
    ensures r.Some? ==>
      from <= r.value && YearTokenAt(s, r.value) &&
      forall j :: from <= j < r.value ==> !YearTokenAt(s, j)
    ensures r.None? ==> forall j :: from <= j ==> !YearTokenAt(s, j)
  {
    if from + 4 > |s| then None
    else if YearTokenAt(s, from) then Some(from)
    else YearSearch(s, from + 1)
  }

  // ---------------------------------------------------------------------------------------
  // Quarters

  function QuarterNumber(q: Quarter): nat {
    match q
    case Q1 => 1
    case Q2 => 2
    case Q3 => 3
    case Q4 => 4
  }

  /** The value stored in the QUARTER slot, and the short marker looked for in the text. */
  function QuarterName(q: Quarter): string {
    match q
    case Q1 => "Q1"
    case Q2 => "Q2"
    case Q3 => "Q3"
    case Q4 => "Q4"
  }

  /** The long marker looked for in the text. */
  function QuarterPhrase(q: Quarter): string {
    match q
    case Q1 => "quarter 1"
    case Q2 => "quarter 2"
    case Q3 => "quarter 3"
    case Q4 => "quarter 4"
  }

  /** The text names quarter `q`, case-sensitively, in either form. */
  predicate Marked(s: string, q: Quarter) {
    Contains(s, QuarterName(q)) || Contains(s, QuarterPhrase(q))
  }

  /** The quarter chain: the first quarter, in the order Q1 .. Q4, that the text marks. */
  function DetectQuarter(s: string): (r: Option<Quarter>)
    ensures r.None? <==> forall q :: !Marked(s, q)
    ensures r.Some? ==>
      Marked(s, r.value) &&
      forall q :: QuarterNumber(q) < QuarterNumber(r.value) ==> !Marked(s, q)
  {
    if Marked(s, Q1) then Some(Q1)
    else if Marked(s, Q2) then Some(Q2)
    else if Marked(s, Q3) then Some(Q3)
    else if Marked(s, Q4) then Some(Q4)
    else None
  }

  // ---------------------------------------------------------------------------------------
  // Lexicons

  /** The lexicon entry occurs in the text, both lower-cased. */
  predicate Mentions(text: string, entry: string) {
    Contains(Lower(text), Lower(entry))
  }

  /** The position of the first lexicon entry the text mentions. */
  function FirstMatchIndex(lexicon: seq<string>, text: string): (r: Option<nat>)
    ensures r.Some? ==>
      r.value < |lexicon| && Mentions(text, lexicon[r.value]) &&
      forall j :: 0 <= j < r.value ==> !Mentions(text, lexicon[j])
    ensures r.None? ==> forall j :: 0 <= j < |lexicon| ==> !Mentions(text, lexicon[j])
  {
    if lexicon == [] then None
    else if Mentions(text, lexicon[0]) then Some(0)
    else
      match FirstMatchIndex(lexicon[1..], text)
      case Some(k) => Some(k + 1)
      case None => None
  }

  /** The slot after a scan of `lexicon`: the stored entry that matched first, or the slot's
      earlier value when no entry matches. */
  function LexiconValue(lexicon: seq<string>, text: string, current: Option<string>): Option<string> {
    match FirstMatchIndex(lexicon, text)
    case Some(k) => Some(lexicon[k])
    case None => current
  }

  // ---------------------------------------------------------------------------------------
  // The whole extraction

  /** What the extraction yields for a question, its spans and the lexicons. */
  function Extraction(text: string, spans: seq<Span>, lexicons: Lexicons): Entities {
    Entities(
      year :=
        match YearSearch(text, 0)
        case Some(i) => Some(YearTokenValue(text, i))
        case None => NerYear(spans),
      department := LexiconValue(lexicons.departments, text, NerDepartment(spans)),
      item := LexiconValue(lexicons.items, text, None),
      quarter := DetectQuarter(text),
      acquisitionMethod := LexiconValue(lexicons.acquisitionMethods, text, None))
  }

  /** One lexicon loop: the first entry the lower-cased text contains overwrites `slot`,
      and the loop stops there. */
  method ScanLexicon(lexicon: seq<string>, text: string, slot: Option<string>)
    returns (updated: Option<string>)
    ensures updated == LexiconValue(lexicon, text, slot)
  {
    updated := slot;
    var lowered := Lower(text);
    for i := 0 to |lexicon|
      invariant updated == slot
      invariant forall j :: 0 <= j < i ==> !Mentions(text, lexicon[j])
    {
      if Contains(lowered, Lower(lexicon[i])) {
        updated := Some(lexicon[i]);
        break;
      }
    }
  }

  /** The loop over the recogniser's spans: every four-digit DATE span overwrites the year,
      every ORG span the department. */
  method ScanSpans(spans: seq<Span>) returns (year: Option<int>, department: Option<string>)
    ensures year == NerYear(spans) && department == NerDepartment(spans)
  {
    year, department := None, None;
    for k := 0 to |spans|
      invariant year == NerYear(spans[..k]) && department == NerDepartment(spans[..k])
    {
      assert spans[..k + 1][..k] == spans[..k];
      var span := spans[k];
      if IsYearSpan(span) {
        year := Some(DigitsValue(span.text));
      } else if IsOrgSpan(span) {
        department := Some(Strip(span.text));
      }
    }
    assert spans[..|spans|] == spans;
  }

  /** `extract_entities`, step by step on one record. */
  method ExtractEntities(text: string, spans: seq<Span>, lexicons: Lexicons)
    returns (entities: Entities)
    ensures entities == Extraction(text, spans, lexicons)
  {
    entities := NoEntities;
    var nerYear, nerDepartment := ScanSpans(spans);
    entities := entities.(year := nerYear, department := nerDepartment);

    var yearMatch := YearSearch(text, 0);
    if yearMatch.Some? {
      entities := entities.(year := Some(YearTokenValue(text, yearMatch.value)));
    }

    var quarter := DetectQuarter(text);
    if quarter.Some? {
      entities := entities.(quarter := quarter);
    }

    var department := ScanLexicon(lexicons.departments, text, entities.department);
    entities := entities.(department := department);
    var item := ScanLexicon(lexicons.items, text, entities.item);
    entities := entities.(item := item);
    var acquisitionMethod := ScanLexicon(lexicons.acquisitionMethods, text, entities.acquisitionMethod);
    entities := entities.(acquisitionMethod := acquisitionMethod);
  }

  // ---------------------------------------------------------------------------------------
  // Properties of the extraction

  /** The first word-bounded `20dd` token decides YEAR, whatever the DATE spans said; with no
      such token YEAR is what the last four-digit DATE span gave, or unset. */
  lemma YearPrecedence(text: string, spans: seq<Span>, lexicons: Lexicons, i: nat)
    ensures YearTokenAt(text, i) && (forall j :: 0 <= j < i ==> !YearTokenAt(text, j)) ==>
      Extraction(text, spans, lexicons).year == Some(YearTokenValue(text, i))
    ensures (forall j :: 0 <= j < |text| ==> !YearTokenAt(text, j)) ==>
      Extraction(text, spans, lexicons).year == NerYear(spans)
  {
    var found := YearSearch(text, 0);
    if found.Some? && YearTokenAt(text, i) && (forall j :: 0 <= j < i ==> !YearTokenAt(text, j)) {
      assert found.value == i by {
        assert !(found.value < i) && !(i < found.value);
      }
    }
  }

  /** The spans' year is the value of a four-digit DATE span that no later such span
      follows. */
  lemma NerYearIsLast(spans: seq<Span>, k: nat)
    requires k < |spans| && IsYearSpan(spans[k])
    requires forall j :: k < j < |spans| ==> !IsYearSpan(spans[j])
    ensures NerYear(spans) == Some(DigitsValue(spans[k].text))
  {
  }

  /** The spans give no year exactly when none of them is a four-digit DATE span. */
  lemma NerYearUnset(spans: seq<Span>)
    ensures NerYear(spans).None? <==> forall j :: 0 <= j < |spans| ==> !IsYearSpan(spans[j])
  {
    var last := LastWhere(spans, IsYearSpan);
    if last.Some? {
      assert IsYearSpan(spans[last.value]);
    }
  }

  /** A year the spans give is the value of one of their four-digit DATE spans, so it has
      at most four digits. */
  lemma NerYearDomain(spans: seq<Span>)
    ensures NerYear(spans).Some? ==> 0 <= NerYear(spans).value <= 9999
    ensures NerYear(spans).Some? ==>
      exists k :: 0 <= k < |spans| && IsYearSpan(spans[k]) && NerYear(spans).value == DigitsValue(spans[k].text)
  {
    var last := LastWhere(spans, IsYearSpan);
    if last.Some? {
      var k := last.value;
      DigitsValueBound(spans[k].text);
      assert Pow10(4) == 10000;
    }
  }

  /** A set YEAR is a four-digit value: the value of the first word-bounded `20dd` token, or,
      with no token in the text, the value of a four-digit DATE span. */
  lemma YearDomain(text: string, spans: seq<Span>, lexicons: Lexicons)
    ensures var year := Extraction(text, spans, lexicons).year;
      year.Some? ==> 0 <= year.value <= 9999
    ensures var year := Extraction(text, spans, lexicons).year;
      year.Some? ==>
        (exists i :: YearTokenAt(text, i) && (forall j :: 0 <= j < i ==> !YearTokenAt(text, j)) &&
           year.value == YearTokenValue(text, i)) ||
        ((forall j :: 0 <= j < |text| ==> !YearTokenAt(text, j)) &&
         exists k :: 0 <= k < |spans| && IsYearSpan(spans[k]) && year.value == DigitsValue(spans[k].text))
  {
    var found := YearSearch(text, 0);
    if found.Some? {
      var i := found.value;
      assert YearTokenAt(text, i) && (forall j :: 0 <= j < i ==> !YearTokenAt(text, j));
    } else {
      NerYearDomain(spans);
    }
  }

  /** Entry `k` is the earliest entry of the lexicon that the text mentions. */
  predicate FirstMentioned(lexicon: seq<string>, text: string, k: int) {
    0 <= k < |lexicon| && Mentions(text, lexicon[k]) &&
    forall j :: 0 <= j < k ==> !Mentions(text, lexicon[j])
  }

  /** The text mentions no entry of the lexicon. */
  predicate NoneMentioned(lexicon: seq<string>, text: string) {
    forall j :: 0 <= j < |lexicon| ==> !Mentions(text, lexicon[j])
  }

  /** A lexicon scan writes the earliest mentioned entry, or leaves the slot alone. */
  lemma LexiconSlot(lexicon: seq<string>, text: string, current: Option<string>, k: int)
    ensures FirstMentioned(lexicon, text, k) ==> LexiconValue(lexicon, text, current) == Some(lexicon[k])
    ensures NoneMentioned(lexicon, text) ==> LexiconValue(lexicon, text, current) == current
  {
    if FirstMentioned(lexicon, text, k) {
      FirstMatchUnique(lexicon, text, k);
    }
  }

  /** DEPARTMENT is the earliest department entry the text mentions; when none matches, it is
      the stripped text of the last ORG span, or unset when there is none. */
  lemma DepartmentPrecedence(text: string, spans: seq<Span>, lexicons: Lexicons, k: int)
    ensures FirstMentioned(lexicons.departments, text, k) ==>
      Extraction(text, spans, lexicons).department == Some(lexicons.departments[k])
    ensures NoneMentioned(lexicons.departments, text) ==>
      Extraction(text, spans, lexicons).department ==
        match LastWhere(spans, IsOrgSpan)
        case Some(j) => Some(Strip(spans[j].text))
        case None => None
  {
    LexiconSlot(lexicons.departments, text, NerDepartment(spans), k);
  }

  /** ITEM is the stored value of the earliest item entry the text mentions, and unset when
      none matches. */
  lemma ItemFromLexicon(text: string, spans: seq<Span>, lexicons: Lexicons, k: int)
    ensures FirstMentioned(lexicons.items, text, k) ==>
      Extraction(text, spans, lexicons).item == Some(lexicons.items[k])
    ensures NoneMentioned(lexicons.items, text) ==> Extraction(text, spans, lexicons).item == None
  {
    LexiconSlot(lexicons.items, text, None, k);
  }

  /** ACQUISITION_METHOD is the stored value of the earliest method entry the text mentions,
      and unset when none matches. */
  lemma MethodFromLexicon(text: string, spans: seq<Span>, lexicons: Lexicons, k: int)
    ensures FirstMentioned(lexicons.acquisitionMethods, text, k) ==>
      Extraction(text, spans, lexicons).acquisitionMethod == Some(lexicons.acquisitionMethods[k])
    ensures NoneMentioned(lexicons.acquisitionMethods, text) ==>
      Extraction(text, spans, lexicons).acquisitionMethod == None
  {
    LexiconSlot(lexicons.acquisitionMethods, text, None, k);
  }

  /** The first mentioned entry is the one the scan reports. */
  lemma FirstMatchUnique(lexicon: seq<string>, text: string, k: nat)
    requires FirstMentioned(lexicon, text, k)
    ensures FirstMatchIndex(lexicon, text) == Some(k)
  {
  }
}
