/** Whole questions taken through extraction, translation and formatting, with the
    classifier's label, the recogniser's spans, the lexicons and the datastore's answers
    fixed by hand. */
module Scenarios {
  import opened Wrappers
  import opened Text
  import opened EntityExtraction
  import opened Translation
  import opened Responses

  const SpendQuestion := "How much did we spend on printers in 2022 Q3?"
  const PriceQuestion := "what is the price of Printer"
  const PrinterOnly := Lexicons([], ["Printer"], [])

  /** Why no year token starts before index 37. */
  lemma SpendQuestionYearShape()
    ensures SpendQuestion == "How much did we spend on printers in " + "2022 Q3?"
    ensures '2' !in "How much did we spend on printers in "
  {
  }

  /** Why no `Q` stands before index 42. */
  lemma SpendQuestionQuarterShape()
    ensures SpendQuestion == "How much did we spend on printers in 2022 " + "Q3?"
    ensures 'Q' !in "How much did we spend on printers in 2022 "
  {
  }

  /** The question has no `q`. */
  lemma SpendQuestionNoLowerQ()
    ensures 'q' !in SpendQuestion
  {
    SpendQuestionYearShape();
    assert 'q' !in "How much did we spend on printers in ";
  }

  /** An entry is mentioned when some piece of the text lower-cases to the lower-cased entry. */
  lemma MentionedAt(text: string, entry: string, at: nat)
    requires at + |entry| <= |text| && Lower(text[at..at + |entry|]) == Lower(entry)
    ensures Mentions(text, entry)
  {
    var lowered := Lower(text);
    assert lowered[at..at + |entry|] == Lower(text[at..at + |entry|]);
    assert OccursAt(lowered, Lower(entry), at);
  }

  lemma LowerPrinter()
    ensures Lower("Printer") == "printer" && Lower("printer") == "printer"
  {
  }

  lemma SpendQuestionYear()
    ensures YearSearch(SpendQuestion, 0) == Some(37)
  {
    var s := SpendQuestion;
    SpendQuestionYearShape();
    var before := "How much did we spend on printers in ";
    forall j | 0 <= j < 37
      ensures !YearTokenAt(s, j)
    {
      assert s[j] == before[j];
    }
    assert YearTokenAt(s, 37);
  }

  /** The only `Q` of the question is the one at index 42. */
  lemma SpendQuestionOneQ()
    ensures forall i | 0 <= i < |SpendQuestion| :: SpendQuestion[i] == 'Q' ==> i == 42
  {
    SpendQuestionQuarterShape();
  }

  /** No quarter code but `Q3` occurs in the question. */
  lemma SpendQuestionNoCode(code: string)
    requires |code| == 2 && code[0] == 'Q' && code[1] != '3'
    ensures !Contains(SpendQuestion, code)
  {
    var s := SpendQuestion;
    SpendQuestionOneQ();
    assert s[43] == '3';
    forall i | 0 <= i <= |s|
      ensures !OccursAt(s, code, i)
    {
      if i + 2 <= |s| {
        assert s[i..i + 2][0] == s[i] && s[i..i + 2][1] == s[i + 1];
      }
    }
  }

  lemma SpendQuestionQuarter()
    ensures DetectQuarter(SpendQuestion) == Some(Q3)
  {
    var s := SpendQuestion;
    SpendQuestionNoLowerQ();
    SpendQuestionNoCode("Q1");
    SpendQuestionNoCode("Q2");
    MissingCharExcludes(s, "quarter 1", 0);
    MissingCharExcludes(s, "quarter 2", 0);
    assert OccursAt(s, "Q3", 42);
  }

  lemma SpendQuestionYearValue()
    ensures YearTokenValue(SpendQuestion, 37) == 2022
  {
    SpendQuestionYearShape();
    assert SpendQuestion[39] == '2' && SpendQuestion[40] == '2';
  }

  lemma SpendQuestionItem()
    ensures FirstMatchIndex(["Printer"], SpendQuestion) == Some(0)
  {
    LowerPrinter();
    assert SpendQuestion[25..32] == "printer";
    MentionedAt(SpendQuestion, "Printer", 25);
  }

  lemma SpendQuestionEntities()
    ensures Extraction(SpendQuestion, [], PrinterOnly) ==
      Entities(Some(2022), None, Some("Printer"), Some(Q3), None)
  {
    SpendQuestionYear();
    SpendQuestionYearValue();
    SpendQuestionQuarter();
    SpendQuestionItem();
  }

  lemma FifteenThousand()
    ensures Decimal(15000) == "15000"
  {
    assert Decimal(1) == "1";
    assert Decimal(15) == "15";
    assert Decimal(150) == "150";
    assert Decimal(1500) == "1500";
  }

  lemma FifteenThousandGrouped()
    ensures GroupThousands("15000") == "15,000"
  {
    assert "15000"[..2] == "15" && "15000"[2..] == "000";
    assert GroupThousands("15") == "15";
  }

  lemma SpendingAmountText()
    ensures Amount(1500050, true) == "15,000.50"
  {
    FifteenThousand();
    FifteenThousandGrouped();
    var cents := Cents(1500050);
    assert cents == "50";
    assert Amount(1500050, true) == "" + "15,000" + "." + cents;
  }

  lemma SpendingSentenceText()
    ensures SpendingSentence([Some(1500050)]) == "The total spending is $" + "15,000.50" + "."
  {
    SpendingAmountText();
  }

  lemma SpendQuestionQuery()
    ensures Translate(TotalSpending, Entities(Some(2022), None, Some("Printer"), Some(Q3), None)) ==
      SumOf(map[YearField := EqualsNumber(2022), QuarterField := EqualsText("Q3")], TotalPriceField)
  {
    var e := Entities(Some(2022), None, Some("Printer"), Some(Q3), None);
    assert PeriodFilter(e) == map[YearField := EqualsNumber(2022), QuarterField := EqualsText("Q3")];
  }

  /** "How much did we spend on printers in 2022 Q3?" with "Printer" in the item lexicon
      yields YEAR 2022, QUARTER Q3 and ITEM "Printer"; `total_spending` leaves ITEM out of
      the filter, and a total of 15,000.50 is phrased with separators and two decimals. */
  lemma SpendingScenario(store: Store)
    requires store.sumGroups(map[YearField := EqualsNumber(2022), QuarterField := EqualsText("Q3")],
      TotalPriceField) == [Some(1500050)]
    ensures Extraction(SpendQuestion, [], PrinterOnly) ==
      Entities(Some(2022), None, Some("Printer"), Some(Q3), None)
    ensures GetResponse(TotalSpending, Extraction(SpendQuestion, [], PrinterOnly), store) ==
      "The total spending is $" + "15,000.50" + "."
  {
    SpendQuestionEntities();
    SpendQuestionQuery();
    SpendingSentenceText();
  }

  lemma PrinterRowText()
    ensures RowText(ItemCount(Some("Printer"), 12)) == "Printer (12 times)"
  {
    assert Decimal(12) == "12" by { assert Decimal(1) == "1"; }
  }

  lemma PaperRowText()
    ensures RowText(ItemCount(Some("Paper"), 9)) == "Paper (9 times)"
  {
    assert Decimal(9) == "9";
  }

  /** Two rows are joined with one separator. */
  lemma JoinTwo(first: ItemCount, second: ItemCount)
    ensures JoinRows([first, second]) == RowText(first) + ", " + RowText(second)
  {
    assert [first, second][1..] == [second];
  }

  lemma RankedRowsText()
    ensures JoinRows([ItemCount(Some("Printer"), 12), ItemCount(Some("Paper"), 9)]) ==
      "Printer (12 times)" + ", " + "Paper (9 times)"
  {
    JoinTwo(ItemCount(Some("Printer"), 12), ItemCount(Some("Paper"), 9));
    PrinterRowText();
    PaperRowText();
  }

  lemma RankedSentence()
    ensures FrequentSentence([ItemCount(Some("Printer"), 12), ItemCount(Some("Paper"), 9)]) ==
      "The most frequently ordered items are: " + ("Printer (12 times)" + ", " + "Paper (9 times)") + "."
  {
    RankedRowsText();
  }

  /** `frequent_items` reads no entity and joins the ranked rows with their counts. */
  lemma FrequentItemsScenario(e: Entities, store: Store)
    requires store.rankGroups(ItemField, TopItemsLimit) ==
      [ItemCount(Some("Printer"), 12), ItemCount(Some("Paper"), 9)]
    ensures GetResponse(ParseIntent("frequent_items"), e, store) ==
      "The most frequently ordered items are: " + ("Printer (12 times)" + ", " + "Paper (9 times)") + "."
  {
    assert ParseIntent("frequent_items") == FrequentItems;
    assert Translate(FrequentItems, e) == RankBy(ItemField, TopItemsLimit);
    RankedSentence();
  }

  lemma PriceQuestionItem()
    ensures FirstMatchIndex(["Printer"], PriceQuestion) == Some(0)
  {
    LowerPrinter();
    assert PriceQuestion[21..28] == "Printer";
    MentionedAt(PriceQuestion, "Printer", 21);
  }

  /** "what is the price of Printer" finds ITEM "Printer"; with no matching document the
      answer echoes that value. */
  lemma PriceNotFoundScenario(spans: seq<Span>, store: Store)
    requires store.findUnitPrice(ItemFilter("Printer")) == None
    ensures Extraction(PriceQuestion, spans, PrinterOnly).item == Some("Printer")
    ensures GetResponse(ParseIntent("item_price_information"), Extraction(PriceQuestion, spans, PrinterOnly), store) ==
      "No pricing information found for " + "Printer" + "."
  {
    PriceQuestionItem();
    ItemFromLexicon(PriceQuestion, spans, PrinterOnly, 0);
    PriceNotFoundAnswer(Extraction(PriceQuestion, spans, PrinterOnly), store);
  }

  lemma PriceNotFoundAnswer(e: Entities, store: Store)
    requires e.item == Some("Printer") && store.findUnitPrice(ItemFilter("Printer")) == None
    ensures GetResponse(ParseIntent("item_price_information"), e, store) ==
      "No pricing information found for " + "Printer" + "."
  {
    assert ParseIntent("item_price_information") == ItemPriceInformation;
  }

  /** The quarter markers are tried in the order Q1 .. Q4, not by position in the text:
      "Q2" beats "quarter 4", and an added "Q1" beats both. */
  lemma QuarterOrderScenario()
    ensures DetectQuarter("quarter 4 or Q2") == Some(Q2)
    ensures DetectQuarter("quarter 4 or Q2 or Q1") == Some(Q1)
  {
    var s := "quarter 4 or Q2";
    MissingCharExcludes(s, "Q1", 1);
    MissingCharExcludes(s, "quarter 1", 8);
    assert OccursAt(s, "Q2", 13);
    assert OccursAt("quarter 4 or Q2 or Q1", "Q1", 19);
  }

  lemma ZeroDigits()
    ensures DigitsValue("0000") == 0
  {
    assert "0000"[..3] == "000" && "000"[..2] == "00" && "00"[..1] == "0" && "0"[..0] == "";
  }

  lemma NoQuarterInSpend()
    ensures DetectQuarter("spend") == None
  {
    MissingCharExcludes("spend", "Q1", 0);
    MissingCharExcludes("spend", "Q2", 0);
    MissingCharExcludes("spend", "Q3", 0);
    MissingCharExcludes("spend", "Q4", 0);
    MissingCharExcludes("spend", "quarter 1", 0);
    MissingCharExcludes("spend", "quarter 2", 0);
    MissingCharExcludes("spend", "quarter 3", 0);
    MissingCharExcludes("spend", "quarter 4", 0);
  }

  /** A DATE span "0000" sets YEAR to 0, which Python treats as false: the spending filter
      then has no year constraint. */
  lemma ZeroYearScenario()
    ensures Extraction("spend", [Span("DATE", "0000")], Lexicons([], [], [])).year == Some(0)
    ensures SpendingFilter(Extraction("spend", [Span("DATE", "0000")], Lexicons([], [], []))) == map[]
  {
    var spans := [Span("DATE", "0000")];
    assert IsYearSpan(spans[0]);
    ZeroDigits();
    assert YearSearch("spend", 0) == None;
    NoQuarterInSpend();
  }
}
