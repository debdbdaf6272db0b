// What the fare checks promise, stated over the specification functions of FareValidation:
// which document produces which diagnostic, the boundaries of every numeric rule, and
// the effect of running `validate()` twice on one validator.
module FareProperties {
  import opened XmlTree
  import opened TextPatterns
  import opened Conversions
  import opened Diagnostics
  import opened FareValidation

  // ---------------------------------------------------------------------------------------
  // The whole pass

  /** A quote is valid exactly when none of the six checks reports an error; no warning
      has any say in it. */
  lemma FareValidIff(root: Node)
    ensures FareReport(root).errors == [] <==>
      && StructureFindings(root).errors == []
      && FareBasisFindings(root).errors == []
      && PricingFindings(root).errors == []
      && FareRuleFindings(root).errors == []
      && AvailabilityFindings(root).errors == []
      && CurrencyFindings(root).errors == []
  {
  }

  // ---------------------------------------------------------------------------------------
  // Structure

  /** MissingFields reports exactly the listed fields that have no child, and nothing else. */
  lemma {:induction false} MissingFieldsIff(info: Node, fields: seq<string>, e: FareError)
    ensures e in MissingFields(info, fields) <==>
      e.MissingRequiredField? && e.field in fields && FindChild(info, e.field).None?
    ensures |MissingFields(info, fields)| <= |fields|
  {
    if fields != [] {
      var init := fields[..|fields| - 1];
      MissingFieldsIff(info, init, e);
      assert fields == init + [fields[|fields| - 1]];
    }
  }

  /** Without FareInfo the structure check reports that alone; with it, one error per absent
      required child, in the order FareReference, FareBasis, ValidatingCarrier. */
  lemma StructureOutcomes(root: Node)
    ensures FindChild(root, "FareInfo").None? ==> StructureFindings(root) == Findings([MissingFareInfo], [])
    ensures FindChild(root, "FareInfo").Some? ==>
      var info := FindChild(root, "FareInfo").value;
      StructureFindings(root).warnings == [] &&
      StructureFindings(root).errors ==
        (if FindChild(info, "FareReference").None? then [MissingRequiredField("FareReference")] else [])
        + (if FindChild(info, "FareBasis").None? then [MissingRequiredField("FareBasis")] else [])
        + (if FindChild(info, "ValidatingCarrier").None? then [MissingRequiredField("ValidatingCarrier")] else [])
  {
    if FindChild(root, "FareInfo").Some? {
      var info := FindChild(root, "FareInfo").value;
      var two: seq<string> := ["FareReference", "FareBasis"];
      var one: seq<string> := ["FareReference"];
      assert RequiredFields[..2] == two && two[..1] == one && one[..0] == [];
      assert MissingFields(info, one) ==
        (if FindChild(info, "FareReference").None? then [MissingRequiredField("FareReference")] else []);
      assert MissingFields(info, two) == MissingFields(info, one)
        + (if FindChild(info, "FareBasis").None? then [MissingRequiredField("FareBasis")] else []);
      assert MissingFields(info, RequiredFields) == MissingFields(info, two)
        + (if FindChild(info, "ValidatingCarrier").None? then [MissingRequiredField("ValidatingCarrier")] else []);
    }
  }

  /** A FareInfo holding only a FareReference (the document of the missing-fields test)
      draws the two remaining fields, in order. */
  lemma MissingFieldsExample()
    ensures
      var info := Node("FareInfo", map[], None, [Node("FareReference", map[], Some("FARE2025001"), [])]);
      MissingFields(info, RequiredFields) == [MissingRequiredField("FareBasis"), MissingRequiredField("ValidatingCarrier")]
  {
    var info := Node("FareInfo", map[], None, [Node("FareReference", map[], Some("FARE2025001"), [])]);
    assert FindChild(info, "FareReference").Some?;
    assert FindChild(info, "FareBasis").None?;
    assert FindChild(info, "ValidatingCarrier").None?;
    var root := Node("FareResponse", map[], None, [info]);
    assert FindChild(root, "FareInfo") == Some(info);
    StructureOutcomes(root);
  }

  // ---------------------------------------------------------------------------------------
  // Fare-basis codes

  /** A fare-basis error names a code exactly when some FareBasis element, anywhere below the
      root, holds that code and the code is not 4 to 15 of A-Z and 0-9. The check never warns
      and reports at most once per element. */
  lemma FareBasisErrorIff(root: Node, code: string)
    ensures InvalidFareBasisCode(code) in FareBasisFindings(root).errors <==>
      exists i :: 0 <= i < |FareBasisElements(root)| && TextOr(FareBasisElements(root)[i]) == code && !IsFareBasisCode(code)
  {
    var elements := FareBasisElements(root);
    CollectErrors(elements, FareBasisCheck, InvalidFareBasisCode(code));
  }

  /** The fare-basis check never warns and reports at most once per element. */
  lemma FareBasisBounds(root: Node)
    ensures FareBasisFindings(root).warnings == []
    ensures |FareBasisFindings(root).errors| <= |FareBasisElements(root)|
  {
    var elements := FareBasisElements(root);
    CollectAtMostOneEach(elements, FareBasisCheck);
    if FareBasisFindings(root).warnings != [] {
      var w := FareBasisFindings(root).warnings[0];
      CollectWarnings(elements, FareBasisCheck, w);
    }
  }

  /** The codes of the fare-basis test table, and a code with a trailing newline, which
      Python's `$` lets through. */
  lemma FareBasisExamples()
    ensures IsFareBasisCode("YOWUS") && IsFareBasisCode("Y26NR") && IsFareBasisCode("BFLEXUS")
    ensures !IsFareBasisCode("abc") && !IsFareBasisCode("Y") && !IsFareBasisCode("TOOLONGFAREBASIS")
    ensures !IsFareBasisCode("Y@WUS")
    ensures IsFareBasisCode("YOWUS\n")
  {
    assert "abc"[0] == 'a';
    assert "Y@WUS"[1] == '@';
    assert "YOWUS\n"[..5] == "YOWUS";
  }

  // ---------------------------------------------------------------------------------------
  // Pricing

  /** No Pricing element, or one missing a component, gives exactly one error; the check
      never warns. */
  lemma PricingStructureOutcomes(root: Node)
    ensures PricingFindings(root).warnings == []
    ensures FindDescendant(root, "Pricing").None? ==> PricingFindings(root).errors == [MissingPricing]
    ensures FindDescendant(root, "Pricing").Some? ==>
      var pricing := FindDescendant(root, "Pricing").value;
      (FindChild(pricing, "BaseFare").None? || FindChild(pricing, "Taxes").None? || FindChild(pricing, "Total").None?)
        ==> PricingFindings(root).errors == [MissingPricingComponents]
  {
  }

  /** A component that is not a number gives one numeric-value error naming the first such
      text, and no mismatch or sign error; three numbers give exactly the amount errors. */
  lemma ComponentOutcomes(baseText: string, taxesText: string, totalText: string)
    ensures ParseFloat(baseText).None? ==> ComponentErrors(baseText, taxesText, totalText) == [InvalidPricingNumber(baseText)]
    ensures ParseFloat(baseText).Some? && ParseFloat(taxesText).None? ==>
      ComponentErrors(baseText, taxesText, totalText) == [InvalidPricingNumber(taxesText)]
    ensures ParseFloat(baseText).Some? && ParseFloat(taxesText).Some? && ParseFloat(totalText).None? ==>
      ComponentErrors(baseText, taxesText, totalText) == [InvalidPricingNumber(totalText)]
    ensures ParseFloat(baseText).Some? && ParseFloat(taxesText).Some? && ParseFloat(totalText).Some? ==>
      ComponentErrors(baseText, taxesText, totalText) ==
        AmountErrors(ParseFloat(baseText).value, ParseFloat(taxesText).value, ParseFloat(totalText).value)
  {
  }

  /** The three amount rules fire independently: a mismatch iff the sum is off by more than
      0.01, a base-fare error iff it is negative, a taxes error iff they are negative, and
      nothing else. */
  lemma AmountErrorsIff(baseFare: real, taxes: real, total: real)
    ensures PricingTotalMismatch(baseFare, taxes, total) in AmountErrors(baseFare, taxes, total)
      <==> baseFare + taxes - total > 0.01 || total - (baseFare + taxes) > 0.01
    ensures NegativeBaseFare(baseFare) in AmountErrors(baseFare, taxes, total) <==> baseFare < 0.0
    ensures NegativeTaxes(taxes) in AmountErrors(baseFare, taxes, total) <==> taxes < 0.0
    ensures forall e :: e in AmountErrors(baseFare, taxes, total) ==>
      e == PricingTotalMismatch(baseFare, taxes, total) || e == NegativeBaseFare(baseFare) || e == NegativeTaxes(taxes)
    ensures |AmountErrors(baseFare, taxes, total)| <= 3
  {
  }

  /** The amounts of the pricing test table. */
  lemma PricingExamples()
    ensures AmountErrors(500.0, 75.0, 575.0) == []
    ensures AmountErrors(1000.0, 150.0, 1150.0) == []
    ensures AmountErrors(500.0, 75.0, 600.0) == [PricingTotalMismatch(500.0, 75.0, 600.0)]
    ensures AmountErrors(100.0, 20.0, 100.0) == [PricingTotalMismatch(100.0, 20.0, 100.0)]
    ensures AmountErrors(-100.0, 20.0, -80.0) == [NegativeBaseFare(-100.0)]
    ensures AmountErrors(500.0, 75.0, 575.01) == []
  {
  }

  // ---------------------------------------------------------------------------------------
  // Fare rules

  /** A rule's type only ever draws a warning, and only when it is present, not empty and not
      one of the five known types; a rule of any type outside ADVANCE_PURCHASE, MIN_STAY and
      MAX_STAY can only draw a code error. */
  lemma RuleTypeOutcomes(rule: Node, t: string)
    ensures UnknownRuleType(t) in FareRuleCheck(rule).warnings <==>
      Attr(rule, "type") == Some(t) && t != "" && t !in RuleTypes
    ensures |FareRuleCheck(rule).warnings| <= 1
    ensures !(Attr(rule, "type").Some? && Attr(rule, "type").value in DayRuleTypes) ==>
      forall e :: e in FareRuleCheck(rule).errors ==> e.InvalidRuleCode?
  {
  }

  /** A code error is reported exactly for a present, non-empty code that is not 2 to 4 of
      A-Z and 0-9. */
  lemma RuleCodeIff(rule: Node, c: string)
    ensures InvalidRuleCode(c) in FareRuleCheck(rule).errors <==>
      Attr(rule, "code") == Some(c) && c != "" && !IsRuleCode(c)
  {
    var errors := FareRuleCheck(rule).errors;
    var ruleType := Attr(rule, "type");
    if ruleType.Some? && ruleType.value in DayRuleTypes {
      assert forall e :: e in DaysCheck(rule, ruleType.value) ==> !e.InvalidRuleCode?;
    }
  }

  /** For a day-counted rule with a Days child: a text that is not an integer gives one
      invalid-days error; an integer gives an error iff it lies outside 0..365. Both bounds
      are accepted. */
  lemma DaysOutcomes(rule: Node, ruleType: string)
    requires FindChild(rule, "Days").Some?
    ensures
      var text := TextOr(FindChild(rule, "Days").value);
      match ParseInt(text)
      case None => DaysCheck(rule, ruleType) == [InvalidDaysValue(text)]
      case Some(days) =>
        && (DaysCheck(rule, ruleType) == [] <==> 0 <= days <= 365)
        && (DaysCheck(rule, ruleType) != [] ==> DaysCheck(rule, ruleType) == [DaysOutOfRange(ruleType, days)])
  {
  }

  /** A Days text of more than 4300 digits is rejected by `int` whatever its value, so even
      "0" * 4300 + "14" draws the invalid-days error rather than passing the range test. */
  lemma LongDaysRejected(rule: Node, ruleType: string)
    requires FindChild(rule, "Days").Some?
    requires var text := TextOr(FindChild(rule, "Days").value);
      |text| > MaxIntDigits && forall j :: 0 <= j < |text| ==> IsDigit(text[j])
    ensures DaysCheck(rule, ruleType) == [InvalidDaysValue(TextOr(FindChild(rule, "Days").value))]
  {
    IntDigitLimit(TextOr(FindChild(rule, "Days").value));
  }

  /** A rule without a Days child, or whose type is not day-counted, never draws a days error. */
  lemma NoDaysNoDaysError(rule: Node)
    ensures FindChild(rule, "Days").None? || !(Attr(rule, "type").Some? && Attr(rule, "type").value in DayRuleTypes)
      ==> forall e :: e in FareRuleCheck(rule).errors ==> e.InvalidRuleCode?
  {
  }

  /** A rule with neither a type nor a code attribute is skipped entirely. */
  lemma UnattributedRuleIsSilent(rule: Node)
    requires Attr(rule, "type").None? && Attr(rule, "code").None?
    ensures FareRuleCheck(rule) == Findings([], [])
  {
  }

  /** Over the whole document: an unknown-type warning for `t` is reported exactly when some
      FareRule element carries type `t`, non-empty and unknown. */
  lemma FareRuleWarningIff(root: Node, t: string)
    ensures UnknownRuleType(t) in FareRuleFindings(root).warnings <==>
      exists i :: 0 <= i < |FareRuleElements(root)| &&
        Attr(FareRuleElements(root)[i], "type") == Some(t) && t != "" && t !in RuleTypes
  {
    var rules := FareRuleElements(root);
    CollectWarnings(rules, FareRuleCheck, UnknownRuleType(t));
    forall i | 0 <= i < |rules|
      ensures UnknownRuleType(t) in FareRuleCheck(rules[i]).warnings <==>
        Attr(rules[i], "type") == Some(t) && t != "" && t !in RuleTypes
    {
      RuleTypeOutcomes(rules[i], t);
    }
  }

  /** Over the whole document: a code error for `c` is reported exactly when some FareRule
      element carries the malformed code `c`. */
  lemma FareRuleCodeErrorIff(root: Node, c: string)
    ensures InvalidRuleCode(c) in FareRuleFindings(root).errors <==>
      exists i :: 0 <= i < |FareRuleElements(root)| &&
        Attr(FareRuleElements(root)[i], "code") == Some(c) && c != "" && !IsRuleCode(c)
  {
    var rules := FareRuleElements(root);
    CollectErrors(rules, FareRuleCheck, InvalidRuleCode(c));
    forall i | 0 <= i < |rules|
      ensures InvalidRuleCode(c) in FareRuleCheck(rules[i]).errors <==>
        Attr(rules[i], "code") == Some(c) && c != "" && !IsRuleCode(c)
    {
      RuleCodeIff(rules[i], c);
    }
  }

  /** The two rules of the valid fare quote: ADVANCE_PURCHASE AP14 with 14 days and
      MIN_STAY MS03 with 3 days, both silent. */
  lemma FareRuleExamples(advance: Node, minStay: Node)
    requires Attr(advance, "type") == Some("ADVANCE_PURCHASE") && Attr(advance, "code") == Some("AP14")
    requires FindChild(advance, "Days").Some? && ParseInt(TextOr(FindChild(advance, "Days").value)) == Some(14)
    requires Attr(minStay, "type") == Some("MIN_STAY") && Attr(minStay, "code") == Some("MS03")
    requires FindChild(minStay, "Days").Some? && ParseInt(TextOr(FindChild(minStay, "Days").value)) == Some(3)
    ensures FareRuleCheck(advance) == Findings([], [])
    ensures FareRuleCheck(minStay) == Findings([], [])
  {
    assert IsRuleCode("AP14") && IsRuleCode("MS03");
  }

  // ---------------------------------------------------------------------------------------
  // Seat availability

  /** The seat bands: at most one diagnostic; an error iff negative; a no-seats warning iff
      zero; an unusual-count warning iff above nine; nothing for one to nine. */
  lemma SeatBands(seats: int)
    ensures |SeatBand(seats).errors| + |SeatBand(seats).warnings| <= 1
    ensures SeatBand(seats).errors != [] <==> seats < 0
    ensures SeatBand(seats).warnings == [NoSeatsAvailable] <==> seats == 0
    ensures SeatBand(seats).warnings == [UnusualSeatCount(seats)] <==> seats > 9
    ensures SeatBand(seats) == Findings([], []) <==> 1 <= seats <= 9
  {
  }

  /** The availability check reports nothing without Availability or SeatsAvailable, one
      error for a count that is not an integer, and otherwise the band of the count. */
  lemma AvailabilityOutcomes(root: Node)
    ensures |AvailabilityFindings(root).errors| + |AvailabilityFindings(root).warnings| <= 1
    ensures FindDescendant(root, "Availability").None? ==> AvailabilityFindings(root) == Findings([], [])
    ensures FindDescendant(root, "Availability").Some? ==>
      var availability := FindDescendant(root, "Availability").value;
      match FindChild(availability, "SeatsAvailable")
      case None => AvailabilityFindings(root) == Findings([], [])
      case Some(seats) =>
        match ParseInt(TextOr(seats))
        case None => AvailabilityFindings(root) == Findings([InvalidSeatCount(TextOr(seats))], [])
        case Some(n) => AvailabilityFindings(root) == SeatBand(n)
  {
    match FindDescendant(root, "Availability")
    case None =>
    case Some(availability) =>
      match FindChild(availability, "SeatsAvailable")
      case None =>
      case Some(seats) =>
        match ParseInt(TextOr(seats))
        case None =>
        case Some(n) => SeatBands(n);
  }

  /** A SeatsAvailable text of more than 4300 digits is rejected by `int`, so it draws the
      invalid-seat-count error, never a seat band. */
  lemma LongSeatCountRejected(root: Node)
    requires FindDescendant(root, "Availability").Some?
    requires FindChild(FindDescendant(root, "Availability").value, "SeatsAvailable").Some?
    requires var text := TextOr(FindChild(FindDescendant(root, "Availability").value, "SeatsAvailable").value);
      |text| > MaxIntDigits && forall j :: 0 <= j < |text| ==> IsDigit(text[j])
    ensures AvailabilityFindings(root) ==
      Findings([InvalidSeatCount(TextOr(FindChild(FindDescendant(root, "Availability").value, "SeatsAvailable").value))], [])
  {
    IntDigitLimit(TextOr(FindChild(FindDescendant(root, "Availability").value, "SeatsAvailable").value));
  }

  /** The seat counts of the availability test table and of the valid quote. */
  lemma SeatExamples()
    ensures SeatBand(5) == Findings([], []) && SeatBand(7) == Findings([], []) && SeatBand(9) == Findings([], [])
    ensures SeatBand(0) == Findings([], [NoSeatsAvailable])
    ensures SeatBand(15) == Findings([], [UnusualSeatCount(15)])
    ensures SeatBand(-1) == Findings([NegativeSeats(-1)], [])
  {
  }

  // ---------------------------------------------------------------------------------------
  // Currency codes

  /** Format and allow-list are judged independently. An error iff the value is not three
      letters A-Z, optionally followed by one newline (Python's `$`); a warning iff it is not
      one of the eight common currencies; at most one of each, and nothing for a common one. */
  lemma CurrencyValueIff(code: string)
    ensures CurrencyValueCheck(code).errors != [] <==>
      && !(|code| == 3 && forall i :: 0 <= i < 3 ==> 'A' <= code[i] <= 'Z')
      && !(|code| == 4 && code[3] == '\n' && forall i :: 0 <= i < 3 ==> 'A' <= code[i] <= 'Z')
    ensures CurrencyValueCheck(code).warnings != [] <==> code !in CommonCurrencies
    ensures |CurrencyValueCheck(code).errors| <= 1 && |CurrencyValueCheck(code).warnings| <= 1
    ensures code in CommonCurrencies ==> CurrencyValueCheck(code) == Findings([], [])
  {
    if |code| == 4 {
      assert forall i :: 0 <= i < 3 ==> code[..3][i] == code[i];
    }
    if code in CommonCurrencies {
      assert IsCurrencyCode(code);
    }
  }

  /** The currencies of the currency test table, and SEK, well formed but not common. */
  lemma CurrencyExamples()
    ensures CurrencyValueCheck("USD") == Findings([], []) && CurrencyValueCheck("EUR") == Findings([], [])
    ensures CurrencyValueCheck("GBP") == Findings([], []) && CurrencyValueCheck("PLN") == Findings([], [])
    ensures CurrencyValueCheck("xxx") == Findings([InvalidCurrencyCode("xxx")], [UncommonCurrency("xxx")])
    ensures CurrencyValueCheck("SEK") == Findings([], [UncommonCurrency("SEK")])
    ensures CurrencyValueCheck("US").errors == [InvalidCurrencyCode("US")]
    ensures CurrencyValueCheck("USDD").errors == [InvalidCurrencyCode("USDD")]
    ensures CurrencyValueCheck("usd").errors == [InvalidCurrencyCode("usd")]
  {
    assert "xxx"[0] == 'x';
    assert "usd"[0] == 'u';
    assert "USDD"[3] == 'D';
  }

  /** Over the whole document: a currency error for `c` is reported exactly when some element
      strictly below the root carries currency `c` and `c` is malformed. */
  lemma CurrencyErrorIff(root: Node, c: string)
    ensures InvalidCurrencyCode(c) in CurrencyFindings(root).errors <==>
      exists i :: 0 <= i < |CurrencyElements(root)| &&
        Attr(CurrencyElements(root)[i], "currency") == Some(c) && !IsCurrencyCode(c)
  {
    var elements := CurrencyElements(root);
    CollectErrors(elements, CurrencyCheck, InvalidCurrencyCode(c));
    forall i | 0 <= i < |elements|
      ensures InvalidCurrencyCode(c) in CurrencyCheck(elements[i]).errors <==>
        Attr(elements[i], "currency") == Some(c) && !IsCurrencyCode(c)
    {
      WithAttrMembers(Descendants(root), "currency", elements[i]);
    }
  }

  /** The currency elements are exactly the elements below the root that carry the attribute. */
  lemma CurrencyElementsAreBelowRoot(root: Node, n: Node)
    ensures n in CurrencyElements(root) <==> n in Descendants(root) && "currency" in n.attrs
    ensures n in CurrencyElements(root) ==> n < root
  {
    WithAttrMembers(Descendants(root), "currency", n);
  }

  /** A `currency` attribute on the root element itself is never looked at: changing or
      adding it leaves the currency check's output unchanged. */
  lemma RootCurrencyNeverChecked(root: Node, value: string)
    ensures CurrencyFindings(Node(root.name, root.attrs["currency" := value], root.text, root.children))
      == CurrencyFindings(root)
  {
    var relabelled := Node(root.name, root.attrs["currency" := value], root.text, root.children);
    DescendantsIgnoreSelf(root, relabelled, 0);
  }

  // ---------------------------------------------------------------------------------------
  // Check order

  /** The check an error comes from, numbered in the order the checks run. */
  function ErrorCheck(e: FareError): nat
  {
    match e
    case MissingFareInfo => 0
    case MissingRequiredField(_) => 0
    case InvalidFareBasisCode(_) => 1
    case MissingPricing => 2
    case MissingPricingComponents => 2
    case InvalidPricingNumber(_) => 2
    case PricingTotalMismatch(_, _, _) => 2
    case NegativeBaseFare(_) => 2
    case NegativeTaxes(_) => 2
    case InvalidRuleCode(_) => 3
    case DaysOutOfRange(_, _) => 3
    case InvalidDaysValue(_) => 3
    case NegativeSeats(_) => 4
    case InvalidSeatCount(_) => 4
    case InvalidCurrencyCode(_) => 5
  }

  /** The check a warning comes from, numbered likewise. */
  function WarningCheck(w: FareWarning): nat
  {
    match w
    case UnknownRuleType(_) => 3
    case NoSeatsAvailable => 4
    case UnusualSeatCount(_) => 4
    case UncommonCurrency(_) => 5
  }

  lemma StructureRank(root: Node)
    ensures forall e :: e in StructureFindings(root).errors ==> ErrorCheck(e) == 0
    ensures StructureFindings(root).warnings == []
  {
    forall e | e in StructureFindings(root).errors ensures ErrorCheck(e) == 0 {
      if FindChild(root, "FareInfo").Some? {
        MissingFieldsIff(FindChild(root, "FareInfo").value, RequiredFields, e);
      }
    }
  }

  lemma FareBasisRank(root: Node)
    ensures forall e :: e in FareBasisFindings(root).errors ==> ErrorCheck(e) == 1
    ensures FareBasisFindings(root).warnings == []
  {
    FareBasisBounds(root);
    forall e | e in FareBasisFindings(root).errors ensures ErrorCheck(e) == 1 {
      CollectErrors(FareBasisElements(root), FareBasisCheck, e);
    }
  }

  lemma PricingRank(root: Node)
    ensures forall e :: e in PricingFindings(root).errors ==> ErrorCheck(e) == 2
    ensures PricingFindings(root).warnings == []
  {
  }

  lemma FareRuleRank(root: Node)
    ensures forall e :: e in FareRuleFindings(root).errors ==> ErrorCheck(e) == 3
    ensures forall w :: w in FareRuleFindings(root).warnings ==> WarningCheck(w) == 3
  {
    var rules := FareRuleElements(root);
    forall e | e in FareRuleFindings(root).errors ensures ErrorCheck(e) == 3 {
      CollectErrors(rules, FareRuleCheck, e);
      var i :| 0 <= i < |rules| && e in FareRuleCheck(rules[i]).errors;
      FareRuleCheckRank(rules[i]);
    }
    forall w | w in FareRuleFindings(root).warnings ensures WarningCheck(w) == 3 {
      CollectWarnings(rules, FareRuleCheck, w);
      var i :| 0 <= i < |rules| && w in FareRuleCheck(rules[i]).warnings;
      FareRuleCheckRank(rules[i]);
    }
  }

  lemma FareRuleCheckRank(rule: Node)
    ensures forall e :: e in FareRuleCheck(rule).errors ==> ErrorCheck(e) == 3
    ensures forall w :: w in FareRuleCheck(rule).warnings ==> WarningCheck(w) == 3
  {
  }

  lemma AvailabilityRank(root: Node)
    ensures forall e :: e in AvailabilityFindings(root).errors ==> ErrorCheck(e) == 4
    ensures forall w :: w in AvailabilityFindings(root).warnings ==> WarningCheck(w) == 4
  {
  }

  lemma CurrencyRank(root: Node)
    ensures forall e :: e in CurrencyFindings(root).errors ==> ErrorCheck(e) == 5
    ensures forall w :: w in CurrencyFindings(root).warnings ==> WarningCheck(w) == 5
  {
    forall e | e in CurrencyFindings(root).errors ensures ErrorCheck(e) == 5 {
      CollectErrors(CurrencyElements(root), CurrencyCheck, e);
    }
    forall w | w in CurrencyFindings(root).warnings ensures WarningCheck(w) == 5 {
      CollectWarnings(CurrencyElements(root), CurrencyCheck, w);
    }
  }

  /** Six checks whose diagnostics carry ranks 0 to 5 leave, run in that order, grouped
      lists. */
  lemma SixChecksGrouped(structure: FareFindings, basis: FareFindings, pricing: FareFindings,
                         rules: FareFindings, availability: FareFindings, currency: FareFindings)
    requires forall e :: e in structure.errors ==> ErrorCheck(e) == 0
    requires forall e :: e in basis.errors ==> ErrorCheck(e) == 1
    requires forall e :: e in pricing.errors ==> ErrorCheck(e) == 2
    requires forall e :: e in rules.errors ==> ErrorCheck(e) == 3
    requires forall e :: e in availability.errors ==> ErrorCheck(e) == 4
    requires forall e :: e in currency.errors ==> ErrorCheck(e) == 5
    requires structure.warnings == [] && basis.warnings == [] && pricing.warnings == []
    requires forall w :: w in rules.warnings ==> WarningCheck(w) == 3
    requires forall w :: w in availability.warnings ==> WarningCheck(w) == 4
    requires forall w :: w in currency.warnings ==> WarningCheck(w) == 5
    ensures Ascending(structure.Then(basis).Then(pricing).Then(rules).Then(availability).Then(currency).errors, ErrorCheck)
    ensures Ascending(structure.Then(basis).Then(pricing).Then(rules).Then(availability).Then(currency).warnings, WarningCheck)
  {
    SameRankAscending(structure.errors, ErrorCheck, 0);
    AppendGroup(structure.errors, basis.errors, ErrorCheck, 1);
    AppendGroup(structure.errors + basis.errors, pricing.errors, ErrorCheck, 2);
    AppendGroup(structure.errors + basis.errors + pricing.errors, rules.errors, ErrorCheck, 3);
    AppendGroup(structure.errors + basis.errors + pricing.errors + rules.errors, availability.errors, ErrorCheck, 4);
    AppendGroup(structure.errors + basis.errors + pricing.errors + rules.errors + availability.errors,
      currency.errors, ErrorCheck, 5);
    SameRankAscending(rules.warnings, WarningCheck, 3);
    AppendGroup(rules.warnings, availability.warnings, WarningCheck, 4);
    AppendGroup(rules.warnings + availability.warnings, currency.warnings, WarningCheck, 5);
    assert structure.warnings + basis.warnings + pricing.warnings + rules.warnings == rules.warnings;
  }

  /** Errors come grouped by check, in the order structure, fare basis, pricing, rules,
      availability, currency; so do warnings. */
  lemma FareReportGrouped(root: Node)
    ensures Ascending(FareReport(root).errors, ErrorCheck)
    ensures Ascending(FareReport(root).warnings, WarningCheck)
  {
    StructureRank(root);
    FareBasisRank(root);
    PricingRank(root);
    FareRuleRank(root);
    AvailabilityRank(root);
    CurrencyRank(root);
    SixChecksGrouped(StructureFindings(root), FareBasisFindings(root), PricingFindings(root),
      FareRuleFindings(root), AvailabilityFindings(root), CurrencyFindings(root));
  }

  // ---------------------------------------------------------------------------------------
  // Repeated validation

  /** The lists live as long as the validator: a second `validate()` on the same object
      reports every diagnostic of the first one a second time. */
  method FareRevalidationAppends(root: Node) returns (first: ValidationResult<FareError, FareWarning>, second: ValidationResult<FareError, FareWarning>)
    requires WellFormedFare(root)
    ensures first.errors == FareReport(root).errors && first.warnings == FareReport(root).warnings
    ensures second.errors == first.errors + first.errors
    ensures second.warnings == first.warnings + first.warnings
    ensures second.isValid == first.isValid
  {
    var validator := new FareValidator(root);
    first := validator.Validate();
    second := validator.Validate();
  }
}
