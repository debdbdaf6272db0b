// The fare-quote validator: six checks, always run in the same order, each appending to
// the validator's errors and warnings lists; the quote is valid when no error was recorded.
// For each check there is a function on the document saying what it appends, and a method
// of FareValidator that appends it the way the validator does, step by step.
module FareValidation {
  import opened XmlTree
  import opened TextPatterns
  import opened Conversions
  import opened Diagnostics

  datatype FareError =
    | MissingFareInfo
    | MissingRequiredField(field: string)
    | InvalidFareBasisCode(code: string)
    | MissingPricing
    | MissingPricingComponents
    | InvalidPricingNumber(text: string)
    | PricingTotalMismatch(baseFare: real, taxes: real, total: real)
    | NegativeBaseFare(baseFare: real)
    | NegativeTaxes(taxes: real)
    | InvalidRuleCode(code: string)
    | DaysOutOfRange(ruleType: string, days: int)
    | InvalidDaysValue(text: string)
    | NegativeSeats(seats: int)
    | InvalidSeatCount(text: string)
    | InvalidCurrencyCode(code: string)

  datatype FareWarning =
    | UnknownRuleType(ruleType: string)
    | NoSeatsAvailable
    | UnusualSeatCount(seats: int)
    | UncommonCurrency(code: string)

  type FareFindings = Findings<FareError, FareWarning>

  const RequiredFields: seq<string> := ["FareReference", "FareBasis", "ValidatingCarrier"]
  const RuleTypes: seq<string> := ["ADVANCE_PURCHASE", "MIN_STAY", "MAX_STAY", "PENALTIES", "BLACKOUT_DATES"]
  /** The rule types whose `Days` child is range-checked. */
  const DayRuleTypes: seq<string> := ["ADVANCE_PURCHASE", "MIN_STAY", "MAX_STAY"]
  const CommonCurrencies: seq<string> := ["USD", "EUR", "GBP", "JPY", "PLN", "CAD", "AUD", "CHF"]
  /** The largest accepted difference between BaseFare + Taxes and Total. */
  const Tolerance: real := 0.01

  // ---------------------------------------------------------------------------------------
  // 1. Structure: FareInfo, and its three required children.

  /** One MissingRequiredField per field of `fields` that `info` has no child for, in order. */
  function MissingFields(info: Node, fields: seq<string>): seq<FareError>
  {
    if fields == [] then []
    else
      var field := fields[|fields| - 1];
      MissingFields(info, fields[..|fields| - 1])
      + (if FindChild(info, field).None? then [MissingRequiredField(field)] else [])
  }

  function StructureFindings(root: Node): FareFindings
  {
    match FindChild(root, "FareInfo")
    case None => Findings([MissingFareInfo], [])
    case Some(info) => Findings(MissingFields(info, RequiredFields), [])
  }

  // ---------------------------------------------------------------------------------------
  // 2. Fare-basis codes, wherever they stand in the document.

  function FareBasisElements(root: Node): seq<Node>
  {
    DescendantsNamed(root, "FareBasis")
  }

  function FareBasisCheck(n: Node): FareFindings
  {
    var code := TextOr(n);
    if IsFareBasisCode(code) then Findings([], []) else Findings([InvalidFareBasisCode(code)], [])
  }

  function FareBasisFindings(root: Node): FareFindings
  {
    Collect(FareBasisElements(root), FareBasisCheck)
  }

  // ---------------------------------------------------------------------------------------
  // 3. Pricing: BaseFare + Taxes against Total, and no negative component.

  /** The errors for three successfully converted amounts, in the order they are appended. */
  function AmountErrors(baseFare: real, taxes: real, total: real): seq<FareError>
  {
    (if Abs(baseFare + taxes - total) > Tolerance then [PricingTotalMismatch(baseFare, taxes, total)] else [])
    + (if baseFare < 0.0 then [NegativeBaseFare(baseFare)] else [])
    + (if taxes < 0.0 then [NegativeTaxes(taxes)] else [])
  }

  /** Converting the three texts in order; the first that is not a number ends the check. */
  function ComponentErrors(baseText: string, taxesText: string, totalText: string): seq<FareError>
  {
    match (ParseFloat(baseText), ParseFloat(taxesText), ParseFloat(totalText))
    case (None, _, _) => [InvalidPricingNumber(baseText)]
    case (Some(_), None, _) => [InvalidPricingNumber(taxesText)]
    case (Some(_), Some(_), None) => [InvalidPricingNumber(totalText)]
    case (Some(b), Some(t), Some(tot)) => AmountErrors(b, t, tot)
  }

  function PricingFindings(root: Node): FareFindings
  {
    match FindDescendant(root, "Pricing")
    case None => Findings([MissingPricing], [])
    case Some(pricing) =>
      var baseFare := FindChild(pricing, "BaseFare");
      var taxes := FindChild(pricing, "Taxes");
      var total := FindChild(pricing, "Total");
      if baseFare.None? || taxes.None? || total.None? then Findings([MissingPricingComponents], [])
      else Findings(ComponentErrors(TextOr(baseFare.value), TextOr(taxes.value), TextOr(total.value)), [])
  }

  // ---------------------------------------------------------------------------------------
  // 4. Fare rules: type, code and day count of every FareRule element.

  function FareRuleElements(root: Node): seq<Node>
  {
    DescendantsNamed(root, "FareRule")
  }

  /** The day-count check of a rule of type `ruleType` (one of DayRuleTypes). */
  function DaysCheck(rule: Node, ruleType: string): seq<FareError>
  {
    match FindChild(rule, "Days")
    case None => []
    case Some(daysElem) =>
      match ParseInt(TextOr(daysElem))
      case None => [InvalidDaysValue(TextOr(daysElem))]
      case Some(days) => if days < 0 || days > 365 then [DaysOutOfRange(ruleType, days)] else []
  }

  /** An attribute that is present and not empty (Python truthiness of `rule.get(...)`). */
  predicate Truthy(a: Option<string>)
  {
    a.Some? && a.value != ""
  }

  function FareRuleCheck(rule: Node): FareFindings
  {
    var ruleType := Attr(rule, "type");
    var ruleCode := Attr(rule, "code");
    var typeWarnings := if Truthy(ruleType) && ruleType.value !in RuleTypes then [UnknownRuleType(ruleType.value)] else [];
    var codeErrors := if Truthy(ruleCode) && !IsRuleCode(ruleCode.value) then [InvalidRuleCode(ruleCode.value)] else [];
    var daysErrors := if ruleType.Some? && ruleType.value in DayRuleTypes then DaysCheck(rule, ruleType.value) else [];
    Findings(codeErrors + daysErrors, typeWarnings)
  }

  function FareRuleFindings(root: Node): FareFindings
  {
    Collect(FareRuleElements(root), FareRuleCheck)
  }

  // ---------------------------------------------------------------------------------------
  // 5. Seat availability.

  /** The band a converted seat count falls in: at most one diagnostic. */
  function SeatBand(seats: int): FareFindings
  {
    if seats < 0 then Findings([NegativeSeats(seats)], [])
    else if seats == 0 then Findings([], [NoSeatsAvailable])
    else if seats > 9 then Findings([], [UnusualSeatCount(seats)])
    else Findings([], [])
  }

  function AvailabilityFindings(root: Node): FareFindings
  {
    match FindDescendant(root, "Availability")
    case None => Findings([], [])
    case Some(availability) =>
      match FindChild(availability, "SeatsAvailable")
      case None => Findings([], [])
      case Some(seats) =>
        match ParseInt(TextOr(seats))
        case None => Findings([InvalidSeatCount(TextOr(seats))], [])
        case Some(count) => SeatBand(count)
  }

  // ---------------------------------------------------------------------------------------
  // 6. Currency codes, on every element below the root that carries a `currency` attribute.

  function CurrencyElements(root: Node): seq<Node>
  {
    WithAttr(Descendants(root), "currency")
  }

  /** Format and allow-list are judged separately: a value can draw an error, a warning, both or neither. */
  function CurrencyValueCheck(code: string): FareFindings
  {
    Findings(if IsCurrencyCode(code) then [] else [InvalidCurrencyCode(code)],
             if code in CommonCurrencies then [] else [UncommonCurrency(code)])
  }

  function CurrencyCheck(n: Node): FareFindings
  {
    if "currency" in n.attrs then CurrencyValueCheck(n.attrs["currency"]) else Findings([], [])
  }

  function CurrencyFindings(root: Node): FareFindings
  {
    Collect(CurrencyElements(root), CurrencyCheck)
  }

  // ---------------------------------------------------------------------------------------
  // The whole pass.

  /** What one call of `validate()` appends: the six checks, in this order. */
  function FareReport(root: Node): FareFindings
  {
    StructureFindings(root)
      .Then(FareBasisFindings(root))
      .Then(PricingFindings(root))
      .Then(FareRuleFindings(root))
      .Then(AvailabilityFindings(root))
      .Then(CurrencyFindings(root))
  }

  // Documents the validator handles without raising. Python raises TypeError when it hands
  // an absent text to `re.match`, `float` or `int`; those documents have no result.

  /** `float()` is applied to BaseFare, Taxes and Total texts in that order and stops at the
      first ValueError; no text it reaches is absent. */
  predicate PricingConvertible(root: Node)
  {
    match FindDescendant(root, "Pricing")
    case None => true
    case Some(pricing) =>
      var baseFare := FindChild(pricing, "BaseFare");
      var taxes := FindChild(pricing, "Taxes");
      var total := FindChild(pricing, "Total");
      baseFare.None? || taxes.None? || total.None? ||
      (baseFare.value.text.Some? &&
        (ParseFloat(baseFare.value.text.value).None? ||
          (taxes.value.text.Some? && (ParseFloat(taxes.value.text.value).None? || total.value.text.Some?))))
  }

  /** A `Days` child that is range-checked has a text. */
  predicate DaysTextPresent(rule: Node)
  {
    var ruleType := Attr(rule, "type");
    (ruleType.Some? && ruleType.value in DayRuleTypes && FindChild(rule, "Days").Some?)
      ==> FindChild(rule, "Days").value.text.Some?
  }

  predicate SeatsTextPresent(root: Node)
  {
    match FindDescendant(root, "Availability")
    case None => true
    case Some(availability) =>
      FindChild(availability, "SeatsAvailable").Some? ==> FindChild(availability, "SeatsAvailable").value.text.Some?
  }

  predicate WellFormedFare(root: Node)
  {
    && (forall n :: n in FareBasisElements(root) ==> n.text.Some?)
    && PricingConvertible(root)
    && (forall rule :: rule in FareRuleElements(root) ==> DaysTextPresent(rule))
    && SeatsTextPresent(root)
  }

  /** The validator object: the parsed document and the two lists every check appends to.
      The lists are created once, by the constructor, and never emptied. */
  class FareValidator {
    const root: Node
    var errors: seq<FareError>
    var warnings: seq<FareWarning>

    constructor (root: Node)
      ensures this.root == root && errors == [] && warnings == []
    {
      this.root := root;
      errors := [];
      warnings := [];
    }

    /** `validate()`: runs the six checks and reports validity from the errors list alone. */
    method Validate() returns (result: ValidationResult<FareError, FareWarning>)
      requires WellFormedFare(root)
      modifies this
      ensures errors == old(errors) + FareReport(root).errors
      ensures warnings == old(warnings) + FareReport(root).warnings
      ensures result == ValidationResult(errors == [], errors, warnings)
    {
      ghost var e0, w0 := errors, warnings;
      ghost var done := StructureFindings(root);
      CheckStructure();
      assert errors == e0 + done.errors && warnings == w0 + done.warnings;
      AppendThen(e0, w0, done, FareBasisFindings(root));
      done := done.Then(FareBasisFindings(root));
      CheckFareBasisCodes();
      assert errors == e0 + done.errors && warnings == w0 + done.warnings;
      AppendThen(e0, w0, done, PricingFindings(root));
      done := done.Then(PricingFindings(root));
      CheckPricingComponents();
      assert errors == e0 + done.errors && warnings == w0 + done.warnings;
      AppendThen(e0, w0, done, FareRuleFindings(root));
      done := done.Then(FareRuleFindings(root));
      CheckFareRules();
      assert errors == e0 + done.errors && warnings == w0 + done.warnings;
      AppendThen(e0, w0, done, AvailabilityFindings(root));
      done := done.Then(AvailabilityFindings(root));
      CheckAvailability();
      assert errors == e0 + done.errors && warnings == w0 + done.warnings;
      AppendThen(e0, w0, done, CurrencyFindings(root));
      done := done.Then(CurrencyFindings(root));
      CheckCurrency();
      assert done == FareReport(root);
      result := ValidationResult(errors == [], errors, warnings);
    }

    method CheckStructure()
      modifies this
      ensures errors == old(errors) + StructureFindings(root).errors
      ensures warnings == old(warnings) + StructureFindings(root).warnings
    {
      var fareInfo := FindChild(root, "FareInfo");
      if fareInfo.None? {
        errors := errors + [MissingFareInfo];
        return;
      }
      var i := 0;
      while i < |RequiredFields|
        invariant 0 <= i <= |RequiredFields|
        invariant errors == old(errors) + MissingFields(fareInfo.value, RequiredFields[..i])
        invariant warnings == old(warnings)
      {
        var field := RequiredFields[i];
        ghost var missing := if FindChild(fareInfo.value, field).None? then [MissingRequiredField(field)] else [];
        if FindChild(fareInfo.value, field).None? {
          errors := errors + [MissingRequiredField(field)];
        }
        assert RequiredFields[..i + 1][..i] == RequiredFields[..i];
        AppendAssoc(old(errors), MissingFields(fareInfo.value, RequiredFields[..i]), missing);
        i := i + 1;
      }
      assert RequiredFields[..i] == RequiredFields;
    }

    method CheckFareBasisCodes()
      requires forall n :: n in FareBasisElements(root) ==> n.text.Some?
      modifies this
      ensures errors == old(errors) + FareBasisFindings(root).errors
      ensures warnings == old(warnings) + FareBasisFindings(root).warnings
    {
      var fareBases := FareBasisElements(root);
      var i := 0;
      while i < |fareBases|
        invariant 0 <= i <= |fareBases|
        invariant errors == old(errors) + Collect(fareBases[..i], FareBasisCheck).errors
        invariant warnings == old(warnings) + Collect(fareBases[..i], FareBasisCheck).warnings
      {
        assert fareBases[i] in fareBases;
        var code := fareBases[i].text.value;
        if !IsFareBasisCode(code) {
          errors := errors + [InvalidFareBasisCode(code)];
        }
        CollectStep(fareBases, FareBasisCheck, i);
        AppendThen(old(errors), old(warnings), Collect(fareBases[..i], FareBasisCheck), FareBasisCheck(fareBases[i]));
        i := i + 1;
      }
      assert fareBases[..i] == fareBases;
    }

    method CheckPricingComponents()
      requires PricingConvertible(root)
      modifies this
      ensures errors == old(errors) + PricingFindings(root).errors
      ensures warnings == old(warnings) + PricingFindings(root).warnings
    {
      var pricing := FindDescendant(root, "Pricing");
      if pricing.None? {
        errors := errors + [MissingPricing];
        return;
      }
      var baseFare := FindChild(pricing.value, "BaseFare");
      var taxes := FindChild(pricing.value, "Taxes");
      var total := FindChild(pricing.value, "Total");
      if baseFare.None? || taxes.None? || total.None? {
        errors := errors + [MissingPricingComponents];
        return;
      }
      var baseValue := ParseFloat(baseFare.value.text.value);
      if baseValue.None? {
        errors := errors + [InvalidPricingNumber(baseFare.value.text.value)];
        return;
      }
      var taxesValue := ParseFloat(taxes.value.text.value);
      if taxesValue.None? {
        errors := errors + [InvalidPricingNumber(taxes.value.text.value)];
        return;
      }
      var totalValue := ParseFloat(total.value.text.value);
      if totalValue.None? {
        errors := errors + [InvalidPricingNumber(total.value.text.value)];
        return;
      }
      CheckAmounts(baseValue.value, taxesValue.value, totalValue.value);
    }

    /** The three comparisons on converted amounts, each appending independently. */
    method CheckAmounts(baseFare: real, taxes: real, total: real)
      modifies this
      ensures errors == old(errors) + AmountErrors(baseFare, taxes, total)
      ensures warnings == old(warnings)
    {
      ghost var mismatch := if Abs(baseFare + taxes - total) > Tolerance then [PricingTotalMismatch(baseFare, taxes, total)] else [];
      ghost var negativeBase := if baseFare < 0.0 then [NegativeBaseFare(baseFare)] else [];
      ghost var negativeTaxes := if taxes < 0.0 then [NegativeTaxes(taxes)] else [];
      var calculatedTotal := baseFare + taxes;
      if Abs(calculatedTotal - total) > Tolerance {
        errors := errors + [PricingTotalMismatch(baseFare, taxes, total)];
      }
      assert errors == old(errors) + mismatch;
      if baseFare < 0.0 {
        errors := errors + [NegativeBaseFare(baseFare)];
      }
      AppendAssoc(old(errors), mismatch, negativeBase);
      if taxes < 0.0 {
        errors := errors + [NegativeTaxes(taxes)];
      }
      AppendAssoc(old(errors), mismatch + negativeBase, negativeTaxes);
    }

    /** The day-count block the validator runs for ADVANCE_PURCHASE, and again for MIN_STAY and MAX_STAY. */
    method CheckRuleDays(rule: Node, ruleType: string)
      requires FindChild(rule, "Days").Some? ==> FindChild(rule, "Days").value.text.Some?
      modifies this
      ensures errors == old(errors) + DaysCheck(rule, ruleType)
      ensures warnings == old(warnings)
    {
      var daysElem := FindChild(rule, "Days");
      if daysElem.Some? {
        var text := daysElem.value.text.value;
        var days := ParseInt(text);
        if days.None? {
          errors := errors + [InvalidDaysValue(text)];
        } else if days.value < 0 || days.value > 365 {
          errors := errors + [DaysOutOfRange(ruleType, days.value)];
        }
      }
    }

    /** The body of the rule loop, for one FareRule element. */
    method CheckFareRule(rule: Node)
      requires DaysTextPresent(rule)
      modifies this
      ensures errors == old(errors) + FareRuleCheck(rule).errors
      ensures warnings == old(warnings) + FareRuleCheck(rule).warnings
    {
      var ruleType := Attr(rule, "type");
      var ruleCode := Attr(rule, "code");
      if Truthy(ruleType) && ruleType.value !in RuleTypes {
        warnings := warnings + [UnknownRuleType(ruleType.value)];
      }
      if Truthy(ruleCode) && !IsRuleCode(ruleCode.value) {
        errors := errors + [InvalidRuleCode(ruleCode.value)];
      }
      if ruleType == Some("ADVANCE_PURCHASE") {
        CheckRuleDays(rule, "ADVANCE_PURCHASE");
      }
      if ruleType == Some("MIN_STAY") || ruleType == Some("MAX_STAY") {
        CheckRuleDays(rule, ruleType.value);
      }
    }

    method CheckFareRules()
      requires forall rule :: rule in FareRuleElements(root) ==> DaysTextPresent(rule)
      modifies this
      ensures errors == old(errors) + FareRuleFindings(root).errors
      ensures warnings == old(warnings) + FareRuleFindings(root).warnings
    {
      var fareRules := FareRuleElements(root);
      var i := 0;
      while i < |fareRules|
        invariant 0 <= i <= |fareRules|
        invariant errors == old(errors) + Collect(fareRules[..i], FareRuleCheck).errors
        invariant warnings == old(warnings) + Collect(fareRules[..i], FareRuleCheck).warnings
      {
        assert fareRules[i] in fareRules;
        CheckFareRule(fareRules[i]);
        CollectStep(fareRules, FareRuleCheck, i);
        AppendThen(old(errors), old(warnings), Collect(fareRules[..i], FareRuleCheck), FareRuleCheck(fareRules[i]));
        i := i + 1;
      }
      assert fareRules[..i] == fareRules;
    }

    method CheckAvailability()
      requires SeatsTextPresent(root)
      modifies this
      ensures errors == old(errors) + AvailabilityFindings(root).errors
      ensures warnings == old(warnings) + AvailabilityFindings(root).warnings
    {
      var availability := FindDescendant(root, "Availability");
      if availability.Some? {
        var seats := FindChild(availability.value, "SeatsAvailable");
        if seats.Some? {
          var text := seats.value.text.value;
          var seatCount := ParseInt(text);
          if seatCount.None? {
            errors := errors + [InvalidSeatCount(text)];
          } else if seatCount.value < 0 {
            errors := errors + [NegativeSeats(seatCount.value)];
          } else if seatCount.value == 0 {
            warnings := warnings + [NoSeatsAvailable];
          } else if seatCount.value > 9 {
            warnings := warnings + [UnusualSeatCount(seatCount.value)];
          }
        }
      }
    }

    method CheckCurrency()
      modifies this
      ensures errors == old(errors) + CurrencyFindings(root).errors
      ensures warnings == old(warnings) + CurrencyFindings(root).warnings
    {
      var currencyElements := CurrencyElements(root);
      var i := 0;
      while i < |currencyElements|
        invariant 0 <= i <= |currencyElements|
        invariant errors == old(errors) + Collect(currencyElements[..i], CurrencyCheck).errors
        invariant warnings == old(warnings) + Collect(currencyElements[..i], CurrencyCheck).warnings
      {
        assert currencyElements[i] in currencyElements;
        WithAttrMembers(Descendants(root), "currency", currencyElements[i]);
        var currency := currencyElements[i].attrs["currency"];
        if !IsCurrencyCode(currency) {
          errors := errors + [InvalidCurrencyCode(currency)];
        }
        if currency !in CommonCurrencies {
          warnings := warnings + [UncommonCurrency(currency)];
        }
        CollectStep(currencyElements, CurrencyCheck, i);
        AppendThen(old(errors), old(warnings), Collect(currencyElements[..i], CurrencyCheck), CurrencyCheck(currencyElements[i]));
        i := i + 1;
      }
      assert currencyElements[..i] == currencyElements;
    }
  }
}
