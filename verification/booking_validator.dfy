// The booking validator: four checks over a booking document, run in a fixed order, each
// appending to the validator's errors list; the warnings list is created but no check
// ever appends to it. For each check there is a function saying what it appends and a
// method of BookingValidator that appends it the way the validator does.
module BookingValidation {
  import opened XmlTree
  import opened Conversions
  import opened Diagnostics

  datatype BookingError =
    | ConnectionTooShort(minutes: real)
    | ChildTooOld(passengerId: Option<string>, years: real)
    | AdultTooYoung(passengerId: Option<string>, years: real)
    | BaggageLimitExceeded(totalWeight: real, checkedBags: real)
    | SubTotalMismatch(fareSum: real, subTotal: real)
    | TaxMismatch(expectedTax: real, tax: real)
    | TotalMismatch(expectedTotal: real, total: real)

  /** The shortest accepted connection, in minutes. */
  const MinimumConnectionMinutes: real := 90.0
  /** The age that separates children from adults, in years of 365.25 days. Literal factors
      (365.25, 0.15, 60.0) are written in place so that the arithmetic stays linear. */
  const AdultAge: real := 12.0
  /** The largest accepted total baggage weight, in kg. */
  const BaggageLimit: real := 100.0
  /** The largest accepted difference between two amounts. */
  const Tolerance: real := 0.01
  const SecondsPerDay: int := 86400

  // ---------------------------------------------------------------------------------------
  // Reading the document

  /** The text of an optional element as a timestamp: None for a missing element, a missing
      text or a string `datetime.fromisoformat` rejects. */
  function DateTimeOf(n: Option<Node>): Option<int>
  {
    if n.None? || n.value.text.None? then None else ParseDateTime(n.value.text.value)
  }

  /** The text of an optional element as a number, in the same way for `float`. */
  function NumberOf(n: Option<Node>): Option<real>
  {
    if n.None? || n.value.text.None? then None else ParseFloat(n.value.text.value)
  }

  /** `root.find(".//Segment[k]/Flight/<leg>/DateTime")`, converted. */
  function SegmentTime(root: Node, k: nat, leg: string): Option<int>
  {
    DateTimeOf(First(ChildPathAll(PositionedDescendants(root, "Segment", k), ["Flight", leg, "DateTime"])))
  }

  /** `root.find(".//Pricing/<field>")`: the first such child of any Pricing element. */
  function PricingElement(root: Node, field: string): Option<Node>
  {
    First(ChildPathAll(DescendantsNamed(root, "Pricing"), [field]))
  }

  function Passengers(root: Node): seq<Node>
  {
    DescendantsNamed(root, "Passenger")
  }

  /** What the checks read from one Passenger element. */
  datatype Passenger = Passenger(id: Option<string>, kind: Option<string>, birth: int, fare: real, weight: real, checkedBags: real)

  /** A Passenger element every check can read without raising. */
  predicate WellFormedPassenger(p: Node)
  {
    && DateTimeOf(FindChild(p, "DateOfBirth")).Some?
    && NumberOf(FindPath(p, ["Baggage", "Weight"])).Some?
    && NumberOf(FindPath(p, ["Baggage", "Checked"])).Some?
    && NumberOf(FindChild(p, "Fare")).Some?
  }

  function PassengerView(p: Node): Passenger
    requires WellFormedPassenger(p)
  {
    Passenger(Attr(p, "id"), Attr(p, "type"),
      DateTimeOf(FindChild(p, "DateOfBirth")).value,
      NumberOf(FindChild(p, "Fare")).value,
      NumberOf(FindPath(p, ["Baggage", "Weight"])).value,
      NumberOf(FindPath(p, ["Baggage", "Checked"])).value)
  }

  predicate AllWellFormed(ps: seq<Node>)
  {
    forall i :: 0 <= i < |ps| ==> WellFormedPassenger(ps[i])
  }

  function Views(ps: seq<Node>): (vs: seq<Passenger>)
    requires AllWellFormed(ps)
    ensures |vs| == |ps|
  {
    if ps == [] then [] else Views(ps[..|ps| - 1]) + [PassengerView(ps[|ps| - 1])]
  }

  /** Documents `validate()` gets through without raising: the summary step needs
      BookingReference and Agency (its Pricing/Total lookup is covered by the Total amount
      below); the checks need both segment times, every passenger's birth date, baggage and
      fare, and the three pricing amounts, all present and convertible. */
  predicate WellFormedBooking(root: Node)
  {
    && FindChild(root, "BookingReference").Some?
    && FindChild(root, "Agency").Some?
    && SegmentTime(root, 1, "Arrival").Some?
    && SegmentTime(root, 2, "Departure").Some?
    && SegmentTime(root, 1, "Departure").Some?
    && AllWellFormed(Passengers(root))
    && NumberOf(PricingElement(root, "SubTotal")).Some?
    && NumberOf(PricingElement(root, "Tax")).Some?
    && NumberOf(PricingElement(root, "Total")).Some?
  }

  // ---------------------------------------------------------------------------------------
  // 1. Connection time between the first arrival and the second departure.

  function ConnectionErrors(arrival: int, departure: int): seq<BookingError>
  {
    var minutes := (departure - arrival) as real / 60.0;
    if minutes < MinimumConnectionMinutes then [ConnectionTooShort(minutes)] else []
  }

  // ---------------------------------------------------------------------------------------
  // 2. Passenger type against age at the first departure.

  /** `(departure - birth).days`: whole days, rounded down. */
  function AgeDays(departure: int, birth: int): int
  {
    (departure - birth) / SecondsPerDay
  }

  function AgeYears(days: int): real
  {
    days as real / 365.25
  }

  function AgeCheck(p: Passenger, departure: int): seq<BookingError>
  {
    var years := AgeYears(AgeDays(departure, p.birth));
    if p.kind == Some("child") then (if years >= AdultAge then [ChildTooOld(p.id, years)] else [])
    else if p.kind == Some("adult") then (if years < AdultAge then [AdultTooYoung(p.id, years)] else [])
    else []
  }

  function AgeErrors(ps: seq<Passenger>, departure: int): seq<BookingError>
  {
    if ps == [] then [] else AgeErrors(ps[..|ps| - 1], departure) + AgeCheck(ps[|ps| - 1], departure)
  }

  // ---------------------------------------------------------------------------------------
  // 3. Total baggage weight.

  function TotalWeight(ps: seq<Passenger>): real
  {
    if ps == [] then 0.0 else TotalWeight(ps[..|ps| - 1]) + ps[|ps| - 1].weight
  }

  function TotalChecked(ps: seq<Passenger>): real
  {
    if ps == [] then 0.0 else TotalChecked(ps[..|ps| - 1]) + ps[|ps| - 1].checkedBags
  }

  function BaggageErrors(ps: seq<Passenger>): seq<BookingError>
  {
    if TotalWeight(ps) > BaggageLimit then [BaggageLimitExceeded(TotalWeight(ps), TotalChecked(ps))] else []
  }

  // ---------------------------------------------------------------------------------------
  // 4. Price consistency.

  function FareSum(ps: seq<Passenger>): real
  {
    if ps == [] then 0.0 else FareSum(ps[..|ps| - 1]) + ps[|ps| - 1].fare
  }

  /** The three independent consistency rules, in the order they are appended. */
  function PricingErrors(fareSum: real, subTotal: real, tax: real, total: real): seq<BookingError>
  {
    (if Abs(fareSum - subTotal) > Tolerance then [SubTotalMismatch(fareSum, subTotal)] else [])
    + (if Abs(subTotal * 0.15 - tax) > Tolerance then [TaxMismatch(subTotal * 0.15, tax)] else [])
    + (if Abs(subTotal + tax - total) > Tolerance then [TotalMismatch(subTotal + tax, total)] else [])
  }

  // ---------------------------------------------------------------------------------------
  // The whole pass.

  /** What one call of `validate()` appends to the errors: the four checks, in this order. */
  function BookingReport(root: Node): seq<BookingError>
    requires WellFormedBooking(root)
  {
    var passengers := Views(Passengers(root));
    ConnectionErrors(SegmentTime(root, 1, "Arrival").value, SegmentTime(root, 2, "Departure").value)
    + AgeErrors(passengers, SegmentTime(root, 1, "Departure").value)
    + BaggageErrors(passengers)
    + PricingErrors(FareSum(passengers),
        NumberOf(PricingElement(root, "SubTotal")).value,
        NumberOf(PricingElement(root, "Tax")).value,
        NumberOf(PricingElement(root, "Total")).value)
  }

  /** The validator object: the parsed document and its two lists, created once by the
      constructor and never emptied. */
  class BookingValidator {
    const root: Node
    var errors: seq<BookingError>
    var warnings: seq<string>

    constructor (root: Node)
      ensures this.root == root && errors == [] && warnings == []
    {
      this.root := root;
      errors := [];
      warnings := [];
    }

    /** `validate()`: the summary and special-request steps only print, so the result is made
        of the four checks alone; validity is decided by the errors list. */
    method Validate() returns (result: ValidationResult<BookingError, string>)
      requires WellFormedBooking(root)
      modifies this
      ensures errors == old(errors) + BookingReport(root)
      ensures warnings == old(warnings)
      ensures result == ValidationResult(errors == [], errors, warnings)
    {
      ghost var e0 := errors;
      ghost var passengers := Views(Passengers(root));
      ghost var connection := ConnectionErrors(SegmentTime(root, 1, "Arrival").value, SegmentTime(root, 2, "Departure").value);
      ghost var ages := AgeErrors(passengers, SegmentTime(root, 1, "Departure").value);
      ghost var baggage := BaggageErrors(passengers);
      ghost var pricing := PricingErrors(FareSum(passengers),
        NumberOf(PricingElement(root, "SubTotal")).value,
        NumberOf(PricingElement(root, "Tax")).value,
        NumberOf(PricingElement(root, "Total")).value);
      CheckConnectionTimes();
      CheckPassengerAges();
      AppendAssoc(e0, connection, ages);
      CheckBaggage();
      AppendAssoc(e0, connection + ages, baggage);
      CheckPricing();
      AppendAssoc(e0, connection + ages + baggage, pricing);
      assert BookingReport(root) == connection + ages + baggage + pricing;
      result := ValidationResult(errors == [], errors, warnings);
    }

    method CheckConnectionTimes()
      requires SegmentTime(root, 1, "Arrival").Some? && SegmentTime(root, 2, "Departure").Some?
      modifies this
      ensures errors == old(errors) + ConnectionErrors(SegmentTime(root, 1, "Arrival").value, SegmentTime(root, 2, "Departure").value)
      ensures warnings == old(warnings)
    {
      var arrival := SegmentTime(root, 1, "Arrival").value;
      var departure := SegmentTime(root, 2, "Departure").value;
      var connectionMinutes := (departure - arrival) as real / 60.0;
      if connectionMinutes < MinimumConnectionMinutes {
        errors := errors + [ConnectionTooShort(connectionMinutes)];
      }
    }

    /** The body of the passenger loop of the age check, for one passenger. */
    method CheckPassengerAge(passenger: Node, departure: int)
      requires WellFormedPassenger(passenger)
      modifies this
      ensures errors == old(errors) + AgeCheck(PassengerView(passenger), departure)
      ensures warnings == old(warnings)
    {
      var passengerId := Attr(passenger, "id");
      var passengerType := Attr(passenger, "type");
      var birth := DateTimeOf(FindChild(passenger, "DateOfBirth")).value;
      var ageYears := AgeYears(AgeDays(departure, birth));
      if passengerType == Some("child") {
        if ageYears >= AdultAge {
          errors := errors + [ChildTooOld(passengerId, ageYears)];
        }
      } else if passengerType == Some("adult") {
        if ageYears < AdultAge {
          errors := errors + [AdultTooYoung(passengerId, ageYears)];
        }
      }
    }

    method CheckPassengerAges()
      requires SegmentTime(root, 1, "Departure").Some? && AllWellFormed(Passengers(root))
      modifies this
      ensures errors == old(errors) + AgeErrors(Views(Passengers(root)), SegmentTime(root, 1, "Departure").value)
      ensures warnings == old(warnings)
    {
      var departure := SegmentTime(root, 1, "Departure").value;
      var passengers := Passengers(root);
      var i := 0;
      while i < |passengers|
        invariant 0 <= i <= |passengers|
        invariant AllWellFormed(passengers[..i])
        invariant errors == old(errors) + AgeErrors(Views(passengers[..i]), departure)
        invariant warnings == old(warnings)
      {
        CheckPassengerAge(passengers[i], departure);
        ViewsStep(passengers, i);
        SumsStep(Views(passengers[..i]), PassengerView(passengers[i]));
        AppendAssoc(old(errors), AgeErrors(Views(passengers[..i]), departure), AgeCheck(PassengerView(passengers[i]), departure));
        i := i + 1;
      }
      assert passengers[..i] == passengers;
    }

    method CheckBaggage()
      requires AllWellFormed(Passengers(root))
      modifies this
      ensures errors == old(errors) + BaggageErrors(Views(Passengers(root)))
      ensures warnings == old(warnings)
    {
      var passengers := Passengers(root);
      var weightSum := 0.0;
      var checkedSum := 0.0;
      var i := 0;
      while i < |passengers|
        invariant 0 <= i <= |passengers|
        invariant AllWellFormed(passengers[..i])
        invariant weightSum == TotalWeight(Views(passengers[..i]))
        invariant checkedSum == TotalChecked(Views(passengers[..i]))
        invariant errors == old(errors) && warnings == old(warnings)
      {
        weightSum := weightSum + NumberOf(FindPath(passengers[i], ["Baggage", "Weight"])).value;
        checkedSum := checkedSum + NumberOf(FindPath(passengers[i], ["Baggage", "Checked"])).value;
        ViewsStep(passengers, i);
        SumsStep(Views(passengers[..i]), PassengerView(passengers[i]));
        i := i + 1;
      }
      assert passengers[..i] == passengers;
      if weightSum > BaggageLimit {
        errors := errors + [BaggageLimitExceeded(weightSum, checkedSum)];
      }
    }

    /** The fare-summing loop of the pricing check. */
    method SumFares() returns (fareSum: real)
      requires AllWellFormed(Passengers(root))
      ensures fareSum == FareSum(Views(Passengers(root)))
    {
      var passengers := Passengers(root);
      fareSum := 0.0;
      var i := 0;
      while i < |passengers|
        invariant 0 <= i <= |passengers|
        invariant AllWellFormed(passengers[..i])
        invariant fareSum == FareSum(Views(passengers[..i]))
      {
        fareSum := fareSum + NumberOf(FindChild(passengers[i], "Fare")).value;
        ViewsStep(passengers, i);
        SumsStep(Views(passengers[..i]), PassengerView(passengers[i]));
        i := i + 1;
      }
      assert passengers[..i] == passengers;
    }

    method CheckPricing()
      requires AllWellFormed(Passengers(root))
      requires NumberOf(PricingElement(root, "SubTotal")).Some?
      requires NumberOf(PricingElement(root, "Tax")).Some?
      requires NumberOf(PricingElement(root, "Total")).Some?
      modifies this
      ensures errors == old(errors) + PricingErrors(FareSum(Views(Passengers(root))),
        NumberOf(PricingElement(root, "SubTotal")).value,
        NumberOf(PricingElement(root, "Tax")).value,
        NumberOf(PricingElement(root, "Total")).value)
      ensures warnings == old(warnings)
    {
      var fareSum := SumFares();
      var subTotal := NumberOf(PricingElement(root, "SubTotal")).value;
      var tax := NumberOf(PricingElement(root, "Tax")).value;
      var total := NumberOf(PricingElement(root, "Total")).value;
      ghost var e1 := errors;
      ghost var subTotalErrors := if Abs(fareSum - subTotal) > Tolerance then [SubTotalMismatch(fareSum, subTotal)] else [];
      ghost var taxErrors := if Abs(subTotal * 0.15 - tax) > Tolerance then [TaxMismatch(subTotal * 0.15, tax)] else [];
      ghost var totalErrors := if Abs(subTotal + tax - total) > Tolerance then [TotalMismatch(subTotal + tax, total)] else [];
      if Abs(fareSum - subTotal) > Tolerance {
        errors := errors + [SubTotalMismatch(fareSum, subTotal)];
      }
      assert errors == e1 + subTotalErrors;
      var calculatedTax := subTotal * 0.15;
      if Abs(calculatedTax - tax) > Tolerance {
        errors := errors + [TaxMismatch(calculatedTax, tax)];
      }
      assert errors == e1 + subTotalErrors + taxErrors;
      var calculatedTotal := subTotal + tax;
      if Abs(calculatedTotal - total) > Tolerance {
        errors := errors + [TotalMismatch(calculatedTotal, total)];
      }
      assert errors == e1 + subTotalErrors + taxErrors + totalErrors;
      AppendAssoc(e1, subTotalErrors, taxErrors);
      AppendAssoc(e1, subTotalErrors + taxErrors, totalErrors);
    }
  }

  /** One more passenger read extends the views by that passenger's. */
  lemma ViewsStep(ps: seq<Node>, i: nat)
    requires i < |ps| && AllWellFormed(ps)
    ensures AllWellFormed(ps[..i + 1])
    ensures Views(ps[..i + 1]) == Views(ps[..i]) + [PassengerView(ps[i])]
  {
    assert ps[..i + 1][..i] == ps[..i];
  }

  /** Adding one more passenger to the sums and to the age errors. */
  lemma SumsStep(ps: seq<Passenger>, p: Passenger)
    ensures TotalWeight(ps + [p]) == TotalWeight(ps) + p.weight
    ensures TotalChecked(ps + [p]) == TotalChecked(ps) + p.checkedBags
    ensures FareSum(ps + [p]) == FareSum(ps) + p.fare
    ensures forall departure :: AgeErrors(ps + [p], departure) == AgeErrors(ps, departure) + AgeCheck(p, departure)
  {
    assert (ps + [p])[..|ps|] == ps;
  }
}
