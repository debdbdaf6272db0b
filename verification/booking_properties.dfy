// What the booking checks promise, stated over the specification functions of
// BookingValidation: the boundaries of the connection, age, baggage and price rules, the
// order of the reported errors, and the effect of running `validate()` twice.
module BookingProperties {
  import opened XmlTree
  import opened Conversions
  import opened Diagnostics
  import opened BookingValidation

  // ---------------------------------------------------------------------------------------
  // Connection time

  /** A connection error is reported exactly when the second departure is less than 90
      minutes (5400 seconds) after the first arrival; exactly 90 minutes passes and there is
      no upper bound. The error carries the gap in minutes. */
  lemma ConnectionRule(arrival: int, departure: int)
    ensures ConnectionErrors(arrival, departure) != [] <==> departure - arrival < 5400
    ensures ConnectionErrors(arrival, departure) != [] ==>
      ConnectionErrors(arrival, departure) == [ConnectionTooShort((departure - arrival) as real / 60.0)]
  {
  }

  /** `.//Segment[1]` and `.//Segment[2]` pick Segments by their position under their parent,
      not by their `number` attribute: in a Route listing segment "2" before segment "1",
      the connection check reads its arrival from the segment numbered "2". */
  lemma SegmentPositionNotNumber()
    ensures
      var second := Node("Segment", map["number" := "2"], None, []);
      var first := Node("Segment", map["number" := "1"], None, []);
      var booking := Node("Booking", map[], None, [Node("Itinerary", map[], None, [Node("Route", map[], None, [second, first])])]);
      PositionedDescendants(booking, "Segment", 1) == [second] && PositionedDescendants(booking, "Segment", 2) == [first]
  {
  }

  /** The fixture timestamps, as `fromisoformat` reads them: the first departure, the
      first arrival, and the second departure of the valid and of the short connection. */
  lemma FixtureDeparture()
    ensures ParseDateTime("2025-06-15T08:30:00") == Some(63885573000)
  {
    OnDepartureDay("2025-06-15T08:30:00", 30600);
  }

  lemma FixtureArrival()
    ensures ParseDateTime("2025-06-15T10:45:00") == Some(63885581100)
  {
    OnDepartureDay("2025-06-15T10:45:00", 38700);
  }

  lemma FixtureShortConnection()
    ensures ParseDateTime("2025-06-15T11:30:00") == Some(63885583800)
  {
    OnDepartureDay("2025-06-15T11:30:00", 41400);
  }

  lemma FixtureValidConnection()
    ensures ParseDateTime("2025-06-15T14:00:00") == Some(63885592800)
  {
    OnDepartureDay("2025-06-15T14:00:00", 50400);
  }

  /** A timestamp on 2025-06-15 is that day's first second plus its time of day. */
  lemma OnDepartureDay(s: string, seconds: nat)
    requires |s| > 10 && s[..10] == "2025-06-15" && ParseTime(s, 11) == Some(seconds)
    ensures ParseDateTime(s) == Some(739416 * 86400 + seconds)
  {
    DateIsFirstTen(s);
    DepartureDay();
  }

  lemma DepartureDay()
    ensures ParseDate("2025-06-15") == Some(739416)
  {
    var s := "2025-06-15";
    assert DigitsAt(s, 0, 4) == Some(2025);
    assert DigitsAt(s, 5, 2) == Some(6) && DigitsAt(s, 8, 2) == Some(15);
    assert DaysBeforeYear(2025) == 739251 && DaysBeforeMonth(2025, 6) == 151;
  }

  /** Digits read inside the first ten characters do not depend on what follows them. */
  lemma {:induction false} DigitsAtFirstTen(s: string, i: nat, n: nat)
    requires i + n <= 10 <= |s|
    ensures DigitsAt(s, i, n) == DigitsAt(s[..10], i, n)
  {
    if n > 0 {
      DigitsAtFirstTen(s, i, n - 1);
      assert s[..10][i + n - 1] == s[i + n - 1];
    }
  }

  /** The date part of a timestamp is its first ten characters. */
  lemma DateIsFirstTen(s: string)
    requires |s| >= 10
    ensures ParseDate(s) == ParseDate(s[..10])
  {
    DigitsAtFirstTen(s, 0, 4);
    DigitsAtFirstTen(s, 5, 2);
    DigitsAtFirstTen(s, 8, 2);
  }

  lemma FixtureBirthDate()
    ensures ParseDateTime("2010-01-01") == Some(63397900800)
  {
    assert ParseDate("2010-01-01") == Some(733772);
  }

  /** The connections of the fixtures: 10:45 to 11:30 is 45 minutes and fails; 10:45 to
      14:00 is 3 h 15 min and passes. */
  lemma ConnectionExamples()
    ensures ConnectionErrors(63885581100, 63885583800) == [ConnectionTooShort(45.0)]
    ensures ConnectionErrors(63885581100, 63885592800) == []
    ensures ConnectionErrors(0, 5400) == [] && ConnectionErrors(0, 5399) != []
  {
  }

  // ---------------------------------------------------------------------------------------
  // Passenger ages

  /** `timedelta.days`: the whole days in the interval, rounded down. */
  lemma AgeDaysIsWholeDays(departure: int, birth: int)
    ensures AgeDays(departure, birth) * 86400 <= departure - birth < (AgeDays(departure, birth) + 1) * 86400
  {
  }

  /** Twelve years of 365.25 days are exactly 4383 days. */
  lemma TwelveYears(days: int)
    ensures AgeYears(days) >= AdultAge <==> days >= 4383
  {
  }

  /** A child is reported iff at least 4383 days old, an adult iff younger, any other type
      (or none) never; at most one error, naming the passenger's id. */
  lemma AgeRule(p: Passenger, departure: int)
    ensures AgeCheck(p, departure) != [] <==>
      || (p.kind == Some("child") && AgeDays(departure, p.birth) >= 4383)
      || (p.kind == Some("adult") && AgeDays(departure, p.birth) < 4383)
    ensures |AgeCheck(p, departure)| <= 1
    ensures forall e :: e in AgeCheck(p, departure) ==>
      (e.ChildTooOld? || e.AdultTooYoung?) && e.passengerId == p.id
  {
    TwelveYears(AgeDays(departure, p.birth));
  }

  /** The age errors of two groups of passengers are those of the first group followed by
      those of the second: errors come out in passenger order. */
  lemma {:induction false} AgeErrorsAppend(ps: seq<Passenger>, qs: seq<Passenger>, departure: int)
    ensures AgeErrors(ps + qs, departure) == AgeErrors(ps, departure) + AgeErrors(qs, departure)
    decreases |qs|
  {
    if qs == [] {
      assert ps + qs == ps;
    } else {
      var init, last := qs[..|qs| - 1], qs[|qs| - 1];
      AgeErrorsAppend(ps, init, departure);
      var joined := ps + qs;
      assert joined[..|joined| - 1] == ps + init && joined[|joined| - 1] == last;
      assert AgeErrors(joined, departure) == AgeErrors(ps + init, departure) + AgeCheck(last, departure);
      AppendAssoc(AgeErrors(ps, departure), AgeErrors(init, departure), AgeCheck(last, departure));
    }
  }

  /** An age error is reported exactly when some passenger draws it, and there is at most one
      per passenger. */
  lemma {:induction false} AgeErrorsIff(ps: seq<Passenger>, departure: int, e: BookingError)
    ensures e in AgeErrors(ps, departure) <==> exists i :: 0 <= i < |ps| && e in AgeCheck(ps[i], departure)
    ensures |AgeErrors(ps, departure)| <= |ps|
  {
    if ps != [] {
      var init := ps[..|ps| - 1];
      AgeErrorsIff(init, departure, e);
      AgeRule(ps[|ps| - 1], departure);
      if exists i :: 0 <= i < |ps| && e in AgeCheck(ps[i], departure) {
        var i :| 0 <= i < |ps| && e in AgeCheck(ps[i], departure);
        if i < |init| {
          assert init[i] == ps[i];
        }
      }
      if e in AgeErrors(init, departure) {
        var i :| 0 <= i < |init| && e in AgeCheck(init[i], departure);
        assert ps[i] == init[i];
      }
    }
  }

  /** The child of the invalid-child fixture, born 2010-01-01, is 5644 days old at the
      2025-06-15 08:30 departure and is reported; the adult born 1985-03-20 is not. */
  lemma AgeExamples()
    ensures AgeDays(63885573000, 63397900800) == 5644
    ensures AgeCheck(Passenger(Some("P001"), Some("child"), 63397900800, 450.0, 15.0, 1.0), 63885573000)
      == [ChildTooOld(Some("P001"), 5644.0 / 365.25)]
    ensures AgeCheck(Passenger(Some("P001"), Some("adult"), 62615721600, 899.0, 20.0, 1.0), 63885573000) == []
  {
  }

  // ---------------------------------------------------------------------------------------
  // Baggage

  /** One baggage error, carrying both totals, exactly when the summed weight is strictly
      above 100 kg; exactly 100 kg passes. */
  lemma BaggageRule(ps: seq<Passenger>)
    ensures BaggageErrors(ps) != [] <==> TotalWeight(ps) > 100.0
    ensures BaggageErrors(ps) != [] ==> BaggageErrors(ps) == [BaggageLimitExceeded(TotalWeight(ps), TotalChecked(ps))]
  {
  }

  /** The summed weight of two groups of passengers is the sum of their weights. */
  lemma {:induction false} TotalWeightAppend(ps: seq<Passenger>, qs: seq<Passenger>)
    ensures TotalWeight(ps + qs) == TotalWeight(ps) + TotalWeight(qs)
    decreases |qs|
  {
    if qs == [] {
      assert ps + qs == ps;
    } else {
      var init := qs[..|qs| - 1];
      TotalWeightAppend(ps, init);
      var joined := ps + qs;
      assert joined[..|joined| - 1] == ps + init && joined[|joined| - 1] == qs[|qs| - 1];
    }
  }

  /** Only the weights decide: two passenger lists with the same weights draw a baggage
      error together or not at all, whatever their checked-bag counts. */
  lemma {:induction false} CheckedBagsNeverDecide(ps: seq<Passenger>, qs: seq<Passenger>)
    requires |ps| == |qs|
    requires forall i :: 0 <= i < |ps| ==> ps[i].weight == qs[i].weight
    ensures TotalWeight(ps) == TotalWeight(qs)
    ensures (BaggageErrors(ps) == []) <==> (BaggageErrors(qs) == [])
  {
    if ps != [] {
      CheckedBagsNeverDecide(ps[..|ps| - 1], qs[..|qs| - 1]);
    }
  }

  function TwoPassengers(weight1: real, weight2: real, checked1: real, checked2: real): seq<Passenger>
  {
    [Passenger(Some("P001"), Some("adult"), 62615721600, 899.0, weight1, checked1),
     Passenger(Some("P002"), Some("adult"), 62688902400, 899.0, weight2, checked2)]
  }

  /** The weights of the baggage test table and of the excessive-baggage fixture. */
  lemma BaggageExamples()
    ensures BaggageErrors(TwoPassengers(20.0, 30.0, 1.0, 1.0)) == []
    ensures BaggageErrors(TwoPassengers(40.0, 50.0, 1.0, 1.0)) == []
    ensures BaggageErrors(TwoPassengers(50.0, 51.0, 1.0, 1.0)) == [BaggageLimitExceeded(101.0, 2.0)]
    ensures BaggageErrors(TwoPassengers(60.0, 60.0, 1.0, 1.0)) == [BaggageLimitExceeded(120.0, 2.0)]
    ensures BaggageErrors(TwoPassengers(55.0, 60.0, 2.0, 2.0)) == [BaggageLimitExceeded(115.0, 4.0)]
    ensures BaggageErrors(TwoPassengers(50.0, 50.0, 9.0, 9.0)) == []
  {
    forall w1: real, w2: real, c1: real, c2: real
      ensures TotalWeight(TwoPassengers(w1, w2, c1, c2)) == w1 + w2
      ensures TotalChecked(TwoPassengers(w1, w2, c1, c2)) == c1 + c2
    {
      var ps := TwoPassengers(w1, w2, c1, c2);
      var first := ps[..1];
      assert first[..0] == [] && ps[..|ps| - 1] == first;
      assert TotalWeight(first) == w1 && TotalChecked(first) == c1;
    }
  }

  // ---------------------------------------------------------------------------------------
  // Prices

  /** The three price rules fire independently and in this order: the fare sum against
      SubTotal, 15 % of SubTotal against Tax, SubTotal + Tax against Total. */
  lemma PricingRule(fareSum: real, subTotal: real, tax: real, total: real)
    ensures SubTotalMismatch(fareSum, subTotal) in PricingErrors(fareSum, subTotal, tax, total)
      <==> Abs(fareSum - subTotal) > 0.01
    ensures TaxMismatch(subTotal * 0.15, tax) in PricingErrors(fareSum, subTotal, tax, total)
      <==> Abs(subTotal * 0.15 - tax) > 0.01
    ensures TotalMismatch(subTotal + tax, total) in PricingErrors(fareSum, subTotal, tax, total)
      <==> Abs(subTotal + tax - total) > 0.01
    ensures forall e :: e in PricingErrors(fareSum, subTotal, tax, total) ==>
      e.SubTotalMismatch? || e.TaxMismatch? || e.TotalMismatch?
    ensures |PricingErrors(fareSum, subTotal, tax, total)| <= 3
  {
  }

  /** Any rule may fire alone, and all three may fire together. */
  lemma PricingRulesIndependent()
    ensures PricingErrors(100.0, 0.0, 20.0, 0.0) ==
      [SubTotalMismatch(100.0, 0.0), TaxMismatch(0.0, 20.0), TotalMismatch(20.0, 0.0)]
    ensures PricingErrors(900.0, 899.0, 134.85, 1033.85) == [SubTotalMismatch(900.0, 899.0)]
    ensures PricingErrors(899.0, 899.0, 134.0, 1033.0) == [TaxMismatch(134.85, 134.0)]
    ensures PricingErrors(899.0, 899.0, 134.85, 1033.0) == [TotalMismatch(1033.85, 1033.0)]
  {
  }

  /** The amounts of the fixtures, all consistent. */
  lemma PricingExamples()
    ensures PricingErrors(899.0, 899.0, 134.85, 1033.85) == []
    ensures PricingErrors(1798.0, 1798.0, 269.70, 2067.70) == []
    ensures PricingErrors(450.0, 450.0, 67.50, 517.50) == []
  {
  }

  /** The fare sum of two groups of passengers is the sum of their fare sums. */
  lemma {:induction false} FareSumAppend(ps: seq<Passenger>, qs: seq<Passenger>)
    ensures FareSum(ps + qs) == FareSum(ps) + FareSum(qs)
    decreases |qs|
  {
    if qs == [] {
      assert ps + qs == ps;
    } else {
      var init := qs[..|qs| - 1];
      FareSumAppend(ps, init);
      var joined := ps + qs;
      assert joined[..|joined| - 1] == ps + init && joined[|joined| - 1] == qs[|qs| - 1];
    }
  }

  // ---------------------------------------------------------------------------------------
  // The whole pass

  /** A booking is valid exactly when none of the four checks reports an error. */
  lemma BookingValidIff(root: Node)
    requires WellFormedBooking(root)
    ensures BookingReport(root) == [] <==>
      var passengers := Views(Passengers(root));
      && ConnectionErrors(SegmentTime(root, 1, "Arrival").value, SegmentTime(root, 2, "Departure").value) == []
      && AgeErrors(passengers, SegmentTime(root, 1, "Departure").value) == []
      && BaggageErrors(passengers) == []
      && PricingErrors(FareSum(passengers), NumberOf(PricingElement(root, "SubTotal")).value,
           NumberOf(PricingElement(root, "Tax")).value, NumberOf(PricingElement(root, "Total")).value) == []
  {
  }

  /** The check an error comes from, numbered in the order the checks run. */
  function CheckOf(e: BookingError): nat
  {
    match e
    case ConnectionTooShort(_) => 0
    case ChildTooOld(_, _) => 1
    case AdultTooYoung(_, _) => 1
    case BaggageLimitExceeded(_, _) => 2
    case _ => 3
  }

  /** Each check contributes errors of its own kind only. */
  lemma AgeErrorsRank(ps: seq<Passenger>, departure: int)
    ensures forall e :: e in AgeErrors(ps, departure) ==> CheckOf(e) == 1
  {
    forall e | e in AgeErrors(ps, departure) ensures CheckOf(e) == 1 {
      AgeErrorsIff(ps, departure, e);
      var i :| 0 <= i < |ps| && e in AgeCheck(ps[i], departure);
      AgeRule(ps[i], departure);
    }
  }

  lemma ConnectionRank(arrival: int, departure: int)
    ensures forall e :: e in ConnectionErrors(arrival, departure) ==> CheckOf(e) == 0
  {
  }

  lemma BaggageRank(ps: seq<Passenger>)
    ensures forall e :: e in BaggageErrors(ps) ==> CheckOf(e) == 2
  {
  }

  lemma PricingRank(fareSum: real, subTotal: real, tax: real, total: real)
    ensures forall e :: e in PricingErrors(fareSum, subTotal, tax, total) ==> CheckOf(e) == 3
  {
    PricingRule(fareSum, subTotal, tax, total);
  }

  /** Errors come grouped by check: connection, then ages, then baggage, then prices. */
  lemma BookingReportGrouped(root: Node)
    requires WellFormedBooking(root)
    ensures Ascending(BookingReport(root), CheckOf)
  {
    var passengers := Views(Passengers(root));
    var arrival, departure := SegmentTime(root, 1, "Arrival").value, SegmentTime(root, 1, "Departure").value;
    var nextDeparture := SegmentTime(root, 2, "Departure").value;
    var subTotal, tax, total := NumberOf(PricingElement(root, "SubTotal")).value,
      NumberOf(PricingElement(root, "Tax")).value, NumberOf(PricingElement(root, "Total")).value;
    var connection := ConnectionErrors(arrival, nextDeparture);
    var ages := AgeErrors(passengers, departure);
    var baggage := BaggageErrors(passengers);
    var pricing := PricingErrors(FareSum(passengers), subTotal, tax, total);
    ConnectionRank(arrival, nextDeparture);
    AgeErrorsRank(passengers, departure);
    BaggageRank(passengers);
    PricingRank(FareSum(passengers), subTotal, tax, total);
    SameRankAscending(connection, CheckOf, 0);
    AppendGroup(connection, ages, CheckOf, 1);
    AppendGroup(connection + ages, baggage, CheckOf, 2);
    AppendGroup(connection + ages + baggage, pricing, CheckOf, 3);
    assert BookingReport(root) == connection + ages + baggage + pricing;
  }

  // ---------------------------------------------------------------------------------------
  // Repeated validation

  /** No check writes a warning, and the errors list lives as long as the validator: a
      second `validate()` reports every error of the first one a second time. */
  method BookingRevalidationAppends(root: Node) returns (first: ValidationResult<BookingError, string>, second: ValidationResult<BookingError, string>)
    requires WellFormedBooking(root)
    ensures first.errors == BookingReport(root)
    ensures second.errors == first.errors + first.errors
    ensures first.warnings == [] && second.warnings == []
    ensures second.isValid == first.isValid
  {
    var validator := new BookingValidator(root);
    first := validator.Validate();
    second := validator.Validate();
  }
}
