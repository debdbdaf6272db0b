# Airline data validators — a Dafny model

This project models the two validators of the airline-data-validator repository:

- `FareValidator` checks a fare-quote XML document in six checks: structure, fare-basis codes,
  pricing components, fare rules, seat availability and currency codes.
- `BookingValidator` checks a booking XML document in four checks: connection time, passenger
  type against age, total baggage weight, and price consistency.

Each validator is an object holding the parsed document and two lists, `errors` and
`warnings`. The constructor creates both lists. Every check appends to them, and `validate()`
runs the checks in a fixed order. It returns `is_valid` (no errors recorded), together with
the two lists.

How the model is built:

- The parsed document is a value, `XmlTree.Node`: tag, attributes, optional text and
  children.
- The ElementTree queries the validators use are functions on it:
  - `find` of a child;
  - `.//X`, which searches below the root, in document order, and excludes the root;
  - `.//X[k]`, the k-th `X` among its siblings;
  - `.//*[@attr]`;
  - `a/b/c` child paths.
- `int()`, `float()` and `datetime.fromisoformat` are functions (module `Conversions`) that
  answer `None` wherever Python raises `ValueError`, and also on some spellings Python
  accepts (listed under "Left out"). `int()` keeps Python's limit of 4300 digits
  (`sys.int_info.default_max_str_digits`), leading zeros included.
- `re.match(r"^[...]{lo,hi}$")` is `TextPatterns.FullMatch`. It keeps Python's `$`, which
  also matches before a single trailing newline.
- Each check is specified by a function of the document saying what it appends
  (`FareValidation.PricingFindings`, `BookingValidation.BaggageErrors`, ...).
- Each check is also written as a method of the validator class. That method appends step
  by step, as the Python code does, with loops where the code loops. Its contract ties the
  new lists to `old(errors) + <specification function>`.
- The modules `FareProperties` and `BookingProperties` prove what the specification
  functions promise: when each diagnostic appears, the boundaries of every numeric rule, the
  order of the output, and the cases from the repository's tests.

Documents on which Python raises an uncaught exception have no result. Examples are a
`TypeError` from a missing element text, an `AttributeError` from a missing element, and any
exception inside the booking checks. The methods require such documents to be absent:
`FareValidation.WellFormedFare` and `BookingValidation.WellFormedBooking` state exactly what
is needed.

Two consequences of the code:

- A currency such as "xxx" gets both an error and a warning, because the format check and
  the common-currency check are independent.
- Calling `validate()` twice on one validator does not give the same result: the lists are
  never cleared, so the second call reports every diagnostic a second time
  (`FareProperties.FareRevalidationAppends`, `BookingProperties.BookingRevalidationAppends`).

## Model

| member | source | states |
|---|---|---|
| FareValidation.FareValidator.constructor | src/validators/fare_validator.py:12-15 | a new validator holds the document and two empty lists |
| FareValidation.FareValidator.Validate | src/validators/fare_validator.py:17-30 | appends the six checks' output in order (`FareReport`) to both lists and returns is_valid = errors list empty, and the lists themselves |
| FareValidation.FareValidator.CheckStructure | src/validators/fare_validator.py:32-44 | the loop over the three required fields appends exactly `StructureFindings` |
| FareValidation.FareValidator.CheckFareBasisCodes | src/validators/fare_validator.py:46-58 | the loop over every `.//FareBasis` element appends exactly `FareBasisFindings` |
| FareValidation.FareValidator.CheckPricingComponents | src/validators/fare_validator.py:60-97 | appends exactly `PricingFindings`; conversion stops at the first text that is not a number |
| FareValidation.FareValidator.CheckAmounts | src/validators/fare_validator.py:82-94 | the mismatch, negative-base and negative-tax tests append `AmountErrors`, each independently |
| FareValidation.FareValidator.CheckFareRules | src/validators/fare_validator.py:99-103 | the loop over every `.//FareRule` element appends exactly `FareRuleFindings` |
| FareValidation.FareValidator.CheckFareRule | src/validators/fare_validator.py:104-150 | one rule appends its code error and day errors to errors and its type warning to warnings (`FareRuleCheck`) |
| FareValidation.FareValidator.CheckRuleDays | src/validators/fare_validator.py:128-150 | the Days block appends `DaysCheck`: nothing without Days, an invalid-value error (also for a numeral over 4300 digits), or a range error |
| FareValidation.FareValidator.CheckAvailability | src/validators/fare_validator.py:152-172 | appends exactly `AvailabilityFindings` |
| FareValidation.FareValidator.CheckCurrency | src/validators/fare_validator.py:174-201 | the loop over every element below the root with a currency attribute appends exactly `CurrencyFindings` |
| FareProperties.FareValidIff | src/validators/fare_validator.py:26-27 | a quote is valid iff each of the six checks reports no error; warnings never matter |
| FareProperties.MissingFieldsIff | src/validators/fare_validator.py:41-44 | a missing-field error is reported iff the field is required and FareInfo has no such child; at most one per field |
| FareProperties.StructureOutcomes | src/validators/fare_validator.py:34-44 | without FareInfo, exactly the one missing-FareInfo error; otherwise one error per absent field, in the order FareReference, FareBasis, ValidatingCarrier |
| FareProperties.MissingFieldsExample | tests/test_fare_validator.py:131-150 | a FareInfo with only FareReference draws the FareBasis and ValidatingCarrier errors |
| FareProperties.FareBasisErrorIff | src/validators/fare_validator.py:48-58 | a fare-basis error names a code iff some FareBasis element anywhere below the root holds it and it is not 4-15 of A-Z and 0-9 |
| FareProperties.FareBasisBounds | src/validators/fare_validator.py:50-58 | the fare-basis check never warns and reports at most once per element |
| FareProperties.FareBasisExamples | tests/test_fare_validator.py:51-75 | the accepted and rejected codes of the test table; "YOWUS\n" is accepted because of Python's `$` |
| FareProperties.PricingStructureOutcomes | src/validators/fare_validator.py:62-74 | no Pricing element, or a missing component, gives exactly one error; the pricing check never warns |
| FareProperties.ComponentOutcomes | src/validators/fare_validator.py:77-97 | the first text that is not a number gives exactly one numeric-value error naming it; three numbers give exactly the amount errors |
| FareProperties.AmountErrorsIff | src/validators/fare_validator.py:83-94 | mismatch iff the sum is more than 0.01 away from Total in either direction; negative-base iff < 0; negative-taxes iff < 0; nothing else; at most three |
| FareProperties.PricingExamples | tests/test_fare_validator.py:78-103 | the amounts of the pricing test table, and 575.01 against 575 accepted by the tolerance |
| FareProperties.RuleTypeOutcomes | src/validators/fare_validator.py:108-119 | an unknown-type warning iff the type is present, non-empty and not one of the five types; rules of other types can only draw a code error |
| FareProperties.RuleCodeIff | src/validators/fare_validator.py:121-126 | a code error iff the code is present, non-empty and not 2-4 of A-Z and 0-9 |
| Conversions.IntDigitLimit | src/validators/fare_validator.py:133 | `int()` converts a string of digits iff it has at most 4300 of them, leading zeros included |
| Conversions.ScanDigitsWithinLimit | src/validators/fare_validator.py:160 | a run of digits is accepted iff the digits read in total stay within 4300 |
| FareProperties.LongDaysRejected | src/validators/fare_validator.py:131-139 | a Days text of more than 4300 digits draws the invalid-days error, whatever its value |
| FareProperties.LongSeatCountRejected | src/validators/fare_validator.py:158-172 | a SeatsAvailable text of more than 4300 digits draws the invalid-seat-count error, never a seat band |
| FareProperties.DaysOutcomes | src/validators/fare_validator.py:128-150 | with a Days child: a non-integer gives the invalid-days error; an integer gives an error iff it lies outside 0..365, both ends accepted |
| FareProperties.NoDaysNoDaysError | src/validators/fare_validator.py:129-143 | without Days, or with a type that is not day-counted, a rule can only draw a code error |
| FareProperties.UnattributedRuleIsSilent | src/validators/fare_validator.py:104-150 | a rule with neither type nor code produces nothing |
| FareProperties.FareRuleWarningIff | src/validators/fare_validator.py:101-119 | over the document: an unknown-type warning for t iff some FareRule carries the non-empty unknown type t |
| FareProperties.FareRuleCodeErrorIff | src/validators/fare_validator.py:101-126 | over the document: a code error for c iff some FareRule carries the malformed code c |
| FareProperties.FareRuleExamples | tests/conftest.py:311-320 | the AP14/14-day and MS03/3-day rules of the valid quote are silent |
| FareProperties.SeatBands | src/validators/fare_validator.py:160-170 | at most one diagnostic: an error iff negative, the no-seats warning iff zero, the unusual-count warning iff above nine, nothing for 1-9 |
| FareProperties.AvailabilityOutcomes | src/validators/fare_validator.py:152-172 | nothing without Availability or SeatsAvailable; one error for a non-integer count; otherwise the band of the count |
| FareProperties.SeatExamples | tests/test_fare_validator.py:153-180 | the seat counts of the test table and the valid quote |
| FareProperties.CurrencyValueIff | src/validators/fare_validator.py:181-201 | format and allow-list judged independently: an error iff the value is not three letters A-Z (optionally followed by one newline); a warning iff it is not one of the eight common codes; at most one of each |
| FareProperties.CurrencyExamples | tests/test_fare_validator.py:106-128 | USD, EUR, GBP and PLN draw nothing; "xxx" draws an error and a warning; SEK only a warning; US, USDD and usd an error |
| FareProperties.CurrencyErrorIff | src/validators/fare_validator.py:176-185 | over the document: a currency error for c iff some element strictly below the root carries currency c and c is malformed |
| FareProperties.CurrencyElementsAreBelowRoot | src/validators/fare_validator.py:176 | the elements checked are exactly the descendants of the root carrying the attribute, all proper parts of the root |
| FareProperties.RootCurrencyNeverChecked | src/validators/fare_validator.py:176 | a currency attribute on the root element itself never changes the currency check's output |
| FareProperties.FareRuleCheckRank | src/validators/fare_validator.py:104-150 | one rule's errors and warnings all come from the fare-rule check |
| FareProperties.SixChecksGrouped | src/validators/fare_validator.py:19-24 | six checks whose diagnostics carry ranks 0 to 5, run in that order, leave both lists grouped by rank |
| FareProperties.FareReportGrouped | src/validators/fare_validator.py:17-30 | errors, and warnings, come out grouped by check, in the order structure, basis, pricing, rules, availability, currency |
| FareProperties.FareRevalidationAppends | src/validators/fare_validator.py:12-30 | a second validate() on the same validator returns every diagnostic of the first one twice, with the same verdict |
| BookingValidation.BookingValidator.constructor | src/validators/booking_validator.py:7-10 | a new validator holds the document and two empty lists |
| BookingValidation.BookingValidator.Validate | src/validators/booking_validator.py:12-20 | appends the four checks' errors in order (`BookingReport`), leaves warnings unchanged, returns is_valid = errors list empty |
| BookingValidation.BookingValidator.CheckConnectionTimes | src/validators/booking_validator.py:51-76 | appends `ConnectionErrors` of the first segment's arrival and the second segment's departure |
| BookingValidation.BookingValidator.CheckPassengerAges | src/validators/booking_validator.py:78-108 | the loop over every `.//Passenger` appends `AgeErrors` of all passengers against the first departure |
| BookingValidation.BookingValidator.CheckPassengerAge | src/validators/booking_validator.py:86-108 | one passenger appends `AgeCheck` of that passenger |
| BookingValidation.BookingValidator.CheckBaggage | src/validators/booking_validator.py:110-125 | the loop sums every passenger's weight and checked bags and appends `BaggageErrors` of those totals |
| BookingValidation.BookingValidator.SumFares | src/validators/booking_validator.py:129-134 | the loop returns the sum of every passenger's fare (`FareSum`) |
| BookingValidation.BookingValidator.CheckPricing | src/validators/booking_validator.py:127-160 | appends `PricingErrors` of the fare sum, SubTotal, Tax and Total |
| BookingProperties.ConnectionRule | src/validators/booking_validator.py:68-74 | a connection error iff the gap is under 5400 seconds, exactly 90 minutes passing; the error carries the gap in minutes |
| BookingProperties.FixtureDeparture | tests/conftest.py:19 | "2025-06-15T08:30:00" reads as 63885573000 seconds since 0001-01-01 |
| BookingProperties.FixtureArrival | tests/conftest.py:24 | "2025-06-15T10:45:00" reads as 63885581100 |
| BookingProperties.FixtureShortConnection | tests/conftest.py:103 | "2025-06-15T11:30:00" reads as 63885583800 |
| BookingProperties.FixtureValidConnection | tests/conftest.py:34 | "2025-06-15T14:00:00" reads as 63885592800 |
| BookingProperties.FixtureBirthDate | tests/conftest.py:190 | "2010-01-01" reads as 63397900800 |
| BookingProperties.DateIsFirstTen | src/validators/booking_validator.py:65-66 | the date part of a timestamp depends only on its first ten characters |
| BookingProperties.ConnectionExamples | tests/test_booking_validator.py:62-69 | 10:45 to 11:30 fails with 45 minutes; 10:45 to 14:00 passes; 5400 seconds passes and 5399 fails |
| BookingProperties.AgeDaysIsWholeDays | src/validators/booking_validator.py:93 | the age in days is the whole days of the interval, rounded down |
| BookingProperties.TwelveYears | src/validators/booking_validator.py:94-104 | age in years >= 12 iff the age in days >= 4383 |
| BookingProperties.AgeRule | src/validators/booking_validator.py:86-108 | a child errs iff at least 4383 days old, an adult iff younger, other types never; at most one error, naming the passenger's id |
| BookingProperties.AgeErrorsAppend | src/validators/booking_validator.py:85-108 | the errors of two groups of passengers are those of the first followed by those of the second |
| BookingProperties.AgeErrorsIff | src/validators/booking_validator.py:85-108 | an age error is reported iff some passenger draws it; at most one per passenger |
| BookingProperties.AgeExamples | tests/test_booking_validator.py:72-80 | the 2010-01-01 child is 5644 days old at departure and is reported under P001; the 1985 adult is not |
| BookingProperties.BaggageRule | src/validators/booking_validator.py:117-125 | one error carrying both totals iff the summed weight exceeds 100, exactly 100 passing |
| BookingProperties.TotalWeightAppend | src/validators/booking_validator.py:117-118 | the summed weight of two groups is the sum of their weights |
| BookingProperties.CheckedBagsNeverDecide | src/validators/booking_validator.py:117-125 | passenger lists with equal weights draw a baggage error together or not at all, whatever their checked bags |
| BookingProperties.BaggageExamples | tests/test_booking_validator.py:10-50 | 20+30 and 40+50 pass; 50+51, 60+60 and the 55+60 fixture fail with the totals |
| BookingProperties.PricingRule | src/validators/booking_validator.py:140-160 | each of the three errors appears iff its difference exceeds 0.01; nothing else; at most three |
| BookingProperties.PricingRulesIndependent | src/validators/booking_validator.py:140-160 | each rule can fire alone, and all three can fire together, in order |
| BookingProperties.PricingExamples | tests/conftest.py:63-67 | the amounts of the valid, child and two-passenger fixtures are consistent |
| BookingProperties.FareSumAppend | src/validators/booking_validator.py:132-134 | the fare sum of two groups is the sum of their fare sums |
| BookingProperties.BookingValidIff | src/validators/booking_validator.py:20 | a booking is valid iff none of the four checks reports an error |
| BookingProperties.AgeErrorsRank | src/validators/booking_validator.py:97-108 | the age check only reports age errors |
| BookingProperties.BookingReportGrouped | src/validators/booking_validator.py:12-20 | errors come grouped by check: connection, ages, baggage, prices |
| BookingProperties.BookingRevalidationAppends | src/validators/booking_validator.py:7-20 | warnings stay empty; a second validate() reports every error of the first one again |
| XmlTree.NamedMembers | src/validators/fare_validator.py:48 | a tag filter keeps exactly the elements with that tag |
| XmlTree.WithAttrMembers | src/validators/fare_validator.py:176 | an `[@attr]` filter keeps exactly the elements carrying the attribute |
| XmlTree.Descendants | src/validators/fare_validator.py:176 | `.//` yields only proper parts of the root, so never the root itself |
| XmlTree.DescendantsMembers | src/validators/fare_validator.py:48 | an element is yielded by `.//` iff it is a child of the root or lies below a child: the whole subtree except the root |
| XmlTree.DescendantsClosed | src/validators/fare_validator.py:176 | every child of an element, and everything below that child, is below the element |
| XmlTree.NamedAppend | src/validators/booking_validator.py:54-55 | the tag filter over two runs of siblings is the filter over the first followed by the filter over the second |
| XmlTree.PositionedFrom | src/validators/booking_validator.py:54-55 | `.//Segment[k]` yields only Segment elements below the node |
| XmlTree.KthAtIndex | src/validators/booking_validator.py:54-55 | a sibling that closes a run of k same-tag siblings is the k-th sibling with that tag |
| XmlTree.IndexOfKth | src/validators/booking_validator.py:54-55 | the k-th sibling with a tag sits where the run of same-tag siblings reaches length k |
| XmlTree.PositionedSound | src/validators/booking_validator.py:54-55 | everything `.//Segment[k]` yields is the k-th Segment child of the root or of an element below it |
| XmlTree.PositionedComplete | src/validators/booking_validator.py:54-55 | the k-th Segment child of the root or of any element below it is yielded by `.//Segment[k]` |
| XmlTree.PositionedMembers | src/validators/booking_validator.py:54-55 | `.//Segment[k]` yields exactly the k-th Segment child, by position, of the root and of every element below it |
| BookingProperties.SegmentPositionNotNumber | src/validators/booking_validator.py:52-55 | with segment "2" listed before segment "1", `.//Segment[1]` is the one numbered "2": position, not the `number` attribute, decides which times are compared |
| TextPatterns.FullMatchShape | src/validators/fare_validator.py:54 | without a trailing newline the pattern match is the plain run test; a match is never longer than the maximum plus one and never holds a lower-case letter |
| Diagnostics.CollectErrors | src/validators/fare_validator.py:50-58 | a loop over elements reports an error iff some element produces it |
| Diagnostics.CollectWarnings | src/validators/fare_validator.py:103-119 | a loop over elements reports a warning iff some element produces it |

## Left out

- XML parsing (`ET.fromstring`) is not modelled: the validators receive the parsed tree.
  Documents that fail to parse raise before any check runs.
- The booking summary and the special-request listing only print, so they are not modelled
  as operations. The summary's lookups can still raise. `BookingValidation.WellFormedBooking`
  therefore requires BookingReference, Agency and a Pricing/Total element.
- The message "Time between arrival and departure is ok" is printed output and is not
  modelled.
- `_validate_validity_dates` is never called by `validate()` and reads the wall clock; it is
  not modelled.
- Diagnostic messages are modelled as tagged values carrying the numbers and texts they
  mention, not as formatted strings. Python's `.0f`, `.1f` and `.2f` rounding inside
  messages is therefore not modelled.
- Numbers are exact reals. IEEE rounding is not modelled, so a sum that binary floating
  point rounds across the 0.01 tolerance may be judged differently.
- `Conversions.ParseFloat` and `Conversions.ParseInt` reject "nan", "inf"/"infinity",
  digit-group underscores ("1_0") and non-ASCII digits, all of which Python's `float()` and
  `int()` accept. The fare model therefore differs from Python on such texts:
  - a BaseFare, Taxes or Total of "nan": the model reports an invalid pricing number; Python
    reports nothing, because every comparison with nan is false;
  - a BaseFare of "inf": the model reports an invalid pricing number; Python reports a total
    mismatch;
  - a rule's Days of "1_0": the model reports an invalid days value; Python reads 10 and
    accepts it;
  - a SeatsAvailable of "1_0": the model reports an invalid seat count; Python reads 10 and
    warns about an unusual seat count.
  In a booking, such fare, weight or pricing texts make `BookingValidation.WellFormedBooking`
  false, so those bookings, which Python checks, lie outside the model.
- `datetime.fromisoformat` is modelled for a date and for a date plus one separator and
  `HH`, `HH:MM` or `HH:MM:SS`. Fractional seconds, UTC offsets, ISO week dates such as
  "2025-W24-7" and the basic (separator-free) formats are left out. Those strings convert to None, which the
  booking precondition excludes.
- BookingValidation.BookingValidator.Validate: the documents on which Python raises are
  excluded by the precondition, not modelled as an exception result.
- FareValidation.FareValidator.Validate: the documents on which Python raises a
  `TypeError` are excluded by the precondition, not modelled as an exception result.
- The dictionary `validate()` returns shares its lists with the validator. Later calls
  therefore change an earlier result in Python. The model returns values, so it does not
  capture this aliasing.
