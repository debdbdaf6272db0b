// The library conversions the validators apply to element text: `int(...)`, `float(...)`
// and `datetime.fromisoformat(...)`. Each answers None wherever the library call raises
// ValueError (including `int`'s 4300-digit limit), and also on some spellings the library
// accepts: "nan", "inf", digit-group underscores and non-ASCII digits for `int` and
// `float`, and fractional seconds, UTC offsets, ISO week dates ("2025-W24-7") and the
// separator-free formats for `fromisoformat`. Numbers are exact (`real`), timestamps are
// whole seconds counted from 0001-01-01T00:00:00 in the proleptic Gregorian calendar, the
// origin of Python's date ordinals.
module Conversions {
  import opened XmlTree

  /** The characters Python's `str.strip()` removes (`str.isspace`). */
  predicate IsSpace(c: char)
  {
    || c == ' ' || '\t' <= c <= '\r' || '\U{001C}' <= c <= '\U{001F}'
    || c == '\U{0085}' || c == '\U{00A0}' || c == '\U{1680}' || '\U{2000}' <= c <= '\U{200A}'
    || c == '\U{2028}' || c == '\U{2029}' || c == '\U{202F}' || c == '\U{205F}' || c == '\U{3000}'
  }

  predicate IsDigit(c: char) { '0' <= c <= '9' }

  function DigitValue(c: char): nat
    requires IsDigit(c)
  {
    c as int - '0' as int
  }

  function Pow10(k: nat): (p: nat)
    ensures p >= 1
  {
    if k == 0 then 1 else 10 * Pow10(k - 1)
  }

  /** m * 10^k, exactly. */
  function Scaled(m: nat, k: int): real
  {
    if k >= 0 then (m * Pow10(k)) as real else m as real / Pow10(-k) as real
  }

  function Signed(negative: bool, x: int): int
  {
    if negative then -x else x
  }

  // Both conversions strip surrounding white space first; a numeral can contain no white
  // space, so that is the same as reading the string left to right: white space, the
  // numeral, white space, and nothing else. The scanners below do exactly that, one
  // character at a time.

  /** The most digits `int(s)` converts: Python's default `sys.int_info.default_max_str_digits`.
      A longer numeral, leading zeros included, raises ValueError. */
  const MaxIntDigits: nat := 4300

  /** Where `int(s)` has got to after a prefix of `s`. */
  datatype IntScan =
    | IntLead                                               // only white space so far
    | IntSign(negative: bool)                               // a sign, no digit yet
    | IntDigits(negative: bool, magnitude: nat, count: nat) // `count` digits so far
    | IntTrail(value: int)                                  // the numeral, then white space

  function ScanInt(s: string, i: nat, st: IntScan): Option<int>
    requires i <= |s|
    decreases |s| - i
  {
    if i == |s| then
      match st
      case IntDigits(negative, magnitude, count) =>
        if count <= MaxIntDigits then Some(Signed(negative, magnitude)) else None
      case IntTrail(value) => Some(value)
      case _ => None
    else
      var c := s[i];
      match st
      case IntLead =>
        if IsSpace(c) then ScanInt(s, i + 1, IntLead)
        else if c == '+' || c == '-' then ScanInt(s, i + 1, IntSign(c == '-'))
        else if IsDigit(c) then ScanInt(s, i + 1, IntDigits(false, DigitValue(c), 1))
        else None
      case IntSign(negative) =>
        if IsDigit(c) then ScanInt(s, i + 1, IntDigits(negative, DigitValue(c), 1)) else None
      case IntDigits(negative, magnitude, count) =>
        if IsDigit(c) then ScanInt(s, i + 1, IntDigits(negative, magnitude * 10 + DigitValue(c), count + 1))
        else if IsSpace(c) && count <= MaxIntDigits then ScanInt(s, i + 1, IntTrail(Signed(negative, magnitude)))
        else None
      case IntTrail(value) =>
        if IsSpace(c) then ScanInt(s, i + 1, st) else None
  }

  /** `int(s)`: optional white space, an optional sign, at most 4300 decimal digits, optional
      white space. */
  function ParseInt(s: string): Option<int>
  {
    ScanInt(s, 0, IntLead)
  }

  /** A run of digits is accepted exactly when the numeral stays within the digit limit. */
  lemma {:induction false} ScanDigitsWithinLimit(s: string, i: nat, negative: bool, magnitude: nat, count: nat)
    requires i <= |s| && forall j :: i <= j < |s| ==> IsDigit(s[j])
    ensures ScanInt(s, i, IntDigits(negative, magnitude, count)).Some? <==> count + (|s| - i) <= MaxIntDigits
    decreases |s| - i
  {
    if i < |s| {
      ScanDigitsWithinLimit(s, i + 1, negative, magnitude * 10 + DigitValue(s[i]), count + 1);
    }
  }

  /** `int` converts a string of digits iff it has at most 4300 of them: "0" * 4300 + "14"
      raises ValueError although its value is 14. */
  lemma IntDigitLimit(s: string)
    requires |s| > 0 && forall j :: 0 <= j < |s| ==> IsDigit(s[j])
    ensures ParseInt(s).Some? <==> |s| <= MaxIntDigits
  {
    ScanDigitsWithinLimit(s, 1, false, DigitValue(s[0]), 1);
  }

  /** Where `float(s)` has got to after a prefix of `s`. The digits read so far, before and
      after the point, make up `mantissa`; `fraction` counts those after the point. */
  datatype FloatScan =
    | FloatLead
    | FloatSign(negative: bool)
    | WholeDigits(negative: bool, mantissa: nat)
    | AfterPoint(negative: bool, mantissa: nat, fraction: nat, anyDigit: bool)
    | ExponentMark(negative: bool, mantissa: nat, fraction: nat)
    | ExponentSign(negative: bool, mantissa: nat, fraction: nat, negativeExponent: bool)
    | ExponentDigits(negative: bool, mantissa: nat, fraction: nat, negativeExponent: bool, exponent: nat)
    | FloatTrail(value: real)

  /** The value of (-)mantissa * 10^((-)exponent - fraction). */
  function DecimalValue(negative: bool, mantissa: nat, fraction: nat, exponent: int): real
  {
    var magnitude := Scaled(mantissa, exponent - fraction);
    if negative then -magnitude else magnitude
  }

  /** The value of a scan that may end here, if it may. */
  function FloatSoFar(st: FloatScan): Option<real>
  {
    match st
    case WholeDigits(negative, mantissa) => Some(DecimalValue(negative, mantissa, 0, 0))
    case AfterPoint(negative, mantissa, fraction, anyDigit) =>
      if anyDigit then Some(DecimalValue(negative, mantissa, fraction, 0)) else None
    case ExponentDigits(negative, mantissa, fraction, negativeExponent, exponent) =>
      Some(DecimalValue(negative, mantissa, fraction, Signed(negativeExponent, exponent)))
    case FloatTrail(value) => Some(value)
    case _ => None
  }

  function ScanFloat(s: string, i: nat, st: FloatScan): Option<real>
    requires i <= |s|
    decreases |s| - i
  {
    if i == |s| then FloatSoFar(st)
    else
      var c := s[i];
      if IsSpace(c) then
        if st.FloatLead? || st.FloatTrail? then ScanFloat(s, i + 1, st)
        else match FloatSoFar(st)
          case None => None
          case Some(value) => ScanFloat(s, i + 1, FloatTrail(value))
      else
        match st
        case FloatLead =>
          if c == '+' || c == '-' then ScanFloat(s, i + 1, FloatSign(c == '-'))
          else if IsDigit(c) then ScanFloat(s, i + 1, WholeDigits(false, DigitValue(c)))
          else if c == '.' then ScanFloat(s, i + 1, AfterPoint(false, 0, 0, false))
          else None
        case FloatSign(negative) =>
          if IsDigit(c) then ScanFloat(s, i + 1, WholeDigits(negative, DigitValue(c)))
          else if c == '.' then ScanFloat(s, i + 1, AfterPoint(negative, 0, 0, false))
          else None
        case WholeDigits(negative, mantissa) =>
          if IsDigit(c) then ScanFloat(s, i + 1, WholeDigits(negative, mantissa * 10 + DigitValue(c)))
          else if c == '.' then ScanFloat(s, i + 1, AfterPoint(negative, mantissa, 0, true))
          else if c == 'e' || c == 'E' then ScanFloat(s, i + 1, ExponentMark(negative, mantissa, 0))
          else None
        case AfterPoint(negative, mantissa, fraction, anyDigit) =>
          if IsDigit(c) then ScanFloat(s, i + 1, AfterPoint(negative, mantissa * 10 + DigitValue(c), fraction + 1, true))
          else if (c == 'e' || c == 'E') && anyDigit then ScanFloat(s, i + 1, ExponentMark(negative, mantissa, fraction))
          else None
        case ExponentMark(negative, mantissa, fraction) =>
          if c == '+' || c == '-' then ScanFloat(s, i + 1, ExponentSign(negative, mantissa, fraction, c == '-'))
          else if IsDigit(c) then ScanFloat(s, i + 1, ExponentDigits(negative, mantissa, fraction, false, DigitValue(c)))
          else None
        case ExponentSign(negative, mantissa, fraction, negativeExponent) =>
          if IsDigit(c) then ScanFloat(s, i + 1, ExponentDigits(negative, mantissa, fraction, negativeExponent, DigitValue(c)))
          else None
        case ExponentDigits(negative, mantissa, fraction, negativeExponent, exponent) =>
          if IsDigit(c) then ScanFloat(s, i + 1, ExponentDigits(negative, mantissa, fraction, negativeExponent, exponent * 10 + DigitValue(c)))
          else None
        case FloatTrail(_) => None
  }

  /** `float(s)` for finite decimal spellings: optional white space, an optional sign, digits
      with at most one '.' (at least one digit in all), an optional exponent, optional white space. */
  function ParseFloat(s: string): Option<real>
  {
    ScanFloat(s, 0, FloatLead)
  }

  /** `abs(x)` */
  function Abs(x: real): real
  {
    if x < 0.0 then -x else x
  }

  /** The `n` characters of `s` from index `i` on, read as a decimal number, if they are all digits. */
  function DigitsAt(s: string, i: nat, n: nat): Option<nat>
    requires i + n <= |s|
  {
    if n == 0 then Some(0)
    else
      match DigitsAt(s, i, n - 1)
      case None => None
      case Some(v) => if IsDigit(s[i + n - 1]) then Some(v * 10 + DigitValue(s[i + n - 1])) else None
  }

  predicate IsLeapYear(y: int)
  {
    y % 4 == 0 && (y % 100 != 0 || y % 400 == 0)
  }

  function DaysInMonth(y: int, m: int): nat
    requires 1 <= m <= 12
  {
    if m == 2 then (if IsLeapYear(y) then 29 else 28)
    else if m == 4 || m == 6 || m == 9 || m == 11 then 30
    else 31
  }

  function DaysBeforeMonth(y: int, m: int): nat
    requires 1 <= m <= 12
  {
    [0, 31, 59, 90, 120, 151, 181, 212, 243, 273, 304, 334][m - 1] + (if m > 2 && IsLeapYear(y) then 1 else 0)
  }

  function DaysBeforeYear(y: int): int
    requires y >= 1
  {
    var p := y - 1;
    p * 365 + p / 4 - p / 100 + p / 400
  }

  /** "YYYY-MM-DD" at the start of `s`, as a day number (0 for 0001-01-01). */
  function ParseDate(s: string): (r: Option<int>)
    ensures r.Some? ==> |s| >= 10
  {
    if |s| < 10 || s[4] != '-' || s[7] != '-' then None
    else
      match (DigitsAt(s, 0, 4), DigitsAt(s, 5, 2), DigitsAt(s, 8, 2))
      case (Some(y), Some(m), Some(d)) =>
        if 1 <= y && 1 <= m <= 12 && 1 <= d <= DaysInMonth(y, m)
        then Some(DaysBeforeYear(y) + DaysBeforeMonth(y, m) + d - 1)
        else None
      case _ => None
  }

  /** "HH", "HH:MM" or "HH:MM:SS" from index `i` to the end of `s`, as seconds into the day. */
  function ParseTime(s: string, i: nat): Option<nat>
    requires i <= |s|
  {
    var n := |s| - i;
    if n != 2 && n != 5 && n != 8 then None
    else if (n >= 5 && s[i + 2] != ':') || (n == 8 && s[i + 5] != ':') then None
    else
      var h := DigitsAt(s, i, 2);
      var m := if n >= 5 then DigitsAt(s, i + 3, 2) else Some(0);
      var sec := if n == 8 then DigitsAt(s, i + 6, 2) else Some(0);
      if h.None? || m.None? || sec.None? || h.value > 23 || m.value > 59 || sec.value > 59 then None
      else Some(h.value * 3600 + m.value * 60 + sec.value)
  }

  /** `datetime.fromisoformat(s)` for a date, or a date, any one separator character and a
      time, as seconds since 0001-01-01T00:00:00. */
  function ParseDateTime(s: string): Option<int>
  {
    match ParseDate(s)
    case None => None
    case Some(days) =>
      if |s| == 10 then Some(days * 86400)
      else
        match ParseTime(s, 11)
        case None => None
        case Some(secs) => Some(days * 86400 + secs)
  }
}
