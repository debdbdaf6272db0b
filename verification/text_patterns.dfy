// The three anchored regular expressions the fare validator applies with `re.match`:
//   ^[A-Z0-9]{4,15}$   fare-basis codes
//   ^[A-Z0-9]{2,4}$    fare-rule codes
//   ^[A-Z]{3}$         currency codes (the shape of an ISO 4217 alphabetic code)
// Each is a single character class repeated between `lo` and `hi` times. Python's `$`
// matches at the end of the string and also just before a final newline, so a value
// with one trailing '\n' after an otherwise matching run matches as well.
module TextPatterns {

  datatype CharClass = UpperLetter | UpperOrDigit

  predicate InClass(c: char, cls: CharClass)
  {
    match cls
    case UpperLetter => 'A' <= c <= 'Z'
    case UpperOrDigit => 'A' <= c <= 'Z' || '0' <= c <= '9'
  }

  /** `s` is lo..hi characters, every one of them in `cls`. */
  predicate Run(s: string, cls: CharClass, lo: nat, hi: nat)
  {
    lo <= |s| <= hi && forall i :: 0 <= i < |s| ==> InClass(s[i], cls)
  }

  /** `re.match("^[cls]{lo,hi}$", s)` succeeds. */
  predicate FullMatch(s: string, cls: CharClass, lo: nat, hi: nat)
  {
    Run(s, cls, lo, hi) || (|s| > 0 && s[|s| - 1] == '\n' && Run(s[..|s| - 1], cls, lo, hi))
  }

  predicate IsFareBasisCode(s: string) { FullMatch(s, UpperOrDigit, 4, 15) }

  predicate IsRuleCode(s: string) { FullMatch(s, UpperOrDigit, 2, 4) }

  predicate IsCurrencyCode(s: string) { FullMatch(s, UpperLetter, 3, 3) }

  /** A value without a trailing newline matches exactly when it is a plain run; a matching
      value is never longer than `hi` + 1 and never contains a lower-case letter. */
  lemma FullMatchShape(s: string, cls: CharClass, lo: nat, hi: nat)
    ensures (|s| == 0 || s[|s| - 1] != '\n') ==> (FullMatch(s, cls, lo, hi) <==> Run(s, cls, lo, hi))
    ensures FullMatch(s, cls, lo, hi) ==> |s| <= hi + 1
    ensures FullMatch(s, cls, lo, hi) ==> forall i :: 0 <= i < |s| ==> !('a' <= s[i] <= 'z')
  {
    if FullMatch(s, cls, lo, hi) && !Run(s, cls, lo, hi) {
      forall i | 0 <= i < |s| ensures !('a' <= s[i] <= 'z') {
        if i < |s| - 1 {
          assert s[i] == s[..|s| - 1][i];
        }
      }
    }
  }
}
