/**
 * Normalisation of the zone and record names handed to the module:
 * `str.lower()` followed by a trailing '.' when one is missing.
 */
module Names {
  predicate IsUpper(c: char) {
    'A' <= c <= 'Z'
  }

  /** `str.lower()` on one character (ASCII letters only). */
  function LowerChar(c: char): char {
    if IsUpper(c) then (c as int + 32) as char else c
  }

  function ToLower(s: string): (r: string)
    ensures |r| == |s|
  {
    seq(|s|, i requires 0 <= i < |s| => LowerChar(s[i]))
  }

  predicate IsLower(s: string) {
    forall i :: 0 <= i < |s| ==> !IsUpper(s[i])
  }

  /** `s[-1:] == '.'`; false for the empty string. */
  predicate EndsWithDot(s: string) {
    |s| > 0 && s[|s| - 1] == '.'
  }

  function WithTrailingDot(s: string): string {
    if EndsWithDot(s) then s else s + "."
  }

  /** The zone or record name as the module uses it: lower case, fully qualified. */
  function NormalizeName(s: string): (r: string)
    ensures EndsWithDot(r) && IsLower(r)
    ensures EndsWithDot(s) ==> r == ToLower(s)
    ensures !EndsWithDot(s) ==> r == ToLower(s) + "."
  {
    WithTrailingDot(ToLower(s))
  }

  lemma LowerIsFixed(s: string)
    requires IsLower(s)
    ensures ToLower(s) == s
  {
    forall i | 0 <= i < |s| ensures ToLower(s)[i] == s[i] {
      assert !IsUpper(s[i]);
    }
  }

  /** Normalising a name twice changes nothing. */
  lemma NormalizeNameIdempotent(s: string)
    ensures NormalizeName(NormalizeName(s)) == NormalizeName(s)
  {
    var n := NormalizeName(s);
    LowerIsFixed(n);
  }
}
