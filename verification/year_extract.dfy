/**
 * Finding the decision year in the user's text (extractYearFromText,
 * src/lib/parallel/api.ts:153-168): the first whole-word token `19dd` or `20dd`
 * whose value lies in [1990, currentYear + 1]. The clock reading is a parameter.
 */
module YearExtract {
  import opened Wrappers
  import opened Text

  /** A character that `\w` matches: an ASCII letter, digit or underscore. */
  predicate IsWordChar(c: char)
  {
    ('a' <= c <= 'z') || ('A' <= c <= 'Z') || IsDigit(c) || c == '_'
  }

  /** `/\b(19\d{2}|20\d{2})\b/` matches the four characters at `p`. Matches of this
      pattern cannot overlap (a match needs a non-word character or the text's edge
      just before it), so the global match lists exactly these positions, in order. */
  predicate YearTokenAt(s: string, p: nat)
  {
    && p + 4 <= |s|
    && (p == 0 || !IsWordChar(s[p - 1]))
    && (p + 4 == |s| || !IsWordChar(s[p + 4]))
    && ((s[p] == '1' && s[p + 1] == '9') || (s[p] == '2' && s[p + 1] == '0'))
    && IsDigit(s[p + 2]) && IsDigit(s[p + 3])
  }

  /** `parseInt` of the four-character token at `p`. */
  function TokenValue(s: string, p: nat): (v: int)
    requires YearTokenAt(s, p)
    ensures 1900 <= v <= 2099
  {
    1000 * DigitValue(s[p]) + 100 * DigitValue(s[p + 1]) + 10 * DigitValue(s[p + 2]) + DigitValue(s[p + 3])
  }

  /** A token that survives the range filter. */
  predicate AcceptedAt(s: string, p: nat, currentYear: int)
  {
    YearTokenAt(s, p) && 1990 <= TokenValue(s, p) <= currentYear + 1
  }

  /** The position of the first accepted token at or after `from`. */
  function FirstAccepted(s: string, from: nat, currentYear: int): (r: Option<nat>)
    ensures r.Some? ==> from <= r.value && AcceptedAt(s, r.value, currentYear)
    ensures r.Some? ==> forall q :: from <= q < r.value ==> !AcceptedAt(s, q, currentYear)
    ensures r.None? ==> forall q :: from <= q ==> !AcceptedAt(s, q, currentYear)
    decreases |s| - from
  {
    if from + 4 > |s| then None
    else if AcceptedAt(s, from, currentYear) then Some(from)
    else FirstAccepted(s, from + 1, currentYear)
  }

  /** `extractYearFromText(text)`, with `null` as `None`. A year it yields is in
      range, so it is never 0 and `extractedYear || currentYear` keeps it. */
  function ExtractYear(text: string, currentYear: int): (r: Option<int>)
    ensures r.Some? ==> 1990 <= r.value <= currentYear + 1
  {
    match FirstAccepted(text, 0, currentYear)
    case None => None
    case Some(p) => Some(TokenValue(text, p))
  }

  /** The result is the value of the earliest accepted token; there is none
      exactly when the text holds no accepted token. */
  lemma ExtractYearIsFirstToken(text: string, currentYear: int)
    ensures ExtractYear(text, currentYear).None? <==> forall q :: !AcceptedAt(text, q, currentYear)
    ensures ExtractYear(text, currentYear).Some? ==>
              exists p :: AcceptedAt(text, p, currentYear)
                        && ExtractYear(text, currentYear).value == TokenValue(text, p)
                        && forall q :: q < p ==> !AcceptedAt(text, q, currentYear)
  {
    var r := FirstAccepted(text, 0, currentYear);
    if r.Some? {
      assert AcceptedAt(text, r.value, currentYear);
    }
  }

  /** A year preceded by a letter ("in2019") is not a whole word, so the
      extraction skips it and takes the next one. */
  lemma ExtractYearNeedsWordBoundary()
    ensures ExtractYear("x2019 2020", 2026) == Some(2020)
  {
    assert !AcceptedAt("x2019 2020", 0, 2026);
    assert !AcceptedAt("x2019 2020", 1, 2026);
    assert AcceptedAt("x2019 2020", 6, 2026);
  }
}
