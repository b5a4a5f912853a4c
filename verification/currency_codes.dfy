/** What the pattern `[A-Z][A-Z][A-Z]$` matches under Python's `re` module,
    for the two ways the code applies it: `re.search`, which may start the
    match anywhere, and `re.fullmatch`, which must consume the whole string.
    `$` (without MULTILINE) holds at the end of the string and also just
    before a newline that ends the string. */
module CurrencyCodes {

  /** The class `[A-Z]`: ASCII capitals only. */
  predicate IsCapital(c: char) {
    'A' <= c <= 'Z'
  }

  /** The three class atoms match at positions i, i+1 and i+2. */
  predicate CapitalsAt(s: string, i: int)
    requires 0 <= i && i + 3 <= |s|
  {
    IsCapital(s[i]) && IsCapital(s[i + 1]) && IsCapital(s[i + 2])
  }

  /** `$` holds at position k. */
  predicate DollarAt(s: string, k: int) {
    k == |s| || (0 <= k && k + 1 == |s| && s[k] == '\n')
  }

  /** `re.search(pattern, s) is not None`: some start position matches. */
  ghost predicate SearchMatches(s: string) {
    exists i :: 0 <= i && i + 3 <= |s| && CapitalsAt(s, i) && DollarAt(s, i + 3)
  }

  /** `re.fullmatch(pattern, s) is not None`: the match starts at 0 and, the
      pattern consuming three characters, must end at |s|. */
  predicate FullMatches(s: string) {
    |s| == 3 && CapitalsAt(s, 0) && DollarAt(s, 3)
  }

  /** A currency code in the strict sense: exactly three ASCII capitals. */
  predicate IsCode(s: string) {
    |s| == 3 && forall i :: 0 <= i < |s| ==> IsCapital(s[i])
  }

  /** The decision the search makes, read off the end of the string: the last
      three characters are capitals, or the last four are three capitals and
      a newline. */
  predicate EndsWithCode(s: string) {
    || (|s| >= 3 && CapitalsAt(s, |s| - 3))
    || (|s| >= 4 && s[|s| - 1] == '\n' && CapitalsAt(s, |s| - 4))
  }

  /** The search succeeds exactly when the string ends in a code, optionally
      followed by one newline. */
  lemma SearchIffEndsWithCode(s: string)
    ensures SearchMatches(s) <==> EndsWithCode(s)
  {
    if EndsWithCode(s) {
      if |s| >= 3 && CapitalsAt(s, |s| - 3) {
        assert DollarAt(s, |s|);
      } else {
        assert DollarAt(s, |s| - 1);
      }
    }
  }

  /** The full match is exactly "three capitals, nothing else": a trailing
      newline satisfies `$` but is left unconsumed. */
  lemma FullMatchIffCode(s: string)
    ensures FullMatches(s) <==> IsCode(s)
  {
  }

  /** Every string the full match accepts, the search accepts too. */
  lemma FullMatchRefinesSearch(s: string)
    ensures FullMatches(s) ==> SearchMatches(s)
  {
    if FullMatches(s) {
      assert CapitalsAt(s, 0) && DollarAt(s, 3);
    }
  }

  /** The converse fails: the search lets through longer strings that merely
      end in a code. */
  lemma SearchIsLooser()
    ensures SearchMatches("USDD") && !FullMatches("USDD")
    ensures SearchMatches("xPLN") && !FullMatches("xPLN")
    ensures SearchMatches("USD\n") && !FullMatches("USD\n")
  {
    assert CapitalsAt("USDD", 1) && DollarAt("USDD", 4);
    assert CapitalsAt("xPLN", 1) && DollarAt("xPLN", 4);
    assert CapitalsAt("USD\n", 0) && DollarAt("USD\n", 3);
  }
}
