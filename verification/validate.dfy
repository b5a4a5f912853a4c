/** The stricter currency-code check of app/auth/validate.py: both codes must
    match `[A-Z][A-Z][A-Z]$` in full, the source code first. */
module Validate {
  import opened Wrappers
  import opened Errors
  import opened CurrencyCodes

  /** Passes exactly when both codes are three ASCII capitals; otherwise
      raises `BadRequest("Invalid currency")`. */
  function ValidateInput(fromCurrency: string, toCurrency: string): (r: Outcome<AppException>)
    ensures r.Pass? <==> IsCode(fromCurrency) && IsCode(toCurrency)
    ensures r.Fail? ==> r.error == InvalidCurrency && r.error.status == 400
  {
    FullMatchIffCode(fromCurrency);
    FullMatchIffCode(toCurrency);
    if !FullMatches(fromCurrency) then Fail(InvalidCurrency)
    else if !FullMatches(toCurrency) then Fail(InvalidCurrency)
    else Pass
  }

  /** The order of the two codes does not matter to the verdict. */
  lemma ValidateIsSymmetric(a: string, b: string)
    ensures ValidateInput(a, b) == ValidateInput(b, a)
  {
  }

  /** A rejected source code fails the pair whatever the target code is. The
      code checks the source before the target, but both rejections raise
      the same value, so the order cannot be seen in the result. */
  lemma BadSourceFailsWhateverTarget(a: string, b: string, c: string)
    requires !IsCode(a)
    ensures ValidateInput(a, b) == ValidateInput(a, c) == Fail(InvalidCurrency)
  {
  }

  /** Every pair this check accepts, the forex client's check accepts code by
      code; "USDD" shows that the converse fails. */
  lemma StrictImpliesLoose(a: string, b: string)
    requires ValidateInput(a, b).Pass?
    ensures SearchMatches(a) && SearchMatches(b)
  {
    FullMatchIffCode(a);
    FullMatchIffCode(b);
    FullMatchRefinesSearch(a);
    FullMatchRefinesSearch(b);
  }

  /** "USD"/"PLN" passes; "us", "USDD", "123" and "USd" fail in either place. */
  lemma ValidateExamples()
    ensures ValidateInput("USD", "PLN") == Pass
    ensures forall bad :: bad in ["us", "USDD", "123", "USd"] ==>
              ValidateInput(bad, "PLN") == Fail(InvalidCurrency) && ValidateInput("USD", bad) == Fail(InvalidCurrency)
  {
    assert !IsCode("us") && !IsCode("USDD");
    assert !IsCapital("123"[0]) && !IsCapital("USd"[2]);
  }
}
