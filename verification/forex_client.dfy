/** The module-level forex client of app/dependencies/forex_client.py. Its
    state is the module global `PARAMS`, threaded through each operation.
    Each operation checks the source code and then the target code before it
    sends anything, so a rejected code leaves `PARAMS` as it was. Requests are
    not wrapped in an error handler here: an HTTP error escapes as it is. */
module ForexClient {
  import opened Wrappers
  import opened Errors
  import opened Http
  import opened QueryParams
  import opened Rates
  import opened CurrencyCodes

  /** What an operation can raise: an application exception, or an
      `httpx.HTTPError` that nothing catches. */
  datatype ForexError = Raised(exception: AppException) | Unhandled(text: string)

  /** `validate_input`: `re.search` of `[A-Z][A-Z][A-Z]$`, so any string that
      ends in three capitals (before an optional final newline) passes. */
  function ValidateCode(value: string): (r: Outcome<AppException>)
    ensures r.Pass? <==> SearchMatches(value)
    ensures r.Fail? ==> r.error == InvalidCurrency && r.error.status == 400
  {
    SearchIffEndsWithCode(value);
    if EndsWithCode(value) then Pass else Fail(InvalidCurrency)
  }

  /** Both codes pass `validate_input`. */
  predicate ValidPair(fromCurrency: string, toCurrency: string) {
    ValidateCode(fromCurrency).Pass? && ValidateCode(toCurrency).Pass?
  }

  /** `forex_request`: the overrides are merged into `PARAMS`, which is then
      sent; a transport error propagates unchanged. */
  function ForexRequest(params: Params, overrides: Params, response: Response<seq<Sample>>): (out: (Params, Result<seq<Sample>, ForexError>))
    ensures out.0.Keys == params.Keys + overrides.Keys
    ensures forall k :: k in overrides ==> out.0[k] == overrides[k]
    ensures forall k :: k in params && k !in overrides ==> out.0[k] == params[k]
    ensures out.1.Success? <==> response.Body?
    ensures out.1.Success? ==> out.1.value == response.value
    ensures out.1.Failure? ==> out.1.error == Unhandled(response.text)
  {
    match response
    case Body(samples) => (Merge(params, overrides), Success(samples))
    case HttpError(text) => (Merge(params, overrides), Failure(Unhandled(text)))
  }

  /** `convert_currency`. */
  method ConvertCurrency(params: Params, fromCurrency: string, toCurrency: string, amount: int, response: Response<seq<Sample>>)
    returns (params': Params, r: Result<Conversion, ForexError>)
    requires response.Body? ==> |response.value| > 0
    ensures !ValidPair(fromCurrency, toCurrency) ==> params' == params && r == Failure(Raised(InvalidCurrency))
    ensures ValidPair(fromCurrency, toCurrency) ==> params' == Merge(params, PairOverrides(fromCurrency, toCurrency))
    ensures ValidPair(fromCurrency, toCurrency) && response.Body? ==>
              r == Success(Convert(response.value, fromCurrency, toCurrency, amount))
    ensures ValidPair(fromCurrency, toCurrency) && response.HttpError? ==> r == Failure(Unhandled(response.text))
  {
    if ValidateCode(fromCurrency).Fail? || ValidateCode(toCurrency).Fail? {
      return params, Failure(Raised(InvalidCurrency));
    }
    var sent := ForexRequest(params, PairOverrides(fromCurrency, toCurrency), response);
    params' := sent.0;
    match sent.1
    case Success(samples) =>
      r := Success(Convert(samples, fromCurrency, toCurrency, amount));
    case Failure(e) =>
      r := Failure(e);
  }

  /** `historical_data`. */
  method HistoricalData(params: Params, fromCurrency: string, toCurrency: string, response: Response<seq<Sample>>)
    returns (params': Params, r: Result<seq<RatePoint>, ForexError>)
    ensures !ValidPair(fromCurrency, toCurrency) ==> params' == params && r == Failure(Raised(InvalidCurrency))
    ensures ValidPair(fromCurrency, toCurrency) ==> params' == Merge(params, PairOverrides(fromCurrency, toCurrency))
    ensures r.Success? <==> ValidPair(fromCurrency, toCurrency) && response.Body?
    ensures r.Success? ==> |r.value| == |response.value|
    ensures r.Success? ==> forall i :: 0 <= i < |r.value| ==>
              r.value[i].rate == response.value[i].value && r.value[i].time == Seconds(response.value[i].time)
    ensures ValidPair(fromCurrency, toCurrency) && response.HttpError? ==> r == Failure(Unhandled(response.text))
  {
    if ValidateCode(fromCurrency).Fail? || ValidateCode(toCurrency).Fail? {
      return params, Failure(Raised(InvalidCurrency));
    }
    var sent := ForexRequest(params, PairOverrides(fromCurrency, toCurrency), response);
    params' := sent.0;
    match sent.1
    case Success(samples) =>
      var history := History(samples);
      r := Success(history);
    case Failure(e) =>
      r := Failure(e);
  }

  /** `average_rate`. */
  method AverageRate(params: Params, fromCurrency: string, toCurrency: string, duration: int, response: Response<seq<Sample>>)
    returns (params': Params, r: Result<Average, ForexError>)
    requires response.Body? ==> |response.value| > 0
    ensures !ValidPair(fromCurrency, toCurrency) ==> params' == params && r == Failure(Raised(InvalidCurrency))
    ensures ValidPair(fromCurrency, toCurrency) ==> params' == Merge(params, WindowOverrides(fromCurrency, toCurrency, duration))
    ensures r.Success? <==> ValidPair(fromCurrency, toCurrency) && response.Body?
    ensures r.Success? ==> r.value.durationInDays == duration
    ensures r.Success? ==> r.value.averageRate == RoundPlaces(Mean(response.value), 4)
    ensures ValidPair(fromCurrency, toCurrency) && response.HttpError? ==> r == Failure(Unhandled(response.text))
  {
    if ValidateCode(fromCurrency).Fail? || ValidateCode(toCurrency).Fail? {
      return params, Failure(Raised(InvalidCurrency));
    }
    var sent := ForexRequest(params, WindowOverrides(fromCurrency, toCurrency, duration), response);
    params' := sent.0;
    match sent.1
    case Success(samples) =>
      var average := AverageOf(samples, duration);
      r := Success(average);
    case Failure(e) =>
      r := Failure(e);
  }

  /** "USD", "USDD", "xPLN" and "USD\n" pass; "us", "123" and "USd" fail. */
  lemma ValidateCodeExamples()
    ensures ValidateCode("USD").Pass? && ValidateCode("USDD").Pass? && ValidateCode("xPLN").Pass?
    ensures ValidateCode("USD\n").Pass?
    ensures ValidateCode("us") == ValidateCode("123") == ValidateCode("USd") == Fail(InvalidCurrency)
  {
    SearchIsLooser();
    assert CapitalsAt("USD", 0) && DollarAt("USD", 3);
    assert !EndsWithCode("123") && !EndsWithCode("USd");
  }
}
