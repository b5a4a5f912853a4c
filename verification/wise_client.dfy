/** The `WiseClient` class of app/dependencies/wise_client.py. Its only state
    is the class attribute `params`, shared by every instance: each operation
    receives the map as it stands and returns it as the request left it. The
    upstream answer is an input; the HTTP exchange itself is not modelled. */
module WiseClient {
  import opened Wrappers
  import opened Errors
  import opened Http
  import opened QueryParams
  import opened Rates

  /** The `httpx_error_handler` decorator as a combinator on the wrapped
      call's outcome: results pass through, an HTTP error becomes a
      `ConverterException` carrying the error's text as details (or the class
      default when that text is empty). */
  function HandleHttpError<T>(call: Response<T>): (r: Result<T, AppException>)
    ensures call.Body? ==> r == Success(call.value)
    ensures call.HttpError? ==> r.Failure? && r.error.kind == ConverterExc
                                && r.error.status == 424 && r.error.errorType == ConverterErrorType
    ensures call.HttpError? && call.text != "" ==> r.error.details == Some(call.text)
    ensures call.HttpError? && call.text == "" ==> r.error.details == Some("Unknown forex exception occurred")
  {
    match call
    case Body(v) => Success(v)
    case HttpError(text) => Failure(Construct(ConverterExc, None, None, Some(text)))
  }

  /** `converter_request`: the overrides are merged into the shared map before
      the request is sent, so the merge sticks even when the request fails. */
  function ConverterRequest(params: Params, overrides: Params, response: Response<seq<Sample>>): (out: (Params, Result<seq<Sample>, AppException>))
    ensures out.0.Keys == params.Keys + overrides.Keys
    ensures forall k :: k in overrides ==> out.0[k] == overrides[k]
    ensures forall k :: k in params && k !in overrides ==> out.0[k] == params[k]
    ensures out.1.Success? <==> response.Body?
    ensures out.1.Success? ==> out.1.value == response.value
  {
    (Merge(params, overrides), HandleHttpError(response))
  }

  /** `convert_currency`: asks for the pair and converts at the last sample. */
  method ConvertCurrency(params: Params, fromCurrency: string, toCurrency: string, amount: int, response: Response<seq<Sample>>)
    returns (params': Params, r: Result<Conversion, AppException>)
    requires response.Body? ==> |response.value| > 0
    ensures params' == Merge(params, PairOverrides(fromCurrency, toCurrency))
    ensures response.Body? ==> r == Success(Convert(response.value, fromCurrency, toCurrency, amount))
    ensures response.HttpError? ==> r == Failure(HandleHttpError(response).error)
  {
    var sent := ConverterRequest(params, PairOverrides(fromCurrency, toCurrency), response);
    params' := sent.0;
    match sent.1
    case Success(samples) =>
      r := Success(Convert(samples, fromCurrency, toCurrency, amount));
    case Failure(e) =>
      r := Failure(e);
  }

  /** `historical_data`: asks for the pair and lists every sample, in order,
      with its time in seconds. */
  method HistoricalData(params: Params, fromCurrency: string, toCurrency: string, response: Response<seq<Sample>>)
    returns (params': Params, r: Result<seq<RatePoint>, AppException>)
    ensures params' == Merge(params, PairOverrides(fromCurrency, toCurrency))
    ensures response.Body? <==> r.Success?
    ensures r.Success? ==> |r.value| == |response.value|
    ensures r.Success? ==> forall i :: 0 <= i < |r.value| ==>
              r.value[i].rate == response.value[i].value && r.value[i].time == Seconds(response.value[i].time)
    ensures response.HttpError? ==> r == Failure(HandleHttpError(response).error)
  {
    var sent := ConverterRequest(params, PairOverrides(fromCurrency, toCurrency), response);
    params' := sent.0;
    match sent.1
    case Success(samples) =>
      var history := History(samples);
      r := Success(history);
    case Failure(e) =>
      r := Failure(e);
  }

  /** `average_rate`: asks for `duration` daily samples and averages them. */
  method AverageRate(params: Params, fromCurrency: string, toCurrency: string, duration: int, response: Response<seq<Sample>>)
    returns (params': Params, r: Result<Average, AppException>)
    requires response.Body? ==> |response.value| > 0
    ensures params' == Merge(params, WindowOverrides(fromCurrency, toCurrency, duration))
    ensures params'["length"] == Int(duration) && params'["resolution"] == Str("daily") && params'["unit"] == Str("day")
    ensures response.Body? <==> r.Success?
    ensures r.Success? ==> r.value.durationInDays == duration
    ensures r.Success? ==> r.value.averageRate == RoundPlaces(Mean(response.value), 4)
    ensures response.HttpError? ==> r == Failure(HandleHttpError(response).error)
  {
    var sent := ConverterRequest(params, WindowOverrides(fromCurrency, toCurrency, duration), response);
    params' := sent.0;
    match sent.1
    case Success(samples) =>
      var average := AverageOf(samples, duration);
      r := Success(average);
    case Failure(e) =>
      r := Failure(e);
  }
}
