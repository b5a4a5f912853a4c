# currency_scraper_api: a Dafny model of the rate client

This project models the core of a small currency-conversion proxy. Its core
is the client that asks an upstream source for a series of rate samples
and derives three answers from them:
- a spot conversion at the latest sample;
- the rate history;
- a multi-day average.

The model also covers the two currency-code validators, the exception
hierarchy, and the API-key check that guards every route.

The upstream answer is an input. It is `Response<seq<Sample>>`: either a
decoded body, which is a list of `Sample(value, time)` with the time in epoch
milliseconds, or an `httpx.HTTPError` (a transport failure) with its message text. An upstream error status is not an `httpx.HTTPError` in this code; see below. Everything the
client does with that answer is pure and sequential, so each operation is a
function or a method over immutable values.

Modules follow the source files:

- `Errors` models `app/errors.py` and the `ErrorTypes` values of `app/enums.py`. An exception is a value made of its class, HTTP status, error type and optional details. `Construct` is `AppException.__init__`: each attribute is "argument if truthy, else class default".
- `QueryParams` models the shared default query map. In `wise_client.py` it is the class attribute `WiseClient.params`; in `forex_client.py` it is the module global `PARAMS`. Every request runs `dict.update` on the map and then sends it, and nothing ever resets it. The model passes the map explicitly into each operation and returns it updated (`Merge`). So the code's cross-call leak is a provable fact: once an average over `d` days has run, every later conversion still asks for `d` daily samples.
- `Rates` holds the computations both clients share: `round(ms/1000)` as integer arithmetic on quotient and remainder (`Seconds`), decimal rounding (`RoundPlaces`), the conversion at the last sample, the history loop and the averaging loop.
- `WiseClient` and `ForexClient` model the two client variants. The WISE client wraps each request in `httpx_error_handler`, which turns an `httpx.HTTPError` into a `ConverterException`. The forex client first validates both codes with a suffix-matching `re.search`. Its requests are not wrapped, so an HTTP error escapes unhandled.
- `CurrencyCodes` gives the semantics of `[A-Z][A-Z][A-Z]$` under `re.search` and under `re.fullmatch`. `Validate` models `app/auth/validate.py`, which uses the full match.
- `Auth` models `verify_api_key`.

Some behaviour of the code is easy to miss:
- An empty upstream series is not reported as a dedicated aggregation error. `convert_currency` fails on `[-1]` and `average_rate` fails on a division by zero. The model makes a non-empty body a precondition of those two operations. `historical_data` handles an empty series and returns an empty list.
- The query map is not fresh per call. It is shared, and values persist between calls.
- `app/auth/validate.py` stops at the first bad code. Neither validator checks membership in a currency list.
- The API-key check raises `Forbidden` (403). It never raises `Unauthorized`.
- Neither client checks the upstream HTTP status: there is no `raise_for_status()`. An upstream 4xx or 5xx answer is not an `httpx.HTTPError`, so its body is decoded and read as if the call had succeeded.
- Only the WISE client sets a timeout. `httpx.Timeout(timeout=15.0, read=None)` gives 15 seconds for connect, write and pool, and no limit at all on reading. The timeout is not modelled.

The code as written would not import. `wise_client.py:6` imports
`WISE_BASE_URL`, which `settings.py` does not define. `forex_client.py:8`
imports `ForexException`, which `errors.py` does not define. `errors.py:39`
names `ErrorTypes.FORBIDDEN`, which `enums.py` does not declare. The model
keeps the logic the code expresses. `Forbidden`'s error type is
`ForbiddenType`, a value outside the four that the enumeration declares.

## Model

| member | source | states |
|---|---|---|
| Errors.Construct | app/errors.py:14-22 | each of status, type and details is the argument when truthy (None, 0 and "" are not) and the class default otherwise; a constructed exception always has a non-zero status and a truthy type; details are None exactly for the two base classes called without details |
| Errors.ClassDefaults | app/errors.py:10-52 | class defaults: base 500/unknown/None, Unauthorized 401/"Invalid API key", Forbidden 403/"Access forbidden", BadRequest 400/"Bad request", ConverterException 424/converter_error/"Unknown forex exception occurred" |
| Errors.OnlyForbiddenTypeIsOutsideEnum | app/errors.py:37-40 | Forbidden is the only class whose default error type is not one of the four ErrorTypes values |
| Errors.FalsyArgumentsKeepDefaults | app/errors.py:20-22 | passing 0, "" and "" behaves exactly like passing nothing |
| Errors.FieldsFallBackIndependently | app/errors.py:20-22 | overriding one attribute leaves the other two at their class defaults |
| Errors.ReconstructIsIdentity | app/errors.py:20-22 | constructing the same class again from an exception's own attributes gives back that exception |
| Errors.ClassHierarchy | app/errors.py:27-49 | Unauthorized, Forbidden and BadRequest are ApiException kinds; ConverterException and the base class are not |
| QueryParams.Merge | app/dependencies/wise_client.py:42 | dict.update: keys are the union, overridden keys take the new value, every other key keeps its old one |
| QueryParams.MergeIdempotent | app/dependencies/forex_client.py:53 | repeating the same update changes nothing more |
| QueryParams.DefaultKeysPersist | app/dependencies/wise_client.py:29-33 | length, resolution and unit stay present through any series of requests |
| QueryParams.UntouchedKeyPersists | app/dependencies/forex_client.py:12-16 | a key that no request in a series overrides keeps its value across all of them |
| QueryParams.FirstConvertIsHourly | app/dependencies/wise_client.py:70-73 | the first conversion on a fresh map sends length 1, hourly, day, source, target |
| QueryParams.PairKeepsWindow | app/dependencies/wise_client.py:107-110 | a convert or history request changes only source and target |
| QueryParams.WindowLeaksIntoLaterRequests | app/dependencies/wise_client.py:142-149 | after average_rate(d), a later convert or history request still sends length d, daily, day, with the new source and target |
| Rates.RoundHalfEven | app/dependencies/wise_client.py:157 | round(y) is within one half of y, and on a tie it is even |
| Rates.NearestEvenIsUnique | app/dependencies/wise_client.py:81 | those two promises pin the rounded value down |
| Rates.RoundCents | app/dependencies/wise_client.py:79 | round(x, 2) is a whole number of cents, within half a cent of x, and leaves a whole number of cents unchanged |
| Rates.RoundFourPlaces | app/dependencies/wise_client.py:157 | round(x, 4) is a whole number of 10^-4 units, within half a unit of x, and leaves such a value unchanged |
| Rates.Seconds | app/dependencies/wise_client.py:81 | the second is within 500 ms of the millisecond time, and on a 500 ms tie it is even |
| Rates.SecondsIsRoundOfQuotient | app/dependencies/wise_client.py:119 | the quotient/remainder form equals Python's round of the real quotient ms/1000 |
| Rates.SecondsExamples | app/dependencies/forex_client.py:88 | remainders below 500 round down, above 500 round up, exactly 500 to the even second |
| Rates.Convert | app/dependencies/wise_client.py:77-92 | the rate and time come from the last sample; the amount times that rate is rounded to within half a cent; the rate is returned unrounded; from and to are echoed |
| Rates.ConvertSeesOnlyLast | app/dependencies/wise_client.py:77-80 | two series with the same last sample convert identically, whatever precedes it |
| Rates.ConvertTakesLastNotMax | app/dependencies/forex_client.py:85 | for the rates [4.35, 4.34] the mid-market rate is 4.34, the last and not the largest |
| Rates.ConvertExample | app/dependencies/forex_client.py:85-98 | 1000 at [4.33, 4.34] converts to 4340.0 at rate 4.34, at the second of the last sample |
| Rates.History | app/dependencies/wise_client.py:114-126 | one entry per sample, in order; entry i has sample i's value and its time rounded to the second |
| Rates.SumValues | app/dependencies/wise_client.py:152-155 | the loop's running total is the sum of all values |
| Rates.SumWithin | app/dependencies/forex_client.py:163-166 | when every value lies in [lo, hi], the total of n values lies in [n·lo, n·hi] |
| Rates.MeanWithin | app/dependencies/forex_client.py:163-167 | before rounding, the mean lies within any bounds that hold every value, so between the minimum and the maximum |
| Rates.MeanOfConstant | app/dependencies/forex_client.py:167 | a series of one repeated value averages to that value |
| Rates.AverageOf | app/dependencies/wise_client.py:152-163 | the average is the mean rounded to 4 places, within 0.00005 of it, with the duration echoed |
| Rates.AverageExample | app/dependencies/forex_client.py:163-172 | values 1, 2 and 3 average to 2.0 |
| WiseClient.HandleHttpError | app/dependencies/wise_client.py:10-20 | results pass through unchanged; an HTTP error becomes a 424 ConverterException whose details are the error text, or the class default when the text is empty |
| WiseClient.ConverterRequest | app/dependencies/wise_client.py:35-53 | the overrides are merged into the shared map even when the request fails; the body is returned exactly when the request succeeded |
| WiseClient.ConvertCurrency | app/dependencies/wise_client.py:55-93 | the map gains source and target; a body yields the conversion at its last sample; an HTTP error yields the handler's ConverterException |
| WiseClient.HistoricalData | app/dependencies/wise_client.py:95-126 | the map gains source and target; a body yields one entry per sample, in order, with the same rates |
| WiseClient.AverageRate | app/dependencies/wise_client.py:128-163 | the map afterwards holds length = duration, daily and day; a body yields the mean rounded to 4 places with the duration echoed |
| ForexClient.ValidateCode | app/dependencies/forex_client.py:19-30 | passes exactly when re.search finds three capitals at the end (or before a final newline); otherwise raises BadRequest "Invalid currency" |
| ForexClient.ValidateCodeExamples | app/dependencies/forex_client.py:27-29 | "USD", "USDD", "xPLN" and "USD\n" pass; "us", "123" and "USd" fail |
| ForexClient.ForexRequest | app/dependencies/forex_client.py:47-59 | the overrides are merged into PARAMS; an HTTP error escapes unhandled |
| ForexClient.ConvertCurrency | app/dependencies/forex_client.py:62-99 | an invalid code raises BadRequest and leaves PARAMS unchanged; otherwise as the WISE conversion, except that HTTP errors escape |
| ForexClient.HistoricalData | app/dependencies/forex_client.py:102-134 | an invalid code raises BadRequest and leaves PARAMS unchanged; otherwise one entry per sample, in order |
| ForexClient.AverageRate | app/dependencies/forex_client.py:137-173 | an invalid code raises BadRequest and leaves PARAMS unchanged; otherwise the mean rounded to 4 places with the duration echoed |
| CurrencyCodes.SearchIffEndsWithCode | app/dependencies/forex_client.py:27-28 | re.search of the pattern succeeds iff the string ends in three capitals, optionally followed by one newline |
| CurrencyCodes.FullMatchIffCode | app/auth/validate.py:17-18 | re.fullmatch of the pattern succeeds iff the string is exactly three ASCII capitals |
| CurrencyCodes.FullMatchRefinesSearch | app/auth/validate.py:17-21 | every string the full match accepts, the search accepts |
| CurrencyCodes.SearchIsLooser | app/dependencies/forex_client.py:27-28 | "USDD", "xPLN" and "USD\n" pass the search but not the full match |
| Validate.ValidateInput | app/auth/validate.py:7-22 | passes iff both codes are exactly three ASCII capitals; otherwise raises BadRequest (400) "Invalid currency" |
| Validate.ValidateIsSymmetric | app/auth/validate.py:18-21 | (a, b) and (b, a) get the same verdict |
| Validate.BadSourceFailsWhateverTarget | app/auth/validate.py:18-19 | once the source code is rejected, the pair fails with BadRequest whatever the target code is |
| Validate.StrictImpliesLoose | app/auth/validate.py:17-21 | a pair this validator accepts passes the forex client's validator code by code |
| Validate.ValidateExamples | app/auth/validate.py:18-21 | ("USD", "PLN") passes; "us", "USDD", "123" and "USd" fail in either position |
| Auth.VerifyApiKey | app/auth.py:7-15 | succeeds, returning the configured key, exactly when the api_key header equals it (both absent counts as equal); otherwise raises Forbidden 403 "Access forbidden" |
| Auth.OnlyApiKeyHeaderMatters | app/auth.py:11-12 | header maps that agree on api_key get the same answer |
| Auth.UnsetKeyAdmitsMissingHeader | app/auth.py:12-14 | with no key configured, a request without the header is accepted |
| Auth.UnsetKeyRefusesAnyHeader | app/auth.py:12-15 | with no key configured, any request that sends the header is refused |
| Auth.SetKeyRefusesMissingHeader | app/auth.py:12-15 | with a key configured, a request without the header is refused with Forbidden |
| Auth.MatchingKeyIsAdmitted | app/auth.py:13-14 | with a key configured, sending exactly that key is accepted and returned |

## Left out

- The HTTP exchange is not modelled: the httpx clients, the URLs, the WISE client's timeout (15 seconds for connect, write and pool, none for reading), and `response.json()`. The decoded body or the transport error is an input to each operation.
- WiseClient.HandleHttpError: covers only `httpx.HTTPError`. Neither client calls `raise_for_status()`, so an upstream 4xx or 5xx status never becomes a 424 `ConverterException`; its body is decoded as if the call had succeeded. A body that is not a list of samples then raises `JSONDecodeError`, `KeyError` or `TypeError`, which the handler does not catch. The model does not represent such bodies or those exceptions.
- Samples without a `value` or `time` key are not modelled. In the code, `.get` would then yield `None`.
- `datetime.fromtimestamp` and `str()` formatting are not modelled. They depend on the local time zone. Times are kept as integer epoch seconds, after the `round(ms/1000)` step.
- Rates.RoundCents and Rates.RoundFourPlaces: round the exact real value half-to-even, not IEEE-754 doubles, because the binary representation of decimal rates is outside the model. Python's `round(x, n)` can differ on values that are not exactly representable.
- Rates.Seconds: equals Python's float division and rounding only while `ms/1000` is exact enough in a double (well beyond current epoch milliseconds). The model uses unbounded integers.
- WiseClient.ConvertCurrency and WiseClient.AverageRate require a non-empty body, and so do their forex counterparts. On an empty list the code raises `IndexError` or `ZeroDivisionError`; the model does not represent those.
- The `httpx_error_handler` in `forex_client.py` is never applied to any function. It also raises `ForexException`, which does not exist.
- Concurrency is not modelled. Two requests that interleave their updates of the shared map would see each other's parameters; the model runs requests one after another.
- The routers, `app/main.py`, `app/forex.py`, `app/responses.py` and `app/schemas.py` are not part of this model. They hold stubs, scripts, scratch code and pydantic declarations.
- Loading the settings from the environment is not modelled. Its only effect here is that the configured key may be `None`, which `Auth.VerifyApiKey` takes as an `Option`.
- Import-time failures caused by the undefined names listed above are not modelled.
