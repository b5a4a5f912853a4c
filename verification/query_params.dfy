/** The shared default query-parameter map of both clients: the class attribute
    `WiseClient.params` and the module global `PARAMS` of the forex client.
    Every request merges its own parameters into it in place, and the merged
    map is what is sent; nothing ever resets it, so a value set by one call is
    still there for the next. The model threads the map through each call. */
module QueryParams {

  /** A query-parameter value: the code puts integers and strings there. */
  datatype Value = Int(n: int) | Str(s: string)

  type Params = map<string, Value>

  /** The map as the process starts. */
  const Defaults: Params := map["length" := Int(1), "resolution" := Str("hourly"), "unit" := Str("day")]

  /** `dict.update`: every key of `overrides` takes its new value, every other
      key keeps the value it had. */
  function Merge(params: Params, overrides: Params): (merged: Params)
    ensures merged.Keys == params.Keys + overrides.Keys
    ensures forall k :: k in overrides ==> merged[k] == overrides[k]
    ensures forall k :: k in params && k !in overrides ==> merged[k] == params[k]
  {
    params + overrides
  }

  /** The parameters `convert_currency` and `historical_data` add. */
  function PairOverrides(fromCurrency: string, toCurrency: string): Params {
    map["source" := Str(fromCurrency), "target" := Str(toCurrency)]
  }

  /** The parameters `average_rate` adds: `duration` daily samples. */
  function WindowOverrides(fromCurrency: string, toCurrency: string, duration: int): Params {
    map["source" := Str(fromCurrency), "target" := Str(toCurrency),
        "length" := Int(duration), "resolution" := Str("daily"), "unit" := Str("day")]
  }

  /** The map after a series of requests, oldest first. */
  function MergeAll(params: Params, overrides: seq<Params>): Params
    decreases |overrides|
  {
    if |overrides| == 0 then params
    else MergeAll(Merge(params, overrides[0]), overrides[1..])
  }

  /** Merging the same parameters twice changes nothing more. */
  lemma MergeIdempotent(params: Params, overrides: Params)
    ensures Merge(Merge(params, overrides), overrides) == Merge(params, overrides)
  {
  }

  /** The default keys never disappear: every sent map has a length, a
      resolution and a unit. */
  lemma {:induction false} DefaultKeysPersist(params: Params, overrides: seq<Params>)
    requires Defaults.Keys <= params.Keys
    ensures Defaults.Keys <= MergeAll(params, overrides).Keys
    decreases |overrides|
  {
    if |overrides| > 0 {
      DefaultKeysPersist(Merge(params, overrides[0]), overrides[1..]);
    }
  }

  /** A key that no request in the series mentions keeps its value through the
      whole series. */
  lemma {:induction false} UntouchedKeyPersists(params: Params, overrides: seq<Params>, k: string)
    requires k in params
    requires forall i :: 0 <= i < |overrides| ==> k !in overrides[i]
    ensures k in MergeAll(params, overrides) && MergeAll(params, overrides)[k] == params[k]
    decreases |overrides|
  {
    if |overrides| > 0 {
      var next := Merge(params, overrides[0]);
      assert k !in overrides[0];
      assert forall i :: 0 <= i < |overrides[1..]| ==> k !in overrides[1..][i] by {
        forall i | 0 <= i < |overrides[1..]|
          ensures k !in overrides[1..][i]
        {
          assert overrides[1..][i] == overrides[i + 1];
        }
      }
      UntouchedKeyPersists(next, overrides[1..], k);
    }
  }

  /** A conversion on a fresh process asks for one hourly sample. */
  lemma FirstConvertIsHourly(fromCurrency: string, toCurrency: string)
    ensures Merge(Defaults, PairOverrides(fromCurrency, toCurrency))
         == map["length" := Int(1), "resolution" := Str("hourly"), "unit" := Str("day"),
                "source" := Str(fromCurrency), "target" := Str(toCurrency)]
  {
  }

  /** A conversion or history request touches only the source and target: the
      length, resolution and unit it sends are whatever the map already held. */
  lemma PairKeepsWindow(params: Params, fromCurrency: string, toCurrency: string, k: string)
    requires k in params && k != "source" && k != "target"
    ensures Merge(params, PairOverrides(fromCurrency, toCurrency))[k] == params[k]
  {
  }

  /** After an average over `duration` days, a later conversion or history
      request still asks for `duration` daily samples: the window leaks. */
  lemma WindowLeaksIntoLaterRequests(params: Params, f1: string, t1: string, duration: int, f2: string, t2: string)
    ensures var sent := Merge(Merge(params, WindowOverrides(f1, t1, duration)), PairOverrides(f2, t2));
            && sent["length"] == Int(duration)
            && sent["resolution"] == Str("daily")
            && sent["unit"] == Str("day")
            && sent["source"] == Str(f2)
            && sent["target"] == Str(t2)
  {
  }
}
