/** The computations both clients run on an upstream rate series: the spot
    conversion from the latest sample, the per-sample history and the mean
    rate. A sample carries the rate value and an epoch time in milliseconds;
    outputs carry times in whole seconds. */
module Rates {

  /** One element of the upstream JSON list: `{"value": …, "time": …}`. */
  datatype Sample = Sample(value: real, time: int)

  /** One entry of the history output: `{"rate": …, "time": …}`, with the time
      in epoch seconds. */
  datatype RatePoint = RatePoint(rate: real, time: int)

  datatype Metadata = Metadata(timeOfConversion: int, fromCurrency: string, toCurrency: string)

  /** The output of `convert_currency`. */
  datatype Conversion = Conversion(convertedAmount: real, midMarketRate: real, metadata: Metadata)

  /** The output of `average_rate`. */
  datatype Average = Average(averageRate: real, durationInDays: int)

  function Abs(x: real): real {
    if x < 0.0 then -x else x
  }

  function IntAbs(x: int): int {
    if x < 0 then -x else x
  }

  /** Python's `round(y)`: the nearest integer, ties to the even one. */
  function RoundHalfEven(y: real): (n: int)
    ensures 2.0 * Abs(n as real - y) <= 1.0
    ensures 2.0 * Abs(n as real - y) == 1.0 ==> n % 2 == 0
  {
    var f := y.Floor;
    var frac := y - f as real;
    if frac < 0.5 then f
    else if frac > 0.5 then f + 1
    else if f % 2 == 0 then f
    else f + 1
  }

  /** The two promises of `RoundHalfEven` determine its result. */
  lemma NearestEvenIsUnique(y: real, n: int)
    requires 2.0 * Abs(n as real - y) <= 1.0
    requires 2.0 * Abs(n as real - y) == 1.0 ==> n % 2 == 0
    ensures n == RoundHalfEven(y)
  {
    // two distinct integers within one half of y would differ by exactly one
    // with y halfway between them, and then both would have to be even
  }

  function Pow10(places: nat): (p: real)
    ensures p >= 1.0
  {
    if places == 0 then 1.0 else 10.0 * Pow10(places - 1)
  }

  /** Python's `round(x, places)` on an exact real: the nearest multiple of
      10^-places, ties to the even multiple. */
  function RoundPlaces(x: real, places: nat): real {
    RoundAtScale(x, Pow10(places))
  }

  /** Rounding to the nearest multiple of 1/scale, ties to the even one. */
  function RoundAtScale(x: real, scale: real): real
    requires scale >= 1.0
  {
    RoundHalfEven(x * scale) as real / scale
  }

  /** `round(x, 2)` is a whole number of cents within half a cent of x, and
      a value that already is a whole number of cents is left as it is. */
  lemma RoundCents(x: real)
    ensures RoundPlaces(x, 2) * 100.0 == RoundHalfEven(x * 100.0) as real
    ensures 2.0 * 100.0 * Abs(RoundPlaces(x, 2) - x) <= 1.0
    ensures (x * 100.0).Floor as real == x * 100.0 ==> RoundPlaces(x, 2) == x
  {
    var n := RoundHalfEven(x * 100.0);
    assert Pow10(2) == 100.0;
    assert RoundPlaces(x, 2) == RoundAtScale(x, 100.0) == n as real / 100.0;
    if (x * 100.0).Floor as real == x * 100.0 {
      RoundOfInteger((x * 100.0).Floor);
    }
  }

  /** `round(x, 4)`: the same at a scale of 10^4. */
  lemma RoundFourPlaces(x: real)
    ensures RoundPlaces(x, 4) * 10000.0 == RoundHalfEven(x * 10000.0) as real
    ensures 2.0 * 10000.0 * Abs(RoundPlaces(x, 4) - x) <= 1.0
    ensures (x * 10000.0).Floor as real == x * 10000.0 ==> RoundPlaces(x, 4) == x
  {
    var n := RoundHalfEven(x * 10000.0);
    assert Pow10(4) == 10000.0;
    assert RoundPlaces(x, 4) == RoundAtScale(x, 10000.0) == n as real / 10000.0;
    if (x * 10000.0).Floor as real == x * 10000.0 {
      RoundOfInteger((x * 10000.0).Floor);
    }
  }

  lemma RoundOfInteger(n: int)
    ensures RoundHalfEven(n as real) == n
  {
    NearestEvenIsUnique(n as real, n);
  }

  /** `round(ms / 1000)`: epoch milliseconds to the nearest epoch second, ties
      to the even second. Stated here as integer arithmetic on the quotient
      and remainder of the division by 1000. */
  function Seconds(ms: int): (s: int)
    ensures 2 * IntAbs(1000 * s - ms) <= 1000
    ensures 2 * IntAbs(1000 * s - ms) == 1000 ==> s % 2 == 0
  {
    var q := ms / 1000;
    var r := ms % 1000;
    if r < 500 then q
    else if r > 500 then q + 1
    else if q % 2 == 0 then q
    else q + 1
  }

  /** The integer form is exactly Python's rounding of the real quotient. */
  lemma SecondsIsRoundOfQuotient(ms: int)
    ensures Seconds(ms) == RoundHalfEven(ms as real / 1000.0)
  {
    var y := ms as real / 1000.0;
    var s := Seconds(ms);
    assert Abs(s as real - y) * 1000.0 == IntAbs(1000 * s - ms) as real;
    NearestEvenIsUnique(y, s);
  }

  /** The most recent sample: the last element of the list. */
  function Last(samples: seq<Sample>): Sample
    requires |samples| > 0
  {
    samples[|samples| - 1]
  }

  /** `round(amount * value, 2)` for the last sample, unrounded rate, time of
      the last sample, and the two codes echoed. */
  function Convert(samples: seq<Sample>, fromCurrency: string, toCurrency: string, amount: int): (c: Conversion)
    requires |samples| > 0
    ensures c.midMarketRate == Last(samples).value
    ensures c.convertedAmount == RoundPlaces(Product(amount, Last(samples).value), 2)
    ensures 2.0 * 100.0 * Abs(c.convertedAmount - Product(amount, Last(samples).value)) <= 1.0
    ensures c.metadata.timeOfConversion == Seconds(Last(samples).time)
    ensures 2 * IntAbs(1000 * c.metadata.timeOfConversion - Last(samples).time) <= 1000
    ensures c.metadata.fromCurrency == fromCurrency && c.metadata.toCurrency == toCurrency
  {
    ConvertAt(Last(samples), fromCurrency, toCurrency, amount)
  }

  /** The exact amount before rounding: `amount * value`. */
  function Product(amount: int, rate: real): real {
    amount as real * rate
  }

  /** The conversion read off one sample. */
  function ConvertAt(last: Sample, fromCurrency: string, toCurrency: string, amount: int): (c: Conversion)
    ensures c.convertedAmount == RoundPlaces(Product(amount, last.value), 2)
    ensures 2.0 * 100.0 * Abs(c.convertedAmount - Product(amount, last.value)) <= 1.0
  {
    var exact := Product(amount, last.value);
    var rounded := RoundPlaces(exact, 2);
    RoundCents(exact);
    Conversion(rounded, last.value, Metadata(Seconds(last.time), fromCurrency, toCurrency))
  }

  /** Only the last sample matters: series that end alike convert alike,
      whatever comes before. */
  lemma ConvertSeesOnlyLast(s1: seq<Sample>, s2: seq<Sample>, fromCurrency: string, toCurrency: string, amount: int)
    requires |s1| > 0 && |s2| > 0 && Last(s1) == Last(s2)
    ensures Convert(s1, fromCurrency, toCurrency, amount) == Convert(s2, fromCurrency, toCurrency, amount)
  {
  }

  /** The rate is the last one, not the largest: for [4.35, 4.34] the mid
      market rate is 4.34. */
  lemma ConvertTakesLastNotMax()
    ensures Convert([Sample(4.35, 1673816400000), Sample(4.34, 1673900000000)], "USD", "PLN", 1000).midMarketRate == 4.34
  {
  }

  /** Two samples, amount 1000: 1000 × 4.34 = 4340.00, at the second of the
      last sample. */
  lemma ConvertExample()
    ensures Convert([Sample(4.33, 1673816400000), Sample(4.34, 1673900000000)], "USD", "PLN", 1000)
         == Conversion(4340.0, 4.34, Metadata(1673900000, "USD", "PLN"))
  {
    var s := [Sample(4.33, 1673816400000), Sample(4.34, 1673900000000)];
    assert Last(s) == Sample(4.34, 1673900000000);
    assert Product(1000, 4.34) == 4340.0;
    assert (4340.0 * 100.0).Floor == 434000;
    RoundCents(4340.0);
    assert Seconds(1673900000000) == 1673900000;
  }

  /** A history entry: the sample's value and its time in seconds. */
  function Point(s: Sample): RatePoint {
    RatePoint(s.value, Seconds(s.time))
  }

  /** The loop of `historical_data`: one entry per sample, in order. */
  method History(samples: seq<Sample>) returns (history: seq<RatePoint>)
    ensures |history| == |samples|
    ensures forall i :: 0 <= i < |samples| ==> history[i].rate == samples[i].value
    ensures forall i :: 0 <= i < |samples| ==> 2 * IntAbs(1000 * history[i].time - samples[i].time) <= 1000
    ensures forall i :: 0 <= i < |samples| ==> history[i] == Point(samples[i])
  {
    history := [];
    var i := 0;
    while i < |samples|
      invariant 0 <= i <= |samples|
      invariant |history| == i
      invariant forall j :: 0 <= j < i ==> history[j] == Point(samples[j])
    {
      history := history + [Point(samples[i])];
      i := i + 1;
    }
  }

  /** The sum of the values, summing from the front. */
  function Sum(samples: seq<Sample>): real
    decreases |samples|
  {
    if |samples| == 0 then 0.0 else Sum(samples[..|samples| - 1]) + samples[|samples| - 1].value
  }

  /** The arithmetic mean of the values. */
  function Mean(samples: seq<Sample>): real
    requires |samples| > 0
  {
    Sum(samples) / |samples| as real
  }

  /** Values within [lo, hi] sum to within [n·lo, n·hi]. */
  lemma {:induction false} SumWithin(samples: seq<Sample>, lo: real, hi: real)
    requires forall i :: 0 <= i < |samples| ==> lo <= samples[i].value <= hi
    ensures |samples| as real * lo <= Sum(samples) <= |samples| as real * hi
    decreases |samples|
  {
    if |samples| > 0 {
      var init := samples[..|samples| - 1];
      assert forall i :: 0 <= i < |init| ==> init[i] == samples[i];
      SumWithin(init, lo, hi);
      assert |samples| as real * lo == |init| as real * lo + lo;
      assert |samples| as real * hi == |init| as real * hi + hi;
    }
  }

  /** Before rounding, the mean lies between the smallest and the largest
      value: between any common lower and upper bound of them. */
  lemma MeanWithin(samples: seq<Sample>, lo: real, hi: real)
    requires |samples| > 0
    requires forall i :: 0 <= i < |samples| ==> lo <= samples[i].value <= hi
    ensures lo <= Mean(samples) <= hi
  {
    SumWithin(samples, lo, hi);
    var n := |samples| as real;
    assert Mean(samples) * n == Sum(samples);
  }

  /** A constant series averages to that constant. */
  lemma MeanOfConstant(samples: seq<Sample>, v: real)
    requires |samples| > 0
    requires forall i :: 0 <= i < |samples| ==> samples[i].value == v
    ensures Mean(samples) == v
  {
    MeanWithin(samples, v, v);
  }

  /** The loop of `average_rate`: add up the values, front to back. */
  method SumValues(samples: seq<Sample>) returns (total: real)
    ensures total == Sum(samples)
  {
    total := 0.0;
    var i := 0;
    while i < |samples|
      invariant 0 <= i <= |samples|
      invariant total == Sum(samples[..i])
    {
      assert samples[..i + 1][..i] == samples[..i];
      total := total + samples[i].value;
      i := i + 1;
    }
    assert samples[..|samples|] == samples;
  }

  /** `round(sum / len, 4)` with the duration echoed. */
  method AverageOf(samples: seq<Sample>, duration: int) returns (a: Average)
    requires |samples| > 0
    ensures a.durationInDays == duration
    ensures a.averageRate == RoundPlaces(Mean(samples), 4)
    ensures 2.0 * 10000.0 * Abs(a.averageRate - Mean(samples)) <= 1.0
  {
    var total := SumValues(samples);
    a := Average(RoundPlaces(total / |samples| as real, 4), duration);
    RoundFourPlaces(total / |samples| as real);
  }

  /** Values 1, 2 and 3 average to 2.0000. */
  lemma AverageExample()
    ensures RoundPlaces(Mean([Sample(1.0, 0), Sample(2.0, 86400000), Sample(3.0, 172800000)]), 4) == 2.0
  {
    var s := [Sample(1.0, 0), Sample(2.0, 86400000), Sample(3.0, 172800000)];
    assert s[..2][..1] == [Sample(1.0, 0)];
    assert [Sample(1.0, 0)][..0] == [];
    assert Sum([Sample(1.0, 0)]) == 1.0;
    assert Sum(s[..2]) == 3.0;
    assert Sum(s) == 6.0;
    RoundFourPlaces(2.0);
  }

  /** Millisecond times round to the nearest second, ties to even. */
  lemma SecondsExamples()
    ensures Seconds(1673816400000) == 1673816400
    ensures Seconds(1673816400499) == 1673816400
    ensures Seconds(1673816400501) == 1673816401
    ensures Seconds(1673816400500) == 1673816400
    ensures Seconds(1673816401500) == 1673816402
  {
  }
}
