/** The reshaping half of the weather route (app/api/weather/route.ts, lines
    141-174): the current conditions from the first hourly period, the
    three-day forecast built from the daytime periods, and the UV estimate.
    The clock is a parameter: `hour` stands for `new Date().getHours()`. */
module Forecast {
  import opened Wrappers
  import opened Text

  /** One period of a weather.gov forecast, daily or hourly. */
  datatype Period = Period(
    number: int,
    name: string,
    isDaytime: bool,
    temperature: int,
    shortForecast: string,
    windSpeed: string,
    relativeHumidity: Option<int>)

  /** A forecast low: a temperature, or the text "N/A". */
  datatype Low = Degrees(value: int) | NotAvailable

  /** One entry of the three-day forecast. */
  datatype DayForecast = DayForecast(day: string, condition: string, high: int, low: Low)

  /** The number of daytime periods. */
  function CountDaytime(ps: seq<Period>): nat {
    if ps == [] then 0
    else CountDaytime(ps[..|ps| - 1]) + (if ps[|ps| - 1].isDaytime then 1 else 0)
  }

  /** `filter(period => period.isDaytime)`, as positions: the `k`-th
      position is the daytime period that has exactly `k` daytime periods
      before it, so the positions are the daytime periods in source order. */
  function DaytimeIndices(ps: seq<Period>): (r: seq<nat>)
    ensures |r| == CountDaytime(ps)
    ensures forall k :: 0 <= k < |r| ==> r[k] < |ps| && ps[r[k]].isDaytime && CountDaytime(ps[..r[k]]) == k
  {
    if ps == [] then []
    else
      var n := |ps| - 1;
      var prefix := ps[..n];
      var before := DaytimeIndices(prefix);
      assert forall k :: 0 <= k < |before| ==> ps[..before[k]] == prefix[..before[k]];
      assert ps[..n] == prefix;
      before + (if ps[n].isDaytime then [n] else [])
  }

  /** Fewer daytime periods before a later period: the count only grows. */
  lemma {:induction false} CountDaytimeGrows(ps: seq<Period>, i: nat, j: nat)
    requires i <= j <= |ps|
    ensures CountDaytime(ps[..i]) <= CountDaytime(ps[..j])
    ensures i < j && ps[i].isDaytime ==> CountDaytime(ps[..i]) < CountDaytime(ps[..j])
    decreases j - i
  {
    if i < j {
      CountDaytimeGrows(ps, i, j - 1);
      assert ps[..j][..j - 1] == ps[..j - 1];
      if i == j - 1 {
        assert ps[..j][j - 1] == ps[i];
      }
    }
  }

  /** `findIndex(p => p.number === number)`: the first position holding that
      number, or -1. */
  function FindIndex(ps: seq<Period>, number: int): (r: int)
    ensures -1 <= r < |ps|
    ensures r >= 0 ==> ps[r].number == number
    ensures forall k :: 0 <= k < |ps| && (r == -1 || k < r) ==> ps[k].number != number
  {
    if ps == [] then -1
    else if ps[0].number == number then 0
    else
      var i := FindIndex(ps[1..], number);
      if i == -1 then -1 else i + 1
  }

  /** The low of a forecast entry: the temperature of the period just after
      the first one with the same number. A missing period gives "N/A", and
      so does a temperature of 0, because `||` treats 0 as missing. When no
      period has the number, `-1 + 1` reads the first period instead. */
  function LowAfter(ps: seq<Period>, p: Period): (r: Low)
    ensures r.Degrees? ==> r.value != 0
    ensures forall i :: 0 <= i < |ps| && ps[i].number == p.number && FirstWithNumber(ps, i) ==>
      r == NextLow(ps, i + 1)
    ensures (forall k :: 0 <= k < |ps| ==> ps[k].number != p.number) ==> r == NextLow(ps, 0)
  {
    var j := FindIndex(ps, p.number) + 1;
    if j < |ps| && ps[j].temperature != 0 then Degrees(ps[j].temperature) else NotAvailable
  }

  /** No period before position `i` has the number of the one at `i`. */
  predicate FirstWithNumber(ps: seq<Period>, i: nat)
    requires i < |ps|
  {
    forall k :: 0 <= k < i ==> ps[k].number != ps[i].number
  }

  /** The temperature at position `j` read through `?.temperature || "N/A"`. */
  function NextLow(ps: seq<Period>, j: nat): Low {
    if j < |ps| && ps[j].temperature != 0 then Degrees(ps[j].temperature) else NotAvailable
  }

  /** The forecast entry built from the period at position `i`. */
  function Entry(ps: seq<Period>, i: nat): DayForecast
    requires i < |ps|
  {
    DayForecast(FirstToken(ps[i].name), ps[i].shortForecast, ps[i].temperature, LowAfter(ps, ps[i]))
  }

  /** `e` is the entry built from the daytime period that has `k` daytime
      periods before it. */
  ghost predicate FromKthDaytime(ps: seq<Period>, k: nat, e: DayForecast) {
    exists i :: 0 <= i < |ps| && ps[i].isDaytime && CountDaytime(ps[..i]) == k && e == Entry(ps, i)
  }

  /** The three-day forecast: at most three entries, and entry `k` is built
      from the daytime period that has `k` daytime periods before it. */
  function ThreeDayForecast(ps: seq<Period>): (r: seq<DayForecast>)
    ensures |r| == Min(3, CountDaytime(ps))
    ensures forall k :: 0 <= k < |r| ==> FromKthDaytime(ps, k, r[k])
  {
    var days := DaytimeIndices(ps);
    var r := seq(Min(3, |days|), k requires 0 <= k < Min(3, |days|) => Entry(ps, days[k]));
    forall k | 0 <= k < |r| {
      DaytimeEntry(ps, k, r[k]);
    }
    r
  }

  /** The entry built from the `k`-th daytime position witnesses the
      description of entry `k`. */
  lemma DaytimeEntry(ps: seq<Period>, k: nat, e: DayForecast)
    requires k < |DaytimeIndices(ps)| && e == Entry(ps, DaytimeIndices(ps)[k])
    ensures FromKthDaytime(ps, k, e)
  {
    var i := DaytimeIndices(ps)[k];
    assert 0 <= i < |ps| && ps[i].isDaytime && CountDaytime(ps[..i]) == k && e == Entry(ps, i);
  }

  /** Periods are numbered without repeats, as weather.gov numbers them. */
  predicate DistinctNumbers(ps: seq<Period>) {
    forall a, b :: 0 <= a < b < |ps| ==> ps[a].number != ps[b].number
  }

  /** With distinct numbers, the low paired with the period at position `i`
      is the temperature of the very next period, "N/A" when there is none
      or when it is 0. */
  lemma LowIsNextPeriod(ps: seq<Period>, i: nat)
    requires i < |ps| && DistinctNumbers(ps)
    ensures LowAfter(ps, ps[i])
         == if i + 1 < |ps| && ps[i + 1].temperature != 0 then Degrees(ps[i + 1].temperature) else NotAvailable
  {
    assert FindIndex(ps, ps[i].number) == i;
  }

  /** The entries come from daytime periods in strictly increasing source
      positions. */
  lemma ForecastInSourceOrder(ps: seq<Period>, k: nat, l: nat, i: nat, j: nat)
    requires k < l && i < |ps| && j < |ps|
    requires ps[i].isDaytime && CountDaytime(ps[..i]) == k
    requires ps[j].isDaytime && CountDaytime(ps[..j]) == l
    ensures i < j
  {
    if j <= i {
      CountDaytimeGrows(ps, j, i);
    }
  }

  /** A period name such as "Tuesday Night" gives the day "Tuesday". */
  lemma DayIsFirstWord(ps: seq<Period>, i: nat, word: string, rest: string)
    requires i < |ps| && ps[i].name == word + " " + rest && ' ' !in word
    ensures Entry(ps, i).day == word
  {
    FirstTokenOfPhrase(word, rest);
  }

  /** The UV estimate: 7 for a sunny forecast between 11:00 and 15:59, 4 for
      a sunny one at other hours, 2 otherwise. Only "sunny" counts: a clear
      sky gets 2. */
  function EstimateUv(shortForecast: string, hour: int): (uv: int)
    ensures uv == 7 <==> Contains(Lower(shortForecast), "sunny") && 11 <= hour <= 15
    ensures uv == 4 <==> Contains(Lower(shortForecast), "sunny") && !(11 <= hour <= 15)
    ensures uv == 2 <==> !Contains(Lower(shortForecast), "sunny")
  {
    if Contains(Lower(shortForecast), "sunny") then
      if hour > 10 && hour < 16 then 7 else 4
    else 2
  }

  /** The weather summary the route returns. */
  datatype Summary = Summary(
    location: string,
    temperature: int,
    feelsLike: int,
    condition: string,
    humidity: int,
    windSpeed: string,
    forecast: seq<DayForecast>,
    units: string,
    uvIndex: int)

  /** The message of the TypeError thrown when a field of `undefined` or
      `null` is read. */
  function ReadOfNothing(nothing: string, field: string): string {
    "Cannot read properties of " + nothing + " (reading '" + field + "')"
  }

  /** What reading the temperature of the missing first hourly period throws. */
  const MissingCurrentPeriod := ReadOfNothing("undefined", "temperature")

  /** The summary from the daily and hourly periods. It fails exactly when
      there is no hourly period to read the current conditions from;
      otherwise the current conditions come from the first hourly period,
      the days from the daily periods and the UV from the estimate. */
  function Summarize(location: string, daily: seq<Period>, hourly: seq<Period>, hour: int): (r: Result<Summary>)
    ensures r.Failure? <==> hourly == []
    ensures r.Failure? ==> r.message == MissingCurrentPeriod
    ensures r.Success? ==>
      var now := hourly[0];
      && r.value.location == location
      && r.value.temperature == now.temperature
      && r.value.feelsLike == r.value.temperature
      && r.value.condition == now.shortForecast
      && r.value.humidity == (if now.relativeHumidity.Some? then now.relativeHumidity.value else 0)
      && r.value.windSpeed == FirstToken(now.windSpeed)
      && r.value.forecast == ThreeDayForecast(daily)
      && r.value.uvIndex == EstimateUv(now.shortForecast, hour)
      && |r.value.forecast| <= 3
      && r.value.uvIndex in {2, 4, 7}
  {
    if hourly == [] then Failure(MissingCurrentPeriod)
    else
      var now := hourly[0];
      Success(Summary(
        location,
        now.temperature,
        now.temperature,
        now.shortForecast,
        now.relativeHumidity.GetOr(0),
        FirstToken(now.windSpeed),
        ThreeDayForecast(daily),
        "imperial",
        EstimateUv(now.shortForecast, hour)))
  }
}
