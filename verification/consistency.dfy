/** How the three parts meet: the page hands the route's summary to both the
    weather card and the outfit panel (app/page.tsx, lines 103-106), so the
    route's UV estimate is what the card labels and what the tips react to. */
module Consistency {
  import opened Wrappers
  import opened Text
  import opened Conditions
  import opened Tips
  import opened WeatherIcon
  import opened Forecast

  /** The outfit panel's view of a route summary. `windMph` is the number
      JavaScript reads from the summary's wind-speed text when it compares
      it with 15. */
  function PanelWeather(s: Summary, windMph: int): Weather
  {
    Weather(s.temperature, s.condition, windMph, s.humidity, Some(s.uvIndex))
  }

  /** The card always shows a UV line for the route's estimate, and never
      "Very High": "High" for a sunny forecast between 11:00 and 15:59,
      "Moderate" for a sunny one at other hours, "Low" otherwise. */
  lemma EstimateLabels(shortForecast: string, hour: int)
    ensures var badge := UvBadge(Some(EstimateUv(shortForecast, hour)));
      && badge.Some?
      && badge.value != VeryHigh
      && (badge.value == High <==> Contains(Lower(shortForecast), "sunny") && 11 <= hour <= 15)
      && (badge.value == Moderate <==> Contains(Lower(shortForecast), "sunny") && !(11 <= hour <= 15))
      && (badge.value == Low <==> !Contains(Lower(shortForecast), "sunny"))
  {
  }

  /** The tips react to the route's estimate: the high-UV tip at 7 for a
      sunny midday, the moderate one at 4 for a sunny forecast at other
      hours, and no UV tip otherwise. */
  lemma EstimateTips(shortForecast: string, hour: int)
    ensures UvTip(Some(EstimateUv(shortForecast, hour)))
         == if !Contains(Lower(shortForecast), "sunny") then []
            else if 11 <= hour <= 15 then [HighUv(7)]
            else [ModerateUv(4)]
  {
  }

  /** The word "Clear" gives the card its sun icon, yet the route's
      estimate only looks for "sunny", so a clear sky is labelled "Low". */
  lemma ClearSkyShowsSunButLowUv(condition: string, hour: int)
    requires condition == "Clear"
    ensures IconFor(condition) == Sun
    ensures UvBadge(Some(EstimateUv(condition, hour))) == Some(Low)
  {
    LowerClear(condition);
    ContainsAt("clear", "clear", 0);
    NotContainsMissingChar("clear", "sunny", 's');
  }

  lemma LowerClear(condition: string)
    requires condition == "Clear"
    ensures Lower(condition) == "clear"
  {
  }

  /** A route summary whose current period is sunny and above 70 degrees,
      made between 11:00 and 15:59, gives the panel a sun-protection tip and
      a high-UV tip among its candidates. */
  lemma SunnyMiddayCandidates(location: string, daily: seq<Period>, hourly: seq<Period>, hour: int, windMph: int)
    requires hourly != [] && 11 <= hour <= 15
    requires Contains(Lower(hourly[0].shortForecast), "sunny") && hourly[0].temperature > 70
    ensures var w := PanelWeather(Summarize(location, daily, hourly, hour).value, windMph);
      SunProtection in Candidates(w.temperature, SignalsOf(w), w.uvIndex)
      && HighUv(7) in Candidates(w.temperature, SignalsOf(w), w.uvIndex)
  {
    var s := Summarize(location, daily, hourly, hour).value;
    var w := PanelWeather(s, windMph);
    var sig := SignalsOf(w);
    assert sig.sunny;
    var rules := ConditionRules(w.temperature, sig);
    assert rules[3] == (true, SunProtection);
    PushAllMembers(TemperatureTip(w.temperature), rules, SunProtection);
  }
}
