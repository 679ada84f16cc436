/** The weather record the outfit panel receives and the five predicates that
    both `getClothingRecommendations` and `getWeatherTips` compute from it
    (outfit-recommendation.tsx, lines 12-18 and 111-117). */
module Conditions {
  import opened Wrappers
  import opened Text

  /** Current weather as the outfit panel sees it. `windSpeed` is already the
      parsed number of miles per hour; `uvIndex` is absent when the route did
      not supply one. */
  datatype Weather = Weather(
    temperature: int,
    condition: string,
    windSpeed: int,
    humidity: int,
    uvIndex: Option<int>)

  /** The lower-cased condition text mentions rain, showers or drizzle. */
  predicate IsRaining(w: Weather) {
    var c := Lower(w.condition);
    Contains(c, "rain") || Contains(c, "shower") || Contains(c, "drizzle")
  }

  /** The lower-cased condition text mentions snow or flurries. */
  predicate IsSnowing(w: Weather) {
    var c := Lower(w.condition);
    Contains(c, "snow") || Contains(c, "flurries")
  }

  /** Strictly more than 15 mph of wind. */
  predicate IsWindy(w: Weather) {
    w.windSpeed > 15
  }

  /** Strictly more than 70 percent relative humidity. */
  predicate IsHumid(w: Weather) {
    w.humidity > 70
  }

  /** The lower-cased condition text mentions sun or a clear sky. */
  predicate IsSunny(w: Weather) {
    var c := Lower(w.condition);
    Contains(c, "sunny") || Contains(c, "clear")
  }

  /** The five predicates evaluated once, as both functions do before
      applying their rules. */
  datatype Signals = Signals(raining: bool, snowing: bool, windy: bool, humid: bool, sunny: bool)

  function SignalsOf(w: Weather): Signals {
    Signals(IsRaining(w), IsSnowing(w), IsWindy(w), IsHumid(w), IsSunny(w))
  }

  /** The keyword signals ignore letter case: a condition and its lower-cased
      form give the same signals. */
  lemma SignalsIgnoreCase(w: Weather)
    ensures SignalsOf(w.(condition := Lower(w.condition))) == SignalsOf(w)
  {
    LowerIdempotent(w.condition);
  }

  /** Humid and warmer than 70 degrees: the one combination that both the
      clothing rules and the tips single out. */
  predicate HumidHeat(t: int, s: Signals) {
    s.humid && t > 70
  }
}
