# Weather Outfit Recommender — a verified Dafny model

This project models the decision logic of the weather outfit recommender. The
app is a Next.js application that asks weather.gov for the current conditions
and a forecast, then suggests what to wear. There are three pieces:

- **The outfit rule engine** (`getClothingRecommendations` and
  `getWeatherTips` in `outfit-recommendation.tsx`).
  - Six temperature bands pick a top layer, a bottom layer and base accessories.
  - Rain, snow, wind and humid heat append further accessories, and humid heat
    replaces the top layer.
  - Tips follow the same conditions plus the UV index. There is a fallback tip,
    and at most three tips are shown.
- **The weather route** (`GET` in `app/api/weather/route.ts`).
  - Chooses between coordinates and a place name.
  - Applies the approximate US bounding box, and the geocoder's country check.
  - Runs the three weather.gov lookups and builds the three-day forecast and
    the current-conditions summary.
  - Estimates the UV index and maps the error that ends the request to a status.
- **The weather card** (`weather-display.tsx`). It has a first-match keyword
  classifier that picks the condition icon, and a four-band UV label shown only
  for a truthy index.

Modules, one file each:

| module | file | models |
|---|---|---|
| `Wrappers` | wrappers.dfy | `Option` and `Result` |
| `Text` | text.dfy | `toLowerCase`, `includes`, `split(" ")[0]`, decimal rendering |
| `Conditions` | conditions.dfy | the panel's weather record and the five condition predicates |
| `Clothing` | clothing.dfy | `getClothingRecommendations` and the accessory/picture pairing of the panel |
| `Tips` | tips.dfy | `getWeatherTips` |
| `WeatherIcon` | weather_icon.dfy | `getWeatherIcon`, the UV label and the UV line |
| `Forecast` | forecast.dfy | the current conditions, the three-day forecast, the UV estimate |
| `WeatherRoute` | weather_route.dfy | the request pipeline, with every fetch, the number parser, the formatter and the clock as parameters |
| `Consistency` | consistency.dfy | how the route's summary feeds the card and the panel |

Strings are `seq<char>`; temperature, humidity and UV are `int`; coordinates
are a `Num` that is a `real`, an infinity or NaN. Garments, accessories,
pictures, tips and icons are enumerations, with their display texts kept as
functions.

Each classifier is paired with an independent reference definition. The
temperature bands come with a band predicate. The accessory add-ons come with a
rule table. The tips come with a rank order. The icon ladder comes with a walk
over an ordered keyword table. The three-day forecast comes with a counting
characterization of the daytime periods.

In `route.ts` a coordinate that does not parse becomes NaN, and every
comparison with NaN is false. Such a coordinate therefore never fails its own
two comparisons of the bounding box; the other coordinate can still reject the
request. When both fail to parse, the request passes the box and goes on to the
grid-point lookup. The model keeps this behaviour
(`WeatherRoute.UnparsableCoordinatesPassBox`, `WeatherRoute.HalfParsedOutsideBoxIs400`).

## Model

| member | source | states |
|---|---|---|
| Clothing.BandOf | weather-app/components/outfit-recommendation.tsx:29-71 | every temperature falls in the band of the first threshold (32, 45, 60, 75, 85) it is below, 85 and above being the hot band |
| Clothing.BandsAreExclusive | weather-app/components/outfit-recommendation.tsx:29-71 | a temperature lies in exactly one band: band membership holds exactly for the band the ladder picks |
| Clothing.FreezingTopIsWinterCoat | weather-app/components/outfit-recommendation.tsx:29-31 | below 32 degrees the top layer is the heavy winter coat, since the humid-heat override needs more than 70 degrees |
| Clothing.HotTopIsBreathable | weather-app/components/outfit-recommendation.tsx:64-71 | at 85 degrees and above the top text mentions "breathable" (band top or humid override) and the sun hat is among the accessories |
| Clothing.DressAsWritten | weather-app/components/outfit-recommendation.tsx:23-97 | the band's accessories and pictures are prefixes of the final lists (nothing is removed), the bottom layer is the band's, and pictures never outnumber accessories |
| Clothing.AsWrittenImageShortfall | weather-app/components/outfit-recommendation.tsx:32-97 | as written, accessories exceed pictures by one for the freezing band plus one for the humid-heat advice, and by nothing otherwise |
| Clothing.AsWrittenShiftsPictures | weather-app/components/outfit-recommendation.tsx:32-39 | as written, freezing rain puts the raincoat picture beside the insulated boots and the umbrella picture beside the raincoat |
| Clothing.Dress | weather-app/components/outfit-recommendation.tsx:29-97 | the corrected outfit keeps the source's top, bottom and accessories, and is the source's whole outfit exactly from 32 degrees up |
| Clothing.RecommendAsWritten | weather-app/components/outfit-recommendation.tsx:10-107 | `getClothingRecommendations` as written differs from the corrected outfit only in its picture list, and equals it exactly when the temperature is 32 or more |
| Clothing.PicturesMatchAccessories | weather-app/components/outfit-recommendation.tsx:251-263 | in the corrected outfit every picture at position i belongs to the accessory at position i, and only the moisture-wicking advice lacks one |
| Clothing.AccessoriesFollowRuleTable | weather-app/components/outfit-recommendation.tsx:73-97 | the accessories are the band's list followed by what an ordered rain, snow, wind, humid-heat rule table appends |
| Clothing.AddOnComesFromRules | weather-app/components/outfit-recommendation.tsx:73-97 | no band's base list holds an add-on, so an add-on is in the outfit exactly when a condition rule appended it |
| Clothing.RainGearIffRaining | weather-app/components/outfit-recommendation.tsx:74-81 | raincoat, umbrella and waterproof shoes are each present exactly when it is raining, whatever the band |
| Clothing.RainWordsBringRainGear | weather-app/components/outfit-recommendation.tsx:12-14 | on the weather record, the rain gear is present exactly when the lower-cased condition mentions rain, shower or drizzle |
| Clothing.SnowGearIffSnowing | weather-app/components/outfit-recommendation.tsx:83-86 | waterproof boots and gloves are present exactly when it is snowing |
| Clothing.WindbreakerIffWindy | weather-app/components/outfit-recommendation.tsx:88-91 | the windbreaker is present exactly when the wind exceeds 15 mph: 15 adds nothing, 16 adds it |
| Clothing.HumidHeatOverridesTop | weather-app/components/outfit-recommendation.tsx:93-97 | humidity over 70 with temperature over 70 makes the top "Light, breathable clothing"; otherwise the band's top stands; the bottom is always the band's |
| Clothing.MoistureWickingIffHumidHeat | weather-app/components/outfit-recommendation.tsx:93-95 | the moisture-wicking advice is present exactly in humid heat |
| Tips.TipsFor | weather-app/components/outfit-recommendation.tsx:190-198 | one to three tips: the generic tip alone when no rule fired, otherwise the first min(3, n) of the n tips that fired |
| Tips.Tips | weather-app/components/outfit-recommendation.tsx:109-199 | `getWeatherTips` on the weather record gives one to three tips in rule order, the generic one exactly when no rule fires |
| Tips.Candidates | weather-app/components/outfit-recommendation.tsx:119-188 | the tips that fire start with the temperature tip, if any, and never include the generic tip |
| Tips.GeneralTipIffQuiet | weather-app/components/outfit-recommendation.tsx:190-196 | the generic tip appears exactly when no temperature, condition or UV rule fires, and then it is the only tip |
| Tips.PushAllMembers | weather-app/components/outfit-recommendation.tsx:139-173 | after the conditional pushes, a tip is present exactly when it was already there or a rule that holds pushes it |
| Tips.CandidatesInRankOrder | weather-app/components/outfit-recommendation.tsx:119-188 | the tips that fire are in strictly increasing rank: temperature, rain, snow, wind, sun, humidity, UV |
| Tips.TipsInRuleOrder | weather-app/components/outfit-recommendation.tsx:119-198 | after the cap the tips shown keep that order |
| Tips.TemperatureTipLeads | weather-app/components/outfit-recommendation.tsx:122-137 | the temperature tip, when there is one, is first among the tips shown and every later tip has a positive rank |
| Tips.TemperatureTipKept | weather-app/components/outfit-recommendation.tsx:122-137 | extreme cold shows exactly below 32, layering exactly from 32 below 45, hydration exactly above 85, and no temperature tip from 45 to 85 |
| Tips.RainTipKept | weather-app/components/outfit-recommendation.tsx:140-145 | the umbrella tip is shown exactly when it is raining: it is never cut by the cap |
| Tips.SnowTipKept | weather-app/components/outfit-recommendation.tsx:147-152 | the snow-traction tip is shown exactly when it is snowing: at most third, it is never cut |
| Tips.SilentRuleAddsNothing | weather-app/components/outfit-recommendation.tsx:139-173 | a condition rule that does not fire contributes no tip |
| Tips.LaterTipsCut | weather-app/components/outfit-recommendation.tsx:198 | with a temperature tip, rain and snow, the tips are exactly those three and the wind, sun, humidity and UV tips are cut |
| Tips.UvTipBands | weather-app/components/outfit-recommendation.tsx:176-188 | a high-UV tip exactly from 6, a moderate one exactly from 3 to 5, none below 3 or without an index |
| WeatherIcon.IconFor | weather-app/components/weather-display.tsx:10-30 | any icon but the sun is backed by one of its own keywords in the lower-cased condition, and "sunny" or "clear" always gives the sun |
| WeatherIcon.FirstMatchPicksEarliest | weather-app/components/weather-display.tsx:13-29 | a first-match walk over an ordered table picks an entry exactly when it is mentioned and no earlier entry is |
| WeatherIcon.IconForIsFirstMatch | weather-app/components/weather-display.tsx:10-30 | the icon ladder is the first-match walk over sunny/clear, rain/shower, snow/flurries, cloud/overcast, fog/mist, thunder/lightning, drizzle, defaulting to the sun |
| WeatherIcon.SunnyAlwaysSun | weather-app/components/weather-display.tsx:13-14 | a condition mentioning sunny or clear shows the sun whatever else it mentions |
| WeatherIcon.PrecedenceOfIcons | weather-app/components/weather-display.tsx:13-26 | each non-sun icon is shown exactly when its keywords are mentioned and no earlier group's are; drizzle only when nothing else matched |
| WeatherIcon.NoKeywordIsSun | weather-app/components/weather-display.tsx:27-29 | a condition with none of the keywords falls back to the sun |
| WeatherIcon.RainShadowsDrizzle | weather-app/components/weather-display.tsx:15-26 | "Rain and drizzle" shows the rain icon |
| WeatherIcon.CloudShadowsThunder | weather-app/components/weather-display.tsx:19-24 | "Thunderstorm clouds" shows the cloud icon |
| WeatherIcon.UvLabel | weather-app/components/weather-display.tsx:78 | the label's band contains the index: Low below 3, Moderate from 3 below 6, High from 6 below 8, Very High from 8 |
| WeatherIcon.UvBandsAreExclusive | weather-app/components/weather-display.tsx:78 | the four bands cover every index and do not overlap |
| WeatherIcon.UvLabelMonotone | weather-app/components/weather-display.tsx:78 | a higher index never gets a milder label |
| WeatherIcon.UvBadge | weather-app/components/weather-display.tsx:72-79 | the UV line is shown exactly for a present, non-zero index, with the label of its band |
| Text.ContainsIff | weather-app/components/outfit-recommendation.tsx:12-17 | `includes` holds exactly when the word occurs at some position of the text |
| Text.LowerIdempotent | weather-app/components/outfit-recommendation.tsx:12 | lower-casing twice is lower-casing once |
| Conditions.SignalsIgnoreCase | weather-app/components/outfit-recommendation.tsx:12-18 | the rain, snow, wind, humidity and sun signals are the same for a condition and for its lower-cased form |
| Text.FirstTokenUnique | weather-app/app/api/weather/route.ts:165 | `split(" ")[0]` is the one prefix with no space that is the whole text or is followed by a space |
| Forecast.DaytimeIndices | weather-app/app/api/weather/route.ts:146 | the daytime filter keeps, in order, every daytime period: the k-th kept one has exactly k daytime periods before it |
| Forecast.ThreeDayForecast | weather-app/app/api/weather/route.ts:145-156 | at most three entries, as many as there are daytime periods up to three, entry k built from the daytime period with k daytime periods before it |
| Forecast.ForecastInSourceOrder | weather-app/app/api/weather/route.ts:145-147 | the entries come from daytime periods at strictly increasing positions |
| Forecast.FindIndex | weather-app/app/api/weather/route.ts:154 | `findIndex` returns the first position holding the number, or -1 when none does |
| Forecast.LowAfter | weather-app/app/api/weather/route.ts:152-155 | the low is the temperature of the period after the first one with the entry's number, "N/A" past the end or for 0; with no such number, `-1 + 1` reads the first period |
| Forecast.LowIsNextPeriod | weather-app/app/api/weather/route.ts:152-155 | with distinct period numbers, the low is the next period's temperature, and "N/A" when there is no next period or its temperature is 0 |
| Forecast.DayIsFirstWord | weather-app/app/api/weather/route.ts:149 | a period named "Tuesday Night" gives the day "Tuesday" |
| Forecast.EstimateUv | weather-app/app/api/weather/route.ts:169-173 | 7 exactly for a sunny forecast from 11:00 to 15:59, 4 exactly for a sunny one at other hours, 2 exactly when "sunny" is absent |
| Forecast.Summarize | weather-app/app/api/weather/route.ts:141-174 | fails exactly without an hourly period; otherwise the current conditions come from the first hourly period, feels-like equals temperature, humidity defaults to 0, wind is the first word, the forecast is the three-day forecast of the daily periods and the UV is the estimate for the first hourly period |
| WeatherRoute.SourceOf | weather-app/app/api/weather/route.ts:114-132 | coordinates are used exactly when both are truthy; otherwise a truthy location is geocoded; otherwise there is no source |
| WeatherRoute.Expect | weather-app/app/api/weather/route.ts:12-14 | a fetch yields its body exactly when the response is ok; a non-ok status becomes "Failed to ...: status", a failed request "fetch failed" |
| WeatherRoute.Geocode | weather-app/app/api/weather/route.ts:33-54 | the geocoder's reply succeeds exactly when it is ok and its first candidate names no country other than USA (a missing or empty country passes); no candidates is "Location not found", a named non-USA country is refused, a non-ok status is "Failed to geocode location: status" and a request with no response is "fetch failed" |
| WeatherRoute.Locate | weather-app/app/api/weather/route.ts:114-129 | explicit coordinates fail exactly when the bounding-box test rejects them; a place name is geocoded |
| WeatherRoute.Gather | weather-app/app/api/weather/route.ts:134-142 | the first of the grid-point, daily and hourly lookups to fail decides the error ("Failed to <stage>: status" or "fetch failed"); when all answer, the result is the summary of the two forecasts under the located name |
| WeatherRoute.Run | weather-app/app/api/weather/route.ts:113-142 | coordinates outside the box are refused before any lookup; a summary is named after the located place; every error is one of the messages the stages throw |
| WeatherRoute.ErrorReply | weather-app/app/api/weather/route.ts:180-196 | 404 exactly for "Location not found", 400 exactly for a grid-point failure or the US-only refusal checked in that order, 500 with the generic text otherwise |
| WeatherRoute.Handle | weather-app/app/api/weather/route.ts:102-198 | every error answer is 400, 404 or 500; a weather answer needs a source and has feels-like equal to temperature, at most three forecast days and the UV estimate (2, 4 or 7) for its condition and the hour |
| WeatherRoute.CoordinatesTakePrecedence | weather-app/app/api/weather/route.ts:114-129 | with both coordinates present the answer does not depend on the location parameter or on the geocoder |
| WeatherRoute.MissingInputIs400 | weather-app/app/api/weather/route.ts:130-132 | the 400 "Either lat/lon or location must be provided" is given exactly when neither both coordinates nor a location are present |
| WeatherRoute.OutsideBoxIs400 | weather-app/app/api/weather/route.ts:121-124 | coordinates failing the bounding box get the US-only 400 without any grid-point lookup |
| WeatherRoute.FiniteCoordinatesInBox | weather-app/app/api/weather/route.ts:122 | finite coordinates pass the bounding-box test exactly when 24.5 <= lat <= 49.5 and -125 <= lon <= -66.5 |
| WeatherRoute.InsideBoxIsLookedUp | weather-app/app/api/weather/route.ts:114-135 | finite coordinates inside the box go to the grid-point lookup under their formatted name |
| WeatherRoute.UnparsableCoordinatesPassBox | weather-app/app/api/weather/route.ts:115-124 | two NaN coordinates pass the bounding box and go to the grid-point lookup |
| WeatherRoute.HalfParsedOutsideBoxIs400 | weather-app/app/api/weather/route.ts:115-124 | one NaN coordinate never fails its own comparisons, but the other one is still tested: an out-of-range partner still gets the US-only 400 |
| WeatherRoute.UnknownPlaceIs404 | weather-app/app/api/weather/route.ts:39-41 | a place the geocoder has no candidate for is answered with 404 |
| WeatherRoute.ForeignPlaceIs400 | weather-app/app/api/weather/route.ts:45-48 | a first candidate in a named country other than USA is answered with the US-only 400 |
| WeatherRoute.UsOnlyIs400 | weather-app/app/api/weather/route.ts:191-193 | the US-only refusal maps to its own 400 text |
| WeatherRoute.GridFailureIs400 | weather-app/app/api/weather/route.ts:187-190 | a non-ok grid-point answer is the unsupported-location 400 |
| WeatherRoute.StageFailureIs500 | weather-app/app/api/weather/route.ts:181-194 | the message of a non-ok geocoder or forecast answer maps to the generic 500 |
| WeatherRoute.GeocodeFailureIs500 | weather-app/app/api/weather/route.ts:33-35 | a place name the geocoder answers with an error status gets the generic 500 |
| WeatherRoute.UnreachableGeocoderIs500 | weather-app/app/api/weather/route.ts:24-58 | a place name whose geocoder request gets no response gets the generic 500 |
| WeatherRoute.ForecastFailureIs500 | weather-app/app/api/weather/route.ts:70-72 | a daily forecast lookup answered with an error status gets the generic 500 |
| WeatherRoute.HourlyFailureIs500 | weather-app/app/api/weather/route.ts:90-92 | an hourly forecast lookup answered with an error status gets the generic 500 |
| WeatherRoute.NetworkFailureIs500 | weather-app/app/api/weather/route.ts:181-194 | the message of a request that gets no response maps to the generic 500 |
| WeatherRoute.UnreachableGridIs500 | weather-app/app/api/weather/route.ts:4-20 | a grid-point request that gets no response gets the generic 500, not the unsupported-location 400 |
| WeatherRoute.NoCurrentPeriodIs500 | weather-app/app/api/weather/route.ts:181-194 | the TypeError of reading a missing first hourly period maps to the generic 500 |
| WeatherRoute.EmptyHourlyIs500 | weather-app/app/api/weather/route.ts:142 | an hourly forecast with no periods gets the generic 500 |
| WeatherRoute.AnswerIsSummary | weather-app/app/api/weather/route.ts:134-176 | when every lookup answers and there is an hourly period, the answer is the summary of the two forecasts under the located name |
| Consistency.EstimateLabels | weather-app/app/api/weather/route.ts:169-173 | the card always labels the route's estimate, never "Very High": High for sunny midday, Moderate for sunny otherwise, Low without "sunny" |
| Consistency.EstimateTips | weather-app/components/outfit-recommendation.tsx:176-188 | the route's estimate yields the high-UV tip at 7 for sunny midday, the moderate tip at 4 for sunny otherwise, and no UV tip without "sunny" |
| Consistency.ClearSkyShowsSunButLowUv | weather-app/app/api/weather/route.ts:169 | "Clear" shows the sun icon, yet its UV estimate is 2 and labelled Low |
| Consistency.SunnyMiddayCandidates | weather-app/components/outfit-recommendation.tsx:161-188 | a route summary whose first hourly period is sunny and above 70 degrees, made from 11:00 to 15:59, gives the panel both the sun-protection and the high-UV tip among its candidates |

## Left out

- Text.Lower: lower-casing maps only A-Z. JavaScript's Unicode case mapping is not modelled, because the keywords are all ASCII.
- `Number.parseFloat` and `toFixed(2)` are the parameters `Env.parse` and `Env.fixed`. Floating-point parsing and formatting are not modelled. Geocoder coordinates are taken to be finite reals.
- All `fetch` calls are parameters of `Env`. Their outcome is `Fetch`: a body, a non-ok status, or no response.
  - The JSON bodies arrive already shaped: candidates, grid URLs, periods.
  - A body missing a property, which would throw a TypeError, is not modelled. The one exception is an empty hourly period list.
- `new Date().getHours()` is the parameter `hour` (`Env.hour`).
- Forecast.EstimateUv: the route reads the clock twice (`getHours() > 10 && getHours() < 16`); the model uses a single reading for both tests, so the race in which the two readings fall on either side of midnight (23, then 0), which would give 7 for a sunny forecast, is not modelled.
- Conditions.Weather: `windSpeed` reaches the panel as the first word of a text. JavaScript coerces it to a number for `> 15`. The model takes it as an already-parsed `int`.
- Consistency.PanelWeather: the coerced wind speed is a parameter, for the same reason.
- JSX rendering, lucide icons, Next `Image`, and the CSS classes and colours of icons are not modelled. Pictures and icons are enumerations; picture URLs are kept as texts.
- `console.error` logging is not modelled.
- The location-suggestions route, the geolocation hook, the page's state handling, the location search box and the loading spinner are not modelled: they are I/O and UI glue.

## Findings

| source | as written | input that shows it | evidently intended | confidence | as-written member | corrected member |
|---|---|---|---|---|---|---|
| weather-app/components/outfit-recommendation.tsx:32-39 | the freezing band pushes four accessories but only three pictures; the panel pairs pictures with accessories by position (line 253), so every later picture is shifted one place | temperature 20, condition "Rain": "Insulated boots" is shown with the raincoat picture and "Raincoat or waterproof jacket" with the umbrella picture | one picture per accessory, a fourth for the insulated boots | not executed | Clothing.AsWrittenShiftsPictures | Clothing.PicturesMatchAccessories |

`Clothing.DressAsWritten` is the outfit as written. `Clothing.Dress` is the
corrected outfit, which `Clothing.Recommend` and the rest of the model use.
The humid-heat advice also has no picture, but it is always pushed last, so it
shifts nothing.
