/** The two pure decisions of the weather card (weather-display.tsx): the
    first-match keyword classifier that picks a condition's icon, and the
    four-band UV label shown only for a truthy index. */
module WeatherIcon {
  import opened Wrappers
  import opened Text

  /** The icons the classifier can pick. */
  datatype Icon = Sun | CloudRain | CloudSnow | Cloud | CloudFog | CloudLightning | CloudDrizzle

  /** `getWeatherIcon`: tests the lower-cased condition against the keyword
      groups in a fixed order; the first group that matches wins, and a
      condition that matches none gets the sun. Any icon but the sun is
      backed by one of its own keywords, and "sunny" or "clear" always wins. */
  function IconFor(condition: string): (r: Icon)
    ensures r != Sun ==> Mentions(Lower(condition), r)
    ensures Mentions(Lower(condition), Sun) ==> r == Sun
  {
    var c := Lower(condition);
    MentionsEveryIcon(c);
    if Contains(c, "sunny") || Contains(c, "clear") then Sun
    else if Contains(c, "rain") || Contains(c, "shower") then CloudRain
    else if Contains(c, "snow") || Contains(c, "flurries") then CloudSnow
    else if Contains(c, "cloud") || Contains(c, "overcast") then Cloud
    else if Contains(c, "fog") || Contains(c, "mist") then CloudFog
    else if Contains(c, "thunder") || Contains(c, "lightning") then CloudLightning
    else if Contains(c, "drizzle") then CloudDrizzle
    else Sun
  }

  /** The keywords that select each icon. */
  function Keywords(i: Icon): seq<string> {
    match i
    case Sun => ["sunny", "clear"]
    case CloudRain => ["rain", "shower"]
    case CloudSnow => ["snow", "flurries"]
    case Cloud => ["cloud", "overcast"]
    case CloudFog => ["fog", "mist"]
    case CloudLightning => ["thunder", "lightning"]
    case CloudDrizzle => ["drizzle"]
  }

  /** The text contains one of the keywords. */
  predicate ContainsAny(text: string, keywords: seq<string>) {
    |keywords| > 0 && (Contains(text, keywords[0]) || ContainsAny(text, keywords[1..]))
  }

  /** The lower-cased text mentions one of the icon's keywords. */
  predicate Mentions(lower: string, i: Icon) {
    ContainsAny(lower, Keywords(i))
  }

  /** What `Mentions` amounts to for each icon's one or two keywords. */
  lemma MentionsUnfold(lower: string, i: Icon)
    ensures Mentions(lower, i)
        <==> Contains(lower, Keywords(i)[0]) || (|Keywords(i)| > 1 && Contains(lower, Keywords(i)[1]))
  {
    var ks := Keywords(i);
    assert ContainsAny(lower, ks) == (Contains(lower, ks[0]) || ContainsAny(lower, ks[1..]));
    if |ks| > 1 {
      assert ContainsAny(lower, ks[1..]) == (Contains(lower, ks[1]) || ContainsAny(lower, ks[2..]));
      assert ks[2..] == [];
    } else {
      assert ks[1..] == [];
    }
  }

  /** `MentionsUnfold` for every icon at once. */
  lemma MentionsEveryIcon(lower: string)
    ensures forall i: Icon ::
      Mentions(lower, i) <==> Contains(lower, Keywords(i)[0]) || (|Keywords(i)| > 1 && Contains(lower, Keywords(i)[1]))
  {
    forall i: Icon
      ensures Mentions(lower, i)
          <==> Contains(lower, Keywords(i)[0]) || (|Keywords(i)| > 1 && Contains(lower, Keywords(i)[1]))
    {
      MentionsUnfold(lower, i);
    }
  }

  /** The order in which the keyword groups are tried. */
  const Precedence: seq<Icon> := [Sun, CloudRain, CloudSnow, Cloud, CloudFog, CloudLightning, CloudDrizzle]

  /** A reference classifier: walk an ordered table and return the first
      icon whose keywords are mentioned, or the default. */
  function FirstMatch(lower: string, order: seq<Icon>, default: Icon): (r: Icon)
    ensures r == default || r in order
  {
    if order == [] then default
    else if Mentions(lower, order[0]) then order[0]
    else FirstMatch(lower, order[1..], default)
  }

  /** `FirstMatch` picks the entry at position `j` exactly when that entry
      is mentioned and no earlier one is. */
  lemma {:induction false} FirstMatchPicksEarliest(lower: string, order: seq<Icon>, default: Icon, j: nat)
    requires j < |order|
    requires forall a, b :: 0 <= a < b < |order| ==> order[a] != order[b]
    requires order[j] != default
    ensures FirstMatch(lower, order, default) == order[j]
        <==> Mentions(lower, order[j]) && forall i :: 0 <= i < j ==> !Mentions(lower, order[i])
    decreases j
  {
    if j > 0 && !Mentions(lower, order[0]) {
      var rest := order[1..];
      FirstMatchPicksEarliest(lower, rest, default, j - 1);
      assert rest[j - 1] == order[j];
      assert forall i :: 0 <= i < j - 1 ==> rest[i] == order[i + 1];
    }
  }

  /** The classifier is the reference walk over `Precedence`, with the sun as
      the default. */
  lemma IconForIsFirstMatch(condition: string)
    ensures IconFor(condition) == FirstMatch(Lower(condition), Precedence, Sun)
  {
    var c := Lower(condition);
    var p := Precedence;
    MentionsEveryIcon(c);
    assert p[1..] == [CloudRain, CloudSnow, Cloud, CloudFog, CloudLightning, CloudDrizzle];
    assert p[2..] == [CloudSnow, Cloud, CloudFog, CloudLightning, CloudDrizzle];
    assert p[3..] == [Cloud, CloudFog, CloudLightning, CloudDrizzle];
    assert p[4..] == [CloudFog, CloudLightning, CloudDrizzle];
    assert p[5..] == [CloudLightning, CloudDrizzle];
    assert p[6..] == [CloudDrizzle];
    assert FirstMatch(c, p[6..], Sun) == if Mentions(c, CloudDrizzle) then CloudDrizzle else Sun;
    assert FirstMatch(c, p[5..], Sun) == if Mentions(c, CloudLightning) then CloudLightning else FirstMatch(c, p[6..], Sun);
    assert FirstMatch(c, p[4..], Sun) == if Mentions(c, CloudFog) then CloudFog else FirstMatch(c, p[5..], Sun);
    assert FirstMatch(c, p[3..], Sun) == if Mentions(c, Cloud) then Cloud else FirstMatch(c, p[4..], Sun);
    assert FirstMatch(c, p[2..], Sun) == if Mentions(c, CloudSnow) then CloudSnow else FirstMatch(c, p[3..], Sun);
    assert FirstMatch(c, p[1..], Sun) == if Mentions(c, CloudRain) then CloudRain else FirstMatch(c, p[2..], Sun);
  }

  /** A condition mentioning sun or a clear sky always shows the sun,
      whatever else it mentions. */
  lemma SunnyAlwaysSun(condition: string)
    requires Contains(Lower(condition), "sunny") || Contains(Lower(condition), "clear")
    ensures IconFor(condition) == Sun
  {
  }

  /** When no icon of the table is mentioned, the walk ends at the default. */
  lemma {:induction false} FirstMatchNone(lower: string, order: seq<Icon>, default: Icon)
    requires forall i :: i in order ==> !Mentions(lower, i)
    ensures FirstMatch(lower, order, default) == default
    decreases |order|
  {
    if order != [] {
      assert order[0] in order;
      assert forall i :: i in order[1..] ==> i in order;
      FirstMatchNone(lower, order[1..], default);
    }
  }

  /** A condition mentioning none of the keywords falls back to the sun. */
  lemma NoKeywordIsSun(condition: string)
    requires forall i :: i in Precedence ==> !Mentions(Lower(condition), i)
    ensures IconFor(condition) == Sun
  {
    IconForIsFirstMatch(condition);
    FirstMatchNone(Lower(condition), Precedence, Sun);
  }

  /** Every icon other than the sun is shown exactly when its keywords are
      mentioned and no earlier group's keywords are: drizzle, last in line,
      is reached only when nothing else matched. */
  lemma PrecedenceOfIcons(condition: string, j: nat)
    requires 1 <= j < |Precedence|
    ensures IconFor(condition) == Precedence[j]
        <==> Mentions(Lower(condition), Precedence[j])
             && forall i :: 0 <= i < j ==> !Mentions(Lower(condition), Precedence[i])
  {
    IconForIsFirstMatch(condition);
    PrecedenceIsDistinct();
    FirstMatchPicksEarliest(Lower(condition), Precedence, Sun, j);
  }

  /** Each icon appears once in the table, the sun first. */
  lemma PrecedenceIsDistinct()
    ensures forall a, b :: 0 <= a < b < |Precedence| ==> Precedence[a] != Precedence[b]
    ensures forall j :: 1 <= j < |Precedence| ==> Precedence[j] != Sun
  {
  }

  /** "Rain and drizzle" mentions rain, which is checked before drizzle, so
      it shows rain. */
  lemma RainShadowsDrizzle(condition: string)
    requires condition == "Rain and drizzle"
    ensures IconFor(condition) == CloudRain
  {
    LowerRainAndDrizzle(condition);
    RainAndDrizzleKeywords(Lower(condition));
  }

  lemma LowerRainAndDrizzle(condition: string)
    requires condition == "Rain and drizzle"
    ensures Lower(condition) == "rain and drizzle"
  {
  }

  lemma RainAndDrizzleKeywords(c: string)
    requires c == "rain and drizzle"
    ensures !Contains(c, "sunny") && !Contains(c, "clear") && Contains(c, "rain")
  {
    NotContainsMissingChar(c, "sunny", 's');
    NotContainsMissingChar(c, "clear", 'c');
    ContainsAt(c, "rain", 0);
  }

  /** "Thunderstorm clouds" mentions clouds, which are checked before
      thunder, so it shows clouds. */
  lemma CloudShadowsThunder(condition: string)
    requires condition == "Thunderstorm clouds"
    ensures IconFor(condition) == Cloud
  {
    LowerThunderstormClouds(condition);
    ThunderstormCloudsKeywords(Lower(condition));
  }

  lemma LowerThunderstormClouds(condition: string)
    requires condition == "Thunderstorm clouds"
    ensures Lower(condition) == "thunderstorm clouds"
  {
  }

  lemma ThunderstormCloudsKeywords(c: string)
    requires c == "thunderstorm clouds"
    ensures !Contains(c, "sunny") && !Contains(c, "clear")
    ensures !Contains(c, "rain") && !Contains(c, "shower")
    ensures !Contains(c, "snow") && !Contains(c, "flurries")
    ensures Contains(c, "cloud")
  {
    ThunderstormCloudsLacksEarlierKeywords(c);
    ThunderstormCloudsHasCloud(c);
  }

  lemma ThunderstormCloudsHasCloud(c: string)
    requires c == "thunderstorm clouds"
    ensures Contains(c, "cloud")
  {
    assert c[13..18] == "cloud";
    ContainsAt(c, "cloud", 13);
  }

  /** Each keyword the chain checks before clouds needs a letter that
      "thunderstorm clouds" does not have. */
  lemma ThunderstormCloudsLacksEarlierKeywords(c: string)
    requires c == "thunderstorm clouds"
    ensures !Contains(c, "sunny") && !Contains(c, "clear") && !Contains(c, "rain")
    ensures !Contains(c, "shower") && !Contains(c, "snow") && !Contains(c, "flurries")
  {
    ThunderstormCloudsSpelling(c);
    NotContainsMissingChar(c, "sunny", 'y');
    NotContainsMissingChar(c, "clear", 'a');
    NotContainsMissingChar(c, "rain", 'a');
    NotContainsMissingChar(c, "shower", 'w');
    NotContainsMissingChar(c, "snow", 'w');
    NotContainsMissingChar(c, "flurries", 'f');
  }

  /** Letters absent from "thunderstorm clouds": "y" rules out "sunny", "a"
      rules out "clear" and "rain", "w" rules out "shower" and "snow", and "f"
      rules out "flurries". */
  lemma ThunderstormCloudsSpelling(c: string)
    requires c == "thunderstorm clouds"
    ensures 'y' !in c && 'a' !in c && 'w' !in c && 'f' !in c
  {
  }

  /** The UV labels. */
  datatype UvLevel = Low | Moderate | High | VeryHigh

  function LevelText(l: UvLevel): string {
    match l
    case Low => "Low"
    case Moderate => "Moderate"
    case High => "High"
    case VeryHigh => "Very High"
  }

  /** The range of the index each label covers. */
  predicate InUvBand(l: UvLevel, uv: int) {
    match l
    case Low => uv < 3
    case Moderate => 3 <= uv < 6
    case High => 6 <= uv < 8
    case VeryHigh => 8 <= uv
  }

  /** The label ladder: below 3, below 6, below 8, otherwise. */
  function UvLabel(uv: int): (l: UvLevel)
    ensures InUvBand(l, uv)
  {
    if uv < 3 then Low else if uv < 6 then Moderate else if uv < 8 then High else VeryHigh
  }

  /** The bands cover every index and do not overlap. */
  lemma UvBandsAreExclusive(l: UvLevel, uv: int)
    ensures InUvBand(l, uv) <==> UvLabel(uv) == l
  {
  }

  function LevelRank(l: UvLevel): nat {
    match l
    case Low => 0
    case Moderate => 1
    case High => 2
    case VeryHigh => 3
  }

  /** A higher index never gets a milder label. */
  lemma UvLabelMonotone(a: int, b: int)
    requires a <= b
    ensures LevelRank(UvLabel(a)) <= LevelRank(UvLabel(b))
  {
  }

  /** The UV line of the card: shown only for a truthy index, so for a
      missing index or an index of 0 no UV line is shown. (React still prints
      the 0 itself, which is rendering and not modelled.) */
  function UvBadge(uv: Option<int>): (r: Option<UvLevel>)
    ensures r.Some? <==> uv.Some? && uv.value != 0
    ensures r.Some? ==> InUvBand(r.value, uv.value)
  {
    match uv
    case Some(v) => if v != 0 then Some(UvLabel(v)) else None
    case None => None
  }
}
