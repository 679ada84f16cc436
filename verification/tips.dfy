/** `getWeatherTips` (outfit-recommendation.tsx, lines 109-199): at most one
    temperature tip, then one tip per condition that holds, in a fixed
    order, then a UV tip; a generic tip when nothing fired; and only the
    first three are kept. */
module Tips {
  import opened Wrappers
  import opened Text
  import opened Conditions

  /** Every tip the panel can show. The UV tips carry the index they quote. */
  datatype Tip =
    | ExtremeCold | LayerUp | StayHydrated
    | UmbrellaTip | SnowTraction | WindChill | SunProtection | HumidityRelief
    | HighUv(uv: int) | ModerateUv(uv: int)
    | General

  /** The icon drawn beside each tip. */
  datatype TipIcon = Thermometer | UmbrellaIcon | CloudSnowIcon | WindIcon | SunIcon | DropletsIcon | ShirtIcon

  function IconOf(tip: Tip): TipIcon {
    match tip
    case ExtremeCold => Thermometer
    case LayerUp => Thermometer
    case StayHydrated => Thermometer
    case UmbrellaTip => UmbrellaIcon
    case SnowTraction => CloudSnowIcon
    case WindChill => WindIcon
    case SunProtection => SunIcon
    case HumidityRelief => DropletsIcon
    case HighUv(_) => SunIcon
    case ModerateUv(_) => SunIcon
    case General => ShirtIcon
  }

  /** The sentence shown for each tip; the UV tips interpolate the index. */
  function TextOf(tip: Tip): string {
    match tip
    case ExtremeCold => "Extreme cold! Limit time outdoors and dress in multiple layers to trap heat."
    case LayerUp => "Dress in layers that you can remove as needed if you warm up during the day."
    case StayHydrated => "Stay hydrated and seek shade during peak sun hours (10am-4pm)."
    case UmbrellaTip => "Don't forget your umbrella and consider waterproof footwear to keep your feet dry."
    case SnowTraction => "Wear waterproof boots with good traction to prevent slipping on snow and ice."
    case WindChill =>
      "It's quite windy today. Secure loose items and wear close-fitting clothes to reduce wind chill."
    case SunProtection => "Wear a hat and apply sunscreen to protect your skin from UV rays."
    case HumidityRelief =>
      "High humidity makes it feel hotter. Wear light, loose-fitting clothes that breathe well."
    case HighUv(uv) =>
      "High UV index (" + IntToDecimal(uv) + "). Wear sunscreen, sunglasses, and protective clothing."
    case ModerateUv(uv) =>
      "Moderate UV index (" + IntToDecimal(uv) + "). Consider wearing sunscreen when outdoors."
    case General => "Dress in layers to adjust to changing temperatures throughout the day."
  }

  /** The position of a tip's rule in the order the source tests them. */
  function Rank(tip: Tip): nat {
    match tip
    case ExtremeCold => 0
    case LayerUp => 0
    case StayHydrated => 0
    case UmbrellaTip => 1
    case SnowTraction => 2
    case WindChill => 3
    case SunProtection => 4
    case HumidityRelief => 5
    case HighUv(_) => 6
    case ModerateUv(_) => 6
    case General => 7
  }

  /** The temperature ladder of the tips: below 32, below 45, above 85. */
  function TemperatureTip(t: int): seq<Tip> {
    if t < 32 then [ExtremeCold]
    else if t < 45 then [LayerUp]
    else if t > 85 then [StayHydrated]
    else []
  }

  /** The UV tip, when an index is present: high from 6, moderate from 3. */
  function UvTip(uv: Option<int>): seq<Tip> {
    match uv
    case None => []
    case Some(v) =>
      if v >= 6 then [HighUv(v)]
      else if v >= 3 then [ModerateUv(v)]
      else []
  }

  /** One conditional `push`. */
  function PushIf(tips: seq<Tip>, c: bool, tip: Tip): (r: seq<Tip>)
    ensures tips <= r
  {
    if c then tips + [tip] else tips
  }

  /** The five condition rules in the order the source tests them. */
  function ConditionRules(t: int, s: Signals): seq<(bool, Tip)> {
    [ (s.raining, UmbrellaTip), (s.snowing, SnowTraction), (s.windy, WindChill),
      (s.sunny && t > 70, SunProtection), (HumidHeat(t, s), HumidityRelief) ]
  }

  /** Pushes the tip of every rule that holds, in table order. */
  function PushAll(tips: seq<Tip>, rules: seq<(bool, Tip)>): (r: seq<Tip>)
    ensures tips <= r
    decreases |rules|
  {
    if rules == [] then tips else PushAll(PushIf(tips, rules[0].0, rules[0].1), rules[1..])
  }

  /** A tip is pushed exactly when it was already there or some rule that
      holds pushes it. */
  lemma {:induction false} PushAllMembers(tips: seq<Tip>, rules: seq<(bool, Tip)>, x: Tip)
    ensures x in PushAll(tips, rules) <==> x in tips || exists i :: 0 <= i < |rules| && rules[i].0 && rules[i].1 == x
    decreases |rules|
  {
    if rules != [] {
      var next := PushIf(tips, rules[0].0, rules[0].1);
      PushAllMembers(next, rules[1..], x);
      if x in PushAll(tips, rules) && x !in tips && x !in next {
        var i :| 0 <= i < |rules[1..]| && rules[1..][i].0 && rules[1..][i].1 == x;
        assert rules[i + 1] == rules[1..][i];
      }
      if exists i :: 0 <= i < |rules| && rules[i].0 && rules[i].1 == x {
        var i :| 0 <= i < |rules| && rules[i].0 && rules[i].1 == x;
        if i > 0 {
          assert rules[1..][i - 1] == rules[i];
        }
      }
    }
  }

  /** Every tip whose rule fires, in the order the rules are checked, before
      the fallback and the cap: the temperature tip, the condition rules'
      tips, then the UV tip. */
  function Candidates(t: int, s: Signals, uv: Option<int>): (r: seq<Tip>)
    ensures TemperatureTip(t) <= r
    ensures RankedBelow(r, Rank(General))
  {
    PushAllKeepsOrder(TemperatureTip(t), ConditionRules(t, s), 1);
    PushAll(TemperatureTip(t), ConditionRules(t, s)) + UvTip(uv)
  }

  /** The tips for a temperature, the five condition signals and the UV
      index: the fallback when no rule fired, and at most the first three
      otherwise. */
  function TipsFor(t: int, s: Signals, uv: Option<int>): (r: seq<Tip>)
    ensures 1 <= |r| <= 3
    ensures Candidates(t, s, uv) == [] ==> r == [General]
    ensures Candidates(t, s, uv) != [] ==>
      r <= Candidates(t, s, uv) && |r| == Min(3, |Candidates(t, s, uv)|)
  {
    var tips := Candidates(t, s, uv);
    var tips' := if |tips| == 0 then [General] else tips;
    tips'[..Min(3, |tips'|)]
  }

  /** `getWeatherTips` on the panel's weather record: one to three tips in
      the order the rules are checked, the generic one exactly when no rule
      fires. */
  function Tips(w: Weather): (r: seq<Tip>)
    ensures 1 <= |r| <= 3
    ensures StrictlyRanked(r)
    ensures General in r <==> Quiet(w.temperature, SignalsOf(w), w.uvIndex)
  {
    TipsInRuleOrder(w.temperature, SignalsOf(w), w.uvIndex);
    GeneralTipIffQuiet(w.temperature, SignalsOf(w), w.uvIndex);
    TipsFor(w.temperature, SignalsOf(w), w.uvIndex)
  }

  /** No rule at all fires: a mild temperature, no rain, snow or wind, no
      sunny or humid heat, and no UV index of 3 or more. */
  predicate Quiet(t: int, s: Signals, uv: Option<int>) {
    && 45 <= t <= 85
    && !s.raining && !s.snowing && !s.windy
    && !(s.sunny && t > 70) && !HumidHeat(t, s)
    && (uv.None? || uv.value < 3)
  }

  /** The generic tip appears exactly when no other rule fired, and then it
      is the only tip. */
  lemma GeneralTipIffQuiet(t: int, s: Signals, uv: Option<int>)
    ensures General in TipsFor(t, s, uv) <==> Quiet(t, s, uv)
    ensures Quiet(t, s, uv) ==> TipsFor(t, s, uv) == [General]
  {
    var c := Candidates(t, s, uv);
    var t0, rules, u := TemperatureTip(t), ConditionRules(t, s), UvTip(uv);
    PushAllMembers(t0, rules, General);
    assert General !in c;
    if c != [] {
      assert General !in TipsFor(t, s, uv);
    }
    if Quiet(t, s, uv) {
      assert t0 == [] && u == [];
      if PushAll(t0, rules) != [] {
        PushAllMembers(t0, rules, PushAll(t0, rules)[0]);
      }
    } else if t0 == [] && u == [] {
      assert rules[0].0 || rules[1].0 || rules[2].0 || rules[3].0 || rules[4].0;
      var i :| 0 <= i < |rules| && rules[i].0;
      PushAllMembers(t0, rules, rules[i].1);
    }
  }

  /** Every tip's rank is below `k`. */
  predicate RankedBelow(tips: seq<Tip>, k: nat) {
    forall i :: 0 <= i < |tips| ==> Rank(tips[i]) < k
  }

  /** Ranks strictly increase along the list. */
  predicate StrictlyRanked(tips: seq<Tip>) {
    forall i, j :: 0 <= i < j < |tips| ==> Rank(tips[i]) < Rank(tips[j])
  }

  /** Pushing a tip of higher rank than all before it keeps the list in rank
      order. */
  lemma PushKeepsOrder(tips: seq<Tip>, c: bool, tip: Tip)
    requires StrictlyRanked(tips) && RankedBelow(tips, Rank(tip))
    ensures StrictlyRanked(PushIf(tips, c, tip))
    ensures RankedBelow(PushIf(tips, c, tip), Rank(tip) + 1)
  {
  }

  /** The rules' tips have ranks 1 to 5 in table order. */
  predicate RanksFrom(rules: seq<(bool, Tip)>, k: nat) {
    forall i :: 0 <= i < |rules| ==> Rank(rules[i].1) == k + i
  }

  lemma {:induction false} PushAllKeepsOrder(tips: seq<Tip>, rules: seq<(bool, Tip)>, k: nat)
    requires StrictlyRanked(tips) && RankedBelow(tips, k) && RanksFrom(rules, k)
    ensures StrictlyRanked(PushAll(tips, rules))
    ensures RankedBelow(PushAll(tips, rules), k + |rules|)
    decreases |rules|
  {
    if rules != [] {
      PushKeepsOrder(tips, rules[0].0, rules[0].1);
      PushAllKeepsOrder(PushIf(tips, rules[0].0, rules[0].1), rules[1..], k + 1);
    }
  }

  /** Past the list it starts from, `PushAll` adds only tips of positive
      rank. */
  lemma {:induction false} PushAllPositive(tips: seq<Tip>, rules: seq<(bool, Tip)>, k: nat)
    requires RanksFrom(rules, k) && k > 0
    ensures forall i :: |tips| <= i < |PushAll(tips, rules)| ==> Rank(PushAll(tips, rules)[i]) > 0
    decreases |rules|
  {
    if rules != [] {
      var next := PushIf(tips, rules[0].0, rules[0].1);
      PushAllPositive(next, rules[1..], k + 1);
      assert forall i :: |tips| <= i < |next| ==> next[i] == rules[0].1;
      assert forall i :: 0 <= i < |next| ==> PushAll(tips, rules)[i] == next[i];
    }
  }

  /** The rules fire in the order they are checked. */
  lemma CandidatesInRankOrder(t: int, s: Signals, uv: Option<int>)
    ensures StrictlyRanked(Candidates(t, s, uv))
  {
    var t0 := TemperatureTip(t);
    var t5 := PushAll(t0, ConditionRules(t, s));
    PushAllKeepsOrder(t0, ConditionRules(t, s), 1);
    var u := UvTip(uv);
    if u != [] {
      assert t5 + u == PushIf(t5, true, u[0]);
      PushKeepsOrder(t5, true, u[0]);
    } else {
      assert t5 + u == t5;
    }
  }

  /** The tips shown keep the order the rules are checked in: temperature,
      rain, snow, wind, sun, humidity, UV. */
  lemma TipsInRuleOrder(t: int, s: Signals, uv: Option<int>)
    ensures StrictlyRanked(TipsFor(t, s, uv))
  {
    CandidatesInRankOrder(t, s, uv);
  }

  /** The tip at position `i < 3` of the candidates survives the cap. */
  lemma EarlyCandidateKept(t: int, s: Signals, uv: Option<int>, i: nat)
    requires i < 3 && i < |Candidates(t, s, uv)|
    ensures Candidates(t, s, uv)[i] in TipsFor(t, s, uv)
  {
    assert TipsFor(t, s, uv)[i] == Candidates(t, s, uv)[i];
  }

  /** Only the temperature rule produces tips of rank 0, and it pushes
      first: past the temperature tip every candidate has a positive rank. */
  lemma CandidatesAfterTemperature(t: int, s: Signals, uv: Option<int>)
    ensures TemperatureTip(t) <= Candidates(t, s, uv)
    ensures forall i :: |TemperatureTip(t)| <= i < |Candidates(t, s, uv)| ==> Rank(Candidates(t, s, uv)[i]) > 0
  {
    var t0 := TemperatureTip(t);
    var t5 := PushAll(t0, ConditionRules(t, s));
    PushAllPositive(t0, ConditionRules(t, s), 1);
    var u := UvTip(uv);
    assert forall i :: 0 <= i < |u| ==> Rank(u[i]) == 6;
    assert forall i :: |t5| <= i < |t5 + u| ==> (t5 + u)[i] == u[i - |t5|];
  }

  /** The temperature tip, when there is one, leads the tips shown, and
      every tip after it has a positive rank. */
  lemma TemperatureTipLeads(t: int, s: Signals, uv: Option<int>)
    ensures TemperatureTip(t) <= TipsFor(t, s, uv)
    ensures forall i :: |TemperatureTip(t)| <= i < |TipsFor(t, s, uv)| ==> Rank(TipsFor(t, s, uv)[i]) > 0
  {
    var c := Candidates(t, s, uv);
    var r := TipsFor(t, s, uv);
    var t0 := TemperatureTip(t);
    CandidatesAfterTemperature(t, s, uv);
    if t0 != [] {
      EarlyCandidateKept(t, s, uv, 0);
      assert c[0] == t0[0];
    }
  }

  /** The temperature tips: extreme cold below 32, layers from 32 below 45,
      hydration above 85, and none from 45 to 85 inclusive. Being first, the
      temperature tip is never cut. */
  lemma TemperatureTipKept(t: int, s: Signals, uv: Option<int>)
    ensures ExtremeCold in TipsFor(t, s, uv) <==> t < 32
    ensures LayerUp in TipsFor(t, s, uv) <==> 32 <= t < 45
    ensures StayHydrated in TipsFor(t, s, uv) <==> t > 85
    ensures 45 <= t <= 85 ==> forall tip :: tip in TipsFor(t, s, uv) ==> Rank(tip) > 0
  {
    TemperatureTipLeads(t, s, uv);
    var r := TipsFor(t, s, uv);
    var t0 := TemperatureTip(t);
    assert forall i :: 0 <= i < |r| && Rank(r[i]) == 0 ==> i < |t0| && r[i] == t0[i];
  }

  /** The rain tip is at most second, so it is shown exactly when it is
      raining. */
  lemma RainTipKept(t: int, s: Signals, uv: Option<int>)
    ensures UmbrellaTip in TipsFor(t, s, uv) <==> s.raining
  {
    if s.raining {
      var t0 := TemperatureTip(t);
      var rules := ConditionRules(t, s);
      assert PushAll(t0, rules) == PushAll(t0 + [UmbrellaTip], rules[1..]);
      var c := Candidates(t, s, uv);
      assert c[|t0|] == UmbrellaTip;
      EarlyCandidateKept(t, s, uv, |t0|);
    } else {
      SilentRuleAddsNothing(t, s, uv, 0);
    }
  }

  /** The snow tip is at most third, so it is shown exactly when it is
      snowing. */
  lemma SnowTipKept(t: int, s: Signals, uv: Option<int>)
    ensures SnowTraction in TipsFor(t, s, uv) <==> s.snowing
  {
    if s.snowing {
      var t0 := TemperatureTip(t);
      var t1 := PushIf(t0, s.raining, UmbrellaTip);
      var rules := ConditionRules(t, s);
      assert rules[1..][1..] == rules[2..];
      assert PushAll(t0, rules) == PushAll(t1, rules[1..]);
      assert PushAll(t1, rules[1..]) == PushAll(t1 + [SnowTraction], rules[2..]);
      var c := Candidates(t, s, uv);
      assert c[|t1|] == SnowTraction;
      EarlyCandidateKept(t, s, uv, |t1|);
    } else {
      SilentRuleAddsNothing(t, s, uv, 1);
    }
  }

  /** A condition rule that does not fire contributes no tip: each rule's
      tip comes from that rule alone. */
  lemma SilentRuleAddsNothing(t: int, s: Signals, uv: Option<int>, k: nat)
    requires k < 5 && !ConditionRules(t, s)[k].0
    ensures ConditionRules(t, s)[k].1 !in TipsFor(t, s, uv)
  {
    SilentRuleNoCandidate(t, s, uv, k);
  }

  lemma SilentRuleNoCandidate(t: int, s: Signals, uv: Option<int>, k: nat)
    requires k < 5 && !ConditionRules(t, s)[k].0
    ensures ConditionRules(t, s)[k].1 !in Candidates(t, s, uv)
  {
    var rules := ConditionRules(t, s);
    var x := rules[k].1;
    var t0 := TemperatureTip(t);
    RuleTipsDistinct(t, s);
    PushAllMembers(t0, rules, x);
    assert x !in t0 && x !in UvTip(uv);
  }

  /** Each condition rule pushes its own tip. */
  lemma RuleTipsDistinct(t: int, s: Signals)
    ensures forall i, j :: 0 <= i < j < |ConditionRules(t, s)| ==> ConditionRules(t, s)[i].1 != ConditionRules(t, s)[j].1
  {
  }

  /** When temperature, rain and snow tips all fire, the wind tip and every
      later one are cut. */
  lemma LaterTipsCut(t: int, s: Signals, uv: Option<int>)
    requires (t < 45 || t > 85) && s.raining && s.snowing
    ensures TipsFor(t, s, uv) == TemperatureTip(t) + [UmbrellaTip, SnowTraction]
  {
    var t0 := TemperatureTip(t);
    var rules := ConditionRules(t, s);
    var t2 := t0 + [UmbrellaTip, SnowTraction];
    assert PushAll(t0, rules) == PushAll(t0 + [UmbrellaTip], rules[1..]);
    assert rules[1..][1..] == rules[2..];
    assert t0 + [UmbrellaTip] + [SnowTraction] == t2;
    assert PushAll(t0 + [UmbrellaTip], rules[1..]) == PushAll(t2, rules[2..]);
    var c := Candidates(t, s, uv);
    assert c[..3] == t2;
  }

  /** The UV tip: high from 6, moderate from 3 to 5, nothing below 3 or when
      no index is known. */
  lemma UvTipBands(uv: Option<int>)
    ensures (exists v :: HighUv(v) in UvTip(uv)) <==> uv.Some? && uv.value >= 6
    ensures (exists v :: ModerateUv(v) in UvTip(uv)) <==> uv.Some? && 3 <= uv.value < 6
    ensures UvTip(uv) == [] <==> uv.None? || uv.value < 3
  {
    if uv.Some? && uv.value >= 6 {
      assert HighUv(uv.value) in UvTip(uv);
    }
    if uv.Some? && 3 <= uv.value < 6 {
      assert ModerateUv(uv.value) in UvTip(uv);
    }
  }
}
