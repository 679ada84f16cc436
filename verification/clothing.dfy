/** `getClothingRecommendations` (outfit-recommendation.tsx, lines 10-107): a
    first-match temperature ladder that picks the base garments, followed by
    independent condition rules that only ever append accessories, and one
    humid-heat rule that replaces the top layer. */
module Clothing {
  import opened Wrappers
  import opened Conditions
  import opened Text

  /** The six temperature bands, in the order the ladder tests them. */
  datatype Band = Freezing | Cold | Cool | Mild | Warm | Hot

  /** The range of degrees Fahrenheit each band covers, stated independently
      of the order in which the ladder tests them. */
  predicate InBand(b: Band, t: int) {
    match b
    case Freezing => t < 32
    case Cold => 32 <= t < 45
    case Cool => 45 <= t < 60
    case Mild => 60 <= t < 75
    case Warm => 75 <= t < 85
    case Hot => 85 <= t
  }

  /** The temperature ladder: `< 32`, `< 45`, `< 60`, `< 75`, `< 85`, else.
      The band chosen is one whose range holds the temperature. */
  function BandOf(t: int): (b: Band)
    ensures InBand(b, t)
  {
    if t < 32 then Freezing
    else if t < 45 then Cold
    else if t < 60 then Cool
    else if t < 75 then Mild
    else if t < 85 then Warm
    else Hot
  }

  /** The ranges do not overlap, so the first match of the ladder is the
      only match: a band holds the temperature exactly when it is chosen. */
  lemma BandsAreExclusive(b: Band, t: int)
    ensures InBand(b, t) <==> BandOf(t) == b
  {
  }

  /** Every top layer the rules can recommend. */
  datatype Top =
    | HeavyWinterCoat | WinterCoat | LightJacket | LongSleeve | TShirt | TankTop
    | Breathable

  function TopText(top: Top): string {
    match top
    case HeavyWinterCoat => "Heavy winter coat, thermal shirt, sweater"
    case WinterCoat => "Winter coat or heavy jacket, sweater"
    case LightJacket => "Light jacket or heavy sweater"
    case LongSleeve => "Long-sleeve shirt or light sweater"
    case TShirt => "T-shirt or short-sleeve shirt"
    case TankTop => "Light, breathable t-shirt or tank top"
    case Breathable => "Light, breathable clothing"
  }

  /** Every bottom layer the rules can recommend. */
  datatype Bottom =
    | ThermalUnderwear | WarmPants | PantsOrJeans | PantsOrSkirt | ShortsOrPants | ShortsOrSkirt

  function BottomText(bottom: Bottom): string {
    match bottom
    case ThermalUnderwear => "Thermal underwear, heavy pants"
    case WarmPants => "Jeans or warm pants"
    case PantsOrJeans => "Pants or jeans"
    case PantsOrSkirt => "Pants, jeans, or skirt with leggings"
    case ShortsOrPants => "Shorts, skirt, or light pants"
    case ShortsOrSkirt => "Shorts or light skirt"
  }

  /** Every accessory the rules can recommend. */
  datatype Accessory =
    | WarmHat | Gloves | Scarf | InsulatedBoots
    | LightGloves | Hat
    | LightScarf
    | SunHat
    | Raincoat | Umbrella | WaterproofShoes
    | WaterproofBoots | WaterproofGloves
    | Windbreaker
    | MoistureWicking

  /** The text the panel prints for an accessory. */
  function Label(a: Accessory): string {
    match a
    case WarmHat => "Warm hat"
    case Gloves => "Gloves"
    case Scarf => "Scarf"
    case InsulatedBoots => "Insulated boots"
    case LightGloves => "Light gloves"
    case Hat => "Hat"
    case LightScarf => "Light scarf (optional)"
    case SunHat => "Hat for sun protection"
    case Raincoat => "Raincoat or waterproof jacket"
    case Umbrella => "Umbrella"
    case WaterproofShoes => "Waterproof shoes"
    case WaterproofBoots => "Waterproof boots"
    case WaterproofGloves => "Waterproof gloves"
    case Windbreaker => "Windbreaker (if not already wearing a jacket)"
    case MoistureWicking => "Consider moisture-wicking fabrics"
  }

  /** Every picture the panel can show. */
  datatype Image =
    | SmallPlaceholder | LargePlaceholder
    | WinterCoatJpg | JeansJpg | GlovesJpg | BeanieJpg
    | LightJacketJpg | PantsJpg | ScarfJpg
    | LongSleeveJpg | TShirtJpg | ShortsJpg | TankTopJpg | SunHatJpg
    | RaincoatJpg | UmbrellaJpg | WaterproofShoesJpg
    | SnowBootsJpg | WaterproofGlovesJpg | WindbreakerJpg | BreathableShirtJpg

  function Url(i: Image): string {
    match i
    case SmallPlaceholder => "/placeholder.svg?height=100&width=100"
    case LargePlaceholder => "/placeholder.svg?height=150&width=150"
    case WinterCoatJpg => "https://v0.blob.com/winter-coat.jpg"
    case JeansJpg => "https://v0.blob.com/jeans.jpg"
    case GlovesJpg => "https://v0.blob.com/gloves.jpg"
    case BeanieJpg => "https://v0.blob.com/beanie.jpg"
    case LightJacketJpg => "https://v0.blob.com/light-jacket.jpg"
    case PantsJpg => "https://v0.blob.com/pants.jpg"
    case ScarfJpg => "https://v0.blob.com/scarf.jpg"
    case LongSleeveJpg => "https://v0.blob.com/long-sleeve.jpg"
    case TShirtJpg => "https://v0.blob.com/tshirt.jpg"
    case ShortsJpg => "https://v0.blob.com/shorts.jpg"
    case TankTopJpg => "https://v0.blob.com/tank-top.jpg"
    case SunHatJpg => "https://v0.blob.com/sun-hat.jpg"
    case RaincoatJpg => "https://v0.blob.com/raincoat.jpg"
    case UmbrellaJpg => "https://v0.blob.com/umbrella.jpg"
    case WaterproofShoesJpg => "https://v0.blob.com/waterproof-shoes.jpg"
    case SnowBootsJpg => "https://v0.blob.com/snow-boots.jpg"
    case WaterproofGlovesJpg => "https://v0.blob.com/waterproof-gloves.jpg"
    case WindbreakerJpg => "https://v0.blob.com/windbreaker.jpg"
    case BreathableShirtJpg => "https://v0.blob.com/breathable-shirt.jpg"
  }

  /** The picture pushed for an accessory, if any. The moisture-wicking advice
      has none. */
  function Picture(a: Accessory): Option<Image> {
    match a
    case WarmHat => Some(SmallPlaceholder)
    case Gloves => Some(SmallPlaceholder)
    case Scarf => Some(SmallPlaceholder)
    case InsulatedBoots => Some(SmallPlaceholder)
    case LightGloves => Some(GlovesJpg)
    case Hat => Some(BeanieJpg)
    case LightScarf => Some(ScarfJpg)
    case SunHat => Some(SunHatJpg)
    case Raincoat => Some(RaincoatJpg)
    case Umbrella => Some(UmbrellaJpg)
    case WaterproofShoes => Some(WaterproofShoesJpg)
    case WaterproofBoots => Some(SnowBootsJpg)
    case WaterproofGloves => Some(WaterproofGlovesJpg)
    case Windbreaker => Some(WindbreakerJpg)
    case MoistureWicking => None
  }

  /** What the panel shows: the two layers, their pictures, and the accessory
      list with a separate picture list that the panel pairs with it by
      position (outfit-recommendation.tsx, lines 251-263). */
  datatype Outfit = Outfit(
    top: Top,
    bottom: Bottom,
    topImage: Image,
    bottomImage: Image,
    accessories: seq<Accessory>,
    accessoryImages: seq<Image>)

  /** The garments each band assigns before any condition is looked at,
      with the pictures the source pushes for them. The freezing band lists
      four accessories but pushes only three pictures. */
  function BaseOutfit(b: Band): Outfit {
    match b
    case Freezing =>
      Outfit(HeavyWinterCoat, ThermalUnderwear, LargePlaceholder, LargePlaceholder,
             [WarmHat, Gloves, Scarf, InsulatedBoots],
             [SmallPlaceholder, SmallPlaceholder, SmallPlaceholder])
    case Cold =>
      Outfit(WinterCoat, WarmPants, WinterCoatJpg, JeansJpg, [LightGloves, Hat], [GlovesJpg, BeanieJpg])
    case Cool =>
      Outfit(LightJacket, PantsOrJeans, LightJacketJpg, PantsJpg, [LightScarf], [ScarfJpg])
    case Mild =>
      Outfit(LongSleeve, PantsOrSkirt, LongSleeveJpg, PantsJpg, [], [])
    case Warm =>
      Outfit(TShirt, ShortsOrPants, TShirtJpg, ShortsJpg, [], [])
    case Hot =>
      Outfit(TankTop, ShortsOrSkirt, TankTopJpg, ShortsJpg, [SunHat], [SunHatJpg])
  }

  /** `xs` when `c` holds, nothing otherwise: one conditional `push`. */
  function When<T>(c: bool, xs: seq<T>): seq<T> {
    if c then xs else []
  }

  /** The accessories the condition rules append, rain, snow, wind and humid
      heat in that order. */
  function Extras(t: int, s: Signals): seq<Accessory> {
    When(s.raining, [Raincoat, Umbrella, WaterproofShoes])
    + When(s.snowing, [WaterproofBoots, WaterproofGloves])
    + When(s.windy, [Windbreaker])
    + When(HumidHeat(t, s), [MoistureWicking])
  }

  /** The pictures pushed alongside the appended accessories; the humid-heat
      advice has none. */
  function ExtraImages(s: Signals): seq<Image> {
    When(s.raining, [RaincoatJpg, UmbrellaJpg, WaterproofShoesJpg])
    + When(s.snowing, [SnowBootsJpg, WaterproofGlovesJpg])
    + When(s.windy, [WindbreakerJpg])
  }

  /** The outfit for a temperature and the five condition signals, exactly as
      the source builds it: the band's base garments, the appended
      accessories and pictures, and the humid-heat top. */
  function DressAsWritten(t: int, s: Signals): (r: Outfit)
    ensures var base := BaseOutfit(BandOf(t));
      && base.accessories <= r.accessories
      && base.accessoryImages <= r.accessoryImages
      && r.bottom == base.bottom
      && r.bottomImage == base.bottomImage
    ensures |r.accessoryImages| <= |r.accessories|
  {
    var base := BaseOutfit(BandOf(t));
    Outfit(
      if HumidHeat(t, s) then Breathable else base.top,
      base.bottom,
      if HumidHeat(t, s) then BreathableShirtJpg else base.topImage,
      base.bottomImage,
      base.accessories + Extras(t, s),
      base.accessoryImages + ExtraImages(s))
  }

  /** `getClothingRecommendations` as written. It gives the corrected
      outfit from 32 degrees up; below that only the picture list differs. */
  function RecommendAsWritten(w: Weather): (r: Outfit)
    ensures r == Recommend(w).(accessoryImages := r.accessoryImages)
    ensures r == Recommend(w) <==> w.temperature >= 32
  {
    DressAsWritten(w.temperature, SignalsOf(w))
  }

  /** When it is freezing and raining, the picture list is one short at the
      fourth position, so the panel shows the raincoat picture beside the
      insulated boots and the umbrella picture beside the raincoat. */
  lemma AsWrittenShiftsPictures(t: int, s: Signals)
    requires t < 32 && s.raining
    ensures var r := DressAsWritten(t, s);
      && r.accessories[3] == InsulatedBoots
      && r.accessoryImages[3] == RaincoatJpg
      && r.accessories[4] == Raincoat
      && r.accessoryImages[4] == UmbrellaJpg
  {
  }

  /** The pictures of a list of accessories, one per accessory that has one,
      in list order. */
  function Pictures(accessories: seq<Accessory>): (r: seq<Image>)
    ensures |r| <= |accessories|
  {
    if accessories == [] then []
    else match Picture(accessories[0])
      case Some(p) => [p] + Pictures(accessories[1..])
      case None => Pictures(accessories[1..])
  }

  /** The outfit with one picture per pictured accessory, so that the panel's
      pairing by position shows each accessory with its own picture. The
      garments and accessories are the source's; the outfit as a whole is
      the source's exactly when it is not freezing. */
  function Dress(t: int, s: Signals): (r: Outfit)
    ensures var written := DressAsWritten(t, s);
      && r.top == written.top && r.topImage == written.topImage
      && r.bottom == written.bottom && r.bottomImage == written.bottomImage
      && r.accessories == written.accessories
    ensures r == DressAsWritten(t, s) <==> t >= 32
  {
    var written := DressAsWritten(t, s);
    PicturesAsWritten(t, s);
    written.(accessoryImages := Pictures(written.accessories))
  }

  /** The source's picture list is the pictures of its accessories in every
      band but the freezing one, which is one picture short. */
  lemma PicturesAsWritten(t: int, s: Signals)
    ensures var written := DressAsWritten(t, s);
      && (t >= 32 ==> Pictures(written.accessories) == written.accessoryImages)
      && (t < 32 ==> |Pictures(written.accessories)| == |written.accessoryImages| + 1)
  {
    var base := BaseOutfit(BandOf(t));
    PicturesConcat(base.accessories, Extras(t, s));
    BasePictures(BandOf(t));
    ExtraPictures(t, s);
  }

  /** The pictures of two lists one after the other. */
  lemma {:induction false} PicturesConcat(a: seq<Accessory>, b: seq<Accessory>)
    ensures Pictures(a + b) == Pictures(a) + Pictures(b)
  {
    if a == [] {
      assert a + b == b;
    } else {
      assert (a + b)[0] == a[0];
      assert (a + b)[1..] == a[1..] + b;
      PicturesConcat(a[1..], b);
    }
  }

  /** Each band but the freezing one pushes one picture per accessory; the
      freezing band's fourth accessory has no picture pushed. */
  lemma BasePictures(b: Band)
    ensures b != Freezing ==> Pictures(BaseOutfit(b).accessories) == BaseOutfit(b).accessoryImages
    ensures b == Freezing ==>
      Pictures(BaseOutfit(b).accessories) == BaseOutfit(b).accessoryImages + [SmallPlaceholder]
  {
  }

  /** The condition rules push one picture per accessory that has one. */
  lemma ExtraPictures(t: int, s: Signals)
    ensures Pictures(Extras(t, s)) == ExtraImages(s)
  {
    var rain := When(s.raining, [Raincoat, Umbrella, WaterproofShoes]);
    var snow := When(s.snowing, [WaterproofBoots, WaterproofGloves]);
    var wind := When(s.windy, [Windbreaker]);
    var advice := When(HumidHeat(t, s), [MoistureWicking]);
    AddOnPictures();
    PicturesWhen(s.raining, [Raincoat, Umbrella, WaterproofShoes], [RaincoatJpg, UmbrellaJpg, WaterproofShoesJpg]);
    PicturesWhen(s.snowing, [WaterproofBoots, WaterproofGloves], [SnowBootsJpg, WaterproofGlovesJpg]);
    PicturesWhen(s.windy, [Windbreaker], [WindbreakerJpg]);
    PicturesWhen(HumidHeat(t, s), [MoistureWicking], []);
    PicturesOfFour(rain, snow, wind, advice);
  }

  /** The pictures of four lists pushed one after the other, the last of
      which has none. */
  lemma PicturesOfFour(a: seq<Accessory>, b: seq<Accessory>, c: seq<Accessory>, d: seq<Accessory>)
    requires Pictures(d) == []
    ensures Pictures(a + b + c + d) == Pictures(a) + Pictures(b) + Pictures(c)
  {
    PicturesConcat(a, b);
    PicturesConcat(a + b, c);
    PicturesConcat(a + b + c, d);
    var images := Pictures(a + b + c);
    assert images + [] == images;
  }

  /** The pictures of each rule's accessories. */
  lemma AddOnPictures()
    ensures Pictures([Raincoat, Umbrella, WaterproofShoes]) == [RaincoatJpg, UmbrellaJpg, WaterproofShoesJpg]
    ensures Pictures([WaterproofBoots, WaterproofGloves]) == [SnowBootsJpg, WaterproofGlovesJpg]
    ensures Pictures([Windbreaker]) == [WindbreakerJpg]
    ensures Pictures([MoistureWicking]) == []
  {
    RainPictures();
    SnowPictures();
  }

  lemma RainPictures()
    ensures Pictures([Raincoat, Umbrella, WaterproofShoes]) == [RaincoatJpg, UmbrellaJpg, WaterproofShoesJpg]
  {
  }

  lemma SnowPictures()
    ensures Pictures([WaterproofBoots, WaterproofGloves]) == [SnowBootsJpg, WaterproofGlovesJpg]
  {
  }

  /** A conditional push of accessories pushes their pictures under the
      same condition. */
  lemma PicturesWhen(c: bool, accessories: seq<Accessory>, images: seq<Image>)
    requires Pictures(accessories) == images
    ensures Pictures(When(c, accessories)) == When(c, images)
  {
  }

  /** `getClothingRecommendations` with the picture list corrected. */
  function Recommend(w: Weather): Outfit {
    Dress(w.temperature, SignalsOf(w))
  }

  /** Every accessory in the list has a picture. */
  predicate AllPictured(accessories: seq<Accessory>) {
    forall i :: 0 <= i < |accessories| ==> Picture(accessories[i]).Some?
  }

  /** When every accessory has a picture, the picture list pairs up with the
      accessories position by position. */
  lemma {:induction false} PicturesOfPictured(accessories: seq<Accessory>)
    requires AllPictured(accessories)
    ensures |Pictures(accessories)| == |accessories|
    ensures forall i :: 0 <= i < |accessories| ==> Picture(accessories[i]) == Some(Pictures(accessories)[i])
  {
    if accessories != [] {
      var rest := accessories[1..];
      assert AllPictured(rest) by {
        forall i | 0 <= i < |rest|
          ensures Picture(rest[i]).Some?
        {
          assert rest[i] == accessories[i + 1];
        }
      }
      PicturesOfPictured(rest);
    }
  }

  /** An accessory without a picture adds nothing to the picture list. */
  lemma {:induction false} PicturesSkipUnpictured(accessories: seq<Accessory>, a: Accessory)
    requires Picture(a).None?
    ensures Pictures(accessories + [a]) == Pictures(accessories)
  {
    if accessories == [] {
      assert Pictures([a]) == Pictures([a][1..]);
    } else {
      assert (accessories + [a])[1..] == accessories[1..] + [a];
      PicturesSkipUnpictured(accessories[1..], a);
    }
  }

  /** The accessories that come with a picture: all but the humid-heat
      advice. */
  function PicturedPart(t: int, s: Signals): seq<Accessory> {
    BaseOutfit(BandOf(t)).accessories
    + When(s.raining, [Raincoat, Umbrella, WaterproofShoes])
    + When(s.snowing, [WaterproofBoots, WaterproofGloves])
    + When(s.windy, [Windbreaker])
  }

  lemma AllPicturedConcat(a: seq<Accessory>, b: seq<Accessory>)
    requires AllPictured(a) && AllPictured(b)
    ensures AllPictured(a + b)
  {
    forall i | 0 <= i < |a + b|
      ensures Picture((a + b)[i]).Some?
    {
      if i < |a| {
        assert (a + b)[i] == a[i];
      } else {
        assert (a + b)[i] == b[i - |a|];
      }
    }
  }

  lemma PicturedPartIsPictured(t: int, s: Signals)
    ensures AllPictured(PicturedPart(t, s))
  {
    var base := BaseOutfit(BandOf(t)).accessories;
    var rain := When(s.raining, [Raincoat, Umbrella, WaterproofShoes]);
    var snow := When(s.snowing, [WaterproofBoots, WaterproofGloves]);
    var wind := When(s.windy, [Windbreaker]);
    assert AllPictured(base);
    AllPicturedConcat(base, rain);
    AllPicturedConcat(base + rain, snow);
    AllPicturedConcat(base + rain + snow, wind);
  }

  lemma DressSplitsAtAdvice(t: int, s: Signals)
    ensures Dress(t, s).accessories == PicturedPart(t, s) + When(HumidHeat(t, s), [MoistureWicking])
  {
    var base := BaseOutfit(BandOf(t)).accessories;
    var rain := When(s.raining, [Raincoat, Umbrella, WaterproofShoes]);
    var snow := When(s.snowing, [WaterproofBoots, WaterproofGloves]);
    var wind := When(s.windy, [Windbreaker]);
    var advice := When(HumidHeat(t, s), [MoistureWicking]);
    DressAccessories(t, s);
    AppendFour(base, rain, snow, wind, advice);
  }

  lemma AppendFour<T>(base: seq<T>, a: seq<T>, b: seq<T>, c: seq<T>, d: seq<T>)
    ensures base + (a + b + c + d) == base + a + b + c + d
  {
  }

  /** The corrected outfit keeps the accessories as written: the band's list,
      then the condition rules' additions. */
  lemma DressAccessories(t: int, s: Signals)
    ensures Dress(t, s).accessories == BaseOutfit(BandOf(t)).accessories + Extras(t, s)
  {
    assert Dress(t, s).accessories == DressAsWritten(t, s).accessories;
  }

  /** In the corrected outfit every picture sits beside its own accessory,
      and only the moisture-wicking advice goes without one. */
  lemma PicturesMatchAccessories(t: int, s: Signals)
    ensures var r := Dress(t, s);
      && |r.accessoryImages| == |r.accessories| - (if HumidHeat(t, s) then 1 else 0)
      && forall i :: 0 <= i < |r.accessoryImages| ==> Picture(r.accessories[i]) == Some(r.accessoryImages[i])
  {
    var p := PicturedPart(t, s);
    PicturedPartIsPictured(t, s);
    DressSplitsAtAdvice(t, s);
    PicturesOfPictured(p);
    if HumidHeat(t, s) {
      PicturesSkipUnpictured(p, MoistureWicking);
    } else {
      assert Dress(t, s).accessories == p;
    }
  }

  /** The conditions the add-on rules test. */
  datatype Cause = Rain | Snow | Wind | HumidHeatRule

  predicate Applies(c: Cause, t: int, s: Signals) {
    match c
    case Rain => s.raining
    case Snow => s.snowing
    case Wind => s.windy
    case HumidHeatRule => HumidHeat(t, s)
  }

  /** The condition rules as an ordered table: each entry names a condition
      and the accessories it appends. */
  datatype Rule = Rule(cause: Cause, items: seq<Accessory>)

  const AddOnRules: seq<Rule> := [
    Rule(Rain, [Raincoat, Umbrella, WaterproofShoes]),
    Rule(Snow, [WaterproofBoots, WaterproofGloves]),
    Rule(Wind, [Windbreaker]),
    Rule(HumidHeatRule, [MoistureWicking])
  ]

  /** Evaluates a rule table top to bottom, appending the items of every rule
      whose condition applies. */
  function AddOns(rules: seq<Rule>, t: int, s: Signals): seq<Accessory> {
    if rules == [] then []
    else When(Applies(rules[0].cause, t, s), rules[0].items) + AddOns(rules[1..], t, s)
  }

  /** The accessories are the band's base list followed by exactly what the
      rule table appends, in table order: nothing is ever removed or
      reordered. */
  lemma AccessoriesFollowRuleTable(t: int, s: Signals)
    ensures Dress(t, s).accessories == BaseOutfit(BandOf(t)).accessories + AddOns(AddOnRules, t, s)
  {
    DressAccessories(t, s);
    RuleTableYieldsExtras(AddOnRules, t, s);
  }

  lemma RuleTableYieldsExtras(rules: seq<Rule>, t: int, s: Signals)
    requires rules == AddOnRules
    ensures AddOns(rules, t, s) == Extras(t, s)
  {
    var r1, r2, r3 := rules[1..], rules[2..], rules[3..];
    assert r1[1..] == r2 && r2[1..] == r3 && r3[1..] == [];
    AddOnsStep(r3, t, s);
    AddOnsStep(r2, t, s);
    AddOnsStep(r1, t, s);
    AddOnsStep(rules, t, s);
    var a, b, c, d :=
      When(s.raining, [Raincoat, Umbrella, WaterproofShoes]), When(s.snowing, [WaterproofBoots, WaterproofGloves]),
      When(s.windy, [Windbreaker]), When(HumidHeat(t, s), [MoistureWicking]);
    assert a + (b + (c + d)) == a + b + c + d;
  }

  /** One step of the table walk. */
  lemma AddOnsStep(rules: seq<Rule>, t: int, s: Signals)
    requires rules != []
    ensures AddOns(rules, t, s) == When(Applies(rules[0].cause, t, s), rules[0].items) + AddOns(rules[1..], t, s)
  {
  }

  /** The accessories only the condition rules add. */
  predicate IsAddOn(a: Accessory) {
    a.Raincoat? || a.Umbrella? || a.WaterproofShoes? || a.WaterproofBoots? || a.WaterproofGloves?
    || a.Windbreaker? || a.MoistureWicking?
  }

  /** No band's base list holds an add-on, so an add-on is in the outfit
      exactly when the rules appended it. */
  lemma AddOnComesFromRules(t: int, s: Signals)
    ensures forall a :: IsAddOn(a) ==> (a in Dress(t, s).accessories <==> a in Extras(t, s))
  {
    var base := BaseOutfit(BandOf(t)).accessories;
    assert forall a :: IsAddOn(a) ==> a !in base;
    DressAccessories(t, s);
  }

  /** Rain, showers or drizzle add all three pieces of rain gear, whatever
      the band, and rain gear appears only then. */
  lemma RainGearIffRaining(t: int, s: Signals)
    ensures var accs := Dress(t, s).accessories;
      && (Raincoat in accs <==> s.raining)
      && (Umbrella in accs <==> s.raining)
      && (WaterproofShoes in accs <==> s.raining)
  {
    AddOnIn(t, s, Raincoat);
    AddOnIn(t, s, Umbrella);
    AddOnIn(t, s, WaterproofShoes);
  }

  /** On the panel's weather record: a condition mentioning rain, showers or
      drizzle brings all three pieces of rain gear, and nothing else does. */
  lemma RainWordsBringRainGear(w: Weather)
    ensures var accs := Recommend(w).accessories;
      var rainy := Contains(Lower(w.condition), "rain") || Contains(Lower(w.condition), "shower")
        || Contains(Lower(w.condition), "drizzle");
      && (Raincoat in accs <==> rainy)
      && (Umbrella in accs <==> rainy)
      && (WaterproofShoes in accs <==> rainy)
  {
    RainGearIffRaining(w.temperature, SignalsOf(w));
  }

  /** One add-on is in the outfit exactly when its rule fired. */
  lemma AddOnIn(t: int, s: Signals, a: Accessory)
    requires IsAddOn(a)
    ensures a in Dress(t, s).accessories <==> a in Extras(t, s)
    ensures a in Extras(t, s) <==>
      || (s.raining && (a == Raincoat || a == Umbrella || a == WaterproofShoes))
      || (s.snowing && (a == WaterproofBoots || a == WaterproofGloves))
      || (s.windy && a == Windbreaker)
      || (HumidHeat(t, s) && a == MoistureWicking)
  {
    AddOnComesFromRules(t, s);
    InWhen(s.raining, [Raincoat, Umbrella, WaterproofShoes], a);
    InWhen(s.snowing, [WaterproofBoots, WaterproofGloves], a);
    InWhen(s.windy, [Windbreaker], a);
    InWhen(HumidHeat(t, s), [MoistureWicking], a);
  }

  lemma InWhen<T>(c: bool, xs: seq<T>, x: T)
    ensures x in When(c, xs) <==> c && x in xs
  {
  }

  /** Snow or flurries add the waterproof boots and gloves, and only then. */
  lemma SnowGearIffSnowing(t: int, s: Signals)
    ensures var accs := Dress(t, s).accessories;
      && (WaterproofBoots in accs <==> s.snowing)
      && (WaterproofGloves in accs <==> s.snowing)
  {
    AddOnIn(t, s, WaterproofBoots);
    AddOnIn(t, s, WaterproofGloves);
  }

  /** The windbreaker is added exactly when the wind is above 15 mph; 15 mph
      itself adds nothing and 16 mph adds it. */
  lemma WindbreakerIffWindy(w: Weather)
    ensures Windbreaker in Recommend(w).accessories <==> w.windSpeed > 15
    ensures w.windSpeed == 15 ==> Windbreaker !in Recommend(w).accessories
    ensures w.windSpeed == 16 ==> Windbreaker in Recommend(w).accessories
  {
    var s := SignalsOf(w);
    assert s.windy <==> w.windSpeed > 15;
    WindbreakerIffSignal(w.temperature, s);
  }

  lemma WindbreakerIffSignal(t: int, s: Signals)
    ensures Windbreaker in Dress(t, s).accessories <==> s.windy
  {
    AddOnIn(t, s, Windbreaker);
  }

  /** The humid-heat rule replaces the top layer and leaves the bottom
      alone; otherwise the band's top stands. */
  lemma HumidHeatOverridesTop(t: int, s: Signals)
    ensures var base := BaseOutfit(BandOf(t));
      && (s.humid && t > 70 ==> Dress(t, s).top == Breathable)
      && (!(s.humid && t > 70) ==> Dress(t, s).top == base.top)
      && Dress(t, s).bottom == base.bottom
  {
  }

  /** The moisture-wicking advice is given exactly in humid heat: no band
      includes it and only the humid-heat rule appends it. */
  lemma MoistureWickingIffHumidHeat(t: int, s: Signals)
    ensures MoistureWicking in Dress(t, s).accessories <==> s.humid && t > 70
  {
    AddOnIn(t, s, MoistureWicking);
  }

  /** As written, accessory pictures fall short of the accessories by one for
      the freezing band (four items, three pictures) and one for the
      humid-heat advice (no picture at all). */
  lemma AsWrittenImageShortfall(t: int, s: Signals)
    ensures |DressAsWritten(t, s).accessories| - |DressAsWritten(t, s).accessoryImages|
         == (if t < 32 then 1 else 0) + (if s.humid && t > 70 then 1 else 0)
  {
  }

  /** Below freezing the top layer is the heavy winter coat, since the
      humid-heat rule needs more than 70 degrees. */
  lemma FreezingTopIsWinterCoat(t: int, s: Signals)
    requires t < 32
    ensures Dress(t, s).top == HeavyWinterCoat
    ensures Contains(TopText(Dress(t, s).top), "Heavy winter coat")
  {
    ContainsAt(TopText(HeavyWinterCoat), "Heavy winter coat", 0);
  }

  /** At 85 degrees and above the top layer is breathable whichever rule set
      it, and a sun hat is among the accessories. */
  lemma HotTopIsBreathable(t: int, s: Signals)
    requires t >= 85
    ensures Contains(TopText(Dress(t, s).top), "breathable")
    ensures SunHat in Dress(t, s).accessories
  {
    TopMentionsBreathable(Dress(t, s).top);
  }

  /** Both hot-weather tops say "breathable". */
  lemma TopMentionsBreathable(top: Top)
    requires top == TankTop || top == Breathable
    ensures Contains(TopText(top), "breathable")
  {
    var text := TopText(top);
    if top == Breathable {
      assert text == "Light, breathable clothing";
      assert text[7..17] == "breathable";
    } else {
      assert text == "Light, breathable t-shirt or tank top";
      assert text[..17] == "Light, breathable";
    }
    ContainsAt(text, "breathable", 7);
  }
}
