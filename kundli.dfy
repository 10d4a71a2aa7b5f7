/**
 * The simplified Kundli (Ashtakoot) matching of utils/horoscope-matching.ts:
 * eight sub-scores of two signs, whose sum `guna` (out of 36) is banded and
 * paired with a Mangal Dosha flag and recommendations.
 */
module Kundli {
  import opened Zodiac

  /**
   * The random draws of a Kundli match: whether `Math.random() > 0.5` in
   * calculateVashya, and the integers `Math.floor(Math.random() * 3)` of
   * calculateYoni and calculateGraha.
   */
  datatype KundliDraws = KundliDraws(vashyaAbove: bool, yoni: int, graha: int)

  predicate ValidKundliDraws(d: KundliDraws)
  {
    0 <= d.yoni < 3 && 0 <= d.graha < 3
  }

  // ---------------------------------------------------------------------------
  // Varna (1 point)

  /** varnaMap: the rank of an element. Every element has one, so the `|| 1` fallback never applies. */
  function VarnaRank(e: Element): int
  {
    match e
    case Fire => 4
    case Air => 3
    case Water => 2
    case Earth => 1
  }

  /** calculateVarna: one point when the first element ranks at least as high as the second. */
  function Varna(element1: Element, element2: Element): (r: real)
    ensures 0.0 <= r <= 1.0
  {
    if VarnaRank(element1) >= VarnaRank(element2) then 1.0 else 0.0
  }

  /**
   * Varna is one-sided: of the two orders of a pair, at least one scores the
   * point, and both do exactly when the elements are the same.
   */
  lemma VarnaOneSided(element1: Element, element2: Element)
    ensures Varna(element1, element2) == 1.0 || Varna(element2, element1) == 1.0
    ensures Varna(element1, element2) == 1.0 && Varna(element2, element1) == 1.0 <==> element1 == element2
    ensures 0.0 <= Varna(element1, element2) <= 1.0
  {
  }

  // ---------------------------------------------------------------------------
  // Vashya (2 points)

  /** vashyaGroups, in insertion order: Chatuspad, Jalchar, Manav, Vanchar. */
  const VashyaGroups: seq<seq<Sign>> := [
    [Aries, Taurus, Leo, Sagittarius],
    [Cancer, Scorpio, Pisces],
    [Gemini, Virgo, Libra, Aquarius],
    [Capricorn]]

  /** Some Vashya group contains both signs. */
  predicate ShareVashyaGroup(sign1: Sign, sign2: Sign)
  {
    exists i :: 0 <= i < |VashyaGroups| && sign1 in VashyaGroups[i] && sign2 in VashyaGroups[i]
  }

  /** The Vashya points: 2 for a shared group, otherwise 1 or 0 by the draw. */
  function Vashya(sign1: Sign, sign2: Sign, above: bool): (r: real)
    ensures 0.0 <= r <= 2.0
  {
    if ShareVashyaGroup(sign1, sign2) then 2.0 else if above then 1.0 else 0.0
  }

  /** calculateVashya: scan the groups in order and stop at the first one holding both signs. */
  method CalculateVashya(sign1: Sign, sign2: Sign, above: bool) returns (points: real)
    ensures points == Vashya(sign1, sign2, above)
  {
    var i := 0;
    while i < |VashyaGroups|
      invariant 0 <= i <= |VashyaGroups|
      invariant forall j :: 0 <= j < i ==> !(sign1 in VashyaGroups[j] && sign2 in VashyaGroups[j])
    {
      var group := VashyaGroups[i];
      if sign1 in group && sign2 in group {
        return 2.0;
      }
      i := i + 1;
    }
    points := if above then 1.0 else 0.0;
  }

  /** The group of a sign, by position in VashyaGroups. */
  function VashyaGroupOf(s: Sign): (i: nat)
    ensures i < |VashyaGroups| && s in VashyaGroups[i]
  {
    match s
    case Aries => 0 case Taurus => 0 case Leo => 0 case Sagittarius => 0
    case Cancer => 1 case Scorpio => 1 case Pisces => 1
    case Gemini => 2 case Virgo => 2 case Libra => 2 case Aquarius => 2
    case Capricorn => 3
  }

  /**
   * The groups partition the zodiac: every sign lies in exactly one group, so
   * two signs share a group exactly when their groups are the same one.
   */
  lemma VashyaGroupsPartition(s: Sign, i: int)
    requires 0 <= i < |VashyaGroups|
    ensures s in VashyaGroups[i] <==> i == VashyaGroupOf(s)
  {
  }

  /** Two signs share a Vashya group exactly when their groups coincide; in particular a sign shares one with itself. */
  lemma {:induction false} ShareVashyaGroupByGroup(sign1: Sign, sign2: Sign)
    ensures ShareVashyaGroup(sign1, sign2) <==> VashyaGroupOf(sign1) == VashyaGroupOf(sign2)
  {
    if ShareVashyaGroup(sign1, sign2) {
      var i :| 0 <= i < |VashyaGroups| && sign1 in VashyaGroups[i] && sign2 in VashyaGroups[i];
      VashyaGroupsPartition(sign1, i);
      VashyaGroupsPartition(sign2, i);
    } else {
      var i := VashyaGroupOf(sign1);
      VashyaGroupsPartition(sign2, i);
    }
  }

  // ---------------------------------------------------------------------------
  // Tara (3 points)

  /** `Math.abs(index1 - index2)` for the positions of two signs in the zodiac order. */
  function SignDistance(sign1: Sign, sign2: Sign): (r: nat)
    ensures r < 12
  {
    if Ordinal(sign1) >= Ordinal(sign2) then Ordinal(sign1) - Ordinal(sign2) else Ordinal(sign2) - Ordinal(sign1)
  }

  /** calculateTara: 3 for an even nonzero distance, 1.5 for an odd one, 0 otherwise. */
  function Tara(sign1: Sign, sign2: Sign): (r: real)
    ensures 0.0 <= r <= 3.0
  {
    TaraOfDistance(SignDistance(sign1, sign2))
  }

  /** The Tara points of a distance. */
  function TaraOfDistance(difference: int): (r: real)
    ensures 0.0 <= r <= 3.0
  {
    if difference in [2, 4, 6, 8, 10] then 3.0
    else if difference in [1, 3, 5, 7, 9, 11] then 1.5
    else 0.0
  }

  /** Over the distances 0 to 11, Tara is 0 for 0, 3 for an even distance and 1.5 for an odd one. */
  lemma TaraOfDistanceValues(difference: int)
    requires 0 <= difference < 12
    ensures difference == 0 ==> TaraOfDistance(difference) == 0.0
    ensures difference != 0 && difference % 2 == 0 ==> TaraOfDistance(difference) == 3.0
    ensures difference % 2 == 1 ==> TaraOfDistance(difference) == 1.5
  {
  }

  /** The distance of two signs is symmetric and is 0 exactly for a sign with itself. */
  lemma SignDistanceZero(sign1: Sign, sign2: Sign)
    ensures SignDistance(sign1, sign2) == SignDistance(sign2, sign1)
    ensures SignDistance(sign1, sign2) == 0 <==> sign1 == sign2
  {
    if Ordinal(sign1) == Ordinal(sign2) {
      assert AllSigns[Ordinal(sign1)] == sign1 && AllSigns[Ordinal(sign2)] == sign2;
    }
  }

  /**
   * Tara takes only the values 0, 1.5 and 3; it is 0 exactly for a sign
   * matched with itself, 3 exactly for an even distance, and does not depend
   * on the order of the signs.
   */
  lemma TaraValues(sign1: Sign, sign2: Sign)
    ensures Tara(sign1, sign2) == 0.0 || Tara(sign1, sign2) == 1.5 || Tara(sign1, sign2) == 3.0
    ensures Tara(sign1, sign2) == 0.0 <==> sign1 == sign2
    ensures Tara(sign1, sign2) == 3.0 <==> sign1 != sign2 && SignDistance(sign1, sign2) % 2 == 0
    ensures Tara(sign1, sign2) == Tara(sign2, sign1)
  {
    SignDistanceZero(sign1, sign2);
    TaraOfDistanceValues(SignDistance(sign1, sign2));
  }

  // ---------------------------------------------------------------------------
  // Yoni (4 points)

  /** yoniMap: one name per sign. */
  function YoniName(s: Sign): string
  {
    match s
    case Aries => "Mesha" case Taurus => "Vrishabha" case Gemini => "Mithuna"
    case Cancer => "Karka" case Leo => "Simha" case Virgo => "Kanya"
    case Libra => "Tula" case Scorpio => "Vrishchika" case Sagittarius => "Dhanu"
    case Capricorn => "Makara" case Aquarius => "Kumbha" case Pisces => "Meena"
  }

  /** calculateYoni: 4 for equal yoni names, otherwise 1 to 3 by the draw. */
  function Yoni(sign1: Sign, sign2: Sign, draw: int): (r: real)
    ensures 0 <= draw < 3 ==> 1.0 <= r <= 4.0
  {
    if YoniName(sign1) == YoniName(sign2) then 4.0 else (draw + 1) as real
  }

  /** No two signs share a yoni name, so Yoni scores 4 exactly for a sign with itself and 1 to 3 otherwise. */
  lemma YoniScore(sign1: Sign, sign2: Sign, draw: int)
    requires 0 <= draw < 3
    ensures YoniName(sign1) == YoniName(sign2) <==> sign1 == sign2
    ensures Yoni(sign1, sign2, draw) == 4.0 <==> sign1 == sign2
  {
  }

  // ---------------------------------------------------------------------------
  // Graha (5 points)

  /** friendlyPlanets: the friends listed under a planet name, if it has an entry. */
  function FriendlyPlanets(planet: string): seq<string>
  {
    if planet == "Sun" then ["Mars", "Jupiter"]
    else if planet == "Moon" then ["Mercury", "Venus"]
    else if planet == "Mars" then ["Sun", "Jupiter"]
    else if planet == "Mercury" then ["Moon", "Venus"]
    else if planet == "Jupiter" then ["Sun", "Mars"]
    else if planet == "Venus" then ["Moon", "Mercury"]
    else if planet == "Saturn" then ["Mercury", "Venus"]
    else []
  }

  /**
   * calculateGraha: 5 for the same planet, 4 when the second is listed as a
   * friend of the first (a planet without an entry has no friends, the
   * `?.includes` giving undefined), otherwise 1 to 3 by the draw.
   */
  function Graha(planet1: string, planet2: string, draw: int): (r: real)
    ensures 0 <= draw < 3 ==> 1.0 <= r <= 5.0
  {
    if planet1 == planet2 then 5.0
    else if planet2 in FriendlyPlanets(planet1) then 4.0
    else (draw + 1) as real
  }

  /** Graha is 5 exactly for equal planets. */
  lemma GrahaSamePlanet(planet1: string, planet2: string, draw: int)
    requires 0 <= draw < 3
    ensures Graha(planet1, planet2, draw) == 5.0 <==> planet1 == planet2
  {
  }

  /**
   * The friendship list is one-sided for Saturn: Saturn counts Mercury and
   * Venus as friends, but neither of them lists Saturn; nor do Uranus,
   * Neptune and Pluto, which have no entry, count anyone as a friend.
   */
  lemma GrahaOneSided(draw: int)
    requires 0 <= draw < 3
    ensures Graha("Saturn", "Venus", draw) == 4.0 && Graha("Venus", "Saturn", draw) < 4.0
    ensures Graha("Saturn", "Mercury", draw) == 4.0 && Graha("Mercury", "Saturn", draw) < 4.0
    ensures forall p :: p != "Uranus" ==> Graha("Uranus", p, draw) < 4.0
    ensures forall p :: p != "Neptune" ==> Graha("Neptune", p, draw) < 4.0
    ensures forall p :: p != "Pluto" ==> Graha("Pluto", p, draw) < 4.0
  {
  }

  // ---------------------------------------------------------------------------
  // Gana (6 points)

  datatype Gana = Deva | Manushya | Rakshasa

  /** ganaMap. */
  function GanaOf(s: Sign): Gana
  {
    match s
    case Aries => Rakshasa case Taurus => Manushya case Gemini => Deva
    case Cancer => Deva case Leo => Rakshasa case Virgo => Manushya
    case Libra => Rakshasa case Scorpio => Rakshasa case Sagittarius => Deva
    case Capricorn => Rakshasa case Aquarius => Deva case Pisces => Deva
  }

  /** calculateGana: 6 for the same gana, 5 for Deva with Manushya, otherwise 1. */
  function GanaScore(sign1: Sign, sign2: Sign): (r: real)
    ensures 1.0 <= r <= 6.0
  {
    var gana1 := GanaOf(sign1);
    var gana2 := GanaOf(sign2);
    if gana1 == gana2 then 6.0
    else if (gana1 == Deva && gana2 == Manushya) || (gana1 == Manushya && gana2 == Deva) then 5.0
    else 1.0
  }

  /** Gana is symmetric, takes only the values 1, 5 and 6, and is 1 exactly when a Rakshasa meets another gana. */
  lemma GanaValues(sign1: Sign, sign2: Sign)
    ensures GanaScore(sign1, sign2) == GanaScore(sign2, sign1)
    ensures GanaScore(sign1, sign2) in {1.0, 5.0, 6.0}
    ensures GanaScore(sign1, sign2) == 1.0 <==>
      GanaOf(sign1) != GanaOf(sign2) && (GanaOf(sign1) == Rakshasa || GanaOf(sign2) == Rakshasa)
  {
  }

  // ---------------------------------------------------------------------------
  // Rashi (7 points)

  /** calculateRashi: 7 for opposite signs, 4 for a distance of 2, 4, 8 or 10, otherwise 2. */
  function Rashi(sign1: Sign, sign2: Sign): (r: real)
    ensures 2.0 <= r <= 7.0
  {
    var difference := SignDistance(sign1, sign2);
    if difference == 6 then 7.0
    else if difference in [2, 4, 8, 10] then 4.0
    else 2.0
  }

  /** Rashi is symmetric, takes only the values 2, 4 and 7, and is 7 exactly for signs six apart. */
  lemma RashiValues(sign1: Sign, sign2: Sign)
    ensures Rashi(sign1, sign2) == Rashi(sign2, sign1)
    ensures Rashi(sign1, sign2) in {2.0, 4.0, 7.0}
    ensures Rashi(sign1, sign2) == 7.0 <==> SignDistance(sign1, sign2) == 6
  {
  }

  // ---------------------------------------------------------------------------
  // Nadi (8 points)

  datatype Nadi = Adi | Madhya | Antya

  /** nadiMap. */
  function NadiOf(s: Sign): Nadi
  {
    match s
    case Aries => Madhya case Taurus => Antya case Gemini => Adi
    case Cancer => Adi case Leo => Madhya case Virgo => Antya
    case Libra => Madhya case Scorpio => Antya case Sagittarius => Adi
    case Capricorn => Antya case Aquarius => Adi case Pisces => Madhya
  }

  /** calculateNadi: 8 for different nadis, 0 for the same. */
  function NadiScore(sign1: Sign, sign2: Sign): (r: real)
    ensures 0.0 <= r <= 8.0
  {
    if NadiOf(sign1) != NadiOf(sign2) then 8.0 else 0.0
  }

  /** Nadi is symmetric, takes only the values 0 and 8, and is 0 for a sign matched with itself. */
  lemma NadiValues(sign1: Sign, sign2: Sign)
    ensures NadiScore(sign1, sign2) == NadiScore(sign2, sign1)
    ensures NadiScore(sign1, sign2) == 0.0 || NadiScore(sign1, sign2) == 8.0
    ensures NadiScore(sign1, sign1) == 0.0
  {
  }

  // ---------------------------------------------------------------------------
  // Mangal Dosha and the total

  /** mangalSigns. */
  const MangalSigns: seq<Sign> := [Aries, Scorpio, Cancer, Leo, Sagittarius, Capricorn]

  /** checkMangalDosha: present when one sign has Mangal, cancelled when both do. */
  function CheckMangalDosha(sign1: Sign, sign2: Sign): bool
  {
    var sign1HasMangal := sign1 in MangalSigns;
    var sign2HasMangal := sign2 in MangalSigns;
    if sign1HasMangal && sign2HasMangal then false
    else sign1HasMangal || sign2HasMangal
  }

  /** Mangal Dosha holds exactly when one of the two signs, and not the other, is a Mangal sign. */
  lemma MangalDoshaExactlyOne(sign1: Sign, sign2: Sign)
    ensures CheckMangalDosha(sign1, sign2) <==> (sign1 in MangalSigns) != (sign2 in MangalSigns)
    ensures CheckMangalDosha(sign1, sign2) == CheckMangalDosha(sign2, sign1)
    ensures !CheckMangalDosha(sign1, sign1)
  {
  }

  /** Two Mangal signs cancel out: Aries with Cancer has no dosha, Aries with Taurus has one. */
  lemma MangalDoshaExamples()
    ensures !CheckMangalDosha(Aries, Cancer)
    ensures CheckMangalDosha(Aries, Taurus)
  {
  }

  /** The five compatibility labels of a Kundli match. */
  datatype KundliBand = Excellent | VeryGood | Good | Average | Poor

  /** The band of a guna total, at 28, 24, 18 and 12. */
  function KundliBandOf(guna: real): KundliBand
  {
    if guna >= 28.0 then Excellent
    else if guna >= 24.0 then VeryGood
    else if guna >= 18.0 then Good
    else if guna >= 12.0 then Average
    else Poor
  }

  /** The position of a band, best first. */
  function KundliBandRank(b: KundliBand): nat
  {
    match b
    case Excellent => 0 case VeryGood => 1 case Good => 2 case Average => 3 case Poor => 4
  }

  /** A higher guna never gets a worse band; 28 is Excellent while 27.5 is only Very Good. */
  lemma KundliBandMonotone(x: real, y: real)
    requires x <= y
    ensures KundliBandRank(KundliBandOf(y)) <= KundliBandRank(KundliBandOf(x))
    ensures KundliBandOf(28.0) == Excellent && KundliBandOf(27.5) == VeryGood
  {
  }

  /** getKundliRecommendations: two by band, and two more when Mangal Dosha is present. */
  function KundliRecommendations(guna: real, mangalDosha: bool): (r: seq<string>)
    ensures |r| == if mangalDosha then 4 else 2
    ensures r[..2] == BandRecommendations(KundliBandOf(guna))
    ensures mangalDosha ==> r[2..] == DoshaRecommendations
  {
    var byBand :=
      if guna >= 28.0 then ExcellentKundliRecommendations
      else if guna >= 24.0 then VeryGoodKundliRecommendations
      else if guna >= 18.0 then GoodKundliRecommendations
      else if guna >= 12.0 then AverageKundliRecommendations
      else PoorKundliRecommendations;
    if mangalDosha then byBand + DoshaRecommendations else byBand
  }

  /** The two recommendations of each band. */
  function BandRecommendations(b: KundliBand): (r: seq<string>)
    ensures |r| == 2
  {
    match b
    case Excellent => ExcellentKundliRecommendations
    case VeryGood => VeryGoodKundliRecommendations
    case Good => GoodKundliRecommendations
    case Average => AverageKundliRecommendations
    case Poor => PoorKundliRecommendations
  }

  const ExcellentKundliRecommendations: seq<string> :=
    ["Excellent match for marriage", "Very high compatibility in all aspects"]
  const VeryGoodKundliRecommendations: seq<string> :=
    ["Very good match with minor adjustments needed", "Strong potential for successful marriage"]
  const GoodKundliRecommendations: seq<string> :=
    ["Good match but requires understanding and compromise", "Focus on communication and shared goals"]
  const AverageKundliRecommendations: seq<string> :=
    ["Average compatibility - proceed with caution", "Consider pre-marital counseling"]
  const PoorKundliRecommendations: seq<string> :=
    ["Poor compatibility - marriage not recommended", "Significant challenges expected"]
  const DoshaRecommendations: seq<string> :=
    ["Mangal Dosha present - consult with astrologer for remedies", "Consider performing recommended rituals before marriage"]

  /** The eight sub-scores, with their maxima 1 to 8 in this order. */
  datatype AshtakootScores = AshtakootScores(
    varna: real, vashya: real, tara: real, yoni: real, graha: real, gana: real, rashi: real, nadi: real)

  /** KundliMatchingScore. */
  datatype KundliMatchingScore = KundliMatchingScore(
    guna: real, compatibility: KundliBand, mangalDosha: bool,
    recommendations: seq<string>, detailedScores: AshtakootScores)

  /** The sum of the eight sub-scores. */
  function Total(s: AshtakootScores): real
  {
    s.varna + s.vashya + s.tara + s.yoni + s.graha + s.gana + s.rashi + s.nadi
  }

  /** Each sub-score lies between 0 and its maximum. */
  predicate WithinMaxima(s: AshtakootScores)
  {
    0.0 <= s.varna <= 1.0 && 0.0 <= s.vashya <= 2.0 && 0.0 <= s.tara <= 3.0 && 0.0 <= s.yoni <= 4.0 &&
    0.0 <= s.graha <= 5.0 && 0.0 <= s.gana <= 6.0 && 0.0 <= s.rashi <= 7.0 && 0.0 <= s.nadi <= 8.0
  }

  /**
   * The eight sub-scores of calculateKundliMatching, each within its maximum;
   * their total is at least 5, since yoni, graha and gana give at least 1 and
   * rashi at least 2. The element and ruling planet are the zodiac table's.
   */
  function Ashtakoot(userSign: Sign, partnerSign: Sign, d: KundliDraws): (s: AshtakootScores)
    requires ValidKundliDraws(d)
    ensures WithinMaxima(s)
    ensures 5.0 <= Total(s) <= 36.0
  {
    AshtakootScores(
      Varna(ElementOf(userSign), ElementOf(partnerSign)),
      Vashya(userSign, partnerSign, d.vashyaAbove),
      Tara(userSign, partnerSign),
      Yoni(userSign, partnerSign, d.yoni),
      Graha(RulingPlanet(userSign), RulingPlanet(partnerSign), d.graha),
      GanaScore(userSign, partnerSign),
      Rashi(userSign, partnerSign),
      NadiScore(userSign, partnerSign))
  }

  /**
   * calculateKundliMatching: guna is the total of the sub-scores, banded, with
   * the Mangal Dosha flag and the recommendations for both. The birth times it
   * accepts are unused there and are left out here.
   */
  function CalculateKundliMatching(userSign: Sign, partnerSign: Sign, d: KundliDraws): (r: KundliMatchingScore)
    requires ValidKundliDraws(d)
    ensures WithinMaxima(r.detailedScores)
    ensures r.guna == Total(r.detailedScores)
    ensures 5.0 <= r.guna <= 36.0
    ensures r.compatibility == KundliBandOf(r.guna)
    ensures r.mangalDosha <==> (userSign in MangalSigns) != (partnerSign in MangalSigns)
    ensures r.recommendations == KundliRecommendations(r.guna, r.mangalDosha)
    ensures |r.recommendations| == if r.mangalDosha then 4 else 2
  {
    MangalDoshaExactlyOne(userSign, partnerSign);
    var scores := Ashtakoot(userSign, partnerSign, d);
    var totalGuna := Total(scores);
    var mangalDosha := CheckMangalDosha(userSign, partnerSign);
    KundliMatchingScore(
      totalGuna, KundliBandOf(totalGuna), mangalDosha,
      KundliRecommendations(totalGuna, mangalDosha), scores)
  }

  /**
   * A sign matched with itself is fully determined whatever the draws:
   * varna 1, vashya 2, tara 0, yoni 4, graha 5, gana 6, rashi 2, nadi 0,
   * so guna 20, band Good and no dosha.
   */
  lemma KundliOfSameSign(s: Sign, d: KundliDraws)
    requires ValidKundliDraws(d)
    ensures CalculateKundliMatching(s, s, d).detailedScores == AshtakootScores(1.0, 2.0, 0.0, 4.0, 5.0, 6.0, 2.0, 0.0)
    ensures CalculateKundliMatching(s, s, d).guna == 20.0
    ensures CalculateKundliMatching(s, s, d).compatibility == Good
    ensures !CalculateKundliMatching(s, s, d).mangalDosha
  {
    ShareVashyaGroupByGroup(s, s);
    TaraValues(s, s);
    assert Ashtakoot(s, s, d) == AshtakootScores(1.0, 2.0, 0.0, 4.0, 5.0, 6.0, 2.0, 0.0);
  }

  /**
   * guna need not be a whole number: Aries with Taurus are one sign apart,
   * so their tara is 1.5 and their guna ends in a half.
   */
  lemma GunaCanBeHalfInteger(d: KundliDraws)
    requires ValidKundliDraws(d)
    ensures Ashtakoot(Aries, Taurus, d).tara == 1.5
    ensures Total(Ashtakoot(Aries, Taurus, d)) == 17.5 + (d.yoni + d.graha) as real
    ensures CalculateKundliMatching(Aries, Taurus, d).guna != CalculateKundliMatching(Aries, Taurus, d).guna.Floor as real
  {
    assert SignDistance(Aries, Taurus) == 1;
    TaraOfDistanceValues(1);
    assert ShareVashyaGroup(Aries, Taurus) by {
      assert Aries in VashyaGroups[0] && Taurus in VashyaGroups[0];
    }
    var s := Ashtakoot(Aries, Taurus, d);
    assert s == AshtakootScores(1.0, 2.0, 1.5, (d.yoni + 1) as real, (d.graha + 1) as real, 1.0, 2.0, 8.0);
    var guna := CalculateKundliMatching(Aries, Taurus, d).guna;
    assert guna == 17.5 + (d.yoni + d.graha) as real;
    assert guna.Floor == 17 + d.yoni + d.graha;
  }
}
