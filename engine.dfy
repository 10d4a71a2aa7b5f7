/**
 * The compatibility engine (utils/horoscope-matching.ts): two signs and the
 * random draws give nine jittered aspect scores, a weighted overall score,
 * and texts chosen by the band the overall score falls in.
 */
module CompatibilityEngine {
  import opened Wrappers
  import opened Zodiac
  import opened CompatibilityTables
  import opened Aspects
  import opened JsMath
  import opened PairKeys

  // ---------------------------------------------------------------------------
  // Score bands and the texts chosen by them

  /** The four bands every text chooser of the engine tests, at 85, 70 and 55. */
  datatype ScoreBand = Excellent | Good | Fair | Challenging

  /** The band a score falls in. */
  function BandOf(score: real): ScoreBand
  {
    if score >= 85.0 then Excellent
    else if score >= 70.0 then Good
    else if score >= 55.0 then Fair
    else Challenging
  }

  /** getCompatibilityStrengths: four, four, three or two strengths by band. */
  function Strengths(score: real): (r: seq<string>)
    ensures |r| == match BandOf(score) case Excellent => 4 case Good => 4 case Fair => 3 case Challenging => 2
  {
    if score >= 85.0 then ExcellentStrengths
    else if score >= 70.0 then GoodStrengths
    else if score >= 55.0 then FairStrengths
    else ChallengingStrengths
  }

  const ExcellentStrengths: seq<string> := [
    "Natural understanding and harmony",
    "Complementary strengths and weaknesses",
    "Strong emotional and intellectual connection",
    "Shared values and life goals"]
  const GoodStrengths: seq<string> := [
    "Good communication and understanding",
    "Mutual respect and admiration",
    "Balanced relationship dynamics",
    "Potential for growth together"]
  const FairStrengths: seq<string> := [
    "Learning opportunities from differences",
    "Potential for personal growth",
    "Interesting contrast in personalities"]
  const ChallengingStrengths: seq<string> := [
    "Opportunity to learn patience",
    "Challenge that can lead to growth"]

  /** getCompatibilityAdvice: two pieces of advice, whatever the band. */
  function Advice(score: real): (r: seq<string>)
    ensures |r| == 2
  {
    if score >= 85.0 then ExcellentAdvice
    else if score >= 70.0 then GoodAdvice
    else if score >= 55.0 then FairAdvice
    else ChallengingAdvice
  }

  const ExcellentAdvice: seq<string> := [
    "This is a highly compatible match with great potential for a lasting relationship.",
    "Focus on nurturing your natural connection and supporting each other's dreams."]
  const GoodAdvice: seq<string> := [
    "You have good compatibility with room for growth.",
    "Work on open communication and understanding each other's perspectives."]
  const FairAdvice: seq<string> := [
    "This relationship will require effort but can be rewarding.",
    "Focus on finding common ground and appreciating your differences."]
  const ChallengingAdvice: seq<string> := [
    "This match will require significant work and compromise.",
    "Consider whether your core values and life goals align."]

  /** getLoveAnalysis. */
  function LoveAnalysis(score: real): (r: string)
  {
    if score >= 85.0 then ExcellentLove
    else if score >= 70.0 then GoodLove
    else if score >= 55.0 then FairLove
    else ChallengingLove
  }

  const ExcellentLove: string :=
    "Your romantic connection is deeply harmonious with natural chemistry and mutual understanding. You inspire each other and create a loving, supportive partnership."
  const GoodLove: string :=
    "Your love compatibility is strong with good potential for romance. You appreciate each other's qualities and can build a meaningful relationship with effort."
  const FairLove: string :=
    "Your romantic compatibility requires work but can be fulfilling. Focus on understanding each other's love languages and emotional needs."
  const ChallengingLove: string :=
    "Romance between you may face challenges. Consider whether you're truly compatible for a long-term romantic relationship."

  /** getFriendshipAnalysis. */
  function FriendshipAnalysis(score: real): (r: string)
  {
    if score >= 85.0 then ExcellentFriendship
    else if score >= 70.0 then GoodFriendship
    else if score >= 55.0 then FairFriendship
    else ChallengingFriendship
  }

  const ExcellentFriendship: string :=
    "You make excellent friends with natural understanding and shared interests. Your friendship is likely to be long-lasting and mutually beneficial."
  const GoodFriendship: string :=
    "Your friendship has good potential with mutual respect and interesting dynamics. You can learn from each other and enjoy each other's company."
  const FairFriendship: string :=
    "As friends, you may have some challenges but can appreciate each other's different perspectives and grow from the relationship."
  const ChallengingFriendship: string :=
    "Friendship may require significant effort to maintain. You may be better as casual acquaintances than close friends."

  /** getMarriageAnalysis. */
  function MarriageAnalysis(score: real): (r: string)
  {
    if score >= 85.0 then ExcellentMarriage
    else if score >= 70.0 then GoodMarriage
    else if score >= 55.0 then FairMarriage
    else ChallengingMarriage
  }

  const ExcellentMarriage: string :=
    "Marriage compatibility is excellent with strong potential for a lasting, harmonious partnership. You share similar values and complement each other well."
  const GoodMarriage: string :=
    "Marriage potential is good with some areas to work on. Focus on communication and understanding each other's needs for a successful partnership."
  const FairMarriage: string :=
    "Marriage will require significant effort and compromise. Consider pre-marital counseling to understand and work through your differences."
  const ChallengingMarriage: string :=
    "Marriage compatibility is challenging. Carefully consider whether you share the fundamental values and goals needed for a lifelong partnership."

  /** getBusinessAnalysis. */
  function BusinessAnalysis(score: real): (r: string)
  {
    if score >= 85.0 then ExcellentBusiness
    else if score >= 70.0 then GoodBusiness
    else if score >= 55.0 then FairBusiness
    else ChallengingBusiness
  }

  const ExcellentBusiness: string :=
    "Business partnership potential is excellent. You complement each other's skills and have similar work ethics and goals."
  const GoodBusiness: string :=
    "You could work well together in business with clear role definitions and good communication about expectations and goals."
  const FairBusiness: string :=
    "Business partnership may work in specific circumstances but requires clear agreements and defined responsibilities."
  const ChallengingBusiness: string :=
    "Business partnership is not recommended due to different work styles and approaches to decision-making."

  /** getRecommendations: three recommendations, whatever the band. */
  function Recommendations(score: real): (r: seq<string>)
    ensures |r| == 3
  {
    if score >= 85.0 then ExcellentRecommendations
    else if score >= 70.0 then GoodRecommendations
    else if score >= 55.0 then FairRecommendations
    else ChallengingRecommendations
  }

  const ExcellentRecommendations: seq<string> := [
    "Continue nurturing your natural connection",
    "Support each other's individual growth",
    "Plan for your future together"]
  const GoodRecommendations: seq<string> := [
    "Work on open and honest communication",
    "Learn about each other's zodiac traits",
    "Find activities you both enjoy"]
  const FairRecommendations: seq<string> := [
    "Practice patience and understanding",
    "Focus on your shared values",
    "Consider couples counseling if serious"]
  const ChallengingRecommendations: seq<string> := [
    "Honestly evaluate your compatibility",
    "Consider if this relationship serves both of you",
    "Seek guidance from trusted friends or counselors"]

  /**
   * One band governs the three lists: two scores get the same strengths (and
   * the same advice, and the same recommendations) exactly when they fall in
   * the same band.
   */
  lemma ListsFollowBand(x: real, y: real)
    ensures BandOf(x) == BandOf(y) <==> Strengths(x) == Strengths(y)
    ensures BandOf(x) == BandOf(y) <==> Advice(x) == Advice(y)
    ensures BandOf(x) == BandOf(y) <==> Recommendations(x) == Recommendations(y)
  {
  }

  /** One band governs the love analysis: two scores get the same one exactly when they fall in the same band. */
  lemma LoveFollowsBand(x: real, y: real)
    ensures BandOf(x) == BandOf(y) <==> LoveAnalysis(x) == LoveAnalysis(y)
  {
  }

  /** One band governs the friendship analysis: two scores get the same one exactly when they fall in the same band. */
  lemma FriendshipFollowsBand(x: real, y: real)
    ensures BandOf(x) == BandOf(y) <==> FriendshipAnalysis(x) == FriendshipAnalysis(y)
  {
  }

  /** One band governs the marriage analysis: two scores get the same one exactly when they fall in the same band. */
  lemma MarriageFollowsBand(x: real, y: real)
    ensures BandOf(x) == BandOf(y) <==> MarriageAnalysis(x) == MarriageAnalysis(y)
  {
  }

  /** One band governs the business analysis: two scores get the same one exactly when they fall in the same band. */
  lemma BusinessFollowsBand(x: real, y: real)
    ensures BandOf(x) == BandOf(y) <==> BusinessAnalysis(x) == BusinessAnalysis(y)
  {
  }

  // ---------------------------------------------------------------------------
  // Challenges, keyed by the pair of elements

  /** How `${info.element}` renders an element. */
  function ElementLabel(e: Element): (s: string)
    ensures '-' !in s
  {
    match e
    case Fire => "Fire"
    case Earth => "Earth"
    case Air => "Air"
    case Water => "Water"
  }

  /** The challenge lists of getCompatibilityChallenges, keyed by `${element1}-${element2}`. */
  function ChallengeMap(key: string): Option<seq<string>>
  {
    if key == PairKey("Fire", "Earth") then Some(FireEarthChallenges)
    else if key == PairKey("Fire", "Water") then Some(FireWaterChallenges)
    else if key == PairKey("Fire", "Air") then Some(FireAirChallenges)
    else if key == PairKey("Earth", "Water") then Some(EarthWaterChallenges)
    else if key == PairKey("Earth", "Air") then Some(EarthAirChallenges)
    else if key == PairKey("Air", "Water") then Some(AirWaterChallenges)
    else None
  }

  const FireEarthChallenges: seq<string> := ["Different paces of life", "Fire's impulsiveness vs Earth's caution"]
  const FireWaterChallenges: seq<string> := ["Emotional expression differences", "Fire's directness vs Water's sensitivity"]
  const FireAirChallenges: seq<string> := ["Commitment levels", "Fire's intensity vs Air's detachment"]
  const EarthWaterChallenges: seq<string> := ["Practical vs emotional decision making", "Different communication styles"]
  const EarthAirChallenges: seq<string> := ["Routine vs spontaneity", "Different social needs"]
  const AirWaterChallenges: seq<string> := ["Logic vs intuition", "Different emotional needs"]

  /** The list for two signs of the same element, or for a pair with no entry. */
  const GenericChallenges: seq<string> := ["Different perspectives on life", "Communication style differences"]

  /**
   * getCompatibilityChallenges: the list keyed by the two elements in the
   * given order, else in the reverse order, else the generic list.
   */
  function Challenges(sign1: Sign, sign2: Sign): seq<string>
  {
    var key := PairKey(ElementLabel(ElementOf(sign1)), ElementLabel(ElementOf(sign2)));
    var reverseKey := PairKey(ElementLabel(ElementOf(sign2)), ElementLabel(ElementOf(sign1)));
    match ChallengeMap(key)
    case Some(list) => list
    case None =>
      match ChallengeMap(reverseKey)
      case Some(list) => list
      case None => GenericChallenges
  }

  /** The challenges of an unordered pair of elements, written out pair by pair. */
  function ElementPairChallenges(e1: Element, e2: Element): (r: seq<string>)
    ensures |r| == 2
  {
    match (e1, e2)
    case (Fire, Earth) => FireEarthChallenges
    case (Earth, Fire) => FireEarthChallenges
    case (Fire, Water) => FireWaterChallenges
    case (Water, Fire) => FireWaterChallenges
    case (Fire, Air) => FireAirChallenges
    case (Air, Fire) => FireAirChallenges
    case (Earth, Water) => EarthWaterChallenges
    case (Water, Earth) => EarthWaterChallenges
    case (Earth, Air) => EarthAirChallenges
    case (Air, Earth) => EarthAirChallenges
    case (Air, Water) => AirWaterChallenges
    case (Water, Air) => AirWaterChallenges
    case _ => GenericChallenges
  }

  /** Looking up the key of two element labels finds exactly the entries stored under that ordered pair. */
  lemma ChallengeMapByElements(e1: Element, e2: Element)
    ensures ChallengeMap(PairKey(ElementLabel(e1), ElementLabel(e2))).Some? <==>
      (e1, e2) in {(Fire, Earth), (Fire, Water), (Fire, Air), (Earth, Water), (Earth, Air), (Air, Water)}
    ensures ChallengeMap(PairKey(ElementLabel(e1), ElementLabel(e2))).Some? ==>
      ChallengeMap(PairKey(ElementLabel(e1), ElementLabel(e2))).value == ElementPairChallenges(e1, e2)
  {
    var l1, l2 := ElementLabel(e1), ElementLabel(e2);
    PairKeyInjective(l1, l2, "Fire", "Earth");
    PairKeyInjective(l1, l2, "Fire", "Water");
    PairKeyInjective(l1, l2, "Fire", "Air");
    PairKeyInjective(l1, l2, "Earth", "Water");
    PairKeyInjective(l1, l2, "Earth", "Air");
    PairKeyInjective(l1, l2, "Air", "Water");
  }

  /** The string-keyed lookup agrees with the pair-by-pair table. */
  lemma ChallengesByElementPair(sign1: Sign, sign2: Sign)
    ensures Challenges(sign1, sign2) == ElementPairChallenges(ElementOf(sign1), ElementOf(sign2))
  {
    ChallengeMapByElements(ElementOf(sign1), ElementOf(sign2));
    ChallengeMapByElements(ElementOf(sign2), ElementOf(sign1));
  }

  /**
   * The challenges of two signs do not depend on their order, always number
   * two, and are the generic list exactly when the signs share an element.
   */
  lemma ChallengesSymmetric(sign1: Sign, sign2: Sign)
    ensures Challenges(sign1, sign2) == Challenges(sign2, sign1)
    ensures |Challenges(sign1, sign2)| == 2
    ensures Challenges(sign1, sign2) == GenericChallenges <==> ElementOf(sign1) == ElementOf(sign2)
  {
    ChallengesByElementPair(sign1, sign2);
    ChallengesByElementPair(sign2, sign1);
  }

  // ---------------------------------------------------------------------------
  // calculateDetailedCompatibility

  /** The four analyses of detailedAnalysis. */
  datatype DetailedAnalysis = DetailedAnalysis(love: string, friendship: string, marriage: string, business: string)

  /** The DetailedCompatibilityScore record; the numeric fields are exact reals. */
  datatype DetailedCompatibilityScore = DetailedCompatibilityScore(
    overall: real,
    sunSign: real, moonSign: real, risingSign: real, venusSign: real, marsSign: real,
    communication: real, emotional: real, physical: real, spiritual: real,
    elementCompatibility: int, qualityCompatibility: int, planetaryCompatibility: int,
    challenges: seq<string>, strengths: seq<string>, advice: seq<string>,
    detailedAnalysis: DetailedAnalysis, recommendations: seq<string>)

  /** The nine clamped aspect scores, in the order the engine computes them. */
  datatype AspectScores = AspectScores(
    sun: real, moon: real, rising: real, venus: real, mars: real,
    communication: real, emotional: real, physical: real, spiritual: real)

  /**
   * In `calculateDetailedCompatibility`, each aspect is its source score plus its draw minus the
   * offset, clamped to [0, 100]. For the scores the tables can produce, no
   * clamp ever cuts: each aspect is exactly its source score moved by the
   * jitter.
   */
  function JitteredAspects(base: real, communicationBase: real, planetary: real, d: Draws): (a: AspectScores)
    requires ValidDraws(d)
    requires 40.0 <= base <= 95.0 && 45.0 <= communicationBase <= 90.0 && 50.0 <= planetary <= 95.0
    ensures a.sun == base + (d.sun - 5) as real && a.moon == base + (d.moon - 4) as real
    ensures a.rising == base + (d.rising - 3) as real && a.venus == base + (d.venus - 6) as real
    ensures a.mars == base + (d.mars - 4) as real && a.emotional == base + (d.emotional - 4) as real
    ensures a.physical == base + (d.physical - 6) as real
    ensures a.communication == communicationBase + (d.communication - 5) as real
    ensures a.spiritual == planetary + (d.spiritual - 3) as real
  {
    AspectScores(
      Clamp(base + d.sun as real - 5.0),
      Clamp(base + d.moon as real - 4.0),
      Clamp(base + d.rising as real - 3.0),
      Clamp(base + d.venus as real - 6.0),
      Clamp(base + d.mars as real - 4.0),
      Clamp(communicationBase + d.communication as real - 5.0),
      Clamp(base + d.emotional as real - 4.0),
      Clamp(base + d.physical as real - 6.0),
      Clamp(planetary + d.spiritual as real - 3.0))
  }

  /**
   * In `calculateDetailedCompatibility`, the weighted sum divided by 100 and multiplied back by
   * 100, rounded. The two scalings cancel, so this is the rounded weighted
   * sum, which lies in [0, 100] when the aspects do.
   */
  function EngineOverall(a: AspectScores): (o: int)
    ensures o == Round(WeightedSum(a.sun, a.moon, a.rising, a.communication, a.emotional, a.physical))
    ensures 0.0 <= a.sun <= 100.0 && 0.0 <= a.moon <= 100.0 && 0.0 <= a.rising <= 100.0 &&
      0.0 <= a.communication <= 100.0 && 0.0 <= a.emotional <= 100.0 && 0.0 <= a.physical <= 100.0
      ==> 0 <= o <= 100
  {
    Round(WeightedSum(a.sun, a.moon, a.rising, a.communication, a.emotional, a.physical) / 100.0 * 100.0)
  }

  /**
   * calculateDetailedCompatibility. The birth times the source accepts are
   * unused there and are left out here.
   */
  function CalculateDetailedCompatibility(userSign: Sign, partnerSign: Sign, d: Draws): (r: DetailedCompatibilityScore)
    requires ValidDraws(d)
    ensures 0.0 <= r.overall <= 100.0
    ensures 0.0 <= r.sunSign <= 100.0 && 0.0 <= r.moonSign <= 100.0 && 0.0 <= r.risingSign <= 100.0
    ensures 0.0 <= r.venusSign <= 100.0 && 0.0 <= r.marsSign <= 100.0 && 0.0 <= r.communication <= 100.0
    ensures 0.0 <= r.emotional <= 100.0 && 0.0 <= r.physical <= 100.0 && 0.0 <= r.spiritual <= 100.0
    // each aspect is the score it is drawn around moved by its jitter: no clamp ever cuts it
    ensures var base := BaseCompatibility(userSign, partnerSign) as real;
      r.sunSign == base + (d.sun - 5) as real && r.moonSign == base + (d.moon - 4) as real &&
      r.risingSign == base + (d.rising - 3) as real && r.venusSign == base + (d.venus - 6) as real &&
      r.marsSign == base + (d.mars - 4) as real && r.emotional == base + (d.emotional - 4) as real &&
      r.physical == base + (d.physical - 6) as real
    ensures r.communication == (r.elementCompatibility + r.qualityCompatibility) as real / 2.0 + (d.communication - 5) as real
    ensures r.spiritual == r.planetaryCompatibility as real + (d.spiritual - 3) as real
    ensures r.elementCompatibility == ElementCompatibility(ElementOf(userSign), ElementOf(partnerSign))
    ensures r.qualityCompatibility == QualityCompatibility(QualityOf(userSign), QualityOf(partnerSign))
    ensures r.planetaryCompatibility == PlanetaryCompatibility(RulingPlanet(userSign), RulingPlanet(partnerSign))
    // the reported overall is the rounded weighted sum of the reported aspects
    ensures r.overall == Round(WeightedSum(r.sunSign, r.moonSign, r.risingSign, r.communication, r.emotional, r.physical)) as real
    // every text is chosen by the reported overall
    ensures r.strengths == Strengths(r.overall) && r.advice == Advice(r.overall)
    ensures r.detailedAnalysis == DetailedAnalysis(LoveAnalysis(r.overall), FriendshipAnalysis(r.overall),
      MarriageAnalysis(r.overall), BusinessAnalysis(r.overall))
    ensures r.recommendations == Recommendations(r.overall)
    ensures r.challenges == Challenges(userSign, partnerSign)
  {
    // the element, quality and ruling planet of the zodiacData entries
    var baseScore := BaseCompatibility(userSign, partnerSign);
    var elemCompat := ElementCompatibility(ElementOf(userSign), ElementOf(partnerSign));
    var qualCompat := QualityCompatibility(QualityOf(userSign), QualityOf(partnerSign));
    var planetaryCompat := PlanetaryCompatibility(RulingPlanet(userSign), RulingPlanet(partnerSign));
    ElementCompatibilitySymmetric(ElementOf(userSign), ElementOf(partnerSign));
    QualityCompatibilitySymmetric(QualityOf(userSign), QualityOf(partnerSign));
    var a := JitteredAspects(baseScore as real, (elemCompat + qualCompat) as real / 2.0, planetaryCompat as real, d);
    var overall := EngineOverall(a) as real;
    DetailedCompatibilityScore(
      Clamp(overall),
      a.sun, a.moon, a.rising, a.venus, a.mars,
      a.communication, a.emotional, a.physical, a.spiritual,
      elemCompat, qualCompat, planetaryCompat,
      Challenges(userSign, partnerSign),
      Strengths(overall), Advice(overall),
      DetailedAnalysis(LoveAnalysis(overall), FriendshipAnalysis(overall), MarriageAnalysis(overall), BusinessAnalysis(overall)),
      Recommendations(overall))
  }

  /**
   * Venus, mars and spiritual never affect overall: two runs whose other six
   * draws agree report the same overall and the same texts.
   */
  lemma OverallIgnoresVenusMarsSpiritual(userSign: Sign, partnerSign: Sign, d1: Draws, d2: Draws)
    requires ValidDraws(d1) && ValidDraws(d2)
    requires d1.sun == d2.sun && d1.moon == d2.moon && d1.rising == d2.rising
    requires d1.communication == d2.communication && d1.emotional == d2.emotional && d1.physical == d2.physical
    ensures var r1, r2 := CalculateDetailedCompatibility(userSign, partnerSign, d1), CalculateDetailedCompatibility(userSign, partnerSign, d2);
      r1.overall == r2.overall && r1.strengths == r2.strengths && r1.advice == r2.advice &&
      r1.detailedAnalysis == r2.detailedAnalysis && r1.recommendations == r2.recommendations
  {
    var r1, r2 := CalculateDetailedCompatibility(userSign, partnerSign, d1), CalculateDetailedCompatibility(userSign, partnerSign, d2);
    assert r1.sunSign == r2.sunSign && r1.moonSign == r2.moonSign && r1.risingSign == r2.risingSign;
    assert r1.communication == r2.communication && r1.emotional == r2.emotional && r1.physical == r2.physical;
  }

  /** Swapping the two signs changes nothing in the score. */
  lemma ScoreIgnoresOrder(userSign: Sign, partnerSign: Sign, d: Draws)
    requires ValidDraws(d)
    ensures CalculateDetailedCompatibility(userSign, partnerSign, d) == CalculateDetailedCompatibility(partnerSign, userSign, d)
  {
    BaseCompatibilitySymmetric(userSign, partnerSign);
    ElementCompatibilitySymmetric(ElementOf(userSign), ElementOf(partnerSign));
    QualityCompatibilitySymmetric(QualityOf(userSign), QualityOf(partnerSign));
    PlanetaryCompatibilitySymmetric(RulingPlanet(userSign), RulingPlanet(partnerSign));
    ChallengesSymmetric(userSign, partnerSign);
  }
}
