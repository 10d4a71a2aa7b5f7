/**
 * The simpler scoring of the compatibility API route
 * (app/api/compatibility/route.ts): a request naming two signs gets a base
 * score from the route's own matrix, jittered aspect scores, a weighted
 * overall score and texts; a request without both signs is refused.
 */
module CompatibilityApi {
  import opened Wrappers
  import opened Zodiac
  import opened CompatibilityTables
  import opened Aspects
  import opened JsMath
  import opened PairKeys

  // ---------------------------------------------------------------------------
  // The base score

  /** compatibilityMatrix: the route's own copy of the base affinities. */
  function RouteMatrix(a: Sign, b: Sign): (r: int)
    ensures 40 <= r <= 95
  {
    match a
    case Aries => (
      match b
      case Aries => 85 case Taurus => 60 case Gemini => 75 case Cancer => 50 case Leo => 90 case Virgo => 45 case Libra => 70 case Scorpio => 80 case Sagittarius => 95 case Capricorn => 40 case Aquarius => 75 case Pisces => 55)
    case Taurus => (
      match b
      case Aries => 60 case Taurus => 80 case Gemini => 50 case Cancer => 85 case Leo => 70 case Virgo => 90 case Libra => 75 case Scorpio => 65 case Sagittarius => 40 case Capricorn => 95 case Aquarius => 45 case Pisces => 80)
    case Gemini => (
      match b
      case Aries => 75 case Taurus => 50 case Gemini => 85 case Cancer => 60 case Leo => 80 case Virgo => 70 case Libra => 90 case Scorpio => 55 case Sagittarius => 75 case Capricorn => 50 case Aquarius => 95 case Pisces => 70)
    case Cancer => (
      match b
      case Aries => 50 case Taurus => 85 case Gemini => 60 case Cancer => 80 case Leo => 65 case Virgo => 75 case Libra => 70 case Scorpio => 90 case Sagittarius => 45 case Capricorn => 70 case Aquarius => 55 case Pisces => 95)
    case Leo => (
      match b
      case Aries => 90 case Taurus => 70 case Gemini => 80 case Cancer => 65 case Leo => 85 case Virgo => 60 case Libra => 80 case Scorpio => 75 case Sagittarius => 90 case Capricorn => 55 case Aquarius => 70 case Pisces => 60)
    case Virgo => (
      match b
      case Aries => 45 case Taurus => 90 case Gemini => 70 case Cancer => 75 case Leo => 60 case Virgo => 80 case Libra => 65 case Scorpio => 70 case Sagittarius => 50 case Capricorn => 95 case Aquarius => 60 case Pisces => 75)
    case Libra => (
      match b
      case Aries => 70 case Taurus => 75 case Gemini => 90 case Cancer => 70 case Leo => 80 case Virgo => 65 case Libra => 85 case Scorpio => 60 case Sagittarius => 75 case Capricorn => 70 case Aquarius => 80 case Pisces => 85)
    case Scorpio => (
      match b
      case Aries => 80 case Taurus => 65 case Gemini => 55 case Cancer => 90 case Leo => 75 case Virgo => 70 case Libra => 60 case Scorpio => 85 case Sagittarius => 70 case Capricorn => 80 case Aquarius => 50 case Pisces => 90)
    case Sagittarius => (
      match b
      case Aries => 95 case Taurus => 40 case Gemini => 75 case Cancer => 45 case Leo => 90 case Virgo => 50 case Libra => 75 case Scorpio => 70 case Sagittarius => 85 case Capricorn => 60 case Aquarius => 80 case Pisces => 65)
    case Capricorn => (
      match b
      case Aries => 40 case Taurus => 95 case Gemini => 50 case Cancer => 70 case Leo => 55 case Virgo => 95 case Libra => 70 case Scorpio => 80 case Sagittarius => 60 case Capricorn => 80 case Aquarius => 65 case Pisces => 70)
    case Aquarius => (
      match b
      case Aries => 75 case Taurus => 45 case Gemini => 95 case Cancer => 55 case Leo => 70 case Virgo => 60 case Libra => 80 case Scorpio => 50 case Sagittarius => 80 case Capricorn => 65 case Aquarius => 85 case Pisces => 75)
    case Pisces => (
      match b
      case Aries => 55 case Taurus => 80 case Gemini => 70 case Cancer => 95 case Leo => 60 case Virgo => 75 case Libra => 85 case Scorpio => 90 case Sagittarius => 65 case Capricorn => 70 case Aquarius => 75 case Pisces => 80)
  }

  /** The route's matrix holds the same numbers as the engine's baseCompatibility, row for row. */
  lemma RouteMatrixAgrees(a: Sign, b: Sign)
    ensures RouteMatrix(a, b) == BaseCompatibility(a, b)
  {
  }

  /**
   * `compatibilityMatrix[userSign]?.[partnerSign] || 50`: the entry when both
   * names are signs, otherwise 50 (no entry is 0, so `||` only replaces a
   * missing one).
   */
  function MatrixScore(userSign: string, partnerSign: string): (r: int)
    ensures 40 <= r <= 95
  {
    match SignOfName(userSign)
    case None => 50
    case Some(a) => (
      match SignOfName(partnerSign)
      case None => 50
      case Some(b) => RouteMatrix(a, b))
  }

  /** The base score is baseCompatibility for two sign names and 50 for any other pair of strings. */
  lemma MatrixScoreMeaning(userSign: string, partnerSign: string)
    ensures forall a: Sign, b: Sign :: userSign == Name(a) && partnerSign == Name(b) ==>
      MatrixScore(userSign, partnerSign) == BaseCompatibility(a, b)
    ensures SignOfName(userSign).None? || SignOfName(partnerSign).None? ==> MatrixScore(userSign, partnerSign) == 50
  {
    forall a: Sign, b: Sign | userSign == Name(a) && partnerSign == Name(b)
      ensures MatrixScore(userSign, partnerSign) == BaseCompatibility(a, b)
    {
      NameRoundTrip(a, userSign);
      NameRoundTrip(b, partnerSign);
      RouteMatrixAgrees(a, b);
    }
  }

  // ---------------------------------------------------------------------------
  // Aspect scores and the overall score

  /** The nine aspect scores of the route, in the order it computes them. */
  datatype RouteAspects = RouteAspects(
    sun: real, moon: real, rising: real, venus: real, mars: real,
    communication: real, emotional: real, physical: real, spiritual: real)

  /**
   * In `POST`, every aspect is the base score plus its draw minus the
   * offset. Sun, moon, rising, venus and mars are left unclamped here; the
   * four others are clamped, which for a base of 40 to 95 never cuts.
   */
  function JitteredRouteAspects(base: int, d: Draws): (a: RouteAspects)
    requires ValidDraws(d)
    requires 40 <= base <= 95
    ensures a.sun == (base + d.sun - 5) as real && a.moon == (base + d.moon - 4) as real
    ensures a.rising == (base + d.rising - 3) as real && a.venus == (base + d.venus - 6) as real
    ensures a.mars == (base + d.mars - 4) as real
    ensures a.communication == (base + d.communication - 5) as real
    ensures a.emotional == (base + d.emotional - 4) as real
    ensures a.physical == (base + d.physical - 6) as real
    ensures a.spiritual == (base + d.spiritual - 3) as real
    ensures InPercentRange(a)
  {
    RouteAspects(
      (base + d.sun - 5) as real,
      (base + d.moon - 4) as real,
      (base + d.rising - 3) as real,
      (base + d.venus - 6) as real,
      (base + d.mars - 4) as real,
      Clamp((base + d.communication - 5) as real),
      Clamp((base + d.emotional - 4) as real),
      Clamp((base + d.physical - 6) as real),
      Clamp((base + d.spiritual - 3) as real))
  }

  /** Every aspect lies in [0, 100]. */
  predicate InPercentRange(a: RouteAspects)
  {
    0.0 <= a.sun <= 100.0 && 0.0 <= a.moon <= 100.0 && 0.0 <= a.rising <= 100.0 &&
    0.0 <= a.venus <= 100.0 && 0.0 <= a.mars <= 100.0 && 0.0 <= a.communication <= 100.0 &&
    0.0 <= a.emotional <= 100.0 && 0.0 <= a.physical <= 100.0 && 0.0 <= a.spiritual <= 100.0
  }

  /** The weighted sum of the six weighted aspects. */
  function Weighted(a: RouteAspects): real
  {
    WeightedSum(a.sun, a.moon, a.rising, a.communication, a.emotional, a.physical)
  }

  /**
   * In `POST`, as written: the weighted sum divided by 100 and rounded,
   * with no multiplication back. For aspects in [0, 100] the result is 0 or
   * 1, and it is 1 exactly when the weighted sum reaches 50.
   */
  function WeightedOverall(a: RouteAspects): (o: int)
    ensures InPercentRange(a) ==> (o == 0 || o == 1)
    ensures InPercentRange(a) ==> (o == 1 <==> Weighted(a) >= 50.0)
  {
    Round(Weighted(a) / 100.0)
  }

  /**
   * The overall score as `calculateDetailedCompatibility` computes it: the
   * rounded weighted sum, a percentage again.
   */
  function IntendedOverall(a: RouteAspects): (o: int)
    ensures InPercentRange(a) ==> 0 <= o <= 100
  {
    Round(Weighted(a))
  }

  /**
   * As written, the overall score only tells low base scores from high ones:
   * it is 0 for a base of at most 45 and 1 for a base of at least 55,
   * whatever the draws.
   */
  lemma {:induction false} OverallIsZeroOrOne(base: int, d: Draws)
    requires ValidDraws(d)
    requires 40 <= base <= 95
    ensures WeightedOverall(JitteredRouteAspects(base, d)) == 0 || WeightedOverall(JitteredRouteAspects(base, d)) == 1
    ensures base <= 45 ==> WeightedOverall(JitteredRouteAspects(base, d)) == 0
    ensures base >= 55 ==> WeightedOverall(JitteredRouteAspects(base, d)) == 1
  {
    WeightedNearBase(base, d);
  }

  /** The weighted sum stays within 4.45 below and 3.45 above the base score. */
  lemma WeightedNearBase(base: int, d: Draws)
    requires ValidDraws(d)
    requires 40 <= base <= 95
    ensures base as real - 4.45 <= Weighted(JitteredRouteAspects(base, d)) <= base as real + 3.45
  {
  }

  /** The intended overall score is the base score moved by at most 4 down and 3 up. */
  lemma {:induction false} IntendedOverallNearBase(base: int, d: Draws)
    requires ValidDraws(d)
    requires 40 <= base <= 95
    ensures base - 4 <= IntendedOverall(JitteredRouteAspects(base, d)) <= base + 3
  {
    WeightedNearBase(base, d);
    RoundMonotone(base as real - 4.45, Weighted(JitteredRouteAspects(base, d)));
    RoundMonotone(Weighted(JitteredRouteAspects(base, d)), base as real + 3.45);
    assert Round(base as real - 4.45) == base - 4;
    assert Round(base as real + 3.45) == base + 3;
  }

  // ---------------------------------------------------------------------------
  // Texts

  /** The five bands of the route's getCompatibilityAdvice, at 90, 80, 70 and 60. */
  function StrengthsBand(score: real): (b: nat)
    ensures b < 5
  {
    if score >= 90.0 then 0
    else if score >= 80.0 then 1
    else if score >= 70.0 then 2
    else if score >= 60.0 then 3
    else 4
  }

  /** getCompatibilityAdvice of the route: three lines by band. */
  function RouteStrengths(score: real): (r: seq<string>)
    ensures |r| == 3
  {
    if score >= 90.0 then RareConnection
    else if score >= 80.0 then StrongConnection
    else if score >= 70.0 then GoodConnection
    else if score >= 60.0 then ModerateConnection
    else ExtraEffort
  }

  const RareConnection: seq<string> := [
    "You have incredible cosmic chemistry",
    "Your energies complement each other perfectly",
    "This is a rare and special connection"]
  const StrongConnection: seq<string> := [
    "You have strong astrological compatibility",
    "Your relationship has great potential",
    "Focus on communication to strengthen your bond"]
  const GoodConnection: seq<string> := [
    "You have good compatibility with some challenges",
    "Work on understanding each other's differences",
    "Patience and compromise will be key"]
  const ModerateConnection: seq<string> := [
    "You have moderate compatibility",
    "Focus on your shared values and interests",
    "Be patient as you learn to work together"]
  const ExtraEffort: seq<string> := [
    "This relationship will require extra effort",
    "Focus on communication and understanding",
    "Consider if your core values align"]

  /** Two scores get the same three lines exactly when they fall in the same band. */
  lemma RouteStrengthsFollowBand(x: real, y: real)
    ensures RouteStrengths(x) == RouteStrengths(y) <==> StrengthsBand(x) == StrengthsBand(y)
  {
  }

  /** The second advice line by overall score, at 80 and 60. */
  function Outlook(overall: int): string
  {
    if overall >= 80 then HighOutlook
    else if overall >= 60 then MiddleOutlook
    else LowOutlook
  }

  const HighOutlook := "This is a highly compatible match with great potential for a lasting relationship."
  const MiddleOutlook := "This relationship has good potential but will require effort and understanding."
  const LowOutlook := "This relationship will require significant effort and compromise from both partners."

  /** The first advice line, naming both signs and the overall percentage. */
  function Headline(userSign: string, partnerSign: string, overall: int): string
  {
    "As " + (userSign + (" and " + (partnerSign + (", you have a " + (IntToString(overall) + "% cosmic compatibility.")))))
  }

  /**
   * The headline ends in the percentage and " cosmic compatibility.", and the
   * digits just before the percent sign read back as the overall score.
   */
  lemma {:induction false} HeadlineStatesOverall(userSign: string, partnerSign: string, overall: nat)
    ensures var h := Headline(userSign, partnerSign, overall);
      var digits := |IntToString(overall)|;
      |h| >= digits + 23 && h[|h| - 23..] == "% cosmic compatibility." &&
      DigitsValue(h[|h| - 23 - digits..|h| - 23]) == overall
  {
    var h := Headline(userSign, partnerSign, overall);
    var digits := IntToString(overall);
    var tail := digits + "% cosmic compatibility.";
    var head := "As " + (userSign + (" and " + (partnerSign + ", you have a ")));
    assert h == head + tail;
    assert h[|h| - 23..] == tail[|digits|..];
    assert h[|h| - 23 - |digits|..|h| - 23] == tail[..|digits|] == digits;
    DigitsRoundTrip(overall);
  }

  // ---------------------------------------------------------------------------
  // Challenges

  /** The route's challenge lists, keyed by `${sign1}-${sign2}`. */
  function RouteChallengeMap(key: string): Option<seq<string>>
  {
    if key == PairKey("Aries", "Taurus") then Some(AriesTaurusChallenges)
    else if key == PairKey("Gemini", "Cancer") then Some(GeminiCancerChallenges)
    else if key == PairKey("Leo", "Virgo") then Some(LeoVirgoChallenges)
    else if key == PairKey("Libra", "Scorpio") then Some(LibraScorpioChallenges)
    else if key == PairKey("Sagittarius", "Capricorn") then Some(SagittariusCapricornChallenges)
    else if key == PairKey("Aquarius", "Pisces") then Some(AquariusPiscesChallenges)
    else None
  }

  const AriesTaurusChallenges: seq<string> := ["Different approaches to change", "Aries impatience vs Taurus stability"]
  const GeminiCancerChallenges: seq<string> := ["Communication styles", "Gemini logic vs Cancer emotions"]
  const LeoVirgoChallenges: seq<string> := ["Attention to detail", "Leo drama vs Virgo practicality"]
  const LibraScorpioChallenges: seq<string> := ["Decision making", "Libra indecision vs Scorpio intensity"]
  const SagittariusCapricornChallenges: seq<string> := ["Life goals", "Sagittarius freedom vs Capricorn structure"]
  const AquariusPiscesChallenges: seq<string> := ["Reality vs dreams", "Aquarius logic vs Pisces intuition"]

  /** The list for every pair without an entry. */
  const GenericRouteChallenges: seq<string> := ["Different communication styles", "Different life approaches"]

  /** getCompatibilityChallenges of the route: the key in the given order, else reversed, else the generic list. */
  function RouteChallenges(sign1: string, sign2: string): seq<string>
  {
    match RouteChallengeMap(PairKey(sign1, sign2))
    case Some(list) => list
    case None =>
      match RouteChallengeMap(PairKey(sign2, sign1))
      case Some(list) => list
      case None => GenericRouteChallenges
  }

  /** The entries of the challenge table by the ordered pair of names they are stored under. */
  function OrderedPairChallenges(sign1: string, sign2: string): (r: Option<seq<string>>)
    ensures r.Some? ==> |r.value| == 2
  {
    if sign1 == "Aries" && sign2 == "Taurus" then Some(AriesTaurusChallenges)
    else if sign1 == "Gemini" && sign2 == "Cancer" then Some(GeminiCancerChallenges)
    else if sign1 == "Leo" && sign2 == "Virgo" then Some(LeoVirgoChallenges)
    else if sign1 == "Libra" && sign2 == "Scorpio" then Some(LibraScorpioChallenges)
    else if sign1 == "Sagittarius" && sign2 == "Capricorn" then Some(SagittariusCapricornChallenges)
    else if sign1 == "Aquarius" && sign2 == "Pisces" then Some(AquariusPiscesChallenges)
    else None
  }

  /**
   * A key built from any two strings finds the entry stored under exactly
   * those two names in that order: the names hold no dash, so the dash of the
   * key splits it in one way only.
   */
  lemma {:induction false} RouteChallengeMapByPair(sign1: string, sign2: string)
    ensures RouteChallengeMap(PairKey(sign1, sign2)) == OrderedPairChallenges(sign1, sign2)
  {
    PairKeyInjective(sign1, sign2, "Aries", "Taurus");
    PairKeyInjective(sign1, sign2, "Gemini", "Cancer");
    PairKeyInjective(sign1, sign2, "Leo", "Virgo");
    PairKeyInjective(sign1, sign2, "Libra", "Scorpio");
    PairKeyInjective(sign1, sign2, "Sagittarius", "Capricorn");
    PairKeyInjective(sign1, sign2, "Aquarius", "Pisces");
  }

  /**
   * The challenges of two strings do not depend on their order, always
   * number two, and are the generic list exactly when neither order of the
   * two names is stored in the table.
   */
  lemma RouteChallengesSymmetric(sign1: string, sign2: string)
    ensures RouteChallenges(sign1, sign2) == RouteChallenges(sign2, sign1)
    ensures |RouteChallenges(sign1, sign2)| == 2
    ensures RouteChallenges(sign1, sign2) == GenericRouteChallenges <==>
      OrderedPairChallenges(sign1, sign2).None? && OrderedPairChallenges(sign2, sign1).None?
  {
    RouteChallengeMapByPair(sign1, sign2);
    RouteChallengeMapByPair(sign2, sign1);
  }

  /** Both orders of a stored pair find its entry; a pair of one sign finds none. */
  lemma RouteChallengesExamples()
    ensures RouteChallenges("Taurus", "Aries") == AriesTaurusChallenges
    ensures RouteChallenges("Pisces", "Aquarius") == AquariusPiscesChallenges
    ensures RouteChallenges("Leo", "Leo") == GenericRouteChallenges
  {
    RouteChallengesSymmetric("Aries", "Taurus");
    RouteChallengesSymmetric("Aquarius", "Pisces");
    RouteChallengesSymmetric("Leo", "Leo");
  }

  // ---------------------------------------------------------------------------
  // The request

  /**
   * The request body as far as the route reads it: a body that is not JSON,
   * the JSON value null (destructuring it throws), or any other value, whose
   * `userSign` and `partnerSign` are strings or absent (None, also for null).
   */
  datatype RequestBody = Unparseable | NullBody | Fields(userSign: Option<string>, partnerSign: Option<string>)

  /** A field that passes `!field`: present and not the empty string. */
  predicate Given(field: Option<string>)
  {
    field.Some? && field.value != ""
  }

  /** The CompatibilityScore the route returns; the numbers are exact reals. */
  datatype RouteScore = RouteScore(
    overall: real,
    sunSign: real, moonSign: real, risingSign: real, venusSign: real, marsSign: real,
    communication: real, emotional: real, physical: real, spiritual: real,
    challenges: seq<string>, strengths: seq<string>, advice: seq<string>)

  /** The route's reply: the score with status 200, or an error message with its status. */
  datatype Response = Success(data: RouteScore) | Failure(status: int, error: string)

  const SignsRequired := "Both zodiac signs are required"
  const InternalError := "Internal server error"

  /**
   * In `POST`, the reply for two signs, aspects and an overall score:
   * every number clamped to [0, 100], texts chosen by the unclamped overall.
   */
  function Report(userSign: string, partnerSign: string, a: RouteAspects, overall: int): (r: RouteScore)
    requires InPercentRange(a)
    ensures 0.0 <= r.overall <= 100.0
    ensures r.sunSign == a.sun && r.moonSign == a.moon && r.risingSign == a.rising
    ensures r.venusSign == a.venus && r.marsSign == a.mars && r.communication == a.communication
    ensures r.emotional == a.emotional && r.physical == a.physical && r.spiritual == a.spiritual
    ensures r.overall == Clamp(overall as real)
    ensures r.challenges == RouteChallenges(userSign, partnerSign) && |r.challenges| == 2
    ensures r.strengths == RouteStrengths(overall as real)
    ensures r.advice == [Headline(userSign, partnerSign, overall), Outlook(overall)]
  {
    RouteChallengesSymmetric(userSign, partnerSign);
    RouteScore(
      Clamp(overall as real),
      Clamp(a.sun), Clamp(a.moon), Clamp(a.rising), Clamp(a.venus), Clamp(a.mars),
      Clamp(a.communication), Clamp(a.emotional), Clamp(a.physical), Clamp(a.spiritual),
      RouteChallenges(userSign, partnerSign),
      RouteStrengths(overall as real),
      [Headline(userSign, partnerSign, overall), Outlook(overall)])
  }

  /**
   * The body of `POST` for two given signs and their base score, as written. Every
   * number is the base score moved by its jitter, which no clamp cuts. The
   * overall score is 0 or 1, so the strengths are always the lowest band's
   * and the outlook always the lowest one.
   */
  function Compatibility(userSign: string, partnerSign: string, base: int, d: Draws): (r: RouteScore)
    requires ValidDraws(d)
    requires 40 <= base <= 95
    ensures
      r.sunSign == (base + d.sun - 5) as real && r.moonSign == (base + d.moon - 4) as real &&
      r.risingSign == (base + d.rising - 3) as real && r.venusSign == (base + d.venus - 6) as real &&
      r.marsSign == (base + d.mars - 4) as real && r.communication == (base + d.communication - 5) as real &&
      r.emotional == (base + d.emotional - 4) as real && r.physical == (base + d.physical - 6) as real &&
      r.spiritual == (base + d.spiritual - 3) as real
    ensures r.overall == Round(WeightedSum(r.sunSign, r.moonSign, r.risingSign, r.communication, r.emotional, r.physical) / 100.0) as real
    ensures r.overall == 0.0 || r.overall == 1.0
    ensures r.strengths == ExtraEffort
    ensures r.advice == [Headline(userSign, partnerSign, r.overall.Floor), LowOutlook]
    ensures r.challenges == RouteChallenges(userSign, partnerSign)
  {
    var a := JitteredRouteAspects(base, d);
    var overall := WeightedOverall(a);
    assert Clamp(overall as real) == overall as real;
    assert RouteStrengths(overall as real) == ExtraEffort && Outlook(overall) == LowOutlook;
    var r := Report(userSign, partnerSign, a, overall);
    assert WeightedSum(r.sunSign, r.moonSign, r.risingSign, r.communication, r.emotional, r.physical) == Weighted(a);
    r
  }

  /**
   * The route with the overall score the engine computes: a percentage near
   * the base score, which then picks the strengths and the outlook.
   */
  function CorrectedCompatibility(userSign: string, partnerSign: string, base: int, d: Draws): (r: RouteScore)
    requires ValidDraws(d)
    requires 40 <= base <= 95
    ensures base as real - 4.0 <= r.overall <= base as real + 3.0
    ensures r.overall == Round(WeightedSum(r.sunSign, r.moonSign, r.risingSign, r.communication, r.emotional, r.physical)) as real
    ensures r.strengths == RouteStrengths(r.overall)
    ensures r.advice == [Headline(userSign, partnerSign, r.overall.Floor), Outlook(r.overall.Floor)]
    ensures var w := Compatibility(userSign, partnerSign, base, d);
      r.sunSign == w.sunSign && r.moonSign == w.moonSign && r.risingSign == w.risingSign &&
      r.venusSign == w.venusSign && r.marsSign == w.marsSign && r.communication == w.communication &&
      r.emotional == w.emotional && r.physical == w.physical && r.spiritual == w.spiritual &&
      r.challenges == w.challenges
  {
    var a := JitteredRouteAspects(base, d);
    IntendedOverallNearBase(base, d);
    Report(userSign, partnerSign, a, IntendedOverall(a))
  }

  /**
   * POST: a body that cannot be read fails with 500; a body without both
   * signs (absent, null or empty) fails with 400; otherwise the score of the
   * two names, whatever strings they are.
   */
  function Post(body: RequestBody, d: Draws): (r: Response)
    requires ValidDraws(d)
    ensures r.Failure? && r.status == 500 <==> body.Unparseable? || body.NullBody?
    ensures r.Failure? ==> r.error == (if r.status == 500 then InternalError else SignsRequired)
    ensures r == Failure(400, SignsRequired) <==> body.Fields? && !(Given(body.userSign) && Given(body.partnerSign))
    ensures r.Success? <==> body.Fields? && Given(body.userSign) && Given(body.partnerSign)
    ensures r.Success? ==> var userSign, partnerSign := body.userSign.value, body.partnerSign.value;
      r.data == Compatibility(userSign, partnerSign, MatrixScore(userSign, partnerSign), d)
  {
    match body
    case Unparseable => Failure(500, InternalError)
    case NullBody => Failure(500, InternalError)
    case Fields(userSign, partnerSign) =>
      if !Given(userSign) || !Given(partnerSign) then Failure(400, SignsRequired)
      else Success(Compatibility(userSign.value, partnerSign.value, MatrixScore(userSign.value, partnerSign.value), d))
  }

  /**
   * The overall score of a reply for two sign names: 0 when their base score
   * is at most 45 (Aries with Capricorn, say), 1 when it is at least 55.
   */
  lemma OverallOfSigns(a: Sign, b: Sign, d: Draws)
    requires ValidDraws(d)
    ensures var r := Post(Fields(Some(Name(a)), Some(Name(b))), d);
      r.Success? &&
      (BaseCompatibility(a, b) <= 45 ==> r.data.overall == 0.0) &&
      (BaseCompatibility(a, b) >= 55 ==> r.data.overall == 1.0)
  {
    MatrixScoreMeaning(Name(a), Name(b));
    OverallIsZeroOrOne(BaseCompatibility(a, b), d);
  }
}
