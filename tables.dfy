/**
 * The score tables of the compatibility engine (utils/horoscope-matching.ts):
 * element and quality affinities, the 12 by 12 base matrix and the 10 by 10
 * planetary matrix with its fallback for an unknown planet name.
 */
module CompatibilityTables {
  import opened Wrappers
  import opened Zodiac

  /** elementCompatibility: the affinity of two elements. */
  function ElementCompatibility(a: Element, b: Element): int
  {
    match a
    case Fire => (
      match b
      case Fire => 85 case Earth => 60 case Air => 90 case Water => 45)
    case Earth => (
      match b
      case Fire => 60 case Earth => 85 case Air => 50 case Water => 90)
    case Air => (
      match b
      case Fire => 90 case Earth => 50 case Air => 85 case Water => 65)
    case Water => (
      match b
      case Fire => 45 case Earth => 90 case Air => 65 case Water => 85)
  }

  /** qualityCompatibility: the affinity of two qualities. */
  function QualityCompatibility(a: Quality, b: Quality): int
  {
    match a
    case Cardinal => (
      match b
      case Cardinal => 70 case Fixed => 85 case Mutable => 80)
    case Fixed => (
      match b
      case Cardinal => 85 case Fixed => 75 case Mutable => 70)
    case Mutable => (
      match b
      case Cardinal => 80 case Fixed => 70 case Mutable => 85)
  }

  /** baseCompatibility: the affinity of an ordered pair of signs. */
  function BaseCompatibility(a: Sign, b: Sign): (r: int)
    ensures 40 <= r <= 95
  {
    match a
    case Aries => (
      match b
      case Aries => 85 case Taurus => 60 case Gemini => 75 case Cancer => 50 case Leo => 90 case Virgo => 45 case Libra => 70 case Scorpio => 80 case Sagittarius => 95 case Capricorn => 40 case Aquarius => 75 case Pisces => 55)
    case Taurus => (
      match b
      case Aries => 60 case Taurus => 80 case Gemini => 50 case Cancer => 85 case Leo => 70 case Virgo => 90 case Libra => 75 case Scorpio => 65 case Sagittarius => 40 case Capricorn => 95 case Aquarius => 45 case Pisces => 80)
    case Gemini => (
      match b
      case Aries => 75 case Taurus => 50 case Gemini => 85 case Cancer => 60 case Leo => 80 case Virgo => 70 case Libra => 90 case Scorpio => 55 case Sagittarius => 75 case Capricorn => 50 case Aquarius => 95 case Pisces => 70)
    case Cancer => (
      match b
      case Aries => 50 case Taurus => 85 case Gemini => 60 case Cancer => 80 case Leo => 65 case Virgo => 75 case Libra => 70 case Scorpio => 90 case Sagittarius => 45 case Capricorn => 70 case Aquarius => 55 case Pisces => 95)
    case Leo => (
      match b
      case Aries => 90 case Taurus => 70 case Gemini => 80 case Cancer => 65 case Leo => 85 case Virgo => 60 case Libra => 80 case Scorpio => 75 case Sagittarius => 90 case Capricorn => 55 case Aquarius => 70 case Pisces => 60)
    case Virgo => (
      match b
      case Aries => 45 case Taurus => 90 case Gemini => 70 case Cancer => 75 case Leo => 60 case Virgo => 80 case Libra => 65 case Scorpio => 70 case Sagittarius => 50 case Capricorn => 95 case Aquarius => 60 case Pisces => 75)
    case Libra => (
      match b
      case Aries => 70 case Taurus => 75 case Gemini => 90 case Cancer => 70 case Leo => 80 case Virgo => 65 case Libra => 85 case Scorpio => 60 case Sagittarius => 75 case Capricorn => 70 case Aquarius => 80 case Pisces => 85)
    case Scorpio => (
      match b
      case Aries => 80 case Taurus => 65 case Gemini => 55 case Cancer => 90 case Leo => 75 case Virgo => 70 case Libra => 60 case Scorpio => 85 case Sagittarius => 70 case Capricorn => 80 case Aquarius => 50 case Pisces => 90)
    case Sagittarius => (
      match b
      case Aries => 95 case Taurus => 40 case Gemini => 75 case Cancer => 45 case Leo => 90 case Virgo => 50 case Libra => 75 case Scorpio => 70 case Sagittarius => 85 case Capricorn => 60 case Aquarius => 80 case Pisces => 65)
    case Capricorn => (
      match b
      case Aries => 40 case Taurus => 95 case Gemini => 50 case Cancer => 70 case Leo => 55 case Virgo => 95 case Libra => 70 case Scorpio => 80 case Sagittarius => 60 case Capricorn => 80 case Aquarius => 65 case Pisces => 70)
    case Aquarius => (
      match b
      case Aries => 75 case Taurus => 45 case Gemini => 95 case Cancer => 55 case Leo => 70 case Virgo => 60 case Libra => 80 case Scorpio => 50 case Sagittarius => 80 case Capricorn => 65 case Aquarius => 85 case Pisces => 75)
    case Pisces => (
      match b
      case Aries => 55 case Taurus => 80 case Gemini => 70 case Cancer => 95 case Leo => 60 case Virgo => 75 case Libra => 85 case Scorpio => 90 case Sagittarius => 65 case Capricorn => 70 case Aquarius => 75 case Pisces => 80)
  }

  /** The ten planets that have a row in the planetary matrix. */
  datatype Planet = Mars | Venus | Mercury | Moon | Sun | Jupiter | Saturn | Uranus | Neptune | Pluto

  /** The planet a string names, if it has a row in the planetary matrix. */
  function PlanetOfName(name: string): (r: Option<Planet>)
  {
    if name == "Mars" then Some(Mars)
    else if name == "Venus" then Some(Venus)
    else if name == "Mercury" then Some(Mercury)
    else if name == "Moon" then Some(Moon)
    else if name == "Sun" then Some(Sun)
    else if name == "Jupiter" then Some(Jupiter)
    else if name == "Saturn" then Some(Saturn)
    else if name == "Uranus" then Some(Uranus)
    else if name == "Neptune" then Some(Neptune)
    else if name == "Pluto" then Some(Pluto)
    else None
  }

  /** The entry of the planetary matrix for two planets. */
  function PlanetaryMatrix(p: Planet, q: Planet): (r: int)
    ensures 50 <= r <= 95
  {
    match p
    case Mars => (
      match q
      case Mars => 80 case Venus => 70 case Mercury => 60 case Moon => 50 case Sun => 85 case Jupiter => 75 case Saturn => 65 case Uranus => 70 case Neptune => 60 case Pluto => 90)
    case Venus => (
      match q
      case Mars => 70 case Venus => 85 case Mercury => 80 case Moon => 90 case Sun => 75 case Jupiter => 85 case Saturn => 60 case Uranus => 70 case Neptune => 85 case Pluto => 65)
    case Mercury => (
      match q
      case Mars => 60 case Venus => 80 case Mercury => 85 case Moon => 70 case Sun => 80 case Jupiter => 75 case Saturn => 70 case Uranus => 90 case Neptune => 75 case Pluto => 60)
    case Moon => (
      match q
      case Mars => 50 case Venus => 90 case Mercury => 70 case Moon => 80 case Sun => 60 case Jupiter => 85 case Saturn => 55 case Uranus => 65 case Neptune => 95 case Pluto => 70)
    case Sun => (
      match q
      case Mars => 85 case Venus => 75 case Mercury => 80 case Moon => 60 case Sun => 85 case Jupiter => 90 case Saturn => 50 case Uranus => 75 case Neptune => 70 case Pluto => 80)
    case Jupiter => (
      match q
      case Mars => 75 case Venus => 85 case Mercury => 75 case Moon => 85 case Sun => 90 case Jupiter => 85 case Saturn => 70 case Uranus => 80 case Neptune => 85 case Pluto => 75)
    case Saturn => (
      match q
      case Mars => 65 case Venus => 60 case Mercury => 70 case Moon => 55 case Sun => 50 case Jupiter => 70 case Saturn => 80 case Uranus => 75 case Neptune => 65 case Pluto => 85)
    case Uranus => (
      match q
      case Mars => 70 case Venus => 70 case Mercury => 90 case Moon => 65 case Sun => 75 case Jupiter => 80 case Saturn => 75 case Uranus => 85 case Neptune => 80 case Pluto => 70)
    case Neptune => (
      match q
      case Mars => 60 case Venus => 85 case Mercury => 75 case Moon => 95 case Sun => 70 case Jupiter => 85 case Saturn => 65 case Uranus => 80 case Neptune => 85 case Pluto => 80)
    case Pluto => (
      match q
      case Mars => 90 case Venus => 65 case Mercury => 60 case Moon => 70 case Sun => 80 case Jupiter => 75 case Saturn => 85 case Uranus => 70 case Neptune => 80 case Pluto => 85)
  }

  /**
   * calculatePlanetaryCompatibility: the matrix entry of two planet names,
   * or 70 when either name has no row or column (the `|| 70` fallback; no
   * entry is 0, so the fallback fires exactly for a missing entry).
   */
  function PlanetaryCompatibility(planet1: string, planet2: string): (r: int)
    ensures 50 <= r <= 95
    ensures PlanetOfName(planet1).None? || PlanetOfName(planet2).None? ==> r == 70
  {
    match (PlanetOfName(planet1), PlanetOfName(planet2))
    case (Some(p), Some(q)) => PlanetaryMatrix(p, q)
    case _ => 70
  }

  /** The name of a planet, as the zodiac table spells ruling planets. */
  function PlanetName(p: Planet): string
  {
    match p
    case Mars => "Mars" case Venus => "Venus" case Mercury => "Mercury" case Moon => "Moon"
    case Sun => "Sun" case Jupiter => "Jupiter" case Saturn => "Saturn" case Uranus => "Uranus"
    case Neptune => "Neptune" case Pluto => "Pluto"
  }

  /** PlanetName and PlanetOfName are inverse: a name has a row exactly when it is a planet's name. */
  lemma PlanetNameRoundTrip(p: Planet, name: string)
    ensures PlanetOfName(PlanetName(p)) == Some(p)
    ensures PlanetOfName(name) == Some(p) <==> name == PlanetName(p)
  {
  }

  /** The element table is symmetric, and two signs of one element score 85. */
  lemma ElementCompatibilitySymmetric(a: Element, b: Element)
    ensures ElementCompatibility(a, b) == ElementCompatibility(b, a)
    ensures a == b ==> ElementCompatibility(a, b) == 85
    ensures 45 <= ElementCompatibility(a, b) <= 90
  {
  }

  /** The quality table is symmetric. */
  lemma QualityCompatibilitySymmetric(a: Quality, b: Quality)
    ensures QualityCompatibility(a, b) == QualityCompatibility(b, a)
    ensures 70 <= QualityCompatibility(a, b) <= 85
  {
  }

  /** The base matrix is symmetric: the order of the two signs does not matter. */
  lemma BaseCompatibilitySymmetric(a: Sign, b: Sign)
    ensures BaseCompatibility(a, b) == BaseCompatibility(b, a)
  {
  }

  /** The planetary matrix is symmetric. */
  lemma PlanetaryMatrixSymmetric(p: Planet, q: Planet)
    ensures PlanetaryMatrix(p, q) == PlanetaryMatrix(q, p)
  {
  }

  /** calculatePlanetaryCompatibility is symmetric in its two names, fallback included. */
  lemma PlanetaryCompatibilitySymmetric(planet1: string, planet2: string)
    ensures PlanetaryCompatibility(planet1, planet2) == PlanetaryCompatibility(planet2, planet1)
  {
    match (PlanetOfName(planet1), PlanetOfName(planet2))
    case (Some(p), Some(q)) => PlanetaryMatrixSymmetric(p, q);
    case _ =>
  }

  /**
   * Every ruling planet of the zodiac table has a row in the planetary
   * matrix, so for two signs the 70 fallback never fires.
   */
  lemma RulingPlanetsHaveRows(a: Sign, b: Sign)
    ensures PlanetOfName(RulingPlanet(a)).Some?
    ensures PlanetaryCompatibility(RulingPlanet(a), RulingPlanet(b))
      == PlanetaryMatrix(PlanetOfName(RulingPlanet(a)).value, PlanetOfName(RulingPlanet(b)).value)
  {
  }
}
