/**
 * The nine jittered aspect scores that both the engine and the API route
 * compute, and the weights of their overall score. Each
 * `Math.floor(Math.random() * n)` is passed in as the integer it yields,
 * which lies in [0, n - 1]; the score then subtracts a fixed offset.
 */
module Aspects {
  /** One raw draw per aspect, in the order the scores are computed. */
  datatype Draws = Draws(
    sun: int, moon: int, rising: int, venus: int, mars: int,
    communication: int, emotional: int, physical: int, spiritual: int)

  /** Every draw lies in [0, n - 1] for the n its aspect multiplies Math.random() by. */
  predicate ValidDraws(d: Draws)
  {
    0 <= d.sun < 10 && 0 <= d.moon < 8 && 0 <= d.rising < 6 &&
    0 <= d.venus < 12 && 0 <= d.mars < 8 && 0 <= d.communication < 10 &&
    0 <= d.emotional < 8 && 0 <= d.physical < 12 && 0 <= d.spiritual < 6
  }

  /**
   * The weighted sum behind `overall`: sun 25%, moon 20%, rising 15%,
   * communication 15%, emotional 15%, physical 10%. Venus, mars and
   * spiritual carry no weight.
   */
  function WeightedSum(sun: real, moon: real, rising: real, communication: real, emotional: real, physical: real): (w: real)
    ensures 0.0 <= sun && 0.0 <= moon && 0.0 <= rising && 0.0 <= communication && 0.0 <= emotional && 0.0 <= physical ==> 0.0 <= w
    ensures sun <= 100.0 && moon <= 100.0 && rising <= 100.0 && communication <= 100.0 && emotional <= 100.0 && physical <= 100.0 ==> w <= 100.0
  {
    sun * 0.25 + moon * 0.2 + rising * 0.15 + communication * 0.15 + emotional * 0.15 + physical * 0.1
  }

  /** The weighted sum of six equal scores is that score: the weights add up to one. */
  lemma WeightsSumToOne(x: real)
    ensures WeightedSum(x, x, x, x, x, x) == x
  {
  }

  /** The weighted sum lies between the least and the greatest weighted score. */
  lemma WeightedSumBetween(sun: real, moon: real, rising: real, communication: real, emotional: real, physical: real, lo: real, hi: real)
    requires lo <= sun <= hi && lo <= moon <= hi && lo <= rising <= hi
    requires lo <= communication <= hi && lo <= emotional <= hi && lo <= physical <= hi
    ensures lo <= WeightedSum(sun, moon, rising, communication, emotional, physical) <= hi
  {
  }
}
