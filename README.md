# Astrology compatibility scoring, modelled in Dafny

This project models the scoring core of a zodiac-based matchmaking app. The core has three parts:

- **The zodiac reference table and date logic** (`utils/zodiac.ts`). A record per sign holds its element, quality, ruling planet and date-range label. The file also turns a birth month and day into a sign, computes an age and validates a birth date.
- **The compatibility engine** (`utils/horoscope-matching.ts`). It looks up the 12×12 base matrix, the 4×4 element table, the 3×3 quality table and the 10×10 planetary matrix. It computes nine randomly jittered aspect scores, a weighted overall score, and texts chosen by the band the overall score falls in. It also holds a simplified Kundli (Ashtakoot) matcher: eight sub-scores summed into a `guna` out of 36, a band, a Mangal Dosha flag and recommendations.
- **The compatibility API route** (`app/api/compatibility/route.ts`). It has its own copy of the base matrix with a fallback of 50 and sign-pair challenges. It validates the request and computes a weighted overall score.

The modules are:

- `Wrappers` holds `Option`.
- `JsMath` holds `Math.min/max` clamping, `Math.round` and the rendering of integers in template literals.
- `Zodiac` models `utils/zodiac.ts`.
- `PairKeys` models the `"A-B"` string keys and proves they split back uniquely.
- `Aspects` holds the random draws and the weights shared by the engine and the route.
- `CompatibilityTables`, `CompatibilityEngine` and `Kundli` model `utils/horoscope-matching.ts`.
- `CompatibilityApi` models the route.

Modelling choices:

- Scores are exact `real`s. The `communication` aspect and Tara can be half-integers. `Math.round(x)` is `Floor(x + 0.5)`.
- Every `Math.random()` draw is a parameter. It is the integer `Math.floor(Math.random() * n)` in `[0, n - 1]`, or for Vashya the boolean `Math.random() > 0.5`.
- "Today" is a parameter of the age and validation functions.
- `calculateVashya` scans its groups with a loop and an early return. It is a method, proved against the function `Vashya`.
- Every other operation is a function. Arrays built with `push` become sequences.

Two points about the code itself:

- `guna` is a number out of 36 points (utils/horoscope-matching.ts:18). Tara returns 1.5 for an odd sign distance (utils/horoscope-matching.ts:392), so `guna` can end in a half (`Kundli.GunaCanBeHalfInteger`).
- The route's matrix fallback `|| 50` (app/api/compatibility/route.ts:83) would also replace an entry of 0; the matrix has none, so it only fires for names outside the matrix (`CompatibilityApi.MatrixScoreMeaning`).

## Model

| member | source | states |
|---|---|---|
| JsMath.Clamp | utils/horoscope-matching.ts:90-99 | The clamp lands in [0, 100]. It is the identity inside that range, 0 below it and 100 above it. |
| JsMath.Round | utils/horoscope-matching.ts:102-105 | `Math.round(x)` is the integer within half a unit of x, with an exact half rounded up. |
| JsMath.RoundMonotone | utils/horoscope-matching.ts:102-105 | Rounding never reverses the order of two numbers. |
| JsMath.DigitsRoundTrip | app/api/compatibility/route.ts:118 | The decimal digits of a natural number read back as that number. |
| PairKeys.PairKey | utils/horoscope-matching.ts:223-224 | The key `${a}-${b}` has a dash right after `a` and its length is the sum of both parts plus one. |
| PairKeys.PairKeyInjective | utils/horoscope-matching.ts:223-224 | When neither stored name holds a dash, a key built from any two strings equals a stored key exactly when the strings are the stored names. |
| Zodiac.NameRoundTrip | utils/zodiac.ts:15-148 | Each sign's name parses back to that sign, and only that name does. |
| Zodiac.NameHasNoDash | utils/zodiac.ts:15-148 | No sign name contains a dash, so sign names can be joined into dash-separated keys. |
| Zodiac.Ordinal | utils/horoscope-matching.ts:382-385 | The position is what `indexOf` returns: the first index in the zodiac order that holds the sign. |
| Zodiac.GetZodiacInfo | utils/zodiac.ts:15-181 | `getZodiacInfo(s)` is `zodiacData[s]`, and that record's `sign` is s. |
| Zodiac.ElementsCycle | utils/zodiac.ts:15-148 | Along the zodiac order the elements repeat Fire, Earth, Air, Water. |
| Zodiac.QualitiesCycle | utils/zodiac.ts:15-148 | Along the zodiac order the qualities repeat Cardinal, Fixed, Mutable. |
| Zodiac.SignsOfElementListed | utils/zodiac.ts:15-148 | The signs carrying an element are exactly the listed three. |
| Zodiac.SignsOfQualityListed | utils/zodiac.ts:15-148 | The signs carrying a quality are exactly the listed four. |
| Zodiac.ElementCarriedByThreeSigns | utils/zodiac.ts:15-148 | Each element is carried by exactly three signs of the table. |
| Zodiac.QualityCarriedByFourSigns | utils/zodiac.ts:15-148 | Each quality is carried by exactly four signs of the table. |
| Zodiac.CompatibilityListsWellFormed | utils/zodiac.ts:15-148 | Each `compatibility` list names four distinct signs, none of them the sign itself. |
| Zodiac.CalculateZodiacSign | utils/zodiac.ts:153-174 | The sign of a birth date: the first month/day range that matches, else Aries. No contract of its own; its meaning is proved by `Zodiac.RangesPartitionYear`, `Zodiac.FallbackOnlyOutsideMonths`, `Zodiac.YearIsIgnored`, `Zodiac.BoundaryDays` and `Zodiac.RangeEndpointsExact`. |
| Zodiac.RangesPartitionYear | utils/zodiac.ts:159-173 | For every month 1 to 12 and every day, some range test matches. A sign's test matches exactly when that sign is returned. |
| Zodiac.FallbackOnlyOutsideMonths | utils/zodiac.ts:159-173 | No range test matches, so the `'Aries'` fallback is taken, exactly when the month is outside 1 to 12. |
| Zodiac.YearIsIgnored | utils/zodiac.ts:153-170 | The sign depends on month and day only. |
| Zodiac.BoundaryDays | utils/zodiac.ts:159-170 | Mar 20 gives Pisces and Mar 21 Aries. Dec 21 gives Sagittarius and Dec 22 Capricorn. Jan 19 gives Capricorn and Jan 20 Aquarius. |
| Zodiac.DateRangeLabelsAgree | utils/zodiac.ts:15-170 | Every `dateRange` label names the same first and last day as that sign's range test. |
| Zodiac.RangeEndpointsExact | utils/zodiac.ts:159-170 | A range's first and last days give its sign. The day before the first and the day after the last do not. |
| Zodiac.CalculateAge | utils/zodiac.ts:186-197 | The year difference, less one when this year's birthday is still to come. No contract of its own; `Zodiac.AgeCountsBirthdays` and `Zodiac.AgeSign` state what it means. |
| Zodiac.AgeCountsBirthdays | utils/zodiac.ts:186-197 | The age is the number of whole years whose anniversary falls on or before today. |
| Zodiac.AgeSign | utils/zodiac.ts:186-197 | The age is non-negative exactly when the birth day is on or before today. |
| Zodiac.ValidateBirthDate | utils/zodiac.ts:202-229 | A result is valid exactly when it carries no error. |
| Zodiac.ValidExactlyForAdults | utils/zodiac.ts:202-229 | A birth date is valid exactly when it is given, parses, and gives an age from 18 to 120. |
| Zodiac.ValidationErrorOrder | utils/zodiac.ts:203-222 | The errors take precedence in this order: required, format, under 18, over 120. |
| Zodiac.FutureErrorUnreachable | utils/zodiac.ts:224-226 | The "cannot be in the future" error is never reported, because a future date has already failed the age test. |
| Aspects.WeightedSum | utils/horoscope-matching.ts:102-105 | The weighted sum of scores in [0, 100] lies in [0, 100]. |
| Aspects.WeightsSumToOne | utils/horoscope-matching.ts:103-104 | The weights 0.25, 0.2, 0.15, 0.15, 0.15 and 0.1 add up to one. |
| Aspects.WeightedSumBetween | utils/horoscope-matching.ts:103-104 | The weighted sum lies between the least and greatest weighted score. |
| CompatibilityTables.BaseCompatibility | utils/horoscope-matching.ts:50-63 | Every base affinity lies in [40, 95]. |
| CompatibilityTables.ElementCompatibilitySymmetric | utils/horoscope-matching.ts:35-40 | The element table is symmetric, gives 85 on its diagonal and lies in [45, 90]. |
| CompatibilityTables.QualityCompatibilitySymmetric | utils/horoscope-matching.ts:43-47 | The quality table is symmetric and lies in [70, 85]. |
| CompatibilityTables.BaseCompatibilitySymmetric | utils/horoscope-matching.ts:50-63 | The base matrix is symmetric. |
| CompatibilityTables.PlanetaryMatrix | utils/horoscope-matching.ts:194-205 | Every planetary affinity lies in [50, 95]. |
| CompatibilityTables.PlanetaryCompatibility | utils/horoscope-matching.ts:193-208 | The result lies in [50, 95]. When either name is not a planet's, it is the fallback 70. |
| CompatibilityTables.PlanetNameRoundTrip | utils/horoscope-matching.ts:194-205 | Each planet's row name parses back to that planet, and only that name does. |
| CompatibilityTables.PlanetaryMatrixSymmetric | utils/horoscope-matching.ts:194-205 | The planetary matrix is symmetric. |
| CompatibilityTables.PlanetaryCompatibilitySymmetric | utils/horoscope-matching.ts:193-208 | The planetary score does not depend on the order of the two names. |
| CompatibilityTables.RulingPlanetsHaveRows | utils/horoscope-matching.ts:207 | Every ruling planet of the zodiac table has a row, so the fallback 70 never fires for two signs. |
| CompatibilityEngine.Strengths | utils/horoscope-matching.ts:229-256 | The strengths number four, four, three or two by band. |
| CompatibilityEngine.Advice | utils/horoscope-matching.ts:258-276 | There are always two pieces of advice. |
| CompatibilityEngine.Recommendations | utils/horoscope-matching.ts:326-348 | There are always three recommendations. |
| CompatibilityEngine.ListsFollowBand | utils/horoscope-matching.ts:229-348 | Two scores get the same strengths, advice and recommendations exactly when they fall in the same band at 85, 70 and 55. |
| CompatibilityEngine.LoveAnalysis | utils/horoscope-matching.ts:278-288 | The love text for a score, by the bands at 85/70/55. No contract of its own; `CompatibilityEngine.LoveFollowsBand` states it. |
| CompatibilityEngine.FriendshipAnalysis | utils/horoscope-matching.ts:290-300 | The friendship text for a score, by the bands at 85/70/55. No contract of its own; `CompatibilityEngine.FriendshipFollowsBand` states it. |
| CompatibilityEngine.MarriageAnalysis | utils/horoscope-matching.ts:302-312 | The marriage text for a score, by the bands at 85/70/55. No contract of its own; `CompatibilityEngine.MarriageFollowsBand` states it. |
| CompatibilityEngine.BusinessAnalysis | utils/horoscope-matching.ts:314-324 | The business text for a score, by the bands at 85/70/55. No contract of its own; `CompatibilityEngine.BusinessFollowsBand` states it. |
| CompatibilityEngine.LoveFollowsBand | utils/horoscope-matching.ts:278-288 | Two scores get the same love analysis exactly when they fall in the same band. |
| CompatibilityEngine.FriendshipFollowsBand | utils/horoscope-matching.ts:290-300 | Two scores get the same friendship analysis exactly when they fall in the same band. |
| CompatibilityEngine.MarriageFollowsBand | utils/horoscope-matching.ts:302-312 | Two scores get the same marriage analysis exactly when they fall in the same band. |
| CompatibilityEngine.BusinessFollowsBand | utils/horoscope-matching.ts:314-324 | Two scores get the same business analysis exactly when they fall in the same band. |
| CompatibilityEngine.ElementPairChallenges | utils/horoscope-matching.ts:211-218 | The pair-by-pair challenge table always gives two items. |
| CompatibilityEngine.Challenges | utils/horoscope-matching.ts:210-227 | The element-pair key, then the reverse key, then the generic pair. No contract of its own; `CompatibilityEngine.ChallengesByElementPair` and `CompatibilityEngine.ChallengesSymmetric` state it. |
| CompatibilityEngine.ChallengeMapByElements | utils/horoscope-matching.ts:211-224 | The key of two element labels finds an entry exactly for the six stored ordered pairs, and the entry is that pair's. |
| CompatibilityEngine.ChallengesByElementPair | utils/horoscope-matching.ts:210-227 | The string-keyed lookup, tried in both orders, agrees with the pair-by-pair table. |
| CompatibilityEngine.ChallengesSymmetric | utils/horoscope-matching.ts:210-227 | Challenges do not depend on the order of the signs and always number two. They are the generic list exactly when both signs share an element. |
| CompatibilityEngine.JitteredAspects | utils/horoscope-matching.ts:90-99 | For the scores the tables produce, no clamp cuts: each aspect is its source score moved by its jitter. |
| CompatibilityEngine.EngineOverall | utils/horoscope-matching.ts:102-105 | Dividing by 100 and multiplying back cancel. The overall is the rounded weighted sum and lies in [0, 100]. |
| CompatibilityEngine.CalculateDetailedCompatibility | utils/horoscope-matching.ts:68-134 | For every allowed draw, all ten scores lie in [0, 100] and each aspect is its source score plus its jitter. The reported overall is the rounded weighted sum of the reported aspects. Every text is chosen by that same overall. |
| CompatibilityEngine.OverallIgnoresVenusMarsSpiritual | utils/horoscope-matching.ts:102-130 | The venus, mars and spiritual draws change neither the overall score nor any text. |
| CompatibilityEngine.ScoreIgnoresOrder | utils/horoscope-matching.ts:68-134 | Swapping the two signs gives the same result. |
| Kundli.VarnaOneSided | utils/horoscope-matching.ts:352-361 | Varna lies in [0, 1]. At least one order of a pair scores the point, and both orders do exactly for equal elements. |
| Kundli.Varna | utils/horoscope-matching.ts:352-361 | Varna lies in [0, 1], its maximum. `Kundli.VarnaOneSided` states when it is 1. |
| Kundli.Vashya | utils/horoscope-matching.ts:363-378 | The Vashya points lie in [0, 2]. |
| Kundli.CalculateVashya | utils/horoscope-matching.ts:363-378 | The loop with early return yields 2 when some group holds both signs, and otherwise 1 or 0 by the draw. |
| Kundli.VashyaGroupsPartition | utils/horoscope-matching.ts:364-369 | Every sign is in exactly one Vashya group. |
| Kundli.ShareVashyaGroupByGroup | utils/horoscope-matching.ts:364-375 | Two signs share a group exactly when their groups coincide. |
| Kundli.SignDistanceZero | utils/horoscope-matching.ts:384-387 | The sign distance is symmetric and is 0 exactly for a sign with itself. |
| Kundli.TaraOfDistanceValues | utils/horoscope-matching.ts:389-395 | Over the distances 0 to 11, Tara is 0 for 0, 3 for an even distance and 1.5 for an odd one. |
| Kundli.Tara | utils/horoscope-matching.ts:380-396 | Tara lies in [0, 3], its maximum. `Kundli.TaraValues` gives its three values. |
| Kundli.TaraValues | utils/horoscope-matching.ts:380-396 | Tara takes only the values 0, 1.5 and 3. It is 0 exactly for identical signs and 3 exactly for an even nonzero distance. It is symmetric. |
| Kundli.Yoni | utils/horoscope-matching.ts:398-411 | For an allowed draw, Yoni lies in [1, 4], within its maximum of 4. `Kundli.YoniScore` states when it is 4. |
| Kundli.YoniScore | utils/horoscope-matching.ts:398-411 | No two signs share a yoni name. Yoni scores 4 exactly for a sign with itself. |
| Kundli.Graha | utils/horoscope-matching.ts:413-433 | Graha lies in [1, 5] for every allowed draw. |
| Kundli.GrahaSamePlanet | utils/horoscope-matching.ts:413-415 | Graha scores 5 exactly for equal planet names. |
| Kundli.GrahaOneSided | utils/horoscope-matching.ts:418-430 | Saturn counts Mercury and Venus as friends but neither counts Saturn. Uranus, Neptune and Pluto, which have no entry, count nobody as a friend. |
| Kundli.GanaScore | utils/horoscope-matching.ts:435-455 | Gana lies in [1, 6], its maximum. `Kundli.GanaValues` gives its values. |
| Kundli.GanaValues | utils/horoscope-matching.ts:435-455 | Gana is symmetric and takes only 1, 5 and 6. It is 1 exactly when a Rakshasa meets another gana. |
| Kundli.Rashi | utils/horoscope-matching.ts:457-472 | Rashi lies in [2, 7], within its maximum. `Kundli.RashiValues` gives its values. |
| Kundli.RashiValues | utils/horoscope-matching.ts:457-472 | Rashi is symmetric and takes only 2, 4 and 7. It is 7 exactly for opposite signs. |
| Kundli.NadiScore | utils/horoscope-matching.ts:474-490 | Nadi lies in [0, 8], its maximum. `Kundli.NadiValues` gives its values. |
| Kundli.NadiValues | utils/horoscope-matching.ts:474-490 | Nadi is symmetric and takes only 0 and 8. It is 0 for a sign with itself. |
| Kundli.CheckMangalDosha | utils/horoscope-matching.ts:492-505 | The dosha flag of a pair. No contract of its own; `Kundli.MangalDoshaExactlyOne` proves it is the exclusive-or of the two Mangal tests. |
| Kundli.MangalDoshaExactlyOne | utils/horoscope-matching.ts:492-505 | The dosha holds exactly when one sign, and not the other, is a Mangal sign. It is symmetric. |
| Kundli.MangalDoshaExamples | utils/horoscope-matching.ts:492-505 | Aries with Cancer has no dosha, since both are Mangal signs. Aries with Taurus has one. |
| Kundli.KundliBandMonotone | utils/horoscope-matching.ts:163-168 | A higher guna never gets a worse band. 28 is Excellent and 27.5 is Very Good. |
| Kundli.KundliRecommendations | utils/horoscope-matching.ts:507-533 | The band's two recommendations come first. The two dosha ones follow exactly when the dosha is present, giving four items or two. |
| Kundli.BandRecommendations | utils/horoscope-matching.ts:510-525 | Each band has two recommendations. |
| Kundli.Ashtakoot | utils/horoscope-matching.ts:148-161 | Each of the eight sub-scores lies within its maximum (1 to 8). Their total lies in [5, 36] for every allowed draw. |
| Kundli.CalculateKundliMatching | utils/horoscope-matching.ts:139-189 | guna is the total of the sub-scores. It lies in [5, 36] and is banded at 28, 24, 18 and 12. The dosha flag is the exactly-one test. The recommendations number four or two by the flag. |
| Kundli.KundliOfSameSign | utils/horoscope-matching.ts:352-490 | A sign with itself scores 1, 2, 0, 4, 5, 6, 2, 0 whatever the draws. That is guna 20, band Good and no dosha. |
| Kundli.GunaCanBeHalfInteger | utils/horoscope-matching.ts:380-396 | Aries with Taurus has Tara 1.5 and guna 17.5 plus the two draws, which is not a whole number. |
| CompatibilityApi.RouteMatrix | app/api/compatibility/route.ts:5-18 | Every entry of the route's matrix lies in [40, 95]. |
| CompatibilityApi.RouteMatrixAgrees | app/api/compatibility/route.ts:5-18 | The route's matrix equals the engine's `baseCompatibility` entry for entry. |
| CompatibilityApi.MatrixScore | app/api/compatibility/route.ts:83 | The base score lies in [40, 95]. |
| CompatibilityApi.MatrixScoreMeaning | app/api/compatibility/route.ts:83 | For two sign names the base score is `baseCompatibility`. For any other pair of strings it is 50. |
| CompatibilityApi.JitteredRouteAspects | app/api/compatibility/route.ts:86-96 | Every aspect is the base score plus its jitter, and all nine lie in [0, 100] without any clamp cutting. |
| CompatibilityApi.WeightedNearBase | app/api/compatibility/route.ts:86-101 | The weighted sum lies between base - 4.45 and base + 3.45. |
| CompatibilityApi.WeightedOverall | app/api/compatibility/route.ts:99-102 | As written, the overall is 0 or 1, and it is 1 exactly when the weighted sum reaches 50. |
| CompatibilityApi.OverallIsZeroOrOne | app/api/compatibility/route.ts:99-102 | As written, the overall is 0 for a base of at most 45 and 1 for a base of at least 55. |
| CompatibilityApi.IntendedOverall | app/api/compatibility/route.ts:99-102 | The rounded weighted sum without the division lies in [0, 100]. |
| CompatibilityApi.IntendedOverallNearBase | app/api/compatibility/route.ts:99-102 | The intended overall is the base score moved at most 4 down and 3 up. |
| CompatibilityApi.RouteStrengths | app/api/compatibility/route.ts:20-52 | Every band gives three lines. |
| CompatibilityApi.RouteStrengthsFollowBand | app/api/compatibility/route.ts:20-52 | Two scores get the same lines exactly when they fall in the same band at 90, 80, 70 and 60. |
| CompatibilityApi.Outlook | app/api/compatibility/route.ts:119-122 | The second advice line, by the bands at 80/60. No contract of its own; `CompatibilityApi.Compatibility` and `CompatibilityApi.CorrectedCompatibility` state which line each reply gets. |
| CompatibilityApi.Headline | app/api/compatibility/route.ts:118 | The first advice line. No contract of its own; `CompatibilityApi.HeadlineStatesOverall` proves it carries the overall's decimal digits before the "%". |
| CompatibilityApi.HeadlineStatesOverall | app/api/compatibility/route.ts:118 | The headline ends in "% cosmic compatibility.", and the digits before the percent sign read back as the overall score. |
| CompatibilityApi.OrderedPairChallenges | app/api/compatibility/route.ts:55-62 | Every stored challenge list has two items. |
| CompatibilityApi.RouteChallengeMapByPair | app/api/compatibility/route.ts:55-67 | The key of any two strings finds an entry exactly when they are the two stored names in that order. |
| CompatibilityApi.RouteChallenges | app/api/compatibility/route.ts:54-68 | The key, then the reverse key, then the generic pair. No contract of its own; `CompatibilityApi.RouteChallengesSymmetric` and `CompatibilityApi.RouteChallengesExamples` state it. |
| CompatibilityApi.RouteChallengesSymmetric | app/api/compatibility/route.ts:54-68 | The challenges do not depend on the order of the two strings and always number two. They are the generic list exactly when neither order is stored. |
| CompatibilityApi.RouteChallengesExamples | app/api/compatibility/route.ts:54-68 | Taurus with Aries finds the Aries-Taurus entry, Pisces with Aquarius the Aquarius-Pisces one, and Leo with Leo the generic list. |
| CompatibilityApi.Report | app/api/compatibility/route.ts:104-123 | The overall is clamped. Aspects that are already in range are reported unchanged. The texts are chosen by the unclamped overall. |
| CompatibilityApi.Compatibility | app/api/compatibility/route.ts:82-123 | As written, each aspect is the base score plus its jitter, in [0, 100]. The overall is the rounded weighted sum over 100, so 0 or 1. The strengths and the outlook are therefore always the lowest band's. |
| CompatibilityApi.CorrectedCompatibility | app/api/compatibility/route.ts:99-123 | With the intended overall, the overall lies within 4 below and 3 above the base score and picks the strengths and outlook. Every aspect and the challenges equal the as-written reply's. |
| CompatibilityApi.Post | app/api/compatibility/route.ts:70-137 | A body that is not JSON, or is null, gives 500 "Internal server error". A missing, null or empty sign gives 400 "Both zodiac signs are required". Every other body gives the score of the two strings. |
| CompatibilityApi.OverallOfSigns | app/api/compatibility/route.ts:75-102 | A request naming two signs succeeds. Its overall is 0 when their base score is at most 45 and 1 when it is at least 55. |

## Left out

- Date parsing, time zones and locale formatting (`new Date(str)`, `getMonth`, `getDate`, `toLocaleDateString`, `formatBirthDate`). The sign is computed from an integer month and day, and an unparseable date is a separate case. The validation takes the raw string, the parsed day and today as parameters.
- `validateBirthDate` compares `date > today` on instants. The model compares calendar days, since the time of day is not modelled.
- Floating-point effects: the weights 0.25, 0.2, 0.15 and 0.1 are exact rationals here. IEEE-754 rounding could differ from exact arithmetic at a .5 tie.
- The pseudo-random generator: every `Math.random()` draw is an integer parameter in its range. The ranges are preconditions of the scoring functions.
- Object-prototype keys such as `"constructor"` in the string-keyed records of the route and the planetary matrix. The model treats every name that is not a stored key as absent.
- JSON values other than strings for `userSign` and `partnerSign`, such as numbers. The route's `!field` test is modelled for absent, null and empty-string fields.
- The birth-time parameters of `calculateDetailedCompatibility` and `calculateKundliMatching`, and the sign parameters of the text choosers. The source never reads them.
- The HTTP plumbing of `POST`: logging, response headers and the JSON encoding of the reply.
- Kundli.BandRecommendations: the band is the enumerated `KundliBand`. The labels 'Excellent', 'Very Good', 'Good', 'Average' and 'Poor' are not modelled as strings.

## Findings

| source | as written | input that shows it | evidently intended | confidence | as-written member | corrected member |
|---|---|---|---|---|---|---|
| app/api/compatibility/route.ts:99-102 | `overall = Math.round(weightedSum / 100)`, with no multiplication back by 100 | Aries with Sagittarius (base 95) gives overall 1 for every draw. The reply then says "1% cosmic compatibility" and takes the lowest strengths band. | `Math.round(weightedSum)`, a percentage, as the engine computes at utils/horoscope-matching.ts:102-105 | not executed | CompatibilityApi.OverallIsZeroOrOne | CompatibilityApi.IntendedOverallNearBase |
