/**
 * The zodiac reference table (utils/zodiac.ts): the twelve signs with their
 * element, quality, ruling planet and date range, the sign of a birth date,
 * and the birth-date validation.
 */
module Zodiac {
  import opened Wrappers
  import JsMath

  datatype Sign =
    Aries | Taurus | Gemini | Cancer | Leo | Virgo |
    Libra | Scorpio | Sagittarius | Capricorn | Aquarius | Pisces

  datatype Element = Fire | Earth | Air | Water

  datatype Quality = Cardinal | Fixed | Mutable

  /** One entry of the reference table. The ruling planet is a free string, as in the source. */
  datatype ZodiacInfo = ZodiacInfo(
    sign: Sign,
    symbol: string,
    element: Element,
    quality: Quality,
    rulingPlanet: string,
    color: string,
    traits: seq<string>,
    compatibility: seq<Sign>,
    dateRange: string)

  // ---------------------------------------------------------------------------
  // Sign identifiers

  /** The string identifier of a sign (the ZodiacSign string union). */
  function Name(s: Sign): string
  {
    match s
    case Aries => "Aries"
    case Taurus => "Taurus"
    case Gemini => "Gemini"
    case Cancer => "Cancer"
    case Leo => "Leo"
    case Virgo => "Virgo"
    case Libra => "Libra"
    case Scorpio => "Scorpio"
    case Sagittarius => "Sagittarius"
    case Capricorn => "Capricorn"
    case Aquarius => "Aquarius"
    case Pisces => "Pisces"
  }

  /** The sign a string names, if it names one (a lookup by key in a sign-keyed record). */
  function SignOfName(name: string): (r: Option<Sign>)
  {
    if name == "Aries" then Some(Aries)
    else if name == "Taurus" then Some(Taurus)
    else if name == "Gemini" then Some(Gemini)
    else if name == "Cancer" then Some(Cancer)
    else if name == "Leo" then Some(Leo)
    else if name == "Virgo" then Some(Virgo)
    else if name == "Libra" then Some(Libra)
    else if name == "Scorpio" then Some(Scorpio)
    else if name == "Sagittarius" then Some(Sagittarius)
    else if name == "Capricorn" then Some(Capricorn)
    else if name == "Aquarius" then Some(Aquarius)
    else if name == "Pisces" then Some(Pisces)
    else None
  }

  /** Name and SignOfName are inverse: a name is recognised exactly when it is some sign's name. */
  lemma NameRoundTrip(s: Sign, name: string)
    ensures SignOfName(Name(s)) == Some(s)
    ensures SignOfName(name) == Some(s) <==> name == Name(s)
  {
  }

  /** No sign identifier contains a dash (string keys are built as "A-B"). */
  lemma NameHasNoDash(s: Sign)
    ensures '-' !in Name(s)
  {
  }

  /** The zodiac order, Aries first (also the local list of the Tara and Rashi scores). */
  const AllSigns: seq<Sign> :=
    [Aries, Taurus, Gemini, Cancer, Leo, Virgo, Libra, Scorpio, Sagittarius, Capricorn, Aquarius, Pisces]

  /** The position of a sign in the zodiac order (what `signs.indexOf(sign)` returns). */
  function Ordinal(s: Sign): (i: nat)
    ensures i < |AllSigns| && AllSigns[i] == s
    ensures forall j :: 0 <= j < i ==> AllSigns[j] != s
  {
    match s
    case Aries => 0
    case Taurus => 1
    case Gemini => 2
    case Cancer => 3
    case Leo => 4
    case Virgo => 5
    case Libra => 6
    case Scorpio => 7
    case Sagittarius => 8
    case Capricorn => 9
    case Aquarius => 10
    case Pisces => 11
  }

  // ---------------------------------------------------------------------------
  // The reference table

  /**
   * zodiacData: the static record for each sign. The table is written column
   * by column below; each column function gives one field of every entry.
   */
  function ZodiacData(s: Sign): ZodiacInfo
  {
    ZodiacInfo(SignField(s), Symbol(s), ElementOf(s), QualityOf(s), RulingPlanet(s), Color(s),
      Traits(s), BestMatches(s), DateRangeText(s))
  }

  /** zodiacData column: the sign each record names. */
  function SignField(s: Sign): Sign
  {
    match s
    case Aries => Aries
    case Taurus => Taurus
    case Gemini => Gemini
    case Cancer => Cancer
    case Leo => Leo
    case Virgo => Virgo
    case Libra => Libra
    case Scorpio => Scorpio
    case Sagittarius => Sagittarius
    case Capricorn => Capricorn
    case Aquarius => Aquarius
    case Pisces => Pisces
  }

  /** zodiacData column: the sign's glyph. */
  function Symbol(s: Sign): string
  {
    match s
    case Aries => "\U{2648}"
    case Taurus => "\U{2649}"
    case Gemini => "\U{264A}"
    case Cancer => "\U{264B}"
    case Leo => "\U{264C}"
    case Virgo => "\U{264D}"
    case Libra => "\U{264E}"
    case Scorpio => "\U{264F}"
    case Sagittarius => "\U{2650}"
    case Capricorn => "\U{2651}"
    case Aquarius => "\U{2652}"
    case Pisces => "\U{2653}"
  }

  /** zodiacData column: the sign's element. */
  function ElementOf(s: Sign): Element
  {
    match s
    case Aries => Fire
    case Taurus => Earth
    case Gemini => Air
    case Cancer => Water
    case Leo => Fire
    case Virgo => Earth
    case Libra => Air
    case Scorpio => Water
    case Sagittarius => Fire
    case Capricorn => Earth
    case Aquarius => Air
    case Pisces => Water
  }

  /** zodiacData column: the sign's quality. */
  function QualityOf(s: Sign): Quality
  {
    match s
    case Aries => Cardinal
    case Taurus => Fixed
    case Gemini => Mutable
    case Cancer => Cardinal
    case Leo => Fixed
    case Virgo => Mutable
    case Libra => Cardinal
    case Scorpio => Fixed
    case Sagittarius => Mutable
    case Capricorn => Cardinal
    case Aquarius => Fixed
    case Pisces => Mutable
  }

  /** zodiacData column: the sign's ruling planet. */
  function RulingPlanet(s: Sign): string
  {
    match s
    case Aries => "Mars"
    case Taurus => "Venus"
    case Gemini => "Mercury"
    case Cancer => "Moon"
    case Leo => "Sun"
    case Virgo => "Mercury"
    case Libra => "Venus"
    case Scorpio => "Pluto"
    case Sagittarius => "Jupiter"
    case Capricorn => "Saturn"
    case Aquarius => "Uranus"
    case Pisces => "Neptune"
  }

  /** zodiacData column: the sign's colour. */
  function Color(s: Sign): string
  {
    match s
    case Aries => "Red"
    case Taurus => "Green"
    case Gemini => "Yellow"
    case Cancer => "Silver"
    case Leo => "Gold"
    case Virgo => "Navy Blue"
    case Libra => "Pink"
    case Scorpio => "Deep Red"
    case Sagittarius => "Purple"
    case Capricorn => "Brown"
    case Aquarius => "Turquoise"
    case Pisces => "Sea Green"
  }

  /** zodiacData column: the sign's five traits. */
  function Traits(s: Sign): seq<string>
  {
    match s
    case Aries => ["Energetic", "Courageous", "Independent", "Competitive", "Impulsive"]
    case Taurus => ["Reliable", "Patient", "Practical", "Devoted", "Stubborn"]
    case Gemini => ["Curious", "Adaptable", "Communicative", "Witty", "Indecisive"]
    case Cancer => ["Emotional", "Intuitive", "Protective", "Nurturing", "Moody"]
    case Leo => ["Confident", "Generous", "Creative", "Dramatic", "Arrogant"]
    case Virgo => ["Analytical", "Practical", "Helpful", "Perfectionist", "Critical"]
    case Libra => ["Diplomatic", "Charming", "Balanced", "Social", "Indecisive"]
    case Scorpio => ["Intense", "Passionate", "Mysterious", "Loyal", "Jealous"]
    case Sagittarius => ["Adventurous", "Optimistic", "Philosophical", "Independent", "Impatient"]
    case Capricorn => ["Ambitious", "Disciplined", "Practical", "Responsible", "Pessimistic"]
    case Aquarius => ["Independent", "Innovative", "Humanitarian", "Eccentric", "Detached"]
    case Pisces => ["Compassionate", "Artistic", "Intuitive", "Gentle", "Escapist"]
  }

  /** zodiacData column: the sign's curated best matches. */
  function BestMatches(s: Sign): seq<Sign>
  {
    match s
    case Aries => [Leo, Sagittarius, Gemini, Aquarius]
    case Taurus => [Virgo, Capricorn, Cancer, Pisces]
    case Gemini => [Libra, Aquarius, Aries, Leo]
    case Cancer => [Scorpio, Pisces, Taurus, Virgo]
    case Leo => [Aries, Sagittarius, Gemini, Libra]
    case Virgo => [Taurus, Capricorn, Cancer, Scorpio]
    case Libra => [Gemini, Aquarius, Leo, Sagittarius]
    case Scorpio => [Cancer, Pisces, Virgo, Capricorn]
    case Sagittarius => [Aries, Leo, Libra, Aquarius]
    case Capricorn => [Taurus, Virgo, Scorpio, Pisces]
    case Aquarius => [Gemini, Libra, Aries, Sagittarius]
    case Pisces => [Cancer, Scorpio, Taurus, Capricorn]
  }

  /** zodiacData column: the sign's date range label. */
  function DateRangeText(s: Sign): string
  {
    match s
    case Aries => "March 21 - April 19"
    case Taurus => "April 20 - May 20"
    case Gemini => "May 21 - June 20"
    case Cancer => "June 21 - July 22"
    case Leo => "July 23 - August 22"
    case Virgo => "August 23 - September 22"
    case Libra => "September 23 - October 22"
    case Scorpio => "October 23 - November 21"
    case Sagittarius => "November 22 - December 21"
    case Capricorn => "December 22 - January 19"
    case Aquarius => "January 20 - February 18"
    case Pisces => "February 19 - March 20"
  }

  /** getZodiacInfo: the table entry of a sign, which is about that very sign. */
  function GetZodiacInfo(sign: Sign): (info: ZodiacInfo)
    ensures info == ZodiacData(sign)
    ensures info.sign == sign
  {
    ZodiacData(sign)
  }

  /**
   * The table follows the classical cycles: elements repeat Fire, Earth, Air,
   * Water and qualities repeat Cardinal, Fixed, Mutable along the zodiac order.
   */
  lemma ElementsCycle(s: Sign)
    ensures ElementOf(s) == [Fire, Earth, Air, Water][Ordinal(s) % 4]
  {
  }

  /** See ElementsCycle. */
  lemma QualitiesCycle(s: Sign)
    ensures QualityOf(s) == [Cardinal, Fixed, Mutable][Ordinal(s) % 3]
  {
  }

  /** The signs of the table that carry element e. */
  function SignsOfElement(e: Element): set<Sign>
  {
    set s | s in AllSigns && ElementOf(s) == e
  }

  /** The signs of the table that carry quality q. */
  function SignsOfQuality(q: Quality): set<Sign>
  {
    set s | s in AllSigns && QualityOf(s) == q
  }

  /** The signs of element e, listed. */
  function ElementMembers(e: Element): set<Sign>
  {
    match e
    case Fire => {Aries, Leo, Sagittarius}
    case Earth => {Taurus, Virgo, Capricorn}
    case Air => {Gemini, Libra, Aquarius}
    case Water => {Cancer, Scorpio, Pisces}
  }

  /** The signs of quality q, listed. */
  function QualityMembers(q: Quality): set<Sign>
  {
    match q
    case Cardinal => {Aries, Cancer, Libra, Capricorn}
    case Fixed => {Taurus, Leo, Scorpio, Aquarius}
    case Mutable => {Gemini, Virgo, Sagittarius, Pisces}
  }

  /** A sign carries element e exactly when it is listed for e. */
  lemma ElementMembership(s: Sign, e: Element)
    ensures ElementOf(s) == e <==> s in ElementMembers(e)
  {
    match s case Aries => case Taurus => case Gemini => case Cancer => case Leo => case Virgo => case Libra => case Scorpio => case Sagittarius => case Capricorn => case Aquarius => case Pisces =>
  }

  /** A sign carries quality q exactly when it is listed for q. */
  lemma QualityMembership(s: Sign, q: Quality)
    ensures QualityOf(s) == q <==> s in QualityMembers(q)
  {
    match s case Aries => case Taurus => case Gemini => case Cancer => case Leo => case Virgo => case Libra => case Scorpio => case Sagittarius => case Capricorn => case Aquarius => case Pisces =>
  }

  /** The set of signs carrying element e is the listed one. */
  lemma SignsOfElementListed(e: Element)
    ensures SignsOfElement(e) == ElementMembers(e)
  {
    forall s ensures s in SignsOfElement(e) <==> s in ElementMembers(e) {
      ElementMembership(s, e);
      assert AllSigns[Ordinal(s)] == s;
    }
  }

  /** The set of signs carrying quality q is the listed one. */
  lemma SignsOfQualityListed(q: Quality)
    ensures SignsOfQuality(q) == QualityMembers(q)
  {
    forall s ensures s in SignsOfQuality(q) <==> s in QualityMembers(q) {
      QualityMembership(s, q);
      assert AllSigns[Ordinal(s)] == s;
    }
  }

  /** Each element is carried by exactly three signs. */
  lemma ElementCarriedByThreeSigns(e: Element)
    ensures |SignsOfElement(e)| == 3
  {
    SignsOfElementListed(e);
    ElementMembersCount(e);
  }

  /** The listed element sets have three members each. */
  lemma ElementMembersCount(e: Element)
    ensures |ElementMembers(e)| == 3
  {
    match e
    case Fire => assert |{Aries, Leo, Sagittarius}| == 3;
    case Earth => assert |{Taurus, Virgo, Capricorn}| == 3;
    case Air => assert |{Gemini, Libra, Aquarius}| == 3;
    case Water => assert |{Cancer, Scorpio, Pisces}| == 3;
  }

  /** Each quality is carried by exactly four signs. */
  lemma QualityCarriedByFourSigns(q: Quality)
    ensures |SignsOfQuality(q)| == 4
  {
    SignsOfQualityListed(q);
    QualityMembersCount(q);
  }

  /** The listed quality sets have four members each. */
  lemma QualityMembersCount(q: Quality)
    ensures |QualityMembers(q)| == 4
  {
    match q
    case Cardinal => assert |{Aries, Cancer, Libra, Capricorn}| == 4;
    case Fixed => assert |{Taurus, Leo, Scorpio, Aquarius}| == 4;
    case Mutable => assert |{Gemini, Virgo, Sagittarius, Pisces}| == 4;
  }

  /** Each curated best-matches list names four distinct other signs. */
  lemma CompatibilityListsWellFormed(s: Sign)
    ensures |BestMatches(s)| == 4
    ensures s !in BestMatches(s)
    ensures forall i, j :: 0 <= i < j < 4 ==> BestMatches(s)[i] != BestMatches(s)[j]
  {
  }

  // ---------------------------------------------------------------------------
  // Sign of a birth date

  /** The result of `new Date(birthDate)` as read through getFullYear(), getMonth() + 1 and getDate(). */
  datatype CalendarDay = Day(year: int, month: int, day: int)

  /** A parsed birth date: Unparseable stands for an Invalid Date, whose month and day read as NaN. */
  datatype BirthDate = Unparseable | Parsed(date: CalendarDay)

  /** The inclusive range of a sign: from startMonth/startDay to endMonth/endDay of the next month. */
  datatype DateRange = DateRange(startMonth: int, startDay: int, endMonth: int, endDay: int)

  /** The constants of the twelve range tests of calculateZodiacSign. */
  function SignRange(s: Sign): DateRange
  {
    match s
    case Aries => DateRange(3, 21, 4, 19)
    case Taurus => DateRange(4, 20, 5, 20)
    case Gemini => DateRange(5, 21, 6, 20)
    case Cancer => DateRange(6, 21, 7, 22)
    case Leo => DateRange(7, 23, 8, 22)
    case Virgo => DateRange(8, 23, 9, 22)
    case Libra => DateRange(9, 23, 10, 22)
    case Scorpio => DateRange(10, 23, 11, 21)
    case Sagittarius => DateRange(11, 22, 12, 21)
    case Capricorn => DateRange(12, 22, 1, 19)
    case Aquarius => DateRange(1, 20, 2, 18)
    case Pisces => DateRange(2, 19, 3, 20)
  }

  /** One range test: `(month === A && day >= X) || (month === B && day <= Y)`. */
  predicate InRange(r: DateRange, month: int, day: int)
  {
    (month == r.startMonth && day >= r.startDay) || (month == r.endMonth && day <= r.endDay)
  }

  /** The twelve tests in source order; None when none of them matches. */
  function MatchRange(month: int, day: int): Option<Sign>
  {
    if InRange(SignRange(Aries), month, day) then Some(Aries)
    else if InRange(SignRange(Taurus), month, day) then Some(Taurus)
    else if InRange(SignRange(Gemini), month, day) then Some(Gemini)
    else if InRange(SignRange(Cancer), month, day) then Some(Cancer)
    else if InRange(SignRange(Leo), month, day) then Some(Leo)
    else if InRange(SignRange(Virgo), month, day) then Some(Virgo)
    else if InRange(SignRange(Libra), month, day) then Some(Libra)
    else if InRange(SignRange(Scorpio), month, day) then Some(Scorpio)
    else if InRange(SignRange(Sagittarius), month, day) then Some(Sagittarius)
    else if InRange(SignRange(Capricorn), month, day) then Some(Capricorn)
    else if InRange(SignRange(Aquarius), month, day) then Some(Aquarius)
    else if InRange(SignRange(Pisces), month, day) then Some(Pisces)
    else None
  }

  /**
   * calculateZodiacSign: the sign whose range test matches, or Aries when none
   * does. An unparseable date compares false against every constant.
   */
  function CalculateZodiacSign(birthDate: BirthDate): Sign
  {
    match birthDate
    case Unparseable => Aries
    case Parsed(d) =>
      match MatchRange(d.month, d.day)
      case Some(s) => s
      case None => Aries
  }

  /**
   * For every month 1..12 and every day, exactly one of the twelve tests
   * matches, and MatchRange returns that sign.
   */
  lemma RangesPartitionYear(month: int, day: int)
    requires 1 <= month <= 12
    ensures MatchRange(month, day).Some?
    ensures forall s :: InRange(SignRange(s), month, day) <==> MatchRange(month, day) == Some(s)
  {
  }

  /** The Aries fallback is taken exactly when the month is not one of 1..12. */
  lemma FallbackOnlyOutsideMonths(month: int, day: int)
    ensures MatchRange(month, day).None? <==> !(1 <= month <= 12)
  {
    if 1 <= month <= 12 {
      RangesPartitionYear(month, day);
    }
  }

  /** The result depends on month and day only; the year is ignored. */
  lemma YearIsIgnored(y1: int, y2: int, month: int, day: int)
    ensures CalculateZodiacSign(Parsed(Day(y1, month, day))) == CalculateZodiacSign(Parsed(Day(y2, month, day)))
  {
  }

  /** The boundary days of the ranges and two birth dates. */
  lemma BoundaryDays()
    ensures CalculateZodiacSign(Parsed(Day(2000, 3, 20))) == Pisces
    ensures CalculateZodiacSign(Parsed(Day(2000, 3, 21))) == Aries
    ensures CalculateZodiacSign(Parsed(Day(2000, 12, 21))) == Sagittarius
    ensures CalculateZodiacSign(Parsed(Day(2000, 12, 22))) == Capricorn
    ensures CalculateZodiacSign(Parsed(Day(2000, 1, 19))) == Capricorn
    ensures CalculateZodiacSign(Parsed(Day(2000, 1, 20))) == Aquarius
    ensures CalculateZodiacSign(Parsed(Day(1995, 7, 10))) == Cancer
    ensures CalculateZodiacSign(Parsed(Day(1990, 1, 1))) == Capricorn
  {
  }

  /** English month names, as the date-range labels spell them. */
  function MonthName(month: int): string
    requires 1 <= month <= 12
  {
    if month == 1 then "January"
    else if month == 2 then "February"
    else if month == 3 then "March"
    else if month == 4 then "April"
    else if month == 5 then "May"
    else if month == 6 then "June"
    else if month == 7 then "July"
    else if month == 8 then "August"
    else if month == 9 then "September"
    else if month == 10 then "October"
    else if month == 11 then "November"
    else "December"
  }

  /** The label "Month D - Month D" of a range. */
  function RangeLabel(r: DateRange): string
    requires 1 <= r.startMonth <= 12 && 1 <= r.endMonth <= 12
  {
    MonthName(r.startMonth) + (" " + (JsMath.IntToString(r.startDay) + (" - "
      + (MonthName(r.endMonth) + (" " + JsMath.IntToString(r.endDay))))))
  }

  /**
   * The dateRange label of every table entry states the same first and last
   * day as that sign's test in calculateZodiacSign.
   */
  lemma DateRangeLabelsAgree(s: Sign)
    ensures 1 <= SignRange(s).startMonth <= 12 && 1 <= SignRange(s).endMonth <= 12
    ensures DateRangeText(s) == RangeLabel(SignRange(s))
  {
    match s
    case Aries => AriesLabel();
    case Taurus => TaurusLabel();
    case Gemini => GeminiLabel();
    case Cancer => CancerLabel();
    case Leo => LeoLabel();
    case Virgo => VirgoLabel();
    case Libra => LibraLabel();
    case Scorpio => ScorpioLabel();
    case Sagittarius => SagittariusLabel();
    case Capricorn => CapricornLabel();
    case Aquarius => AquariusLabel();
    case Pisces => PiscesLabel();
  }

  /** A two-digit day renders as its two digits. */
  lemma TwoDigitDay(n: int)
    requires 10 <= n < 100
    ensures JsMath.IntToString(n) == [JsMath.DigitChar(n / 10), JsMath.DigitChar(n % 10)]
  {
    assert JsMath.Digits(n / 10) == [JsMath.DigitChar(n / 10)];
    assert JsMath.Digits(n) == JsMath.Digits(n / 10) + [JsMath.DigitChar(n % 10)];
  }

  /** The label of Aries. */
  lemma AriesLabel()
    ensures SignRange(Aries) == DateRange(3, 21, 4, 19)
    ensures DateRangeText(Aries) == RangeLabel(DateRange(3, 21, 4, 19))
  {
    TwoDigitDay(21);
    TwoDigitDay(19);
    assert JsMath.IntToString(21) == "21";
    assert JsMath.IntToString(19) == "19";
  }

  /** The label of Taurus. */
  lemma TaurusLabel()
    ensures SignRange(Taurus) == DateRange(4, 20, 5, 20)
    ensures DateRangeText(Taurus) == RangeLabel(DateRange(4, 20, 5, 20))
  {
    TwoDigitDay(20);
    TwoDigitDay(20);
    assert JsMath.IntToString(20) == "20";
    assert JsMath.IntToString(20) == "20";
  }

  /** The label of Gemini. */
  lemma GeminiLabel()
    ensures SignRange(Gemini) == DateRange(5, 21, 6, 20)
    ensures DateRangeText(Gemini) == RangeLabel(DateRange(5, 21, 6, 20))
  {
    TwoDigitDay(21);
    TwoDigitDay(20);
    assert JsMath.IntToString(21) == "21";
    assert JsMath.IntToString(20) == "20";
  }

  /** The label of Cancer. */
  lemma CancerLabel()
    ensures SignRange(Cancer) == DateRange(6, 21, 7, 22)
    ensures DateRangeText(Cancer) == RangeLabel(DateRange(6, 21, 7, 22))
  {
    TwoDigitDay(21);
    TwoDigitDay(22);
    assert JsMath.IntToString(21) == "21";
    assert JsMath.IntToString(22) == "22";
  }

  /** The label of Leo. */
  lemma LeoLabel()
    ensures SignRange(Leo) == DateRange(7, 23, 8, 22)
    ensures DateRangeText(Leo) == RangeLabel(DateRange(7, 23, 8, 22))
  {
    TwoDigitDay(23);
    TwoDigitDay(22);
    assert JsMath.IntToString(23) == "23";
    assert JsMath.IntToString(22) == "22";
  }

  /** The label of Virgo. */
  lemma VirgoLabel()
    ensures SignRange(Virgo) == DateRange(8, 23, 9, 22)
    ensures DateRangeText(Virgo) == RangeLabel(DateRange(8, 23, 9, 22))
  {
    TwoDigitDay(23);
    TwoDigitDay(22);
    assert JsMath.IntToString(23) == "23";
    assert JsMath.IntToString(22) == "22";
  }

  /** The label of Libra. */
  lemma LibraLabel()
    ensures SignRange(Libra) == DateRange(9, 23, 10, 22)
    ensures DateRangeText(Libra) == RangeLabel(DateRange(9, 23, 10, 22))
  {
    TwoDigitDay(23);
    TwoDigitDay(22);
    assert JsMath.IntToString(23) == "23";
    assert JsMath.IntToString(22) == "22";
  }

  /** The label of Scorpio. */
  lemma ScorpioLabel()
    ensures SignRange(Scorpio) == DateRange(10, 23, 11, 21)
    ensures DateRangeText(Scorpio) == RangeLabel(DateRange(10, 23, 11, 21))
  {
    TwoDigitDay(23);
    TwoDigitDay(21);
    assert JsMath.IntToString(23) == "23";
    assert JsMath.IntToString(21) == "21";
  }

  /** The label of Sagittarius. */
  lemma SagittariusLabel()
    ensures SignRange(Sagittarius) == DateRange(11, 22, 12, 21)
    ensures DateRangeText(Sagittarius) == RangeLabel(DateRange(11, 22, 12, 21))
  {
    TwoDigitDay(22);
    TwoDigitDay(21);
    assert JsMath.IntToString(22) == "22";
    assert JsMath.IntToString(21) == "21";
  }

  /** The label of Capricorn. */
  lemma CapricornLabel()
    ensures SignRange(Capricorn) == DateRange(12, 22, 1, 19)
    ensures DateRangeText(Capricorn) == RangeLabel(DateRange(12, 22, 1, 19))
  {
    TwoDigitDay(22);
    TwoDigitDay(19);
    assert JsMath.IntToString(22) == "22";
    assert JsMath.IntToString(19) == "19";
  }

  /** The label of Aquarius. */
  lemma AquariusLabel()
    ensures SignRange(Aquarius) == DateRange(1, 20, 2, 18)
    ensures DateRangeText(Aquarius) == RangeLabel(DateRange(1, 20, 2, 18))
  {
    TwoDigitDay(20);
    TwoDigitDay(18);
    assert JsMath.IntToString(20) == "20";
    assert JsMath.IntToString(18) == "18";
  }

  /** The label of Pisces. */
  lemma PiscesLabel()
    ensures SignRange(Pisces) == DateRange(2, 19, 3, 20)
    ensures DateRangeText(Pisces) == RangeLabel(DateRange(2, 19, 3, 20))
  {
    TwoDigitDay(19);
    TwoDigitDay(20);
    assert JsMath.IntToString(19) == "19";
    assert JsMath.IntToString(20) == "20";
  }

  /**
   * The first and last day of each range give that sign, and the day before
   * the first and the day after the last do not: each range is exactly the
   * stretch of days its label names.
   */
  lemma RangeEndpointsExact(s: Sign)
    ensures MatchRange(SignRange(s).startMonth, SignRange(s).startDay) == Some(s)
    ensures MatchRange(SignRange(s).endMonth, SignRange(s).endDay) == Some(s)
    ensures MatchRange(SignRange(s).startMonth, SignRange(s).startDay - 1) != Some(s)
    ensures MatchRange(SignRange(s).endMonth, SignRange(s).endDay + 1) != Some(s)
  {
    match s
    case Aries =>
    case Taurus =>
    case Gemini =>
    case Cancer =>
    case Leo =>
    case Virgo =>
    case Libra =>
    case Scorpio =>
    case Sagittarius =>
    case Capricorn =>
    case Aquarius =>
    case Pisces =>
  }

  // ---------------------------------------------------------------------------
  // Age and birth-date validation

  /** Lexicographic order on (year, month, day). */
  predicate OnOrBefore(a: CalendarDay, b: CalendarDay)
  {
    a.year < b.year
    || (a.year == b.year && (a.month < b.month || (a.month == b.month && a.day <= b.day)))
  }

  /**
   * calculateAge with "today" passed in: the year difference, less one when
   * today's month and day come before the birth month and day.
   */
  function CalculateAge(birth: CalendarDay, today: CalendarDay): int
  {
    var age := today.year - birth.year;
    var monthDiff := today.month - birth.month;
    if monthDiff < 0 || (monthDiff == 0 && today.day < birth.day) then age - 1 else age
  }

  /**
   * The age is the number of birthdays reached: the birthday in year
   * birth.year + age is on or before today, the one after it is not.
   */
  lemma AgeCountsBirthdays(birth: CalendarDay, today: CalendarDay)
    ensures var age := CalculateAge(birth, today);
      OnOrBefore(Day(birth.year + age, birth.month, birth.day), today)
      && !OnOrBefore(Day(birth.year + age + 1, birth.month, birth.day), today)
  {
  }

  /** A birth date on or before today gives a non-negative age; a later one a negative age. */
  lemma AgeSign(birth: CalendarDay, today: CalendarDay)
    ensures OnOrBefore(birth, today) <==> CalculateAge(birth, today) >= 0
  {
  }

  /** validateBirthDate's result: `{ valid, error? }`. */
  datatype Validation = Validation(valid: bool, error: Option<string>)

  const RequiredError := "Birth date is required"
  const FormatError := "Invalid date format"
  const UnderageError := "Must be at least 18 years old"
  const TooOldError := "Invalid birth date"
  const FutureError := "Birth date cannot be in the future"

  /**
   * validateBirthDate with "today" passed in: `raw` is the argument string
   * (empty is falsy) and `parsed` is what `new Date(raw)` yields. The checks
   * run in order: required, format, under 18, over 120, in the future.
   */
  function ValidateBirthDate(raw: string, parsed: BirthDate, today: CalendarDay): (r: Validation)
    ensures r.valid <==> r.error.None?
  {
    if raw == "" then Validation(false, Some(RequiredError))
    else if parsed.Unparseable? then Validation(false, Some(FormatError))
    else
      var age := CalculateAge(parsed.date, today);
      if age < 18 then Validation(false, Some(UnderageError))
      else if age > 120 then Validation(false, Some(TooOldError))
      else if !OnOrBefore(parsed.date, today) then Validation(false, Some(FutureError))
      else Validation(true, None)
  }

  /** A date is accepted exactly when it is given, parses, and gives an age from 18 to 120. */
  lemma ValidExactlyForAdults(raw: string, parsed: BirthDate, today: CalendarDay)
    ensures ValidateBirthDate(raw, parsed, today).valid
      <==> raw != "" && parsed.Parsed? && 18 <= CalculateAge(parsed.date, today) <= 120
  {
    if raw != "" && parsed.Parsed? && 18 <= CalculateAge(parsed.date, today) {
      AgeSign(parsed.date, today);
    }
  }

  /**
   * The future-date error is never returned: a date after today gives a
   * negative age, which the under-18 check already rejects.
   */
  lemma FutureErrorUnreachable(raw: string, parsed: BirthDate, today: CalendarDay)
    ensures ValidateBirthDate(raw, parsed, today).error != Some(FutureError)
  {
    if parsed.Parsed? && CalculateAge(parsed.date, today) >= 18 {
      AgeSign(parsed.date, today);
    }
  }

  /** Which error each failing input gets, in the order the checks run. */
  lemma ValidationErrorOrder(raw: string, parsed: BirthDate, today: CalendarDay)
    ensures raw == "" ==> ValidateBirthDate(raw, parsed, today).error == Some(RequiredError)
    ensures raw != "" && parsed.Unparseable? ==> ValidateBirthDate(raw, parsed, today).error == Some(FormatError)
    ensures raw != "" && parsed.Parsed? && CalculateAge(parsed.date, today) < 18
      ==> ValidateBirthDate(raw, parsed, today).error == Some(UnderageError)
    ensures raw != "" && parsed.Parsed? && CalculateAge(parsed.date, today) > 120
      ==> ValidateBirthDate(raw, parsed, today).error == Some(TooOldError)
  {
  }
}
