/**
 * The two URL classifiers of the pricing-feed normaliser. A feed says nothing
 * about its operating system or pricing category except through its URL, so
 * both are guessed by ordered substring tests in which the first rule that
 * fires wins.
 */
module UrlClassifier {
  import opened Wrappers
  import opened Text

  datatype Os = Rhel | Sles | MsWinSqlWeb | MsWinSql | MsWin | Linux

  /** The name `guessOsFromUrl` returns for each operating system. */
  function OsName(os: Os): string
  {
    match os
    case Rhel => "rhel"
    case Sles => "sles"
    case MsWinSqlWeb => "mswinsqlweb"
    case MsWinSql => "mswinsql"
    case MsWin => "mswin"
    case Linux => "linux"
  }

  /**
   * One classification rule: the rule fires when any needle occurs in the
   * URL, or in its lower-cased form when `folded` is set.
   */
  datatype Rule<T> = Rule(result: T, folded: bool, needles: seq<string>)

  predicate Fires<T>(rule: Rule<T>, url: string)
  {
    AnyOccurs(if rule.folded then AsciiLower(url) else url, rule.needles)
  }

  /** Some needle of `needles` occurs in `hay`. */
  predicate AnyOccurs(hay: string, needles: seq<string>)
    decreases |needles|
  {
    |needles| > 0 && (Contains(hay, needles[0]) || AnyOccurs(hay, needles[1..]))
  }

  /** The operating-system rules, in the order they are tried. */
  const OsRules: seq<Rule<Os>> := [
    Rule(Rhel, false, ["redhat", "red-hat", "rhel"]),
    Rule(Sles, false, ["suse", "sles"]),
    Rule(MsWinSqlWeb, true, ["mswinsqlweb"]),
    Rule(MsWinSql, true, ["mswinsql"]),
    Rule(MsWin, false, ["mswin", "windows"]),
    Rule(Linux, false, ["linux"])
  ]

  /** What firing means for each rule of `OsRules`, spelled out needle by needle. */
  lemma OsRulesFire(url: string)
    ensures Fires(OsRules[0], url) <==> Contains(url, "redhat") || Contains(url, "red-hat") || Contains(url, "rhel")
    ensures Fires(OsRules[1], url) <==> Contains(url, "suse") || Contains(url, "sles")
    ensures Fires(OsRules[2], url) <==> Contains(AsciiLower(url), "mswinsqlweb")
    ensures Fires(OsRules[3], url) <==> Contains(AsciiLower(url), "mswinsql")
    ensures Fires(OsRules[4], url) <==> Contains(url, "mswin") || Contains(url, "windows")
    ensures Fires(OsRules[5], url) <==> Contains(url, "linux")
  {
  }

  /** `rules[i]` fires on `url` and no earlier rule does. */
  predicate FirstFiring<T>(rules: seq<Rule<T>>, url: string, i: int)
  {
    0 <= i < |rules| && Fires(rules[i], url) && forall j :: 0 <= j < i ==> !Fires(rules[j], url)
  }

  /**
   * `guessOsFromUrl`: the operating system of the first rule of `OsRules`
   * that fires, or none (JavaScript `null`) when no rule fires.
   */
  function GuessOs(url: string): (os: Option<Os>)
    ensures os.None? <==> forall i :: 0 <= i < |OsRules| ==> !Fires(OsRules[i], url)
    ensures os.Some? ==> exists i :: FirstFiring(OsRules, url, i) && OsRules[i].result == os.value
  {
    OsRulesFire(url);
    if Contains(url, "redhat") || Contains(url, "red-hat") || Contains(url, "rhel") then
      Some(Rhel)
    else if Contains(url, "suse") || Contains(url, "sles") then
      Some(Sles)
    else if Contains(AsciiLower(url), "mswinsqlweb") then
      Some(MsWinSqlWeb)
    else if Contains(AsciiLower(url), "mswinsql") then
      Some(MsWinSql)
    else if Contains(url, "mswin") || Contains(url, "windows") then
      Some(MsWin)
    else if Contains(url, "linux") then
      Some(Linux)
    else
      None
  }

  /**
   * Every URL that names "mswinsqlweb" also names "mswinsql", so the order of
   * the two rules decides: such a URL is classified as "mswinsqlweb" (unless an
   * earlier Red Hat or SUSE rule fires) and never as "mswinsql".
   */
  lemma SqlWebNeverSql(url: string)
    requires Contains(AsciiLower(url), "mswinsqlweb")
    ensures Fires(OsRules[3], url)
    ensures GuessOs(url) != Some(MsWinSql)
    ensures GuessOs(url) == Some(MsWinSqlWeb) || GuessOs(url) == Some(Rhel) || GuessOs(url) == Some(Sles)
  {
    ContainsPrefixOfNeedle(AsciiLower(url), "mswinsqlweb", "mswinsql");
    assert Contains(AsciiLower(url), OsRules[3].needles[0]);
  }

  datatype Category = OnDemand | Spot | LightReservation | MediumReservation | HeavyReservation | ReservationV2 | Other

  /** The name `guessCategoryFromUrl` returns; it becomes a key of the price table. */
  function CategoryName(c: Category): string
  {
    match c
    case OnDemand => "onDemand"
    case Spot => "spot"
    case LightReservation => "lightReservation"
    case MediumReservation => "mediumReservation"
    case HeavyReservation => "heavyReservation"
    case ReservationV2 => "reservationV2"
    case Other => "other"
  }

  /** The pricing-category rules, in the order they are tried. */
  const CategoryRules: seq<Rule<Category>> := [
    Rule(OnDemand, false, ["-od"]),
    Rule(Spot, false, ["spot"]),
    Rule(LightReservation, false, ["-ri-light", "light_"]),
    Rule(MediumReservation, false, ["-ri-medium", "medium_"]),
    Rule(HeavyReservation, false, ["-ri-heavy", "heavy_"]),
    Rule(ReservationV2, false, ["ri-v2"])
  ]

  /** What firing means for each rule of `CategoryRules`, spelled out needle by needle. */
  lemma CategoryRulesFire(url: string)
    ensures Fires(CategoryRules[0], url) <==> Contains(url, "-od")
    ensures Fires(CategoryRules[1], url) <==> Contains(url, "spot")
    ensures Fires(CategoryRules[2], url) <==> Contains(url, "-ri-light") || Contains(url, "light_")
    ensures Fires(CategoryRules[3], url) <==> Contains(url, "-ri-medium") || Contains(url, "medium_")
    ensures Fires(CategoryRules[4], url) <==> Contains(url, "-ri-heavy") || Contains(url, "heavy_")
    ensures Fires(CategoryRules[5], url) <==> Contains(url, "ri-v2")
  {
  }

  /**
   * `guessCategoryFromUrl`: the category of the first rule of `CategoryRules`
   * that fires, or `Other` when none does.
   */
  function GuessCategory(url: string): (c: Category)
    ensures c == Other <==> forall i :: 0 <= i < |CategoryRules| ==> !Fires(CategoryRules[i], url)
    ensures c != Other ==> exists i :: FirstFiring(CategoryRules, url, i) && CategoryRules[i].result == c
  {
    CategoryRulesFire(url);
    if Contains(url, "-od") then
      OnDemand
    else if Contains(url, "spot") then
      Spot
    else if Contains(url, "-ri-light") || Contains(url, "light_") then
      LightReservation
    else if Contains(url, "-ri-medium") || Contains(url, "medium_") then
      MediumReservation
    else if Contains(url, "-ri-heavy") || Contains(url, "heavy_") then
      HeavyReservation
    else if Contains(url, "ri-v2") then
      ReservationV2
    else
      Other
  }

  /** `category.match(/reservation/i) != null`: the match ignores case. */
  function IsReservation(category: string): (b: bool)
    ensures Contains(category, "reservation") || Contains(category, "Reservation") || Contains(category, "RESERVATION") ==> b
    ensures b ==> |category| >= |"reservation"|
  {
    ContainsLowered(category, "reservation");
    ContainsLowered(category, "Reservation");
    ContainsLowered(category, "RESERVATION");
    assert AsciiLower("reservation") == AsciiLower("Reservation") == AsciiLower("RESERVATION") == "reservation";
    if |AsciiLower(category)| < |"reservation"| then NotContainsLonger(AsciiLower(category), "reservation"); false
    else Contains(AsciiLower(category), "reservation")
  }

  /** Of the category names, exactly the four reservation kinds match `/reservation/i`. */
  lemma ReservationCategories(c: Category)
    ensures IsReservation(CategoryName(c))
        <==> c in {LightReservation, MediumReservation, HeavyReservation, ReservationV2}
  {
    var lowered := AsciiLower(CategoryName(c));
    match c
    case OnDemand => NotContainsLonger(lowered, "reservation");
    case Spot => NotContainsLonger(lowered, "reservation");
    case Other => NotContainsLonger(lowered, "reservation");
    case LightReservation =>
      assert lowered[5..16] == "reservation";
      ContainsAt(lowered, "reservation", 5);
    case MediumReservation =>
      assert lowered[6..17] == "reservation";
      ContainsAt(lowered, "reservation", 6);
    case HeavyReservation =>
      assert lowered[5..16] == "reservation";
      ContainsAt(lowered, "reservation", 5);
    case ReservationV2 =>
      assert lowered[0..11] == "reservation";
      ContainsAt(lowered, "reservation", 0);
  }
}
