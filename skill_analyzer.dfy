/** The skill-gap engine of the Skill Analyzer page: a weighted match
    percentage between a career's required skills and the user's skills, the
    per-skill gap list with its status filters, the course recommendations for
    the most pressing gaps, and the text band shown under the percentage. */
module SkillAnalyzer {
  import opened Optional
  import opened Seqs
  import opened Percent
  import opened UserTypes

  datatype Importance = High | Medium | Low

  datatype RequiredSkill = RequiredSkill(name: string, level: int, importance: Importance)

  datatype Recommendation = Recommendation(
    name: string,
    provider: string,
    duration: string,
    cost: string,
    link: string,
    skillsCovered: seq<string>)

  datatype CareerSkills = CareerSkills(
    title: string,
    requiredSkills: seq<RequiredSkill>,
    recommendations: seq<Recommendation>)

  datatype Status = Met | Partial | Missing

  /** A required skill together with what the user has of it. */
  datatype SkillGap = SkillGap(
    name: string,
    level: int,
    importance: Importance,
    userLevel: int,
    gap: int,
    status: Status)

  // ---------------------------------------------------------------------------
  // The shipped catalogue and the page's mock user skills.

  const SoftwareEngineer := CareerSkills(
    "Software Engineer",
    [ RequiredSkill("JavaScript", 4, High),
      RequiredSkill("Python", 3, Medium),
      RequiredSkill("SQL", 3, Medium),
      RequiredSkill("Data Structures", 4, High),
      RequiredSkill("Algorithms", 4, High),
      RequiredSkill("Git", 3, Medium),
      RequiredSkill("REST APIs", 3, High),
      RequiredSkill("Testing", 3, Medium) ],
    [ Recommendation("Modern JavaScript Course", "Udemy", "30 hours", "$19.99",
        "https://www.udemy.com/", ["JavaScript", "REST APIs"]),
      Recommendation("Data Structures & Algorithms Bootcamp", "Coursera", "8 weeks", "$49/month",
        "https://www.coursera.org/", ["Data Structures", "Algorithms"]),
      Recommendation("SQL for Developers", "DataCamp", "20 hours", "$25/month",
        "https://www.datacamp.com/", ["SQL"]) ])

  const DataScientist := CareerSkills(
    "Data Scientist",
    [ RequiredSkill("Python", 4, High),
      RequiredSkill("Statistics", 5, High),
      RequiredSkill("Machine Learning", 4, High),
      RequiredSkill("SQL", 3, Medium),
      RequiredSkill("Data Visualization", 4, Medium),
      RequiredSkill("Big Data Technologies", 3, Medium),
      RequiredSkill("R Programming", 3, Low),
      RequiredSkill("Domain Knowledge", 3, Medium) ],
    [ Recommendation("Applied Data Science with Python", "Coursera", "5 months", "$49/month",
        "https://www.coursera.org/", ["Python", "Data Visualization", "Machine Learning"]),
      Recommendation("Statistics for Data Science", "edX", "8 weeks", "Free (Certificate: $99)",
        "https://www.edx.org/", ["Statistics"]),
      Recommendation("Machine Learning A-Z", "Udemy", "40 hours", "$19.99",
        "https://www.udemy.com/", ["Machine Learning"]) ])

  const UxDesigner := CareerSkills(
    "UX Designer",
    [ RequiredSkill("User Research", 4, High),
      RequiredSkill("Wireframing", 5, High),
      RequiredSkill("Prototyping", 4, High),
      RequiredSkill("User Testing", 4, High),
      RequiredSkill("Visual Design", 4, Medium),
      RequiredSkill("UI Design", 4, Medium),
      RequiredSkill("Figma/Sketch", 4, High),
      RequiredSkill("Information Architecture", 3, Medium) ],
    [ Recommendation("Google UX Design Professional Certificate", "Coursera", "6 months", "$39/month",
        "https://www.coursera.org/", ["User Research", "Wireframing", "Prototyping"]),
      Recommendation("Learn Figma: Design Essentials", "Udemy", "15 hours", "$19.99",
        "https://www.udemy.com/", ["Figma/Sketch", "UI Design"]),
      Recommendation("User Testing Fundamentals", "Interaction Design Foundation", "4 weeks", "$15/month",
        "https://www.interaction-design.org/", ["User Testing"]) ])

  const DigitalMarketer := CareerSkills(
    "Digital Marketing Manager",
    [ RequiredSkill("SEO", 4, High),
      RequiredSkill("Content Marketing", 4, High),
      RequiredSkill("Social Media Marketing", 4, High),
      RequiredSkill("Email Marketing", 3, Medium),
      RequiredSkill("Analytics", 4, High),
      RequiredSkill("PPC Advertising", 3, Medium),
      RequiredSkill("Marketing Strategy", 4, High),
      RequiredSkill("CRM Tools", 3, Medium) ],
    [ Recommendation("Digital Marketing Specialization", "Coursera", "8 months", "$49/month",
        "https://www.coursera.org/", ["SEO", "Content Marketing", "Social Media Marketing", "Analytics"]),
      Recommendation("Google Analytics Certification", "Google", "40 hours", "Free",
        "https://analytics.google.com/analytics/academy/", ["Analytics"]),
      Recommendation("Complete Email Marketing Course", "Udemy", "20 hours", "$19.99",
        "https://www.udemy.com/", ["Email Marketing"]) ])

  /** The career catalogue, keyed by the id the career selector uses. */
  const CareerSkillsData: map<string, CareerSkills> := map[
    "software-engineer" := SoftwareEngineer,
    "data-scientist" := DataScientist,
    "ux-designer" := UxDesigner,
    "digital-marketer" := DigitalMarketer]

  const MockUserSkills: seq<UserSkill> := [
    UserSkill("JavaScript", 3),
    UserSkill("Python", 2),
    UserSkill("SQL", 1),
    UserSkill("Figma/Sketch", 2),
    UserSkill("Data Structures", 2),
    UserSkill("Content Marketing", 4),
    UserSkill("Social Media Marketing", 3)]

  // ---------------------------------------------------------------------------
  // Overall match

  function Min(a: int, b: int): int {
    if a <= b then a else b
  }

  /** High counts three times, Medium twice, anything else once. */
  function Weight(importance: Importance): int {
    if importance == High then 3 else if importance == Medium then 2 else 1
  }

  /** `userSkills.find(s => s.name === name)`, as the index of the first skill with that name. */
  function FindSkill(userSkills: seq<UserSkill>, name: string): (r: Option<nat>)
    ensures r.Some? ==> r.value < |userSkills| && userSkills[r.value].name == name
    ensures r.Some? ==> forall k :: 0 <= k < r.value ==> userSkills[k].name != name
    ensures r.None? ==> forall k :: 0 <= k < |userSkills| ==> userSkills[k].name != name
  {
    if userSkills == [] then None
    else if userSkills[0].name == name then Some(0)
    else
      match FindSkill(userSkills[1..], name)
      case Some(i) => Some(i + 1)
      case None => None
  }

  /** The most a required skill can contribute. */
  function SkillPoints(r: RequiredSkill): int {
    r.level * Weight(r.importance)
  }

  /** What the user's first skill of that name contributes, capped at the required level. */
  function EarnedFor(r: RequiredSkill, userSkills: seq<UserSkill>): int {
    match FindSkill(userSkills, r.name)
    case Some(i) => Min(userSkills[i].level, r.level) * Weight(r.importance)
    case None => 0
  }

  function TotalPoints(required: seq<RequiredSkill>): int {
    if required == [] then 0
    else TotalPoints(required[..|required| - 1]) + SkillPoints(required[|required| - 1])
  }

  function EarnedPoints(required: seq<RequiredSkill>, userSkills: seq<UserSkill>): int {
    if required == [] then 0
    else EarnedPoints(required[..|required| - 1], userSkills) + EarnedFor(required[|required| - 1], userSkills)
  }

  /** The percentage the page shows for the selected career. */
  function OverallMatch(data: map<string, CareerSkills>, selectedCareer: string, userSkills: seq<UserSkill>): int {
    if selectedCareer !in data then 0
    else
      var required := data[selectedCareer].requiredSkills;
      if TotalPoints(required) > 0 then RoundedPercent(EarnedPoints(required, userSkills), TotalPoints(required))
      else 0
  }

  /** `calculateOverallMatch`: one pass over the required skills accumulating
      the possible and the earned points. */
  method CalculateOverallMatch(data: map<string, CareerSkills>, selectedCareer: string, userSkills: seq<UserSkill>)
    returns (pct: int)
    ensures pct == OverallMatch(data, selectedCareer, userSkills)
    ensures selectedCareer !in data ==> pct == 0
    ensures selectedCareer in data && TotalPoints(data[selectedCareer].requiredSkills) == 0 ==> pct == 0
  {
    if selectedCareer !in data {
      return 0;
    }
    var career := data[selectedCareer];
    var totalPoints, earnedPoints := 0, 0;
    var i := 0;
    while i < |career.requiredSkills|
      invariant 0 <= i <= |career.requiredSkills|
      invariant totalPoints == TotalPoints(career.requiredSkills[..i])
      invariant earnedPoints == EarnedPoints(career.requiredSkills[..i], userSkills)
    {
      var requiredSkill := career.requiredSkills[i];
      var skillWeight := 1;
      if requiredSkill.importance == High { skillWeight := 3; }
      if requiredSkill.importance == Medium { skillWeight := 2; }
      totalPoints := totalPoints + requiredSkill.level * skillWeight;
      var userSkill := FindSkill(userSkills, requiredSkill.name);
      if userSkill.Some? {
        var effectiveSkillLevel := Min(userSkills[userSkill.value].level, requiredSkill.level);
        earnedPoints := earnedPoints + effectiveSkillLevel * skillWeight;
      }
      assert career.requiredSkills[..i + 1][..i] == career.requiredSkills[..i];
      i := i + 1;
    }
    assert career.requiredSkills[..i] == career.requiredSkills;
    pct := if totalPoints > 0 then RoundedPercent(earnedPoints, totalPoints) else 0;
  }

  ghost predicate NonNegativeLevels(userSkills: seq<UserSkill>) {
    forall i :: 0 <= i < |userSkills| ==> userSkills[i].level >= 0
  }

  ghost predicate NonNegativeRequirements(required: seq<RequiredSkill>) {
    forall j :: 0 <= j < |required| ==> required[j].level >= 0
  }

  lemma EarnedForWithin(r: RequiredSkill, userSkills: seq<UserSkill>)
    requires NonNegativeLevels(userSkills) && r.level >= 0
    ensures 0 <= EarnedFor(r, userSkills) <= SkillPoints(r)
  {
  }

  /** Each skill earns between nothing and its full points, so the sums do too. */
  lemma {:induction false} EarnedWithinTotal(required: seq<RequiredSkill>, userSkills: seq<UserSkill>)
    requires NonNegativeLevels(userSkills) && NonNegativeRequirements(required)
    ensures 0 <= EarnedPoints(required, userSkills) <= TotalPoints(required)
  {
    if required != [] {
      var n := |required| - 1;
      assert NonNegativeRequirements(required[..n]);
      EarnedWithinTotal(required[..n], userSkills);
      EarnedForWithin(required[n], userSkills);
    }
  }

  /** With non-negative levels the match is a percentage in [0, 100]. */
  lemma OverallMatchInRange(data: map<string, CareerSkills>, selectedCareer: string, userSkills: seq<UserSkill>)
    requires NonNegativeLevels(userSkills)
    requires selectedCareer in data ==> NonNegativeRequirements(data[selectedCareer].requiredSkills)
    ensures 0 <= OverallMatch(data, selectedCareer, userSkills) <= 100
  {
    if selectedCareer in data {
      var required := data[selectedCareer].requiredSkills;
      EarnedWithinTotal(required, userSkills);
      if TotalPoints(required) > 0 {
        RoundedPercentBounds(EarnedPoints(required, userSkills), TotalPoints(required));
      }
    }
  }

  /** The user's first skill of that name reaches the required level. */
  ghost predicate Qualified(userSkills: seq<UserSkill>, r: RequiredSkill) {
    FindSkill(userSkills, r.name).Some? && userSkills[FindSkill(userSkills, r.name).value].level >= r.level
  }

  lemma {:induction false} QualifiedEarnsAll(required: seq<RequiredSkill>, userSkills: seq<UserSkill>)
    requires forall j :: 0 <= j < |required| ==> Qualified(userSkills, required[j])
    ensures EarnedPoints(required, userSkills) == TotalPoints(required)
  {
    if required != [] {
      var n := |required| - 1;
      QualifiedEarnsAll(required[..n], userSkills);
      assert Qualified(userSkills, required[n]);
    }
  }

  /** A user qualified in every required skill matches the career completely. */
  lemma FullyQualifiedMatchIs100(data: map<string, CareerSkills>, selectedCareer: string, userSkills: seq<UserSkill>)
    requires selectedCareer in data
    requires TotalPoints(data[selectedCareer].requiredSkills) > 0
    requires forall j :: 0 <= j < |data[selectedCareer].requiredSkills| ==>
      Qualified(userSkills, data[selectedCareer].requiredSkills[j])
    ensures OverallMatch(data, selectedCareer, userSkills) == 100
  {
    var required := data[selectedCareer].requiredSkills;
    QualifiedEarnsAll(required, userSkills);
    RoundedPercentOfWhole(TotalPoints(required));
  }

  /** The user's skills with the one at `i` raised (or set) to `level`. */
  function WithLevel(userSkills: seq<UserSkill>, i: nat, level: int): seq<UserSkill>
    requires i < |userSkills|
  {
    userSkills[i := UserSkill(userSkills[i].name, level)]
  }

  /** The lookup only looks at names, which a level change leaves alone. */
  lemma {:induction false} FindSkillIgnoresLevels(userSkills: seq<UserSkill>, i: nat, level: int, name: string)
    requires i < |userSkills|
    ensures FindSkill(WithLevel(userSkills, i, level), name) == FindSkill(userSkills, name)
  {
    var us' := WithLevel(userSkills, i, level);
    if userSkills[0].name != name {
      if i == 0 {
        assert us'[1..] == userSkills[1..];
      } else {
        assert us'[1..] == WithLevel(userSkills[1..], i - 1, level);
        FindSkillIgnoresLevels(userSkills[1..], i - 1, level, name);
      }
    }
  }

  lemma {:induction false} RaisedLevelEarnsNoLess(required: seq<RequiredSkill>, userSkills: seq<UserSkill>, i: nat, level: int)
    requires i < |userSkills| && level >= userSkills[i].level
    ensures EarnedPoints(required, userSkills) <= EarnedPoints(required, WithLevel(userSkills, i, level))
  {
    if required != [] {
      var n := |required| - 1;
      RaisedLevelEarnsNoLess(required[..n], userSkills, i, level);
      FindSkillIgnoresLevels(userSkills, i, level, required[n].name);
    }
  }

  /** Raising one of the user's skill levels never lowers the match. */
  lemma RaisingSkillNeverLowersMatch(data: map<string, CareerSkills>, selectedCareer: string,
                                     userSkills: seq<UserSkill>, i: nat, level: int)
    requires i < |userSkills| && level >= userSkills[i].level
    ensures OverallMatch(data, selectedCareer, userSkills) <= OverallMatch(data, selectedCareer, WithLevel(userSkills, i, level))
  {
    if selectedCareer in data {
      var required := data[selectedCareer].requiredSkills;
      RaisedLevelEarnsNoLess(required, userSkills, i, level);
      if TotalPoints(required) > 0 {
        RoundedPercentMonotone(EarnedPoints(required, userSkills),
          EarnedPoints(required, WithLevel(userSkills, i, level)), TotalPoints(required));
      }
    }
  }

  lemma MockUserSkillLookups()
    ensures FindSkill(MockUserSkills, "JavaScript") == Some(0)
    ensures FindSkill(MockUserSkills, "Python") == Some(1)
    ensures FindSkill(MockUserSkills, "SQL") == Some(2)
    ensures FindSkill(MockUserSkills, "Data Structures") == Some(4)
  {
  }

  lemma MockUserLacksAlgorithms()
    ensures FindSkill(MockUserSkills, "Algorithms") == None
  {
  }

  lemma MockUserLacksGit()
    ensures FindSkill(MockUserSkills, "Git") == None
  {
  }

  lemma MockUserLacksRestApis()
    ensures FindSkill(MockUserSkills, "REST APIs") == None
  {
  }

  lemma MockUserLacksTesting()
    ensures FindSkill(MockUserSkills, "Testing") == None
  {
  }

  lemma MockUserSkillMisses()
    ensures FindSkill(MockUserSkills, "Algorithms") == None
    ensures FindSkill(MockUserSkills, "Git") == None
    ensures FindSkill(MockUserSkills, "REST APIs") == None
    ensures FindSkill(MockUserSkills, "Testing") == None
  {
    MockUserLacksAlgorithms();
    MockUserLacksGit();
    MockUserLacksRestApis();
    MockUserLacksTesting();
  }

  lemma SoftwareEngineerTotal()
    ensures TotalPoints(SoftwareEngineer.requiredSkills) == 69
  {
    var req := SoftwareEngineer.requiredSkills;
    assert req[..0] == [];
    assert req[..1][..0] == req[..0];
    assert TotalPoints(req[..1]) == 12;
    assert req[..2][..1] == req[..1];
    assert TotalPoints(req[..2]) == 18;
    assert req[..3][..2] == req[..2];
    assert TotalPoints(req[..3]) == 24;
    assert req[..4][..3] == req[..3];
    assert TotalPoints(req[..4]) == 36;
    assert req[..5][..4] == req[..4];
    assert TotalPoints(req[..5]) == 48;
    assert req[..6][..5] == req[..5];
    assert TotalPoints(req[..6]) == 54;
    assert req[..7][..6] == req[..6];
    assert TotalPoints(req[..7]) == 63;
    assert req[..8][..7] == req[..7];
    assert TotalPoints(req[..8]) == 69;
    assert req[..8] == req;
  }

  /** One step of the prefix sum, stated for a prefix of a longer list. */
  lemma EarnedPointsStep(required: seq<RequiredSkill>, userSkills: seq<UserSkill>, n: nat)
    requires 0 < n <= |required|
    ensures EarnedPoints(required[..n], userSkills) == EarnedPoints(required[..n - 1], userSkills) + EarnedFor(required[n - 1], userSkills)
  {
    assert required[..n][..n - 1] == required[..n - 1];
  }

  /** The software engineering skills the shipped user has, and the points they earn. */
  lemma SoftwareEngineerHeldCredits()
    ensures EarnedFor(SoftwareEngineer.requiredSkills[0], MockUserSkills) == 9
    ensures EarnedFor(SoftwareEngineer.requiredSkills[1], MockUserSkills) == 4
    ensures EarnedFor(SoftwareEngineer.requiredSkills[2], MockUserSkills) == 2
    ensures EarnedFor(SoftwareEngineer.requiredSkills[3], MockUserSkills) == 6
  {
    MockUserSkillLookups();
  }

  /** The software engineering skills the shipped user lacks earn nothing. */
  lemma SoftwareEngineerMissingCredits()
    ensures EarnedFor(SoftwareEngineer.requiredSkills[4], MockUserSkills) == 0
    ensures EarnedFor(SoftwareEngineer.requiredSkills[5], MockUserSkills) == 0
    ensures EarnedFor(SoftwareEngineer.requiredSkills[6], MockUserSkills) == 0
    ensures EarnedFor(SoftwareEngineer.requiredSkills[7], MockUserSkills) == 0
  {
    MockUserSkillMisses();
  }

  /** What the shipped user earns on each software engineering skill. */
  lemma SoftwareEngineerCredits()
    ensures EarnedFor(SoftwareEngineer.requiredSkills[0], MockUserSkills) == 9
    ensures EarnedFor(SoftwareEngineer.requiredSkills[1], MockUserSkills) == 4
    ensures EarnedFor(SoftwareEngineer.requiredSkills[2], MockUserSkills) == 2
    ensures EarnedFor(SoftwareEngineer.requiredSkills[3], MockUserSkills) == 6
    ensures EarnedFor(SoftwareEngineer.requiredSkills[4], MockUserSkills) == 0
    ensures EarnedFor(SoftwareEngineer.requiredSkills[5], MockUserSkills) == 0
    ensures EarnedFor(SoftwareEngineer.requiredSkills[6], MockUserSkills) == 0
    ensures EarnedFor(SoftwareEngineer.requiredSkills[7], MockUserSkills) == 0
  {
    SoftwareEngineerHeldCredits();
    SoftwareEngineerMissingCredits();
  }

  /** The earned points of an eight-skill list, written out as a sum. */
  lemma EarnedPointsOfEight(req: seq<RequiredSkill>, userSkills: seq<UserSkill>)
    requires |req| == 8
    ensures EarnedPoints(req, userSkills) ==
      EarnedFor(req[0], userSkills) + EarnedFor(req[1], userSkills) + EarnedFor(req[2], userSkills) +
      EarnedFor(req[3], userSkills) + EarnedFor(req[4], userSkills) + EarnedFor(req[5], userSkills) +
      EarnedFor(req[6], userSkills) + EarnedFor(req[7], userSkills)
  {
    assert req[..0] == [];
    EarnedPointsStep(req, userSkills, 1);
    EarnedPointsStep(req, userSkills, 2);
    EarnedPointsStep(req, userSkills, 3);
    EarnedPointsStep(req, userSkills, 4);
    EarnedPointsStep(req, userSkills, 5);
    EarnedPointsStep(req, userSkills, 6);
    EarnedPointsStep(req, userSkills, 7);
    EarnedPointsStep(req, userSkills, 8);
    assert req[..8] == req;
  }

  lemma SoftwareEngineerEarned()
    ensures EarnedPoints(SoftwareEngineer.requiredSkills, MockUserSkills) == 21
  {
    SoftwareEngineerCredits();
    EarnedPointsOfEight(SoftwareEngineer.requiredSkills, MockUserSkills);
  }

  /** The catalogue's entry for the default career. */
  lemma SoftwareEngineerEntry()
    ensures "software-engineer" in CareerSkillsData
    ensures CareerSkillsData["software-engineer"] == SoftwareEngineer
  {
  }

  /** The shipped data: for the software engineer, 21 of 69 points, shown as 30%. */
  lemma SoftwareEngineerMatch()
    ensures OverallMatch(CareerSkillsData, "software-engineer", MockUserSkills) == 30
  {
    SoftwareEngineerTotal();
    SoftwareEngineerEarned();
    SoftwareEngineerEntry();
    MatchFromTotals(CareerSkillsData, "software-engineer", MockUserSkills, 21, 69);
    assert RoundedPercent(21, 69) == 30;
  }

  /** The match of a career, given its earned and its possible points. */
  lemma MatchFromTotals(data: map<string, CareerSkills>, selectedCareer: string, userSkills: seq<UserSkill>, earned: int, total: int)
    requires selectedCareer in data && total > 0
    requires EarnedPoints(data[selectedCareer].requiredSkills, userSkills) == earned
    requires TotalPoints(data[selectedCareer].requiredSkills) == total
    ensures OverallMatch(data, selectedCareer, userSkills) == RoundedPercent(earned, total)
  {
  }

  // ---------------------------------------------------------------------------
  // Skill gaps

  /** The level of the user's first skill of that name, 0 when there is none. */
  function UserLevel(userSkills: seq<UserSkill>, name: string): int {
    match FindSkill(userSkills, name)
    case Some(i) => userSkills[i].level
    case None => 0
  }

  /** One row of `getSkillsGap`, before sorting. */
  function GapFor(r: RequiredSkill, userSkills: seq<UserSkill>): (g: SkillGap)
    ensures g.name == r.name && g.level == r.level && g.importance == r.importance
    ensures FindSkill(userSkills, r.name).None? ==> g.userLevel == 0
    ensures FindSkill(userSkills, r.name).Some? ==> g.userLevel == userSkills[FindSkill(userSkills, r.name).value].level
    ensures g.gap >= 0 && g.gap >= r.level - g.userLevel && (g.gap == 0 || g.gap == r.level - g.userLevel)
    ensures g.status == Met <==> g.userLevel >= r.level
    ensures g.status == Partial <==> 0 < g.userLevel < r.level
    ensures g.status == Missing <==> g.userLevel <= 0 && g.userLevel < r.level
    ensures g.status == Met <==> g.gap == 0
    ensures NonNegativeLevels(userSkills) && r.level > 0 ==> (g.status == Missing <==> g.userLevel == 0)
  {
    var userLevel := UserLevel(userSkills, r.name);
    var gap := r.level - userLevel;
    SkillGap(r.name, r.level, r.importance, userLevel,
      if gap > 0 then gap else 0,
      if userLevel >= r.level then Met else if userLevel > 0 then Partial else Missing)
  }

  /** The mapped rows, in the order of the required skills. */
  function GapRows(required: seq<RequiredSkill>, userSkills: seq<UserSkill>): seq<SkillGap> {
    seq(|required|, j requires 0 <= j < |required| => GapFor(required[j], userSkills))
  }

  /** The comparator of `getSkillsGap`, exactly as written: High goes first,
      equal importances go by gap, largest first, and any other pair (Medium
      against Low) compares as equal. */
  function CompareGaps(a: SkillGap, b: SkillGap): (c: int)
    ensures a.importance == High && b.importance != High ==> c == -1
    ensures a.importance != High && b.importance == High ==> c == 1
    ensures a.importance == b.importance ==> c == b.gap - a.gap
    ensures a.importance != b.importance && a.importance != High && b.importance != High ==> c == 0
  {
    if a.importance != b.importance then
      (if a.importance == High then -1 else if b.importance == High then 1 else 0)
    else b.gap - a.gap
  }

  /** The comparator is antisymmetric ... */
  lemma CompareGapsAntisymmetric(a: SkillGap, b: SkillGap)
    ensures CompareGaps(a, b) == -CompareGaps(b, a)
  {
  }

  /** ... but its "equal" is not transitive, so it is no consistent order and
      the order a sort produces with it depends on the sort algorithm. */
  lemma CompareGapsNotTransitive()
    ensures exists a: SkillGap, b: SkillGap, c: SkillGap ::
      CompareGaps(a, b) == 0 && CompareGaps(b, c) == 0 && CompareGaps(a, c) != 0
  {
    var a := SkillGap("a", 3, Medium, 2, 1, Partial);
    var b := SkillGap("b", 5, Low, 0, 5, Missing);
    var c := SkillGap("c", 3, Medium, 0, 3, Missing);
    assert CompareGaps(a, b) == 0 && CompareGaps(b, c) == 0 && CompareGaps(a, c) == 2;
  }

  /** `getSkillsGap`: the rows sorted with `CompareGaps`. The sort is one
      insertion sort; what is proved below holds for any reordering. */
  function SkillsGap(data: map<string, CareerSkills>, selectedCareer: string, userSkills: seq<UserSkill>): (r: seq<SkillGap>)
    ensures selectedCareer !in data ==> r == []
    ensures selectedCareer in data ==>
      multiset(r) == multiset(GapRows(data[selectedCareer].requiredSkills, userSkills)) &&
      |r| == |data[selectedCareer].requiredSkills|
  {
    if selectedCareer !in data then []
    else SortBy(CompareGaps, GapRows(data[selectedCareer].requiredSkills, userSkills))
  }

  predicate IsMet(g: SkillGap) { g.status == Met }
  predicate IsPartial(g: SkillGap) { g.status == Partial }
  predicate IsMissing(g: SkillGap) { g.status == Missing }

  function MatchingSkills(data: map<string, CareerSkills>, selectedCareer: string, userSkills: seq<UserSkill>): seq<SkillGap> {
    Filter(IsMet, SkillsGap(data, selectedCareer, userSkills))
  }

  function PartialSkills(data: map<string, CareerSkills>, selectedCareer: string, userSkills: seq<UserSkill>): seq<SkillGap> {
    Filter(IsPartial, SkillsGap(data, selectedCareer, userSkills))
  }

  function MissingSkills(data: map<string, CareerSkills>, selectedCareer: string, userSkills: seq<UserSkill>): seq<SkillGap> {
    Filter(IsMissing, SkillsGap(data, selectedCareer, userSkills))
  }

  /** Every row has exactly one status, so the three filters split any list. */
  lemma {:induction false} StatusCountsAddUp(gaps: seq<SkillGap>)
    ensures |Filter(IsMet, gaps)| + |Filter(IsPartial, gaps)| + |Filter(IsMissing, gaps)| == |gaps|
  {
    if gaps != [] {
      StatusCountsAddUp(gaps[1..]);
    }
  }

  /** For any reordering `gaps` of the rows: the three filters together keep
      every row once, each keeps the order of `gaps`, and each keeps exactly
      the rows of its status. */
  lemma PartitionInAnyOrder(rows: seq<SkillGap>, gaps: seq<SkillGap>)
    requires multiset(gaps) == multiset(rows)
    ensures |Filter(IsMet, gaps)| + |Filter(IsPartial, gaps)| + |Filter(IsMissing, gaps)| == |rows|
    ensures IsSubsequence(Filter(IsMet, gaps), gaps)
    ensures IsSubsequence(Filter(IsPartial, gaps), gaps)
    ensures IsSubsequence(Filter(IsMissing, gaps), gaps)
    ensures forall g :: g in Filter(IsMet, gaps) <==> g in rows && g.status == Met
    ensures forall g :: g in Filter(IsPartial, gaps) <==> g in rows && g.status == Partial
    ensures forall g :: g in Filter(IsMissing, gaps) <==> g in rows && g.status == Missing
  {
    StatusCountsAddUp(gaps);
    assert |gaps| == |multiset(gaps)| == |multiset(rows)| == |rows|;
    FilterIsSubsequence(IsMet, gaps);
    FilterIsSubsequence(IsPartial, gaps);
    FilterIsSubsequence(IsMissing, gaps);
    assert forall g :: g in gaps <==> g in rows by {
      forall g ensures g in gaps <==> g in rows {
        assert g in gaps <==> g in multiset(gaps);
        assert g in rows <==> g in multiset(rows);
      }
    }
    forall g | g in rows && g.status == Met ensures g in Filter(IsMet, gaps) {
      var i :| 0 <= i < |gaps| && gaps[i] == g;
    }
    forall g | g in rows && g.status == Partial ensures g in Filter(IsPartial, gaps) {
      var i :| 0 <= i < |gaps| && gaps[i] == g;
    }
    forall g | g in rows && g.status == Missing ensures g in Filter(IsMissing, gaps) {
      var i :| 0 <= i < |gaps| && gaps[i] == g;
    }
  }

  /** The page's matching, partial and missing lists partition the required skills. */
  lemma StatusFiltersPartition(data: map<string, CareerSkills>, selectedCareer: string, userSkills: seq<UserSkill>)
    requires selectedCareer in data
    ensures |MatchingSkills(data, selectedCareer, userSkills)| + |PartialSkills(data, selectedCareer, userSkills)|
      + |MissingSkills(data, selectedCareer, userSkills)| == |data[selectedCareer].requiredSkills|
    ensures IsSubsequence(MatchingSkills(data, selectedCareer, userSkills), SkillsGap(data, selectedCareer, userSkills))
    ensures IsSubsequence(PartialSkills(data, selectedCareer, userSkills), SkillsGap(data, selectedCareer, userSkills))
    ensures IsSubsequence(MissingSkills(data, selectedCareer, userSkills), SkillsGap(data, selectedCareer, userSkills))
  {
    PartitionInAnyOrder(GapRows(data[selectedCareer].requiredSkills, userSkills), SkillsGap(data, selectedCareer, userSkills));
  }

  /** Each of the page's three lists holds exactly the career's rows of its status. */
  lemma StatusFiltersContents(data: map<string, CareerSkills>, selectedCareer: string, userSkills: seq<UserSkill>)
    requires selectedCareer in data
    ensures forall g :: g in MatchingSkills(data, selectedCareer, userSkills) <==>
      g in GapRows(data[selectedCareer].requiredSkills, userSkills) && g.status == Met
    ensures forall g :: g in PartialSkills(data, selectedCareer, userSkills) <==>
      g in GapRows(data[selectedCareer].requiredSkills, userSkills) && g.status == Partial
    ensures forall g :: g in MissingSkills(data, selectedCareer, userSkills) <==>
      g in GapRows(data[selectedCareer].requiredSkills, userSkills) && g.status == Missing
  {
    PartitionInAnyOrder(GapRows(data[selectedCareer].requiredSkills, userSkills), SkillsGap(data, selectedCareer, userSkills));
  }

  // ---------------------------------------------------------------------------
  // Recommendations

  predicate HasGap(g: SkillGap) { g.gap > 0 }

  function Names(gaps: seq<SkillGap>): seq<string> {
    seq(|gaps|, i requires 0 <= i < |gaps| => gaps[i].name)
  }

  /** At most three names of skills with a positive gap, taken after sorting
      those skills again with the same comparator. */
  function PrioritySkills(gaps: seq<SkillGap>): seq<string> {
    var ranked := SortBy(CompareGaps, Filter(HasGap, gaps));
    Names(ranked[..Min(3, |ranked|)])
  }

  /** The course covers at least one of the names. */
  predicate CoversAny(rec: Recommendation, names: seq<string>) {
    exists i :: 0 <= i < |rec.skillsCovered| && rec.skillsCovered[i] in names
  }

  function Covering(names: seq<string>): Recommendation -> bool {
    (rec: Recommendation) => CoversAny(rec, names)
  }

  /** `getTopRecommendations`. */
  function TopRecommendations(data: map<string, CareerSkills>, selectedCareer: string, userSkills: seq<UserSkill>): seq<Recommendation> {
    if selectedCareer !in data then []
    else
      var priority := PrioritySkills(SkillsGap(data, selectedCareer, userSkills));
      Filter(Covering(priority), data[selectedCareer].recommendations)
  }

  /** For any reordering `gaps` of the rows: there are as many priority names
      as positive gaps, up to three; each names a row with a positive gap; and
      with no positive gap there is no priority name. */
  lemma PrioritySkillsInAnyOrder(rows: seq<SkillGap>, gaps: seq<SkillGap>)
    requires multiset(gaps) == multiset(rows)
    ensures |PrioritySkills(gaps)| == Min(3, |Filter(HasGap, gaps)|)
    ensures forall i :: 0 <= i < |PrioritySkills(gaps)| ==>
      exists g :: g in rows && g.gap > 0 && g.name == PrioritySkills(gaps)[i]
    ensures (forall g :: g in rows ==> g.gap <= 0) ==> PrioritySkills(gaps) == []
  {
    var positive := Filter(HasGap, gaps);
    var ranked := SortBy(CompareGaps, positive);
    var top := ranked[..Min(3, |ranked|)];
    forall i | 0 <= i < |PrioritySkills(gaps)|
      ensures exists g :: g in rows && g.gap > 0 && g.name == PrioritySkills(gaps)[i]
    {
      var g := top[i];
      assert g in multiset(ranked);
      assert g in positive;
      assert g in multiset(gaps);
      assert g.name == PrioritySkills(gaps)[i];
    }
    if positive != [] {
      assert positive[0] in multiset(gaps);
      assert positive[0] in rows && positive[0].gap > 0;
    }
  }

  /** Filtering two reorderings of one list keeps equally many elements. */
  lemma FilterCountInAnyOrder(p: SkillGap -> bool, rows: seq<SkillGap>, gaps: seq<SkillGap>)
    requires multiset(gaps) == multiset(rows)
    ensures |Filter(p, gaps)| == |Filter(p, rows)|
  {
    FilterMultiset(p, gaps);
    FilterMultiset(p, rows);
    assert multiset(Filter(p, gaps)) == multiset(Filter(p, rows));
    assert |multiset(Filter(p, gaps))| == |Filter(p, gaps)|;
    assert |multiset(Filter(p, rows))| == |Filter(p, rows)|;
  }

  /** With at most three positive gaps, the priority names are all of them. */
  lemma PrioritySkillsOfFew(gaps: seq<SkillGap>)
    requires |Filter(HasGap, gaps)| <= 3
    ensures PrioritySkills(gaps) == Names(SortBy(CompareGaps, Filter(HasGap, gaps)))
  {
    var ranked := SortBy(CompareGaps, Filter(HasGap, gaps));
    assert ranked[..Min(3, |ranked|)] == ranked;
  }

  /** A row with a positive gap survives the filter and the sort. */
  lemma PositiveGapIsRanked(rows: seq<SkillGap>, gaps: seq<SkillGap>, g: SkillGap)
    requires multiset(gaps) == multiset(rows)
    requires g in rows && g.gap > 0
    ensures g in multiset(SortBy(CompareGaps, Filter(HasGap, gaps)))
  {
    assert g in multiset(rows);
    var j :| 0 <= j < |gaps| && gaps[j] == g;
    assert HasGap(gaps[j]);
    assert g in multiset(Filter(HasGap, gaps));
  }

  /** For any reordering `gaps` of the rows: when at most three rows have a
      positive gap, every one of them is a priority skill. */
  lemma FewGapsAllPrioritised(rows: seq<SkillGap>, gaps: seq<SkillGap>)
    requires multiset(gaps) == multiset(rows)
    requires |Filter(HasGap, rows)| <= 3
    ensures forall g :: g in rows && g.gap > 0 ==> g.name in PrioritySkills(gaps)
  {
    FilterCountInAnyOrder(HasGap, rows, gaps);
    PrioritySkillsOfFew(gaps);
    forall g | g in rows && g.gap > 0
      ensures g.name in Names(SortBy(CompareGaps, Filter(HasGap, gaps)))
    {
      PositiveGapIsRanked(rows, gaps, g);
      NameOfMember(SortBy(CompareGaps, Filter(HasGap, gaps)), g);
    }
  }

  lemma NameOfMember(s: seq<SkillGap>, g: SkillGap)
    requires g in multiset(s)
    ensures g.name in Names(s)
  {
    var i :| 0 <= i < |s| && s[i] == g;
    assert Names(s)[i] == g.name;
  }

  /** `getTopRecommendations` keeps, in catalogue order, exactly the courses
      that cover a priority skill. */
  lemma TopRecommendationsSelect(data: map<string, CareerSkills>, selectedCareer: string, userSkills: seq<UserSkill>)
    requires selectedCareer in data
    ensures IsSubsequence(TopRecommendations(data, selectedCareer, userSkills), data[selectedCareer].recommendations)
    ensures forall rec :: rec in TopRecommendations(data, selectedCareer, userSkills) <==>
      rec in data[selectedCareer].recommendations && CoversAny(rec, PrioritySkills(SkillsGap(data, selectedCareer, userSkills)))
  {
    var priority := PrioritySkills(SkillsGap(data, selectedCareer, userSkills));
    FilterIsSubsequence(Covering(priority), data[selectedCareer].recommendations);
  }

  /** The priority skills come from the career's own gaps: at most three, each
      with a positive gap; with no gap at all there is no recommendation. */
  lemma TopRecommendationsFromGaps(data: map<string, CareerSkills>, selectedCareer: string, userSkills: seq<UserSkill>)
    requires selectedCareer in data
    ensures |PrioritySkills(SkillsGap(data, selectedCareer, userSkills))| <= 3
    ensures forall i :: 0 <= i < |PrioritySkills(SkillsGap(data, selectedCareer, userSkills))| ==>
      exists g :: g in GapRows(data[selectedCareer].requiredSkills, userSkills) && g.gap > 0 &&
        g.name == PrioritySkills(SkillsGap(data, selectedCareer, userSkills))[i]
    ensures (forall g :: g in GapRows(data[selectedCareer].requiredSkills, userSkills) ==> g.gap <= 0) ==>
      TopRecommendations(data, selectedCareer, userSkills) == []
  {
    var rows := GapRows(data[selectedCareer].requiredSkills, userSkills);
    var gaps := SkillsGap(data, selectedCareer, userSkills);
    PrioritySkillsInAnyOrder(rows, gaps);
    if PrioritySkills(gaps) == [] {
      FilterNone(Covering([]), data[selectedCareer].recommendations);
    }
  }

  /** With at most three positive gaps, every course that covers one of them
      is recommended. */
  lemma FewGapsAllRecommended(data: map<string, CareerSkills>, selectedCareer: string, userSkills: seq<UserSkill>)
    requires selectedCareer in data
    requires |Filter(HasGap, GapRows(data[selectedCareer].requiredSkills, userSkills))| <= 3
    ensures forall rec, g ::
      (rec in data[selectedCareer].recommendations && g in GapRows(data[selectedCareer].requiredSkills, userSkills) &&
       g.gap > 0 && g.name in rec.skillsCovered) ==> rec in TopRecommendations(data, selectedCareer, userSkills)
  {
    var rows := GapRows(data[selectedCareer].requiredSkills, userSkills);
    var gaps := SkillsGap(data, selectedCareer, userSkills);
    FewGapsAllPrioritised(rows, gaps);
    TopRecommendationsSelect(data, selectedCareer, userSkills);
    forall rec, g | rec in data[selectedCareer].recommendations && g in rows && g.gap > 0 && g.name in rec.skillsCovered
      ensures CoversAny(rec, PrioritySkills(gaps))
    {
      var k :| 0 <= k < |rec.skillsCovered| && rec.skillsCovered[k] == g.name;
    }
  }

  // ---------------------------------------------------------------------------
  // The text under the percentage

  datatype MatchBand = Excellent | Good | Fair | Weak

  function BandOf(pct: int): (b: MatchBand)
    ensures b == Excellent <==> pct >= 80
    ensures b == Good <==> 60 <= pct < 80
    ensures b == Fair <==> 40 <= pct < 60
    ensures b == Weak <==> pct < 40
  {
    if pct >= 80 then Excellent else if pct >= 60 then Good else if pct >= 40 then Fair else Weak
  }

  function BandMessage(b: MatchBand): string {
    match b
    case Excellent => "Excellent match! You have most of the skills needed for this role."
    case Good => "Good match. You have many of the required skills, but there's room for improvement."
    case Fair => "You have some of the required skills, but significant gaps remain."
    case Weak => "You need to develop most of the key skills for this role."
  }

  function BandRank(b: MatchBand): int {
    match b
    case Weak => 0
    case Fair => 1
    case Good => 2
    case Excellent => 3
  }

  /** A higher percentage never gets a lower band. */
  lemma BandMonotone(pct: int, pct': int)
    requires pct <= pct'
    ensures BandRank(BandOf(pct)) <= BandRank(BandOf(pct'))
  {
  }
}
