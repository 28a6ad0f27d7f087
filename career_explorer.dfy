/** The Career Explorer page: four filters over the career catalogue, the
    de-duplicated choices of the industry and education selectors, and the
    truncated skill badges of each card. */
module CareerExplorer {
  import opened Optional
  import opened Seqs
  import opened Text

  /** A catalogue entry; the demand level is kept in tenths (4.8 is 48). */
  datatype Career = Career(
    id: string,
    title: string,
    description: string,
    salaryRange: string,
    educationLevel: string,
    growthRate: string,
    demandTenths: int,
    skills: seq<string>,
    industry: string,
    isPopular: bool)

  const CareerData: seq<Career> := [
    Career("software-engineer", "Software Engineer",
      "Design, develop, and maintain software systems and applications",
      "$70,000 - $150,000", "Bachelor's Degree", "High", 48,
      ["Programming", "Problem Solving", "Software Design", "Algorithms"],
      "Technology", true),
    Career("data-scientist", "Data Scientist",
      "Analyze and interpret complex data to help organizations make better decisions",
      "$90,000 - $160,000", "Master's Degree", "Very High", 49,
      ["Statistics", "Programming", "Machine Learning", "Data Visualization"],
      "Technology", true),
    Career("ux-designer", "UX Designer",
      "Create meaningful and relevant experiences for users interacting with products",
      "$65,000 - $130,000", "Bachelor's Degree", "High", 45,
      ["User Research", "Wireframing", "Prototyping", "Visual Design"],
      "Design", false),
    Career("digital-marketer", "Digital Marketing Manager",
      "Develop and implement marketing strategies across digital channels",
      "$60,000 - $120,000", "Bachelor's Degree", "Moderate", 42,
      ["SEO", "Content Marketing", "Social Media", "Analytics"],
      "Marketing", true),
    Career("financial-analyst", "Financial Analyst",
      "Analyze financial data and provide recommendations for business decisions",
      "$65,000 - $125,000", "Bachelor's Degree", "Moderate", 40,
      ["Financial Modeling", "Data Analysis", "Reporting", "Forecasting"],
      "Finance", false),
    Career("product-manager", "Product Manager",
      "Lead the development and launch of products from conception to market",
      "$85,000 - $150,000", "Bachelor's Degree", "High", 47,
      ["Product Strategy", "Market Research", "User Experience", "Project Management"],
      "Technology", true),
    Career("nurse-practitioner", "Nurse Practitioner",
      "Provide advanced nursing care and primary healthcare services",
      "$90,000 - $140,000", "Master's Degree", "Very High", 49,
      ["Clinical Assessment", "Patient Care", "Prescribing", "Healthcare Knowledge"],
      "Healthcare", false),
    Career("cybersecurity-analyst", "Cybersecurity Analyst",
      "Protect computer systems and networks from security threats",
      "$75,000 - $140,000", "Bachelor's Degree", "Very High", 48,
      ["Network Security", "Threat Analysis", "Security Tools", "Vulnerability Assessment"],
      "Technology", true),
    Career("hr-manager", "HR Manager",
      "Oversee human resources activities and policies within an organization",
      "$70,000 - $120,000", "Bachelor's Degree", "Moderate", 39,
      ["Recruitment", "Employee Relations", "Performance Management", "Compliance"],
      "Human Resources", false)]

  /** The four filter values; the slider's minimum is in tenths too. */
  datatype Filters = Filters(searchQuery: string, industry: string, education: string, minDemandTenths: int)

  /** The demand slider's lowest value, 3.0, in tenths. */
  const SliderMinTenths := 30

  /** The initial filter state, which both reset buttons restore: no search,
      every industry and education level, and the slider at its lowest value. */
  const ResetFilters := Filters("", "all", "all", SliderMinTenths)

  // ---------------------------------------------------------------------------
  // Filtering

  predicate MatchesSearch(c: Career, searchQuery: string) {
    searchQuery == "" ||
    Includes(ToLower(c.title), ToLower(searchQuery)) ||
    Includes(ToLower(c.description), ToLower(searchQuery))
  }

  predicate IndustryAdmits(industry: string, c: Career) {
    industry == "all" || c.industry == industry
  }

  predicate EducationAdmits(education: string, c: Career) {
    education == "all" || c.educationLevel == education
  }

  predicate DemandAdmits(minDemandTenths: int, c: Career) {
    !(c.demandTenths < minDemandTenths)
  }

  /** The body of `filteredCareers`: all four filters must let the career through. */
  predicate Admits(f: Filters, c: Career) {
    MatchesSearch(c, f.searchQuery) &&
    IndustryAdmits(f.industry, c) &&
    EducationAdmits(f.education, c) &&
    DemandAdmits(f.minDemandTenths, c)
  }

  function Admitted(f: Filters): Career -> bool {
    c => Admits(f, c)
  }

  /** `filteredCareers`. */
  function FilterCareers(careers: seq<Career>, f: Filters): (r: seq<Career>)
    ensures IsSubsequence(r, careers)
    ensures forall i :: 0 <= i < |r| ==> r[i] in careers && Admits(f, r[i])
    ensures forall i :: 0 <= i < |careers| && Admits(f, careers[i]) ==> careers[i] in r
  {
    FilterIsSubsequence(Admitted(f), careers);
    Filter(Admitted(f), careers)
  }

  /** A career that passes the other three filters is shown exactly when its
      demand level reaches the slider's minimum. */
  lemma ShownIffDemandReached(careers: seq<Career>, f: Filters, i: nat)
    requires i < |careers|
    requires MatchesSearch(careers[i], f.searchQuery)
    requires IndustryAdmits(f.industry, careers[i]) && EducationAdmits(f.education, careers[i])
    ensures careers[i] in FilterCareers(careers, f) <==> careers[i].demandTenths >= f.minDemandTenths
  {
    var r := FilterCareers(careers, f);
    if careers[i] in r {
      var k :| 0 <= k < |r| && r[k] == careers[i];
      assert Admits(f, r[k]);
    }
  }

  function IndustryIs(industry: string): Career -> bool {
    (c: Career) => c.industry == industry
  }

  function EducationIs(education: string): Career -> bool {
    (c: Career) => c.educationLevel == education
  }

  /** Choosing an industry instead of "all" keeps, of what "all" shows, exactly
      the careers of that industry. */
  lemma IndustryNarrowsAll(careers: seq<Career>, f: Filters, industry: string)
    requires industry != "all"
    ensures FilterCareers(careers, f.(industry := industry))
      == Filter(IndustryIs(industry), FilterCareers(careers, f.(industry := "all")))
  {
    FilterOfFilter(Admitted(f.(industry := industry)), Admitted(f.(industry := "all")), IndustryIs(industry), careers);
  }

  /** The same for the education selector. */
  lemma EducationNarrowsAll(careers: seq<Career>, f: Filters, education: string)
    requires education != "all"
    ensures FilterCareers(careers, f.(education := education))
      == Filter(EducationIs(education), FilterCareers(careers, f.(education := "all")))
  {
    FilterOfFilter(Admitted(f.(education := education)), Admitted(f.(education := "all")), EducationIs(education), careers);
  }

  /** With no query, both selectors on "all" and a minimum every career
      reaches, the whole list is shown. */
  lemma OpenFiltersShowAll(careers: seq<Career>, f: Filters)
    requires f.searchQuery == "" && f.industry == "all" && f.education == "all"
    requires forall i :: 0 <= i < |careers| ==> careers[i].demandTenths >= f.minDemandTenths
    ensures FilterCareers(careers, f) == careers
  {
    FilterAll(Admitted(f), careers);
  }

  /** Every career in the catalogue has a demand level of at least 3.9. */
  lemma CatalogueDemandAtLeast39()
    ensures forall i :: 0 <= i < |CareerData| ==> CareerData[i].demandTenths >= 39
  {
  }

  /** After either reset button the whole catalogue is shown. */
  lemma ResetShowsCatalogue()
    ensures FilterCareers(CareerData, ResetFilters) == CareerData
  {
    CatalogueDemandAtLeast39();
    OpenFiltersShowAll(CareerData, ResetFilters);
  }

  // ---------------------------------------------------------------------------
  // Selector choices

  function IndustryColumn(careers: seq<Career>): seq<string> {
    seq(|careers|, i requires 0 <= i < |careers| => careers[i].industry)
  }

  function EducationColumn(careers: seq<Career>): seq<string> {
    seq(|careers|, i requires 0 <= i < |careers| => careers[i].educationLevel)
  }

  /** `industries`: each industry once, in order of first occurrence. */
  function Industries(careers: seq<Career>): (r: seq<string>)
    ensures forall i, j :: 0 <= i < j < |r| ==> r[i] != r[j]
    ensures forall i :: 0 <= i < |careers| ==> careers[i].industry in r
    ensures forall k :: 0 <= k < |r| ==> exists i :: 0 <= i < |careers| && careers[i].industry == r[k]
    ensures forall i, j :: 0 <= i < j < |r| ==>
      r[i] in IndustryColumn(careers) && r[j] in IndustryColumn(careers) &&
      FirstIndex(IndustryColumn(careers), r[i]) < FirstIndex(IndustryColumn(careers), r[j])
  {
    var column := IndustryColumn(careers);
    DedupFirstOccurrenceOrder(column);
    var r := Dedup(column);
    assert forall i :: 0 <= i < |careers| ==> careers[i].industry == column[i];
    r
  }

  /** `educationLevels`: each education level once, in order of first occurrence. */
  function EducationLevels(careers: seq<Career>): (r: seq<string>)
    ensures forall i, j :: 0 <= i < j < |r| ==> r[i] != r[j]
    ensures forall i :: 0 <= i < |careers| ==> careers[i].educationLevel in r
    ensures forall k :: 0 <= k < |r| ==> exists i :: 0 <= i < |careers| && careers[i].educationLevel == r[k]
    ensures forall i, j :: 0 <= i < j < |r| ==>
      r[i] in EducationColumn(careers) && r[j] in EducationColumn(careers) &&
      FirstIndex(EducationColumn(careers), r[i]) < FirstIndex(EducationColumn(careers), r[j])
  {
    var column := EducationColumn(careers);
    DedupFirstOccurrenceOrder(column);
    var r := Dedup(column);
    assert forall i :: 0 <= i < |careers| ==> careers[i].educationLevel == column[i];
    r
  }

  // ---------------------------------------------------------------------------
  // Skill badges

  /** The badges of a card: the skills shown, and the count of the "+N more" badge if there is one. */
  datatype SkillBadges = SkillBadges(shown: seq<string>, more: Option<nat>)

  function Badges(skills: seq<string>): (b: SkillBadges)
    ensures |b.shown| <= 3 && |b.shown| <= |skills| && b.shown == skills[..|b.shown|]
    ensures b.more.Some? <==> |skills| > 3
    ensures |b.shown| + b.more.GetOr(0) == |skills|
    ensures |skills| > 3 ==> b.shown == skills[..3] && b.more == Some(|skills| - 3)
    ensures |skills| <= 3 ==> b.shown == skills
  {
    if |skills| > 3 then SkillBadges(skills[..3], Some(|skills| - 3))
    else SkillBadges(skills, None)
  }
}
