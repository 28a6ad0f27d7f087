/** The Resume Builder's editing state: the personal record, four lists of
    entries (experience, education, skills, projects) edited by add, update
    and remove, and the six-step section the editor shows. Entry ids, which
    the page renders as decimal strings, are kept as the numbers they spell. */
module ResumeBuilder {
  import opened Seqs

  // ---------------------------------------------------------------------------
  // Sections

  datatype Section = Personal | Experience | Education | Skills | Projects | Preview

  /** The position of a section in the editor's order. */
  function Step(s: Section): nat {
    match s
    case Personal => 0
    case Experience => 1
    case Education => 2
    case Skills => 3
    case Projects => 4
    case Preview => 5
  }

  /** `nextSection`'s switch. */
  function Next(s: Section): Section {
    match s
    case Personal => Experience
    case Experience => Education
    case Education => Skills
    case Skills => Projects
    case Projects => Preview
    case Preview => Preview
  }

  /** `prevSection`'s switch. */
  function Prev(s: Section): Section {
    match s
    case Personal => Personal
    case Experience => Personal
    case Education => Experience
    case Skills => Education
    case Projects => Skills
    case Preview => Projects
  }

  /** Next moves one step forward and stays put at the preview. */
  lemma NextAdvances(s: Section)
    ensures s != Preview ==> Step(Next(s)) == Step(s) + 1
    ensures s == Preview ==> Next(s) == s
  {
  }

  /** Prev moves one step back and stays put at the personal section. */
  lemma PrevStepsBack(s: Section)
    ensures s != Personal ==> Step(Prev(s)) + 1 == Step(s)
    ensures s == Personal ==> Prev(s) == s
  {
  }

  /** Each one undoes the other away from the ends. */
  lemma PrevUndoesNext(s: Section)
    ensures s != Preview ==> Prev(Next(s)) == s
    ensures s != Personal ==> Next(Prev(s)) == s
  {
  }

  /** The section after k presses of Next. */
  function NextTimes(s: Section, k: nat): Section
    decreases k
  {
    if k == 0 then s else NextTimes(Next(s), k - 1)
  }

  /** k presses of Next advance k steps, stopping at the preview. */
  lemma {:induction false} NextTimesReaches(s: Section, k: nat)
    ensures Step(NextTimes(s, k)) == if Step(s) + k <= 5 then Step(s) + k else 5
    decreases k
  {
    if k > 0 {
      NextAdvances(s);
      NextTimesReaches(Next(s), k - 1);
    }
  }

  // ---------------------------------------------------------------------------
  // Personal record

  datatype PersonalInfo = PersonalInfo(
    name: string, email: string, phone: string, location: string, website: string, summary: string)

  datatype PersonalField = Name | Email | Phone | Location | Website | Summary

  function PersonalGet(p: PersonalInfo, f: PersonalField): string {
    match f
    case Name => p.name
    case Email => p.email
    case Phone => p.phone
    case Location => p.location
    case Website => p.website
    case Summary => p.summary
  }

  /** `{ ...personal, [field]: value }`. */
  function PersonalWith(p: PersonalInfo, f: PersonalField, value: string): (r: PersonalInfo)
    ensures PersonalGet(r, f) == value
    ensures forall g :: g != f ==> PersonalGet(r, g) == PersonalGet(p, g)
  {
    match f
    case Name => p.(name := value)
    case Email => p.(email := value)
    case Phone => p.(phone := value)
    case Location => p.(location := value)
    case Website => p.(website := value)
    case Summary => p.(summary := value)
  }

  // ---------------------------------------------------------------------------
  // Entries

  datatype ExperienceEntry = ExperienceEntry(
    id: nat, title: string, company: string, location: string,
    startDate: string, endDate: string, current: bool, description: string)

  datatype ExperienceField = Title | Company | Location | StartDate | EndDate | Description

  /** What an experience form control writes: a text field, or the "current" checkbox. */
  datatype ExperienceChange = SetText(field: ExperienceField, value: string) | SetCurrent(current: bool)

  function ExperienceGet(e: ExperienceEntry, f: ExperienceField): string {
    match f
    case Title => e.title
    case Company => e.company
    case Location => e.location
    case StartDate => e.startDate
    case EndDate => e.endDate
    case Description => e.description
  }

  /** `{ ...exp, [field]: value }`. */
  function ApplyExperience(e: ExperienceEntry, c: ExperienceChange): (r: ExperienceEntry)
    ensures r.id == e.id
    ensures c.SetText? ==> ExperienceGet(r, c.field) == c.value && r.current == e.current
    ensures c.SetText? ==> forall g :: g != c.field ==> ExperienceGet(r, g) == ExperienceGet(e, g)
    ensures c.SetCurrent? ==> r.current == c.current && forall g :: ExperienceGet(r, g) == ExperienceGet(e, g)
  {
    match c
    case SetCurrent(b) => e.(current := b)
    case SetText(f, v) =>
      match f
      case Title => e.(title := v)
      case Company => e.(company := v)
      case Location => e.(location := v)
      case StartDate => e.(startDate := v)
      case EndDate => e.(endDate := v)
      case Description => e.(description := v)
  }

  datatype EducationEntry = EducationEntry(
    id: nat, degree: string, school: string, location: string,
    startDate: string, endDate: string, description: string)

  datatype EducationField = Degree | School | Location | StartDate | EndDate | Description

  function EducationGet(e: EducationEntry, f: EducationField): string {
    match f
    case Degree => e.degree
    case School => e.school
    case Location => e.location
    case StartDate => e.startDate
    case EndDate => e.endDate
    case Description => e.description
  }

  function EducationWith(e: EducationEntry, f: EducationField, value: string): (r: EducationEntry)
    ensures r.id == e.id
    ensures EducationGet(r, f) == value
    ensures forall g :: g != f ==> EducationGet(r, g) == EducationGet(e, g)
  {
    match f
    case Degree => e.(degree := value)
    case School => e.(school := value)
    case Location => e.(location := value)
    case StartDate => e.(startDate := value)
    case EndDate => e.(endDate := value)
    case Description => e.(description := value)
  }

  datatype SkillEntry = SkillEntry(id: nat, name: string, level: string)

  datatype SkillField = Name | Level

  function SkillGet(e: SkillEntry, f: SkillField): string {
    match f
    case Name => e.name
    case Level => e.level
  }

  function SkillWith(e: SkillEntry, f: SkillField, value: string): (r: SkillEntry)
    ensures r.id == e.id
    ensures SkillGet(r, f) == value
    ensures forall g :: g != f ==> SkillGet(r, g) == SkillGet(e, g)
  {
    match f
    case Name => e.(name := value)
    case Level => e.(level := value)
  }

  datatype ProjectEntry = ProjectEntry(
    id: nat, title: string, description: string, technologies: string, link: string)

  datatype ProjectField = Title | Description | Technologies | Link

  function ProjectGet(e: ProjectEntry, f: ProjectField): string {
    match f
    case Title => e.title
    case Description => e.description
    case Technologies => e.technologies
    case Link => e.link
  }

  function ProjectWith(e: ProjectEntry, f: ProjectField, value: string): (r: ProjectEntry)
    ensures r.id == e.id
    ensures ProjectGet(r, f) == value
    ensures forall g :: g != f ==> ProjectGet(r, g) == ProjectGet(e, g)
  {
    match f
    case Title => e.(title := value)
    case Description => e.(description := value)
    case Technologies => e.(technologies := value)
    case Link => e.(link := value)
  }

  /** The blank entries that `add*` appends. */
  function BlankExperience(id: nat): ExperienceEntry {
    ExperienceEntry(id, "", "", "", "", "", false, "")
  }

  function BlankEducation(id: nat): EducationEntry {
    EducationEntry(id, "", "", "", "", "", "")
  }

  function BlankSkill(id: nat): SkillEntry {
    SkillEntry(id, "", "Intermediate")
  }

  function BlankProject(id: nat): ProjectEntry {
    ProjectEntry(id, "", "", "", "")
  }

  function ExperienceId(e: ExperienceEntry): nat { e.id }
  function EducationId(e: EducationEntry): nat { e.id }
  function SkillId(e: SkillEntry): nat { e.id }
  function ProjectId(e: ProjectEntry): nat { e.id }

  // ---------------------------------------------------------------------------
  // List operations shared by the four lists

  /** `entries.map(e => e.id === id ? change(e) : e)`. */
  function UpdateById<T>(entries: seq<T>, idOf: T -> nat, id: nat, change: T -> T): (r: seq<T>)
    ensures |r| == |entries|
    ensures forall i :: 0 <= i < |entries| && idOf(entries[i]) == id ==> r[i] == change(entries[i])
    ensures forall i :: 0 <= i < |entries| && idOf(entries[i]) != id ==> r[i] == entries[i]
  {
    seq(|entries|, i requires 0 <= i < |entries| => if idOf(entries[i]) == id then change(entries[i]) else entries[i])
  }

  function IdIsNot<T>(idOf: T -> nat, id: nat): T -> bool {
    e => idOf(e) != id
  }

  /** `entries.filter(e => e.id !== id)`. */
  function RemoveById<T>(entries: seq<T>, idOf: T -> nat, id: nat): (r: seq<T>)
    ensures forall i :: 0 <= i < |r| ==> idOf(r[i]) != id
    ensures IsSubsequence(r, entries)
    ensures forall i :: 0 <= i < |entries| && idOf(entries[i]) != id ==>
      multiset(r)[entries[i]] == multiset(entries)[entries[i]]
  {
    FilterIsSubsequence(IdIsNot(idOf, id), entries);
    FilterMultiset(IdIsNot(idOf, id), entries);
    Filter(IdIsNot(idOf, id), entries)
  }

  /** No two entries share an id. */
  ghost predicate UniqueIds<T>(entries: seq<T>, idOf: T -> nat) {
    forall i, j :: 0 <= i < j < |entries| ==> idOf(entries[i]) != idOf(entries[j])
  }

  // ---------------------------------------------------------------------------
  // The editor

  class ResumeEditor {
    var activeTab: Section
    var personal: PersonalInfo
    var experience: seq<ExperienceEntry>
    var education: seq<EducationEntry>
    var skills: seq<SkillEntry>
    var projects: seq<ProjectEntry>

    /** The initial state: the personal section, an empty record and one blank entry with id 1 per list. */
    constructor()
      ensures activeTab == Personal
      ensures personal == PersonalInfo("", "", "", "", "", "")
      ensures experience == [BlankExperience(1)] && education == [BlankEducation(1)]
      ensures skills == [BlankSkill(1)] && projects == [BlankProject(1)]
    {
      activeTab := Personal;
      personal := PersonalInfo("", "", "", "", "", "");
      experience := [BlankExperience(1)];
      education := [BlankEducation(1)];
      skills := [BlankSkill(1)];
      projects := [BlankProject(1)];
    }

    method UpdatePersonal(field: PersonalField, value: string)
      modifies this
      ensures personal == PersonalWith(old(personal), field, value)
      ensures activeTab == old(activeTab) && experience == old(experience) && education == old(education)
      ensures skills == old(skills) && projects == old(projects)
    {
      personal := PersonalWith(personal, field, value);
    }

    method AddExperience()
      modifies this
      ensures experience == old(experience) + [BlankExperience(|old(experience)| + 1)]
      ensures activeTab == old(activeTab) && personal == old(personal) && education == old(education)
      ensures skills == old(skills) && projects == old(projects)
    {
      var newId := |experience| + 1;
      experience := experience + [BlankExperience(newId)];
    }

    method UpdateExperience(id: nat, change: ExperienceChange)
      modifies this
      ensures experience == UpdateById(old(experience), ExperienceId, id, (e: ExperienceEntry) => ApplyExperience(e, change))
      ensures activeTab == old(activeTab) && personal == old(personal) && education == old(education)
      ensures skills == old(skills) && projects == old(projects)
    {
      experience := UpdateById(experience, ExperienceId, id, (e: ExperienceEntry) => ApplyExperience(e, change));
    }

    method RemoveExperience(id: nat)
      modifies this
      ensures experience == RemoveById(old(experience), ExperienceId, id)
      ensures activeTab == old(activeTab) && personal == old(personal) && education == old(education)
      ensures skills == old(skills) && projects == old(projects)
    {
      experience := RemoveById(experience, ExperienceId, id);
    }

    method AddEducation()
      modifies this
      ensures education == old(education) + [BlankEducation(|old(education)| + 1)]
      ensures activeTab == old(activeTab) && personal == old(personal) && experience == old(experience)
      ensures skills == old(skills) && projects == old(projects)
    {
      var newId := |education| + 1;
      education := education + [BlankEducation(newId)];
    }

    method UpdateEducation(id: nat, field: EducationField, value: string)
      modifies this
      ensures education == UpdateById(old(education), EducationId, id, (e: EducationEntry) => EducationWith(e, field, value))
      ensures activeTab == old(activeTab) && personal == old(personal) && experience == old(experience)
      ensures skills == old(skills) && projects == old(projects)
    {
      education := UpdateById(education, EducationId, id, (e: EducationEntry) => EducationWith(e, field, value));
    }

    method RemoveEducation(id: nat)
      modifies this
      ensures education == RemoveById(old(education), EducationId, id)
      ensures activeTab == old(activeTab) && personal == old(personal) && experience == old(experience)
      ensures skills == old(skills) && projects == old(projects)
    {
      education := RemoveById(education, EducationId, id);
    }

    method AddSkill()
      modifies this
      ensures skills == old(skills) + [BlankSkill(|old(skills)| + 1)]
      ensures activeTab == old(activeTab) && personal == old(personal) && experience == old(experience)
      ensures education == old(education) && projects == old(projects)
    {
      var newId := |skills| + 1;
      skills := skills + [BlankSkill(newId)];
    }

    method UpdateSkill(id: nat, field: SkillField, value: string)
      modifies this
      ensures skills == UpdateById(old(skills), SkillId, id, (e: SkillEntry) => SkillWith(e, field, value))
      ensures activeTab == old(activeTab) && personal == old(personal) && experience == old(experience)
      ensures education == old(education) && projects == old(projects)
    {
      skills := UpdateById(skills, SkillId, id, (e: SkillEntry) => SkillWith(e, field, value));
    }

    method RemoveSkill(id: nat)
      modifies this
      ensures skills == RemoveById(old(skills), SkillId, id)
      ensures activeTab == old(activeTab) && personal == old(personal) && experience == old(experience)
      ensures education == old(education) && projects == old(projects)
    {
      skills := RemoveById(skills, SkillId, id);
    }

    method AddProject()
      modifies this
      ensures projects == old(projects) + [BlankProject(|old(projects)| + 1)]
      ensures activeTab == old(activeTab) && personal == old(personal) && experience == old(experience)
      ensures education == old(education) && skills == old(skills)
    {
      var newId := |projects| + 1;
      projects := projects + [BlankProject(newId)];
    }

    method UpdateProject(id: nat, field: ProjectField, value: string)
      modifies this
      ensures projects == UpdateById(old(projects), ProjectId, id, (e: ProjectEntry) => ProjectWith(e, field, value))
      ensures activeTab == old(activeTab) && personal == old(personal) && experience == old(experience)
      ensures education == old(education) && skills == old(skills)
    {
      projects := UpdateById(projects, ProjectId, id, (e: ProjectEntry) => ProjectWith(e, field, value));
    }

    method RemoveProject(id: nat)
      modifies this
      ensures projects == RemoveById(old(projects), ProjectId, id)
      ensures activeTab == old(activeTab) && personal == old(personal) && experience == old(experience)
      ensures education == old(education) && skills == old(skills)
    {
      projects := RemoveById(projects, ProjectId, id);
    }

    method NextSection()
      modifies this
      ensures activeTab == Next(old(activeTab))
      ensures personal == old(personal) && experience == old(experience) && education == old(education)
      ensures skills == old(skills) && projects == old(projects)
    {
      match activeTab
      case Personal => activeTab := Experience;
      case Experience => activeTab := Education;
      case Education => activeTab := Skills;
      case Skills => activeTab := Projects;
      case Projects => activeTab := Preview;
      case Preview =>
    }

    method PrevSection()
      modifies this
      ensures activeTab == Prev(old(activeTab))
      ensures personal == old(personal) && experience == old(experience) && education == old(education)
      ensures skills == old(skills) && projects == old(projects)
    {
      match activeTab
      case Experience => activeTab := Personal;
      case Education => activeTab := Experience;
      case Skills => activeTab := Education;
      case Projects => activeTab := Skills;
      case Preview => activeTab := Projects;
      case Personal =>
    }

    /** A sidebar button. */
    method SetActiveTab(s: Section)
      modifies this
      ensures activeTab == s
      ensures personal == old(personal) && experience == old(experience) && education == old(education)
      ensures skills == old(skills) && projects == old(projects)
    {
      activeTab := s;
    }
  }

  // ---------------------------------------------------------------------------
  // What the list operations promise

  /** Updating by id changes the named field of the matching experience entries and nothing else. */
  lemma UpdateExperienceChangesOnlyField(entries: seq<ExperienceEntry>, id: nat, field: ExperienceField, value: string, i: nat)
    requires i < |entries|
    ensures var r := UpdateById(entries, ExperienceId, id, (e: ExperienceEntry) => ApplyExperience(e, SetText(field, value)));
      |r| == |entries| && r[i].id == entries[i].id && r[i].current == entries[i].current &&
      ExperienceGet(r[i], field) == (if entries[i].id == id then value else ExperienceGet(entries[i], field)) &&
      forall g :: g != field ==> ExperienceGet(r[i], g) == ExperienceGet(entries[i], g)
  {
  }

  /** Ids stay unique under removal. */
  lemma {:induction false} RemoveKeepsUniqueIds<T>(entries: seq<T>, idOf: T -> nat, id: nat)
    requires UniqueIds(entries, idOf)
    ensures UniqueIds(RemoveById(entries, idOf, id), idOf)
  {
    FilterKeepsUniqueIds(entries, idOf, id);
  }

  /** An entry whose id no entry of a list with unique ids shares can go in front. */
  lemma UniqueIdsPrepend<T>(x: T, rest: seq<T>, idOf: T -> nat)
    requires UniqueIds(rest, idOf)
    requires forall k :: 0 <= k < |rest| ==> idOf(rest[k]) != idOf(x)
    ensures UniqueIds([x] + rest, idOf)
  {
    var r := [x] + rest;
    forall i, j | 0 <= i < j < |r| ensures idOf(r[i]) != idOf(r[j]) {
      assert r[j] == rest[j - 1];
      if i > 0 {
        assert r[i] == rest[i - 1];
      }
    }
  }

  /** Filtering a list with unique ids keeps them unique. */
  lemma {:induction false} FilterKeepsUniqueIds<T>(entries: seq<T>, idOf: T -> nat, id: nat)
    requires UniqueIds(entries, idOf)
    ensures UniqueIds(Filter(IdIsNot(idOf, id), entries), idOf)
  {
    if entries != [] {
      var t := entries[1..];
      assert UniqueIds(t, idOf);
      FilterKeepsUniqueIds(t, idOf, id);
      var rt := Filter(IdIsNot(idOf, id), t);
      var r := Filter(IdIsNot(idOf, id), entries);
      if idOf(entries[0]) != id {
        forall k | 0 <= k < |rt| ensures idOf(rt[k]) != idOf(entries[0]) {
          var m :| 0 <= m < |t| && t[m] == rt[k];
          assert entries[m + 1] == rt[k];
        }
        UniqueIdsPrepend(entries[0], rt, idOf);
        assert r == [entries[0]] + rt;
      } else {
        assert r == rt;
      }
    }
  }

  /** With unique ids, a remove offered on a list of two or more leaves it non-empty. */
  lemma GuardedRemoveKeepsNonEmpty<T>(entries: seq<T>, idOf: T -> nat, id: nat)
    requires UniqueIds(entries, idOf) && |entries| > 1
    ensures |RemoveById(entries, idOf, id)| > 0
  {
    var e := if idOf(entries[0]) != id then entries[0] else entries[1];
    assert idOf(e) != id;
    assert e in RemoveById(entries, idOf, id) by {
      FilterMultiset(IdIsNot(idOf, id), entries);
      if idOf(entries[0]) != id {
        assert multiset(entries)[entries[0]] > 0;
      } else {
        assert multiset(entries)[entries[1]] > 0;
      }
    }
  }

  // ---------------------------------------------------------------------------
  // The user-interface steps on one list, as written and with a fresh id

  /** What the page lets the user do to one list: add, or remove an entry by
      id, where the remove button only shows on a list of two or more. */
  datatype ListAction = AddEntry | RemoveEntry(id: nat)

  /** One step as written: the new id is the length plus one. */
  function UiStep<T>(entries: seq<T>, idOf: T -> nat, blank: nat -> T, a: ListAction): seq<T> {
    match a
    case AddEntry => entries + [blank(|entries| + 1)]
    case RemoveEntry(id) => if |entries| > 1 then RemoveById(entries, idOf, id) else entries
  }

  /** As written: add, remove id 1, add (which reuses id 2), remove id 2 empties the experience list. */
  lemma UiStepsCanEmptyList()
    ensures var l := [BlankExperience(1)];
      var l1 := UiStep(l, ExperienceId, BlankExperience, AddEntry);
      var l2 := UiStep(l1, ExperienceId, BlankExperience, RemoveEntry(1));
      var l3 := UiStep(l2, ExperienceId, BlankExperience, AddEntry);
      l3 == [BlankExperience(2), BlankExperience(2)] &&
      UiStep(l3, ExperienceId, BlankExperience, RemoveEntry(2)) == []
  {
    var l := [BlankExperience(1)];
    var l1 := UiStep(l, ExperienceId, BlankExperience, AddEntry);
    assert l1 == [BlankExperience(1), BlankExperience(2)];
    var l2 := UiStep(l1, ExperienceId, BlankExperience, RemoveEntry(1));
    assert l2 == Filter(IdIsNot(ExperienceId, 1), l1);
    assert l1[1..] == [BlankExperience(2)];
    assert l2 == [BlankExperience(2)];
    var l3 := UiStep(l2, ExperienceId, BlankExperience, AddEntry);
    assert l3 == [BlankExperience(2), BlankExperience(2)];
    assert l3[1..] == [BlankExperience(2)];
    assert Filter(IdIsNot(ExperienceId, 2), l3[1..]) == [];
  }

  /** One more than the largest id in the list. */
  function FreshId<T>(entries: seq<T>, idOf: T -> nat): (r: nat)
    ensures forall i :: 0 <= i < |entries| ==> idOf(entries[i]) < r
  {
    if entries == [] then 1
    else
      var rest := FreshId(entries[..|entries| - 1], idOf);
      var last := idOf(entries[|entries| - 1]);
      if last < rest then rest else last + 1
  }

  /** One step with a fresh id. */
  function UiStepFresh<T>(entries: seq<T>, idOf: T -> nat, blank: nat -> T, a: ListAction): seq<T> {
    match a
    case AddEntry => entries + [blank(FreshId(entries, idOf))]
    case RemoveEntry(id) => if |entries| > 1 then RemoveById(entries, idOf, id) else entries
  }

  /** With fresh ids, every step keeps the ids unique and the list non-empty. */
  lemma UiStepFreshKeepsInvariant<T>(entries: seq<T>, idOf: T -> nat, blank: nat -> T, a: ListAction)
    requires forall n: nat :: idOf(blank(n)) == n
    requires UniqueIds(entries, idOf) && |entries| > 0
    ensures var r := UiStepFresh(entries, idOf, blank, a);
      UniqueIds(r, idOf) && |r| > 0
  {
    match a
    case AddEntry =>
      var newId := FreshId(entries, idOf);
      var r := entries + [blank(newId)];
      assert idOf(r[|entries|]) == newId;
      forall i, j | 0 <= i < j < |r| ensures idOf(r[i]) != idOf(r[j]) {
        if j < |entries| {
          assert r[i] == entries[i] && r[j] == entries[j];
        } else {
          assert r[i] == entries[i];
        }
      }
    case RemoveEntry(id) =>
      if |entries| > 1 {
        RemoveKeepsUniqueIds(entries, idOf, id);
        GuardedRemoveKeepsNonEmpty(entries, idOf, id);
      }
  }

  /** The initial list satisfies that invariant. */
  lemma InitialListHasUniqueIds()
    ensures UniqueIds([BlankExperience(1)], ExperienceId)
  {
  }
}
