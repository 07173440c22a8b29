/** The editing helpers of the resume form. Each helper builds a new resume
    from the old one with spread, `map` and `filter` and hands it on; here
    each is a function from the old resume to the new one. The id that the
    form takes from the clock for a new entry is a parameter. */
module ResumeForm {
  import opened Text
  import opened ResumeData

  // ---------------------------------------------------------------------
  // List operations shared by every kind of entry

  /** `xs.map(x => x.id === id ? edit(x) : x)`. */
  function UpdateWhere<T>(xs: seq<T>, idOf: T -> string, id: string, edit: T -> T): (r: seq<T>)
    ensures |r| == |xs|
    ensures forall i | 0 <= i < |xs| :: r[i] == (if idOf(xs[i]) == id then edit(xs[i]) else xs[i])
    ensures (forall x | x in xs :: idOf(x) != id) ==> r == xs
  {
    if xs == [] then []
    else [if idOf(xs[0]) == id then edit(xs[0]) else xs[0]] + UpdateWhere(xs[1..], idOf, id, edit)
  }

  /** `xs.filter(x => x.id !== id)`. */
  function RemoveWhere<T>(xs: seq<T>, idOf: T -> string, id: string): (r: seq<T>)
    ensures |r| <= |xs|
  {
    if xs == [] then []
    else (if idOf(xs[0]) == id then [] else [xs[0]]) + RemoveWhere(xs[1..], idOf, id)
  }

  /** No entry with the id is left, and every entry with another id is kept. */
  lemma {:induction false} RemoveWhereMembers<T>(xs: seq<T>, idOf: T -> string, id: string)
    ensures forall x | x in RemoveWhere(xs, idOf, id) :: x in xs && idOf(x) != id
    ensures forall x | x in xs && idOf(x) != id :: x in RemoveWhere(xs, idOf, id)
  {
    if xs != [] {
      RemoveWhereMembers(xs[1..], idOf, id);
      assert xs == [xs[0]] + xs[1..];
    }
  }

  /** The kept entries stay in their original order: filtering a
      concatenation filters each part. */
  lemma {:induction false} RemoveWhereAppend<T>(a: seq<T>, b: seq<T>, idOf: T -> string, id: string)
    ensures RemoveWhere(a + b, idOf, id) == RemoveWhere(a, idOf, id) + RemoveWhere(b, idOf, id)
  {
    if a == [] {
      assert a + b == b;
    } else {
      assert (a + b)[0] == a[0] && (a + b)[1..] == a[1..] + b;
      RemoveWhereAppend(a[1..], b, idOf, id);
    }
  }

  /** Removing an id that no entry has changes nothing. */
  lemma {:induction false} RemoveWhereAbsent<T>(xs: seq<T>, idOf: T -> string, id: string)
    requires forall x | x in xs :: idOf(x) != id
    ensures RemoveWhere(xs, idOf, id) == xs
  {
    if xs != [] {
      assert xs[0] in xs;
      RemoveWhereAbsent(xs[1..], idOf, id);
      assert [xs[0]] + xs[1..] == xs;
    }
  }

  /** Removing the id of an entry just appended with a fresh id gives back
      the list from before. */
  lemma RemoveAppended<T>(xs: seq<T>, x: T, idOf: T -> string)
    requires forall y | y in xs :: idOf(y) != idOf(x)
    ensures RemoveWhere(xs + [x], idOf, idOf(x)) == xs
  {
    RemoveWhereAppend(xs, [x], idOf, idOf(x));
    RemoveWhereAbsent(xs, idOf, idOf(x));
    assert RemoveWhere([x], idOf, idOf(x)) == [];
  }

  /** `xs.filter((_, index) => index !== k)`. */
  function DropIndex<T>(xs: seq<T>, k: int): (r: seq<T>)
    ensures 0 <= k < |xs| ==> r == xs[..k] + xs[k + 1..]
    ensures !(0 <= k < |xs|) ==> r == xs
  {
    if xs == [] then []
    else
      var rest := DropIndex(xs[1..], k - 1);
      if k == 0 then rest
      else
        assert 0 < k < |xs| ==> [xs[0]] + xs[1..][..k - 1] + xs[1..][k..] == xs[..k] + xs[k + 1..];
        assert !(0 <= k < |xs|) ==> [xs[0]] + xs[1..] == xs;
        [xs[0]] + rest
  }

  // ---------------------------------------------------------------------
  // Personal information and summary

  /** The keys `updatePersonalInfo` is called with. */
  datatype PersonalField = FullName | Email | Phone | Location | LinkedIn | Website

  function PersonalValue(p: PersonalInfo, f: PersonalField): string {
    match f
    case FullName => p.fullName
    case Email => p.email
    case Phone => p.phone
    case Location => p.location
    case LinkedIn => p.linkedin
    case Website => p.website
  }

  /** `{ ...personalInfo, [field]: value }`: the field reads back the value
      and every other field is as before. */
  function SetPersonalValue(p: PersonalInfo, f: PersonalField, value: string): (r: PersonalInfo)
    ensures PersonalValue(r, f) == value
    ensures forall g | g != f :: PersonalValue(r, g) == PersonalValue(p, g)
  {
    match f
    case FullName => p.(fullName := value)
    case Email => p.(email := value)
    case Phone => p.(phone := value)
    case Location => p.(location := value)
    case LinkedIn => p.(linkedin := value)
    case Website => p.(website := value)
  }

  function UpdatePersonalInfo(d: Resume, f: PersonalField, value: string): (r: Resume)
    ensures r.(personalInfo := d.personalInfo) == d
    ensures PersonalValue(r.personalInfo, f) == value
    ensures forall g | g != f :: PersonalValue(r.personalInfo, g) == PersonalValue(d.personalInfo, g)
  {
    d.(personalInfo := SetPersonalValue(d.personalInfo, f, value))
  }

  function UpdateSummary(d: Resume, summary: string): (r: Resume)
    ensures r.summary == summary
    ensures r.(summary := d.summary) == d
  {
    d.(summary := summary)
  }

  // ---------------------------------------------------------------------
  // Experience

  /** A value handed to an update helper: the text of an input or the state
      of the "current" check box. */
  datatype FieldValue = Text(text: string) | Flag(flag: bool)

  /** The keys `updateExperience` is called with. */
  datatype ExperienceField = Company | Position | Location | StartDate | EndDate | Current | Description

  function ExperienceValue(e: Experience, f: ExperienceField): FieldValue {
    match f
    case Company => Text(e.company)
    case Position => Text(e.position)
    case Location => Text(e.location)
    case StartDate => Text(e.startDate)
    case EndDate => Text(e.endDate)
    case Current => Flag(e.current)
    case Description => Text(e.description)
  }

  /** The check box carries a boolean, every other field a string. */
  predicate ExperienceValueFits(f: ExperienceField, value: FieldValue) {
    f.Current? <==> value.Flag?
  }

  function SetExperienceValue(e: Experience, f: ExperienceField, value: FieldValue): (r: Experience)
    requires ExperienceValueFits(f, value)
    ensures r.id == e.id
    ensures ExperienceValue(r, f) == value
    ensures forall g | g != f :: ExperienceValue(r, g) == ExperienceValue(e, g)
  {
    match f
    case Company => e.(company := value.text)
    case Position => e.(position := value.text)
    case Location => e.(location := value.text)
    case StartDate => e.(startDate := value.text)
    case EndDate => e.(endDate := value.text)
    case Current => e.(current := value.flag)
    case Description => e.(description := value.text)
  }

  /** An entry with the id gets the value in the field and keeps the rest;
      any other entry is untouched. */
  predicate ExperienceEdited(before: Experience, after: Experience, id: string, f: ExperienceField, value: FieldValue) {
    if before.id == id then
      && after.id == before.id
      && ExperienceValue(after, f) == value
      && forall g | g != f :: ExperienceValue(after, g) == ExperienceValue(before, g)
    else after == before
  }

  /** A new entry: every text empty and not current. */
  function BlankExperience(id: string): (r: Experience)
    ensures r.id == id && !r.current
    ensures forall g | g != ExperienceField.Current :: ExperienceValue(r, g) == Text("")
  {
    Experience(id, "", "", "", "", "", false, "")
  }

  function AddExperience(d: Resume, id: string): (r: Resume)
    ensures r.(experience := d.experience) == d
    ensures |r.experience| == |d.experience| + 1 && r.experience[..|d.experience|] == d.experience
    ensures r.experience[|d.experience|] == BlankExperience(id)
  {
    d.(experience := d.experience + [BlankExperience(id)])
  }

  function UpdateExperience(d: Resume, id: string, f: ExperienceField, value: FieldValue): (r: Resume)
    requires ExperienceValueFits(f, value)
    ensures r.(experience := d.experience) == d
    ensures |r.experience| == |d.experience|
    ensures forall i | 0 <= i < |d.experience| :: ExperienceEdited(d.experience[i], r.experience[i], id, f, value)
  {
    d.(experience := UpdateWhere(d.experience, (e: Experience) => e.id, id,
                                 (e: Experience) => SetExperienceValue(e, f, value)))
  }

  /** Drops the experience entries with the id; nothing else changes. The list is
      `RemoveWhere` of the old one, so the kept entries also stay in their
      original order, each once (`RemoveWhereAppend`, `RemoveWhere`'s length
      bound). */
  function RemoveExperience(d: Resume, id: string): (r: Resume)
    ensures r.(experience := d.experience) == d
    ensures forall e | e in r.experience :: e in d.experience && e.id != id
    ensures forall e | e in d.experience && e.id != id :: e in r.experience
  {
    RemoveWhereMembers(d.experience, (e: Experience) => e.id, id);
    d.(experience := RemoveWhere(d.experience, (e: Experience) => e.id, id))
  }

  /** Adding an entry with a fresh id and removing that id gives back the
      resume from before. */
  lemma RemoveAddedExperience(d: Resume, id: string)
    requires forall e | e in d.experience :: e.id != id
    ensures RemoveExperience(AddExperience(d, id), id) == d
  {
    RemoveAppended(d.experience, BlankExperience(id), (e: Experience) => e.id);
  }

  // ---------------------------------------------------------------------
  // Education

  /** The keys `updateEducation` is called with. */
  datatype EducationField = Institution | Degree | Field | GraduationDate | Gpa

  /** The field's value; the optional GPA may be missing. */
  function EducationValue(e: Education, f: EducationField): Option<string> {
    match f
    case Institution => Some(e.institution)
    case Degree => Some(e.degree)
    case Field => Some(e.field)
    case GraduationDate => Some(e.graduationDate)
    case Gpa => e.gpa
  }

  function SetEducationValue(e: Education, f: EducationField, value: string): (r: Education)
    ensures r.id == e.id
    ensures EducationValue(r, f) == Some(value)
    ensures forall g | g != f :: EducationValue(r, g) == EducationValue(e, g)
  {
    match f
    case Institution => e.(institution := value)
    case Degree => e.(degree := value)
    case Field => e.(field := value)
    case GraduationDate => e.(graduationDate := value)
    case Gpa => e.(gpa := Some(value))
  }

  predicate EducationEdited(before: Education, after: Education, id: string, f: EducationField, value: string) {
    if before.id == id then
      && after.id == before.id
      && EducationValue(after, f) == Some(value)
      && forall g | g != f :: EducationValue(after, g) == EducationValue(before, g)
    else after == before
  }

  /** A new entry: every text empty, the GPA included. */
  function BlankEducation(id: string): (r: Education)
    ensures r.id == id
    ensures forall g :: EducationValue(r, g) == Some("")
  {
    Education(id, "", "", "", "", Some(""))
  }

  function AddEducation(d: Resume, id: string): (r: Resume)
    ensures r.(education := d.education) == d
    ensures |r.education| == |d.education| + 1 && r.education[..|d.education|] == d.education
    ensures r.education[|d.education|] == BlankEducation(id)
  {
    d.(education := d.education + [BlankEducation(id)])
  }

  function UpdateEducation(d: Resume, id: string, f: EducationField, value: string): (r: Resume)
    ensures r.(education := d.education) == d
    ensures |r.education| == |d.education|
    ensures forall i | 0 <= i < |d.education| :: EducationEdited(d.education[i], r.education[i], id, f, value)
  {
    d.(education := UpdateWhere(d.education, (e: Education) => e.id, id,
                                (e: Education) => SetEducationValue(e, f, value)))
  }

  /** Drops the education entries with the id; nothing else changes. The list is
      `RemoveWhere` of the old one, so the kept entries also stay in their
      original order, each once (`RemoveWhereAppend`, `RemoveWhere`'s length
      bound). */
  function RemoveEducation(d: Resume, id: string): (r: Resume)
    ensures r.(education := d.education) == d
    ensures forall e | e in r.education :: e in d.education && e.id != id
    ensures forall e | e in d.education && e.id != id :: e in r.education
  {
    RemoveWhereMembers(d.education, (e: Education) => e.id, id);
    d.(education := RemoveWhere(d.education, (e: Education) => e.id, id))
  }

  lemma RemoveAddedEducation(d: Resume, id: string)
    requires forall e | e in d.education :: e.id != id
    ensures RemoveEducation(AddEducation(d, id), id) == d
  {
    RemoveAppended(d.education, BlankEducation(id), (e: Education) => e.id);
  }

  // ---------------------------------------------------------------------
  // Skill categories

  /** A new category is called "Technical Skills" and has no items. */
  function BlankSkillCategory(id: string): (r: SkillCategory)
    ensures r.id == id && r.category == "Technical Skills" && r.items == []
  {
    SkillCategory(id, "Technical Skills", [])
  }

  function AddSkillCategory(d: Resume, id: string): (r: Resume)
    ensures r.(skills := d.skills) == d
    ensures |r.skills| == |d.skills| + 1 && r.skills[..|d.skills|] == d.skills
    ensures r.skills[|d.skills|] == BlankSkillCategory(id)
  {
    d.(skills := d.skills + [BlankSkillCategory(id)])
  }

  /** Renames the categories with the id; their items stay. */
  function UpdateSkillCategory(d: Resume, id: string, category: string): (r: Resume)
    ensures r.(skills := d.skills) == d
    ensures |r.skills| == |d.skills|
    ensures forall i | 0 <= i < |d.skills| ::
      if d.skills[i].id == id then r.skills[i] == d.skills[i].(category := category)
      else r.skills[i] == d.skills[i]
  {
    d.(skills := UpdateWhere(d.skills, (c: SkillCategory) => c.id, id,
                             (c: SkillCategory) => c.(category := category)))
  }

  /** A blank skill changes nothing; otherwise the trimmed skill is appended
      to the items of the categories with the id, and only to those. */
  function AddSkillToCategory(d: Resume, categoryId: string, skill: string): (r: Resume)
    ensures Trim(skill) == "" ==> r == d
    ensures r.(skills := d.skills) == d
    ensures |r.skills| == |d.skills|
    ensures forall i | 0 <= i < |d.skills| ::
      if d.skills[i].id == categoryId && Trim(skill) != "" then
        r.skills[i] == d.skills[i].(items := d.skills[i].items + [Trim(skill)])
      else r.skills[i] == d.skills[i]
  {
    if !Truthy(Trim(skill)) then d
    else
      d.(skills := UpdateWhere(d.skills, (c: SkillCategory) => c.id, categoryId,
                               (c: SkillCategory) => c.(items := c.items + [Trim(skill)])))
  }

  /** Deletes the item at the index from the categories with the id; an
      index out of range deletes nothing. */
  function RemoveSkillFromCategory(d: Resume, categoryId: string, skillIndex: int): (r: Resume)
    ensures r.(skills := d.skills) == d
    ensures |r.skills| == |d.skills|
    ensures forall i | 0 <= i < |d.skills| ::
      && r.skills[i].id == d.skills[i].id
      && r.skills[i].category == d.skills[i].category
      && r.skills[i].items == (if d.skills[i].id == categoryId && 0 <= skillIndex < |d.skills[i].items|
                               then d.skills[i].items[..skillIndex] + d.skills[i].items[skillIndex + 1..]
                               else d.skills[i].items)
  {
    d.(skills := UpdateWhere(d.skills, (c: SkillCategory) => c.id, categoryId,
                             (c: SkillCategory) => c.(items := DropIndex(c.items, skillIndex))))
  }

  /** Drops the skill categories with the id; nothing else changes. The list is
      `RemoveWhere` of the old one, so the kept entries also stay in their
      original order, each once (`RemoveWhereAppend`, `RemoveWhere`'s length
      bound). */
  function RemoveSkillCategory(d: Resume, id: string): (r: Resume)
    ensures r.(skills := d.skills) == d
    ensures forall c | c in r.skills :: c in d.skills && c.id != id
    ensures forall c | c in d.skills && c.id != id :: c in r.skills
  {
    RemoveWhereMembers(d.skills, (c: SkillCategory) => c.id, id);
    d.(skills := RemoveWhere(d.skills, (c: SkillCategory) => c.id, id))
  }

  lemma RemoveAddedSkillCategory(d: Resume, id: string)
    requires forall c | c in d.skills :: c.id != id
    ensures RemoveSkillCategory(AddSkillCategory(d, id), id) == d
  {
    RemoveAppended(d.skills, BlankSkillCategory(id), (c: SkillCategory) => c.id);
  }

  /** A skill that was added is neither empty nor padded with white space. */
  lemma AddedSkillIsTrimmed(d: Resume, categoryId: string, skill: string, i: nat)
    requires i < |d.skills| && d.skills[i].id == categoryId && Trim(skill) != ""
    ensures var items := AddSkillToCategory(d, categoryId, skill).skills[i].items;
      && |items| == |d.skills[i].items| + 1
      && var added := items[|items| - 1];
         added != "" && !IsWhitespace(added[0]) && !IsWhitespace(added[|added| - 1])
  {
    var t := TrimStart(skill);
    assert Trim(skill) == TrimEnd(t);
    assert Trim(skill)[0] == t[0];
  }

  // ---------------------------------------------------------------------
  // Projects

  /** The keys `updateProject` is called with. */
  datatype ProjectField = Name | Description | Link

  function ProjectValue(p: Project, f: ProjectField): Option<string> {
    match f
    case Name => Some(p.name)
    case Description => Some(p.description)
    case Link => p.link
  }

  function SetProjectValue(p: Project, f: ProjectField, value: string): (r: Project)
    ensures r.id == p.id && r.technologies == p.technologies
    ensures ProjectValue(r, f) == Some(value)
    ensures forall g | g != f :: ProjectValue(r, g) == ProjectValue(p, g)
  {
    match f
    case Name => p.(name := value)
    case Description => p.(description := value)
    case Link => p.(link := Some(value))
  }

  predicate ProjectEdited(before: Project, after: Project, id: string, f: ProjectField, value: string) {
    if before.id == id then
      && after.id == before.id
      && after.technologies == before.technologies
      && ProjectValue(after, f) == Some(value)
      && forall g | g != f :: ProjectValue(after, g) == ProjectValue(before, g)
    else after == before
  }

  /** A new project: every text empty, the link included, and no technologies. */
  function BlankProject(id: string): (r: Project)
    ensures r.id == id && r.technologies == []
    ensures forall g :: ProjectValue(r, g) == Some("")
  {
    Project(id, "", "", [], Some(""))
  }

  function AddProject(d: Resume, id: string): (r: Resume)
    ensures r.(projects := d.projects) == d
    ensures |r.projects| == |d.projects| + 1 && r.projects[..|d.projects|] == d.projects
    ensures r.projects[|d.projects|] == BlankProject(id)
  {
    d.(projects := d.projects + [BlankProject(id)])
  }

  function UpdateProject(d: Resume, id: string, f: ProjectField, value: string): (r: Resume)
    ensures r.(projects := d.projects) == d
    ensures |r.projects| == |d.projects|
    ensures forall i | 0 <= i < |d.projects| :: ProjectEdited(d.projects[i], r.projects[i], id, f, value)
  {
    d.(projects := UpdateWhere(d.projects, (p: Project) => p.id, id,
                               (p: Project) => SetProjectValue(p, f, value)))
  }

  /** A blank technology changes nothing; otherwise the trimmed technology
      is appended to the projects with the id, and only to those. */
  function AddTechnologyToProject(d: Resume, projectId: string, technology: string): (r: Resume)
    ensures Trim(technology) == "" ==> r == d
    ensures r.(projects := d.projects) == d
    ensures |r.projects| == |d.projects|
    ensures forall i | 0 <= i < |d.projects| ::
      if d.projects[i].id == projectId && Trim(technology) != "" then
        r.projects[i] == d.projects[i].(technologies := d.projects[i].technologies + [Trim(technology)])
      else r.projects[i] == d.projects[i]
  {
    if !Truthy(Trim(technology)) then d
    else
      d.(projects := UpdateWhere(d.projects, (p: Project) => p.id, projectId,
                                 (p: Project) => p.(technologies := p.technologies + [Trim(technology)])))
  }

  /** Deletes the technology at the index from the projects with the id; an
      index out of range deletes nothing. */
  function RemoveTechnologyFromProject(d: Resume, projectId: string, techIndex: int): (r: Resume)
    ensures r.(projects := d.projects) == d
    ensures |r.projects| == |d.projects|
    ensures forall i | 0 <= i < |d.projects| ::
      && r.projects[i].(technologies := d.projects[i].technologies) == d.projects[i]
      && r.projects[i].technologies ==
           (if d.projects[i].id == projectId && 0 <= techIndex < |d.projects[i].technologies|
            then d.projects[i].technologies[..techIndex] + d.projects[i].technologies[techIndex + 1..]
            else d.projects[i].technologies)
  {
    d.(projects := UpdateWhere(d.projects, (p: Project) => p.id, projectId,
                               (p: Project) => p.(technologies := DropIndex(p.technologies, techIndex))))
  }

  /** Drops the projects with the id; nothing else changes. The list is
      `RemoveWhere` of the old one, so the kept entries also stay in their
      original order, each once (`RemoveWhereAppend`, `RemoveWhere`'s length
      bound). */
  function RemoveProject(d: Resume, id: string): (r: Resume)
    ensures r.(projects := d.projects) == d
    ensures forall p | p in r.projects :: p in d.projects && p.id != id
    ensures forall p | p in d.projects && p.id != id :: p in r.projects
  {
    RemoveWhereMembers(d.projects, (p: Project) => p.id, id);
    d.(projects := RemoveWhere(d.projects, (p: Project) => p.id, id))
  }

  lemma RemoveAddedProject(d: Resume, id: string)
    requires forall p | p in d.projects :: p.id != id
    ensures RemoveProject(AddProject(d, id), id) == d
  {
    RemoveAppended(d.projects, BlankProject(id), (p: Project) => p.id);
  }

  // ---------------------------------------------------------------------
  // Extra-curricular activities

  /** `data.extraCurricular || []`: a missing list reads as empty. */
  function Activities(d: Resume): (r: seq<Activity>)
    ensures d.extraCurricular.None? ==> r == []
    ensures d.extraCurricular.Some? ==> r == d.extraCurricular.value
  {
    match d.extraCurricular
    case None => []
    case Some(activities) => activities
  }

  /** The keys `updateExtraCurricular` is called with. */
  datatype ActivityField = Title | Organization | Description | StartDate | EndDate | Current

  function ActivityValue(a: Activity, f: ActivityField): FieldValue {
    match f
    case Title => Text(a.title)
    case Organization => Text(a.organization)
    case Description => Text(a.description)
    case StartDate => Text(a.startDate)
    case EndDate => Text(a.endDate)
    case Current => Flag(a.current)
  }

  predicate ActivityValueFits(f: ActivityField, value: FieldValue) {
    f.Current? <==> value.Flag?
  }

  function SetActivityValue(a: Activity, f: ActivityField, value: FieldValue): (r: Activity)
    requires ActivityValueFits(f, value)
    ensures r.id == a.id
    ensures ActivityValue(r, f) == value
    ensures forall g | g != f :: ActivityValue(r, g) == ActivityValue(a, g)
  {
    match f
    case Title => a.(title := value.text)
    case Organization => a.(organization := value.text)
    case Description => a.(description := value.text)
    case StartDate => a.(startDate := value.text)
    case EndDate => a.(endDate := value.text)
    case Current => a.(current := value.flag)
  }

  predicate ActivityEdited(before: Activity, after: Activity, id: string, f: ActivityField, value: FieldValue) {
    if before.id == id then
      && after.id == before.id
      && ActivityValue(after, f) == value
      && forall g | g != f :: ActivityValue(after, g) == ActivityValue(before, g)
    else after == before
  }

  /** A new activity: every text empty and not current. */
  function BlankActivity(id: string): (r: Activity)
    ensures r.id == id && !r.current
    ensures forall g | g != ActivityField.Current :: ActivityValue(r, g) == Text("")
  {
    Activity(id, "", "", "", "", "", false)
  }

  function AddExtraCurricular(d: Resume, id: string): (r: Resume)
    ensures r.(extraCurricular := d.extraCurricular) == d
    ensures r.extraCurricular.Some?
    ensures |Activities(r)| == |Activities(d)| + 1 && Activities(r)[..|Activities(d)|] == Activities(d)
    ensures Activities(r)[|Activities(d)|] == BlankActivity(id)
  {
    d.(extraCurricular := Some(Activities(d) + [BlankActivity(id)]))
  }

  function UpdateExtraCurricular(d: Resume, id: string, f: ActivityField, value: FieldValue): (r: Resume)
    requires ActivityValueFits(f, value)
    ensures r.(extraCurricular := d.extraCurricular) == d
    ensures r.extraCurricular.Some?
    ensures |Activities(r)| == |Activities(d)|
    ensures forall i | 0 <= i < |Activities(d)| :: ActivityEdited(Activities(d)[i], Activities(r)[i], id, f, value)
  {
    d.(extraCurricular := Some(UpdateWhere(Activities(d), (a: Activity) => a.id, id,
                                           (a: Activity) => SetActivityValue(a, f, value))))
  }

  /** Drops the activities with the id; nothing else changes. A missing list reads as empty and comes back present. The list is
      `RemoveWhere` of the old one, so the kept entries also stay in their
      original order, each once (`RemoveWhereAppend`, `RemoveWhere`'s length
      bound). */
  function RemoveExtraCurricular(d: Resume, id: string): (r: Resume)
    ensures r.(extraCurricular := d.extraCurricular) == d
    ensures r.extraCurricular.Some?
    ensures forall a | a in Activities(r) :: a in Activities(d) && a.id != id
    ensures forall a | a in Activities(d) && a.id != id :: a in Activities(r)
  {
    RemoveWhereMembers(Activities(d), (a: Activity) => a.id, id);
    d.(extraCurricular := Some(RemoveWhere(Activities(d), (a: Activity) => a.id, id)))
  }

  /** Adding and removing a fresh activity gives back the resume, except
      that a missing list is now present and empty. */
  lemma RemoveAddedExtraCurricular(d: Resume, id: string)
    requires forall a | a in Activities(d) :: a.id != id
    ensures RemoveExtraCurricular(AddExtraCurricular(d, id), id) == d.(extraCurricular := Some(Activities(d)))
  {
    RemoveAppended(Activities(d), BlankActivity(id), (a: Activity) => a.id);
  }
}
