/** The manual resume editor of the create page (InputPanel.tsx). Every handler
    builds a new `ResumeData` from the current one and hands it to `onDataChange`;
    here each handler is a function from the old data to the new. */
module ResumeForm {
  import opened Seqs
  import opened Text

  datatype PersonalInfo = PersonalInfo(
    fullName: string, email: string, phone: string, location: string,
    linkedin: string, github: string, website: string, summary: string)

  /** `keyof PersonalInfo`. */
  datatype PersonalField = FullName | Email | Phone | Location | LinkedIn | GitHub | Website | Summary

  datatype Education = Education(
    id: string, degree: string, institution: string, location: string,
    startDate: string, endDate: string)

  /** `keyof Education`. */
  datatype EducationField = Id | Degree | Institution | Location | StartDate | EndDate

  datatype Experience = Experience(
    id: string, title: string, company: string, location: string,
    startDate: string, endDate: string, current: bool, description: seq<string>)

  /** `keyof Experience`. */
  datatype ExperienceField = Id | Title | Company | Location | StartDate | EndDate | Current | Description

  /** A value stored in an `Experience` field: text, the `current` flag or the description lines. */
  datatype FieldValue = Text(text: string) | Flag(flag: bool) | Lines(lines: seq<string>)

  datatype Skill = Skill(id: string, name: string, level: string, category: string)

  /** `keyof Skill`. */
  datatype SkillField = Id | Name | Level | Category

  /** A project or certification entry; the editor never touches these lists, only carries them. */
  type OtherEntry = map<string, string>

  datatype ResumeData = ResumeData(
    personalInfo: PersonalInfo,
    education: seq<Education>,
    experience: seq<Experience>,
    skills: seq<Skill>,
    projects: seq<OtherEntry>,
    certifications: seq<OtherEntry>)

  // ---------------------------------------------------------------- field access

  function PersonalGet(p: PersonalInfo, f: PersonalField): string
  {
    match f
    case FullName => p.fullName
    case Email => p.email
    case Phone => p.phone
    case Location => p.location
    case LinkedIn => p.linkedin
    case GitHub => p.github
    case Website => p.website
    case Summary => p.summary
  }

  /** `{ ...p, [f]: v }` */
  function WithPersonalField(p: PersonalInfo, f: PersonalField, v: string): (r: PersonalInfo)
    ensures PersonalGet(r, f) == v
    ensures forall g :: g != f ==> PersonalGet(r, g) == PersonalGet(p, g)
  {
    match f
    case FullName => p.(fullName := v)
    case Email => p.(email := v)
    case Phone => p.(phone := v)
    case Location => p.(location := v)
    case LinkedIn => p.(linkedin := v)
    case GitHub => p.(github := v)
    case Website => p.(website := v)
    case Summary => p.(summary := v)
  }

  function EducationGet(e: Education, f: EducationField): string
  {
    match f
    case Id => e.id
    case Degree => e.degree
    case Institution => e.institution
    case Location => e.location
    case StartDate => e.startDate
    case EndDate => e.endDate
  }

  /** `{ ...edu, [f]: v }` */
  function WithEducationField(e: Education, f: EducationField, v: string): (r: Education)
    ensures EducationGet(r, f) == v
    ensures forall g :: g != f ==> EducationGet(r, g) == EducationGet(e, g)
  {
    match f
    case Id => e.(id := v)
    case Degree => e.(degree := v)
    case Institution => e.(institution := v)
    case Location => e.(location := v)
    case StartDate => e.(startDate := v)
    case EndDate => e.(endDate := v)
  }

  function ExperienceGet(e: Experience, f: ExperienceField): FieldValue
  {
    match f
    case Id => Text(e.id)
    case Title => Text(e.title)
    case Company => Text(e.company)
    case Location => Text(e.location)
    case StartDate => Text(e.startDate)
    case EndDate => Text(e.endDate)
    case Current => Flag(e.current)
    case Description => Lines(e.description)
  }

  /** The value has the type `Experience` declares for the field. */
  predicate Fits(f: ExperienceField, v: FieldValue)
  {
    match f
    case Current => v.Flag?
    case Description => v.Lines?
    case _ => v.Text?
  }

  /** `{ ...exp, [f]: v }` */
  function WithExperienceField(e: Experience, f: ExperienceField, v: FieldValue): (r: Experience)
    requires Fits(f, v)
    ensures ExperienceGet(r, f) == v
    ensures forall g :: g != f ==> ExperienceGet(r, g) == ExperienceGet(e, g)
  {
    match f
    case Id => e.(id := v.text)
    case Title => e.(title := v.text)
    case Company => e.(company := v.text)
    case Location => e.(location := v.text)
    case StartDate => e.(startDate := v.text)
    case EndDate => e.(endDate := v.text)
    case Current => e.(current := v.flag)
    case Description => e.(description := v.lines)
  }

  function SkillGet(s: Skill, f: SkillField): string
  {
    match f
    case Id => s.id
    case Name => s.name
    case Level => s.level
    case Category => s.category
  }

  /** `{ ...skill, [f]: v }` */
  function WithSkillField(s: Skill, f: SkillField, v: string): (r: Skill)
    ensures SkillGet(r, f) == v
    ensures forall g :: g != f ==> SkillGet(r, g) == SkillGet(s, g)
  {
    match f
    case Id => s.(id := v)
    case Name => s.(name := v)
    case Level => s.(level := v)
    case Category => s.(category := v)
  }

  // ---------------------------------------------------------------- personal info

  /** `handlePersonalInfoChange(field, value)`: only the named personal field changes. */
  function SetPersonalInfo(data: ResumeData, field: PersonalField, value: string): (r: ResumeData)
    ensures r == data.(personalInfo := r.personalInfo)
    ensures PersonalGet(r.personalInfo, field) == value
    ensures forall g :: g != field ==> PersonalGet(r.personalInfo, g) == PersonalGet(data.personalInfo, g)
  {
    data.(personalInfo := WithPersonalField(data.personalInfo, field, value))
  }

  // ---------------------------------------------------------------- education

  /** `addEducation()` at time `now`: one blank entry whose id is `Date.now().toString()`, at the end. */
  function AddEducation(data: ResumeData, now: nat): (r: ResumeData)
    ensures r == data.(education := r.education)
    ensures |r.education| == |data.education| + 1
    ensures r.education[..|data.education|] == data.education
    ensures r.education[|data.education|].id == DecimalString(now)
    ensures forall f :: f != EducationField.Id ==> EducationGet(r.education[|data.education|], f) == ""
  {
    data.(education := data.education + [Education(DecimalString(now), "", "", "", "", "")])
  }

  /** `updateEducation(id, field, value)`: every entry with that id gets the field set; nothing else changes. */
  function UpdateEducation(data: ResumeData, id: string, field: EducationField, value: string): (r: ResumeData)
    ensures r == data.(education := r.education)
    ensures |r.education| == |data.education|
    ensures forall i :: 0 <= i < |data.education| && data.education[i].id != id ==>
      r.education[i] == data.education[i]
    ensures forall i :: 0 <= i < |data.education| && data.education[i].id == id ==>
      EducationGet(r.education[i], field) == value &&
      forall g :: g != field ==> EducationGet(r.education[i], g) == EducationGet(data.education[i], g)
    ensures (forall e :: e in data.education ==> e.id != id) ==> r == data
  {
    var sel := (e: Education) => e.id == id;
    data.(education := MapWhere(data.education, sel, (e: Education) => WithEducationField(e, field, value)))
  }

  /** `removeEducation(id)`: drops exactly the entries with that id, keeping the order of the rest. */
  function RemoveEducation(data: ResumeData, id: string): (r: ResumeData)
    ensures r == data.(education := r.education)
    ensures forall e :: e in r.education ==> e in data.education && e.id != id
    ensures forall e :: e in data.education && e.id != id ==> e in r.education
    ensures forall e :: multiset(r.education)[e] == if e.id == id then 0 else multiset(data.education)[e]
    ensures IsSubsequence(r.education, data.education)
    ensures (forall e :: e in data.education ==> e.id != id) ==> r == data
  {
    var keep := (e: Education) => e.id != id;
    FilterFacts(data.education, keep);
    data.(education := Filter(data.education, keep))
  }

  // ---------------------------------------------------------------- experience

  /** `addExperience()` at time `now`: one blank, not current entry with no description lines, at the end. */
  function AddExperience(data: ResumeData, now: nat): (r: ResumeData)
    ensures r == data.(experience := r.experience)
    ensures |r.experience| == |data.experience| + 1
    ensures r.experience[..|data.experience|] == data.experience
    ensures var e := r.experience[|data.experience|];
      e.id == DecimalString(now) && !e.current && e.description == [] &&
      forall f :: f !in {ExperienceField.Id, ExperienceField.Current, ExperienceField.Description} ==>
        ExperienceGet(e, f) == Text("")
  {
    data.(experience := data.experience + [Experience(DecimalString(now), "", "", "", "", "", false, [])])
  }

  /** `updateExperience(id, field, value)`: every entry with that id gets the field set; nothing else changes. */
  function UpdateExperience(data: ResumeData, id: string, field: ExperienceField, value: FieldValue): (r: ResumeData)
    requires Fits(field, value)
    ensures r == data.(experience := r.experience)
    ensures |r.experience| == |data.experience|
    ensures forall i :: 0 <= i < |data.experience| && data.experience[i].id != id ==>
      r.experience[i] == data.experience[i]
    ensures forall i :: 0 <= i < |data.experience| && data.experience[i].id == id ==>
      ExperienceGet(r.experience[i], field) == value &&
      forall g :: g != field ==> ExperienceGet(r.experience[i], g) == ExperienceGet(data.experience[i], g)
    ensures (forall e :: e in data.experience ==> e.id != id) ==> r == data
  {
    var sel := (e: Experience) => e.id == id;
    data.(experience := MapWhere(data.experience, sel, (e: Experience) => WithExperienceField(e, field, value)))
  }

  /** `removeExperience(id)`: drops exactly the entries with that id, keeping the order of the rest. */
  function RemoveExperience(data: ResumeData, id: string): (r: ResumeData)
    ensures r == data.(experience := r.experience)
    ensures forall e :: e in r.experience ==> e in data.experience && e.id != id
    ensures forall e :: e in data.experience && e.id != id ==> e in r.experience
    ensures forall e :: multiset(r.experience)[e] == if e.id == id then 0 else multiset(data.experience)[e]
    ensures IsSubsequence(r.experience, data.experience)
    ensures (forall e :: e in data.experience ==> e.id != id) ==> r == data
  {
    var keep := (e: Experience) => e.id != id;
    FilterFacts(data.experience, keep);
    data.(experience := Filter(data.experience, keep))
  }

  /** Typing `text` into an entry's description text area stores `text.split('\n')`;
      the text area then shows exactly what was typed. */
  function EditDescription(data: ResumeData, id: string, text: string): (r: ResumeData)
    ensures r == data.(experience := r.experience)
    ensures |r.experience| == |data.experience|
    ensures forall i :: 0 <= i < |data.experience| && data.experience[i].id == id ==>
      Join(r.experience[i].description) == text
    ensures forall i :: 0 <= i < |data.experience| && data.experience[i].id == id ==>
      |r.experience[i].description| >= 1 &&
      forall k :: 0 <= k < |r.experience[i].description| ==> '\n' !in r.experience[i].description[k]
    ensures forall i :: 0 <= i < |data.experience| && data.experience[i].id != id ==>
      r.experience[i] == data.experience[i]
    ensures forall i :: 0 <= i < |data.experience| && data.experience[i].id == id ==>
      forall g :: g != ExperienceField.Description ==>
        ExperienceGet(r.experience[i], g) == ExperienceGet(data.experience[i], g)
  {
    JoinSplit(text);
    UpdateExperience(data, id, ExperienceField.Description, Lines(Split(text)))
  }

  /** Showing a description and reading it back unchanged gives the same lines, as long as
      there is at least one line and none holds a newline; no lines come back as one empty line. */
  lemma DescriptionRoundTrip(e: Experience)
    ensures |e.description| >= 1 && (forall i :: 0 <= i < |e.description| ==> '\n' !in e.description[i]) ==>
      Split(Join(e.description)) == e.description
    ensures e.description == [] ==> Split(Join(e.description)) == [""]
  {
    if |e.description| >= 1 && (forall i :: 0 <= i < |e.description| ==> '\n' !in e.description[i]) {
      SplitJoin(e.description);
    }
  }

  // ---------------------------------------------------------------- skills

  /** `addSkill()` at time `now`: one unnamed Intermediate, Technical skill, at the end. */
  function AddSkill(data: ResumeData, now: nat): (r: ResumeData)
    ensures r == data.(skills := r.skills)
    ensures |r.skills| == |data.skills| + 1
    ensures r.skills[..|data.skills|] == data.skills
    ensures var s := r.skills[|data.skills|];
      s.id == DecimalString(now) && s.name == "" && s.level == "Intermediate" && s.category == "Technical"
  {
    data.(skills := data.skills + [Skill(DecimalString(now), "", "Intermediate", "Technical")])
  }

  /** `updateSkill(id, field, value)`: every entry with that id gets the field set; nothing else changes. */
  function UpdateSkill(data: ResumeData, id: string, field: SkillField, value: string): (r: ResumeData)
    ensures r == data.(skills := r.skills)
    ensures |r.skills| == |data.skills|
    ensures forall i :: 0 <= i < |data.skills| && data.skills[i].id != id ==>
      r.skills[i] == data.skills[i]
    ensures forall i :: 0 <= i < |data.skills| && data.skills[i].id == id ==>
      SkillGet(r.skills[i], field) == value &&
      forall g :: g != field ==> SkillGet(r.skills[i], g) == SkillGet(data.skills[i], g)
    ensures (forall s :: s in data.skills ==> s.id != id) ==> r == data
  {
    var sel := (s: Skill) => s.id == id;
    data.(skills := MapWhere(data.skills, sel, (s: Skill) => WithSkillField(s, field, value)))
  }

  /** `removeSkill(id)`: drops exactly the entries with that id, keeping the order of the rest. */
  function RemoveSkill(data: ResumeData, id: string): (r: ResumeData)
    ensures r == data.(skills := r.skills)
    ensures forall s :: s in r.skills ==> s in data.skills && s.id != id
    ensures forall s :: s in data.skills && s.id != id ==> s in r.skills
    ensures forall s :: multiset(r.skills)[s] == if s.id == id then 0 else multiset(data.skills)[s]
    ensures IsSubsequence(r.skills, data.skills)
    ensures (forall s :: s in data.skills ==> s.id != id) ==> r == data
  {
    var keep := (s: Skill) => s.id != id;
    FilterFacts(data.skills, keep);
    data.(skills := Filter(data.skills, keep))
  }

  /** Removing the same id a second time changes nothing, in every list. */
  lemma RemovalIdempotent(data: ResumeData, id: string)
    ensures RemoveEducation(RemoveEducation(data, id), id) == RemoveEducation(data, id)
    ensures RemoveExperience(RemoveExperience(data, id), id) == RemoveExperience(data, id)
    ensures RemoveSkill(RemoveSkill(data, id), id) == RemoveSkill(data, id)
  {
  }

  /** Adding an entry and removing its id again restores the list, when the fresh id was not in use. */
  lemma AddThenRemove(data: ResumeData, now: nat)
    requires forall e :: e in data.education ==> e.id != DecimalString(now)
    ensures RemoveEducation(AddEducation(data, now), DecimalString(now)) == data
  {
    var added := AddEducation(data, now).education;
    var keep := (e: Education) => e.id != DecimalString(now);
    FilterAppend(data.education, [added[|data.education|]], keep);
    assert added == data.education + [added[|data.education|]];
    FilterKeepsAll(data.education, keep);
  }
}
