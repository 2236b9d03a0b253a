/**
 * The dashboard's profile editor: its initial state taken from the stored
 * profile, the field handler, the per-entry editors and the add/remove
 * buttons for skills, education and work experience. The body it submits
 * is the form data as the nested `profile`.
 */
module ProfileForm {
  import opened Wrappers
  import opened Seqs
  import opened Text
  import opened Portfolio

  /** The four link keys the form shows. */
  const LinkKeys: seq<string> := ["github", "linkedin", "twitter", "personalWebsite"]

  /** The form's copy of the profile; `socialLinks` is an object keyed by link name. */
  datatype FormData = FormData(
    name: string,
    passionateText: string,
    bio: string,
    avatar: string,
    socialLinks: map<string, string>,
    skills: seq<Skill>,
    education: seq<Education>,
    workExperience: seq<WorkEntry>)

  /** The "new skill" inputs: the name and the comma-separated list as typed. */
  datatype SkillDraft = SkillDraft(techName: string, skillsUsed: string)

  datatype FormState = FormState(
    data: FormData,
    avatarPreview: string,
    newSkill: SkillDraft,
    newEducation: Education,
    newWork: WorkEntry)

  const EmptySkill := SkillDraft("", "")
  const EmptyEducation := Education("", "", "", "")
  const EmptyWork := WorkEntry("", "", "", "", false)

  /** `x || ''` on an optional string: absent and empty both give "". */
  function OrEmpty(x: Option<string>): string {
    x.GetOr("")
  }

  function LinkOf(links: Option<SocialLinks>, pick: SocialLinks -> Option<string>): string {
    if links.Some? then OrEmpty(pick(links.value)) else ""
  }

  /** The initial form: every missing text field is "", every missing list is []. */
  function InitialData(info: ProfileInfo): (d: FormData)
    ensures d.name == info.name.GetOr("") && d.bio == info.bio.GetOr("")
    ensures d.passionateText == info.passionateText.GetOr("") && d.avatar == info.avatar.GetOr("")
    ensures d.socialLinks.Keys == {"github", "linkedin", "twitter", "personalWebsite"}
    ensures info.socialLinks.None? ==> forall k :: k in d.socialLinks ==> d.socialLinks[k] == ""
    ensures info.socialLinks.Some? ==>
      var l := info.socialLinks.value;
      && d.socialLinks["github"] == l.github.GetOr("")
      && d.socialLinks["linkedin"] == l.linkedin.GetOr("")
      && d.socialLinks["twitter"] == l.twitter.GetOr("")
      && d.socialLinks["personalWebsite"] == l.personalWebsite.GetOr("")
    ensures d.skills == info.skills.GetOr([])
    ensures d.education == info.education.GetOr([])
    ensures d.workExperience == info.workExperience.GetOr([])
  {
    var l := info.socialLinks;
    FormData(
      OrEmpty(info.name), OrEmpty(info.passionateText), OrEmpty(info.bio), OrEmpty(info.avatar),
      map["github" := LinkOf(l, (s: SocialLinks) => s.github),
          "linkedin" := LinkOf(l, (s: SocialLinks) => s.linkedin),
          "twitter" := LinkOf(l, (s: SocialLinks) => s.twitter),
          "personalWebsite" := LinkOf(l, (s: SocialLinks) => s.personalWebsite)],
      info.skills.GetOr([]), info.education.GetOr([]), info.workExperience.GetOr([]))
  }

  /** The editor when it opens; the avatar preview starts as the stored avatar. */
  function InitialState(info: ProfileInfo): (st: FormState)
    ensures st.data == InitialData(info) && st.avatarPreview == st.data.avatar
    ensures st.newSkill == EmptySkill && st.newEducation == EmptyEducation && st.newWork == EmptyWork
  {
    FormState(InitialData(info), OrEmpty(info.avatar), EmptySkill, EmptyEducation, EmptyWork)
  }

  /** Every field of the nested profile present, every link included. */
  predicate Complete(info: ProfileInfo) {
    && info.name.Some? && info.passionateText.Some? && info.bio.Some? && info.avatar.Some?
    && info.socialLinks.Some?
    && info.socialLinks.value.github.Some? && info.socialLinks.value.linkedin.Some?
    && info.socialLinks.value.twitter.Some? && info.socialLinks.value.personalWebsite.Some?
    && info.skills.Some? && info.education.Some? && info.workExperience.Some?
  }

  /**
   * The nested profile the form submits: complete, and loading it back into
   * the form shows the same text in every field and in each of the four links.
   */
  function ToProfileInfo(d: FormData): (info: ProfileInfo)
    requires forall k :: k in LinkKeys ==> k in d.socialLinks
    ensures Complete(info)
    ensures var back := InitialData(info);
      && back.name == d.name && back.passionateText == d.passionateText
      && back.bio == d.bio && back.avatar == d.avatar
      && back.skills == d.skills && back.education == d.education && back.workExperience == d.workExperience
      && forall k :: k in LinkKeys ==> back.socialLinks[k] == d.socialLinks[k]
  {
    ProfileInfo(Some(d.name), Some(d.passionateText), Some(d.bio), Some(d.avatar),
      Some(SocialLinks(Some(d.socialLinks["github"]), Some(d.socialLinks["linkedin"]),
                       Some(d.socialLinks["twitter"]), Some(d.socialLinks["personalWebsite"]))),
      Some(d.skills), Some(d.education), Some(d.workExperience))
  }

  /** A fully populated profile survives being loaded into the form and submitted unchanged. */
  lemma LoadThenSubmit(info: ProfileInfo)
    requires Complete(info)
    ensures ToProfileInfo(InitialData(info)) == info
  {
  }

  /** A form with exactly the four link keys is reloaded from its own submission unchanged. */
  lemma SubmitThenLoad(d: FormData)
    requires d.socialLinks.Keys == {"github", "linkedin", "twitter", "personalWebsite"}
    ensures InitialData(ToProfileInfo(d)) == d
  {
    var d' := InitialData(ToProfileInfo(d));
    assert d'.socialLinks == d.socialLinks;
  }

  /**
   * The top-level field handler: "socialLinks.k" sets link `k` (the text
   * after the first dot, up to the next); "avatar" also sets the preview;
   * "name", "passionateText" and "bio" set that field.
   */
  function HandleChange(st: FormState, name: string, value: string): (r: FormState)
    ensures r.newSkill == st.newSkill && r.newEducation == st.newEducation && r.newWork == st.newWork
    ensures r.data.skills == st.data.skills && r.data.education == st.data.education
    ensures r.data.workExperience == st.data.workExperience
    ensures StartsWith(name, "socialLinks.") ==>
      r == st.(data := st.data.(socialLinks := st.data.socialLinks[Split(name, '.')[1] := value]))
    ensures name == "avatar" ==> r == st.(data := st.data.(avatar := value), avatarPreview := value)
    ensures name != "avatar" ==> r.avatarPreview == st.avatarPreview
  {
    if StartsWith(name, "socialLinks.") then
      assert Count(name, '.') >= 1 by {
        assert name == "socialLinks" + ['.'] + name[12..];
        SplitPrefix("socialLinks", name[12..], '.');
      }
      st.(data := st.data.(socialLinks := st.data.socialLinks[Split(name, '.')[1] := value]))
    else if name == "avatar" then st.(data := st.data.(avatar := value), avatarPreview := value)
    else if name == "name" then st.(data := st.data.(name := value))
    else if name == "passionateText" then st.(data := st.data.(passionateText := value))
    else if name == "bio" then st.(data := st.data.(bio := value))
    else st
  }

  /** Changing the input "socialLinks.k" changes link `k` and nothing else. */
  lemma SocialLinkChangeIsLocal(st: FormState, key: string, value: string)
    requires '.' !in key
    ensures var r := HandleChange(st, "socialLinks." + key, value);
      && r.data.socialLinks == st.data.socialLinks[key := value]
      && r.data.(socialLinks := st.data.socialLinks) == st.data
      && r.avatarPreview == st.avatarPreview
  {
    var name := "socialLinks." + key;
    assert name == "socialLinks" + ['.'] + key;
    assert name[..12] == "socialLinks.";
    SplitPrefix("socialLinks", key, '.');
    SplitSepFree(key, '.');
  }

  /** The name, passion text and bio inputs each change only their own field. */
  lemma PlainFieldChangeIsLocal(st: FormState, value: string)
    ensures HandleChange(st, "name", value) == st.(data := st.data.(name := value))
    ensures HandleChange(st, "bio", value) == st.(data := st.data.(bio := value))
    ensures HandleChange(st, "passionateText", value) == st.(data := st.data.(passionateText := value))
  {
    assert !StartsWith("name", "socialLinks.");
    assert !StartsWith("bio", "socialLinks.");
    assert "passionateText"[0] != "socialLinks."[0];
  }

  // ---------------------------------------------------------------- per-entry editors

  datatype SkillField = TechName | SkillsUsed

  /**
   * Editing a listed skill: the skills list is split on commas without
   * trimming. An index outside the list throws in the handler, so nothing changes.
   */
  function HandleSkillChange(st: FormState, index: int, field: SkillField, value: string): (r: FormState)
    ensures !(0 <= index < |st.data.skills|) ==> r == st
    ensures 0 <= index < |st.data.skills| ==>
      var s := st.data.skills[index];
      r == st.(data := st.data.(skills := st.data.skills[index :=
        if field == TechName then s.(techName := value) else s.(skillsUsed := Split(value, ','))]))
  {
    if 0 <= index < |st.data.skills| then
      var s := st.data.skills[index];
      var s' := if field == TechName then s.(techName := value) else s.(skillsUsed := Split(value, ','));
      st.(data := st.data.(skills := st.data.skills[index := s']))
    else st
  }

  datatype EducationField = CollegeName | Branch | Course | YearOfPassout

  function SetEducationField(e: Education, field: EducationField, value: string): Education {
    match field
    case CollegeName => e.(collegeName := value)
    case Branch => e.(branch := value)
    case Course => e.(course := value)
    case YearOfPassout => e.(yearOfPassout := value)
  }

  /** Editing a listed education entry: only that entry's field changes. */
  function HandleEducationChange(st: FormState, index: int, field: EducationField, value: string): (r: FormState)
    ensures !(0 <= index < |st.data.education|) ==> r == st
    ensures 0 <= index < |st.data.education| ==>
      && |r.data.education| == |st.data.education|
      && r == st.(data := st.data.(education := r.data.education))
      && (forall j :: 0 <= j < |st.data.education| && j != index ==> r.data.education[j] == st.data.education[j])
      && r.data.education[index] == SetEducationField(st.data.education[index], field, value)
  {
    if 0 <= index < |st.data.education| then
      st.(data := st.data.(education := st.data.education[index := SetEducationField(st.data.education[index], field, value)]))
    else st
  }

  function EducationFieldOf(e: Education, field: EducationField): string {
    match field
    case CollegeName => e.collegeName
    case Branch => e.branch
    case Course => e.course
    case YearOfPassout => e.yearOfPassout
  }

  /** Typing a field's old value back into a listed education entry restores the form. */
  lemma EducationEditUndo(st: FormState, index: int, field: EducationField, value: string)
    requires 0 <= index < |st.data.education|
    ensures var previous := EducationFieldOf(st.data.education[index], field);
      HandleEducationChange(HandleEducationChange(st, index, field, value), index, field, previous) == st
  {
    var es := st.data.education;
    var e := es[index];
    assert SetEducationField(SetEducationField(e, field, value), field, EducationFieldOf(e, field)) == e;
    assert es[index := SetEducationField(e, field, value)][index := e] == es;
  }

  /** An edit to a work entry: a text field's value, or the "currently working" checkbox. */
  datatype WorkChange =
    | Company(text: string)
    | Position(text: string)
    | Duration(text: string)
    | Describe(text: string)
    | CurrentlyWorking(checked: bool)

  function ApplyWorkChange(w: WorkEntry, c: WorkChange): WorkEntry {
    match c
    case Company(t) => w.(companyName := t)
    case Position(t) => w.(position := t)
    case Duration(t) => w.(duration := t)
    case Describe(t) => w.(description := t)
    case CurrentlyWorking(b) => w.(currentlyWorking := b)
  }

  /** Editing a listed work entry: only that entry changes. */
  function HandleWorkChange(st: FormState, index: int, change: WorkChange): (r: FormState)
    ensures !(0 <= index < |st.data.workExperience|) ==> r == st
    ensures 0 <= index < |st.data.workExperience| ==>
      && |r.data.workExperience| == |st.data.workExperience|
      && r == st.(data := st.data.(workExperience := r.data.workExperience))
      && (forall j :: 0 <= j < |st.data.workExperience| && j != index ==>
            r.data.workExperience[j] == st.data.workExperience[j])
      && r.data.workExperience[index] == ApplyWorkChange(st.data.workExperience[index], change)
  {
    if 0 <= index < |st.data.workExperience| then
      st.(data := st.data.(workExperience :=
        st.data.workExperience[index := ApplyWorkChange(st.data.workExperience[index], change)]))
    else st
  }

  /** The edit of the same field that puts back the entry's current value. */
  function CurrentWork(w: WorkEntry, c: WorkChange): (u: WorkChange)
    ensures ApplyWorkChange(w, u) == w
  {
    match c
    case Company(_) => Company(w.companyName)
    case Position(_) => Position(w.position)
    case Duration(_) => Duration(w.duration)
    case Describe(_) => Describe(w.description)
    case CurrentlyWorking(_) => CurrentlyWorking(w.currentlyWorking)
  }

  /** Putting a field's old value back into a listed work entry restores the form. */
  lemma WorkEditUndo(st: FormState, index: int, change: WorkChange)
    requires 0 <= index < |st.data.workExperience|
    ensures var undo := CurrentWork(st.data.workExperience[index], change);
      HandleWorkChange(HandleWorkChange(st, index, change), index, undo) == st
  {
    var ws := st.data.workExperience;
    var w := ws[index];
    assert ApplyWorkChange(ApplyWorkChange(w, change), CurrentWork(w, change)) == w;
    assert ws[index := ApplyWorkChange(w, change)][index := w] == ws;
  }

  /** `skillsUsed.join(', ')`: the text the edit field of a listed skill shows. */
  function ShownSkills(parts: seq<string>): string {
    if |parts| == 0 then "" else if |parts| == 1 then parts[0] else parts[0] + ", " + ShownSkills(parts[1..])
  }

  /** The comma-separated parts of the shown text: every part after the first keeps the space of ", ". */
  function Spaced(parts: seq<string>): (r: seq<string>)
    ensures |r| == |parts|
    ensures forall i :: 0 <= i < |r| ==> r[i] == if i == 0 then parts[0] else " " + parts[i]
  {
    seq(|parts|, i requires 0 <= i < |parts| => if i == 0 then parts[0] else " " + parts[i])
  }

  /** Entries that the shown text carries faithfully: at least one, none holding a comma. */
  predicate CommaFree(parts: seq<string>) {
    |parts| >= 1 && forall i :: 0 <= i < |parts| ==> ',' !in parts[i]
  }

  /** Splitting the shown text on commas gives the parts with the separator's spaces attached. */
  lemma {:induction false} SplitShown(parts: seq<string>)
    requires CommaFree(parts)
    ensures Split(ShownSkills(parts), ',') == Spaced(parts)
  {
    if |parts| == 1 {
      SplitSepFree(parts[0], ',');
    } else {
      var rest := parts[1..];
      var x := ShownSkills(rest);
      SplitShown(rest);
      assert ShownSkills(parts) == parts[0] + [','] + (" " + x);
      SplitPrefix(parts[0], " " + x, ',');
      assert (" " + x)[1..] == x;
      assert Split(" " + x, ',') == [" " + Split(x, ',')[0]] + Split(x, ',')[1..];
      assert Split(ShownSkills(parts), ',') == [parts[0]] + Split(" " + x, ',');
    }
  }

  /** A string with no whitespace at either end is unchanged by trimming after one leading space. */
  lemma TrimLeadingSpace(p: string)
    requires Trim(p) == p
    ensures Trim(" " + p) == p
  {
    assert (" " + p)[1..] == p;
    assert TrimStart(" " + p) == TrimStart(p);
  }

  /** No part has whitespace at either end. */
  predicate TrimmedEach(parts: seq<string>) {
    forall i :: 0 <= i < |parts| ==> Trim(parts[i]) == parts[i]
  }

  /** Trimming the comma-separated parts of a shown list gives the list back. */
  lemma TrimmedPartsOfShown(parts: seq<string>)
    requires CommaFree(parts) && TrimmedEach(parts)
    ensures TrimmedParts(ShownSkills(parts)) == parts
  {
    SplitShown(parts);
    forall i | 0 <= i < |parts| ensures Trim(Spaced(parts)[i]) == parts[i] {
      if i > 0 {
        TrimLeadingSpace(parts[i]);
      }
    }
  }

  /**
   * Editing a listed skill leaves the shown list's spaces in the stored
   * one: entering the text the field shows stores every part after the
   * first with a leading space, so a list of two or more parts changes.
   */
  lemma EditKeepsSpaces(st: FormState, index: int)
    requires 0 <= index < |st.data.skills| && CommaFree(st.data.skills[index].skillsUsed)
    ensures var ps := st.data.skills[index].skillsUsed;
      var r := HandleSkillChange(st, index, SkillsUsed, ShownSkills(ps));
      && r.data.skills[index].skillsUsed == Spaced(ps)
      && (|ps| >= 2 ==> r.data.skills[index].skillsUsed != ps)
  {
    var ps := st.data.skills[index].skillsUsed;
    SplitShown(ps);
    if |ps| >= 2 {
      assert |Spaced(ps)[1]| != |ps[1]|;
    }
  }

  /** The skill-list edit that trims each part, as "Add Skill" does. */
  function HandleSkillChangeTrimmed(st: FormState, index: int, field: SkillField, value: string): (r: FormState)
    ensures !(0 <= index < |st.data.skills|) ==> r == st
    ensures 0 <= index < |st.data.skills| ==>
      && |r.data.skills| == |st.data.skills|
      && r == st.(data := st.data.(skills := r.data.skills))
      && (forall j :: 0 <= j < |st.data.skills| && j != index ==> r.data.skills[j] == st.data.skills[j])
      && (field == TechName ==> r.data.skills[index] == st.data.skills[index].(techName := value))
      && (field == SkillsUsed ==>
            && r.data.skills[index].techName == st.data.skills[index].techName
            && |r.data.skills[index].skillsUsed| == |Split(value, ',')|
            && TrimmedEach(r.data.skills[index].skillsUsed))
  {
    if 0 <= index < |st.data.skills| then
      var s := st.data.skills[index];
      var s' := if field == TechName then s.(techName := value) else s.(skillsUsed := TrimmedParts(value));
      assert forall k :: 0 <= k < |TrimmedParts(value)| ==> Trim(TrimmedParts(value)[k]) == TrimmedParts(value)[k] by {
        forall k | 0 <= k < |TrimmedParts(value)| ensures Trim(TrimmedParts(value)[k]) == TrimmedParts(value)[k] {
          TrimIdempotent(Split(value, ',')[k]);
        }
      }
      st.(data := st.data.(skills := st.data.skills[index := s']))
    else st
  }

  /** With trimming, entering the text a listed skill's field shows leaves the form as it was. */
  lemma TrimmedEditIsStable(st: FormState, index: int)
    requires 0 <= index < |st.data.skills|
    requires CommaFree(st.data.skills[index].skillsUsed) && TrimmedEach(st.data.skills[index].skillsUsed)
    ensures HandleSkillChangeTrimmed(st, index, SkillsUsed, ShownSkills(st.data.skills[index].skillsUsed)) == st
  {
    var ps := st.data.skills[index].skillsUsed;
    TrimmedPartsOfShown(ps);
    assert st.data.skills[index := st.data.skills[index].(skillsUsed := ps)] == st.data.skills;
  }

  // ---------------------------------------------------------------- add / remove

  /** Each comma-separated part, trimmed. */
  function TrimmedParts(s: string): (r: seq<string>)
    ensures |r| == |Split(s, ',')|
    ensures forall i :: 0 <= i < |r| ==> r[i] == Trim(Split(s, ',')[i])
  {
    var parts := Split(s, ',');
    seq(|parts|, i requires 0 <= i < |parts| => Trim(parts[i]))
  }

  /**
   * "Add Skill": nothing happens (the draft is kept) when the name is blank;
   * otherwise one skill is appended, its name as typed and its list split on
   * commas and trimmed, and the draft is cleared.
   */
  function AddSkill(st: FormState): (r: FormState)
    ensures Trim(st.newSkill.techName) == "" ==> r == st
    ensures Trim(st.newSkill.techName) != "" ==>
      r == st.(data := st.data.(skills := st.data.skills +
                 [Skill(st.newSkill.techName, TrimmedParts(st.newSkill.skillsUsed))]),
               newSkill := EmptySkill)
  {
    if Trim(st.newSkill.techName) == "" then st
    else
      var skill := Skill(st.newSkill.techName, TrimmedParts(st.newSkill.skillsUsed));
      st.(data := st.data.(skills := st.data.skills + [skill]), newSkill := EmptySkill)
  }

  /** "Add Education": a no-op on a blank college name; otherwise one entry appended and the draft cleared. */
  function AddEducation(st: FormState): (r: FormState)
    ensures Trim(st.newEducation.collegeName) == "" ==> r == st
    ensures Trim(st.newEducation.collegeName) != "" ==>
      r == st.(data := st.data.(education := st.data.education + [st.newEducation]),
               newEducation := EmptyEducation)
  {
    if Trim(st.newEducation.collegeName) == "" then st
    else st.(data := st.data.(education := st.data.education + [st.newEducation]), newEducation := EmptyEducation)
  }

  /** "Add Experience": a no-op on a blank company name; otherwise one entry appended and the draft cleared. */
  function AddWorkExperience(st: FormState): (r: FormState)
    ensures Trim(st.newWork.companyName) == "" ==> r == st
    ensures Trim(st.newWork.companyName) != "" ==>
      r == st.(data := st.data.(workExperience := st.data.workExperience + [st.newWork]),
               newWork := EmptyWork)
  {
    if Trim(st.newWork.companyName) == "" then st
    else st.(data := st.data.(workExperience := st.data.workExperience + [st.newWork]), newWork := EmptyWork)
  }

  /** `splice(index, 1)` on the skills. */
  function RemoveSkill(st: FormState, index: int): (r: FormState)
    ensures r == st.(data := st.data.(skills := Splice1(st.data.skills, index)))
    ensures 0 <= index < |st.data.skills| ==>
      |r.data.skills| == |st.data.skills| - 1 &&
      forall j :: 0 <= j < |r.data.skills| ==>
        r.data.skills[j] == st.data.skills[if j < index then j else j + 1]
  {
    st.(data := st.data.(skills := Splice1(st.data.skills, index)))
  }

  /** `splice(index, 1)` on the education entries. */
  function RemoveEducation(st: FormState, index: int): (r: FormState)
    ensures r == st.(data := st.data.(education := Splice1(st.data.education, index)))
    ensures 0 <= index < |st.data.education| ==>
      |r.data.education| == |st.data.education| - 1 &&
      forall j :: 0 <= j < |r.data.education| ==>
        r.data.education[j] == st.data.education[if j < index then j else j + 1]
  {
    st.(data := st.data.(education := Splice1(st.data.education, index)))
  }

  /** `splice(index, 1)` on the work entries. */
  function RemoveWorkExperience(st: FormState, index: int): (r: FormState)
    ensures r == st.(data := st.data.(workExperience := Splice1(st.data.workExperience, index)))
    ensures 0 <= index < |st.data.workExperience| ==>
      |r.data.workExperience| == |st.data.workExperience| - 1 &&
      forall j :: 0 <= j < |r.data.workExperience| ==>
        r.data.workExperience[j] == st.data.workExperience[if j < index then j else j + 1]
  {
    st.(data := st.data.(workExperience := Splice1(st.data.workExperience, index)))
  }

  /** Removing the skill just added restores the skills. */
  lemma AddSkillThenRemove(st: FormState)
    requires Trim(st.newSkill.techName) != ""
    ensures var r := AddSkill(st); RemoveSkill(r, |r.data.skills| - 1).data.skills == st.data.skills
  {
    var x := Skill(st.newSkill.techName, TrimmedParts(st.newSkill.skillsUsed));
    assert (st.data.skills + [x])[..|st.data.skills|] == st.data.skills;
  }

  /** Removing the education entry just added restores the education list. */
  lemma AddEducationThenRemove(st: FormState)
    requires Trim(st.newEducation.collegeName) != ""
    ensures var r := AddEducation(st); RemoveEducation(r, |r.data.education| - 1).data.education == st.data.education
  {
    assert (st.data.education + [st.newEducation])[..|st.data.education|] == st.data.education;
  }

  /** Removing the work entry just added restores the work list. */
  lemma AddWorkThenRemove(st: FormState)
    requires Trim(st.newWork.companyName) != ""
    ensures var r := AddWorkExperience(st);
      RemoveWorkExperience(r, |r.data.workExperience| - 1).data.workExperience == st.data.workExperience
  {
    assert (st.data.workExperience + [st.newWork])[..|st.data.workExperience|] == st.data.workExperience;
  }

  /** A new skill typed as a list's shown text is added with exactly that list: "Add Skill" trims the separator's spaces. */
  lemma AddTrims(st: FormState, parts: seq<string>)
    requires Trim(st.newSkill.techName) != ""
    requires CommaFree(parts) && TrimmedEach(parts)
    requires st.newSkill.skillsUsed == ShownSkills(parts)
    ensures AddSkill(st).data.skills == st.data.skills + [Skill(st.newSkill.techName, parts)]
  {
    TrimmedPartsOfShown(parts);
  }
}
