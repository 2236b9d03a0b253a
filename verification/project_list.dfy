/**
 * The dashboard's project list: the edit form and how its fields become
 * a request body, the local overlay after a successful edit, the delete
 * confirmation, and which entries are drawn.
 */
module ProjectList {
  import opened Wrappers
  import opened Seqs
  import opened Text
  import opened Portfolio
  import Accounts
  import Profiles
  import ProfileProperties
  import Dashboard
  import ProjectForm

  /** The edit form's fields as `FormData.get` reads them; an unchecked box reads as null. */
  datatype EditFields = EditFields(
    title: string,
    description: string,
    techStack: string,
    category: string,
    liveUrl: string,
    githubUrl: string,
    featured: Option<string>)

  /** `split(',').filter(Boolean)`: the comma-separated parts, empty ones dropped, none trimmed. */
  function ParseTechStack(text: string): (r: seq<string>)
    ensures forall t :: t in r <==> t in Split(text, ',') && t != ""
    ensures forall t :: multiset(r)[t] == if t == "" then 0 else multiset(Split(text, ','))[t]
    ensures IsSubseq(r, Split(text, ','))
    ensures forall i :: 0 <= i < |r| ==> r[i] != "" && ',' !in r[i]
  {
    var parts := Split(text, ',');
    var r := Filter(parts, (t: string) => t != "");
    FilterMultiplicity(parts, (t: string) => t != "");
    assert forall i :: 0 <= i < |r| ==> r[i] in parts;
    r
  }

  /** A checkbox's form value: checked exactly when it reads "on". */
  function ParseFeatured(v: Option<string>): (b: bool)
    ensures b <==> v == Some("on")
  {
    v == Some("on")
  }

  /** `techStack.join(',')`, the edit form's initial text. */
  function JoinTech(ts: seq<string>): string {
    if ts == [] then "" else Join(ts, ',')
  }

  /** Entries the edit form can carry through unchanged: non-empty and comma-free. */
  predicate CleanTech(ts: seq<string>) {
    forall i :: 0 <= i < |ts| ==> ts[i] != "" && ',' !in ts[i]
  }

  /** The edit form's text field parses back to the list it was filled from. */
  lemma JoinThenParse(ts: seq<string>)
    requires CleanTech(ts)
    ensures ParseTechStack(JoinTech(ts)) == ts
  {
    var keep := (t: string) => t != "";
    if ts == [] {
      assert Split("", ',') == [""];
      assert Filter([""], keep) == [];
    } else {
      SplitJoin(ts, ',');
      FilterAllPass(ts, keep);
    }
  }

  /** The request body of an edit: every form field, and no id, images or creation time. */
  function UpdatedData(f: EditFields): (patch: ProjectPatch)
    ensures patch.id.None? && patch.images.None? && patch.createdAt.None?
    ensures patch.techStack == Some(ParseTechStack(f.techStack))
    ensures patch.featured == Some(ParseFeatured(f.featured))
    ensures patch.title == Some(f.title) && patch.description == Some(f.description)
    ensures patch.category == Some(f.category)
    ensures patch.liveUrl == Some(f.liveUrl) && patch.githubUrl == Some(f.githubUrl)
  {
    ProjectPatch(None, Some(f.title), Some(f.description), Some(ParseTechStack(f.techStack)), None,
                 Some(f.liveUrl), Some(f.githubUrl), Some(f.category), Some(ParseFeatured(f.featured)), None)
  }

  /** The edit form's category options, in the order its select lists them. */
  const EditCategories: seq<string> := ["Full Stack", "MERN STACK", "React App", "Frontend", "Backend",
    "Andriod App", "IOS App", "ReactNative/Flutter", "UI/UX Design", "Programming", "Other"]

  /**
   * What an uncontrolled select submits when opened on a `defaultValue`: that
   * value when it is one of the options, otherwise the first option.
   */
  function SelectedOption(options: seq<string>, value: Option<string>): (r: string)
    requires options != []
    ensures r in options
    ensures value.Some? && value.value in options ==> r == value.value
    ensures !(value.Some? && value.value in options) ==> r == options[0]
  {
    if value.Some? && value.value in options then value.value else options[0]
  }

  /** The form opened on a project with the given category options: each field pre-filled from it (missing text as ""). */
  function DefaultFieldsWith(p: Project, options: seq<string>): (f: EditFields)
    requires options != []
    ensures f.title == p.title.GetOr("") && f.description == p.description.GetOr("")
    ensures f.liveUrl == p.liveUrl.GetOr("") && f.githubUrl == p.githubUrl.GetOr("")
    ensures f.techStack == JoinTech(p.techStack)
    ensures f.category == SelectedOption(options, p.category)
    ensures f.featured == Some("on") <==> p.featured
  {
    EditFields(p.title.GetOr(""), p.description.GetOr(""), JoinTech(p.techStack), SelectedOption(options, p.category),
               p.liveUrl.GetOr(""), p.githubUrl.GetOr(""), if p.featured then Some("on") else None)
  }

  /** The edit form as it opens on a project: a category outside its eleven options shows, and submits, as "Full Stack". */
  function DefaultFields(p: Project): (f: EditFields)
    ensures f.title == p.title.GetOr("") && f.description == p.description.GetOr("")
    ensures f.liveUrl == p.liveUrl.GetOr("") && f.githubUrl == p.githubUrl.GetOr("")
    ensures f.techStack == JoinTech(p.techStack)
    ensures f.category in EditCategories
    ensures p.category.Some? && p.category.value in EditCategories ==> f.category == p.category.value
    ensures !(p.category.Some? && p.category.value in EditCategories) ==> f.category == "Full Stack"
    ensures f.featured == Some("on") <==> p.featured
  {
    DefaultFieldsWith(p, EditCategories)
  }

  /** `{ ...editingProject, ...updatedData }`: the entry handed to the page keeps its id, images and creation time. */
  function Overlay(editing: Project, f: EditFields): (r: Project)
    ensures r.id == editing.id && r.images == editing.images && r.createdAt == editing.createdAt
    ensures r.techStack == ParseTechStack(f.techStack) && r.featured == ParseFeatured(f.featured)
    ensures r.title == Some(f.title) && r.description == Some(f.description) && r.category == Some(f.category)
    ensures r.liveUrl == Some(f.liveUrl) && r.githubUrl == Some(f.githubUrl)
  {
    Merge(editing, UpdatedData(f))
  }

  /**
   * Saving an untouched edit form leaves a fully filled-in project as it was,
   * except that its category becomes the option the select fell back on.
   */
  lemma {:induction false} UntouchedEditWith(p: Project, options: seq<string>)
    requires options != []
    requires p.title.Some? && p.description.Some? && p.liveUrl.Some? && p.githubUrl.Some?
    requires CleanTech(p.techStack)
    ensures Overlay(p, DefaultFieldsWith(p, options)) == p.(category := Some(SelectedOption(options, p.category)))
    ensures p.category.Some? && p.category.value in options ==> Overlay(p, DefaultFieldsWith(p, options)) == p
  {
    JoinThenParse(p.techStack);
  }

  /** Saving the edit form untouched keeps a fully filled-in project whose category is one of the eleven options. */
  lemma UntouchedEditKeepsProject(p: Project)
    requires p.title.Some? && p.description.Some? && p.liveUrl.Some? && p.githubUrl.Some?
    requires CleanTech(p.techStack)
    ensures Overlay(p, DefaultFields(p)) == p.(category := Some(DefaultFields(p).category))
    ensures p.category.Some? && p.category.value in EditCategories ==> Overlay(p, DefaultFields(p)) == p
  {
    UntouchedEditWith(p, EditCategories);
  }

  /**
   * As written, none of the add form's categories is an edit option, so saving
   * the edit form of a project created there, untouched, recategorises it.
   */
  lemma AddFormCategoryLostOnEdit(p: Project)
    requires p.category.Some? && p.category.value in ProjectForm.Categories
    ensures Overlay(p, DefaultFields(p)).category == Some("Full Stack")
    ensures Overlay(p, DefaultFields(p)) != p
  {
    assert p.category.value !in EditCategories;
  }

  /** The select as evidently intended: it also offers every value the add form stores. */
  const FixedEditCategories: seq<string> := EditCategories + ProjectForm.Categories

  /** With the intended options, an untouched save keeps every fully filled-in project from either form. */
  lemma UntouchedEditKeepsProjectFixed(p: Project)
    requires p.title.Some? && p.description.Some? && p.liveUrl.Some? && p.githubUrl.Some?
    requires CleanTech(p.techStack)
    requires p.category.Some? && (p.category.value in EditCategories || p.category.value in ProjectForm.Categories)
    ensures Overlay(p, DefaultFieldsWith(p, FixedEditCategories)) == p
  {
    assert p.category.value in FixedEditCategories;
    UntouchedEditWith(p, FixedEditCategories);
  }

  /** The list's own state: the project being edited and the id awaiting delete confirmation. */
  datatype ListState = ListState(editing: Option<Project>, deleteConfirm: Option<ProjectId>)

  /** What a handler hands to the page: nothing, or the value passed to its callback. */
  datatype Handled<T> = Handled(state: ListState, callback: Option<T>)

  /** The edit modal's submit: on a 2xx reply the overlay goes to the page and the modal closes; otherwise nothing changes. */
  function HandleUpdateSubmit(st: ListState, f: EditFields, ok: bool): (r: Handled<Project>)
    requires st.editing.Some?
    ensures ok ==> r == Handled(st.(editing := None), Some(Overlay(st.editing.value, f)))
    ensures !ok ==> r == Handled(st, None)
  {
    if ok then Handled(st.(editing := None), Some(Overlay(st.editing.value, f))) else Handled(st, None)
  }

  /** The delete confirmation: on a 2xx reply the confirmed id goes to the page and the dialog closes; otherwise nothing changes. */
  function HandleDelete(st: ListState, ok: bool): (r: Handled<ProjectId>)
    requires st.deleteConfirm.Some?
    ensures ok ==> r == Handled(st.(deleteConfirm := None), st.deleteConfirm)
    ensures !ok ==> r == Handled(st, None)
  {
    if ok then Handled(st.(deleteConfirm := None), st.deleteConfirm) else Handled(st, None)
  }

  /** `projects.filter(Boolean)`: the drawn entries, null ones skipped, order kept. */
  function Visible(ps: seq<Option<Project>>): (r: seq<Option<Project>>)
    ensures IsSubseq(r, ps)
    ensures forall p :: p in r <==> p in ps && p.Some?
    ensures forall p :: multiset(r)[p] == if p.Some? then multiset(ps)[p] else 0
  {
    FilterMultiplicity(ps, (p: Option<Project>) => p.Some?);
    Filter(ps, (p: Option<Project>) => p.Some?)
  }

  /** A list without null entries is drawn whole, and drawing what is drawn changes nothing. */
  lemma {:induction false} VisibleKeepsPresent(ps: seq<Option<Project>>)
    ensures (forall i :: 0 <= i < |ps| ==> ps[i].Some?) ==> Visible(ps) == ps
    ensures Visible(Visible(ps)) == Visible(ps)
  {
    var keep := (p: Option<Project>) => p.Some?;
    if forall i :: 0 <= i < |ps| ==> ps[i].Some? {
      FilterAllPass(ps, keep);
    }
    FilterAllPass(Visible(ps), keep);
  }

  /** Replacing entry `k` in a list with unique ids is the same as replacing every entry with its id. */
  lemma ReplaceByIdIsReplaceAt(ps: seq<Project>, k: nat, q: Project)
    requires ProfileProperties.UniqueProjectIds(ps)
    requires k < |ps| && q.id == ps[k].id
    ensures Dashboard.OnProjectUpdated(Dashboard.DashProfile("", ps, "", 0), q).projects == ps[k := q]
  {
    var r := Dashboard.OnProjectUpdated(Dashboard.DashProfile("", ps, "", 0), q).projects;
    forall i | 0 <= i < |ps| ensures r[i] == ps[k := q][i] {
      if i != k {
        assert ps[i].id != ps[k].id;
      }
    }
  }

  /**
   * After a successful edit the page's list equals the server's: when the
   * page holds the owner's stored list (ids unique) and edits entry `k`,
   * the overlay it applies locally is the entry the server stored.
   */
  lemma EditKeepsPageInSync(s: Profiles.ProfileStore, user: Accounts.Claims, k: nat, f: EditFields)
    requires Profiles.HasProfile(s, user.id)
    requires var i := Profiles.OwnIndex(s, user.id).value;
      ProfileProperties.UniqueProjectIds(s[i].projects) && k < |s[i].projects|
    ensures var i := Profiles.OwnIndex(s, user.id).value;
      var ps := s[i].projects;
      var server := Profiles.UpdateProject(s, user, ps[k].id, UpdatedData(f));
      && server.reply.Ok?
      && server.store[i].projects
         == Dashboard.OnProjectUpdated(Dashboard.DashProfile("", ps, "", 0), Overlay(ps[k], f)).projects
  {
    var i := Profiles.OwnIndex(s, user.id).value;
    var ps := s[i].projects;
    var patch := UpdatedData(f);
    var server := Profiles.UpdateProject(s, user, ps[k].id, patch);
    assert ps[k].id == ps[k].id;
    var k' :| 0 <= k' < |ps| && ps[k'].id == ps[k].id
           && (forall m :: 0 <= m < k' ==> ps[m].id != ps[k].id)
           && server.store[i] == s[i].(projects := ps[k' := Merge(ps[k'], patch)]);
    assert k' == k;
    ReplaceByIdIsReplaceAt(ps, k, Overlay(ps[k], f));
  }

  /**
   * Saving the edit form of entry `k` on the page's copy of the stored list:
   * the server accepts, the modal closes, and the entry handed to the page
   * makes its list equal to the stored one.
   */
  lemma UpdateSubmitKeepsPageInSync(s: Profiles.ProfileStore, user: Accounts.Claims, k: nat, st: ListState, f: EditFields)
    requires Profiles.HasProfile(s, user.id)
    requires var i := Profiles.OwnIndex(s, user.id).value;
      ProfileProperties.UniqueProjectIds(s[i].projects) && k < |s[i].projects|
      && st.editing == Some(s[i].projects[k])
    ensures var i := Profiles.OwnIndex(s, user.id).value;
      var ps := s[i].projects;
      var server := Profiles.UpdateProject(s, user, ps[k].id, UpdatedData(f));
      var h := HandleUpdateSubmit(st, f, server.reply.Ok?);
      && h.state.editing.None? && h.callback.Some?
      && server.store[i].projects
         == Dashboard.OnProjectUpdated(Dashboard.DashProfile("", ps, "", 0), h.callback.value).projects
  {
    EditKeepsPageInSync(s, user, k, f);
  }

  /**
   * Confirming a delete on the page's copy of the stored list: the server
   * accepts, the dialog closes, and the id handed to the page makes its
   * list equal to the stored one, with the counter equal to its length.
   */
  lemma DeleteKeepsPageInSync(s: Profiles.ProfileStore, user: Accounts.Claims, st: ListState)
    requires Profiles.HasProfile(s, user.id)
    requires st.deleteConfirm.Some?
    ensures var i := Profiles.OwnIndex(s, user.id).value;
      var ps := s[i].projects;
      var server := Profiles.DeleteProject(s, user, st.deleteConfirm.value);
      var h := HandleDelete(st, server.reply.Ok?);
      && h.state.deleteConfirm.None? && h.callback == st.deleteConfirm
      && var page := Dashboard.OnProjectDeleted(Dashboard.DashProfile("", ps, "", |ps|), h.callback.value);
         page.projects == server.store[i].projects && Dashboard.CounterAgrees(page)
  {
  }
}
