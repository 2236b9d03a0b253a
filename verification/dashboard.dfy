/**
 * The dashboard page: how its API helper classifies a response, the
 * profile it keeps (projects plus a `totalProjects` counter), the list
 * reducers it hands to the project list, the first-time username setup,
 * and which view it shows.
 */
module Dashboard {
  import opened Wrappers
  import opened Seqs
  import opened Text
  import opened Portfolio

  // ---------------------------------------------------------------- request

  /** A failed response's body: JSON (with or without `message`), other text, or nothing readable. */
  datatype ErrorBody = JsonBody(message: Option<string>) | TextBody(text: string) | Unreadable

  /** How the API helper ends: with the body (or `{}` for 204), or by throwing. */
  datatype Outcome =
    | EmptyObject
    | ParsedBody
    | SessionExpired(message: string)
    | HttpError(status: int, message: string)

  /** The outcome and whether the stored token is removed. */
  datatype RequestResult = RequestResult(outcome: Outcome, clearsToken: bool)

  predicate IsOk(status: int) {
    200 <= status <= 299
  }

  /**
   * The error text as the helper computes it: the JSON `message` when it is
   * non-empty, else "Request failed". The text fallback never yields
   * anything: `response.json()` has already consumed the body when it
   * rejects, so the following `response.text()` rejects too.
   */
  function ErrorMessage(body: ErrorBody): (m: string)
    ensures m != ""
    ensures body.JsonBody? && body.message.Some? && body.message.value != "" ==> m == body.message.value
    ensures !(body.JsonBody? && body.message.Some? && body.message.value != "") ==> m == "Request failed"
  {
    match body
    case JsonBody(message) => if message.Some? && message.value != "" then message.value else "Request failed"
    case _ => "Request failed"
  }

  /** The error text with the fallback the helper evidently means: a non-empty raw text is reported when the body is not JSON. */
  function ErrorMessageWithText(body: ErrorBody): (m: string)
    ensures m != ""
    ensures body.JsonBody? && body.message.Some? && body.message.value != "" ==> m == body.message.value
    ensures body.TextBody? && body.text != "" ==> m == body.text
    ensures !(body.JsonBody? && body.message.Some? && body.message.value != "") && !(body.TextBody? && body.text != "")
      ==> m == "Request failed"
  {
    match body
    case JsonBody(message) => if message.Some? && message.value != "" then message.value else "Request failed"
    case TextBody(text) => if text != "" then text else "Request failed"
    case Unreadable => "Request failed"
  }

  /** The two readings agree on every body except one that is not JSON, where only the intended one reports the text. */
  lemma TextFallbackOnlyDifference(body: ErrorBody)
    ensures !body.TextBody? ==> ErrorMessage(body) == ErrorMessageWithText(body)
    ensures body.TextBody? ==>
      && ErrorMessage(body) == "Request failed"
      && ErrorMessageWithText(body) == (if body.text != "" then body.text else "Request failed")
  {
  }

  /** The counterexample: a 500 with the plain body "Internal Server Error" throws "Request failed". */
  lemma TextFallbackIsDead()
    ensures Request(500, TextBody("Internal Server Error")).outcome == HttpError(500, "Request failed")
    ensures ErrorMessageWithText(TextBody("Internal Server Error")) == "Internal Server Error"
  {
  }

  /** `apiService.request`: 401 first (token cleared), then any other non-2xx, then 204. */
  function Request(status: int, errorBody: ErrorBody): (r: RequestResult)
    ensures r.clearsToken <==> status == 401
    ensures status == 401 ==> r.outcome == SessionExpired("Session expired. Please login again.")
    ensures status != 401 && !IsOk(status) ==> r.outcome == HttpError(status, ErrorMessage(errorBody))
    ensures IsOk(status) ==> r.outcome == (if status == 204 then EmptyObject else ParsedBody)
  {
    if status == 401 then RequestResult(SessionExpired("Session expired. Please login again."), true)
    else if !IsOk(status) then RequestResult(HttpError(status, ErrorMessage(errorBody)), false)
    else if status == 204 then RequestResult(EmptyObject, false)
    else RequestResult(ParsedBody, false)
  }

  /** A request throws exactly on a non-2xx status, and the thrown error carries that status unless it is 401. */
  lemma RequestThrowsIffNotOk(status: int, errorBody: ErrorBody)
    ensures (Request(status, errorBody).outcome.SessionExpired? || Request(status, errorBody).outcome.HttpError?)
        <==> !IsOk(status)
    ensures Request(status, errorBody).outcome.HttpError? ==> Request(status, errorBody).outcome.status == status
  {
  }

  /**
   * `addProject` does not go through `request`: every non-2xx status, 401
   * included, throws with the JSON `message` (else "Request failed"), the
   * stored token is kept, and a 2xx body is always parsed.
   */
  function AddProjectRequest(status: int, errorBody: ErrorBody): (r: RequestResult)
    ensures !r.clearsToken
    ensures IsOk(status) <==> r.outcome == ParsedBody
    ensures !IsOk(status) ==> r.outcome.HttpError? && r.outcome.status == status
    ensures !IsOk(status) && errorBody.JsonBody? ==> r.outcome.message == ErrorMessage(errorBody)
    ensures !IsOk(status) && !errorBody.JsonBody? ==> r.outcome.message == "Request failed"
  {
    if IsOk(status) then RequestResult(ParsedBody, false)
    else
      var message := if errorBody.JsonBody? then ErrorMessage(errorBody) else "Request failed";
      RequestResult(HttpError(status, message), false)
  }

  /** Off 401, both request paths throw the same error for the same failed response. */
  lemma AddProjectAgreesWithRequestOff401(status: int, errorBody: ErrorBody)
    requires status != 401
    ensures AddProjectRequest(status, errorBody) == Request(status, errorBody).(outcome :=
      if IsOk(status) then ParsedBody else Request(status, errorBody).outcome)
  {
  }

  /** An expired session ends differently on the two paths: only `request` clears the token. */
  lemma ExpiredSessionOnAddProject(errorBody: ErrorBody)
    ensures Request(401, errorBody).clearsToken && !AddProjectRequest(401, errorBody).clearsToken
    ensures AddProjectRequest(401, errorBody).outcome.HttpError?
  {
  }

  // ---------------------------------------------------------------- dashboard state

  datatype Tab = Projects | ProfileTab | TemplateTab | Setup

  /** The profile the page keeps. */
  datatype DashProfile = DashProfile(
    username: string,
    projects: seq<Project>,
    template: string,
    totalProjects: int)

  const DefaultProfile := DashProfile("", [], "default", 0)

  datatype Dash = Dash(profile: DashProfile, tab: Tab, loading: bool, error: Option<string>)

  /** The counter agrees with the list. */
  predicate CounterAgrees(p: DashProfile) {
    p.totalProjects == |p.projects|
  }

  /** Profile normalisation on fetch: defaults under the server's fields, a non-array list read as []. */
  function Normalise(username: Option<string>, projects: JsonArray<Project>, template: Option<string>): (p: DashProfile)
    ensures CounterAgrees(p)
    ensures projects.Array? ==> p.projects == projects.items
    ensures projects.NotAnArray? ==> p.projects == []
    ensures p.username == username.GetOr(DefaultProfile.username)
    ensures p.template == template.GetOr(DefaultProfile.template)
  {
    var ps := SafeArray(projects);
    DashProfile(username.GetOr(""), ps, template.GetOr("default"), |ps|)
  }

  /** `handleAddProject` after the server returns the new entry: append it and count one more. */
  function HandleAddProject(p: DashProfile, created: Project): (r: DashProfile)
    ensures |r.projects| == |p.projects| + 1 && r.projects[..|p.projects|] == p.projects
    ensures r.projects[|p.projects|] == created
    ensures r.totalProjects == |p.projects| + 1
    ensures r.username == p.username && r.template == p.template
  {
    var ps := p.projects + [created];
    assert ps[..|p.projects|] == p.projects;
    p.(projects := ps, totalProjects := |p.projects| + 1)
  }

  /** `onProjectUpdated`: every entry with the updated id is replaced by it. */
  function OnProjectUpdated(p: DashProfile, updated: Project): (r: DashProfile)
    ensures |r.projects| == |p.projects|
    ensures forall i :: 0 <= i < |p.projects| ==>
      r.projects[i] == (if p.projects[i].id == updated.id then updated else p.projects[i])
    ensures r.totalProjects == p.totalProjects && r.username == p.username && r.template == p.template
  {
    p.(projects := seq(|p.projects|, i requires 0 <= i < |p.projects| =>
         if p.projects[i].id == updated.id then updated else p.projects[i]))
  }

  /** `onProjectDeleted` as written: the counter is the old length minus one whatever was removed. */
  function OnProjectDeletedAsWritten(p: DashProfile, id: ProjectId): (r: DashProfile)
    ensures r.projects == Filter(p.projects, (q: Project) => q.id != id)
    ensures r.totalProjects == |p.projects| - 1
  {
    p.(projects := Filter(p.projects, (q: Project) => q.id != id), totalProjects := |p.projects| - 1)
  }

  /** `onProjectDeleted` with the counter taken from the filtered list. */
  function OnProjectDeleted(p: DashProfile, id: ProjectId): (r: DashProfile)
    ensures r.projects == Filter(p.projects, (q: Project) => q.id != id)
    ensures forall q :: q in r.projects <==> q in p.projects && q.id != id
    ensures CounterAgrees(r)
  {
    var ps := Filter(p.projects, (q: Project) => q.id != id);
    p.(projects := ps, totalProjects := |ps|)
  }

  /** Adding, updating and (corrected) deleting keep the counter equal to the list length. */
  lemma ReducersKeepCounter(p: DashProfile, created: Project, updated: Project, id: ProjectId)
    requires CounterAgrees(p)
    ensures CounterAgrees(HandleAddProject(p, created))
    ensures CounterAgrees(OnProjectUpdated(p, updated))
    ensures CounterAgrees(OnProjectDeleted(p, id))
  {
  }

  /** On a list holding the id exactly once, both deletes agree. */
  lemma DeleteAgreesOnUniqueHit(p: DashProfile, id: ProjectId, k: nat)
    requires CounterAgrees(p)
    requires k < |p.projects| && p.projects[k].id == id
    requires forall j :: 0 <= j < |p.projects| && j != k ==> p.projects[j].id != id
    ensures OnProjectDeletedAsWritten(p, id) == OnProjectDeleted(p, id)
  {
    var keep := (q: Project) => q.id != id;
    var ps := p.projects;
    var before, after := ps[..k], ps[k + 1..];
    assert ps == before + [ps[k]] + after;
    assert Filter(before, keep) == before by {
      assert forall j :: 0 <= j < |before| ==> before[j] == ps[j];
      FilterAllPass(before, keep);
    }
    assert Filter(after, keep) == after by {
      assert forall j :: 0 <= j < |after| ==> after[j] == ps[k + 1 + j];
      FilterAllPass(after, keep);
    }
    assert Filter([ps[k]], keep) == [];
    FilterConcat(before, [ps[k]], keep);
    FilterConcat(before + [ps[k]], after, keep);
    assert |Filter(ps, keep)| == |ps| - 1;
  }

  /** The counterexample: deleting an id that is not listed drives the counter to -1 on an empty list. */
  lemma DeleteMissingIdMiscounts()
    ensures var r := OnProjectDeletedAsWritten(DefaultProfile, "missing");
      r.projects == [] && r.totalProjects == -1 && !CounterAgrees(r)
  {
  }

  // ---------------------------------------------------------------- username setup

  /** The setup form's submit: the trimmed input, or nothing when it is blank. */
  function SetupSubmit(input: string): (r: Option<string>)
    ensures r.Some? <==> Trim(input) != ""
    ensures r.Some? ==> r.value == Trim(input) && r.value != ""
  {
    var t := Trim(input);
    if t != "" then Some(t) else None
  }

  predicate IsAlnum(c: char) {
    ('a' <= c <= 'z') || ('A' <= c <= 'Z') || ('0' <= c <= '9')
  }

  /** What the username input accepts: 3 to 20 letters and digits. */
  predicate ValidUsernameInput(s: string) {
    3 <= |s| <= 20 && forall i :: 0 <= i < |s| ==> IsAlnum(s[i])
  }

  /** An input the field accepts is submitted exactly as typed. */
  lemma ValidInputSubmittedVerbatim(s: string)
    requires ValidUsernameInput(s)
    ensures SetupSubmit(s) == Some(s)
  {
    assert !IsSpace(s[0]) && !IsSpace(s[|s| - 1]);
    TrimOfTrimmed(s);
  }

  /** The result of an awaited API call: resolved with a value, or thrown with a message. */
  datatype Call<T> = Resolved(value: T) | Threw(message: string)

  /** The page after `handleCreateProfile`, and whether the create request was sent. */
  datatype CreateStep = CreateStep(dash: Dash, createSent: bool)

  /**
   * `handleCreateProfile`: the availability check first; a taken name sets
   * "Username already taken" and sends nothing; a created profile replaces
   * the page's profile and opens the projects tab.
   */
  function HandleCreateProfile(d: Dash, check: Call<bool>, create: Call<DashProfile>): (r: CreateStep)
    ensures r.createSent <==> check == Resolved(false)
    ensures check == Resolved(true) ==> r.dash == d.(loading := false, error := Some("Username already taken"))
    ensures check.Threw? ==> r.dash == d.(loading := false, error := Some(check.message))
    ensures r.createSent && create.Resolved? ==>
      r.dash == Dash(create.value.(totalProjects := |create.value.projects|), Projects, false, None)
    ensures r.createSent && create.Threw? ==> r.dash == d.(loading := false, error := Some(create.message))
    ensures !r.dash.loading
  {
    match check
    case Threw(m) => CreateStep(d.(loading := false, error := Some(m)), false)
    case Resolved(exists_) =>
      if exists_ then CreateStep(d.(loading := false, error := Some("Username already taken")), false)
      else
        match create
        case Threw(m) => CreateStep(d.(loading := false, error := Some(m)), true)
        case Resolved(p) =>
          CreateStep(Dash(p.(totalProjects := |p.projects|), Projects, false, None), true)
  }

  // ---------------------------------------------------------------- fetch and view

  /** How a failed profile fetch ends: the page state, and whether the page navigates to the login route. */
  datatype FetchEnd = FetchEnd(dash: Dash, toLogin: bool)

  /** A thrown error: the helper's two rejecting outcomes. */
  predicate Thrown(err: Outcome) {
    err.SessionExpired? || err.HttpError?
  }

  /**
   * The fetch's catch block as written: the message is shown, an error whose
   * `status` is 401 navigates to the login route and one whose `status` is
   * 404 opens the setup tab. Only an `HttpError` carries a `status`.
   */
  function OnFetchError(d: Dash, err: Outcome): (r: FetchEnd)
    requires Thrown(err)
    ensures r.dash.error == Some(err.message) && !r.dash.loading && r.dash.profile == d.profile
    ensures r.toLogin <==> err.HttpError? && err.status == 401
    ensures err.HttpError? && err.status == 404 ==> r.dash.tab == Setup
    ensures !(err.HttpError? && err.status == 404) ==> r.dash.tab == d.tab
  {
    var opensSetup := err.HttpError? && err.status == 404;
    FetchEnd(d.(error := Some(err.message), loading := false, tab := if opensSetup then Setup else d.tab),
             err.HttpError? && err.status == 401)
  }

  /** The catch block as evidently intended: an expired session navigates to the login route too. */
  function OnFetchErrorFixed(d: Dash, err: Outcome): (r: FetchEnd)
    requires Thrown(err)
    ensures r.dash == OnFetchError(d, err).dash
    ensures r.toLogin <==> err.SessionExpired? || (err.HttpError? && err.status == 401)
  {
    OnFetchError(d, err).(toLogin := err.SessionExpired? || OnFetchError(d, err).toLogin)
  }

  datatype View = LoadingView | ErrorView | SetupView | MainView

  /** View precedence: loading, then an error (unless on the setup tab), then setup, then the dashboard. */
  function ViewOf(d: Dash): (v: View)
    ensures d.loading <==> v == LoadingView
    ensures v == ErrorView <==> !d.loading && d.error.Some? && d.tab != Setup
    ensures v == SetupView <==>
      !d.loading && (d.error.None? || d.tab == Setup) && (d.profile.username == "" || d.tab == Setup)
  {
    if d.loading then LoadingView
    else if d.error.Some? && d.tab != Setup then ErrorView
    else if d.profile.username == "" || d.tab == Setup then SetupView
    else MainView
  }

  /** A user without a profile (the fetch answers 404) lands on the setup form, with the message shown there. */
  lemma MissingProfileShowsSetup(d: Dash, body: ErrorBody)
    ensures Thrown(Request(404, body).outcome)
    ensures var r := OnFetchError(d, Request(404, body).outcome);
      ViewOf(r.dash) == SetupView && !r.toLogin && r.dash.error == Some(ErrorMessage(body))
  {
  }

  /**
   * As written, no failed fetch navigates to the login route: the helper
   * throws a 401 as `SessionExpired`, which carries no status, and every
   * other status it throws is not 401.
   */
  lemma FetchErrorNeverRedirects(d: Dash, status: int, body: ErrorBody)
    requires !IsOk(status)
    ensures Thrown(Request(status, body).outcome)
    ensures !OnFetchError(d, Request(status, body).outcome).toLogin
  {
    RequestThrowsIffNotOk(status, body);
  }

  /** The counterexample: an expired session leaves the page on the error view instead of the login route. */
  lemma ExpiredSessionShowsError(d: Dash, body: ErrorBody)
    requires d.tab != Setup
    ensures var r := OnFetchError(d, Request(401, body).outcome);
      && !r.toLogin
      && ViewOf(r.dash) == ErrorView
      && r.dash.error == Some("Session expired. Please login again.")
  {
  }

  /** With the intended catch block, a failed fetch navigates to the login route exactly on a 401. */
  lemma FixedRedirectsExactlyOn401(d: Dash, status: int, body: ErrorBody)
    requires !IsOk(status)
    ensures Thrown(Request(status, body).outcome)
    ensures OnFetchErrorFixed(d, Request(status, body).outcome).toLogin <==> status == 401
    ensures status != 401 ==> OnFetchErrorFixed(d, Request(status, body).outcome) == OnFetchError(d, Request(status, body).outcome)
  {
    RequestThrowsIffNotOk(status, body);
  }

  /** A successful create always leads to the dashboard proper when the name is non-empty. */
  lemma CreatedProfileShowsDashboard(d: Dash, p: DashProfile)
    requires p.username != ""
    ensures ViewOf(HandleCreateProfile(d, Resolved(false), Resolved(p)).dash) == MainView
  {
  }
}
