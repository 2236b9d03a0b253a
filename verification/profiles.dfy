/**
 * The profile and project routes of the server, over the profile
 * collection in natural order. Each protected handler takes the claims
 * the middleware (`Session.Authenticate`) attached to the request.
 */
module Profiles {
  import opened Wrappers
  import opened Seqs
  import opened Text
  import opened Portfolio
  import Accounts
  import Session

  /** One profile document: owner, public username, projects, nested profile, template. */
  datatype ProfileDoc = ProfileDoc(
    owner: UserId,
    username: string,
    projects: seq<Project>,
    profile: ProfileInfo,
    template: Option<string>)

  type ProfileStore = seq<ProfileDoc>

  datatype Reply<T> = Ok(status: int, value: T) | Failed(status: int, message: string)

  datatype Step<T> = Step(store: ProfileStore, reply: Reply<T>)

  /** The templates the server accepts. */
  const ValidTemplates: seq<string> := ["default", "minimal", "professional"]

  predicate UsernameTaken(s: ProfileStore, username: string) {
    exists i :: 0 <= i < |s| && s[i].username == username
  }

  predicate HasProfile(s: ProfileStore, owner: UserId) {
    exists i :: 0 <= i < |s| && s[i].owner == owner
  }

  /** The owner's profile: the first document with that owner. */
  function OwnIndex(s: ProfileStore, owner: UserId): (r: Option<nat>)
    ensures r.Some? <==> HasProfile(s, owner)
    ensures r.Some? ==> r.value < |s| && s[r.value].owner == owner
  {
    FindFirst(s, (d: ProfileDoc) => d.owner == owner)
  }

  /** GET /api/profiles/check-username: an absent or empty query parameter is 400. */
  function CheckUsername(s: ProfileStore, username: Option<string>): (r: Reply<bool>)
    ensures (username.None? || username == Some("")) <==> r == Failed(400, "Username is required")
    ensures username.Some? && username.value != "" ==> r == Ok(200, UsernameTaken(s, username.value))
  {
    if username.None? || username.value == "" then Failed(400, "Username is required")
    else Ok(200, FindFirst(s, (d: ProfileDoc) => d.username == username.value).Some?)
  }

  /** The sub-document a new profile starts with: the name is the e-mail's local part, every other field empty. */
  function InitialInfo(email: string): (info: ProfileInfo)
    ensures info.name == Some(Split(email, '@')[0])
    ensures info.bio == Some("") && info.avatar == Some("") && info.passionateText == Some("")
    ensures info.socialLinks == Some(SocialLinks(Some(""), Some(""), Some(""), Some("")))
    ensures info.skills == Some([]) && info.education == Some([]) && info.workExperience == Some([])
  {
    ProfileInfo(Some(Split(email, '@')[0]), Some(""), Some(""), Some(""),
                Some(SocialLinks(Some(""), Some(""), Some(""), Some(""))),
                Some([]), Some([]), Some([]))
  }

  /** POST /api/profiles. */
  function CreateProfile(s: ProfileStore, user: Accounts.Claims, username: string): (r: Step<ProfileDoc>)
    ensures UsernameTaken(s, username) ==> r == Step(s, Failed(400, "Username already taken"))
    ensures !UsernameTaken(s, username) ==>
      && r.reply.Ok? && r.reply.status == 201
      && r.store == s + [r.reply.value]
      && r.reply.value == ProfileDoc(user.id, username, [], InitialInfo(user.email), Some("default"))
  {
    match FindFirst(s, (d: ProfileDoc) => d.username == username)
    case Some(_) => Step(s, Failed(400, "Username already taken"))
    case None =>
      var doc := ProfileDoc(user.id, username, [], InitialInfo(user.email), Some("default"));
      Step(s + [doc], Ok(201, doc))
  }

  /** GET /api/profiles/me. */
  function GetOwnProfile(s: ProfileStore, user: Accounts.Claims): (r: Reply<ProfileDoc>)
    ensures !HasProfile(s, user.id) ==> r == Failed(404, "Profile not found")
    ensures r.Ok? ==> r.value.owner == user.id && r.value in s
    ensures HasProfile(s, user.id) ==>
      && r.Ok? && r.status == 200
      && exists i :: 0 <= i < |s| && r.value == s[i] && s[i].owner == user.id
           && forall j :: 0 <= j < i ==> s[j].owner != user.id
  {
    match OwnIndex(s, user.id)
    case None => Failed(404, "Profile not found")
    case Some(i) => Ok(200, s[i])
  }

  /** GET /api/profiles/:username, unauthenticated: the whole document. */
  function GetPublicProfile(s: ProfileStore, username: string): (r: Reply<ProfileDoc>)
    ensures !UsernameTaken(s, username) <==> r == Failed(404, "Profile not found")
    ensures r.Ok? ==> r.value.username == username && r.value in s
    ensures UsernameTaken(s, username) ==>
      && r.Ok? && r.status == 200
      && exists i :: 0 <= i < |s| && r.value == s[i] && s[i].username == username
           && forall j :: 0 <= j < i ==> s[j].username != username
  {
    match FindFirst(s, (d: ProfileDoc) => d.username == username)
    case None => Failed(404, "Profile not found")
    case Some(i) => Ok(200, s[i])
  }

  /** The path segments whose GET routes are registered before `/api/profiles/:username`. */
  const ShadowedSegments: seq<string> := ["check-username", "me"]

  /**
   * A GET of `/api/profiles/<segment>` without a query string, dispatched in
   * registration order: "check-username" reaches the availability check with
   * no username, "me" reaches the owner's route behind the JWT middleware,
   * and every other segment reaches the public handler.
   */
  function GetProfilePath(
    s: ProfileStore, segment: string, header: Option<string>,
    verify: string -> Option<Accounts.Claims>): (r: Reply<ProfileDoc>)
    ensures segment == "check-username" ==> r == Failed(400, "Username is required")
    ensures segment == "me" && (header.None? || header == Some("")) ==> r == Failed(401, "Authorization header missing")
    ensures segment == "me" && Session.Authenticate(header, verify).Authenticated? ==>
      r == GetOwnProfile(s, Session.Authenticate(header, verify).claims)
    ensures segment !in ShadowedSegments ==> r == GetPublicProfile(s, segment)
  {
    if segment == "check-username" then
      var c := CheckUsername(s, None);
      Failed(c.status, c.message)
    else if segment == "me" then
      match Session.Authenticate(header, verify)
      case Rejected(status, message) => Failed(status, message)
      case Authenticated(claims) => GetOwnProfile(s, claims)
    else GetPublicProfile(s, segment)
  }

  /** Profile creation as evidently intended: a username the router shadows is refused like a taken one. */
  function CreateProfileReserving(s: ProfileStore, user: Accounts.Claims, username: string): (r: Step<ProfileDoc>)
    ensures username in ShadowedSegments ==> r == Step(s, Failed(400, "Username already taken"))
    ensures username !in ShadowedSegments ==> r == CreateProfile(s, user, username)
  {
    if username in ShadowedSegments then Step(s, Failed(400, "Username already taken"))
    else CreateProfile(s, user, username)
  }

  /** The store with the owner's document at `i` replaced and every other document kept. */
  ghost predicate OnlyDocChanged(s: ProfileStore, t: ProfileStore, i: nat) {
    |t| == |s| && i < |s| && forall j :: 0 <= j < |s| && j != i ==> t[j] == s[j]
  }

  /** PUT /api/profiles/me/profile: replaces the whole nested profile. */
  function UpdateProfileInfo(s: ProfileStore, user: Accounts.Claims, info: ProfileInfo): (r: Step<ProfileDoc>)
    ensures !HasProfile(s, user.id) ==> r == Step(s, Failed(404, "Profile not found"))
    ensures HasProfile(s, user.id) ==>
      var i := OwnIndex(s, user.id).value;
      && OnlyDocChanged(s, r.store, i)
      && r.store[i] == s[i].(profile := info)
      && r.reply == Ok(200, r.store[i])
  {
    match OwnIndex(s, user.id)
    case None => Step(s, Failed(404, "Profile not found"))
    case Some(i) =>
      var t := s[i := s[i].(profile := info)];
      Step(t, Ok(200, t[i]))
  }

  /** The template check: a present, non-empty name outside the allow-list is refused; an absent one passes. */
  predicate TemplateAllowed(template: Option<string>) {
    template.None? || template.value == "" || template.value in ValidTemplates
  }

  /** PUT /api/profiles/me/template: the name is checked before the profile is looked up. */
  function UpdateTemplate(s: ProfileStore, user: Accounts.Claims, template: Option<string>): (r: Step<ProfileDoc>)
    ensures !TemplateAllowed(template) ==> r == Step(s, Failed(400, "Invalid template"))
    ensures TemplateAllowed(template) && !HasProfile(s, user.id) ==> r == Step(s, Failed(404, "Profile not found"))
    ensures TemplateAllowed(template) && HasProfile(s, user.id) ==>
      var i := OwnIndex(s, user.id).value;
      && OnlyDocChanged(s, r.store, i)
      && r.store[i] == s[i].(template := template)
      && r.reply == Ok(200, r.store[i])
  {
    if template.Some? && template.value != "" && template.value !in ValidTemplates then
      Step(s, Failed(400, "Invalid template"))
    else
      match OwnIndex(s, user.id)
      case None => Step(s, Failed(404, "Profile not found"))
      case Some(i) =>
        var t := s[i := s[i].(template := template)];
        Step(t, Ok(200, t[i]))
  }

  /** The entry a new project starts from before the body is merged in: a fresh id and the creation time. */
  function BlankProject(id: ProjectId, now: int): Project {
    Project(id, None, None, [], [], None, None, None, false, now)
  }

  /** POST /api/profiles/me/projects: appends the body and returns the new last entry. */
  function AddProject(s: ProfileStore, user: Accounts.Claims, body: ProjectPatch, freshId: ProjectId, now: int): (r: Step<Project>)
    ensures !HasProfile(s, user.id) ==> r == Step(s, Failed(404, "Profile not found"))
    ensures HasProfile(s, user.id) ==>
      var i := OwnIndex(s, user.id).value;
      && OnlyDocChanged(s, r.store, i)
      && r.store[i] == s[i].(projects := s[i].projects + [Merge(BlankProject(freshId, now), body)])
      && r.reply == Ok(201, r.store[i].projects[|r.store[i].projects| - 1])
  {
    match OwnIndex(s, user.id)
    case None => Step(s, Failed(404, "Profile not found"))
    case Some(i) =>
      var projects := s[i].projects + [Merge(BlankProject(freshId, now), body)];
      var t := s[i := s[i].(projects := projects)];
      Step(t, Ok(201, projects[|projects| - 1]))
  }

  /** PUT /api/profiles/me/projects/:projectId: shallow-merges the body into the first entry with that id. */
  function UpdateProject(s: ProfileStore, user: Accounts.Claims, projectId: ProjectId, body: ProjectPatch): (r: Step<ProfileDoc>)
    ensures !HasProfile(s, user.id) ==> r == Step(s, Failed(404, "Profile not found"))
    ensures HasProfile(s, user.id) ==>
      var i := OwnIndex(s, user.id).value;
      var ps := s[i].projects;
      && ((forall k :: 0 <= k < |ps| ==> ps[k].id != projectId) ==> r == Step(s, Failed(404, "Project not found")))
      && ((exists k :: 0 <= k < |ps| && ps[k].id == projectId) ==>
            && OnlyDocChanged(s, r.store, i)
            && r.reply == Ok(200, r.store[i])
            && (exists k :: 0 <= k < |ps| && ps[k].id == projectId
                  && (forall m :: 0 <= m < k ==> ps[m].id != projectId)
                  && r.store[i] == s[i].(projects := ps[k := Merge(ps[k], body)])))
  {
    match OwnIndex(s, user.id)
    case None => Step(s, Failed(404, "Profile not found"))
    case Some(i) =>
      var ps := s[i].projects;
      match FindFirst(ps, (p: Project) => p.id == projectId)
      case None => Step(s, Failed(404, "Project not found"))
      case Some(k) =>
        var t := s[i := s[i].(projects := ps[k := Merge(ps[k], body)])];
        Step(t, Ok(200, t[i]))
  }

  /** DELETE /api/profiles/me/projects/:projectId: drops every entry with that id; no match is not an error. */
  function DeleteProject(s: ProfileStore, user: Accounts.Claims, projectId: ProjectId): (r: Step<ProfileDoc>)
    ensures !HasProfile(s, user.id) ==> r == Step(s, Failed(404, "Profile not found"))
    ensures HasProfile(s, user.id) ==>
      var i := OwnIndex(s, user.id).value;
      && OnlyDocChanged(s, r.store, i)
      && r.reply == Ok(200, r.store[i])
      && r.store[i] == s[i].(projects := Filter(s[i].projects, (p: Project) => p.id != projectId))
  {
    match OwnIndex(s, user.id)
    case None => Step(s, Failed(404, "Profile not found"))
    case Some(i) =>
      var t := s[i := s[i].(projects := Filter(s[i].projects, (p: Project) => p.id != projectId))];
      Step(t, Ok(200, t[i]))
  }
}
