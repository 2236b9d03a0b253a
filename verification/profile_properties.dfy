/**
 * Properties of the profile routes: a username names at most one profile,
 * the stored template is always one the server accepts, project ids stay
 * unique, and the project routes compose as a client expects.
 */
module ProfileProperties {
  import opened Wrappers
  import opened Seqs
  import opened Portfolio
  import opened Profiles
  import Accounts

  /** No two profiles share a username. */
  ghost predicate UniqueUsernames(s: ProfileStore) {
    forall a, b :: 0 <= a < b < |s| ==> s[a].username != s[b].username
  }

  /** No two entries of a project list share an id. */
  ghost predicate UniqueProjectIds(ps: seq<Project>) {
    forall a, b :: 0 <= a < b < |ps| ==> ps[a].id != ps[b].id
  }

  /** The store invariant the profile routes keep. */
  ghost predicate StoreOk(s: ProfileStore) {
    && UniqueUsernames(s)
    && (forall i :: 0 <= i < |s| ==> TemplateAllowed(s[i].template))
    && (forall i :: 0 <= i < |s| ==> UniqueProjectIds(s[i].projects))
  }

  /** The id of a new project is fresh when no entry of the owner's list carries it. */
  ghost predicate FreshProjectId(ps: seq<Project>, id: ProjectId) {
    forall k :: 0 <= k < |ps| ==> ps[k].id != id
  }

  /** Replacing one document whose owner is kept leaves every owner lookup where it was. */
  lemma OwnIndexStable(s: ProfileStore, t: ProfileStore, i: nat, owner: UserId)
    requires OnlyDocChanged(s, t, i) && t[i].owner == s[i].owner
    ensures OwnIndex(t, owner) == OwnIndex(s, owner)
  {
    assert forall j :: 0 <= j < |s| ==> t[j].owner == s[j].owner;
  }

  /** A username reported free can be claimed, and afterwards it is reported taken. */
  lemma CreateThenCheck(s: ProfileStore, user: Accounts.Claims, username: string)
    requires username != ""
    requires CheckUsername(s, Some(username)) == Ok(200, false)
    ensures CreateProfile(s, user, username).reply.Ok?
    ensures CheckUsername(CreateProfile(s, user, username).store, Some(username)) == Ok(200, true)
  {
    var t := CreateProfile(s, user, username).store;
    assert t[|s|].username == username;
  }

  /**
   * As written, a profile named after a shadowed segment can be created but
   * is never served: a visitor's GET of its path, which carries no
   * Authorization header, is answered by another route with an error.
   */
  lemma ShadowedUsernameNeverServed(s: ProfileStore, user: Accounts.Claims, username: string,
                                    verify: string -> Option<Accounts.Claims>)
    requires username in ShadowedSegments && !UsernameTaken(s, username)
    ensures var t := CreateProfile(s, user, username);
      && t.reply.Ok?
      && UsernameTaken(t.store, username)
      && GetProfilePath(t.store, username, None, verify).Failed?
  {
    var t := CreateProfile(s, user, username);
    assert t.store[|s|].username == username;
  }

  /** No stored username is a shadowed segment. */
  ghost predicate NoShadowedNames(s: ProfileStore) {
    forall i :: 0 <= i < |s| ==> s[i].username !in ShadowedSegments
  }

  /** The intended create keeps every stored username off the shadowed segments. */
  lemma ReservingKeepsNoShadowedNames(s: ProfileStore, user: Accounts.Claims, username: string)
    requires NoShadowedNames(s)
    ensures NoShadowedNames(CreateProfileReserving(s, user, username).store)
  {
  }

  /** In a store without shadowed names, a visitor's GET of any stored username serves a profile of that name. */
  lemma NoShadowedNamesAllServed(s: ProfileStore, i: nat, header: Option<string>,
                                 verify: string -> Option<Accounts.Claims>)
    requires NoShadowedNames(s) && i < |s|
    ensures GetProfilePath(s, s[i].username, header, verify).Ok?
    ensures GetProfilePath(s, s[i].username, header, verify).value.username == s[i].username
  {
    assert UsernameTaken(s, s[i].username);
  }

  /** Creating a profile keeps the store invariant. */
  lemma CreateKeepsOk(s: ProfileStore, user: Accounts.Claims, username: string)
    requires StoreOk(s)
    ensures StoreOk(CreateProfile(s, user, username).store)
  {
    var r := CreateProfile(s, user, username);
    if !UsernameTaken(s, username) {
      var t := r.store;
      forall a, b | 0 <= a < b < |t| ensures t[a].username != t[b].username {
        if b == |s| {
          assert t[a] == s[a];
        }
      }
    }
  }

  /** Setting the template keeps the store invariant: a refused name is never stored. */
  lemma UpdateTemplateKeepsOk(s: ProfileStore, user: Accounts.Claims, template: Option<string>)
    requires StoreOk(s)
    ensures StoreOk(UpdateTemplate(s, user, template).store)
  {
  }

  /** Replacing the nested profile keeps the store invariant. */
  lemma UpdateProfileInfoKeepsOk(s: ProfileStore, user: Accounts.Claims, info: ProfileInfo)
    requires StoreOk(s)
    ensures StoreOk(UpdateProfileInfo(s, user, info).store)
  {
  }

  /** Adding a project under a fresh id keeps the store invariant. */
  lemma AddProjectKeepsOk(s: ProfileStore, user: Accounts.Claims, body: ProjectPatch, freshId: ProjectId, now: int)
    requires StoreOk(s) && body.id.None?
    requires HasProfile(s, user.id) ==> FreshProjectId(s[OwnIndex(s, user.id).value].projects, freshId)
    ensures StoreOk(AddProject(s, user, body, freshId, now).store)
  {
    if HasProfile(s, user.id) {
      var i := OwnIndex(s, user.id).value;
      var ps := s[i].projects;
      var qs := AddProject(s, user, body, freshId, now).store[i].projects;
      assert qs == ps + [Merge(BlankProject(freshId, now), body)];
      forall a, b | 0 <= a < b < |qs| ensures qs[a].id != qs[b].id {
        if b == |ps| {
          assert qs[a] == ps[a];
        }
      }
    }
  }

  /** Deleting projects keeps the store invariant. */
  lemma DeleteProjectKeepsOk(s: ProfileStore, user: Accounts.Claims, projectId: ProjectId)
    requires StoreOk(s)
    ensures StoreOk(DeleteProject(s, user, projectId).store)
  {
    if HasProfile(s, user.id) {
      var i := OwnIndex(s, user.id).value;
      FilterUniqueIds(s[i].projects, (p: Project) => p.id != projectId);
    }
  }

  /** Keeping a subsequence of a list with unique ids keeps the ids unique. */
  lemma {:induction false} FilterUniqueIds(ps: seq<Project>, keep: Project -> bool)
    requires UniqueProjectIds(ps)
    ensures UniqueProjectIds(Filter(ps, keep))
    decreases |ps|
  {
    if ps != [] {
      assert UniqueProjectIds(ps[1..]);
      FilterUniqueIds(ps[1..], keep);
      var rest := Filter(ps[1..], keep);
      assert forall q :: q in rest ==> q in ps[1..];
      forall k | 0 <= k < |rest| ensures rest[k].id != ps[0].id {
        assert rest[k] in ps[1..];
      }
      assert Filter(ps, keep) == if keep(ps[0]) then [ps[0]] + rest else rest;
    }
  }

  /** Adding a project under a fresh id and then deleting that id restores the store. */
  lemma AddThenDeleteRestores(s: ProfileStore, user: Accounts.Claims, body: ProjectPatch, freshId: ProjectId, now: int)
    requires HasProfile(s, user.id) && body.id.None?
    requires FreshProjectId(s[OwnIndex(s, user.id).value].projects, freshId)
    ensures DeleteProject(AddProject(s, user, body, freshId, now).store, user, freshId).store == s
  {
    var i := OwnIndex(s, user.id).value;
    var ps := s[i].projects;
    var added := Merge(BlankProject(freshId, now), body);
    var t := AddProject(s, user, body, freshId, now).store;
    OwnIndexStable(s, t, i, user.id);
    var keep := (p: Project) => p.id != freshId;
    FilterConcat(ps, [added], keep);
    FilterAllPass(ps, keep);
    assert Filter([added], keep) == [];
    var u := DeleteProject(t, user, freshId).store;
    assert u[i] == s[i];
  }

  /** After the nested profile is replaced, the owner reads back exactly what was written. */
  lemma UpdateProfileInfoThenGet(s: ProfileStore, user: Accounts.Claims, info: ProfileInfo)
    requires HasProfile(s, user.id)
    ensures var t := UpdateProfileInfo(s, user, info).store;
      GetOwnProfile(t, user).Ok? && GetOwnProfile(t, user).value.profile == info
  {
    var i := OwnIndex(s, user.id).value;
    OwnIndexStable(s, UpdateProfileInfo(s, user, info).store, i, user.id);
  }

  /** An edit that carries no id keeps the number of projects and their ids. */
  lemma UpdateProjectKeepsIds(s: ProfileStore, user: Accounts.Claims, projectId: ProjectId, body: ProjectPatch)
    requires HasProfile(s, user.id) && body.id.None?
    ensures var i := OwnIndex(s, user.id).value;
      var qs := UpdateProject(s, user, projectId, body).store[i].projects;
      && |qs| == |s[i].projects|
      && forall k :: 0 <= k < |qs| ==> qs[k].id == s[i].projects[k].id
  {
  }

  /** An edit that carries no id keeps the store invariant. */
  lemma UpdateProjectKeepsOk(s: ProfileStore, user: Accounts.Claims, projectId: ProjectId, body: ProjectPatch)
    requires StoreOk(s) && body.id.None?
    ensures StoreOk(UpdateProject(s, user, projectId, body).store)
  {
  }

  /** After a delete no entry carries the id, and every entry with another id survives. */
  lemma DeleteRemovesExactly(s: ProfileStore, user: Accounts.Claims, projectId: ProjectId)
    requires HasProfile(s, user.id)
    ensures var i := OwnIndex(s, user.id).value;
      var qs := DeleteProject(s, user, projectId).store[i].projects;
      && (forall k :: 0 <= k < |qs| ==> qs[k].id != projectId)
      && (forall p :: p in s[i].projects && p.id != projectId ==> p in qs)
  {
    var i := OwnIndex(s, user.id).value;
    var qs := DeleteProject(s, user, projectId).store[i].projects;
    forall k | 0 <= k < |qs| ensures qs[k].id != projectId {
      assert qs[k] in qs;
    }
  }
}
