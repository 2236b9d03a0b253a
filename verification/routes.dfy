/**
 * Client-side path classification: which paths are public profile pages
 * (`/:username`), on which the navigation bar is hidden.
 */
module Routes {
  import opened Text

  /** The static routes that are never profile pages. */
  const NonProfileRoutes: seq<string> :=
    ["/", "/dashboard", "/login", "/signup", "/forgot-password", "/reset-password", "/verify-email"]

  /** `path.replace(/\/+$/, "")`: drop every trailing slash. */
  function StripTrailingSlashes(path: string): (r: string)
    ensures |r| <= |path| && r == path[..|r|]
    ensures forall i :: |r| <= i < |path| ==> path[i] == '/'
    ensures r == [] || r[|r| - 1] != '/'
  {
    if |path| > 0 && path[|path| - 1] == '/' then StripTrailingSlashes(path[..|path| - 1]) else path
  }

  /** The cleaned path is a listed route or lies below one. */
  predicate UnderListedRoute(clean: string) {
    exists route :: route in NonProfileRoutes && (clean == route || StartsWith(clean, route + "/"))
  }

  /**
   * A public profile path: one slash after cleaning, and not under a listed
   * route; in particular the cleaned path is not itself a listed route.
   */
  function IsPublicProfilePath(path: string): (b: bool)
    ensures b ==> var clean := StripTrailingSlashes(path); Count(clean, '/') == 1 && clean !in NonProfileRoutes
  {
    var clean := StripTrailingSlashes(path);
    assert clean in NonProfileRoutes ==> UnderListedRoute(clean);
    |Split(clean, '/')| == 2 && !UnderListedRoute(clean)
  }

  /**
   * The navigation bar is hidden on public profile pages and shown
   * everywhere else: exactly when the cleaned path has other than one
   * slash, or is itself a listed route.
   */
  function NavbarShown(path: string): (shown: bool)
    ensures shown <==>
      var clean := StripTrailingSlashes(path);
      Count(clean, '/') != 1 || clean in NonProfileRoutes
  {
    PublicProfileCharacterized(path);
    !IsPublicProfilePath(path)
  }

  /** A trailing slash does not change the classification. */
  lemma TrailingSlashIrrelevant(path: string)
    ensures StripTrailingSlashes(path + "/") == StripTrailingSlashes(path)
    ensures IsPublicProfilePath(path + "/") <==> IsPublicProfilePath(path)
  {
    assert (path + "/")[..|path|] == path;
  }

  /** Stripping is idempotent. */
  lemma StripIdempotent(path: string)
    ensures StripTrailingSlashes(StripTrailingSlashes(path)) == StripTrailingSlashes(path)
  {
  }

  /** Every listed route begins with a slash. */
  lemma ListedRoutesRooted()
    ensures forall route :: route in NonProfileRoutes ==> |route| >= 1 && route[0] == '/'
  {
  }

  /**
   * On a one-slash path the prefix test is dead: a listed route followed by
   * "/" holds two slashes, so only equality with a listed route can exclude it.
   */
  lemma PrefixTestIsDead(clean: string, route: string)
    requires Count(clean, '/') == 1
    requires route in NonProfileRoutes
    ensures !StartsWith(clean, route + "/")
  {
    ListedRoutesRooted();
    if StartsWith(clean, route + "/") {
      var head := route + "/";
      assert clean == head + clean[|head|..];
      CountConcat(head, clean[|head|..], '/');
      assert route == [route[0]] + route[1..];
      CountConcat(route, "/", '/');
      CountConcat([route[0]], route[1..], '/');
      assert false;
    }
  }

  /** A path is a profile path exactly when its cleaned form has one slash and is not a listed route. */
  lemma PublicProfileCharacterized(path: string)
    ensures IsPublicProfilePath(path) <==>
      var clean := StripTrailingSlashes(path);
      Count(clean, '/') == 1 && clean !in NonProfileRoutes
  {
    var clean := StripTrailingSlashes(path);
    if Count(clean, '/') == 1 {
      forall route | route in NonProfileRoutes ensures !StartsWith(clean, route + "/") {
        PrefixTestIsDead(clean, route);
      }
    }
  }

  /** No listed route is a profile path, with or without a trailing slash. */
  lemma ListedRoutesNeverProfiles(route: string)
    requires route in NonProfileRoutes
    ensures !IsPublicProfilePath(route)
    ensures !IsPublicProfilePath(route + "/")
    ensures NavbarShown(route)
  {
    TrailingSlashIrrelevant(route);
    assert route[|route| - 1] != '/' ==> StripTrailingSlashes(route) == route;
    if route == "/" {
      assert StripTrailingSlashes(route) == "";
    }
  }

  /**
   * Any single non-empty segment without a slash that is not a listed route
   * is a profile path, with or without a trailing slash, and hides the navbar.
   */
  lemma SingleSegmentIsProfile(name: string)
    requires name != [] && '/' !in name && "/" + name !in NonProfileRoutes
    ensures IsPublicProfilePath("/" + name) && IsPublicProfilePath("/" + name + "/")
    ensures !NavbarShown("/" + name)
  {
    var p := "/" + name;
    assert p[|p| - 1] == name[|name| - 1];
    assert StripTrailingSlashes(p) == p;
    SplitSepFree(name, '/');
    CountConcat("/", name, '/');
    PublicProfileCharacterized(p);
    TrailingSlashIrrelevant(p);
  }

  /** "/alice" is a profile path, with or without a trailing slash. */
  lemma AliceIsProfile()
    ensures IsPublicProfilePath("/alice") && IsPublicProfilePath("/alice/")
  {
    forall route | route in NonProfileRoutes ensures route != "/alice" {
      if |route| == 6 {
        assert route == "/login";
        assert route[1] != "/alice"[1];
      }
    }
    SingleSegmentIsProfile("alice");
    assert "/" + "alice" + "/" == "/alice/";
  }

  /** "", "/" and "alice" have no second segment, so none is a profile path. */
  lemma ShortPathsAreNotProfiles()
    ensures !IsPublicProfilePath("") && !IsPublicProfilePath("/") && !IsPublicProfilePath("alice")
  {
    assert StripTrailingSlashes("/") == "";
    assert StripTrailingSlashes("alice") == "alice";
    assert Count("alice", '/') == 0;
  }

  /** "/a/b" has two slashes, so it is not a profile path. */
  lemma NestedPathIsNotProfile()
    ensures !IsPublicProfilePath("/a/b")
  {
    assert StripTrailingSlashes("/a/b") == "/a/b";
    assert Count("/a/b", '/') == 2;
  }
}
