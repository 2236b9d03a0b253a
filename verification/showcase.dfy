/**
 * The project showcase of the professional public template: the category
 * chips, the technology chips, the search box and the reset button, over
 * the (possibly holey) `projects` array of a public profile. A `None`
 * entry is a `null` element of that array.
 */
module Showcase {
  import opened Wrappers
  import opened Seqs
  import opened Text
  import opened Portfolio
  import Accounts
  import Profiles

  type Listing = seq<Option<Project>>

  /** The label a project contributes to the category chips; a missing category shows as "Uncategorized". */
  function DisplayCategory(p: Option<Project>): (c: string)
    ensures p.Some? && p.value.category.Some? ==> c == p.value.category.value
    ensures p.None? || p.value.category.None? ==> c == "Uncategorized"
  {
    if p.Some? && p.value.category.Some? then p.value.category.value else "Uncategorized"
  }

  /** Each entry's displayed category, in list order. */
  function Labels(ps: Listing): (labels: seq<string>)
    ensures |labels| == |ps| && forall i :: 0 <= i < |ps| ==> labels[i] == DisplayCategory(ps[i])
  {
    seq(|ps|, i requires 0 <= i < |ps| => DisplayCategory(ps[i]))
  }

  /** The category chips: "all" first, then every displayed category once, in first-seen order. */
  function Categories(ps: Listing): (r: seq<string>)
    ensures |r| >= 1 && r[0] == "all"
    ensures NoDuplicates(r[1..])
    ensures forall c :: c in r[1..] <==> exists i :: 0 <= i < |ps| && DisplayCategory(ps[i]) == c
    ensures forall i, j :: 1 <= i < j < |r| ==>
      && r[i] in Labels(ps) && r[j] in Labels(ps)
      && IndexOf(Labels(ps), r[i]) < IndexOf(Labels(ps), r[j])
  {
    var labels := Labels(ps);
    assert forall c :: c in labels <==> exists i :: 0 <= i < |ps| && DisplayCategory(ps[i]) == c by {
      forall c ensures c in labels <==> exists i :: 0 <= i < |ps| && DisplayCategory(ps[i]) == c {
        if exists i :: 0 <= i < |ps| && DisplayCategory(ps[i]) == c {
          var i :| 0 <= i < |ps| && DisplayCategory(ps[i]) == c;
          assert labels[i] == c;
        }
      }
    }
    var r := ["all"] + Distinct(labels);
    assert r[1..] == Distinct(labels);
    r
  }

  /** The technologies of an entry; a `null` entry has none. */
  function TechOf(p: Option<Project>): seq<string> {
    if p.Some? then p.value.techStack else []
  }

  /** The technology chips: every technology of every entry once, in first-seen order. */
  function AllTech(ps: Listing): (r: seq<string>)
    ensures NoDuplicates(r)
    ensures forall t :: t in r <==> exists p :: p in ps && p.Some? && t in p.value.techStack
    ensures forall i, j :: 0 <= i < j < |r| ==>
      && r[i] in FlatMap(ps, TechOf) && r[j] in FlatMap(ps, TechOf)
      && IndexOf(FlatMap(ps, TechOf), r[i]) < IndexOf(FlatMap(ps, TechOf), r[j])
  {
    Distinct(FlatMap(ps, TechOf))
  }

  /** One searched text: present and containing the query, ignoring ASCII case; an empty query is found in any present text. */
  function MentionedIn(text: Option<string>, query: string): (b: bool)
    ensures b ==> text.Some?
    ensures text.Some? && query == "" ==> b
  {
    text.Some? && (IncludesEmpty(Lower(text.value)); Includes(Lower(text.value), Lower(query)))
  }

  /**
   * The search box: the title or else the description contains the query,
   * ignoring ASCII case. An entry without both texts never matches; with
   * an empty query every entry with either text does.
   */
  function SearchMatches(p: Option<Project>, query: string): (b: bool)
    ensures b ==> p.Some? && (p.value.title.Some? || p.value.description.Some?)
    ensures query == "" ==> (b <==> p.Some? && (p.value.title.Some? || p.value.description.Some?))
  {
    p.Some? && (MentionedIn(p.value.title, query) || MentionedIn(p.value.description, query))
  }

  /** The search lower-cases the query first, so a query and its lower-case form match the same entries. */
  lemma SearchIgnoresCase(p: Option<Project>, query: string)
    ensures SearchMatches(p, query) == SearchMatches(p, Lower(query))
  {
    LowerIdempotent(query);
  }

  /**
   * The technology chips: nothing selected, or the entry uses some selected
   * technology. A single chip keeps exactly the entries using it; an entry
   * with no technologies survives only an empty selection.
   */
  function TechMatches(p: Option<Project>, selected: seq<string>): (b: bool)
    ensures selected == [] ==> b
    ensures |selected| == 1 ==> (b <==> p.Some? && selected[0] in p.value.techStack)
    ensures selected != [] && (p.None? || p.value.techStack == []) ==> !b
  {
    |selected| == 0 || exists t :: t in selected && p.Some? && t in p.value.techStack
  }

  /**
   * The category test as the template writes it: the stored category must
   * equal the chip. It agrees with the displayed label on every chip except
   * "Uncategorized", where it can only be stricter.
   */
  function CategoryMatchesAsWritten(p: Option<Project>, filter: string): (b: bool)
    ensures b ==> CategoryMatches(p, filter)
    ensures filter != "Uncategorized" ==> (b <==> CategoryMatches(p, filter))
  {
    filter == "all" || (p.Some? && p.value.category == Some(filter))
  }

  /** The category test the chips call for: the displayed category must equal the chip. */
  predicate CategoryMatches(p: Option<Project>, filter: string) {
    filter == "all" || DisplayCategory(p) == filter
  }

  /** The projects shown under a chip, a query and a technology selection, as written. */
  function FilterProjectsAsWritten(ps: Listing, filter: string, query: string, selected: seq<string>): (r: Listing)
    ensures IsSubseq(r, ps)
    ensures forall p :: p in r <==>
      p in ps && CategoryMatchesAsWritten(p, filter) && SearchMatches(p, query) && TechMatches(p, selected)
    ensures forall p :: multiset(r)[p] == if p in r then multiset(ps)[p] else 0
  {
    var keep := (p: Option<Project>) =>
      CategoryMatchesAsWritten(p, filter) && SearchMatches(p, query) && TechMatches(p, selected);
    FilterMultiplicity(ps, keep);
    Filter(ps, keep)
  }

  /** The projects shown, with the category test the chips call for. */
  function FilterProjects(ps: Listing, filter: string, query: string, selected: seq<string>): (r: Listing)
    ensures IsSubseq(r, ps)
    ensures forall p :: p in r <==>
      p in ps && CategoryMatches(p, filter) && SearchMatches(p, query) && TechMatches(p, selected)
    ensures forall p :: multiset(r)[p] == if p in r then multiset(ps)[p] else 0
  {
    var keep := (p: Option<Project>) =>
      CategoryMatches(p, filter) && SearchMatches(p, query) && TechMatches(p, selected);
    FilterMultiplicity(ps, keep);
    Filter(ps, keep)
  }

  /** A technology chip click: deselect it if selected, otherwise append it. */
  function ToggleTech(selected: seq<string>, tech: string): (r: seq<string>)
    ensures tech in r <==> tech !in selected
    ensures forall t :: t != tech ==> (t in r <==> t in selected)
    ensures tech !in selected ==> r == selected + [tech]
    ensures tech in selected ==> IsSubseq(r, selected)
    ensures tech in selected ==> forall t :: multiset(r)[t] == if t == tech then 0 else multiset(selected)[t]
  {
    FilterMultiplicity(selected, (t: string) => t != tech);
    if tech in selected then Filter(selected, (t: string) => t != tech) else selected + [tech]
  }

  /** Clicking a chip keeps the selection free of duplicates. */
  lemma ToggleKeepsDistinct(selected: seq<string>, tech: string)
    requires NoDuplicates(selected)
    ensures NoDuplicates(ToggleTech(selected, tech))
  {
    if tech in selected {
      FilterNoDuplicates(selected, (t: string) => t != tech);
    }
  }

  /** Clicking an unselected chip twice restores the selection exactly. */
  lemma ToggleTwice(selected: seq<string>, tech: string)
    requires tech !in selected
    ensures ToggleTech(ToggleTech(selected, tech), tech) == selected
  {
    var keep := (t: string) => t != tech;
    FilterConcat(selected, [tech], keep);
    FilterAllPass(selected, keep);
    assert Filter([tech], keep) == [];
  }

  /**
   * After "Reset Filters" (chip "all", empty query, no technology), an entry
   * is shown exactly when it is present and has a title or a description.
   */
  lemma ResetShowsAllDescribed(ps: Listing)
    ensures forall p :: p in FilterProjectsAsWritten(ps, "all", "", []) <==>
      p in ps && p.Some? && (p.value.title.Some? || p.value.description.Some?)
    ensures FilterProjects(ps, "all", "", []) == FilterProjectsAsWritten(ps, "all", "", [])
  {
    FixAgreesOffUncategorized(ps, "all", "", []);
    forall p | p in ps && p.Some? && (p.value.title.Some? || p.value.description.Some?)
      ensures SearchMatches(p, "")
    {
      assert Lower("") == "";
      if p.value.title.Some? {
        IncludesEmpty(Lower(p.value.title.value));
      } else {
        IncludesEmpty(Lower(p.value.description.value));
      }
    }
  }

  /** When every entry is present and titled, resetting shows the whole list in order. */
  lemma ResetShowsEverything(ps: Listing)
    requires forall i :: 0 <= i < |ps| ==> ps[i].Some? && ps[i].value.title.Some?
    ensures FilterProjectsAsWritten(ps, "all", "", []) == ps
  {
    ResetShowsAllDescribed(ps);
    FilterAllPass(ps, (p: Option<Project>) =>
      CategoryMatchesAsWritten(p, "all") && SearchMatches(p, "") && TechMatches(p, []));
  }

  /** The two category tests agree on every chip but "Uncategorized". */
  lemma FixAgreesOffUncategorized(ps: Listing, filter: string, query: string, selected: seq<string>)
    requires filter != "Uncategorized"
    ensures FilterProjectsAsWritten(ps, filter, query, selected) == FilterProjects(ps, filter, query, selected)
  {
    var f := (p: Option<Project>) =>
      CategoryMatchesAsWritten(p, filter) && SearchMatches(p, query) && TechMatches(p, selected);
    var g := (p: Option<Project>) =>
      CategoryMatches(p, filter) && SearchMatches(p, query) && TechMatches(p, selected);
    FilterSamePredicate(ps, f, g);
  }

  /** The sample entry of the counterexample: titled, with no category. */
  const Untagged := Project("p1", Some("Portfolio"), None, [], [], None, None, None, false, 0)

  /**
   * As written, the "Uncategorized" chip offered for a project without a
   * category shows nothing, even with an empty query.
   */
  lemma UncategorizedChipShowsNothing()
    ensures "Uncategorized" in Categories([Some(Untagged)])[1..]
    ensures FilterProjectsAsWritten([Some(Untagged)], "Uncategorized", "", []) == []
  {
    assert DisplayCategory([Some(Untagged)][0]) == "Uncategorized";
  }

  /**
   * With the corrected test, every chip offered for a list of titled
   * entries shows at least one of them when the query is empty and no
   * technology is selected.
   */
  lemma EveryChipShowsSomething(ps: Listing, c: string)
    requires forall i :: 0 <= i < |ps| ==> ps[i].Some? && ps[i].value.title.Some?
    requires c in Categories(ps) && |ps| > 0
    ensures |FilterProjects(ps, c, "", [])| > 0
  {
    ResetShowsAllDescribed(ps);
    var i: int := 0;
    if c != "all" {
      assert c in Categories(ps)[1..] by {
        var k :| 0 <= k < |Categories(ps)| && Categories(ps)[k] == c;
        assert k != 0;
        assert Categories(ps)[1..][k - 1] == c;
      }
      i :| 0 <= i < |ps| && DisplayCategory(ps[i]) == c;
    }
    assert ps[i] in ps;
    assert SearchMatches(ps[i], "");
    assert ps[i] in FilterProjects(ps, c, "", []);
  }

  /**
   * Every technology chip offered for a list of titled entries shows
   * something when it alone is selected (under "all" and an empty query),
   * and what it shows is exactly the entries that use it.
   */
  lemma EveryTechChipShowsSomething(ps: Listing, t: string)
    requires forall i :: 0 <= i < |ps| ==> ps[i].Some? && ps[i].value.title.Some?
    requires t in AllTech(ps)
    ensures |FilterProjectsAsWritten(ps, "all", "", [t])| > 0
    ensures forall p :: p in FilterProjectsAsWritten(ps, "all", "", [t]) <==>
      p in ps && p.Some? && t in p.value.techStack
  {
    ResetShowsAllDescribed(ps);
    forall p | p in ps && p.Some? && t in p.value.techStack
      ensures p in FilterProjectsAsWritten(ps, "all", "", [t])
    {
      assert p in FilterProjectsAsWritten(ps, "all", "", []);
      assert t in [t];
    }
    var p :| p in ps && p.Some? && t in p.value.techStack;
    assert p in FilterProjectsAsWritten(ps, "all", "", [t]);
  }

  /** The name in the navigation bar: the profile name, else the username, else a fixed label; never empty. */
  function DisplayName(name: Option<string>, username: Option<string>): (r: string)
    ensures r != ""
    ensures name.Some? && name.value != "" ==> r == name.value
    ensures (name.None? || name.value == "") && username.Some? && username.value != "" ==> r == username.value
    ensures r == name.GetOr("") || r == username.GetOr("") || r == "My Profile"
  {
    if name.Some? && name.value != "" then name.value
    else if username.Some? && username.value != "" then username.value
    else "My Profile"
  }

  /**
   * A freshly created profile is shown under the local part of its owner's
   * e-mail, or under its username when that part is empty.
   */
  lemma NewProfileDisplayName(s: Profiles.ProfileStore, user: Accounts.Claims, username: string)
    requires !Profiles.UsernameTaken(s, username) && username != ""
    ensures var doc := Profiles.CreateProfile(s, user, username).reply.value;
      var local := Split(user.email, '@')[0];
      DisplayName(doc.profile.name, Some(doc.username)) == if local != "" then local else username
  {
  }
}
