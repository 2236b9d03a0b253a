/**
 * Template handling on the client: the selector's catalogue, its click
 * guard and apply button, the apply request against the server's template
 * route, and the public page's choice of layout.
 */
module Templates {
  import opened Wrappers
  import opened Seqs
  import Accounts
  import Session
  import Profiles

  /** One card of the selector. */
  datatype Card = Card(id: string, enabled: bool)

  /** The selector's cards; only the default layout can be chosen. */
  const Catalogue: seq<Card> := [Card("default", true), Card("minimal", false), Card("professional", false)]

  /** `templates.find(t => t.id === id)?.enabled`: a name with no card is not enabled. */
  function IsEnabled(id: string): (b: bool)
    ensures b <==> exists k :: 0 <= k < |Catalogue| && Catalogue[k].id == id && Catalogue[k].enabled
  {
    match FindFirst(Catalogue, (c: Card) => c.id == id)
    case None => false
    case Some(k) => Catalogue[k].enabled
  }

  /** The catalogue offers exactly the names the server accepts, and only "default" is enabled. */
  lemma CatalogueAgreesWithServer()
    ensures |Catalogue| == |Profiles.ValidTemplates|
    ensures forall k :: 0 <= k < |Catalogue| ==> Catalogue[k].id == Profiles.ValidTemplates[k]
    ensures forall id :: IsEnabled(id) <==> id == "default"
  {
  }

  datatype Selector = Selector(selected: string, submitting: bool, error: Option<string>)

  /** A card click selects it only if it is enabled. */
  function Click(st: Selector, k: nat): (r: Selector)
    requires k < |Catalogue|
    ensures Catalogue[k].enabled ==> r == st.(selected := Catalogue[k].id)
    ensures !Catalogue[k].enabled ==> r == st
  {
    if Catalogue[k].enabled then st.(selected := Catalogue[k].id) else st
  }

  /** Clicking never selects a disabled layout: an enabled selection stays enabled. */
  lemma ClickKeepsSelectionEnabled(st: Selector, k: nat)
    requires k < |Catalogue| && IsEnabled(st.selected)
    ensures IsEnabled(Click(st, k).selected)
  {
  }

  /** The apply button is disabled when nothing would change, a request is in flight, or the choice is not enabled. */
  function ApplyDisabled(st: Selector, current: string): (b: bool)
    ensures !b <==> st.selected != current && !st.submitting && IsEnabled(st.selected)
  {
    st.selected == current || st.submitting || !IsEnabled(st.selected)
  }

  /** With only "default" enabled, applying is possible only to move a profile back to "default". */
  lemma ApplyOnlyToDefault(st: Selector, current: string)
    requires !ApplyDisabled(st, current)
    ensures st.selected == "default" && current != "default"
  {
    CatalogueAgreesWithServer();
  }

  /** The selection follows the current template whenever the page passes a new one. */
  function Resync(st: Selector, current: string): (r: Selector)
    ensures r.selected == current && r.submitting == st.submitting && r.error == st.error
  {
    st.(selected := current)
  }

  /**
   * Right after a resync the apply button is disabled, since the selection
   * is the current template; and the synced selection is an enabled card
   * exactly when the stored template is "default" or empty.
   */
  lemma ResyncDisablesApply(st: Selector, stored: string)
    ensures ApplyDisabled(Resync(st, CurrentTemplate(stored)), CurrentTemplate(stored))
    ensures IsEnabled(Resync(st, CurrentTemplate(stored)).selected) <==> stored == "" || stored == "default"
  {
    CatalogueAgreesWithServer();
  }

  /** The template the dashboard passes to the selector: the stored one, or "default" when empty. */
  function CurrentTemplate(stored: string): (t: string)
    ensures t != ""
    ensures stored != "" ==> t == stored
    ensures stored == "" ==> t == "default"
  {
    if stored == "" then "default" else stored
  }

  // ---------------------------------------------------------------- applying

  /** The end of an apply: the selector's state and the value handed to the page's callback, if it ran. */
  datatype ApplyEnd = ApplyEnd(selector: Selector, callback: Option<Option<string>>, store: Profiles.ProfileStore)

  /**
   * One apply round trip: the request reaches the server's middleware with
   * the given Authorization header, then the template route; a non-2xx
   * reply sets "Failed to update template", a 2xx one hands the stored
   * template to the callback.
   */
  function ApplyWith(
    store: Profiles.ProfileStore, st: Selector, header: Option<string>,
    verify: string -> Option<Accounts.Claims>): (r: ApplyEnd)
    ensures !r.selector.submitting
    ensures r.callback.Some? <==> r.selector.error.None?
    ensures r.callback.None? ==> r.selector.error == Some("Failed to update template") && r.store == store
    ensures Session.Authenticate(header, verify).Rejected? ==> r.callback.None?
    ensures r.callback.Some? ==> r.callback == Some(Some(st.selected))
  {
    match Session.Authenticate(header, verify)
    case Rejected(_, _) => ApplyEnd(st.(submitting := false, error := Some("Failed to update template")), None, store)
    case Authenticated(claims) =>
      var step := Profiles.UpdateTemplate(store, claims, Some(st.selected));
      match step.reply
      case Failed(_, _) => ApplyEnd(st.(submitting := false, error := Some("Failed to update template")), None, store)
      case Ok(_, doc) => ApplyEnd(st.(submitting := false, error := None), Some(doc.template), step.store)
  }

  /** The request as the selector sends it: JSON content type only, no Authorization header. */
  function ApplyAsWritten(store: Profiles.ProfileStore, st: Selector, verify: string -> Option<Accounts.Claims>): (r: ApplyEnd)
    ensures r.callback.None? && r.store == store
    ensures r.selector == st.(submitting := false, error := Some("Failed to update template"))
  {
    ApplyWith(store, st, None, verify)
  }

  /**
   * The request with the stored session token as a bearer header, as the
   * other dashboard requests send it: a success hands the selection to the
   * callback, a failure stores nothing, and an empty or unsigned token fails.
   */
  function Apply(store: Profiles.ProfileStore, st: Selector, token: string, verify: string -> Option<Accounts.Claims>): (r: ApplyEnd)
    ensures r.callback.Some? ==> r.callback == Some(Some(st.selected)) && r.selector.error.None?
    ensures r.callback.None? ==> r.store == store && r.selector.error == Some("Failed to update template")
    ensures ' ' !in token && (token == "" || verify(token).None?) ==> r.callback.None? && r.store == store
  {
    if ' ' !in token then
      Session.MiddlewareOnBearer(token, verify);
      ApplyWith(store, st, Some(Session.BearerHeader(token)), verify)
    else ApplyWith(store, st, Some(Session.BearerHeader(token)), verify)
  }

  /** As written, every apply fails at the middleware: the store is untouched and the callback never runs. */
  lemma ApplyAsWrittenAlwaysFails(store: Profiles.ProfileStore, st: Selector, verify: string -> Option<Accounts.Claims>)
    ensures var r := ApplyAsWritten(store, st, verify);
      r.callback.None? && r.store == store && r.selector.error == Some("Failed to update template")
  {
  }

  /**
   * With the bearer header, a valid session of a user who has a profile
   * stores the selected layout and hands it to the callback.
   */
  lemma ApplyWithTokenSucceeds(
    store: Profiles.ProfileStore, st: Selector, token: string,
    verify: string -> Option<Accounts.Claims>)
    requires ' ' !in token && token != "" && verify(token).Some?
    requires Profiles.HasProfile(store, verify(token).value.id)
    requires Profiles.TemplateAllowed(Some(st.selected))
    ensures var r := Apply(store, st, token, verify);
      && r.callback == Some(Some(st.selected))
      && r.selector.error.None?
      && r.store == Profiles.UpdateTemplate(store, verify(token).value, Some(st.selected)).store
  {
    Session.MiddlewareOnBearer(token, verify);
  }

  // ---------------------------------------------------------------- public page

  datatype Layout = NoLayout | MinimalLayout | ProfessionalLayout | DefaultLayout

  /** `renderTemplate`: nothing without a profile; "minimal" and "professional" pick theirs; anything else the default. */
  function RenderTemplate(profile: Option<Profiles.ProfileDoc>): (l: Layout)
    ensures profile.None? <==> l == NoLayout
    ensures l == MinimalLayout <==> profile.Some? && profile.value.template == Some("minimal")
    ensures l == ProfessionalLayout <==> profile.Some? && profile.value.template == Some("professional")
  {
    if profile.None? then NoLayout
    else match profile.value.template
      case Some(t) =>
        if t == "minimal" then MinimalLayout
        else if t == "professional" then ProfessionalLayout
        else DefaultLayout
      case None => DefaultLayout
  }

  /** Every profile the server serves is drawn with some layout, and "default", "" or no template draw the default one. */
  lemma ServedProfilesRender(s: Profiles.ProfileStore, username: string)
    requires Profiles.UsernameTaken(s, username)
    ensures var r := Profiles.GetPublicProfile(s, username);
      && r.Ok?
      && RenderTemplate(Some(r.value)) != NoLayout
      && (r.value.template in {None, Some(""), Some("default")} ==> RenderTemplate(Some(r.value)) == DefaultLayout)
  {
  }
}
