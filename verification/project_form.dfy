/**
 * The "Add New Project" form of the dashboard: the draft, its field
 * handler, the technology tag editor and the reset after a submit.
 */
module ProjectForm {
  import opened Seqs
  import opened Text

  datatype Draft = Draft(
    title: string,
    description: string,
    techStack: seq<string>,
    category: string,
    liveUrl: string,
    githubUrl: string,
    featured: bool)

  /** The values the category select offers, "web" first. */
  const Categories: seq<string> := ["web", "mobile", "design", "other"]

  /** The form's initial (and post-submit) draft. */
  const InitialDraft := Draft("", "", [], "web", "", "", false)

  /** The form state: the draft, the technology input box and the in-flight flag. */
  datatype FormState = FormState(draft: Draft, techInput: string, submitting: bool)

  const InitialForm := FormState(InitialDraft, "", false)

  /** The named text inputs of the form. */
  datatype TextField = Title | Description | Category | LiveUrl | GithubUrl

  /** An input event: a text input's value, or the "featured" checkbox's `checked`. */
  datatype ChangeEvent = TextInput(field: TextField, value: string) | FeaturedBox(checked: bool)

  /** The field handler: only the named field changes, to the value (or `checked` for the checkbox). */
  function HandleChange(d: Draft, e: ChangeEvent): (r: Draft)
    ensures r.techStack == d.techStack
    ensures r.title == (if e.TextInput? && e.field == Title then e.value else d.title)
    ensures r.description == (if e.TextInput? && e.field == Description then e.value else d.description)
    ensures r.category == (if e.TextInput? && e.field == Category then e.value else d.category)
    ensures r.liveUrl == (if e.TextInput? && e.field == LiveUrl then e.value else d.liveUrl)
    ensures r.githubUrl == (if e.TextInput? && e.field == GithubUrl then e.value else d.githubUrl)
    ensures r.featured == (if e.FeaturedBox? then e.checked else d.featured)
  {
    match e
    case FeaturedBox(checked) => d.(featured := checked)
    case TextInput(field, value) =>
      match field
      case Title => d.(title := value)
      case Description => d.(description := value)
      case Category => d.(category := value)
      case LiveUrl => d.(liveUrl := value)
      case GithubUrl => d.(githubUrl := value)
  }

  /** The "Add" button: append the trimmed input if it is non-blank and new, and only then clear the box. */
  function HandleAddTech(st: FormState): (r: FormState)
    ensures var t := Trim(st.techInput);
      && (t != "" && t !in st.draft.techStack ==>
            r == st.(draft := st.draft.(techStack := st.draft.techStack + [t]), techInput := ""))
      && (t == "" || t in st.draft.techStack ==> r == st)
  {
    var t := Trim(st.techInput);
    if t != "" && t !in st.draft.techStack then
      st.(draft := st.draft.(techStack := st.draft.techStack + [t]), techInput := "")
    else st
  }

  /** A tag's remove button: drop every entry equal to it, keeping the order of the rest. */
  function RemoveTech(st: FormState, tech: string): (r: FormState)
    ensures r == st.(draft := st.draft.(techStack := r.draft.techStack))
    ensures IsSubseq(r.draft.techStack, st.draft.techStack)
    ensures forall t :: t in r.draft.techStack <==> t in st.draft.techStack && t != tech
    ensures forall t :: multiset(r.draft.techStack)[t] == if t == tech then 0 else multiset(st.draft.techStack)[t]
  {
    FilterMultiplicity(st.draft.techStack, (t: string) => t != tech);
    st.(draft := st.draft.(techStack := Filter(st.draft.techStack, (t: string) => t != tech)))
  }

  /** The end of a submit: the draft resets only when the parent's call resolved; the input box is kept. */
  function AfterSubmit(st: FormState, resolved: bool): (r: FormState)
    ensures !r.submitting && r.techInput == st.techInput
    ensures resolved ==> r.draft == InitialDraft
    ensures !resolved ==> r.draft == st.draft
  {
    if resolved then st.(draft := InitialDraft, submitting := false) else st.(submitting := false)
  }

  /** Everything a user can do to the form. */
  datatype Action =
    | Change(event: ChangeEvent)
    | TypeTech(text: string)
    | AddTech
    | Remove(tech: string)
    | Submit
    | Settled(resolved: bool)

  function Apply(st: FormState, a: Action): FormState {
    match a
    case Change(e) => st.(draft := HandleChange(st.draft, e))
    case TypeTech(text) => st.(techInput := text)
    case AddTech => HandleAddTech(st)
    case Remove(tech) => RemoveTech(st, tech)
    case Submit => st.(submitting := true)
    case Settled(resolved) => AfterSubmit(st, resolved)
  }

  function Run(st: FormState, actions: seq<Action>): FormState
    decreases |actions|
  {
    if |actions| == 0 then st else Run(Apply(st, actions[0]), actions[1..])
  }

  /** A clean tag list: no duplicates, every tag trimmed and non-empty. */
  predicate CleanTags(tags: seq<string>) {
    NoDuplicates(tags) && forall i :: 0 <= i < |tags| ==> tags[i] != "" && Trim(tags[i]) == tags[i]
  }

  /** A clean tag holds a non-space character. */
  lemma CleanTagNotBlank(tag: string)
    requires tag != "" && Trim(tag) == tag
    ensures !AllSpace(tag)
  {
    TrimEmptyIffBlank(tag);
  }

  /** Appending a trimmed, non-empty, new tag to a clean list keeps it clean. */
  lemma AppendKeepsClean(ts: seq<string>, t: string)
    requires CleanTags(ts) && t != "" && Trim(t) == t && t !in ts
    ensures CleanTags(ts + [t])
  {
    var r := ts + [t];
    forall i, j | 0 <= i < j < |r| ensures r[i] != r[j] {
      if j == |ts| {
        assert r[i] in ts;
      }
    }
  }

  /** "Add" keeps the tag list clean: the appended tag is trimmed, non-empty and new. */
  lemma AddTechKeepsClean(st: FormState)
    requires CleanTags(st.draft.techStack)
    ensures CleanTags(HandleAddTech(st).draft.techStack)
  {
    var t := Trim(st.techInput);
    if t != "" && t !in st.draft.techStack {
      TrimIdempotent(st.techInput);
      AppendKeepsClean(st.draft.techStack, t);
    }
  }

  /** Removing a tag keeps the tag list clean. */
  lemma RemoveKeepsClean(st: FormState, tech: string)
    requires CleanTags(st.draft.techStack)
    ensures CleanTags(RemoveTech(st, tech).draft.techStack)
  {
    var ts := st.draft.techStack;
    var keep := (x: string) => x != tech;
    FilterNoDuplicates(ts, keep);
    var r := Filter(ts, keep);
    forall i | 0 <= i < |r| ensures r[i] != "" && Trim(r[i]) == r[i] {
      assert r[i] in ts;
    }
  }

  /** One action keeps the tag list clean. */
  lemma ApplyKeepsClean(st: FormState, a: Action)
    requires CleanTags(st.draft.techStack)
    ensures CleanTags(Apply(st, a).draft.techStack)
  {
    match a
    case AddTech => AddTechKeepsClean(st);
    case Remove(tech) => RemoveKeepsClean(st, tech);
    case _ =>
  }

  /** A clean tag list stays clean across any run of actions. */
  lemma {:induction false} RunKeepsClean(st: FormState, actions: seq<Action>)
    requires CleanTags(st.draft.techStack)
    ensures CleanTags(Run(st, actions).draft.techStack)
    decreases |actions|
  {
    if |actions| > 0 {
      ApplyKeepsClean(st, actions[0]);
      RunKeepsClean(Apply(st, actions[0]), actions[1..]);
    }
  }

  /** Starting from the initial form, the tag list is clean after any run of actions. */
  lemma FromInitialAlwaysClean(actions: seq<Action>)
    ensures CleanTags(Run(InitialForm, actions).draft.techStack)
  {
    RunKeepsClean(InitialForm, actions);
  }

  /** Removing a tag that was just added restores the tag list. */
  lemma AddThenRemoveRestores(st: FormState)
    requires CleanTags(st.draft.techStack)
    requires HandleAddTech(st).draft.techStack != st.draft.techStack
    ensures RemoveTech(HandleAddTech(st), Trim(st.techInput)).draft.techStack == st.draft.techStack
  {
    var t := Trim(st.techInput);
    var keep := (x: string) => x != t;
    FilterConcat(st.draft.techStack, [t], keep);
    FilterAllPass(st.draft.techStack, keep);
    assert Filter([t], keep) == [];
  }
}
