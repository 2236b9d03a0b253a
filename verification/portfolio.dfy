/**
 * The portfolio document shared by the server and the client: a project
 * entry, the partial project a request body carries, and the nested
 * profile (bio, social links, skills, education, work history).
 *
 * Fields the JSON may omit are `Option`s; arrays the schema defaults to
 * `[]` are plain sequences.
 */
module Portfolio {
  import opened Wrappers

  type UserId = nat
  type ProjectId = string

  /** One entry of a profile's embedded `projects` array. */
  datatype Project = Project(
    id: ProjectId,
    title: Option<string>,
    description: Option<string>,
    techStack: seq<string>,
    images: seq<string>,
    liveUrl: Option<string>,
    githubUrl: Option<string>,
    category: Option<string>,
    featured: bool,
    createdAt: int)

  /** A request body for a project: each field present or absent. */
  datatype ProjectPatch = ProjectPatch(
    id: Option<ProjectId>,
    title: Option<string>,
    description: Option<string>,
    techStack: Option<seq<string>>,
    images: Option<seq<string>>,
    liveUrl: Option<string>,
    githubUrl: Option<string>,
    category: Option<string>,
    featured: Option<bool>,
    createdAt: Option<int>)

  /** A body with no fields. */
  const EmptyPatch := ProjectPatch(None, None, None, None, None, None, None, None, None, None)

  /** `{ ...p, ...patch }`: every field the patch carries wins, every other field is kept. */
  function Merge(p: Project, patch: ProjectPatch): (r: Project)
    ensures r.id == patch.id.GetOr(p.id)
    ensures r.title == (if patch.title.Some? then patch.title else p.title)
    ensures r.description == (if patch.description.Some? then patch.description else p.description)
    ensures r.techStack == patch.techStack.GetOr(p.techStack)
    ensures r.images == patch.images.GetOr(p.images)
    ensures r.liveUrl == (if patch.liveUrl.Some? then patch.liveUrl else p.liveUrl)
    ensures r.githubUrl == (if patch.githubUrl.Some? then patch.githubUrl else p.githubUrl)
    ensures r.category == (if patch.category.Some? then patch.category else p.category)
    ensures r.featured == patch.featured.GetOr(p.featured)
    ensures r.createdAt == patch.createdAt.GetOr(p.createdAt)
  {
    Project(
      patch.id.GetOr(p.id),
      if patch.title.Some? then patch.title else p.title,
      if patch.description.Some? then patch.description else p.description,
      patch.techStack.GetOr(p.techStack),
      patch.images.GetOr(p.images),
      if patch.liveUrl.Some? then patch.liveUrl else p.liveUrl,
      if patch.githubUrl.Some? then patch.githubUrl else p.githubUrl,
      if patch.category.Some? then patch.category else p.category,
      patch.featured.GetOr(p.featured),
      patch.createdAt.GetOr(p.createdAt))
  }

  /** The patch that carries every field of `p`. */
  function FullPatch(p: Project): ProjectPatch {
    ProjectPatch(Some(p.id), p.title, p.description, Some(p.techStack), Some(p.images),
                 p.liveUrl, p.githubUrl, p.category, Some(p.featured), Some(p.createdAt))
  }

  /** Merging nothing changes nothing; merging the same patch twice is merging it once. */
  lemma MergeLaws(p: Project, patch: ProjectPatch)
    ensures Merge(p, EmptyPatch) == p
    ensures Merge(Merge(p, patch), patch) == Merge(p, patch)
  {
  }

  /** A patch carrying every field of `q` turns any entry into `q`, except title/description/links/category `q` lacks. */
  lemma MergeFullPatch(p: Project, q: Project)
    requires q.title.Some? && q.description.Some? && q.liveUrl.Some? && q.githubUrl.Some? && q.category.Some?
    ensures Merge(p, FullPatch(q)) == q
  {
  }

  /** A JSON value that should be an array: `Array.isArray(v) ? v : []` turns it into a sequence. */
  datatype JsonArray<T> = Array(items: seq<T>) | NotAnArray

  function SafeArray<T>(v: JsonArray<T>): (r: seq<T>)
    ensures v.Array? ==> r == v.items
    ensures v.NotAnArray? ==> r == []
  {
    match v
    case Array(items) => items
    case NotAnArray => []
  }

  datatype SocialLinks = SocialLinks(
    github: Option<string>,
    linkedin: Option<string>,
    twitter: Option<string>,
    personalWebsite: Option<string>)

  datatype Skill = Skill(techName: string, skillsUsed: seq<string>)

  datatype Education = Education(collegeName: string, branch: string, course: string, yearOfPassout: string)

  datatype WorkEntry = WorkEntry(
    companyName: string,
    position: string,
    duration: string,
    description: string,
    currentlyWorking: bool)

  /** The nested `profile` sub-document. */
  datatype ProfileInfo = ProfileInfo(
    name: Option<string>,
    passionateText: Option<string>,
    bio: Option<string>,
    avatar: Option<string>,
    socialLinks: Option<SocialLinks>,
    skills: Option<seq<Skill>>,
    education: Option<seq<Education>>,
    workExperience: Option<seq<WorkEntry>>)
}
