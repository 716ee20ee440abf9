/**
 * The content records of the portfolio (src/types/index.ts): projects, skill
 * groups, certifications, experience entries and publications, with the two
 * closed string unions of the source as enumerations.
 */
module Types {

  datatype Option<+T> = None | Some(value: T)

  /**
   * JavaScript truthiness of an optional string field: an absent field and
   * the empty string are both falsy, so `field && ...` and `a || b` skip them.
   */
  predicate Present(o: Option<string>) {
    o.Some? && o.value != ""
  }

  /** `category: 'blockchain' | 'frontend' | 'fullstack'` of a project. */
  datatype ProjectCategory = Blockchain | Frontend | Fullstack

  /** The string literal each category stands for in the source. */
  function CategoryName(c: ProjectCategory): string {
    match c
    case Blockchain => "blockchain"
    case Frontend => "frontend"
    case Fullstack => "fullstack"
  }

  /** Reading a category back from its string; any other string is not a category. */
  function ParseCategory(s: string): (r: Option<ProjectCategory>)
    ensures r.Some? ==> CategoryName(r.value) == s
  {
    if s == "blockchain" then Some(Blockchain)
    else if s == "frontend" then Some(Frontend)
    else if s == "fullstack" then Some(Fullstack)
    else None
  }

  /** The closed union: each category is exactly one of the three literals, and back. */
  lemma CategoryRoundTrip(c: ProjectCategory)
    ensures ParseCategory(CategoryName(c)) == Some(c)
  {
  }

  /** A string is a category iff it is one of the three literals. */
  lemma ParseCategoryExactly(s: string)
    ensures ParseCategory(s).Some? <==> s in {"blockchain", "frontend", "fullstack"}
  {
  }

  /** `status: 'published' | 'under-review' | 'preprint'` of a publication. */
  datatype PublicationStatus = Published | UnderReview | Preprint

  /** The string literal each status stands for in the source. */
  function StatusName(s: PublicationStatus): string {
    match s
    case Published => "published"
    case UnderReview => "under-review"
    case Preprint => "preprint"
  }

  function ParseStatus(s: string): (r: Option<PublicationStatus>)
    ensures r.Some? ==> StatusName(r.value) == s
  {
    if s == "published" then Some(Published)
    else if s == "under-review" then Some(UnderReview)
    else if s == "preprint" then Some(Preprint)
    else None
  }

  lemma StatusRoundTrip(s: PublicationStatus)
    ensures ParseStatus(StatusName(s)) == Some(s)
  {
  }

  /** A project; `image`, `github` and `liveDemo` are optional, `featured` is not. */
  datatype Project = Project(
    id: string,
    title: string,
    description: string,
    image: Option<string>,
    technologies: seq<string>,
    github: Option<string>,
    liveDemo: Option<string>,
    featured: bool,
    category: ProjectCategory)

  /** A skill group; the proficiency is a percentage drawn as a bar width. */
  datatype Skill = Skill(category: string, skills: seq<string>, proficiency: int)

  /** A certification; its category is a free string, not a closed union. */
  datatype Certification = Certification(
    id: string,
    name: string,
    issuer: string,
    date: string,
    badgeUrl: string,
    credlyUrl: string,
    category: string)

  datatype Experience = Experience(
    id: string,
    company: string,
    position: string,
    duration: string,
    description: seq<string>,
    technologies: seq<string>)

  /** A publication; the venue, DOI and PDF link are each optional. */
  datatype Publication = Publication(
    id: string,
    title: string,
    authors: seq<string>,
    journal: Option<string>,
    conference: Option<string>,
    year: string,
    doi: Option<string>,
    pdfUrl: Option<string>,
    summary: string,
    keywords: seq<string>,
    status: PublicationStatus)
}
