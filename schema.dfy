/**
  The shapes the generator reads and writes. Every JSON dictionary is a
  datatype; a key that may be missing or null is an `Option<string>`, and a
  list that may be missing or null is a sequence that is then empty.
*/
module Schema {
  import opened Wrappers

  // The default texts are written as concatenations of shared fragments (so the
  // headline default reuses the network default "Profil"). A text under
  // `Escape` that is one literal makes the prover unfold it character by
  // character; the concatenations denote the same strings as the source's literals.
  const PLACEHOLDER_SERVICE := "https://via.placeholder.com/"
  const DEFAULT_PROJECT_IMAGE := PLACEHOLDER_SERVICE + "400x250/0077b6/FFFFFF?text=Project"
  const DEFAULT_PROFILE_PHOTO := PLACEHOLDER_SERVICE + "240x240/2c3e50/FFFFFF?text=Profile"
  const DEFAULT_NETWORK := "Profil"
  const DEFAULT_HEADLINE := DEFAULT_NETWORK + " professionnel"
  const NOT_PROVIDED := " non renseign\U{E9}"
  const MISSING_CONTACT := "Contact" + NOT_PROVIDED
  const MISSING_ADDRESS := "Adresse" + NOT_PROVIDED + "e"
  const ADMIN_URL := "/admin/"

  /** The site templates the generator accepts. */
  const TEMPLATE_MODES: set<string> := {"portfolio", "cv", "hybrid"}

  /** The template and the theme a caller gets when it names none. */
  const DEFAULT_TEMPLATE_MODE := "hybrid"
  const DEFAULT_DESIGN_THEME := "classic"

  /** The design themes and the stylesheet each one copies. */
  const DESIGN_THEME_FILES: map<string, string> :=
    map["classic" := "main.css", "modern" := "modern.css", "contrast" := "contrast.css", "artistic" := "artistic.css"]

  // ---------------------------------------------------------------------------
  // Input

  /**
    An entry of a `projects` list. A flat payload names it by `title`; a CV
    document names it by `name`.
  */
  datatype ProjectItem = ProjectItem(
    title: Option<string>,
    name: Option<string>,
    description: Option<string>,
    image: Option<string>)

  /** An entry of a `profiles` list. */
  datatype ProfileItem = ProfileItem(network: Option<string>, url: Option<string>, username: Option<string>)

  /** An entry of a `skills` list; a missing `keywords` list is empty. */
  datatype SkillItem = SkillItem(name: Option<string>, keywords: seq<Option<string>>)

  /** An entry of an `education` list. */
  datatype EducationItem = EducationItem(
    institution: Option<string>,
    studyType: Option<string>,
    area: Option<string>,
    startDate: Option<string>,
    endDate: Option<string>,
    score: Option<string>)

  /** `basics.location` of a CV document; a missing location has every field absent. */
  datatype Location = Location(
    address: Option<string>,
    postalCode: Option<string>,
    city: Option<string>,
    region: Option<string>,
    countryCode: Option<string>)

  /** `basics` of a CV document. */
  datatype Basics = Basics(
    name: Option<string>,
    labelText: Option<string>,  // the `label` key
    summary: Option<string>,
    image: Option<string>,
    email: Option<string>,
    phone: Option<string>,
    location: Location,
    profiles: seq<ProfileItem>)

  const NO_LOCATION := Location(None, None, None, None, None)

  /** A `basics` key holding `null` or `{}`: what `basics or {}` gives, every field absent. */
  const NO_BASICS := Basics(None, None, None, None, None, None, NO_LOCATION, [])

  /** An entry of a CV's `work` list; `highlights` that is not a list reads as empty. */
  datatype WorkItem = WorkItem(
    position: Option<string>,
    name: Option<string>,
    summary: Option<string>,
    highlights: seq<string>)

  /** The flat payload: the legacy input format, and what a CV document is converted to. */
  datatype Payload = Payload(
    userId: Option<string>,
    name: Option<string>,
    bio: Option<string>,
    headline: Option<string>,
    photoUrl: Option<string>,
    email: Option<string>,
    phone: Option<string>,
    addressLine: Option<string>,
    profiles: seq<ProfileItem>,
    skills: seq<SkillItem>,
    education: seq<EducationItem>,
    projects: seq<ProjectItem>)

  /**
    A document as received: its top-level keys, its `basics` key and its `work`
    list. `basics == None` means the key is absent; a `basics` key holding
    `null` or `{}` is `Some(NO_BASICS)`, since the source tests only whether the
    key is present.
  */
  datatype InputDocument = InputDocument(top: Payload, basics: Option<Basics>, work: seq<WorkItem>)

  // ---------------------------------------------------------------------------
  // Output

  /** A project after normalisation. */
  datatype Project = Project(title: string, description: string, image: string)

  /** A profile after normalisation. */
  datatype Profile = Profile(network: string, url: string)

  /** An education entry after normalisation. */
  datatype Education = Education(institution: string, title: string, period: string, score: string)

  /** A project of the canonical record, with its own identifier. */
  datatype RecordProject = RecordProject(projectId: string, title: string, description: string, image: string)

  /** The canonical portfolio record. */
  datatype PortfolioRecord = PortfolioRecord(
    portfolioId: string,
    userId: string,
    name: string,
    bio: string,
    headline: string,
    photoUrl: string,
    contactLine: string,
    addressLine: string,
    profiles: seq<Profile>,
    skills: seq<string>,
    education: seq<Education>,
    projects: seq<RecordProject>,
    createdAt: string,
    updatedAt: string,
    siteTemplate: string)

  /** Why an operation raised. */
  datatype Error =
    | UnsupportedTemplate(template: string)
    | UnsupportedTheme(theme: string)
    | ProjectLoopBlock(matches: nat)
    | BadReplacementEscape
    | MissingWorkflowState
}
