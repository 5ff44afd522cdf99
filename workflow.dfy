/**
  The draft/validated workflow of generate_portfolio.py. `generate_portfolio`
  checks its arguments, builds the record and writes the site with a workflow
  state of status "draft"; `mark_site_validated` turns an existing state into
  "validated" and keeps everything else in it.

  The output directory is a `SiteOutput` whose fields are the data files the
  generator writes: the record document, its relational projection, the
  content file the CMS edits, and the workflow state.
*/
module Workflow {
  import opened Wrappers
  import opened Schema
  import opened Cv
  import opened Record
  import opened Projection

  const DRAFT := "draft"
  const VALIDATED := "validated"

  /** The keys of a freshly written workflow state. */
  const DRAFT_KEYS: set<string> := {"status", "site_template", "portfolio_id", "editable_admin_url", "design_theme"}

  /** `data/portfolio.json`: the record's content, without its identifiers of user and portfolio. */
  datatype SiteData = SiteData(
    name: string,
    bio: string,
    headline: string,
    photoUrl: string,
    contactLine: string,
    addressLine: string,
    profiles: seq<Profile>,
    skills: seq<string>,
    education: seq<Education>,
    projects: seq<RecordProject>)

  /** What `generate_portfolio` returns. */
  datatype GenerateResponse = GenerateResponse(
    path: string,
    adminUrl: string,
    portfolioId: string,
    siteTemplate: string,
    designTheme: string,
    status: string)

  /** What `mark_site_validated` returns. */
  datatype ValidateResponse = ValidateResponse(path: string, status: string)

  /** The content file of a record. */
  function SiteDataOf(r: PortfolioRecord): SiteData {
    SiteData(r.name, r.bio, r.headline, r.photoUrl, r.contactLine, r.addressLine,
             r.profiles, r.skills, r.education, r.projects)
  }

  /** The workflow state a generation writes. */
  function DraftState(portfolioId: string, t: string, theme: string): map<string, string> {
    map["status" := DRAFT, "site_template" := t, "portfolio_id" := portfolioId,
        "editable_admin_url" := ADMIN_URL, "design_theme" := theme]
  }

  /** The state after `mark_site_validated`: the status and the validation time set, every other key kept. */
  function ValidatedState(s: map<string, string>, now: string): map<string, string> {
    s["status" := VALIDATED]["validated_at" := now]
  }

  /**
    What the `re.subn` of the project-loop block does with the rendered page:
    it replaces some number of blocks, or it raises `re.error` because the
    project cards it inserts, read as a replacement template, hold a backslash
    escape it rejects (such as `\d` or a group reference `\1`).
  */
  datatype LoopReplacement = Replaced(blocks: nat) | RaisedBadEscape

  /**
    What `generate_portfolio` produces before writing: the template is checked
    first, then the theme, then the record is built, then the replacement of
    the project-loop block must neither raise nor find other than one block.
    `loop` is what the replacement does.
  */
  function Generation(doc: InputDocument, t: string, theme: string, loop: LoopReplacement, ids: seq<string>, now: string)
    : (r: Result<PortfolioRecord, Error>)
    requires IdsBound(doc) <= |ids|
    ensures r.Ok? <==> t in TEMPLATE_MODES && theme in DESIGN_THEME_FILES && loop == Replaced(1)
    ensures t !in TEMPLATE_MODES ==> r == Err(UnsupportedTemplate(t))
    ensures t in TEMPLATE_MODES && theme !in DESIGN_THEME_FILES ==> r == Err(UnsupportedTheme(theme))
    ensures t in TEMPLATE_MODES && theme in DESIGN_THEME_FILES && loop.RaisedBadEscape? ==> r == Err(BadReplacementEscape)
    ensures t in TEMPLATE_MODES && theme in DESIGN_THEME_FILES && loop.Replaced? && loop.blocks != 1 ==>
              r == Err(ProjectLoopBlock(loop.blocks))
    ensures r.Ok? ==> BuildRecord(doc, t, ids, now) == Ok(r.value)
  {
    if t !in TEMPLATE_MODES then Err(UnsupportedTemplate(t))
    else if theme !in DESIGN_THEME_FILES then Err(UnsupportedTheme(theme))
    else
      var record := BuildRecord(doc, t, ids, now).value;
      match loop
      case RaisedBadEscape => Err(BadReplacementEscape)
      case Replaced(n) => if n != 1 then Err(ProjectLoopBlock(n)) else Ok(record)
  }

  /**
    With the default template and theme (`site_template="hybrid"`,
    `design_theme="classic"`), only the replacement of the project-loop block
    can make a generation fail, and a CV document always converts.
  */
  lemma DefaultArguments(doc: InputDocument, loop: LoopReplacement, ids: seq<string>, now: string)
    requires IdsBound(doc) <= |ids|
    ensures Generation(doc, DEFAULT_TEMPLATE_MODE, DEFAULT_DESIGN_THEME, loop, ids, now).Ok? <==> loop == Replaced(1)
    ensures NormalizedInput(doc, DEFAULT_TEMPLATE_MODE).Ok?
  {
  }

  /** The generated output directory. */
  class SiteOutput {
    const path: string
    var document: Option<PortfolioRecord>
    var projection: Option<SqlProjection>
    var siteData: Option<SiteData>
    var workflowState: Option<map<string, string>>

    /**
      An output directory with the files an earlier generation left in it, if
      any: all four after a generation, none for a fresh directory.
    */
    constructor (path: string, document: Option<PortfolioRecord>, projection: Option<SqlProjection>,
                 siteData: Option<SiteData>, workflowState: Option<map<string, string>>)
      ensures this.path == path && this.workflowState == workflowState
      ensures this.document == document && this.projection == projection && this.siteData == siteData
    {
      this.path := path;
      this.document := document;
      this.projection := projection;
      this.siteData := siteData;
      this.workflowState := workflowState;
    }

    /**
      `generate_portfolio`: nothing is written unless every check passes; then
      the record, its projection, the content file and a draft workflow state
      are written, whatever state was there before.
    */
    method GeneratePortfolio(doc: InputDocument, t: string, theme: string, loop: LoopReplacement, ids: seq<string>, now: string)
      returns (r: Result<GenerateResponse, Error>)
      requires IdsBound(doc) <= |ids|
      modifies this
      ensures var g := Generation(doc, t, theme, loop, ids, now);
              && (g.Err? ==> r == Err(g.error) && unchanged(this))
              && (g.Ok? ==> r == Ok(GenerateResponse(path, ADMIN_URL, g.value.portfolioId, t, theme, DRAFT))
                            && document == Some(g.value)
                            && projection == Some(BuildSqlProjection(g.value))
                            && siteData == Some(SiteDataOf(g.value))
                            && workflowState == Some(DraftState(g.value.portfolioId, t, theme)))
    {
      if t !in TEMPLATE_MODES {
        return Err(UnsupportedTemplate(t));
      }
      if theme !in DESIGN_THEME_FILES {
        return Err(UnsupportedTheme(theme));
      }
      var built := BuildPortfolioRecord(doc, t, ids, now);
      var record := built.value;
      if loop.RaisedBadEscape? {
        return Err(BadReplacementEscape);
      }
      if loop.blocks != 1 {
        return Err(ProjectLoopBlock(loop.blocks));
      }
      siteData := Some(SiteDataOf(record));
      document := Some(record);
      projection := Some(BuildSqlProjection(record));
      workflowState := Some(DraftState(record.portfolioId, t, theme));
      r := Ok(GenerateResponse(path, ADMIN_URL, record.portfolioId, t, theme, DRAFT));
    }

    /**
      `mark_site_validated`: fails, changing nothing, when there is no
      workflow state; otherwise sets the status and the validation time in the
      loaded state and writes it back, leaving the other files alone.
    */
    method MarkSiteValidated(now: string) returns (r: Result<ValidateResponse, Error>)
      modifies this
      ensures old(workflowState).None? ==> r == Err(MissingWorkflowState) && unchanged(this)
      ensures old(workflowState).Some? ==>
                && r == Ok(ValidateResponse(path, VALIDATED))
                && workflowState == Some(ValidatedState(old(workflowState).value, now))
                && document == old(document) && projection == old(projection) && siteData == old(siteData)
    {
      if workflowState.None? {
        return Err(MissingWorkflowState);
      }
      var state := workflowState.value;
      state := state["status" := VALIDATED];
      state := state["validated_at" := now];
      workflowState := Some(state);
      r := Ok(ValidateResponse(path, VALIDATED));
    }
  }

  // ---------------------------------------------------------------------------
  // Properties

  /** A draft state has exactly its five keys, with status "draft" and the admin url. */
  lemma DraftStateContents(portfolioId: string, t: string, theme: string)
    ensures var s := DraftState(portfolioId, t, theme);
            && s.Keys == DRAFT_KEYS
            && s["status"] == DRAFT && s["editable_admin_url"] == ADMIN_URL
            && s["portfolio_id"] == portfolioId && s["site_template"] == t && s["design_theme"] == theme
  {
  }

  /**
    Validation sets "status" to "validated" and "validated_at" to the time,
    adds no other key and leaves the value of every other key unchanged.
  */
  lemma ValidatedStateKeeps(s: map<string, string>, now: string)
    ensures var v := ValidatedState(s, now);
            && v.Keys == s.Keys + {"status", "validated_at"}
            && v["status"] == VALIDATED && v["validated_at"] == now
            && forall k :: k in s && k != "status" && k != "validated_at" ==> v[k] == s[k]
  {
  }

  /** Validating again only moves the validation time. */
  lemma ValidateTwice(s: map<string, string>, first: string, second: string)
    ensures ValidatedState(ValidatedState(s, first), second) == ValidatedState(s, second)
  {
  }

  /** A validated draft still names its portfolio, template, theme and admin url. */
  lemma ValidatedDraft(portfolioId: string, t: string, theme: string, now: string)
    ensures var v := ValidatedState(DraftState(portfolioId, t, theme), now);
            && v["status"] == VALIDATED && v["validated_at"] == now
            && v["portfolio_id"] == portfolioId && v["site_template"] == t
            && v["design_theme"] == theme && v["editable_admin_url"] == ADMIN_URL
            && v.Keys == DRAFT_KEYS + {"validated_at"}
  {
    DraftStateContents(portfolioId, t, theme);
    ValidatedStateKeeps(DraftState(portfolioId, t, theme), now);
  }

  /**
    A generation that passes its checks builds the record of the document for
    the chosen template, stamped once with the clock reading.
  */
  lemma GenerationRecord(doc: InputDocument, t: string, theme: string, ids: seq<string>, now: string)
    requires IdsBound(doc) <= |ids|
    requires t in TEMPLATE_MODES && theme in DESIGN_THEME_FILES
    ensures var g := Generation(doc, t, theme, Replaced(1), ids, now);
            && g.Ok?
            && g.value.siteTemplate == t
            && g.value.createdAt == g.value.updatedAt == now
  {
    var p := NormalizedInput(doc, t).value;
    assert BuildRecord(doc, t, ids, now) == Ok(RecordOf(p, t, ids, now));
    RecordScalars(p, t, ids, now);
  }
}
