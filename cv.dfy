/**
  `_cv_to_portfolio_payload` and `normalize_input_payload` of
  generate_portfolio.py: a JSON-Resume-like document (one with a `basics` key)
  is converted to the flat payload, and the site template chooses which
  projects the payload carries.
*/
module Cv {
  import opened Wrappers
  import opened Text
  import opened Schema
  import opened Normalize

  // ---------------------------------------------------------------------------
  // Projects of a CV

  /** A CV project in the flat shape: `name` becomes `title`; a missing key reads as "". */
  function MappedProject(p: ProjectItem): ProjectItem {
    ProjectItem(Some(p.name.GetOr("")), None, Some(p.description.GetOr("")), Some(p.image.GetOr("")))
  }

  /** `", ".join(highlights)` after `summary` and a space, with the outer whitespace stripped. */
  function WorkDescription(w: WorkItem): string {
    Strip(Join(" ", [w.summary.GetOr(""), Join(", ", w.highlights)]))
  }

  /** `" - ".join(filter(None, [position, name]))`. */
  function WorkTitle(w: WorkItem): string {
    JoinNonEmpty(" - ", [w.position.GetOr(""), w.name.GetOr("")])
  }

  /** A work entry shown as a project, without an image. */
  function WorkProject(w: WorkItem): ProjectItem {
    ProjectItem(Some(WorkTitle(w)), None, Some(WorkDescription(w)), Some(""))
  }

  /** Every CV project, mapped, in order. */
  function MappedProjects(ps: seq<ProjectItem>): (r: seq<ProjectItem>)
    ensures |r| == |ps|
  {
    seq(|ps|, i requires 0 <= i < |ps| => MappedProject(ps[i]))
  }

  /** Every work entry as a project, in order. */
  function WorkProjects(ws: seq<WorkItem>): (r: seq<ProjectItem>)
    ensures |r| == |ws|
  {
    seq(|ws|, i requires 0 <= i < |ws| => WorkProject(ws[i]))
  }

  /** The projects a template shows; any template other than the three known ones raises. */
  function SelectProjects(t: string, mapped: seq<ProjectItem>, work: seq<ProjectItem>): (r: Result<seq<ProjectItem>, Error>)
    ensures r.Ok? <==> t in TEMPLATE_MODES
    ensures r.Err? ==> r.error == UnsupportedTemplate(t)
  {
    if t == "portfolio" then Ok(mapped)
    else if t == "cv" then Ok(work)
    else if t == "hybrid" then Ok(mapped + work)
    else Err(UnsupportedTemplate(t))
  }

  /** The non-empty parts of the location, joined by " | ", with postal code and city sharing one part. */
  function AddressLine(loc: Location): string {
    JoinNonEmpty(" | ", [
      loc.address.GetOr(""),
      JoinNonEmpty(" ", [loc.postalCode.GetOr(""), loc.city.GetOr("")]),
      loc.region.GetOr(""),
      loc.countryCode.GetOr("")])
  }

  // ---------------------------------------------------------------------------
  // The conversion

  /** What `_cv_to_portfolio_payload` returns, or the error it raises. */
  function CvPayload(doc: InputDocument, t: string): (r: Result<Payload, Error>)
    ensures r.Ok? <==> t in TEMPLATE_MODES
    ensures r.Err? ==> r.error == UnsupportedTemplate(t)
    ensures r.Ok? ==> |r.value.projects| <= |doc.top.projects| + |doc.work|
  {
    var basics := doc.basics.GetOr(NO_BASICS);
    var selected :- SelectProjects(t, MappedProjects(doc.top.projects), WorkProjects(doc.work));
    Ok(Payload(
      OrElse(doc.top.userId, basics.email),
      basics.name,
      OrElse(basics.summary, basics.labelText),
      basics.labelText,
      basics.image,
      basics.email,
      basics.phone,
      Some(AddressLine(basics.location)),
      basics.profiles,
      doc.top.skills,
      doc.top.education,
      selected))
  }

  /** `_cv_to_portfolio_payload`: a loop mapping the CV projects, a loop over the work entries, then the selection. */
  method CvToPayload(doc: InputDocument, t: string) returns (r: Result<Payload, Error>)
    ensures r == CvPayload(doc, t)
  {
    var basics := doc.basics.GetOr(NO_BASICS);
    var projects := doc.top.projects;
    var mapped: seq<ProjectItem> := [];
    for i := 0 to |projects|
      invariant |mapped| == i
      invariant forall k :: 0 <= k < i ==> mapped[k] == MappedProject(projects[k])
    {
      var project := projects[i];
      mapped := mapped + [ProjectItem(Some(project.name.GetOr("")), None,
                                      Some(project.description.GetOr("")), Some(project.image.GetOr("")))];
    }
    assert mapped == MappedProjects(projects);
    var work: seq<ProjectItem> := [];
    for i := 0 to |doc.work|
      invariant |work| == i
      invariant forall k :: 0 <= k < i ==> work[k] == WorkProject(doc.work[k])
    {
      var entry := doc.work[i];
      var highlights := Join(", ", entry.highlights);
      var description := Strip(Join(" ", [entry.summary.GetOr(""), highlights]));
      var title := JoinNonEmpty(" - ", [entry.position.GetOr(""), entry.name.GetOr("")]);
      work := work + [ProjectItem(Some(title), None, Some(description), Some(""))];
    }
    assert work == WorkProjects(doc.work);
    var selected := SelectProjects(t, mapped, work);
    if selected.Err? {
      return Err(selected.error);
    }
    r := Ok(Payload(
      OrElse(doc.top.userId, basics.email),
      basics.name,
      OrElse(basics.summary, basics.labelText),
      basics.labelText,
      basics.image,
      basics.email,
      basics.phone,
      Some(AddressLine(basics.location)),
      basics.profiles,
      doc.top.skills,
      doc.top.education,
      selected.value));
  }

  /** `normalize_input_payload`: a document with a `basics` key is a CV; any other is already flat. */
  function NormalizedInput(doc: InputDocument, t: string): (r: Result<Payload, Error>)
    ensures doc.basics.None? ==> r == Ok(doc.top)
    ensures doc.basics.Some? ==> (r.Ok? <==> t in TEMPLATE_MODES)
    ensures r.Ok? ==> |r.value.projects| <= |doc.top.projects| + |doc.work|
  {
    if doc.basics.Some? then CvPayload(doc, t) else Ok(doc.top)
  }

  // ---------------------------------------------------------------------------
  // Properties

  /** `portfolio` shows the CV projects only, mapped, in order. */
  lemma PortfolioSelection(doc: InputDocument)
    ensures var ps := CvPayload(doc, "portfolio").value.projects;
            |ps| == |doc.top.projects| &&
            forall i :: 0 <= i < |ps| ==> ps[i] == MappedProject(doc.top.projects[i])
  {
    assert CvPayload(doc, "portfolio").value.projects == MappedProjects(doc.top.projects);
  }

  /** `cv` shows the work entries only, in order. */
  lemma CvSelection(doc: InputDocument)
    ensures var ps := CvPayload(doc, "cv").value.projects;
            |ps| == |doc.work| &&
            forall i :: 0 <= i < |ps| ==> ps[i] == WorkProject(doc.work[i])
  {
    assert CvPayload(doc, "cv").value.projects == WorkProjects(doc.work);
  }

  /** `hybrid` shows the CV projects followed by the work entries. */
  lemma HybridSelection(doc: InputDocument)
    ensures var (ps, n) := (CvPayload(doc, "hybrid").value.projects, |doc.top.projects|);
            && |ps| == n + |doc.work|
            && (forall i :: 0 <= i < n ==> ps[i] == MappedProject(doc.top.projects[i]))
            && (forall i :: n <= i < |ps| ==> ps[i] == WorkProject(doc.work[i - n]))
  {
    var (mapped, work) := (MappedProjects(doc.top.projects), WorkProjects(doc.work));
    var ps := CvPayload(doc, "hybrid").value.projects;
    assert ps == mapped + work;
    var n := |mapped|;
    forall i | 0 <= i < n
      ensures ps[i] == MappedProject(doc.top.projects[i])
    {
      assert ps[i] == mapped[i];
    }
    forall i | n <= i < |ps|
      ensures ps[i] == WorkProject(doc.work[i - n])
    {
      assert ps[i] == work[i - n];
    }
  }

  /**
    A CV project is one with its `name` as title; the missing text keys read as
    "", so once normalised it has the escaped name and description and the same
    image as the CV project itself would get.
  */
  lemma MappedProjectFields(p: ProjectItem)
    ensures Sanitize(MappedProject(p).title) == Sanitize(p.name)
    ensures Sanitize(MappedProject(p).description) == Sanitize(p.description)
    ensures Truthy(MappedProject(p).image) <==> Truthy(p.image)
    ensures MappedProject(p).name.None?
    ensures NormalizedProject(MappedProject(p)) == Project(Sanitize(p.name), Sanitize(p.description), NormalizedProject(p).image)
  {
  }

  /** A work entry's title joins its position and company name, with " - " only when both are present. */
  lemma WorkProjectFields(w: WorkItem)
    ensures var (pos, name) := (w.position.GetOr(""), w.name.GetOr(""));
            WorkProject(w).title == Some(if pos == "" then name else if name == "" then pos else pos + " - " + name)
    ensures var d := WorkProject(w).description.value;
            d != [] ==> !IsSpace(d[0]) && !IsSpace(d[|d| - 1])
    ensures WorkProject(w).image == Some("") && !Truthy(WorkProject(w).image)
  {
    JoinNonEmptyPair(" - ", w.position.GetOr(""), w.name.GetOr(""));
  }

  /** `bio` is the summary, or the label when the summary is falsy; `user_id` is the top-level one, or the email. */
  lemma CvFallbacks(doc: InputDocument, t: string)
    requires t in TEMPLATE_MODES
    ensures var (b, p) := (doc.basics.GetOr(NO_BASICS), CvPayload(doc, t).value);
            && (Truthy(b.summary) ==> p.bio == b.summary)
            && (!Truthy(b.summary) ==> p.bio == b.labelText)
            && (Truthy(doc.top.userId) ==> p.userId == doc.top.userId)
            && (!Truthy(doc.top.userId) ==> p.userId == b.email)
            && p.headline == b.labelText
  {
  }

  /**
    A `basics` key holding `null` or `{}` still makes the document a CV: it is
    converted, and the basic fields it would supply are absent.
  */
  lemma NullBasics(top: Payload, work: seq<WorkItem>, t: string)
    requires t in TEMPLATE_MODES
    ensures var r := NormalizedInput(InputDocument(top, Some(NO_BASICS), work), t);
            && r.Ok?
            && r.value.name.None? && r.value.bio.None? && r.value.headline.None? && r.value.photoUrl.None?
            && r.value.email.None? && r.value.phone.None? && r.value.profiles == []
            && r.value.userId == (if Truthy(top.userId) then top.userId else None)
  {
  }

  /** The address line is empty exactly when every location field is falsy. */
  lemma AddressLineEmpty(loc: Location)
    ensures AddressLine(loc) == "" <==>
            !Truthy(loc.address) && !Truthy(loc.postalCode) && !Truthy(loc.city)
            && !Truthy(loc.region) && !Truthy(loc.countryCode)
  {
    var (pc, city) := (loc.postalCode.GetOr(""), loc.city.GetOr(""));
    JoinNonEmptyPair(" ", pc, city);
    var parts := [loc.address.GetOr(""), JoinNonEmpty(" ", [pc, city]), loc.region.GetOr(""), loc.countryCode.GetOr("")];
    assert (forall i :: 0 <= i < |parts| ==> parts[i] == "") <==>
           parts[0] == "" && parts[1] == "" && parts[2] == "" && parts[3] == "";
  }
}
