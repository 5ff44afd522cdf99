/**
  `build_portfolio_record` of generate_portfolio.py: the canonical record of a
  portfolio, with escaped text, defaults for the missing fields and fresh
  identifiers.

  The identifiers `uuid4()` would mint are the supplied sequence `ids`, taken
  in the order the source draws them: one for the user when the payload has no
  usable `user_id`, one per project, then one for the portfolio. The clock
  reading is the supplied `now`.
*/
module Record {
  import opened Wrappers
  import opened Text
  import opened Schema
  import opened Normalize
  import opened Cv

  /** The escaped email and phone joined by " | ", or the "missing contact" text. */
  function ContactLine(email: Option<string>, phone: Option<string>): (r: string)
    ensures r != ""
  {
    var joined := JoinNonEmpty(" | ", [Sanitize(email), Sanitize(phone)]);
    if joined != "" then joined else MISSING_CONTACT
  }

  /** How many identifiers the user id takes: one exactly when the sanitized `user_id` is empty. */
  function UserIdDraws(p: Payload): (n: nat)
    ensures n <= 1
  {
    if Sanitize(p.userId) == "" then 1 else 0
  }

  /** How many identifiers building the record of `p` takes. */
  function IdsNeeded(p: Payload): nat {
    UserIdDraws(p) + |p.projects| + 1
  }

  /** The record's projects: each normalised project with the next identifier. */
  function RecordProjects(ps: seq<Project>, ids: seq<string>): (r: seq<RecordProject>)
    requires |ps| <= |ids|
    ensures |r| == |ps|
  {
    seq(|ps|, i requires 0 <= i < |ps| => RecordProject(ids[i], ps[i].title, ps[i].description, ps[i].image))
  }

  lemma RecordProjectsStep(ps: seq<Project>, ids: seq<string>, i: nat)
    requires i < |ps| <= |ids|
    ensures RecordProjects(ps[..i + 1], ids) ==
            RecordProjects(ps[..i], ids) + [RecordProject(ids[i], ps[i].title, ps[i].description, ps[i].image)]
  {
  }

  /** The record built from a flat payload. */
  function RecordOf(p: Payload, t: string, ids: seq<string>, now: string): (r: PortfolioRecord)
    requires IdsNeeded(p) <= |ids|
  {
    var drawn := UserIdDraws(p);
    PortfolioRecord(
      ids[drawn + |p.projects|],
      if drawn == 1 then ids[0] else Sanitize(p.userId),
      Sanitize(p.name),
      Sanitize(p.bio),
      SanitizeOr(p.headline, DEFAULT_HEADLINE),
      SanitizeOr(p.photoUrl, DEFAULT_PROFILE_PHOTO),
      ContactLine(p.email, p.phone),
      SanitizeOr(p.addressLine, MISSING_ADDRESS),
      NormalizedProfiles(p.profiles),
      NormalizedSkills(p.skills),
      NormalizedEducation(p.education),
      RecordProjects(NormalizedProjects(p.projects), ids[drawn..]),
      now,
      now,
      t)
  }

  /** How many identifiers building the record of `doc` may take at most. */
  function IdsBound(doc: InputDocument): nat {
    |doc.top.projects| + |doc.work| + 2
  }

  /** What `build_portfolio_record` returns, or the error it raises. */
  function BuildRecord(doc: InputDocument, t: string, ids: seq<string>, now: string): (r: Result<PortfolioRecord, Error>)
    requires IdsBound(doc) <= |ids|
    ensures r.Err? <==> t !in TEMPLATE_MODES
    ensures r.Err? ==> r.error == UnsupportedTemplate(t)
  {
    if t !in TEMPLATE_MODES then Err(UnsupportedTemplate(t))
    else
      var p := NormalizedInput(doc, t).value;
      Ok(RecordOf(p, t, ids, now))
  }

  /**
    `build_portfolio_record`: the template check and the format dispatch, then
    the record of the flat payload.
  */
  method BuildPortfolioRecord(doc: InputDocument, t: string, ids: seq<string>, now: string)
    returns (r: Result<PortfolioRecord, Error>)
    requires IdsBound(doc) <= |ids|
    ensures r == BuildRecord(doc, t, ids, now)
  {
    if t !in TEMPLATE_MODES {
      return Err(UnsupportedTemplate(t));
    }
    var payload := doc.top;
    if doc.basics.Some? {
      var converted := CvToPayload(doc, t);
      payload := converted.value;
    }
    var record := PayloadRecord(payload, t, ids, now);
    r := Ok(record);
  }

  /**
    The rest of `build_portfolio_record`: the user id, a loop giving every
    normalised project the next identifier, the portfolio id, then the record.
  */
  method PayloadRecord(payload: Payload, t: string, ids: seq<string>, now: string) returns (record: PortfolioRecord)
    requires IdsNeeded(payload) <= |ids|
    ensures record == RecordOf(payload, t, ids, now)
  {
    var next := 0;
    var userId := Sanitize(payload.userId);
    if userId == "" {
      userId := ids[next];
      next := next + 1;
    }
    ghost var pool := ids[next..];
    var normalized := NormalizeProjects(payload.projects);
    var projects: seq<RecordProject> := [];
    for i := 0 to |normalized|
      invariant next == UserIdDraws(payload) + i
      invariant projects == RecordProjects(normalized[..i], pool)
    {
      var project := normalized[i];
      assert ids[next] == pool[i];
      projects := projects + [RecordProject(ids[next], project.title, project.description, project.image)];
      next := next + 1;
      RecordProjectsStep(normalized, pool, i);
    }
    assert normalized[..|normalized|] == normalized;
    var portfolioId := ids[next];
    var profiles := NormalizeProfiles(payload.profiles);
    var skills := NormalizeSkills(payload.skills);
    var education := NormalizeEducation(payload.education);
    record := PortfolioRecord(
      portfolioId,
      userId,
      Sanitize(payload.name),
      Sanitize(payload.bio),
      Sanitize(OrElse(payload.headline, Some(DEFAULT_HEADLINE))),
      Sanitize(OrElse(payload.photoUrl, Some(DEFAULT_PROFILE_PHOTO))),
      ContactLine(payload.email, payload.phone),
      Sanitize(OrElse(payload.addressLine, Some(MISSING_ADDRESS))),
      profiles,
      skills,
      education,
      projects,
      now,
      now,
      t);
  }

  // ---------------------------------------------------------------------------
  // Properties

  /** The contact line has the " | " only between a present email and a present phone. */
  lemma ContactLineCases(email: Option<string>, phone: Option<string>)
    ensures var (e, p) := (Sanitize(email), Sanitize(phone));
            ContactLine(email, phone) ==
              if e == "" && p == "" then MISSING_CONTACT
              else if e == "" then p
              else if p == "" then e
              else e + " | " + p
  {
    JoinNonEmptyPair(" | ", Sanitize(email), Sanitize(phone));
  }

  /** The user id is the escaped `user_id` when that is truthy, otherwise the first fresh id; so it is never empty. */
  lemma RecordUserId(p: Payload, t: string, ids: seq<string>, now: string)
    requires IdsNeeded(p) <= |ids|
    ensures Truthy(p.userId) ==> RecordOf(p, t, ids, now).userId == Escape(p.userId.value)
    ensures !Truthy(p.userId) ==> RecordOf(p, t, ids, now).userId == ids[0]
    ensures (forall i :: 0 <= i < |ids| ==> ids[i] != "") ==> RecordOf(p, t, ids, now).userId != ""
  {
  }

  /** One record project per input project, in order, carrying its normalised title, description and image. */
  lemma RecordProjectContents(p: Payload, t: string, ids: seq<string>, now: string)
    requires IdsNeeded(p) <= |ids|
    ensures var r := RecordOf(p, t, ids, now);
            && |r.projects| == |p.projects|
            && forall i :: 0 <= i < |r.projects| ==>
                 var n := NormalizedProject(p.projects[i]);
                 r.projects[i].title == n.title && r.projects[i].description == n.description
                 && r.projects[i].image == n.image && n.image != ""
  {
  }

  /** Identifiers taken from a pool of distinct ids, after the first `d`, are distinct from each other and from the others. */
  lemma PoolIds(ps: seq<Project>, ids: seq<string>, d: nat)
    requires d + |ps| < |ids|
    requires forall i, j :: 0 <= i < j < |ids| ==> ids[i] != ids[j]
    ensures var rp := RecordProjects(ps, ids[d..]);
            && (forall i, j :: 0 <= i < j < |rp| ==> rp[i].projectId != rp[j].projectId)
            && (forall i :: 0 <= i < |rp| ==> rp[i].projectId != ids[d + |ps|])
            && (forall i :: 0 <= i < |rp| ==> forall k :: 0 <= k < d ==> rp[i].projectId != ids[k])
  {
    var rp := RecordProjects(ps, ids[d..]);
    assert forall i :: 0 <= i < |rp| ==> rp[i].projectId == ids[d + i];
  }

  /**
    With distinct fresh ids, every project id differs from every other, from
    the portfolio id and from a minted user id.
  */
  lemma RecordProjectIds(p: Payload, t: string, ids: seq<string>, now: string)
    requires IdsNeeded(p) <= |ids|
    requires forall i, j :: 0 <= i < j < |ids| ==> ids[i] != ids[j]
    ensures var r := RecordOf(p, t, ids, now);
            && (forall i, j :: 0 <= i < j < |r.projects| ==> r.projects[i].projectId != r.projects[j].projectId)
            && (forall i :: 0 <= i < |r.projects| ==> r.projects[i].projectId != r.portfolioId)
            && (!Truthy(p.userId) ==> forall i :: 0 <= i < |r.projects| ==> r.projects[i].projectId != r.userId)
            && (!Truthy(p.userId) ==> r.portfolioId != r.userId)
  {
    var r := RecordOf(p, t, ids, now);
    assert r.projects == RecordProjects(NormalizedProjects(p.projects), ids[UserIdDraws(p)..]);
    assert r.portfolioId == ids[UserIdDraws(p) + |p.projects|];
    RecordUserId(p, t, ids, now);
    PoolIds(NormalizedProjects(p.projects), ids, UserIdDraws(p));
  }

  /**
    The scalar fields: headline, photo and address fall back to their defaults
    when falsy and are never empty; unescaping gives back the supplied value or
    the default. Both timestamps are the same reading of the clock.
  */
  lemma RecordScalars(p: Payload, t: string, ids: seq<string>, now: string)
    requires IdsNeeded(p) <= |ids|
    ensures var r := RecordOf(p, t, ids, now);
            && r.headline != "" && r.photoUrl != "" && r.addressLine != "" && r.contactLine != ""
            && Unescape(r.headline) == (if Truthy(p.headline) then p.headline.value else DEFAULT_HEADLINE)
            && Unescape(r.photoUrl) == (if Truthy(p.photoUrl) then p.photoUrl.value else DEFAULT_PROFILE_PHOTO)
            && Unescape(r.addressLine) == (if Truthy(p.addressLine) then p.addressLine.value else MISSING_ADDRESS)
            && r.createdAt == r.updatedAt == now
            && r.siteTemplate == t
  {
    UnescapeEscape(if Truthy(p.headline) then p.headline.value else DEFAULT_HEADLINE);
    UnescapeEscape(if Truthy(p.photoUrl) then p.photoUrl.value else DEFAULT_PROFILE_PHOTO);
    UnescapeEscape(if Truthy(p.addressLine) then p.addressLine.value else MISSING_ADDRESS);
  }

  /** Headline, photo and address are the escaped value when it is truthy, and the escaped default otherwise. */
  lemma RecordDefaults(p: Payload, t: string, ids: seq<string>, now: string)
    requires IdsNeeded(p) <= |ids|
    ensures var r := RecordOf(p, t, ids, now);
            && r.headline == Escape(if Truthy(p.headline) then p.headline.value else DEFAULT_HEADLINE)
            && r.photoUrl == Escape(if Truthy(p.photoUrl) then p.photoUrl.value else DEFAULT_PROFILE_PHOTO)
            && r.addressLine == Escape(if Truthy(p.addressLine) then p.addressLine.value else MISSING_ADDRESS)
  {
  }

  /** A document without `basics` is used as it is: its record is the record of its top-level payload. */
  lemma FlatDocumentRecord(doc: InputDocument, t: string, ids: seq<string>, now: string)
    requires IdsBound(doc) <= |ids|
    requires doc.basics.None? && t in TEMPLATE_MODES
    ensures IdsNeeded(doc.top) <= |ids|
    ensures BuildRecord(doc, t, ids, now) == Ok(RecordOf(doc.top, t, ids, now))
  {
  }

  /** The payload `{"name": "Alice <Dev>", ...}` gives the record name "Alice &lt;Dev&gt;". */
  lemma EscapedNameExample(p: Payload, t: string, ids: seq<string>, now: string)
    requires IdsNeeded(p) <= |ids|
    requires p.name == Some(EXAMPLE_NAME)
    ensures RecordOf(p, t, ids, now).name == EXAMPLE_ESCAPED
  {
    SanitizeExample();
  }
}
