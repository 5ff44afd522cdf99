/**
  The list normalisers of generate_portfolio.py: projects, profiles, skills and
  education. Each source loop is a method proved equal to a pure definition,
  and the properties the generator relies on are proved about that definition.
*/
module Normalize {
  import opened Wrappers
  import opened Text
  import opened Schema

  /** One entry of `_normalize_projects`: escaped text, and an image that is never empty. */
  function NormalizedProject(p: ProjectItem): (r: Project)
    ensures r.image != ""
  {
    Project(Sanitize(p.title), Sanitize(p.description), SanitizeOr(p.image, DEFAULT_PROJECT_IMAGE))
  }

  /**
    A falsy image becomes the (escaped) default placeholder and any other image
    is kept, escaped: unescaping the result gives back the image or the default.
  */
  lemma NormalizedProjectImage(p: ProjectItem)
    ensures Truthy(p.image) ==> NormalizedProject(p).image == Escape(p.image.value)
    ensures !Truthy(p.image) ==> NormalizedProject(p).image == Escape(DEFAULT_PROJECT_IMAGE)
    ensures Unescape(NormalizedProject(p).image) == if Truthy(p.image) then p.image.value else DEFAULT_PROJECT_IMAGE
  {
    UnescapeEscape(if Truthy(p.image) then p.image.value else DEFAULT_PROJECT_IMAGE);
  }

  /** What `_normalize_projects` computes: one normalised project per input project, in order. */
  function NormalizedProjects(ps: seq<ProjectItem>): (r: seq<Project>)
    ensures |r| == |ps|
  {
    seq(|ps|, i requires 0 <= i < |ps| => NormalizedProject(ps[i]))
  }

  /** The number and order of the projects are kept, and no image is empty. */
  lemma NormalizedProjectsShape(ps: seq<ProjectItem>)
    ensures |NormalizedProjects(ps)| == |ps|
    ensures forall i :: 0 <= i < |ps| ==> NormalizedProjects(ps)[i] == NormalizedProject(ps[i])
    ensures forall i :: 0 <= i < |ps| ==> NormalizedProjects(ps)[i].image != ""
  {
  }

  /** `_normalize_projects`. */
  method NormalizeProjects(projects: seq<ProjectItem>) returns (normalized: seq<Project>)
    ensures normalized == NormalizedProjects(projects)
  {
    normalized := [];
    for i := 0 to |projects|
      invariant |normalized| == i
      invariant forall k :: 0 <= k < i ==> normalized[k] == NormalizedProject(projects[k])
    {
      var project := projects[i];
      normalized := normalized + [Project(Sanitize(project.title), Sanitize(project.description),
                                          Sanitize(OrElse(project.image, Some(DEFAULT_PROJECT_IMAGE))))];
    }
    assert normalized == NormalizedProjects(projects);
  }

  // ---------------------------------------------------------------------------
  // Profiles

  /** The escaped `network` of a profile. */
  function ProfileNetwork(p: ProfileItem): string {
    Sanitize(p.network)
  }

  /** The escaped `url`, falling back to `username`. */
  function ProfileUrl(p: ProfileItem): string {
    Sanitize(OrElse(p.url, p.username))
  }

  /**
    `_normalize_profiles` keeps a profile when its escaped network or url is
    non-empty, that is when the raw network, or the url falling back to the
    username, is truthy (`KeepsProfileEscaped`).
  */
  predicate KeepsProfile(p: ProfileItem) {
    Truthy(p.network) || Truthy(OrElse(p.url, p.username))
  }

  /** The kept entry: the network defaults to "Profil". */
  function ProfileEntry(p: ProfileItem): Profile {
    Profile(if ProfileNetwork(p) != "" then ProfileNetwork(p) else DEFAULT_NETWORK, ProfileUrl(p))
  }

  /** What `_normalize_profiles` computes, one input entry at a time from the front. */
  function NormalizedProfiles(ps: seq<ProfileItem>): (r: seq<Profile>)
    ensures |r| <= |ps|
  {
    if ps == [] then []
    else
      var last := ps[|ps| - 1];
      NormalizedProfiles(ps[..|ps| - 1]) + (if KeepsProfile(last) then [ProfileEntry(last)] else [])
  }

  /** A profile is dropped exactly when its network, url and username are all falsy. */
  lemma KeepsProfileIff(p: ProfileItem)
    ensures KeepsProfile(p) <==> Truthy(p.network) || Truthy(p.url) || Truthy(p.username)
  {
  }

  /** Every output entry has a non-empty network (`ProfileEntry` gives the escaped one, or "Profil"). */
  lemma {:induction false} NormalizedProfilesNetworks(ps: seq<ProfileItem>)
    ensures forall i :: 0 <= i < |NormalizedProfiles(ps)| ==> NormalizedProfiles(ps)[i].network != ""
  {
    if ps != [] {
      NormalizedProfilesNetworks(ps[..|ps| - 1]);
    }
  }

  /** The keep test on the raw fields is the test the source makes on the escaped ones. */
  lemma KeepsProfileEscaped(p: ProfileItem)
    ensures KeepsProfile(p) <==> ProfileNetwork(p) != "" || ProfileUrl(p) != ""
  {
  }

  /** Every kept input entry appears in the output. */
  lemma {:induction false} NormalizedProfilesKeep(ps: seq<ProfileItem>)
    ensures forall q :: q in ps && KeepsProfile(q) ==> ProfileEntry(q) in NormalizedProfiles(ps)
  {
    if ps != [] {
      var init, last := ps[..|ps| - 1], ps[|ps| - 1];
      assert ps == init + [last];
      NormalizedProfilesKeep(init);
    }
  }

  /** Every output entry comes from a kept input entry. */
  lemma {:induction false} NormalizedProfilesFrom(ps: seq<ProfileItem>)
    ensures forall x :: x in NormalizedProfiles(ps) ==> exists q :: q in ps && KeepsProfile(q) && x == ProfileEntry(q)
  {
    if ps != [] {
      var init, last := ps[..|ps| - 1], ps[|ps| - 1];
      assert ps == init + [last];
      NormalizedProfilesFrom(init);
    }
  }

  /** When every entry is kept, nothing is dropped. */
  lemma {:induction false} AllKeptLength(ps: seq<ProfileItem>)
    requires forall i :: 0 <= i < |ps| ==> KeepsProfile(ps[i])
    ensures |NormalizedProfiles(ps)| == |ps|
  {
    if ps != [] {
      var init := ps[..|ps| - 1];
      assert forall i :: 0 <= i < |init| ==> init[i] == ps[i];
      AllKeptLength(init);
    }
  }

  /** A dropped entry shortens the output. */
  lemma {:induction false} DroppedShortens(ps: seq<ProfileItem>, k: nat)
    requires k < |ps| && !KeepsProfile(ps[k])
    ensures |NormalizedProfiles(ps)| < |ps|
  {
    var init, last := ps[..|ps| - 1], ps[|ps| - 1];
    var added := if KeepsProfile(last) then [ProfileEntry(last)] else [];
    assert NormalizedProfiles(ps) == NormalizedProfiles(init) + added;
    if k < |init| {
      assert init[k] == ps[k];
      DroppedShortens(init, k);
    } else {
      assert added == [];
    }
  }

  /** Nothing is dropped exactly when every entry is kept. */
  lemma NormalizedProfilesAllKept(ps: seq<ProfileItem>)
    ensures |NormalizedProfiles(ps)| == |ps| <==> forall i :: 0 <= i < |ps| ==> KeepsProfile(ps[i])
  {
    if forall i :: 0 <= i < |ps| ==> KeepsProfile(ps[i]) {
      AllKeptLength(ps);
    } else {
      var k :| 0 <= k < |ps| && !KeepsProfile(ps[k]);
      DroppedShortens(ps, k);
    }
  }

  /** `_normalize_profiles`. */
  method NormalizeProfiles(profiles: seq<ProfileItem>) returns (normalized: seq<Profile>)
    ensures normalized == NormalizedProfiles(profiles)
  {
    normalized := [];
    for i := 0 to |profiles|
      invariant normalized == NormalizedProfiles(profiles[..i])
    {
      var profile := profiles[i];
      var network := Sanitize(profile.network);
      var url := Sanitize(OrElse(profile.url, profile.username));
      if network != "" || url != "" {
        normalized := normalized + [Profile(if network != "" then network else DEFAULT_NETWORK, url)];
      }
      assert profiles[..i + 1][..i] == profiles[..i];
    }
    assert profiles[..|profiles|] == profiles;
  }

  // ---------------------------------------------------------------------------
  // Skills

  /** Each value escaped, in order. */
  function SanitizeAll(vs: seq<Option<string>>): (r: seq<string>)
    ensures |r| == |vs|
  {
    if vs == [] then [] else SanitizeAll(vs[..|vs| - 1]) + [Sanitize(vs[|vs| - 1])]
  }

  lemma SanitizeAllStep(vs: seq<Option<string>>, j: nat)
    requires j < |vs|
    ensures SanitizeAll(vs[..j + 1]) == SanitizeAll(vs[..j]) + [Sanitize(vs[j])]
  {
    assert vs[..j + 1][..j] == vs[..j];
  }

  /** What the loop of `_normalize_skills` appends for a skill's name: the name, when non-empty. */
  function SkillName(s: SkillItem): seq<string> {
    if Sanitize(s.name) != "" then [Sanitize(s.name)] else []
  }

  /** What the loop of `_normalize_skills` appends for a list of skills: per skill, its name, then every keyword. */
  function EmittedSkills(ss: seq<SkillItem>): seq<string> {
    if ss == [] then []
    else
      var last := ss[|ss| - 1];
      EmittedSkills(ss[..|ss| - 1]) + SkillName(last) + SanitizeAll(last.keywords)
  }

  lemma EmittedSkillsStep(ss: seq<SkillItem>, i: nat)
    requires i < |ss|
    ensures EmittedSkills(ss[..i + 1]) == EmittedSkills(ss[..i]) + SkillName(ss[i]) + SanitizeAll(ss[i].keywords)
  {
    assert ss[..i + 1][..i] == ss[..i];
  }

  /** `_normalize_skills`: the emitted values without the empty ones. */
  function NormalizedSkills(ss: seq<SkillItem>): seq<string> {
    NonEmpty(EmittedSkills(ss))
  }

  /** No skill of the result is empty. */
  lemma NormalizedSkillsNonEmpty(ss: seq<SkillItem>)
    ensures forall i :: 0 <= i < |NormalizedSkills(ss)| ==> NormalizedSkills(ss)[i] != ""
  {
    NonEmptyContents(EmittedSkills(ss));
  }

  /** The output block of one skill: its non-empty name, then its non-empty keywords. */
  function SkillBlock(s: SkillItem): seq<string> {
    NonEmpty([Sanitize(s.name)] + SanitizeAll(s.keywords))
  }

  /** A skill's name comes before its keywords, which keep their order. */
  lemma SkillBlockOrder(s: SkillItem)
    ensures SkillBlock(s) == SkillName(s) + NonEmpty(SanitizeAll(s.keywords))
  {
    NonEmptyAppend([Sanitize(s.name)], SanitizeAll(s.keywords));
    assert [Sanitize(s.name)][1..] == [];
  }

  /** Skills are emitted block by block in input order. */
  lemma SkillsAppend(ss: seq<SkillItem>, s: SkillItem)
    ensures NormalizedSkills(ss + [s]) == NormalizedSkills(ss) + SkillBlock(s)
  {
    var all := ss + [s];
    assert all[..|all| - 1] == ss && all[|all| - 1] == s;
    var (e, n, k) := (EmittedSkills(ss), SkillName(s), SanitizeAll(s.keywords));
    assert EmittedSkills(all) == e + n + k;
    NonEmptyAround(e, n, k);
    SkillBlockOrder(s);
  }

  /** The inner loop of `_normalize_skills`: every keyword of a skill, escaped, appended in order. */
  method AppendKeywords(emitted: seq<string>, keywords: seq<Option<string>>) returns (r: seq<string>)
    ensures r == emitted + SanitizeAll(keywords)
  {
    r := emitted;
    for j := 0 to |keywords|
      invariant r == emitted + SanitizeAll(keywords[..j])
    {
      SanitizeAllStep(keywords, j);
      r := r + [Sanitize(keywords[j])];
    }
    assert keywords[..|keywords|] == keywords;
  }

  /** `_normalize_skills`: a loop over the skills, a loop over each skill's keywords, then a filter. */
  method NormalizeSkills(skills: seq<SkillItem>) returns (normalized: seq<string>)
    ensures normalized == NormalizedSkills(skills)
  {
    var emitted: seq<string> := [];
    for i := 0 to |skills|
      invariant emitted == EmittedSkills(skills[..i])
    {
      var skill := skills[i];
      var name := Sanitize(skill.name);
      if name != "" {
        emitted := emitted + [name];
      }
      emitted := AppendKeywords(emitted, skill.keywords);
      EmittedSkillsStep(skills, i);
    }
    assert skills[..|skills|] == skills;
    normalized := NonEmpty(emitted);
  }

  // ---------------------------------------------------------------------------
  // Education

  /** One entry of `_normalize_education`. */
  function EducationEntry(e: EducationItem): Education {
    Education(
      Sanitize(e.institution),
      JoinNonEmpty(" - ", [Sanitize(e.studyType), Sanitize(e.area)]),
      JoinNonEmpty(" \U{2192} ", [Sanitize(e.startDate), Sanitize(e.endDate)]),
      Sanitize(e.score))
  }

  /**
    The title is "studyType - area" and the period "startDate → endDate", each
    part escaped, with the separator only when both parts are present.
  */
  lemma EducationEntryFields(e: EducationItem)
    ensures var (st, ar) := (Sanitize(e.studyType), Sanitize(e.area));
            EducationEntry(e).title == if st == "" then ar else if ar == "" then st else st + " - " + ar
    ensures var (sd, ed) := (Sanitize(e.startDate), Sanitize(e.endDate));
            EducationEntry(e).period == if sd == "" then ed else if ed == "" then sd else sd + " \U{2192} " + ed
    ensures EducationEntry(e).title == "" <==> !Truthy(e.studyType) && !Truthy(e.area)
  {
    JoinNonEmptyPair(" - ", Sanitize(e.studyType), Sanitize(e.area));
    JoinNonEmptyPair(" \U{2192} ", Sanitize(e.startDate), Sanitize(e.endDate));
  }

  /** What `_normalize_education` computes: exactly one entry per input item, in order. */
  function NormalizedEducation(es: seq<EducationItem>): (r: seq<Education>)
    ensures |r| == |es|
  {
    seq(|es|, i requires 0 <= i < |es| => EducationEntry(es[i]))
  }

  /** `_normalize_education`. */
  method NormalizeEducation(education: seq<EducationItem>) returns (normalized: seq<Education>)
    ensures normalized == NormalizedEducation(education)
  {
    normalized := [];
    for i := 0 to |education|
      invariant |normalized| == i
      invariant forall k :: 0 <= k < i ==> normalized[k] == EducationEntry(education[k])
    {
      var item := education[i];
      var title := JoinNonEmpty(" - ", [Sanitize(item.studyType), Sanitize(item.area)]);
      var period := JoinNonEmpty(" \U{2192} ", [Sanitize(item.startDate), Sanitize(item.endDate)]);
      normalized := normalized + [Education(Sanitize(item.institution), title, period, Sanitize(item.score))];
    }
    assert normalized == NormalizedEducation(education);
  }
}
