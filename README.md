# Portfolio generator, modelled in Dafny

`generate_portfolio.py` turns a user's data into a static portfolio site. Its
core is a pipeline that runs before anything is written:

- the input is either a flat portfolio payload or a JSON-Resume-like CV (a
  document with a `basics` key), and a CV is converted to the flat shape,
  with the site template (`portfolio`, `cv` or `hybrid`) choosing which
  projects it carries;
- the payload becomes a canonical portfolio record: every text is
  HTML-escaped, missing fields get their defaults, the lists of projects,
  profiles, skills and education are normalised, and the user, every project
  and the portfolio get fresh identifiers;
- the record has a relational projection (one `portfolios` row, one
  `projects` row per project with the portfolio id as foreign key);
- generation checks the template, the theme and the project-loop block of the
  page, then writes the data files and a workflow state of status "draft";
  `mark_site_validated` turns that state into "validated".

The modules follow that pipeline: `Text` holds escaping, Python truthiness,
the joins and `str.strip`; `Schema` holds the input and output shapes and the
constants; `Normalize` the four list normalisers; `Cv` the CV conversion and
format dispatch; `Record` the record builder; `Projection` the SQL
projection; `Workflow` generation and validation over a `SiteOutput` object
whose fields are the files the generator writes. The loops of the source are
methods with loop invariants, each proved equal to a specification function;
the properties are lemmas about those functions.

For a text field, an absent key, a JSON `null` and any falsy string are
`None` or `""` in the model: an `Option<string>` field is truthy exactly when
it holds a non-empty string. The `basics` key is the exception, because the
source tests whether the key is present, not its value: an
`InputDocument` with `basics == None` has no `basics` key at all, and a
`basics` key holding `null` or `{}` is `Some(NO_BASICS)`, which converts as a
CV whose basic fields are all absent. `uuid4()` is a supplied sequence `ids` drawn in the order the source
draws (the user id when needed, one per project, then the portfolio id), and
the clock reading is a parameter `now`.

## Model

| member | source | states |
|---|---|---|
| Text.Truthy | generate_portfolio.py:69 | Python truthiness of an optional text: present and non-empty; its use is stated by `Sanitize` and `KeepsProfileIff` |
| Text.OrElse | generate_portfolio.py:162-165 | Python `a or b` on optional texts: `a` when truthy, else `b`; its use is stated by `SanitizeOr` and `CvFallbacks` |
| Text.Escape | generate_portfolio.py:69 | `html.escape(s, quote=True)`, one character at a time; its properties are the `Escape…` and `UnescapeEscape` lemmas below |
| Text.EscapeChar | generate_portfolio.py:68-69 | the escape of one character is never empty |
| Text.EscapeLength | generate_portfolio.py:68-69 | escaping never shortens a text, and gives "" exactly for "" |
| Text.EscapeCharNoMarkup | generate_portfolio.py:68-69 | the escape of any character holds none of `<`, `>`, `"`, `'` |
| Text.EscapeNoMarkup | generate_portfolio.py:68-69 | an escaped text holds none of `<`, `>`, `"`, `'` |
| Text.UnescapeEscapeChar | generate_portfolio.py:68-69 | unescaping reads one escaped character back and goes on with the rest |
| Text.UnescapeEscape | generate_portfolio.py:68-69 | unescaping an escaped text gives the text back |
| Text.EscapeInjective | generate_portfolio.py:68-69 | two texts with the same escape are equal |
| Text.EscapePlain | generate_portfolio.py:68-69 | a text without `&`, `<`, `>`, `"`, `'` escapes to itself |
| Text.EscapeAppend | generate_portfolio.py:68-69 | escaping a concatenation escapes each part |
| Text.EscapeTagged | generate_portfolio.py:68-69 | `a<b>` escapes to `a&lt;b&gt;` when a and b are plain |
| Text.Sanitize | generate_portfolio.py:68-69 | `_sanitize_text` is "" exactly when the value is falsy |
| Text.SanitizeSafe | generate_portfolio.py:68-69 | the sanitized text holds no markup character; a falsy value gives ""; a truthy one gives its escape, which unescapes to the value |
| Text.SanitizeTagged | generate_portfolio.py:68-69 | a value `a<b>` with plain `a` and `b` sanitizes to `a&lt;b&gt;` |
| Text.SanitizeExample | tests/test_generate_portfolio.py:12-30 | the example name is "Alice <Dev>", its escape is "Alice &lt;Dev&gt;", and sanitizing the one gives the other |
| Text.SanitizeOr | generate_portfolio.py:219-220 | `_sanitize_text(v or default)` with a non-empty default is never empty |
| Text.Join | generate_portfolio.py:142-143 | `sep.join(parts)`; stated by `JoinStartsWithFirst` and, with the filter, `JoinNonEmpty` |
| Text.NonEmpty | generate_portfolio.py:109-112 | `filter(None, …)` (and the same non-empty filter of line 103) on texts, keeping order; stated by `NonEmptyContents`, `NonEmptyAppend`, `NonEmptyIdentity` |
| Text.JoinStartsWithFirst | generate_portfolio.py:143 | a join starts with its first part |
| Text.NonEmptyContents | generate_portfolio.py:103 | filtering empties never lengthens, leaves no empty string, and keeps exactly the non-empty members |
| Text.NonEmptyAppend | generate_portfolio.py:103 | filtering empties distributes over concatenation |
| Text.NonEmptyIdentity | generate_portfolio.py:103 | a list without empties is left as it is |
| Text.NonEmptyAround | generate_portfolio.py:103 | filtering keeps a middle part without empties whole, between the filtered ends |
| Text.JoinNonEmpty | generate_portfolio.py:109-112 | `sep.join(filter(None, parts))` is "" exactly when every part is "" |
| Text.JoinNonEmptyPair | generate_portfolio.py:109-112 | the join of two parts has the separator only when both are non-empty |
| Text.IsSpace | generate_portfolio.py:143 | Python's `str.isspace` on one character, the set `.strip()` removes; used by `StripLeftShape`, `StripRightShape`, `StripOutside` |
| Text.StripLeft | generate_portfolio.py:143 | `str.lstrip` never lengthens and never starts with whitespace |
| Text.StripRight | generate_portfolio.py:143 | `str.rstrip` never lengthens and never ends with whitespace |
| Text.StripLeftShape | generate_portfolio.py:143 | left stripping leaves a suffix and drops only whitespace |
| Text.StripRightShape | generate_portfolio.py:143 | right stripping leaves a prefix and drops only whitespace |
| Text.Strip | generate_portfolio.py:143 | `str.strip` neither starts nor ends with whitespace |
| Text.StripSlice | generate_portfolio.py:143 | the stripped text is the slice of the input after its leading whitespace |
| Text.StripOutside | generate_portfolio.py:143 | only whitespace lies outside the stripped slice |
| Text.StripTrimmed | generate_portfolio.py:143 | a trimmed text strips to itself |
| Text.StripIdempotent | generate_portfolio.py:143 | stripping twice is stripping once |
| Normalize.NormalizedProject | generate_portfolio.py:75-81 | a normalised project's image is never empty |
| Normalize.NormalizedProjectImage | generate_portfolio.py:79 | the image is the escaped image when truthy, the escaped placeholder otherwise, and unescapes to that value |
| Normalize.NormalizedProjects | generate_portfolio.py:72-82 | one project out per project in |
| Normalize.NormalizedProjectsShape | generate_portfolio.py:72-82 | same length and order, each entry the normalised input, every image non-empty |
| Normalize.NormalizeProjects | generate_portfolio.py:72-82 | the loop computes the normalised projects |
| Normalize.KeepsProfile | generate_portfolio.py:88-90 | the keep test of line 90; stated on raw fields by `KeepsProfileIff` and tied to the escaped test by `KeepsProfileEscaped` |
| Normalize.ProfileNetwork | generate_portfolio.py:88 | the escaped `network`; its emptiness is tied to the raw field by `KeepsProfileEscaped` |
| Normalize.ProfileUrl | generate_portfolio.py:89 | the escaped `url`, or `username` when the url is falsy; tied to the raw fields by `KeepsProfileEscaped` |
| Normalize.ProfileEntry | generate_portfolio.py:88-91 | the kept entry: escaped network or "Profil", and the escaped url or username; output entries are these by `NormalizedProfilesFrom`, with a non-empty network by `NormalizedProfilesNetworks` |
| Normalize.NormalizedProfiles | generate_portfolio.py:85-92 | never longer than the input |
| Normalize.NormalizedProfilesNetworks | generate_portfolio.py:88-91 | every output entry has a non-empty network |
| Normalize.KeepsProfileIff | generate_portfolio.py:88-90 | a profile is kept exactly when its network, url or username is truthy |
| Normalize.KeepsProfileEscaped | generate_portfolio.py:88-90 | the keep test on the raw fields is the source's test on the escaped network and url |
| Normalize.NormalizedProfilesKeep | generate_portfolio.py:85-92 | every kept input profile appears in the output |
| Normalize.NormalizedProfilesFrom | generate_portfolio.py:85-92 | every output entry comes from a kept input profile |
| Normalize.AllKeptLength | generate_portfolio.py:85-92 | when every profile is kept, the output is as long as the input |
| Normalize.DroppedShortens | generate_portfolio.py:85-92 | a dropped profile makes the output shorter than the input |
| Normalize.NormalizedProfilesAllKept | generate_portfolio.py:85-92 | nothing is dropped exactly when every profile is kept |
| Normalize.NormalizeProfiles | generate_portfolio.py:85-92 | the loop computes the normalised profiles |
| Normalize.SanitizeAll | generate_portfolio.py:101-102 | one sanitized keyword per keyword |
| Normalize.SanitizeAllStep | generate_portfolio.py:101-102 | sanitizing one more keyword appends its sanitized text |
| Normalize.EmittedSkillsStep | generate_portfolio.py:97-102 | one more skill appends its name (when non-empty), then its keywords |
| Normalize.SkillName | generate_portfolio.py:98-100 | what a skill's name adds: the escaped name when non-empty, nothing otherwise; stated by `EmittedSkillsStep` and `SkillBlockOrder` |
| Normalize.EmittedSkills | generate_portfolio.py:95-102 | the list the two loops build before the filter; stated step by step by `EmittedSkillsStep` |
| Normalize.NormalizedSkills | generate_portfolio.py:95-103 | the emitted list with empties filtered out; stated by `NormalizedSkillsNonEmpty`, `SkillsAppend`, `NormalizeSkills` |
| Normalize.NormalizedSkillsNonEmpty | generate_portfolio.py:103 | no skill in the output is empty |
| Normalize.SkillBlock | generate_portfolio.py:98-103 | what one skill contributes to the output after line 103's filter: its name and keywords, escaped, without empties; stated by `SkillBlockOrder` and `SkillsAppend` |
| Normalize.SkillBlockOrder | generate_portfolio.py:98-102 | a skill contributes its name before its non-empty keywords |
| Normalize.SkillsAppend | generate_portfolio.py:95-103 | the output for one more skill is the earlier output followed by that skill's block, so order is kept |
| Normalize.AppendKeywords | generate_portfolio.py:101-102 | the inner loop appends every keyword, escaped, in order |
| Normalize.NormalizeSkills | generate_portfolio.py:95-103 | the nested loops and final filter compute the normalised skills |
| Normalize.EducationEntry | generate_portfolio.py:109-119 | one reshaped education entry: escaped institution and score, joined title and period; stated by `EducationEntryFields` |
| Normalize.EducationEntryFields | generate_portfolio.py:109-119 | title and period join their two parts with " - " and " → " only when both are present; the title is empty exactly when study type and area are falsy |
| Normalize.NormalizedEducation | generate_portfolio.py:106-121 | exactly one entry per education item |
| Normalize.NormalizeEducation | generate_portfolio.py:106-121 | the loop computes the normalised education |
| Cv.MappedProject | generate_portfolio.py:130-136 | a CV project in the flat shape; stated by `MappedProjectFields` |
| Cv.WorkTitle | generate_portfolio.py:146 | position and company joined by " - " without empties; stated by `WorkProjectFields` |
| Cv.WorkDescription | generate_portfolio.py:140-143 | summary, a space and the highlights joined by ", ", stripped; stated by `WorkProjectFields` |
| Cv.WorkProject | generate_portfolio.py:144-150 | a work entry as a project without an image; stated by `WorkProjectFields` |
| Cv.AddressLine | generate_portfolio.py:169-179 | the location parts joined by " \| ", postal code and city sharing one part; stated by `AddressLineEmpty` |
| Cv.MappedProjects | generate_portfolio.py:129-136 | one mapped project per CV project |
| Cv.WorkProjects | generate_portfolio.py:138-150 | one project per work entry |
| Cv.SelectProjects | generate_portfolio.py:152-159 | succeeds exactly for the three templates; any other raises the unsupported-template error |
| Cv.CvPayload | generate_portfolio.py:124-184 | succeeds exactly for a known template, raising otherwise; carries no more projects than CV projects plus work entries |
| Cv.CvToPayload | generate_portfolio.py:124-184 | the two loops and the selection compute the converted payload |
| Cv.NormalizedInput | generate_portfolio.py:187-191 | a document without `basics` is returned unchanged; one with it converts exactly when the template is known |
| Cv.PortfolioSelection | generate_portfolio.py:152-153 | `portfolio` carries exactly the mapped CV projects, in order |
| Cv.CvSelection | generate_portfolio.py:154-155 | `cv` carries exactly the work entries, in order |
| Cv.HybridSelection | generate_portfolio.py:156-157 | `hybrid` carries the mapped CV projects followed by the work entries |
| Cv.MappedProjectFields | generate_portfolio.py:130-136 | `name` becomes the title and the title key is dropped; once normalised, a mapped project has the escaped name and description and exactly the image the CV project would get |
| Cv.WorkProjectFields | generate_portfolio.py:139-150 | the title is position and company with " - " only when both are present; the description has no outer whitespace; the image is empty |
| Cv.CvFallbacks | generate_portfolio.py:162-165 | `bio` is the summary or else the label; `user_id` is the top-level one or else the email; the headline is the label |
| Cv.NullBasics | generate_portfolio.py:125-180 | a `basics` key holding `null` or `{}` still converts, with name, bio, headline, photo, email, phone and profiles absent and the top-level `user_id` kept when truthy |
| Cv.AddressLineEmpty | generate_portfolio.py:169-179 | the address line is empty exactly when every location field is falsy |
| Record.RecordOf | generate_portfolio.py:199-241 | the record of a flat payload; its fields are stated by `RecordUserId`, `RecordProjectContents`, `RecordProjectIds`, `RecordScalars`, `RecordDefaults` |
| Record.ContactLine | generate_portfolio.py:221-232 | the contact line is never empty |
| Record.ContactLineCases | generate_portfolio.py:221-232 | it is the missing-contact text, the one present part, or email " \| " phone |
| Record.UserIdDraws | generate_portfolio.py:200-203 | at most one identifier goes to the user |
| Record.RecordProjects | generate_portfolio.py:204-213 | one record project per normalised project |
| Record.RecordProjectsStep | generate_portfolio.py:204-213 | one more project appends it with the next identifier |
| Record.BuildRecord | generate_portfolio.py:194-241 | fails exactly for an unknown template, with the unsupported-template error, before anything else |
| Record.BuildPortfolioRecord | generate_portfolio.py:194-241 | the template check, the dispatch and the record computation give `BuildRecord` |
| Record.PayloadRecord | generate_portfolio.py:199-241 | the user-id draw, the project loop and the portfolio id compute the record of the payload |
| Record.RecordUserId | generate_portfolio.py:200-203 | the user id is the escaped `user_id` when truthy, else the first fresh id, so never empty with non-empty ids |
| Record.RecordProjectContents | generate_portfolio.py:204-213 | one record project per input project, in order, with its normalised title, description and non-empty image |
| Record.PoolIds | generate_portfolio.py:208 | ids taken in order from distinct ones are distinct from each other, from the next one and from the earlier ones |
| Record.RecordProjectIds | generate_portfolio.py:203-215 | with distinct fresh ids, project ids are pairwise distinct and differ from the portfolio id and a minted user id |
| Record.RecordScalars | generate_portfolio.py:219-240 | headline, photo, address and contact are non-empty; the first three unescape to the value or the default; `created_at == updated_at == now`; the template is recorded |
| Record.RecordDefaults | generate_portfolio.py:219-233 | headline, photo and address are exactly the escaped value when truthy and the escaped default otherwise |
| Record.FlatDocumentRecord | generate_portfolio.py:189-198 | a document without `basics` gives the record of its own payload |
| Record.EscapedNameExample | tests/test_generate_portfolio.py:12-30 | the name "Alice <Dev>" is recorded as "Alice &lt;Dev&gt;" |
| Projection.ProjectRowOf | generate_portfolio.py:257-263 | one `projects` row: the project's fields and the portfolio id as foreign key; stated by `ProjectionRoundTrip` |
| Projection.BuildSqlProjection | generate_portfolio.py:244-266 | one portfolio row, one project row per record project, each with the record's portfolio id |
| Projection.RecordProjectsOf | generate_portfolio.py:256-265 | one record project per row |
| Projection.ProjectionRoundTrip | generate_portfolio.py:244-266 | the portfolio row copies the scalar fields; every project row refers to the portfolio row; dropping the foreign keys gives the record's projects back, in order |
| Projection.ProjectionKeys | generate_portfolio.py:256-265 | distinct project ids stay distinct table keys |
| Projection.ProjectionDeterministic | generate_portfolio.py:244-266 | the tables depend only on the fields they copy |
| Workflow.SiteDataOf | generate_portfolio.py:360-378 | the content file: the record's content fields without the portfolio and user ids or the timestamps (each project keeps its `project_id`); stated by `GeneratePortfolio` |
| Workflow.DraftState | generate_portfolio.py:387-400 | the draft workflow state; stated by `DraftStateContents` |
| Workflow.ValidatedState | generate_portfolio.py:278-279 | the state with status and validation time set; stated by `ValidatedStateKeeps`, `ValidateTwice` |
| Workflow.Generation | generate_portfolio.py:292-349 | succeeds exactly when template and theme are known and the project-loop replacement neither raises nor replaces other than one block, naming the first check that fails |
| Workflow.DefaultArguments | generate_portfolio.py:284-289 | with the default template "hybrid" and theme "classic", a CV converts and only the project-loop replacement can make a generation fail |
| Workflow.SiteOutput.constructor | generate_portfolio.py:269-273 | an output directory holding whatever data files and workflow state an earlier generation left |
| Workflow.SiteOutput.GeneratePortfolio | generate_portfolio.py:284-410 | nothing changes on failure; otherwise record, projection, content file and a draft state are written and the response is returned |
| Workflow.SiteOutput.MarkSiteValidated | generate_portfolio.py:269-281 | fails, changing nothing, without a state; else sets status and validation time and touches no other file |
| Workflow.DraftStateContents | generate_portfolio.py:387-400 | the draft state has exactly its five keys, with status "draft" |
| Workflow.ValidatedStateKeeps | generate_portfolio.py:278-279 | validation sets status and time, adds no other key and keeps every other value |
| Workflow.ValidateTwice | generate_portfolio.py:278-279 | validating again only moves the validation time |
| Workflow.ValidatedDraft | generate_portfolio.py:278-279 | a validated draft keeps its portfolio, template, theme and admin url |
| Workflow.GenerationRecord | generate_portfolio.py:301 | a generation that passes its checks records the template and one clock reading |

## Left out

- File-system effects of `generate_portfolio` (directory creation, the HTML, CSS, admin and Netlify files): the output directory is a `SiteOutput` object holding only the three data files and the workflow state.
- HTML rendering and the `re.subn` replacement of the project-loop block: what the replacement does is the parameter `loop` of `Workflow.Generation`, either the count of replaced blocks or the `re.error` it raises.
- Workflow.Generation, Workflow.DefaultArguments, Workflow.SiteOutput.GeneratePortfolio: which project texts make `re.subn` raise is not computed. The cards are passed as a replacement template, so a title, description or image holding a backslash escape that `re` rejects (`C:\dev`, `Step \1`) raises before anything is written; the model receives that outcome as `RaisedBadEscape` and does not derive it from the project texts.
- The MongoDB `insert_one` and the `storage` keys it adds to the response: it is a call into a database.
- `argparse` and `main`: command-line handling only.
- api_server.py and jobsmatch_integration_example.py: HTTP routing and a network client, not part of this model.
- `uuid4()` and `datetime.now()`: they are the inputs `ids` and `now`. `Record.BuildRecord` and its callers require at least as many ids as the source could draw.
- List entries that are not dictionaries (a skill written as a bare string, as `data/portfolio.json` stores them): the source raises `AttributeError` on `.get`; every list entry of the input types is a record, so the model has no such input.
- A `keywords` value that is not a list (a string, whose characters the loop at line 101 would walk, or a dictionary, whose keys it would walk): `SkillItem.keywords` is a list of optional texts, so the model has no such input.
- Non-string JSON values (numbers, nested objects where text is expected): every text field is a string or absent, so `str(value)` is the identity.
- `work.summary` set to `null`: the source raises a `TypeError` in the join; the model reads it as absent.
- Cv.MappedProject: a CV project whose `name` or `description` is `null` keeps `None` in the source and becomes `""` in the model; both sanitize to "", so the record is the same.
- An unreadable (`JSONDecodeError`) workflow state file: it is treated as a missing state, as the source does.
- Education entries kept exactly as given, and identifiers kept across regenerations: the code does neither. It reshapes each education entry and mints new identifiers on every generation, and the model does the same.
