/**
  `_build_sql_projection` of generate_portfolio.py: the relational view of a
  portfolio record, one `portfolios` row and one `projects` row per project,
  each carrying the portfolio id as its foreign key.
*/
module Projection {
  import opened Schema

  /** A row of the `portfolios` table. */
  datatype PortfolioRow = PortfolioRow(
    portfolioId: string,
    userId: string,
    name: string,
    bio: string,
    createdAt: string,
    updatedAt: string)

  /** A row of the `projects` table; `portfolioId` refers to the owning portfolio row. */
  datatype ProjectRow = ProjectRow(
    projectId: string,
    portfolioId: string,
    title: string,
    description: string,
    image: string)

  /** The two tables. */
  datatype SqlProjection = SqlProjection(portfolios: seq<PortfolioRow>, projects: seq<ProjectRow>)

  /** The project row of one record project. */
  function ProjectRowOf(portfolioId: string, p: RecordProject): ProjectRow {
    ProjectRow(p.projectId, portfolioId, p.title, p.description, p.image)
  }

  /** `_build_sql_projection`. */
  function BuildSqlProjection(r: PortfolioRecord): (s: SqlProjection)
    ensures |s.portfolios| == 1
    ensures |s.projects| == |r.projects|
    ensures forall i :: 0 <= i < |s.projects| ==> s.projects[i].portfolioId == r.portfolioId
  {
    SqlProjection(
      [PortfolioRow(r.portfolioId, r.userId, r.name, r.bio, r.createdAt, r.updatedAt)],
      seq(|r.projects|, i requires 0 <= i < |r.projects| => ProjectRowOf(r.portfolioId, r.projects[i])))
  }

  /** A project row without its foreign key: the record project it came from. */
  function RecordProjectOf(row: ProjectRow): RecordProject {
    RecordProject(row.projectId, row.title, row.description, row.image)
  }

  /** Every project row with its foreign key dropped. */
  function RecordProjectsOf(rows: seq<ProjectRow>): (ps: seq<RecordProject>)
    ensures |ps| == |rows|
  {
    seq(|rows|, i requires 0 <= i < |rows| => RecordProjectOf(rows[i]))
  }

  /**
    The projection loses nothing: its single portfolio row holds the record's
    scalar fields, every project row refers to that row, and dropping the
    foreign key from the project rows gives the record's projects back, in order.
  */
  lemma ProjectionRoundTrip(r: PortfolioRecord)
    ensures var row := BuildSqlProjection(r).portfolios[0];
            && row.portfolioId == r.portfolioId && row.userId == r.userId
            && row.name == r.name && row.bio == r.bio
            && row.createdAt == r.createdAt && row.updatedAt == r.updatedAt
    ensures RecordProjectsOf(BuildSqlProjection(r).projects) == r.projects
    ensures var s := BuildSqlProjection(r);
            forall i :: 0 <= i < |s.projects| ==> s.projects[i].portfolioId == s.portfolios[0].portfolioId
  {
    var rows := BuildSqlProjection(r).projects;
    assert forall i :: 0 <= i < |r.projects| ==> RecordProjectsOf(rows)[i] == r.projects[i];
  }

  /** Distinct project ids in the record stay distinct keys of the `projects` table. */
  lemma ProjectionKeys(r: PortfolioRecord)
    requires forall i, j :: 0 <= i < j < |r.projects| ==> r.projects[i].projectId != r.projects[j].projectId
    ensures var s := BuildSqlProjection(r);
            forall i, j :: 0 <= i < j < |s.projects| ==> s.projects[i].projectId != s.projects[j].projectId
  {
  }

  /**
    The projection is determined by the portfolio id, user id, name, bio,
    timestamps and projects alone: records that agree on those give the same
    tables, whatever their other fields.
  */
  lemma ProjectionDeterministic(r1: PortfolioRecord, r2: PortfolioRecord)
    requires r1.portfolioId == r2.portfolioId && r1.userId == r2.userId
    requires r1.name == r2.name && r1.bio == r2.bio
    requires r1.createdAt == r2.createdAt && r1.updatedAt == r2.updatedAt
    requires r1.projects == r2.projects
    ensures BuildSqlProjection(r1) == BuildSqlProjection(r2)
  {
  }
}
