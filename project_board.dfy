/** The kanban board: every project of every client, tagged with its client, and one column
    per workflow status. */
module ProjectBoard {
  import opened Types
  import Seqs

  /** `{ ...p, clientName: c.name, company: c.company }`: a project with its owner's name and company. */
  datatype BoardProject = BoardProject(project: Project, clientName: string, company: string)

  /** The number of projects over all clients. */
  function ProjectCount(cs: seq<Client>): nat {
    if cs == [] then 0 else |cs[0].projects| + ProjectCount(cs[1..])
  }

  /** `c.projects.map(p => ({ ...p, clientName: c.name, company: c.company }))`. */
  function Tag(ps: seq<Project>, name: string, company: string): (r: seq<BoardProject>)
    ensures |r| == |ps|
    ensures forall j :: 0 <= j < |ps| ==> r[j] == BoardProject(ps[j], name, company)
  {
    if ps == [] then [] else [BoardProject(ps[0], name, company)] + Tag(ps[1..], name, company)
  }

  /** `allProjects`: the clients' tagged projects, client by client. */
  function AllProjects(cs: seq<Client>): (r: seq<BoardProject>)
    ensures |r| == ProjectCount(cs)
  {
    if cs == [] then [] else Tag(cs[0].projects, cs[0].name, cs[0].company) + AllProjects(cs[1..])
  }

  /** Client-major order: project `j` of client `i` sits after all projects of the clients before `i`. */
  lemma {:induction false} AllProjectsAt(cs: seq<Client>, i: int, j: int)
    requires 0 <= i < |cs| && 0 <= j < |cs[i].projects|
    ensures ProjectCount(cs[..i]) + j < |AllProjects(cs)|
    ensures AllProjects(cs)[ProjectCount(cs[..i]) + j] == BoardProject(cs[i].projects[j], cs[i].name, cs[i].company)
    decreases i
  {
    if i == 0 {
      assert cs[..0] == [];
    } else {
      AllProjectsAt(cs[1..], i - 1, j);
      assert cs[..i][0] == cs[0] && cs[..i][1..] == cs[1..][..i - 1];
    }
  }

  /** Every board entry is a project of some client, carrying that client's name and company. */
  lemma {:induction false} AllProjectsFrom(cs: seq<Client>, k: int)
    requires 0 <= k < |AllProjects(cs)|
    ensures exists i, j ::
      0 <= i < |cs| && 0 <= j < |cs[i].projects| &&
        AllProjects(cs)[k] == BoardProject(cs[i].projects[j], cs[i].name, cs[i].company)
    decreases |cs|
  {
    var n := |cs[0].projects|;
    if k < n {
      assert AllProjects(cs)[k] == BoardProject(cs[0].projects[k], cs[0].name, cs[0].company);
    } else {
      AllProjectsFrom(cs[1..], k - n);
      var i, j :| 0 <= i < |cs[1..]| && 0 <= j < |cs[1..][i].projects| &&
        AllProjects(cs[1..])[k - n] == BoardProject(cs[1..][i].projects[j], cs[1..][i].name, cs[1..][i].company);
      assert cs[1..][i] == cs[i + 1];
    }
  }

  /** Flattening distributes over concatenation of client lists. */
  lemma {:induction false} AllProjectsAppend(a: seq<Client>, b: seq<Client>)
    ensures AllProjects(a + b) == AllProjects(a) + AllProjects(b)
    decreases |a|
  {
    if a == [] {
      assert a + b == b;
    } else {
      assert (a + b)[1..] == a[1..] + b;
      AllProjectsAppend(a[1..], b);
    }
  }

  /** The board's columns, left to right. On Hold has none. */
  const Columns: seq<ProjectStatus> := [Planning, InProgress, Review, Completed]

  lemma ColumnsShape()
    ensures |Columns| == 4
    ensures Columns[0] == Planning && Columns[1] == InProgress && Columns[2] == Review && Columns[3] == Completed
    ensures OnHold !in Columns
  {
  }

  function HasStatus(status: ProjectStatus): BoardProject -> bool {
    (e: BoardProject) => e.project.status == status
  }

  /** `allProjects.filter(p => p.status === status)`: the column's cards, in board order;
      its badge is the length. */
  function Column(all: seq<BoardProject>, status: ProjectStatus): (r: seq<BoardProject>)
    ensures Seqs.IsSubseq(r, all)
    ensures forall e :: e in r <==> e in all && e.project.status == status
    ensures forall e :: multiset(r)[e] == if e.project.status == status then multiset(all)[e] else 0
  {
    Seqs.Filter(all, HasStatus(status))
  }

  /** The four columns together hold every entry that is not On Hold: their badges add up to
      the number of entries less the On Hold ones. */
  lemma {:induction false} ColumnCountsSum(all: seq<BoardProject>)
    ensures |Column(all, Planning)| + |Column(all, InProgress)| + |Column(all, Review)|
          + |Column(all, Completed)| == |all| - |Column(all, OnHold)|
    decreases |all|
  {
    if all != [] {
      ColumnCountsSum(all[1..]);
      ColumnCons(all, Planning);
      ColumnCons(all, InProgress);
      ColumnCons(all, Review);
      ColumnCons(all, Completed);
      ColumnCons(all, OnHold);
    }
  }

  /** One step of a column's filter. */
  lemma ColumnCons(all: seq<BoardProject>, status: ProjectStatus)
    requires all != []
    ensures |Column(all, status)| == (if all[0].project.status == status then 1 else 0) + |Column(all[1..], status)|
  {
  }
}
