/** The dashboard's figures, all folds and filters over the client list. */
module Dashboard {
  import opened Types
  import Seqs
  import ProjectBoard
  import ClientList

  predicate IsOpen(p: Project) {
    p.status != Completed
  }

  /** `client.projects.filter(p => p.status !== Completed).length`. */
  function OpenInClient(c: Client): (n: nat)
    ensures n <= |c.projects|
  {
    |Seqs.Filter(c.projects, IsOpen)|
  }

  /** `clients.reduce((acc, client) => acc + open(client), acc)`, left to right: the start
      value plus the reference sum. */
  function OpenFrom(acc: int, cs: seq<Client>): (r: int)
    ensures r == acc + OpenSum(cs)
    decreases |cs|
  {
    if cs == [] then acc else OpenFrom(acc + OpenInClient(cs[0]), cs[1..])
  }

  /** The reference sum of the clients' open-project counts. */
  function OpenSum(cs: seq<Client>): nat {
    if cs == [] then 0 else OpenInClient(cs[0]) + OpenSum(cs[1..])
  }

  /** The "Open Projects" figure. */
  function OpenProjects(cs: seq<Client>): (n: int)
    ensures 0 <= n <= ProjectBoard.ProjectCount(cs)
    ensures n == ProjectBoard.ProjectCount(cs) - |ProjectBoard.Column(ProjectBoard.AllProjects(cs), Completed)|
  {
    OpenSumCounts(cs);
    ProjectBoard.ColumnCountsSum(ProjectBoard.AllProjects(cs));
    OpenFrom(0, cs)
  }

  /** Open projects and the board's Completed column together make up every project. */
  lemma {:induction false} OpenSumCounts(cs: seq<Client>)
    ensures OpenSum(cs) + |ProjectBoard.Column(ProjectBoard.AllProjects(cs), Completed)| == ProjectBoard.ProjectCount(cs)
    decreases |cs|
  {
    if cs != [] {
      OpenSumCounts(cs[1..]);
      CompletedSplit(cs);
      OpenPlusCompleted(cs[0].projects, cs[0].name, cs[0].company);
    }
  }

  /** The Completed column of the board splits into the first client's part and the rest's. */
  lemma CompletedSplit(cs: seq<Client>)
    requires cs != []
    ensures |ProjectBoard.Column(ProjectBoard.AllProjects(cs), Completed)|
         == |ProjectBoard.Column(ProjectBoard.Tag(cs[0].projects, cs[0].name, cs[0].company), Completed)|
          + |ProjectBoard.Column(ProjectBoard.AllProjects(cs[1..]), Completed)|
  {
    var t := ProjectBoard.Tag(cs[0].projects, cs[0].name, cs[0].company);
    Seqs.FilterAppend(t, ProjectBoard.AllProjects(cs[1..]), ProjectBoard.HasStatus(Completed));
  }

  /** Within one client, open and Completed projects make up all of them. */
  lemma {:induction false} OpenPlusCompleted(ps: seq<Project>, name: string, company: string)
    ensures |Seqs.Filter(ps, IsOpen)| + |ProjectBoard.Column(ProjectBoard.Tag(ps, name, company), Completed)| == |ps|
    decreases |ps|
  {
    if ps != [] {
      OpenPlusCompleted(ps[1..], name, company);
      var t := ProjectBoard.Tag(ps, name, company);
      assert t[1..] == ProjectBoard.Tag(ps[1..], name, company);
    }
  }

  /** On Hold projects count as open: the figure is the sum of the Planning, In Progress,
      In Review and On Hold counts of the board. */
  lemma OpenProjectsIncludesOnHold(cs: seq<Client>)
    ensures var all := ProjectBoard.AllProjects(cs);
      OpenProjects(cs) == |ProjectBoard.Column(all, Planning)| + |ProjectBoard.Column(all, InProgress)|
        + |ProjectBoard.Column(all, Review)| + |ProjectBoard.Column(all, OnHold)|
  {
    ProjectBoard.ColumnCountsSum(ProjectBoard.AllProjects(cs));
  }

  /** `clients.reduce((acc, c) => acc + c.totalRevenue, acc)`, left to right: the start value
      plus the reference sum. */
  function RevenueFrom(acc: int, cs: seq<Client>): (r: int)
    ensures r == acc + RevenueSum(cs)
    decreases |cs|
  {
    if cs == [] then acc else RevenueFrom(acc + cs[0].totalRevenue, cs[1..])
  }

  /** The reference sum of the clients' revenue. */
  function RevenueSum(cs: seq<Client>): int {
    if cs == [] then 0 else cs[0].totalRevenue + RevenueSum(cs[1..])
  }

  /** The "LTV Revenue" figure: the fold from 0, which is the plain sum. */
  function TotalRevenue(cs: seq<Client>): (t: int)
    ensures t == RevenueSum(cs)
    ensures cs == [] ==> t == 0
  {
    RevenueFrom(0, cs)
  }

  /** Revenue adds up over concatenated client lists. */
  lemma {:induction false} RevenueSumAppend(a: seq<Client>, b: seq<Client>)
    ensures RevenueSum(a + b) == RevenueSum(a) + RevenueSum(b)
    decreases |a|
  {
    if a == [] {
      assert a + b == b;
    } else {
      assert (a + b)[1..] == a[1..] + b;
      RevenueSumAppend(a[1..], b);
    }
  }

  /** Registering a client through the form leaves the revenue figure unchanged. */
  lemma SubmittedClientAddsNoRevenue(cs: seq<Client>, form: ClientList.ClientForm, id: string, now: string)
    ensures TotalRevenue(cs + [ClientList.Submit(form, id, now).0]) == TotalRevenue(cs)
  {
    RevenueSumAppend(cs, [ClientList.Submit(form, id, now).0]);
  }

  predicate IsActiveClient(c: Client) {
    c.status == Active
  }

  predicate IsLeadClient(c: Client) {
    c.status == Lead
  }

  /** The "Active Clients" figure: the number of clients In Motion. */
  function ActiveClients(cs: seq<Client>): (n: nat)
    ensures n <= |cs|
    ensures n == 0 <==> forall i :: 0 <= i < |cs| ==> cs[i].status != Active
    ensures n == |cs| <==> forall i :: 0 <= i < |cs| ==> cs[i].status == Active
  {
    FilterCountExtremes(cs, IsActiveClient);
    |Seqs.Filter(cs, IsActiveClient)|
  }

  /** A filter keeps nothing exactly when no element qualifies, and everything exactly when all do. */
  lemma FilterCountExtremes(cs: seq<Client>, p: Client -> bool)
    ensures |Seqs.Filter(cs, p)| == 0 <==> forall i :: 0 <= i < |cs| ==> !p(cs[i])
    ensures |Seqs.Filter(cs, p)| == |cs| <==> forall i :: 0 <= i < |cs| ==> p(cs[i])
  {
    var r := Seqs.Filter(cs, p);
    if |r| == |cs| {
      Seqs.SubseqSameLength(r, cs);
    }
    if |r| != 0 {
      assert r[0] in r;
    }
    if forall i :: 0 <= i < |cs| ==> p(cs[i]) {
      Seqs.FilterKeepsAll(cs, p);
    }
    if exists i :: 0 <= i < |cs| && p(cs[i]) {
      var i :| 0 <= i < |cs| && p(cs[i]);
      assert cs[i] in cs;
    }
  }

  /** The "Recent Lead Inquiries" list: the Fresh Start clients, in list order. */
  function RecentLeads(cs: seq<Client>): (r: seq<Client>)
    ensures Seqs.IsSubseq(r, cs)
    ensures forall c :: c in r <==> c in cs && c.status == Lead
    ensures forall c :: multiset(r)[c] == if c.status == Lead then multiset(cs)[c] else 0
  {
    Seqs.Filter(cs, IsLeadClient)
  }

  datatype RevenuePoint = RevenuePoint(month: string, revenue: int)

  /** The growth chart: two fixed months and the current revenue. */
  function RevenueData(cs: seq<Client>): (r: seq<RevenuePoint>)
    ensures |r| == 3
    ensures r[0] == RevenuePoint("Jan", 4200) && r[1] == RevenuePoint("Feb", 5800)
    ensures r[2] == RevenuePoint("Mar", RevenueSum(cs))
  {
    [RevenuePoint("Jan", 4200), RevenuePoint("Feb", 5800), RevenuePoint("Mar", TotalRevenue(cs))]
  }
}
