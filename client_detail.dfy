/** The client detail view: the progress formula, link normalisation, and the handlers that
    edit one client's projects, tasks, status and mockups. Each handler maps the client shown
    to the record it hands to `onUpdate`, or to `None` when it sends no update. */
module ClientDetail {
  import opened Wrappers
  import opened Types
  import opened Text
  import Seqs
  import Seed

  // ---------------------------------------------------------------- progress

  predicate IsDone(t: Task) {
    t.completed
  }

  /** `tasks.filter(t => t.completed).length`. */
  function CompletedCount(tasks: seq<Task>): (c: nat)
    ensures c <= |tasks|
  {
    |Seqs.Filter(tasks, IsDone)|
  }

  /** Multiplying by a non-negative factor keeps an inequality. */
  lemma MulMonotone(a: int, x: int, y: int)
    requires 0 <= a && x <= y
    ensures a * x <= a * y
  {
    assert a * y - a * x == a * (y - x);
  }

  /** `Math.round(c / n * 100)` in exact arithmetic: the integer nearest to 100c/n,
      a half rounded up. */
  function RoundedPercent(c: nat, n: nat): (r: int)
    requires 0 < n && c <= n
    ensures 0 <= r <= 100
    ensures 2 * n * r - n <= 200 * c < 2 * n * r + n
  {
    var q := (200 * c + n) / (2 * n);
    DivIsNearest(c, n, q);
    q
  }

  lemma DivIsNearest(c: nat, n: nat, q: int)
    requires 0 < n && c <= n && q == (200 * c + n) / (2 * n)
    ensures 0 <= q <= 100
    ensures 2 * n * q - n <= 200 * c < 2 * n * q + n
  {
    var a, b := 200 * c + n, 2 * n;
    var m := a % b;
    assert a == b * q + m && 0 <= m < b;
    if q > 100 {
      MulMonotone(b, 101, q);
    }
    if q < 0 {
      MulMonotone(b, q, -1);
    }
  }

  /** `calculateProgress`: 0 for no tasks, otherwise the rounded percentage of completed tasks. */
  function CalculateProgress(tasks: seq<Task>): (r: int)
    ensures 0 <= r <= 100
    ensures tasks == [] ==> r == 0
    ensures tasks != [] ==>
      2 * |tasks| * r - |tasks| <= 200 * CompletedCount(tasks) < 2 * |tasks| * r + |tasks|
    ensures CompletedCount(tasks) == 0 ==> r == 0
    ensures tasks != [] && CompletedCount(tasks) == |tasks| ==> r == 100
  {
    if |tasks| == 0 then 0
    else
      var n, c := |tasks|, CompletedCount(tasks);
      var r := RoundedPercent(c, n);
      ProgressExtremes(c, n, r);
      r
  }

  lemma ProgressExtremes(c: nat, n: nat, r: int)
    requires 0 < n && c <= n && 0 <= r <= 100
    requires 2 * n * r - n <= 200 * c < 2 * n * r + n
    ensures c == 0 ==> r == 0
    ensures c == n ==> r == 100
  {
    if c == 0 && r >= 1 {
      MulMonotone(2 * n, 1, r);
    }
    if c == n && r <= 99 {
      MulMonotone(2 * n, r, 99);
    }
  }

  /** A project whose stored `progress` agrees with its tasks. The seed data has projects
      for which this does not hold, so it is not an invariant of the store. */
  predicate InSync(p: Project) {
    p.progress == CalculateProgress(p.tasks)
  }

  /** The first seeded project shows 65% with one of its two tasks done. */
  lemma SeedProgressOutOfSync()
    ensures |Seed.MockClients[0].projects| == 1
    ensures Seed.MockClients[0].projects[0].progress == 65
    ensures CalculateProgress(Seed.MockClients[0].projects[0].tasks) == 50
    ensures !InSync(Seed.MockClients[0].projects[0])
  {
    var ts := Seed.MockClients[0].projects[0].tasks;
    assert ts[1..][1..] == [];
    assert Seqs.Filter(ts, IsDone) == [ts[0]];
  }

  // ---------------------------------------------------------------- links

  /** `ensureProtocol`: blank input gives '', input already starting with `http://` or
      `https://` is kept, anything else gets `https://` in front. */
  function EnsureProtocol(url: string): (r: string)
    ensures IsBlank(url) ==> r == ""
    ensures !IsBlank(url) ==> "http://" <= r || "https://" <= r
    ensures !IsBlank(url) ==> (r == url <==> "http://" <= url || "https://" <= url)
    ensures r != url ==> r == "" || r == "https://" + url
  {
    TrimEmptyIffBlank(url);
    if url == "" || Trim(url) == "" then ""
    else if !("http://" <= url) && !("https://" <= url) then "https://" + url
    else url
  }

  /** Normalising a link twice is the same as normalising it once. */
  lemma EnsureProtocolIdempotent(url: string)
    ensures EnsureProtocol(EnsureProtocol(url)) == EnsureProtocol(url)
  {
    var r := EnsureProtocol(url);
    if r != "" {
      assert "http://" <= r || "https://" <= r;
      assert r[0] == 'h';
    }
  }

  // ---------------------------------------------------------------- per-project edits

  /** `client.projects.map(p => p.id === pid ? f(p) : p)`. */
  function MapProject(ps: seq<Project>, pid: string, f: Project -> Project): (r: seq<Project>)
    ensures |r| == |ps|
    ensures forall i :: 0 <= i < |ps| ==> r[i] == if ps[i].id == pid then f(ps[i]) else ps[i]
  {
    seq(|ps|, i requires 0 <= i < |ps| => if ps[i].id == pid then f(ps[i]) else ps[i])
  }

  /** `c2` agrees with `c` on every field but `projects`, and on every project whose id is not `pid`. */
  predicate OnlyProjectChanged(c: Client, c2: Client, pid: string) {
    && c2.(projects := c.projects) == c
    && |c2.projects| == |c.projects|
    && forall i :: 0 <= i < |c.projects| && c.projects[i].id != pid ==> c2.projects[i] == c.projects[i]
  }

  /** `q` is `p` with its task list replaced by `ts` and its progress recomputed; nothing else differs. */
  predicate Retasked(p: Project, q: Project, ts: seq<Task>) {
    q.tasks == ts && q.progress == CalculateProgress(ts) && q.(tasks := p.tasks, progress := p.progress) == p
  }

  function WithTasks(p: Project, ts: seq<Task>): Project {
    p.(tasks := ts, progress := CalculateProgress(ts))
  }

  /** `handleAddTask`: a blank title sends nothing; otherwise every project with id `pid` gets
      one more task at the end, with the title as typed, not completed, and fresh progress. */
  function HandleAddTask(c: Client, pid: string, title: string, taskId: string): (r: Option<Client>)
    ensures r.None? <==> IsBlank(title)
    ensures r.Some? ==> OnlyProjectChanged(c, r.value, pid)
    ensures r.Some? ==> forall i :: 0 <= i < |c.projects| && c.projects[i].id == pid ==>
      Retasked(c.projects[i], r.value.projects[i], c.projects[i].tasks + [Task(taskId, title, false, None)])
  {
    TrimEmptyIffBlank(title);
    if Trim(title) == "" then None
    else Some(c.(projects := MapProject(c.projects, pid,
      (p: Project) => WithTasks(p, p.tasks + [Task(taskId, title, false, None)]))))
  }

  /** `p.tasks.map(t => t.id === tid ? { ...t, completed: !t.completed } : t)`. */
  function ToggleTasks(ts: seq<Task>, tid: string): (r: seq<Task>)
    ensures |r| == |ts|
    ensures forall i :: 0 <= i < |ts| ==> r[i].(completed := ts[i].completed) == ts[i]
    ensures forall i :: 0 <= i < |ts| ==> (r[i].completed != ts[i].completed <==> ts[i].id == tid)
  {
    seq(|ts|, i requires 0 <= i < |ts| => if ts[i].id == tid then ts[i].(completed := !ts[i].completed) else ts[i])
  }

  /** `handleToggleTask`: flips every task with id `tid` in every project with id `pid`. */
  function HandleToggleTask(c: Client, pid: string, tid: string): (r: Option<Client>)
    ensures r.Some? && OnlyProjectChanged(c, r.value, pid)
    ensures forall i :: 0 <= i < |c.projects| && c.projects[i].id == pid ==>
      Retasked(c.projects[i], r.value.projects[i], ToggleTasks(c.projects[i].tasks, tid))
  {
    Some(c.(projects := MapProject(c.projects, pid, (p: Project) => WithTasks(p, ToggleTasks(p.tasks, tid)))))
  }

  /** `p.tasks.filter(t => t.id !== tid)`: every task with id `tid` removed, the rest kept in order. */
  function KeepTask(tid: string): Task -> bool {
    (t: Task) => t.id != tid
  }

  function RemoveTasks(ts: seq<Task>, tid: string): (r: seq<Task>)
    ensures Seqs.IsSubseq(r, ts)
    ensures forall t :: t in r <==> t in ts && t.id != tid
    ensures forall t :: multiset(r)[t] == if t.id != tid then multiset(ts)[t] else 0
  {
    Seqs.Filter(ts, KeepTask(tid))
  }

  /** `handleDeleteTask`: removes every task with id `tid` from every project with id `pid`. */
  function HandleDeleteTask(c: Client, pid: string, tid: string): (r: Option<Client>)
    ensures r.Some? && OnlyProjectChanged(c, r.value, pid)
    ensures forall i :: 0 <= i < |c.projects| && c.projects[i].id == pid ==>
      Retasked(c.projects[i], r.value.projects[i], RemoveTasks(c.projects[i].tasks, tid))
  {
    Some(c.(projects := MapProject(c.projects, pid, (p: Project) => WithTasks(p, RemoveTasks(p.tasks, tid)))))
  }

  /** `handleUpdateProjectNotes`: sets `notes` on every project with id `pid`, nothing else. */
  function HandleUpdateProjectNotes(c: Client, pid: string, notes: string): (r: Option<Client>)
    ensures r.Some? && OnlyProjectChanged(c, r.value, pid)
    ensures forall i :: 0 <= i < |c.projects| && c.projects[i].id == pid ==>
      r.value.projects[i].notes == Some(notes) &&
      r.value.projects[i].(notes := c.projects[i].notes) == c.projects[i]
  {
    Some(c.(projects := MapProject(c.projects, pid, (p: Project) => p.(notes := Some(notes)))))
  }

  /** `handleUpdateProjectStatus`: sets `status` on every project with id `pid`, nothing else. */
  function HandleUpdateProjectStatus(c: Client, pid: string, status: ProjectStatus): (r: Option<Client>)
    ensures r.Some? && OnlyProjectChanged(c, r.value, pid)
    ensures forall i :: 0 <= i < |c.projects| && c.projects[i].id == pid ==>
      r.value.projects[i].status == status &&
      r.value.projects[i].(status := c.projects[i].status) == c.projects[i]
  {
    Some(c.(projects := MapProject(c.projects, pid, (p: Project) => p.(status := status))))
  }

  datatype ResourceKind = Drive | Sheet

  /** `handleLinkResource`, given the answer to the prompt (`None` when it was cancelled):
      a missing or blank answer sends nothing; otherwise the drive or the sheet link of every
      project with id `pid` is set to the answer as entered, and nothing else changes. */
  function HandleLinkResource(c: Client, pid: string, kind: ResourceKind, entered: Option<string>): (r: Option<Client>)
    ensures r.None? <==> entered.None? || IsBlank(entered.value)
    ensures r.Some? ==> OnlyProjectChanged(c, r.value, pid)
    ensures r.Some? ==> forall i :: 0 <= i < |c.projects| && c.projects[i].id == pid ==>
      var p, q := c.projects[i], r.value.projects[i];
      && (kind == Drive ==> q.driveLink == Some(entered.value) && q.(driveLink := p.driveLink) == p)
      && (kind == Sheet ==> q.sheetLink == Some(entered.value) && q.(sheetLink := p.sheetLink) == p)
  {
    if entered.None? then None
    else
      var url := entered.value;
      TrimEmptyIffBlank(url);
      if url == "" || Trim(url) == "" then None
      else Some(c.(projects := MapProject(c.projects, pid,
        (p: Project) => if kind == Drive then p.(driveLink := Some(url)) else p.(sheetLink := Some(url)))))
  }

  /** `handleStatusChange`: the client's status replaced, every other field kept. */
  function HandleStatusChange(c: Client, status: ClientStatus): (r: Option<Client>)
    ensures r.Some? && r.value.status == status && r.value.(status := c.status) == c
  {
    Some(c.(status := status))
  }

  // ---------------------------------------------------------------- appends

  /** The add-project form: name, service type, start date and estimated cost. */
  datatype ProjectForm = ProjectForm(name: string, kind: ProjectType, startDate: string, estimatedCost: int)

  /** `handleAddProject`'s record: one new project at the end, in Planning at 0% with no tasks,
      built from the form; the existing projects and every other client field kept. */
  function HandleAddProject(c: Client, form: ProjectForm, pid: string): (r: Option<Client>)
    ensures r.Some? && r.value.(projects := c.projects) == c
    ensures |r.value.projects| == |c.projects| + 1 && r.value.projects[..|c.projects|] == c.projects
    ensures var p := r.value.projects[|c.projects|];
      && p.id == pid && p.name == form.name && p.kind == form.kind && p.startDate == form.startDate
      && p.status == Planning && p.progress == 0 && p.tasks == [] && InSync(p)
      && p.estimatedCost == Some(form.estimatedCost)
      && p.endDate.None? && p.externalLink.None? && p.driveLink.None? && p.sheetLink.None? && p.notes.None?
  {
    var p := Project(pid, form.name, form.kind, Planning, 0, form.startDate, None, None, None, None, [], None,
      Some(form.estimatedCost));
    Some(c.(projects := c.projects + [p]))
  }

  /** `client.mockups || []`. */
  function MockupsOf(c: Client): seq<CreativeMockup> {
    c.mockups.GetOr([])
  }

  /** `handleGenerateMockup`, given what the image service returned: an empty prompt, or no image
      (null or empty), sends nothing; otherwise one mockup carrying the prompt and the image is
      appended to the client's mockups (to `[]` when it had none), and nothing else changes. */
  function HandleGenerateMockup(c: Client, prompt: string, image: Option<string>, mid: string, now: string): (r: Option<Client>)
    ensures r.Some? <==> prompt != "" && image.Some? && image.value != ""
    ensures r.Some? ==> r.value.(mockups := c.mockups) == c
    ensures r.Some? ==> r.value.mockups.Some? && |r.value.mockups.value| == |MockupsOf(c)| + 1
    ensures r.Some? ==> r.value.mockups.value[..|MockupsOf(c)|] == MockupsOf(c)
    ensures r.Some? ==> r.value.mockups.value[|MockupsOf(c)|] == CreativeMockup(mid, image.value, prompt, now)
  {
    if prompt == "" then None
    else if image.None? || image.value == "" then None
    else Some(c.(mockups := Some(MockupsOf(c) + [CreativeMockup(mid, image.value, prompt, now)])))
  }

  // ---------------------------------------------------------------- lemmas relating handlers

  /** Toggling the same task twice gives back every task list; the touched projects' progress
      becomes that of their tasks, so a client whose touched projects were in sync is restored exactly. */
  lemma ToggleTwice(c: Client, pid: string, tid: string)
    ensures var c2 := HandleToggleTask(HandleToggleTask(c, pid, tid).value, pid, tid).value;
      && OnlyProjectChanged(c, c2, pid)
      && (forall i :: 0 <= i < |c.projects| ==> c2.projects[i].tasks == c.projects[i].tasks)
      && (forall i :: 0 <= i < |c.projects| && c.projects[i].id == pid ==>
            c2.projects[i] == c.projects[i].(progress := CalculateProgress(c.projects[i].tasks)))
      && ((forall i :: 0 <= i < |c.projects| && c.projects[i].id == pid ==> InSync(c.projects[i])) ==> c2 == c)
  {
    var c1 := HandleToggleTask(c, pid, tid).value;
    var c2 := HandleToggleTask(c1, pid, tid).value;
    forall i | 0 <= i < |c.projects| && c.projects[i].id == pid
      ensures c2.projects[i] == c.projects[i].(progress := CalculateProgress(c.projects[i].tasks))
    {
      var ts := c.projects[i].tasks;
      assert c1.projects[i].id == pid;
      assert ToggleTasks(ToggleTasks(ts, tid), tid) == ts;
    }
    if forall i :: 0 <= i < |c.projects| && c.projects[i].id == pid ==> InSync(c.projects[i]) {
      assert c2.projects == c.projects;
    }
  }

  /** Deleting a task that was just added, under an id no task of that project had,
      gives back the original task list. */
  lemma AddThenDeleteTask(c: Client, pid: string, title: string, taskId: string)
    requires !IsBlank(title)
    requires forall i, j ::
      0 <= i < |c.projects| && c.projects[i].id == pid && 0 <= j < |c.projects[i].tasks| ==>
        c.projects[i].tasks[j].id != taskId
    ensures var c2 := HandleDeleteTask(HandleAddTask(c, pid, title, taskId).value, pid, taskId).value;
      && OnlyProjectChanged(c, c2, pid)
      && forall i :: 0 <= i < |c.projects| && c.projects[i].id == pid ==>
           Retasked(c.projects[i], c2.projects[i], c.projects[i].tasks)
  {
    var c1 := HandleAddTask(c, pid, title, taskId).value;
    var c2 := HandleDeleteTask(c1, pid, taskId).value;
    forall i | 0 <= i < |c.projects| && c.projects[i].id == pid
      ensures Retasked(c.projects[i], c2.projects[i], c.projects[i].tasks)
    {
      var ts := c.projects[i].tasks;
      var t := Task(taskId, title, false, None);
      assert c1.projects[i].id == pid;
      Seqs.FilterAppend(ts, [t], KeepTask(taskId));
      Seqs.FilterKeepsAll(ts, KeepTask(taskId));
      assert Seqs.Filter([t], KeepTask(taskId)) == [];
      assert RemoveTasks(ts + [t], taskId) == ts;
    }
  }

  /** Deleting the same task twice is the same as deleting it once. */
  lemma DeleteTaskIdempotent(c: Client, pid: string, tid: string)
    ensures var c1 := HandleDeleteTask(c, pid, tid).value;
      HandleDeleteTask(c1, pid, tid) == Some(c1)
  {
    var c1 := HandleDeleteTask(c, pid, tid).value;
    var c2 := HandleDeleteTask(c1, pid, tid).value;
    forall i | 0 <= i < |c1.projects| ensures c2.projects[i] == c1.projects[i] {
      if c1.projects[i].id == pid {
        var ts := c1.projects[i].tasks;
        Seqs.FilterKeepsAll(ts, KeepTask(tid));
      }
    }
    assert c2.projects == c1.projects;
  }

  /** Of two note edits to the same project, the later one wins. */
  lemma NotesLastWriteWins(c: Client, pid: string, a: string, b: string)
    ensures HandleUpdateProjectNotes(HandleUpdateProjectNotes(c, pid, a).value, pid, b)
         == HandleUpdateProjectNotes(c, pid, b)
  {
    var c1 := HandleUpdateProjectNotes(c, pid, a).value;
    assert HandleUpdateProjectNotes(c1, pid, b).value.projects == HandleUpdateProjectNotes(c, pid, b).value.projects;
  }

  /** Of two status edits to the same project, the later one wins. */
  lemma StatusLastWriteWins(c: Client, pid: string, a: ProjectStatus, b: ProjectStatus)
    ensures HandleUpdateProjectStatus(HandleUpdateProjectStatus(c, pid, a).value, pid, b)
         == HandleUpdateProjectStatus(c, pid, b)
  {
    var c1 := HandleUpdateProjectStatus(c, pid, a).value;
    assert HandleUpdateProjectStatus(c1, pid, b).value.projects == HandleUpdateProjectStatus(c, pid, b).value.projects;
  }

  // ---------------------------------------------------------------- component state

  /** The add-project form as first built and as reset after a submit. Opening and closing the
      dialog leave the form as it is, so a reopened dialog shows what was typed before. */
  function FreshProjectForm(costs: ProjectType -> int, today: string): (f: ProjectForm)
    ensures f.name == "" && f.kind == Website && f.startDate == today && f.estimatedCost == costs(Website)
  {
    ProjectForm("", Website, today, costs(Website))
  }

  /** What `handleGenerateMockup` holds across its `await`: the client shown and the prompt at
      the moment it was started. */
  datatype PendingMockup = PendingMockup(client: Client, prompt: string)

  /** The part of the detail view's component state that the add-project and mockup handlers
      use. `costs` is the default cost per service type; `pending` is the generation in flight. */
  class DetailView {
    const costs: ProjectType -> int
    var form: ProjectForm
    var addProjectOpen: bool
    var mockupPrompt: string
    var generatingImage: bool
    var pending: Option<PendingMockup>

    constructor (costs: ProjectType -> int, today: string)
      ensures this.costs == costs && form == FreshProjectForm(costs, today)
      ensures !addProjectOpen && mockupPrompt == "" && !generatingImage && pending.None?
    {
      this.costs := costs;
      form := FreshProjectForm(costs, today);
      addProjectOpen := false;
      mockupPrompt := "";
      generatingImage := false;
      pending := None;
    }

    /** The "+ New Project" button: the dialog opens on the form as it was left. */
    method OpenAddProject()
      modifies this`addProjectOpen
      ensures addProjectOpen && form == old(form)
    {
      addProjectOpen := true;
    }

    /** The backdrop and the close button: the dialog closes and the form keeps its edits. */
    method CloseAddProject()
      modifies this`addProjectOpen
      ensures !addProjectOpen && form == old(form)
    {
      addProjectOpen := false;
    }

    /** Picking a service type also puts its default cost into the form. */
    method ChooseProjectType(kind: ProjectType)
      modifies this`form
      ensures form == old(form).(kind := kind, estimatedCost := costs(kind))
    {
      form := form.(kind := kind, estimatedCost := costs(kind));
    }

    /** `handleAddProject`: hands the new record to `onUpdate`, closes the dialog and
        resets the form. */
    method SubmitProject(c: Client, pid: string, today: string) returns (update: Option<Client>)
      modifies this`form, this`addProjectOpen
      ensures update == HandleAddProject(c, old(form), pid)
      ensures form == FreshProjectForm(costs, today) && !addProjectOpen
    {
      update := HandleAddProject(c, form, pid);
      addProjectOpen := false;
      form := FreshProjectForm(costs, today);
    }

    /** Typing in the prompt box. */
    method TypePrompt(text: string)
      modifies this`mockupPrompt
      ensures mockupPrompt == text
    {
      mockupPrompt := text;
    }

    /** `handleGenerateMockup` up to its `await`, reachable only while no generation runs (the
        button is disabled while busy): with an empty prompt it returns at once; otherwise the view turns busy and the client shown and the prompt are captured. */
    method StartMockup(c: Client) returns (started: bool)
      requires !generatingImage
      modifies this`generatingImage, this`pending
      ensures started <==> mockupPrompt != ""
      ensures started ==> generatingImage && pending == Some(PendingMockup(c, mockupPrompt))
      ensures !started ==> generatingImage == old(generatingImage) && pending == old(pending)
    {
      if mockupPrompt == "" {
        return false;
      }
      generatingImage := true;
      pending := Some(PendingMockup(c, mockupPrompt));
      started := true;
    }

    /** `handleGenerateMockup` after its `await`, given what the image service returned: the
        update is built from the client and prompt captured at the start, whatever was sent or
        typed meanwhile; the prompt box is cleared when an update is sent, and the view ends idle. */
    method FinishMockup(image: Option<string>, mid: string, now: string) returns (update: Option<Client>)
      requires pending.Some?
      modifies this`mockupPrompt, this`generatingImage, this`pending
      ensures update == HandleGenerateMockup(old(pending).value.client, old(pending).value.prompt, image, mid, now)
      ensures mockupPrompt == if update.Some? then "" else old(mockupPrompt)
      ensures !generatingImage && pending.None?
    {
      var p := pending.value;
      update := HandleGenerateMockup(p.client, p.prompt, image, mid, now);
      if update.Some? {
        mockupPrompt := "";
      }
      generatingImage := false;
      pending := None;
    }
  }
}
