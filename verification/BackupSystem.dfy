/** Dashboard and agent together, over a channel that may delay or lose a start request and its
    response, each side crashing and restarting on its own. */
module BackupSystem {
  import opened Prelude
  import opened BackupRuns
  import opened BackupRunSafety
  import opened AgentTasks
  import BackupRunHistories

  /** `requests` are start requests under way, `replies` the responses that could be read.
      `owner` is history: the row each accepted start request was sent for. */
  datatype World = World(
    dash: Dash,
    agent: Agent,
    requests: set<RowId>,
    replies: map<RowId, TaskId>,
    owner: map<TaskId, RowId>)

  datatype WorldEvent =
    | Here(e: Event)
    | Send
    | Lose(row: RowId)
    | Deliver(row: RowId, task: TaskId, writes: bool)
    | HearAccepted
    | HearOutcome
    | AskInRecovery
    | There(a: AgentEvent)

  /** Steps the dashboard takes without hearing from the agent. Not hearing in time is one. */
  predicate OnItsOwn(e: Event) {
    !e.SendStart? && !e.StartAccepted? && !e.PollEnded? && !e.RecoverEnded? && !e.RecoverForgotten?
  }

  function EndOf(s: TaskState): TaskEnd
    requires Finished(s)
  {
    match s
    case TaskSuccess => EndSuccess
    case TaskFailed => EndFailed
    case TaskCancelled => EndCancelled
    case TaskInterrupted => EndInterrupted
  }

  ghost function SendRequest(w: World): World {
    if w.dash.phase.Opened? then
      w.(dash := Step(w.dash, SendStart), requests := w.requests + {w.dash.phase.row})
    else w
  }

  /** The agent accepts a request, however late it arrives. */
  function Accept(w: World, row: RowId, task: TaskId, writes: bool): World {
    if row in w.requests && w.agent.up && task !in w.agent.created then
      w.(agent := AgentStep(w.agent, CreateTask(task, writes)), requests := w.requests - {row},
         replies := w.replies[row := task], owner := w.owner[task := row])
    else w
  }

  ghost function Hear(w: World): World {
    if w.dash.phase.Posted? && w.dash.phase.row in w.replies then
      w.(dash := Step(w.dash, StartAccepted(w.replies[w.dash.phase.row])))
    else w
  }

  ghost function Poll(w: World): World {
    if w.dash.phase.Polling? && w.agent.up && w.dash.phase.task in w.agent.tasks
       && Finished(w.agent.tasks[w.dash.phase.task]) then
      w.(dash := Step(w.dash, PollEnded(EndOf(w.agent.tasks[w.dash.phase.task]))))
    else w
  }

  /** Recovery asks about the next confirmed row: forgotten, still open, or finished. */
  ghost function Ask(w: World): World {
    var p := w.dash.phase;
    if p.Recovering? && p.adoptable != [] && p.adoptable[0] in w.dash.rows && w.agent.up then
      match w.dash.rows[p.adoptable[0]].task
      case None => w
      case Some(task) =>
        if task !in w.agent.tasks then w.(dash := Step(w.dash, RecoverForgotten))
        else if !Finished(w.agent.tasks[task]) then w.(dash := Step(w.dash, RecoverDeferred))
        else w.(dash := Step(w.dash, RecoverEnded(EndOf(w.agent.tasks[task]))))
    else w
  }

  ghost function WorldStep(w: World, e: WorldEvent): World {
    match e
    case Here(e) => if OnItsOwn(e) then w.(dash := Step(w.dash, e)) else w
    case Send => SendRequest(w)
    case Lose(row) => w.(requests := w.requests - {row})
    case Deliver(row, task, writes) => Accept(w, row, task, writes)
    case HearAccepted => Hear(w)
    case HearOutcome => Poll(w)
    case AskInRecovery => Ask(w)
    case There(a) => w.(agent := AgentStep(w.agent, a))
  }

  const NEW_WORLD := World(NEW_DASH, NEW_AGENT, {}, map[], map[])

  ghost function PlayWorld(events: seq<WorldEvent>): World {
    if events == [] then NEW_WORLD else WorldStep(PlayWorld(events[..|events| - 1]), events[|events| - 1])
  }

  // ---- what links the two sides --------------------------------------------------------

  ghost predicate Owners(owner: map<TaskId, RowId>, created: set<TaskId>, posts: seq<RowId>) {
    && (forall t :: t in owner ==> t in created && owner[t] in posts)
    && forall t, u | t in owner && u in owner && owner[t] == owner[u] :: t == u
  }

  ghost predicate Requests(requests: set<RowId>, owner: map<TaskId, RowId>, posts: seq<RowId>) {
    && (forall r :: r in requests ==> r in posts)
    && forall t :: t in owner ==> owner[t] !in requests
  }

  ghost predicate Replies(replies: map<RowId, TaskId>, owner: map<TaskId, RowId>) {
    forall r :: r in replies ==> replies[r] in owner && owner[replies[r]] == r
  }

  /** The task a row names was accepted for that row. */
  ghost predicate Names(rows: map<RowId, Row>, p: Phase, owner: map<TaskId, RowId>) {
    && (forall r :: r in rows && rows[r].task.Some? ==>
          rows[r].task.value in owner && owner[rows[r].task.value] == r)
    && (p.Accepted? ==> p.task in owner && owner[p.task] == p.row)
  }

  /** What must be true of a task for a row to record `end` about it. */
  ghost predicate Evidence(a: Agent, task: TaskId, end: TaskEnd) {
    && task in a.created && !Live(a, task)
    && (end == EndSuccess ==> task in a.results && EndedWell(a.results[task]))
    && (task in a.orphaned ==> end == EndInterrupted)
  }

  ghost predicate RowTrue(a: Agent, row: Row) {
    match row.status
    case Running => true
    case Interrupted => true
    case Failed => row.task.Some? ==> Evidence(a, row.task.value, EndFailed)
    case Cancelled => row.task.Some? && Evidence(a, row.task.value, EndCancelled)
    case _ => row.task.Some? && Evidence(a, row.task.value, EndSuccess)
  }

  ghost predicate Facts(rows: map<RowId, Row>, a: Agent) {
    forall r :: r in rows ==> RowTrue(a, rows[r])
  }

  /** The verdict about to be committed is what the agent said. */
  ghost predicate Heard(rows: map<RowId, Row>, p: Phase, a: Agent) {
    p.Settling? && p.verdict.Reported? && p.row in rows && rows[p.row].task.Some? ==>
      Evidence(a, rows[p.row].task.value, p.verdict.end)
  }

  ghost predicate Linked(w: World) {
    && Owners(w.owner, w.agent.created, w.dash.posts)
    && Requests(w.requests, w.owner, w.dash.posts)
    && Replies(w.replies, w.owner)
    && Names(w.dash.rows, w.dash.phase, w.owner)
    && Facts(w.dash.rows, w.agent)
    && Heard(w.dash.rows, w.dash.phase, w.agent)
  }

  ghost predicate WorldInv(w: World) { Inv(w.dash) && AgentInv(w.agent) && Linked(w) }

  // ---- what a dashboard step may change ------------------------------------------------

  /** Tasks are named only by `StoreTask`, and a row is closed only by committing a verdict or,
      unconfirmed, as interrupted. */
  ghost predicate Changed(before: map<RowId, Row>, p: Phase, after: map<RowId, Row>) {
    forall r :: r in after ==> RowChanged(before, p, r, after[r])
  }

  ghost predicate RowChanged(before: map<RowId, Row>, p: Phase, r: RowId, row: Row) {
    if r !in before then row.task.None? && row.status == Running
    else
      && (row.task == before[r].task
          || (p.Accepted? && p.row == r && row.task == Some(p.task) && before[r].status == Running))
      && (|| row.status == before[r].status
          || row.status == Interrupted
          || (before[r].status == Success && row.status == Deleted)
          || (p.Settling? && p.row == r && row.status == VerdictStatus(p.verdict)))
      && (row.task == before[r].task || row.status == Running)
  }

  ghost predicate PhaseKnown(before: Phase, after: Phase) {
    && (after.Accepted? ==> after == before)
    && (after.Settling? && after.verdict.Reported? ==> after == before)
  }

  lemma CloseChanges(d: Dash, row: RowId, s: RowStatus, p: Phase)
    requires s == Interrupted || (p.Settling? && p.row == row && s == VerdictStatus(p.verdict))
    ensures Changed(d.rows, p, Close(d, row, s).rows) && Close(d, row, s).posts == d.posts
  {
  }

  lemma OutsideChanges(d: Dash, e: Event)
    requires FromOutside(e)
    ensures var n := Step(d, e);
      n.posts == d.posts && Changed(d.rows, d.phase, n.rows) && PhaseKnown(d.phase, n.phase)
  {
    match e
    case SubmitRun(targets) =>
    case CancelQueued(run) =>
    case RetireArtifact(row) =>
    case RequestCancel(run) =>
    case RequestStop =>
    case ExecutorFails =>
    case Crash =>
  }

  lemma StartUpChanges(d: Dash, e: Event)
    requires InStartUp(e) && OnItsOwn(e)
    ensures var n := Step(d, e);
      n.posts == d.posts && Changed(d.rows, d.phase, n.rows) && PhaseKnown(d.phase, n.phase)
  {
    match e
    case Boot(scan) =>
    case RecoverPending =>
      if d.phase.Recovering? && d.phase.pending != [] { CloseChanges(d, d.phase.pending[0], Interrupted, d.phase); }
    case RecoverDeferred =>
    case Requeue =>
  }

  lemma WorkerChanges(d: Dash, e: Event)
    requires RowsOk(d.runs, d.rows, d.nextRow)
    requires Holding(Todo(d.runs, d.phase), d.rows, d.posts, d.phase, d.stopping)
    requires !InStartUp(e) && !FromOutside(e) && OnItsOwn(e)
    ensures var n := Step(d, e);
      n.posts == d.posts && Changed(d.rows, d.phase, n.rows) && PhaseKnown(d.phase, n.phase)
  {
    match e
    case Claim =>
    case LoadPlan =>
    case VisitTarget => if d.phase.AtTarget? { VisitChanges(d); }
    case StartFailed =>
    case StoreTask =>
    case PollGaveUp =>
    case PollStopped =>
    case Settle => if d.phase.Settling? { CloseChanges(d, d.phase.row, VerdictStatus(d.phase.verdict), d.phase); }
    case Finalise =>
  }

  lemma VisitChanges(d: Dash)
    requires d.phase.AtTarget? && RowsOk(d.runs, d.rows, d.nextRow)
    ensures var n := Visit(d, d.phase.plan, d.phase.index, d.phase.skipped);
      n.posts == d.posts && Changed(d.rows, d.phase, n.rows) && PhaseKnown(d.phase, n.phase)
  {
  }

  // ---- steps of the dashboard alone ----------------------------------------------------

  lemma ChangedNames(before: map<RowId, Row>, p: Phase, after: map<RowId, Row>, q: Phase, owner: map<TaskId, RowId>)
    requires Names(before, p, owner) && Changed(before, p, after) && (q.Accepted? ==> q == p)
    ensures Names(after, q, owner)
  {
    forall r | r in after && after[r].task.Some?
      ensures after[r].task.value in owner && owner[after[r].task.value] == r
    {
      assert RowChanged(before, p, r, after[r]);
    }
  }

  /** Closing the held row records what was heard about the task it names. */
  lemma ChangedFacts(before: map<RowId, Row>, p: Phase, after: map<RowId, Row>, a: Agent)
    requires Facts(before, a) && Heard(before, p, a) && Changed(before, p, after)
    requires p.Settling? ==> p.row in before && (p.verdict.NotStarted? <==> before[p.row].task.None?)
    ensures Facts(after, a)
  {
    forall r | r in after ensures RowTrue(a, after[r]) {
      assert RowChanged(before, p, r, after[r]);
      if r in before { assert RowTrue(a, before[r]); }
    }
  }

  /** A row that is being settled stays as it is until the verdict is committed. */
  lemma ChangedHeard(before: map<RowId, Row>, p: Phase, after: map<RowId, Row>, q: Phase, a: Agent)
    requires Heard(before, p, a) && Changed(before, p, after) && PhaseKnown(p, q)
    requires p.Settling? ==> p.row in before
    ensures Heard(after, q, a)
  {
    if q.Settling? && q.verdict.Reported? && q.row in after { assert RowChanged(before, p, q.row, after[q.row]); }
  }

  lemma SettlingNames(d: Dash)
    requires Holding(Todo(d.runs, d.phase), d.rows, d.posts, d.phase, d.stopping) && d.phase.Settling?
    ensures d.phase.row in d.rows && (d.phase.verdict.NotStarted? <==> d.rows[d.phase.row].task.None?)
  {
    if d.phase.after.BackToRecovery? { assert d.phase.row in [d.phase.row] + d.phase.after.adoptable; }
  }

  lemma OwnStepLinks(w: World, n: Dash)
    requires Linked(w)
    requires n.posts == w.dash.posts && Changed(w.dash.rows, w.dash.phase, n.rows) && PhaseKnown(w.dash.phase, n.phase)
    requires w.dash.phase.Settling? ==>
      w.dash.phase.row in w.dash.rows
        && (w.dash.phase.verdict.NotStarted? <==> w.dash.rows[w.dash.phase.row].task.None?)
    ensures Linked(w.(dash := n))
  {
    var d := w.dash;
    ChangedNames(d.rows, d.phase, n.rows, n.phase, w.owner);
    ChangedFacts(d.rows, d.phase, n.rows, w.agent);
    ChangedHeard(d.rows, d.phase, n.rows, n.phase, w.agent);
  }

  lemma OwnStepChanges(d: Dash, e: Event)
    requires Inv(d) && OnItsOwn(e)
    ensures var n := Step(d, e);
      n.posts == d.posts && Changed(d.rows, d.phase, n.rows) && PhaseKnown(d.phase, n.phase)
  {
    if FromOutside(e) {
      OutsideChanges(d, e);
    } else if InStartUp(e) {
      StartUpChanges(d, e);
    } else {
      WorkerChanges(d, e);
    }
  }

  lemma OwnStepKeeps(w: World, e: Event)
    requires WorldInv(w) && OnItsOwn(e)
    ensures WorldInv(WorldStep(w, Here(e)))
  {
    StepKeeps(w.dash, e);
    OwnStepChanges(w.dash, e);
    if w.dash.phase.Settling? { SettlingNames(w.dash); }
    OwnStepLinks(w, Step(w.dash, e));
  }

  lemma SendLinks(w: World)
    requires Linked(w) && w.dash.phase.Opened? && w.dash.phase.row !in w.dash.posts
    ensures Linked(SendRequest(w))
  {
    var row := w.dash.phase.row;
    assert forall r :: r in w.dash.posts + [row] <==> r in w.dash.posts || r == row;
    forall t | t in w.owner ensures w.owner[t] != row { assert w.owner[t] in w.dash.posts; }
  }

  lemma SendKeeps(w: World)
    requires WorldInv(w)
    ensures WorldInv(SendRequest(w))
  {
    if w.dash.phase.Opened? {
      StepKeeps(w.dash, SendStart);
      SendLinks(w);
    }
  }

  lemma HearLinks(w: World)
    requires Linked(w)
    ensures Linked(Hear(w))
  {
  }

  lemma HearKeeps(w: World)
    requires WorldInv(w)
    ensures WorldInv(Hear(w))
  {
    HearLinks(w);
    if w.dash.phase.Posted? && w.dash.phase.row in w.replies {
      StepKeeps(w.dash, StartAccepted(w.replies[w.dash.phase.row]));
    }
  }

  // ---- what the agent may say ----------------------------------------------------------

  lemma ReportIsEvidence(a: Agent, task: TaskId)
    requires AgentInv(a) && task in a.tasks && Finished(a.tasks[task])
    ensures Evidence(a, task, EndOf(a.tasks[task]))
  {
  }

  /** The phase may move to settling a row about a task the agent has evidence for. */
  lemma SettleLinks(w: World, n: Dash)
    requires Linked(w) && n.posts == w.dash.posts && n.rows == w.dash.rows && !n.phase.Accepted?
    requires Heard(n.rows, n.phase, w.agent)
    ensures Linked(w.(dash := n))
  {
  }

  lemma PollLinks(w: World)
    requires Linked(w) && AgentInv(w.agent)
    requires w.dash.phase.Polling? ==>
      w.dash.phase.row in w.dash.rows && w.dash.rows[w.dash.phase.row].task == Some(w.dash.phase.task)
    ensures Linked(Poll(w))
  {
    var p := w.dash.phase;
    if p.Polling? && w.agent.up && p.task in w.agent.tasks && Finished(w.agent.tasks[p.task]) {
      ReportIsEvidence(w.agent, p.task);
      SettleLinks(w, Poll(w).dash);
    }
  }

  lemma PollKeeps(w: World)
    requires WorldInv(w)
    ensures WorldInv(Poll(w))
  {
    var p := w.dash.phase;
    if p.Polling? { PollingNames(w.dash); }
    PollLinks(w);
    if p.Polling? && w.agent.up && p.task in w.agent.tasks && Finished(w.agent.tasks[p.task]) {
      StepKeeps(w.dash, PollEnded(EndOf(w.agent.tasks[p.task])));
    }
  }

  lemma PollingNames(d: Dash)
    requires Holding(Todo(d.runs, d.phase), d.rows, d.posts, d.phase, d.stopping) && d.phase.Polling?
    ensures d.phase.row in d.rows && d.rows[d.phase.row].task == Some(d.phase.task)
  {
  }

  lemma RecoverLinks(w: World, verdict: Option<Verdict>)
    requires Linked(w) && w.dash.phase.Recovering? && w.dash.phase.adoptable != []
    requires w.dash.phase.adoptable[0] in w.dash.rows && w.dash.rows[w.dash.phase.adoptable[0]].task.Some?
    requires verdict.Some? && verdict.value.Reported? ==>
      Evidence(w.agent, w.dash.rows[w.dash.phase.adoptable[0]].task.value, verdict.value.end)
    ensures Linked(w.(dash := RecoverOne(w.dash, verdict)))
  {
    var n := RecoverOne(w.dash, verdict);
    assert n.rows == w.dash.rows && n.posts == w.dash.posts;
    SettleLinks(w, n);
  }

  lemma AskLinks(w: World)
    requires Linked(w) && AgentInv(w.agent)
    ensures Linked(Ask(w))
  {
    var p := w.dash.phase;
    if p.Recovering? && p.adoptable != [] && p.adoptable[0] in w.dash.rows && w.agent.up
       && w.dash.rows[p.adoptable[0]].task.Some? {
      var task := w.dash.rows[p.adoptable[0]].task.value;
      var verdict: Option<Verdict> :=
        if task !in w.agent.tasks then Some(Unknown)
        else if !Finished(w.agent.tasks[task]) then None
        else Some(Reported(EndOf(w.agent.tasks[task])));
      if task in w.agent.tasks && Finished(w.agent.tasks[task]) { ReportIsEvidence(w.agent, task); }
      assert Ask(w) == w.(dash := RecoverOne(w.dash, verdict));
      RecoverLinks(w, verdict);
    }
  }

  /** Whatever recovery hears, it is one of the dashboard's own steps. */
  lemma AskIsAStep(w: World)
    ensures Ask(w) == w || exists e :: Ask(w).dash == Step(w.dash, e)
  {
    var p := w.dash.phase;
    if p.Recovering? && p.adoptable != [] && p.adoptable[0] in w.dash.rows && w.agent.up
       && w.dash.rows[p.adoptable[0]].task.Some? {
      var task := w.dash.rows[p.adoptable[0]].task.value;
      var e := if task !in w.agent.tasks then RecoverForgotten
               else if !Finished(w.agent.tasks[task]) then RecoverDeferred
               else RecoverEnded(EndOf(w.agent.tasks[task]));
      assert Ask(w).dash == Step(w.dash, e);
    }
  }

  lemma AskKeepsDash(w: World)
    requires Inv(w.dash)
    ensures Inv(Ask(w).dash)
  {
    AskIsAStep(w);
    if Ask(w) != w {
      var e :| Ask(w).dash == Step(w.dash, e);
      StepKeeps(w.dash, e);
    }
  }

  lemma AskKeeps(w: World)
    requires WorldInv(w)
    ensures WorldInv(Ask(w))
  {
    AskLinks(w);
    AskKeepsDash(w);
    AskChangesDash(w);
  }

  // ---- steps of the agent --------------------------------------------------------------

  /** Nothing the agent does later takes back what it reported. */
  lemma EvidenceStays(a: Agent, e: AgentEvent, task: TaskId, end: TaskEnd)
    requires AgentInv(a) && Evidence(a, task, end)
    ensures Evidence(AgentStep(a, e), task, end)
  {
  }

  lemma AgentLinks(w: World, e: AgentEvent)
    requires Linked(w) && AgentInv(w.agent)
    ensures Linked(w.(agent := AgentStep(w.agent, e)))
  {
    CreatedGrows(w.agent, e);
    FactsStay(w.dash.rows, w.agent, e);
    HeardStays(w.dash.rows, w.dash.phase, w.agent, e);
  }

  lemma HeardStays(rows: map<RowId, Row>, p: Phase, a: Agent, e: AgentEvent)
    requires AgentInv(a) && Heard(rows, p, a)
    ensures Heard(rows, p, AgentStep(a, e))
  {
    if p.Settling? && p.verdict.Reported? && p.row in rows && rows[p.row].task.Some? {
      EvidenceStays(a, e, rows[p.row].task.value, p.verdict.end);
    }
  }

  lemma AgentKeeps(w: World, e: AgentEvent)
    requires WorldInv(w)
    ensures WorldInv(WorldStep(w, There(e)))
  {
    AgentLinks(w, e);
    AgentStepKeeps(w.agent, e);
  }

  lemma CreatedGrows(a: Agent, e: AgentEvent)
    ensures a.created <= AgentStep(a, e).created
  {
  }

  lemma FactsStay(rows: map<RowId, Row>, a: Agent, e: AgentEvent)
    requires AgentInv(a) && Facts(rows, a)
    ensures Facts(rows, AgentStep(a, e))
  {
    forall r | r in rows ensures RowTrue(AgentStep(a, e), rows[r]) { RowStays(rows[r], a, e); }
  }

  lemma RowStays(row: Row, a: Agent, e: AgentEvent)
    requires AgentInv(a) && RowTrue(a, row)
    ensures RowTrue(AgentStep(a, e), row)
  {
    match row.status
    case Running =>
    case Interrupted =>
    case Failed => if row.task.Some? { EvidenceStays(a, e, row.task.value, EndFailed); }
    case Cancelled => EvidenceStays(a, e, row.task.value, EndCancelled);
    case _ => EvidenceStays(a, e, row.task.value, EndSuccess);
  }

  lemma DeliverLinks(w: World, row: RowId, task: TaskId, writes: bool)
    requires Linked(w) && AgentInv(w.agent)
    ensures Linked(Accept(w, row, task, writes))
  {
    if row in w.requests && w.agent.up && task !in w.agent.created {
      AgentLinks(w, CreateTask(task, writes));
      var n := Accept(w, row, task, writes);
      assert Owners(n.owner, n.agent.created, n.dash.posts);
      assert Names(n.dash.rows, n.dash.phase, n.owner);
    }
  }

  lemma DeliverKeeps(w: World, row: RowId, task: TaskId, writes: bool)
    requires WorldInv(w)
    ensures WorldInv(Accept(w, row, task, writes))
  {
    DeliverLinks(w, row, task, writes);
    AgentStepKeeps(w.agent, CreateTask(task, writes));
  }

  lemma WorldStepKeeps(w: World, e: WorldEvent)
    requires WorldInv(w)
    ensures WorldInv(WorldStep(w, e))
  {
    match e
    case Here(e) => if OnItsOwn(e) { OwnStepKeeps(w, e); }
    case Send => SendKeeps(w);
    case Lose(row) =>
    case Deliver(row, task, writes) => DeliverKeeps(w, row, task, writes);
    case HearAccepted => HearKeeps(w);
    case HearOutcome => PollKeeps(w);
    case AskInRecovery => AskKeeps(w);
    case There(a) => AgentKeeps(w, a);
  }

  lemma {:induction false} WorldReachable(events: seq<WorldEvent>)
    ensures WorldInv(PlayWorld(events))
  {
    if events == [] {
      StartIsFine();
    } else {
      WorldReachable(events[..|events| - 1]);
      WorldStepKeeps(PlayWorld(events[..|events| - 1]), events[|events| - 1]);
    }
  }

  // ---- what an operator may rely on ----------------------------------------------------

  /** Of all processes the agent ever starts for this dashboard, no two back up the same guest
      for the same run. */
  lemma {:induction false} OneProcessPerGuestOfRun(events: seq<WorldEvent>, i: nat, j: nat)
    requires var w := PlayWorld(events);
      i < j < |w.agent.spawned| && w.agent.spawned[i] in w.owner && w.agent.spawned[j] in w.owner
    ensures var w := PlayWorld(events);
      var r, q := w.owner[w.agent.spawned[i]], w.owner[w.agent.spawned[j]];
      && r in w.dash.rows && q in w.dash.rows
      && (w.dash.rows[r].run != w.dash.rows[q].run || w.dash.rows[r].guest != w.dash.rows[q].guest)
  {
    WorldReachable(events);
    var w := PlayWorld(events);
    assert w.agent.spawned[i] != w.agent.spawned[j];
    assert w.owner[w.agent.spawned[i]] in w.dash.posts && w.owner[w.agent.spawned[j]] in w.dash.posts;
  }

  /** A row is successful only if the one task accepted for it ended with exit code 0, within
      its time and uncancelled; and no process is working on that row any more. */
  lemma {:induction false} SuccessIsReal(events: seq<WorldEvent>, row: RowId)
    requires var w := PlayWorld(events); row in w.dash.rows && w.dash.rows[row].status == Success
    ensures var w := PlayWorld(events);
      && w.dash.rows[row].task.Some?
      && var task := w.dash.rows[row].task.value;
      && task in w.owner && w.owner[task] == row
      && (forall other :: other in w.owner && w.owner[other] == row ==> other == task)
      && task in w.agent.results && w.agent.results[task] == ProcessResult(0, false, false)
      && task !in w.agent.todo && task !in w.agent.alive && task !in w.agent.exited && task !in w.agent.orphaned
  {
    WorldReachable(events);
    var w := PlayWorld(events);
    assert RowTrue(w.agent, w.dash.rows[row]);
  }

  /** A task the agent lost in a restart: whatever the journal managed to hold, the agent shows
      it as interrupted or not at all, and the dashboard's row closes as interrupted or not at
      all. */
  lemma {:induction false} LostTasksAreInterrupted(events: seq<WorldEvent>, row: RowId)
    requires var w := PlayWorld(events);
      row in w.dash.rows && w.dash.rows[row].task.Some? && w.dash.rows[row].task.value in w.agent.orphaned
    ensures var w := PlayWorld(events); var task := w.dash.rows[row].task.value;
      && (task in w.agent.tasks ==> w.agent.tasks[task] == TaskInterrupted)
      && (Terminal(w.dash.rows[row].status) ==> w.dash.rows[row].status == Interrupted)
  {
    WorldReachable(events);
    var w := PlayWorld(events);
    assert RowTrue(w.agent, w.dash.rows[row]);
  }

  /** While a process may still be working for a row, that row is running or interrupted, or it
      failed without ever learning the task: a lost response is the only way to be wrong. */
  lemma {:induction false} NoEarlyVerdict(events: seq<WorldEvent>, task: TaskId)
    requires var w := PlayWorld(events); task in w.owner && Live(w.agent, task)
    ensures var w := PlayWorld(events); var row := w.owner[task];
      && row in w.dash.rows
      && (w.dash.rows[row].status == Running || w.dash.rows[row].status == Interrupted
          || (w.dash.rows[row].status == Failed && w.dash.rows[row].task.None?))
  {
    WorldReachable(events);
    var w := PlayWorld(events);
    var row := w.owner[task];
    assert row in w.dash.posts;
    assert RowTrue(w.agent, w.dash.rows[row]);
    if w.dash.rows[row].task.Some? { assert w.dash.rows[row].task.value == task; }
  }

  // ---- rows nothing runs for -----------------------------------------------------------

  /** The agent accepted a task for this row whose process has yet to start or has not exited. */
  ghost predicate AtWork(w: World, row: RowId) {
    exists t :: t in w.owner && w.owner[t] == row && (t in w.agent.todo || t in w.agent.alive)
  }

  /** A process is running for this row. */
  ghost predicate HasProcess(w: World, row: RowId) {
    exists t :: t in w.owner && w.owner[t] == row && t in w.agent.alive
  }

  /** The row is closed, nothing is at work for it, and no request for it is under way. */
  ghost predicate Quiet(w: World, row: RowId) {
    row in w.dash.rows && Terminal(w.dash.rows[row].status) && row !in w.requests && !AtWork(w, row)
  }

  lemma StaysClosed(d: Dash, e: Event, row: RowId)
    requires Inv(d) && row in d.rows && Terminal(d.rows[row].status)
    ensures row in Step(d, e).rows && Terminal(Step(d, e).rows[row].status)
  {
    StepKeeps(d, e);
    assert row in d.closes;
    ClosesGrow(d, e);
    assert row in Step(d, e).closes;
  }

  lemma ClosesGrow(d: Dash, e: Event)
    ensures forall r :: r in d.closes ==> r in Step(d, e).closes
  {
  }

  /** What the dashboard does starts nothing, short of sending a request. */
  lemma DashIsQuiet(w: World, n: Dash, row: RowId)
    requires Quiet(w, row) && row in n.rows && Terminal(n.rows[row].status)
    ensures Quiet(w.(dash := n), row)
  {
  }

  lemma HereIsQuiet(w: World, e: Event, row: RowId)
    requires WorldInv(w) && Quiet(w, row)
    ensures Quiet(WorldStep(w, Here(e)), row)
  {
    StaysClosed(w.dash, e, row);
    DashIsQuiet(w, Step(w.dash, e), row);
  }

  lemma OpenedIsRunning(d: Dash)
    requires Holding(Todo(d.runs, d.phase), d.rows, d.posts, d.phase, d.stopping) && d.phase.Opened?
    ensures d.phase.row in d.rows && d.rows[d.phase.row].status == Running
  {
  }

  lemma SendIsQuiet(w: World, row: RowId)
    requires WorldInv(w) && Quiet(w, row)
    ensures Quiet(SendRequest(w), row)
  {
    if w.dash.phase.Opened? {
      OpenedIsRunning(w.dash);
      StaysClosed(w.dash, SendStart, row);
      DashIsQuiet(w, Step(w.dash, SendStart), row);
      MoreRequests(w.(dash := Step(w.dash, SendStart)), w.dash.phase.row, row);
    }
  }

  lemma MoreRequests(w: World, other: RowId, row: RowId)
    requires Quiet(w, row) && other != row
    ensures Quiet(w.(requests := w.requests + {other}), row)
  {
  }

  lemma HearIsQuiet(w: World, row: RowId)
    requires WorldInv(w) && Quiet(w, row)
    ensures Quiet(Hear(w), row)
  {
    if w.dash.phase.Posted? && w.dash.phase.row in w.replies {
      var n := Step(w.dash, StartAccepted(w.replies[w.dash.phase.row]));
      StaysClosed(w.dash, StartAccepted(w.replies[w.dash.phase.row]), row);
      DashIsQuiet(w, n, row);
    }
  }

  lemma PollIsQuiet(w: World, row: RowId)
    requires WorldInv(w) && Quiet(w, row)
    ensures Quiet(Poll(w), row)
  {
    var p := w.dash.phase;
    if p.Polling? && w.agent.up && p.task in w.agent.tasks && Finished(w.agent.tasks[p.task]) {
      var e := PollEnded(EndOf(w.agent.tasks[p.task]));
      StaysClosed(w.dash, e, row);
      DashIsQuiet(w, Step(w.dash, e), row);
    }
  }

  lemma AskChangesDash(w: World)
    ensures Ask(w) == w.(dash := Ask(w).dash)
  {
  }

  lemma AskKeepsClosed(w: World, row: RowId)
    requires Inv(w.dash) && row in w.dash.rows && Terminal(w.dash.rows[row].status)
    ensures row in Ask(w).dash.rows && Terminal(Ask(w).dash.rows[row].status)
  {
    AskIsAStep(w);
    if Ask(w) != w {
      var step :| Ask(w).dash == Step(w.dash, step);
      StaysClosed(w.dash, step, row);
    }
  }

  lemma AskIsQuiet(w: World, row: RowId)
    requires WorldInv(w) && Quiet(w, row)
    ensures Quiet(Ask(w), row)
  {
    AskChangesDash(w);
    AskKeepsClosed(w, row);
    DashIsQuiet(w, Ask(w).dash, row);
  }

  /** A request for another row gives that row a task nobody else has. */
  lemma DeliverIsQuiet(w: World, other: RowId, task: TaskId, writes: bool, row: RowId)
    requires Linked(w) && Quiet(w, row)
    ensures Quiet(Accept(w, other, task, writes), row)
  {
    if other in w.requests && w.agent.up && task !in w.agent.created {
      var n := Accept(w, other, task, writes);
      assert other != row && task !in w.owner;
      assert n.owner == w.owner[task := other];
      assert n.agent.todo == w.agent.todo + {task} && n.agent.alive == w.agent.alive;
      forall t | t in n.owner && n.owner[t] == row ensures t !in n.agent.todo && t !in n.agent.alive {
        assert t != task && w.owner[t] == row;
      }
    }
  }

  /** The tasks at work; the agent adds to them only what it creates. */
  function Working(a: Agent): set<TaskId> { a.todo + a.alive }

  lemma AgentAddsNew(a: Agent, e: AgentEvent)
    ensures forall t :: t in Working(AgentStep(a, e)) ==> t in Working(a) || t !in a.created
  {
  }

  lemma AgentIsQuiet(w: World, e: AgentEvent, row: RowId)
    requires Linked(w) && Quiet(w, row)
    ensures Quiet(WorldStep(w, There(e)), row)
  {
    AgentAddsNew(w.agent, e);
    forall t | t in w.owner && w.owner[t] == row ensures t !in Working(AgentStep(w.agent, e)) {
      assert t in w.agent.created && t !in Working(w.agent);
    }
  }

  lemma QuietStays(w: World, e: WorldEvent, row: RowId)
    requires WorldInv(w) && Quiet(w, row)
    ensures Quiet(WorldStep(w, e), row)
  {
    match e
    case Here(e) => HereIsQuiet(w, e, row);
    case Send => SendIsQuiet(w, row);
    case Lose(other) =>
    case Deliver(other, task, writes) => DeliverIsQuiet(w, other, task, writes, row);
    case HearAccepted => HearIsQuiet(w, row);
    case HearOutcome => PollIsQuiet(w, row);
    case AskInRecovery => AskIsQuiet(w, row);
    case There(a) => AgentIsQuiet(w, a, row);
  }

  lemma {:induction false} NextIsQuiet(events: seq<WorldEvent>, e: WorldEvent, row: RowId)
    requires Quiet(PlayWorld(events), row)
    ensures Quiet(PlayWorld(events + [e]), row)
  {
    WorldReachable(events);
    QuietStays(PlayWorld(events), e, row);
    Then(events, e);
  }

  lemma {:induction false} StaysQuiet(before: seq<WorldEvent>, after: seq<WorldEvent>, row: RowId)
    requires Quiet(PlayWorld(before), row)
    ensures Quiet(PlayWorld(before + after), row)
  {
    if after == [] {
      assert before + after == before;
    } else {
      var front := after[..|after| - 1];
      StaysQuiet(before, front, row);
      NextIsQuiet(before + front, after[|after| - 1], row);
      assert before + front + [after[|after| - 1]] == before + after;
    }
  }

  lemma {:induction false} FreshTask(created: set<TaskId>) returns (t: TaskId)
    ensures forall other :: other in created ==> other < t
    decreases |created|
  {
    if created == {} { return 0; }
    var x :| x in created;
    t := FreshTask(created - {x});
    if t <= x { t := x + 1; }
    assert forall other :: other in created ==> other == x || other in created - {x};
  }

  /** A task that waits for its process gets one. */
  lemma {:induction false} MayStart(events: seq<WorldEvent>, task: TaskId, row: RowId)
    requires task in PlayWorld(events).owner && PlayWorld(events).owner[task] == row
      && task in PlayWorld(events).agent.todo
    ensures HasProcess(PlayWorld(events + [There(Spawn(task, false))]), row)
  {
    Then(events, There(Spawn(task, false)));
    var n := PlayWorld(events + [There(Spawn(task, false))]);
    assert n.owner[task] == row && task in n.agent.alive;
  }

  /** A request under way may still be accepted and its process start, whatever became of its row. */
  lemma {:induction false} MayStillArrive(events: seq<WorldEvent>, row: RowId) returns (after: seq<WorldEvent>)
    requires row in PlayWorld(events).requests
    ensures HasProcess(PlayWorld(events + after), row)
  {
    var up := There(AgentStart({}, {}));
    Then(events, up);
    var task := FreshTask(PlayWorld(events + [up]).agent.created);
    Then(events + [up], Deliver(row, task, false));
    var accepted := events + [up] + [Deliver(row, task, false)];
    assert PlayWorld(accepted).owner[task] == row && task in PlayWorld(accepted).agent.todo;
    MayStart(accepted, task, row);
    after := [up, Deliver(row, task, false), There(Spawn(task, false))];
    assert events + after == accepted + [There(Spawn(task, false))];
  }

  /** For a closed row no process runs, now or in any continuation, if and only if no task of it is
      at work and no request for it is under way. */
  lemma {:induction false} NothingRunsIff(events: seq<WorldEvent>, row: RowId)
    requires var d := PlayWorld(events).dash; row in d.rows && Terminal(d.rows[row].status)
    ensures (forall after :: !HasProcess(PlayWorld(events + after), row)) <==>
      row !in PlayWorld(events).requests && !AtWork(PlayWorld(events), row)
  {
    var w := PlayWorld(events);
    if row !in w.requests && !AtWork(w, row) {
      forall after ensures !HasProcess(PlayWorld(events + after), row) { StaysQuiet(events, after, row); }
    } else if row in w.requests {
      var after := MayStillArrive(events, row);
      assert HasProcess(PlayWorld(events + after), row);
    } else {
      var t :| t in w.owner && w.owner[t] == row && (t in w.agent.todo || t in w.agent.alive);
      if t in w.agent.todo {
        MayStart(events, t, row);
      } else {
        assert events + [] == events;
        assert HasProcess(PlayWorld(events + []), row);
      }
    }
  }

  lemma ReportedIsQuiet(w: World, row: RowId)
    requires Linked(w) && row in w.dash.rows && Terminal(w.dash.rows[row].status)
    requires w.dash.rows[row].task.Some? && w.dash.rows[row].status != Interrupted
    ensures Quiet(w, row)
  {
    var task := w.dash.rows[row].task.value;
    assert RowTrue(w.agent, w.dash.rows[row]);
    assert forall t :: t in w.owner && w.owner[t] == row ==> t == task;
  }

  /** A row that was closed on the agent's word, as anything but interrupted: nothing runs for it, now
      or ever again. */
  lemma {:induction false} ReportedRowsStayIdle(events: seq<WorldEvent>, after: seq<WorldEvent>, row: RowId)
    requires var d := PlayWorld(events).dash;
      row in d.rows && Terminal(d.rows[row].status) && d.rows[row].task.Some? && d.rows[row].status != Interrupted
    ensures !HasProcess(PlayWorld(events + after), row)
  {
    WorldReachable(events);
    ReportedIsQuiet(PlayWorld(events), row);
    StaysQuiet(events, after, row);
  }

  // ---- a lost response -----------------------------------------------------------------

  ghost function Alone(events: seq<Event>): seq<WorldEvent> {
    seq(|events|, i requires 0 <= i < |events| => Here(events[i]))
  }

  lemma {:induction false} DashboardAlone(events: seq<Event>)
    requires forall e :: e in events ==> OnItsOwn(e)
    ensures PlayWorld(Alone(events)) == NEW_WORLD.(dash := Play(NEW_DASH, events))
  {
    if events != [] {
      var n := |events| - 1;
      DashboardAlone(events[..n]);
      assert Alone(events)[..n] == Alone(events[..n]);
      assert events[n] in events;
    }
  }

  lemma {:induction false} Then(events: seq<WorldEvent>, e: WorldEvent)
    ensures PlayWorld(events + [e]) == WorldStep(PlayWorld(events), e)
  {
    assert (events + [e])[..|events|] == events;
  }

  /** A response that never arrives: the row is closed as failed although the agent's process for
      it is running. A failed row does not mean that nothing ran. */
  lemma FailedMayStillRun(g: Guest) returns (events: seq<WorldEvent>)
    ensures var w := PlayWorld(events);
      && 0 in w.dash.rows && w.dash.rows[0].status == Failed && w.dash.rows[0].task == None
      && 9 in w.owner && w.owner[9] == 0 && 9 in w.agent.alive
  {
    events := RequestDelivered(g);
    Then(events, Here(StartFailed)); events := events + [Here(StartFailed)];
    Then(events, Here(Settle)); events := events + [Here(Settle)];
    Then(events, There(Spawn(9, true))); events := events + [There(Spawn(9, true))];
  }

  /** The dashboard about to send its only request, to an agent that has just started. */
  lemma RequestReady(g: Guest) returns (events: seq<WorldEvent>)
    ensures var w := PlayWorld(events);
      && w.dash.rows == map[0 := Row(0, g, Running, None)] && w.dash.phase == Opened(Plan(0, {}, map[]), 0, 0)
      && w.agent.up && w.agent.created == {} && w.agent.todo == {} && w.agent.alive == {}
      && w.requests == {} && w.owner == map[]
  {
    var early := BackupRunHistories.OneTargetOpened(g);
    DashboardAlone(early);
    events := Alone(early);
    Then(events, There(AgentStart({}, {}))); events := events + [There(AgentStart({}, {}))];
  }

  lemma RequestDelivered(g: Guest) returns (events: seq<WorldEvent>)
    ensures var w := PlayWorld(events);
      && w.dash.rows == map[0 := Row(0, g, Running, None)] && w.dash.phase == Posted(Plan(0, {}, map[]), 0, 0)
      && w.owner == map[9 := 0] && w.agent.todo == {9} && w.agent.alive == {}
  {
    events := RequestReady(g);
    Then(events, Send);
    var sent := PlayWorld(events + [Send]);
    assert sent.requests == {0} && sent.dash.phase == Posted(Plan(0, {}, map[]), 0, 0);
    events := events + [Send];
    Then(events, Deliver(0, 9, true)); events := events + [Deliver(0, 9, true)];
  }
}
