/** What every run of the executor keeps, whatever the interleaving of requests, crashes,
    restarts and agent answers. */
module BackupRunSafety {
  import opened Prelude
  import opened BackupRuns

  // ---- the invariant -------------------------------------------------------------------

  ghost predicate HasTerminal(rows: map<RowId, Row>, run: RunId, g: Guest) {
    exists r :: r in rows && rows[r].run == run && rows[r].guest == g && Terminal(rows[r].status)
  }

  ghost predicate RunsOk(runs: map<RunId, Run>, nextRun: RunId) {
    forall id :: id in runs ==> id < nextRun && Distinct(runs[id].targets)
  }

  ghost predicate RowsOk(runs: map<RunId, Run>, rows: map<RowId, Row>, nextRow: RowId) {
    forall r :: r in rows ==>
      r < nextRow && rows[r].run in runs && rows[r].guest in runs[rows[r].run].targets
  }

  ghost predicate OneRowPerGuest(rows: map<RowId, Row>) {
    forall r, q | r in rows && q in rows && rows[r].run == rows[q].run && rows[r].guest == rows[q].guest
      :: r == q
  }

  ghost predicate History(rows: map<RowId, Row>, posts: seq<RowId>, closes: seq<RowId>) {
    && Distinct(posts)
    && (forall r :: r in posts ==> r in rows)
    && Distinct(closes)
    && (forall r :: r in closes <==> r in rows && Terminal(rows[r].status))
  }

  ghost predicate Counters(runs: map<RunId, Run>, rows: map<RowId, Row>) {
    forall id :: id in runs ==>
      runs[id].succeeded == |ClosedWell(rows, id)| && runs[id].failed == |ClosedBadly(rows, id)|
  }

  ghost predicate InRecovery(p: Phase) {
    p.Recovering? || (p.Settling? && p.after.BackToRecovery?)
  }

  ghost predicate Scheduling(runs: map<RunId, Run>, p: Phase) {
    && (forall id :: id in runs && runs[id].status == Executing ==>
          p.Down? || InRecovery(p) || ActiveRun(p) == Some(id))
    && (ActiveRun(p).Some? ==>
          ActiveRun(p).value in runs && runs[ActiveRun(p).value].status == Executing)
  }

  /** The worker, or recovery, knows about this unconfirmed row. */
  ghost predicate Tracked(p: Phase, r: RowId) {
    match p
    case Down => true
    case Recovering(pending, _) => r in pending
    case Opened(_, _, row) => r == row
    case Posted(_, _, row) => r == row
    case Accepted(_, _, row, _) => r == row
    case Settling(row, NotStarted, NextTarget(_, _)) => r == row
    case Finalising(_, Error) => true
    case _ => false
  }

  ghost predicate IsUnconfirmed(rows: map<RowId, Row>, r: RowId) {
    r in rows && rows[r].status == Running && rows[r].task.None?
  }

  ghost predicate NewestRunning(rows: map<RowId, Row>, r: RowId) {
    forall q :: q in rows && rows[q].status == Running ==> q <= r
  }

  /** A running row the agent never confirmed is never on the queue, and while its run is being
      executed it is the newest running row. */
  ghost predicate Unconfirmable(runs: map<RunId, Run>, rows: map<RowId, Row>, p: Phase) {
    forall r :: IsUnconfirmed(rows, r) && rows[r].run in runs ==>
      && runs[rows[r].run].status != Queued
      && (runs[rows[r].run].status == Executing ==> Tracked(p, r) && NewestRunning(rows, r))
  }

  /** The targets of the run being executed. */
  ghost function Todo(runs: map<RunId, Run>, p: Phase): seq<Guest> {
    match ActiveRun(p)
    case Some(run) => if run in runs then runs[run].targets else []
    case None => []
  }

  ghost predicate Held(todo: seq<Guest>, rows: map<RowId, Row>, plan: Plan, i: nat, row: RowId) {
    && i < |todo| && row in rows && rows[row].run == plan.run
    && rows[row].guest == todo[i] && rows[row].status == Running
  }

  ghost predicate Adoptable(rows: map<RowId, Row>, ids: seq<RowId>) {
    && Distinct(ids)
    && forall r :: r in ids ==> r in rows && rows[r].status == Running && rows[r].task.Some?
  }

  ghost predicate Pending(rows: map<RowId, Row>, ids: seq<RowId>) {
    Distinct(ids) && forall r :: r in ids ==> IsUnconfirmed(rows, r)
  }

  ghost predicate Holding(todo: seq<Guest>, rows: map<RowId, Row>, posts: seq<RowId>, p: Phase, stopping: bool) {
    match p
    case Recovering(pending, adoptable) => Pending(rows, pending) && Adoptable(rows, adoptable)
    case AtTarget(plan, i, skipped) => skipped ==> stopping
    case Opened(plan, i, row) => Held(todo, rows, plan, i, row) && rows[row].task.None? && row !in posts
    case Posted(plan, i, row) => Held(todo, rows, plan, i, row) && rows[row].task.None?
    case Accepted(plan, i, row, task) => Held(todo, rows, plan, i, row) && rows[row].task.None?
    case Polling(plan, i, row, task) => Held(todo, rows, plan, i, row) && rows[row].task == Some(task)
    case Settling(row, verdict, NextTarget(plan, i)) =>
      Held(todo, rows, plan, i, row) && (verdict.NotStarted? <==> rows[row].task.None?)
    case Settling(row, verdict, BackToRecovery(adoptable)) =>
      && Adoptable(rows, [row] + adoptable) && !verdict.NotStarted?
    case _ => true
  }

  /** The plan accounts for every row of its run; rows it may adopt are confirmed. */
  ghost predicate PlanOk(todo: seq<Guest>, rows: map<RowId, Row>, plan: Plan, n: nat) {
    && n <= |todo|
    && var visited := todo[..n];
    && (forall r :: r in rows && rows[r].run == plan.run ==>
          || rows[r].guest in plan.done
          || (rows[r].guest in plan.adopt && plan.adopt[rows[r].guest] == r)
          || rows[r].guest in visited)
    && (forall g :: g in plan.done ==> HasTerminal(rows, plan.run, g))
    && (forall g :: g in plan.adopt ==> AdoptOk(rows, plan, g, g in visited))
  }

  ghost predicate AdoptOk(rows: map<RowId, Row>, plan: Plan, g: Guest, visited: bool)
    requires g in plan.adopt
  {
    var r := plan.adopt[g];
    r in rows && rows[r].run == plan.run && rows[r].guest == g && rows[r].task.Some?
    && (rows[r].status == Running || visited)
  }

  /** The first `n` targets have a terminal row, except that the last of them may have been
      left running by a stop. */
  ghost predicate DoneUpTo(todo: seq<Guest>, rows: map<RowId, Row>, run: RunId, n: nat, skipped: bool) {
    n <= |todo| && forall j :: 0 <= j < n && !(skipped && j == n - 1) ==> HasTerminal(rows, run, todo[j])
  }

  /** The target a stop was noticed at still has its running row. */
  ghost predicate LeftRunning(rows: map<RowId, Row>, run: RunId, todo: seq<Guest>, n: nat) {
    0 < n <= |todo| && exists r :: r in rows && rows[r].run == run && rows[r].guest == todo[n - 1]
                               && rows[r].status == Running
  }

  ghost predicate Ahead(todo: seq<Guest>, rows: map<RowId, Row>, plan: Plan, i: nat) {
    PlanOk(todo, rows, plan, i + 1) && DoneUpTo(todo, rows, plan.run, i, false)
  }

  ghost predicate Progress(todo: seq<Guest>, rows: map<RowId, Row>, p: Phase) {
    match p
    case AtTarget(plan, i, skipped) =>
      && PlanOk(todo, rows, plan, i) && DoneUpTo(todo, rows, plan.run, i, skipped)
      && (skipped ==> LeftRunning(rows, plan.run, todo, i))
    case Opened(plan, i, _) => Ahead(todo, rows, plan, i)
    case Posted(plan, i, _) => Ahead(todo, rows, plan, i)
    case Accepted(plan, i, _, _) => Ahead(todo, rows, plan, i)
    case Polling(plan, i, _, _) => Ahead(todo, rows, plan, i)
    case Settling(_, _, NextTarget(plan, i)) => Ahead(todo, rows, plan, i)
    case Finalising(run, Completed) => AllTerminal(rows, run, todo)
    case Finalising(run, StoppedAtLast) => LeftRunning(rows, run, todo, |todo|)
    case _ => true
  }

  ghost predicate AllTerminal(rows: map<RowId, Row>, run: RunId, targets: seq<Guest>) {
    forall j :: 0 <= j < |targets| ==> HasTerminal(rows, run, targets[j])
  }

  ghost predicate Outcomes(runs: map<RunId, Run>, rows: map<RowId, Row>, endings: map<RunId, Ending>) {
    && (forall id :: id in runs ==> (id in endings <==> RunOver(runs[id].status)))
    && (forall id :: id in endings ==>
          id in runs && (endings[id] == Completed ==> AllTerminal(rows, id, runs[id].targets)))
  }

  /** What the tables satisfy, whatever the worker is doing. */
  ghost predicate Stored(d: Dash) {
    && RunsOk(d.runs, d.nextRun) && RowsOk(d.runs, d.rows, d.nextRow) && OneRowPerGuest(d.rows)
    && History(d.rows, d.posts, d.closes)
    && Counters(d.runs, d.rows)
    && Outcomes(d.runs, d.rows, d.endings)
  }

  /** How the tables agree with what the worker is doing. */
  ghost predicate Worker(d: Dash) {
    && Scheduling(d.runs, d.phase)
    && Unconfirmable(d.runs, d.rows, d.phase)
    && Holding(Todo(d.runs, d.phase), d.rows, d.posts, d.phase, d.stopping)
    && Progress(Todo(d.runs, d.phase), d.rows, d.phase)
  }

  ghost predicate Inv(d: Dash) { Stored(d) && Worker(d) }

  // ---- steps that touch no row ---------------------------------------------------------

  /** A new run on the queue disturbs nothing. */
  lemma SubmitKeeps(d: Dash, targets: seq<Guest>)
    requires Inv(d)
    ensures Inv(Submit(d, targets))
  {
    if Distinct(targets) {
      SubmitStored(d, targets);
      SubmitWorker(d, targets);
    }
  }

  lemma SubmitStored(d: Dash, targets: seq<Guest>)
    requires Stored(d) && Distinct(targets)
    ensures Stored(Submit(d, targets))
  {
    assert ClosedWell(d.rows, d.nextRun) == {} && ClosedBadly(d.rows, d.nextRun) == {};
  }

  lemma SubmitWorker(d: Dash, targets: seq<Guest>)
    requires Worker(d) && RunsOk(d.runs, d.nextRun) && RowsOk(d.runs, d.rows, d.nextRow)
    ensures Worker(Submit(d, targets))
  {
    var n := Submit(d, targets);
    assert Todo(n.runs, n.phase) == Todo(d.runs, d.phase);
  }

  ghost predicate SameRuns(a: map<RunId, Run>, b: map<RunId, Run>) {
    && a.Keys == b.Keys
    && forall id :: id in a ==> b[id] == a[id].(status := b[id].status)
  }

  /** Only statuses of runs change. */
  lemma StatusKeeps(d: Dash, runs: map<RunId, Run>)
    requires Stored(d) && SameRuns(d.runs, runs)
    ensures RunsOk(runs, d.nextRun) && RowsOk(runs, d.rows, d.nextRow) && Counters(runs, d.rows)
    ensures forall p :: Todo(runs, p) == Todo(d.runs, p)
  {
  }

  lemma CancelWaitingKeeps(d: Dash, run: RunId)
    requires Inv(d)
    ensures Inv(CancelWaiting(d, run))
  {
    CancelWaitingStored(d, run);
    CancelWaitingWorker(d, run);
  }

  lemma CancelWaitingStored(d: Dash, run: RunId)
    requires Stored(d)
    ensures Stored(CancelWaiting(d, run))
    ensures Todo(CancelWaiting(d, run).runs, d.phase) == Todo(d.runs, d.phase)
  {
    CancelWaitingTables(d, run);
    CancelWaitingOutcomes(d, run);
  }

  lemma CancelWaitingTables(d: Dash, run: RunId)
    requires Stored(d)
    ensures var n := CancelWaiting(d, run);
      && RunsOk(n.runs, n.nextRun) && RowsOk(n.runs, n.rows, n.nextRow) && Counters(n.runs, n.rows)
      && n == d.(runs := n.runs, endings := n.endings) && Todo(n.runs, d.phase) == Todo(d.runs, d.phase)
  {
    StatusKeeps(d, CancelWaiting(d, run).runs);
  }

  lemma CancelWaitingOutcomes(d: Dash, run: RunId)
    requires Outcomes(d.runs, d.rows, d.endings)
    ensures var n := CancelWaiting(d, run); Outcomes(n.runs, n.rows, n.endings)
  {
  }

  lemma CancelWaitingWorker(d: Dash, run: RunId)
    requires Worker(d) && Todo(CancelWaiting(d, run).runs, d.phase) == Todo(d.runs, d.phase)
    ensures Worker(CancelWaiting(d, run))
  {
  }

  lemma RequestKeeps(d: Dash, cancelled: set<RunId>)
    requires Inv(d)
    ensures Inv(d.(cancelled := cancelled)) && Inv(d.(stopping := true))
  {
  }

  lemma CrashKeeps(d: Dash)
    requires Inv(d)
    ensures Inv(GoDown(d))
  {
  }

  /** Only what the worker holds changes. */
  lemma RephaseKeeps(d: Dash, p: Phase)
    requires Inv(d)
    requires p.Down? || (InRecovery(p) && InRecovery(d.phase))
             || (ActiveRun(p).Some? && ActiveRun(p) == ActiveRun(d.phase))
    requires forall r :: IsUnconfirmed(d.rows, r) && Tracked(d.phase, r) ==> Tracked(p, r)
    requires Holding(Todo(d.runs, p), d.rows, d.posts, p, d.stopping) && Progress(Todo(d.runs, p), d.rows, p)
    ensures Inv(d.(phase := p))
  {
  }

  lemma FailKeeps(d: Dash)
    requires Inv(d)
    ensures Inv(Fail(d))
  {
    var run := ActiveRun(d.phase);
    if run.None? || d.phase == Finalising(run.value, Error) {
      assert Fail(d) == d || Fail(d) == GoDown(d);
      CrashKeeps(d);
    } else {
      assert Fail(d) == d.(phase := Finalising(run.value, Error));
      RephaseKeeps(d, Finalising(run.value, Error));
    }
  }

  // ---- steps that change rows ----------------------------------------------------------

  /** Rows keep their identity, and terminal rows stay terminal. */
  ghost predicate Grows(a: map<RowId, Row>, b: map<RowId, Row>) {
    forall r :: r in a ==>
      r in b && b[r].run == a[r].run && b[r].guest == a[r].guest && (Terminal(a[r].status) ==> Terminal(b[r].status))
  }

  lemma TerminalStays(a: map<RowId, Row>, b: map<RowId, Row>, run: RunId, g: Guest)
    requires Grows(a, b) && HasTerminal(a, run, g)
    ensures HasTerminal(b, run, g)
  {
    var r :| r in a && a[r].run == run && a[r].guest == g && Terminal(a[r].status);
    assert b[r].run == run;
  }

  lemma AllTerminalStays(a: map<RowId, Row>, b: map<RowId, Row>, run: RunId, todo: seq<Guest>)
    requires Grows(a, b) && AllTerminal(a, run, todo)
    ensures AllTerminal(b, run, todo)
  {
    forall j | 0 <= j < |todo| ensures HasTerminal(b, run, todo[j]) { TerminalStays(a, b, run, todo[j]); }
  }

  lemma DoneStays(a: map<RowId, Row>, b: map<RowId, Row>, todo: seq<Guest>, run: RunId, n: nat, skipped: bool)
    requires Grows(a, b) && DoneUpTo(todo, a, run, n, skipped)
    ensures DoneUpTo(todo, b, run, n, skipped)
  {
    forall j | 0 <= j < n && !(skipped && j == n - 1) ensures HasTerminal(b, run, todo[j]) {
      TerminalStays(a, b, run, todo[j]);
    }
  }

  lemma OutcomesStay(runs: map<RunId, Run>, later: map<RunId, Run>, a: map<RowId, Row>, b: map<RowId, Row>,
                     endings: map<RunId, Ending>)
    requires Grows(a, b) && Outcomes(runs, a, endings)
    requires SameQueue(runs, later)
    ensures Outcomes(later, b, endings)
  {
    forall id | id in endings && endings[id] == Completed ensures AllTerminal(b, id, later[id].targets) {
      AllTerminalStays(a, b, id, runs[id].targets);
    }
  }

  /** What closing a running row keeps, before the worker moves on. */
  lemma CloseKeeps(d: Dash, row: RowId, s: RowStatus, p: Phase)
    requires Stored(d) && row in d.rows && d.rows[row].status == Running
    requires s != Running && s != Deleted
    ensures Stored(Close(d, row, s).(phase := p))
  {
    var n := Close(d, row, s);
    CloseCounts(d, row, s);
    CloseGrows(d, row, s);
    CloseHistory(d, row, s);
    CloseTables(d, row, s);
    OutcomesStay(d.runs, n.runs, d.rows, n.rows, d.endings);
  }

  lemma CloseTables(d: Dash, row: RowId, s: RowStatus)
    requires RunsOk(d.runs, d.nextRun) && RowsOk(d.runs, d.rows, d.nextRow) && OneRowPerGuest(d.rows)
    ensures var n := Close(d, row, s);
      && RunsOk(n.runs, n.nextRun) && RowsOk(n.runs, n.rows, n.nextRow) && OneRowPerGuest(n.rows)
      && SameQueue(d.runs, n.runs)
  {
    var n := Close(d, row, s);
    assert SameQueue(d.runs, n.runs);
    RowsStay(d.runs, n.runs, d.rows, n.rows, d.nextRow);
  }

  /** Same runs, same targets, same statuses: only counters may differ. */
  ghost predicate SameQueue(a: map<RunId, Run>, b: map<RunId, Run>) {
    && a.Keys == b.Keys
    && forall id :: id in a ==> b[id].targets == a[id].targets && b[id].status == a[id].status
  }

  lemma RowsStay(runs: map<RunId, Run>, later: map<RunId, Run>, a: map<RowId, Row>, b: map<RowId, Row>, nextRow: RowId)
    requires SameQueue(runs, later) && RowsOk(runs, a, nextRow) && OneRowPerGuest(a)
    requires a.Keys == b.Keys && forall r :: r in a ==> b[r].run == a[r].run && b[r].guest == a[r].guest
    ensures RowsOk(later, b, nextRow) && OneRowPerGuest(b)
  {
  }

  lemma CloseHistory(d: Dash, row: RowId, s: RowStatus)
    requires History(d.rows, d.posts, d.closes) && row in d.rows && d.rows[row].status == Running && s != Running
    ensures var n := Close(d, row, s); History(n.rows, n.posts, n.closes)
  {
  }

  lemma CloseGrows(d: Dash, row: RowId, s: RowStatus)
    requires row in d.rows && s != Running
    ensures var n := Close(d, row, s);
      && Grows(d.rows, n.rows) && n.rows.Keys == d.rows.Keys
      && HasTerminal(n.rows, d.rows[row].run, d.rows[row].guest)
      && (forall p :: Todo(n.runs, p) == Todo(d.runs, p))
  {
    assert Close(d, row, s).rows[row].run == d.rows[row].run;
  }

  lemma CloseCounts(d: Dash, row: RowId, s: RowStatus)
    requires Counters(d.runs, d.rows) && row in d.rows && d.rows[row].status == Running && d.rows[row].run in d.runs
    requires s != Running && s != Deleted
    ensures Counters(Close(d, row, s).runs, Close(d, row, s).rows)
  {
    var n := Close(d, row, s);
    forall id | id in n.runs
      ensures n.runs[id].succeeded == |ClosedWell(n.rows, id)|
      ensures n.runs[id].failed == |ClosedBadly(n.rows, id)|
    {
      ClosedSets(d.rows, row, s, id);
    }
  }

  lemma ClosedSets(rows: map<RowId, Row>, row: RowId, s: RowStatus, id: RunId)
    requires row in rows && rows[row].status == Running && s != Running && s != Deleted
    ensures var after := rows[row := rows[row].(status := s)];
      && |ClosedWell(after, id)| == |ClosedWell(rows, id)| + (if id == rows[row].run && s == Success then 1 else 0)
      && |ClosedBadly(after, id)| == |ClosedBadly(rows, id)| + (if id == rows[row].run && s != Success then 1 else 0)
  {
    var after := rows[row := rows[row].(status := s)];
    var well, badly := ClosedWell(rows, id), ClosedBadly(rows, id);
    assert row !in well && row !in badly;
    if id != rows[row].run {
      assert ClosedWell(after, id) == well && ClosedBadly(after, id) == badly;
    } else if s == Success {
      assert ClosedWell(after, id) == well + {row};
      assert ClosedBadly(after, id) == badly;
    } else {
      assert ClosedWell(after, id) == well;
      assert ClosedBadly(after, id) == badly + {row};
    }
  }

  lemma RetireKeeps(d: Dash, row: RowId)
    requires Inv(d)
    ensures Inv(Retire(d, row))
  {
    if row in d.rows && d.rows[row].status == Success {
      RetireStored(d, row);
      RetireWorker(d, row);
    }
  }

  lemma RetireHistory(d: Dash, row: RowId)
    requires History(d.rows, d.posts, d.closes) && OneRowPerGuest(d.rows)
    requires row in d.rows && d.rows[row].status == Success
    ensures var n := Retire(d, row);
      && History(n.rows, n.posts, n.closes) && OneRowPerGuest(n.rows) && n == d.(rows := n.rows)
  {
  }

  lemma RetireStored(d: Dash, row: RowId)
    requires Stored(d) && row in d.rows && d.rows[row].status == Success
    ensures Stored(Retire(d, row))
  {
    RetireHistory(d, row);
    RetireCounts(d.runs, d.rows, row);
    OutcomesStay(d.runs, d.runs, d.rows, Retire(d, row).rows, d.endings);
    RowsStay(d.runs, d.runs, d.rows, Retire(d, row).rows, d.nextRow);
  }

  lemma RetireWorker(d: Dash, row: RowId)
    requires Worker(d) && row in d.rows && d.rows[row].status == Success
    ensures Worker(Retire(d, row))
  {
    ProgressStays(Todo(d.runs, d.phase), d.rows, Retire(d, row).rows, d.phase);
    RetireHolding(d, row);
  }

  lemma RetireHolding(d: Dash, row: RowId)
    requires row in d.rows && d.rows[row].status == Success
    requires Holding(Todo(d.runs, d.phase), d.rows, d.posts, d.phase, d.stopping)
    requires Unconfirmable(d.runs, d.rows, d.phase)
    ensures var n := Retire(d, row);
      && Holding(Todo(n.runs, n.phase), n.rows, n.posts, n.phase, n.stopping)
      && Unconfirmable(n.runs, n.rows, n.phase)
  {
  }

  lemma RetireCounts(runs: map<RunId, Run>, rows: map<RowId, Row>, row: RowId)
    requires Counters(runs, rows) && row in rows && rows[row].status == Success
    ensures Counters(runs, rows[row := rows[row].(status := Deleted)])
  {
    var after := rows[row := rows[row].(status := Deleted)];
    forall id | id in runs
      ensures ClosedWell(after, id) == ClosedWell(rows, id)
      ensures ClosedBadly(after, id) == ClosedBadly(rows, id)
    {
    }
  }

  /** Running rows stay running, so the worker's progress stands. */
  lemma ProgressStays(todo: seq<Guest>, a: map<RowId, Row>, b: map<RowId, Row>, p: Phase)
    requires Progress(todo, a, p) && SameRunning(a, b)
    ensures Progress(todo, b, p)
  {
    match p
    case Finalising(run, Completed) => AllTerminalStays(a, b, run, todo);
    case Finalising(run, StoppedAtLast) => LeftRunningStays(a, b, run, todo, |todo|);
    case AtTarget(plan, i, skipped) =>
      PlanStays(todo, a, b, plan, i);
      DoneStays(a, b, todo, plan.run, i, skipped);
      if skipped { LeftRunningStays(a, b, plan.run, todo, i); }
    case Opened(plan, i, _) => AheadStays(todo, a, b, plan, i);
    case Posted(plan, i, _) => AheadStays(todo, a, b, plan, i);
    case Accepted(plan, i, _, _) => AheadStays(todo, a, b, plan, i);
    case Polling(plan, i, _, _) => AheadStays(todo, a, b, plan, i);
    case Settling(_, _, NextTarget(plan, i)) => AheadStays(todo, a, b, plan, i);
    case _ =>
  }

  lemma LeftRunningStays(a: map<RowId, Row>, b: map<RowId, Row>, run: RunId, todo: seq<Guest>, n: nat)
    requires SameRunning(a, b) && LeftRunning(a, run, todo, n)
    ensures LeftRunning(b, run, todo, n)
  {
    var r :| r in a && a[r].run == run && a[r].guest == todo[n - 1] && a[r].status == Running;
    assert b[r].run == run;
  }

  ghost predicate SameRunning(a: map<RowId, Row>, b: map<RowId, Row>) {
    && a.Keys == b.Keys
    && forall r :: r in a ==>
         && b[r].run == a[r].run && b[r].guest == a[r].guest && b[r].task == a[r].task
         && (b[r].status == Running <==> a[r].status == Running)
  }

  lemma AheadStays(todo: seq<Guest>, a: map<RowId, Row>, b: map<RowId, Row>, plan: Plan, i: nat)
    requires Ahead(todo, a, plan, i) && SameRunning(a, b)
    ensures Ahead(todo, b, plan, i)
  {
    PlanStays(todo, a, b, plan, i + 1);
    DoneStays(a, b, todo, plan.run, i, false);
  }

  /** A plan survives any change to rows it has already visited. */
  lemma PlanStays(todo: seq<Guest>, a: map<RowId, Row>, b: map<RowId, Row>, plan: Plan, n: nat)
    requires PlanOk(todo, a, plan, n) && a.Keys == b.Keys && Grows(a, b)
    requires forall r :: r in a && a[r].task.Some? ==> b[r].task.Some?
    requires forall r | r in a && a[r].run == plan.run && a[r].guest !in todo[..n] && a[r].status == Running
      :: b[r].status == Running
    ensures PlanOk(todo, b, plan, n)
  {
    forall g | g in plan.done ensures HasTerminal(b, plan.run, g) { TerminalStays(a, b, plan.run, g); }
  }

  // ---- recovery ------------------------------------------------------------------------

  lemma {:induction false} SplitScan(rows: map<RowId, Row>, scan: seq<RowId>)
    requires forall r :: r in scan ==> r in rows
    requires forall i, j :: 0 <= i < j < |scan| ==> scan[i] > scan[j]
    ensures forall r :: r in Unconfirmed(rows, scan) <==> r in scan && rows[r].task.None?
    ensures forall r :: r in Confirmed(rows, scan) <==> r in scan && rows[r].task.Some?
    ensures Distinct(Unconfirmed(rows, scan)) && Distinct(Confirmed(rows, scan))
  {
    if scan != [] {
      SplitScan(rows, scan[1..]);
      assert scan == [scan[0]] + scan[1..];
      assert scan[0] !in scan[1..];
    }
  }

  lemma StartUpKeeps(d: Dash, scan: seq<RowId>)
    requires Inv(d)
    ensures Inv(StartUp(d, scan))
  {
    if d.phase.Down? && ScanResult(d.rows, scan) {
      SplitScan(d.rows, scan);
      var p := Recovering(Unconfirmed(d.rows, scan), Confirmed(d.rows, scan));
      forall r | IsUnconfirmed(d.rows, r) && d.rows[r].run in d.runs && d.runs[d.rows[r].run].status == Executing
        ensures Tracked(p, r)
      {
        ScanFindsNewest(d.rows, scan, r);
      }
      assert Unconfirmable(d.runs, d.rows, p);
      assert Holding(Todo(d.runs, p), d.rows, d.posts, p, false);
    }
  }

  /** The scan limit never hides the newest running row. */
  lemma ScanFindsNewest(rows: map<RowId, Row>, scan: seq<RowId>, r: RowId)
    requires ScanResult(rows, scan) && r in rows && rows[r].status == Running && NewestRunning(rows, r)
    ensures r in scan
  {
    assert scan != [] ==> scan[0] <= r;
  }

  lemma InterruptPendingKeeps(d: Dash)
    requires Inv(d)
    ensures Inv(InterruptPending(d))
  {
    if d.phase.Recovering? && d.phase.pending != [] {
      InterruptPendingWorker(d);
      assert d.phase.pending[0] in d.phase.pending;
      CloseKeeps(d, d.phase.pending[0], Interrupted, InterruptPending(d).phase);
      assert Stored(InterruptPending(d));
    }
  }

  lemma InterruptPendingWorker(d: Dash)
    requires Worker(d) && d.phase.Recovering? && d.phase.pending != []
    ensures Worker(InterruptPending(d))
  {
    var row, rest := d.phase.pending[0], d.phase.pending[1..];
    assert row in d.phase.pending && d.phase.pending == [row] + rest;
    RecoveryMovesOn(d, row, Interrupted, Recovering(rest, d.phase.adoptable));
    ListsStay(d, row, Interrupted, rest, d.phase.adoptable);
  }

  lemma RecoveryMovesOn(d: Dash, row: RowId, s: RowStatus, p: Phase)
    requires Scheduling(d.runs, d.phase) && Unconfirmable(d.runs, d.rows, d.phase)
    requires InRecovery(d.phase) && InRecovery(p) && s != Running && row in d.rows
    requires forall r :: Tracked(d.phase, r) ==> r == row || Tracked(p, r)
    ensures var n := Close(d, row, s); Scheduling(n.runs, p) && Unconfirmable(n.runs, n.rows, p)
  {
    var n := Close(d, row, s);
    assert SameQueue(d.runs, n.runs);
    forall r | IsUnconfirmed(n.rows, r) && n.rows[r].run in n.runs
      ensures n.runs[n.rows[r].run].status != Queued
      ensures n.runs[n.rows[r].run].status == Executing ==> Tracked(p, r) && NewestRunning(n.rows, r)
    {
      assert IsUnconfirmed(d.rows, r);
    }
  }

  lemma ListsStay(d: Dash, row: RowId, s: RowStatus, pending: seq<RowId>, adoptable: seq<RowId>)
    requires Pending(d.rows, pending) && Adoptable(d.rows, adoptable) && row !in pending && row !in adoptable
    ensures var n := Close(d, row, s); Pending(n.rows, pending) && Adoptable(n.rows, adoptable)
  {
  }

  lemma RecoverOneKeeps(d: Dash, verdict: Option<Verdict>)
    requires Inv(d) && (verdict.Some? ==> !verdict.value.NotStarted?)
    ensures Inv(RecoverOne(d, verdict))
  {
    if d.phase.Recovering? && d.phase.pending == [] && d.phase.adoptable != [] {
      assert [d.phase.adoptable[0]] + d.phase.adoptable[1..] == d.phase.adoptable;
      RephaseKeeps(d, RecoverOne(d, verdict).phase);
    }
  }

  lemma RequeueKeeps(d: Dash)
    requires Inv(d)
    ensures Inv(RequeueRuns(d))
  {
    if d.phase == Recovering([], []) {
      StatusKeeps(d, RequeueRuns(d).runs);
    }
  }

  // ---- the worker ----------------------------------------------------------------------

  lemma ClaimKeeps(d: Dash)
    requires Inv(d)
    ensures Inv(ClaimNext(d))
  {
    var n := ClaimNext(d);
    if n != d && n.phase.Down? {
      CrashKeeps(d);
    } else if n != d {
      StatusKeeps(d, n.runs);
      ClaimOutcomes(d);
      ClaimWorker(d);
    }
  }

  lemma ClaimOutcomes(d: Dash)
    requires Outcomes(d.runs, d.rows, d.endings)
    ensures Outcomes(ClaimNext(d).runs, d.rows, d.endings)
  {
  }

  lemma ClaimWorker(d: Dash)
    requires Worker(d) && d.phase.Idle? && ClaimNext(d).phase.Planning?
    ensures Worker(ClaimNext(d))
  {
    var n := ClaimNext(d);
    forall r | IsUnconfirmed(n.rows, r) && n.rows[r].run in n.runs
      ensures n.runs[n.rows[r].run].status != Queued && n.runs[n.rows[r].run].status != Executing
    {
      assert IsUnconfirmed(d.rows, r);
    }
  }

  lemma ReadPlanKeeps(d: Dash)
    requires Inv(d)
    ensures Inv(ReadPlan(d))
  {
    if d.phase.Planning? {
      var run := d.phase.run;
      PlanForOk(d, run);
      var p := AtTarget(PlanFor(d, run), 0, false);
      RephaseKeeps(d, p);
      RequestKeeps(d.(phase := p), d.cancelled - {run});
    }
  }

  /** Every row of the run is either finished or confirmed when its plan is read. */
  lemma PlanForOk(d: Dash, run: RunId)
    requires OneRowPerGuest(d.rows) && Unconfirmable(d.runs, d.rows, d.phase) && Scheduling(d.runs, d.phase)
    requires d.phase == Planning(run)
    ensures run in d.runs && PlanOk(d.runs[run].targets, d.rows, PlanFor(d, run), 0)
  {
    var plan := PlanFor(d, run);
    forall g | g in plan.adopt ensures AdoptOk(d.rows, plan, g, false) { AdoptsConfirmed(d, run, g); }
    forall g | g in plan.done ensures HasTerminal(d.rows, run, g) {}
    forall r | r in d.rows && d.rows[r].run == run
      ensures d.rows[r].guest in plan.done || (d.rows[r].guest in plan.adopt && plan.adopt[d.rows[r].guest] == r)
    {
      AccountsFor(d, run, r);
    }
  }

  lemma AdoptsConfirmed(d: Dash, run: RunId, g: Guest)
    requires Unconfirmable(d.runs, d.rows, d.phase) && Scheduling(d.runs, d.phase) && d.phase == Planning(run)
    requires g in PlanFor(d, run).adopt
    ensures AdoptOk(d.rows, PlanFor(d, run), g, false)
  {
    var r := PlanFor(d, run).adopt[g];
    assert r in d.rows && d.rows[r].run == run && d.rows[r].status == Running && d.rows[r].guest == g;
    assert !IsUnconfirmed(d.rows, r);
  }

  lemma AccountsFor(d: Dash, run: RunId, r: RowId)
    requires OneRowPerGuest(d.rows) && r in d.rows && d.rows[r].run == run
    ensures var plan := PlanFor(d, run);
      d.rows[r].guest in plan.done || (d.rows[r].guest in plan.adopt && plan.adopt[d.rows[r].guest] == r)
  {
    assert r in RowsOf(d.rows, run);
  }

  lemma PostKeeps(d: Dash)
    requires Inv(d)
    ensures Inv(Post(d))
  {
    if d.phase.Opened? {
      PostStored(d);
      PostWorker(d);
    }
  }

  lemma PostStored(d: Dash)
    requires Stored(d) && d.phase.Opened? && d.phase.row in d.rows && d.phase.row !in d.posts
    ensures Stored(Post(d))
  {
  }

  lemma PostWorker(d: Dash)
    requires Worker(d) && d.phase.Opened?
    ensures Worker(Post(d))
  {
  }

  lemma FailureHolds(todo: seq<Guest>, rows: map<RowId, Row>, posts: seq<RowId>, p: Phase, stopping: bool)
    requires p.Opened? || p.Posted?
    requires Holding(todo, rows, posts, p, stopping) && Progress(todo, rows, p)
    ensures var n := Settling(p.row, NotStarted, NextTarget(p.plan, p.index));
      Holding(todo, rows, posts, n, stopping) && Progress(todo, rows, n)
  {
  }

  lemma PostFailsKeeps(d: Dash)
    requires Inv(d)
    ensures Inv(PostFails(d))
  {
    if d.phase.Opened? || d.phase.Posted? {
      FailureHolds(Todo(d.runs, d.phase), d.rows, d.posts, d.phase, d.stopping);
      RephaseKeeps(d, Settling(d.phase.row, NotStarted, NextTarget(d.phase.plan, d.phase.index)));
    }
  }

  lemma PostAcceptedKeeps(d: Dash, task: TaskId)
    requires Inv(d)
    ensures Inv(PostAccepted(d, task))
  {
    if d.phase.Posted? { RephaseKeeps(d, PostAccepted(d, task).phase); }
  }

  lemma PollKeeps(d: Dash, verdict: Verdict)
    requires Inv(d) && !verdict.NotStarted?
    ensures Inv(PollVerdict(d, verdict))
  {
    if d.phase.Polling? { RephaseKeeps(d, PollVerdict(d, verdict).phase); }
  }

  lemma PollStopsKeeps(d: Dash)
    requires Inv(d)
    ensures Inv(PollStops(d))
  {
    if d.phase.Polling? && d.stopping { RephaseKeeps(d, PollStops(d).phase); }
  }

  lemma RecordTaskKeeps(d: Dash)
    requires Inv(d)
    ensures Inv(RecordTask(d))
  {
    if d.phase.Accepted? && d.phase.row in d.rows {
      RecordTaskStored(d);
      RecordTaskWorker(d);
    }
  }

  lemma RecordTaskStored(d: Dash)
    requires Stored(d) && d.phase.Accepted? && d.phase.row in d.rows
    ensures Stored(RecordTask(d))
  {
    var n := RecordTask(d);
    TaskStays(d.rows, d.phase.row, d.phase.task);
    TaskCounts(d.runs, d.rows, d.phase.row, d.phase.task);
    OutcomesStay(d.runs, d.runs, d.rows, n.rows, d.endings);
    RowsStay(d.runs, d.runs, d.rows, n.rows, d.nextRow);
  }

  lemma RecordTaskWorker(d: Dash)
    requires Worker(d) && d.phase.Accepted? && d.phase.row in d.rows
    ensures Worker(RecordTask(d))
  {
    RecordTaskMovesOn(d);
  }

  lemma TaskStays(rows: map<RowId, Row>, row: RowId, task: TaskId)
    requires row in rows
    ensures var after := rows[row := rows[row].(task := Some(task))];
      && after.Keys == rows.Keys && Grows(rows, after)
      && (forall r :: r in rows ==> after[r].status == rows[r].status)
      && (forall r :: IsUnconfirmed(after, r) ==> IsUnconfirmed(rows, r))
      && (forall r :: r in rows && rows[r].task.Some? ==> after[r].task.Some?)
  {
  }

  lemma RecordTaskMovesOn(d: Dash)
    requires d.phase.Accepted? && d.phase.row in d.rows && Unconfirmable(d.runs, d.rows, d.phase)
    requires Progress(Todo(d.runs, d.phase), d.rows, d.phase)
    ensures var n := RecordTask(d);
      Unconfirmable(n.runs, n.rows, n.phase) && Progress(Todo(n.runs, n.phase), n.rows, n.phase)
  {
    var n := RecordTask(d);
    var plan, i, todo := d.phase.plan, d.phase.index, Todo(d.runs, d.phase);
    TaskStays(d.rows, d.phase.row, d.phase.task);
    PlanStays(todo, d.rows, n.rows, plan, i + 1);
    DoneStays(d.rows, n.rows, todo, plan.run, i, false);
    forall r | IsUnconfirmed(n.rows, r) && n.rows[r].run in n.runs
      ensures n.runs[n.rows[r].run].status != Queued
      ensures n.runs[n.rows[r].run].status != Executing
    {
      assert IsUnconfirmed(d.rows, r) && r != d.phase.row;
    }
  }

  lemma TaskCounts(runs: map<RunId, Run>, rows: map<RowId, Row>, row: RowId, task: TaskId)
    requires Counters(runs, rows) && row in rows
    ensures Counters(runs, rows[row := rows[row].(task := Some(task))])
  {
    var after := rows[row := rows[row].(task := Some(task))];
    forall id | id in runs
      ensures ClosedWell(after, id) == ClosedWell(rows, id)
      ensures ClosedBadly(after, id) == ClosedBadly(rows, id)
    {
    }
  }

  lemma CommitKeeps(d: Dash)
    requires Inv(d)
    ensures Inv(Commit(d))
  {
    if d.phase.Settling? {
      SettlingRow(d);
      CloseKeeps(d, d.phase.row, VerdictStatus(d.phase.verdict), Commit(d).phase);
      assert Stored(Commit(d));
      CommitWorker(d);
    }
  }

  lemma CommitWorker(d: Dash)
    requires Worker(d) && d.phase.Settling?
    ensures Worker(Commit(d))
  {
    var row, s := d.phase.row, VerdictStatus(d.phase.verdict);
    match d.phase.after
    case BackToRecovery(adoptable) => CommitInRecovery(d, adoptable);
    case NextTarget(plan, i) => CloseMovesOn(d, row, s, plan, i);
  }

  lemma SettlingRow(d: Dash)
    requires Holding(Todo(d.runs, d.phase), d.rows, d.posts, d.phase, d.stopping) && d.phase.Settling?
    ensures d.phase.row in d.rows && d.rows[d.phase.row].status == Running
  {
    if d.phase.after.BackToRecovery? {
      assert d.phase.row in [d.phase.row] + d.phase.after.adoptable;
    }
  }

  lemma CommitInRecovery(d: Dash, adoptable: seq<RowId>)
    requires Scheduling(d.runs, d.phase) && Unconfirmable(d.runs, d.rows, d.phase)
    requires Holding(Todo(d.runs, d.phase), d.rows, d.posts, d.phase, d.stopping)
    requires d.phase.Settling? && d.phase.after == BackToRecovery(adoptable)
    ensures var n := Commit(d);
      && Scheduling(n.runs, n.phase) && Unconfirmable(n.runs, n.rows, n.phase)
      && Holding(Todo(n.runs, n.phase), n.rows, n.posts, n.phase, n.stopping)
  {
    var row, s := d.phase.row, VerdictStatus(d.phase.verdict);
    var all := [row] + adoptable;
    assert row == all[0] && all[1..] == adoptable;
    assert row in all;
    RecoveryMovesOn(d, row, s, Recovering([], adoptable));
    ListsStay(d, row, s, [], adoptable);
  }

  lemma CloseMovesOn(d: Dash, row: RowId, s: RowStatus, plan: Plan, i: nat)
    requires Scheduling(d.runs, d.phase) && Unconfirmable(d.runs, d.rows, d.phase)
    requires Holding(Todo(d.runs, d.phase), d.rows, d.posts, d.phase, d.stopping)
    requires Progress(Todo(d.runs, d.phase), d.rows, d.phase)
    requires d.phase.Settling? && d.phase.row == row && d.phase.after == NextTarget(plan, i) && s != Running
    ensures var n := Close(d, row, s); var p := AtTarget(plan, i + 1, false);
      && Scheduling(n.runs, p) && Unconfirmable(n.runs, n.rows, p)
      && PlanOk(Todo(n.runs, p), n.rows, plan, i + 1) && DoneUpTo(Todo(n.runs, p), n.rows, plan.run, i + 1, false)
  {
    var n, todo := Close(d, row, s), Todo(d.runs, d.phase);
    assert SameQueue(d.runs, n.runs);
    forall r | IsUnconfirmed(n.rows, r) && n.rows[r].run in n.runs
      ensures n.runs[n.rows[r].run].status != Queued
      ensures n.runs[n.rows[r].run].status != Executing
    {
      assert IsUnconfirmed(d.rows, r) && r != row;
    }
    CloseGrows(d, row, s);
    assert Todo(n.runs, AtTarget(plan, i + 1, false)) == todo;
    CloseAdvances(d, row, s, plan, i, todo);
  }

  lemma CloseAdvances(d: Dash, row: RowId, s: RowStatus, plan: Plan, i: nat, todo: seq<Guest>)
    requires Held(todo, d.rows, plan, i, row) && Ahead(todo, d.rows, plan, i) && s != Running
    ensures var n := Close(d, row, s);
      PlanOk(todo, n.rows, plan, i + 1) && DoneUpTo(todo, n.rows, plan.run, i + 1, false)
  {
    var n := Close(d, row, s);
    CloseGrows(d, row, s);
    assert todo[i] in todo[..i + 1];
    PlanStays(todo, d.rows, n.rows, plan, i + 1);
    DoneStays(d.rows, n.rows, todo, plan.run, i, false);
  }

  // ---- the loop head and the end of a run ----------------------------------------------

  lemma VisitKeeps(d: Dash)
    requires Inv(d) && d.phase.AtTarget?
    ensures Inv(Visit(d, d.phase.plan, d.phase.index, d.phase.skipped))
  {
    var plan, i, skipped := d.phase.plan, d.phase.index, d.phase.skipped;
    var todo := Todo(d.runs, d.phase);
    assert todo == d.runs[plan.run].targets;
    if i == |todo| || (!d.stopping && plan.run in d.cancelled) {
      LeaveLoopKeeps(d);
    } else if d.stopping {
      CrashKeeps(d);
    } else if todo[i] in plan.done {
      PassOverKeeps(d, plan, i);
    } else if todo[i] in plan.adopt {
      AdoptKeeps(d, plan, i, plan.adopt[todo[i]]);
    } else {
      OpenKeeps(d, plan, i);
    }
  }

  lemma LeaveLoopKeeps(d: Dash)
    requires Inv(d) && d.phase.AtTarget?
    ensures var p := d.phase;
      && (p.index == |d.runs[p.plan.run].targets| ==>
            Inv(d.(phase := Finalising(p.plan.run, if p.skipped then StoppedAtLast else Completed))))
      && Inv(d.(phase := Finalising(p.plan.run, CancelSeen)))
  {
    var p := d.phase;
    if p.index == |d.runs[p.plan.run].targets| {
      RephaseKeeps(d, Finalising(p.plan.run, if p.skipped then StoppedAtLast else Completed));
    }
    RephaseKeeps(d, Finalising(p.plan.run, CancelSeen));
  }

  lemma PassOverKeeps(d: Dash, plan: Plan, i: nat)
    requires Inv(d) && d.phase.AtTarget? && d.phase.plan == plan && d.phase.index == i && !d.stopping
    requires plan.run in d.runs && i < |d.runs[plan.run].targets| && d.runs[plan.run].targets[i] in plan.done
    ensures Inv(d.(phase := AtTarget(plan, i + 1, false)))
  {
    PlanAdvances(d.runs[plan.run].targets, d.rows, plan, i);
    RephaseKeeps(d, AtTarget(plan, i + 1, false));
  }

  lemma AdoptedHolds(todo: seq<Guest>, rows: map<RowId, Row>, posts: seq<RowId>, plan: Plan, i: nat, stopping: bool)
    requires Distinct(todo) && i < |todo| && todo[i] in plan.adopt && Progress(todo, rows, AtTarget(plan, i, false))
    ensures var row := plan.adopt[todo[i]];
      && row in rows && rows[row].task.Some?
      && var p := Polling(plan, i, row, rows[row].task.value);
      && Holding(todo, rows, posts, p, stopping) && Progress(todo, rows, p)
  {
    PlanAdvances(todo, rows, plan, i);
    AdoptedIsHeld(todo, rows, plan, i);
  }

  lemma AdoptKeeps(d: Dash, plan: Plan, i: nat, row: RowId)
    requires Inv(d) && d.phase == AtTarget(plan, i, false)
    requires i < |d.runs[plan.run].targets| && d.runs[plan.run].targets[i] in plan.adopt
    requires row == plan.adopt[d.runs[plan.run].targets[i]]
    ensures row in d.rows && d.rows[row].task.Some?
    ensures Inv(d.(phase := Polling(plan, i, row, d.rows[row].task.value)))
  {
    AdoptedHolds(Todo(d.runs, d.phase), d.rows, d.posts, plan, i, d.stopping);
    RephaseKeeps(d, Polling(plan, i, row, d.rows[row].task.value));
  }

  lemma PlanAdvances(todo: seq<Guest>, rows: map<RowId, Row>, plan: Plan, i: nat)
    requires i < |todo| && PlanOk(todo, rows, plan, i)
    ensures PlanOk(todo, rows, plan, i + 1)
  {
    assert todo[..i + 1] == todo[..i] + [todo[i]];
  }

  lemma AdoptedIsHeld(todo: seq<Guest>, rows: map<RowId, Row>, plan: Plan, i: nat)
    requires Distinct(todo) && i < |todo| && PlanOk(todo, rows, plan, i) && todo[i] in plan.adopt
    ensures Held(todo, rows, plan, i, plan.adopt[todo[i]]) && rows[plan.adopt[todo[i]]].task.Some?
  {
    assert todo[i] !in todo[..i];
    assert AdoptOk(rows, plan, todo[i], todo[i] in todo[..i]);
  }

  /** Opening a row for the next target: the guest has none yet, and the row is committed
      before anything is sent. */
  lemma OpenKeeps(d: Dash, plan: Plan, i: nat)
    requires Inv(d) && d.phase == AtTarget(plan, i, false)
    requires i < |d.runs[plan.run].targets| && d.runs[plan.run].targets[i] !in plan.done
    requires d.runs[plan.run].targets[i] !in plan.adopt
    ensures var row := Row(plan.run, d.runs[plan.run].targets[i], Running, None);
      Inv(d.(rows := d.rows[d.nextRow := row], nextRow := d.nextRow + 1, phase := Opened(plan, i, d.nextRow)))
  {
    var guest := d.runs[plan.run].targets[i];
    var n := d.(rows := d.rows[d.nextRow := Row(plan.run, guest, Running, None)],
                nextRow := d.nextRow + 1, phase := Opened(plan, i, d.nextRow));
    GuestHasNoRow(Todo(d.runs, d.phase), d.rows, plan, i);
    OpenStored(d, plan.run, guest, n.phase);
    OpenWorker(d, plan, i);
    assert Stored(n) && Worker(n);
  }

  lemma GuestHasNoRow(todo: seq<Guest>, rows: map<RowId, Row>, plan: Plan, i: nat)
    requires Distinct(todo) && i < |todo| && PlanOk(todo, rows, plan, i)
    requires todo[i] !in plan.done && todo[i] !in plan.adopt
    ensures forall r :: r in rows && rows[r].run == plan.run ==> rows[r].guest != todo[i]
  {
    assert todo[i] !in todo[..i];
  }

  lemma OpenStored(d: Dash, run: RunId, guest: Guest, p: Phase)
    requires Stored(d) && run in d.runs && guest in d.runs[run].targets
    requires forall r :: r in d.rows && d.rows[r].run == run ==> d.rows[r].guest != guest
    ensures Stored(d.(rows := d.rows[d.nextRow := Row(run, guest, Running, None)],
                      nextRow := d.nextRow + 1, phase := p))
  {
    var rows := d.rows[d.nextRow := Row(run, guest, Running, None)];
    assert d.nextRow !in d.rows;
    OpenCounts(d.runs, d.rows, d.nextRow, Row(run, guest, Running, None));
    OutcomesStay(d.runs, d.runs, d.rows, rows, d.endings);
    OpenRows(d.runs, d.rows, d.nextRow, run, guest);
    OpenHistory(d.rows, d.posts, d.closes, d.nextRow, Row(run, guest, Running, None));
  }

  lemma OpenHistory(rows: map<RowId, Row>, posts: seq<RowId>, closes: seq<RowId>, newId: RowId, row: Row)
    requires History(rows, posts, closes) && newId !in rows && row.status == Running
    ensures History(rows[newId := row], posts, closes)
  {
  }

  lemma OpenRows(runs: map<RunId, Run>, rows: map<RowId, Row>, nextRow: RowId, run: RunId, guest: Guest)
    requires RowsOk(runs, rows, nextRow) && OneRowPerGuest(rows) && run in runs && guest in runs[run].targets
    requires forall r :: r in rows && rows[r].run == run ==> rows[r].guest != guest
    ensures var later := rows[nextRow := Row(run, guest, Running, None)];
      RowsOk(runs, later, nextRow + 1) && OneRowPerGuest(later)
  {
  }

  lemma OpenCounts(runs: map<RunId, Run>, rows: map<RowId, Row>, newId: RowId, row: Row)
    requires Counters(runs, rows) && newId !in rows && row.status == Running
    ensures Counters(runs, rows[newId := row])
  {
    forall id | id in runs
      ensures ClosedWell(rows[newId := row], id) == ClosedWell(rows, id)
      ensures ClosedBadly(rows[newId := row], id) == ClosedBadly(rows, id)
    {
    }
  }

  lemma OpenWorker(d: Dash, plan: Plan, i: nat)
    requires Inv(d) && d.phase == AtTarget(plan, i, false)
    requires i < |d.runs[plan.run].targets|
    ensures var row := Row(plan.run, d.runs[plan.run].targets[i], Running, None);
      Worker(d.(rows := d.rows[d.nextRow := row], nextRow := d.nextRow + 1, phase := Opened(plan, i, d.nextRow)))
  {
    var todo := d.runs[plan.run].targets;
    var rows := d.rows[d.nextRow := Row(plan.run, todo[i], Running, None)];
    var p := Opened(plan, i, d.nextRow);
    assert Todo(d.runs, p) == todo == Todo(d.runs, d.phase);
    OpenProgress(todo, d.rows, plan, i, d.nextRow);
    forall r | IsUnconfirmed(rows, r) && rows[r].run in d.runs && r != d.nextRow
      ensures d.runs[rows[r].run].status != Queued && d.runs[rows[r].run].status != Executing
    {
      assert IsUnconfirmed(d.rows, r);
    }
    assert Unconfirmable(d.runs, rows, p);
  }

  lemma OpenProgress(todo: seq<Guest>, rows: map<RowId, Row>, plan: Plan, i: nat, newId: RowId)
    requires PlanOk(todo, rows, plan, i) && DoneUpTo(todo, rows, plan.run, i, false) && i < |todo| && newId !in rows
    ensures Ahead(todo, rows[newId := Row(plan.run, todo[i], Running, None)], plan, i)
  {
    var later := rows[newId := Row(plan.run, todo[i], Running, None)];
    PlanAdvances(todo, rows, plan, i);
    assert Grows(rows, later);
    DoneStays(rows, later, todo, plan.run, i, false);
    forall g | g in plan.done ensures HasTerminal(later, plan.run, g) { TerminalStays(rows, later, plan.run, g); }
    assert todo[i] in todo[..i + 1];
  }

  lemma FinaliseKeeps(d: Dash)
    requires Inv(d) && d.phase.Finalising?
    ensures Inv(FinaliseRun(d, d.phase.run, d.phase.ending))
  {
    var n := FinaliseRun(d, d.phase.run, d.phase.ending);
    StatusKeeps(d, n.runs);
    assert Todo(d.runs, d.phase) == d.runs[d.phase.run].targets;
    FinaliseOutcomes(d);
    FinaliseWorker(d);
  }

  lemma FinaliseOutcomes(d: Dash)
    requires d.phase.Finalising? && d.phase.run in d.runs && Outcomes(d.runs, d.rows, d.endings)
    requires d.phase.ending == Completed ==> AllTerminal(d.rows, d.phase.run, d.runs[d.phase.run].targets)
    ensures var n := FinaliseRun(d, d.phase.run, d.phase.ending); Outcomes(n.runs, n.rows, n.endings)
  {
  }

  lemma FinaliseWorker(d: Dash)
    requires Worker(d) && d.phase.Finalising?
    ensures Worker(FinaliseRun(d, d.phase.run, d.phase.ending))
  {
    var n := FinaliseRun(d, d.phase.run, d.phase.ending);
    forall r | IsUnconfirmed(n.rows, r) && n.rows[r].run in n.runs
      ensures n.runs[n.rows[r].run].status != Queued && n.runs[n.rows[r].run].status != Executing
    {
      assert IsUnconfirmed(d.rows, r);
    }
  }

  // ---- every run -----------------------------------------------------------------------

  predicate FromOutside(e: Event) {
    e.SubmitRun? || e.CancelQueued? || e.RetireArtifact? || e.RequestCancel? || e.RequestStop?
    || e.ExecutorFails? || e.Crash?
  }

  predicate InStartUp(e: Event) {
    e.Boot? || e.RecoverPending? || e.RecoverForgotten? || e.RecoverDeferred? || e.RecoverEnded? || e.Requeue?
  }

  lemma OutsideKeeps(d: Dash, e: Event)
    requires Inv(d) && FromOutside(e)
    ensures Inv(Step(d, e))
  {
    match e
    case SubmitRun(targets) => SubmitKeeps(d, targets);
    case CancelQueued(run) => CancelWaitingKeeps(d, run);
    case RetireArtifact(row) => RetireKeeps(d, row);
    case RequestCancel(run) => RequestKeeps(d, d.cancelled + {run});
    case RequestStop => RequestKeeps(d, d.cancelled);
    case ExecutorFails => FailKeeps(d);
    case Crash => CrashKeeps(d);
  }

  lemma StartUpStepKeeps(d: Dash, e: Event)
    requires Inv(d) && InStartUp(e)
    ensures Inv(Step(d, e))
  {
    match e
    case Boot(scan) => StartUpKeeps(d, scan);
    case RecoverPending => InterruptPendingKeeps(d);
    case RecoverForgotten => RecoverOneKeeps(d, Some(Unknown));
    case RecoverDeferred => RecoverOneKeeps(d, None);
    case RecoverEnded(end) => RecoverOneKeeps(d, Some(Reported(end)));
    case Requeue => RequeueKeeps(d);
  }

  predicate Starting(e: Event) {
    e.SendStart? || e.StartFailed? || e.StartAccepted? || e.StoreTask?
  }

  predicate Following(e: Event) {
    e.PollEnded? || e.PollGaveUp? || e.PollStopped?
  }

  lemma StartingKeeps(d: Dash, e: Event)
    requires Inv(d) && Starting(e)
    ensures Inv(Step(d, e))
  {
    match e
    case SendStart => PostKeeps(d);
    case StartFailed => PostFailsKeeps(d);
    case StartAccepted(task) => PostAcceptedKeeps(d, task);
    case StoreTask => RecordTaskKeeps(d);
  }

  lemma FollowingKeeps(d: Dash, e: Event)
    requires Inv(d) && Following(e)
    ensures Inv(Step(d, e))
  {
    match e
    case PollEnded(end) => PollKeeps(d, Reported(end));
    case PollGaveUp => PollKeeps(d, Unknown);
    case PollStopped => PollStopsKeeps(d);
  }

  lemma WorkerStepKeeps(d: Dash, e: Event)
    requires Inv(d) && !FromOutside(e) && !InStartUp(e) && !Starting(e) && !Following(e)
    ensures Inv(Step(d, e))
  {
    match e
    case Claim => ClaimKeeps(d);
    case LoadPlan => ReadPlanKeeps(d);
    case VisitTarget => if d.phase.AtTarget? { VisitKeeps(d); }
    case Settle => CommitKeeps(d);
    case Finalise => if d.phase.Finalising? { FinaliseKeeps(d); }
  }

  lemma StepKeeps(d: Dash, e: Event)
    requires Inv(d)
    ensures Inv(Step(d, e))
  {
    if FromOutside(e) { OutsideKeeps(d, e); }
    else if InStartUp(e) { StartUpStepKeeps(d, e); }
    else if Starting(e) { StartingKeeps(d, e); }
    else if Following(e) { FollowingKeeps(d, e); }
    else { WorkerStepKeeps(d, e); }
  }

  lemma {:induction false} PlayKeeps(d: Dash, events: seq<Event>)
    requires Inv(d)
    ensures Inv(Play(d, events))
  {
    if events != [] {
      PlayKeeps(d, events[..|events| - 1]);
      StepKeeps(Play(d, events[..|events| - 1]), events[|events| - 1]);
    }
  }

  lemma StartIsFine()
    ensures Inv(NEW_DASH)
  {
  }
}
