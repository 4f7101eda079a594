/** The run executor: the durable queue of runs, the history rows, and the single worker that
    turns one into the other. Every committed session is one atomic step; a crash, a restart,
    a stop request and a cancellation may fall between any two steps. */
module BackupRuns {
  import opened Prelude

  type RunId = nat
  type RowId = nat

  datatype RunStatus = Queued | Executing | RunSuccess | Partial | RunFailed | RunCancelled

  /** A run as it is stored. `guest_total` is the number of targets. */
  datatype Run = Run(status: RunStatus, targets: seq<Guest>, succeeded: int, failed: int)

  datatype Row = Row(run: RunId, guest: Guest, status: RowStatus, task: Option<TaskId>)

  /** A terminal state reported by the agent for one of its tasks. */
  datatype TaskEnd = EndSuccess | EndFailed | EndCancelled | EndInterrupted

  /** What the worker has decided about the row it holds, before that decision is committed. */
  datatype Verdict = Reported(end: TaskEnd) | Unknown | NotStarted

  datatype Plan = Plan(run: RunId, done: set<Guest>, adopt: map<Guest, RowId>)

  /** Why a run left the executor. */
  datatype Ending = Completed | StoppedAtLast | CancelSeen | Error | CancelledWhileQueued

  /** Where the worker continues once a verdict is committed. */
  datatype Resumption = NextTarget(plan: Plan, index: nat) | BackToRecovery(adoptable: seq<RowId>)

  datatype Phase =
    | Down
    | Recovering(pending: seq<RowId>, adoptable: seq<RowId>)
    | Idle
    | Planning(run: RunId)
    | AtTarget(plan: Plan, index: nat, skipped: bool)
    | Opened(plan: Plan, index: nat, row: RowId)
    | Posted(plan: Plan, index: nat, row: RowId)
    | Accepted(plan: Plan, index: nat, row: RowId, task: TaskId)
    | Polling(plan: Plan, index: nat, row: RowId, task: TaskId)
    | Settling(row: RowId, verdict: Verdict, after: Resumption)
    | Finalising(run: RunId, ending: Ending)

  /** `posts`, `closes` and `endings` are history: which rows a start request was sent for,
      which rows were closed, and why each finished run finished. Nothing reads them. */
  datatype Dash = Dash(
    runs: map<RunId, Run>,
    rows: map<RowId, Row>,
    nextRun: RunId,
    nextRow: RowId,
    phase: Phase,
    cancelled: set<RunId>,
    stopping: bool,
    posts: seq<RowId>,
    closes: seq<RowId>,
    endings: map<RunId, Ending>)

  datatype Event =
    | SubmitRun(targets: seq<Guest>)
    | CancelQueued(run: RunId)
    | RetireArtifact(row: RowId)
    | RequestCancel(run: RunId)
    | RequestStop
    | Boot(scan: seq<RowId>)
    | RecoverPending
    | RecoverForgotten
    | RecoverDeferred
    | RecoverEnded(end: TaskEnd)
    | Requeue
    | Claim
    | LoadPlan
    | VisitTarget
    | SendStart
    | StartFailed
    | StartAccepted(task: TaskId)
    | StoreTask
    | PollEnded(end: TaskEnd)
    | PollGaveUp
    | PollStopped
    | Settle
    | Finalise
    | ExecutorFails
    | Crash

  const SCAN_LIMIT := 1000

  predicate Terminal(s: RowStatus) { s != Running }

  predicate RunOver(s: RunStatus) { s != Queued && s != Executing }

  function VerdictStatus(v: Verdict): RowStatus {
    match v
    case Reported(EndSuccess) => Success
    case Reported(EndFailed) => Failed
    case Reported(EndCancelled) => Cancelled
    case Reported(EndInterrupted) => Interrupted
    case Unknown => Interrupted
    case NotStarted => Failed
  }

  // ---- queries -------------------------------------------------------------------------

  function RowsOf(rows: map<RowId, Row>, run: RunId): set<RowId> {
    set r | r in rows && rows[r].run == run
  }

  function RowsWith(rows: map<RowId, Row>, run: RunId, s: RowStatus): set<RowId> {
    set r | r in rows && rows[r].run == run && rows[r].status == s
  }

  /** Rows that closed well. A successful artifact that was deleted later stays counted. */
  ghost function ClosedWell(rows: map<RowId, Row>, run: RunId): set<RowId> {
    set r | r in rows && rows[r].run == run && (rows[r].status == Success || rows[r].status == Deleted)
  }

  ghost function ClosedBadly(rows: map<RowId, Row>, run: RunId): set<RowId> {
    set r | r in rows && rows[r].run == run
            && (rows[r].status == Failed || rows[r].status == Cancelled || rows[r].status == Interrupted)
  }

  ghost predicate IsOldestQueued(runs: map<RunId, Run>, run: RunId) {
    && run in runs && runs[run].status == Queued
    && forall other :: other in runs && runs[other].status == Queued ==> run <= other
  }

  /** The status a finished run is given, from its artifacts. */
  function Summarise(run: Run, rows: map<RowId, Row>, id: RunId): RunStatus {
    var succeeded := |RowsWith(rows, id, Success)|;
    var cancelled := |RowsWith(rows, id, Cancelled)|;
    if RowsOf(rows, id) == {} then RunFailed
    else if cancelled > 0 && succeeded == 0 then RunCancelled
    else if succeeded == |run.targets| then RunSuccess
    else if succeeded == 0 then (if cancelled > 0 then RunCancelled else RunFailed)
    else Partial
  }

  ghost function PlanFor(d: Dash, run: RunId): Plan {
    var mine := RowsOf(d.rows, run);
    var open := set r | r in mine && d.rows[r].status == Running :: d.rows[r].guest;
    Plan(run,
         set r | r in mine && Terminal(d.rows[r].status) :: d.rows[r].guest,
         map g | g in open :: (var r :| r in mine && d.rows[r].status == Running && d.rows[r].guest == g; r))
  }

  /** The rows recovery looks at: running ones, newest first, at most `SCAN_LIMIT` of them. */
  ghost predicate ScanResult(rows: map<RowId, Row>, scan: seq<RowId>) {
    && (forall i :: 0 <= i < |scan| ==> scan[i] in rows && rows[scan[i]].status == Running)
    && (forall i, j :: 0 <= i < j < |scan| ==> scan[i] > scan[j])
    && |scan| <= SCAN_LIMIT
    && forall r :: r in rows && rows[r].status == Running && r !in scan ==>
         |scan| == SCAN_LIMIT && forall i :: 0 <= i < |scan| ==> r < scan[i]
  }

  function Unconfirmed(rows: map<RowId, Row>, scan: seq<RowId>): seq<RowId>
    requires forall r :: r in scan ==> r in rows
  {
    if scan == [] then []
    else (if rows[scan[0]].task.None? then [scan[0]] else []) + Unconfirmed(rows, scan[1..])
  }

  function Confirmed(rows: map<RowId, Row>, scan: seq<RowId>): seq<RowId>
    requires forall r :: r in scan ==> r in rows
  {
    if scan == [] then []
    else (if rows[scan[0]].task.Some? then [scan[0]] else []) + Confirmed(rows, scan[1..])
  }

  // ---- commits -------------------------------------------------------------------------

  /** Close a row and charge its run's counter, in one transaction. */
  function Close(d: Dash, row: RowId, s: RowStatus): Dash {
    if row !in d.rows then d
    else
      var rows := d.rows[row := d.rows[row].(status := s)];
      var id := d.rows[row].run;
      var runs :=
        if id !in d.runs then d.runs
        else if s == Success then d.runs[id := d.runs[id].(succeeded := d.runs[id].succeeded + 1)]
        else d.runs[id := d.runs[id].(failed := d.runs[id].failed + 1)];
      d.(rows := rows, runs := runs, closes := d.closes + [row])
  }

  function GoDown(d: Dash): Dash {
    d.(phase := Down, cancelled := {}, stopping := false)
  }

  ghost function ActiveRun(p: Phase): Option<RunId> {
    match p
    case Planning(run) => Some(run)
    case AtTarget(plan, _, _) => Some(plan.run)
    case Opened(plan, _, _) => Some(plan.run)
    case Posted(plan, _, _) => Some(plan.run)
    case Accepted(plan, _, _, _) => Some(plan.run)
    case Polling(plan, _, _, _) => Some(plan.run)
    case Settling(_, _, NextTarget(plan, _)) => Some(plan.run)
    case Finalising(run, _) => Some(run)
    case _ => None
  }

  /** The head of the loop over the plan's targets. */
  ghost function Visit(d: Dash, plan: Plan, i: nat, skipped: bool): Dash {
    if plan.run !in d.runs || i >= |d.runs[plan.run].targets| then
      d.(phase := Finalising(plan.run, if skipped then StoppedAtLast else Completed))
    else
      var guest := d.runs[plan.run].targets[i];
      if d.stopping then GoDown(d)
      else if plan.run in d.cancelled then d.(phase := Finalising(plan.run, CancelSeen))
      else if guest in plan.done then d.(phase := AtTarget(plan, i + 1, false))
      else if guest in plan.adopt && plan.adopt[guest] in d.rows then
        var row := plan.adopt[guest];
        match d.rows[row].task
        case Some(task) => d.(phase := Polling(plan, i, row, task))
        case None => d.(phase := Opened(plan, i, row))
      else
        d.(rows := d.rows[d.nextRow := Row(plan.run, guest, Running, None)],
           nextRow := d.nextRow + 1,
           phase := Opened(plan, i, d.nextRow))
  }

  function FinaliseRun(d: Dash, run: RunId, ending: Ending): Dash {
    if run !in d.runs then d.(phase := Idle)
    else
      var status := if run in d.cancelled then RunCancelled
                    else if ending == Error then RunFailed
                    else Summarise(d.runs[run], d.rows, run);
      d.(runs := d.runs[run := d.runs[run].(status := status)],
         cancelled := d.cancelled - {run},
         endings := d.endings[run := ending],
         phase := Idle)
  }

  /** An exception escaping the executor: the run is finalised as failed; if that fails too,
      or recovery itself fails, the worker is gone until the next start. */
  function Fail(d: Dash): Dash {
    match d.phase
    case Planning(run) => d.(phase := Finalising(run, Error))
    case AtTarget(plan, _, _) => d.(phase := Finalising(plan.run, Error))
    case Opened(plan, _, _) => d.(phase := Finalising(plan.run, Error))
    case Posted(plan, _, _) => d.(phase := Finalising(plan.run, Error))
    case Accepted(plan, _, _, _) => d.(phase := Finalising(plan.run, Error))
    case Polling(plan, _, _, _) => d.(phase := Finalising(plan.run, Error))
    case Settling(_, _, NextTarget(plan, _)) => d.(phase := Finalising(plan.run, Error))
    case Finalising(run, ending) =>
      if ending == Error then GoDown(d) else d.(phase := Finalising(run, Error))
    case Idle => d
    case _ => GoDown(d)
  }

  // ---- requests from outside -----------------------------------------------------------

  ghost function Submit(d: Dash, targets: seq<Guest>): Dash {
    if !Distinct(targets) then d
    else d.(runs := d.runs[d.nextRun := Run(Queued, targets, 0, 0)], nextRun := d.nextRun + 1)
  }

  function CancelWaiting(d: Dash, run: RunId): Dash {
    if run in d.runs && d.runs[run].status == Queued then
      d.(runs := d.runs[run := d.runs[run].(status := RunCancelled)],
         endings := d.endings[run := CancelledWhileQueued])
    else d
  }

  /** Retention, or an operator, removed the last copy of a successful backup. */
  function Retire(d: Dash, row: RowId): Dash {
    if row in d.rows && d.rows[row].status == Success then
      d.(rows := d.rows[row := d.rows[row].(status := Deleted)])
    else d
  }

  // ---- recovery ------------------------------------------------------------------------

  ghost function StartUp(d: Dash, scan: seq<RowId>): Dash {
    if d.phase.Down? && ScanResult(d.rows, scan) then
      d.(phase := Recovering(Unconfirmed(d.rows, scan), Confirmed(d.rows, scan)),
         cancelled := {}, stopping := false)
    else d
  }

  function InterruptPending(d: Dash): Dash {
    if d.phase.Recovering? && d.phase.pending != [] then
      Close(d, d.phase.pending[0], Interrupted)
        .(phase := Recovering(d.phase.pending[1..], d.phase.adoptable))
    else d
  }

  /** Ask the agent about the next confirmed row; `None` leaves it for the executor to adopt. */
  function RecoverOne(d: Dash, verdict: Option<Verdict>): Dash {
    if d.phase.Recovering? && d.phase.pending == [] && d.phase.adoptable != [] then
      var rest := d.phase.adoptable[1..];
      match verdict
      case Some(v) => d.(phase := Settling(d.phase.adoptable[0], v, BackToRecovery(rest)))
      case None => d.(phase := Recovering([], rest))
    else d
  }

  function RequeueRuns(d: Dash): Dash {
    if d.phase == Recovering([], []) then
      d.(runs := map id | id in d.runs ::
           if d.runs[id].status == Executing then d.runs[id].(status := Queued) else d.runs[id],
         phase := Idle)
    else d
  }

  // ---- the worker ----------------------------------------------------------------------

  ghost function ClaimNext(d: Dash): Dash {
    if !d.phase.Idle? then d
    else if d.stopping then GoDown(d)
    else if exists run :: IsOldestQueued(d.runs, run) then
      var run :| IsOldestQueued(d.runs, run);
      d.(runs := d.runs[run := d.runs[run].(status := Executing)], phase := Planning(run))
    else d
  }

  ghost function ReadPlan(d: Dash): Dash {
    if d.phase.Planning? then
      d.(phase := AtTarget(PlanFor(d, d.phase.run), 0, false),
         cancelled := d.cancelled - {d.phase.run})
    else d
  }

  function Post(d: Dash): Dash {
    if d.phase.Opened? then
      d.(posts := d.posts + [d.phase.row], phase := Posted(d.phase.plan, d.phase.index, d.phase.row))
    else d
  }

  /** Refused before anything was sent, refused by the agent, or no response came back. */
  function PostFails(d: Dash): Dash {
    if d.phase.Opened? || d.phase.Posted? then
      d.(phase := Settling(d.phase.row, NotStarted, NextTarget(d.phase.plan, d.phase.index)))
    else d
  }

  function PostAccepted(d: Dash, task: TaskId): Dash {
    if d.phase.Posted? then d.(phase := Accepted(d.phase.plan, d.phase.index, d.phase.row, task)) else d
  }

  function RecordTask(d: Dash): Dash {
    if d.phase.Accepted? && d.phase.row in d.rows then
      d.(rows := d.rows[d.phase.row := d.rows[d.phase.row].(task := Some(d.phase.task))],
         phase := Polling(d.phase.plan, d.phase.index, d.phase.row, d.phase.task))
    else d
  }

  function PollVerdict(d: Dash, verdict: Verdict): Dash {
    if d.phase.Polling? then
      d.(phase := Settling(d.phase.row, verdict, NextTarget(d.phase.plan, d.phase.index)))
    else d
  }

  function PollStops(d: Dash): Dash {
    if d.phase.Polling? && d.stopping then
      d.(phase := AtTarget(d.phase.plan, d.phase.index + 1, true))
    else d
  }

  function Commit(d: Dash): Dash {
    if d.phase.Settling? then
      Close(d, d.phase.row, VerdictStatus(d.phase.verdict)).(phase :=
        match d.phase.after
        case NextTarget(plan, i) => AtTarget(plan, i + 1, false)
        case BackToRecovery(adoptable) => Recovering([], adoptable))
    else d
  }

  // ---- one step ------------------------------------------------------------------------

  /** An event that is not enabled in the current phase changes nothing. */
  ghost function Step(d: Dash, e: Event): Dash {
    match e
    case SubmitRun(targets) => Submit(d, targets)
    case CancelQueued(run) => CancelWaiting(d, run)
    case RetireArtifact(row) => Retire(d, row)
    case RequestCancel(run) => d.(cancelled := d.cancelled + {run})
    case RequestStop => d.(stopping := true)
    case Boot(scan) => StartUp(d, scan)
    case RecoverPending => InterruptPending(d)
    case RecoverForgotten => RecoverOne(d, Some(Unknown))
    case RecoverDeferred => RecoverOne(d, None)
    case RecoverEnded(end) => RecoverOne(d, Some(Reported(end)))
    case Requeue => RequeueRuns(d)
    case Claim => ClaimNext(d)
    case LoadPlan => ReadPlan(d)
    case VisitTarget =>
      if d.phase.AtTarget? then Visit(d, d.phase.plan, d.phase.index, d.phase.skipped) else d
    case SendStart => Post(d)
    case StartFailed => PostFails(d)
    case StartAccepted(task) => PostAccepted(d, task)
    case StoreTask => RecordTask(d)
    case PollEnded(end) => PollVerdict(d, Reported(end))
    case PollGaveUp => PollVerdict(d, Unknown)
    case PollStopped => PollStops(d)
    case Settle => Commit(d)
    case Finalise =>
      if d.phase.Finalising? then FinaliseRun(d, d.phase.run, d.phase.ending) else d
    case ExecutorFails => Fail(d)
    case Crash => GoDown(d)
  }

  const NEW_DASH := Dash(map[], map[], 0, 0, Down, {}, false, [], [], map[])

  ghost function Play(d: Dash, events: seq<Event>): Dash {
    if events == [] then d else Step(Play(d, events[..|events| - 1]), events[|events| - 1])
  }
}
