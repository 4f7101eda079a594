/** What each step of the run executor does to a run and to a row: exactly which steps change them,
    and into what. */
module BackupRunSteps {
  import opened Prelude
  import opened BackupRuns
  import opened BackupRunSafety
  import opened BackupRunGuarantees

  // ---- runs ----------------------------------------------------------------------------

  /** A run appears only by being submitted with distinct targets; it is queued, and nothing is counted
      yet. */
  lemma RunSubmitted(d: Dash, e: Event, id: RunId)
    requires id !in d.runs
    ensures id in Step(d, e).runs <==> e.SubmitRun? && Distinct(e.targets) && id == d.nextRun
    ensures id in Step(d, e).runs ==> Step(d, e).runs[id] == Run(Queued, e.targets, 0, 0)
  {
    match e
    case RecoverPending => InterruptTouches(d);
    case Settle => SettleTouches(d);
    case _ =>
  }

  lemma InterruptTouches(d: Dash)
    ensures Step(d, RecoverPending).runs.Keys == d.runs.Keys
    ensures forall id :: id in d.runs ==> Step(d, RecoverPending).runs[id].status == d.runs[id].status
  {
  }

  lemma SettleTouches(d: Dash)
    ensures Step(d, Settle).runs.Keys == d.runs.Keys
    ensures forall id :: id in d.runs ==> Step(d, Settle).runs[id].status == d.runs[id].status
  {
  }

  /** A queued run starts exactly when the idle executor takes the oldest of them, and is withdrawn
      exactly by being cancelled. */
  lemma QueuedLeaves(d: Dash, e: Event, id: RunId)
    requires id in d.runs && d.runs[id].status == Queued
    requires d.phase.Finalising? ==> d.phase.run != id
    ensures id in Step(d, e).runs
    ensures Step(d, e).runs[id].status == Executing <==>
      && e.Claim? && d.phase.Idle? && !d.stopping
      && forall other :: other in d.runs && d.runs[other].status == Queued ==> id <= other
    ensures Step(d, e).runs[id].status == RunCancelled <==> e == CancelQueued(id)
    ensures Step(d, e).runs[id].status in {Queued, Executing, RunCancelled}
  {
    match e
    case RecoverPending => InterruptTouches(d);
    case Settle => SettleTouches(d);
    case Claim => ClaimLeaves(d, id);
    case _ =>
  }

  lemma ClaimLeaves(d: Dash, id: RunId)
    requires id in d.runs && d.runs[id].status == Queued
    ensures id in Step(d, Claim).runs
    ensures Step(d, Claim).runs[id].status == if d.phase.Idle? && !d.stopping && IsOldestQueued(d.runs, id)
                                              then Executing else Queued
  {
    if exists run :: IsOldestQueued(d.runs, run) {
      forall a, b | IsOldestQueued(d.runs, a) && IsOldestQueued(d.runs, b) ensures a == b {}
    }
  }

  /** A run in execution is queued again exactly when recovery is through, and ends exactly when it is
      finalised. */
  lemma ExecutingLeaves(d: Dash, e: Event, id: RunId)
    requires id in d.runs && d.runs[id].status == Executing && d.nextRun !in d.runs
    ensures id in Step(d, e).runs
    ensures Step(d, e).runs[id].status == Queued <==> e.Requeue? && d.phase == Recovering([], [])
    ensures RunOver(Step(d, e).runs[id].status) <==> e.Finalise? && d.phase.Finalising? && d.phase.run == id
  {
    match e
    case RecoverPending => InterruptTouches(d);
    case Settle => SettleTouches(d);
    case _ =>
  }

  /** A run that is over stays so, and what it ended as. */
  lemma OverStays(d: Dash, e: Event, id: RunId)
    requires id in d.runs && RunOver(d.runs[id].status) && d.nextRun !in d.runs
    requires d.phase.Finalising? ==> d.phase.run != id
    ensures id in Step(d, e).runs && Step(d, e).runs[id].status == d.runs[id].status
  {
    match e
    case RecoverPending => InterruptTouches(d);
    case Settle => SettleTouches(d);
    case _ =>
  }

  /** A cancellation is noted exactly by asking for it. */
  lemma CancelAskedIff(d: Dash, e: Event, id: RunId)
    requires id !in d.cancelled
    ensures id in Step(d, e).cancelled <==> e == RequestCancel(id)
  {
  }

  /** It is forgotten exactly when the run's plan is loaded, when the run ends, at a start, and with the
      process. */
  lemma CancelForgottenIff(d: Dash, e: Event, id: RunId)
    requires id in d.cancelled
    ensures Step(d, e).phase != Down ==>
      (id !in Step(d, e).cancelled <==>
        || (e.LoadPlan? && d.phase == Planning(id))
        || (e.Finalise? && d.phase.Finalising? && d.phase.run == id && id in d.runs)
        || (e.Boot? && d.phase == Down))
    ensures Step(d, e).phase == Down && d.phase != Down ==> Step(d, e).cancelled == {}
  {
    if !Forgetting(e) { OthersForgetNothing(d, e); }
  }

  predicate Forgetting(e: Event) {
    e.Boot? || e.Claim? || e.LoadPlan? || e.VisitTarget? || e.Finalise? || e.ExecutorFails? || e.Crash?
  }

  lemma OthersForgetNothing(d: Dash, e: Event)
    requires !Forgetting(e)
    ensures d.cancelled <= Step(d, e).cancelled && (Step(d, e).phase == Down ==> d.phase == Down)
  {
  }

  // ---- rows ----------------------------------------------------------------------------

  /** A row appears only at a target that is neither done nor to be adopted, running and without a task. */
  lemma RowOpened(d: Dash, e: Event, r: RowId)
    requires r !in d.rows
    ensures r in Step(d, e).rows <==>
      && e.VisitTarget? && d.phase.AtTarget? && r == d.nextRow && !d.stopping
      && d.phase.plan.run in d.runs && d.phase.plan.run !in d.cancelled
      && d.phase.index < |d.runs[d.phase.plan.run].targets|
      && var g := d.runs[d.phase.plan.run].targets[d.phase.index];
         g !in d.phase.plan.done && !(g in d.phase.plan.adopt && d.phase.plan.adopt[g] in d.rows)
    ensures r in Step(d, e).rows ==>
      Step(d, e).rows[r] == Row(d.phase.plan.run, d.runs[d.phase.plan.run].targets[d.phase.index], Running, None)
  {
    if !Writes(e) { OthersDoNotWrite(d, e); }
  }

  /** A running row is closed in two ways: as interrupted, when recovery finds that no task was ever
      confirmed for it; and as the verdict says that the worker holds for it. */
  lemma RowClosedIff(d: Dash, e: Event, r: RowId, s: RowStatus)
    requires r in d.rows && d.rows[r].status == Running && s != Running && d.nextRow !in d.rows
    ensures r in Step(d, e).rows
    ensures Step(d, e).rows[r].status == s <==>
      || (e.RecoverPending? && d.phase.Recovering? && d.phase.pending != [] && d.phase.pending[0] == r
          && s == Interrupted)
      || (e.Settle? && d.phase.Settling? && d.phase.row == r
          && match d.phase.verdict
             case Reported(EndSuccess) => s == Success
             case Reported(EndFailed) => s == Failed
             case Reported(EndCancelled) => s == Cancelled
             case Reported(EndInterrupted) => s == Interrupted
             case Unknown => s == Interrupted
             case NotStarted => s == Failed)
  {
    if !e.RecoverPending? && !e.Settle? { OthersCloseNothing(d, e, r); }
  }

  lemma OthersCloseNothing(d: Dash, e: Event, r: RowId)
    requires !e.RecoverPending? && !e.Settle?
    requires r in d.rows && d.rows[r].status == Running && d.nextRow !in d.rows
    ensures r in Step(d, e).rows && Step(d, e).rows[r].status == Running
  {
  }

  /** A success is retired exactly by whoever retires it; no step takes a row away. */
  lemma RetiredIff(d: Dash, e: Event, r: RowId)
    requires r in d.rows && d.rows[r].status == Success && d.nextRow !in d.rows
    ensures r in Step(d, e).rows && (Step(d, e).rows[r].status == Deleted <==> e == RetireArtifact(r))
  {
    if !Writes(e) { OthersDoNotWrite(d, e); }
  }

  /** A task is stored exactly when it is the one accepted for the row. */
  lemma TaskStoredIff(d: Dash, e: Event, r: RowId, task: TaskId)
    requires r in d.rows && d.rows[r].task.None? && d.nextRow !in d.rows
    ensures r in Step(d, e).rows
    ensures Step(d, e).rows[r].task == Some(task) <==>
      e.StoreTask? && d.phase.Accepted? && d.phase.row == r && d.phase.task == task
  {
    if !Writes(e) { OthersDoNotWrite(d, e); }
  }

  /** A start request leaves exactly from an opened row, for that row. */
  lemma PostedIff(d: Dash, e: Event)
    ensures Step(d, e).posts == if e.SendStart? && d.phase.Opened? then d.posts + [d.phase.row] else d.posts
  {
  }

  // ---- verdicts ------------------------------------------------------------------------

  /** The worker's verdict on the row it follows is what it heard: the reported end, or that nothing was
      heard for too long; on the row it opened, that it could not start it. */
  lemma VerdictIff(d: Dash, e: Event, v: Verdict)
    requires d.phase.Polling? || d.phase.Opened? || d.phase.Posted?
    ensures Step(d, e).phase == Settling(d.phase.row, v, NextTarget(d.phase.plan, d.phase.index)) <==>
      match v
      case Reported(end) => d.phase.Polling? && e == PollEnded(end)
      case Unknown => d.phase.Polling? && e == PollGaveUp
      case NotStarted => !d.phase.Polling? && e == StartFailed
  {
  }

  /** In recovery it is what the agent says of the next confirmed row: how its task ended, or that it
      knows no such task; a task that runs, or an agent that does not answer, leaves the row alone. */
  lemma RecoveryVerdictIff(d: Dash, e: Event, v: Verdict)
    requires d.phase.Recovering? && d.phase.pending == [] && d.phase.adoptable != []
    ensures Step(d, e).phase == Settling(d.phase.adoptable[0], v, BackToRecovery(d.phase.adoptable[1..])) <==>
      match v
      case Reported(end) => e == RecoverEnded(end)
      case Unknown => e == RecoverForgotten
      case NotStarted => false
    ensures e == RecoverDeferred ==> Step(d, e) == d.(phase := Recovering([], d.phase.adoptable[1..]))
  {
  }
}
