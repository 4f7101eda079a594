/** How runs end: when exactly a finished run still has a running row, and when exactly a request to
    cancel a run counts. */
module BackupRunEndings {
  import opened Prelude
  import opened BackupRuns
  import opened BackupRunSafety
  import opened BackupRunGuarantees

  // ---- finished runs with a running row ------------------------------------------------

  /** A row of the run is still running. */
  ghost predicate HasRunning(rows: map<RowId, Row>, run: RunId) {
    exists r :: r in rows && rows[r].run == run && rows[r].status == Running
  }

  /** The plan would adopt a row for a target from the `i`-th on. */
  ghost predicate Adopts(plan: Plan, targets: seq<Guest>, i: nat) {
    exists j :: i <= j < |targets| && targets[j] in plan.adopt
  }

  /** The executor is in the middle of its run: a stop made it leave the last target behind, it has
      a row in hand, or it has yet to come to a target whose row it would adopt. */
  ghost predicate Unsettled(d: Dash) {
    match d.phase
    case Planning(run) => run in d.runs && Adopts(PlanFor(d, run), d.runs[run].targets, 0)
    case AtTarget(plan, i, skipped) => skipped || (plan.run in d.runs && Adopts(plan, d.runs[plan.run].targets, i))
    case Finalising(_, _) => false
    case p => ActiveRun(p).Some?
  }

  /** At work on a run that it has not begun to finish. */
  ghost predicate AtWork(p: Phase) { ActiveRun(p).Some? && !p.Finalising? }

  lemma PlanNamesRow(d: Dash, run: RunId, r: RowId)
    requires OneRowPerGuest(d.rows) && r in d.rows && d.rows[r].run == run && d.rows[r].status == Running
    ensures d.rows[r].guest in PlanFor(d, run).adopt
  {
    assert r in RowsOf(d.rows, run);
  }

  lemma PlanAdoptsIff(d: Dash, run: RunId)
    requires RowsOk(d.runs, d.rows, d.nextRow) && OneRowPerGuest(d.rows) && run in d.runs
    ensures HasRunning(d.rows, run) <==> Adopts(PlanFor(d, run), d.runs[run].targets, 0)
  {
    var targets := d.runs[run].targets;
    if HasRunning(d.rows, run) {
      var r :| r in d.rows && d.rows[r].run == run && d.rows[r].status == Running;
      PlanNamesRow(d, run, r);
      var j :| 0 <= j < |targets| && targets[j] == d.rows[r].guest;
      assert targets[j] in PlanFor(d, run).adopt;
    }
    if Adopts(PlanFor(d, run), targets, 0) {
      var j :| 0 <= j < |targets| && targets[j] in PlanFor(d, run).adopt;
      var r :| r in RowsOf(d.rows, run) && d.rows[r].status == Running && d.rows[r].guest == targets[j];
    }
  }

  lemma TargetUnsettled(todo: seq<Guest>, rows: map<RowId, Row>, plan: Plan, i: nat, skipped: bool)
    requires Distinct(todo) && OneRowPerGuest(rows) && Progress(todo, rows, AtTarget(plan, i, skipped))
    requires forall r :: r in rows && rows[r].run == plan.run ==> rows[r].guest in todo
    ensures HasRunning(rows, plan.run) <==> skipped || Adopts(plan, todo, i)
  {
    if HasRunning(rows, plan.run) && !skipped {
      var r :| r in rows && rows[r].run == plan.run && rows[r].status == Running;
      RunningIsAhead(todo, rows, plan, i, r);
    }
    if Adopts(plan, todo, i) {
      var j :| i <= j < |todo| && todo[j] in plan.adopt;
      assert todo[j] !in todo[..i];
      assert AdoptOk(rows, plan, todo[j], false);
    }
  }

  lemma RunningIsAhead(todo: seq<Guest>, rows: map<RowId, Row>, plan: Plan, i: nat, r: RowId)
    requires OneRowPerGuest(rows) && PlanOk(todo, rows, plan, i) && DoneUpTo(todo, rows, plan.run, i, false)
    requires r in rows && rows[r].run == plan.run && rows[r].status == Running && rows[r].guest in todo
    ensures Adopts(plan, todo, i)
  {
    var j :| 0 <= j < |todo| && todo[j] == rows[r].guest;
    assert !HasTerminal(rows, plan.run, rows[r].guest);
    assert j >= i;
    assert forall k :: 0 <= k < i ==> todo[..i][k] == todo[k];
    assert todo[j] in plan.adopt;
  }

  /** While the executor is at work on a run, that run has a running row exactly if it is in the
      middle of it. */
  lemma UnsettledIff(d: Dash)
    requires Inv(d) && AtWork(d.phase)
    ensures HasRunning(d.rows, ActiveRun(d.phase).value) <==> Unsettled(d)
  {
    match d.phase
    case Planning(run) => PlanAdoptsIff(d, run);
    case AtTarget(plan, i, skipped) => TargetUnsettled(Todo(d.runs, d.phase), d.rows, plan, i, skipped);
    case Opened(plan, i, row) =>
    case Posted(plan, i, row) =>
    case Accepted(plan, i, row, task) =>
    case Polling(plan, i, row, task) =>
    case Settling(row, verdict, after) =>
  }

  ghost predicate BeginsWell(d: Dash, n: Dash) {
    n.phase.Finalising? ==>
      if d.phase.Finalising? then n.phase.run == d.phase.run
      else AtWork(d.phase) && n.phase.run == ActiveRun(d.phase).value && n.rows == d.rows
  }

  lemma OutsideBegins(d: Dash, e: Event)
    requires FromOutside(e) || InStartUp(e)
    ensures BeginsWell(d, Step(d, e))
  {
  }

  lemma WorkBegins(d: Dash, e: Event)
    requires !FromOutside(e) && !InStartUp(e)
    ensures BeginsWell(d, Step(d, e))
  {
  }

  /** A run begins to finish only where it was being worked on, and that changes no row. */
  lemma FinishBegins(d: Dash, e: Event)
    requires Step(d, e).phase.Finalising?
    ensures var n := Step(d, e);
      if d.phase.Finalising? then n.phase.run == d.phase.run
      else AtWork(d.phase) && n.phase.run == ActiveRun(d.phase).value && n.rows == d.rows
  {
    if FromOutside(e) || InStartUp(e) { OutsideBegins(d, e); } else { WorkBegins(d, e); }
  }

  /** Nobody closes a running row of a run that is waiting to be finished, or adds one. */
  lemma FinishWaits(d: Dash, e: Event, run: RunId)
    requires d.phase.Finalising?
    ensures HasRunning(Step(d, e).rows, run) <==> HasRunning(d.rows, run)
  {
    var n := Step(d, e);
    if r :| r in d.rows && d.rows[r].run == run && d.rows[r].status == Running {
      assert r in n.rows && n.rows[r] == d.rows[r];
    }
    if r :| r in n.rows && n.rows[r].run == run && n.rows[r].status == Running {
      assert r in d.rows && d.rows[r] == n.rows[r];
    }
  }

  /** From the moment after `n` events on, the executor has only been finishing this run. */
  ghost predicate FinishingSince(events: seq<Event>, n: nat, run: RunId) {
    forall k :: n < k <= |events| ==> Finishes(After(events[..k]).phase, run)
  }

  ghost predicate Finishes(p: Phase, run: RunId) { p.Finalising? && p.run == run }

  /** The executor finishes a run above a running row exactly if it was in the middle of it when it
      last was at work on it. That was after `n` events. */
  lemma {:induction false} FinishedAboveRunningIff(events: seq<Event>) returns (n: nat)
    requires After(events).phase.Finalising?
    ensures n < |events| && AtWork(After(events[..n]).phase)
    ensures var run := After(events).phase.run; var done := After(events + [Finalise]);
      && ActiveRun(After(events[..n]).phase) == Some(run) && FinishingSince(events, n, run)
      && run in done.runs && RunOver(done.runs[run].status)
      && (HasRunning(done.rows, run) <==> Unsettled(After(events[..n])))
  {
    n := WorkedLast(events);
    Next(events, Finalise);
    FinishEnds(events);
  }

  lemma FinishEnds(events: seq<Event>)
    requires After(events).phase.Finalising?
    ensures var run := After(events).phase.run; var done := Step(After(events), Finalise);
      && run in done.runs && RunOver(done.runs[run].status)
      && (HasRunning(done.rows, run) <==> HasRunning(After(events).rows, run))
  {
    Reachable(events);
    FinishWaits(After(events), Finalise, After(events).phase.run);
  }

  lemma {:induction false} WorkedLast(events: seq<Event>) returns (n: nat)
    requires After(events).phase.Finalising?
    ensures n < |events| && AtWork(After(events[..n]).phase)
    ensures var run := After(events).phase.run;
      && ActiveRun(After(events[..n]).phase) == Some(run) && FinishingSince(events, n, run)
      && (HasRunning(After(events).rows, run) <==> Unsettled(After(events[..n])))
  {
    var last := |events| - 1;
    FinishBegins(After(events[..last]), events[last]);
    if After(events[..last]).phase.Finalising? {
      n := WorkedLast(events[..last]);
      FinishWaits(After(events[..last]), events[last], After(events).phase.run);
      assert events[..last][..n] == events[..n];
      StillFinishing(events, n, After(events).phase.run);
    } else {
      n := last;
      Reachable(events[..last]);
      UnsettledIff(After(events[..last]));
      assert events[..|events|] == events;
    }
  }

  lemma {:induction false} StillFinishing(events: seq<Event>, n: nat, run: RunId)
    requires events != [] && FinishingSince(events[..|events| - 1], n, run) && Finishes(After(events).phase, run)
    ensures FinishingSince(events, n, run)
  {
    forall k | n < k <= |events| ensures Finishes(After(events[..k]).phase, run) {
      if k < |events| { assert events[..|events| - 1][..k] == events[..k]; } else { assert events[..k] == events; }
    }
  }

  /** A run withdrawn from the queue is finished above a running row exactly if its plan would have
      adopted one; and every such row is one whose task the agent confirmed. */
  lemma WithdrawnAboveRunningIff(events: seq<Event>, run: RunId)
    requires run in After(events).runs && After(events).runs[run].status == Queued
    ensures var d := After(events); var done := After(events + [CancelQueued(run)]);
      && run in done.runs && done.runs[run].status == RunCancelled
      && (HasRunning(done.rows, run) <==> Adopts(PlanFor(d, run), d.runs[run].targets, 0))
      && forall r :: r in done.rows && done.rows[r].run == run && done.rows[r].status == Running ==>
        done.rows[r].task.Some?
  {
    Reachable(events);
    Next(events, CancelQueued(run));
    var d := After(events);
    PlanAdoptsIff(d, run);
    forall r | r in d.rows && d.rows[r].run == run && d.rows[r].status == Running ensures d.rows[r].task.Some? {
      assert !IsUnconfirmed(d.rows, r);
    }
  }

  /** There is no third way for a run to be over. */
  lemma FinishedOrWithdrawn(events: seq<Event>, e: Event, run: RunId)
    requires run in After(events).runs && !RunOver(After(events).runs[run].status)
    requires run in After(events + [e]).runs && RunOver(After(events + [e]).runs[run].status)
    ensures var d := After(events);
      || (e == Finalise && d.phase.Finalising? && d.phase.run == run)
      || (e == CancelQueued(run) && d.runs[run].status == Queued)
  {
    Reachable(events);
    Next(events, e);
    OverOnlyBy(After(events), e, run);
  }

  lemma OverOnlyBy(d: Dash, e: Event, run: RunId)
    requires RunsOk(d.runs, d.nextRun) && run in d.runs && !RunOver(d.runs[run].status)
    requires run in Step(d, e).runs && RunOver(Step(d, e).runs[run].status)
    ensures (e == Finalise && d.phase.Finalising? && d.phase.run == run)
      || (e == CancelQueued(run) && d.runs[run].status == Queued)
  {
  }

  /** A running row under a finished run stays there only if that run did not come to the end of
      its targets. */
  lemma FinishedRunsAreSettled(events: seq<Event>, row: RowId)
    requires row in After(events).rows && After(events).rows[row].status == Running
    ensures var d := After(events); var run := d.rows[row].run;
      && run in d.runs
      && (RunOver(d.runs[run].status) ==> run in d.endings && d.endings[run] != Completed)
  {
    Reachable(events);
    var d := After(events);
    if d.rows[row].run in d.endings && d.endings[d.rows[row].run] == Completed {
      CompletedRowsAreTerminal(d, row);
    }
  }

  lemma CompletedRowsAreTerminal(d: Dash, row: RowId)
    requires Inv(d) && row in d.rows && d.rows[row].run in d.runs
    requires AllTerminal(d.rows, d.rows[row].run, d.runs[d.rows[row].run].targets)
    ensures Terminal(d.rows[row].status)
  {
    var todo := d.runs[d.rows[row].run].targets;
    var j :| 0 <= j < |todo| && todo[j] == d.rows[row].guest;
    assert HasTerminal(d.rows, d.rows[row].run, todo[j]);
  }

  // ---- cancelling a run ----------------------------------------------------------------

  /** The run's plan is loaded, and somebody asked for its cancellation. */
  ghost predicate Cancelling(d: Dash, run: RunId) {
    && run in d.runs && d.runs[run].status == Executing && run in d.cancelled
    && ActiveRun(d.phase) == Some(run) && !d.phase.Planning?
  }

  ghost predicate EndedCancelled(d: Dash, run: RunId) { run in d.runs && d.runs[run].status == RunCancelled }

  ghost predicate OnItsWay(d: Dash, run: RunId) { Cancelling(d, run) || EndedCancelled(d, run) }

  lemma OutsideCancelling(d: Dash, e: Event, run: RunId)
    requires Cancelling(d, run) && RunsOk(d.runs, d.nextRun) && (FromOutside(e) || InStartUp(e))
    ensures OnItsWay(Step(d, e), run) || Step(d, e).phase.Down?
  {
  }

  lemma WorkCancelling(d: Dash, e: Event, run: RunId)
    requires Cancelling(d, run) && RunsOk(d.runs, d.nextRun) && !FromOutside(e) && !InStartUp(e)
    ensures OnItsWay(Step(d, e), run) || Step(d, e).phase.Down?
  {
  }

  lemma OutsideEnded(d: Dash, e: Event, run: RunId)
    requires EndedCancelled(d, run) && RunsOk(d.runs, d.nextRun) && (FromOutside(e) || InStartUp(e))
    ensures EndedCancelled(Step(d, e), run)
  {
  }

  lemma WorkEnded(d: Dash, e: Event, run: RunId)
    requires EndedCancelled(d, run) && Scheduling(d.runs, d.phase) && !FromOutside(e) && !InStartUp(e)
    ensures EndedCancelled(Step(d, e), run)
  {
  }

  lemma OnItsWayStays(d: Dash, e: Event, run: RunId)
    requires OnItsWay(d, run) && RunsOk(d.runs, d.nextRun) && Scheduling(d.runs, d.phase)
    ensures OnItsWay(Step(d, e), run) || Step(d, e).phase.Down?
  {
    if FromOutside(e) || InStartUp(e) {
      if Cancelling(d, run) { OutsideCancelling(d, e, run); } else { OutsideEnded(d, e, run); }
    } else {
      if Cancelling(d, run) { WorkCancelling(d, e, run); } else { WorkEnded(d, e, run); }
    }
  }

  /** A cancellation asked for once the plan is loaded is honoured: whatever happens next, short of
      the process going down, the run is on its way to its end or has ended as cancelled. */
  lemma {:induction false} CancelIsHonoured(before: seq<Event>, after: seq<Event>, run: RunId)
    requires ActiveRun(After(before).phase) == Some(run) && !After(before).phase.Planning?
    requires forall k :: 0 <= k <= |after| ==> !After(before + [RequestCancel(run)] + after[..k]).phase.Down?
    ensures var d := After(before + [RequestCancel(run)] + after);
      && OnItsWay(d, run)
      && (run in d.runs && RunOver(d.runs[run].status) ==> d.runs[run].status == RunCancelled)
  {
    var asked := before + [RequestCancel(run)];
    if after == [] {
      Reachable(before);
      Next(before, RequestCancel(run));
      assert asked + [] == asked;
    } else {
      var n := |after| - 1;
      forall k | 0 <= k <= n ensures !After(asked + after[..n][..k]).phase.Down? {
        assert after[..n][..k] == after[..k];
      }
      CancelIsHonoured(before, after[..n], run);
      var d := After(asked + after[..n]);
      Reachable(asked + after[..n]);
      Next(asked + after[..n], after[n]);
      assert asked + after[..n] + [after[n]] == asked + after == asked + after[..|after|];
      OnItsWayStays(d, after[n], run);
    }
  }

  /** The same but for a request to cancel this run. */
  ghost predicate Twins(d: Dash, c: Dash, run: RunId) {
    c == d || c == d.(cancelled := d.cancelled + {run})
  }

  /** Nobody has loaded the run's plan. */
  ghost predicate NotLoaded(p: Phase, run: RunId) { ActiveRun(p) == Some(run) ==> p.Planning? }

  ghost predicate StaysUnloaded(before: seq<Event>, between: seq<Event>, run: RunId) {
    forall k :: 0 <= k <= |between| ==> NotLoaded(After(before + between[..k]).phase, run)
  }

  lemma {:induction false} UnloadedBefore(before: seq<Event>, between: seq<Event>, run: RunId)
    requires StaysUnloaded(before, between, run) && between != []
    ensures StaysUnloaded(before, between[..|between| - 1], run)
    ensures NotLoaded(After(before + between[..|between| - 1]).phase, run)
  {
    var front := between[..|between| - 1];
    forall k | 0 <= k <= |front| ensures NotLoaded(After(before + front[..k]).phase, run) {
      assert front[..k] == between[..k];
    }
  }

  lemma SamePlan(d: Dash, c: Dash, run: RunId)
    requires d.rows == c.rows && OneRowPerGuest(d.rows)
    ensures PlanFor(d, run) == PlanFor(c, run)
  {
    var p, q := PlanFor(d, run), PlanFor(c, run);
    assert p.adopt.Keys == q.adopt.Keys;
    forall g | g in p.adopt ensures p.adopt[g] == q.adopt[g] {}
  }

  lemma SameClaim(d: Dash, c: Dash, run: RunId)
    requires Twins(d, c, run)
    ensures Twins(ClaimNext(d), ClaimNext(c), run)
  {
    if d.phase.Idle? && !d.stopping && exists id :: IsOldestQueued(d.runs, id) {
      var id :| IsOldestQueued(d.runs, id);
      assert forall other :: IsOldestQueued(d.runs, other) ==> other == id;
    }
  }

  lemma SameRead(d: Dash, c: Dash, run: RunId)
    requires Twins(d, c, run) && OneRowPerGuest(d.rows)
    ensures Twins(ReadPlan(d), ReadPlan(c), run)
    ensures d.phase == Planning(run) ==> ReadPlan(d) == ReadPlan(c)
  {
    if d.phase.Planning? {
      SamePlan(d, c, d.phase.run);
      var own := {d.phase.run};
      if d.phase.run == run {
        assert d.cancelled + {run} - own == d.cancelled - own;
      } else {
        assert d.cancelled + {run} - own == d.cancelled - own + {run};
      }
    }
  }

  lemma SameFinish(d: Dash, c: Dash, run: RunId)
    requires Twins(d, c, run) && d.phase.Finalising? && d.phase.run != run
    ensures Twins(FinaliseRun(d, d.phase.run, d.phase.ending), FinaliseRun(c, d.phase.run, d.phase.ending), run)
  {
    assert d.cancelled + {run} - {d.phase.run} == d.cancelled - {d.phase.run} + {run};
  }

  lemma SameRequest(d: Dash, c: Dash, run: RunId, other: RunId)
    requires Twins(d, c, run)
    ensures Twins(Step(d, RequestCancel(other)), Step(c, RequestCancel(other)), run)
  {
    assert d.cancelled + {run} + {other} == d.cancelled + {other} + {run};
  }

  lemma SameVisit(d: Dash, c: Dash, run: RunId)
    requires Twins(d, c, run) && d.phase.AtTarget? && d.phase.plan.run != run
    ensures Twins(Step(d, VisitTarget), Step(c, VisitTarget), run)
  {
  }

  lemma SameFailure(d: Dash, c: Dash, run: RunId)
    requires Twins(d, c, run)
    ensures Twins(Fail(d), Fail(c), run)
  {
  }

  lemma SameStartUp(d: Dash, c: Dash, e: Event, run: RunId)
    requires Twins(d, c, run) && InStartUp(e)
    ensures Twins(Step(d, e), Step(c, e), run)
  {
  }

  lemma SameOutside(d: Dash, c: Dash, e: Event, run: RunId)
    requires Twins(d, c, run) && (e.SubmitRun? || e.CancelQueued? || e.RetireArtifact? || e.RequestStop? || e.Crash?)
    ensures Twins(Step(d, e), Step(c, e), run)
  {
  }

  lemma SameStart(d: Dash, c: Dash, e: Event, run: RunId)
    requires Twins(d, c, run) && (e.SendStart? || e.StartFailed? || e.StartAccepted? || e.StoreTask?)
    ensures Twins(Step(d, e), Step(c, e), run)
  {
  }

  lemma SamePoll(d: Dash, c: Dash, e: Event, run: RunId)
    requires Twins(d, c, run) && (e.PollEnded? || e.PollGaveUp? || e.PollStopped? || e.Settle?)
    ensures Twins(Step(d, e), Step(c, e), run)
  {
  }

  lemma TwinsStep(d: Dash, c: Dash, e: Event, run: RunId)
    requires Twins(d, c, run) && OneRowPerGuest(d.rows) && NotLoaded(d.phase, run)
    ensures Twins(Step(d, e), Step(c, e), run)
  {
    match e
    case Claim => SameClaim(d, c, run);
    case LoadPlan => SameRead(d, c, run);
    case Finalise => if d.phase.Finalising? { SameFinish(d, c, run); }
    case RequestCancel(other) => SameRequest(d, c, run, other);
    case VisitTarget => if d.phase.AtTarget? { SameVisit(d, c, run); }
    case ExecutorFails => SameFailure(d, c, run);
    case _ =>
      if InStartUp(e) { SameStartUp(d, c, e, run); }
      else if FromOutside(e) { SameOutside(d, c, e, run); }
      else if e.SendStart? || e.StartFailed? || e.StartAccepted? || e.StoreTask? { SameStart(d, c, e, run); }
      else { SamePoll(d, c, e, run); }
  }

  /** One asked for earlier is forgotten: from the moment the plan is loaded, everything is as if
      nobody had asked. */
  lemma {:induction false} EarlyCancelIsForgotten(before: seq<Event>, between: seq<Event>, run: RunId)
    requires StaysUnloaded(before, between, run) && After(before + between).phase == Planning(run)
    ensures After(before + [RequestCancel(run)] + between + [LoadPlan]) == After(before + between + [LoadPlan])
  {
    StayTwins(before, between, run);
    var asked := before + [RequestCancel(run)];
    Next(asked + between, LoadPlan);
    Next(before + between, LoadPlan);
    Reachable(before + between);
    SameRead(After(before + between), After(asked + between), run);
  }

  lemma {:induction false} StayTwins(before: seq<Event>, between: seq<Event>, run: RunId)
    requires StaysUnloaded(before, between, run)
    ensures Twins(After(before + between), After(before + [RequestCancel(run)] + between), run)
  {
    var asked := before + [RequestCancel(run)];
    if between == [] {
      Next(before, RequestCancel(run));
      assert before + [] == before && asked + [] == asked;
    } else {
      var n := |between| - 1;
      UnloadedBefore(before, between, run);
      StayTwins(before, between[..n], run);
      Reachable(before + between[..n]);
      Next(before + between[..n], between[n]);
      Next(asked + between[..n], between[n]);
      assert before + between[..n] + [between[n]] == before + between;
      assert asked + between[..n] + [between[n]] == asked + between;
      TwinsStep(After(before + between[..n]), After(asked + between[..n]), between[n], run);
    }
  }
}
