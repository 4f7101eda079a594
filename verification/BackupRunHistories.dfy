/** Concrete histories of one run with one target: what the guarantees leave open does happen. */
module BackupRunHistories {
  import opened Prelude
  import opened BackupRuns
  import opened BackupRunSafety
  import opened BackupRunGuarantees

  ghost function OneRun(status: RunStatus, g: Guest): map<RunId, Run> { map[0 := Run(status, [g], 0, 0)] }

  /** Steps before anything is sent. */
  predicate Early(e: Event) { e.SubmitRun? || e.Boot? || e.Requeue? || e.Claim? || e.LoadPlan? || e.VisitTarget? }

  lemma OneTargetQueued(g: Guest) returns (events: seq<Event>)
    ensures forall e :: e in events ==> Early(e)
    ensures After(events) == Dash(OneRun(Queued, g), map[], 1, 0, Idle, {}, false, [], [], map[])
  {
    events := [];
    Next(events, SubmitRun([g])); events := events + [SubmitRun([g])];
    assert After(events) == Dash(OneRun(Queued, g), map[], 1, 0, Down, {}, false, [], [], map[]);
    Next(events, Boot([])); events := events + [Boot([])];
    assert After(events) == Dash(OneRun(Queued, g), map[], 1, 0, Recovering([], []), {}, false, [], [], map[]);
    Next(events, Requeue); events := events + [Requeue];
  }

  lemma OneTargetClaimed(g: Guest) returns (events: seq<Event>)
    ensures forall e :: e in events ==> Early(e)
    ensures After(events)
      == Dash(OneRun(Executing, g), map[], 1, 0, AtTarget(Plan(0, {}, map[]), 0, false), {}, false, [], [], map[])
  {
    events := OneTargetQueued(g);
    ClaimOnlyRun(After(events), OneRun(Executing, g));
    Next(events, Claim); events := events + [Claim];
    assert After(events) == Dash(OneRun(Executing, g), map[], 1, 0, Planning(0), {}, false, [], [], map[]);
    NoRowsNoPlan(After(events), 0);
    Next(events, LoadPlan); events := events + [LoadPlan];
  }

  lemma OneTargetOpened(g: Guest) returns (events: seq<Event>)
    ensures forall e :: e in events ==> Early(e)
    ensures After(events) == Dash(OneRun(Executing, g), map[0 := Row(0, g, Running, None)], 1, 1,
                                  Opened(Plan(0, {}, map[]), 0, 0), {}, false, [], [], map[])
  {
    events := OneTargetClaimed(g);
    Next(events, VisitTarget); events := events + [VisitTarget];
  }

  /** A run of one target, up to the row the agent confirmed. */
  lemma OneTargetConfirmed(g: Guest) returns (events: seq<Event>)
    ensures After(events) == Dash(OneRun(Executing, g), map[0 := Row(0, g, Running, Some(7))], 1, 1,
                                  Polling(Plan(0, {}, map[]), 0, 0, 7), {}, false, [0], [], map[])
  {
    events := OneTargetOpened(g);
    Next(events, SendStart); events := events + [SendStart];
    Next(events, StartAccepted(7)); events := events + [StartAccepted(7)];
    Next(events, StoreTask); events := events + [StoreTask];
  }

  lemma ClaimOnlyRun(d: Dash, busy: map<RunId, Run>)
    requires d.phase.Idle? && !d.stopping && 0 in d.runs && d.runs[0].status == Queued
    requires busy == d.runs[0 := d.runs[0].(status := Executing)] && forall id :: id in d.runs ==> id == 0
    ensures ClaimNext(d) == d.(runs := busy, phase := Planning(0))
  {
    assert IsOldestQueued(d.runs, 0);
  }

  lemma NoRowsNoPlan(d: Dash, run: RunId)
    requires d.rows == map[]
    ensures PlanFor(d, run) == Plan(run, {}, map[])
  {
    assert PlanFor(d, run).adopt.Keys == {};
  }

  /** A stop noticed while the last target is being followed finishes the run and leaves its row
      running. */
  lemma StopAtTheLastTarget(g: Guest) returns (events: seq<Event>)
    ensures var d := After(events);
      && 0 in d.runs && RunOver(d.runs[0].status) && d.endings == map[0 := StoppedAtLast]
      && 0 in d.rows && d.rows[0].run == 0 && d.rows[0].status == Running
  {
    events := OneTargetConfirmed(g);
    Next(events, RequestStop); events := events + [RequestStop];
    Next(events, PollStopped); events := events + [PollStopped];
    Next(events, VisitTarget); events := events + [VisitTarget];
    Next(events, Finalise); events := events + [Finalise];
  }

  /** So does cancelling a run that a restart put back on the queue. */
  lemma CancelledAfterRestart(g: Guest) returns (events: seq<Event>)
    ensures var d := After(events);
      && 0 in d.runs && d.runs[0].status == RunCancelled && d.endings == map[0 := CancelledWhileQueued]
      && 0 in d.rows && d.rows[0].run == 0 && d.rows[0].status == Running
  {
    events := OneTargetRestarted(g);
    Next(events, RecoverDeferred); events := events + [RecoverDeferred];
    Next(events, Requeue); events := events + [Requeue];
    Next(events, CancelQueued(0)); events := events + [CancelQueued(0)];
  }

  /** The same run after a crash and a restart that found its row confirmed. */
  lemma OneTargetRestarted(g: Guest) returns (events: seq<Event>)
    ensures After(events) == Dash(OneRun(Executing, g), map[0 := Row(0, g, Running, Some(7))], 1, 1,
                                  Recovering([], [0]), {}, false, [0], [], map[])
  {
    events := OneTargetConfirmed(g);
    Next(events, Crash); events := events + [Crash];
    var rows := map[0 := Row(0, g, Running, Some(7))];
    assert After(events) == Dash(OneRun(Executing, g), rows, 1, 1, Down, {}, false, [0], [], map[]);
    assert ScanResult(rows, [0]);
    assert Unconfirmed(rows, [0]) == [] && Confirmed(rows, [0]) == [0];
    Next(events, Boot([0])); events := events + [Boot([0])];
  }

  lemma OneTargetAskedEarly(g: Guest) returns (events: seq<Event>)
    ensures After(events) == Dash(OneRun(Executing, g), map[], 1, 0, Planning(0), {0}, false, [], [], map[])
    ensures RequestCancel(0) in events
  {
    events := OneTargetQueued(g);
    ClaimOnlyRun(After(events), OneRun(Executing, g));
    Next(events, Claim); events := events + [Claim];
    Next(events, RequestCancel(0)); events := events + [RequestCancel(0)];
  }

  /** The same run, cancelled too early, with its plan loaded and a row opened. */
  lemma OneTargetOpenedAnyway(g: Guest) returns (events: seq<Event>)
    ensures After(events) == Dash(OneRun(Executing, g), map[0 := Row(0, g, Running, None)], 1, 1,
                                  Opened(Plan(0, {}, map[]), 0, 0), {}, false, [], [], map[])
    ensures RequestCancel(0) in events
  {
    events := OneTargetAskedEarly(g);
    NoRowsNoPlan(After(events), 0);
    Next(events, LoadPlan); events := events + [LoadPlan];
    assert After(events)
        == Dash(OneRun(Executing, g), map[], 1, 0, AtTarget(Plan(0, {}, map[]), 0, false), {}, false, [], [], map[]);
    Next(events, VisitTarget); events := events + [VisitTarget];
  }

  lemma OneTargetDone(g: Guest) returns (events: seq<Event>)
    ensures After(events) == Dash(OneRun(Executing, g), map[0 := Row(0, g, Running, Some(7))], 1, 1,
                                  Settling(0, Reported(EndSuccess), NextTarget(Plan(0, {}, map[]), 0)),
                                  {}, false, [0], [], map[])
    ensures RequestCancel(0) in events
  {
    events := OneTargetOpenedAnyway(g);
    Next(events, SendStart); events := events + [SendStart];
    Next(events, StartAccepted(7)); events := events + [StartAccepted(7)];
    Next(events, StoreTask); events := events + [StoreTask];
    Next(events, PollEnded(EndSuccess)); events := events + [PollEnded(EndSuccess)];
  }

  /** A cancellation that comes before the plan is loaded, and a run that ends as a success. */
  lemma CancelledTooEarly(g: Guest) returns (events: seq<Event>)
    ensures RequestCancel(0) in events
    ensures var d := After(events); 0 in d.runs && d.runs[0].status == RunSuccess && d.runs[0].targets == [g]
  {
    events := OneTargetDone(g);
    Next(events, Settle); events := events + [Settle];
    Next(events, VisitTarget); events := events + [VisitTarget];
    var d := After(events);
    assert d.rows == map[0 := Row(0, g, Success, Some(7))];
    assert RowsWith(d.rows, 0, Success) == {0} && RowsWith(d.rows, 0, Cancelled) == {} && RowsOf(d.rows, 0) == {0};
    Next(events, Finalise); events := events + [Finalise];
  }
}
