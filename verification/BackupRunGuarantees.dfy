/** What an operator may rely on after any history of submissions, cancellations, stops,
    crashes, restarts and agent answers. */
module BackupRunGuarantees {
  import opened Prelude
  import opened BackupRuns
  import opened BackupRunSafety

  ghost function After(events: seq<Event>): Dash { Play(NEW_DASH, events) }

  lemma Reachable(events: seq<Event>)
    ensures Inv(After(events))
  {
    StartIsFine();
    PlayKeeps(NEW_DASH, events);
  }

  lemma Next(events: seq<Event>, e: Event)
    ensures After(events + [e]) == Step(After(events), e)
  {
    assert (events + [e])[..|events|] == events;
  }

  /** No two start requests are ever sent for the same guest of the same run, and each one was
      sent for a row that had been committed first. */
  lemma AtMostOneStartPerGuest(events: seq<Event>, i: nat, j: nat)
    requires i < j < |After(events).posts|
    ensures var d := After(events);
      && d.posts[i] in d.rows && d.posts[j] in d.rows
      && (d.rows[d.posts[i]].run != d.rows[d.posts[j]].run || d.rows[d.posts[i]].guest != d.rows[d.posts[j]].guest)
  {
    Reachable(events);
    var d := After(events);
    assert d.posts[i] in d.posts && d.posts[j] in d.posts;
  }

  /** The request goes out only while its row is committed, running and not yet confirmed, and
      a row the agent confirmed is never sent for again. */
  lemma StartNeedsFreshRow(events: seq<Event>)
    requires After(events + [SendStart]).posts != After(events).posts
    ensures var d := After(events);
      d.phase.Opened? && d.phase.row in d.rows && d.rows[d.phase.row].status == Running
      && d.rows[d.phase.row].task.None? && d.phase.row !in d.posts
  {
    Reachable(events);
    assert (events + [SendStart])[..|events|] == events;
  }

  ghost function TerminalRows(rows: map<RowId, Row>, run: RunId): set<RowId> {
    set r | r in rows && rows[r].run == run && Terminal(rows[r].status)
  }

  /** A run has at most one row per target, each closed at most once, and its counters are
      exactly its terminal rows. */
  lemma CountersMatchRows(events: seq<Event>, run: RunId)
    requires run in After(events).runs
    ensures var d := After(events);
      && OneRowPerGuest(d.rows)
      && Distinct(d.closes) && (forall r :: r in d.closes <==> r in d.rows && Terminal(d.rows[r].status))
      && d.runs[run].succeeded == |ClosedWell(d.rows, run)|
      && d.runs[run].succeeded + d.runs[run].failed == |TerminalRows(d.rows, run)|
      && |TerminalRows(d.rows, run)| <= |RowsOf(d.rows, run)| <= |d.runs[run].targets|
  {
    Reachable(events);
    var d := After(events);
    TotalsAreRows(d.rows, run);
    SubsetSize(TerminalRows(d.rows, run), RowsOf(d.rows, run));
    RowsFitTargets(d, run);
  }

  lemma TotalsAreRows(rows: map<RowId, Row>, run: RunId)
    ensures |ClosedWell(rows, run)| + |ClosedBadly(rows, run)|
         == |TerminalRows(rows, run)|
  {
    assert TerminalRows(rows, run) == ClosedWell(rows, run) + ClosedBadly(rows, run);
    assert ClosedWell(rows, run) !! ClosedBadly(rows, run);
  }

  lemma RowsFitTargets(d: Dash, run: RunId)
    requires Inv(d) && run in d.runs
    ensures |RowsOf(d.rows, run)| <= |d.runs[run].targets|
  {
    var mine := RowsOf(d.rows, run);
    var guests := set g | g in d.runs[run].targets;
    DistinctSize(d.runs[run].targets);
    InjectionSize(mine, map r | r in mine :: d.rows[r].guest, guests);
  }

  /** When the loop over the targets ran to its end, every target has exactly one row and that
      row is terminal; the only other way to reach the end is a stop noticed while the last
      target was being followed, and then exactly that target's row is still running. */
  lemma PassEndsComplete(events: seq<Event>)
    requires After(events).phase.Finalising?
    requires After(events).phase.ending == Completed || After(events).phase.ending == StoppedAtLast
    ensures var d := After(events); var run := d.phase.run;
      && run in d.runs
      && (AllTerminal(d.rows, run, d.runs[run].targets) <==> d.phase.ending == Completed)
      && (d.phase.ending == StoppedAtLast ==> LeftRunning(d.rows, run, d.runs[run].targets, |d.runs[run].targets|))
  {
    Reachable(events);
    var d := After(events);
    var run, todo := d.phase.run, d.runs[d.phase.run].targets;
    if d.phase.ending == StoppedAtLast { LeftRunningIsOpen(d.rows, run, todo); }
  }

  lemma LeftRunningIsOpen(rows: map<RowId, Row>, run: RunId, todo: seq<Guest>)
    requires OneRowPerGuest(rows) && LeftRunning(rows, run, todo, |todo|)
    ensures !HasTerminal(rows, run, todo[|todo| - 1]) && !AllTerminal(rows, run, todo)
  {
    var r :| r in rows && rows[r].run == run && rows[r].guest == todo[|todo| - 1] && rows[r].status == Running;
    forall q | q in rows && rows[q].run == run && rows[q].guest == todo[|todo| - 1] ensures !Terminal(rows[q].status) {
      assert q == r;
    }
  }

  ghost predicate AllSucceeded(d: Dash, run: RunId)
    requires run in d.runs
  {
    forall g :: g in d.runs[run].targets ==>
      exists r :: r in d.rows && d.rows[r].run == run && d.rows[r].guest == g && d.rows[r].status == Success
  }

  /** A pass that reached its end without a cancellation makes the run a success exactly when
      every one of its targets has a successful row; a run without targets fails. */
  lemma SuccessMeansEveryTarget(events: seq<Event>)
    requires var d := After(events);
      d.phase.Finalising? && d.phase.ending != Error && d.phase.run !in d.cancelled && d.phase.run in d.runs
    ensures var d := After(events); var run := d.phase.run;
      FinaliseRun(d, run, d.phase.ending).runs[run].status == RunSuccess <==>
        d.runs[run].targets != [] && AllSucceeded(d, run)
  {
    Reachable(events);
    var d := After(events);
    SummaryIsExact(d, d.phase.run);
  }

  lemma SummaryIsExact(d: Dash, run: RunId)
    requires RowsOk(d.runs, d.rows, d.nextRow) && OneRowPerGuest(d.rows) && run in d.runs
    requires Distinct(d.runs[run].targets)
    ensures Summarise(d.runs[run], d.rows, run) == RunSuccess <==>
      d.runs[run].targets != [] && AllSucceeded(d, run)
  {
    if d.runs[run].targets == [] { return; }
    var good := RowsWith(d.rows, run, Success);
    var todo := d.runs[run].targets;
    var guests := set g | g in todo;
    DistinctSize(todo);
    var reached := set r | r in good :: d.rows[r].guest;
    GuestsOfRows(d, run, good);
    if |good| == |todo| {
      FullSubset(reached, guests);
      forall g | g in todo
        ensures exists r :: r in d.rows && d.rows[r].run == run && d.rows[r].guest == g && d.rows[r].status == Success
      {
        assert g in reached;
      }
      assert todo[0] in guests;
    }
    if AllSucceeded(d, run) {
      assert reached == guests;
      assert todo[0] in reached;
      assert good != {};
    }
  }

  /** The run has a row with this status. */
  ghost predicate HasRow(d: Dash, run: RunId, s: RowStatus) {
    exists r :: r in d.rows && d.rows[r].run == run && d.rows[r].status == s
  }

  /** The other three summaries: no target succeeded, and one was cancelled; none succeeded, and none was
      cancelled; or some succeeded, but not all. */
  lemma SummarySaysWhat(d: Dash, run: RunId)
    requires RowsOk(d.runs, d.rows, d.nextRow) && OneRowPerGuest(d.rows) && run in d.runs
    requires Distinct(d.runs[run].targets)
    ensures var summary := Summarise(d.runs[run], d.rows, run);
      && (summary == RunCancelled <==> !HasRow(d, run, Success) && HasRow(d, run, Cancelled))
      && (summary == RunFailed <==> !HasRow(d, run, Success) && !HasRow(d, run, Cancelled))
      && (summary == Partial <==> HasRow(d, run, Success) && !AllSucceeded(d, run))
      && (summary == RunSuccess <==> d.runs[run].targets != [] && AllSucceeded(d, run))
  {
    SummaryIsExact(d, run);
    RowsWithIff(d, run, Success);
    RowsWithIff(d, run, Cancelled);
    var targets := d.runs[run].targets;
    assert targets != [] && AllSucceeded(d, run) ==> HasRow(d, run, Success) by {
      if targets != [] { assert targets[0] in targets; }
    }
  }

  /** What a run is given at its end: cancelled if that was asked for, else failed after an error, else
      what its rows say. */
  lemma FinalStatusIff(events: seq<Event>)
    requires After(events).phase.Finalising? && After(events).phase.run in After(events).runs
    ensures var d := After(events); var run := d.phase.run; var asked := run in d.cancelled;
      var failed := d.phase.ending == Error;
      && run in After(events + [Finalise]).runs
      && var given := After(events + [Finalise]).runs[run].status;
         && (given == RunCancelled <==>
              asked || (!failed && !HasRow(d, run, Success) && HasRow(d, run, Cancelled)))
         && (given == RunFailed <==>
              !asked && (failed || (!HasRow(d, run, Success) && !HasRow(d, run, Cancelled))))
         && (given == RunSuccess <==> !asked && !failed && d.runs[run].targets != [] && AllSucceeded(d, run))
         && (given == Partial <==> !asked && !failed && HasRow(d, run, Success) && !AllSucceeded(d, run))
  {
    Reachable(events);
    Next(events, Finalise);
    SummarySaysWhat(After(events), After(events).phase.run);
  }

  lemma RowsWithIff(d: Dash, run: RunId, s: RowStatus)
    ensures |RowsWith(d.rows, run, s)| > 0 <==> HasRow(d, run, s)
    ensures HasRow(d, run, s) ==> RowsOf(d.rows, run) != {}
  {
    if r :| r in d.rows && d.rows[r].run == run && d.rows[r].status == s {
      assert r in RowsWith(d.rows, run, s) && r in RowsOf(d.rows, run);
    }
    if r :| r in RowsWith(d.rows, run, s) { assert d.rows[r].status == s; }
  }

  lemma GuestsOfRows(d: Dash, run: RunId, some: set<RowId>)
    requires RowsOk(d.runs, d.rows, d.nextRow) && OneRowPerGuest(d.rows) && run in d.runs && some <= RowsOf(d.rows, run)
    ensures var reached := set r | r in some :: d.rows[r].guest;
      |reached| == |some| && forall g :: g in reached ==> g in d.runs[run].targets
  {
    var reached := set r | r in some :: d.rows[r].guest;
    InjectionSize(some, map r | r in some :: d.rows[r].guest, reached);
    var back := map g | g in reached :: (var r :| r in some && d.rows[r].guest == g; r);
    InjectionSize(reached, back, some);
  }

  // ---- verdicts are final --------------------------------------------------------------

  /** The row is as it was, or was a success and has been retired since. */
  ghost predicate Final(before: Row, after: Row) {
    after == before || (before.status == Success && after == before.(status := Deleted))
  }

  lemma {:induction false} CloseSpares(d: Dash, row: RowId, s: RowStatus, r: RowId)
    requires r in d.rows && r != row
    ensures r in Close(d, row, s).rows && Close(d, row, s).rows[r] == d.rows[r]
  {
  }

  /** The row the worker is about to change, if it is about to change one. */
  ghost function AtHand(p: Phase): Option<RowId> {
    match p
    case Recovering(pending, _) => if pending != [] then Some(pending[0]) else None
    case Accepted(_, _, row, _) => Some(row)
    case Settling(row, _, _) => Some(row)
    case _ => None
  }

  /** That row is still running. */
  lemma AtHandIsRunning(d: Dash)
    requires Holding(Todo(d.runs, d.phase), d.rows, d.posts, d.phase, d.stopping) && AtHand(d.phase).Some?
    ensures AtHand(d.phase).value in d.rows && d.rows[AtHand(d.phase).value].status == Running
  {
    if d.phase.Settling? { SettlingRow(d); }
    if d.phase.Recovering? { assert d.phase.pending[0] in d.phase.pending; }
  }

  predicate Writes(e: Event) { e.RecoverPending? || e.Settle? || e.StoreTask? || e.VisitTarget? || e.RetireArtifact? }

  lemma OthersDoNotWrite(d: Dash, e: Event)
    requires !Writes(e)
    ensures Step(d, e).rows == d.rows
  {
  }

  lemma WriteSpares(d: Dash, e: Event, r: RowId)
    requires Writes(e) && r in d.rows && Terminal(d.rows[r].status) && d.nextRow !in d.rows
    requires AtHand(d.phase).Some? ==>
      AtHand(d.phase).value in d.rows && d.rows[AtHand(d.phase).value].status == Running
    ensures r in Step(d, e).rows && Final(d.rows[r], Step(d, e).rows[r])
  {
    match e
    case RecoverPending =>
      if AtHand(d.phase).Some? { CloseSpares(d, AtHand(d.phase).value, Interrupted, r); }
    case Settle => if d.phase.Settling? { CloseSpares(d, d.phase.row, VerdictStatus(d.phase.verdict), r); }
    case _ =>
  }

  lemma StepIsFinal(d: Dash, e: Event, r: RowId)
    requires Stored(d) && Holding(Todo(d.runs, d.phase), d.rows, d.posts, d.phase, d.stopping)
    requires r in d.rows && Terminal(d.rows[r].status)
    ensures r in Step(d, e).rows && Final(d.rows[r], Step(d, e).rows[r])
  {
    if Writes(e) {
      if AtHand(d.phase).Some? { AtHandIsRunning(d); }
      WriteSpares(d, e, r);
    } else {
      OthersDoNotWrite(d, e);
    }
  }

  lemma {:induction false} NextIsFinal(events: seq<Event>, e: Event, r: RowId)
    requires r in After(events).rows && Terminal(After(events).rows[r].status)
    ensures r in After(events + [e]).rows && Final(After(events).rows[r], After(events + [e]).rows[r])
  {
    Reachable(events);
    Next(events, e);
    StepIsFinal(After(events), e, r);
  }

  /** Whatever happens afterwards, a row that was closed keeps its verdict and its task; only a success
      may later read as deleted. */
  lemma {:induction false} VerdictsAreFinal(before: seq<Event>, after: seq<Event>, r: RowId)
    requires r in After(before).rows && Terminal(After(before).rows[r].status)
    ensures r in After(before + after).rows && Final(After(before).rows[r], After(before + after).rows[r])
  {
    if after == [] {
      assert before + after == before;
    } else {
      var front, last := after[..|after| - 1], after[|after| - 1];
      assert before + after == before + front + [last];
      VerdictsAreFinal(before, front, r);
      NextIsFinal(before + front, last, r);
    }
  }
}
