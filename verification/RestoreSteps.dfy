/** What moves a restore from one state to the next: for each state, exactly which steps lead out of
    it, and where to. */
module RestoreSteps {
  import opened Prelude
  import opened RetentionRows
  import opened RetentionPlans
  import opened RetentionPasses
  import opened Restores
  import opened RestoreSafety

  // ---- who writes to the register ------------------------------------------------------

  predicate AtTheDesk(e: Event) { e.Request? || e.Confirm? || e.Cancel? || e.Sweep? }

  predicate OfTheWorker(e: Event) {
    e.WorkerStarts? || e.Claim? || e.Load? || e.FetchEnds? || e.Hear? || e.Attach? || e.Report? || e.GiveUp?
      || e.Leave? || e.WorkerFails?
  }

  /** Retention changes the history and the archives, and nothing else. */
  lemma RetainStays(s: Site, e: Event)
    requires e.Retain?
    ensures var n := Step(s, e); n == s.(table := n.table, host := n.host, drive := n.drive)
  {
    RetainTouches(s, e.trigger, e.original, e.answer, e.at);
  }

  /** Nobody else does. */
  lemma OthersDoNotWrite(s: Site, e: Event)
    requires !AtTheDesk(e) && !OfTheWorker(e)
    ensures Step(s, e).restores == s.restores
  {
    if e.Retain? { RetainStays(s, e); }
  }

  predicate AtARow(e: Event) { OfTheWorker(e) && !e.WorkerStarts? && !e.Claim? }

  /** At a row, the worker changes that row only. */
  lemma RowTouches(s: Site, e: Event, id: RestoreId)
    requires AtARow(e) && id in s.restores && (HasRow(s.worker) ==> s.worker.row in s.restores)
    ensures Step(s, e).restores.Keys == s.restores.Keys
    ensures !HasRow(s.worker) || s.worker.row != id ==> Step(s, e).restores[id] == s.restores[id]
  {
  }

  /** The worker changes restores that run, and takes up confirmed ones. */
  lemma WorkerTouches(s: Site, e: Event, id: RestoreId)
    requires WorkerOk(s.restores, s.worker, s.resume) && OfTheWorker(e) && id in s.restores
    ensures Step(s, e).restores.Keys == s.restores.Keys
    ensures s.restores[id].status == Awaiting ==> Step(s, e).restores[id] == s.restores[id]
    ensures s.restores[id].status == Authorised && !e.Claim? ==> Step(s, e).restores[id] == s.restores[id]
  {
    if AtARow(e) { RowTouches(s, e, id); }
  }

  lemma NoRequestNoRow(s: Site, e: Event, id: RestoreId)
    requires id !in s.restores && !e.Request?
    ensures id !in Step(s, e).restores
  {
    if !AtTheDesk(e) && !OfTheWorker(e) { OthersDoNotWrite(s, e); }
  }

  // ---- from the request to the confirmation --------------------------------------------

  /** A restore enters the register only by a request for a successful backup with an archive, while
      no restore is confirmed or running; it then awaits its confirmation. */
  lemma RequestedIff(s: Site, id: RestoreId, backup: BackupId, checks: bool, token: Token, expiresAt: int)
    requires id !in s.restores
    ensures var after := Step(s, Request(backup, checks, id, token, expiresAt)).restores;
      id in after <==>
        && token !in s.minted && checks && backup in s.table
        && s.table[backup].status == Success && s.table[backup].filename.Some?
        && (backup in s.host || (s.table[backup].upload == Uploaded && s.table[backup].remotePath.Some?
                                 && s.table[backup].remoteDeletedAt.None?))
        && forall r :: r in s.restores ==> s.restores[r].status != Authorised && s.restores[r].status != InProgress
    ensures var after := Step(s, Request(backup, checks, id, token, expiresAt)).restores;
      var source := if backup in s.host then OnHost else OnDrive;
      id in after ==> after[id] == Restore(backup, source, Awaiting, Some(token), expiresAt, None, false)
  {
  }

  /** It is authorised exactly by a confirmation with its token, for its target and before its window
      closes, its archive still being there and no other restore confirmed or running; it then names
      where the archive was found. */
  lemma ConfirmedIff(s: Site, id: RestoreId, token: Token, sameTarget: bool, checks: bool, now: int)
    requires Inv(s) && id in s.restores
    ensures var after := Step(s, Confirm(id, token, sameTarget, checks, now)).restores;
      after != s.restores <==>
        && s.restores[id].status == Awaiting && s.restores[id].token == Some(token) && sameTarget
        && now < s.restores[id].expiresAt && checks
        && (s.restores[id].backup in s.host || OnTheDrive(s, s.restores[id].backup))
        && forall r :: r in s.restores ==> s.restores[r].status != Authorised && s.restores[r].status != InProgress
    ensures var after := Step(s, Confirm(id, token, sameTarget, checks, now)).restores;
      var source := if s.restores[id].backup in s.host then OnHost else OnDrive;
      after != s.restores ==>
        after == s.restores[id := s.restores[id].(status := Authorised, source := source, token := None,
                                                  confirmedAt := Some(now))]
  {
    if s.restores[id].status == Awaiting {
      assert RowServes(s.table[s.restores[id].backup], s.restores[id].source);
    }
  }

  predicate OnTheDrive(s: Site, b: BackupId) {
    b in s.table && s.table[b].upload == Uploaded && s.table[b].remotePath.Some? && s.table[b].remoteDeletedAt.None?
  }

  /** Nothing else authorises anything. */
  lemma AuthorisedBy(s: Site, e: Event, id: RestoreId)
    requires id in Step(s, e).restores && Step(s, e).restores[id].status == Authorised
    ensures id in s.restores
    ensures s.restores[id].status != Authorised ==>
      && e.Confirm? && e.id == id && s.restores[id].status == Awaiting && s.restores[id].token == Some(e.token)
      && e.sameTarget && e.now < s.restores[id].expiresAt
  {
    if !AtTheDesk(e) && !OfTheWorker(e) { OthersDoNotWrite(s, e); }
  }

  // ---- withdrawal ----------------------------------------------------------------------

  /** Before it runs, a restore ends exactly when someone cancels it, or its window closes unconfirmed. */
  lemma WithdrawnIff(s: Site, e: Event, id: RestoreId, end: RestoreEnd)
    requires WorkerOk(s.restores, s.worker, s.resume) && id in s.restores
    requires s.restores[id].status == Awaiting || s.restores[id].status == Authorised
    ensures id in Step(s, e).restores
    ensures Step(s, e).restores[id].status == Closed(end) <==>
      || (e == Cancel(id) && end == RestoreCancelled)
      || (e.Sweep? && s.restores[id].status == Awaiting && s.restores[id].expiresAt <= e.now && end == Expired)
  {
    if OfTheWorker(e) {
      WorkerTouches(s, e, id);
    } else if !AtTheDesk(e) {
      OthersDoNotWrite(s, e);
    }
  }

  // ---- running -------------------------------------------------------------------------

  /** A confirmed restore starts running exactly when the free worker, with nothing to adopt, takes
      the oldest one. */
  lemma TakenIff(s: Site, e: Event, id: RestoreId)
    requires OneInFlight(s.restores) && WorkerOk(s.restores, s.worker, s.resume)
    requires id in s.restores && s.restores[id].status == Authorised
    ensures id in Step(s, e).restores
    ensures Step(s, e).restores[id].status == InProgress <==> e.Claim? && s.worker.Free? && s.resume == []
    ensures e.Claim? && s.worker.Free? && s.resume == [] ==> Step(s, e).worker == Claimed(id)
  {
    assert forall other :: other in s.restores && s.restores[other].status == Authorised ==> other == id;
    assert OldestAuthorised(s.restores, id);
    if OfTheWorker(e) && !e.Claim? {
      WorkerTouches(s, e, id);
    } else if !AtTheDesk(e) && !OfTheWorker(e) {
      OthersDoNotWrite(s, e);
    }
  }

  /** A running restore ends exactly when the worker, at that very restore, learns that it cannot go
      on, is told how it went, or gives up on it; or at a start, when no task was ever recorded. */
  lemma EndedIff(s: Site, e: Event, id: RestoreId, end: RestoreEnd)
    requires WorkerOk(s.restores, s.worker, s.resume) && id in s.restores
      && s.restores[id].status == InProgress
    ensures id in Step(s, e).restores
    ensures Step(s, e).restores[id].status == Closed(end) <==>
      if e.WorkerStarts? then s.worker.Off? && !s.restores[id].task && end == RestoreInterrupted
      else
        && !s.worker.Off? && !s.worker.Free? && s.worker.row == id
        && match e
           case Load(artifact) => s.worker.Claimed? && !artifact && end == RestoreFailed
           case FetchEnds(fetched) => s.worker.Downloading? && !fetched && end == RestoreFailed
           case Hear(Unreachable) => s.worker.Sent? && end == RestoreInterrupted
           case Hear(Declined) => s.worker.Sent? && end == RestoreFailed
           case Report(said) => s.worker.Following? && said != Expired && end == said
           case GiveUp => (s.worker.Following? || s.worker.Downloading?) && end == RestoreInterrupted
           case WorkerFails => end == RestoreInterrupted
           case _ => false
  {
    if !AtTheDesk(e) && !OfTheWorker(e) { OthersDoNotWrite(s, e); }
  }

  /** At a start the worker takes up exactly the running restores with a task, each once. */
  lemma StartAdopts(s: Site)
    requires s.worker.Off?
    ensures var n := Step(s, WorkerStarts);
      && n.worker.Free? && Distinct(n.resume)
      && forall id :: id in n.resume <==> id in s.restores && s.restores[id].status == InProgress && s.restores[id].task
  {
    AdoptionExists(RecoveredIn(s.restores));
  }

  /** A task is recorded for a restore exactly once the agent has told of it. */
  lemma AttachedIff(s: Site, e: Event, id: RestoreId)
    requires WorkerOk(s.restores, s.worker, s.resume) && id in s.restores && !s.restores[id].task
    ensures id in Step(s, e).restores
    ensures Step(s, e).restores[id].task <==> e.Attach? && s.worker.Told? && s.worker.row == id
  {
    if !AtTheDesk(e) && !OfTheWorker(e) { OthersDoNotWrite(s, e); }
  }

  /** The worker is free for the next restore exactly when it leaves one that it has closed, or fails at
      one; and it is leaving exactly a restore it has just closed. */
  lemma FreeAgainIff(s: Site, e: Event)
    requires WorkerOk(s.restores, s.worker, s.resume) && !s.worker.Off? && !s.worker.Free?
    ensures Step(s, e).worker.Free? <==> e.WorkerFails? || (e.Leave? && s.worker.Leaving?)
    ensures Step(s, e).worker.Leaving? && !s.worker.Leaving? <==>
      match e
      case Load(artifact) => s.worker.Claimed? && !artifact
      case FetchEnds(fetched) => s.worker.Downloading? && !fetched
      case Hear(reply) => s.worker.Sent? && reply != StartAnswer.Accepted
      case Report(said) => s.worker.Following? && said != Expired
      case GiveUp => s.worker.Following? || s.worker.Downloading?
      case _ => false
  {
    if e.Retain? { RetainStays(s, e); }
  }

  /** A closed restore stays as it is, unless the worker fails right after writing its end: then it
      reads as interrupted. */
  lemma OverIsOver(s: Site, e: Event, id: RestoreId)
    requires WorkerOk(s.restores, s.worker, s.resume) && id in s.restores
      && s.restores[id].status.Closed?
    ensures id in Step(s, e).restores
    ensures Step(s, e).restores[id] == if e.WorkerFails? && s.worker == Leaving(id) then
      s.restores[id].(status := Closed(RestoreInterrupted)) else s.restores[id]
  {
    if !AtTheDesk(e) && !OfTheWorker(e) { OthersDoNotWrite(s, e); }
  }

  // ---- what the host is asked ----------------------------------------------------------

  /** The archive of the restore at hand is on the host once there is nothing left to fetch. */
  ghost predicate Fetched(s: Site) {
    s.worker.Ready? && s.worker.row in s.restores ==> s.restores[s.worker.row].backup in s.host
  }

  lemma FetchedStays(s: Site, e: Event)
    requires Inv(s) && Fetched(s)
    ensures Fetched(Step(s, e))
  {
    if e.Retain? {
      RetainStays(s, e);
      if s.worker.Ready? { StepSparesArchive(s, e, s.worker.row); }
    } else if OfTheWorker(e) {
      WorkerFetches(s, e);
    } else if s.worker.Ready? {
      StepSparesArchive(s, e, s.worker.row);
    }
  }

  lemma WorkerFetches(s: Site, e: Event)
    requires Inv(s) && Fetched(s) && OfTheWorker(e)
    ensures Fetched(Step(s, e))
  {
  }

  lemma {:induction false} AlwaysFetched(events: seq<Event>)
    ensures Fetched(Play(events))
  {
    if events != [] {
      Reachable(events[..|events| - 1]);
      AlwaysFetched(events[..|events| - 1]);
      FetchedStays(Play(events[..|events| - 1]), events[|events| - 1]);
    }
  }

  /** The agent is asked to start a restore only for one that was confirmed, is running, and has its
      archive on the host; one found on the drive has been fetched first. */
  lemma {:induction false} StartedWithArchive(events: seq<Event>, e: Event)
    requires Step(Play(events), e).starts != Play(events).starts
    ensures var s := Play(events);
      && e == SendStart && s.worker.Ready? && s.worker.row in s.restores
      && s.restores[s.worker.row].status == InProgress && s.restores[s.worker.row].confirmedAt.Some?
      && s.restores[s.worker.row].backup in s.host && Step(s, e).starts == s.starts + [s.worker.row]
  {
    Reachable(events);
    AlwaysFetched(events);
    if e != SendStart { StartsBySending(Play(events), e); }
  }

  lemma StartsBySending(s: Site, e: Event)
    requires e != SendStart
    ensures Step(s, e).starts == s.starts
  {
    if e.Retain? {
      RetainStays(s, e);
    } else if OfTheWorker(e) {
      WorkerSendsElsewhere(s, e);
    }
  }

  lemma WorkerSendsElsewhere(s: Site, e: Event)
    requires OfTheWorker(e)
    ensures Step(s, e).starts == s.starts
  {
  }
}
