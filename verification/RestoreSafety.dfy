/** What every run keeps: one restore at a time, single-use tokens, and the archive a restore
    relies on staying where it is until the restore has ended. */
module RestoreSafety {
  import opened Prelude
  import opened RetentionRows
  import opened RetentionPlans
  import opened RetentionSafety
  import opened RetentionStability
  import opened RetentionPasses
  import opened Restores

  // ---- the invariant -------------------------------------------------------------------

  /** At most one restore is authorised or running. */
  ghost predicate OneInFlight(reg: Register) {
    forall a, b :: a in reg && b in reg && InFlight(reg[a]) && InFlight(reg[b]) ==> a == b
  }

  /** The digest is stored exactly while the restore awaits its confirmation. */
  ghost predicate TokenWhileAwaiting(reg: Register) {
    forall id :: id in reg ==> (reg[id].token.Some? <==> reg[id].status == Awaiting)
  }

  ghost predicate ConfirmedInTime(reg: Register) {
    forall id :: id in reg ==>
      && (InFlight(reg[id]) ==> reg[id].confirmedAt.Some?)
      && (reg[id].confirmedAt.Some? ==> reg[id].confirmedAt.value < reg[id].expiresAt)
  }

  ghost predicate TokensOk(reg: Register, minted: set<Token>, confirmations: seq<Token>) {
    && (forall id :: id in reg && reg[id].token.Some? ==>
          reg[id].token.value in minted && reg[id].token.value !in confirmations)
    && (forall a, b :: a in reg && b in reg && reg[a].token.Some? && reg[a].token == reg[b].token ==> a == b)
    && Distinct(confirmations) && forall t :: t in confirmations ==> t in minted
  }

  ghost predicate RegisterOk(reg: Register, minted: set<Token>, confirmations: seq<Token>) {
    OneInFlight(reg) && TokenWhileAwaiting(reg) && ConfirmedInTime(reg) && TokensOk(reg, minted, confirmations)
  }

  ghost predicate HasRow(w: Worker) { !w.Off? && !w.Free? }

  ghost predicate WorkerOk(reg: Register, w: Worker, resume: seq<RestoreId>) {
    && Distinct(resume)
    && (forall id :: id in resume ==> id in reg && reg[id].status == InProgress && reg[id].task)
    && (w.Off? ==> resume == [])
    && (HasRow(w) ==> resume == [] && w.row in reg
                      && if w.Leaving? then reg[w.row].status.Closed? else reg[w.row].status == InProgress)
  }

  /** A start request is sent at most once per restore. */
  ghost predicate StartsOk(reg: Register, w: Worker, starts: seq<RestoreId>) {
    && Distinct(starts)
    && (forall id :: id in starts ==>
          id in reg && reg[id].status != Awaiting && reg[id].status != Authorised && reg[id].confirmedAt.Some?)
    && (w.Claimed? || w.Downloading? || w.Ready? ==> w.row !in starts)
  }

  /** The row still describes the archive a restore relies on. */
  ghost predicate RowServes(r: Record, source: RestoreSource) {
    && r.status == Success && r.filename.Some?
    && (source == OnDrive ==> r.remotePath.Some? && r.remoteDeletedAt.None?)
  }

  ghost predicate ArchivesOk(t: Table, reg: Register, host: set<BackupId>) {
    forall id :: id in reg && Active(reg[id]) ==>
      && reg[id].backup in t && RowServes(t[reg[id].backup], reg[id].source)
      && (reg[id].source == OnHost ==> reg[id].backup in host)
  }

  ghost predicate Inv(s: Site) {
    && RegisterOk(s.restores, s.minted, s.confirmations)
    && WorkerOk(s.restores, s.worker, s.resume) && StartsOk(s.restores, s.worker, s.starts)
    && WellFormed(s.table) && ArchivesOk(s.table, s.restores, s.host)
  }

  // ---- the register --------------------------------------------------------------------

  lemma PreflightFinds(s: Site, backup: BackupId, checks: bool)
    requires Preflight(s, backup, checks).Some?
    ensures var source := Preflight(s, backup, checks).value;
      && backup in s.table && RowServes(s.table[backup], source) && (source == OnHost ==> backup in s.host)
      && NoneInFlight(s.restores)
  {
  }

  lemma RequestKeeps(s: Site, backup: BackupId, checks: bool, id: RestoreId, token: Token, expiresAt: int)
    requires Inv(s)
    ensures Inv(Step(s, Request(backup, checks, id, token, expiresAt)))
  {
    if id !in s.restores && token !in s.minted && Preflight(s, backup, checks).Some? {
      PreflightFinds(s, backup, checks);
      var source := Preflight(s, backup, checks).value;
      RequestRegister(s.restores, s.minted, s.confirmations, id, backup, source, token, expiresAt);
      RequestOthers(s, id, backup, source, token, expiresAt);
    }
  }

  lemma RequestRegister(reg: Register, minted: set<Token>, confirmations: seq<Token>,
                        id: RestoreId, backup: BackupId, source: RestoreSource, token: Token, expiresAt: int)
    requires RegisterOk(reg, minted, confirmations) && id !in reg && token !in minted
    ensures RegisterOk(Requested(reg, id, backup, source, token, expiresAt), minted + {token}, confirmations)
  {
  }

  lemma RequestOthers(s: Site, id: RestoreId, backup: BackupId, source: RestoreSource, token: Token, expiresAt: int)
    requires WorkerOk(s.restores, s.worker, s.resume) && StartsOk(s.restores, s.worker, s.starts)
    requires ArchivesOk(s.table, s.restores, s.host) && id !in s.restores
    requires backup in s.table && RowServes(s.table[backup], source) && (source == OnHost ==> backup in s.host)
    ensures var reg := Requested(s.restores, id, backup, source, token, expiresAt);
      WorkerOk(reg, s.worker, s.resume) && StartsOk(reg, s.worker, s.starts) && ArchivesOk(s.table, reg, s.host)
  {
  }

  lemma ConfirmKeeps(s: Site, id: RestoreId, token: Token, sameTarget: bool, checks: bool, now: int)
    requires Inv(s)
    ensures Inv(Step(s, Confirm(id, token, sameTarget, checks, now)))
  {
    if Confirmable(s.restores, id, token, sameTarget, now) && Preflight(s, s.restores[id].backup, checks).Some? {
      PreflightFinds(s, s.restores[id].backup, checks);
      var source := Preflight(s, s.restores[id].backup, checks).value;
      ConfirmRegister(s.restores, s.minted, s.confirmations, id, source, token, now);
      ConfirmOthers(s, id, source, now);
    }
  }

  lemma ConfirmRegister(reg: Register, minted: set<Token>, confirmations: seq<Token>,
                        id: RestoreId, source: RestoreSource, token: Token, now: int)
    requires RegisterOk(reg, minted, confirmations) && Confirmable(reg, id, token, true, now) && NoneInFlight(reg)
    ensures RegisterOk(ConfirmedAs(reg, id, source, now), minted, confirmations + [token])
  {
    assert forall t :: t in confirmations + [token] <==> t in confirmations || t == token;
  }

  lemma ConfirmOthers(s: Site, id: RestoreId, source: RestoreSource, now: int)
    requires WorkerOk(s.restores, s.worker, s.resume) && StartsOk(s.restores, s.worker, s.starts)
    requires ArchivesOk(s.table, s.restores, s.host) && id in s.restores && s.restores[id].status == Awaiting
    requires var b := s.restores[id].backup; RowServes(s.table[b], source) && (source == OnHost ==> b in s.host)
    ensures var reg := ConfirmedAs(s.restores, id, source, now);
      WorkerOk(reg, s.worker, s.resume) && StartsOk(reg, s.worker, s.starts) && ArchivesOk(s.table, reg, s.host)
  {
  }

  /** Rows may only be closed, and only before they have reached the host. */
  ghost predicate OnlyWithdrawn(a: Register, b: Register) {
    && a.Keys == b.Keys
    && forall id :: id in a ==> b[id] == a[id] || Withdrawn(a[id], b[id])
  }

  ghost predicate Withdrawn(r: Restore, q: Restore) {
    (r.status == Awaiting || r.status == Authorised) && q.status.Closed? && q == r.(status := q.status, token := None)
  }

  lemma WithdrawalKeeps(s: Site, reg: Register)
    requires Inv(s) && OnlyWithdrawn(s.restores, reg)
    ensures Inv(s.(restores := reg))
  {
    WithdrawalRegister(s.restores, reg, s.minted, s.confirmations);
    WithdrawalOthers(s, reg);
  }

  lemma WithdrawalRegister(reg: Register, later: Register, minted: set<Token>, confirmations: seq<Token>)
    requires RegisterOk(reg, minted, confirmations) && OnlyWithdrawn(reg, later)
    ensures RegisterOk(later, minted, confirmations)
  {
  }

  lemma WithdrawalOthers(s: Site, reg: Register)
    requires WorkerOk(s.restores, s.worker, s.resume) && StartsOk(s.restores, s.worker, s.starts)
    requires ArchivesOk(s.table, s.restores, s.host) && OnlyWithdrawn(s.restores, reg)
    ensures WorkerOk(reg, s.worker, s.resume) && StartsOk(reg, s.worker, s.starts) && ArchivesOk(s.table, reg, s.host)
  {
  }

  lemma CancelKeeps(s: Site, id: RestoreId)
    requires Inv(s)
    ensures Inv(Step(s, Cancel(id)))
  {
    assert OnlyWithdrawn(s.restores, CancelledIn(s.restores, id));
    WithdrawalKeeps(s, CancelledIn(s.restores, id));
  }

  lemma SweepKeeps(s: Site, now: int)
    requires Inv(s)
    ensures Inv(Step(s, Sweep(now)))
  {
    assert OnlyWithdrawn(s.restores, ExpiredIn(s.restores, now));
    WithdrawalKeeps(s, ExpiredIn(s.restores, now));
  }

  // ---- the worker ----------------------------------------------------------------------

  lemma RecoveredKeeps(s: Site, ids: seq<RestoreId>)
    requires Inv(s) && s.worker.Off? && Adopts(RecoveredIn(s.restores), ids)
    ensures Inv(s.(restores := RecoveredIn(s.restores), resume := ids, worker := Free))
  {
  }

  lemma StartKeeps(s: Site)
    requires Inv(s)
    ensures Inv(Step(s, WorkerStarts))
  {
    if s.worker.Off? {
      AdoptionExists(RecoveredIn(s.restores));
      var n := StartWorker(s);
      assert Adopts(RecoveredIn(s.restores), n.resume);
      RecoveredKeeps(s, n.resume);
    }
  }

  lemma ResumeIsShort(reg: Register, w: Worker, resume: seq<RestoreId>)
    requires OneInFlight(reg) && WorkerOk(reg, w, resume) && resume != []
    ensures resume[1..] == []
  {
    forall id | id in resume ensures id == resume[0] {
      assert resume[0] in resume;
      assert InFlight(reg[id]) && InFlight(reg[resume[0]]);
    }
    var ids := set id: RestoreId | id in resume;
    DistinctSize(resume);
    assert ids == {resume[0]} && |ids| == |resume|;
  }

  lemma ClaimKeeps(s: Site)
    requires Inv(s)
    ensures Inv(Step(s, Claim))
  {
    if s.worker.Free? && s.resume != [] {
      ResumeIsShort(s.restores, s.worker, s.resume);
      assert s.resume[0] in s.resume;
    }
  }

  /** Closing the row at hand. */
  lemma CloseKeeps(s: Site, end: RestoreEnd, w: Worker)
    requires Inv(s) && HasRow(s.worker) && (w == Free || w == Leaving(s.worker.row))
    ensures Inv(s.(restores := ClosedIn(s.restores, s.worker.row, end), worker := w))
  {
  }

  lemma MoveKeeps(s: Site, w: Worker)
    requires Inv(s) && HasRow(s.worker) && HasRow(w) && !s.worker.Leaving? && !w.Leaving? && w.row == s.worker.row
    requires w.Claimed? || w.Downloading? || w.Ready? ==> s.worker.row !in s.starts
    ensures Inv(s.(worker := w))
  {
  }

  lemma LoadKeeps(s: Site, artifact: bool)
    requires Inv(s)
    ensures Inv(Step(s, Load(artifact)))
  {
    if s.worker.Claimed? {
      CloseKeeps(s, RestoreFailed, Leaving(s.worker.row));
      MoveKeeps(s, Downloading(s.worker.row));
      MoveKeeps(s, Ready(s.worker.row));
    }
  }

  lemma FetchKeeps(s: Site, fetched: bool)
    requires Inv(s)
    ensures Inv(Step(s, FetchEnds(fetched)))
  {
    if s.worker.Downloading? {
      CloseKeeps(s, RestoreFailed, Leaving(s.worker.row));
      MoveKeeps(s, Ready(s.worker.row));
      assert Active(s.restores[s.worker.row]);
    }
  }

  lemma SendKeeps(s: Site)
    requires Inv(s)
    ensures Inv(Step(s, SendStart))
  {
    if s.worker.Ready? {
      assert forall id :: id in s.starts + [s.worker.row] <==> id in s.starts || id == s.worker.row;
    }
  }

  lemma HearKeeps(s: Site, reply: StartAnswer)
    requires Inv(s)
    ensures Inv(Step(s, Hear(reply)))
  {
    if s.worker.Sent? {
      CloseKeeps(s, RestoreInterrupted, Leaving(s.worker.row));
      CloseKeeps(s, RestoreFailed, Leaving(s.worker.row));
      MoveKeeps(s, Told(s.worker.row));
    }
  }

  lemma AttachKeeps(s: Site)
    requires Inv(s)
    ensures Inv(Step(s, Attach))
  {
  }

  lemma LeaveKeeps(s: Site)
    requires Inv(s)
    ensures Inv(Step(s, Leave))
  {
  }

  lemma EndKeeps(s: Site, end: RestoreEnd)
    requires Inv(s)
    ensures Inv(Step(s, Report(end))) && Inv(Step(s, GiveUp)) && Inv(Step(s, WorkerFails))
  {
    if HasRow(s.worker) {
      CloseKeeps(s, RestoreInterrupted, Leaving(s.worker.row));
      CloseKeeps(s, end, Leaving(s.worker.row));
      CloseKeeps(s, RestoreInterrupted, Free);
    }
  }

  // ---- the archives --------------------------------------------------------------------

  /** A retention pass asks the agent to delete a copy only if no restore relies on it. */
  lemma AttemptSpares(s: Site, trigger: Option<BackupId>, original: Plan)
    requires Attempted(s, trigger, original)
    ensures original.backup in s.table && original.backup !in ActiveBackups(s.restores)
    ensures Copies(s.table, original)
  {
    var db := DbOf(s);
    var p := PolicyOf(db, AS_CONFIGURED, trigger, trigger.Some?);
    var plans := PlansFor(db, p, trigger).value;
    CurrentIsPlanned(plans, original);
    PlanIsSafe(db, p, trigger, Current(plans, original));
  }

  lemma RetainTouches(s: Site, trigger: Option<BackupId>, original: Plan, answer: Answer, at: int)
    ensures var n := RetainOne(s, trigger, original, answer, at);
      && n == s.(table := n.table, host := n.host, drive := n.drive)
      && (n.table == s.table || (Attempted(s, trigger, original) && n.table == Marked(s.table, original, at)))
      && s.host - {original.backup} <= n.host <= s.host && s.drive - {original.backup} <= n.drive <= s.drive
      && (n.host != s.host || n.drive != s.drive ==> Attempted(s, trigger, original))
  {
    var db := DbOf(s);
    if Candidate(db, trigger, original, answer, at).Some? {
      DeletionIsSafe(db, trigger, original, answer, at);
      var p := PolicyOf(db, AS_CONFIGURED, trigger, trigger.Some?);
      CurrentIsPlanned(PlansFor(db, p, trigger).value, original);
    }
  }

  /** What a candidate's evaluation does to the archives: the copy it is about goes, and no other, unless
      the evaluation keeps it or nothing may be deleted. */
  lemma RetainRemoves(s: Site, trigger: Option<BackupId>, original: Plan, answer: Answer, at: int)
    requires Candidate(DbOf(s), trigger, original, answer, at).Some?
    ensures var n := RetainOne(s, trigger, original, answer, at);
      var d := Candidate(DbOf(s), trigger, original, answer, at).value.1;
      if !d.wouldDelete || s.settings.dryRun then n == s
      else if original.location == Local then n.host == s.host - {original.backup} && n.drive == s.drive
      else n.drive == s.drive - {original.backup} && n.host == s.host
  {
    CandidateReports(DbOf(s), trigger, original, answer, at);
  }

  lemma ActiveIsListed(reg: Register, id: RestoreId)
    requires id in reg && Active(reg[id])
    ensures reg[id].backup in ActiveBackups(reg)
  {
  }

  lemma MarkedElsewhere(t: Table, plan: Plan, at: int, b: BackupId)
    requires b != plan.backup
    ensures (b in t <==> b in Marked(t, plan, at)) && (b in t ==> Marked(t, plan, at)[b] == t[b])
  {
  }

  lemma RetainKeeps(s: Site, trigger: Option<BackupId>, original: Plan, answer: Answer, at: int)
    requires Inv(s)
    ensures Inv(Step(s, Retain(trigger, original, answer, at)))
  {
    var n := RetainOne(s, trigger, original, answer, at);
    RetainTouches(s, trigger, original, answer, at);
    if Attempted(s, trigger, original) {
      AttemptSpares(s, trigger, original);
      TakenArchiveKeeps(s, n, original, at);
    } else {
      assert n == s;
    }
  }

  lemma TakenArchiveKeeps(s: Site, n: Site, original: Plan, at: int)
    requires Inv(s) && original.backup !in ActiveBackups(s.restores)
    requires n == s.(table := n.table, host := n.host, drive := n.drive) && s.host - {original.backup} <= n.host
    requires n.table == s.table || n.table == Marked(s.table, original, at)
    requires original.backup in s.table && Copies(s.table, original)
    ensures Inv(n)
  {
    MarkingKeeps(s.table, original, at);
    RetainArchives(s, n, original, at);
    ArchivesKeep(s, n);
  }

  lemma ArchivesKeep(s: Site, n: Site)
    requires Inv(s) && n == s.(table := n.table, host := n.host, drive := n.drive)
    requires WellFormed(n.table) && ArchivesOk(n.table, n.restores, n.host)
    ensures Inv(n)
  {
  }

  lemma RetainArchives(s: Site, n: Site, original: Plan, at: int)
    requires ArchivesOk(s.table, s.restores, s.host) && original.backup !in ActiveBackups(s.restores)
    requires n.restores == s.restores && s.host - {original.backup} <= n.host
    requires n.table == s.table || n.table == Marked(s.table, original, at)
    ensures ArchivesOk(n.table, n.restores, n.host)
  {
    forall id | id in s.restores && Active(s.restores[id])
      ensures s.restores[id].backup in n.table && n.table[s.restores[id].backup] == s.table[s.restores[id].backup]
      ensures s.restores[id].backup in s.host ==> s.restores[id].backup in n.host
    {
      ActiveIsListed(s.restores, id);
      MarkedElsewhere(s.table, original, at, s.restores[id].backup);
    }
  }

  lemma HandKeeps(s: Site, backup: BackupId, answered: bool, gone: bool, at: int)
    requires Inv(s)
    ensures Inv(Step(s, DeleteByHand(backup, answered, gone, at)))
  {
    if HandDeletable(s, backup) {
      forall id | id in s.restores && Active(s.restores[id]) ensures s.restores[id].backup != backup {
        ActiveIsListed(s.restores, id);
      }
    }
  }

  predicate Elsewhere(e: Event) { e.Arrive? || e.Upload? || e.Resync? || e.Pin? || e.Configure? || e.WorkerStops? }

  /** Changes to rows of the history that leave every relied-on fact alone. */
  lemma TableKeeps(s: Site, t: Table, host: set<BackupId>, drive: set<BackupId>)
    requires Inv(s) && WellFormed(t) && s.host <= host
    requires forall b :: b in s.table ==> b in t && SameCopies(s.table[b], t[b])
    ensures Inv(s.(table := t, host := host, drive := drive))
  {
  }

  ghost predicate SameCopies(r: Record, q: Record) {
    && q.status == r.status && q.filename == r.filename && q.localDeletedAt == r.localDeletedAt
    && q.remoteDeletedAt == r.remoteDeletedAt && (r.remotePath.Some? ==> q.remotePath.Some?)
  }

  lemma ElsewhereKeeps(s: Site, e: Event)
    requires Inv(s) && Elsewhere(e)
    ensures Inv(Step(s, e))
  {
    var n := Step(s, e);
    if !e.Configure? && !e.WorkerStops? {
      ElsewhereTable(s.table, e, n.table);
      TableKeeps(s, n.table, n.host, n.drive);
      assert n == s.(table := n.table, host := n.host, drive := n.drive);
    }
  }

  lemma ElsewhereTable(t: Table, e: Event, u: Table)
    requires WellFormed(t)
    requires match e
      case Arrive(backup, record) => u == if backup in t || record.status == Deleted then t else t[backup := record]
      case Upload(backup, path) =>
        u == if backup in t then t[backup := t[backup].(upload := Uploaded, remotePath := Some(path))] else t
      case Resync(backup, upload) => u == if backup in t then t[backup := t[backup].(upload := upload)] else t
      case Pin(backup, locked) => u == if backup in t then t[backup := t[backup].(locked := locked)] else t
      case _ => u == t
    ensures WellFormed(u) && forall b :: b in t ==> b in u && SameCopies(t[b], u[b])
  {
  }

  lemma StepKeeps(s: Site, e: Event)
    requires Inv(s)
    ensures Inv(Step(s, e))
  {
    match e
    case Request(backup, checks, id, token, expiresAt) => RequestKeeps(s, backup, checks, id, token, expiresAt);
    case Confirm(id, token, sameTarget, checks, now) => ConfirmKeeps(s, id, token, sameTarget, checks, now);
    case Cancel(id) => CancelKeeps(s, id);
    case Sweep(now) => SweepKeeps(s, now);
    case WorkerStarts => StartKeeps(s);
    case Claim => ClaimKeeps(s);
    case Load(artifact) => LoadKeeps(s, artifact);
    case FetchEnds(fetched) => FetchKeeps(s, fetched);
    case SendStart => SendKeeps(s);
    case Hear(reply) => HearKeeps(s, reply);
    case Attach => AttachKeeps(s);
    case Report(end) => EndKeeps(s, end);
    case GiveUp => EndKeeps(s, RestoreInterrupted);
    case Leave => LeaveKeeps(s);
    case WorkerFails => EndKeeps(s, RestoreInterrupted);
    case Retain(trigger, original, answer, at) => RetainKeeps(s, trigger, original, answer, at);
    case DeleteByHand(backup, answered, gone, at) => HandKeeps(s, backup, answered, gone, at);
    case _ => ElsewhereKeeps(s, e);
  }

  lemma {:induction false} Reachable(events: seq<Event>)
    ensures Inv(Play(events))
  {
    if events != [] {
      Reachable(events[..|events| - 1]);
      StepKeeps(Play(events[..|events| - 1]), events[|events| - 1]);
    }
  }

  // ---- what an operator may rely on ----------------------------------------------------

  /** Restores are serialised: whatever happened, at most one is authorised or running. */
  lemma {:induction false} AtMostOneRestore(events: seq<Event>, a: RestoreId, b: RestoreId)
    requires var s := Play(events);
      a in s.restores && b in s.restores && InFlight(s.restores[a]) && InFlight(s.restores[b])
    ensures a == b
  {
    Reachable(events);
  }

  /** Every token authorises at most one confirmation, ever; and a restore can be confirmed only
      while the token is stored, which is exactly while it awaits confirmation. */
  lemma {:induction false} TokensAreSingleUse(events: seq<Event>, i: nat, j: nat)
    requires i < j < |Play(events).confirmations|
    ensures Play(events).confirmations[i] != Play(events).confirmations[j]
    ensures forall id ::
              id in Play(events).restores && Play(events).restores[id].token == Some(Play(events).confirmations[i])
              ==> Play(events).restores[id].status != Awaiting
  {
    Reachable(events);
    var s := Play(events);
    assert s.confirmations[i] in s.confirmations;
  }

  /** No restore is confirmed at or after its expiry, and the digest is there exactly while the
      restore awaits confirmation. */
  lemma {:induction false} ConfirmationIsTimely(events: seq<Event>, id: RestoreId)
    requires id in Play(events).restores
    ensures var r := Play(events).restores[id];
      && (r.token.Some? <==> r.status == Awaiting)
      && (InFlight(r) ==> r.confirmedAt.Some?)
      && (r.confirmedAt.Some? ==> r.confirmedAt.value < r.expiresAt)
  {
    Reachable(events);
  }

  /** The agent is asked to start a given restore at most once, across crashes and restarts. */
  lemma {:induction false} StartedAtMostOnce(events: seq<Event>)
    ensures Distinct(Play(events).starts)
    ensures forall id :: id in Play(events).starts ==>
      id in Play(events).restores && Play(events).restores[id].confirmedAt.Some?
  {
    Reachable(events);
  }

  /** As long as a restore is not over, no step of anybody removes its archive from the host or
      from the drive, and its row goes on describing it. */
  lemma StepSparesArchive(s: Site, e: Event, id: RestoreId)
    requires id in s.restores && Active(s.restores[id])
    ensures Spared(s, Step(s, e), id)
  {
    if e.Retain? {
      RetainSpares(s, e.trigger, e.original, e.answer, e.at, id);
    } else if e.DeleteByHand? {
      ActiveIsListed(s.restores, id);
    } else {
      OthersRemoveNothing(s, e);
    }
  }

  ghost predicate Spared(s: Site, n: Site, id: RestoreId)
    requires id in s.restores
  {
    && id in n.restores && n.restores[id].backup == s.restores[id].backup
    && (s.restores[id].backup in s.host ==> s.restores[id].backup in n.host)
    && (s.restores[id].backup in s.drive ==> s.restores[id].backup in n.drive)
  }

  lemma RetainSpares(s: Site, trigger: Option<BackupId>, original: Plan, answer: Answer, at: int, id: RestoreId)
    requires id in s.restores && Active(s.restores[id])
    ensures var n := RetainOne(s, trigger, original, answer, at); var b := s.restores[id].backup;
      n.restores == s.restores && (b in s.host ==> b in n.host) && (b in s.drive ==> b in n.drive)
  {
    ActiveIsListed(s.restores, id);
    RetainTouches(s, trigger, original, answer, at);
    if Attempted(s, trigger, original) { AttemptSpares(s, trigger, original); }
  }

  lemma OthersRemoveNothing(s: Site, e: Event)
    requires !e.Retain? && !e.DeleteByHand?
    ensures s.host <= Step(s, e).host && s.drive <= Step(s, e).drive
    ensures forall id :: id in s.restores ==>
      id in Step(s, e).restores && Step(s, e).restores[id].backup == s.restores[id].backup
  {
    OthersKeepBytes(s, e);
    OthersKeepRows(s, e);
  }

  lemma OthersKeepBytes(s: Site, e: Event)
    requires !e.Retain? && !e.DeleteByHand?
    ensures s.host <= Step(s, e).host && s.drive <= Step(s, e).drive
  {
  }

  lemma OthersKeepRows(s: Site, e: Event)
    requires !e.Retain? && !e.DeleteByHand?
    ensures forall id :: id in s.restores ==>
      id in Step(s, e).restores && Step(s, e).restores[id].backup == s.restores[id].backup
  {
  }

  /** From any moment at which a restore is under way until it has ended, in any interleaving of
      retention passes, manual deletes and everything else, an archive that was there stays. */
  lemma {:induction false} ArchiveStaysUntilTheEnd(before: seq<Event>, after: seq<Event>, id: RestoreId)
    requires forall k :: 0 <= k <= |after| ==> StillActive(before + after[..k], id)
    ensures StillActive(before, id) && StillActive(before + after, id)
    ensures var first, last := Play(before), Play(before + after); var b := first.restores[id].backup;
      && last.restores[id].backup == b && (b in first.host ==> b in last.host) && (b in first.drive ==> b in last.drive)
  {
    assert before + after[..0] == before && StillActive(before + after[..0], id);
    assert before + after[..|after|] == before + after && StillActive(before + after[..|after|], id);
    if after == [] {
      assert before + after == before;
    } else {
      var n := |after| - 1;
      forall k | 0 <= k <= n ensures StillActive(before + after[..n][..k], id) { assert after[..n][..k] == after[..k]; }
      ArchiveStaysUntilTheEnd(before, after[..n], id);
      LastStepSpares(before + after[..n], after[n], id);
      assert before + after == before + after[..n] + [after[n]];
    }
  }

  lemma {:induction false} LastStepSpares(events: seq<Event>, e: Event, id: RestoreId)
    requires StillActive(events, id)
    ensures var s, n := Play(events), Play(events + [e]); var b := s.restores[id].backup;
      && id in n.restores && n.restores[id].backup == b
      && (b in s.host ==> b in n.host) && (b in s.drive ==> b in n.drive)
  {
    Reachable(events);
    StepSparesArchive(Play(events), e, id);
    assert (events + [e])[..|events|] == events;
  }

  /** All along, the row of the archive is a successful one that names it, and what the preflight
      found on the host is on the host. */
  lemma {:induction false} ArchiveIsThere(events: seq<Event>, id: RestoreId)
    requires StillActive(events, id)
    ensures var s := Play(events); var r := s.restores[id];
      && r.backup in s.table && RowServes(s.table[r.backup], r.source) && (r.source == OnHost ==> r.backup in s.host)
  {
    Reachable(events);
  }

  ghost predicate StillActive(events: seq<Event>, id: RestoreId) {
    id in Play(events).restores && Active(Play(events).restores[id])
  }

  /** A manual delete goes through exactly when the row is there, is not running, is not pinned,
      has an archive, and no restore needs it. The row is marked once the agent has answered; the archive
      may be gone without an answer. */
  lemma HandDeleteIff(s: Site, backup: BackupId, answered: bool, gone: bool, at: int)
    ensures HandDeletable(s, backup) <==>
      && backup in s.table && s.table[backup].status != Running && !s.table[backup].locked
      && s.table[backup].filename.Some?
      && forall id :: id in s.restores && !s.restores[id].status.Closed? ==> s.restores[id].backup != backup
    ensures !HandDeletable(s, backup) ==> HandDelete(s, backup, answered, gone, at) == s
    ensures HandDeletable(s, backup) ==>
      var n, r := HandDelete(s, backup, answered, gone, at), s.table[backup];
      && n == s.(table := n.table, host := n.host)
      && n.host == (if answered || gone then s.host - {backup} else s.host)
      && n.table == if !answered then s.table else
           s.table[backup := r.(localDeletedAt := Some(at),
             status := if r.upload == Uploaded && r.remotePath.Some? && r.remoteDeletedAt.None? then Success
                       else Deleted)]
  {
    if backup in ActiveBackups(s.restores) {
      var id :| id in s.restores && Active(s.restores[id]) && s.restores[id].backup == backup;
    }
  }
}
