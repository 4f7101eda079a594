/** Two-phase restores together with everything that can take an archive away from them: the
    request and confirmation, the expiry sweep, the single restore worker with its crashes, the
    retention pass and the manual delete. Each guarded section is one atomic step. */
module Restores {
  import opened Prelude
  import opened RetentionRows
  import opened RetentionPolicy
  import opened RetentionPlans
  import opened RetentionSafety
  import opened RetentionPasses

  type RestoreId = nat
  type Token = nat

  datatype RestoreSource = OnHost | OnDrive

  datatype RestoreEnd = Restored | RestoreFailed | RestoreCancelled | RestoreInterrupted | Expired

  datatype RestoreStatus = Awaiting | Authorised | InProgress | Closed(end: RestoreEnd)

  /** One row of the restore history. Only a digest of the confirmation token is stored; tokens
      and digests correspond one to one. */
  datatype Restore = Restore(backup: BackupId, source: RestoreSource, status: RestoreStatus, token: Option<Token>,
                             expiresAt: int, confirmedAt: Option<int>, task: bool)

  type Register = map<RestoreId, Restore>

  datatype Worker =
    | Off
    | Free
    | Claimed(row: RestoreId)
    | Downloading(row: RestoreId)
    | Ready(row: RestoreId)
    | Sent(row: RestoreId)
    | Told(row: RestoreId)
    | Following(row: RestoreId)
    | Leaving(row: RestoreId)

  /** `host` and `drive` are the backups whose archive really is there. `minted`, `confirmations`
      and `starts` are history: every token ever issued, the tokens that authorised a restore,
      and the rows a start request was sent for. */
  datatype Site = Site(
    table: Table,
    settings: Settings,
    contexts: map<BackupId, Context>,
    restores: Register,
    host: set<BackupId>,
    drive: set<BackupId>,
    worker: Worker,
    resume: seq<RestoreId>,
    minted: set<Token>,
    confirmations: seq<Token>,
    starts: seq<RestoreId>)

  datatype StartAnswer = Accepted | Unreachable | Declined

  datatype Event =
    | Request(backup: BackupId, checks: bool, id: RestoreId, token: Token, expiresAt: int)
    | Confirm(id: RestoreId, token: Token, sameTarget: bool, checks: bool, now: int)
    | Cancel(id: RestoreId)
    | Sweep(now: int)
    | WorkerStarts
    | WorkerStops
    | Claim
    | Load(artifact: bool)
    | FetchEnds(fetched: bool)
    | SendStart
    | Hear(reply: StartAnswer)
    | Attach
    | Report(end: RestoreEnd)
    | GiveUp
    | Leave
    | WorkerFails
    | Retain(trigger: Option<BackupId>, original: Plan, answer: Answer, at: int)
    | DeleteByHand(backup: BackupId, answered: bool, gone: bool, at: int)
    | Arrive(backup: BackupId, record: Record)
    | Upload(backup: BackupId, path: string)
    | Resync(backup: BackupId, upload: Upload)
    | Pin(backup: BackupId, locked: bool)
    | Configure(settings: Settings)

  // ---- states --------------------------------------------------------------------------

  predicate Active(r: Restore) { !r.status.Closed? }

  predicate InFlight(r: Restore) { r.status == Authorised || r.status == InProgress }

  predicate NoneInFlight(reg: Register) { forall id :: id in reg ==> !InFlight(reg[id]) }

  function ActiveBackups(reg: Register): set<BackupId> {
    set id | id in reg && Active(reg[id]) :: reg[id].backup
  }

  function RemoteUsable(r: Record): bool {
    r.upload == Uploaded && r.remotePath.Some? && r.remoteDeletedAt.None?
  }

  /** Where the archive would be restored from, or nothing when a check fails. `checks` stands
      for a host that answers, and for the checks that concern neither the archive nor other
      restores. */
  function Inspect(t: Table, host: set<BackupId>, reg: Register, backup: BackupId, checks: bool)
    : Option<RestoreSource>
  {
    if backup !in t || !checks || !NoneInFlight(reg) then None
    else if t[backup].filename.None? || t[backup].status != Success then None
    else if backup in host then Some(OnHost)
    else if RemoteUsable(t[backup]) then Some(OnDrive)
    else None
  }

  function Preflight(s: Site, backup: BackupId, checks: bool): Option<RestoreSource> {
    Inspect(s.table, s.host, s.restores, backup, checks)
  }

  // ---- the register --------------------------------------------------------------------

  function Requested(reg: Register, id: RestoreId, backup: BackupId, source: RestoreSource, token: Token,
                     expiresAt: int): Register
  {
    reg[id := Restore(backup, source, Awaiting, Some(token), expiresAt, None, false)]
  }

  /** Everything a confirmation must present, apart from a passing preflight. */
  predicate Confirmable(reg: Register, id: RestoreId, token: Token, sameTarget: bool, now: int) {
    && id in reg && reg[id].status == Awaiting && now < reg[id].expiresAt
    && reg[id].token == Some(token) && sameTarget
  }

  function ConfirmedAs(reg: Register, id: RestoreId, source: RestoreSource, now: int): Register
    requires id in reg
  {
    reg[id := reg[id].(status := Authorised, source := source, confirmedAt := Some(now), token := None)]
  }

  function CancelledIn(reg: Register, id: RestoreId): Register {
    if id in reg && (reg[id].status == Awaiting || reg[id].status == Authorised) then
      reg[id := reg[id].(status := Closed(RestoreCancelled), token := None)]
    else reg
  }

  predicate Stale(r: Restore, now: int) { r.status == Awaiting && r.expiresAt <= now }

  function ExpiredIn(reg: Register, now: int): Register {
    map id | id in reg :: if Stale(reg[id], now) then reg[id].(status := Closed(Expired), token := None) else reg[id]
  }

  predicate OldestAuthorised(reg: Register, id: RestoreId) {
    && id in reg && reg[id].status == Authorised
    && forall other :: other in reg && reg[other].status == Authorised ==> id <= other
  }

  function ClosedIn(reg: Register, id: RestoreId, end: RestoreEnd): Register {
    if id in reg then reg[id := reg[id].(status := Closed(end))] else reg
  }

  /** Start-up: an unconfirmed restore is never issued again, a confirmed one is adopted. */
  function RecoveredIn(reg: Register): Register {
    map id | id in reg ::
      if reg[id].status == InProgress && !reg[id].task then reg[id].(status := Closed(RestoreInterrupted)) else reg[id]
  }

  ghost predicate Adopts(reg: Register, ids: seq<RestoreId>) {
    Distinct(ids) && forall id :: id in ids <==> id in reg && reg[id].status == InProgress && reg[id].task
  }

  // ---- what may take an archive away ---------------------------------------------------

  function DbOf(s: Site): Db { Db(s.table, ActiveBackups(s.restores), s.settings, s.contexts) }

  /** One candidate of a retention pass. The agent may have removed the bytes even when its
      answer was lost. */
  function RetainOne(s: Site, trigger: Option<BackupId>, original: Plan, answer: Answer, at: int): Site {
    match Candidate(DbOf(s), trigger, original, answer, at)
    case None => s
    case Some(r) =>
      if Attempted(s, trigger, original) then
        if original.location == Local then s.(table := r.0.table, host := s.host - {original.backup})
        else s.(table := r.0.table, drive := s.drive - {original.backup})
      else s.(table := r.0.table)
  }

  /** The pass asks the agent to delete this copy. */
  function Attempted(s: Site, trigger: Option<BackupId>, original: Plan): bool {
    var db := DbOf(s);
    var p := PolicyOf(db, AS_CONFIGURED, trigger, trigger.Some?);
    match PlansFor(db, p, trigger)
    case None => false
    case Some(plans) => Current(plans, original).wouldDelete && !p.dryRun
  }

  predicate HandDeletable(s: Site, backup: BackupId) {
    && backup in s.table && s.table[backup].status != Running && !s.table[backup].locked
    && backup !in ActiveBackups(s.restores) && s.table[backup].filename.Some?
  }

  function DeletedByHand(r: Record, at: int): Record {
    r.(localDeletedAt := Some(at), status := if RemoteUsable(r) then Success else Deleted)
  }

  function HandDelete(s: Site, backup: BackupId, answered: bool, gone: bool, at: int): Site {
    if !HandDeletable(s, backup) then s
    else if answered then
      s.(host := s.host - {backup}, table := s.table[backup := DeletedByHand(s.table[backup], at)])
    else if gone then s.(host := s.host - {backup})
    else s
  }

  // ---- the worker ----------------------------------------------------------------------

  ghost function StartWorker(s: Site): Site {
    if !s.worker.Off? then s
    else
      var reg := RecoveredIn(s.restores);
      AdoptionExists(reg);
      var ids :| Adopts(reg, ids);
      s.(restores := reg, resume := ids, worker := Free)
  }

  lemma {:induction false} AdoptionExists(reg: Register)
    ensures exists ids :: Adopts(reg, ids)
  {
    var todo := set id | id in reg && reg[id].status == InProgress && reg[id].task;
    var all, ids := todo, [];
    while todo != {}
      invariant Distinct(ids) && forall id :: id in ids <==> id in all && id !in todo
      invariant todo <= all
      decreases todo
    {
      var id :| id in todo;
      todo, ids := todo - {id}, ids + [id];
    }
    assert Adopts(reg, ids);
  }

  ghost function ClaimNext(s: Site): Site {
    if !s.worker.Free? then s
    else if s.resume != [] then s.(worker := Following(s.resume[0]), resume := s.resume[1..])
    else if exists id :: OldestAuthorised(s.restores, id) then
      var id :| OldestAuthorised(s.restores, id);
      s.(restores := s.restores[id := s.restores[id].(status := InProgress)], worker := Claimed(id))
    else s
  }

  /** Close the row at hand; the executor then has only to come to its own end. */
  function CloseRow(s: Site, id: RestoreId, end: RestoreEnd): Site {
    s.(restores := ClosedIn(s.restores, id, end), worker := Leaving(id))
  }

  /** A restore from the drive is downloaded first; without an artifact there is no plan. */
  function LoadPlan(s: Site, artifact: bool): Site {
    if s.worker.Claimed? && s.worker.row in s.restores then
      if !artifact then CloseRow(s, s.worker.row, RestoreFailed)
      else if s.restores[s.worker.row].source == OnDrive then s.(worker := Downloading(s.worker.row))
      else s.(worker := Ready(s.worker.row))
    else s
  }

  /** The archive is back on the host, so its row stops claiming that it is gone. */
  function Fetched(s: Site, fetched: bool): Site {
    if s.worker.Downloading? && s.worker.row in s.restores then
      if !fetched then CloseRow(s, s.worker.row, RestoreFailed)
      else
        var b := s.restores[s.worker.row].backup;
        s.(host := s.host + {b},
           table := if b in s.table then s.table[b := s.table[b].(localDeletedAt := None)] else s.table,
           worker := Ready(s.worker.row))
    else s
  }

  function HearAnswer(s: Site, answer: StartAnswer): Site {
    if s.worker.Sent? then
      match answer
      case Accepted => s.(worker := Told(s.worker.row))
      case Unreachable => CloseRow(s, s.worker.row, RestoreInterrupted)
      case Declined => CloseRow(s, s.worker.row, RestoreFailed)
    else s
  }

  function AttachTask(s: Site): Site {
    if s.worker.Told? && s.worker.row in s.restores then
      s.(restores := s.restores[s.worker.row := s.restores[s.worker.row].(task := true)],
         worker := Following(s.worker.row))
    else s
  }

  // ---- one step ------------------------------------------------------------------------

  ghost function Step(s: Site, e: Event): Site {
    match e
    case Request(backup, checks, id, token, expiresAt) =>
      if id in s.restores || token in s.minted then s
      else
        (match Preflight(s, backup, checks)
         case None => s
         case Some(source) =>
           s.(restores := Requested(s.restores, id, backup, source, token, expiresAt), minted := s.minted + {token}))
    case Confirm(id, token, sameTarget, checks, now) =>
      if !Confirmable(s.restores, id, token, sameTarget, now) then s
      else
        (match Preflight(s, s.restores[id].backup, checks)
         case None => s
         case Some(source) =>
           s.(restores := ConfirmedAs(s.restores, id, source, now), confirmations := s.confirmations + [token]))
    case Cancel(id) => s.(restores := CancelledIn(s.restores, id))
    case Sweep(now) => s.(restores := ExpiredIn(s.restores, now))
    case WorkerStarts => StartWorker(s)
    case WorkerStops => s.(worker := Off, resume := [])
    case Claim => ClaimNext(s)
    case Load(artifact) => LoadPlan(s, artifact)
    case FetchEnds(fetched) => Fetched(s, fetched)
    case SendStart =>
      if s.worker.Ready? then s.(starts := s.starts + [s.worker.row], worker := Sent(s.worker.row)) else s
    case Hear(reply) => HearAnswer(s, reply)
    case Attach => AttachTask(s)
    case Report(end) =>
      if s.worker.Following? && end != Expired then CloseRow(s, s.worker.row, end) else s
    case GiveUp =>
      if s.worker.Following? || s.worker.Downloading? then CloseRow(s, s.worker.row, RestoreInterrupted) else s
    case Leave => if s.worker.Leaving? then s.(worker := Free) else s
    case WorkerFails =>
      if s.worker.Off? || s.worker.Free? then s
      else s.(restores := ClosedIn(s.restores, s.worker.row, RestoreInterrupted), worker := Free)
    case Retain(trigger, original, answer, at) => RetainOne(s, trigger, original, answer, at)
    case DeleteByHand(backup, answered, gone, at) => HandDelete(s, backup, answered, gone, at)
    case Arrive(backup, record) =>
      if backup in s.table || record.status == Deleted then s
      else s.(table := s.table[backup := record], host := if LocalCopy(record) then s.host + {backup} else s.host)
    case Upload(backup, path) =>
      if backup in s.table then
        s.(table := s.table[backup := s.table[backup].(upload := Uploaded, remotePath := Some(path))],
           drive := s.drive + {backup})
      else s
    case Resync(backup, upload) =>
      if backup in s.table then s.(table := s.table[backup := s.table[backup].(upload := upload)]) else s
    case Pin(backup, locked) =>
      if backup in s.table then s.(table := s.table[backup := s.table[backup].(locked := locked)]) else s
    case Configure(settings) => s.(settings := settings)
  }

  const NEW_SITE := Site(map[], Settings(2, 2, false, false, true), map[], map[], {}, {}, Off, [], {}, [], [])

  ghost function Play(events: seq<Event>): Site {
    if events == [] then NEW_SITE else Step(Play(events[..|events| - 1]), events[|events| - 1])
  }
}
