/** The classifier: for each copy of a guest, whether a pass keeps, skips or deletes it. */
module RetentionPlans {
  import opened Prelude
  import opened Listings
  import opened RetentionRows
  import opened RetentionPolicy

  datatype Blocker = MissingRemoteMetadata | UploadIs(upload: Upload)

  datatype Location = Local | Remote

  datatype Action = Kept | DeletedLocal | DeletedRemote | Skipped | ActionFailed

  datatype Reason =
    | RetentionLocked
    | MissingStartedAt
    | WithinKeep(keep: nat)
    | UploadBlocked(blocker: Blocker)
    | ReplacementBlocked(blocker: Blocker)
    | RestoreActive
    | BeyondKeep(keep: nat)
    | RemoteDeletionDisabled
    | RemoteSyncDisabled
    | InvalidRemotePath
    | PolicyUnresolved(reason: BlockReason)
    | CopyGone
    | ReconciledMissing
    | DeletionFailed

  datatype Plan = Plan(backup: BackupId, location: Location, action: Action, reason: Reason, wouldDelete: bool)

  /** The policy snapshot of one evaluation. */
  datatype Policy = Policy(
    keepLocal: nat,
    keepRemote: nat,
    blocked: Option<BlockReason>,
    dryRun: bool,
    gdriveEnabled: bool,
    deleteRemote: bool)

  // ---- one row -------------------------------------------------------------------------

  function UploadBlocker(r: Record): Option<Blocker> {
    if r.upload == NotRequired then None
    else if r.upload == Uploaded && r.remotePath.Some? then None
    else if r.upload == Uploaded then Some(MissingRemoteMetadata)
    else Some(UploadIs(r.upload))
  }

  /** The bytes exist somewhere else, or were never meant to. */
  predicate Replicated(r: Record) {
    r.upload == NotRequired || (r.upload == Uploaded && r.remotePath.Some?)
  }

  /** `remote:path`, split at the first colon. */
  function RemoteTarget(path: string): (target: Option<(string, string)>)
    ensures target.Some? <==> path != "" && path[0] != ':' && ':' in path
    ensures target.Some? ==> target.value.0 + ":" + target.value.1 == path && ':' !in target.value.0
  {
    var k := BeforeColon(path);
    if k == |path| || k == 0 then None else Some((path[..k], path[k + 1..]))
  }

  function BeforeColon(path: string): (k: nat)
    ensures k <= |path| && ':' !in path[..k] && (k < |path| ==> path[k] == ':')
  {
    if path == "" || path[0] == ':' then 0 else 1 + BeforeColon(path[1..])
  }

  predicate HasTarget(r: Record) { r.remotePath.Some? && RemoteTarget(r.remotePath.value).Some? }

  // ---- ranking -------------------------------------------------------------------------

  predicate CanRank(r: Record) { !r.locked && r.startedAt.Some? }

  ghost predicate Known(t: Table, rows: seq<BackupId>) { forall id :: id in rows ==> id in t }

  function Rankable(t: Table, rows: seq<BackupId>): (ranked: seq<BackupId>)
    requires Known(t, rows)
    ensures forall id :: id in ranked <==> id in rows && CanRank(t[id])
  {
    if rows == [] then []
    else (if CanRank(t[rows[0]]) then [rows[0]] else []) + Rankable(t, rows[1..])
  }

  function IndexOf(s: seq<BackupId>, id: BackupId): (k: nat)
    ensures k <= |s| && id !in s[..k] && (k < |s| ==> s[k] == id)
    ensures id in s ==> k < |s|
  {
    if s == [] || s[0] == id then 0 else 1 + IndexOf(s[1..], id)
  }

  function FirstBlocker(t: Table, rows: seq<BackupId>): (b: Option<Blocker>)
    requires Known(t, rows)
    ensures b.None? <==> forall id :: id in rows ==> Replicated(t[id])
  {
    if rows == [] then None
    else if UploadBlocker(t[rows[0]]).Some? then UploadBlocker(t[rows[0]])
    else FirstBlocker(t, rows[1..])
  }

  function Min(a: nat, b: nat): nat { if a <= b then a else b }

  /** The local verdict, from what is known about the row: whether its rank is within the keep
      count, what blocks its own upload, what blocks a replacement's, and whether a restore is
      under way. */
  function JudgeLocal(id: BackupId, r: Record, within: bool, replacement: Option<Blocker>, restoring: bool, keep: nat)
    : Plan
  {
    if r.locked then Plan(id, Local, Skipped, RetentionLocked, false)
    else if r.startedAt.None? then Plan(id, Local, Skipped, MissingStartedAt, false)
    else if within then Plan(id, Local, Kept, WithinKeep(keep), false)
    else if UploadBlocker(r).Some? then Plan(id, Local, Skipped, UploadBlocked(UploadBlocker(r).value), false)
    else if replacement.Some? then Plan(id, Local, Skipped, ReplacementBlocked(replacement.value), false)
    else if restoring then Plan(id, Local, Skipped, RestoreActive, false)
    else Plan(id, Local, DeletedLocal, BeyondKeep(keep), true)
  }

  function JudgeRemote(id: BackupId, r: Record, within: bool, restoring: bool, p: Policy): Plan {
    if r.locked then Plan(id, Remote, Skipped, RetentionLocked, false)
    else if r.startedAt.None? then Plan(id, Remote, Skipped, MissingStartedAt, false)
    else if within then Plan(id, Remote, Kept, WithinKeep(p.keepRemote), false)
    else if !p.deleteRemote then Plan(id, Remote, Skipped, RemoteDeletionDisabled, false)
    else if !p.gdriveEnabled then Plan(id, Remote, Skipped, RemoteSyncDisabled, false)
    else if !HasTarget(r) then Plan(id, Remote, Skipped, InvalidRemotePath, false)
    else if restoring then Plan(id, Remote, Skipped, RestoreActive, false)
    else Plan(id, Remote, DeletedRemote, BeyondKeep(p.keepRemote), true)
  }

  function ReplacementBlocker(t: Table, ranked: seq<BackupId>, keep: nat): Option<Blocker>
    requires Known(t, ranked)
  {
    FirstBlocker(t, ranked[..Min(keep, |ranked|)])
  }

  function LocalVerdict(t: Table, active: set<BackupId>, ranked: seq<BackupId>, keep: nat, id: BackupId): Plan
    requires id in t && Known(t, ranked)
  {
    JudgeLocal(id, t[id], IndexOf(ranked, id) < keep, ReplacementBlocker(t, ranked, keep), id in active, keep)
  }

  function RemoteVerdict(t: Table, active: set<BackupId>, ranked: seq<BackupId>, p: Policy, id: BackupId): Plan
    requires id in t
  {
    JudgeRemote(id, t[id], IndexOf(ranked, id) < p.keepRemote, id in active, p)
  }

  lemma {:induction false} LocalVerdictDeletes(t: Table, active: set<BackupId>, ranked: seq<BackupId>, keep: nat,
                                               id: BackupId)
    requires id in t && Known(t, ranked)
    ensures LocalVerdict(t, active, ranked, keep, id).wouldDelete <==>
      && CanRank(t[id]) && IndexOf(ranked, id) >= keep && Replicated(t[id])
      && ReplacementBlocker(t, ranked, keep).None? && id !in active
  {
  }

  lemma {:induction false} RemoteVerdictDeletes(t: Table, active: set<BackupId>, ranked: seq<BackupId>, p: Policy,
                                                id: BackupId)
    requires id in t
    ensures RemoteVerdict(t, active, ranked, p, id).wouldDelete <==>
      && CanRank(t[id]) && IndexOf(ranked, id) >= p.keepRemote && p.deleteRemote && p.gdriveEnabled
      && HasTarget(t[id]) && id !in active
  {
  }

  function LocalPlans(t: Table, active: set<BackupId>, rows: seq<BackupId>, keep: nat): seq<Plan>
    requires Known(t, rows)
  {
    var ranked := Rankable(t, rows);
    seq(|rows|, i requires 0 <= i < |rows| => LocalVerdict(t, active, ranked, keep, rows[i]))
  }

  function RemotePlans(t: Table, active: set<BackupId>, rows: seq<BackupId>, p: Policy): seq<Plan>
    requires Known(t, rows)
  {
    var ranked := Rankable(t, rows);
    seq(|rows|, i requires 0 <= i < |rows| => RemoteVerdict(t, active, ranked, p, rows[i]))
  }

  lemma VerdictNames(t: Table, active: set<BackupId>, ranked: seq<BackupId>, p: Policy, id: BackupId)
    requires id in t && Known(t, ranked)
    ensures LocalVerdict(t, active, ranked, p.keepLocal, id).backup == id
    ensures LocalVerdict(t, active, ranked, p.keepLocal, id).location == Local
    ensures RemoteVerdict(t, active, ranked, p, id).backup == id
    ensures RemoteVerdict(t, active, ranked, p, id).location == Remote
  {
  }

  lemma PlansFollowRows(t: Table, active: set<BackupId>, rows: seq<BackupId>, p: Policy)
    requires Known(t, rows)
    ensures forall i :: 0 <= i < |rows| ==> LocalPlans(t, active, rows, p.keepLocal)[i].backup == rows[i]
    ensures forall i :: 0 <= i < |rows| ==> LocalPlans(t, active, rows, p.keepLocal)[i].location == Local
    ensures forall i :: 0 <= i < |rows| ==> RemotePlans(t, active, rows, p)[i].backup == rows[i]
    ensures forall i :: 0 <= i < |rows| ==> RemotePlans(t, active, rows, p)[i].location == Remote
  {
    var ranked := Rankable(t, rows);
    var local, remote := LocalPlans(t, active, rows, p.keepLocal), RemotePlans(t, active, rows, p);
    forall i | 0 <= i < |rows|
      ensures local[i].backup == rows[i] && local[i].location == Local
      ensures remote[i].backup == rows[i] && remote[i].location == Remote
    {
      VerdictNames(t, active, ranked, p, rows[i]);
    }
  }

  // ---- the reason given is the true one ------------------------------------------------

  /** What blocks an upload: it never ran, is not over, failed, or left no path. */
  lemma BlockerIsTrue(r: Record)
    ensures UploadBlocker(r) ==
      match r.upload
      case NotRequired => None
      case Uploaded => if r.remotePath.None? then Some(MissingRemoteMetadata) else None
      case _ => Some(UploadIs(r.upload))
    ensures Replicated(r) <==> r.upload == NotRequired || (r.upload == Uploaded && r.remotePath != None)
  {
  }

  /** The blocker reported for the replacements is that of the first one that has any. */
  lemma {:induction false} FirstBlockerIsFirst(t: Table, rows: seq<BackupId>, k: nat)
    requires Known(t, rows) && k < |rows| && UploadBlocker(t[rows[k]]).Some?
    requires forall i :: 0 <= i < k ==> UploadBlocker(t[rows[i]]).None?
    ensures FirstBlocker(t, rows) == UploadBlocker(t[rows[k]])
  {
    if k > 0 { FirstBlockerIsFirst(t, rows[1..], k - 1); }
  }

  /** Whatever a local plan says of a copy is so, and nothing that would have been said first is. */
  lemma {:induction false} LocalReasonIsTrue(t: Table, active: set<BackupId>, ranked: seq<BackupId>, keep: nat,
                                             id: BackupId)
    requires id in t && Known(t, ranked)
    ensures var v, r := LocalVerdict(t, active, ranked, keep, id), t[id];
      var beyond := !r.locked && r.startedAt.Some? && id !in ranked[..Min(keep, |ranked|)] && keep <= |ranked|;
      match v.reason
      case RetentionLocked => v.action == Skipped && r.locked
      case MissingStartedAt => v.action == Skipped && !r.locked && r.startedAt.None?
      case WithinKeep(k) => v.action == Kept && k == keep && !r.locked && r.startedAt.Some? && !beyond
      case UploadBlocked(b) => v.action == Skipped && beyond && UploadBlocker(r) == Some(b)
      case ReplacementBlocked(b) =>
        v.action == Skipped && beyond && Replicated(r) && ReplacementBlocker(t, ranked, keep) == Some(b)
      case RestoreActive =>
        v.action == Skipped && beyond && Replicated(r) && id in active
        && forall n :: n in ranked[..keep] ==> Replicated(t[n])
      case BeyondKeep(k) =>
        v.action == DeletedLocal && v.wouldDelete && k == keep && beyond && Replicated(r) && id !in active
        && forall n :: n in ranked[..keep] ==> Replicated(t[n])
      case _ => false
  {
    BlockerIsTrue(t[id]);
    BeyondRank(ranked, id, keep);
  }

  lemma {:induction false} BeyondRank(ranked: seq<BackupId>, id: BackupId, keep: nat)
    ensures IndexOf(ranked, id) >= keep <==> id !in ranked[..Min(keep, |ranked|)] && keep <= |ranked|
  {
    var k := IndexOf(ranked, id);
    if k < keep && k < |ranked| { assert ranked[..Min(keep, |ranked|)][k] == id; }
    if k >= keep { assert ranked[..keep] == ranked[..k][..keep]; }
  }

  /** The same for a remote plan. */
  lemma {:induction false} RemoteReasonIsTrue(t: Table, active: set<BackupId>, ranked: seq<BackupId>, p: Policy,
                                              id: BackupId)
    requires id in t
    ensures var v, r := RemoteVerdict(t, active, ranked, p, id), t[id];
      var beyond := !r.locked && r.startedAt.Some? && id !in ranked[..Min(p.keepRemote, |ranked|)]
                    && p.keepRemote <= |ranked|;
      match v.reason
      case RetentionLocked => v.action == Skipped && r.locked
      case MissingStartedAt => v.action == Skipped && !r.locked && r.startedAt.None?
      case WithinKeep(k) => v.action == Kept && k == p.keepRemote && !r.locked && r.startedAt.Some? && !beyond
      case RemoteDeletionDisabled => v.action == Skipped && beyond && !p.deleteRemote
      case RemoteSyncDisabled => v.action == Skipped && beyond && p.deleteRemote && !p.gdriveEnabled
      case InvalidRemotePath =>
        v.action == Skipped && beyond && p.deleteRemote && p.gdriveEnabled
        && (r.remotePath.None? || RemoteTarget(r.remotePath.value).None?)
      case RestoreActive =>
        v.action == Skipped && beyond && p.deleteRemote && p.gdriveEnabled && r.remotePath.Some?
        && RemoteTarget(r.remotePath.value).Some? && id in active
      case BeyondKeep(k) =>
        v.action == DeletedRemote && v.wouldDelete && k == p.keepRemote && beyond && p.deleteRemote && p.gdriveEnabled
        && r.remotePath.Some? && RemoteTarget(r.remotePath.value).Some? && id !in active
      case _ => false
  {
    BeyondRank(ranked, id, p.keepRemote);
  }

  function BlockedPlans(rows: seq<BackupId>, location: Location, reason: BlockReason): seq<Plan> {
    seq(|rows|, i requires 0 <= i < |rows| => Plan(rows[i], location, Skipped, PolicyUnresolved(reason), false))
  }

  /** Without an established policy every copy is skipped, for that reason. */
  lemma BlockedRowByRow(rows: seq<BackupId>, location: Location, reason: BlockReason, i: nat)
    requires i < |rows|
    ensures |BlockedPlans(rows, location, reason)| == |rows|
    ensures BlockedPlans(rows, location, reason)[i]
      == Plan(rows[i], location, Skipped, PolicyUnresolved(reason), false)
  {
  }

  // ---- the loops that fill the lists ---------------------------------------------------

  method RankRows(t: Table, rows: seq<BackupId>) returns (ranked: seq<BackupId>, ranks: map<BackupId, nat>)
    requires Known(t, rows) && Distinct(rows)
    ensures ranked == Rankable(t, rows)
    ensures forall id :: id in ranks <==> id in rows && CanRank(t[id])
    ensures forall id :: id in ranks ==> ranks[id] == IndexOf(ranked, id)
  {
    ranked, ranks := [], map[];
    for i := 0 to |rows|
      invariant ranked == Rankable(t, rows[..i])
      invariant ranks.Keys == set id | id in ranked
      invariant forall id :: id in ranks ==> ranks[id] < |ranked| && ranked[ranks[id]] == id
      invariant Distinct(ranked)
    {
      assert rows[..i + 1] == rows[..i] + [rows[i]];
      assert rows[i] !in rows[..i];
      RankableAppend(t, rows[..i], rows[i]);
      if !t[rows[i]].locked && t[rows[i]].startedAt.Some? {
        ranks := ranks[rows[i] := |ranked|];
        ranked := ranked + [rows[i]];
      }
    }
    assert rows[..|rows|] == rows;
    forall id | id in ranks ensures ranks[id] == IndexOf(ranked, id) {
      assert ranked[ranks[id]] == ranked[IndexOf(ranked, id)];
    }
  }

  lemma {:induction false} RankableAppend(t: Table, rows: seq<BackupId>, id: BackupId)
    requires Known(t, rows) && id in t
    ensures Rankable(t, rows + [id]) == Rankable(t, rows) + if CanRank(t[id]) then [id] else []
  {
    if rows == [] {
      assert rows + [id] == [id];
    } else {
      assert (rows + [id])[1..] == rows[1..] + [id];
      RankableAppend(t, rows[1..], id);
    }
  }

  /** The body of the local loop, for one row. */
  method DecideLocal(t: Table, active: set<BackupId>, ranked: seq<BackupId>, rank: nat, keep: nat, id: BackupId)
      returns (plan: Plan)
    requires id in t && Known(t, ranked)
    requires CanRank(t[id]) ==> rank == IndexOf(ranked, id)
    ensures plan == LocalVerdict(t, active, ranked, keep, id)
  {
    var row := t[id];
    if row.locked { return Plan(id, Local, Skipped, RetentionLocked, false); }
    if row.startedAt.None? { return Plan(id, Local, Skipped, MissingStartedAt, false); }
    if rank < keep { return Plan(id, Local, Kept, WithinKeep(keep), false); }
    var blocker := UploadBlocker(row);
    if blocker.Some? { return Plan(id, Local, Skipped, UploadBlocked(blocker.value), false); }
    var replacement := ReplacementBlocker(t, ranked, keep);
    if replacement.Some? { return Plan(id, Local, Skipped, ReplacementBlocked(replacement.value), false); }
    if id in active { return Plan(id, Local, Skipped, RestoreActive, false); }
    return Plan(id, Local, DeletedLocal, BeyondKeep(keep), true);
  }

  /** The plan of one local copy, at its place in the list. */
  method LocalStep(t: Table, active: set<BackupId>, ghost rows: seq<BackupId>, keep: nat, i: nat, id: BackupId,
                   ranked: seq<BackupId>, ranks: map<BackupId, nat>)
      returns (plan: Plan)
    requires Known(t, rows) && ranked == Rankable(t, rows) && i < |rows| && rows[i] == id
    requires forall x :: x in ranks <==> x in rows && CanRank(t[x])
    requires forall x :: x in ranks ==> ranks[x] == IndexOf(ranked, x)
    ensures plan == LocalPlans(t, active, rows, keep)[i]
  {
    var rank := if id in ranks then ranks[id] else 0;
    plan := DecideLocal(t, active, ranked, rank, keep, id);
  }

  method ClassifyLocal(t: Table, active: set<BackupId>, rows: seq<BackupId>, keep: nat) returns (plans: seq<Plan>)
    requires Known(t, rows) && Distinct(rows)
    ensures plans == LocalPlans(t, active, rows, keep)
  {
    var ranked, ranks := RankRows(t, rows);
    ghost var all := LocalPlans(t, active, rows, keep);
    plans := [];
    for i := 0 to |rows|
      invariant plans == all[..i]
    {
      var plan := LocalStep(t, active, rows, keep, i, rows[i], ranked, ranks);
      plans := plans + [plan];
    }
  }

  /** The body of the remote loop, for one row. */
  method DecideRemote(t: Table, active: set<BackupId>, ranked: seq<BackupId>, rank: nat, p: Policy, id: BackupId)
      returns (plan: Plan)
    requires id in t
    requires CanRank(t[id]) ==> rank == IndexOf(ranked, id)
    ensures plan == RemoteVerdict(t, active, ranked, p, id)
  {
    var row := t[id];
    if row.locked { return Plan(id, Remote, Skipped, RetentionLocked, false); }
    if row.startedAt.None? { return Plan(id, Remote, Skipped, MissingStartedAt, false); }
    if rank < p.keepRemote { return Plan(id, Remote, Kept, WithinKeep(p.keepRemote), false); }
    if !p.deleteRemote { return Plan(id, Remote, Skipped, RemoteDeletionDisabled, false); }
    if !p.gdriveEnabled { return Plan(id, Remote, Skipped, RemoteSyncDisabled, false); }
    if !HasTarget(row) { return Plan(id, Remote, Skipped, InvalidRemotePath, false); }
    if id in active { return Plan(id, Remote, Skipped, RestoreActive, false); }
    return Plan(id, Remote, DeletedRemote, BeyondKeep(p.keepRemote), true);
  }

  /** The plan of one remote copy, at its place in the list. */
  method RemoteStep(t: Table, active: set<BackupId>, ghost rows: seq<BackupId>, p: Policy, i: nat, id: BackupId,
                   ranked: seq<BackupId>, ranks: map<BackupId, nat>)
      returns (plan: Plan)
    requires Known(t, rows) && ranked == Rankable(t, rows) && i < |rows| && rows[i] == id
    requires forall x :: x in ranks <==> x in rows && CanRank(t[x])
    requires forall x :: x in ranks ==> ranks[x] == IndexOf(ranked, x)
    ensures plan == RemotePlans(t, active, rows, p)[i]
  {
    var rank := if id in ranks then ranks[id] else 0;
    plan := DecideRemote(t, active, ranked, rank, p, id);
  }

  method ClassifyRemote(t: Table, active: set<BackupId>, rows: seq<BackupId>, p: Policy) returns (plans: seq<Plan>)
    requires Known(t, rows) && Distinct(rows)
    ensures plans == RemotePlans(t, active, rows, p)
  {
    var ranked, ranks := RankRows(t, rows);
    ghost var all := RemotePlans(t, active, rows, p);
    plans := [];
    for i := 0 to |rows|
      invariant plans == all[..i]
    {
      var plan := RemoteStep(t, active, rows, p, i, rows[i], ranked, ranks);
      plans := plans + [plan];
    }
  }
}
