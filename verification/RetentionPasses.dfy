/** A retention pass: plan every copy, then take the candidates one by one, deciding each again
    from the current state before it is deleted. */
module RetentionPasses {
  import opened Prelude
  import opened Listings
  import opened RetentionRows
  import opened RetentionPolicy
  import opened RetentionPlans
  import opened RetentionSafety
  import opened RetentionStability

  datatype Settings = Settings(keepLocal: nat, keepRemote: nat, dryRun: bool, gdriveEnabled: bool, deleteRemote: bool)

  /** What a pass reads: the history, the backups with an active restore, the settings, and the
      provenance of each backup's run. */
  datatype Db = Db(table: Table, active: set<BackupId>, settings: Settings, contexts: map<BackupId, Context>)

  datatype Proposal = Proposal(keepLocal: Option<nat>, keepRemote: Option<nat>, dryRun: Option<bool>)

  const AS_CONFIGURED := Proposal(None, None, None)

  function OrElse<T>(o: Option<T>, d: T): T { if o.Some? then o.value else d }

  function PolicyOf(db: Db, proposal: Proposal, trigger: Option<BackupId>, frozen: bool): Policy {
    var wanted := Counts(OrElse(proposal.keepLocal, db.settings.keepLocal),
                         OrElse(proposal.keepRemote, db.settings.keepRemote));
    var resolution :=
      if frozen && trigger.Some? then
        Resolve(if trigger.value in db.contexts then Some(db.contexts[trigger.value]) else None, wanted)
      else Resolved(wanted, Global);
    Policy(resolution.counts.local, resolution.counts.remote,
           if resolution.Unresolved? then Some(resolution.reason) else None,
           OrElse(proposal.dryRun, db.settings.dryRun), db.settings.gdriveEnabled, db.settings.deleteRemote)
  }

  function GuestPlans(t: Table, active: set<BackupId>, p: Policy, g: Guest): seq<Plan> {
    if p.blocked.Some? then
      BlockedPlans(LocalForGuest(t, g), Local, p.blocked.value)
        + BlockedPlans(RemoteForGuest(t, g), Remote, p.blocked.value)
    else
      LocalPlans(t, active, LocalForGuest(t, g), p.keepLocal) + RemotePlans(t, active, RemoteForGuest(t, g), p)
  }

  function AllPlans(t: Table, active: set<BackupId>, p: Policy, guests: seq<Guest>): seq<Plan> {
    if guests == [] then [] else GuestPlans(t, active, p, guests[0]) + AllPlans(t, active, p, guests[1..])
  }

  /** The guests a pass covers; a trigger that no longer exists is an error. */
  function Covered(t: Table, trigger: Option<BackupId>): Option<seq<Guest>> {
    match trigger
    case None => Some(GuestKeys(t))
    case Some(id) => if id in t then Some([t[id].guest]) else None
  }

  function PlansFor(db: Db, p: Policy, trigger: Option<BackupId>): Option<seq<Plan>> {
    match Covered(db.table, trigger)
    case None => None
    case Some(guests) => Some(AllPlans(db.table, db.active, p, guests))
  }

  // ---- one candidate -------------------------------------------------------------------

  datatype Answer = Removed | AlreadyGone | Refused

  datatype Decision = Decision(backup: BackupId, location: Location, action: Action, reason: Reason,
                               wouldDelete: bool, deleted: bool, reconciled: bool)

  function Rendered(plan: Plan): Decision {
    Decision(plan.backup, plan.location, plan.action, plan.reason, plan.wouldDelete, false, false)
  }

  function Marked(t: Table, plan: Plan, at: int): Table {
    if plan.location == Local then LocalMarked(t, plan.backup, at) else RemoteMarked(t, plan.backup, at)
  }

  /** The plan for the same copy in a later evaluation. */
  function Current(plans: seq<Plan>, original: Plan): Plan {
    if plans == [] then Plan(original.backup, original.location, Skipped, CopyGone, false)
    else if plans[0].backup == original.backup && plans[0].location == original.location then plans[0]
    else Current(plans[1..], original)
  }

  function Delete(db: Db, plan: Plan, answer: Answer, at: int): (Db, Decision) {
    match answer
    case Removed => (db.(table := Marked(db.table, plan, at)), Rendered(plan).(deleted := true))
    case AlreadyGone =>
      (db.(table := Marked(db.table, plan, at)),
       Rendered(plan).(reason := ReconciledMissing, deleted := true, reconciled := true))
    case Refused => (db, Rendered(plan).(action := ActionFailed, reason := DeletionFailed))
  }

  /** Decide one candidate again and act on it; `None` when the trigger has vanished. */
  function Candidate(db: Db, trigger: Option<BackupId>, original: Plan, answer: Answer, at: int)
    : Option<(Db, Decision)>
  {
    var p := PolicyOf(db, AS_CONFIGURED, trigger, trigger.Some?);
    match PlansFor(db, p, trigger)
    case None => None
    case Some(plans) =>
      var plan := Current(plans, original);
      if !plan.wouldDelete || p.dryRun then Some((db, Rendered(plan))) else Some(Delete(db, plan, answer, at))
  }

  /** What is reported of a candidate: what its present plan says, if that deletes nothing any more or
      nothing may be deleted; else what came of the deletion. */
  lemma {:induction false} CandidateReports(db: Db, trigger: Option<BackupId>, original: Plan, answer: Answer, at: int)
    requires Candidate(db, trigger, original, answer, at).Some?
    ensures var p := PolicyOf(db, AS_CONFIGURED, trigger, trigger.Some?);
      var plan := Current(PlansFor(db, p, trigger).value, original);
      var (later, d) := Candidate(db, trigger, original, answer, at).value;
      && d.backup == plan.backup && d.location == plan.location && d.wouldDelete == plan.wouldDelete
      && if !plan.wouldDelete || p.dryRun then
           d.action == plan.action && d.reason == plan.reason && !d.deleted && !d.reconciled && later == db
         else
           match answer
           case Removed => d.action == plan.action && d.reason == plan.reason && d.deleted && !d.reconciled
           case AlreadyGone => d.action == plan.action && d.reason == ReconciledMissing && d.deleted && d.reconciled
           case Refused =>
             d.action == ActionFailed && d.reason == DeletionFailed && !d.deleted && !d.reconciled && later == db
  {
  }

  /** A copy that is planned no more is reported as gone. */
  lemma {:induction false} GoneIsReported(plans: seq<Plan>, original: Plan)
    requires forall plan :: plan in plans ==> plan.backup != original.backup || plan.location != original.location
    ensures Current(plans, original) == Plan(original.backup, original.location, Skipped, CopyGone, false)
  {
    if plans != [] {
      assert plans[0] in plans;
      GoneIsReported(plans[1..], original);
    }
  }

  /** A preview acts on what is proposed, and on the settings for the rest. */
  lemma ProposalRules(db: Db, proposal: Proposal, trigger: Option<BackupId>)
    ensures var p := PolicyOf(db, proposal, trigger, false);
      && p.keepLocal == (match proposal.keepLocal case Some(n) => n case None => db.settings.keepLocal)
      && p.keepRemote == (match proposal.keepRemote case Some(n) => n case None => db.settings.keepRemote)
      && p.dryRun == (match proposal.dryRun case Some(dry) => dry case None => db.settings.dryRun)
      && p.blocked == None && p.gdriveEnabled == db.settings.gdriveEnabled && p.deleteRemote == db.settings.deleteRemote
  {
  }

  // ---- a pass --------------------------------------------------------------------------

  /** What happens around a candidate: what others changed before it, what the agent answered. */
  datatype Moment = Moment(others: Db -> Db, answer: Answer, at: int)

  datatype Outcome = Finished(db: Db, decisions: seq<Decision>) | TriggerGone(db: Db)

  /** Candidates in order; `moments(n)` surrounds the n-th of them. */
  function Sweep(db: Db, trigger: Option<BackupId>, candidates: seq<Plan>, moments: nat -> Moment, n: nat): Outcome
    decreases |candidates|
  {
    if candidates == [] then Finished(db, [])
    else
      var now := moments(n).others(db);
      match Candidate(now, trigger, candidates[0], moments(n).answer, moments(n).at)
      case None => TriggerGone(now)
      case Some(r) =>
        match Sweep(r.0, trigger, candidates[1..], moments, n + 1)
        case TriggerGone(last) => TriggerGone(last)
        case Finished(last, rest) => Finished(last, [r.1] + rest)
  }

  /** The plans that go on to be revalidated. */
  function Candidates(plans: seq<Plan>): seq<Plan> {
    if plans == [] then [] else (if plans[0].wouldDelete then [plans[0]] else []) + Candidates(plans[1..])
  }

  /** One decision per plan, in the order of the plans: a static one is rendered at once, a
      candidate takes the next of the sweep's decisions. */
  function Merge(plans: seq<Plan>, decided: seq<Decision>): (items: seq<Decision>)
    requires |decided| == |Candidates(plans)|
    ensures |items| == |plans|
  {
    if plans == [] then []
    else if plans[0].wouldDelete then [decided[0]] + Merge(plans[1..], decided[1..])
    else [Rendered(plans[0])] + Merge(plans[1..], decided)
  }

  // ---- safety at the moment of a deletion ----------------------------------------------

  ghost predicate Copies(t: Table, plan: Plan) {
    plan.backup in t && (if plan.location == Local then LocalCopy(t[plan.backup]) else RemoteCopy(t[plan.backup]))
  }

  ghost predicate MayDelete(t: Table, active: set<BackupId>, p: Policy, plan: Plan) {
    && p.blocked.None?
    && if plan.location == Local then MayDeleteLocal(t, active, p.keepLocal, plan.backup)
       else MayDeleteRemote(t, active, p, plan.backup)
  }

  lemma LocalPlanIsSafe(t: Table, active: set<BackupId>, p: Policy, g: Guest, plan: Plan)
    requires Known(t, LocalForGuest(t, g))
    requires plan in LocalPlans(t, active, LocalForGuest(t, g), p.keepLocal)
    ensures plan.location == Local && plan.backup in LocalIds(t, g)
    ensures plan.wouldDelete <==> MayDeleteLocal(t, active, p.keepLocal, plan.backup)
  {
    var rows := LocalForGuest(t, g);
    var plans := LocalPlans(t, active, rows, p.keepLocal);
    PlansFollowRows(t, active, rows, p);
    var i :| 0 <= i < |rows| && plans[i] == plan;
    assert rows[i] in rows;
    LocalDeletionIff(t, active, p.keepLocal, rows[i]);
  }

  lemma RemotePlanIsSafe(t: Table, active: set<BackupId>, p: Policy, g: Guest, plan: Plan)
    requires Known(t, RemoteForGuest(t, g))
    requires plan in RemotePlans(t, active, RemoteForGuest(t, g), p)
    ensures plan.location == Remote && plan.backup in RemoteIds(t, g)
    ensures plan.wouldDelete <==> MayDeleteRemote(t, active, p, plan.backup)
  {
    var rows := RemoteForGuest(t, g);
    var plans := RemotePlans(t, active, rows, p);
    PlansFollowRows(t, active, rows, p);
    var i :| 0 <= i < |rows| && plans[i] == plan;
    assert rows[i] in rows;
    RemoteDeletionIff(t, active, p, rows[i]);
  }

  lemma BlockedPlanIsSafe(rows: seq<BackupId>, location: Location, reason: BlockReason, plan: Plan)
    requires plan in BlockedPlans(rows, location, reason)
    ensures plan.location == location && plan.backup in rows && !plan.wouldDelete
  {
  }

  lemma ListingsKnown(t: Table, g: Guest)
    ensures Known(t, LocalForGuest(t, g)) && Known(t, RemoteForGuest(t, g))
  {
  }

  lemma GuestPlanIsSafe(t: Table, active: set<BackupId>, p: Policy, g: Guest, plan: Plan)
    requires plan in GuestPlans(t, active, p, g)
    ensures Copies(t, plan) && t[plan.backup].guest == g
    ensures plan.wouldDelete <==> MayDelete(t, active, p, plan)
  {
    var local, remote := LocalForGuest(t, g), RemoteForGuest(t, g);
    if p.blocked.Some? {
      if plan in BlockedPlans(local, Local, p.blocked.value) { BlockedPlanIsSafe(local, Local, p.blocked.value, plan); }
      else { BlockedPlanIsSafe(remote, Remote, p.blocked.value, plan); }
    } else {
      ListingsKnown(t, g);
      if plan in LocalPlans(t, active, local, p.keepLocal) { LocalPlanIsSafe(t, active, p, g, plan); }
      else { RemotePlanIsSafe(t, active, p, g, plan); }
    }
  }

  lemma {:induction false} PlanHasGuest(t: Table, active: set<BackupId>, p: Policy, guests: seq<Guest>, plan: Plan)
    requires plan in AllPlans(t, active, p, guests)
    ensures exists g :: g in guests && plan in GuestPlans(t, active, p, g)
  {
    if plan in GuestPlans(t, active, p, guests[0]) {
      assert guests[0] in guests;
    } else {
      PlanHasGuest(t, active, p, guests[1..], plan);
    }
  }

  lemma {:induction false} CurrentIsPlanned(plans: seq<Plan>, original: Plan)
    ensures var c := Current(plans, original);
      c.backup == original.backup && c.location == original.location && (c.wouldDelete ==> c in plans)
  {
    if plans != [] { CurrentIsPlanned(plans[1..], original); }
  }

  lemma PlanIsSafe(db: Db, p: Policy, trigger: Option<BackupId>, plan: Plan)
    requires PlansFor(db, p, trigger).Some? && plan in PlansFor(db, p, trigger).value
    ensures Copies(db.table, plan) && (plan.wouldDelete <==> MayDelete(db.table, db.active, p, plan))
  {
    var guests := Covered(db.table, trigger).value;
    PlanHasGuest(db.table, db.active, p, guests, plan);
    var g :| g in guests && plan in GuestPlans(db.table, db.active, p, g);
    GuestPlanIsSafe(db.table, db.active, p, g, plan);
  }

  /** Whatever was true when the pass was planned, a copy is deleted only if, in the state and
      under the policy of that very moment, every condition for deleting it holds; and then
      nothing else changes. */
  lemma DeletionIsSafe(db: Db, trigger: Option<BackupId>, original: Plan, answer: Answer, at: int)
    requires Candidate(db, trigger, original, answer, at).Some?
    ensures var p := PolicyOf(db, AS_CONFIGURED, trigger, trigger.Some?);
      var (after, decision) := Candidate(db, trigger, original, answer, at).value;
      && decision.backup == original.backup && decision.location == original.location
      && (decision.deleted ==> !p.dryRun && MayDelete(db.table, db.active, p, original) && Copies(db.table, original)
                               && after == db.(table := Marked(db.table, original, at)))
      && (!decision.deleted ==> after == db)
  {
    var p := PolicyOf(db, AS_CONFIGURED, trigger, trigger.Some?);
    var plans := PlansFor(db, p, trigger).value;
    var plan := Current(plans, original);
    CurrentIsPlanned(plans, original);
    if plan.wouldDelete { PlanIsSafe(db, p, trigger, plan); }
  }

  /** The keep counts cannot be established. */
  predicate IsUnresolved(db: Db, trigger: Option<BackupId>) {
    PolicyOf(db, AS_CONFIGURED, trigger, trigger.Some?).blocked.Some?
  }

  lemma UnresolvedKeeps(db: Db, trigger: Option<BackupId>, original: Plan, answer: Answer, at: int)
    requires IsUnresolved(db, trigger) && Candidate(db, trigger, original, answer, at).Some?
    ensures Candidate(db, trigger, original, answer, at).value.0 == db
    ensures !Candidate(db, trigger, original, answer, at).value.1.deleted
  {
    DeletionIsSafe(db, trigger, original, answer, at);
  }

  /** What others do around `k` candidates, with the pass itself doing nothing. */
  function OthersAlone(db: Db, moments: nat -> Moment, n: nat, k: nat): Db
    decreases k
  {
    if k == 0 then db else OthersAlone(moments(n).others(db), moments, n + 1, k - 1)
  }

  ghost predicate StaysUnresolved(others: Db -> Db, trigger: Option<BackupId>) {
    forall db :: IsUnresolved(db, trigger) ==> IsUnresolved(others(db), trigger)
  }

  /** Nothing in this outcome is the pass's own doing. */
  ghost predicate DoneByOthers(out: Outcome, db: Db, moments: nat -> Moment, n: nat, most: nat) {
    && (out.Finished? ==> forall d :: d in out.decisions ==> !d.deleted)
    && exists k: nat :: k <= most && out.db == OthersAlone(db, moments, n, k)
  }

  /** A sweep in terms of its first candidate and the rest. */
  function Continued(first: Decision, rest: Outcome): Outcome {
    match rest
    case TriggerGone(last) => TriggerGone(last)
    case Finished(last, decisions) => Finished(last, [first] + decisions)
  }

  lemma SweepBegins(db: Db, trigger: Option<BackupId>, candidates: seq<Plan>, moments: nat -> Moment, n: nat)
    requires candidates != []
    ensures var now := moments(n).others(db);
      var r := Candidate(now, trigger, candidates[0], moments(n).answer, moments(n).at);
      Sweep(db, trigger, candidates, moments, n)
        == if r.None? then TriggerGone(now)
          else Continued(r.value.1, Sweep(r.value.0, trigger, candidates[1..], moments, n + 1))
  {
  }

  lemma OthersGoOn(first: Decision, rest: Outcome, db: Db, moments: nat -> Moment, n: nat, most: nat)
    requires DoneByOthers(rest, moments(n).others(db), moments, n + 1, most) && !first.deleted
    ensures DoneByOthers(Continued(first, rest), db, moments, n, most + 1)
  {
    var k: nat :| k <= most && rest.db == OthersAlone(moments(n).others(db), moments, n + 1, k);
    assert rest.db == OthersAlone(db, moments, n, k + 1);
  }

  /** As long as its policy cannot be established, a pass deletes nothing, whatever it set out to
      delete: all that happens is what others do. */
  lemma {:induction false} UnresolvedDeletesNothing(db: Db, trigger: Option<BackupId>, candidates: seq<Plan>,
                                                    moments: nat -> Moment, n: nat)
    requires IsUnresolved(db, trigger) && forall k: nat :: StaysUnresolved(moments(k).others, trigger)
    ensures DoneByOthers(Sweep(db, trigger, candidates, moments, n), db, moments, n, |candidates|)
    decreases |candidates|
  {
    if candidates == [] {
      assert OthersAlone(db, moments, n, 0) == db;
    } else {
      var now := moments(n).others(db);
      assert StaysUnresolved(moments(n).others, trigger);
      SweepBegins(db, trigger, candidates, moments, n);
      var r := Candidate(now, trigger, candidates[0], moments(n).answer, moments(n).at);
      if r.Some? {
        UnresolvedKeeps(now, trigger, candidates[0], moments(n).answer, moments(n).at);
        UnresolvedDeletesNothing(now, trigger, candidates[1..], moments, n + 1);
        OthersGoOn(r.value.1, Sweep(now, trigger, candidates[1..], moments, n + 1), db, moments, n, |candidates[1..]|);
      } else {
        assert OthersAlone(db, moments, n, 1) == OthersAlone(now, moments, n + 1, 0) == now;
      }
    }
  }

  // ---- the last copy -------------------------------------------------------------------

  /** A guest that has a local copy, in a history retention may be let loose on. */
  ghost predicate HasLocal(db: Db, g: Guest) {
    WellFormed(db.table) && db.settings.keepLocal >= 1 && LocalIds(db.table, g) != {}
  }

  lemma KeepCountIsPositive(db: Db, trigger: Option<BackupId>)
    requires db.settings.keepLocal >= 1
    ensures PolicyOf(db, AS_CONFIGURED, trigger, trigger.Some?).keepLocal >= 1
  {
  }

  lemma NewestRemains(t: Table, active: set<BackupId>, keep: nat, id: BackupId)
    requires keep >= 1 && MayDeleteLocal(t, active, keep, id)
    ensures LocalIds(t, t[id].guest) - {id} != {}
  {
    var newest :| NewestOf(t, Contenders(t, LocalIds(t, t[id].guest)), keep, newest) && id !in newest
      && AllReplicated(t, newest);
    var n :| n in newest;
    assert n in LocalIds(t, t[id].guest) - {id};
  }

  lemma CandidateKeepsLast(db: Db, trigger: Option<BackupId>, original: Plan, answer: Answer, at: int, g: Guest)
    requires HasLocal(db, g) && Candidate(db, trigger, original, answer, at).Some?
    ensures HasLocal(Candidate(db, trigger, original, answer, at).value.0, g)
  {
    var p := PolicyOf(db, AS_CONFIGURED, trigger, trigger.Some?);
    DeletionIsSafe(db, trigger, original, answer, at);
    KeepCountIsPositive(db, trigger);
    if Candidate(db, trigger, original, answer, at).value.1.deleted {
      if original.location == Local {
        LocalMarking(db.table, original.backup, at);
        NewestRemains(db.table, db.active, p.keepLocal, original.backup);
        assert g != db.table[original.backup].guest ==> original.backup !in LocalIds(db.table, g);
      } else {
        RemoteMarking(db.table, original.backup, at);
      }
    }
  }

  ghost predicate Spares(others: Db -> Db, g: Guest) {
    forall db :: HasLocal(db, g) ==> HasLocal(others(db), g)
  }

  /** Others may do as they like between deletions, as long as it is not they who take the last
      local copy: retention never does. */
  lemma {:induction false} LastLocalCopySurvives(db: Db, trigger: Option<BackupId>, candidates: seq<Plan>,
                                                 moments: nat -> Moment, n: nat, g: Guest)
    requires HasLocal(db, g) && forall k: nat :: Spares(moments(k).others, g)
    ensures HasLocal(Sweep(db, trigger, candidates, moments, n).db, g)
    decreases |candidates|
  {
    if candidates != [] {
      var now := moments(n).others(db);
      assert Spares(moments(n).others, g);
      SweepOne(db, trigger, candidates, moments, n);
      var r := Candidate(now, trigger, candidates[0], moments(n).answer, moments(n).at);
      if r.Some? {
        CandidateKeepsLast(now, trigger, candidates[0], moments(n).answer, moments(n).at, g);
        LastLocalCopySurvives(r.value.0, trigger, candidates[1..], moments, n + 1, g);
      }
    }
  }

  lemma SweepOne(db: Db, trigger: Option<BackupId>, candidates: seq<Plan>, moments: nat -> Moment, n: nat)
    requires candidates != []
    ensures var now := moments(n).others(db);
      var r := Candidate(now, trigger, candidates[0], moments(n).answer, moments(n).at);
      Sweep(db, trigger, candidates, moments, n).db
        == if r.None? then now else Sweep(r.value.0, trigger, candidates[1..], moments, n + 1).db
  {
  }

  // ---- one deletion, all plans ---------------------------------------------------------

  lemma {:induction false} LocalDeletionStays(t: Table, active: set<BackupId>, p: Policy, g: Guest, plan: Plan, at: int)
    requires WellFormed(t) && Known(t, LocalForGuest(t, g)) && plan.wouldDelete
    requires plan in LocalPlans(t, active, LocalForGuest(t, g), p.keepLocal)
    ensures var u := LocalMarked(t, plan.backup, at);
      && Known(u, LocalForGuest(u, g))
      && LocalPlans(u, active, LocalForGuest(u, g), p.keepLocal)
         == Without(LocalPlans(t, active, LocalForGuest(t, g), p.keepLocal), plan)
  {
    var u, rows := LocalMarked(t, plan.backup, at), LocalForGuest(t, g);
    var plans := LocalPlans(t, active, rows, p.keepLocal);
    LocalPlanIsSafe(t, active, p, g, plan);
    PlansFollowRows(t, active, rows, p);
    var k :| 0 <= k < |rows| && plans[k] == plan;
    LocalVerdictDeletes(t, active, Rankable(t, rows), p.keepLocal, rows[k]);
    assert rows[k] in rows;
    LocalMarking(t, plan.backup, at);
    LocalListing(t, u, g, plan.backup);
    AscendingIsDistinct(t, rows);
    LocalPlansStay(t, u, active, rows, p, k);
  }

  lemma {:induction false} RemoteDeletionStays(t: Table, active: set<BackupId>, p: Policy, g: Guest, plan: Plan,
                                               at: int)
    requires WellFormed(t) && Known(t, RemoteForGuest(t, g)) && plan.wouldDelete
    requires plan in RemotePlans(t, active, RemoteForGuest(t, g), p)
    ensures var u := RemoteMarked(t, plan.backup, at);
      && Known(u, RemoteForGuest(u, g))
      && RemotePlans(u, active, RemoteForGuest(u, g), p)
        == Without(RemotePlans(t, active, RemoteForGuest(t, g), p), plan)
  {
    var u, rows := RemoteMarked(t, plan.backup, at), RemoteForGuest(t, g);
    var plans := RemotePlans(t, active, rows, p);
    RemotePlanIsSafe(t, active, p, g, plan);
    PlansFollowRows(t, active, rows, p);
    var k :| 0 <= k < |rows| && plans[k] == plan;
    RemoteVerdictDeletes(t, active, Rankable(t, rows), p, rows[k]);
    assert rows[k] in rows;
    RemoteMarking(t, plan.backup, at);
    RemoteListing(t, u, g, plan.backup);
    AscendingIsDistinct(t, rows);
    RemotePlansStay(t, u, active, rows, p, k);
  }

  /** A listing the deletion does not touch is classified as before. */
  lemma UntouchedStays(t: Table, u: Table, active: set<BackupId>, p: Policy, g: Guest)
    requires SameFacts(t, u) && Known(t, LocalForGuest(t, g)) && Known(t, RemoteForGuest(t, g))
    ensures LocalIds(u, g) == LocalIds(t, g) ==>
      LocalForGuest(u, g) == LocalForGuest(t, g) && Known(u, LocalForGuest(u, g))
      && LocalPlans(u, active, LocalForGuest(u, g), p.keepLocal)
        == LocalPlans(t, active, LocalForGuest(t, g), p.keepLocal)
    ensures RemoteIds(u, g) == RemoteIds(t, g) ==>
      RemoteForGuest(u, g) == RemoteForGuest(t, g) && Known(u, RemoteForGuest(u, g))
      && RemotePlans(u, active, RemoteForGuest(u, g), p) == RemotePlans(t, active, RemoteForGuest(t, g), p)
  {
    SameStarts(t, u);
    PlansSame(t, u, active, LocalForGuest(t, g), p);
    PlansSame(t, u, active, RemoteForGuest(t, g), p);
  }

  lemma Located(t: Table, active: set<BackupId>, p: Policy, g: Guest, plan: Plan)
    requires p.blocked.None? && plan in GuestPlans(t, active, p, g)
    ensures Known(t, LocalForGuest(t, g)) && Known(t, RemoteForGuest(t, g))
    ensures plan in LocalPlans(t, active, LocalForGuest(t, g), p.keepLocal) <==> plan.location == Local
    ensures plan in RemotePlans(t, active, RemoteForGuest(t, g), p) <==> plan.location == Remote
  {
    ListingsKnown(t, g);
    PlansFollowRows(t, active, LocalForGuest(t, g), p);
    PlansFollowRows(t, active, RemoteForGuest(t, g), p);
  }

  lemma {:induction false} GuestPlansStay(t: Table, active: set<BackupId>, p: Policy, g: Guest, plan: Plan, at: int)
    requires WellFormed(t) && plan in GuestPlans(t, active, p, g) && plan.wouldDelete
    ensures GuestPlans(Marked(t, plan, at), active, p, g) == Without(GuestPlans(t, active, p, g), plan)
  {
    GuestPlanIsSafe(t, active, p, g, plan);
    Located(t, active, p, g, plan);
    var u := Marked(t, plan, at);
    var locals := LocalPlans(t, active, LocalForGuest(t, g), p.keepLocal);
    var remotes := RemotePlans(t, active, RemoteForGuest(t, g), p);
    WithoutConcat(locals, remotes, plan);
    if plan.location == Local {
      LocalMarking(t, plan.backup, at);
      LocalDeletionStays(t, active, p, g, plan, at);
      UntouchedStays(t, u, active, p, g);
      WithoutAbsent(remotes, plan);
    } else {
      RemoteMarking(t, plan.backup, at);
      RemoteDeletionStays(t, active, p, g, plan, at);
      UntouchedStays(t, u, active, p, g);
      WithoutAbsent(locals, plan);
    }
  }

  lemma MarkingKeeps(t: Table, plan: Plan, at: int)
    requires WellFormed(t) && Copies(t, plan)
    ensures WellFormed(Marked(t, plan, at)) && SameFacts(t, Marked(t, plan, at))
    ensures forall g :: g != t[plan.backup].guest ==>
      LocalIds(Marked(t, plan, at), g) == LocalIds(t, g) && RemoteIds(Marked(t, plan, at), g) == RemoteIds(t, g)
  {
    if plan.location == Local { LocalMarking(t, plan.backup, at); } else { RemoteMarking(t, plan.backup, at); }
    forall g | g != t[plan.backup].guest
      ensures LocalIds(Marked(t, plan, at), g) == LocalIds(t, g) && RemoteIds(Marked(t, plan, at), g) == RemoteIds(t, g)
    {
      assert plan.backup !in LocalIds(t, g) && plan.backup !in RemoteIds(t, g);
    }
  }

  lemma OtherGuestStays(t: Table, active: set<BackupId>, p: Policy, g: Guest, plan: Plan, at: int)
    requires WellFormed(t) && Copies(t, plan) && g != t[plan.backup].guest && p.blocked.None?
    ensures GuestPlans(Marked(t, plan, at), active, p, g) == GuestPlans(t, active, p, g)
    ensures plan !in GuestPlans(t, active, p, g)
  {
    MarkingKeeps(t, plan, at);
    ListingsKnown(t, g);
    UntouchedStays(t, Marked(t, plan, at), active, p, g);
    if plan in GuestPlans(t, active, p, g) { GuestPlanIsSafe(t, active, p, g, plan); }
  }
}
