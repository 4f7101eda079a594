/** Preview and apply agree, and a second pass finds nothing left to delete. */
module RetentionAgreement {
  import opened Prelude
  import opened Listings
  import opened RetentionRows
  import opened RetentionPolicy
  import opened RetentionPlans
  import opened RetentionSafety
  import opened RetentionStability
  import opened RetentionPasses

  // ---- one deletion, every guest -------------------------------------------------------

  lemma {:induction false} OtherGuestsStay(t: Table, active: set<BackupId>, p: Policy, guests: seq<Guest>, plan: Plan,
                                           at: int)
    requires WellFormed(t) && Copies(t, plan) && p.blocked.None? && t[plan.backup].guest !in guests
    ensures AllPlans(Marked(t, plan, at), active, p, guests) == AllPlans(t, active, p, guests)
    ensures plan !in AllPlans(t, active, p, guests)
  {
    if guests != [] {
      OtherGuestStays(t, active, p, guests[0], plan, at);
      OtherGuestsStay(t, active, p, guests[1..], plan, at);
    }
  }

  lemma {:induction false} OwnGuestStays(t: Table, active: set<BackupId>, p: Policy, guests: seq<Guest>, plan: Plan,
                                         at: int)
    requires WellFormed(t) && Copies(t, plan) && p.blocked.None? && plan.wouldDelete
    requires Distinct(guests) && t[plan.backup].guest in guests
    requires plan in GuestPlans(t, active, p, t[plan.backup].guest)
    ensures AllPlans(Marked(t, plan, at), active, p, guests) == Without(AllPlans(t, active, p, guests), plan)
  {
    var head, tail := GuestPlans(t, active, p, guests[0]), AllPlans(t, active, p, guests[1..]);
    WithoutConcat(head, tail, plan);
    if guests[0] == t[plan.backup].guest {
      assert guests[0] !in guests[1..];
      GuestPlansStay(t, active, p, guests[0], plan, at);
      OtherGuestsStay(t, active, p, guests[1..], plan, at);
      WithoutAbsent(tail, plan);
    } else {
      OtherGuestStays(t, active, p, guests[0], plan, at);
      WithoutAbsent(head, plan);
      OwnGuestStays(t, active, p, guests[1..], plan, at);
    }
  }

  /** A deletion removes its own plan from the list, and changes no other. */
  lemma {:induction false} AllPlansStay(t: Table, active: set<BackupId>, p: Policy, guests: seq<Guest>, plan: Plan,
                                        at: int)
    requires WellFormed(t) && Distinct(guests) && plan in AllPlans(t, active, p, guests) && plan.wouldDelete
    ensures p.blocked.None? && Copies(t, plan)
    ensures AllPlans(Marked(t, plan, at), active, p, guests) == Without(AllPlans(t, active, p, guests), plan)
  {
    PlanHasGuest(t, active, p, guests, plan);
    var g :| g in guests && plan in GuestPlans(t, active, p, g);
    GuestPlanIsSafe(t, active, p, g, plan);
    OwnGuestStays(t, active, p, guests, plan, at);
  }

  // ---- the guests covered --------------------------------------------------------------

  lemma GuestHasCopies(t: Table, g: Guest)
    ensures g in GuestsWithCopies(t) <==> LocalIds(t, g) + RemoteIds(t, g) != {}
  {
    if LocalIds(t, g) + RemoteIds(t, g) != {} {
      var id :| id in LocalIds(t, g) + RemoteIds(t, g);
      assert t[id].guest == g;
    }
    if g in GuestsWithCopies(t) {
      var id :| id in t && (LocalCopy(t[id]) || RemoteCopy(t[id])) && t[id].guest == g;
      assert id in LocalIds(t, g) + RemoteIds(t, g);
    }
  }

  lemma EmptyGuestPlans(t: Table, active: set<BackupId>, p: Policy, g: Guest)
    requires g !in GuestsWithCopies(t)
    ensures GuestPlans(t, active, p, g) == []
  {
    GuestHasCopies(t, g);
    HasMember(LocalForGuest(t, g));
    HasMember(RemoteForGuest(t, g));
  }

  lemma {:induction false} AllPlansWithoutGuest(t: Table, active: set<BackupId>, p: Policy, guests: seq<Guest>,
                                                g: Guest)
    requires GuestPlans(t, active, p, g) == []
    ensures AllPlans(t, active, p, Without(guests, g)) == AllPlans(t, active, p, guests)
  {
    if guests != [] {
      AllPlansWithoutGuest(t, active, p, guests[1..], g);
      if guests[0] != g {
        assert Without(guests, g) == [guests[0]] + Without(guests[1..], g);
        assert Without(guests, g)[1..] == Without(guests[1..], g);
      } else {
        assert Without(guests, g) == Without(guests[1..], g);
      }
    }
  }

  /** A guest that loses its last copy leaves the list of guests, and had no plans left. */
  lemma {:induction false} GuestsAfter(t: Table, active: set<BackupId>, p: Policy, plan: Plan, at: int)
    requires WellFormed(t) && Copies(t, plan)
    ensures var u := Marked(t, plan, at);
      AllPlans(u, active, p, GuestKeys(u)) == AllPlans(u, active, p, GuestKeys(t))
  {
    var u, g := Marked(t, plan, at), t[plan.backup].guest;
    MarkingKeeps(t, plan, at);
    forall other | other != g ensures other in GuestsWithCopies(u) <==> other in GuestsWithCopies(t) {
      GuestHasCopies(t, other);
      GuestHasCopies(u, other);
    }
    GuestOrderIsTotal();
    if g in GuestsWithCopies(u) {
      GuestHasCopies(t, g);
      assert plan.backup in LocalIds(t, g) + RemoteIds(t, g);
      ListingUnique(GuestKeys(u), GuestKeys(t), GuestOrder());
    } else {
      EmptyGuestPlans(u, active, p, g);
      assert GuestsWithCopies(u) == GuestsWithCopies(t) - {g};
      ListingWithout(GuestsWithCopies(t), g, GuestOrder());
      AllPlansWithoutGuest(u, active, p, GuestKeys(t), g);
    }
  }

  lemma CoveredIsDistinct(t: Table, trigger: Option<BackupId>)
    requires Covered(t, trigger).Some?
    ensures Distinct(Covered(t, trigger).value)
  {
    GuestOrderIsTotal();
  }

  /** Each deletion leaves every remaining copy's classification unchanged. */
  lemma {:induction false} PlansStay(db: Db, p: Policy, trigger: Option<BackupId>, plan: Plan, at: int)
    requires WellFormed(db.table) && PlansFor(db, p, trigger).Some?
    requires plan in PlansFor(db, p, trigger).value && plan.wouldDelete
    ensures Copies(db.table, plan)
    ensures var later := db.(table := Marked(db.table, plan, at));
      WellFormed(later.table) && PlansFor(later, p, trigger) == Some(Without(PlansFor(db, p, trigger).value, plan))
  {
    CoveredIsDistinct(db.table, trigger);
    AllPlansStay(db.table, db.active, p, Covered(db.table, trigger).value, plan, at);
    MarkingKeeps(db.table, plan, at);
    if trigger.None? { GuestsAfter(db.table, db.active, p, plan, at); }
  }

  // ---- plans are told apart by copy ----------------------------------------------------

  ghost predicate SameCopy(a: Plan, b: Plan) { a.backup == b.backup && a.location == b.location }

  ghost predicate OnePerCopy(plans: seq<Plan>) {
    forall i, j :: 0 <= i < j < |plans| ==> !SameCopy(plans[i], plans[j])
  }

  lemma FollowingIsDistinct(rows: seq<BackupId>, plans: seq<Plan>, location: Location)
    requires Distinct(rows) && |plans| == |rows|
    requires forall i :: 0 <= i < |rows| ==> plans[i].backup == rows[i]
    requires forall i :: 0 <= i < |rows| ==> plans[i].location == location
    ensures OnePerCopy(plans) && forall plan :: plan in plans ==> plan.location == location
  {
  }

  lemma GuestPlansDistinct(t: Table, active: set<BackupId>, p: Policy, g: Guest)
    ensures OnePerCopy(GuestPlans(t, active, p, g))
  {
    var local, remote := LocalForGuest(t, g), RemoteForGuest(t, g);
    AscendingIsDistinct(t, local);
    AscendingIsDistinct(t, remote);
    ListingsKnown(t, g);
    PlansFollowRows(t, active, local, p);
    PlansFollowRows(t, active, remote, p);
    var locals := if p.blocked.Some? then BlockedPlans(local, Local, p.blocked.value)
      else LocalPlans(t, active, local, p.keepLocal);
    var remotes := if p.blocked.Some? then BlockedPlans(remote, Remote, p.blocked.value)
      else RemotePlans(t, active, remote, p);
    FollowingIsDistinct(local, locals, Local);
    FollowingIsDistinct(remote, remotes, Remote);
    OnePerCopyConcat(locals, remotes);
  }

  lemma {:induction false} AllPlansDistinct(t: Table, active: set<BackupId>, p: Policy, guests: seq<Guest>)
    requires Distinct(guests)
    ensures OnePerCopy(AllPlans(t, active, p, guests))
  {
    if guests != [] {
      var head, tail := GuestPlans(t, active, p, guests[0]), AllPlans(t, active, p, guests[1..]);
      GuestPlansDistinct(t, active, p, guests[0]);
      AllPlansDistinct(t, active, p, guests[1..]);
      forall a, b | a in head && b in tail ensures !SameCopy(a, b) {
        PlanHasGuest(t, active, p, guests[1..], b);
        var g :| g in guests[1..] && b in GuestPlans(t, active, p, g);
        GuestPlanIsSafe(t, active, p, guests[0], a);
        GuestPlanIsSafe(t, active, p, g, b);
      }
      OnePerCopyConcat(head, tail);
    }
  }

  lemma OnePerCopyConcat(head: seq<Plan>, tail: seq<Plan>)
    requires OnePerCopy(head) && OnePerCopy(tail)
    requires forall a, b :: a in head && b in tail ==> !SameCopy(a, b)
    ensures OnePerCopy(head + tail)
  {
    var all := head + tail;
    forall i, j | 0 <= i < j < |all| ensures !SameCopy(all[i], all[j]) {
      if i < |head| <= j { assert all[i] in head && all[j] in tail; }
    }
  }

  lemma {:induction false} CurrentFinds(plans: seq<Plan>, plan: Plan)
    requires OnePerCopy(plans) && plan in plans
    ensures Current(plans, plan) == plan
  {
    var k :| 0 <= k < |plans| && plans[k] == plan;
    if k > 0 {
      assert !SameCopy(plans[0], plans[k]);
      assert plans[1..][k - 1] == plan;
      CurrentFinds(plans[1..], plan);
    }
  }

  // ---- candidates and statics ----------------------------------------------------------

  /** The plans that delete nothing. */
  function Statics(plans: seq<Plan>): seq<Plan> {
    if plans == [] then [] else (if plans[0].wouldDelete then [] else [plans[0]]) + Statics(plans[1..])
  }

  lemma {:induction false} CandidatesAre(plans: seq<Plan>)
    ensures forall plan :: plan in Candidates(plans) <==> plan in plans && plan.wouldDelete
    ensures OnePerCopy(plans) ==> OnePerCopy(Candidates(plans))
  {
    if plans != [] {
      CandidatesAre(plans[1..]);
      if OnePerCopy(plans) {
        forall b | b in Candidates(plans[1..]) ensures !SameCopy(plans[0], b) {
          var k :| 0 <= k < |plans[1..]| && plans[1..][k] == b;
          assert !SameCopy(plans[0], plans[k + 1]);
        }
        OnePerCopyConcat(if plans[0].wouldDelete then [plans[0]] else [], Candidates(plans[1..]));
      }
    }
  }

  lemma {:induction false} StaticsDeleteNothing(plans: seq<Plan>)
    ensures Candidates(Statics(plans)) == []
  {
    if plans != [] {
      StaticsDeleteNothing(plans[1..]);
      if plans[0].wouldDelete {
        assert Statics(plans) == Statics(plans[1..]);
      } else {
        assert Statics(plans)[1..] == Statics(plans[1..]);
      }
    }
  }

  lemma {:induction false} SplitWithout(plans: seq<Plan>, x: Plan)
    requires x.wouldDelete
    ensures Candidates(Without(plans, x)) == Without(Candidates(plans), x)
    ensures Statics(Without(plans, x)) == Statics(plans)
  {
    if plans != [] {
      SplitWithout(plans[1..], x);
      WithoutConcat(if plans[0].wouldDelete then [plans[0]] else [], Candidates(plans[1..]), x);
      if plans[0] != x {
        assert Without(plans, x) == [plans[0]] + Without(plans[1..], x);
        assert (([plans[0]] + Without(plans[1..], x))[1..]) == Without(plans[1..], x);
        assert Without(if plans[0].wouldDelete then [plans[0]] else [], x)
            == if plans[0].wouldDelete then [plans[0]] else [];
      } else {
        assert Without(plans, x) == Without(plans[1..], x);
        assert Without([x], x) == [];
      }
    }
  }

  // ---- a sweep with nobody else about --------------------------------------------------

  /** Nobody changes anything meanwhile, and the agent never refuses. */
  ghost predicate Undisturbed(m: Moment) { m.answer != Refused && forall db :: m.others(db) == db }

  ghost predicate Has(plans: seq<Plan>, id: BackupId, location: Location) {
    exists plan :: plan in plans && plan.backup == id && plan.location == location
  }

  /** Exactly the listed copies are gone. */
  ghost predicate ExactlyRemoved(t: Table, u: Table, gone: seq<Plan>) {
    && u.Keys == t.Keys
    && (forall id :: id in t ==> (LocalCopy(u[id]) <==> LocalCopy(t[id]) && !Has(gone, id, Local)))
    && (forall id :: id in t ==> (RemoteCopy(u[id]) <==> RemoteCopy(t[id]) && !Has(gone, id, Remote)))
  }

  lemma OneRemoved(t: Table, plan: Plan, at: int)
    requires WellFormed(t) && Copies(t, plan)
    ensures ExactlyRemoved(t, Marked(t, plan, at), [plan])
  {
    assert forall id, location :: Has([plan], id, location) <==> plan.backup == id && plan.location == location by {
      assert plan in [plan];
    }
  }

  lemma RemovedInTurn(t: Table, u: Table, v: Table, gone: seq<Plan>)
    requires gone != [] && ExactlyRemoved(t, u, [gone[0]]) && ExactlyRemoved(u, v, gone[1..])
    ensures ExactlyRemoved(t, v, gone)
  {
    assert gone == [gone[0]] + gone[1..];
    forall id, location
      ensures Has(gone, id, location) <==> Has([gone[0]], id, location) || Has(gone[1..], id, location) {}
  }

  lemma PlansOnePerCopy(db: Db, p: Policy, trigger: Option<BackupId>)
    requires PlansFor(db, p, trigger).Some?
    ensures OnePerCopy(PlansFor(db, p, trigger).value)
  {
    CoveredIsDistinct(db.table, trigger);
    AllPlansDistinct(db.table, db.active, p, Covered(db.table, trigger).value);
  }

  ghost function Ruling(db: Db, trigger: Option<BackupId>): Policy {
    PolicyOf(db, AS_CONFIGURED, trigger, trigger.Some?)
  }

  /** A candidate that is still planned is deleted, and its plan is the only one to go. */
  lemma {:induction false} CleanCandidate(db: Db, trigger: Option<BackupId>, plan: Plan, answer: Answer, at: int)
    requires WellFormed(db.table) && !db.settings.dryRun && answer != Refused
    requires PlansFor(db, Ruling(db, trigger), trigger).Some?
      && plan in PlansFor(db, Ruling(db, trigger), trigger).value
    requires plan.wouldDelete
    ensures Candidate(db, trigger, plan, answer, at).Some?
    ensures var (later, decision) := Candidate(db, trigger, plan, answer, at).value;
      && decision.deleted && decision.backup == plan.backup && decision.location == plan.location
      && later == db.(table := Marked(db.table, plan, at)) && WellFormed(later.table)
      && ExactlyRemoved(db.table, later.table, [plan])
      && Ruling(later, trigger) == Ruling(db, trigger)
      && PlansFor(later, Ruling(db, trigger), trigger)
        == Some(Without(PlansFor(db, Ruling(db, trigger), trigger).value, plan))
  {
    var p := Ruling(db, trigger);
    PlansOnePerCopy(db, p, trigger);
    CurrentFinds(PlansFor(db, p, trigger).value, plan);
    PlansStay(db, p, trigger, plan, at);
    OneRemoved(db.table, plan, at);
  }

  ghost predicate Swept(db: Db, trigger: Option<BackupId>, plans: seq<Plan>, out: Outcome) {
    && out.Finished?
    && |out.decisions| == |Candidates(plans)|
    && (forall i :: 0 <= i < |out.decisions| ==> DecidedAs(out.decisions[i], Candidates(plans)[i]))
    && ExactlyRemoved(db.table, out.db.table, Candidates(plans))
    && out.db == db.(table := out.db.table) && WellFormed(out.db.table)
    && PlansFor(out.db, Ruling(db, trigger), trigger) == Some(Statics(plans))
  }

  ghost predicate DecidedAs(d: Decision, plan: Plan) {
    d.deleted && d.backup == plan.backup && d.location == plan.location
  }

  lemma {:induction false} NothingToSweep(plans: seq<Plan>)
    requires Candidates(plans) == []
    ensures Statics(plans) == plans
  {
    if plans != [] { NothingToSweep(plans[1..]); }
  }

  lemma {:induction false} NothingSwept(db: Db, trigger: Option<BackupId>, plans: seq<Plan>)
    requires WellFormed(db.table) && PlansFor(db, Ruling(db, trigger), trigger) == Some(plans)
      && Candidates(plans) == []
    ensures Swept(db, trigger, plans, Finished(db, []))
  {
    NothingToSweep(plans);
    NoneRemoved(db.table);
  }

  /** The state of the sweep after its first candidate. */
  lemma CleanFirst(db: Db, trigger: Option<BackupId>, plans: seq<Plan>, answer: Answer, at: int)
    returns (later: Db, first: Decision)
    requires WellFormed(db.table) && !db.settings.dryRun && answer != Refused
    requires PlansFor(db, Ruling(db, trigger), trigger) == Some(plans) && Candidates(plans) != []
    ensures Candidate(db, trigger, Candidates(plans)[0], answer, at) == Some((later, first))
    ensures DecidedAs(first, Candidates(plans)[0])
    ensures WellFormed(later.table) && later == db.(table := later.table)
    ensures ExactlyRemoved(db.table, later.table, [Candidates(plans)[0]])
    ensures Ruling(later, trigger) == Ruling(db, trigger)
    ensures PlansFor(later, Ruling(later, trigger), trigger) == Some(Without(plans, Candidates(plans)[0]))
    ensures Candidates(Without(plans, Candidates(plans)[0])) == Candidates(plans)[1..]
    ensures Statics(Without(plans, Candidates(plans)[0])) == Statics(plans)
  {
    var plan := Candidates(plans)[0];
    CandidatesAre(plans);
    assert plan in Candidates(plans);
    CleanCandidate(db, trigger, plan, answer, at);
    later, first := Candidate(db, trigger, plan, answer, at).value.0, Candidate(db, trigger, plan, answer, at).value.1;
    SplitWithout(plans, plan);
    PlansOnePerCopy(db, Ruling(db, trigger), trigger);
    WithoutFirst(Candidates(plans));
  }

  lemma {:induction false} CleanSweep(db: Db, trigger: Option<BackupId>, plans: seq<Plan>, moments: nat -> Moment,
                                      n: nat)
    requires WellFormed(db.table) && !db.settings.dryRun && forall k: nat :: Undisturbed(moments(k))
    requires PlansFor(db, Ruling(db, trigger), trigger) == Some(plans)
    ensures Swept(db, trigger, plans, Sweep(db, trigger, Candidates(plans), moments, n))
    decreases |Candidates(plans)|
  {
    var cs := Candidates(plans);
    if cs == [] {
      NothingSwept(db, trigger, plans);
    } else {
      assert Undisturbed(moments(n));
      var later, first := CleanFirst(db, trigger, plans, moments(n).answer, moments(n).at);
      var others := Without(plans, cs[0]);
      CleanSweep(later, trigger, others, moments, n + 1);
      var rest := Sweep(later, trigger, Candidates(others), moments, n + 1);
      SweptInTurn(db, trigger, plans, later, first, rest);
      SweepStep(db, trigger, cs, moments, n, (later, first));
    }
  }

  lemma NoneRemoved(t: Table)
    ensures ExactlyRemoved(t, t, [])
  {
  }

  lemma {:induction false} WithoutFirst(cs: seq<Plan>)
    requires OnePerCopy(cs) && cs != []
    ensures Without(cs, cs[0]) == cs[1..]
  {
    assert forall i, j :: 0 <= i < j < |cs| ==> cs[i] != cs[j];
    WithoutSplits(cs, 0);
  }

  lemma SweepStep(db: Db, trigger: Option<BackupId>, candidates: seq<Plan>, moments: nat -> Moment, n: nat,
                  r: (Db, Decision))
    requires candidates != [] && moments(n).others(db) == db
    requires Candidate(db, trigger, candidates[0], moments(n).answer, moments(n).at) == Some(r)
    requires Sweep(r.0, trigger, candidates[1..], moments, n + 1).Finished?
    ensures var rest := Sweep(r.0, trigger, candidates[1..], moments, n + 1);
      Sweep(db, trigger, candidates, moments, n) == Finished(rest.db, [r.1] + rest.decisions)
  {
  }

  lemma {:induction false} SweptInTurn(db: Db, trigger: Option<BackupId>, plans: seq<Plan>, later: Db,
                                       first: Decision, rest: Outcome)
    requires Candidates(plans) != [] && DecidedAs(first, Candidates(plans)[0])
    requires ExactlyRemoved(db.table, later.table, [Candidates(plans)[0]]) && later == db.(table := later.table)
    requires Ruling(later, trigger) == Ruling(db, trigger)
    requires var others := Without(plans, Candidates(plans)[0]);
      Candidates(others) == Candidates(plans)[1..] && Statics(others) == Statics(plans)
        && Swept(later, trigger, others, rest)
    ensures Swept(db, trigger, plans, Finished(rest.db, [first] + rest.decisions))
  {
    var cs := Candidates(plans);
    RemovedInTurn(db.table, later.table, rest.db.table, cs);
    var decisions := [first] + rest.decisions;
    forall i | 0 <= i < |decisions| ensures DecidedAs(decisions[i], cs[i]) {
      if i > 0 { assert DecidedAs(rest.decisions[i - 1], cs[1..][i - 1]); }
    }
  }

  // ---- preview and apply ---------------------------------------------------------------

  /** The decisions of a pass over the initial plans. */
  ghost function Pass(db: Db, trigger: Option<BackupId>, moments: nat -> Moment): Outcome {
    match PlansFor(db, Ruling(db, trigger), trigger)
    case None => TriggerGone(db)
    case Some(plans) =>
      if db.settings.dryRun then Finished(db, RenderedAll(plans))
      else
        match Sweep(db, trigger, Candidates(plans), moments, 0)
        case TriggerGone(last) => TriggerGone(last)
        case Finished(last, decided) =>
          SweepDecidesEach(db, trigger, Candidates(plans), moments, 0);
          Finished(last, Merge(plans, decided))
  }

  function RenderedAll(plans: seq<Plan>): seq<Decision> {
    seq(|plans|, i requires 0 <= i < |plans| => Rendered(plans[i]))
  }

  lemma {:induction false} SweepDecidesEach(db: Db, trigger: Option<BackupId>, candidates: seq<Plan>,
                                            moments: nat -> Moment, n: nat)
    ensures var out := Sweep(db, trigger, candidates, moments, n); out.Finished? ==> |out.decisions| == |candidates|
    decreases |candidates|
  {
    if candidates != [] {
      var now := moments(n).others(db);
      var r := Candidate(now, trigger, candidates[0], moments(n).answer, moments(n).at);
      if r.Some? { SweepDecidesEach(r.value.0, trigger, candidates[1..], moments, n + 1); }
    }
  }

  /** What a preview of the configured policy shows for all guests. */
  ghost function Preview(db: Db): seq<Plan> {
    PlansFor(db, PolicyOf(db, AS_CONFIGURED.(dryRun := Some(true)), None, false), None).value
  }

  lemma {:induction false} PlansIgnoreDryRun(t: Table, active: set<BackupId>, p: Policy, guests: seq<Guest>, dry: bool)
    ensures AllPlans(t, active, p.(dryRun := dry), guests) == AllPlans(t, active, p, guests)
  {
    if guests != [] {
      GuestPlansIgnoreDryRun(t, active, p, guests[0], dry);
      PlansIgnoreDryRun(t, active, p, guests[1..], dry);
    }
  }

  lemma GuestPlansIgnoreDryRun(t: Table, active: set<BackupId>, p: Policy, g: Guest, dry: bool)
    ensures GuestPlans(t, active, p.(dryRun := dry), g) == GuestPlans(t, active, p, g)
  {
    ListingsKnown(t, g);
    var rows := RemoteForGuest(t, g);
    var ranked := Rankable(t, rows);
    forall i | 0 <= i < |rows|
      ensures RemotePlans(t, active, rows, p.(dryRun := dry))[i] == RemotePlans(t, active, rows, p)[i]
    {
      var within := IndexOf(ranked, rows[i]) < p.keepRemote;
      assert JudgeRemote(rows[i], t[rows[i]], within, rows[i] in active, p.(dryRun := dry))
          == JudgeRemote(rows[i], t[rows[i]], within, rows[i] in active, p);
    }
    assert RemotePlans(t, active, rows, p.(dryRun := dry)) == RemotePlans(t, active, rows, p);
  }

  ghost predicate AgreesWith(d: Decision, plan: Plan) {
    d.backup == plan.backup && d.location == plan.location && (d.deleted <==> plan.wouldDelete)
  }

  lemma {:induction false} MergeAgrees(plans: seq<Plan>, decided: seq<Decision>)
    requires |decided| == |Candidates(plans)|
    requires forall i :: 0 <= i < |decided| ==> DecidedAs(decided[i], Candidates(plans)[i])
    ensures forall i :: 0 <= i < |plans| ==> AgreesWith(Merge(plans, decided)[i], plans[i])
  {
    if plans != [] {
      if plans[0].wouldDelete {
        forall i | 0 <= i < |decided[1..]| ensures DecidedAs(decided[1..][i], Candidates(plans[1..])[i]) {
          assert Candidates(plans)[i + 1] == Candidates(plans[1..])[i];
        }
        MergeAgrees(plans[1..], decided[1..]);
      } else {
        MergeAgrees(plans[1..], decided);
      }
    }
  }

  /** With nobody else about, a pass over all guests deletes exactly the copies the preview marks,
      answers every plan in order, and leaves nothing for a second pass to delete. */
  lemma ApplyDoesWhatPreviewShows(db: Db, moments: nat -> Moment)
    requires WellFormed(db.table) && !db.settings.dryRun && forall k: nat :: Undisturbed(moments(k))
    ensures var shown := Preview(db); var out := Pass(db, None, moments);
      && out.Finished? && |out.decisions| == |shown|
      && (forall i :: 0 <= i < |shown| ==> AgreesWith(out.decisions[i], shown[i]))
      && ExactlyRemoved(db.table, out.db.table, Candidates(shown))
      && Candidates(Preview(out.db)) == [] && Pass(out.db, None, moments).db == out.db
  {
    PlansIgnoreDryRun(db.table, db.active, Ruling(db, None), GuestKeys(db.table), true);
    PassFromPlans(db, None, moments);
    var out := Pass(db, None, moments);
    PlansIgnoreDryRun(out.db.table, out.db.active, Ruling(out.db, None), GuestKeys(out.db.table), true);
    StaticsDeleteNothing(Preview(db));
  }

  /** The same for the pass of one trigger, under the policy frozen into its run. */
  lemma PassFromPlans(db: Db, trigger: Option<BackupId>, moments: nat -> Moment)
    requires WellFormed(db.table) && !db.settings.dryRun && forall k: nat :: Undisturbed(moments(k))
    requires PlansFor(db, Ruling(db, trigger), trigger).Some?
    ensures var plans := PlansFor(db, Ruling(db, trigger), trigger).value; var out := Pass(db, trigger, moments);
      && out.Finished? && |out.decisions| == |plans|
      && (forall i :: 0 <= i < |plans| ==> AgreesWith(out.decisions[i], plans[i]))
      && ExactlyRemoved(db.table, out.db.table, Candidates(plans))
      && out.db == db.(table := out.db.table)
      && PlansFor(out.db, Ruling(out.db, trigger), trigger) == Some(Statics(plans))
  {
    var plans := PlansFor(db, Ruling(db, trigger), trigger).value;
    CleanSweep(db, trigger, plans, moments, 0);
    var out := Sweep(db, trigger, Candidates(plans), moments, 0);
    MergeAgrees(plans, out.decisions);
  }

  lemma {:induction false} NoneWouldDelete(plans: seq<Plan>)
    requires forall plan :: plan in plans ==> !plan.wouldDelete
    ensures Candidates(plans) == []
  {
    if plans != [] { NoneWouldDelete(plans[1..]); }
  }

  lemma {:induction false} MergeRenders(plans: seq<Plan>)
    requires Candidates(plans) == []
    ensures Merge(plans, []) == RenderedAll(plans)
  {
    if plans != [] {
      assert !plans[0].wouldDelete;
      MergeRenders(plans[1..]);
      assert RenderedAll(plans) == [Rendered(plans[0])] + RenderedAll(plans[1..]);
    }
  }

  /** A pass that begins without an established policy has nothing to revalidate: it answers every
      plan as skipped and leaves everything as it is, whoever else is about. */
  lemma UnresolvedPassIsIdle(db: Db, trigger: Option<BackupId>, moments: nat -> Moment)
    requires IsUnresolved(db, trigger) && PlansFor(db, Ruling(db, trigger), trigger).Some?
    ensures Pass(db, trigger, moments) == Finished(db, RenderedAll(PlansFor(db, Ruling(db, trigger), trigger).value))
  {
    var plans := PlansFor(db, Ruling(db, trigger), trigger).value;
    forall plan | plan in plans ensures !plan.wouldDelete { PlanIsSafe(db, Ruling(db, trigger), trigger, plan); }
    NoneWouldDelete(plans);
    MergeRenders(plans);
  }

  // ---- whose counts a pass acts on -----------------------------------------------------

  /** A pass over all guests acts on the settings. */
  lemma SweepingPassRules(db: Db)
    ensures Ruling(db, None) == Policy(db.settings.keepLocal, db.settings.keepRemote, None, db.settings.dryRun,
                                       db.settings.gdriveEnabled, db.settings.deleteRemote)
  {
  }

  /** A pass for one backup acts on what its run resolves to, and on the other settings. */
  lemma TriggeredPassRules(db: Db, id: BackupId)
    ensures var p := Ruling(db, Some(id));
      var found := Resolve(if id in db.contexts then Some(db.contexts[id]) else None,
                           Counts(db.settings.keepLocal, db.settings.keepRemote));
      && p.keepLocal == found.counts.local && p.keepRemote == found.counts.remote
      && (p.blocked.Some? <==> found.Unresolved?) && (found.Unresolved? ==> p.blocked.value == found.reason)
      && p.dryRun == db.settings.dryRun && p.gdriveEnabled == db.settings.gdriveEnabled
      && p.deleteRemote == db.settings.deleteRemote
  {
  }

  /** The run behind a backup has these two counts stored in it. */
  ghost predicate Froze(db: Db, id: BackupId, l: nat, r: nat) {
    && id in db.contexts && db.contexts[id].options.Some? && 1 <= l <= 365 && r <= 365
    && db.contexts[id].options.value == Options(Text("job"), Whole(l), Whole(r))
  }

  /** The pass for a backup of a job run keeps the run's own `l` newest local and `r` newest remote
      copies of the guest, whatever is configured by now. */
  lemma FrozenCountsRule(db: Db, id: BackupId, l: nat, r: nat, original: Plan, answer: Answer, at: int)
    requires Froze(db, id, l, r) && Candidate(db, Some(id), original, answer, at).Some?
    ensures Ruling(db, Some(id)).keepLocal == l && Ruling(db, Some(id)).keepRemote == r
      && Ruling(db, Some(id)).blocked.None?
    ensures Candidate(db, Some(id), original, answer, at).value.1.deleted ==>
      && original.backup in db.table
      && var g := db.table[original.backup].guest;
         var ids := if original.location == Local then LocalIds(db.table, g) else RemoteIds(db.table, g);
         exists newest :: && original.backup !in newest
                          && NewestOf(db.table, Contenders(db.table, ids),
                                      if original.location == Local then l else r, newest)
  {
    var configured := Counts(db.settings.keepLocal, db.settings.keepRemote);
    JobCountsStand(db.contexts[id], db.contexts[id].options.value, configured);
    TriggeredPassRules(db, id);
    DeletionIsSafe(db, Some(id), original, answer, at);
  }

  // ---- the preview for one backup ------------------------------------------------------

  /** A preview never uses the counts frozen into the backup's run. */
  ghost function PreviewPolicy(db: Db, id: BackupId): Policy {
    PolicyOf(db, AS_CONFIGURED.(dryRun := Some(true)), Some(id), false)
  }

  /** It shows what a pass for the backup acts on exactly if that pass may act on the configured
      counts. */
  lemma SamePolicyIff(db: Db, id: BackupId)
    ensures var context := if id in db.contexts then Some(db.contexts[id]) else None;
      var configured := Counts(db.settings.keepLocal, db.settings.keepRemote);
      PreviewPolicy(db, id) == Ruling(db, Some(id)).(dryRun := true)
      <==> Resolve(context, configured).Resolved? && Resolve(context, configured).counts == configured
  {
  }

  /** Then, undisturbed, the pass deletes what that preview marks. */
  lemma TriggeredPreviewAgrees(db: Db, id: BackupId, moments: nat -> Moment)
    requires WellFormed(db.table) && !db.settings.dryRun && (forall k: nat :: Undisturbed(moments(k))) && id in db.table
    requires PreviewPolicy(db, id) == Ruling(db, Some(id)).(dryRun := true)
    ensures var shown := PlansFor(db, PreviewPolicy(db, id), Some(id)).value; var out := Pass(db, Some(id), moments);
      && out.Finished? && |out.decisions| == |shown|
      && (forall i :: 0 <= i < |shown| ==> AgreesWith(out.decisions[i], shown[i]))
      && ExactlyRemoved(db.table, out.db.table, Candidates(shown))
  {
    PlansIgnoreDryRun(db.table, db.active, Ruling(db, Some(id)), [db.table[id].guest], true);
    PassFromPlans(db, Some(id), moments);
  }

  // ---- a preview that misses a deletion ------------------------------------------------

  /** The run of backup 1 froze one local copy; since then two are configured. */
  function Reconfigured(g: Guest): Db {
    var run := Context(None, Some(Options(Text("job"), Whole(1), Whole(0))), None, None);
    Db(TwoBackups(g), {}, Settings(2, 0, false, false, false), map[1 := run])
  }

  lemma TwoBackupsHave(g: Guest)
    ensures LocalIds(TwoBackups(g), g) == {1, 2} && RemoteIds(TwoBackups(g), g) == {}
    ensures Contenders(TwoBackups(g), {1, 2}) == {1, 2} && WellFormed(TwoBackups(g))
  {
  }

  lemma {:induction false} SubsetSize(a: set<BackupId>, b: set<BackupId>)
    requires a <= b
    ensures |a| <= |b|
  {
    assert b == a + (b - a);
  }

  lemma {:induction false} BothAreKept(g: Guest, id: BackupId)
    requires id in TwoBackups(g)
    ensures !MayDeleteLocal(TwoBackups(g), {}, 2, id)
  {
    var both: set<BackupId> := {1, 2};
    TwoBackupsHave(g);
    forall newest: set<BackupId> | newest <= both && |newest| == 2 ensures id in newest {
      if id !in newest { SubsetSize(newest, both - {id}); }
    }
  }

  lemma {:induction false} PreviewMarksNothing(g: Guest)
    ensures Candidates(PlansFor(Reconfigured(g), PreviewPolicy(Reconfigured(g), 1), Some(1)).value) == []
  {
    var db, p := Reconfigured(g), PreviewPolicy(Reconfigured(g), 1);
    var shown := PlansFor(db, p, Some(1)).value;
    forall plan | plan in shown ensures !plan.wouldDelete {
      PlanIsSafe(db, p, Some(1), plan);
      BothAreKept(g, plan.backup);
    }
    NoneWouldDelete(shown);
  }

  lemma {:induction false} EveryLocalCopyIsPlanned(t: Table, active: set<BackupId>, p: Policy, g: Guest, id: BackupId)
    returns (plan: Plan)
    requires id in LocalIds(t, g) && p.blocked.None?
    ensures plan in GuestPlans(t, active, p, g) && plan.backup == id && plan.location == Local
  {
    var rows := LocalForGuest(t, g);
    ListingsKnown(t, g);
    PlansFollowRows(t, active, rows, p);
    var i :| 0 <= i < |rows| && rows[i] == id;
    plan := LocalPlans(t, active, rows, p.keepLocal)[i];
  }

  lemma {:induction false} PassMarksTheOlder(g: Guest)
    ensures Has(Candidates(PlansFor(Reconfigured(g), Ruling(Reconfigured(g), Some(1)), Some(1)).value), 1, Local)
  {
    var db := Reconfigured(g);
    var p := Ruling(db, Some(1));
    var plans := PlansFor(db, p, Some(1)).value;
    TwoBackupsHave(g);
    var plan := EveryLocalCopyIsPlanned(db.table, {}, p, g, 1);
    assert plan in plans;
    LastBytesCanGo(g);
    PlanIsSafe(db, p, Some(1), plan);
    CandidatesAre(plans);
  }

  /** So the preview for a backup can mark nothing at all, and the pass for it, with nobody else about,
      delete its archive. */
  lemma {:induction false} PreviewMissesDeletion(g: Guest, moments: nat -> Moment)
    requires forall k: nat :: Undisturbed(moments(k))
    ensures var db := Reconfigured(g);
      && Candidates(PlansFor(db, PreviewPolicy(db, 1), Some(1)).value) == []
      && LocalCopy(db.table[1]) && Pass(db, Some(1), moments).Finished?
      && 1 in Pass(db, Some(1), moments).db.table && !LocalCopy(Pass(db, Some(1), moments).db.table[1])
  {
    PreviewMarksNothing(g);
    PassMarksTheOlder(g);
    PassFromPlans(Reconfigured(g), Some(1), moments);
  }
}
