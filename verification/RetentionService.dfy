/** The retention service as it runs: it fills its lists in loops, keeps a dictionary of finished
    decisions, and marks rows while it goes. */
module RetentionService {
  import opened Prelude
  import opened Listings
  import opened RetentionRows
  import opened RetentionPolicy
  import opened RetentionPlans
  import opened RetentionSafety
  import opened RetentionPasses
  import opened RetentionAgreement

  type Key = (BackupId, Location)

  function KeyOf(plan: Plan): Key { (plan.backup, plan.location) }

  /** The decisions recorded for these plans, in order. */
  function Collect(plans: seq<Plan>, completed: map<Key, Decision>): seq<Decision> {
    if plans == [] then []
    else (if KeyOf(plans[0]) in completed then [completed[KeyOf(plans[0])]] else []) + Collect(plans[1..], completed)
  }

  lemma {:induction false} CollectAppend(plans: seq<Plan>, plan: Plan, completed: map<Key, Decision>)
    ensures Collect(plans + [plan], completed)
         == Collect(plans, completed) + if KeyOf(plan) in completed then [completed[KeyOf(plan)]] else []
  {
    if plans == [] {
      assert plans + [plan] == [plan];
    } else {
      var head := if KeyOf(plans[0]) in completed then [completed[KeyOf(plans[0])]] else [];
      var last := if KeyOf(plan) in completed then [completed[KeyOf(plan)]] else [];
      assert (plans + [plan])[1..] == plans[1..] + [plan];
      CollectAppend(plans[1..], plan, completed);
      assert head + (Collect(plans[1..], completed) + last) == head + Collect(plans[1..], completed) + last;
    }
  }

  lemma {:induction false} CandidatesAppend(plans: seq<Plan>, plan: Plan)
    ensures Candidates(plans + [plan]) == Candidates(plans) + if plan.wouldDelete then [plan] else []
  {
    if plans == [] {
      assert plans + [plan] == [plan];
    } else {
      var head := if plans[0].wouldDelete then [plans[0]] else [];
      var last := if plan.wouldDelete then [plan] else [];
      assert (plans + [plan])[1..] == plans[1..] + [plan];
      CandidatesAppend(plans[1..], plan);
      assert head + (Candidates(plans[1..]) + last) == head + Candidates(plans[1..]) + last;
    }
  }

  ghost predicate StaticsRecorded(plans: seq<Plan>, completed: map<Key, Decision>) {
    forall plan :: plan in plans && !plan.wouldDelete ==>
      KeyOf(plan) in completed && completed[KeyOf(plan)] == Rendered(plan)
  }

  ghost predicate DecisionsRecorded(candidates: seq<Plan>, decided: seq<Decision>, completed: map<Key, Decision>) {
    && |decided| <= |candidates|
    && forall i :: 0 <= i < |decided| ==>
         KeyOf(candidates[i]) in completed && completed[KeyOf(candidates[i])] == decided[i]
  }

  lemma {:induction false} CollectIsMerge(plans: seq<Plan>, decided: seq<Decision>, completed: map<Key, Decision>)
    requires |decided| == |Candidates(plans)|
    requires StaticsRecorded(plans, completed) && DecisionsRecorded(Candidates(plans), decided, completed)
    ensures Collect(plans, completed) == Merge(plans, decided)
  {
    if plans != [] {
      if plans[0].wouldDelete {
        LaterDecisions(plans, decided, completed);
        assert DecisionsRecorded(Candidates(plans), decided, completed) && Candidates(plans)[0] == plans[0];
        CollectIsMerge(plans[1..], decided[1..], completed);
      } else {
        assert plans[0] in plans && Candidates(plans) == Candidates(plans[1..]);
        CollectIsMerge(plans[1..], decided, completed);
      }
    }
  }

  lemma {:induction false} LaterDecisions(plans: seq<Plan>, decided: seq<Decision>, completed: map<Key, Decision>)
    requires plans != [] && plans[0].wouldDelete && decided != []
      && DecisionsRecorded(Candidates(plans), decided, completed)
    ensures DecisionsRecorded(Candidates(plans[1..]), decided[1..], completed)
  {
    forall i | 0 <= i < |decided[1..]|
      ensures KeyOf(Candidates(plans[1..])[i]) in completed
      ensures completed[KeyOf(Candidates(plans[1..])[i])] == decided[1..][i]
    {
      assert Candidates(plans[1..])[i] == Candidates(plans)[i + 1];
    }
  }

  lemma {:induction false} AllPlansAt(t: Table, active: set<BackupId>, p: Policy, guests: seq<Guest>, i: nat,
                                      all: seq<Plan>)
    requires i < |guests|
    ensures all + AllPlans(t, active, p, guests[i..])
         == all + GuestPlans(t, active, p, guests[i]) + AllPlans(t, active, p, guests[i + 1..])
  {
    assert guests[i..][1..] == guests[i + 1..];
  }

  /** Static decisions are recorded at once, all of them in a dry run. */
  ghost predicate Sorted(plans: seq<Plan>, dryRun: bool, completed: map<Key, Decision>) {
    && (forall plan :: plan in plans ==> (KeyOf(plan) in completed <==> dryRun || !plan.wouldDelete))
    && (forall plan :: plan in plans && KeyOf(plan) in completed ==> completed[KeyOf(plan)] == Rendered(plan))
    && (forall key :: key in completed ==> exists plan :: plan in plans && KeyOf(plan) == key)
  }

  lemma SortOne(plans: seq<Plan>, plan: Plan, dryRun: bool, completed: map<Key, Decision>)
    requires Sorted(plans, dryRun, completed) && forall other :: other in plans ==> !SameCopy(other, plan)
    ensures Sorted(plans + [plan], dryRun,
                   if !plan.wouldDelete || dryRun then completed[KeyOf(plan) := Rendered(plan)] else completed)
  {
    assert KeyOf(plan) !in completed;
    assert forall other :: other in plans + [plan] <==> other in plans || other == plan;
  }

  /** Decisions recorded before the candidates were taken are still there. */
  ghost predicate StillThere(statics: map<Key, Decision>, candidates: seq<Plan>, completed: map<Key, Decision>) {
    forall key :: key in statics && (forall c :: c in candidates ==> KeyOf(c) != key) ==>
      key in completed && completed[key] == statics[key]
  }

  lemma RecordOne(candidates: seq<Plan>, done: seq<Decision>, completed: map<Key, Decision>, d: Decision,
                  statics: map<Key, Decision>)
    requires OnePerCopy(candidates) && |done| < |candidates| && DecisionsRecorded(candidates, done, completed)
    requires StillThere(statics, candidates, completed)
    ensures var later := completed[KeyOf(candidates[|done|]) := d];
      DecisionsRecorded(candidates, done + [d], later) && StillThere(statics, candidates, later)
  {
    assert forall i :: 0 <= i < |done| ==> !SameCopy(candidates[i], candidates[|done|]);
    assert candidates[|done|] in candidates;
  }

  /** What is left of a sweep after some of its decisions. */
  ghost function After(decided: seq<Decision>, rest: Outcome): Outcome {
    match rest
    case TriggerGone(db) => TriggerGone(db)
    case Finished(db, more) => Finished(db, decided + more)
  }

  method PlanGuest(t: Table, active: set<BackupId>, p: Policy, g: Guest) returns (plans: seq<Plan>)
    ensures plans == GuestPlans(t, active, p, g)
  {
    var local, remote := LocalForGuest(t, g), RemoteForGuest(t, g);
    AscendingIsDistinct(t, local);
    AscendingIsDistinct(t, remote);
    if p.blocked.Some? {
      return BlockedPlans(local, Local, p.blocked.value) + BlockedPlans(remote, Remote, p.blocked.value);
    }
    var locals := ClassifyLocal(t, active, local, p.keepLocal);
    var remotes := ClassifyRemote(t, active, remote, p);
    return locals + remotes;
  }

  method PlanGuests(t: Table, active: set<BackupId>, p: Policy, guests: seq<Guest>) returns (plans: seq<Plan>)
    ensures plans == AllPlans(t, active, p, guests)
  {
    plans := [];
    for i := 0 to |guests|
      invariant plans + AllPlans(t, active, p, guests[i..]) == AllPlans(t, active, p, guests)
    {
      AllPlansAt(t, active, p, guests, i, plans);
      var some := PlanGuest(t, active, p, guests[i]);
      plans := plans + some;
    }
    assert guests[|guests|..] == [] && plans + [] == plans;
  }

  class Service {
    var db: Db

    method PlanAll(p: Policy, trigger: Option<BackupId>) returns (plans: Option<seq<Plan>>)
      ensures plans == PlansFor(db, p, trigger)
    {
      var guests := Covered(db.table, trigger);
      if guests.None? { return None; }
      var all := PlanGuests(db.table, db.active, p, guests.value);
      return Some(all);
    }

    /** Revalidate one candidate and, if it still stands, delete it. */
    method Take(trigger: Option<BackupId>, original: Plan, answer: Answer, at: int) returns (decision: Option<Decision>)
      modifies this
      ensures match Candidate(old(db), trigger, original, answer, at)
        case None => decision == None && db == old(db)
        case Some(r) => db == r.0 && decision == Some(r.1)
    {
      var p := PolicyOf(db, AS_CONFIGURED, trigger, trigger.Some?);
      var plans := PlanAll(p, trigger);
      if plans.None? { return None; }
      var current := Current(plans.value, original);
      if !current.wouldDelete || p.dryRun { return Some(Rendered(current)); }
      match answer {
        case Removed =>
          db := db.(table := Marked(db.table, current, at));
          return Some(Rendered(current).(deleted := true));
        case AlreadyGone =>
          db := db.(table := Marked(db.table, current, at));
          return Some(Rendered(current).(reason := ReconciledMissing, deleted := true, reconciled := true));
        case Refused =>
          return Some(Rendered(current).(action := ActionFailed, reason := DeletionFailed));
      }
    }

    /** Render the static decisions and set the candidates aside. */
    method Sort(plans: seq<Plan>, dryRun: bool) returns (completed: map<Key, Decision>, candidates: seq<Plan>)
      requires OnePerCopy(plans)
      ensures candidates == if dryRun then [] else Candidates(plans)
      ensures Sorted(plans, dryRun, completed)
    {
      completed, candidates := map[], [];
      for i := 0 to |plans|
        invariant candidates == if dryRun then [] else Candidates(plans[..i])
        invariant Sorted(plans[..i], dryRun, completed)
      {
        CandidatesAppend(plans[..i], plans[i]);
        assert plans[..i + 1] == plans[..i] + [plans[i]];
        assert forall k :: 0 <= k < i ==> !SameCopy(plans[k], plans[i]);
        SortOne(plans[..i], plans[i], dryRun, completed);
        if !plans[i].wouldDelete || dryRun {
          completed := completed[KeyOf(plans[i]) := Rendered(plans[i])];
        } else {
          candidates := candidates + [plans[i]];
        }
      }
      assert plans[..|plans|] == plans;
    }

    method Assemble(plans: seq<Plan>, completed: map<Key, Decision>) returns (items: seq<Decision>)
      ensures items == Collect(plans, completed)
    {
      items := [];
      for i := 0 to |plans|
        invariant items == Collect(plans[..i], completed)
      {
        assert plans[..i + 1] == plans[..i] + [plans[i]];
        CollectAppend(plans[..i], plans[i], completed);
        if KeyOf(plans[i]) in completed { items := items + [completed[KeyOf(plans[i])]]; }
      }
      assert plans[..|plans|] == plans;
    }

    /** The loop over the candidates; `None` when the trigger vanished on the way. */
    method Work(trigger: Option<BackupId>, candidates: seq<Plan>, statics: map<Key, Decision>, moments: nat -> Moment)
        returns (decided: Option<seq<Decision>>, completed: map<Key, Decision>)
      requires OnePerCopy(candidates)
      modifies this
      ensures match Sweep(old(db), trigger, candidates, moments, 0)
        case TriggerGone(last) => db == last && decided == None
        case Finished(last, decisions) => db == last && decided == Some(decisions)
      ensures decided.Some? ==>
        |decided.value| == |candidates| && DecisionsRecorded(candidates, decided.value, completed)
      ensures StillThere(statics, candidates, completed)
    {
      ghost var whole := Sweep(db, trigger, candidates, moments, 0);
      completed := statics;
      var done: seq<Decision> := [];
      var n := 0;
      while n < |candidates|
        invariant 0 <= n <= |candidates| && |done| == n
        invariant whole == After(done, Sweep(db, trigger, candidates[n..], moments, n))
        invariant DecisionsRecorded(candidates, done, completed) && StillThere(statics, candidates, completed)
      {
        SweepAt(db, trigger, candidates, moments, n, done);
        db := moments(n).others(db);
        var decision := Take(trigger, candidates[n], moments(n).answer, moments(n).at);
        if decision.None? { return None, completed; }
        RecordOne(candidates, done, completed, decision.value, statics);
        completed := completed[KeyOf(candidates[n]) := decision.value];
        done := done + [decision.value];
        n := n + 1;
      }
      assert candidates[n..] == [] && done + [] == done;
      decided := Some(done);
    }

    /** A whole pass; `None` reports a trigger that does not exist. */
    method Apply(trigger: Option<BackupId>, moments: nat -> Moment) returns (items: Option<seq<Decision>>)
      modifies this
      ensures match Pass(old(db), trigger, moments)
        case TriggerGone(last) => db == last && items == None
        case Finished(last, decisions) => db == last && items == Some(decisions)
    {
      var p := PolicyOf(db, AS_CONFIGURED, trigger, trigger.Some?);
      var found := PlanAll(p, trigger);
      if found.None? { return None; }
      var plans := found.value;
      PlansOnePerCopy(db, p, trigger);
      CandidatesAre(plans);
      var statics, candidates := Sort(plans, p.dryRun);
      if p.dryRun {
        CollectStatics(plans, statics);
        var shown := Assemble(plans, statics);
        return Some(shown);
      }
      var decided, completed := Work(trigger, candidates, statics, moments);
      if decided.None? { return None; }
      StaticsStay(plans, statics, completed);
      CollectIsMerge(plans, decided.value, completed);
      var all := Assemble(plans, completed);
      return Some(all);
    }
  }

  lemma SweepAt(db: Db, trigger: Option<BackupId>, candidates: seq<Plan>, moments: nat -> Moment, n: nat,
                done: seq<Decision>)
    requires n < |candidates|
    ensures var r := Candidate(moments(n).others(db), trigger, candidates[n], moments(n).answer, moments(n).at);
      After(done, Sweep(db, trigger, candidates[n..], moments, n))
        == match r
           case None => TriggerGone(moments(n).others(db))
           case Some(x) => After(done + [x.1], Sweep(x.0, trigger, candidates[n + 1..], moments, n + 1))
  {
    assert candidates[n..][1..] == candidates[n + 1..];
  }

  /** Working through the candidates overwrites no static decision. */
  lemma {:induction false} StaticsStay(plans: seq<Plan>, statics: map<Key, Decision>, completed: map<Key, Decision>)
    requires OnePerCopy(plans)
    requires Sorted(plans, false, statics) && StillThere(statics, Candidates(plans), completed)
    ensures StaticsRecorded(plans, completed)
  {
    CandidatesAre(plans);
    forall plan | plan in plans && !plan.wouldDelete
      ensures KeyOf(plan) in completed && completed[KeyOf(plan)] == Rendered(plan)
    {
      forall c | c in Candidates(plans) ensures KeyOf(c) != KeyOf(plan) {
        var i :| 0 <= i < |plans| && plans[i] == c;
        var j :| 0 <= j < |plans| && plans[j] == plan;
        assert !SameCopy(plans[if i < j then i else j], plans[if i < j then j else i]);
      }
    }
  }

  lemma {:induction false} CollectStatics(plans: seq<Plan>, completed: map<Key, Decision>)
    requires forall plan :: plan in plans ==> KeyOf(plan) in completed && completed[KeyOf(plan)] == Rendered(plan)
    ensures Collect(plans, completed) == RenderedAll(plans)
  {
    if plans != [] { CollectStatics(plans[1..], completed); }
  }
}
