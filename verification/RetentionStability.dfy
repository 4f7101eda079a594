/** One deletion leaves the classification of every other copy exactly as it was. */
module RetentionStability {
  import opened Prelude
  import opened Listings
  import opened RetentionRows
  import opened RetentionPolicy
  import opened RetentionPlans
  import opened RetentionSafety

  /** Everything a classification reads, except whether the copies exist. */
  ghost predicate SameFacts(t: Table, u: Table) {
    && t.Keys == u.Keys
    && forall id :: id in t ==>
         && u[id].guest == t[id].guest && u[id].filename == t[id].filename && u[id].upload == t[id].upload
         && u[id].locked == t[id].locked && u[id].startedAt == t[id].startedAt && u[id].remotePath == t[id].remotePath
  }

  lemma SameStarts(t: Table, u: Table)
    requires SameFacts(t, u)
    ensures Starts(u) == Starts(t)
  {
  }

  // ---- marking a copy deleted ----------------------------------------------------------

  lemma LocalMarking(t: Table, id: BackupId, at: int)
    requires WellFormed(t) && id in t && LocalCopy(t[id])
    ensures var u := LocalMarked(t, id, at);
      && WellFormed(u) && SameFacts(t, u)
      && forall g :: LocalIds(u, g) == LocalIds(t, g) - {id} && RemoteIds(u, g) == RemoteIds(t, g)
  {
    var u := LocalMarked(t, id, at);
    forall g ensures LocalIds(u, g) == LocalIds(t, g) - {id} && RemoteIds(u, g) == RemoteIds(t, g) {}
  }

  lemma RemoteMarking(t: Table, id: BackupId, at: int)
    requires WellFormed(t) && id in t && RemoteCopy(t[id])
    ensures var u := RemoteMarked(t, id, at);
      && WellFormed(u) && SameFacts(t, u)
      && forall g :: RemoteIds(u, g) == RemoteIds(t, g) - {id} && LocalIds(u, g) == LocalIds(t, g)
  {
    var u := RemoteMarked(t, id, at);
    forall g ensures RemoteIds(u, g) == RemoteIds(t, g) - {id} && LocalIds(u, g) == LocalIds(t, g) {}
  }

  lemma {:induction false} LocalListing(t: Table, u: Table, g: Guest, id: BackupId)
    requires SameFacts(t, u) && LocalIds(u, g) == LocalIds(t, g) - {id}
    ensures LocalForGuest(u, g) == Without(LocalForGuest(t, g), id)
  {
    SameStarts(t, u);
    NewestFirstIsTotal(Starts(t));
    ListingWithout(LocalIds(t, g), id, NewestFirst(Starts(t)));
  }

  lemma {:induction false} RemoteListing(t: Table, u: Table, g: Guest, id: BackupId)
    requires SameFacts(t, u) && RemoteIds(u, g) == RemoteIds(t, g) - {id}
    ensures RemoteForGuest(u, g) == Without(RemoteForGuest(t, g), id)
  {
    SameStarts(t, u);
    NewestFirstIsTotal(Starts(t));
    ListingWithout(RemoteIds(t, g), id, NewestFirst(Starts(t)));
  }

  // ---- ranks without one row -----------------------------------------------------------

  lemma {:induction false} RankableSame(t: Table, u: Table, rows: seq<BackupId>)
    requires SameFacts(t, u) && Known(t, rows)
    ensures Rankable(u, rows) == Rankable(t, rows)
  {
    if rows != [] { RankableSame(t, u, rows[1..]); }
  }

  lemma {:induction false} RankableWithout(t: Table, rows: seq<BackupId>, x: BackupId)
    requires Known(t, rows)
    ensures Rankable(t, Without(rows, x)) == Without(Rankable(t, rows), x)
  {
    if rows != [] {
      RankableWithout(t, rows[1..], x);
      WithoutConcat(if CanRank(t[rows[0]]) then [rows[0]] else [], Rankable(t, rows[1..]), x);
      if rows[0] != x {
        assert Without(rows, x) == [rows[0]] + Without(rows[1..], x);
        RankableConcat(t, [rows[0]], Without(rows[1..], x));
        assert Rankable(t, [rows[0]]) == Without(if CanRank(t[rows[0]]) then [rows[0]] else [], x);
      } else {
        assert Without(rows, x) == Without(rows[1..], x);
        assert Without(if CanRank(t[x]) then [x] else [], x) == [];
      }
    }
  }

  lemma {:induction false} RankableConcat(t: Table, a: seq<BackupId>, b: seq<BackupId>)
    requires Known(t, a) && Known(t, b)
    ensures Rankable(t, a + b) == Rankable(t, a) + Rankable(t, b)
  {
    if a == [] {
      assert a + b == b;
    } else {
      assert (a + b)[1..] == a[1..] + b;
      RankableConcat(t, a[1..], b);
    }
  }

  lemma {:induction false} RankableDistinct(t: Table, rows: seq<BackupId>)
    requires Known(t, rows) && Distinct(rows)
    ensures Distinct(Rankable(t, rows))
  {
    if rows != [] {
      RankableDistinct(t, rows[1..]);
      assert rows[0] !in rows[1..];
    }
  }

  lemma {:induction false} WithoutConcat<T(!new)>(a: seq<T>, b: seq<T>, x: T)
    ensures Without(a + b, x) == Without(a, x) + Without(b, x)
  {
    if a == [] {
      assert a + b == b;
    } else {
      assert (a + b)[1..] == a[1..] + b;
      WithoutConcat(a[1..], b, x);
    }
  }

  /** Dropping a row ranked at or after `keep` moves nobody across that line. */
  lemma {:induction false} DroppingBeyond(s: seq<BackupId>, x: BackupId, keep: nat)
    requires Distinct(s) && x in s && IndexOf(s, x) >= keep
    ensures |Without(s, x)| == |s| - 1 >= keep && Without(s, x)[..keep] == s[..keep]
    ensures forall y :: y in s && y != x ==> (IndexOf(Without(s, x), y) < keep <==> IndexOf(s, y) < keep)
  {
    var k := IndexOf(s, x);
    WithoutSplits(s, k);
    var rest := Without(s, x);
    assert rest == s[..k] + s[k + 1..];
    forall y | y in s && y != x ensures IndexOf(rest, y) < keep <==> IndexOf(s, y) < keep {
      IndexBeyond(rest, keep, y);
      IndexBeyond(s, keep, y);
    }
  }

  lemma {:induction false} BlockerSame(t: Table, u: Table, rows: seq<BackupId>)
    requires SameFacts(t, u) && Known(t, rows)
    ensures FirstBlocker(u, rows) == FirstBlocker(t, rows)
  {
    if rows != [] { BlockerSame(t, u, rows[1..]); }
  }

  // ---- the lists of plans --------------------------------------------------------------

  lemma JudgementStays(id: BackupId, r: Record, q: Record, within: bool, blocker: Option<Blocker>, restoring: bool,
                       p: Policy)
    requires q.upload == r.upload && q.locked == r.locked && q.startedAt == r.startedAt && q.remotePath == r.remotePath
    ensures JudgeLocal(id, q, within, blocker, restoring, p.keepLocal)
      == JudgeLocal(id, r, within, blocker, restoring, p.keepLocal)
    ensures JudgeRemote(id, q, within, restoring, p) == JudgeRemote(id, r, within, restoring, p)
  {
  }

  /** A row that may not rank is skipped whatever its rank. */
  lemma JudgedUnranked(id: BackupId, r: Record, within: bool, other: bool, blocker: Option<Blocker>, restoring: bool,
                       p: Policy)
    requires !CanRank(r)
    ensures JudgeLocal(id, r, within, blocker, restoring, p.keepLocal)
      == JudgeLocal(id, r, other, blocker, restoring, p.keepLocal)
    ensures JudgeRemote(id, r, within, restoring, p) == JudgeRemote(id, r, other, restoring, p)
  {
  }

  lemma {:induction false} LocalVerdictStays(t: Table, u: Table, active: set<BackupId>, ranked: seq<BackupId>,
                                             p: Policy, x: BackupId, y: BackupId)
    requires SameFacts(t, u) && Known(t, ranked) && Distinct(ranked) && x in ranked && IndexOf(ranked, x) >= p.keepLocal
    requires y in t && y != x && (CanRank(t[y]) ==> y in ranked)
    ensures LocalVerdict(u, active, Without(ranked, x), p.keepLocal, y)
      == LocalVerdict(t, active, ranked, p.keepLocal, y)
  {
    var rest, keep := Without(ranked, x), p.keepLocal;
    DroppingBeyond(ranked, x, keep);
    BlockerSame(t, u, ranked[..keep]);
    assert ReplacementBlocker(u, rest, keep) == ReplacementBlocker(t, ranked, keep);
    JudgementStays(y, t[y], u[y], IndexOf(rest, y) < keep, ReplacementBlocker(t, ranked, keep), y in active, p);
    if !CanRank(t[y]) {
      JudgedUnranked(y, t[y], IndexOf(rest, y) < keep, IndexOf(ranked, y) < keep, ReplacementBlocker(t, ranked, keep),
                     y in active, p);
    }
  }

  lemma {:induction false} RemoteVerdictStays(t: Table, u: Table, active: set<BackupId>, ranked: seq<BackupId>,
                                              p: Policy, x: BackupId, y: BackupId)
    requires SameFacts(t, u) && Distinct(ranked) && x in ranked && IndexOf(ranked, x) >= p.keepRemote
    requires y in t && y != x && (CanRank(t[y]) ==> y in ranked)
    ensures RemoteVerdict(u, active, Without(ranked, x), p, y) == RemoteVerdict(t, active, ranked, p, y)
  {
    var rest, keep := Without(ranked, x), p.keepRemote;
    DroppingBeyond(ranked, x, keep);
    JudgementStays(y, t[y], u[y], IndexOf(rest, y) < keep, None, y in active, p);
    if !CanRank(t[y]) {
      JudgedUnranked(y, t[y], IndexOf(rest, y) < keep, IndexOf(ranked, y) < keep, None, y in active, p);
    }
  }

  /** Removing the plan at `k` from a list of plans, one per row. */
  lemma {:induction false} PlansWithout(rows: seq<BackupId>, plans: seq<Plan>, rest: seq<Plan>, k: nat)
    requires Distinct(rows) && k < |rows| == |plans| && forall i :: 0 <= i < |rows| ==> plans[i].backup == rows[i]
    requires |rest| == |Without(rows, rows[k])|
    requires forall i, j :: 0 <= i < |rest| && 0 <= j < |rows| && Without(rows, rows[k])[i] == rows[j] ==>
      rest[i] == plans[j]
    ensures rest == Without(plans, plans[k])
  {
    WithoutSplits(rows, k);
    assert forall i, j :: 0 <= i < j < |plans| ==> plans[i].backup != plans[j].backup;
    WithoutSplits(plans, k);
    var less := Without(rows, rows[k]);
    forall i | 0 <= i < |rest| ensures rest[i] == (plans[..k] + plans[k + 1..])[i] {
      if i < k { assert less[i] == rows[i]; } else { assert less[i] == rows[i + 1]; }
    }
  }

  lemma {:induction false} LocalPlanStays(t: Table, u: Table, active: set<BackupId>, rows: seq<BackupId>, p: Policy,
                                          x: BackupId, i: nat, j: nat)
    requires SameFacts(t, u) && Known(t, rows) && Distinct(rows) && x in t
    requires x in Rankable(t, rows) && IndexOf(Rankable(t, rows), x) >= p.keepLocal
    requires i < |Without(rows, x)| && j < |rows| && Without(rows, x)[i] == rows[j]
    ensures LocalPlans(u, active, Without(rows, x), p.keepLocal)[i] == LocalPlans(t, active, rows, p.keepLocal)[j]
  {
    RankableDistinct(t, rows);
    RankableWithout(t, rows, x);
    RankableSame(t, u, Without(rows, x));
    assert Without(rows, x)[i] in Without(rows, x);
    LocalVerdictStays(t, u, active, Rankable(t, rows), p, x, rows[j]);
  }

  lemma {:induction false} LocalPlansStay(t: Table, u: Table, active: set<BackupId>, rows: seq<BackupId>, p: Policy,
                                          k: nat)
    requires SameFacts(t, u) && Known(t, rows) && Distinct(rows) && k < |rows|
    requires rows[k] in Rankable(t, rows) && IndexOf(Rankable(t, rows), rows[k]) >= p.keepLocal
    ensures LocalPlans(u, active, Without(rows, rows[k]), p.keepLocal)
            == Without(LocalPlans(t, active, rows, p.keepLocal), LocalPlans(t, active, rows, p.keepLocal)[k])
  {
    var rest := Without(rows, rows[k]);
    var before, after := LocalPlans(t, active, rows, p.keepLocal), LocalPlans(u, active, rest, p.keepLocal);
    PlansFollowRows(t, active, rows, p);
    forall i, j | 0 <= i < |rest| && 0 <= j < |rows| && rest[i] == rows[j] ensures after[i] == before[j] {
      LocalPlanStays(t, u, active, rows, p, rows[k], i, j);
    }
    PlansWithout(rows, before, after, k);
  }

  lemma {:induction false} RemotePlanStays(t: Table, u: Table, active: set<BackupId>, rows: seq<BackupId>, p: Policy,
                                           x: BackupId, i: nat, j: nat)
    requires SameFacts(t, u) && Known(t, rows) && Distinct(rows) && x in t
    requires x in Rankable(t, rows) && IndexOf(Rankable(t, rows), x) >= p.keepRemote
    requires i < |Without(rows, x)| && j < |rows| && Without(rows, x)[i] == rows[j]
    ensures RemotePlans(u, active, Without(rows, x), p)[i] == RemotePlans(t, active, rows, p)[j]
  {
    RankableDistinct(t, rows);
    RankableWithout(t, rows, x);
    RankableSame(t, u, Without(rows, x));
    assert Without(rows, x)[i] in Without(rows, x);
    RemoteVerdictStays(t, u, active, Rankable(t, rows), p, x, rows[j]);
  }

  lemma {:induction false} RemotePlansStay(t: Table, u: Table, active: set<BackupId>, rows: seq<BackupId>, p: Policy,
                                           k: nat)
    requires SameFacts(t, u) && Known(t, rows) && Distinct(rows) && k < |rows|
    requires rows[k] in Rankable(t, rows) && IndexOf(Rankable(t, rows), rows[k]) >= p.keepRemote
    ensures RemotePlans(u, active, Without(rows, rows[k]), p)
            == Without(RemotePlans(t, active, rows, p), RemotePlans(t, active, rows, p)[k])
  {
    var rest := Without(rows, rows[k]);
    var before, after := RemotePlans(t, active, rows, p), RemotePlans(u, active, rest, p);
    PlansFollowRows(t, active, rows, p);
    forall i, j | 0 <= i < |rest| && 0 <= j < |rows| && rest[i] == rows[j] ensures after[i] == before[j] {
      RemotePlanStays(t, u, active, rows, p, rows[k], i, j);
    }
    PlansWithout(rows, before, after, k);
  }

  lemma PlansSame(t: Table, u: Table, active: set<BackupId>, rows: seq<BackupId>, p: Policy)
    requires SameFacts(t, u) && Known(t, rows)
    ensures LocalPlans(u, active, rows, p.keepLocal) == LocalPlans(t, active, rows, p.keepLocal)
    ensures RemotePlans(u, active, rows, p) == RemotePlans(t, active, rows, p)
  {
    RankableSame(t, u, rows);
    var ranked := Rankable(t, rows);
    BlockerSame(t, u, ranked[..Min(p.keepLocal, |ranked|)]);
    forall i | 0 <= i < |rows|
      ensures LocalPlans(u, active, rows, p.keepLocal)[i] == LocalPlans(t, active, rows, p.keepLocal)[i]
      ensures RemotePlans(u, active, rows, p)[i] == RemotePlans(t, active, rows, p)[i]
    {
      var id := rows[i];
      JudgementStays(id, t[id], u[id], IndexOf(ranked, id) < p.keepLocal, ReplacementBlocker(t, ranked, p.keepLocal),
                     id in active, p);
      JudgementStays(id, t[id], u[id], IndexOf(ranked, id) < p.keepRemote, None, id in active, p);
    }
  }
}
