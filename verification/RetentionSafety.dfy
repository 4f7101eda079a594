/** What a deletion requires, said without ranks, and what one deletion leaves alone. */
module RetentionSafety {
  import opened Prelude
  import opened Listings
  import opened RetentionRows
  import opened RetentionPlans

  // ---- conditions for a deletion -------------------------------------------------------

  /** The copies of a guest that compete for the keep slots of a location. */
  ghost function Contenders(t: Table, ids: set<BackupId>): set<BackupId> {
    set id | id in ids && id in t && CanRank(t[id])
  }

  /** `newest` are the `keep` newest of `ids`. */
  ghost predicate NewestOf(t: Table, ids: set<BackupId>, keep: nat, newest: set<BackupId>) {
    && |newest| == keep && newest <= ids
    && forall n, other :: n in newest && other in ids - newest ==> Newer(Starts(t), n, other)
  }

  ghost predicate AllReplicated(t: Table, ids: set<BackupId>) {
    forall id :: id in ids ==> id in t && Replicated(t[id])
  }

  /** Something to keep exists, is safe elsewhere, and is newer; and this copy is safe elsewhere
      too, is not pinned, and nobody is restoring from it. */
  ghost predicate MayDeleteLocal(t: Table, active: set<BackupId>, keep: nat, id: BackupId) {
    && id in t && LocalCopy(t[id]) && CanRank(t[id]) && Replicated(t[id]) && id !in active
    && exists newest :: && NewestOf(t, Contenders(t, LocalIds(t, t[id].guest)), keep, newest)
                        && id !in newest && AllReplicated(t, newest)
  }

  ghost predicate MayDeleteRemote(t: Table, active: set<BackupId>, p: Policy, id: BackupId) {
    && id in t && RemoteCopy(t[id]) && CanRank(t[id]) && id !in active
    && p.deleteRemote && p.gdriveEnabled && HasTarget(t[id])
    && exists newest :: && NewestOf(t, Contenders(t, RemoteIds(t, t[id].guest)), p.keepRemote, newest)
                        && id !in newest
  }

  // ---- ranks count the newer contenders ------------------------------------------------

  lemma {:induction false} RankableAscends(t: Table, rows: seq<BackupId>, less: (BackupId, BackupId) -> bool)
    requires Known(t, rows) && Ascending(rows, less)
    ensures Ascending(Rankable(t, rows), less)
  {
    if rows != [] {
      RankableAscends(t, rows[1..], less);
      forall y | y in Rankable(t, rows[1..]) ensures less(rows[0], y) {
        var k :| 0 <= k < |rows[1..]| && rows[1..][k] == y;
        assert less(rows[0], rows[k + 1]);
      }
    }
  }

  lemma {:induction false} RankedListsContenders(t: Table, rows: seq<BackupId>, ids: set<BackupId>)
    requires ids <= t.Keys && Lists(rows, ids, NewestFirst(Starts(t)))
    ensures Known(t, rows)
    ensures Lists(Rankable(t, rows), Contenders(t, ids), NewestFirst(Starts(t)))
  {
    RankableAscends(t, rows, NewestFirst(Starts(t)));
  }

  lemma AscendingIsDistinct(t: Table, s: seq<BackupId>)
    requires Ascending(s, NewestFirst(Starts(t)))
    ensures Distinct(s)
  {
    NewestFirstIsTotal(Starts(t));
  }

  /** A prefix of the ranking is exactly the newest of the contenders. */
  lemma PrefixIsNewest(t: Table, ranked: seq<BackupId>, ids: set<BackupId>, keep: nat)
    requires Lists(ranked, ids, NewestFirst(Starts(t))) && keep <= |ranked|
    ensures NewestOf(t, ids, keep, set id | id in ranked[..keep])
  {
    AscendingIsDistinct(t, ranked);
    var newest := set id | id in ranked[..keep];
    DistinctSize(ranked[..keep]);
    forall n, other | n in newest && other in ids - newest ensures Newer(Starts(t), n, other) {
      var i :| 0 <= i < keep && ranked[i] == n;
      var j :| 0 <= j < |ranked| && ranked[j] == other;
      assert forall m :: 0 <= m < keep ==> ranked[m] in ranked[..keep];
      assert NewestFirst(Starts(t))(ranked[i], ranked[j]);
    }
  }

  lemma NewestIsPrefix(t: Table, ranked: seq<BackupId>, ids: set<BackupId>, keep: nat, newest: set<BackupId>)
    requires Lists(ranked, ids, NewestFirst(Starts(t))) && NewestOf(t, ids, keep, newest)
    ensures keep <= |ranked| && newest == set id | id in ranked[..keep]
  {
    AscendingIsDistinct(t, ranked);
    var all := set id | id in ranked;
    DistinctSize(ranked);
    assert all == ids;
    SubsetSize(newest, all);
    assert keep <= |ranked|;
    PrefixIsNewest(t, ranked, ids, keep);
    SameNewest(t, ids, keep, newest, set id | id in ranked[..keep]);
  }

  lemma Outranks(t: Table, ids: set<BackupId>, keep: nat, newest: set<BackupId>, n: BackupId, other: BackupId)
    requires NewestOf(t, ids, keep, newest) && n in newest && other in ids
    ensures other in newest || Newer(Starts(t), n, other)
  {
    assert other in newest || other in ids - newest;
  }

  lemma SameNewest(t: Table, ids: set<BackupId>, keep: nat, a: set<BackupId>, b: set<BackupId>)
    requires NewestOf(t, ids, keep, a) && NewestOf(t, ids, keep, b)
    ensures a == b
  {
    NewestFirstIsTotal(Starts(t));
    if a <= b {
      FullSubset(a, b);
    } else {
      var x :| x in a && x !in b;
      forall y | y in b ensures y in a {
        Outranks(t, ids, keep, b, y, x);
        Outranks(t, ids, keep, a, x, y);
      }
      FullSubset(b, a);
    }
  }

  lemma {:induction false} IndexBeyond(ranked: seq<BackupId>, keep: nat, id: BackupId)
    requires keep <= |ranked| && id in ranked
    ensures IndexOf(ranked, id) >= keep <==> id !in ranked[..keep]
  {
    var k := IndexOf(ranked, id);
    if k < keep { assert ranked[..keep][k] == id; } else { assert ranked[..keep] == ranked[..k][..keep]; }
  }

  lemma {:induction false} BeyondIff(t: Table, ranked: seq<BackupId>, ids: set<BackupId>, keep: nat, id: BackupId)
    requires Lists(ranked, ids, NewestFirst(Starts(t))) && id in ids
    ensures IndexOf(ranked, id) >= keep <==> exists newest :: NewestOf(t, ids, keep, newest) && id !in newest
  {
    if keep <= |ranked| {
      IndexBeyond(ranked, keep, id);
      PrefixIsNewest(t, ranked, ids, keep);
    }
    if newest :| NewestOf(t, ids, keep, newest) && id !in newest {
      NewestIsPrefix(t, ranked, ids, keep, newest);
    }
  }

  lemma {:induction false} SafeReplacementsIff(t: Table, ranked: seq<BackupId>, ids: set<BackupId>, keep: nat,
                                               id: BackupId)
    requires Known(t, ranked) && Lists(ranked, ids, NewestFirst(Starts(t))) && id in ids
    requires IndexOf(ranked, id) >= keep
    ensures keep <= |ranked|
    ensures FirstBlocker(t, ranked[..keep]).None?
            <==> exists newest :: NewestOf(t, ids, keep, newest) && id !in newest && AllReplicated(t, newest)
  {
    IndexBeyond(ranked, keep, id);
    PrefixIsNewest(t, ranked, ids, keep);
    var prefix := set other | other in ranked[..keep];
    assert id !in prefix;
    assert FirstBlocker(t, ranked[..keep]).None? ==> AllReplicated(t, prefix);
    if newest :| NewestOf(t, ids, keep, newest) && id !in newest && AllReplicated(t, newest) {
      NewestIsPrefix(t, ranked, ids, keep, newest);
      assert forall other :: other in ranked[..keep] ==> other in newest;
    }
  }

  lemma {:induction false} LocalRankIff(t: Table, ranked: seq<BackupId>, ids: set<BackupId>, keep: nat, id: BackupId)
    requires Known(t, ranked) && Lists(ranked, ids, NewestFirst(Starts(t))) && id in ids
    ensures IndexOf(ranked, id) >= keep && ReplacementBlocker(t, ranked, keep).None?
            <==> exists newest :: NewestOf(t, ids, keep, newest) && id !in newest && AllReplicated(t, newest)
  {
    BeyondIff(t, ranked, ids, keep, id);
    if IndexOf(ranked, id) >= keep {
      SafeReplacementsIff(t, ranked, ids, keep, id);
      assert ReplacementBlocker(t, ranked, keep) == FirstBlocker(t, ranked[..keep]);
    }
  }

  /** The classifier deletes a local copy exactly when the stated conditions hold. */
  lemma {:induction false} LocalDeletionIff(t: Table, active: set<BackupId>, keep: nat, id: BackupId)
    requires id in t && LocalCopy(t[id])
    ensures Known(t, LocalForGuest(t, t[id].guest))
    ensures LocalVerdict(t, active, Rankable(t, LocalForGuest(t, t[id].guest)), keep, id).wouldDelete
            <==> MayDeleteLocal(t, active, keep, id)
  {
    var ids := LocalIds(t, t[id].guest);
    var rows := LocalForGuest(t, t[id].guest);
    RankedListsContenders(t, rows, ids);
    var ranked := Rankable(t, rows);
    LocalVerdictDeletes(t, active, ranked, keep, id);
    if CanRank(t[id]) { LocalRankIff(t, ranked, Contenders(t, ids), keep, id); }
  }

  lemma {:induction false} RemoteDeletionIff(t: Table, active: set<BackupId>, p: Policy, id: BackupId)
    requires id in t && RemoteCopy(t[id])
    ensures Known(t, RemoteForGuest(t, t[id].guest))
    ensures RemoteVerdict(t, active, Rankable(t, RemoteForGuest(t, t[id].guest)), p, id).wouldDelete
            <==> MayDeleteRemote(t, active, p, id)
  {
    var ids := RemoteIds(t, t[id].guest);
    var rows := RemoteForGuest(t, t[id].guest);
    RankedListsContenders(t, rows, ids);
    RemoteVerdictDeletes(t, active, Rankable(t, rows), p, id);
    if CanRank(t[id]) { BeyondIff(t, Rankable(t, rows), Contenders(t, ids), p.keepRemote, id); }
  }

  // ---- where the bytes of a deleted copy are -------------------------------------------

  /** A local copy that may be deleted has a remote one exactly if it was uploaded and the upload has
      not been deleted since: the classifier asks only whether it was uploaded. */
  lemma DeletedIsRemoteIff(t: Table, active: set<BackupId>, keep: nat, id: BackupId)
    requires MayDeleteLocal(t, active, keep, id)
    ensures RemoteCopy(t[id]) <==> t[id].upload == Uploaded && t[id].remoteDeletedAt.None?
  {
  }

  /** Two backups of a guest; the older one was uploaded, and its upload deleted. */
  function TwoBackups(g: Guest): Table {
    map[1 := Record(g, Success, Some("one"), Uploaded, false, Some(1), None, Some(5), Some("drive:one")),
        2 := Record(g, Success, Some("two"), NotRequired, false, Some(2), None, None, None)]
  }

  /** So the last bytes of a backup can go, though never those of a guest's newest ones. */
  lemma LastBytesCanGo(g: Guest)
    ensures MayDeleteLocal(TwoBackups(g), {}, 1, 1) && !RemoteCopy(TwoBackups(g)[1])
  {
    var t := TwoBackups(g);
    assert LocalIds(t, g) == {1, 2};
    assert Contenders(t, LocalIds(t, g)) == {1, 2};
    assert NewestOf(t, {1, 2}, 1, {2});
    assert AllReplicated(t, {2});
  }
}
