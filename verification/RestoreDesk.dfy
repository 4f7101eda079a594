/** The restore service and its repository as they run: checks appended to a report, rows changed
    in place, each refusal with its own reason. */
module RestoreDesk {
  import opened Prelude
  import opened RetentionRows
  import opened Restores

  datatype Check = BackupRestorable | ArchivePresent | OtherChecks | NoRestoreInFlight

  datatype Reply =
    | Done
    | UnknownBackup
    | UnknownRestore
    | ChecksFailed(failed: seq<Check>)
    | HasExpired
    | NotAwaiting
    | WindowClosed
    | WrongToken
    | WrongTarget
    | OnTheHost
    | AlreadyOver

  /** What a preflight hears from outside: whether the host lists its archives, and whether the
      checks pass that concern neither the archive nor other restores. */
  datatype Live = Live(hostAnswers: bool, others: bool)

  class Desk {
    var table: Table
    var host: set<BackupId>
    var restores: Register

    /** Nothing is asked of the host about a backup that never produced an archive. */
    predicate HostAnswers(backup: BackupId, live: Live)
      reads this
    {
      backup in table && table[backup].filename.Some? ==> live.hostAnswers
    }

    function Inspected(backup: BackupId, live: Live): Option<RestoreSource>
      reads this
    {
      Inspect(table, host, restores, backup, live.others && HostAnswers(backup, live))
    }

    /** The report lists every failed check; it does not stop at the first. */
    method RunChecks(backup: BackupId, live: Live) returns (source: RestoreSource, failed: seq<Check>)
      requires backup in table
      ensures Inspected(backup, live) == if failed == [] then Some(source) else None
      ensures BackupRestorable in failed <==> table[backup].filename.None? || table[backup].status != Success
      ensures NoRestoreInFlight in failed <==> !NoneInFlight(restores)
      ensures ArchivePresent in failed <==>
        !HostAnswers(backup, live) || !((table[backup].filename.Some? && backup in host) || RemoteUsable(table[backup]))
      ensures OtherChecks in failed <==> !live.others
    {
      failed := [];
      var row := table[backup];
      if row.filename.None? || row.status != Success { failed := failed + [BackupRestorable]; }
      source := OnHost;
      if row.filename.Some? && !live.hostAnswers {
        failed := failed + [ArchivePresent];
      } else if row.filename.Some? && backup in host {
        source := OnHost;
      } else if RemoteUsable(row) {
        source := OnDrive;
      } else {
        failed := failed + [ArchivePresent];
      }
      if !live.others { failed := failed + [OtherChecks]; }
      if !NoneInFlight(restores) { failed := failed + [NoRestoreInFlight]; }
    }

    method Create(backup: BackupId, live: Live, id: RestoreId, token: Token, expiresAt: int) returns (reply: Reply)
      requires id !in restores
      modifies this`restores
      ensures reply == Done <==> old(Inspected(backup, live)).Some?
      ensures reply == Done ==>
        restores == Requested(old(restores), id, backup, old(Inspected(backup, live)).value, token, expiresAt)
      ensures reply != Done ==> restores == old(restores)
      ensures reply == UnknownBackup <==> backup !in table
      ensures reply == Done <==>
        && backup in table && table[backup].status == Success && table[backup].filename.Some?
        && live.hostAnswers && live.others
        && (backup in host || (table[backup].upload == Uploaded && table[backup].remotePath.Some?
                               && table[backup].remoteDeletedAt.None?))
        && forall r :: r in old(restores) ==>
             old(restores)[r].status != Authorised && old(restores)[r].status != InProgress
      ensures reply == Done ==>
        restores == old(restores)[id := Restore(backup, if backup in host then OnHost else OnDrive, Awaiting,
                                                Some(token), expiresAt, None, false)]
    {
      if backup !in table { return UnknownBackup; }
      var source, failed := RunChecks(backup, live);
      if failed != [] { return ChecksFailed(failed); }
      restores := Requested(restores, id, backup, source, token, expiresAt);
      return Done;
    }

    /** Refused in this order: state, expiry, token, target, and last the live checks. */
    method Confirm(id: RestoreId, token: Token, sameTarget: bool, live: Live, now: int) returns (reply: Reply)
      requires id in restores ==> restores[id].backup in table
      modifies this`restores
      ensures reply == Done <==>
        (Confirmable(old(restores), id, token, sameTarget, now) && old(Inspected(restores[id].backup, live)).Some?)
      ensures reply == Done ==>
        restores == ConfirmedAs(old(restores), id, old(Inspected(restores[id].backup, live)).value, now)
      ensures reply != Done ==> restores == old(restores)
      ensures reply == WindowClosed
        <==> id in old(restores) && old(restores)[id].status == Awaiting && old(restores)[id].expiresAt <= now
      ensures reply == UnknownRestore <==> id !in old(restores)
      ensures reply == HasExpired <==> id in old(restores) && old(restores)[id].status == Closed(Expired)
      ensures reply == NotAwaiting <==>
        id in old(restores) && old(restores)[id].status != Awaiting && old(restores)[id].status != Closed(Expired)
      ensures reply == WrongToken <==>
        && id in old(restores) && old(restores)[id].status == Awaiting && now < old(restores)[id].expiresAt
        && old(restores)[id].token != Some(token)
      ensures reply == WrongTarget <==>
        && id in old(restores) && old(restores)[id].status == Awaiting && now < old(restores)[id].expiresAt
        && old(restores)[id].token == Some(token) && !sameTarget
      ensures reply == Done <==>
        && id in old(restores) && old(restores)[id].status == Awaiting && now < old(restores)[id].expiresAt
        && old(restores)[id].token == Some(token) && sameTarget
        && (forall r :: r in old(restores) ==>
              old(restores)[r].status != Authorised && old(restores)[r].status != InProgress)
        && live.hostAnswers && live.others
        && var b := old(restores)[id].backup;
           && table[b].status == Success && table[b].filename.Some?
           && (b in host || (table[b].upload == Uploaded && table[b].remotePath.Some?
                             && table[b].remoteDeletedAt.None?))
      ensures reply == Done ==>
        restores == old(restores)[id := old(restores)[id].(
          status := Authorised, source := if old(restores)[id].backup in host then OnHost else OnDrive,
          confirmedAt := Some(now), token := None)]
    {
      if id !in restores { return UnknownRestore; }
      var row := restores[id];
      if row.status == Closed(Expired) { return HasExpired; }
      if row.status != Awaiting { return NotAwaiting; }
      if row.expiresAt <= now { return WindowClosed; }
      if row.token != Some(token) { return WrongToken; }
      if !sameTarget { return WrongTarget; }
      var source, failed := RunChecks(row.backup, live);
      if failed != [] { return ChecksFailed(failed); }
      restores := ConfirmedAs(restores, id, source, now);
      return Done;
    }

    method Cancel(id: RestoreId) returns (reply: Reply)
      modifies this`restores
      ensures restores == CancelledIn(old(restores), id)
      ensures reply == Done
        <==> id in old(restores) && (old(restores)[id].status == Awaiting || old(restores)[id].status == Authorised)
      ensures restores ==
        if reply == Done then
          old(restores)[id := old(restores)[id].(status := Closed(RestoreCancelled), token := None)]
        else old(restores)
      ensures reply == UnknownRestore <==> id !in old(restores)
      ensures reply == OnTheHost <==> id in old(restores) && old(restores)[id].status == InProgress
    {
      if id !in restores { return UnknownRestore; }
      if restores[id].status == InProgress { return OnTheHost; }
      if restores[id].status.Closed? { return AlreadyOver; }
      restores := restores[id := restores[id].(status := Closed(RestoreCancelled), token := None)];
      return Done;
    }

    /** Close every window that has elapsed, row by row; `rows` lists the register by id. */
    method ExpirePending(rows: seq<RestoreId>, now: int) returns (expired: seq<RestoreId>)
      requires Distinct(rows) && forall id :: id in rows <==> id in restores
      modifies this`restores
      ensures restores == ExpiredIn(old(restores), now)
      ensures forall id :: id in expired <==>
        id in old(restores) && old(restores)[id].status == Awaiting && old(restores)[id].expiresAt <= now
      ensures restores.Keys == old(restores).Keys && forall id :: id in restores ==>
        restores[id] == if id in expired then old(restores)[id].(status := Closed(Expired), token := None)
                        else old(restores)[id]
    {
      ghost var before := restores;
      expired := [];
      for i := 0 to |rows|
        invariant restores.Keys == before.Keys
        invariant forall id :: id in restores ==>
          restores[id] == if id in rows[..i] then ExpiredIn(before, now)[id] else before[id]
        invariant forall id :: id in expired <==> id in rows[..i] && Stale(before[id], now)
      {
        var id := rows[i];
        assert rows[..i + 1] == rows[..i] + [id];
        assert id in rows && id !in rows[..i];
        if restores[id].status == Awaiting && restores[id].expiresAt <= now {
          restores := restores[id := restores[id].(status := Closed(Expired), token := None)];
          expired := expired + [id];
        }
      }
      assert rows[..|rows|] == rows;
      assert restores == ExpiredIn(before, now);
    }
  }
}
