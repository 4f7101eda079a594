/** The backup history as retention reads it: which rows hold a copy, in which order they are
    listed, and how deleting a copy is recorded. */
module RetentionRows {
  import opened Prelude
  import opened Listings

  type BackupId = nat

  datatype Upload = NotRequired | UploadPending | Uploading | Uploaded | UploadFailed

  datatype Record = Record(
    guest: Guest,
    status: RowStatus,
    filename: Option<string>,
    upload: Upload,
    locked: bool,
    startedAt: Option<int>,
    localDeletedAt: Option<int>,
    remoteDeletedAt: Option<int>,
    remotePath: Option<string>)

  type Table = map<BackupId, Record>

  predicate LocalCopy(r: Record) {
    r.status == Success && r.localDeletedAt.None? && r.filename.Some?
  }

  predicate RemoteCopy(r: Record) {
    && (r.status == Success || r.status == Deleted)
    && r.upload == Uploaded && r.remoteDeletedAt.None? && r.remotePath.Some? && r.filename.Some?
  }

  /** A row is marked deleted only when it has no local copy left. */
  ghost predicate WellFormed(t: Table) {
    forall id :: id in t && t[id].status == Deleted ==> t[id].localDeletedAt.Some? || t[id].filename.None?
  }

  // ---- marking -------------------------------------------------------------------------

  function Refreshed(r: Record): Record {
    var localExists := r.localDeletedAt.None? && r.filename.Some?;
    var remoteExists := r.remotePath.Some? && r.remoteDeletedAt.None?;
    r.(status := if localExists || remoteExists then Success else Deleted)
  }

  function LocalMarked(t: Table, id: BackupId, at: int): Table {
    if id !in t || t[id].localDeletedAt.Some? then t
    else t[id := Refreshed(t[id].(localDeletedAt := Some(at)))]
  }

  function RemoteMarked(t: Table, id: BackupId, at: int): Table {
    if id !in t || t[id].remoteDeletedAt.Some? then t
    else t[id := Refreshed(t[id].(remoteDeletedAt := Some(at)))]
  }

  // ---- order ---------------------------------------------------------------------------

  function Starts(t: Table): map<BackupId, Option<int>> {
    map id | id in t :: t[id].startedAt
  }

  function StartOf(starts: map<BackupId, Option<int>>, id: BackupId): Option<int> {
    if id in starts then starts[id] else None
  }

  /** Undated rows last, then latest start first, then highest id first. */
  predicate Newer(starts: map<BackupId, Option<int>>, a: BackupId, b: BackupId) {
    var x, y := StartOf(starts, a), StartOf(starts, b);
    if x.Some? != y.Some? then x.Some?
    else if x.Some? && x.value != y.value then x.value > y.value
    else a > b
  }

  function NewestFirst(starts: map<BackupId, Option<int>>): (BackupId, BackupId) -> bool {
    (a: BackupId, b: BackupId) => Newer(starts, a, b)
  }

  lemma NewestFirstIsTotal(starts: map<BackupId, Option<int>>)
    ensures StrictTotal(NewestFirst(starts))
  {
  }

  predicate GuestBefore(a: Guest, b: Guest) {
    a.vmid < b.vmid || (a.vmid == b.vmid && a.kind == Lxc && b.kind == Vm)
  }

  function GuestOrder(): (Guest, Guest) -> bool { (a, b) => GuestBefore(a, b) }

  lemma GuestOrderIsTotal()
    ensures StrictTotal(GuestOrder())
  {
  }

  // ---- queries -------------------------------------------------------------------------

  function LocalIds(t: Table, g: Guest): set<BackupId> {
    set id | id in t && t[id].guest == g && LocalCopy(t[id])
  }

  function RemoteIds(t: Table, g: Guest): set<BackupId> {
    set id | id in t && t[id].guest == g && RemoteCopy(t[id])
  }

  /** What counts as a copy: on the host, a successful backup whose archive was not deleted there; on the
      drive, an uploaded one that was not deleted there, whatever became of the local one. */
  lemma CopiesAre(t: Table, g: Guest, id: BackupId)
    ensures id in LocalIds(t, g) <==>
      && id in t && t[id].guest == g && t[id].status == Success && t[id].localDeletedAt == None
      && t[id].filename != None
    ensures id in RemoteIds(t, g) <==>
      && id in t && t[id].guest == g && t[id].status in {Success, Deleted} && t[id].upload == Uploaded
      && t[id].remoteDeletedAt == None && t[id].remotePath != None && t[id].filename != None
  {
  }

  /** Marking a copy dates its deletion, and calls the row deleted if that was its last copy. */
  lemma MarkingSays(t: Table, id: BackupId, at: int)
    requires id in t
    ensures t[id].localDeletedAt.None? ==>
      LocalMarked(t, id, at) == t[id := t[id].(
        localDeletedAt := Some(at),
        status := if t[id].remotePath != None && t[id].remoteDeletedAt == None then Success else Deleted)]
    ensures t[id].remoteDeletedAt.None? ==>
      RemoteMarked(t, id, at) == t[id := t[id].(
        remoteDeletedAt := Some(at),
        status := if t[id].filename != None && t[id].localDeletedAt == None then Success else Deleted)]
    ensures t[id].localDeletedAt.Some? ==> LocalMarked(t, id, at) == t
    ensures t[id].remoteDeletedAt.Some? ==> RemoteMarked(t, id, at) == t
  {
  }

  /** Rows are listed latest start first, of equal starts the higher id first, those without a start
      last; guests by number, a container before a machine of the same number. */
  lemma ListedInOrder(t: Table, a: BackupId, b: BackupId, g: Guest, h: Guest)
    requires a in t && b in t
    ensures NewestFirst(Starts(t))(a, b) <==>
      match (t[a].startedAt, t[b].startedAt)
      case (Some(x), Some(y)) => x > y || (x == y && a > b)
      case (Some(_), None) => true
      case (None, Some(_)) => false
      case (None, None) => a > b
    ensures GuestOrder()(g, h) <==> g.vmid < h.vmid || (g.vmid == h.vmid && g.kind == Lxc && h.kind == Vm)
  {
  }

  function CopyIds(t: Table, g: Guest): set<BackupId> { LocalIds(t, g) + RemoteIds(t, g) }

  function LocalForGuest(t: Table, g: Guest): (rows: seq<BackupId>)
    ensures Lists(rows, LocalIds(t, g), NewestFirst(Starts(t)))
  {
    NewestFirstIsTotal(Starts(t));
    Listing(LocalIds(t, g), NewestFirst(Starts(t)))
  }

  function RemoteForGuest(t: Table, g: Guest): (rows: seq<BackupId>)
    ensures Lists(rows, RemoteIds(t, g), NewestFirst(Starts(t)))
  {
    NewestFirstIsTotal(Starts(t));
    Listing(RemoteIds(t, g), NewestFirst(Starts(t)))
  }

  function GuestsWithCopies(t: Table): set<Guest> {
    set id | id in t && (LocalCopy(t[id]) || RemoteCopy(t[id])) :: t[id].guest
  }

  function GuestKeys(t: Table): (guests: seq<Guest>)
    ensures Lists(guests, GuestsWithCopies(t), GuestOrder())
  {
    GuestOrderIsTotal();
    Listing(GuestsWithCopies(t), GuestOrder())
  }

  // ---- retention triggers --------------------------------------------------------------

  /** The newest existing copy of the guest a backup belongs to. */
  function CanonicalTrigger(t: Table, id: BackupId): Option<BackupId> {
    if id !in t then None
    else
      NewestFirstIsTotal(Starts(t));
      var copies := Listing(CopyIds(t, t[id].guest), NewestFirst(Starts(t)));
      if copies == [] then None else Some(copies[0])
  }

  ghost function GuestOf(t: Table, id: BackupId): Guest {
    if id in t then t[id].guest else Guest(0, Lxc)
  }

  /** By guest, and newest first within a guest. */
  ghost predicate TriggerBefore(guests: map<BackupId, Guest>, starts: map<BackupId, Option<int>>, a: BackupId,
                                b: BackupId)
  {
    var x := if a in guests then guests[a] else Guest(0, Lxc);
    var y := if b in guests then guests[b] else Guest(0, Lxc);
    if x == y then Newer(starts, a, b) else GuestBefore(x, y)
  }

  ghost function TriggerOrder(t: Table): (BackupId, BackupId) -> bool {
    var guests := map id | id in t :: t[id].guest;
    var starts := Starts(t);
    (a: BackupId, b: BackupId) => TriggerBefore(guests, starts, a, b)
  }

  lemma TriggerOrderIsTotal(t: Table)
    ensures StrictTotal(TriggerOrder(t))
  {
  }

  ghost function AllCopies(t: Table): set<BackupId> {
    set id | id in t && (LocalCopy(t[id]) || RemoteCopy(t[id]))
  }

  /** One pass over every existing copy in trigger order, keeping the first row seen of each
      guest. `rows` is the query's answer, each row with its guest. */
  method NewestTriggers(rows: seq<(BackupId, Guest)>) returns (ids: seq<BackupId>)
    ensures ids == FirstOfEach(rows)
  {
    var seen: set<Guest> := {};
    ids := [];
    for i := 0 to |rows|
      invariant seen == set k | 0 <= k < i :: rows[k].1
      invariant ids == FirstOfEach(rows[..i])
    {
      assert rows[..i + 1][..i] == rows[..i];
      if rows[i].1 !in seen {
        seen := seen + {rows[i].1};
        ids := ids + [rows[i].0];
      }
    }
    assert rows[..|rows|] == rows;
  }

  ghost function FirstOfEach(rows: seq<(BackupId, Guest)>): seq<BackupId> {
    if rows == [] then []
    else
      var n := |rows| - 1;
      FirstOfEach(rows[..n])
        + if exists k :: 0 <= k < n && rows[k].1 == rows[n].1 then [] else [rows[n].0]
  }

  ghost function TriggerRows(t: Table): seq<(BackupId, Guest)> {
    TriggerOrderIsTotal(t);
    var ids := Listing(AllCopies(t), TriggerOrder(t));
    seq(|ids|, i requires 0 <= i < |ids| => (ids[i], GuestOf(t, ids[i])))
  }

  /** Row `k` is the first of its guest. */
  ghost predicate Leads(rows: seq<(BackupId, Guest)>, k: nat) {
    k < |rows| && forall j :: 0 <= j < k ==> rows[j].1 != rows[k].1
  }

  ghost predicate LedAt(rows: seq<(BackupId, Guest)>, k: nat, id: BackupId, g: Guest) {
    Leads(rows, k) && rows[k] == (id, g)
  }

  ghost predicate Led(rows: seq<(BackupId, Guest)>, id: BackupId, g: Guest) { exists k: nat :: LedAt(rows, k, id, g) }

  ghost predicate Grouped(rows: seq<(BackupId, Guest)>) {
    forall i, j :: 0 <= i < j < |rows| ==> rows[i].1 == rows[j].1 || GuestBefore(rows[i].1, rows[j].1)
  }

  /** The leaders, with their guests. */
  ghost function Leaders(rows: seq<(BackupId, Guest)>): seq<(BackupId, Guest)> {
    if rows == [] then []
    else
      var n := |rows| - 1;
      Leaders(rows[..n]) + if Leads(rows, n) then [rows[n]] else []
  }

  lemma {:induction false} LeadersAreNamed(rows: seq<(BackupId, Guest)>)
    ensures var s := Leaders(rows); FirstOfEach(rows) == seq(|s|, i requires 0 <= i < |s| => s[i].0)
  {
    if rows != [] { LeadersAreNamed(rows[..|rows| - 1]); }
  }

  lemma {:induction false} LedBefore(rows: seq<(BackupId, Guest)>, id: BackupId, g: Guest)
    requires rows != []
    ensures Led(rows, id, g) <==>
      Led(rows[..|rows| - 1], id, g) || (Leads(rows, |rows| - 1) && rows[|rows| - 1] == (id, g))
  {
    var n := |rows| - 1;
    if k: nat :| LedAt(rows[..n], k, id, g) {
      LeadsBefore(rows, k);
      assert LedAt(rows, k, id, g);
    }
    if k: nat :| LedAt(rows, k, id, g) {
      if k < n {
        LeadsBefore(rows, k);
        assert LedAt(rows[..n], k, id, g);
      }
    }
    if Leads(rows, n) && rows[n] == (id, g) { assert LedAt(rows, n, id, g); }
  }

  lemma {:induction false} LeadsBefore(rows: seq<(BackupId, Guest)>, k: nat)
    requires k < |rows| - 1
    ensures Leads(rows, k) <==> Leads(rows[..|rows| - 1], k)
  {
    var front := rows[..|rows| - 1];
    assert forall j :: 0 <= j <= k ==> front[j] == rows[j];
  }

  lemma {:induction false} LeadersAre(rows: seq<(BackupId, Guest)>)
    ensures var s := Leaders(rows);
      && FirstOfEach(rows) == seq(|s|, i requires 0 <= i < |s| => s[i].0)
      && (forall p :: p in s <==> Led(rows, p.0, p.1))
  {
    LeadersAreNamed(rows);
    if rows != [] {
      LeadersAre(rows[..|rows| - 1]);
      forall p: (BackupId, Guest) ensures p in Leaders(rows) <==> Led(rows, p.0, p.1) { LedBefore(rows, p.0, p.1); }
    }
  }

  lemma {:induction false} LeadersAscend(rows: seq<(BackupId, Guest)>)
    requires Grouped(rows)
    ensures forall i, j :: 0 <= i < j < |Leaders(rows)| ==> GuestBefore(Leaders(rows)[i].1, Leaders(rows)[j].1)
  {
    if rows != [] {
      LeadersAscend(rows[..|rows| - 1]);
      if Leads(rows, |rows| - 1) { LastLeaderIsAfter(rows); }
    }
  }

  lemma {:induction false} LastLeaderIsAfter(rows: seq<(BackupId, Guest)>)
    requires Grouped(rows) && rows != [] && Leads(rows, |rows| - 1)
    ensures forall p :: p in Leaders(rows[..|rows| - 1]) ==> GuestBefore(p.1, rows[|rows| - 1].1)
  {
    var n := |rows| - 1;
    LeadersAre(rows[..n]);
    forall p | p in Leaders(rows[..n]) ensures GuestBefore(p.1, rows[n].1) {
      var k: nat :| LedAt(rows[..n], k, p.0, p.1);
      assert rows[k].1 != rows[n].1;
    }
  }

  lemma TriggerRowsGrouped(t: Table)
    ensures Grouped(TriggerRows(t))
    ensures forall p :: p in TriggerRows(t) <==> p.0 in AllCopies(t) && p.1 == t[p.0].guest
  {
    TriggerOrderIsTotal(t);
    var ids := Listing(AllCopies(t), TriggerOrder(t));
    var rows := TriggerRows(t);
    forall i, j | 0 <= i < j < |rows| ensures rows[i].1 == rows[j].1 || GuestBefore(rows[i].1, rows[j].1) {
      assert TriggerOrder(t)(ids[i], ids[j]);
      assert ids[i] in AllCopies(t) && ids[j] in AllCopies(t);
    }
    forall p: (BackupId, Guest) ensures p in rows <==> p.0 in AllCopies(t) && p.1 == GuestOf(t, p.0) {
      if p.0 in AllCopies(t) && p.1 == GuestOf(t, p.0) {
        var k :| 0 <= k < |ids| && ids[k] == p.0;
        assert rows[k] == p;
      }
      if p in rows {
        var k :| 0 <= k < |rows| && rows[k] == p;
        assert ids[k] in AllCopies(t);
      }
    }
  }

  /** A leader is the newest existing copy of its guest. */
  lemma LeaderIsNewest(t: Table, id: BackupId, g: Guest)
    requires Led(TriggerRows(t), id, g)
    ensures First(id, CopyIds(t, g), NewestFirst(Starts(t)))
  {
    TriggerRowsGrouped(t);
    TriggerOrderIsTotal(t);
    var ids := Listing(AllCopies(t), TriggerOrder(t));
    var rows := TriggerRows(t);
    var k: nat :| LedAt(rows, k, id, g);
    assert rows[k] in rows;
    forall y | y in CopyIds(t, g) ensures y == id || Newer(Starts(t), id, y) {
      assert y in AllCopies(t);
      var m :| 0 <= m < |ids| && ids[m] == y;
      assert rows[m].1 == g;
      if k < m { assert TriggerOrder(t)(ids[k], ids[m]); }
    }
  }

  lemma NewestIsCanonical(t: Table, id: BackupId, b: BackupId)
    requires b in t && First(id, CopyIds(t, t[b].guest), NewestFirst(Starts(t)))
    ensures CanonicalTrigger(t, b) == Some(id)
  {
    NewestFirstIsTotal(Starts(t));
    var copies := Listing(CopyIds(t, t[b].guest), NewestFirst(Starts(t)));
    HeadIsFirst(copies, CopyIds(t, t[b].guest), NewestFirst(Starts(t)), id);
  }

  ghost function GuestsOf(pairs: seq<(BackupId, Guest)>): seq<Guest> {
    seq(|pairs|, i requires 0 <= i < |pairs| => pairs[i].1)
  }

  lemma LeaderHasCopies(t: Table, i: nat)
    requires i < |Leaders(TriggerRows(t))|
    ensures Leaders(TriggerRows(t))[i].1 in GuestsWithCopies(t)
  {
    var rows := TriggerRows(t);
    var p := Leaders(rows)[i];
    TriggerRowsGrouped(t);
    LeadersAre(rows);
    assert p in Leaders(rows);
    var k: nat :| LedAt(rows, k, p.0, p.1);
    assert rows[k] in rows;
  }

  lemma GuestHasLeader(t: Table, g: Guest)
    requires g in GuestsWithCopies(t)
    ensures g in GuestsOf(Leaders(TriggerRows(t)))
  {
    var rows := TriggerRows(t);
    TriggerRowsGrouped(t);
    LeadersAre(rows);
    var id :| id in t && (LocalCopy(t[id]) || RemoteCopy(t[id])) && t[id].guest == g;
    assert (id, g) in rows;
    var k := FirstWithGuest(rows, g);
    assert LedAt(rows, k, rows[k].0, rows[k].1);
    assert rows[k] in Leaders(rows);
    var i :| 0 <= i < |Leaders(rows)| && Leaders(rows)[i] == rows[k];
    assert GuestsOf(Leaders(rows))[i] == g;
  }

  lemma LeadersCoverGuests(t: Table)
    ensures GuestsOf(Leaders(TriggerRows(t))) == GuestKeys(t)
  {
    var leaders := Leaders(TriggerRows(t));
    var guests := GuestsOf(leaders);
    TriggerRowsGrouped(t);
    LeadersAscend(TriggerRows(t));
    GuestOrderIsTotal();
    forall g ensures g in guests <==> g in GuestsWithCopies(t) {
      if g in guests {
        var i :| 0 <= i < |guests| && guests[i] == g;
        LeaderHasCopies(t, i);
      }
      if g in GuestsWithCopies(t) { GuestHasLeader(t, g); }
    }
    ListingUnique(guests, GuestKeys(t), GuestOrder());
  }

  lemma {:induction false} FirstWithGuest(rows: seq<(BackupId, Guest)>, g: Guest) returns (k: nat)
    requires exists p :: p in rows && p.1 == g
    ensures Leads(rows, k) && rows[k].1 == g
  {
    k := 0;
    var p :| p in rows && p.1 == g;
    var m :| 0 <= m < |rows| && rows[m] == p;
    while rows[k].1 != g
      invariant k <= m && forall j :: 0 <= j < k ==> rows[j].1 != g
      decreases m - k
    {
      k := k + 1;
    }
  }

  /** The deduplicated pass yields one trigger per guest of `GuestKeys`, in that order, and each
      is what any backup of that guest resolves to. */
  lemma TriggersAgree(t: Table, i: nat, b: BackupId)
    requires i < |GuestKeys(t)| && b in t && t[b].guest == GuestKeys(t)[i]
    ensures var ids := FirstOfEach(TriggerRows(t));
      |ids| == |GuestKeys(t)| && ids[i] in t && t[ids[i]].guest == GuestKeys(t)[i]
      && CanonicalTrigger(t, b) == Some(ids[i])
  {
    var rows := TriggerRows(t);
    var leaders := Leaders(rows);
    LeadersAre(rows);
    LeadersCoverGuests(t);
    assert GuestsOf(leaders)[i] == leaders[i].1;
    assert leaders[i] in leaders;
    LeaderIsNewest(t, leaders[i].0, leaders[i].1);
    NewestIsCanonical(t, leaders[i].0, b);
  }

  /** A backup resolves to a trigger exactly when its guest still has a copy, and then to the
      newest of them. */
  lemma CanonicalIff(t: Table, b: BackupId)
    ensures CanonicalTrigger(t, b).Some? <==> b in t && t[b].guest in GuestsWithCopies(t)
    ensures CanonicalTrigger(t, b).Some? ==>
      First(CanonicalTrigger(t, b).value, CopyIds(t, t[b].guest), NewestFirst(Starts(t)))
  {
    if b in t {
      NewestFirstIsTotal(Starts(t));
      var copies := Listing(CopyIds(t, t[b].guest), NewestFirst(Starts(t)));
      if copies != [] {
        assert copies[0] in copies;
        forall y | y in CopyIds(t, t[b].guest) ensures y == copies[0] || Newer(Starts(t), copies[0], y) {
          var m :| 0 <= m < |copies| && copies[m] == y;
          if m > 0 { assert NewestFirst(Starts(t))(copies[0], copies[m]); }
        }
      }
      if t[b].guest in GuestsWithCopies(t) {
        var id :| id in t && (LocalCopy(t[id]) || RemoteCopy(t[id])) && t[id].guest == t[b].guest;
        assert id in copies;
      }
    }
  }
}
