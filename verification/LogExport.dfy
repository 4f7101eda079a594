/** The log export walks the filtered rows newest first, one chunk per query, while others go on
    inserting and pruning rows between the queries. */
module LogExport {
  import opened Prelude
  import opened Listings

  type LogId = nat

  function Descending(): (LogId, LogId) -> bool { (a: LogId, b: LogId) => a > b }

  lemma DescendingIsTotal()
    ensures StrictTotal(Descending())
  {
  }

  function Below(matching: set<LogId>, cursor: Option<LogId>): set<LogId> {
    set id | id in matching && (cursor.None? || id < cursor.value)
  }

  /** One query: the matching rows below the cursor, newest first, at most `limit` of them. */
  function Query(matching: set<LogId>, cursor: Option<LogId>, limit: nat): (rows: seq<LogId>)
    ensures |rows| <= limit && Ascending(rows, Descending())
    ensures forall id :: id in rows ==> id in matching && (cursor.Some? ==> id < cursor.value)
  {
    DescendingIsTotal();
    var all := Listing(Below(matching, cursor), Descending());
    if |all| <= limit then all
    else
      assert forall id :: id in all[..limit] ==> id in all;
      all[..limit]
  }

  /** A chunk that is not full is the last of the rows; a full one is the newest of them. */
  lemma QueryTakesNewest(matching: set<LogId>, cursor: Option<LogId>, limit: nat, id: LogId)
    requires id in matching && (cursor.Some? ==> id < cursor.value)
    ensures var rows := Query(matching, cursor, limit);
      id in rows || (|rows| == limit && forall r :: r in rows ==> r > id)
  {
    DescendingIsTotal();
    var all := Listing(Below(matching, cursor), Descending());
    assert id in Below(matching, cursor) && id in all;
    var k :| 0 <= k < |all| && all[k] == id;
    var rows := Query(matching, cursor, limit);
    if k < |rows| {
      assert rows[k] == id;
    } else {
      forall r | r in rows ensures r > id {
        var j :| 0 <= j < |rows| && rows[j] == r;
        assert Descending()(all[j], all[k]);
      }
    }
  }

  /** A row that appears after a query has a larger id than every row that query could see. */
  ghost predicate AppendOnly(matching: nat -> set<LogId>) {
    forall k, m, id, seen | k < m && id in matching(m) && id !in matching(k) && seen in matching(k) :: seen < id
  }

  /** A row that every one of the first `queries` queries could see. */
  ghost predicate Stays(matching: nat -> set<LogId>, queries: nat, id: LogId) {
    forall k :: 0 <= k < queries ==> id in matching(k)
  }

  function Flat(chunks: seq<seq<LogId>>): seq<LogId> {
    if chunks == [] then [] else Flat(chunks[..|chunks| - 1]) + chunks[|chunks| - 1]
  }

  lemma DescendingConcat(a: seq<LogId>, b: seq<LogId>, cursor: Option<LogId>)
    requires Ascending(a, Descending()) && Ascending(b, Descending())
    requires a != [] ==> cursor == Some(a[|a| - 1])
    requires forall id :: id in b ==> (cursor.Some? ==> id < cursor.value)
    ensures Ascending(a + b, Descending())
  {
    forall i, j | 0 <= i < |a| && 0 <= j < |b| ensures a[i] > b[j] {
      assert b[j] in b;
      if i < |a| - 1 { assert Descending()(a[i], a[|a| - 1]); }
    }
    forall i, j | 0 <= i < j < |a + b| ensures Descending()((a + b)[i], (a + b)[j]) {
      if j < |a| { assert Descending()(a[i], a[j]); }
      if |a| <= i { assert Descending()(b[i - |a|], b[j - |a|]); }
    }
  }

  /** What has been yielded is what there was at the first query, down to the cursor. */
  ghost predicate Covers(matching: nat -> set<LogId>, queries: nat, flat: seq<LogId>, cursor: Option<LogId>) {
    && (forall id :: id in flat ==> id in matching(0))
    && (cursor.None? <==> flat == [])
    && (cursor.Some? ==> cursor.value == flat[|flat| - 1])
    && forall id: LogId :: Stays(matching, queries, id) && cursor.Some? && id >= cursor.value ==> id in flat
  }

  lemma AppendedAbove(matching: nat -> set<LogId>, k: nat, m: nat, id: LogId, seen: LogId)
    requires AppendOnly(matching) && k < m && id in matching(m) && seen in matching(k)
    ensures id in matching(k) || seen < id
  {
  }

  lemma OnlyFirstRows(matching: nat -> set<LogId>, q: nat, flat: seq<LogId>, cursor: Option<LogId>, id: LogId)
    requires AppendOnly(matching) && Covers(matching, q, flat, cursor)
    requires id in matching(q) && (cursor.Some? ==> id < cursor.value) && (q > 0 ==> cursor.Some?)
    ensures id in matching(0)
  {
    if q > 0 {
      assert cursor.value in flat;
      AppendedAbove(matching, 0, q, id, cursor.value);
    }
  }

  lemma ChunkCovers(matching: nat -> set<LogId>, q: nat, flat: seq<LogId>, cursor: Option<LogId>, limit: nat)
    requires AppendOnly(matching) && Covers(matching, q, flat, cursor) && (q > 0 ==> cursor.Some?)
    requires Query(matching(q), cursor, limit) != []
    ensures var rows := Query(matching(q), cursor, limit);
      Covers(matching, q + 1, flat + rows, Some(rows[|rows| - 1]))
  {
    var rows := Query(matching(q), cursor, limit);
    var last := rows[|rows| - 1];
    forall id | id in rows ensures id in matching(0) { OnlyFirstRows(matching, q, flat, cursor, id); }
    forall id: LogId | Stays(matching, q + 1, id) && id >= last ensures id in flat + rows {
      assert Stays(matching, q, id);
      assert id in matching(q);
      if cursor.None? || id < cursor.value {
        QueryTakesNewest(matching(q), cursor, limit, id);
        assert last in rows;
      }
    }
  }

  lemma LastChunk(matching: nat -> set<LogId>, q: nat, flat: seq<LogId>, cursor: Option<LogId>, limit: nat, id: LogId)
    requires Covers(matching, q, flat, cursor) && |Query(matching(q), cursor, limit)| < limit
    requires Stays(matching, q + 1, id)
    ensures id in flat + Query(matching(q), cursor, limit)
  {
    assert Stays(matching, q, id);
    assert id in matching(q);
    if cursor.None? || id < cursor.value { QueryTakesNewest(matching(q), cursor, limit, id); }
  }

  lemma LastChunkCovers(matching: nat -> set<LogId>, q: nat, flat: seq<LogId>, cursor: Option<LogId>, limit: nat)
    requires Covers(matching, q, flat, cursor) && |Query(matching(q), cursor, limit)| < limit
    ensures CoversAll(matching, q + 1, flat + Query(matching(q), cursor, limit))
  {
    forall id: LogId | Stays(matching, q + 1, id) ensures id in flat + Query(matching(q), cursor, limit) {
      LastChunk(matching, q, flat, cursor, limit, id);
    }
  }

  ghost predicate CoversAll(matching: nat -> set<LogId>, queries: nat, flat: seq<LogId>) {
    forall id: LogId :: Stays(matching, queries, id) ==> id in flat
  }

  /** What a query adds to the chunks yielded before it. */
  lemma {:induction false} ChunkAdds(matching: nat -> set<LogId>, q: nat, chunks: seq<seq<LogId>>,
                                     cursor: Option<LogId>, limit: nat)
    requires AppendOnly(matching) && Covers(matching, q, Flat(chunks), cursor) && (q > 0 ==> cursor.Some?)
    requires Ascending(Flat(chunks), Descending()) && Query(matching(q), cursor, limit) != []
    ensures var rows := Query(matching(q), cursor, limit);
      && Flat(chunks + [rows]) == Flat(chunks) + rows && Ascending(Flat(chunks + [rows]), Descending())
      && Covers(matching, q + 1, Flat(chunks + [rows]), Some(rows[|rows| - 1]))
      && (cursor.Some? ==> rows[|rows| - 1] < cursor.value) && rows[|rows| - 1] in matching(0)
  {
    var rows := Query(matching(q), cursor, limit);
    assert (chunks + [rows])[..|chunks|] == chunks;
    ChunkCovers(matching, q, Flat(chunks), cursor, limit);
    DescendingConcat(Flat(chunks), rows, cursor);
    assert rows[|rows| - 1] in rows;
  }

  /** What holds between two queries of an export that has not ended. */
  ghost predicate Underway(matching: nat -> set<LogId>, queries: nat, chunks: seq<seq<LogId>>, cursor: Option<LogId>,
                           limit: nat)
  {
    && Ascending(Flat(chunks), Descending())
    && Covers(matching, queries, Flat(chunks), cursor)
    && (queries > 0 ==> cursor.Some?)
    && ChunkSizes(chunks, limit)
  }

  ghost predicate ChunkSizes(chunks: seq<seq<LogId>>, limit: nat) {
    forall k :: 0 <= k < |chunks| ==> 1 <= |chunks[k]| <= limit
  }

  /** What holds when it has. */
  ghost predicate Exported(matching: nat -> set<LogId>, queries: nat, chunks: seq<seq<LogId>>, limit: nat) {
    && Ascending(Flat(chunks), Descending())
    && (forall id :: id in Flat(chunks) ==> id in matching(0))
    && queries > 0 && CoversAll(matching, queries, Flat(chunks))
    && ChunkSizes(chunks, limit)
  }

  lemma {:induction false} NeverUpwards(yielded: seq<LogId>)
    requires Ascending(yielded, Descending())
    ensures forall i, j :: 0 <= i < j < |yielded| ==> yielded[i] > yielded[j]
  {
    forall i, j | 0 <= i < j < |yielded| ensures yielded[i] > yielded[j] {
      assert Descending()(yielded[i], yielded[j]);
    }
  }

  lemma {:induction false} FullChunk(matching: nat -> set<LogId>, q: nat, chunks: seq<seq<LogId>>,
                                     cursor: Option<LogId>, limit: nat)
    requires AppendOnly(matching) && Underway(matching, q, chunks, cursor, limit)
    requires Query(matching(q), cursor, limit) != []
    ensures var rows := Query(matching(q), cursor, limit); var last := rows[|rows| - 1];
      && Underway(matching, q + 1, chunks + [rows], Some(last), limit)
      && (cursor.Some? ==> last < cursor.value) && last in matching(0)
  {
    ChunkAdds(matching, q, chunks, cursor, limit);
  }

  lemma {:induction false} ShortChunk(matching: nat -> set<LogId>, q: nat, chunks: seq<seq<LogId>>,
                                      cursor: Option<LogId>, limit: nat)
    requires AppendOnly(matching) && Underway(matching, q, chunks, cursor, limit)
    requires 0 < |Query(matching(q), cursor, limit)| < limit
    ensures Exported(matching, q + 1, chunks + [Query(matching(q), cursor, limit)], limit)
  {
    FullChunk(matching, q, chunks, cursor, limit);
    ChunkAdds(matching, q, chunks, cursor, limit);
    LastChunkCovers(matching, q, Flat(chunks), cursor, limit);
  }

  lemma {:induction false} NoChunk(matching: nat -> set<LogId>, q: nat, chunks: seq<seq<LogId>>,
                                   cursor: Option<LogId>, limit: nat)
    requires Underway(matching, q, chunks, cursor, limit) && limit > 0
    requires Query(matching(q), cursor, limit) == []
    ensures Exported(matching, q + 1, chunks, limit)
  {
    LastChunkCovers(matching, q, Flat(chunks), cursor, limit);
    assert Flat(chunks) + [] == Flat(chunks);
  }

  /** The export ends, yields strictly decreasing ids, nothing that was not there at the first
      query, and, exactly once, every row that was there throughout. `matching(k)` are the rows
      that match when query `k` is made. */
  method Iterate(matching: nat -> set<LogId>, chunkSize: nat) returns (chunks: seq<seq<LogId>>, queries: nat)
    requires chunkSize >= 1 && AppendOnly(matching)
    ensures forall i, j :: 0 <= i < j < |Flat(chunks)| ==> Flat(chunks)[i] > Flat(chunks)[j]
    ensures forall id :: id in Flat(chunks) ==> id in matching(0)
    ensures queries > 0 && forall id: LogId :: Stays(matching, queries, id) ==> id in Flat(chunks)
    ensures forall k :: 0 <= k < |chunks| ==> 1 <= |chunks[k]| <= chunkSize
  {
    chunks, queries := [], 0;
    var cursor: Option<LogId> := None;
    ghost var bound := Bound(matching(0));
    while true
      invariant Underway(matching, queries, chunks, cursor, chunkSize)
      invariant cursor.Some? ==> cursor.value < bound
      decreases if cursor.Some? then cursor.value else bound
    {
      var rows := Query(matching(queries), cursor, chunkSize);
      if rows == [] {
        NoChunk(matching, queries, chunks, cursor, chunkSize);
        queries := queries + 1;
        NeverUpwards(Flat(chunks));
        return;
      }
      if |rows| < chunkSize {
        ShortChunk(matching, queries, chunks, cursor, chunkSize);
        chunks, queries := chunks + [rows], queries + 1;
        NeverUpwards(Flat(chunks));
        return;
      }
      FullChunk(matching, queries, chunks, cursor, chunkSize);
      chunks, queries := chunks + [rows], queries + 1;
      cursor := Some(rows[|rows| - 1]);
    }
  }

  /** Something larger than every row. */
  lemma {:induction false} Bound(ids: set<LogId>) returns (b: nat)
    ensures forall id :: id in ids ==> id < b
    decreases |ids|
  {
    if ids == {} { return 0; }
    var x :| x in ids;
    var rest := Bound(ids - {x});
    b := if rest > x then rest else x + 1;
    assert forall id :: id in ids ==> id == x || id in ids - {x};
  }
}
