/** The notification outbox: rows written once per occurrence, one worker that charges an attempt
    before it sends, and a failure path that may run even after a message was sent. */
module Outbox {
  import opened Prelude
  import opened Listings

  type NoteId = nat
  type Kind = nat

  datatype NoteStatus = Pending | Sent | Undeliverable | Suppressed

  datatype Note = Note(kind: Kind, key: Option<string>, status: NoteStatus, attempts: nat, limit: nat,
                       nextAt: Option<int>, createdAt: int)

  type Notes = map<NoteId, Note>

  /** What the worker took from the queue: the attempt it was charged, and the row's limit then. */
  datatype Claim = Claim(id: NoteId, attempt: nat, limit: nat)

  /** Between the message leaving and its row being marked, it is told but not yet recorded. */
  datatype Hand = Nothing | Holding(claim: Claim) | Told(claim: Claim) | Recorded(claim: Claim)

  /** `lost` is history: how often the worker died with this row in hand since it was last put on
      the queue. */
  datatype Box = Box(notes: Notes, next: NoteId, hand: Hand, lost: map<NoteId, nat>)

  /** Something to announce: whether it is wanted at all, how it is told apart from others, the
      attempts it gets, and how long an identical message suppresses it. */
  datatype Occurrence = Occurrence(kind: Kind, key: Option<string>, unique: bool, wanted: bool, limit: nat, window: int)

  datatype Event =
    | Enqueue(occurrence: Occurrence, now: int)
    | Resend(id: NoteId)
    | Take(now: int, delay: int)
    | Send
    | MarkSent
    | Finish
    | GiveUp(retry: bool, now: int, delay: int)
    | Crash

  // ---- writing a row -------------------------------------------------------------------

  /** An absent or empty key identifies nothing. */
  predicate HasKey(key: Option<string>) { key.Some? && key.value != "" }

  predicate Occurs(n: Note, kind: Kind, key: Option<string>) { n.kind == kind && n.key == key }

  predicate Known(ns: Notes, kind: Kind, key: Option<string>) {
    exists id :: id in ns && Occurs(ns[id], kind, key)
  }

  predicate Recent(n: Note, since: int) { since <= n.createdAt && (n.status == Pending || n.status == Sent) }

  predicate JustTold(ns: Notes, kind: Kind, key: Option<string>, since: int) {
    exists id :: id in ns && Occurs(ns[id], kind, key) && Recent(ns[id], since)
  }

  /** The row an occurrence adds, if it adds one. */
  function Written(ns: Notes, o: Occurrence, now: int): Option<Note> {
    if !o.wanted || (HasKey(o.key) && o.unique && Known(ns, o.kind, o.key)) then None
    else
      var suppressed := HasKey(o.key) && !o.unique && JustTold(ns, o.kind, o.key, now - o.window);
      Some(Note(o.kind, o.key, if suppressed then Suppressed else Pending, 0, o.limit, None, now))
  }

  function Requeued(n: Note): Note { n.(status := Pending, attempts := 0, nextAt := None) }

  // ---- delivering ----------------------------------------------------------------------

  predicate IsReady(n: Note, now: int) { n.status == Pending && (n.nextAt.None? || n.nextAt.value <= now) }

  predicate Older(a: Note, i: NoteId, b: Note, j: NoteId) {
    a.createdAt < b.createdAt || (a.createdAt == b.createdAt && i <= j)
  }

  predicate OldestReady(ns: Notes, id: NoteId, now: int) {
    id in ns && IsReady(ns[id], now) && forall o :: o in ns && IsReady(ns[o], now) ==> Older(ns[id], id, ns[o], o)
  }

  function Charged(n: Note, now: int, delay: int): Note {
    n.(attempts := n.attempts + 1, nextAt := Some(now + delay))
  }

  function Marked(n: Note): Note { n.(status := Sent, nextAt := None) }

  function Exhausted(c: Claim, retry: bool): bool { !retry || c.attempt >= c.limit }

  function NotTold(n: Note, c: Claim, retry: bool, now: int, delay: int): Note {
    if Exhausted(c, retry) then n.(status := Undeliverable, nextAt := None)
    else n.(status := Pending, nextAt := Some(now + delay))
  }

  ghost function TakeNext(b: Box, now: int, delay: int): Box {
    if b.hand.Nothing? && exists id :: OldestReady(b.notes, id, now) then
      var id :| OldestReady(b.notes, id, now);
      var n := Charged(b.notes[id], now, delay);
      b.(notes := b.notes[id := n], hand := Holding(Claim(id, n.attempts, n.limit)))
    else b
  }

  function Lost(b: Box): map<NoteId, nat> {
    if b.hand.Nothing? then b.lost
    else b.lost[b.hand.claim.id := LostOf(b.lost, b.hand.claim.id) + 1]
  }

  function LostOf(lost: map<NoteId, nat>, id: NoteId): nat { if id in lost then lost[id] else 0 }

  ghost function Step(b: Box, e: Event): Box {
    match e
    case Enqueue(o, now) =>
      if o.limit == 0 then b
      else
        (match Written(b.notes, o, now)
         case None => b
         case Some(n) => b.(notes := b.notes[b.next := n], next := b.next + 1))
    case Resend(id) =>
      if id in b.notes && b.notes[id].status != Pending then
        b.(notes := b.notes[id := Requeued(b.notes[id])], lost := b.lost[id := 0])
      else b
    case Take(now, delay) => TakeNext(b, now, delay)
    case Send => if b.hand.Holding? then b.(hand := Told(b.hand.claim)) else b
    case MarkSent =>
      if b.hand.Told? && b.hand.claim.id in b.notes then
        b.(notes := b.notes[b.hand.claim.id := Marked(b.notes[b.hand.claim.id])], hand := Recorded(b.hand.claim))
      else b
    case Finish => if b.hand.Recorded? then b.(hand := Nothing) else b
    case GiveUp(retry, now, delay) =>
      if !b.hand.Nothing? && b.hand.claim.id in b.notes && (!b.hand.Holding? ==> retry) then
        b.(notes := b.notes[b.hand.claim.id := NotTold(b.notes[b.hand.claim.id], b.hand.claim, retry, now, delay)],
           hand := Nothing)
      else b
    case Crash => b.(hand := Nothing, lost := Lost(b))
  }

  const EMPTY_BOX := Box(map[], 0, Nothing, map[])

  ghost function Play(events: seq<Event>): Box {
    if events == [] then EMPTY_BOX else Step(Play(events[..|events| - 1]), events[|events| - 1])
  }

  // ---- the worker and the service as they run ------------------------------------------

  class Outbox {
    var notes: Notes

    /** `rows` is the table in id order. The oldest ready message is charged before it is sent. */
    method ClaimNext(rows: seq<NoteId>, now: int, delay: int) returns (claim: Option<Claim>)
      requires forall id :: id in rows <==> id in notes
      modifies this
      ensures claim.None? ==> notes == old(notes) && forall id :: id in notes ==> !IsReady(notes[id], now)
      ensures claim.Some? ==> OldestReady(old(notes), claim.value.id, now)
      ensures claim.Some? ==> notes == old(notes)[claim.value.id := Charged(old(notes)[claim.value.id], now, delay)]
      ensures claim.Some? ==> claim.value.attempt == notes[claim.value.id].attempts
      ensures claim.Some? ==> claim.value.limit == notes[claim.value.id].limit
      ensures claim.None? <==> forall id :: id in old(notes) ==>
        old(notes)[id].status != Pending || (old(notes)[id].nextAt.Some? && old(notes)[id].nextAt.value > now)
      ensures claim.Some? ==>
        && claim.value.id in old(notes)
        && var n := old(notes)[claim.value.id];
           && n.status == Pending && (n.nextAt.Some? ==> n.nextAt.value <= now)
           && notes == old(notes)[claim.value.id := n.(attempts := n.attempts + 1, nextAt := Some(now + delay))]
           && claim.value.attempt == n.attempts + 1 && claim.value.limit == n.limit
           && forall o :: o in old(notes) && old(notes)[o].status == Pending
                          && (old(notes)[o].nextAt.Some? ==> old(notes)[o].nextAt.value <= now) ==>
                n.createdAt < old(notes)[o].createdAt || (n.createdAt == old(notes)[o].createdAt && claim.value.id <= o)
    {
      var best: Option<NoteId> := None;
      for i := 0 to |rows|
        invariant best.Some? ==> best.value in notes && IsReady(notes[best.value], now)
        invariant forall k :: 0 <= k < i && IsReady(notes[rows[k]], now) ==>
          best.Some? && Older(notes[best.value], best.value, notes[rows[k]], rows[k])
      {
        if IsReady(notes[rows[i]], now)
           && (best.None? || !Older(notes[best.value], best.value, notes[rows[i]], rows[i])) {
          best := Some(rows[i]);
        }
      }
      if best.None? {
        assert forall id :: id in notes ==> id in rows;
        return None;
      }
      var id := best.value;
      assert forall o :: o in notes ==> o in rows;
      notes := notes[id := Charged(notes[id], now, delay)];
      return Some(Claim(id, notes[id].attempts, notes[id].limit));
    }

    /** Write one row for an occurrence, or none. `rows` is the table in id order. */
    method Enqueue(o: Occurrence, next: NoteId, rows: seq<NoteId>, now: int) returns (row: Option<Note>)
      requires next !in notes && forall id :: id in rows <==> id in notes
      modifies this
      ensures row == Written(old(notes), o, now)
      ensures notes == if row.Some? then old(notes)[next := row.value] else old(notes)
      ensures row.None? <==>
        !o.wanted || (o.unique && o.key.Some? && o.key.value != ""
                      && exists id :: id in old(notes) && old(notes)[id].kind == o.kind && old(notes)[id].key == o.key)
      ensures row.Some? ==>
        && row.value == Note(o.kind, o.key, row.value.status, 0, o.limit, None, now)
        && (row.value.status == Pending || row.value.status == Suppressed)
      ensures row.Some? ==>
        (row.value.status == Suppressed <==>
          !o.unique && o.key.Some? && o.key.value != ""
          && exists id :: id in old(notes) && old(notes)[id].kind == o.kind && old(notes)[id].key == o.key
                          && now - o.window <= old(notes)[id].createdAt && old(notes)[id].status in {Pending, Sent})
    {
      if !o.wanted { return None; }
      var recorded, told := false, false;
      for i := 0 to |rows|
        invariant recorded <==> exists k :: 0 <= k < i && Occurs(notes[rows[k]], o.kind, o.key)
        invariant told
          <==> exists k :: 0 <= k < i && Occurs(notes[rows[k]], o.kind, o.key) && Recent(notes[rows[k]], now - o.window)
      {
        if Occurs(notes[rows[i]], o.kind, o.key) {
          recorded := true;
          if Recent(notes[rows[i]], now - o.window) { told := true; }
        }
      }
      assert recorded <==> Known(notes, o.kind, o.key) by { ListedRows(notes, rows); }
      assert told <==> JustTold(notes, o.kind, o.key, now - o.window) by { ListedRows(notes, rows); }
      if HasKey(o.key) && o.unique && recorded { return None; }
      var suppressed := HasKey(o.key) && !o.unique && told;
      row := Some(Note(o.kind, o.key, if suppressed then Suppressed else Pending, 0, o.limit, None, now));
      notes := notes[next := row.value];
    }

    method RecordSent(claim: Claim)
      modifies this
      ensures notes == if claim.id in old(notes) then old(notes)[claim.id := Marked(old(notes)[claim.id])]
        else old(notes)
      ensures claim.id in old(notes) ==>
        notes == old(notes)[claim.id := old(notes)[claim.id].(status := Sent, nextAt := None)]
    {
      if claim.id !in notes { return; }
      notes := notes[claim.id := notes[claim.id].(status := Sent, nextAt := None)];
    }

    /** Telegram's own `retryAfter` beats the computed backoff. */
    method RecordFailure(claim: Claim, retry: bool, retryAfter: Option<int>, backoff: int, now: int)
      modifies this
      ensures notes == if claim.id in old(notes)
                       then old(notes)[claim.id := NotTold(old(notes)[claim.id], claim, retry, now,
                                                           if retryAfter.Some? then retryAfter.value else backoff)]
                       else old(notes)
      ensures claim.id in old(notes) && retry && claim.attempt < claim.limit ==>
        notes == old(notes)[claim.id := old(notes)[claim.id].(
          status := Pending, nextAt := Some(now + match retryAfter case Some(told) => told case None => backoff))]
      ensures claim.id in old(notes) && (!retry || claim.attempt >= claim.limit) ==>
        notes == old(notes)[claim.id := old(notes)[claim.id].(status := Undeliverable, nextAt := None)]
    {
      var exhausted := !retry || claim.attempt >= claim.limit;
      if claim.id !in notes { return; }
      var row := notes[claim.id];
      if exhausted {
        row := row.(status := Undeliverable, nextAt := None);
      } else {
        row := row.(status := Pending, nextAt := Some(now + if retryAfter.Some? then retryAfter.value else backoff));
      }
      notes := notes[claim.id := row];
    }

    method Resend(id: NoteId) returns (queued: bool)
      modifies this
      ensures queued <==> id in old(notes) && old(notes)[id].status != Pending
      ensures notes == if queued then old(notes)[id := Requeued(old(notes)[id])] else old(notes)
      ensures queued ==>
        notes == old(notes)[id := old(notes)[id].(status := Pending, attempts := 0, nextAt := None)]
    {
      if id !in notes || notes[id].status == Pending { return false; }
      notes := notes[id := notes[id].(status := Pending, attempts := 0, nextAt := None)];
      return true;
    }
  }

  lemma ListedRows(ns: Notes, rows: seq<NoteId>)
    requires forall id :: id in rows <==> id in ns
    ensures forall id :: id in ns ==> exists k :: 0 <= k < |rows| && rows[k] == id
  {
  }

  // ---- what every history keeps --------------------------------------------------------

  ghost predicate Ids(b: Box) {
    && (forall id :: id in b.notes ==> id < b.next)
    && (!b.hand.Nothing? ==> b.hand.claim.id in b.notes)
  }

  ghost predicate InHand(b: Box, id: NoteId) { !b.hand.Nothing? && b.hand.claim.id == id }

  /** What a row may have been charged: its limit, and once more for each time it was lost. */
  ghost predicate Budget(b: Box) {
    forall id :: id in b.notes ==>
      && b.notes[id].limit >= 1
      && b.notes[id].attempts <= b.notes[id].limit + LostOf(b.lost, id)
      && (b.notes[id].status == Pending && !InHand(b, id) ==>
          b.notes[id].attempts < b.notes[id].limit + LostOf(b.lost, id))
  }

  /** A row in hand still carries the attempt it was charged, unless it was put back on the queue. */
  ghost predicate ClaimOk(b: Box) {
    !b.hand.Nothing? && b.hand.claim.id in b.notes ==>
      var n := b.notes[b.hand.claim.id];
      && b.hand.claim.limit == n.limit
      && (!b.hand.Recorded? ==> n.status == Pending && n.attempts == b.hand.claim.attempt)
      && (b.hand.Recorded? ==> (n.status == Sent && n.attempts == b.hand.claim.attempt) || n.attempts == 0)
  }

  ghost predicate Inv(b: Box) { Ids(b) && Budget(b) && ClaimOk(b) }

  lemma StepKeeps(b: Box, e: Event)
    requires Inv(b)
    ensures Inv(Step(b, e))
  {
    match e
    case Enqueue(o, now) =>
    case Resend(id) =>
    case Take(now, delay) =>
    case Send =>
    case MarkSent =>
    case Finish =>
    case GiveUp(retry, now, delay) =>
    case Crash =>
  }

  lemma {:induction false} Reachable(events: seq<Event>)
    ensures Inv(Play(events))
  {
    if events != [] {
      Reachable(events[..|events| - 1]);
      StepKeeps(Play(events[..|events| - 1]), events[|events| - 1]);
    }
  }

  /** Attempts never exceed the limit by more than the crashes since the row was last queued. */
  lemma {:induction false} AttemptsAreBounded(events: seq<Event>, id: NoteId)
    requires id in Play(events).notes
    ensures var b := Play(events); b.notes[id].attempts <= b.notes[id].limit + LostOf(b.lost, id)
  {
    Reachable(events);
  }

  /** A crash with a row in hand is the only thing counted against it, once each; putting it back by hand
      forgets them. */
  lemma LostByCrashing(b: Box, e: Event, id: NoteId)
    ensures LostOf(Step(b, e).lost, id) ==
      if e == Crash && !b.hand.Nothing? && b.hand.claim.id == id then LostOf(b.lost, id) + 1
      else if e == Resend(id) && id in b.notes && b.notes[id].status != Pending then 0
      else LostOf(b.lost, id)
    ensures LostOf(map[], id) == 0
  {
  }

  ghost predicate NoCrash(events: seq<Event>) { Crash !in events }

  lemma {:induction false} NothingLost(events: seq<Event>)
    requires NoCrash(events)
    ensures forall id :: LostOf(Play(events).lost, id) == 0
  {
    if events != [] {
      var n := |events| - 1;
      assert events[n] in events;
      NothingLost(events[..n]);
    }
  }

  /** A message that may go out is taken, the oldest of them first, as soon as the hand is free. */
  lemma ReadyIsTaken(b: Box, now: int, delay: int, id: NoteId)
    requires b.hand.Nothing? && id in b.notes && IsReady(b.notes[id], now)
    ensures var n := TakeNext(b, now, delay);
      n.hand.Holding? && OldestReady(b.notes, n.hand.claim.id, now)
  {
    var ready: set<NoteId> := set o | o in b.notes && IsReady(b.notes[o], now);
    assert id in ready;
    EarlierIsTotal(b.notes);
    FirstExists<NoteId>(ready, Earlier(b.notes));
    var first :| First(first, ready, Earlier(b.notes));
    forall o | o in b.notes && IsReady(b.notes[o], now) ensures Older(b.notes[first], first, b.notes[o], o) {
      assert o in ready;
    }
    assert OldestReady(b.notes, first, now);
  }

  function CreatedAt(ns: Notes, id: NoteId): int { if id in ns then ns[id].createdAt else 0 }

  function Earlier(ns: Notes): (NoteId, NoteId) -> bool {
    (i: NoteId, j: NoteId) => CreatedAt(ns, i) < CreatedAt(ns, j) || (CreatedAt(ns, i) == CreatedAt(ns, j) && i < j)
  }

  lemma EarlierIsTotal(ns: Notes)
    ensures StrictTotal(Earlier(ns))
  {
  }

  /** This event takes this row, puts it back by hand, or tells it. */
  ghost predicate Takes(b: Box, e: Event, id: NoteId) { e.Take? && b.hand.Nothing? && InHand(Step(b, e), id) }

  predicate PutsBack(b: Box, e: Event, id: NoteId) { e == Resend(id) && id in b.notes && b.notes[id].status != Pending }

  ghost predicate Tells(b: Box, e: Event, id: NoteId) { e == Send && b.hand.Holding? && InHand(b, id) }

  /** How often a row was taken since it was last put back by hand. */
  ghost function Rounds(events: seq<Event>, id: NoteId): nat {
    if events == [] then 0
    else
      var n := |events| - 1;
      if Takes(Play(events[..n]), events[n], id) then Rounds(events[..n], id) + 1
      else if PutsBack(Play(events[..n]), events[n], id) then 0
      else Rounds(events[..n], id)
  }

  lemma {:induction false} RoundsAreAttempts(events: seq<Event>, id: NoteId)
    ensures var b := Play(events); Rounds(events, id) == if id in b.notes then b.notes[id].attempts else 0
  {
    if events != [] {
      var n := |events| - 1;
      Reachable(events[..n]);
      RoundsAreAttempts(events[..n], id);
    }
  }

  /** Over any history a message is taken at most as often as its limit allows, and once more for
      every crash with it in hand; having been taken that often, it is no longer waiting. */
  lemma {:induction false} RoundsRunOut(events: seq<Event>, id: NoteId)
    requires id in Play(events).notes
    ensures var b := Play(events); var most := b.notes[id].limit + LostOf(b.lost, id);
      && Rounds(events, id) <= most
      && (Rounds(events, id) == most && !InHand(b, id) ==> b.notes[id].status != Pending)
      && (NoCrash(events) ==> most == b.notes[id].limit)
  {
    Reachable(events);
    RoundsAreAttempts(events, id);
    if NoCrash(events) { NothingLost(events); }
  }

  /** The four ways a round ends, and what each leaves of the row. */
  lemma {:induction false} RoundEnds(events: seq<Event>, now: int, delay: int, retry: bool, later: int, after: int)
    requires Play(events).hand.Nothing? && TakeNext(Play(events), now, delay) != Play(events)
    ensures var b := Play(events); var held := TakeNext(b, now, delay); var told := Step(held, Send);
      && held.hand.Holding?
      && var id, n := held.hand.claim.id, held.notes[held.hand.claim.id];
      && id in b.notes && n.attempts == b.notes[id].attempts + 1 && told.notes == held.notes
      && Step(told, MarkSent).notes == held.notes[id := n.(status := Sent, nextAt := None)]
      && Step(held, GiveUp(retry, later, after)).notes[id].status ==
           (if retry && n.attempts < n.limit then Pending else Undeliverable)
      && Step(told, GiveUp(true, later, after)).notes[id].status ==
           (if n.attempts < n.limit then Pending else Undeliverable)
      && Step(Step(told, MarkSent), GiveUp(true, later, after)).notes[id].status ==
           (if n.attempts < n.limit then Pending else Undeliverable)
  {
    Reachable(events);
  }

  // ---- told more than once -------------------------------------------------------------

  /** The message went out, whether or not its row says so yet. */
  ghost predicate WasTold(b: Box, id: NoteId) {
    id in b.notes && (b.notes[id].status == Sent || (b.hand.Told? && InHand(b, id)))
  }

  /** It will go out, unless something ends it. */
  ghost predicate Waits(b: Box, id: NoteId) {
    id in b.notes && b.notes[id].status == Pending && !(b.hand.Told? && InHand(b, id))
  }

  /** A told message goes back on the queue: by hand, by a failure after it was told, or by the
      worker dying before the row said so. */
  ghost predicate Returns(b: Box, e: Event, id: NoteId) {
    || PutsBack(b, e, id)
    || (InHand(b, id) && !b.hand.Holding? && e.GiveUp? && e.retry && b.hand.claim.attempt < b.hand.claim.limit)
    || (InHand(b, id) && b.hand.Told? && e == Crash)
  }

  /** Exactly these three put a message that was told back among those waiting to be told. */
  lemma ToldReturnsIff(b: Box, e: Event, id: NoteId)
    requires Inv(b) && id in b.notes && (b.notes[id].status == Sent || (b.hand.Told? && b.hand.claim.id == id))
    ensures WasTold(b, id) && (Waits(Step(b, e), id) <==> Returns(b, e, id))
    ensures var n := Step(b, e);
      Waits(n, id) <==> id in n.notes && n.notes[id].status == Pending && !(n.hand.Told? && n.hand.claim.id == id)
    ensures Returns(b, e, id) <==>
      || (e == Resend(id) && b.notes[id].status != Pending)
      || (e.GiveUp? && (b.hand.Told? || b.hand.Recorded?) && b.hand.claim.id == id && e.retry
          && b.hand.claim.attempt < b.hand.claim.limit)
      || (e == Crash && b.hand.Told? && b.hand.claim.id == id)
  {
  }

  ghost function Tellings(events: seq<Event>, id: NoteId): nat {
    if events == [] then 0
    else
      var n := |events| - 1;
      Tellings(events[..n], id) + if Tells(Play(events[..n]), events[n], id) then 1 else 0
  }

  ghost function ReturnsIn(events: seq<Event>, id: NoteId): nat {
    if events == [] then 0
    else
      var n := |events| - 1;
      ReturnsIn(events[..n], id) + if Returns(Play(events[..n]), events[n], id) then 1 else 0
  }

  /** A message is told at most once, and once more for every time it went back on the queue. */
  lemma {:induction false} ToldOncePerReturn(events: seq<Event>, id: NoteId)
    ensures Tellings(events, id) <= ReturnsIn(events, id) + 1
    ensures Waits(Play(events), id) || id !in Play(events).notes ==> Tellings(events, id) <= ReturnsIn(events, id)
  {
    if events != [] {
      var n := |events| - 1;
      Reachable(events[..n]);
      ToldOncePerReturn(events[..n], id);
    }
  }

  lemma {:induction false} Next(events: seq<Event>, e: Event, id: NoteId)
    ensures Play(events + [e]) == Step(Play(events), e)
    ensures Tellings(events + [e], id) == Tellings(events, id) + if Tells(Play(events), e, id) then 1 else 0
  {
    assert (events + [e])[..|events|] == events;
  }

  lemma TakeOnly(b: Box, now: int, delay: int)
    requires b.hand.Nothing? && b.notes.Keys == {0} && IsReady(b.notes[0], now)
    ensures var n := Charged(b.notes[0], now, delay);
      TakeNext(b, now, delay) == b.(notes := map[0 := n], hand := Holding(Claim(0, n.attempts, n.limit)))
  {
    assert OldestReady(b.notes, 0, now);
    assert b.notes[0 := Charged(b.notes[0], now, delay)] == map[0 := Charged(b.notes[0], now, delay)];
  }

  lemma ToldOnce(o: Occurrence, now: int) returns (events: seq<Event>)
    requires o.wanted && o.limit >= 2
    ensures var note := Note(o.kind, o.key, Pending, 1, o.limit, Some(now), now);
      Play(events) == Box(map[0 := note], 1, Told(Claim(0, 1, o.limit)), map[])
    ensures Tellings(events, 0) == 1 && NoCrash(events) && Resend(0) !in events && MarkSent !in events
  {
    var note := Note(o.kind, o.key, Pending, 0, o.limit, None, now);
    var first := Enqueue(o, now);
    Next([], first, 0);
    assert [] + [first] == [first];
    assert Play([first]) == Box(map[0 := note], 1, Nothing, map[]);
    TakeOnly(Play([first]), now, 0);
    events := [first];
    Next(events, Take(now, 0), 0); events := events + [Take(now, 0)];
    Next(events, Send, 0); events := events + [Send];
  }

  /** A message told twice: it was accepted, recording that failed, and it was due again. */
  lemma ToldTwice(o: Occurrence, now: int) returns (events: seq<Event>)
    requires o.wanted && o.limit >= 2
    ensures Tellings(events, 0) == 2 && NoCrash(events) && Resend(0) !in events && MarkSent !in events
    ensures 0 in Play(events).notes && Play(events).notes[0].kind == o.kind && Play(events).notes[0].key == o.key
  {
    events := ToldOnce(o, now);
    Next(events, GiveUp(true, now, 0), 0); events := events + [GiveUp(true, now, 0)];
    assert Play(events).notes == map[0 := Note(o.kind, o.key, Pending, 1, o.limit, Some(now), now)];
    TakeOnly(Play(events), now, 0);
    Next(events, Take(now, 0), 0); events := events + [Take(now, 0)];
    Next(events, Send, 0); events := events + [Send];
  }

  /** A pending message leaves the queue exactly by being marked once it was told, or by a failure that
      is final or comes at its last attempt. */
  lemma PendingOnlyEnds(b: Box, e: Event, id: NoteId)
    requires Inv(b) && id in b.notes && b.notes[id].status == Pending
    ensures id in Step(b, e).notes && Step(b, e).notes[id].status != Suppressed
    ensures Step(b, e).notes[id].status == Sent <==> e == MarkSent && b.hand.Told? && b.hand.claim.id == id
    ensures Step(b, e).notes[id].status == Undeliverable <==>
      && e.GiveUp? && !b.hand.Nothing? && b.hand.claim.id == id && (!b.hand.Holding? ==> e.retry)
      && (!e.retry || b.hand.claim.attempt >= b.hand.claim.limit)
  {
  }

  // ---- one row per occurrence ----------------------------------------------------------

  ghost predicate AlwaysUnique(events: seq<Event>, kind: Kind, key: Option<string>) {
    forall e :: e in events && e.Enqueue? && e.occurrence.kind == kind && e.occurrence.key == key ==>
      e.occurrence.unique
  }

  lemma StepAdds(b: Box, e: Event)
    requires Inv(b)
    ensures forall id :: id in b.notes ==> id in Step(b, e).notes && Step(b, e).notes[id].kind == b.notes[id].kind
                                           && Step(b, e).notes[id].key == b.notes[id].key
    ensures forall id :: id in Step(b, e).notes && id !in b.notes ==>
      id == b.next && e.Enqueue? && Written(b.notes, e.occurrence, e.now) == Some(Step(b, e).notes[id])
  {
  }

  /** An occurrence that is always announced as unique is recorded at most once, whatever
      restarts, retries and resends happen. */
  lemma {:induction false} UniqueMeansOnce(events: seq<Event>, kind: Kind, key: Option<string>, i: NoteId, j: NoteId)
    requires HasKey(key) && AlwaysUnique(events, kind, key)
    requires var ns := Play(events).notes;
      i in ns && j in ns && Occurs(ns[i], kind, key) && Occurs(ns[j], kind, key)
    ensures i == j
  {
    if events != [] {
      var n := |events| - 1;
      var b := Play(events[..n]);
      Reachable(events[..n]);
      StepAdds(b, events[n]);
      assert events[n] in events;
      if i in b.notes && j in b.notes { UniqueMeansOnce(events[..n], kind, key, i, j); }
    }
  }

  /** Without a key there is no such promise: announced twice, such an occurrence is recorded
      twice, whatever it is. */
  lemma NoKeyNoPromise(o: Occurrence, now: int)
    requires o.wanted && o.limit >= 1 && !HasKey(o.key)
    ensures var ns := Play([Enqueue(o, now), Enqueue(o, now)]).notes;
      0 in ns && 1 in ns && Occurs(ns[0], o.kind, o.key) && Occurs(ns[1], o.kind, o.key)
  {
    var once := Enqueue(o, now);
    assert [once, once][..1] == [once];
    assert [once][..0] == [];
    assert Play([once]).notes == map[0 := Note(o.kind, o.key, Pending, 0, o.limit, None, now)];
  }
}
