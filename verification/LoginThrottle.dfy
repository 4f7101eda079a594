/** Sign-ins at the limiter. Each one asks, and is decided later; meanwhile others come, for the same
    key and for others, and the limiter drops the keys it has no room for. */
module LoginThrottle {
  import opened RateLimit

  /** A sign-in asks the limiter, and is decided later: it fails and is recorded, it ends without being
      recorded (a locked or a disabled account), or it succeeds and resets its key. */
  datatype Turn = Ask(now: real) | Fail(now: real) | Pass(now: real) | Succeed(now: real)

  datatype Visit = Visit(key: Key, turn: Turn)

  /** What happened to one key: its failures since its last success, and how many of its sign-ins have
      been let through and not yet decided. */
  datatype Trail = Trail(failures: seq<real>, underWay: nat)

  datatype Desk = Desk(book: Book, trails: map<Key, Trail>)

  function TrailOf(d: Desk, x: Key): Trail { if x in d.trails then d.trails[x] else Trail([], 0) }

  function Serve(d: Desk, v: Visit, l: Limits): Desk {
    var t := TrailOf(d, v.key);
    match v.turn
    case Ask(now) =>
      var book := Opened(d.book, v.key, now - l.window);
      Desk(book, d.trails[v.key := if |book.hits[v.key]| < l.attempts then t.(underWay := t.underWay + 1) else t])
    case Fail(now) =>
      if t.underWay == 0 then d
      else Desk(Recorded(d.book, v.key, now, l), d.trails[v.key := Trail(t.failures + [now], t.underWay - 1)])
    case Pass(_) =>
      if t.underWay == 0 then d else Desk(d.book, d.trails[v.key := Trail(t.failures, t.underWay - 1)])
    case Succeed(_) =>
      if t.underWay == 0 then d else Desk(Dropped(d.book, v.key), d.trails[v.key := Trail([], t.underWay - 1)])
  }

  const NEW_DESK := Desk(Book([], map[]), map[])

  function Serves(visits: seq<Visit>, l: Limits): Desk {
    if visits == [] then NEW_DESK else Serve(Serves(visits[..|visits| - 1], l), visits[|visits| - 1], l)
  }

  function Failures(visits: seq<Visit>, x: Key, l: Limits): seq<real> { TrailOf(Serves(visits, l), x).failures }

  function UnderWay(visits: seq<Visit>, x: Key, l: Limits): nat { TrailOf(Serves(visits, l), x).underWay }

  /** How many of the key's failures came before the limiter last had no entry for it. */
  function Lost(visits: seq<Visit>, x: Key, l: Limits): nat {
    if visits == [] then 0
    else if x !in Serves(visits, l).book.hits then |Failures(visits, x, l)|
    else Lost(visits[..|visits| - 1], x, l)
  }

  ghost predicate InTime(visits: seq<Visit>) {
    forall i, j :: 0 <= i < j < |visits| ==> visits[i].turn.now <= visits[j].turn.now
  }

  lemma {:induction false} Then(visits: seq<Visit>, v: Visit, l: Limits)
    ensures Serves(visits + [v], l) == Serve(Serves(visits, l), v, l)
  {
    assert (visits + [v])[..|visits|] == visits;
  }

  lemma Front(visits: seq<Visit>)
    requires InTime(visits) && visits != []
    ensures InTime(visits[..|visits| - 1])
    ensures |visits| > 1 ==> visits[|visits| - 2].turn.now <= visits[|visits| - 1].turn.now
  {
  }

  lemma ServeIsSound(d: Desk, v: Visit, l: Limits)
    requires Sound(d.book)
    ensures Sound(Serve(d, v, l).book)
  {
    match v.turn
    case Ask(now) => OpenedIsSound(d.book, v.key, now - l.window);
    case Fail(now) => RecordedIsSound(d.book, v.key, now, l);
    case Pass(_) =>
    case Succeed(_) => DroppedIsSound(d.book, v.key);
  }

  lemma {:induction false} ServesIsSound(visits: seq<Visit>, l: Limits)
    ensures Sound(Serves(visits, l).book)
  {
    if visits != [] {
      ServesIsSound(visits[..|visits| - 1], l);
      ServeIsSound(Serves(visits[..|visits| - 1], l), visits[|visits| - 1], l);
    }
  }

  // ---- which keys are forgotten --------------------------------------------------------

  /** A key that has an entry loses it at a visit in exactly two ways: its own sign-in succeeds, or a
      recorded failure of another key finds, with that key, as many as the limiter may hold behind it.
      (Where it may hold none, the key's own recorded failure too.) */
  lemma {:induction false} ForgottenIff(visits: seq<Visit>, v: Visit, x: Key, l: Limits)
    requires x in Serves(visits, l).book.hits
    ensures x !in Serves(visits + [v], l).book.hits <==>
      UnderWay(visits, v.key, l) > 0 &&
      if v.key == x then v.turn.Succeed? || (v.turn.Fail? && l.maxKeys == 0)
      else v.turn.Fail? && |Behind(Serves(visits, l).book.order, x) + {v.key}| >= l.maxKeys
  {
    var b := Serves(visits, l).book;
    Then(visits, v, l);
    ServesIsSound(visits, l);
    if v.turn.Fail? {
      if v.key == x { OwnStays(b, x, v.turn.now, l); } else { DropsIff(b, v.key, v.turn.now, l, x); }
    }
  }

  // ---- one key seen alone --------------------------------------------------------------

  /** What the limiter holds of one key, the failures since it last had no entry for it, and the
      sign-ins under way. */
  datatype Gate = Gate(hits: seq<real>, failures: seq<real>, underWay: nat)

  function Asked(g: Gate, live: seq<real>, limit: nat): Gate {
    Gate(live, g.failures, if |live| < limit then g.underWay + 1 else g.underWay)
  }

  function Failed(g: Gate, live: seq<real>, now: real): Gate {
    if g.underWay == 0 then g else Gate(live + [now], g.failures + [now], g.underWay - 1)
  }

  function Left(g: Gate, kept: bool): Gate {
    if g.underWay == 0 then g
    else if kept then g.(underWay := g.underWay - 1)
    else Gate([], [], g.underWay - 1)
  }

  function Move(g: Gate, t: Turn, limit: nat, w: real): Gate {
    match t
    case Ask(now) => Asked(g, Pruned(g.hits, now - w), limit)
    case Fail(now) => Failed(g, Pruned(g.hits, now - w), now)
    case Pass(_) => Left(g, true)
    case Succeed(_) => Left(g, false)
  }

  /** A key without an entry. */
  function Emptied(g: Gate): Gate { Gate([], [], g.underWay) }

  lemma {:induction false} LostIsPast(visits: seq<Visit>, x: Key, l: Limits)
    ensures Lost(visits, x, l) <= |Failures(visits, x, l)|
  {
    if visits != [] { LostIsPast(visits[..|visits| - 1], x, l); }
  }

  function GateOf(d: Desk, x: Key, lost: nat): Gate
    requires lost <= |TrailOf(d, x).failures|
  {
    Gate(HitsOf(d.book, x), TrailOf(d, x).failures[lost..], TrailOf(d, x).underWay)
  }

  function View(visits: seq<Visit>, x: Key, l: Limits): Gate {
    LostIsPast(visits, x, l);
    GateOf(Serves(visits, l), x, Lost(visits, x, l))
  }

  lemma {:induction false} LostNow(visits: seq<Visit>, v: Visit, x: Key, l: Limits)
    ensures Lost(visits + [v], x, l) ==
      if x in Serves(visits + [v], l).book.hits then Lost(visits, x, l) else |Failures(visits + [v], x, l)|
  {
    assert (visits + [v])[..|visits|] == visits;
  }

  lemma OthersAreKept(d: Desk, v: Visit, x: Key, l: Limits)
    requires Sound(d.book) && v.key != x && x in Serve(d, v, l).book.hits
    ensures x in d.book.hits && Serve(d, v, l).book.hits[x] == d.book.hits[x]
  {
    if v.turn.Fail? {
      if x in d.book.hits {
        DropsIff(d.book, v.key, v.turn.now, l, x);
      } else {
        MarkedIsSound(d.book, v.key, v.turn.now, l.window);
        TrimmedIs(Marked(d.book, v.key, v.turn.now, l.window), l.maxKeys);
      }
    }
  }

  /** A visit moves the gate of its own key only. */
  function Seen(g: Gate, v: Visit, x: Key, l: Limits): Gate {
    if v.key == x then Move(g, v.turn, l.attempts, l.window) else g
  }

  /** What a visit makes of a key's gate, `kept` saying whether the key has an entry afterwards. */
  function Shown(g: Gate, v: Visit, x: Key, l: Limits, kept: bool): Gate {
    if kept then Seen(g, v, x, l) else Emptied(Seen(g, v, x, l))
  }

  lemma {:induction false} NoEntryNoHits(visits: seq<Visit>, x: Key, l: Limits)
    requires x !in Serves(visits, l).book.hits
    ensures View(visits, x, l) == Gate([], [], UnderWay(visits, x, l))
  {
  }

  lemma OwnHits(d: Desk, v: Visit, l: Limits)
    requires Sound(d.book) && v.key in Serve(d, v, l).book.hits
    ensures !(v.turn.Succeed? && TrailOf(d, v.key).underWay > 0)
    ensures Serve(d, v, l).book.hits[v.key] ==
      if v.turn.Ask? then Pruned(HitsOf(d.book, v.key), v.turn.now - l.window)
      else if v.turn.Fail? && TrailOf(d, v.key).underWay > 0 then
        Pruned(HitsOf(d.book, v.key), v.turn.now - l.window) + [v.turn.now]
      else d.book.hits[v.key]
  {
    if v.turn.Fail? { OwnStays(d.book, v.key, v.turn.now, l); }
  }

  lemma {:induction false} FailureIsSeen(d: Desk, x: Key, now: real, l: Limits, lost: nat)
    requires Sound(d.book) && x in Serve(d, Visit(x, Fail(now)), l).book.hits && lost <= |TrailOf(d, x).failures|
    ensures GateOf(Serve(d, Visit(x, Fail(now)), l), x, lost) ==
      Move(GateOf(d, x, lost), Fail(now), l.attempts, l.window)
  {
    var f := TrailOf(d, x).failures;
    OwnHits(d, Visit(x, Fail(now)), l);
    assert (f + [now])[lost..] == f[lost..] + [now];
  }

  lemma {:induction false} OwnIsSeen(d: Desk, v: Visit, l: Limits, lost: nat)
    requires Sound(d.book) && v.key in Serve(d, v, l).book.hits && lost <= |TrailOf(d, v.key).failures|
    ensures lost <= |TrailOf(Serve(d, v, l), v.key).failures|
    ensures GateOf(Serve(d, v, l), v.key, lost) == Move(GateOf(d, v.key, lost), v.turn, l.attempts, l.window)
  {
    if v.turn.Fail? { FailureIsSeen(d, v.key, v.turn.now, l, lost); } else { OwnHits(d, v, l); }
  }

  lemma {:induction false} OtherIsSeen(d: Desk, v: Visit, x: Key, l: Limits, lost: nat)
    requires Sound(d.book) && v.key != x && x in Serve(d, v, l).book.hits && lost <= |TrailOf(d, x).failures|
    ensures TrailOf(Serve(d, v, l), x) == TrailOf(d, x)
    ensures GateOf(Serve(d, v, l), x, lost) == GateOf(d, x, lost)
  {
    OthersAreKept(d, v, x, l);
  }

  lemma {:induction false} Sees(visits: seq<Visit>, v: Visit, x: Key, l: Limits)
    ensures View(visits + [v], x, l) == Shown(View(visits, x, l), v, x, l, x in Serves(visits + [v], l).book.hits)
  {
    var d, lost := Serves(visits, l), Lost(visits, x, l);
    Then(visits, v, l);
    ServesIsSound(visits, l);
    LostNow(visits, v, x, l);
    LostIsPast(visits, x, l);
    if x !in Serve(d, v, l).book.hits {
      NoEntryNoHits(visits + [v], x, l);
    } else if v.key != x {
      OtherIsSeen(d, v, x, l, lost);
    } else {
      OwnIsSeen(d, v, l, lost);
    }
  }

  // ---- when a sign-in is let through ---------------------------------------------------

  function Expired(hits: seq<real>, cutoff: real): (n: nat)
    ensures n <= |hits|
  {
    if hits == [] || hits[0] >= cutoff then 0 else 1 + Expired(hits[1..], cutoff)
  }

  lemma {:induction false} ExpiredSplits(hits: seq<real>, cutoff: real)
    ensures var n := Expired(hits, cutoff);
      (forall i :: 0 <= i < n ==> hits[i] < cutoff) && (n < |hits| ==> hits[n] >= cutoff)
  {
    if hits != [] { ExpiredSplits(hits[1..], cutoff); }
  }

  lemma {:induction false} PrunedIs(hits: seq<real>, cutoff: real)
    ensures Pruned(hits, cutoff) == hits[Expired(hits, cutoff)..]
  {
    if hits != [] && hits[0] < cutoff { PrunedIs(hits[1..], cutoff); }
  }

  ghost predicate Sorted(s: seq<real>) { forall i, j :: 0 <= i < j < |s| ==> s[i] <= s[j] }

  /** The hits are the latest of these failures, and all others are older than the window. */
  ghost predicate Tail(hits: seq<real>, all: seq<real>, cutoff: real) {
    && |hits| <= |all| && hits == all[|all| - |hits|..]
    && forall i :: 0 <= i < |all| - |hits| ==> all[i] < cutoff
  }

  ghost predicate Until(all: seq<real>, now: real) {
    Sorted(all) && forall i :: 0 <= i < |all| ==> all[i] <= now
  }

  lemma {:induction false} PruneTail(hits: seq<real>, all: seq<real>, early: real, late: real)
    requires Tail(hits, all, early) && early <= late
    ensures Tail(Pruned(hits, late), all, late)
    ensures Pruned(hits, late) != [] ==> all[|all| - |Pruned(hits, late)|] >= late
  {
    var gone, start := Expired(hits, late), |all| - |hits|;
    ExpiredSplits(hits, late);
    PrunedIs(hits, late);
    forall i | 0 <= i < start + gone ensures all[i] < late { if i >= start { assert hits[i - start] == all[i]; } }
    if gone < |hits| { assert hits[gone] == all[start + gone]; }
  }

  lemma {:induction false} TailGrows(hits: seq<real>, all: seq<real>, cutoff: real, now: real)
    requires Tail(hits, all, cutoff)
    ensures Tail(hits + [now], all + [now], cutoff)
  {
  }

  lemma {:induction false} TailAges(hits: seq<real>, all: seq<real>, early: real, late: real)
    requires Tail(hits, all, early) && early <= late
    ensures Tail(hits, all, late)
  {
  }

  ghost predicate Fresh(g: Gate, cutoff: real) { Tail(g.hits, g.failures, cutoff) }

  lemma AskStays(g: Gate, now: real, early: real, limit: nat, w: real)
    requires Fresh(g, early) && early <= now - w
    ensures Fresh(Asked(g, Pruned(g.hits, now - w), limit), now - w)
  {
    PruneTail(g.hits, g.failures, early, now - w);
  }

  lemma FailStays(g: Gate, now: real, early: real, w: real)
    requires Fresh(g, early) && early <= now - w
    ensures Fresh(Failed(g, Pruned(g.hits, now - w), now), now - w)
  {
    PruneTail(g.hits, g.failures, early, now - w);
    TailGrows(Pruned(g.hits, now - w), g.failures, now - w, now);
    TailAges(g.hits, g.failures, early, now - w);
  }

  lemma LeaveStays(g: Gate, kept: bool, early: real, late: real)
    requires Fresh(g, early) && early <= late
    ensures Fresh(Left(g, kept), late)
  {
    TailAges(g.hits, g.failures, early, late);
  }

  lemma FreshStays(g: Gate, t: Turn, early: real, limit: nat, w: real)
    requires Fresh(g, early) && early <= t.now - w
    ensures Fresh(Move(g, t, limit, w), t.now - w)
  {
    match t
    case Ask(now) => AskStays(g, now, early, limit, w);
    case Fail(now) => FailStays(g, now, early, w);
    case Pass(now) => LeaveStays(g, true, early, now - w);
    case Succeed(now) => LeaveStays(g, false, early, now - w);
  }

  lemma OthersAge(g: Gate, early: real, late: real)
    requires Fresh(g, early) && early <= late
    ensures Fresh(g, late)
  {
    TailAges(g.hits, g.failures, early, late);
  }

  lemma FailuresAreOrdered(d: Desk, v: Visit, x: Key, l: Limits, prior: real)
    requires Until(TrailOf(d, x).failures, prior) && prior <= v.turn.now
    ensures Until(TrailOf(Serve(d, v, l), x).failures, v.turn.now)
  {
  }

  lemma ShownIsFresh(g: Gate, v: Visit, x: Key, l: Limits, kept: bool, early: real)
    requires Fresh(g, early) && early <= v.turn.now - l.window
    ensures Fresh(Shown(g, v, x, l, kept), v.turn.now - l.window)
  {
    if v.key == x {
      FreshStays(g, v.turn, early, l.attempts, l.window);
    } else {
      OthersAge(g, early, v.turn.now - l.window);
    }
  }

  /** The visit before the last one, or the last one itself. */
  function Prior(visits: seq<Visit>): real
    requires visits != []
  {
    if |visits| == 1 then visits[0].turn.now else visits[|visits| - 2].turn.now
  }

  lemma {:induction false} ViewIsTail(visits: seq<Visit>, x: Key, l: Limits)
    requires InTime(visits) && visits != []
    ensures Fresh(View(visits, x, l), visits[|visits| - 1].turn.now - l.window)
  {
    var n := |visits| - 1;
    var front, v := visits[..n], visits[n];
    Front(visits);
    assert visits == front + [v];
    if n > 0 { ViewIsTail(front, x, l); } else { NoEntryNoHits(front, x, l); }
    Sees(front, v, x, l);
    ShownIsFresh(View(front, x, l), v, x, l, x in Serves(visits, l).book.hits, Prior(visits) - l.window);
  }

  lemma {:induction false} FailuresAreInTime(visits: seq<Visit>, x: Key, l: Limits)
    requires InTime(visits) && visits != []
    ensures Until(Failures(visits, x, l), visits[|visits| - 1].turn.now)
  {
    var n := |visits| - 1;
    Front(visits);
    if n > 0 { FailuresAreInTime(visits[..n], x, l); }
    FailuresAreOrdered(Serves(visits[..n], l), visits[n], x, l, Prior(visits));
  }

  lemma {:induction false} RestIsInTime(f: seq<real>, lost: nat, now: real)
    requires Until(f, now) && lost <= |f|
    ensures Until(f[lost..], now)
  {
  }

  lemma {:induction false} RoomIff(hits: seq<real>, all: seq<real>, prior: real, early: real, late: real, limit: nat)
    requires Tail(hits, all, early) && early <= late && limit >= 1 && Until(all, prior)
    ensures |Pruned(hits, late)| < limit <==> |all| < limit || all[|all| - limit] < late
  {
    PruneTail(hits, all, early, late);
    var live := Pruned(hits, late);
    if limit <= |live| { assert all[|all| - |live|] <= all[|all| - limit]; }
  }

  predicate LetThrough(visits: seq<Visit>, x: Key, now: real, l: Limits) {
    UnderWay(visits + [Visit(x, Ask(now))], x, l) == UnderWay(visits, x, l) + 1
  }

  lemma {:induction false} AskedOrNot(visits: seq<Visit>, x: Key, now: real, l: Limits)
    ensures LetThrough(visits, x, now, l) <==> |Pruned(View(visits, x, l).hits, now - l.window)| < l.attempts
  {
    Then(visits, Visit(x, Ask(now)), l);
  }

  /** Fewer than `n` of these failures lie within the window. */
  predicate Room(f: seq<real>, n: nat, cutoff: real)
    requires n >= 1
  {
    |f| < n || f[|f| - n] < cutoff
  }

  lemma {:induction false} ViewIsInTime(visits: seq<Visit>, x: Key, l: Limits)
    requires InTime(visits) && visits != []
    ensures Until(View(visits, x, l).failures, visits[|visits| - 1].turn.now)
  {
    FailuresAreInTime(visits, x, l);
    LostIsPast(visits, x, l);
    RestIsInTime(Failures(visits, x, l), Lost(visits, x, l), visits[|visits| - 1].turn.now);
  }

  lemma {:induction false} LiveIffRoom(visits: seq<Visit>, x: Key, now: real, l: Limits)
    requires InTime(visits) && visits != [] && visits[|visits| - 1].turn.now <= now && l.attempts >= 1
    ensures var g := View(visits, x, l);
      |Pruned(g.hits, now - l.window)| < l.attempts <==> Room(g.failures, l.attempts, now - l.window)
  {
    var g, prior := View(visits, x, l), visits[|visits| - 1].turn.now;
    ViewIsTail(visits, x, l);
    ViewIsInTime(visits, x, l);
    RoomIff(g.hits, g.failures, prior, prior - l.window, now - l.window, l.attempts);
  }

  /** A sign-in is let through exactly when fewer than `attempts` of the failures still remembered lie
      within the window before it, however the sign-ins overlap. */
  lemma {:induction false} AllowedIff(visits: seq<Visit>, x: Key, now: real, l: Limits)
    requires InTime(visits) && (visits != [] ==> visits[|visits| - 1].turn.now <= now) && l.attempts >= 1
    ensures Lost(visits, x, l) <= |Failures(visits, x, l)|
    ensures LetThrough(visits, x, now, l) <==>
      Room(Failures(visits, x, l)[Lost(visits, x, l)..], l.attempts, now - l.window)
  {
    LostIsPast(visits, x, l);
    AskedOrNot(visits, x, now, l);
    if visits == [] { NoEntryNoHits(visits, x, l); } else { LiveIffRoom(visits, x, now, l); }
  }

  /** What the limiter is for, all failures counted, holds exactly unless the one that should turn the
      sign-in away, the latest but `attempts - 1`, lies within the window and came before the key was
      last forgotten. */
  lemma {:induction false} ThrottledAsPromisedIff(visits: seq<Visit>, x: Key, now: real, l: Limits)
    requires InTime(visits) && (visits != [] ==> visits[|visits| - 1].turn.now <= now) && l.attempts >= 1
    ensures var f := Failures(visits, x, l);
      (LetThrough(visits, x, now, l) <==> Room(f, l.attempts, now - l.window)) <==>
      !(|f| >= l.attempts && f[|f| - l.attempts] >= now - l.window && |f| - l.attempts < Lost(visits, x, l))
  {
    AllowedIff(visits, x, now, l);
  }

  /** The wait named is too short while the oldest live hit has a second or more. */
  lemma {:induction false} NamedWait(oldest: real, now: real, window: real, decisive: real)
    requires now - window <= oldest <= decisive
    ensures var wait := (oldest + window - now).Floor;
      decisive < now + (if wait < 1 then 1 else wait) as real - window <==> decisive + window - now < 1.0
  {
  }

  lemma {:induction false} PrunedIsSorted(hits: seq<real>, cutoff: real)
    requires Sorted(hits)
    ensures var live := Pruned(hits, cutoff);
      Sorted(live) && |live| <= |hits| && live == hits[|hits| - |live|..] && (live != [] ==> live[0] >= cutoff)
  {
    ExpiredSplits(hits, cutoff);
    PrunedIs(hits, cutoff);
  }

  lemma {:induction false} FewerLiveIff(hits: seq<real>, cutoff: real, n: nat)
    requires Sorted(hits) && 1 <= n <= |hits|
    ensures |Pruned(hits, cutoff)| < n <==> hits[|hits| - n] < cutoff
  {
    ExpiredSplits(hits, cutoff);
    PrunedIs(hits, cutoff);
  }

  /** A refused key is told to come back after the whole seconds its oldest live failure still has.
      With nothing recorded in between, coming back then is refused again, unless the failure that
      has to leave has less than a second left. */
  lemma {:induction false} RetryIff(hits: seq<real>, now: real, l: Limits)
    requires Sorted(hits) && l.attempts >= 1
    requires !Decided(Pruned(hits, now - l.window), now, l).allowed
    ensures |hits| >= l.attempts
    ensures var live := Pruned(hits, now - l.window); var back := now + Decided(live, now, l).retryAfter as real;
      Decided(Pruned(live, back - l.window), back, l).allowed <==> hits[|hits| - l.attempts] + l.window - now < 1.0
  {
    var live := Pruned(hits, now - l.window);
    var back := now + Decided(live, now, l).retryAfter as real;
    PrunedIsSorted(hits, now - l.window);
    FewerLiveIff(live, back - l.window, l.attempts);
    assert live[|live| - l.attempts] == hits[|hits| - l.attempts];
    NamedWait(live[0], now, l.window, live[|live| - l.attempts]);
  }

  // ---- bursts --------------------------------------------------------------------------

  /** At no point more than `k` sign-ins of this key let through and undecided. */
  ghost predicate AtOnce(visits: seq<Visit>, x: Key, l: Limits, k: nat) {
    UnderWay(visits, x, l) <= k && (visits != [] ==> AtOnce(visits[..|visits| - 1], x, l, k))
  }

  /** Live failures and sign-ins under way, together. */
  ghost predicate Crowd(g: Gate, cutoff: real, most: nat) { |Pruned(g.hits, cutoff)| + g.underWay <= most }

  lemma {:induction false} PruneTwice(hits: seq<real>, early: real, late: real)
    requires Sorted(hits) && early <= late
    ensures Pruned(Pruned(hits, early), late) == Pruned(hits, late)
    ensures |Pruned(hits, late)| <= |Pruned(hits, early)|
  {
    PrunedIs(hits, late);
    if hits != [] && hits[0] < early { PruneTwice(hits[1..], early, late); }
  }

  lemma {:induction false} PruneGrows(hits: seq<real>, now: real, cutoff: real)
    requires cutoff <= now && forall i :: 0 <= i < |hits| ==> hits[i] >= cutoff
    ensures Pruned(hits + [now], cutoff) == hits + [now]
  {
  }

  lemma {:induction false} LiveAfterFailure(hits: seq<real>, now: real, cutoff: real)
    requires Sorted(hits) && cutoff <= now
    ensures |Pruned(Pruned(hits, cutoff) + [now], cutoff)| == |Pruned(hits, cutoff)| + 1
  {
    var gone := Expired(hits, cutoff);
    ExpiredSplits(hits, cutoff);
    PrunedIs(hits, cutoff);
    var live := hits[gone..];
    forall i | 0 <= i < |live| ensures live[i] >= cutoff { assert hits[gone] <= hits[gone + i]; }
    PruneGrows(live, now, cutoff);
  }

  lemma {:induction false} AskCrowds(g: Gate, cutoff: real, limit: nat, k: nat)
    requires Sorted(g.hits) && limit >= 1 && Crowd(g, cutoff, limit - 1 + k)
    requires Asked(g, Pruned(g.hits, cutoff), limit).underWay <= k
    ensures Crowd(Asked(g, Pruned(g.hits, cutoff), limit), cutoff, limit - 1 + k)
  {
    PruneTwice(g.hits, cutoff, cutoff);
  }

  lemma {:induction false} FailCrowds(g: Gate, now: real, cutoff: real, most: nat)
    requires Sorted(g.hits) && cutoff <= now && Crowd(g, cutoff, most)
    ensures Crowd(Failed(g, Pruned(g.hits, cutoff), now), cutoff, most)
  {
    LiveAfterFailure(g.hits, now, cutoff);
  }

  lemma LeaveCrowds(g: Gate, kept: bool, cutoff: real, most: nat)
    requires Crowd(g, cutoff, most)
    ensures Crowd(Left(g, kept), cutoff, most)
  {
  }

  lemma CrowdStays(g: Gate, t: Turn, early: real, limit: nat, w: real, k: nat)
    requires Sorted(g.hits) && early <= t.now - w && w >= 0.0 && limit >= 1
    requires Crowd(g, early, limit - 1 + k) && Move(g, t, limit, w).underWay <= k
    ensures Crowd(Move(g, t, limit, w), t.now - w, limit - 1 + k)
  {
    PruneTwice(g.hits, early, t.now - w);
    match t
    case Ask(now) => AskCrowds(g, now - w, limit, k);
    case Fail(now) => FailCrowds(g, now, now - w, limit - 1 + k);
    case Pass(now) => LeaveCrowds(g, true, now - w, limit - 1 + k);
    case Succeed(now) => LeaveCrowds(g, false, now - w, limit - 1 + k);
  }

  lemma ShownCrowd(g: Gate, v: Visit, x: Key, l: Limits, kept: bool, early: real, k: nat)
    requires Sorted(g.hits) && early <= v.turn.now - l.window && l.window >= 0.0 && l.attempts >= 1
    requires Crowd(g, early, l.attempts - 1 + k) && Seen(g, v, x, l).underWay <= k
    ensures Crowd(Shown(g, v, x, l, kept), v.turn.now - l.window, l.attempts - 1 + k)
  {
    if v.key == x {
      CrowdStays(g, v.turn, early, l.attempts, l.window, k);
    } else {
      PruneTwice(g.hits, early, v.turn.now - l.window);
    }
  }

  lemma {:induction false} HitsAreSorted(visits: seq<Visit>, x: Key, l: Limits)
    requires InTime(visits)
    ensures Sorted(View(visits, x, l).hits)
  {
    if visits == [] {
      NoEntryNoHits(visits, x, l);
    } else {
      var now, g := visits[|visits| - 1].turn.now, View(visits, x, l);
      ViewIsTail(visits, x, l);
      FailuresAreInTime(visits, x, l);
      LostIsPast(visits, x, l);
      RestIsInTime(Failures(visits, x, l), Lost(visits, x, l), now);
      RestIsInTime(g.failures, |g.failures| - |g.hits|, now);
    }
  }

  lemma {:induction false} CrowdIsBounded(visits: seq<Visit>, x: Key, l: Limits, k: nat)
    requires InTime(visits) && visits != [] && l.window >= 0.0 && l.attempts >= 1 && AtOnce(visits, x, l, k)
    ensures Crowd(View(visits, x, l), visits[|visits| - 1].turn.now - l.window, l.attempts - 1 + k)
  {
    var n := |visits| - 1;
    var front, v := visits[..n], visits[n];
    Front(visits);
    assert visits == front + [v];
    if n > 0 { CrowdIsBounded(front, x, l, k); } else { NoEntryNoHits(front, x, l); }
    HitsAreSorted(front, x, l);
    Sees(front, v, x, l);
    ShownCrowd(View(front, x, l), v, x, l, x in Serves(visits, l).book.hits, Prior(visits) - l.window, k);
  }

  /** What one visit does to the failures of a key, and to how many of them are lost. */
  lemma {:induction false} FailuresGrow(visits: seq<Visit>, v: Visit, x: Key, l: Limits)
    ensures var f, g := Failures(visits, x, l), Failures(visits + [v], x, l);
      g == [] || ((g == f || g == f + [v.turn.now]) && Lost(visits, x, l) <= Lost(visits + [v], x, l))
  {
    Then(visits, v, l);
    LostNow(visits, v, x, l);
    LostIsPast(visits, x, l);
  }

  /** Failure `m` was there before the last visit, and failure `i` was remembered then; or it is new. */
  lemma {:induction false} OldOrNew(visits: seq<Visit>, v: Visit, x: Key, l: Limits, i: nat, m: nat)
    requires Lost(visits + [v], x, l) <= i <= m < |Failures(visits + [v], x, l)|
    ensures var f, g := Failures(visits, x, l), Failures(visits + [v], x, l);
      if m < |f| then Lost(visits, x, l) <= i && g[i] == f[i] && g[m] == f[m] else m == |g| - 1 && g[m] == v.turn.now
  {
    FailuresGrow(visits, v, x, l);
  }

  lemma {:induction false} LastOfRest(visits: seq<Visit>, x: Key, l: Limits, k: nat)
    requires InTime(visits) && visits != [] && l.window >= 0.0 && l.attempts >= 1 && k >= 1 && AtOnce(visits, x, l, k)
    ensures var f := Failures(visits, x, l); var i := |f| - l.attempts - k;
      i >= Lost(visits, x, l) ==> f[i] < visits[|visits| - 1].turn.now - l.window
  {
    var g := View(visits, x, l);
    LostIsPast(visits, x, l);
    CrowdIsBounded(visits, x, l, k);
    ViewIsTail(visits, x, l);
    if |g.failures| > l.attempts - 1 + k {
      LastOfBurst(g.hits, g.failures, visits[|visits| - 1].turn.now - l.window, l.attempts - 1 + k);
    }
  }

  /** With at most `k` sign-ins of a key under way at once, any `attempts + k` of its failures without
      a success between them, none from before it was last forgotten, span more than the window; one
      at a time, any `attempts + 1`. */
  lemma {:induction false} BurstsAreBounded(visits: seq<Visit>, x: Key, l: Limits, k: nat, i: nat)
    requires InTime(visits) && l.window >= 0.0 && l.attempts >= 1 && k >= 1 && AtOnce(visits, x, l, k)
    requires Lost(visits, x, l) <= i && i + l.attempts + k - 1 < |Failures(visits, x, l)|
    ensures var f := Failures(visits, x, l); f[i + l.attempts + k - 1] > f[i] + l.window
  {
    var n := |visits| - 1;
    var front, v := visits[..n], visits[n];
    assert visits == front + [v];
    Front(visits);
    OldOrNew(front, v, x, l, i, i + l.attempts + k - 1);
    if i + l.attempts + k - 1 < |Failures(front, x, l)| {
      BurstsAreBounded(front, x, l, k, i);
    } else {
      LastOfRest(visits, x, l, k);
    }
  }

  lemma {:induction false} LastOfBurst(hits: seq<real>, all: seq<real>, cutoff: real, most: nat)
    requires Tail(hits, all, cutoff) && |Pruned(hits, cutoff)| <= most < |all|
    ensures all[|all| - 1 - most] < cutoff
  {
    PruneTail(hits, all, cutoff, cutoff);
  }

  // ---- while there is room for every key -----------------------------------------------

  function Visitors(visits: seq<Visit>): set<Key> {
    if visits == [] then {} else Visitors(visits[..|visits| - 1]) + {visits[|visits| - 1].key}
  }

  lemma KnownAfter(d: Desk, v: Visit, l: Limits)
    requires Sound(d.book)
    ensures Serve(d, v, l).book.hits.Keys <= d.book.hits.Keys + {v.key}
    ensures Serve(d, v, l).trails.Keys <= d.trails.Keys + {v.key}
  {
    forall x | x in Serve(d, v, l).book.hits && x != v.key ensures x in d.book.hits { OthersAreKept(d, v, x, l); }
  }

  lemma {:induction false} KnownAreVisitors(visits: seq<Visit>, l: Limits)
    ensures Serves(visits, l).book.hits.Keys <= Visitors(visits) && Serves(visits, l).trails.Keys <= Visitors(visits)
  {
    if visits != [] {
      var front := visits[..|visits| - 1];
      KnownAreVisitors(front, l);
      ServesIsSound(front, l);
      KnownAfter(Serves(front, l), visits[|visits| - 1], l);
    }
  }

  lemma {:induction false} BehindIsWithin(s: seq<Key>, x: Key)
    requires Distinct(s)
    ensures Behind(s, x) <= Keys(s) - {x}
  {
    if s != [] {
      FirstIsApart(s);
      BehindIsWithin(s[1..], x);
      assert Keys(s[1..]) <= Keys(s);
    }
  }

  lemma {:induction false} SizeOfSubset(a: set<Key>, b: set<Key>)
    requires a <= b
    ensures |a| <= |b|
  {
    assert b == a + (b - a);
  }

  /** As long as no more keys have come than the limiter may hold, a visit makes it drop none but the
      key that succeeds. */
  lemma {:induction false} FewAreKept(visits: seq<Visit>, v: Visit, x: Key, l: Limits)
    requires |Visitors(visits) + {v.key}| <= l.maxKeys && x in Serves(visits, l).book.hits
    requires !(v.key == x && v.turn.Succeed?)
    ensures x in Serves(visits + [v], l).book.hits
  {
    var b, all := Serves(visits, l).book, Visitors(visits) + {v.key};
    ForgottenIff(visits, v, x, l);
    ServesIsSound(visits, l);
    KnownAreVisitors(visits, l);
    BehindIsWithin(b.order, x);
    assert x in all && |all - {x}| == |all| - 1;
    if v.key != x { SizeOfSubset(Behind(b.order, x) + {v.key}, all - {x}); }
  }

  lemma {:induction false} NoEntryNoFailure(visits: seq<Visit>, x: Key, l: Limits)
    requires |Visitors(visits)| <= l.maxKeys && x !in Serves(visits, l).book.hits
    ensures Failures(visits, x, l) == []
  {
    if visits != [] {
      var front, v := visits[..|visits| - 1], visits[|visits| - 1];
      assert visits == front + [v];
      SizeOfSubset(Visitors(front), Visitors(visits));
      Then(front, v, l);
      ServesIsSound(front, l);
      if x in Serves(front, l).book.hits {
        if !(v.key == x && v.turn.Succeed?) { FewAreKept(front, v, x, l); }
      } else {
        NoEntryNoFailure(front, x, l);
        if v.key == x && v.turn.Fail? { OwnStays(Serves(front, l).book, x, v.turn.now, l); }
      }
    }
  }

  /** Then no failure is lost, and the limiter keeps its promise to all keys. */
  lemma {:induction false} FewKeysAreRemembered(visits: seq<Visit>, x: Key, l: Limits)
    requires |Visitors(visits)| <= l.maxKeys
    ensures Lost(visits, x, l) == 0
  {
    if visits != [] {
      SizeOfSubset(Visitors(visits[..|visits| - 1]), Visitors(visits));
      FewKeysAreRemembered(visits[..|visits| - 1], x, l);
      if x !in Serves(visits, l).book.hits { NoEntryNoFailure(visits, x, l); }
    }
  }

  // ---- both bounds are met -------------------------------------------------------------

  /** `n` times `x`. */
  ghost predicate Same(s: seq<real>, x: real, n: nat) { |s| == n && forall i :: 0 <= i < n ==> s[i] == x }

  lemma {:induction false} AllLive(s: seq<real>, now: real, w: real)
    requires w >= 0.0 && Same(s, now, |s|)
    ensures Pruned(s, now - w) == s
  {
  }

  /** `k` sign-ins of `x` are let through, on top of `base`. */
  function Asks(base: seq<Visit>, x: Key, now: real, k: nat): seq<Visit> {
    if k == 0 then base else Asks(base, x, now, k - 1) + [Visit(x, Ask(now))]
  }

  /** `k` of them fail. */
  function Fails(base: seq<Visit>, x: Key, now: real, k: nat): seq<Visit> {
    if k == 0 then base else Fails(base, x, now, k - 1) + [Visit(x, Fail(now))]
  }

  /** `k` sign-ins fail, one after the other. */
  function Tries(base: seq<Visit>, x: Key, now: real, k: nat): seq<Visit> {
    if k == 0 then base else Tries(base, x, now, k - 1) + [Visit(x, Ask(now))] + [Visit(x, Fail(now))]
  }

  ghost predicate AllAt(visits: seq<Visit>, now: real) { forall v :: v in visits ==> v.turn.now == now }

  /** Where such a rush has led: `f` hits, of `all` failures, and `u` sign-ins under way. */
  ghost predicate Rushed(visits: seq<Visit>, x: Key, now: real, f: nat, all: nat, u: nat, l: Limits, most: nat) {
    && AllAt(visits, now)
    && Same(HitsOf(Serves(visits, l).book, x), now, f)
    && Same(Failures(visits, x, l), now, all)
    && UnderWay(visits, x, l) == u
    && AtOnce(visits, x, l, most)
  }

  lemma {:induction false} AtOnceGrows(visits: seq<Visit>, v: Visit, x: Key, l: Limits, most: nat)
    requires AtOnce(visits, x, l, most) && UnderWay(visits + [v], x, l) <= most
    ensures AtOnce(visits + [v], x, l, most)
  {
    assert (visits + [v])[..|visits|] == visits;
  }

  lemma {:induction false} AskRushes(visits: seq<Visit>, x: Key, now: real, f: nat, all: nat, u: nat, l: Limits,
                                     most: nat)
    requires Rushed(visits, x, now, f, all, u, l, most) && l.window >= 0.0 && f < l.attempts && u < most
    ensures Rushed(visits + [Visit(x, Ask(now))], x, now, f, all, u + 1, l, most)
  {
    Then(visits, Visit(x, Ask(now)), l);
    AllLive(HitsOf(Serves(visits, l).book, x), now, l.window);
    AtOnceGrows(visits, Visit(x, Ask(now)), x, l, most);
  }

  lemma {:induction false} FailRushes(visits: seq<Visit>, x: Key, now: real, f: nat, all: nat, u: nat, l: Limits,
                                      most: nat)
    requires Rushed(visits, x, now, f, all, u, l, most) && l.window >= 0.0 && l.maxKeys >= 1 && 0 < u <= most
    ensures Rushed(visits + [Visit(x, Fail(now))], x, now, f + 1, all + 1, u - 1, l, most)
  {
    Then(visits, Visit(x, Fail(now)), l);
    ServesIsSound(visits, l);
    AllLive(HitsOf(Serves(visits, l).book, x), now, l.window);
    OwnStays(Serves(visits, l).book, x, now, l);
    AtOnceGrows(visits, Visit(x, Fail(now)), x, l, most);
  }

  lemma {:induction false} AsksRush(base: seq<Visit>, x: Key, now: real, f: nat, all: nat, k: nat, l: Limits,
                                    most: nat)
    requires Rushed(base, x, now, f, all, 0, l, most) && l.window >= 0.0 && f < l.attempts && k <= most
    ensures Rushed(Asks(base, x, now, k), x, now, f, all, k, l, most)
  {
    if k > 0 {
      AsksRush(base, x, now, f, all, k - 1, l, most);
      AskRushes(Asks(base, x, now, k - 1), x, now, f, all, k - 1, l, most);
    }
  }

  lemma {:induction false} FailsRush(base: seq<Visit>, x: Key, now: real, f: nat, all: nat, u: nat, k: nat, l: Limits,
                                     most: nat)
    requires Rushed(base, x, now, f, all, u, l, most) && l.window >= 0.0 && l.maxKeys >= 1 && k <= u <= most
    ensures Rushed(Fails(base, x, now, k), x, now, f + k, all + k, u - k, l, most)
  {
    if k > 0 {
      var before, hits, failures := Fails(base, x, now, k - 1), f + k - 1, all + k - 1;
      FailsRush(base, x, now, f, all, u, k - 1, l, most);
      FailRushes(before, x, now, hits, failures, u - k + 1, l, most);
    }
  }

  lemma {:induction false} TriesRush(base: seq<Visit>, x: Key, now: real, past: nat, k: nat, l: Limits, most: nat)
    requires Rushed(base, x, now, 0, past, 0, l, most) && l.window >= 0.0 && l.maxKeys >= 1
    requires k <= l.attempts && most >= 1
    ensures Rushed(Tries(base, x, now, k), x, now, k, past + k, 0, l, most)
  {
    if k > 0 {
      var before := Tries(base, x, now, k - 1);
      TriesRush(base, x, now, past, k - 1, l, most);
      AskRushes(before, x, now, k - 1, past + k - 1, 0, l, most);
      FailRushes(before + [Visit(x, Ask(now))], x, now, k - 1, past + k - 1, 1, l, most);
    }
  }

  lemma {:induction false} NothingRushed(x: Key, now: real, l: Limits, most: nat)
    ensures Rushed([], x, now, 0, 0, 0, l, most)
  {
  }

  lemma {:induction false} AllAtInTime(visits: seq<Visit>, now: real)
    requires AllAt(visits, now)
    ensures InTime(visits)
  {
    forall i | 0 <= i < |visits| ensures visits[i].turn.now == now { assert visits[i] in visits; }
  }

  /** The bound on bursts cannot be improved: `k` overlapping sign-ins can all fail at the moment at
      which `attempts - 1` others did. */
  lemma BurstsCanBeThatLarge(x: Key, now: real, l: Limits, k: nat) returns (visits: seq<Visit>)
    requires l.window >= 0.0 && l.attempts >= 1 && l.maxKeys >= 1 && k >= 1
    ensures InTime(visits) && AtOnce(visits, x, l, k)
    ensures Same(Failures(visits, x, l), now, l.attempts + k - 1)
  {
    visits := Tries([], x, now, l.attempts - 1);
    NothingRushed(x, now, l, k);
    TriesRush([], x, now, 0, l.attempts - 1, l, k);
    AsksRush(visits, x, now, l.attempts - 1, l.attempts - 1, k, l, k);
    visits := Asks(visits, x, now, k);
    FailsRush(visits, x, now, l.attempts - 1, l.attempts - 1, k, k, l, k);
    visits := Fails(visits, x, now, k);
    AllAtInTime(visits, now);
  }

  // ---- beyond the room there is --------------------------------------------------------

  lemma {:induction false} BehindTrimmed(b: Book, most: nat, x: Key)
    requires Sound(b) && x in Trimmed(b, most).hits
    ensures Behind(Trimmed(b, most).order, x) == Behind(b.order, x)
    decreases |b.order|
  {
    if |b.order| > most {
      var next := Book(b.order[1..], b.hits - {b.order[0]});
      FirstIsApart(b.order);
      TrimmedIs(next, most);
      assert x in next.hits;
      BehindTrimmed(next, most, x);
    }
  }

  /** A new key that asks stands behind `x`. */
  lemma {:induction false} NewcomerAsks(d: Desk, y: Key, now: real, l: Limits, x: Key)
    requires Sound(d.book) && x != y && y !in d.book.hits && TrailOf(d, y) == Trail([], 0) && l.attempts >= 1
    ensures var next := Serve(d, Visit(y, Ask(now)), l);
      && TrailOf(next, x) == TrailOf(d, x) && TrailOf(next, y).underWay == 1 && Sound(next.book)
      && (x in next.book.hits <==> x in d.book.hits)
      && (x in d.book.hits ==> |Behind(next.book.order, x)| == |Behind(d.book.order, x)| + 1)
  {
    OpenedIsSound(d.book, y, now - l.window);
    if x in d.book.hits {
      BehindAppended(d.book.order, y, x);
      BehindIsWithin(d.book.order, x);
    }
  }

  /** Its failure leaves it there, unless that drives `x` out. */
  lemma {:induction false} FailurePushes(d: Desk, y: Key, now: real, l: Limits, x: Key)
    requires Sound(d.book) && x != y && TrailOf(d, y).underWay == 1
    ensures var next := Serve(d, Visit(y, Fail(now)), l);
      && TrailOf(next, x) == TrailOf(d, x)
      && (x in next.book.hits ==>
           x in d.book.hits && |Behind(d.book.order, x)| <= |Behind(next.book.order, x)| < l.maxKeys)
  {
    var b := d.book;
    if x in Serve(d, Visit(y, Fail(now)), l).book.hits {
      OthersAreKept(d, Visit(y, Fail(now)), x, l);
      DropsIff(b, y, now, l, x);
      BehindRecorded(b, y, now, l, x);
      SizeOfSubset(Behind(b.order, x), Behind(b.order, x) + {y});
    }
  }

  lemma {:induction false} BehindRecorded(b: Book, y: Key, now: real, l: Limits, x: Key)
    requires Sound(b) && x in b.hits && x != y && x in Recorded(b, y, now, l).hits
    ensures Behind(Recorded(b, y, now, l).order, x) == Behind(b.order, x) + {y}
  {
    MarkedIsSound(b, y, now, l.window);
    BehindTrimmed(Marked(b, y, now, l.window), l.maxKeys, x);
    BehindMoved(Opened(b, y, now - l.window).order, y, x);
    if y !in b.hits { BehindAppended(b.order, y, x); }
  }

  /** Keys `c + 1` to `c + n` fail once each, on top of `base`. */
  function Flood(base: seq<Visit>, now: real, c: nat, n: nat): seq<Visit> {
    if n == 0 then base
    else Flood(base, now, c, n - 1) + [Visit(c + n, Ask(now))] + [Visit(c + n, Fail(now))]
  }

  ghost predicate UpTo(visits: seq<Visit>, c: nat) { forall v :: v in visits ==> v.key <= c }

  /** Where a flood of `n` keys has left key 0. */
  ghost predicate Flooded(visits: seq<Visit>, now: real, all: nat, n: nat, l: Limits) {
    && AllAt(visits, now)
    && Same(Failures(visits, 0, l), now, all)
    && UnderWay(visits, 0, l) == 0
    && AtOnce(visits, 0, l, 1)
    && (0 in Serves(visits, l).book.hits ==> |Behind(Serves(visits, l).book.order, 0)| >= n)
  }

  lemma {:induction false} LaterKeysAreNew(visits: seq<Visit>, c: nat, y: Key, l: Limits)
    requires UpTo(visits, c) && y > c
    ensures y !in Serves(visits, l).book.hits && TrailOf(Serves(visits, l), y) == Trail([], 0)
  {
    KnownAreVisitors(visits, l);
    VisitorsVisit(visits, y);
  }

  lemma {:induction false} VisitorsVisit(visits: seq<Visit>, y: Key)
    requires forall v :: v in visits ==> v.key != y
    ensures y !in Visitors(visits)
  {
    if visits != [] { VisitorsVisit(visits[..|visits| - 1], y); }
  }

  lemma {:induction false} NewcomerFloods(visits: seq<Visit>, y: Key, now: real, all: nat, n: nat, l: Limits)
    requires Flooded(visits, now, all, n, l) && y > 0 && UpTo(visits, y - 1) && l.attempts >= 1
    ensures Flooded(visits + [Visit(y, Ask(now))], now, all, n + 1, l)
    ensures UnderWay(visits + [Visit(y, Ask(now))], y, l) == 1
  {
    LaterKeysAreNew(visits, y - 1, y, l);
    ServesIsSound(visits, l);
    NewcomerAsks(Serves(visits, l), y, now, l, 0);
    Then(visits, Visit(y, Ask(now)), l);
    AtOnceGrows(visits, Visit(y, Ask(now)), 0, l, 1);
  }

  lemma {:induction false} FailureFloods(visits: seq<Visit>, y: Key, now: real, all: nat, n: nat, l: Limits)
    requires Flooded(visits, now, all, n, l) && y > 0 && UnderWay(visits, y, l) == 1
    ensures Flooded(visits + [Visit(y, Fail(now))], now, all, n, l)
    ensures n >= l.maxKeys ==> 0 !in Serves(visits + [Visit(y, Fail(now))], l).book.hits
  {
    ServesIsSound(visits, l);
    FailurePushes(Serves(visits, l), y, now, l, 0);
    Then(visits, Visit(y, Fail(now)), l);
    AtOnceGrows(visits, Visit(y, Fail(now)), 0, l, 1);
  }

  lemma {:induction false} FloodIsOf(base: seq<Visit>, now: real, c: nat, n: nat)
    requires UpTo(base, c)
    ensures UpTo(Flood(base, now, c, n), c + n)
  {
    if n > 0 { FloodIsOf(base, now, c, n - 1); }
  }

  lemma {:induction false} FloodIs(base: seq<Visit>, now: real, all: nat, c: nat, n: nat, l: Limits)
    requires Flooded(base, now, all, 0, l) && UpTo(base, c) && l.attempts >= 1
    ensures Flooded(Flood(base, now, c, n), now, all, n, l)
  {
    if n > 0 {
      var before := Flood(base, now, c, n - 1);
      FloodIs(base, now, all, c, n - 1, l);
      FloodIsOf(base, now, c, n - 1);
      NewcomerFloods(before, c + n, now, all, n - 1, l);
      FailureFloods(before + [Visit(c + n, Ask(now))], c + n, now, all, n, l);
    }
  }

  lemma {:induction false} FloodDrivesOut(base: seq<Visit>, now: real, all: nat, c: nat, n: nat, l: Limits)
    requires Flooded(base, now, all, 0, l) && UpTo(base, c) && l.attempts >= 1 && n > 0 && n >= l.maxKeys
    ensures 0 !in Serves(Flood(base, now, c, n), l).book.hits
  {
    var before := Flood(base, now, c, n - 1);
    FloodIs(base, now, all, c, n - 1, l);
    FloodIsOf(base, now, c, n - 1);
    NewcomerFloods(before, c + n, now, all, n - 1, l);
    FailureFloods(before + [Visit(c + n, Ask(now))], c + n, now, all, n, l);
  }

  lemma {:induction false} TriesAreOf(base: seq<Visit>, now: real, k: nat, c: nat)
    requires UpTo(base, c)
    ensures UpTo(Tries(base, 0, now, k), c)
  {
    if k > 0 { TriesAreOf(base, now, k - 1, c); }
  }

  /** Key 0 fails as often as it may, again and again; before each time, `maxKeys` new keys fail once. */
  function Waves(now: real, l: Limits, m: nat): seq<Visit> {
    if m == 0 then []
    else Tries(Flood(Waves(now, l, m - 1), now, (m - 1) * l.maxKeys, l.maxKeys), 0, now, l.attempts)
  }

  lemma {:induction false} WavesAre(now: real, l: Limits, m: nat)
    requires l.window >= 0.0 && l.attempts >= 1 && l.maxKeys >= 1
    ensures Flooded(Waves(now, l, m), now, m * l.attempts, 0, l) && UpTo(Waves(now, l, m), m * l.maxKeys)
  {
    if m > 0 {
      var c, past := (m - 1) * l.maxKeys, (m - 1) * l.attempts;
      var before := Flood(Waves(now, l, m - 1), now, c, l.maxKeys);
      WavesAre(now, l, m - 1);
      FloodIs(Waves(now, l, m - 1), now, past, c, l.maxKeys, l);
      FloodIsOf(Waves(now, l, m - 1), now, c, l.maxKeys);
      FloodDrivesOut(Waves(now, l, m - 1), now, past, c, l.maxKeys, l);
      TriesRush(before, 0, now, past, l.attempts, l, 1);
      TriesAreOf(before, now, l.attempts, c + l.maxKeys);
    }
  }

  /** Beyond the keys the limiter may hold there is no bound at all: a key whose every `attempts`
      failures are followed by `maxKeys` failures of other keys fails any number of times at one
      moment, one sign-in at a time. */
  lemma FloodsForget(now: real, l: Limits, m: nat) returns (visits: seq<Visit>)
    requires l.window >= 0.0 && l.attempts >= 1 && l.maxKeys >= 1
    ensures InTime(visits) && AtOnce(visits, 0, l, 1) && Same(Failures(visits, 0, l), now, m * l.attempts)
  {
    visits := Waves(now, l, m);
    WavesAre(now, l, m);
    AllAtInTime(visits, now);
  }
}
