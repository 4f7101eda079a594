/** The agent's request check: a signature, a timestamp close to the clock, and a bounded cache of
    nonces that lives twice as long as a timestamp stays acceptable. */
module ReplayWindow {
  import opened Prelude

  // ---- the nonce cache -----------------------------------------------------------------

  datatype Seen = Seen(nonce: string, at: real)

  ghost predicate InTime(h: seq<Seen>) { forall i, j :: 0 <= i < j < |h| ==> h[i].at <= h[j].at }

  /** How many of the leading entries are older than the cut-off. */
  function Stale(h: seq<Seen>, cutoff: real): (n: nat)
    ensures n <= |h|
  {
    if h == [] || h[0].at >= cutoff then 0 else 1 + Stale(h[1..], cutoff)
  }

  function Purged(h: seq<Seen>, cutoff: real): seq<Seen> {
    if h == [] || h[0].at >= cutoff then h else Purged(h[1..], cutoff)
  }

  lemma {:induction false} PurgedIs(h: seq<Seen>, cutoff: real)
    ensures Purged(h, cutoff) == h[Stale(h, cutoff)..]
  {
    if h != [] && h[0].at < cutoff { PurgedIs(h[1..], cutoff); }
  }

  predicate Holds(h: seq<Seen>, nonce: string) { exists i :: 0 <= i < |h| && h[i].nonce == nonce }

  function Last(h: seq<Seen>, n: nat): seq<Seen> { if |h| <= n then h else h[|h| - n..] }

  /** Of all nonces ever claimed, those the cache still knows at `now`. */
  ghost function Remembered(h: seq<Seen>, ttl: real, size: nat, now: real): seq<Seen> {
    Purged(Last(h, size), now - ttl)
  }

  class NonceCache {
    const ttl: real
    const maxSize: nat
    var entries: seq<Seen>
    ghost var history: seq<Seen>
    ghost var last: real

    ghost predicate Valid()
      reads this
    {
      && ttl >= 0.0 && InTime(history) && (forall i :: 0 <= i < |history| ==> history[i].at <= last)
      && entries == Remembered(history, ttl, maxSize, last)
    }

    constructor (ttl: real, maxSize: nat, now: real)
      requires ttl >= 0.0
      ensures Valid() && history == [] && last == now && this.ttl == ttl && this.maxSize == maxSize
    {
      this.ttl, this.maxSize, entries, history, last := ttl, maxSize, [], [], now;
    }

    method Purge(now: real)
      modifies this`entries
      ensures entries == Purged(old(entries), now - ttl)
    {
      var cutoff := now - ttl;
      ghost var before := entries;
      while entries != []
        invariant Purged(entries, cutoff) == Purged(before, cutoff)
        decreases |entries|
      {
        if entries[0].at >= cutoff { break; }
        entries := entries[1..];
      }
    }

    /** Record a nonce; refused when it is still remembered. */
    method Claim(nonce: string, now: real) returns (ok: bool)
      requires Valid() && last <= now
      modifies this
      ensures Valid() && last == now && |entries| <= maxSize
      ensures ok <==> !Holds(Remembered(old(history), ttl, maxSize, now), nonce)
      ensures history == if ok then old(history) + [Seen(nonce, now)] else old(history)
    {
      Refresh(now);
      var known := Find(nonce);
      if known { return false; }
      Admit(Seen(nonce, now));
      return true;
    }

    method Refresh(now: real)
      requires Valid() && last <= now
      modifies this`entries, this`last
      ensures Valid() && last == now && |entries| <= maxSize
    {
      PurgeTwice(Last(history, maxSize), last - ttl, now - ttl);
      PurgedIs(Last(history, maxSize), now - ttl);
      Purge(now);
      last := now;
    }

    method Admit(x: Seen)
      requires Valid() && last == x.at
      modifies this`entries, this`history
      ensures Valid() && |entries| <= maxSize && history == old(history) + [x]
    {
      ClaimKept(history, entries, ttl, maxSize, x);
      entries := entries + [x];
      Evict();
      history := history + [x];
    }

    method Find(nonce: string) returns (found: bool)
      ensures found <==> Holds(entries, nonce)
    {
      for i := 0 to |entries|
        invariant forall k :: 0 <= k < i ==> entries[k].nonce != nonce
      {
        if entries[i].nonce == nonce { return true; }
      }
      return false;
    }

    method Evict()
      modifies this`entries
      ensures entries == Last(old(entries), maxSize)
    {
      while |entries| > maxSize
        invariant Last(entries, maxSize) == Last(old(entries), maxSize)
        decreases |entries|
      {
        entries := entries[1..];
      }
    }
  }

  // ---- what the cache remembers --------------------------------------------------------

  lemma {:induction false} StaleOnTime(h: seq<Seen>, cutoff: real)
    requires InTime(h)
    ensures forall i :: 0 <= i < |h| ==> (i < Stale(h, cutoff) <==> h[i].at < cutoff)
  {
    if h != [] {
      StaleOnTime(h[1..], cutoff);
      forall i | 0 < i < |h| ensures h[i] == h[1..][i - 1] {}
    }
  }

  lemma {:induction false} StaleIs(h: seq<Seen>, cutoff: real, n: nat)
    requires InTime(h) && n <= |h| && (n < |h| ==> h[n].at >= cutoff) && (n > 0 ==> h[n - 1].at < cutoff)
    ensures Stale(h, cutoff) == n
  {
    StaleOnTime(h, cutoff);
  }

  lemma {:induction false} PurgeTwice(h: seq<Seen>, early: real, late: real)
    requires InTime(h) && early <= late
    ensures Purged(Purged(h, early), late) == Purged(h, late)
  {
    var a, b := Stale(h, early), Stale(h, late);
    PurgedIs(h, early);
    PurgedIs(h, late);
    PurgedIs(h[a..], late);
    StaleOnTime(h, early);
    StaleOnTime(h, late);
    assert a == 0 || h[a - 1].at < early;
    StaleIs(h[a..], late, b - a);
  }

  /** Remembering one more nonce: the oldest go when there is no room. */
  lemma ClaimRemembered(h: seq<Seen>, ttl: real, size: nat, x: Seen)
    requires InTime(h) && ttl >= 0.0 && forall i :: 0 <= i < |h| ==> h[i].at <= x.at
    ensures Remembered(h + [x], ttl, size, x.at) == Last(Remembered(h, ttl, size, x.at) + [x], size)
  {
    var kept, cutoff := Last(h, size), x.at - ttl;
    var known := Purged(kept, cutoff);
    PurgedIs(kept, cutoff);
    assert |known| <= |kept|;
    if |h| < size {
      assert Last(h + [x], size) == h + [x];
      ClaimWithRoom(h, cutoff, x);
      assert Last(known + [x], size) == known + [x];
    } else if size > 0 {
      assert Last(h + [x], size) == kept[1..] + [x];
      LastInTime(h, size, x);
      ClaimWhenFull(kept, cutoff, x);
    }
  }

  /** What admitting a nonce leaves in the cache. */
  lemma ClaimKept(h: seq<Seen>, entries: seq<Seen>, ttl: real, size: nat, x: Seen)
    requires InTime(h) && ttl >= 0.0 && (forall i :: 0 <= i < |h| ==> h[i].at <= x.at)
    requires entries == Remembered(h, ttl, size, x.at)
    ensures InTime(h + [x]) && forall i :: 0 <= i < |h + [x]| ==> (h + [x])[i].at <= x.at
    ensures Last(entries + [x], size) == Remembered(h + [x], ttl, size, x.at)
    ensures |Last(entries + [x], size)| <= size
  {
    ClaimRemembered(h, ttl, size, x);
  }

  lemma LastInTime(h: seq<Seen>, size: nat, x: Seen)
    requires InTime(h) && forall i :: 0 <= i < |h| ==> h[i].at <= x.at
    ensures InTime(Last(h, size)) && forall i :: 0 <= i < |Last(h, size)| ==> Last(h, size)[i].at <= x.at
  {
  }

  lemma {:induction false} ClaimWithRoom(kept: seq<Seen>, cutoff: real, x: Seen)
    requires x.at >= cutoff
    ensures Purged(kept + [x], cutoff) == Purged(kept, cutoff) + [x]
  {
    if kept != [] && kept[0].at < cutoff {
      assert (kept + [x])[1..] == kept[1..] + [x];
      ClaimWithRoom(kept[1..], cutoff, x);
    }
  }

  lemma {:induction false} PurgedFits(h: seq<Seen>, cutoff: real)
    ensures |Purged(h, cutoff)| <= |h|
  {
    if h != [] && h[0].at < cutoff { PurgedFits(h[1..], cutoff); }
  }

  lemma {:induction false} ClaimWhenFull(kept: seq<Seen>, cutoff: real, x: Seen)
    requires kept != [] && InTime(kept) && x.at >= cutoff && forall i :: 0 <= i < |kept| ==> kept[i].at <= x.at
    ensures Purged(kept[1..] + [x], cutoff) == Last(Purged(kept, cutoff) + [x], |kept|)
  {
    if kept[0].at < cutoff {
      ClaimWithRoom(kept[1..], cutoff, x);
      PurgedFits(kept[1..], cutoff);
    } else {
      var more := kept[1..] + [x];
      assert more == (kept + [x])[1..];
      assert more[0].at >= cutoff;
    }
  }

  lemma {:induction false} PurgedHas(h: seq<Seen>, cutoff: real)
    requires InTime(h)
    ensures forall x :: x in Purged(h, cutoff) <==> x in h && x.at >= cutoff
  {
    if h != [] && h[0].at < cutoff {
      assert h == [h[0]] + h[1..];
      PurgedHas(h[1..], cutoff);
    }
  }

  lemma {:induction false} HoldsIff(h: seq<Seen>, nonce: string)
    ensures Holds(h, nonce) <==> exists x :: x in h && x.nonce == nonce
  {
    if x :| x in h && x.nonce == nonce { var k :| 0 <= k < |h| && h[k] == x; }
  }

  /** Entry `i` is among the last `size`. */
  predicate Late(h: seq<Seen>, size: nat, i: int) { 0 <= i < |h| && |h| - i <= size }

  lemma {:induction false} LastHas(h: seq<Seen>, size: nat, x: Seen)
    ensures x in Last(h, size) <==> exists i :: Late(h, size, i) && h[i] == x
  {
    var kept := Last(h, size);
    var gone := |h| - |kept|;
    if i :| Late(h, size, i) && h[i] == x { assert kept[i - gone] == x; }
    if x in kept {
      var k :| 0 <= k < |kept| && kept[k] == x;
      assert Late(h, size, k + gone);
    }
  }

  lemma {:induction false} LastInOrder(h: seq<Seen>, size: nat)
    requires InTime(h)
    ensures InTime(Last(h, size))
  {
  }

  /** The cache still knows the nonce exactly if a late enough claim of it is young enough. */
  lemma {:induction false} RememberedIff(h: seq<Seen>, ttl: real, size: nat, nonce: string, now: real)
    requires InTime(h)
    ensures Holds(Remembered(h, ttl, size, now), nonce) <==>
      exists i :: Late(h, size, i) && h[i].nonce == nonce && h[i].at >= now - ttl
  {
    var kept := Last(h, size);
    LastInOrder(h, size);
    PurgedHas(kept, now - ttl);
    HoldsIff(Remembered(h, ttl, size, now), nonce);
    if x :| x in kept && x.at >= now - ttl && x.nonce == nonce { LastHas(h, size, x); }
    if i :| Late(h, size, i) && h[i].nonce == nonce && h[i].at >= now - ttl { LastHas(h, size, h[i]); }
  }

  /** A nonce claimed before is accepted again exactly when it has outlived the cache's time, or
      more claims than the cache holds came after it. */
  lemma {:induction false} ReclaimIff(h: seq<Seen>, ttl: real, size: nat, nonce: string, now: real)
    requires InTime(h)
    ensures !Holds(Remembered(h, ttl, size, now), nonce) <==>
      forall i :: 0 <= i < |h| && h[i].nonce == nonce ==> h[i].at < now - ttl || |h| - i > size
  {
    RememberedIff(h, ttl, size, nonce, now);
    if i :| Late(h, size, i) && h[i].nonce == nonce && h[i].at >= now - ttl { assert h[i].nonce == nonce; }
    forall i | 0 <= i < |h| && h[i].nonce == nonce && !Late(h, size, i) ensures |h| - i > size {}
  }

  // ---- the request check ---------------------------------------------------------------

  /** A header read as a floating-point number. */
  datatype Stamp = Unreadable | Number(value: real) | Infinite | NotANumber

  /** Header lookups ignore case; a header that is absent or empty counts as missing. */
  datatype Request = Request(line: string, body: seq<bv8>, key: string, timestamp: string, nonce: string,
                             signature: string)

  datatype Verdict = Accepted | MissingHeaders | UnknownKey | MalformedNonce | MalformedTimestamp | OutsideWindow
                   | InvalidSignature | Replayed

  /** The agent's configuration, and the two functions it calls: reading a float, and signing the
      request line, timestamp, nonce and body with the shared secret. */
  datatype Setup = Setup(key: string, window: real, size: nat, read: string -> Stamp,
                         sign: (string, string, string, seq<bv8>) -> string)

  function Abs(x: real): real { if x < 0.0 then -x else x }

  /** The comparison with a timestamp that is not a number is false, so it does not refuse. */
  predicate TooFar(stamp: Stamp, now: real, window: real) {
    match stamp
    case Number(t) => Abs(now - t) > window
    case Infinite => true
    case NotANumber => false
    case Unreadable => true
  }

  /** Everything that is checked before the nonce is claimed. */
  function Screen(c: Setup, r: Request, now: real): Verdict {
    if r.key == "" || r.timestamp == "" || r.nonce == "" || r.signature == "" then MissingHeaders
    else if r.key != c.key then UnknownKey
    else if !(8 <= |r.nonce| <= 128) then MalformedNonce
    else if c.read(r.timestamp) == Unreadable then MalformedTimestamp
    else if TooFar(c.read(r.timestamp), now, c.window) then OutsideWindow
    else if c.sign(r.line, r.timestamp, r.nonce, r.body) != r.signature then InvalidSignature
    else Accepted
  }

  // ---- a run of requests ---------------------------------------------------------------

  datatype Call = Call(request: Request, now: real)

  ghost predicate Clocked(calls: seq<Call>) { forall i, j :: 0 <= i < j < |calls| ==> calls[i].now <= calls[j].now }

  ghost function Claims(accepted: seq<Call>): seq<Seen> {
    seq(|accepted|, i requires 0 <= i < |accepted| => Seen(accepted[i].request.nonce, accepted[i].now))
  }

  ghost predicate Accepts(c: Setup, accepted: seq<Call>, call: Call) {
    && Screen(c, call.request, call.now) == Accepted
    && !Holds(Remembered(Claims(accepted), 2.0 * c.window, c.size, call.now), call.request.nonce)
  }

  /** The calls accepted so far; the cache remembers for twice the window. */
  ghost function Served(c: Setup, calls: seq<Call>): seq<Call> {
    if calls == [] then []
    else
      var before, call := Served(c, calls[..|calls| - 1]), calls[|calls| - 1];
      if Accepts(c, before, call) then before + [call] else before
  }

  /** The verdict on a request, given the nonces claimed before. */
  ghost predicate Judged(c: Setup, history: seq<Seen>, r: Request, now: real, verdict: Verdict) {
    if Screen(c, r, now) != Accepted then verdict == Screen(c, r, now)
    else verdict == if Holds(Remembered(history, 2.0 * c.window, c.size, now), r.nonce) then Replayed else Accepted
  }

  /** What one more call adds. */
  lemma {:induction false} ServedNext(c: Setup, calls: seq<Call>, call: Call, verdict: Verdict)
    requires Judged(c, Claims(Served(c, calls)), call.request, call.now, verdict)
    ensures var before := Served(c, calls);
      && Served(c, calls + [call]) == before + (if verdict == Accepted then [call] else [])
      && Claims(Served(c, calls + [call]))
           == Claims(before) + (if verdict == Accepted then [Seen(call.request.nonce, call.now)] else [])
  {
    assert (calls + [call])[..|calls|] == calls;
  }

  // ---- what is accepted, and why not ---------------------------------------------------

  /** The stamp is a number within the window around the clock, or not a number at all. */
  lemma NotTooFarIff(stamp: Stamp, now: real, window: real)
    ensures !TooFar(stamp, now, window) <==>
      stamp.NotANumber? || (stamp.Number? && now - window <= stamp.value <= now + window)
  {
  }

  /** Each refusal before the nonce is looked up, by the first condition that fails. */
  lemma ScreenedIff(c: Setup, r: Request, now: real)
    ensures var missing := r.key == "" || r.timestamp == "" || r.nonce == "" || r.signature == "";
      var shaped := r.key == c.key && 8 <= |r.nonce| <= 128;
      var stamp := c.read(r.timestamp);
      var near := stamp.NotANumber? || (stamp.Number? && now - c.window <= stamp.value <= now + c.window);
      && (Screen(c, r, now) == MissingHeaders <==> missing)
      && (Screen(c, r, now) == UnknownKey <==> !missing && r.key != c.key)
      && (Screen(c, r, now) == MalformedNonce <==> !missing && r.key == c.key && !(8 <= |r.nonce| <= 128))
      && (Screen(c, r, now) == MalformedTimestamp <==> !missing && shaped && stamp.Unreadable?)
      && (Screen(c, r, now) == OutsideWindow <==> !missing && shaped && !stamp.Unreadable? && !near)
      && (Screen(c, r, now) == InvalidSignature <==>
           !missing && shaped && near && r.signature != c.sign(r.line, r.timestamp, r.nonce, r.body))
      && (Screen(c, r, now) == Accepted <==>
           !missing && shaped && near && r.signature == c.sign(r.line, r.timestamp, r.nonce, r.body))
  {
    NotTooFarIff(c.read(r.timestamp), now, c.window);
  }

  lemma PassesIff(c: Setup, r: Request, now: real)
    ensures Screen(c, r, now) == Accepted <==>
      && r.key != "" && r.timestamp != "" && r.nonce != "" && r.signature != "" && r.key == c.key
      && 8 <= |r.nonce| <= 128 && (c.read(r.timestamp).Number? || c.read(r.timestamp).NotANumber?)
      && (c.read(r.timestamp).Number? ==> now - c.window <= c.read(r.timestamp).value <= now + c.window)
      && r.signature == c.sign(r.line, r.timestamp, r.nonce, r.body)
  {
    NotTooFarIff(c.read(r.timestamp), now, c.window);
  }

  /** A request is accepted exactly when it passes all of that and its nonce is in no accepted call
      that is both young enough and recent enough. */
  lemma {:induction false} AcceptedIff(c: Setup, before: seq<Call>, call: Call)
    requires InTime(Claims(before))
    ensures var r, now := call.request, call.now;
      Accepts(c, before, call) <==>
        && r.key != "" && r.timestamp != "" && r.nonce != "" && r.signature != "" && r.key == c.key
        && 8 <= |r.nonce| <= 128 && (c.read(r.timestamp).Number? || c.read(r.timestamp).NotANumber?)
        && (c.read(r.timestamp).Number? ==> now - c.window <= c.read(r.timestamp).value <= now + c.window)
        && r.signature == c.sign(r.line, r.timestamp, r.nonce, r.body)
        && forall i :: 0 <= i < |before| && before[i].request.nonce == r.nonce ==>
             before[i].now < now - 2.0 * c.window || |before| - i > c.size
  {
    PassesIff(c, call.request, call.now);
    NonceIsFreeIff(c, before, call);
  }

  lemma {:induction false} NonceIsFreeIff(c: Setup, before: seq<Call>, call: Call)
    requires InTime(Claims(before))
    ensures !Holds(Remembered(Claims(before), 2.0 * c.window, c.size, call.now), call.request.nonce) <==>
      forall i :: 0 <= i < |before| && before[i].request.nonce == call.request.nonce ==>
        before[i].now < call.now - 2.0 * c.window || |before| - i > c.size
  {
    var h := Claims(before);
    ReclaimIff(h, 2.0 * c.window, c.size, call.request.nonce, call.now);
    assert forall i :: 0 <= i < |before| ==> h[i] == Seen(before[i].request.nonce, before[i].now);
  }

  /** The agent makes the cache remember for twice the window, and hold as many as configured. */
  class Authenticator {
    const setup: Setup
    const nonces: NonceCache
    ghost var calls: seq<Call>

    ghost predicate Fitting()
      reads this, nonces
    {
      nonces.Valid() && nonces.ttl == 2.0 * setup.window && nonces.maxSize == setup.size
    }

    /** The cache has seen exactly the nonces of the calls accepted so far. */
    ghost predicate Valid()
      reads this, nonces
    {
      Fitting() && nonces.history == Claims(Served(setup, calls))
    }

    constructor (setup: Setup, nonces: NonceCache)
      requires nonces.Valid() && nonces.history == []
      requires nonces.ttl == 2.0 * setup.window && nonces.maxSize == setup.size
      ensures Valid() && this.setup == setup && this.nonces == nonces && calls == []
    {
      this.setup, this.nonces, calls := setup, nonces, [];
    }

    /** Every request the agent checks is one more call of the history the theorems are about. */
    method Verify(r: Request, now: real) returns (verdict: Verdict)
      requires Valid() && nonces.last <= now
      modifies nonces, this`calls
      ensures Valid() && calls == old(calls) + [Call(r, now)]
      ensures Served(setup, calls) == Served(setup, old(calls)) + if verdict == Accepted then [Call(r, now)] else []
      ensures Judged(setup, old(nonces.history), r, now, verdict)
      ensures Screen(setup, r, now) != Accepted ==> nonces.entries == old(nonces.entries)
      ensures verdict == Accepted <==>
        && r.key != "" && r.timestamp != "" && r.nonce != "" && r.signature != "" && r.key == setup.key
        && 8 <= |r.nonce| <= 128 && (setup.read(r.timestamp).Number? || setup.read(r.timestamp).NotANumber?)
        && (setup.read(r.timestamp).Number? ==>
              now - setup.window <= setup.read(r.timestamp).value <= now + setup.window)
        && r.signature == setup.sign(r.line, r.timestamp, r.nonce, r.body)
        && forall i :: 0 <= i < |Served(setup, old(calls))| && Served(setup, old(calls))[i].request.nonce == r.nonce ==>
             || Served(setup, old(calls))[i].now < now - 2.0 * setup.window
             || |Served(setup, old(calls))| - i > setup.size
    {
      AcceptedIff(setup, Served(setup, calls), Call(r, now));
      verdict := Judge(r, now);
      ServedNext(setup, calls, Call(r, now), verdict);
      calls := calls + [Call(r, now)];
    }

    /** The nonce is claimed last, so a request that fails any other check burns none. */
    method Judge(r: Request, now: real) returns (verdict: Verdict)
      requires Fitting() && nonces.last <= now
      modifies nonces
      ensures Fitting() && Judged(setup, old(nonces.history), r, now, verdict)
      ensures Screen(setup, r, now) != Accepted ==> nonces.entries == old(nonces.entries)
      ensures nonces.history == old(nonces.history) + if verdict == Accepted then [Seen(r.nonce, now)] else []
    {
      verdict := Check(r, now);
      if verdict != Accepted { return; }
      var first := nonces.Claim(r.nonce, now);
      return if first then Accepted else Replayed;
    }

    method Check(r: Request, now: real) returns (verdict: Verdict)
      ensures verdict == Screen(setup, r, now)
    {
      if r.key == "" || r.timestamp == "" || r.nonce == "" || r.signature == "" { return MissingHeaders; }
      if r.key != setup.key { return UnknownKey; }
      if !(8 <= |r.nonce| <= 128) { return MalformedNonce; }
      var stamp := setup.read(r.timestamp);
      if stamp == Unreadable { return MalformedTimestamp; }
      if TooFar(stamp, now, setup.window) { return OutsideWindow; }
      if setup.sign(r.line, r.timestamp, r.nonce, r.body) != r.signature { return InvalidSignature; }
      return Accepted;
    }
  }

  lemma {:induction false} ServedFrom(c: Setup, calls: seq<Call>)
    ensures forall call :: call in Served(c, calls) ==> call in calls && Screen(c, call.request, call.now) == Accepted
  {
    if calls != [] { ServedFrom(c, calls[..|calls| - 1]); }
  }

  lemma {:induction false} ServedInTime(c: Setup, calls: seq<Call>)
    requires Clocked(calls)
    ensures Clocked(Served(c, calls)) && InTime(Claims(Served(c, calls)))
  {
    if calls != [] {
      var n := |calls| - 1;
      var before := Served(c, calls[..n]);
      ServedInTime(c, calls[..n]);
      ServedFrom(c, calls[..n]);
      forall i | 0 <= i < |before| ensures before[i].now <= calls[n].now {
        assert before[i] in before;
        var k :| 0 <= k < n && calls[k] == before[i];
      }
    }
  }

  lemma ForgottenNow(c: Setup, before: seq<Call>, call: Call, i: nat)
    requires InTime(Claims(before)) && Accepts(c, before, call) && i < |before|
    requires before[i].request.nonce == call.request.nonce
    ensures before[i].now < call.now - 2.0 * c.window || |before| - i > c.size
  {
    ReclaimIff(Claims(before), 2.0 * c.window, c.size, call.request.nonce, call.now);
    assert Claims(before)[i] == Seen(call.request.nonce, before[i].now);
  }

  /** The nonce of the call at `j` had been forgotten when that call was accepted. */
  lemma {:induction false} AcceptedWhenForgotten(c: Setup, calls: seq<Call>, i: nat, j: nat)
    requires Clocked(calls) && i < j < |Served(c, calls)|
    requires Served(c, calls)[i].request.nonce == Served(c, calls)[j].request.nonce
    ensures Served(c, calls)[i].now < Served(c, calls)[j].now - 2.0 * c.window || j - i > c.size
  {
    var n := |calls| - 1;
    var before := Served(c, calls[..n]);
    if j < |before| {
      AcceptedWhenForgotten(c, calls[..n], i, j);
    } else {
      ServedInTime(c, calls[..n]);
      ForgottenNow(c, before, calls[n], i);
    }
  }

  /** As long as the clock does not go back and fewer claims than the cache holds come between,
      no readable timestamp and nonce are accepted twice: the cache outlives every moment at
      which the same timestamp could be presented again. */
  lemma {:induction false} NoReplay(c: Setup, calls: seq<Call>, i: nat, j: nat)
    requires Clocked(calls) && i < j < |Served(c, calls)|
    requires var a, b := Served(c, calls)[i].request, Served(c, calls)[j].request;
      a.nonce == b.nonce && a.timestamp == b.timestamp && c.read(a.timestamp).Number?
    ensures j - i > c.size
  {
    ServedInTime(c, calls);
    ServedFrom(c, calls);
    AcceptedWhenForgotten(c, calls, i, j);
    var a, b := Served(c, calls)[i], Served(c, calls)[j];
    assert a in Served(c, calls) && b in Served(c, calls);
    BothNear(c, a, b);
  }

  /** Two accepted presentations of one timestamp are at most twice the window apart. */
  lemma BothNear(c: Setup, a: Call, b: Call)
    requires Screen(c, a.request, a.now) == Accepted && Screen(c, b.request, b.now) == Accepted
    requires a.request.timestamp == b.request.timestamp && c.read(a.request.timestamp).Number?
    ensures b.now <= a.now + 2.0 * c.window
  {
  }

  /** The promise is about timestamps that are numbers. One that is not a number is never too far
      away, so the same request is accepted again once its nonce has been forgotten. */
  lemma {:induction false} NotANumberOutlivesTheCache(c: Setup, r: Request, now: real, later: real)
    requires Screen(c, r, now) == Accepted && c.read(r.timestamp) == NotANumber && c.window >= 0.0
    requires later > now + 2.0 * c.window
    ensures Served(c, [Call(r, now), Call(r, later)]) == [Call(r, now), Call(r, later)]
  {
    var one, two := [Call(r, now)], [Call(r, now), Call(r, later)];
    assert one[..0] == [] && two[..1] == one;
    ReclaimIff([], 2.0 * c.window, c.size, r.nonce, now);
    assert Claims([]) == [];
    assert Served(c, one) == one;
    assert Claims(one) == [Seen(r.nonce, now)];
    ReclaimIff(Claims(one), 2.0 * c.window, c.size, r.nonce, later);
    assert Screen(c, r, later) == Accepted;
  }
}
