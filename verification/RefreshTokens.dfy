/** Sessions: each sign-in starts a family of refresh tokens, each refresh trades the family's one
    live token for the next, and a replayed token burns the family. A refusal with a 4xx status
    still commits what it revoked. */
module RefreshTokens {
  import opened Prelude

  type UserId = nat
  type Family = nat
  /** Tokens are looked up by digest; digests of distinct tokens are distinct. */
  type Digest = nat

  datatype Cause = Rotated | ReuseDetected | HasExpired | UserUnavailable | LoggedOut | RevokedByUser | PasswordChanged

  datatype Mark = Mark(at: int, cause: Cause)

  datatype Token = Token(user: UserId, family: Family, expiresAt: int, revoked: Option<Mark>)

  type Tokens = map<Digest, Token>

  /** `issued`, `families` and `exchanges` are history: every digest and family ever used, and
      each token traded together with the token it was traded for. */
  datatype Auth = Auth(tokens: Tokens, active: map<UserId, bool>, issued: set<Digest>, families: set<Family>,
                       exchanges: seq<(Digest, Digest)>)

  datatype Event =
    | SignIn(user: UserId, family: Family, digest: Digest, expiresAt: int)
    | Refresh(digest: Digest, now: int, next: Digest, nextExpiry: int)
    | LogOut(digest: Digest, now: int)
    | RevokeSession(user: UserId, digest: Digest, now: int)
    | ChangePassword(user: UserId, now: int)
    | SetActive(user: UserId, active: bool)
    | Purge(before: int)

  function Revoked(t: Token, mark: Mark): Token {
    if t.revoked.None? then t.(revoked := Some(mark)) else t
  }

  function RevokeOne(ts: Tokens, d: Digest, mark: Mark): Tokens {
    if d in ts then ts[d := Revoked(ts[d], mark)] else ts
  }

  function RevokeFamily(ts: Tokens, f: Family, mark: Mark): Tokens {
    map d | d in ts :: if ts[d].family == f then Revoked(ts[d], mark) else ts[d]
  }

  function RevokeUser(ts: Tokens, u: UserId, mark: Mark): Tokens {
    map d | d in ts :: if ts[d].user == u then Revoked(ts[d], mark) else ts[d]
  }

  predicate Usable(active: map<UserId, bool>, u: UserId) { u in active && active[u] }

  /** The token presented is exchanged for another one. */
  predicate Exchanges(ts: Tokens, active: map<UserId, bool>, d: Digest, now: int) {
    d in ts && ts[d].revoked.None? && now < ts[d].expiresAt && Usable(active, ts[d].user)
  }

  /** What a refused refresh leaves behind. */
  function Refused(ts: Tokens, active: map<UserId, bool>, d: Digest, now: int): Tokens
    requires !Exchanges(ts, active, d, now)
  {
    if d !in ts then ts
    else if ts[d].revoked.Some? then RevokeFamily(ts, ts[d].family, Mark(now, ReuseDetected))
    else if ts[d].expiresAt <= now then RevokeOne(ts, d, Mark(now, HasExpired))
    else RevokeFamily(ts, ts[d].family, Mark(now, UserUnavailable))
  }

  function Exchanged(ts: Tokens, d: Digest, now: int, next: Digest, nextExpiry: int): Tokens
    requires d in ts
  {
    RevokeOne(ts, d, Mark(now, Rotated))[next := Token(ts[d].user, ts[d].family, nextExpiry, None)]
  }

  predicate Listed(ts: Tokens, user: UserId, d: Digest, now: int) {
    d in ts && ts[d].user == user && ts[d].revoked.None? && now < ts[d].expiresAt
  }

  /** Newly generated digests and families are fresh. */
  function Step(a: Auth, e: Event): Auth {
    match e
    case SignIn(user, family, digest, expiresAt) =>
      if !Usable(a.active, user) || digest in a.issued || family in a.families then a
      else a.(tokens := a.tokens[digest := Token(user, family, expiresAt, None)],
              issued := a.issued + {digest}, families := a.families + {family})
    case Refresh(digest, now, next, nextExpiry) =>
      if next in a.issued then a
      else if Exchanges(a.tokens, a.active, digest, now) then
        a.(tokens := Exchanged(a.tokens, digest, now, next, nextExpiry),
           issued := a.issued + {next}, exchanges := a.exchanges + [(digest, next)])
      else a.(tokens := Refused(a.tokens, a.active, digest, now))
    case LogOut(digest, now) =>
      if digest in a.tokens then a.(tokens := RevokeFamily(a.tokens, a.tokens[digest].family, Mark(now, LoggedOut)))
      else a
    case RevokeSession(user, digest, now) =>
      if Listed(a.tokens, user, digest, now) then
        a.(tokens := RevokeFamily(a.tokens, a.tokens[digest].family, Mark(now, RevokedByUser)))
      else a
    case ChangePassword(user, now) => a.(tokens := RevokeUser(a.tokens, user, Mark(now, PasswordChanged)))
    case SetActive(user, active) => a.(active := a.active[user := active])
    case Purge(before) => a.(tokens := map d | d in a.tokens && !(a.tokens[d].expiresAt < before) :: a.tokens[d])
  }

  const NO_SESSIONS := Auth(map[], map[], {}, {}, [])

  function Play(events: seq<Event>): Auth {
    if events == [] then NO_SESSIONS else Step(Play(events[..|events| - 1]), events[|events| - 1])
  }

  // ---- the service as it runs ----------------------------------------------------------

  class Service {
    var tokens: Tokens
    var active: map<UserId, bool>

    /** The token that replaces the one presented, or nothing when the refresh is refused. */
    method Refresh(d: Digest, now: int, next: Digest, nextExpiry: int) returns (issued: Option<Digest>)
      requires next !in tokens
      modifies this`tokens
      ensures if Exchanges(old(tokens), active, d, now)
              then issued == Some(next) && tokens == Exchanged(old(tokens), d, now, next, nextExpiry)
              else issued == None && tokens == Refused(old(tokens), active, d, now)
      ensures issued.Some? <==>
        && d in old(tokens) && old(tokens)[d].revoked.None? && now < old(tokens)[d].expiresAt
        && old(tokens)[d].user in active && active[old(tokens)[d].user]
      ensures issued.Some? ==>
        && issued.value == next && tokens.Keys == old(tokens).Keys + {next}
        && tokens[next] == Token(old(tokens)[d].user, old(tokens)[d].family, nextExpiry, None)
        && tokens[d] == old(tokens)[d].(revoked := Some(Mark(now, Rotated)))
        && forall t :: t in old(tokens) && t != d ==> tokens[t] == old(tokens)[t]
    {
      if d !in tokens { return None; }
      var stored := tokens[d];
      if stored.revoked.Some? {
        tokens := RevokeFamily(tokens, stored.family, Mark(now, ReuseDetected));
        return None;
      }
      if stored.expiresAt <= now {
        tokens := RevokeOne(tokens, d, Mark(now, HasExpired));
        return None;
      }
      if !(stored.user in active && active[stored.user]) {
        tokens := RevokeFamily(tokens, stored.family, Mark(now, UserUnavailable));
        return None;
      }
      tokens := RevokeOne(tokens, d, Mark(now, Rotated));
      tokens := tokens[next := Token(stored.user, stored.family, nextExpiry, None)];
      return Some(next);
    }

    method LogOut(d: Option<Digest>, now: int)
      modifies this`tokens
      ensures tokens == if d.Some? && d.value in old(tokens)
                        then RevokeFamily(old(tokens), old(tokens)[d.value].family, Mark(now, LoggedOut))
                        else old(tokens)
      ensures tokens.Keys == old(tokens).Keys && forall t :: t in tokens ==>
        tokens[t] ==
          if d.Some? && d.value in old(tokens) && old(tokens)[t].family == old(tokens)[d.value].family
             && old(tokens)[t].revoked.None?
          then old(tokens)[t].(revoked := Some(Mark(now, LoggedOut))) else old(tokens)[t]
    {
      if d.None? || d.value !in tokens { return; }
      tokens := RevokeFamily(tokens, tokens[d.value].family, Mark(now, LoggedOut));
    }

    method ChangePassword(user: UserId, currentIsRight: bool, differs: bool, longEnough: bool, now: int)
      returns (changed: bool)
      modifies this`tokens
      ensures changed <==> currentIsRight && differs && longEnough
      ensures tokens == if changed then RevokeUser(old(tokens), user, Mark(now, PasswordChanged)) else old(tokens)
      ensures tokens.Keys == old(tokens).Keys && forall t :: t in tokens ==>
        tokens[t] ==
          if changed && old(tokens)[t].user == user && old(tokens)[t].revoked.None?
          then old(tokens)[t].(revoked := Some(Mark(now, PasswordChanged))) else old(tokens)[t]
    {
      if !currentIsRight || !differs || !longEnough { return false; }
      tokens := RevokeUser(tokens, user, Mark(now, PasswordChanged));
      return true;
    }
  }

  // ---- what every history of requests keeps --------------------------------------------

  ghost predicate OneLive(ts: Tokens) {
    forall d, e ::
      d in ts && e in ts && ts[d].family == ts[e].family && ts[d].revoked.None? && ts[e].revoked.None? ==> d == e
  }

  ghost predicate Known(a: Auth) {
    && (forall d :: d in a.tokens ==> d in a.issued && a.tokens[d].family in a.families)
    && (forall i :: 0 <= i < |a.exchanges| ==> a.exchanges[i].0 in a.issued && a.exchanges[i].1 in a.issued)
  }

  /** A traded token is spent for good. */
  ghost predicate Spent(ts: Tokens, exchanges: seq<(Digest, Digest)>) {
    && (forall i :: 0 <= i < |exchanges| && exchanges[i].0 in ts ==> ts[exchanges[i].0].revoked.Some?)
    && (forall i, j :: 0 <= i < j < |exchanges| ==>
        exchanges[i].0 != exchanges[j].0 && exchanges[i].1 != exchanges[j].1)
    && (forall i :: 0 <= i < |exchanges| && exchanges[i].0 in ts && exchanges[i].1 in ts ==>
          ts[exchanges[i].0].family == ts[exchanges[i].1].family)
  }

  ghost predicate Inv(a: Auth) { OneLive(a.tokens) && Known(a) && Spent(a.tokens, a.exchanges) }

  /** Tokens may only be marked or purged. */
  ghost predicate OnlyMarked(before: Tokens, after: Tokens) {
    forall d :: d in after ==>
      d in before
      && (after[d] == before[d] || (before[d].revoked.None? && after[d] == before[d].(revoked := after[d].revoked)))
  }

  lemma MarkingKeeps(a: Auth, ts: Tokens)
    requires Inv(a) && OnlyMarked(a.tokens, ts)
    ensures Inv(a.(tokens := ts))
  {
  }

  lemma ExchangeKeeps(a: Auth, d: Digest, now: int, next: Digest, nextExpiry: int)
    requires Inv(a) && Exchanges(a.tokens, a.active, d, now) && next !in a.issued
    ensures Inv(Step(a, Refresh(d, now, next, nextExpiry)))
  {
    var b := Step(a, Refresh(d, now, next, nextExpiry));
    assert forall i :: 0 <= i < |a.exchanges| ==> b.exchanges[i] == a.exchanges[i] && a.exchanges[i].0 != d;
  }

  lemma StepKeeps(a: Auth, e: Event)
    requires Inv(a)
    ensures Inv(Step(a, e))
  {
    match e
    case Refresh(d, now, next, nextExpiry) =>
      if next !in a.issued {
        if Exchanges(a.tokens, a.active, d, now) {
          ExchangeKeeps(a, d, now, next, nextExpiry);
        } else {
          MarkingKeeps(a, Refused(a.tokens, a.active, d, now));
        }
      }
    case SignIn(user, family, digest, expiresAt) =>
    case SetActive(user, active) =>
    case _ => MarkingKeeps(a, Step(a, e).tokens);
  }

  lemma {:induction false} Reachable(events: seq<Event>)
    ensures Inv(Play(events))
  {
    if events != [] {
      Reachable(events[..|events| - 1]);
      StepKeeps(Play(events[..|events| - 1]), events[|events| - 1]);
    }
  }

  // ---- what a user may rely on ---------------------------------------------------------

  /** A family never has two live tokens. */
  lemma {:induction false} OneLiveTokenPerFamily(events: seq<Event>, d: Digest, e: Digest)
    requires var a := Play(events);
      d in a.tokens && e in a.tokens && a.tokens[d].family == a.tokens[e].family
      && a.tokens[d].revoked.None? && a.tokens[e].revoked.None?
    ensures d == e
  {
    Reachable(events);
  }

  /** Exchanges form one chain: no token is traded twice, none is obtained twice, and a traded
      token is never live again. */
  lemma {:induction false} ExchangesFormAChain(events: seq<Event>, i: nat, j: nat)
    requires i < j < |Play(events).exchanges|
    ensures var a := Play(events);
      && a.exchanges[i].0 != a.exchanges[j].0 && a.exchanges[i].1 != a.exchanges[j].1
      && (a.exchanges[i].0 in a.tokens ==> a.tokens[a.exchanges[i].0].revoked.Some?)
  {
    Reachable(events);
  }

  /** An exchange never leaves the family. */
  lemma {:induction false} ExchangesStayInTheFamily(events: seq<Event>, i: nat)
    requires i < |Play(events).exchanges|
    ensures var a := Play(events);
      a.exchanges[i].0 in a.tokens && a.exchanges[i].1 in a.tokens ==>
        a.tokens[a.exchanges[i].0].family == a.tokens[a.exchanges[i].1].family
  {
    Reachable(events);
  }

  /** Once set, a revocation mark is never changed. */
  lemma {:induction false} MarksAreFinal(events: seq<Event>, e: Event, d: Digest)
    requires d in Play(events).tokens && Play(events).tokens[d].revoked.Some?
    ensures var after := Step(Play(events), e).tokens; d in after ==> after[d].revoked == Play(events).tokens[d].revoked
  {
    Reachable(events);
  }

  ghost predicate Dead(a: Auth, f: Family) {
    f in a.families && forall d :: d in a.tokens && a.tokens[d].family == f ==> a.tokens[d].revoked.Some?
  }

  ghost function TokensOf(ts: Tokens, f: Family): set<Digest> { set d | d in ts && ts[d].family == f }

  lemma DeadStays(a: Auth, e: Event, f: Family)
    requires Inv(a) && Dead(a, f)
    ensures Dead(Step(a, e), f) && TokensOf(Step(a, e).tokens, f) <= TokensOf(a.tokens, f)
  {
  }

  /** A replayed, logged-out, expired or otherwise ended session is never issued a token again:
      once a family has no live token, nobody can revive it. */
  lemma {:induction false} DeadFamiliesStayDead(before: seq<Event>, after: seq<Event>, f: Family)
    requires Dead(Play(before), f)
    ensures Dead(Play(before + after), f)
      && TokensOf(Play(before + after).tokens, f) <= TokensOf(Play(before).tokens, f)
  {
    if after == [] {
      assert before + after == before;
    } else {
      var n := |after| - 1;
      DeadFamiliesStayDead(before, after[..n], f);
      Reachable(before + after[..n]);
      DeadStays(Play(before + after[..n]), after[n], f);
      assert (before + after)[..|before + after| - 1] == before + after[..n];
    }
  }

  /** Presenting a token that is no longer live kills its family; so do logging out, ending the
      session and changing the password. */
  lemma {:induction false} WhatKillsAFamily(events: seq<Event>, d: Digest, now: int, next: Digest, expiry: int)
    requires d in Play(events).tokens && next !in Play(events).issued
    ensures var a := Play(events); var f := a.tokens[d].family;
      && (!Exchanges(a.tokens, a.active, d, now) ==> Dead(Step(a, Refresh(d, now, next, expiry)), f))
      && Dead(Step(a, LogOut(d, now)), f)
      && (Listed(a.tokens, a.tokens[d].user, d, now) ==> Dead(Step(a, RevokeSession(a.tokens[d].user, d, now)), f))
  {
    Reachable(events);
  }

  lemma {:induction false} PasswordChangeKillsSessions(events: seq<Event>, user: UserId, now: int, d: Digest)
    requires d in Play(events).tokens && Play(events).tokens[d].user == user
    ensures var after := Step(Play(events), ChangePassword(user, now)).tokens; d in after && after[d].revoked.Some?
  {
  }

  // ---- where tokens and their marks come from ------------------------------------------

  /** A token is stored by a sign-in of its own active user to a family never used, or by the exchange
      of a live token of the same user and family; either way it is live, and expires as said. */
  lemma StoredBy(a: Auth, e: Event, d: Digest)
    requires d !in a.tokens
    ensures d in Step(a, e).tokens <==>
      match e
      case SignIn(user, family, digest, _) =>
        digest == d && d !in a.issued && family !in a.families && user in a.active && a.active[user]
      case Refresh(p, now, next, _) =>
        next == d && d !in a.issued && p in a.tokens && a.tokens[p].revoked.None? && now < a.tokens[p].expiresAt
        && a.tokens[p].user in a.active && a.active[a.tokens[p].user]
      case _ => false
    ensures d in Step(a, e).tokens && e.SignIn? ==>
      Step(a, e).tokens[d] == Token(e.user, e.family, e.expiresAt, None)
    ensures d in Step(a, e).tokens && e.Refresh? ==>
      Step(a, e).tokens[d] == Token(a.tokens[e.digest].user, a.tokens[e.digest].family, e.nextExpiry, None)
  {
  }

  /** A token never changes its user, family or expiry, and goes only when it is purged, having
      expired. */
  lemma KeptUnless(a: Auth, e: Event, d: Digest)
    requires Inv(a) && d in a.tokens
    ensures d !in Step(a, e).tokens <==> e.Purge? && a.tokens[d].expiresAt < e.before
    ensures d in Step(a, e).tokens ==> Step(a, e).tokens[d] == a.tokens[d].(revoked := Step(a, e).tokens[d].revoked)
  {
  }

  /** Exactly what puts which mark on a live token. */
  lemma MarkedIff(a: Auth, e: Event, d: Digest, m: Mark)
    requires Inv(a) && d in a.tokens && a.tokens[d].revoked.None?
    ensures d in Step(a, e).tokens && Step(a, e).tokens[d].revoked == Some(m) <==>
      var t := a.tokens[d];
      match e
      case Refresh(p, now, next, _) =>
        && next !in a.issued && p in a.tokens && m.at == now && a.tokens[p].family == t.family
        && if a.tokens[p].revoked.Some? then m.cause == ReuseDetected
           else if a.tokens[p].expiresAt <= now then p == d && m.cause == HasExpired
           else if t.user in a.active && a.active[t.user] then p == d && m.cause == Rotated
           else m.cause == UserUnavailable
      case LogOut(p, now) => p in a.tokens && a.tokens[p].family == t.family && m == Mark(now, LoggedOut)
      case RevokeSession(user, p, now) =>
        && p in a.tokens && a.tokens[p].user == user && a.tokens[p].revoked.None? && now < a.tokens[p].expiresAt
        && a.tokens[p].family == t.family && m == Mark(now, RevokedByUser)
      case ChangePassword(user, now) => t.user == user && m == Mark(now, PasswordChanged)
      case _ => false
  {
  }

  /** This event signs the user in to the family. */
  predicate SignsIn(e: Event, user: UserId, family: Family) { e.SignIn? && e.user == user && e.family == family }

  /** Whatever was exchanged since, a session is its own user's: someone signed in as that user to
      that family. */
  lemma {:induction false} SessionsAreTheUsersOwn(events: seq<Event>, d: Digest)
    requires d in Play(events).tokens
    ensures var t := Play(events).tokens[d]; exists i :: 0 <= i < |events| && SignsIn(events[i], t.user, t.family)
  {
    var n := |events| - 1;
    var a, e := Play(events[..n]), events[n];
    Reachable(events[..n]);
    var t := Play(events).tokens[d];
    if d in a.tokens {
      KeptUnless(a, e, d);
      SessionsAreTheUsersOwn(events[..n], d);
    } else {
      StoredBy(a, e, d);
      assert e.SignIn? ==> SignsIn(events[n], t.user, t.family);
      if e.Refresh? { SessionsAreTheUsersOwn(events[..n], e.digest); }
    }
    if i :| 0 <= i < n && SignsIn(events[..n][i], t.user, t.family) {
      assert SignsIn(events[i], t.user, t.family);
    }
  }

  /** And no two users ever share a family. */
  lemma {:induction false} FamiliesHaveOneUser(events: seq<Event>, d: Digest, e: Digest)
    requires var ts := Play(events).tokens; d in ts && e in ts && ts[d].family == ts[e].family
    ensures Play(events).tokens[d].user == Play(events).tokens[e].user
  {
    var n := |events| - 1;
    var a, last := Play(events[..n]), events[n];
    Reachable(events[..n]);
    if d in a.tokens { KeptUnless(a, last, d); } else { StoredBy(a, last, d); }
    if e in a.tokens { KeptUnless(a, last, e); } else { StoredBy(a, last, e); }
    if d != e {
      var x := if d in a.tokens then d else if last.Refresh? then last.digest else e;
      var y := if e in a.tokens then e else if last.Refresh? then last.digest else d;
      if x in a.tokens && y in a.tokens { FamiliesHaveOneUser(events[..n], x, y); }
    }
  }
}
