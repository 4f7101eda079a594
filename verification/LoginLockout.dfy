/** The brake on guessing one account's password: a lock that doubles with every further failure. */
module LoginLockout {
  import opened Prelude

  /** The lockout settings, all positive. */
  datatype Policy = Policy(attempts: nat, base: nat, maximum: nat)

  datatype Account = Account(failed: nat, lockedUntil: Option<real>)

  /** One try. Right credentials for a disabled account neither count nor reset. */
  datatype Try = Try(now: real, throttled: bool, right: bool, active: bool)

  datatype Outcome = Throttled | Locked | WrongPassword | Disabled | SignedIn

  function Power(n: nat): nat { if n == 0 then 1 else 2 * Power(n - 1) }

  function Min(a: int, b: int): int { if a <= b then a else b }

  /** base, then twice that, then twice that again, up to the maximum. */
  function Lockout(count: int, p: Policy): int {
    if count <= 0 then 0 else Min(p.base * Power(Min(count - 1, 16)), p.maximum)
  }

  function Judge(a: Account, t: Try): Outcome {
    if t.throttled then Throttled
    else if a.lockedUntil.Some? && a.lockedUntil.value > t.now then Locked
    else if !t.right then WrongPassword
    else if !t.active then Disabled
    else SignedIn
  }

  function Punished(a: Account, p: Policy, now: real): Account {
    var failed := a.failed + 1;
    Account(failed, if failed >= p.attempts then Some(now + Lockout(failed - p.attempts + 1, p) as real) else None)
  }

  function After(a: Account, p: Policy, t: Try): Account {
    match Judge(a, t)
    case WrongPassword => Punished(a, p, t.now)
    case SignedIn => Account(0, None)
    case _ => a
  }

  /** The user row as a sign-in changes it. */
  class User {
    var failed: nat
    var lockedUntil: Option<real>

    function State(): Account
      reads this
    {
      Account(failed, lockedUntil)
    }

    method SignIn(p: Policy, t: Try) returns (outcome: Outcome)
      modifies this
      ensures outcome == Judge(old(State()), t) && State() == After(old(State()), p, t)
      ensures outcome == Throttled <==> t.throttled
      ensures outcome == Locked <==> !t.throttled && old(lockedUntil).Some? && t.now < old(lockedUntil).value
      ensures !t.throttled && (old(lockedUntil).Some? ==> old(lockedUntil).value <= t.now) ==>
        outcome == if t.right && t.active then SignedIn else if t.right then Disabled else WrongPassword
      ensures outcome == SignedIn ==> failed == 0 && lockedUntil == None
      ensures outcome == WrongPassword ==>
        && failed == old(failed) + 1
        && (lockedUntil.Some? <==> failed >= p.attempts)
        && (lockedUntil.Some? ==> lockedUntil.value == t.now + Lockout(failed + 1 - p.attempts, p) as real)
      ensures outcome in {Throttled, Locked, Disabled} ==> failed == old(failed) && lockedUntil == old(lockedUntil)
    {
      if t.throttled { return Throttled; }
      if lockedUntil.Some? && lockedUntil.value > t.now { return Locked; }
      if !t.right {
        RegisterFailure(p, t.now);
        return WrongPassword;
      }
      if !t.active { return Disabled; }
      failed, lockedUntil := 0, None;
      return SignedIn;
    }

    method RegisterFailure(p: Policy, now: real)
      modifies this
      ensures State() == Punished(old(State()), p, now)
    {
      var count := failed + 1;
      var until := None;
      if count >= p.attempts {
        var over := count - p.attempts + 1;
        until := Some(now + Lockout(over, p) as real);
      }
      failed, lockedUntil := count, until;
    }
  }

  // ---- a run of tries ------------------------------------------------------------------

  function Play(a: Account, p: Policy, tries: seq<Try>): Account {
    if tries == [] then a else After(Play(a, p, tries[..|tries| - 1]), p, tries[|tries| - 1])
  }

  /** The times of the failures that counted. */
  function Failures(a: Account, p: Policy, tries: seq<Try>): seq<real> {
    if tries == [] then []
    else
      var before, t := tries[..|tries| - 1], tries[|tries| - 1];
      Failures(a, p, before) + if Judge(Play(a, p, before), t) == WrongPassword then [t.now] else []
  }

  ghost predicate Clocked(tries: seq<Try>) { forall i, j :: 0 <= i < j < |tries| ==> tries[i].now <= tries[j].now }

  /** Nobody gets in. */
  ghost predicate NoneSignedIn(a: Account, p: Policy, tries: seq<Try>) {
    forall k :: 0 <= k < |tries| ==> Judge(Play(a, p, tries[..k]), tries[k]) != SignedIn
  }

  const UNTOUCHED := Account(0, None)

  /** The account remembers how many failures there were, and until when the last one locks it. */
  ghost predicate Tracks(a: Account, p: Policy, f: seq<real>) {
    && a.failed == |f|
    && a.lockedUntil ==
         if |f| >= p.attempts && f != [] then Some(f[|f| - 1] + Lockout(|f| - p.attempts + 1, p) as real) else None
  }

  lemma TrackingStays(a: Account, p: Policy, f: seq<real>, t: Try)
    requires Tracks(a, p, f) && Judge(a, t) != SignedIn
    ensures Tracks(After(a, p, t), p, f + if Judge(a, t) == WrongPassword then [t.now] else [])
  {
  }

  lemma {:induction false} NoneSignedInBefore(a: Account, p: Policy, tries: seq<Try>)
    requires NoneSignedIn(a, p, tries) && tries != []
    ensures NoneSignedIn(a, p, tries[..|tries| - 1])
    ensures Judge(Play(a, p, tries[..|tries| - 1]), tries[|tries| - 1]) != SignedIn
  {
    forall k | 0 <= k < |tries| - 1 ensures tries[..|tries| - 1][..k] == tries[..k] {}
  }

  lemma {:induction false} AccountTracksFailures(p: Policy, tries: seq<Try>)
    requires NoneSignedIn(UNTOUCHED, p, tries)
    ensures Tracks(Play(UNTOUCHED, p, tries), p, Failures(UNTOUCHED, p, tries))
  {
    if tries != [] {
      var before := tries[..|tries| - 1];
      NoneSignedInBefore(UNTOUCHED, p, tries);
      AccountTracksFailures(p, before);
      TrackingStays(Play(UNTOUCHED, p, before), p, Failures(UNTOUCHED, p, before), tries[|tries| - 1]);
    }
  }

  /** A sign-in that succeeds leaves nothing of what came before: the count starts again. */
  lemma {:induction false} SuccessForgets(a: Account, p: Policy, before: seq<Try>, t: Try, after: seq<Try>)
    requires Judge(Play(a, p, before), t) == SignedIn
    ensures Play(a, p, before + [t] + after) == Play(UNTOUCHED, p, after)
    decreases |after|
  {
    if after == [] {
      assert before + [t] + after == before + [t] && (before + [t])[..|before|] == before;
    } else {
      var front := after[..|after| - 1];
      SuccessForgets(a, p, before, t, front);
      assert (before + [t] + after)[..|before + [t] + after| - 1] == before + [t] + front;
    }
  }

  /** Before the limit nothing locks; from it on every failure does, for the time due to it. */
  lemma {:induction false} LockedFromTheLimit(p: Policy, tries: seq<Try>)
    requires NoneSignedIn(UNTOUCHED, p, tries) && p.attempts >= 1
    ensures var a, f := Play(UNTOUCHED, p, tries), Failures(UNTOUCHED, p, tries);
      && a.failed == |f| && (a.lockedUntil.Some? <==> |f| >= p.attempts)
      && (|f| >= p.attempts ==> a.lockedUntil.value == f[|f| - 1] + Lockout(|f| - p.attempts + 1, p) as real)
  {
    AccountTracksFailures(p, tries);
  }

  /** Consecutive failures past the limit are at least a lockout apart. */
  lemma {:induction false} FailuresAreApart(p: Policy, tries: seq<Try>, i: nat)
    requires NoneSignedIn(UNTOUCHED, p, tries) && p.attempts >= 1
      && p.attempts - 1 <= i < |Failures(UNTOUCHED, p, tries)| - 1
    ensures var f := Failures(UNTOUCHED, p, tries); f[i + 1] >= f[i] + Lockout(i - p.attempts + 2, p) as real
  {
    var n := |tries| - 1;
    NoneSignedInBefore(UNTOUCHED, p, tries);
    var before := Failures(UNTOUCHED, p, tries[..n]);
    if i + 1 < |before| {
      FailuresAreApart(p, tries[..n], i);
    } else {
      AccountTracksFailures(p, tries[..n]);
    }
  }

  /** The sum of the first `k` lockouts. */
  function TotalLock(k: nat, p: Policy): int {
    if k == 0 then 0 else TotalLock(k - 1, p) + Lockout(k, p)
  }

  /** Without a successful sign-in, failure number `attempts + k` comes no earlier than the sum of
      the first k lockouts after failure number `attempts`. */
  lemma {:induction false} GuessingIsSlow(p: Policy, tries: seq<Try>, k: nat)
    requires NoneSignedIn(UNTOUCHED, p, tries) && p.attempts >= 1
    requires p.attempts - 1 + k < |Failures(UNTOUCHED, p, tries)|
    ensures var f := Failures(UNTOUCHED, p, tries);
      f[p.attempts - 1 + k] - f[p.attempts - 1] >= TotalLock(k, p) as real
  {
    if k > 0 {
      GuessingIsSlow(p, tries, k - 1);
      FailuresAreApart(p, tries, p.attempts - 2 + k);
    }
  }

  /** While no lockout reaches the maximum, that is base times 2^k - 1. */
  lemma {:induction false} TotalDoubles(k: nat, p: Policy)
    requires k <= 17 && (k > 0 ==> p.base * Power(k - 1) <= p.maximum)
    ensures TotalLock(k, p) == p.base * (Power(k) - 1)
  {
    if k > 0 {
      if k > 1 {
        PowerGrows(k - 2, k - 1);
        MultiplyKeepsOrder(p.base, Power(k - 2), Power(k - 1));
      }
      TotalDoubles(k - 1, p);
      OneMoreDoubling(p.base, Power(k - 1));
    }
  }

  lemma OneMoreDoubling(base: int, power: int)
    ensures base * (power - 1) + base * power == base * (2 * power - 1)
  {
  }

  lemma {:induction false} PowerGrows(m: nat, n: nat)
    requires m <= n
    ensures 1 <= Power(m) <= Power(n)
  {
    if m < n { PowerGrows(m, n - 1); } else if m > 0 { PowerGrows(m - 1, n - 1); }
  }

  /** Lockouts never get shorter, and never exceed the maximum. */
  lemma LockoutsGrow(m: int, n: int, p: Policy)
    requires m <= n
    ensures Lockout(m, p) <= Lockout(n, p) <= p.maximum
  {
    if 0 < m {
      PowerGrows(Min(m - 1, 16), Min(n - 1, 16));
      MultiplyKeepsOrder(p.base, Power(Min(m - 1, 16)), Power(Min(n - 1, 16)));
    }
  }

  lemma MultiplyKeepsOrder(c: nat, a: nat, b: nat)
    requires a <= b
    ensures c * a <= c * b
  {
    assert c * b - c * a == c * (b - a);
  }

  /** The bound cannot be improved: whoever tries again the moment each lock ends fails every time
      at exactly these distances. */
  lemma LockEndsOnTime(a: Account, p: Policy, now: real)
    requires p.attempts >= 1 && a.failed + 1 >= p.attempts
    ensures var next := now + Lockout(a.failed + 2 - p.attempts, p) as real;
      && Judge(Punished(a, p, now), Try(next, false, false, true)) == WrongPassword
      && forall soon: real :: soon < next ==> Judge(Punished(a, p, now), Try(soon, false, true, true)) == Locked
  {
  }
}
