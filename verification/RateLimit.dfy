/** The limiter on failed sign-ins: an ordered dictionary from keys to the times of their hits. A key
    moves to the end when a hit is recorded, and the first ones go once there are too many. */
module RateLimit {
  import opened Listings

  /** A client address together with the user name it typed. */
  type Key = nat

  datatype Limits = Limits(attempts: nat, window: real, maxKeys: nat)

  datatype Book = Book(order: seq<Key>, hits: map<Key, seq<real>>)

  datatype Decision = Decision(allowed: bool, remaining: int, retryAfter: int)

  function HitsOf(b: Book, key: Key): seq<real> { if key in b.hits then b.hits[key] else [] }

  function Pruned(hits: seq<real>, cutoff: real): seq<real> {
    if hits == [] || hits[0] >= cutoff then hits else Pruned(hits[1..], cutoff)
  }

  /** A key is looked up: it is entered if it is new, and its old hits go. */
  function Opened(b: Book, key: Key, cutoff: real): Book {
    Book(if key in b.hits then b.order else b.order + [key], b.hits[key := Pruned(HitsOf(b, key), cutoff)])
  }

  function Trimmed(b: Book, most: nat): Book
    decreases |b.order|
  {
    if |b.order| <= most then b else Trimmed(Book(b.order[1..], b.hits - {b.order[0]}), most)
  }

  /** A hit is added, and its key moved to the end. */
  function Marked(b: Book, key: Key, now: real, window: real): Book {
    var o := Opened(b, key, now - window);
    Book(Without(o.order, key) + [key], o.hits[key := o.hits[key] + [now]])
  }

  function Recorded(b: Book, key: Key, now: real, l: Limits): Book {
    Trimmed(Marked(b, key, now, l.window), l.maxKeys)
  }

  function Dropped(b: Book, key: Key): Book { Book(Without(b.order, key), b.hits - {key}) }

  /** The wait is cut to whole seconds; live hits never make it negative. */
  function Decided(hits: seq<real>, now: real, l: Limits): Decision
    requires l.attempts >= 1
  {
    if |hits| < l.attempts then Decision(true, l.attempts - |hits|, 0)
    else
      var seconds := (hits[0] + l.window - now).Floor;
      Decision(false, 0, if seconds < 1 then 1 else seconds)
  }

  ghost predicate Distinct(s: seq<Key>) { forall i, j :: 0 <= i < j < |s| ==> s[i] != s[j] }

  /** Each key has one place in the order. */
  ghost predicate Sound(b: Book) {
    && Distinct(b.order)
    && (forall key :: key in b.order <==> key in b.hits)
  }

  class SlidingWindowLimiter {
    const limits: Limits
    var order: seq<Key>
    var hits: map<Key, seq<real>>

    ghost predicate Valid()
      reads this
    {
      Sound(State()) && limits.attempts >= 1
    }

    function State(): Book
      reads this
    {
      Book(order, hits)
    }

    constructor (limits: Limits)
      requires limits.attempts >= 1
      ensures Valid() && this.limits == limits && State() == Book([], map[])
    {
      this.limits, order, hits := limits, [], map[];
    }

    method Prune(key: Key, now: real)
      requires Valid()
      modifies this
      ensures Valid() && State() == Opened(old(State()), key, now - limits.window)
      ensures hits.Keys == old(hits).Keys + {key} && forall k :: k in old(hits) && k != key ==> hits[k] == old(hits)[k]
      ensures order == if key in old(hits) then old(order) else old(order) + [key]
    {
      OpenedIsSound(State(), key, now - limits.window);
      if key !in hits { order, hits := order + [key], hits[key := []]; }
      ghost var rest, all := hits, hits[key];
      while hits[key] != [] && hits[key][0] < now - limits.window
        invariant key in hits && hits == rest[key := hits[key]]
        invariant Pruned(hits[key], now - limits.window) == Pruned(all, now - limits.window)
        invariant order == Opened(old(State()), key, now - limits.window).order
        decreases |hits[key]|
      {
        hits := hits[key := hits[key][1..]];
      }
    }

    /** Whether the key may proceed; consumes nothing, though a new key is entered. */
    method Check(key: Key, now: real) returns (d: Decision)
      requires Valid()
      modifies this
      ensures Valid() && State() == Opened(old(State()), key, now - limits.window)
      ensures d == Decided(Pruned(HitsOf(old(State()), key), now - limits.window), now, limits)
      ensures key in hits && (d.allowed <==> |hits[key]| < limits.attempts)
      ensures d.allowed ==> d.remaining == limits.attempts - |hits[key]| && d.retryAfter == 0
      ensures !d.allowed ==>
        && d.remaining == 0 && d.retryAfter >= 1
        && (d.retryAfter == 1 || d.retryAfter as real <= hits[key][0] + limits.window - now)
        && hits[key][0] + limits.window - now < d.retryAfter as real + 1.0
    {
      Prune(key, now);
      var window := hits[key];
      if |window| < limits.attempts { return Decision(true, limits.attempts - |window|, 0); }
      var seconds := (window[0] + limits.window - now).Floor;
      return Decision(false, 0, if seconds < 1 then 1 else seconds);
    }

    /** Consumes one attempt; only failures are recorded. */
    method Record(key: Key, now: real)
      requires Valid()
      modifies this
      ensures Valid() && State() == Recorded(old(State()), key, now, limits)
    {
      RecordedIsSound(State(), key, now, limits);
      Prune(key, now);
      hits := hits[key := hits[key] + [now]];
      order := Without(order, key) + [key];
      while |order| > limits.maxKeys
        invariant Trimmed(State(), limits.maxKeys) == Recorded(old(State()), key, now, limits)
        decreases |order|
      {
        hits := hits - {order[0]};
        order := order[1..];
      }
    }

    method Reset(key: Key)
      requires Valid()
      modifies this
      ensures Valid() && State() == Dropped(old(State()), key)
    {
      DroppedIsSound(State(), key);
      order, hits := Without(order, key), hits - {key};
    }
  }

  // ---- soundness -----------------------------------------------------------------------

  lemma {:induction false} WithoutIsDistinct(s: seq<Key>, x: Key)
    requires Distinct(s)
    ensures Distinct(Without(s, x))
  {
    if s != [] {
      FirstIsApart(s);
      WithoutIsDistinct(s[1..], x);
    }
  }

  lemma FirstIsApart(s: seq<Key>)
    requires Distinct(s) && s != []
    ensures s[0] !in s[1..] && Distinct(s[1..])
  {
    forall k | 0 <= k < |s[1..]| ensures s[1..][k] != s[0] { assert s[1..][k] == s[k + 1]; }
  }

  lemma OpenedIsSound(b: Book, key: Key, cutoff: real)
    requires Sound(b)
    ensures Sound(Opened(b, key, cutoff))
  {
  }

  lemma DroppedIsSound(b: Book, key: Key)
    requires Sound(b)
    ensures Sound(Dropped(b, key))
  {
    WithoutIsDistinct(b.order, key);
  }

  /** Trimming keeps the last keys and what is known about them. */
  lemma {:induction false} TrimmedIs(b: Book, most: nat)
    requires Sound(b)
    ensures var t := Trimmed(b, most);
      && Sound(t) && t.order == (if |b.order| <= most then b.order else b.order[|b.order| - most..])
      && forall key :: key in t.hits ==> key in b.hits && t.hits[key] == b.hits[key]
    decreases |b.order|
  {
    if |b.order| > most {
      var next := Book(b.order[1..], b.hits - {b.order[0]});
      TrimmedIs(next, most);
      if |next.order| > most { assert b.order[1..][|b.order| - 1 - most..] == b.order[|b.order| - most..]; }
    }
  }

  lemma MarkedIsSound(b: Book, key: Key, now: real, window: real)
    requires Sound(b)
    ensures Sound(Marked(b, key, now, window))
  {
    var order := Opened(b, key, now - window).order;
    OpenedIsSound(b, key, now - window);
    WithoutIsDistinct(order, key);
    DistinctAppend(Without(order, key), key);
  }

  lemma DistinctAppend(s: seq<Key>, key: Key)
    requires Distinct(s) && key !in s
    ensures Distinct(s + [key])
  {
    forall i | 0 <= i < |s| ensures (s + [key])[i] != key { assert s[i] in s; }
  }

  lemma RecordedIsSound(b: Book, key: Key, now: real, l: Limits)
    requires Sound(b)
    ensures Sound(Recorded(b, key, now, l)) && |Recorded(b, key, now, l).order| <= l.maxKeys
  {
    MarkedIsSound(b, key, now, l.window);
    TrimmedIs(Marked(b, key, now, l.window), l.maxKeys);
  }

  // ---- which keys are dropped ----------------------------------------------------------

  function Keys(s: seq<Key>): set<Key> { set key | key in s }

  /** The keys after `x`. */
  function Behind(s: seq<Key>, x: Key): set<Key> {
    if s == [] then {} else if s[0] == x then Keys(s[1..]) else Behind(s[1..], x)
  }

  lemma {:induction false} CountsDistinct(s: seq<Key>)
    requires Distinct(s)
    ensures |Keys(s)| == |s|
  {
    if s != [] {
      FirstIsApart(s);
      CountsDistinct(s[1..]);
      assert Keys(s) == {s[0]} + Keys(s[1..]);
    }
  }

  lemma {:induction false} BehindCounts(s: seq<Key>, p: nat)
    requires p < |s| && Distinct(s)
    ensures |Behind(s, s[p])| == |s| - 1 - p
  {
    if p == 0 { CountsDistinct(s[1..]); } else { BehindCounts(s[1..], p - 1); }
  }

  lemma {:induction false} BehindMoved(s: seq<Key>, key: Key, x: Key)
    requires x in s && x != key
    ensures Behind(Without(s, key) + [key], x) == Behind(s, x) + {key}
  {
    var rest := Without(s[1..], key) + [key];
    if s[0] == x {
      assert Without(s, key) + [key] == [x] + rest;
    } else {
      BehindMoved(s[1..], key, x);
      assert Without(s, key) + [key] == (if s[0] == key then rest else [s[0]] + rest);
    }
  }

  lemma {:induction false} BehindAppended(s: seq<Key>, key: Key, x: Key)
    requires x in s && x != key
    ensures Behind(s + [key], x) == Behind(s, x) + {key}
  {
    if s[0] == x {
      assert (s + [key])[1..] == s[1..] + [key];
    } else {
      BehindAppended(s[1..], key, x);
      assert (s + [key])[1..] == s[1..] + [key];
    }
  }

  lemma {:induction false} TrimmedKeepsFrom(b: Book, most: nat, p: nat)
    requires Sound(b) && p < |b.order|
    ensures b.order[p] in Trimmed(b, most).hits <==> p >= |b.order| - most
    decreases |b.order|
  {
    if |b.order| > most {
      var next := Book(b.order[1..], b.hits - {b.order[0]});
      FirstIsApart(b.order);
      TrimmedIs(next, most);
      if p > 0 { TrimmedKeepsFrom(next, most, p - 1); }
    }
  }

  lemma {:induction false} TrimmedKeepsIff(b: Book, most: nat, x: Key)
    requires Sound(b) && x in b.hits
    ensures x in Trimmed(b, most).hits <==> |Behind(b.order, x)| < most
  {
    var p :| 0 <= p < |b.order| && b.order[p] == x;
    BehindCounts(b.order, p);
    TrimmedKeepsFrom(b, most, p);
  }

  /** Recording a failure of one key drops another one exactly when at least `maxKeys` keys, this one
      included, then stand behind it. The recorded key itself stays, given any room at all. */
  lemma {:induction false} DropsIff(b: Book, key: Key, now: real, l: Limits, x: Key)
    requires Sound(b) && x in b.hits && x != key
    ensures x !in Recorded(b, key, now, l).hits <==> |Behind(b.order, x) + {key}| >= l.maxKeys
    ensures x in Recorded(b, key, now, l).hits ==> Recorded(b, key, now, l).hits[x] == b.hits[x]
  {
    var o, m := Opened(b, key, now - l.window), Marked(b, key, now, l.window);
    MarkedIsSound(b, key, now, l.window);
    BehindMoved(o.order, key, x);
    if key !in b.hits { BehindAppended(b.order, key, x); }
    assert Behind(m.order, x) == Behind(b.order, x) + {key};
    TrimmedKeepsIff(m, l.maxKeys, x);
    TrimmedIs(m, l.maxKeys);
  }

  lemma {:induction false} OwnStays(b: Book, key: Key, now: real, l: Limits)
    requires Sound(b)
    ensures key in Recorded(b, key, now, l).hits <==> l.maxKeys >= 1
    ensures key in Recorded(b, key, now, l).hits ==>
      Recorded(b, key, now, l).hits[key] == Pruned(HitsOf(b, key), now - l.window) + [now]
  {
    var m := Marked(b, key, now, l.window);
    MarkedIsSound(b, key, now, l.window);
    LastIsKept(m, l.maxKeys, key);
  }

  lemma {:induction false} LastIsKept(b: Book, most: nat, key: Key)
    requires Sound(b) && b.order != [] && b.order[|b.order| - 1] == key
    ensures key in Trimmed(b, most).hits <==> most >= 1
    ensures key in Trimmed(b, most).hits ==> Trimmed(b, most).hits[key] == b.hits[key]
  {
    BehindCounts(b.order, |b.order| - 1);
    TrimmedKeepsIff(b, most, key);
    TrimmedIs(b, most);
  }
}
