/** A query as the database answers it: the matching rows, ordered by a strict total order. */
module Listings {

  ghost predicate StrictTotal<T(!new)>(less: (T, T) -> bool) {
    && (forall a :: !less(a, a))
    && (forall a, b, c :: less(a, b) && less(b, c) ==> less(a, c))
    && (forall a, b :: a == b || less(a, b) || less(b, a))
  }

  ghost predicate Ascending<T>(s: seq<T>, less: (T, T) -> bool) {
    forall i, j :: 0 <= i < j < |s| ==> less(s[i], s[j])
  }

  ghost predicate Lists<T(!new)>(s: seq<T>, items: set<T>, less: (T, T) -> bool) {
    Ascending(s, less) && forall x :: x in s <==> x in items
  }

  predicate First<T(==)>(x: T, items: set<T>, less: (T, T) -> bool) {
    x in items && forall y :: y in items ==> y == x || less(x, y)
  }

  lemma {:induction false} FirstExists<T(!new)>(items: set<T>, less: (T, T) -> bool)
    requires items != {} && StrictTotal(less)
    ensures exists x :: First(x, items, less)
    decreases |items|
  {
    var x :| x in items;
    if items == {x} {
      assert First(x, items, less);
    } else {
      FirstExists(items - {x}, less);
      var m :| First(m, items - {x}, less);
      if less(x, m) {
        assert forall y :: y in items ==> y == x || y in items - {x};
        assert First(x, items, less);
      } else {
        assert First(m, items, less);
      }
    }
  }

  lemma FirstIsUnique<T(!new)>(items: set<T>, less: (T, T) -> bool)
    requires StrictTotal(less)
    ensures forall x, y :: First(x, items, less) && First(y, items, less) ==> x == y
  {
  }

  /** The matching rows, in order. */
  function Listing<T(==,!new)>(items: set<T>, less: (T, T) -> bool): (s: seq<T>)
    requires StrictTotal(less)
    ensures Lists(s, items, less)
    decreases |items|
  {
    if items == {} then []
    else
      FirstExists(items, less);
      FirstIsUnique(items, less);
      var x :| x in items && First(x, items, less);
      [x] + Listing(items - {x}, less)
  }

  /** The answer to a query is determined by what matches and by the order. */
  lemma {:induction false} ListingUnique<T(!new)>(s: seq<T>, t: seq<T>, less: (T, T) -> bool)
    requires StrictTotal(less) && Ascending(s, less) && Ascending(t, less)
    requires forall x :: x in s <==> x in t
    ensures s == t
  {
    HasMember(s);
    HasMember(t);
    if s != [] && t != [] {
      assert s[0] in t && t[0] in s;
      assert s[0] == t[0];
      forall x ensures x in s[1..] <==> x in t[1..] { InTail(s, x, less); InTail(t, x, less); }
      ListingUnique(s[1..], t[1..], less);
    }
  }

  lemma HasMember<T(!new)>(s: seq<T>)
    ensures s != [] ==> exists x :: x in s
  {
    if s != [] { assert s[0] in s; }
  }

  lemma InTail<T(!new)>(s: seq<T>, x: T, less: (T, T) -> bool)
    requires StrictTotal(less) && Ascending(s, less) && s != []
    ensures x in s[1..] <==> x in s && x != s[0]
  {
  }

  lemma HeadIsFirst<T(!new)>(s: seq<T>, items: set<T>, less: (T, T) -> bool, x: T)
    requires StrictTotal(less) && Lists(s, items, less) && First(x, items, less)
    ensures s != [] && s[0] == x
  {
    assert x in s;
    assert s[0] in items;
    forall y | y in items ensures y == s[0] || less(s[0], y) {
      var k :| 0 <= k < |s| && s[k] == y;
      assert k == 0 || less(s[0], s[k]);
    }
  }

  // ---- removing one row ----------------------------------------------------------------

  function Without<T(==,!new)>(s: seq<T>, x: T): (r: seq<T>)
    ensures forall y :: y in r <==> y in s && y != x
  {
    if s == [] then [] else (if s[0] == x then [] else [s[0]]) + Without(s[1..], x)
  }

  lemma {:induction false} WithoutAscends<T(!new)>(s: seq<T>, x: T, less: (T, T) -> bool)
    requires Ascending(s, less)
    ensures Ascending(Without(s, x), less)
  {
    if s != [] {
      WithoutAscends(s[1..], x, less);
      forall y | y in Without(s[1..], x) ensures less(s[0], y) {
        var k :| 0 <= k < |s[1..]| && s[1..][k] == y;
        assert less(s[0], s[k + 1]);
      }
    }
  }

  /** A query over one row fewer lists the same rows in the same order, without it. */
  lemma {:induction false} ListingWithout<T(!new)>(items: set<T>, x: T, less: (T, T) -> bool)
    requires StrictTotal(less)
    ensures Listing(items - {x}, less) == Without(Listing(items, less), x)
  {
    WithoutAscends(Listing(items, less), x, less);
    ListingUnique(Listing(items - {x}, less), Without(Listing(items, less), x), less);
  }

  lemma {:induction false} WithoutSplits<T(!new)>(s: seq<T>, k: nat)
    requires k < |s| && forall i, j :: 0 <= i < j < |s| ==> s[i] != s[j]
    ensures Without(s, s[k]) == s[..k] + s[k + 1..]
  {
    if k == 0 {
      WithoutAbsent(s[1..], s[0]);
    } else {
      WithoutSplits(s[1..], k - 1);
      assert s[1..][..k - 1] == s[1..k] && s[1..][k..] == s[k + 1..];
    }
  }

  lemma {:induction false} WithoutAbsent<T(!new)>(s: seq<T>, x: T)
    requires x !in s
    ensures Without(s, x) == s
  {
    if s != [] { WithoutAbsent(s[1..], x); }
  }
}
