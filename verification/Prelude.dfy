/** Small generic vocabulary shared by the models: an optional value, and facts about finite
    sets and sequences that the solver does not know by itself. */
module Prelude {

  datatype Option<+T> = None | Some(value: T)

  /** The identifier under which the agent reports a task, shared by both sides. */
  type TaskId = nat

  datatype GuestType = Vm | Lxc
  datatype Guest = Guest(vmid: nat, kind: GuestType)

  /** The status of one row of the backup history. */
  datatype RowStatus = Running | Success | Failed | Cancelled | Interrupted | Deleted

  ghost predicate Distinct<T>(s: seq<T>) {
    forall i, j :: 0 <= i < j < |s| ==> s[i] != s[j]
  }

  /** A subset as large as the whole is the whole. */
  lemma FullSubset<T>(part: set<T>, whole: set<T>)
    requires part <= whole && |part| == |whole|
    ensures part == whole
  {
    assert |whole - part| == |whole| - |part|;
  }

  lemma SubsetSize<T>(part: set<T>, whole: set<T>)
    requires part <= whole
    ensures |part| <= |whole|
  {
    assert |whole - part| == |whole| - |part|;
  }

  lemma {:induction false} DistinctSize<T>(s: seq<T>)
    requires Distinct(s)
    ensures |set x | x in s| == |s|
  {
    if s != [] {
      var rest := s[..|s| - 1];
      DistinctSize(rest);
      assert (set x | x in s) == (set x | x in rest) + {s[|s| - 1]};
    }
  }

  /** An injective relabelling cannot grow a set. */
  lemma {:induction false} InjectionSize<A, B>(source: set<A>, f: map<A, B>, target: set<B>)
    requires source <= f.Keys
    requires forall x :: x in source ==> f[x] in target
    requires forall x, y :: x in source && y in source && f[x] == f[y] ==> x == y
    ensures |source| <= |target|
    decreases |source|
  {
    if source != {} {
      var x :| x in source;
      InjectionSize(source - {x}, f, target - {f[x]});
    }
  }
}
