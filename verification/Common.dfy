/** Shared vocabulary. */
module Common {
  datatype Option<+T> = None | Some(value: T)

  // Pigeonhole: distinct members of a set are no more than its elements.
  lemma {:induction false} DistinctMembersFit<T>(members: seq<T>, s: set<T>)
    requires forall i :: 0 <= i < |members| ==> members[i] in s
    requires forall i, j :: 0 <= i < j < |members| ==> members[i] != members[j]
    ensures |members| <= |s|
  {
    if members != [] {
      var last := members[|members| - 1];
      DistinctMembersFit(members[..|members| - 1], s - {last});
    }
  }

  lemma {:induction false} SubsetIsSmaller<T>(a: set<T>, b: set<T>)
    requires a <= b
    ensures |a| <= |b|
  {
    if a != {} {
      var x :| x in a;
      SubsetIsSmaller(a - {x}, b - {x});
    }
  }
}
