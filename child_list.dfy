/**
 * The child lists of the group parameters: an ArrayList that never holds the
 * same object twice, with List.remove(Object) removing the first occurrence.
 */
module ChildList {

  predicate Distinct<T(==)>(s: seq<T>)
  {
    forall i, j :: 0 <= i < j < |s| ==> s[i] != s[j]
  }

  /** List.remove(Object): the list without the first occurrence of c. */
  function Without<T(==)>(cs: seq<T>, c: T): (r: seq<T>)
    ensures |r| == if c in cs then |cs| - 1 else |cs|
    decreases |cs|
  {
    if cs == [] then []
    else if cs[0] == c then cs[1..]
    else [cs[0]] + Without(cs[1..], c)
  }

  /** Removing a missing element leaves the list as it is. */
  lemma {:induction false} WithoutMissing<T>(cs: seq<T>, c: T)
    requires c !in cs
    ensures Without(cs, c) == cs
    decreases |cs|
  {
    if cs != [] {
      WithoutMissing(cs[1..], c);
    }
  }

  /**
   * Removing a present element from a list without duplicates removes exactly
   * that element and keeps the others, still without duplicates.
   */
  lemma {:induction false} WithoutPresent<T>(cs: seq<T>, c: T)
    requires Distinct(cs) && c in cs
    ensures Distinct(Without(cs, c))
    ensures c !in Without(cs, c)
    ensures forall d :: d != c ==> (d in Without(cs, c) <==> d in cs)
    decreases |cs|
  {
    if cs[0] != c {
      WithoutPresent(cs[1..], c);
      assert cs[0] !in cs[1..];
      var w := Without(cs, c);
      forall i, j | 0 <= i < j < |w|
        ensures w[i] != w[j]
      {
        if i == 0 {
          assert w[j] in Without(cs[1..], c);
        } else {
          assert w[i] == Without(cs[1..], c)[i - 1] && w[j] == Without(cs[1..], c)[j - 1];
        }
      }
    }
  }

  /** Appending a new element and then removing it gives back the original list. */
  lemma {:induction false} WithoutAppended<T>(cs: seq<T>, c: T)
    requires c !in cs
    ensures Without(cs + [c], c) == cs
    decreases |cs|
  {
    if cs != [] {
      assert (cs + [c])[1..] == cs[1..] + [c];
      WithoutAppended(cs[1..], c);
    }
  }
}
