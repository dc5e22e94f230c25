/** Sorting in place by a key, as sort.Sort does with a Less function; the order of equal keys is left open. */
module Sorting {

  ghost predicate SortedBy<T>(s: seq<T>, key: T -> int) {
    forall i, j :: 0 <= i < j < |s| ==> key(s[i]) <= key(s[j])
  }

  method Sort<T>(a: array<T>, key: T -> int)
    modifies a
    ensures SortedBy(a[..], key) && multiset(a[..]) == old(multiset(a[..]))
  {
    var n := 0;
    while n < a.Length
      invariant 0 <= n <= a.Length
      invariant forall i, j :: 0 <= i < n && i < j < a.Length ==> key(a[i]) <= key(a[j])
      invariant multiset(a[..]) == old(multiset(a[..]))
    {
      var best := n;
      for j := n + 1 to a.Length
        invariant n <= best < a.Length
        invariant forall i :: n <= i < j ==> key(a[best]) <= key(a[i])
      {
        if key(a[j]) < key(a[best]) {
          best := j;
        }
      }
      a[n], a[best] := a[best], a[n];
      n := n + 1;
    }
  }

  lemma {:induction false} RemoveOne<T>(s: seq<T>, i: nat)
    requires i < |s|
    ensures multiset(s[..i] + s[i + 1..]) == multiset(s) - multiset{s[i]}
  {
    assert s == s[..i] + [s[i]] + s[i + 1..];
  }

  lemma {:induction false} RemoveFirst<T>(s: seq<T>)
    requires s != []
    ensures multiset(s[1..]) == multiset(s) - multiset{s[0]}
  {
    assert s == [s[0]] + s[1..];
  }
}
