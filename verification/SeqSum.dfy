/** Sums over a sequence. */
module SeqSum {
  import opened Sorting

  ghost function Sum<T>(w: T -> int, xs: seq<T>): int {
    if xs == [] then 0 else w(xs[0]) + Sum(w, xs[1..])
  }

  lemma {:induction false} SumSplit<T>(w: T -> int, xs: seq<T>, i: nat)
    requires i <= |xs|
    ensures Sum(w, xs) == Sum(w, xs[..i]) + Sum(w, xs[i..])
    decreases i
  {
    if i > 0 {
      SumSplit(w, xs[1..], i - 1);
      assert xs[..i][1..] == xs[1..][..i - 1] && xs[1..][i - 1..] == xs[i..];
    }
  }

  lemma {:induction false} SumAppend<T>(w: T -> int, xs: seq<T>, ys: seq<T>)
    ensures Sum(w, xs + ys) == Sum(w, xs) + Sum(w, ys)
  {
    SumSplit(w, xs + ys, |xs|);
    assert (xs + ys)[..|xs|] == xs && (xs + ys)[|xs|..] == ys;
  }

  lemma {:induction false} SumOne<T>(w: T -> int, x: T)
    ensures Sum(w, [x]) == w(x)
  {
    assert [x][1..] == [];
  }

  lemma {:induction false} SumRemove<T>(w: T -> int, xs: seq<T>, i: nat)
    requires i < |xs|
    ensures Sum(w, xs) == w(xs[i]) + Sum(w, xs[..i] + xs[i + 1..])
  {
    SumSplit(w, xs, i);
    SumAppend(w, xs[..i], xs[i + 1..]);
    assert xs[i..][1..] == xs[i + 1..];
  }

  lemma {:induction false} SumPermuted<T>(w: T -> int, a: seq<T>, b: seq<T>)
    requires multiset(a) == multiset(b)
    ensures Sum(w, a) == Sum(w, b)
    decreases |a|
  {
    if a == [] {
      assert |multiset(a)| == |multiset(b)|;
    } else {
      assert a[0] in multiset(b);
      var j: nat :| j < |b| && b[j] == a[0];
      SumRemove(w, b, j);
      RemoveOne(b, j);
      RemoveFirst(a);
      SumPermuted(w, a[1..], b[..j] + b[j + 1..]);
    }
  }

  lemma {:induction false} SumZero<T>(w: T -> int, xs: seq<T>)
    requires forall i :: 0 <= i < |xs| ==> w(xs[i]) == 0
    ensures Sum(w, xs) == 0
    decreases |xs|
  {
    if xs != [] {
      SumZero(w, xs[1..]);
    }
  }

  lemma {:induction false} SumAdd<T(!new)>(c: T -> int, d: T -> int, e: T -> int, xs: seq<T>)
    requires forall x :: c(x) == d(x) + e(x)
    ensures Sum(c, xs) == Sum(d, xs) + Sum(e, xs)
    decreases |xs|
  {
    if xs != [] {
      SumAdd(c, d, e, xs[1..]);
    }
  }
}
