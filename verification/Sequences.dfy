/** Order-preserving selection, the relation between what was admitted and what is delivered. */
module Sequences {

  /** `xs` is `ys` with some elements left out, the rest in the same order. */
  ghost predicate Subsequence<T>(xs: seq<T>, ys: seq<T>)
    decreases |ys|
  {
    || xs == []
    || (ys != [] && xs[0] == ys[0] && Subsequence(xs[1..], ys[1..]))
    || (ys != [] && Subsequence(xs, ys[1..]))
  }

  ghost predicate Increasing(xs: seq<nat>) {
    forall i, j :: 0 <= i < j < |xs| ==> xs[i] < xs[j]
  }

  lemma {:induction false} SubsequenceReflexive<T>(xs: seq<T>)
    ensures Subsequence(xs, xs)
    decreases |xs|
  {
    if xs != [] { SubsequenceReflexive(xs[1..]); }
  }

  lemma {:induction false} SubsequenceTransitive<T>(xs: seq<T>, ys: seq<T>, zs: seq<T>)
    requires Subsequence(xs, ys) && Subsequence(ys, zs)
    ensures Subsequence(xs, zs)
    decreases |zs|, |ys|
  {
    if xs == [] {
    } else if Subsequence(ys, zs[1..]) {
      SubsequenceTransitive(xs, ys, zs[1..]);
    } else if Subsequence(xs, ys[1..]) {
      SubsequenceTransitive(xs, ys[1..], zs[1..]);
    } else {
      SubsequenceTransitive(xs[1..], ys[1..], zs[1..]);
    }
  }

  lemma {:induction false} SubsequenceAppend<T>(xs: seq<T>, ys: seq<T>, x: T)
    requires Subsequence(xs, ys)
    ensures Subsequence(xs, ys + [x]) && Subsequence(xs + [x], ys + [x])
    decreases |ys|
  {
    if ys == [] {
      assert Subsequence<T>([], []);
      assert ([x])[1..] == [];
      assert xs + [x] == [x] == ys + [x];
    } else {
      assert (ys + [x])[1..] == ys[1..] + [x];
      if xs == [] {
        SubsequenceAppend([], ys[1..], x);
        assert [] + [x] == [x];
      } else if xs[0] == ys[0] && Subsequence(xs[1..], ys[1..]) {
        SubsequenceAppend(xs[1..], ys[1..], x);
        assert (xs + [x])[1..] == xs[1..] + [x];
      } else {
        SubsequenceAppend(xs, ys[1..], x);
      }
    }
  }

  lemma {:induction false} SubsequenceElements<T>(xs: seq<T>, ys: seq<T>)
    requires Subsequence(xs, ys)
    ensures |xs| <= |ys| && multiset(xs) <= multiset(ys)
    decreases |ys|
  {
    if xs != [] {
      assert ys == [ys[0]] + ys[1..];
      if xs[0] == ys[0] && Subsequence(xs[1..], ys[1..]) {
        assert xs == [xs[0]] + xs[1..];
        SubsequenceElements(xs[1..], ys[1..]);
      } else {
        SubsequenceElements(xs, ys[1..]);
      }
    }
  }

  lemma {:induction false} SubsequenceOfIncreasing(xs: seq<nat>, ys: seq<nat>)
    requires Subsequence(xs, ys) && Increasing(ys)
    ensures Increasing(xs)
    ensures forall x :: x in xs ==> x in ys
    decreases |ys|
  {
    if xs != [] {
      assert ys == [ys[0]] + ys[1..];
      if xs[0] == ys[0] && Subsequence(xs[1..], ys[1..]) {
        assert xs == [xs[0]] + xs[1..];
        SubsequenceOfIncreasing(xs[1..], ys[1..]);
        forall i, j | 0 <= i < j < |xs|
          ensures xs[i] < xs[j]
        {
          assert xs[j] == xs[1..][j - 1] && xs[j] in xs[1..];
          if i > 0 { assert xs[i] == xs[1..][i - 1]; }
        }
      } else {
        SubsequenceOfIncreasing(xs, ys[1..]);
      }
    }
  }

  /** The elements of `log` at the given positions. */
  ghost function Pick<T>(log: seq<T>, at: seq<nat>): seq<T>
    requires forall i :: 0 <= i < |at| ==> at[i] < |log|
  {
    seq(|at|, i requires 0 <= i < |at| => log[at[i]])
  }

  /** Increasing positions pick a subsequence: the meaning of increasing admission numbers. */
  lemma {:induction false} IncreasingPicksSubsequence<T>(log: seq<T>, at: seq<nat>)
    requires forall i :: 0 <= i < |at| ==> at[i] < |log|
    requires Increasing(at)
    ensures Subsequence(Pick(log, at), log)
    decreases |log|
  {
    if at != [] {
      var n := |log| - 1;
      var front := if at[|at| - 1] == n then at[..|at| - 1] else at;
      IncreasingPicksSubsequence(log[..n], front);
      SubsequenceAppend(Pick(log[..n], front), log[..n], log[n]);
      assert log == log[..n] + [log[n]];
      if at[|at| - 1] == n {
        assert Pick(log, at) == Pick(log[..n], front) + [log[n]];
      } else {
        assert Pick(log, at) == Pick(log[..n], front);
      }
    }
  }

  lemma SubsequenceMembers<T>(xs: seq<T>, ys: seq<T>, x: T)
    requires Subsequence(xs, ys) && x in xs
    ensures x in ys
  {
    SubsequenceElements(xs, ys);
    assert x in multiset(xs);
  }
}
