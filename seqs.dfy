/** Sequence helpers shared by the engines: JavaScript's `Array.prototype.filter` and friends. */
module Seqs {

  /** `s.filter(keep)`: the elements of `s` that `keep` accepts, in their original order. */
  function Filter<T(!new)>(s: seq<T>, keep: T -> bool): (r: seq<T>)
    ensures |r| <= |s|
    ensures forall x :: x in r <==> x in s && keep(x)
    ensures multiset(r) <= multiset(s)
  {
    if |s| == 0 then []
    else
      var front := Filter(s[..|s| - 1], keep);
      var last := s[|s| - 1];
      assert s == s[..|s| - 1] + [last];
      if keep(last) then front + [last] else front
  }

  /** Filtering distributes over concatenation. */
  lemma {:induction false} FilterAppend<T(!new)>(a: seq<T>, b: seq<T>, keep: T -> bool)
    ensures Filter(a + b, keep) == Filter(a, keep) + Filter(b, keep)
  {
    if |b| == 0 {
      assert a + b == a;
    } else {
      var b' := b[..|b| - 1];
      assert (a + b)[..|a + b| - 1] == a + b';
      assert (a + b)[|a + b| - 1] == b[|b| - 1];
      FilterAppend(a, b', keep);
    }
  }

  /** Each element keeps its multiplicity exactly when it passes, and disappears otherwise. */
  lemma {:induction false} FilterMultiplicity<T(!new)>(s: seq<T>, keep: T -> bool, x: T)
    ensures multiset(Filter(s, keep))[x] == if keep(x) then multiset(s)[x] else 0
  {
    if |s| > 0 {
      var front := s[..|s| - 1];
      assert s == front + [s[|s| - 1]];
      FilterMultiplicity(front, keep, x);
    }
  }

  /** Two predicates that agree on the elements of `s` filter it alike. */
  lemma {:induction false} FilterExt<T(!new)>(s: seq<T>, f: T -> bool, g: T -> bool)
    requires forall x :: x in s ==> f(x) == g(x)
    ensures Filter(s, f) == Filter(s, g)
  {
    if |s| > 0 {
      var n := |s| - 1;
      var front := s[..n];
      forall x | x in front ensures f(x) == g(x) {
        SliceMember(s, n, x);
      }
      FilterExt(front, f, g);
    }
  }

  /** No element of `s` passes: the filter is empty. */
  lemma {:induction false} FilterNone<T(!new)>(s: seq<T>, keep: T -> bool)
    requires forall x :: x in s ==> !keep(x)
    ensures Filter(s, keep) == []
  {
    if |s| > 0 {
      var n := |s| - 1;
      var front := s[..n];
      forall x | x in front ensures !keep(x) {
        SliceMember(s, n, x);
      }
      FilterNone(front, keep);
    }
  }

  /** The elements that pass and the elements that fail together account for all of `s`. */
  lemma {:induction false} FilterPartition<T(!new)>(s: seq<T>, keep: T -> bool, drop: T -> bool)
    requires forall x :: x in s ==> drop(x) == !keep(x)
    ensures |Filter(s, keep)| + |Filter(s, drop)| == |s|
  {
    if |s| > 0 {
      var n := |s| - 1;
      var front := s[..n];
      forall x | x in front ensures drop(x) == !keep(x) {
        SliceMember(s, n, x);
      }
      FilterPartition(front, keep, drop);
    }
  }

  /** When exactly the element at `k` fails, filtering removes just that element. */
  lemma FilterDropsOne<T(!new)>(s: seq<T>, keep: T -> bool, k: nat)
    requires k < |s| && !keep(s[k])
    requires forall j :: 0 <= j < |s| && j != k ==> keep(s[j])
    ensures Filter(s, keep) == s[..k] + s[k + 1..]
  {
    FilterAround(s, keep, k);
    assert Filter([s[k]], keep) == [] by {
      assert [s[k]][..0] == [];
    }
    KeepBefore(s, keep, k);
    KeepAfter(s, keep, k);
    assert s[..k] + [] == s[..k];
  }

  lemma KeepBefore<T(!new)>(s: seq<T>, keep: T -> bool, k: nat)
    requires k < |s| && forall j :: 0 <= j < k ==> keep(s[j])
    ensures Filter(s[..k], keep) == s[..k]
  {
    forall x | x in s[..k] ensures keep(x) {
      var m :| 0 <= m < k && s[..k][m] == x;
    }
    KeepAll(s[..k], keep);
  }

  lemma KeepAfter<T(!new)>(s: seq<T>, keep: T -> bool, k: nat)
    requires k < |s| && forall j :: k < j < |s| ==> keep(s[j])
    ensures Filter(s[k + 1..], keep) == s[k + 1..]
  {
    forall x | x in s[k + 1..] ensures keep(x) {
      var m :| 0 <= m < |s| - k - 1 && s[k + 1..][m] == x;
      assert s[k + 1 + m] == x;
    }
    KeepAll(s[k + 1..], keep);
  }

  /** Filtering splits around any position. */
  lemma FilterAround<T(!new)>(s: seq<T>, keep: T -> bool, k: nat)
    requires k < |s|
    ensures Filter(s, keep) == Filter(s[..k], keep) + Filter([s[k]], keep) + Filter(s[k + 1..], keep)
  {
    SplitAt(s, k);
    FilterAppend(s[..k] + [s[k]], s[k + 1..], keep);
    FilterAppend(s[..k], [s[k]], keep);
  }

  /** A sequence is its prefix, the element at `k` and its suffix. */
  lemma SplitAt<T>(s: seq<T>, k: nat)
    requires k < |s|
    ensures s == s[..k] + [s[k]] + s[k + 1..]
  {
  }

  /** A non-empty sequence is its front followed by its last element. */
  lemma Snoc<T>(s: seq<T>)
    requires |s| > 0
    ensures s == s[..|s| - 1] + [s[|s| - 1]]
  {
  }

  /** An element of a prefix is an element of the whole. */
  lemma SliceMember<T>(t: seq<T>, n: nat, x: T)
    requires n <= |t| && x in t[..n]
    ensures x in t
  {
    var m :| 0 <= m < n && t[..n][m] == x;
    assert t[m] == x;
  }

  /** If every element passes, the filter keeps the sequence whole. */
  lemma {:induction false} KeepAll<T(!new)>(t: seq<T>, keep: T -> bool)
    requires forall x :: x in t ==> keep(x)
    ensures Filter(t, keep) == t
  {
    if |t| > 0 {
      var n := |t| - 1;
      var front := t[..n];
      forall x | x in front ensures keep(x) {
        assert x in t by { SliceMember(t, n, x); }
      }
      KeepAll(front, keep);
      SplitAt(t, n);
      assert t[n + 1..] == [];
    }
  }

  /** `a` has no repeated element. */
  predicate NoDuplicates<T(==)>(a: seq<T>) {
    forall i, j :: 0 <= i < j < |a| ==> a[i] != a[j]
  }

  /** Filtering keeps a sequence free of duplicates. */
  lemma {:induction false} FilterNoDuplicates<T(!new)>(s: seq<T>, keep: T -> bool)
    requires NoDuplicates(s)
    ensures NoDuplicates(Filter(s, keep))
  {
    if |s| > 0 {
      var front := s[..|s| - 1];
      assert NoDuplicates(front);
      FilterNoDuplicates(front, keep);
      assert s[|s| - 1] !in front;
    }
  }
}
