/** Sequence helpers shared by the reducers that filter lists (`Array.prototype.filter`). */
module Seqs {
  import opened Wrappers

  /** The elements of `xs` that satisfy `keep`, in their original order. */
  function Filter<T(!new)>(xs: seq<T>, keep: T -> bool): (r: seq<T>)
    ensures |r| <= |xs|
    ensures forall x :: x in r <==> x in xs && keep(x)
    ensures forall i :: 0 <= i < |r| ==> keep(r[i])
    ensures (forall x :: x in xs ==> keep(x)) ==> r == xs
  {
    if |xs| == 0 then []
    else if keep(xs[0]) then [xs[0]] + Filter(xs[1..], keep)
    else Filter(xs[1..], keep)
  }

  /** Filtering distributes over concatenation, so filtering keeps relative order. */
  lemma {:induction false} FilterAppend<T(!new)>(xs: seq<T>, ys: seq<T>, keep: T -> bool)
    ensures Filter(xs + ys, keep) == Filter(xs, keep) + Filter(ys, keep)
  {
    if |xs| == 0 {
      assert xs + ys == ys;
    } else {
      assert (xs + ys)[1..] == xs[1..] + ys;
      FilterAppend(xs[1..], ys, keep);
    }
  }

  /** Number of elements of `xs` that satisfy `p`. */
  function Count<T(!new)>(xs: seq<T>, p: T -> bool): (n: nat)
    ensures n <= |xs|
    ensures n == |Filter(xs, p)|
  {
    if |xs| == 0 then 0 else (if p(xs[0]) then 1 else 0) + Count(xs[1..], p)
  }

  /** Removing the elements that fail `keep` shortens the list by exactly their number. */
  lemma {:induction false} FilterCountComplement<T(!new)>(xs: seq<T>, keep: T -> bool)
    ensures |Filter(xs, keep)| + Count(xs, x => !keep(x)) == |xs|
  {
    if |xs| > 0 {
      FilterCountComplement(xs[1..], keep);
    }
  }

  /** No two elements share a key. */
  predicate UniqueKeys<T(!new), K(==)>(xs: seq<T>, key: T -> K)
  {
    forall i, j :: 0 <= i < j < |xs| ==> key(xs[i]) != key(xs[j])
  }

  /** `xs.find(x => key(x) === k)`, as the index of the first match. */
  function IndexOfKey<T(!new), K(==)>(xs: seq<T>, key: T -> K, k: K): (r: Option<nat>)
    ensures r.Some? ==>
      && r.value < |xs| && key(xs[r.value]) == k
      && forall i :: 0 <= i < r.value ==> key(xs[i]) != k
    ensures r.None? <==> forall i :: 0 <= i < |xs| ==> key(xs[i]) != k
  {
    if |xs| == 0 then None
    else if key(xs[0]) == k then Some(0)
    else match IndexOfKey(xs[1..], key, k)
      case None => None
      case Some(j) => Some(j + 1)
  }

  /** The keep-predicate of `xs.filter(x => key(x) !== k)`. */
  function KeyIsNot<T, K(==)>(key: T -> K, k: K): T -> bool
  {
    x => key(x) != k
  }

  /** Filtering keeps keys unique. */
  lemma {:induction false} FilterKeepsUnique<T(!new), K>(xs: seq<T>, key: T -> K, keep: T -> bool)
    requires UniqueKeys(xs, key)
    ensures UniqueKeys(Filter(xs, keep), key)
  {
    if |xs| > 0 {
      FilterKeepsUnique(xs[1..], key, keep);
      forall x | x in Filter(xs[1..], keep) ensures key(x) != key(xs[0]) {
        var j :| 0 <= j < |xs[1..]| && xs[1..][j] == x;
        assert xs[j + 1] == x;
      }
    }
  }

  /** Filtering out the key of one element of a list with unique keys removes
      exactly that element: everything before it, then everything after it. */
  lemma FilterOutUnique<T(!new), K>(xs: seq<T>, key: T -> K, i: nat)
    requires UniqueKeys(xs, key) && i < |xs|
    ensures Filter(xs, KeyIsNot(key, key(xs[i]))) == xs[..i] + xs[i + 1..]
  {
    var keep := KeyIsNot(key, key(xs[i]));
    var before, after := xs[..i], xs[i + 1..];
    forall j | 0 <= j < |before| ensures keep(before[j]) {
      assert before[j] == xs[j];
    }
    FilterKeepsAll(before, keep);
    forall j | 0 <= j < |after| ensures keep(after[j]) {
      assert after[j] == xs[i + 1 + j];
    }
    FilterKeepsAll(after, keep);
    var upTo := before + [xs[i]];
    FilterAppend(before, [xs[i]], keep);
    assert Filter([xs[i]], keep) == [];
    assert Filter(upTo, keep) == before + [];
    assert Filter(upTo, keep) == before;
    FilterAppend(upTo, after, keep);
    assert xs == upTo + after;
  }

  /** A filter that keeps every element is the identity. */
  lemma {:induction false} FilterKeepsAll<T(!new)>(xs: seq<T>, keep: T -> bool)
    requires forall j :: 0 <= j < |xs| ==> keep(xs[j])
    ensures Filter(xs, keep) == xs
  {
    if |xs| > 0 {
      FilterKeepsAll(xs[1..], keep);
    }
  }

  /** When every element `q` keeps is also kept by `p`, filtering by `p` first
      changes nothing about what `q` selects. */
  lemma {:induction false} FilterOfFilter<T(!new)>(xs: seq<T>, p: T -> bool, q: T -> bool)
    requires forall x :: q(x) ==> p(x)
    ensures Filter(Filter(xs, p), q) == Filter(xs, q)
  {
    if |xs| > 0 {
      FilterOfFilter(xs[1..], p, q);
    }
  }

  /** `xs.map(f).filter(Boolean)` for a lookup `f`: the hits, in order. */
  function FilterMap<T, U>(xs: seq<T>, f: T -> Option<U>): (r: seq<U>)
    ensures |r| <= |xs|
  {
    if |xs| == 0 then []
    else if f(xs[0]).Some? then [f(xs[0]).value] + FilterMap(xs[1..], f)
    else FilterMap(xs[1..], f)
  }

  /** A value is among the hits exactly when the lookup of some element gives it. */
  lemma {:induction false} FilterMapMembers<T, U>(xs: seq<T>, f: T -> Option<U>, u: U)
    ensures u in FilterMap(xs, f) <==> exists i :: 0 <= i < |xs| && f(xs[i]) == Some(u)
  {
    if |xs| > 0 {
      FilterMapMembers(xs[1..], f, u);
      if u in FilterMap(xs[1..], f) {
        var j :| 0 <= j < |xs[1..]| && f(xs[1..][j]) == Some(u);
        assert xs[j + 1] == xs[1..][j];
      }
      if exists i :: 0 <= i < |xs| && f(xs[i]) == Some(u) {
        var i :| 0 <= i < |xs| && f(xs[i]) == Some(u);
        if i > 0 {
          assert xs[1..][i - 1] == xs[i];
        }
      }
    }
  }
}
