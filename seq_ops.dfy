/**
  Sequence operations shared by several components: the first-match lookup
  that every enum companion object performs over its `values()`, and the
  remove-first-equal-element semantics of `Vector::erase(find(...))`,
  `ConcurrentLinkedQueue.remove` and Godot's `Array.erase`.
 */
module SeqOps {

  /** Index of the first element of `s` equal to `x`, if any. */
  predicate IsFirstIndex<T(==)>(s: seq<T>, x: T, i: int)
  {
    0 <= i < |s| && s[i] == x && forall j :: 0 <= j < i ==> s[j] != x
  }

  /** The first element of `xs` whose key is `k`, or `default` when none has. */
  function FindFirst<T, K(==)>(xs: seq<T>, key: T -> K, k: K, default: T): (r: T)
    ensures (forall i :: 0 <= i < |xs| ==> key(xs[i]) != k) ==> r == default
    ensures (exists i :: 0 <= i < |xs| && key(xs[i]) == k) ==>
              exists i :: 0 <= i < |xs| && r == xs[i] && key(xs[i]) == k
                          && forall j :: 0 <= j < i ==> key(xs[j]) != k
  {
    if xs == [] then default
    else if key(xs[0]) == k then xs[0]
    else
      var r := FindFirst(xs[1..], key, k, default);
      assert forall i :: 1 <= i < |xs| ==> xs[i] == xs[1..][i - 1];
      r
  }

  /** When the keys of `xs` are pairwise distinct, looking up the key of an element finds that element. */
  lemma FindFirstOfKey<T, K>(xs: seq<T>, key: T -> K, i: int, default: T)
    requires 0 <= i < |xs|
    requires forall a, b :: 0 <= a < b < |xs| ==> key(xs[a]) != key(xs[b])
    ensures FindFirst(xs, key, key(xs[i]), default) == xs[i]
  {
    var r := FindFirst(xs, key, key(xs[i]), default);
    var j :| 0 <= j < |xs| && r == xs[j] && key(xs[j]) == key(xs[i])
             && forall m :: 0 <= m < j ==> key(xs[m]) != key(xs[i]);
    assert j == i;
  }

  /** `s` with its first element equal to `x` removed; `s` itself when `x` is absent. */
  function RemoveFirst<T(==)>(s: seq<T>, x: T): (r: seq<T>)
    ensures x !in s ==> r == s
    ensures x in s ==> exists i :: IsFirstIndex(s, x, i) && r == s[..i] + s[i + 1..]
  {
    if s == [] then []
    else if s[0] == x then
      assert s == [s[0]] + s[1..];
      assert IsFirstIndex(s, x, 0);
      s[1..]
    else
      var rest := RemoveFirst(s[1..], x);
      ConsRemoveFirst(s, x, rest);
      [s[0]] + rest
  }

  lemma ConsRemoveFirst<T>(s: seq<T>, x: T, rest: seq<T>)
    requires s != [] && s[0] != x
    requires x in s[1..] ==> exists i :: IsFirstIndex(s[1..], x, i) && rest == s[1..][..i] + s[1..][i + 1..]
    ensures x in s ==> exists i :: IsFirstIndex(s, x, i) && [s[0]] + rest == s[..i] + s[i + 1..]
  {
    assert s == [s[0]] + s[1..];
    if x in s {
      assert x in s[1..];
      var i :| IsFirstIndex(s[1..], x, i) && rest == s[1..][..i] + s[1..][i + 1..];
      assert IsFirstIndex(s, x, i + 1);
      assert [s[0]] + rest == s[..i + 1] + s[i + 2..];
    }
  }

  /** At the first index of `x`, removing the first `x` cuts out exactly that element. */
  lemma RemoveFirstAt<T>(s: seq<T>, x: T, i: int)
    requires IsFirstIndex(s, x, i)
    ensures RemoveFirst(s, x) == s[..i] + s[i + 1..]
  {
    var r := RemoveFirst(s, x);
    assert s[i] == x;
    var j :| IsFirstIndex(s, x, j) && r == s[..j] + s[j + 1..];
    assert s[j] == x;
  }

  /** Removing the first `x` takes exactly one occurrence of `x` out of the multiset of elements. */
  lemma RemoveFirstMultiset<T>(s: seq<T>, x: T)
    ensures multiset(RemoveFirst(s, x)) == multiset(s) - multiset{x}
  {
    var r := RemoveFirst(s, x);
    if x in s {
      var i :| IsFirstIndex(s, x, i) && r == s[..i] + s[i + 1..];
      SplitMultiset(s, i, r);
    }
  }

  lemma SplitMultiset<T>(s: seq<T>, i: int, r: seq<T>)
    requires 0 <= i < |s| && r == s[..i] + s[i + 1..]
    ensures multiset(r) == multiset(s) - multiset{s[i]}
  {
    var pre, post := s[..i], s[i + 1..];
    assert s == pre + [s[i]] + post;
    assert multiset(s) == multiset(pre) + multiset{s[i]} + multiset(post);
  }

  /** Appending an element and then removing it gives back the original multiset. */
  lemma AddThenRemove<T>(s: seq<T>, x: T)
    ensures multiset(RemoveFirst(s + [x], x)) == multiset(s)
    ensures x !in s ==> RemoveFirst(s + [x], x) == s
  {
    RemoveFirstMultiset(s + [x], x);
    assert multiset(s + [x]) == multiset(s) + multiset{x};
    if x !in s {
      var r := RemoveFirst(s + [x], x);
      var i :| IsFirstIndex(s + [x], x, i) && r == (s + [x])[..i] + (s + [x])[i + 1..];
      assert i == |s|;
      assert (s + [x])[..i] == s;
    }
  }

  /** The elements of `s` that satisfy `p`, in their order in `s`. */
  function Filter<T>(s: seq<T>, p: T -> bool): (r: seq<T>)
    ensures |r| <= |s|
    ensures forall i :: 0 <= i < |r| ==> p(r[i])
  {
    if s == [] then [] else (if p(s[0]) then [s[0]] else []) + Filter(s[1..], p)
  }

  /** Filtering keeps every occurrence of an element that satisfies `p` and none of one that does not. */
  lemma {:induction false} FilterCount<T>(s: seq<T>, p: T -> bool, x: T)
    ensures multiset(Filter(s, p))[x] == if p(x) then multiset(s)[x] else 0
  {
    if s != [] {
      FilterCount(s[1..], p, x);
      assert s == [s[0]] + s[1..];
    }
  }

  /**
    Splitting `s` into a part whose elements satisfy `p` and a part whose
    elements do not yields, up to order, the filter of `s` by `p` and the
    rest.
   */
  lemma SplitIsFilter<T>(s: seq<T>, yes: seq<T>, no: seq<T>, p: T -> bool)
    requires multiset(yes) + multiset(no) == multiset(s)
    requires forall i :: 0 <= i < |yes| ==> p(yes[i])
    requires forall i :: 0 <= i < |no| ==> !p(no[i])
    ensures multiset(yes) == multiset(Filter(s, p))
  {
    var f := Filter(s, p);
    forall x
      ensures multiset(yes)[x] == multiset(f)[x]
    {
      FilterCount(s, p, x);
      SplitCount(s, yes, no, p, x);
    }
    MultisetExt(yes, f);
  }

  lemma MultisetExt<T>(a: seq<T>, b: seq<T>)
    requires forall x :: multiset(a)[x] == multiset(b)[x]
    ensures multiset(a) == multiset(b)
  {
  }

  lemma SplitCount<T>(s: seq<T>, yes: seq<T>, no: seq<T>, p: T -> bool, x: T)
    requires multiset(yes) + multiset(no) == multiset(s)
    requires forall i :: 0 <= i < |yes| ==> p(yes[i])
    requires forall i :: 0 <= i < |no| ==> !p(no[i])
    ensures multiset(yes)[x] == if p(x) then multiset(s)[x] else 0
  {
    assert (multiset(yes) + multiset(no))[x] == multiset(s)[x];
    if p(x) {
      assert x !in no;
    } else {
      assert x !in yes;
    }
  }

  /**
    `vector[i] = vector.back(); vector.pop_back();`: the last element takes
    the place of the `i`-th and the vector shrinks by one.
   */
  function SwapRemove<T>(s: seq<T>, i: int): (r: seq<T>)
    requires 0 <= i < |s|
    ensures |r| == |s| - 1
    ensures forall j :: 0 <= j < |r| && j != i ==> r[j] == s[j]
    ensures i < |r| ==> r[i] == s[|s| - 1]
  {
    s[i := s[|s| - 1]][..|s| - 1]
  }

  /** A swap-remove takes exactly the `i`-th element out of the multiset. */
  lemma SwapRemoveMultiset<T>(s: seq<T>, i: int)
    requires 0 <= i < |s|
    ensures multiset(SwapRemove(s, i)) + multiset{s[i]} == multiset(s)
  {
    var last := |s| - 1;
    var r := SwapRemove(s, i);
    if i == last {
      assert s == r + [s[i]];
    } else {
      assert r == s[..i] + [s[last]] + s[i + 1..last];
      assert s == s[..i] + [s[i]] + s[i + 1..last] + [s[last]];
    }
  }
}
