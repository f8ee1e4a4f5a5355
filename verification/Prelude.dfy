/** Sequence vocabulary shared by the component models. */
module Prelude {

  datatype Option<+T> = None | Some(value: T)

  /** The last `n` elements of `s`, or all of `s` when it is shorter. */
  function Last<T>(s: seq<T>, n: nat): (r: seq<T>)
    ensures |r| == if |s| < n then |s| else n
  {
    if |s| <= n then s else s[|s| - n..]
  }

  /** The elements of `xs` at the positions `at`. */
  function Pick<T>(xs: seq<T>, at: seq<nat>): (r: seq<T>)
    requires forall i :: 0 <= i < |at| ==> at[i] < |xs|
    ensures |r| == |at| && forall i :: 0 <= i < |at| ==> r[i] == xs[at[i]]
  {
    seq(|at|, i requires 0 <= i < |at| => xs[at[i]])
  }

  ghost predicate Distinct<T(!new)>(s: seq<T>) {
    forall i, j :: 0 <= i < j < |s| ==> s[i] != s[j]
  }

  /** `s` without its occurrences of `x`, the order of the others kept. */
  function Without<T(==, !new)>(s: seq<T>, x: T): (r: seq<T>)
    ensures forall y :: y in r <==> y in s && y != x
    ensures x !in s ==> r == s
    ensures |r| <= |s|
  {
    if s == [] then []
    else
      var rest := Without(s[..|s| - 1], x);
      var last := s[|s| - 1];
      assert s == s[..|s| - 1] + [last];
      if last == x then rest else rest + [last]
  }

  lemma WithoutConcat<T(!new)>(a: seq<T>, b: seq<T>, x: T)
    ensures Without(a + b, x) == Without(a, x) + Without(b, x)
  {
    if b == [] {
      assert a + b == a;
    } else {
      assert (a + b)[..|a + b| - 1] == a + b[..|b| - 1];
      WithoutConcat(a, b[..|b| - 1], x);
    }
  }

  lemma WithoutDistinct<T(!new)>(s: seq<T>, x: T)
    requires Distinct(s)
    ensures Distinct(Without(s, x))
    ensures |Without(s, x)| == if x in s then |s| - 1 else |s|
  {
    if s != [] {
      var front, last := s[..|s| - 1], s[|s| - 1];
      assert s == front + [last];
      WithoutDistinct(front, x);
      assert last !in front;
    }
  }

  lemma SamePrefix<T>(n: seq<T>, x: seq<T>, y: seq<T>)
    requires n + x == n + y
    ensures x == y
  {
    assert x == (n + x)[|n|..] && y == (n + y)[|n|..];
  }

  /** The elements of a list of lists, in order. */
  function Flatten<T>(parts: seq<seq<T>>): seq<T> {
    if parts == [] then [] else Flatten(parts[..|parts| - 1]) + parts[|parts| - 1]
  }

  lemma FlattenAppend<T>(parts: seq<seq<T>>, last: seq<T>)
    ensures Flatten(parts + [last]) == Flatten(parts) + last
  {
    assert (parts + [last])[..|parts|] == parts;
  }

  /** `a` can be obtained from `b` by deleting elements. */
  ghost predicate Subsequence<T>(a: seq<T>, b: seq<T>)
    decreases |b|
  {
    if a == [] then true
    else if b == [] then false
    else if a[|a| - 1] == b[|b| - 1] && Subsequence(a[..|a| - 1], b[..|b| - 1]) then true
    else Subsequence(a, b[..|b| - 1])
  }
}
