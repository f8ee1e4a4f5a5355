/**
 Python's `sort(key=..., reverse=True)` as a ranking of positions: descending by score, equal
 scores in their original order.
 */
module Ranking {
  import opened Prelude

  /** `i` comes before `j` in the stable descending order. */
  predicate Before(scores: seq<real>, i: nat, j: nat)
    requires i < |scores| && j < |scores|
  {
    scores[i] > scores[j] || (scores[i] == scores[j] && i < j)
  }

  /** Insert the newest position behind every position that does not score less. */
  function Insert(scores: seq<real>, ranked: seq<nat>, n: nat): seq<nat>
    requires n < |scores| && forall i :: 0 <= i < |ranked| ==> ranked[i] < |scores|
  {
    if ranked == [] || scores[ranked[|ranked| - 1]] >= scores[n] then ranked + [n]
    else Insert(scores, ranked[..|ranked| - 1], n) + [ranked[|ranked| - 1]]
  }

  ghost predicate Positions(ranked: seq<nat>, n: nat) {
    && |ranked| == n
    && (forall i :: 0 <= i < n ==> ranked[i] < n)
    && (forall k :: 0 <= k < n ==> k in ranked)
    && Distinct(ranked)
  }

  ghost predicate Ordered(scores: seq<real>, ranked: seq<nat>)
    requires forall i :: 0 <= i < |ranked| ==> ranked[i] < |scores|
  {
    forall i, j :: 0 <= i < j < |ranked| ==> Before(scores, ranked[i], ranked[j])
  }

  /** The first `n` positions, ranked. */
  function RankFirst(scores: seq<real>, n: nat): (ranked: seq<nat>)
    requires n <= |scores|
    ensures |ranked| == n && forall i :: 0 <= i < n ==> ranked[i] < |scores|
  {
    if n == 0 then []
    else
      var front := RankFirst(scores, n - 1);
      InsertLength(scores, front, n - 1);
      Insert(scores, front, n - 1)
  }

  lemma {:induction false} InsertLength(scores: seq<real>, ranked: seq<nat>, n: nat)
    requires n < |scores| && forall i :: 0 <= i < |ranked| ==> ranked[i] < |scores|
    ensures |Insert(scores, ranked, n)| == |ranked| + 1
    ensures forall i :: 0 <= i < |ranked| + 1 ==> Insert(scores, ranked, n)[i] < |scores|
  {
    if !(ranked == [] || scores[ranked[|ranked| - 1]] >= scores[n]) {
      InsertLength(scores, ranked[..|ranked| - 1], n);
    }
  }

  function Rank(scores: seq<real>): (ranked: seq<nat>)
    ensures |ranked| == |scores| && forall i :: 0 <= i < |ranked| ==> ranked[i] < |scores|
  {
    RankFirst(scores, |scores|)
  }

  /** Inserting keeps the others and puts the new position in its place. */
  lemma {:induction false} InsertOrdered(scores: seq<real>, ranked: seq<nat>, n: nat)
    requires n < |scores| && forall i :: 0 <= i < |ranked| ==> ranked[i] < n
    requires Ordered(scores, ranked)
    ensures |Insert(scores, ranked, n)| == |ranked| + 1
    ensures forall k :: k in Insert(scores, ranked, n) <==> k in ranked || k == n
    ensures forall i :: 0 <= i < |ranked| + 1 ==> Insert(scores, ranked, n)[i] <= n
    ensures Ordered(scores, Insert(scores, ranked, n))
  {
    if ranked == [] || scores[ranked[|ranked| - 1]] >= scores[n] {
      forall i | 0 <= i < |ranked| ensures Before(scores, ranked[i], n) {
        if i < |ranked| - 1 {
          assert Before(scores, ranked[i], ranked[|ranked| - 1]);
        }
      }
    } else {
      var front, last := ranked[..|ranked| - 1], ranked[|ranked| - 1];
      InsertOrdered(scores, front, n);
      var r := Insert(scores, front, n);
      assert ranked == front + [last];
      forall i | 0 <= i < |r| ensures Before(scores, r[i], last) {
        assert r[i] in r;
        if r[i] != n {
          var j :| 0 <= j < |front| && front[j] == r[i];
          assert Before(scores, ranked[j], ranked[|ranked| - 1]);
        }
      }
    }
  }

  lemma OrderedIsDistinct(scores: seq<real>, ranked: seq<nat>)
    requires forall i :: 0 <= i < |ranked| ==> ranked[i] < |scores|
    requires Ordered(scores, ranked)
    ensures Distinct(ranked)
  {
    forall i, j | 0 <= i < j < |ranked| ensures ranked[i] != ranked[j] {
      assert Before(scores, ranked[i], ranked[j]);
    }
  }

  lemma {:induction false} RankFirstIsRanking(scores: seq<real>, n: nat)
    requires n <= |scores|
    ensures Positions(RankFirst(scores, n), n) && Ordered(scores, RankFirst(scores, n))
  {
    if n > 0 {
      RankFirstIsRanking(scores, n - 1);
      InsertOrdered(scores, RankFirst(scores, n - 1), n - 1);
    }
    OrderedIsDistinct(scores, RankFirst(scores, n));
  }

  /** The ranking is a permutation of the positions in stable descending order. */
  lemma RankIsRanking(scores: seq<real>)
    ensures Positions(Rank(scores), |scores|) && Ordered(scores, Rank(scores))
  {
    RankFirstIsRanking(scores, |scores|);
  }

  /** There is only one stable descending order. */
  lemma {:induction false} RankingIsUnique(scores: seq<real>, a: seq<nat>, b: seq<nat>)
    requires |a| == |b| && (forall k :: k in a <==> k in b)
    requires forall i :: 0 <= i < |a| ==> a[i] < |scores| && b[i] < |scores|
    requires Ordered(scores, a) && Ordered(scores, b)
    ensures a == b
  {
    if a != [] {
      var x, y := a[0], b[0];
      assert x in b && y in a;
      var i :| 0 <= i < |b| && b[i] == x;
      var j :| 0 <= j < |a| && a[j] == y;
      assert i > 0 ==> Before(scores, y, x);
      assert j > 0 ==> Before(scores, x, y);
      assert x == y;
      OrderedIsDistinct(scores, a);
      OrderedIsDistinct(scores, b);
      assert a == [x] + a[1..] && b == [x] + b[1..];
      forall k ensures k in a[1..] <==> k in b[1..] {
        assert k in a[1..] <==> k in a && k != x;
        assert k in b[1..] <==> k in b && k != x;
      }
      RankingIsUnique(scores, a[1..], b[1..]);
    }
  }

  /** `xs[:k]` as Python slices it. */
  function Slice<T>(xs: seq<T>, k: int): seq<T> {
    if k >= |xs| then xs else if k >= 0 then xs[..k] else if -k <= |xs| then xs[..|xs| + k] else []
  }
}
