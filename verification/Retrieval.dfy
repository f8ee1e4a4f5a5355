/**
 The retrieval pool (src/retrieval/pipeline.py:98-109): hits of several searches merged by point,
 keeping the best, sorted and cut.
 */
module Retrieval {
  import opened Prelude
  import opened Ranking

  datatype Hit = Hit(pointId: string, score: real, docId: string, docTitle: string,
                     heading: Option<string>, text: string)

  /** A Python dictionary: its keys in insertion order, and its values. */
  datatype Dict = Dict(order: seq<string>, vals: map<string, Hit>)

  ghost predicate WellFormed(d: Dict) {
    && Distinct(d.order)
    && (forall k :: k in d.order <==> k in d.vals)
    && (forall k :: k in d.vals ==> d.vals[k].pointId == k)
  }

  function Put(d: Dict, h: Hit): Dict {
    if h.pointId !in d.vals then Dict(d.order + [h.pointId], d.vals[h.pointId := h])
    else if h.score > d.vals[h.pointId].score then Dict(d.order, d.vals[h.pointId := h])
    else d
  }

  function PutAll(hits: seq<Hit>): Dict {
    if hits == [] then Dict([], map[]) else Put(PutAll(hits[..|hits| - 1]), hits[|hits| - 1])
  }

  /** The nested loops over the batches. */
  method Dedup(results: seq<seq<Hit>>) returns (order: seq<string>, byId: map<string, Hit>)
    ensures Dict(order, byId) == PutAll(Flatten(results))
  {
    order, byId := [], map[];
    for b := 0 to |results|
      invariant Dict(order, byId) == PutAll(Flatten(results[..b]))
    {
      assert results[..b + 1][..b] == results[..b];
      assert Flatten(results[..b]) + results[b][..0] == Flatten(results[..b]);
      for i := 0 to |results[b]|
        invariant Dict(order, byId) == PutAll(Flatten(results[..b]) + results[b][..i])
      {
        var h := results[b][i];
        PutOneMore(Flatten(results[..b]), results[b], i);
        if h.pointId !in byId {
          order := order + [h.pointId];
          byId := byId[h.pointId := h];
        } else if h.score > byId[h.pointId].score {
          byId := byId[h.pointId := h];
        }
      }
      assert results[b][..|results[b]|] == results[b];
    }
    assert results[..|results|] == results;
  }

  lemma PutOneMore(before: seq<Hit>, batch: seq<Hit>, i: nat)
    requires i < |batch|
    ensures PutAll(before + batch[..i + 1]) == Put(PutAll(before + batch[..i]), batch[i])
  {
    assert (before + batch[..i + 1])[..|before| + i] == before + batch[..i];
  }

  /** The values in insertion order. */
  function Values(d: Dict): (hits: seq<Hit>)
    requires forall k :: k in d.order ==> k in d.vals
    ensures |hits| == |d.order|
    ensures forall i :: 0 <= i < |hits| ==> hits[i] == d.vals[d.order[i]]
  {
    seq(|d.order|, i requires 0 <= i < |d.order| => assert d.order[i] in d.order; d.vals[d.order[i]])
  }

  function Scores(hits: seq<Hit>): (scores: seq<real>)
    ensures |scores| == |hits| && forall i :: 0 <= i < |hits| ==> scores[i] == hits[i].score
  {
    seq(|hits|, i requires 0 <= i < |hits| => hits[i].score)
  }

  function Sorted(hits: seq<Hit>): (r: seq<Hit>)
    ensures |r| == |hits|
  {
    Pick(hits, Rank(Scores(hits)))
  }

  /** `sorted(by_id.values(), ...)[: top_k_search * 2]`. */
  method Pool(results: seq<seq<Hit>>, topK: nat) returns (pool: seq<Hit>)
    ensures pool == PoolOf(Flatten(results), topK)
  {
    var order, byId := Dedup(results);
    DictWellFormed(Flatten(results));
    pool := Slice(Sorted(Values(Dict(order, byId))), topK * 2);
  }

  ghost function PoolOf(hits: seq<Hit>, topK: nat): seq<Hit> {
    DictWellFormed(hits);
    Slice(Sorted(Values(PutAll(hits))), topK * 2)
  }

  // ---- the dictionary ------------------------------------------------------

  lemma {:induction false} DictWellFormed(hits: seq<Hit>)
    ensures WellFormed(PutAll(hits))
  {
    if hits != [] {
      DictWellFormed(hits[..|hits| - 1]);
    }
  }

  /** `best` is a hit of point `id` and no hit of that point scores higher. */
  ghost predicate IsBest(hits: seq<Hit>, id: string, best: Hit) {
    && best in hits && best.pointId == id
    && forall h :: h in hits && h.pointId == id ==> h.score <= best.score
  }

  lemma {:induction false} DictKeepsBest(hits: seq<Hit>)
    ensures forall h :: h in hits ==> h.pointId in PutAll(hits).vals
    ensures forall id :: id in PutAll(hits).vals ==> IsBest(hits, id, PutAll(hits).vals[id])
  {
    if hits != [] {
      var front, h := hits[..|hits| - 1], hits[|hits| - 1];
      assert hits == front + [h];
      DictKeepsBest(front);
      DictWellFormed(front);
      var d, d' := PutAll(front), PutAll(hits);
      forall id | id in d'.vals ensures IsBest(hits, id, d'.vals[id]) {
        if id in d.vals {
          assert IsBest(front, id, d.vals[id]);
        } else {
          assert forall x :: x in front ==> x.pointId != id;
        }
      }
    }
  }

  ghost function BestScores(hits: seq<Hit>): map<string, real> {
    map id | id in PutAll(hits).vals :: PutAll(hits).vals[id].score
  }

  /** The best score of every point depends only on which hits there are, not on the order of the
      batches or of the hits within them. */
  lemma BestScoresIgnoreOrder(a: seq<Hit>, b: seq<Hit>)
    requires forall h :: h in a <==> h in b
    ensures BestScores(a) == BestScores(b)
  {
    DictKeepsBest(a);
    DictKeepsBest(b);
    forall id ensures id in PutAll(a).vals <==> id in PutAll(b).vals {
      if id in PutAll(a).vals {
        assert IsBest(a, id, PutAll(a).vals[id]);
      }
      if id in PutAll(b).vals {
        assert IsBest(b, id, PutAll(b).vals[id]);
      }
    }
    forall id | id in PutAll(a).vals ensures BestScores(a)[id] == BestScores(b)[id] {
      assert IsBest(a, id, PutAll(a).vals[id]) && IsBest(b, id, PutAll(b).vals[id]);
    }
  }

  lemma {:induction false} FlattenMembers<T>(parts: seq<seq<T>>, x: T)
    ensures x in Flatten(parts) <==> exists p :: p in parts && x in p
  {
    if parts != [] {
      FlattenMembers(parts[..|parts| - 1], x);
      assert parts == parts[..|parts| - 1] + [parts[|parts| - 1]];
      if x in parts[|parts| - 1] {
        assert parts[|parts| - 1] in parts;
      }
    }
  }

  /** Permuting the batches leaves every best score as it is. */
  lemma BatchOrderDoesNotMatter(a: seq<seq<Hit>>, b: seq<seq<Hit>>)
    requires multiset(a) == multiset(b)
    ensures BestScores(Flatten(a)) == BestScores(Flatten(b))
  {
    forall h ensures h in Flatten(a) <==> h in Flatten(b) {
      FlattenMembers(a, h);
      FlattenMembers(b, h);
      forall p ensures p in a <==> p in b {
        assert p in a <==> p in multiset(a);
        assert p in b <==> p in multiset(b);
      }
    }
    BestScoresIgnoreOrder(Flatten(a), Flatten(b));
  }

  // ---- the pool ------------------------------------------------------------

  lemma SortedIs(hits: seq<Hit>)
    ensures forall i, j :: 0 <= i < j < |hits| ==> Sorted(hits)[i].score >= Sorted(hits)[j].score
    ensures forall h :: h in hits <==> h in Sorted(hits)
  {
    var scores := Scores(hits);
    var ranked := Rank(scores);
    RankIsRanking(scores);
    forall i, j | 0 <= i < j < |hits| ensures Sorted(hits)[i].score >= Sorted(hits)[j].score {
      assert Before(scores, ranked[i], ranked[j]);
    }
    forall h | h in hits ensures h in Sorted(hits) {
      var k :| 0 <= k < |hits| && hits[k] == h;
      assert k in ranked;
      var i :| 0 <= i < |ranked| && ranked[i] == k;
      assert Sorted(hits)[i] == h;
    }
  }

  lemma SortedDistinct(hits: seq<Hit>)
    requires forall i, j :: 0 <= i < j < |hits| ==> hits[i].pointId != hits[j].pointId
    ensures forall i, j :: 0 <= i < j < |hits| ==> Sorted(hits)[i].pointId != Sorted(hits)[j].pointId
  {
    var ranked := Rank(Scores(hits));
    RankIsRanking(Scores(hits));
    forall i, j | 0 <= i < j < |hits| ensures Sorted(hits)[i].pointId != Sorted(hits)[j].pointId {
      assert ranked[i] != ranked[j];
    }
  }

  /** All points with their best hits, sorted; the pool is its beginning. */
  ghost function Everything(hits: seq<Hit>): seq<Hit> {
    DictWellFormed(hits);
    Sorted(Values(PutAll(hits)))
  }

  lemma EverythingIsBest(hits: seq<Hit>)
    ensures forall h :: h in Everything(hits) ==> IsBest(hits, h.pointId, h)
    ensures forall i, j :: 0 <= i < j < |Everything(hits)| ==>
              Everything(hits)[i].pointId != Everything(hits)[j].pointId &&
              Everything(hits)[i].score >= Everything(hits)[j].score
  {
    DictWellFormed(hits);
    DictKeepsBest(hits);
    var d := PutAll(hits);
    var values := Values(d);
    forall i | 0 <= i < |values| ensures IsBest(hits, values[i].pointId, values[i]) {
      assert d.order[i] in d.order;
    }
    forall i, j | 0 <= i < j < |values| ensures values[i].pointId != values[j].pointId {
      assert d.order[i] in d.order && d.order[j] in d.order;
      assert d.order[i] != d.order[j];
    }
    SortedIs(values);
    SortedDistinct(values);
  }

  lemma EveryPointIsThere(hits: seq<Hit>, h: Hit)
    requires h in hits
    ensures exists j :: 0 <= j < |Everything(hits)| && Everything(hits)[j].pointId == h.pointId
  {
    DictWellFormed(hits);
    DictKeepsBest(hits);
    var d := PutAll(hits);
    assert h.pointId in d.vals && h.pointId in d.order;
    var i :| 0 <= i < |d.order| && d.order[i] == h.pointId;
    var value := Values(d)[i];
    assert value in Values(d);
    SortedIs(Values(d));
    assert value in Everything(hits);
  }

  /** The pool names each point at most once, with its best hit, in descending order. */
  lemma PoolIsBest(hits: seq<Hit>, topK: nat)
    ensures |PoolOf(hits, topK)| <= topK * 2
    ensures forall h :: h in PoolOf(hits, topK) ==> IsBest(hits, h.pointId, h)
    ensures forall i, j :: 0 <= i < j < |PoolOf(hits, topK)| ==>
              PoolOf(hits, topK)[i].pointId != PoolOf(hits, topK)[j].pointId &&
              PoolOf(hits, topK)[i].score >= PoolOf(hits, topK)[j].score
  {
    EverythingIsBest(hits);
    assert PoolOf(hits, topK) <= Everything(hits);
  }

  lemma BeyondTheCut(all: seq<Hit>, n: nat, j: nat, x: Hit)
    requires forall i, k :: 0 <= i < k < |all| ==> all[i].score >= all[k].score
    requires j < |all| && x in Slice(all, n)
    requires forall y :: y in Slice(all, n) ==> y.pointId != all[j].pointId
    ensures |Slice(all, n)| == n && all[j].score <= x.score
  {
    var pool := Slice(all, n);
    assert pool <= all;
    assert forall i :: 0 <= i < |pool| ==> pool[i] in pool && pool[i] == all[i];
    assert j >= |pool|;
    var k :| 0 <= k < |pool| && pool[k] == x;
    assert all[k].score >= all[j].score;
  }

  /** A point is left out only when the pool is full, and then its best score is no higher than
      any score in the pool. */
  lemma LeftOutIsWorse(hits: seq<Hit>, topK: nat, h: Hit, x: Hit)
    requires h in hits && x in PoolOf(hits, topK)
    requires forall y :: y in PoolOf(hits, topK) ==> y.pointId != h.pointId
    ensures |PoolOf(hits, topK)| == topK * 2 && h.score <= x.score
  {
    var all := Everything(hits);
    EverythingIsBest(hits);
    EveryPointIsThere(hits, h);
    var j :| 0 <= j < |all| && all[j].pointId == h.pointId;
    BeyondTheCut(all, topK * 2, j, x);
    assert all[j] in all;
    assert IsBest(hits, h.pointId, all[j]);
  }

  // ---- how many points -----------------------------------------------------

  /** The points that have a hit. */
  ghost function PointIds(hits: seq<Hit>): set<string> {
    set h | h in hits :: h.pointId
  }

  lemma {:induction false} DistinctCount<T(!new)>(s: seq<T>, all: set<T>)
    requires Distinct(s) && forall x :: x in s <==> x in all
    ensures |s| == |all|
  {
    if s == [] {
      assert all == {};
    } else {
      var front, last := s[..|s| - 1], s[|s| - 1];
      assert s == front + [last];
      assert last !in front;
      DistinctCount(front, all - {last});
    }
  }

  lemma EverythingCount(hits: seq<Hit>)
    ensures |Everything(hits)| == |PointIds(hits)|
  {
    DictWellFormed(hits);
    DictKeepsBest(hits);
    var d := PutAll(hits);
    forall id ensures id in d.order <==> id in PointIds(hits) {
      if id in d.vals {
        assert IsBest(hits, id, d.vals[id]);
      }
    }
    DistinctCount(d.order, PointIds(hits));
  }

  // ---- what the reranker is offered ----------------------------------------

  /** `offered` are the best hits of `n` different points, in descending order, and every hit of any other
      point scores no higher than all of them. */
  ghost predicate Offered(hits: seq<Hit>, n: nat, offered: seq<Hit>) {
    && |offered| == n
    && (forall h :: h in offered ==> IsBest(hits, h.pointId, h))
    && (forall i, j :: 0 <= i < j < n ==>
          offered[i].pointId != offered[j].pointId && offered[i].score >= offered[j].score)
    && (forall h, o :: h in hits && o in offered ==> h.score <= o.score || HasPoint(offered, h.pointId))
  }

  ghost predicate HasPoint(hits: seq<Hit>, id: string) {
    exists i :: 0 <= i < |hits| && hits[i].pointId == id
  }

  lemma OthersScoreLower(hits: seq<Hit>, n: nat, h: Hit, o: Hit)
    requires n <= |Everything(hits)| && h in hits && o in Everything(hits)[..n]
    ensures h.score <= o.score || HasPoint(Everything(hits)[..n], h.pointId)
  {
    var all, offered := Everything(hits), Everything(hits)[..n];
    EverythingIsBest(hits);
    EveryPointIsThere(hits, h);
    hide Everything;
    var j :| 0 <= j < |all| && all[j].pointId == h.pointId;
    assert all[j] in all && IsBest(hits, h.pointId, all[j]);
    if j < n {
      assert offered[j].pointId == h.pointId;
    } else {
      var i :| 0 <= i < |offered| && offered[i] == o;
      assert all[i].score >= all[j].score;
    }
  }

  lemma PrefixOffered(hits: seq<Hit>, n: nat)
    requires n <= |Everything(hits)|
    ensures Offered(hits, n, Everything(hits)[..n])
  {
    var all, offered := Everything(hits), Everything(hits)[..n];
    EverythingIsBest(hits);
    hide Everything, IsBest, HasPoint;
    forall h | h in offered ensures IsBest(hits, h.pointId, h) {
      assert h in all;
    }
    forall h, o | h in hits && o in offered ensures h.score <= o.score || HasPoint(offered, h.pointId) {
      OthersScoreLower(hits, n, h, o);
    }
  }

  /** The beginning of the pool, at most `max` hits of it. */
  lemma PoolOffered(hits: seq<Hit>, topK: nat, max: nat)
    ensures var pool, points := PoolOf(hits, topK), |PointIds(hits)|;
            var n := if points < topK * 2 then points else topK * 2;
            && |pool| == n
            && Offered(hits, if n <= max then n else max, if |pool| <= max then pool else pool[..max])
  {
    var all, pool := Everything(hits), PoolOf(hits, topK);
    EverythingCount(hits);
    assert pool == if topK * 2 >= |all| then all else all[..topK * 2];
    var n := if |pool| <= max then |pool| else max;
    assert all[..n] == if |pool| <= max then pool else pool[..max];
    PrefixOffered(hits, n);
  }

  // ---- ties ----------------------------------------------------------------

  /** `p` is the first hit of its point. */
  ghost predicate FirstHit(hits: seq<Hit>, id: string, p: nat) {
    p < |hits| && hits[p].pointId == id && forall q :: 0 <= q < p ==> hits[q].pointId != id
  }

  /** The dictionary lists the points in the order of their first hits. */
  lemma {:induction false} OrderIsByFirstHit(hits: seq<Hit>, i: nat, j: nat, p: nat, q: nat)
    requires i < j < |PutAll(hits).order|
    requires FirstHit(hits, PutAll(hits).order[i], p) && FirstHit(hits, PutAll(hits).order[j], q)
    ensures p < q
  {
    if hits != [] {
      var front, d := hits[..|hits| - 1], PutAll(hits);
      DictWellFormed(front);
      DictKeepsBest(front);
      assert PutAll(front).order <= d.order;
      assert forall x :: 0 <= x < |PutAll(front).order| ==> PutAll(front).order[x] in PutAll(front).vals;
      var a := d.order[i];
      assert a in PutAll(front).vals;
      FirstInFront(hits, a, p);
      if j < |PutAll(front).order| {
        FirstInFront(hits, d.order[j], q);
        OrderIsByFirstHit(front, i, j, p, q);
      } else {
        assert d.order[j] == hits[|front|].pointId && d.order[j] !in PutAll(front).vals;
        assert forall x :: 0 <= x < |front| ==> front[x] in front && hits[x].pointId in PutAll(front).vals;
      }
    }
  }

  lemma FirstInFront(hits: seq<Hit>, id: string, p: nat)
    requires hits != [] && FirstHit(hits, id, p) && id in PutAll(hits[..|hits| - 1]).vals
    ensures FirstHit(hits[..|hits| - 1], id, p)
  {
    var front := hits[..|hits| - 1];
    DictKeepsBest(front);
    assert IsBest(front, id, PutAll(front).vals[id]);
    var k :| 0 <= k < |front| && front[k] == PutAll(front).vals[id];
    assert hits[k].pointId == id;
    assert p <= k;
  }

  /** `best` is the first of the highest hits of its point. */
  ghost predicate FirstBest(hits: seq<Hit>, best: Hit, p: nat) {
    && p < |hits| && hits[p] == best
    && forall q :: 0 <= q < p && hits[q].pointId == best.pointId ==> hits[q].score < best.score
  }

  /** Of equally high hits of a point the dictionary keeps the first. */
  lemma {:induction false} DictKeepsFirstBest(hits: seq<Hit>, id: string)
    requires id in PutAll(hits).vals
    ensures exists p :: FirstBest(hits, PutAll(hits).vals[id], p)
  {
    if hits != [] {
      var front, h := hits[..|hits| - 1], hits[|hits| - 1];
      DictWellFormed(front);
      DictKeepsBest(front);
      assert forall q :: 0 <= q < |front| ==> hits[q] == front[q] && front[q] in front;
      if id in PutAll(front).vals {
        var old_ := PutAll(front).vals[id];
        assert IsBest(front, id, old_);
        DictKeepsFirstBest(front, id);
        var p :| FirstBest(front, old_, p);
        if PutAll(hits).vals[id] == old_ {
          assert FirstBest(hits, old_, p);
        } else {
          assert FirstBest(hits, h, |front|);
        }
      } else {
        assert FirstBest(hits, h, |front|);
      }
    }
  }

  /** In the pool, equal scores stand in the order of the first hits of their points. */
  lemma TiesByFirstHit(hits: seq<Hit>, topK: nat, i: nat, j: nat, p: nat, q: nat)
    requires i < j < |PoolOf(hits, topK)| && PoolOf(hits, topK)[i].score == PoolOf(hits, topK)[j].score
    requires FirstHit(hits, PoolOf(hits, topK)[i].pointId, p) && FirstHit(hits, PoolOf(hits, topK)[j].pointId, q)
    ensures p < q
  {
    DictWellFormed(hits);
    var d := PutAll(hits);
    var values := Values(d);
    var ranked := Rank(Scores(values));
    RankIsRanking(Scores(values));
    assert PoolOf(hits, topK)[i] == values[ranked[i]] && PoolOf(hits, topK)[j] == values[ranked[j]];
    assert Before(Scores(values), ranked[i], ranked[j]);
    assert d.order[ranked[i]] in d.order && d.order[ranked[j]] in d.order;
    OrderIsByFirstHit(hits, ranked[i], ranked[j], p, q);
  }
}
