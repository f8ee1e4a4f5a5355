/**
 Long-term memory: `save_fact` (src/memory/long_term.py:27-91) and the loop of `extract_facts`
 (src/worker/tasks/memory.py:70-86). Similarity search is exact; saves run one after the other.
 */
module LongTermMemory {
  import opened Prelude

  type UserId = nat
  type PointId = nat
  type Vector = seq<real>

  const THRESHOLD: real := 0.92
  const KEY_COLUMN: nat := 128

  /** A row of `user_facts`; its key column holds at most 128 characters. */
  datatype Row = Row(user: UserId, key: string, value: string, confidence: real, point: PointId)

  /** A point of the `memory` collection; its payload keeps the whole key. */
  datatype Point = Point(user: UserId, key: string, value: string, confidence: real, vector: Vector)

  /** A fact as the language model states it. */
  datatype Fact = Fact(key: string, value: string, confidence: Option<real>)

  /** The embedding service and the similarity of the vector store. */
  datatype Model = Model(embed: string -> Vector, similarity: (Vector, Vector) -> real)

  /** Similarity is symmetric, and a vector is a duplicate of itself. */
  ghost predicate Sane(model: Model) {
    && (forall v, w :: model.similarity(v, w) == model.similarity(w, v))
    && (forall text :: model.similarity(model.embed(text), model.embed(text)) >= THRESHOLD)
  }

  function FactText(key: string, value: string): string {
    key + ": " + value
  }

  function VectorOf(model: Model, key: string, value: string): Vector {
    model.embed(FactText(key, value))
  }

  /** Some stored point of this user and key is within the threshold. */
  ghost predicate Known(model: Model, points: map<PointId, Point>, user: UserId, key: string, v: Vector) {
    exists p :: p in points && points[p].user == user && points[p].key == key &&
                model.similarity(v, points[p].vector) >= THRESHOLD
  }

  /** `float(f.get("confidence") or 0.8)`: a missing or zero confidence counts as 0.8. */
  function ConfidenceOf(f: Fact): (c: real)
    ensures c != 0.0 && (f.confidence == Some(c) || (c == 0.8 && (f.confidence.None? || f.confidence.value == 0.0)))
  {
    if f.confidence.None? || f.confidence.value == 0.0 then 0.8 else f.confidence.value
  }

  function Truncate(key: string): string {
    if |key| > KEY_COLUMN then key[..KEY_COLUMN] else key
  }

  class Memory {
    const model: Model
    var rows: seq<Row>
    var points: map<PointId, Point>

    constructor (model: Model)
      ensures this.model == model && rows == [] && points == map[]
    {
      this.model := model;
      rows, points := [], map[];
    }

    /** The exact top-1 search of the vector store, filtered by user and key. */
    method Search(v: Vector, user: UserId, key: string) returns (hit: Option<PointId>)
      ensures hit.None? <==> Candidates(points, user, key) == {}
      ensures hit.Some? ==> hit.value in Candidates(points, user, key)
      ensures hit.Some? ==> forall p :: p in Candidates(points, user, key) ==>
                model.similarity(v, points[p].vector) <= model.similarity(v, points[hit.value].vector)
    {
      hit := None;
      var left := Candidates(points, user, key);
      ghost var all := left;
      while left != {}
        invariant left <= all
        invariant hit.None? ==> left == all
        invariant hit.Some? ==> hit.value in all
        invariant hit.Some? ==> forall p :: p in all - left ==>
                    model.similarity(v, points[p].vector) <= model.similarity(v, points[hit.value].vector)
        decreases |left|
      {
        var p :| p in left;
        left := left - {p};
        if hit.None? || model.similarity(v, points[hit.value].vector) < model.similarity(v, points[p].vector) {
          hit := Some(p);
        }
      }
    }

    /** `save_fact`: skip a fact within the threshold of a stored one, else write the row and then
        the point. `crashes` says that the worker dies between the two writes. */
    method SaveFact(user: UserId, key: string, value: string, confidence: real, id: PointId, crashes: bool)
      returns (saved: bool)
      requires id !in points
      modifies this
      ensures saved <==> !Known(model, old(points), user, key, VectorOf(model, key, value))
      ensures saved <==>
                !exists p :: p in old(points) && old(points)[p].user == user && old(points)[p].key == key &&
                             model.similarity(model.embed(key + ": " + value), old(points)[p].vector) >= 0.92
      ensures saved ==>
                rows == old(rows) + [Row(user, if |key| <= 128 then key else key[..128], value, confidence, id)]
      ensures points == if !saved || crashes then old(points)
                        else old(points)[id := Point(user, key, value, confidence, model.embed(key + ": " + value))]
      ensures !saved ==> rows == old(rows) && points == old(points)
      ensures saved ==> rows == old(rows) + [Row(user, Truncate(key), value, confidence, id)]
      ensures saved && crashes ==> points == old(points)
      ensures (rows, points) ==
              AfterSave(model, (old(rows), old(points)), Save(user, key, value, confidence, id, crashes))
      ensures saved && !crashes ==>
                points == old(points)[id := Point(user, key, value, confidence, VectorOf(model, key, value))]
    {
      var v := VectorOf(model, key, value);
      var hit := Search(v, user, key);
      assert forall p :: p in points && points[p].user == user && points[p].key == key ==>
                           p in Candidates(points, user, key);
      if hit.Some? && model.similarity(v, points[hit.value].vector) >= THRESHOLD {
        return false;
      }
      rows := rows + [Row(user, Truncate(key), value, confidence, id)];
      if !crashes {
        points := points[id := Point(user, key, value, confidence, v)];
      }
      saved := true;
    }

    /** The loop of `extract_facts`, without crashes. The ids are fresh. */
    method SaveAll(user: UserId, facts: seq<Fact>, draw: nat -> PointId) returns (saved: nat)
      requires FreshIds(draw, points)
      modifies this
      ensures Stores(rows, points, saved) == AfterAll(model, Stores(old(rows), old(points), 0), user, facts, draw)
    {
      saved := 0;
      for i := 0 to |facts|
        invariant saved <= i && FreshFrom(draw, saved, points)
        invariant Stores(rows, points, saved) ==
                  AfterAll(model, Stores(old(rows), old(points), 0), user, facts[..i], draw)
      {
        assert facts[..i + 1][..i] == facts[..i];
        ghost var before := Stores(rows, points, saved);
        var key, value := Strip(facts[i].key), Strip(facts[i].value);
        if key != "" && value != "" {
          var ok := SaveFact(user, key, value, ConfidenceOf(facts[i]), draw(saved), false);
          if ok {
            saved := saved + 1;
          }
        }
        assert Stores(rows, points, saved) == AfterFact(model, before, user, facts[i], draw);
      }
      assert facts[..|facts|] == facts;
    }
  }

  // ---- specification -------------------------------------------------------

  function Candidates(points: map<PointId, Point>, user: UserId, key: string): set<PointId> {
    set p | p in points && points[p].user == user && points[p].key == key
  }

  /** The characters that `str.strip` removes. */
  predicate IsSpace(c: char) {
    var n := c as int;
    || 9 <= n <= 13 || 28 <= n <= 32 || n in {0x85, 0xA0, 0x1680} || 0x2000 <= n <= 0x200A
    || n in {0x2028, 0x2029, 0x202F, 0x205F, 0x3000}
  }

  function StripStart(s: string): string {
    if s != "" && IsSpace(s[0]) then StripStart(s[1..]) else s
  }

  function StripEnd(s: string): string {
    if s != "" && IsSpace(s[|s| - 1]) then StripEnd(s[..|s| - 1]) else s
  }

  function Strip(s: string): string {
    StripEnd(StripStart(s))
  }

  /** Stripping leaves a run of the text, takes only white space away, and stops at the first and last
      character that is none. */
  ghost predicate IsStripped(r: string, s: string, lo: nat) {
    && lo + |r| <= |s| && r == s[lo..lo + |r|]
    && (forall k :: 0 <= k < |s| && !(lo <= k < lo + |r|) ==> IsSpace(s[k]))
    && (r != "" ==> !IsSpace(r[0]) && !IsSpace(r[|r| - 1]))
  }

  lemma {:induction false} StripStartIs(s: string) returns (lo: nat)
    ensures lo <= |s| && StripStart(s) == s[lo..] && forall k :: 0 <= k < lo ==> IsSpace(s[k])
    ensures StripStart(s) != "" ==> !IsSpace(StripStart(s)[0])
  {
    lo := 0;
    if s != "" && IsSpace(s[0]) {
      lo := StripStartIs(s[1..]);
      assert s[1..][lo..] == s[lo + 1..];
      assert forall k :: 0 < k < lo + 1 ==> s[k] == s[1..][k - 1];
      lo := lo + 1;
    }
  }

  lemma {:induction false} StripEndIs(s: string)
    ensures StripEnd(s) <= s && forall k :: |StripEnd(s)| <= k < |s| ==> IsSpace(s[k])
    ensures StripEnd(s) != "" ==> !IsSpace(StripEnd(s)[|StripEnd(s)| - 1])
  {
    if s != "" && IsSpace(s[|s| - 1]) {
      StripEndIs(s[..|s| - 1]);
    }
  }

  lemma StripIsStripped(s: string)
    ensures exists lo :: IsStripped(Strip(s), s, lo)
  {
    var lo := StripStartIs(s);
    var t := StripStart(s);
    StripEndIs(t);
    hide StripStart, StripEnd, IsSpace;
    var r := Strip(s);
    assert r <= t && t == s[lo..];
    assert forall k :: |r| <= k < |t| ==> t[k] == s[lo + k];
    forall k | lo + |r| <= k < |s| ensures IsSpace(s[k]) {
      assert t[k - lo] == s[k];
    }
    assert r == s[lo..lo + |r|];
    assert IsStripped(r, s, lo);
  }

  /** A fact is worth saving if and only if key and value each hold a character that is no white space. */
  lemma UsableIff(f: Fact)
    ensures Usable(f) <==> (exists c :: c in f.key && !IsSpace(c)) && (exists c :: c in f.value && !IsSpace(c))
  {
    BlankIff(f.key);
    BlankIff(f.value);
  }

  lemma BlankIff(s: string)
    ensures Strip(s) != "" <==> exists c :: c in s && !IsSpace(c)
  {
    StripIsStripped(s);
    var r := Strip(s);
    var lo: nat :| IsStripped(r, s, lo);
    if r != "" {
      assert r[0] == s[lo] && s[lo] in s;
    }
    if c :| c in s && !IsSpace(c) {
      var k :| 0 <= k < |s| && s[k] == c;
      assert lo <= k < lo + |r|;
    }
  }

  ghost predicate FreshFrom(draw: nat -> PointId, n: nat, points: map<PointId, Point>) {
    && (forall i, j :: i != j ==> draw(i) != draw(j))
    && (forall i :: i >= n ==> draw(i) !in points)
  }

  ghost predicate FreshIds(draw: nat -> PointId, points: map<PointId, Point>) {
    FreshFrom(draw, 0, points)
  }

  /** A fact that is worth saving: neither key nor value is blank. */
  predicate Usable(f: Fact) {
    Strip(f.key) != "" && Strip(f.value) != ""
  }

  ghost predicate Skipped(model: Model, points: map<PointId, Point>, user: UserId, f: Fact) {
    Known(model, points, user, Strip(f.key), VectorOf(model, Strip(f.key), Strip(f.value)))
  }

  /** Both stores and the counter of the loop. */
  datatype Stores = Stores(rows: seq<Row>, points: map<PointId, Point>, saved: nat)

  /** One turn of the loop. */
  ghost function AfterFact(model: Model, s: Stores, user: UserId, f: Fact, draw: nat -> PointId): Stores {
    if !Usable(f) || Skipped(model, s.points, user, f) then s
    else
      var key, value, id := Strip(f.key), Strip(f.value), draw(s.saved);
      Stores(s.rows + [Row(user, Truncate(key), value, ConfidenceOf(f), id)],
             s.points[id := Point(user, key, value, ConfidenceOf(f), VectorOf(model, key, value))], s.saved + 1)
  }

  ghost function AfterAll(model: Model, s: Stores, user: UserId, facts: seq<Fact>, draw: nat -> PointId): Stores {
    if facts == [] then s
    else AfterFact(model, AfterAll(model, s, user, facts[..|facts| - 1], draw), user, facts[|facts| - 1], draw)
  }

  // ---- packing and covering ------------------------------------------------

  /** The stored vectors of one user and key are pairwise below the threshold. */
  ghost predicate Packed(model: Model, points: map<PointId, Point>) {
    forall p, q :: p in points && q in points && p != q &&
                   points[p].user == points[q].user && points[p].key == points[q].key ==>
      model.similarity(points[p].vector, points[q].vector) < THRESHOLD
  }

  /** Saving a fact that is not known keeps the stored vectors apart. */
  lemma SaveKeepsPacked(model: Model, points: map<PointId, Point>, id: PointId, p: Point)
    requires Sane(model) && Packed(model, points) && id !in points
    requires !Known(model, points, p.user, p.key, p.vector)
    ensures Packed(model, points[id := p])
  {
    var m := points[id := p];
    forall a, b | a in m && b in m && a != b && m[a].user == m[b].user && m[a].key == m[b].key
      ensures model.similarity(m[a].vector, m[b].vector) < THRESHOLD
    {
      if a == id {
        assert b in points && m[b] == points[b];
      } else if b == id {
        assert a in points && m[a] == points[a];
        assert model.similarity(p.vector, points[a].vector) < THRESHOLD;
      }
    }
  }

  ghost predicate Extends(points: map<PointId, Point>, more: map<PointId, Point>) {
    forall p :: p in points ==> p in more && more[p] == points[p]
  }

  lemma KnownStaysKnown(model: Model, points: map<PointId, Point>, more: map<PointId, Point>, user: UserId,
                        key: string, v: Vector)
    requires Extends(points, more) && Known(model, points, user, key, v)
    ensures Known(model, more, user, key, v)
  {
    var p :| p in points && points[p].user == user && points[p].key == key &&
             model.similarity(v, points[p].vector) >= THRESHOLD;
    assert p in more && more[p] == points[p];
  }

  /** One turn keeps the vectors apart, loses nothing, and leaves the fact known. */
  lemma OneFact(model: Model, s: Stores, user: UserId, f: Fact, draw: nat -> PointId)
    requires Sane(model) && Packed(model, s.points) && FreshFrom(draw, s.saved, s.points)
    ensures var t := AfterFact(model, s, user, f, draw);
            && Packed(model, t.points) && Extends(s.points, t.points) && FreshFrom(draw, t.saved, t.points)
            && |t.rows| - t.saved == |s.rows| - s.saved && |t.points| - t.saved == |s.points| - s.saved
            && (Usable(f) ==> Skipped(model, t.points, user, f))
  {
    if Usable(f) && !Skipped(model, s.points, user, f) {
      var key, value, id := Strip(f.key), Strip(f.value), draw(s.saved);
      var point := Point(user, key, value, ConfidenceOf(f), VectorOf(model, key, value));
      SaveKeepsPacked(model, s.points, id, point);
      var t := AfterFact(model, s, user, f, draw);
      assert id in t.points && t.points[id] == point;
      assert model.similarity(point.vector, point.vector) >= THRESHOLD;
    }
  }

  /** Points that are only added to cover the facts they covered before. */
  lemma StillCovered(model: Model, was: map<PointId, Point>, now: map<PointId, Point>, user: UserId, front: seq<Fact>,
                     f: Fact)
    requires Extends(was, now) && (Usable(f) ==> Skipped(model, now, user, f))
    requires forall i :: 0 <= i < |front| && Usable(front[i]) ==> Skipped(model, was, user, front[i])
    ensures forall i :: 0 <= i < |front + [f]| && Usable((front + [f])[i]) ==>
              Skipped(model, now, user, (front + [f])[i])
  {
    hide Known, Extends, Usable;
    forall i | 0 <= i < |front| && Usable(front[i]) ensures Skipped(model, now, user, front[i]) {
      KnownStaysKnown(model, was, now, user, Strip(front[i].key),
                      VectorOf(model, Strip(front[i].key), Strip(front[i].value)));
    }
  }

  /** After the loop the stored vectors are apart (packing), nothing stored is lost, both stores
      have grown by the number reported, and every usable fact of the list is within the
      threshold of a stored one (covering). */
  lemma {:induction false} AllPackedAndCovered(model: Model, s: Stores, user: UserId, facts: seq<Fact>,
                                               draw: nat -> PointId)
    requires Sane(model) && Packed(model, s.points) && FreshFrom(draw, s.saved, s.points)
    ensures var t := AfterAll(model, s, user, facts, draw);
            && Packed(model, t.points) && Extends(s.points, t.points) && FreshFrom(draw, t.saved, t.points)
            && |t.rows| - t.saved == |s.rows| - s.saved && |t.points| - t.saved == |s.points| - s.saved
            && forall i :: 0 <= i < |facts| && Usable(facts[i]) ==> Skipped(model, t.points, user, facts[i])
  {
    if facts != [] {
      hide AfterFact, Packed, FreshFrom, Known;
      var front, f := facts[..|facts| - 1], facts[|facts| - 1];
      AllPackedAndCovered(model, s, user, front, draw);
      var m := AfterAll(model, s, user, front, draw);
      OneFact(model, m, user, f, draw);
      var t := AfterFact(model, m, user, f, draw);
      StillCovered(model, m.points, t.points, user, front, f);
      assert facts == front + [f];
    }
  }

  /** A list whose usable facts are all known saves nothing and changes nothing. */
  lemma {:induction false} KnownListSavesNothing(model: Model, s: Stores, user: UserId, facts: seq<Fact>,
                                                 draw: nat -> PointId)
    requires forall i :: 0 <= i < |facts| && Usable(facts[i]) ==> Skipped(model, s.points, user, facts[i])
    ensures AfterAll(model, s, user, facts, draw) == s
  {
    if facts != [] {
      KnownListSavesNothing(model, s, user, facts[..|facts| - 1], draw);
    }
  }

  /** Idempotence: running the loop again on the same facts after a completed run saves nothing
      and leaves both stores unchanged, whatever ids it would draw. */
  lemma RerunSavesNothing(model: Model, s: Stores, user: UserId, facts: seq<Fact>, draw: nat -> PointId,
                          again: nat -> PointId)
    requires Sane(model) && Packed(model, s.points) && FreshFrom(draw, s.saved, s.points)
    ensures var t := AfterAll(model, s, user, facts, draw);
            AfterAll(model, t.(saved := 0), user, facts, again) == t.(saved := 0)
  {
    AllPackedAndCovered(model, s, user, facts, draw);
    var t := AfterAll(model, s, user, facts, draw);
    KnownListSavesNothing(model, t.(saved := 0), user, facts, again);
  }

  // ---- a crash between the two writes --------------------------------------

  datatype Save = Save(user: UserId, key: string, value: string, confidence: real, id: PointId, crashes: bool)

  ghost function AfterSave(model: Model, s: (seq<Row>, map<PointId, Point>), x: Save): (seq<Row>, map<PointId, Point>) {
    if Known(model, s.1, x.user, x.key, VectorOf(model, x.key, x.value)) then s
    else (s.0 + [Row(x.user, Truncate(x.key), x.value, x.confidence, x.id)],
          if x.crashes then s.1
          else s.1[x.id := Point(x.user, x.key, x.value, x.confidence, VectorOf(model, x.key, x.value))])
  }

  /** Any saves, of any users, each one possibly cut off between its two writes. */
  ghost function AfterSaves(model: Model, xs: seq<Save>): (seq<Row>, map<PointId, Point>) {
    if xs == [] then ([], map[]) else AfterSave(model, AfterSaves(model, xs[..|xs| - 1]), xs[|xs| - 1])
  }

  /** The saves that wrote their row and not their point. */
  ghost function CutOff(model: Model, xs: seq<Save>): nat {
    if xs == [] then 0
    else
      var x := xs[|xs| - 1];
      var points := AfterSaves(model, xs[..|xs| - 1]).1;
      CutOff(model, xs[..|xs| - 1]) +
      if x.crashes && !Known(model, points, x.user, x.key, VectorOf(model, x.key, x.value)) then 1 else 0
  }

  ghost predicate HasRow(rows: seq<Row>, id: PointId, p: Point) {
    exists i :: 0 <= i < |rows| && rows[i] == Row(p.user, Truncate(p.key), p.value, p.confidence, id)
  }

  ghost predicate FreshSaves(xs: seq<Save>) {
    forall i, j :: 0 <= i < j < |xs| ==> xs[i].id != xs[j].id
  }

  lemma SaveKeepsRows(model: Model, s: (seq<Row>, map<PointId, Point>), x: Save)
    requires x.id !in s.1 && forall id :: id in s.1 ==> HasRow(s.0, id, s.1[id])
    ensures var t := AfterSave(model, s, x); forall id :: id in t.1 ==> HasRow(t.0, id, t.1[id])
  {
    var t := AfterSave(model, s, x);
    forall id | id in t.1 ensures HasRow(t.0, id, t.1[id]) {
      if id in s.1 {
        var i :| 0 <= i < |s.0| &&
                 s.0[i] == Row(s.1[id].user, Truncate(s.1[id].key), s.1[id].value, s.1[id].confidence, id);
        assert t.0[i] == s.0[i];
      } else {
        assert t.0[|s.0|].point == id;
      }
    }
  }

  /** Over every run of saves, with crashes between the two writes: the stored vectors of one user
      and key stay apart, every point has its row, and the rows without a point are exactly as many
      as the saves that were cut off. */
  lemma {:induction false} EveryRunStaysPacked(model: Model, xs: seq<Save>)
    requires Sane(model) && FreshSaves(xs)
    ensures var s := AfterSaves(model, xs);
            && Packed(model, s.1)
            && (forall id :: id in s.1 ==> HasRow(s.0, id, s.1[id]))
            && |s.0| == |s.1| + CutOff(model, xs)
            && forall id :: id in s.1 ==> exists i :: 0 <= i < |xs| && xs[i].id == id
  {
    if xs != [] {
      var front, x := xs[..|xs| - 1], xs[|xs| - 1];
      EveryRunStaysPacked(model, front);
      var s := AfterSaves(model, front);
      assert x.id !in s.1;
      SaveKeepsRows(model, s, x);
      var t := AfterSave(model, s, x);
      if t.1 != s.1 {
        var p := Point(x.user, x.key, x.value, x.confidence, VectorOf(model, x.key, x.value));
        SaveKeepsPacked(model, s.1, x.id, p);
      }
      forall id | id in t.1 ensures exists i :: 0 <= i < |xs| && xs[i].id == id {
        if id in s.1 {
          var i :| 0 <= i < |front| && front[i].id == id;
          assert xs[i].id == id;
        } else {
          assert xs[|xs| - 1].id == id;
        }
      }
    }
  }

  /** A crash after the row and before the point leaves a row without a point, and the retry of the
      same fact adds a second row: the row count is off by one exactly when the first try crashed. */
  lemma RetryDuplicatesIffCrashed(model: Model, rows: seq<Row>, points: map<PointId, Point>, x: Save, id': PointId)
    requires Sane(model) && x.id !in points && id' !in points && x.id != id'
    requires !Known(model, points, x.user, x.key, VectorOf(model, x.key, x.value))
    ensures var first := AfterSave(model, (rows, points), x);
            var second := AfterSave(model, first, x.(id := id', crashes := false));
            && |second.1| == |points| + 1
            && |second.0| == |rows| + if x.crashes then 2 else 1
  {
    var v := VectorOf(model, x.key, x.value);
    var first := AfterSave(model, (rows, points), x);
    if !x.crashes {
      assert x.id in first.1 && first.1[x.id].vector == v;
      assert model.similarity(v, v) >= THRESHOLD;
      assert Known(model, first.1, x.user, x.key, v);
    }
  }
}
