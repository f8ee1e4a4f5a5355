/**
 What every run of the ingestion protocol keeps, over all interleavings, crashes, exceptions and
 redeliveries (src/worker/tasks/ingestion.py:36-111, src/ingestion/indexer.py:34-99).
 */
module IngestionSafety {
  import opened Prelude
  import opened Text
  import opened Chunker
  import opened Ingestion

  // ---- the vector store ----------------------------------------------------

  ghost predicate Owned(points: map<PointId, Point>, owner: map<PointId, DocId>) {
    forall p :: p in points ==> p in owner && owner[p] == points[p].doc
  }

  ghost predicate AllOf(ps: seq<Named>, owner: map<PointId, DocId>, d: DocId) {
    forall n :: n in ps ==> n.point.doc == d && n.id in owner && owner[n.id] == d
  }

  /** Upserting points of one document leaves every other document's points alone. */
  lemma {:induction false} UpsertOwn(points: map<PointId, Point>, ps: seq<Named>, owner: map<PointId, DocId>, d: DocId)
    requires Owned(points, owner) && AllOf(ps, owner, d)
    ensures Owned(Upsert(points, ps), owner)
    ensures OfDoc(Upsert(points, ps), d) == Upsert(OfDoc(points, d), ps)
    ensures forall d' :: d' != d ==> OfDoc(Upsert(points, ps), d') == OfDoc(points, d')
  {
    if ps != [] {
      var front, last := ps[..|ps| - 1], ps[|ps| - 1];
      assert last in ps && forall n :: n in front ==> n in ps;
      UpsertOwn(points, front, owner, d);
      var m := Upsert(points, front);
      assert Upsert(points, ps) == m[last.id := last.point];
      assert OfDoc(m[last.id := last.point], d) == OfDoc(m, d)[last.id := last.point];
      forall d' | d' != d ensures OfDoc(m[last.id := last.point], d') == OfDoc(m, d') {
      }
    }
  }

  lemma {:induction false} UpsertConcat(points: map<PointId, Point>, a: seq<Named>, b: seq<Named>)
    ensures Upsert(points, a + b) == Upsert(Upsert(points, a), b)
  {
    if b == [] {
      assert a + b == a;
    } else {
      assert (a + b)[..|a + b| - 1] == a + b[..|b| - 1];
      UpsertConcat(points, a, b[..|b| - 1]);
    }
  }

  ghost predicate DistinctIds(ps: seq<Named>) {
    forall i, j :: 0 <= i < j < |ps| ==> ps[i].id != ps[j].id
  }

  /** Points with distinct ids, upserted into an empty store, are all there and nothing else is. */
  lemma {:induction false} UpsertTable(ps: seq<Named>)
    requires DistinctIds(ps)
    ensures forall i :: 0 <= i < |ps| ==> ps[i].id in Upsert(map[], ps) && Upsert(map[], ps)[ps[i].id] == ps[i].point
    ensures forall p :: p in Upsert(map[], ps) ==> exists i :: 0 <= i < |ps| && ps[i].id == p
  {
    if ps != [] {
      var front := ps[..|ps| - 1];
      UpsertTable(front);
      forall p | p in Upsert(map[], ps) ensures exists i :: 0 <= i < |ps| && ps[i].id == p {
        if p in Upsert(map[], front) {
          var i :| 0 <= i < |front| && front[i].id == p;
          assert ps[i].id == p;
        } else {
          assert ps[|ps| - 1].id == p;
        }
      }
    }
  }

  lemma {:induction false} AppliedPart(ps: seq<Named>, ids: set<PointId>)
    ensures forall n :: n in Applied(ps, ids) ==> n in ps
  {
    if ps != [] {
      AppliedPart(ps[..|ps| - 1], ids);
      assert forall n :: n in ps[..|ps| - 1] ==> n in ps;
    }
  }

  // ---- the chunk table -----------------------------------------------------

  ghost predicate InOrder(rows: seq<Row>) {
    forall i :: 0 <= i < |rows| ==> rows[i].chunk.index == i
  }

  lemma {:induction false} InsertedRows(rows: map<RowKey, Row>, d: DocId, new_: seq<Row>)
    requires InOrder(new_)
    ensures forall k :: k in InsertRows(rows, d, new_) <==> k in rows || (k.doc == d && k.index < |new_|)
    ensures forall k :: k in InsertRows(rows, d, new_) ==>
              InsertRows(rows, d, new_)[k] == if k.doc == d && k.index < |new_| then new_[k.index] else rows[k]
  {
    if new_ != [] {
      InsertedRows(rows, d, new_[..|new_| - 1]);
    }
  }

  // ---- the invariant -------------------------------------------------------

  /** Rows and points made from the same chunks, in the same order, under distinct fresh ids. */
  ghost predicate Prepared(embed: Lines -> Vector, d: DocId, info: Info, rows: seq<Row>, ps: seq<Named>) {
    && |rows| == |ps| > 0
    && InOrder(rows)
    && DistinctIds(ps)
    && forall i :: 0 <= i < |ps| ==>
         ps[i] == Named(rows[i].point, Point(d, info, rows[i].chunk, embed(rows[i].chunk.text)))
  }

  /** What a live run relies on: between the purge and the final commit the vector store holds
      exactly the points this run has upserted so far. */
  ghost predicate PhaseOk(embed: Lines -> Vector, d: DocId, v: View) {
    v.run.Some? ==>
      && v.doc.Some?
      && match v.run.value
         case Purging(chunks) => Numbered(chunks) && chunks != []
         case Vectorising(chunks) => Numbered(chunks) && chunks != [] && v.points == map[]
         case Upserting(rows, ps, next) =>
           && Prepared(embed, d, v.doc.value.info, rows, ps)
           && next <= |ps| && v.points == Upsert(map[], ps[..next])
         case _ => true
  }

  predicate AfterCommit(v: View) {
    v.run.Some? && (v.run.value.Finishing? || v.run.value == Handling(true))
  }

  predicate IsIndexed(v: View) {
    v.doc.Some? && v.doc.value.status == Indexed
  }

  /** A document that was never reverted has rows exactly when it is indexed, and then exactly the
      right ones; a reverted one keeps its stale rows and is not indexed. */
  ghost predicate Good(embed: Lines -> Vector, d: DocId, v: View) {
    && PhaseOk(embed, d, v)
    && (v.reverted ==> v.doc.Some? && RowKey(d, 0) in v.rows && !IsIndexed(v) && !AfterCommit(v))
    && (!v.reverted && IsIndexed(v) ==> ExactlyIndexed(embed, d, v) && (v.run.None? || AfterCommit(v)))
    && (!v.reverted && !IsIndexed(v) ==> v.rows == map[] && !AfterCommit(v))
  }

  ghost predicate OwnersOk(s: State) {
    && Owned(s.points, s.owner)
    && forall d :: d in s.runs && s.runs[d].Upserting? ==> AllOf(s.runs[d].points, s.owner, d)
  }

  ghost predicate Inv(embed: Lines -> Vector, s: State) {
    && OwnersOk(s)
    && forall d :: Good(embed, d, ViewOf(s, d))
  }

  // ---- one event: ownership and frame --------------------------------------

  lemma InterruptedOwn(s: State, d: DocId, applied: set<PointId>)
    requires OwnersOk(s) && Live(s, d)
    ensures Owned(Interrupted(s, d, applied), s.owner)
    ensures forall d' :: d' != d ==> OfDoc(Interrupted(s, d, applied), d') == OfDoc(s.points, d')
  {
    match s.runs[d]
    case Upserting(_, ps, next) =>
      if next < |ps| {
        var batch := ps[next..BatchEnd(|ps|, next)];
        AppliedPart(batch, applied);
        assert forall n :: n in batch ==> n in ps;
        UpsertOwn(s.points, Applied(batch, applied), s.owner, d);
      }
    case _ =>
      forall d' | d' != d ensures OfDoc(Interrupted(s, d, applied), d') == OfDoc(s.points, d') {
      }
  }

  lemma UpsertedOwn(s: State, d: DocId)
    requires OwnersOk(s) && Enabled(s, Upserted(d))
    ensures var run := s.runs[d];
            var batch := run.points[run.next..BatchEnd(|run.points|, run.next)];
            && AllOf(batch, s.owner, d)
            && Owned(Upsert(s.points, batch), s.owner)
            && OfDoc(Upsert(s.points, batch), d) == Upsert(OfDoc(s.points, d), batch)
            && forall d' :: d' != d ==> OfDoc(Upsert(s.points, batch), d') == OfDoc(s.points, d')
  {
    var run := s.runs[d];
    var batch := run.points[run.next..BatchEnd(|run.points|, run.next)];
    assert forall n :: n in batch ==> n in run.points;
    UpsertOwn(s.points, batch, s.owner, d);
  }

  lemma InsertedElsewhere(rows: map<RowKey, Row>, d: DocId, new_: seq<Row>)
    ensures forall k: RowKey :: k.doc != d ==> (k in InsertRows(rows, d, new_) <==> k in rows)
    ensures forall k: RowKey :: k.doc != d && k in rows ==> InsertRows(rows, d, new_)[k] == rows[k]
  {
  }

  /** An event of one document changes nothing of any other: not its row in the document table,
      its chunk rows, its points, or its run. */
  lemma Frame(embed: Lines -> Vector, s: State, e: Event, d: DocId)
    requires OwnersOk(s) && d != e.doc
    ensures ViewOf(Apply(embed, s, e), d) == ViewOf(s, d)
  {
    hide Upsert, InsertRows, Applied, AllOf, Conflict;
    if Enabled(s, e) {
      match e {
        case Purged(x) => assert OfDoc(WithoutDoc(s.points, x), d) == OfDoc(s.points, d);
        case Upserted(x) => UpsertedOwn(s, x);
        case Raised(x, applied) => InterruptedOwn(s, x, applied);
        case Crashed(x, applied) => InterruptedOwn(s, x, applied);
        case Committed(x, at) => InsertedElsewhere(s.rows, x, s.runs[x].rows);
        case _ =>
      }
    }
  }

  lemma FreshOwners(s: State, ids: seq<PointId>, d: DocId)
    requires OwnersOk(s) && Fresh(s.owner, ids)
    ensures Owned(s.points, Owners(s.owner, ids, d))
    ensures forall x :: x in s.runs && s.runs[x].Upserting? ==> AllOf(s.runs[x].points, Owners(s.owner, ids, d), x)
  {
    forall i | i in ids ensures i !in s.owner {
    }
  }

  lemma OwnersKept(embed: Lines -> Vector, s: State, e: Event)
    requires OwnersOk(s)
    ensures OwnersOk(Apply(embed, s, e))
  {
    hide Upsert, InsertRows, Applied, Conflict;
    if Enabled(s, e) {
      match e {
        case Upserted(x) => UpsertedOwn(s, x);
        case Raised(x, applied) => InterruptedOwn(s, x, applied);
        case Crashed(x, applied) => InterruptedOwn(s, x, applied);
        case Vectorised(x, ids) => FreshOwners(s, ids, x);
        case _ =>
      }
    }
  }

  // ---- one event: its own document -----------------------------------------

  /** Before the final commit the document is not indexed, and a step that touches neither its
      rows nor that fact keeps the invariant if it keeps what the run relies on. */
  lemma MidRun(embed: Lines -> Vector, d: DocId, v: View, v': View)
    requires Good(embed, d, v) && v.run.Some? && !AfterCommit(v)
    requires v'.rows == v.rows && v'.reverted == v.reverted && v'.doc.Some?
    requires !IsIndexed(v') && !AfterCommit(v') && PhaseOk(embed, d, v')
    ensures Good(embed, d, v')
  {
  }

  lemma PurgedGood(embed: Lines -> Vector, s: State, d: DocId)
    requires Good(embed, d, ViewOf(s, d)) && Enabled(s, Purged(d))
    ensures Good(embed, d, ViewOf(Next(embed, s, Purged(d)), d))
  {
    assert OfDoc(WithoutDoc(s.points, d), d) == map[];
    MidRun(embed, d, ViewOf(s, d), ViewOf(Next(embed, s, Purged(d)), d));
  }

  lemma VectorisedGood(embed: Lines -> Vector, s: State, d: DocId, ids: seq<PointId>)
    requires Good(embed, d, ViewOf(s, d)) && Enabled(s, Vectorised(d, ids))
    ensures Good(embed, d, ViewOf(Next(embed, s, Vectorised(d, ids)), d))
  {
    var chunks := s.runs[d].chunks;
    var rows, ps := MakeRows(chunks, ids), MakePoints(d, s.docs[d].info, chunks, Vectors(embed, chunks), ids);
    assert Prepared(embed, d, s.docs[d].info, rows, ps);
    assert ps[..0] == [];
    MidRun(embed, d, ViewOf(s, d), ViewOf(Next(embed, s, Vectorised(d, ids)), d));
  }

  lemma UpsertUpTo(ps: seq<Named>, next: nat, hi: nat)
    requires next <= hi <= |ps|
    ensures Upsert(Upsert(map[], ps[..next]), ps[next..hi]) == Upsert(map[], ps[..hi])
  {
    assert ps[..hi] == ps[..next] + ps[next..hi];
    UpsertConcat(map[], ps[..next], ps[next..hi]);
  }

  lemma UpsertedView(embed: Lines -> Vector, s: State, d: DocId)
    requires OwnersOk(s) && Enabled(s, Upserted(d))
    ensures var run, v, v' := s.runs[d], ViewOf(s, d), ViewOf(Next(embed, s, Upserted(d)), d);
            var hi := BatchEnd(|run.points|, run.next);
            v' == v.(points := Upsert(v.points, run.points[run.next..hi]), run := Some(run.(next := hi)))
  {
    UpsertedOwn(s, d);
  }

  lemma UpsertedPhase(embed: Lines -> Vector, d: DocId, v: View, hi: nat)
    requires PhaseOk(embed, d, v) && v.run.Some? && v.run.value.Upserting?
    requires v.run.value.next <= hi <= |v.run.value.points|
    ensures var run := v.run.value;
            PhaseOk(embed, d, v.(points := Upsert(v.points, run.points[run.next..hi]), run := Some(run.(next := hi))))
  {
    UpsertUpTo(v.run.value.points, v.run.value.next, hi);
  }

  lemma UpsertedGood(embed: Lines -> Vector, s: State, d: DocId)
    requires OwnersOk(s) && Good(embed, d, ViewOf(s, d)) && Enabled(s, Upserted(d))
    ensures Good(embed, d, ViewOf(Next(embed, s, Upserted(d)), d))
  {
    var run, v, v' := s.runs[d], ViewOf(s, d), ViewOf(Next(embed, s, Upserted(d)), d);
    hide PhaseOk, ExactlyIndexed, OwnersOk, Next, Upsert;
    UpsertedView(embed, s, d);
    UpsertedPhase(embed, d, v, BatchEnd(|run.points|, run.next));
    MidRun(embed, d, v, v');
  }

  /** The unique constraint rejects the rows of a run exactly when the document was reverted. */
  lemma ConflictIffReverted(embed: Lines -> Vector, s: State, d: DocId, at: nat)
    requires Good(embed, d, ViewOf(s, d)) && Enabled(s, Committed(d, at))
    ensures Conflict(s.rows, d, s.runs[d].rows) <==> d in s.reverted
    ensures d !in s.reverted ==> forall k :: k in s.rows ==> k.doc != d
  {
    hide ExactlyIndexed, Upsert, OfDoc;
    var v, rows := ViewOf(s, d), s.runs[d].rows;
    assert forall k :: k in s.rows && k.doc == d ==> k in v.rows;
    if d in s.reverted {
      assert RowKey(d, rows[0].chunk.index) in v.rows;
    }
  }

  /** The rows and points of a finished run fit together. */
  lemma PreparedIsExact(embed: Lines -> Vector, d: DocId, v: View, rows: seq<Row>, ps: seq<Named>)
    requires v.doc.Some? && v.doc.value.nChunks == Some(|rows|)
    requires Prepared(embed, d, v.doc.value.info, rows, ps) && v.points == Upsert(map[], ps)
    requires forall k :: k in v.rows <==> k.doc == d && k.index < |rows|
    requires forall k :: k in v.rows ==> v.rows[k] == rows[k.index]
    ensures ExactlyIndexed(embed, d, v)
  {
    UpsertTable(ps);
    forall i | 0 <= i < |rows| ensures RowKey(d, i) in v.rows && RowMatches(embed, d, v, i) {
      assert v.rows[RowKey(d, i)] == rows[i] && ps[i].id == rows[i].point;
    }
    forall i, j | 0 <= i < j < |rows| ensures v.rows[RowKey(d, i)].point != v.rows[RowKey(d, j)].point {
      assert v.rows[RowKey(d, i)].point == ps[i].id && v.rows[RowKey(d, j)].point == ps[j].id;
    }
    forall p | p in v.points ensures exists i :: 0 <= i < |rows| && v.rows[RowKey(d, i)].point == p {
      var i :| 0 <= i < |ps| && ps[i].id == p;
      assert v.rows[RowKey(d, i)].point == p;
    }
  }

  lemma InsertedView(rows: map<RowKey, Row>, d: DocId, new_: seq<Row>, view: map<RowKey, Row>)
    requires InOrder(new_) && forall k :: k in rows ==> k.doc != d
    requires view == map k | k in InsertRows(rows, d, new_) && k.doc == d :: InsertRows(rows, d, new_)[k]
    ensures forall k :: k in view <==> k.doc == d && k.index < |new_|
    ensures forall k :: k in view ==> view[k] == new_[k.index]
  {
    InsertedRows(rows, d, new_);
  }

  lemma AcceptedGood(embed: Lines -> Vector, s: State, d: DocId, at: nat)
    requires Good(embed, d, ViewOf(s, d)) && Enabled(s, Committed(d, at))
    requires d !in s.reverted && !Conflict(s.rows, d, s.runs[d].rows)
    requires forall k :: k in s.rows ==> k.doc != d
    ensures ExactlyIndexed(embed, d, ViewOf(Next(embed, s, Committed(d, at)), d))
  {
    var run, v' := s.runs[d], ViewOf(Next(embed, s, Committed(d, at)), d);
    assert run.points[..|run.points|] == run.points;
    InsertedView(s.rows, d, run.rows, v'.rows);
    PreparedIsExact(embed, d, v', run.rows, run.points);
  }

  lemma CommittedGood(embed: Lines -> Vector, s: State, d: DocId, at: nat)
    requires Good(embed, d, ViewOf(s, d)) && Enabled(s, Committed(d, at))
    ensures Good(embed, d, ViewOf(Next(embed, s, Committed(d, at)), d))
  {
    hide ExactlyIndexed, Prepared, Conflict, InsertRows, Upsert;
    ConflictIffReverted(embed, s, d, at);
    if d in s.reverted {
      MidRun(embed, d, ViewOf(s, d), ViewOf(Next(embed, s, Committed(d, at)), d));
    } else {
      AcceptedGood(embed, s, d, at);
    }
  }

  /** The steps before the purge, which write only the document's own row. */
  lemma EarlyGood(embed: Lines -> Vector, s: State, e: Event)
    requires Good(embed, e.doc, ViewOf(s, e.doc)) && Enabled(s, e)
    requires e.Announced? || e.Parsed? || e.Chunked?
    ensures Good(embed, e.doc, ViewOf(Next(embed, s, e), e.doc))
  {
    MidRun(embed, e.doc, ViewOf(s, e.doc), ViewOf(Next(embed, s, e), e.doc));
  }

  lemma BeginGood(embed: Lines -> Vector, s: State, e: Event)
    requires Good(embed, e.doc, ViewOf(s, e.doc)) && Enabled(s, e)
    requires e.Uploaded? || e.Started?
    ensures Good(embed, e.doc, ViewOf(Next(embed, s, e), e.doc))
  {
  }

  /** A run that fails or dies before its final commit leaves a document that is not indexed. */
  lemma CutOffGood(embed: Lines -> Vector, s: State, e: Event)
    requires Good(embed, e.doc, ViewOf(s, e.doc)) && Enabled(s, e)
    requires e.Raised? || e.Crashed?
    requires !AfterCommit(ViewOf(s, e.doc))
    ensures Good(embed, e.doc, ViewOf(Next(embed, s, e), e.doc))
  {
    MidRun(embed, e.doc, ViewOf(s, e.doc), ViewOf(Next(embed, s, e), e.doc));
  }

  lemma EndView(embed: Lines -> Vector, s: State, e: Event)
    requires Enabled(s, e) && AfterCommit(ViewOf(s, e.doc))
    requires e.Finished? || e.Raised? || e.Crashed?
    ensures var v, v' := ViewOf(s, e.doc), ViewOf(Next(embed, s, e), e.doc);
            v' == v.(run := v'.run) && (v'.run.None? || AfterCommit(v'))
  {
  }

  lemma EndKeeps(embed: Lines -> Vector, d: DocId, v: View, run: Option<Phase>)
    requires Good(embed, d, v) && AfterCommit(v)
    requires run.None? || AfterCommit(v.(run := run))
    ensures Good(embed, d, v.(run := run))
  {
    assert ExactlyIndexed(embed, d, v);
    assert forall i :: RowKey(d, i) in v.rows ==> RowMatches(embed, d, v, i) == RowMatches(embed, d, v.(run := run), i);
  }

  /** After the final commit nothing but the handler's own write undoes it. */
  lemma EndGood(embed: Lines -> Vector, s: State, e: Event)
    requires Good(embed, e.doc, ViewOf(s, e.doc)) && Enabled(s, e)
    requires AfterCommit(ViewOf(s, e.doc))
    requires e.Finished? || e.Raised? || e.Crashed?
    ensures Good(embed, e.doc, ViewOf(Next(embed, s, e), e.doc))
  {
    hide *;
    EndView(embed, s, e);
    EndKeeps(embed, e.doc, ViewOf(s, e.doc), ViewOf(Next(embed, s, e), e.doc).run);
  }

  /** The handler's write: harmless before the final commit, the only way to be reverted after it. */
  lemma HandledGood(embed: Lines -> Vector, s: State, d: DocId, message: string)
    requires Good(embed, d, ViewOf(s, d)) && Enabled(s, Handled(d, message))
    ensures Good(embed, d, ViewOf(Next(embed, s, Handled(d, message)), d))
  {
    var v, v' := ViewOf(s, d), ViewOf(Next(embed, s, Handled(d, message)), d);
    assert v'.points == v.points && v'.rows == v.rows;
    if s.runs[d].committed {
      assert RowKey(d, 0) in v.rows;
    }
  }

  lemma OwnGood(embed: Lines -> Vector, s: State, e: Event)
    requires OwnersOk(s) && Good(embed, e.doc, ViewOf(s, e.doc)) && Enabled(s, e)
    ensures Good(embed, e.doc, ViewOf(Next(embed, s, e), e.doc))
  {
    match e
    case Uploaded(_, _) => BeginGood(embed, s, e);
    case Started(_) => BeginGood(embed, s, e);
    case Purged(d) => PurgedGood(embed, s, d);
    case Vectorised(d, ids) => VectorisedGood(embed, s, d, ids);
    case Upserted(d) => UpsertedGood(embed, s, d);
    case Committed(d, at) => CommittedGood(embed, s, d, at);
    case Finished(_) => EndGood(embed, s, e);
    case Handled(d, message) => HandledGood(embed, s, d, message);
    case Raised(d, _) => if AfterCommit(ViewOf(s, d)) { EndGood(embed, s, e); } else { CutOffGood(embed, s, e); }
    case Crashed(d, _) => if AfterCommit(ViewOf(s, d)) { EndGood(embed, s, e); } else { CutOffGood(embed, s, e); }
    case _ => EarlyGood(embed, s, e);
  }

  lemma StepKeepsInv(embed: Lines -> Vector, s: State, e: Event)
    requires Inv(embed, s)
    ensures Inv(embed, Apply(embed, s, e))
  {
    OwnersKept(embed, s, e);
    forall d ensures Good(embed, d, ViewOf(Apply(embed, s, e), d)) {
      assert Good(embed, d, ViewOf(s, d));
      if d != e.doc {
        Frame(embed, s, e, d);
      } else if Enabled(s, e) {
        OwnGood(embed, s, e);
      }
    }
  }

  lemma {:induction false} RunKeepsInv(embed: Lines -> Vector, s: State, trace: seq<Event>)
    requires Inv(embed, s)
    ensures Inv(embed, Run(embed, s, trace))
  {
    if trace != [] {
      RunKeepsInv(embed, s, trace[..|trace| - 1]);
      StepKeepsInv(embed, Run(embed, s, trace[..|trace| - 1]), trace[|trace| - 1]);
    }
  }

  lemma Reachable(embed: Lines -> Vector, trace: seq<Event>)
    ensures Inv(embed, Run(embed, EMPTY, trace))
  {
    RunKeepsInv(embed, EMPTY, trace);
  }

  // ---- main results --------------------------------------------------------

  /** A document has chunk rows exactly when it is indexed, and then rows and points correspond. */
  ghost predicate Consistent(embed: Lines -> Vector, s: State, d: DocId) {
    var v := ViewOf(s, d);
    && (IsIndexed(v) <==> v.rows != map[])
    && (IsIndexed(v) ==> ExactlyIndexed(embed, d, v))
  }

  /** Safety over all runs: after any trace a document is consistent if and only if its status was
      never overwritten by the exception handler after its final commit. */
  lemma ConsistentIffNotReverted(embed: Lines -> Vector, trace: seq<Event>, d: DocId)
    ensures Consistent(embed, Run(embed, EMPTY, trace), d) <==> d !in Run(embed, EMPTY, trace).reverted
  {
    Reachable(embed, trace);
    var s := Run(embed, EMPTY, trace);
    var v := ViewOf(s, d);
    assert Good(embed, d, v);
    if d in s.reverted {
      assert RowKey(d, 0) in v.rows;
    } else if IsIndexed(v) {
      assert RowKey(d, 0) in v.rows;
    }
  }

  /** The handler runs for an exception raised after the final commit. */
  predicate HandlerAfterCommit(s: State, e: Event, d: DocId) {
    e.Handled? && e.doc == d && Live(s, d) && s.runs[d] == Handling(true)
  }

  lemma RevertedBy(embed: Lines -> Vector, s: State, e: Event, d: DocId)
    ensures d in Apply(embed, s, e).reverted <==> d in s.reverted || HandlerAfterCommit(s, e, d)
  {
  }

  /** Some step of the trace is the handler of `d` writing after the final commit of its run. */
  ghost predicate HandlerRan(embed: Lines -> Vector, trace: seq<Event>, d: DocId) {
    trace != [] &&
    (|| HandlerRan(embed, trace[..|trace| - 1], d)
     || HandlerAfterCommit(Run(embed, EMPTY, trace[..|trace| - 1]), trace[|trace| - 1], d))
  }

  /** A committed "indexed" is overwritten in exactly one situation: the handler runs for an
      exception raised after the final commit. */
  lemma {:induction false} RevertedMeans(embed: Lines -> Vector, trace: seq<Event>, d: DocId)
    ensures d in Run(embed, EMPTY, trace).reverted <==> HandlerRan(embed, trace, d)
  {
    if trace != [] {
      RevertedMeans(embed, trace[..|trace| - 1], d);
      RevertedBy(embed, Run(embed, EMPTY, trace[..|trace| - 1]), trace[|trace| - 1], d);
    }
  }

  /** Once indexed, always indexed, and with the same rows and points, unless the document is
      reverted. */
  lemma {:induction false} IndexedIsStable(embed: Lines -> Vector, s: State, more: seq<Event>, d: DocId)
    requires Inv(embed, s) && IsIndexed(ViewOf(s, d))
    requires d !in Run(embed, s, more).reverted
    ensures ViewOf(Run(embed, s, more), d).doc == ViewOf(s, d).doc
    ensures ViewOf(Run(embed, s, more), d).rows == ViewOf(s, d).rows
    ensures ViewOf(Run(embed, s, more), d).points == ViewOf(s, d).points
    ensures Inv(embed, Run(embed, s, more))
  {
    if more != [] {
      var front, e := more[..|more| - 1], more[|more| - 1];
      var t := Run(embed, s, front);
      IndexedIsStable(embed, s, front, d);
      StepKeepsInv(embed, t, e);
      assert Good(embed, d, ViewOf(t, d));
      if e.doc != d {
        Frame(embed, t, e, d);
      } else {
        IndexedStep(embed, t, e);
      }
    }
  }

  lemma IndexedStep(embed: Lines -> Vector, s: State, e: Event)
    requires Good(embed, e.doc, ViewOf(s, e.doc)) && IsIndexed(ViewOf(s, e.doc))
    requires e.doc !in Apply(embed, s, e).reverted
    ensures ViewOf(Apply(embed, s, e), e.doc).doc == ViewOf(s, e.doc).doc
    ensures ViewOf(Apply(embed, s, e), e.doc).rows == ViewOf(s, e.doc).rows
    ensures ViewOf(Apply(embed, s, e), e.doc).points == ViewOf(s, e.doc).points
  {
    RevertedBy(embed, s, e, e.doc);
    var v := ViewOf(s, e.doc);
    assert e.doc !in s.reverted && (v.run.None? || AfterCommit(v));
    if Enabled(s, e) {
      assert e.Finished? || e.Raised? || e.Crashed?;
    }
  }

  /** A reverted document is never indexed again: every later run fails at its final commit. */
  lemma {:induction false} RevertedIsForever(embed: Lines -> Vector, s: State, more: seq<Event>, d: DocId)
    requires Inv(embed, s) && d in s.reverted
    ensures d in Run(embed, s, more).reverted
    ensures !IsIndexed(ViewOf(Run(embed, s, more), d))
  {
    RunKeepsInv(embed, s, more);
    StaysReverted(embed, s, more, d);
    assert Good(embed, d, ViewOf(Run(embed, s, more), d));
  }

  lemma {:induction false} StaysReverted(embed: Lines -> Vector, s: State, more: seq<Event>, d: DocId)
    requires d in s.reverted
    ensures d in Run(embed, s, more).reverted
  {
    if more != [] {
      StaysReverted(embed, s, more[..|more| - 1], d);
      RevertedBy(embed, Run(embed, s, more[..|more| - 1]), more[|more| - 1], d);
    }
  }

  /** A run never touches another document: events of other documents leave its row, its chunk
      rows, its points and its run as they are. */
  lemma {:induction false} OthersDoNotMatter(embed: Lines -> Vector, s: State, more: seq<Event>, d: DocId)
    requires Inv(embed, s) && forall e :: e in more ==> e.doc != d
    ensures ViewOf(Run(embed, s, more), d) == ViewOf(s, d)
  {
    if more != [] {
      var front, e := more[..|more| - 1], more[|more| - 1];
      assert e in more && forall x :: x in front ==> x in more;
      OthersDoNotMatter(embed, s, front, d);
      RunKeepsInv(embed, s, front);
      Frame(embed, Run(embed, s, front), e, d);
    }
  }

  lemma RaiseAfterCommit(embed: Lines -> Vector, s: State, d: DocId)
    requires Live(s, d) && s.runs[d] == Finishing
    ensures Apply(embed, s, Raised(d, {})) == s.(runs := s.runs[d := Handling(true)])
  {
  }

  lemma HandleAfterCommit(embed: Lines -> Vector, s: State, d: DocId, message: string)
    requires Live(s, d) && s.runs[d] == Handling(true)
    ensures Apply(embed, s, Handled(d, message)) ==
            s.(docs := s.docs[d := SetStatus(s.docs[d], Failed, Some(message), None, None, 0)],
               runs := s.runs - {d}, reverted := s.reverted + {d})
  {
  }

  /** The one way to lose consistency: the publish after the final commit raises and the handler
      writes "failed" over "indexed", although the rows and points are all there. */
  lemma LateFailureReverts(embed: Lines -> Vector, s: State, d: DocId, message: string)
    requires Inv(embed, s) && Live(s, d) && s.runs[d] == Finishing
    ensures var t := Apply(embed, Apply(embed, s, Raised(d, {})), Handled(d, message));
            && d in t.reverted && !Consistent(embed, t, d)
            && t.docs[d].status == Failed && t.rows == s.rows && t.points == s.points
  {
    hide Apply, PhaseOk;
    var v := ViewOf(s, d);
    assert Good(embed, d, v);
    assert RowKey(d, 0) in v.rows;
    RaiseAfterCommit(embed, s, d);
    HandleAfterCommit(embed, Apply(embed, s, Raised(d, {})), d, message);
    assert RowKey(d, 0) in ViewOf(Apply(embed, Apply(embed, s, Raised(d, {})), Handled(d, message)), d).rows;
  }
}
