/**
 `process_document`, `index_chunks` and `delete_doc_vectors` as imperative code over the stores,
 with a plan that says at which call an exception or a crash strikes
 (src/worker/tasks/ingestion.py:36-111, src/ingestion/indexer.py:34-99). Each run is proved to be
 a trace of the protocol.
 */
module Worker {
  import opened Prelude
  import opened Text
  import opened Chunker
  import opened Ingestion
  import opened IngestionSafety

  /** What a call to another system does: it succeeds, raises, or the worker dies in it; in the
      last two cases any part of the request may have been applied. */
  datatype Outcome = Ok | Raise(applied: set<PointId>) | Die(applied: set<PointId>)

  datatype Site =
    | AtAnnounce | AtFetch | AtChunk | AtPurge | AtEmbed | AtUpsert(next: nat) | AtCommit | AtFinish | AtHandler

  datatype Mode = Running | Failing | Dead

  datatype Result = Missing | AlreadyIndexed | Done(n: nat) | JobFailed | WorkerDied

  class Stores {
    var docs: map<DocId, Doc>
    var rows: map<RowKey, Row>
    var points: map<PointId, Point>
    ghost var runs: map<DocId, Phase>
    ghost var owner: map<PointId, DocId>
    ghost var reverted: set<DocId>

    ghost function Abs(): State
      reads this
    {
      State(docs, rows, points, runs, owner, reverted)
    }

    ghost predicate LiveRun(d: DocId)
      reads this
    {
      d in docs && d in runs
    }

    /** A step before the final commit: the chunk table stays as it is, and the run goes on, is in its
        handler, or is gone. */
    ghost predicate Untouched(d: DocId, mode: Mode, rows0: map<RowKey, Row>, owner0: map<PointId, DocId>,
                              reverted0: set<DocId>)
      reads this
    {
      && rows == rows0 && owner == owner0 && reverted == reverted0
      && (mode.Running? ==> LiveRun(d))
      && (mode.Failing? ==> LiveRun(d) && runs[d] == Handling(false))
      && (mode.Dead? ==> d !in runs)
    }

    /** A call goes wrong in the way `o` says. An exception inside the `try` leads to its handler,
        any other ends the run. */
    method Interrupt(ghost embed: Lines -> Vector, d: DocId, o: Outcome, inTry: bool, interrupted: map<PointId, Point>)
      returns (mode: Mode, ghost e: Event)
      requires LiveRun(d) && !o.Ok? && inTry == !(runs[d].Announcing? || runs[d].Handling?)
      requires interrupted == Interrupted(Abs(), d, o.applied)
      modifies this
      ensures e == (if o.Raise? then Raised(d, o.applied) else Crashed(d, o.applied))
      ensures Abs() == Apply(embed, old(Abs()), e)
      ensures mode == if o.Raise? && inTry then Failing else Dead
      ensures docs == old(docs) && rows == old(rows) && owner == old(owner) && reverted == old(reverted)
      ensures mode.Failing? ==> LiveRun(d) && runs[d] == Handling(old(runs[d]).Finishing?)
      ensures mode.Dead? ==> d !in runs
    {
      points := interrupted;
      if o.Raise? && inTry {
        runs := runs[d := Handling(runs[d].Finishing?)];
        mode := Failing;
      } else {
        runs := runs - {d};
        mode := Dead;
      }
      e := if o.Raise? then Raised(d, o.applied) else Crashed(d, o.applied);
    }

    /** `DocumentRepo.set_status`: only the columns that are given are written. */
    method WriteStatus(d: DocId, status: Status, error: Option<string>, nChunks: Option<nat>,
                       markdownKey: Option<string>, now: nat)
      requires d in docs
      modifies this`docs
      ensures docs == old(docs)[d := SetStatus(old(docs[d]), status, error, nChunks, markdownKey, now)]
      ensures docs == old(docs)[d := docs[d]] && docs[d].info == old(docs[d]).info && docs[d].status == status
      ensures docs[d].error == if error.None? then old(docs[d]).error else error
      ensures docs[d].nChunks == if nChunks.None? then old(docs[d]).nChunks else nChunks
      ensures docs[d].markdownKey == if markdownKey.None? then old(docs[d]).markdownKey else markdownKey
      ensures docs[d].indexedAt == if status.Indexed? then Some(now) else old(docs[d]).indexedAt
    {
      var doc := docs[d].(status := status);
      if error.Some? {
        doc := doc.(error := error);
      }
      if nChunks.Some? {
        doc := doc.(nChunks := nChunks);
      }
      if markdownKey.Some? {
        doc := doc.(markdownKey := markdownKey);
      }
      if status == Indexed {
        doc := doc.(indexedAt := Some(now));
      }
      docs := docs[d := doc];
    }

    // ---- indexer.py --------------------------------------------------------

    /** `delete_doc_vectors`. */
    method DeleteDocVectors(ghost embed: Lines -> Vector, d: DocId, o: Outcome) returns (mode: Mode, ghost e: Event)
      requires LiveRun(d) && runs[d].Purging?
      modifies this
      ensures e.doc == d && Abs() == Apply(embed, old(Abs()), e)
      ensures mode == (if o.Ok? then Running else if o.Raise? then Failing else Dead)
      ensures Untouched(d, mode, old(rows), old(owner), old(reverted)) && docs == old(docs)
      ensures mode.Running? ==> runs[d] == Vectorising(old(runs[d]).chunks)
      ensures o.Ok? ==> e == Purged(d)
      ensures o.Raise? ==> e == Raised(d, o.applied)
    {
      if !o.Ok? {
        mode, e := Interrupt(embed, d, o, true, WithoutSome(points, d, o.applied));
        return;
      }
      points := WithoutDoc(points, d);
      runs := runs[d := Vectorising(runs[d].chunks)];
      mode, e := Running, Purged(d);
    }

    /** The zip loop: one point and one row per chunk, with the same fresh id. */
    method BuildPoints(d: DocId, info: Info, chunks: seq<Chunk>, vectors: seq<Vector>, draw: nat -> PointId)
      returns (ps: seq<Named>, orm: seq<Row>)
      requires |vectors| == |chunks|
      ensures ps == MakePoints(d, info, chunks, vectors, Drawn(draw, |chunks|))
      ensures orm == MakeRows(chunks, Drawn(draw, |chunks|))
    {
      ps, orm := [], [];
      for i := 0 to |chunks|
        invariant |ps| == |orm| == i
        invariant forall j :: 0 <= j < i ==> ps[j] == Named(draw(j), Point(d, info, chunks[j], vectors[j]))
        invariant forall j :: 0 <= j < i ==> orm[j] == Row(chunks[j], draw(j))
      {
        var id := draw(i);
        ps := ps + [Named(id, Point(d, info, chunks[i], vectors[i]))];
        orm := orm + [Row(chunks[i], id)];
      }
    }

    /** One batch of the upsert loop. */
    method UpsertBatch(ghost embed: Lines -> Vector, d: DocId, ps: seq<Named>, next: nat, o: Outcome)
      returns (mode: Mode, ghost e: Event)
      requires LiveRun(d) && runs[d].Upserting? && runs[d].points == ps && runs[d].next == next < |ps|
      modifies this
      ensures e.doc == d && Abs() == Apply(embed, old(Abs()), e)
      ensures mode == (if o.Ok? then Running else if o.Raise? then Failing else Dead)
      ensures docs == old(docs)
      ensures Untouched(d, mode, old(rows), old(owner), old(reverted))
      ensures mode.Running? ==> runs[d] == old(runs[d]).(next := BatchEnd(|ps|, next))
      ensures o.Ok? ==> e == Upserted(d)
      ensures o.Raise? ==> e == Raised(d, o.applied)
    {
      var batch := ps[next..BatchEnd(|ps|, next)];
      if !o.Ok? {
        mode, e := Interrupt(embed, d, o, true, Upsert(points, Applied(batch, o.applied)));
        return;
      }
      points := Upsert(points, batch);
      runs := runs[d := runs[d].(next := BatchEnd(|ps|, next))];
      mode, e := Running, Upserted(d);
    }

    /** Lines 42-72: embed the chunks, build points and rows. */
    method Vectorise(embed: Lines -> Vector, d: DocId, chunks: seq<Chunk>, draw: nat -> PointId)
      returns (ps: seq<Named>, orm: seq<Row>)
      requires LiveRun(d) && runs[d] == Vectorising(chunks) && FreshDraws(owner, draw)
      modifies this
      ensures Abs() == Apply(embed, old(Abs()), Vectorised(d, Drawn(draw, |chunks|)))
      ensures LiveRun(d) && runs[d] == Upserting(orm, ps, 0) && |ps| == |chunks|
      ensures orm == MakeRows(chunks, Drawn(draw, |chunks|))
      ensures docs == old(docs) && rows == old(rows) && reverted == old(reverted)
    {
      var vectors := Vectors(embed, chunks);
      ps, orm := BuildPoints(d, docs[d].info, chunks, vectors, draw);
      runs := runs[d := Upserting(orm, ps, 0)];
      owner := Owners(owner, Drawn(draw, |chunks|), d);
    }

    /** `index_chunks`: embed, build points and rows, upsert in batches. */
    method IndexChunks(embed: Lines -> Vector, d: DocId, chunks: seq<Chunk>, draw: nat -> PointId,
                       plan: Site -> Outcome)
      returns (mode: Mode, orm: seq<Row>, ghost trace: seq<Event>)
      requires LiveRun(d) && runs[d] == Vectorising(chunks)
      requires FreshDraws(owner, draw)
      modifies this
      ensures OnlyOf(trace, d) && Abs() == Run(embed, old(Abs()), trace)
      ensures mode.Running? ==>
                LiveRun(d) && runs[d].Upserting? && runs[d].rows == orm && runs[d].next == |runs[d].points|
      ensures mode.Running? ==> orm == MakeRows(chunks, Drawn(draw, |chunks|))
      ensures docs == old(docs) && rows == old(rows) && reverted == old(reverted)
      ensures mode.Failing? ==> LiveRun(d) && runs[d] == Handling(false)
      ensures mode.Dead? ==> d !in runs
      ensures NoFault(plan) ==> mode.Running?
    {
      hide Apply, Run, MakeRows, Drawn, FreshDraws;
      orm := [];
      if !plan(AtEmbed).Ok? {
        ghost var e;
        mode, e := Interrupt(embed, d, plan(AtEmbed), true, points);
        trace := [e];
        RunOne(embed, old(Abs()), e);
        return;
      }
      var ps;
      ps, orm := Vectorise(embed, d, chunks, draw);
      ghost var first := Vectorised(d, Drawn(draw, |chunks|));
      RunOne(embed, old(Abs()), first);
      ghost var batches;
      mode, batches := UpsertAll(embed, d, ps, plan);
      trace := [first] + batches;
      RunConcat(embed, old(Abs()), [first], batches);
    }

    /** The batch loop. */
    method UpsertAll(ghost embed: Lines -> Vector, d: DocId, ps: seq<Named>, plan: Site -> Outcome)
      returns (mode: Mode, ghost trace: seq<Event>)
      requires LiveRun(d) && runs[d].Upserting? && runs[d].points == ps && runs[d].next == 0
      modifies this
      ensures OnlyOf(trace, d) && Abs() == Run(embed, old(Abs()), trace)
      ensures mode.Running? ==> LiveRun(d) && runs[d] == old(runs[d]).(next := |ps|)
      ensures mode.Running? ==> |trace| == (|ps| + 127) / 128
      ensures docs == old(docs) && rows == old(rows) && reverted == old(reverted)
      ensures mode.Failing? ==> LiveRun(d) && runs[d] == Handling(false)
      ensures mode.Dead? ==> d !in runs
      ensures NoFault(plan) ==> mode.Running?
    {
      hide Apply;
      trace := [];
      mode := Running;
      var i := 0;
      while i < |ps| && mode.Running?
        invariant i <= |ps|
        invariant OnlyOf(trace, d) && Abs() == Run(embed, old(Abs()), trace)
        invariant mode.Running? ==> LiveRun(d) && runs[d] == old(runs[d]).(next := i)
        invariant i == if 128 * |trace| < |ps| then 128 * |trace| else |ps|
        invariant mode.Running? && i == |ps| ==> |trace| == (|ps| + 127) / 128
        invariant docs == old(docs) && rows == old(rows) && reverted == old(reverted)
        invariant mode.Failing? ==> LiveRun(d) && runs[d] == Handling(false)
        invariant mode.Dead? ==> d !in runs
        invariant NoFault(plan) ==> mode.Running?
        decreases |ps| - i, mode.Running?
      {
        ghost var e;
        mode, e := UpsertBatch(embed, d, ps, i, plan(AtUpsert(i)));
        RunSnoc(embed, old(Abs()), trace, e);
        trace := trace + [e];
        i := BatchEnd(|ps|, i);
      }
    }

    // ---- ingestion.py ------------------------------------------------------

    /** Lines 62-74: download, parse, store the markdown, commit "chunking". */
    method Parse(ghost embed: Lines -> Vector, d: DocId, key: string, o: Outcome) returns (mode: Mode, ghost e: Event)
      requires LiveRun(d) && runs[d].Fetching?
      modifies this
      ensures e.doc == d && Abs() == Apply(embed, old(Abs()), e)
      ensures mode == (if o.Ok? then Running else if o.Raise? then Failing else Dead)
      ensures Untouched(d, mode, old(rows), old(owner), old(reverted))
      ensures mode.Running? ==> runs[d].Chunking?
      ensures docs == if mode.Running?
                      then old(docs)[d := old(docs[d]).(status := ChunkingDoc, markdownKey := Some(key))] else old(docs)
      ensures o.Ok? ==> e == Parsed(d, key)
      ensures o.Raise? ==> e == Raised(d, o.applied)
    {
      if !o.Ok? {
        mode, e := Interrupt(embed, d, o, true, points);
        return;
      }
      WriteStatus(d, ChunkingDoc, None, None, Some(key), 0);
      runs := runs[d := Phase.Chunking];
      mode, e := Running, Parsed(d, key);
    }

    /** Lines 76-84: chunk the document, raise if there is no chunk, commit "embedding". */
    method MakeChunks(ghost embed: Lines -> Vector, cfg: Config, d: DocId, md: Lines, o: Outcome)
      returns (mode: Mode, chunks: seq<Chunk>, ghost e: Event)
      requires LiveRun(d) && runs[d].Chunking? && GoodSplitter(cfg.splitter)
      modifies this
      ensures e.doc == d && Abs() == Apply(embed, old(Abs()), e)
      ensures chunks == Chunks(cfg, md)
      ensures mode == (if o.Die? then Dead else if o.Ok? && chunks != [] then Running else Failing)
      ensures Untouched(d, mode, old(rows), old(owner), old(reverted))
      ensures mode.Running? ==> runs[d] == Purging(chunks)
      ensures docs == if mode.Running? then old(docs)[d := old(docs[d]).(status := EmbeddingDoc)] else old(docs)
      ensures mode.Running? ==> e == Chunked(d, chunks)
      ensures mode.Failing? ==> e.Raised?
    {
      chunks := ChunkDocument(cfg, md);
      if !o.Ok? {
        mode, e := Interrupt(embed, d, o, true, points);
      } else if chunks == [] {
        mode, e := Interrupt(embed, d, Raise({}), true, points);
      } else {
        WriteStatus(d, EmbeddingDoc, None, None, None, 0);
        runs := runs[d := Purging(chunks)];
        mode, e := Running, Chunked(d, chunks);
      }
    }

    /** Lines 97-99: rows and status "indexed" in one transaction, which the unique constraint
        may reject. */
    method Commit(ghost embed: Lines -> Vector, d: DocId, orm: seq<Row>, now: nat, o: Outcome)
      returns (mode: Mode, ghost e: Event)
      requires LiveRun(d) && runs[d].Upserting? && runs[d].rows == orm && runs[d].next == |runs[d].points|
      modifies this
      ensures e.doc == d && Abs() == Apply(embed, old(Abs()), e)
      ensures mode == (if o.Die? then Dead else if o.Ok? && !Conflict(old(rows), d, orm) then Running else Failing)
      ensures mode.Running? ==> e == Committed(d, now)
      ensures mode.Running? ==> LiveRun(d) && runs[d].Finishing? && reverted == old(reverted)
      ensures docs == if mode.Running?
                      then old(docs)[d := CommittedDoc(old(docs[d]), |orm|, now)]
                      else old(docs)
      ensures rows == if mode.Running? then InsertRows(old(rows), d, orm) else old(rows)
      ensures mode.Failing? ==> LiveRun(d) && runs[d] == Handling(false)
      ensures mode.Dead? ==> d !in runs
    {
      if !o.Ok? {
        mode, e := Interrupt(embed, d, o, true, points);
        return;
      }
      e := Committed(d, now);
      if Conflict(rows, d, orm) {
        runs := runs[d := Handling(false)];
        mode := Failing;
        return;
      }
      rows := InsertRows(rows, d, orm);
      WriteStatus(d, Indexed, None, Some(|orm|), None, now);
      runs := runs[d := Finishing];
      mode := Running;
    }

    /** Lines 61-88: everything before the new points are made. */
    method PrepareRun(ghost embed: Lines -> Vector, cfg: Config, d: DocId, key: string, md: Lines,
                      plan: Site -> Outcome)
      returns (mode: Mode, chunks: seq<Chunk>, ghost trace: seq<Event>)
      requires LiveRun(d) && runs[d].Fetching? && GoodSplitter(cfg.splitter)
      modifies this
      ensures OnlyOf(trace, d) && Abs() == Run(embed, old(Abs()), trace)
      ensures mode.Running? ==> LiveRun(d) && runs[d] == Vectorising(chunks) && chunks == Chunks(cfg, md) != []
      ensures Untouched(d, mode, old(rows), old(owner), old(reverted))
      ensures OnlyChanged(d, old(docs), docs) && SameButStatusAndKey(old(docs[d]), docs[d])
      ensures docs[d].markdownKey == if plan(AtFetch).Ok? then Some(key) else old(docs[d]).markdownKey
      ensures mode.Running? ==> plan(AtFetch).Ok?
      ensures NoFault(plan) ==> mode == if Chunks(cfg, md) != [] then Running else Failing
    {
      hide Apply, Run, GoodSplitter, Chunks;
      chunks := [];
      ghost var e;
      mode, e := Parse(embed, d, key, plan(AtFetch));
      trace := [e];
      RunOne(embed, old(Abs()), e);
      if mode.Running? {
        mode, chunks, e := MakeChunks(embed, cfg, d, md, plan(AtChunk));
        RunSnoc(embed, old(Abs()), trace, e);
        trace := trace + [e];
      }
      if mode.Running? {
        mode, e := DeleteDocVectors(embed, d, plan(AtPurge));
        RunSnoc(embed, old(Abs()), trace, e);
        trace := trace + [e];
      }
    }

    /** Lines 89-101: index, commit, publish. */
    method IndexAndCommit(embed: Lines -> Vector, d: DocId, chunks: seq<Chunk>, draw: nat -> PointId,
                          plan: Site -> Outcome, now: nat)
      returns (mode: Mode, ghost trace: seq<Event>)
      requires LiveRun(d) && runs[d] == Vectorising(chunks) && FreshDraws(owner, draw)
      modifies this
      ensures OnlyOf(trace, d) && Abs() == Run(embed, old(Abs()), trace)
      ensures mode.Running? ==> LiveRun(d) && runs[d].Finishing?
      ensures mode.Running? ==> docs == old(docs)[d := CommittedDoc(old(docs[d]), |chunks|, now)]
      ensures mode.Running? ==> rows == InsertRows(old(rows), d, MakeRows(chunks, Drawn(draw, |chunks|)))
      ensures mode.Failing? ==> LiveRun(d) && runs[d].Handling?
      ensures mode.Failing? && runs[d].committed ==> docs == old(docs)[d := CommittedDoc(old(docs[d]), |chunks|, now)]
      ensures mode.Failing? && runs[d].committed ==>
                rows == InsertRows(old(rows), d, MakeRows(chunks, Drawn(draw, |chunks|))) &&
                !Conflict(old(rows), d, MakeRows(chunks, Drawn(draw, |chunks|)))
      ensures mode.Failing? && !runs[d].committed ==> docs == old(docs) && rows == old(rows)
      ensures mode.Dead? ==> docs == old(docs) || docs == old(docs)[d := CommittedDoc(old(docs[d]), |chunks|, now)]
      ensures mode.Running? ==> !Conflict(old(rows), d, MakeRows(chunks, Drawn(draw, |chunks|)))
      ensures mode.Running? ==> reverted == old(reverted)
      ensures mode.Dead? ==> d !in runs
      ensures NoFault(plan) ==>
                mode == if Conflict(old(rows), d, MakeRows(chunks, Drawn(draw, |chunks|))) then Failing else Running
    {
      hide Apply;
      var orm;
      ghost var e;
      mode, orm, trace := IndexChunks(embed, d, chunks, draw, plan);
      if mode.Running? {
        mode, e := Commit(embed, d, orm, now, plan(AtCommit));
        RunSnoc(embed, old(Abs()), trace, e);
        trace := trace + [e];
      }
      if mode.Running? && !plan(AtFinish).Ok? {
        mode, e := Interrupt(embed, d, plan(AtFinish), true, points);
        RunSnoc(embed, old(Abs()), trace, e);
        trace := trace + [e];
      }
    }

    /** Line 101: the last publish went through. */
    method Finish(ghost embed: Lines -> Vector, d: DocId)
      requires LiveRun(d) && runs[d].Finishing?
      modifies this`runs
      ensures Abs() == Apply(embed, old(Abs()), Finished(d)) && d !in runs
    {
      runs := runs - {d};
    }

    /** Lines 105-111: the handler writes "failed"; its own write may go wrong too. */
    method Handle(ghost embed: Lines -> Vector, d: DocId, message: string, o: Outcome) returns (ghost e: Event)
      requires LiveRun(d) && runs[d].Handling?
      modifies this
      ensures e.doc == d && Abs() == Apply(embed, old(Abs()), e)
      ensures d !in runs && rows == old(rows)
      ensures docs == if o.Ok? then old(docs)[d := old(docs[d]).(status := Failed, error := Some(message))]
                      else old(docs)
    {
      if !o.Ok? {
        var mode;
        mode, e := Interrupt(embed, d, o, false, points);
        return;
      }
      WriteStatus(d, Failed, Some(message), None, None, 0);
      reverted := if runs[d].committed then reverted + {d} else reverted;
      runs := runs - {d};
      e := Handled(d, message);
    }

    /** Lines 40-58: skip a missing or indexed document, commit "parsing", publish. */
    method Begin(ghost embed: Lines -> Vector, d: DocId, o: Outcome) returns (mode: Mode, ghost trace: seq<Event>)
      requires d in docs && d !in runs && docs[d].status != Indexed
      modifies this
      ensures OnlyOf(trace, d) && Abs() == Run(embed, old(Abs()), trace)
      ensures mode == if o.Ok? then Running else Dead
      ensures mode.Running? ==> LiveRun(d) && runs[d].Fetching?
      ensures mode.Dead? ==> d !in runs
      ensures rows == old(rows) && reverted == old(reverted) && owner == old(owner)
      ensures points == old(points) && docs == old(docs)[d := old(docs[d]).(status := Parsing)]
    {
      WriteStatus(d, Parsing, None, None, None, 0);
      runs := runs[d := Announcing];
      trace := [Started(d)];
      RunOne(embed, old(Abs()), Started(d));
      ghost var e := Announced(d);
      if o.Ok? {
        runs := runs[d := Fetching];
        mode := Running;
      } else {
        mode, e := Interrupt(embed, d, o, false, points);
      }
      RunSnoc(embed, old(Abs()), trace, e);
      trace := trace + [e];
    }

    /** Lines 40-88: everything before the new points are made. */
    method Ready(ghost embed: Lines -> Vector, cfg: Config, d: DocId, key: string, md: Lines, plan: Site -> Outcome,
                 ghost now: nat)
      returns (mode: Mode, chunks: seq<Chunk>, ghost trace: seq<Event>)
      requires d in docs && d !in runs && docs[d].status != Indexed && GoodSplitter(cfg.splitter)
      modifies this
      ensures OnlyOf(trace, d) && Abs() == Run(embed, old(Abs()), trace)
      ensures mode.Running? ==> LiveRun(d) && runs[d] == Vectorising(chunks) && chunks == Chunks(cfg, md) != []
      ensures Untouched(d, mode, old(rows), old(owner), old(reverted)) && OnlyChanged(d, old(docs), docs)
      ensures docs[d].info == old(docs[d]).info && docs[d].error == old(docs[d]).error
      ensures mode.Running? ==>
                CommittedDoc(docs[d], |chunks|, now) ==
                Doc(old(docs[d]).info, Indexed, Some(|chunks|), Some(key), old(docs[d]).error, Some(now))
      ensures mode.Running? ==> FailedDoc(old(docs[d]), CommittedDoc(docs[d], |chunks|, now),
                                          if plan(AtFetch).Ok? then Some(key) else None, false, |chunks|, now)
      ensures !mode.Dead? ==> FailedDoc(old(docs[d]), docs[d], if plan(AtFetch).Ok? then Some(key) else None, true,
                                        |Chunks(cfg, md)|, now)
      ensures NoFault(plan) ==> mode == if Chunks(cfg, md) != [] then Running else Failing
    {
      assert NoFault(plan) ==> plan(AtAnnounce).Ok?;
      hide Apply, Run, GoodSplitter, OnlyChanged, NoFault, Chunks, FailedDoc, SameButStatusAndKey, CommittedDoc;
      ghost var docs0 := docs;
      mode, trace := Begin(embed, d, plan(AtAnnounce));
      OneColumn(d, docs0, docs0[d].(status := Parsing));
      ghost var docs1 := docs;
      chunks := [];
      if mode.Running? {
        ghost var more;
        mode, chunks, more := PrepareRun(embed, cfg, d, key, md, plan);
        RunConcat(embed, old(Abs()), trace, more);
        trace := trace + more;
        OnlyChangedTwice(d, docs0, docs1, docs);
        RunColumns(docs0[d], docs[d], if plan(AtFetch).Ok? then Some(key) else None, |Chunks(cfg, md)|, now);
      }
    }

    /** Lines 40-101: one attempt, up to the point where it has succeeded, is in its handler, or
        is dead. */
    method Attempt(embed: Lines -> Vector, cfg: Config, d: DocId, key: string, md: Lines,
                   draw: nat -> PointId, plan: Site -> Outcome, now: nat)
      returns (mode: Mode, n: nat, ghost trace: seq<Event>)
      requires d in docs && d !in runs && docs[d].status != Indexed
      requires GoodSplitter(cfg.splitter) && FreshDraws(owner, draw)
      modifies this
      ensures OnlyOf(trace, d) && Abs() == Run(embed, old(Abs()), trace)
      ensures mode.Running? ==> LiveRun(d) && runs[d].Finishing?
      ensures OnlyChanged(d, old(docs), docs)
      ensures docs[d].info == old(docs[d]).info && docs[d].error == old(docs[d]).error
      ensures mode.Running? ==>
                docs[d] ==
                Doc(old(docs[d]).info, Indexed, Some(|Chunks(cfg, md)|), Some(key), old(docs[d]).error, Some(now))
      ensures mode.Failing? ==>
                FailedDoc(old(docs[d]), docs[d], if plan(AtFetch).Ok? then Some(key) else None, rows == old(rows),
                          |Chunks(cfg, md)|, now)
      ensures mode.Running? ==> n == |Chunks(cfg, md)| && rows == InsertRows(old(rows), d, NewRows(cfg, md, draw))
      ensures mode.Running? ==> Chunks(cfg, md) != [] && !Conflict(old(rows), d, NewRows(cfg, md, draw))
      ensures mode.Failing? ==> LiveRun(d) && runs[d].Handling?
      ensures mode.Dead? ==> d !in runs
      ensures NoFault(plan) ==>
                mode ==
                if Chunks(cfg, md) != [] && !Conflict(old(rows), d, NewRows(cfg, md, draw)) then Running else Failing
    {
      hide Apply, Run, Conflict, InsertRows, MakeRows, Drawn, FreshDraws, GoodSplitter, OnlyChanged, NoFault, Chunks;
      hide FailedDoc, CommittedDoc;
      n := 0;
      ghost var docs0, rows0 := docs, rows;
      var chunks;
      mode, chunks, trace := Ready(embed, cfg, d, key, md, plan, now);
      if mode.Running? {
        n := |chunks|;
        ghost var docs1 := docs;
        ghost var more;
        mode, more := IndexAndCommit(embed, d, chunks, draw, plan, now);
        RunConcat(embed, old(Abs()), trace, more);
        trace := trace + more;
        OneColumn(d, docs1, CommittedDoc(docs1[d], n, now));
        OnlyChangedTwice(d, docs0, docs1, docs);
        if mode.Failing? && runs[d].committed {
          InsertedIsNew(rows0, d, MakeRows(chunks, Drawn(draw, n)));
        }
      }
    }

    /** One delivery of the job, from any state of the stores without a live run of `d`. It is a
        trace of the protocol that ends without a live run; without faults it succeeds exactly
        when there is a chunk and the unique constraint accepts the rows. */
    method ProcessDocument(embed: Lines -> Vector, cfg: Config, d: DocId, key: string, md: Lines,
                           draw: nat -> PointId, plan: Site -> Outcome, message: string, now: nat)
      returns (result: Result, ghost trace: seq<Event>)
      requires d !in runs && GoodSplitter(cfg.splitter) && FreshDraws(owner, draw)
      modifies this
      ensures OnlyOf(trace, d) && Abs() == Run(embed, old(Abs()), trace) && d !in runs
      ensures result.Missing? <==> d !in old(docs)
      ensures result.AlreadyIndexed? <==> d in old(docs) && old(docs)[d].status == Indexed
      ensures result.Missing? || result.AlreadyIndexed? ==> Abs() == old(Abs())
      ensures result.Done? ==> result.n == |Chunks(cfg, md)|
      ensures d in old(docs) ==> OnlyChanged(d, old(docs), docs) && docs[d].info == old(docs[d]).info
      ensures result.Done? ==>
                docs[d] == Doc(old(docs[d]).info, Indexed, Some(result.n), Some(key), old(docs[d]).error, Some(now))
      ensures result.JobFailed? && plan(AtHandler).Ok? ==> docs[d].status == Failed && docs[d].error == Some(message)
      ensures result.WorkerDied? || (result.JobFailed? && !plan(AtHandler).Ok?) ==>
                docs[d].error == old(docs[d]).error
      ensures result.JobFailed? ==>
                FailedDoc(old(docs[d]), docs[d], if plan(AtFetch).Ok? then Some(key) else None, rows == old(rows),
                          |Chunks(cfg, md)|, now)
      ensures result.Done? ==> rows == InsertRows(old(rows), d, NewRows(cfg, md, draw))
      ensures NoFault(plan) && d in old(docs) && old(docs)[d].status != Indexed ==>
                (result.Done? <==> Chunks(cfg, md) != [] && !Conflict(old(rows), d, NewRows(cfg, md, draw)))
      ensures result.Done? ==> Chunks(cfg, md) != [] && !Conflict(old(rows), d, NewRows(cfg, md, draw))
    {
      hide Apply, Conflict, InsertRows, NewRows, GoodSplitter, FreshDraws;
      trace := [];
      if d !in docs {
        return Missing, trace;
      }
      if docs[d].status == Indexed {
        return AlreadyIndexed, trace;
      }
      var mode, n;
      mode, n, trace := Attempt(embed, cfg, d, key, md, draw, plan, now);
      if mode.Running? {
        RunSnoc(embed, old(Abs()), trace, Finished(d));
        trace := trace + [Finished(d)];
        Finish(embed, d);
        result := Done(n);
      } else if mode.Dead? {
        result := WorkerDied;
      } else {
        ghost var e := Handle(embed, d, message, plan(AtHandler));
        RunSnoc(embed, old(Abs()), trace, e);
        trace := trace + [e];
        result := JobFailed;
      }
    }

    /** A delivery in a reachable state: the invariant holds again, a success leaves the rows of
        exactly the chunks of the document, and without faults every document that has a chunk
        succeeds, whatever earlier runs left behind, unless it was reverted. */
    method Deliver(embed: Lines -> Vector, cfg: Config, d: DocId, key: string, md: Lines,
                   draw: nat -> PointId, plan: Site -> Outcome, message: string, now: nat)
      returns (result: Result)
      requires d !in runs && GoodSplitter(cfg.splitter) && FreshDraws(owner, draw)
      requires Inv(embed, Abs())
      modifies this
      ensures Inv(embed, Abs()) && d !in runs
      ensures result.Missing? <==> d !in old(docs)
      ensures result.AlreadyIndexed? <==> d in old(docs) && old(docs)[d].status == Indexed
      ensures result.Done? ==> ExactlyIndexed(embed, d, ViewOf(Abs(), d)) && HoldsChunks(rows, d, Chunks(cfg, md))
      ensures NoFault(plan) && d in old(docs) && old(docs)[d].status != Indexed ==>
                (result.Done? <==> Chunks(cfg, md) != [] && d !in old(reverted))
      ensures forall x :: x != d ==> ViewOf(Abs(), x) == ViewOf(old(Abs()), x)
      ensures d in old(docs) ==> OnlyChanged(d, old(docs), docs) && docs[d].info == old(docs[d]).info
      ensures result.Done? ==>
                docs[d] ==
                Doc(old(docs[d]).info, Indexed, Some(|Chunks(cfg, md)|), Some(key), old(docs[d]).error, Some(now))
      ensures result.JobFailed? && plan(AtHandler).Ok? ==> docs[d].status == Failed && docs[d].error == Some(message)
      ensures result.WorkerDied? || (result.JobFailed? && !plan(AtHandler).Ok?) ==>
                docs[d].error == old(docs[d]).error
      ensures result.JobFailed? ==>
                FailedDoc(old(docs[d]), docs[d], if plan(AtFetch).Ok? then Some(key) else None, rows == old(rows),
                          |Chunks(cfg, md)|, now)
    {
      hide Apply, Inv, ViewOf, ExactlyIndexed, InsertRows;
      ghost var s := Abs();
      ghost var trace;
      result, trace := ProcessDocument(embed, cfg, d, key, md, draw, plan, message, now);
      RunKeepsInv(embed, s, trace);
      DeliveryOutcome(embed, cfg, d, md, draw, plan, s, Abs(), result);
      forall x | x != d ensures ViewOf(Abs(), x) == ViewOf(s, x) {
        OthersDoNotMatter(embed, s, trace, x);
      }
    }
  }

  /** No other document has changed. */
  ghost predicate OnlyChanged(d: DocId, before: map<DocId, Doc>, after: map<DocId, Doc>) {
    d in before && d in after && after == before[d := after[d]]
  }

  lemma OnlyChangedTwice(d: DocId, a: map<DocId, Doc>, b: map<DocId, Doc>, c: map<DocId, Doc>)
    requires OnlyChanged(d, a, b) && OnlyChanged(d, b, c)
    ensures OnlyChanged(d, a, c)
  {
  }

  lemma OneColumn(d: DocId, a: map<DocId, Doc>, doc: Doc)
    requires d in a
    ensures OnlyChanged(d, a, a[d := doc]) && OnlyChanged(d, a, a)
  {
  }

  /** What a run that failed has written: the key of the markdown once it was stored, and the number of
      chunks and the time once its rows were committed. */
  ghost predicate FailedDoc(was: Doc, doc: Doc, key: Option<string>, kept: bool, n: nat, now: nat) {
    && doc.markdownKey == (if key.Some? then key else was.markdownKey)
    && doc.nChunks == (if kept then was.nChunks else Some(n))
    && doc.indexedAt == (if kept then was.indexedAt else Some(now))
  }

  /** The row of a document after the final commit. */
  ghost function CommittedDoc(was: Doc, n: nat, now: nat): Doc {
    was.(status := Indexed, nChunks := Some(n), indexedAt := Some(now))
  }

  ghost predicate SameButStatusAndKey(was: Doc, doc: Doc) {
    doc == was.(status := doc.status, markdownKey := doc.markdownKey)
  }

  /** The columns of a run, before and after its final commit. */
  lemma RunColumns(was: Doc, doc: Doc, key: Option<string>, n: nat, now: nat)
    requires SameButStatusAndKey(was.(status := Parsing), doc)
    requires doc.markdownKey == if key.Some? then key else was.markdownKey
    ensures FailedDoc(was, doc, key, true, n, now) && FailedDoc(was, CommittedDoc(doc, n, now), key, false, n, now)
    ensures doc.info == was.info && doc.error == was.error
    ensures key.Some? ==> CommittedDoc(doc, n, now) == Doc(was.info, Indexed, Some(n), key, was.error, Some(now))
    ensures var c := CommittedDoc(doc, n, now); c.info == was.info && c.error == was.error
  {
  }

  lemma InsertedIsNew(rows: map<RowKey, Row>, d: DocId, new_: seq<Row>)
    requires new_ != [] && !Conflict(rows, d, new_)
    ensures InsertRows(rows, d, new_) != rows
  {
    var key := RowKey(d, new_[|new_| - 1].chunk.index);
    assert key in InsertRows(rows, d, new_) && key !in rows;
  }

  /** The rows of `d` carry the chunks, each under its own index. */
  ghost predicate HoldsChunks(rows: map<RowKey, Row>, d: DocId, chunks: seq<Chunk>) {
    forall i :: 0 <= i < |chunks| ==> RowKey(d, i) in rows && rows[RowKey(d, i)].chunk == chunks[i]
  }

  lemma NewRowsInOrder(cfg: Config, md: Lines, draw: nat -> PointId)
    requires GoodSplitter(cfg.splitter)
    ensures InOrder(NewRows(cfg, md, draw))
  {
    EmittedInOrder(cfg.tokens, Calls(cfg, md));
  }

  lemma ConflictMeansReverted(embed: Lines -> Vector, s: State, d: DocId, orm: seq<Row>)
    requires Inv(embed, s) && d in s.docs && s.docs[d].status != Indexed
    requires InOrder(orm) && orm != []
    ensures Conflict(s.rows, d, orm) <==> d in s.reverted
  {
    var v := ViewOf(s, d);
    assert Good(embed, d, v);
    assert forall k :: k in s.rows && k.doc == d ==> k in v.rows;
    if d in s.reverted {
      assert RowKey(d, orm[0].chunk.index) in v.rows;
    }
  }

  lemma InsertedChunks(rows: map<RowKey, Row>, cfg: Config, d: DocId, md: Lines, draw: nat -> PointId)
    requires GoodSplitter(cfg.splitter)
    ensures HoldsChunks(InsertRows(rows, d, NewRows(cfg, md, draw)), d, Chunks(cfg, md))
  {
    NewRowsInOrder(cfg, md, draw);
    InsertedRows(rows, d, NewRows(cfg, md, draw));
  }

  /** An indexed document is not a reverted one. */
  lemma IndexedIsExact(embed: Lines -> Vector, t: State, d: DocId)
    requires Inv(embed, t) && d in t.docs && t.docs[d].status == Indexed
    ensures ExactlyIndexed(embed, d, ViewOf(t, d))
  {
    assert Good(embed, d, ViewOf(t, d));
  }

  lemma DeliveryOutcome(embed: Lines -> Vector, cfg: Config, d: DocId, md: Lines, draw: nat -> PointId,
                        plan: Site -> Outcome, s: State, t: State, result: Result)
    requires Inv(embed, s) && Inv(embed, t) && GoodSplitter(cfg.splitter)
    requires result.Done? ==> d in t.docs && t.docs[d].status == Indexed
    requires result.Done? ==> t.rows == InsertRows(s.rows, d, NewRows(cfg, md, draw))
    requires NoFault(plan) && d in s.docs && s.docs[d].status != Indexed ==>
               (result.Done? <==> Chunks(cfg, md) != [] && !Conflict(s.rows, d, NewRows(cfg, md, draw)))
    ensures result.Done? ==> ExactlyIndexed(embed, d, ViewOf(t, d)) && HoldsChunks(t.rows, d, Chunks(cfg, md))
    ensures NoFault(plan) && d in s.docs && s.docs[d].status != Indexed ==>
              (result.Done? <==> Chunks(cfg, md) != [] && d !in s.reverted)
  {
    hide Inv, ViewOf, ExactlyIndexed, InsertRows, Conflict;
    if result.Done? {
      IndexedIsExact(embed, t, d);
      InsertedChunks(s.rows, cfg, d, md, draw);
    }
    if d in s.docs && s.docs[d].status != Indexed && Chunks(cfg, md) != [] {
      NewRowsInOrder(cfg, md, draw);
      ConflictMeansReverted(embed, s, d, NewRows(cfg, md, draw));
    }
  }

  ghost predicate NoFault(plan: Site -> Outcome) {
    forall s :: plan(s).Ok?
  }

  /** `uuid4()`: the ids it draws are distinct and were never drawn before. */
  ghost predicate FreshDraws(owner: map<PointId, DocId>, draw: nat -> PointId) {
    && (forall i, j :: i != j ==> draw(i) != draw(j))
    && (forall i :: draw(i) !in owner)
  }

  /** The rows a run will insert. */
  ghost function NewRows(cfg: Config, md: Lines, draw: nat -> PointId): (orm: seq<Row>)
    requires GoodSplitter(cfg.splitter)
    ensures |orm| == |Chunks(cfg, md)|
  {
    MakeRows(Chunks(cfg, md), Drawn(draw, |Chunks(cfg, md)|))
  }

  // ---- traces --------------------------------------------------------------

  function Drawn(draw: nat -> PointId, n: nat): (ids: seq<PointId>)
    ensures |ids| == n && forall i :: 0 <= i < n ==> ids[i] == draw(i)
  {
    seq(n, i requires 0 <= i < n => draw(i))
  }

  ghost predicate OnlyOf(trace: seq<Event>, d: DocId) {
    forall i :: 0 <= i < |trace| ==> trace[i].doc == d
  }

  lemma RunSnoc(embed: Lines -> Vector, s: State, trace: seq<Event>, e: Event)
    ensures Run(embed, s, trace + [e]) == Apply(embed, Run(embed, s, trace), e)
  {
    assert (trace + [e])[..|trace|] == trace;
  }

  lemma RunOne(embed: Lines -> Vector, s: State, e: Event)
    ensures Run(embed, s, [e]) == Apply(embed, s, e)
  {
    assert [e][..0] == [];
  }

  lemma {:induction false} RunConcat(embed: Lines -> Vector, s: State, a: seq<Event>, b: seq<Event>)
    ensures Run(embed, s, a + b) == Run(embed, Run(embed, s, a), b)
  {
    if b == [] {
      assert a + b == a;
    } else {
      assert (a + b)[..|a + b| - 1] == a + b[..|b| - 1];
      RunConcat(embed, s, a, b[..|b| - 1]);
    }
  }
}
