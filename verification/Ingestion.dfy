/**
 The ingestion protocol as a state machine over its stores: the document and chunk tables, the
 vector store, and the runs of `process_document` (src/worker/tasks/ingestion.py:36-111). Any
 sequence of events is an interleaving of any number of documents, each with at most one live
 run. An event covers the code between two awaits whose effects other runs or a crash can
 observe. Calls that fail or are cut off may have applied any part of their request.
 */
module Ingestion {
  import opened Prelude
  import opened Text
  import opened Chunker

  type DocId = nat
  type PointId = nat
  type Vector = seq<real>

  datatype Status = Pending | Parsing | ChunkingDoc | EmbeddingDoc | Indexed | Failed

  datatype Info = Info(tenant: nat, user: nat, title: string, mime: string, storageKey: string)

  datatype Doc = Doc(info: Info, status: Status, nChunks: Option<nat>, markdownKey: Option<string>,
                     error: Option<string>, indexedAt: Option<nat>)

  /** The unique key of the chunk table (src/db/models/document.py:77). */
  datatype RowKey = RowKey(doc: DocId, index: nat)

  datatype Row = Row(chunk: Chunk, point: PointId)

  datatype Point = Point(doc: DocId, info: Info, chunk: Chunk, vector: Vector)

  datatype Named = Named(id: PointId, point: Point)

  /** Where a live run of `process_document` stands. */
  datatype Phase =
    | Announcing                                             // line 58, before the `try`
    | Fetching                                               // lines 62-74
    | Chunking                                               // lines 76-84
    | Purging(chunks: seq<Chunk>)                            // lines 85-88
    | Vectorising(chunks: seq<Chunk>)                        // indexer.py:46-72
    | Upserting(rows: seq<Row>, points: seq<Named>, next: nat) // indexer.py:75-80, then lines 97-99
    | Finishing                                              // line 101, after the final commit
    | Handling(committed: bool)                              // lines 105-108

  /** `owner` remembers for which document each point id was drawn; `reverted` the documents whose
      handler overwrote an already committed "indexed". Neither is visible to the program. */
  datatype State = State(docs: map<DocId, Doc>, rows: map<RowKey, Row>, points: map<PointId, Point>,
                         runs: map<DocId, Phase>, owner: map<PointId, DocId>, reverted: set<DocId>)

  datatype Event =
    | Uploaded(doc: DocId, info: Info)
    | Started(doc: DocId)
    | Announced(doc: DocId)
    | Parsed(doc: DocId, key: string)
    | Chunked(doc: DocId, chunks: seq<Chunk>)
    | Purged(doc: DocId)
    | Vectorised(doc: DocId, ids: seq<PointId>)
    | Upserted(doc: DocId)
    | Committed(doc: DocId, at: nat)
    | Finished(doc: DocId)
    | Raised(doc: DocId, applied: set<PointId>)
    | Handled(doc: DocId, message: string)
    | Crashed(doc: DocId, applied: set<PointId>)

  const BATCH: nat := 128

  // ---- the indexer on values -----------------------------------------------

  ghost predicate Fresh(owner: map<PointId, DocId>, ids: seq<PointId>) {
    Distinct(ids) && forall i :: 0 <= i < |ids| ==> ids[i] !in owner
  }

  /** One point per chunk: its payload, its vector and a fresh id. */
  function MakePoints(d: DocId, info: Info, chunks: seq<Chunk>, vectors: seq<Vector>,
                      ids: seq<PointId>): (ps: seq<Named>)
    requires |chunks| == |vectors| == |ids|
    ensures |ps| == |chunks|
    ensures forall i :: 0 <= i < |ps| ==> ps[i] == Named(ids[i], Point(d, info, chunks[i], vectors[i]))
  {
    seq(|chunks|, i requires 0 <= i < |chunks| => Named(ids[i], Point(d, info, chunks[i], vectors[i])))
  }

  function MakeRows(chunks: seq<Chunk>, ids: seq<PointId>): (rows: seq<Row>)
    requires |chunks| == |ids|
    ensures |rows| == |chunks|
    ensures forall i :: 0 <= i < |rows| ==> rows[i] == Row(chunks[i], ids[i])
  {
    seq(|chunks|, i requires 0 <= i < |chunks| => Row(chunks[i], ids[i]))
  }

  function Vectors(embed: Lines -> Vector, chunks: seq<Chunk>): (vs: seq<Vector>)
    ensures |vs| == |chunks|
    ensures forall i :: 0 <= i < |vs| ==> vs[i] == embed(chunks[i].text)
  {
    seq(|chunks|, i requires 0 <= i < |chunks| => embed(chunks[i].text))
  }

  /** Upserting points one after the other. */
  function Upsert(points: map<PointId, Point>, ps: seq<Named>): map<PointId, Point> {
    if ps == [] then points else Upsert(points, ps[..|ps| - 1])[ps[|ps| - 1].id := ps[|ps| - 1].point]
  }

  /** The part of a batch that a failed upsert did apply. */
  function Applied(ps: seq<Named>, ids: set<PointId>): seq<Named> {
    if ps == [] then []
    else Applied(ps[..|ps| - 1], ids) + if ps[|ps| - 1].id in ids then [ps[|ps| - 1]] else []
  }

  function BatchEnd(n: nat, next: nat): (hi: nat)
    requires next <= n
    ensures next <= hi <= n && (next < n ==> next < hi)
  {
    if next + BATCH < n then next + BATCH else n
  }

  function OfDoc(points: map<PointId, Point>, d: DocId): map<PointId, Point> {
    map i | i in points && points[i].doc == d :: points[i]
  }

  function WithoutDoc(points: map<PointId, Point>, d: DocId): map<PointId, Point> {
    map i | i in points && points[i].doc != d :: points[i]
  }

  function WithoutSome(points: map<PointId, Point>, d: DocId, ids: set<PointId>): map<PointId, Point> {
    map i | i in points && (points[i].doc != d || i !in ids) :: points[i]
  }

  // ---- the tables on values ------------------------------------------------

  /** Two rows with one key: the unique constraint rejects the insert. */
  predicate Conflict(rows: map<RowKey, Row>, d: DocId, new_: seq<Row>) {
    exists i :: 0 <= i < |new_| && RowKey(d, new_[i].chunk.index) in rows
  }

  function InsertRows(rows: map<RowKey, Row>, d: DocId, new_: seq<Row>): map<RowKey, Row> {
    if new_ == [] then rows
    else InsertRows(rows, d, new_[..|new_| - 1])[RowKey(d, new_[|new_| - 1].chunk.index) := new_[|new_| - 1]]
  }

  function SetStatus(doc: Doc, status: Status, error: Option<string>, nChunks: Option<nat>,
                     markdownKey: Option<string>, now: nat): Doc
  {
    Doc(doc.info, status,
        if nChunks.Some? then nChunks else doc.nChunks,
        if markdownKey.Some? then markdownKey else doc.markdownKey,
        if error.Some? then error else doc.error,
        if status == Indexed then Some(now) else doc.indexedAt)
  }

  // ---- events --------------------------------------------------------------

  predicate Live(s: State, d: DocId) {
    d in s.runs && d in s.docs
  }

  ghost predicate Enabled(s: State, e: Event) {
    match e
    case Uploaded(d, _) => d !in s.docs
    case Started(d) => d in s.docs && d !in s.runs && s.docs[d].status != Indexed
    case Announced(d) => Live(s, d) && s.runs[d].Announcing?
    case Parsed(d, _) => Live(s, d) && s.runs[d].Fetching?
    case Chunked(d, chunks) => Live(s, d) && s.runs[d].Chunking? && Numbered(chunks) && chunks != []
    case Purged(d) => Live(s, d) && s.runs[d].Purging?
    case Vectorised(d, ids) =>
      Live(s, d) && s.runs[d].Vectorising? && |ids| == |s.runs[d].chunks| && Fresh(s.owner, ids)
    case Upserted(d) => Live(s, d) && s.runs[d].Upserting? && s.runs[d].next < |s.runs[d].points|
    case Committed(d, _) => Live(s, d) && s.runs[d].Upserting? && s.runs[d].next >= |s.runs[d].points|
    case Finished(d) => Live(s, d) && s.runs[d].Finishing?
    case Raised(d, _) => Live(s, d)
    case Handled(d, _) => Live(s, d) && s.runs[d].Handling?
    case Crashed(d, _) => Live(s, d)
  }

  function Owners(owner: map<PointId, DocId>, ids: seq<PointId>, d: DocId): map<PointId, DocId> {
    owner + map i | i in ids :: d
  }

  /** The vector store after a call of the run of `d` failed half-way. */
  function Interrupted(s: State, d: DocId, applied: set<PointId>): map<PointId, Point>
    requires Live(s, d)
  {
    match s.runs[d]
    case Purging(_) => WithoutSome(s.points, d, applied)
    case Upserting(_, ps, next) =>
      if next < |ps| then Upsert(s.points, Applied(ps[next..BatchEnd(|ps|, next)], applied)) else s.points
    case _ => s.points
  }

  ghost function Next(embed: Lines -> Vector, s: State, e: Event): State
    requires Enabled(s, e)
  {
    match e
    case Uploaded(d, info) => s.(docs := s.docs[d := Doc(info, Pending, None, None, None, None)])
    case Started(d) =>
      s.(docs := s.docs[d := SetStatus(s.docs[d], Parsing, None, None, None, 0)], runs := s.runs[d := Announcing])
    case Announced(d) => s.(runs := s.runs[d := Fetching])
    case Parsed(d, key) =>
      s.(docs := s.docs[d := SetStatus(s.docs[d], ChunkingDoc, None, None, Some(key), 0)],
         runs := s.runs[d := Chunking])
    case Chunked(d, chunks) =>
      s.(docs := s.docs[d := SetStatus(s.docs[d], EmbeddingDoc, None, None, None, 0)],
         runs := s.runs[d := Purging(chunks)])
    case Purged(d) => s.(points := WithoutDoc(s.points, d), runs := s.runs[d := Vectorising(s.runs[d].chunks)])
    case Vectorised(d, ids) =>
      var chunks := s.runs[d].chunks;
      s.(runs := s.runs[d := Upserting(MakeRows(chunks, ids),
                                       MakePoints(d, s.docs[d].info, chunks, Vectors(embed, chunks), ids), 0)],
         owner := Owners(s.owner, ids, d))
    case Upserted(d) =>
      var run := s.runs[d];
      var hi := BatchEnd(|run.points|, run.next);
      s.(points := Upsert(s.points, run.points[run.next..hi]), runs := s.runs[d := run.(next := hi)])
    case Committed(d, at) =>
      var rows := s.runs[d].rows;
      if Conflict(s.rows, d, rows) then s.(runs := s.runs[d := Handling(false)])
      else s.(rows := InsertRows(s.rows, d, rows),
              docs := s.docs[d := SetStatus(s.docs[d], Indexed, None, Some(|rows|), None, at)],
              runs := s.runs[d := Finishing])
    case Finished(d) => s.(runs := s.runs - {d})
    case Raised(d, applied) =>
      s.(points := Interrupted(s, d, applied),
         runs := if s.runs[d].Announcing? || s.runs[d].Handling? then s.runs - {d}
                 else s.runs[d := Handling(s.runs[d].Finishing?)])
    case Handled(d, message) =>
      s.(docs := s.docs[d := SetStatus(s.docs[d], Failed, Some(message), None, None, 0)],
         runs := s.runs - {d},
         reverted := if s.runs[d].committed then s.reverted + {d} else s.reverted)
    case Crashed(d, applied) => s.(points := Interrupted(s, d, applied), runs := s.runs - {d})
  }

  /** An event that is not possible changes nothing: a redelivered job for a document that is missing or
      indexed is skipped. That no job starts while a run of the same document is live is an assumption
      about the queue, not a check of the code. */
  ghost function Apply(embed: Lines -> Vector, s: State, e: Event): State {
    if Enabled(s, e) then Next(embed, s, e) else s
  }

  ghost function Run(embed: Lines -> Vector, s: State, trace: seq<Event>): State {
    if trace == [] then s else Apply(embed, Run(embed, s, trace[..|trace| - 1]), trace[|trace| - 1])
  }

  const EMPTY: State := State(map[], map[], map[], map[], map[], {})

  // ---- the slice of one document -------------------------------------------

  datatype View = View(doc: Option<Doc>, rows: map<RowKey, Row>, points: map<PointId, Point>,
                       run: Option<Phase>, reverted: bool)

  function ViewOf(s: State, d: DocId): View {
    View(if d in s.docs then Some(s.docs[d]) else None,
         map k | k in s.rows && k.doc == d :: s.rows[k],
         OfDoc(s.points, d),
         if d in s.runs then Some(s.runs[d]) else None,
         d in s.reverted)
  }

  /** The rows of an indexed document are numbered 0..n-1, and its points are exactly the ones
      its rows name, each carrying the chunk of its row and that chunk's vector. */
  ghost predicate ExactlyIndexed(embed: Lines -> Vector, d: DocId, v: View) {
    && v.doc.Some? && v.doc.value.nChunks.Some?
    && var n := v.doc.value.nChunks.value;
    && n > 0
    && (forall k :: k in v.rows <==> k.doc == d && k.index < n)
    && (forall i :: 0 <= i < n ==> RowKey(d, i) in v.rows && RowMatches(embed, d, v, i))
    && (forall i, j :: 0 <= i < j < n ==> v.rows[RowKey(d, i)].point != v.rows[RowKey(d, j)].point)
    && (forall p :: p in v.points ==> exists i :: 0 <= i < n && v.rows[RowKey(d, i)].point == p)
  }

  ghost predicate RowMatches(embed: Lines -> Vector, d: DocId, v: View, i: nat)
    requires v.doc.Some? && RowKey(d, i) in v.rows
  {
    var row := v.rows[RowKey(d, i)];
    && row.chunk.index == i
    && row.point in v.points
    && v.points[row.point] == Point(d, v.doc.value.info, row.chunk, embed(row.chunk.text))
  }
}
