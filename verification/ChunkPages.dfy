/**
 Which page a chunk is attributed to, and that no line is lost
 (src/ingestion/chunkers/base.py:102-180).
 */
module ChunkPages {
  import opened Prelude
  import opened Text
  import opened Sections
  import opened Chunker

  // ---- where the calls lie -------------------------------------------------

  /** The pieces are runs of `flat`, in order. */
  ghost predicate Placed(flat: Lines, calls: seq<Call>) {
    && (forall i :: 0 <= i < |calls| ==>
          calls[i].lo <= calls[i].hi <= |flat| && calls[i].piece == flat[calls[i].lo..calls[i].hi])
    && (forall i, j :: 0 <= i < j < |calls| ==> calls[i].lo <= calls[j].lo && calls[i].hi <= calls[j].hi)
  }

  ghost predicate Within(calls: seq<Call>, p: nat) {
    exists i :: 0 <= i < |calls| && calls[i].lo <= p < calls[i].hi
  }

  /** Only blank lines are in no piece. */
  ghost predicate Covered(flat: Lines, calls: seq<Call>) {
    forall p :: 0 <= p < |flat| && flat[p] != Blank ==> Within(calls, p)
  }

  lemma SliceOfTail(flat: Lines, offset: nat, lo: nat, hi: nat)
    requires offset <= |flat| && lo <= hi <= |flat| - offset
    ensures flat[offset..][lo..hi] == flat[offset + lo..offset + hi]
  {
  }

  lemma LabelPlaced(flat: Lines, sec: Section, cuts: seq<Cut>, offset: nat)
    requires offset <= |flat| && flat[offset..] == sec.body
    requires GoodCuts(sec.body, cuts)
    ensures InBounds(sec.body, cuts) && Placed(flat, Label(sec, cuts, offset))
  {
    var calls := Label(sec, cuts, offset);
    forall i | 0 <= i < |calls|
      ensures calls[i].lo <= calls[i].hi <= |flat| && calls[i].piece == flat[calls[i].lo..calls[i].hi]
    {
      SliceOfTail(flat, offset, cuts[i].lo, cuts[i].hi);
    }
  }

  lemma LabelCovers(flat: Lines, sec: Section, cuts: seq<Cut>, offset: nat, p: nat)
    requires offset <= p < |flat| && flat[offset..] == sec.body && flat[p] != Blank
    requires GoodCuts(sec.body, cuts) && InBounds(sec.body, cuts)
    ensures Within(Label(sec, cuts, offset), p)
  {
    assert sec.body[p - offset] == flat[p];
    var i :| 0 <= i < |cuts| && cuts[i].lo <= p - offset < cuts[i].hi;
    assert Label(sec, cuts, offset)[i].lo <= p < Label(sec, cuts, offset)[i].hi;
  }

  lemma PlacedExtends(flat: Lines, body: Lines, calls: seq<Call>)
    requires Placed(flat, calls)
    ensures Placed(flat + body, calls)
  {
    forall i | 0 <= i < |calls| ensures calls[i].piece == (flat + body)[calls[i].lo..calls[i].hi] {
      assert (flat + body)[calls[i].lo..calls[i].hi] == flat[calls[i].lo..calls[i].hi];
    }
  }

  lemma CallsPlacedConcat(flat: Lines, body: Lines, front: seq<Call>, back: seq<Call>)
    requires Placed(flat, front) && Placed(flat + body, back)
    requires forall i :: 0 <= i < |back| ==> back[i].lo >= |flat|
    ensures Placed(flat + body, front + back)
  {
    PlacedExtends(flat, body, front);
    var calls := front + back;
    forall i, j | 0 <= i < j < |calls| ensures calls[i].lo <= calls[j].lo && calls[i].hi <= calls[j].hi {
      if i < |front| <= j {
        assert calls[i].hi <= |flat| <= calls[j].lo <= calls[j].hi;
      }
    }
  }

  lemma WithinConcat(front: seq<Call>, back: seq<Call>, p: nat)
    requires Within(front, p) || Within(back, p)
    ensures Within(front + back, p)
  {
    if Within(front, p) {
      var i :| 0 <= i < |front| && front[i].lo <= p < front[i].hi;
      assert (front + back)[i].lo <= p < (front + back)[i].hi;
    } else {
      var i :| 0 <= i < |back| && back[i].lo <= p < back[i].hi;
      assert (front + back)[|front| + i].lo <= p < (front + back)[|front| + i].hi;
    }
  }

  /** The calls of a document are runs of its section bodies laid end to end, in order, and
      leave out only blank lines. */
  lemma {:induction false} CallsPlaced(cfg: Config, legal: bool, secs: seq<Section>)
    requires GoodSplitter(cfg.splitter)
    ensures Placed(Flat(secs), CallsFor(cfg, legal, secs)) && Covered(Flat(secs), CallsFor(cfg, legal, secs))
  {
    if secs != [] {
      var front, sec := secs[..|secs| - 1], secs[|secs| - 1];
      var flat := Flat(front);
      CallsPlaced(cfg, legal, front);
      CutsForGood(cfg, legal, sec);
      var cuts := CutsFor(cfg, legal, sec);
      var before, back := CallsFor(cfg, legal, front), Label(sec, cuts, |flat|);
      assert (flat + sec.body)[|flat|..] == sec.body;
      LabelPlaced(flat + sec.body, sec, cuts, |flat|);
      CallsPlacedConcat(flat, sec.body, before, back);
      forall p | 0 <= p < |flat + sec.body| && (flat + sec.body)[p] != Blank ensures Within(before + back, p) {
        if p < |flat| {
          assert flat[p] != Blank;
        } else {
          LabelCovers(flat + sec.body, sec, cuts, |flat|, p);
        }
        WithinConcat(before, back, p);
      }
    }
  }

  // ---- the page in force ---------------------------------------------------

  function EndOf(calls: seq<Call>, k: nat): nat
    requires k <= |calls|
  {
    if k == 0 then 0 else calls[k - 1].hi
  }

  lemma PiecesInOrder(flat: Lines, calls: seq<Call>, i: nat, j: nat)
    requires Placed(flat, calls) && i <= j < |calls|
    ensures calls[i].lo <= calls[j].lo && calls[i].hi <= calls[j].hi <= |flat|
  {
  }

  lemma NotBeforeEnd(flat: Lines, calls: seq<Call>, k: nat, i: nat, p: nat)
    requires Placed(flat, calls) && k <= |calls| && i < |calls|
    requires EndOf(calls, k) <= p < calls[i].hi
    ensures k <= i
  {
  }

  lemma InPiece(flat: Lines, c: Call, p: nat)
    requires c.lo <= p < c.hi <= |flat| && c.piece == flat[c.lo..c.hi]
    ensures flat[p] in c.piece
  {
    assert c.piece[p - c.lo] == flat[p];
  }

  /** Between the end of one piece and the end of the next, every line that is not blank
      belongs to the next piece. */
  lemma GapBelongsToNext(flat: Lines, calls: seq<Call>, k: nat, p: nat)
    requires Placed(flat, calls) && Covered(flat, calls) && k < |calls|
    requires EndOf(calls, k) <= p < calls[k].hi && calls[k].hi <= |flat| && flat[p] != Blank
    ensures flat[p] in calls[k].piece
  {
    assert Within(calls, p);
    assert calls[k].piece == flat[calls[k].lo..calls[k].hi];
    hide Placed, Covered, EndOf;
    var i :| 0 <= i < |calls| && calls[i].lo <= p < calls[i].hi;
    NotBeforeEnd(flat, calls, k, i, p);
    PiecesInOrder(flat, calls, k, i);
    InPiece(flat, calls[k], p);
  }

  lemma NoPageInGap(flat: Lines, calls: seq<Call>, k: nat)
    requires Placed(flat, calls) && Covered(flat, calls) && k < |calls|
    requires Markers(calls[k].piece) == [] && EndOf(calls, k) <= calls[k].hi
    ensures LastMarker(flat[EndOf(calls, k)..calls[k].hi]) == None
  {
    hide Placed, Covered, Markers, LastMarker;
    EndsInOrder(flat, calls, k);
    var e := EndOf(calls, k);
    var gap := flat[e..calls[k].hi];
    NoMarkers(calls[k].piece);
    forall l | l in gap ensures !l.Page? {
      var q :| 0 <= q < |gap| && gap[q] == l;
      if l != Blank {
        GapBelongsToNext(flat, calls, k, e + q);
      }
    }
    NoMarkers(gap);
    LastMarkerIsLast(gap);
  }

  lemma EndsInOrder(flat: Lines, calls: seq<Call>, k: nat)
    requires Placed(flat, calls) && k < |calls|
    ensures EndOf(calls, k) <= calls[k].hi <= |flat|
  {
  }

  lemma PageAfter(flat: Lines, calls: seq<Call>, k: nat)
    requires Placed(flat, calls) && Covered(flat, calls) && k < |calls|
    ensures EndOf(calls, k) <= calls[k].hi <= |flat|
    ensures LastMarker(flat[..calls[k].hi]) ==
            if Markers(calls[k].piece) != [] then LastMarker(calls[k].piece) else LastMarker(flat[..EndOf(calls, k)])
  {
    var c, e := calls[k], EndOf(calls, k);
    EndsInOrder(flat, calls, k);
    if Markers(c.piece) != [] {
      assert flat[..c.hi] == flat[..c.lo] + c.piece;
      LastMarkerConcat(flat[..c.lo], c.piece);
      LastMarkerIsLast(c.piece);
    } else {
      assert flat[..c.hi] == flat[..e] + flat[e..c.hi];
      LastMarkerConcat(flat[..e], flat[e..c.hi]);
      NoPageInGap(flat, calls, k);
    }
  }

  ghost predicate PathHeadings(calls: seq<Call>) {
    forall i :: 0 <= i < |calls| ==> calls[i].heading.Some? ==> calls[i].heading.value.Path?
  }

  lemma AscendingParts(a: seq<nat>, b: seq<nat>, c: seq<nat>)
    requires Ascending(a + b + c)
    ensures Ascending(b)
    ensures a != [] ==> a[|a| - 1] <= (a + b)[|a + b| - 1]
  {
    var all := a + b + c;
    assert forall i :: 0 <= i < |b| ==> b[i] == all[|a| + i];
    assert forall i :: 0 <= i < |a| ==> a[i] == all[i];
  }

  lemma MarkersOfParts(a: Lines, b: Lines, c: Lines)
    ensures Markers(a + b + c) == Markers(a) + Markers(b) + Markers(c)
    ensures Markers(a + b) == Markers(a) + Markers(b)
  {
    MarkersConcat(a + b, c);
    MarkersConcat(a, b);
  }

  lemma PieceMarkersAscend(flat: Lines, c: Call)
    requires Ascending(Markers(flat)) && c.lo <= c.hi <= |flat| && c.piece == flat[c.lo..c.hi]
    ensures Ascending(Markers(c.piece))
  {
    assert flat == flat[..c.lo] + c.piece + flat[c.hi..];
    MarkersOfParts(flat[..c.lo], c.piece, flat[c.hi..]);
    AscendingParts(Markers(flat[..c.lo]), Markers(c.piece), Markers(flat[c.hi..]));
  }

  lemma TextMarkers(c: Call)
    requires c.heading.Some? ==> c.heading.value.Path?
    ensures Markers(CallText(c)) == Markers(c.piece)
  {
    MarkersConcat(HeadingLines(c.heading), c.piece);
    NoMarkers(HeadingLines(c.heading));
  }

  /** The page range of one call: its own first and last marker, or nothing. */
  lemma CallRange(flat: Lines, c: Call)
    requires Ascending(Markers(flat)) && c.lo <= c.hi <= |flat| && c.piece == flat[c.lo..c.hi]
    requires c.heading.Some? ==> c.heading.value.Path?
    ensures PageRange(CallText(c)).1 == LastMarker(c.piece)
    ensures PageRange(CallText(c)).0 == if Markers(c.piece) == [] then None else Some(Markers(c.piece)[0])
    ensures LastMarker(c.piece).Some? <==> Markers(c.piece) != []
  {
    PieceMarkersAscend(flat, c);
    TextMarkers(c);
    PageRangeAscending(CallText(c));
    LastMarkerIsLast(c.piece);
    LastMarkerIsLast(CallText(c));
  }

  lemma PlacedCall(flat: Lines, calls: seq<Call>, k: nat)
    requires Placed(flat, calls) && PathHeadings(calls) && k < |calls|
    ensures calls[k].lo <= calls[k].hi <= |flat| && calls[k].piece == flat[calls[k].lo..calls[k].hi]
    ensures calls[k].heading.Some? ==> calls[k].heading.value.Path?
  {
  }

  lemma EndIs(calls: seq<Call>, k: nat)
    requires 0 < k <= |calls|
    ensures EndOf(calls, k) == calls[k - 1].hi
  {
  }

  /** One call moves the carried page from the end of the piece before it to the end of its own, and
      gives the chunk it emits, if any, the right pages. */
  lemma OneCall(tokens: Lines -> nat, flat: Lines, calls: seq<Call>, k: nat)
    requires Placed(flat, calls) && Covered(flat, calls) && PathHeadings(calls) && Ascending(Markers(flat))
    requires k < |calls| && EndOf(calls, k) <= |flat|
    requires EmitAll(tokens, calls[..k]).lastPage == LastMarker(flat[..EndOf(calls, k)])
    ensures calls[k].hi <= |flat|
    ensures EmitAll(tokens, calls[..k + 1]).lastPage == LastMarker(flat[..calls[k].hi])
    ensures StripMarkers(CallText(calls[k])) != [] ==>
              var chunks := EmitAll(tokens, calls[..k + 1]).chunks;
              chunks != [] && RightPages(flat, chunks[|chunks| - 1], calls[k])
  {
    hide Placed, Covered, PathHeadings, Ascending, Markers, LastMarker, PageRange, StripMarkers, EmitAll, EndOf;
    hide CallText;
    PlacedCall(flat, calls, k);
    assert calls[..k + 1] == calls[..k] + [calls[k]];
    EmitAllSnoc(tokens, calls[..k], calls[k]);
    PageAfter(flat, calls, k);
    CallRange(flat, calls[k]);
  }

  /** After every call, also one that emits nothing, the carried page is the last marker at or
      before the end of its piece. */
  lemma {:induction false} PageCarried(tokens: Lines -> nat, flat: Lines, calls: seq<Call>, k: nat)
    requires Placed(flat, calls) && Covered(flat, calls) && PathHeadings(calls) && Ascending(Markers(flat))
    requires k <= |calls|
    ensures EndOf(calls, k) <= |flat|
    ensures EmitAll(tokens, calls[..k]).lastPage == LastMarker(flat[..EndOf(calls, k)])
  {
    if k > 0 {
      hide *;
      PageCarried(tokens, flat, calls, k - 1);
      OneCall(tokens, flat, calls, k - 1);
      EndIs(calls, k);
    }
  }

  /** The page range of a chunk against the document it was cut from. */
  ghost predicate RightPages(flat: Lines, chunk: Chunk, c: Call)
    requires c.hi <= |flat|
  {
    && chunk.pageTo == LastMarker(flat[..c.hi])
    && chunk.pageFrom == if Markers(c.piece) == [] then chunk.pageTo else Some(Markers(c.piece)[0])
  }

  lemma EmittedPages(tokens: Lines -> nat, flat: Lines, calls: seq<Call>, k: nat)
    requires Placed(flat, calls) && Covered(flat, calls) && PathHeadings(calls) && Ascending(Markers(flat))
    requires k < |calls| && StripMarkers(CallText(calls[k])) != []
    ensures var chunks := EmitAll(tokens, calls[..k + 1]).chunks;
            chunks != [] && RightPages(flat, chunks[|chunks| - 1], calls[k])
  {
    hide *;
    PageCarried(tokens, flat, calls, k);
    OneCall(tokens, flat, calls, k);
  }

  lemma {:induction false} EmitAllGrows(tokens: Lines -> nat, calls: seq<Call>, k: nat)
    requires k <= |calls|
    ensures EmitAll(tokens, calls[..k]).chunks <= EmitAll(tokens, calls).chunks
    ensures Sources(calls[..k]) <= Sources(calls)
    decreases |calls|
  {
    if k < |calls| {
      var front, c := calls[..|calls| - 1], calls[|calls| - 1];
      EmitAllGrows(tokens, front, k);
      assert front[..k] == calls[..k];
      EmitAppends(tokens, EmitAll(tokens, front), CallText(c), c.heading);
    } else {
      assert calls[..k] == calls;
    }
  }

  /** A chunk is the last one emitted when its own call has just run. */
  lemma ChunkIsLastOfPrefix(tokens: Lines -> nat, calls: seq<Call>, i: nat)
    requires i < |Sources(calls)|
    ensures i < |EmitAll(tokens, calls).chunks|
    ensures |EmitAll(tokens, calls[..Sources(calls)[i] + 1]).chunks| == i + 1
    ensures EmitAll(tokens, calls[..Sources(calls)[i] + 1]).chunks[i] == EmitAll(tokens, calls).chunks[i]
    ensures StripMarkers(CallText(calls[Sources(calls)[i]])) != []
  {
    var k := Sources(calls)[i];
    EmittedInOrder(tokens, calls);
    assert FromCall(tokens, EmitAll(tokens, calls).chunks[i], calls[k]);
    EmitAllGrows(tokens, calls, k + 1);
    EmittedInOrder(tokens, calls[..k + 1]);
    SourceOfLast(calls, i);
  }

  /** Every chunk, with the call that produced it. */
  lemma ChunkPage(tokens: Lines -> nat, flat: Lines, calls: seq<Call>, i: nat)
    requires Placed(flat, calls) && Covered(flat, calls) && PathHeadings(calls) && Ascending(Markers(flat))
    requires i < |Sources(calls)|
    ensures i < |EmitAll(tokens, calls).chunks|
    ensures RightPages(flat, EmitAll(tokens, calls).chunks[i], calls[Sources(calls)[i]])
  {
    hide *;
    ChunkIsLastOfPrefix(tokens, calls, i);
    EmittedPages(tokens, flat, calls, Sources(calls)[i]);
  }

  /** The prefix of calls up to a chunk's own call emits exactly the chunks up to it. */
  lemma {:induction false} SourceOfLast(calls: seq<Call>, i: nat)
    requires i < |Sources(calls)|
    ensures |Sources(calls[..Sources(calls)[i] + 1])| == i + 1
  {
    hide Sources, StripMarkers, CallText;
    var front, c, k := calls[..|calls| - 1], calls[|calls| - 1], Sources(calls)[i];
    assert calls == front + [c];
    SourcesSnoc(front, c);
    if i < |Sources(front)| {
      SourceOfLast(front, i);
      assert k == Sources(front)[i];
      PrefixOfPrefix(calls, |calls| - 1, k + 1);
    } else {
      assert k == |front|;
      assert calls[..k + 1] == calls;
    }
  }

  lemma PrefixOfPrefix<T>(s: seq<T>, n: nat, k: nat)
    requires k <= n <= |s|
    ensures s[..n][..k] == s[..k]
  {
  }

  ghost predicate PageLe(a: Option<nat>, b: Option<nat>) {
    a.Some? ==> b.Some? && a.value <= b.value
  }

  /** A chunk's pages are in order. */
  lemma PagesInOrder(flat: Lines, calls: seq<Call>, k: nat, chunk: Chunk)
    requires Placed(flat, calls) && Covered(flat, calls) && Ascending(Markers(flat))
    requires k < |calls| && RightPages(flat, chunk, calls[k])
    ensures PageLe(chunk.pageFrom, chunk.pageTo)
  {
    PageAfter(flat, calls, k);
    PieceMarkersAscend(flat, calls[k]);
    LastMarkerIsLast(calls[k].piece);
  }

  lemma LastMarkerOfLonger(a: Lines, b: Lines, c: Lines)
    requires Ascending(Markers(a + b + c))
    ensures PageLe(LastMarker(a), LastMarker(a + b))
  {
    MarkersOfParts(a, b, c);
    AscendingParts(Markers(a), Markers(b), Markers(c));
    LastMarkerIsLast(a);
    LastMarkerIsLast(a + b);
  }

  lemma LastMarkerGrows(flat: Lines, a: nat, b: nat)
    requires Ascending(Markers(flat)) && a <= b <= |flat|
    ensures PageLe(LastMarker(flat[..a]), LastMarker(flat[..b]))
  {
    hide *;
    assert flat == flat[..a] + flat[a..b] + flat[b..];
    LastMarkerOfLonger(flat[..a], flat[a..b], flat[b..]);
    assert flat[..b] == flat[..a] + flat[a..b];
  }

  // ---- main results --------------------------------------------------------

  lemma SectionHeadings(cfg: Config, md: Lines)
    requires GoodSplitter(cfg.splitter)
    ensures PathHeadings(Calls(cfg, md))
  {
    var secs := SectionsOf(md);
    forall i | 0 <= i < |secs| ensures secs[i].heading.Some? ==> secs[i].heading.value.Path? {
      if IsLegal(md) {
        assert secs[i] == SectionAt(md, i);
      }
    }
    CallHeadings(cfg, IsLegal(md), secs);
  }

  lemma {:induction false} CallHeadings(cfg: Config, legal: bool, secs: seq<Section>)
    requires GoodSplitter(cfg.splitter)
    requires forall i :: 0 <= i < |secs| ==> secs[i].heading.Some? ==> secs[i].heading.value.Path?
    ensures PathHeadings(CallsFor(cfg, legal, secs))
  {
    if secs != [] {
      CallHeadings(cfg, legal, secs[..|secs| - 1]);
    }
  }

  lemma CallsGood(cfg: Config, md: Lines)
    requires GoodSplitter(cfg.splitter)
    ensures Placed(Flat(SectionsOf(md)), Calls(cfg, md)) && Covered(Flat(SectionsOf(md)), Calls(cfg, md))
    ensures PathHeadings(Calls(cfg, md))
    ensures Markers(Flat(SectionsOf(md))) == Markers(md)
  {
    CallsPlaced(cfg, IsLegal(md), SectionsOf(md));
    SectionHeadings(cfg, md);
    FlatMarkers(md);
  }

  /** With ascending page markers, the page range of one chunk. */
  lemma PagesOfChunk(cfg: Config, md: Lines, i: nat)
    requires GoodSplitter(cfg.splitter) && Ascending(Markers(md))
    requires i < |Sources(Calls(cfg, md))|
    ensures i < |Chunks(cfg, md)|
    ensures Calls(cfg, md)[Sources(Calls(cfg, md))[i]].hi <= |Flat(SectionsOf(md))|
    ensures RightPages(Flat(SectionsOf(md)), Chunks(cfg, md)[i], Calls(cfg, md)[Sources(Calls(cfg, md))[i]])
    ensures PageLe(Chunks(cfg, md)[i].pageFrom, Chunks(cfg, md)[i].pageTo)
  {
    var flat, calls := Flat(SectionsOf(md)), Calls(cfg, md);
    CallsGood(cfg, md);
    ChunkPage(cfg.tokens, flat, calls, i);
    EndsInOrder(flat, calls, Sources(calls)[i]);
    PagesInOrder(flat, calls, Sources(calls)[i], Chunks(cfg, md)[i]);
  }

  /** With ascending page markers: each chunk's `page_to` is the last marker at or before the end of
      its piece, its `page_from` is the first marker inside it (or `page_to` when there is none),
      and `page_from <= page_to`. */
  lemma PagesOfChunks(cfg: Config, md: Lines)
    requires GoodSplitter(cfg.splitter) && Ascending(Markers(md))
    ensures |Sources(Calls(cfg, md))| == |Chunks(cfg, md)|
    ensures forall i :: 0 <= i < |Chunks(cfg, md)| ==>
              && Calls(cfg, md)[Sources(Calls(cfg, md))[i]].hi <= |Flat(SectionsOf(md))|
              && RightPages(Flat(SectionsOf(md)), Chunks(cfg, md)[i], Calls(cfg, md)[Sources(Calls(cfg, md))[i]])
              && PageLe(Chunks(cfg, md)[i].pageFrom, Chunks(cfg, md)[i].pageTo)
  {
    EmittedInOrder(cfg.tokens, Calls(cfg, md));
    forall i | 0 <= i < |Chunks(cfg, md)|
      ensures Calls(cfg, md)[Sources(Calls(cfg, md))[i]].hi <= |Flat(SectionsOf(md))|
      ensures RightPages(Flat(SectionsOf(md)), Chunks(cfg, md)[i], Calls(cfg, md)[Sources(Calls(cfg, md))[i]])
      ensures PageLe(Chunks(cfg, md)[i].pageFrom, Chunks(cfg, md)[i].pageTo)
    {
      PagesOfChunk(cfg, md, i);
    }
  }

  lemma LaterPage(cfg: Config, md: Lines, i: nat, j: nat)
    requires GoodSplitter(cfg.splitter) && Ascending(Markers(md))
    requires i < j < |Chunks(cfg, md)|
    ensures PageLe(Chunks(cfg, md)[i].pageTo, Chunks(cfg, md)[j].pageTo)
  {
    var flat, calls := Flat(SectionsOf(md)), Calls(cfg, md);
    EmittedInOrder(cfg.tokens, calls);
    var a, b := Sources(calls)[i], Sources(calls)[j];
    PagesOfChunk(cfg, md, i);
    PagesOfChunk(cfg, md, j);
    CallsGood(cfg, md);
    LastMarkerGrows(flat, calls[a].hi, calls[b].hi);
  }

  ghost predicate PagesGoOn(chunks: seq<Chunk>) {
    forall i, j :: 0 <= i < j < |chunks| ==> PageLe(chunks[i].pageTo, chunks[j].pageTo)
  }

  /** With ascending page markers, `page_to` never decreases from chunk to chunk. */
  lemma PagesNeverDecrease(cfg: Config, md: Lines)
    requires GoodSplitter(cfg.splitter) && Ascending(Markers(md))
    ensures PagesGoOn(Chunks(cfg, md))
  {
    hide GoodSplitter, Chunks, PageLe, Markers, Ascending;
    forall i, j | 0 <= i < j < |Chunks(cfg, md)|
      ensures PageLe(Chunks(cfg, md)[i].pageTo, Chunks(cfg, md)[j].pageTo)
    {
      LaterPage(cfg, md, i, j);
    }
  }

  lemma FlatOne(sec: Section)
    ensures Flat([sec]) == sec.body
  {
    assert [sec][..0] == [];
    assert [] + sec.body == sec.body;
  }

  lemma SplitMarkers(md: Lines)
    requires DieuAt(md) != []
    ensures Markers(Flat(Split(md))) == Markers(md)
  {
    hide Markers, Flat, DieuAt, FirstSections;
    FlatMarkersSplit(md, |DieuAt(md)|);
    assert md[..|md|] == md;
  }

  /** The bodies laid end to end carry the markers of the document, in order. */
  lemma FlatMarkers(md: Lines)
    ensures Markers(Flat(SectionsOf(md))) == Markers(md)
  {
    hide Markers, Flat, DieuAt, Split, HasChuong;
    if IsLegal(md) {
      SplitMarkers(md);
    } else {
      FlatOne(Section(None, md));
    }
  }

  lemma FullBodyMarkers(preamble: Lines, raw: Lines, isFirst: bool)
    ensures Markers(FullBody(Trim(preamble), raw, isFirst)) ==
            (if isFirst then Markers(preamble) else []) + Markers(raw)
  {
    var full := FullBody(Trim(preamble), raw, isFirst);
    BodyContent(preamble, raw, isFirst);
    MarkersOfNonBlank(full);
    MarkersOfNonBlank(preamble);
    MarkersOfNonBlank(raw);
    if isFirst {
      MarkersConcat(NonBlank(preamble), NonBlank(raw));
      assert NonBlank(full) == NonBlank(preamble) + NonBlank(raw);
    } else {
      assert NonBlank(full) == NonBlank(raw);
    }
  }

  lemma BodyMarkers(md: Lines, i: nat)
    requires i < |DieuAt(md)|
    ensures Markers(SectionAt(md, i).body) ==
            (if i == 0 then Markers(Preamble(md)) else []) + Markers(Raw(md, i))
  {
    FullBodyMarkers(Preamble(md), Raw(md, i), i == 0);
    NoMarkers([md[DieuAt(md)[i]]]);
  }

  /** The markers up to the end of a section: those before its "Điều" line and those after. */
  lemma MarkersToEnd(md: Lines, i: nat)
    requires i < |DieuAt(md)|
    ensures Markers(md[..EndAt(md, i)]) == Markers(md[..DieuAt(md)[i]]) + Markers(Raw(md, i))
  {
    var p, e := DieuAt(md)[i], EndAt(md, i);
    assert md[..e] == md[..p] + [md[p]] + Raw(md, i);
    MarkersOfParts(md[..p], [md[p]], Raw(md, i));
    NoMarkers([md[p]]);
  }

  lemma FlatSnoc(secs: seq<Section>, sec: Section)
    ensures Flat(secs + [sec]) == Flat(secs) + sec.body
  {
    assert (secs + [sec])[..|secs|] == secs;
  }

  /** The markers up to the end of a section, from those of its body. */
  lemma MarkersWithSection(md: Lines, i: nat)
    requires i < |DieuAt(md)|
    ensures Markers(md[..EndAt(md, i)]) ==
            (if i == 0 then [] else Markers(md[..EndAt(md, i - 1)])) + Markers(SectionAt(md, i).body)
  {
    hide Markers, SectionAt, Raw, DieuAt;
    BodyMarkers(md, i);
    MarkersToEnd(md, i);
    if i == 0 {
      assert [] + Markers(SectionAt(md, 0).body) == Markers(SectionAt(md, 0).body);
    } else {
      assert [] + Markers(Raw(md, i)) == Markers(Raw(md, i));
    }
  }

  lemma FirstSectionsSnoc(md: Lines, n: nat)
    requires n < |DieuAt(md)|
    ensures FirstSections(md, n + 1) == FirstSections(md, n) + [SectionAt(md, n)]
  {
  }

  lemma {:induction false} FlatMarkersSplit(md: Lines, n: nat)
    requires n <= |DieuAt(md)|
    ensures Markers(Flat(FirstSections(md, n))) ==
            if n == 0 then [] else Markers(md[..EndAt(md, n - 1)])
  {
    if n > 0 {
      hide *;
      FlatMarkersSplit(md, n - 1);
      FirstSectionsSnoc(md, n - 1);
      FlatSnoc(FirstSections(md, n - 1), SectionAt(md, n - 1));
      MarkersConcat(Flat(FirstSections(md, n - 1)), SectionAt(md, n - 1).body);
      MarkersWithSection(md, n - 1);
    }
  }

  // ---- nothing is lost -----------------------------------------------------

  /** Some chunk shows the line: as a line of its text, or, for a "Điều" line, in its heading. */
  ghost predicate Shown(chunks: seq<Chunk>, l: Line) {
    exists i :: 0 <= i < |chunks| && ShownIn(chunks[i].text, l)
  }

  ghost predicate ShownIn(text: Lines, l: Line) {
    l in text || exists chuong: string, dieu: string :: Path(chuong, dieu) in text && l == Dieu(dieu)
  }

  ghost predicate Called(calls: seq<Call>, heading: Option<Line>, l: Line) {
    exists k :: 0 <= k < |calls| && calls[k].heading == heading && l in calls[k].piece
  }

  lemma LabelCalls(sec: Section, cuts: seq<Cut>, offset: nat, l: Line)
    requires GoodCuts(sec.body, cuts) && InBounds(sec.body, cuts) && l in sec.body && l != Blank
    ensures Called(Label(sec, cuts, offset), sec.heading, l)
  {
    var p :| 0 <= p < |sec.body| && sec.body[p] == l;
    var i :| 0 <= i < |cuts| && cuts[i].lo <= p < cuts[i].hi;
    hide Label, GoodCuts;
    var piece := sec.body[cuts[i].lo..cuts[i].hi];
    assert piece[p - cuts[i].lo] == l;
    assert Label(sec, cuts, offset)[i].piece == piece;
  }

  lemma CalledConcat(before: seq<Call>, back: seq<Call>, heading: Option<Line>, l: Line)
    requires Called(before, heading, l) || Called(back, heading, l)
    ensures Called(before + back, heading, l)
  {
    if Called(before, heading, l) {
      var k :| 0 <= k < |before| && before[k].heading == heading && l in before[k].piece;
      assert (before + back)[k] == before[k];
    } else {
      var k :| 0 <= k < |back| && back[k].heading == heading && l in back[k].piece;
      assert (before + back)[|before| + k] == back[k];
    }
  }

  /** Every line of a section body that is not blank goes through a call with that section's heading. */
  lemma {:induction false} SectionCalled(cfg: Config, legal: bool, secs: seq<Section>, i: nat, l: Line)
    requires GoodSplitter(cfg.splitter) && i < |secs| && l in secs[i].body && l != Blank
    ensures Called(CallsFor(cfg, legal, secs), secs[i].heading, l)
  {
    hide GoodSplitter, GoodCuts, Label, Flat, CutsFor, InBounds, Called;
    var front, sec := secs[..|secs| - 1], secs[|secs| - 1];
    CutsForGood(cfg, legal, sec);
    if i < |front| {
      SectionCalled(cfg, legal, front, i, l);
    } else {
      LabelCalls(sec, CutsFor(cfg, legal, sec), |Flat(front)|, l);
    }
    CalledConcat(CallsFor(cfg, legal, front), Label(sec, CutsFor(cfg, legal, sec), |Flat(front)|), secs[i].heading, l);
  }

  /** A call with a line that is neither blank nor a marker has a chunk, which shows that line
      and the heading. */
  lemma CallShown(tokens: Lines -> nat, calls: seq<Call>, heading: Option<Line>, l: Line)
    requires Called(calls, heading, l) && l != Blank
    requires !l.Page? || (heading.Some? && heading.value.Path?)
    ensures !l.Page? ==>
              exists i :: 0 <= i < |EmitAll(tokens, calls).chunks| && l in EmitAll(tokens, calls).chunks[i].text
    ensures heading.Some? && heading.value.Path? ==>
              exists i ::
                0 <= i < |EmitAll(tokens, calls).chunks| && heading.value in EmitAll(tokens, calls).chunks[i].text
  {
    var k :| 0 <= k < |calls| && calls[k].heading == heading && l in calls[k].piece;
    var text := CallText(calls[k]);
    StripMarkersMembers(text);
    assert l in text;
    if heading.Some? && heading.value.Path? {
      assert text[0] == heading.value;
      assert heading.value in text;
    }
    EveryTextIsEmitted(calls, k);
    EmittedInOrder(tokens, calls);
    var i :| 0 <= i < |Sources(calls)| && Sources(calls)[i] == k;
    assert FromCall(tokens, EmitAll(tokens, calls).chunks[i], calls[k]);
  }

  lemma FirstOfBody(md: Lines, i: nat)
    requires i < |DieuAt(md)|
    ensures SectionAt(md, i).body != [] && SectionAt(md, i).body[0] != Blank
  {
    var full := FullBody(Trim(Preamble(md)), Raw(md, i), i == 0);
    Trimmed(Trim(Preamble(md)) + [Blank] + Raw(md, i));
    Trimmed(Raw(md, i));
  }

  lemma ContentInBody(sec: Section, pre: Lines, raw: Lines, l: Line)
    requires sec.heading.Some? && sec.heading.value.Path? && Content(sec) == NonBlank(pre) + NonBlank(raw)
    requires l != Blank && (l in pre || l in raw)
    ensures l in sec.body
  {
    NonBlankMembers(pre);
    NonBlankMembers(raw);
    NonBlankMembers(sec.body);
    assert l in Content(sec);
  }

  lemma LineInPreamble(md: Lines, p: nat)
    requires DieuAt(md) != [] && p < DieuAt(md)[0]
    ensures md[p] in Preamble(md)
  {
    assert Preamble(md)[p] == md[p];
  }

  lemma LineInRaw(md: Lines, i: nat, p: nat)
    requires i < |DieuAt(md)| && DieuAt(md)[i] < p < EndAt(md, i)
    ensures md[p] in Raw(md, i)
  {
    assert Raw(md, i)[p - DieuAt(md)[i] - 1] == md[p];
  }

  /** A line that belongs to a section is its "Điều" line or a line of its body. */
  lemma LineInSection(md: Lines, i: nat, p: nat)
    requires i < |DieuAt(md)| && p < EndAt(md, i) && md[p] != Blank
    requires DieuAt(md)[i] <= p || (i == 0 && p < DieuAt(md)[0])
    ensures md[p] == FirstLine(SectionAt(md, i)) || md[p] in SectionAt(md, i).body
  {
    SectionContent(md, i);
    if p < DieuAt(md)[0] {
      LineInPreamble(md, p);
      ContentInBody(SectionAt(md, 0), Preamble(md), Raw(md, 0), md[p]);
    } else if p != DieuAt(md)[i] {
      LineInRaw(md, i, p);
      assert i > 0 ==> NonBlank([]) + NonBlank(Raw(md, i)) == NonBlank(Raw(md, i));
      ContentInBody(SectionAt(md, i), if i == 0 then Preamble(md) else [], Raw(md, i), md[p]);
    }
  }

  /** The section a line of a split document went to: it is the "Điều" line of that section, or
      a line of its body. */
  lemma LineHasSection(md: Lines, l: Line)
    requires DieuAt(md) != [] && l in md && l != Blank
    ensures exists i :: 0 <= i < |DieuAt(md)| && (l == FirstLine(SectionAt(md, i)) || l in SectionAt(md, i).body)
  {
    hide NonBlank, DieuAt;
    var p :| 0 <= p < |md| && md[p] == l;
    LineInSection(md, SectionOf(md, p, |DieuAt(md)|), p);
  }

  /** The index of the section that line `p` belongs to, among the first `n`. */
  function SectionOf(md: Lines, p: nat, n: nat): (i: nat)
    requires p < |md| && 0 < n <= |DieuAt(md)|
    requires n < |DieuAt(md)| ==> p < DieuAt(md)[n]
    ensures i < n && p < EndAt(md, i)
    ensures DieuAt(md)[i] <= p || (i == 0 && p < DieuAt(md)[0])
  {
    if n == 1 || DieuAt(md)[n - 1] <= p then n - 1 else SectionOf(md, p, n - 1)
  }

  lemma ShownWhenEmitted(chunks: seq<Chunk>, l: Line)
    requires exists i :: 0 <= i < |chunks| && l in chunks[i].text
    ensures Shown(chunks, l)
  {
    var i :| 0 <= i < |chunks| && l in chunks[i].text;
    assert ShownIn(chunks[i].text, l);
  }

  lemma ShownByHeading(chunks: seq<Chunk>, sec: Section)
    requires sec.heading.Some? && sec.heading.value.Path?
    requires exists i :: 0 <= i < |chunks| && sec.heading.value in chunks[i].text
    ensures Shown(chunks, FirstLine(sec))
  {
    var i :| 0 <= i < |chunks| && sec.heading.value in chunks[i].text;
    assert Path(sec.heading.value.chuong, sec.heading.value.dieu) in chunks[i].text;
    assert ShownIn(chunks[i].text, FirstLine(sec));
  }

  /** What goes through a section is shown: the lines of its body and, in the heading, its first
      line. */
  lemma SectionShown(cfg: Config, md: Lines, i: nat, l: Line)
    requires GoodSplitter(cfg.splitter) && IsLegal(md) && i < |DieuAt(md)| && l != Blank && !l.Page?
    requires l == FirstLine(SectionAt(md, i)) || l in SectionAt(md, i).body
    ensures Shown(Chunks(cfg, md), l)
  {
    hide GoodSplitter, CallsFor, EmitAll, Shown, Called, FullBody, DieuAt, IsLegal, LastChuong, Raw;
    var sec := SectionAt(md, i);
    assert Split(md)[i] == sec;
    FirstOfBody(md, i);
    var carrier := if l in sec.body then l else sec.body[0];
    SectionCalled(cfg, true, Split(md), i, carrier);
    CallShown(cfg.tokens, Calls(cfg, md), sec.heading, carrier);
    if l in sec.body {
      ShownWhenEmitted(Chunks(cfg, md), l);
    } else {
      ShownByHeading(Chunks(cfg, md), sec);
    }
  }

  /** Every line of the document that is neither blank nor a page marker is shown by some chunk. */
  lemma NothingIsLost(cfg: Config, md: Lines, l: Line)
    requires GoodSplitter(cfg.splitter) && l in md && l != Blank && !l.Page?
    ensures Shown(Chunks(cfg, md), l)
  {
    hide GoodSplitter, CallsFor, EmitAll, Shown, Called, DieuAt;
    if IsLegal(md) {
      LineHasSection(md, l);
      var i :| 0 <= i < |DieuAt(md)| && (l == FirstLine(SectionAt(md, i)) || l in SectionAt(md, i).body);
      SectionShown(cfg, md, i, l);
    } else {
      SectionCalled(cfg, false, [Section(None, md)], 0, l);
      CallShown(cfg.tokens, Calls(cfg, md), None, l);
      ShownWhenEmitted(Chunks(cfg, md), l);
    }
  }
}
