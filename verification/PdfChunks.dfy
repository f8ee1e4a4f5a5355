/**
 From a PDF to its citations: the pages that `parse_pdf` marks and `chunk_document` attributes
 (src/ingestion/parsers/pdf.py:20-42, src/ingestion/chunkers/base.py:102-180).
 */
module PdfChunks {
  import opened Prelude
  import opened Text
  import opened Sections
  import opened Chunker
  import opened ChunkPages
  import opened ChunkPlaces
  import opened PdfParser

  function Markdown(texts: seq<Lines>): Lines {
    Join(Parts(texts))
  }

  lemma PdfMarkersAscend(texts: seq<Lines>)
    requires NoPageLines(texts)
    ensures Ascending(Markers(Markdown(texts)))
  {
    MarkersNumberPages(texts);
  }

  lemma {:induction false} MarkerOfPrefix(lines: Lines, n: nat)
    requires n <= |lines|
    ensures forall m :: m in Markers(lines[..n]) ==> m in Markers(lines)
  {
    assert lines == lines[..n] + lines[n..];
    MarkersConcat(lines[..n], lines[n..]);
  }

  lemma MarkerOfSlice(lines: Lines, lo: nat, hi: nat)
    requires lo <= hi <= |lines|
    ensures forall m :: m in Markers(lines[lo..hi]) ==> m in Markers(lines)
  {
    MarkerOfPrefix(lines, hi);
    assert lines[..hi] == lines[..lo] + lines[lo..hi];
    MarkersConcat(lines[..lo], lines[lo..hi]);
  }

  lemma PagesAreMarkers(flat: Lines, chunk: Chunk, c: Call)
    requires c.lo <= c.hi <= |flat| && c.piece == flat[c.lo..c.hi] && RightPages(flat, chunk, c)
    ensures chunk.pageTo.Some? ==> chunk.pageTo.value in Markers(flat)
    ensures chunk.pageFrom.Some? ==> chunk.pageFrom.value in Markers(flat)
  {
    MarkerOfPrefix(flat, c.hi);
    MarkerOfSlice(flat, c.lo, c.hi);
    LastMarkerIsLast(flat[..c.hi]);
  }

  ghost predicate CitesPages(texts: seq<Lines>, c: Chunk) {
    && PageLe(c.pageFrom, c.pageTo)
    && (c.pageFrom.Some? ==> HasText(texts, c.pageFrom.value))
    && (c.pageTo.Some? ==> HasText(texts, c.pageTo.value))
  }

  lemma ChunkCitesPages(cfg: Config, texts: seq<Lines>, i: nat)
    requires GoodSplitter(cfg.splitter) && NoPageLines(texts) && i < |Chunks(cfg, Markdown(texts))|
    ensures CitesPages(texts, Chunks(cfg, Markdown(texts))[i])
  {
    var md := Markdown(texts);
    var flat, calls := Flat(SectionsOf(md)), Calls(cfg, md);
    PdfMarkersAscend(texts);
    PagesOfChunks(cfg, md);
    CallsGood(cfg, md);
    var c := calls[Sources(calls)[i]];
    PlacedCall(flat, calls, Sources(calls)[i]);
    PagesAreMarkers(flat, Chunks(cfg, md)[i], c);
    MarkersNumberPages(texts);
  }

  // ---- the page of each line -----------------------------------------------

  predicate TextLine(l: Line) {
    l != Blank && !l.Page?
  }

  /** The page that a line of the bodies is on: the last marker above its place in the document. */
  function PageOfLine(md: Lines, x: nat): Option<nat>
    requires x < |Places(md)| && Places(md)[x] <= |md|
  {
    LastMarker(md[..Places(md)[x]])
  }

  lemma PlaceOf(md: Lines, x: nat)
    requires x < |Flat(SectionsOf(md))|
    ensures x < |Places(md)| && Places(md)[x] < |md| && EndIn(md, x + 1) == Places(md)[x] + 1
    ensures Flat(SectionsOf(md))[x] != Blank ==> md[Places(md)[x]] == Flat(SectionsOf(md))[x]
  {
    BodiesPlaced(md);
    hide Flat, SectionsOf, Places, Markers;
    assert At(md, Flat(SectionsOf(md)), Places(md), 0, |md|, x);
  }

  lemma NotAtText(md: Lines, p: nat)
    requires p < |md| && !md[p].Page?
    ensures LastMarker(md[..p + 1]) == LastMarker(md[..p])
  {
    assert md[..p + 1][..p] == md[..p];
  }

  lemma BodyLine(md: Lines, x: nat)
    requires x < |Flat(SectionsOf(md))| && TextLine(Flat(SectionsOf(md))[x])
    ensures x < |Places(md)| && Places(md)[x] < |md| && md[Places(md)[x]] == Flat(SectionsOf(md))[x]
    ensures PageOfLine(md, x) == LastMarker(Flat(SectionsOf(md))[..x + 1])
  {
    hide Flat, SectionsOf, Places, LastMarker, EndIn;
    PlaceOf(md, x);
    SamePage(md, x + 1);
    NotAtText(md, Places(md)[x]);
  }

  function LastOf(ms: seq<nat>): Option<nat> {
    if ms == [] then None else Some(ms[|ms| - 1])
  }

  lemma StrictPrefix(a: seq<nat>, b: seq<nat>)
    requires StrictlyAscending(a + b)
    ensures StrictlyAscending(a)
  {
    assert forall i :: 0 <= i < |a| ==> a[i] == (a + b)[i];
  }

  lemma LastAlong(a: seq<nat>, b: seq<nat>)
    requires StrictlyAscending(a + b)
    ensures PageLe(LastOf(a), LastOf(a + b)) && (LastOf(a) == LastOf(a + b) <==> b == [])
  {
    var ab := a + b;
    if b == [] {
      assert ab == a;
    } else if a != [] {
      assert ab[|a| - 1] == a[|a| - 1] && ab[|ab| - 1] == b[|b| - 1];
      assert ab[|a| - 1] < ab[|ab| - 1];
    }
  }

  lemma FirstOfLater(a: seq<nat>, b: seq<nat>)
    requires StrictlyAscending(a + b) && b != []
    ensures LastOf(a + b).Some? && b[0] <= LastOf(a + b).value
  {
    var ab := a + b;
    assert ab[|a|] == b[0];
    assert |a| < |ab| - 1 ==> ab[|a|] < ab[|ab| - 1];
  }

  lemma PartsAlong(u: Lines, v: Lines, w: Lines)
    requires StrictlyAscending(Markers(u + v + w))
    ensures PageLe(LastMarker(u), LastMarker(u + v))
    ensures LastMarker(u) == LastMarker(u + v) <==> Markers(v) == []
  {
    hide Markers, StrictlyAscending;
    MarkersOfParts(u, v, w);
    StrictPrefix(Markers(u) + Markers(v), Markers(w));
    LastAlong(Markers(u), Markers(v));
    LastMarkerIsLast(u);
    LastMarkerIsLast(u + v);
  }

  /** In a text whose markers ascend strictly: the page at one line against the page at a later one. */
  lemma PagesAlong(flat: Lines, a: nat, b: nat)
    requires StrictlyAscending(Markers(flat)) && a <= b <= |flat|
    ensures PageLe(LastMarker(flat[..a]), LastMarker(flat[..b]))
    ensures LastMarker(flat[..a]) == LastMarker(flat[..b]) <==> Markers(flat[a..b]) == []
  {
    hide *;
    assert flat == flat[..a] + flat[a..b] + flat[b..];
    assert flat[..b] == flat[..a] + flat[a..b];
    PartsAlong(flat[..a], flat[a..b], flat[b..]);
  }

  lemma FirstOfParts(u: Lines, v: Lines, w: Lines)
    requires StrictlyAscending(Markers(u + v + w)) && Markers(v) != []
    ensures LastMarker(u + v).Some? && Markers(v)[0] <= LastMarker(u + v).value
  {
    hide Markers, StrictlyAscending;
    MarkersOfParts(u, v, w);
    StrictPrefix(Markers(u) + Markers(v), Markers(w));
    FirstOfLater(Markers(u), Markers(v));
    LastMarkerIsLast(u + v);
  }

  lemma LastBeforeFirst(a: seq<nat>, b: seq<nat>)
    requires StrictlyAscending(a + b) && b != []
    ensures LastOf(a).Some? ==> LastOf(a).value < b[0]
  {
    if a != [] {
      assert (a + b)[|a| - 1] == a[|a| - 1] && (a + b)[|a|] == b[0];
    }
  }

  /** The first marker behind a line is later than the page of the line. */
  lemma FirstBehind(u: Lines, v: Lines, w: Lines)
    requires StrictlyAscending(Markers(u + v + w)) && Markers(v) != []
    ensures LastMarker(u).Some? ==> LastMarker(u).value < Markers(v)[0]
  {
    hide Markers, StrictlyAscending;
    MarkersOfParts(u, v, w);
    StrictPrefix(Markers(u) + Markers(v), Markers(w));
    LastBeforeFirst(Markers(u), Markers(v));
    LastMarkerIsLast(u);
  }

  lemma FirstOfUnmarked(v: Lines, rest: Lines)
    requires Markers(v) == []
    ensures Markers(v + rest) == Markers(rest)
  {
    MarkersConcat(v, rest);
    assert [] + Markers(rest) == Markers(rest);
  }

  /** The first marker of a stretch is later than the page of a line above it. */
  lemma FirstIsLater(flat: Lines, lo: nat, a: nat, hi: nat)
    requires StrictlyAscending(Markers(flat)) && lo <= a <= hi <= |flat|
    requires Markers(flat[lo..a]) == [] && Markers(flat[lo..hi]) != []
    ensures LastMarker(flat[..a]).Some? ==> LastMarker(flat[..a]).value < Markers(flat[lo..hi])[0]
  {
    hide *;
    assert flat == flat[..a] + flat[a..hi] + flat[hi..];
    assert flat[lo..hi] == flat[lo..a] + flat[a..hi];
    FirstOfUnmarked(flat[lo..a], flat[a..hi]);
    FirstBehind(flat[..a], flat[a..hi], flat[hi..]);
  }

  lemma FirstOfLonger(v: Lines, rest: Lines)
    requires Markers(v) != []
    ensures Markers(v + rest) != [] && Markers(v + rest)[0] == Markers(v)[0]
  {
    MarkersConcat(v, rest);
  }

  /** The first marker of a stretch is no later than the page at its end. */
  lemma FirstIsNoLater(flat: Lines, lo: nat, a: nat, hi: nat)
    requires StrictlyAscending(Markers(flat)) && lo <= a <= hi <= |flat| && Markers(flat[lo..a]) != []
    ensures Markers(flat[lo..hi]) != [] && LastMarker(flat[..a]).Some?
    ensures Markers(flat[lo..hi])[0] <= LastMarker(flat[..a]).value
  {
    hide *;
    assert flat == flat[..lo] + flat[lo..a] + flat[a..];
    assert flat[..a] == flat[..lo] + flat[lo..a];
    assert flat[lo..hi] == flat[lo..a] + flat[a..hi];
    FirstOfParts(flat[..lo], flat[lo..a], flat[a..]);
    FirstOfLonger(flat[lo..a], flat[a..hi]);
  }

  /** What the page range of a chunk says about one line of text of its piece: the line is on a page of the
      PDF not after `page_to`; not before `page_from` exactly if a marker of the piece stands above it or
      the piece has none; and on the page `page_to` exactly if no marker of the piece stands below it. */
  ghost predicate CitesLine(texts: seq<Lines>, md: Lines, chunk: Chunk, c: Call, x: nat)
    requires c.lo <= x < c.hi <= |Places(md)| && |c.piece| == c.hi - c.lo && Places(md)[x] < |md|
  {
    var page, k := PageOfLine(md, x), x - c.lo;
    && md[Places(md)[x]] == c.piece[k] && Attributed(texts, c.piece[k], page)
    && chunk.pageTo.Some? && page.value <= chunk.pageTo.value
    && chunk.pageFrom.Some?
    && (chunk.pageFrom.value <= page.value <==> Markers(c.piece[..k + 1]) != [] || Markers(c.piece) == [])
    && (page == chunk.pageTo <==> Markers(c.piece[k + 1..]) == [])
  }

  lemma AttributedLine(texts: seq<Lines>, md: Lines, p: nat)
    requires WellAttributed(texts, md) && p < |md| && TextLine(md[p])
    ensures Attributed(texts, md[p], LastMarker(md[..p]))
  {
  }

  lemma PieceParts(flat: Lines, c: Call, x: nat)
    requires c.lo <= x < c.hi <= |flat| && c.piece == flat[c.lo..c.hi]
    ensures c.piece[x - c.lo] == flat[x]
    ensures c.piece[..x - c.lo + 1] == flat[c.lo..x + 1] && c.piece[x - c.lo + 1..] == flat[x + 1..c.hi]
  {
  }

  /** The pages at a line and at the end of its piece. */
  lemma LineFacts(flat: Lines, c: Call, x: nat)
    requires StrictlyAscending(Markers(flat)) && c.lo <= x < c.hi <= |flat| && c.piece == flat[c.lo..c.hi]
    ensures var page, to := LastMarker(flat[..x + 1]), LastMarker(flat[..c.hi]);
            && PageLe(page, to) && (page == to <==> Markers(flat[x + 1..c.hi]) == [])
            && FromFacts(page, Markers(flat[c.lo..x + 1]), Markers(flat[c.lo..c.hi]))
  {
    hide *;
    PagesAlong(flat, x + 1, c.hi);
    if Markers(flat[c.lo..x + 1]) != [] {
      FirstIsNoLater(flat, c.lo, x + 1, c.hi);
    } else if Markers(flat[c.lo..c.hi]) != [] {
      FirstIsLater(flat, c.lo, x + 1, c.hi);
    }
    FromFactsAre(LastMarker(flat[..x + 1]), Markers(flat[c.lo..x + 1]), Markers(flat[c.lo..c.hi]));
  }

  lemma AllUnmarked(flat: Lines, lo: nat, a: nat, hi: nat)
    requires lo <= a <= hi <= |flat| && Markers(flat[lo..hi]) == []
    ensures Markers(flat[a..hi]) == []
  {
    assert flat[lo..hi] == flat[lo..a] + flat[a..hi];
    MarkersConcat(flat[lo..a], flat[a..hi]);
  }

  /** The page of a line against the first marker of its piece, by the markers of the piece down to the
      line and the markers of the piece. */
  ghost predicate FromFacts(page: Option<nat>, above: seq<nat>, all: seq<nat>) {
    && (above != [] ==> page.Some? && all != [] && all[0] <= page.value)
    && (above == [] && all != [] && page.Some? ==> page.value < all[0])
  }

  lemma FromFactsAre(page: Option<nat>, above: seq<nat>, all: seq<nat>)
    requires above != [] ==> page.Some? && all != [] && all[0] <= page.value
    requires above == [] && all != [] && page.Some? ==> page.value < all[0]
    ensures FromFacts(page, above, all)
  {
  }

  lemma CitedBy(texts: seq<Lines>, md: Lines, flat: Lines, chunk: Chunk, c: Call, x: nat)
    requires c.lo <= x < c.hi <= |flat| == |Places(md)| && c.piece == flat[c.lo..c.hi] && Places(md)[x] < |md|
    requires md[Places(md)[x]] == flat[x] && PageOfLine(md, x) == LastMarker(flat[..x + 1])
    requires RightPages(flat, chunk, c) && Attributed(texts, flat[x], PageOfLine(md, x)) && PageOfLine(md, x).Some?
    requires var page, to := LastMarker(flat[..x + 1]), LastMarker(flat[..c.hi]);
             && PageLe(page, to) && (page == to <==> Markers(flat[x + 1..c.hi]) == [])
             && FromFacts(page, Markers(flat[c.lo..x + 1]), Markers(flat[c.lo..c.hi]))
             && (Markers(flat[c.lo..c.hi]) == [] ==> Markers(flat[x + 1..c.hi]) == [])
    ensures CitesLine(texts, md, chunk, c, x)
  {
    PieceParts(flat, c, x);
    hide Places, PageOfLine, Markers, LastMarker, Attributed;
  }

  lemma AttributedHasPage(texts: seq<Lines>, line: Line, page: Option<nat>)
    requires Attributed(texts, line, page)
    ensures page.Some?
  {
  }

  lemma LineIsCited(texts: seq<Lines>, md: Lines, chunk: Chunk, c: Call, x: nat)
    requires WellAttributed(texts, md) && StrictlyAscending(Markers(md))
    requires c.lo <= x < c.hi <= |Flat(SectionsOf(md))| == |Places(md)| && c.piece == Flat(SectionsOf(md))[c.lo..c.hi]
    requires RightPages(Flat(SectionsOf(md)), chunk, c) && TextLine(c.piece[x - c.lo])
    ensures Places(md)[x] < |md| && CitesLine(texts, md, chunk, c, x)
  {
    hide *;
    FlatMarkers(md);
    LineFacts(Flat(SectionsOf(md)), c, x);
    PieceParts(Flat(SectionsOf(md)), c, x);
    BodyLine(md, x);
    AttributedLine(texts, md, Places(md)[x]);
    PageOfLineIs(md, x);
    AttributedHasPage(texts, md[Places(md)[x]], PageOfLine(md, x));
    if Markers(Flat(SectionsOf(md))[c.lo..c.hi]) == [] {
      AllUnmarked(Flat(SectionsOf(md)), c.lo, x + 1, c.hi);
    }
    CitedBy(texts, md, Flat(SectionsOf(md)), chunk, c, x);
  }

  lemma PageOfLineIs(md: Lines, x: nat)
    requires x < |Places(md)| && Places(md)[x] <= |md|
    ensures PageOfLine(md, x) == LastMarker(md[..Places(md)[x]])
  {
  }

  /** Every line of text in the piece of every chunk of a PDF is cited as `CitesLine` says; every cited page
      is a page of the PDF that has text, the pages of a chunk are in order, and they never go back from
      chunk to chunk. */
  lemma PdfCitations(cfg: Config, texts: seq<Lines>)
    requires GoodSplitter(cfg.splitter) && NoPageLines(texts)
    ensures var md := Markdown(texts);
            && |Sources(Calls(cfg, md))| == |Chunks(cfg, md)|
            && PagesGoOn(Chunks(cfg, md))
            && forall i :: 0 <= i < |Chunks(cfg, md)| ==>
                 && CitesPages(texts, Chunks(cfg, md)[i])
                 && CitesLines(texts, md, Chunks(cfg, md)[i], SourceOf(cfg, md, i))
  {
    var md := Markdown(texts);
    hide *;
    PdfMarkersAscend(texts);
    PagesNeverDecrease(cfg, md);
    PagesOfChunks(cfg, md);
    forall i | 0 <= i < |Chunks(cfg, md)|
      ensures CitesPages(texts, Chunks(cfg, md)[i]) && CitesLines(texts, md, Chunks(cfg, md)[i], SourceOf(cfg, md, i))
    {
      ChunkCitesPages(cfg, texts, i);
      ChunkCitesLines(cfg, texts, i);
    }
  }

  ghost predicate CitesLines(texts: seq<Lines>, md: Lines, chunk: Chunk, c: Call) {
    && c.lo <= c.hi <= |Places(md)| && |c.piece| == c.hi - c.lo
    && forall x :: c.lo <= x < c.hi && TextLine(c.piece[x - c.lo]) ==>
         Places(md)[x] < |md| && CitesLine(texts, md, chunk, c, x)
  }

  lemma PdfGood(texts: seq<Lines>)
    requires NoPageLines(texts)
    ensures StrictlyAscending(Markers(Markdown(texts))) && WellAttributed(texts, Markdown(texts))
  {
    hide Markers, WellAttributed, StrictlyAscending, NoPageLines;
    MarkersNumberPages(texts);
    Attribution(texts);
  }

  lemma SourcePages(cfg: Config, md: Lines, i: nat)
    requires GoodSplitter(cfg.splitter) && Ascending(Markers(md)) && i < |Sources(Calls(cfg, md))|
    ensures i < |Chunks(cfg, md)| && SourceOf(cfg, md, i).hi <= |Flat(SectionsOf(md))|
    ensures RightPages(Flat(SectionsOf(md)), Chunks(cfg, md)[i], SourceOf(cfg, md, i))
  {
    PagesOfChunk(cfg, md, i);
    hide Calls, Chunks, Flat, SectionsOf, RightPages;
  }

  lemma PieceCited(texts: seq<Lines>, md: Lines, chunk: Chunk, c: Call)
    requires WellAttributed(texts, md) && StrictlyAscending(Markers(md))
    requires c.lo <= c.hi <= |Flat(SectionsOf(md))| == |Places(md)| && c.piece == Flat(SectionsOf(md))[c.lo..c.hi]
    requires RightPages(Flat(SectionsOf(md)), chunk, c)
    ensures CitesLines(texts, md, chunk, c)
  {
    hide Flat, SectionsOf, Places, RightPages, WellAttributed, StrictlyAscending, Markers, CitesLine, TextLine;
    forall x | c.lo <= x < c.hi && TextLine(c.piece[x - c.lo])
      ensures Places(md)[x] < |md| && CitesLine(texts, md, chunk, c, x)
    {
      LineIsCited(texts, md, chunk, c, x);
    }
  }

  lemma ChunkCitesLines(cfg: Config, texts: seq<Lines>, i: nat)
    requires GoodSplitter(cfg.splitter) && NoPageLines(texts) && i < |Sources(Calls(cfg, Markdown(texts)))|
    ensures i < |Chunks(cfg, Markdown(texts))|
    ensures CitesLines(texts, Markdown(texts), Chunks(cfg, Markdown(texts))[i], SourceOf(cfg, Markdown(texts), i))
  {
    var md := Markdown(texts);
    hide *;
    PdfMarkersAscend(texts);
    PdfGood(texts);
    SourcePages(cfg, md, i);
    SourceInBodies(cfg, md, i);
    PieceCited(texts, md, Chunks(cfg, md)[i], SourceOf(cfg, md, i));
  }

  /** A piece that begins on one page and goes on to the next makes its chunk cite only the second. */
  lemma MidPageStartIsMissed(tokens: Lines -> nat, head: string, tail: string, a: nat, b: nat)
    ensures Emit(tokens, EmitState([], 0, Some(a)), [Text(head), Page(b), Text(tail)], None).chunks ==
            [Chunk(0, [Text(head), Blank, Text(tail)], tokens([Text(head), Blank, Text(tail)]), None, Some(b), Some(b))]
  {
    var piece := [Text(head), Page(b), Text(tail)];
    assert piece[..2] == [Text(head), Page(b)] && piece[..2][..1] == [Text(head)] && [Text(head)][..0] == [];
    assert PageRange([Text(head)]) == (None, None);
    assert PageRange([Text(head), Page(b)]) == (Some(b), Some(b));
    assert PageRange(piece) == (Some(b), Some(b));
    assert Unmarked([Text(head)]) == [Text(head)];
    assert Unmarked([Text(head), Page(b)]) == [Text(head), Blank];
    assert Unmarked(piece) == [Text(head), Blank, Text(tail)];
  }

  /** A piece that ends in a marker makes its chunk cite the page behind its text. */
  lemma TrailingMarkerIsCited(tokens: Lines -> nat, body: string, a: nat, b: nat)
    requires a < b
    ensures Emit(tokens, EmitState([], 0, None), [Page(a), Text(body), Page(b)], None).chunks ==
            [Chunk(0, [Text(body)], tokens([Text(body)]), None, Some(a), Some(b))]
  {
    var piece := [Page(a), Text(body), Page(b)];
    assert piece[..2][..1] == [Page(a)] && piece[..2] == [Page(a), Text(body)] && [Page(a)][..0] == [];
    assert PageRange([Page(a)]) == (Some(a), Some(a));
    assert PageRange([Page(a), Text(body)]) == (Some(a), Some(a));
    assert PageRange(piece) == (Some(a), Some(b));
    assert Unmarked([Page(a)]) == [Blank];
    assert Unmarked([Page(a), Text(body)]) == [Blank, Text(body)];
    assert Unmarked(piece) == [Blank, Text(body), Blank];
    assert [Blank, Text(body), Blank][1..] == [Text(body), Blank];
    assert TrimStart([Blank, Text(body), Blank]) == [Text(body), Blank];
    assert [Text(body), Blank][..1] == [Text(body)];
    assert TrimEnd([Text(body), Blank]) == [Text(body)];
  }
}
