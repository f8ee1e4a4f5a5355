/**
 How the sections of a document become the calls of `_emit` and its chunks
 (src/ingestion/chunkers/base.py:110-178): which sections are cut, where, and what a chunk shows.
 */
module ChunkSections {
  import opened Prelude
  import opened Text
  import opened Sections
  import opened Chunker
  import opened ChunkPlaces

  // ---- which sections are cut ----------------------------------------------

  /** The text of a section or piece with its heading and an empty line in front. */
  ghost function Titled(heading: Option<Line>, lines: Lines): Lines {
    (if heading.Some? then [heading.value, Blank] else []) + lines
  }

  /** The section goes out whole: the document is legal, and heading and body have at most `maxTokens`
      tokens together. */
  ghost predicate GoesOutWhole(cfg: Config, legal: bool, sec: Section) {
    legal && cfg.tokens(Titled(sec.heading, sec.body)) <= cfg.maxTokens
  }

  /** The calls of one section whose body starts at `offset`: one call with the whole body, or one call for
      each run of the splitter, in order. */
  ghost predicate SectionCalls(cfg: Config, legal: bool, sec: Section, offset: nat, calls: seq<Call>) {
    if GoesOutWhole(cfg, legal, sec) then
      calls == [Call(sec.heading, sec.body, offset, offset + |sec.body|)]
    else
      var cuts := cfg.splitter(sec.body);
      && |calls| == |cuts|
      && forall k :: 0 <= k < |cuts| ==>
           && cuts[k].lo <= cuts[k].hi <= |sec.body|
           && calls[k] == Call(sec.heading, sec.body[cuts[k].lo..cuts[k].hi], offset + cuts[k].lo, offset + cuts[k].hi)
  }

  /** The calls of section `i` are those from `starts[i]` on, up to the next section. */
  ghost predicate SectionHere(cfg: Config, legal: bool, secs: seq<Section>, calls: seq<Call>, starts: seq<nat>, i: nat)
    requires |starts| == |secs| + 1 && i < |secs|
  {
    && starts[i] <= starts[i + 1] <= |calls|
    && SectionCalls(cfg, legal, secs[i], |Flat(secs[..i])|, calls[starts[i]..starts[i + 1]])
  }

  /** `starts` cuts the calls into those of the sections, in order. */
  ghost predicate BySection(cfg: Config, legal: bool, secs: seq<Section>, calls: seq<Call>, starts: seq<nat>) {
    && |starts| == |secs| + 1 && starts[0] == 0 && starts[|secs|] == |calls|
    && forall i :: 0 <= i < |secs| ==> SectionHere(cfg, legal, secs, calls, starts, i)
  }

  lemma CutsForIs(cfg: Config, legal: bool, sec: Section)
    ensures CutsFor(cfg, legal, sec) ==
            if GoesOutWhole(cfg, legal, sec) then [Cut(0, |sec.body|)] else cfg.splitter(sec.body)
  {
    assert HeadingLines(sec.heading) + sec.body == Titled(sec.heading, sec.body);
  }

  lemma LabelIs(sec: Section, cuts: seq<Cut>, offset: nat)
    requires InBounds(sec.body, cuts)
    ensures var calls := Label(sec, cuts, offset);
            && |calls| == |cuts|
            && forall k :: 0 <= k < |cuts| ==>
                 && cuts[k].lo <= cuts[k].hi <= |sec.body|
                 && calls[k] ==
                    Call(sec.heading, sec.body[cuts[k].lo..cuts[k].hi], offset + cuts[k].lo, offset + cuts[k].hi)
    ensures cuts == [Cut(0, |sec.body|)] ==>
              Label(sec, cuts, offset) == [Call(sec.heading, sec.body, offset, offset + |sec.body|)]
  {
    assert sec.body[0..|sec.body|] == sec.body;
  }

  lemma LabelIsSectionCalls(cfg: Config, legal: bool, sec: Section, offset: nat)
    requires GoodSplitter(cfg.splitter)
    ensures InBounds(sec.body, CutsFor(cfg, legal, sec))
    ensures SectionCalls(cfg, legal, sec, offset, Label(sec, CutsFor(cfg, legal, sec), offset))
  {
    hide GoodSplitter, GoodCuts, InBounds, Label, CutsFor, GoesOutWhole;
    CutsForGood(cfg, legal, sec);
    CutsForIs(cfg, legal, sec);
    LabelIs(sec, CutsFor(cfg, legal, sec), offset);
  }

  lemma SectionHereStays(cfg: Config, legal: bool, secs: seq<Section>, sec: Section, calls: seq<Call>,
                         starts: seq<nat>, more: seq<Call>, i: nat)
    requires |starts| == |secs| + 1 && i < |secs| && SectionHere(cfg, legal, secs, calls, starts, i)
    ensures SectionHere(cfg, legal, secs + [sec], calls + more, starts + [|calls + more|], i)
  {
    hide SectionCalls, Flat;
    assert (secs + [sec])[..i] == secs[..i];
    assert (calls + more)[starts[i]..starts[i + 1]] == calls[starts[i]..starts[i + 1]];
  }

  lemma SectionHereLast(cfg: Config, legal: bool, secs: seq<Section>, sec: Section, calls: seq<Call>,
                        starts: seq<nat>, more: seq<Call>)
    requires |starts| == |secs| + 1 && starts[|secs|] == |calls| && SectionCalls(cfg, legal, sec, |Flat(secs)|, more)
    ensures SectionHere(cfg, legal, secs + [sec], calls + more, starts + [|calls + more|], |secs|)
  {
    hide SectionCalls, Flat;
    assert (secs + [sec])[..|secs|] == secs;
    assert (calls + more)[|calls|..|calls + more|] == more;
  }

  lemma BySectionSnoc(cfg: Config, legal: bool, secs: seq<Section>, sec: Section, calls: seq<Call>, starts: seq<nat>,
                      more: seq<Call>)
    requires BySection(cfg, legal, secs, calls, starts) && SectionCalls(cfg, legal, sec, |Flat(secs)|, more)
    ensures BySection(cfg, legal, secs + [sec], calls + more, starts + [|calls + more|])
  {
    hide SectionCalls, Flat, SectionHere;
    SectionHereLast(cfg, legal, secs, sec, calls, starts, more);
    forall i | 0 <= i < |secs|
      ensures SectionHere(cfg, legal, secs + [sec], calls + more, starts + [|calls + more|], i)
    {
      SectionHereStays(cfg, legal, secs, sec, calls, starts, more, i);
    }
  }

  lemma {:induction false} CallsForBySection(cfg: Config, legal: bool, secs: seq<Section>) returns (starts: seq<nat>)
    requires GoodSplitter(cfg.splitter)
    ensures BySection(cfg, legal, secs, CallsFor(cfg, legal, secs), starts)
  {
    if secs == [] {
      starts := [0];
      NoSections(cfg, legal);
    } else {
      var front, sec := secs[..|secs| - 1], secs[|secs| - 1];
      starts := CallsForBySection(cfg, legal, front);
      LabelIsSectionCalls(cfg, legal, sec, |Flat(front)|);
      var calls, more := CallsFor(cfg, legal, front), Label(sec, CutsFor(cfg, legal, sec), |Flat(front)|);
      assert CallsFor(cfg, legal, secs) == calls + more;
      hide *;
      BySectionSnoc(cfg, legal, front, sec, calls, starts, more);
      starts := starts + [|calls + more|];
      assert front + [sec] == secs;
    }
  }

  lemma NoSections(cfg: Config, legal: bool)
    requires GoodSplitter(cfg.splitter)
    ensures BySection(cfg, legal, [], CallsFor(cfg, legal, []), [0])
  {
  }

  /** The calls of a document: a section of a legal document that fits with its heading is one call with its
      whole body; any other section is one call for each run that the splitter makes of its body, in
      order. */
  lemma CallsAreSections(cfg: Config, md: Lines)
    requires GoodSplitter(cfg.splitter)
    ensures exists starts :: BySection(cfg, IsLegal(md), SectionsOf(md), Calls(cfg, md), starts)
  {
    var starts := CallsForBySection(cfg, IsLegal(md), SectionsOf(md));
    assert BySection(cfg, IsLegal(md), SectionsOf(md), Calls(cfg, md), starts);
  }

  /** Every piece the splitter makes has at most `maxTokens` tokens. */
  ghost predicate Fitting(cfg: Config) {
    forall lines, k :: 0 <= k < |cfg.splitter(lines)| ==>
      var cut := cfg.splitter(lines)[k];
      cut.lo <= cut.hi <= |lines| ==> cfg.tokens(lines[cut.lo..cut.hi]) <= cfg.maxTokens
  }

  lemma CallOfSection(cfg: Config, legal: bool, secs: seq<Section>, calls: seq<Call>, starts: seq<nat>, k: nat)
    returns (i: nat)
    requires BySection(cfg, legal, secs, calls, starts) && k < |calls|
    ensures i < |secs| && starts[i] <= k < starts[i + 1] && SectionHere(cfg, legal, secs, calls, starts, i)
  {
    hide SectionHere;
    i := 0;
    while starts[i + 1] <= k
      invariant i < |secs| && starts[i] <= k
      decreases |secs| - i
    {
      i := i + 1;
    }
  }

  lemma OwnPieceFits(cfg: Config, legal: bool, sec: Section, offset: nat, own: seq<Call>, k: nat)
    requires SectionCalls(cfg, legal, sec, offset, own) && k < |own| && Fitting(cfg)
    ensures || cfg.tokens(own[k].piece) <= cfg.maxTokens
            || (GoesOutWhole(cfg, legal, sec) && own[k].heading == sec.heading && own[k].piece == sec.body)
  {
    if !GoesOutWhole(cfg, legal, sec) {
      var cut := cfg.splitter(sec.body)[k];
      assert own[k].piece == sec.body[cut.lo..cut.hi];
    }
  }

  /** A whole section that fits. */
  ghost predicate WholeSection(cfg: Config, md: Lines, c: Call) {
    exists sec :: sec in SectionsOf(md) && GoesOutWhole(cfg, IsLegal(md), sec) &&
                  c.heading == sec.heading && c.piece == sec.body
  }

  lemma IsWholeSection(cfg: Config, md: Lines, c: Call, i: nat)
    requires i < |SectionsOf(md)| && GoesOutWhole(cfg, IsLegal(md), SectionsOf(md)[i])
    requires c.heading == SectionsOf(md)[i].heading && c.piece == SectionsOf(md)[i].body
    ensures WholeSection(cfg, md, c)
  {
    var sec := SectionsOf(md)[i];
    hide SectionsOf, GoesOutWhole;
    assert sec in SectionsOf(md);
  }

  lemma OwnCall(cfg: Config, legal: bool, secs: seq<Section>, calls: seq<Call>, starts: seq<nat>, k: nat)
    returns (i: nat)
    requires BySection(cfg, legal, secs, calls, starts) && k < |calls| && Fitting(cfg)
    ensures i < |secs|
    ensures || cfg.tokens(calls[k].piece) <= cfg.maxTokens
            || (GoesOutWhole(cfg, legal, secs[i]) &&
                calls[k].heading == secs[i].heading && calls[k].piece == secs[i].body)
  {
    i := CallOfSection(cfg, legal, secs, calls, starts, k);
    var own := calls[starts[i]..starts[i + 1]];
    hide BySection, Fitting, GoesOutWhole, SectionCalls, Flat;
    OwnPieceFits(cfg, legal, secs[i], |Flat(secs[..i])|, own, k - starts[i]);
    assert calls[k] == own[k - starts[i]];
  }

  /** With a splitter that keeps to `maxTokens`: every piece of a document has at most `maxTokens` tokens, or
      it is the whole body of a section of a legal document that fits with its heading. */
  lemma PiecesFit(cfg: Config, md: Lines, k: nat)
    requires GoodSplitter(cfg.splitter) && Fitting(cfg) && k < |Calls(cfg, md)|
    ensures cfg.tokens(Calls(cfg, md)[k].piece) <= cfg.maxTokens || WholeSection(cfg, md, Calls(cfg, md)[k])
  {
    CallsAreSections(cfg, md);
    hide *;
    var starts :| BySection(cfg, IsLegal(md), SectionsOf(md), Calls(cfg, md), starts);
    var i := OwnCall(cfg, IsLegal(md), SectionsOf(md), Calls(cfg, md), starts, k);
    if cfg.tokens(Calls(cfg, md)[k].piece) > cfg.maxTokens {
      IsWholeSection(cfg, md, Calls(cfg, md)[k], i);
    }
  }

  // ---- what a chunk shows --------------------------------------------------

  /** `shown` is `text` with its page markers blanked and without the blank and marker lines at its ends. */
  ghost predicate Shows(shown: Lines, text: Lines, lo: nat) {
    && lo + |shown| <= |text|
    && (forall k :: 0 <= k < |shown| ==> shown[k] == if text[lo + k].Page? then Blank else text[lo + k])
    && (forall k :: 0 <= k < |text| && !(lo <= k < lo + |shown|) ==> text[k].Page? || text[k] == Blank)
    && (shown != [] ==> shown[0] != Blank && shown[|shown| - 1] != Blank)
  }

  lemma {:induction false} UnmarkedAt(lines: Lines, k: nat)
    requires k < |lines|
    ensures |Unmarked(lines)| == |lines|
    ensures Unmarked(lines)[k] == if lines[k].Page? then Blank else lines[k]
  {
    var front := lines[..|lines| - 1];
    if k < |front| {
      UnmarkedAt(front, k);
    } else if front != [] {
      UnmarkedAt(front, 0);
    }
  }

  lemma {:induction false} UnmarkedLength(lines: Lines)
    ensures |Unmarked(lines)| == |lines|
  {
    if lines != [] {
      UnmarkedLength(lines[..|lines| - 1]);
    }
  }

  lemma {:induction false} BlankBehind(lines: Lines, k: nat)
    requires |TrimEnd(lines)| <= k < |lines|
    ensures lines[k] == Blank
  {
    if k < |lines| - 1 {
      BlankBehind(lines[..|lines| - 1], k);
    }
  }

  lemma TrimIsTight(lines: Lines)
    ensures Lead(lines) + |Trim(lines)| <= |lines|
    ensures Trim(lines) == lines[Lead(lines)..Lead(lines) + |Trim(lines)|]
    ensures forall k :: 0 <= k < |lines| && !(Lead(lines) <= k < Lead(lines) + |Trim(lines)|) ==> lines[k] == Blank
  {
    TrimIsSlice(lines);
    TrimStartIsSlice(lines);
    var a, n := Lead(lines), |Trim(lines)|;
    forall k | a + n <= k < |lines| ensures lines[k] == Blank {
      BlankBehind(TrimStart(lines), k - a);
    }
  }

  /** Stripping the markers of a text. */
  lemma StripMarkersShows(text: Lines)
    ensures exists lo :: Shows(StripMarkers(text), text, lo)
  {
    var u, shown := Unmarked(text), StripMarkers(text);
    TrimIsTight(u);
    Trimmed(u);
    UnmarkedLength(text);
    var lo := Lead(u);
    hide Unmarked, Trim, Lead;
    forall k | 0 <= k < |text| ensures u[k] == if text[k].Page? then Blank else text[k] {
      UnmarkedAt(text, k);
    }
    assert Shows(shown, text, lo);
  }

  /** The chunk shows the heading of its section, an empty line, and the piece, without markers. */
  ghost predicate ShowsPiece(cfg: Config, c: Chunk, call: Call) {
    && (exists lo :: Shows(c.text, Titled(call.heading, call.piece), lo))
    && c.text != [] && c.nTokens == cfg.tokens(c.text) && c.heading == call.heading
  }

  lemma FromCallShows(cfg: Config, c: Chunk, call: Call)
    requires FromCall(cfg.tokens, c, call)
    ensures ShowsPiece(cfg, c, call)
  {
    assert CallText(call) == Titled(call.heading, call.piece);
    StripMarkersShows(CallText(call));
  }

  /** Each chunk shows its own piece, in order, and every piece that is more than blank lines and markers,
      or has a heading, has its chunk. */
  lemma ChunksShowPieces(cfg: Config, md: Lines)
    requires GoodSplitter(cfg.splitter)
    ensures var calls, chunks, src := Calls(cfg, md), Chunks(cfg, md), Sources(Calls(cfg, md));
            && |src| == |chunks|
            && (forall i, j :: 0 <= i < j < |src| ==> src[i] < src[j])
            && (forall i :: 0 <= i < |src| ==> ShowsPiece(cfg, chunks[i], calls[src[i]]))
            && (forall k :: 0 <= k < |calls| && HasContent(calls[k]) ==> k in src)
  {
    var calls, chunks, src := Calls(cfg, md), Chunks(cfg, md), Sources(Calls(cfg, md));
    EmittedInOrder(cfg.tokens, calls);
    forall i | 0 <= i < |src| ensures ShowsPiece(cfg, chunks[i], calls[src[i]]) {
      FromCallShows(cfg, chunks[i], calls[src[i]]);
    }
    hide Calls, Chunks, ShowsPiece;
    forall k | 0 <= k < |calls| && HasContent(calls[k]) ensures k in src {
      StripMarkersMembers(CallText(calls[k]));
      EveryTextIsEmitted(calls, k);
    }
  }

  /** The heading and the piece hold a line that is neither blank nor a marker. */
  ghost predicate HasContent(call: Call) {
    exists l :: l in Titled(call.heading, call.piece) && l != Blank && !l.Page?
  }
}
