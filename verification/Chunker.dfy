/**
 `chunk_document` (src/ingestion/chunkers/base.py:115-180). The recursive splitter and the token
 counter are parameters; a splitter is good when its pieces are runs of lines, in order,
 possibly overlapping, that leave out only blank lines.
 */
module Chunker {
  import opened Prelude
  import opened Text
  import opened Sections

  datatype Chunk = Chunk(index: nat, text: Lines, nTokens: nat, heading: Option<Line>,
                         pageFrom: Option<nat>, pageTo: Option<nat>)

  datatype Cut = Cut(lo: nat, hi: nat)

  datatype Config = Config(maxTokens: int, tokens: Lines -> nat, splitter: Lines -> seq<Cut>)

  ghost predicate GoodCuts(lines: Lines, cuts: seq<Cut>) {
    && (forall i :: 0 <= i < |cuts| ==> cuts[i].lo <= cuts[i].hi <= |lines|)
    && (forall i, j :: 0 <= i < j < |cuts| ==> cuts[i].lo <= cuts[j].lo && cuts[i].hi <= cuts[j].hi)
    && (forall p :: 0 <= p < |lines| && lines[p] != Blank ==>
          exists i :: 0 <= i < |cuts| && cuts[i].lo <= p < cuts[i].hi)
  }

  ghost predicate GoodSplitter(splitter: Lines -> seq<Cut>) {
    forall lines :: GoodCuts(lines, splitter(lines))
  }

  // ---- emission ------------------------------------------------------------

  datatype EmitState = EmitState(chunks: seq<Chunk>, idx: nat, lastPage: Option<nat>)

  /** `_emit` on values: the page range comes from the text before its markers are removed, a text
      without markers inherits the last page, and a text that strips to nothing only moves the
      last page. */
  function Emit(tokens: Lines -> nat, st: EmitState, text: Lines, heading: Option<Line>): EmitState {
    var (from, to) := PageRange(text);
    var last := if to.Some? then to else st.lastPage;
    var first := if to.Some? then from else st.lastPage;
    var body := StripMarkers(text);
    if body == [] then st.(lastPage := last)
    else EmitState(st.chunks + [Chunk(st.idx, body, tokens(body), heading, first, last)], st.idx + 1, last)
  }

  class Emitter {
    var chunks: seq<Chunk>
    var idx: nat
    var lastPage: Option<nat>

    ghost function State(): EmitState
      reads this
    {
      EmitState(chunks, idx, lastPage)
    }

    constructor ()
      ensures State() == EmitState([], 0, None)
    {
      chunks, idx, lastPage := [], 0, None;
    }

    method Add(tokens: Lines -> nat, text: Lines, heading: Option<Line>)
      modifies this
      ensures State() == Emit(tokens, old(State()), text, heading)
    {
      var (from, to) := PageRange(text);
      if to.Some? {
        lastPage := to;
      } else {
        from, to := lastPage, lastPage;
      }
      var body := StripMarkers(text);
      if body == [] {
        return;
      }
      chunks := chunks + [Chunk(idx, body, tokens(body), heading, from, to)];
      idx := idx + 1;
    }
  }

  // ---- the calls of one document -------------------------------------------

  /** One call of `_emit`: a piece of a section body, and where it lies in the bodies laid end
      to end. */
  datatype Call = Call(heading: Option<Line>, piece: Lines, lo: nat, hi: nat)

  function HeadingLines(heading: Option<Line>): Lines {
    if heading.Some? then [heading.value, Blank] else []
  }

  function CallText(c: Call): Lines {
    HeadingLines(c.heading) + c.piece
  }

  function EmitAll(tokens: Lines -> nat, calls: seq<Call>): EmitState {
    if calls == [] then EmitState([], 0, None)
    else
      var c := calls[|calls| - 1];
      Emit(tokens, EmitAll(tokens, calls[..|calls| - 1]), CallText(c), c.heading)
  }

  /** A short legal section is emitted whole, everything else goes through the splitter. */
  function CutsFor(cfg: Config, legal: bool, sec: Section): seq<Cut> {
    if legal && cfg.tokens(HeadingLines(sec.heading) + sec.body) <= cfg.maxTokens then [Cut(0, |sec.body|)]
    else cfg.splitter(sec.body)
  }

  ghost predicate InBounds(body: Lines, cuts: seq<Cut>) {
    forall i :: 0 <= i < |cuts| ==> cuts[i].lo <= cuts[i].hi <= |body|
  }

  ghost function Label(sec: Section, cuts: seq<Cut>, offset: nat): (calls: seq<Call>)
    requires InBounds(sec.body, cuts)
    ensures |calls| == |cuts|
    ensures forall i :: 0 <= i < |cuts| ==>
              calls[i] == Call(sec.heading, sec.body[cuts[i].lo..cuts[i].hi], offset + cuts[i].lo, offset + cuts[i].hi)
  {
    if cuts == [] then []
    else
      var c := cuts[|cuts| - 1];
      Label(sec, cuts[..|cuts| - 1], offset) +
      [Call(sec.heading, sec.body[c.lo..c.hi], offset + c.lo, offset + c.hi)]
  }

  /** The section bodies laid end to end. */
  ghost function Flat(secs: seq<Section>): Lines {
    if secs == [] then [] else Flat(secs[..|secs| - 1]) + secs[|secs| - 1].body
  }

  ghost function CallsFor(cfg: Config, legal: bool, secs: seq<Section>): seq<Call>
    requires GoodSplitter(cfg.splitter)
  {
    if secs == [] then []
    else
      var front, sec := secs[..|secs| - 1], secs[|secs| - 1];
      CutsForGood(cfg, legal, sec);
      CallsFor(cfg, legal, front) + Label(sec, CutsFor(cfg, legal, sec), |Flat(front)|)
  }

  lemma CutsForGood(cfg: Config, legal: bool, sec: Section)
    requires GoodSplitter(cfg.splitter)
    ensures GoodCuts(sec.body, CutsFor(cfg, legal, sec)) && InBounds(sec.body, CutsFor(cfg, legal, sec))
  {
    assert GoodCuts(sec.body, cfg.splitter(sec.body));
    var cuts := CutsFor(cfg, legal, sec);
    if cuts == [Cut(0, |sec.body|)] {
      assert cuts[0].lo == 0 && cuts[0].hi == |sec.body|;
    }
  }

  function SectionsOf(md: Lines): seq<Section> {
    if IsLegal(md) then Split(md) else [Section(None, md)]
  }

  ghost function Calls(cfg: Config, md: Lines): seq<Call>
    requires GoodSplitter(cfg.splitter)
  {
    CallsFor(cfg, IsLegal(md), SectionsOf(md))
  }

  ghost function Chunks(cfg: Config, md: Lines): seq<Chunk>
    requires GoodSplitter(cfg.splitter)
  {
    EmitAll(cfg.tokens, Calls(cfg, md)).chunks
  }

  // ---- the loops of the source ---------------------------------------------

  lemma EmitAllSnoc(tokens: Lines -> nat, calls: seq<Call>, c: Call)
    ensures EmitAll(tokens, calls + [c]) == Emit(tokens, EmitAll(tokens, calls), CallText(c), c.heading)
  {
    assert (calls + [c])[..|calls|] == calls;
  }

  lemma LabelSnoc(before: seq<Call>, sec: Section, cuts: seq<Cut>, k: nat, offset: nat)
    requires InBounds(sec.body, cuts) && k < |cuts|
    ensures before + Label(sec, cuts[..k + 1], offset) ==
            before + Label(sec, cuts[..k], offset) +
            [Call(sec.heading, sec.body[cuts[k].lo..cuts[k].hi], offset + cuts[k].lo, offset + cuts[k].hi)]
  {
    assert cuts[..k + 1][..k] == cuts[..k];
  }

  method EmitSection(cfg: Config, sec: Section, cuts: seq<Cut>, e: Emitter,
                     ghost before: seq<Call>, ghost offset: nat)
    requires InBounds(sec.body, cuts)
    requires e.State() == EmitAll(cfg.tokens, before)
    modifies e
    ensures e.State() == EmitAll(cfg.tokens, before + Label(sec, cuts, offset))
  {
    hide EmitAll, Label, Emit;
    assert before + Label(sec, cuts[..0], offset) == before;
    for k := 0 to |cuts|
      invariant e.State() == EmitAll(cfg.tokens, before + Label(sec, cuts[..k], offset))
    {
      var piece := sec.body[cuts[k].lo..cuts[k].hi];
      ghost var call := Call(sec.heading, piece, offset + cuts[k].lo, offset + cuts[k].hi);
      LabelSnoc(before, sec, cuts, k, offset);
      EmitAllSnoc(cfg.tokens, before + Label(sec, cuts[..k], offset), call);
      e.Add(cfg.tokens, HeadingLines(sec.heading) + piece, sec.heading);
    }
    assert cuts[..|cuts|] == cuts;
  }

  lemma CallsForSnoc(cfg: Config, legal: bool, secs: seq<Section>, i: nat)
    requires GoodSplitter(cfg.splitter) && i < |secs|
    ensures InBounds(secs[i].body, CutsFor(cfg, legal, secs[i]))
    ensures CallsFor(cfg, legal, secs[..i + 1]) ==
            CallsFor(cfg, legal, secs[..i]) + Label(secs[i], CutsFor(cfg, legal, secs[i]), |Flat(secs[..i])|)
  {
    CutsForGood(cfg, legal, secs[i]);
    assert secs[..i + 1][..i] == secs[..i];
  }

  method PlanSections(md: Lines) returns (legal: bool, secs: seq<Section>)
    ensures legal == IsLegal(md) && secs == SectionsOf(md)
    ensures legal <==>
              && (exists i, j, k :: 0 <= i < j < k < |md| && md[i].Dieu? && md[j].Dieu? && md[k].Dieu?)
              && (exists p :: 0 <= p < |md| && md[p].Chuong?)
    ensures secs == if legal then Split(md) else [Section(None, md)]
  {
    LegalIff(md);
    var dieus := DieuMatches(md);
    var chuongs := ChuongPositions(md);
    legal := |dieus| >= 3 && chuongs != [];
    assert chuongs != [] ==> md[chuongs[0].pos].Chuong?;
    secs := [Section(None, md)];
    if legal {
      secs := SplitByDieu(md);
    }
  }

  method ChunkDocument(cfg: Config, md: Lines) returns (chunks: seq<Chunk>)
    requires GoodSplitter(cfg.splitter)
    ensures chunks == Chunks(cfg, md)
    ensures Numbered(chunks)
  {
    var legal, secs := PlanSections(md);
    var e := new Emitter();
    for i := 0 to |secs|
      invariant e.State() == EmitAll(cfg.tokens, CallsFor(cfg, legal, secs[..i]))
    {
      CallsForSnoc(cfg, legal, secs, i);
      EmitSection(cfg, secs[i], CutsFor(cfg, legal, secs[i]), e,
                  CallsFor(cfg, legal, secs[..i]), |Flat(secs[..i])|);
    }
    assert secs[..|secs|] == secs;
    chunks := e.chunks;
    EmittedInOrder(cfg.tokens, Calls(cfg, md));
  }

  // ---- chunk numbers -------------------------------------------------------

  /** Chunk indices are exactly 0..n-1 and no chunk is empty. */
  predicate Numbered(chunks: seq<Chunk>) {
    forall i :: 0 <= i < |chunks| ==> chunks[i].index == i && chunks[i].text != []
  }

  /** The call that produced each chunk. */
  ghost function Sources(calls: seq<Call>): (src: seq<nat>)
    ensures forall i :: 0 <= i < |src| ==> src[i] < |calls|
  {
    if calls == [] then []
    else
      var rest := Sources(calls[..|calls| - 1]);
      if StripMarkers(CallText(calls[|calls| - 1])) == [] then rest else rest + [|calls| - 1]
  }

  lemma SourcesSnoc(front: seq<Call>, c: Call)
    ensures Sources(front + [c]) ==
            if StripMarkers(CallText(c)) == [] then Sources(front) else Sources(front) + [|front|]
  {
    assert (front + [c])[..|front|] == front;
  }

  lemma EmitAppends(tokens: Lines -> nat, st: EmitState, text: Lines, heading: Option<Line>)
    ensures var r, body := Emit(tokens, st, text, heading), StripMarkers(text);
            && (body == [] ==> r.chunks == st.chunks && r.idx == st.idx)
            && (body != [] ==>
                  && r.idx == st.idx + 1 && |r.chunks| == |st.chunks| + 1 && st.chunks <= r.chunks
                  && var c := r.chunks[|st.chunks|];
                     c.index == st.idx && c.text == body && c.nTokens == tokens(body) && c.heading == heading)
  {
  }

  /** The chunk carries the text of the call with its markers stripped, and the call's heading. */
  ghost predicate FromCall(tokens: Lines -> nat, c: Chunk, call: Call) {
    && c.text == StripMarkers(CallText(call)) && c.text != []
    && c.nTokens == tokens(c.text)
    && c.heading == call.heading
  }

  lemma {:induction false} EmittedInOrder(tokens: Lines -> nat, calls: seq<Call>)
    ensures var st, src := EmitAll(tokens, calls), Sources(calls);
            && st.idx == |st.chunks| == |src|
            && Numbered(st.chunks)
            && (forall i, j :: 0 <= i < j < |src| ==> src[i] < src[j])
            && (forall i :: 0 <= i < |src| ==> FromCall(tokens, st.chunks[i], calls[src[i]]))
  {
    if calls != [] {
      var front, c := calls[..|calls| - 1], calls[|calls| - 1];
      EmittedInOrder(tokens, front);
      EmitAppends(tokens, EmitAll(tokens, front), CallText(c), c.heading);
      assert EmitAll(tokens, calls) == Emit(tokens, EmitAll(tokens, front), CallText(c), c.heading);
    }
  }

  /** Every call whose text is more than markers and blank lines has its chunk. */
  lemma {:induction false} EveryTextIsEmitted(calls: seq<Call>, k: nat)
    requires k < |calls| && StripMarkers(CallText(calls[k])) != []
    ensures exists i :: 0 <= i < |Sources(calls)| && Sources(calls)[i] == k
  {
    hide Sources, StripMarkers, CallText;
    var front, c := calls[..|calls| - 1], calls[|calls| - 1];
    assert calls == front + [c];
    SourcesSnoc(front, c);
    if k < |front| {
      EveryTextIsEmitted(front, k);
      var i :| 0 <= i < |Sources(front)| && Sources(front)[i] == k;
      assert Sources(calls)[i] == k;
    } else {
      assert Sources(calls)[|Sources(front)|] == k;
    }
  }
}
