/**
 `parse_pdf` (src/ingestion/parsers/pdf.py:20-42): the page loop, and the page markers it
 establishes for the chunker. The text of each page is the input.
 */
module PdfParser {
  import opened Prelude
  import opened Text

  datatype ParsedPage = ParsedPage(number: nat, text: Lines)

  /** `"\n\n".join(parts)`. */
  function Join(parts: seq<Lines>): Lines {
    if parts == [] then []
    else if |parts| == 1 then parts[0]
    else Join(parts[..|parts| - 1]) + [Blank] + parts[|parts| - 1]
  }

  function Part(number: nat, text: Lines): Lines {
    [Page(number), Blank] + text
  }

  method ParsePdf(texts: seq<Lines>) returns (pages: seq<ParsedPage>, markdown: Lines)
    ensures |pages| == |texts|
    ensures forall i :: 0 <= i < |pages| ==> pages[i] == ParsedPage(i + 1, Trim(texts[i]))
    ensures NonBlank(markdown) == PageLines(texts)
    ensures NoPageLines(texts) ==> StrictlyAscending(Markers(markdown)) && WellAttributed(texts, markdown)
    ensures NoPageLines(texts) ==> forall m :: m in Markers(markdown) ==> HasText(texts, m)
    ensures forall i, l :: 0 <= i < |texts| && l in texts[i] && l != Blank ==> l in markdown
  {
    pages := [];
    var parts: seq<Lines> := [];
    for i := 0 to |texts|
      invariant |pages| == i
      invariant forall j :: 0 <= j < i ==> pages[j] == ParsedPage(j + 1, Trim(texts[j]))
      invariant parts == Parts(texts[..i])
    {
      var text := Trim(texts[i]);
      pages := pages + [ParsedPage(i + 1, text)];
      if text != [] {
        parts := parts + [Part(i + 1, text)];
      }
      assert texts[..i + 1][..i] == texts[..i];
    }
    assert texts[..|texts|] == texts;
    markdown := Join(parts);
    MarkdownLines(texts);
    if NoPageLines(texts) {
      MarkersNumberPages(texts);
      Attribution(texts);
    }
    forall i, l | 0 <= i < |texts| && l in texts[i] && l != Blank ensures l in markdown {
      EveryLineKept(texts, i, l);
    }
  }

  // ---- specification -------------------------------------------------------

  /** The non-empty pages, each behind its marker. */
  function Parts(texts: seq<Lines>): (parts: seq<Lines>)
    ensures |parts| <= |texts|
  {
    if texts == [] then []
    else
      var n := |texts|;
      var text := Trim(texts[n - 1]);
      Parts(texts[..n - 1]) + if text == [] then [] else [Part(n, text)]
  }

  /** The lines of all pages, blank ones aside, each page with text behind its marker. */
  ghost function PageLines(texts: seq<Lines>): Lines {
    if texts == [] then []
    else
      var own := NonBlank(texts[|texts| - 1]);
      PageLines(texts[..|texts| - 1]) + if own == [] then [] else [Page(|texts|)] + own
  }

  lemma NonBlankPart(n: nat, text: Lines, gap: Lines)
    requires gap == [] || gap == [Blank]
    ensures NonBlank(gap + Part(n, text)) == [Page(n)] + NonBlank(text)
  {
    NonBlankConcat(gap, Part(n, text));
    NonBlankConcat([Page(n), Blank], text);
    NonBlankConcat([Page(n)], [Blank]);
    assert [Page(n), Blank] == [Page(n)] + [Blank];
    assert NonBlank([Page(n)]) == [Page(n)] && NonBlank([Blank]) == [];
    assert [] + NonBlank(Part(n, text)) == NonBlank(Part(n, text));
  }

  lemma EmptyWhenTrimmed(text: Lines)
    ensures Trim(text) == [] <==> NonBlank(text) == []
  {
    TrimKeeps(text);
    Trimmed(text);
    NonBlankMembers(Trim(text));
    if Trim(text) != [] {
      assert Trim(text)[0] in NonBlank(Trim(text));
    }
  }

  lemma NonBlankWithPart(before: Lines, gap: Lines, n: nat, text: Lines)
    requires gap == [] || gap == [Blank]
    ensures NonBlank(before + gap + Part(n, text)) == NonBlank(before) + ([Page(n)] + NonBlank(text))
  {
    NonBlankPart(n, text, gap);
    hide NonBlank, Part;
    NonBlankConcat(before, gap + Part(n, text));
    assert before + gap + Part(n, text) == before + (gap + Part(n, text));
  }

  lemma PageLinesStep(texts: seq<Lines>)
    requires texts != []
    ensures var n := |texts|;
            PageLines(texts) == PageLines(texts[..n - 1]) +
                                if NonBlank(texts[n - 1]) == [] then [] else [Page(n)] + NonBlank(texts[n - 1])
  {
  }

  /** The markdown is the pages one behind the other, each page with text behind its marker. */
  lemma {:induction false} MarkdownLines(texts: seq<Lines>)
    ensures NonBlank(Join(Parts(texts))) == PageLines(texts)
  {
    if texts != [] {
      var n := |texts|;
      var front, text := texts[..n - 1], texts[n - 1];
      assert Gap(Parts(front)) == [] || Gap(Parts(front)) == [Blank];
      hide *;
      MarkdownLines(front);
      OneMorePage(texts);
      PageLinesStep(texts);
      EmptyWhenTrimmed(text);
      TrimKeeps(text);
      if Trim(text) != [] {
        NonBlankWithPart(Join(Parts(front)), Gap(Parts(front)), n, Trim(text));
      } else {
        assert PageLines(front) + [] == PageLines(front);
      }
    } else {
      NoPagesAtAll();
    }
  }

  lemma NoPagesAtAll()
    ensures NonBlank(Join(Parts([]))) == PageLines([])
  {
  }

  predicate NoPages(lines: Lines) {
    forall l :: l in lines ==> !l.Page?
  }

  predicate NoPageLines(texts: seq<Lines>) {
    forall i :: 0 <= i < |texts| ==> NoPages(texts[i])
  }

  ghost predicate StrictlyAscending(ms: seq<nat>) {
    forall i, j :: 0 <= i < j < |ms| ==> ms[i] < ms[j]
  }

  /** Every line of text lies behind the marker of a page that holds it, with no other marker between. */
  ghost predicate WellAttributed(texts: seq<Lines>, md: Lines) {
    forall p :: 0 <= p < |md| && md[p] != Blank && !md[p].Page? ==> Attributed(texts, md[p], LastMarker(md[..p]))
  }

  ghost predicate Attributed(texts: seq<Lines>, l: Line, page: Option<nat>) {
    page.Some? && 1 <= page.value <= |texts| && l in texts[page.value - 1]
  }

  lemma JoinSnoc(parts: seq<Lines>, part: Lines)
    ensures Join(parts + [part]) == Join(parts) + Gap(parts) + part
  {
    assert (parts + [part])[..|parts|] == parts;
  }

  /** The separator in front of the next part. */
  function Gap(parts: seq<Lines>): Lines {
    if parts == [] then [] else [Blank]
  }

  /** One more page appends its marker and its text, or nothing when it is empty. */
  lemma OneMorePage(texts: seq<Lines>)
    requires texts != []
    ensures Trim(texts[|texts| - 1]) == [] ==> Join(Parts(texts)) == Join(Parts(texts[..|texts| - 1]))
    ensures Trim(texts[|texts| - 1]) != [] ==>
              Join(Parts(texts)) == Join(Parts(texts[..|texts| - 1])) + Gap(Parts(texts[..|texts| - 1])) +
                                    Part(|texts|, Trim(texts[|texts| - 1]))
  {
    var n := |texts|;
    var front, text := Parts(texts[..n - 1]), Trim(texts[n - 1]);
    if text == [] {
      assert Parts(texts) == front + [];
      assert front + [] == front;
    } else {
      assert Parts(texts) == front + [Part(n, text)];
      JoinSnoc(front, Part(n, text));
    }
  }

  lemma PartMarkers(n: nat, text: Lines)
    requires forall l :: l in text ==> !l.Page?
    ensures Markers(Part(n, text)) == [n]
  {
    NoMarkers(text);
    MarkersConcat([Page(n), Blank], text);
    MarkersConcat([Page(n)], [Blank]);
    assert [Page(n), Blank] == [Page(n)] + [Blank];
    NoMarkers([Blank]);
    assert [Page(n)][..0] == [];
  }

  lemma TrimmedNoPages(texts: seq<Lines>, i: nat)
    requires NoPageLines(texts) && i < |texts|
    ensures forall l :: l in Trim(texts[i]) ==> !l.Page?
  {
    Trimmed(texts[i]);
  }

  lemma PrefixNoPages(texts: seq<Lines>)
    requires NoPageLines(texts) && texts != []
    ensures NoPageLines(texts[..|texts| - 1])
  {
  }

  lemma MarkersWithPart(before: Lines, gap: Lines, n: nat, text: Lines)
    requires gap == [] || gap == [Blank]
    requires forall l :: l in text ==> !l.Page?
    ensures Markers(before + gap + Part(n, text)) == Markers(before) + [n]
  {
    PartMarkers(n, text);
    NoMarkers(gap);
    MarkersConcat(before + gap, Part(n, text));
    MarkersConcat(before, gap);
  }

  lemma AscendingSnoc(ms: seq<nat>, n: nat)
    requires StrictlyAscending(ms) && forall m :: m in ms ==> m < n
    ensures StrictlyAscending(ms + [n])
  {
    forall i | 0 <= i < |ms| ensures ms[i] < n {
      assert ms[i] in ms;
    }
  }

  /** Page `m` exists and has text. */
  predicate HasText(texts: seq<Lines>, m: nat) {
    1 <= m <= |texts| && Trim(texts[m - 1]) != []
  }

  lemma StillHasText(texts: seq<Lines>, ms: seq<nat>)
    requires texts != [] && forall m :: m in ms ==> HasText(texts[..|texts| - 1], m)
    ensures forall m :: m in ms ==> HasText(texts, m) && m < |texts|
  {
  }

  lemma LastHasText(texts: seq<Lines>)
    requires texts != [] && Trim(texts[|texts| - 1]) != []
    ensures HasText(texts, |texts|)
  {
  }

  /** The markers of the markdown are distinct numbers of pages with text, in ascending order. */
  lemma {:induction false} MarkersNumberPages(texts: seq<Lines>)
    requires NoPageLines(texts)
    ensures StrictlyAscending(Markers(Join(Parts(texts))))
    ensures forall m :: m in Markers(Join(Parts(texts))) ==> HasText(texts, m)
  {
    if texts != [] {
      hide Markers, Join, Parts, Trim, Part, HasText;
      var n := |texts|;
      PrefixNoPages(texts);
      MarkersNumberPages(texts[..n - 1]);
      OneMorePage(texts);
      var before, text := Join(Parts(texts[..n - 1])), Trim(texts[n - 1]);
      StillHasText(texts, Markers(before));
      if text != [] {
        LastHasText(texts);
        TrimmedNoPages(texts, n - 1);
        MarkersWithPart(before, Gap(Parts(texts[..n - 1])), n, text);
        AscendingSnoc(Markers(before), n);
      }
    }
  }

  lemma {:induction false} Attribution(texts: seq<Lines>)
    requires NoPageLines(texts)
    ensures WellAttributed(texts, Join(Parts(texts)))
  {
    if texts != [] {
      var n := |texts|;
      PrefixNoPages(texts);
      Attribution(texts[..n - 1]);
      OneMorePage(texts);
      var before, text := Join(Parts(texts[..n - 1])), Trim(texts[n - 1]);
      var gap := Gap(Parts(texts[..n - 1]));
      MorePagesAttributed(texts, before);
      if text != [] {
        TrimmedNoPages(texts, n - 1);
        BlankAttributed(texts, before, gap);
        AttributionOfPart(texts, before + gap, text);
      }
    }
  }

  lemma MorePagesAttributed(texts: seq<Lines>, md: Lines)
    requires texts != [] && WellAttributed(texts[..|texts| - 1], md)
    ensures WellAttributed(texts, md)
  {
    forall p | 0 <= p < |md| && md[p] != Blank && !md[p].Page? ensures Attributed(texts, md[p], LastMarker(md[..p])) {
      assert Attributed(texts[..|texts| - 1], md[p], LastMarker(md[..p]));
    }
  }

  lemma BlankAttributed(texts: seq<Lines>, before: Lines, gap: Lines)
    requires WellAttributed(texts, before) && (gap == [] || gap == [Blank])
    ensures WellAttributed(texts, before + gap)
  {
    var md := before + gap;
    forall p | 0 <= p < |md| && md[p] != Blank && !md[p].Page? ensures Attributed(texts, md[p], LastMarker(md[..p])) {
      assert md[..p] == before[..p];
    }
  }

  lemma AttributionOfPart(texts: seq<Lines>, before: Lines, text: Lines)
    requires texts != [] && text == Trim(texts[|texts| - 1])
    requires forall l :: l in text ==> !l.Page?
    ensures forall p :: |before| <= p < |before + Part(|texts|, text)| &&
                        (before + Part(|texts|, text))[p] != Blank && !(before + Part(|texts|, text))[p].Page? ==>
              Attributed(texts, (before + Part(|texts|, text))[p], LastMarker((before + Part(|texts|, text))[..p]))
    ensures WellAttributed(texts, before) ==> WellAttributed(texts, before + Part(|texts|, text))
  {
    var n := |texts|;
    var md := before + Part(n, text);
    forall p | |before| <= p < |md| && md[p] != Blank && !md[p].Page?
      ensures Attributed(texts, md[p], LastMarker(md[..p]))
    {
      var q := p - |before| - 2;
      assert text[q] == md[p] && text[q] in text;
      assert md[..p] == before + Part(n, text[..q]);
      LastMarkerConcat(before, Part(n, text[..q]));
      PartMarkers(n, text[..q]);
      LastMarkerIsLast(Part(n, text[..q]));
      Trimmed(texts[n - 1]);
    }
    forall p | 0 <= p < |before| ensures md[..p] == before[..p] && md[p] == before[p] {
    }
  }

  lemma {:induction false} EveryLineKept(texts: seq<Lines>, i: nat, l: Line)
    requires i < |texts| && l in texts[i] && l != Blank
    ensures l in Join(Parts(texts))
  {
    var n := |texts|;
    OneMorePage(texts);
    if i < n - 1 {
      EveryLineKept(texts[..n - 1], i, l);
    } else {
      Trimmed(texts[i]);
      assert l in Part(n, Trim(texts[i]));
    }
  }

  // ---- pages whose text looks like a marker --------------------------------

  /** The numbers of the pages that have text. */
  function PageNumbers(texts: seq<Lines>): seq<nat> {
    if texts == [] then []
    else PageNumbers(texts[..|texts| - 1]) + if Trim(texts[|texts| - 1]) == [] then [] else [|texts|]
  }

  lemma MarkersOfPart(before: Lines, gap: Lines, n: nat, text: Lines)
    requires gap == [] || gap == [Blank]
    ensures Markers(before + gap + Part(n, text)) == Markers(before) + ([n] + Markers(text))
  {
    hide Markers;
    NoMarkers(gap);
    MarkersConcat(before, gap);
    MarkersConcat(before + gap, Part(n, text));
    MarkersConcat([Page(n), Blank], text);
    PartMarkers(n, []);
    assert Part(n, []) == [Page(n), Blank];
    assert Markers(before) + [] == Markers(before);
  }

  lemma TrimmedMarkers(text: Lines)
    ensures NoPages(text) <==> Markers(Trim(text)) == []
  {
    TrimKeeps(text);
    MarkersOfNonBlank(text);
    MarkersOfNonBlank(Trim(text));
    NoMarkers(text);
  }

  lemma NoPageLinesSnoc(texts: seq<Lines>)
    requires texts != []
    ensures NoPageLines(texts) <==> NoPageLines(texts[..|texts| - 1]) && NoPages(texts[|texts| - 1])
  {
    var front := texts[..|texts| - 1];
    assert texts == front + [texts[|texts| - 1]];
    assert forall i :: 0 <= i < |front| ==> front[i] == texts[i];
  }

  lemma MarkersOfMorePages(texts: seq<Lines>)
    requires texts != []
    ensures var n, text := |texts|, Trim(texts[|texts| - 1]);
            var before, ms := Markers(Join(Parts(texts[..n - 1]))), Markers(Join(Parts(texts)));
            && (NoPages(texts[n - 1]) <==> Markers(text) == [])
            && (text == [] ==> ms == before && NoPages(texts[n - 1]))
            && (text != [] ==> ms == before + ([n] + Markers(text)))
  {
    var n, text := |texts|, Trim(texts[|texts| - 1]);
    hide Markers, Join, Parts, Trim, Part;
    OneMorePage(texts);
    TrimmedMarkers(texts[n - 1]);
    NoMarkers([]);
    MarkersOfPart(Join(Parts(texts[..n - 1])), Gap(Parts(texts[..n - 1])), n, text);
  }

  lemma {:induction false} MarkersCounted(texts: seq<Lines>)
    ensures var ms, ns := Markers(Join(Parts(texts))), PageNumbers(texts);
            && |ns| <= |ms| && (NoPageLines(texts) ==> ms == ns) && (!NoPageLines(texts) ==> |ns| < |ms|)
  {
    if texts != [] {
      hide Markers, Join, Parts, Trim, Part, NoPageLines, NoPages;
      MarkersCounted(texts[..|texts| - 1]);
      NoPageLinesSnoc(texts);
      MarkersOfMorePages(texts);
    }
  }

  /** The markers of the markdown are exactly the numbers of the pages with text, in order, if and only if
      no page has a line of text that reads like a marker. */
  lemma MarkersAreExactIff(texts: seq<Lines>)
    ensures Markers(Join(Parts(texts))) == PageNumbers(texts) <==> NoPageLines(texts)
  {
    MarkersCounted(texts);
  }
}
