/**
 Markdown as the chunker sees it: a sequence of lines, each already matched against the
 patterns of src/ingestion/chunkers/base.py:51-53. A `Path` line is the heading path that the
 chunker writes in front of a chunk; parsers never produce one.
 */
module Text {
  import opened Prelude

  datatype Line =
    | Page(n: nat)
    | Chuong(title: string)
    | Dieu(title: string)
    | Text(body: string)
    | Blank
    | Path(chuong: string, dieu: string)

  type Lines = seq<Line>

  // ---- blank lines ---------------------------------------------------------

  function NonBlank(lines: Lines): Lines {
    if lines == [] then []
    else NonBlank(lines[..|lines| - 1]) +
         if lines[|lines| - 1] == Blank then [] else [lines[|lines| - 1]]
  }

  function TrimStart(lines: Lines): Lines {
    if lines != [] && lines[0] == Blank then TrimStart(lines[1..]) else lines
  }

  function TrimEnd(lines: Lines): Lines {
    if lines != [] && lines[|lines| - 1] == Blank then TrimEnd(lines[..|lines| - 1])
    else lines
  }

  /** `str.strip()`: no blank line at either end. */
  function Trim(lines: Lines): Lines {
    TrimEnd(TrimStart(lines))
  }

  lemma {:induction false} NonBlankConcat(a: Lines, b: Lines)
    ensures NonBlank(a + b) == NonBlank(a) + NonBlank(b)
  {
    if b == [] {
      assert a + b == a;
    } else {
      assert (a + b)[..|a + b| - 1] == a + b[..|b| - 1];
      NonBlankConcat(a, b[..|b| - 1]);
    }
  }

  lemma {:induction false} TrimStartKeeps(lines: Lines)
    ensures NonBlank(TrimStart(lines)) == NonBlank(lines)
  {
    if lines != [] && lines[0] == Blank {
      TrimStartKeeps(lines[1..]);
      assert lines == [Blank] + lines[1..];
      NonBlankConcat([Blank], lines[1..]);
    }
  }

  lemma {:induction false} TrimEndKeeps(lines: Lines)
    ensures NonBlank(TrimEnd(lines)) == NonBlank(lines)
  {
    if lines != [] && lines[|lines| - 1] == Blank {
      TrimEndKeeps(lines[..|lines| - 1]);
    }
  }

  lemma TrimKeeps(lines: Lines)
    ensures NonBlank(Trim(lines)) == NonBlank(lines)
  {
    TrimStartKeeps(lines);
    TrimEndKeeps(TrimStart(lines));
  }

  lemma {:induction false} NonBlankMembers(lines: Lines)
    ensures forall l :: l in NonBlank(lines) <==> l in lines && l != Blank
  {
    if lines != [] {
      NonBlankMembers(lines[..|lines| - 1]);
      assert lines == lines[..|lines| - 1] + [lines[|lines| - 1]];
    }
  }

  lemma {:induction false} TrimEnds(lines: Lines)
    ensures TrimEnd(lines) <= lines
    ensures TrimEnd(lines) != [] ==> TrimEnd(lines)[|TrimEnd(lines)| - 1] != Blank
  {
    if lines != [] && lines[|lines| - 1] == Blank {
      TrimEnds(lines[..|lines| - 1]);
    }
  }

  lemma {:induction false} TrimStarts(lines: Lines)
    ensures TrimStart(lines) != [] ==> TrimStart(lines)[0] != Blank
  {
    if lines != [] && lines[0] == Blank {
      TrimStarts(lines[1..]);
    }
  }

  /** A stripped text begins and ends with a line that is not blank, and holds the same lines. */
  lemma Trimmed(lines: Lines)
    ensures Trim(lines) != [] ==> Trim(lines)[0] != Blank && Trim(lines)[|Trim(lines)| - 1] != Blank
    ensures forall l :: l != Blank ==> (l in Trim(lines) <==> l in lines)
  {
    TrimStarts(lines);
    TrimEnds(TrimStart(lines));
    TrimKeeps(lines);
    NonBlankMembers(lines);
    NonBlankMembers(Trim(lines));
    forall l | l != Blank ensures l in Trim(lines) <==> l in lines {
      assert l in NonBlank(lines) <==> l in lines;
      assert l in NonBlank(Trim(lines)) <==> l in Trim(lines);
    }
  }

  // ---- page markers --------------------------------------------------------

  function Markers(lines: Lines): seq<nat> {
    if lines == [] then []
    else Markers(lines[..|lines| - 1]) +
         if lines[|lines| - 1].Page? then [lines[|lines| - 1].n] else []
  }

  /** The page in force after `lines`: their last marker, if there is one. */
  function LastMarker(lines: Lines): Option<nat> {
    if lines == [] then None
    else if lines[|lines| - 1].Page? then Some(lines[|lines| - 1].n)
    else LastMarker(lines[..|lines| - 1])
  }

  ghost predicate Ascending(ms: seq<nat>) {
    forall i, j :: 0 <= i < j < |ms| ==> ms[i] <= ms[j]
  }

  lemma {:induction false} MarkersConcat(a: Lines, b: Lines)
    ensures Markers(a + b) == Markers(a) + Markers(b)
  {
    if b == [] {
      assert a + b == a;
    } else {
      assert (a + b)[..|a + b| - 1] == a + b[..|b| - 1];
      MarkersConcat(a, b[..|b| - 1]);
    }
  }

  lemma {:induction false} LastMarkerIsLast(lines: Lines)
    ensures LastMarker(lines) ==
            if Markers(lines) == [] then None else Some(Markers(lines)[|Markers(lines)| - 1])
  {
    if lines != [] {
      LastMarkerIsLast(lines[..|lines| - 1]);
    }
  }

  lemma LastMarkerConcat(a: Lines, b: Lines)
    ensures LastMarker(a + b) == if LastMarker(b).Some? then LastMarker(b) else LastMarker(a)
  {
    MarkersConcat(a, b);
    LastMarkerIsLast(a);
    LastMarkerIsLast(b);
    LastMarkerIsLast(a + b);
  }

  lemma {:induction false} NoMarkers(lines: Lines)
    ensures Markers(lines) == [] <==> forall l :: l in lines ==> !l.Page?
  {
    if lines != [] {
      NoMarkers(lines[..|lines| - 1]);
      assert lines == lines[..|lines| - 1] + [lines[|lines| - 1]];
    }
  }

  lemma {:induction false} MarkersOfNonBlank(lines: Lines)
    ensures Markers(NonBlank(lines)) == Markers(lines)
  {
    if lines != [] {
      MarkersOfNonBlank(lines[..|lines| - 1]);
      MarkersConcat(NonBlank(lines[..|lines| - 1]),
                    if lines[|lines| - 1] == Blank then [] else [lines[|lines| - 1]]);
    }
  }

  /** Replace every marker line by a blank one, then strip. */
  function Unmarked(lines: Lines): Lines {
    if lines == [] then []
    else Unmarked(lines[..|lines| - 1]) +
         [if lines[|lines| - 1].Page? then Blank else lines[|lines| - 1]]
  }

  lemma {:induction false} UnmarkedMembers(lines: Lines)
    ensures forall l :: l != Blank ==> (l in Unmarked(lines) <==> l in lines && !l.Page?)
  {
    if lines != [] {
      UnmarkedMembers(lines[..|lines| - 1]);
      assert lines == lines[..|lines| - 1] + [lines[|lines| - 1]];
    }
  }

  function StripMarkers(lines: Lines): Lines {
    Trim(Unmarked(lines))
  }

  /** Stripping the markers keeps every other line that is not blank. */
  lemma StripMarkersMembers(lines: Lines)
    ensures forall l :: l != Blank ==> (l in StripMarkers(lines) <==> l in lines && !l.Page?)
    ensures StripMarkers(lines) == [] <==> forall l :: l in lines ==> l == Blank || l.Page?
  {
    Trimmed(Unmarked(lines));
    UnmarkedMembers(lines);
    if StripMarkers(lines) != [] {
      var l := StripMarkers(lines)[0];
      assert l in StripMarkers(lines);
      assert l in lines && !l.Page?;
    }
  }

  /** `_page_range_for`: the least and greatest marker of a text. */
  function PageRange(lines: Lines): (Option<nat>, Option<nat>) {
    if lines == [] then (None, None)
    else
      var (lo, hi) := PageRange(lines[..|lines| - 1]);
      var l := lines[|lines| - 1];
      if !l.Page? then (lo, hi)
      else if lo.None? || hi.None? then (Some(l.n), Some(l.n))
      else (Some(if l.n < lo.value then l.n else lo.value), Some(if l.n > hi.value then l.n else hi.value))
  }

  lemma MarkerSnoc(lines: Lines)
    requires lines != []
    ensures forall m :: m in Markers(lines) <==>
              m in Markers(lines[..|lines| - 1]) || lines[|lines| - 1] == Page(m)
  {
    var l := lines[|lines| - 1];
    assert Markers(lines) == Markers(lines[..|lines| - 1]) + if l.Page? then [l.n] else [];
  }

  /** The page range of any text: its least and its greatest marker, or nothing without markers. */
  lemma {:induction false} PageRangeIsExtremes(lines: Lines)
    ensures Markers(lines) == [] ==> PageRange(lines) == (None, None)
    ensures Markers(lines) != [] ==>
              var (lo, hi) := PageRange(lines);
              && lo.Some? && lo.value in Markers(lines)
              && hi.Some? && hi.value in Markers(lines)
              && forall m :: m in Markers(lines) ==> lo.value <= m <= hi.value
  {
    if lines != [] {
      PageRangeIsExtremes(lines[..|lines| - 1]);
      MarkerSnoc(lines);
    }
  }

  lemma AscendingExtremes(ms: seq<nat>, lo: nat, hi: nat)
    requires Ascending(ms) && lo in ms && hi in ms && forall m :: m in ms ==> lo <= m <= hi
    ensures lo == ms[0] && hi == ms[|ms| - 1]
  {
    assert ms[0] in ms && ms[|ms| - 1] in ms;
  }

  /** In a text whose markers ascend, the page range is the first and the last of them. */
  lemma PageRangeAscending(lines: Lines)
    requires Ascending(Markers(lines))
    ensures PageRange(lines).1 == LastMarker(lines)
    ensures PageRange(lines).0 == if Markers(lines) == [] then None else Some(Markers(lines)[0])
  {
    hide Markers, PageRange, LastMarker, Ascending;
    PageRangeIsExtremes(lines);
    LastMarkerIsLast(lines);
    if Markers(lines) != [] {
      AscendingExtremes(Markers(lines), PageRange(lines).0.value, PageRange(lines).1.value);
    }
  }
}
