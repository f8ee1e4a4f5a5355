/**
 Where the lines of the section bodies stand in the document, and so which pages a chunk is
 attributed to in terms of the document itself (src/ingestion/chunkers/base.py:62-180).
 */
module ChunkPlaces {
  import opened Prelude
  import opened Text
  import opened Sections
  import opened Chunker
  import opened ChunkPages

  // ---- stripped texts are slices -------------------------------------------

  /** The number of blank lines at the start. */
  function Lead(lines: Lines): (n: nat)
    ensures n <= |lines|
  {
    if lines != [] && lines[0] == Blank then 1 + Lead(lines[1..]) else 0
  }

  lemma {:induction false} TrimStartIsSlice(lines: Lines)
    ensures TrimStart(lines) == lines[Lead(lines)..]
    ensures forall k :: 0 <= k < Lead(lines) ==> lines[k] == Blank
  {
    if lines != [] && lines[0] == Blank {
      TrimStartIsSlice(lines[1..]);
      assert lines[1..][Lead(lines[1..])..] == lines[Lead(lines)..];
      forall k | 0 < k < Lead(lines) ensures lines[k] == Blank {
        assert lines[k] == lines[1..][k - 1];
      }
    }
  }

  lemma TrimIsSlice(lines: Lines)
    ensures Lead(lines) + |Trim(lines)| <= |lines|
    ensures Trim(lines) == lines[Lead(lines)..Lead(lines) + |Trim(lines)|]
    ensures forall k :: 0 <= k < Lead(lines) ==> lines[k] == Blank
  {
    TrimStartIsSlice(lines);
    TrimEnds(TrimStart(lines));
    var n := |Trim(lines)|;
    assert Trim(lines) == lines[Lead(lines)..][..n];
    assert lines[Lead(lines)..][..n] == lines[Lead(lines)..Lead(lines) + n];
  }

  /** `n` positions from `lo` on. */
  function Up(lo: nat, n: nat): (ps: seq<nat>)
    ensures |ps| == n && forall k :: 0 <= k < n ==> ps[k] == lo + k
  {
    seq(n, k requires 0 <= k < n => lo + k)
  }

  // ---- one section ---------------------------------------------------------

  /** Where the body of section `i` begins to take lines from. */
  function StartAt(md: Lines, i: nat): (s: nat)
    requires i < |DieuAt(md)|
    ensures s <= DieuAt(md)[i]
  {
    if i == 0 then 0 else DieuAt(md)[i]
  }

  /** The place in the document of each line of a section body. The separator between preamble and
      body stands at the "Điều" line, which is also the place of the line that stands in for an empty
      body. */
  function BodyPlaces(md: Lines, i: nat): seq<nat>
    requires i < |DieuAt(md)|
  {
    var p, pre, raw := DieuAt(md)[i], Preamble(md), Raw(md, i);
    var full := FullBody(Trim(pre), raw, i == 0);
    if full == [] then [p]
    else if i == 0 && Trim(pre) != [] then PreamblePlaces(pre, p, |raw|, |full|)
    else Up(p + 1 + Lead(raw), |full|)
  }

  function PreamblePlaces(pre: Lines, p: nat, rest: nat, n: nat): (ps: seq<nat>)
  {
    var all := FirstPlaces(Lead(pre), |Trim(pre)|, p, rest);
    if n <= |all| then all[..n] else all
  }

  /** The preamble, the separator and the lines of the first section, and their places. */
  function FirstLines(pre: Lines, raw: Lines): (all: Lines)
    ensures |all| == |pre| + 1 + |raw|
  {
    pre + [Blank] + raw
  }

  function FirstPlaces(a: nat, n: nat, p: nat, rest: nat): (all: seq<nat>)
    ensures |all| == n + 1 + rest
    ensures forall k :: 0 <= k < |all| ==> all[k] == if k < n then a + k else p + (k - n)
  {
    Up(a, n) + [p] + Up(p + 1, rest)
  }

  /** Line `k` of `body` stands at `places[k]`, and up to there the document has the markers it has up to
      `lo` and those of the body so far. */
  ghost predicate At(md: Lines, body: Lines, places: seq<nat>, lo: nat, hi: nat, k: nat)
    requires k < |body| == |places| && lo <= hi <= |md|
  {
    && lo <= places[k] < hi
    && (body[k] != Blank ==> md[places[k]] == body[k])
    && Markers(md[..places[k] + 1]) == Markers(md[..lo]) + Markers(body[..k + 1])
  }

  ghost predicate Rising(places: seq<nat>) {
    forall j, k :: 0 <= j < k < |places| ==> places[j] < places[k]
  }

  ghost predicate WellPlaced(md: Lines, body: Lines, places: seq<nat>, lo: nat, hi: nat) {
    && |places| == |body| && lo <= hi <= |md| && Rising(places)
    && forall k :: 0 <= k < |body| ==> At(md, body, places, lo, hi, k)
  }

  lemma BlanksHaveNoMarkers(lines: Lines)
    requires forall k :: 0 <= k < |lines| ==> lines[k] == Blank || lines[k].Dieu?
    ensures Markers(lines) == []
  {
    NoMarkers(lines);
  }

  lemma MarkersSkip(md: Lines, lo: nat, a: nat, b: nat)
    requires lo <= a <= b <= |md| && Markers(md[lo..a]) == []
    ensures Markers(md[..b]) == Markers(md[..lo]) + Markers(md[a..b])
  {
    assert md[..b] == md[..lo] + md[lo..a] + md[a..b];
    MarkersOfParts(md[..lo], md[lo..a], md[a..b]);
    assert Markers(md[..lo]) + [] == Markers(md[..lo]);
  }

  /** A body that is a slice of the document. */
  lemma SlicePlaced(md: Lines, body: Lines, lo: nat, a: nat, hi: nat)
    requires lo <= a && a + |body| <= hi <= |md| && body == md[a..a + |body|] && Markers(md[lo..a]) == []
    ensures WellPlaced(md, body, Up(a, |body|), lo, hi)
  {
    forall k | 0 <= k < |body| ensures At(md, body, Up(a, |body|), lo, hi, k) {
      MarkersSkip(md, lo, a, a + k + 1);
      assert body[..k + 1] == md[a..a + k + 1];
    }
  }

  lemma TrimmedAway(lines: Lines)
    requires Trim(lines) == []
    ensures forall k :: 0 <= k < |lines| ==> lines[k] == Blank
  {
    Trimmed(lines);
    forall k | 0 <= k < |lines| ensures lines[k] == Blank {
      assert lines[k] in lines;
    }
  }

  lemma SkippedSlice(md: Lines, raw: Lines, lo: nat, p: nat, e: nat, k: nat)
    requires lo <= p < e <= |md| && raw == md[p + 1..e] && k <= |raw| && md[p].Dieu?
    requires forall j :: 0 <= j < k ==> raw[j] == Blank
    requires forall q :: lo <= q < p ==> md[q] == Blank
    ensures p + 1 + k <= e && Markers(md[lo..p + 1 + k]) == []
  {
    var skipped := md[lo..p + 1 + k];
    forall q | 0 <= q < |skipped| ensures skipped[q] == Blank || skipped[q].Dieu? {
      if lo + q > p {
        assert skipped[q] == raw[lo + q - p - 1];
      }
    }
    BlanksHaveNoMarkers(skipped);
  }

  lemma BlankBefore(md: Lines, i: nat)
    requires i < |DieuAt(md)| && (i == 0 ==> Trim(Preamble(md)) == [])
    ensures forall q :: StartAt(md, i) <= q < DieuAt(md)[i] ==> md[q] == Blank
  {
    if i == 0 {
      TrimmedAway(Preamble(md));
      forall q | 0 <= q < DieuAt(md)[0] ensures md[q] == Blank {
        assert md[q] == Preamble(md)[q];
      }
    }
  }

  lemma SkippedLines(md: Lines, i: nat, k: nat)
    requires i < |DieuAt(md)| && (i == 0 ==> Trim(Preamble(md)) == [])
    requires k <= |Raw(md, i)| && forall j :: 0 <= j < k ==> Raw(md, i)[j] == Blank
    ensures DieuAt(md)[i] + 1 + k <= EndAt(md, i)
    ensures Markers(md[StartAt(md, i)..DieuAt(md)[i] + 1 + k]) == []
  {
    hide *;
    BlankBefore(md, i);
    RawIs(md, i);
    SkippedSlice(md, Raw(md, i), StartAt(md, i), DieuAt(md)[i], EndAt(md, i), k);
  }

  lemma OneLinePlaced(md: Lines, lo: nat, p: nat, hi: nat)
    requires lo <= p < hi <= |md| && md[p].Dieu? && Markers(md[lo..p + 1]) == []
    ensures WellPlaced(md, [md[p]], [p], lo, hi)
  {
    var body := [md[p]];
    MarkersSkip(md, lo, p + 1, p + 1);
    NoMarkers(body);
    NoMarkers(md[p + 1..p + 1]);
    assert body[..1] == body;
  }

  /** The line that stands in for an empty body. */
  lemma StandInPlaced(md: Lines, i: nat)
    requires i < |DieuAt(md)| && (i == 0 ==> Trim(Preamble(md)) == [])
    ensures WellPlaced(md, [md[DieuAt(md)[i]]], [DieuAt(md)[i]], StartAt(md, i), EndAt(md, i))
  {
    hide *;
    SkippedLines(md, i, 0);
    OneLinePlaced(md, StartAt(md, i), DieuAt(md)[i], EndAt(md, i));
  }

  lemma RawIs(md: Lines, i: nat)
    requires i < |DieuAt(md)|
    ensures Raw(md, i) == md[DieuAt(md)[i] + 1..EndAt(md, i)]
  {
  }

  lemma RawPlaced(md: Lines, i: nat)
    requires i < |DieuAt(md)| && (i == 0 ==> Trim(Preamble(md)) == [])
    ensures var body := Trim(Raw(md, i));
            WellPlaced(md, body, Up(DieuAt(md)[i] + 1 + Lead(Raw(md, i)), |body|), StartAt(md, i), EndAt(md, i))
  {
    hide *;
    var p, raw := DieuAt(md)[i], Raw(md, i);
    RawIs(md, i);
    TrimIsSlice(raw);
    SkippedLines(md, i, Lead(raw));
    SliceOfSlice(md, p + 1, EndAt(md, i), Lead(raw), |Trim(raw)|);
    SlicePlaced(md, Trim(raw), StartAt(md, i), p + 1 + Lead(raw), EndAt(md, i));
  }

  lemma SliceOfSlice(s: Lines, lo: nat, hi: nat, a: nat, n: nat)
    requires lo <= hi <= |s| && a + n <= hi - lo
    ensures s[lo..hi][a..a + n] == s[lo + a..lo + a + n]
  {
    var x, y := s[lo..hi][a..a + n], s[lo + a..lo + a + n];
    assert |x| == |y| == n;
    forall k | 0 <= k < n ensures x[k] == y[k] {
      assert s[lo..hi][a + k] == s[lo + a + k];
    }
  }

  /** A section that takes no lines from a preamble. */
  lemma PlainSectionPlaced(md: Lines, i: nat)
    requires i < |DieuAt(md)| && (i == 0 ==> Trim(Preamble(md)) == [])
    ensures WellPlaced(md, SectionAt(md, i).body, BodyPlaces(md, i), StartAt(md, i), EndAt(md, i))
  {
    hide DieuAt, Preamble, Raw, Trim, Lead, WellPlaced;
    StandInPlaced(md, i);
    RawPlaced(md, i);
  }

  lemma FirstBodyIsPrefix(pre: Lines, raw: Lines)
    requires Trim(pre) != []
    ensures FullBody(Trim(pre), raw, true) <= FirstLines(Trim(pre), raw)
    ensures FullBody(Trim(pre), raw, true) != []
  {
    var x := Trim(pre) + [Blank] + raw;
    Trimmed(pre);
    assert x[0] == Trim(pre)[0] != Blank;
    TrimEnds(x);
    Trimmed(x);
    assert x[0] in x;
  }

  lemma MarkersInTrim(pre: Lines, k: nat)
    requires k < |Trim(pre)|
    ensures Lead(pre) + k < |pre| && pre[Lead(pre) + k] == Trim(pre)[k]
    ensures Markers(pre[..Lead(pre) + k + 1]) == Markers(Trim(pre)[..k + 1])
  {
    TrimIsSlice(pre);
    hide Trim, Lead, Markers;
    var a := Lead(pre);
    assert pre[0..a] == pre[..a] && pre[..0] == [];
    BlanksHaveNoMarkers(pre[0..a]);
    MarkersSkip(pre, 0, a, a + k + 1);
    NoMarkers([]);
    assert pre[a..a + |Trim(pre)|][..k + 1] == pre[a..a + k + 1];
    assert [] + Markers(pre[a..a + k + 1]) == Markers(pre[a..a + k + 1]);
  }

  lemma MarkersBehind(pre: Lines, d: Line, rest: Lines)
    requires !d.Page?
    ensures Markers(pre + [d] + rest) == Markers(FirstLines(Trim(pre), rest))
  {
    MarkersOfParts(pre, [d], rest);
    MarkersOfParts(Trim(pre), [Blank], rest);
    NoMarkers([d]);
    NoMarkers([Blank]);
    TrimKeeps(pre);
    MarkersOfNonBlank(pre);
    MarkersOfNonBlank(Trim(pre));
  }

  lemma SliceBehind(md: Lines, p: nat, e: nat, j: nat)
    requires p < e <= |md| && j <= e - p - 1
    ensures md[..p + j + 1] == md[..p] + [md[p]] + md[p + 1..e][..j]
    ensures j > 0 ==> md[p + j] == md[p + 1..e][j - 1]
  {
  }

  /** Line `k` of the first body is a line of the preamble. */
  lemma PreambleLineAt(md: Lines, k: nat)
    requires DieuAt(md) != [] && k < |Trim(Preamble(md))|
    ensures At(md, Trim(Preamble(md)), Up(Lead(Preamble(md)), |Trim(Preamble(md))|), 0, EndAt(md, 0), k)
  {
    var pre, a := Preamble(md), Lead(Preamble(md));
    MarkersInTrim(pre, k);
    hide DieuAt, Trim, Lead, Markers;
    assert md[..a + k + 1] == pre[..a + k + 1];
    NoMarkers(md[..0]);
    assert [] + Markers(Trim(pre)[..k + 1]) == Markers(Trim(pre)[..k + 1]);
  }

  lemma LineBehind(md: Lines, raw: Lines, p: nat, e: nat, j: nat)
    requires p < e <= |md| && raw == md[p + 1..e] && j <= |raw| && !md[p].Page?
    ensures p + j < e && (j > 0 ==> md[p + j] == raw[j - 1])
    ensures Markers(md[..p + j + 1]) == Markers(md[..0]) + Markers(FirstLines(Trim(md[..p]), raw[..j]))
  {
    hide Trim, Markers, FirstLines;
    SliceBehind(md, p, e, j);
    MarkersBehind(md[..p], md[p], raw[..j]);
    NoMarkers(md[..0]);
    var ms := Markers(FirstLines(Trim(md[..p]), raw[..j]));
    assert [] + ms == ms;
  }

  lemma PreambleIs(md: Lines)
    requires DieuAt(md) != []
    ensures Preamble(md) == md[..DieuAt(md)[0]] && !md[DieuAt(md)[0]].Page?
  {
  }

  /** Line `j` behind the preamble is the separator or a line of the section. */
  lemma SectionLineAt(md: Lines, j: nat)
    requires DieuAt(md) != [] && j <= |Raw(md, 0)|
    ensures DieuAt(md)[0] + j < EndAt(md, 0)
    ensures j > 0 ==> md[DieuAt(md)[0] + j] == Raw(md, 0)[j - 1]
    ensures Markers(md[..DieuAt(md)[0] + j + 1]) ==
            Markers(md[..0]) + Markers(FirstLines(Trim(Preamble(md)), Raw(md, 0)[..j]))
  {
    hide *;
    PreambleIs(md);
    RawIs(md, 0);
    LineBehind(md, Raw(md, 0), DieuAt(md)[0], EndAt(md, 0), j);
  }

  lemma PartsInFront(pre: Lines, raw: Lines, k: nat)
    requires k < |pre|
    ensures FirstLines(pre, raw)[k] == pre[k] && FirstLines(pre, raw)[..k + 1] == pre[..k + 1]
  {
  }

  lemma PartsBehind(pre: Lines, raw: Lines, j: nat)
    requires j <= |raw|
    ensures FirstLines(pre, raw)[|pre| + j] == if j == 0 then Blank else raw[j - 1]
    ensures FirstLines(pre, raw)[..|pre| + j + 1] == FirstLines(pre, raw[..j])
  {
  }

  /** The first body and its places are prefixes of the preamble, the separator and the raw body, and of
      their places. */
  lemma FirstBodyIs(md: Lines)
    requires DieuAt(md) != [] && Trim(Preamble(md)) != []
    ensures var pre, raw, p := Preamble(md), Raw(md, 0), DieuAt(md)[0];
            && SectionAt(md, 0).body <= FirstLines(Trim(pre), raw)
            && BodyPlaces(md, 0) <= FirstPlaces(Lead(pre), |Trim(pre)|, p, |raw|)
            && |BodyPlaces(md, 0)| == |SectionAt(md, 0).body|
  {
    FirstBodyIsPrefix(Preamble(md), Raw(md, 0));
  }

  lemma PrefixAt<T>(s: seq<T>, x: seq<T>, k: nat)
    requires s <= x && k < |s|
    ensures s[k] == x[k] && s[..k + 1] == x[..k + 1]
  {
  }

  lemma AtOfPrefix(md: Lines, body: Lines, places: seq<nat>, whole: Lines, all: seq<nat>, e: nat, k: nat)
    requires body <= whole && places <= all && k < |body| == |places| && |whole| == |all| && e <= |md|
    requires At(md, whole, all, 0, e, k)
    ensures At(md, body, places, 0, e, k)
  {
    hide Markers;
    PrefixAt(body, whole, k);
    PrefixAt(places, all, k);
  }

  lemma AtBy(md: Lines, whole: Lines, all: seq<nat>, e: nat, k: nat, front: Lines)
    requires k < |whole| == |all| && all[k] < e <= |md| && whole[..k + 1] == front
    requires whole[k] == Blank || whole[k] == md[all[k]]
    requires Markers(md[..all[k] + 1]) == Markers(md[..0]) + Markers(front)
    ensures At(md, whole, all, 0, e, k)
  {
  }

  lemma AtInPreamble(md: Lines, pre: Lines, raw: Lines, a: nat, p: nat, e: nat, k: nat)
    requires k < |pre| && e <= |md| && At(md, pre, Up(a, |pre|), 0, e, k)
    ensures At(md, FirstLines(pre, raw), FirstPlaces(a, |pre|, p, |raw|), 0, e, k)
  {
    hide Markers, Up, FirstLines, FirstPlaces;
    PartsInFront(pre, raw, k);
  }

  lemma AtBehindPreamble(md: Lines, pre: Lines, raw: Lines, a: nat, p: nat, e: nat, j: nat)
    requires j <= |raw| && p + j < e <= |md| && (j > 0 ==> md[p + j] == raw[j - 1])
    requires Markers(md[..p + j + 1]) == Markers(md[..0]) + Markers(FirstLines(pre, raw[..j]))
    ensures At(md, FirstLines(pre, raw), FirstPlaces(a, |pre|, p, |raw|), 0, e, |pre| + j)
  {
    hide *;
    PartsBehind(pre, raw, j);
    AtBy(md, FirstLines(pre, raw), FirstPlaces(a, |pre|, p, |raw|), e, |pre| + j, FirstLines(pre, raw[..j]));
  }

  lemma PreambleAt(md: Lines, k: nat)
    requires DieuAt(md) != [] && Trim(Preamble(md)) != []
    requires k < |SectionAt(md, 0).body| == |BodyPlaces(md, 0)|
    ensures At(md, SectionAt(md, 0).body, BodyPlaces(md, 0), 0, EndAt(md, 0), k)
  {
    hide *;
    var pre, raw, p := Trim(Preamble(md)), Raw(md, 0), DieuAt(md)[0];
    var n, a, e := |pre|, Lead(Preamble(md)), EndAt(md, 0);
    FirstBodyIs(md);
    if k < n {
      PreambleLineAt(md, k);
      AtInPreamble(md, pre, raw, a, p, e, k);
    } else {
      SectionLineAt(md, k - n);
      AtBehindPreamble(md, pre, raw, a, p, e, k - n);
    }
    AtOfPrefix(md, SectionAt(md, 0).body, BodyPlaces(md, 0), FirstLines(pre, raw), FirstPlaces(a, n, p, |raw|), e, k);
  }

  lemma FirstSectionPlaced(md: Lines)
    requires DieuAt(md) != [] && Trim(Preamble(md)) != []
    ensures WellPlaced(md, SectionAt(md, 0).body, BodyPlaces(md, 0), 0, EndAt(md, 0))
  {
    var pre, raw := Preamble(md), Raw(md, 0);
    FirstBodyIsPrefix(pre, raw);
    TrimIsSlice(pre);
    forall k | 0 <= k < |SectionAt(md, 0).body|
      ensures At(md, SectionAt(md, 0).body, BodyPlaces(md, 0), 0, EndAt(md, 0), k)
    {
      PreambleAt(md, k);
    }
  }

  lemma SectionPlaced(md: Lines, i: nat)
    requires i < |DieuAt(md)|
    ensures WellPlaced(md, SectionAt(md, i).body, BodyPlaces(md, i), StartAt(md, i), EndAt(md, i))
  {
    if i == 0 && Trim(Preamble(md)) != [] {
      FirstSectionPlaced(md);
    } else {
      PlainSectionPlaced(md, i);
    }
  }

  // ---- the whole document --------------------------------------------------

  function PlacesOf(md: Lines, n: nat): seq<nat>
    requires n <= |DieuAt(md)|
  {
    if n == 0 then [] else PlacesOf(md, n - 1) + BodyPlaces(md, n - 1)
  }

  /** The place in the document of each line of the section bodies laid end to end. */
  function Places(md: Lines): seq<nat> {
    if IsLegal(md) then PlacesOf(md, |DieuAt(md)|) else Up(0, |md|)
  }

  lemma AtInFront(md: Lines, flat: Lines, body: Lines, places: seq<nat>, more: seq<nat>, lo: nat, mid: nat, hi: nat,
                  k: nat)
    requires k < |flat| == |places| && lo <= mid <= hi <= |md| && At(md, flat, places, lo, mid, k)
    requires |body| == |more|
    ensures At(md, flat + body, places + more, lo, hi, k)
  {
    assert (flat + body)[..k + 1] == flat[..k + 1];
  }

  lemma AtBehind(md: Lines, flat: Lines, body: Lines, places: seq<nat>, more: seq<nat>, lo: nat, mid: nat, hi: nat,
                 k: nat)
    requires k < |body| == |more| && lo <= mid <= hi <= |md| && At(md, body, more, mid, hi, k)
    requires |flat| == |places| && Markers(md[..mid]) == Markers(md[..lo]) + Markers(flat)
    ensures At(md, flat + body, places + more, lo, hi, |flat| + k)
  {
    assert (flat + body)[..|flat| + k + 1] == flat + body[..k + 1];
    MarkersConcat(flat, body[..k + 1]);
    assert (Markers(md[..lo]) + Markers(flat)) + Markers(body[..k + 1]) ==
           Markers(md[..lo]) + (Markers(flat) + Markers(body[..k + 1]));
  }

  lemma RisingConcat(a: seq<nat>, b: seq<nat>, mid: nat)
    requires Rising(a) && Rising(b)
    requires (forall k :: 0 <= k < |a| ==> a[k] < mid) && forall k :: 0 <= k < |b| ==> mid <= b[k]
    ensures Rising(a + b)
  {
  }

  lemma InRange(md: Lines, body: Lines, places: seq<nat>, lo: nat, hi: nat)
    requires WellPlaced(md, body, places, lo, hi)
    ensures forall k :: 0 <= k < |places| ==> lo <= places[k] < hi
  {
    forall k | 0 <= k < |places| ensures lo <= places[k] < hi {
      assert At(md, body, places, lo, hi, k);
    }
  }

  /** Bodies placed one behind the other. */
  lemma PlacedConcat(md: Lines, flat: Lines, body: Lines, places: seq<nat>, more: seq<nat>, lo: nat, mid: nat, hi: nat)
    requires WellPlaced(md, flat, places, lo, mid) && WellPlaced(md, body, more, mid, hi)
    requires Markers(md[..mid]) == Markers(md[..lo]) + Markers(flat)
    ensures WellPlaced(md, flat + body, places + more, lo, hi)
  {
    assert forall k :: 0 <= k < |flat| ==> At(md, flat, places, lo, mid, k);
    assert forall k :: 0 <= k < |body| ==> At(md, body, more, mid, hi, k);
    InRange(md, flat, places, lo, mid);
    InRange(md, body, more, mid, hi);
    RisingConcat(places, more, mid);
    forall k | 0 <= k < |flat + body| ensures At(md, flat + body, places + more, lo, hi, k) {
      if k < |flat| {
        AtInFront(md, flat, body, places, more, lo, mid, hi, k);
      } else {
        AtBehind(md, flat, body, places, more, lo, mid, hi, k - |flat|);
      }
    }
  }

  /** Where the first `n` sections end. */
  function EndOfFirst(md: Lines, n: nat): (e: nat)
    requires n <= |DieuAt(md)|
    ensures e <= |md|
  {
    if n == 0 then 0 else EndAt(md, n - 1)
  }

  lemma EndIsStart(md: Lines, n: nat)
    requires n < |DieuAt(md)|
    ensures EndOfFirst(md, n) == StartAt(md, n)
  {
  }

  lemma FlatOfFirst(md: Lines, n: nat)
    requires n < |DieuAt(md)|
    ensures Flat(FirstSections(md, n + 1)) == Flat(FirstSections(md, n)) + SectionAt(md, n).body
    ensures PlacesOf(md, n + 1) == PlacesOf(md, n) + BodyPlaces(md, n)
    ensures EndOfFirst(md, n + 1) == EndAt(md, n)
  {
    FlatSnoc(FirstSections(md, n), SectionAt(md, n));
  }

  lemma MarkersOfFirst(md: Lines, n: nat)
    requires n <= |DieuAt(md)|
    ensures Markers(md[..EndOfFirst(md, n)]) == Markers(md[..0]) + Markers(Flat(FirstSections(md, n)))
  {
    FlatMarkersSplit(md, n);
    NoMarkers(md[..0]);
    var ms := Markers(md[..EndOfFirst(md, n)]);
    assert [] + ms == ms;
  }

  lemma NoSectionPlaced(md: Lines)
    ensures WellPlaced(md, Flat(FirstSections(md, 0)), PlacesOf(md, 0), 0, EndOfFirst(md, 0))
  {
  }

  lemma OneMoreSectionPlaced(md: Lines, n: nat)
    requires n < |DieuAt(md)|
    requires WellPlaced(md, Flat(FirstSections(md, n)), PlacesOf(md, n), 0, EndOfFirst(md, n))
    ensures WellPlaced(md, Flat(FirstSections(md, n + 1)), PlacesOf(md, n + 1), 0, EndOfFirst(md, n + 1))
  {
    hide *;
    SectionPlaced(md, n);
    EndIsStart(md, n);
    FlatOfFirst(md, n);
    MarkersOfFirst(md, n);
    PlacedConcat(md, Flat(FirstSections(md, n)), SectionAt(md, n).body, PlacesOf(md, n), BodyPlaces(md, n), 0,
                 StartAt(md, n), EndAt(md, n));
  }

  lemma {:induction false} SectionsPlaced(md: Lines, n: nat)
    requires n <= |DieuAt(md)|
    ensures WellPlaced(md, Flat(FirstSections(md, n)), PlacesOf(md, n), 0, EndOfFirst(md, n))
  {
    hide *;
    if n == 0 {
      NoSectionPlaced(md);
    } else {
      SectionsPlaced(md, n - 1);
      OneMoreSectionPlaced(md, n - 1);
    }
  }

  lemma WholePlaced(md: Lines)
    requires !IsLegal(md)
    ensures WellPlaced(md, Flat(SectionsOf(md)), Places(md), 0, |md|)
  {
    FlatOne(Section(None, md));
    assert md[0..0 + |md|] == md && md[0..0] == [];
    NoMarkers([]);
    SlicePlaced(md, md, 0, 0, |md|);
  }

  lemma LegalPlaced(md: Lines)
    requires IsLegal(md)
    ensures WellPlaced(md, Flat(SectionsOf(md)), Places(md), 0, |md|)
  {
    var n := |DieuAt(md)|;
    SectionsPlaced(md, n);
    assert EndOfFirst(md, n) == |md|;
    assert SectionsOf(md) == FirstSections(md, n);
  }

  /** Every line of the section bodies laid end to end stands in the document at its place; places rise,
      and up to each of them the document has exactly the markers of the bodies so far. */
  lemma BodiesPlaced(md: Lines)
    ensures WellPlaced(md, Flat(SectionsOf(md)), Places(md), 0, |md|)
  {
    if IsLegal(md) {
      LegalPlaced(md);
    } else {
      WholePlaced(md);
    }
  }

  // ---- pages in terms of the document --------------------------------------

  /** The end in the document of the first `n` lines of the bodies. */
  function EndIn(md: Lines, n: nat): nat
    requires n <= |Places(md)|
  {
    if n == 0 then 0 else Places(md)[n - 1] + 1
  }

  lemma EndsRise(md: Lines, a: nat, b: nat)
    requires a <= b <= |Places(md)|
    ensures EndIn(md, a) <= EndIn(md, b) <= |md|
  {
    BodiesPlaced(md);
    hide Places;
    if b > 0 {
      assert At(md, Flat(SectionsOf(md)), Places(md), 0, |md|, b - 1);
    }
  }

  lemma SameMarkers(md: Lines, n: nat)
    requires n <= |Flat(SectionsOf(md))|
    ensures n <= |Places(md)| && EndIn(md, n) <= |md|
    ensures Markers(Flat(SectionsOf(md))[..n]) == Markers(md[..EndIn(md, n)])
  {
    BodiesPlaced(md);
    hide Places, Flat, SectionsOf;
    NoMarkers([]);
    assert md[..0] == [];
    if n > 0 {
      assert At(md, Flat(SectionsOf(md)), Places(md), 0, |md|, n - 1);
      var ms := Markers(Flat(SectionsOf(md))[..n]);
      assert [] + ms == ms;
    } else {
      assert Flat(SectionsOf(md))[..0] == [];
    }
  }

  lemma SamePage(md: Lines, n: nat)
    requires n <= |Flat(SectionsOf(md))|
    ensures n <= |Places(md)| && EndIn(md, n) <= |md|
    ensures LastMarker(Flat(SectionsOf(md))[..n]) == LastMarker(md[..EndIn(md, n)])
  {
    SameMarkers(md, n);
    LastMarkerIsLast(Flat(SectionsOf(md))[..n]);
    LastMarkerIsLast(md[..EndIn(md, n)]);
  }

  lemma SlicesAgree(flat: Lines, a: nat, b: nat, md: Lines, x: nat, y: nat)
    requires a <= b <= |flat| && x <= y <= |md|
    requires Markers(flat[..a]) == Markers(md[..x]) && Markers(flat[..b]) == Markers(md[..y])
    ensures Markers(flat[a..b]) == Markers(md[x..y])
  {
    hide Markers;
    assert flat[..b] == flat[..a] + flat[a..b];
    MarkersConcat(flat[..a], flat[a..b]);
    assert md[..y] == md[..x] + md[x..y];
    MarkersConcat(md[..x], md[x..y]);
    SamePrefix(Markers(flat[..a]), Markers(flat[a..b]), Markers(md[x..y]));
  }

  /** The markers between two lines of the bodies are those between their places. */
  lemma MarkersBetween(md: Lines, a: nat, b: nat)
    requires a <= b <= |Flat(SectionsOf(md))|
    ensures b <= |Places(md)| && EndIn(md, a) <= EndIn(md, b) <= |md|
    ensures Markers(Flat(SectionsOf(md))[a..b]) == Markers(md[EndIn(md, a)..EndIn(md, b)])
  {
    SameMarkers(md, a);
    SameMarkers(md, b);
    EndsRise(md, a, b);
    hide *;
    SlicesAgree(Flat(SectionsOf(md)), a, b, md, EndIn(md, a), EndIn(md, b));
  }

  /** The page range of a chunk that takes the stretch of the document from `lo` to `hi`. */
  ghost predicate PagesOfStretch(md: Lines, chunk: Chunk, lo: nat, hi: nat)
    requires lo <= hi <= |md|
  {
    && chunk.pageTo == LastMarker(md[..hi])
    && chunk.pageFrom == (if Markers(md[lo..hi]) == [] then chunk.pageTo else Some(Markers(md[lo..hi])[0]))
    && PageLe(chunk.pageFrom, chunk.pageTo)
  }

  /** The piece of chunk `i`, as a range of the bodies laid end to end. */
  ghost function SourceOf(cfg: Config, md: Lines, i: nat): Call
    requires GoodSplitter(cfg.splitter) && i < |Sources(Calls(cfg, md))|
  {
    Calls(cfg, md)[Sources(Calls(cfg, md))[i]]
  }

  lemma SourceInBodies(cfg: Config, md: Lines, i: nat)
    requires GoodSplitter(cfg.splitter) && i < |Sources(Calls(cfg, md))|
    ensures var c, flat := SourceOf(cfg, md, i), Flat(SectionsOf(md));
            c.lo <= c.hi <= |flat| && c.piece == flat[c.lo..c.hi] && |flat| == |Places(md)|
  {
    CallsGood(cfg, md);
    BodiesPlaced(md);
    hide Places, Flat, SectionsOf, Calls;
    PlacedCall(Flat(SectionsOf(md)), Calls(cfg, md), Sources(Calls(cfg, md))[i]);
  }

  lemma LineStands(md: Lines, c: Call, x: nat)
    requires c.lo <= x < c.hi <= |Flat(SectionsOf(md))| == |Places(md)| && c.piece == Flat(SectionsOf(md))[c.lo..c.hi]
    ensures Stands(md, c, x)
  {
    BodiesPlaced(md);
    var flat := Flat(SectionsOf(md));
    hide Flat, SectionsOf, Places;
    assert At(md, flat, Places(md), 0, |md|, x);
    EndsRise(md, x + 1, c.hi);
    EndsRise(md, c.lo, x);
    assert c.piece[x - c.lo] == flat[x];
    if x > 0 {
      assert Places(md)[x - 1] < Places(md)[x];
    }
  }

  lemma StretchOf(md: Lines, chunk: Chunk, c: Call)
    requires c.lo <= c.hi <= |Flat(SectionsOf(md))| == |Places(md)| && c.piece == Flat(SectionsOf(md))[c.lo..c.hi]
    requires RightPages(Flat(SectionsOf(md)), chunk, c) && PageLe(chunk.pageFrom, chunk.pageTo)
    ensures EndIn(md, c.lo) <= EndIn(md, c.hi) <= |md|
    ensures PagesOfStretch(md, chunk, EndIn(md, c.lo), EndIn(md, c.hi))
  {
    SamePage(md, c.hi);
    MarkersBetween(md, c.lo, c.hi);
    hide Flat, SectionsOf, Places, EndIn, Markers, LastMarker;
  }

  /** Chunk `i`: every line of its piece that is not blank stands in its stretch of the document, in
      order, and its pages are those of that stretch. */
  lemma ChunkInDocument(cfg: Config, md: Lines, i: nat)
    requires GoodSplitter(cfg.splitter) && Ascending(Markers(md)) && i < |Sources(Calls(cfg, md))|
    ensures i < |Chunks(cfg, md)|
    ensures var c := SourceOf(cfg, md, i);
            && c.lo <= c.hi <= |Places(md)| && EndIn(md, c.lo) <= EndIn(md, c.hi) <= |md|
            && PagesOfStretch(md, Chunks(cfg, md)[i], EndIn(md, c.lo), EndIn(md, c.hi))
            && |c.piece| == c.hi - c.lo
            && forall x :: c.lo <= x < c.hi ==> Stands(md, c, x)
  {
    var c := SourceOf(cfg, md, i);
    SourceInBodies(cfg, md, i);
    PagesOfChunk(cfg, md, i);
    StretchOf(md, Chunks(cfg, md)[i], c);
    hide *;
    forall x | c.lo <= x < c.hi ensures Stands(md, c, x) {
      LineStands(md, c, x);
    }
  }

  /** Line `x` of the bodies, a line of the piece, stands in the stretch of the piece. */
  ghost predicate Stands(md: Lines, c: Call, x: nat)
    requires c.lo <= x < c.hi <= |Places(md)| && |c.piece| == c.hi - c.lo
  {
    && EndIn(md, c.lo) <= Places(md)[x] < EndIn(md, c.hi) && Places(md)[x] < |md|
    && (c.piece[x - c.lo] != Blank ==> md[Places(md)[x]] == c.piece[x - c.lo])
    && (x > c.lo ==> Places(md)[x - 1] < Places(md)[x])
  }

  /** With ascending page markers: each chunk is cut from a stretch of the document, `page_to` is the last
      marker at or before the end of that stretch, and `page_from` is the first marker inside it, or
      `page_to` when there is none. */
  lemma ChunksInDocument(cfg: Config, md: Lines)
    requires GoodSplitter(cfg.splitter) && Ascending(Markers(md))
    ensures |Sources(Calls(cfg, md))| == |Chunks(cfg, md)|
    ensures forall i :: 0 <= i < |Chunks(cfg, md)| ==>
              var c := SourceOf(cfg, md, i);
              && c.lo <= c.hi <= |Places(md)| && EndIn(md, c.lo) <= EndIn(md, c.hi) <= |md|
              && PagesOfStretch(md, Chunks(cfg, md)[i], EndIn(md, c.lo), EndIn(md, c.hi))
              && |c.piece| == c.hi - c.lo
              && forall x :: c.lo <= x < c.hi ==> Stands(md, c, x)
  {
    EmittedInOrder(cfg.tokens, Calls(cfg, md));
    hide Places, EndIn, Stands, PagesOfStretch, SourceOf;
    forall i | 0 <= i < |Chunks(cfg, md)|
      ensures var c := SourceOf(cfg, md, i);
              && c.lo <= c.hi <= |Places(md)| && EndIn(md, c.lo) <= EndIn(md, c.hi) <= |md|
              && PagesOfStretch(md, Chunks(cfg, md)[i], EndIn(md, c.lo), EndIn(md, c.hi))
              && |c.piece| == c.hi - c.lo
              && forall x :: c.lo <= x < c.hi ==> Stands(md, c, x)
    {
      ChunkInDocument(cfg, md, i);
    }
  }
}
