/**
 Splitting a legal document at its "Điều" lines (src/ingestion/chunkers/base.py:57-99): the
 loops of the source proved against a specification on values, and the conservation of the
 document by that specification.
 */
module Sections {
  import opened Prelude
  import opened Text

  datatype Section = Section(heading: Option<Line>, body: Lines)

  // ---- positions -----------------------------------------------------------

  /** The positions of the "Điều" lines, in order. */
  function DieuAt(md: Lines): (ps: seq<nat>)
    ensures forall i :: 0 <= i < |ps| ==> ps[i] < |md| && md[ps[i]].Dieu?
    ensures forall i, j :: 0 <= i < j < |ps| ==> ps[i] < ps[j]
  {
    if md == [] then []
    else DieuAt(md[..|md| - 1]) + if md[|md| - 1].Dieu? then [|md| - 1] else []
  }

  lemma {:induction false} DieuAtComplete(md: Lines, p: nat)
    requires p < |md| && md[p].Dieu?
    ensures p in DieuAt(md)
  {
    if p < |md| - 1 {
      DieuAtComplete(md[..|md| - 1], p);
    }
  }

  /** The title of the last "Chương" line of `md`, or the empty string. */
  function LastChuong(md: Lines): string {
    if md == [] then "" else if md[|md| - 1].Chuong? then md[|md| - 1].title else LastChuong(md[..|md| - 1])
  }

  predicate HasChuong(md: Lines) {
    exists i :: 0 <= i < |md| && md[i].Chuong?
  }

  predicate IsLegal(md: Lines) {
    |DieuAt(md)| >= 3 && HasChuong(md)
  }

  /** Three different "Điều" lines and a "Chương" line make a document legal. */
  lemma LegalIff(md: Lines)
    ensures IsLegal(md) <==>
              && (exists i, j, k :: 0 <= i < j < k < |md| && md[i].Dieu? && md[j].Dieu? && md[k].Dieu?)
              && (exists p :: 0 <= p < |md| && md[p].Chuong?)
  {
    var ps := DieuAt(md);
    if |ps| >= 3 {
      assert ps[0] < ps[1] < ps[2] && md[ps[0]].Dieu? && md[ps[1]].Dieu? && md[ps[2]].Dieu?;
    }
    if i, j, k :| 0 <= i < j < k < |md| && md[i].Dieu? && md[j].Dieu? && md[k].Dieu? {
      DieuAtComplete(md, i);
      DieuAtComplete(md, j);
      DieuAtComplete(md, k);
      var a :| 0 <= a < |ps| && ps[a] == i;
      var b :| 0 <= b < |ps| && ps[b] == j;
      var c :| 0 <= c < |ps| && ps[c] == k;
      assert a != b && b != c && a != c;
    }
  }

  // ---- specification -------------------------------------------------------

  function EndAt(md: Lines, i: nat): (e: nat)
    requires i < |DieuAt(md)|
    ensures DieuAt(md)[i] < e <= |md|
  {
    if i + 1 < |DieuAt(md)| then DieuAt(md)[i + 1] else |md|
  }

  /** The lines before the first "Điều" line. */
  function Preamble(md: Lines): Lines
    requires DieuAt(md) != []
  {
    md[..DieuAt(md)[0]]
  }

  /** The lines strictly between one "Điều" line and the next. */
  function Raw(md: Lines, i: nat): Lines
    requires i < |DieuAt(md)|
  {
    md[DieuAt(md)[i] + 1..EndAt(md, i)]
  }

  /** The first section's body also takes the (stripped) preamble. */
  function FullBody(preamble: Lines, raw: Lines, isFirst: bool): Lines {
    if isFirst && preamble != [] then Trim(preamble + [Blank] + raw) else Trim(raw)
  }

  /** A section's first line stands in for an empty body. */
  function MakeSection(chuong: string, first: Line, full: Lines): Section
    requires first.Dieu?
  {
    Section(Some(Path(chuong, first.title)), if full != [] then full else [first])
  }

  function SectionAt(md: Lines, i: nat): Section
    requires i < |DieuAt(md)|
  {
    var p := DieuAt(md)[i];
    MakeSection(LastChuong(md[..p]), md[p], FullBody(Trim(Preamble(md)), Raw(md, i), i == 0))
  }

  function FirstSections(md: Lines, n: nat): (secs: seq<Section>)
    requires n <= |DieuAt(md)|
    ensures |secs| == n && forall i :: 0 <= i < n ==> secs[i] == SectionAt(md, i)
  {
    if n == 0 then [] else FirstSections(md, n - 1) + [SectionAt(md, n - 1)]
  }

  function Split(md: Lines): (secs: seq<Section>)
    ensures |secs| == if DieuAt(md) == [] then 1 else |DieuAt(md)|
    ensures DieuAt(md) != [] ==> forall i :: 0 <= i < |secs| ==> secs[i] == SectionAt(md, i)
  {
    if DieuAt(md) == [] then [Section(None, md)] else FirstSections(md, |DieuAt(md)|)
  }

  // ---- the loops of the source ---------------------------------------------

  datatype Match = Match(pos: nat, title: string)

  ghost predicate AllChuong(md: Lines, ms: seq<Match>) {
    && (forall i :: 0 <= i < |ms| ==> ms[i].pos < |md| && md[ms[i].pos] == Chuong(ms[i].title))
    && (forall i, j :: 0 <= i < j < |ms| ==> ms[i].pos < ms[j].pos)
    && (forall p :: 0 <= p < |md| && md[p].Chuong? ==> exists i :: 0 <= i < |ms| && ms[i].pos == p)
  }

  lemma OneMoreChuong(above: Lines, l: Line, ms: seq<Match>)
    requires AllChuong(above, ms)
    ensures AllChuong(above + [l], if l.Chuong? then ms + [Match(|above|, l.title)] else ms)
  {
    var all := above + [l];
    var more := if l.Chuong? then ms + [Match(|above|, l.title)] else ms;
    forall p | 0 <= p < |all| && all[p].Chuong? ensures exists i :: 0 <= i < |more| && more[i].pos == p {
      if p < |above| {
        assert above[p].Chuong?;
        var i :| 0 <= i < |ms| && ms[i].pos == p;
        assert more[i].pos == p;
      } else {
        assert more[|ms|].pos == p;
      }
    }
  }

  lemma NoChuongYet(md: Lines)
    ensures AllChuong(md[..0], [])
  {
    assert md[..0] == [];
  }

  method ChuongPositions(md: Lines) returns (ms: seq<Match>)
    ensures AllChuong(md, ms)
  {
    hide AllChuong;
    ms := [];
    NoChuongYet(md);
    for k := 0 to |md|
      invariant AllChuong(md[..k], ms)
    {
      OneMoreChuong(md[..k], md[k], ms);
      assert md[..k + 1] == md[..k] + [md[k]];
      if md[k].Chuong? {
        ms := ms + [Match(k, md[k].title)];
      }
    }
    assert md[..|md|] == md;
  }

  /** The scan with early exit finds the last "Chương" line at or before `pos`. */
  method ChuongAt(ghost md: Lines, ms: seq<Match>, pos: nat) returns (current: string)
    requires AllChuong(md, ms) && pos < |md| && !md[pos].Chuong?
    ensures current == LastChuong(md[..pos])
  {
    current := "";
    var i := 0;
    while i < |ms| && ms[i].pos <= pos
      invariant i <= |ms|
      invariant i > 0 ==> ms[i - 1].pos < pos && current == ms[i - 1].title
      invariant i == 0 ==> current == ""
    {
      assert ms[i].pos != pos;
      current := ms[i].title;
      i := i + 1;
    }
    forall p | 0 <= p < pos && md[p].Chuong? ensures i > 0 && p <= ms[i - 1].pos {
      var j :| 0 <= j < |ms| && ms[j].pos == p;
      assert j < i;
    }
    LastChuongFound(md[..pos], if i > 0 then ms[i - 1].pos else -1, current);
  }

  lemma {:induction false} LastChuongFound(md: Lines, at: int, title: string)
    requires at < |md| && (if at < 0 then title == "" else md[at] == Chuong(title))
    requires forall p :: 0 <= p < |md| && md[p].Chuong? ==> p <= at
    ensures LastChuong(md) == title
  {
    if md != [] && at != |md| - 1 {
      LastChuongFound(md[..|md| - 1], at, title);
    }
  }

  method DieuMatches(md: Lines) returns (ps: seq<nat>)
    ensures ps == DieuAt(md)
  {
    ps := [];
    for k := 0 to |md|
      invariant ps == DieuAt(md[..k])
    {
      assert md[..k + 1][..k] == md[..k];
      if md[k].Dieu? {
        ps := ps + [k];
      }
    }
    assert md[..|md|] == md;
  }

  method SplitByDieu(md: Lines) returns (secs: seq<Section>)
    ensures secs == Split(md)
  {
    var ps := DieuMatches(md);
    if ps == [] {
      return [Section(None, md)];
    }
    secs := [];
    var preamble := Trim(md[..ps[0]]);
    var chuongs := ChuongPositions(md);
    for i := 0 to |ps|
      invariant secs == FirstSections(md, i)
    {
      var sec := OneSection(md, ps, i, preamble, chuongs);
      secs := secs + [sec];
    }
  }

  /** The body of the loop. */
  method OneSection(md: Lines, ps: seq<nat>, i: nat, preamble: Lines, chuongs: seq<Match>)
    returns (sec: Section)
    requires ps == DieuAt(md) && i < |ps| && preamble == Trim(Preamble(md)) && AllChuong(md, chuongs)
    ensures sec == SectionAt(md, i)
  {
    var end := if i + 1 < |ps| then ps[i + 1] else |md|;
    var chuong := ChuongAt(md, chuongs, ps[i]);
    sec := MakeSection(chuong, md[ps[i]], FullBody(preamble, md[ps[i] + 1..end], i == 0));
  }

  // ---- conservation --------------------------------------------------------

  function FirstLine(sec: Section): Line
    requires sec.heading.Some? && sec.heading.value.Path?
  {
    Dieu(sec.heading.value.dieu)
  }

  /** The non-blank lines a section holds besides its first line, which stands in for an
      empty body. */
  function Content(sec: Section): Lines
    requires sec.heading.Some? && sec.heading.value.Path?
  {
    if sec.body == [FirstLine(sec)] then [] else NonBlank(sec.body)
  }

  ghost predicate Headed(secs: seq<Section>) {
    forall i :: 0 <= i < |secs| ==> secs[i].heading.Some? && secs[i].heading.value.Path?
  }

  /** The sections written out again: each first line followed by its content. */
  function WriteOut(secs: seq<Section>): Lines
    requires Headed(secs)
  {
    if secs == [] then [] else [FirstLine(secs[0])] + Content(secs[0]) + WriteOut(secs[1..])
  }

  /** The document rebuilt from its sections, whose first one holds `k` lines of preamble. */
  function Rejoin(secs: seq<Section>, k: nat): Lines
    requires Headed(secs) && secs != [] && k <= |Content(secs[0])|
  {
    Content(secs[0])[..k] + [FirstLine(secs[0])] + Content(secs[0])[k..] + WriteOut(secs[1..])
  }

  /** A "Điều" line is not before the first position, nor between one position and the next. */
  lemma DieuIsAtPosition(md: Lines, i: nat, p: nat)
    requires i < |DieuAt(md)| && p < |md| && md[p].Dieu?
    ensures p >= DieuAt(md)[0] && !(DieuAt(md)[i] < p < EndAt(md, i))
  {
    var ps := DieuAt(md);
    DieuAtComplete(md, p);
    var j :| 0 <= j < |ps| && ps[j] == p;
    if j > i + 1 {
      assert ps[i + 1] < ps[j];
    }
  }

  lemma NoDieuBetween(md: Lines, i: nat)
    requires i < |DieuAt(md)|
    ensures forall l :: l in Raw(md, i) ==> !l.Dieu?
    ensures forall l :: l in Preamble(md) ==> !l.Dieu?
  {
    hide DieuAt;
    var first, p := DieuAt(md)[0], DieuAt(md)[i];
    forall l | l in Raw(md, i) ensures !l.Dieu? {
      var q :| 0 <= q < |Raw(md, i)| && Raw(md, i)[q] == l;
      if md[p + 1 + q].Dieu? {
        DieuIsAtPosition(md, i, p + 1 + q);
      }
    }
    forall l | l in Preamble(md) ensures !l.Dieu? {
      var q :| 0 <= q < |Preamble(md)| && Preamble(md)[q] == l;
      if md[q].Dieu? {
        DieuIsAtPosition(md, i, q);
      }
    }
  }

  /** What the body of a section holds. */
  lemma BodyContent(preamble: Lines, raw: Lines, isFirst: bool)
    ensures NonBlank(FullBody(Trim(preamble), raw, isFirst)) ==
            (if isFirst then NonBlank(preamble) else []) + NonBlank(raw)
    ensures forall l :: l in FullBody(Trim(preamble), raw, isFirst) && l != Blank ==> l in preamble || l in raw
  {
    var pre := Trim(preamble);
    TrimKeeps(preamble);
    TrimKeeps(raw);
    Trimmed(preamble);
    Trimmed(raw);
    Trimmed(pre + [Blank] + raw);
    if isFirst && pre != [] {
      TrimKeeps(pre + [Blank] + raw);
      NonBlankConcat(pre, [Blank]);
      NonBlankConcat(pre + [Blank], raw);
    }
  }

  lemma SectionContent(md: Lines, i: nat)
    requires i < |DieuAt(md)|
    ensures FirstLine(SectionAt(md, i)) == md[DieuAt(md)[i]]
    ensures i == 0 ==> Content(SectionAt(md, i)) == NonBlank(Preamble(md)) + NonBlank(Raw(md, i))
    ensures i > 0 ==> Content(SectionAt(md, i)) == NonBlank(Raw(md, i))
  {
    BodyContent(Preamble(md), Raw(md, i), i == 0);
    NoDieuBetween(md, i);
    var full := FullBody(Trim(Preamble(md)), Raw(md, i), i == 0);
    assert forall l :: l in full ==> !l.Dieu?;
    if full != [] {
      assert full[0] in full;
    }
  }

  lemma NonBlankAfterFirst(first: Line, raw: Lines, rest: Lines)
    requires first != Blank
    ensures NonBlank([first] + raw + rest) == [first] + NonBlank(raw) + NonBlank(rest)
  {
    NonBlankConcat([first], raw);
    NonBlankConcat([first] + raw, rest);
  }

  /** The document from one "Điều" line on: that line, its raw body, and the rest. */
  lemma FromDieu(md: Lines, i: nat)
    requires i < |DieuAt(md)|
    ensures NonBlank(md[DieuAt(md)[i]..]) ==
            [md[DieuAt(md)[i]]] + NonBlank(Raw(md, i)) + NonBlank(md[EndAt(md, i)..])
  {
    var p, e := DieuAt(md)[i], EndAt(md, i);
    assert md[p..] == [md[p]] + Raw(md, i) + md[e..];
    NonBlankAfterFirst(md[p], Raw(md, i), md[e..]);
  }

  lemma SplitHeaded(md: Lines)
    requires DieuAt(md) != []
    ensures Headed(Split(md))
  {
    forall i | 0 <= i < |Split(md)| ensures Split(md)[i].heading.Some? && Split(md)[i].heading.value.Path? {
      assert Split(md)[i] == SectionAt(md, i);
    }
  }

  lemma WriteOutFrom(secs: seq<Section>, i: nat)
    requires Headed(secs) && i < |secs|
    ensures WriteOut(secs[i..]) == [FirstLine(secs[i])] + Content(secs[i]) + WriteOut(secs[i + 1..])
  {
    assert secs[i..][1..] == secs[i + 1..];
  }

  /** The non-blank lines from the `i`-th "Điều" line on. */
  function FromSection(md: Lines, i: nat): Lines
    requires i <= |DieuAt(md)|
  {
    NonBlank(if i < |DieuAt(md)| then md[DieuAt(md)[i]..] else [])
  }

  lemma RestAfter(md: Lines, i: nat)
    requires i < |DieuAt(md)|
    ensures FromSection(md, i + 1) == NonBlank(md[EndAt(md, i)..])
  {
    if i + 1 == |DieuAt(md)| {
      assert md[EndAt(md, i)..] == [];
    }
  }

  lemma SectionThenRest(md: Lines, i: nat)
    requires 0 < i < |DieuAt(md)|
    ensures FromSection(md, i) ==
            [FirstLine(SectionAt(md, i))] + Content(SectionAt(md, i)) + FromSection(md, i + 1)
  {
    SectionContent(md, i);
    FromDieu(md, i);
    RestAfter(md, i);
  }

  lemma {:induction false} TailConserved(md: Lines, secs: seq<Section>, i: nat)
    requires |secs| == |DieuAt(md)| && Headed(secs)
    requires forall j :: 0 <= j < |secs| ==> secs[j] == SectionAt(md, j)
    requires 0 < i <= |secs|
    ensures WriteOut(secs[i..]) == FromSection(md, i)
    decreases |secs| - i
  {
    if i < |secs| {
      TailConserved(md, secs, i + 1);
      WriteOutFrom(secs, i);
      SectionThenRest(md, i);
    }
  }

  lemma Halves<T>(a: seq<T>, b: seq<T>)
    ensures (a + b)[..|a|] == a && (a + b)[|a|..] == b
  {
  }

  lemma Regroup<T>(a: seq<T>, b: seq<T>, c: seq<T>, d: seq<T>)
    ensures a + (b + c + d) == a + b + c + d
  {
  }

  lemma WithPreamble(md: Lines)
    requires DieuAt(md) != []
    ensures NonBlank(md) == NonBlank(Preamble(md)) + NonBlank(md[DieuAt(md)[0]..])
  {
    assert md == Preamble(md) + md[DieuAt(md)[0]..];
    NonBlankConcat(Preamble(md), md[DieuAt(md)[0]..]);
  }

  lemma FirstSection(md: Lines)
    requires DieuAt(md) != []
    ensures var pre, content := NonBlank(Preamble(md)), Content(SectionAt(md, 0));
            && |pre| <= |content|
            && NonBlank(md) == content[..|pre|] + [FirstLine(SectionAt(md, 0))] + content[|pre|..] +
                               FromSection(md, 1)
  {
    var pre, raw := NonBlank(Preamble(md)), NonBlank(Raw(md, 0));
    var first, rest := FirstLine(SectionAt(md, 0)), FromSection(md, 1);
    SectionContent(md, 0);
    Halves(pre, raw);
    assert NonBlank(md[DieuAt(md)[0]..]) == [first] + raw + rest by {
      FromDieu(md, 0);
      RestAfter(md, 0);
    }
    WithPreamble(md);
    Regroup(pre, [first], raw, rest);
  }

  /** Splitting conserves the document: the preamble, then each "Điều" line with the content of
      its section, is the whole input, blank lines aside; there is one section per "Điều" line. */
  lemma SplitConserves(md: Lines)
    requires DieuAt(md) != []
    ensures var secs, k := Split(md), |NonBlank(Preamble(md))|;
            && |secs| == |DieuAt(md)|
            && Headed(secs) && k <= |Content(secs[0])|
            && Rejoin(secs, k) == NonBlank(md)
  {
    SplitHeaded(md);
    FirstSection(md);
    TailConserved(md, Split(md), 1);
  }

  /** Each heading names its own "Điều" line and the nearest "Chương" line above it. */
  lemma HeadingNames(md: Lines, i: nat)
    requires i < |DieuAt(md)|
    ensures exists chuong, dieu ::
              && Split(md)[i].heading == Some(Path(chuong, dieu))
              && md[DieuAt(md)[i]] == Dieu(dieu)
              && NearestChuong(md[..DieuAt(md)[i]], chuong)
  {
    assert Split(md)[i] == SectionAt(md, i);
    var p := DieuAt(md)[i];
    LastChuongMeans(md[..p]);
    assert Split(md)[i].heading == Some(Path(LastChuong(md[..p]), md[p].title));
  }

  ghost predicate NearestChuong(above: Lines, title: string) {
    || (title == "" && forall q :: 0 <= q < |above| ==> !above[q].Chuong?)
    || (exists p :: 0 <= p < |above| && above[p] == Chuong(title) &&
                    forall q :: p < q < |above| ==> !above[q].Chuong?)
  }

  lemma NearestChuongBelow(above: Lines, l: Line, title: string)
    requires NearestChuong(above, title) && !l.Chuong?
    ensures NearestChuong(above + [l], title)
  {
    var all := above + [l];
    if p :| 0 <= p < |above| && above[p] == Chuong(title) && forall q :: p < q < |above| ==> !above[q].Chuong? {
      assert all[p] == Chuong(title);
    }
  }

  lemma {:induction false} LastChuongMeans(md: Lines)
    ensures NearestChuong(md, LastChuong(md))
  {
    if md != [] {
      var front, last := md[..|md| - 1], md[|md| - 1];
      if last.Chuong? {
        assert md[|md| - 1] == Chuong(LastChuong(md));
      } else {
        hide NearestChuong;
        LastChuongMeans(front);
        NearestChuongBelow(front, last, LastChuong(front));
        assert front + [last] == md;
      }
    }
  }
}
