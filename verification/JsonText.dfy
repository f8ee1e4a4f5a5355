/**
 JSON texts as `orjson.dumps` writes them: strings, lists of strings, and what makes any JSON text
 recognisable inside a longer one. Control characters in strings are written as they are.
 */
module JsonText {

  // ---- strings and lists of strings ----------------------------------------

  function EscapeChar(c: char): string {
    if c == '"' then ['\\', '"'] else if c == '\\' then ['\\', '\\'] else [c]
  }

  function Escape(s: string): string {
    if s == "" then "" else EscapeChar(s[0]) + Escape(s[1..])
  }

  function Quote(s: string): string {
    ['"'] + Escape(s) + ['"']
  }

  function Items(ids: seq<string>): string {
    if ids == [] then ""
    else if |ids| == 1 then Quote(ids[0])
    else Quote(ids[0]) + [','] + Items(ids[1..])
  }

  /** `orjson.dumps` of a list of strings. */
  function JsonList(ids: seq<string>): string {
    ['['] + Items(ids) + [']']
  }

  // ---- scanning ------------------------------------------------------------

  /** Where a reader of JSON stands. Outside its strings a JSON text has neither a backslash nor the
      separator of the cache keys. */
  datatype Mode = Outside | Inside | Escaped | Broken

  function Step(m: Mode, c: char): Mode {
    match m
    case Outside => if c == '"' then Inside else if c == '\\' || c == '|' then Broken else Outside
    case Inside => if c == '"' then Outside else if c == '\\' then Escaped else Inside
    case Escaped => Inside
    case Broken => Broken
  }

  function Scan(m: Mode, s: string): Mode
    decreases |s|
  {
    if s == "" then m else Scan(Step(m, s[0]), s[1..])
  }

  /** Every string of the text is closed, and the separator occurs in strings only. */
  predicate Closed(s: string) {
    Scan(Outside, s) == Outside
  }

  type Json = s: string | Closed(s) witness ""

  lemma {:induction false} ScanConcat(m: Mode, a: string, b: string)
    ensures Scan(m, a + b) == Scan(Scan(m, a), b)
    decreases |a|
  {
    if a == "" {
      assert a + b == b;
    } else {
      assert (a + b)[1..] == a[1..] + b;
      ScanConcat(Step(m, a[0]), a[1..], b);
    }
  }

  lemma ScanOne(m: Mode, c: char)
    ensures Scan(m, [c]) == Step(m, c)
  {
    assert [c][1..] == "";
  }

  lemma {:induction false} BrokenStays(s: string)
    ensures Scan(Broken, s) == Broken
  {
    if s != "" {
      BrokenStays(s[1..]);
    }
  }

  /** No text is closed both when its reader starts outside and when it starts inside a string: the
      two readers stay on opposite sides as long as neither meets a backslash, and one that meets a
      backslash outside is broken. */
  lemma {:induction false} NotBoth(s: string)
    ensures Scan(Outside, s) != Outside || Scan(Inside, s) != Outside
  {
    if s != "" {
      NotBoth(s[1..]);
      BrokenStays(s[1..]);
    }
  }

  /** A closed text does not end in a closed text behind a separator. */
  lemma NoEarlierBar(t: string, k: string)
    requires Closed(k)
    ensures !Closed(t + ['|'] + k)
  {
    ScanConcat(Outside, t + ['|'], k);
    ScanConcat(Outside, t, ['|']);
    ScanOne(Scan(Outside, t), '|');
    BrokenStays(k);
    NotBoth(k);
  }

  lemma SplitAfter(x: string, j: string, y: string, k: string)
    requires x + ['|'] + j == y + ['|'] + k && |x| < |y|
    ensures j == y[|x| + 1..] + ['|'] + k
  {
    var s := x + ['|'] + j;
    assert j == s[|x| + 1..];
    assert (y + ['|'] + k)[|x| + 1..] == y[|x| + 1..] + ['|'] + k;
  }

  /** A closed text behind a separator can be read off from the back, whatever stands before it. */
  lemma ReadBack(x: string, j: string, y: string, k: string)
    requires x + ['|'] + j == y + ['|'] + k && Closed(j) && Closed(k)
    ensures x == y && j == k
  {
    if |x| < |y| {
      SplitAfter(x, j, y, k);
      NoEarlierBar(y[|x| + 1..], k);
    } else if |y| < |x| {
      SplitAfter(y, k, x, j);
      NoEarlierBar(x[|y| + 1..], j);
    } else {
      var s := x + ['|'] + j;
      assert x == s[..|x|] && y == s[..|x|];
      assert j == s[|x| + 1..] && k == s[|x| + 1..];
    }
  }

  // ---- what is closed ------------------------------------------------------

  lemma {:induction false} EscapeInside(s: string)
    ensures Scan(Inside, Escape(s)) == Inside
  {
    if s != "" {
      EscapeInside(s[1..]);
      ScanConcat(Inside, EscapeChar(s[0]), Escape(s[1..]));
      ScanOne(Inside, s[0]);
      var e := EscapeChar(s[0]);
      if |e| == 2 {
        assert e == [e[0]] + [e[1]];
        ScanConcat(Inside, [e[0]], [e[1]]);
        ScanOne(Inside, e[0]);
        ScanOne(Escaped, e[1]);
      }
    }
  }

  lemma QuoteClosed(s: string)
    ensures Closed(Quote(s))
  {
    EscapeInside(s);
    ScanConcat(Outside, ['"'], Escape(s));
    ScanConcat(Outside, ['"'] + Escape(s), ['"']);
    ScanOne(Outside, '"');
    ScanOne(Inside, '"');
  }

  lemma ClosedConcat(a: string, b: string)
    requires Closed(a) && Closed(b)
    ensures Closed(a + b)
  {
    ScanConcat(Outside, a, b);
  }

  /** No quotation mark, no backslash, no separator. */
  predicate Plain(s: string) {
    forall i :: 0 <= i < |s| ==> s[i] != '"' && s[i] != '\\' && s[i] != '|'
  }

  lemma {:induction false} PlainClosed(s: string)
    requires Plain(s)
    ensures Closed(s)
  {
    if s != "" {
      PlainClosed(s[1..]);
    }
  }

  lemma {:induction false} ItemsClosed(ids: seq<string>)
    ensures Closed(Items(ids))
  {
    if ids != [] {
      QuoteClosed(ids[0]);
      if |ids| > 1 {
        ItemsClosed(ids[1..]);
        PlainClosed([',']);
        ClosedConcat(Quote(ids[0]), [',']);
        ClosedConcat(Quote(ids[0]) + [','], Items(ids[1..]));
      }
    }
  }

  lemma ListClosed(ids: seq<string>)
    ensures Closed(JsonList(ids))
  {
    ItemsClosed(ids);
    PlainClosed(['[']);
    PlainClosed([']']);
    ClosedConcat(['['], Items(ids));
    ClosedConcat(['['] + Items(ids), [']']);
  }

  // ---- JSON can be read back -----------------------------------------------

  lemma EscapedCharEnds(c: char, x: string, d: char, y: string)
    requires EscapeChar(c) + x == EscapeChar(d) + y
    ensures c == d && x == y
  {
    var u, v := EscapeChar(c) + x, EscapeChar(d) + y;
    assert u[0] == EscapeChar(c)[0] && v[0] == EscapeChar(d)[0];
    assert |EscapeChar(c)| > 1 ==> u[1] == EscapeChar(c)[1];
    assert |EscapeChar(d)| > 1 ==> v[1] == EscapeChar(d)[1];
    assert c == d;
    assert x == u[|EscapeChar(c)|..] && y == v[|EscapeChar(d)|..];
  }

  lemma MoveQuote(x: string, y: string, r: string)
    ensures (x + y) + ['"'] + r == x + (y + ['"'] + r)
  {
  }

  lemma EscapeStep(a: string, r: string)
    ensures a != "" ==> Escape(a) + ['"'] + r == EscapeChar(a[0]) + (Escape(a[1..]) + ['"'] + r)
    ensures (Escape(a) + ['"'] + r)[0] == '"' <==> a == ""
  {
    if a != "" {
      MoveQuote(EscapeChar(a[0]), Escape(a[1..]), r);
      assert (EscapeChar(a[0]) + (Escape(a[1..]) + ['"'] + r))[0] == EscapeChar(a[0])[0];
    }
  }

  lemma {:induction false} EscapedEnds(a: string, r: string, b: string, s: string)
    requires Escape(a) + ['"'] + r == Escape(b) + ['"'] + s
    ensures a == b && r == s
  {
    var u, v := Escape(a) + ['"'] + r, Escape(b) + ['"'] + s;
    EscapeStep(a, r);
    EscapeStep(b, s);
    if a == "" {
      assert r == u[1..] && s == v[1..];
    } else {
      EscapedCharEnds(a[0], Escape(a[1..]) + ['"'] + r, b[0], Escape(b[1..]) + ['"'] + s);
      EscapedEnds(a[1..], r, b[1..], s);
      assert a == [a[0]] + a[1..] && b == [b[0]] + b[1..];
    }
  }

  lemma QuotedEnds(a: string, r: string, b: string, s: string)
    requires Quote(a) + r == Quote(b) + s
    ensures a == b && r == s
  {
    var u, v := Quote(a) + r, Quote(b) + s;
    assert u[1..] == Escape(a) + ['"'] + r && v[1..] == Escape(b) + ['"'] + s;
    EscapedEnds(a, r, b, s);
  }

  /** What follows the first item of a list. */
  function Tail(ids: seq<string>): string
    requires ids != []
  {
    if |ids| == 1 then "" else [','] + Items(ids[1..])
  }

  lemma ItemsHead(ids: seq<string>)
    requires ids != []
    ensures Items(ids) == Quote(ids[0]) + Tail(ids)
  {
    if |ids| == 1 {
      assert Quote(ids[0]) + "" == Quote(ids[0]);
    } else {
      assert Quote(ids[0]) + [','] + Items(ids[1..]) == Quote(ids[0]) + ([','] + Items(ids[1..]));
    }
  }

  lemma TailItems(ids: seq<string>)
    requires |ids| > 1
    ensures Tail(ids) != "" && Tail(ids)[1..] == Items(ids[1..])
  {
  }

  lemma TailEmpty(ids: seq<string>)
    requires ids != []
    ensures |ids| > 1 <==> Tail(ids) != ""
  {
  }

  lemma SameHeadAndTail(xs: seq<string>, ys: seq<string>)
    requires xs != [] && ys != [] && xs[0] == ys[0] && xs[1..] == ys[1..]
    ensures xs == ys
  {
    assert xs == [xs[0]] + xs[1..] && ys == [ys[0]] + ys[1..];
  }

  lemma {:induction false} ItemsInjective(xs: seq<string>, ys: seq<string>)
    requires Items(xs) == Items(ys)
    ensures xs == ys
  {
    if xs != [] && ys != [] {
      hide Items, Quote, Tail;
      ItemsHead(xs);
      ItemsHead(ys);
      QuotedEnds(xs[0], Tail(xs), ys[0], Tail(ys));
      assert |xs| > 1 <==> Tail(xs) != "" by { TailEmpty(xs); }
      assert |ys| > 1 <==> Tail(ys) != "" by { TailEmpty(ys); }
      if |xs| > 1 && |ys| > 1 {
        TailItems(xs);
        TailItems(ys);
        ItemsInjective(xs[1..], ys[1..]);
      }
      SameHeadAndTail(xs, ys);
    } else if xs != [] {
      ItemsHead(xs);
    } else if ys != [] {
      ItemsHead(ys);
    }
  }

  /** The text of a list determines the list. */
  lemma ListInjective(xs: seq<string>, ys: seq<string>)
    requires JsonList(xs) == JsonList(ys)
    ensures xs == ys
  {
    assert JsonList(xs)[1..|JsonList(xs)| - 1] == Items(xs);
    assert JsonList(ys)[1..|JsonList(ys)| - 1] == Items(ys);
    ItemsInjective(xs, ys);
  }

  // ---- numbers -------------------------------------------------------------

  function Digit(d: nat): char
    requires d < 10
  {
    ['0', '1', '2', '3', '4', '5', '6', '7', '8', '9'][d]
  }

  function DigitValue(c: char): nat {
    if '0' <= c <= '9' then c as nat - '0' as nat else 0
  }

  /** `str(k)`. */
  function Decimal(k: nat): string {
    if k < 10 then [Digit(k)] else Decimal(k / 10) + [Digit(k % 10)]
  }

  /** `int(s)`. */
  function Parse(s: string): nat {
    if s == "" then 0 else Parse(s[..|s| - 1]) * 10 + DigitValue(s[|s| - 1])
  }

  lemma {:induction false} ParseDecimal(k: nat)
    ensures Parse(Decimal(k)) == k
  {
    if k < 10 {
      assert Decimal(k)[..0] == "";
      assert Parse("") == 0;
    } else {
      ParseDecimal(k / 10);
      assert Decimal(k)[..|Decimal(k)| - 1] == Decimal(k / 10);
    }
  }

  lemma {:induction false} DecimalDigits(k: nat)
    ensures Decimal(k) != "" && forall i :: 0 <= i < |Decimal(k)| ==> '0' <= Decimal(k)[i] <= '9'
  {
    if k >= 10 {
      DecimalDigits(k / 10);
    }
  }
}
