/**
 `make_key` (src/core/redis.py:50-64) with SHA-256 left out: a key is its namespace and the bytes
 that are hashed, so two keys here are equal exactly when the program hashes the same bytes.
 */
module CacheKeys {
  import opened Prelude
  import opened JsonText

  type Key = string

  /** A part is hashed as it is when it is a string, and as JSON otherwise. */
  datatype Part = Str(text: string) | Ids(ids: seq<string>) | Dumped(json: Json)

  function Render(p: Part): string {
    match p
    case Str(text) => text
    case Ids(ids) => JsonList(ids)
    case Dumped(json) => json
  }

  function Preimage(parts: seq<Part>): string {
    if parts == [] then "" else Preimage(parts[..|parts| - 1]) + Render(parts[|parts| - 1]) + ['|']
  }

  function KeyOf(namespace: string, parts: seq<Part>): Key {
    namespace + [':'] + Preimage(parts)
  }

  method MakeKey(namespace: string, parts: seq<Part>) returns (key: Key)
    ensures key == KeyOf(namespace, parts)
  {
    var hashed := "";
    for i := 0 to |parts|
      invariant hashed == Preimage(parts[..i])
    {
      assert parts[..i + 1][..i] == parts[..i];
      hashed := hashed + Render(parts[i]) + ['|'];
    }
    assert parts[..|parts|] == parts;
    key := namespace + [':'] + hashed;
  }

  function RerankKey(model: string, query: string, ids: seq<string>): Key {
    KeyOf("rerank", [Str(model), Str(query), Ids(ids)])
  }

  function EmbeddingKey(model: string, text: string): Key {
    KeyOf("emb", [Str(model), Str(text)])
  }

  /** What goes into the key of a cacheable completion; the temperature is always zero. */
  datatype Parts = Parts(model: string, messages: Json, maxTokens: Option<nat>, format: Json)

  function MaxText(maxTokens: Option<nat>): string {
    if maxTokens.Some? then Decimal(maxTokens.value) else "null"
  }

  /** `{"max": max_tokens, "rf": response_format, "t": 0.0}` with its keys sorted. */
  function OptionsText(maxTokens: Option<nat>, format: Json): string {
    ['{'] + Quote("max") + [':'] + MaxText(maxTokens) + [','] + (Quote("rf") + [':'] + format + OPTIONS_END)
  }

  const OPTIONS_END: string := [','] + Quote("t") + [':'] + "0.0" + ['}']

  function CompletionKey(p: Parts): Key {
    OptionsClosed(p.maxTokens, p.format);
    KeyOf("llm", [Str(p.model), Dumped(p.messages), Dumped(OptionsText(p.maxTokens, p.format))])
  }

  // ---- pieces of strings ---------------------------------------------------

  lemma SameSuffix(x: string, y: string, n: string)
    requires x + n == y + n
    ensures x == y
  {
    assert |x| == |y|;
    assert x == (x + n)[..|x|] && y == (y + n)[..|y|];
  }

  lemma MarkAfter(a: string, mark: char, x: string)
    requires mark !in a
    ensures (a + [mark] + x)[|a|] == mark && forall i :: 0 <= i < |a| ==> (a + [mark] + x)[i] != mark
  {
    forall i | 0 <= i < |a| ensures a[i] != mark {
      assert a[i] in a;
    }
  }

  /** A first part without the mark that ends it can be read off from the front. */
  lemma FirstPart(a: string, x: string, b: string, y: string, mark: char)
    requires mark !in a && mark !in b && a + [mark] + x == b + [mark] + y
    ensures a == b && x == y
  {
    var s := a + [mark] + x;
    MarkAfter(a, mark, x);
    MarkAfter(b, mark, y);
    assert |a| == |b|;
    assert a == s[..|a|] && b == s[..|b|];
    assert x == s[|a| + 1..] && y == s[|b| + 1..];
  }

  lemma Preimage2(p: Part, q: Part)
    ensures Preimage([p, q]) == Render(p) + ['|'] + Render(q) + ['|']
  {
    assert [p, q][..1] == [p] && [p][..0] == [];
    assert Preimage([p]) == Render(p) + ['|'];
  }

  /** A key of three parts: the last one stands behind a separator, and another one ends the key. */
  lemma KeyShape(namespace: string, p: Part, q: Part, r: Part)
    ensures KeyOf(namespace, [p, q, r]) ==
            namespace + [':'] + ((Render(p) + ['|'] + Render(q)) + ['|'] + Render(r) + ['|'])
  {
    assert [p, q, r][..2] == [p, q];
    Preimage2(p, q);
  }

  lemma SameKey(namespace: string, p: Part, q: Part, r: Part, p': Part, q': Part, r': Part)
    requires KeyOf(namespace, [p, q, r]) == KeyOf(namespace, [p', q', r'])
    requires Closed(Render(r)) && Closed(Render(r'))
    ensures Render(p) + ['|'] + Render(q) == Render(p') + ['|'] + Render(q')
    ensures Render(r) == Render(r')
  {
    KeyShape(namespace, p, q, r);
    KeyShape(namespace, p', q', r');
    var x, x' := Render(p) + ['|'] + Render(q), Render(p') + ['|'] + Render(q');
    hide *;
    SamePrefix(namespace + [':'], x + ['|'] + Render(r) + ['|'], x' + ['|'] + Render(r') + ['|']);
    SameSuffix(x + ['|'] + Render(r), x' + ['|'] + Render(r'), ['|']);
    ReadBack(x, Render(r), x', Render(r'));
  }

  // ---- rerank keys ---------------------------------------------------------

  /** Two rerank keys are equal if and only if the ordered ids are equal and model and query, written
      one behind the other with the separator between, are the same string. */
  lemma RerankKeysEqualIff(model: string, query: string, ids: seq<string>,
                           model': string, query': string, ids': seq<string>)
    ensures RerankKey(model, query, ids) == RerankKey(model', query', ids') <==>
            ids == ids' && model + ['|'] + query == model' + ['|'] + query'
  {
    ListClosed(ids);
    ListClosed(ids');
    if RerankKey(model, query, ids) == RerankKey(model', query', ids') {
      SameKey("rerank", Str(model), Str(query), Ids(ids), Str(model'), Str(query'), Ids(ids'));
      ListInjective(ids, ids');
    }
    if ids == ids' && model + ['|'] + query == model' + ['|'] + query' {
      KeyShape("rerank", Str(model), Str(query), Ids(ids));
      KeyShape("rerank", Str(model'), Str(query'), Ids(ids));
    }
  }

  /** Under one model, whatever its name, equal rerank keys mean equal requests. */
  lemma RerankKeyInjective(model: string, query: string, ids: seq<string>, query': string, ids': seq<string>)
    requires RerankKey(model, query, ids) == RerankKey(model, query', ids')
    ensures query == query' && ids == ids'
  {
    RerankKeysEqualIff(model, query, ids, model, query', ids');
    SamePrefix(model + ['|'], query, query');
  }

  /** One model name is the other followed by the separator and any suffix. */
  predicate Continues(model: string, other: string) {
    |model| < |other| && other[..|model|] == model && other[|model|] == '|'
  }

  predicate NamesClash(model: string, other: string) {
    Continues(model, other) || Continues(other, model)
  }

  lemma BarContinues(a: string, x: string, b: string, y: string)
    requires a + ['|'] + x == b + ['|'] + y && |a| < |b|
    ensures Continues(a, b)
  {
    var s := a + ['|'] + x;
    assert b == s[..|b|] && a == s[..|a|] && s[|a|] == '|';
    assert b[..|a|] == s[..|a|] && b[|a|] == s[|a|];
  }

  lemma ContinuesCollides(model: string, other: string, query: string, ids: seq<string>)
    requires Continues(model, other)
    ensures RerankKey(model, other[|model| + 1..] + ['|'] + query, ids) == RerankKey(other, query, ids)
  {
    var rest := other[|model| + 1..];
    assert other == model + ['|'] + rest;
    assert model + ['|'] + (rest + ['|'] + query) == (model + ['|'] + rest) + ['|'] + query;
    RerankKeysEqualIff(model, rest + ['|'] + query, ids, other, query, ids);
  }

  ghost predicate ShareKey(model: string, other: string) {
    exists query, ids, query', ids' :: RerankKey(model, query, ids) == RerankKey(other, query', ids')
  }

  /** Two different models share a rerank key if and only if one name is the other followed by the
      separator and any suffix. */
  lemma ModelsShareKeyIff(model: string, other: string)
    requires model != other
    ensures ShareKey(model, other) <==> NamesClash(model, other)
  {
    if ShareKey(model, other) {
      var query, ids, query', ids' :| RerankKey(model, query, ids) == RerankKey(other, query', ids');
      RerankKeysEqualIff(model, query, ids, other, query', ids');
      SameLengthSameName(model, query, other, query');
      if |model| < |other| {
        BarContinues(model, query, other, query');
      } else {
        BarContinues(other, query', model, query);
      }
    }
    if Continues(model, other) {
      ContinuesCollides(model, other, "", []);
    }
    if Continues(other, model) {
      ContinuesCollides(other, model, "", []);
    }
  }

  lemma SameLengthSameName(a: string, x: string, b: string, y: string)
    requires a + ['|'] + x == b + ['|'] + y
    ensures |a| == |b| ==> a == b
  {
    assert a == (a + ['|'] + x)[..|a|];
    assert |b| <= |a + ['|'] + x| && b == (b + ['|'] + y)[..|b|];
  }

  // ---- embedding keys ------------------------------------------------------

  /** Two embedding keys are equal if and only if model and text, written one behind the other with the
      separator between, are the same string. */
  lemma EmbeddingKeysEqualIff(model: string, t: string, model': string, t': string)
    ensures EmbeddingKey(model, t) == EmbeddingKey(model', t') <==> model + ['|'] + t == model' + ['|'] + t'
  {
    Preimage2(Str(model), Str(t));
    Preimage2(Str(model'), Str(t'));
    var n, a, b := "emb" + [':'], model + ['|'] + t, model' + ['|'] + t';
    assert EmbeddingKey(model, t) == n + (a + ['|']) && EmbeddingKey(model', t') == n + (b + ['|']);
    if EmbeddingKey(model, t) == EmbeddingKey(model', t') {
      SamePrefix(n, a + ['|'], b + ['|']);
      SameSuffix(a, b, ['|']);
    }
  }

  /** The keys of the three caches never meet. */
  lemma CachesApart(model: string, text: string, p: Parts, other: string, query: string, ids: seq<string>)
    ensures EmbeddingKey(model, text) != CompletionKey(p)
    ensures EmbeddingKey(model, text) != RerankKey(other, query, ids)
    ensures CompletionKey(p) != RerankKey(other, query, ids)
  {
    assert EmbeddingKey(model, text)[0] == 'e';
    assert CompletionKey(p)[0] == 'l';
    assert RerankKey(other, query, ids)[0] == 'r';
  }

  /** Under one model, equal embedding keys mean equal texts. */
  lemma EmbeddingKeyInjective(model: string, t: string, t': string)
    requires EmbeddingKey(model, t) == EmbeddingKey(model, t')
    ensures t == t'
  {
    Preimage2(Str(model), Str(t));
    Preimage2(Str(model), Str(t'));
    var n := "emb" + [':'] + (model + ['|']);
    assert EmbeddingKey(model, t) == n + (t + ['|']) && EmbeddingKey(model, t') == n + (t' + ['|']);
    SamePrefix(n, t + ['|'], t' + ['|']);
    SameSuffix(t, t', ['|']);
  }

  // ---- completion keys -----------------------------------------------------

  lemma MaxTextPlain(maxTokens: Option<nat>)
    ensures Plain(MaxText(maxTokens)) && ',' !in MaxText(maxTokens)
  {
    if maxTokens.Some? {
      DecimalDigits(maxTokens.value);
    }
  }

  lemma MaxTextInjective(a: Option<nat>, b: Option<nat>)
    requires MaxText(a) == MaxText(b)
    ensures a == b
  {
    if a.Some? {
      DecimalDigits(a.value);
      ParseDecimal(a.value);
    }
    if b.Some? {
      DecimalDigits(b.value);
      ParseDecimal(b.value);
    }
  }

  lemma OptionsEndClosed()
    ensures Closed(OPTIONS_END)
  {
    PlainClosed([',']);
    QuoteClosed("t");
    ClosedConcat([','], Quote("t"));
    PlainClosed([':']);
    ClosedConcat([','] + Quote("t"), [':']);
    PlainClosed("0.0");
    ClosedConcat([','] + Quote("t") + [':'], "0.0");
    PlainClosed(['}']);
    ClosedConcat([','] + Quote("t") + [':'] + "0.0", ['}']);
  }

  lemma OptionsClosed(maxTokens: Option<nat>, format: Json)
    ensures Closed(OptionsText(maxTokens, format))
  {
    MaxTextPlain(maxTokens);
    PlainClosed(MaxText(maxTokens));
    PlainClosed(['{']);
    PlainClosed([':']);
    PlainClosed([',']);
    QuoteClosed("max");
    QuoteClosed("rf");
    OptionsEndClosed();
    hide MaxText, Quote, Closed, OPTIONS_END;
    ClosedConcat(['{'], Quote("max"));
    ClosedConcat(['{'] + Quote("max"), [':']);
    ClosedConcat(['{'] + Quote("max") + [':'], MaxText(maxTokens));
    ClosedConcat(['{'] + Quote("max") + [':'] + MaxText(maxTokens), [',']);
    ClosedConcat(Quote("rf"), [':']);
    ClosedConcat(Quote("rf") + [':'], format);
    ClosedConcat(Quote("rf") + [':'] + format, OPTIONS_END);
    ClosedConcat(['{'] + Quote("max") + [':'] + MaxText(maxTokens) + [','], Quote("rf") + [':'] + format + OPTIONS_END);
  }

  /** Two fields between fixed strings can be read off when the first one lacks the mark behind it. */
  lemma FieldsInjective(n: string, x: string, mid: string, f: string, end: string, x': string, f': string)
    requires ',' !in x && ',' !in x'
    requires n + x + [','] + (mid + f + end) == n + x' + [','] + (mid + f' + end)
    ensures x == x' && f == f'
  {
    var r, r' := mid + f + end, mid + f' + end;
    assert n + x + [','] + r == n + (x + [','] + r) && n + x' + [','] + r' == n + (x' + [','] + r');
    SamePrefix(n, x + [','] + r, x' + [','] + r');
    FirstPart(x, r, x', r', ',');
    SameSuffix(mid + f, mid + f', end);
    SamePrefix(mid, f, f');
  }

  lemma OptionsInjective(m: Option<nat>, f: Json, m': Option<nat>, f': Json)
    requires OptionsText(m, f) == OptionsText(m', f')
    ensures m == m' && f == f'
  {
    MaxTextPlain(m);
    MaxTextPlain(m');
    hide MaxText, Quote;
    FieldsInjective(['{'] + Quote("max") + [':'], MaxText(m), Quote("rf") + [':'], f, OPTIONS_END, MaxText(m'), f');
    MaxTextInjective(m, m');
  }

  /** Equal completion keys mean equal parts, whatever the model is called. */
  lemma CompletionKeyInjective(p: Parts, q: Parts)
    requires CompletionKey(p) == CompletionKey(q)
    ensures p == q
  {
    OptionsClosed(p.maxTokens, p.format);
    OptionsClosed(q.maxTokens, q.format);
    SameKey("llm", Str(p.model), Dumped(p.messages), Dumped(OptionsText(p.maxTokens, p.format)),
            Str(q.model), Dumped(q.messages), Dumped(OptionsText(q.maxTokens, q.format)));
    ReadBack(p.model, p.messages, q.model, q.messages);
    OptionsInjective(p.maxTokens, p.format, q.maxTokens, q.format);
  }
}
