/**
 The rerankers and their score cache (src/retrieval/rerank.py:64-213).
 */
module Rerank {
  import opened Prelude
  import opened Ranking
  import opened Retrieval
  import opened CacheKeys
  import opened JsonText

  datatype Result = Result(hit: Hit, score: real)

  /** One entry of a reranker's reply; an entry without usable fields is malformed. */
  datatype Item = Item(index: int, score: real) | Malformed

  type ScoreMap = map<nat, real>

  // ---- scores of a reply ---------------------------------------------------

  /** The score map that the loop over a reply builds, entry by entry. */
  function ScoresOf(items: seq<Item>, n: nat): (m: ScoreMap)
    ensures forall k :: k in m ==> k < n
  {
    if items == [] then map[]
    else
      var m := ScoresOf(items[..|items| - 1], n);
      var r := items[|items| - 1];
      if r.Item? && 0 <= r.index < n then m[r.index := r.score] else m
  }

  /** The entry gives a score for candidate `k`. */
  predicate ScoresFor(item: Item, k: nat) {
    item.Item? && item.index == k
  }

  /** Entry `i` is the last one that gives a score for candidate `k`. */
  ghost predicate LastFor(items: seq<Item>, i: nat, k: nat) {
    i < |items| && ScoresFor(items[i], k) && forall j :: i < j < |items| ==> !ScoresFor(items[j], k)
  }

  /** A candidate below `n` has a score if and only if some entry gives one, and it is the score of the
      last such entry. */
  ghost predicate LastUsable(items: seq<Item>, n: nat, m: ScoreMap) {
    && (forall k: nat :: k in m <==> k < n && exists i :: 0 <= i < |items| && ScoresFor(items[i], k))
    && (forall i: nat, k: nat :: k in m && LastFor(items, i, k) ==> m[k] == items[i].score)
  }

  lemma {:induction false} ScoresAreLast(items: seq<Item>, n: nat)
    ensures LastUsable(items, n, ScoresOf(items, n))
  {
    if items != [] {
      var front, last := items[..|items| - 1], items[|items| - 1];
      ScoresAreLast(front, n);
      assert items == front + [last];
      var before, m := ScoresOf(front, n), ScoresOf(items, n);
      forall k: nat ensures k in m <==> k < n && exists i :: 0 <= i < |items| && ScoresFor(items[i], k) {
        if k in before {
          var i :| 0 <= i < |front| && ScoresFor(front[i], k);
          assert ScoresFor(items[i], k);
        }
        if k in m && k !in before {
          assert ScoresFor(items[|front|], k);
        }
        if i :| 0 <= i < |items| && ScoresFor(items[i], k) {
          assert i < |front| ==> ScoresFor(front[i], k);
        }
      }
      forall i: nat, k: nat | k in m && LastFor(items, i, k) ensures m[k] == items[i].score {
        if i < |front| {
          assert !ScoresFor(items[|front|], k);
          assert LastFor(front, i, k) by {
            assert forall j :: i < j < |front| ==> items[j] == front[j] && !ScoresFor(items[j], k);
          }
        }
      }
    }
  }

  /** Lines 111-119: each usable entry is entered in the map, so later ones overwrite earlier ones. */
  method CollectScores(items: seq<Item>, n: nat) returns (m: ScoreMap)
    ensures m == ScoresOf(items, n)
    ensures LastUsable(items, n, m)
  {
    m := map[];
    for i := 0 to |items|
      invariant m == ScoresOf(items[..i], n)
    {
      assert items[..i + 1][..i] == items[..i];
      match items[i] {
        case Item(index, score) =>
          if 0 <= index < n {
            m := m[index := score];
          }
        case Malformed =>
      }
    }
    assert items[..|items|] == items;
    ScoresAreLast(items, n);
  }

  // ---- materialise ---------------------------------------------------------

  /** A hit the reranker left out keeps half its dense score. */
  function Effective(h: Hit, i: nat, m: ScoreMap): real {
    if i in m then m[i] else h.score * 0.5
  }

  function EffectiveScores(hits: seq<Hit>, m: ScoreMap): (scores: seq<real>)
    ensures |scores| == |hits|
    ensures forall i :: 0 <= i < |hits| ==> scores[i] == Effective(hits[i], i, m)
  {
    seq(|hits|, i requires 0 <= i < |hits| => Effective(hits[i], i, m))
  }

  function Scored(hits: seq<Hit>, m: ScoreMap): (out: seq<Result>)
    ensures |out| == |hits|
    ensures forall i :: 0 <= i < |hits| ==> out[i] == Result(hits[i], Effective(hits[i], i, m))
  {
    seq(|hits|, i requires 0 <= i < |hits| => Result(hits[i], Effective(hits[i], i, m)))
  }

  function Materialized(hits: seq<Hit>, m: ScoreMap, topK: int): seq<Result> {
    Slice(Pick(Scored(hits, m), Rank(EffectiveScores(hits, m))), topK)
  }

  /** `_materialize`: append in order, sort in place, cut. */
  method Materialize(hits: seq<Hit>, m: ScoreMap, topK: int) returns (r: seq<Result>)
    ensures r == Materialized(hits, m, topK)
  {
    var out: seq<Result> := [];
    for i := 0 to |hits|
      invariant out == Scored(hits, m)[..i]
    {
      if i in m {
        out := out + [Result(hits[i], m[i])];
      } else {
        out := out + [Result(hits[i], hits[i].score * 0.5)];
      }
    }
    out := Pick(out, Rank(EffectiveScores(hits, m)));
    r := Slice(out, topK);
  }

  /** `r` is the stable descending top of the hits under the scores of `m`, half the dense score where
      there is none, cut as Python cuts: `at` says which hits, each at most once, and every hit left out comes
      after every hit kept. */
  ghost predicate IsTop(hits: seq<Hit>, m: ScoreMap, topK: int, r: seq<Result>, at: seq<nat>) {
    && |at| == |r| == (if topK >= |hits| then |hits|
                       else if topK >= 0 then topK
                       else if |hits| + topK >= 0 then |hits| + topK else 0)
    && Distinct(at)
    && (forall i :: 0 <= i < |at| ==>
          at[i] < |hits| &&
          r[i] == Result(hits[at[i]], if at[i] in m then m[at[i]] else hits[at[i]].score * 0.5))
    && (forall i, j :: 0 <= i < j < |at| ==> r[i].score > r[j].score || (r[i].score == r[j].score && at[i] < at[j]))
    && (forall i, k :: 0 <= i < |at| && 0 <= k < |hits| && k !in at ==>
          var left := if k in m then m[k] else hits[k].score * 0.5;
          r[i].score > left || (r[i].score == left && at[i] < k))
  }

  /** The positions behind the cut come after those before it. */
  lemma CutBehind(scores: seq<real>, ranked: seq<nat>, n: nat, i: nat, k: nat)
    requires Positions(ranked, |scores|) && n <= |ranked| && Ordered(scores, ranked)
    requires i < n && k < |scores| && k !in ranked[..n]
    ensures Before(scores, ranked[i], k)
  {
    assert k in ranked;
    var j :| 0 <= j < |ranked| && ranked[j] == k;
    assert forall x :: 0 <= x < n ==> ranked[x] == ranked[..n][x] && ranked[x] in ranked[..n];
    assert n <= j;
  }

  lemma CutLength(n: nat, topK: int, r: seq<Result>, all: seq<Result>)
    requires |all| == n && r == Slice(all, topK)
    ensures |r| == if topK >= n then n else if topK >= 0 then topK else if n + topK >= 0 then n + topK else 0
    ensures r <= all
  {
  }

  lemma KeptInOrder(scores: seq<real>, ranked: seq<nat>, n: nat, r: seq<Result>)
    requires Positions(ranked, |scores|) && Ordered(scores, ranked) && n <= |ranked| && |r| == n
    requires forall i :: 0 <= i < n ==> r[i].score == scores[ranked[i]]
    ensures Distinct(ranked[..n])
    ensures forall i, j :: 0 <= i < j < n ==>
              r[i].score > r[j].score || (r[i].score == r[j].score && ranked[..n][i] < ranked[..n][j])
    ensures forall i, k :: 0 <= i < n && 0 <= k < |scores| && k !in ranked[..n] ==>
              r[i].score > scores[k] || (r[i].score == scores[k] && ranked[..n][i] < k)
  {
    forall i, j | 0 <= i < j < n
      ensures r[i].score > r[j].score || (r[i].score == r[j].score && ranked[..n][i] < ranked[..n][j])
    {
      assert Before(scores, ranked[i], ranked[j]);
    }
    forall i, k: nat | 0 <= i < n && k < |scores| && k !in ranked[..n]
      ensures r[i].score > scores[k] || (r[i].score == scores[k] && ranked[..n][i] < k)
    {
      CutBehind(scores, ranked, n, i, k);
    }
  }

  lemma TopOfRanking(hits: seq<Hit>, m: ScoreMap, topK: int, scores: seq<real>, at: seq<nat>, r: seq<Result>)
    requires |scores| == |hits| && |at| == |r| && Distinct(at)
    requires forall i :: 0 <= i < |hits| ==> scores[i] == if i in m then m[i] else hits[i].score * 0.5
    requires |r| == (if topK >= |hits| then |hits|
                     else if topK >= 0 then topK
                     else if |hits| + topK >= 0 then |hits| + topK else 0)
    requires forall i :: 0 <= i < |r| ==> at[i] < |hits| && r[i] == Result(hits[at[i]], scores[at[i]])
    requires forall i, j :: 0 <= i < j < |r| ==>
               r[i].score > r[j].score || (r[i].score == r[j].score && at[i] < at[j])
    requires forall i, k :: 0 <= i < |r| && 0 <= k < |scores| && k !in at ==>
               r[i].score > scores[k] || (r[i].score == scores[k] && at[i] < k)
    ensures IsTop(hits, m, topK, r, at)
  {
  }

  /** The reranked answer is the stable descending top of the pool. */
  lemma MaterializedIsTop(hits: seq<Hit>, m: ScoreMap, topK: int)
    ensures exists at :: IsTop(hits, m, topK, Materialized(hits, m, topK), at)
  {
    var scores := EffectiveScores(hits, m);
    var ranked, r := Rank(scores), Materialized(hits, m, topK);
    RankIsRanking(scores);
    CutLength(|hits|, topK, r, Pick(Scored(hits, m), ranked));
    assert forall i :: 0 <= i < |hits| ==> scores[i] == if i in m then m[i] else hits[i].score * 0.5;
    hide *;
    assert forall i :: 0 <= i < |r| ==> r[i] == Result(hits[ranked[i]], scores[ranked[i]]);
    KeptInOrder(scores, ranked, |r|, r);
    TopOfRanking(hits, m, topK, scores, ranked[..|r|], r);
  }

  // ---- the cached form of a score map --------------------------------------

  /** A JSON object: its members in order. */
  type Object<V> = seq<(string, V)>

  type ScoreObject = Object<real>

  /** `{str(k): v ...}`, for keys below `n`. */
  function Encode<V>(m: map<nat, V>, n: nat): Object<V> {
    if n == 0 then [] else Encode(m, n - 1) + if n - 1 in m then [(Decimal(n - 1), m[n - 1])] else []
  }

  /** `{int(k): v ...}`. */
  function Decode<V>(j: Object<V>): map<nat, V> {
    if j == [] then map[] else Decode(j[..|j| - 1])[Parse(j[|j| - 1].0) := j[|j| - 1].1]
  }

  lemma {:induction false} DecodeUpTo<V>(m: map<nat, V>, n: nat)
    ensures Decode(Encode(m, n)) == map k | k in m && k < n :: m[k]
  {
    if n > 0 {
      DecodeUpTo(m, n - 1);
      if n - 1 in m {
        ParseDecimal(n - 1);
        var front, last := Encode(m, n - 1), (Decimal(n - 1), m[n - 1]);
        assert (front + [last])[..|front|] == front;
      } else {
        assert Encode(m, n) == Encode(m, n - 1);
      }
    }
  }

  /** The whole map survives the round trip through string keys. */
  lemma KeysRoundTrip<V>(m: map<nat, V>, n: nat)
    requires forall k :: k in m ==> k < n
    ensures Decode(Encode(m, n)) == m
    ensures m != map[] ==> Encode(m, n) != []
  {
    DecodeUpTo(m, n);
    assert (map k | k in m && k < n :: m[k]) == m;
  }

  /** A float; `json.loads` also reads infinities and NaN. */
  datatype Number = Finite(value: real) | NotFinite

  /** `orjson` writes a float that is not finite as `null`. */
  function Written(m: map<nat, Number>): map<nat, Option<real>> {
    map k | k in m :: if m[k].Finite? then Some(m[k].value) else None
  }

  /** `{int(k): float(v) ...}`, which raises at `float(None)`. */
  function ReadScores(j: Object<Option<real>>): Option<map<nat, Number>> {
    if exists i :: 0 <= i < |j| && j[i].1 == None then None
    else Some(map k | k in Decode(j) && Decode(j)[k].Some? :: Finite(Decode(j)[k].value))
  }

  lemma {:induction false} EncodedMember<V>(m: map<nat, V>, n: nat, i: nat)
    requires i < |Encode(m, n)|
    ensures exists k :: k in m && k < n && Encode(m, n)[i].1 == m[k]
  {
    if n > 0 && i < |Encode(m, n - 1)| {
      EncodedMember(m, n - 1, i);
    } else {
      assert n - 1 in m;
    }
  }

  lemma {:induction false} MemberEncoded<V>(m: map<nat, V>, n: nat, k: nat)
    requires k in m && k < n
    ensures exists i :: 0 <= i < |Encode(m, n)| && Encode(m, n)[i].1 == m[k]
  {
    if k < n - 1 {
      MemberEncoded(m, n - 1, k);
      var i :| 0 <= i < |Encode(m, n - 1)| && Encode(m, n - 1)[i].1 == m[k];
      assert Encode(m, n)[i] == Encode(m, n - 1)[i];
    } else {
      assert Encode(m, n)[|Encode(m, n - 1)|].1 == m[k];
    }
  }

  /** The cached scores are read back as they were if and only if all of them are finite; otherwise
      every read raises. */
  lemma ScoresRoundTripIff(m: map<nat, Number>, n: nat)
    requires forall k :: k in m ==> k < n
    ensures var back := ReadScores(Encode(Written(m), n));
            && (back == Some(m) <==> forall k :: k in m ==> m[k].Finite?)
            && (back == None <==> exists k :: k in m && m[k].NotFinite?)
  {
    var j := Encode(Written(m), n);
    KeysRoundTrip(Written(m), n);
    if k :| k in m && m[k].NotFinite? {
      MemberEncoded(Written(m), n, k);
    } else {
      forall i | 0 <= i < |j| ensures j[i].1 != None {
        EncodedMember(Written(m), n, i);
      }
      assert ReadScores(j).Some?;
      assert ReadScores(j).value == m;
    }
  }

  // ---- candidates and their texts ------------------------------------------

  const DOC_MAX_CHARS: nat := 2000
  const PROMPT_MAX_CHARS: nat := 500

  /** What the vector store keeps with a point. A point is written once and never changed. */
  datatype Payload = Payload(heading: Option<string>, docTitle: string, text: string)

  type Store = string -> Payload

  function PayloadOf(h: Hit): (p: Payload)
    ensures p.heading == h.heading && p.docTitle == h.docTitle && p.text == h.text
  {
    Payload(h.heading, h.docTitle, h.text)
  }

  /** An empty heading path counts as none. */
  function TitleOf(p: Payload): (title: string)
    ensures title == p.docTitle || (p.heading == Some(title) && title != "")
    ensures p.heading.Some? && p.heading.value != "" ==> title == p.heading.value
  {
    if p.heading.Some? && p.heading.value != "" then p.heading.value else p.docTitle
  }

  /** The text that is sent to Cohere for a candidate: title, line break, text, cut at 2000 characters. */
  function DocText(p: Payload): (doc: string)
    ensures doc <= TitleOf(p) + "\n" + p.text
    ensures |doc| == if |TitleOf(p)| + 1 + |p.text| <= 2000 then |TitleOf(p)| + 1 + |p.text| else 2000
  {
    Slice(TitleOf(p) + ['\n'] + p.text, DOC_MAX_CHARS)
  }

  /** The text that the prompt of the language model shows for a candidate: the title, and the text cut at
      500 characters. */
  function PromptText(p: Payload): (prompt: string)
    ensures TitleOf(p) + "\n" <= prompt <= TitleOf(p) + "\n" + p.text
    ensures |prompt| == |TitleOf(p)| + 1 + if |p.text| <= 500 then |p.text| else 500
  {
    TitleOf(p) + ['\n'] + Slice(p.text, PROMPT_MAX_CHARS)
  }

  function IdsOf(hits: seq<Hit>): (ids: seq<string>)
    ensures |ids| == |hits| && forall i :: 0 <= i < |ids| ==> ids[i] == hits[i].pointId
  {
    seq(|hits|, i requires 0 <= i < |hits| => hits[i].pointId)
  }

  function PayloadsOf(hits: seq<Hit>): (ps: seq<Payload>)
    ensures |ps| == |hits| && forall i :: 0 <= i < |ps| ==> ps[i] == PayloadOf(hits[i])
  {
    seq(|hits|, i requires 0 <= i < |hits| => PayloadOf(hits[i]))
  }

  function PayloadsAt(store: Store, ids: seq<string>): (ps: seq<Payload>)
    ensures |ps| == |ids| && forall i :: 0 <= i < |ps| ==> ps[i] == store(ids[i])
  {
    seq(|ids|, i requires 0 <= i < |ids| => store(ids[i]))
  }

  function DocTexts(ps: seq<Payload>): (docs: seq<string>)
    ensures |docs| == |ps| && forall i :: 0 <= i < |docs| ==> docs[i] == DocText(ps[i])
  {
    seq(|ps|, i requires 0 <= i < |ps| => DocText(ps[i]))
  }

  function PromptTexts(ps: seq<Payload>): (prompts: seq<string>)
    ensures |prompts| == |ps| && forall i :: 0 <= i < |prompts| ==> prompts[i] == PromptText(ps[i])
  {
    seq(|ps|, i requires 0 <= i < |ps| => PromptText(ps[i]))
  }

  /** The hits carry what is stored with their points. */
  ghost predicate Stored(store: Store, hits: seq<Hit>) {
    forall i :: 0 <= i < |hits| ==> PayloadOf(hits[i]) == store(hits[i].pointId)
  }

  lemma StoredPayloads(store: Store, hits: seq<Hit>)
    requires Stored(store, hits)
    ensures PayloadsOf(hits) == PayloadsAt(store, IdsOf(hits))
  {
  }

  // ---- what the scorers say ------------------------------------------------

  /** The reply of Cohere to a query and documents. */
  type Cohere = (string, seq<string>) -> seq<Item>

  /** The reply of the language model to a query and candidate texts; its prompt also names the cut. */
  type Llm = (string, seq<string>, int) -> seq<Item>

  function CohereScores(cohere: Cohere, query: string, ps: seq<Payload>): ScoreMap {
    ScoresOf(cohere(query, DocTexts(ps)), |ps|)
  }

  function LlmScores(llm: Llm, query: string, ps: seq<Payload>, topK: int): ScoreMap {
    ScoresOf(llm(query, PromptTexts(ps), topK), |ps|)
  }

  /** Reranking with Cohere and no cache. */
  function Uncached(cohere: Cohere, query: string, hits: seq<Hit>, topK: int): seq<Result> {
    if hits == [] then []
    else if |hits| == 1 then [Result(hits[0], hits[0].score)]
    else Materialized(hits, CohereScores(cohere, query, PayloadsOf(hits)), topK)
  }

  /** Reranking with the language model and no cache. */
  function LlmUncached(llm: Llm, query: string, hits: seq<Hit>, topK: int): seq<Result> {
    if hits == [] then []
    else if |hits| == 1 then [Result(hits[0], hits[0].score)]
    else Materialized(hits, LlmScores(llm, query, PayloadsOf(hits), topK), topK)
  }

  /** Reranking in plain terms: nothing for nothing, a single hit with its dense score, and otherwise the
      stable descending top under the scorer's last usable score of each candidate. */
  ghost predicate IsRanked(hits: seq<Hit>, items: seq<Item>, topK: int, r: seq<Result>) {
    if hits == [] then r == []
    else if |hits| == 1 then r == [Result(hits[0], hits[0].score)]
    else exists m, at :: LastUsable(items, |hits|, m) && IsTop(hits, m, topK, r, at)
  }

  lemma UncachedIsRanked(cohere: Cohere, query: string, hits: seq<Hit>, topK: int)
    ensures IsRanked(hits, cohere(query, DocTexts(PayloadsOf(hits))), topK, Uncached(cohere, query, hits, topK))
  {
    var items := cohere(query, DocTexts(PayloadsOf(hits)));
    MaterializedAnswer(hits, items, topK);
    hide IsTop, LastUsable, Materialized, ScoresOf;
  }

  lemma LlmUncachedIsRanked(llm: Llm, query: string, hits: seq<Hit>, topK: int)
    ensures IsRanked(hits, llm(query, PromptTexts(PayloadsOf(hits)), topK), topK, LlmUncached(llm, query, hits, topK))
  {
    var items := llm(query, PromptTexts(PayloadsOf(hits)), topK);
    MaterializedAnswer(hits, items, topK);
    hide IsTop, LastUsable, Materialized, ScoresOf;
  }

  lemma MaterializedAnswer(hits: seq<Hit>, items: seq<Item>, topK: int)
    ensures exists m, at :: LastUsable(items, |hits|, m) &&
                            IsTop(hits, m, topK, Materialized(hits, ScoresOf(items, |hits|), topK), at)
  {
    ScoresAreLast(items, |hits|);
    MaterializedIsTop(hits, ScoresOf(items, |hits|), topK);
  }

  // ---- what the cache says -------------------------------------------------

  /** Every list cached under a Cohere key is the whole score map of that very request. */
  ghost predicate Coherent(model: string, cohere: Cohere, store: Store, cache: map<Key, ScoreObject>) {
    forall query: string, ids: seq<string> :: RerankKey(model, query, ids) in cache ==>
      Faithful(cohere, store, query, ids, cache[RerankKey(model, query, ids)])
  }

  ghost predicate Faithful(cohere: Cohere, store: Store, query: string, ids: seq<string>, j: ScoreObject) {
    Decode(j) == CohereScores(cohere, query, PayloadsAt(store, ids))
  }

  /** The scores are the language model's for this query and these candidates, under some cut: the
      key leaves the cut out. */
  ghost predicate LlmSaid(llm: Llm, store: Store, query: string, ids: seq<string>, m: ScoreMap) {
    exists topK :: m == LlmScores(llm, query, PayloadsAt(store, ids), topK)
  }

  ghost predicate LlmSound(model: string, llm: Llm, store: Store, cache: map<Key, ScoreObject>) {
    forall query: string, ids: seq<string> :: RerankKey(model, query, ids) in cache ==>
      LlmSaid(llm, store, query, ids, Decode(cache[RerankKey(model, query, ids)]))
  }

  lemma StoreKeepsCoherent(model: string, cohere: Cohere, store: Store, cache: map<Key, ScoreObject>,
                           query: string, ids: seq<string>, j: ScoreObject)
    requires Coherent(model, cohere, store, cache) && Faithful(cohere, store, query, ids, j)
    ensures Coherent(model, cohere, store, cache[RerankKey(model, query, ids) := j])
  {
    var k := RerankKey(model, query, ids);
    forall q: string, i: seq<string> | RerankKey(model, q, i) in cache[k := j]
      ensures Faithful(cohere, store, q, i, cache[k := j][RerankKey(model, q, i)])
    {
      if RerankKey(model, q, i) == k {
        RerankKeyInjective(model, q, i, query, ids);
      }
    }
  }

  lemma StoreKeepsLlmSound(model: string, llm: Llm, store: Store, cache: map<Key, ScoreObject>,
                           query: string, ids: seq<string>, j: ScoreObject)
    requires LlmSound(model, llm, store, cache) && LlmSaid(llm, store, query, ids, Decode(j))
    ensures LlmSound(model, llm, store, cache[RerankKey(model, query, ids) := j])
  {
    var k := RerankKey(model, query, ids);
    forall q: string, i: seq<string> | RerankKey(model, q, i) in cache[k := j]
      ensures LlmSaid(llm, store, q, i, Decode(cache[k := j][RerankKey(model, q, i)]))
    {
      if RerankKey(model, q, i) == k {
        RerankKeyInjective(model, q, i, query, ids);
      }
    }
  }

  /** An entry of one model never sits under a key of another whose name does not clash. */
  lemma OtherModelElsewhere(model: string, query: string, ids: seq<string>, other: string)
    requires model != other && !NamesClash(model, other)
    ensures forall q: string, i: seq<string> :: RerankKey(other, q, i) != RerankKey(model, query, ids)
  {
    ModelsShareKeyIff(model, other);
    forall q: string, i: seq<string> ensures RerankKey(other, q, i) != RerankKey(model, query, ids) {
      assert RerankKey(model, query, ids) != RerankKey(other, q, i);
    }
  }

  /** The language model's answer, possibly from scores given under another cut. */
  ghost predicate LlmAnswer(llm: Llm, store: Store, query: string, hits: seq<Hit>, topK: int, r: seq<Result>) {
    if hits == [] then r == []
    else if |hits| == 1 then r == [Result(hits[0], hits[0].score)]
    else exists m: ScoreMap :: LlmSaid(llm, store, query, IdsOf(hits), m) && r == Materialized(hits, m, topK)
  }

  class Reranker {
    const cohereModel: string
    const llmModel: string
    const cohereEnabled: bool
    const maxCandidates: nat
    const cohere: Cohere
    const llm: Llm
    const store: Store
    var cache: map<Key, ScoreObject>

    ghost predicate Valid()
      reads this
    {
      && cohereModel != llmModel && !NamesClash(cohereModel, llmModel)
      && Coherent(cohereModel, cohere, store, cache)
      && LlmSound(llmModel, llm, store, cache)
    }

    constructor (cohereModel: string, llmModel: string, cohereEnabled: bool, maxCandidates: nat,
                 cohere: Cohere, llm: Llm, store: Store)
      requires cohereModel != llmModel && !NamesClash(cohereModel, llmModel)
      ensures Valid() && cache == map[]
    {
      this.cohereModel, this.llmModel, this.cohereEnabled, this.maxCandidates :=
        cohereModel, llmModel, cohereEnabled, maxCandidates;
      this.cohere, this.llm, this.store := cohere, llm, store;
      cache := map[];
    }

    /** An `await`: entries may expire, and other calls may add entries that keep the cache valid; in
        a quiet run neither happens. */
    method Await(ghost quiet: bool)
      requires Valid()
      modifies this
      ensures Valid()
      ensures quiet ==> cache == old(cache)
    {
    }

    /** `cohere_rerank`. With or without the cache, and whatever cut earlier calls used, the result
        is what reranking without a cache returns; it is absent only when the service fails. In a
        quiet run a cached list is used without the service, and the scores of the service end up
        in the cache. */
    method CohereRerank(query: string, hits: seq<Hit>, topK: int, useCache: bool, fails: bool, ghost quiet: bool)
      returns (r: Option<seq<Result>>)
      requires Valid() && Stored(store, hits)
      modifies this
      ensures Valid()
      ensures r.Some? ==> r.value == Uncached(cohere, query, hits, topK)
      ensures r.None? ==> fails && |hits| > 1
      ensures fails && |hits| > 1 && !useCache ==> r.None?
      ensures quiet && useCache && fails && |hits| > 1 ==>
                (r.Some? <==> Cached(old(cache), RerankKey(cohereModel, query, IdsOf(hits))))
      ensures quiet && useCache && r.Some? && |hits| > 1 && CohereScores(cohere, query, PayloadsOf(hits)) != map[] ==>
                Cached(cache, RerankKey(cohereModel, query, IdsOf(hits)))
      ensures quiet && !useCache ==> cache == old(cache)
    {
      if hits == [] {
        return Some([]);
      }
      if |hits| == 1 {
        return Some([Result(hits[0], hits[0].score)]);
      }
      var ids := IdsOf(hits);
      var key := MakeKey("rerank", [Str(cohereModel), Str(query), Ids(ids)]);
      StoredPayloads(store, hits);
      assert key == RerankKey(cohereModel, query, ids);
      Await(quiet);
      if useCache && Cached(cache, key) {
        assert Faithful(cohere, store, query, ids, cache[key]);
        var out := Materialize(hits, Decode(cache[key]), topK);
        return Some(out);
      }
      Await(quiet);
      if fails {
        return None;
      }
      var scores := CollectScores(cohere(query, DocTexts(PayloadsOf(hits))), |hits|);
      if useCache && scores != map[] {
        Await(quiet);
        KeysRoundTrip(scores, |hits|);
        StoreKeepsCoherent(cohereModel, cohere, store, cache, query, ids, Encode(scores, |hits|));
        OtherModelElsewhere(cohereModel, query, ids, llmModel);
        cache := cache[key := Encode(scores, |hits|)];
      }
      var out := Materialize(hits, scores, topK);
      r := Some(out);
    }

    /** `llm_rerank`. Its cache ignores the cut, so the scores may be those given under another cut;
        if the scores do not depend on the cut, the result is that of reranking without a cache. It is
        absent only when the language model is asked and raises, or its reply is no JSON object. */
    method LlmRerank(query: string, hits: seq<Hit>, topK: int, useCache: bool, fails: bool, ghost quiet: bool)
      returns (r: Option<seq<Result>>)
      requires Valid() && Stored(store, hits)
      modifies this
      ensures Valid()
      ensures r.Some? ==> LlmAnswer(llm, store, query, hits, topK, r.value)
      ensures r.Some? && (!useCache || CutIsIgnored(llm, store)) ==> r.value == LlmUncached(llm, query, hits, topK)
      ensures r.None? ==> fails && |hits| > 1
      ensures fails && |hits| > 1 && !useCache ==> r.None?
      ensures quiet && useCache && fails && |hits| > 1 ==>
                (r.Some? <==> Cached(old(cache), RerankKey(llmModel, query, IdsOf(hits))))
      ensures quiet && useCache && |hits| > 1 && Cached(old(cache), RerankKey(llmModel, query, IdsOf(hits))) ==>
                r == Some(Materialized(hits, Decode(old(cache)[RerankKey(llmModel, query, IdsOf(hits))]), topK))
      ensures quiet && useCache && r.Some? && |hits| > 1 && LlmScores(llm, query, PayloadsOf(hits), topK) != map[] ==>
                Cached(cache, RerankKey(llmModel, query, IdsOf(hits)))
      ensures quiet && (!useCache || r.None?) ==> cache == old(cache)
    {
      if hits == [] {
        return Some([]);
      }
      if |hits| == 1 {
        return Some([Result(hits[0], hits[0].score)]);
      }
      var ids := IdsOf(hits);
      var key := MakeKey("rerank", [Str(llmModel), Str(query), Ids(ids)]);
      StoredPayloads(store, hits);
      assert key == RerankKey(llmModel, query, ids);
      Await(quiet);
      if useCache && Cached(cache, key) {
        assert LlmSaid(llm, store, query, ids, Decode(cache[key]));
        SaidIsDecided(llm, store, query, ids, topK, cache[key]);
        var cached := Materialize(hits, Decode(cache[key]), topK);
        return Some(cached);
      }
      Await(quiet);
      if fails {
        return None;
      }
      var scores := CollectScores(llm(query, PromptTexts(PayloadsOf(hits)), topK), |hits|);
      assert scores == LlmScores(llm, query, PayloadsOf(hits), topK);
      assert LlmSaid(llm, store, query, ids, scores);
      if useCache && scores != map[] {
        Await(quiet);
        KeysRoundTrip(scores, |hits|);
        StoreKeepsLlmSound(llmModel, llm, store, cache, query, ids, Encode(scores, |hits|));
        OtherModelElsewhere(llmModel, query, ids, cohereModel);
        cache := cache[key := Encode(scores, |hits|)];
      }
      var out := Materialize(hits, scores, topK);
      r := Some(out);
    }

    /** `rerank`: cut an oversized pool, try Cohere, fall back on the language model, whose failure is the
        caller's. */
    method Rerank(query: string, hits: seq<Hit>, topK: int, useCache: bool, cohereFails: bool, llmFails: bool,
                  ghost quiet: bool)
      returns (r: Option<seq<Result>>)
      requires Valid() && Stored(store, hits)
      modifies this
      ensures Valid()
      ensures var pool := if |hits| <= maxCandidates then hits else hits[..maxCandidates];
              && (r.Some? ==> r.value == Uncached(cohere, query, pool, topK) ||
                              LlmAnswer(llm, store, query, pool, topK, r.value))
              && (cohereEnabled && !cohereFails ==> r == Some(Uncached(cohere, query, pool, topK)))
              && (!cohereEnabled && r.Some? ==> LlmAnswer(llm, store, query, pool, topK, r.value))
              && (r.None? ==> llmFails && (cohereEnabled ==> cohereFails) && |pool| > 1)
              && (!useCache && llmFails && (cohereEnabled ==> cohereFails) && |pool| > 1 ==> r.None?)
              && (r.Some? ==> Reranked(pool, topK, r.value))
    {
      if hits == [] {
        return Some([]);
      }
      var pool := Candidates(hits, maxCandidates);
      CandidatesStored(store, hits, maxCandidates);
      CandidatesAre(hits, maxCandidates);
      hide *;
      if cohereEnabled {
        r := CohereRerank(query, pool, topK, useCache, cohereFails, quiet);
        if r.Some? {
          CohereShape(cohere, query, pool, topK);
          return;
        }
      }
      r := LlmRerank(query, pool, topK, useCache, llmFails, quiet);
      if r.Some? {
        LlmShape(llm, store, query, pool, topK, r.value);
      }
    }

    /** Lines 98-112 of the retrieval pipeline: merge the hits of all searches, cut the pool, rerank.
        `offered` is what the reranker gets: the best points, at most `maxCandidates` and twice
        `topKSearch` of them. Every result is the best hit of its point over all searches, no point
        appears twice, and there are `min(topK, offered)` results. */
    method RetrieveAndRerank(query: string, results: seq<seq<Hit>>, topKSearch: nat, topK: nat, cohereFails: bool,
                             llmFails: bool, ghost quiet: bool)
      returns (r: Option<seq<Result>>, ghost offered: seq<Hit>)
      requires Valid() && topK >= 1 && Stored(store, Flatten(results))
      modifies this
      ensures Valid()
      ensures r.None? ==> llmFails && (cohereEnabled ==> cohereFails)
      ensures Offered(Flatten(results),
                      Min(maxCandidates, Min(topKSearch * 2, |PointIds(Flatten(results))|)), offered)
      ensures r.Some? ==>
                || r.value == Uncached(cohere, query, offered, topK)
                || LlmAnswer(llm, store, query, offered, topK, r.value)
      ensures cohereEnabled && !cohereFails ==> r == Some(Uncached(cohere, query, offered, topK))
      ensures r.Some? ==>
                && |r.value| == Min(topK, |offered|)
                && (forall i :: 0 <= i < |r.value| ==>
                      r.value[i].hit in offered &&
                      IsBest(Flatten(results), r.value[i].hit.pointId, r.value[i].hit))
                && (forall i, j :: 0 <= i < j < |r.value| ==>
                      r.value[i].hit.pointId != r.value[j].hit.pointId && r.value[i].score >= r.value[j].score)
    {
      var pool := Pool(results, topKSearch);
      PoolStored(store, Flatten(results), topKSearch);
      PoolOffered(Flatten(results), topKSearch, maxCandidates);
      CandidatesAre(pool, maxCandidates);
      hide PoolOf, Offered, IsBest, Uncached, LlmAnswer, Reranked, Valid, Stored, Candidates;
      offered := if |pool| <= maxCandidates then pool else pool[..maxCandidates];
      r := Rerank(query, pool, topK, true, cohereFails, llmFails, quiet);
      if r.Some? {
        RerankedIsBest(Flatten(results), |offered|, offered, topK, r.value);
      }
    }
  }

  function Min(a: nat, b: nat): (m: nat)
    ensures m <= a && m <= b && (m == a || m == b)
  {
    if a < b then a else b
  }

  lemma CandidatesAre(hits: seq<Hit>, max: nat)
    ensures Candidates(hits, max) == if |hits| <= max then hits else hits[..max]
  {
  }

  /** `if cached := await cache_get(key)`: an empty object counts as nothing. */
  predicate Cached(cache: map<Key, ScoreObject>, key: Key) {
    key in cache && cache[key] != []
  }

  lemma SubsetStored(store: Store, hits: seq<Hit>, some: seq<Hit>)
    requires Stored(store, hits) && forall h :: h in some ==> h in hits
    ensures Stored(store, some)
  {
    forall i | 0 <= i < |some| ensures PayloadOf(some[i]) == store(some[i].pointId) {
      assert some[i] in hits;
    }
  }

  lemma CandidatesStored(store: Store, hits: seq<Hit>, max: nat)
    requires Stored(store, hits)
    ensures Stored(store, Candidates(hits, max))
  {
    SubsetStored(store, hits, Candidates(hits, max));
  }

  lemma PoolStored(store: Store, hits: seq<Hit>, topK: nat)
    requires Stored(store, hits)
    ensures Stored(store, PoolOf(hits, topK))
  {
    PoolIsBest(hits, topK);
    forall h | h in PoolOf(hits, topK) ensures h in hits {
      assert IsBest(hits, h.pointId, h);
    }
    SubsetStored(store, hits, PoolOf(hits, topK));
  }

  lemma CohereShape(cohere: Cohere, query: string, pool: seq<Hit>, topK: int)
    ensures Reranked(pool, topK, Uncached(cohere, query, pool, topK))
  {
  }

  lemma LlmShape(llm: Llm, store: Store, query: string, pool: seq<Hit>, topK: int, r: seq<Result>)
    requires LlmAnswer(llm, store, query, pool, topK, r)
    ensures Reranked(pool, topK, r)
  {
  }

  /** The results of several searches: best hits of different points, from those that were offered. */
  lemma RerankedIsBest(hits: seq<Hit>, n: nat, offered: seq<Hit>, topK: nat, r: seq<Result>)
    requires topK >= 1 && Offered(hits, n, offered) && Reranked(offered, topK, r)
    ensures |r| == Min(topK, n)
    ensures forall i :: 0 <= i < |r| ==> r[i].hit in offered && IsBest(hits, r[i].hit.pointId, r[i].hit)
    ensures forall i, j :: 0 <= i < j < |r| ==> r[i].hit.pointId != r[j].hit.pointId && r[i].score >= r[j].score
  {
    RerankedIsTop(offered, topK, r);
    hide Reranked, IsBest;
    var at :| From(offered, r, at);
    forall i | 0 <= i < |r| ensures r[i].hit in offered && IsBest(hits, r[i].hit.pointId, r[i].hit) {
      assert r[i].hit == offered[at[i]];
    }
    forall i, j | 0 <= i < j < |r| ensures r[i].hit.pointId != r[j].hit.pointId {
      assert at[i] != at[j] && r[i].hit == offered[at[i]] && r[j].hit == offered[at[j]];
    }
  }

  // ---- when the language model's cache is transparent ----------------------

  /** For two or more candidates as they are stored, the language model's usable scores do not depend
      on the cut that its prompt names. */
  ghost predicate CutIsIgnored(llm: Llm, store: Store) {
    forall query, ids, j, k ::
      |ids| > 1 && LlmScores(llm, query, PayloadsAt(store, ids), j) != map[] ==>
        LlmScores(llm, query, PayloadsAt(store, ids), j) == LlmScores(llm, query, PayloadsAt(store, ids), k)
  }

  lemma SaidIsDecided(llm: Llm, store: Store, query: string, ids: seq<string>, topK: int, j: ScoreObject)
    requires LlmSaid(llm, store, query, ids, Decode(j)) && j != [] && |ids| > 1
    ensures CutIsIgnored(llm, store) ==> Decode(j) == LlmScores(llm, query, PayloadsAt(store, ids), topK)
  {
    var k :| Decode(j) == LlmScores(llm, query, PayloadsAt(store, ids), k);
    assert Parse(j[|j| - 1].0) in Decode(j);
  }

  /** The scores that `llm_rerank` works with when it finds `cache`. */
  function ScoresWith(model: string, llm: Llm, store: Store, cache: map<Key, ScoreObject>,
                      query: string, ids: seq<string>, topK: int): ScoreMap
  {
    var key := RerankKey(model, query, ids);
    if Cached(cache, key) then Decode(cache[key]) else LlmScores(llm, query, PayloadsAt(store, ids), topK)
  }

  /** Whatever sound contents the cache has, every call works with the scores of the language model. */
  ghost predicate LlmTransparent(model: string, llm: Llm, store: Store) {
    forall cache, query, ids, topK :: LlmSound(model, llm, store, cache) && |ids| > 1 ==>
      ScoresWith(model, llm, store, cache, query, ids, topK) ==
      LlmScores(llm, query, PayloadsAt(store, ids), topK)
  }

  lemma OneEntrySound(model: string, llm: Llm, store: Store, query: string, ids: seq<string>, topK: int)
    ensures var m := LlmScores(llm, query, PayloadsAt(store, ids), topK);
            LlmSound(model, llm, store, map[RerankKey(model, query, ids) := Encode(m, |ids|)])
  {
    var m := LlmScores(llm, query, PayloadsAt(store, ids), topK);
    KeysRoundTrip(m, |ids|);
    assert LlmSaid(llm, store, query, ids, Decode(Encode(m, |ids|)));
    hide Encode, Decode, LlmScores, RerankKey, LlmSaid;
    StoreKeepsLlmSound(model, llm, store, map[], query, ids, Encode(m, |ids|));
  }

  /** The cache of `llm_rerank` is transparent if and only if the usable scores of stored candidates do
      not depend on the cut, which the prompt names and the key leaves out. */
  lemma LlmTransparentIffCutIsIgnored(model: string, llm: Llm, store: Store)
    ensures LlmTransparent(model, llm, store) <==> CutIsIgnored(llm, store)
  {
    if CutIsIgnored(llm, store) {
      forall cache: map<Key, ScoreObject>, query, ids, topK | LlmSound(model, llm, store, cache) && |ids| > 1
        ensures ScoresWith(model, llm, store, cache, query, ids, topK) ==
                LlmScores(llm, query, PayloadsAt(store, ids), topK)
      {
        var key := RerankKey(model, query, ids);
        if Cached(cache, key) {
          assert LlmSaid(llm, store, query, ids, Decode(cache[key]));
          SaidIsDecided(llm, store, query, ids, topK, cache[key]);
        }
      }
    } else {
      var query, ids, j, k :|
        |ids| > 1 && LlmScores(llm, query, PayloadsAt(store, ids), j) != map[] &&
        LlmScores(llm, query, PayloadsAt(store, ids), j) != LlmScores(llm, query, PayloadsAt(store, ids), k);
      var m := LlmScores(llm, query, PayloadsAt(store, ids), j);
      var key := RerankKey(model, query, ids);
      OneEntrySound(model, llm, store, query, ids, j);
      KeysRoundTrip(m, |ids|);
      assert ScoresWith(model, llm, store, map[key := Encode(m, |ids|)], query, ids, k) == m;
    }
  }

  function Candidates(hits: seq<Hit>, max: nat): seq<Hit> {
    if |hits| > max then hits[..max] else hits
  }

  /** The shape of every reranked answer: a single hit keeps its dense score, several are the top of
      the pool under some scores. */
  ghost predicate Reranked(pool: seq<Hit>, topK: int, r: seq<Result>) {
    if pool == [] then r == []
    else if |pool| == 1 then r == [Result(pool[0], pool[0].score)]
    else exists m: ScoreMap :: r == Materialized(pool, m, topK)
  }

  /** The positions of the pool that the results come from. */
  ghost predicate From(pool: seq<Hit>, r: seq<Result>, at: seq<nat>) {
    && |at| == |r| && Distinct(at)
    && forall i :: 0 <= i < |at| ==> at[i] < |pool| && r[i].hit == pool[at[i]]
  }

  /** For a cut of at least one, every reranked answer has `min(top_k, pool)` results, each from a
      different hit of the pool, in descending order of score. */
  lemma RerankedIsTop(pool: seq<Hit>, topK: nat, r: seq<Result>)
    requires topK >= 1 && Reranked(pool, topK, r)
    ensures |r| == if topK < |pool| then topK else |pool|
    ensures forall i, j :: 0 <= i < j < |r| ==> r[i].score >= r[j].score
    ensures exists at :: From(pool, r, at)
  {
    if |pool| > 1 {
      var m: ScoreMap :| r == Materialized(pool, m, topK);
      SeveralAreTop(pool, m, topK, r);
    } else {
      var zero: nat := 0;
      assert From(pool, r, if pool == [] then [] else [zero]);
    }
  }

  lemma TopIsFrom(pool: seq<Hit>, m: ScoreMap, topK: nat, r: seq<Result>, at: seq<nat>)
    requires IsTop(pool, m, topK, r, at)
    ensures |r| == (if topK < |pool| then topK else |pool|) && From(pool, r, at)
    ensures forall i, j :: 0 <= i < j < |r| ==> r[i].score >= r[j].score
  {
  }

  lemma SeveralAreTop(pool: seq<Hit>, m: ScoreMap, topK: nat, r: seq<Result>)
    requires r == Materialized(pool, m, topK)
    ensures |r| == if topK < |pool| then topK else |pool|
    ensures forall i, j :: 0 <= i < j < |r| ==> r[i].score >= r[j].score
    ensures exists at :: From(pool, r, at)
  {
    MaterializedIsTop(pool, m, topK);
    hide Materialized, IsTop, From;
    var at :| IsTop(pool, m, topK, r, at);
    TopIsFrom(pool, m, topK, r, at);
  }
}
