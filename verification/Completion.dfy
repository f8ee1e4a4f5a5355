/**
 The two-tier cache of `LLMClient.complete` (src/llm/client.py:107-165), and exactly when it is
 transparent: the key leaves out `tool_choice` and `extra`.
 */
module Completion {
  import opened Prelude
  import opened CacheKeys
  import opened JsonText
  import Lru

  type Answer = string

  /** A request; `messages`, `format`, `tools`, `toolChoice` and `extra` are serialised values. */
  datatype Request = Request(model: string, messages: Json, temperature: real, maxTokens: Option<nat>,
                             format: Json, tools: Option<string>, toolChoice: Option<string>,
                             extra: Option<string>)

  predicate Cacheable(r: Request, useCache: bool) {
    useCache && r.temperature == 0.0 && r.tools.None?
  }

  function PartsOf(r: Request): Parts {
    Parts(r.model, r.messages, r.maxTokens, r.format)
  }

  function KeyFor(r: Request): Key {
    CompletionKey(PartsOf(r))
  }

  /** A cached answer is the service's answer to some cacheable request with that key. */
  ghost predicate Sound(upstream: Request -> Answer, m: map<Key, Answer>) {
    forall k :: k in m ==> Explained(upstream, k, m[k])
  }

  ghost predicate Explained(upstream: Request -> Answer, k: Key, a: Answer) {
    exists r :: Cacheable(r, true) && KeyFor(r) == k && upstream(r) == a
  }

  class LlmClient {
    const upstream: Request -> Answer
    const l1: Lru.Cache<Answer>
    var l2: map<Key, Answer>

    constructor (upstream: Request -> Answer, capacity: nat)
      ensures Valid() && fresh(l1) && this.upstream == upstream
    {
      this.upstream := upstream;
      l1 := new Lru.Cache<Answer>(capacity);
      l2 := map[];
    }

    ghost predicate Valid()
      reads this, l1
    {
      && Lru.Valid(l1.Contents())
      && Sound(upstream, l1.vals)
      && Sound(upstream, l2)
    }

    /** Before and after the other end of an `await` acts, other calls and expiry may change both tiers
        in any way that keeps them valid; in a quiet run they do not. */
    method Await(ghost quiet: bool)
      requires Valid()
      modifies this, l1
      ensures Valid()
      ensures quiet ==> Same(old(l1.Contents()), old(l2))
    {
    }

    ghost predicate Same(first: Lru.State<Answer>, second: map<Key, Answer>)
      reads this, l1
    {
      l1.Contents() == first && l2 == second
    }

    method Remember(k: Key, a: Answer)
      requires Valid() && Explained(upstream, k, a)
      modifies l1
      ensures Valid()
      ensures l1.cap > 0 ==> k in l1.vals && l1.vals[k] == a
    {
      hide Explained;
      ghost var before := l1.Contents();
      l1.Set(k, a);
      Lru.SetKeepsValid(before, k, a);
    }

    /** The first tier is asked. */
    method Recall(k: Key) returns (a: Option<Answer>)
      requires Valid()
      modifies l1
      ensures Valid()
      ensures a == if k in old(l1.vals) then Some(old(l1.vals)[k]) else None
      ensures a.Some? ==> Explained(upstream, k, a.value) && k in l1.vals && l1.vals[k] == a.value
      ensures a.None? ==> l1.Contents() == old(l1.Contents())
    {
      ghost var before := l1.Contents();
      a := l1.Get(k);
      Lru.GetKeepsValid(before, k);
    }

    /** The answer is the service's answer to a request with the same key, and to this very request
        when it is not cacheable or the service lets the key decide; there is none only when the
        service is asked and fails. In a quiet run a cacheable request is answered from the first
        tier, else from the second, else by the service, whose answer both tiers then hold; any
        other request touches neither tier. */
    method Complete(r: Request, useCache: bool, fails: bool, ghost quiet: bool) returns (a: Option<Answer>)
      requires Valid()
      modifies this, l1
      ensures Valid()
      ensures a.None? ==> fails
      ensures !useCache || r.temperature != 0.0 || r.tools.Some? ==>
                && a == (if fails then None else Some(upstream(r)))
                && (quiet ==> Same(old(l1.Contents()), old(l2)))
      ensures a.Some? ==> a.value == upstream(r) || Explained(upstream, KeyFor(r), a.value)
      ensures a.Some? && KeyDecides(upstream) ==> a.value == upstream(r)
      ensures quiet && useCache && r.temperature == 0.0 && r.tools.None? ==>
                Tiered(KeyFor(r), if fails then None else Some(upstream(r)), old(l1.Contents()), old(l2), a)
    {
      if Cacheable(r, useCache) {
        a := CompleteCached(r, fails, quiet);
      } else {
        Await(quiet);
        a := if fails then None else Some(upstream(r));
      }
    }

    /** What a lookup of both tiers under `k` answers, and what they hold afterwards, when the service would
        answer `own`. */
    ghost predicate Tiered(k: Key, own: Option<Answer>, first: Lru.State<Answer>, second: map<Key, Answer>,
                           a: Option<Answer>)
      reads this, l1
    {
      && a == (if k in first.vals then Some(first.vals[k]) else if k in second then Some(second[k]) else own)
      && (a.Some? && l1.cap > 0 ==> k in l1.vals && l1.vals[k] == a.value)
      && (a.Some? && k !in first.vals ==> k in l2 && l2[k] == a.value)
      && (k in first.vals || k in second || own == None ==> l2 == second)
    }

    /** A cacheable request. */
    method CompleteCached(r: Request, fails: bool, ghost quiet: bool) returns (a: Option<Answer>)
      requires Valid() && Cacheable(r, true)
      modifies this, l1
      ensures Valid()
      ensures a.None? ==> fails
      ensures a.Some? ==> Explained(upstream, KeyFor(r), a.value)
      ensures a.Some? && KeyDecides(upstream) ==> a.value == upstream(r)
      ensures quiet ==>
                Tiered(KeyFor(r), if fails then None else Some(upstream(r)), old(l1.Contents()), old(l2), a)
    {
      var k := MakeKeyFor(r);
      hide CompletionKey, KeyFor, KeyDecides, Explained, Cacheable, Lru.Valid, Lru.Stored, Sound;
      a := Recall(k);
      if a.Some? {
        ExplainedIsRight(upstream, r, a.value);
        return;
      }
      Await(quiet);
      if k in l2 {
        a := Some(l2[k]);
        assert Explained(upstream, k, l2[k]) by { SoundEntry(upstream, l2, k); }
      }
      Await(quiet);
      if a.Some? {
        ExplainedIsRight(upstream, r, a.value);
        Remember(k, a.value);
        return;
      }
      Await(quiet);
      if fails {
        return None;
      }
      a := Some(upstream(r));
      OwnAnswerExplained(upstream, r);
      Remember(k, a.value);
      Await(quiet);
      StoreKeepsSound(upstream, l2, k, a.value);
      l2 := l2[k := a.value];
      Await(quiet);
    }
  }

  /** Lines 122-128. */
  method MakeKeyFor(r: Request) returns (k: Key)
    ensures k == KeyFor(r)
  {
    OptionsClosed(r.maxTokens, r.format);
    k := MakeKey("llm", [Str(r.model), Dumped(r.messages), Dumped(OptionsText(r.maxTokens, r.format))]);
  }

  lemma SoundEntry(upstream: Request -> Answer, m: map<Key, Answer>, k: Key)
    requires Sound(upstream, m) && k in m
    ensures Explained(upstream, k, m[k])
  {
  }

  lemma StoreKeepsSound(upstream: Request -> Answer, m: map<Key, Answer>, k: Key, a: Answer)
    requires Sound(upstream, m) && Explained(upstream, k, a)
    ensures Sound(upstream, m[k := a])
  {
  }

  lemma OwnAnswerExplained(upstream: Request -> Answer, r: Request)
    requires Cacheable(r, true)
    ensures Explained(upstream, KeyFor(r), upstream(r))
  {
  }

  lemma ExplainedIsRight(upstream: Request -> Answer, r: Request, a: Answer)
    requires Cacheable(r, true) && Explained(upstream, KeyFor(r), a)
    ensures KeyDecides(upstream) ==> a == upstream(r)
  {
    var q :| Cacheable(q, true) && KeyFor(q) == KeyFor(r) && upstream(q) == a;
    CompletionKeyInjective(PartsOf(q), PartsOf(r));
  }

  /** Two requests share a key if and only if they agree in model, messages, token limit and response
      format. */
  lemma KeysEqualIff(r: Request, q: Request)
    ensures KeyFor(r) == KeyFor(q) <==>
            r.model == q.model && r.messages == q.messages && r.maxTokens == q.maxTokens && r.format == q.format
  {
    if KeyFor(r) == KeyFor(q) {
      CompletionKeyInjective(PartsOf(r), PartsOf(q));
    }
  }

  // ---- when the cache is transparent ---------------------------------------

  /** Cacheable requests with the same key have the same answer. */
  ghost predicate KeyDecides(upstream: Request -> Answer) {
    forall r, q :: Cacheable(r, true) && Cacheable(q, true) && PartsOf(r) == PartsOf(q) ==> upstream(r) == upstream(q)
  }

  /** The answer of a call that finds `m` in its caches. */
  function Answered(upstream: Request -> Answer, m: map<Key, Answer>, r: Request): Answer {
    if Cacheable(r, true) && KeyFor(r) in m then m[KeyFor(r)] else upstream(r)
  }

  /** Whatever sound contents the caches have, every call returns the service's answer. */
  ghost predicate Transparent(upstream: Request -> Answer) {
    forall m, r :: Sound(upstream, m) ==> Answered(upstream, m, r) == upstream(r)
  }

  /** Caching is transparent if and only if the service's answers to cacheable requests depend on
      nothing but the parts of the key, so not on `tool_choice` or `extra`. */
  lemma TransparentIffKeyDecides(upstream: Request -> Answer)
    ensures Transparent(upstream) <==> KeyDecides(upstream)
  {
    if KeyDecides(upstream) {
      forall m: map<Key, Answer>, r | Sound(upstream, m)
        ensures Answered(upstream, m, r) == upstream(r)
      {
        var k := KeyFor(r);
        if Cacheable(r, true) && k in m {
          assert Explained(upstream, k, m[k]);
          var q :| Cacheable(q, true) && KeyFor(q) == k && upstream(q) == m[k];
          CompletionKeyInjective(PartsOf(q), PartsOf(r));
        }
      }
    } else {
      var r, q :| Cacheable(r, true) && Cacheable(q, true) && PartsOf(r) == PartsOf(q) && upstream(r) != upstream(q);
      var k := KeyFor(r);
      var m := map[k := upstream(r)];
      assert Explained(upstream, k, m[k]);
      assert Sound(upstream, m);
      assert Answered(upstream, m, q) == upstream(r);
    }
  }
}
