/**
 `EmbeddingClient.embed` (src/llm/client.py:202-255): a process-local LRU in front of a shared
 cache in front of the embedding service, as imperative code. Whatever the shared cache loses or
 gains, whatever other calls do to both tiers in between, the answer is the service's own.
 */
module Embedding {
  import opened Prelude
  import opened CacheKeys
  import opened EmbeddingTiers
  import Lru

  class EmbeddingClient {
    const model: string
    const batchSize: nat
    /** The embedding service, a function of the text. */
    const upstream: string -> Vector
    const l1: Lru.Cache<Vector>
    var l2: map<Key, Vector>

    constructor (model: string, batchSize: nat, upstream: string -> Vector, capacity: nat)
      requires batchSize > 0
      ensures Valid() && fresh(l1)
      ensures this.model == model && this.batchSize == batchSize && this.upstream == upstream
      ensures Contents() == Tiers(Lru.Empty(capacity), map[])
    {
      this.model, this.batchSize, this.upstream := model, batchSize, upstream;
      l1 := new Lru.Cache<Vector>(capacity);
      l2 := map[];
    }

    ghost function Contents(): Tiers
      reads this, l1
    {
      Tiers(l1.Contents(), l2)
    }

    ghost predicate Valid()
      reads this, l1
    {
      batchSize > 0 && Sound(model, upstream, Contents())
    }

    /** An `await`: the world has its turn. */
    method Await(world: World, m: Moment)
      requires world(m, Contents()).first.cap == l1.cap
      modifies this`l2, l1
      ensures Contents() == world(m, old(Contents()))
    {
      var t := world(m, Tiers(Lru.State(l1.cap, l1.order, l1.vals), l2));
      l1.order, l1.vals, l2 := t.first.order, t.first.vals, t.second;
    }

    /** Lines 212-221: one text is looked up. */
    method Lookup(world: World, i: nat, text: string) returns (v: Option<Vector>)
      requires Valid() && Fair(model, upstream, world)
      modifies this`l2, l1
      ensures (Contents(), v) == Asked(model, world, old(Contents()), i, text)
      ensures Valid() && (v.Some? ==> v.value == upstream(text))
      ensures EmbeddingKey(model, text) in old(l1.vals) ==>
                v == Some(old(l1.vals)[EmbeddingKey(model, text)]) && l2 == old(l2)
      ensures Quiet(world) && v.Some? && l1.cap > 0 ==>
                EmbeddingKey(model, text) in l1.vals && l1.vals[EmbeddingKey(model, text)] == v.value
      ensures Quiet(world) ==> l2 == old(l2)
    {
      AskedIsSound(model, upstream, world, Contents(), i, text);
      AskedInOrder(model, world, Contents(), i, text);
      var key := MakeKey("emb", [Str(model), Str(text)]);
      v := l1.Get(key);
      if v.None? {
        Await(world, Asking(i));
        if key in l2 {
          v := Some(l2[key]);
        }
        Await(world, Returning(i));
        if v.Some? {
          l1.Set(key, v.value);
        }
      }
    }

    /** Lines 207-222: every text is answered from the caches or noted as a miss. */
    method LookupAll(world: World, texts: seq<string>, useCache: bool, results: array<Option<Vector>>)
      returns (misses: seq<nat>)
      requires Valid() && Fair(model, upstream, world)
      requires results.Length == |texts| && forall i :: 0 <= i < |texts| ==> results[i] == None
      modifies this`l2, l1, results
      ensures (Contents(), misses) == LookedUp(model, world, old(Contents()), texts, useCache)
      ensures Valid() && Answered(upstream, texts, misses, results[..], |texts|)
    {
      misses := [];
      assert Answered(upstream, texts, misses, results[..], 0);
      hide Answered, Sound, Fair, Asked, Misses;
      for i := 0 to |texts|
        invariant Valid() && Answered(upstream, texts, misses, results[..], i)
        invariant (Contents(), misses) == LookedUp(model, world, old(Contents()), texts[..i], useCache)
      {
        var v: Option<Vector> := None;
        if useCache {
          v := Lookup(world, i, texts[i]);
        }
        OneMoreAnswer(upstream, texts, misses, results[..], i, v);
        assert texts[..i + 1][..i] == texts[..i];
        if v.Some? {
          results[i] := v;
        } else {
          misses := misses + [i];
        }
      }
      assert texts[..|texts|] == texts;
    }

    /** Lines 247-252: one batch of vectors is filed under its positions and in both caches. */
    method File(world: World, texts: seq<string>, batch: seq<nat>, vectors: seq<Vector>, useCache: bool,
                results: array<Option<Vector>>)
      requires Valid() && Fair(model, upstream, world) && results.Length == |texts| && |vectors| == |batch|
      requires forall i :: 0 <= i < |batch| ==> batch[i] < |texts| && vectors[i] == upstream(texts[batch[i]])
      modifies this`l2, l1, results
      ensures Valid() && Contents() == FiledAll(model, upstream, world, old(Contents()), texts, batch, useCache)
      ensures forall j :: 0 <= j < |texts| ==>
                results[j] == if j in batch then Some(upstream(texts[j])) else old(results[j])
    {
      hide Sound, Fair, Filed, EmbeddingKey;
      for i := 0 to |batch|
        invariant Valid()
        invariant Contents() == FiledAll(model, upstream, world, old(Contents()), texts, batch[..i], useCache)
        invariant forall j :: 0 <= j < |texts| ==>
                    results[j] == if j in batch[..i] then Some(upstream(texts[j])) else old(results[j])
      {
        results[batch[i]] := Some(vectors[i]);
        InOneMore(batch, i);
        if useCache {
          FileOne(world, batch[i], texts[batch[i]], vectors[i]);
        }
        assert batch[..i + 1][..i] == batch[..i];
      }
      assert batch[..|batch|] == batch;
    }

    /** Lines 249-252: the vector of one text enters both caches. */
    method FileOne(world: World, i: nat, text: string, v: Vector)
      requires Valid() && Fair(model, upstream, world) && v == upstream(text)
      modifies this`l2, l1
      ensures Valid() && Contents() == Filed(model, world, old(Contents()), i, text, v)
      ensures Quiet(world) ==> l2 == old(l2)[EmbeddingKey(model, text) := v]
      ensures Quiet(world) && l1.cap > 0 ==>
                EmbeddingKey(model, text) in l1.vals && l1.vals[EmbeddingKey(model, text)] == v
    {
      if Quiet(world) {
        FiledInBoth(model, world, Contents(), i, text, v);
      }
      FiledIsSound(model, upstream, world, Contents(), i, text);
      StoredIsSound(model, upstream, Contents(), text, v);
      var key := MakeKey("emb", [Str(model), Str(text)]);
      l1.Set(key, v);
      FairTurn(model, upstream, world, Storing(i), Contents());
      Await(world, Storing(i));
      SecondStoredIsSound(model, upstream, Contents(), text, v);
      l2 := l2[key := v];
      FairTurn(model, upstream, world, Confirming(i), Contents());
      Await(world, Confirming(i));
    }

    /** Lines 245-252: the answers to one batch. */
    method FetchBatch(world: World, texts: seq<string>, misses: seq<nat>, useCache: bool,
                      results: array<Option<Vector>>, start: nat, b: nat)
      requires Valid() && Fair(model, upstream, world) && results.Length == |texts|
      requires start < |misses| && Open(upstream, texts, misses, results[..], start)
      modifies this`l2, l1, results
      ensures Valid() && Open(upstream, texts, misses, results[..], End(|misses|, start, batchSize))
      ensures Contents() == FiledAll(model, upstream, world, world(Calling(b), old(Contents())), texts,
                                     misses[start..End(|misses|, start, batchSize)], useCache)
    {
      FairTurn(model, upstream, world, Calling(b), Contents());
      Await(world, Calling(b));
      var batch := misses[start..End(|misses|, start, batchSize)];
      assert forall i :: 0 <= i < |misses| ==> misses[i] < |texts|;
      hide Sound, Fair, FiledAll, Open;
      ghost var before := results[..];
      var vectors := seq(|batch|, i requires 0 <= i < |batch| => upstream(texts[batch[i]]));
      File(world, texts, batch, vectors, useCache, results);
      BatchAnswered(upstream, texts, misses, before, results[..], start, End(|misses|, start, batchSize));
    }

    /** Lines 225-252: the misses go upstream in batches; a batch that still fails after its retries
        ends the call. */
    method FetchMisses(world: World, texts: seq<string>, misses: seq<nat>, useCache: bool, fails: nat -> bool,
                       results: array<Option<Vector>>)
      returns (ok: bool, sent: seq<seq<string>>)
      requires Valid() && Fair(model, upstream, world) && results.Length == |texts|
      requires Open(upstream, texts, misses, results[..], 0)
      modifies this`l2, l1, results
      ensures Valid()
      ensures (Contents(), ok) ==
              Called(model, upstream, world, fails, old(Contents()), texts, misses, batchSize, useCache, 0, 0)
      ensures Batched(sent, batchSize)
      ensures Flatten(sent) <= Pick(texts, misses)
      ensures ok ==> Flatten(sent) == Pick(texts, misses)
      ensures ok ==> Open(upstream, texts, misses, results[..], |misses|)
      ensures (forall b :: !fails(b)) ==> ok
    {
      hide Flatten, Batched, Sound, FiledAll, Fair, Called, AllFull, Pick;
      assert Misses(misses, |texts|);
      hide Open;
      sent := [];
      NothingSent(texts, misses, batchSize);
      ok := true;
      var start := 0;
      while start < |misses|
        invariant start <= |misses| && Valid() && Open(upstream, texts, misses, results[..], start)
        invariant Called(model, upstream, world, fails, old(Contents()), texts, misses, batchSize, useCache, 0, 0) ==
                  Called(model, upstream, world, fails, Contents(), texts, misses, batchSize, useCache, start, |sent|)
        invariant Flatten(sent) == Pick(texts, misses[..start])
        invariant Batched(sent, batchSize) && (start < |misses| ==> AllFull(sent, batchSize))
        decreases |misses| - start
      {
        var end := End(|misses|, start, batchSize);
        BatchSent(texts, misses, sent, start, end, batchSize);
        OneMoreCall(model, upstream, world, fails, Contents(), texts, misses, batchSize, useCache, start, |sent|);
        if fails(|sent|) {
          FairTurn(model, upstream, world, Calling(|sent|), Contents());
          Await(world, Calling(|sent|));
          return false, sent + [Pick(texts, misses[start..end])];
        }
        FetchBatch(world, texts, misses, useCache, results, start, |sent|);
        sent := sent + [Pick(texts, misses[start..end])];
        start := end;
      }
      assert misses[..|misses|] == misses;
      NoMoreCalls(model, upstream, world, fails, Contents(), texts, misses, batchSize, useCache, |sent|);
    }

    /** `embed`: for any texts, with duplicates, any sound contents of the caches, and anything that
        other calls and expiry do meanwhile, the answer is the service's vector of each text, in
        order; the misses, what is sent, and both tiers at the end are exactly the specified ones,
        also when the service fails. */
    method Embed(world: World, texts: seq<string>, useCache: bool, fails: nat -> bool)
      returns (r: Option<seq<Vector>>, misses: seq<nat>, sent: seq<seq<string>>)
      requires Valid() && Fair(model, upstream, world)
      modifies this`l2, l1
      ensures Valid()
      ensures r.Some? ==> |r.value| == |texts| && forall i :: 0 <= i < |texts| ==> r.value[i] == upstream(texts[i])
      ensures misses == LookedUp(model, world, old(Contents()), texts, useCache).1
      ensures Misses(misses, |texts|)
      ensures (Contents(), r.Some?) ==
              Called(model, upstream, world, fails, LookedUp(model, world, old(Contents()), texts, useCache).0, texts,
                     misses, batchSize, useCache, 0, 0)
      ensures Batched(sent, batchSize)
      ensures Flatten(sent) <= Pick(texts, misses)
      ensures r.Some? ==> Flatten(sent) == Pick(texts, misses)
      ensures (forall b :: !fails(b)) ==> r.Some?
      ensures !useCache ==> |misses| == |texts|
      ensures Quiet(world) && !useCache ==> Contents() == old(Contents())
      ensures Quiet(world) && useCache ==> ExactMisses(model, texts, misses, old(l1.vals.Keys), old(l2.Keys))
      ensures Quiet(world) && useCache && r.Some? ==>
                forall i :: 0 <= i < |misses| ==> EmbeddingKey(model, texts[misses[i]]) in l2
    {
      if texts == [] {
        return Some([]), [], [];
      }
      var results := new Option<Vector>[|texts|](_ => None);
      ghost var before := Contents();
      misses := LookupAll(world, texts, useCache, results);
      MissesAscend(model, world, before, texts, useCache);
      if Quiet(world) {
        QuietEmbed(model, upstream, world, fails, before, texts, batchSize, useCache);
      }
      hide Sound, Fair, Quiet, ExactMisses, Called, LookedUp;
      var ok := true;
      sent := [];
      if misses != [] {
        AnsweredIsOpen(upstream, texts, misses, results[..]);
        ok, sent := FetchMisses(world, texts, misses, useCache, fails, results);
      }
      if ok {
        PresentAll(results[..]);
        r := Some(Present(results[..]));
      } else {
        r := None;
      }
    }
  }

  /** What an undisturbed call does. */
  lemma QuietEmbed(model: string, upstream: string -> Vector, world: World, fails: nat -> bool, s: Tiers,
                   texts: seq<string>, size: nat, useCache: bool)
    requires Quiet(world) && size > 0
    ensures Misses(LookedUp(model, world, s, texts, useCache).1, |texts|)
    ensures var (t, misses) := LookedUp(model, world, s, texts, useCache);
            var (u, ok) := Called(model, upstream, world, fails, t, texts, misses, size, useCache, 0, 0);
            && (!useCache ==> u == s)
            && (useCache ==> ExactMisses(model, texts, misses, s.first.vals.Keys, s.second.Keys))
            && (useCache && ok ==> forall i :: 0 <= i < |misses| ==> EmbeddingKey(model, texts[misses[i]]) in u.second)
  {
    MissesAscend(model, world, s, texts, useCache);
    var (t, misses) := LookedUp(model, world, s, texts, useCache);
    if useCache {
      QuietMisses(model, world, s, texts);
      QuietCalled(model, upstream, world, fails, t, texts, misses, size, 0, 0);
    } else {
      UncachedCalls(model, upstream, world, fails, t, texts, misses, size, 0, 0);
    }
  }

  lemma {:induction false} UncachedCalls(model: string, upstream: string -> Vector, world: World, fails: nat -> bool,
                                         s: Tiers, texts: seq<string>, misses: seq<nat>, size: nat, start: nat, b: nat)
    requires Quiet(world) && size > 0 && start <= |misses| && forall i :: 0 <= i < |misses| ==> misses[i] < |texts|
    ensures Called(model, upstream, world, fails, s, texts, misses, size, false, start, b).0 == s
    decreases |misses| - start
  {
    if start < |misses| && !fails(b) {
      UncachedCalls(model, upstream, world, fails, s, texts, misses, size, End(|misses|, start, size), b + 1);
    }
  }

  // ---- answers and batches -------------------------------------------------

  lemma NoMoreCalls(model: string, upstream: string -> Vector, world: World, fails: nat -> bool, s: Tiers,
                    texts: seq<string>, misses: seq<nat>, size: nat, useCache: bool, b: nat)
    requires size > 0 && forall i :: 0 <= i < |misses| ==> misses[i] < |texts|
    ensures Called(model, upstream, world, fails, s, texts, misses, size, useCache, |misses|, b) == (s, true)
  {
  }

  /** The first `n` texts are answered rightly or noted as misses; the others are still open. */
  ghost predicate Answered(upstream: string -> Vector, texts: seq<string>, misses: seq<nat>,
                           results: seq<Option<Vector>>, n: nat)
  {
    && Misses(misses, n) && n <= |texts| == |results|
    && (forall i :: 0 <= i < n ==> (i in misses <==> results[i] == None))
    && (forall i :: 0 <= i < n && results[i].Some? ==> results[i].value == upstream(texts[i]))
    && (forall i :: n <= i < |texts| ==> results[i] == None)
  }

  /** The misses from number `start` on are still without an answer, all other texts have theirs. */
  ghost predicate Open(upstream: string -> Vector, texts: seq<string>, misses: seq<nat>,
                       results: seq<Option<Vector>>, start: nat)
  {
    && Misses(misses, |texts|) && start <= |misses| && |results| == |texts|
    && (forall i :: 0 <= i < |texts| ==> (i in misses[start..] <==> results[i] == None))
    && (forall i :: 0 <= i < |texts| && results[i].Some? ==> results[i].value == upstream(texts[i]))
  }

  lemma AnsweredIsOpen(upstream: string -> Vector, texts: seq<string>, misses: seq<nat>, results: seq<Option<Vector>>)
    requires Answered(upstream, texts, misses, results, |texts|)
    ensures Open(upstream, texts, misses, results, 0)
  {
    assert misses[0..] == misses;
  }

  lemma BatchAnswered(upstream: string -> Vector, texts: seq<string>, misses: seq<nat>, before: seq<Option<Vector>>,
                      after: seq<Option<Vector>>, start: nat, end: nat)
    requires Open(upstream, texts, misses, before, start) && start <= end <= |misses| && |after| == |texts|
    requires forall j :: 0 <= j < |texts| ==>
               after[j] == if j in misses[start..end] then Some(upstream(texts[j])) else before[j]
    ensures Open(upstream, texts, misses, after, end)
  {
    BatchMembers(misses, start, end, |texts|);
  }

  lemma OneMoreAnswer(upstream: string -> Vector, texts: seq<string>, misses: seq<nat>,
                      results: seq<Option<Vector>>, n: nat, v: Option<Vector>)
    requires n < |texts| && Answered(upstream, texts, misses, results, n)
    requires v.Some? ==> v.value == upstream(texts[n])
    ensures |results| == |texts| && Misses(misses, n)
    ensures Answered(upstream, texts, if v.Some? then misses else misses + [n],
                     if v.Some? then results[n := v] else results, n + 1)
  {
    assert n !in misses;
    forall i ensures i in misses + [n] <==> i in misses || i == n {
    }
  }

  lemma PickConcat(texts: seq<string>, a: seq<nat>, b: seq<nat>)
    requires forall i :: 0 <= i < |a| ==> a[i] < |texts|
    requires forall i :: 0 <= i < |b| ==> b[i] < |texts|
    ensures Pick(texts, a + b) == Pick(texts, a) + Pick(texts, b)
  {
  }

  ghost predicate AllFull(sent: seq<seq<string>>, size: nat) {
    forall b :: 0 <= b < |sent| ==> |sent[b]| == size
  }

  /** No batch is empty or too large, and only the last may be short. */
  ghost predicate Batched(sent: seq<seq<string>>, size: nat) {
    && (forall b :: 0 <= b < |sent| ==> 0 < |sent[b]| <= size)
    && (forall b :: 0 <= b < |sent| - 1 ==> |sent[b]| == size)
  }

  lemma BatchMembers(misses: seq<nat>, start: nat, end: nat, n: nat)
    requires Misses(misses, n) && start <= end <= |misses|
    ensures forall i :: i in misses[start..end] ==> i !in misses[end..]
    ensures forall i :: i in misses[start..] <==> i in misses[start..end] || i in misses[end..]
  {
    assert misses[start..] == misses[start..end] + misses[end..];
  }

  lemma NothingSent(texts: seq<string>, misses: seq<nat>, size: nat)
    requires Misses(misses, |texts|)
    ensures Flatten([]) == Pick(texts, misses[..0]) && Batched([], size) && AllFull([], size)
  {
  }

  lemma InOneMore(batch: seq<nat>, i: nat)
    requires i < |batch|
    ensures forall j :: j in batch[..i + 1] <==> j in batch[..i] || j == batch[i]
  {
    assert batch[..i + 1] == batch[..i] + [batch[i]];
  }

  lemma TextsUpTo(texts: seq<string>, misses: seq<nat>, start: nat, end: nat)
    requires Misses(misses, |texts|) && start <= end <= |misses|
    ensures Pick(texts, misses[..end]) == Pick(texts, misses[..start]) + Pick(texts, misses[start..end])
  {
    assert misses[..end] == misses[..start] + misses[start..end];
    PickConcat(texts, misses[..start], misses[start..end]);
  }

  lemma TextsPrefix(texts: seq<string>, misses: seq<nat>, end: nat)
    requires Misses(misses, |texts|) && end <= |misses|
    ensures Pick(texts, misses[..end]) <= Pick(texts, misses)
  {
    assert misses[..|misses|] == misses && misses[end..|misses|] == misses[end..];
    TextsUpTo(texts, misses, end, |misses|);
  }

  lemma OneMoreBatch(sent: seq<seq<string>>, batch: seq<string>, size: nat)
    requires Batched(sent, size) && AllFull(sent, size) && 0 < |batch| <= size
    ensures Batched(sent + [batch], size)
    ensures |batch| == size ==> AllFull(sent + [batch], size)
  {
  }

  /** Sending one more batch extends the texts sent by the texts of that batch. */
  lemma BatchSent(texts: seq<string>, misses: seq<nat>, sent: seq<seq<string>>, start: nat, end: nat, size: nat)
    requires Misses(misses, |texts|) && start < end <= |misses| && end - start <= size
    requires end < |misses| ==> end - start == size
    requires Flatten(sent) == Pick(texts, misses[..start])
    requires Batched(sent, size) && AllFull(sent, size)
    ensures Flatten(sent + [Pick(texts, misses[start..end])]) == Pick(texts, misses[..end])
    ensures Pick(texts, misses[..end]) <= Pick(texts, misses)
    ensures Batched(sent + [Pick(texts, misses[start..end])], size)
    ensures end < |misses| ==> AllFull(sent + [Pick(texts, misses[start..end])], size)
  {
    hide Flatten, Batched, AllFull, Pick;
    var batch := Pick(texts, misses[start..end]);
    FlattenAppend(sent, batch);
    TextsUpTo(texts, misses, start, end);
    TextsPrefix(texts, misses, end);
    OneMoreBatch(sent, batch, size);
  }

  function Present(results: seq<Option<Vector>>): seq<Vector> {
    if results == [] then []
    else Present(results[..|results| - 1]) +
         if results[|results| - 1].Some? then [results[|results| - 1].value] else []
  }

  lemma {:induction false} PresentAll(results: seq<Option<Vector>>)
    requires forall i :: 0 <= i < |results| ==> results[i].Some?
    ensures |Present(results)| == |results|
    ensures forall i :: 0 <= i < |results| ==> Present(results)[i] == results[i].value
  {
    if results != [] {
      PresentAll(results[..|results| - 1]);
    }
  }
}
