/**
 The two tiers in front of the embedding service (src/llm/client.py:202-255) on values: what each
 look-up and each batch does to them while other calls and expiry interfere, which texts are missed,
 and that both tiers stay coherent.
 */
module EmbeddingTiers {
  import opened Prelude
  import opened CacheKeys
  import Lru

  type Vector = seq<real>

  /** The process-local cache and the shared cache. */
  datatype Tiers = Tiers(first: Lru.State<Vector>, second: map<Key, Vector>)

  /** The moments of one call when others have their turn: before and after the shared cache reads a
      text, while the service answers a batch, and before and after the shared cache stores the vector
      of a text. */
  datatype Moment = Asking(i: nat) | Returning(i: nat) | Calling(batch: nat) | Storing(i: nat) | Confirming(i: nat)

  /** What becomes of both tiers at such a moment: entries of the shared cache expire, other calls read
      and write. */
  type World = (Moment, Tiers) -> Tiers

  // ---- what one call does --------------------------------------------------

  /** Lines 212-221: the first tier, then the second, which refills the first. */
  function Asked(model: string, world: World, s: Tiers, i: nat, text: string): (Tiers, Option<Vector>) {
    var key := EmbeddingKey(model, text);
    var (first, v) := Lru.Fetched(s.first, key);
    if v.Some? then (s.(first := first), v)
    else
      var t := world(Asking(i), s);
      var u := world(Returning(i), t);
      if key in t.second then (u.(first := Lru.Stored(u.first, key, t.second[key])), Some(t.second[key]))
      else (u, None)
  }

  /** Lines 211-222: both tiers after all look-ups, and the positions of the misses. */
  function LookedUp(model: string, world: World, s: Tiers, texts: seq<string>, useCache: bool): (Tiers, seq<nat>) {
    if texts == [] then (s, [])
    else
      var n := |texts| - 1;
      var (t, misses) := LookedUp(model, world, s, texts[..n], useCache);
      if !useCache then (t, misses + [n])
      else
        var (u, v) := Asked(model, world, t, n, texts[n]);
        (u, if v.Some? then misses else misses + [n])
  }

  /** Lines 249-252 for one text. */
  function Filed(model: string, world: World, s: Tiers, i: nat, text: string, v: Vector): Tiers {
    var key := EmbeddingKey(model, text);
    var t := world(Storing(i), s.(first := Lru.Stored(s.first, key, v)));
    world(Confirming(i), t.(second := t.second[key := v]))
  }

  /** Lines 247-252 for one batch. */
  function FiledAll(model: string, upstream: string -> Vector, world: World, s: Tiers, texts: seq<string>,
                    batch: seq<nat>, useCache: bool): Tiers
    requires forall i :: 0 <= i < |batch| ==> batch[i] < |texts|
  {
    if batch == [] || !useCache then s
    else
      var at := batch[|batch| - 1];
      Filed(model, world, FiledAll(model, upstream, world, s, texts, batch[..|batch| - 1], useCache), at, texts[at],
            upstream(texts[at]))
  }

  function End(n: nat, start: nat, size: nat): (e: nat)
    requires start < n && size > 0
    ensures start < e <= n && e - start <= size && (e < n ==> e - start == size)
  {
    if start + size < n then start + size else n
  }

  /** Lines 229-252 from the miss number `start` and the batch number `b` on: both tiers at the end, and
      whether every batch came back. */
  function Called(model: string, upstream: string -> Vector, world: World, fails: nat -> bool, s: Tiers,
                  texts: seq<string>, misses: seq<nat>, size: nat, useCache: bool, start: nat, b: nat): (Tiers, bool)
    requires size > 0 && start <= |misses| && forall i :: 0 <= i < |misses| ==> misses[i] < |texts|
    decreases |misses| - start
  {
    if start == |misses| then (s, true)
    else
      var end := End(|misses|, start, size);
      var t := world(Calling(b), s);
      if fails(b) then (t, false)
      else
        Called(model, upstream, world, fails, FiledAll(model, upstream, world, t, texts, misses[start..end], useCache),
               texts, misses, size, useCache, end, b + 1)
  }

  /** One batch: the service is called, and its answers are filed. */
  lemma OneMoreCall(model: string, upstream: string -> Vector, world: World, fails: nat -> bool, s: Tiers,
                    texts: seq<string>, misses: seq<nat>, size: nat, useCache: bool, start: nat, b: nat)
    requires size > 0 && start < |misses| && forall i :: 0 <= i < |misses| ==> misses[i] < |texts|
    ensures var end, t := End(|misses|, start, size), world(Calling(b), s);
            Called(model, upstream, world, fails, s, texts, misses, size, useCache, start, b) ==
            if fails(b) then (t, false)
            else Called(model, upstream, world, fails,
                        FiledAll(model, upstream, world, t, texts, misses[start..end], useCache),
                        texts, misses, size, useCache, end, b + 1)
  {
  }

  // ---- coherence -----------------------------------------------------------

  ghost predicate Coherent(model: string, upstream: string -> Vector, m: map<Key, Vector>) {
    forall t: string :: EmbeddingKey(model, t) in m ==> m[EmbeddingKey(model, t)] == upstream(t)
  }

  /** Whatever subset of a coherent cache survives is coherent. */
  lemma LossKeepsCoherent(model: string, upstream: string -> Vector, m: map<Key, Vector>, rest: map<Key, Vector>)
    requires Coherent(model, upstream, m) && forall k :: k in rest ==> k in m && rest[k] == m[k]
    ensures Coherent(model, upstream, rest)
  {
  }

  lemma StoreKeepsCoherent(model: string, upstream: string -> Vector, m: map<Key, Vector>, text: string, v: Vector)
    requires Coherent(model, upstream, m) && v == upstream(text)
    ensures Coherent(model, upstream, m[EmbeddingKey(model, text) := v])
    ensures forall n ::
              (forall k :: k in n ==>
                 (k == EmbeddingKey(model, text) || k in m) && n[k] == m[EmbeddingKey(model, text) := v][k]) ==>
              Coherent(model, upstream, n)
  {
    var key := EmbeddingKey(model, text);
    forall t: string | EmbeddingKey(model, t) in m[key := v]
      ensures m[key := v][EmbeddingKey(model, t)] == upstream(t)
    {
      if EmbeddingKey(model, t) == key {
        EmbeddingKeyInjective(model, t, text);
      }
    }
    forall n: map<Key, Vector> | forall k :: k in n ==> (k == key || k in m) && n[k] == m[key := v][k]
      ensures Coherent(model, upstream, n)
    {
      LossKeepsCoherent(model, upstream, m[key := v], n);
    }
  }

  /** Both tiers hold, under the key of a text, nothing but that text's vector, and the first is
      within its capacity. */
  ghost predicate Sound(model: string, upstream: string -> Vector, s: Tiers) {
    && Lru.Valid(s.first)
    && Coherent(model, upstream, s.first.vals)
    && Coherent(model, upstream, s.second)
  }

  /** Other calls and expiry keep the tiers sound. */
  ghost predicate Fair(model: string, upstream: string -> Vector, world: World) {
    forall m, s :: Sound(model, upstream, s) ==>
      Sound(model, upstream, world(m, s)) && world(m, s).first.cap == s.first.cap
  }

  lemma StoredIsSound(model: string, upstream: string -> Vector, s: Tiers, text: string, v: Vector)
    requires Sound(model, upstream, s) && v == upstream(text)
    ensures Sound(model, upstream, s.(first := Lru.Stored(s.first, EmbeddingKey(model, text), v)))
  {
    var key := EmbeddingKey(model, text);
    Lru.SetKeepsValid(s.first, key, v);
    StoreKeepsCoherent(model, upstream, s.first.vals, text, v);
  }

  /** A hit in the first tier is answered without asking the second. A text found in the second enters the
      first, unless others push it out meanwhile. */
  lemma AskedInOrder(model: string, world: World, s: Tiers, i: nat, text: string)
    requires Lru.Valid(s.first)
    ensures var (t, v), key := Asked(model, world, s, i, text), EmbeddingKey(model, text);
            && (key in s.first.vals ==>
                  v == Some(s.first.vals[key]) && t.second == s.second && t.first.vals == s.first.vals)
            && (Quiet(world) && key !in s.first.vals && key in s.second ==>
                  v == Some(s.second[key]) && t.second == s.second &&
                  (s.first.cap > 0 ==> key in t.first.vals && t.first.vals[key] == s.second[key]))
  {
    var key := EmbeddingKey(model, text);
    Lru.GetKeepsValid(s.first, key);
    if key in s.second {
      Lru.SetKeepsValid(s.first, key, s.second[key]);
    }
  }

  /** A vector that is filed undisturbed is in both tiers. */
  lemma FiledInBoth(model: string, world: World, s: Tiers, i: nat, text: string, v: Vector)
    requires Lru.Valid(s.first) && Quiet(world)
    ensures var t, key := Filed(model, world, s, i, text, v), EmbeddingKey(model, text);
            && t.second == s.second[key := v]
            && (s.first.cap > 0 ==> key in t.first.vals && t.first.vals[key] == v)
  {
    Lru.SetKeepsValid(s.first, EmbeddingKey(model, text), v);
  }

  /** A look-up keeps both tiers sound and answers rightly. */
  lemma AskedIsSound(model: string, upstream: string -> Vector, world: World, s: Tiers, i: nat, text: string)
    requires Sound(model, upstream, s) && Fair(model, upstream, world)
    ensures var (t, v) := Asked(model, world, s, i, text);
            && Sound(model, upstream, t) && t.first.cap == s.first.cap
            && (v.Some? ==> v.value == upstream(text))
  {
    hide EmbeddingKey;
    var key := EmbeddingKey(model, text);
    Lru.GetKeepsValid(s.first, key);
    var t := world(Asking(i), s);
    var u := world(Returning(i), t);
    assert Sound(model, upstream, t) && Sound(model, upstream, u);
    if key in t.second {
      hide Sound, Coherent, Fair;
      assert t.second[key] == upstream(text) by { CoherentAt(model, upstream, t, text); }
      StoredIsSound(model, upstream, u, text, upstream(text));
    }
  }

  lemma CoherentAt(model: string, upstream: string -> Vector, s: Tiers, text: string)
    requires Sound(model, upstream, s) && EmbeddingKey(model, text) in s.second
    ensures s.second[EmbeddingKey(model, text)] == upstream(text)
  {
  }

  lemma SecondStoredIsSound(model: string, upstream: string -> Vector, s: Tiers, text: string, v: Vector)
    requires Sound(model, upstream, s) && v == upstream(text)
    ensures Sound(model, upstream, s.(second := s.second[EmbeddingKey(model, text) := v]))
  {
    StoreKeepsCoherent(model, upstream, s.second, text, v);
  }

  lemma FairTurn(model: string, upstream: string -> Vector, world: World, m: Moment, s: Tiers)
    requires Fair(model, upstream, world) && Sound(model, upstream, s)
    ensures Sound(model, upstream, world(m, s)) && world(m, s).first.cap == s.first.cap
  {
  }

  lemma FiledIsSound(model: string, upstream: string -> Vector, world: World, s: Tiers, i: nat, text: string)
    requires Sound(model, upstream, s) && Fair(model, upstream, world)
    ensures Sound(model, upstream, Filed(model, world, s, i, text, upstream(text)))
    ensures Filed(model, world, s, i, text, upstream(text)).first.cap == s.first.cap
  {
    hide EmbeddingKey, Sound, Fair;
    var key, v := EmbeddingKey(model, text), upstream(text);
    var first := s.(first := Lru.Stored(s.first, key, v));
    StoredIsSound(model, upstream, s, text, v);
    FairTurn(model, upstream, world, Storing(i), first);
    var t := world(Storing(i), first);
    SecondStoredIsSound(model, upstream, t, text, v);
    FairTurn(model, upstream, world, Confirming(i), t.(second := t.second[key := v]));
  }

  // ---- misses --------------------------------------------------------------

  /** Positions below `n`, in ascending order. */
  ghost predicate Misses(misses: seq<nat>, n: nat) {
    && (forall i :: 0 <= i < |misses| ==> misses[i] < n)
    && (forall i, j :: 0 <= i < j < |misses| ==> misses[i] < misses[j])
  }

  /** A text is a miss if and only if neither tier has it at the moment it is asked for: the first
      tier after the look-ups before it, the second after what happened while it was asked. */
  lemma {:induction false} MissIff(model: string, world: World, s: Tiers, texts: seq<string>, i: nat)
    requires i < |texts|
    ensures var t := LookedUp(model, world, s, texts[..i], true).0;
            var key := EmbeddingKey(model, texts[i]);
            i in LookedUp(model, world, s, texts, true).1 <==>
            key !in t.first.vals && key !in world(Asking(i), t).second
  {
    MissesAscend(model, world, s, texts[..|texts| - 1], true);
    if i < |texts| - 1 {
      MissIff(model, world, s, texts[..|texts| - 1], i);
      assert texts[..|texts| - 1][..i] == texts[..i];
    }
  }

  lemma {:induction false} MissesAscend(model: string, world: World, s: Tiers, texts: seq<string>, useCache: bool)
    ensures Misses(LookedUp(model, world, s, texts, useCache).1, |texts|)
    ensures !useCache ==> LookedUp(model, world, s, texts, useCache).0 == s
    ensures !useCache ==> |LookedUp(model, world, s, texts, useCache).1| == |texts|
  {
    if texts != [] {
      MissesAscend(model, world, s, texts[..|texts| - 1], useCache);
    }
  }

  // ---- undisturbed calls ---------------------------------------------------

  ghost predicate Quiet(world: World) {
    forall m, s :: world(m, s) == s
  }

  /** A text in the second tier is no miss, a text in neither tier is one, and with an empty second
      tier nothing pushes anything out of the first before it is asked for. */
  ghost predicate ExactMisses(model: string, texts: seq<string>, misses: seq<nat>, first: set<Key>, second: set<Key>) {
    forall i :: 0 <= i < |texts| ==>
      && (EmbeddingKey(model, texts[i]) in second ==> i !in misses)
      && (EmbeddingKey(model, texts[i]) !in first + second ==> i in misses)
      && (second == {} ==> (i in misses <==> EmbeddingKey(model, texts[i]) !in first))
  }

  /** What look-ups alone do to the first tier: keys come only from the second. */
  ghost predicate Refilled(before: map<Key, Vector>, after: map<Key, Vector>, second: map<Key, Vector>) {
    && (forall k :: k in after ==> k in before || k in second)
    && (second == map[] ==> after == before)
  }

  lemma RefilledAgain(a: map<Key, Vector>, b: map<Key, Vector>, c: map<Key, Vector>, second: map<Key, Vector>)
    requires Refilled(a, b, second) && Refilled(b, c, second)
    ensures Refilled(a, c, second)
  {
  }

  lemma OneMoreText(model: string, texts: seq<string>, i: nat, misses: seq<nat>, missed: bool,
                    before: map<Key, Vector>, first: map<Key, Vector>, second: map<Key, Vector>)
    requires i < |texts| && Misses(misses, i) && ExactMisses(model, texts[..i], misses, before.Keys, second.Keys)
    requires Refilled(before, first, second)
    requires missed <==> EmbeddingKey(model, texts[i]) !in first && EmbeddingKey(model, texts[i]) !in second
    ensures ExactMisses(model, texts[..i + 1], if missed then misses + [i] else misses, before.Keys, second.Keys)
  {
    hide EmbeddingKey;
    forall j | 0 <= j < i ensures texts[..i][j] == texts[..i + 1][j] && j !in [i] {
    }
    assert i !in misses;
    assert second.Keys == {} ==> second == map[];
  }

  lemma AskedQuietly(model: string, world: World, s: Tiers, i: nat, text: string)
    requires Quiet(world)
    ensures var (t, v) := Asked(model, world, s, i, text);
            && t.second == s.second && Refilled(s.first.vals, t.first.vals, s.second)
            && (v.None? <==> EmbeddingKey(model, text) !in s.first.vals && EmbeddingKey(model, text) !in s.second)
  {
  }

  /** In an undisturbed call the misses are those of the tiers as they were: the second tier does not
      change, and the first is only refilled from it. */
  lemma {:induction false} QuietMisses(model: string, world: World, s: Tiers, texts: seq<string>)
    requires Quiet(world)
    ensures var (t, misses) := LookedUp(model, world, s, texts, true);
            && t.second == s.second && Refilled(s.first.vals, t.first.vals, s.second)
            && ExactMisses(model, texts, misses, s.first.vals.Keys, s.second.Keys)
  {
    if texts != [] {
      var n := |texts| - 1;
      QuietMisses(model, world, s, texts[..n]);
      MissesAscend(model, world, s, texts[..n], true);
      var (t, misses) := LookedUp(model, world, s, texts[..n], true);
      hide ExactMisses, Refilled, Misses, EmbeddingKey, Quiet, Asked;
      AskedQuietly(model, world, t, n, texts[n]);
      var (u, v) := Asked(model, world, t, n, texts[n]);
      OneMoreText(model, texts, n, misses, v.None?, s.first.vals, t.first.vals, s.second);
      RefilledAgain(s.first.vals, t.first.vals, u.first.vals, s.second);
      assert texts[..n + 1] == texts;
    }
  }

  lemma FiledQuietly(model: string, world: World, s: Tiers, i: nat, text: string, v: Vector)
    requires Quiet(world)
    ensures Filed(model, world, s, i, text, v).second.Keys == s.second.Keys + {EmbeddingKey(model, text)}
  {
  }

  lemma FileLast(model: string, upstream: string -> Vector, world: World, s: Tiers, texts: seq<string>, batch: seq<nat>)
    requires batch != [] && forall i :: 0 <= i < |batch| ==> batch[i] < |texts|
    ensures var n := |batch| - 1;
            FiledAll(model, upstream, world, s, texts, batch, true) ==
            Filed(model, world, FiledAll(model, upstream, world, s, texts, batch[..n], true), batch[n],
                  texts[batch[n]], upstream(texts[batch[n]]))
  {
  }

  lemma {:induction false} QuietFiled(model: string, upstream: string -> Vector, world: World, s: Tiers,
                                      texts: seq<string>, batch: seq<nat>)
    requires Quiet(world) && forall i :: 0 <= i < |batch| ==> batch[i] < |texts|
    ensures var t := FiledAll(model, upstream, world, s, texts, batch, true);
            && s.second.Keys <= t.second.Keys
            && forall at :: at in batch ==> EmbeddingKey(model, texts[at]) in t.second.Keys
  {
    if batch != [] {
      hide *;
      var n := |batch| - 1;
      assert batch == batch[..n] + [batch[n]];
      FileLast(model, upstream, world, s, texts, batch);
      QuietFiled(model, upstream, world, s, texts, batch[..n]);
      FiledQuietly(model, world, FiledAll(model, upstream, world, s, texts, batch[..n], true), batch[n],
                   texts[batch[n]], upstream(texts[batch[n]]));
    }
  }

  /** An undisturbed call that gets all its answers leaves every miss in the second tier. */
  lemma {:induction false} QuietCalled(model: string, upstream: string -> Vector, world: World, fails: nat -> bool,
                                       s: Tiers, texts: seq<string>, misses: seq<nat>, size: nat, start: nat, b: nat)
    requires Quiet(world) && size > 0 && start <= |misses|
    requires forall i :: 0 <= i < |misses| ==> misses[i] < |texts|
    ensures var (t, ok) := Called(model, upstream, world, fails, s, texts, misses, size, true, start, b);
            && s.second.Keys <= t.second.Keys
            && (ok ==> forall i :: start <= i < |misses| ==> EmbeddingKey(model, texts[misses[i]]) in t.second.Keys)
    decreases |misses| - start
  {
    if start < |misses| && !fails(b) {
      var end := End(|misses|, start, size);
      var batch := misses[start..end];
      var u := FiledAll(model, upstream, world, s, texts, batch, true);
      QuietFiled(model, upstream, world, s, texts, batch);
      QuietCalled(model, upstream, world, fails, u, texts, misses, size, end, b + 1);
      forall i | start <= i < end ensures EmbeddingKey(model, texts[misses[i]]) in u.second.Keys {
        assert batch[i - start] == misses[i] && misses[i] in batch;
      }
    }
  }
}
