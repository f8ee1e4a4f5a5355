/**
 The process-local cache `_LRU` (src/llm/client.py:41-58): a class over an
 ordered dictionary, its specification on values, and what every trace of
 look-ups and insertions leaves in it.
 */
module Lru {
  import opened Prelude

  type Key = string

  /** The contents of an ordered dictionary with a capacity, least recent key first. */
  datatype State<V> = State(cap: nat, order: seq<Key>, vals: map<Key, V>)

  ghost predicate Valid<V>(s: State<V>) {
    && Distinct(s.order)
    && (forall k :: k in s.order <==> k in s.vals)
    && |s.order| <= s.cap
  }

  function Empty<V>(cap: nat): State<V> {
    State(cap, [], map[])
  }

  function Touch(order: seq<Key>, k: Key): seq<Key> {
    Without(order, k) + [k]
  }

  function Fetched<V>(s: State<V>, k: Key): (State<V>, Option<V>) {
    if k in s.vals then (s.(order := Touch(s.order, k)), Some(s.vals[k])) else (s, None)
  }

  /** Insert or refresh `k`, then drop the least recent key if the capacity is exceeded. */
  function Stored<V>(s: State<V>, k: Key, v: V): State<V> {
    var order := Touch(s.order, k);
    var vals := s.vals[k := v];
    if |order| > s.cap then State(s.cap, order[1..], vals - {order[0]}) else State(s.cap, order, vals)
  }

  class Cache<V> {
    const cap: nat
    var order: seq<Key>
    var vals: map<Key, V>

    ghost function Contents(): State<V>
      reads this
    {
      State(cap, order, vals)
    }

    constructor (capacity: nat)
      ensures cap == capacity && Contents() == Empty(capacity) && Valid(Contents())
    {
      cap, order, vals := capacity, [], map[];
    }

    method Get(k: Key) returns (v: Option<V>)
      modifies this
      ensures (Contents(), v) == Fetched(old(Contents()), k)
    {
      if k in vals {
        v := Some(vals[k]);
        order := Touch(order, k);
      } else {
        v := None;
      }
    }

    method Set(k: Key, v: V)
      modifies this
      ensures Contents() == Stored(old(Contents()), k, v)
    {
      vals := vals[k := v];
      order := Touch(order, k);
      if |order| > cap {
        vals := vals - {order[0]};
        order := order[1..];
      }
    }
  }

  // ---- one operation -------------------------------------------------------

  lemma TouchDistinct(order: seq<Key>, k: Key)
    requires Distinct(order)
    ensures Distinct(Touch(order, k))
    ensures |Touch(order, k)| == if k in order then |order| else |order| + 1
    ensures forall x :: x in Touch(order, k) <==> x in order || x == k
  {
    WithoutDistinct(order, k);
  }

  lemma GetKeepsValid<V>(s: State<V>, k: Key)
    requires Valid(s)
    ensures Valid(Fetched(s, k).0)
  {
    TouchDistinct(s.order, k);
  }

  lemma TouchNew(order: seq<Key>, k: Key)
    requires k !in order
    ensures Touch(order, k) == order + [k]
  {
  }

  lemma DropOldest<V>(order: seq<Key>, vals: map<Key, V>)
    requires Distinct(order) && order != [] && forall k :: k in order <==> k in vals
    ensures Distinct(order[1..])
    ensures forall k :: k in order[1..] <==> k in vals - {order[0]}
  {
    assert order == [order[0]] + order[1..];
    assert order[0] !in order[1..];
  }

  /** After an insertion the key answers with the new value unless the capacity is zero,
      at most the least recent key is gone, and every other key answers as before. */
  lemma SetKeepsValid<V>(s: State<V>, k: Key, v: V)
    requires Valid(s)
    ensures Valid(Stored(s, k, v))
    ensures s.cap > 0 ==> k in Stored(s, k, v).vals
    ensures forall x :: x in Stored(s, k, v).vals ==>
              (x == k || x in s.vals) && Stored(s, k, v).vals[x] == s.vals[k := v][x]
    ensures forall x :: x in s.vals && x != k && (|s.order| < s.cap || k in s.vals || x != s.order[0]) ==>
              x in Stored(s, k, v).vals
  {
    hide Touch, Without;
    TouchDistinct(s.order, k);
    var order := Touch(s.order, k);
    if |order| > s.cap {
      hide Distinct;
      TouchNew(s.order, k);
      DropOldest(order, s.vals[k := v]);
    }
  }

  // ---- traces --------------------------------------------------------------

  datatype Op<V> = Lookup(key: Key) | Insert(key: Key, val: V)

  function Apply<V>(s: State<V>, op: Op<V>): State<V> {
    match op
    case Lookup(k) => Fetched(s, k).0
    case Insert(k, v) => Stored(s, k, v)
  }

  function Run<V>(cap: nat, ops: seq<Op<V>>): State<V> {
    if ops == [] then Empty(cap) else Apply(Run(cap, ops[..|ops| - 1]), ops[|ops| - 1])
  }

  lemma {:induction false} RunValid<V>(cap: nat, ops: seq<Op<V>>)
    ensures Valid(Run(cap, ops)) && Run(cap, ops).cap == cap
  {
    if ops != [] {
      var s := Run(cap, ops[..|ops| - 1]);
      RunValid(cap, ops[..|ops| - 1]);
      match ops[|ops| - 1] {
        case Lookup(k) => GetKeepsValid(s, k);
        case Insert(k, v) => SetKeepsValid(s, k, v);
      }
    }
  }

  // ---- what a trace leaves -------------------------------------------------

  /** The keys the cache touches along a trace: insertions and successful look-ups. */
  function Touched<V>(cap: nat, ops: seq<Op<V>>): seq<Key> {
    if ops == [] then []
    else
      var before := Touched(cap, ops[..|ops| - 1]);
      var op := ops[|ops| - 1];
      if op.Insert? || op.key in Run(cap, ops[..|ops| - 1]).vals then before + [op.key] else before
  }

  /** The distinct keys of `touched`, ordered by the position of their last occurrence. */
  function Recency(touched: seq<Key>): seq<Key> {
    if touched == [] then [] else Touch(Recency(touched[..|touched| - 1]), touched[|touched| - 1])
  }

  /** The position of the last occurrence of `k`. */
  function LastAt(touched: seq<Key>, k: Key): (i: nat)
    requires k in touched
    ensures i < |touched| && touched[i] == k
    ensures forall j :: i < j < |touched| ==> touched[j] != k
  {
    if touched[|touched| - 1] == k then |touched| - 1 else LastAt(touched[..|touched| - 1], k)
  }

  /** Both keys were touched, `a` for the last time before `b`. */
  ghost predicate Earlier(touched: seq<Key>, a: Key, b: Key) {
    a in touched && b in touched && LastAt(touched, a) < LastAt(touched, b)
  }

  lemma EarlierExtends(touched: seq<Key>, k: Key, a: Key, b: Key)
    requires a in touched && a != k
    requires b == k || Earlier(touched, a, b)
    ensures Earlier(touched + [k], a, b)
  {
    assert (touched + [k])[..|touched|] == touched;
  }

  /** The recency list holds each touched key once, ordered by the time of its last touch. */
  lemma {:induction false} RecencyIsByLastTouch(touched: seq<Key>)
    ensures Distinct(Recency(touched))
    ensures forall k :: k in Recency(touched) <==> k in touched
    ensures forall i, j :: 0 <= i < j < |Recency(touched)| ==>
              Earlier(touched, Recency(touched)[i], Recency(touched)[j])
  {
    if touched != [] {
      var front, k := touched[..|touched| - 1], touched[|touched| - 1];
      assert touched == front + [k];
      var older := Without(Recency(front), k);
      assert Recency(touched) == older + [k];
      RecencyIsByLastTouch(front);
      TouchDistinct(Recency(front), k);
      forall i, j | 0 <= i < j < |older| + 1
        ensures Earlier(touched, (older + [k])[i], (older + [k])[j])
      {
        assert older[i] in older;
        if j < |older| {
          WithoutKeepsOrder(Recency(front), k, i, j);
          assert Earlier(front, older[i], older[j]);
          EarlierExtends(front, k, older[i], older[j]);
        } else {
          EarlierExtends(front, k, older[i], k);
        }
      }
    }
  }

  lemma {:induction false} WithoutKeepsOrder(s: seq<Key>, x: Key, i: nat, j: nat)
    requires Distinct(s) && i < j < |Without(s, x)|
    ensures exists a, b :: 0 <= a < b < |s| && s[a] == Without(s, x)[i] && s[b] == Without(s, x)[j]
  {
    var front, last := s[..|s| - 1], s[|s| - 1];
    assert s == front + [last];
    var r := Without(front, x);
    if j < |r| {
      WithoutKeepsOrder(front, x, i, j);
      var a, b :| 0 <= a < b < |front| && front[a] == r[i] && front[b] == r[j];
      assert s[a] == r[i] && s[b] == r[j];
    } else {
      assert r[i] in front;
      var a :| 0 <= a < |front| && front[a] == r[i];
      assert s[a] == Without(s, x)[i] && s[|s| - 1] == Without(s, x)[j];
    }
  }

  /** The value most recently inserted for `k`. */
  function LatestValue<V>(ops: seq<Op<V>>, k: Key): Option<V> {
    if ops == [] then None
    else if ops[|ops| - 1].Insert? && ops[|ops| - 1].key == k then Some(ops[|ops| - 1].val)
    else LatestValue(ops[..|ops| - 1], k)
  }

  lemma StoredOrder<V>(s: State<V>, k: Key, v: V)
    requires Valid(s)
    ensures Stored(s, k, v).order == Last(Touch(s.order, k), s.cap)
  {
    TouchDistinct(s.order, k);
  }

  lemma LastOfConcat<T>(a: seq<T>, b: seq<T>, n: nat)
    requires n <= |b|
    ensures Last(a + b, n) == Last(b, n)
  {
  }

  /** Moving a key among the last `n` to the end commutes with keeping the last `n`. */
  lemma TouchAmongLast(older: seq<Key>, kept: seq<Key>, k: Key)
    requires Distinct(older + kept) && k in kept
    ensures Touch(older + kept, k) == older + Touch(kept, k)
  {
    var j :| 0 <= j < |kept| && kept[j] == k;
    assert forall i :: 0 <= i < |older| ==> older[i] == (older + kept)[i] && k == (older + kept)[|older| + j];
    assert k !in older;
    WithoutConcat(older, kept, k);
  }

  lemma TouchBesideLast(older: seq<Key>, kept: seq<Key>, k: Key)
    ensures Touch(older + kept, k) == Without(older, k) + Touch(kept, k)
  {
    WithoutConcat(older, kept, k);
  }

  lemma LastOfShort<T>(s: seq<T>, n: nat)
    requires |s| <= n
    ensures Last(s, n) == s
  {
  }

  /** Moving any key to the end and keeping the last `n` needs only the last `n` of before. */
  lemma LastOfTouch(r: seq<Key>, k: Key, n: nat)
    requires Distinct(r)
    ensures k in Last(r, n) ==> Touch(Last(r, n), k) == Last(Touch(r, k), n)
    ensures Last(Touch(Last(r, n), k), n) == Last(Touch(r, k), n)
  {
    if n < |r| {
      var older, kept := r[..|r| - n], Last(r, n);
      assert r == older + kept;
      assert Distinct(kept);
      hide Without, Touch, Distinct, Last;
      TouchDistinct(kept, k);
      if k in kept {
        TouchAmongLast(older, kept, k);
        LastOfConcat(older, Touch(kept, k), n);
        LastOfShort(Touch(kept, k), n);
      } else {
        TouchBesideLast(older, kept, k);
        LastOfConcat(Without(older, k), Touch(kept, k), n);
      }
    } else {
      TouchDistinct(r, k);
    }
  }

  /** After any trace the cache holds exactly the most recently touched keys that fit, in order
      of last touch. */
  lemma {:induction false} HoldsTheMostRecent<V>(cap: nat, ops: seq<Op<V>>)
    ensures Run(cap, ops).order == Last(Recency(Touched(cap, ops)), cap)
  {
    if ops != [] {
      var front, op := ops[..|ops| - 1], ops[|ops| - 1];
      var s, touched := Run(cap, front), Touched(cap, front);
      HoldsTheMostRecent(cap, front);
      RunValid(cap, front);
      RecencyIsByLastTouch(touched);
      if op.Insert? || op.key in s.vals {
        assert (touched + [op.key])[..|touched|] == touched;
        assert Recency(Touched(cap, ops)) == Touch(Recency(touched), op.key);
        LastOfTouch(Recency(touched), op.key, cap);
        if op.Insert? {
          StoredOrder(s, op.key, op.val);
        }
      }
    }
  }

  /** After any trace every key present answers with the value inserted for it last. */
  lemma {:induction false} AnswersTheLatest<V>(cap: nat, ops: seq<Op<V>>)
    ensures forall k :: k in Run(cap, ops).vals ==> LatestValue(ops, k) == Some(Run(cap, ops).vals[k])
  {
    if ops != [] {
      var front, op := ops[..|ops| - 1], ops[|ops| - 1];
      AnswersTheLatest(cap, front);
      RunValid(cap, front);
      if op.Insert? {
        SetKeepsValid(Run(cap, front), op.key, op.val);
      }
    }
  }

  // ---- inclusion -----------------------------------------------------------

  lemma {:induction false} SubsequenceMembers(a: seq<Key>, b: seq<Key>)
    requires Subsequence(a, b)
    ensures forall x :: x in a ==> x in b
    ensures |a| <= |b|
    decreases |b|
  {
    if a != [] {
      assert a == a[..|a| - 1] + [a[|a| - 1]];
      assert b == b[..|b| - 1] + [b[|b| - 1]];
      if a[|a| - 1] == b[|b| - 1] && Subsequence(a[..|a| - 1], b[..|b| - 1]) {
        SubsequenceMembers(a[..|a| - 1], b[..|b| - 1]);
      } else {
        SubsequenceMembers(a, b[..|b| - 1]);
      }
    }
  }

  lemma {:induction false} SubsequenceWithout(a: seq<Key>, b: seq<Key>, x: Key)
    requires Subsequence(a, b)
    ensures Subsequence(Without(a, x), Without(b, x))
    decreases |b|
  {
    if a != [] {
      var a', b' := a[..|a| - 1], b[..|b| - 1];
      assert a == a' + [a[|a| - 1]] && b == b' + [b[|b| - 1]];
      if a[|a| - 1] == b[|b| - 1] && Subsequence(a', b') {
        SubsequenceWithout(a', b', x);
        if a[|a| - 1] != x {
          SubsequenceSnoc(Without(a', x), Without(b', x), a[|a| - 1]);
        }
      } else {
        SubsequenceWithout(a, b', x);
        if b[|b| - 1] != x {
          SubsequenceWeaken(Without(a, x), Without(b', x), b[|b| - 1]);
        }
      }
    }
  }

  lemma SubsequenceSnoc(a: seq<Key>, b: seq<Key>, x: Key)
    requires Subsequence(a, b)
    ensures Subsequence(a + [x], b + [x])
  {
    assert (a + [x])[..|a|] == a && (b + [x])[..|b|] == b;
  }

  lemma SubsequenceWeaken(a: seq<Key>, b: seq<Key>, x: Key)
    requires Subsequence(a, b)
    ensures Subsequence(a, b + [x])
  {
    assert (b + [x])[..|b|] == b;
    if a != [] && a[|a| - 1] == x && Subsequence(a[..|a| - 1], b) {
    }
  }

  lemma {:induction false} SubsequenceDropHead(a: seq<Key>, b: seq<Key>)
    requires Subsequence(a, b) && b != []
    ensures a != [] && a[0] == b[0] ==> Subsequence(a[1..], b[1..])
    ensures (a == [] || b[0] !in a) ==> Subsequence(a, b[1..])
    ensures a != [] ==> Subsequence(a[1..], b[1..])
    decreases |b|
  {
    if a != [] {
      var a', b' := a[..|a| - 1], b[..|b| - 1];
      assert a == a' + [a[|a| - 1]] && b == b' + [b[|b| - 1]];
      if |b| == 1 {
        SubsequenceMembers(a, b);
        assert a' == [] && a[1..] == [];
      } else if a[|a| - 1] == b[|b| - 1] && Subsequence(a', b') {
        SubsequenceDropHead(a', b');
        assert b[1..][..|b| - 2] == b'[1..];
        if |a| > 1 {
          assert a[1..][..|a| - 2] == a'[1..];
        }
      } else {
        SubsequenceDropHead(a, b');
        assert b[1..] == b'[1..] + [b[|b| - 1]];
        SubsequenceWeaken(a[1..], b'[1..], b[|b| - 1]);
        if b[0] !in a {
          SubsequenceWeaken(a, b'[1..], b[|b| - 1]);
        }
      }
    }
  }

  /** The smaller cache is contained in the larger one, and as long as it has free room it has
      never dropped anything the larger one still holds. */
  ghost predicate Included<V>(small: State<V>, large: State<V>) {
    && Subsequence(small.order, large.order)
    && (forall k :: k in small.vals ==> k in large.vals && large.vals[k] == small.vals[k])
    && (|small.order| < small.cap ==> small.vals.Keys == large.vals.Keys)
  }

  lemma {:induction false} StepKeepsIncluded<V>(small: State<V>, large: State<V>, op: Op<V>)
    requires Valid(small) && Valid(large) && small.cap <= large.cap && Included(small, large)
    ensures Included(Apply(small, op), Apply(large, op))
  {
    SubsequenceMembers(small.order, large.order);
    SubsequenceWithout(small.order, large.order, op.key);
    var a, b := Without(small.order, op.key), Without(large.order, op.key);
    SubsequenceSnoc(a, b, op.key);
    match op {
      case Lookup(k) =>
        TouchDistinct(small.order, k);
        TouchDistinct(large.order, k);
        if k !in small.vals && k in large.vals {
          SubsequenceWeaken(a, b, k);
        }
      case Insert(k, v) =>
        InsertKeepsIncluded(small, large, k, v);
    }
  }

  lemma {:induction false} SubsequencePrepend(a: seq<Key>, x: Key, b: seq<Key>)
    requires Subsequence(a, b)
    ensures Subsequence(a, [x] + b)
    decreases |b|
  {
    if a != [] {
      assert ([x] + b)[..|b|] == [x] + b[..|b| - 1];
      if a[|a| - 1] == b[|b| - 1] && Subsequence(a[..|a| - 1], b[..|b| - 1]) {
        SubsequencePrepend(a[..|a| - 1], x, b[..|b| - 1]);
      } else {
        SubsequencePrepend(a, x, b[..|b| - 1]);
      }
    }
  }

  /** Dropping the heads that exceed the capacities keeps the subsequence, provided the smaller
      list is over its capacity whenever the larger one is. */
  lemma EvictKeepsSubsequence(a: seq<Key>, b: seq<Key>, cap1: nat, cap2: nat)
    requires Subsequence(a, b) && a != [] && b != []
    requires |b| > cap2 ==> |a| > cap1
    ensures Subsequence(if |a| > cap1 then a[1..] else a, if |b| > cap2 then b[1..] else b)
  {
    SubsequenceDropHead(a, b);
    if |a| > cap1 && |b| <= cap2 {
      SubsequencePrepend(a[1..], b[0], b[1..]);
      assert [b[0]] + b[1..] == b;
    }
  }

  /** The lengths after an insertion, before anything is evicted: if the larger cache evicts, so
      does the smaller, and a smaller cache with room left means that neither evicts. */
  lemma WhoEvicts<V>(small: State<V>, large: State<V>, k: Key)
    requires Valid(small) && Valid(large) && small.cap <= large.cap && Included(small, large)
    ensures |Touch(large.order, k)| > large.cap ==> |Touch(small.order, k)| > small.cap
    ensures |Touch(small.order, k)| < small.cap ==> |Touch(large.order, k)| <= large.cap
  {
    SameKeysSameLength(small, large);
    TouchDistinct(small.order, k);
    TouchDistinct(large.order, k);
  }

  lemma InsertKeepsOrder<V>(small: State<V>, large: State<V>, k: Key, v: V)
    requires Valid(small) && Valid(large) && small.cap <= large.cap && Included(small, large)
    requires Subsequence(Touch(small.order, k), Touch(large.order, k))
    ensures Subsequence(Stored(small, k, v).order, Stored(large, k, v).order)
  {
    WhoEvicts(small, large, k);
    EvictKeepsSubsequence(Touch(small.order, k), Touch(large.order, k), small.cap, large.cap);
  }

  lemma InsertKeepsRoom<V>(small: State<V>, large: State<V>, k: Key, v: V)
    requires Valid(small) && Valid(large) && small.cap <= large.cap && Included(small, large)
    requires |Stored(small, k, v).order| < small.cap
    ensures Stored(small, k, v).vals.Keys == Stored(large, k, v).vals.Keys
  {
    WhoEvicts(small, large, k);
    TouchDistinct(small.order, k);
    assert |small.order| < small.cap;
    assert Stored(small, k, v).vals == small.vals[k := v];
    assert Stored(large, k, v).vals == large.vals[k := v];
  }

  lemma InsertKeepsAnswers<V>(small: State<V>, large: State<V>, k: Key, v: V, x: Key)
    requires Valid(small) && Valid(large) && Included(small, large)
    requires x in Stored(small, k, v).vals && x in Stored(large, k, v).vals
    ensures Stored(large, k, v).vals[x] == Stored(small, k, v).vals[x]
  {
    SetKeepsValid(small, k, v);
    SetKeepsValid(large, k, v);
  }

  lemma InsertKeepsIncluded<V>(small: State<V>, large: State<V>, k: Key, v: V)
    requires Valid(small) && Valid(large) && small.cap <= large.cap && Included(small, large)
    requires Subsequence(Touch(small.order, k), Touch(large.order, k))
    ensures Included(Stored(small, k, v), Stored(large, k, v))
  {
    var s, l := Stored(small, k, v), Stored(large, k, v);
    assert Subsequence(s.order, l.order) by { InsertKeepsOrder(small, large, k, v); }
    assert |s.order| < s.cap ==> s.vals.Keys == l.vals.Keys by {
      if |s.order| < s.cap {
        InsertKeepsRoom(small, large, k, v);
      }
    }
    assert Valid(s) by { SetKeepsValid(small, k, v); }
    assert Valid(l) by { SetKeepsValid(large, k, v); }
    SubsequenceMembers(s.order, l.order);
    forall x | x in s.vals ensures x in l.vals && l.vals[x] == s.vals[x] {
      assert x in s.order;
      InsertKeepsAnswers(small, large, k, v, x);
    }
  }

  /** Two valid caches with the same keys have the same number of them. */
  lemma SameKeysSameLength<V>(small: State<V>, large: State<V>)
    requires Valid(small) && Valid(large)
    ensures small.vals.Keys == large.vals.Keys ==> |small.order| == |large.order|
  {
    KeyCount(small.order);
    KeyCount(large.order);
    assert (set x | x in small.order) == small.vals.Keys;
    assert (set x | x in large.order) == large.vals.Keys;
  }

  lemma {:induction false} KeyCount(s: seq<Key>)
    requires Distinct(s)
    ensures |set x | x in s| == |s|
  {
    if s != [] {
      var front, last := s[..|s| - 1], s[|s| - 1];
      KeyCount(front);
      assert s == front + [last];
      assert (set x | x in s) == (set x | x in front) + {last};
    }
  }

  /** Inclusion: on the same trace the keys of the smaller cache are a subsequence of the keys of
      the larger one, and every hit of the smaller is a hit of the larger with the same value,
      even though the larger may hit where the smaller misses. */
  lemma {:induction false} Inclusion<V>(cap1: nat, cap2: nat, ops: seq<Op<V>>)
    requires cap1 <= cap2
    ensures Included(Run(cap1, ops), Run(cap2, ops))
    ensures forall k :: Fetched(Run(cap1, ops), k).1.Some? ==>
              Fetched(Run(cap2, ops), k).1 == Fetched(Run(cap1, ops), k).1
  {
    if ops != [] {
      var front := ops[..|ops| - 1];
      Inclusion(cap1, cap2, front);
      RunValid(cap1, front);
      RunValid(cap2, front);
      StepKeepsIncluded(Run(cap1, front), Run(cap2, front), ops[|ops| - 1]);
    }
  }
}
