/**
 With distinct timestamps: what decides a request, and what `remaining` and `retry_after` mean
 (src/cache/rate_limit.py:36-53).
 */
module RateLimitExact {
  import opened Prelude
  import opened RateLimit

  // ---- the decision --------------------------------------------------------

  ghost predicate DistinctTimes(s: State) {
    forall i, j :: 0 <= i < j < |s.calls| ==> s.calls[i].at != s.calls[j].at
  }

  /** The sorted set holds all admitted and all pending requests of the window, and nothing else. */
  ghost predicate Exact(cfg: Config, s: State) {
    && Inv(cfg, s)
    && forall e :: e in s.pending && s.clock - cfg.window < e.at ==> InSet(s.zset, e)
  }

  lemma SameTimeSameCall(s: State, a: Entry, b: Entry)
    requires DistinctTimes(s) && a in s.calls && b in s.calls && a.at == b.at
    ensures a == b
  {
    var i :| 0 <= i < |s.calls| && s.calls[i] == a;
    var j :| 0 <= j < |s.calls| && s.calls[j] == b;
  }

  lemma DistinctIsHarmless(cfg: Config, s: State, entry: Entry)
    requires Base(s) && DistinctTimes(s) && entry in s.pending
    ensures forall e :: e in s.admitted + s.pending && e != entry ==> e.at != entry.at
    ensures Harmless(cfg, s, entry)
  {
    forall e | e in s.admitted + s.pending && e != entry ensures e.at != entry.at {
      if e.at == entry.at {
        SameTimeSameCall(s, e, entry);
      }
    }
  }

  lemma RollbackExact(cfg: Config, s: State, entry: Entry)
    requires Exact(cfg, s) && DistinctTimes(s) && entry in s.pending
    ensures Exact(cfg, AfterRollback(s, entry))
  {
    DistinctIsHarmless(cfg, s, entry);
    StepKeepsInv(cfg, s, Rollback(entry));
    var t := AfterRollback(s, entry);
    forall e | e in t.pending && t.clock - cfg.window < e.at ensures InSet(t.zset, e) {
      assert InSet(s.zset, e);
    }
  }

  lemma RequestExact(cfg: Config, s: State, m: Member, now: Time)
    requires Exact(cfg, s) && Enabled(cfg, s, Request(m, now))
    ensures Exact(cfg, AfterRequest(cfg, s, m, now))
  {
    RequestKeepsInv(cfg, s, m, now);
    var t := AfterRequest(cfg, s, m, now);
    forall e | e in t.pending && t.clock - cfg.window < e.at ensures InSet(t.zset, e) {
      if e != Entry(m, now) {
        assert InSet(s.zset, e) && e in s.calls;
      }
    }
  }

  /** Expiry removes only what is out of the window. */
  lemma ExpireExact(cfg: Config, s: State, now: Time)
    requires Exact(cfg, s) && Enabled(cfg, s, Expire(now))
    ensures Exact(cfg, Apply(cfg, s, Expire(now)))
  {
    StepKeepsInv(cfg, s, Expire(now));
    assert forall e :: e in s.pending ==> e in s.calls;
  }

  lemma StepKeepsExact(cfg: Config, s: State, e: Event)
    requires Exact(cfg, s) && DistinctTimes(s)
    ensures Exact(cfg, Apply(cfg, s, e))
  {
    if Enabled(cfg, s, e) {
      match e
      case Request(m, now) => RequestExact(cfg, s, m, now);
      case Rollback(entry) => RollbackExact(cfg, s, entry);
      case Expire(now) => ExpireExact(cfg, s, now);
    }
  }

  lemma {:induction false} ReachableExact(cfg: Config, trace: seq<Event>)
    requires DistinctTimes(Run(cfg, trace))
    ensures Exact(cfg, Run(cfg, trace))
  {
    if trace != [] {
      var front := trace[..|trace| - 1];
      DistinctBefore(cfg, Run(cfg, front), trace[|trace| - 1]);
      ReachableExact(cfg, front);
      StepKeepsExact(cfg, Run(cfg, front), trace[|trace| - 1]);
    }
  }

  lemma DistinctBefore(cfg: Config, s: State, e: Event)
    requires DistinctTimes(Apply(cfg, s, e))
    ensures DistinctTimes(s)
  {
    assert s.calls <= Apply(cfg, s, e).calls;
  }

  lemma {:induction false} DistinctIsNoLoss(cfg: Config, trace: seq<Event>)
    requires DistinctTimes(Run(cfg, trace))
    ensures NoLoss(cfg, trace)
  {
    if trace != [] {
      var front, e := trace[..|trace| - 1], trace[|trace| - 1];
      DistinctBefore(cfg, Run(cfg, front), e);
      DistinctIsNoLoss(cfg, front);
      RunKeepsBase(cfg, front);
      if e.Rollback? && e.entry in Run(cfg, front).pending {
        DistinctIsHarmless(cfg, Run(cfg, front), e.entry);
      }
    }
  }

  /** With distinct timestamps and no pipeline late by more than `d`, no window shorter by `d` than the
      configured one ever holds more than `limit` admitted requests. */
  lemma DistinctTimesRespectTheLimit(cfg: Config, trace: seq<Event>, d: Time)
    requires DistinctTimes(Run(cfg, trace)) && 0.0 <= d && LateBy(cfg, trace, d)
    ensures Bounded(Shorter(cfg, d), Run(cfg, trace))
  {
    DistinctIsNoLoss(cfg, trace);
    WindowIsRespected(cfg, trace, d);
  }

  /** The pipeline counts exactly the admitted and the pending requests of the window. */
  lemma CountIsWindow(cfg: Config, s: State, now: Time)
    requires Exact(cfg, s) && s.clock <= now
    ensures Count(cfg, s.zset, now) == |InWindow(cfg, s.admitted + s.pending, now)|
  {
    var p := Purged(cfg, s.zset, now);
    EntryCount(p);
    forall m | m in p ensures Entry(m, p[m]) in InWindow(cfg, s.admitted + s.pending, now) {
      assert Entry(m, s.zset[m]) in Entries(s.zset);
    }
    forall e | e in InWindow(cfg, s.admitted + s.pending, now) ensures e in Entries(p) {
      assert InSet(s.zset, e);
      assert e.member in p && p[e.member] == e.at;
    }
    assert Entries(p) == InWindow(cfg, s.admitted + s.pending, now);
  }

  /** With distinct timestamps, a request is admitted if and only if fewer than `limit` admitted or
      still pending requests lie in its window: pending rejections can only cause more rejections,
      and without them the limiter decides by the admitted requests alone. */
  lemma AdmitsIff(cfg: Config, trace: seq<Event>, now: Time)
    requires DistinctTimes(Run(cfg, trace)) && Run(cfg, trace).clock <= now
    ensures var s := Run(cfg, trace);
            && (Admits(cfg, s.zset, now) <==> |InWindow(cfg, s.admitted + s.pending, now)| < cfg.limit)
            && (Admits(cfg, s.zset, now) ==> |InWindow(cfg, s.admitted, now)| < cfg.limit)
            && (s.pending == {} ==> (Admits(cfg, s.zset, now) <==> |InWindow(cfg, s.admitted, now)| < cfg.limit))
  {
    var s := Run(cfg, trace);
    ReachableExact(cfg, trace);
    CountIsWindow(cfg, s, now);
    SubsetCount(InWindow(cfg, s.admitted, now), InWindow(cfg, s.admitted + s.pending, now));
    if s.pending == {} {
      assert s.admitted + s.pending == s.admitted;
    }
  }

  // ---- one caller at a time ------------------------------------------------

  datatype Answer = Allowed(remaining: int) | Exceeded(retryAfter: Time)

  ghost predicate IsOldest(z: Zset, oldest: Time) {
    (exists m :: m in z && z[m] == oldest) && forall m :: m in z ==> oldest <= z[m]
  }

  lemma {:induction false} Oldest(z: Zset) returns (best: Member)
    requires z != map[]
    ensures best in z && forall k :: k in z ==> z[best] <= z[k]
    decreases |z.Keys|
  {
    var m :| m in z;
    var rest := map k | k in z && k != m :: z[k];
    assert rest.Keys == z.Keys - {m};
    best := m;
    if rest != map[] {
      var o := Oldest(rest);
      if z[o] < z[m] {
        best := o;
      }
    }
    forall k | k in z ensures z[best] <= z[k] {
      if k != m {
        assert k in rest;
      }
    }
  }

  class Limiter {
    const cfg: Config
    var zset: Zset
    ghost var calls: seq<Entry>
    ghost var admitted: set<Entry>
    ghost var pending: set<Entry>
    ghost var clock: Time

    ghost function Abs(): State
      reads this
    {
      State(zset, calls, admitted, pending, clock)
    }

    constructor (limit: int, window: Time)
      ensures cfg == Config(limit, window) && Abs() == FRESH
    {
      cfg, zset := Config(limit, window), map[];
      calls, admitted, pending, clock := [], {}, {}, 0.0;
    }

    /** Lines 36-44: the atomic pipeline. It returns the number counted before the insertion. */
    method Pipeline(m: Member, now: Time) returns (count: nat)
      requires Enabled(cfg, Abs(), Request(m, now))
      modifies this
      ensures Abs() == AfterRequest(cfg, old(Abs()), m, now) && count == Count(cfg, old(zset), now)
    {
      ghost var ok := Admits(cfg, zset, now);
      zset := RemoveRange(zset, 0.0, now - cfg.window);
      count := |zset|;
      zset := zset[m := now];
      calls := calls + [Entry(m, now)];
      admitted := if ok then admitted + {Entry(m, now)} else admitted;
      pending := if ok then pending else pending + {Entry(m, now)};
      clock := Later(clock, now);
    }

    /** `allow_request` with nothing in between its steps. */
    method AllowRequest(m: Member, now: Time) returns (a: Answer, ghost oldest: Time)
      requires Enabled(cfg, Abs(), Request(m, now))
      modifies this
      ensures a.Allowed? <==> Admits(cfg, old(zset), now)
      ensures a.Allowed? ==> Abs() == AfterRequest(cfg, old(Abs()), m, now)
      ensures a.Allowed? ==> a.remaining == cfg.limit - Count(cfg, old(zset), now) - 1
      ensures a.Exceeded? ==> Abs() == AfterRollback(AfterRequest(cfg, old(Abs()), m, now), Entry(m, now))
      ensures a.Exceeded? ==> IsOldest(Purged(cfg, old(zset), now)[m := now], oldest)
      ensures a.Exceeded? ==> a.retryAfter == RetryAfter(cfg, now, oldest)
      ensures Sequential(cfg, old(Abs())) && Newer(old(Abs()), now) ==>
                Sequential(cfg, Abs()) && RightAnswer(cfg, old(admitted), admitted, Entry(m, now), a)
    {
      oldest := 0.0;
      var count := Pipeline(m, now);
      if count >= cfg.limit {
        assert m in zset;
        ghost var first := Oldest(zset);
        var o :| o in zset && forall k :: k in zset ==> zset[o] <= zset[k];
        oldest := zset[o];
        var wait := cfg.window - (now - zset[o]);
        zset := RemoveRange(zset, now, now);
        pending := pending - {Entry(m, now)};
        a := Exceeded(if wait < 0.1 then 0.1 else wait);
      } else {
        a := Allowed(if cfg.limit - count - 1 < 0 then 0 else cfg.limit - count - 1);
      }
      if Sequential(cfg, old(Abs())) && Newer(old(Abs()), now) {
        SequentialKept(cfg, old(Abs()), m, now);
        AnswerIsRight(cfg, old(Abs()), m, now, oldest, a);
      }
    }
  }

  lemma WindowWithNow(cfg: Config, es: set<Entry>, entry: Entry)
    requires cfg.window > 0.0 && entry !in es
    ensures |InWindow(cfg, es + {entry}, entry.at)| == |InWindow(cfg, es, entry.at)| + 1
  {
    assert InWindow(cfg, es + {entry}, entry.at) == InWindow(cfg, es, entry.at) + {entry};
  }

  lemma UnusedIsNew(cfg: Config, s: State, m: Member, now: Time)
    requires Inv(cfg, s) && Unused(s, m)
    ensures Entry(m, now) !in s.admitted
  {
    assert forall e :: e in s.admitted ==> e in s.calls;
  }

  /** On admission `remaining` is the limit minus the requests admitted in the current window,
      this one included. */
  lemma RemainingMeans(cfg: Config, s: State, m: Member, now: Time)
    requires cfg.window > 0.0 && s.clock <= now
    requires Exact(cfg, s) && s.pending == {} && Enabled(cfg, s, Request(m, now)) && Admits(cfg, s.zset, now)
    ensures cfg.limit - Count(cfg, s.zset, now) - 1 ==
            cfg.limit - |InWindow(cfg, AfterRequest(cfg, s, m, now).admitted, now)|
  {
    hide Inv, Count;
    CountIsWindow(cfg, s, now);
    assert s.admitted + s.pending == s.admitted;
    UnusedIsNew(cfg, s, m, now);
    WindowWithNow(cfg, s.admitted, Entry(m, now));
  }

  /** Served one at a time, the limiter keeps this invariant: nothing is pending, every entry of the set
      is an admitted request, and the limit holds. */
  ghost predicate Sequential(cfg: Config, s: State) {
    Exact(cfg, s) && Bounded(cfg, s) && s.pending == {} && DistinctTimes(s)
  }

  lemma LaterIsDistinct(cfg: Config, s: State, m: Member, now: Time)
    requires Inv(cfg, s) && DistinctTimes(s) && Newer(s, now)
    ensures DistinctTimes(AfterRequest(cfg, s, m, now))
  {
    var calls := AfterRequest(cfg, s, m, now).calls;
    forall i, j | 0 <= i < j < |calls| ensures calls[i].at != calls[j].at {
      assert calls[i] in s.calls;
    }
  }

  /** One call from start to end, later than every call before it, keeps the invariant. */
  lemma SequentialKept(cfg: Config, s: State, m: Member, now: Time)
    requires Sequential(cfg, s) && Enabled(cfg, s, Request(m, now)) && Newer(s, now)
    ensures Admits(cfg, s.zset, now) ==> Sequential(cfg, AfterRequest(cfg, s, m, now))
    ensures !Admits(cfg, s.zset, now) ==>
              Sequential(cfg, AfterRollback(AfterRequest(cfg, s, m, now), Entry(m, now)))
  {
    var s' := Apply(cfg, s, Request(m, now));
    assert s' == AfterRequest(cfg, s, m, now);
    LaterIsDistinct(cfg, s, m, now);
    assert Shorter(cfg, 0.0) == cfg;
    RequestKeepsBounded(cfg, s, m, now, 0.0);
    StepKeepsExact(cfg, s, Request(m, now));
    if !Admits(cfg, s.zset, now) {
      RollbackExact(cfg, s', Entry(m, now));
    }
  }

  /** When a caller is rejected, its rollback leaves exactly the `limit` requests that were
      counted. */
  lemma RejectedLeaves(cfg: Config, s: State, m: Member, now: Time)
    requires Sequential(cfg, s) && Enabled(cfg, s, Request(m, now)) && Newer(s, now)
    requires !Admits(cfg, s.zset, now)
    ensures AfterRollback(AfterRequest(cfg, s, m, now), Entry(m, now)).zset == Purged(cfg, s.zset, now)
    ensures cfg.limit >= 0 ==> |Purged(cfg, s.zset, now)| == cfg.limit
    ensures forall k :: k in Purged(cfg, s.zset, now) ==> Purged(cfg, s.zset, now)[k] < now
  {
    CountedAreOld(cfg, s, m, now);
    RollbackUndoes(Purged(cfg, s.zset, now), m, now);
    FullCount(cfg, s, now);
  }

  lemma RollbackUndoes(p: Zset, m: Member, now: Time)
    requires m !in p && forall k :: k in p ==> p[k] < now
    ensures RemoveRange(p[m := now], now, now) == p
  {
  }

  /** One at a time, a window never holds more than the limit. */
  lemma FullCount(cfg: Config, s: State, now: Time)
    requires Sequential(cfg, s) && s.clock <= now
    ensures Count(cfg, s.zset, now) <= if cfg.limit < 0 then 0 else cfg.limit
  {
    CountIsWindow(cfg, s, now);
    assert s.admitted + s.pending == s.admitted;
    assert |InWindow(cfg, s.admitted, now)| <= if cfg.limit < 0 then 0 else cfg.limit;
  }

  /** A full window lets the next request in from the moment its oldest entry leaves it. */
  lemma FullWindow(cfg: Config, p: Zset, oldest: Time, t: Time)
    requires |p| == cfg.limit && (exists k :: k in p && p[k] == oldest) && 0.0 <= oldest
    requires forall k :: k in p ==> oldest <= p[k]
    ensures Admits(cfg, p, t) <==> oldest + cfg.window <= t
  {
    var q := Purged(cfg, p, t);
    if oldest + cfg.window <= t {
      var k :| k in p && p[k] == oldest;
      FewerKeys(q, p, k);
    } else {
      assert q == p;
    }
  }

  lemma CountedAreOld(cfg: Config, s: State, m: Member, now: Time)
    requires Sequential(cfg, s) && Enabled(cfg, s, Request(m, now))
    ensures m !in Purged(cfg, s.zset, now)
    ensures forall k :: k in Purged(cfg, s.zset, now) ==>
              var at := Purged(cfg, s.zset, now)[k]; 0.0 <= at && exists e :: e in s.calls && e.at == at
  {
    forall k | k in s.zset ensures 0.0 <= s.zset[k] && exists e :: e in s.calls && e.at == s.zset[k] {
      assert Entry(k, s.zset[k]) in Entries(s.zset);
      assert Entry(k, s.zset[k]) in s.calls;
    }
  }

  /** What `allow_request` tells a rejected caller to wait. */
  function RetryAfter(cfg: Config, now: Time, oldest: Time): Time {
    if cfg.window - (now - oldest) < 0.1 then 0.1 else cfg.window - (now - oldest)
  }

  /** If nothing else arrives, a rejected caller is admitted at a later time `t` if and only if the
      limit is positive and `t` is not before the oldest counted request plus the window. So a
      caller who waits `retry_after` is admitted, and one who comes before the oldest request has
      left the window is not. */
  lemma RetryAfterIsExact(cfg: Config, s: State, m: Member, now: Time, oldest: Time, t: Time)
    requires Sequential(cfg, s) && Enabled(cfg, s, Request(m, now)) && Newer(s, now) && now <= t
    requires !Admits(cfg, s.zset, now) && IsOldest(Purged(cfg, s.zset, now)[m := now], oldest)
    ensures var z := AfterRollback(AfterRequest(cfg, s, m, now), Entry(m, now)).zset;
            && (Admits(cfg, z, t) <==> cfg.limit >= 1 && oldest + cfg.window <= t)
            && (cfg.limit >= 1 && now + RetryAfter(cfg, now, oldest) <= t ==> Admits(cfg, z, t))
            && (RetryAfter(cfg, now, oldest) > 0.1 && t < now + RetryAfter(cfg, now, oldest) ==> !Admits(cfg, z, t))
  {
    var p := Purged(cfg, s.zset, now);
    assert AfterRollback(AfterRequest(cfg, s, m, now), Entry(m, now)).zset == p by {
      RejectedLeaves(cfg, s, m, now);
    }
    if cfg.limit >= 1 {
      hide Sequential, Exact, Purged, RemoveRange;
      RejectedLeaves(cfg, s, m, now);
      CountedAreOld(cfg, s, m, now);
      OldestIsCounted(p, m, now, oldest);
      FullWindow(cfg, p, oldest, t);
    }
  }

  /** The answer of a call with nothing else going on, in terms of the admitted requests alone: the request
      is let through if and only if fewer than `limit` were admitted in its window, and `remaining` is what is
      left after it. A rejected caller is told the shortest time, but at least 0.1 seconds, after which it
      would be let through if nothing else arrived. */
  ghost predicate RightAnswer(cfg: Config, before: set<Entry>, after: set<Entry>, e: Entry, a: Answer) {
    && (a.Allowed? <==> |InWindow(cfg, before, e.at)| < cfg.limit)
    && after == (if a.Allowed? then before + {e} else before)
    && (a.Allowed? && cfg.window > 0.0 ==> a.remaining == cfg.limit - |InWindow(cfg, after, e.at)|)
    && (a.Exceeded? ==> 0.1 <= a.retryAfter)
    && (a.Exceeded? && cfg.limit >= 1 ==>
          forall t :: e.at <= t ==>
            && (e.at + a.retryAfter <= t ==> |InWindow(cfg, after, t)| < cfg.limit)
            && (a.retryAfter > 0.1 && t < e.at + a.retryAfter ==> |InWindow(cfg, after, t)| >= cfg.limit))
  }

  lemma CountsAdmitted(cfg: Config, s: State, t: Time)
    requires Sequential(cfg, s) && s.clock <= t
    ensures Admits(cfg, s.zset, t) <==> |InWindow(cfg, s.admitted, t)| < cfg.limit
  {
    CountIsWindow(cfg, s, t);
    assert s.admitted + s.pending == s.admitted;
  }

  /** After a rejection: who would be let through later. */
  lemma RejectedUntil(cfg: Config, s: State, m: Member, now: Time, oldest: Time, t: Time)
    requires Sequential(cfg, s) && Enabled(cfg, s, Request(m, now)) && Newer(s, now) && now <= t
    requires !Admits(cfg, s.zset, now) && IsOldest(Purged(cfg, s.zset, now)[m := now], oldest) && cfg.limit >= 1
    ensures var wait := RetryAfter(cfg, now, oldest);
            && 0.1 <= wait
            && (now + wait <= t ==> |InWindow(cfg, s.admitted, t)| < cfg.limit)
            && (wait > 0.1 && t < now + wait ==> |InWindow(cfg, s.admitted, t)| >= cfg.limit)
  {
    SequentialKept(cfg, s, m, now);
    var u := AfterRollback(AfterRequest(cfg, s, m, now), Entry(m, now));
    assert u.clock == now && u.admitted == s.admitted;
    RetryAfterIsExact(cfg, s, m, now, oldest, t);
    hide *;
    CountsAdmitted(cfg, u, t);
    RetryAtLeast(cfg, now, oldest);
  }

  lemma RetryAtLeast(cfg: Config, now: Time, oldest: Time)
    ensures 0.1 <= RetryAfter(cfg, now, oldest)
  {
  }

  lemma AllowedIsRight(cfg: Config, s: State, m: Member, now: Time, a: Answer)
    requires Sequential(cfg, s) && Enabled(cfg, s, Request(m, now)) && s.clock <= now && Admits(cfg, s.zset, now)
    requires a == Allowed(cfg.limit - Count(cfg, s.zset, now) - 1)
    ensures RightAnswer(cfg, s.admitted, s.admitted + {Entry(m, now)}, Entry(m, now), a)
  {
    CountsAdmitted(cfg, s, now);
    assert AfterRequest(cfg, s, m, now).admitted == s.admitted + {Entry(m, now)};
    assert Exact(cfg, s) && s.pending == {};
    hide Sequential, Exact, Enabled, Admits, AfterRequest, InWindow, Count;
    if cfg.window > 0.0 {
      RemainingMeans(cfg, s, m, now);
    }
  }

  lemma ExceededIsRight(cfg: Config, s: State, m: Member, now: Time, oldest: Time, a: Answer)
    requires Sequential(cfg, s) && Enabled(cfg, s, Request(m, now)) && Newer(s, now) && !Admits(cfg, s.zset, now)
    requires IsOldest(Purged(cfg, s.zset, now)[m := now], oldest) && a == Exceeded(RetryAfter(cfg, now, oldest))
    ensures RightAnswer(cfg, s.admitted, s.admitted, Entry(m, now), a)
  {
    CountsAdmitted(cfg, s, now);
    RetryAtLeast(cfg, now, oldest);
    hide Sequential, Enabled, Newer, Admits, IsOldest, Purged, InWindow, RetryAfter;
    forall t | now <= t && cfg.limit >= 1
      ensures now + a.retryAfter <= t ==> |InWindow(cfg, s.admitted, t)| < cfg.limit
      ensures a.retryAfter > 0.1 && t < now + a.retryAfter ==> |InWindow(cfg, s.admitted, t)| >= cfg.limit
    {
      RejectedUntil(cfg, s, m, now, oldest, t);
    }
  }

  lemma AnswerIsRight(cfg: Config, s: State, m: Member, now: Time, oldest: Time, a: Answer)
    requires Sequential(cfg, s) && Enabled(cfg, s, Request(m, now)) && Newer(s, now)
    requires a.Allowed? <==> Admits(cfg, s.zset, now)
    requires a.Allowed? ==> a.remaining == cfg.limit - Count(cfg, s.zset, now) - 1
    requires a.Exceeded? ==> IsOldest(Purged(cfg, s.zset, now)[m := now], oldest)
    requires a.Exceeded? ==> a.retryAfter == RetryAfter(cfg, now, oldest)
    ensures var t := AfterRequest(cfg, s, m, now);
            RightAnswer(cfg, s.admitted, if a.Allowed? then t.admitted else AfterRollback(t, Entry(m, now)).admitted,
                        Entry(m, now), a)
  {
    assert AfterRequest(cfg, s, m, now).admitted == if a.Allowed? then s.admitted + {Entry(m, now)} else s.admitted;
    assert s.clock <= now;
    hide Sequential, Enabled, Newer, Admits, IsOldest, Purged, InWindow, RetryAfter, AfterRequest, Count, RightAnswer;
    if a.Allowed? {
      AllowedIsRight(cfg, s, m, now, a);
    } else {
      ExceededIsRight(cfg, s, m, now, oldest, a);
    }
  }

  lemma OldestIsCounted(p: Zset, m: Member, now: Time, oldest: Time)
    requires p != map[] && (forall k :: k in p ==> p[k] < now)
    requires IsOldest(p[m := now], oldest)
    requires m !in p
    ensures exists k :: k in p && p[k] == oldest
    ensures forall k :: k in p ==> oldest <= p[k]
  {
    var k :| k in p;
    assert p[m := now][k] == p[k];
    var o :| o in p[m := now] && p[m := now][o] == oldest;
    assert o != m;
    forall x | x in p ensures oldest <= p[x] {
      assert p[m := now][x] == p[x];
    }
  }

  lemma FewerKeys(q: Zset, p: Zset, k: Member)
    requires q.Keys <= p.Keys && k in p && k !in q
    ensures |q| < |p|
  {
    SubsetCount(q.Keys, p.Keys - {k});
  }
}
