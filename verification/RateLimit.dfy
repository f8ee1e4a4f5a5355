/**
 The sliding-window rate limiter (src/cache/rate_limit.py:34-53) over one Redis sorted set: the
 atomic pipeline, the separate rollback of a rejected caller, and the expiry of the key. A caller
 reads its clock before it sends the pipeline, so pipelines may arrive out of the order of their
 timestamps. Times are in seconds.
 */
module RateLimit {
  import opened Prelude

  type Time = real
  type Member = nat

  /** One member per request: its name carries a fresh random suffix. */
  type Zset = map<Member, Time>

  datatype Entry = Entry(member: Member, at: Time)

  /** `calls` lists every pipeline that has run, in order of arrival, `admitted` the requests let
      through and `pending` the rejected ones whose rollback has not run; `clock` is the latest time
      seen so far. Only `zset` exists in Redis. */
  datatype State = State(zset: Zset, calls: seq<Entry>, admitted: set<Entry>, pending: set<Entry>, clock: Time)

  datatype Config = Config(limit: int, window: Time)

  const FRESH: State := State(map[], [], {}, {}, 0.0)

  datatype Event =
    | Request(member: Member, now: Time)
    | Rollback(entry: Entry)
    | Expire(now: Time)

  // ---- sorted-set commands -------------------------------------------------

  /** `ZREMRANGEBYSCORE key lo hi`. */
  function RemoveRange(z: Zset, lo: Time, hi: Time): Zset {
    map m | m in z && !(lo <= z[m] <= hi) :: z[m]
  }

  /** The entries that the pipeline counts: what is left after the purge. */
  function Purged(cfg: Config, z: Zset, now: Time): Zset {
    RemoveRange(z, 0.0, now - cfg.window)
  }

  function Count(cfg: Config, z: Zset, now: Time): nat {
    |Purged(cfg, z, now)|
  }

  predicate Admits(cfg: Config, z: Zset, now: Time) {
    Count(cfg, z, now) < cfg.limit
  }

  // ---- steps ---------------------------------------------------------------

  ghost predicate Unused(s: State, m: Member) {
    m !in s.zset && forall e :: e in s.calls ==> e.member != m
  }

  function Later(a: Time, b: Time): Time {
    if a < b then b else a
  }

  /** A request bears any timestamp, also one before the latest; a rollback belongs to a rejected
      request; the key expires `window + 5` seconds after the last pipeline, which did not arrive
      before the latest timestamp. */
  ghost predicate Enabled(cfg: Config, s: State, e: Event) {
    match e
    case Request(m, now) => 0.0 <= now && Unused(s, m)
    case Rollback(entry) => entry in s.pending
    case Expire(now) => s.clock <= now && s.clock + cfg.window + 5.0 <= now
  }

  function AfterRequest(cfg: Config, s: State, m: Member, now: Time): State {
    var entry := Entry(m, now);
    var ok := Admits(cfg, s.zset, now);
    State(Purged(cfg, s.zset, now)[m := now], s.calls + [entry],
          if ok then s.admitted + {entry} else s.admitted,
          if ok then s.pending else s.pending + {entry}, Later(s.clock, now))
  }

  function AfterRollback(s: State, entry: Entry): State {
    s.(zset := RemoveRange(s.zset, entry.at, entry.at), pending := s.pending - {entry})
  }

  ghost function Apply(cfg: Config, s: State, e: Event): State {
    if !Enabled(cfg, s, e) then s
    else
      match e
      case Request(m, now) => AfterRequest(cfg, s, m, now)
      case Rollback(entry) => AfterRollback(s, entry)
      case Expire(now) => s.(zset := map[], clock := now)
  }

  ghost function Run(cfg: Config, trace: seq<Event>): State {
    if trace == [] then FRESH else Apply(cfg, Run(cfg, trace[..|trace| - 1]), trace[|trace| - 1])
  }

  lemma RunSnoc(cfg: Config, trace: seq<Event>, e: Event)
    ensures Run(cfg, trace + [e]) == Apply(cfg, Run(cfg, trace), e)
  {
    assert (trace + [e])[..|trace|] == trace;
  }

  // ---- counting ------------------------------------------------------------

  function Entries(z: Zset): set<Entry> {
    set m | m in z :: Entry(m, z[m])
  }

  lemma {:induction false} EntryCount(z: Zset)
    ensures |Entries(z)| == |z|
    decreases |z|
  {
    if z != map[] {
      var m :| m in z;
      var rest := map k | k in z && k != m :: z[k];
      assert z.Keys == rest.Keys + {m};
      EntryCount(rest);
      assert Entries(z) == Entries(rest) + {Entry(m, z[m])};
      assert Entry(m, z[m]) !in Entries(rest);
    }
  }

  lemma {:induction false} SubsetCount<T>(a: set<T>, b: set<T>)
    requires a <= b
    ensures |a| <= |b|
  {
    if a != {} {
      var x :| x in a;
      SubsetCount(a - {x}, b - {x});
    }
  }

  /** The entries of `es` in the half-open window that ends at `t`. */
  function InWindow(cfg: Config, es: set<Entry>, t: Time): set<Entry> {
    set e | e in es && t - cfg.window < e.at <= t
  }

  // ---- safety --------------------------------------------------------------

  /** What holds in every reachable state: the set holds nothing but admitted and pending requests. */
  ghost predicate Base(s: State) {
    && (forall e :: e in s.admitted || e in s.pending ==> e in s.calls)
    && (forall e :: e in s.pending ==> e !in s.admitted)
    && (forall e :: e in s.calls ==> 0.0 <= e.at <= s.clock)
    && 0.0 <= s.clock
    && Entries(s.zset) <= s.admitted + s.pending
  }

  ghost predicate InSet(z: Zset, e: Entry) {
    e.member in z && z[e.member] == e.at
  }

  /** Every admitted request that is still in the window is in the sorted set. */
  ghost predicate AllCounted(cfg: Config, s: State) {
    forall e :: e in s.admitted && s.clock - cfg.window < e.at ==> InSet(s.zset, e)
  }

  function Cap(cfg: Config): nat {
    if cfg.limit < 0 then 0 else cfg.limit
  }

  /** No window of the configured length holds more than `limit` admitted requests. */
  ghost predicate Bounded(cfg: Config, s: State) {
    forall t :: |InWindow(cfg, s.admitted, t)| <= Cap(cfg)
  }

  ghost predicate Inv(cfg: Config, s: State) {
    Base(s) && AllCounted(cfg, s)
  }

  lemma RequestKeepsBase(cfg: Config, s: State, m: Member, now: Time)
    requires Base(s) && Enabled(cfg, s, Request(m, now))
    ensures Base(AfterRequest(cfg, s, m, now))
  {
    var s' := AfterRequest(cfg, s, m, now);
    assert s'.calls[|s.calls|] == Entry(m, now);
    forall k | k in s'.zset ensures Entry(k, s'.zset[k]) in s'.admitted + s'.pending {
      if k != m {
        assert Entry(k, s.zset[k]) in Entries(s.zset);
      }
    }
    assert forall e :: e in s.calls ==> e.member != m;
  }

  lemma RollbackKeepsBase(s: State, entry: Entry)
    requires Base(s) && entry in s.pending
    ensures Base(AfterRollback(s, entry))
  {
    var s' := AfterRollback(s, entry);
    forall k | k in s'.zset ensures Entry(k, s'.zset[k]) in s'.admitted + s'.pending {
      assert Entry(k, s.zset[k]) in Entries(s.zset);
    }
  }

  lemma StepKeepsBase(cfg: Config, s: State, e: Event)
    requires Base(s)
    ensures Base(Apply(cfg, s, e))
  {
    if Enabled(cfg, s, e) {
      match e
      case Request(m, now) => RequestKeepsBase(cfg, s, m, now);
      case Rollback(entry) => RollbackKeepsBase(s, entry);
      case Expire(now) =>
    }
  }

  lemma {:induction false} RunKeepsBase(cfg: Config, trace: seq<Event>)
    ensures Base(Run(cfg, trace))
  {
    if trace != [] {
      RunKeepsBase(cfg, trace[..|trace| - 1]);
      StepKeepsBase(cfg, Run(cfg, trace[..|trace| - 1]), trace[|trace| - 1]);
    }
  }

  /** The limiter with its window shortened by `d`. */
  function Shorter(cfg: Config, d: Time): Config {
    cfg.(window := cfg.window - d)
  }

  /** A pipeline late by at most `d` counts at least the admitted requests in any window, shorter by
      `d`, that its own request falls into. */
  lemma AdmittedAreCounted(cfg: Config, s: State, now: Time, d: Time, t: Time)
    requires Inv(cfg, s) && 0.0 <= d && s.clock - d <= now <= t
    ensures |InWindow(Shorter(cfg, d), s.admitted, t)| <= Count(cfg, s.zset, now)
  {
    var p, w := Purged(cfg, s.zset, now), InWindow(Shorter(cfg, d), s.admitted, t);
    EntryCount(p);
    forall e | e in w ensures e in Entries(p) {
      assert InSet(s.zset, e);
      assert e.member in p && p[e.member] == e.at;
    }
    SubsetCount(w, Entries(p));
  }

  lemma RequestKeepsWindow(cfg: Config, s: State, m: Member, now: Time, d: Time, t: Time)
    requires Inv(cfg, s) && Bounded(Shorter(cfg, d), s) && Enabled(cfg, s, Request(m, now))
    requires 0.0 <= d && s.clock - d <= now
    ensures |InWindow(Shorter(cfg, d), AfterRequest(cfg, s, m, now).admitted, t)| <= Cap(cfg)
  {
    var entry, s', short := Entry(m, now), AfterRequest(cfg, s, m, now), Shorter(cfg, d);
    assert |InWindow(short, s.admitted, t)| <= Cap(short);
    if Admits(cfg, s.zset, now) {
      if t < now {
        assert InWindow(short, s'.admitted, t) == InWindow(short, s.admitted, t);
      } else {
        AdmittedAreCounted(cfg, s, now, d, t);
        SubsetCount(InWindow(short, s'.admitted, t), InWindow(short, s.admitted, t) + {entry});
      }
    }
  }

  lemma RequestKeepsBounded(cfg: Config, s: State, m: Member, now: Time, d: Time)
    requires Inv(cfg, s) && Bounded(Shorter(cfg, d), s) && Enabled(cfg, s, Request(m, now))
    requires 0.0 <= d && s.clock - d <= now
    ensures Bounded(Shorter(cfg, d), AfterRequest(cfg, s, m, now))
  {
    forall t ensures |InWindow(Shorter(cfg, d), AfterRequest(cfg, s, m, now).admitted, t)| <= Cap(Shorter(cfg, d)) {
      RequestKeepsWindow(cfg, s, m, now, d, t);
    }
  }

  lemma RequestKeepsInv(cfg: Config, s: State, m: Member, now: Time)
    requires Inv(cfg, s) && Enabled(cfg, s, Request(m, now))
    ensures Inv(cfg, AfterRequest(cfg, s, m, now))
  {
    var s' := AfterRequest(cfg, s, m, now);
    RequestKeepsBase(cfg, s, m, now);
    forall e | e in s'.admitted && s'.clock - cfg.window < e.at ensures InSet(s'.zset, e) {
      if e != Entry(m, now) {
        assert InSet(s.zset, e) && e in s.calls;
      }
    }
  }

  /** A rollback that meets no admitted request of the window with its own timestamp. */
  ghost predicate Harmless(cfg: Config, s: State, entry: Entry) {
    forall a :: a in s.admitted && s.clock - cfg.window < a.at ==> a.at != entry.at
  }

  /** A rollback keeps the admitted requests counted if and only if it is harmless. */
  lemma RollbackKeepsCountIff(cfg: Config, s: State, entry: Entry)
    requires Base(s) && AllCounted(cfg, s) && entry in s.pending
    ensures AllCounted(cfg, AfterRollback(s, entry)) <==> Harmless(cfg, s, entry)
  {
    var t := AfterRollback(s, entry);
    if AllCounted(cfg, t) {
      forall a | a in s.admitted && s.clock - cfg.window < a.at ensures a.at != entry.at {
        assert InSet(t.zset, a);
      }
    } else {
      var e :| e in t.admitted && t.clock - cfg.window < e.at && !InSet(t.zset, e);
      assert InSet(s.zset, e);
    }
  }

  lemma StepKeepsInv(cfg: Config, s: State, e: Event)
    requires Inv(cfg, s) && (e.Rollback? && e.entry in s.pending ==> Harmless(cfg, s, e.entry))
    ensures Inv(cfg, Apply(cfg, s, e))
  {
    StepKeepsBase(cfg, s, e);
    if Enabled(cfg, s, e) {
      match e
      case Request(m, now) => RequestKeepsInv(cfg, s, m, now);
      case Rollback(entry) => RollbackKeepsCountIff(cfg, s, entry);
      case Expire(now) =>
    }
  }

  /** `now` is later than the timestamps of all requests so far, and no earlier than any time seen. */
  ghost predicate Newer(s: State, now: Time) {
    s.clock <= now && forall e :: e in s.calls ==> e.at < now
  }

  /** The request bears a timestamp at most `d` before the latest time seen. */
  ghost predicate Punctual(s: State, e: Event, d: Time) {
    e.Request? ==> s.clock - d <= e.now
  }

  lemma StepKeepsBounded(cfg: Config, s: State, e: Event, d: Time)
    requires Inv(cfg, s) && Bounded(Shorter(cfg, d), s) && 0.0 <= d && Punctual(s, e, d)
    ensures Bounded(Shorter(cfg, d), Apply(cfg, s, e))
  {
    if Enabled(cfg, s, e) && e.Request? {
      RequestKeepsBounded(cfg, s, e.member, e.now, d);
    }
  }

  /** No rollback of the trace took an admitted request of its window with it. */
  ghost predicate NoLoss(cfg: Config, trace: seq<Event>) {
    trace != [] ==>
      var front, e := trace[..|trace| - 1], trace[|trace| - 1];
      var s := Run(cfg, front);
      NoLoss(cfg, front) && (e.Rollback? && e.entry in s.pending ==> Harmless(cfg, s, e.entry))
  }

  /** No pipeline of the trace arrived more than `d` behind the latest time seen; with `d == 0.0` they
      arrived in the order of their timestamps. */
  ghost predicate LateBy(cfg: Config, trace: seq<Event>, d: Time) {
    trace != [] ==>
      var front := trace[..|trace| - 1];
      LateBy(cfg, front, d) && Punctual(Run(cfg, front), trace[|trace| - 1], d)
  }

  lemma LateBySnoc(cfg: Config, trace: seq<Event>, e: Event, d: Time)
    ensures LateBy(cfg, trace + [e], d) <==> LateBy(cfg, trace, d) && Punctual(Run(cfg, trace), e, d)
  {
    assert (trace + [e])[..|trace|] == trace;
  }

  /** In any order of arrival. */
  lemma {:induction false} Reachable(cfg: Config, trace: seq<Event>)
    requires NoLoss(cfg, trace)
    ensures Inv(cfg, Run(cfg, trace))
  {
    if trace != [] {
      var front := trace[..|trace| - 1];
      Reachable(cfg, front);
      StepKeepsInv(cfg, Run(cfg, front), trace[|trace| - 1]);
    }
  }

  /** Safety over every interleaving of requests, delayed rollbacks and key expiry: as long as no
      rollback takes an admitted request of the window with it and no pipeline is late by more than `d`,
      no half-open window shorter by `d` than the configured one holds more than `limit` admitted
      requests. For pipelines that arrive in the order of their timestamps it is the whole window. */
  lemma {:induction false} WindowIsRespected(cfg: Config, trace: seq<Event>, d: Time)
    requires NoLoss(cfg, trace) && 0.0 <= d && LateBy(cfg, trace, d)
    ensures Bounded(Shorter(cfg, d), Run(cfg, trace))
  {
    if trace != [] {
      var front := trace[..|trace| - 1];
      WindowIsRespected(cfg, front, d);
      Reachable(cfg, front);
      StepKeepsBounded(cfg, Run(cfg, front), trace[|trace| - 1], d);
    } else {
      assert forall t :: InWindow(Shorter(cfg, d), FRESH.admitted, t) == {};
    }
  }
}
