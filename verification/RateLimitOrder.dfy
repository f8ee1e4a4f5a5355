/**
 Pipelines that arrive out of the order of their timestamps (src/cache/rate_limit.py:36-44: the clock
 is read before the pipeline is sent): what they can do to the limit, without any loss by a rollback.
 */
module RateLimitOrder {
  import opened Prelude
  import opened RateLimit
  import opened RateLimitLoss
  import opened RateLimitExact

  /** With distinct timestamps and no pipeline late by more than `d`, some run exceeds the limit. */
  ghost predicate LatenessExceeds(cfg: Config, d: Time) {
    exists trace :: DistinctTimes(Run(cfg, trace)) && LateBy(cfg, trace, d) && Exceeds(cfg, Run(cfg, trace))
  }

  /** The run so far has distinct timestamps and no pipeline late by more than `d`. */
  ghost predicate Fine(cfg: Config, trace: seq<Event>, d: Time) {
    LateBy(cfg, trace, d) && DistinctTimes(Run(cfg, trace)) && Base(Run(cfg, trace))
  }

  /** `now` is nobody's timestamp. */
  ghost predicate NewTime(s: State, now: Time) {
    forall e :: e in s.calls ==> e.at != now
  }

  lemma OneMoreRequest(cfg: Config, trace: seq<Event>, d: Time, now: Time) returns (m: Member, more: seq<Event>)
    requires Fine(cfg, trace, d) && 0.0 <= now && Run(cfg, trace).clock - d <= now && NewTime(Run(cfg, trace), now)
    ensures Fine(cfg, more, d) && Unused(Run(cfg, trace), m)
    ensures Run(cfg, more) == AfterRequest(cfg, Run(cfg, trace), m, now)
  {
    var s := Run(cfg, trace);
    m := FreshMember(s.calls);
    FreshIsUnused(s, m);
    more := trace + [Request(m, now)];
    RunSnoc(cfg, trace, Request(m, now));
    LateBySnoc(cfg, trace, Request(m, now), d);
    RequestKeepsBase(cfg, s, m, now);
    NewIsDistinct(cfg, s, m, now);
  }

  lemma NewIsDistinct(cfg: Config, s: State, m: Member, now: Time)
    requires DistinctTimes(s) && NewTime(s, now)
    ensures DistinctTimes(AfterRequest(cfg, s, m, now))
  {
    var calls := AfterRequest(cfg, s, m, now).calls;
    forall i, j | 0 <= i < j < |calls| ensures calls[i].at != calls[j].at {
      assert calls[i] in s.calls;
    }
  }

  lemma OneMoreRollback(cfg: Config, trace: seq<Event>, d: Time, entry: Entry) returns (more: seq<Event>)
    requires Fine(cfg, trace, d) && entry in Run(cfg, trace).pending
    ensures Fine(cfg, more, d) && Run(cfg, more) == AfterRollback(Run(cfg, trace), entry)
  {
    more := trace + [Rollback(entry)];
    RunSnoc(cfg, trace, Rollback(entry));
    LateBySnoc(cfg, trace, Rollback(entry), d);
    RollbackKeepsBase(Run(cfg, trace), entry);
  }

  // ---- a full window -------------------------------------------------------

  /** `k` requests between `lo` and `hi`, all admitted and counted, and nothing else. */
  ghost predicate Crowd(s: State, lo: Time, hi: Time, k: nat) {
    && Base(s) && s.pending == {} && |s.admitted| == k && s.clock < hi
    && (forall e :: e in s.calls ==> lo < e.at < hi)
    && (forall e :: e in s.admitted ==> InSet(s.zset, e))
  }

  lemma SetWithinAdmitted(s: State, p: Zset)
    requires Base(s) && s.pending == {} && forall m :: m in p ==> m in s.zset && p[m] == s.zset[m]
    ensures |p| <= |s.admitted|
  {
    EntryCount(p);
    forall e | e in Entries(p) ensures e in s.admitted {
      assert e in Entries(s.zset);
    }
    SubsetCount(Entries(p), s.admitted);
  }

  lemma AdmittedState(cfg: Config, s: State, m: Member, now: Time, p: Zset)
    requires Purged(cfg, s.zset, now) == p && |p| < cfg.limit
    ensures AfterRequest(cfg, s, m, now) ==
            State(p[m := now], s.calls + [Entry(m, now)], s.admitted + {Entry(m, now)}, s.pending, Later(s.clock, now))
  {
  }

  lemma RejectedState(cfg: Config, s: State, m: Member, now: Time, p: Zset)
    requires Purged(cfg, s.zset, now) == p && |p| >= cfg.limit
    ensures AfterRequest(cfg, s, m, now) ==
            State(p[m := now], s.calls + [Entry(m, now)], s.admitted, s.pending + {Entry(m, now)}, Later(s.clock, now))
  {
  }

  lemma CrowdStays(cfg: Config, s: State, lo: Time, hi: Time, k: nat, now: Time)
    requires Crowd(s, lo, hi, k) && 0.0 <= lo && now < hi <= lo + cfg.window
    ensures forall e :: e in s.admitted ==> InSet(Purged(cfg, s.zset, now), e)
    ensures |Purged(cfg, s.zset, now)| <= k
  {
    SetWithinAdmitted(s, Purged(cfg, s.zset, now));
    forall e | e in s.admitted ensures InSet(Purged(cfg, s.zset, now), e) {
      assert InSet(s.zset, e) && e in s.calls;
    }
  }

  lemma OneMoreInSet(es: set<Entry>, p: Zset, m: Member, now: Time)
    requires forall e :: e in es ==> InSet(p, e) && e.member != m
    ensures forall e :: e in es + {Entry(m, now)} ==> InSet(p[m := now], e)
    ensures |es + {Entry(m, now)}| == |es| + 1
  {
    assert Entry(m, now) !in es;
  }

  lemma CrowdIs(s: State, lo: Time, hi: Time, k: nat)
    requires Base(s) && s.pending == {} && |s.admitted| == k && s.clock < hi
    requires forall e :: e in s.calls ==> lo < e.at < hi
    requires forall e :: e in s.admitted ==> InSet(s.zset, e)
    ensures Crowd(s, lo, hi, k)
  {
  }

  lemma CrowdMembers(s: State, lo: Time, hi: Time, k: nat, m: Member)
    requires Crowd(s, lo, hi, k) && Unused(s, m)
    ensures forall e :: e in s.admitted ==> e.member != m
    ensures forall e :: e in s.calls ==> lo < e.at < hi
  {
    AdmittedCalled(s);
  }

  lemma CrowdGrows(cfg: Config, s: State, m: Member, now: Time, lo: Time, hi: Time, k: nat)
    requires Crowd(s, lo, hi, k) && k < cfg.limit && Unused(s, m) && Base(AfterRequest(cfg, s, m, now))
    requires 0.0 <= lo < now < hi <= lo + cfg.window
    ensures Crowd(AfterRequest(cfg, s, m, now), lo, hi, k + 1)
  {
    hide *;
    var p := Purged(cfg, s.zset, now);
    CrowdStays(cfg, s, lo, hi, k, now);
    CrowdMembers(s, lo, hi, k, m);
    CrowdTimes(s, lo, hi, k, now);
    AdmittedState(cfg, s, m, now, p);
    LaterIs(s.clock, now);
    OneMoreInSet(s.admitted, p, m, now);
    CrowdIs(AfterRequest(cfg, s, m, now), lo, hi, k + 1);
  }

  lemma AdmittedCalled(s: State)
    requires Base(s)
    ensures forall e :: e in s.admitted ==> e in s.calls
  {
  }

  lemma CrowdTimes(s: State, lo: Time, hi: Time, k: nat, now: Time)
    requires Crowd(s, lo, hi, k)
    ensures now <= lo || hi <= now ==> NewTime(s, now)
    ensures forall e :: e in s.admitted ==> lo < e.at < hi
    ensures s.clock < hi && s.pending == {} && |s.admitted| == k
  {
    AdmittedCalled(s);
  }

  lemma StillNewTime(s: State, t: State, entry: Entry, now: Time)
    requires NewTime(s, now) && t.calls == s.calls + [entry] && entry.at != now
    ensures NewTime(t, now)
  {
  }

  /** In order, one after another. */
  lemma {:induction false} Gather(cfg: Config, lo: Time, hi: Time, d: Time, k: nat) returns (trace: seq<Event>)
    requires 0.0 <= lo < hi <= lo + cfg.window && 0.0 <= d && k <= cfg.limit
    ensures Fine(cfg, trace, d) && Crowd(Run(cfg, trace), lo, hi, k)
  {
    if k == 0 {
      trace := [];
    } else {
      var front := Gather(cfg, lo, hi, d, k - 1);
      var s := Run(cfg, front);
      var now := (Later(s.clock, lo) + hi) / 2.0;
      assert forall e :: e in s.calls ==> e.at <= s.clock;
      var m;
      m, trace := OneMoreRequest(cfg, front, d, now);
      CrowdGrows(cfg, s, m, now, lo, hi, k - 1);
    }
  }

  // ---- a late request that does not see them -------------------------------

  /** The admitted requests between `lo` and `hi` and the late one are too many. */
  lemma TooMany(cfg: Config, s: State, crowd: set<Entry>, late: Entry)
    requires crowd <= s.admitted && |crowd| == cfg.limit && late in s.admitted && late !in crowd && cfg.window > 0.0
    requires forall e :: e in crowd ==> late.at - cfg.window < e.at < late.at
    ensures Exceeds(cfg, s)
  {
    var w := InWindow(cfg, s.admitted, late.at);
    SubsetCount(crowd + {late}, w);
    assert |w| > Cap(cfg);
  }

  lemma PurgesAll(cfg: Config, s: State, lo: Time, hi: Time, k: nat, now: Time)
    requires Crowd(s, lo, hi, k) && hi + cfg.window <= now
    ensures Purged(cfg, s.zset, now) == map[]
  {
    forall m | m in s.zset ensures m !in Purged(cfg, s.zset, now) {
      assert Entry(m, s.zset[m]) in Entries(s.zset);
      assert Entry(m, s.zset[m]) in s.calls;
    }
  }

  lemma OnlyOneLeft(cfg: Config, m: Member, at: Time, now: Time)
    requires now - cfg.window < at
    ensures Purged(cfg, map[m := at], now) == map[m := at] && |map[m := at]| == 1
  {
  }

  /** For a limit of two and more: a request one window later purges the crowd and is counted as the
      only one. */
  lemma SeveralExceed(cfg: Config, lo: Time, hi: Time, d: Time)
    requires cfg.limit >= 2 && 0.0 <= lo < hi <= lo + d && hi < lo + cfg.window
    ensures LatenessExceeds(cfg, d)
  {
    hide *;
    var trace := Gather(cfg, lo, hi, d, cfg.limit);
    var s, z, w := Run(cfg, trace), hi + cfg.window, lo + cfg.window;
    CrowdTimes(s, lo, hi, cfg.limit, z);
    CrowdTimes(s, lo, hi, cfg.limit, w);
    PurgesAll(cfg, s, lo, hi, cfg.limit, z);
    var m, more := OneMoreRequest(cfg, trace, d, z);
    var u := Run(cfg, more);
    AdmittedState(cfg, s, m, z, map[]);
    StillNewTime(s, u, Entry(m, z), w);
    LaterIs(s.clock, z);
    var n, last := OneMoreRequest(cfg, more, d, w);
    OnlyOneLeft(cfg, m, z, w);
    AdmittedState(cfg, u, n, w, map[m := z]);
    TooMany(cfg, Run(cfg, last), s.admitted, Entry(n, w));
    Found(cfg, last, d);
  }

  lemma LaterIs(a: Time, b: Time)
    ensures a <= b ==> Later(a, b) == b
    ensures b <= a ==> Later(a, b) == a
  {
  }

  lemma Found(cfg: Config, trace: seq<Event>, d: Time)
    requires Fine(cfg, trace, d) && Exceeds(cfg, Run(cfg, trace))
    ensures LatenessExceeds(cfg, d)
  {
  }

  lemma PurgesTwo(cfg: Config, m: Member, a: Time, n: Member, b: Time, now: Time)
    requires m != n && 0.0 <= a && now - cfg.window < b
    ensures now - cfg.window < a ==> Purged(cfg, map[m := a], now) == map[m := a]
    ensures a <= now - cfg.window ==> Purged(cfg, map[m := a, n := b], now) == map[n := b]
    ensures |map[m := a]| == 1 && |map[n := b]| == 1
  {
  }

  lemma TwoRollbacks(s: State, t: State, m: Member, p: Time, n: Member, z: Time)
    requires s.zset == map[m := p, n := z] && s.pending == {Entry(m, p), Entry(n, z)} && m != n && p != z
    requires t == AfterRollback(AfterRollback(s, Entry(m, p)), Entry(n, z))
    ensures t == s.(zset := map[], pending := {})
    ensures Entry(n, z) in AfterRollback(s, Entry(m, p)).pending
  {
    assert RemoveRange(s.zset, p, p) == map[n := z];
    assert RemoveRange(map[n := z], z, z) == map[];
    assert s.pending - {Entry(m, p)} - {Entry(n, z)} == {};
  }

  /** The two rejected requests: the first is in the set when the second purges the admitted one. */
  lemma TwoRejected(cfg: Config, t1: seq<Event>, d: Time, x: Entry, p: Time, z: Time) returns (t3: seq<Event>)
    requires cfg.limit == 1 && Fine(cfg, t1, d) && 0.0 <= d && 0.0 <= x.at
    requires var s := Run(cfg, t1);
             s.zset == map[x.member := x.at] && s.admitted == {x} && s.pending == {} && x in s.calls &&
             NewTime(s, p) && NewTime(s, z) && s.clock <= p
    requires p < z && p - cfg.window < x.at <= z - cfg.window < p
    ensures Fine(cfg, t3, d)
    ensures var s, u := Run(cfg, t1), Run(cfg, t3);
            exists m, n :: m != n && u == State(map[m := p, n := z], s.calls + [Entry(m, p)] + [Entry(n, z)], {x},
                                               {Entry(m, p), Entry(n, z)}, z)
  {
    hide *;
    var s := Run(cfg, t1);
    var m, t2 := OneMoreRequest(cfg, t1, d, p);
    UnusedIsNew(s, m, x);
    PurgesTwo(cfg, x.member, x.at, m, p, p);
    RejectedState(cfg, s, m, p, map[x.member := x.at]);
    LaterIs(s.clock, p);
    var u := Run(cfg, t2);
    StillNewTime(s, u, Entry(m, p), z);
    var n;
    n, t3 := OneMoreRequest(cfg, t2, d, z);
    UnusedIsNew(u, n, Entry(m, p));
    PurgesTwo(cfg, x.member, x.at, m, p, z);
    RejectedState(cfg, u, n, z, map[m := p]);
    LaterIs(u.clock, z);
    assert map[m := p][n := z] == map[m := p, n := z];
    assert {} + {Entry(m, p)} + {Entry(n, z)} == {Entry(m, p), Entry(n, z)};
  }

  lemma UnusedIsNew(s: State, m: Member, x: Entry)
    requires Unused(s, m) && x in s.calls
    ensures m != x.member
  {
  }

  /** A rejected request that purges the only admitted one and is itself rolled back leaves an empty set. */
  lemma OneExceeds(cfg: Config, lo: Time, hi: Time, d: Time)
    requires cfg.limit == 1 && 0.0 <= lo < hi <= lo + d && hi <= lo + cfg.window / 2.0 && cfg.window > 0.0
    ensures LatenessExceeds(cfg, d)
  {
    hide *;
    var t1 := Gather(cfg, lo, hi, d, 1);
    var s, p, z, w := Run(cfg, t1), hi + cfg.window / 4.0, hi + cfg.window, lo + cfg.window;
    CrowdTimes(s, lo, hi, 1, p);
    CrowdTimes(s, lo, hi, 1, z);
    CrowdTimes(s, lo, hi, 1, w);
    var x := OnlyEntry(s, lo, hi);
    var t3 := TwoRejected(cfg, t1, d, x, p, z);
    var u := Run(cfg, t3);
    var m, n :| m != n && u == State(map[m := p, n := z], s.calls + [Entry(m, p)] + [Entry(n, z)], {x},
                                     {Entry(m, p), Entry(n, z)}, z);
    StillNewTime(s, u.(calls := s.calls + [Entry(m, p)]), Entry(m, p), w);
    StillNewTime(u.(calls := s.calls + [Entry(m, p)]), u, Entry(n, z), w);
    TwoRollbacks(u, AfterRollback(AfterRollback(u, Entry(m, p)), Entry(n, z)), m, p, n, z);
    var t4 := OneMoreRollback(cfg, t3, d, Entry(m, p));
    var t5 := OneMoreRollback(cfg, t4, d, Entry(n, z));
    var v := Run(cfg, t5);
    SameCalls(u, v, w);
    var q, t6 := OneMoreRequest(cfg, t5, d, w);
    PurgesNone(cfg, w);
    AdmittedState(cfg, v, q, w, map[]);
    TooMany(cfg, Run(cfg, t6), {x}, Entry(q, w));
    Found(cfg, t6, d);
  }

  lemma SameCalls(s: State, t: State, now: Time)
    requires t.calls == s.calls && NewTime(s, now)
    ensures NewTime(t, now)
  {
  }

  lemma PurgesNone(cfg: Config, now: Time)
    ensures Purged(cfg, map[], now) == map[]
  {
  }

  lemma OnlyEntry(s: State, lo: Time, hi: Time) returns (x: Entry)
    requires Crowd(s, lo, hi, 1)
    ensures s.admitted == {x} && s.zset == map[x.member := x.at] && x in s.calls && lo < x.at < hi
  {
    x :| x in s.admitted;
    SubsetCount({}, s.admitted - {x});
    assert s.admitted - {x} == {};
    assert s.admitted == {x} && InSet(s.zset, x);
    forall m | m in s.zset ensures m == x.member {
      assert Entry(m, s.zset[m]) in Entries(s.zset);
      assert Entry(m, s.zset[m]) in s.admitted;
    }
  }

  // ---- main result ---------------------------------------------------------

  lemma {:induction false} NobodyAdmitted(cfg: Config, trace: seq<Event>)
    requires cfg.limit < 1
    ensures Run(cfg, trace).admitted == {}
  {
    if trace != [] {
      NobodyAdmitted(cfg, trace[..|trace| - 1]);
    }
  }

  /** Arrival order alone, with distinct timestamps and however little lateness, breaks every positive
      limit; pipelines that arrive in the order of their timestamps break none. */
  lemma LatenessExceedsIff(cfg: Config, d: Time)
    requires cfg.window > 0.0 && 0.0 <= d
    ensures LatenessExceeds(cfg, d) <==> 0.0 < d && cfg.limit >= 1
  {
    if 0.0 < d && cfg.limit >= 1 {
      var h := if d < cfg.window / 2.0 then d else cfg.window / 2.0;
      if cfg.limit == 1 {
        OneExceeds(cfg, 0.0, h, d);
      } else {
        SeveralExceed(cfg, 0.0, h, d);
      }
    } else {
      forall trace | DistinctTimes(Run(cfg, trace)) && LateBy(cfg, trace, d) ensures !Exceeds(cfg, Run(cfg, trace)) {
        if cfg.limit < 1 {
          NobodyAdmitted(cfg, trace);
          assert forall t :: InWindow(cfg, {}, t) == {};
        } else {
          DistinctTimesRespectTheLimit(cfg, trace, d);
          assert Shorter(cfg, 0.0) == cfg;
        }
      }
    }
  }
}
