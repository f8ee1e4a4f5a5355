/**
 When the limit can be exceeded (src/cache/rate_limit.py:36-52): the rollback of a rejected request
 removes by timestamp, so it may take an admitted request with it.
 */
module RateLimitLoss {
  import opened Prelude
  import opened RateLimit

  // ---- what may still happen -----------------------------------------------

  ghost function RunFrom(cfg: Config, s: State, more: seq<Event>): State
    decreases |more|
  {
    if more == [] then s else RunFrom(cfg, Apply(cfg, s, more[0]), more[1..])
  }

  /** Every further request bears a later timestamp than all requests before it. */
  ghost predicate StrictlyLater(cfg: Config, s: State, more: seq<Event>)
    decreases |more|
  {
    more != [] ==>
      && (more[0].Request? ==> Newer(s, more[0].now))
      && StrictlyLater(cfg, Apply(cfg, s, more[0]), more[1..])
  }

  /** Some window holds too many admitted requests. */
  ghost predicate Exceeds(cfg: Config, s: State) {
    exists t :: |InWindow(cfg, s.admitted, t)| > Cap(cfg)
  }

  /** Later requests, with strictly increasing timestamps, can exceed the limit. */
  ghost predicate CanExceed(cfg: Config, s: State) {
    exists more :: StrictlyLater(cfg, s, more) && Exceeds(cfg, RunFrom(cfg, s, more))
  }

  /** An admitted request still in the window that is missing from the set, or that a pending rollback
      will take with it. */
  ghost predicate Doomed(cfg: Config, s: State, a: Entry) {
    && a in s.admitted && s.clock - cfg.window < a.at
    && (!InSet(s.zset, a) || exists p :: p in s.pending && p.at == a.at)
  }

  // ---- without a doomed request nothing can go wrong -----------------------

  /** No pending rollback meets an admitted request of the window. */
  ghost predicate PendingApart(cfg: Config, s: State) {
    forall p :: p in s.pending ==> Harmless(cfg, s, p)
  }

  lemma LaterStep(cfg: Config, s: State, e: Event)
    requires Inv(cfg, s) && Bounded(cfg, s) && PendingApart(cfg, s) && (e.Request? ==> Newer(s, e.now))
    ensures var t := Apply(cfg, s, e); Inv(cfg, t) && Bounded(cfg, t) && PendingApart(cfg, t)
  {
    assert Shorter(cfg, 0.0) == cfg;
    StepKeepsBounded(cfg, s, e, 0.0);
    if Enabled(cfg, s, e) {
      StepKeepsInv(cfg, s, e);
      var t := Apply(cfg, s, e);
      forall p, a | p in t.pending && a in t.admitted && t.clock - cfg.window < a.at ensures a.at != p.at {
        if p in s.pending && a in s.admitted {
          assert Harmless(cfg, s, p);
        } else {
          assert p in s.calls || a in s.calls;
        }
      }
    }
  }

  lemma {:induction false} LaterRun(cfg: Config, s: State, more: seq<Event>)
    requires Inv(cfg, s) && Bounded(cfg, s) && PendingApart(cfg, s) && StrictlyLater(cfg, s, more)
    ensures Bounded(cfg, RunFrom(cfg, s, more))
    decreases |more|
  {
    if more != [] {
      LaterStep(cfg, s, more[0]);
      LaterRun(cfg, Apply(cfg, s, more[0]), more[1..]);
    }
  }

  // ---- a doomed request lets one too many in -------------------------------

  lemma Prepend(cfg: Config, s: State, e: Event)
    requires (e.Request? ==> Newer(s, e.now)) && CanExceed(cfg, Apply(cfg, s, e))
    ensures CanExceed(cfg, s)
  {
    var more :| StrictlyLater(cfg, Apply(cfg, s, e), more) && Exceeds(cfg, RunFrom(cfg, Apply(cfg, s, e), more));
    assert ([e] + more)[1..] == more;
    assert StrictlyLater(cfg, s, [e] + more) && Exceeds(cfg, RunFrom(cfg, s, [e] + more));
  }

  /** The admitted requests not older than `a`. */
  function Since(s: State, a: Entry): set<Entry> {
    set e | e in s.admitted && a.at <= e.at
  }

  /** With nothing pending, a missing request makes the limiter admit whoever comes before it leaves
      the window, unless the limit is exceeded already. */
  lemma LetIn(cfg: Config, s: State, a: Entry, now: Time)
    requires Base(s) && s.pending == {} && Bounded(cfg, s)
    requires a in s.admitted && !InSet(s.zset, a) && s.clock <= now < a.at + cfg.window
    ensures Admits(cfg, s.zset, now)
  {
    var p, w := Purged(cfg, s.zset, now), InWindow(cfg, s.admitted, now);
    EntryCount(p);
    forall m | m in p ensures Entry(m, p[m]) in w - {a} {
      assert Entry(m, s.zset[m]) in Entries(s.zset);
      assert Entry(m, s.zset[m]) in s.calls;
    }
    SubsetCount(Entries(p), w - {a});
    assert a in s.calls && a in w;
    assert |w| <= Cap(cfg);
  }

  lemma {:induction false} FreshMember(calls: seq<Entry>) returns (m: Member)
    ensures forall e :: e in calls ==> e.member < m
  {
    if calls == [] {
      m := 0;
    } else {
      var front, last := calls[..|calls| - 1], calls[|calls| - 1];
      m := FreshMember(front);
      assert calls == front + [last];
      if m <= last.member {
        m := last.member + 1;
      }
    }
  }

  lemma FreshIsUnused(s: State, m: Member)
    requires Base(s) && forall e :: e in s.calls ==> e.member < m
    ensures Unused(s, m)
  {
    forall k | k in s.zset ensures k < m {
      assert Entry(k, s.zset[k]) in Entries(s.zset);
      assert Entry(k, s.zset[k]) in s.calls;
    }
  }

  lemma SinceGrows(cfg: Config, s: State, a: Entry, m: Member, now: Time)
    requires Base(s) && Enabled(cfg, s, Request(m, now)) && Admits(cfg, s.zset, now) && a in s.admitted
    requires !InSet(s.zset, a) && s.clock <= now
    ensures var t := AfterRequest(cfg, s, m, now);
            a in t.admitted && !InSet(t.zset, a) && t.pending == s.pending && |Since(t, a)| == |Since(s, a)| + 1
  {
    var t := AfterRequest(cfg, s, m, now);
    assert a in s.calls && Entry(m, now) !in s.admitted;
    assert Since(t, a) == Since(s, a) + {Entry(m, now)};
  }

  /** One more request between now and the moment the missing request leaves the window. */
  lemma OneMoreIn(cfg: Config, s: State, a: Entry) returns (e: Event)
    requires Base(s) && s.pending == {} && Bounded(cfg, s)
    requires a in s.admitted && s.clock - cfg.window < a.at && !InSet(s.zset, a)
    ensures e.Request? && Newer(s, e.now) && Enabled(cfg, s, e)
    ensures var t := Apply(cfg, s, e);
            && Base(t) && t.pending == {} && a in t.admitted && t.clock - cfg.window < a.at && !InSet(t.zset, a)
            && |Since(t, a)| == |Since(s, a)| + 1
  {
    var m := FreshMember(s.calls);
    var now := (s.clock + a.at + cfg.window) / 2.0;
    e := Request(m, now);
    FreshIsUnused(s, m);
    assert forall c :: c in s.calls ==> c.at <= s.clock;
    LetIn(cfg, s, a, now);
    hide Base, Bounded, Admits, Unused, InSet, Since;
    StepKeepsBase(cfg, s, e);
    SinceGrows(cfg, s, a, m, now);
  }

  lemma SinceFits(cfg: Config, s: State, a: Entry)
    requires Base(s) && a in s.admitted && s.clock - cfg.window < a.at && Bounded(cfg, s)
    ensures |Since(s, a)| <= Cap(cfg)
  {
    forall e | e in Since(s, a) ensures e in InWindow(cfg, s.admitted, s.clock) {
      assert e in s.calls;
    }
    SubsetCount(Since(s, a), InWindow(cfg, s.admitted, s.clock));
    assert |InWindow(cfg, s.admitted, s.clock)| <= Cap(cfg);
  }

  lemma RollbackKeepsDoomed(cfg: Config, s: State, a: Entry, p: Entry)
    requires Base(s) && Doomed(cfg, s, a) && p in s.pending
    ensures Base(AfterRollback(s, p)) && Doomed(cfg, AfterRollback(s, p), a)
  {
    RollbackKeepsBase(s, p);
    var t := AfterRollback(s, p);
    if InSet(s.zset, a) && p.at != a.at {
      var q :| q in s.pending && q.at == a.at;
      assert q in t.pending;
    }
  }

  lemma {:induction false} DoomedExceeds(cfg: Config, s: State, a: Entry)
    requires Base(s) && Doomed(cfg, s, a)
    ensures CanExceed(cfg, s)
    decreases |s.pending|, Cap(cfg) + 1 - |Since(s, a)|
  {
    if Exceeds(cfg, s) {
      assert StrictlyLater(cfg, s, []) && RunFrom(cfg, s, []) == s;
    } else if s.pending != {} {
      var p :| p in s.pending;
      RollbackKeepsDoomed(cfg, s, a, p);
      DoomedExceeds(cfg, AfterRollback(s, p), a);
      Prepend(cfg, s, Rollback(p));
    } else {
      SinceFits(cfg, s, a);
      var e := OneMoreIn(cfg, s, a);
      DoomedExceeds(cfg, Apply(cfg, s, e), a);
      Prepend(cfg, s, e);
    }
  }

  // ---- main result ---------------------------------------------------------

  /** After any trace, in any order of arrival, later requests with strictly increasing timestamps can
      exceed the limit if and only if it is exceeded already or some admitted request still in the window
      is missing from the set or shares its timestamp with a rollback that is still to come. */
  lemma LimitCanBeExceededIff(cfg: Config, trace: seq<Event>)
    ensures var s := Run(cfg, trace);
            CanExceed(cfg, s) <==> Exceeds(cfg, s) || exists a :: Doomed(cfg, s, a)
  {
    var s := Run(cfg, trace);
    RunKeepsBase(cfg, trace);
    if Exceeds(cfg, s) {
      assert StrictlyLater(cfg, s, []) && RunFrom(cfg, s, []) == s;
    } else if a :| Doomed(cfg, s, a) {
      DoomedExceeds(cfg, s, a);
    } else {
      NothingDoomed(cfg, s);
      forall more | StrictlyLater(cfg, s, more) ensures !Exceeds(cfg, RunFrom(cfg, s, more)) {
        LaterRun(cfg, s, more);
      }
    }
  }

  lemma NothingDoomed(cfg: Config, s: State)
    requires Base(s) && !Exceeds(cfg, s) && forall a :: !Doomed(cfg, s, a)
    ensures Inv(cfg, s) && Bounded(cfg, s) && PendingApart(cfg, s)
  {
    forall a | a in s.admitted && s.clock - cfg.window < a.at
      ensures InSet(s.zset, a) && forall p :: p in s.pending ==> p.at != a.at
    {
      assert !Doomed(cfg, s, a);
    }
  }

  // ---- a concrete run ------------------------------------------------------

  /** Limit one, window ten. The rollback of a rejected request removes by score, so it also
      removes an admitted request of the same instant, and a third one is let in. */
  const ONE: Config := Config(1, 10.0)
  const CLASH: seq<Event> := [Request(0, 100.0), Request(1, 100.0), Rollback(Entry(1, 100.0)), Request(2, 101.0)]
  const AFTER_FIRST: State := State(map[0 := 100.0], [Entry(0, 100.0)], {Entry(0, 100.0)}, {}, 100.0)
  const AFTER_SECOND: State :=
    State(map[0 := 100.0, 1 := 100.0], [Entry(0, 100.0), Entry(1, 100.0)], {Entry(0, 100.0)}, {Entry(1, 100.0)}, 100.0)
  const AFTER_ROLLBACK: State :=
    State(map[], [Entry(0, 100.0), Entry(1, 100.0)], {Entry(0, 100.0)}, {}, 100.0)

  lemma ClashFirst()
    ensures Apply(ONE, FRESH, CLASH[0]) == AFTER_FIRST
  {
    assert Purged(ONE, map[], 100.0) == map[];
  }

  lemma ClashSecond()
    ensures Apply(ONE, AFTER_FIRST, CLASH[1]) == AFTER_SECOND
  {
    assert Purged(ONE, AFTER_FIRST.zset, 100.0) == AFTER_FIRST.zset;
  }

  lemma ClashRollback()
    ensures Apply(ONE, AFTER_SECOND, CLASH[2]) == AFTER_ROLLBACK
  {
    assert RemoveRange(AFTER_SECOND.zset, 100.0, 100.0) == map[];
  }

  lemma ClashThird()
    ensures Apply(ONE, AFTER_ROLLBACK, CLASH[3]).admitted == {Entry(0, 100.0), Entry(2, 101.0)}
    ensures Apply(ONE, AFTER_ROLLBACK, CLASH[3]).calls == [Entry(0, 100.0), Entry(1, 100.0), Entry(2, 101.0)]
  {
    assert Purged(ONE, map[], 101.0) == map[];
  }

  lemma EqualTimestampsBreakTheLimit()
    ensures LateBy(ONE, CLASH, 0.0) && !NoLoss(ONE, CLASH)
    ensures |InWindow(ONE, Run(ONE, CLASH).admitted, 101.0)| == 2 > ONE.limit
  {
    var e := CLASH;
    RunSnoc(ONE, [], e[0]);
    assert [] + [e[0]] == [e[0]];
    RunSnoc(ONE, [e[0]], e[1]);
    RunSnoc(ONE, [e[0]] + [e[1]], e[2]);
    RunSnoc(ONE, [e[0]] + [e[1]] + [e[2]], e[3]);
    assert [e[0]] + [e[1]] + [e[2]] + [e[3]] == CLASH;
    LateBySnoc(ONE, [], e[0], 0.0);
    LateBySnoc(ONE, [e[0]], e[1], 0.0);
    LateBySnoc(ONE, [e[0]] + [e[1]], e[2], 0.0);
    LateBySnoc(ONE, [e[0]] + [e[1]] + [e[2]], e[3], 0.0);
    ClashFirst();
    ClashSecond();
    ClashRollback();
    ClashThird();
    var s := Run(ONE, CLASH);
    assert s == Apply(ONE, AFTER_ROLLBACK, e[3]);
    assert InWindow(ONE, s.admitted, 101.0) == {Entry(0, 100.0), Entry(2, 101.0)};
    assert Shorter(ONE, 0.0) == ONE;
    if NoLoss(ONE, CLASH) {
      WindowIsRespected(ONE, CLASH, 0.0);
    }
  }
}
