/** How many entries interleaved calls of Allow can leave. A stale touch records the use of an
    entry that is gone; when that use is evicted later instead of an entry, one entry too many
    stays. Each stale touch can do this, so that the bound of LimiterSteps is reached. */
module LimiterOverflow {
  import opened Common
  import opened LimiterSteps
  import R = RateLimiter

  // ---- runs under a clock that never goes back ----

  function TimeOf(st: Step): Option<int> {
    if st.Look? then None else Some(st.now)
  }

  ghost predicate NotBefore(steps: seq<Step>, now: int) {
    forall k :: 0 <= k < |steps| && TimeOf(steps[k]).Some? ==> TimeOf(steps[k]).value <= now
  }

  ghost predicate MonotoneClock(steps: seq<Step>) {
    steps != [] ==>
      && MonotoneClock(Init(steps))
      && (TimeOf(Last(steps)).Some? ==> NotBefore(Init(steps), TimeOf(Last(steps)).value))
  }

  ghost predicate IdsFrom(steps: seq<Step>, ids: set<string>) {
    forall k :: 0 <= k < |steps| && steps[k].Look? ==> steps[k].id in ids
  }

  /** Every interleaving of calls with these identifiers keeps the number of entries within
      bound. */
  ghost predicate SizeKept(cfg: R.Config, ids: set<string>) {
    forall steps :: ValidRun(cfg, steps) && MonotoneClock(steps) && IdsFrom(steps, ids) ==>
      |Run(cfg, steps).limiters| <= cfg.maxSize
  }

  /** A run over `ids` up to time `t` with `stale` stale touches. */
  ghost predicate RunOver(cfg: R.Config, ids: set<string>, steps: seq<Step>, stale: nat, t: int) {
    && ValidRun(cfg, steps) && MonotoneClock(steps) && NotBefore(steps, t) && IdsFrom(steps, ids)
    && StaleTouches(cfg, steps) == stale
  }

  /** Such a run leads to `s`. */
  ghost predicate Reached(cfg: R.Config, ids: set<string>, s: Shared, stale: nat, t: int) {
    exists steps :: RunOver(cfg, ids, steps, stale, t) && Run(cfg, steps) == s
  }

  predicate InTime(st: Step, ids: set<string>, t: int) {
    if st.Look? then st.id in ids else t <= st.now
  }

  lemma ClockExtends(steps: seq<Step>, ids: set<string>, st: Step, t: int)
    requires MonotoneClock(steps) && NotBefore(steps, t) && IdsFrom(steps, ids) && InTime(st, ids, t)
    ensures MonotoneClock(steps + [st]) && IdsFrom(steps + [st], ids)
    ensures NotBefore(steps + [st], if st.Look? then t else st.now)
  {
    assert Init(steps + [st]) == steps;
  }

  lemma RunExtends(cfg: R.Config, steps: seq<Step>, st: Step)
    requires ValidRun(cfg, steps) && Enabled(cfg, Run(cfg, steps), st)
    ensures ValidRun(cfg, steps + [st]) && Run(cfg, steps + [st]) == Apply(cfg, Run(cfg, steps), st)
    ensures StaleTouches(cfg, steps + [st])
         == StaleTouches(cfg, steps) + if StaleTouch(Run(cfg, steps), st) then 1 else 0
  {
    assert Init(steps + [st]) == steps;
  }

  lemma Reach(cfg: R.Config, ids: set<string>, s: Shared, stale: nat, t: int, st: Step)
    requires Reached(cfg, ids, s, stale, t) && Enabled(cfg, s, st) && InTime(st, ids, t)
    ensures Reached(cfg, ids, Apply(cfg, s, st), if StaleTouch(s, st) then stale + 1 else stale,
                    if st.Look? then t else st.now)
  {
    var steps :| RunOver(cfg, ids, steps, stale, t) && Run(cfg, steps) == s;
    ClockExtends(steps, ids, st, t);
    RunExtends(cfg, steps, st);
    assert RunOver(cfg, ids, steps + [st], if StaleTouch(s, st) then stale + 1 else stale,
                   if st.Look? then t else st.now);
  }

  lemma ReachedApart(cfg: R.Config, ids: set<string>, s: Shared, stale: nat, t: int)
    requires Reached(cfg, ids, s, stale, t)
    ensures BucketsApart(s)
  {
    var steps :| RunOver(cfg, ids, steps, stale, t) && Run(cfg, steps) == s;
    AlwaysApart(cfg, steps);
  }

  // ---- whole calls ----

  /** A call of a new identifier is served by the slow path at once. */
  lemma Inserts(cfg: R.Config, ids: set<string>, s: Shared, stale: nat, t: int, x: string, now: int, victim: string)
      returns (s': Shared)
    requires Reached(cfg, ids, s, stale, t) && 0 !in s.calls && x !in s.limiters && x in ids && t <= now
    requires |s.limiters| >= cfg.maxSize ==> R.ScanPicks(s.lastSeen, victim)
    ensures s' == Inserted(cfg, s, x, now, victim, FirstTaken(cfg, now)) && Reached(cfg, ids, s', stale, now)
  {
    LookedInserted(cfg, s, 0, x, now, victim);
    Reach(cfg, ids, s, stale, t, Look(0, x));
    s' := Apply(cfg, s, Look(0, x));
    Reach(cfg, ids, s', stale, t, Insert(0, now, victim));
    s' := Apply(cfg, s', Insert(0, now, victim));
  }

  lemma HitSteps(cfg: R.Config, s: Shared, x: string, now: int)
    requires BucketsApart(s) && 0 !in s.calls && x in s.limiters
    ensures var s1 := Apply(cfg, s, Look(0, x));
            && Enabled(cfg, s1, Touch(0, now)) && !StaleTouch(s1, Touch(0, now))
            && var s2 := Apply(cfg, s1, Touch(0, now));
            && Enabled(cfg, s2, Check(0, now))
            && var s3 := Apply(cfg, s2, Check(0, now));
            s3 == s.(lastSeen := s.lastSeen[x := now], heap := s3.heap)
  {
    assert Without(s.calls[0 := Hit(x, s.limiters[x])][0 := Touched(s.limiters[x])], 0) == s.calls;
  }

  /** A call of a known identifier is served by the fast path at once. */
  lemma Hits(cfg: R.Config, ids: set<string>, s: Shared, stale: nat, t: int, x: string, now: int)
      returns (s': Shared)
    requires Reached(cfg, ids, s, stale, t) && 0 !in s.calls && x in s.limiters && x in ids && t <= now
    ensures s' == s.(lastSeen := s.lastSeen[x := now], heap := s'.heap) && Reached(cfg, ids, s', stale, now)
  {
    ReachedApart(cfg, ids, s, stale, t);
    HitSteps(cfg, s, x, now);
    Reach(cfg, ids, s, stale, t, Look(0, x));
    var s1 := Apply(cfg, s, Look(0, x));
    Reach(cfg, ids, s1, stale, t, Touch(0, now));
    var s2 := Apply(cfg, s1, Touch(0, now));
    Reach(cfg, ids, s2, stale, now, Check(0, now));
    s' := Apply(cfg, s2, Check(0, now));
  }

  /** The same recorded uses, those of `used` brought up to `now`. */
  ghost predicate Refreshed(before: map<string, int>, after: map<string, int>, used: set<string>, now: int) {
    after.Keys == before.Keys && forall x :: x in after ==> after[x] == if x in used then now else before[x]
  }

  lemma {:induction false} HitsAll(cfg: R.Config, ids: set<string>, s: Shared, stale: nat, t: int, used: set<string>)
      returns (s': Shared)
    requires Reached(cfg, ids, s, stale, t) && 0 !in s.calls
    requires used <= s.limiters.Keys && used <= ids && s.limiters.Keys <= s.lastSeen.Keys
    ensures Reached(cfg, ids, s', stale, t)
    ensures s'.limiters == s.limiters && s'.calls == s.calls && Refreshed(s.lastSeen, s'.lastSeen, used, t)
    decreases |used|
  {
    if used == {} {
      s' := s;
    } else {
      var x :| x in used;
      s' := HitsAll(cfg, ids, s, stale, t, used - {x});
      var before := s'.lastSeen;
      s' := Hits(cfg, ids, s', stale, t, x, t);
      OneRefreshed(s.lastSeen, before, used, x, t);
    }
  }

  lemma OneRefreshed(first: map<string, int>, before: map<string, int>, used: set<string>, x: string, now: int)
    requires x in used && x in first && Refreshed(first, before, used - {x}, now)
    ensures Refreshed(first, before[x := now], used, now)
  {
  }

  ghost predicate Uptodate(s: Shared, t: int) {
    forall id :: id in s.lastSeen ==> s.lastSeen[id] <= t
  }

  lemma InsertedUptodate(cfg: R.Config, s: Shared, t: int, now: int, x: string, victim: string)
    requires Uptodate(s, t) && t <= now
    ensures Uptodate(Inserted(cfg, s, x, now, victim, FirstTaken(cfg, now)), now)
  {
  }

  // ---- filling the limiter ----

  /** A reached state with these entries, all of them with a recorded use and no call open. */
  ghost predicate Level(cfg: R.Config, ids: set<string>, s: Shared, entries: set<string>, stale: nat, t: int) {
    && Reached(cfg, ids, s, stale, t) && s.limiters.Keys == s.lastSeen.Keys == entries && s.calls == map[]
    && Uptodate(s, t)
  }

  lemma Opening(cfg: R.Config, ids: set<string>)
    ensures Level(cfg, ids, START, {}, 0, 0)
  {
    assert RunOver(cfg, ids, [], 0, 0) && Run(cfg, []) == START;
  }

  lemma AddedState(cfg: R.Config, s: Shared, x: string, now: int)
    ensures var s' := Inserted(cfg, s, x, now, "", FirstTaken(cfg, now));
            && s'.limiters.Keys == s.limiters.Keys + {x} && s'.lastSeen == s.lastSeen[x := now] && s'.calls == s.calls
  {
    InsertedKeys(cfg, s, x, now, "", FirstTaken(cfg, now));
    assert s.lastSeen - {} == s.lastSeen && s.limiters - {} == s.limiters;
  }

  /** A new entry for which nothing has to go, or nothing that may go is found. */
  lemma Adds(cfg: R.Config, ids: set<string>, s: Shared, entries: set<string>, stale: nat, t: int, x: string)
      returns (s': Shared)
    requires Level(cfg, ids, s, entries, stale, t) && x in ids && x !in entries
    requires |entries| >= cfg.maxSize ==> R.ScanPicks(s.lastSeen, "")
    ensures Level(cfg, ids, s', entries + {x}, stale, t + 1)
    ensures s'.lastSeen == s.lastSeen[x := t + 1]
  {
    KeyCount(s.limiters);
    AddedState(cfg, s, x, t + 1);
    InsertedUptodate(cfg, s, t, t + 1, x, "");
    s' := Inserts(cfg, ids, s, stale, t, x, t + 1, "");
  }

  lemma {:induction false} Fill(cfg: R.Config, ids: set<string>, entries: set<string>) returns (s: Shared, t: int)
    requires entries <= ids && |entries| <= cfg.maxSize
    ensures Level(cfg, ids, s, entries, 0, t)
    decreases |entries|
  {
    if entries == {} {
      s, t := START, 0;
      Opening(cfg, ids);
    } else {
      var x :| x in entries;
      s, t := Fill(cfg, ids, entries - {x});
      assert |entries - {x}| == |entries| - 1;
      s := Adds(cfg, ids, s, entries - {x}, 0, t, x);
      t := t + 1;
      assert entries - {x} + {x} == entries;
    }
  }

  /** With "" as the oldest entry nothing is ever evicted. */
  lemma {:induction false} FillFromEmptyId(cfg: R.Config, ids: set<string>, entries: set<string>)
      returns (s: Shared, t: int)
    requires entries <= ids && "" in entries
    ensures Level(cfg, ids, s, entries, 0, t) && R.IsOldest(s.lastSeen, "")
    decreases |entries|
  {
    if entries == {""} {
      Opening(cfg, ids);
      s := Adds(cfg, ids, START, {}, 0, 0, "");
      t := 1;
      assert {} + {""} == entries;
    } else {
      assert entries - {""} != {};
      var x :| x in entries - {""};
      s, t := FillFromEmptyId(cfg, ids, entries - {x});
      s := Adds(cfg, ids, s, entries - {x}, 0, t, x);
      t := t + 1;
      assert entries - {x} + {x} == entries;
    }
  }

  // ---- one entry too many ----

  lemma {:induction false} OldestUse(lastSeen: map<string, int>, among: set<string>) returns (oldest: string)
    requires among != {} && among <= lastSeen.Keys
    ensures oldest in among && forall k :: k in among ==> lastSeen[oldest] <= lastSeen[k]
    decreases |among|
  {
    oldest :| oldest in among;
    var rest := among - {oldest};
    if rest != {} {
      var other := OldestUse(lastSeen, rest);
      if lastSeen[other] < lastSeen[oldest] {
        oldest := other;
      }
    }
  }

  /** Call 1 finds the entry `a`, ... */
  lemma Finds(cfg: R.Config, ids: set<string>, s: Shared, entries: set<string>, stale: nat, t: int, a: string)
      returns (s': Shared)
    requires Level(cfg, ids, s, entries, stale, t) && a in entries && a in ids
    ensures Reached(cfg, ids, s', stale, t) && s' == s.(calls := map[1 := Hit(a, s.limiters[a])])
  {
    Reach(cfg, ids, s, stale, t, Look(1, a));
    s' := Apply(cfg, s, Look(1, a));
    assert s.calls[1 := Hit(a, s.limiters[a])] == map[1 := Hit(a, s.limiters[a])];
  }

  /** ... which a new entry `y` evicts, ... */
  lemma Displaces(cfg: R.Config, ids: set<string>, s: Shared, stale: nat, t: int, a: string, y: string)
      returns (s': Shared)
    requires Reached(cfg, ids, s, stale, t) && 0 !in s.calls && s.limiters.Keys == s.lastSeen.Keys
    requires y in ids && y !in s.limiters && a != "" && R.IsOldest(s.lastSeen, a) && |s.limiters| >= cfg.maxSize
    ensures Reached(cfg, ids, s', stale, t + 1) && s'.calls == s.calls
    ensures s'.limiters.Keys == s'.lastSeen.Keys == s.limiters.Keys - {a} + {y}
  {
    s' := Inserts(cfg, ids, s, stale, t, y, t + 1, a);
    InsertedKeys(cfg, s, y, t + 1, a, FirstTaken(cfg, t + 1));
  }

  lemma TouchedAndChecked(cfg: R.Config, s: Shared, a: string, bucket: nat, now: int)
    requires s.calls == map[1 := Hit(a, bucket)] && InRange(s, bucket)
    ensures Enabled(cfg, s, Touch(1, now))
    ensures var s1 := Apply(cfg, s, Touch(1, now));
            && Enabled(cfg, s1, Check(1, now))
            && var s2 := Apply(cfg, s1, Check(1, now));
            && s2 == s.(lastSeen := s.lastSeen[a := now], calls := map[], heap := s2.heap)
  {
    assert Without(s.calls[1 := Touched(bucket)], 1) == map[];
  }

  /** ... whose use call 1 records all the same. */
  lemma TouchesStale(cfg: R.Config, ids: set<string>, s: Shared, stale: nat, t: int, a: string, bucket: nat)
      returns (s': Shared)
    requires Reached(cfg, ids, s, stale, t) && s.calls == map[1 := Hit(a, bucket)] && a !in s.limiters
    ensures Reached(cfg, ids, s', stale + 1, t)
    ensures s' == s.(lastSeen := s.lastSeen[a := t], calls := map[], heap := s'.heap)
  {
    ReachedApart(cfg, ids, s, stale, t);
    assert 1 in s.calls && s.calls[1].bucket == bucket;
    TouchedAndChecked(cfg, s, a, bucket, t);
    Reach(cfg, ids, s, stale, t, Touch(1, t));
    var s1 := Apply(cfg, s, Touch(1, t));
    Reach(cfg, ids, s1, stale + 1, t, Check(1, t));
    s' := Apply(cfg, s1, Check(1, t));
  }

  lemma OldestWhenUsed(before: map<string, int>, after: map<string, int>, used: set<string>, a: string, now: int)
    requires Refreshed(before, after, used, now) && before.Keys == used + {a} && a !in used && before[a] <= now
    ensures R.IsOldest(after, a) && forall id :: id in after ==> after[id] <= now
  {
  }

  /** When all entries have been used since, it is the oldest use, ... */
  lemma UsesOthers(cfg: R.Config, ids: set<string>, s: Shared, stale: nat, t: int, a: string) returns (s': Shared)
    requires Reached(cfg, ids, s, stale, t) && s.calls == map[]
    requires s.lastSeen.Keys == s.limiters.Keys + {a} && a !in s.limiters && s.limiters.Keys <= ids
    requires s.lastSeen[a] <= t
    ensures Reached(cfg, ids, s', stale, t + 1) && s'.calls == map[] && s'.limiters == s.limiters
    ensures s'.lastSeen.Keys == s.lastSeen.Keys && R.IsOldest(s'.lastSeen, a) && Uptodate(s', t + 1)
  {
    StillReached(cfg, ids, s, stale, t);
    s' := HitsAll(cfg, ids, s, stale, t + 1, s.limiters.Keys);
    OldestWhenUsed(s.lastSeen, s'.lastSeen, s.limiters.Keys, a, t + 1);
  }

  lemma OutAndIn(keys: set<string>, a: string)
    requires a !in keys
    ensures keys - {a} + {a} == keys + {a} == keys + {a} - {a} + {a}
  {
  }

  lemma ReturnedState(cfg: R.Config, s: Shared, t: int, a: string)
    requires a != "" && s.lastSeen.Keys == s.limiters.Keys + {a} && a !in s.limiters.Keys
    requires |s.limiters| >= cfg.maxSize
    ensures var s' := Inserted(cfg, s, a, t, a, FirstTaken(cfg, t));
            s'.limiters.Keys == s'.lastSeen.Keys == s.limiters.Keys + {a} && s'.calls == s.calls
  {
    InsertedKeys(cfg, s, a, t, a, FirstTaken(cfg, t));
    OutAndIn(s.limiters.Keys, a);
  }

  /** ... and is evicted when `a` comes back. */
  lemma Returns(cfg: R.Config, ids: set<string>, s: Shared, stale: nat, t: int, a: string) returns (s': Shared)
    requires Reached(cfg, ids, s, stale, t) && s.calls == map[] && a in ids && a != "" && Uptodate(s, t)
    requires s.lastSeen.Keys == s.limiters.Keys + {a} && a !in s.limiters && R.IsOldest(s.lastSeen, a)
    requires |s.limiters| >= cfg.maxSize
    ensures Level(cfg, ids, s', s.limiters.Keys + {a}, stale, t)
  {
    ReturnedState(cfg, s, t, a);
    InsertedUptodate(cfg, s, t, t, a, a);
    s' := Inserts(cfg, ids, s, stale, t, a, t, a);
  }

  lemma ComesBack(cfg: R.Config, ids: set<string>, s: Shared, stale: nat, t: int, a: string) returns (s': Shared)
    requires Reached(cfg, ids, s, stale, t) && s.calls == map[] && a in ids && a != ""
    requires s.lastSeen.Keys == s.limiters.Keys + {a} && a !in s.limiters && s.limiters.Keys <= ids
    requires s.lastSeen[a] <= t
    requires |s.limiters| >= cfg.maxSize
    ensures Level(cfg, ids, s', s.limiters.Keys + {a}, stale, t + 1)
  {
    s' := UsesOthers(cfg, ids, s, stale, t, a);
    s' := Returns(cfg, ids, s', stale, t + 1, a);
  }

  lemma StillReached(cfg: R.Config, ids: set<string>, s: Shared, stale: nat, t: int)
    requires Reached(cfg, ids, s, stale, t)
    ensures Reached(cfg, ids, s, stale, t + 1)
  {
    var steps :| RunOver(cfg, ids, steps, stale, t) && Run(cfg, steps) == s;
    assert RunOver(cfg, ids, steps, stale, t + 1);
  }

  /** The identifiers are not empty, and the entries among them fill the limiter. */
  predicate Crowded(cfg: R.Config, ids: set<string>, entries: set<string>) {
    "" !in ids && entries <= ids && |entries| >= cfg.maxSize >= 1
  }

  lemma TouchedAway(cfg: R.Config, ids: set<string>, s: Shared, entries: set<string>, stale: nat, t: int,
                    a: string, y: string) returns (s': Shared)
    requires Level(cfg, ids, s, entries, stale, t) && Crowded(cfg, ids, entries)
    requires y in ids && y !in entries && R.IsOldest(s.lastSeen, a)
    ensures Reached(cfg, ids, s', stale + 1, t + 1) && s'.calls == map[]
    ensures s'.limiters.Keys == entries - {a} + {y} && s'.lastSeen.Keys == entries + {y}
    ensures s'.lastSeen[a] == t + 1
  {
    KeyCount(s.limiters);
    var bucket := s.limiters[a];
    s' := Finds(cfg, ids, s, entries, stale, t, a);
    s' := Displaces(cfg, ids, s', stale, t, a, y);
    s' := TouchesStale(cfg, ids, s', stale, t + 1, a, bucket);
    assert entries - {a} + {y} + {a} == entries + {y};
  }

  /** One more entry than before, for one more stale touch. */
  lemma OneTooMany(cfg: R.Config, ids: set<string>, s: Shared, entries: set<string>, stale: nat, t: int, y: string)
      returns (s': Shared)
    requires Level(cfg, ids, s, entries, stale, t) && Crowded(cfg, ids, entries) && y in ids && y !in entries
    ensures Level(cfg, ids, s', entries + {y}, stale + 1, t + 2)
  {
    var a := OldestUse(s.lastSeen, entries);
    s' := TouchedAway(cfg, ids, s, entries, stale, t, a, y);
    KeyCount(s'.limiters);
    assert |entries - {a} + {y}| == |entries|;
    assert entries - {a} + {y} + {a} == entries + {y};
    s' := ComesBack(cfg, ids, s', stale + 1, t + 1, a);
  }

  lemma {:induction false} Overflow(cfg: R.Config, ids: set<string>, entries: set<string>) returns (s: Shared, t: int)
    requires Crowded(cfg, ids, entries)
    ensures Level(cfg, ids, s, entries, |entries| - cfg.maxSize, t)
    decreases |entries|
  {
    if |entries| == cfg.maxSize {
      s, t := Fill(cfg, ids, entries);
    } else {
      assert entries != {};
      var y :| y in entries;
      var fewer := entries - {y};
      assert |fewer| == |entries| - 1 && fewer + {y} == entries;
      s, t := Overflow(cfg, ids, fewer);
      s := OneTooMany(cfg, ids, s, fewer, |fewer| - cfg.maxSize, t, y);
      t := t + 2;
    }
  }

  /** For every limiter, and any set of non-empty identifiers that fills it, some run under a
      clock that never goes back ends with all of them as entries, one stale touch for each
      entry above the limit: the bound on interleaved runs is the best possible. */
  lemma StaleTouchesOverflow(cfg: R.Config, ids: set<string>)
    requires cfg.maxSize >= 1 && "" !in ids && |ids| >= cfg.maxSize
    ensures exists steps ::
              && ValidRun(cfg, steps) && MonotoneClock(steps) && IdsFrom(steps, ids)
              && StaleTouches(cfg, steps) == |ids| - cfg.maxSize && Run(cfg, steps).limiters.Keys == ids
  {
    var s, t := Overflow(cfg, ids, ids);
    var steps :| RunOver(cfg, ids, steps, |ids| - cfg.maxSize, t) && Run(cfg, steps) == s;
  }

  // ---- exactly when the bound holds ----

  /** Entries and open calls are about identifiers asked for. */
  ghost predicate Within(s: Shared, ids: set<string>) {
    s.limiters.Keys <= ids && forall c :: c in s.calls && s.calls[c].Miss? ==> s.calls[c].id in ids
  }

  lemma StepWithin(cfg: R.Config, s: Shared, st: Step, ids: set<string>)
    requires Within(s, ids) && Enabled(cfg, s, st) && (st.Look? ==> st.id in ids)
    ensures Within(Apply(cfg, s, st), ids)
  {
  }

  lemma {:induction false} AlwaysWithin(cfg: R.Config, steps: seq<Step>, ids: set<string>)
    requires ValidRun(cfg, steps) && IdsFrom(steps, ids)
    ensures Within(Run(cfg, steps), ids)
  {
    if steps != [] {
      AlwaysWithin(cfg, Init(steps), ids);
      assert Last(steps) == steps[|steps| - 1];
      StepWithin(cfg, Run(cfg, Init(steps)), Last(steps), ids);
    }
  }

  lemma FewKept(cfg: R.Config, ids: set<string>)
    requires |ids| <= cfg.maxSize
    ensures SizeKept(cfg, ids)
  {
    forall steps | ValidRun(cfg, steps) && MonotoneClock(steps) && IdsFrom(steps, ids)
      ensures |Run(cfg, steps).limiters| <= cfg.maxSize
    {
      AlwaysWithin(cfg, steps, ids);
      KeyCount(Run(cfg, steps).limiters);
      SubsetSmaller(Run(cfg, steps).limiters.Keys, ids);
    }
  }

  lemma TooMany(cfg: R.Config, ids: set<string>, s: Shared, entries: set<string>, stale: nat, t: int)
    requires Level(cfg, ids, s, entries, stale, t) && |entries| > cfg.maxSize
    ensures !SizeKept(cfg, ids)
  {
    var steps :| RunOver(cfg, ids, steps, stale, t) && Run(cfg, steps) == s;
    KeyCount(s.limiters);
  }

  lemma ManyOverflow(cfg: R.Config, ids: set<string>)
    requires |ids| > cfg.maxSize
    ensures !SizeKept(cfg, ids)
  {
    if cfg.maxSize == 0 {
      var x :| x in ids;
      Opening(cfg, ids);
      var s := Adds(cfg, ids, START, {}, 0, 0, x);
      TooMany(cfg, ids, s, {} + {x}, 0, 1);
    } else if "" in ids {
      var s, t := FillFromEmptyId(cfg, ids, ids);
      TooMany(cfg, ids, s, ids, 0, t);
    } else {
      var s, t := Overflow(cfg, ids, ids);
      TooMany(cfg, ids, s, ids, |ids| - cfg.maxSize, t);
    }
  }

  /** The number of entries stays within bound on every interleaving of calls, exactly if the
      identifiers asked for all fit. */
  lemma SizeKeptIff(cfg: R.Config, ids: set<string>)
    ensures SizeKept(cfg, ids) <==> |ids| <= cfg.maxSize
  {
    if |ids| <= cfg.maxSize {
      FewKept(cfg, ids);
    } else {
      ManyOverflow(cfg, ids);
    }
  }
}
