/** What forgetting does to admission. The limiter is compared with the simple thing
    it stands for: an unbounded map of token buckets that never forgets a client. */
module Forgetting {
  import opened Common
  import opened TokenBucket
  import opened RateLimiter
  import CV = ClientView

  // ---- the reference: a bucket per client, kept for ever ----

  function RefBucketFor(cfg: Config, m: map<string, Bucket>, id: string, now: int): Bucket {
    if id in m then m[id] else Fresh(cfg.rate, now)
  }

  function RefApply(cfg: Config, m: map<string, Bucket>, e: Event): map<string, Bucket> {
    match e
    case Request(id, now, _) => m[id := Take(cfg.rate, RefBucketFor(cfg, m, id, now), now).0]
    case Tick(_) => m
  }

  function RefAnswer(cfg: Config, m: map<string, Bucket>, e: Event): bool {
    e.Request? && Take(cfg.rate, RefBucketFor(cfg, m, e.id, e.now), e.now).1
  }

  function RefRun(cfg: Config, evs: seq<Event>): map<string, Bucket> {
    if evs == [] then map[] else RefApply(cfg, RefRun(cfg, Init(evs)), Last(evs))
  }

  function RefLastAnswer(cfg: Config, evs: seq<Event>): bool
    requires evs != []
  {
    RefAnswer(cfg, RefRun(cfg, Init(evs)), Last(evs))
  }

  // ---- counts along a run ----

  predicate RequestOf(e: Event, x: string) {
    e.Request? && e.id == x
  }

  /** Requests of `x` the limiter allows along a run. */
  function Allowed(cfg: Config, evs: seq<Event>, x: string): nat {
    if evs == [] then 0
    else if RequestOf(Last(evs), x) && LastAnswer(cfg, evs) then Allowed(cfg, Init(evs), x) + 1
    else Allowed(cfg, Init(evs), x)
  }

  /** Requests of `x` the reference allows along the same run. */
  function RefAllowed(cfg: Config, evs: seq<Event>, x: string): nat {
    if evs == [] then 0
    else if RequestOf(Last(evs), x) && RefLastAnswer(cfg, evs) then RefAllowed(cfg, Init(evs), x) + 1
    else RefAllowed(cfg, Init(evs), x)
  }

  predicate Dropped(cfg: Config, s: Entries, e: Event, x: string) {
    x in s.limiters && x !in Apply(cfg, s, e).limiters
  }

  /** Times the entry of `x` is removed along a run. */
  function Drops(cfg: Config, evs: seq<Event>, x: string): nat {
    if evs == [] then 0
    else if Dropped(cfg, Run(cfg, Init(evs)), Last(evs), x) then Drops(cfg, Init(evs), x) + 1
    else Drops(cfg, Init(evs), x)
  }

  // ---- one client's share of a run ----

  /** The moment an event is for client `x`, on the clock scaled by the limit. */
  function Moment(cfg: Config, s: Entries, e: Event, x: string): CV.Moment {
    if RequestOf(e, x) then CV.Asked(cfg.rate.Scaled(e.now))
    else CV.Passed(cfg.rate.Scaled(e.now), Dropped(cfg, s, e, x))
  }

  function Project(cfg: Config, evs: seq<Event>, x: string): (tr: seq<CV.Moment>)
    ensures |tr| == |evs|
  {
    if evs == [] then []
    else Project(cfg, Init(evs), x) + [Moment(cfg, Run(cfg, Init(evs)), Last(evs), x)]
  }

  lemma {:induction false} ProjectPrefix(cfg: Config, evs: seq<Event>, x: string, n: nat)
    requires n <= |evs|
    ensures Project(cfg, evs, x)[..n] == Project(cfg, evs[..n], x)
    decreases |evs|
  {
    if n == |evs| {
      assert evs[..n] == evs;
    } else {
      ProjectPrefix(cfg, Init(evs), x, n);
      assert Init(evs)[..n] == evs[..n];
    }
  }

  lemma {:induction false} ProjectAt(cfg: Config, evs: seq<Event>, x: string, k: nat)
    requires k < |evs|
    ensures Project(cfg, evs, x)[k] == Moment(cfg, Run(cfg, evs[..k]), evs[k], x)
    decreases |evs|
  {
    if k < |evs| - 1 {
      ProjectAt(cfg, Init(evs), x, k);
      assert Init(evs)[..k] == evs[..k];
    } else {
      assert Init(evs) == evs[..k];
    }
  }

  lemma ProjectionMonotone(cfg: Config, evs: seq<Event>, x: string)
    requires ValidRun(cfg, evs)
    ensures CV.Monotone(Project(cfg, evs, x))
  {
    var tr := Project(cfg, evs, x);
    forall i, j | 0 <= i < j < |tr|
      ensures tr[i].now <= tr[j].now
    {
      ProjectAt(cfg, evs, x, i);
      ProjectAt(cfg, evs, x, j);
      TimesMonotone(evs[i].now, evs[j].now, cfg.rate.limit);
    }
  }

  /** A bucket read on the scaled clock. */
  function ScaledBucket(r: Rate, m: map<string, Bucket>, x: string): Option<Bucket> {
    if x in m then Some(Bucket(m[x].credit, r.Scaled(m[x].last))) else None
  }

  lemma LevelScales(r: Rate, m: map<string, Bucket>, x: string, now: int)
    ensures CV.Level(r.Cap(), CV.NEWCOMER.(bucket := ScaledBucket(r, m, x)), r.Scaled(now))
         == if x in m then Refill(r, m[x], now) else r.Cap()
  {
    if x in m {
      TimesAdds(now - m[x].last, m[x].last, r.limit);
      if now <= m[x].last {
        TimesMonotone(now, m[x].last, r.limit);
      } else {
        TimesMonotone(m[x].last, now, r.limit);
      }
    }
  }

  /** One event moves the client's share as it moves the two maps. */
  lemma StepProjects(cfg: Config, s: Entries, e: Event, x: string, c: CV.Client)
    requires c.bucket == ScaledBucket(cfg.rate, s.limiters, x)
    ensures var c' := CV.Step(cfg.rate.Cap(), c, Moment(cfg, s, e, x), true);
            && c'.bucket == ScaledBucket(cfg.rate, Apply(cfg, s, e).limiters, x)
            && c'.allowed == (if RequestOf(e, x) && Answer(cfg, s, e) then c.allowed + 1 else c.allowed)
            && c'.drops == (if Dropped(cfg, s, e, x) then c.drops + 1 else c.drops)
  {
    LevelScales(cfg.rate, s.limiters, x, e.now);
  }

  lemma RefStepProjects(cfg: Config, m: map<string, Bucket>, s: Entries, e: Event, x: string, c: CV.Client)
    requires c.bucket == ScaledBucket(cfg.rate, m, x)
    ensures var c' := CV.Step(cfg.rate.Cap(), c, Moment(cfg, s, e, x), false);
            && c'.bucket == ScaledBucket(cfg.rate, RefApply(cfg, m, e), x)
            && c'.allowed == (if RequestOf(e, x) && RefAnswer(cfg, m, e) then c.allowed + 1 else c.allowed)
  {
    LevelScales(cfg.rate, m, x, e.now);
  }

  /** Bucket and counts of `x` in the limiter are those of its own share of the run:
      other clients act on `x` only by having its entry removed. */
  lemma {:induction false} LimiterProjects(cfg: Config, evs: seq<Event>, x: string)
    ensures var c := CV.Follow(cfg.rate.Cap(), Project(cfg, evs, x), true);
            && c.bucket == ScaledBucket(cfg.rate, Run(cfg, evs).limiters, x)
            && c.allowed == Allowed(cfg, evs, x) && c.drops == Drops(cfg, evs, x)
  {
    if evs != [] {
      var before := Init(evs);
      LimiterProjects(cfg, before, x);
      assert Init(Project(cfg, evs, x)) == Project(cfg, before, x);
      StepProjects(cfg, Run(cfg, before), Last(evs), x, CV.Follow(cfg.rate.Cap(), Project(cfg, before, x), true));
    }
  }

  lemma {:induction false} ReferenceProjects(cfg: Config, evs: seq<Event>, x: string)
    ensures var c := CV.Follow(cfg.rate.Cap(), Project(cfg, evs, x), false);
            && c.bucket == ScaledBucket(cfg.rate, RefRun(cfg, evs), x)
            && c.allowed == RefAllowed(cfg, evs, x)
  {
    if evs != [] {
      var before := Init(evs);
      ReferenceProjects(cfg, before, x);
      assert Init(Project(cfg, evs, x)) == Project(cfg, before, x);
      RefStepProjects(cfg, RefRun(cfg, before), Run(cfg, before), Last(evs), x,
                      CV.Follow(cfg.rate.Cap(), Project(cfg, before, x), false));
    }
  }

  // ---- forgetting never costs a client ----

  lemma NeverBehind(cfg: Config, evs: seq<Event>, x: string)
    requires ValidRun(cfg, evs)
    ensures Allowed(cfg, evs, x) >= RefAllowed(cfg, evs, x)
  {
    var tr := Project(cfg, evs, x);
    ProjectionMonotone(cfg, evs, x);
    CV.CreditKept(cfg.rate.Cap(), tr, if tr == [] then 0 else Last(tr).now);
    LimiterProjects(cfg, evs, x);
    ReferenceProjects(cfg, evs, x);
  }

  /** Whatever is evicted or cleaned up and whenever, no client is ever allowed fewer
      requests than a bucket that never forgets would have allowed it. */
  lemma ForgettingNeverCosts(cfg: Config, evs: seq<Event>, x: string)
    requires ValidRun(cfg, evs)
    ensures forall n: nat :: n <= |evs| ==> Allowed(cfg, evs[..n], x) >= RefAllowed(cfg, evs[..n], x)
  {
    forall n: nat | n <= |evs|
      ensures Allowed(cfg, evs[..n], x) >= RefAllowed(cfg, evs[..n], x)
    {
      AnyPrefixValid(cfg, evs, n);
      NeverBehind(cfg, evs[..n], x);
    }
  }

  // ---- a window of a run ----

  /** Requests of a client allowed, and removals of its entry, up to a point of a run. */
  datatype Tally = Tally(allowed: nat, drops: nat)

  function TallyOf(cfg: Config, evs: seq<Event>, x: string): Tally {
    Tally(Allowed(cfg, evs, x), Drops(cfg, evs, x))
  }

  /** Between two tallies taken at `start` and `end`: at most burst * (1 + drops) requests
      plus limit * elapsed, in units of credit. */
  predicate WithinBudget(r: Rate, from: Tally, to: Tally, start: int, end: int) {
    && from.drops <= to.drops
    && Times(to.allowed - from.allowed, COST)
       <= Times(1 + (to.drops - from.drops), r.Cap()) + Times(end - start, r.limit)
  }

  lemma BudgetInTokens(r: Rate, c0: CV.Client, c: CV.Client, start: int, end: int)
    requires c0.spent == Times(c0.allowed, COST) && c.spent == Times(c.allowed, COST)
    requires c0.topped == Times(c0.drops, r.Cap()) && c.topped == Times(c.drops, r.Cap())
    requires c.spent - c0.spent <= r.Cap() + c.topped - c0.topped + r.Scaled(end) - r.Scaled(start)
    requires c0.drops <= c.drops
    ensures WithinBudget(r, Tally(c0.allowed, c0.drops), Tally(c.allowed, c.drops), start, end)
  {
    TimesAdds(c.allowed - c0.allowed, c0.allowed, COST);
    TimesAdds(end - start, start, r.limit);
    TimesAdds(c.drops - c0.drops, c0.drops, r.Cap());
    TimesAdds(1, c.drops - c0.drops, r.Cap());
  }

  lemma ClientWindow(cfg: Config, evs: seq<Event>, i: nat, x: string)
    requires ValidRun(cfg, evs) && i < |evs|
    ensures var tr := Project(cfg, evs, x);
            var c0, c := CV.Follow(cfg.rate.Cap(), tr[..i], true), CV.Follow(cfg.rate.Cap(), tr, true);
            WithinBudget(cfg.rate, Tally(c0.allowed, c0.drops), Tally(c.allowed, c.drops), evs[i].now, Last(evs).now)
  {
    var tr, cap := Project(cfg, evs, x), cfg.rate.Cap();
    ProjectionMonotone(cfg, evs, x);
    assert tr[i].now == cfg.rate.Scaled(evs[i].now) && Last(tr).now == cfg.rate.Scaled(Last(evs).now) by {
      ProjectAt(cfg, evs, x, i);
      ProjectAt(cfg, evs, x, |evs| - 1);
    }
    CV.WindowPotential(cap, tr, true, i, tr[i].now, Last(tr).now);
    CV.Totals(cap, tr, true);
    CV.Totals(cap, tr[..i], true);
    BudgetInTokens(cfg.rate, CV.Follow(cap, tr[..i], true), CV.Follow(cap, tr, true), evs[i].now, Last(evs).now);
  }

  lemma ProjectedTally(cfg: Config, evs: seq<Event>, x: string)
    ensures var c := CV.Follow(cfg.rate.Cap(), Project(cfg, evs, x), true);
            Tally(c.allowed, c.drops) == TallyOf(cfg, evs, x)
  {
    LimiterProjects(cfg, evs, x);
  }

  lemma WindowToEnd(cfg: Config, evs: seq<Event>, i: nat, x: string)
    requires ValidRun(cfg, evs) && i < |evs|
    ensures WithinBudget(cfg.rate, TallyOf(cfg, evs[..i], x), TallyOf(cfg, evs, x), evs[i].now, Last(evs).now)
  {
    ClientWindow(cfg, evs, i, x);
    ProjectPrefix(cfg, evs, x, i);
    ProjectedTally(cfg, evs, x);
    ProjectedTally(cfg, evs[..i], x);
  }

  lemma WindowCredit(cfg: Config, evs: seq<Event>, i: nat, j: nat, x: string)
    requires ValidRun(cfg, evs) && i < j <= |evs|
    ensures WithinBudget(cfg.rate, TallyOf(cfg, evs[..i], x), TallyOf(cfg, evs[..j], x), evs[i].now, evs[j - 1].now)
  {
    AnyPrefixValid(cfg, evs, j);
    assert evs[..j][..i] == evs[..i];
    WindowToEnd(cfg, evs[..j], i, x);
  }

  /** Credit counted in tokens of 1_000_000_000 units. */
  lemma CreditInTokens(r: Rate, tokens: int, bursts: nat, elapsed: int)
    ensures Times(tokens, COST) == 1_000_000_000 * tokens
    ensures Times(bursts, r.Cap()) == 1_000_000_000 * r.burst * bursts
    ensures r.Cap() == 1_000_000_000 * r.burst
    ensures Times(elapsed, r.limit) == r.limit * elapsed
  {
    TimesIsProduct(tokens, COST);
    TimesIsProduct(bursts, r.Cap());
    TimesIsProduct(r.burst, COST);
    TimesIsProduct(elapsed, r.limit);
  }

  /** Between two tallies at most one burst, one more for each removal, and the refill. */
  predicate InBudget(r: Rate, from: Tally, to: Tally, start: int, end: int) {
    && from.drops <= to.drops
    && 1_000_000_000 * (to.allowed - from.allowed)
       <= 1_000_000_000 * r.burst * (1 + to.drops - from.drops) + r.limit * (end - start)
  }

  lemma BudgetCounts(r: Rate, from: Tally, to: Tally, start: int, end: int)
    requires WithinBudget(r, from, to, start, end)
    ensures InBudget(r, from, to, start, end)
  {
    CreditInTokens(r, to.allowed - from.allowed, 1 + (to.drops - from.drops), end - start);
  }

  /** In any window of a run, from event `i` up to event `j`, a client is allowed at most
      one burst, one more for each time its entry is removed in the window, and what the
      limit refills over the window; other clients do not matter. */
  lemma WindowBound(cfg: Config, evs: seq<Event>, i: nat, j: nat, x: string)
    requires ValidRun(cfg, evs) && i < j <= |evs|
    ensures InBudget(cfg.rate, TallyOf(cfg, evs[..i], x), TallyOf(cfg, evs[..j], x), evs[i].now, evs[j - 1].now)
  {
    WindowCredit(cfg, evs, i, j, x);
    BudgetCounts(cfg.rate, TallyOf(cfg, evs[..i], x), TallyOf(cfg, evs[..j], x), evs[i].now, evs[j - 1].now);
  }

  // ---- no request is refused needlessly ----

  lemma ClientRefused(cfg: Config, evs: seq<Event>, j: nat, x: string) returns (i: nat)
    requires ValidRun(cfg, evs) && j < |evs| && RequestOf(evs[j], x) && !Answer(cfg, Run(cfg, evs[..j]), evs[j])
    ensures i <= j
    ensures var tr, cap := Project(cfg, evs[..j], x), cfg.rate.Cap();
            && |tr| == j
            && CV.Follow(cap, tr, true).spent - CV.Follow(cap, tr[..i], true).spent + COST
               > cap + cfg.rate.Scaled(evs[j].now) - cfg.rate.Scaled(evs[i].now)
  {
    var before, tr, cap := evs[..j], Project(cfg, evs[..j], x), cfg.rate.Cap();
    var t := cfg.rate.Scaled(evs[j].now);
    AnyPrefixValid(cfg, evs, j);
    ProjectionMonotone(cfg, before, x);
    EndsBefore(cfg, evs, j, x);
    i := CV.SinceFull(cap, tr, true, t);
    if i < j {
      ProjectAt(cfg, before, x, i);
    }
    LimiterProjects(cfg, before, x);
    LevelScales(cfg.rate, Run(cfg, before).limiters, x, evs[j].now);
  }

  lemma EndsBefore(cfg: Config, evs: seq<Event>, j: nat, x: string)
    requires ValidRun(cfg, evs) && j < |evs|
    ensures CV.NotBefore(Project(cfg, evs[..j], x), cfg.rate.Scaled(evs[j].now))
  {
    if j > 0 {
      ProjectAt(cfg, evs[..j], x, j - 1);
      TimesMonotone(evs[j - 1].now, evs[j].now, cfg.rate.limit);
    }
  }

  lemma SpentIsAllowed(cfg: Config, evs: seq<Event>, j: nat, x: string, i: nat)
    requires i <= j <= |evs|
    ensures var tr, cap := Project(cfg, evs[..j], x), cfg.rate.Cap();
            && |tr| == j
            && CV.Follow(cap, tr, true).spent == Times(Allowed(cfg, evs[..j], x), COST)
            && CV.Follow(cap, tr[..i], true).spent == Times(Allowed(cfg, evs[..i], x), COST)
  {
    var cap := cfg.rate.Cap();
    ProjectPrefix(cfg, evs[..j], x, i);
    assert evs[..j][..i] == evs[..i];
    LimiterProjects(cfg, evs[..j], x);
    LimiterProjects(cfg, evs[..i], x);
    CV.Totals(cap, Project(cfg, evs[..j], x), true);
    CV.Totals(cap, Project(cfg, evs[..i], x), true);
  }

  lemma SpentCredit(r: Rate, allowed: int, before: int, start: int, end: int)
    requires Times(allowed, COST) - Times(before, COST) + COST > r.Cap() + r.Scaled(end) - r.Scaled(start)
    ensures Times(allowed - before, COST) + COST > r.Cap() + Times(end - start, r.limit)
  {
    TimesDiffers(allowed, before, COST);
    TimesDiffers(end, start, r.limit);
  }

  lemma SpentTokens(r: Rate, taken: int, elapsed: int)
    requires Times(taken, COST) + COST > r.Cap() + Times(elapsed, r.limit)
    ensures 1_000_000_000 * taken + 1_000_000_000 > 1_000_000_000 * r.burst + r.limit * elapsed
  {
    CreditInTokens(r, taken, 0, elapsed);
  }

  /** Between `start` and `end` all of a burst and of the refill was taken, up to less than one
      token. */
  predicate AllTaken(r: Rate, before: nat, allowed: nat, start: int, end: int) {
    1_000_000_000 * (allowed - before) + 1_000_000_000 > 1_000_000_000 * r.burst + r.limit * (end - start)
  }

  lemma SpentIsTaken(r: Rate, before: nat, allowed: nat, start: int, end: int)
    requires Times(allowed, COST) - Times(before, COST) + COST > r.Cap() + r.Scaled(end) - r.Scaled(start)
    ensures AllTaken(r, before, allowed, start, end)
  {
    var taken: int := allowed - before;
    SpentCredit(r, allowed, before, start, end);
    SpentTokens(r, taken, end - start);
  }

  /** A request is refused only if the client has used up everything since some event before it:
      no request is refused needlessly. */
  lemma RefusedOnlyWhenSpent(cfg: Config, evs: seq<Event>, j: nat, x: string)
    requires ValidRun(cfg, evs) && j < |evs| && RequestOf(evs[j], x) && !Answer(cfg, Run(cfg, evs[..j]), evs[j])
    ensures exists i: nat :: i <= j && var before, allowed := Allowed(cfg, evs[..i], x), Allowed(cfg, evs[..j], x);
                               AllTaken(cfg.rate, before, allowed, evs[i].now, evs[j].now)
  {
    var i := ClientRefused(cfg, evs, j, x);
    SpentIsAllowed(cfg, evs, j, x, i);
    SpentIsTaken(cfg.rate, Allowed(cfg, evs[..i], x), Allowed(cfg, evs[..j], x), evs[i].now, evs[j].now);
  }

  lemma Refilled(r: Rate, b: Bucket, now: int)
    requires r.burst >= 1 && now > b.last && r.limit * (now - b.last) >= 1_000_000_000
    ensures Take(r, b, now).1
  {
    CreditInTokens(r, 0, 1, now - b.last);
  }

  /** A request for an entry that was last used long enough ago for one token to be refilled is
      allowed, whatever happened before. */
  lemma WaitingAdmits(cfg: Config, evs: seq<Event>, x: string, now: int, victim: string)
    requires ValidRun(cfg, evs) && cfg.rate.burst >= 1 && x in Run(cfg, evs).lastSeen
    requires now > Run(cfg, evs).lastSeen[x]
    requires cfg.rate.limit * (now - Run(cfg, evs).lastSeen[x]) >= 1_000_000_000
    ensures Answer(cfg, Run(cfg, evs), Request(x, now, victim))
  {
    MapsAgree(cfg, evs);
    var s := Run(cfg, evs);
    assert x in s.limiters.Keys;
    Refilled(cfg.rate, s.limiters[x], now);
  }

  /** A client without an entry is allowed its first request. */
  lemma FirstAdmitted(cfg: Config, evs: seq<Event>, x: string, now: int, victim: string)
    requires ValidRun(cfg, evs) && cfg.rate.burst >= 1 && x !in Run(cfg, evs).limiters
    ensures Answer(cfg, Run(cfg, evs), Request(x, now, victim))
  {
    CreditInTokens(cfg.rate, 0, 1, 0);
  }

  // ---- when cleanup is invisible ----

  ghost predicate NoEviction(cfg: Config, evs: seq<Event>) {
    forall k :: 0 <= k < |evs| ==> !Evicts(cfg, Run(cfg, evs[..k]), evs[k])
  }

  /** Limiter and reference give the same answer at the end of every sequential run
      without eviction; prefixes of runs are runs, so they agree on every answer. */
  ghost predicate AgreesWithReference(cfg: Config) {
    forall evs :: ValidRun(cfg, evs) && NoEviction(cfg, evs) && evs != [] ==>
      LastAnswer(cfg, evs) == RefLastAnswer(cfg, evs)
  }

  /** Any bucket idle for longer than the TTL has refilled completely. */
  predicate IdleMeansFull(cfg: Config) {
    cfg.rate.limit * ShortestIdle(cfg) >= 1_000_000_000 * cfg.rate.burst
  }

  /** The shortest time without a use after which the cleanup removes an entry. */
  function ShortestIdle(cfg: Config): nat {
    if cfg.ttl >= 0 then cfg.ttl + 1 else 0
  }

  lemma IdleCredit(cfg: Config)
    ensures IdleMeansFull(cfg) <==> Times(ShortestIdle(cfg), cfg.rate.limit) >= Times(cfg.rate.burst, COST)
    ensures cfg.rate.Cap() == Times(cfg.rate.burst, COST)
  {
    CreditInTokens(cfg.rate, cfg.rate.burst, 0, ShortestIdle(cfg));
  }

  /** A bucket that the cleanup finds idle is full. */
  lemma IdleIsFull(cfg: Config, b: Bucket, now: int)
    requires IdleMeansFull(cfg) && b.last <= now && now - b.last > cfg.ttl
    ensures Refill(cfg.rate, b, now) == cfg.rate.Cap()
  {
    IdleCredit(cfg);
    TimesMonotone(ShortestIdle(cfg), now - b.last, cfg.rate.limit);
  }

  lemma DropsAreFull(cfg: Config, evs: seq<Event>, x: string)
    requires ValidRun(cfg, evs) && NoEviction(cfg, evs) && IdleMeansFull(cfg)
    ensures CV.OnlyFullDrops(cfg.rate.Cap(), Project(cfg, evs, x))
  {
    var tr, cap := Project(cfg, evs, x), cfg.rate.Cap();
    forall k | 0 <= k < |tr| && tr[k].Passed? && tr[k].dropped
      ensures CV.Level(cap, CV.Follow(cap, tr[..k], true), tr[k].now) == cap
    {
      var before := Run(cfg, evs[..k]);
      ProjectPrefix(cfg, evs, x, k);
      ProjectAt(cfg, evs, x, k);
      DropIsIdle(cfg, evs, x, k);
      LimiterProjects(cfg, evs[..k], x);
      LevelScales(cfg.rate, before.limiters, x, evs[k].now);
      IdleIsFull(cfg, before.limiters[x], evs[k].now);
    }
  }

  lemma DropIsIdle(cfg: Config, evs: seq<Event>, x: string, k: nat)
    requires ValidRun(cfg, evs) && NoEviction(cfg, evs) && k < |evs|
    requires Dropped(cfg, Run(cfg, evs[..k]), evs[k], x)
    ensures var b := Run(cfg, evs[..k]).limiters[x]; b.last <= evs[k].now && evs[k].now - b.last > cfg.ttl
  {
    AnyPrefixValid(cfg, evs, k);
    MapsAgree(cfg, evs[..k]);
  }

  lemma SameCounts(cfg: Config, evs: seq<Event>, x: string)
    requires ValidRun(cfg, evs) && NoEviction(cfg, evs) && IdleMeansFull(cfg)
    ensures Allowed(cfg, evs, x) == RefAllowed(cfg, evs, x)
  {
    DropsAreFull(cfg, evs, x);
    ProjectionMonotone(cfg, evs, x);
    var tr := Project(cfg, evs, x);
    CV.FullDropsInvisible(cfg.rate.Cap(), tr, if tr == [] then 0 else Last(tr).now);
    LimiterProjects(cfg, evs, x);
    ReferenceProjects(cfg, evs, x);
  }

  lemma PrefixNoEviction(cfg: Config, evs: seq<Event>, n: nat)
    requires NoEviction(cfg, evs) && n <= |evs|
    ensures NoEviction(cfg, evs[..n])
  {
    assert forall k :: 0 <= k < n ==> evs[..n][..k] == evs[..k];
  }

  lemma FullBucketsAgree(cfg: Config)
    requires IdleMeansFull(cfg)
    ensures AgreesWithReference(cfg)
  {
    forall evs | ValidRun(cfg, evs) && NoEviction(cfg, evs) && evs != []
      ensures LastAnswer(cfg, evs) == RefLastAnswer(cfg, evs)
    {
      if Last(evs).Request? {
        PrefixValid(cfg, evs);
        PrefixNoEviction(cfg, evs, |evs| - 1);
        SameCounts(cfg, evs, Last(evs).id);
        SameCounts(cfg, Init(evs), Last(evs).id);
      }
    }
  }

  lemma {:induction false} AgreementCounts(cfg: Config, evs: seq<Event>, x: string)
    requires AgreesWithReference(cfg) && ValidRun(cfg, evs) && NoEviction(cfg, evs)
    ensures Allowed(cfg, evs, x) == RefAllowed(cfg, evs, x)
  {
    if evs != [] {
      PrefixValid(cfg, evs);
      PrefixNoEviction(cfg, evs, |evs| - 1);
      AgreementCounts(cfg, Init(evs), x);
    }
  }

  lemma LoneStep(cfg: Config, s: Entries, e: Event, x: string)
    requires cfg.maxSize >= 1 && s.limiters.Keys <= {x} && (e.Request? ==> e.id == x)
    ensures !Evicts(cfg, s, e) && Apply(cfg, s, e).limiters.Keys <= {x}
  {
    if x !in s.limiters {
      assert s.limiters.Keys == {};
      assert |s.limiters| == |s.limiters.Keys|;
    }
  }

  /** A lone client never causes an eviction. */
  lemma {:induction false} LoneClient(cfg: Config, evs: seq<Event>, x: string)
    requires cfg.maxSize >= 1 && forall k :: 0 <= k < |evs| && evs[k].Request? ==> evs[k].id == x
    ensures LegalRun(cfg, evs) && NoEviction(cfg, evs) && Run(cfg, evs).limiters.Keys <= {x}
  {
    if evs != [] {
      LoneClient(cfg, Init(evs), x);
      LoneStep(cfg, Run(cfg, Init(evs)), Last(evs), x);
      ExtendNoEviction(cfg, evs);
    }
  }

  lemma ExtendNoEviction(cfg: Config, evs: seq<Event>)
    requires evs != [] && NoEviction(cfg, Init(evs)) && !Evicts(cfg, Run(cfg, Init(evs)), Last(evs))
    ensures NoEviction(cfg, evs)
  {
    forall k | 0 <= k < |evs|
      ensures !Evicts(cfg, Run(cfg, evs[..k]), evs[k])
    {
      if k < |evs| - 1 {
        assert Init(evs)[..k] == evs[..k] && Init(evs)[k] == evs[k];
      }
    }
  }

  function Burst(n: nat, x: string, now: int): seq<Event> {
    seq(n, _ => Request(x, now, ""))
  }

  /** A burst, a tick as soon as the entry is idle, and a second burst. */
  function TwoBursts(cfg: Config, x: string, tick: int): seq<Event> {
    Burst(cfg.rate.burst, x, 0) + [Tick(tick)] + Burst(cfg.rate.burst, x, tick)
  }

  lemma {:induction false} ProjectBurst(cfg: Config, evs: seq<Event>, n: nat, x: string, now: int)
    ensures Project(cfg, evs + Burst(n, x, now), x) == Project(cfg, evs, x) + CV.Volley(n, cfg.rate.Scaled(now))
  {
    var t := cfg.rate.Scaled(now);
    if n == 0 {
      assert evs + Burst(0, x, now) == evs;
    } else {
      ProjectBurst(cfg, evs, n - 1, x, now);
      var before := evs + Burst(n - 1, x, now);
      assert evs + Burst(n, x, now) == before + [Request(x, now, "")];
      assert CV.Volley(n, t) == CV.Volley(n - 1, t) + [CV.Asked(t)];
      ProjectOneMore(cfg, before, Request(x, now, ""), x);
    }
  }

  lemma ProjectOneMore(cfg: Config, evs: seq<Event>, e: Event, x: string)
    ensures Project(cfg, evs + [e], x) == Project(cfg, evs, x) + [Moment(cfg, Run(cfg, evs), e, x)]
  {
    assert Init(evs + [e]) == evs;
  }

  /** A client without an entry is allowed a burst in full. */
  lemma BurstAllowed(cfg: Config, evs: seq<Event>, x: string, now: int)
    requires x !in Run(cfg, evs).limiters
    ensures Allowed(cfg, evs + Burst(cfg.rate.burst, x, now), x) == Allowed(cfg, evs, x) + cfg.rate.burst
  {
    var b := cfg.rate.burst;
    LimiterProjects(cfg, evs, x);
    LimiterProjects(cfg, evs + Burst(b, x, now), x);
    ProjectBurst(cfg, evs, b, x, now);
    CV.VolleyAllowed(b, Project(cfg, evs, x), b, cfg.rate.Scaled(now));
  }

  lemma TwoBurstsAt(cfg: Config, x: string, tick: int, k: nat)
    requires k < |TwoBursts(cfg, x, tick)|
    ensures var e := TwoBursts(cfg, x, tick)[k];
            && e.now == (if k < cfg.rate.burst then 0 else tick)
            && (e.Request? ==> e.id == x)
  {
    if k < cfg.rate.burst {
      assert TwoBursts(cfg, x, tick)[k] == Burst(cfg.rate.burst, x, 0)[k];
    } else if k > cfg.rate.burst {
      assert TwoBursts(cfg, x, tick)[k] == Burst(cfg.rate.burst, x, tick)[k - cfg.rate.burst - 1];
    }
  }

  lemma TwoBurstsValid(cfg: Config, x: string, tick: int)
    requires cfg.maxSize >= 1 && tick >= 0
    ensures ValidRun(cfg, TwoBursts(cfg, x, tick)) && NoEviction(cfg, TwoBursts(cfg, x, tick))
  {
    var evs := TwoBursts(cfg, x, tick);
    forall i, j | 0 <= i < j < |evs|
      ensures evs[i].now <= evs[j].now
    {
      TwoBurstsAt(cfg, x, tick, i);
      TwoBurstsAt(cfg, x, tick, j);
    }
    forall k | 0 <= k < |evs| && evs[k].Request?
      ensures evs[k].id == x
    {
      TwoBurstsAt(cfg, x, tick, k);
    }
    LoneClient(cfg, evs, x);
  }

  /** After a burst at time 0 the tick removes the entry. */
  lemma TickDrops(cfg: Config, n: nat, x: string, tick: int)
    requires cfg.maxSize >= 1 && tick > cfg.ttl && tick >= 0
    ensures x !in Run(cfg, Burst(n, x, 0) + [Tick(tick)]).limiters
  {
    var first := Burst(n, x, 0);
    assert Run(cfg, first + [Tick(tick)]) == Apply(cfg, Run(cfg, first), Tick(tick)) by {
      assert Init(first + [Tick(tick)]) == first;
    }
    if n > 0 {
      LastSeenAfterBurst(cfg, n, x);
    } else {
      assert first == [];
    }
  }

  lemma LastSeenAfterBurst(cfg: Config, n: nat, x: string)
    requires n > 0
    ensures var s := Run(cfg, Burst(n, x, 0)); x in s.lastSeen && s.lastSeen[x] == 0
  {
    assert Last(Burst(n, x, 0)) == Request(x, 0, "");
  }

  /** On that run the limiter allows both bursts in full ... */
  lemma TwoBurstsAllowed(cfg: Config, x: string, tick: int)
    requires cfg.maxSize >= 1 && tick >= 0 && tick > cfg.ttl
    ensures Allowed(cfg, TwoBursts(cfg, x, tick), x) == 2 * cfg.rate.burst
  {
    var first := Burst(cfg.rate.burst, x, 0);
    assert [] + first == first;
    BurstAllowed(cfg, [], x, 0);
    TickDrops(cfg, cfg.rate.burst, x, tick);
    assert Init(first + [Tick(tick)]) == first;
    BurstAllowed(cfg, first + [Tick(tick)], x, tick);
  }

  /** ... while the reference allows at most one burst and what was refilled in between. */
  lemma ReferenceCredit(cfg: Config, evs: seq<Event>, x: string)
    requires ValidRun(cfg, evs) && evs != []
    ensures Times(RefAllowed(cfg, evs, x), COST)
         <= cfg.rate.Cap() + cfg.rate.Scaled(Last(evs).now) - cfg.rate.Scaled(evs[0].now)
  {
    var tr, cap := Project(cfg, evs, x), cfg.rate.Cap();
    ProjectionMonotone(cfg, evs, x);
    ProjectAt(cfg, evs, x, 0);
    CV.Totals(cap, tr, false);
    assert tr[..0] == [];
    CV.WindowPotential(cap, tr, false, 0, tr[0].now, Last(tr).now);
    ReferenceProjects(cfg, evs, x);
  }

  /** Buckets that are never forgotten allow a client one burst and the refill at most. */
  lemma ReferenceBound(cfg: Config, evs: seq<Event>, x: string)
    requires ValidRun(cfg, evs) && evs != []
    ensures 1_000_000_000 * RefAllowed(cfg, evs, x)
         <= 1_000_000_000 * cfg.rate.burst + cfg.rate.limit * (Last(evs).now - evs[0].now)
  {
    ReferenceCredit(cfg, evs, x);
    TimesAdds(Last(evs).now - evs[0].now, evs[0].now, cfg.rate.limit);
    CreditInTokens(cfg.rate, RefAllowed(cfg, evs, x), 0, Last(evs).now - evs[0].now);
  }

  lemma TwoBurstsDiffer(cfg: Config, x: string, tick: nat)
    requires cfg.maxSize >= 1 && tick > cfg.ttl && Times(tick, cfg.rate.limit) < Times(cfg.rate.burst, COST)
    ensures Allowed(cfg, TwoBursts(cfg, x, tick), x) != RefAllowed(cfg, TwoBursts(cfg, x, tick), x)
  {
    var evs := TwoBursts(cfg, x, tick);
    TwoBurstsValid(cfg, x, tick);
    TwoBurstsAllowed(cfg, x, tick);
    TwoBurstsTooMany(cfg.rate, tick);
    TwoBurstsAt(cfg, x, tick, 0);
    TwoBurstsAt(cfg, x, tick, |evs| - 1);
    ReferenceCredit(cfg, evs, x);
  }

  lemma EmptyBucketsDisagree(cfg: Config)
    requires cfg.maxSize >= 1 && !IdleMeansFull(cfg)
    ensures !AgreesWithReference(cfg)
  {
    var x, tick := "a", ShortestIdle(cfg);
    IdleCredit(cfg);
    TwoBurstsValid(cfg, x, tick);
    TwoBurstsDiffer(cfg, x, tick);
    if AgreesWithReference(cfg) {
      AgreementCounts(cfg, TwoBursts(cfg, x, tick), x);
    }
  }

  lemma TwoBurstsTooMany(r: Rate, tick: nat)
    requires Times(tick, r.limit) < Times(r.burst, COST)
    ensures r.burst > 0 && Times(2 * r.burst, COST) > r.Cap() + r.Scaled(tick) - r.Scaled(0)
  {
    TimesNonNegative(tick, r.limit);
    TimesAdds(r.burst, r.burst, COST);
  }

  /** Cleanup is invisible exactly when a bucket idle for longer than the TTL is sure to
      be full again (or when every insertion evicts). */
  lemma CleanupInvisibleIff(cfg: Config)
    ensures AgreesWithReference(cfg)
            <==> cfg.maxSize == 0
                 || cfg.rate.limit * (if cfg.ttl >= 0 then cfg.ttl + 1 else 0) >= 1_000_000_000 * cfg.rate.burst
  {
    if IdleMeansFull(cfg) {
      FullBucketsAgree(cfg);
    } else if cfg.maxSize >= 1 {
      EmptyBucketsDisagree(cfg);
    } else {
      forall evs | ValidRun(cfg, evs) && NoEviction(cfg, evs) && evs != []
        ensures LastAnswer(cfg, evs) == RefLastAnswer(cfg, evs)
      {
        NothingStored(cfg, evs);
      }
    }
  }

  /** With room for nothing, a run without eviction makes no request. */
  lemma {:induction false} NothingStored(cfg: Config, evs: seq<Event>)
    requires cfg.maxSize == 0 && NoEviction(cfg, evs)
    ensures Run(cfg, evs) == EMPTY && (evs != [] ==> Last(evs).Tick?)
  {
    if evs != [] {
      PrefixNoEviction(cfg, evs, |evs| - 1);
      NothingStored(cfg, Init(evs));
    }
  }

  /** The default settings: 10 requests per second, bursts of 20, a TTL of 15 minutes,
      at most 10000 entries. */
  const DEFAULT := Config(Rate(10, 20), 900_000_000_000, 10000)

  lemma CleanupInvisibleByDefault()
    ensures AgreesWithReference(DEFAULT)
  {
    CleanupInvisibleIff(DEFAULT);
  }

  /** Under the default settings a client is allowed, in any window in which its entry is not
      removed, at most 20 requests and 10 a second. */
  lemma WindowBoundByDefault(evs: seq<Event>, i: nat, j: nat, x: string)
    requires ValidRun(DEFAULT, evs) && i < j <= |evs| && Drops(DEFAULT, evs[..j], x) == Drops(DEFAULT, evs[..i], x)
    ensures 1_000_000_000 * (Allowed(DEFAULT, evs[..j], x) - Allowed(DEFAULT, evs[..i], x))
         <= 20_000_000_000 + 10 * (evs[j - 1].now - evs[i].now)
  {
    WindowBound(DEFAULT, evs, i, j, x);
  }
}
