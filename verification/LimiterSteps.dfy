/** Interleaved calls of Allow. Each critical section of limiter.go is one step: the fast
    path looks an entry up under the read lock, records the time under the write lock, and
    then asks the bucket it found; the slow path is a single critical section. Between the
    steps of a call other calls and the cleanup may run, so an entry can be gone by the
    time its use is recorded. */
module LimiterSteps {
  import opened Common
  import opened TokenBucket
  import R = RateLimiter

  /** Where a call in progress stands; buckets are known by their place in the heap. */
  datatype Call =
    | Hit(id: string, bucket: nat)
    | Miss(id: string)
    | Touched(bucket: nat)

  datatype Shared = Shared(
    limiters: map<string, nat>,
    lastSeen: map<string, int>,
    heap: seq<Bucket>,
    calls: map<nat, Call>)

  datatype Step =
    | Look(call: nat, id: string)
    | Touch(call: nat, now: int)
    | Check(call: nat, now: int)
    | Insert(call: nat, now: int, victim: string)
    | Tick(now: int)

  const START := Shared(map[], map[], [], map[])

  /** What the slow path removes to make room, if it has to. */
  function Gone(cfg: R.Config, s: Shared, victim: string): set<string> {
    if |s.limiters| >= cfg.maxSize && victim != "" then {victim} else {}
  }

  /** The slow path inserts a new bucket. */
  function Inserted(cfg: R.Config, s: Shared, id: string, now: int, victim: string, bucket: Bucket): Shared {
    var gone := Gone(cfg, s, victim);
    s.(limiters := (s.limiters - gone)[id := |s.heap|],
       lastSeen := (s.lastSeen - gone)[id := now],
       heap := s.heap + [bucket])
  }

  /** A full bucket that has been asked once. */
  function FirstTaken(cfg: R.Config, now: int): Bucket {
    Take(cfg.rate, Fresh(cfg.rate, now), now).0
  }

  predicate InRange(s: Shared, bucket: nat) {
    bucket < |s.heap|
  }

  ghost predicate Enabled(cfg: R.Config, s: Shared, st: Step) {
    match st
    case Look(c, id) => c !in s.calls
    case Touch(c, now) => c in s.calls && s.calls[c].Hit?
    case Check(c, now) => c in s.calls && s.calls[c].Touched? && InRange(s, s.calls[c].bucket)
    case Insert(c, now, victim) =>
      && c in s.calls && s.calls[c].Miss?
      && (s.calls[c].id in s.limiters ==> InRange(s, s.limiters[s.calls[c].id]))
      && (s.calls[c].id !in s.limiters && |s.limiters| >= cfg.maxSize ==> R.ScanPicks(s.lastSeen, victim))
    case Tick(now) => true
  }

  function Without(calls: map<nat, Call>, c: nat): map<nat, Call> {
    map k | k in calls && k != c :: calls[k]
  }

  function TakeAt(cfg: R.Config, heap: seq<Bucket>, bucket: nat, now: int): seq<Bucket>
    requires bucket < |heap|
  {
    heap[bucket := Take(cfg.rate, heap[bucket], now).0]
  }

  ghost function Apply(cfg: R.Config, s: Shared, st: Step): Shared
    requires Enabled(cfg, s, st)
  {
    match st
    case Look(c, id) =>
      s.(calls := s.calls[c := if id in s.limiters then Hit(id, s.limiters[id]) else Miss(id)])
    case Touch(c, now) =>
      s.(lastSeen := s.lastSeen[s.calls[c].id := now], calls := s.calls[c := Touched(s.calls[c].bucket)])
    case Check(c, now) =>
      s.(heap := TakeAt(cfg, s.heap, s.calls[c].bucket, now), calls := Without(s.calls, c))
    case Insert(c, now, victim) =>
      var id := s.calls[c].id;
      if id in s.limiters then
        s.(lastSeen := s.lastSeen[id := now],
           heap := TakeAt(cfg, s.heap, s.limiters[id], now), calls := Without(s.calls, c))
      else
        Inserted(cfg, s, id, now, victim, FirstTaken(cfg, now)).(calls := Without(s.calls, c))
    case Tick(now) =>
      s.(limiters := map id | id in s.limiters && !Idle(cfg, s, id, now) :: s.limiters[id],
         lastSeen := map id | id in s.lastSeen && !Idle(cfg, s, id, now) :: s.lastSeen[id])
  }

  predicate Idle(cfg: R.Config, s: Shared, id: string, now: int) {
    id in s.lastSeen && now - s.lastSeen[id] > cfg.ttl
  }

  /** A call records the use of an entry that has been dropped since it was found. */
  ghost predicate StaleTouch(s: Shared, st: Step) {
    st.Touch? && st.call in s.calls && s.calls[st.call].Hit? && s.calls[st.call].id !in s.limiters
  }

  // ---- runs ----

  ghost predicate ValidRun(cfg: R.Config, steps: seq<Step>)
    decreases |steps|, 0
  {
    steps != [] ==> ValidRun(cfg, Init(steps)) && Enabled(cfg, Run(cfg, Init(steps)), Last(steps))
  }

  ghost function Run(cfg: R.Config, steps: seq<Step>): Shared
    requires ValidRun(cfg, steps)
    decreases |steps|, 1
  {
    if steps == [] then START else Apply(cfg, Run(cfg, Init(steps)), Last(steps))
  }

  ghost function StaleTouches(cfg: R.Config, steps: seq<Step>): nat
    requires ValidRun(cfg, steps)
  {
    if steps == [] then 0
    else if StaleTouch(Run(cfg, Init(steps)), Last(steps)) then StaleTouches(cfg, Init(steps)) + 1
    else StaleTouches(cfg, Init(steps))
  }

  ghost predicate NonEmptyIds(steps: seq<Step>) {
    forall k :: 0 <= k < |steps| && steps[k].Look? ==> steps[k].id != ""
  }

  // ---- the size bound as a potential ----

  /** Entries above the limit, and recorded uses of entries that are gone. */
  function Slack(n: nat, entries: set<string>, seen: set<string>): nat {
    (if |entries| > n then |entries| - n else 0) + |seen - entries|
  }

  lemma TouchSlack(n: nat, entries: set<string>, seen: set<string>, id: string)
    ensures Slack(n, entries, seen + {id}) <= Slack(n, entries, seen) + if id in entries then 0 else 1
  {
    if id in entries {
      assert seen + {id} - entries == seen - entries;
    } else {
      assert seen + {id} - entries == (seen - entries) + {id};
    }
  }

  lemma DropSlack(n: nat, entries: set<string>, seen: set<string>, gone: set<string>)
    ensures Slack(n, entries - gone, seen - gone) <= Slack(n, entries, seen)
  {
    SubsetSmaller(entries - gone, entries);
    SubsetSmaller((seen - gone) - (entries - gone), seen - entries);
  }

  lemma AddSlack(n: nat, entries: set<string>, seen: set<string>, id: string)
    requires |entries| < n
    ensures Slack(n, entries + {id}, seen + {id}) <= Slack(n, entries, seen)
  {
    SubsetSmaller((seen + {id}) - (entries + {id}), seen - entries);
  }

  /** Evicting any recorded key pays for the entry inserted next, also when the key
      evicted is not an entry any more. */
  lemma EvictAddSlack(n: nat, entries: set<string>, seen: set<string>, id: string, victim: string)
    requires |entries| >= n && victim in seen && entries <= seen && id !in entries
    ensures Slack(n, entries - {victim} + {id}, seen - {victim} + {id}) <= Slack(n, entries, seen)
  {
    var entries', seen' := entries - {victim} + {id}, seen - {victim} + {id};
    if victim in entries {
      assert |entries'| == |entries|;
      SubsetSmaller(seen' - entries', seen - entries);
    } else {
      assert entries - {victim} == entries;
      SubsetSmaller(seen' - entries', (seen - entries) - {victim});
    }
  }

  ghost predicate PendingNamed(s: Shared) {
    forall c :: c in s.calls && !s.calls[c].Touched? ==> s.calls[c].id != ""
  }

  ghost predicate Bounded(cfg: R.Config, s: Shared, stale: nat) {
    && s.limiters.Keys <= s.lastSeen.Keys && "" !in s.lastSeen && PendingNamed(s)
    && Slack(cfg.maxSize, s.limiters.Keys, s.lastSeen.Keys) <= stale
  }

  lemma TickKeys(cfg: R.Config, s: Shared, now: int, gone: set<string>)
    requires gone == set id | id in s.lastSeen && Idle(cfg, s, id, now)
    ensures var s' := Apply(cfg, s, Tick(now));
            && s'.limiters.Keys == s.limiters.Keys - gone && s'.lastSeen.Keys == s.lastSeen.Keys - gone
            && s'.calls == s.calls
  {
  }

  lemma TickBounded(cfg: R.Config, s: Shared, now: int, stale: nat)
    requires Bounded(cfg, s, stale)
    ensures Bounded(cfg, Apply(cfg, s, Tick(now)), stale)
  {
    var gone := set id | id in s.lastSeen && Idle(cfg, s, id, now);
    TickKeys(cfg, s, now, gone);
    DropSlack(cfg.maxSize, s.limiters.Keys, s.lastSeen.Keys, gone);
  }

  lemma TouchBounded(cfg: R.Config, s: Shared, st: Step, stale: nat)
    requires Bounded(cfg, s, stale) && st.Touch? && Enabled(cfg, s, st)
    ensures Bounded(cfg, Apply(cfg, s, st), if StaleTouch(s, st) then stale + 1 else stale)
  {
    var id, s' := s.calls[st.call].id, Apply(cfg, s, st);
    TouchSlack(cfg.maxSize, s.limiters.Keys, s.lastSeen.Keys, id);
    assert s'.lastSeen.Keys == s.lastSeen.Keys + {id};
  }

  lemma InsertedKeys(cfg: R.Config, s: Shared, id: string, now: int, victim: string, bucket: Bucket)
    ensures var s', gone := Inserted(cfg, s, id, now, victim, bucket), Gone(cfg, s, victim);
            && s'.limiters.Keys == s.limiters.Keys - gone + {id}
            && s'.lastSeen.Keys == s.lastSeen.Keys - gone + {id}
  {
  }

  lemma InsertSlack(n: nat, entries: set<string>, seen: set<string>, id: string, gone: set<string>, victim: string)
    requires entries <= seen && id !in entries
    requires if |entries| >= n then gone == {victim} && victim in seen else gone == {}
    ensures Slack(n, entries - gone + {id}, seen - gone + {id}) <= Slack(n, entries, seen)
  {
    if |entries| >= n {
      EvictAddSlack(n, entries, seen, id, victim);
    } else {
      AddSlack(n, entries, seen, id);
      assert entries - {} == entries && seen - {} == seen;
    }
  }

  lemma VictimKnown(cfg: R.Config, s: Shared, victim: string)
    requires cfg.maxSize >= 1 && |s.limiters| >= cfg.maxSize && s.limiters.Keys <= s.lastSeen.Keys
    requires "" !in s.lastSeen && R.ScanPicks(s.lastSeen, victim)
    ensures victim in s.lastSeen.Keys && victim != ""
  {
    KeyCount(s.limiters);
    assert s.limiters.Keys != {};
  }

  lemma InsertedBounded(cfg: R.Config, s: Shared, id: string, now: int, victim: string, bucket: Bucket, stale: nat)
    requires cfg.maxSize >= 1 && Bounded(cfg, s, stale) && id !in s.limiters && id != ""
    requires |s.limiters| >= cfg.maxSize ==> R.ScanPicks(s.lastSeen, victim)
    ensures Bounded(cfg, Inserted(cfg, s, id, now, victim, bucket), stale)
  {
    InsertedKeys(cfg, s, id, now, victim, bucket);
    KeyCount(s.limiters);
    if |s.limiters| >= cfg.maxSize {
      VictimKnown(cfg, s, victim);
    }
    InsertSlack(cfg.maxSize, s.limiters.Keys, s.lastSeen.Keys, id, Gone(cfg, s, victim), victim);
  }

  lemma InsertBounded(cfg: R.Config, s: Shared, st: Step, stale: nat)
    requires cfg.maxSize >= 1 && Bounded(cfg, s, stale) && st.Insert? && Enabled(cfg, s, st)
    ensures Bounded(cfg, Apply(cfg, s, st), stale)
  {
    var id := s.calls[st.call].id;
    if id in s.limiters {
      assert s.lastSeen[id := st.now].Keys == s.lastSeen.Keys;
    } else {
      InsertedBounded(cfg, s, id, st.now, st.victim, FirstTaken(cfg, st.now), stale);
    }
  }

  lemma {:induction false} AlwaysBounded(cfg: R.Config, steps: seq<Step>)
    requires cfg.maxSize >= 1 && ValidRun(cfg, steps) && NonEmptyIds(steps)
    ensures Bounded(cfg, Run(cfg, steps), StaleTouches(cfg, steps))
  {
    if steps != [] {
      var s, st := Run(cfg, Init(steps)), Last(steps);
      AlwaysBounded(cfg, Init(steps));
      match st {
        case Look(_, _) =>
        case Touch(_, _) => TouchBounded(cfg, s, st, StaleTouches(cfg, Init(steps)));
        case Check(_, _) =>
        case Insert(_, _, _) => InsertBounded(cfg, s, st, StaleTouches(cfg, Init(steps)));
        case Tick(now) => TickBounded(cfg, s, now, StaleTouches(cfg, Init(steps)));
      }
    }
  }

  /** Whatever the interleaving: every entry has a recorded use, and the entries above the
      limit together with the recorded uses of missing entries number at most the stale
      touches so far. Without a stale touch the two key sets agree and the limit holds. */
  lemma InterleavedSizeBound(cfg: R.Config, steps: seq<Step>)
    requires cfg.maxSize >= 1 && ValidRun(cfg, steps) && NonEmptyIds(steps)
    ensures var s, stale := Run(cfg, steps), StaleTouches(cfg, steps);
            && s.limiters.Keys <= s.lastSeen.Keys
            && |s.limiters| - cfg.maxSize <= stale
            && (if |s.limiters| > cfg.maxSize then |s.limiters| - cfg.maxSize else 0)
               + |s.lastSeen.Keys - s.limiters.Keys| <= stale
            && (stale == 0 ==> s.limiters.Keys == s.lastSeen.Keys && |s.limiters| <= cfg.maxSize)
  {
    AlwaysBounded(cfg, steps);
    var s := Run(cfg, steps);
    KeyCount(s.limiters);
    if StaleTouches(cfg, steps) == 0 {
      assert s.lastSeen.Keys - s.limiters.Keys == {};
    }
  }

  // ---- uninterrupted calls ----

  /** Different entries have different buckets, and every bucket in use exists. */
  ghost predicate BucketsApart(s: Shared) {
    && (forall id :: id in s.limiters ==> InRange(s, s.limiters[id]))
    && (forall a, b :: a in s.limiters && b in s.limiters && a != b ==> s.limiters[a] != s.limiters[b])
    && (forall c :: c in s.calls && !s.calls[c].Miss? ==> InRange(s, s.calls[c].bucket))
  }

  lemma StepApart(cfg: R.Config, s: Shared, st: Step)
    requires BucketsApart(s) && Enabled(cfg, s, st)
    ensures BucketsApart(Apply(cfg, s, st))
  {
    if st.Insert? && s.calls[st.call].id !in s.limiters {
      InsertedApart(cfg, s, s.calls[st.call].id, st.now, st.victim, FirstTaken(cfg, st.now));
    }
  }

  lemma {:induction false} AlwaysApart(cfg: R.Config, steps: seq<Step>)
    requires ValidRun(cfg, steps)
    ensures BucketsApart(Run(cfg, steps))
  {
    if steps != [] {
      AlwaysApart(cfg, Init(steps));
      StepApart(cfg, Run(cfg, Init(steps)), Last(steps));
    }
  }

  /** The sequential limiter's view of the shared state. */
  ghost function Entries(s: Shared): R.Entries
    requires BucketsApart(s)
  {
    R.Entries(map id | id in s.limiters :: s.heap[s.limiters[id]], s.lastSeen)
  }

  /** The answer a call gets from its last step. */
  ghost function Answer(cfg: R.Config, s: Shared, st: Step): bool
    requires BucketsApart(s) && Enabled(cfg, s, st)
  {
    match st
    case Check(c, now) => Take(cfg.rate, s.heap[s.calls[c].bucket], now).1
    case Insert(c, now, _) =>
      var id := s.calls[c].id;
      Take(cfg.rate, if id in s.limiters then s.heap[s.limiters[id]] else Fresh(cfg.rate, now), now).1
    case _ => false
  }

  /** A call that finds its entry and is not interrupted does what the sequential Allow does. */
  lemma HitIsApply(cfg: R.Config, s: Shared, call: nat, id: string, now: int, victim: string)
    requires BucketsApart(s) && call !in s.calls && id in s.limiters
    ensures var s1 := Apply(cfg, s, Look(call, id));
            && Enabled(cfg, s1, Touch(call, now))
            && var s2 := Apply(cfg, s1, Touch(call, now));
            && Enabled(cfg, s2, Check(call, now))
            && var s3 := Apply(cfg, s2, Check(call, now));
            && BucketsApart(s2) && BucketsApart(s3) && s3.calls == s.calls
            && Answer(cfg, s2, Check(call, now)) == R.Answer(cfg, Entries(s), R.Request(id, now, victim))
            && Entries(s3) == R.Apply(cfg, Entries(s), R.Request(id, now, victim))
  {
    var s1 := Apply(cfg, s, Look(call, id));
    var s2 := Apply(cfg, s1, Touch(call, now));
    var s3 := Apply(cfg, s2, Check(call, now));
    assert s3.calls == s.calls;
    var expected := R.Apply(cfg, Entries(s), R.Request(id, now, victim));
    assert Entries(s3).limiters == expected.limiters;
  }

  lemma InsertedApart(cfg: R.Config, s: Shared, id: string, now: int, victim: string, bucket: Bucket)
    requires BucketsApart(s) && id !in s.limiters
    ensures BucketsApart(Inserted(cfg, s, id, now, victim, bucket))
  {
  }

  lemma PutIsUpdate(cfg: R.Config, entries: R.Entries, e: R.Event, bucket: Bucket, gone: set<string>)
    requires e.Request? && e.id !in entries.limiters
    requires gone == if |entries.limiters| >= cfg.maxSize && e.victim != "" then {e.victim} else {}
    ensures R.Put(cfg, entries, e, bucket).limiters == (entries.limiters - gone)[e.id := bucket]
    ensures R.Put(cfg, entries, e, bucket).lastSeen == (entries.lastSeen - gone)[e.id := e.now]
  {
  }

  lemma InsertedLimiters(s: Shared, s': Shared, id: string, bucket: Bucket, gone: set<string>)
    requires BucketsApart(s) && BucketsApart(s') && id !in s.limiters
    requires s'.limiters == (s.limiters - gone)[id := |s.heap|] && s'.heap == s.heap + [bucket]
    ensures Entries(s').limiters == (Entries(s).limiters - gone)[id := bucket]
  {
  }

  lemma InsertedEntries(cfg: R.Config, s: Shared, id: string, now: int, victim: string, bucket: Bucket)
    requires BucketsApart(s) && id !in s.limiters && BucketsApart(Inserted(cfg, s, id, now, victim, bucket))
    ensures Entries(Inserted(cfg, s, id, now, victim, bucket))
         == R.Put(cfg, Entries(s), R.Request(id, now, victim), bucket)
  {
    EntryCount(s);
    var gone := Gone(cfg, s, victim);
    PutIsUpdate(cfg, Entries(s), R.Request(id, now, victim), bucket, gone);
    InsertedLimiters(s, Inserted(cfg, s, id, now, victim, bucket), id, bucket, gone);
  }

  lemma EntryCount(s: Shared)
    requires BucketsApart(s)
    ensures Entries(s).limiters.Keys == s.limiters.Keys && |Entries(s).limiters| == |s.limiters|
  {
    var m := Entries(s).limiters;
    assert m.Keys == s.limiters.Keys;
    assert |m| == |m.Keys|;
    KeyCount(s.limiters);
  }

  /** So does one that does not find it. */
  lemma MissIsApply(cfg: R.Config, s: Shared, call: nat, id: string, now: int, victim: string)
    requires BucketsApart(s) && call !in s.calls && id !in s.limiters
    requires R.Legal(cfg, Entries(s), R.Request(id, now, victim))
    ensures var s1 := Apply(cfg, s, Look(call, id));
            && Enabled(cfg, s1, Insert(call, now, victim))
            && var s2 := Apply(cfg, s1, Insert(call, now, victim));
            && BucketsApart(s1) && BucketsApart(s2) && s2.calls == s.calls
            && Answer(cfg, s1, Insert(call, now, victim)) == R.Answer(cfg, Entries(s), R.Request(id, now, victim))
            && Entries(s2) == R.Apply(cfg, Entries(s), R.Request(id, now, victim))
  {
    EntryCount(s);
    LookedInserted(cfg, s, call, id, now, victim);
    var bucket := FirstTaken(cfg, now);
    InsertedApart(cfg, s, id, now, victim, bucket);
    InsertedEntries(cfg, s, id, now, victim, bucket);
  }

  lemma LookedInserted(cfg: R.Config, s: Shared, call: nat, id: string, now: int, victim: string)
    requires call !in s.calls && id !in s.limiters
    requires |s.limiters| >= cfg.maxSize ==> R.ScanPicks(s.lastSeen, victim)
    ensures var s1 := Apply(cfg, s, Look(call, id));
            && Enabled(cfg, s1, Insert(call, now, victim))
            && Apply(cfg, s1, Insert(call, now, victim)) == Inserted(cfg, s, id, now, victim, FirstTaken(cfg, now))
  {
    assert Without(s.calls[call := Miss(id)], call) == s.calls;
  }

  /** A cleanup tick is the sequential one at any point. */
  lemma TickIsApply(cfg: R.Config, s: Shared, now: int)
    requires BucketsApart(s)
    ensures BucketsApart(Apply(cfg, s, Tick(now)))
    ensures Entries(Apply(cfg, s, Tick(now))) == R.Apply(cfg, Entries(s), R.Tick(now))
  {
    var expected := R.Apply(cfg, Entries(s), R.Tick(now));
    assert Entries(Apply(cfg, s, Tick(now))).limiters == expected.limiters;
  }
}
