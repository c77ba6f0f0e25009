/** Which entries the limiter keeps. Seen from the history of requests it is an LRU
    cache, and its size stays within the bound, except for the identifier "". */
module Recency {
  import opened Common
  import opened RateLimiter

  // ---- most recently used identifiers of a history ----

  /** Position of the last use of `x`, -1 if it was never used. */
  function LastUse(h: seq<string>, x: string): (i: int)
    ensures -1 <= i < |h|
    ensures i >= 0 ==> h[i] == x
    ensures i >= 0 <==> x in h
  {
    if h == [] then -1
    else if Last(h) == x then |h| - 1
    else LastUse(Init(h), x)
  }

  /** Identifiers used more recently than `x`. */
  function Newer(h: seq<string>, x: string): set<string> {
    set y | y in h && LastUse(h, y) > LastUse(h, x)
  }

  predicate Kept(h: seq<string>, n: nat, x: string) {
    x in h && |Newer(h, x)| < n
  }

  /** The `n` most recently used identifiers: those with fewer than `n` newer ones. */
  function MostRecent(h: seq<string>, n: nat): set<string> {
    set x | x in h && Kept(h, n, x)
  }

  function Distinct(h: seq<string>): set<string> {
    set x | x in h
  }

  /** There are `n` most recently used identifiers, or fewer if that is all of them. */
  ghost predicate Enough(h: seq<string>, n: nat) {
    MostRecent(h, n) == Distinct(h) || |MostRecent(h, n)| == n
  }

  lemma NewerHasFewerNewer(h: seq<string>, a: string, b: string)
    requires a in h && LastUse(h, a) > LastUse(h, b)
    ensures |Newer(h, a)| < |Newer(h, b)|
  {
    assert a in Newer(h, b) && a !in Newer(h, a);
    SubsetSmaller(Newer(h, a), Newer(h, b));
  }

  /** After a use of `x` it has no newer identifier, and it is newer than every other one. */
  lemma NewerAfterUse(h: seq<string>, x: string, y: string)
    ensures Newer(h + [x], x) == {}
    ensures y != x ==> Newer(h + [x], y) == Newer(h, y) + {x}
  {
    var h' := h + [x];
    assert forall z :: z != x ==> LastUse(h', z) == LastUse(h, z) by {
      assert Init(h') == h;
    }
    assert LastUse(h', x) == |h|;
  }

  lemma RankAfterUse(h: seq<string>, x: string, y: string)
    requires y != x
    ensures |Newer(h + [x], y)| == if x in Newer(h, y) then |Newer(h, y)| else |Newer(h, y)| + 1
  {
    NewerAfterUse(h, x, y);
    if x in Newer(h, y) {
      assert Newer(h, y) + {x} == Newer(h, y);
    }
  }

  /** Using an identifier that is kept changes nothing about what is kept. */
  lemma UseKept(h: seq<string>, n: nat, x: string)
    requires x in MostRecent(h, n)
    ensures MostRecent(h + [x], n) == MostRecent(h, n)
  {
    forall y
      ensures y in MostRecent(h + [x], n) <==> y in MostRecent(h, n)
    {
      NewerAfterUse(h, x, y);
      if y != x && y in h {
        RankAfterUse(h, x, y);
        if x !in Newer(h, y) {
          SameUseSameId(h, x, y);
          NewerHasFewerNewer(h, y, x);
        }
      }
    }
  }

  lemma SameUseSameId(h: seq<string>, x: string, y: string)
    requires x in h && y in h && x != y
    ensures LastUse(h, x) != LastUse(h, y)
  {
  }

  /** With room left everything used is kept, the new identifier too. */
  lemma UseWithRoom(h: seq<string>, n: nat, x: string)
    requires x !in h && |Distinct(h)| < n
    ensures MostRecent(h + [x], n) == Distinct(h) + {x} == Distinct(h + [x])
  {
    forall y | y in h + [x]
      ensures |Newer(h + [x], y)| < n
    {
      NewerAfterUse(h, x, y);
      if y != x {
        assert Newer(h, y) <= Distinct(h) - {y};
        SubsetSmaller(Newer(h, y), Distinct(h) - {y});
        RankAfterUse(h, x, y);
      }
    }
  }

  /** There is no room for `x`, and `victim` is the one kept that was used longest ago. */
  ghost predicate Replaces(h: seq<string>, n: nat, x: string, victim: string) {
    && x !in MostRecent(h, n) && |MostRecent(h, n)| == n && victim in MostRecent(h, n)
    && forall k :: k in MostRecent(h, n) ==> LastUse(h, victim) <= LastUse(h, k)
  }

  /** Without room the new identifier replaces the one kept that was used longest ago. */
  lemma UseEvicts(h: seq<string>, n: nat, x: string, victim: string)
    requires Replaces(h, n, x, victim)
    ensures MostRecent(h + [x], n) == MostRecent(h, n) - {victim} + {x}
  {
    var after, expected := MostRecent(h + [x], n), MostRecent(h, n) - {victim} + {x};
    forall y | y in after
      ensures y in expected
    {
      EvictsAt(h, n, x, victim, y);
    }
    forall y | y in expected
      ensures y in after
    {
      EvictsAt(h, n, x, victim, y);
    }
    assert after <= expected <= after;
  }

  lemma EvictsAt(h: seq<string>, n: nat, x: string, victim: string, y: string)
    requires Replaces(h, n, x, victim)
    ensures Kept(h + [x], n, y) <==> (Kept(h, n, y) && y != victim) || y == x
  {
    NewerAfterUse(h, x, y);
    if y != x && y in h {
      RankAfterUse(h, x, y);
      if y in MostRecent(h, n) {
        RankWhenEvicting(h, n, x, victim, y);
      }
    }
  }

  /** Among the identifiers kept, only the victim has n - 1 newer ones, and an identifier
      not kept is newer than none of them. */
  lemma RankWhenEvicting(h: seq<string>, n: nat, x: string, victim: string, y: string)
    requires Replaces(h, n, x, victim)
    requires y in MostRecent(h, n)
    ensures x !in Newer(h, y)
    ensures if y == victim then |Newer(h, y)| == n - 1 else |Newer(h, y)| < n - 1
  {
    if x in Newer(h, y) {
      NewerHasFewerNewer(h, x, y);
    }
    VictimRank(h, n, victim);
    if y != victim {
      SameUseSameId(h, y, victim);
      NewerHasFewerNewer(h, y, victim);
    }
  }

  lemma VictimRank(h: seq<string>, n: nat, victim: string)
    requires |MostRecent(h, n)| == n && victim in MostRecent(h, n)
    requires forall k :: k in MostRecent(h, n) ==> LastUse(h, victim) <= LastUse(h, k)
    ensures |Newer(h, victim)| == n - 1
  {
    var others := MostRecent(h, n) - {victim};
    forall k | k in others
      ensures k in Newer(h, victim)
    {
      SameUseSameId(h, k, victim);
    }
    SubsetSmaller(others, Newer(h, victim));
  }

  lemma SizeOfMostRecent(h: seq<string>, n: nat)
    requires Enough(h, n)
    ensures |MostRecent(h, n)| <= n
  {
    if |MostRecent(h, n)| > n {
      var oldest := OldestOf(h, MostRecent(h, n));
      var others := MostRecent(h, n) - {oldest};
      forall k | k in others
        ensures k in Newer(h, oldest)
      {
        SameUseSameId(h, k, oldest);
      }
      SubsetSmaller(others, Newer(h, oldest));
    }
  }

  lemma {:induction false} OldestOf(h: seq<string>, ids: set<string>) returns (oldest: string)
    requires ids != {} && ids <= Distinct(h)
    ensures oldest in ids && forall k :: k in ids ==> LastUse(h, oldest) <= LastUse(h, k)
  {
    oldest :| oldest in ids;
    var rest := ids - {oldest};
    if rest != {} {
      var o := OldestOf(h, rest);
      if LastUse(h, o) < LastUse(h, oldest) {
        oldest := o;
      }
    }
  }

  // ---- the limiter is such a cache ----

  ghost predicate OnlyRequests(evs: seq<Event>) {
    forall k :: 0 <= k < |evs| ==> evs[k].Request? && evs[k].id != ""
  }

  ghost predicate StrictClock(evs: seq<Event>) {
    forall i, j :: 0 <= i < j < |evs| ==> evs[i].now < evs[j].now
  }

  function Ids(evs: seq<Event>): seq<string>
    requires OnlyRequests(evs)
  {
    seq(|evs|, k requires 0 <= k < |evs| => evs[k].id)
  }

  /** The entries are the `n` most recently used identifiers, all of them if there are
      fewer, and each has its last use on record. */
  ghost predicate IsCache(s: Entries, evs: seq<Event>, n: nat)
    requires OnlyRequests(evs)
  {
    var h := Ids(evs);
    && s.limiters.Keys == s.lastSeen.Keys == MostRecent(h, n)
    && Enough(h, n)
    && forall id :: id in s.lastSeen ==> s.lastSeen[id] == evs[LastUse(h, id)].now
  }

  lemma LastSeenKept(s: Entries, evs: seq<Event>, n: nat, x: string, id: string)
    requires evs != [] && OnlyRequests(evs) && IsCache(s, Init(evs), n) && x == Last(evs).id
    ensures Ids(evs) == Ids(Init(evs)) + [x]
    ensures id in s.lastSeen && id != x ==> s.lastSeen[id] == evs[LastUse(Ids(evs), id)].now
    ensures evs[LastUse(Ids(evs), x)].now == Last(evs).now
  {
    assert Ids(evs) == Ids(Init(evs)) + [x];
    assert Init(Ids(evs)) == Ids(Init(evs));
  }

  lemma RequestKeys(cfg: Config, s: Entries, e: Event)
    requires e.Request? && s.limiters.Keys == s.lastSeen.Keys
    ensures var s' := Apply(cfg, s, e);
            && s'.limiters.Keys == s'.lastSeen.Keys
            && s'.lastSeen.Keys == (if Evicts(cfg, s, e) && e.victim != "" then s.lastSeen.Keys - {e.victim}
                                    else s.lastSeen.Keys) + {e.id}
            && s'.lastSeen[e.id] == e.now
            && forall id :: id in s'.lastSeen && id != e.id ==> id in s.lastSeen && s'.lastSeen[id] == s.lastSeen[id]
  {
  }

  lemma KeptAfterHit(cfg: Config, s: Entries, e: Event, h: seq<string>)
    requires e.Request? && s.limiters.Keys == s.lastSeen.Keys == MostRecent(h, cfg.maxSize) && Enough(h, cfg.maxSize)
    requires e.id in s.limiters
    ensures Apply(cfg, s, e).lastSeen.Keys == MostRecent(h + [e.id], cfg.maxSize) && Enough(h + [e.id], cfg.maxSize)
  {
    RequestKeys(cfg, s, e);
    UseKept(h, cfg.maxSize, e.id);
    assert s.lastSeen.Keys + {e.id} == s.lastSeen.Keys;
    assert Distinct(h + [e.id]) == Distinct(h);
  }

  lemma KeptAfterMiss(cfg: Config, s: Entries, e: Event, h: seq<string>)
    requires e.Request? && s.limiters.Keys == s.lastSeen.Keys == MostRecent(h, cfg.maxSize) && Enough(h, cfg.maxSize)
    requires e.id !in s.limiters && |s.limiters| < cfg.maxSize
    ensures Apply(cfg, s, e).lastSeen.Keys == MostRecent(h + [e.id], cfg.maxSize) && Enough(h + [e.id], cfg.maxSize)
  {
    RequestKeys(cfg, s, e);
    KeyCount(s.limiters);
    assert e.id in Distinct(h) <==> e.id in h;
    UseWithRoom(h, cfg.maxSize, e.id);
  }

  lemma KeptAfterEviction(cfg: Config, s: Entries, e: Event, h: seq<string>)
    requires e.Request? && s.limiters.Keys == s.lastSeen.Keys == MostRecent(h, cfg.maxSize)
    requires |s.limiters| == cfg.maxSize && e.id !in s.limiters
    requires e.victim != "" && e.victim in s.lastSeen
    requires forall k :: k in MostRecent(h, cfg.maxSize) ==> LastUse(h, e.victim) <= LastUse(h, k)
    ensures Apply(cfg, s, e).lastSeen.Keys == MostRecent(h + [e.id], cfg.maxSize) && Enough(h + [e.id], cfg.maxSize)
  {
    RequestKeys(cfg, s, e);
    KeyCount(s.limiters);
    UseEvicts(h, cfg.maxSize, e.id, e.victim);
    assert |s.lastSeen.Keys - {e.victim}| == cfg.maxSize - 1;
  }

  lemma KeysAfterRequest(cfg: Config, s: Entries, evs: seq<Event>)
    requires evs != [] && OnlyRequests(evs) && StrictClock(evs) && cfg.maxSize >= 1
    requires IsCache(s, Init(evs), cfg.maxSize) && Legal(cfg, s, Last(evs))
    ensures var h := Ids(Init(evs)) + [Last(evs).id];
            Apply(cfg, s, Last(evs)).lastSeen.Keys == MostRecent(h, cfg.maxSize) && Enough(h, cfg.maxSize)
  {
    var e, h := Last(evs), Ids(Init(evs));
    if e.id in s.limiters {
      KeptAfterHit(cfg, s, e, h);
    } else if |s.limiters| < cfg.maxSize {
      KeptAfterMiss(cfg, s, e, h);
    } else {
      KeyCount(s.limiters);
      SizeOfMostRecent(h, cfg.maxSize);
      OldestIsVictim(cfg, s, evs);
      KeptAfterEviction(cfg, s, e, h);
    }
  }

  lemma OldestIsVictim(cfg: Config, s: Entries, evs: seq<Event>)
    requires evs != [] && OnlyRequests(evs) && StrictClock(evs) && cfg.maxSize >= 1
    requires IsCache(s, Init(evs), cfg.maxSize) && Legal(cfg, s, Last(evs)) && Evicts(cfg, s, Last(evs))
    ensures var h, victim := Ids(Init(evs)), Last(evs).victim;
            && victim != "" && victim in MostRecent(h, cfg.maxSize)
            && forall k :: k in MostRecent(h, cfg.maxSize) ==> LastUse(h, victim) <= LastUse(h, k)
  {
    var h, victim := Ids(Init(evs)), Last(evs).victim;
    assert |s.limiters| == |s.limiters.Keys|;
    assert s.lastSeen != map[];
    assert victim in s.lastSeen && victim in h;
    forall k | k in MostRecent(h, cfg.maxSize)
      ensures LastUse(h, victim) <= LastUse(h, k)
    {
      assert k in s.lastSeen;
      assert Init(evs)[LastUse(h, victim)].now <= Init(evs)[LastUse(h, k)].now;
    }
  }

  /** For non-empty identifiers, a strictly increasing clock and no cleanup, after every
      sequential run the entries are exactly the `maxSize` most recently used identifiers
      of the request history, or all of them if fewer. */
  lemma {:induction false} LruAgreement(cfg: Config, evs: seq<Event>)
    requires cfg.maxSize >= 1 && LegalRun(cfg, evs) && OnlyRequests(evs) && StrictClock(evs)
    ensures IsCache(Run(cfg, evs), evs, cfg.maxSize)
  {
    if evs == [] {
      assert MostRecent(Ids(evs), cfg.maxSize) == {} == Distinct(Ids(evs));
    } else {
      LruAgreement(cfg, Init(evs));
      CacheStep(cfg, Run(cfg, Init(evs)), evs);
    }
  }

  lemma CacheStep(cfg: Config, s: Entries, evs: seq<Event>)
    requires evs != [] && OnlyRequests(evs) && StrictClock(evs) && cfg.maxSize >= 1
    requires IsCache(s, Init(evs), cfg.maxSize) && Legal(cfg, s, Last(evs))
    ensures IsCache(Apply(cfg, s, Last(evs)), evs, cfg.maxSize)
  {
    var e := Last(evs);
    var s' := Apply(cfg, s, e);
    KeysAfterRequest(cfg, s, evs);
    RequestKeys(cfg, s, e);
    LastSeenKept(s, evs, cfg.maxSize, e.id, e.id);
    forall id | id in s'.lastSeen
      ensures s'.lastSeen[id] == evs[LastUse(Ids(evs), id)].now
    {
      LastSeenKept(s, evs, cfg.maxSize, e.id, id);
    }
  }

  // ---- the size bound, and the identifier that breaks it ----

  ghost predicate IdsFrom(evs: seq<Event>, ids: set<string>) {
    forall k :: 0 <= k < |evs| && evs[k].Request? ==> evs[k].id in ids
  }

  /** Every sequential run with these identifiers keeps the number of entries within bound. */
  ghost predicate SizeBounded(cfg: Config, ids: set<string>) {
    forall evs :: ValidRun(cfg, evs) && IdsFrom(evs, ids) ==> |Run(cfg, evs).limiters| <= cfg.maxSize
  }

  lemma TickKeys(cfg: Config, s: Entries, now: int)
    ensures Apply(cfg, s, Tick(now)).limiters.Keys <= s.limiters.Keys
  {
  }

  lemma {:induction false} KeysWithin(cfg: Config, evs: seq<Event>, ids: set<string>)
    requires ValidRun(cfg, evs) && IdsFrom(evs, ids)
    ensures Run(cfg, evs).limiters.Keys <= ids
  {
    if evs != [] {
      PrefixValid(cfg, evs);
      KeysWithin(cfg, Init(evs), ids);
      MapsAgree(cfg, Init(evs));
      if Last(evs).Request? {
        RequestKeys(cfg, Run(cfg, Init(evs)), Last(evs));
      } else {
        TickKeys(cfg, Run(cfg, Init(evs)), Last(evs).now);
      }
    }
  }

  lemma StepWithinBound(cfg: Config, s: Entries, e: Event)
    requires cfg.maxSize >= 1 && |s.limiters| <= cfg.maxSize && Legal(cfg, s, e)
    requires s.limiters.Keys == s.lastSeen.Keys && "" !in s.limiters
    ensures |Apply(cfg, s, e).limiters| <= cfg.maxSize
  {
    var s' := Apply(cfg, s, e);
    KeyCount(s.limiters);
    KeyCount(s'.limiters);
    if e.Tick? {
      TickKeys(cfg, s, e.now);
      SubsetSmaller(s'.limiters.Keys, s.limiters.Keys);
    } else {
      RequestKeys(cfg, s, e);
      if Evicts(cfg, s, e) {
        assert s.lastSeen.Keys != {};
        assert e.victim in s.lastSeen.Keys;
      } else if e.id in s.limiters {
        assert s.lastSeen.Keys + {e.id} == s.lastSeen.Keys;
      }
    }
  }

  lemma {:induction false} NonEmptyIdsBounded(cfg: Config, evs: seq<Event>, ids: set<string>)
    requires cfg.maxSize >= 1 && "" !in ids && ValidRun(cfg, evs) && IdsFrom(evs, ids)
    ensures |Run(cfg, evs).limiters| <= cfg.maxSize
  {
    if evs != [] {
      PrefixValid(cfg, evs);
      NonEmptyIdsBounded(cfg, Init(evs), ids);
      KeysWithin(cfg, Init(evs), ids);
      MapsAgree(cfg, Init(evs));
      StepWithinBound(cfg, Run(cfg, Init(evs)), Last(evs));
    }
  }

  /** `evs` makes one request per time unit, the first of them for "". */
  ghost predicate FillRun(cfg: Config, evs: seq<Event>, others: set<string>) {
    LegalRun(cfg, evs) && evs != [] && StrictClock(evs) && Last(evs).now == |others| && IdsFrom(evs, others + {""})
  }

  /** The limiter holds "", which is its oldest entry, and `others`. */
  ghost predicate Filled(s: Entries, others: set<string>) {
    && s.limiters.Keys == s.lastSeen.Keys == others + {""}
    && s.lastSeen[""] == 0 && forall id :: id in s.lastSeen ==> s.lastSeen[id] >= 0
  }

  /** `evs` fills the limiter with "" and then with `others`, one per time unit. */
  ghost predicate Fills(cfg: Config, evs: seq<Event>, others: set<string>) {
    FillRun(cfg, evs, others) && Filled(Run(cfg, evs), others)
  }

  lemma FillStart(cfg: Config)
    requires cfg.maxSize >= 1
    ensures Fills(cfg, [Request("", 0, "")], {})
  {
    var evs := [Request("", 0, "")];
    assert Init(evs) == [];
    RequestKeys(cfg, EMPTY, evs[0]);
  }

  lemma FilledStep(cfg: Config, s: Entries, others: set<string>, x: string)
    requires x != "" && x in others && Filled(s, others - {x})
    ensures Filled(Apply(cfg, s, Request(x, |others|, "")), others) && ScanPicks(s.lastSeen, "")
  {
    RequestKeys(cfg, s, Request(x, |others|, ""));
    assert others - {x} + {""} + {x} == others + {""};
  }

  lemma FillRunStep(cfg: Config, evs: seq<Event>, others: set<string>, x: string)
    requires x in others && FillRun(cfg, evs, others - {x}) && ScanPicks(Run(cfg, evs).lastSeen, "")
    ensures FillRun(cfg, evs + [Request(x, |others|, "")], others)
    ensures Run(cfg, evs + [Request(x, |others|, "")]) == Apply(cfg, Run(cfg, evs), Request(x, |others|, ""))
  {
    var longer := evs + [Request(x, |others|, "")];
    assert Init(longer) == evs;
    assert |others - {x}| == |others| - 1;
  }

  /** Once "" is the oldest entry nothing can be evicted, and the limiter grows. */
  lemma FillStep(cfg: Config, evs: seq<Event>, others: set<string>, x: string)
    requires x != "" && x in others && Fills(cfg, evs, others - {x})
    ensures Fills(cfg, evs + [Request(x, |others|, "")], others)
  {
    FilledStep(cfg, Run(cfg, evs), others, x);
    FillRunStep(cfg, evs, others, x);
  }

  lemma {:induction false} FillWithEmptyId(cfg: Config, others: set<string>) returns (evs: seq<Event>)
    requires cfg.maxSize >= 1 && "" !in others
    ensures Fills(cfg, evs, others)
    decreases |others|
  {
    if others == {} {
      FillStart(cfg);
      evs := [Request("", 0, "")];
    } else {
      var x :| x in others;
      evs := FillWithEmptyId(cfg, others - {x});
      FillStep(cfg, evs, others, x);
      evs := evs + [Request(x, |others|, "")];
    }
  }

  lemma OversizedRun(cfg: Config, ids: set<string>)
    requires |ids| > cfg.maxSize && ("" in ids || cfg.maxSize == 0)
    ensures !SizeBounded(cfg, ids)
  {
    if cfg.maxSize == 0 {
      var id :| id in ids;
      var evs := [Request(id, 0, "")];
      assert Init(evs) == [];
      RequestKeys(cfg, EMPTY, evs[0]);
      KeyCount(Run(cfg, evs).limiters);
      assert ValidRun(cfg, evs) && IdsFrom(evs, ids);
    } else {
      var evs := FillWithEmptyId(cfg, ids - {""});
      assert ids - {""} + {""} == ids;
      KeyCount(Run(cfg, evs).limiters);
      assert ValidRun(cfg, evs) && IdsFrom(evs, ids);
    }
  }

  /** The bound on the number of entries holds on every sequential run over a set of
      identifiers exactly when they all fit anyway, or the empty string is not among them
      (and there is room for at least one entry). */
  lemma SizeBoundIff(cfg: Config, ids: set<string>)
    ensures SizeBounded(cfg, ids) <==> |ids| <= cfg.maxSize || ("" !in ids && cfg.maxSize >= 1)
  {
    if |ids| > cfg.maxSize && ("" in ids || cfg.maxSize == 0) {
      OversizedRun(cfg, ids);
    } else {
      forall evs | ValidRun(cfg, evs) && IdsFrom(evs, ids)
        ensures |Run(cfg, evs).limiters| <= cfg.maxSize
      {
        if "" !in ids && cfg.maxSize >= 1 {
          NonEmptyIdsBounded(cfg, evs, ids);
        } else {
          KeysWithin(cfg, evs, ids);
          KeyCount(Run(cfg, evs).limiters);
          SubsetSmaller(Run(cfg, evs).limiters.Keys, ids);
        }
      }
    }
  }
}
