/** The keyed rate limiter: a bounded map of token buckets with eviction of the
    oldest entry and removal of idle ones. `Apply` is what one sequential call of
    Allow, or one tick of the cleanup loop, does to the two maps; the class below
    it changes the maps in place and is proved to do exactly that. */
module RateLimiter {
  import opened Common
  import opened TokenBucket

  /** Settings fixed when the limiter is built. */
  datatype Config = Config(rate: Rate, ttl: int, maxSize: nat)

  /** The two maps of the limiter. */
  datatype Entries = Entries(limiters: map<string, Bucket>, lastSeen: map<string, int>)

  /** A call of Allow, or one tick of the cleanup loop. `victim` is the entry the
      scan of evictOldest picks when it runs; map order decides between ties. */
  datatype Event =
    | Request(id: string, now: int, victim: string)
    | Tick(now: int)

  const EMPTY := Entries(map[], map[])

  ghost predicate IsOldest(lastSeen: map<string, int>, id: string) {
    id in lastSeen && forall k :: k in lastSeen ==> lastSeen[id] <= lastSeen[k]
  }

  /** What the scan of evictOldest can return: an oldest entry, or "" when there is none. */
  ghost predicate ScanPicks(lastSeen: map<string, int>, id: string) {
    if lastSeen == map[] then id == "" else IsOldest(lastSeen, id)
  }

  predicate Evicts(cfg: Config, s: Entries, e: Event) {
    e.Request? && e.id !in s.limiters && |s.limiters| >= cfg.maxSize
  }

  /** evictOldest never removes the key "". */
  function Evict(s: Entries, victim: string): Entries {
    if victim != "" then
      Entries(map id | id in s.limiters && id != victim :: s.limiters[id],
              map id | id in s.lastSeen && id != victim :: s.lastSeen[id])
    else s
  }

  /** The bucket a request of `id` is checked against, before the check. */
  function BucketFor(cfg: Config, s: Entries, id: string, now: int): Bucket {
    if id in s.limiters then s.limiters[id] else Fresh(cfg.rate, now)
  }

  predicate Idle(cfg: Config, s: Entries, id: string, now: int) {
    id in s.lastSeen && now - s.lastSeen[id] > cfg.ttl
  }

  /** A request leaves `bucket` under its identifier, after making room if it is new. */
  function Put(cfg: Config, s: Entries, e: Event, bucket: Bucket): Entries
    requires e.Request?
  {
    var room := if Evicts(cfg, s, e) then Evict(s, e.victim) else s;
    Entries(room.limiters[e.id := bucket], room.lastSeen[e.id := e.now])
  }

  function Apply(cfg: Config, s: Entries, e: Event): Entries {
    match e
    case Request(id, now, _) => Put(cfg, s, e, Take(cfg.rate, BucketFor(cfg, s, id, now), now).0)
    case Tick(now) =>
      Entries(map id | id in s.limiters && !Idle(cfg, s, id, now) :: s.limiters[id],
              map id | id in s.lastSeen && !Idle(cfg, s, id, now) :: s.lastSeen[id])
  }

  /** The answer Allow gives; a tick answers nothing. */
  function Answer(cfg: Config, s: Entries, e: Event): bool {
    e.Request? && Take(cfg.rate, BucketFor(cfg, s, e.id, e.now), e.now).1
  }

  ghost predicate Legal(cfg: Config, s: Entries, e: Event) {
    Evicts(cfg, s, e) ==> ScanPicks(s.lastSeen, e.victim)
  }

  // ---- sequential runs ----

  function Run(cfg: Config, evs: seq<Event>): Entries {
    if evs == [] then EMPTY else Apply(cfg, Run(cfg, Init(evs)), Last(evs))
  }

  /** No event is older than an earlier one. */
  ghost predicate Monotone(evs: seq<Event>) {
    forall i, j :: 0 <= i < j < |evs| ==> evs[i].now <= evs[j].now
  }

  /** A sequential run: calls and ticks one after the other under a clock that never
      goes back, each eviction removing an oldest entry. */
  ghost predicate ValidRun(cfg: Config, evs: seq<Event>) {
    Monotone(evs) && LegalRun(cfg, evs)
  }

  ghost predicate LegalRun(cfg: Config, evs: seq<Event>) {
    evs != [] ==> LegalRun(cfg, Init(evs)) && Legal(cfg, Run(cfg, Init(evs)), Last(evs))
  }

  function LastAnswer(cfg: Config, evs: seq<Event>): bool
    requires evs != []
  {
    Answer(cfg, Run(cfg, Init(evs)), Last(evs))
  }

  /** `now` is not before the last event. */
  predicate NotBefore(evs: seq<Event>, now: int) {
    evs != [] ==> Last(evs).now <= now
  }

  lemma PrefixValid(cfg: Config, evs: seq<Event>)
    requires ValidRun(cfg, evs) && evs != []
    ensures ValidRun(cfg, Init(evs)) && NotBefore(Init(evs), Last(evs).now)
  {
  }

  lemma {:induction false} AnyPrefixValid(cfg: Config, evs: seq<Event>, n: nat)
    requires ValidRun(cfg, evs) && n <= |evs|
    ensures ValidRun(cfg, evs[..n])
    decreases |evs|
  {
    if n == |evs| {
      assert evs[..n] == evs;
    } else {
      AnyPrefixValid(cfg, Init(evs), n);
      assert Init(evs)[..n] == evs[..n];
    }
  }

  /** In sequential runs the two maps have the same keys, and the time recorded for
      an entry is the time its bucket was last read. */
  lemma {:induction false} MapsAgree(cfg: Config, evs: seq<Event>)
    requires ValidRun(cfg, evs)
    ensures var s := Run(cfg, evs);
            && s.limiters.Keys == s.lastSeen.Keys
            && (forall id :: id in s.limiters ==> s.limiters[id].last == s.lastSeen[id])
            && (forall id :: id in s.limiters ==> s.limiters[id].credit <= cfg.rate.Cap())
            && (forall id :: id in s.limiters ==> evs != [] && s.lastSeen[id] <= Last(evs).now)
  {
    if evs != [] {
      PrefixValid(cfg, evs);
      MapsAgree(cfg, Init(evs));
    }
  }

  // ---- the limiter updated in place ----

  class Limiter {
    const cfg: Config
    var limiters: map<string, Bucket>
    var lastSeen: map<string, int>

    constructor (cfg: Config)
      ensures this.cfg == cfg && State() == EMPTY
    {
      this.cfg := cfg;
      limiters := map[];
      lastSeen := map[];
    }

    ghost function State(): Entries
      reads this
    {
      Entries(limiters, lastSeen)
    }

    /** Scans the map in any order for the oldest entry and deletes it unless it is "". */
    method EvictOldest() returns (oldestID: string)
      modifies this
      ensures ScanPicks(old(lastSeen), oldestID)
      ensures State() == Evict(old(State()), oldestID)
    {
      oldestID := "";
      var oldestTime := 0;
      var first := true;
      var unseen := lastSeen.Keys;
      while unseen != {}
        invariant unseen <= lastSeen.Keys
        invariant first ==> unseen == lastSeen.Keys && oldestID == ""
        invariant !first ==> oldestID in lastSeen && oldestTime == lastSeen[oldestID]
        invariant !first ==> forall k :: k in lastSeen && k !in unseen ==> oldestTime <= lastSeen[k]
        decreases unseen
      {
        var id :| id in unseen;
        if first || lastSeen[id] < oldestTime {
          oldestID := id;
          oldestTime := lastSeen[id];
          first := false;
        }
        unseen := unseen - {id};
      }
      if oldestID != "" {
        limiters := limiters - {oldestID};
        lastSeen := lastSeen - {oldestID};
      }
    }

    /** One uninterrupted call of Allow: fast path if the entry exists, else the slow path. */
    method Allow(identifier: string, now: int) returns (allowed: bool, victim: string)
      modifies this
      ensures Legal(cfg, old(State()), Request(identifier, now, victim))
      ensures State() == Apply(cfg, old(State()), Request(identifier, now, victim))
      ensures allowed == Answer(cfg, old(State()), Request(identifier, now, victim))
    {
      victim := "";
      if identifier in limiters {
        lastSeen := lastSeen[identifier := now];
        allowed := TakeFrom(identifier, now);
        return;
      }
      if |limiters| >= cfg.maxSize {
        victim := EvictOldest();
      }
      ghost var room := State();
      limiters := limiters[identifier := Fresh(cfg.rate, now)];
      lastSeen := lastSeen[identifier := now];
      allowed := TakeFrom(identifier, now);
      Overwrites(room.limiters, identifier, Fresh(cfg.rate, now), limiters[identifier]);
    }

    /** The bucket of an entry takes one token if it has one. */
    method TakeFrom(identifier: string, now: int) returns (allowed: bool)
      requires identifier in limiters
      modifies this`limiters
      ensures limiters == old(limiters)[identifier := Take(cfg.rate, old(limiters)[identifier], now).0]
      ensures allowed == Take(cfg.rate, old(limiters)[identifier], now).1
    {
      var (after, ok) := Take(cfg.rate, limiters[identifier], now);
      limiters := limiters[identifier := after];
      allowed := ok;
    }

    /** One tick of the cleanup loop: collect the idle identifiers, then delete them. */
    method Cleanup(now: int)
      modifies this
      ensures State() == Apply(cfg, old(State()), Tick(now))
    {
      var toDelete: set<string> := {};
      var unseen := lastSeen.Keys;
      while unseen != {}
        invariant unseen <= lastSeen.Keys
        invariant forall id :: id in toDelete <==> id !in unseen && Idle(cfg, State(), id, now)
        decreases unseen
      {
        var id :| id in unseen;
        if now - lastSeen[id] > cfg.ttl {
          toDelete := toDelete + {id};
        }
        unseen := unseen - {id};
      }
      ghost var idle := toDelete;
      while toDelete != {}
        invariant toDelete <= idle
        invariant limiters == old(limiters) - (idle - toDelete)
        invariant lastSeen == old(lastSeen) - (idle - toDelete)
        decreases toDelete
      {
        var id :| id in toDelete;
        toDelete := toDelete - {id};
        limiters := limiters - {id};
        lastSeen := lastSeen - {id};
      }
    }
  }
}
