/** The rate limiter as one client meets it: a trace of its own requests, of the other
    events, and of the moments its bucket is removed. Time is measured by the credit
    refilled, so that a bucket gains one unit per unit of time up to `cap`. */
module ClientView {
  import opened Common
  import opened TokenBucket

  datatype Moment =
    | Asked(now: int)
    | Passed(now: int, dropped: bool)

  /** Requests allowed and the credit they took; removals of the bucket and the credit
      each can have brought back. */
  datatype Client = Client(bucket: Option<Bucket>, allowed: nat, spent: nat, drops: nat, topped: nat)

  const NEWCOMER := Client(None, 0, 0, 0, 0)

  /** Credit the client would be checked against at `now`; without a bucket it would get a full one. */
  function Level(cap: nat, c: Client, now: int): nat {
    if c.bucket.None? then cap
    else Min(cap, c.bucket.value.credit + if c.bucket.value.last < now then now - c.bucket.value.last else 0)
  }

  function Step(cap: nat, c: Client, m: Moment, forgets: bool): Client {
    match m
    case Asked(now) =>
      var level := Level(cap, c, now);
      if level >= COST then
        c.(bucket := Some(Bucket(level - COST, now)), allowed := c.allowed + 1, spent := c.spent + COST)
      else
        c.(bucket := Some(Bucket(level, now)))
    case Passed(now, dropped) =>
      if dropped && forgets then c.(bucket := None, drops := c.drops + 1, topped := c.topped + cap) else c
  }

  /** The client after a trace, served by a limiter that forgets or by one that never does. */
  function Follow(cap: nat, tr: seq<Moment>, forgets: bool): Client {
    if tr == [] then NEWCOMER else Step(cap, Follow(cap, Init(tr), forgets), Last(tr), forgets)
  }

  ghost predicate Monotone(tr: seq<Moment>) {
    forall i, j :: 0 <= i < j < |tr| ==> tr[i].now <= tr[j].now
  }

  predicate NotBefore(tr: seq<Moment>, now: int) {
    tr != [] ==> Last(tr).now <= now
  }

  /** Buckets are never read ahead of the clock and never over-full. */
  lemma {:induction false} BucketBounded(cap: nat, tr: seq<Moment>, forgets: bool)
    requires Monotone(tr) && Follow(cap, tr, forgets).bucket.Some?
    ensures var b := Follow(cap, tr, forgets).bucket.value;
            tr != [] && b.last <= Last(tr).now && b.credit <= cap
  {
    if Follow(cap, Init(tr), forgets).bucket.Some? {
      BucketBounded(cap, Init(tr), forgets);
    }
  }

  lemma LevelAdvances(cap: nat, tr: seq<Moment>, forgets: bool, mid: int, now: int)
    requires Monotone(tr) && NotBefore(tr, mid) && mid <= now
    ensures var c := Follow(cap, tr, forgets);
            Level(cap, c, now) == Min(cap, Level(cap, c, mid) + now - mid)
  {
    if Follow(cap, tr, forgets).bucket.Some? {
      BucketBounded(cap, tr, forgets);
    }
  }

  /** The accumulated credit is what the counts say. */
  lemma {:induction false} Totals(cap: nat, tr: seq<Moment>, forgets: bool)
    ensures var c := Follow(cap, tr, forgets);
            && c.spent == Times(c.allowed, COST) && c.topped == Times(c.drops, cap)
            && (!forgets ==> c.drops == 0)
  {
    if tr != [] {
      Totals(cap, Init(tr), forgets);
    }
  }

  // ---- forgetting never costs the client ----

  /** `c` is not behind `ref`, and its lead makes up for the credit it lacks at `now`. */
  ghost predicate Ahead(cap: nat, c: Client, ref: Client, now: int) {
    c.allowed >= ref.allowed && Level(cap, c, now) + c.spent >= Level(cap, ref, now) + ref.spent
  }

  lemma StepStaysAhead(cap: nat, c: Client, ref: Client, m: Moment)
    requires Ahead(cap, c, ref, m.now)
    requires c.allowed == ref.allowed ==> c.spent == ref.spent
    requires c.allowed > ref.allowed ==> c.spent >= ref.spent + COST
    ensures Ahead(cap, Step(cap, c, m, true), Step(cap, ref, m, false), m.now)
  {
  }

  lemma WaitStaysAhead(cap: nat, c: Client, ref: Client, mid: int, now: int)
    requires Ahead(cap, c, ref, mid) && mid <= now
    requires Level(cap, c, now) == Min(cap, Level(cap, c, mid) + now - mid)
    requires Level(cap, ref, now) == Min(cap, Level(cap, ref, mid) + now - mid)
    requires Level(cap, ref, mid) <= cap
    requires c.spent >= ref.spent
    ensures Ahead(cap, c, ref, now)
  {
  }

  lemma LeadInCredit(cap: nat, tr: seq<Moment>)
    ensures var c, ref := Follow(cap, tr, true), Follow(cap, tr, false);
            && (c.allowed == ref.allowed ==> c.spent == ref.spent)
            && (c.allowed > ref.allowed ==> c.spent >= ref.spent + COST)
  {
    Totals(cap, tr, true);
    Totals(cap, tr, false);
    var a, b := Follow(cap, tr, true).allowed, Follow(cap, tr, false).allowed;
    if a > b {
      TimesMonotone(b + 1, a, COST);
    }
  }

  /** Being ahead in allowed requests makes up for any credit the forgetting limiter lacks. */
  lemma {:induction false} CreditKept(cap: nat, tr: seq<Moment>, now: int)
    requires Monotone(tr) && NotBefore(tr, now)
    ensures Ahead(cap, Follow(cap, tr, true), Follow(cap, tr, false), now)
  {
    if tr != [] {
      var t := Last(tr).now;
      var c, ref := Follow(cap, tr, true), Follow(cap, tr, false);
      assert Ahead(cap, c, ref, t) by {
        CreditKept(cap, Init(tr), t);
        LeadInCredit(cap, Init(tr));
        StepStaysAhead(cap, Follow(cap, Init(tr), true), Follow(cap, Init(tr), false), Last(tr));
      }
      assert Ahead(cap, c, ref, now) by {
        LevelAdvances(cap, tr, true, t, now);
        LevelAdvances(cap, tr, false, t, now);
        LeadInCredit(cap, tr);
        WaitStaysAhead(cap, c, ref, t, now);
      }
    }
  }

  // ---- a window of the trace ----

  /** From moment `i` on the client can have had a burst, another one for each removal,
      and the refill since `start`. */
  lemma {:induction false} WindowPotential(cap: nat, tr: seq<Moment>, forgets: bool, i: nat, start: int, now: int)
    requires Monotone(tr) && i <= |tr| && NotBefore(tr, now) && start <= now
    requires forall k :: i <= k < |tr| ==> start <= tr[k].now
    ensures var c0, c := Follow(cap, tr[..i], forgets), Follow(cap, tr, forgets);
            && c.allowed >= c0.allowed && c.drops >= c0.drops
            && Level(cap, c, now) + c.spent - c0.spent <= cap + c.topped - c0.topped + now - start
    decreases |tr|
  {
    if |tr| == i {
      assert tr[..i] == tr;
    } else {
      var t := Last(tr).now;
      assert Init(tr)[..i] == tr[..i];
      WindowPotential(cap, Init(tr), forgets, i, start, t);
      LevelAdvances(cap, tr, forgets, t, now);
    }
  }

  // ---- since the bucket was last full ----

  /** When moment `i` of the trace is, or `now` at its end. */
  function TimeAt(tr: seq<Moment>, i: nat, now: int): int
    requires i <= |tr|
  {
    if i < |tr| then tr[i].now else now
  }

  /** At some moment the bucket was full, and since then what it gained and what was taken from
      it add up to what it holds. */
  lemma {:induction false} SinceFull(cap: nat, tr: seq<Moment>, forgets: bool, now: int) returns (i: nat)
    requires Monotone(tr) && NotBefore(tr, now)
    ensures i <= |tr|
    ensures var c0, c := Follow(cap, tr[..i], forgets), Follow(cap, tr, forgets);
            Level(cap, c, now) + c.spent - c0.spent == cap + now - TimeAt(tr, i, now)
    decreases |tr|
  {
    if tr == [] || Level(cap, Follow(cap, tr, forgets), now) == cap {
      i := |tr|;
      assert tr[..i] == tr;
    } else {
      var t := Last(tr).now;
      i := SinceFull(cap, Init(tr), forgets, t);
      assert Init(tr)[..i] == tr[..i];
      LevelAdvances(cap, tr, forgets, t, now);
      StepAddsUp(cap, Follow(cap, Init(tr), forgets), Last(tr), forgets);
    }
  }

  /** A step leaves the bucket full, or what it holds and what was taken add up as before. */
  lemma StepAddsUp(cap: nat, c: Client, m: Moment, forgets: bool)
    ensures var c' := Step(cap, c, m, forgets);
            Level(cap, c', m.now) == cap || Level(cap, c', m.now) + c'.spent == Level(cap, c, m.now) + c.spent
  {
  }

  // ---- removal after an idle time ----

  /** Every removal finds a bucket that has not been read for as long as it takes to fill. */
  ghost predicate OnlyFullDrops(cap: nat, tr: seq<Moment>) {
    forall k :: 0 <= k < |tr| && tr[k].Passed? && tr[k].dropped ==>
      Level(cap, Follow(cap, tr[..k], true), tr[k].now) == cap
  }

  /** The two clients have been allowed the same and would be answered the same at `now`. */
  ghost predicate Same(cap: nat, c: Client, ref: Client, now: int) {
    c.allowed == ref.allowed && Level(cap, c, now) == Level(cap, ref, now)
  }

  lemma FullDropsPrefix(cap: nat, tr: seq<Moment>)
    requires OnlyFullDrops(cap, tr) && tr != []
    ensures OnlyFullDrops(cap, Init(tr))
    ensures Last(tr).Passed? && Last(tr).dropped ==> Level(cap, Follow(cap, Init(tr), true), Last(tr).now) == cap
  {
    assert Init(tr) == tr[..|tr| - 1];
    assert forall k :: 0 <= k < |tr| - 1 ==> Init(tr)[..k] == tr[..k];
  }

  lemma FullStepInvisible(cap: nat, c: Client, ref: Client, m: Moment)
    requires Same(cap, c, ref, m.now)
    requires m.Passed? && m.dropped ==> Level(cap, c, m.now) == cap
    ensures Same(cap, Step(cap, c, m, true), Step(cap, ref, m, false), m.now)
  {
  }

  /** The removal of full buckets changes nothing. */
  lemma {:induction false} FullDropsInvisible(cap: nat, tr: seq<Moment>, now: int)
    requires Monotone(tr) && NotBefore(tr, now) && OnlyFullDrops(cap, tr)
    ensures Same(cap, Follow(cap, tr, true), Follow(cap, tr, false), now)
  {
    if tr != [] {
      var t, before := Last(tr).now, Init(tr);
      assert Same(cap, Follow(cap, tr, true), Follow(cap, tr, false), t) by {
        FullDropsPrefix(cap, tr);
        FullDropsInvisible(cap, before, t);
        FullStepInvisible(cap, Follow(cap, before, true), Follow(cap, before, false), Last(tr));
      }
      LevelAdvances(cap, tr, true, t, now);
      LevelAdvances(cap, tr, false, t, now);
    }
  }

  /** `n` requests at the same instant. */
  function Volley(n: nat, now: int): seq<Moment> {
    seq(n, _ => Asked(now))
  }

  /** A client without a bucket is allowed a whole burst at once. */
  lemma {:induction false} VolleyAllowed(burst: nat, tr: seq<Moment>, n: nat, now: int)
    requires Follow(Product(burst, COST), tr, true).bucket.None? && n <= burst
    ensures var cap := Product(burst, COST);
            var c := Follow(cap, tr + Volley(n, now), true);
            && c.allowed == Follow(cap, tr, true).allowed + n
            && Level(cap, c, now) == Product(burst - n, COST)
  {
    if n == 0 {
      assert tr + Volley(n, now) == tr;
    } else {
      VolleyAllowed(burst, tr, n - 1, now);
      var longer := tr + Volley(n, now);
      assert Init(longer) == tr + Volley(n - 1, now) && Last(longer) == Asked(now);
      assert Product(burst - (n - 1), COST) == Product(burst - n, COST) + COST;
      TimesMonotone(burst - n, burst, COST);
    }
  }
}
