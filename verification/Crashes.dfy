/** When a request of the pool's handler can crash on the closed channel, and what becomes of
    its job; and how a queue can lose all its workers. */
module Crashes {
  import opened Common
  import opened WebhookPool
  import opened JobEndings
  import L = Ledger
  import P = WorkerPool

  // ---- when a request can crash ----

  /** Some request is between its check of the flag and its send, or has crashed. */
  ghost predicate InTheGap(w: World) {
    exists r :: r in w.handlers && (w.handlers[r].Submitting? || w.handlers[r].Crashed?)
  }

  lemma GapStaysEmpty(cfg: Config, w: World, st: Step)
    requires w.pool.shutdown && !InTheGap(w) && Enabled(cfg, w, st)
    ensures Apply(cfg, w, st).pool.shutdown && !InTheGap(Apply(cfg, w, st))
  {
    var w' := Apply(cfg, w, st);
    ShutdownStays(cfg, w, st);
    forall r | r in w'.handlers
      ensures !w'.handlers[r].Submitting? && !w'.handlers[r].Crashed?
    {
      assert r in w.handlers ==> !w.handlers[r].Submitting? && !w.handlers[r].Crashed?;
    }
  }

  lemma ShutdownStays(cfg: Config, w: World, st: Step)
    requires w.pool.shutdown && Enabled(cfg, w, st)
    ensures Apply(cfg, w, st).pool.shutdown
  {
    PoolAfter(cfg, w, st);
    if PoolPart(st).Some? {
      P.FlagsStay(w.pool, PoolPart(st).value);
    }
  }

  lemma {:induction false} NoCrashLater(cfg: Config, steps: seq<Step>, more: seq<Step>)
    requires ValidRun(cfg, steps) && ValidRun(cfg, steps + more)
    requires Run(cfg, steps).pool.shutdown && !InTheGap(Run(cfg, steps))
    ensures Run(cfg, steps + more).pool.shutdown && !InTheGap(Run(cfg, steps + more))
  {
    if more == [] {
      assert steps + more == steps;
    } else {
      var before := steps + Init(more);
      assert Init(steps + more) == before && Last(steps + more) == Last(more);
      NoCrashLater(cfg, steps, Init(more));
      GapStaysEmpty(cfg, Run(cfg, before), Last(more));
    }
  }

  lemma CrashNext(cfg: Config, w: World, r: nat)
    requires PoolFits(w.handlers, w.pool) && HandlerAt(w, r, Submitting) && w.pool.closed
    ensures Enabled(cfg, w, Handle(r, SendOnClosed)) && HasCrashed(Apply(cfg, w, Handle(r, SendOnClosed)), r)
  {
  }

  lemma CloseNext(cfg: Config, w: World, r: nat)
    requires HandlerAt(w, r, Submitting) && w.pool.shutdown && !w.pool.closed
    ensures Enabled(cfg, w, PoolStep(P.CloseTasks))
    ensures var w' := Apply(cfg, w, PoolStep(P.CloseTasks)); HandlerAt(w', r, Submitting) && w'.pool.closed
  {
  }

  lemma ClosedCrash(cfg: Config, steps: seq<Step>, r: nat) returns (longer: seq<Step>)
    requires ValidRun(cfg, steps) && HandlerAt(Run(cfg, steps), r, Submitting) && Run(cfg, steps).pool.closed
    ensures longer == steps + [Handle(r, SendOnClosed)] && ValidRun(cfg, longer) && HasCrashed(Run(cfg, longer), r)
  {
    AlwaysPoolFits(cfg, steps);
    CrashNext(cfg, Run(cfg, steps), r);
    Extend(cfg, steps, Handle(r, SendOnClosed));
    longer := steps + [Handle(r, SendOnClosed)];
  }

  lemma GapCrashes(cfg: Config, steps: seq<Step>, r: nat) returns (more: seq<Step>)
    requires ValidRun(cfg, steps) && HandlerAt(Run(cfg, steps), r, Submitting) && Run(cfg, steps).pool.shutdown
    ensures ValidRun(cfg, steps + more) && HasCrashed(Run(cfg, steps + more), r)
  {
    if Run(cfg, steps).pool.closed {
      var longer := ClosedCrash(cfg, steps, r);
      more := [Handle(r, SendOnClosed)];
    } else {
      CloseNext(cfg, Run(cfg, steps), r);
      Extend(cfg, steps, PoolStep(P.CloseTasks));
      var longer := ClosedCrash(cfg, steps + [PoolStep(P.CloseTasks)], r);
      more := [PoolStep(P.CloseTasks), Handle(r, SendOnClosed)];
      assert longer == steps + more;
    }
  }

  ghost predicate CrashesLater(cfg: Config, steps: seq<Step>) {
    exists more, r :: ValidRun(cfg, steps + more) && HasCrashed(Run(cfg, steps + more), r)
  }

  lemma LaterCrash(cfg: Config, steps: seq<Step>, more: seq<Step>)
    requires ValidRun(cfg, steps + more) && CrashesLater(cfg, steps + more)
    ensures CrashesLater(cfg, steps)
  {
    var rest, r :| ValidRun(cfg, steps + more + rest) && HasCrashed(Run(cfg, steps + more + rest), r);
    assert steps + more + rest == steps + (more + rest);
  }

  // ---- before the flag is set ----

  /** The flag is set next, and then the request crashes. */
  lemma OpenGapCrashes(cfg: Config, steps: seq<Step>, r: nat)
    requires ValidRun(cfg, steps) && HandlerAt(Run(cfg, steps), r, Submitting) && !Run(cfg, steps).pool.shutdown
    ensures CrashesLater(cfg, steps)
  {
    Extend(cfg, steps, PoolStep(P.MarkShutdown));
    var more := GapCrashes(cfg, steps + [PoolStep(P.MarkShutdown)], r);
    LaterCrash(cfg, steps, [PoolStep(P.MarkShutdown)]);
  }

  lemma {:induction false} Bound(s: set<nat>) returns (n: nat)
    ensures forall x :: x in s ==> x < n
  {
    if s == {} {
      n := 0;
    } else {
      var x :| x in s;
      var m := Bound(s - {x});
      n := if x < m then m else x + 1;
      assert forall y :: y in s ==> y == x || y in s - {x};
    }
  }

  lemma UnusedId(l: L.Ledger) returns (id: string)
    ensures L.IdUnused(l, id)
  {
    var lengths := set r | r in l.jobs :: |l.jobs[r].id|;
    var n := Bound(lengths);
    id := L.IdOf(n);
    forall r | r in l.jobs
      ensures l.jobs[r].id != id
    {
      assert |l.jobs[r].id| in lengths;
    }
  }

  lemma NewNotSeen(cfg: Config, steps: seq<Step>, r: nat)
    requires ValidRun(cfg, steps) && r !in Run(cfg, steps).handlers
    ensures r !in Run(cfg, steps).pool.seen
  {
    AlwaysFits(cfg, steps);
  }

  lemma ChecksFlag(cfg: Config, from: seq<Step>, w: World, r: nat) returns (w': World)
    requires Later(cfg, from, w) && HandlerAt(w, r, Started) && r !in w.pool.seen && !w.pool.shutdown
    ensures Later(cfg, from, w') && HandlerAt(w', r, Submitting) && !w'.pool.shutdown
  {
    w' := Reach(cfg, from, w, Handle(r, CheckFlag));
  }

  lemma LaterCrashes(cfg: Config, steps: seq<Step>, w: World, r: nat)
    requires Later(cfg, steps, w) && HandlerAt(w, r, Submitting) && !w.pool.shutdown
    ensures CrashesLater(cfg, steps)
  {
    var more :| ValidRun(cfg, steps + more) && Run(cfg, steps + more) == w;
    OpenGapCrashes(cfg, steps + more, r);
    LaterCrash(cfg, steps, more);
  }

  /** With no job current a new request can get into the gap. */
  lemma NewRequestCrashes(cfg: Config, steps: seq<Step>)
    requires ValidRun(cfg, steps) && Run(cfg, steps).ledger.store.current.None? && !Run(cfg, steps).pool.shutdown
    ensures CrashesLater(cfg, steps)
  {
    var w := Run(cfg, steps);
    var r := Bound(w.handlers.Keys);
    var id := UnusedId(w.ledger);
    NewNotSeen(cfg, steps, r);
    Now(cfg, steps);
    var w1 := StartJob(cfg, steps, w, r, id);
    var w2 := ChecksFlag(cfg, steps, w1, r);
    LaterCrashes(cfg, steps, w2, r);
  }

  /** With the channel open nothing keeps the current job from ending. */
  lemma HeldCanMove(cfg: Config, w: World, r: nat)
    requires Sane(w) && HeldSomewhere(w, r) && !w.pool.closed
    ensures CanMove(cfg, w)
  {
    if r in w.handlers && Holding(w.handlers[r]) {
      assert RequestCan(w, r);
    } else if r in w.pool.queue {
      assert QueueCan(w);
    } else {
      var v :| Busy(w, v) && w.pool.running[v] == r;
      assert WorkerCan(cfg, w, v);
    }
  }

  /** Before the flag is set the current job can end first, and then a new request follows. */
  lemma OpenCrashes(cfg: Config, steps: seq<Step>)
    requires ValidRun(cfg, steps) && !Run(cfg, steps).pool.shutdown
    ensures CrashesLater(cfg, steps)
  {
    var w := Run(cfg, steps);
    if w.ledger.store.current.None? {
      NewRequestCrashes(cfg, steps);
    } else {
      var r := w.ledger.store.current.value;
      AlwaysSane(cfg, steps);
      CurrentHeld(cfg, steps, r);
      HeldCanMove(cfg, w, r);
      var more := EndsQuietly(cfg, steps, r);
      NewRequestCrashes(cfg, steps + more);
      LaterCrash(cfg, steps, more);
    }
  }

  // ---- exactly when a request can crash ----

  lemma ShutCrashIff(cfg: Config, steps: seq<Step>)
    requires ValidRun(cfg, steps) && Run(cfg, steps).pool.shutdown
    ensures CrashesLater(cfg, steps) <==> InTheGap(Run(cfg, steps))
  {
    var w := Run(cfg, steps);
    if InTheGap(w) {
      var r :| r in w.handlers && (w.handlers[r].Submitting? || w.handlers[r].Crashed?);
      if w.handlers[r].Submitting? {
        var more := GapCrashes(cfg, steps, r);
      } else {
        assert steps + [] == steps;
        assert HasCrashed(Run(cfg, steps + []), r);
      }
    } else {
      forall more, r | ValidRun(cfg, steps + more)
        ensures !HasCrashed(Run(cfg, steps + more), r)
      {
        NoCrashLater(cfg, steps, more);
      }
    }
  }

  /** A request has crashed or can still crash, whatever panics, exactly if Shutdown has not set
      the flag yet, or a request is between its check of the flag and its send, or has crashed
      already. */
  lemma CrashIff(cfg: Config, steps: seq<Step>)
    requires ValidRun(cfg, steps)
    ensures CrashesLater(cfg, steps) <==> !Run(cfg, steps).pool.shutdown || InTheGap(Run(cfg, steps))
  {
    if Run(cfg, steps).pool.shutdown {
      ShutCrashIff(cfg, steps);
    } else {
      OpenCrashes(cfg, steps);
    }
  }

  // ---- both kinds of stuck job occur ----

  lemma InGap(cfg: Config) returns (w: World)
    ensures Reachable(cfg, w) && IsCurrent(w, 1) && HandlerAt(w, 1, Submitting) && 1 in w.pool.pending
    ensures w.pool == P.Apply(P.NewPool(cfg.workers, cfg.maxBacklog), P.CheckFlag(1, P.Submit))
  {
    w := Begin(cfg);
    L.StartNumbered(w.ledger, {}, 1);
    w := StartJob(cfg, [], w, 1, L.IdOf(1));
    w := Reach(cfg, [], w, Handle(1, CheckFlag));
    LaterOrderly(cfg, [], w);
  }

  lemma ClosedOnGap(cfg: Config) returns (w: World)
    ensures Reachable(cfg, w) && w.ledger.store.current == Some(1) && HandlerAt(w, 1, Submitting)
    ensures 1 in w.pool.pending && w.pool.closed
  {
    w := InGap(cfg);
    w := Reach(cfg, [], w, PoolStep(P.MarkShutdown));
    w := Reach(cfg, [], w, PoolStep(P.CloseTasks));
  }

  /** A request can pass the check of the flag and then meet the closed channel. */
  lemma CrashReachable(cfg: Config)
    ensures exists w :: Reachable(cfg, w) && HasCrashed(w, 1) && w.ledger.store.current == Some(1)
  {
    var w := ClosedOnGap(cfg);
    w := Reach(cfg, [], w, Handle(1, SendOnClosed));
    assert HasCrashed(w, 1);
  }

  /** The pool of a cancelled world in which the first `n` workers have left. */
  ghost predicate Deserted(cfg: Config, w: World, n: nat) {
    && Reachable(cfg, w) && w.ledger.store.current == Some(1) && w.pool.queue == [1] && w.pool.canceled
    && w.pool.workers == P.Workers(cfg.workers) && n <= w.pool.workers
    && w.pool.exited == Below(n) && w.pool.idle == Below(w.pool.workers) - Below(n)
  }

  lemma SentOne(cfg: Config) returns (w: World)
    ensures Reachable(cfg, w) && w.ledger.store.current == Some(1) && w.pool.queue == [1] && !w.pool.shutdown
    ensures !w.pool.closed && w.pool.outcome.NotYet? && w.pool.exited == {}
    ensures w.pool.workers == P.Workers(cfg.workers) && w.pool.idle == Below(w.pool.workers)
  {
    w := InGap(cfg);
    w := Reach(cfg, [], w, Handle(1, Send));
  }

  lemma ClosedWithOne(cfg: Config) returns (w: World)
    ensures Reachable(cfg, w) && w.ledger.store.current == Some(1) && w.pool.queue == [1]
    ensures w.pool.closed && w.pool.outcome.NotYet? && w.pool.exited == {}
    ensures w.pool.workers == P.Workers(cfg.workers) && w.pool.idle == Below(w.pool.workers)
  {
    w := SentOne(cfg);
    w := Reach(cfg, [], w, PoolStep(P.MarkShutdown));
    w := Reach(cfg, [], w, PoolStep(P.CloseTasks));
  }

  lemma NoneLeft(cfg: Config) returns (w: World)
    ensures Deserted(cfg, w, 0)
  {
    w := ClosedWithOne(cfg);
    w := Reach(cfg, [], w, PoolStep(P.Cancel));
    assert Below(w.pool.workers) - {} == Below(w.pool.workers);
  }

  lemma OneLeaves(cfg: Config, w: World, n: nat) returns (w': World)
    requires Deserted(cfg, w, n) && n < P.Workers(cfg.workers)
    ensures Deserted(cfg, w', n + 1)
  {
    NextBelow(n, w.pool.workers);
    w' := Reach(cfg, [], w, PoolStep(P.Exit(n)));
  }

  lemma {:induction false} AllLeft(cfg: Config, n: nat) returns (w: World)
    requires n <= P.Workers(cfg.workers)
    ensures Deserted(cfg, w, n)
  {
    if n == 0 {
      w := NoneLeft(cfg);
    } else {
      w := AllLeft(cfg, n - 1);
      w := OneLeaves(cfg, w, n - 1);
    }
  }

  /** A timed out shutdown can leave a job in the queue that no worker is left for. */
  lemma AbandonedReachable(cfg: Config)
    ensures exists w :: Reachable(cfg, w) && Abandoned(w) && w.ledger.store.current == Some(1)
  {
    var w := AllLeft(cfg, P.Workers(cfg.workers));
    assert Abandoned(w);
  }
}
