/** What logging that panics after CompleteCurrentJob does to the pool's handler. The recovery
    then fails a job that is not the worker's own, so that jobs overlap. Each promise below
    holds on every run exactly if such a panic cannot happen, or does not matter. */
module LogPanics {
  import opened Common
  import opened WebhookPool
  import L = Ledger
  import P = WorkerPool

  const PANIC := "panic during job execution"

  // ---- the promises ----

  /** CompleteCurrentJob and FailCurrentJob end the job of their caller. */
  ghost predicate AlwaysRight(cfg: Config) {
    forall steps :: ValidRun(cfg, steps) ==> L.RightCalls(Run(cfg, steps).calls)
  }

  ghost predicate OneActs(phases: map<nat, Phase>) {
    forall u, v :: u in phases && v in phases && phases[u].Acting? && phases[v].Acting? ==> u == v
  }

  /** At most one worker is inside ProcessAction. */
  ghost predicate AlwaysExclusive(cfg: Config) {
    forall steps :: ValidRun(cfg, steps) ==> OneActs(Run(cfg, steps).phases)
  }

  /** No submission finds the queue full. */
  ghost predicate AlwaysRoomy(cfg: Config) {
    forall steps, r :: ValidRun(cfg, steps) ==> !Enabled(cfg, Run(cfg, steps), Handle(r, SendFull))
  }

  /** One request, queue slot or worker holds a started job while a job is current, and none
      otherwise. */
  ghost predicate AlwaysTicketed(cfg: Config) {
    forall steps :: ValidRun(cfg, steps) ==> OneHolder(Run(cfg, steps))
  }

  ghost predicate CrashKept(w: World) {
    forall r: nat :: HasCrashed(w, r) ==> w.ledger.store.current == Some(r)
  }

  /** The job of a request that crashed on the closed channel is current. */
  ghost predicate AlwaysKept(cfg: Config) {
    forall steps :: ValidRun(cfg, steps) ==> CrashKept(Run(cfg, steps))
  }

  // ---- worlds that runs with panics lead to ----

  predicate Open(p: P.Pool) {
    !p.canceled && !p.shutdown && !p.closed && p.unwinding == {}
  }

  function AllOf(cfg: Config): set<nat> {
    Below(P.Workers(cfg.workers))
  }

  /** A reachable world: what the workers do, what is queued, how many requests there have
      been, and what is current. */
  ghost predicate Scene(cfg: Config, w: World, phases: map<nat, Phase>, running: map<nat, nat>, queue: seq<nat>,
                        n: nat, current: Option<nat>)
  {
    && Reachable(cfg, w) && Open(w.pool) && w.pool.maxBacklog == P.Backlog(cfg.maxBacklog)
    && w.phases == phases && w.pool.running == running && w.pool.queue == queue
    && w.pool.idle == AllOf(cfg) - running.Keys
    && w.handlers.Keys == Below(n) && w.pool.seen == Below(n) && L.Numbered(w.ledger, Below(n))
    && w.ledger.store.current == current
  }

  lemma Opening(cfg: Config) returns (w: World)
    ensures Scene(cfg, w, map[], map[], [], 0, None)
  {
    w := Begin(cfg);
    assert w.pool.idle - {} == w.pool.idle;
  }

  /** A new request starts its job. */
  lemma Starts(cfg: Config, w: World, phases: map<nat, Phase>, running: map<nat, nat>, queue: seq<nat>, n: nat)
      returns (w': World)
    requires Scene(cfg, w, phases, running, queue, n, None)
    ensures Reachable(cfg, w') && L.Numbered(w'.ledger, Below(n + 1)) && w'.ledger.store.current == Some(n)
    ensures w' == w.(ledger := w'.ledger, handlers := w.handlers[n := Started])
  {
    BelowIff(n, n);
    L.StartNumbered(w.ledger, Below(n), n);
    w' := StartJob(cfg, [], w, n, L.IdOf(n));
  }

  lemma Checks(cfg: Config, w: World, r: nat) returns (w': World)
    requires Reachable(cfg, w) && Open(w.pool) && r !in w.pool.seen
    requires r in w.handlers && w.handlers[r].Started?
    ensures Reachable(cfg, w') && r in w'.pool.pending && w'.pool.pending[r].Submit?
    ensures w'.pool == w.pool.(pending := w'.pool.pending, seen := w.pool.seen + {r})
    ensures w' == w.(pool := w'.pool, handlers := w.handlers[r := Submitting])
  {
    w' := Reach(cfg, [], w, Handle(r, CheckFlag));
  }

  lemma Sends(cfg: Config, w: World, r: nat) returns (w': World)
    requires Reachable(cfg, w) && Open(w.pool) && r in w.pool.pending && |w.pool.queue| < w.pool.maxBacklog
    requires r in w.handlers && w.handlers[r].Submitting?
    ensures Reachable(cfg, w') && w'.pool.queue == w.pool.queue + [r]
    ensures w'.pool == w.pool.(pending := w'.pool.pending, queue := w'.pool.queue, accepted := w'.pool.accepted)
    ensures w' == w.(pool := w'.pool, handlers := w.handlers[r := Answered])
  {
    w' := Reach(cfg, [], w, Handle(r, Send));
  }

  /** A new request starts and submits its job. */
  lemma Submits(cfg: Config, w: World, phases: map<nat, Phase>, running: map<nat, nat>, queue: seq<nat>, n: nat)
      returns (w': World)
    requires Scene(cfg, w, phases, running, queue, n, None) && |queue| < P.Backlog(cfg.maxBacklog)
    ensures Scene(cfg, w', phases, running, queue + [n], n + 1, Some(n))
  {
    w' := Starts(cfg, w, phases, running, queue, n);
    BelowIff(n, n);
    w' := Checks(cfg, w', n);
    w' := Sends(cfg, w', n);
  }

  /** Worker `v` takes the oldest task and begins its action. */
  lemma Takes(cfg: Config, w: World, phases: map<nat, Phase>, running: map<nat, nat>, queue: seq<nat>, n: nat,
              current: Option<nat>, v: nat) returns (w': World)
    requires Scene(cfg, w, phases, running, queue, n, current) && queue != []
    requires v in AllOf(cfg) && v !in running && v !in phases
    ensures Scene(cfg, w', phases[v := Acting], running[v := queue[0]], queue[1..], n, current)
  {
    var w1 := Reach(cfg, [], w, Work(v, Take));
    w' := Reach(cfg, [], w1, Work(v, SeeContext(false)));
    Overwrites(phases, v, Entered, Acting);
    assert running[v := queue[0]].Keys == running.Keys + {v};
  }

  /** The action of `v` returns, and the current job is completed. */
  lemma Completes(cfg: Config, w: World, phases: map<nat, Phase>, running: map<nat, nat>, queue: seq<nat>, n: nat,
                  current: Option<nat>, v: nat) returns (w': World)
    requires Scene(cfg, w, phases, running, queue, n, current) && v in phases && v in running && phases[v].Acting?
    ensures Scene(cfg, w', phases[v := Logging], running, queue, n, None)
  {
    LaterOrderly(cfg, [], w);
    L.EndNumbered(w.ledger, Below(n), PANIC);
    var w1 := Reach(cfg, [], w, Work(v, ActionReturns));
    w' := Reach(cfg, [], w1, Work(v, Complete(0)));
    Overwrites(phases, v, Acted, Logging);
  }

  lemma LogUnwinds(cfg: Config, w: World, phases: map<nat, Phase>, running: map<nat, nat>, queue: seq<nat>, n: nat,
                   current: Option<nat>, v: nat) returns (w': World)
    requires Scene(cfg, w, phases, running, queue, n, current) && v in phases && v in running && phases[v].Logging?
    requires cfg.logPanics
    ensures Scene(cfg, w', phases[v := Panicked], running, queue, n, current) && w'.calls == w.calls
  {
    w' := Reach(cfg, [], w, Work(v, LogPanics));
  }

  lemma Recovers(cfg: Config, w: World, phases: map<nat, Phase>, running: map<nat, nat>, queue: seq<nat>, n: nat,
                 current: Option<nat>, v: nat) returns (w': World)
    requires Scene(cfg, w, phases, running, queue, n, current) && v in phases && v in running && phases[v].Panicked?
    ensures Scene(cfg, w', phases[v := Leaving], running, queue, n, None)
    ensures w'.calls == w.calls + [L.Call(running[v], current)]
  {
    LaterOrderly(cfg, [], w);
    L.EndNumbered(w.ledger, Below(n), PANIC);
    w' := Reach(cfg, [], w, Work(v, FailPanicked(0)));
  }

  /** Logging panics, and the recovery fails whatever job is current. */
  lemma Panics(cfg: Config, w: World, phases: map<nat, Phase>, running: map<nat, nat>, queue: seq<nat>, n: nat,
               current: Option<nat>, v: nat) returns (w': World)
    requires Scene(cfg, w, phases, running, queue, n, current) && v in phases && v in running && phases[v].Logging?
    requires cfg.logPanics
    ensures Scene(cfg, w', phases[v := Leaving], running, queue, n, None)
    ensures w'.calls == w.calls + [L.Call(running[v], current)]
  {
    var w1 := LogUnwinds(cfg, w, phases, running, queue, n, current, v);
    w' := Recovers(cfg, w1, phases[v := Panicked], running, queue, n, current, v);
    Overwrites(phases, v, Panicked, Leaving);
  }

  lemma Leaves(cfg: Config, w: World, phases: map<nat, Phase>, running: map<nat, nat>, queue: seq<nat>, n: nat,
               current: Option<nat>, v: nat) returns (w': World)
    requires Scene(cfg, w, phases, running, queue, n, current) && v in phases && v in running && phases[v].Leaving?
    requires v in AllOf(cfg)
    ensures Scene(cfg, w', phases - {v}, running - {v}, queue, n, current)
  {
    w' := Reach(cfg, [], w, Work(v, Leave));
    assert AllOf(cfg) - running.Keys + {v} == AllOf(cfg) - (running.Keys - {v});
    assert (running - {v}).Keys == running.Keys - {v};
  }

  // ---- a job of another request is failed ----

  lemma FirstEntry(u: nat)
    ensures map[][u := Acting] == map[u := Acting] && map[][u := 0] == map[u := 0]
    ensures map[u := Acting][u := Logging] == map[u := Logging]
    ensures [] + [0] == [0] && [0][1..] == []
  {
  }

  lemma FirstActs(cfg: Config, u: nat) returns (w: World)
    requires u in AllOf(cfg)
    ensures Scene(cfg, w, map[u := Acting], map[u := 0], [], 1, Some(0))
  {
    FirstEntry(u);
    w := Opening(cfg);
    w := Submits(cfg, w, map[], map[], [], 0);
    w := Takes(cfg, w, map[], map[], [0], 1, Some(0), u);
  }

  /** The first job has been completed by worker `u`, which is about to log. */
  lemma FirstLogs(cfg: Config, u: nat) returns (w: World)
    requires u in AllOf(cfg)
    ensures Scene(cfg, w, map[u := Logging], map[u := 0], [], 1, None)
  {
    FirstEntry(u);
    w := FirstActs(cfg, u);
    w := Completes(cfg, w, map[u := Acting], map[u := 0], [], 1, Some(0), u);
  }

  lemma LogPanicsWrong(cfg: Config)
    requires cfg.logPanics
    ensures !AlwaysRight(cfg)
  {
    BelowIff(P.Workers(cfg.workers), 0);
    var w := FirstLogs(cfg, 0);
    w := Submits(cfg, w, map[0 := Logging], map[0 := 0], [], 1);
    var calls := w.calls;
    w := Panics(cfg, w, map[0 := Logging], map[0 := 0], [] + [1], 2, Some(1), 0);
    assert w.calls[|calls|] == L.Call(0, Some(1));
    var steps := SomeRun(cfg, w);
  }

  /** CompleteCurrentJob and FailCurrentJob are not told which job to end. On every run they
      end the caller's own job exactly when logging after the completion cannot panic. */
  lemma RightJobIff(cfg: Config)
    ensures AlwaysRight(cfg) <==> !cfg.logPanics
  {
    if cfg.logPanics {
      LogPanicsWrong(cfg);
    } else {
      forall steps | ValidRun(cfg, steps)
        ensures L.RightCalls(Run(cfg, steps).calls)
      {
        var t := OneTicket(cfg, steps);
      }
    }
  }

  // ---- a job is held that is not current ----

  lemma LogPanicsUnticket(cfg: Config)
    requires cfg.logPanics
    ensures !AlwaysTicketed(cfg)
  {
    BelowIff(P.Workers(cfg.workers), 0);
    var w := FirstLogs(cfg, 0);
    w := Submits(cfg, w, map[0 := Logging], map[0 := 0], [], 1);
    w := Panics(cfg, w, map[0 := Logging], map[0 := 0], [] + [1], 2, Some(1), 0);
    assert Holds(w, OfQueue(0));
    var steps := SomeRun(cfg, w);
  }

  /** One request, queue slot or worker holds a started job exactly while a job is current, on
      every run, exactly if logging after the completion cannot panic. */
  lemma TicketedIff(cfg: Config)
    ensures AlwaysTicketed(cfg) <==> !cfg.logPanics
  {
    if cfg.logPanics {
      LogPanicsUnticket(cfg);
    } else {
      forall steps | ValidRun(cfg, steps)
        ensures OneHolder(Run(cfg, steps))
      {
        MutualExclusion(cfg, steps);
      }
    }
  }

  // ---- the job of a crashed request is failed ----

  /** Worker 0 is about to log while request 1 is submitting. */
  lemma FirstLogsSecondSubmits(cfg: Config) returns (w: World)
    ensures Reachable(cfg, w) && Open(w.pool) && w.phases == map[0 := Logging] && 0 in w.pool.running
    ensures 1 in w.handlers && w.handlers[1].Submitting? && 1 in w.pool.pending
  {
    BelowIff(P.Workers(cfg.workers), 0);
    BelowIff(1, 1);
    w := FirstLogs(cfg, 0);
    w := Starts(cfg, w, map[0 := Logging], map[0 := 0], [], 1);
    w := Checks(cfg, w, 1);
  }

  /** Worker 0 is about to log, and request 1 is as far as `h`. */
  ghost predicate LogsBeside(cfg: Config, w: World, h: Handler) {
    && Reachable(cfg, w) && w.phases == map[0 := Logging] && 0 in w.pool.running
    && 1 in w.handlers && w.handlers[1] == h
  }

  lemma ClosesBeside(cfg: Config) returns (w: World)
    ensures LogsBeside(cfg, w, Submitting) && 1 in w.pool.pending && w.pool.closed
  {
    w := FirstLogsSecondSubmits(cfg);
    w := Reach(cfg, [], w, PoolStep(P.MarkShutdown));
    w := Reach(cfg, [], w, PoolStep(P.CloseTasks));
  }

  lemma CrashesBeside(cfg: Config) returns (w: World)
    ensures LogsBeside(cfg, w, Crashed)
  {
    w := ClosesBeside(cfg);
    w := Reach(cfg, [], w, Handle(1, SendOnClosed));
  }

  lemma PanicsBeside(cfg: Config, w: World) returns (w': World)
    requires cfg.logPanics && LogsBeside(cfg, w, Crashed)
    ensures Reachable(cfg, w') && !CrashKept(w')
  {
    LaterOrderly(cfg, [], w);
    var w1 := Reach(cfg, [], w, Work(0, LogPanics));
    w' := Reach(cfg, [], w1, Work(0, FailPanicked(0)));
    assert HasCrashed(w', 1);
  }

  lemma LogPanicsFree(cfg: Config)
    requires cfg.logPanics
    ensures !AlwaysKept(cfg)
  {
    var w := CrashesBeside(cfg);
    w := PanicsBeside(cfg, w);
    var steps := SomeRun(cfg, w);
  }

  lemma CrashKeptOnRun(cfg: Config, steps: seq<Step>)
    requires !cfg.logPanics && ValidRun(cfg, steps)
    ensures CrashKept(Run(cfg, steps))
  {
    assert steps + [] == steps;
    forall r: nat | HasCrashed(Run(cfg, steps), r)
      ensures Run(cfg, steps).ledger.store.current == Some(r)
    {
      CrashKeepsJobCurrent(cfg, steps, [], r);
    }
  }

  /** The job of a request that crashed on the closed channel is current on every run, exactly if
      logging after the completion cannot panic. */
  lemma KeptIff(cfg: Config)
    ensures AlwaysKept(cfg) <==> !cfg.logPanics
  {
    if cfg.logPanics {
      LogPanicsFree(cfg);
    } else {
      forall steps | ValidRun(cfg, steps)
        ensures CrashKept(Run(cfg, steps))
      {
        CrashKeptOnRun(cfg, steps);
      }
    }
  }

  // ---- two actions overlap ----

  lemma SecondActs(cfg: Config, u: nat, v: nat) returns (w: World)
    requires u != v && u in AllOf(cfg) && v in AllOf(cfg)
    ensures Scene(cfg, w, map[u := Logging, v := Acting], map[u := 0, v := 1], [], 2, Some(1))
  {
    w := FirstLogs(cfg, u);
    w := Submits(cfg, w, map[u := Logging], map[u := 0], [], 1);
    assert [] + [1] == [1] && [1][1..] == [];
    w := Takes(cfg, w, map[u := Logging], map[u := 0], [1], 2, Some(1), v);
    assert map[u := Logging][v := Acting] == map[u := Logging, v := Acting];
    assert map[u := 0][v := 1] == map[u := 0, v := 1];
  }

  lemma TwoAct(cfg: Config, u: nat, v: nat) returns (w: World)
    requires cfg.logPanics && u != v && u in AllOf(cfg) && v in AllOf(cfg)
    ensures Reachable(cfg, w) && !OneActs(w.phases)
  {
    w := SecondActs(cfg, u, v);
    var phases, running := map[u := Logging, v := Acting], map[u := 0, v := 1];
    w := Panics(cfg, w, phases, running, [], 2, Some(1), u);
    phases := phases[u := Leaving];
    w := Leaves(cfg, w, phases, running, [], 2, None, u);
    w := Submits(cfg, w, phases - {u}, running - {u}, [], 2);
    w := Takes(cfg, w, phases - {u}, running - {u}, [] + [2], 3, Some(2), u);
    assert w.phases[u].Acting? && w.phases[v].Acting?;
  }

  lemma {:induction false} AlwaysSized(cfg: Config, steps: seq<Step>)
    requires ValidRun(cfg, steps)
    ensures Run(cfg, steps).pool.workers == P.Workers(cfg.workers)
  {
    if steps != [] {
      AlwaysSized(cfg, Init(steps));
      SizeStays(cfg, Run(cfg, Init(steps)), Last(steps));
    }
  }

  lemma SizeStays(cfg: Config, w: World, st: Step)
    requires Enabled(cfg, w, st)
    ensures Apply(cfg, w, st).pool.workers == w.pool.workers
  {
    if PoolPart(st).Some? {
      P.StepKeepsSize(w.pool, PoolPart(st).value);
    }
  }

  lemma PhasesAreWorkers(cfg: Config, steps: seq<Step>)
    requires ValidRun(cfg, steps)
    ensures Run(cfg, steps).phases.Keys <= AllOf(cfg)
  {
    AlwaysFits(cfg, steps);
    AlwaysSized(cfg, steps);
  }

  lemma LoneWorker(phases: map<nat, Phase>)
    requires phases.Keys <= Below(1)
    ensures OneActs(phases)
  {
    assert Below(1) == {0};
    assert forall v :: v in phases ==> v in phases.Keys;
  }

  lemma LogPanicsOverlap(cfg: Config)
    requires cfg.logPanics && P.Workers(cfg.workers) >= 2
    ensures !AlwaysExclusive(cfg)
  {
    BelowIff(P.Workers(cfg.workers), 0);
    BelowIff(P.Workers(cfg.workers), 1);
    var w := TwoAct(cfg, 0, 1);
    var steps := SomeRun(cfg, w);
  }

  /** At most one worker is inside ProcessAction on every run, exactly if logging after the
      completion cannot panic, or the pool has a single worker. */
  lemma ExclusiveIff(cfg: Config)
    ensures AlwaysExclusive(cfg) <==> !cfg.logPanics || P.Workers(cfg.workers) == 1
  {
    if cfg.logPanics && P.Workers(cfg.workers) >= 2 {
      LogPanicsOverlap(cfg);
    } else {
      forall steps | ValidRun(cfg, steps)
        ensures OneActs(Run(cfg, steps).phases)
      {
        if cfg.logPanics {
          PhasesAreWorkers(cfg, steps);
          LoneWorker(Run(cfg, steps).phases);
        } else {
          MutualExclusion(cfg, steps);
        }
      }
    }
  }

  // ---- the queue fills up ----

  /** Worker 0 is about to log with `k` tasks in the queue, and no job is current. */
  ghost predicate Piled(cfg: Config, w: World, k: nat) {
    exists job, queue, n ::
      Scene(cfg, w, map[0 := Logging], map[0 := job], queue, n, None) && |queue| == k
  }

  /** How the one worker's entry changes. */
  lemma LoneEntry(job: nat, next: nat)
    ensures map[0 := Logging][0 := Leaving] == map[0 := Leaving]
    ensures map[0 := Acting][0 := Logging] == map[0 := Logging]
    ensures map[0 := Leaving] - {0} == map[] && map[0 := job] - {0} == map[]
    ensures map[][0 := Acting] == map[0 := Acting] && map[][0 := next] == map[0 := next]
  {
  }

  /** A task is queued, logging panics, ... */
  lemma PanicEnds(cfg: Config, w: World, job: nat, queue: seq<nat>, n: nat) returns (w': World)
    requires cfg.logPanics && |queue| < P.Backlog(cfg.maxBacklog)
    requires Scene(cfg, w, map[0 := Logging], map[0 := job], queue, n, None)
    ensures Scene(cfg, w', map[0 := Logging][0 := Leaving], map[0 := job], queue + [n], n + 1, None)
  {
    w' := Submits(cfg, w, map[0 := Logging], map[0 := job], queue, n);
    w' := Panics(cfg, w', map[0 := Logging], map[0 := job], queue + [n], n + 1, Some(n), 0);
  }

  /** ... and the worker is idle again, with no job current. */
  lemma PanicFrees(cfg: Config, w: World, job: nat, queue: seq<nat>, n: nat) returns (w': World)
    requires cfg.logPanics && 0 in AllOf(cfg) && |queue| < P.Backlog(cfg.maxBacklog)
    requires Scene(cfg, w, map[0 := Logging], map[0 := job], queue, n, None)
    ensures Scene(cfg, w', map[], map[], queue + [n], n + 1, None)
  {
    LoneEntry(job, n);
    w' := PanicEnds(cfg, w, job, queue, n);
    w' := Leaves(cfg, w', map[0 := Leaving], map[0 := job], queue + [n], n + 1, None, 0);
  }

  /** The freed worker takes the oldest task, and a job is started meanwhile, ... */
  lemma FreedTakes(cfg: Config, w: World, queue: seq<nat>, n: nat) returns (w': World)
    requires 0 in AllOf(cfg) && 0 < |queue| < P.Backlog(cfg.maxBacklog)
    requires Scene(cfg, w, map[], map[], queue, n, None)
    ensures Scene(cfg, w', map[0 := Acting], map[0 := queue[0]], queue[1..] + [n], n + 1, Some(n))
  {
    w' := Submits(cfg, w, map[], map[], queue, n);
    w' := Takes(cfg, w', map[], map[], queue + [n], n + 1, Some(n), 0);
    LoneEntry(n, queue[0]);
    assert (queue + [n])[1..] == queue[1..] + [n];
  }

  /** ... which it completes. */
  lemma PileGrows(cfg: Config, w: World, queue: seq<nat>, n: nat) returns (w': World)
    requires 0 in AllOf(cfg) && 0 < |queue| < P.Backlog(cfg.maxBacklog)
    requires Scene(cfg, w, map[], map[], queue, n, None)
    ensures Piled(cfg, w', |queue|)
  {
    w' := FreedTakes(cfg, w, queue, n);
    var rest := queue[1..] + [n];
    w' := Completes(cfg, w', map[0 := Acting], map[0 := queue[0]], rest, n + 1, Some(n), 0);
    LoneEntry(n, n);
    assert Scene(cfg, w', map[0 := Logging], map[0 := queue[0]], rest, n + 1, None);
  }

  lemma {:induction false} PilesUp(cfg: Config, k: nat) returns (w: World)
    requires cfg.logPanics && 0 in AllOf(cfg) && k < P.Backlog(cfg.maxBacklog)
    ensures Piled(cfg, w, k)
  {
    if k == 0 {
      w := FirstLogs(cfg, 0);
      assert Scene(cfg, w, map[0 := Logging], map[0 := 0], [], 1, None);
    } else {
      w := PilesUp(cfg, k - 1);
      var job, queue, n :| Scene(cfg, w, map[0 := Logging], map[0 := job], queue, n, None) && |queue| == k - 1;
      w := PanicFrees(cfg, w, job, queue, n);
      w := PileGrows(cfg, w, queue + [n], n + 1);
    }
  }

  lemma FullAtSend(cfg: Config, w: World, queue: seq<nat>, n: nat)
    requires Scene(cfg, w, map[], map[], queue, n, None) && |queue| == P.Backlog(cfg.maxBacklog)
    ensures !AlwaysRoomy(cfg)
  {
    var w' := Starts(cfg, w, map[], map[], queue, n);
    BelowIff(n, n);
    w' := Checks(cfg, w', n);
    assert Enabled(cfg, w', Handle(n, SendFull));
    var steps := SomeRun(cfg, w');
  }

  lemma PileFills(cfg: Config) returns (w: World, queue: seq<nat>, n: nat)
    requires cfg.logPanics && 0 in AllOf(cfg)
    ensures Scene(cfg, w, map[], map[], queue, n, None) && |queue| == P.Backlog(cfg.maxBacklog)
  {
    w := PilesUp(cfg, P.Backlog(cfg.maxBacklog) - 1);
    var job;
    job, queue, n :| Scene(cfg, w, map[0 := Logging], map[0 := job], queue, n, None)
                  && |queue| == P.Backlog(cfg.maxBacklog) - 1;
    w := PanicFrees(cfg, w, job, queue, n);
    queue, n := queue + [n], n + 1;
  }

  lemma LogPanicsFill(cfg: Config)
    requires cfg.logPanics
    ensures !AlwaysRoomy(cfg)
  {
    BelowIff(P.Workers(cfg.workers), 0);
    var w, queue, n := PileFills(cfg);
    FullAtSend(cfg, w, queue, n);
  }

  /** No submission finds the queue full on any run, whatever the backlog, exactly if logging
      after the completion cannot panic. */
  lemma RoomyIff(cfg: Config)
    ensures AlwaysRoomy(cfg) <==> !cfg.logPanics
  {
    if cfg.logPanics {
      LogPanicsFill(cfg);
    } else {
      forall steps, r | ValidRun(cfg, steps)
        ensures !Enabled(cfg, Run(cfg, steps), Handle(r, SendFull))
      {
        NeverFull(cfg, steps, r);
      }
    }
  }
}
