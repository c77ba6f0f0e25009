/** The worker pool: a bounded FIFO queue drained by a fixed number of workers. Every
    channel operation, every critical section and every turn of a worker is one step; a
    task is known by the number of its submission. */
module WorkerPool {
  import opened Common
  import S = JobStore

  datatype Kind = Submit | SubmitWait

  datatype Taken = Taken(task: nat, worker: nat)

  /** What the Shutdown call that set the flag has returned. */
  datatype Outcome = NotYet | Nil | TimedOut

  datatype Pool = Pool(
    workers: nat,
    maxBacklog: nat,
    queue: seq<nat>,
    pending: map<nat, Kind>,
    seen: set<nat>,
    idle: set<nat>,
    running: map<nat, nat>,
    unwinding: set<nat>,
    exited: set<nat>,
    shutdown: bool,
    closed: bool,
    canceled: bool,
    outcome: Outcome,
    accepted: seq<nat>,
    taken: seq<Taken>,
    finished: seq<nat>)

  datatype Step =
    | CheckFlag(task: nat, kind: Kind)
    | Send(task: nat)
    | SendFull(task: nat)
    | SendTimeout(task: nat)
    | SendOnClosed(task: nat)
    | Take(worker: nat)
    | EndTask(worker: nat)
    | PanicTask(worker: nat)
    | Recover(worker: nat)
    | Exit(worker: nat)
    | MarkShutdown
    | ShutdownAgain
    | CloseTasks
    | ReturnNil
    | Cancel

  /** Non-positive arguments of NewPool stand for the defaults. */
  function Workers(workers: int): nat {
    if workers <= 0 then 10 else workers
  }

  function Backlog(maxBacklog: int): nat {
    if maxBacklog <= 0 then 100 else maxBacklog
  }

  function NewPool(workers: int, maxBacklog: int): Pool {
    Pool(Workers(workers), Backlog(maxBacklog), [], map[], {}, Below(Workers(workers)), map[], {}, {},
         false, false, false, NotYet, [], [], [])
  }

  /** A submission ends after its check in exactly one of the four send steps: accepted, full,
      timed out, or a panic on the closed channel. A task returns, or it panics and unwinds
      to the recovery of its worker. A worker may exit once the channel is closed and drained,
      or at any time after the cancellation. */
  predicate Enabled(p: Pool, st: Step) {
    match st
    case CheckFlag(t, _) => t !in p.seen
    case Send(t) => t in p.pending && !p.closed && |p.queue| < p.maxBacklog
    case SendFull(t) => t in p.pending && p.pending[t].Submit? && !p.closed && |p.queue| >= p.maxBacklog
    case SendTimeout(t) => t in p.pending && p.pending[t].SubmitWait?
    case SendOnClosed(t) => t in p.pending && p.closed
    case Take(w) => w in p.idle && p.queue != []
    case EndTask(w) => w in p.running && w !in p.unwinding
    case PanicTask(w) => w in p.running && w !in p.unwinding
    case Recover(w) => w in p.running && w in p.unwinding
    case Exit(w) => w in p.idle && (p.canceled || (p.closed && p.queue == []))
    case MarkShutdown => !p.shutdown
    case ShutdownAgain => p.shutdown
    case CloseTasks => p.shutdown && !p.closed
    case ReturnNil => p.closed && p.outcome.NotYet? && p.exited == Below(p.workers)
    case Cancel => p.closed && p.outcome.NotYet?
  }

  /** The worker is done with its task and goes around its loop. */
  function Freed(p: Pool, w: nat): Pool
    requires w in p.running
  {
    p.(idle := p.idle + {w}, running := p.running - {w}, finished := p.finished + [p.running[w]])
  }

  function Apply(p: Pool, st: Step): Pool
    requires Enabled(p, st)
  {
    match st
    case CheckFlag(t, kind) =>
      p.(seen := p.seen + {t}, pending := if p.shutdown then p.pending else p.pending[t := kind])
    case Send(t) => p.(pending := p.pending - {t}, queue := p.queue + [t], accepted := p.accepted + [t])
    case SendFull(t) => p.(pending := p.pending - {t})
    case SendTimeout(t) => p.(pending := p.pending - {t})
    case SendOnClosed(t) => p.(pending := p.pending - {t})
    case Take(w) =>
      p.(queue := p.queue[1..], idle := p.idle - {w}, running := p.running[w := p.queue[0]],
         taken := p.taken + [Taken(p.queue[0], w)])
    case EndTask(w) => Freed(p, w)
    case PanicTask(w) => p.(unwinding := p.unwinding + {w})
    case Recover(w) => Freed(p, w).(unwinding := p.unwinding - {w})
    case Exit(w) => p.(idle := p.idle - {w}, exited := p.exited + {w})
    case MarkShutdown => p.(shutdown := true)
    case ShutdownAgain => p
    case CloseTasks => p.(closed := true)
    case ReturnNil => p.(outcome := Nil)
    case Cancel => p.(canceled := true, outcome := TimedOut)
  }

  // ---- the invariant ----

  function Tasks(taken: seq<Taken>): (tasks: seq<nat>)
    ensures |tasks| == |taken| && forall i :: 0 <= i < |taken| ==> tasks[i] == taken[i].task
  {
    seq(|taken|, i requires 0 <= i < |taken| => taken[i].task)
  }

  /** The accepted tasks are those taken, in the order of acceptance, and then the queue. */
  ghost predicate QueueKept(p: Pool) {
    && p.accepted == Tasks(p.taken) + p.queue && S.NoRepeats(p.accepted)
    && |p.queue| <= p.maxBacklog
    && (forall t :: t in p.accepted ==> t in p.seen && t !in p.pending)
    && (forall t :: t in p.pending ==> t in p.seen)
  }

  predicate Parts(a: set<nat>, b: set<nat>, c: set<nat>, all: set<nat>) {
    a !! b && a !! c && b !! c && a + b + c == all
  }

  /** Every worker is idle, running one task or gone; only a running task unwinds. */
  ghost predicate WorkersKept(p: Pool) {
    && Parts(p.idle, p.running.Keys, p.exited, Below(p.workers)) && p.unwinding <= p.running.Keys
    && p.workers >= 1 && p.maxBacklog >= 1
  }

  /** The taken tasks split into those running, each on the worker that took it, and those finished. */
  ghost predicate TasksKept(p: Pool) {
    && (forall w :: w in p.running ==> Taken(p.running[w], w) in p.taken && p.running[w] !in p.finished)
    && (forall v, w :: v in p.running && w in p.running && v != w ==> p.running[v] != p.running[w])
    && (forall k :: k in p.taken ==> k.task in p.finished || (k.worker in p.running && p.running[k.worker] == k.task))
    && (forall t :: t in p.finished ==> t in Tasks(p.taken)) && S.NoRepeats(p.finished)
    && |p.taken| == |p.running| + |p.finished|
  }

  ghost predicate FlagsKept(p: Pool) {
    && (p.closed ==> p.shutdown) && (p.canceled <==> p.outcome.TimedOut?)
    && (!p.outcome.NotYet? ==> p.closed)
    && (p.outcome.Nil? ==> p.exited == Below(p.workers))
    && (p.exited != {} && !p.canceled ==> p.closed && p.queue == [])
  }

  ghost predicate Inv(p: Pool) {
    QueueKept(p) && WorkersKept(p) && TasksKept(p) && FlagsKept(p)
  }

  lemma NewPoolInv(workers: int, maxBacklog: int)
    ensures Inv(NewPool(workers, maxBacklog))
  {
  }

  lemma SendQueue(p: Pool, t: nat)
    requires QueueKept(p) && Enabled(p, Send(t))
    ensures QueueKept(Apply(p, Send(t)))
  {
    assert Tasks(p.taken) + p.queue + [t] == Tasks(p.taken) + (p.queue + [t]);
  }

  lemma TakeQueue(p: Pool, w: nat)
    requires QueueKept(p) && Enabled(p, Take(w))
    ensures QueueKept(Apply(p, Take(w)))
  {
    var p' := Apply(p, Take(w));
    assert Tasks(p'.taken) == Tasks(p.taken) + [p.queue[0]];
    assert p.queue == [p.queue[0]] + p.queue[1..];
    assert p'.accepted == Tasks(p'.taken) + p'.queue;
  }

  lemma QueuedNotTaken(p: Pool)
    requires QueueKept(p) && p.queue != []
    ensures p.queue[0] !in Tasks(p.taken)
  {
    assert p.accepted[|p.taken|] == p.queue[0];
    assert forall i :: 0 <= i < |p.taken| ==> Tasks(p.taken)[i] == p.accepted[i];
  }

  lemma TakenTask(p: Pool, w: nat)
    requires TasksKept(p) && w in p.running
    ensures p.running[w] in Tasks(p.taken)
  {
    var i :| 0 <= i < |p.taken| && p.taken[i] == Taken(p.running[w], w);
    assert Tasks(p.taken)[i] == p.running[w];
  }

  /** A new task `t` on the idle worker `w`. */
  lemma RunningGrows(p: Pool, p': Pool, w: nat, t: nat)
    requires TasksKept(p) && w !in p.running && t !in Tasks(p.taken)
    requires p'.running == p.running[w := t] && p'.taken == p.taken + [Taken(t, w)] && p'.finished == p.finished
    ensures TasksKept(p')
  {
    assert t !in p.finished;
    forall v | v in p.running
      ensures p.running[v] != t
    {
      TakenTask(p, v);
    }
    assert |p'.running| == |p.running| + 1;
    assert Tasks(p'.taken) == Tasks(p.taken) + [t];
    assert p'.taken[|p.taken|] == Taken(t, w);
  }

  /** The worker `w` is done with its task. */
  lemma RunningShrinks(p: Pool, p': Pool, w: nat)
    requires TasksKept(p) && w in p.running
    requires p'.running == p.running - {w} && p'.taken == p.taken && p'.finished == p.finished + [p.running[w]]
    ensures TasksKept(p')
  {
    var t := p.running[w];
    TakenTask(p, w);
    assert |p'.running| == |p.running| - 1;
    assert t in p'.finished by {
      assert p'.finished[|p.finished|] == t;
    }
    forall x | x in p'.finished
      ensures x in p.finished || x == t
    {
    }
    forall x | x in p.finished
      ensures x in p'.finished
    {
      var i :| 0 <= i < |p.finished| && p.finished[i] == x;
      assert p'.finished[i] == x;
    }
  }

  lemma Moved(a: set<nat>, b: set<nat>, c: set<nat>, all: set<nat>, x: nat)
    requires Parts(a, b, c, all) && x in a
    ensures Parts(a - {x}, b + {x}, c, all)
  {
  }

  lemma TakeWorkers(p: Pool, w: nat)
    requires WorkersKept(p) && Enabled(p, Take(w))
    ensures WorkersKept(Apply(p, Take(w)))
  {
    Moved(p.idle, p.running.Keys, p.exited, Below(p.workers), w);
    assert Apply(p, Take(w)).running.Keys == p.running.Keys + {w};
  }

  lemma EndWorkers(p: Pool, st: Step)
    requires WorkersKept(p) && Enabled(p, st) && (st.EndTask? || st.Recover?)
    ensures WorkersKept(Apply(p, st))
  {
    var w := st.worker;
    var idle, busy, gone, all := p.idle, p.running.Keys, p.exited, Below(p.workers);
    SwapParts(idle, busy, gone, all);
    Moved(busy, idle, gone, all, w);
    SwapParts(busy - {w}, idle + {w}, gone, all);
    assert Apply(p, st).running.Keys == busy - {w};
  }

  lemma ExitWorkers(p: Pool, w: nat)
    requires WorkersKept(p) && Enabled(p, Exit(w))
    ensures WorkersKept(Apply(p, Exit(w)))
  {
    var idle, busy, gone, all := p.idle, p.running.Keys, p.exited, Below(p.workers);
    RotateParts(idle, busy, gone, all);
    Moved(idle, gone, busy, all, w);
    RotateParts(idle - {w}, gone + {w}, busy, all);
  }

  lemma StepWorkers(p: Pool, st: Step)
    requires WorkersKept(p) && Enabled(p, st)
    ensures WorkersKept(Apply(p, st))
  {
    match st
    case Take(w) => TakeWorkers(p, w);
    case EndTask(_) => EndWorkers(p, st);
    case Recover(_) => EndWorkers(p, st);
    case Exit(w) => ExitWorkers(p, w);
    case _ =>
  }

  lemma SwapParts(a: set<nat>, b: set<nat>, c: set<nat>, all: set<nat>)
    requires Parts(a, b, c, all)
    ensures Parts(b, a, c, all)
  {
  }

  lemma RotateParts(a: set<nat>, b: set<nat>, c: set<nat>, all: set<nat>)
    requires Parts(a, b, c, all)
    ensures Parts(a, c, b, all)
  {
  }

  lemma StepQueue(p: Pool, st: Step)
    requires QueueKept(p) && Enabled(p, st)
    ensures QueueKept(Apply(p, st))
  {
    match st
    case Send(t) => SendQueue(p, t);
    case Take(w) => TakeQueue(p, w);
    case _ =>
  }

  lemma TakeTasks(p: Pool, w: nat)
    requires QueueKept(p) && TasksKept(p) && Enabled(p, Take(w)) && w !in p.running
    ensures TasksKept(Apply(p, Take(w)))
  {
    QueuedNotTaken(p);
    RunningGrows(p, Apply(p, Take(w)), w, p.queue[0]);
  }

  lemma FreedTasks(p: Pool, p': Pool, w: nat)
    requires TasksKept(p) && w in p.running
    requires p' == Freed(p, w) || p' == Freed(p, w).(unwinding := p.unwinding - {w})
    ensures TasksKept(p')
  {
    RunningShrinks(p, p', w);
  }

  lemma IdleNotRunning(p: Pool, st: Step)
    requires WorkersKept(p) && Enabled(p, st) && st.Take?
    ensures st.worker !in p.running
  {
  }

  lemma StepTasks(p: Pool, st: Step)
    requires QueueKept(p) && WorkersKept(p) && TasksKept(p) && Enabled(p, st)
    ensures TasksKept(Apply(p, st))
  {
    match st
    case Take(w) =>
      IdleNotRunning(p, st);
      TakeTasks(p, w);
    case EndTask(w) => FreedTasks(p, Apply(p, st), w);
    case Recover(w) => FreedTasks(p, Apply(p, st), w);
    case _ =>
      OtherLogs(p, st);
      SameTasks(p, Apply(p, st));
  }

  lemma OtherLogs(p: Pool, st: Step)
    requires Enabled(p, st) && !st.Take? && !st.EndTask? && !st.Recover?
    ensures var p' := Apply(p, st); p'.running == p.running && p'.taken == p.taken && p'.finished == p.finished
  {
  }

  lemma SameTasks(p: Pool, p': Pool)
    requires TasksKept(p) && p'.running == p.running && p'.taken == p.taken && p'.finished == p.finished
    ensures TasksKept(p')
  {
  }

  lemma StepFlags(p: Pool, st: Step)
    requires WorkersKept(p) && FlagsKept(p) && Enabled(p, st)
    ensures FlagsKept(Apply(p, st))
  {
    if st.Exit? && p.outcome.Nil? {
      assert false;
    }
  }

  lemma StepKeeps(p: Pool, st: Step)
    requires Inv(p) && Enabled(p, st)
    ensures Inv(Apply(p, st))
  {
    StepQueue(p, st);
    StepWorkers(p, st);
    StepTasks(p, st);
    StepFlags(p, st);
  }

  /** Flags that are set stay set. */
  lemma FlagsStay(p: Pool, st: Step)
    requires Enabled(p, st)
    ensures p.shutdown ==> Apply(p, st).shutdown
    ensures p.closed ==> Apply(p, st).closed
    ensures p.canceled ==> Apply(p, st).canceled
  {
  }

  // ---- runs ----

  ghost predicate ValidRun(p: Pool, steps: seq<Step>)
    decreases |steps|, 0
  {
    steps != [] ==> ValidRun(p, Init(steps)) && Enabled(Run(p, Init(steps)), Last(steps))
  }

  ghost function Run(p: Pool, steps: seq<Step>): Pool
    requires ValidRun(p, steps)
    decreases |steps|, 1
  {
    if steps == [] then p else Apply(Run(p, Init(steps)), Last(steps))
  }

  lemma {:induction false} RunKeeps(p: Pool, steps: seq<Step>)
    requires Inv(p) && ValidRun(p, steps)
    ensures Inv(Run(p, steps))
  {
    if steps != [] {
      RunKeeps(p, Init(steps));
      StepKeeps(Run(p, Init(steps)), Last(steps));
    }
  }

  /** On every run of a new pool: accepted tasks are taken in the order of acceptance and
      the rest is queued; taken tasks are running or finished, never both; the queue and the
      running tasks keep within their bounds. */
  lemma QueueConservation(workers: int, maxBacklog: int, steps: seq<Step>)
    requires ValidRun(NewPool(workers, maxBacklog), steps)
    ensures var p := Run(NewPool(workers, maxBacklog), steps);
            && p.accepted == Tasks(p.taken) + p.queue
            && |p.queue| <= Backlog(maxBacklog)
            && |p.taken| == |p.running| + |p.finished|
            && (forall t :: t in Tasks(p.taken) <==> t in p.running.Values || t in p.finished)
            && p.running.Values !! (set t | t in p.finished)
            && |p.running| <= |p.idle + p.running.Keys| <= Workers(workers)
  {
    NewPoolInv(workers, maxBacklog);
    RunKeeps(NewPool(workers, maxBacklog), steps);
    var p := Run(NewPool(workers, maxBacklog), steps);
    ConservationOf(p);
    RunKeepsSize(NewPool(workers, maxBacklog), steps);
  }

  lemma {:induction false} RunKeepsSize(p: Pool, steps: seq<Step>)
    requires ValidRun(p, steps)
    ensures Run(p, steps).workers == p.workers && Run(p, steps).maxBacklog == p.maxBacklog
  {
    if steps != [] {
      RunKeepsSize(p, Init(steps));
      StepKeepsSize(Run(p, Init(steps)), Last(steps));
    }
  }

  lemma StepKeepsSize(p: Pool, st: Step)
    requires Enabled(p, st)
    ensures Apply(p, st).workers == p.workers && Apply(p, st).maxBacklog == p.maxBacklog
  {
  }

  lemma ConservationOf(p: Pool)
    requires Inv(p)
    ensures forall t :: t in Tasks(p.taken) <==> t in p.running.Values || t in p.finished
    ensures p.running.Values !! (set t | t in p.finished)
    ensures |p.running| <= |p.idle + p.running.Keys| <= p.workers
  {
    forall t | t in Tasks(p.taken)
      ensures t in p.running.Values || t in p.finished
    {
      var i :| 0 <= i < |p.taken| && Tasks(p.taken)[i] == t;
      assert p.taken[i] in p.taken;
    }
    forall t | t in p.running.Values
      ensures t in Tasks(p.taken)
    {
      var w :| w in p.running && p.running[w] == t;
      TakenTask(p, w);
    }
    assert |p.running| == |p.running.Keys|;
    SubsetSmaller(p.running.Keys, p.idle + p.running.Keys);
    SubsetSmaller(p.idle + p.running.Keys, Below(p.workers));
    CountBelow(p.workers);
  }

  // ---- what a clean shutdown means ----

  /** `t` has been taken by one worker only, and has ended. */
  ghost predicate RunOnce(p: Pool, t: nat) {
    && t in p.finished
    && exists w :: Taken(t, w) in p.taken && forall k :: k in p.taken && k.task == t ==> k.worker == w
  }

  /** When the Shutdown call that set the flag has returned nil, every accepted task has been
      run by exactly one worker, whether it panicked or not, and the queue is empty. */
  lemma ShutdownComplete(workers: int, maxBacklog: int, steps: seq<Step>)
    requires ValidRun(NewPool(workers, maxBacklog), steps)
    requires Run(NewPool(workers, maxBacklog), steps).outcome.Nil?
    ensures var p := Run(NewPool(workers, maxBacklog), steps);
            p.queue == [] && forall t :: t in p.accepted ==> RunOnce(p, t)
  {
    NewPoolInv(workers, maxBacklog);
    RunKeeps(NewPool(workers, maxBacklog), steps);
    var p := Run(NewPool(workers, maxBacklog), steps);
    NilMeansDrained(p);
    forall t | t in p.accepted
      ensures RunOnce(p, t)
    {
      TakenOnce(p, t);
    }
  }

  lemma RunningSeen(p: Pool, w: nat)
    requires QueueKept(p) && TasksKept(p) && w in p.running
    ensures p.running[w] in p.seen
  {
    TakenTask(p, w);
    var i :| 0 <= i < |p.taken| && Tasks(p.taken)[i] == p.running[w];
    assert p.accepted[i] == p.running[w];
  }

  lemma NilMeansDrained(p: Pool)
    requires WorkersKept(p) && FlagsKept(p) && p.outcome.Nil?
    ensures p.queue == [] && p.running == map[] && !p.canceled
  {
    assert p.workers - 1 in Below(p.workers);
    assert p.exited != {};
    assert p.running.Keys == {};
  }

  /** A task is in the log of taken tasks once. */
  lemma TakenAt(p: Pool, i: nat, k: Taken)
    requires p.accepted == Tasks(p.taken) && S.NoRepeats(p.accepted)
    requires i < |p.taken| && k in p.taken && k.task == p.taken[i].task
    ensures k == p.taken[i]
  {
    var j :| 0 <= j < |p.taken| && p.taken[j] == k;
    assert p.accepted[j] == p.accepted[i];
  }

  lemma EndedUnlessRunning(p: Pool, k: Taken)
    requires TasksKept(p) && p.running == map[] && k in p.taken
    ensures k.task in p.finished
  {
  }

  lemma TakenOnce(p: Pool, t: nat)
    requires QueueKept(p) && TasksKept(p) && p.queue == [] && p.running == map[] && t in p.accepted
    ensures RunOnce(p, t)
  {
    assert p.accepted == Tasks(p.taken);
    var i :| 0 <= i < |p.taken| && Tasks(p.taken)[i] == t;
    var w := p.taken[i].worker;
    assert p.taken[i] in p.taken;
    EndedUnlessRunning(p, p.taken[i]);
    forall k | k in p.taken && k.task == t
      ensures k.worker == w
    {
      TakenAt(p, i, k);
    }
    assert Taken(t, w) in p.taken;
  }

  /** On every run of a new pool that ends with this return of nil from Shutdown, the queue is
      empty and every accepted task has been run by exactly one worker. */
  ghost predicate NilMeansRun(workers: int, maxBacklog: int, kind: Step) {
    forall steps: seq<Step> ::
      steps != [] && Last(steps) == kind && ValidRun(NewPool(workers, maxBacklog), steps) ==>
        var p := Run(NewPool(workers, maxBacklog), steps);
        p.queue == [] && forall t :: t in p.accepted ==> RunOnce(p, t)
  }

  /** A task is queued, and another Shutdown call returns nil at once. */
  lemma LaterShutdownLeavesTask(workers: int, maxBacklog: int)
    ensures !NilMeansRun(workers, maxBacklog, ShutdownAgain)
  {
    var p := NewPool(workers, maxBacklog);
    var s0: seq<Step> := [];
    var s1 := s0 + [CheckFlag(0, Submit)];
    Extend(p, s0, CheckFlag(0, Submit));
    Extend(p, s1, Send(0));
    var s2 := s1 + [Send(0)];
    Extend(p, s2, MarkShutdown);
    var s3 := s2 + [MarkShutdown];
    Extend(p, s3, ShutdownAgain);
    var s4 := s3 + [ShutdownAgain];
    assert Last(s4) == ShutdownAgain && ValidRun(p, s4) && Run(p, s4).queue == [0];
  }

  lemma FirstShutdownLeavesNone(workers: int, maxBacklog: int)
    ensures NilMeansRun(workers, maxBacklog, ReturnNil)
  {
    forall steps: seq<Step>
      | steps != [] && Last(steps) == ReturnNil && ValidRun(NewPool(workers, maxBacklog), steps)
      ensures var p := Run(NewPool(workers, maxBacklog), steps);
              p.queue == [] && forall t :: t in p.accepted ==> RunOnce(p, t)
    {
      ShutdownComplete(workers, maxBacklog, steps);
    }
  }

  /** Shutdown returns nil in two ways. For every size of the pool, nil means that every
      accepted task has been run exactly for the call that set the flag. */
  lemma NilMeansRunIff(workers: int, maxBacklog: int, kind: Step)
    requires kind.ReturnNil? || kind.ShutdownAgain?
    ensures NilMeansRun(workers, maxBacklog, kind) <==> kind.ReturnNil?
  {
    if kind.ReturnNil? {
      FirstShutdownLeavesNone(workers, maxBacklog);
    } else {
      LaterShutdownLeavesTask(workers, maxBacklog);
    }
  }

  lemma Extend(p: Pool, steps: seq<Step>, st: Step)
    requires ValidRun(p, steps) && Enabled(Run(p, steps), st)
    ensures ValidRun(p, steps + [st]) && Run(p, steps + [st]) == Apply(Run(p, steps), st)
  {
    assert Init(steps + [st]) == steps;
  }

  // ---- panics cost no worker ----

  /** Workers that exited along a run. */
  function Exits(steps: seq<Step>): set<nat> {
    if steps == [] then {}
    else if Last(steps).Exit? then Exits(Init(steps)) + {Last(steps).worker}
    else Exits(Init(steps))
  }

  lemma StepExits(p: Pool, st: Step)
    requires Enabled(p, st)
    ensures Apply(p, st).exited == if st.Exit? then p.exited + {st.worker} else p.exited
  {
  }

  lemma {:induction false} ExitedByExit(workers: int, maxBacklog: int, steps: seq<Step>)
    requires ValidRun(NewPool(workers, maxBacklog), steps)
    ensures Run(NewPool(workers, maxBacklog), steps).exited == Exits(steps)
  {
    if steps != [] {
      ExitedByExit(workers, maxBacklog, Init(steps));
      StepExits(Run(NewPool(workers, maxBacklog), Init(steps)), Last(steps));
    }
  }

  lemma CountParts(p: Pool)
    requires WorkersKept(p)
    ensures |p.idle| + |p.running| + |p.exited| == p.workers
  {
    CountBelow(p.workers);
    assert |p.running| == |p.running.Keys|;
    assert |p.idle + p.running.Keys + p.exited| == |p.idle| + |p.running.Keys| + |p.exited|;
  }

  lemma NoExitWhileOpen(p: Pool)
    requires FlagsKept(p) && !p.closed
    ensures p.exited == {}
  {
  }

  /** On every run, whichever tasks panic: the workers that are gone are those that exited by
      themselves, all others are idle, running or unwinding, and none is gone while the channel
      is open. */
  lemma PanicKeepsWorkers(workers: int, maxBacklog: int, steps: seq<Step>)
    requires ValidRun(NewPool(workers, maxBacklog), steps)
    ensures var p := Run(NewPool(workers, maxBacklog), steps);
            && p.exited == Exits(steps)
            && |p.idle| + |p.running| + |p.exited| == Workers(workers)
            && p.unwinding <= p.running.Keys
            && (!p.closed ==> |p.idle| + |p.running| == Workers(workers))
  {
    var start := NewPool(workers, maxBacklog);
    var p := Run(start, steps);
    ExitedByExit(workers, maxBacklog, steps);
    NewPoolInv(workers, maxBacklog);
    RunKeeps(start, steps);
    RunKeepsSize(start, steps);
    CountParts(p);
    if !p.closed {
      NoExitWhileOpen(p);
    }
  }

  // ---- the workers stop ----

  predicate WorkerStep(st: Step) {
    st.Take? || st.EndTask? || st.PanicTask? || st.Recover? || st.Exit?
  }

  /** Work left to the workers once the channel is closed. */
  function Measure(p: Pool): nat {
    4 * |p.queue| + 2 * |p.running| + |p.running.Keys - p.unwinding| + |p.idle|
  }

  lemma MeasureDecreases(p: Pool, st: Step)
    requires WorkersKept(p) && p.closed && Enabled(p, st)
    ensures Apply(p, st).closed
    ensures if WorkerStep(st) then Measure(Apply(p, st)) < Measure(p) else Measure(Apply(p, st)) == Measure(p)
  {
    FlagsStay(p, st);
    if WorkerStep(st) {
      WorkerMeasure(p, st);
    } else {
      OtherMeasure(p, st);
    }
  }

  lemma WorkerMeasure(p: Pool, st: Step)
    requires WorkersKept(p) && Enabled(p, st) && WorkerStep(st)
    ensures Measure(Apply(p, st)) < Measure(p)
  {
    match st
    case Take(w) => TakeMeasure(p, w);
    case EndTask(w) => EndMeasure(p, w);
    case PanicTask(w) => PanicMeasure(p, w);
    case Recover(w) => RecoverMeasure(p, w);
    case Exit(w) => ExitMeasure(p, w);
  }

  lemma ExitMeasure(p: Pool, w: nat)
    requires Enabled(p, Exit(w))
    ensures Measure(Apply(p, Exit(w))) == Measure(p) - 1
  {
  }

  lemma OtherMeasure(p: Pool, st: Step)
    requires !WorkerStep(st) && p.closed && Enabled(p, st)
    ensures var p' := Apply(p, st);
            && p'.queue == p.queue && p'.running == p.running
            && p'.unwinding == p.unwinding && p'.idle == p.idle
  {
  }

  /** How one worker changes the number of those running and not unwinding. */
  lemma OneBusy(busy: set<nat>, unwinding: set<nat>, w: nat)
    requires unwinding <= busy
    ensures w !in busy ==> |(busy + {w}) - unwinding| == |busy - unwinding| + 1
    ensures w in busy && w !in unwinding ==> |(busy - {w}) - unwinding| == |busy - unwinding| - 1
    ensures w in busy && w !in unwinding ==> |busy - (unwinding + {w})| == |busy - unwinding| - 1
    ensures w in unwinding ==> (busy - {w}) - (unwinding - {w}) == busy - unwinding
  {
    assert w !in busy ==> (busy + {w}) - unwinding == (busy - unwinding) + {w};
    assert (busy - {w}) - unwinding == (busy - unwinding) - {w};
    assert busy - (unwinding + {w}) == (busy - unwinding) - {w};
  }

  lemma TakeParts(p: Pool, w: nat)
    requires Enabled(p, Take(w))
    ensures var p' := Apply(p, Take(w));
            && p'.running == p.running[w := p.queue[0]] && p'.running.Keys == p.running.Keys + {w}
            && p'.unwinding == p.unwinding && |p'.queue| == |p.queue| - 1 && |p'.idle| == |p.idle| - 1
  {
  }

  lemma TakeMeasure(p: Pool, w: nat)
    requires WorkersKept(p) && Enabled(p, Take(w))
    ensures Measure(Apply(p, Take(w))) == Measure(p) - 2
  {
    TakeParts(p, w);
    SizeAfterUpdate(p.running, w, p.queue[0]);
    OneBusy(p.running.Keys, p.unwinding, w);
  }

  /** What freeing a worker changes. */
  lemma FreedParts(p: Pool, w: nat)
    requires w in p.running && w !in p.idle
    ensures var p' := Freed(p, w);
            && p'.running == p.running - {w} && p'.running.Keys == p.running.Keys - {w}
            && p'.unwinding == p.unwinding && p'.queue == p.queue && |p'.idle| == |p.idle| + 1
  {
  }

  lemma EndMeasure(p: Pool, w: nat)
    requires WorkersKept(p) && Enabled(p, EndTask(w))
    ensures Measure(Apply(p, EndTask(w))) == Measure(p) - 2
  {
    FreedParts(p, w);
    SizeAfterRemoval(p.running, w);
    OneBusy(p.running.Keys, p.unwinding, w);
  }

  lemma PanicMeasure(p: Pool, w: nat)
    requires WorkersKept(p) && Enabled(p, PanicTask(w))
    ensures Measure(Apply(p, PanicTask(w))) == Measure(p) - 1
  {
    OneBusy(p.running.Keys, p.unwinding, w);
  }

  lemma RecoverMeasure(p: Pool, w: nat)
    requires WorkersKept(p) && Enabled(p, Recover(w))
    ensures Measure(Apply(p, Recover(w))) == Measure(p) - 1
  {
    FreedParts(p, w);
    SizeAfterRemoval(p.running, w);
    OneBusy(p.running.Keys, p.unwinding, w);
  }

  lemma SizeAfterUpdate(m: map<nat, nat>, k: nat, v: nat)
    requires k !in m
    ensures |m[k := v]| == |m| + 1
  {
  }

  lemma SizeAfterRemoval(m: map<nat, nat>, k: nat)
    requires k in m
    ensures |m - {k}| == |m| - 1
  {
    var rest := m - {k};
    assert rest.Keys == m.Keys - {k};
    assert |rest| == |rest.Keys| && |m| == |m.Keys|;
  }

  function WorkerSteps(steps: seq<Step>): nat {
    if steps == [] then 0
    else WorkerSteps(Init(steps)) + if WorkerStep(Last(steps)) then 1 else 0
  }

  lemma {:induction false} WorkerStepsBounded(p: Pool, steps: seq<Step>)
    requires Inv(p) && p.closed && ValidRun(p, steps)
    ensures Run(p, steps).closed && WorkerSteps(steps) + Measure(Run(p, steps)) <= Measure(p)
  {
    if steps != [] {
      WorkerStepsBounded(p, Init(steps));
      RunKeeps(p, Init(steps));
      MeasureDecreases(Run(p, Init(steps)), Last(steps));
    }
  }

  ghost predicate WorkersStuck(p: Pool) {
    forall st :: WorkerStep(st) ==> !Enabled(p, st)
  }

  lemma RunningMoves(p: Pool, w: nat)
    requires w in p.running
    ensures exists st :: WorkerStep(st) && Enabled(p, st)
  {
    var st := if w in p.unwinding then Recover(w) else EndTask(w);
    assert WorkerStep(st) && Enabled(p, st);
  }

  lemma IdleMoves(p: Pool, w: nat)
    requires p.closed && w in p.idle
    ensures exists st :: WorkerStep(st) && Enabled(p, st)
  {
    var st := if p.queue != [] then Take(w) else Exit(w);
    assert WorkerStep(st) && Enabled(p, st);
  }

  /** With the channel closed some worker can move exactly until all have exited. */
  lemma StuckMeansExited(p: Pool)
    requires WorkersKept(p) && p.closed
    ensures WorkersStuck(p) <==> p.exited == Below(p.workers)
  {
    if p.exited != Below(p.workers) {
      if w :| w in p.running.Keys {
        RunningMoves(p, w);
      } else {
        assert p.idle != {};
        var w :| w in p.idle;
        IdleMoves(p, w);
      }
    } else {
      assert p.idle == {} && p.running.Keys == {};
    }
  }

  /** After the channel is closed the workers take a bounded number of steps on any run, and
      once none of them can move all have exited, with or without a cancellation. */
  lemma ShutdownTerminates(p: Pool, steps: seq<Step>)
    requires Inv(p) && p.closed && ValidRun(p, steps)
    ensures WorkerSteps(steps) <= Measure(p)
    ensures WorkersStuck(Run(p, steps)) <==> Run(p, steps).exited == Below(p.workers)
  {
    RunKeeps(p, steps);
    RunKeepsSize(p, steps);
    WorkerStepsBounded(p, steps);
    StuckMeansExited(Run(p, steps));
  }

  // ---- the pool updated in place ----

  /** The entries of the log when one worker takes all of `tasks`. */
  function AllTaken(tasks: seq<nat>, worker: nat): seq<Taken> {
    seq(|tasks|, i requires 0 <= i < |tasks| => Taken(tasks[i], worker))
  }

  /** The pool after worker `w` has run the `n` oldest tasks of the queue. */
  function Turned(p: Pool, w: nat, n: nat): Pool
    requires n <= |p.queue|
  {
    p.(queue := p.queue[n..], taken := p.taken + AllTaken(p.queue[..n], w), finished := p.finished + p.queue[..n])
  }

  /** The pool after worker `w` has left. */
  function Left(p: Pool, w: nat): Pool {
    p.(idle := p.idle - {w}, exited := p.exited + {w})
  }

  lemma TurnIsSteps(p: Pool, w: nat)
    requires w in p.idle && w !in p.running && w !in p.unwinding && p.queue != []
    ensures var p' := Apply(p, Take(w));
            && Apply(p', EndTask(w)) == Turned(p, w, 1)
            && Apply(Apply(p', PanicTask(w)), Recover(w)) == Turned(p, w, 1)
  {
    assert p.running[w := p.queue[0]] - {w} == p.running;
    assert p.idle - {w} + {w} == p.idle;
    assert p.unwinding + {w} - {w} == p.unwinding;
    assert p.queue[..1] == [p.queue[0]];
    assert AllTaken(p.queue[..1], w) == [Taken(p.queue[0], w)];
  }

  lemma TurnsCompose(p: Pool, w: nat, n: nat)
    requires n <= |p.queue|
    ensures n < |p.queue| ==> Turned(Turned(p, w, n), w, 1) == Turned(p, w, n + 1)
    ensures Turned(p, w, 0) == p
    ensures n == |p.queue| <==> Turned(p, w, n).queue == []
  {
    assert AllTaken(p.queue[..0], w) == [] && p.queue[..0] == [];
    if n < |p.queue| {
      OneMore(p.queue, n, w);
      assert p.taken + AllTaken(p.queue[..n], w) + AllTaken(p.queue[n..][..1], w)
          == p.taken + AllTaken(p.queue[..n + 1], w);
      assert p.finished + p.queue[..n] + p.queue[n..][..1] == p.finished + p.queue[..n + 1];
    }
  }

  lemma OneMore(tasks: seq<nat>, n: nat, w: nat)
    requires n < |tasks|
    ensures tasks[n..][1..] == tasks[n + 1..]
    ensures tasks[..n] + tasks[n..][..1] == tasks[..n + 1]
    ensures AllTaken(tasks[..n], w) + AllTaken(tasks[n..][..1], w) == AllTaken(tasks[..n + 1], w)
  {
  }

  lemma {:induction false} TurnsKeep(p: Pool, w: nat, n: nat)
    requires Inv(p) && w in p.idle && n <= |p.queue|
    ensures Inv(Turned(p, w, n)) && w in Turned(p, w, n).idle && w !in p.running && w !in p.unwinding
  {
    if n == 0 {
      TurnsCompose(p, w, 0);
    } else {
      TurnsKeep(p, w, n - 1);
      TurnsCompose(p, w, n - 1);
      TurnKeeps(Turned(p, w, n - 1), w);
    }
  }

  lemma TurnKeeps(p: Pool, w: nat)
    requires Inv(p) && w in p.idle && w !in p.running && w !in p.unwinding && p.queue != []
    ensures Inv(Turned(p, w, 1))
  {
    TurnIsSteps(p, w);
    StepKeeps(p, Take(w));
    StepKeeps(Apply(p, Take(w)), EndTask(w));
  }

  lemma DrainKeeps(p: Pool, w: nat, n: nat)
    requires Inv(p) && w in p.idle && n <= |p.queue|
    ensures Inv(Turned(p, w, n))
    ensures p.canceled || (p.closed && n == |p.queue|) ==> Inv(Left(Turned(p, w, n), w))
  {
    TurnsKeep(p, w, n);
    if p.canceled || (p.closed && n == |p.queue|) {
      StepKeeps(Turned(p, w, n), Exit(w));
    }
  }

  datatype SendResult = Accepted | ErrPoolFull | ErrTimeout | PanicOnClosed
  datatype SubmitResult = SubmitOk | ErrShutdown | ErrFull

  /** The check and the send of Submit with nothing between them. */
  function Submitted(p: Pool, task: nat): Pool
    requires task !in p.seen && (p.closed ==> p.shutdown) && |p.queue| <= p.maxBacklog
  {
    var p' := Apply(p, CheckFlag(task, Kind.Submit));
    if p.shutdown then p' else if |p.queue| < p.maxBacklog then Apply(p', Send(task)) else Apply(p', SendFull(task))
  }

  lemma SubmittedKeeps(p: Pool, task: nat)
    requires Inv(p) && task !in p.seen
    ensures Inv(Submitted(p, task))
  {
    StepKeeps(p, CheckFlag(task, Kind.Submit));
    var p' := Apply(p, CheckFlag(task, Kind.Submit));
    if !p.shutdown {
      StepKeeps(p', if |p.queue| < p.maxBacklog then Send(task) else SendFull(task));
    }
  }

  class WorkerPool {
    const workers: nat
    const maxBacklog: nat
    var tasks: seq<nat>
    var shutdown: bool
    var closed: bool
    var canceled: bool
    ghost var outcome: Outcome
    ghost var pending: map<nat, Kind>
    ghost var seen: set<nat>
    ghost var idle: set<nat>
    var running: map<nat, nat>
    ghost var unwinding: set<nat>
    ghost var exited: set<nat>
    ghost var accepted: seq<nat>
    ghost var taken: seq<Taken>
    ghost var finished: seq<nat>

    ghost function View(): Pool
      reads this
    {
      Pool(workers, maxBacklog, tasks, pending, seen, idle, running, unwinding, exited,
           shutdown, closed, canceled, outcome, accepted, taken, finished)
    }

    constructor (workers: int, maxBacklog: int)
      ensures View() == NewPool(workers, maxBacklog)
      ensures this.workers == if workers > 0 then workers else 10
      ensures this.maxBacklog == if maxBacklog > 0 then maxBacklog else 100
    {
      this.workers := if workers <= 0 then 10 else workers;
      this.maxBacklog := if maxBacklog <= 0 then 100 else maxBacklog;
      tasks, shutdown, closed, canceled, outcome := [], false, false, false, NotYet;
      pending, seen, running, unwinding, exited := map[], {}, map[], {}, {};
      idle := Below(Workers(workers));
      accepted, taken, finished := [], [], [];
    }

    /** The shutdown check of Submit and SubmitWait. */
    method CheckShutdown(task: nat, kind: Kind) returns (refused: bool)
      requires task !in seen
      modifies this
      ensures View() == Apply(old(View()), CheckFlag(task, kind))
      ensures refused == old(shutdown)
    {
      refused := shutdown;
      seen := seen + {task};
      if !shutdown {
        pending := pending[task := kind];
      }
    }

    /** The non-blocking send of Submit. */
    method TrySend(task: nat) returns (r: SendResult)
      requires task in pending && pending[task].Submit?
      modifies this
      ensures var st := match r
                        case Accepted => Send(task)
                        case ErrPoolFull => SendFull(task)
                        case _ => SendOnClosed(task);
              Enabled(old(View()), st) && View() == Apply(old(View()), st)
      ensures r == if closed then PanicOnClosed
                   else if |old(tasks)| < maxBacklog then SendResult.Accepted
                   else ErrPoolFull
      ensures tasks == if r.Accepted? then old(tasks) + [task] else old(tasks)
    {
      pending := pending - {task};
      if closed {
        r := PanicOnClosed;
      } else if |tasks| < maxBacklog {
        tasks := tasks + [task];
        accepted := accepted + [task];
        r := Accepted;
      } else {
        r := ErrPoolFull;
      }
    }

    /** The send of SubmitWait, which waits until the channel or the context is ready; when
        both are, either may be chosen. */
    method WaitSend(task: nat, ctxDone: bool, preferSend: bool) returns (r: SendResult)
      requires task in pending && pending[task].SubmitWait?
      requires closed || |tasks| < maxBacklog || ctxDone
      modifies this
      ensures var st := match r
                        case Accepted => Send(task)
                        case ErrTimeout => SendTimeout(task)
                        case _ => SendOnClosed(task);
              Enabled(old(View()), st) && View() == Apply(old(View()), st)
      ensures r.ErrTimeout? ==> ctxDone
      ensures r.PanicOnClosed? ==> closed
      ensures r.Accepted? ==> !closed && |old(tasks)| < maxBacklog
      ensures tasks == if r.Accepted? then old(tasks) + [task] else old(tasks)
    {
      pending := pending - {task};
      if (closed || |tasks| < maxBacklog) && (preferSend || !ctxDone) {
        if closed {
          return PanicOnClosed;
        }
        tasks := tasks + [task];
        accepted := accepted + [task];
        r := Accepted;
      } else {
        r := ErrTimeout;
      }
    }

    /** Submit without interruption between its two steps never meets the closed channel. */
    method Submit(task: nat) returns (r: SubmitResult)
      requires task !in seen && (closed ==> shutdown) && |tasks| <= maxBacklog
      modifies this
      ensures r.ErrShutdown? <==> old(shutdown)
      ensures r.ErrFull? <==> !old(shutdown) && |old(tasks)| == maxBacklog
      ensures View() == Submitted(old(View()), task)
      ensures tasks == (if r.SubmitOk? then old(tasks) + [task] else old(tasks))
      ensures accepted == (if r.SubmitOk? then old(accepted) + [task] else old(accepted))
    {
      var refused := CheckShutdown(task, Kind.Submit);
      if refused {
        return ErrShutdown;
      }
      var sent := TrySend(task);
      match sent {
        case Accepted => r := SubmitOk;
        case ErrPoolFull => r := ErrFull;
        case _ => assert false;
      }
    }

    /** A worker receives the oldest task. */
    method Receive(worker: nat) returns (task: nat)
      requires worker in idle && tasks != []
      modifies this
      ensures View() == Apply(old(View()), Take(worker)) && task == old(tasks)[0]
    {
      task := tasks[0];
      tasks := tasks[1..];
      idle := idle - {worker};
      running := running[worker := task];
      taken := taken + [Taken(task, worker)];
    }

    /** The task returns. */
    method Done(worker: nat)
      requires worker in running && worker !in unwinding
      modifies this
      ensures View() == Apply(old(View()), EndTask(worker))
    {
      finished := finished + [running[worker]];
      idle := idle + {worker};
      running := running - {worker};
    }

    /** The task panics, ... */
    method Unwind(worker: nat)
      requires worker in running && worker !in unwinding
      modifies this
      ensures View() == Apply(old(View()), PanicTask(worker))
    {
      unwinding := unwinding + {worker};
    }

    /** ... and the deferred recovery keeps the worker going. */
    method Recovered(worker: nat)
      requires worker in running && worker in unwinding
      modifies this
      ensures View() == Apply(old(View()), Recover(worker))
    {
      unwinding := unwinding - {worker};
      finished := finished + [running[worker]];
      idle := idle + {worker};
      running := running - {worker};
    }

    /** One turn of a worker: it receives a task, runs it and is idle again. */
    method RunNext(worker: nat, panics: nat -> bool)
      requires worker in idle && worker !in running && worker !in unwinding && tasks != []
      modifies this
      ensures View() == Turned(old(View()), worker, 1)
    {
      ghost var p := View();
      var task := Receive(worker);
      if panics(task) {
        Unwind(worker);
        Recovered(worker);
      } else {
        Done(worker);
      }
      TurnIsSteps(p, worker);
    }

    /** The loop of a worker that is not interfered with runs queued tasks in order. Once the
        context is done it may stop at any turn, as `preferDone` has it. */
    method RunTasks(worker: nat, panics: nat -> bool, preferDone: nat -> bool) returns (n: nat)
      requires worker in idle && worker !in running && worker !in unwinding
      modifies this
      ensures n <= |old(tasks)| && View() == Turned(old(View()), worker, n)
      ensures n == |old(tasks)| || (canceled && preferDone(n))
    {
      ghost var p := View();
      n := 0;
      TurnsCompose(p, worker, 0);
      while tasks != [] && !(canceled && preferDone(n))
        invariant n <= |p.queue| && View() == Turned(p, worker, n)
        decreases |tasks|
      {
        RunNext(worker, panics);
        TurnsCompose(p, worker, n);
        n := n + 1;
      }
      TurnsCompose(p, worker, n);
    }

    /** The worker leaves when the queue is empty and the channel closed, or when the context is
        done, and else waits for tasks. */
    method Worker(worker: nat, panics: nat -> bool, preferDone: nat -> bool) returns (n: nat, leaves: bool)
      requires worker in idle && worker !in running && worker !in unwinding
      modifies this
      ensures n <= |old(tasks)|
      ensures View() == var p := Turned(old(View()), worker, n); if leaves then Left(p, worker) else p
      ensures n == |old(tasks)| || (canceled && preferDone(n))
      ensures leaves <==> canceled || closed
      ensures Inv(old(View())) ==> Inv(View())
    {
      ghost var p := View();
      n := RunTasks(worker, panics, preferDone);
      leaves := canceled || closed;
      if leaves {
        idle, exited := idle - {worker}, exited + {worker};
      }
      if Inv(p) {
        DrainKeeps(p, worker, n);
      }
    }

    /** Sets the flag; only the first call goes on to close the channel. */
    method MarkForShutdown() returns (first: bool)
      modifies this
      ensures first == !old(shutdown)
      ensures View() == Apply(old(View()), if first then MarkShutdown else ShutdownAgain)
    {
      first := !shutdown;
      shutdown := true;
    }

    method Close()
      requires shutdown && !closed
      modifies this
      ensures View() == Apply(old(View()), CloseTasks)
    {
      closed := true;
    }

    /** The end of Shutdown: nil once every worker has exited, else the timeout cancels the context. */
    method AwaitWorkers(done: bool) returns (ok: bool)
      requires closed && outcome.NotYet? && (done ==> exited == Below(workers))
      modifies this
      ensures ok == done && View() == Apply(old(View()), if ok then ReturnNil else Cancel)
    {
      if done {
        outcome := Nil;
        return true;
      }
      canceled := true;
      outcome := TimedOut;
      ok := false;
    }
  }
}
