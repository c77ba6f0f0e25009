/** When the current job of the pool's handler can still end, whatever panics. It can unless
    nothing is left that would end a job: no worker at it or able to take a task, and no request
    able to submit or to give up. Without panics while logging this leaves two kinds of stuck
    job, one whose request meets the closed channel and one that every worker has left. */
module JobEndings {
  import opened Common
  import opened WebhookPool
  import L = Ledger
  import P = WorkerPool
  import S = JobStore

  // ---- what the pool knows of a request ----

  /** A request that is submitting is pending in the pool, only the closed channel crashes one,
      and no task panics through to its worker. */
  ghost predicate PoolFits(handlers: map<nat, Handler>, p: P.Pool) {
    && (forall r :: r in handlers && handlers[r].Submitting? ==> r in p.pending && p.pending[r].Submit?)
    && (forall r :: r in handlers && handlers[r].Crashed? ==> p.closed)
    && p.unwinding == {}
  }

  lemma HandlePoolFits(cfg: Config, w: World, r: nat, hs: HandlerStep)
    requires PoolFits(w.handlers, w.pool) && Enabled(cfg, w, Handle(r, hs))
    ensures PoolFits(Apply(cfg, w, Handle(r, hs)).handlers, Apply(cfg, w, Handle(r, hs)).pool)
  {
  }

  lemma PoolStepsFit(p: P.Pool, st: P.Step)
    requires P.Enabled(p, st) && (Housekeeping(st) || st.Take? || st.EndTask?)
    ensures P.Apply(p, st).pending == p.pending && P.Apply(p, st).unwinding == p.unwinding
    ensures p.closed ==> P.Apply(p, st).closed
  {
  }

  lemma OtherPoolFits(cfg: Config, w: World, st: Step)
    requires PoolFits(w.handlers, w.pool) && Enabled(cfg, w, st) && !st.Handle?
    ensures PoolFits(Apply(cfg, w, st).handlers, Apply(cfg, w, st).pool)
  {
    if PoolPart(st).Some? {
      PoolStepsFit(w.pool, PoolPart(st).value);
    }
  }

  lemma {:induction false} AlwaysPoolFits(cfg: Config, steps: seq<Step>)
    requires ValidRun(cfg, steps)
    ensures PoolFits(Run(cfg, steps).handlers, Run(cfg, steps).pool)
  {
    if steps != [] {
      AlwaysPoolFits(cfg, Init(steps));
      var w := Run(cfg, Init(steps));
      match Last(steps) {
        case Handle(r, hs) => HandlePoolFits(cfg, w, r, hs);
        case _ => OtherPoolFits(cfg, w, Last(steps));
      }
    }
  }

  // ---- worlds that runs lead to, as far as it matters here ----

  ghost predicate PoolSane(p: P.Pool) {
    && p.maxBacklog >= 1 && (p.closed ==> p.shutdown)
    && P.Parts(p.idle, p.running.Keys, p.exited, Below(p.workers))
    && Below(p.workers) != {} && (p.exited != {} ==> p.closed)
    && (p.exited != {} && !p.canceled ==> p.queue == [])
  }

  ghost predicate NotSeen(handlers: map<nat, Handler>, seen: set<nat>) {
    forall r :: r in handlers && handlers[r].Started? ==> r !in seen
  }

  /** What holds of every world that a run leads to, as far as it matters here. */
  ghost predicate Sane(w: World) {
    && L.Orderly(w.ledger) && PoolFits(w.handlers, w.pool) && PoolSane(w.pool)
    && w.phases.Keys == w.pool.running.Keys && NotSeen(w.handlers, w.pool.seen)
  }

  lemma InvIsSane(p: P.Pool)
    requires P.WorkersKept(p) && P.FlagsKept(p)
    ensures PoolSane(p)
  {
    assert p.workers - 1 in Below(p.workers);
  }

  lemma FitsIsSane(w: World)
    requires Fits(w)
    ensures PoolSane(w.pool) && w.phases.Keys == w.pool.running.Keys && NotSeen(w.handlers, w.pool.seen)
  {
    InvIsSane(w.pool);
  }

  lemma AlwaysSane(cfg: Config, steps: seq<Step>)
    requires ValidRun(cfg, steps)
    ensures Sane(Run(cfg, steps))
  {
    AlwaysOrderly(cfg, steps);
    AlwaysPoolFits(cfg, steps);
    assert Fits(Run(cfg, steps)) by {
      AlwaysFits(cfg, steps);
    }
    FitsIsSane(Run(cfg, steps));
  }

  // ---- a job ends after some more steps ----

  predicate Ended(w: World, r: nat) {
    r in w.ledger.store.finished && w.ledger.store.current.None?
  }

  /** A step of a request or of a worker at its task. */
  predicate OwnStep(st: Step) {
    st.Handle? || st.Work?
  }

  /** At most `n` steps of requests and workers from `w` on end the job `r`. */
  ghost predicate CanEnd(cfg: Config, w: World, r: nat, n: nat)
    decreases n
  {
    Ended(w, r)
    || (n > 0 && exists st :: OwnStep(st) && Enabled(cfg, w, st) && CanEnd(cfg, Apply(cfg, w, st), r, n - 1))
  }

  lemma OneStepMore(cfg: Config, w: World, st: Step, r: nat, n: nat)
    requires OwnStep(st) && Enabled(cfg, w, st) && CanEnd(cfg, Apply(cfg, w, st), r, n)
    ensures CanEnd(cfg, w, r, n + 1)
  {
  }

  predicate IsCurrent(w: World, r: nat) {
    w.ledger.store.current == Some(r) && L.CurrentKnown(w.ledger)
  }

  /** Steps a worker needs to end a job. */
  function Ahead(ph: Phase): nat {
    match ph
    case Entered => 3
    case Acting => 2
    case _ => 1
  }

  predicate Busy(w: World, v: nat) {
    v in w.phases && Working(w.phases[v]) && v in w.pool.running
  }

  function WorkerNext(ph: Phase): WorkerStep {
    match ph
    case Entered => SeeContext(false)
    case Canceled => FailCanceled(0)
    case Acting => ActionReturns
    case Acted => Complete(0)
    case Panicked => FailPanicked(0)
    case Logging => LogReturns
    case Leaving => Leave
  }

  lemma WorkerNextReady(cfg: Config, w: World, v: nat)
    requires v in w.phases && v in w.pool.running && v !in w.pool.unwinding && L.CurrentKnown(w.ledger)
    ensures Enabled(cfg, w, Work(v, WorkerNext(w.phases[v])))
  {
  }

  /** A busy worker ends the current job, whichever it took itself. */
  lemma WorkerAdvances(cfg: Config, w: World, v: nat, r: nat)
    requires IsCurrent(w, r) && Busy(w, v) && Enabled(cfg, w, Work(v, WorkerNext(w.phases[v])))
    ensures var w' := Apply(cfg, w, Work(v, WorkerNext(w.phases[v])));
            if Ahead(w.phases[v]) == 1 then Ended(w', r)
            else IsCurrent(w', r) && Busy(w', v) && Ahead(w'.phases[v]) < Ahead(w.phases[v]) && w'.pool == w.pool
  {
  }

  lemma {:induction false} WorkerCanEnd(cfg: Config, w: World, v: nat, r: nat)
    requires IsCurrent(w, r) && Busy(w, v) && w.pool.unwinding == {}
    ensures exists n :: CanEnd(cfg, w, r, n)
    decreases Ahead(w.phases[v])
  {
    var st := Work(v, WorkerNext(w.phases[v]));
    WorkerNextReady(cfg, w, v);
    WorkerAdvances(cfg, w, v, r);
    var w' := Apply(cfg, w, st);
    if Ahead(w.phases[v]) == 1 {
      assert CanEnd(cfg, w', r, 0);
      OneStepMore(cfg, w, st, r, 0);
    } else {
      WorkerCanEnd(cfg, w', v, r);
      var n :| CanEnd(cfg, w', r, n);
      OneStepMore(cfg, w, st, r, n);
    }
  }

  /** A worker that panics while logging ends the current job. */
  lemma LoggingPanicEnds(cfg: Config, w: World, v: nat, r: nat)
    requires cfg.logPanics && IsCurrent(w, r) && w.pool.unwinding == {}
    requires v in w.phases && w.phases[v].Logging? && v in w.pool.running
    ensures exists n :: CanEnd(cfg, w, r, n)
  {
    var st := Work(v, LogPanics);
    WorkerCanEnd(cfg, Apply(cfg, w, st), v, r);
    var n :| CanEnd(cfg, Apply(cfg, w, st), r, n);
    OneStepMore(cfg, w, st, r, n);
  }

  // ---- a task in the queue ----

  predicate Queued(w: World, r: nat) {
    && IsCurrent(w, r) && w.pool.queue != [] && w.pool.unwinding == {}
    && w.phases.Keys == w.pool.running.Keys
  }

  lemma TakeWorks(cfg: Config, w: World, v: nat, r: nat)
    requires Queued(w, r) && v in w.pool.idle && v !in w.phases
    ensures Enabled(cfg, w, Work(v, Take))
    ensures var w' := Apply(cfg, w, Work(v, Take)); IsCurrent(w', r) && Busy(w', v) && w'.pool.unwinding == {}
  {
  }

  lemma IdleCanEnd(cfg: Config, w: World, v: nat, r: nat)
    requires Queued(w, r) && v in w.pool.idle && v !in w.phases
    ensures exists n :: CanEnd(cfg, w, r, n)
  {
    TakeWorks(cfg, w, v, r);
    WorkerCanEnd(cfg, Apply(cfg, w, Work(v, Take)), v, r);
    var n :| CanEnd(cfg, Apply(cfg, w, Work(v, Take)), r, n);
    OneStepMore(cfg, w, Work(v, Take), r, n);
  }

  lemma LeaveFrees(cfg: Config, w: World, v: nat, r: nat)
    requires Queued(w, r) && v in w.phases && w.phases[v].Leaving? && v in w.pool.running
    ensures Enabled(cfg, w, Work(v, Leave))
    ensures var w' := Apply(cfg, w, Work(v, Leave)); Queued(w', r) && v in w'.pool.idle && v !in w'.phases
  {
  }

  lemma LeavingCanEnd(cfg: Config, w: World, v: nat, r: nat)
    requires Queued(w, r) && v in w.phases && w.phases[v].Leaving? && v in w.pool.running
    ensures exists n :: CanEnd(cfg, w, r, n)
  {
    LeaveFrees(cfg, w, v, r);
    IdleCanEnd(cfg, Apply(cfg, w, Work(v, Leave)), v, r);
    var n :| CanEnd(cfg, Apply(cfg, w, Work(v, Leave)), r, n);
    OneStepMore(cfg, w, Work(v, Leave), r, n);
  }

  lemma LoggingCanEnd(cfg: Config, w: World, v: nat, r: nat)
    requires Queued(w, r) && v in w.phases && w.phases[v].Logging? && v in w.pool.running
    ensures exists n :: CanEnd(cfg, w, r, n)
  {
    var w' := Apply(cfg, w, Work(v, LogReturns));
    SameKeys(w.phases, v, Leaving);
    assert Queued(w', r);
    LeavingCanEnd(cfg, w', v, r);
    var n :| CanEnd(cfg, w', r, n);
    OneStepMore(cfg, w, Work(v, LogReturns), r, n);
  }

  predicate SomeWorker(p: P.Pool) {
    P.Parts(p.idle, p.running.Keys, p.exited, Below(p.workers)) && p.exited != Below(p.workers)
  }

  /** With a task in the queue and some worker left, some worker takes the task or is busy. */
  lemma QueuedCanEnd(cfg: Config, w: World, r: nat)
    requires Queued(w, r) && SomeWorker(w.pool)
    ensures exists n :: CanEnd(cfg, w, r, n)
  {
    if v :| v in w.pool.idle {
      IdleCanEnd(cfg, w, v, r);
    } else {
      assert w.pool.running.Keys != {};
      var v :| v in w.pool.running.Keys;
      if Working(w.phases[v]) {
        WorkerCanEnd(cfg, w, v, r);
      } else if w.phases[v].Logging? {
        LoggingCanEnd(cfg, w, v, r);
      } else {
        LeavingCanEnd(cfg, w, v, r);
      }
    }
  }

  // ---- a request on its way ----

  predicate HandlerAt(w: World, q: nat, h: Handler) {
    q in w.handlers && w.handlers[q] == h
  }

  lemma RefusedCanEnd(cfg: Config, w: World, q: nat, r: nat)
    requires IsCurrent(w, r) && HandlerAt(w, q, Refused)
    ensures exists n :: CanEnd(cfg, w, r, n)
  {
    var st := Handle(q, FailSubmit(0));
    assert Enabled(cfg, w, st);
    assert Ended(Apply(cfg, w, st), r);
    assert CanEnd(cfg, Apply(cfg, w, st), r, 0);
    OneStepMore(cfg, w, st, r, 0);
  }

  /** The channel is open, so that no worker has left. */
  ghost predicate Open(w: World) {
    && !w.pool.closed && w.pool.maxBacklog >= 1 && SomeWorker(w.pool)
    && w.phases.Keys == w.pool.running.Keys && w.pool.unwinding == {}
  }

  lemma SendQueues(cfg: Config, w: World, q: nat, r: nat)
    requires IsCurrent(w, r) && HandlerAt(w, q, Submitting) && Open(w) && q in w.pool.pending
    requires |w.pool.queue| < w.pool.maxBacklog
    ensures Enabled(cfg, w, Handle(q, Send))
    ensures Queued(Apply(cfg, w, Handle(q, Send)), r) && SomeWorker(Apply(cfg, w, Handle(q, Send)).pool)
  {
  }

  lemma FullRefuses(cfg: Config, w: World, q: nat, r: nat)
    requires IsCurrent(w, r) && HandlerAt(w, q, Submitting) && !w.pool.closed
    requires q in w.pool.pending && w.pool.pending[q].Submit? && |w.pool.queue| >= w.pool.maxBacklog
    ensures Enabled(cfg, w, Handle(q, SendFull))
    ensures var w' := Apply(cfg, w, Handle(q, SendFull)); IsCurrent(w', r) && HandlerAt(w', q, Refused)
  {
  }

  lemma SubmittingCanEnd(cfg: Config, w: World, q: nat, r: nat)
    requires IsCurrent(w, r) && HandlerAt(w, q, Submitting) && Open(w)
    requires q in w.pool.pending && w.pool.pending[q].Submit?
    ensures exists n :: CanEnd(cfg, w, r, n)
  {
    var st := Handle(q, if |w.pool.queue| < w.pool.maxBacklog then Send else SendFull);
    if |w.pool.queue| < w.pool.maxBacklog {
      SendQueues(cfg, w, q, r);
      QueuedCanEnd(cfg, Apply(cfg, w, st), r);
    } else {
      FullRefuses(cfg, w, q, r);
      RefusedCanEnd(cfg, Apply(cfg, w, st), q, r);
    }
    var n :| CanEnd(cfg, Apply(cfg, w, st), r, n);
    OneStepMore(cfg, w, st, r, n);
  }

  lemma FlagChecked(cfg: Config, w: World, q: nat, r: nat)
    requires IsCurrent(w, r) && HandlerAt(w, q, Started) && q !in w.pool.seen
    ensures Enabled(cfg, w, Handle(q, CheckFlag))
    ensures var w' := Apply(cfg, w, Handle(q, CheckFlag));
            && IsCurrent(w', r) && HandlerAt(w', q, if w.pool.shutdown then Refused else Submitting)
            && (!w.pool.shutdown && Open(w) ==>
                  Open(w') && q in w'.pool.pending && w'.pool.pending[q].Submit?)
  {
  }

  lemma StartedCanEnd(cfg: Config, w: World, q: nat, r: nat)
    requires IsCurrent(w, r) && HandlerAt(w, q, Started) && q !in w.pool.seen && (w.pool.shutdown || Open(w))
    ensures exists n :: CanEnd(cfg, w, r, n)
  {
    FlagChecked(cfg, w, q, r);
    var w' := Apply(cfg, w, Handle(q, CheckFlag));
    if w.pool.shutdown {
      RefusedCanEnd(cfg, w', q, r);
    } else {
      SubmittingCanEnd(cfg, w', q, r);
    }
    var n :| CanEnd(cfg, w', r, n);
    OneStepMore(cfg, w, Handle(q, CheckFlag), r, n);
  }

  // ---- something is left that ends a job ----

  predicate WorkerCan(cfg: Config, w: World, v: nat) {
    v in w.phases && (Working(w.phases[v]) || (w.phases[v].Logging? && cfg.logPanics))
  }

  predicate RequestCan(w: World, q: nat) {
    && q in w.handlers
    && (w.handlers[q].Started? || w.handlers[q].Refused? || (w.handlers[q].Submitting? && !w.pool.closed))
  }

  predicate QueueCan(w: World) {
    w.pool.queue != [] && w.pool.exited != Below(w.pool.workers)
  }

  /** A worker is at a job, or about to log with a panic; or a request can submit or give up; or
      a task is queued and some worker is left. */
  ghost predicate CanMove(cfg: Config, w: World) {
    (exists v :: WorkerCan(cfg, w, v)) || (exists q :: RequestCan(w, q)) || QueueCan(w)
  }

  lemma SaneIsOpen(w: World)
    requires Sane(w) && !w.pool.closed
    ensures Open(w)
  {
  }

  lemma RequestCanEnd(cfg: Config, w: World, q: nat, r: nat)
    requires Sane(w) && w.ledger.store.current == Some(r) && RequestCan(w, q)
    ensures exists n :: CanEnd(cfg, w, r, n)
  {
    if !w.pool.closed {
      SaneIsOpen(w);
    }
    if w.handlers[q].Started? {
      StartedCanEnd(cfg, w, q, r);
    } else if w.handlers[q].Submitting? {
      SubmittingCanEnd(cfg, w, q, r);
    } else {
      RefusedCanEnd(cfg, w, q, r);
    }
  }

  lemma MoveCanEnd(cfg: Config, w: World, r: nat)
    requires Sane(w) && w.ledger.store.current == Some(r) && CanMove(cfg, w)
    ensures exists n :: CanEnd(cfg, w, r, n)
  {
    if v :| WorkerCan(cfg, w, v) {
      assert v in w.phases.Keys;
      if Working(w.phases[v]) {
        WorkerCanEnd(cfg, w, v, r);
      } else {
        LoggingPanicEnds(cfg, w, v, r);
      }
    } else if q :| RequestCan(w, q) {
      RequestCanEnd(cfg, w, q, r);
    } else {
      QueuedCanEnd(cfg, w, r);
    }
  }

  lemma Extend(cfg: Config, steps: seq<Step>, st: Step)
    requires ValidRun(cfg, steps) && Enabled(cfg, Run(cfg, steps), st)
    ensures ValidRun(cfg, steps + [st]) && Run(cfg, steps + [st]) == Apply(cfg, Run(cfg, steps), st)
  {
    assert Init(steps + [st]) == steps;
  }

  lemma NextToEnd(cfg: Config, w: World, r: nat, n: nat) returns (st: Step)
    requires CanEnd(cfg, w, r, n) && !Ended(w, r)
    ensures n > 0 && OwnStep(st) && Enabled(cfg, w, st) && CanEnd(cfg, Apply(cfg, w, st), r, n - 1)
  {
    st :| OwnStep(st) && Enabled(cfg, w, st) && CanEnd(cfg, Apply(cfg, w, st), r, n - 1);
  }

  lemma OwnStepFlag(p: P.Pool, st: P.Step)
    requires P.Enabled(p, st) && !st.MarkShutdown?
    ensures P.Apply(p, st).shutdown == p.shutdown
  {
  }

  lemma SameFlag(cfg: Config, w: World, st: Step)
    requires OwnStep(st) && Enabled(cfg, w, st)
    ensures Apply(cfg, w, st).pool.shutdown == w.pool.shutdown
  {
    PoolAfter(cfg, w, st);
    if PoolPart(st).Some? {
      OwnStepFlag(w.pool, PoolPart(st).value);
    }
  }

  predicate EndedWith(w: World, r: nat, flag: bool) {
    Ended(w, r) && w.pool.shutdown == flag
  }

  /** The steps `more` after `steps` end the job `r`, with the flag of Shutdown as given. */
  ghost predicate EndsAfter(cfg: Config, steps: seq<Step>, more: seq<Step>, r: nat, flag: bool) {
    ValidRun(cfg, steps + more) && EndedWith(Run(cfg, steps + more), r, flag)
  }

  lemma AfterStep(cfg: Config, steps: seq<Step>, st: Step, rest: seq<Step>, r: nat, flag: bool)
    requires EndsAfter(cfg, steps + [st], rest, r, flag)
    ensures EndsAfter(cfg, steps, [st] + rest, r, flag)
  {
    assert steps + [st] + rest == steps + ([st] + rest);
  }

  lemma {:induction false} CanEndOnRun(cfg: Config, steps: seq<Step>, r: nat, n: nat) returns (more: seq<Step>)
    requires ValidRun(cfg, steps) && CanEnd(cfg, Run(cfg, steps), r, n)
    ensures EndsAfter(cfg, steps, more, r, Run(cfg, steps).pool.shutdown)
    decreases n
  {
    var w := Run(cfg, steps);
    if Ended(w, r) {
      more := [];
      assert steps + more == steps;
    } else {
      var st := NextToEnd(cfg, w, r, n);
      Extend(cfg, steps, st);
      SameFlag(cfg, w, st);
      more := CanEndOnRun(cfg, steps + [st], r, n - 1);
      AfterStep(cfg, steps, st, more, r, w.pool.shutdown);
      more := [st] + more;
    }
  }

  /** The current job ends without a step of Shutdown. */
  lemma EndsQuietly(cfg: Config, steps: seq<Step>, r: nat) returns (more: seq<Step>)
    requires ValidRun(cfg, steps) && Run(cfg, steps).ledger.store.current == Some(r) && CanMove(cfg, Run(cfg, steps))
    ensures EndsAfter(cfg, steps, more, r, Run(cfg, steps).pool.shutdown)
  {
    AlwaysSane(cfg, steps);
    MoveCanEnd(cfg, Run(cfg, steps), r);
    var n :| CanEnd(cfg, Run(cfg, steps), r, n);
    more := CanEndOnRun(cfg, steps, r, n);
  }

  // ---- nothing is left for good ----

  lemma QuietHandle(cfg: Config, w: World, q: nat, hs: HandlerStep)
    requires L.Orderly(w.ledger) && w.ledger.store.current.Some? && Enabled(cfg, w, Handle(q, hs)) && !CanMove(cfg, w)
    ensures var w' := Apply(cfg, w, Handle(q, hs));
            && w'.ledger.store.current == w.ledger.store.current && w'.phases == w.phases
            && w'.pool.queue == w.pool.queue && w'.pool.exited == w.pool.exited && w'.pool.workers == w.pool.workers
            && w'.pool.closed == w.pool.closed && !RequestCan(w', q) && w'.handlers == w.handlers[q := w'.handlers[q]]
  {
    assert !RequestCan(w, q);
  }

  lemma QuietHandleStays(cfg: Config, w: World, q: nat, hs: HandlerStep)
    requires L.Orderly(w.ledger) && w.ledger.store.current.Some? && Enabled(cfg, w, Handle(q, hs)) && !CanMove(cfg, w)
    ensures !CanMove(cfg, Apply(cfg, w, Handle(q, hs)))
  {
    QuietHandle(cfg, w, q, hs);
    var w' := Apply(cfg, w, Handle(q, hs));
    forall x
      ensures !RequestCan(w', x)
    {
      assert !RequestCan(w, x);
    }
    forall v
      ensures !WorkerCan(cfg, w', v)
    {
      assert !WorkerCan(cfg, w, v);
    }
  }

  lemma QuietWork(cfg: Config, w: World, v: nat, ws: WorkerStep)
    requires Sane(w) && Enabled(cfg, w, Work(v, ws)) && !CanMove(cfg, w)
    ensures var w' := Apply(cfg, w, Work(v, ws));
            && w'.ledger == w.ledger && w'.handlers == w.handlers && w'.pool.queue == w.pool.queue
            && w'.pool.exited == w.pool.exited && w'.pool.workers == w.pool.workers && w'.pool.closed == w.pool.closed
            && !WorkerCan(cfg, w', v) && forall u :: u != v ==> (WorkerCan(cfg, w', u) <==> WorkerCan(cfg, w, u))
  {
    assert !WorkerCan(cfg, w, v);
    assert ws.Take? ==> w.pool.queue != [] && v in w.pool.idle;
  }

  lemma QuietWorkStays(cfg: Config, w: World, v: nat, ws: WorkerStep)
    requires Sane(w) && Enabled(cfg, w, Work(v, ws)) && !CanMove(cfg, w)
    ensures !CanMove(cfg, Apply(cfg, w, Work(v, ws)))
    ensures Apply(cfg, w, Work(v, ws)).ledger == w.ledger
  {
    QuietWork(cfg, w, v, ws);
    var w' := Apply(cfg, w, Work(v, ws));
    forall u
      ensures !WorkerCan(cfg, w', u)
    {
      assert !WorkerCan(cfg, w, u);
    }
    forall x
      ensures !RequestCan(w', x)
    {
      assert !RequestCan(w, x);
    }
  }

  lemma QuietPool(cfg: Config, w: World, pst: P.Step)
    requires Sane(w) && Enabled(cfg, w, PoolStep(pst)) && !CanMove(cfg, w)
    ensures var w' := Apply(cfg, w, PoolStep(pst));
            && w'.ledger == w.ledger && w'.handlers == w.handlers && w'.phases == w.phases
            && (w.pool.closed ==> w'.pool.closed) && !QueueCan(w')
  {
    assert !QueueCan(w);
  }

  lemma QuietOtherStays(cfg: Config, w: World, st: Step)
    requires Sane(w) && Enabled(cfg, w, st) && (st.PoolStep? || st.Cleanup?) && !CanMove(cfg, w)
    ensures !CanMove(cfg, Apply(cfg, w, st))
    ensures Apply(cfg, w, st).ledger.store.current == w.ledger.store.current
  {
    if st.PoolStep? {
      QuietPool(cfg, w, st.st);
    }
    var w' := Apply(cfg, w, st);
    forall u
      ensures !WorkerCan(cfg, w', u)
    {
      assert !WorkerCan(cfg, w, u);
    }
    forall x
      ensures !RequestCan(w', x)
    {
      assert !RequestCan(w, x);
    }
  }

  /** While a job is current and nothing is left that ends it, no step changes that. */
  lemma QuietStays(cfg: Config, w: World, st: Step)
    requires Sane(w) && w.ledger.store.current.Some? && Enabled(cfg, w, st) && !CanMove(cfg, w)
    ensures !CanMove(cfg, Apply(cfg, w, st))
    ensures Apply(cfg, w, st).ledger.store.current == w.ledger.store.current
  {
    match st
    case Handle(q, hs) =>
      QuietHandle(cfg, w, q, hs);
      QuietHandleStays(cfg, w, q, hs);
    case Work(v, ws) => QuietWorkStays(cfg, w, v, ws);
    case _ => QuietOtherStays(cfg, w, st);
  }

  lemma {:induction false} QuietForGood(cfg: Config, steps: seq<Step>, more: seq<Step>, r: nat)
    requires ValidRun(cfg, steps) && ValidRun(cfg, steps + more)
    requires Run(cfg, steps).ledger.store.current == Some(r) && !CanMove(cfg, Run(cfg, steps))
    ensures Run(cfg, steps + more).ledger.store.current == Some(r) && !CanMove(cfg, Run(cfg, steps + more))
  {
    if more == [] {
      assert steps + more == steps;
    } else {
      var before := steps + Init(more);
      assert Init(steps + more) == before && Last(steps + more) == Last(more);
      QuietForGood(cfg, steps, Init(more), r);
      AlwaysSane(cfg, before);
      QuietStays(cfg, Run(cfg, before), Last(more));
      assert Run(cfg, steps + more) == Apply(cfg, Run(cfg, before), Last(more));
    }
  }

  lemma CurrentNotFinished(cfg: Config, steps: seq<Step>, r: nat)
    requires ValidRun(cfg, steps) && Run(cfg, steps).ledger.store.current == Some(r)
    ensures r !in Run(cfg, steps).ledger.store.finished
  {
    AlwaysFits(cfg, steps);
    L.CurrentOfValid(Run(cfg, steps).ledger);
  }

  ghost predicate EndsLater(cfg: Config, steps: seq<Step>, r: nat) {
    exists more :: ValidRun(cfg, steps + more) && r in Run(cfg, steps + more).ledger.store.finished
  }

  /** The current job of any run can still be completed or failed, whatever panics, exactly if
      a worker is at a job, or about to log with a panic; or a request can submit or give up;
      or a task is queued and some worker is left. */
  lemma CanEndIff(cfg: Config, steps: seq<Step>, r: nat)
    requires ValidRun(cfg, steps) && Run(cfg, steps).ledger.store.current == Some(r)
    ensures EndsLater(cfg, steps, r) <==> CanMove(cfg, Run(cfg, steps))
  {
    if CanMove(cfg, Run(cfg, steps)) {
      var more := EndsQuietly(cfg, steps, r);
    } else {
      forall more | ValidRun(cfg, steps + more)
        ensures r !in Run(cfg, steps + more).ledger.store.finished
      {
        QuietForGood(cfg, steps, more, r);
        CurrentNotFinished(cfg, steps + more, r);
      }
    }
  }

  // ---- the jobs that cannot end when logging does not panic ----

  /** The request has met the closed channel, or is about to. */
  predicate Crashing(w: World, r: nat) {
    r in w.handlers && (w.handlers[r].Crashed? || (w.handlers[r].Submitting? && w.pool.closed))
  }

  /** A job is queued and every worker has left. */
  predicate Abandoned(w: World) {
    w.pool.queue != [] && w.pool.exited == Below(w.pool.workers)
  }

  predicate Doomed(w: World, r: nat) {
    Crashing(w, r) || Abandoned(w)
  }

  lemma MovesUnlessDoomed(cfg: Config, w: World, t: Ticket, r: nat)
    requires !cfg.logPanics && TicketAt(w, t) && w.ledger.store.current == Some(r)
    ensures CanMove(cfg, w) <==> !Doomed(w, r)
  {
    match t
    case AtHandler(_) =>
      assert Holding(w.handlers[r]);
      assert RequestCan(w, r) <==> !Doomed(w, r);
    case InQueue(_) =>
      assert r in w.handlers ==> !Holding(w.handlers[r]);
    case AtWorker(v, _) =>
      assert r in w.handlers ==> !Holding(w.handlers[r]);
      assert WorkerCan(cfg, w, v);
  }

  /** If logging does not panic, the current job can still be completed or failed exactly if its
      request has not met the closed channel and is not about to, and no worker-less queue
      holds it. */
  lemma CanEndUnlessDoomed(cfg: Config, steps: seq<Step>, r: nat)
    requires !cfg.logPanics && ValidRun(cfg, steps) && Run(cfg, steps).ledger.store.current == Some(r)
    ensures EndsLater(cfg, steps, r) <==> !Doomed(Run(cfg, steps), r)
  {
    var t := OneTicket(cfg, steps);
    MovesUnlessDoomed(cfg, Run(cfg, steps), t, r);
    CanEndIff(cfg, steps, r);
  }

  // ---- the current job is held ----

  /** Requests that have not started a job. */
  ghost predicate Unstarted(handlers: map<nat, Handler>, started: seq<nat>) {
    forall r :: r in started ==>
      r in handlers && !handlers[r].Peeked? && !handlers[r].Checked? && !handlers[r].Created?
  }

  /** The job of a request that is done was accepted by the pool, or has ended. */
  ghost predicate AnsweredFits(handlers: map<nat, Handler>, started: seq<nat>, accepted: seq<nat>, finished: seq<nat>) {
    forall r :: r in handlers && handlers[r].Answered? && r in started ==> r in accepted || r in finished
  }

  ghost predicate RequestsDone(w: World) {
    AnsweredFits(w.handlers, w.ledger.store.started, w.pool.accepted, w.ledger.store.finished)
  }

  lemma AlwaysUnstarted(cfg: Config, steps: seq<Step>)
    requires ValidRun(cfg, steps)
    ensures Unstarted(Run(cfg, steps).handlers, Run(cfg, steps).ledger.store.started)
    ensures S.OneAtATime(Run(cfg, steps).ledger.store)
  {
    AlwaysFits(cfg, steps);
  }

  /** The logs after a step of a request. */
  lemma HandlerLogs(w: World, r: nat, hs: HandlerStep)
    requires L.CurrentKnown(w.ledger) && HandlerReady(w, r, hs) && S.OneAtATime(w.ledger.store)
    requires Submission(r, hs).Some? ==> P.Enabled(w.pool, Submission(r, hs).value)
    ensures var s', p' := HandlerLedger(w, r, hs).store, NextPool(w.pool, Submission(r, hs));
            && s'.finished == (if hs.FailSubmit? then w.ledger.store.started else w.ledger.store.finished)
            && s'.started == (if hs.TryStart? && !L.Busy(w.ledger) then w.ledger.store.started + [r]
                              else w.ledger.store.started)
            && p'.accepted == (if hs.Send? then w.pool.accepted + [r] else w.pool.accepted)
  {
  }

  lemma HandlerRequestsDone(cfg: Config, w: World, r: nat, hs: HandlerStep)
    requires L.CurrentKnown(w.ledger) && S.OneAtATime(w.ledger.store) && Enabled(cfg, w, Handle(r, hs))
    requires Unstarted(w.handlers, w.ledger.store.started) && RequestsDone(w)
    ensures RequestsDone(Apply(cfg, w, Handle(r, hs)))
  {
    HandlerLogs(w, r, hs);
    assert forall x :: x in w.ledger.store.finished ==> x in w.ledger.store.started;
  }

  lemma WorkerRequestsDone(cfg: Config, w: World, v: nat, ws: WorkerStep)
    requires L.CurrentKnown(w.ledger) && S.OneAtATime(w.ledger.store) && Enabled(cfg, w, Work(v, ws)) && RequestsDone(w)
    ensures RequestsDone(Apply(cfg, w, Work(v, ws)))
  {
    EndingFinishes(w, ws);
    WorkerLedgerParts(w, ws);
    assert forall x :: x in w.ledger.store.finished ==> x in w.ledger.store.started;
  }

  lemma HousekeepingAccepts(p: P.Pool, st: P.Step)
    requires P.Enabled(p, st) && Housekeeping(st)
    ensures P.Apply(p, st).accepted == p.accepted
  {
  }

  lemma OtherRequestsDone(cfg: Config, w: World, st: Step)
    requires Enabled(cfg, w, st) && (st.Cleanup? || st.PoolStep?) && RequestsDone(w)
    ensures RequestsDone(Apply(cfg, w, st))
  {
    if st.PoolStep? {
      HousekeepingAccepts(w.pool, st.st);
    }
  }

  lemma {:induction false} AlwaysRequestsDone(cfg: Config, steps: seq<Step>)
    requires ValidRun(cfg, steps)
    ensures RequestsDone(Run(cfg, steps))
  {
    if steps != [] {
      var w := Run(cfg, Init(steps));
      AlwaysRequestsDone(cfg, Init(steps));
      AlwaysUnstarted(cfg, Init(steps));
      AlwaysOrderly(cfg, Init(steps));
      match Last(steps) {
        case Handle(r, hs) => HandlerRequestsDone(cfg, w, r, hs);
        case Work(v, ws) => WorkerRequestsDone(cfg, w, v, ws);
        case _ => OtherRequestsDone(cfg, w, Last(steps));
      }
    }
  }

  /** An accepted task is queued, running or done. */
  lemma AcceptedSomewhere(p: P.Pool, t: nat)
    requires P.QueueKept(p) && P.TasksKept(p) && t in p.accepted
    ensures t in p.queue || t in p.finished || exists v :: v in p.running && p.running[v] == t
  {
    if t !in p.queue {
      assert t in P.Tasks(p.taken);
      var i :| 0 <= i < |p.taken| && P.Tasks(p.taken)[i] == t;
      assert p.taken[i] in p.taken;
    }
  }

  /** The job is with its request, in the queue, or with a worker at it. */
  ghost predicate HeldSomewhere(w: World, r: nat) {
    || (r in w.handlers && Holding(w.handlers[r]))
    || r in w.pool.queue
    || exists v :: Busy(w, v) && w.pool.running[v] == r
  }

  lemma AcceptedHeld(w: World, r: nat)
    requires P.QueueKept(w.pool) && P.TasksKept(w.pool) && w.phases.Keys == w.pool.running.Keys && DoneFits(w)
    requires r in w.pool.accepted && r !in w.ledger.store.finished
    ensures HeldSomewhere(w, r)
  {
    AcceptedSomewhere(w.pool, r);
    if r !in w.pool.queue {
      var v :| v in w.pool.running && w.pool.running[v] == r;
      assert v in w.phases.Keys;
      assert Busy(w, v);
    }
  }

  lemma CurrentOnWay(cfg: Config, steps: seq<Step>, r: nat)
    requires ValidRun(cfg, steps) && Run(cfg, steps).ledger.store.current == Some(r)
    ensures var w := Run(cfg, steps);
            r in w.handlers && (Holding(w.handlers[r]) || r in w.pool.accepted)
  {
    var w := Run(cfg, steps);
    AlwaysUnstarted(cfg, steps);
    AlwaysRequestsDone(cfg, steps);
    CurrentNotFinished(cfg, steps, r);
    assert r in w.ledger.store.started by {
      assert Last(w.ledger.store.started) == r;
    }
  }

  /** On every run, whatever panics, the current job is with its request, in the queue, or with
      a worker at it. */
  lemma CurrentHeld(cfg: Config, steps: seq<Step>, r: nat)
    requires ValidRun(cfg, steps) && Run(cfg, steps).ledger.store.current == Some(r)
    ensures HeldSomewhere(Run(cfg, steps), r)
  {
    var w := Run(cfg, steps);
    CurrentOnWay(cfg, steps, r);
    if !Holding(w.handlers[r]) {
      CurrentNotFinished(cfg, steps, r);
      AlwaysDoneFits(cfg, steps);
      assert P.QueueKept(w.pool) && P.TasksKept(w.pool) && w.phases.Keys == w.pool.running.Keys by {
        AlwaysFits(cfg, steps);
      }
      AcceptedHeld(w, r);
    }
  }

  /** When no request, queue slot or worker holds a job, every started job has been completed or
      failed, whatever panicked. */
  lemma QuietMeansFinished(cfg: Config, steps: seq<Step>)
    requires ValidRun(cfg, steps) && forall spot :: !Holds(Run(cfg, steps), spot)
    ensures Run(cfg, steps).ledger.store.started == Run(cfg, steps).ledger.store.finished
  {
    var w := Run(cfg, steps);
    AlwaysUnstarted(cfg, steps);
    if w.ledger.store.current.Some? {
      CurrentHeld(cfg, steps, w.ledger.store.current.value);
      HeldIsSpot(w, w.ledger.store.current.value);
    }
  }

  lemma HeldIsSpot(w: World, r: nat)
    requires HeldSomewhere(w, r)
    ensures exists spot :: Holds(w, spot)
  {
    if r in w.handlers && Holding(w.handlers[r]) {
      assert Holds(w, OfRequest(r));
    } else if r in w.pool.queue {
      assert Holds(w, OfQueue(0));
    } else {
      var v :| Busy(w, v) && w.pool.running[v] == r;
      assert Holds(w, OfWorker(v));
    }
  }

  // ---- dead ends ----

  /** No step of a request on its way or of a worker is enabled. */
  ghost predicate NothingMoves(cfg: Config, w: World) {
    && (forall r, hs :: r in w.handlers ==> !Enabled(cfg, w, Handle(r, hs)))
    && (forall v, ws :: !Enabled(cfg, w, Work(v, ws)))
  }

  lemma HolderMoves(cfg: Config, w: World, r: nat)
    requires Sane(w) && r in w.handlers && Holding(w.handlers[r]) && !w.handlers[r].Crashed?
    ensures exists hs :: Enabled(cfg, w, Handle(r, hs))
  {
    match w.handlers[r]
    case Started => assert Enabled(cfg, w, Handle(r, CheckFlag));
    case Submitting =>
      if w.pool.closed {
        assert Enabled(cfg, w, Handle(r, SendOnClosed));
      } else if |w.pool.queue| < w.pool.maxBacklog {
        assert Enabled(cfg, w, Handle(r, Send));
      } else {
        assert Enabled(cfg, w, Handle(r, SendFull));
      }
    case Refused => assert Enabled(cfg, w, Handle(r, FailSubmit(0)));
  }

  lemma QueueMoves(cfg: Config, w: World)
    requires Sane(w) && w.pool.queue != [] && w.pool.exited != Below(w.pool.workers)
    ensures exists v, ws :: Enabled(cfg, w, Work(v, ws))
  {
    if v :| v in w.pool.idle {
      assert v !in w.phases.Keys;
      assert Enabled(cfg, w, Work(v, Take));
    } else {
      assert w.pool.running.Keys != {};
      var v :| v in w.pool.running.Keys;
      WorkerNextReady(cfg, w, v);
    }
  }

  lemma DeadEndAt(cfg: Config, w: World, r: nat)
    requires Sane(w) && HeldSomewhere(w, r) && NothingMoves(cfg, w)
    ensures HasCrashed(w, r) || (r in w.pool.queue && w.pool.canceled && Abandoned(w))
  {
    if r in w.handlers && Holding(w.handlers[r]) {
      if !HasCrashed(w, r) {
        HolderMoves(cfg, w, r);
      }
    } else if r in w.pool.queue {
      if w.pool.exited != Below(w.pool.workers) {
        QueueMoves(cfg, w);
      }
    } else {
      var v :| Busy(w, v) && w.pool.running[v] == r;
      WorkerNextReady(cfg, w, v);
    }
  }

  /** The worlds where nothing moves any more, whatever panicked: no job is current, or its
      request crashed, or it is queued in a cancelled pool that every worker has left. */
  lemma DeadEnds(cfg: Config, steps: seq<Step>)
    requires ValidRun(cfg, steps) && NothingMoves(cfg, Run(cfg, steps))
    ensures var w := Run(cfg, steps);
            || w.ledger.store.current.None?
            || HasCrashed(w, w.ledger.store.current.value)
            || (w.ledger.store.current.value in w.pool.queue && w.pool.canceled && Abandoned(w))
  {
    var w := Run(cfg, steps);
    if w.ledger.store.current.Some? {
      CurrentHeld(cfg, steps, w.ledger.store.current.value);
      AlwaysSane(cfg, steps);
      DeadEndAt(cfg, w, w.ledger.store.current.value);
    }
  }
}
