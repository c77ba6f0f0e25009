/** What the course of an action and of a request leads to, on the runs of the pool's handler:
    which step a worker or a request takes next, and how the job of a worker ends. */
module PoolCourses {
  import opened Common
  import opened Jobs
  import opened WebhookPool
  import L = Ledger
  import P = WorkerPool

  // ---- between two steps of a worker ----

  predicate StepOf(st: Step, v: nat) {
    st.Work? && st.v == v
  }

  /** None of the steps is one of worker `v`. */
  ghost predicate Without(steps: seq<Step>, v: nat) {
    forall k :: 0 <= k < |steps| ==> !StepOf(steps[k], v)
  }

  function PhaseOf(w: World, v: nat): Option<Phase> {
    if v in w.phases then Some(w.phases[v]) else None
  }

  lemma OthersKeepPhase(cfg: Config, w: World, st: Step, v: nat)
    requires Enabled(cfg, w, st) && !StepOf(st, v)
    ensures PhaseOf(Apply(cfg, w, st), v) == PhaseOf(w, v)
  {
  }

  lemma {:induction false} PhaseKept(cfg: Config, steps: seq<Step>, others: seq<Step>, v: nat)
    requires ValidRun(cfg, steps) && ValidRun(cfg, steps + others) && Without(others, v)
    ensures PhaseOf(Run(cfg, steps + others), v) == PhaseOf(Run(cfg, steps), v)
  {
    if others == [] {
      assert steps + others == steps;
    } else {
      var before := steps + Init(others);
      assert Init(steps + others) == before && Last(steps + others) == others[|others| - 1];
      PhaseKept(cfg, steps, Init(others), v);
      OthersKeepPhase(cfg, Run(cfg, before), Last(others), v);
    }
  }

  lemma RunSplits(cfg: Config, steps: seq<Step>, st: Step)
    requires ValidRun(cfg, steps + [st])
    ensures ValidRun(cfg, steps) && Enabled(cfg, Run(cfg, steps), st)
    ensures Run(cfg, steps + [st]) == Apply(cfg, Run(cfg, steps), st)
  {
    assert Init(steps + [st]) == steps;
  }

  lemma {:induction false} PrefixRuns(cfg: Config, steps: seq<Step>, more: seq<Step>)
    requires ValidRun(cfg, steps + more)
    ensures ValidRun(cfg, steps)
    decreases |more|
  {
    if more == [] {
      assert steps + more == steps;
    } else {
      assert Init(steps + more) == steps + Init(more);
      PrefixRuns(cfg, steps, Init(more));
    }
  }

  /** Steps a worker may take from `phase`, whatever else happens. */
  lemma OneAfterOther(cfg: Config, w: World, v: nat, first: WorkerStep, w': World, next: WorkerStep)
    requires Enabled(cfg, w, Work(v, first)) && Enabled(cfg, w', Work(v, next))
    requires PhaseOf(w', v) == PhaseOf(Apply(cfg, w, Work(v, first)), v)
    ensures first.Take? ==> next.SeeContext?
    ensures first.SeeContext? && (first.expired || w.pool.canceled) ==> next.FailCanceled?
    ensures first.SeeContext? && !first.expired && !w.pool.canceled ==> next.ActionReturns? || next.ActionPanics?
    ensures first.ActionReturns? ==> next.Complete?
    ensures first.ActionPanics? ==> next.FailPanicked?
    ensures first.Complete? ==> next.LogReturns? || (cfg.logPanics && next.LogPanics?)
    ensures first.LogPanics? ==> next.FailPanicked?
    ensures first.FailCanceled? || first.FailPanicked? || first.LogReturns? ==> next.Leave?
    ensures first.Leave? ==> next.Take?
  {
  }

  /** On every run, whatever panics, the next step of a worker is the one its course calls for: an
      action that panics is followed by a failure, one that returns by a completion, and a
      context that is done by a failure without an action. */
  lemma NextOfWorker(cfg: Config, steps: seq<Step>, v: nat, first: WorkerStep, others: seq<Step>, next: WorkerStep)
    requires ValidRun(cfg, steps) && Without(others, v)
    requires ValidRun(cfg, steps + [Work(v, first)] + others + [Work(v, next)])
    ensures first.Take? ==> next.SeeContext?
    ensures first.SeeContext? && (first.expired || Run(cfg, steps).pool.canceled) ==> next.FailCanceled?
    ensures first.SeeContext? && !first.expired && !Run(cfg, steps).pool.canceled ==>
              next.ActionReturns? || next.ActionPanics?
    ensures first.ActionReturns? ==> next.Complete?
    ensures first.ActionPanics? ==> next.FailPanicked?
    ensures first.Complete? ==> next.LogReturns? || (cfg.logPanics && next.LogPanics?)
    ensures first.LogPanics? ==> next.FailPanicked?
    ensures first.FailCanceled? || first.FailPanicked? || first.LogReturns? ==> next.Leave?
    ensures first.Leave? ==> next.Take?
  {
    var after := steps + [Work(v, first)];
    RunSplits(cfg, after + others, Work(v, next));
    PrefixRuns(cfg, after, others);
    RunSplits(cfg, steps, Work(v, first));
    PhaseKept(cfg, after, others, v);
    OneAfterOther(cfg, Run(cfg, steps), v, first, Run(cfg, after + others), next);
  }

  // ---- how the job of a worker ends ----

  /** The phase of a worker that settles how its job will end. */
  predicate Settles(ph: Phase, status: Status) {
    ((ph.Panicked? || ph.Canceled?) && status.Failed?) || (ph.Acted? && status.Completed?)
  }

  /** The worker is in that phase with the job, or the job has so ended. */
  predicate Settled(w: World, v: nat, r: nat, ph: Phase, status: Status) {
    RunsAt(w, v, ph, r) || (r in w.ledger.jobs && w.ledger.jobs[r].status == status)
  }

  lemma OthersKeepRunning(cfg: Config, w: World, st: Step, v: nat, ph: Phase, r: nat)
    requires Enabled(cfg, w, st) && !StepOf(st, v) && RunsAt(w, v, ph, r) && v !in w.pool.idle
    ensures RunsAt(Apply(cfg, w, st), v, ph, r)
  {
    PoolAfter(cfg, w, st);
    OthersKeepPhase(cfg, w, st, v);
  }

  lemma EndsInPhase(cfg: Config, w: World, v: nat, ws: WorkerStep, ph: Phase, status: Status, r: nat)
    requires WorkerReady(cfg, w, v, ws) && RunsAt(w, v, ph, r) && Settles(ph, status)
    ensures Ends(ws) && status == if ws.Complete? then Completed else Status.Failed
  {
  }

  lemma BusyNotIdle(cfg: Config, steps: seq<Step>, v: nat)
    requires ValidRun(cfg, steps) && v in Run(cfg, steps).pool.running
    ensures v !in Run(cfg, steps).pool.idle
  {
    AlwaysFits(cfg, steps);
    assert v in Run(cfg, steps).pool.running.Keys;
  }

  lemma EndedStays(cfg: Config, steps: seq<Step>, st: Step, r: nat, job: Job)
    requires ValidRun(cfg, steps) && Enabled(cfg, Run(cfg, steps), st) && L.EndedAs(Run(cfg, steps).ledger, r, job)
    ensures L.EndedAs(Apply(cfg, Run(cfg, steps), st).ledger, r, job)
  {
    FitsForEnded(cfg, steps, r, job);
    StepKeepsEnded(cfg, Run(cfg, steps), st, r, job);
  }

  lemma SettledStep(cfg: Config, steps: seq<Step>, st: Step, v: nat, r: nat, ph: Phase, status: Status)
    requires !cfg.logPanics && ValidRun(cfg, steps) && Enabled(cfg, Run(cfg, steps), st)
    requires Settles(ph, status) && Settled(Run(cfg, steps), v, r, ph, status)
    ensures Settled(Apply(cfg, Run(cfg, steps), st), v, r, ph, status)
  {
    var w := Run(cfg, steps);
    if RunsAt(w, v, ph, r) {
      if StepOf(st, v) {
        EndsInPhase(cfg, w, v, st.ws, ph, status, r);
        WorkerEndsOwnJob(cfg, steps, v, st.ws);
      } else {
        BusyNotIdle(cfg, steps, v);
        OthersKeepRunning(cfg, w, st, v, ph, r);
      }
    } else {
      EndedStays(cfg, steps, st, r, w.ledger.jobs[r]);
    }
  }

  lemma {:induction false} SettledForGood(cfg: Config, steps: seq<Step>, more: seq<Step>, v: nat, r: nat, ph: Phase,
                                          status: Status)
    requires !cfg.logPanics && ValidRun(cfg, steps) && ValidRun(cfg, steps + more)
    requires Settles(ph, status) && Settled(Run(cfg, steps), v, r, ph, status)
    ensures Settled(Run(cfg, steps + more), v, r, ph, status)
  {
    if more == [] {
      assert steps + more == steps;
    } else {
      var before := steps + Init(more);
      assert Init(steps + more) == before && Last(steps + more) == Last(more);
      SettledForGood(cfg, steps, Init(more), v, r, ph, status);
      SettledStep(cfg, before, Last(more), v, r, ph, status);
    }
  }

  lemma WorkingMeansRunning(w: World, t: Ticket, v: nat, ph: Phase, r: nat)
    requires TicketAt(w, t) && L.Orderly(w.ledger) && RunsAt(w, v, ph, r) && Working(ph)
    ensures r in w.ledger.jobs && w.ledger.jobs[r].status.Running? && t == AtWorker(v, r)
  {
  }

  /** A settled job is running, or has ended as settled, and no worker acts on it. */
  lemma SettledStatus(cfg: Config, steps: seq<Step>, v: nat, r: nat, ph: Phase, status: Status)
    requires !cfg.logPanics && ValidRun(cfg, steps)
    requires Settles(ph, status) && Settled(Run(cfg, steps), v, r, ph, status)
    ensures var w := Run(cfg, steps);
            && r in w.ledger.jobs && (w.ledger.jobs[r].status.Running? || w.ledger.jobs[r].status == status)
            && forall u :: !RunsAt(w, u, Acting, r)
  {
    var w := Run(cfg, steps);
    var t := OneTicket(cfg, steps);
    AlwaysOrderly(cfg, steps);
    if RunsAt(w, v, ph, r) {
      WorkingMeansRunning(w, t, v, ph, r);
    }
    forall u
      ensures !RunsAt(w, u, Acting, r)
    {
      if RunsAt(w, u, Acting, r) {
        WorkingMeansRunning(w, t, u, Acting, r);
      }
    }
  }

  lemma SettledLater(cfg: Config, steps: seq<Step>, v: nat, ws: WorkerStep, more: seq<Step>, r: nat, ph: Phase,
                     status: Status)
    requires !cfg.logPanics && ValidRun(cfg, steps + [Work(v, ws)] + more)
    requires ValidRun(cfg, steps + [Work(v, ws)]) && RunsAt(Run(cfg, steps + [Work(v, ws)]), v, ph, r)
    requires Settles(ph, status)
    ensures var w := Run(cfg, steps + [Work(v, ws)] + more);
            && r in w.ledger.jobs && (w.ledger.jobs[r].status.Running? || w.ledger.jobs[r].status == status)
            && forall u :: !RunsAt(w, u, Acting, r)
  {
    SettledForGood(cfg, steps + [Work(v, ws)], more, v, r, ph, status);
    SettledStatus(cfg, steps + [Work(v, ws)] + more, v, r, ph, status);
  }

  lemma NowAt(cfg: Config, steps: seq<Step>, v: nat, ws: WorkerStep, more: seq<Step>)
    requires ValidRun(cfg, steps + [Work(v, ws)] + more) && !ws.Take? && !ws.Leave?
    ensures ValidRun(cfg, steps) && ValidRun(cfg, steps + [Work(v, ws)])
    ensures var w, w' := Run(cfg, steps), Run(cfg, steps + [Work(v, ws)]);
            && v in w.pool.running && w'.pool == w.pool && w' == Apply(cfg, w, Work(v, ws))
            && Enabled(cfg, w, Work(v, ws))
  {
    PrefixRuns(cfg, steps + [Work(v, ws)], more);
    RunSplits(cfg, steps, Work(v, ws));
  }

  /** The job of an action that panicked is never completed: from then on, at every later point of
      the run, it is running until it has failed. */
  lemma PanicFails(cfg: Config, steps: seq<Step>, v: nat, more: seq<Step>, r: nat)
    requires !cfg.logPanics && ValidRun(cfg, steps) && ValidRun(cfg, steps + [Work(v, ActionPanics)] + more)
    requires v in Run(cfg, steps).pool.running && Run(cfg, steps).pool.running[v] == r
    ensures var l := Run(cfg, steps + [Work(v, ActionPanics)] + more).ledger;
            r in l.jobs && (l.jobs[r].status.Running? || l.jobs[r].status.Failed?)
  {
    NowAt(cfg, steps, v, ActionPanics, more);
    SettledLater(cfg, steps, v, ActionPanics, more, r, Panicked, Status.Failed);
  }

  /** The job of an action that returned never fails: from then on it is running until it is
      completed. */
  lemma ReturnCompletes(cfg: Config, steps: seq<Step>, v: nat, more: seq<Step>, r: nat)
    requires !cfg.logPanics && ValidRun(cfg, steps) && ValidRun(cfg, steps + [Work(v, ActionReturns)] + more)
    requires v in Run(cfg, steps).pool.running && Run(cfg, steps).pool.running[v] == r
    ensures var l := Run(cfg, steps + [Work(v, ActionReturns)] + more).ledger;
            r in l.jobs && (l.jobs[r].status.Running? || l.jobs[r].status.Completed?)
  {
    NowAt(cfg, steps, v, ActionReturns, more);
    SettledLater(cfg, steps, v, ActionReturns, more, r, Acted, Completed);
  }

  /** The job of a task whose context is done when it begins never completes, and no worker ever
      acts on it: from then on it is running until it has failed. */
  lemma DoneContextFails(cfg: Config, steps: seq<Step>, v: nat, expired: bool, more: seq<Step>, r: nat)
    requires !cfg.logPanics && ValidRun(cfg, steps) && ValidRun(cfg, steps + [Work(v, SeeContext(expired))] + more)
    requires v in Run(cfg, steps).pool.running && Run(cfg, steps).pool.running[v] == r
    requires expired || Run(cfg, steps).pool.canceled
    ensures var w := Run(cfg, steps + [Work(v, SeeContext(expired))] + more);
            && r in w.ledger.jobs && (w.ledger.jobs[r].status.Running? || w.ledger.jobs[r].status.Failed?)
            && forall u :: !RunsAt(w, u, Acting, r)
  {
    NowAt(cfg, steps, v, SeeContext(expired), more);
    SettledLater(cfg, steps, v, SeeContext(expired), more, r, Canceled, Status.Failed);
  }

  // ---- between two steps of a request ----

  predicate RequestStep(st: Step, r: nat) {
    st.Handle? && st.r == r
  }

  ghost predicate WithoutRequest(steps: seq<Step>, r: nat) {
    forall k :: 0 <= k < |steps| ==> !RequestStep(steps[k], r)
  }

  function StageOf(w: World, r: nat): Option<Handler> {
    if r in w.handlers then Some(w.handlers[r]) else None
  }

  lemma OthersKeepStage(cfg: Config, w: World, st: Step, r: nat)
    requires Enabled(cfg, w, st) && !RequestStep(st, r)
    ensures StageOf(Apply(cfg, w, st), r) == StageOf(w, r)
  {
  }

  lemma {:induction false} StageKept(cfg: Config, steps: seq<Step>, others: seq<Step>, r: nat)
    requires ValidRun(cfg, steps) && ValidRun(cfg, steps + others) && WithoutRequest(others, r)
    ensures StageOf(Run(cfg, steps + others), r) == StageOf(Run(cfg, steps), r)
  {
    if others == [] {
      assert steps + others == steps;
    } else {
      var before := steps + Init(others);
      assert Init(steps + others) == before && Last(steps + others) == others[|others| - 1];
      StageKept(cfg, steps, Init(others), r);
      OthersKeepStage(cfg, Run(cfg, before), Last(others), r);
    }
  }

  /** The job that a request saw when it peeked is running. */
  predicate SeesRunning(w: World, r: nat) {
    && r in w.handlers && w.handlers[r].Peeked? && w.handlers[r].current.Some?
    && w.handlers[r].current.value in w.ledger.jobs
    && w.ledger.jobs[w.handlers[r].current.value].status.Running?
  }

  lemma OneStageAfterOther(cfg: Config, w: World, r: nat, first: HandlerStep, w': World, next: HandlerStep)
    requires L.Orderly(w.ledger) && Enabled(cfg, w, Handle(r, first)) && Enabled(cfg, w', Handle(r, next))
    requires StageOf(w', r) == StageOf(Apply(cfg, w, Handle(r, first)), r)
    ensures first.Peek? ==> next.Decide? && w'.handlers[r] == Peeked(w.ledger.store.current)
    ensures first.Decide? ==> !SeesRunning(w, r) && (next.NoId? || next.Create?)
    ensures first.Create? ==> next.TryStart?
    ensures first.TryStart? ==> w.ledger.store.current.None? && next.CheckFlag?
    ensures first.CheckFlag? && w.pool.shutdown ==> next.FailSubmit?
    ensures first.CheckFlag? && !w.pool.shutdown ==> next.Send? || next.SendFull? || next.SendOnClosed?
    ensures first.SendFull? ==> next.FailSubmit?
    ensures !first.NoId? && !first.Send? && !first.SendOnClosed? && !first.FailSubmit?
  {
  }

  /** On every run, whatever panics, the next step of a request is the one its course calls for. A
      request goes on after its first check only if the job it saw was not running, and after
      TryStartJob only if no job was current; it fails its job exactly after a refused
      submission; and it takes no step after it has been answered or has crashed. */
  lemma NextOfRequest(cfg: Config, steps: seq<Step>, r: nat, first: HandlerStep, others: seq<Step>, next: HandlerStep)
    requires ValidRun(cfg, steps) && WithoutRequest(others, r)
    requires ValidRun(cfg, steps + [Handle(r, first)] + others + [Handle(r, next)])
    ensures first.Peek? ==> next.Decide?
    ensures first.Decide? ==> !SeesRunning(Run(cfg, steps), r) && (next.NoId? || next.Create?)
    ensures first.Create? ==> next.TryStart?
    ensures first.TryStart? ==> Run(cfg, steps).ledger.store.current.None? && next.CheckFlag?
    ensures first.CheckFlag? && Run(cfg, steps).pool.shutdown ==> next.FailSubmit?
    ensures first.CheckFlag? && !Run(cfg, steps).pool.shutdown ==> next.Send? || next.SendFull? || next.SendOnClosed?
    ensures first.SendFull? ==> next.FailSubmit?
    ensures !first.NoId? && !first.Send? && !first.SendOnClosed? && !first.FailSubmit?
  {
    var after := steps + [Handle(r, first)];
    RunSplits(cfg, after + others, Handle(r, next));
    PrefixRuns(cfg, after, others);
    RunSplits(cfg, steps, Handle(r, first));
    AlwaysOrderly(cfg, steps);
    StageKept(cfg, after, others, r);
    OneStageAfterOther(cfg, Run(cfg, steps), r, first, Run(cfg, after + others), next);
  }

  /** Some step of the request is enabled. */
  ghost predicate GoesOn(cfg: Config, w: World, r: nat) {
    exists next :: Enabled(cfg, w, Handle(r, next))
  }

  /** The step by which a request is answered, or crashes. */
  predicate LastStep(w: World, r: nat, hs: HandlerStep) {
    || hs.NoId? || hs.Send? || hs.SendOnClosed? || hs.FailSubmit?
    || (hs.Decide? && SeesRunning(w, r)) || (hs.TryStart? && w.ledger.store.current.Some?)
  }

  /** A step that the request can take after `hs`. */
  function Following(w: World, hs: HandlerStep): HandlerStep {
    match hs
    case Peek => Decide
    case Decide => NoId
    case Create(_, _, _) => TryStart
    case TryStart => CheckFlag
    case CheckFlag =>
      if w.pool.shutdown then FailSubmit(0)
      else if w.pool.closed then SendOnClosed
      else if |w.pool.queue| < w.pool.maxBacklog then Send
      else SendFull
    case _ => FailSubmit(0)
  }

  lemma CanFollow(cfg: Config, w: World, r: nat, hs: HandlerStep)
    requires L.Orderly(w.ledger) && Enabled(cfg, w, Handle(r, hs)) && !LastStep(w, r, hs)
    requires hs.TryStart? ==> r !in w.pool.seen
    ensures Enabled(cfg, Apply(cfg, w, Handle(r, hs)), Handle(r, Following(w, hs)))
  {
    var w' := Apply(cfg, w, Handle(r, hs));
    PoolAfter(cfg, w, Handle(r, hs));
    assert HandlerReady(w', r, Following(w, hs));
  }

  lemma Stops(cfg: Config, w: World, r: nat, hs: HandlerStep, w': World, next: HandlerStep)
    requires L.Orderly(w.ledger) && Enabled(cfg, w, Handle(r, hs)) && LastStep(w, r, hs)
    requires w' == Apply(cfg, w, Handle(r, hs))
    ensures !Enabled(cfg, w', Handle(r, next))
  {
    if Enabled(cfg, w', Handle(r, next)) {
      OneStageAfterOther(cfg, w, r, hs, w', next);
    }
  }

  lemma StepGoesOnIff(cfg: Config, w: World, r: nat, hs: HandlerStep, w': World)
    requires L.Orderly(w.ledger) && Enabled(cfg, w, Handle(r, hs)) && w' == Apply(cfg, w, Handle(r, hs))
    requires hs.TryStart? ==> r !in w.pool.seen
    ensures GoesOn(cfg, w', r) <==> !LastStep(w, r, hs)
  {
    if LastStep(w, r, hs) {
      forall next
        ensures !Enabled(cfg, w', Handle(r, next))
      {
        Stops(cfg, w, r, hs, w', next);
      }
    } else {
      CanFollow(cfg, w, r, hs);
    }
  }

  lemma StartingMeansCreated(cfg: Config, w: World, r: nat)
    requires Enabled(cfg, w, Handle(r, TryStart))
    ensures r in w.handlers && w.handlers[r].Created?
  {
  }

  lemma NotSeenBefore(cfg: Config, steps: seq<Step>, r: nat)
    requires ValidRun(cfg, steps) && r in Run(cfg, steps).handlers && Run(cfg, steps).handlers[r].Created?
    ensures r !in Run(cfg, steps).pool.seen
  {
    assert RequestsFit(Run(cfg, steps)) by {
      AlwaysFits(cfg, steps);
    }
  }

  /** On every run, whatever panics: a request goes on after each of its steps, unless it saw a
      running job, found a current one at its TryStartJob, got no ID, or has been through its
      submission. */
  lemma RequestGoesOnIff(cfg: Config, steps: seq<Step>, r: nat, hs: HandlerStep)
    requires ValidRun(cfg, steps) && ValidRun(cfg, steps + [Handle(r, hs)])
    ensures GoesOn(cfg, Run(cfg, steps + [Handle(r, hs)]), r) <==> !LastStep(Run(cfg, steps), r, hs)
  {
    RunSplits(cfg, steps, Handle(r, hs));
    AlwaysOrderly(cfg, steps);
    if hs.TryStart? {
      StartingMeansCreated(cfg, Run(cfg, steps), r);
      NotSeenBefore(cfg, steps, r);
    }
    StepGoesOnIff(cfg, Run(cfg, steps), r, hs, Run(cfg, steps + [Handle(r, hs)]));
  }
}
