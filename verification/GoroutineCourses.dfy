/** What the course of an action and of a request leads to, on the runs of the handler that
    spawns goroutines: which step a goroutine or a request takes next, and how its job ends. */
module GoroutineCourses {
  import opened Common
  import opened Jobs
  import opened WebhookGoroutine
  import GoroutineHistory
  import L = Ledger

  lemma RunSplits(cfg: Config, steps: seq<Step>, st: Step)
    requires ValidRun(cfg, steps + [st])
    ensures ValidRun(cfg, steps) && Enabled(cfg, Run(cfg, steps), st)
    ensures Run(cfg, steps + [st]) == Apply(cfg, Run(cfg, steps), st)
  {
    assert Init(steps + [st]) == steps;
  }

  lemma {:induction false} PrefixRuns(cfg: Config, steps: seq<Step>, more: seq<Step>)
    requires ValidRun(cfg, steps + more)
    ensures ValidRun(cfg, steps)
    decreases |more|
  {
    if more == [] {
      assert steps + more == steps;
    } else {
      assert Init(steps + more) == steps + Init(more);
      PrefixRuns(cfg, steps, Init(more));
    }
  }

  // ---- between two steps of a goroutine ----

  predicate StepOf(st: Step, r: nat) {
    st.Go? && st.r == r
  }

  /** None of the steps is one of the goroutine of `r`. */
  ghost predicate Without(steps: seq<Step>, r: nat) {
    forall k :: 0 <= k < |steps| ==> !StepOf(steps[k], r)
  }

  predicate InPhase(w: World, r: nat, ph: Phase) {
    r in w.phases && w.phases[r] == ph
  }

  /** A request spawns no second goroutine. */
  lemma OthersKeepPhase(cfg: Config, w: World, st: Step, r: nat, ph: Phase)
    requires Enabled(cfg, w, st) && !StepOf(st, r) && SpawnedAnswered(w) && InPhase(w, r, ph)
    ensures InPhase(Apply(cfg, w, st), r, ph)
  {
  }

  lemma {:induction false} PhaseKept(cfg: Config, steps: seq<Step>, others: seq<Step>, r: nat, ph: Phase)
    requires ValidRun(cfg, steps) && ValidRun(cfg, steps + others) && Without(others, r)
    requires InPhase(Run(cfg, steps), r, ph)
    ensures InPhase(Run(cfg, steps + others), r, ph)
  {
    if others == [] {
      assert steps + others == steps;
    } else {
      var before := steps + Init(others);
      assert Init(steps + others) == before && Last(steps + others) == others[|others| - 1];
      PhaseKept(cfg, steps, Init(others), r, ph);
      AlwaysSpawnedAnswered(cfg, before);
      OthersKeepPhase(cfg, Run(cfg, before), Last(others), r, ph);
    }
  }

  /** Steps a goroutine may take one after the other, whatever else happens. */
  lemma OneAfterOther(cfg: Config, w: World, r: nat, first: GoStep, w': World, next: GoStep)
    requires Enabled(cfg, w, Go(r, first)) && Enabled(cfg, w', Go(r, next))
    requires InPhase(w', r, Apply(cfg, w, Go(r, first)).phases[r])
    ensures first.ActionReturns? ==> next.Complete?
    ensures first.ActionPanics? ==> next.FailPanicked?
    ensures first.Complete? ==> next.LogReturns? || (cfg.logPanics && next.LogPanics?)
    ensures first.LogPanics? ==> next.FailPanicked?
    ensures !first.LogReturns? && !first.FailPanicked?
  {
  }

  /** On every run, whatever panics, the next step of a goroutine is the one its course calls for:
      an action that panics is followed by a failure, one that returns by a completion; and a
      goroutine takes no step after its last one. */
  lemma NextOfGoroutine(cfg: Config, steps: seq<Step>, r: nat, first: GoStep, others: seq<Step>, next: GoStep)
    requires ValidRun(cfg, steps) && Without(others, r)
    requires ValidRun(cfg, steps + [Go(r, first)] + others + [Go(r, next)])
    ensures first.ActionReturns? ==> next.Complete?
    ensures first.ActionPanics? ==> next.FailPanicked?
    ensures first.Complete? ==> next.LogReturns? || (cfg.logPanics && next.LogPanics?)
    ensures first.LogPanics? ==> next.FailPanicked?
    ensures !first.LogReturns? && !first.FailPanicked?
  {
    var after := steps + [Go(r, first)];
    RunSplits(cfg, after + others, Go(r, next));
    PrefixRuns(cfg, after, others);
    RunSplits(cfg, steps, Go(r, first));
    PhaseKept(cfg, after, others, r, Run(cfg, after).phases[r]);
    OneAfterOther(cfg, Run(cfg, steps), r, first, Run(cfg, after + others), next);
  }

  /** The first step of a goroutine is its action: a request that spawns it leaves it acting. */
  lemma FirstOfGoroutine(cfg: Config, steps: seq<Step>, r: nat, others: seq<Step>, next: GoStep)
    requires ValidRun(cfg, steps) && Without(others, r)
    requires ValidRun(cfg, steps + [Handle(r, Spawn)] + others + [Go(r, next)])
    ensures next.ActionReturns? || next.ActionPanics?
  {
    var after := steps + [Handle(r, Spawn)];
    RunSplits(cfg, after + others, Go(r, next));
    PrefixRuns(cfg, after, others);
    RunSplits(cfg, steps, Handle(r, Spawn));
    PhaseKept(cfg, after, others, r, Acting);
  }

  // ---- how the job of a goroutine ends ----

  /** The phase of a goroutine that settles how its job will end. */
  predicate Settles(ph: Phase, status: Status) {
    (ph.Panicked? && status.Failed?) || (ph.Acted? && status.Completed?)
  }

  /** The goroutine is in that phase, or its job has so ended. */
  predicate Settled(w: World, r: nat, ph: Phase, status: Status) {
    InPhase(w, r, ph) || (r in w.ledger.jobs && w.ledger.jobs[r].status == status)
  }

  lemma EndsInPhase(cfg: Config, w: World, r: nat, gs: GoStep, ph: Phase, status: Status)
    requires GoReady(cfg, w, r, gs) && InPhase(w, r, ph) && Settles(ph, status)
    ensures Ends(gs) && status == if gs.Complete? then Completed else Status.Failed
  {
  }

  lemma EndedStays(cfg: Config, steps: seq<Step>, st: Step, r: nat, job: Job)
    requires ValidRun(cfg, steps) && Enabled(cfg, Run(cfg, steps), st) && L.EndedAs(Run(cfg, steps).ledger, r, job)
    ensures L.EndedAs(Apply(cfg, Run(cfg, steps), st).ledger, r, job)
  {
    Extend(cfg, steps, st);
    GoroutineHistory.EndedIsFinal(cfg, steps, [st], r, job);
  }

  lemma SettledStep(cfg: Config, steps: seq<Step>, st: Step, r: nat, ph: Phase, status: Status)
    requires !cfg.logPanics && ValidRun(cfg, steps) && Enabled(cfg, Run(cfg, steps), st)
    requires Settles(ph, status) && Settled(Run(cfg, steps), r, ph, status)
    ensures Settled(Apply(cfg, Run(cfg, steps), st), r, ph, status)
  {
    var w := Run(cfg, steps);
    if InPhase(w, r, ph) {
      if StepOf(st, r) {
        EndsInPhase(cfg, w, r, st.gs, ph, status);
        GoEndsOwnJob(cfg, steps, r, st.gs);
      } else {
        AlwaysSpawnedAnswered(cfg, steps);
        OthersKeepPhase(cfg, w, st, r, ph);
      }
    } else {
      EndedStays(cfg, steps, st, r, w.ledger.jobs[r]);
    }
  }

  lemma {:induction false} SettledForGood(cfg: Config, steps: seq<Step>, more: seq<Step>, r: nat, ph: Phase,
                                          status: Status)
    requires !cfg.logPanics && ValidRun(cfg, steps) && ValidRun(cfg, steps + more)
    requires Settles(ph, status) && Settled(Run(cfg, steps), r, ph, status)
    ensures Settled(Run(cfg, steps + more), r, ph, status)
  {
    if more == [] {
      assert steps + more == steps;
    } else {
      var before := steps + Init(more);
      assert Init(steps + more) == before && Last(steps + more) == Last(more);
      SettledForGood(cfg, steps, Init(more), r, ph, status);
      SettledStep(cfg, before, Last(more), r, ph, status);
    }
  }

  lemma WorkingMeansRunning(w: World, r: nat, ph: Phase)
    requires OneHolder(w) && L.Orderly(w.ledger) && InPhase(w, r, ph) && Working(ph)
    ensures r in w.ledger.jobs && w.ledger.jobs[r].status.Running?
  {
    assert Holds(w, r);
  }

  /** A settled job is running, or has ended as settled. */
  lemma SettledStatus(cfg: Config, steps: seq<Step>, r: nat, ph: Phase, status: Status)
    requires !cfg.logPanics && ValidRun(cfg, steps)
    requires Settles(ph, status) && Settled(Run(cfg, steps), r, ph, status)
    ensures var l := Run(cfg, steps).ledger;
            r in l.jobs && (l.jobs[r].status.Running? || l.jobs[r].status == status)
  {
    AlwaysOneHolder(cfg, steps);
    AlwaysOrderly(cfg, steps);
    if InPhase(Run(cfg, steps), r, ph) {
      WorkingMeansRunning(Run(cfg, steps), r, ph);
    }
  }

  lemma SettledLater(cfg: Config, steps: seq<Step>, r: nat, gs: GoStep, more: seq<Step>, ph: Phase, status: Status)
    requires !cfg.logPanics && ValidRun(cfg, steps + [Go(r, gs)] + more)
    requires ValidRun(cfg, steps + [Go(r, gs)]) && InPhase(Run(cfg, steps + [Go(r, gs)]), r, ph)
    requires Settles(ph, status)
    ensures var l := Run(cfg, steps + [Go(r, gs)] + more).ledger;
            r in l.jobs && (l.jobs[r].status.Running? || l.jobs[r].status == status)
  {
    SettledForGood(cfg, steps + [Go(r, gs)], more, r, ph, status);
    SettledStatus(cfg, steps + [Go(r, gs)] + more, r, ph, status);
  }

  lemma NowAt(cfg: Config, steps: seq<Step>, r: nat, gs: GoStep, more: seq<Step>)
    requires ValidRun(cfg, steps + [Go(r, gs)] + more)
    ensures ValidRun(cfg, steps) && ValidRun(cfg, steps + [Go(r, gs)]) && Enabled(cfg, Run(cfg, steps), Go(r, gs))
    ensures Run(cfg, steps + [Go(r, gs)]) == Apply(cfg, Run(cfg, steps), Go(r, gs))
  {
    PrefixRuns(cfg, steps + [Go(r, gs)], more);
    RunSplits(cfg, steps, Go(r, gs));
  }

  /** The job of an action that panicked is never completed: from then on, at every later point of
      the run, it is running until it has failed. */
  lemma PanicFails(cfg: Config, steps: seq<Step>, r: nat, more: seq<Step>)
    requires !cfg.logPanics && ValidRun(cfg, steps + [Go(r, ActionPanics)] + more)
    ensures var l := Run(cfg, steps + [Go(r, ActionPanics)] + more).ledger;
            r in l.jobs && (l.jobs[r].status.Running? || l.jobs[r].status.Failed?)
  {
    NowAt(cfg, steps, r, ActionPanics, more);
    SettledLater(cfg, steps, r, ActionPanics, more, Panicked, Status.Failed);
  }

  /** The job of an action that returned never fails: from then on it is running until it is
      completed. */
  lemma ReturnCompletes(cfg: Config, steps: seq<Step>, r: nat, more: seq<Step>)
    requires !cfg.logPanics && ValidRun(cfg, steps + [Go(r, ActionReturns)] + more)
    ensures var l := Run(cfg, steps + [Go(r, ActionReturns)] + more).ledger;
            r in l.jobs && (l.jobs[r].status.Running? || l.jobs[r].status.Completed?)
  {
    NowAt(cfg, steps, r, ActionReturns, more);
    SettledLater(cfg, steps, r, ActionReturns, more, Acted, Completed);
  }

  // ---- between two steps of a request ----

  predicate RequestStep(st: Step, r: nat) {
    st.Handle? && st.r == r
  }

  ghost predicate WithoutRequest(steps: seq<Step>, r: nat) {
    forall k :: 0 <= k < |steps| ==> !RequestStep(steps[k], r)
  }

  predicate AtStage(w: World, r: nat, h: Handler) {
    r in w.handlers && w.handlers[r] == h
  }

  lemma {:induction false} StageKept(cfg: Config, steps: seq<Step>, others: seq<Step>, r: nat, h: Handler)
    requires ValidRun(cfg, steps) && ValidRun(cfg, steps + others) && WithoutRequest(others, r)
    requires AtStage(Run(cfg, steps), r, h)
    ensures AtStage(Run(cfg, steps + others), r, h)
  {
    if others == [] {
      assert steps + others == steps;
    } else {
      var before := steps + Init(others);
      assert Init(steps + others) == before && Last(steps + others) == others[|others| - 1];
      StageKept(cfg, steps, Init(others), r, h);
      assert !RequestStep(Last(others), r);
    }
  }

  /** The job that a request saw when it peeked is running. */
  predicate SeesRunning(w: World, r: nat) {
    && r in w.handlers && w.handlers[r].Peeked? && w.handlers[r].current.Some?
    && w.handlers[r].current.value in w.ledger.jobs
    && w.ledger.jobs[w.handlers[r].current.value].status.Running?
  }

  lemma OneStageAfterOther(cfg: Config, w: World, r: nat, first: HandlerStep, w': World, next: HandlerStep)
    requires L.Orderly(w.ledger) && Enabled(cfg, w, Handle(r, first)) && Enabled(cfg, w', Handle(r, next))
    requires AtStage(w', r, Apply(cfg, w, Handle(r, first)).handlers[r])
    ensures first.Peek? ==> next.Decide? && w'.handlers[r] == Peeked(w.ledger.store.current)
    ensures first.Decide? ==> !SeesRunning(w, r) && (next.NoId? || next.Create?)
    ensures first.Create? ==> next.TryStart?
    ensures first.TryStart? ==> w.ledger.store.current.None? && next.Spawn?
    ensures !first.NoId? && !first.Spawn?
  {
  }

  /** On every run, whatever panics, the next step of a request is the one its course calls for. A
      request goes on after its first check only if the job it saw was not running; it spawns a
      goroutine only if no job was current at its TryStartJob; and it takes no step after it has
      been answered. */
  lemma NextOfRequest(cfg: Config, steps: seq<Step>, r: nat, first: HandlerStep, others: seq<Step>, next: HandlerStep)
    requires ValidRun(cfg, steps) && WithoutRequest(others, r)
    requires ValidRun(cfg, steps + [Handle(r, first)] + others + [Handle(r, next)])
    ensures first.Peek? ==> next.Decide?
    ensures first.Decide? ==> !SeesRunning(Run(cfg, steps), r) && (next.NoId? || next.Create?)
    ensures first.Create? ==> next.TryStart?
    ensures first.TryStart? ==> Run(cfg, steps).ledger.store.current.None? && next.Spawn?
    ensures !first.NoId? && !first.Spawn?
  {
    var after := steps + [Handle(r, first)];
    RunSplits(cfg, after + others, Handle(r, next));
    PrefixRuns(cfg, after, others);
    RunSplits(cfg, steps, Handle(r, first));
    AlwaysOrderly(cfg, steps);
    StageKept(cfg, after, others, r, Run(cfg, after).handlers[r]);
    OneStageAfterOther(cfg, Run(cfg, steps), r, first, Run(cfg, after + others), next);
  }

  /** Some step of the request is enabled. */
  ghost predicate GoesOn(cfg: Config, w: World, r: nat) {
    exists next :: Enabled(cfg, w, Handle(r, next))
  }

  /** The step by which a request is answered. */
  predicate LastStep(w: World, r: nat, hs: HandlerStep) {
    || hs.NoId? || hs.Spawn?
    || (hs.Decide? && SeesRunning(w, r)) || (hs.TryStart? && w.ledger.store.current.Some?)
  }

  /** A step that the request can take after `hs`. */
  function Following(hs: HandlerStep): HandlerStep {
    match hs
    case Peek => Decide
    case Decide => NoId
    case Create(_, _, _) => TryStart
    case _ => Spawn
  }

  lemma StepGoesOnIff(cfg: Config, w: World, r: nat, hs: HandlerStep, w': World)
    requires L.Orderly(w.ledger) && Enabled(cfg, w, Handle(r, hs)) && w' == Apply(cfg, w, Handle(r, hs))
    ensures GoesOn(cfg, w', r) <==> !LastStep(w, r, hs)
  {
    if LastStep(w, r, hs) {
      forall next
        ensures !Enabled(cfg, w', Handle(r, next))
      {
        if Enabled(cfg, w', Handle(r, next)) {
          OneStageAfterOther(cfg, w, r, hs, w', next);
        }
      }
    } else {
      assert Enabled(cfg, w', Handle(r, Following(hs)));
    }
  }

  /** On every run, whatever panics: a request goes on after each of its steps, unless it saw a
      running job, found a current one at its TryStartJob, got no ID, or has spawned its
      goroutine. */
  lemma RequestGoesOnIff(cfg: Config, steps: seq<Step>, r: nat, hs: HandlerStep)
    requires ValidRun(cfg, steps) && ValidRun(cfg, steps + [Handle(r, hs)])
    ensures GoesOn(cfg, Run(cfg, steps + [Handle(r, hs)]), r) <==> !LastStep(Run(cfg, steps), r, hs)
  {
    RunSplits(cfg, steps, Handle(r, hs));
    AlwaysOrderly(cfg, steps);
    StepGoesOnIff(cfg, Run(cfg, steps), r, hs, Run(cfg, steps + [Handle(r, hs)]));
  }
}
