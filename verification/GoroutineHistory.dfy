/** The history of the job store on the runs of the handler that spawns goroutines. */
module GoroutineHistory {
  import opened Common
  import opened Jobs
  import opened WebhookGoroutine
  import L = Ledger
  import LR = LedgerRuns
  import S = JobStore

  /** What a step does to the store and its jobs. */
  function OpOf(st: Step): LR.Op {
    match st
    case Handle(r, Create(id, action, now)) => LR.Create(r, id, action, now)
    case Handle(r, TryStart) => LR.TryStart(r)
    case Go(_, Complete(now)) => LR.Complete(now)
    case Go(_, FailPanicked(now)) => LR.Fail("panic during job execution", now)
    case Cleanup(cutoff) => LR.Cleanup(cutoff)
    case _ => LR.Stay
  }

  function Ops(steps: seq<Step>): (ops: seq<LR.Op>)
    ensures |ops| == |steps| && forall k :: 0 <= k < |steps| ==> ops[k] == OpOf(steps[k])
  {
    seq(|steps|, k requires 0 <= k < |steps| => OpOf(steps[k]))
  }

  /** Requests make their job once and start it once. */
  ghost predicate Made(w: World) {
    RequestsFit(w.handlers, w.ledger.jobs.Keys, w.ledger.store.started, w.phases.Keys)
  }

  lemma HandlerProjects(cfg: Config, w: World, r: nat, hs: HandlerStep)
    requires L.Orderly(w.ledger) && Made(w) && Enabled(cfg, w, Handle(r, hs))
    ensures LR.Enabled(w.ledger, OpOf(Handle(r, hs)))
    ensures LR.Apply(w.ledger, OpOf(Handle(r, hs))) == Apply(cfg, w, Handle(r, hs)).ledger
  {
  }

  lemma OtherProjects(cfg: Config, w: World, st: Step)
    requires L.Orderly(w.ledger) && Enabled(cfg, w, st) && !st.Handle?
    ensures LR.Enabled(w.ledger, OpOf(st)) && LR.Apply(w.ledger, OpOf(st)) == Apply(cfg, w, st).ledger
  {
  }

  lemma StepProjects(cfg: Config, steps: seq<Step>, st: Step)
    requires ValidRun(cfg, steps) && Enabled(cfg, Run(cfg, steps), st)
    ensures var l := Run(cfg, steps).ledger;
            LR.Enabled(l, OpOf(st)) && LR.Apply(l, OpOf(st)) == Apply(cfg, Run(cfg, steps), st).ledger
  {
    var w := Run(cfg, steps);
    AlwaysOrderly(cfg, steps);
    if st.Handle? {
      assert Made(w) by {
        AlwaysFits(cfg, steps);
      }
      HandlerProjects(cfg, w, st.r, st.hs);
    } else {
      OtherProjects(cfg, w, st);
    }
  }

  /** On every run the ledger goes through a run of its own. */
  lemma {:induction false} LedgerProjects(cfg: Config, steps: seq<Step>)
    requires ValidRun(cfg, steps)
    ensures LR.ValidRun(cfg.maxHistory, Ops(steps))
    ensures LR.Run(cfg.maxHistory, Ops(steps)) == Run(cfg, steps).ledger
  {
    if steps != [] {
      LedgerProjects(cfg, Init(steps));
      StepProjects(cfg, Init(steps), Last(steps));
      assert Init(Ops(steps)) == Ops(Init(steps));
    }
  }

  lemma SameCleanup(steps: seq<Step>, k: nat)
    requires k < |steps|
    ensures steps[k].Cleanup? <==> Ops(steps)[k].Cleanup?
    ensures steps[k].Cleanup? ==> steps[k].cutoff == Ops(steps)[k].cutoff
  {
    assert Ops(steps)[k] == OpOf(steps[k]);
  }

  /** On every run, whatever panics: a finished job is missing from the history only if a
      cleanup found it there, made no later than its cutoff, or at least `maxHistory`
      jobs finished after it; and a job that a cleanup so found is missing. */
  lemma HistoryOnRuns(cfg: Config, steps: seq<Step>, r: nat)
    requires ValidRun(cfg, steps) && r in Run(cfg, steps).ledger.store.finished
    ensures LR.ValidRun(cfg.maxHistory, Ops(steps))
    ensures var s := Run(cfg, steps).ledger.store;
            && (r !in s.history ==>
                  LR.Cut(cfg.maxHistory, Ops(steps), r) || S.FinishedAfter(s.finished, r) >= cfg.maxHistory)
            && (LR.Cut(cfg.maxHistory, Ops(steps), r) ==> r !in s.history)
  {
    LedgerProjects(cfg, steps);
    LR.HistoryRetention(cfg.maxHistory, Ops(steps), r);
  }

  /** On every run without cleanup the history is exactly the last `maxHistory` finished jobs. */
  lemma HistoryIsLastOnRuns(cfg: Config, steps: seq<Step>)
    requires ValidRun(cfg, steps) && forall k :: 0 <= k < |steps| ==> !steps[k].Cleanup?
    ensures S.HoldsLast(Run(cfg, steps).ledger.store)
    ensures Run(cfg, steps).ledger.store.maxHistory == cfg.maxHistory
  {
    LedgerProjects(cfg, steps);
    forall k | 0 <= k < |steps|
      ensures !Ops(steps)[k].Cleanup?
    {
      SameCleanup(steps, k);
    }
    LR.HistoryIsLastFinished(cfg.maxHistory, Ops(steps));
  }

  /** A job that has ended never changes again, not even if logging panics after it. */
  lemma EndedIsFinal(cfg: Config, steps: seq<Step>, more: seq<Step>, r: nat, job: Job)
    requires ValidRun(cfg, steps) && ValidRun(cfg, steps + more) && L.EndedAs(Run(cfg, steps).ledger, r, job)
    ensures L.EndedAs(Run(cfg, steps + more).ledger, r, job)
  {
    LedgerProjects(cfg, steps);
    LedgerProjects(cfg, steps + more);
    assert Ops(steps + more)[..|steps|] == Ops(steps);
    LR.EndedIsFinal(cfg.maxHistory, Ops(steps + more), |steps|, r, job);
  }
}
