/** Runs of the job store with the job objects: which finished jobs the history holds, given
    their start times and the cutoffs of the cleanups. */
module LedgerRuns {
  import opened Common
  import opened Jobs
  import L = Ledger
  import S = JobStore

  datatype Op =
    | Create(r: nat, id: string, action: string, now: int)
    | TryStart(r: nat)
    | Complete(now: int)
    | Fail(err: string, now: int)
    | Cleanup(cutoff: int)
    | Stay

  ghost predicate Enabled(l: L.Ledger, op: Op) {
    match op
    case Create(r, id, _, _) => r !in l.jobs && L.IdUnused(l, id)
    case TryStart(r) => r in l.jobs && r in l.traces && r !in l.store.started
    case Complete(_) => L.CurrentKnown(l)
    case Fail(_, _) => L.CurrentKnown(l)
    case _ => true
  }

  ghost function Apply(l: L.Ledger, op: Op): L.Ledger
    requires Enabled(l, op)
  {
    match op
    case Create(r, id, action, now) => L.Create(l, r, id, action, now)
    case TryStart(r) => L.TryStart(l, r)
    case Complete(now) => L.Complete(l, now)
    case Fail(err, now) => L.Fail(l, err, now)
    case Cleanup(cutoff) => L.Cleanup(l, cutoff)
    case Stay => l
  }

  ghost predicate ValidRun(maxHistory: nat, ops: seq<Op>)
    decreases |ops|, 0
  {
    ops != [] ==> ValidRun(maxHistory, Init(ops)) && Enabled(Run(maxHistory, Init(ops)), Last(ops))
  }

  ghost function Run(maxHistory: nat, ops: seq<Op>): L.Ledger
    requires ValidRun(maxHistory, ops)
    decreases |ops|, 1
  {
    if ops == [] then L.Start(maxHistory) else Apply(Run(maxHistory, Init(ops)), Last(ops))
  }

  lemma StepValid(l: L.Ledger, op: Op)
    requires L.Valid(l) && Enabled(l, op)
    ensures L.Valid(Apply(l, op))
  {
    match op
    case Create(r, id, action, now) => L.CreateValid(l, r, id, action, now);
    case TryStart(r) => L.TryStartValid(l, r);
    case Complete(now) => L.CompleteValid(l, now);
    case Fail(err, now) => L.FailValid(l, err, now);
    case Cleanup(cutoff) => L.CleanupValid(l, cutoff);
    case Stay =>
  }

  lemma StepKeepsMax(l: L.Ledger, op: Op)
    requires Enabled(l, op)
    ensures Apply(l, op).store.maxHistory == l.store.maxHistory
  {
  }

  lemma {:induction false} AlwaysValid(maxHistory: nat, ops: seq<Op>)
    requires ValidRun(maxHistory, ops)
    ensures L.Valid(Run(maxHistory, ops)) && Run(maxHistory, ops).store.maxHistory == maxHistory
  {
    if ops == [] {
      L.StartValid(maxHistory);
    } else {
      AlwaysValid(maxHistory, Init(ops));
      StepValid(Run(maxHistory, Init(ops)), Last(ops));
      StepKeepsMax(Run(maxHistory, Init(ops)), Last(ops));
    }
  }

  // ---- prefixes ----

  lemma {:induction false} PrefixValid(maxHistory: nat, ops: seq<Op>, k: nat)
    requires ValidRun(maxHistory, ops) && k <= |ops|
    ensures ValidRun(maxHistory, ops[..k])
    decreases |ops|
  {
    if k == |ops| {
      assert ops[..k] == ops;
    } else {
      PrefixValid(maxHistory, Init(ops), k);
      assert Init(ops)[..k] == ops[..k];
    }
  }

  /** What a job is made with. */
  ghost predicate MadeWith(l: L.Ledger, r: nat, id: string, action: string, now: int) {
    r in l.jobs && l.jobs[r].id == id && l.jobs[r].action == action && l.jobs[r].startTime == now
  }

  lemma StepKeepsMade(l: L.Ledger, op: Op, r: nat, id: string, action: string, now: int)
    requires Enabled(l, op) && MadeWith(l, r, id, action, now)
    ensures MadeWith(Apply(l, op), r, id, action, now)
  {
  }

  /** The job made by a step of the run has the ID and the action it was made with, and as its
      start time the time of that step. */
  lemma {:induction false} MadeByCreate(maxHistory: nat, ops: seq<Op>, c: nat)
    requires ValidRun(maxHistory, ops) && c < |ops| && ops[c].Create?
    ensures MadeWith(Run(maxHistory, ops), ops[c].r, ops[c].id, ops[c].action, ops[c].now)
    decreases |ops|
  {
    if c < |ops| - 1 {
      MadeByCreate(maxHistory, Init(ops), c);
      StepKeepsMade(Run(maxHistory, Init(ops)), Last(ops), ops[c].r, ops[c].id, ops[c].action, ops[c].now);
    }
  }

  lemma StepMakes(l: L.Ledger, op: Op, r: nat)
    requires Enabled(l, op) && r in Apply(l, op).jobs
    ensures r in l.jobs || (op.Create? && op.r == r)
  {
  }

  /** Every job was made by a step of the run. */
  lemma {:induction false} JobWasMade(maxHistory: nat, ops: seq<Op>, r: nat) returns (c: nat)
    requires ValidRun(maxHistory, ops) && r in Run(maxHistory, ops).jobs
    ensures c < |ops| && ops[c].Create? && ops[c].r == r
  {
    if ops == [] {
      assert false;
    } else {
      StepMakes(Run(maxHistory, Init(ops)), Last(ops), r);
      if r in Run(maxHistory, Init(ops)).jobs {
        c := JobWasMade(maxHistory, Init(ops), r);
      } else {
        c := |ops| - 1;
      }
    }
  }

  lemma StepKeepsEnded(l: L.Ledger, op: Op, r: nat, job: Job)
    requires L.Orderly(l) && Enabled(l, op) && L.EndedAs(l, r, job) && r in l.store.started
    ensures L.EndedAs(Apply(l, op), r, job)
  {
    match op
    case Complete(now) => L.EndingKeepsEnded(l, r, job, "", now);
    case Fail(err, now) => L.EndingKeepsEnded(l, r, job, err, now);
    case _ =>
  }

  lemma EndedOnRun(maxHistory: nat, ops: seq<Op>, r: nat, job: Job)
    requires ValidRun(maxHistory, ops) && L.EndedAs(Run(maxHistory, ops), r, job)
    ensures L.Orderly(Run(maxHistory, ops)) && r in Run(maxHistory, ops).store.started
  {
    AlwaysValid(maxHistory, ops);
    L.CurrentIsKnown(Run(maxHistory, ops));
    L.EndedWasStarted(Run(maxHistory, ops), r);
  }

  /** A job that has ended never changes again. */
  lemma {:induction false} EndedIsFinal(maxHistory: nat, ops: seq<Op>, k: nat, r: nat, job: Job)
    requires ValidRun(maxHistory, ops) && k <= |ops| && ValidRun(maxHistory, ops[..k])
    requires L.EndedAs(Run(maxHistory, ops[..k]), r, job)
    ensures L.EndedAs(Run(maxHistory, ops), r, job)
    decreases |ops|
  {
    if k == |ops| {
      assert ops[..k] == ops;
    } else {
      assert Init(ops)[..k] == ops[..k];
      EndedIsFinal(maxHistory, Init(ops), k, r, job);
      EndedOnRun(maxHistory, Init(ops), r, job);
      StepKeepsEnded(Run(maxHistory, Init(ops)), Last(ops), r, job);
    }
  }

  // ---- what a cleanup cuts ----

  /** At its `k`-th step the run cleans up, with `r` in the history, made no later than the
      cutoff at step `c`. */
  ghost predicate CutAt(maxHistory: nat, ops: seq<Op>, k: nat, c: nat, r: nat)
    requires ValidRun(maxHistory, ops)
  {
    && c < k < |ops| && ops[k].Cleanup? && ValidRun(maxHistory, ops[..k])
    && r in Run(maxHistory, ops[..k]).store.history
    && ops[c].Create? && ops[c].r == r && ops[c].now <= ops[k].cutoff
  }

  ghost predicate Cut(maxHistory: nat, ops: seq<Op>, r: nat)
    requires ValidRun(maxHistory, ops)
  {
    exists k: nat, c: nat :: CutAt(maxHistory, ops, k, c, r)
  }

  /** Only a cleanup logs a job as cleaned up. */
  lemma StepCleans(l: L.Ledger, op: Op, r: nat)
    requires Enabled(l, op)
    ensures r in Apply(l, op).store.cleaned
            <==> r in l.store.cleaned
                 || (op.Cleanup? && r in l.store.history && r in l.jobs && l.jobs[r].startTime <= op.cutoff)
  {
    if op.Cleanup? {
      S.SplitElements(l.store.history, L.Stale(l, op.cutoff));
      CleanedElements(l, op.cutoff, r);
    }
  }

  lemma CleanedElements(l: L.Ledger, cutoff: int, r: nat)
    ensures r in S.Within(l.store.history, L.Stale(l, cutoff))
            <==> r in l.store.history && r in l.jobs && l.jobs[r].startTime <= cutoff
  {
    WithinElements(l.store.history, L.Stale(l, cutoff), r);
  }

  lemma {:induction false} WithinElements(s: seq<nat>, kept: set<nat>, r: nat)
    ensures r in S.Within(s, kept) <==> r in s && r in kept
  {
    if s != [] {
      WithinElements(Init(s), kept, r);
      assert s == Init(s) + [Last(s)];
    }
  }

  lemma CutByLast(maxHistory: nat, ops: seq<Op>, r: nat)
    requires ValidRun(maxHistory, ops) && ops != [] && Last(ops).Cleanup?
    requires var l := Run(maxHistory, Init(ops));
             r in l.store.history && r in l.jobs && l.jobs[r].startTime <= Last(ops).cutoff
    ensures Cut(maxHistory, ops, r)
  {
    var c := JobWasMade(maxHistory, Init(ops), r);
    MadeByCreate(maxHistory, Init(ops), c);
    assert ops[..|ops| - 1] == Init(ops);
    assert CutAt(maxHistory, ops, |ops| - 1, c, r);
  }

  lemma {:induction false} CleanedWasCut(maxHistory: nat, ops: seq<Op>, r: nat)
    requires ValidRun(maxHistory, ops) && r in Run(maxHistory, ops).store.cleaned
    ensures Cut(maxHistory, ops, r)
  {
    if ops != [] {
      var before, l := Init(ops), Run(maxHistory, Init(ops));
      StepCleans(l, Last(ops), r);
      if r in l.store.cleaned {
        CleanedWasCut(maxHistory, before, r);
        var k: nat, c: nat :| CutAt(maxHistory, before, k, c, r);
        assert before[..k] == ops[..k];
        assert CutAt(maxHistory, ops, k, c, r);
      } else {
        CutByLast(maxHistory, ops, r);
      }
    }
  }

  lemma {:induction false} CutStaysCleaned(maxHistory: nat, ops: seq<Op>, k: nat, r: nat)
    requires ValidRun(maxHistory, ops) && k < |ops| && ops[k].Cleanup? && ValidRun(maxHistory, ops[..k])
    requires var l := Run(maxHistory, ops[..k]);
             r in l.store.history && r in l.jobs && l.jobs[r].startTime <= ops[k].cutoff
    ensures r in Run(maxHistory, ops).store.cleaned
    decreases |ops|
  {
    StepCleans(Run(maxHistory, Init(ops)), Last(ops), r);
    if k < |ops| - 1 {
      assert Init(ops)[..k] == ops[..k];
      CutStaysCleaned(maxHistory, Init(ops), k, r);
    } else {
      assert Init(ops) == ops[..k];
    }
  }

  lemma CutWasCleaned(maxHistory: nat, ops: seq<Op>, r: nat)
    requires ValidRun(maxHistory, ops) && Cut(maxHistory, ops, r)
    ensures r in Run(maxHistory, ops).store.cleaned
  {
    var k: nat, c: nat :| CutAt(maxHistory, ops, k, c, r);
    MadeByCreate(maxHistory, ops[..k], c);
    CutStaysCleaned(maxHistory, ops, k, r);
  }

  // ---- retention ----

  lemma MissingReason(s: S.Store<nat>, r: nat)
    requires S.Sound(s) && r in s.finished
    ensures r !in s.history ==> r in s.cleaned || S.FinishedAfter(s.finished, r) >= s.maxHistory
    ensures r in s.cleaned ==> r !in s.history
  {
    S.MissingIsTrimmedOrCleaned(s, r);
  }

  /** A finished job is missing from the history only if a cleanup found it there, made no later
      than its cutoff, or at least `maxHistory` jobs finished after it; and a job that
      a cleanup so found is missing. */
  lemma HistoryRetention(maxHistory: nat, ops: seq<Op>, r: nat)
    requires ValidRun(maxHistory, ops) && r in Run(maxHistory, ops).store.finished
    ensures var s := Run(maxHistory, ops).store;
            && (r !in s.history ==> Cut(maxHistory, ops, r) || S.FinishedAfter(s.finished, r) >= maxHistory)
            && (Cut(maxHistory, ops, r) ==> r !in s.history)
  {
    var s := Run(maxHistory, ops).store;
    AlwaysValid(maxHistory, ops);
    MissingReason(s, r);
    if r in s.cleaned {
      CleanedWasCut(maxHistory, ops, r);
    }
    if Cut(maxHistory, ops, r) {
      CutWasCleaned(maxHistory, ops, r);
    }
  }

  lemma StepHoldsLast(l: L.Ledger, op: Op)
    requires Enabled(l, op) && !op.Cleanup? && S.HoldsLast(l.store)
    ensures S.HoldsLast(Apply(l, op).store)
  {
    if op.Complete? || op.Fail? {
      S.FinishHoldsLast(l.store);
    }
  }

  /** Without cleanup the history is exactly the last `maxHistory` finished jobs. */
  lemma {:induction false} HistoryIsLastFinished(maxHistory: nat, ops: seq<Op>)
    requires ValidRun(maxHistory, ops) && forall k :: 0 <= k < |ops| ==> !ops[k].Cleanup?
    ensures S.HoldsLast(Run(maxHistory, ops).store) && Run(maxHistory, ops).store.maxHistory == maxHistory
  {
    if ops != [] {
      HistoryIsLastFinished(maxHistory, Init(ops));
      assert Last(ops) == ops[|ops| - 1];
      StepHoldsLast(Run(maxHistory, Init(ops)), Last(ops));
      StepKeepsMax(Run(maxHistory, Init(ops)), Last(ops));
    }
  }
}
