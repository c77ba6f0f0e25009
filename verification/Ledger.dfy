/** The job objects together with the store that holds some of them: what the critical
    sections of the store do to the status of each job. Jobs are known by a number, one
    for each webhook request; their IDs are distinct, as GenerateJobID makes them. */
module Ledger {
  import opened Common
  import opened Jobs
  import S = JobStore

  /** Every job object made so far, the statuses each went through, and the store. */
  datatype Ledger = Ledger(jobs: map<nat, Job>, traces: map<nat, seq<Status>>, store: S.Store<nat>)

  function Start(maxHistory: nat): Ledger {
    Ledger(map[], map[], S.Empty(maxHistory))
  }

  function Put(l: Ledger, r: nat, job: Job): Ledger
    requires r in l.traces
  {
    l.(jobs := l.jobs[r := job], traces := l.traces[r := l.traces[r] + [job.status]])
  }

  predicate IdUnused(l: Ledger, id: string) {
    forall r :: r in l.jobs ==> l.jobs[r].id != id
  }

  /** entity.NewJob: a job object of its own, not yet in the store. */
  function Create(l: Ledger, r: nat, id: string, action: string, now: int): Ledger {
    l.(jobs := l.jobs[r := NewJob(id, action, now)], traces := l.traces[r := [Pending]])
  }

  /** The current job, if there is one, is running. */
  predicate Busy(l: Ledger) {
    && l.store.current.Some? && l.store.current.value in l.jobs
    && l.jobs[l.store.current.value].status.Running?
  }

  function TryStart(l: Ledger, r: nat): Ledger
    requires r in l.jobs && r in l.traces
  {
    if Busy(l) then l else Put(l, r, l.jobs[r].SetRunning()).(store := l.store.Start(r))
  }

  /** The check of the handlers before they make a job: the job they peeked at is running. */
  predicate StillRunning(l: Ledger, peeked: Option<nat>) {
    peeked.Some? && peeked.value in l.jobs && l.jobs[peeked.value].status.Running?
  }

  predicate CurrentKnown(l: Ledger) {
    l.store.current.Some? ==> l.store.current.value in l.jobs && l.store.current.value in l.traces
  }

  function Complete(l: Ledger, now: int): Ledger
    requires CurrentKnown(l)
  {
    if l.store.current.None? then l
    else
      var r := l.store.current.value;
      Put(l, r, l.jobs[r].SetCompleted(now)).(store := l.store.Finish())
  }

  function Fail(l: Ledger, err: string, now: int): Ledger
    requires CurrentKnown(l)
  {
    if l.store.current.None? then l
    else
      var r := l.store.current.value;
      Put(l, r, l.jobs[r].SetFailed(err, now)).(store := l.store.Finish())
  }

  function Stale(l: Ledger, cutoff: int): set<nat> {
    set r | r in l.store.history && r in l.jobs && l.jobs[r].startTime <= cutoff
  }

  function Cleanup(l: Ledger, cutoff: int): Ledger {
    l.(store := l.store.Clean(Stale(l, cutoff)))
  }

  /** Ending the current job makes no job and starts none. */
  lemma EndingParts(l: Ledger, err: string, now: int)
    requires CurrentKnown(l)
    ensures Complete(l, now).jobs.Keys == Fail(l, err, now).jobs.Keys == l.jobs.Keys
    ensures Complete(l, now).store.started == Fail(l, err, now).store.started == l.store.started
  {
  }

  /** IDs that are as long as the number of their job. */
  function IdOf(r: nat): (id: string)
    ensures |id| == r
  {
    seq(r, _ => 'j')
  }

  /** The jobs made so far, with such IDs. */
  ghost predicate Numbered(l: Ledger, used: set<nat>) {
    l.jobs.Keys == used && forall r :: r in used ==> |l.jobs[r].id| == r
  }

  lemma StartNumbered(l: Ledger, used: set<nat>, r: nat)
    requires Numbered(l, used) && r !in used && l.store.current.None?
    ensures IdUnused(l, IdOf(r))
    ensures var l' := TryStart(Create(l, r, IdOf(r), "update", 0), r);
            Numbered(l', used + {r}) && l'.store.current == Some(r)
  {
    assert TryStart(Create(l, r, IdOf(r), "update", 0), r).jobs.Keys == used + {r};
  }

  lemma EndNumbered(l: Ledger, used: set<nat>, err: string)
    requires Numbered(l, used) && CurrentKnown(l)
    ensures Numbered(Complete(l, 0), used) && Complete(l, 0).store.current.None?
    ensures Numbered(Fail(l, err, 0), used) && Fail(l, err, 0).store.current.None?
  {
    EndingParts(l, err, 0);
  }

  /** A call of CompleteCurrentJob or FailCurrentJob: whose it was and what was current. */
  datatype Call = Call(caller: nat, current: Option<nat>)

  /** Every job that was ended was the job of the one who ended it. */
  ghost predicate RightCalls(calls: seq<Call>) {
    forall c :: c in calls ==> c.current == Some(c.caller)
  }

  // ---- what the operations keep ----

  ghost predicate DistinctIds(l: Ledger) {
    forall a, b :: a in l.jobs && b in l.jobs && a != b ==> l.jobs[a].id != l.jobs[b].id
  }

  /** The status of a job says where it is: pending before it is started, running exactly
      while it is current, ended once it is finished. */
  ghost predicate StatusFits(l: Ledger, r: nat)
    requires r in l.jobs
  {
    var status := l.jobs[r].status;
    && (status.Pending? <==> r !in l.store.started)
    && (status.Running? <==> l.store.current == Some(r))
    && (Terminal(status) <==> r in l.store.finished)
    && l.jobs[r].Consistent()
  }

  ghost predicate TraceFits(l: Ledger, r: nat)
    requires r in l.jobs && r in l.traces
  {
    ProperTrace(l.traces[r]) && Last(l.traces[r]) == l.jobs[r].status
  }

  ghost predicate Valid(l: Ledger) {
    && l.jobs.Keys == l.traces.Keys
    && (forall r :: r in l.store.started ==> r in l.jobs)
    && (forall r :: r in l.jobs ==> StatusFits(l, r) && TraceFits(l, r))
    && DistinctIds(l) && S.Sound(l.store)
  }

  lemma StartValid(maxHistory: nat)
    ensures Valid(Start(maxHistory))
  {
  }

  lemma CurrentOfValid(l: Ledger)
    requires Valid(l) && l.store.current.Some?
    ensures var r := l.store.current.value;
            && r in l.jobs && l.jobs[r].status.Running? && l.traces[r] == [Pending, Running]
            && r in l.store.started && r !in l.store.finished && l.jobs[r].error.None?
    ensures CurrentKnown(l) && Busy(l)
  {
    var r := l.store.current.value;
    assert Last(l.store.started) == r;
    assert r in l.store.started;
    assert StatusFits(l, r) && TraceFits(l, r);
  }

  /** The check of TryStartJob refuses exactly when there is a current job. */
  predicate Orderly(l: Ledger) {
    && CurrentKnown(l) && (Busy(l) <==> l.store.current.Some?)
    && (l.store.current.Some? ==> l.jobs[l.store.current.value].error.None?)
  }

  lemma CurrentIsKnown(l: Ledger)
    requires Valid(l)
    ensures Orderly(l)
  {
    if l.store.current.Some? {
      CurrentOfValid(l);
    }
  }

  lemma CreateValid(l: Ledger, r: nat, id: string, action: string, now: int)
    requires Valid(l) && r !in l.jobs && IdUnused(l, id)
    ensures Valid(Create(l, r, id, action, now))
  {
    var l' := Create(l, r, id, action, now);
    CurrentIsKnown(l);
    forall x | x in l'.jobs
      ensures StatusFits(l', x) && TraceFits(l', x)
    {
      if x != r {
        assert StatusFits(l, x) && TraceFits(l, x);
      } else {
        assert forall y :: y in l.store.finished ==> y in l.store.started;
      }
    }
  }

  lemma StartOne(l: Ledger, l': Ledger, r: nat, x: nat)
    requires r in l.jobs && r in l.traces && r !in l.store.started && l.store.current.None?
    requires l' == Put(l, r, l.jobs[r].SetRunning()).(store := l.store.Start(r))
    requires x in l.jobs && x in l.traces && StatusFits(l, x) && TraceFits(l, x)
    ensures x in l'.jobs && x in l'.traces && StatusFits(l', x) && TraceFits(l', x)
  {
    assert l'.store.started == l.store.started + [r];
  }

  lemma StartKeepsIds(l: Ledger, r: nat)
    requires DistinctIds(l) && r in l.jobs && r in l.traces
    ensures DistinctIds(TryStart(l, r))
    ensures TryStart(l, r).jobs.Keys == l.jobs.Keys && TryStart(l, r).traces.Keys == l.traces.Keys
  {
  }

  lemma StartKeepsFits(l: Ledger, r: nat)
    requires r in l.jobs && r in l.traces && r !in l.store.started && l.store.current.None?
    requires l.jobs.Keys == l.traces.Keys && forall x :: x in l.jobs ==> StatusFits(l, x) && TraceFits(l, x)
    ensures var l' := TryStart(l, r);
            forall x :: x in l.jobs ==> x in l'.jobs && x in l'.traces && StatusFits(l', x) && TraceFits(l', x)
  {
    var l' := TryStart(l, r);
    forall x | x in l.jobs
      ensures x in l'.jobs && x in l'.traces && StatusFits(l', x) && TraceFits(l', x)
    {
      StartOne(l, l', r, x);
    }
  }

  lemma TryStartValid(l: Ledger, r: nat)
    requires Valid(l) && r in l.jobs && r !in l.store.started
    ensures r in l.traces && Valid(TryStart(l, r))
  {
    CurrentIsKnown(l);
    if !Busy(l) {
      StartKeepsIds(l, r);
      StartKeepsFits(l, r);
      S.StartSound(l.store, r);
    }
  }

  lemma EndOne(l: Ledger, l': Ledger, r: nat, job: Job, x: nat)
    requires l.store.current == Some(r) && r in l.jobs && r in l.traces && r in l.store.started
    requires x in l.jobs && x in l.traces && StatusFits(l, x) && TraceFits(l, x)
    requires x == r ==> l.traces[r] == [Pending, Running]
    requires Terminal(job.status) && job.Consistent()
    requires l' == Put(l, r, job).(store := l.store.Finish())
    ensures x in l'.jobs && x in l'.traces && StatusFits(l', x) && TraceFits(l', x)
  {
    assert l'.store.finished == l.store.finished + [r];
  }

  lemma SameIds(l: Ledger, r: nat, job: Job)
    requires DistinctIds(l) && r in l.jobs && r in l.traces && job.id == l.jobs[r].id
    ensures DistinctIds(Put(l, r, job))
  {
  }

  /** Ending the current job with a terminal status. */
  lemma EndValid(l: Ledger, r: nat, job: Job)
    requires Valid(l) && l.store.current == Some(r) && r in l.traces
    requires Terminal(job.status) && job.Consistent()
    requires r in l.jobs && job.id == l.jobs[r].id
    ensures Valid(Put(l, r, job).(store := l.store.Finish()))
  {
    var l' := Put(l, r, job).(store := l.store.Finish());
    CurrentOfValid(l);
    S.FinishSound(l.store);
    SameIds(l, r, job);
    forall x | x in l'.jobs
      ensures StatusFits(l', x) && TraceFits(l', x)
    {
      EndOne(l, l', r, job, x);
    }
  }

  lemma CompleteValid(l: Ledger, now: int)
    requires Valid(l) && CurrentKnown(l)
    ensures Valid(Complete(l, now))
  {
    if l.store.current.Some? {
      EndValid(l, l.store.current.value, l.jobs[l.store.current.value].SetCompleted(now));
    }
  }

  lemma FailValid(l: Ledger, err: string, now: int)
    requires Valid(l) && CurrentKnown(l)
    ensures Valid(Fail(l, err, now))
  {
    if l.store.current.Some? {
      EndValid(l, l.store.current.value, l.jobs[l.store.current.value].SetFailed(err, now));
    }
  }

  lemma CleanupValid(l: Ledger, cutoff: int)
    requires Valid(l)
    ensures Valid(Cleanup(l, cutoff))
  {
    var l' := Cleanup(l, cutoff);
    assert S.Sound(l'.store) by {
      S.CleanSound(l.store, Stale(l, cutoff));
    }
    assert l'.store.started == l.store.started && l'.store.finished == l.store.finished;
    assert l'.store.current == l.store.current;
    forall x | x in l'.jobs
      ensures StatusFits(l', x) && TraceFits(l', x)
    {
      assert StatusFits(l, x) && TraceFits(l, x);
    }
  }

  // ---- consequences for every valid ledger ----

  /** Each job went through pending, running, and then completed or failed, or as far as it
      got; its end time is set exactly when it ended; every job in the history has ended and
      the current job is running. */
  ghost predicate StatusesProper(l: Ledger) {
    && (forall r :: r in l.traces ==> ProperTrace(l.traces[r]))
    && (forall r :: r in l.jobs ==> (l.jobs[r].endTime.Some? <==> Terminal(l.jobs[r].status)))
    && (forall r :: r in l.jobs ==> (l.jobs[r].error.Some? <==> l.jobs[r].status.Failed?))
    && (forall r :: r in l.store.history ==> r in l.jobs && Terminal(l.jobs[r].status))
    && (l.store.current.Some? ==> l.store.current.value in l.jobs && l.jobs[l.store.current.value].status.Running?)
  }

  lemma StatusTraces(l: Ledger)
    requires Valid(l)
    ensures StatusesProper(l)
  {
    forall r | r in l.traces
      ensures ProperTrace(l.traces[r])
    {
      assert StatusFits(l, r) && TraceFits(l, r);
    }
    forall r | r in l.jobs
      ensures l.jobs[r].endTime.Some? <==> Terminal(l.jobs[r].status)
      ensures l.jobs[r].error.Some? <==> l.jobs[r].status.Failed?
    {
      assert StatusFits(l, r);
    }
    forall r | r in l.store.history
      ensures r in l.jobs && Terminal(l.jobs[r].status)
    {
      HistoryFinished(l, r);
      assert StatusFits(l, r);
    }
    if l.store.current.Some? {
      CurrentOfValid(l);
    }
  }

  lemma HistoryFinished(l: Ledger, r: nat)
    requires Valid(l) && r in l.store.history
    ensures r in l.store.finished && r in l.jobs
  {
    assert r in multiset(l.store.history);
    assert r in multiset(l.store.finished);
    assert r in l.store.started;
  }

  lemma NoneCurrentIffAllFinished(l: Ledger)
    requires S.OneAtATime(l.store)
    ensures l.store.current.None? <==> l.store.started == l.store.finished
  {
  }

  // ---- how a job ends ----

  /** From `l` to `l'` exactly the job `r` has changed: it was running, it has ended with this
      status and error at this time, and it is the last one finished. */
  ghost predicate EndsJob(l: Ledger, l': Ledger, r: nat, status: Status, error: Option<string>, now: int) {
    && r in l.jobs && l.jobs[r].status.Running? && r in l'.jobs && l'.jobs == l.jobs[r := l'.jobs[r]]
    && l'.jobs[r].status == status && l'.jobs[r].endTime == Some(now) && l'.jobs[r].error == error
    && l'.store.current.None? && l'.store.finished == l.store.finished + [r] && l'.store.started == l.store.started
  }

  lemma EndsCurrent(l: Ledger, r: nat, err: string, now: int)
    requires Orderly(l) && l.store.current == Some(r)
    ensures EndsJob(l, Complete(l, now), r, Completed, None, now)
    ensures EndsJob(l, Fail(l, err, now), r, Status.Failed, Some(err), now)
  {
  }

  /** The job `r` has ended, as `job`. */
  predicate EndedAs(l: Ledger, r: nat, job: Job) {
    r in l.jobs && l.jobs[r] == job && Terminal(job.status)
  }

  lemma EndingKeepsEnded(l: Ledger, r: nat, job: Job, err: string, now: int)
    requires Orderly(l) && EndedAs(l, r, job)
    ensures EndedAs(Complete(l, now), r, job) && EndedAs(Fail(l, err, now), r, job)
  {
  }

  lemma EndedWasStarted(l: Ledger, r: nat)
    requires Valid(l) && r in l.jobs && Terminal(l.jobs[r].status)
    ensures r in l.store.started
  {
    assert StatusFits(l, r);
  }

  // ---- lookups ----

  function HistoryIds(l: Ledger): (ids: seq<string>)
    requires forall r :: r in l.store.history ==> r in l.jobs
    ensures |ids| == |l.store.history|
    ensures forall k :: 0 <= k < |ids| ==> ids[k] == l.jobs[l.store.history[k]].id
  {
    seq(|l.store.history|, k requires 0 <= k < |l.store.history| => l.jobs[l.store.history[k]].id)
  }

  predicate IsCurrent(l: Ledger, id: string) {
    && l.store.current.Some? && l.store.current.value in l.jobs
    && l.jobs[l.store.current.value].id == id
  }

  /** GetJob: the current job, else the first match of the history. */
  function GetJob(l: Ledger, id: string): Option<nat>
    requires forall r :: r in l.store.history ==> r in l.jobs
  {
    if IsCurrent(l, id) then l.store.current
    else if S.FirstOf(HistoryIds(l), id) < |l.store.history| then Some(l.store.history[S.FirstOf(HistoryIds(l), id)])
    else None
  }

  /** GetJobByID: the current job, else the last match of the history. */
  function GetJobByID(l: Ledger, id: string): Option<nat>
    requires forall r :: r in l.store.history ==> r in l.jobs
  {
    if IsCurrent(l, id) then l.store.current
    else if S.LastOf(HistoryIds(l), id) < |l.store.history| then Some(l.store.history[S.LastOf(HistoryIds(l), id)])
    else None
  }

  predicate Held(l: Ledger, r: nat) {
    l.store.current == Some(r) || r in l.store.history
  }

  lemma HistoryIdsDistinct(l: Ledger)
    requires Valid(l)
    ensures forall r :: r in l.store.history ==> r in l.jobs
    ensures S.NoRepeats(HistoryIds(l))
  {
    forall r | r in l.store.history
      ensures r in l.jobs
    {
      HistoryFinished(l, r);
    }
    S.FinishedNoRepeats(l.store);
    S.SubsequenceNoRepeats(l.store.history, l.store.finished);
  }

  lemma FoundIffHeld(l: Ledger, r: nat)
    requires Valid(l) && r in l.jobs
    ensures forall x :: x in l.store.history ==> x in l.jobs
    ensures GetJob(l, l.jobs[r].id) == Some(r) <==> Held(l, r)
  {
    HistoryIdsDistinct(l);
    CurrentIsKnown(l);
    var id, ids := l.jobs[r].id, HistoryIds(l);
    if l.store.current == Some(r) {
      assert IsCurrent(l, id);
    } else {
      assert !IsCurrent(l, id);
      if r in l.store.history {
        var k :| 0 <= k < |l.store.history| && l.store.history[k] == r;
        assert ids[k] == id;
      }
    }
  }

  /** The two scans agree on every ID, and they find a job exactly when the store holds it:
      from its acceptance until the history drops it. */
  lemma LookupsAgree(l: Ledger, id: string)
    requires Valid(l)
    ensures forall r :: r in l.store.history ==> r in l.jobs
    ensures GetJob(l, id) == GetJobByID(l, id)
    ensures forall r :: r in l.jobs && l.jobs[r].id == id ==> (GetJob(l, id) == Some(r) <==> Held(l, r))
    ensures GetJob(l, id).Some? ==> GetJob(l, id).value in l.jobs && l.jobs[GetJob(l, id).value].id == id
  {
    HistoryIdsDistinct(l);
    CurrentIsKnown(l);
    assert GetJob(l, id) == GetJobByID(l, id) by {
      S.LookupsAgree(HistoryIds(l), id);
    }
    forall r | r in l.jobs && l.jobs[r].id == id
      ensures GetJob(l, id) == Some(r) <==> Held(l, r)
    {
      FoundIffHeld(l, r);
    }
  }

  // ---- what the store holds ----

  /** Starts are the finished jobs and the current one, in order; finished jobs are in the
      history, trimmed or cleaned up; no job is in the store twice; and the two lookups of `id`
      agree and find exactly the jobs the store holds. */
  ghost predicate StoreProper(l: Ledger, id: string) {
    && l.store.started == l.store.finished + (if l.store.current.Some? then [l.store.current.value] else [])
    && |l.store.finished| == |l.store.history| + |l.store.trimmed| + |l.store.cleaned|
    && S.NoRepeats(l.store.history + if l.store.current.Some? then [l.store.current.value] else [])
    && (forall r :: r in l.store.history ==> r in l.jobs)
    && GetJob(l, id) == GetJobByID(l, id)
    && (forall r :: r in l.jobs && l.jobs[r].id == id ==> (GetJob(l, id) == Some(r) <==> Held(l, r)))
  }

  lemma StoreIsProper(l: Ledger, id: string)
    requires Valid(l)
    ensures StoreProper(l, id)
  {
    LookupsAgree(l, id);
    StoreCounts(l.store);
  }

  lemma StoreCounts(s: S.Store<nat>)
    requires S.Sound(s)
    ensures s.started == s.finished + (if s.current.Some? then [s.current.value] else [])
    ensures |s.finished| == |s.history| + |s.trimmed| + |s.cleaned|
    ensures S.NoRepeats(s.history + if s.current.Some? then [s.current.value] else [])
  {
    assert |multiset(s.finished)| == |s.finished|;
    S.HeldOnce(s);
  }

  /** The job `r` is found by its ID, unless the history has dropped it. */
  ghost predicate Findable(l: Ledger, r: nat) {
    && r in l.jobs && (forall x :: x in l.store.history ==> x in l.jobs)
    && (GetJob(l, l.jobs[r].id) == Some(r) || r in l.store.trimmed || r in l.store.cleaned)
  }

  lemma StartedFound(l: Ledger, r: nat)
    requires Valid(l) && r in l.store.started
    ensures Findable(l, r)
  {
    FoundIffHeld(l, r);
    CurrentIsKnown(l);
    if r in l.store.finished {
      S.MissingIsTrimmedOrCleaned(l.store, r);
    }
  }
}
