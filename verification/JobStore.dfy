/** The job store: at most one current job and a bounded history of finished ones. The
    logs of started, finished, trimmed and cleaned jobs say what became of each. */
module JobStore {
  import opened Common
  import opened Jobs

  /** Jobs are known by references of type R. */
  datatype Store<R(==)> = Store(
    maxHistory: nat,
    current: Option<R>,
    history: seq<R>,
    started: seq<R>,
    finished: seq<R>,
    trimmed: seq<R>,
    cleaned: seq<R>)
  {
    function Start(job: R): Store<R> {
      this.(current := Some(job), started := started + [job])
    }

    /** CompleteCurrentJob and FailCurrentJob end whatever job is current. */
    function Finish(): Store<R> {
      if current.None? then this else this.(current := None).AddToHistory(current.value)
    }

    function AddToHistory(job: R): Store<R> {
      var all := history + [job];
      var over := if |all| > maxHistory then |all| - maxHistory else 0;
      this.(history := all[over..], trimmed := trimmed + all[..over], finished := finished + [job])
    }

    function Clean(stale: set<R>): Store<R> {
      this.(history := Without(history, stale), cleaned := cleaned + Within(history, stale))
    }
  }

  function Without<R(==)>(s: seq<R>, out: set<R>): seq<R> {
    if s == [] then [] else if Last(s) in out then Without(Init(s), out) else Without(Init(s), out) + [Last(s)]
  }

  function Within<R(==)>(s: seq<R>, kept: set<R>): seq<R> {
    if s == [] then [] else if Last(s) in kept then Within(Init(s), kept) + [Last(s)] else Within(Init(s), kept)
  }

  function Empty<R(==)>(maxHistory: nat): Store<R> {
    Store(maxHistory, None, [], [], [], [], [])
  }

  // ---- what every operation keeps ----

  ghost predicate NoRepeats<R>(s: seq<R>) {
    forall i, j :: 0 <= i < j < |s| ==> s[i] != s[j]
  }

  /** `a` is `b` with some elements left out, in the same order. */
  ghost predicate Subsequence<R>(a: seq<R>, b: seq<R>) {
    if a == [] then true
    else if b == [] then false
    else if Last(a) == Last(b) then Subsequence(Init(a), Init(b))
    else Subsequence(a, Init(b))
  }

  /** Number of jobs finished after `job`. */
  ghost function FinishedAfter<R>(finished: seq<R>, job: R): nat
    requires job in finished
  {
    if Last(finished) == job then 0 else 1 + FinishedAfter(Init(finished), job)
  }

  /** Jobs are started one after the other, each one finished before the next starts. */
  predicate OneAtATime<R(==)>(s: Store<R>) {
    s.started == s.finished + if s.current.Some? then [s.current.value] else []
  }

  /** Every finished job is in the history, was trimmed or was cleaned up. */
  predicate Accounted<R(==)>(s: Store<R>) {
    multiset(s.finished) == multiset(s.history) + multiset(s.trimmed) + multiset(s.cleaned)
  }

  ghost predicate TrimmedLate<R>(s: Store<R>) {
    forall job :: job in s.trimmed ==> job in s.finished && FinishedAfter(s.finished, job) >= s.maxHistory
  }

  ghost predicate Sound<R>(s: Store<R>) {
    && OneAtATime(s) && NoRepeats(s.started) && Accounted(s)
    && |s.history| <= s.maxHistory && Subsequence(s.history, s.finished) && TrimmedLate(s)
  }

  // ---- subsequences ----

  lemma {:induction false} SubsequenceSelf<R>(a: seq<R>)
    ensures Subsequence(a, a)
  {
    if a != [] {
      SubsequenceSelf(Init(a));
    }
  }

  lemma {:induction false} SubsequenceWiden<R>(a: seq<R>, b: seq<R>)
    requires a != [] && Subsequence(a, b)
    ensures Subsequence(Init(a), b)
    decreases |b|, 0
  {
    if Last(a) == Last(b) {
      SubsequenceExtend(Init(a), Init(b), Last(b));
      assert Init(b) + [Last(b)] == b;
    } else {
      SubsequenceWiden(a, Init(b));
      SubsequenceExtend(Init(a), Init(b), Last(b));
      assert Init(b) + [Last(b)] == b;
    }
  }

  lemma {:induction false} SubsequenceExtend<R>(a: seq<R>, b: seq<R>, x: R)
    requires Subsequence(a, b)
    ensures Subsequence(a, b + [x])
    decreases |b|, 1
  {
    assert Init(b + [x]) == b;
    if a != [] && Last(a) == x {
      SubsequenceWiden(a, b);
    }
  }

  lemma SubsequenceSnoc<R>(a: seq<R>, b: seq<R>, x: R)
    requires Subsequence(a, b)
    ensures Subsequence(a + [x], b + [x])
  {
    assert Init(a + [x]) == a && Init(b + [x]) == b;
  }

  /** Dropping elements from the front keeps a subsequence one. */
  lemma {:induction false} SubsequenceDrop<R>(a: seq<R>, n: nat, b: seq<R>)
    requires Subsequence(a, b) && n <= |a|
    ensures Subsequence(a[n..], b)
    decreases |b|
  {
    if n < |a| {
      assert Last(a[n..]) == Last(a) && Init(a[n..]) == Init(a)[n..];
      if Last(a) == Last(b) {
        SubsequenceDrop(Init(a), n, Init(b));
      } else {
        SubsequenceDrop(a, n, Init(b));
      }
    }
  }

  lemma {:induction false} SubsequenceWithout<R>(a: seq<R>, out: set<R>, b: seq<R>)
    requires Subsequence(a, b)
    ensures Subsequence(Without(a, out), b)
    decreases |b|, |a|
  {
    if a != [] {
      if Last(a) != Last(b) {
        SubsequenceWithout(a, out, Init(b));
        SubsequenceExtend(Without(a, out), Init(b), Last(b));
        assert Init(b) + [Last(b)] == b;
      } else {
        SubsequenceWithout(Init(a), out, Init(b));
        assert Init(b) + [Last(b)] == b;
        if Last(a) in out {
          SubsequenceExtend(Without(a, out), Init(b), Last(b));
        } else {
          SubsequenceSnoc(Without(Init(a), out), Init(b), Last(b));
        }
      }
    }
  }

  // ---- operations keep the store sound ----

  lemma {:induction false} SplitElements<R>(s: seq<R>, out: set<R>)
    ensures multiset(s) == multiset(Without(s, out)) + multiset(Within(s, out))
    ensures |Without(s, out)| <= |s|
    ensures forall x :: x in Within(s, out) ==> x in out && x in s
    ensures forall x :: x in Without(s, out) <==> x in s && x !in out
  {
    if s != [] {
      SplitElements(Init(s), out);
      assert s == Init(s) + [Last(s)];
    }
  }

  lemma StartSound<R>(s: Store<R>, job: R)
    requires Sound(s) && s.current.None? && job !in s.started
    ensures Sound(s.Start(job))
  {
    assert s.Start(job).started == s.finished + [job];
  }

  /** In a sequence without repeats the first of `n` last elements has n - 1 after it. */
  lemma {:induction false} SubsequenceAfter<R>(a: seq<R>, i: nat, b: seq<R>)
    requires Subsequence(a, b) && i < |a| && NoRepeats(b)
    ensures a[i] in b && FinishedAfter(b, a[i]) >= |a| - 1 - i
    decreases |b|
  {
    if Last(a) == Last(b) {
      if i < |a| - 1 {
        SubsequenceAfter(Init(a), i, Init(b));
        assert a[i] == Init(a)[i] && a[i] in Init(b);
        NotLast(b, a[i]);
      }
    } else {
      SubsequenceAfter(a, i, Init(b));
      NotLast(b, a[i]);
    }
  }

  lemma NotLast<R>(b: seq<R>, x: R)
    requires b != [] && NoRepeats(b) && x in Init(b)
    ensures x != Last(b) && x in b
  {
    var k :| 0 <= k < |b| - 1 && Init(b)[k] == x;
    assert b[k] == x;
  }

  lemma FinishedAfterGrows<R>(finished: seq<R>, job: R, next: R)
    requires job in finished && job != next
    ensures FinishedAfter(finished + [next], job) == FinishedAfter(finished, job) + 1
  {
    assert Init(finished + [next]) == finished;
  }

  lemma FinishedNoRepeats<R>(s: Store<R>)
    requires Sound(s)
    ensures NoRepeats(s.finished)
  {
    assert forall i :: 0 <= i < |s.finished| ==> s.started[i] == s.finished[i];
  }

  lemma AddAccounted<R>(s: Store<R>, job: R)
    requires Accounted(s)
    ensures Accounted(s.AddToHistory(job))
  {
    var all, s' := s.history + [job], s.AddToHistory(job);
    var over := |all| - |s'.history|;
    assert s'.history == all[over..] && all == all[..over] + s'.history;
    assert multiset(all) == multiset(all[..over] + s'.history);
    MoveParts(multiset(s.history), multiset(s.trimmed), multiset(s.cleaned), multiset{job},
              multiset(all[..over]), multiset(s'.history));
  }

  lemma MoveParts<R>(history: multiset<R>, trimmed: multiset<R>, cleaned: multiset<R>,
                     job: multiset<R>, out: multiset<R>, rest: multiset<R>)
    requires history + job == out + rest
    ensures history + trimmed + cleaned + job == rest + (trimmed + out) + cleaned
  {
    forall x
      ensures (history + trimmed + cleaned + job)[x] == (rest + (trimmed + out) + cleaned)[x]
    {
      assert (history + job)[x] == (out + rest)[x];
    }
  }

  lemma FinishKeepsOrder<R>(s: Store<R>)
    requires s.current.Some? && |s.history| <= s.maxHistory && Subsequence(s.history, s.finished)
    ensures |s.Finish().history| <= s.maxHistory && Subsequence(s.Finish().history, s.Finish().finished)
  {
    var job, all := s.current.value, s.history + [s.current.value];
    SubsequenceSnoc(s.history, s.finished, job);
    SubsequenceDrop(all, if |all| > s.maxHistory then |all| - s.maxHistory else 0, s.finished + [job]);
  }

  lemma FinishLogs<R>(s: Store<R>)
    requires OneAtATime(s) && s.current.Some?
    ensures OneAtATime(s.Finish()) && s.Finish().started == s.started == s.Finish().finished
    ensures s.Finish().maxHistory == s.maxHistory
  {
  }

  lemma FinishAccounted<R>(s: Store<R>)
    requires Accounted(s) && s.current.Some?
    ensures Accounted(s.Finish())
  {
    AddAccounted(s.(current := None), s.current.value);
  }

  lemma FinishSound<R>(s: Store<R>)
    requires Sound(s)
    ensures Sound(s.Finish())
  {
    if s.current.Some? {
      FinishLogs(s);
      FinishAccounted(s);
      FinishKeepsOrder(s);
      FinishTrims(s);
    }
  }

  lemma FinishTrims<R>(s: Store<R>)
    requires Sound(s) && s.current.Some?
    ensures TrimmedLate(s.Finish())
  {
    var job, all, s' := s.current.value, s.history + [s.current.value], s.Finish();
    assert s'.finished == s.started;
    SubsequenceSnoc(s.history, s.finished, job);
    forall x | x in s'.trimmed
      ensures x in s'.finished && FinishedAfter(s'.finished, x) >= s'.maxHistory
    {
      if x in s.trimmed {
        assert x in s.finished && s'.finished == s.finished + [job];
        NotLast(s'.finished, x);
        FinishedAfterGrows(s.finished, x, job);
      } else {
        assert |all| == s.maxHistory + 1 && x == all[0];
        SubsequenceAfter(all, 0, s'.finished);
      }
    }
  }

  lemma CleanSound<R>(s: Store<R>, stale: set<R>)
    requires Sound(s)
    ensures Sound(s.Clean(stale))
  {
    SplitElements(s.history, stale);
    SubsequenceWithout(s.history, stale, s.finished);
  }

  // ---- runs of the store ----

  // A cleanup removes any set of jobs here; LedgerRuns has the start times and the cutoff.

  datatype Op<R> = Begin(job: R) | End | Cleanup(stale: set<R>)

  ghost predicate Enabled<R>(s: Store<R>, op: Op<R>) {
    op.Begin? ==> s.current.None? && op.job !in s.started
  }

  function Apply<R(==)>(s: Store<R>, op: Op<R>): Store<R> {
    match op
    case Begin(job) => s.Start(job)
    case End => s.Finish()
    case Cleanup(stale) => s.Clean(stale)
  }

  function Run<R(==)>(maxHistory: nat, ops: seq<Op<R>>): Store<R> {
    if ops == [] then Empty(maxHistory) else Apply(Run(maxHistory, Init(ops)), Last(ops))
  }

  ghost predicate ValidRun<R>(maxHistory: nat, ops: seq<Op<R>>) {
    ops != [] ==> ValidRun(maxHistory, Init(ops)) && Enabled(Run(maxHistory, Init(ops)), Last(ops))
  }

  lemma {:induction false} AlwaysSound<R>(maxHistory: nat, ops: seq<Op<R>>)
    requires ValidRun(maxHistory, ops)
    ensures Sound(Run(maxHistory, ops)) && Run(maxHistory, ops).maxHistory == maxHistory
  {
    if ops != [] {
      var s := Run(maxHistory, Init(ops));
      AlwaysSound(maxHistory, Init(ops));
      match Last(ops) {
        case Begin(job) => StartSound(s, job);
        case End => FinishSound(s);
        case Cleanup(stale) => CleanSound(s, stale);
      }
    }
  }

  /** A cleanup of the run was to remove `job` and found it in the history. */
  ghost predicate CutByCleanup<R>(maxHistory: nat, ops: seq<Op<R>>, job: R) {
    exists k :: 0 <= k < |ops| && ops[k].Cleanup? && job in ops[k].stale && job in Run(maxHistory, ops[..k]).history
  }

  lemma {:induction false} CleanedWasCut<R>(maxHistory: nat, ops: seq<Op<R>>, job: R)
    requires job in Run(maxHistory, ops).cleaned
    ensures CutByCleanup(maxHistory, ops, job)
  {
    var before := Init(ops);
    assert ops[..|ops| - 1] == before;
    if job in Run(maxHistory, before).cleaned {
      CleanedWasCut(maxHistory, before, job);
      var k :| 0 <= k < |before| && before[k].Cleanup? && job in before[k].stale
            && job in Run(maxHistory, before[..k]).history;
      assert before[..k] == ops[..k] && ops[k] == before[k];
    } else {
      SplitElements(Run(maxHistory, before).history, Last(ops).stale);
      assert Last(ops) == ops[|ops| - 1];
    }
  }

  lemma {:induction false} CutWasCleaned<R>(maxHistory: nat, ops: seq<Op<R>>, job: R, k: nat)
    requires k < |ops| && ops[k].Cleanup? && job in ops[k].stale && job in Run(maxHistory, ops[..k]).history
    ensures job in Run(maxHistory, ops).cleaned
  {
    if k < |ops| - 1 {
      assert Init(ops)[..k] == ops[..k];
      CutWasCleaned(maxHistory, Init(ops), job, k);
    } else {
      assert Init(ops) == ops[..k];
      var s := Run(maxHistory, Init(ops));
      SplitElements(s.history, ops[k].stale);
      assert job in multiset(s.history);
    }
  }

  lemma MissingIsTrimmedOrCleaned<R>(s: Store<R>, job: R)
    requires Sound(s) && job in s.finished
    ensures job in s.history <==> job !in s.trimmed && job !in s.cleaned
  {
    assert job in multiset(s.finished);
    FinishedNoRepeats(s);
    NoRepeatsOnce(s.finished, job);
  }

  lemma {:induction false} NoRepeatsOnce<R>(s: seq<R>, x: R)
    requires NoRepeats(s)
    ensures multiset(s)[x] <= 1
  {
    if s != [] {
      NoRepeatsOnce(Init(s), x);
      assert s == Init(s) + [Last(s)];
      if x == Last(s) && x in Init(s) {
        NotLast(s, x);
      }
    }
  }

  /** On every run: the history is an ordered part of the finished jobs no longer than
      `maxHistory`; a finished job is missing from it only if a cleanup cut it or at least
      `maxHistory` jobs finished after it; and a job cut by a cleanup never comes back. */
  lemma HistoryRetention<R>(maxHistory: nat, ops: seq<Op<R>>)
    requires ValidRun(maxHistory, ops)
    ensures var s := Run(maxHistory, ops);
            && |s.history| <= maxHistory && Subsequence(s.history, s.finished)
            && (forall job :: job in s.finished && job !in s.history ==>
                  CutByCleanup(maxHistory, ops, job) || FinishedAfter(s.finished, job) >= maxHistory)
            && (forall job :: job in s.finished && CutByCleanup(maxHistory, ops, job) ==> job !in s.history)
  {
    AlwaysSound(maxHistory, ops);
    var s := Run(maxHistory, ops);
    forall job | job in s.finished
      ensures job !in s.history ==> CutByCleanup(maxHistory, ops, job) || FinishedAfter(s.finished, job) >= maxHistory
      ensures CutByCleanup(maxHistory, ops, job) ==> job !in s.history
    {
      MissingIsTrimmedOrCleaned(s, job);
      if job in s.cleaned {
        CleanedWasCut(maxHistory, ops, job);
      } else if CutByCleanup(maxHistory, ops, job) {
        var k :| 0 <= k < |ops| && ops[k].Cleanup? && job in ops[k].stale && job in Run(maxHistory, ops[..k]).history;
        CutWasCleaned(maxHistory, ops, job, k);
      }
    }
  }

  /** The history is exactly the last `maxHistory` finished jobs. */
  predicate HoldsLast<R(==)>(s: Store<R>) {
    s.history == s.finished[if |s.finished| > s.maxHistory then |s.finished| - s.maxHistory else 0..]
  }

  lemma FinishHoldsLast<R>(s: Store<R>)
    requires HoldsLast(s)
    ensures HoldsLast(s.Finish())
  {
  }

  /** Without cleanup the history is exactly the last `maxHistory` finished jobs. */
  lemma {:induction false} HistoryIsLastFinished<R>(maxHistory: nat, ops: seq<Op<R>>)
    requires forall k :: 0 <= k < |ops| ==> !ops[k].Cleanup?
    ensures HoldsLast(Run(maxHistory, ops)) && Run(maxHistory, ops).maxHistory == maxHistory
  {
    if ops != [] {
      HistoryIsLastFinished(maxHistory, Init(ops));
      FinishHoldsLast(Run(maxHistory, Init(ops)));
    }
  }

  /** On every run, successful starts are the finished jobs and the current one, finished
      jobs are those in the history, trimmed or cleaned, and no job occurs twice. */
  lemma StartsConserved<R>(maxHistory: nat, ops: seq<Op<R>>)
    requires ValidRun(maxHistory, ops)
    ensures var s := Run(maxHistory, ops);
            && |s.started| == |s.finished| + (if s.current.Some? then 1 else 0)
            && |s.finished| == |s.history| + |s.trimmed| + |s.cleaned|
            && NoRepeats(s.history + if s.current.Some? then [s.current.value] else [])
  {
    AlwaysSound(maxHistory, ops);
    var s := Run(maxHistory, ops);
    assert |multiset(s.finished)| == |s.finished|;
    HeldOnce(s);
  }

  lemma HeldOnce<R>(s: Store<R>)
    requires Sound(s)
    ensures NoRepeats(s.history + if s.current.Some? then [s.current.value] else [])
  {
    FinishedNoRepeats(s);
    SubsequenceNoRepeats(s.history, s.finished);
    if s.current.Some? {
      forall i | 0 <= i < |s.history|
        ensures s.history[i] != s.current.value
      {
        SubsequenceAfter(s.history, i, s.finished);
        NotLast(s.started, s.history[i]);
      }
    }
  }

  lemma {:induction false} SubsequenceNoRepeats<R>(a: seq<R>, b: seq<R>)
    requires Subsequence(a, b) && NoRepeats(b)
    ensures NoRepeats(a)
    decreases |b|
  {
    if a != [] {
      if Last(a) == Last(b) {
        SubsequenceNoRepeats(Init(a), Init(b));
        forall i | 0 <= i < |a| - 1
          ensures a[i] != Last(a)
        {
          SubsequenceAfter(Init(a), i, Init(b));
          NotLast(b, a[i]);
        }
      } else {
        SubsequenceNoRepeats(a, Init(b));
      }
    }
  }

  // ---- lookups ----

  /** First position of `id`, the length if there is none. */
  function FirstOf(ids: seq<string>, id: string): (i: nat)
    ensures i <= |ids| && (i < |ids| <==> id in ids)
    ensures i < |ids| ==> ids[i] == id
    ensures forall k :: 0 <= k < i ==> ids[k] != id
  {
    if ids == [] then 0 else if ids[0] == id then 0 else 1 + FirstOf(ids[1..], id)
  }

  /** Last position of `id`, the length if there is none. */
  function LastOf(ids: seq<string>, id: string): (i: nat)
    ensures i <= |ids| && (i < |ids| <==> id in ids)
    ensures i < |ids| ==> ids[i] == id && forall k :: i < k < |ids| ==> ids[k] != id
  {
    if ids == [] then 0
    else if Last(ids) == id then |ids| - 1
    else if LastOf(Init(ids), id) < |ids| - 1 then LastOf(Init(ids), id)
    else |ids|
  }

  lemma LookupsAgree(ids: seq<string>, id: string)
    requires NoRepeats(ids)
    ensures FirstOf(ids, id) == LastOf(ids, id)
  {
  }

  // ---- the store updated in place ----

  function Ids(jobs: seq<JobWithMutex>): (ids: seq<string>)
    ensures |ids| == |jobs| && forall i :: 0 <= i < |jobs| ==> ids[i] == jobs[i].id
  {
    seq(|jobs|, i requires 0 <= i < |jobs| => jobs[i].id)
  }

  class JobStore {
    var currentJob: JobWithMutex?
    var history: seq<JobWithMutex>
    const maxHistory: nat
    ghost var started: seq<JobWithMutex>
    ghost var finished: seq<JobWithMutex>
    ghost var trimmed: seq<JobWithMutex>
    ghost var cleaned: seq<JobWithMutex>

    constructor ()
      ensures View() == Empty(100)
    {
      currentJob := null;
      history := [];
      maxHistory := 100;
      started, finished, trimmed, cleaned := [], [], [], [];
    }

    ghost function View(): Store<JobWithMutex>
      reads this
    {
      var current := if currentJob == null then None else Some(currentJob as JobWithMutex);
      Store(maxHistory, current, history, started, finished, trimmed, cleaned)
    }

    /** What every method keeps: the logs account for every job, and the current job runs. */
    ghost predicate Valid()
      reads this, currentJob
    {
      Sound(View()) && (currentJob != null ==> currentJob.status.Running?)
    }

    method GetCurrentJob() returns (job: JobWithMutex?)
      ensures job == currentJob
    {
      job := currentJob;
    }

    /** The job is started unless the current one is running. A valid store stays valid
        when the job is a new one. */
    method TryStartJob(job: JobWithMutex) returns (ok: bool)
      modifies this, job
      ensures ok == !(old(currentJob) != null && old(currentJob.status).Running?)
      ensures View() == if ok then old(View()).Start(job) else old(View())
      ensures job.View() == if ok then old(job.View()).SetRunning() else old(job.View())
      ensures old(Valid()) && job !in old(started) ==> Valid()
    {
      if currentJob != null {
        var running := currentJob.IsRunning();
        if running {
          return false;
        }
      }
      job.SetRunning();
      currentJob := job;
      started := started + [job];
      ok := true;
      if old(Valid()) && job !in old(started) {
        StartSound(old(View()), job);
      }
    }

    method CompleteCurrentJob(now: int)
      modifies this, currentJob
      ensures View() == old(View()).Finish()
      ensures old(currentJob) != null ==> old(currentJob).View() == old(currentJob.View()).SetCompleted(now)
      ensures old(currentJob) != null ==>
                old(currentJob).status.Completed? && old(currentJob).endTime == Some(now)
                && old(currentJob).error == old(currentJob.error)
      ensures old(Valid()) ==> Valid()
    {
      if currentJob != null {
        currentJob.SetCompleted(now);
        AddToHistory(currentJob);
        currentJob := null;
      }
      if old(Valid()) {
        FinishSound(old(View()));
      }
    }

    method FailCurrentJob(err: string, now: int)
      modifies this, currentJob
      ensures View() == old(View()).Finish()
      ensures old(currentJob) != null ==> old(currentJob).View() == old(currentJob.View()).SetFailed(err, now)
      ensures old(currentJob) != null ==>
                old(currentJob).status.Failed? && old(currentJob).endTime == Some(now)
                && old(currentJob).error == Some(err)
      ensures old(Valid()) ==> Valid()
    {
      if currentJob != null {
        currentJob.SetFailed(err, now);
        AddToHistory(currentJob);
        currentJob := null;
      }
      if old(Valid()) {
        FinishSound(old(View()));
      }
    }

    method AddToHistory(job: JobWithMutex)
      modifies this
      ensures View() == old(View()).AddToHistory(job)
    {
      history := history + [job];
      ghost var all := history;
      if |history| > maxHistory {
        history := history[|history| - maxHistory..];
      }
      trimmed := trimmed + all[..|all| - |history|];
      finished := finished + [job];
    }

    /** Scans the history from its oldest job on. */
    method GetJob(jobID: string) returns (job: JobWithMutex?)
      ensures job == if currentJob != null && currentJob.id == jobID then currentJob
                     else if FirstOf(Ids(history), jobID) < |history| then history[FirstOf(Ids(history), jobID)]
                     else null
    {
      if currentJob != null && currentJob.id == jobID {
        return currentJob;
      }
      for i := 0 to |history|
        invariant forall k :: 0 <= k < i ==> history[k].id != jobID
      {
        if history[i].id == jobID {
          assert Ids(history)[i] == jobID && FirstOf(Ids(history), jobID) == i;
          return history[i];
        }
      }
      job := null;
    }

    /** Scans the history from its newest job back. */
    method GetJobByID(id: string) returns (job: JobWithMutex?)
      ensures job == if currentJob != null && currentJob.id == id then currentJob
                     else if LastOf(Ids(history), id) < |history| then history[LastOf(Ids(history), id)]
                     else null
    {
      if currentJob != null && currentJob.id == id {
        return currentJob;
      }
      for i := |history| downto 0
        invariant forall k :: i <= k < |history| ==> history[k].id != id
      {
        if history[i].id == id {
          assert Ids(history)[i] == id && LastOf(Ids(history), id) == i;
          return history[i];
        }
      }
      job := null;
    }

    /** Keeps the jobs started after the cutoff. */
    method CleanupOldJobs(now: int, maxAge: int)
      modifies this
      ensures View() == old(View()).Clean(set job | job in old(history) && job.startTime <= now - maxAge)
      ensures old(Valid()) ==> Valid()
    {
      ghost var stale := set job | job in history && job.startTime <= now - maxAge;
      var cutoff := now - maxAge;
      var newHistory: seq<JobWithMutex> := [];
      for i := 0 to |history|
        invariant newHistory == Without(history[..i], stale)
      {
        assert Init(history[..i + 1]) == history[..i];
        var job := history[i];
        if job.startTime > cutoff {
          newHistory := newHistory + [job];
        }
      }
      assert history[..|history|] == history;
      if Valid() {
        CleanSound(View(), stale);
      }
      cleaned := cleaned + Within(history, stale);
      history := newHistory;
    }
  }
}
