/** How many tasks a pool runs and queues at once, from the numbers it is made with. */
module PoolSizes {
  import opened Common
  import opened WorkerPool

  /** On every run the workers that are idle, running or gone are as many as asked for, or ten if
      that is not a positive number; and the queue is never longer than asked for, or 100. */
  lemma SizesOnRuns(workers: int, maxBacklog: int, steps: seq<Step>)
    requires ValidRun(NewPool(workers, maxBacklog), steps)
    ensures var p := Run(NewPool(workers, maxBacklog), steps);
            && |p.idle| + |p.running| + |p.exited| == (if workers > 0 then workers else 10)
            && |p.queue| <= (if maxBacklog > 0 then maxBacklog else 100)
  {
    PanicKeepsWorkers(workers, maxBacklog, steps);
    QueueConservation(workers, maxBacklog, steps);
  }

  // ---- every number up to the limits is reached ----

  ghost predicate Leads(start: Pool, p: Pool) {
    exists steps :: ValidRun(start, steps) && Run(start, steps) == p
  }

  lemma Begins(start: Pool)
    ensures Leads(start, start)
  {
    assert ValidRun(start, []) && Run(start, []) == start;
  }

  lemma Goes(start: Pool, p: Pool, st: Step) returns (p': Pool)
    requires Leads(start, p) && Enabled(p, st)
    ensures p' == Apply(p, st) && Leads(start, p')
  {
    var steps :| ValidRun(start, steps) && Run(start, steps) == p;
    Extend(start, steps, st);
    p' := Apply(p, st);
    assert ValidRun(start, steps + [st]) && Run(start, steps + [st]) == p';
  }

  /** Tasks below `n` have been submitted to a pool that accepts more. */
  ghost predicate Accepting(start: Pool, p: Pool, n: nat) {
    && Leads(start, p) && p.seen == Below(n) && !p.shutdown && !p.closed
    && p.workers == start.workers && p.maxBacklog == start.maxBacklog
  }

  /** One more task is queued. */
  lemma Queues(start: Pool, p: Pool, n: nat) returns (p': Pool)
    requires Accepting(start, p, n) && |p.queue| < p.maxBacklog
    ensures Accepting(start, p', n + 1) && p'.queue == p.queue + [n]
    ensures p'.idle == p.idle && p'.running == p.running
  {
    BelowIff(n, n);
    p' := Goes(start, p, CheckFlag(n, Submit));
    p' := Goes(start, p', Send(n));
  }

  /** The queue holds `n` tasks. */
  lemma {:induction false} QueueFills(workers: int, maxBacklog: int, n: nat) returns (p: Pool)
    requires n <= Backlog(maxBacklog)
    ensures Accepting(NewPool(workers, maxBacklog), p, n) && |p.queue| == n
  {
    if n == 0 {
      p := NewPool(workers, maxBacklog);
      Begins(p);
    } else {
      p := QueueFills(workers, maxBacklog, n - 1);
      p := Queues(NewPool(workers, maxBacklog), p, n - 1);
    }
  }

  /** Workers below `n` each run a task. */
  ghost predicate Occupied(p: Pool, n: nat) {
    p.queue == [] && p.running.Keys == Below(n) && p.idle == Below(p.workers) - Below(n)
  }

  lemma OneMoreRuns(start: Pool, p: Pool, n: nat) returns (p': Pool)
    requires Accepting(start, p, n) && Occupied(p, n) && n < p.workers && p.maxBacklog >= 1
    ensures Accepting(start, p', n + 1) && Occupied(p', n + 1)
  {
    NextBelow(n, p.workers);
    p' := Queues(start, p, n);
    p' := Goes(start, p', Take(n));
  }

  lemma {:induction false} WorkersFill(workers: int, maxBacklog: int, n: nat) returns (p: Pool)
    requires n <= Workers(workers)
    ensures Accepting(NewPool(workers, maxBacklog), p, n) && Occupied(p, n)
  {
    if n == 0 {
      p := NewPool(workers, maxBacklog);
      Begins(p);
      assert Below(p.workers) - {} == Below(p.workers);
    } else {
      p := WorkersFill(workers, maxBacklog, n - 1);
      p := OneMoreRuns(NewPool(workers, maxBacklog), p, n - 1);
    }
  }

  ghost predicate SomeRunRuns(workers: int, maxBacklog: int, n: nat) {
    exists steps :: ValidRun(NewPool(workers, maxBacklog), steps)
                 && |Run(NewPool(workers, maxBacklog), steps).running| == n
  }

  ghost predicate SomeRunQueues(workers: int, maxBacklog: int, n: nat) {
    exists steps :: ValidRun(NewPool(workers, maxBacklog), steps)
                 && |Run(NewPool(workers, maxBacklog), steps).queue| == n
  }

  lemma OccupiedCount(p: Pool, n: nat)
    requires Occupied(p, n)
    ensures |p.running| == n
  {
    KeyCount(p.running);
    CountBelow(n);
  }

  /** Some run has `n` tasks running at once, exactly if `n` is at most the number of workers
      asked for, or ten. */
  lemma RunningIff(workers: int, maxBacklog: int, n: nat)
    ensures SomeRunRuns(workers, maxBacklog, n) <==> n <= (if workers > 0 then workers else 10)
  {
    if SomeRunRuns(workers, maxBacklog, n) {
      var steps :| ValidRun(NewPool(workers, maxBacklog), steps)
                && |Run(NewPool(workers, maxBacklog), steps).running| == n;
      SizesOnRuns(workers, maxBacklog, steps);
    }
    if n <= Workers(workers) {
      var p := WorkersFill(workers, maxBacklog, n);
      OccupiedCount(p, n);
      var steps :| ValidRun(NewPool(workers, maxBacklog), steps) && Run(NewPool(workers, maxBacklog), steps) == p;
    }
  }

  /** Some run has `n` tasks queued at once, exactly if `n` is at most the backlog asked for, or
      100. */
  lemma QueuedIff(workers: int, maxBacklog: int, n: nat)
    ensures SomeRunQueues(workers, maxBacklog, n) <==> n <= (if maxBacklog > 0 then maxBacklog else 100)
  {
    if SomeRunQueues(workers, maxBacklog, n) {
      var steps :| ValidRun(NewPool(workers, maxBacklog), steps)
                && |Run(NewPool(workers, maxBacklog), steps).queue| == n;
      SizesOnRuns(workers, maxBacklog, steps);
    }
    if n <= Backlog(maxBacklog) {
      var p := QueueFills(workers, maxBacklog, n);
      var steps :| ValidRun(NewPool(workers, maxBacklog), steps) && Run(NewPool(workers, maxBacklog), steps) == p;
    }
  }
}
