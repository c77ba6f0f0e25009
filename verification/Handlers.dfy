/** The two webhook handlers as objects over the job store and the worker pool, one call at a
    time. What interleaved calls do is the subject of WebhookPool and WebhookGoroutine. */
module Handlers {
  import opened Common
  import opened Jobs
  import P = WorkerPool
  import S = JobStore

  datatype Answer =
    | JobInProgress(id: string)
    | NoJobId
    | JobAlreadyRunning
    | AtCapacity
    | Accepted(id: string)

  /** How one execution of a job goes: its context is done before it starts, the action
      panics, or the logging after the completion does. */
  datatype Course = Course(ctxDone: bool, actionPanics: bool, logPanics: bool)

  class WebhookHandlerWithPool {
    const jobStore: S.JobStore
    const workerPool: P.WorkerPool
    /** The submitted closures: the job each task processes. */
    var tasks: map<nat, JobWithMutex>
    var next: nat

    constructor (workerPool: P.WorkerPool)
      requires workerPool.tasks == [] && workerPool.seen == {}
      requires (workerPool.closed ==> workerPool.shutdown) && workerPool.maxBacklog >= 1
      ensures Valid() && fresh(jobStore) && this.workerPool == workerPool
      ensures jobStore.View() == S.Empty(100)
    {
      this.workerPool := workerPool;
      tasks, next := map[], 0;
      jobStore := new S.JobStore();
    }

    /** Between calls the queue holds the current job, if there is one, and nothing else. */
    ghost predicate Waiting()
      reads this, jobStore, workerPool
    {
      if jobStore.currentJob == null then workerPool.tasks == []
      else exists t :: workerPool.tasks == [t] && t in tasks && tasks[t] == jobStore.currentJob
    }

    ghost predicate Valid()
      reads this, jobStore, jobStore.currentJob, workerPool
    {
      && jobStore.Valid() && Waiting() && (workerPool.closed ==> workerPool.shutdown) && workerPool.maxBacklog >= 1
      && forall t :: t in workerPool.seen ==> t < next
    }

    /** The queue is empty between the jobs, so only the shut down pool refuses one. */
    method SubmitJob(job: JobWithMutex) returns (sent: P.SubmitResult)
      requires workerPool.tasks == [] && workerPool.maxBacklog >= 1 && (workerPool.closed ==> workerPool.shutdown)
      requires forall t :: t in workerPool.seen ==> t < next
      modifies this, workerPool
      ensures workerPool.View() == P.Submitted(old(workerPool.View()), old(next))
      ensures sent == if old(workerPool.shutdown) then P.ErrShutdown else P.SubmitOk
      ensures next == old(next) + 1 && tasks == old(tasks)[old(next) := job]
    {
      tasks, next := tasks[next := job], next + 1;
      sent := workerPool.Submit(next - 1);
    }

    /** Submits the job just started; a job that could not be submitted is failed. */
    method SubmitOrFail(job: JobWithMutex, now: int) returns (answer: Answer)
      requires jobStore.Valid() && jobStore.currentJob == job && workerPool.tasks == []
      requires workerPool.maxBacklog >= 1 && (workerPool.closed ==> workerPool.shutdown)
      requires forall t :: t in workerPool.seen ==> t < next
      modifies this, jobStore, workerPool, job
      ensures Valid()
      ensures answer == if old(workerPool.shutdown) then AtCapacity else Accepted(job.id)
      ensures answer.Accepted? ==> jobStore.View() == old(jobStore.View()) && job.View() == old(job.View())
      ensures answer.AtCapacity? ==>
                && jobStore.View() == old(jobStore.View()).Finish()
                && job.status.Failed? && job.endTime == Some(now) && job.error == Some("submit failed")
    {
      var sent := SubmitJob(job);
      if !sent.SubmitOk? {
        jobStore.FailCurrentJob("submit failed", now);
        return AtCapacity;
      }
      answer := Accepted(job.id);
    }

    /** TryStartJob and Submit for a new job. */
    method StartAndSubmit(job: JobWithMutex, now: int) returns (answer: Answer)
      requires Valid() && job !in jobStore.started
      modifies this, jobStore, workerPool, job
      ensures Valid()
      ensures answer == if old(jobStore.currentJob) != null then JobAlreadyRunning
                        else if old(workerPool.shutdown) then AtCapacity
                        else Accepted(job.id)
      ensures answer.JobAlreadyRunning? ==>
                jobStore.View() == old(jobStore.View()) && workerPool.View() == old(workerPool.View())
      ensures answer.Accepted? ==>
                && jobStore.View() == old(jobStore.View()).Start(job)
                && job.status.Running? && job.endTime == old(job.endTime) && job.error == old(job.error)
      ensures answer.AtCapacity? ==>
                && jobStore.View() == old(jobStore.View()).Start(job).Finish()
                && job.status.Failed? && job.endTime == Some(now) && job.error == Some("submit failed")
    {
      var started := jobStore.TryStartJob(job);
      if !started {
        return JobAlreadyRunning;
      }
      answer := SubmitOrFail(job, now);
    }

    /** The job part of HandleWebhook. The request is accepted, and its job current and queued,
        unless another job is current, no ID could be made or the pool is shut down. */
    method HandleWebhook(action: string, id: Option<string>, now: int)
      returns (answer: Answer, ghost job: JobWithMutex?)
      requires Valid()
      modifies this, jobStore, workerPool
      ensures Valid()
      ensures answer == if old(jobStore.currentJob) != null then JobInProgress(old(jobStore.currentJob.id))
                        else if id.None? then NoJobId
                        else if old(workerPool.shutdown) then AtCapacity
                        else Accepted(id.value)
      ensures answer.JobInProgress? || answer.NoJobId? ==>
                jobStore.View() == old(jobStore.View()) && workerPool.View() == old(workerPool.View())
      ensures answer.Accepted? || answer.AtCapacity? ==>
                job != null && fresh(job) && Some(job.id) == id && job.action == action && job.startTime == now
      ensures answer.Accepted? ==>
                && jobStore.View() == old(jobStore.View()).Start(job)
                && job.status.Running? && job.endTime.None? && job.error.None?
      ensures answer.AtCapacity? ==>
                && jobStore.View() == old(jobStore.View()).Start(job).Finish()
                && job.status.Failed? && job.endTime == Some(now) && job.error == Some("submit failed")
    {
      var current := jobStore.GetCurrentJob();
      if current != null {
        var running := current.IsRunning();
        if running {
          return JobInProgress(current.id), null;
        }
      }
      if id.None? {
        return NoJobId, null;
      }
      var made := new JobWithMutex(id.value, action, now);
      job := made;
      answer := StartAndSubmit(made, now);
    }

    /** Whatever its course, an execution ends the current job, once: failed if its context was done
        or its action panicked, and completed otherwise, even if logging panics after that. */
    method ProcessActionWithContext(job: JobWithMutex, course: Course, now: int)
      requires jobStore.Valid() && jobStore.currentJob == job
      modifies jobStore, job
      ensures jobStore.Valid() && jobStore.View() == old(jobStore.View()).Finish()
      ensures job.status == if course.ctxDone || course.actionPanics then Status.Failed else Completed
      ensures job.endTime == Some(now)
      ensures job.error == if course.ctxDone then Some("job canceled")
                           else if course.actionPanics then Some("panic during job execution")
                           else old(job.error)
    {
      if course.ctxDone {
        jobStore.FailCurrentJob("job canceled", now);
        return;
      }
      var panicked := course.actionPanics;
      if !panicked {
        jobStore.CompleteCurrentJob(now);
        panicked := course.logPanics;
      }
      if panicked {
        jobStore.FailCurrentJob("panic during job execution", now);
      }
    }

    /** An idle worker takes the queued task and runs it: the job it processes is the current
        one, which it ends, and the pool is idle again. */
    method RunQueued(worker: nat, course: Course, now: int)
      requires Valid() && jobStore.currentJob != null
      requires worker in workerPool.idle && worker !in workerPool.running && worker !in workerPool.unwinding
      modifies jobStore, workerPool, jobStore.currentJob
      ensures Valid() && jobStore.View() == old(jobStore.View()).Finish()
      ensures var job := old(jobStore.currentJob);
              && (job.status == if course.ctxDone || course.actionPanics then Status.Failed else Completed)
              && job.endTime == Some(now)
              && job.error == if course.ctxDone then Some("job canceled")
                              else if course.actionPanics then Some("panic during job execution")
                              else old(jobStore.currentJob.error)
      ensures workerPool.View() == P.Turned(old(workerPool.View()), worker, 1)
    {
      ghost var before := workerPool.View();
      var task := workerPool.Receive(worker);
      ProcessActionWithContext(tasks[task], course, now);
      workerPool.Done(worker);
      P.TurnIsSteps(before, worker);
    }
  }

  class WebhookHandlerWithStatus {
    const jobStore: S.JobStore
    /** The goroutines that have been spawned and not run yet, by the jobs they process. */
    var spawned: seq<JobWithMutex>

    constructor ()
      ensures Valid() && fresh(jobStore) && jobStore.View() == S.Empty(100) && spawned == []
    {
      spawned := [];
      jobStore := new S.JobStore();
    }

    /** Between calls the one goroutine left is that of the current job, if there is one. */
    ghost predicate Valid()
      reads this, jobStore, jobStore.currentJob
    {
      && jobStore.Valid()
      && spawned == if jobStore.currentJob == null then [] else [jobStore.currentJob]
    }

    /** The job part of HandleWebhook. The request is accepted, and a goroutine spawned for its
        job, unless another job is current or no ID could be made. */
    method HandleWebhook(action: string, id: Option<string>, now: int)
      returns (answer: Answer, ghost job: JobWithMutex?)
      requires Valid()
      modifies this, jobStore
      ensures Valid()
      ensures answer == if old(jobStore.currentJob) != null then JobInProgress(old(jobStore.currentJob.id))
                        else if id.None? then NoJobId
                        else Accepted(id.value)
      ensures !answer.Accepted? ==> jobStore.View() == old(jobStore.View()) && spawned == old(spawned)
      ensures answer.Accepted? ==>
                && job != null && fresh(job) && Some(job.id) == id && job.action == action && job.startTime == now
                && job.status.Running? && job.endTime.None? && job.error.None?
                && jobStore.View() == old(jobStore.View()).Start(job)
    {
      var current := jobStore.GetCurrentJob();
      if current != null {
        var running := current.IsRunning();
        if running {
          return JobInProgress(current.id), null;
        }
      }
      if id.None? {
        return NoJobId, null;
      }
      var made := new JobWithMutex(id.value, action, now);
      job := made;
      var started := jobStore.TryStartJob(made);
      if !started {
        return JobAlreadyRunning, job;
      }
      spawned := spawned + [made];
      answer := Accepted(id.value);
    }

    /** The goroutine of the current job runs; whatever panics, the job is ended once: failed
        if the action panicked, and completed otherwise. */
    method ProcessActionWithStatus(actionPanics: bool, logPanics: bool, now: int)
      requires Valid() && spawned != []
      modifies this, jobStore, jobStore.currentJob
      ensures Valid() && jobStore.View() == old(jobStore.View()).Finish()
      ensures old(jobStore.currentJob) != null
      ensures var job := old(jobStore.currentJob);
              && (job.status == if actionPanics then Status.Failed else Completed)
              && job.endTime == Some(now)
              && job.error == if actionPanics then Some("panic during job execution")
                              else old(jobStore.currentJob.error)
    {
      spawned := spawned[1..];
      var panicked := actionPanics;
      if !panicked {
        jobStore.CompleteCurrentJob(now);
        panicked := logPanics;
      }
      if panicked {
        jobStore.FailCurrentJob("panic during job execution", now);
      }
    }
  }
}
