/** A job and its status. The setters overwrite the status whatever it was; the order
    pending, running, then completed or failed is kept by the protocols that call them. */
module Jobs {
  import opened Common

  datatype Status = Pending | Running | Completed | Failed

  predicate Terminal(s: Status) {
    s.Completed? || s.Failed?
  }

  datatype Job = Job(
    id: string,
    action: string,
    startTime: int,
    status: Status,
    endTime: Option<int>,
    error: Option<string>)
  {
    function SetRunning(): Job {
      this.(status := Status.Running)
    }

    function SetCompleted(now: int): Job {
      this.(status := Completed, endTime := Some(now))
    }

    function SetFailed(err: string, now: int): Job {
      this.(status := Status.Failed, error := Some(err), endTime := Some(now))
    }

    /** The end time is set exactly when the job has ended, and the error when it has failed. */
    predicate Consistent() {
      (endTime.Some? <==> Terminal(status)) && (error.Some? <==> status.Failed?)
    }
  }

  function NewJob(id: string, action: string, now: int): Job {
    Job(id, action, now, Pending, None, None)
  }

  /** The status sequences of a job handled properly. */
  predicate ProperTrace(t: seq<Status>) {
    t == [Pending] || t == [Pending, Running] || t == [Pending, Running, Completed] || t == [Pending, Running, Failed]
  }

  /** On their own the setters allow a running job with an end time. */
  lemma SettersAllowAnyOrder(j: Job, now: int)
    ensures j.SetCompleted(now).SetRunning().status.Running?
    ensures !j.SetCompleted(now).SetRunning().Consistent()
    ensures !j.SetFailed("", now).SetRunning().Consistent()
  {
  }

  class JobWithMutex {
    const id: string
    const action: string
    const startTime: int
    var status: Status
    var endTime: Option<int>
    var error: Option<string>

    constructor (id: string, action: string, now: int)
      ensures View() == NewJob(id, action, now)
      ensures this.id == id && this.action == action && startTime == now
      ensures status.Pending? && endTime.None? && error.None?
    {
      this.id := id;
      this.action := action;
      this.startTime := now;
      this.status := Pending;
      this.endTime := None;
      this.error := None;
    }

    function View(): Job
      reads this
    {
      Job(id, action, startTime, status, endTime, error)
    }

    method SetRunning()
      modifies this
      ensures View() == old(View()).SetRunning()
      ensures status.Running? && endTime == old(endTime) && error == old(error)
    {
      status := Status.Running;
    }

    method SetCompleted(now: int)
      modifies this
      ensures View() == old(View()).SetCompleted(now)
      ensures status.Completed? && endTime == Some(now) && error == old(error)
    {
      status := Completed;
      endTime := Some(now);
    }

    method SetFailed(err: string, now: int)
      modifies this
      ensures View() == old(View()).SetFailed(err, now)
      ensures status.Failed? && endTime == Some(now) && error == Some(err)
    {
      status := Status.Failed;
      error := Some(err);
      endTime := Some(now);
    }

    method IsRunning() returns (running: bool)
      ensures running == status.Running?
    {
      running := status.Running?;
    }
  }
}
