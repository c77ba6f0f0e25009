/** The webhook handler, the job store and the worker pool together, as one transition
    system for any number of requests: one step per critical section of the store or the
    pool and per channel operation. The handler is the only submitter of the pool, and a
    request, its job and its submission share one number. */
module WebhookPool {
  import opened Common
  import opened Jobs
  import L = Ledger
  import P = WorkerPool
  import S = JobStore

  /** Whether logging after CompleteCurrentJob may panic. */
  datatype Config = Config(workers: int, maxBacklog: int, maxHistory: nat, logPanics: bool)

  /** Where HandleWebhook stands for a request. */
  datatype Handler =
    | Peeked(current: Option<nat>)
    | Checked
    | Created
    | Started
    | Submitting
    | Refused
    | Answered
    | Crashed

  /** Where processActionWithContext stands on a worker. */
  datatype Phase =
    | Entered
    | Canceled
    | Acting
    | Acted
    | Panicked
    | Logging
    | Leaving

  datatype World = World(
    ledger: L.Ledger,
    pool: P.Pool,
    handlers: map<nat, Handler>,
    phases: map<nat, Phase>,
    calls: seq<L.Call>)

  /** The steps of HandleWebhook after the request is authenticated. */
  datatype HandlerStep =
    | Peek
    | Decide
    | NoId
    | Create(id: string, action: string, now: int)
    | TryStart
    | CheckFlag
    | Send
    | SendFull
    | SendOnClosed
    | FailSubmit(now: int)

  /** The steps of a worker from receiving a task to being free again. */
  datatype WorkerStep =
    | Take
    | SeeContext(expired: bool)
    | FailCanceled(now: int)
    | ActionReturns
    | ActionPanics
    | Complete(now: int)
    | LogReturns
    | LogPanics
    | FailPanicked(now: int)
    | Leave

  datatype Step =
    | Handle(r: nat, hs: HandlerStep)
    | Work(v: nat, ws: WorkerStep)
    | Cleanup(cutoff: int)
    | PoolStep(st: P.Step)

  function NewWorld(cfg: Config): World {
    World(L.Start(cfg.maxHistory), P.NewPool(cfg.workers, cfg.maxBacklog), map[], map[], [])
  }

  // ---- steps of a request ----

  /** The operation of the pool a request performs in a step. */
  function Submission(r: nat, hs: HandlerStep): Option<P.Step> {
    match hs
    case CheckFlag => Some(P.CheckFlag(r, P.Submit))
    case Send => Some(P.Send(r))
    case SendFull => Some(P.SendFull(r))
    case SendOnClosed => Some(P.SendOnClosed(r))
    case _ => None
  }

  predicate HandlerReady(w: World, r: nat, hs: HandlerStep) {
    if r !in w.handlers then hs.Peek?
    else match w.handlers[r]
      case Peeked(_) => hs.Decide?
      case Checked => hs.NoId? || (hs.Create? && L.IdUnused(w.ledger, hs.id))
      case Created => hs.TryStart? && r in w.ledger.jobs && r in w.ledger.traces
      case Started => hs.CheckFlag?
      case Submitting => hs.Send? || hs.SendFull? || hs.SendOnClosed?
      case Refused => hs.FailSubmit? && L.CurrentKnown(w.ledger)
      case Answered => false
      case Crashed => false
  }

  function NextHandler(w: World, r: nat, hs: HandlerStep): Handler
    requires HandlerReady(w, r, hs)
  {
    match hs
    case Peek => Peeked(w.ledger.store.current)
    case Decide => if L.StillRunning(w.ledger, w.handlers[r].current) then Answered else Checked
    case NoId => Answered
    case Create(_, _, _) => Created
    case TryStart => if L.Busy(w.ledger) then Answered else Started
    case CheckFlag => if w.pool.shutdown then Refused else Submitting
    case Send => Answered
    case SendFull => Refused
    case SendOnClosed => Crashed
    case FailSubmit(_) => Answered
  }

  function HandlerLedger(w: World, r: nat, hs: HandlerStep): L.Ledger
    requires HandlerReady(w, r, hs)
  {
    match hs
    case Create(id, action, now) => L.Create(w.ledger, r, id, action, now)
    case TryStart => L.TryStart(w.ledger, r)
    case FailSubmit(now) => L.Fail(w.ledger, "submit failed", now)
    case _ => w.ledger
  }

  // ---- steps of a worker ----

  function Duty(v: nat, ws: WorkerStep): Option<P.Step> {
    match ws
    case Take => Some(P.Take(v))
    case Leave => Some(P.EndTask(v))
    case _ => None
  }

  predicate WorkerReady(cfg: Config, w: World, v: nat, ws: WorkerStep) {
    if v !in w.phases then ws.Take?
    else v in w.pool.running && match w.phases[v]
      case Entered => ws.SeeContext?
      case Canceled => ws.FailCanceled? && L.CurrentKnown(w.ledger)
      case Acting => ws.ActionReturns? || ws.ActionPanics?
      case Acted => ws.Complete? && L.CurrentKnown(w.ledger)
      case Logging => ws.LogReturns? || (ws.LogPanics? && cfg.logPanics)
      case Panicked => ws.FailPanicked? && L.CurrentKnown(w.ledger)
      case Leaving => ws.Leave?
  }

  /** The context of a task is done after a cancellation, or if its own timeout has expired. */
  function NextPhase(w: World, ws: WorkerStep): Option<Phase> {
    match ws
    case Take => Some(Entered)
    case SeeContext(expired) => Some(if w.pool.canceled || expired then Canceled else Acting)
    case FailCanceled(_) => Some(Leaving)
    case ActionReturns => Some(Acted)
    case ActionPanics => Some(Panicked)
    case Complete(_) => Some(Logging)
    case LogReturns => Some(Leaving)
    case LogPanics => Some(Panicked)
    case FailPanicked(_) => Some(Leaving)
    case Leave => None
  }

  predicate Ends(ws: WorkerStep) {
    ws.FailCanceled? || ws.Complete? || ws.FailPanicked?
  }

  function WorkerLedger(w: World, ws: WorkerStep): L.Ledger
    requires Ends(ws) ==> L.CurrentKnown(w.ledger)
  {
    match ws
    case FailCanceled(now) => L.Fail(w.ledger, "job canceled", now)
    case Complete(now) => L.Complete(w.ledger, now)
    case FailPanicked(now) => L.Fail(w.ledger, "panic during job execution", now)
    case _ => w.ledger
  }

  // ---- the system ----

  /** Steps of the pool that belong to no task: shutting down and workers leaving. */
  predicate Housekeeping(st: P.Step) {
    st.Exit? || st.MarkShutdown? || st.ShutdownAgain? || st.CloseTasks? || st.ReturnNil? || st.Cancel?
  }

  /** The step the pool takes, if any. */
  function PoolPart(st: Step): Option<P.Step> {
    match st
    case Handle(r, hs) => Submission(r, hs)
    case Work(v, ws) => Duty(v, ws)
    case Cleanup(_) => None
    case PoolStep(pst) => Some(pst)
  }

  predicate Enabled(cfg: Config, w: World, st: Step) {
    && (PoolPart(st).Some? ==> P.Enabled(w.pool, PoolPart(st).value))
    && match st
       case Handle(r, hs) => HandlerReady(w, r, hs)
       case Work(v, ws) => WorkerReady(cfg, w, v, ws)
       case Cleanup(_) => true
       case PoolStep(pst) => Housekeeping(pst)
  }

  function NextPool(p: P.Pool, part: Option<P.Step>): P.Pool
    requires part.Some? ==> P.Enabled(p, part.value)
  {
    if part.Some? then P.Apply(p, part.value) else p
  }

  function NextPhases(w: World, v: nat, ws: WorkerStep): map<nat, Phase> {
    if NextPhase(w, ws).Some? then w.phases[v := NextPhase(w, ws).value] else w.phases - {v}
  }

  function Apply(cfg: Config, w: World, st: Step): World
    requires Enabled(cfg, w, st)
  {
    var pool := NextPool(w.pool, PoolPart(st));
    match st
    case Handle(r, hs) =>
      World(HandlerLedger(w, r, hs), pool, w.handlers[r := NextHandler(w, r, hs)], w.phases,
            if hs.FailSubmit? then w.calls + [L.Call(r, w.ledger.store.current)] else w.calls)
    case Work(v, ws) =>
      World(WorkerLedger(w, ws), pool, w.handlers, NextPhases(w, v, ws),
            if Ends(ws) then w.calls + [L.Call(w.pool.running[v], w.ledger.store.current)] else w.calls)
    case Cleanup(cutoff) => w.(ledger := L.Cleanup(w.ledger, cutoff))
    case PoolStep(_) => w.(pool := pool)
  }

  lemma PoolAfter(cfg: Config, w: World, st: Step)
    requires Enabled(cfg, w, st)
    ensures Apply(cfg, w, st).pool == NextPool(w.pool, PoolPart(st))
  {
  }

  ghost predicate ValidRun(cfg: Config, steps: seq<Step>)
    decreases |steps|, 0
  {
    steps != [] ==> ValidRun(cfg, Init(steps)) && Enabled(cfg, Run(cfg, Init(steps)), Last(steps))
  }

  ghost function Run(cfg: Config, steps: seq<Step>): World
    requires ValidRun(cfg, steps)
    decreases |steps|, 1
  {
    if steps == [] then NewWorld(cfg) else Apply(cfg, Run(cfg, Init(steps)), Last(steps))
  }

  // ---- the parts fit together ----

  predicate PastCheck(h: Handler) {
    h.Submitting? || h.Refused? || h.Answered? || h.Crashed?
  }

  /** A request has a job once it has made one, starts it once and submits it once. */
  ghost predicate HandlersFit(handlers: map<nat, Handler>, jobs: set<nat>, started: seq<nat>, seen: set<nat>) {
    && (forall r :: r in jobs ==> r in handlers && !handlers[r].Peeked? && !handlers[r].Checked?)
    && (forall r :: r in handlers && handlers[r].Created? ==> r in jobs && r !in started)
    && (forall r :: r in seen ==> r in handlers && PastCheck(handlers[r]))
  }

  ghost predicate RequestsFit(w: World) {
    HandlersFit(w.handlers, w.ledger.jobs.Keys, w.ledger.store.started, w.pool.seen)
  }

  ghost predicate Fits(w: World) {
    && L.Valid(w.ledger) && P.Inv(w.pool) && RequestsFit(w)
    && w.phases.Keys == w.pool.running.Keys
  }

  /** One request moves on; it may have made, started or submitted its job. */
  lemma OneMoves(handlers: map<nat, Handler>, jobs: set<nat>, started: seq<nat>, seen: set<nat>, r: nat, h: Handler,
                 jobs': set<nat>, started': seq<nat>, seen': set<nat>)
    requires HandlersFit(handlers, jobs, started, seen)
    requires jobs' == jobs || jobs' == jobs + {r}
    requires started' == started || started' == started + [r]
    requires seen' == seen || seen' == seen + {r}
    requires r in jobs' ==> !h.Peeked? && !h.Checked?
    requires h.Created? ==> r in jobs' && r !in started'
    requires r in seen' ==> PastCheck(h)
    ensures HandlersFit(handlers[r := h], jobs', started', seen')
  {
  }

  /** The ledger and the pool after a step of a request. */
  lemma HandlerParts(w: World, r: nat, hs: HandlerStep)
    requires HandlerReady(w, r, hs) && (Submission(r, hs).Some? ==> P.Enabled(w.pool, Submission(r, hs).value))
    ensures var l', seen' := HandlerLedger(w, r, hs), NextPool(w.pool, Submission(r, hs)).seen;
            && l'.jobs.Keys == (if hs.Create? then w.ledger.jobs.Keys + {r} else w.ledger.jobs.Keys)
            && (l'.store.started == w.ledger.store.started
                || (hs.TryStart? && l'.store.started == w.ledger.store.started + [r]))
            && seen' == (if hs.CheckFlag? then w.pool.seen + {r} else w.pool.seen)
  {
    match hs
    case TryStart => SameKeys(w.ledger.jobs, r, w.ledger.jobs[r].SetRunning());
    case FailSubmit(now) => L.EndingParts(w.ledger, "submit failed", now);
    case _ =>
  }

  lemma HandlerKeepsFit(w: World, r: nat, hs: HandlerStep)
    requires L.Valid(w.ledger) && RequestsFit(w)
    requires HandlerReady(w, r, hs) && (Submission(r, hs).Some? ==> P.Enabled(w.pool, Submission(r, hs).value))
    ensures HandlersFit(w.handlers[r := NextHandler(w, r, hs)], HandlerLedger(w, r, hs).jobs.Keys,
                        HandlerLedger(w, r, hs).store.started, NextPool(w.pool, Submission(r, hs)).seen)
  {
    HandlerParts(w, r, hs);
    assert hs.Create? ==> r !in w.ledger.store.started;
    OneMoves(w.handlers, w.ledger.jobs.Keys, w.ledger.store.started, w.pool.seen, r, NextHandler(w, r, hs),
             HandlerLedger(w, r, hs).jobs.Keys, HandlerLedger(w, r, hs).store.started,
             NextPool(w.pool, Submission(r, hs)).seen);
  }

  lemma HandlerLedgerValid(w: World, r: nat, hs: HandlerStep)
    requires L.Valid(w.ledger) && RequestsFit(w) && HandlerReady(w, r, hs)
    ensures L.Valid(HandlerLedger(w, r, hs))
  {
    match hs
    case Create(id, action, now) => L.CreateValid(w.ledger, r, id, action, now);
    case TryStart => L.TryStartValid(w.ledger, r);
    case FailSubmit(now) => L.FailValid(w.ledger, "submit failed", now);
    case _ =>
  }

  lemma CompleteKeepsValid(w: World, now: int)
    requires L.Valid(w.ledger) && L.CurrentKnown(w.ledger)
    ensures L.Valid(WorkerLedger(w, Complete(now)))
  {
    L.CompleteValid(w.ledger, now);
  }

  lemma CancelKeepsValid(w: World, now: int)
    requires L.Valid(w.ledger) && L.CurrentKnown(w.ledger)
    ensures L.Valid(WorkerLedger(w, FailCanceled(now)))
  {
    L.FailValid(w.ledger, "job canceled", now);
  }

  lemma PanicKeepsValid(w: World, now: int)
    requires L.Valid(w.ledger) && L.CurrentKnown(w.ledger)
    ensures L.Valid(WorkerLedger(w, FailPanicked(now)))
  {
    L.FailValid(w.ledger, "panic during job execution", now);
  }

  lemma WorkerLedgerValid(w: World, ws: WorkerStep)
    requires L.Valid(w.ledger) && (Ends(ws) ==> L.CurrentKnown(w.ledger))
    ensures L.Valid(WorkerLedger(w, ws))
  {
    match ws
    case Complete(now) => CompleteKeepsValid(w, now);
    case FailCanceled(now) => CancelKeepsValid(w, now);
    case FailPanicked(now) => PanicKeepsValid(w, now);
    case _ => assert WorkerLedger(w, ws) == w.ledger;
  }

  lemma WorkerLedgerParts(w: World, ws: WorkerStep)
    requires Ends(ws) ==> L.CurrentKnown(w.ledger)
    ensures WorkerLedger(w, ws).jobs.Keys == w.ledger.jobs.Keys
    ensures WorkerLedger(w, ws).store.started == w.ledger.store.started
  {
    match ws
    case FailCanceled(now) => L.EndingParts(w.ledger, "job canceled", now);
    case Complete(now) => L.EndingParts(w.ledger, "", now);
    case FailPanicked(now) => L.EndingParts(w.ledger, "panic during job execution", now);
    case _ =>
  }

  /** Workers and housekeeping submit nothing. */
  lemma NothingSeen(p: P.Pool, st: P.Step)
    requires P.Enabled(p, st) && (Housekeeping(st) || st.Take? || st.EndTask?)
    ensures P.Apply(p, st).seen == p.seen
    ensures !st.Take? && !st.EndTask? ==> P.Apply(p, st).running == p.running && P.Apply(p, st).queue == p.queue
  {
  }

  /** Submitting does not touch the workers. */
  lemma SubmissionRunsNothing(p: P.Pool, r: nat, hs: HandlerStep)
    requires Submission(r, hs).Some? ==> P.Enabled(p, Submission(r, hs).value)
    ensures NextPool(p, Submission(r, hs)).running == p.running
  {
  }

  lemma WorkerPhases(cfg: Config, w: World, v: nat, ws: WorkerStep)
    requires WorkerReady(cfg, w, v, ws) && (Duty(v, ws).Some? ==> P.Enabled(w.pool, Duty(v, ws).value))
    requires w.phases.Keys == w.pool.running.Keys
    ensures NextPhases(w, v, ws).Keys == NextPool(w.pool, Duty(v, ws)).running.Keys
  {
    if ws.Take? || ws.Leave? {
    } else {
      SameKeys(w.phases, v, NextPhase(w, ws).value);
    }
  }

  lemma PoolStays(p: P.Pool, part: Option<P.Step>)
    requires P.Inv(p) && (part.Some? ==> P.Enabled(p, part.value))
    ensures P.Inv(NextPool(p, part))
  {
    if part.Some? {
      P.StepKeeps(p, part.value);
    }
  }

  lemma HandleFits(cfg: Config, w: World, r: nat, hs: HandlerStep)
    requires Fits(w) && Enabled(cfg, w, Handle(r, hs))
    ensures Fits(Apply(cfg, w, Handle(r, hs)))
  {
    PoolStays(w.pool, Submission(r, hs));
    HandlerLedgerValid(w, r, hs);
    HandlerKeepsFit(w, r, hs);
    SubmissionRunsNothing(w.pool, r, hs);
  }

  lemma WorkRequestsFit(cfg: Config, w: World, v: nat, ws: WorkerStep)
    requires RequestsFit(w) && Enabled(cfg, w, Work(v, ws))
    requires WorkerLedger(w, ws).jobs.Keys == w.ledger.jobs.Keys
    requires WorkerLedger(w, ws).store.started == w.ledger.store.started
    ensures RequestsFit(Apply(cfg, w, Work(v, ws)))
  {
    if Duty(v, ws).Some? {
      NothingSeen(w.pool, Duty(v, ws).value);
    }
  }

  lemma WorkPool(cfg: Config, w: World, v: nat, ws: WorkerStep)
    requires P.Inv(w.pool) && Enabled(cfg, w, Work(v, ws))
    ensures P.Inv(Apply(cfg, w, Work(v, ws)).pool)
  {
    PoolStays(w.pool, Duty(v, ws));
  }

  lemma WorkLedger(cfg: Config, w: World, v: nat, ws: WorkerStep)
    requires L.Valid(w.ledger) && RequestsFit(w) && Enabled(cfg, w, Work(v, ws))
    ensures L.Valid(Apply(cfg, w, Work(v, ws)).ledger) && RequestsFit(Apply(cfg, w, Work(v, ws)))
  {
    WorkerLedgerValid(w, ws);
    WorkerLedgerParts(w, ws);
    WorkRequestsFit(cfg, w, v, ws);
  }

  lemma WorkPhases(cfg: Config, w: World, v: nat, ws: WorkerStep)
    requires w.phases.Keys == w.pool.running.Keys && Enabled(cfg, w, Work(v, ws))
    ensures Apply(cfg, w, Work(v, ws)).phases.Keys == Apply(cfg, w, Work(v, ws)).pool.running.Keys
  {
    WorkerPhases(cfg, w, v, ws);
  }

  lemma WorkFits(cfg: Config, w: World, v: nat, ws: WorkerStep)
    requires Fits(w) && Enabled(cfg, w, Work(v, ws))
    ensures Fits(Apply(cfg, w, Work(v, ws)))
  {
    WorkPool(cfg, w, v, ws);
    WorkLedger(cfg, w, v, ws);
    WorkPhases(cfg, w, v, ws);
  }

  lemma CleanupFits(cfg: Config, w: World, cutoff: int)
    requires Fits(w)
    ensures Fits(Apply(cfg, w, Cleanup(cutoff)))
  {
    L.CleanupValid(w.ledger, cutoff);
  }

  lemma PoolStepFits(cfg: Config, w: World, pst: P.Step)
    requires Fits(w) && Enabled(cfg, w, PoolStep(pst))
    ensures Fits(Apply(cfg, w, PoolStep(pst)))
  {
    PoolStays(w.pool, Some(pst));
    NothingSeen(w.pool, pst);
  }

  lemma FitsStep(cfg: Config, w: World, st: Step)
    requires Fits(w) && Enabled(cfg, w, st)
    ensures Fits(Apply(cfg, w, st))
  {
    match st
    case Handle(r, hs) => HandleFits(cfg, w, r, hs);
    case Work(v, ws) => WorkFits(cfg, w, v, ws);
    case Cleanup(cutoff) => CleanupFits(cfg, w, cutoff);
    case PoolStep(pst) => PoolStepFits(cfg, w, pst);
  }

  lemma {:induction false} AlwaysFits(cfg: Config, steps: seq<Step>)
    requires ValidRun(cfg, steps)
    ensures Fits(Run(cfg, steps))
  {
    if steps == [] {
      L.StartValid(cfg.maxHistory);
      P.NewPoolInv(cfg.workers, cfg.maxBacklog);
    } else {
      AlwaysFits(cfg, Init(steps));
      FitsStep(cfg, Run(cfg, Init(steps)), Last(steps));
    }
  }

  // ---- the ticket ----

  /** A request holds a ticket from its successful TryStartJob until its job is in the queue
      or has been failed; a request that crashed on the closed channel keeps it for ever. */
  predicate Holding(h: Handler) {
    h.Started? || h.Submitting? || h.Refused? || h.Crashed?
  }

  /** A worker holds a ticket from receiving the task until the job is completed or failed. */
  predicate Working(ph: Phase) {
    ph.Entered? || ph.Canceled? || ph.Acting? || ph.Acted? || ph.Panicked?
  }

  /** Where the one ticket is. */
  datatype Ticket =
    | Free
    | AtHandler(job: nat)
    | InQueue(job: nat)
    | AtWorker(worker: nat, job: nat)

  function Holder(t: Ticket): Option<nat> {
    if t.Free? then None else Some(t.job)
  }

  ghost predicate HandlersHold(handlers: map<nat, Handler>, t: Ticket) {
    forall r :: r in handlers && Holding(handlers[r]) <==> t == AtHandler(r)
  }

  predicate QueueHolds(queue: seq<nat>, t: Ticket) {
    queue == if t.InQueue? then [t.job] else []
  }

  ghost predicate WorkersHold(phases: map<nat, Phase>, running: map<nat, nat>, t: Ticket) {
    && (forall v :: v in phases && Working(phases[v]) <==> t.AtWorker? && t.worker == v)
    && (t.AtWorker? ==> t.worker in running && running[t.worker] == t.job)
  }

  /** There is one ticket, at `t`, exactly when the store has a current job, and it is for
      that job. */
  ghost predicate TicketAt(w: World, t: Ticket) {
    && w.ledger.store.current == Holder(t)
    && HandlersHold(w.handlers, t) && QueueHolds(w.pool.queue, t)
    && WorkersHold(w.phases, w.pool.running, t)
  }

  /** Where the ticket is after a step of a request. */
  function AfterHandler(w: World, r: nat, hs: HandlerStep, t: Ticket): Ticket {
    match hs
    case TryStart => if L.Busy(w.ledger) then t else AtHandler(r)
    case Send => InQueue(r)
    case FailSubmit(_) => Free
    case _ => t
  }

  function AfterWorker(w: World, v: nat, ws: WorkerStep, t: Ticket): Ticket {
    if ws.Take? && t.InQueue? then AtWorker(v, t.job) else if Ends(ws) then Free else t
  }

  lemma HandlerCurrent(w: World, r: nat, hs: HandlerStep, t: Ticket)
    requires L.Orderly(w.ledger) && TicketAt(w, t) && HandlerReady(w, r, hs)
    ensures HandlerLedger(w, r, hs).store.current == Holder(AfterHandler(w, r, hs, t))
    ensures hs.FailSubmit? ==> w.ledger.store.current == Some(r)
  {
    assert r in w.handlers && Holding(w.handlers[r]) ==> t == AtHandler(r);
  }

  lemma HandlerMoves(w: World, r: nat, hs: HandlerStep, t: Ticket)
    requires L.Orderly(w.ledger) && TicketAt(w, t) && HandlerReady(w, r, hs)
    ensures HandlersHold(w.handlers[r := NextHandler(w, r, hs)], AfterHandler(w, r, hs, t))
  {
    var h, t' := NextHandler(w, r, hs), AfterHandler(w, r, hs, t);
    assert r in w.handlers && Holding(w.handlers[r]) <==> t == AtHandler(r);
    assert Holding(h) <==> t' == AtHandler(r);
    assert t != t' ==> (t == AtHandler(r) || t.Free?) && (t' == AtHandler(r) || !t'.AtHandler?);
    OneHolds(w.handlers, r, h, t, t');
  }

  lemma OneHolds(handlers: map<nat, Handler>, r: nat, h: Handler, t: Ticket, t': Ticket)
    requires HandlersHold(handlers, t) && (Holding(h) <==> t' == AtHandler(r))
    requires t != t' ==> (t == AtHandler(r) || t.Free?) && (t' == AtHandler(r) || !t'.AtHandler?)
    ensures HandlersHold(handlers[r := h], t')
  {
  }

  lemma HandlerQueue(w: World, r: nat, hs: HandlerStep, t: Ticket)
    requires L.Orderly(w.ledger) && TicketAt(w, t) && HandlerReady(w, r, hs)
    requires Submission(r, hs).Some? ==> P.Enabled(w.pool, Submission(r, hs).value)
    ensures QueueHolds(NextPool(w.pool, Submission(r, hs)).queue, AfterHandler(w, r, hs, t))
    ensures WorkersHold(w.phases, NextPool(w.pool, Submission(r, hs)).running, AfterHandler(w, r, hs, t))
  {
    SubmissionRunsNothing(w.pool, r, hs);
    assert r in w.handlers && Holding(w.handlers[r]) ==> t == AtHandler(r);
  }

  lemma HandlerTicket(cfg: Config, w: World, r: nat, hs: HandlerStep, t: Ticket)
    requires L.Orderly(w.ledger) && TicketAt(w, t) && Enabled(cfg, w, Handle(r, hs))
    ensures TicketAt(Apply(cfg, w, Handle(r, hs)), AfterHandler(w, r, hs, t))
  {
    HandlerCurrent(w, r, hs, t);
    HandlerMoves(w, r, hs, t);
    HandlerQueue(w, r, hs, t);
  }

  lemma WorkerCurrent(cfg: Config, w: World, v: nat, ws: WorkerStep, t: Ticket)
    requires L.Orderly(w.ledger) && TicketAt(w, t) && WorkerReady(cfg, w, v, ws) && !ws.LogPanics?
    requires Duty(v, ws).Some? ==> P.Enabled(w.pool, Duty(v, ws).value)
    ensures WorkerLedger(w, ws).store.current == Holder(AfterWorker(w, v, ws, t))
    ensures Ends(ws) ==> w.ledger.store.current == Some(w.pool.running[v])
  {
    assert v in w.phases && Working(w.phases[v]) ==> t.AtWorker? && t.worker == v;
  }

  lemma WorkerMoves(cfg: Config, w: World, v: nat, ws: WorkerStep, t: Ticket)
    requires TicketAt(w, t) && WorkerReady(cfg, w, v, ws) && !ws.LogPanics?
    requires Duty(v, ws).Some? ==> P.Enabled(w.pool, Duty(v, ws).value)
    ensures WorkersHold(NextPhases(w, v, ws), NextPool(w.pool, Duty(v, ws)).running, AfterWorker(w, v, ws, t))
    ensures QueueHolds(NextPool(w.pool, Duty(v, ws)).queue, AfterWorker(w, v, ws, t))
    ensures HandlersHold(w.handlers, AfterWorker(w, v, ws, t))
  {
    assert v in w.phases && Working(w.phases[v]) ==> t.AtWorker? && t.worker == v;
  }

  lemma WorkerTicket(cfg: Config, w: World, v: nat, ws: WorkerStep, t: Ticket)
    requires L.Orderly(w.ledger) && TicketAt(w, t) && Enabled(cfg, w, Work(v, ws)) && !ws.LogPanics?
    ensures TicketAt(Apply(cfg, w, Work(v, ws)), AfterWorker(w, v, ws, t))
  {
    WorkerCurrent(cfg, w, v, ws, t);
    WorkerMoves(cfg, w, v, ws, t);
  }

  lemma OtherTicket(cfg: Config, w: World, st: Step, t: Ticket)
    requires TicketAt(w, t) && Enabled(cfg, w, st) && (st.Cleanup? || st.PoolStep?)
    ensures TicketAt(Apply(cfg, w, st), t)
  {
    if st.PoolStep? {
      NothingSeen(w.pool, st.st);
    }
  }

  lemma CallsStep(cfg: Config, w: World, st: Step, t: Ticket)
    requires L.Orderly(w.ledger) && TicketAt(w, t) && Enabled(cfg, w, st)
    requires !(st.Work? && st.ws.LogPanics?) && L.RightCalls(w.calls)
    ensures L.RightCalls(Apply(cfg, w, st).calls)
  {
    match st
    case Handle(r, hs) => HandlerCurrent(w, r, hs, t);
    case Work(v, ws) => WorkerCurrent(cfg, w, v, ws, t);
    case _ =>
  }

  lemma TicketMoves(cfg: Config, w: World, st: Step, t: Ticket) returns (t': Ticket)
    requires L.Orderly(w.ledger) && TicketAt(w, t) && Enabled(cfg, w, st) && !(st.Work? && st.ws.LogPanics?)
    ensures TicketAt(Apply(cfg, w, st), t')
  {
    match st
    case Handle(r, hs) =>
      HandlerTicket(cfg, w, r, hs, t);
      t' := AfterHandler(w, r, hs, t);
    case Work(v, ws) =>
      WorkerTicket(cfg, w, v, ws, t);
      t' := AfterWorker(w, v, ws, t);
    case _ =>
      OtherTicket(cfg, w, st, t);
      t' := t;
  }

  lemma AlwaysOrderly(cfg: Config, steps: seq<Step>)
    requires ValidRun(cfg, steps)
    ensures L.Orderly(Run(cfg, steps).ledger)
  {
    AlwaysFits(cfg, steps);
    L.CurrentIsKnown(Run(cfg, steps).ledger);
  }

  lemma NoLogPanic(cfg: Config, w: World, st: Step)
    requires !cfg.logPanics && Enabled(cfg, w, st)
    ensures !(st.Work? && st.ws.LogPanics?)
  {
  }

  /** Unless logging panics there is one ticket on every run, and every call of
      CompleteCurrentJob or FailCurrentJob ends the caller's own job. */
  lemma {:induction false} OneTicket(cfg: Config, steps: seq<Step>) returns (t: Ticket)
    requires !cfg.logPanics && ValidRun(cfg, steps)
    ensures TicketAt(Run(cfg, steps), t) && L.RightCalls(Run(cfg, steps).calls)
  {
    if steps == [] {
      t := Free;
    } else {
      var w := Run(cfg, Init(steps));
      t := OneTicket(cfg, Init(steps));
      AlwaysOrderly(cfg, Init(steps));
      NoLogPanic(cfg, w, Last(steps));
      CallsStep(cfg, w, Last(steps), t);
      t := TicketMoves(cfg, w, Last(steps), t);
    }
  }

  // ---- mutual exclusion ----

  /** Everywhere a started job can be before it is ended. */
  datatype Spot = OfRequest(r: nat) | OfQueue(i: nat) | OfWorker(v: nat)

  ghost predicate Holds(w: World, spot: Spot) {
    match spot
    case OfRequest(r) => r in w.handlers && Holding(w.handlers[r])
    case OfQueue(i) => i < |w.pool.queue|
    case OfWorker(v) => v in w.phases && Working(w.phases[v])
  }

  function SpotOf(t: Ticket): Spot
    requires !t.Free?
  {
    match t
    case AtHandler(r) => OfRequest(r)
    case InQueue(_) => OfQueue(0)
    case AtWorker(v, _) => OfWorker(v)
  }

  lemma TicketIsOnlySpot(w: World, t: Ticket, spot: Spot)
    requires TicketAt(w, t)
    ensures Holds(w, spot) <==> !t.Free? && spot == SpotOf(t)
  {
  }

  /** At most one request, queue slot or worker holds a started job that has not been ended,
      and one does exactly while the store has a current job. */
  ghost predicate OneHolder(w: World) {
    && (forall a, b :: Holds(w, a) && Holds(w, b) ==> a == b)
    && (w.ledger.store.current.Some? <==> exists a :: Holds(w, a))
  }

  lemma TicketMeansOneHolder(w: World, t: Ticket)
    requires TicketAt(w, t)
    ensures OneHolder(w)
  {
    forall a
      ensures Holds(w, a) <==> !t.Free? && a == SpotOf(t)
    {
      TicketIsOnlySpot(w, t, a);
    }
    assert t.Free? || Holds(w, SpotOf(t));
  }

  lemma OneActing(w: World, u: nat, v: nat)
    requires OneHolder(w) && u in w.phases && v in w.phases && w.phases[u].Acting? && w.phases[v].Acting?
    ensures u == v
  {
    assert Holds(w, OfWorker(u)) && Holds(w, OfWorker(v));
  }

  /** On every run, for any number of requests and workers, there is one holder of the current
      job, and at most one worker is inside ProcessAction. */
  lemma MutualExclusion(cfg: Config, steps: seq<Step>)
    requires !cfg.logPanics && ValidRun(cfg, steps)
    ensures OneHolder(Run(cfg, steps))
    ensures var phases := Run(cfg, steps).phases;
            forall u, v :: u in phases && v in phases && phases[u].Acting? && phases[v].Acting? ==> u == v
  {
    var w := Run(cfg, steps);
    assert OneHolder(w) by {
      var t := OneTicket(cfg, steps);
      TicketMeansOneHolder(w, t);
    }
    forall u, v | u in w.phases && v in w.phases && w.phases[u].Acting? && w.phases[v].Acting?
      ensures u == v
    {
      OneActing(w, u, v);
    }
  }

  predicate HasCrashed(w: World, r: nat) {
    r in w.handlers && w.handlers[r].Crashed?
  }

  lemma CrashStays(cfg: Config, w: World, st: Step, r: nat)
    requires HasCrashed(w, r) && Enabled(cfg, w, st)
    ensures HasCrashed(Apply(cfg, w, st), r)
  {
  }

  lemma {:induction false} CrashIsForEver(cfg: Config, steps: seq<Step>, more: seq<Step>, r: nat)
    requires ValidRun(cfg, steps) && HasCrashed(Run(cfg, steps), r) && ValidRun(cfg, steps + more)
    ensures HasCrashed(Run(cfg, steps + more), r)
  {
    if more == [] {
      assert steps + more == steps;
    } else {
      assert Init(steps + more) == steps + Init(more) && Last(steps + more) == Last(more);
      CrashIsForEver(cfg, steps, Init(more), r);
      CrashStays(cfg, Run(cfg, steps + Init(more)), Last(more), r);
    }
  }

  lemma CrashedHolds(w: World, t: Ticket, r: nat)
    requires TicketAt(w, t) && HasCrashed(w, r)
    ensures w.ledger.store.current == Some(r)
  {
    TicketIsOnlySpot(w, t, OfRequest(r));
  }

  /** A request that meets the closed channel leaves its job current for good: at every later
      point of the run it is the current job and still running, so TryStartJob refuses every
      other job. */
  lemma CrashKeepsJobCurrent(cfg: Config, steps: seq<Step>, more: seq<Step>, r: nat)
    requires !cfg.logPanics && ValidRun(cfg, steps) && HasCrashed(Run(cfg, steps), r)
    requires ValidRun(cfg, steps + more)
    ensures var l := Run(cfg, steps + more).ledger; l.store.current == Some(r) && L.Busy(l)
  {
    var w := Run(cfg, steps + more);
    CrashIsForEver(cfg, steps, more, r);
    assert w.ledger.store.current == Some(r) by {
      var t := OneTicket(cfg, steps + more);
      CrashedHolds(w, t, r);
    }
    assert L.Orderly(w.ledger) by {
      AlwaysOrderly(cfg, steps + more);
    }
  }

  lemma SubmitterMeetsEmptyQueue(w: World, t: Ticket, r: nat)
    requires TicketAt(w, t) && r in w.handlers && w.handlers[r].Submitting?
    ensures w.pool.queue == []
  {
    TicketIsOnlySpot(w, t, OfRequest(r));
  }

  lemma EmptyIsNotFull(cfg: Config, w: World, r: nat)
    requires r in w.handlers && w.handlers[r].Submitting? ==> w.pool.queue == []
    requires w.pool.maxBacklog >= 1
    ensures !Enabled(cfg, w, Handle(r, SendFull))
  {
  }

  lemma AlwaysRoom(cfg: Config, steps: seq<Step>)
    requires ValidRun(cfg, steps)
    ensures Run(cfg, steps).pool.maxBacklog >= 1
  {
    AlwaysFits(cfg, steps);
  }

  /** With the handler as the only submitter the queue is empty whenever a request submits, so
      the pool never answers that it is full, whatever its backlog. */
  lemma NeverFull(cfg: Config, steps: seq<Step>, r: nat)
    requires !cfg.logPanics && ValidRun(cfg, steps)
    ensures var w := Run(cfg, steps); r in w.handlers && w.handlers[r].Submitting? ==> w.pool.queue == []
    ensures !Enabled(cfg, Run(cfg, steps), Handle(r, SendFull))
  {
    var w := Run(cfg, steps);
    if r in w.handlers && w.handlers[r].Submitting? {
      assert w.pool.queue == [] by {
        var t := OneTicket(cfg, steps);
        SubmitterMeetsEmptyQueue(w, t, r);
      }
    }
    AlwaysRoom(cfg, steps);
    EmptyIsNotFull(cfg, w, r);
  }

  // ---- worlds that runs lead to ----

  /** Some run that begins with `from` ends in `w`. */
  ghost predicate Later(cfg: Config, from: seq<Step>, w: World) {
    exists more :: ValidRun(cfg, from + more) && Run(cfg, from + more) == w
  }

  lemma Now(cfg: Config, from: seq<Step>)
    requires ValidRun(cfg, from)
    ensures Later(cfg, from, Run(cfg, from))
  {
    assert from + [] == from;
    assert ValidRun(cfg, from + []);
  }

  lemma Reach(cfg: Config, from: seq<Step>, w: World, st: Step) returns (w': World)
    requires Later(cfg, from, w) && Enabled(cfg, w, st)
    ensures w' == Apply(cfg, w, st) && Later(cfg, from, w')
  {
    var more :| ValidRun(cfg, from + more) && Run(cfg, from + more) == w;
    assert Init(from + (more + [st])) == from + more;
    w' := Apply(cfg, w, st);
    assert ValidRun(cfg, from + (more + [st])) && Run(cfg, from + (more + [st])) == w';
  }

  lemma LaterOrderly(cfg: Config, from: seq<Step>, w: World)
    requires Later(cfg, from, w)
    ensures L.Orderly(w.ledger)
  {
    var more :| ValidRun(cfg, from + more) && Run(cfg, from + more) == w;
    AlwaysOrderly(cfg, from + more);
  }

  /** A new request passes the first check, ... */
  lemma PassCheck(cfg: Config, from: seq<Step>, w: World, r: nat) returns (w': World)
    requires Later(cfg, from, w) && r !in w.handlers && w.ledger.store.current.None?
    ensures Later(cfg, from, w') && w' == w.(handlers := w.handlers[r := Checked])
  {
    var w1 := Reach(cfg, from, w, Handle(r, Peek));
    w' := Reach(cfg, from, w1, Handle(r, Decide));
    Overwrites(w.handlers, r, Peeked(None), Checked);
  }

  /** ... makes its job, ... */
  lemma MakeJob(cfg: Config, from: seq<Step>, w: World, r: nat, id: string) returns (w': World)
    requires Later(cfg, from, w)
    requires r !in w.handlers && w.ledger.store.current.None? && L.IdUnused(w.ledger, id)
    ensures Later(cfg, from, w')
    ensures w' == w.(ledger := L.Create(w.ledger, r, id, "update", 0), handlers := w.handlers[r := Created])
  {
    var w1 := PassCheck(cfg, from, w, r);
    w' := Reach(cfg, from, w1, Handle(r, Create(id, "update", 0)));
    Overwrites(w.handlers, r, Checked, Created);
  }

  /** ... and starts it. */
  lemma StartMade(cfg: Config, from: seq<Step>, w: World, r: nat) returns (w': World)
    requires Later(cfg, from, w) && w.ledger.store.current.None?
    requires r in w.handlers && w.handlers[r].Created? && r in w.ledger.jobs && r in w.ledger.traces
    ensures Later(cfg, from, w')
    ensures w' == w.(ledger := L.TryStart(w.ledger, r), handlers := w.handlers[r := Started])
  {
    w' := Reach(cfg, from, w, Handle(r, TryStart));
  }

  lemma StartJob(cfg: Config, from: seq<Step>, w: World, r: nat, id: string) returns (w': World)
    requires Later(cfg, from, w)
    requires r !in w.handlers && w.ledger.store.current.None? && L.IdUnused(w.ledger, id)
    ensures Later(cfg, from, w')
    ensures w' == w.(ledger := L.TryStart(L.Create(w.ledger, r, id, "update", 0), r),
                     handlers := w.handlers[r := Started])
  {
    var w1 := MakeJob(cfg, from, w, r, id);
    w' := StartMade(cfg, from, w1, r);
    Overwrites(w.handlers, r, Created, Started);
  }

  /** Some run ends in `w`. */
  ghost predicate Reachable(cfg: Config, w: World) {
    Later(cfg, [], w)
  }

  lemma Begin(cfg: Config) returns (w: World)
    ensures w == NewWorld(cfg) && Reachable(cfg, w)
  {
    w := NewWorld(cfg);
    assert ValidRun(cfg, []) && Run(cfg, []) == w;
    Now(cfg, []);
  }

  lemma SomeRun(cfg: Config, w: World) returns (steps: seq<Step>)
    requires Reachable(cfg, w)
    ensures ValidRun(cfg, steps) && Run(cfg, steps) == w
  {
    var more :| ValidRun(cfg, [] + more) && Run(cfg, [] + more) == w;
    steps := [] + more;
  }

  predicate RunsAt(w: World, v: nat, ph: Phase, r: nat) {
    v in w.phases && w.phases[v] == ph && v in w.pool.running && w.pool.running[v] == r
  }

  // ---- how a job ends ----

  /** What a call of CompleteCurrentJob or FailCurrentJob changes on any run: the caller's own
      job ends, completed after the action has returned and failed otherwise, and no other job
      is touched. */
  lemma WorkerEndsOwnJob(cfg: Config, steps: seq<Step>, v: nat, ws: WorkerStep)
    requires !cfg.logPanics && ValidRun(cfg, steps)
    requires Enabled(cfg, Run(cfg, steps), Work(v, ws)) && Ends(ws)
    ensures var w := Run(cfg, steps);
            L.EndsJob(w.ledger, Apply(cfg, w, Work(v, ws)).ledger, w.pool.running[v],
                      if ws.Complete? then Completed else Status.Failed,
                      if ws.Complete? then None
                      else if ws.FailCanceled? then Some("job canceled")
                      else Some("panic during job execution"), ws.now)
  {
    var w := Run(cfg, steps);
    AlwaysOrderly(cfg, steps);
    var t := OneTicket(cfg, steps);
    WorkerCurrent(cfg, w, v, ws, t);
    match ws
    case FailCanceled(now) => L.EndsCurrent(w.ledger, w.pool.running[v], "job canceled", now);
    case Complete(now) => L.EndsCurrent(w.ledger, w.pool.running[v], "", now);
    case FailPanicked(now) => L.EndsCurrent(w.ledger, w.pool.running[v], "panic during job execution", now);
  }

  lemma RequestEndsOwnJob(cfg: Config, steps: seq<Step>, r: nat, now: int)
    requires !cfg.logPanics && ValidRun(cfg, steps)
    requires Enabled(cfg, Run(cfg, steps), Handle(r, FailSubmit(now)))
    ensures var w := Run(cfg, steps);
            L.EndsJob(w.ledger, Apply(cfg, w, Handle(r, FailSubmit(now))).ledger, r, Status.Failed,
                      Some("submit failed"), now)
  {
    var w := Run(cfg, steps);
    AlwaysOrderly(cfg, steps);
    var t := OneTicket(cfg, steps);
    HandlerCurrent(w, r, FailSubmit(now), t);
    L.EndsCurrent(w.ledger, r, "submit failed", now);
  }

  lemma HandlerKeepsEnded(w: World, r: nat, hs: HandlerStep, x: nat, job: Job)
    requires L.Orderly(w.ledger) && RequestsFit(w) && HandlerReady(w, r, hs)
    requires L.EndedAs(w.ledger, x, job) && x in w.ledger.store.started
    ensures L.EndedAs(HandlerLedger(w, r, hs), x, job)
  {
    if hs.FailSubmit? {
      L.EndingKeepsEnded(w.ledger, x, job, "submit failed", hs.now);
    }
  }

  lemma WorkerKeepsEnded(w: World, ws: WorkerStep, x: nat, job: Job)
    requires L.Orderly(w.ledger) && L.EndedAs(w.ledger, x, job)
    ensures L.EndedAs(WorkerLedger(w, ws), x, job)
  {
    match ws
    case FailCanceled(now) => L.EndingKeepsEnded(w.ledger, x, job, "job canceled", now);
    case Complete(now) => L.EndingKeepsEnded(w.ledger, x, job, "", now);
    case FailPanicked(now) => L.EndingKeepsEnded(w.ledger, x, job, "panic during job execution", now);
    case _ =>
  }

  lemma StepKeepsEnded(cfg: Config, w: World, st: Step, x: nat, job: Job)
    requires L.Orderly(w.ledger) && RequestsFit(w) && Enabled(cfg, w, st)
    requires L.EndedAs(w.ledger, x, job) && x in w.ledger.store.started
    ensures L.EndedAs(Apply(cfg, w, st).ledger, x, job)
  {
    match st
    case Handle(r, hs) => HandlerKeepsEnded(w, r, hs, x, job);
    case Work(v, ws) => WorkerKeepsEnded(w, ws, x, job);
    case _ =>
  }

  lemma FitsForEnded(cfg: Config, steps: seq<Step>, x: nat, job: Job)
    requires ValidRun(cfg, steps) && L.EndedAs(Run(cfg, steps).ledger, x, job)
    ensures var w := Run(cfg, steps); L.Orderly(w.ledger) && RequestsFit(w) && x in w.ledger.store.started
  {
    AlwaysFits(cfg, steps);
    L.CurrentIsKnown(Run(cfg, steps).ledger);
    L.EndedWasStarted(Run(cfg, steps).ledger, x);
  }

  /** A job that has ended never changes again, not even if logging panics after it. */
  lemma {:induction false} EndedIsFinal(cfg: Config, steps: seq<Step>, more: seq<Step>, x: nat, job: Job)
    requires ValidRun(cfg, steps) && ValidRun(cfg, steps + more)
    requires L.EndedAs(Run(cfg, steps).ledger, x, job)
    ensures L.EndedAs(Run(cfg, steps + more).ledger, x, job)
  {
    if more == [] {
      assert steps + more == steps;
    } else {
      var before := steps + Init(more);
      assert Init(steps + more) == before && Last(steps + more) == Last(more);
      EndedIsFinal(cfg, steps, Init(more), x, job);
      FitsForEnded(cfg, before, x, job);
      StepKeepsEnded(cfg, Run(cfg, before), Last(more), x, job);
    }
  }

  // ---- jobs on every run ----

  /** On every run, whatever panics: each job goes through pending, running, and completed or
      failed in this order; its end time is set exactly when it has ended; jobs in the history
      have ended, and the current job is running whenever the store's lock is free. */
  lemma StatusOnRuns(cfg: Config, steps: seq<Step>)
    requires ValidRun(cfg, steps)
    ensures L.StatusesProper(Run(cfg, steps).ledger)
  {
    AlwaysFits(cfg, steps);
    L.StatusTraces(Run(cfg, steps).ledger);
  }

  /** On every run, whatever panics, the store accounts for every job, and the lookups find what
      it holds. */
  lemma StoreOnRuns(cfg: Config, steps: seq<Step>, id: string)
    requires ValidRun(cfg, steps)
    ensures L.StoreProper(Run(cfg, steps).ledger, id)
  {
    AlwaysFits(cfg, steps);
    L.StoreIsProper(Run(cfg, steps).ledger, id);
  }

  /** Every started job has been completed or failed exactly when no request, queue slot or
      worker holds one. */
  lemma QuietIffFinished(cfg: Config, steps: seq<Step>)
    requires !cfg.logPanics && ValidRun(cfg, steps)
    ensures var w := Run(cfg, steps);
            (forall spot :: !Holds(w, spot)) <==> w.ledger.store.started == w.ledger.store.finished
  {
    var w := Run(cfg, steps);
    MutualExclusion(cfg, steps);
    assert S.OneAtATime(w.ledger.store) by {
      AlwaysFits(cfg, steps);
    }
    L.NoneCurrentIffAllFinished(w.ledger);
  }

  // ---- an accepted job can be looked up ----

  /** Only started jobs are submitted. */
  ghost predicate SubmitsStarted(handlers: map<nat, Handler>, started: seq<nat>, seen: set<nat>) {
    && (forall r :: r in handlers && handlers[r].Started? ==> r in started)
    && (forall r :: r in seen ==> r in started)
  }

  lemma HandlerSubmitsStarted(cfg: Config, w: World, r: nat, hs: HandlerStep)
    requires Enabled(cfg, w, Handle(r, hs)) && SubmitsStarted(w.handlers, w.ledger.store.started, w.pool.seen)
    ensures var w' := Apply(cfg, w, Handle(r, hs));
            SubmitsStarted(w'.handlers, w'.ledger.store.started, w'.pool.seen)
  {
    HandlerParts(w, r, hs);
  }

  lemma OtherSubmitsStarted(cfg: Config, w: World, st: Step)
    requires Enabled(cfg, w, st) && !st.Handle?
    ensures var w' := Apply(cfg, w, st);
            && w'.handlers == w.handlers && w'.ledger.store.started == w.ledger.store.started
            && w'.pool.seen == w.pool.seen
  {
    if st.Work? {
      WorkerLedgerParts(w, st.ws);
    }
    if !st.Cleanup? && PoolPart(st).Some? {
      NothingSeen(w.pool, PoolPart(st).value);
    }
  }

  lemma {:induction false} AlwaysSubmitsStarted(cfg: Config, steps: seq<Step>)
    requires ValidRun(cfg, steps)
    ensures var w := Run(cfg, steps); SubmitsStarted(w.handlers, w.ledger.store.started, w.pool.seen)
  {
    if steps != [] {
      AlwaysSubmitsStarted(cfg, Init(steps));
      var w := Run(cfg, Init(steps));
      match Last(steps) {
        case Handle(r, hs) => HandlerSubmitsStarted(cfg, w, r, hs);
        case _ => OtherSubmitsStarted(cfg, w, Last(steps));
      }
    }
  }

  lemma AcceptedSeen(cfg: Config, steps: seq<Step>, r: nat)
    requires ValidRun(cfg, steps) && r in Run(cfg, steps).pool.accepted
    ensures r in Run(cfg, steps).pool.seen
  {
    AlwaysFits(cfg, steps);
  }

  /** On every run, whatever panics: the job of a request whose submission was accepted is
      found by its ID until the history drops it. */
  lemma AcceptedIsFound(cfg: Config, steps: seq<Step>, r: nat)
    requires ValidRun(cfg, steps) && r in Run(cfg, steps).pool.accepted
    ensures L.Findable(Run(cfg, steps).ledger, r)
  {
    var l := Run(cfg, steps).ledger;
    assert r in l.store.started by {
      AcceptedSeen(cfg, steps, r);
      AlwaysSubmitsStarted(cfg, steps);
    }
    assert L.Valid(l) by {
      AlwaysFits(cfg, steps);
    }
    L.StartedFound(l, r);
  }

  // ---- a cancelled pool begins no action ----

  lemma CanceledStays(cfg: Config, w: World, st: Step)
    requires Enabled(cfg, w, st) && w.pool.canceled
    ensures Apply(cfg, w, st).pool.canceled
  {
    PoolAfter(cfg, w, st);
    if PoolPart(st).Some? {
      P.FlagsStay(w.pool, PoolPart(st).value);
    }
  }

  lemma WorkKeepsActing(cfg: Config, w: World, v: nat, ws: WorkerStep, u: nat, r: nat)
    requires Enabled(cfg, w, Work(v, ws)) && w.pool.canceled && RunsAt(Apply(cfg, w, Work(v, ws)), u, Acting, r)
    ensures RunsAt(w, u, Acting, r)
  {
  }

  lemma StepKeepsActing(cfg: Config, w: World, st: Step, u: nat, r: nat)
    requires Enabled(cfg, w, st) && w.pool.canceled && RunsAt(Apply(cfg, w, st), u, Acting, r)
    ensures RunsAt(w, u, Acting, r)
  {
    match st
    case Handle(q, hs) => SubmissionRunsNothing(w.pool, q, hs);
    case Work(v, ws) => WorkKeepsActing(cfg, w, v, ws, u, r);
    case PoolStep(pst) => NothingSeen(w.pool, pst);
    case _ =>
  }

  /** Once a timed out shutdown has cancelled the pool, an action that is going on was going
      on then: no job taken from the queue later begins its action. */
  lemma {:induction false} CanceledBeginsNothing(cfg: Config, steps: seq<Step>, more: seq<Step>, u: nat, r: nat)
    requires ValidRun(cfg, steps) && Run(cfg, steps).pool.canceled && ValidRun(cfg, steps + more)
    ensures Run(cfg, steps + more).pool.canceled
    ensures RunsAt(Run(cfg, steps + more), u, Acting, r) ==> RunsAt(Run(cfg, steps), u, Acting, r)
  {
    if more == [] {
      assert steps + more == steps;
    } else {
      var before := steps + Init(more);
      assert Init(steps + more) == before && Last(steps + more) == Last(more);
      CanceledBeginsNothing(cfg, steps, Init(more), u, r);
      CanceledStays(cfg, Run(cfg, before), Last(more));
      if RunsAt(Run(cfg, steps + more), u, Acting, r) {
        StepKeepsActing(cfg, Run(cfg, before), Last(more), u, r);
      }
    }
  }

  // ---- shutdown ends every accepted job ----

  /** Workers that are as good as done have ended their job, ... */
  ghost predicate PhasesDone(phases: map<nat, Phase>, running: map<nat, nat>, ended: seq<nat>) {
    forall v :: v in phases && v in running && !Working(phases[v]) ==> running[v] in ended
  }

  /** ... and so have tasks that are done. */
  ghost predicate TasksDone(finished: seq<nat>, ended: seq<nat>) {
    forall t :: t in finished ==> t in ended
  }

  ghost predicate DoneFits(w: World) {
    && PhasesDone(w.phases, w.pool.running, w.ledger.store.finished)
    && TasksDone(w.pool.finished, w.ledger.store.finished)
  }

  lemma EndingFinishes(w: World, ws: WorkerStep)
    requires L.CurrentKnown(w.ledger) || !Ends(ws)
    requires S.OneAtATime(w.ledger.store)
    ensures WorkerLedger(w, ws).store.finished == if Ends(ws) then w.ledger.store.started else w.ledger.store.finished
  {
  }

  /** Workers run jobs that were started. */
  ghost predicate RunsStarted(w: World) {
    forall v :: v in w.pool.running ==> w.pool.running[v] in w.ledger.store.started
  }

  lemma SeenIsStarted(w: World)
    requires P.QueueKept(w.pool) && P.TasksKept(w.pool)
    requires SubmitsStarted(w.handlers, w.ledger.store.started, w.pool.seen)
    ensures RunsStarted(w)
  {
    forall v | v in w.pool.running
      ensures w.pool.running[v] in w.ledger.store.started
    {
      P.RunningSeen(w.pool, v);
    }
  }

  lemma FitsParts(w: World)
    requires Fits(w)
    ensures P.QueueKept(w.pool) && P.TasksKept(w.pool) && S.OneAtATime(w.ledger.store)
  {
  }

  lemma AlwaysRunsStarted(cfg: Config, steps: seq<Step>)
    requires ValidRun(cfg, steps)
    ensures RunsStarted(Run(cfg, steps)) && S.OneAtATime(Run(cfg, steps).ledger.store)
  {
    var w := Run(cfg, steps);
    assert P.QueueKept(w.pool) && P.TasksKept(w.pool) && S.OneAtATime(w.ledger.store) by {
      AlwaysFits(cfg, steps);
      FitsParts(w);
    }
    assert RunsStarted(w) by {
      AlwaysSubmitsStarted(cfg, steps);
      SeenIsStarted(w);
    }
  }

  /** Whoever ends a job, every started job is finished then. */
  lemma EndedGrows(w: World, ws: WorkerStep)
    requires L.CurrentKnown(w.ledger) || !Ends(ws)
    requires S.OneAtATime(w.ledger.store) && RunsStarted(w)
    ensures TasksDone(w.ledger.store.finished, WorkerLedger(w, ws).store.finished)
    ensures Ends(ws) ==> forall v :: v in w.pool.running ==> w.pool.running[v] in WorkerLedger(w, ws).store.finished
  {
    EndingFinishes(w, ws);
  }

  lemma WorkerPhasesDone(cfg: Config, w: World, v: nat, ws: WorkerStep, ended: seq<nat>)
    requires Enabled(cfg, w, Work(v, ws)) && PhasesDone(w.phases, w.pool.running, w.ledger.store.finished)
    requires TasksDone(w.ledger.store.finished, ended)
    requires Ends(ws) ==> w.pool.running[v] in ended
    ensures PhasesDone(NextPhases(w, v, ws), NextPool(w.pool, Duty(v, ws)).running, ended)
  {
  }

  lemma WorkerTasksDone(cfg: Config, w: World, v: nat, ws: WorkerStep, ended: seq<nat>)
    requires Enabled(cfg, w, Work(v, ws)) && DoneFits(w) && TasksDone(w.ledger.store.finished, ended)
    ensures TasksDone(NextPool(w.pool, Duty(v, ws)).finished, ended)
  {
  }

  lemma WorkerDone(cfg: Config, w: World, v: nat, ws: WorkerStep)
    requires S.OneAtATime(w.ledger.store) && RunsStarted(w) && Enabled(cfg, w, Work(v, ws)) && DoneFits(w)
    ensures DoneFits(Apply(cfg, w, Work(v, ws)))
  {
    var ended := WorkerLedger(w, ws).store.finished;
    EndedGrows(w, ws);
    WorkerPhasesDone(cfg, w, v, ws, ended);
    WorkerTasksDone(cfg, w, v, ws, ended);
  }

  lemma HandlerDone(cfg: Config, w: World, r: nat, hs: HandlerStep)
    requires Enabled(cfg, w, Handle(r, hs)) && DoneFits(w)
    ensures DoneFits(Apply(cfg, w, Handle(r, hs)))
  {
    SubmissionRunsNothing(w.pool, r, hs);
    SubmissionFinishesNothing(w.pool, r, hs);
    assert forall x :: x in w.ledger.store.finished ==> x in HandlerLedger(w, r, hs).store.finished;
  }

  lemma SubmissionFinishesNothing(p: P.Pool, r: nat, hs: HandlerStep)
    requires Submission(r, hs).Some? ==> P.Enabled(p, Submission(r, hs).value)
    ensures NextPool(p, Submission(r, hs)).finished == p.finished
  {
  }

  lemma OtherDone(cfg: Config, w: World, st: Step)
    requires Enabled(cfg, w, st) && (st.Cleanup? || st.PoolStep?) && DoneFits(w)
    ensures DoneFits(Apply(cfg, w, st))
  {
    if st.PoolStep? {
      NothingSeen(w.pool, st.st);
    }
  }

  lemma {:induction false} AlwaysDoneFits(cfg: Config, steps: seq<Step>)
    requires ValidRun(cfg, steps)
    ensures DoneFits(Run(cfg, steps))
  {
    if steps != [] {
      var w := Run(cfg, Init(steps));
      AlwaysDoneFits(cfg, Init(steps));
      match Last(steps) {
        case Handle(r, hs) => HandlerDone(cfg, w, r, hs);
        case Work(v, ws) =>
          AlwaysRunsStarted(cfg, Init(steps));
          WorkerDone(cfg, w, v, ws);
        case _ => OtherDone(cfg, w, Last(steps));
      }
    }
  }

  /** When the Shutdown call that set the flag has returned nil, every job whose submission was
      accepted has been completed or failed, whatever panicked. */
  lemma ShutdownEndsJobs(cfg: Config, steps: seq<Step>, r: nat)
    requires ValidRun(cfg, steps)
    requires Run(cfg, steps).pool.outcome.Nil? && r in Run(cfg, steps).pool.accepted
    ensures var l := Run(cfg, steps).ledger; r in l.store.finished && r in l.jobs && Terminal(l.jobs[r].status)
  {
    var w := Run(cfg, steps);
    AlwaysFits(cfg, steps);
    AlwaysDoneFits(cfg, steps);
    P.NilMeansDrained(w.pool);
    P.TakenOnce(w.pool, r);
    assert r in w.ledger.store.started;
    assert L.StatusFits(w.ledger, r);
  }
}
