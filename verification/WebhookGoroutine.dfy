/** The webhook handler that runs each action in a goroutine of its own, with the job store,
    as one transition system for any number of requests. There is no queue and no limit on
    the goroutines: that actions run one at a time rests on the job store alone. */
module WebhookGoroutine {
  import opened Common
  import opened Jobs
  import L = Ledger
  import S = JobStore

  /** Whether logging after CompleteCurrentJob may panic. */
  datatype Config = Config(maxHistory: nat, logPanics: bool)

  /** Where HandleWebhook stands for a request. */
  datatype Handler =
    | Peeked(current: Option<nat>)
    | Checked
    | Created
    | Started
    | Answered

  /** Where processActionWithStatus stands in the goroutine of a request. */
  datatype Phase = Acting | Acted | Panicked | Logging | Ended

  datatype World = World(ledger: L.Ledger, handlers: map<nat, Handler>, phases: map<nat, Phase>, calls: seq<L.Call>)

  datatype HandlerStep =
    | Peek
    | Decide
    | NoId
    | Create(id: string, action: string, now: int)
    | TryStart
    | Spawn

  datatype GoStep =
    | ActionReturns
    | ActionPanics
    | Complete(now: int)
    | LogReturns
    | LogPanics
    | FailPanicked(now: int)

  datatype Step = Handle(r: nat, hs: HandlerStep) | Go(r: nat, gs: GoStep) | Cleanup(cutoff: int)

  function NewWorld(cfg: Config): World {
    World(L.Start(cfg.maxHistory), map[], map[], [])
  }

  // ---- steps of a request ----

  predicate HandlerReady(w: World, r: nat, hs: HandlerStep) {
    if r !in w.handlers then hs.Peek?
    else match w.handlers[r]
      case Peeked(_) => hs.Decide?
      case Checked => hs.NoId? || (hs.Create? && L.IdUnused(w.ledger, hs.id))
      case Created => hs.TryStart? && r in w.ledger.jobs && r in w.ledger.traces
      case Started => hs.Spawn?
      case Answered => false
  }

  function NextHandler(w: World, r: nat, hs: HandlerStep): Handler
    requires HandlerReady(w, r, hs)
  {
    match hs
    case Peek => Peeked(w.ledger.store.current)
    case Decide => if L.StillRunning(w.ledger, w.handlers[r].current) then Answered else Checked
    case NoId => Answered
    case Create(_, _, _) => Created
    case TryStart => if L.Busy(w.ledger) then Answered else Started
    case Spawn => Answered
  }

  function HandlerLedger(w: World, r: nat, hs: HandlerStep): L.Ledger
    requires HandlerReady(w, r, hs)
  {
    match hs
    case Create(id, action, now) => L.Create(w.ledger, r, id, action, now)
    case TryStart => L.TryStart(w.ledger, r)
    case _ => w.ledger
  }

  // ---- steps of a goroutine ----

  predicate GoReady(cfg: Config, w: World, r: nat, gs: GoStep) {
    r in w.phases && match w.phases[r]
      case Acting => gs.ActionReturns? || gs.ActionPanics?
      case Acted => gs.Complete? && L.CurrentKnown(w.ledger)
      case Logging => gs.LogReturns? || (gs.LogPanics? && cfg.logPanics)
      case Panicked => gs.FailPanicked? && L.CurrentKnown(w.ledger)
      case Ended => false
  }

  function NextPhase(gs: GoStep): Phase {
    match gs
    case ActionReturns => Acted
    case ActionPanics => Panicked
    case Complete(_) => Logging
    case LogReturns => Ended
    case LogPanics => Panicked
    case FailPanicked(_) => Ended
  }

  predicate Ends(gs: GoStep) {
    gs.Complete? || gs.FailPanicked?
  }

  function GoLedger(w: World, gs: GoStep): L.Ledger
    requires Ends(gs) ==> L.CurrentKnown(w.ledger)
  {
    match gs
    case Complete(now) => L.Complete(w.ledger, now)
    case FailPanicked(now) => L.Fail(w.ledger, "panic during job execution", now)
    case _ => w.ledger
  }

  // ---- the system ----

  predicate Enabled(cfg: Config, w: World, st: Step) {
    match st
    case Handle(r, hs) => HandlerReady(w, r, hs)
    case Go(r, gs) => GoReady(cfg, w, r, gs)
    case Cleanup(_) => true
  }

  function Apply(cfg: Config, w: World, st: Step): World
    requires Enabled(cfg, w, st)
  {
    match st
    case Handle(r, hs) =>
      World(HandlerLedger(w, r, hs), w.handlers[r := NextHandler(w, r, hs)],
            if hs.Spawn? then w.phases[r := Acting] else w.phases, w.calls)
    case Go(r, gs) =>
      World(GoLedger(w, gs), w.handlers, w.phases[r := NextPhase(gs)],
            if Ends(gs) then w.calls + [L.Call(r, w.ledger.store.current)] else w.calls)
    case Cleanup(cutoff) => w.(ledger := L.Cleanup(w.ledger, cutoff))
  }

  ghost predicate ValidRun(cfg: Config, steps: seq<Step>)
    decreases |steps|, 0
  {
    steps != [] ==> ValidRun(cfg, Init(steps)) && Enabled(cfg, Run(cfg, Init(steps)), Last(steps))
  }

  ghost function Run(cfg: Config, steps: seq<Step>): World
    requires ValidRun(cfg, steps)
    decreases |steps|, 1
  {
    if steps == [] then NewWorld(cfg) else Apply(cfg, Run(cfg, Init(steps)), Last(steps))
  }

  // ---- the parts fit together ----

  /** A request has a job once it has made one, starts it once and spawns one goroutine for it. */
  ghost predicate RequestsFit(handlers: map<nat, Handler>, jobs: set<nat>, started: seq<nat>, spawned: set<nat>) {
    && (forall r :: r in jobs ==> r in handlers && !handlers[r].Peeked? && !handlers[r].Checked?)
    && (forall r :: r in handlers && handlers[r].Created? ==> r in jobs && r !in started)
    && (forall r :: r in spawned ==> r in handlers && handlers[r].Answered?)
  }

  ghost predicate Fits(w: World) {
    L.Valid(w.ledger) && RequestsFit(w.handlers, w.ledger.jobs.Keys, w.ledger.store.started, w.phases.Keys)
  }

  lemma OneMoves(handlers: map<nat, Handler>, jobs: set<nat>, started: seq<nat>, spawned: set<nat>, r: nat, h: Handler,
                 jobs': set<nat>, started': seq<nat>, spawned': set<nat>)
    requires RequestsFit(handlers, jobs, started, spawned)
    requires jobs' == jobs || jobs' == jobs + {r}
    requires started' == started || started' == started + [r]
    requires spawned' == spawned || spawned' == spawned + {r}
    requires r in jobs' ==> !h.Peeked? && !h.Checked?
    requires h.Created? ==> r in jobs' && r !in started'
    requires r in spawned' ==> h.Answered?
    ensures RequestsFit(handlers[r := h], jobs', started', spawned')
  {
  }

  lemma HandlerParts(w: World, r: nat, hs: HandlerStep)
    requires HandlerReady(w, r, hs)
    ensures var l' := HandlerLedger(w, r, hs);
            && l'.jobs.Keys == (if hs.Create? then w.ledger.jobs.Keys + {r} else w.ledger.jobs.Keys)
            && (l'.store.started == w.ledger.store.started
                || (hs.TryStart? && l'.store.started == w.ledger.store.started + [r]))
  {
    if hs.TryStart? {
      SameKeys(w.ledger.jobs, r, w.ledger.jobs[r].SetRunning());
    }
  }

  lemma HandlerLedgerValid(w: World, r: nat, hs: HandlerStep)
    requires Fits(w) && HandlerReady(w, r, hs)
    ensures L.Valid(HandlerLedger(w, r, hs))
  {
    match hs
    case Create(id, action, now) => L.CreateValid(w.ledger, r, id, action, now);
    case TryStart => L.TryStartValid(w.ledger, r);
    case _ =>
  }

  lemma HandleRequests(cfg: Config, w: World, r: nat, hs: HandlerStep)
    requires Fits(w) && HandlerReady(w, r, hs)
    ensures var w' := Apply(cfg, w, Handle(r, hs));
            RequestsFit(w'.handlers, w'.ledger.jobs.Keys, w'.ledger.store.started, w'.phases.Keys)
  {
    var w' := Apply(cfg, w, Handle(r, hs));
    HandlerParts(w, r, hs);
    assert hs.Create? ==> r !in w.ledger.store.started;
    OneMoves(w.handlers, w.ledger.jobs.Keys, w.ledger.store.started, w.phases.Keys, r, NextHandler(w, r, hs),
             w'.ledger.jobs.Keys, w'.ledger.store.started, w'.phases.Keys);
  }

  lemma CompleteKeepsValid(w: World, now: int)
    requires L.Valid(w.ledger) && L.CurrentKnown(w.ledger)
    ensures L.Valid(GoLedger(w, Complete(now)))
  {
    L.CompleteValid(w.ledger, now);
  }

  lemma PanicKeepsValid(w: World, now: int)
    requires L.Valid(w.ledger) && L.CurrentKnown(w.ledger)
    ensures L.Valid(GoLedger(w, FailPanicked(now)))
  {
    assert GoLedger(w, FailPanicked(now)) == L.Fail(w.ledger, "panic during job execution", now);
    L.FailValid(w.ledger, "panic during job execution", now);
  }

  lemma GoLedgerValid(w: World, gs: GoStep)
    requires L.Valid(w.ledger) && (Ends(gs) ==> L.CurrentKnown(w.ledger))
    ensures L.Valid(GoLedger(w, gs))
  {
    match gs
    case Complete(now) => CompleteKeepsValid(w, now);
    case FailPanicked(now) => PanicKeepsValid(w, now);
    case _ => assert GoLedger(w, gs) == w.ledger;
  }

  lemma GoLedgerParts(w: World, gs: GoStep)
    requires Ends(gs) ==> L.CurrentKnown(w.ledger)
    ensures GoLedger(w, gs).jobs.Keys == w.ledger.jobs.Keys
    ensures GoLedger(w, gs).store.started == w.ledger.store.started
  {
    match gs
    case Complete(now) => L.EndingParts(w.ledger, "", now);
    case FailPanicked(now) => L.EndingParts(w.ledger, "panic during job execution", now);
    case _ =>
  }

  lemma GoFits(cfg: Config, w: World, r: nat, gs: GoStep)
    requires Fits(w) && GoReady(cfg, w, r, gs)
    ensures Fits(Apply(cfg, w, Go(r, gs)))
  {
    GoLedgerValid(w, gs);
    GoLedgerParts(w, gs);
    SameKeys(w.phases, r, NextPhase(gs));
  }

  lemma FitsStep(cfg: Config, w: World, st: Step)
    requires Fits(w) && Enabled(cfg, w, st)
    ensures Fits(Apply(cfg, w, st))
  {
    match st
    case Handle(r, hs) =>
      HandlerLedgerValid(w, r, hs);
      HandleRequests(cfg, w, r, hs);
    case Go(r, gs) => GoFits(cfg, w, r, gs);
    case Cleanup(cutoff) => L.CleanupValid(w.ledger, cutoff);
  }

  lemma {:induction false} AlwaysFits(cfg: Config, steps: seq<Step>)
    requires ValidRun(cfg, steps)
    ensures Fits(Run(cfg, steps))
  {
    if steps == [] {
      L.StartValid(cfg.maxHistory);
    } else {
      AlwaysFits(cfg, Init(steps));
      FitsStep(cfg, Run(cfg, Init(steps)), Last(steps));
    }
  }

  lemma AlwaysOrderly(cfg: Config, steps: seq<Step>)
    requires ValidRun(cfg, steps)
    ensures L.Orderly(Run(cfg, steps).ledger)
  {
    AlwaysFits(cfg, steps);
    L.CurrentIsKnown(Run(cfg, steps).ledger);
  }

  // ---- mutual exclusion ----

  predicate Working(ph: Phase) {
    ph.Acting? || ph.Acted? || ph.Panicked?
  }

  /** A request holds its job from its successful TryStartJob until it spawns the goroutine,
      and the goroutine until the job is completed or failed. */
  predicate Holds(w: World, r: nat) {
    (r in w.handlers && w.handlers[r].Started?) || (r in w.phases && Working(w.phases[r]))
  }

  /** The current job is held, and no other job is. */
  ghost predicate OneHolder(w: World) {
    forall r: nat :: Holds(w, r) <==> w.ledger.store.current == Some(r)
  }

  lemma HandlerKeepsHolder(cfg: Config, w: World, r: nat, hs: HandlerStep)
    requires L.Orderly(w.ledger) && OneHolder(w) && HandlerReady(w, r, hs) && (r in w.phases ==> !hs.TryStart?)
    ensures OneHolder(Apply(cfg, w, Handle(r, hs)))
  {
    var w' := Apply(cfg, w, Handle(r, hs));
    assert forall x :: x != r ==> (Holds(w', x) <==> Holds(w, x));
    assert Holds(w, r) <==> w.ledger.store.current == Some(r);
  }

  lemma GoKeepsHolder(cfg: Config, w: World, r: nat, gs: GoStep)
    requires L.Orderly(w.ledger) && OneHolder(w) && GoReady(cfg, w, r, gs) && !gs.LogPanics?
    requires r in w.handlers && w.handlers[r].Answered?
    ensures OneHolder(Apply(cfg, w, Go(r, gs)))
    ensures Ends(gs) ==> w.ledger.store.current == Some(r)
  {
    var w' := Apply(cfg, w, Go(r, gs));
    assert forall x :: x != r ==> (Holds(w', x) <==> Holds(w, x));
    assert Holds(w, r) <==> w.ledger.store.current == Some(r);
  }

  ghost predicate SpawnedAnswered(w: World) {
    forall r :: r in w.phases ==> r in w.handlers && w.handlers[r].Answered?
  }

  lemma HolderStep(cfg: Config, w: World, st: Step)
    requires !cfg.logPanics && L.Orderly(w.ledger) && SpawnedAnswered(w) && Enabled(cfg, w, st)
    requires OneHolder(w) && L.RightCalls(w.calls)
    ensures OneHolder(Apply(cfg, w, st)) && L.RightCalls(Apply(cfg, w, st).calls)
  {
    match st
    case Handle(r, hs) => HandlerKeepsHolder(cfg, w, r, hs);
    case Go(r, gs) => GoKeepsHolder(cfg, w, r, gs);
    case Cleanup(cutoff) => assert forall r :: Holds(Apply(cfg, w, st), r) <==> Holds(w, r);
  }

  lemma AlwaysSpawnedAnswered(cfg: Config, steps: seq<Step>)
    requires ValidRun(cfg, steps)
    ensures SpawnedAnswered(Run(cfg, steps))
  {
    AlwaysFits(cfg, steps);
  }

  lemma {:induction false} AlwaysOneHolder(cfg: Config, steps: seq<Step>)
    requires !cfg.logPanics && ValidRun(cfg, steps)
    ensures OneHolder(Run(cfg, steps)) && L.RightCalls(Run(cfg, steps).calls)
  {
    if steps != [] {
      AlwaysOneHolder(cfg, Init(steps));
      AlwaysOrderly(cfg, Init(steps));
      AlwaysSpawnedAnswered(cfg, Init(steps));
      HolderStep(cfg, Run(cfg, Init(steps)), Last(steps));
    }
  }

  lemma OneActing(w: World, u: nat, v: nat)
    requires OneHolder(w) && u in w.phases && v in w.phases && w.phases[u].Acting? && w.phases[v].Acting?
    ensures u == v
  {
    assert Holds(w, u) && Holds(w, v);
  }

  /** On every run the current job, and no other, is held by its request or its goroutine, so
      at most one goroutine is inside ProcessAction. */
  lemma MutualExclusion(cfg: Config, steps: seq<Step>)
    requires !cfg.logPanics && ValidRun(cfg, steps)
    ensures OneHolder(Run(cfg, steps))
    ensures var phases := Run(cfg, steps).phases;
            forall u, v :: u in phases && v in phases && phases[u].Acting? && phases[v].Acting? ==> u == v
  {
    AlwaysOneHolder(cfg, steps);
    var w := Run(cfg, steps);
    forall u, v | u in w.phases && v in w.phases && w.phases[u].Acting? && w.phases[v].Acting?
      ensures u == v
    {
      OneActing(w, u, v);
    }
  }

  // ---- what a panic while logging breaks ----

  ghost predicate AlwaysRight(cfg: Config) {
    forall steps :: ValidRun(cfg, steps) ==> L.RightCalls(Run(cfg, steps).calls)
  }

  ghost predicate OneActs(phases: map<nat, Phase>) {
    forall u, v :: u in phases && v in phases && phases[u].Acting? && phases[v].Acting? ==> u == v
  }

  /** At most one goroutine is inside ProcessAction. */
  ghost predicate AlwaysExclusive(cfg: Config) {
    forall steps :: ValidRun(cfg, steps) ==> OneActs(Run(cfg, steps).phases)
  }

  /** Some run ends in `w`. */
  ghost predicate Reachable(cfg: Config, w: World) {
    exists steps :: ValidRun(cfg, steps) && Run(cfg, steps) == w
  }

  lemma Reach(cfg: Config, w: World, st: Step) returns (w': World)
    requires Reachable(cfg, w) && Enabled(cfg, w, st)
    ensures w' == Apply(cfg, w, st) && Reachable(cfg, w')
  {
    var steps :| ValidRun(cfg, steps) && Run(cfg, steps) == w;
    assert Init(steps + [st]) == steps;
    w' := Apply(cfg, w, st);
    assert ValidRun(cfg, steps + [st]) && Run(cfg, steps + [st]) == w';
  }

  lemma ReachableOrderly(cfg: Config, w: World)
    requires Reachable(cfg, w)
    ensures L.Orderly(w.ledger)
  {
    var steps :| ValidRun(cfg, steps) && Run(cfg, steps) == w;
    AlwaysOrderly(cfg, steps);
  }

  lemma PassCheck(cfg: Config, w: World, r: nat) returns (w': World)
    requires Reachable(cfg, w) && r !in w.handlers && w.ledger.store.current.None?
    ensures Reachable(cfg, w') && w' == w.(handlers := w.handlers[r := Checked])
  {
    var w1 := Reach(cfg, w, Handle(r, Peek));
    w' := Reach(cfg, w1, Handle(r, Decide));
    Overwrites(w.handlers, r, Peeked(None), Checked);
  }

  lemma MakeJob(cfg: Config, w: World, r: nat, id: string) returns (w': World)
    requires Reachable(cfg, w)
    requires r !in w.handlers && w.ledger.store.current.None? && L.IdUnused(w.ledger, id)
    ensures Reachable(cfg, w')
    ensures w' == w.(ledger := L.Create(w.ledger, r, id, "update", 0), handlers := w.handlers[r := Created])
  {
    var w1 := PassCheck(cfg, w, r);
    w' := Reach(cfg, w1, Handle(r, Create(id, "update", 0)));
    Overwrites(w.handlers, r, Checked, Created);
  }

  lemma StartMade(cfg: Config, w: World, r: nat) returns (w': World)
    requires Reachable(cfg, w) && w.ledger.store.current.None?
    requires r in w.handlers && w.handlers[r].Created? && r in w.ledger.jobs && r in w.ledger.traces
    ensures Reachable(cfg, w')
    ensures w' == w.(ledger := L.TryStart(w.ledger, r), handlers := w.handlers[r := Started])
  {
    w' := Reach(cfg, w, Handle(r, TryStart));
  }

  /** A reachable world: what the goroutines do, which requests there have been, and what is
      current. */
  ghost predicate Scene(cfg: Config, w: World, phases: map<nat, Phase>, used: set<nat>, current: Option<nat>) {
    && Reachable(cfg, w) && w.phases == phases && w.handlers.Keys == used && L.Numbered(w.ledger, used)
    && w.ledger.store.current == current
  }

  lemma Opening(cfg: Config) returns (w: World)
    ensures Scene(cfg, w, map[], {}, None)
  {
    w := NewWorld(cfg);
    assert ValidRun(cfg, []) && Run(cfg, []) == w;
  }

  /** A new request starts its job ... */
  lemma Starts(cfg: Config, w: World, phases: map<nat, Phase>, used: set<nat>, r: nat) returns (w': World)
    requires Scene(cfg, w, phases, used, None) && r !in used
    ensures Scene(cfg, w', phases, used + {r}, Some(r)) && w'.handlers[r].Started?
  {
    L.StartNumbered(w.ledger, used, r);
    w' := MakeJob(cfg, w, r, L.IdOf(r));
    w' := StartMade(cfg, w', r);
    Overwrites(w.handlers, r, Created, Started);
  }

  /** ... and spawns its goroutine, which begins the action. */
  lemma Spawns(cfg: Config, w: World, phases: map<nat, Phase>, used: set<nat>, r: nat) returns (w': World)
    requires Scene(cfg, w, phases, used, None) && r !in used
    ensures Scene(cfg, w', phases[r := Acting], used + {r}, Some(r))
  {
    w' := Starts(cfg, w, phases, used, r);
    w' := Reach(cfg, w', Handle(r, Spawn));
  }

  lemma Completes(cfg: Config, w: World, phases: map<nat, Phase>, used: set<nat>, current: Option<nat>, r: nat)
      returns (w': World)
    requires Scene(cfg, w, phases, used, current) && r in phases && phases[r].Acting?
    ensures Scene(cfg, w', phases[r := Logging], used, None)
  {
    ReachableOrderly(cfg, w);
    L.EndNumbered(w.ledger, used, "panic during job execution");
    var w1 := Reach(cfg, w, Go(r, ActionReturns));
    w' := Reach(cfg, w1, Go(r, Complete(0)));
    Overwrites(phases, r, Acted, Logging);
  }

  /** Logging panics, and the recovery fails whatever job is current. */
  lemma Panics(cfg: Config, w: World, phases: map<nat, Phase>, used: set<nat>, current: Option<nat>, r: nat)
      returns (w': World)
    requires Scene(cfg, w, phases, used, current) && r in phases && phases[r].Logging? && cfg.logPanics
    ensures Scene(cfg, w', phases[r := Ended], used, None) && w'.calls == w.calls + [L.Call(r, current)]
  {
    ReachableOrderly(cfg, w);
    L.EndNumbered(w.ledger, used, "panic during job execution");
    var w1 := Reach(cfg, w, Go(r, LogPanics));
    w' := Reach(cfg, w1, Go(r, FailPanicked(0)));
    Overwrites(phases, r, Panicked, Ended);
  }

  /** The first job has been completed and its goroutine is about to log; the second one acts. */
  lemma SecondActs(cfg: Config) returns (w: World)
    ensures Scene(cfg, w, map[1 := Logging, 2 := Acting], {1, 2}, Some(2))
  {
    w := Opening(cfg);
    w := Spawns(cfg, w, map[], {}, 1);
    assert map[][1 := Acting] == map[1 := Acting] && {} + {1} == {1};
    w := Completes(cfg, w, map[1 := Acting], {1}, Some(1), 1);
    assert map[1 := Acting][1 := Logging] == map[1 := Logging];
    w := Spawns(cfg, w, map[1 := Logging], {1}, 2);
    assert map[1 := Logging][2 := Acting] == map[1 := Logging, 2 := Acting] && {1} + {2} == {1, 2};
  }

  lemma LogPanicsWrong(cfg: Config)
    requires cfg.logPanics
    ensures !AlwaysRight(cfg)
  {
    var w := SecondActs(cfg);
    var calls := w.calls;
    w := Panics(cfg, w, map[1 := Logging, 2 := Acting], {1, 2}, Some(2), 1);
    assert w.calls[|calls|] == L.Call(1, Some(2));
    var steps :| ValidRun(cfg, steps) && Run(cfg, steps) == w;
  }

  lemma LogPanicsOverlap(cfg: Config)
    requires cfg.logPanics
    ensures !AlwaysExclusive(cfg)
  {
    var w := SecondActs(cfg);
    var phases := map[1 := Logging, 2 := Acting];
    w := Panics(cfg, w, phases, {1, 2}, Some(2), 1);
    w := Spawns(cfg, w, phases[1 := Ended], {1, 2}, 3);
    assert w.phases[2].Acting? && w.phases[3].Acting?;
    var steps :| ValidRun(cfg, steps) && Run(cfg, steps) == w;
  }

  /** The current job, and no other, is held. */
  ghost predicate AlwaysTicketed(cfg: Config) {
    forall steps :: ValidRun(cfg, steps) ==> OneHolder(Run(cfg, steps))
  }

  lemma LogPanicsUnticket(cfg: Config)
    requires cfg.logPanics
    ensures !AlwaysTicketed(cfg)
  {
    var w := SecondActs(cfg);
    w := Panics(cfg, w, map[1 := Logging, 2 := Acting], {1, 2}, Some(2), 1);
    assert Holds(w, 2) && w.ledger.store.current.None?;
    var steps :| ValidRun(cfg, steps) && Run(cfg, steps) == w;
  }

  /** The current job, and no other, is held on every run, exactly if logging after the completion
      cannot panic. */
  lemma TicketedIff(cfg: Config)
    ensures AlwaysTicketed(cfg) <==> !cfg.logPanics
  {
    if cfg.logPanics {
      LogPanicsUnticket(cfg);
    } else {
      forall steps | ValidRun(cfg, steps)
        ensures OneHolder(Run(cfg, steps))
      {
        MutualExclusion(cfg, steps);
      }
    }
  }

  /** At most one goroutine is inside ProcessAction on every run, exactly if logging after the
      completion cannot panic. */
  lemma ExclusiveIff(cfg: Config)
    ensures AlwaysExclusive(cfg) <==> !cfg.logPanics
  {
    if cfg.logPanics {
      LogPanicsOverlap(cfg);
    } else {
      forall steps | ValidRun(cfg, steps)
        ensures OneActs(Run(cfg, steps).phases)
      {
        MutualExclusion(cfg, steps);
      }
    }
  }

  /** On every run CompleteCurrentJob and FailCurrentJob end the caller's own job exactly when
      logging after the completion cannot panic. */
  lemma RightJobIff(cfg: Config)
    ensures AlwaysRight(cfg) <==> !cfg.logPanics
  {
    if cfg.logPanics {
      LogPanicsWrong(cfg);
    } else {
      forall steps | ValidRun(cfg, steps)
        ensures L.RightCalls(Run(cfg, steps).calls)
      {
        AlwaysOneHolder(cfg, steps);
      }
    }
  }

  /** What a call of CompleteCurrentJob or FailCurrentJob changes on any run: the job of the
      goroutine ends, completed after the action has returned and failed otherwise, and no
      other job is touched. */
  lemma GoEndsOwnJob(cfg: Config, steps: seq<Step>, r: nat, gs: GoStep)
    requires !cfg.logPanics && ValidRun(cfg, steps)
    requires Enabled(cfg, Run(cfg, steps), Go(r, gs)) && Ends(gs)
    ensures var w := Run(cfg, steps);
            L.EndsJob(w.ledger, Apply(cfg, w, Go(r, gs)).ledger, r,
                      if gs.Complete? then Completed else Status.Failed,
                      if gs.Complete? then None else Some("panic during job execution"), gs.now)
  {
    var w := Run(cfg, steps);
    AlwaysOrderly(cfg, steps);
    AlwaysSpawnedAnswered(cfg, steps);
    AlwaysOneHolder(cfg, steps);
    GoKeepsHolder(cfg, w, r, gs);
    L.EndsCurrent(w.ledger, r, "panic during job execution", gs.now);
  }

  // ---- jobs on every run ----

  /** On every run, whatever panics: each job goes through pending, running, and completed or
      failed in this order; its end time is set exactly when it has ended; jobs in the history
      have ended, and the current job is running whenever the store's lock is free. */
  lemma StatusOnRuns(cfg: Config, steps: seq<Step>)
    requires ValidRun(cfg, steps)
    ensures L.StatusesProper(Run(cfg, steps).ledger)
  {
    AlwaysFits(cfg, steps);
    L.StatusTraces(Run(cfg, steps).ledger);
  }

  // ---- the current job is held ----

  /** The current job is with its request or its goroutine. */
  ghost predicate CurrentHeld(w: World) {
    w.ledger.store.current.Some? ==> Holds(w, w.ledger.store.current.value)
  }

  lemma HandlerKeepsHeld(cfg: Config, w: World, r: nat, hs: HandlerStep)
    requires L.Orderly(w.ledger) && CurrentHeld(w) && HandlerReady(w, r, hs) && SpawnedAnswered(w)
    ensures CurrentHeld(Apply(cfg, w, Handle(r, hs)))
  {
  }

  lemma GoKeepsHeld(cfg: Config, w: World, r: nat, gs: GoStep)
    requires L.Orderly(w.ledger) && CurrentHeld(w) && GoReady(cfg, w, r, gs)
    ensures CurrentHeld(Apply(cfg, w, Go(r, gs)))
  {
  }

  /** On every run, whatever panics, the current job is with its request or its goroutine. */
  lemma {:induction false} AlwaysHeld(cfg: Config, steps: seq<Step>)
    requires ValidRun(cfg, steps)
    ensures CurrentHeld(Run(cfg, steps))
  {
    if steps != [] {
      var w := Run(cfg, Init(steps));
      AlwaysHeld(cfg, Init(steps));
      AlwaysOrderly(cfg, Init(steps));
      AlwaysSpawnedAnswered(cfg, Init(steps));
      match Last(steps) {
        case Handle(r, hs) => HandlerKeepsHeld(cfg, w, r, hs);
        case Go(r, gs) => GoKeepsHeld(cfg, w, r, gs);
        case Cleanup(_) =>
      }
    }
  }

  // ---- no job is stuck ----

  /** Steps until the current job is ended. */
  function Ahead(w: World, r: nat): nat {
    if r in w.phases && Working(w.phases[r]) then if w.phases[r].Acting? then 2 else 1 else 3
  }

  function NextStep(w: World, r: nat): Step {
    if r in w.phases && Working(w.phases[r]) then
      Go(r, if w.phases[r].Acting? then ActionReturns else if w.phases[r].Acted? then Complete(0) else FailPanicked(0))
    else Handle(r, Spawn)
  }

  lemma Advances(cfg: Config, w: World, r: nat)
    requires L.CurrentKnown(w.ledger) && w.ledger.store.current == Some(r) && Holds(w, r)
    ensures Enabled(cfg, w, NextStep(w, r))
    ensures var w' := Apply(cfg, w, NextStep(w, r));
            if Ahead(w, r) == 1 then r in w'.ledger.store.finished
            else w'.ledger.store.current == Some(r) && Ahead(w', r) < Ahead(w, r)
  {
  }

  lemma Extend(cfg: Config, steps: seq<Step>, st: Step)
    requires ValidRun(cfg, steps) && Enabled(cfg, Run(cfg, steps), st)
    ensures ValidRun(cfg, steps + [st]) && Run(cfg, steps + [st]) == Apply(cfg, Run(cfg, steps), st)
  {
    assert Init(steps + [st]) == steps;
  }

  lemma AfterStep(cfg: Config, steps: seq<Step>, st: Step, rest: seq<Step>, r: nat)
    requires ValidRun(cfg, steps + [st] + rest) && r in Run(cfg, steps + [st] + rest).ledger.store.finished
    ensures ValidRun(cfg, steps + ([st] + rest)) && r in Run(cfg, steps + ([st] + rest)).ledger.store.finished
  {
    assert steps + [st] + rest == steps + ([st] + rest);
  }

  lemma AdvancesOnRun(cfg: Config, steps: seq<Step>, r: nat)
    requires ValidRun(cfg, steps) && Run(cfg, steps).ledger.store.current == Some(r)
    ensures var w := Run(cfg, steps);
            && Enabled(cfg, w, NextStep(w, r))
            && var w' := Apply(cfg, w, NextStep(w, r));
            if Ahead(w, r) == 1 then r in w'.ledger.store.finished
            else w'.ledger.store.current == Some(r) && Ahead(w', r) < Ahead(w, r)
  {
    AlwaysHeld(cfg, steps);
    AlwaysOrderly(cfg, steps);
    Advances(cfg, Run(cfg, steps), r);
  }

  /** Whatever has happened and panicked, the current job can still be completed or failed, by three more
      steps of its request and its goroutine at most. */
  lemma {:induction false} CurrentCanEnd(cfg: Config, steps: seq<Step>, r: nat) returns (more: seq<Step>)
    requires ValidRun(cfg, steps) && Run(cfg, steps).ledger.store.current == Some(r)
    ensures ValidRun(cfg, steps + more) && r in Run(cfg, steps + more).ledger.store.finished
    ensures |more| <= Ahead(Run(cfg, steps), r) <= 3
    decreases Ahead(Run(cfg, steps), r)
  {
    var w := Run(cfg, steps);
    var st := NextStep(w, r);
    AdvancesOnRun(cfg, steps, r);
    Extend(cfg, steps, st);
    if Ahead(w, r) == 1 {
      more := [st];
    } else {
      more := CurrentCanEnd(cfg, steps + [st], r);
      AfterStep(cfg, steps, st, more, r);
      more := [st] + more;
    }
  }

  lemma NoneCurrentIffNoneHolds(w: World)
    requires OneHolder(w)
    ensures w.ledger.store.current.None? <==> forall r: nat :: !Holds(w, r)
  {
    if w.ledger.store.current.Some? {
      assert Holds(w, w.ledger.store.current.value);
    }
  }

  /** When no request is about to spawn and no goroutine is working, every started job has been
      completed or failed, whatever panicked. */
  lemma QuietMeansFinished(cfg: Config, steps: seq<Step>)
    requires ValidRun(cfg, steps) && forall r: nat :: !Holds(Run(cfg, steps), r)
    ensures Run(cfg, steps).ledger.store.started == Run(cfg, steps).ledger.store.finished
  {
    var w := Run(cfg, steps);
    AlwaysHeld(cfg, steps);
    assert S.OneAtATime(w.ledger.store) by {
      AlwaysFits(cfg, steps);
    }
  }

  /** Every started job has been completed or failed, and the store takes a new one, exactly
      when no request is about to spawn and no goroutine is working. */
  lemma QuietIffFinished(cfg: Config, steps: seq<Step>)
    requires !cfg.logPanics && ValidRun(cfg, steps)
    ensures var w := Run(cfg, steps);
            && ((forall r: nat :: !Holds(w, r)) <==> w.ledger.store.started == w.ledger.store.finished)
            && ((forall r: nat :: !Holds(w, r)) <==> !L.Busy(w.ledger))
  {
    var w := Run(cfg, steps);
    AlwaysOneHolder(cfg, steps);
    NoneCurrentIffNoneHolds(w);
    AlwaysOrderly(cfg, steps);
    assert S.OneAtATime(w.ledger.store) by {
      AlwaysFits(cfg, steps);
    }
    L.NoneCurrentIffAllFinished(w.ledger);
  }

  /** On every run, whatever panics, the store accounts for every job, and the lookups find what
      it holds. */
  lemma StoreOnRuns(cfg: Config, steps: seq<Step>, id: string)
    requires ValidRun(cfg, steps)
    ensures L.StoreProper(Run(cfg, steps).ledger, id)
  {
    AlwaysFits(cfg, steps);
    L.StoreIsProper(Run(cfg, steps).ledger, id);
  }

  /** On every run, whatever panics, a started job is found by its ID until the history drops it. */
  lemma StartedIsFound(cfg: Config, steps: seq<Step>, r: nat)
    requires ValidRun(cfg, steps) && r in Run(cfg, steps).ledger.store.started
    ensures L.Findable(Run(cfg, steps).ledger, r)
  {
    AlwaysFits(cfg, steps);
    L.StartedFound(Run(cfg, steps).ledger, r);
  }
}
