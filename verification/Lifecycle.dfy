/**
 The worker's and the bootstrap's lifecycles (outbox-publisher-worker.ts, payment-service-bootstrap.ts), composed.

 Each event of the process (a call, a timer, a settled promise) is one step; a suspended `start` or `stop` is
 the point where it waits. Closing the broker link never rejects (every close in `closeResources` is caught).
 */
module Lifecycle {
  import opened Options

  datatype WorkerState = Idle | Running | Stopping | Stopped

  datatype Worker = Worker(
    state: WorkerState,
    timer: bool,
    inFlight: Option<nat>,
    stopRequested: bool,      // stopPromise is set
    awaited: Option<nat>,     // the iteration stopPromise waits for
    begun: nat,               // bookkeeping: iterations begun so far
    active: set<nat>)         // bookkeeping: iterations begun and not ended

  const NEW_WORKER := Worker(Idle, false, None, false, None, 0, {})

  function ScheduleNext(w: Worker): Worker {
    if w.state != Running then w else w.(timer := true)
  }

  /** None is the error of a start after stop. */
  function WorkerStart(w: Worker): Option<Worker> {
    if w.state == Running then Some(w)
    else if w.state != Idle then None
    else Some(ScheduleNext(w.(state := Running, stopRequested := false)))
  }

  function WorkerStop(w: Worker): Worker {
    if w.stopRequested then w
    else w.(state := Stopping, timer := false, stopRequested := true, awaited := w.inFlight)
  }

  function TimerFired(w: Worker): Worker {
    w.(timer := false, inFlight := Some(w.begun), begun := w.begun + 1, active := w.active + {w.begun})
  }

  function IterationEnded(w: Worker, i: nat): Worker {
    ScheduleNext(w.(active := w.active - {i}, inFlight := if w.inFlight == Some(i) then None else w.inFlight))
  }

  predicate StopCanSettle(w: Worker) {
    w.stopRequested && (w.awaited.Some? ==> w.awaited.value !in w.active)
  }

  class OutboxPublisherWorker {
    var lifecycleState: WorkerState
    var timer: bool
    var inFlight: Option<nat>
    var stopRequested: bool
    var awaited: Option<nat>
    var begun: nat
    var active: set<nat>

    ghost function State(): Worker
      reads this
    {
      Worker(lifecycleState, timer, inFlight, stopRequested, awaited, begun, active)
    }

    constructor ()
      ensures State() == NEW_WORKER
    {
      lifecycleState, timer, inFlight, stopRequested, awaited, begun, active := Idle, false, None, false, None, 0, {};
    }

    /** Starts a non-overlapping polling loop; false stands for the error of a restart after stop. */
    method Start() returns (ok: bool)
      modifies this
      ensures ok <==> WorkerStart(old(State())).Some?
      ensures ok <==> old(lifecycleState) == Idle || old(lifecycleState) == Running
      ensures ok ==> lifecycleState == Running
      ensures old(lifecycleState) == Idle ==> timer
      ensures old(lifecycleState) != Idle ==> State() == old(State())
      ensures ok ==> State() == WorkerStart(old(State())).value
      ensures !ok ==> State() == old(State())
    {
      if lifecycleState == Running { return true; }
      if lifecycleState != Idle { return false; }
      lifecycleState := Running;
      stopRequested := false;
      Schedule();
      return true;
    }

    /** Stops scheduling; the promise it leaves waits for the current iteration. */
    method Stop()
      modifies this
      ensures State() == WorkerStop(old(State()))
      ensures old(stopRequested) ==> State() == old(State())
      ensures !old(stopRequested) ==> !timer && lifecycleState == Stopping && awaited == old(inFlight)
      ensures stopRequested && inFlight == old(inFlight) && active == old(active)
    {
      if stopRequested { return; }
      lifecycleState := Stopping;
      timer := false;
      awaited := inFlight;
      stopRequested := true;
    }

    method Schedule()
      modifies this
      ensures State() == ScheduleNext(old(State()))
    {
      if lifecycleState != Running { return; }
      timer := true;
    }

    method OnTimer()
      modifies this
      ensures State() == TimerFired(old(State()))
      ensures !timer && inFlight == Some(old(begun)) && old(begun) in active && lifecycleState == old(lifecycleState)
    {
      timer := false;
      active := active + {begun};
      inFlight := Some(begun);
      begun := begun + 1;
    }

    method OnIterationSettled(i: nat)
      modifies this
      ensures State() == IterationEnded(old(State()), i)
      ensures i !in active && inFlight != Some(i) && (old(inFlight) != Some(i) ==> inFlight == old(inFlight))
      ensures timer <==> old(timer) || old(lifecycleState) == Running
    {
      active := active - {i};
      if inFlight == Some(i) { inFlight := None; }
      Schedule();
    }
  }

  // ----- the service -----

  datatype Phase = PhaseIdle | Starting | PhaseRunning | PhaseStopping | PhaseStopped

  /** Where `start` stands. */
  datatype StartAt = NotStarted | Listening | Listened | WorkerStarted | StartFailed | Started

  /** Where `stop` stands. */
  datatype StopAt =
    | NotStopping
    | ClosingHttp
    | CallingWorkerStop
    | AwaitingWorker
    | HurryingRabbitMq         // the worker's grace is over: the broker link closes first
    | StillAwaitingWorker
    | ClosingRabbitMq
    | DestroyingKnex
    | Finished

  datatype Service = Service(
    phase: Phase,
    startAt: StartAt,
    stopAt: StopAt,
    httpServer: bool,
    signalled: bool,          // a signal's hard stop timer is armed
    rabbitMqClosing: bool,    // rabbitMqClosePromise is set
    rabbitMqClosed: bool,
    knexDestroying: bool,     // knexDestroyPromise is set
    worker: Worker,
    knexDestroys: nat,        // bookkeeping: calls of knex.destroy
    workerStarted: bool,      // bookkeeping: the worker's start went through
    closeFailed: bool,        // bookkeeping: closing the server reported an error
    exited: bool)             // the forced exit

  const NEW_SERVICE :=
    Service(PhaseIdle, NotStarted, NotStopping, false, false, false, false, false, NEW_WORKER, 0, false, false, false)

  function CloseRabbitMq(s: Service): Service {
    s.(rabbitMqClosing := true)
  }

  function CloseKnex(s: Service): Service {
    if s.knexDestroying then s else s.(knexDestroying := true, knexDestroys := s.knexDestroys + 1)
  }

  predicate ShuttingDown(s: Service) {
    s.phase == PhaseStopping || s.phase == PhaseStopped
  }

  /** None is the error of a bootstrap after shutdown. */
  function Bootstrap(s: Service): Option<Service> {
    if ShuttingDown(s) then None
    else if s.startAt != NotStarted then Some(s)
    else Some(s.(phase := Starting, startAt := Listening, httpServer := true))
  }

  /** `start` once the server listens: only a bootstrap that is still starting activates the worker. */
  function AfterListen(s: Service): Service {
    if s.phase != Starting then s.(startAt := StartFailed)
    else
      var worker := WorkerStart(s.worker);
      if worker.None? then s.(startAt := StartFailed)
      else s.(startAt := WorkerStarted, worker := worker.value, workerStarted := true)
  }

  function BootstrapSettled(s: Service): Service {
    s.(startAt := Started, phase := if s.phase == Starting then PhaseRunning else s.phase)
  }

  function Shutdown(s: Service): Service {
    if s.stopAt != NotStopping then s
    else s.(phase := PhaseStopping, stopAt := if s.httpServer then ClosingHttp else CallingWorkerStop)
  }

  /** The server's close callback; an error skips stopping the worker. */
  function HttpClosed(s: Service, ok: bool): Service {
    if ok then s.(httpServer := false, stopAt := CallingWorkerStop)
    else CloseRabbitMq(s.(closeFailed := true, stopAt := ClosingRabbitMq))
  }

  function CallWorkerStop(s: Service): Service {
    s.(worker := WorkerStop(s.worker), stopAt := AwaitingWorker)
  }

  function RabbitMqIsClosed(s: Service): Service {
    if s.stopAt == HurryingRabbitMq then s.(stopAt := StillAwaitingWorker)
    else CloseKnex(s.(stopAt := DestroyingKnex))
  }

  function ForceShutdown(s: Service): Service {
    CloseKnex(CloseRabbitMq(s.(httpServer := false))).(exited := true)
  }

  class PaymentServiceBootstrap {
    const worker: OutboxPublisherWorker
    var lifecycleState: Phase
    var startAt: StartAt
    var stopAt: StopAt
    var httpServer: bool
    var signalled: bool
    var rabbitMqClosing: bool
    var rabbitMqClosed: bool
    var knexDestroying: bool
    var knexDestroys: nat
    var workerStarted: bool
    var closeFailed: bool
    var exited: bool

    ghost function State(): Service
      reads this, worker
    {
      Service(lifecycleState, startAt, stopAt, httpServer, signalled, rabbitMqClosing, rabbitMqClosed, knexDestroying,
              worker.State(), knexDestroys, workerStarted, closeFailed, exited)
    }

    constructor (worker: OutboxPublisherWorker)
      requires worker.State() == NEW_WORKER
      ensures this.worker == worker && State() == NEW_SERVICE
    {
      this.worker := worker;
      lifecycleState, startAt, stopAt := PhaseIdle, NotStarted, NotStopping;
      httpServer, signalled, rabbitMqClosing, rabbitMqClosed, knexDestroying := false, false, false, false, false;
      knexDestroys, workerStarted, closeFailed, exited := 0, false, false, false;
    }

    /** Starts HTTP; false stands for the error of a bootstrap after shutdown. */
    method CallBootstrap() returns (ok: bool)
      modifies this
      ensures ok <==> Bootstrap(old(State())).Some?
      ensures ok <==> old(lifecycleState) != PhaseStopping && old(lifecycleState) != PhaseStopped
      ensures ok && old(startAt) != NotStarted ==> State() == old(State())
      ensures ok ==> State() == Bootstrap(old(State())).value
      ensures !ok ==> State() == old(State())
    {
      if lifecycleState == PhaseStopping || lifecycleState == PhaseStopped { return false; }
      if startAt == NotStarted {
        lifecycleState := Starting;
        startAt := Listening;
        httpServer := true;
      }
      return true;
    }

    method ContinueStart()
      modifies this, worker
      ensures State() == AfterListen(old(State()))
      ensures old(lifecycleState) != Starting ==> worker.State() == old(worker.State()) && startAt == StartFailed
      ensures startAt == WorkerStarted ==> worker.lifecycleState == Running && workerStarted
    {
      if lifecycleState != Starting { startAt := StartFailed; return; }
      var ok := worker.Start();
      if ok {
        workerStarted := true;
        startAt := WorkerStarted;
      } else {
        startAt := StartFailed;
      }
    }

    /** Shuts down HTTP, worker, RabbitMQ, and Knex in ownership order. */
    method CallShutdown()
      modifies this
      ensures State() == Shutdown(old(State()))
      ensures old(stopAt) != NotStopping ==> State() == old(State())
      ensures old(stopAt) == NotStopping ==> lifecycleState == PhaseStopping && stopAt != NotStopping
    {
      if stopAt != NotStopping { return; }
      lifecycleState := PhaseStopping;
      stopAt := if httpServer then ClosingHttp else CallingWorkerStop;
    }

    method OnHttpClosed(ok: bool)
      modifies this
      ensures State() == HttpClosed(old(State()), ok)
      ensures ok ==> !httpServer && stopAt == CallingWorkerStop
      ensures !ok ==> stopAt == ClosingRabbitMq && rabbitMqClosing && worker.State() == old(worker.State())
    {
      if ok {
        httpServer := false;
        stopAt := CallingWorkerStop;
      } else {
        closeFailed := true;
        stopAt := ClosingRabbitMq;
        BeginRabbitMqClose();
      }
    }

    method StopWorker()
      modifies this, worker
      ensures State() == CallWorkerStop(old(State()))
      ensures worker.stopRequested && stopAt == AwaitingWorker
    {
      worker.Stop();
      stopAt := AwaitingWorker;
    }

    method BeginRabbitMqClose()
      modifies this`rabbitMqClosing
      ensures rabbitMqClosing
    {
      if !rabbitMqClosing { rabbitMqClosing := true; }
    }

    method BeginKnexDestroy()
      modifies this`knexDestroying, this`knexDestroys
      ensures State() == CloseKnex(old(State()))
    {
      if !knexDestroying {
        knexDestroying := true;
        knexDestroys := knexDestroys + 1;
      }
    }

    method OnRabbitMqClosed()
      modifies this
      ensures State() == RabbitMqIsClosed(old(State()))
      ensures old(stopAt) == HurryingRabbitMq ==> stopAt == StillAwaitingWorker && knexDestroys == old(knexDestroys)
      ensures old(stopAt) != HurryingRabbitMq ==> stopAt == DestroyingKnex && knexDestroying
    {
      if stopAt == HurryingRabbitMq {
        stopAt := StillAwaitingWorker;
      } else {
        stopAt := DestroyingKnex;
        BeginKnexDestroy();
      }
    }

    method ForceShutdownAfterDeadline()
      modifies this
      ensures State() == ForceShutdown(old(State()))
      ensures exited && !httpServer && rabbitMqClosing && knexDestroying
      ensures knexDestroys == old(knexDestroys) + (if old(knexDestroying) then 0 else 1)
    {
      if httpServer { httpServer := false; }
      BeginRabbitMqClose();
      BeginKnexDestroy();
      exited := true;
    }
  }

  // ----- everything that can happen to the process -----

  datatype Step =
    | BootstrapCalled
    | ListenEnds(ok: bool)
    | StartContinues
    | BootstrapSettles
    | ShutdownCalled
    | SignalArrives
    | HttpCloses(ok: bool)
    | HttpGraceEnds
    | StopCallsWorker
    | WorkerGraceEnds
    | WorkerAwaited            // the worker's stop promise has settled
    | RabbitMqCloses
    | StopSeesRabbitMqClosed
    | KnexDestroyed
    | DeadlinePasses
    | TimerFires
    | IterationEnds(i: nat)
    | WorkerStopSettles

  predicate Enabled(s: Service, step: Step) {
    && !s.exited
    && match step
       case BootstrapCalled => Bootstrap(s).Some?
       case ListenEnds(_) => s.startAt == Listening
       case StartContinues => s.startAt == Listened
       case BootstrapSettles => s.startAt == WorkerStarted
       case ShutdownCalled => true
       case SignalArrives => true
       case HttpCloses(_) => s.stopAt == ClosingHttp
       case HttpGraceEnds => s.stopAt == ClosingHttp
       case StopCallsWorker => s.stopAt == CallingWorkerStop
       case WorkerGraceEnds => s.stopAt == AwaitingWorker
       case WorkerAwaited => (s.stopAt == AwaitingWorker || s.stopAt == StillAwaitingWorker) && s.worker.state == Stopped
       case RabbitMqCloses => s.rabbitMqClosing
       case StopSeesRabbitMqClosed => s.rabbitMqClosed && (s.stopAt == HurryingRabbitMq || s.stopAt == ClosingRabbitMq)
       case KnexDestroyed => s.stopAt == DestroyingKnex
       case DeadlinePasses => s.signalled && s.stopAt != Finished
       case TimerFires => s.worker.timer
       case IterationEnds(i) => i in s.worker.active
       case WorkerStopSettles => StopCanSettle(s.worker)
  }

  function Apply(s: Service, step: Step): Service
    requires Enabled(s, step)
  {
    match step
    case BootstrapCalled => Bootstrap(s).value
    case ListenEnds(ok) => s.(startAt := if ok then Listened else StartFailed)
    case StartContinues => AfterListen(s)
    case BootstrapSettles => BootstrapSettled(s)
    case ShutdownCalled => Shutdown(s)
    case SignalArrives => Shutdown(s.(signalled := true))
    case HttpCloses(ok) => HttpClosed(s, ok)
    case HttpGraceEnds => s.(httpServer := false)
    case StopCallsWorker => CallWorkerStop(s)
    case WorkerGraceEnds => CloseRabbitMq(s.(stopAt := HurryingRabbitMq))
    case WorkerAwaited => CloseRabbitMq(s.(stopAt := ClosingRabbitMq))
    case RabbitMqCloses => s.(rabbitMqClosed := true)
    case StopSeesRabbitMqClosed => RabbitMqIsClosed(s)
    case KnexDestroyed => s.(stopAt := Finished, phase := PhaseStopped)
    case DeadlinePasses => ForceShutdown(s)
    case TimerFires => s.(worker := TimerFired(s.worker))
    case IterationEnds(i) => s.(worker := IterationEnded(s.worker, i))
    case WorkerStopSettles => s.(worker := s.worker.(state := Stopped))
  }

  ghost predicate Next(s: Service, s': Service) {
    exists step :: Enabled(s, step) && s' == Apply(s, step)
  }

  ghost predicate Linked(run: seq<Service>, i: int)
    requires 0 <= i < |run| - 1
  {
    Next(run[i], run[i + 1])
  }

  ghost predicate IsRun(run: seq<Service>) {
    |run| > 0 && run[0] == NEW_SERVICE && forall i :: 0 <= i < |run| - 1 ==> Linked(run, i)
  }

  ghost predicate Reachable(s: Service) {
    exists run :: IsRun(run) && run[|run| - 1] == s
  }

  // ----- the invariant -----

  predicate WorkerOk(w: Worker) {
    && w.active == (if w.inFlight.Some? then {w.inFlight.value} else {})
    && (w.inFlight.Some? ==> w.inFlight.value < w.begun)
    && (w.state == Idle ==> !w.timer && w.inFlight.None?)
    && (w.state == Running ==> (w.timer <==> w.inFlight.None?))
    && (w.state == Stopping || w.state == Stopped ==> !w.timer && w.stopRequested)
    && (w.state == Idle || w.state == Running ==> !w.stopRequested)
    && (w.state == Stopping && w.inFlight.Some? ==> w.awaited == w.inFlight)
    && (w.state == Stopped ==> w.inFlight.None?)
  }

  predicate PastWorker(s: Service) {
    s.stopAt == ClosingRabbitMq || s.stopAt == DestroyingKnex || s.stopAt == Finished
  }

  predicate ServiceOk(s: Service) {
    && (s.stopAt != NotStopping <==> ShuttingDown(s))
    && (s.phase == PhaseStopped <==> s.stopAt == Finished)
    && (s.workerStarted <==> s.startAt == WorkerStarted || s.startAt == Started)
    && (!s.workerStarted ==> s.worker.begun == 0 && s.worker.state != Running)
    && (s.workerStarted ==> s.worker.state != Idle)
    && (s.phase == PhaseIdle ==> s.startAt == NotStarted)
    && (s.worker.stopRequested <==>
          s.stopAt == AwaitingWorker || s.stopAt == HurryingRabbitMq || s.stopAt == StillAwaitingWorker
          || (PastWorker(s) && !s.closeFailed))
    && (s.closeFailed ==> PastWorker(s))
    && (PastWorker(s) && !s.closeFailed ==> s.worker.state == Stopped)
    && (s.knexDestroys == if s.knexDestroying then 1 else 0)
    && (s.rabbitMqClosed ==> s.rabbitMqClosing)
    && (s.stopAt == HurryingRabbitMq || PastWorker(s) ==> s.rabbitMqClosing)
    && (s.stopAt == StillAwaitingWorker || s.stopAt == DestroyingKnex || s.stopAt == Finished ==> s.rabbitMqClosed)
    && (!s.exited ==>
          && (s.knexDestroying <==> s.stopAt == DestroyingKnex || s.stopAt == Finished)
          && (s.rabbitMqClosing ==> s.stopAt == HurryingRabbitMq || s.stopAt == StillAwaitingWorker || PastWorker(s)))
  }

  predicate Inv(s: Service) {
    WorkerOk(s.worker) && ServiceOk(s)
  }

  lemma WorkerStepKeeps(w: Worker, i: nat)
    requires WorkerOk(w)
    ensures WorkerStart(w).Some? ==> WorkerOk(WorkerStart(w).value)
    ensures WorkerOk(WorkerStop(w))
    ensures w.timer ==> WorkerOk(TimerFired(w))
    ensures i in w.active ==> WorkerOk(IterationEnded(w, i))
    ensures StopCanSettle(w) ==> WorkerOk(w.(state := Stopped))
  {
  }

  predicate OfWorker(step: Step) {
    step.TimerFires? || step.IterationEnds? || step.WorkerStopSettles?
  }

  predicate OfStart(step: Step) {
    step.BootstrapCalled? || step.ListenEnds? || step.StartContinues? || step.BootstrapSettles?
  }

  lemma WorkerStepKeepsInv(s: Service, step: Step)
    requires Inv(s) && Enabled(s, step) && OfWorker(step)
    ensures Inv(Apply(s, step))
  {
    WorkerStepKeeps(s.worker, if step.IterationEnds? then step.i else 0);
  }

  lemma StartStepKeepsInv(s: Service, step: Step)
    requires Inv(s) && Enabled(s, step) && OfStart(step)
    ensures Inv(Apply(s, step))
  {
    WorkerStepKeeps(s.worker, 0);
    match step
    case BootstrapCalled =>
    case ListenEnds(_) =>
    case StartContinues =>
    case BootstrapSettles =>
  }

  predicate OfRequest(step: Step) {
    step.ShutdownCalled? || step.SignalArrives? || step.DeadlinePasses?
  }

  lemma RequestKeepsInv(s: Service, step: Step)
    requires Inv(s) && Enabled(s, step) && OfRequest(step)
    ensures Inv(Apply(s, step))
  {
    match step
    case ShutdownCalled =>
    case SignalArrives =>
    case DeadlinePasses =>
  }

  lemma EarlyStopKeepsInv(s: Service, step: Step)
    requires Inv(s) && Enabled(s, step) && (step.HttpCloses? || step.HttpGraceEnds? || step.StopCallsWorker?)
    ensures Inv(Apply(s, step))
  {
    WorkerStepKeeps(s.worker, 0);
    match step
    case HttpCloses(ok) =>
    case HttpGraceEnds =>
    case StopCallsWorker =>
  }

  lemma LateStopKeepsInv(s: Service, step: Step)
    requires Inv(s) && Enabled(s, step)
    requires step.WorkerGraceEnds? || step.WorkerAwaited? || step.RabbitMqCloses? || step.StopSeesRabbitMqClosed?
          || step.KnexDestroyed?
    ensures Inv(Apply(s, step))
  {
    match step
    case WorkerGraceEnds =>
    case WorkerAwaited =>
    case RabbitMqCloses =>
    case StopSeesRabbitMqClosed =>
    case KnexDestroyed =>
  }

  lemma StopStepKeepsInv(s: Service, step: Step)
    requires Inv(s) && Enabled(s, step) && !OfWorker(step) && !OfStart(step) && !OfRequest(step)
    ensures Inv(Apply(s, step))
  {
    if step.HttpCloses? || step.HttpGraceEnds? || step.StopCallsWorker? {
      EarlyStopKeepsInv(s, step);
    } else {
      LateStopKeepsInv(s, step);
    }
  }

  lemma StepKeepsInv(s: Service, step: Step)
    requires Inv(s) && Enabled(s, step)
    ensures Inv(Apply(s, step))
  {
    if OfWorker(step) {
      WorkerStepKeepsInv(s, step);
    } else if OfStart(step) {
      StartStepKeepsInv(s, step);
    } else if OfRequest(step) {
      RequestKeepsInv(s, step);
    } else {
      StopStepKeepsInv(s, step);
    }
  }

  lemma {:induction false} RunInv(run: seq<Service>, i: nat)
    requires IsRun(run) && i < |run|
    ensures Inv(run[i])
  {
    if i > 0 {
      RunInv(run, i - 1);
      assert Linked(run, i - 1);
      var step :| Enabled(run[i - 1], step) && run[i] == Apply(run[i - 1], step);
      StepKeepsInv(run[i - 1], step);
    }
  }

  lemma StepAt(run: seq<Service>, i: nat) returns (step: Step)
    requires IsRun(run) && i < |run| - 1
    ensures Inv(run[i]) && Enabled(run[i], step) && run[i + 1] == Apply(run[i], step)
  {
    RunInv(run, i);
    assert Linked(run, i);
    step :| Enabled(run[i], step) && run[i + 1] == Apply(run[i], step);
  }

  lemma ReachableInv(s: Service)
    requires Reachable(s)
    ensures Inv(s)
  {
    var run :| IsRun(run) && run[|run| - 1] == s;
    RunInv(run, |run| - 1);
  }

  // ----- what the lifecycles promise -----

  /** While running, the worker has exactly one of an armed timer and an iteration in flight; iterations never overlap. */
  lemma OneTimerOrIteration(s: Service)
    requires Reachable(s)
    ensures s.worker.state == Running ==> (s.worker.timer <==> s.worker.active == {})
    ensures s.worker.state != Running ==> !s.worker.timer
    ensures s.worker.active == if s.worker.inFlight.Some? then {s.worker.inFlight.value} else {}
    ensures s.worker.state == Stopped ==> s.worker.active == {}
  {
    ReachableInv(s);
  }

  lemma WorkerStepInFlight(s: Service, step: Step)
    requires Enabled(s, step) && OfWorker(step) && !step.IterationEnds?
    ensures s.worker.inFlight.Some? ==> Apply(s, step).worker.inFlight.Some?
  {
    match step
    case TimerFires =>
    case WorkerStopSettles =>
  }

  lemma StartStepWorker(s: Service, step: Step)
    requires Enabled(s, step) && OfStart(step)
    ensures Apply(s, step).worker == s.worker || WorkerStart(s.worker) == Some(Apply(s, step).worker)
  {
    match step
    case BootstrapCalled =>
    case ListenEnds(_) =>
    case StartContinues =>
    case BootstrapSettles =>
  }

  lemma RequestWorker(s: Service, step: Step)
    requires Enabled(s, step) && OfRequest(step)
    ensures Apply(s, step).worker == s.worker
  {
    match step
    case ShutdownCalled =>
    case SignalArrives =>
    case DeadlinePasses =>
  }

  lemma StopStepWorker(s: Service, step: Step)
    requires Enabled(s, step) && !OfWorker(step) && !OfStart(step) && !OfRequest(step)
    ensures Apply(s, step).worker == s.worker || Apply(s, step).worker == WorkerStop(s.worker)
  {
    match step
    case HttpCloses(ok) =>
    case HttpGraceEnds =>
    case StopCallsWorker =>
    case WorkerGraceEnds =>
    case WorkerAwaited =>
    case RabbitMqCloses =>
    case StopSeesRabbitMqClosed =>
    case KnexDestroyed =>
  }

  /** Starting and stopping begin no iteration and end none. */
  predicate StartsOrStops(w: Worker, w': Worker) {
    w'.inFlight == w.inFlight && w'.begun == w.begun && (w.stopRequested ==> w'.stopRequested || w.state == Idle)
  }

  lemma StartsAndStops(w: Worker)
    ensures StartsOrStops(w, w) && StartsOrStops(w, WorkerStop(w))
    ensures WorkerStart(w).Some? ==> StartsOrStops(w, WorkerStart(w).value)
  {
  }

  lemma OutsideInFlight(s: Service, step: Step)
    requires Enabled(s, step) && !OfWorker(step)
    ensures StartsOrStops(s.worker, Apply(s, step).worker)
  {
    StartsAndStops(s.worker);
    if OfStart(step) {
      StartStepWorker(s, step);
    } else if OfRequest(step) {
      RequestWorker(s, step);
    } else {
      StopStepWorker(s, step);
    }
  }

  /** An iteration stays in flight until it ends. */
  lemma InFlightStays(s: Service, step: Step)
    requires Enabled(s, step) && !step.IterationEnds? && s.worker.inFlight.Some?
    ensures Apply(s, step).worker.inFlight.Some?
  {
    if OfWorker(step) { WorkerStepInFlight(s, step); } else { OutsideInFlight(s, step); }
  }

  /** A worker asked to stop has no timer, and what is left to it begins nothing. */
  lemma StoppedWorker(w: Worker, i: nat)
    requires WorkerOk(w) && w.stopRequested
    ensures !w.timer && IterationEnded(w, i).stopRequested && IterationEnded(w, i).begun == w.begun
  {
  }

  lemma StoppedWorkerStep(s: Service, step: Step)
    requires WorkerOk(s.worker) && Enabled(s, step) && OfWorker(step) && s.worker.stopRequested
    ensures Apply(s, step).worker.stopRequested && Apply(s, step).worker.begun == s.worker.begun
  {
    StoppedWorker(s.worker, if step.IterationEnds? then step.i else 0);
  }

  lemma StopRequestStays(s: Service, step: Step)
    requires WorkerOk(s.worker) && Enabled(s, step) && s.worker.stopRequested
    ensures Apply(s, step).worker.stopRequested && Apply(s, step).worker.begun == s.worker.begun
  {
    if OfWorker(step) { StoppedWorkerStep(s, step); } else { OutsideInFlight(s, step); }
  }

  lemma ShutdownStays(s: Service, step: Step)
    requires Enabled(s, step) && ShuttingDown(s)
    ensures ShuttingDown(Apply(s, step)) && Apply(s, step).workerStarted == s.workerStarted && Bootstrap(s).None?
  {
  }

  /** No iteration begins once stop has been called. */
  lemma {:induction false} NoneBeginsAfterStop(run: seq<Service>, i: nat, j: nat)
    requires IsRun(run) && i <= j < |run| && run[i].worker.stopRequested
    ensures run[j].worker.stopRequested && run[j].worker.begun == run[i].worker.begun
    decreases j - i
  {
    if i < j {
      NoneBeginsAfterStop(run, i, j - 1);
      var step := StepAt(run, j - 1);
      StopRequestStays(run[j - 1], step);
    }
  }

  /** Once shutdown has begun, the worker never starts, and bootstrap is refused. */
  lemma {:induction false} NeverStartsAfterShutdown(run: seq<Service>, i: nat, j: nat)
    requires IsRun(run) && i <= j < |run| && ShuttingDown(run[i])
    ensures ShuttingDown(run[j]) && run[j].workerStarted == run[i].workerStarted && Bootstrap(run[j]).None?
    decreases j - i
  {
    if i < j {
      NeverStartsAfterShutdown(run, i, j - 1);
      var step := StepAt(run, j - 1);
      ShutdownStays(run[j - 1], step);
    }
  }

  /** Knex is destroyed at most once, on any path, and on the graceful one only after the broker link has closed. */
  lemma KnexDestroyedOnceAndLast(s: Service)
    requires Reachable(s)
    ensures s.knexDestroys <= 1
    ensures s.knexDestroys == 1 && !s.exited ==> s.rabbitMqClosed
    ensures s.rabbitMqClosing && !s.exited ==> s.worker.stopRequested || s.closeFailed
  {
    ReachableInv(s);
  }

  /** A poll is in flight, or the armed timer will begin one. */
  predicate CanPoll(s: Service) {
    s.worker.active != {} || s.worker.timer
  }

  /**
   Outside the forced exit, a destroyed knex may still be polled exactly when closing the server failed although the
   worker had been started: only then does the worker go on running.
   */
  lemma DestroyedUnderPollIff(s: Service)
    requires Reachable(s) && s.knexDestroys > 0 && !s.exited
    ensures CanPoll(s) <==> s.closeFailed && s.workerStarted
    ensures CanPoll(s) ==> s.worker.state == Running
    ensures CanPoll(s) && s.worker.active == {} ==>
      Enabled(s, TimerFires) && Apply(s, TimerFires).worker.active != {}
  {
    ReachableInv(s);
  }

  /** What the destruction of knex has settled: the two facts, and that nothing reopens them. */
  predicate SameFate(s: Service, s': Service) {
    s'.knexDestroys >= s.knexDestroys && s'.closeFailed == s.closeFailed && s'.workerStarted == s.workerStarted
  }

  lemma WorkerStepSettled(s: Service, step: Step)
    requires Enabled(s, step) && OfWorker(step)
    ensures SameFate(s, Apply(s, step))
  {
  }

  lemma StartStepSettled(s: Service, step: Step)
    requires Enabled(s, step) && OfStart(step) && ShuttingDown(s)
    ensures SameFate(s, Apply(s, step))
  {
    match step
    case BootstrapCalled =>
    case ListenEnds(_) =>
    case StartContinues =>
    case BootstrapSettles =>
  }

  lemma RequestSettled(s: Service, step: Step)
    requires Enabled(s, step) && OfRequest(step)
    ensures SameFate(s, Apply(s, step))
  {
    match step
    case ShutdownCalled =>
    case SignalArrives =>
    case DeadlinePasses =>
  }

  lemma StopStepSettled(s: Service, step: Step)
    requires Enabled(s, step) && !OfWorker(step) && !OfStart(step) && !OfRequest(step)
    requires s.stopAt == DestroyingKnex || s.stopAt == Finished
    ensures SameFate(s, Apply(s, step))
  {
    match step
    case HttpCloses(ok) =>
    case HttpGraceEnds =>
    case StopCallsWorker =>
    case WorkerGraceEnds =>
    case WorkerAwaited =>
    case RabbitMqCloses =>
    case StopSeesRabbitMqClosed =>
    case KnexDestroyed =>
  }

  lemma DestroyedStep(s: Service, step: Step)
    requires Enabled(s, step) && s.knexDestroys > 0 && ShuttingDown(s)
    requires s.stopAt == DestroyingKnex || s.stopAt == Finished
    ensures SameFate(s, Apply(s, step))
  {
    if OfWorker(step) {
      WorkerStepSettled(s, step);
    } else if OfStart(step) {
      StartStepSettled(s, step);
    } else if OfRequest(step) {
      RequestSettled(s, step);
    } else {
      StopStepSettled(s, step);
    }
  }

  /** And that is settled when knex is destroyed: what can be polled then can be at any later point, and nothing else. */
  lemma {:induction false} DestroyedUnderPollSettled(run: seq<Service>, i: nat, j: nat)
    requires IsRun(run) && i <= j < |run| && run[i].knexDestroys > 0 && !run[i].exited
    ensures run[j].knexDestroys > 0
    ensures run[j].closeFailed == run[i].closeFailed && run[j].workerStarted == run[i].workerStarted
    ensures !run[j].exited ==> (CanPoll(run[j]) <==> CanPoll(run[i]))
    decreases j - i
  {
    RunInv(run, i);
    RunInv(run, j);
    if i < j {
      var step := StepAt(run, j - 1);
      DestroyedUnderPollSettled(run, i, j - 1);
      DestroyedStep(run[j - 1], step);
    }
  }

  /** A server that never came to listen may fail to close as well; that is harmless. */
  lemma FailedListenIsHarmless(s: Service)
    requires Reachable(s) && s.startAt == StartFailed && s.knexDestroys > 0 && !s.exited
    ensures !CanPoll(s)
  {
    ReachableInv(s);
    DestroyedUnderPollIff(s);
  }

  lemma Extend(run: seq<Service>, step: Step) returns (longer: seq<Service>)
    requires IsRun(run) && Enabled(run[|run| - 1], step)
    ensures IsRun(longer) && longer == run + [Apply(run[|run| - 1], step)]
  {
    longer := run + [Apply(run[|run| - 1], step)];
    forall i | 0 <= i < |longer| - 1 ensures Linked(longer, i) {
      if i < |run| - 1 { assert Linked(run, i); }
    }
  }

  lemma Polling() returns (run: seq<Service>)
    ensures IsRun(run)
    ensures run[|run| - 1] == Service(Starting, WorkerStarted, NotStopping, true, false, false, false, false,
                                      Worker(Running, false, Some(0), false, None, 1, {0}), 0, true, false, false)
  {
    run := [NEW_SERVICE];
    run := Extend(run, BootstrapCalled);
    run := Extend(run, ListenEnds(true));
    run := Extend(run, StartContinues);
    run := Extend(run, TimerFires);
  }

  /** That failing case is real: a poll is in flight while knex is destroyed. */
  lemma CloseErrorDestroysUnderPoll() returns (s: Service)
    ensures Reachable(s) && s.knexDestroys == 1 && !s.exited && s.worker.active != {}
  {
    var run := Polling();
    run := Extend(run, ShutdownCalled);
    run := Extend(run, HttpCloses(false));
    run := Extend(run, RabbitMqCloses);
    run := Extend(run, StopSeesRabbitMqClosed);
    s := run[|run| - 1];
    assert Reachable(s);
  }

  /**
   A signal begins the shutdown and arms its deadline. The end of a grace drops the server or hurries the broker link,
   but awaits them still; the deadline drops the server, closes link and knex, and exits.
   */
  lemma SignalsAndDeadlines(s: Service)
    requires Reachable(s) && !s.exited
    ensures ShuttingDown(Apply(s, SignalArrives)) && Apply(s, SignalArrives).signalled
    ensures Enabled(s, HttpGraceEnds) ==>
      var s' := Apply(s, HttpGraceEnds);
      !s'.httpServer && Enabled(s', HttpCloses(true))
    ensures Enabled(s, WorkerGraceEnds) ==>
      var s' := Apply(s, WorkerGraceEnds);
      s'.rabbitMqClosing && Enabled(s', RabbitMqCloses) && s'.worker == s.worker && s'.knexDestroys == 0
    ensures Enabled(s, DeadlinePasses) ==>
      var s' := Apply(s, DeadlinePasses); s'.exited && !s'.httpServer && s'.rabbitMqClosing && s'.knexDestroys == 1
  {
    ReachableInv(s);
  }

  /** A bootstrap that nothing interrupts has the service running and its worker scheduled. */
  lemma BootstrapRuns(s: Service)
    requires Reachable(s) && s.phase == PhaseIdle && !s.exited
    ensures Enabled(s, BootstrapCalled)
    ensures var listening := Apply(s, BootstrapCalled);
            && listening.httpServer && Enabled(listening, ListenEnds(true))
            && var listened := Apply(listening, ListenEnds(true));
               && Enabled(listened, StartContinues)
               && var started := Apply(listened, StartContinues);
                  && started.worker.state == Running && started.worker.timer && Enabled(started, BootstrapSettles)
                  && Apply(started, BootstrapSettles).phase == PhaseRunning
  {
    ReachableInv(s);
  }

  // ----- shutdown finishes -----

  function StopRank(at: StopAt): nat {
    match at
    case NotStopping => 8
    case ClosingHttp => 7
    case CallingWorkerStop => 6
    case AwaitingWorker => 5
    case HurryingRabbitMq => 4
    case StillAwaitingWorker => 3
    case ClosingRabbitMq => 2
    case DestroyingKnex => 1
    case Finished => 0
  }

  function Distance(s: Service): nat {
    4 * StopRank(s.stopAt) + |s.worker.active| + (if s.worker.state == Stopped then 0 else 1)
      + (if s.rabbitMqClosed then 0 else 1)
  }

  /** The step a shutdown waits for next. */
  function Awaits(s: Service): Step {
    match s.stopAt
    case ClosingHttp => HttpCloses(true)
    case CallingWorkerStop => StopCallsWorker
    case AwaitingWorker =>
      if s.worker.inFlight.Some? then IterationEnds(s.worker.inFlight.value)
      else if s.worker.state != Stopped then WorkerStopSettles else WorkerAwaited
    case StillAwaitingWorker =>
      if s.worker.inFlight.Some? then IterationEnds(s.worker.inFlight.value)
      else if s.worker.state != Stopped then WorkerStopSettles else WorkerAwaited
    case HurryingRabbitMq => if s.rabbitMqClosed then StopSeesRabbitMqClosed else RabbitMqCloses
    case ClosingRabbitMq => if s.rabbitMqClosed then StopSeesRabbitMqClosed else RabbitMqCloses
    case _ => KnexDestroyed
  }

  lemma Advances(s: Service)
    requires Inv(s) && s.phase == PhaseStopping && !s.exited
    ensures Enabled(s, Awaits(s)) && Distance(Apply(s, Awaits(s))) < Distance(s)
    ensures ShuttingDown(Apply(s, Awaits(s))) && !Apply(s, Awaits(s)).exited
  {
    match s.stopAt
    case ClosingHttp =>
    case CallingWorkerStop =>
    case AwaitingWorker =>
    case HurryingRabbitMq =>
    case StillAwaitingWorker =>
    case ClosingRabbitMq =>
    case DestroyingKnex =>
  }

  /** A shutdown is never stuck: what it waits for can happen, and happening brings it closer to its end. */
  lemma ShutdownAdvances(s: Service)
    requires Reachable(s) && s.phase == PhaseStopping && !s.exited
    ensures Enabled(s, Awaits(s)) && Distance(Apply(s, Awaits(s))) < Distance(s)
  {
    ReachableInv(s);
    Advances(s);
  }
}
