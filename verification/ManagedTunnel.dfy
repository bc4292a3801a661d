/** The lifecycle of the managed tunnel (core/src/tunnel/service.rs): start and stop
    callers, abortable start tasks, guards that reset asynchronously, and the event
    task of the active tunnel. A step runs from one lock acquisition or await to the
    next; a schedule is any sequence of actions, and an action that is not enabled
    changes nothing. */
module ManagedTunnel {
  import opened Prelude

  type TaskId = int
  type TunnelId = int

  datatype Mode = HostMode | JoinMode

  datatype Phase = IdlePhase | StartingPhase | ActivePhase | StoppingPhase

  /** `tunnel` stands for the join URI and local address an active tunnel shows. */
  datatype Status = Status(
    phase: Phase, mode: Option<Mode>, tunnel: Option<TunnelId>, connections: int, lastError: Option<int>)

  datatype Service =
    | Idle
    | Starting(op: int, task: Option<TaskId>)
    | Active(tunnel: TunnelId, mode: Mode)
    | Stopping(op: int)

  function IdleStatus(): Status {
    Status(IdlePhase, None, None, 0, None)
  }

  function Pending(phase: Phase, mode: Mode): Status {
    Status(phase, Some(mode), None, 0, None)
  }

  function ActiveStatus(tunnel: TunnelId, mode: Mode, connections: int, lastError: Option<int>): Status {
    Status(ActivePhase, Some(mode), Some(tunnel), connections, lastError)
  }

  function OperationOf(service: Service): Option<int> {
    match service
    case Starting(op, _) => Some(op)
    case Stopping(op) => Some(op)
    case _ => None
  }

  /** `fetch_add` on a 64-bit counter. */
  function NextId(id: int): int {
    if id == U64_MAX then 0 else id + 1
  }

  /** The id the counter, which starts at 1, hands out after `issued` earlier ones. */
  function OperationId(issued: nat): int {
    (issued + 1) % (U64_MAX + 1)
  }

  lemma OperationIdsCount(issued: nat)
    ensures OperationId(issued + 1) == NextId(OperationId(issued))
    ensures issued < U64_MAX ==> OperationId(issued) == issued + 1
  {
  }

  // ----- the service object: one method per locked section

  /** The step system's state has this service state and status, with the lock free. */
  predicate Mirrors(s: State, service: Service, status: Status) {
    Free(s) && s.service == service && s.status == status
  }

  class TunnelService {
    var service: Service
    var status: Status
    var operationNext: int

    constructor ()
      ensures service == Idle && status == IdleStatus() && operationNext == OperationId(0)
    {
      service := Idle;
      status := Status(IdlePhase, None, None, 0, None);
      operationNext := 1;
    }

    method NextOperationId() returns (op: int)
      modifies this`operationNext
      ensures op == old(operationNext) && operationNext == NextId(op)
    {
      op := operationNext;
      operationNext := if op == U64_MAX then 0 else op + 1;
    }

    method BeginStart(mode: Mode) returns (op: Option<int>)
      modifies this
      ensures op.Some? <==> old(service).Idle?
      ensures op.Some? ==> op.value == old(operationNext) && operationNext == NextId(op.value) && service == Starting(op.value, None)
                           && status == Pending(StartingPhase, mode)
      ensures op.None? ==> service == old(service) && status == old(status) && operationNext == old(operationNext)
      ensures forall s: State, t: TaskId, worker: TaskId {:trigger Accepted(s, t, worker, mode, old(operationNext))} ::
                op.Some? && Mirrors(s, old(service), old(status)) ==>
                  Mirrors(Accepted(s, t, worker, mode, old(operationNext)), service, status)
    {
      if !service.Idle? {
        return None;
      }
      var id := NextOperationId();
      service := Starting(id, None);
      status := Pending(StartingPhase, mode);
      op := Some(id);
    }

    /** Whether the start task must be aborted instead of attached. */
    method AttachStartTask(op: int, task: TaskId) returns (abort: bool)
      requires service.Starting? && service.op == op ==> service.task.None?
      modifies this`service
      ensures service == Attach(old(service), op, task)
      ensures abort <==> service != Starting(op, Some(task))
      ensures forall s: State, t: TaskId {:trigger AttachWorker(s, t, op, task)} ::
                Mirrors(s, old(service), status) ==>
                  && Mirrors(AttachWorker(s, t, op, task), service, status)
                  && AttachWorker(s, t, op, task).aborts == if abort then s.aborts + {task} else s.aborts
    {
      if service.Starting? && service.op == op {
        assert service.task.None?;
        service := Starting(op, Some(task));
        abort := false;
      } else {
        abort := true;
      }
    }

    /** Whether the tunnel became active; otherwise it must be closed. */
    method FinishStart(op: int, tunnel: TunnelId, mode: Mode, connections: int) returns (activated: bool)
      modifies this
      ensures activated <==> old(service).Starting? && old(service).op == op
      ensures activated ==> service == Active(tunnel, mode) && status == ActiveStatus(tunnel, mode, connections, None)
      ensures !activated ==> service == old(service) && status == old(status)
      ensures forall s: State, t: TaskId {:trigger Activate(s, t, op, mode, tunnel)} ::
                Mirrors(s, old(service), old(status)) ==>
                  if activated
                  then Mirrors(PublishingActive(Activate(s, t, op, mode, tunnel), t, mode, tunnel, connections), service, status)
                  else Mirrors(Activate(s, t, op, mode, tunnel), service, status)
      ensures operationNext == old(operationNext)
    {
      activated := service.Starting? && service.op == op;
      if activated {
        service := Active(tunnel, mode);
        status := Status(ActivePhase, Some(mode), Some(tunnel), connections, None);
      }
    }

    method PublishError(category: int)
      modifies this`status
      ensures status == old(status).(lastError := Some(category))
      ensures forall s: State, t: TaskId {:trigger ReportStep(s, Report(t, category))} ::
                t in s.tasks && s.tasks[t].Reporting? && s.status == old(status) ==>
                  && ReportStep(s, Report(t, category)).status == status
                  && ReportStep(s, Report(t, category)).service == s.service
                  && ReportStep(s, Report(t, category)).log == s.log + [status]
    {
      var read := status;
      status := Status(read.phase, read.mode, read.tunnel, read.connections, Some(category));
    }

    method ResetOperation(op: int)
      modifies this
      ensures (service, status) == Reset(old(service), old(status), op)
      ensures forall s: State {:trigger ResetIn(s, op)} ::
                Mirrors(s, old(service), old(status)) ==> Mirrors(ResetIn(s, op), service, status)
      ensures operationNext == old(operationNext)
    {
      if OperationOf(service) == Some(op) {
        service := Idle;
        status := IdleStatus();
      }
    }

    /** `begin_stop` up to its await: the replaced state, which is put back when
        there is nothing to stop. */
    method TakeForStop() returns (op: int, previous: Service)
      modifies this
      ensures op == old(operationNext) && operationNext == NextId(op) && previous == old(service)
      ensures service == if previous.Active? || previous.Starting? then Idle else previous
      ensures status == if previous.Starting? then IdleStatus() else old(status)
      ensures forall s: State, t: TaskId {:trigger BeginningStop(s, t)} ::
                Mirrors(s, old(service), old(status)) ==>
                  BeginningStop(s, t).service == service && BeginningStop(s, t).status == status
    {
      op := NextOperationId();
      previous := service;
      service := Idle;
      match previous {
        case Starting(_, _) => status := IdleStatus();
        case Active(_, _) =>
        case _ => service := previous;
      }
    }

    /** The rest of `begin_stop`, once the event task has ended. */
    method PublishStopping(op: int, mode: Mode)
      modifies this
      ensures service == Stopping(op) && status == Pending(StoppingPhase, mode) && operationNext == old(operationNext)
      ensures forall s: State, t: TaskId, tunnel: TunnelId {:trigger StoppingShown(s, t, op, tunnel, mode)} ::
                tunnel !in s.events || s.events[tunnel].Over? ==>
                  Mirrors(StoppingShown(s, t, op, tunnel, mode), service, status)
    {
      service := Stopping(op);
      status := Pending(StoppingPhase, mode);
    }
  }

  function Attach(service: Service, op: int, task: TaskId): Service {
    if service.Starting? && service.op == op then Starting(op, Some(task)) else service
  }

  function Reset(service: Service, status: Status, op: int): (Service, Status) {
    if OperationOf(service) == Some(op) then (Idle, IdleStatus()) else (service, status)
  }

  // ----- tasks and state

  datatype Reply = Fine | NotRunning | Busy

  datatype Task =
    // start_host, start_join
    | StartCalled(mode: Mode)
    | StartAccepted(op: int, worker: TaskId)
    | StartReturned(reply: Reply)
    // the spawned start task; each of these up to Failing holds the operation's guard
    | Connecting(op: int, mode: Mode)
    | Connected(op: int, mode: Mode, tunnel: TunnelId)
    | Surplus(op: int, tunnel: TunnelId)
    | Failing(op: int)
    | Activating(mode: Mode, tunnel: TunnelId)
    | Reporting
    | ReportingStale(read: Status)
    | WorkerEnded
    // stop
    | StopCalled
    | StopAwaitingEvents(op: int, tunnel: TunnelId, mode: Mode)
    | StopClosing(op: int, tunnel: TunnelId)
    | StopFinishing(op: int)
    | StopReturned(reply: Reply)
    // spawned by a dropped guard
    | Resetting(op: int)
    | Ended

  datatype EventTask = Running(mode: Mode) | Aborting(mode: Mode) | Over

  datatype Place = WithTask(t: TaskId) | WithService | Reaping | Closed

  /** The real state is the service, who holds its lock across a pause, the
      published status, the issued operation ids, the tasks, the requested aborts
      and the event tasks. The rest is history: everything published, where each
      tunnel is, who holds each operation's guard, the caller of each start operation,
      and for each stopped tunnel the place of its Stopping status in the log. */
  datatype State = State(
    service: Service, holder: Option<TaskId>, status: Status, issued: nat,
    tasks: map<TaskId, Task>, aborts: set<TaskId>, events: map<TunnelId, EventTask>,
    log: seq<Status>, places: map<TunnelId, Place>, guards: map<int, TaskId>,
    starters: map<int, TaskId>, stopped: map<TunnelId, int>)

  datatype Action =
    | CallStart(t: TaskId, mode: Mode)
    | BeginStart(t: TaskId, worker: TaskId)
    | AttachTask(t: TaskId)
    | DropStart(t: TaskId)
    | Connect(t: TaskId, tunnel: TunnelId)
    | ConnectFails(t: TaskId)
    | StatusFails(t: TaskId, reset: TaskId)
    | FinishStart(t: TaskId)
    | PublishActive(t: TaskId, connections: int)
    | CloseSurplus(t: TaskId, reset: TaskId)
    | FailStart(t: TaskId)
    | Report(t: TaskId, category: int)
    | ReportRead(t: TaskId)
    | ReportWrite(t: TaskId, category: int)
    | AbortNow(t: TaskId, reset: TaskId)
    | CallStop(t: TaskId)
    | BeginStop(t: TaskId)
    | EventsEnded(t: TaskId)
    | TunnelClosed(t: TaskId)
    | FinishStop(t: TaskId)
    | DropStop(t: TaskId, reset: TaskId)
    | RunReset(t: TaskId)
    | EventPublish(tunnel: TunnelId, connections: int, lastError: Option<int>)
    | EventTaskEnds(tunnel: TunnelId)
    | Reaped(tunnel: TunnelId)

  function Init(): State {
    State(Idle, None, IdleStatus(), 0, map[], {}, map[], [IdleStatus()], map[], map[], map[], map[])
  }

  /** Nothing is ever forgotten. */
  ghost predicate Grows(s: State, r: State) {
    s.issued <= r.issued && s.tasks.Keys <= r.tasks.Keys && s.places.Keys <= r.places.Keys
    && s.starters.Keys <= r.starters.Keys
  }

  function Put(s: State, t: TaskId, task: Task): State {
    s.(tasks := s.tasks[t := task])
  }

  function Publish(s: State, status: Status): State {
    s.(status := status, log := s.log + [status])
  }

  /** `reset_operation` under the lock. */
  function ResetIn(s: State, op: int): (r: State)
    ensures Grows(s, r)
  {
    if OperationOf(s.service) == Some(op) then Publish(s.(service := Idle), IdleStatus()) else s
  }

  predicate Free(s: State) {
    s.holder.None?
  }

  /** A dropped guard spawns the reset of its operation. */
  function SpawnReset(s: State, reset: TaskId, op: int): (r: State)
    ensures Grows(s, r)
  {
    Put(s.(guards := s.guards[op := reset]), reset, Resetting(op))
  }

  function Disarm(s: State, op: int): State {
    s.(guards := s.guards - {op})
  }

  function Move(s: State, tunnel: TunnelId, place: Place): State {
    s.(places := s.places[tunnel := place])
  }

  /** A task ends its role and drops its guard. */
  function HandOver(s: State, t: TaskId, reset: TaskId, op: int, task: Task): (r: State)
    ensures Grows(s, r)
  {
    SpawnReset(Put(s, t, task), reset, op)
  }

  /** ... and lets go of its tunnel. */
  function Abandon(
    s: State, t: TaskId, reset: TaskId, op: int, tunnel: TunnelId, place: Place, task: Task): (r: State)
    ensures Grows(s, r)
  {
    SpawnReset(Put(Move(s, tunnel, place), t, task), reset, op)
  }

  // ----- starting

  /** An idle service accepts: the operation's guard goes to the spawned start task. */
  function Accepted(s: State, t: TaskId, worker: TaskId, mode: Mode, op: int): (r: State)
    ensures Grows(s, r)
  {
    Publish(s.(service := Starting(op, None), issued := s.issued + 1, guards := s.guards[op := worker],
               starters := s.starters[op := t],
               tasks := s.tasks[t := StartAccepted(op, worker)][worker := Connecting(op, mode)]),
            Pending(StartingPhase, mode))
  }

  function Accept(s: State, t: TaskId, worker: TaskId, mode: Mode): (r: State)
    ensures Grows(s, r)
  {
    if !Free(s) then s
    else if !s.service.Idle? then Put(s, t, StartReturned(Busy))
    else if worker in s.tasks || worker == t then s
    else Accepted(s, t, worker, mode, OperationId(s.issued))
  }

  function AttachWorker(s: State, t: TaskId, op: int, worker: TaskId): (r: State)
    ensures Grows(s, r)
  {
    if !Free(s) then s
    else if s.service.Starting? && s.service.op == op
    then Put(s.(service := Attach(s.service, op, worker)), t, StartReturned(Fine))
    else Put(s.(aborts := s.aborts + {worker}), t, StartReturned(Fine))
  }

  /** The tunnel exists from here on; a fresh id names it. */
  function Establish(s: State, t: TaskId, op: int, mode: Mode, tunnel: TunnelId): (r: State)
    ensures Grows(s, r)
  {
    if tunnel in s.places then s
    else Put(Move(s, tunnel, WithTask(t)), t, Connected(op, mode, tunnel))
  }

  /** The first read of the tunnel's status fails: the tunnel and the guard are dropped. */
  function LoseStatus(s: State, t: TaskId, reset: TaskId, op: int, tunnel: TunnelId): (r: State)
    ensures Grows(s, r)
  {
    if reset in s.tasks then s else Abandon(s, t, reset, op, tunnel, Reaping, Reporting)
  }

  /** Under the lock: the event task is spawned and the state set, the status still to come. */
  function Activate(s: State, t: TaskId, op: int, mode: Mode, tunnel: TunnelId): (r: State)
    ensures Grows(s, r)
  {
    if !Free(s) then s
    else if s.service.Starting? && s.service.op == op then
      Put(Disarm(Move(s.(service := Active(tunnel, mode), holder := Some(t), events := s.events[tunnel := Running(mode)]),
                      tunnel, WithService), op),
          t, Activating(mode, tunnel))
    else Put(s, t, Surplus(op, tunnel))
  }

  function PublishingActive(s: State, t: TaskId, mode: Mode, tunnel: TunnelId, connections: int): (r: State)
    ensures Grows(s, r)
  {
    Put(Publish(s, ActiveStatus(tunnel, mode, connections, None)).(holder := None), t, WorkerEnded)
  }

  function DiscardSurplus(s: State, t: TaskId, reset: TaskId, op: int, tunnel: TunnelId): (r: State)
    ensures Grows(s, r)
  {
    if reset in s.tasks then s
    else Abandon(s, t, reset, op, tunnel, Closed, WorkerEnded)
  }

  function FailIn(s: State, t: TaskId, op: int): (r: State)
    ensures Grows(s, r)
  {
    if !Free(s) then s else Put(Disarm(ResetIn(s, op), op), t, Reporting)
  }

  /** An abort takes effect where the start task awaits: its tunnel is dropped and
      its guard resets. */
  function Aborted(s: State, t: TaskId, reset: TaskId): (r: State)
    requires t in s.tasks
    ensures Grows(s, r)
  {
    if t !in s.aborts || reset in s.tasks then s
    else match s.tasks[t]
      case Connecting(op, _) => HandOver(s, t, reset, op, WorkerEnded)
      case Connected(op, _, tunnel) => Abandon(s, t, reset, op, tunnel, Reaping, WorkerEnded)
      case Surplus(op, tunnel) => Abandon(s, t, reset, op, tunnel, Reaping, WorkerEnded)
      case Failing(op) => HandOver(s, t, reset, op, WorkerEnded)
      case _ => s
  }

  // ----- stopping

  function AbortEvents(s: State, tunnel: TunnelId, mode: Mode): State {
    if tunnel in s.events && s.events[tunnel].Running? then s.(events := s.events[tunnel := Aborting(mode)]) else s
  }

  /** `begin_stop` of an active tunnel, up to its await: the lock stays held. */
  function TakeActive(s: State, t: TaskId, op: int, tunnel: TunnelId, mode: Mode): (r: State)
    ensures Grows(s, r)
  {
    Put(AbortEvents(Move(s.(issued := s.issued + 1, service := Idle, holder := Some(t)), tunnel, WithTask(t)), tunnel, mode),
        t, StopAwaitingEvents(op, tunnel, mode))
  }

  function CancelStart(s: State, t: TaskId, task: Option<TaskId>): (r: State)
    ensures Grows(s, r)
  {
    Put(Publish(s.(issued := s.issued + 1, service := Idle,
                   aborts := if task.Some? then s.aborts + {task.value} else s.aborts),
                IdleStatus()),
        t, StopReturned(Fine))
  }

  function BeginningStop(s: State, t: TaskId): (r: State)
    ensures Grows(s, r)
  {
    if !Free(s) then s
    else match s.service
      case Active(tunnel, mode) => TakeActive(s, t, OperationId(s.issued), tunnel, mode)
      case Starting(_, task) => CancelStart(s, t, task)
      case Idle => Put(s.(issued := s.issued + 1), t, StopReturned(NotRunning))
      case Stopping(_) => Put(s.(issued := s.issued + 1), t, StopReturned(Busy))
  }

  function StoppingShown(s: State, t: TaskId, op: int, tunnel: TunnelId, mode: Mode): (r: State)
    ensures Grows(s, r)
  {
    if tunnel in s.events && !s.events[tunnel].Over? then s
    else
      Put(Publish(s.(service := Stopping(op), holder := None, guards := s.guards[op := t],
                     stopped := s.stopped[tunnel := |s.log|]),
                  Pending(StoppingPhase, mode)),
          t, StopClosing(op, tunnel))
  }

  function FinishStopping(s: State, t: TaskId, op: int): (r: State)
    ensures Grows(s, r)
  {
    if !Free(s) then s else Put(Disarm(ResetIn(s, op), op), t, StopReturned(Fine))
  }

  /** Dropping the `stop` future. In the middle of `begin_stop` the state has been
      taken, nothing was published and no guard exists yet. */
  function DroppingStop(s: State, t: TaskId, reset: TaskId): (r: State)
    requires t in s.tasks
    ensures Grows(s, r)
  {
    match s.tasks[t]
    case StopCalled => Put(s, t, Ended)
    case StopAwaitingEvents(_, tunnel, _) => Put(Move(s.(holder := None), tunnel, Reaping), t, Ended)
    case StopClosing(op, tunnel) =>
      if reset in s.tasks then s else Abandon(s, t, reset, op, tunnel, Reaping, Ended)
    case StopFinishing(op) =>
      if reset in s.tasks then s else HandOver(s, t, reset, op, Ended)
    case _ => s
  }

  // ----- events

  function EventPublishing(s: State, tunnel: TunnelId, connections: int, lastError: Option<int>): (r: State)
    ensures Grows(s, r)
  {
    if tunnel !in s.events || s.events[tunnel].Over? then s
    else Publish(s, ActiveStatus(tunnel, s.events[tunnel].mode, connections, lastError))
  }

  // ----- the step function

  function StartStep(s: State, a: Action): (r: State)
    ensures Grows(s, r)
  {
    match a
    case CallStart(t, mode) => if t in s.tasks then s else Put(s, t, StartCalled(mode))
    case BeginStart(t, worker) =>
      if t in s.tasks && s.tasks[t].StartCalled? then Accept(s, t, worker, s.tasks[t].mode) else s
    case AttachTask(t) =>
      if t in s.tasks && s.tasks[t].StartAccepted? then AttachWorker(s, t, s.tasks[t].op, s.tasks[t].worker) else s
    case DropStart(t) =>
      if t in s.tasks && (s.tasks[t].StartCalled? || s.tasks[t].StartAccepted?) then Put(s, t, Ended) else s
    case Connect(t, tunnel) =>
      if t in s.tasks && s.tasks[t].Connecting? then Establish(s, t, s.tasks[t].op, s.tasks[t].mode, tunnel) else s
    case ConnectFails(t) =>
      if t in s.tasks && s.tasks[t].Connecting? then Put(s, t, Failing(s.tasks[t].op)) else s
    case _ => s
  }

  function WorkerStep(s: State, a: Action): (r: State)
    ensures Grows(s, r)
  {
    match a
    case StatusFails(t, reset) =>
      if t in s.tasks && s.tasks[t].Connected? then LoseStatus(s, t, reset, s.tasks[t].op, s.tasks[t].tunnel) else s
    case FinishStart(t) =>
      if t in s.tasks && s.tasks[t].Connected? then Activate(s, t, s.tasks[t].op, s.tasks[t].mode, s.tasks[t].tunnel) else s
    case PublishActive(t, connections) =>
      if t in s.tasks && s.tasks[t].Activating?
      then PublishingActive(s, t, s.tasks[t].mode, s.tasks[t].tunnel, connections) else s
    case CloseSurplus(t, reset) =>
      if t in s.tasks && s.tasks[t].Surplus? then DiscardSurplus(s, t, reset, s.tasks[t].op, s.tasks[t].tunnel) else s
    case FailStart(t) =>
      if t in s.tasks && s.tasks[t].Failing? then FailIn(s, t, s.tasks[t].op) else s
    case AbortNow(t, reset) => if t in s.tasks then Aborted(s, t, reset) else s
    case _ => s
  }

  /** `publish_error`, in one step or, as the code allows, with a pause between
      reading the status and publishing it again. */
  function ReportStep(s: State, a: Action): (r: State)
    ensures Grows(s, r)
  {
    match a
    case Report(t, category) =>
      if t in s.tasks && s.tasks[t].Reporting?
      then Put(Publish(s, s.status.(lastError := Some(category))), t, WorkerEnded) else s
    case ReportRead(t) =>
      if t in s.tasks && s.tasks[t].Reporting? then Put(s, t, ReportingStale(s.status)) else s
    case ReportWrite(t, category) =>
      if t in s.tasks && s.tasks[t].ReportingStale?
      then Put(Publish(s, s.tasks[t].read.(lastError := Some(category))), t, WorkerEnded) else s
    case _ => s
  }

  function StopStep(s: State, a: Action): (r: State)
    ensures Grows(s, r)
  {
    match a
    case CallStop(t) => if t in s.tasks then s else Put(s, t, StopCalled)
    case BeginStop(t) => if t in s.tasks && s.tasks[t].StopCalled? then BeginningStop(s, t) else s
    case EventsEnded(t) =>
      if t in s.tasks && s.tasks[t].StopAwaitingEvents?
      then StoppingShown(s, t, s.tasks[t].op, s.tasks[t].tunnel, s.tasks[t].mode) else s
    case TunnelClosed(t) =>
      if t in s.tasks && s.tasks[t].StopClosing?
      then Put(Move(s, s.tasks[t].tunnel, Closed), t, StopFinishing(s.tasks[t].op)) else s
    case FinishStop(t) =>
      if t in s.tasks && s.tasks[t].StopFinishing? then FinishStopping(s, t, s.tasks[t].op) else s
    case DropStop(t, reset) => if t in s.tasks then DroppingStop(s, t, reset) else s
    case RunReset(t) =>
      if t in s.tasks && s.tasks[t].Resetting? && Free(s)
      then Put(Disarm(ResetIn(s, s.tasks[t].op), s.tasks[t].op), t, Ended) else s
    case _ => s
  }

  function TunnelStep(s: State, a: Action): (r: State)
    ensures Grows(s, r)
  {
    match a
    case EventPublish(tunnel, connections, lastError) => EventPublishing(s, tunnel, connections, lastError)
    case EventTaskEnds(tunnel) =>
      if tunnel in s.events && s.events[tunnel].Aborting? then s.(events := s.events[tunnel := Over]) else s
    case Reaped(tunnel) =>
      if tunnel in s.places && s.places[tunnel].Reaping? then Move(s, tunnel, Closed) else s
    case _ => s
  }

  predicate StartAction(a: Action) {
    a.CallStart? || a.BeginStart? || a.AttachTask? || a.DropStart? || a.Connect? || a.ConnectFails?
  }

  predicate WorkerAction(a: Action) {
    a.StatusFails? || a.FinishStart? || a.PublishActive? || a.CloseSurplus? || a.FailStart? || a.AbortNow?
  }

  predicate ReportAction(a: Action) {
    a.Report? || a.ReportRead? || a.ReportWrite?
  }

  predicate StopAction(a: Action) {
    !StartAction(a) && !WorkerAction(a) && !ReportAction(a) && !TunnelAction(a)
  }

  predicate TunnelAction(a: Action) {
    a.EventPublish? || a.EventTaskEnds? || a.Reaped?
  }

  function Step(s: State, a: Action): (r: State)
    ensures Grows(s, r)
  {
    if StartAction(a) then StartStep(s, a)
    else if WorkerAction(a) then WorkerStep(s, a)
    else if ReportAction(a) then ReportStep(s, a)
    else if TunnelAction(a) then TunnelStep(s, a)
    else StopStep(s, a)
  }

  function Exec(s: State, schedule: seq<Action>): State {
    if schedule == [] then s else Step(Exec(s, schedule[..|schedule| - 1]), Last(schedule))
  }
}
