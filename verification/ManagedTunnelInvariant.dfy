/** What every step of the managed tunnel keeps, while fewer than 2^64 operation ids
    have been issued. */
module ManagedTunnelInvariant {
  import opened Prelude
  import opened ManagedTunnel

  /** The operation whose guard a task holds. */
  function GuardOf(task: Task): Option<int> {
    match task
    case Connecting(op, _) => Some(op)
    case Connected(op, _, _) => Some(op)
    case Surplus(op, _) => Some(op)
    case Failing(op) => Some(op)
    case StopClosing(op, _) => Some(op)
    case StopFinishing(op) => Some(op)
    case Resetting(op) => Some(op)
    case _ => None
  }

  /** The tunnel a task owns. */
  function TunnelOf(task: Task): Option<TunnelId> {
    match task
    case Connected(_, _, tunnel) => Some(tunnel)
    case Surplus(_, tunnel) => Some(tunnel)
    case StopAwaitingEvents(_, tunnel, _) => Some(tunnel)
    case StopClosing(_, tunnel) => Some(tunnel)
    case _ => None
  }

  predicate InStart(task: Task) {
    task.Connecting? || task.Connected? || task.Surplus? || task.Failing?
  }

  predicate Holds(task: Task) {
    task.Activating? || task.StopAwaitingEvents?
  }

  predicate InRange(op: int, issued: nat) {
    1 <= op <= issued
  }

  // ----- operations and guards

  ghost predicate GuardsOk(guards: map<int, TaskId>, tasks: map<TaskId, Task>, issued: nat) {
    && (forall op <- guards :: InRange(op, issued) && guards[op] in tasks && GuardOf(tasks[guards[op]]) == Some(op))
    && (forall t <- tasks :: GuardOf(tasks[t]).Some? ==>
          GuardOf(tasks[t]).value in guards && guards[GuardOf(tasks[t]).value] == t)
  }

  ghost predicate ServiceOk(service: Service, guards: map<int, TaskId>) {
    OperationOf(service).Some? ==> OperationOf(service).value in guards
  }

  ghost predicate HolderOk(holder: Option<TaskId>, service: Service, tasks: map<TaskId, Task>) {
    && (holder.Some? ==> holder.value in tasks && Holds(tasks[holder.value]))
    && (forall t <- tasks :: Holds(tasks[t]) ==> holder == Some(t))
    && (forall t <- tasks :: tasks[t].Activating? ==> service == Active(tasks[t].tunnel, tasks[t].mode))
    && (forall t <- tasks :: tasks[t].StopAwaitingEvents? ==> service == Idle)
  }

  /** `begin_stop` draws its id before it pauses and arms the guard after. */
  ghost predicate PausesOk(tasks: map<TaskId, Task>, guards: map<int, TaskId>, issued: nat) {
    forall t <- tasks :: tasks[t].StopAwaitingEvents? ==> InRange(tasks[t].op, issued) && tasks[t].op !in guards
  }

  ghost predicate ControlOk(s: State) {
    && GuardsOk(s.guards, s.tasks, s.issued)
    && ServiceOk(s.service, s.guards)
    && HolderOk(s.holder, s.service, s.tasks)
    && PausesOk(s.tasks, s.guards, s.issued)
  }

  // ----- attaching

  ghost predicate CallersOk(tasks: map<TaskId, Task>, starters: map<int, TaskId>, service: Service) {
    forall t <- tasks :: tasks[t].StartAccepted? ==>
      && tasks[t].op in starters && starters[tasks[t].op] == t
      && (service.Starting? && service.op == tasks[t].op ==> service.task.None?)
  }

  ghost predicate StartersOk(starters: map<int, TaskId>, issued: nat, tasks: map<TaskId, Task>) {
    forall op <- starters :: InRange(op, issued) && starters[op] in tasks
  }

  /** A start task that still holds its guard can be found: by its caller, in the
      state, among the aborted, or else its caller was dropped. */
  ghost predicate Reachable(
    w: TaskId, op: int, service: Service, aborts: set<TaskId>, starters: map<int, TaskId>, tasks: map<TaskId, Task>)
  {
    || service == Starting(op, Some(w))
    || w in aborts
    || (op in starters && starters[op] in tasks
        && (tasks[starters[op]] == StartAccepted(op, w) || tasks[starters[op]].Ended?))
  }

  ghost predicate WorkersOk(
    service: Service, aborts: set<TaskId>, starters: map<int, TaskId>, tasks: map<TaskId, Task>)
  {
    forall w <- tasks :: InStart(tasks[w]) ==> Reachable(w, tasks[w].op, service, aborts, starters, tasks)
  }

  predicate InStop(task: Task) {
    task.StopAwaitingEvents? || task.StopClosing? || task.StopFinishing?
  }

  /** Start and stop operations never share an id, and the guard of a stop always
      finds its own Stopping state. */
  ghost predicate StopsOk(
    tasks: map<TaskId, Task>, guards: map<int, TaskId>, starters: map<int, TaskId>, service: Service)
  {
    && (forall t <- tasks :: InStop(tasks[t]) ==> tasks[t].op !in starters)
    && (forall t <- tasks :: InStart(tasks[t]) ==> tasks[t].op in starters)
    && (forall op <- guards :: op in starters || service == Stopping(op))
  }

  ghost predicate AttachOk(s: State) {
    && StopsOk(s.tasks, s.guards, s.starters, s.service)
    && CallersOk(s.tasks, s.starters, s.service)
    && StartersOk(s.starters, s.issued, s.tasks)
    && WorkersOk(s.service, s.aborts, s.starters, s.tasks)
  }

  // ----- tunnels

  ghost predicate OwnersOk(places: map<TunnelId, Place>, tasks: map<TaskId, Task>) {
    && (forall x <- places :: places[x].WithTask? ==>
          places[x].t in tasks && TunnelOf(tasks[places[x].t]) == Some(x))
    && (forall t <- tasks :: TunnelOf(tasks[t]).Some? ==>
          TunnelOf(tasks[t]).value in places && places[TunnelOf(tasks[t]).value] == WithTask(t))
  }

  ghost predicate ServedOk(places: map<TunnelId, Place>, service: Service) {
    && (forall x <- places :: places[x].WithService? ==> service.Active? && service.tunnel == x)
    && (service.Active? ==> service.tunnel in places && places[service.tunnel].WithService?)
  }

  ghost predicate EventsOk(
    events: map<TunnelId, EventTask>, places: map<TunnelId, Place>, service: Service, tasks: map<TaskId, Task>,
    stopped: map<TunnelId, int>)
  {
    && (forall x <- events :: x in places)
    && (service.Active? ==> service.tunnel in events && events[service.tunnel] == Running(service.mode))
    && (forall t <- tasks :: tasks[t].Connected? ==> tasks[t].tunnel !in events)
    && (forall t <- tasks :: tasks[t].StopAwaitingEvents? ==>
          tasks[t].tunnel in events && tasks[t].tunnel !in stopped)
    && (forall x <- stopped :: x in events && events[x].Over?)
  }

  ghost predicate TunnelsOk(s: State) {
    && OwnersOk(s.places, s.tasks)
    && ServedOk(s.places, s.service)
    && EventsOk(s.events, s.places, s.service, s.tasks, s.stopped)
  }

  ghost predicate Inv(s: State) {
    ControlOk(s) && AttachOk(s) && TunnelsOk(s)
  }

  /** A task that no clause of the invariant speaks of. */
  predicate Neutral(task: Task) {
    GuardOf(task).None? && TunnelOf(task).None? && !Holds(task) && !task.StartAccepted?
  }

  lemma NeutralKeepsControl(s: State, t: TaskId, task: Task)
    requires ControlOk(s) && Neutral(task) && (t in s.tasks ==> Neutral(s.tasks[t]) && !s.tasks[t].Ended?)
    ensures ControlOk(Put(s, t, task))
  {
  }

  lemma NeutralKeepsAttach(s: State, t: TaskId, task: Task)
    requires ControlOk(s) && AttachOk(s) && Neutral(task) && (t in s.tasks ==> Neutral(s.tasks[t]) && !s.tasks[t].Ended?)
    ensures AttachOk(Put(s, t, task))
  {
  }

  lemma NeutralKeepsTunnels(s: State, t: TaskId, task: Task)
    requires ControlOk(s) && TunnelsOk(s) && Neutral(task) && (t in s.tasks ==> Neutral(s.tasks[t]) && !s.tasks[t].Ended?)
    ensures TunnelsOk(Put(s, t, task))
  {
  }

  lemma NeutralKeepsInv(s: State, t: TaskId, task: Task)
    requires Inv(s) && Neutral(task) && (t in s.tasks ==> Neutral(s.tasks[t]) && !s.tasks[t].Ended?)
    ensures Inv(Put(s, t, task))
  {
    NeutralKeepsControl(s, t, task);
    NeutralKeepsAttach(s, t, task);
    NeutralKeepsTunnels(s, t, task);
  }

  lemma PublishKeepsInv(s: State, status: Status)
    requires Inv(s)
    ensures Inv(Publish(s, status))
  {
  }

  /** The holder of a guard resets its operation and is done. */
  function Settle(s: State, t: TaskId, op: int, task: Task): State {
    Put(Disarm(s.(service := if OperationOf(s.service) == Some(op) then Idle else s.service), op), t, task)
  }

  lemma SettleKeepsControl(s: State, t: TaskId, op: int, task: Task)
    requires ControlOk(s) && t in s.tasks && GuardOf(s.tasks[t]) == Some(op) && TunnelOf(s.tasks[t]).None? && Neutral(task)
    ensures ControlOk(Settle(s, t, op, task))
  {
  }

  lemma SettleKeepsAttach(s: State, t: TaskId, op: int, task: Task)
    requires ControlOk(s) && AttachOk(s) && t in s.tasks && GuardOf(s.tasks[t]) == Some(op) && TunnelOf(s.tasks[t]).None? && Neutral(task)
    ensures AttachOk(Settle(s, t, op, task))
  {
  }

  lemma SettleKeepsTunnels(s: State, t: TaskId, op: int, task: Task)
    requires ControlOk(s) && TunnelsOk(s) && t in s.tasks && GuardOf(s.tasks[t]) == Some(op) && TunnelOf(s.tasks[t]).None? && Neutral(task)
    ensures TunnelsOk(Settle(s, t, op, task))
  {
  }

  lemma SettleKeepsInv(s: State, t: TaskId, op: int, task: Task)
    requires Inv(s) && t in s.tasks && GuardOf(s.tasks[t]) == Some(op) && TunnelOf(s.tasks[t]).None? && Neutral(task)
    ensures Inv(Settle(s, t, op, task))
  {
    SettleKeepsControl(s, t, op, task);
    SettleKeepsAttach(s, t, op, task);
    SettleKeepsTunnels(s, t, op, task);
  }

  lemma HandedGuardsOk(
    guards: map<int, TaskId>, tasks: map<TaskId, Task>, issued: nat, t: TaskId, op: int, task: Task, reset: TaskId)
    requires GuardsOk(guards, tasks, issued) && t in tasks && GuardOf(tasks[t]) == Some(op) && GuardOf(task).None?
    requires reset !in tasks
    ensures GuardsOk(guards[op := reset], tasks[t := task][reset := Resetting(op)], issued)
  {
  }

  lemma HandOverKeepsControl(s: State, t: TaskId, reset: TaskId, op: int, task: Task)
    requires ControlOk(s) && t in s.tasks && GuardOf(s.tasks[t]) == Some(op) && TunnelOf(s.tasks[t]).None? && Neutral(task)
    requires reset !in s.tasks
    ensures ControlOk(HandOver(s, t, reset, op, task))
  {
    HandedGuardsOk(s.guards, s.tasks, s.issued, t, op, task, reset);
  }

  lemma HandedStopsOk(
    tasks: map<TaskId, Task>, guards: map<int, TaskId>, starters: map<int, TaskId>, service: Service, t: TaskId, op: int,
    task: Task, reset: TaskId)
    requires StopsOk(tasks, guards, starters, service) && op in guards && !InStop(task) && !InStart(task)
    ensures StopsOk(tasks[t := task][reset := Resetting(op)], guards[op := reset], starters, service)
  {
  }

  lemma HandedWorkersOk(
    service: Service, aborts: set<TaskId>, starters: map<int, TaskId>, tasks: map<TaskId, Task>, t: TaskId, op: int,
    task: Task, reset: TaskId)
    requires WorkersOk(service, aborts, starters, tasks) && t in tasks && GuardOf(tasks[t]) == Some(op) && Neutral(task)
    requires reset !in tasks
    ensures WorkersOk(service, aborts, starters, tasks[t := task][reset := Resetting(op)])
  {
  }

  lemma HandOverKeepsAttach(s: State, t: TaskId, reset: TaskId, op: int, task: Task)
    requires ControlOk(s) && AttachOk(s) && t in s.tasks && GuardOf(s.tasks[t]) == Some(op) && TunnelOf(s.tasks[t]).None? && Neutral(task)
    requires reset !in s.tasks
    ensures AttachOk(HandOver(s, t, reset, op, task))
  {
    HandedStopsOk(s.tasks, s.guards, s.starters, s.service, t, op, task, reset);
    HandedWorkersOk(s.service, s.aborts, s.starters, s.tasks, t, op, task, reset);
  }

  lemma HandOverKeepsTunnels(s: State, t: TaskId, reset: TaskId, op: int, task: Task)
    requires ControlOk(s) && TunnelsOk(s) && t in s.tasks && GuardOf(s.tasks[t]) == Some(op) && TunnelOf(s.tasks[t]).None? && Neutral(task)
    requires reset !in s.tasks
    ensures TunnelsOk(HandOver(s, t, reset, op, task))
  {
  }

  lemma HandOverKeepsInv(s: State, t: TaskId, reset: TaskId, op: int, task: Task)
    requires Inv(s) && t in s.tasks && GuardOf(s.tasks[t]) == Some(op) && TunnelOf(s.tasks[t]).None? && Neutral(task)
    requires reset !in s.tasks
    ensures Inv(HandOver(s, t, reset, op, task))
  {
    HandOverKeepsControl(s, t, reset, op, task);
    HandOverKeepsAttach(s, t, reset, op, task);
    HandOverKeepsTunnels(s, t, reset, op, task);
  }

  lemma LetGoKeepsControl(s: State, t: TaskId, tunnel: TunnelId, op: int, place: Place, task: Task)
    requires ControlOk(s) && t in s.tasks && GuardOf(s.tasks[t]) == Some(op) && TunnelOf(s.tasks[t]) == Some(tunnel)
    requires (place.Closed? || place.Reaping?) && GuardOf(task) == Some(op) && TunnelOf(task).None? && !InStart(task)
    requires task.StopFinishing? ==> InStop(s.tasks[t])
    ensures ControlOk(Put(Move(s, tunnel, place), t, task))
  {
  }

  lemma LetGoKeepsAttach(s: State, t: TaskId, tunnel: TunnelId, op: int, place: Place, task: Task)
    requires ControlOk(s) && AttachOk(s) && t in s.tasks && GuardOf(s.tasks[t]) == Some(op) && TunnelOf(s.tasks[t]) == Some(tunnel)
    requires (place.Closed? || place.Reaping?) && GuardOf(task) == Some(op) && TunnelOf(task).None? && !InStart(task)
    requires task.StopFinishing? ==> InStop(s.tasks[t])
    ensures AttachOk(Put(Move(s, tunnel, place), t, task))
  {
  }

  lemma LetGoKeepsTunnels(s: State, t: TaskId, tunnel: TunnelId, op: int, place: Place, task: Task)
    requires ControlOk(s) && TunnelsOk(s) && t in s.tasks && GuardOf(s.tasks[t]) == Some(op) && TunnelOf(s.tasks[t]) == Some(tunnel)
    requires (place.Closed? || place.Reaping?) && GuardOf(task) == Some(op) && TunnelOf(task).None? && !InStart(task)
    requires task.StopFinishing? ==> InStop(s.tasks[t])
    ensures TunnelsOk(Put(Move(s, tunnel, place), t, task))
  {
  }

  lemma LetGoKeepsInv(s: State, t: TaskId, tunnel: TunnelId, op: int, place: Place, task: Task)
    requires Inv(s) && t in s.tasks && GuardOf(s.tasks[t]) == Some(op) && TunnelOf(s.tasks[t]) == Some(tunnel)
    requires (place.Closed? || place.Reaping?) && GuardOf(task) == Some(op) && TunnelOf(task).None? && !InStart(task)
    requires task.StopFinishing? ==> InStop(s.tasks[t])
    ensures Inv(Put(Move(s, tunnel, place), t, task))
  {
    LetGoKeepsControl(s, t, tunnel, op, place, task);
    LetGoKeepsAttach(s, t, tunnel, op, place, task);
    LetGoKeepsTunnels(s, t, tunnel, op, place, task);
  }

  lemma ArmedGuardsOk(
    guards: map<int, TaskId>, tasks: map<TaskId, Task>, issued: nat, t: TaskId, op: int, task: Task, after: nat)
    requires GuardsOk(guards, tasks, issued) && op !in guards && GuardOf(task) == Some(op)
    requires issued <= after && InRange(op, after)
    requires t in tasks ==> GuardOf(tasks[t]).None?
    ensures GuardsOk(guards[op := t], tasks[t := task], after)
  {
  }

  lemma UnguardedGuardsOk(guards: map<int, TaskId>, tasks: map<TaskId, Task>, issued: nat, t: TaskId, task: Task)
    requires GuardsOk(guards, tasks, issued) && GuardOf(task).None?
    requires t in tasks ==> GuardOf(tasks[t]).None?
    ensures GuardsOk(guards, tasks[t := task], issued)
  {
  }

  lemma AcceptKeepsControl(s: State, t: TaskId, worker: TaskId, mode: Mode, op: int)
    requires ControlOk(s) && t in s.tasks && s.tasks[t].StartCalled?
    requires Free(s) && s.service.Idle? && worker !in s.tasks && op == s.issued + 1
    ensures ControlOk(Accepted(s, t, worker, mode, op))
  {
    UnguardedGuardsOk(s.guards, s.tasks, s.issued, t, StartAccepted(op, worker));
    ArmedGuardsOk(s.guards, s.tasks[t := StartAccepted(op, worker)], s.issued, worker, op, Connecting(op, mode), op);
  }

  lemma AcceptedWorkersOk(
    aborts: set<TaskId>, starters: map<int, TaskId>, tasks: map<TaskId, Task>, t: TaskId, worker: TaskId, mode: Mode, op: int)
    requires WorkersOk(Idle, aborts, starters, tasks) && t in tasks && tasks[t].StartCalled? && worker !in tasks
    requires op !in starters
    ensures WorkersOk(Starting(op, None), aborts, starters[op := t],
                      tasks[t := StartAccepted(op, worker)][worker := Connecting(op, mode)])
  {
    var after := tasks[t := StartAccepted(op, worker)][worker := Connecting(op, mode)];
    forall w <- after | InStart(after[w])
      ensures Reachable(w, after[w].op, Starting(op, None), aborts, starters[op := t], after)
    {
      if w != worker {
        assert Reachable(w, tasks[w].op, Idle, aborts, starters, tasks);
      }
    }
  }

  lemma AcceptedStopsOk(
    tasks: map<TaskId, Task>, guards: map<int, TaskId>, starters: map<int, TaskId>, t: TaskId, worker: TaskId, mode: Mode,
    op: int)
    requires StopsOk(tasks, guards, starters, Idle) && forall u <- tasks :: InStop(tasks[u]) ==> tasks[u].op != op
    ensures StopsOk(tasks[t := StartAccepted(op, worker)][worker := Connecting(op, mode)], guards[op := worker],
                    starters[op := t], Starting(op, None))
  {
  }

  lemma AcceptKeepsAttach(s: State, t: TaskId, worker: TaskId, mode: Mode, op: int)
    requires ControlOk(s) && AttachOk(s) && t in s.tasks && s.tasks[t].StartCalled?
    requires Free(s) && s.service.Idle? && worker !in s.tasks && op == s.issued + 1
    ensures AttachOk(Accepted(s, t, worker, mode, op))
  {
    AcceptedWorkersOk(s.aborts, s.starters, s.tasks, t, worker, mode, op);
    AcceptedStopsOk(s.tasks, s.guards, s.starters, t, worker, mode, op);
  }

  lemma AcceptKeepsTunnels(s: State, t: TaskId, worker: TaskId, mode: Mode, op: int)
    requires ControlOk(s) && TunnelsOk(s) && t in s.tasks && s.tasks[t].StartCalled?
    requires Free(s) && s.service.Idle? && worker !in s.tasks && op == s.issued + 1
    ensures TunnelsOk(Accepted(s, t, worker, mode, op))
  {
  }

  lemma AcceptKeepsInv(s: State, t: TaskId, worker: TaskId, mode: Mode)
    requires Inv(s) && t in s.tasks && s.tasks[t].StartCalled? && s.issued < U64_MAX
    ensures Inv(Accept(s, t, worker, mode))
  {
    if Free(s) && !s.service.Idle? {
      NeutralKeepsInv(s, t, StartReturned(Busy));
    } else if Free(s) && worker !in s.tasks {
      OperationIdsCount(s.issued);
      var op := OperationId(s.issued);
      AcceptKeepsControl(s, t, worker, mode, op);
      AcceptKeepsAttach(s, t, worker, mode, op);
      AcceptKeepsTunnels(s, t, worker, mode, op);
    }
  }

  lemma AttachKeepsControl(s: State, t: TaskId, op: int, worker: TaskId)
    requires ControlOk(s) && t in s.tasks && s.tasks[t] == StartAccepted(op, worker)
    requires s.service.Starting? && s.service.op == op
    ensures ControlOk(Put(s.(service := Starting(op, Some(worker))), t, StartReturned(Fine)))
  {
  }

  lemma AttachKeepsAttach(s: State, t: TaskId, op: int, worker: TaskId)
    requires ControlOk(s) && AttachOk(s) && t in s.tasks && s.tasks[t] == StartAccepted(op, worker)
    requires s.service.Starting? && s.service.op == op
    ensures AttachOk(Put(s.(service := Starting(op, Some(worker))), t, StartReturned(Fine)))
  {
  }

  lemma AttachKeepsTunnels(s: State, t: TaskId, op: int, worker: TaskId)
    requires ControlOk(s) && TunnelsOk(s) && t in s.tasks && s.tasks[t] == StartAccepted(op, worker)
    requires s.service.Starting? && s.service.op == op
    ensures TunnelsOk(Put(s.(service := Starting(op, Some(worker))), t, StartReturned(Fine)))
  {
  }

  lemma AbortKeepsAttach(s: State, t: TaskId, op: int, worker: TaskId)
    requires ControlOk(s) && AttachOk(s) && t in s.tasks && s.tasks[t] == StartAccepted(op, worker)
    ensures AttachOk(Put(s.(aborts := s.aborts + {worker}), t, StartReturned(Fine)))
  {
  }

  lemma AttachKeepsInv(s: State, t: TaskId, op: int, worker: TaskId)
    requires Inv(s) && t in s.tasks && s.tasks[t] == StartAccepted(op, worker)
    ensures Inv(AttachWorker(s, t, op, worker))
  {
    if Free(s) && s.service.Starting? && s.service.op == op {
      AttachKeepsControl(s, t, op, worker);
      AttachKeepsAttach(s, t, op, worker);
      AttachKeepsTunnels(s, t, op, worker);
    } else if Free(s) {
      AbortKeepsAttach(s, t, op, worker);
      var aborting := s.(aborts := s.aborts + {worker});
      AcceptedToReturnedControl(aborting, t);
      AcceptedToReturnedTunnels(aborting, t);
    }
  }

  lemma AcceptedToReturnedControl(s: State, t: TaskId)
    requires ControlOk(s) && t in s.tasks && s.tasks[t].StartAccepted?
    ensures ControlOk(Put(s, t, StartReturned(Fine)))
  {
  }

  lemma AcceptedToReturnedTunnels(s: State, t: TaskId)
    requires TunnelsOk(s) && t in s.tasks && s.tasks[t].StartAccepted?
    ensures TunnelsOk(Put(s, t, StartReturned(Fine)))
  {
  }

  lemma DetachKeepsInv(s: State, t: TaskId, op: int, worker: TaskId)
    requires Inv(s) && t in s.tasks && s.tasks[t] == StartAccepted(op, worker)
    ensures Inv(Put(s, t, Ended))
  {
  }

  lemma EstablishKeepsControl(s: State, t: TaskId, op: int, mode: Mode, tunnel: TunnelId)
    requires ControlOk(s) && t in s.tasks && s.tasks[t] == Connecting(op, mode)
    ensures ControlOk(Establish(s, t, op, mode, tunnel))
  {
  }

  lemma EstablishKeepsAttach(s: State, t: TaskId, op: int, mode: Mode, tunnel: TunnelId)
    requires ControlOk(s) && AttachOk(s) && t in s.tasks && s.tasks[t] == Connecting(op, mode)
    ensures AttachOk(Establish(s, t, op, mode, tunnel))
  {
  }

  lemma EstablishKeepsTunnels(s: State, t: TaskId, op: int, mode: Mode, tunnel: TunnelId)
    requires ControlOk(s) && TunnelsOk(s) && t in s.tasks && s.tasks[t] == Connecting(op, mode)
    ensures TunnelsOk(Establish(s, t, op, mode, tunnel))
  {
  }

  lemma EstablishKeepsInv(s: State, t: TaskId, op: int, mode: Mode, tunnel: TunnelId)
    requires Inv(s) && t in s.tasks && s.tasks[t] == Connecting(op, mode)
    ensures Inv(Establish(s, t, op, mode, tunnel))
  {
    EstablishKeepsControl(s, t, op, mode, tunnel);
    EstablishKeepsAttach(s, t, op, mode, tunnel);
    EstablishKeepsTunnels(s, t, op, mode, tunnel);
  }

  lemma SameRoleKeepsControl(s: State, t: TaskId, task: Task)
    requires ControlOk(s) && t in s.tasks && InStart(s.tasks[t]) && InStart(task) && !task.Connected?
    requires task.op == s.tasks[t].op && TunnelOf(task) == TunnelOf(s.tasks[t])
    ensures ControlOk(Put(s, t, task))
  {
  }

  lemma SameRoleKeepsAttach(s: State, t: TaskId, task: Task)
    requires ControlOk(s) && AttachOk(s) && t in s.tasks && InStart(s.tasks[t]) && InStart(task) && !task.Connected?
    requires task.op == s.tasks[t].op && TunnelOf(task) == TunnelOf(s.tasks[t])
    ensures AttachOk(Put(s, t, task))
  {
  }

  lemma SameRoleKeepsTunnels(s: State, t: TaskId, task: Task)
    requires ControlOk(s) && TunnelsOk(s) && t in s.tasks && InStart(s.tasks[t]) && InStart(task) && !task.Connected?
    requires task.op == s.tasks[t].op && TunnelOf(task) == TunnelOf(s.tasks[t])
    ensures TunnelsOk(Put(s, t, task))
  {
  }

  lemma SameRoleKeepsInv(s: State, t: TaskId, task: Task)
    requires Inv(s) && t in s.tasks && InStart(s.tasks[t]) && InStart(task) && !task.Connected?
    requires task.op == s.tasks[t].op && TunnelOf(task) == TunnelOf(s.tasks[t])
    ensures Inv(Put(s, t, task))
  {
    SameRoleKeepsControl(s, t, task);
    SameRoleKeepsAttach(s, t, task);
    SameRoleKeepsTunnels(s, t, task);
  }

  lemma ActivateKeepsControl(s: State, t: TaskId, op: int, mode: Mode, tunnel: TunnelId)
    requires ControlOk(s) && t in s.tasks && s.tasks[t] == Connected(op, mode, tunnel)
    requires Free(s) && s.service.Starting? && s.service.op == op
    ensures ControlOk(Activate(s, t, op, mode, tunnel))
  {
  }

  lemma ActivateKeepsAttach(s: State, t: TaskId, op: int, mode: Mode, tunnel: TunnelId)
    requires ControlOk(s) && AttachOk(s) && t in s.tasks && s.tasks[t] == Connected(op, mode, tunnel)
    requires Free(s) && s.service.Starting? && s.service.op == op
    ensures AttachOk(Activate(s, t, op, mode, tunnel))
  {
  }

  lemma ActivateKeepsTunnels(s: State, t: TaskId, op: int, mode: Mode, tunnel: TunnelId)
    requires ControlOk(s) && TunnelsOk(s) && t in s.tasks && s.tasks[t] == Connected(op, mode, tunnel)
    requires Free(s) && s.service.Starting? && s.service.op == op
    ensures TunnelsOk(Activate(s, t, op, mode, tunnel))
  {
  }

  lemma ActivateKeepsInv(s: State, t: TaskId, op: int, mode: Mode, tunnel: TunnelId)
    requires Inv(s) && t in s.tasks && s.tasks[t] == Connected(op, mode, tunnel)
    requires Free(s) && s.service.Starting? && s.service.op == op
    ensures Inv(Activate(s, t, op, mode, tunnel))
  {
    ActivateKeepsControl(s, t, op, mode, tunnel);
    ActivateKeepsAttach(s, t, op, mode, tunnel);
    ActivateKeepsTunnels(s, t, op, mode, tunnel);
  }

  lemma ReleaseKeepsInv(s: State, t: TaskId)
    requires Inv(s) && t in s.tasks && s.tasks[t].Activating?
    ensures Inv(Put(s.(holder := None), t, WorkerEnded))
  {
  }

  lemma TakeActiveKeepsControl(s: State, t: TaskId, op: int, tunnel: TunnelId, mode: Mode)
    requires ControlOk(s) && t in s.tasks && s.tasks[t].StopCalled? && Free(s)
    requires s.service == Active(tunnel, mode) && op == s.issued + 1
    ensures ControlOk(TakeActive(s, t, op, tunnel, mode))
  {
  }

  lemma TakeActiveKeepsAttach(s: State, t: TaskId, op: int, tunnel: TunnelId, mode: Mode)
    requires ControlOk(s) && AttachOk(s) && t in s.tasks && s.tasks[t].StopCalled? && Free(s)
    requires s.service == Active(tunnel, mode) && op == s.issued + 1
    ensures AttachOk(TakeActive(s, t, op, tunnel, mode))
  {
  }

  lemma TakeActiveKeepsTunnels(s: State, t: TaskId, op: int, tunnel: TunnelId, mode: Mode)
    requires ControlOk(s) && TunnelsOk(s) && t in s.tasks && s.tasks[t].StopCalled? && Free(s)
    requires s.service == Active(tunnel, mode) && op == s.issued + 1
    ensures TunnelsOk(TakeActive(s, t, op, tunnel, mode))
  {
  }

  lemma TakeActiveKeepsInv(s: State, t: TaskId, op: int, tunnel: TunnelId, mode: Mode)
    requires Inv(s) && t in s.tasks && s.tasks[t].StopCalled? && Free(s)
    requires s.service == Active(tunnel, mode) && op == s.issued + 1
    ensures Inv(TakeActive(s, t, op, tunnel, mode))
  {
    TakeActiveKeepsControl(s, t, op, tunnel, mode);
    TakeActiveKeepsAttach(s, t, op, tunnel, mode);
    TakeActiveKeepsTunnels(s, t, op, tunnel, mode);
  }

  lemma CancelStartKeepsInv(s: State, t: TaskId, op: int, task: Option<TaskId>)
    requires Inv(s) && t in s.tasks && s.tasks[t].StopCalled? && s.service == Starting(op, task)
    ensures Inv(CancelStart(s, t, task))
  {
    var cancelled := s.(issued := s.issued + 1, service := Idle,
                        aborts := if task.Some? then s.aborts + {task.value} else s.aborts);
    assert Inv(cancelled);
    NeutralKeepsInv(cancelled, t, StopReturned(Fine));
    PublishKeepsInv(Put(cancelled, t, StopReturned(Fine)), IdleStatus());
  }

  lemma NothingToStopKeepsInv(s: State, t: TaskId, reply: Reply)
    requires Inv(s) && t in s.tasks && s.tasks[t].StopCalled?
    ensures Inv(Put(s.(issued := s.issued + 1), t, StopReturned(reply)))
  {
    assert Inv(s.(issued := s.issued + 1));
    NeutralKeepsInv(s.(issued := s.issued + 1), t, StopReturned(reply));
  }

  lemma TakingActiveKeepsInv(s: State, t: TaskId)
    requires Inv(s) && t in s.tasks && s.tasks[t].StopCalled? && Free(s) && s.issued < U64_MAX
    requires s.service.Active?
    ensures Inv(BeginningStop(s, t))
  {
    OperationIdsCount(s.issued);
    TakeActiveKeepsInv(s, t, OperationId(s.issued), s.service.tunnel, s.service.mode);
  }

  lemma TakeForStopKeepsInv(s: State, t: TaskId)
    requires Inv(s) && t in s.tasks && s.tasks[t].StopCalled? && s.issued < U64_MAX
    ensures Inv(BeginningStop(s, t))
  {
    if Free(s) {
      if s.service.Active? {
        TakingActiveKeepsInv(s, t);
      } else if s.service.Starting? {
        CancelStartKeepsInv(s, t, s.service.op, s.service.task);
        assert BeginningStop(s, t) == CancelStart(s, t, s.service.task);
      } else {
        NothingToStopKeepsInv(s, t, if s.service.Idle? then NotRunning else Busy);
      }
    }
  }

  lemma PublishStoppingKeepsControl(s: State, t: TaskId, op: int, tunnel: TunnelId, mode: Mode)
    requires ControlOk(s) && t in s.tasks && s.tasks[t] == StopAwaitingEvents(op, tunnel, mode)
    ensures ControlOk(StoppingShown(s, t, op, tunnel, mode))
  {
    ArmedGuardsOk(s.guards, s.tasks, s.issued, t, op, StopClosing(op, tunnel), s.issued);
  }

  lemma ArmedStopsOk(
    tasks: map<TaskId, Task>, guards: map<int, TaskId>, starters: map<int, TaskId>, t: TaskId, op: int, tunnel: TunnelId)
    requires StopsOk(tasks, guards, starters, Idle) && t in tasks && InStop(tasks[t]) && tasks[t].op == op
    ensures StopsOk(tasks[t := StopClosing(op, tunnel)], guards[op := t], starters, Stopping(op))
  {
  }

  lemma StoppingWorkersOk(
    aborts: set<TaskId>, starters: map<int, TaskId>, tasks: map<TaskId, Task>, t: TaskId, op: int, tunnel: TunnelId)
    requires WorkersOk(Idle, aborts, starters, tasks) && t in tasks && tasks[t].StopAwaitingEvents?
    ensures WorkersOk(Stopping(op), aborts, starters, tasks[t := StopClosing(op, tunnel)])
  {
  }

  lemma PublishStoppingKeepsAttach(s: State, t: TaskId, op: int, tunnel: TunnelId, mode: Mode)
    requires ControlOk(s) && AttachOk(s) && t in s.tasks && s.tasks[t] == StopAwaitingEvents(op, tunnel, mode)
    ensures AttachOk(StoppingShown(s, t, op, tunnel, mode))
  {
    ArmedStopsOk(s.tasks, s.guards, s.starters, t, op, tunnel);
    StoppingWorkersOk(s.aborts, s.starters, s.tasks, t, op, tunnel);
  }

  lemma PublishStoppingKeepsTunnels(s: State, t: TaskId, op: int, tunnel: TunnelId, mode: Mode)
    requires ControlOk(s) && TunnelsOk(s) && t in s.tasks && s.tasks[t] == StopAwaitingEvents(op, tunnel, mode)
    ensures TunnelsOk(StoppingShown(s, t, op, tunnel, mode))
  {
  }

  lemma PublishStoppingKeepsInv(s: State, t: TaskId, op: int, tunnel: TunnelId, mode: Mode)
    requires Inv(s) && t in s.tasks && s.tasks[t] == StopAwaitingEvents(op, tunnel, mode)
    ensures Inv(StoppingShown(s, t, op, tunnel, mode))
  {
    PublishStoppingKeepsControl(s, t, op, tunnel, mode);
    PublishStoppingKeepsAttach(s, t, op, tunnel, mode);
    PublishStoppingKeepsTunnels(s, t, op, tunnel, mode);
  }

  lemma DropInPauseKeepsControl(s: State, t: TaskId, op: int, tunnel: TunnelId, mode: Mode)
    requires ControlOk(s) && t in s.tasks && s.tasks[t] == StopAwaitingEvents(op, tunnel, mode)
    ensures ControlOk(Put(Move(s.(holder := None), tunnel, Reaping), t, Ended))
  {
  }

  lemma DropInPauseKeepsAttach(s: State, t: TaskId, op: int, tunnel: TunnelId, mode: Mode)
    requires ControlOk(s) && AttachOk(s) && t in s.tasks && s.tasks[t] == StopAwaitingEvents(op, tunnel, mode)
    ensures AttachOk(Put(Move(s.(holder := None), tunnel, Reaping), t, Ended))
  {
  }

  lemma DropInPauseKeepsTunnels(s: State, t: TaskId, op: int, tunnel: TunnelId, mode: Mode)
    requires ControlOk(s) && TunnelsOk(s) && t in s.tasks && s.tasks[t] == StopAwaitingEvents(op, tunnel, mode)
    ensures TunnelsOk(Put(Move(s.(holder := None), tunnel, Reaping), t, Ended))
  {
  }

  lemma DropInPauseKeepsInv(s: State, t: TaskId, op: int, tunnel: TunnelId, mode: Mode)
    requires Inv(s) && t in s.tasks && s.tasks[t] == StopAwaitingEvents(op, tunnel, mode)
    ensures Inv(Put(Move(s.(holder := None), tunnel, Reaping), t, Ended))
  {
    DropInPauseKeepsControl(s, t, op, tunnel, mode);
    DropInPauseKeepsAttach(s, t, op, tunnel, mode);
    DropInPauseKeepsTunnels(s, t, op, tunnel, mode);
  }

  lemma EventKeepsInv(s: State, a: Action)
    requires Inv(s) && TunnelAction(a)
    ensures Inv(TunnelStep(s, a))
  {
  }

  // ----- every step

  /** The owner of a tunnel lets it go and drops its guard. */
  lemma AbandonKeepsControl(s: State, t: TaskId, reset: TaskId, op: int, tunnel: TunnelId, place: Place, task: Task)
    requires ControlOk(s) && t in s.tasks && GuardOf(s.tasks[t]) == Some(op) && TunnelOf(s.tasks[t]) == Some(tunnel)
    requires (place.Closed? || place.Reaping?) && Neutral(task) && reset !in s.tasks
    ensures ControlOk(Abandon(s, t, reset, op, tunnel, place, task))
  {
    LetGoKeepsControl(s, t, tunnel, op, place, Resetting(op));
    var released := Put(Move(s, tunnel, place), t, Resetting(op));
    HandOverKeepsControl(released, t, reset, op, task);
    assert released.tasks[t := task] == s.tasks[t := task];
  }

  lemma AbandonKeepsAttach(s: State, t: TaskId, reset: TaskId, op: int, tunnel: TunnelId, place: Place, task: Task)
    requires ControlOk(s) && AttachOk(s) && t in s.tasks && GuardOf(s.tasks[t]) == Some(op) && TunnelOf(s.tasks[t]) == Some(tunnel)
    requires (place.Closed? || place.Reaping?) && Neutral(task) && reset !in s.tasks
    ensures AttachOk(Abandon(s, t, reset, op, tunnel, place, task))
  {
    LetGoKeepsControl(s, t, tunnel, op, place, Resetting(op));
    LetGoKeepsAttach(s, t, tunnel, op, place, Resetting(op));
    var released := Put(Move(s, tunnel, place), t, Resetting(op));
    HandOverKeepsAttach(released, t, reset, op, task);
    assert released.tasks[t := task] == s.tasks[t := task];
  }

  lemma AbandonKeepsTunnels(s: State, t: TaskId, reset: TaskId, op: int, tunnel: TunnelId, place: Place, task: Task)
    requires ControlOk(s) && TunnelsOk(s) && t in s.tasks && GuardOf(s.tasks[t]) == Some(op) && TunnelOf(s.tasks[t]) == Some(tunnel)
    requires (place.Closed? || place.Reaping?) && Neutral(task) && reset !in s.tasks
    ensures TunnelsOk(Abandon(s, t, reset, op, tunnel, place, task))
  {
    LetGoKeepsControl(s, t, tunnel, op, place, Resetting(op));
    LetGoKeepsTunnels(s, t, tunnel, op, place, Resetting(op));
    var released := Put(Move(s, tunnel, place), t, Resetting(op));
    HandOverKeepsTunnels(released, t, reset, op, task);
    assert released.tasks[t := task] == s.tasks[t := task];
  }

  lemma AbandonKeepsInv(s: State, t: TaskId, reset: TaskId, op: int, tunnel: TunnelId, place: Place, task: Task)
    requires Inv(s) && t in s.tasks && GuardOf(s.tasks[t]) == Some(op) && TunnelOf(s.tasks[t]) == Some(tunnel)
    requires (place.Closed? || place.Reaping?) && Neutral(task) && reset !in s.tasks
    ensures Inv(Abandon(s, t, reset, op, tunnel, place, task))
  {
    AbandonKeepsControl(s, t, reset, op, tunnel, place, task);
    AbandonKeepsAttach(s, t, reset, op, tunnel, place, task);
    AbandonKeepsTunnels(s, t, reset, op, tunnel, place, task);
  }

  lemma ResetKeepsInv(s: State, t: TaskId, op: int, task: Task)
    requires Inv(s) && t in s.tasks && GuardOf(s.tasks[t]) == Some(op) && TunnelOf(s.tasks[t]).None? && Neutral(task)
    ensures Inv(Put(Disarm(ResetIn(s, op), op), t, task))
  {
    SettleKeepsInv(s, t, op, task);
    if OperationOf(s.service) == Some(op) {
      PublishKeepsInv(Settle(s, t, op, task), IdleStatus());
    }
  }

  lemma StartStepKeepsInv(s: State, a: Action)
    requires Inv(s) && StartAction(a) && s.issued < U64_MAX
    ensures Inv(StartStep(s, a))
  {
    match a
    case CallStart(t, mode) =>
      if t !in s.tasks { NeutralKeepsInv(s, t, StartCalled(mode)); }
    case BeginStart(t, worker) =>
      if t in s.tasks && s.tasks[t].StartCalled? {
        AcceptKeepsInv(s, t, worker, s.tasks[t].mode);
      }
    case AttachTask(t) =>
      if t in s.tasks && s.tasks[t].StartAccepted? { AttachKeepsInv(s, t, s.tasks[t].op, s.tasks[t].worker); }
    case DropStart(t) =>
      if t in s.tasks && s.tasks[t].StartCalled? {
        NeutralKeepsInv(s, t, Ended);
      } else if t in s.tasks && s.tasks[t].StartAccepted? {
        DetachKeepsInv(s, t, s.tasks[t].op, s.tasks[t].worker);
      }
    case Connect(t, tunnel) =>
      if t in s.tasks && s.tasks[t].Connecting? { EstablishKeepsInv(s, t, s.tasks[t].op, s.tasks[t].mode, tunnel); }
    case ConnectFails(t) =>
      if t in s.tasks && s.tasks[t].Connecting? { SameRoleKeepsInv(s, t, Failing(s.tasks[t].op)); }
  }

  lemma AbortKeepsInv(s: State, t: TaskId, reset: TaskId)
    requires Inv(s) && t in s.tasks
    ensures Inv(Aborted(s, t, reset))
  {
    if t in s.aborts && reset !in s.tasks {
      match s.tasks[t]
      case Connecting(op, _) => HandOverKeepsInv(s, t, reset, op, WorkerEnded);
      case Connected(op, _, tunnel) => AbandonKeepsInv(s, t, reset, op, tunnel, Reaping, WorkerEnded);
      case Surplus(op, tunnel) => AbandonKeepsInv(s, t, reset, op, tunnel, Reaping, WorkerEnded);
      case Failing(op) => HandOverKeepsInv(s, t, reset, op, WorkerEnded);
      case _ =>
    }
  }

  lemma FinishStartKeepsInv(s: State, t: TaskId)
    requires Inv(s) && t in s.tasks && s.tasks[t].Connected?
    ensures Inv(Activate(s, t, s.tasks[t].op, s.tasks[t].mode, s.tasks[t].tunnel))
  {
    var task := s.tasks[t];
    if Free(s) && s.service.Starting? && s.service.op == task.op {
      ActivateKeepsInv(s, t, task.op, task.mode, task.tunnel);
    } else if Free(s) {
      SameRoleKeepsInv(s, t, Surplus(task.op, task.tunnel));
    }
  }

  lemma PublishActiveKeepsInv(s: State, t: TaskId, connections: int)
    requires Inv(s) && t in s.tasks && s.tasks[t].Activating?
    ensures Inv(PublishingActive(s, t, s.tasks[t].mode, s.tasks[t].tunnel, connections))
  {
    ReleaseKeepsInv(s, t);
    PublishKeepsInv(Put(s.(holder := None), t, WorkerEnded),
                    ActiveStatus(s.tasks[t].tunnel, s.tasks[t].mode, connections, None));
  }

  lemma WorkerStepKeepsInv(s: State, a: Action)
    requires Inv(s) && WorkerAction(a)
    ensures Inv(WorkerStep(s, a))
  {
    match a
    case StatusFails(t, reset) =>
      if t in s.tasks && s.tasks[t].Connected? && reset !in s.tasks {
        AbandonKeepsInv(s, t, reset, s.tasks[t].op, s.tasks[t].tunnel, Reaping, Reporting);
      }
    case FinishStart(t) =>
      if t in s.tasks && s.tasks[t].Connected? { FinishStartKeepsInv(s, t); }
    case PublishActive(t, connections) =>
      if t in s.tasks && s.tasks[t].Activating? { PublishActiveKeepsInv(s, t, connections); }
    case CloseSurplus(t, reset) =>
      if t in s.tasks && s.tasks[t].Surplus? && reset !in s.tasks {
        AbandonKeepsInv(s, t, reset, s.tasks[t].op, s.tasks[t].tunnel, Closed, WorkerEnded);
      }
    case FailStart(t) =>
      if t in s.tasks && s.tasks[t].Failing? && Free(s) { ResetKeepsInv(s, t, s.tasks[t].op, Reporting); }
    case AbortNow(t, reset) =>
      if t in s.tasks { AbortKeepsInv(s, t, reset); }
  }

  lemma ReportStepKeepsInv(s: State, a: Action)
    requires Inv(s) && ReportAction(a)
    ensures Inv(ReportStep(s, a))
  {
    match a
    case Report(t, category) =>
      if t in s.tasks && s.tasks[t].Reporting? {
        NeutralKeepsInv(s, t, WorkerEnded);
        PublishKeepsInv(Put(s, t, WorkerEnded), s.status.(lastError := Some(category)));
      }
    case ReportRead(t) =>
      if t in s.tasks && s.tasks[t].Reporting? { NeutralKeepsInv(s, t, ReportingStale(s.status)); }
    case ReportWrite(t, category) =>
      if t in s.tasks && s.tasks[t].ReportingStale? {
        NeutralKeepsInv(s, t, WorkerEnded);
        PublishKeepsInv(Put(s, t, WorkerEnded), s.tasks[t].read.(lastError := Some(category)));
      }
  }

  lemma DropStopKeepsInv(s: State, t: TaskId, reset: TaskId)
    requires Inv(s) && t in s.tasks
    ensures Inv(DroppingStop(s, t, reset))
  {
    match s.tasks[t]
    case StopCalled => NeutralKeepsInv(s, t, Ended);
    case StopAwaitingEvents(op, tunnel, mode) => DropInPauseKeepsInv(s, t, op, tunnel, mode);
    case StopClosing(op, tunnel) =>
      if reset !in s.tasks { AbandonKeepsInv(s, t, reset, op, tunnel, Reaping, Ended); }
    case StopFinishing(op) =>
      if reset !in s.tasks { HandOverKeepsInv(s, t, reset, op, Ended); }
    case _ =>
  }

  lemma TunnelClosedKeepsInv(s: State, t: TaskId)
    requires Inv(s) && t in s.tasks && s.tasks[t].StopClosing?
    ensures Inv(Put(Move(s, s.tasks[t].tunnel, Closed), t, StopFinishing(s.tasks[t].op)))
  {
    LetGoKeepsInv(s, t, s.tasks[t].tunnel, s.tasks[t].op, Closed, StopFinishing(s.tasks[t].op));
  }

  lemma EventsEndedKeepsInv(s: State, t: TaskId)
    requires Inv(s) && t in s.tasks && s.tasks[t].StopAwaitingEvents?
    ensures Inv(StoppingShown(s, t, s.tasks[t].op, s.tasks[t].tunnel, s.tasks[t].mode))
  {
    PublishStoppingKeepsInv(s, t, s.tasks[t].op, s.tasks[t].tunnel, s.tasks[t].mode);
  }

  lemma StopStepKeepsInv(s: State, a: Action)
    requires Inv(s) && StopAction(a) && s.issued < U64_MAX
    ensures Inv(StopStep(s, a))
  {
    match a
    case CallStop(t) =>
      if t !in s.tasks { NeutralKeepsInv(s, t, StopCalled); }
    case BeginStop(t) =>
      if t in s.tasks && s.tasks[t].StopCalled? { TakeForStopKeepsInv(s, t); }
    case EventsEnded(t) =>
      if t in s.tasks && s.tasks[t].StopAwaitingEvents? { EventsEndedKeepsInv(s, t); }
    case TunnelClosed(t) =>
      if t in s.tasks && s.tasks[t].StopClosing? { TunnelClosedKeepsInv(s, t); }
    case FinishStop(t) =>
      if t in s.tasks && s.tasks[t].StopFinishing? && Free(s) { ResetKeepsInv(s, t, s.tasks[t].op, StopReturned(Fine)); }
    case DropStop(t, reset) =>
      if t in s.tasks { DropStopKeepsInv(s, t, reset); }
    case RunReset(t) =>
      if t in s.tasks && s.tasks[t].Resetting? && Free(s) { ResetKeepsInv(s, t, s.tasks[t].op, Ended); }
  }

  lemma StepKeepsInv(s: State, a: Action)
    requires Inv(s) && s.issued < U64_MAX
    ensures Inv(Step(s, a))
  {
    if StartAction(a) {
      StartStepKeepsInv(s, a);
    } else if WorkerAction(a) {
      WorkerStepKeepsInv(s, a);
    } else if ReportAction(a) {
      ReportStepKeepsInv(s, a);
    } else if TunnelAction(a) {
      EventKeepsInv(s, a);
    } else {
      StopStepKeepsInv(s, a);
    }
  }

  lemma {:induction false} ExecKeepsInv(schedule: seq<Action>)
    requires Exec(Init(), schedule).issued < U64_MAX
    ensures Inv(Exec(Init(), schedule))
  {
    if schedule != [] {
      var before := Exec(Init(), schedule[..|schedule| - 1]);
      ExecKeepsInv(schedule[..|schedule| - 1]);
      StepKeepsInv(before, Last(schedule));
    }
  }
}
