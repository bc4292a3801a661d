/** What the managed tunnel guarantees over whole runs. */
module ManagedTunnelResults {
  import opened Prelude
  import opened ManagedTunnel
  import opened ManagedTunnelInvariant

  // ----- how the service state moves

  /** The task that takes a step, where a task does. */
  function ActorOf(a: Action): Option<TaskId> {
    match a
    case EventPublish(_, _, _) => None
    case EventTaskEnds(_) => None
    case Reaped(_) => None
    case _ => Some(a.t)
  }

  predicate Acts(s: State, a: Action) {
    ActorOf(a).Some? && ActorOf(a).value in s.tasks
  }

  function ActorIn(s: State, a: Action): Task
    requires Acts(s, a)
  {
    s.tasks[ActorOf(a).value]
  }

  /** Every way one step can change the service state, and who may do it. */
  ghost predicate Moves(s: State, a: Action, after: Service) {
    || after == s.service
    || (a.BeginStart? && s.service == Idle && after == Starting(OperationId(s.issued), None))
    || (Acts(s, a) && ActorIn(s, a).StartAccepted? && s.service == Starting(ActorIn(s, a).op, None)
        && after == Starting(ActorIn(s, a).op, Some(ActorIn(s, a).worker)))
    || (a.FinishStart? && Acts(s, a) && ActorIn(s, a).Connected? && s.service.Starting?
        && s.service.op == ActorIn(s, a).op && after == Active(ActorIn(s, a).tunnel, ActorIn(s, a).mode))
    || (a.BeginStop? && (s.service.Active? || s.service.Starting?) && after == Idle)
    || (Acts(s, a) && ActorIn(s, a).StopAwaitingEvents? && s.service == Idle && after == Stopping(ActorIn(s, a).op))
    || (Acts(s, a) && GuardOf(ActorIn(s, a)).Some? && GuardOf(ActorIn(s, a)) == OperationOf(s.service) && after == Idle)
  }

  lemma StartMoves(s: State, a: Action)
    requires HolderOk(s.holder, s.service, s.tasks) && CallersOk(s.tasks, s.starters, s.service) && StartAction(a)
    ensures Moves(s, a, StartStep(s, a).service)
  {
    match a
    case CallStart(t, mode) =>
    case BeginStart(t, worker) =>
    case AttachTask(t) =>
    case DropStart(t) =>
    case Connect(t, tunnel) =>
    case ConnectFails(t) =>
  }

  lemma WorkerMoves(s: State, a: Action)
    requires HolderOk(s.holder, s.service, s.tasks) && CallersOk(s.tasks, s.starters, s.service) && WorkerAction(a)
    ensures Moves(s, a, WorkerStep(s, a).service)
  {
    match a
    case StatusFails(t, reset) =>
    case FinishStart(t) =>
    case PublishActive(t, connections) =>
    case CloseSurplus(t, reset) =>
    case FailStart(t) =>
    case AbortNow(t, reset) =>
  }

  lemma BeginStopMoves(s: State, t: TaskId)
    requires t in s.tasks && s.tasks[t].StopCalled?
    ensures Moves(s, BeginStop(t), BeginningStop(s, t).service)
  {
    if Free(s) {
      if s.service.Active? {
        assert BeginningStop(s, t) == TakeActive(s, t, OperationId(s.issued), s.service.tunnel, s.service.mode);
      } else if s.service.Starting? {
        assert BeginningStop(s, t) == CancelStart(s, t, s.service.task);
      } else {
        assert BeginningStop(s, t).service == s.service;
      }
    }
  }

  /** A step that publishes nothing and leaves the service state. */
  predicate Silent(s: State, r: State) {
    r.service == s.service && r.status == s.status && r.log == s.log
  }

  lemma HandOverIsSilent(s: State, t: TaskId, reset: TaskId, op: int, task: Task)
    ensures Silent(s, HandOver(s, t, reset, op, task))
  {
  }

  lemma AbandonIsSilent(s: State, t: TaskId, reset: TaskId, op: int, tunnel: TunnelId, place: Place, task: Task)
    ensures Silent(s, Abandon(s, t, reset, op, tunnel, place, task))
  {
  }

  lemma AbortIsSilent(s: State, t: TaskId, reset: TaskId)
    requires t in s.tasks
    ensures Silent(s, Aborted(s, t, reset))
  {
    if t in s.aborts && reset !in s.tasks {
      match s.tasks[t]
      case Connecting(op, _) => HandOverIsSilent(s, t, reset, op, WorkerEnded);
      case Connected(op, _, tunnel) => AbandonIsSilent(s, t, reset, op, tunnel, Reaping, WorkerEnded);
      case Surplus(op, tunnel) => AbandonIsSilent(s, t, reset, op, tunnel, Reaping, WorkerEnded);
      case Failing(op) => HandOverIsSilent(s, t, reset, op, WorkerEnded);
      case _ =>
    }
  }

  lemma DropStopIsSilent(s: State, t: TaskId, reset: TaskId)
    requires t in s.tasks
    ensures Silent(s, DroppingStop(s, t, reset))
  {
    if reset !in s.tasks {
      match s.tasks[t]
      case StopClosing(op, tunnel) => AbandonIsSilent(s, t, reset, op, tunnel, Reaping, Ended);
      case StopFinishing(op) => HandOverIsSilent(s, t, reset, op, Ended);
      case _ =>
    }
  }

  lemma StopMoves(s: State, a: Action)
    requires HolderOk(s.holder, s.service, s.tasks) && CallersOk(s.tasks, s.starters, s.service) && StopAction(a)
    ensures Moves(s, a, StopStep(s, a).service)
  {
    match a
    case CallStop(t) =>
    case BeginStop(t) => if t in s.tasks && s.tasks[t].StopCalled? { BeginStopMoves(s, t); }
    case EventsEnded(t) =>
    case TunnelClosed(t) =>
    case FinishStop(t) =>
    case DropStop(t, reset) => if t in s.tasks { DropStopIsSilent(s, t, reset); }
    case RunReset(t) =>
  }

  lemma ServiceMoves(s: State, a: Action)
    requires Inv(s)
    ensures Moves(s, a, Step(s, a).service)
  {
    if StartAction(a) {
      StartMoves(s, a);
    } else if WorkerAction(a) {
      WorkerMoves(s, a);
    } else if StopAction(a) {
      StopMoves(s, a);
    }
  }

  // ----- operations

  /** The state becomes Active only by the start task that holds the guard of the
      operation in Starting. */
  lemma OnlyTheOperationActivates(schedule: seq<Action>, a: Action)
    requires Exec(Init(), schedule).issued < U64_MAX
    requires var s := Exec(Init(), schedule); !s.service.Active? && Step(s, a).service.Active?
    ensures var s := Exec(Init(), schedule);
            && s.service.Starting? && a.FinishStart?
            && a.t in s.tasks && s.tasks[a.t].Connected? && s.tasks[a.t].op == s.service.op
            && Step(s, a).service == Active(s.tasks[a.t].tunnel, s.tasks[a.t].mode)
            && (forall t <- s.tasks :: GuardOf(s.tasks[t]) == Some(s.service.op) ==> t == a.t)
  {
    ExecKeepsInv(schedule);
    ServiceMoves(Exec(Init(), schedule), a);
  }

  /** A start operation that the service has left. */
  predicate Superseded(s: State, op: int) {
    op in s.starters && OperationOf(s.service) != Some(op)
  }

  lemma SupersededStays(s: State, a: Action, op: int)
    requires Inv(s) && s.issued < U64_MAX && Superseded(s, op)
    ensures Superseded(Step(s, a), op)
  {
    ServiceMoves(s, a);
    OperationIdsCount(s.issued);
    assert Grows(s, Step(s, a));
  }

  lemma SupersededWorkerStep(s: State, a: Action)
    requires WorkerAction(a) && Acts(s, a)
    requires GuardOf(ActorIn(s, a)).Some? && GuardOf(ActorIn(s, a)) != OperationOf(s.service)
    ensures Silent(s, WorkerStep(s, a))
  {
    match a
    case StatusFails(t, reset) =>
      if s.tasks[t].Connected? && reset !in s.tasks {
        AbandonIsSilent(s, t, reset, s.tasks[t].op, s.tasks[t].tunnel, Reaping, Reporting);
      }
    case FinishStart(t) =>
    case PublishActive(t, connections) =>
    case CloseSurplus(t, reset) =>
      if s.tasks[t].Surplus? && reset !in s.tasks {
        AbandonIsSilent(s, t, reset, s.tasks[t].op, s.tasks[t].tunnel, Closed, WorkerEnded);
      }
    case FailStart(t) =>
    case AbortNow(t, reset) => AbortIsSilent(s, t, reset);
  }

  lemma SupersededStopStep(s: State, a: Action)
    requires StopAction(a) && Acts(s, a)
    requires GuardOf(ActorIn(s, a)).Some? && GuardOf(ActorIn(s, a)) != OperationOf(s.service)
    ensures Silent(s, StopStep(s, a))
  {
    match a
    case CallStop(t) =>
    case BeginStop(t) =>
    case EventsEnded(t) =>
    case TunnelClosed(t) =>
    case FinishStop(t) =>
    case DropStop(t, reset) => DropStopIsSilent(s, t, reset);
    case RunReset(t) =>
  }

  lemma SupersededStep(s: State, a: Action)
    requires Acts(s, a)
    requires GuardOf(ActorIn(s, a)).Some? && GuardOf(ActorIn(s, a)) != OperationOf(s.service)
    ensures Silent(s, Step(s, a))
  {
    if WorkerAction(a) {
      SupersededWorkerStep(s, a);
    } else if StopAction(a) {
      SupersededStopStep(s, a);
    }
  }

  lemma {:induction false} SupersededForEver(before: seq<Action>, after: seq<Action>, op: int)
    requires Exec(Init(), before + after).issued < U64_MAX
    requires Superseded(Exec(Init(), before), op)
    ensures Superseded(Exec(Init(), before + after), op)
  {
    if after == [] {
      assert before + after == before;
    } else {
      var shorter := before + after[..|after| - 1];
      assert (before + after)[..|before + after| - 1] == shorter && Last(before + after) == Last(after);
      assert Grows(Exec(Init(), shorter), Exec(Init(), before + after));
      SupersededForEver(before, after[..|after| - 1], op);
      ExecKeepsInv(shorter);
      SupersededStays(Exec(Init(), shorter), Last(after), op);
    }
  }

  /** Once the service has left a start operation it never returns to it, and whatever
      the holder of its guard still does changes neither the state nor the status. */
  lemma SupersededOperationsAreInert(before: seq<Action>, after: seq<Action>, op: int, a: Action)
    requires Exec(Init(), before + after).issued < U64_MAX
    requires Superseded(Exec(Init(), before), op)
    ensures var s := Exec(Init(), before + after);
            && Superseded(s, op)
            && (Acts(s, a) && GuardOf(ActorIn(s, a)) == Some(op) ==> Silent(s, Step(s, a)))
  {
    SupersededForEver(before, after, op);
    var s := Exec(Init(), before + after);
    if Acts(s, a) && GuardOf(ActorIn(s, a)) == Some(op) {
      SupersededStep(s, a);
    }
  }

  lemma CancelSupersedes(s: State, t: TaskId)
    requires Inv(s) && s.service.Starting?
    ensures Superseded(CancelStart(s, t, s.service.task), s.service.op)
  {
  }

  /** A stop that finds a start under way supersedes it, publishes idle and aborts the
      start task if it was attached. */
  lemma StopCancelsStart(schedule: seq<Action>, t: TaskId)
    requires Exec(Init(), schedule).issued < U64_MAX
    requires var s := Exec(Init(), schedule); Free(s) && s.service.Starting? && t in s.tasks && s.tasks[t].StopCalled?
    ensures var s := Exec(Init(), schedule);
            var r := BeginningStop(s, t);
            && r.service == Idle && r.status == IdleStatus()
            && (s.service.task.Some? ==> s.service.task.value in r.aborts)
            && Superseded(r, s.service.op)
  {
    ExecKeepsInv(schedule);
    CancelSupersedes(Exec(Init(), schedule), t);
  }

  lemma StopFindsItsState(s: State, t: TaskId)
    requires Inv(s) && t in s.tasks && s.tasks[t].StopFinishing?
    ensures s.service == Stopping(s.tasks[t].op)
  {
    assert GuardOf(s.tasks[t]) == Some(s.tasks[t].op) && InStop(s.tasks[t]);
  }

  /** The completion of a stop always finds its own Stopping state. */
  lemma StopsFinish(schedule: seq<Action>, t: TaskId)
    requires Exec(Init(), schedule).issued < U64_MAX
    requires var s := Exec(Init(), schedule); Free(s) && t in s.tasks && s.tasks[t].StopFinishing?
    ensures var s := Exec(Init(), schedule);
            && s.service == Stopping(s.tasks[t].op)
            && FinishStopping(s, t, s.tasks[t].op).service == Idle
            && FinishStopping(s, t, s.tasks[t].op).status == IdleStatus()
  {
    ExecKeepsInv(schedule);
    StopFindsItsState(Exec(Init(), schedule), t);
  }

  // ----- start tasks

  ghost predicate AccountedFor(s: State, w: TaskId, op: int) {
    && op in s.starters && s.starters[op] in s.tasks
    && (|| s.service == Starting(op, Some(w))
        || w in s.aborts
        || s.tasks[s.starters[op]] == StartAccepted(op, w)
        || s.tasks[s.starters[op]].Ended?)
  }

  lemma StartTaskIsAccountedFor(s: State, w: TaskId)
    requires Inv(s) && w in s.tasks && InStart(s.tasks[w])
    ensures AccountedFor(s, w, s.tasks[w].op)
  {
    assert Reachable(w, s.tasks[w].op, s.service, s.aborts, s.starters, s.tasks);
  }

  /** A start task that still holds its guard is attached to its own Starting state,
      aborted, about to be attached by its caller, or its caller was dropped. */
  lemma StartTasksAreAccountedFor(schedule: seq<Action>, w: TaskId)
    requires Exec(Init(), schedule).issued < U64_MAX
    requires w in Exec(Init(), schedule).tasks && InStart(Exec(Init(), schedule).tasks[w])
    ensures AccountedFor(Exec(Init(), schedule), w, Exec(Init(), schedule).tasks[w].op)
  {
    ExecKeepsInv(schedule);
    StartTaskIsAccountedFor(Exec(Init(), schedule), w);
  }

  /** The assertion in `attach_start_task` never fires. */
  lemma AttachFindsNoTask(schedule: seq<Action>, t: TaskId)
    requires Exec(Init(), schedule).issued < U64_MAX
    requires t in Exec(Init(), schedule).tasks && Exec(Init(), schedule).tasks[t].StartAccepted?
    ensures var s := Exec(Init(), schedule);
            s.service.Starting? && s.service.op == s.tasks[t].op ==> s.service.task.None?
  {
    ExecKeepsInv(schedule);
  }

  // ----- conservation of tunnels

  ghost predicate HeldByStart(s: State, x: TunnelId) {
    exists t <- s.tasks :: s.tasks[t].Connected? && s.tasks[t].tunnel == x
  }

  predicate OwnedByService(s: State, x: TunnelId) {
    s.service.Active? && s.service.tunnel == x
  }

  predicate Closes(task: Task, x: TunnelId) {
    (task.Surplus? || task.StopAwaitingEvents? || task.StopClosing?) && task.tunnel == x
  }

  ghost predicate BeingClosed(s: State, x: TunnelId) {
    (x in s.places && s.places[x].Reaping?) || exists t <- s.tasks :: Closes(s.tasks[t], x)
  }

  predicate IsClosed(s: State, x: TunnelId) {
    x in s.places && s.places[x].Closed?
  }

  function Count(b: bool): int {
    if b then 1 else 0
  }

  ghost predicate InOnePlace(s: State, x: TunnelId) {
    Count(HeldByStart(s, x)) + Count(OwnedByService(s, x)) + Count(BeingClosed(s, x)) + Count(IsClosed(s, x)) == 1
  }

  lemma PlaceIsExclusive(s: State, x: TunnelId)
    requires Inv(s) && x in s.places
    ensures InOnePlace(s, x)
  {
    assert OwnersOk(s.places, s.tasks) && ServedOk(s.places, s.service);
    assert forall t <- s.tasks :: s.tasks[t].Connected? && s.tasks[t].tunnel == x ==> TunnelOf(s.tasks[t]) == Some(x);
    assert forall t <- s.tasks :: Closes(s.tasks[t], x) ==> TunnelOf(s.tasks[t]) == Some(x);
    if s.places[x].WithTask? {
      var t := s.places[x].t;
      assert TunnelOf(s.tasks[t]) == Some(x);
      assert (s.tasks[t].Connected? && s.tasks[t].tunnel == x) || Closes(s.tasks[t], x);
    }
  }

  predicate TunnelsSettled(s: State, x: TunnelId, after: map<TunnelId, Place>) {
    x in s.places && s.places[x].Closed? ==> x in after && after[x].Closed?
  }

  lemma StartSettles(s: State, a: Action, x: TunnelId)
    requires OwnersOk(s.places, s.tasks) && StartAction(a)
    ensures TunnelsSettled(s, x, StartStep(s, a).places)
  {
    match a
    case CallStart(t, mode) =>
    case BeginStart(t, worker) =>
    case AttachTask(t) =>
    case DropStart(t) =>
    case Connect(t, tunnel) =>
    case ConnectFails(t) =>
  }

  lemma WorkerSettles(s: State, a: Action, x: TunnelId)
    requires OwnersOk(s.places, s.tasks) && WorkerAction(a)
    ensures TunnelsSettled(s, x, WorkerStep(s, a).places)
  {
    match a
    case StatusFails(t, reset) =>
    case FinishStart(t) =>
    case PublishActive(t, connections) =>
    case CloseSurplus(t, reset) =>
    case FailStart(t) =>
    case AbortNow(t, reset) =>
  }

  lemma StopSettles(s: State, a: Action, x: TunnelId)
    requires OwnersOk(s.places, s.tasks) && ServedOk(s.places, s.service) && StopAction(a)
    ensures TunnelsSettled(s, x, StopStep(s, a).places)
  {
    match a
    case CallStop(t) =>
    case BeginStop(t) =>
    case EventsEnded(t) =>
    case TunnelClosed(t) =>
    case FinishStop(t) =>
    case DropStop(t, reset) =>
    case RunReset(t) =>
  }

  lemma StepSettles(s: State, a: Action, x: TunnelId)
    requires Inv(s)
    ensures TunnelsSettled(s, x, Step(s, a).places)
  {
    if StartAction(a) {
      StartSettles(s, a, x);
    } else if WorkerAction(a) {
      WorkerSettles(s, a, x);
    } else if StopAction(a) {
      StopSettles(s, a, x);
    }
  }

  /** A tunnel that was ever created stays in exactly one place: held by its start
      task, owned by the Active state, being closed, or closed, and closed for good. */
  lemma {:induction false} TunnelsAreConserved(before: seq<Action>, after: seq<Action>, x: TunnelId)
    requires Exec(Init(), before + after).issued < U64_MAX
    requires x in Exec(Init(), before).places
    ensures x in Exec(Init(), before + after).places && InOnePlace(Exec(Init(), before + after), x)
    ensures IsClosed(Exec(Init(), before), x) ==> IsClosed(Exec(Init(), before + after), x)
  {
    ExecKeepsInv(before + after);
    if after == [] {
      assert before + after == before;
    } else {
      var shorter := before + after[..|after| - 1];
      assert (before + after)[..|before + after| - 1] == shorter && Last(before + after) == Last(after);
      assert Grows(Exec(Init(), shorter), Exec(Init(), before + after));
      TunnelsAreConserved(before, after[..|after| - 1], x);
      ExecKeepsInv(shorter);
      StepSettles(Exec(Init(), shorter), Last(after), x);
    }
    PlaceIsExclusive(Exec(Init(), before + after), x);
  }

  predicate Resting(task: Task) {
    TunnelOf(task).None?
  }

  /** When the service is not Active and no task owns a tunnel, every tunnel ever
      created is closed or left to be reaped. */
  lemma NoTunnelIsLost(schedule: seq<Action>)
    requires Exec(Init(), schedule).issued < U64_MAX
    requires !Exec(Init(), schedule).service.Active?
    requires forall t <- Exec(Init(), schedule).tasks :: Resting(Exec(Init(), schedule).tasks[t])
    ensures forall x <- Exec(Init(), schedule).places ::
              Exec(Init(), schedule).places[x].Closed? || Exec(Init(), schedule).places[x].Reaping?
  {
    ExecKeepsInv(schedule);
  }
}
