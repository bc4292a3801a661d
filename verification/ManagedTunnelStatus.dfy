/** The published status against the service state, and the order of what is published. */
module ManagedTunnelStatus {
  import opened Prelude
  import opened ManagedTunnel
  import opened ManagedTunnelInvariant

  function PhaseOf(service: Service): Phase {
    match service
    case Idle => IdlePhase
    case Starting(_, _) => StartingPhase
    case Active(_, _) => ActivePhase
    case Stopping(_) => StoppingPhase
  }

  /** The status agrees with a service state. */
  predicate Shows(status: Status, service: Service) {
    && status.phase == PhaseOf(service)
    && (service.Active? ==> status.mode == Some(service.mode))
    && status.tunnel == (if service.Active? then Some(service.tunnel) else None)
  }

  /** The state a subscriber should see: while a stop waits for the event task, still
      the tunnel it has taken. */
  function ShownBy(service: Service, holder: Option<TaskId>, tasks: map<TaskId, Task>): Service {
    if holder.Some? && holder.value in tasks && tasks[holder.value].StopAwaitingEvents?
    then Active(tasks[holder.value].tunnel, tasks[holder.value].mode)
    else service
  }

  /** The state was set to Active and its status comes next. */
  predicate AboutToShow(status: Status, holder: Option<TaskId>, tasks: map<TaskId, Task>) {
    holder.Some? && holder.value in tasks && tasks[holder.value].Activating?
    && status.phase == StartingPhase && status.tunnel.None?
  }

  /** What a subscriber can rely on: with the lock free, the status shows the state. */
  predicate Visible(s: State) {
    Free(s) ==> Shows(s.status, s.service)
  }

  /** An event task that is not over belongs to the tunnel that is, or is still, shown. */
  ghost predicate Steady(s: State) {
    forall x <- s.events :: !s.events[x].Over? ==>
      ShownBy(s.service, s.holder, s.tasks) == Active(x, s.events[x].mode)
  }

  /** The status is right even while the lock is held. */
  ghost predicate InOrder(s: State) {
    && (Shows(s.status, ShownBy(s.service, s.holder, s.tasks)) || AboutToShow(s.status, s.holder, s.tasks))
    && Steady(s)
  }

  /** Two statuses show the same state. */
  predicate SamePicture(a: Status, b: Status) {
    a.phase == b.phase && a.tunnel == b.tunnel && (a.phase == ActivePhase ==> a.mode == b.mode)
  }

  /** A report republishes a status that shows what the current one shows. */
  predicate ReportIsCurrent(s: State, a: Action) {
    a.ReportWrite? && a.t in s.tasks && s.tasks[a.t].ReportingStale? ==> SamePicture(s.tasks[a.t].read, s.status)
  }

  /** The drop of a stop in the middle of `begin_stop`. */
  predicate DropsPause(s: State, a: Action) {
    a.DropStop? && a.t in s.tasks && s.tasks[a.t].StopAwaitingEvents?
  }

  /** An event task publishes with the lock free only for the active tunnel. */
  predicate EventIsOwn(s: State, a: Action) {
    a.EventPublish? && a.tunnel in s.events && !s.events[a.tunnel].Over? && Free(s) ==>
      s.service == Active(a.tunnel, s.events[a.tunnel].mode)
  }

  /** The order in which phases may be published. */
  predicate MayFollow(p: Phase, q: Phase) {
    || p == q
    || (p == IdlePhase && q == StartingPhase)
    || (p == StartingPhase && (q == ActivePhase || q == IdlePhase))
    || (p == ActivePhase && q == StoppingPhase)
    || (p == StoppingPhase && q == IdlePhase)
  }

  ghost predicate Advances(s: State, r: State) {
    && (Visible(s) ==> Visible(r))
    && (Steady(s) ==> Steady(r))
    && (InOrder(s) ==> InOrder(r) && MayFollow(s.status.phase, r.status.phase))
  }

  /** A step that leaves what is shown and the holder of the lock alone. */
  predicate Quiet(s: State, r: State) {
    && r.service == s.service && r.holder == s.holder && r.status == s.status && r.events == s.events
    && r.log == s.log && r.stopped == s.stopped
    && (s.holder.Some? && s.holder.value in s.tasks ==>
          s.holder.value in r.tasks && r.tasks[s.holder.value] == s.tasks[s.holder.value])
  }

  lemma QuietAdvances(s: State, r: State)
    requires HolderOk(s.holder, s.service, s.tasks) && Quiet(s, r)
    ensures Advances(s, r)
  {
  }

  lemma AcceptAdvances(s: State, t: TaskId, worker: TaskId, mode: Mode, op: int)
    requires HolderOk(s.holder, s.service, s.tasks) && Free(s) && s.service.Idle?
    ensures Advances(s, Accepted(s, t, worker, mode, op))
  {
  }

  lemma AttachAdvances(s: State, t: TaskId, op: int, worker: TaskId)
    requires HolderOk(s.holder, s.service, s.tasks) && t in s.tasks && s.tasks[t].StartAccepted?
    ensures Advances(s, AttachWorker(s, t, op, worker))
  {
    if Free(s) && s.service.Starting? && s.service.op == op {
      assert Advances(s, Put(s.(service := Attach(s.service, op, worker)), t, StartReturned(Fine)));
    } else {
      QuietAdvances(s, AttachWorker(s, t, op, worker));
    }
  }

  lemma ActivateAdvances(s: State, t: TaskId, op: int, mode: Mode, tunnel: TunnelId)
    requires HolderOk(s.holder, s.service, s.tasks) && Free(s) && s.service.Starting? && s.service.op == op
    ensures Advances(s, Activate(s, t, op, mode, tunnel))
  {
  }

  lemma PublishActiveAdvances(s: State, t: TaskId, connections: int)
    requires HolderOk(s.holder, s.service, s.tasks) && t in s.tasks && s.tasks[t].Activating?
    ensures Advances(s, PublishingActive(s, t, s.tasks[t].mode, s.tasks[t].tunnel, connections))
  {
  }

  lemma ResetAdvances(s: State, t: TaskId, op: int, task: Task)
    requires HolderOk(s.holder, s.service, s.tasks) && Free(s)
    ensures Advances(s, Put(Disarm(ResetIn(s, op), op), t, task))
  {
  }

  lemma TakeActiveAdvances(s: State, t: TaskId, op: int)
    requires HolderOk(s.holder, s.service, s.tasks) && Free(s) && s.service.Active?
    ensures Advances(s, TakeActive(s, t, op, s.service.tunnel, s.service.mode))
  {
  }

  lemma CancelAdvances(s: State, t: TaskId)
    requires HolderOk(s.holder, s.service, s.tasks) && Free(s) && s.service.Starting?
    ensures Advances(s, CancelStart(s, t, s.service.task))
  {
  }

  lemma PublishStoppingAdvances(s: State, t: TaskId)
    requires HolderOk(s.holder, s.service, s.tasks) && t in s.tasks && s.tasks[t].StopAwaitingEvents?
    ensures Advances(s, StoppingShown(s, t, s.tasks[t].op, s.tasks[t].tunnel, s.tasks[t].mode))
  {
  }

  lemma RepublishAdvances(s: State, t: TaskId, status: Status)
    requires HolderOk(s.holder, s.service, s.tasks) && t in s.tasks && !Holds(s.tasks[t]) && SamePicture(status, s.status)
    ensures Advances(s, Put(Publish(s, status), t, WorkerEnded))
  {
  }

  lemma StartIsQuiet(s: State, a: Action)
    requires HolderOk(s.holder, s.service, s.tasks) && (a.CallStart? || a.DropStart? || a.Connect? || a.ConnectFails?)
    ensures Quiet(s, StartStep(s, a))
  {
  }

  lemma HandOverIsQuiet(s: State, t: TaskId, reset: TaskId, op: int, task: Task)
    requires HolderOk(s.holder, s.service, s.tasks) && t in s.tasks && !Holds(s.tasks[t]) && reset !in s.tasks
    ensures Quiet(s, HandOver(s, t, reset, op, task))
  {
  }

  lemma AbandonIsQuiet(s: State, t: TaskId, reset: TaskId, op: int, tunnel: TunnelId, place: Place, task: Task)
    requires HolderOk(s.holder, s.service, s.tasks) && t in s.tasks && !Holds(s.tasks[t]) && reset !in s.tasks
    ensures Quiet(s, Abandon(s, t, reset, op, tunnel, place, task))
  {
  }

  lemma AbortIsQuiet(s: State, t: TaskId, reset: TaskId)
    requires HolderOk(s.holder, s.service, s.tasks) && t in s.tasks
    ensures Quiet(s, Aborted(s, t, reset))
  {
    if t in s.aborts && reset !in s.tasks {
      match s.tasks[t]
      case Connecting(op, _) => HandOverIsQuiet(s, t, reset, op, WorkerEnded);
      case Connected(op, _, tunnel) => AbandonIsQuiet(s, t, reset, op, tunnel, Reaping, WorkerEnded);
      case Surplus(op, tunnel) => AbandonIsQuiet(s, t, reset, op, tunnel, Reaping, WorkerEnded);
      case Failing(op) => HandOverIsQuiet(s, t, reset, op, WorkerEnded);
      case _ =>
    }
  }

  lemma DropStopIsQuiet(s: State, t: TaskId, reset: TaskId)
    requires HolderOk(s.holder, s.service, s.tasks) && t in s.tasks && !s.tasks[t].StopAwaitingEvents?
    ensures Quiet(s, DroppingStop(s, t, reset))
  {
    if reset !in s.tasks {
      match s.tasks[t]
      case StopClosing(op, tunnel) => AbandonIsQuiet(s, t, reset, op, tunnel, Reaping, Ended);
      case StopFinishing(op) => HandOverIsQuiet(s, t, reset, op, Ended);
      case _ =>
    }
  }

  lemma StartAdvances(s: State, a: Action)
    requires HolderOk(s.holder, s.service, s.tasks) && StartAction(a)
    ensures Advances(s, StartStep(s, a))
  {
    match a
    case BeginStart(t, worker) =>
      if t in s.tasks && s.tasks[t].StartCalled? {
        if Free(s) && s.service.Idle? && worker !in s.tasks {
          AcceptAdvances(s, t, worker, s.tasks[t].mode, OperationId(s.issued));
        } else {
          QuietAdvances(s, Accept(s, t, worker, s.tasks[t].mode));
        }
      }
    case AttachTask(t) =>
      if t in s.tasks && s.tasks[t].StartAccepted? { AttachAdvances(s, t, s.tasks[t].op, s.tasks[t].worker); }
    case _ =>
      StartIsQuiet(s, a);
      QuietAdvances(s, StartStep(s, a));
  }

  lemma AbortAdvances(s: State, t: TaskId, reset: TaskId)
    requires HolderOk(s.holder, s.service, s.tasks) && t in s.tasks
    ensures Advances(s, Aborted(s, t, reset))
  {
    AbortIsQuiet(s, t, reset);
    QuietAdvances(s, Aborted(s, t, reset));
  }

  lemma WorkerAdvances(s: State, a: Action)
    requires HolderOk(s.holder, s.service, s.tasks) && WorkerAction(a)
    ensures Advances(s, WorkerStep(s, a))
  {
    match a
    case FinishStart(t) =>
      if t in s.tasks && s.tasks[t].Connected? {
        var task := s.tasks[t];
        if Free(s) && s.service.Starting? && s.service.op == task.op {
          ActivateAdvances(s, t, task.op, task.mode, task.tunnel);
        } else {
          QuietAdvances(s, Activate(s, t, task.op, task.mode, task.tunnel));
        }
      }
    case PublishActive(t, connections) =>
      if t in s.tasks && s.tasks[t].Activating? { PublishActiveAdvances(s, t, connections); }
    case FailStart(t) =>
      if t in s.tasks && s.tasks[t].Failing? && Free(s) { ResetAdvances(s, t, s.tasks[t].op, Reporting); }
    case AbortNow(t, reset) =>
      if t in s.tasks { AbortAdvances(s, t, reset); }
    case StatusFails(t, reset) =>
      if t in s.tasks && s.tasks[t].Connected? && reset !in s.tasks {
        AbandonIsQuiet(s, t, reset, s.tasks[t].op, s.tasks[t].tunnel, Reaping, Reporting);
        QuietAdvances(s, WorkerStep(s, a));
      }
    case CloseSurplus(t, reset) =>
      if t in s.tasks && s.tasks[t].Surplus? && reset !in s.tasks {
        AbandonIsQuiet(s, t, reset, s.tasks[t].op, s.tasks[t].tunnel, Closed, WorkerEnded);
        QuietAdvances(s, WorkerStep(s, a));
      }
  }

  lemma ReportAdvances(s: State, a: Action)
    requires HolderOk(s.holder, s.service, s.tasks) && ReportAction(a) && ReportIsCurrent(s, a)
    ensures Advances(s, ReportStep(s, a))
  {
    match a
    case Report(t, category) =>
      if t in s.tasks && s.tasks[t].Reporting? {
        RepublishAdvances(s, t, s.status.(lastError := Some(category)));
      }
    case ReportRead(t) => QuietAdvances(s, ReportStep(s, a));
    case ReportWrite(t, category) =>
      if t in s.tasks && s.tasks[t].ReportingStale? {
        RepublishAdvances(s, t, s.tasks[t].read.(lastError := Some(category)));
      }
  }

  lemma BeginStopAdvances(s: State, t: TaskId)
    requires HolderOk(s.holder, s.service, s.tasks) && t in s.tasks && s.tasks[t].StopCalled?
    ensures Advances(s, BeginningStop(s, t))
  {
    if Free(s) && s.service.Active? {
      TakeActiveAdvances(s, t, OperationId(s.issued));
    } else if Free(s) && s.service.Starting? {
      CancelAdvances(s, t);
    } else {
      QuietAdvances(s, BeginningStop(s, t));
    }
  }

  lemma DropStopAdvances(s: State, t: TaskId, reset: TaskId)
    requires HolderOk(s.holder, s.service, s.tasks) && t in s.tasks && !s.tasks[t].StopAwaitingEvents?
    ensures Advances(s, DroppingStop(s, t, reset))
  {
    DropStopIsQuiet(s, t, reset);
    QuietAdvances(s, DroppingStop(s, t, reset));
  }

  lemma StopAdvances(s: State, a: Action)
    requires HolderOk(s.holder, s.service, s.tasks) && StopAction(a) && !DropsPause(s, a)
    ensures Advances(s, StopStep(s, a))
  {
    match a
    case BeginStop(t) =>
      if t in s.tasks && s.tasks[t].StopCalled? { BeginStopAdvances(s, t); }
    case EventsEnded(t) =>
      if t in s.tasks && s.tasks[t].StopAwaitingEvents? { PublishStoppingAdvances(s, t); }
    case FinishStop(t) =>
      if t in s.tasks && s.tasks[t].StopFinishing? && Free(s) { ResetAdvances(s, t, s.tasks[t].op, StopReturned(Fine)); }
    case RunReset(t) =>
      if t in s.tasks && s.tasks[t].Resetting? && Free(s) { ResetAdvances(s, t, s.tasks[t].op, Ended); }
    case DropStop(t, reset) =>
      if t in s.tasks { DropStopAdvances(s, t, reset); }
    case _ => QuietAdvances(s, StopStep(s, a));
  }

  lemma EventAdvances(s: State, a: Action)
    requires HolderOk(s.holder, s.service, s.tasks) && TunnelAction(a) && EventIsOwn(s, a)
    ensures Advances(s, TunnelStep(s, a))
  {
  }

  lemma StepAdvances(s: State, a: Action)
    requires HolderOk(s.holder, s.service, s.tasks) && ReportIsCurrent(s, a) && !DropsPause(s, a) && EventIsOwn(s, a)
    ensures Advances(s, Step(s, a))
  {
    if StartAction(a) {
      StartAdvances(s, a);
    } else if WorkerAction(a) {
      WorkerAdvances(s, a);
    } else if ReportAction(a) {
      ReportAdvances(s, a);
    } else if TunnelAction(a) {
      EventAdvances(s, a);
    } else {
      StopAdvances(s, a);
    }
  }

  // ----- what is published

  /** A stale report does not bring back a tunnel whose Stopping was published. */
  predicate Fresh(s: State, a: Action) {
    a.ReportWrite? && a.t in s.tasks && s.tasks[a.t].ReportingStale? && s.tasks[a.t].read.tunnel.Some?
    ==> s.tasks[a.t].read.tunnel.value !in s.stopped
  }

  /** A step publishes at most once, and unless it republishes a stale report, nothing
      that shows a tunnel whose Stopping was published. */
  predicate Sound(s: State, a: Action, r: State) {
    || (r.status == s.status && r.log == s.log)
    || (r.log == s.log + [r.status]
        && (r.status.tunnel.Some? ==>
              r.status.tunnel.value !in s.stopped || r.status.tunnel == s.status.tunnel || !Fresh(s, a)))
  }

  lemma AcceptIsSound(s: State, a: Action, t: TaskId, worker: TaskId, mode: Mode)
    ensures var r := Accept(s, t, worker, mode); Sound(s, a, r) && r.stopped == s.stopped
  {
  }

  lemma StartIsSound(s: State, a: Action)
    requires StartAction(a) && HolderOk(s.holder, s.service, s.tasks)
    ensures Sound(s, a, StartStep(s, a)) && StartStep(s, a).stopped == s.stopped
  {
    match a
    case BeginStart(t, worker) =>
      if t in s.tasks && s.tasks[t].StartCalled? { AcceptIsSound(s, a, t, worker, s.tasks[t].mode); }
    case AttachTask(t) =>
    case _ => StartIsQuiet(s, a);
  }

  lemma ResetIsSound(s: State, a: Action, t: TaskId, op: int, task: Task)
    ensures var r := Put(Disarm(ResetIn(s, op), op), t, task); Sound(s, a, r) && r.stopped == s.stopped
  {
  }

  lemma ActivateIsSound(s: State, a: Action, t: TaskId, op: int, mode: Mode, tunnel: TunnelId)
    ensures var r := Activate(s, t, op, mode, tunnel); Sound(s, a, r) && r.stopped == s.stopped
  {
  }

  lemma PublishActiveIsSound(s: State, a: Action, t: TaskId, mode: Mode, tunnel: TunnelId, connections: int)
    requires tunnel !in s.stopped
    ensures var r := PublishingActive(s, t, mode, tunnel, connections); Sound(s, a, r) && r.stopped == s.stopped
  {
  }

  lemma WorkerIsSound(s: State, a: Action)
    requires WorkerAction(a)
    requires HolderOk(s.holder, s.service, s.tasks) && EventsOk(s.events, s.places, s.service, s.tasks, s.stopped)
    ensures Sound(s, a, WorkerStep(s, a)) && WorkerStep(s, a).stopped == s.stopped
  {
    match a
    case StatusFails(t, reset) =>
      if t in s.tasks && s.tasks[t].Connected? && reset !in s.tasks {
        AbandonIsQuiet(s, t, reset, s.tasks[t].op, s.tasks[t].tunnel, Reaping, Reporting);
      }
    case FinishStart(t) =>
      if t in s.tasks && s.tasks[t].Connected? {
        ActivateIsSound(s, a, t, s.tasks[t].op, s.tasks[t].mode, s.tasks[t].tunnel);
      }
    case PublishActive(t, connections) =>
      if t in s.tasks && s.tasks[t].Activating? {
        PublishActiveIsSound(s, a, t, s.tasks[t].mode, s.tasks[t].tunnel, connections);
      }
    case CloseSurplus(t, reset) =>
      if t in s.tasks && s.tasks[t].Surplus? && reset !in s.tasks {
        AbandonIsQuiet(s, t, reset, s.tasks[t].op, s.tasks[t].tunnel, Closed, WorkerEnded);
      }
    case FailStart(t) =>
      if t in s.tasks && s.tasks[t].Failing? && Free(s) { ResetIsSound(s, a, t, s.tasks[t].op, Reporting); }
    case AbortNow(t, reset) =>
      if t in s.tasks { AbortIsQuiet(s, t, reset); }
  }

  lemma ReportIsSound(s: State, a: Action)
    requires ReportAction(a)
    ensures Sound(s, a, ReportStep(s, a)) && ReportStep(s, a).stopped == s.stopped
  {
  }

  lemma TakeActiveIsSound(s: State, a: Action, t: TaskId, op: int, tunnel: TunnelId, mode: Mode)
    ensures var r := TakeActive(s, t, op, tunnel, mode); Sound(s, a, r) && r.stopped == s.stopped
  {
  }

  lemma CancelIsSound(s: State, a: Action, t: TaskId, task: Option<TaskId>)
    ensures var r := CancelStart(s, t, task); Sound(s, a, r) && r.stopped == s.stopped
  {
  }

  lemma BeginStopIsSound(s: State, a: Action, t: TaskId)
    ensures Sound(s, a, BeginningStop(s, t)) && BeginningStop(s, t).stopped == s.stopped
  {
    if Free(s) {
      match s.service
      case Active(tunnel, mode) => TakeActiveIsSound(s, a, t, OperationId(s.issued), tunnel, mode);
      case Starting(_, task) => CancelIsSound(s, a, t, task);
      case _ =>
    }
  }

  /** Publishing Stopping records where in the log it was published. */
  predicate Stops(s: State, t: TaskId, r: State) {
    && t in s.tasks && s.tasks[t].StopAwaitingEvents?
    && s.tasks[t].tunnel in s.events && s.events[s.tasks[t].tunnel].Over?
    && r.stopped == s.stopped[s.tasks[t].tunnel := |s.log|]
    && r.log == s.log + [Pending(StoppingPhase, s.tasks[t].mode)]
  }

  lemma StopIsSound(s: State, a: Action)
    requires StopAction(a)
    requires HolderOk(s.holder, s.service, s.tasks) && EventsOk(s.events, s.places, s.service, s.tasks, s.stopped)
    ensures Sound(s, a, StopStep(s, a))
    ensures StopStep(s, a).stopped == s.stopped || (a.EventsEnded? && Stops(s, a.t, StopStep(s, a)))
  {
    match a
    case BeginStop(t) =>
      if t in s.tasks && s.tasks[t].StopCalled? { BeginStopIsSound(s, a, t); }
    case FinishStop(t) =>
      if t in s.tasks && s.tasks[t].StopFinishing? && Free(s) { ResetIsSound(s, a, t, s.tasks[t].op, StopReturned(Fine)); }
    case RunReset(t) =>
      if t in s.tasks && s.tasks[t].Resetting? && Free(s) { ResetIsSound(s, a, t, s.tasks[t].op, Ended); }
    case DropStop(t, reset) =>
      if t in s.tasks && s.tasks[t].StopAwaitingEvents? {
        assert DroppingStop(s, t, reset).log == s.log;
      } else if t in s.tasks {
        DropStopIsQuiet(s, t, reset);
      }
    case _ =>
  }

  lemma EventIsSound(s: State, a: Action)
    requires TunnelAction(a) && EventsOk(s.events, s.places, s.service, s.tasks, s.stopped)
    ensures Sound(s, a, TunnelStep(s, a)) && TunnelStep(s, a).stopped == s.stopped
  {
  }

  lemma StepIsSound(s: State, a: Action)
    requires Inv(s)
    ensures Sound(s, a, Step(s, a))
    ensures Step(s, a).stopped == s.stopped || (a.EventsEnded? && Stops(s, a.t, Step(s, a)))
  {
    if StartAction(a) {
      StartIsSound(s, a);
    } else if WorkerAction(a) {
      WorkerIsSound(s, a);
    } else if ReportAction(a) {
      ReportIsSound(s, a);
    } else if TunnelAction(a) {
      EventIsSound(s, a);
    } else {
      StopIsSound(s, a);
    }
  }

  // ----- agreement, exactly

  /** Exactly the steps that keep the agreement: with the lock free, no report
      republishes a status that shows another state and no event task of another tunnel
      publishes; and no stop is dropped inside `begin_stop` unless Idle is shown. */
  predicate Undisturbed(s: State, a: Action) {
    && (Free(s) ==> ReportIsCurrent(s, a))
    && (DropsPause(s, a) ==> Shows(s.status, Idle))
    && EventIsOwn(s, a)
  }

  predicate EventsOver(s: State, tunnel: TunnelId) {
    tunnel in s.events ==> s.events[tunnel].Over?
  }

  lemma StaleReportStep(s: State, a: Action)
    requires Inv(s) && !ReportIsCurrent(s, a)
    ensures var r := Step(s, a);
            && r.service == s.service && r.holder == s.holder && r.events == s.events
            && ShownBy(r.service, r.holder, r.tasks) == ShownBy(s.service, s.holder, s.tasks)
            && r.status == s.tasks[a.t].read.(lastError := Some(a.category))
            && r.log == s.log + [r.status]
  {
    assert Step(s, a) == ReportStep(s, a);
  }

  lemma DropStep(s: State, a: Action)
    requires Inv(s) && DropsPause(s, a)
    ensures var r := Step(s, a);
            && r.service == Idle && r.holder.None? && r.events == s.events && r.status == s.status
            && ShownBy(s.service, s.holder, s.tasks) == Active(s.tasks[a.t].tunnel, s.tasks[a.t].mode)
            && s.tasks[a.t].tunnel in s.events
            && r.log == s.log
  {
    assert Step(s, a) == DroppingStop(s, a.t, a.reset);
  }

  lemma ForeignEventStep(s: State, a: Action)
    requires Inv(s) && !EventIsOwn(s, a)
    ensures var r := Step(s, a);
            && r.service == s.service && r.holder == s.holder && r.events == s.events && r.tasks == s.tasks
            && r.status.phase == ActivePhase && r.status.tunnel == Some(a.tunnel)
            && r.status.mode == Some(s.events[a.tunnel].mode)
  {
    assert Step(s, a) == TunnelStep(s, a);
  }

  /** A step keeps the agreement if and only if it is undisturbed. */
  lemma AgreementIsKeptExactly(s: State, a: Action)
    requires Inv(s) && Visible(s)
    ensures Visible(Step(s, a)) <==> Undisturbed(s, a)
  {
    if !ReportIsCurrent(s, a) {
      StaleReportStep(s, a);
    } else if DropsPause(s, a) {
      DropStep(s, a);
    } else if !EventIsOwn(s, a) {
      ForeignEventStep(s, a);
    } else {
      StepAdvances(s, a);
    }
  }

  lemma EventsAreKeptExactly(s: State, a: Action)
    requires Inv(s) && Steady(s)
    ensures Steady(Step(s, a)) <==> (DropsPause(s, a) ==> EventsOver(s, s.tasks[a.t].tunnel))
  {
    if !ReportIsCurrent(s, a) {
      StaleReportStep(s, a);
    } else if DropsPause(s, a) {
      DropStep(s, a);
    } else if !EventIsOwn(s, a) {
      ForeignEventStep(s, a);
    } else {
      StepAdvances(s, a);
    }
  }

  /** The status agrees, and no event task is left that could change that. */
  ghost predicate Agrees(s: State) {
    Visible(s) && Steady(s)
  }

  /** Neither exception: with the lock free no report republishes an outdated picture,
      and no stop is dropped inside `begin_stop` unless Idle is shown and the event task
      is over. */
  predicate Gentle(s: State, a: Action) {
    && (Free(s) ==> ReportIsCurrent(s, a))
    && (DropsPause(s, a) ==> Shows(s.status, Idle) && EventsOver(s, s.tasks[a.t].tunnel))
  }

  /** A step keeps the agreement for good if and only if it is gentle. */
  lemma OnlyGentleStepsKeepAgreement(s: State, a: Action)
    requires Inv(s) && Agrees(s)
    ensures Agrees(Step(s, a)) <==> Gentle(s, a)
  {
    assert EventIsOwn(s, a);
    AgreementIsKeptExactly(s, a);
    EventsAreKeptExactly(s, a);
  }

  predicate UndisturbedRun(schedule: seq<Action>) {
    schedule == []
    || (UndisturbedRun(schedule[..|schedule| - 1])
        && Undisturbed(Exec(Init(), schedule[..|schedule| - 1]), Last(schedule)))
  }

  predicate GentleRun(schedule: seq<Action>) {
    schedule == []
    || (GentleRun(schedule[..|schedule| - 1]) && Gentle(Exec(Init(), schedule[..|schedule| - 1]), Last(schedule)))
  }

  /** Whenever the state lock is free, at the end of the run or of any prefix of it, the
      status shows the state. */
  ghost predicate VisibleThroughout(schedule: seq<Action>) {
    Visible(Exec(Init(), schedule)) && (schedule == [] || VisibleThroughout(schedule[..|schedule| - 1]))
  }

  /** The published status agrees with the service state whenever the lock is free, all
      through a run, if and only if every step of the run is undisturbed. */
  lemma {:induction false} StatusAgreesExactly(schedule: seq<Action>)
    requires Exec(Init(), schedule).issued < U64_MAX
    ensures VisibleThroughout(schedule) <==> UndisturbedRun(schedule)
  {
    if schedule != [] {
      var before := Exec(Init(), schedule[..|schedule| - 1]);
      assert Grows(before, Exec(Init(), schedule));
      StatusAgreesExactly(schedule[..|schedule| - 1]);
      if VisibleThroughout(schedule[..|schedule| - 1]) {
        ExecKeepsInv(schedule[..|schedule| - 1]);
        AgreementIsKeptExactly(before, Last(schedule));
      }
    }
  }

  lemma {:induction false} GentleRunsAgree(schedule: seq<Action>)
    requires Exec(Init(), schedule).issued < U64_MAX && GentleRun(schedule)
    ensures Agrees(Exec(Init(), schedule)) && UndisturbedRun(schedule)
  {
    if schedule != [] {
      var before := Exec(Init(), schedule[..|schedule| - 1]);
      assert Grows(before, Exec(Init(), schedule));
      GentleRunsAgree(schedule[..|schedule| - 1]);
      ExecKeepsInv(schedule[..|schedule| - 1]);
      assert EventIsOwn(before, Last(schedule));
      OnlyGentleStepsKeepAgreement(before, Last(schedule));
    }
  }

  /** In particular it agrees in every run with neither of the two exceptions. */
  lemma StatusAgreesWithState(schedule: seq<Action>)
    requires Exec(Init(), schedule).issued < U64_MAX && GentleRun(schedule)
    ensures VisibleThroughout(schedule)
  {
    GentleRunsAgree(schedule);
    StatusAgreesExactly(schedule);
  }

  // ----- the order of phases

  ghost predicate GoesRound(log: seq<Status>, status: Status) {
    && log != [] && Last(log) == status
    && forall i :: 0 <= i < |log| - 1 ==> MayFollow(log[i].phase, log[i + 1].phase)
  }

  lemma RoundGoesOn(log: seq<Status>, before: Status, status: Status)
    requires GoesRound(log, before)
    ensures GoesRound(log + [status], status) <==> MayFollow(before.phase, status.phase)
  {
    assert (log + [status])[|log| - 1] == before && (log + [status])[|log|] == status;
  }

  /** From a state in order a step publishes out of order exactly by a report whose phase
      may not follow the current one. */
  lemma StepGoesRound(s: State, a: Action)
    requires Inv(s) && InOrder(s) && GoesRound(s.log, s.status)
    ensures GoesRound(Step(s, a).log, Step(s, a).status) <==>
              (a.ReportWrite? && a.t in s.tasks && s.tasks[a.t].ReportingStale? ==>
                 MayFollow(s.status.phase, s.tasks[a.t].read.phase))
    ensures ReportIsCurrent(s, a) && !DropsPause(s, a) ==> InOrder(Step(s, a))
  {
    assert EventIsOwn(s, a);
    RoundGoesOn(s.log, s.status, Step(s, a).status);
    if !ReportIsCurrent(s, a) {
      StaleReportStep(s, a);
    } else if DropsPause(s, a) {
      DropStep(s, a);
    } else {
      StepAdvances(s, a);
      StepIsSound(s, a);
    }
  }

  predicate OrderlyRun(schedule: seq<Action>) {
    schedule == []
    || (OrderlyRun(schedule[..|schedule| - 1])
        && ReportIsCurrent(Exec(Init(), schedule[..|schedule| - 1]), Last(schedule))
        && !DropsPause(Exec(Init(), schedule[..|schedule| - 1]), Last(schedule)))
  }

  /** What is published goes round Idle, Starting, Active, Stopping, and only a start that
      fails or is stopped turns back to Idle, in runs in which reports republish what is
      shown and no stop is dropped inside `begin_stop`. */
  lemma {:induction false} PhasesGoRound(schedule: seq<Action>)
    requires Exec(Init(), schedule).issued < U64_MAX && OrderlyRun(schedule)
    ensures InOrder(Exec(Init(), schedule))
    ensures GoesRound(Exec(Init(), schedule).log, Exec(Init(), schedule).status)
  {
    if schedule != [] {
      var before := Exec(Init(), schedule[..|schedule| - 1]);
      var a := Last(schedule);
      assert Grows(before, Exec(Init(), schedule));
      PhasesGoRound(schedule[..|schedule| - 1]);
      ExecKeepsInv(schedule[..|schedule| - 1]);
      StepGoesRound(before, a);
      if a.ReportWrite? && a.t in before.tasks && before.tasks[a.t].ReportingStale? {
        assert MayFollow(before.status.phase, before.tasks[a.t].read.phase);
      }
    }
  }

  // ----- nothing Active after Stopping

  predicate FreshRun(schedule: seq<Action>) {
    schedule == []
    || (FreshRun(schedule[..|schedule| - 1]) && Fresh(Exec(Init(), schedule[..|schedule| - 1]), Last(schedule)))
  }

  /** Where in the log each stopped tunnel's Stopping is. */
  ghost predicate LogOk(log: seq<Status>, status: Status, stopped: map<TunnelId, int>) {
    && log != [] && Last(log) == status
    && (forall x <- stopped :: 0 <= stopped[x] < |log|)
    && (forall x <- stopped :: log[stopped[x]].phase == StoppingPhase)
  }

  /** Nothing published from the k-th status on shows this tunnel. */
  ghost predicate NotShownFrom(log: seq<Status>, x: TunnelId, k: int) {
    forall i :: 0 <= i < |log| && k <= i ==> log[i].tunnel != Some(x)
  }

  /** Nothing published at or after the Stopping of a tunnel shows it. */
  ghost predicate NothingRevived(log: seq<Status>, stopped: map<TunnelId, int>) {
    forall x <- stopped :: NotShownFrom(log, x, stopped[x])
  }

  lemma NotShownGrows(log: seq<Status>, status: Status, x: TunnelId, k: int)
    requires k <= |log|
    ensures NotShownFrom(log + [status], x, k) <==> NotShownFrom(log, x, k) && status.tunnel != Some(x)
  {
    var longer := log + [status];
    assert longer[|log|] == status;
    forall i | 0 <= i < |log| ensures longer[i] == log[i] {
    }
    if NotShownFrom(longer, x, k) {
      forall i | 0 <= i < |log| && k <= i ensures log[i].tunnel != Some(x) {
        assert longer[i] == log[i];
      }
    }
  }

  lemma CurrentIsNotStopped(log: seq<Status>, status: Status, stopped: map<TunnelId, int>, x: TunnelId)
    requires LogOk(log, status, stopped) && NothingRevived(log, stopped) && status.tunnel == Some(x)
    ensures x !in stopped
  {
    assert log[|log| - 1].tunnel == Some(x);
    assert forall y <- stopped :: NotShownFrom(log, y, stopped[y]) && stopped[y] <= |log| - 1;
  }

  lemma LogGoesOn(log: seq<Status>, before: Status, status: Status, stopped: map<TunnelId, int>)
    requires LogOk(log, before, stopped)
    ensures LogOk(log + [status], status, stopped)
    ensures NothingRevived(log + [status], stopped) <==>
              NothingRevived(log, stopped) && (status.tunnel.Some? ==> status.tunnel.value !in stopped)
  {
    forall x <- stopped
      ensures NotShownFrom(log + [status], x, stopped[x])
              <==> NotShownFrom(log, x, stopped[x]) && status.tunnel != Some(x)
    {
      NotShownGrows(log, status, x, stopped[x]);
    }
  }

  lemma LogStops(log: seq<Status>, before: Status, status: Status, stopped: map<TunnelId, int>, x: TunnelId)
    requires LogOk(log, before, stopped) && status.phase == StoppingPhase && status.tunnel.None? && x !in stopped
    ensures LogOk(log + [status], status, stopped[x := |log|])
    ensures NothingRevived(log + [status], stopped[x := |log|]) <==> NothingRevived(log, stopped)
  {
    var after := stopped[x := |log|];
    forall y <- stopped
      ensures after[y] == stopped[y] && (NotShownFrom(log + [status], y, after[y]) <==> NotShownFrom(log, y, stopped[y]))
    {
      NotShownGrows(log, status, y, stopped[y]);
    }
    assert NotShownFrom(log + [status], x, |log|);
    if NothingRevived(log + [status], after) {
      forall y <- stopped ensures NotShownFrom(log, y, stopped[y]) {
        assert y in after && NotShownFrom(log + [status], y, after[y]);
      }
    }
  }

  lemma StaleWrite(s: State, a: Action)
    requires !Fresh(s, a)
    ensures var r := Step(s, a);
            && r.log == s.log + [r.status] && r.stopped == s.stopped && r.status.tunnel == s.tasks[a.t].read.tunnel
  {
    assert Step(s, a) == ReportStep(s, a);
  }

  /** The log stays free of revived tunnels exactly by steps that do not republish a
      stale report of a stopped tunnel. */
  lemma LogStays(s: State, a: Action)
    requires Inv(s) && LogOk(s.log, s.status, s.stopped)
    ensures var r := Step(s, a);
            && LogOk(r.log, r.status, r.stopped)
            && (NothingRevived(r.log, r.stopped) <==> NothingRevived(s.log, s.stopped) && Fresh(s, a))
  {
    StepIsSound(s, a);
    var r := Step(s, a);
    if s.status.tunnel.Some? && NothingRevived(s.log, s.stopped) {
      CurrentIsNotStopped(s.log, s.status, s.stopped, s.status.tunnel.value);
    }
    if !Fresh(s, a) {
      StaleWrite(s, a);
      LogGoesOn(s.log, s.status, r.status, s.stopped);
    } else if r.stopped != s.stopped {
      LogStops(s.log, s.status, r.status, s.stopped, s.tasks[a.t].tunnel);
    } else if r.log != s.log {
      LogGoesOn(s.log, s.status, r.status, s.stopped);
    }
  }

  lemma {:induction false} RevivedExactly(schedule: seq<Action>)
    requires Exec(Init(), schedule).issued < U64_MAX
    ensures var s := Exec(Init(), schedule);
            LogOk(s.log, s.status, s.stopped) && (NothingRevived(s.log, s.stopped) <==> FreshRun(schedule))
  {
    if schedule != [] {
      var before := Exec(Init(), schedule[..|schedule| - 1]);
      assert Grows(before, Exec(Init(), schedule));
      RevivedExactly(schedule[..|schedule| - 1]);
      ExecKeepsInv(schedule[..|schedule| - 1]);
      LogStays(before, Last(schedule));
    }
  }

  /** Once Stopping has been published for a tunnel nothing published later shows it, if
      and only if no report of the run republishes a stopped tunnel's status. */
  lemma NothingActiveAfterStopping(schedule: seq<Action>)
    requires Exec(Init(), schedule).issued < U64_MAX
    ensures var s := Exec(Init(), schedule);
            && (forall x <- s.stopped :: 0 <= s.stopped[x] < |s.log|)
            && (forall x <- s.stopped :: s.log[s.stopped[x]].phase == StoppingPhase)
            && ((forall x <- s.stopped :: NotShownFrom(s.log, x, s.stopped[x])) <==> FreshRun(schedule))
  {
    RevivedExactly(schedule);
  }

  lemma {:induction false} OrderlyRunsAreFresh(schedule: seq<Action>)
    requires Exec(Init(), schedule).issued < U64_MAX && OrderlyRun(schedule)
    ensures FreshRun(schedule)
  {
    if schedule != [] {
      var before := Exec(Init(), schedule[..|schedule| - 1]);
      assert Grows(before, Exec(Init(), schedule));
      OrderlyRunsAreFresh(schedule[..|schedule| - 1]);
      RevivedExactly(schedule[..|schedule| - 1]);
      if before.status.tunnel.Some? {
        CurrentIsNotStopped(before.log, before.status, before.stopped, before.status.tunnel.value);
      }
    }
  }
}
