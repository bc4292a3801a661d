/** What starting, cancelling and stopping the managed tunnel come to when nothing else
    takes a step: what the callers are told, what is published, and where the tunnel goes. */
module ManagedTunnelProgress {
  import opened Prelude
  import opened ManagedTunnel
  import opened ManagedTunnelInvariant

  // ----- accepting a start

  /** A start up to the return of its caller. */
  function CallAlone(s: State, t: TaskId, worker: TaskId, mode: Mode): State {
    Step(Step(Step(s, CallStart(t, mode)), BeginStart(t, worker)), AttachTask(t))
  }

  /** The caller was told that the start is accepted, and the start task is attached. */
  ghost predicate Begun(s: State, r: State, t: TaskId, worker: TaskId, mode: Mode, op: int) {
    && r.service == Starting(op, Some(worker)) && Free(r) && r.issued == s.issued + 1
    && r.status == Pending(StartingPhase, mode) && r.log == s.log + [r.status]
    && t in r.tasks && r.tasks[t] == StartReturned(Fine) && worker in r.tasks && r.tasks[worker] == Connecting(op, mode)
    && r.places == s.places && r.events == s.events && r.aborts == s.aborts && r.stopped == s.stopped
    && r.guards == s.guards[op := worker]
  }

  lemma AttachesAlone(s: State, t: TaskId, worker: TaskId, op: int)
    requires t in s.tasks && s.tasks[t] == StartAccepted(op, worker) && Free(s) && s.service == Starting(op, None)
    ensures Step(s, AttachTask(t)) == Put(s.(service := Starting(op, Some(worker))), t, StartReturned(Fine))
  {
    assert Step(s, AttachTask(t)) == AttachWorker(s, t, op, worker);
  }

  lemma CallAloneIs(s: State, t: TaskId, worker: TaskId, mode: Mode)
    requires t !in s.tasks
    ensures var called := Put(s, t, StartCalled(mode));
            CallAlone(s, t, worker, mode) == Step(Step(called, BeginStart(t, worker)), AttachTask(t))
  {
    assert Step(s, CallStart(t, mode)) == Put(s, t, StartCalled(mode));
  }

  lemma IdleAccepts(s: State, t: TaskId, worker: TaskId, mode: Mode)
    requires Free(s) && s.service.Idle? && t !in s.tasks && worker !in s.tasks && t != worker
    ensures Begun(s, CallAlone(s, t, worker, mode), t, worker, mode, OperationId(s.issued))
  {
    CallAloneIs(s, t, worker, mode);
    var called := Put(s, t, StartCalled(mode));
    var op := OperationId(s.issued);
    assert Step(called, BeginStart(t, worker)) == Accepted(called, t, worker, mode, op);
    AttachesAlone(Accepted(called, t, worker, mode, op), t, worker, op);
  }

  lemma OthersAreBusy(s: State, t: TaskId, worker: TaskId, mode: Mode)
    requires Free(s) && !s.service.Idle? && t !in s.tasks
    ensures CallAlone(s, t, worker, mode) == Put(s, t, StartReturned(Busy))
  {
    CallAloneIs(s, t, worker, mode);
    var called := Put(s, t, StartCalled(mode));
    var begun := Step(called, BeginStart(t, worker));
    assert begun == Put(called, t, StartReturned(Busy));
    assert begun.tasks == s.tasks[t := StartReturned(Busy)];
    assert Step(begun, AttachTask(t)) == begun;
  }

  /** A start is accepted exactly if the service is idle; otherwise the caller is told
      that it is busy and nothing else happens. */
  lemma CallsEndExactly(s: State, t: TaskId, worker: TaskId, mode: Mode)
    requires Free(s) && t !in s.tasks && worker !in s.tasks && t != worker
    ensures var r := CallAlone(s, t, worker, mode);
            if s.service.Idle? then Begun(s, r, t, worker, mode, OperationId(s.issued))
            else r == Put(s, t, StartReturned(Busy))
  {
    if s.service.Idle? {
      IdleAccepts(s, t, worker, mode);
    } else {
      OthersAreBusy(s, t, worker, mode);
    }
  }

  // ----- the start task

  /** A start task that connects. */
  function ConnectAlone(s: State, w: TaskId, tunnel: TunnelId, connections: int): State {
    Step(Step(Step(s, Connect(w, tunnel)), FinishStart(w)), PublishActive(w, connections))
  }

  lemma ConnectsAlone(s: State, w: TaskId, tunnel: TunnelId, op: int, mode: Mode)
    requires w in s.tasks && s.tasks[w] == Connecting(op, mode) && tunnel !in s.places
    ensures Step(s, Connect(w, tunnel)) == Put(Move(s, tunnel, WithTask(w)), w, Connected(op, mode, tunnel))
  {
    assert Step(s, Connect(w, tunnel)) == Establish(s, w, op, mode, tunnel);
  }

  lemma ActivatesAlone(s: State, w: TaskId, tunnel: TunnelId, op: int, mode: Mode)
    requires w in s.tasks && s.tasks[w] == Connected(op, mode, tunnel) && Free(s)
    requires s.service.Starting? && s.service.op == op
    ensures var r := Step(s, FinishStart(w));
            && r.service == Active(tunnel, mode) && r.issued == s.issued && r.status == s.status && r.log == s.log
            && r.tasks == s.tasks[w := Activating(mode, tunnel)]
            && r.places == s.places[tunnel := WithService] && r.events == s.events[tunnel := Running(mode)]
            && r.guards == s.guards - {op}
  {
    assert Step(s, FinishStart(w)) == Activate(s, w, op, mode, tunnel);
  }

  lemma PublishesAlone(s: State, w: TaskId, tunnel: TunnelId, mode: Mode, connections: int)
    requires w in s.tasks && s.tasks[w] == Activating(mode, tunnel)
    ensures var r := Step(s, PublishActive(w, connections));
            && r.service == s.service && r.issued == s.issued && Free(r)
            && r.status == ActiveStatus(tunnel, mode, connections, None) && r.log == s.log + [r.status]
            && r.tasks == s.tasks[w := WorkerEnded]
            && r.places == s.places && r.events == s.events && r.guards == s.guards
  {
    assert Step(s, PublishActive(w, connections)) == PublishingActive(s, w, mode, tunnel, connections);
  }

  /** A start task that connects while its operation is the service's makes its tunnel
      active, with its events running and its guard disarmed, and publishes it. */
  lemma StartsEndActive(s: State, w: TaskId, tunnel: TunnelId, connections: int)
    requires w in s.tasks && s.tasks[w].Connecting? && Free(s) && tunnel !in s.places
    requires s.service.Starting? && s.service.op == s.tasks[w].op
    ensures var r := ConnectAlone(s, w, tunnel, connections);
            var mode := s.tasks[w].mode;
            && r.service == Active(tunnel, mode) && Free(r) && r.issued == s.issued
            && r.status == ActiveStatus(tunnel, mode, connections, None) && r.log == s.log + [r.status]
            && r.tasks == s.tasks[w := WorkerEnded]
            && r.places == s.places[tunnel := WithService] && r.events == s.events[tunnel := Running(mode)]
            && r.guards == s.guards - {s.tasks[w].op}
  {
    var op, mode := s.tasks[w].op, s.tasks[w].mode;
    ConnectsAlone(s, w, tunnel, op, mode);
    var connected := Step(s, Connect(w, tunnel));
    ActivatesAlone(connected, w, tunnel, op, mode);
    var activated := Step(connected, FinishStart(w));
    PublishesAlone(activated, w, tunnel, mode, connections);
    var r := Step(activated, PublishActive(w, connections));
    assert r.tasks == s.tasks[w := WorkerEnded];
    assert r.places == s.places[tunnel := WithService];
  }

  /** A start task that fails to connect. */
  function FailAlone(s: State, w: TaskId, category: int): State {
    Step(Step(Step(s, ConnectFails(w)), FailStart(w)), Report(w, category))
  }

  lemma ReportsAlone(s: State, w: TaskId, category: int)
    requires w in s.tasks && s.tasks[w].Reporting?
    ensures var r := Step(s, Report(w, category));
            && r.service == s.service && r.holder == s.holder && r.places == s.places && r.guards == s.guards
            && r.status == s.status.(lastError := Some(category)) && r.log == s.log + [r.status]
            && r.tasks == s.tasks[w := WorkerEnded]
  {
  }

  /** A start task that fails gives up its guard and reports its error, over an idle
      service if the operation was still the service's and over whatever it is otherwise. */
  lemma FailuresEndExactly(s: State, w: TaskId, category: int)
    requires w in s.tasks && s.tasks[w].Connecting? && Free(s)
    ensures var r := FailAlone(s, w, category);
            var own := OperationOf(s.service) == Some(s.tasks[w].op);
            && r.service == (if own then Idle else s.service) && Free(r) && r.places == s.places
            && r.status == (if own then IdleStatus() else s.status).(lastError := Some(category))
            && r.log == s.log + (if own then [IdleStatus()] else []) + [r.status]
            && r.tasks == s.tasks[w := WorkerEnded] && r.guards == s.guards - {s.tasks[w].op}
  {
    var op := s.tasks[w].op;
    var failed := Step(s, ConnectFails(w));
    assert failed == Put(s, w, Failing(op));
    var given := Step(failed, FailStart(w));
    assert given == FailIn(failed, w, op);
    ReportsAlone(given, w, category);
    assert s.log + [] == s.log;
    assert Step(given, Report(w, category)).tasks == s.tasks[w := WorkerEnded];
  }

  // ----- guards

  /** The reset that a dropped guard has spawned gives up the guard, and makes the service
      idle exactly if the operation is still its own. */
  lemma ResetsEndExactly(s: State, reset: TaskId)
    requires reset in s.tasks && s.tasks[reset].Resetting? && Free(s)
    ensures var r := Step(s, RunReset(reset));
            var own := OperationOf(s.service) == Some(s.tasks[reset].op);
            && r.service == (if own then Idle else s.service) && Free(r)
            && r.status == (if own then IdleStatus() else s.status)
            && r.log == s.log + (if own then [IdleStatus()] else [])
            && r.tasks == s.tasks[reset := Ended] && r.guards == s.guards - {s.tasks[reset].op}
            && r.places == s.places && r.events == s.events && r.aborts == s.aborts
  {
    assert s.log + [] == s.log;
    assert Step(s, RunReset(reset)) == Put(Disarm(ResetIn(s, s.tasks[reset].op), s.tasks[reset].op), reset, Ended);
  }

  /** A start whose operation is no longer the service's closes the tunnel it has just
      established. */
  lemma SurplusTunnelsAreClosed(s: State, w: TaskId, reset: TaskId)
    requires w in s.tasks && s.tasks[w].Connected? && Free(s) && reset !in s.tasks
    requires s.service.Starting? ==> s.service.op != s.tasks[w].op
    ensures var r := Step(Step(s, FinishStart(w)), CloseSurplus(w, reset));
            && r.service == s.service && Free(r) && r.status == s.status && r.log == s.log && r.events == s.events
            && r.places == s.places[s.tasks[w].tunnel := Closed]
            && r.tasks == s.tasks[w := WorkerEnded][reset := Resetting(s.tasks[w].op)]
            && r.guards == s.guards[s.tasks[w].op := reset]
  {
    var op, tunnel := s.tasks[w].op, s.tasks[w].tunnel;
    var surplus := Step(s, FinishStart(w));
    assert surplus == Put(s, w, Surplus(op, tunnel));
    var r := Step(surplus, CloseSurplus(w, reset));
    assert r == Abandon(surplus, w, reset, op, tunnel, Closed, WorkerEnded);
    assert r.tasks == s.tasks[w := WorkerEnded][reset := Resetting(op)];
  }

  /** A start whose tunnel does not give its status drops it, leaves the service to its
      guard and goes on to report. */
  lemma LostStatusEndsExactly(s: State, w: TaskId, reset: TaskId)
    requires w in s.tasks && s.tasks[w].Connected? && reset !in s.tasks
    ensures var r := Step(s, StatusFails(w, reset));
            && r.service == s.service && r.holder == s.holder && r.status == s.status && r.log == s.log
            && r.places == s.places[s.tasks[w].tunnel := Reaping]
            && r.tasks == s.tasks[w := Reporting][reset := Resetting(s.tasks[w].op)]
            && r.guards == s.guards[s.tasks[w].op := reset]
  {
    var op, tunnel := s.tasks[w].op, s.tasks[w].tunnel;
    assert Step(s, StatusFails(w, reset)) == Abandon(s, w, reset, op, tunnel, Reaping, Reporting);
  }

  /** The operation whose guard an abortable start task holds. */
  function GuardAtAwait(task: Task): Option<int> {
    match task
    case Connecting(op, _) => Some(op)
    case Connected(op, _, _) => Some(op)
    case Surplus(op, _) => Some(op)
    case Failing(op) => Some(op)
    case _ => None
  }

  /** The tunnel an abortable start task holds. */
  function TunnelAtAwait(task: Task): Option<TunnelId> {
    match task
    case Connected(_, _, tunnel) => Some(tunnel)
    case Surplus(_, tunnel) => Some(tunnel)
    case _ => None
  }

  /** The start task has ended; its tunnel is to be reaped and its guard to be reset. */
  predicate EndsByAbort(s: State, r: State, w: TaskId, reset: TaskId, op: int, tunnel: Option<TunnelId>) {
    && r.service == s.service && r.holder == s.holder && r.status == s.status && r.log == s.log && r.events == s.events
    && r.places == (if tunnel.Some? then s.places[tunnel.value := Reaping] else s.places)
    && r.tasks == s.tasks[w := WorkerEnded][reset := Resetting(op)]
    && r.guards == s.guards[op := reset]
  }

  lemma HandOverEnds(s: State, w: TaskId, reset: TaskId, op: int)
    requires w in s.tasks && reset !in s.tasks
    ensures EndsByAbort(s, HandOver(s, w, reset, op, WorkerEnded), w, reset, op, None)
  {
  }

  lemma AbandonEnds(s: State, w: TaskId, reset: TaskId, op: int, tunnel: TunnelId)
    requires w in s.tasks && reset !in s.tasks
    ensures EndsByAbort(s, Abandon(s, w, reset, op, tunnel, Reaping, WorkerEnded), w, reset, op, Some(tunnel))
  {
  }

  /** An abort ends a start task that awaits with its guard, and no other. */
  lemma AbortsEndExactly(s: State, w: TaskId, reset: TaskId)
    requires w in s.tasks && w in s.aborts && reset !in s.tasks
    ensures var r := Aborted(s, w, reset);
            && r == Step(s, AbortNow(w, reset))
            && var op := GuardAtAwait(s.tasks[w]);
               if op.Some? then EndsByAbort(s, r, w, reset, op.value, TunnelAtAwait(s.tasks[w])) else r == s
  {
    match s.tasks[w]
    case Connecting(op, _) => HandOverEnds(s, w, reset, op);
    case Connected(op, _, tunnel) => AbandonEnds(s, w, reset, op, tunnel);
    case Surplus(op, tunnel) => AbandonEnds(s, w, reset, op, tunnel);
    case Failing(op) => HandOverEnds(s, w, reset, op);
    case _ =>
  }

  // ----- stopping

  /** The first half of a stop, up to its first await. */
  function TakeAlone(s: State, t: TaskId): State {
    Step(Step(s, CallStop(t)), BeginStop(t))
  }

  lemma CancelsAlone(s: State, t: TaskId)
    requires t in s.tasks && s.tasks[t].StopCalled? && Free(s) && s.service.Starting?
    ensures Step(s, BeginStop(t)) == CancelStart(s, t, s.service.task)
  {
    assert Step(s, BeginStop(t)) == BeginningStop(s, t);
  }

  lemma AnswersAlone(s: State, t: TaskId)
    requires t in s.tasks && s.tasks[t].StopCalled? && Free(s) && (s.service.Idle? || s.service.Stopping?)
    ensures var reply := if s.service.Idle? then NotRunning else Busy;
            Step(s, BeginStop(t)) == Put(s.(issued := s.issued + 1), t, StopReturned(reply))
  {
    assert Step(s, BeginStop(t)) == BeginningStop(s, t);
  }

  lemma CallsStop(s: State, t: TaskId)
    requires t !in s.tasks
    ensures Step(s, CallStop(t)) == Put(s, t, StopCalled)
  {
  }

  /** A stop while the service is starting cancels the start: the service is idle, this is
      published, and the start task, if attached, is to be aborted. */
  lemma StopsCancelExactly(s: State, t: TaskId)
    requires Free(s) && t !in s.tasks && s.service.Starting?
    ensures var r := TakeAlone(s, t);
            && r.service == Idle && Free(r) && r.issued == s.issued + 1
            && r.status == IdleStatus() && r.log == s.log + [IdleStatus()]
            && r.aborts == s.aborts + (if s.service.task.Some? then {s.service.task.value} else {})
            && r.tasks == s.tasks[t := StopReturned(Fine)]
            && r.places == s.places && r.events == s.events && r.guards == s.guards
  {
    CallsStop(s, t);
    CancelsAlone(Put(s, t, StopCalled), t);
    assert s.tasks[t := StopCalled][t := StopReturned(Fine)] == s.tasks[t := StopReturned(Fine)];
  }

  /** A stop with nothing to stop changes nothing but the operation counter. */
  lemma StopsRefuseExactly(s: State, t: TaskId)
    requires Free(s) && t !in s.tasks && (s.service.Idle? || s.service.Stopping?)
    ensures var reply := if s.service.Idle? then NotRunning else Busy;
            TakeAlone(s, t) == Put(s.(issued := s.issued + 1), t, StopReturned(reply))
  {
    CallsStop(s, t);
    AnswersAlone(Put(s, t, StopCalled), t);
    var reply := if s.service.Idle? then NotRunning else Busy;
    assert s.tasks[t := StopCalled][t := StopReturned(reply)] == s.tasks[t := StopReturned(reply)];
  }

  /** A stop has taken the active tunnel and waits for its event task. */
  predicate Taken(s: State, r: State, t: TaskId, op: int, tunnel: TunnelId, mode: Mode) {
    && r.service == Idle && r.issued == s.issued + 1 && r.status == s.status && r.log == s.log
    && r.tasks == s.tasks[t := StopAwaitingEvents(op, tunnel, mode)]
    && r.places == s.places[tunnel := WithTask(t)] && r.events == s.events[tunnel := Aborting(mode)]
    && r.stopped == s.stopped
  }

  /** The event task has ended and the stop has published itself. */
  predicate Shown(s: State, r: State, t: TaskId, op: int, tunnel: TunnelId, mode: Mode) {
    && r.service == Stopping(op) && Free(r) && r.issued == s.issued
    && r.status == Pending(StoppingPhase, mode) && r.log == s.log + [Pending(StoppingPhase, mode)]
    && r.tasks == s.tasks[t := StopClosing(op, tunnel)]
    && r.places == s.places && r.events == s.events[tunnel := Over]
    && r.stopped == s.stopped[tunnel := |s.log|]
  }

  /** The tunnel is closed and the service idle. */
  predicate Finished(s: State, r: State, t: TaskId, tunnel: TunnelId) {
    && r.service == Idle && Free(r) && r.issued == s.issued
    && r.status == IdleStatus() && r.log == s.log + [IdleStatus()]
    && r.tasks == s.tasks[t := StopReturned(Fine)]
    && r.places == s.places[tunnel := Closed] && r.events == s.events && r.stopped == s.stopped
  }

  lemma TakesAlone(s: State, t: TaskId, tunnel: TunnelId, mode: Mode)
    requires Free(s) && t !in s.tasks && s.service == Active(tunnel, mode)
    requires tunnel in s.events && s.events[tunnel].Running?
    ensures Taken(s, TakeAlone(s, t), t, OperationId(s.issued), tunnel, mode)
  {
    CallsStop(s, t);
    var called := Put(s, t, StopCalled);
    var r := Step(called, BeginStop(t));
    assert r == TakeActive(called, t, OperationId(s.issued), tunnel, mode);
    assert r.tasks == s.tasks[t := StopAwaitingEvents(OperationId(s.issued), tunnel, mode)];
  }

  lemma ShowsAlone(s: State, t: TaskId, op: int, tunnel: TunnelId, mode: Mode)
    requires t in s.tasks && s.tasks[t] == StopAwaitingEvents(op, tunnel, mode)
    requires tunnel in s.events && s.events[tunnel].Aborting?
    ensures Shown(s, ShowAlone(s, t, tunnel), t, op, tunnel, mode)
  {
    var ended := Step(s, EventTaskEnds(tunnel));
    assert ended == s.(events := s.events[tunnel := Over]);
    assert Step(ended, EventsEnded(t)) == StoppingShown(ended, t, op, tunnel, mode);
  }

  lemma FinishesAlone(s: State, t: TaskId, op: int, tunnel: TunnelId)
    requires t in s.tasks && s.tasks[t] == StopClosing(op, tunnel) && Free(s) && s.service == Stopping(op)
    ensures Finished(s, FinishAlone(s, t), t, tunnel)
  {
    var closed := Step(s, TunnelClosed(t));
    assert closed == Put(Move(s, tunnel, Closed), t, StopFinishing(op));
    var r := Step(closed, FinishStop(t));
    assert r == FinishStopping(closed, t, op);
    assert r.tasks == s.tasks[t := StopReturned(Fine)];
  }

  function ShowAlone(s: State, t: TaskId, tunnel: TunnelId): State {
    Step(Step(s, EventTaskEnds(tunnel)), EventsEnded(t))
  }

  function FinishAlone(s: State, t: TaskId): State {
    Step(Step(s, TunnelClosed(t)), FinishStop(t))
  }

  /** Stopping and then Idle were published, the event task has ended, the tunnel is closed
      and the caller told. */
  predicate Stopped(s: State, r: State, t: TaskId, tunnel: TunnelId, mode: Mode) {
    && r.service == Idle && Free(r) && r.issued == s.issued + 1
    && r.status == IdleStatus() && r.log == s.log + [Pending(StoppingPhase, mode), IdleStatus()]
    && r.tasks == s.tasks[t := StopReturned(Fine)]
    && r.places == s.places[tunnel := Closed] && r.events == s.events[tunnel := Over]
    && r.stopped == s.stopped[tunnel := |s.log|]
  }

  lemma StagesCompose(
    s: State, taken: State, shown: State, r: State, t: TaskId, op: int, tunnel: TunnelId, mode: Mode)
    requires Taken(s, taken, t, op, tunnel, mode) && Shown(taken, shown, t, op, tunnel, mode) && Finished(shown, r, t, tunnel)
    ensures Stopped(s, r, t, tunnel, mode)
  {
  }

  /** The stop of an active tunnel ends with the service idle. */
  lemma StopsEndIdle(s: State, t: TaskId)
    requires Inv(s) && Free(s) && t !in s.tasks && s.service.Active?
    ensures var r := FinishAlone(ShowAlone(TakeAlone(s, t), t, s.service.tunnel), t);
            Stopped(s, r, t, s.service.tunnel, s.service.mode)
  {
    var tunnel, mode, op := s.service.tunnel, s.service.mode, OperationId(s.issued);
    assert EventsOk(s.events, s.places, s.service, s.tasks, s.stopped);
    var taken := TakeAlone(s, t);
    TakesAlone(s, t, tunnel, mode);
    var shown := ShowAlone(taken, t, tunnel);
    ShowsAlone(taken, t, op, tunnel, mode);
    FinishesAlone(shown, t, op, tunnel);
    StagesCompose(s, taken, shown, FinishAlone(shown, t), t, op, tunnel, mode);
  }

  /** A cancelled start leaves nothing behind: its task ends, its tunnel is closed, and its
      guard is given up without touching what the stop has left. */
  lemma CancelledStartsEndExactly(s: State, t: TaskId, w: TaskId, reset: TaskId)
    requires Free(s) && t !in s.tasks && w in s.tasks && reset !in s.tasks && t != reset
    requires GuardAtAwait(s.tasks[w]).Some? && s.service == Starting(GuardAtAwait(s.tasks[w]).value, Some(w))
    ensures var r := Step(Step(TakeAlone(s, t), AbortNow(w, reset)), RunReset(reset));
            var op, tunnel := GuardAtAwait(s.tasks[w]).value, TunnelAtAwait(s.tasks[w]);
            && r.service == Idle && Free(r) && r.status == IdleStatus() && r.log == s.log + [IdleStatus()]
            && r.tasks == s.tasks[t := StopReturned(Fine)][w := WorkerEnded][reset := Ended]
            && r.places == (if tunnel.Some? then s.places[tunnel.value := Reaping] else s.places)
            && op !in r.guards
  {
    var op, tunnel := GuardAtAwait(s.tasks[w]).value, TunnelAtAwait(s.tasks[w]);
    StopsCancelExactly(s, t);
    var taken := TakeAlone(s, t);
    assert taken.tasks[w] == s.tasks[w];
    AbortsEndExactly(taken, w, reset);
    var aborted := Step(taken, AbortNow(w, reset));
    ResetsEndExactly(aborted, reset);
    var r := Step(aborted, RunReset(reset));
    assert r.tasks == s.tasks[t := StopReturned(Fine)][w := WorkerEnded][reset := Ended];
  }

  /** A tunnel to be reaped is closed, and only such a tunnel. */
  lemma ReapedExactly(s: State, tunnel: TunnelId)
    ensures Step(s, Reaped(tunnel)) ==
            if tunnel in s.places && s.places[tunnel] == Reaping then s.(places := s.places[tunnel := Closed]) else s
  {
  }

  // ----- a stop that is dropped

  /** A stop dropped while it closes the tunnel or finishes leaves the service to its guard,
      whose reset makes it idle. */
  lemma DroppedStopsEndIdle(s: State, t: TaskId, reset: TaskId)
    requires Free(s) && t in s.tasks && (s.tasks[t].StopClosing? || s.tasks[t].StopFinishing?) && reset !in s.tasks
    requires s.service == Stopping(s.tasks[t].op)
    ensures var r := Step(Step(s, DropStop(t, reset)), RunReset(reset));
            && r.service == Idle && Free(r) && r.status == IdleStatus() && r.log == s.log + [IdleStatus()]
            && r.tasks == s.tasks[t := Ended][reset := Ended] && s.tasks[t].op !in r.guards
            && r.places == if s.tasks[t].StopClosing? then s.places[s.tasks[t].tunnel := Reaping] else s.places
  {
    var op := s.tasks[t].op;
    var dropped := Step(s, DropStop(t, reset));
    assert dropped == DroppingStop(s, t, reset);
    assert dropped.tasks == s.tasks[t := Ended][reset := Resetting(op)];
    ResetsEndExactly(dropped, reset);
    assert dropped.tasks[reset := Ended] == s.tasks[t := Ended][reset := Ended];
  }

  /** A start or stop dropped before its first lock, or a start before its task is attached,
      leaves everything else as it is: an accepted start task goes on. */
  lemma DroppedCallsEndAlone(s: State, t: TaskId, reset: TaskId)
    requires t in s.tasks
    ensures s.tasks[t].StartCalled? || s.tasks[t].StartAccepted? ==> Step(s, DropStart(t)) == Put(s, t, Ended)
    ensures s.tasks[t].StopCalled? ==> Step(s, DropStop(t, reset)) == Put(s, t, Ended)
  {
  }

  // ----- the event task

  /** The event task publishes its own tunnel, and only until it has ended. */
  lemma EventsPublishExactly(s: State, tunnel: TunnelId, connections: int, lastError: Option<int>)
    ensures var r := Step(s, EventPublish(tunnel, connections, lastError));
            if tunnel in s.events && !s.events[tunnel].Over?
            then && r.status == ActiveStatus(tunnel, s.events[tunnel].mode, connections, lastError)
                 && r == s.(status := r.status, log := s.log + [r.status])
            else r == s
  {
  }
}
