/** Runs in which the published status ends up disagreeing with the service state, or
    shows a tunnel after its Stopping. */
module ManagedTunnelRaces {
  import opened Prelude
  import opened ManagedTunnel
  import opened ManagedTunnelStatus

  lemma Extend(schedule: seq<Action>, a: Action)
    ensures Exec(Init(), schedule + [a]) == Step(Exec(Init(), schedule), a)
  {
    assert (schedule + [a])[..|schedule + [a]| - 1] == schedule;
  }

  /** Only `changed` differ from before. */
  ghost predicate OthersKept(before: map<TaskId, Task>, after: map<TaskId, Task>, changed: set<TaskId>) {
    after.Keys == before.Keys + changed && forall x <- before :: x !in changed ==> after[x] == before[x]
  }

  lemma AcceptStep(s: State, t: TaskId, worker: TaskId)
    requires t in s.tasks && s.tasks[t].StartCalled? && Free(s) && s.service.Idle? && worker !in s.tasks
    requires s.issued < U64_MAX
    ensures var r := Step(s, BeginStart(t, worker));
            var op := s.issued + 1;
            && Free(r) && r.service == Starting(op, None) && r.issued == op && r.places == s.places
            && OthersKept(s.tasks, r.tasks, {t, worker}) && r.tasks[worker] == Connecting(op, s.tasks[t].mode)
  {
    OperationIdsCount(s.issued);
    assert Step(s, BeginStart(t, worker)) == Accepted(s, t, worker, s.tasks[t].mode, s.issued + 1);
  }

  /** A caller starts and is accepted. */
  lemma Start(schedule: seq<Action>, t: TaskId, worker: TaskId, mode: Mode) returns (longer: seq<Action>)
    requires var s := Exec(Init(), schedule);
             Free(s) && s.service.Idle? && t !in s.tasks && worker !in s.tasks && t != worker && s.issued < U64_MAX
    ensures var s := Exec(Init(), schedule);
            var r := Exec(Init(), longer);
            && Free(r) && r.service == Starting(s.issued + 1, None) && r.issued == s.issued + 1
            && OthersKept(s.tasks, r.tasks, {t, worker}) && r.tasks[worker] == Connecting(s.issued + 1, mode)
            && r.places == s.places
  {
    var s := Exec(Init(), schedule);
    Extend(schedule, CallStart(t, mode));
    var called := schedule + [CallStart(t, mode)];
    assert Exec(Init(), called) == Put(s, t, StartCalled(mode));
    AcceptStep(Exec(Init(), called), t, worker);
    Extend(called, BeginStart(t, worker));
    longer := called + [BeginStart(t, worker)];
  }

  lemma FailStep(s: State, w: TaskId)
    requires Free(s) && w in s.tasks && s.tasks[w].Failing? && s.service == Starting(s.tasks[w].op, None)
    ensures var r := Step(s, FailStart(w));
            && Free(r) && r.service.Idle? && r.issued == s.issued && r.status == IdleStatus()
            && r.tasks == s.tasks[w := Reporting] && r.places == s.places
  {
    assert Step(s, FailStart(w)) == FailIn(s, w, s.tasks[w].op);
  }

  /** The start fails and resets the service; its report is still to come. */
  lemma Fail(schedule: seq<Action>, w: TaskId) returns (longer: seq<Action>)
    requires var s := Exec(Init(), schedule);
             Free(s) && w in s.tasks && s.tasks[w].Connecting? && s.service == Starting(s.tasks[w].op, None)
    ensures var s := Exec(Init(), schedule);
            var r := Exec(Init(), longer);
            && Free(r) && r.service.Idle? && r.issued == s.issued && r.status == IdleStatus()
            && r.tasks == s.tasks[w := Reporting] && r.places == s.places
  {
    var s := Exec(Init(), schedule);
    Extend(schedule, ConnectFails(w));
    var failed := schedule + [ConnectFails(w)];
    assert Exec(Init(), failed) == Put(s, w, Failing(s.tasks[w].op));
    FailStep(Exec(Init(), failed), w);
    Extend(failed, FailStart(w));
    longer := failed + [FailStart(w)];
    assert s.tasks[w := Failing(s.tasks[w].op)][w := Reporting] == s.tasks[w := Reporting];
  }

  /** The report reads the status it will republish. */
  lemma ReadStatus(schedule: seq<Action>, w: TaskId) returns (longer: seq<Action>)
    requires var s := Exec(Init(), schedule); w in s.tasks && s.tasks[w].Reporting?
    ensures var s := Exec(Init(), schedule); Exec(Init(), longer) == Put(s, w, ReportingStale(s.status))
  {
    Extend(schedule, ReportRead(w));
    longer := schedule + [ReportRead(w)];
  }

  lemma WriteStale(schedule: seq<Action>, w: TaskId, category: int) returns (longer: seq<Action>)
    requires var s := Exec(Init(), schedule); w in s.tasks && s.tasks[w].ReportingStale?
    ensures var s := Exec(Init(), schedule);
            var r := Exec(Init(), longer);
            && r.holder == s.holder && r.service == s.service && r.stopped == s.stopped
            && r.status == s.tasks[w].read.(lastError := Some(category)) && r.log == s.log + [r.status]
  {
    longer := schedule + [ReportWrite(w, category)];
    Extend(schedule, ReportWrite(w, category));
    var s := Exec(Init(), schedule);
    assert Exec(Init(), longer) == Put(Publish(s, s.tasks[w].read.(lastError := Some(category))), w, WorkerEnded);
  }

  /** The first start of a run has failed and its report is to come. */
  lemma FailsOnce(mode: Mode) returns (schedule: seq<Action>)
    ensures var s := Exec(Init(), schedule);
            && Free(s) && s.service.Idle? && s.status == IdleStatus() && s.issued == 1 && s.tasks.Keys == {0, 1}
            && s.tasks[1] == Reporting && s.places == map[]
  {
    schedule := Start([], 0, 1, mode);
    schedule := Fail(schedule, 1);
  }

  lemma ReadsIdle(mode: Mode) returns (schedule: seq<Action>)
    ensures var s := Exec(Init(), schedule);
            && Free(s) && s.service.Idle? && s.issued == 1 && s.tasks.Keys == {0, 1}
            && s.tasks[1] == ReportingStale(IdleStatus())
  {
    schedule := FailsOnce(mode);
    schedule := ReadStatus(schedule, 1);
  }

  /** A failed start reads the idle status to report its error, another start is
      accepted, and the report republishes Idle: the service is Starting and the status
      says Idle. */
  lemma StaleReportHidesAStart(mode: Mode, category: int) returns (schedule: seq<Action>)
    ensures var s := Exec(Init(), schedule);
            Free(s) && s.service.Starting? && s.status.phase == IdlePhase && !Shows(s.status, s.service)
  {
    schedule := ReadsIdle(mode);
    schedule := Start(schedule, 2, 3, mode);
    schedule := WriteStale(schedule, 1, category);
  }

  lemma ConnectStep(s: State, w: TaskId, tunnel: TunnelId)
    requires w in s.tasks && s.tasks[w].Connecting? && tunnel !in s.places
    ensures var r := Step(s, Connect(w, tunnel));
            && r.tasks == s.tasks[w := Connected(s.tasks[w].op, s.tasks[w].mode, tunnel)]
            && r.service == s.service && r.holder == s.holder && r.issued == s.issued && r.stopped == s.stopped
  {
    assert Step(s, Connect(w, tunnel)) == Establish(s, w, s.tasks[w].op, s.tasks[w].mode, tunnel);
  }

  lemma FinishStep(s: State, w: TaskId)
    requires w in s.tasks && s.tasks[w].Connected? && Free(s) && s.service == Starting(s.tasks[w].op, None)
    ensures var r := Step(s, FinishStart(w));
            && r.tasks == s.tasks[w := Activating(s.tasks[w].mode, s.tasks[w].tunnel)]
            && r.service == Active(s.tasks[w].tunnel, s.tasks[w].mode) && r.issued == s.issued
            && r.events == s.events[s.tasks[w].tunnel := Running(s.tasks[w].mode)]
  {
    assert Step(s, FinishStart(w)) == Activate(s, w, s.tasks[w].op, s.tasks[w].mode, s.tasks[w].tunnel);
  }

  lemma PublishStep(s: State, w: TaskId)
    requires w in s.tasks && s.tasks[w].Activating?
    ensures var r := Step(s, PublishActive(w, 0));
            && OthersKept(s.tasks, r.tasks, {w}) && r.service == s.service && Free(r) && r.issued == s.issued
            && r.events == s.events
            && r.status == ActiveStatus(s.tasks[w].tunnel, s.tasks[w].mode, 0, None)
  {
    assert Step(s, PublishActive(w, 0)) == PublishingActive(s, w, s.tasks[w].mode, s.tasks[w].tunnel, 0);
  }

  /** The start connects and becomes active, with its status published. */
  lemma Connects(schedule: seq<Action>, w: TaskId, tunnel: TunnelId) returns (longer: seq<Action>)
    requires var s := Exec(Init(), schedule);
             && Free(s) && w in s.tasks && s.tasks[w].Connecting? && s.service == Starting(s.tasks[w].op, None)
             && tunnel !in s.places
    ensures var s := Exec(Init(), schedule);
            var r := Exec(Init(), longer);
            && Free(r) && r.service == Active(tunnel, s.tasks[w].mode) && r.issued == s.issued
            && r.status == ActiveStatus(tunnel, s.tasks[w].mode, 0, None) && OthersKept(s.tasks, r.tasks, {w})
            && tunnel in r.events && r.events[tunnel] == Running(s.tasks[w].mode)
  {
    ConnectStep(Exec(Init(), schedule), w, tunnel);
    Extend(schedule, Connect(w, tunnel));
    var connected := schedule + [Connect(w, tunnel)];
    FinishStep(Exec(Init(), connected), w);
    Extend(connected, FinishStart(w));
    var finished := connected + [FinishStart(w)];
    PublishStep(Exec(Init(), finished), w);
    Extend(finished, PublishActive(w, 0));
    longer := finished + [PublishActive(w, 0)];
  }

  lemma TakeStep(s: State, t: TaskId)
    requires t in s.tasks && s.tasks[t].StopCalled? && Free(s) && s.service.Active?
    requires s.service.tunnel in s.events && s.events[s.service.tunnel].Running?
    ensures var r := Step(s, BeginStop(t));
            && r.service == Idle && r.status == s.status && r.log == s.log
            && r.tasks == s.tasks[t := StopAwaitingEvents(OperationId(s.issued), s.service.tunnel, s.service.mode)]
            && s.service.tunnel in r.events && r.events[s.service.tunnel].Aborting?
  {
    assert Step(s, BeginStop(t)) == TakeActive(s, t, OperationId(s.issued), s.service.tunnel, s.service.mode);
  }

  /** A stop takes the active tunnel and waits for its event task. */
  lemma StopTakes(schedule: seq<Action>, t: TaskId) returns (longer: seq<Action>)
    requires var s := Exec(Init(), schedule);
             Free(s) && s.service.Active? && t !in s.tasks
             && s.service.tunnel in s.events && s.events[s.service.tunnel].Running?
    ensures var s := Exec(Init(), schedule);
            var r := Exec(Init(), longer);
            && r.service.Idle? && r.status == s.status && OthersKept(s.tasks, r.tasks, {t})
            && r.tasks[t].StopAwaitingEvents? && r.tasks[t].tunnel == s.service.tunnel
            && s.service.tunnel in r.events && r.events[s.service.tunnel].Aborting?
  {
    Extend(schedule, CallStop(t));
    var called := schedule + [CallStop(t)];
    assert Exec(Init(), called) == Put(Exec(Init(), schedule), t, StopCalled);
    TakeStep(Exec(Init(), called), t);
    Extend(called, BeginStop(t));
    longer := called + [BeginStop(t)];
  }

  lemma EventEndStep(s: State, tunnel: TunnelId)
    requires tunnel in s.events && s.events[tunnel].Aborting?
    ensures Step(s, EventTaskEnds(tunnel)) == s.(events := s.events[tunnel := Over])
  {
  }

  lemma StoppingStep(s: State, t: TaskId)
    requires t in s.tasks && s.tasks[t].StopAwaitingEvents?
    requires s.tasks[t].tunnel in s.events && s.events[s.tasks[t].tunnel].Over?
    ensures var r := Step(s, EventsEnded(t));
            && r.service.Stopping? && r.stopped == s.stopped[s.tasks[t].tunnel := |s.log|] && |r.log| == |s.log| + 1
            && OthersKept(s.tasks, r.tasks, {t})
  {
    assert Step(s, EventsEnded(t)) == StoppingShown(s, t, s.tasks[t].op, s.tasks[t].tunnel, s.tasks[t].mode);
  }

  /** The event task ends and Stopping is published. */
  lemma StopProceeds(schedule: seq<Action>, t: TaskId) returns (longer: seq<Action>)
    requires var s := Exec(Init(), schedule);
             && t in s.tasks && s.tasks[t].StopAwaitingEvents?
             && s.tasks[t].tunnel in s.events && s.events[s.tasks[t].tunnel].Aborting?
    ensures var s := Exec(Init(), schedule);
            var r := Exec(Init(), longer);
            && r.service.Stopping? && OthersKept(s.tasks, r.tasks, {t})
            && s.tasks[t].tunnel in r.stopped && r.stopped[s.tasks[t].tunnel] == |r.log| - 1
  {
    var s := Exec(Init(), schedule);
    var tunnel := s.tasks[t].tunnel;
    EventEndStep(s, tunnel);
    Extend(schedule, EventTaskEnds(tunnel));
    var ended := schedule + [EventTaskEnds(tunnel)];
    StoppingStep(Exec(Init(), ended), t);
    Extend(ended, EventsEnded(t));
    longer := ended + [EventsEnded(t)];
  }

  /** A start has failed and not yet reported, and another one was accepted. */
  lemma FailThenStart(mode: Mode) returns (schedule: seq<Action>)
    ensures var s := Exec(Init(), schedule);
            && Free(s) && s.service == Starting(2, None) && s.tasks.Keys == {0, 1, 2, 3} && s.places == map[]
            && s.tasks[1] == Reporting && s.tasks[3] == Connecting(2, mode)
  {
    schedule := FailsOnce(mode);
    schedule := Start(schedule, 2, 3, mode);
  }

  /** The report of the failed start has read that the other one is active. */
  lemma ReadsActive(mode: Mode, tunnel: TunnelId) returns (schedule: seq<Action>)
    ensures var s := Exec(Init(), schedule);
            && Free(s) && s.service == Active(tunnel, mode) && s.tasks.Keys == {0, 1, 2, 3}
            && tunnel in s.events && s.events[tunnel].Running?
            && s.tasks[1] == ReportingStale(ActiveStatus(tunnel, mode, 0, None))
  {
    schedule := FailThenStart(mode);
    schedule := Connects(schedule, 3, tunnel);
    schedule := ReadStatus(schedule, 1);
  }

  /** The report of a failed start reads the status of a tunnel that is active by then,
      the tunnel is stopped, and the report shows it as active after its Stopping. */
  lemma StaleReportRevivesATunnel(mode: Mode, tunnel: TunnelId, category: int) returns (schedule: seq<Action>)
    ensures var s := Exec(Init(), schedule);
            && s.service.Stopping? && s.status.phase == ActivePhase
            && tunnel in s.stopped && !NotShownFrom(s.log, tunnel, s.stopped[tunnel])
  {
    schedule := ReadsActive(mode, tunnel);
    schedule := StopTakes(schedule, 4);
    schedule := StopProceeds(schedule, 4);
    schedule := WriteStale(schedule, 1, category);
    var s := Exec(Init(), schedule);
    assert s.log[|s.log| - 1].tunnel == Some(tunnel);
  }

  lemma DropStep(s: State, t: TaskId, reset: TaskId)
    requires t in s.tasks && s.tasks[t].StopAwaitingEvents?
    ensures var r := Step(s, DropStop(t, reset)); r.service == s.service && r.status == s.status && Free(r)
  {
    assert Step(s, DropStop(t, reset)) == Put(Move(s.(holder := None), s.tasks[t].tunnel, Reaping), t, Ended);
  }

  /** A stop takes the active tunnel and is dropped while the event task winds down. */
  lemma StopDropped(schedule: seq<Action>, t: TaskId, reset: TaskId) returns (longer: seq<Action>)
    requires var s := Exec(Init(), schedule);
             Free(s) && s.service.Active? && t !in s.tasks
             && s.service.tunnel in s.events && s.events[s.service.tunnel].Running?
    ensures var s := Exec(Init(), schedule);
            var r := Exec(Init(), longer);
            Free(r) && r.service.Idle? && r.status == s.status
  {
    var taken := StopTakes(schedule, t);
    DropStep(Exec(Init(), taken), t, reset);
    Extend(taken, DropStop(t, reset));
    longer := taken + [DropStop(t, reset)];
  }

  /** A stop dropped inside `begin_stop` leaves the service Idle with the tunnel still
      shown as active. */
  lemma DroppedStopLeavesActiveShown(mode: Mode, tunnel: TunnelId) returns (schedule: seq<Action>)
    ensures var s := Exec(Init(), schedule);
            Free(s) && s.service.Idle? && s.status.phase == ActivePhase && !Shows(s.status, s.service)
  {
    schedule := Start([], 0, 1, mode);
    schedule := Connects(schedule, 1, tunnel);
    schedule := StopDropped(schedule, 2, 3);
  }
}
