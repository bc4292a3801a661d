/** Publication, token rotation and admission on a shared node
    (core/src/tunnel/iroh/node.rs). Any number of tasks interleave; a step of a
    task runs from one lock acquisition or await to the next. A schedule is any
    sequence of actions; an action that is not enabled changes nothing. */
module HostedNode {
  import opened Prelude
  import opened Bytes
  import opened Clocks
  import opened HostState
  import opened TokenResolution
  import opened ControlRequest

  type TaskId = int

  /** A `HostedService`, known by its index: the index plays the part of the `Arc`
      pointer that rotation compares. */
  type PubId = int

  datatype Phase = Active | Stopping | Stopped

  datatype Status = Status(
    phase: Phase, uriGeneration: int, createdAt: int, nextRotationAt: Option<int>,
    connectionCount: int, lastError: Option<int>)

  /** `rotating` is the holder of the rotation lock and `version` the version of the
      status channel. The history: `committed` is every token state the start or a
      rotation stored, and `midCommit` holds between the two writes of a commit. */
  datatype Publication = Publication(
    serviceId: ServiceId, sessionGeneration: int, refresh: Option<nat>, token: Token,
    status: Status, version: int, resets: int, rotating: Option<TaskId>,
    committed: seq<TokenState>, midCommit: bool)

  /** `owner` is history: the publication whose rotation loop makes the attempt. */
  datatype Attempt = Attempt(serviceId: ServiceId, expected: Option<int>, resetTimer: bool, owner: Option<PubId>)

  datatype Offer = Offer(serviceId: ServiceId, resolved: Resolved)

  /** For a rotation, `NotFound` and `InProgress` are the two errors its loop tells apart. */
  datatype Outcome =
    | Published(p: PubId)
    | Refused
    | NotFound
    | InProgress
    | RotatedTo(p: PubId, state: TokenState, index: int)
    | TokenStateIs(p: PubId, state: TokenState, index: int)
    | UriTokenIs(p: PubId, token: Token, index: int)
    | Admitted(p: PubId, index: int)
    | Finished

  datatype Task =
    // start_service
    | Offering(offer: Offer)
    | GenerationLoaded(offer: Offer, seen: int)
    | GenerationTaken(offer: Offer, generation: int)
    // rotate_token_inner
    | RotationRequested(attempt: Attempt)
    | RotationFound(attempt: Attempt, p: PubId)
    | RotationLocked(attempt: Attempt, p: PubId)
    | RotationReady(attempt: Attempt, p: PubId, state: TokenState, deadline: Option<int>)
    | RotationChecked(attempt: Attempt, p: PubId, state: TokenState, deadline: Option<int>)
    | RotationWritten(attempt: Attempt, p: PubId, state: TokenState, deadline: Option<int>)
    | RotationCounted(attempt: Attempt, p: PubId, state: TokenState)
    // token_state (with the creation time) and join_uri (without)
    | ReadRequested(serviceId: ServiceId, dated: bool)
    | ReadEntered(p: PubId, dated: bool)
    | ReadLocked(p: PubId, dated: bool)
    | ReadDated(p: PubId, createdAt: int, index: int)
    // stop_service and close, after the removal
    | Draining(left: set<PubId>)
    | DrainingOne(p: PubId, left: set<PubId>)
    // record_rotation_failure
    | ReportRequested(serviceId: ServiceId, generation: int, category: int, owner: PubId)
    | ReportFound(p: PubId, category: int, owner: PubId)
    // route_connection
    | RouteRequested(request: Request)
    | RouteFound(p: PubId, request: Request)
    | Done(outcome: Outcome)
    | Dropped

  datatype State = State(
    limits: Limits, pubs: seq<Publication>, services: map<ServiceId, PubId>, readers: set<TaskId>,
    sessionNext: int, tasks: map<TaskId, Task>)

  datatype Action =
    | BeginStart(t: TaskId, serviceId: ServiceId, policy: Policy, saved: Option<TokenState>, now: Reading, drawn: Token)
    | BeginRotation(t: TaskId, serviceId: ServiceId)
    | BeginAutomaticRotation(t: TaskId, p: PubId)
    | BeginRead(t: TaskId, serviceId: ServiceId, dated: bool)
    | BeginReport(t: TaskId, p: PubId, category: int)
    | BeginRoute(t: TaskId, request: Request)
    | Stop(t: TaskId, serviceId: ServiceId)
    | Close(t: TaskId)
    | Generate(t: TaskId, drawn: Token, at: int)
    | SwapFails(t: TaskId)
    | Advance(t: TaskId)
    | Drop(t: TaskId)
    | DrainNext(t: TaskId, p: PubId)
    | CountConnections(p: PubId, count: int)

  function Init(limits: Limits): State {
    State(limits, [], map[], {}, 1, map[])
  }

  // ----- HostedStatus

  function RotateUri(status: Status, createdAt: int, deadline: Option<int>): Status {
    status.(uriGeneration := SaturatingAdd(Max(status.uriGeneration, 0), 1, U64_MAX),
            createdAt := createdAt, nextRotationAt := deadline)
  }

  /** `HostedStatus::update`: every change bumps the version subscribers compare. */
  function WithStatus(pub: Publication, status: Status): Publication {
    pub.(status := status, version := pub.version + 1)
  }

  // ----- building blocks

  function Put(s: State, t: TaskId, task: Task): State {
    s.(tasks := s.tasks[t := task])
  }

  predicate ValidPub(s: State, p: PubId) {
    0 <= p < |s.pubs|
  }

  function SetPub(s: State, p: PubId, pub: Publication): State
    requires ValidPub(s, p)
  {
    s.(pubs := s.pubs[p := pub])
  }

  predicate IsPublished(pubs: seq<Publication>, services: map<ServiceId, PubId>, p: PubId) {
    0 <= p < |pubs| && pubs[p].serviceId in services && services[pubs[p].serviceId] == p
  }

  /** Gives the rotation lock back, if `t` has it. */
  function Unlock(s: State, t: TaskId, p: PubId): State {
    if ValidPub(s, p) && s.pubs[p].rotating == Some(t) then SetPub(s, p, s.pubs[p].(rotating := None)) else s
  }

  function Leave(s: State, t: TaskId): State {
    s.(readers := s.readers - {t})
  }

  // ----- start_service

  function FreshPublication(offer: Offer, generation: int): Publication {
    var r := offer.resolved;
    Publication(offer.serviceId, generation, r.refresh, r.state.token,
                Status(Active, 1, r.state.createdAt, r.deadline, 0, None), 0, 0, None, [r.state], false)
  }

  /** The compare-exchange, after the load it retries on failure. */
  function SwapGeneration(s: State, t: TaskId, offer: Offer, seen: int): State {
    if s.sessionNext == seen then Put(s.(sessionNext := seen + 1), t, GenerationTaken(offer, seen))
    else Put(s, t, Offering(offer))
  }

  /** Under the write lock. */
  function Insert(s: State, t: TaskId, offer: Offer, generation: int): State {
    if s.readers != {} then s
    else if offer.serviceId in s.services then Put(s, t, Done(Refused))
    else
      Put(s.(pubs := s.pubs + [FreshPublication(offer, generation)],
             services := s.services[offer.serviceId := |s.pubs|]),
          t, Done(Published(|s.pubs|)))
  }

  // ----- rotate_token_inner

  function LookUp(s: State, t: TaskId, attempt: Attempt): State {
    if attempt.serviceId !in s.services || !ValidPub(s, s.services[attempt.serviceId]) then Put(s, t, Done(NotFound))
    else
      var p := s.services[attempt.serviceId];
      if attempt.expected.Some? && attempt.expected.value != s.pubs[p].sessionGeneration then Put(s, t, Done(NotFound))
      else Put(s, t, RotationFound(attempt, p))
  }

  function TryLock(s: State, t: TaskId, attempt: Attempt, p: PubId): State {
    if !ValidPub(s, p) || s.pubs[p].rotating.Some? then Put(s, t, Done(InProgress))
    else Put(SetPub(s, p, s.pubs[p].(rotating := Some(t))), t, RotationLocked(attempt, p))
  }

  function Prepare(s: State, t: TaskId, attempt: Attempt, p: PubId, drawn: Token, now: int): State {
    if !ValidPub(s, p) then s
    else
      var deadline := RotationDeadline(s.limits, now, s.pubs[p].refresh);
      if deadline.None? then Put(Unlock(s, t, p), t, Done(Refused))
      else Put(s, t, RotationReady(attempt, p, TokenState(drawn, now), deadline.value))
  }

  /** Takes the read lock and re-checks that the map still holds this publication. */
  function Recheck(s: State, t: TaskId, attempt: Attempt, p: PubId, state: TokenState, deadline: Option<int>): State {
    if !IsPublished(s.pubs, s.services, p) then Put(Unlock(s, t, p), t, Done(NotFound))
    else Put(s.(readers := s.readers + {t}), t, RotationChecked(attempt, p, state, deadline))
  }

  function WriteToken(pub: Publication, state: TokenState): Publication {
    pub.(token := state.token, committed := pub.committed + [state], midCommit := true)
  }

  function CountRotation(pub: Publication, state: TokenState, deadline: Option<int>): Publication {
    WithStatus(pub, RotateUri(pub.status, state.createdAt, deadline)).(midCommit := false)
  }

  function Resetting(pub: Publication, attempt: Attempt): Publication {
    pub.(resets := if attempt.resetTimer then pub.resets + 1 else pub.resets, rotating := None)
  }

  function AdvanceRotation(s: State, t: TaskId, task: Task): State {
    match task
    case RotationRequested(attempt) => LookUp(s, t, attempt)
    case RotationFound(attempt, p) => TryLock(s, t, attempt, p)
    case RotationReady(attempt, p, state, deadline) => Recheck(s, t, attempt, p, state, deadline)
    case RotationChecked(attempt, p, state, deadline) =>
      if !ValidPub(s, p) then s
      else Put(SetPub(s, p, WriteToken(s.pubs[p], state)), t, RotationWritten(attempt, p, state, deadline))
    case RotationWritten(attempt, p, state, deadline) =>
      if !ValidPub(s, p) then s
      else Put(SetPub(s, p, CountRotation(s.pubs[p], state, deadline)), t, RotationCounted(attempt, p, state))
    case RotationCounted(attempt, p, state) =>
      if !ValidPub(s, p) then s
      else Put(Leave(SetPub(s, p, Resetting(s.pubs[p], attempt)), t), t,
               Done(RotatedTo(p, state, |s.pubs[p].committed|)))
    case _ => s
  }

  // ----- token_state and join_uri

  function AdvanceRead(s: State, t: TaskId, task: Task): State {
    match task
    case ReadRequested(serviceId, dated) =>
      if serviceId !in s.services then Put(s, t, Done(Refused))
      else Put(s.(readers := s.readers + {t}), t, ReadEntered(s.services[serviceId], dated))
    case ReadEntered(p, dated) =>
      if !ValidPub(s, p) || s.pubs[p].rotating.Some? then s
      else Put(SetPub(s, p, s.pubs[p].(rotating := Some(t))), t, ReadLocked(p, dated))
    case ReadLocked(p, dated) =>
      if !ValidPub(s, p) then s
      else if dated then Put(s, t, ReadDated(p, s.pubs[p].status.createdAt, |s.pubs[p].committed|))
      else Put(Leave(Unlock(s, t, p), t), t, Done(UriTokenIs(p, s.pubs[p].token, |s.pubs[p].committed|)))
    case ReadDated(p, createdAt, index) =>
      if !ValidPub(s, p) then s
      else Put(Leave(Unlock(s, t, p), t), t, Done(TokenStateIs(p, TokenState(s.pubs[p].token, createdAt), index)))
    case _ => s
  }

  // ----- stop_service and close

  function Remove(s: State, t: TaskId, serviceId: ServiceId): State {
    if s.readers != {} then s
    else if serviceId !in s.services then Put(s, t, Done(Refused))
    else Put(s.(services := s.services - {serviceId}), t, Draining({s.services[serviceId]}))
  }

  function RemoveAll(s: State, t: TaskId): State {
    if s.readers != {} then s else Put(s.(services := map[]), t, Draining(s.services.Values))
  }

  function SetPhase(s: State, p: PubId, phase: Phase): State {
    if !ValidPub(s, p) then s else SetPub(s, p, WithStatus(s.pubs[p], s.pubs[p].status.(phase := phase)))
  }

  // ----- record_rotation_failure and other status writers

  function AdvanceReport(s: State, t: TaskId, task: Task): State {
    match task
    case ReportRequested(serviceId, generation, category, owner) =>
      if serviceId in s.services && ValidPub(s, s.services[serviceId])
         && s.pubs[s.services[serviceId]].sessionGeneration == generation
      then Put(s, t, ReportFound(s.services[serviceId], category, owner))
      else Put(s, t, Done(Finished))
    case ReportFound(p, category, owner) =>
      if !ValidPub(s, p) then s
      else Put(SetPub(s, p, WithStatus(s.pubs[p], s.pubs[p].status.(lastError := Some(category)))), t, Done(Finished))
    case _ => s
  }

  // ----- route_connection

  function AdvanceRoute(s: State, t: TaskId, task: Task): State {
    match task
    case RouteRequested(request) =>
      if request.serviceId !in s.services then Put(s, t, Done(Refused))
      else Put(s, t, RouteFound(s.services[request.serviceId], request))
    case RouteFound(p, request) =>
      if ValidPub(s, p) && s.pubs[p].token == request.token then Put(s, t, Done(Admitted(p, |s.pubs[p].committed|)))
      else Put(s, t, Done(Refused))
    case _ => s
  }

  // ----- the step function

  function Advancing(s: State, t: TaskId): State
    requires t in s.tasks
  {
    match s.tasks[t]
    case Offering(offer) => Put(s, t, GenerationLoaded(offer, s.sessionNext))
    case GenerationLoaded(offer, seen) =>
      if seen == U64_MAX then Put(s, t, Done(Refused)) else SwapGeneration(s, t, offer, seen)
    case GenerationTaken(offer, generation) => Insert(s, t, offer, generation)
    case ReadRequested(_, _) => AdvanceRead(s, t, s.tasks[t])
    case ReadEntered(_, _) => AdvanceRead(s, t, s.tasks[t])
    case ReadLocked(_, _) => AdvanceRead(s, t, s.tasks[t])
    case ReadDated(_, _, _) => AdvanceRead(s, t, s.tasks[t])
    case Draining(left) => if left == {} then Put(s, t, Done(Finished)) else s
    case DrainingOne(p, left) => Put(SetPhase(s, p, Stopped), t, Draining(left))
    case ReportRequested(_, _, _, _) => AdvanceReport(s, t, s.tasks[t])
    case ReportFound(_, _, _) => AdvanceReport(s, t, s.tasks[t])
    case RouteRequested(_) => AdvanceRoute(s, t, s.tasks[t])
    case RouteFound(_, _) => AdvanceRoute(s, t, s.tasks[t])
    case _ => AdvanceRotation(s, t, s.tasks[t])
  }

  /** A rotation or a reader may be dropped wherever it awaits; its guards go with it. */
  function Dropping(s: State, t: TaskId): State
    requires t in s.tasks
  {
    match s.tasks[t]
    case RotationRequested(_) => Put(s, t, Dropped)
    case RotationReady(_, p, _, _) => Put(Unlock(s, t, p), t, Dropped)
    case RotationChecked(_, p, _, _) => Put(Leave(Unlock(s, t, p), t), t, Dropped)
    case ReadRequested(_, _) => Put(s, t, Dropped)
    case ReadEntered(_, _) => Put(Leave(s, t), t, Dropped)
    case ReadLocked(p, dated) => if dated then s else Put(Leave(Unlock(s, t, p), t), t, Dropped)
    case ReadDated(p, _, _) => Put(Leave(Unlock(s, t, p), t), t, Dropped)
    case _ => s
  }

  function Step(s: State, a: Action): State {
    match a
    case BeginStart(t, serviceId, policy, saved, now, drawn) =>
      if t in s.tasks then s
      else
        var resolved := Resolve(s.limits, policy, saved, now, drawn);
        Put(s, t, if resolved.None? then Done(Refused) else Offering(Offer(serviceId, resolved.value)))
    case BeginRotation(t, serviceId) =>
      if t in s.tasks then s else Put(s, t, RotationRequested(Attempt(serviceId, None, true, None)))
    case BeginAutomaticRotation(t, p) =>
      if t in s.tasks || !ValidPub(s, p) || s.pubs[p].refresh.None? then s
      else Put(s, t, RotationRequested(Attempt(s.pubs[p].serviceId, Some(s.pubs[p].sessionGeneration), false, Some(p))))
    case BeginRead(t, serviceId, dated) =>
      if t in s.tasks then s else Put(s, t, ReadRequested(serviceId, dated))
    case BeginReport(t, p, category) =>
      if t in s.tasks || !ValidPub(s, p) || s.pubs[p].refresh.None? then s
      else Put(s, t, ReportRequested(s.pubs[p].serviceId, s.pubs[p].sessionGeneration, category, p))
    case BeginRoute(t, request) =>
      if t in s.tasks then s else Put(s, t, RouteRequested(request))
    case Stop(t, serviceId) => if t in s.tasks then s else Remove(s, t, serviceId)
    case Close(t) => if t in s.tasks then s else RemoveAll(s, t)
    case Generate(t, drawn, at) =>
      if t in s.tasks && s.tasks[t].RotationLocked? then Prepare(s, t, s.tasks[t].attempt, s.tasks[t].p, drawn, at) else s
    case SwapFails(t) =>
      if t in s.tasks && s.tasks[t].GenerationLoaded? then Put(s, t, Offering(s.tasks[t].offer)) else s
    case Advance(t) => if t in s.tasks then Advancing(s, t) else s
    case Drop(t) => if t in s.tasks then Dropping(s, t) else s
    case DrainNext(t, p) =>
      if t in s.tasks && s.tasks[t].Draining? && p in s.tasks[t].left
      then Put(SetPhase(s, p, Stopping), t, DrainingOne(p, s.tasks[t].left - {p})) else s
    case CountConnections(p, count) =>
      if ValidPub(s, p) then SetPub(s, p, WithStatus(s.pubs[p], s.pubs[p].status.(connectionCount := count))) else s
  }

  function Exec(s: State, schedule: seq<Action>): State {
    if schedule == [] then s
    else Step(Exec(s, schedule[..|schedule| - 1]), Last(schedule))
  }
}
