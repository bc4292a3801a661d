/** What an operation of the hosted node does when nothing else takes a step: exactly
    when it succeeds, what it leaves, and how it fails otherwise. */
module HostedNodeProgress {
  import opened Prelude
  import opened Bytes
  import opened Clocks
  import opened HostState
  import opened TokenResolution
  import opened HostedNode
  import opened HostedNodeInvariant

  function Twice(s: State, t: TaskId): State {
    Step(Step(s, Advance(t)), Advance(t))
  }

  function FourTimes(s: State, t: TaskId): State {
    Twice(Twice(s, t), t)
  }

  // ----- rotation

  /** Nothing but the tasks has changed. */
  predicate OnlyTasks(s: State, r: State) {
    r.pubs == s.pubs && r.services == s.services && r.readers == s.readers && r.limits == s.limits
    && r.sessionNext == s.sessionNext
  }

  /** Nothing but the tasks and this publication has changed. */
  predicate OnlyPub(s: State, r: State, p: PubId, pub: Publication)
    requires ValidPub(s, p)
  {
    r.pubs == s.pubs[p := pub] && r.services == s.services && r.limits == s.limits && r.sessionNext == s.sessionNext
  }

  lemma LookUpFails(s: State, t: TaskId, attempt: Attempt)
    requires Inv(s) && t in s.tasks && s.tasks[t] == RotationRequested(attempt)
    requires attempt.serviceId !in s.services
             || (attempt.expected.Some?
                 && s.pubs[s.services[attempt.serviceId]].sessionGeneration != attempt.expected.value)
    ensures var r := Step(s, Advance(t)); OnlyTasks(s, r) && t in r.tasks && r.tasks[t] == Done(NotFound)
  {
    assert Step(s, Advance(t)) == LookUp(s, t, attempt);
  }

  lemma LookUpFinds(s: State, t: TaskId, attempt: Attempt, p: PubId)
    requires Inv(s) && t in s.tasks && s.tasks[t] == RotationRequested(attempt)
    requires attempt.serviceId in s.services && s.services[attempt.serviceId] == p
    requires attempt.expected.Some? ==> s.pubs[p].sessionGeneration == attempt.expected.value
    ensures var r := Step(s, Advance(t)); OnlyTasks(s, r) && t in r.tasks && r.tasks[t] == RotationFound(attempt, p)
  {
    assert Step(s, Advance(t)) == LookUp(s, t, attempt);
  }

  lemma LockStep(s: State, t: TaskId, attempt: Attempt, p: PubId)
    requires t in s.tasks && s.tasks[t] == RotationFound(attempt, p) && ValidPub(s, p)
    ensures var r := Step(s, Advance(t));
            && t in r.tasks
            && if s.pubs[p].rotating.Some? then OnlyTasks(s, r) && r.tasks[t] == Done(InProgress)
               else OnlyPub(s, r, p, s.pubs[p].(rotating := Some(t))) && r.readers == s.readers
                    && r.tasks[t] == RotationLocked(attempt, p)
  {
    assert Step(s, Advance(t)) == TryLock(s, t, attempt, p);
  }

  lemma PrepareStep(s: State, t: TaskId, attempt: Attempt, p: PubId, drawn: Token, at: int)
    requires t in s.tasks && s.tasks[t] == RotationLocked(attempt, p) && ValidPub(s, p) && s.pubs[p].rotating == Some(t)
    ensures var r := Step(s, Generate(t, drawn, at));
            var deadline := RotationDeadline(s.limits, at, s.pubs[p].refresh);
            && t in r.tasks && r.readers == s.readers
            && if deadline.None? then OnlyPub(s, r, p, s.pubs[p].(rotating := None)) && r.tasks[t] == Done(Refused)
               else OnlyTasks(s, r) && r.tasks[t] == RotationReady(attempt, p, TokenState(drawn, at), deadline.value)
  {
    assert Step(s, Generate(t, drawn, at)) == Prepare(s, t, attempt, p, drawn, at);
  }

  lemma RecheckStep(s: State, t: TaskId, attempt: Attempt, p: PubId, state: TokenState, deadline: Option<int>)
    requires t in s.tasks && s.tasks[t] == RotationReady(attempt, p, state, deadline)
    requires IsPublished(s.pubs, s.services, p)
    ensures var r := Step(s, Advance(t));
            && r.pubs == s.pubs && r.services == s.services && r.limits == s.limits && r.sessionNext == s.sessionNext
            && r.readers == s.readers + {t} && t in r.tasks && r.tasks[t] == RotationChecked(attempt, p, state, deadline)
  {
    assert Step(s, Advance(t)) == Recheck(s, t, attempt, p, state, deadline);
  }

  lemma WriteStep(s: State, t: TaskId, attempt: Attempt, p: PubId, state: TokenState, deadline: Option<int>)
    requires t in s.tasks && s.tasks[t] == RotationChecked(attempt, p, state, deadline) && ValidPub(s, p)
    ensures var r := Step(s, Advance(t));
            && OnlyPub(s, r, p, s.pubs[p].(token := state.token, committed := s.pubs[p].committed + [state], midCommit := true))
            && r.readers == s.readers && t in r.tasks && r.tasks[t] == RotationWritten(attempt, p, state, deadline)
  {
    assert Advancing(s, t) == AdvanceRotation(s, t, s.tasks[t]);
  }

  lemma CountStep(s: State, t: TaskId, attempt: Attempt, p: PubId, state: TokenState, deadline: Option<int>)
    requires t in s.tasks && s.tasks[t] == RotationWritten(attempt, p, state, deadline) && ValidPub(s, p)
    requires 0 <= s.pubs[p].status.uriGeneration
    ensures var r := Step(s, Advance(t));
            var status := s.pubs[p].status.(uriGeneration := Min(s.pubs[p].status.uriGeneration + 1, U64_MAX),
                                            createdAt := state.createdAt, nextRotationAt := deadline);
            && OnlyPub(s, r, p, s.pubs[p].(status := status, version := s.pubs[p].version + 1, midCommit := false))
            && r.readers == s.readers && t in r.tasks && r.tasks[t] == RotationCounted(attempt, p, state)
  {
    assert Advancing(s, t) == AdvanceRotation(s, t, s.tasks[t]);
  }

  lemma EndStep(s: State, t: TaskId, attempt: Attempt, p: PubId, state: TokenState)
    requires t in s.tasks && s.tasks[t] == RotationCounted(attempt, p, state) && ValidPub(s, p)
    ensures var r := Step(s, Advance(t));
            && OnlyPub(s, r, p, s.pubs[p].(resets := s.pubs[p].resets + (if attempt.resetTimer then 1 else 0), rotating := None))
            && r.readers == s.readers - {t} && t in r.tasks
            && r.tasks[t] == Done(RotatedTo(p, state, |s.pubs[p].committed|))
  {
    assert Advancing(s, t) == AdvanceRotation(s, t, s.tasks[t]);
  }

  lemma DoneStays(s: State, t: TaskId)
    requires t in s.tasks && s.tasks[t].Done?
    ensures Step(s, Advance(t)) == s && Twice(s, t) == s && FourTimes(s, t) == s
  {
    assert Advancing(s, t) == AdvanceRotation(s, t, s.tasks[t]);
  }

  /** A rotation that nothing disturbs, from its first step on. */
  function RotateAlone(s: State, t: TaskId, drawn: Token, at: int): State {
    FourTimes(Step(Twice(s, t), Generate(t, drawn, at)), t)
  }

  /** What a committed rotation makes of a publication. */
  function Rotated(pub: Publication, manual: bool, drawn: Token, at: int): Publication {
    var next := if pub.refresh.Some? then Some(at + pub.refresh.value) else None;
    pub.(token := drawn, committed := pub.committed + [TokenState(drawn, at)],
         status := pub.status.(uriGeneration := Min(pub.status.uriGeneration + 1, U64_MAX), createdAt := at,
                               nextRotationAt := next),
         version := pub.version + 1, resets := pub.resets + if manual then 1 else 0)
  }

  /** The next deadline of the publication can be represented. */
  predicate Representable(limits: Limits, pub: Publication, at: int) {
    pub.refresh.Some? ==> at + pub.refresh.value <= limits.wallMax
  }

  lemma PubTwice(s: State, r: State, q: State, p: PubId, pub: Publication, pub': Publication)
    requires ValidPub(s, p) && OnlyPub(s, r, p, pub) && OnlyPub(r, q, p, pub')
    ensures OnlyPub(s, q, p, pub')
  {
    assert s.pubs[p := pub][p := pub'] == s.pubs[p := pub'];
  }

  lemma ReadyToWritten(s: State, t: TaskId, attempt: Attempt, p: PubId, state: TokenState, deadline: Option<int>)
    requires t in s.tasks && s.tasks[t] == RotationReady(attempt, p, state, deadline)
    requires IsPublished(s.pubs, s.services, p)
    ensures var r := Twice(s, t);
            && OnlyPub(s, r, p, s.pubs[p].(token := state.token, committed := s.pubs[p].committed + [state], midCommit := true))
            && r.readers == s.readers + {t} && t in r.tasks && r.tasks[t] == RotationWritten(attempt, p, state, deadline)
  {
    RecheckStep(s, t, attempt, p, state, deadline);
    WriteStep(Step(s, Advance(t)), t, attempt, p, state, deadline);
  }

  lemma WrittenToDone(s: State, t: TaskId, attempt: Attempt, p: PubId, state: TokenState, deadline: Option<int>)
    requires t in s.tasks && s.tasks[t] == RotationWritten(attempt, p, state, deadline) && ValidPub(s, p)
    requires 0 <= s.pubs[p].status.uriGeneration
    ensures var r := Twice(s, t);
            var status := s.pubs[p].status.(uriGeneration := Min(s.pubs[p].status.uriGeneration + 1, U64_MAX),
                                            createdAt := state.createdAt, nextRotationAt := deadline);
            && OnlyPub(s, r, p, s.pubs[p].(status := status, version := s.pubs[p].version + 1, midCommit := false,
                                           resets := s.pubs[p].resets + (if attempt.resetTimer then 1 else 0),
                                           rotating := None))
            && r.readers == s.readers - {t} && t in r.tasks
            && r.tasks[t] == Done(RotatedTo(p, state, |s.pubs[p].committed|))
  {
    CountStep(s, t, attempt, p, state, deadline);
    var counted := Step(s, Advance(t));
    EndStep(counted, t, attempt, p, state);
    PubTwice(s, counted, Step(counted, Advance(t)), p, counted.pubs[p], Step(counted, Advance(t)).pubs[p]);
  }

  lemma Composes(
    s: State, written: State, r: State, p: PubId, manual: bool, state: TokenState, deadline: Option<int>)
    requires ValidPub(s, p) && !s.pubs[p].midCommit
    requires deadline == if s.pubs[p].refresh.Some? then Some(state.createdAt + s.pubs[p].refresh.value) else None
    requires OnlyPub(s, written, p,
                     s.pubs[p].(token := state.token, committed := s.pubs[p].committed + [state], midCommit := true))
    requires var pub := written.pubs[p];
             OnlyPub(written, r, p,
                     pub.(status := pub.status.(uriGeneration := Min(pub.status.uriGeneration + 1, U64_MAX),
                                                createdAt := state.createdAt, nextRotationAt := deadline),
                          version := pub.version + 1, midCommit := false,
                          resets := pub.resets + (if manual then 1 else 0), rotating := None))
    ensures OnlyPub(s, r, p, Rotated(s.pubs[p], manual, state.token, state.createdAt).(rotating := None))
  {
    PubTwice(s, written, r, p, written.pubs[p], r.pubs[p]);
  }

  lemma RotationCommits(s: State, t: TaskId, attempt: Attempt, p: PubId, state: TokenState, deadline: Option<int>)
    requires t in s.tasks && s.tasks[t] == RotationReady(attempt, p, state, deadline)
    requires IsPublished(s.pubs, s.services, p) && 0 <= s.pubs[p].status.uriGeneration && t !in s.readers
    requires !s.pubs[p].midCommit
    requires deadline == if s.pubs[p].refresh.Some? then Some(state.createdAt + s.pubs[p].refresh.value) else None
    ensures var r := FourTimes(s, t);
            && OnlyPub(s, r, p, Rotated(s.pubs[p], attempt.resetTimer, state.token, state.createdAt).(rotating := None))
            && r.readers == s.readers && t in r.tasks
            && r.tasks[t] == Done(RotatedTo(p, state, |s.pubs[p].committed| + 1))
  {
    ReadyToWritten(s, t, attempt, p, state, deadline);
    var written := Twice(s, t);
    WrittenToDone(written, t, attempt, p, state, deadline);
    Composes(s, written, Twice(written, t), p, attempt.resetTimer, state, deadline);
  }

  lemma FailsEarly(s: State, t: TaskId, drawn: Token, at: int)
    requires t in s.tasks && (s.tasks[t].Done? || (t in Step(s, Advance(t)).tasks && Step(s, Advance(t)).tasks[t].Done?))
    ensures RotateAlone(s, t, drawn, at) == if s.tasks[t].Done? then s else Step(s, Advance(t))
  {
    if s.tasks[t].Done? {
      DoneStays(s, t);
    } else {
      DoneStays(Step(s, Advance(t)), t);
    }
  }

  /** How an undisturbed attempt for the publication `p` ends once its lookup has found it. */
  ghost predicate EndsExactly(s: State, r: State, t: TaskId, p: PubId, manual: bool, drawn: Token, at: int)
    requires ValidPub(s, p)
  {
    && t in r.tasks && r.readers == s.readers
    && if s.pubs[p].rotating.Some? then OnlyTasks(s, r) && r.tasks[t] == Done(InProgress)
       else if !Representable(s.limits, s.pubs[p], at) then OnlyTasks(s, r) && r.tasks[t] == Done(Refused)
       else OnlyPub(s, r, p, Rotated(s.pubs[p], manual, drawn, at))
            && r.tasks[t] == Done(RotatedTo(p, TokenState(drawn, at), |s.pubs[p].committed| + 1))
  }

  /** How an attempt ends that has the rotation lock. */
  predicate UnlocksExactly(s: State, r: State, t: TaskId, p: PubId, manual: bool, drawn: Token, at: int)
    requires ValidPub(s, p)
  {
    && t in r.tasks && r.readers == s.readers
    && if !Representable(s.limits, s.pubs[p], at)
       then OnlyPub(s, r, p, s.pubs[p].(rotating := None)) && r.tasks[t] == Done(Refused)
       else OnlyPub(s, r, p, Rotated(s.pubs[p], manual, drawn, at).(rotating := None))
            && r.tasks[t] == Done(RotatedTo(p, TokenState(drawn, at), |s.pubs[p].committed| + 1))
  }

  lemma LockedEnds(s: State, t: TaskId, attempt: Attempt, p: PubId, drawn: Token, at: int)
    requires t in s.tasks && s.tasks[t] == RotationLocked(attempt, p) && IsPublished(s.pubs, s.services, p)
    requires s.pubs[p].rotating == Some(t) && !s.pubs[p].midCommit && 0 <= s.pubs[p].status.uriGeneration && t !in s.readers
    ensures UnlocksExactly(s, FourTimes(Step(s, Generate(t, drawn, at)), t), t, p, attempt.resetTimer, drawn, at)
  {
    PrepareStep(s, t, attempt, p, drawn, at);
    var prepared := Step(s, Generate(t, drawn, at));
    if Representable(s.limits, s.pubs[p], at) {
      RotationCommits(prepared, t, attempt, p, TokenState(drawn, at), RotationDeadline(s.limits, at, s.pubs[p].refresh).value);
    } else {
      DoneStays(prepared, t);
    }
  }

  lemma FreeEnds(s: State, locked: State, r: State, t: TaskId, p: PubId, manual: bool, drawn: Token, at: int)
    requires ValidPub(s, p) && s.pubs[p].rotating.None? && OnlyPub(s, locked, p, s.pubs[p].(rotating := Some(t)))
    requires locked.readers == s.readers && UnlocksExactly(locked, r, t, p, manual, drawn, at)
    ensures EndsExactly(s, r, t, p, manual, drawn, at)
  {
    Relocked(s, locked, r, t, p, r.pubs[p]);
  }

  lemma LockedIsFree(s: State, t: TaskId, attempt: Attempt, p: PubId)
    requires Inv(s) && t in s.tasks && s.tasks[t] == RotationFound(attempt, p) && IsPublished(s.pubs, s.services, p)
    ensures s.pubs[p].rotating.None? ==> !s.pubs[p].midCommit
    ensures 0 <= s.pubs[p].status.uriGeneration && t !in s.readers
  {
    assert TaskOk(t, s.tasks[t], s.pubs, s.services, s.readers);
    assert PubOk(s.pubs[p]);
  }

  lemma Relocked(s: State, locked: State, r: State, t: TaskId, p: PubId, pub: Publication)
    requires ValidPub(s, p) && s.pubs[p].rotating.None? && OnlyPub(s, locked, p, s.pubs[p].(rotating := Some(t)))
    requires OnlyPub(locked, r, p, pub)
    ensures OnlyPub(s, r, p, pub) && (pub == s.pubs[p] ==> r.pubs == s.pubs)
  {
    PubTwice(s, locked, r, p, s.pubs[p].(rotating := Some(t)), pub);
    assert s.pubs[p := s.pubs[p]] == s.pubs;
  }

  lemma FoundEnds(s: State, t: TaskId, attempt: Attempt, p: PubId, drawn: Token, at: int)
    requires Inv(s) && t in s.tasks && s.tasks[t] == RotationFound(attempt, p) && IsPublished(s.pubs, s.services, p)
    ensures var r := FourTimes(Step(Step(s, Advance(t)), Generate(t, drawn, at)), t);
            EndsExactly(s, r, t, p, attempt.resetTimer, drawn, at)
  {
    LockedIsFree(s, t, attempt, p);
    FoundEndsHere(s, t, attempt, p, drawn, at);
  }

  lemma FoundEndsHere(s: State, t: TaskId, attempt: Attempt, p: PubId, drawn: Token, at: int)
    requires t in s.tasks && s.tasks[t] == RotationFound(attempt, p) && IsPublished(s.pubs, s.services, p)
    requires (s.pubs[p].rotating.None? ==> !s.pubs[p].midCommit) && 0 <= s.pubs[p].status.uriGeneration && t !in s.readers
    ensures var r := FourTimes(Step(Step(s, Advance(t)), Generate(t, drawn, at)), t);
            EndsExactly(s, r, t, p, attempt.resetTimer, drawn, at)
  {
    LockStep(s, t, attempt, p);
    var locked := Step(s, Advance(t));
    if s.pubs[p].rotating.Some? {
      DoneStays(locked, t);
    } else {
      LockedEnds(locked, t, attempt, p, drawn, at);
      FreeEnds(s, locked, FourTimes(Step(locked, Generate(t, drawn, at)), t), t, p, attempt.resetTimer, drawn, at);
    }
  }

  lemma RequestedEnds(s: State, t: TaskId, attempt: Attempt, drawn: Token, at: int)
    requires Inv(s) && t in s.tasks && s.tasks[t] == RotationRequested(attempt)
    ensures var r := RotateAlone(s, t, drawn, at);
            var id := attempt.serviceId;
            if id !in s.services
               || (attempt.expected.Some? && s.pubs[s.services[id]].sessionGeneration != attempt.expected.value)
            then OnlyTasks(s, r) && t in r.tasks && r.tasks[t] == Done(NotFound)
            else EndsExactly(s, r, t, s.services[id], attempt.resetTimer, drawn, at)
  {
    var id := attempt.serviceId;
    if id !in s.services
       || (attempt.expected.Some? && s.pubs[s.services[id]].sessionGeneration != attempt.expected.value)
    {
      LookUpFails(s, t, attempt);
      FailsEarly(s, t, drawn, at);
    } else {
      LookUpFinds(s, t, attempt, s.services[id]);
      StepKeepsInv(s, Advance(t));
      FoundEnds(Step(s, Advance(t)), t, attempt, s.services[id], drawn, at);
    }
  }

  /** From any reachable state, a manual rotation that nothing disturbs fails with
      NotFound exactly if the id is not published, with InProgress exactly if the
      rotation lock of its publication is held, and is refused exactly if the next
      deadline cannot be represented; otherwise it commits the drawn token at the time
      of its draw, counts it, sets the next deadline and resets the timer, and changes
      nothing else. */
  lemma ManualRotationsEndExactly(
    limits: Limits, schedule: seq<Action>, t: TaskId, id: ServiceId, drawn: Token, at: int)
    requires t !in Exec(Init(limits), schedule).tasks
    ensures var s := Exec(Init(limits), schedule);
            var r := RotateAlone(Step(s, BeginRotation(t, id)), t, drawn, at);
            if id !in s.services then OnlyTasks(s, r) && t in r.tasks && r.tasks[t] == Done(NotFound)
            else ValidPub(s, s.services[id]) && EndsExactly(s, r, t, s.services[id], true, drawn, at)
  {
    ExecKeepsInv(limits, schedule);
    var s := Exec(Init(limits), schedule);
    StepKeepsInv(s, BeginRotation(t, id));
    RequestedEnds(Step(s, BeginRotation(t, id)), t, Attempt(id, None, true, None), drawn, at);
  }

  /** An undisturbed attempt of a rotation loop ends in the same way, with NotFound
      exactly if its publication has left the map, and leaves the timer alone. */
  lemma AutomaticRotationsEndExactly(
    limits: Limits, schedule: seq<Action>, t: TaskId, p: PubId, drawn: Token, at: int)
    requires var s := Exec(Init(limits), schedule); t !in s.tasks && ValidPub(s, p) && s.pubs[p].refresh.Some?
    ensures var s := Exec(Init(limits), schedule);
            var r := RotateAlone(Step(s, BeginAutomaticRotation(t, p)), t, drawn, at);
            if !IsPublished(s.pubs, s.services, p) then OnlyTasks(s, r) && t in r.tasks && r.tasks[t] == Done(NotFound)
            else EndsExactly(s, r, t, p, false, drawn, at)
  {
    ExecKeepsInv(limits, schedule);
    var s := Exec(Init(limits), schedule);
    StepKeepsInv(s, BeginAutomaticRotation(t, p));
    RequestedEnds(Step(s, BeginAutomaticRotation(t, p)), t,
                  Attempt(s.pubs[p].serviceId, Some(s.pubs[p].sessionGeneration), false, Some(p)), drawn, at);
  }

  // ----- start_service

  function StartAlone(s: State, t: TaskId): State {
    Step(Twice(s, t), Advance(t))
  }

  /** The publication a start inserts. */
  predicate Begins(pub: Publication, id: ServiceId, generation: int, resolved: Resolved) {
    && pub.serviceId == id && pub.sessionGeneration == generation && pub.refresh == resolved.refresh
    && pub.token == resolved.state.token && pub.committed == [resolved.state] && !pub.midCommit && pub.rotating.None?
    && pub.status == Status(HostedNode.Active, 1, resolved.state.createdAt, resolved.deadline, 0, None)
  }

  /** How an undisturbed start ends: it waits exactly while readers hold the map. */
  ghost predicate StartEnds(s: State, r: State, t: TaskId, id: ServiceId, resolved: Option<Resolved>) {
    && t in r.tasks && r.readers == s.readers && r.limits == s.limits
    && if resolved.None? || s.sessionNext == U64_MAX
       then r.pubs == s.pubs && r.services == s.services && r.sessionNext == s.sessionNext && r.tasks[t] == Done(Refused)
       else r.sessionNext == s.sessionNext + 1
            && if s.readers != {} then r.pubs == s.pubs && r.services == s.services && r.tasks[t].GenerationTaken?
               else if id in s.services then r.pubs == s.pubs && r.services == s.services && r.tasks[t] == Done(Refused)
               else |r.pubs| == |s.pubs| + 1 && r.pubs[..|s.pubs|] == s.pubs && r.services == s.services[id := |s.pubs|]
                    && Begins(r.pubs[|s.pubs|], id, s.sessionNext, resolved.value)
                    && r.tasks[t] == Done(Published(|s.pubs|))
  }

  lemma LoadStep(s: State, t: TaskId, offer: Offer)
    requires t in s.tasks && s.tasks[t] == Offering(offer)
    ensures Step(s, Advance(t)) == Put(s, t, GenerationLoaded(offer, s.sessionNext))
  {
  }

  lemma SwapStep(s: State, t: TaskId, offer: Offer)
    requires t in s.tasks && s.tasks[t] == GenerationLoaded(offer, s.sessionNext)
    ensures Step(s, Advance(t)) == if s.sessionNext == U64_MAX then Put(s, t, Done(Refused))
                                   else Put(s.(sessionNext := s.sessionNext + 1), t, GenerationTaken(offer, s.sessionNext))
  {
  }

  lemma InsertStep(s: State, t: TaskId, offer: Offer, generation: int)
    requires t in s.tasks && s.tasks[t] == GenerationTaken(offer, generation)
    ensures var r := Step(s, Advance(t));
            && t in r.tasks && r.readers == s.readers && r.limits == s.limits && r.sessionNext == s.sessionNext
            && if s.readers != {} then r == s
               else if offer.serviceId in s.services
               then r.pubs == s.pubs && r.services == s.services && r.tasks[t] == Done(Refused)
               else |r.pubs| == |s.pubs| + 1 && r.pubs[..|s.pubs|] == s.pubs
                    && r.services == s.services[offer.serviceId := |s.pubs|]
                    && Begins(r.pubs[|s.pubs|], offer.serviceId, generation, offer.resolved)
                    && r.tasks[t] == Done(Published(|s.pubs|))
  {
  }

  /** A start that nothing disturbs is refused exactly if no token state can be resolved,
      the generations are used up or the id is taken; otherwise it publishes the service
      with the resolved token state, an Active status of generation 1 and the session
      generation it drew. */
  lemma StartsEndExactly(
    s: State, t: TaskId, id: ServiceId, policy: Policy, saved: Option<TokenState>, now: Reading, drawn: Token)
    requires t !in s.tasks
    ensures StartEnds(s, StartAlone(Step(s, BeginStart(t, id, policy, saved, now, drawn)), t), t, id,
                      Resolve(s.limits, policy, saved, now, drawn))
  {
    var resolved := Resolve(s.limits, policy, saved, now, drawn);
    var begun := Step(s, BeginStart(t, id, policy, saved, now, drawn));
    if resolved.None? {
      DoneStays(begun, t);
    } else {
      var offer := Offer(id, resolved.value);
      assert begun == Put(s, t, Offering(offer));
      LoadStep(begun, t, offer);
      var loaded := Step(begun, Advance(t));
      SwapStep(loaded, t, offer);
      var swapped := Step(loaded, Advance(t));
      if s.sessionNext == U64_MAX {
        DoneStays(swapped, t);
      } else {
        InsertStep(swapped, t, offer, s.sessionNext);
      }
    }
  }

  // ----- stop_service and close

  predicate PhaseChanged(s: State, r: State, p: PubId, phase: HostedNode.Phase) {
    && ValidPub(s, p)
    && OnlyPub(s, r, p, s.pubs[p].(status := s.pubs[p].status.(phase := phase), version := s.pubs[p].version + 1))
    && r.readers == s.readers
  }

  /** A stop removes exactly the named service at once, and is refused exactly if there is
      none; it waits while readers hold the map. */
  lemma StopsExactly(s: State, t: TaskId, id: ServiceId)
    requires t !in s.tasks && s.readers == {}
    ensures var r := Step(s, Stop(t, id));
            && r.pubs == s.pubs && r.services == s.services - {id} && r.sessionNext == s.sessionNext && t in r.tasks
            && r.tasks[t] == if id in s.services then Draining({s.services[id]}) else Done(Refused)
  {
    if id !in s.services {
      assert s.services - {id} == s.services;
    }
  }

  lemma ClosesExactly(s: State, t: TaskId)
    requires t !in s.tasks && s.readers == {}
    ensures var r := Step(s, Close(t));
            && r.pubs == s.pubs && r.services == map[] && r.sessionNext == s.sessionNext && t in r.tasks
            && r.tasks[t] == Draining(s.services.Values)
  {
  }

  /** Each removed publication is set to Stopping and, once its connections are closed, to
      Stopped; the stop ends when none is left. */
  lemma DrainsExactly(s: State, t: TaskId, p: PubId, left: set<PubId>)
    requires t in s.tasks && s.tasks[t] == Draining(left) && p in left && ValidPub(s, p)
    ensures var stopping := Step(s, DrainNext(t, p));
            var stopped := Step(stopping, Advance(t));
            && PhaseChanged(s, stopping, p, HostedNode.Stopping)
            && PhaseChanged(stopping, stopped, p, HostedNode.Stopped)
            && t in stopped.tasks && stopped.tasks[t] == Draining(left - {p})
  {
    assert Step(s, DrainNext(t, p)) == Put(SetPhase(s, p, HostedNode.Stopping), t, DrainingOne(p, left - {p}));
    var stopping := Step(s, DrainNext(t, p));
    assert Step(stopping, Advance(t)) == Put(SetPhase(stopping, p, HostedNode.Stopped), t, Draining(left - {p}));
  }

  lemma DrainEnds(s: State, t: TaskId)
    requires t in s.tasks && s.tasks[t] == Draining({})
    ensures var r := Step(s, Advance(t)); OnlyTasks(s, r) && t in r.tasks && r.tasks[t] == Done(Finished)
  {
  }

  // ----- token_state and join_uri

  /** How an undisturbed reader ends: it waits exactly while the rotation lock is held. */
  ghost predicate ReadEnds(s: State, r: State, t: TaskId, id: ServiceId, dated: bool) {
    && t in r.tasks && r.pubs == s.pubs && r.services == s.services
    && if id !in s.services then r.readers == s.readers && r.tasks[t] == Done(Refused)
       else
         var p := s.services[id];
         && ValidPub(s, p)
         && if s.pubs[p].rotating.Some? then r.tasks[t] == ReadEntered(p, dated)
            else
              var last := s.pubs[p].committed;
              && r.readers == s.readers && last != []
              && r.tasks[t] == Done(if dated then TokenStateIs(p, Last(last), |last|)
                                    else UriTokenIs(p, Last(last).token, |last|))
  }

  lemma EnterStep(s: State, t: TaskId, id: ServiceId, dated: bool)
    requires t in s.tasks && s.tasks[t] == ReadRequested(id, dated)
    ensures Step(s, Advance(t)) == if id !in s.services then Put(s, t, Done(Refused))
                                   else Put(s.(readers := s.readers + {t}), t, ReadEntered(s.services[id], dated))
  {
    assert Advancing(s, t) == AdvanceRead(s, t, s.tasks[t]);
  }

  lemma LockReadStep(s: State, t: TaskId, p: PubId, dated: bool)
    requires t in s.tasks && s.tasks[t] == ReadEntered(p, dated) && ValidPub(s, p)
    ensures Step(s, Advance(t)) == if s.pubs[p].rotating.Some? then s
                                   else Put(SetPub(s, p, s.pubs[p].(rotating := Some(t))), t, ReadLocked(p, dated))
  {
    assert Advancing(s, t) == AdvanceRead(s, t, s.tasks[t]);
  }

  lemma DateStep(s: State, t: TaskId, p: PubId)
    requires t in s.tasks && s.tasks[t] == ReadLocked(p, true) && ValidPub(s, p)
    ensures Step(s, Advance(t)) == Put(s, t, ReadDated(p, s.pubs[p].status.createdAt, |s.pubs[p].committed|))
  {
    assert Advancing(s, t) == AdvanceRead(s, t, s.tasks[t]);
  }

  lemma AnswerStep(s: State, t: TaskId, p: PubId, dated: bool, createdAt: int, index: int)
    requires t in s.tasks && ValidPub(s, p) && s.pubs[p].rotating == Some(t) && index == |s.pubs[p].committed|
    requires s.tasks[t] == if dated then ReadDated(p, createdAt, index) else ReadLocked(p, false)
    ensures var r := Step(s, Advance(t));
            && OnlyPub(s, r, p, s.pubs[p].(rotating := None)) && r.readers == s.readers - {t} && t in r.tasks
            && r.tasks[t] == Done(if dated then TokenStateIs(p, TokenState(s.pubs[p].token, createdAt), index)
                                  else UriTokenIs(p, s.pubs[p].token, index))
  {
    assert Advancing(s, t) == AdvanceRead(s, t, s.tasks[t]);
  }

  lemma PublishedIsSettled(s: State, id: ServiceId)
    requires Inv(s) && id in s.services
    ensures ValidPub(s, s.services[id])
    ensures var pub := s.pubs[s.services[id]];
            pub.rotating.None? ==>
              pub.committed != [] && Last(pub.committed) == TokenState(pub.token, pub.status.createdAt)
  {
    assert PubOk(s.pubs[s.services[id]]);
  }

  lemma EnteredEnds(s: State, t: TaskId, p: PubId, dated: bool)
    requires t in s.tasks && s.tasks[t] == ReadEntered(p, dated) && ValidPub(s, p) && s.pubs[p].rotating.None?
    ensures var r := Step(Twice(s, t), Advance(t));
            && r.pubs == s.pubs && r.services == s.services && r.readers == s.readers - {t} && t in r.tasks
            && r.tasks[t] == Done(if dated
                                  then TokenStateIs(p, TokenState(s.pubs[p].token, s.pubs[p].status.createdAt),
                                                    |s.pubs[p].committed|)
                                  else UriTokenIs(p, s.pubs[p].token, |s.pubs[p].committed|))
  {
    LockReadStep(s, t, p, dated);
    var locked := Step(s, Advance(t));
    var ready := if dated then Step(locked, Advance(t)) else locked;
    if dated {
      DateStep(locked, t, p);
    }
    AnswerStep(ready, t, p, dated, s.pubs[p].status.createdAt, |s.pubs[p].committed|);
    var answered := Step(ready, Advance(t));
    assert s.pubs[p := s.pubs[p].(rotating := Some(t))][p := s.pubs[p]] == s.pubs;
    if !dated {
      DoneStays(answered, t);
    }
  }

  lemma BlockedStays(s: State, t: TaskId, p: PubId, dated: bool)
    requires t in s.tasks && s.tasks[t] == ReadEntered(p, dated) && ValidPub(s, p) && s.pubs[p].rotating.Some?
    ensures Step(Twice(s, t), Advance(t)) == s
  {
    LockReadStep(s, t, p, dated);
  }

  lemma ReaderEnds(s: State, begun: State, t: TaskId, id: ServiceId, dated: bool)
    requires Inv(s) && t !in s.tasks && begun == Put(s, t, ReadRequested(id, dated))
    ensures ReadEnds(s, FourTimes(begun, t), t, id, dated)
  {
    assert t !in s.readers;
    EnterStep(begun, t, id, dated);
    var entered := Step(begun, Advance(t));
    if id !in s.services {
      DoneStays(entered, t);
    } else {
      PublishedIsSettled(s, id);
      if s.pubs[s.services[id]].rotating.Some? {
        BlockedStays(entered, t, s.services[id], dated);
      } else {
        EnteredEnds(entered, t, s.services[id], dated);
      }
    }
  }

  /** From any reachable state, an undisturbed `token_state` or `join_uri` finds no service
      exactly if the id is not published, waits exactly if the rotation lock is held, and
      otherwise answers with the last commit and gives everything back. */
  lemma ReadsEndExactly(limits: Limits, schedule: seq<Action>, t: TaskId, id: ServiceId, dated: bool)
    requires t !in Exec(Init(limits), schedule).tasks
    ensures var s := Exec(Init(limits), schedule);
            ReadEnds(s, FourTimes(Step(s, BeginRead(t, id, dated)), t), t, id, dated)
  {
    ExecKeepsInv(limits, schedule);
    var s := Exec(Init(limits), schedule);
    ReaderEnds(s, Step(s, BeginRead(t, id, dated)), t, id, dated);
  }

  // ----- status writers

  /** An undisturbed failure report sets the error exactly of the publication whose loop
      reports, and of nothing once that is out of the map. */
  lemma ReportsExactly(s: State, t: TaskId, p: PubId, category: int)
    requires Inv(s) && t !in s.tasks && ValidPub(s, p) && s.pubs[p].refresh.Some?
    ensures var r := Twice(Step(s, BeginReport(t, p, category)), t);
            && t in r.tasks && r.tasks[t] == Done(Finished) && r.services == s.services
            && if IsPublished(s.pubs, s.services, p)
               then OnlyPub(s, r, p, s.pubs[p].(status := s.pubs[p].status.(lastError := Some(category)),
                                                version := s.pubs[p].version + 1))
               else r.pubs == s.pubs
  {
    var requested := Step(s, BeginReport(t, p, category));
    assert requested == Put(s, t, ReportRequested(s.pubs[p].serviceId, s.pubs[p].sessionGeneration, category, p));
    assert Advancing(requested, t) == AdvanceReport(requested, t, requested.tasks[t]);
    var found := Step(requested, Advance(t));
    if IsPublished(s.pubs, s.services, p) {
      assert found == Put(requested, t, ReportFound(p, category, p));
      assert Advancing(found, t) == AdvanceReport(found, t, found.tasks[t]);
    } else {
      assert found == Put(requested, t, Done(Finished));
      DoneStays(found, t);
    }
  }

  lemma CountsExactly(s: State, p: PubId, count: int)
    requires ValidPub(s, p)
    ensures var r := Step(s, CountConnections(p, count));
            && OnlyPub(s, r, p, s.pubs[p].(status := s.pubs[p].status.(connectionCount := count),
                                           version := s.pubs[p].version + 1))
            && r.tasks == s.tasks && r.readers == s.readers
  {
  }

  // ----- dropped futures

  /** Where a rotation or a reader awaits. */
  predicate Awaits(task: Task) {
    || task.RotationRequested? || task.RotationReady? || task.RotationChecked? || task.ReadRequested?
    || task.ReadEntered? || (task.ReadLocked? && !task.dated) || task.ReadDated?
  }

  /** Dropping a rotation or a reader where it awaits gives back the rotation lock and
      the map and changes nothing else: no token, no status. */
  lemma DropsExactly(s: State, t: TaskId)
    requires Inv(s) && t in s.tasks && Awaits(s.tasks[t])
    ensures var r := Step(s, Drop(t));
            && t in r.tasks && r.tasks[t] == Dropped && r.services == s.services && r.readers == s.readers - {t}
            && |r.pubs| == |s.pubs|
            && forall p :: 0 <= p < |s.pubs| ==>
                 r.pubs[p] == if s.pubs[p].rotating == Some(t) then s.pubs[p].(rotating := None) else s.pubs[p]
  {
    assert TaskOk(t, s.tasks[t], s.pubs, s.services, s.readers);
    assert Step(s, Drop(t)) == Dropping(s, t);
    forall p | 0 <= p < |s.pubs| && s.pubs[p].rotating == Some(t) ensures LockOf(s.tasks[t]) == Some(p) {
    }
  }
}
