/** Main results about publication and rotation, over every schedule. */
module HostedNodeResults {
  import opened Prelude
  import opened Bytes
  import opened Clocks
  import opened HostState
  import opened TokenResolution
  import opened HostedNode
  import opened HostedNodeInvariant

  // ----- the shape of a step

  ghost predicate SameTask(s: State, s': State, u: TaskId) {
    (u in s'.tasks <==> u in s.tasks) && (u in s.tasks ==> s'.tasks[u] == s.tasks[u])
  }

  lemma OthersUntouchedByRotation(s: State, t: TaskId, u: TaskId)
    requires t in s.tasks && u != t
    ensures SameTask(s, AdvanceRotation(s, t, s.tasks[t]), u)
  {
  }

  lemma OthersUntouchedByRead(s: State, t: TaskId, u: TaskId)
    requires t in s.tasks && u != t
    ensures SameTask(s, AdvanceRead(s, t, s.tasks[t]), u)
  {
  }

  lemma OthersUntouchedByAdvance(s: State, t: TaskId, u: TaskId)
    requires t in s.tasks && u != t
    ensures SameTask(s, Advancing(s, t), u)
  {
    OthersUntouchedByRotation(s, t, u);
    OthersUntouchedByRead(s, t, u);
  }

  /** An action moves no task but its own. */
  lemma OthersUntouched(s: State, a: Action, u: TaskId)
    requires a.CountConnections? || a.t != u
    ensures SameTask(s, Step(s, a), u)
  {
    if a.Advance? && a.t in s.tasks {
      OthersUntouchedByAdvance(s, a.t, u);
    }
  }

  /** The token state a task is about to store. */
  function Carried(task: Task): Option<TokenState> {
    match task
    case Offering(offer) => Some(offer.resolved.state)
    case GenerationLoaded(offer, _) => Some(offer.resolved.state)
    case GenerationTaken(offer, _) => Some(offer.resolved.state)
    case RotationReady(_, _, state, _) => Some(state)
    case RotationChecked(_, _, state, _) => Some(state)
    case RotationWritten(_, _, state, _) => Some(state)
    case _ => None
  }

  ghost predicate Counts(pub: Publication, pub': Publication) {
    exists state: TokenState, deadline: Option<int> :: pub' == CountRotation(pub, state, deadline)
  }

  /** All a step can do to a publication: lock or unlock, write status fields other
      than those of a rotation, store the carried token, or count it. */
  ghost predicate Changes(pub: Publication, pub': Publication, carried: Option<TokenState>) {
    || pub' == pub.(rotating := pub'.rotating, resets := pub'.resets)
    || (Quiet(pub, pub') && pub.version <= pub'.version)
    || (carried.Some? && pub' == WriteToken(pub, carried.value))
    || Counts(pub, pub')
  }

  lemma RotationChanges(s: State, t: TaskId, p: PubId)
    requires t in s.tasks && ValidPub(s, p)
    ensures var s' := AdvanceRotation(s, t, s.tasks[t]);
            |s'.pubs| == |s.pubs| && Changes(s.pubs[p], s'.pubs[p], Carried(s.tasks[t]))
  {
    if s.tasks[t].RotationWritten? && s.tasks[t].p == p {
      assert AdvanceRotation(s, t, s.tasks[t]).pubs[p] == CountRotation(s.pubs[p], s.tasks[t].state, s.tasks[t].deadline);
    }
  }

  lemma ReadChanges(s: State, t: TaskId, p: PubId)
    requires t in s.tasks && ValidPub(s, p)
    ensures var s' := AdvanceRead(s, t, s.tasks[t]);
            |s'.pubs| == |s.pubs| && Changes(s.pubs[p], s'.pubs[p], None)
  {
  }

  lemma AdvanceChanges(s: State, t: TaskId, p: PubId)
    requires t in s.tasks && ValidPub(s, p)
    ensures var s' := Advancing(s, t);
            ValidPub(s', p) && Changes(s.pubs[p], s'.pubs[p], Carried(s.tasks[t]))
  {
    RotationChanges(s, t, p);
    ReadChanges(s, t, p);
  }

  lemma StepChanges(s: State, a: Action, p: PubId)
    requires ValidPub(s, p)
    ensures ValidPub(Step(s, a), p)
    ensures Changes(s.pubs[p], Step(s, a).pubs[p],
                    if a.Advance? && a.t in s.tasks then Carried(s.tasks[a.t]) else None)
  {
    if a.Advance? && a.t in s.tasks {
      AdvanceChanges(s, a.t, p);
    }
  }

  /** Only the insertion of a start adds a publication, with what the start carries. */
  lemma OnlyInsertAdds(s: State, a: Action)
    requires |Step(s, a).pubs| != |s.pubs|
    ensures a.Advance? && a.t in s.tasks && s.tasks[a.t].GenerationTaken?
    ensures Step(s, a).pubs == s.pubs + [FreshPublication(s.tasks[a.t].offer, s.tasks[a.t].generation)]
  {
    if a.Advance? && a.t in s.tasks && |s.pubs| > 0 {
      RotationChanges(s, a.t, 0);
      ReadChanges(s, a.t, 0);
    }
  }

  // ----- what readers see

  /** Outside a commit the status shows the creation time of the current token and
      one plus the number of rotations committed so far (saturated at `u64::MAX`);
      in between, which only the rotation at its second write can witness, it is one
      commit behind. */
  lemma StatusCountsCommits(limits: Limits, schedule: seq<Action>, p: PubId)
    ensures var s := Exec(Init(limits), schedule);
            ValidPub(s, p) ==>
              var pub := s.pubs[p];
              var counted := |pub.committed| - if pub.midCommit then 1 else 0;
              && counted >= 1
              && pub.token == Last(pub.committed).token
              && pub.status.uriGeneration == Min(counted, U64_MAX)
              && pub.status.createdAt == pub.committed[counted - 1].createdAt
              && (pub.midCommit ==> pub.rotating.Some? && pub.rotating.value in s.tasks
                                    && s.tasks[pub.rotating.value].RotationWritten?)
  {
    ExecKeepsInv(limits, schedule);
    var s := Exec(Init(limits), schedule);
    if ValidPub(s, p) {
      assert PubOk(s.pubs[p]);
    }
  }

  /** The results of `token_state`, `join_uri` and `rotate_token`. */
  predicate Answers(task: Task) {
    task.Done? && (task.outcome.TokenStateIs? || task.outcome.UriTokenIs? || task.outcome.RotatedTo?)
  }

  /** An answer is the latest committed token state at the moment it is given: the
      token and, where it is part of the answer, the creation time stored with it. */
  ghost predicate AnswersLatest(pubs: seq<Publication>, outcome: Outcome) {
    match outcome
    case TokenStateIs(p, state, index) => Latest(pubs, p, state) && index == |pubs[p].committed|
    case RotatedTo(p, state, index) => Latest(pubs, p, state) && index == |pubs[p].committed|
    case UriTokenIs(p, token, index) =>
      0 <= p < |pubs| && pubs[p].committed != [] && Last(pubs[p].committed).token == token
      && index == |pubs[p].committed|
    case _ => true
  }

  lemma WhoAnswers(s: State, t: TaskId)
    requires t in s.tasks && !Answers(s.tasks[t]) && t in Advancing(s, t).tasks && Answers(Advancing(s, t).tasks[t])
    ensures s.tasks[t].ReadLocked? || s.tasks[t].ReadDated? || s.tasks[t].RotationCounted?
  {
  }

  lemma AnswerStep(s: State, t: TaskId)
    requires Inv(s) && t in s.tasks
    requires s.tasks[t].ReadLocked? || s.tasks[t].ReadDated? || s.tasks[t].RotationCounted?
    ensures var s' := Advancing(s, t);
            t in s'.tasks && (Answers(s'.tasks[t]) ==> AnswersLatest(s.pubs, s'.tasks[t].outcome))
  {
    var task := s.tasks[t];
    assert TaskOk(t, task, s.pubs, s.services, s.readers);
    HeldOutsideCommit(s, t, task.p);
  }

  lemma OnlyAdvanceAnswers(s: State, a: Action, t: TaskId)
    requires t in Step(s, a).tasks && Answers(Step(s, a).tasks[t]) && !(t in s.tasks && Answers(s.tasks[t]))
    ensures t in s.tasks && a == Advance(t)
  {
    if a.CountConnections? || a.t != t {
      OthersUntouched(s, a, t);
    }
  }

  /** In every interleaving of rotations, readers, stops and starts, with rotations
      and readers dropped at any await, whatever step gives an answer gives the
      latest committed state. */
  lemma AnswersAreLatest(limits: Limits, schedule: seq<Action>, a: Action, t: TaskId)
    ensures var s := Exec(Init(limits), schedule);
            var s' := Step(s, a);
            t in s'.tasks && Answers(s'.tasks[t]) && !(t in s.tasks && Answers(s.tasks[t])) ==>
              AnswersLatest(s.pubs, s'.tasks[t].outcome)
  {
    ExecKeepsInv(limits, schedule);
    var s := Exec(Init(limits), schedule);
    var s' := Step(s, a);
    if t in s'.tasks && Answers(s'.tasks[t]) && !(t in s.tasks && Answers(s.tasks[t])) {
      OnlyAdvanceAnswers(s, a, t);
      WhoAnswers(s, t);
      AnswerStep(s, t);
    }
  }

  // ----- every committed state comes from one draw

  /** The token and creation time were produced together, by one start or by one rotation. */
  ghost predicate DrawnOnce(limits: Limits, schedule: seq<Action>, state: TokenState) {
    exists i :: 0 <= i < |schedule| && Draws(limits, schedule[i], state)
  }

  predicate Draws(limits: Limits, a: Action, state: TokenState) {
    match a
    case BeginStart(_, _, policy, saved, now, drawn) =>
      var r := Resolve(limits, policy, saved, now, drawn);
      r.Some? && r.value.state == state
    case Generate(_, drawn, at) => state == TokenState(drawn, at)
    case _ => false
  }

  ghost predicate Sourced(limits: Limits, schedule: seq<Action>, s: State) {
    && (forall p, i :: 0 <= p < |s.pubs| && 0 <= i < |s.pubs[p].committed| ==>
          DrawnOnce(limits, schedule, s.pubs[p].committed[i]))
    && (forall t <- s.tasks :: Carried(s.tasks[t]).Some? ==> DrawnOnce(limits, schedule, Carried(s.tasks[t]).value))
  }

  lemma CarriedByRotation(s: State, t: TaskId)
    requires t in s.tasks
    ensures var s' := AdvanceRotation(s, t, s.tasks[t]);
            t in s'.tasks && (Carried(s'.tasks[t]).Some? ==> Carried(s.tasks[t]) == Carried(s'.tasks[t]))
  {
  }

  lemma CarriedByOthers(s: State, t: TaskId)
    requires t in s.tasks
    ensures var read, reported, routed := AdvanceRead(s, t, s.tasks[t]), AdvanceReport(s, t, s.tasks[t]),
                                          AdvanceRoute(s, t, s.tasks[t]);
            && t in read.tasks && (read.tasks[t] == s.tasks[t] || Carried(read.tasks[t]).None?)
            && t in reported.tasks && (reported.tasks[t] == s.tasks[t] || Carried(reported.tasks[t]).None?)
            && t in routed.tasks && (routed.tasks[t] == s.tasks[t] || Carried(routed.tasks[t]).None?)
  {
  }

  lemma CarriedByAdvance(s: State, t: TaskId)
    requires t in s.tasks && t in Advancing(s, t).tasks && Carried(Advancing(s, t).tasks[t]).Some?
    ensures Carried(s.tasks[t]) == Carried(Advancing(s, t).tasks[t])
  {
    CarriedByRotation(s, t);
    CarriedByOthers(s, t);
  }

  /** A task carries what it carried before or what its own action draws. */
  lemma StepCarries(s: State, a: Action, t: TaskId)
    requires t in Step(s, a).tasks && Carried(Step(s, a).tasks[t]).Some?
    ensures || Draws(s.limits, a, Carried(Step(s, a).tasks[t]).value)
            || (t in s.tasks && Carried(s.tasks[t]) == Carried(Step(s, a).tasks[t]))
  {
    if a.CountConnections? || a.t != t {
      OthersUntouched(s, a, t);
    } else if a.Advance? && t in s.tasks {
      CarriedByAdvance(s, t);
    }
  }

  lemma StepKeepsLimits(s: State, a: Action)
    ensures Step(s, a).limits == s.limits
  {
  }

  lemma StepKeepsSourced(limits: Limits, schedule: seq<Action>, s: State, a: Action)
    requires Sourced(limits, schedule, s) && s.limits == limits
    ensures Sourced(limits, schedule + [a], Step(s, a))
  {
    var s', longer := Step(s, a), schedule + [a];
    forall state | DrawnOnce(limits, schedule, state) || Draws(limits, a, state) ensures DrawnOnce(limits, longer, state) {
      if DrawnOnce(limits, schedule, state) {
        var i :| 0 <= i < |schedule| && Draws(limits, schedule[i], state);
        assert Draws(limits, longer[i], state);
      } else {
        assert Draws(limits, longer[|schedule|], state);
      }
    }
    forall p, i | 0 <= p < |s'.pubs| && 0 <= i < |s'.pubs[p].committed|
      ensures DrawnOnce(limits, longer, s'.pubs[p].committed[i])
    {
      if p < |s.pubs| {
        StepChanges(s, a, p);
      } else {
        OnlyInsertAdds(s, a);
      }
    }
    forall t <- s'.tasks ensures Carried(s'.tasks[t]).Some? ==> DrawnOnce(limits, longer, Carried(s'.tasks[t]).value) {
      if Carried(s'.tasks[t]).Some? {
        StepCarries(s, a, t);
      }
    }
  }

  /** Whatever was ever stored as a token state was drawn by one action. */
  lemma {:induction false} CommittedStatesAreDrawnOnce(limits: Limits, schedule: seq<Action>)
    ensures Sourced(limits, schedule, Exec(Init(limits), schedule))
    ensures Exec(Init(limits), schedule).limits == limits
  {
    if schedule != [] {
      var before := schedule[..|schedule| - 1];
      CommittedStatesAreDrawnOnce(limits, before);
      StepKeepsSourced(limits, before, Exec(Init(limits), before), Last(schedule));
      StepKeepsLimits(Exec(Init(limits), before), Last(schedule));
      assert schedule == before + [Last(schedule)];
    }
  }

  // ----- rotation loops stay with their publication

  /** The publication a task of a rotation loop works for. */
  function OwnerOf(task: Task): Option<PubId> {
    match task
    case RotationRequested(attempt) => attempt.owner
    case RotationFound(attempt, _) => attempt.owner
    case RotationLocked(attempt, _) => attempt.owner
    case RotationReady(attempt, _, _, _) => attempt.owner
    case RotationChecked(attempt, _, _, _) => attempt.owner
    case RotationWritten(attempt, _, _, _) => attempt.owner
    case RotationCounted(attempt, _, _) => attempt.owner
    case ReportRequested(_, _, _, owner) => Some(owner)
    case ReportFound(_, _, owner) => Some(owner)
    case _ => None
  }

  lemma OwnedStepStaysHome(s: State, a: Action)
    requires Inv(s) && (a.Advance? || a.Generate? || a.Drop?) && a.t in s.tasks && OwnerOf(s.tasks[a.t]).Some?
    ensures var s' := Step(s, a);
            |s'.pubs| == |s.pubs|
            && forall p :: 0 <= p < |s.pubs| && p != OwnerOf(s.tasks[a.t]).value ==> s'.pubs[p] == s.pubs[p]
  {
    assert TaskOk(a.t, s.tasks[a.t], s.pubs, s.services, s.readers);
  }

  /** No step of a rotation loop, nor of its failure reports, changes anything of
      any other publication, whatever was stopped or republished meanwhile under the
      same service id. */
  lemma RotationLoopsStayHome(limits: Limits, schedule: seq<Action>, a: Action)
    ensures var s := Exec(Init(limits), schedule);
            (a.Advance? || a.Generate? || a.Drop?) && a.t in s.tasks && OwnerOf(s.tasks[a.t]).Some? ==>
              forall p :: 0 <= p < |s.pubs| && p != OwnerOf(s.tasks[a.t]).value ==>
                p < |Step(s, a).pubs| && Step(s, a).pubs[p] == s.pubs[p]
  {
    ExecKeepsInv(limits, schedule);
    var s := Exec(Init(limits), schedule);
    if (a.Advance? || a.Generate? || a.Drop?) && a.t in s.tasks && OwnerOf(s.tasks[a.t]).Some? {
      OwnedStepStaysHome(s, a);
    }
  }

  predicate Rotates(task: Task) {
    || task.RotationRequested? || task.RotationFound? || task.RotationLocked? || task.RotationReady?
    || task.RotationChecked? || task.RotationWritten? || task.RotationCounted?
  }

  /** A rotation loop's attempt whose publication has left the map. */
  ghost predicate Orphaned(s: State, t: TaskId) {
    && t in s.tasks && Rotates(s.tasks[t]) && s.tasks[t].attempt.owner.Some?
    && !IsPublished(s.pubs, s.services, s.tasks[t].attempt.owner.value)
  }

  /** How an orphaned attempt goes on: it is not past the re-check, and the next step of
      its own fails, in the lookup and the re-check by finding no service. */
  ghost predicate GivesUp(s: State, t: TaskId, a: Action)
    requires t in s.tasks
  {
    var task := Step(s, a).tasks;
    && t in task
    && (s.tasks[t].RotationRequested? || s.tasks[t].RotationReady? ==> task[t] == Done(NotFound))
    && (s.tasks[t].RotationFound? ==> task[t] == Done(InProgress) || task[t].RotationLocked?)
    && (s.tasks[t].RotationLocked? ==> task[t] == s.tasks[t])
  }

  lemma OrphanStep(s: State, t: TaskId)
    requires Inv(s) && Orphaned(s, t)
    ensures !s.tasks[t].RotationChecked? && !s.tasks[t].RotationWritten? && !s.tasks[t].RotationCounted?
    ensures GivesUp(s, t, Advance(t))
  {
    var attempt := s.tasks[t].attempt;
    assert TaskOk(t, s.tasks[t], s.pubs, s.services, s.readers);
    assert Advancing(s, t) == AdvanceRotation(s, t, s.tasks[t]);
    if s.tasks[t].RotationRequested? && attempt.serviceId in s.services {
      var p := s.services[attempt.serviceId];
      assert p != attempt.owner.value;
    }
  }

  lemma OrphanPrepares(s: State, t: TaskId, drawn: Token, at: int)
    requires Inv(s) && Orphaned(s, t) && s.tasks[t].RotationLocked?
    ensures var tasks := Step(s, Generate(t, drawn, at)).tasks;
            t in tasks && (tasks[t] == Done(Refused) || tasks[t].RotationReady?)
  {
    assert TaskOk(t, s.tasks[t], s.pubs, s.services, s.readers);
  }

  /** An attempt of a loop whose publication has left the map never commits, wherever
      it stands and even when another service is published under its id: its lookup
      finds no service, which ends the loop, and if it was past the lookup it meets a
      rotation in progress, an unrepresentable deadline, or finds no service at the
      re-check. */
  lemma OrphanedLoopsEnd(limits: Limits, schedule: seq<Action>, t: TaskId, drawn: Token, at: int)
    requires Orphaned(Exec(Init(limits), schedule), t)
    ensures var s := Exec(Init(limits), schedule);
            && !s.tasks[t].RotationChecked? && !s.tasks[t].RotationWritten? && !s.tasks[t].RotationCounted?
            && GivesUp(s, t, Advance(t))
            && (s.tasks[t].RotationLocked? ==>
                  var tasks := Step(s, Generate(t, drawn, at)).tasks;
                  t in tasks && (tasks[t] == Done(Refused) || tasks[t].RotationReady?))
  {
    ExecKeepsInv(limits, schedule);
    var s := Exec(Init(limits), schedule);
    OrphanStep(s, t);
    if s.tasks[t].RotationLocked? {
      OrphanPrepares(s, t, drawn, at);
    }
  }

  // ----- a publication that has left the map

  ghost predicate SameTokenState(pub: Publication, pub': Publication) {
    && pub'.token == pub.token && pub'.committed == pub.committed
    && pub'.status.uriGeneration == pub.status.uriGeneration && pub'.status.createdAt == pub.status.createdAt
    && pub'.serviceId == pub.serviceId
  }

  /** The two writes of a commit happen under the map's read lock, on a published service. */
  lemma CommitsArePublished(s: State, t: TaskId)
    requires Inv(s) && t in s.tasks && (s.tasks[t].RotationChecked? || s.tasks[t].RotationWritten?)
    ensures IsPublished(s.pubs, s.services, s.tasks[t].p)
  {
    assert TaskOk(t, s.tasks[t], s.pubs, s.services, s.readers);
  }

  lemma RetiredUnderRotation(s: State, t: TaskId, p: PubId)
    requires t in s.tasks && ValidPub(s, p)
    requires (s.tasks[t].RotationChecked? || s.tasks[t].RotationWritten?) ==> s.tasks[t].p != p
    ensures var s' := AdvanceRotation(s, t, s.tasks[t]);
            ValidPub(s', p) && SameTokenState(s.pubs[p], s'.pubs[p])
  {
  }

  lemma RetiredUnderAdvance(s: State, t: TaskId, p: PubId)
    requires t in s.tasks && ValidPub(s, p)
    requires (s.tasks[t].RotationChecked? || s.tasks[t].RotationWritten?) ==> s.tasks[t].p != p
    ensures var s' := Advancing(s, t);
            ValidPub(s', p) && SameTokenState(s.pubs[p], s'.pubs[p])
  {
    RetiredUnderRotation(s, t, p);
    ReadChanges(s, t, p);
  }

  lemma ServicesUnderAdvance(s: State, t: TaskId)
    requires t in s.tasks
    ensures var s' := Advancing(s, t);
            || s'.services == s.services
            || (s.tasks[t].GenerationTaken?
                && s'.services == s.services[s.tasks[t].offer.serviceId := |s.pubs|])
  {
  }

  /** An entry of the map is never redirected to an older publication. */
  lemma ServicesUnderStep(s: State, a: Action, id: ServiceId)
    requires id in Step(s, a).services
    ensures Step(s, a).services[id] == |s.pubs| || (id in s.services && Step(s, a).services[id] == s.services[id])
  {
    if a.Advance? && a.t in s.tasks {
      ServicesUnderAdvance(s, a.t);
    }
  }

  lemma TokenStateUnderStep(s: State, a: Action, p: PubId)
    requires Inv(s) && ValidPub(s, p) && !IsPublished(s.pubs, s.services, p)
    ensures ValidPub(Step(s, a), p) && SameTokenState(s.pubs[p], Step(s, a).pubs[p])
  {
    StepChanges(s, a, p);
    if a.Advance? && a.t in s.tasks {
      if s.tasks[a.t].RotationChecked? || s.tasks[a.t].RotationWritten? {
        CommitsArePublished(s, a.t);
      }
      RetiredUnderAdvance(s, a.t, p);
    } else if !a.Advance? {
      OnlyAdvanceCounts(s, a, p);
    }
  }

  lemma OnlyAdvanceCounts(s: State, a: Action, p: PubId)
    requires ValidPub(s, p) && !a.Advance?
    ensures ValidPub(Step(s, a), p) && SameTokenState(s.pubs[p], Step(s, a).pubs[p])
  {
  }

  lemma RetiredUnderStep(s: State, a: Action, p: PubId)
    requires Inv(s) && ValidPub(s, p) && !IsPublished(s.pubs, s.services, p)
    ensures var s' := Step(s, a);
            ValidPub(s', p) && SameTokenState(s.pubs[p], s'.pubs[p]) && !IsPublished(s'.pubs, s'.services, p)
  {
    TokenStateUnderStep(s, a, p);
    var id := s.pubs[p].serviceId;
    if id in Step(s, a).services {
      ServicesUnderStep(s, a, id);
    }
  }

  /** Once a publication is out of the map it stays out, and its token, creation
      time and `uri_generation` never change again. */
  lemma {:induction false} RetiredPublicationsAreFrozen(
      limits: Limits, schedule: seq<Action>, more: seq<Action>, p: PubId)
    requires var s := Exec(Init(limits), schedule);
             ValidPub(s, p) && !IsPublished(s.pubs, s.services, p)
    ensures var s, s' := Exec(Init(limits), schedule), Exec(Exec(Init(limits), schedule), more);
            && ValidPub(s', p) && SameTokenState(s.pubs[p], s'.pubs[p])
            && !IsPublished(s'.pubs, s'.services, p) && Inv(s')
  {
    if more == [] {
      ExecKeepsInv(limits, schedule);
    } else {
      RetiredPublicationsAreFrozen(limits, schedule, more[..|more| - 1], p);
      var before := Exec(Exec(Init(limits), schedule), more[..|more| - 1]);
      RetiredUnderStep(before, Last(more), p);
      StepKeepsInv(before, Last(more));
    }
  }

  // ----- what steps can only add

  /** Versions and counts of a publication only grow, a counted rotation bumps the
      version, and the past is never rewritten. */
  lemma StepOnlyAdds(s: State, a: Action, p: PubId)
    requires ValidPub(s, p) && s.pubs[p].status.uriGeneration <= U64_MAX
    ensures var s' := Step(s, a);
            && ValidPub(s', p)
            && s'.pubs[p].serviceId == s.pubs[p].serviceId
            && s.pubs[p].committed <= s'.pubs[p].committed
            && s.pubs[p].version <= s'.pubs[p].version
            && s.pubs[p].status.uriGeneration <= s'.pubs[p].status.uriGeneration
            && (s.pubs[p].status.uriGeneration < s'.pubs[p].status.uriGeneration ==>
                  s.pubs[p].version < s'.pubs[p].version)
  {
    StepChanges(s, a, p);
  }
}
