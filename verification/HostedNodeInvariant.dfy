/** What every step of the hosted node keeps. */
module HostedNodeInvariant {
  import opened Prelude
  import opened Bytes
  import opened Clocks
  import opened HostState
  import opened TokenResolution
  import opened HostedNode

  /** The token is always the last one committed; the status follows, one write
      later, with its creation time and the number of commits. */
  ghost predicate PubOk(pub: Publication) {
    && pub.committed != []
    && pub.token == Last(pub.committed).token
    && if pub.midCommit then
         && |pub.committed| >= 2 && pub.rotating.Some?
         && pub.status.createdAt == pub.committed[|pub.committed| - 2].createdAt
         && pub.status.uriGeneration == Min(|pub.committed| - 1, U64_MAX)
       else
         && pub.status.createdAt == Last(pub.committed).createdAt
         && pub.status.uriGeneration == Min(|pub.committed|, U64_MAX)
  }

  ghost predicate PubsOk(pubs: seq<Publication>) {
    forall p :: 0 <= p < |pubs| ==> PubOk(pubs[p])
  }

  ghost predicate ServicesOk(pubs: seq<Publication>, services: map<ServiceId, PubId>) {
    forall id <- services :: 0 <= services[id] < |pubs| && pubs[services[id]].serviceId == id
  }

  ghost predicate GenerationsOk(pubs: seq<Publication>, sessionNext: int) {
    && sessionNext >= 1
    && (forall p :: 0 <= p < |pubs| ==> pubs[p].sessionGeneration < sessionNext)
    && (forall p, q :: 0 <= p < q < |pubs| ==> pubs[p].sessionGeneration != pubs[q].sessionGeneration)
  }

  /** Generations handed out but not yet published are used by nobody else. */
  ghost predicate TakenOk(tasks: map<TaskId, Task>, pubs: seq<Publication>, sessionNext: int) {
    && (forall t <- tasks :: tasks[t].GenerationTaken? ==>
          && tasks[t].generation < sessionNext
          && (forall p :: 0 <= p < |pubs| ==> pubs[p].sessionGeneration != tasks[t].generation))
    && (forall t, u :: t in tasks && u in tasks && t != u && tasks[t].GenerationTaken? && tasks[u].GenerationTaken? ==>
          tasks[t].generation != tasks[u].generation)
  }

  /** The publication whose rotation lock a task holds. */
  function LockOf(task: Task): Option<PubId> {
    match task
    case RotationLocked(_, p) => Some(p)
    case RotationReady(_, p, _, _) => Some(p)
    case RotationChecked(_, p, _, _) => Some(p)
    case RotationWritten(_, p, _, _) => Some(p)
    case RotationCounted(_, p, _) => Some(p)
    case ReadLocked(p, _) => Some(p)
    case ReadDated(p, _, _) => Some(p)
    case _ => None
  }

  /** The publication a task relies on while it holds the map's read lock. */
  function ReadOf(task: Task): Option<PubId> {
    match task
    case RotationChecked(_, p, _, _) => Some(p)
    case RotationWritten(_, p, _, _) => Some(p)
    case RotationCounted(_, p, _) => Some(p)
    case ReadEntered(p, _) => Some(p)
    case ReadLocked(p, _) => Some(p)
    case ReadDated(p, _, _) => Some(p)
    case _ => None
  }

  /** A holder of the rotation lock, and only it, may find the publication mid-commit. */
  ghost predicate LocksOk(pubs: seq<Publication>, tasks: map<TaskId, Task>) {
    forall p :: 0 <= p < |pubs| && pubs[p].rotating.Some? ==>
      && pubs[p].rotating.value in tasks && LockOf(tasks[pubs[p].rotating.value]) == Some(p)
      && (pubs[p].midCommit <==> tasks[pubs[p].rotating.value].RotationWritten?)
  }

  ghost predicate AttemptOk(attempt: Attempt, pubs: seq<Publication>) {
    attempt.owner.Some? ==>
      && 0 <= attempt.owner.value < |pubs|
      && attempt.expected == Some(pubs[attempt.owner.value].sessionGeneration)
  }

  ghost predicate AtHome(attempt: Attempt, p: PubId, pubs: seq<Publication>) {
    0 <= p < |pubs| && (attempt.owner.Some? ==> p == attempt.owner.value)
  }

  ghost predicate CommittedAs(pubs: seq<Publication>, p: PubId, index: int) {
    0 <= p < |pubs| && 1 <= index <= |pubs[p].committed|
  }

  ghost predicate Latest(pubs: seq<Publication>, p: PubId, state: TokenState) {
    0 <= p < |pubs| && pubs[p].committed != [] && Last(pubs[p].committed) == state
  }

  ghost predicate LocalOk(task: Task, pubs: seq<Publication>) {
    match task
    case RotationRequested(attempt) => AttemptOk(attempt, pubs)
    case RotationFound(attempt, p) => AtHome(attempt, p, pubs)
    case RotationLocked(attempt, p) => AtHome(attempt, p, pubs)
    case RotationReady(attempt, p, _, _) => AtHome(attempt, p, pubs)
    case RotationChecked(attempt, p, _, _) => AtHome(attempt, p, pubs)
    case RotationWritten(attempt, p, state, _) => AtHome(attempt, p, pubs) && Latest(pubs, p, state)
    case RotationCounted(attempt, p, state) => AtHome(attempt, p, pubs) && Latest(pubs, p, state)
    case ReadDated(p, createdAt, index) =>
      0 <= p < |pubs| && pubs[p].committed != [] && createdAt == Last(pubs[p].committed).createdAt
      && index == |pubs[p].committed|
    case Draining(left) => forall p <- left :: 0 <= p < |pubs|
    case DrainingOne(p, left) => 0 <= p < |pubs| && forall q <- left :: 0 <= q < |pubs|
    case ReportRequested(_, generation, _, owner) => 0 <= owner < |pubs| && pubs[owner].sessionGeneration == generation
    case ReportFound(p, _, owner) => 0 <= p < |pubs| && p == owner
    case RouteFound(p, _) => 0 <= p < |pubs|
    case Done(outcome) =>
      (match outcome
       case Published(p) => 0 <= p < |pubs|
       case RotatedTo(p, state, index) => CommittedAs(pubs, p, index) && pubs[p].committed[index - 1] == state
       case TokenStateIs(p, state, index) => CommittedAs(pubs, p, index) && pubs[p].committed[index - 1] == state
       case UriTokenIs(p, token, index) => CommittedAs(pubs, p, index) && pubs[p].committed[index - 1].token == token
       case Admitted(p, index) => CommittedAs(pubs, p, index)
       case _ => true)
    case _ => true
  }

  ghost predicate TaskOk(
    t: TaskId, task: Task, pubs: seq<Publication>, services: map<ServiceId, PubId>, readers: set<TaskId>)
  {
    && (t in readers <==> ReadOf(task).Some?)
    && (ReadOf(task).Some? ==> IsPublished(pubs, services, ReadOf(task).value))
    && (LockOf(task).Some? ==> 0 <= LockOf(task).value < |pubs| && pubs[LockOf(task).value].rotating == Some(t))
    && LocalOk(task, pubs)
  }

  ghost predicate TasksOk(
    tasks: map<TaskId, Task>, pubs: seq<Publication>, services: map<ServiceId, PubId>, readers: set<TaskId>)
  {
    && readers <= tasks.Keys
    && forall t <- tasks :: TaskOk(t, tasks[t], pubs, services, readers)
  }

  ghost predicate Inv(s: State) {
    && PubsOk(s.pubs)
    && ServicesOk(s.pubs, s.services)
    && GenerationsOk(s.pubs, s.sessionNext)
    && TakenOk(s.tasks, s.pubs, s.sessionNext)
    && LocksOk(s.pubs, s.tasks)
    && TasksOk(s.tasks, s.pubs, s.services, s.readers)
  }

  // ----- changes to one publication, made by one task

  /** What task `t` may do to a publication: nothing it could not do if another
      task holds the rotation lock, and never a change of identity or of the past. */
  ghost predicate Evolves(pub: Publication, pub': Publication, t: TaskId) {
    && pub'.serviceId == pub.serviceId && pub'.sessionGeneration == pub.sessionGeneration && pub'.refresh == pub.refresh
    && pub.committed <= pub'.committed
    && (pub.rotating.Some? && pub.rotating != Some(t) ==>
          pub'.rotating == pub.rotating && pub'.midCommit == pub.midCommit && pub'.committed == pub.committed)
    && (pub'.rotating.Some? && pub'.rotating != Some(t) ==> pub'.rotating == pub.rotating)
  }

  lemma LocalSurvives(task: Task, pubs: seq<Publication>, p: PubId, pub': Publication, t: TaskId, u: TaskId)
    requires 0 <= p < |pubs| && Evolves(pubs[p], pub', t) && u != t
    requires LockOf(task).Some? ==> 0 <= LockOf(task).value < |pubs| && pubs[LockOf(task).value].rotating == Some(u)
    requires LocalOk(task, pubs)
    ensures LocalOk(task, pubs[p := pub'])
  {
  }

  lemma OthersSurvive(
      tasks: map<TaskId, Task>, pubs: seq<Publication>, services: map<ServiceId, PubId>, readers: set<TaskId>,
      readers': set<TaskId>, p: PubId, pub': Publication, t: TaskId, task': Task)
    requires TasksOk(tasks, pubs, services, readers)
    requires 0 <= p < |pubs| && Evolves(pubs[p], pub', t)
    requires readers' - {t} == readers - {t}
    requires TaskOk(t, task', pubs[p := pub'], services, readers')
    ensures TasksOk(tasks[t := task'], pubs[p := pub'], services, readers')
  {
    var tasks' := tasks[t := task'];
    forall u <- tasks' ensures TaskOk(u, tasks'[u], pubs[p := pub'], services, readers') {
      if u != t {
        assert TaskOk(u, tasks[u], pubs, services, readers);
        assert u in readers' <==> u in readers' - {t};
        LocalSurvives(tasks[u], pubs, p, pub', t, u);
      }
    }
    forall u <- readers' ensures u in tasks' {
      if u != t {
        assert u in readers' - {t};
      }
    }
  }

  lemma LocksSurvive(pubs: seq<Publication>, tasks: map<TaskId, Task>, p: PubId, pub': Publication, t: TaskId, task': Task)
    requires LocksOk(pubs, tasks) && 0 <= p < |pubs| && Evolves(pubs[p], pub', t)
    requires t in tasks && LockOf(tasks[t]) in {None, Some(p)}
    requires pub'.rotating == Some(t) ==> LockOf(task') == Some(p) && (pub'.midCommit <==> task'.RotationWritten?)
    ensures LocksOk(pubs[p := pub'], tasks[t := task'])
  {
  }

  lemma TakenSurvives(tasks: map<TaskId, Task>, pubs: seq<Publication>, next: int, t: TaskId, task': Task)
    requires TakenOk(tasks, pubs, next) && !task'.GenerationTaken?
    ensures TakenOk(tasks[t := task'], pubs, next)
  {
  }

  lemma EvolvedPubs(pubs: seq<Publication>, services: map<ServiceId, PubId>, next: int, tasks: map<TaskId, Task>,
                    p: PubId, pub': Publication, t: TaskId)
    requires PubsOk(pubs) && ServicesOk(pubs, services) && GenerationsOk(pubs, next) && TakenOk(tasks, pubs, next)
    requires 0 <= p < |pubs| && PubOk(pub') && Evolves(pubs[p], pub', t)
    ensures PubsOk(pubs[p := pub']) && ServicesOk(pubs[p := pub'], services)
    ensures GenerationsOk(pubs[p := pub'], next) && TakenOk(tasks, pubs[p := pub'], next)
  {
  }

  /** Task `t` changes publication `p` and moves on. */
  lemma PubMoveKeepsInv(s: State, t: TaskId, p: PubId, pub': Publication, readers': set<TaskId>, task': Task)
    requires Inv(s) && t in s.tasks && 0 <= p < |s.pubs|
    requires LockOf(s.tasks[t]) in {None, Some(p)}
    requires PubOk(pub') && Evolves(s.pubs[p], pub', t)
    requires pub'.rotating == Some(t) ==> LockOf(task') == Some(p) && (pub'.midCommit <==> task'.RotationWritten?)
    requires readers' - {t} == s.readers - {t} && !task'.GenerationTaken?
    requires TaskOk(t, task', s.pubs[p := pub'], s.services, readers')
    ensures Inv(s.(pubs := s.pubs[p := pub'], readers := readers', tasks := s.tasks[t := task']))
  {
    EvolvedPubs(s.pubs, s.services, s.sessionNext, s.tasks, p, pub', t);
    TakenSurvives(s.tasks, s.pubs[p := pub'], s.sessionNext, t, task');
    LocksSurvive(s.pubs, s.tasks, p, pub', t, task');
    OthersSurvive(s.tasks, s.pubs, s.services, s.readers, readers', p, pub', t, task');
  }

  /** Task `t` moves on, taking or giving up at most the map's read lock. It is new
      or keeps the rotation lock it has. */
  lemma MoveKeepsInv(s: State, t: TaskId, readers': set<TaskId>, task': Task)
    requires Inv(s) && readers' - {t} == s.readers - {t} && !task'.GenerationTaken?
    requires t in s.tasks ==>
               LockOf(s.tasks[t]) == LockOf(task') && !s.tasks[t].RotationWritten? && !task'.RotationWritten?
    requires t !in s.tasks ==> LockOf(task').None?
    requires TaskOk(t, task', s.pubs, s.services, readers')
    ensures Inv(s.(readers := readers', tasks := s.tasks[t := task']))
  {
    var tasks' := s.tasks[t := task'];
    TakenSurvives(s.tasks, s.pubs, s.sessionNext, t, task');
    forall u <- tasks' ensures TaskOk(u, tasks'[u], s.pubs, s.services, readers') {
      if u != t {
        assert TaskOk(u, s.tasks[u], s.pubs, s.services, s.readers);
        assert u in readers' <==> u in readers' - {t};
      }
    }
    forall u <- readers' ensures u in tasks' {
      if u != t {
        assert u in readers' - {t};
      }
    }
  }

  /** A status write that leaves the dates and counters of a rotation alone. */
  ghost predicate Quiet(pub: Publication, pub': Publication) {
    && pub' == pub.(status := pub'.status, version := pub'.version)
    && pub'.status.createdAt == pub.status.createdAt && pub'.status.uriGeneration == pub.status.uriGeneration
  }

  lemma TaskSurvivesQuiet(
      t: TaskId, task: Task, pubs: seq<Publication>, services: map<ServiceId, PubId>, readers: set<TaskId>,
      p: PubId, pub': Publication)
    requires TaskOk(t, task, pubs, services, readers) && 0 <= p < |pubs| && Quiet(pubs[p], pub')
    ensures TaskOk(t, task, pubs[p := pub'], services, readers)
  {
  }

  lemma QuietKeepsInv(s: State, p: PubId, pub': Publication)
    requires Inv(s) && 0 <= p < |s.pubs| && Quiet(s.pubs[p], pub')
    ensures Inv(SetPub(s, p, pub'))
  {
    var pubs' := s.pubs[p := pub'];
    assert Evolves(s.pubs[p], pub', 0);
    EvolvedPubs(s.pubs, s.services, s.sessionNext, s.tasks, p, pub', 0);
    forall t <- s.tasks ensures TaskOk(t, s.tasks[t], pubs', s.services, s.readers) {
      TaskSurvivesQuiet(t, s.tasks[t], s.pubs, s.services, s.readers, p, pub');
    }
  }

  // ----- the steps of a rotation

  lemma LookUpKeepsInv(s: State, t: TaskId, attempt: Attempt)
    requires Inv(s) && t in s.tasks && s.tasks[t] == RotationRequested(attempt)
    ensures Inv(LookUp(s, t, attempt))
  {
    assert TaskOk(t, s.tasks[t], s.pubs, s.services, s.readers);
    if attempt.serviceId in s.services {
      var p := s.services[attempt.serviceId];
      if attempt.expected.None? || attempt.expected.value == s.pubs[p].sessionGeneration {
        assert AtHome(attempt, p, s.pubs);
        MoveKeepsInv(s, t, s.readers, RotationFound(attempt, p));
        return;
      }
    }
    MoveKeepsInv(s, t, s.readers, Done(NotFound));
  }

  lemma TryLockKeepsInv(s: State, t: TaskId, attempt: Attempt, p: PubId)
    requires Inv(s) && t in s.tasks && s.tasks[t] == RotationFound(attempt, p)
    ensures Inv(TryLock(s, t, attempt, p))
  {
    assert TaskOk(t, s.tasks[t], s.pubs, s.services, s.readers);
    if s.pubs[p].rotating.Some? {
      MoveKeepsInv(s, t, s.readers, Done(InProgress));
    } else {
      PubMoveKeepsInv(s, t, p, s.pubs[p].(rotating := Some(t)), s.readers, RotationLocked(attempt, p));
    }
  }

  /** A task that gives its rotation lock back outside a commit and ends. */
  lemma UnlockKeepsInv(s: State, t: TaskId, p: PubId, readers': set<TaskId>, task': Task)
    requires Inv(s) && t in s.tasks && LockOf(s.tasks[t]) == Some(p) && !s.tasks[t].RotationWritten?
    requires readers' == s.readers - {t} && LockOf(task').None? && ReadOf(task').None? && !task'.GenerationTaken?
    requires 0 <= p < |s.pubs| ==> LocalOk(task', s.pubs[p := s.pubs[p].(rotating := None)])
    ensures Inv(Put(Unlock(s, t, p).(readers := readers'), t, task'))
  {
    assert TaskOk(t, s.tasks[t], s.pubs, s.services, s.readers);
    PubMoveKeepsInv(s, t, p, s.pubs[p].(rotating := None), readers', task');
  }

  lemma PrepareKeepsInv(s: State, t: TaskId, attempt: Attempt, p: PubId, drawn: Token, now: int)
    requires Inv(s) && t in s.tasks && s.tasks[t] == RotationLocked(attempt, p)
    ensures Inv(Prepare(s, t, attempt, p, drawn, now))
  {
    assert TaskOk(t, s.tasks[t], s.pubs, s.services, s.readers);
    var deadline := RotationDeadline(s.limits, now, s.pubs[p].refresh);
    if deadline.None? {
      UnlockKeepsInv(s, t, p, s.readers, Done(Refused));
    } else {
      MoveKeepsInv(s, t, s.readers, RotationReady(attempt, p, TokenState(drawn, now), deadline.value));
    }
  }

  lemma RecheckKeepsInv(s: State, t: TaskId, attempt: Attempt, p: PubId, state: TokenState, deadline: Option<int>)
    requires Inv(s) && t in s.tasks && s.tasks[t] == RotationReady(attempt, p, state, deadline)
    ensures Inv(Recheck(s, t, attempt, p, state, deadline))
  {
    assert TaskOk(t, s.tasks[t], s.pubs, s.services, s.readers);
    if IsPublished(s.pubs, s.services, p) {
      MoveKeepsInv(s, t, s.readers + {t}, RotationChecked(attempt, p, state, deadline));
    } else {
      UnlockKeepsInv(s, t, p, s.readers, Done(NotFound));
    }
  }

  lemma WriteKeepsInv(s: State, t: TaskId)
    requires Inv(s) && t in s.tasks && s.tasks[t].RotationChecked?
    ensures Inv(AdvanceRotation(s, t, s.tasks[t]))
  {
    var task := s.tasks[t];
    assert TaskOk(t, task, s.pubs, s.services, s.readers);
    var pub' := WriteToken(s.pubs[task.p], task.state);
    PubMoveKeepsInv(s, t, task.p, pub', s.readers, RotationWritten(task.attempt, task.p, task.state, task.deadline));
  }

  lemma CountKeepsInv(s: State, t: TaskId)
    requires Inv(s) && t in s.tasks && s.tasks[t].RotationWritten?
    ensures Inv(AdvanceRotation(s, t, s.tasks[t]))
  {
    var task := s.tasks[t];
    assert TaskOk(t, task, s.pubs, s.services, s.readers);
    var pub' := CountRotation(s.pubs[task.p], task.state, task.deadline);
    PubMoveKeepsInv(s, t, task.p, pub', s.readers, RotationCounted(task.attempt, task.p, task.state));
  }

  lemma FinishRotationKeepsInv(s: State, t: TaskId)
    requires Inv(s) && t in s.tasks && s.tasks[t].RotationCounted?
    ensures Inv(AdvanceRotation(s, t, s.tasks[t]))
  {
    var task := s.tasks[t];
    assert TaskOk(t, task, s.pubs, s.services, s.readers);
    var pub' := Resetting(s.pubs[task.p], task.attempt);
    PubMoveKeepsInv(s, t, task.p, pub', s.readers - {t},
                    Done(RotatedTo(task.p, task.state, |s.pubs[task.p].committed|)));
  }

  lemma RotationKeepsInv(s: State, t: TaskId)
    requires Inv(s) && t in s.tasks
    ensures Inv(AdvanceRotation(s, t, s.tasks[t]))
  {
    match s.tasks[t] {
      case RotationRequested(attempt) => LookUpKeepsInv(s, t, attempt);
      case RotationFound(attempt, p) => TryLockKeepsInv(s, t, attempt, p);
      case RotationReady(attempt, p, state, deadline) => RecheckKeepsInv(s, t, attempt, p, state, deadline);
      case RotationChecked(_, _, _, _) => WriteKeepsInv(s, t);
      case RotationWritten(_, _, _, _) => CountKeepsInv(s, t);
      case RotationCounted(_, _, _) => FinishRotationKeepsInv(s, t);
      case _ =>
    }
  }

  // ----- the steps of a reader

  lemma ReadRequestKeepsInv(s: State, t: TaskId)
    requires Inv(s) && t in s.tasks && s.tasks[t].ReadRequested?
    ensures Inv(AdvanceRead(s, t, s.tasks[t]))
  {
    var task := s.tasks[t];
    assert TaskOk(t, task, s.pubs, s.services, s.readers);
    if task.serviceId in s.services {
      MoveKeepsInv(s, t, s.readers + {t}, ReadEntered(s.services[task.serviceId], task.dated));
    } else {
      MoveKeepsInv(s, t, s.readers, Done(Refused));
    }
  }

  lemma ReadEnterKeepsInv(s: State, t: TaskId)
    requires Inv(s) && t in s.tasks && s.tasks[t].ReadEntered?
    ensures Inv(AdvanceRead(s, t, s.tasks[t]))
  {
    var task := s.tasks[t];
    assert TaskOk(t, task, s.pubs, s.services, s.readers);
    if s.pubs[task.p].rotating.None? {
      PubMoveKeepsInv(s, t, task.p, s.pubs[task.p].(rotating := Some(t)), s.readers, ReadLocked(task.p, task.dated));
    }
  }

  lemma HeldOutsideCommit(s: State, t: TaskId, p: PubId)
    requires Inv(s) && t in s.tasks && LockOf(s.tasks[t]) == Some(p) && !s.tasks[t].RotationWritten?
    ensures 0 <= p < |s.pubs| && s.pubs[p].rotating == Some(t) && !s.pubs[p].midCommit && PubOk(s.pubs[p])
  {
    assert TaskOk(t, s.tasks[t], s.pubs, s.services, s.readers);
  }

  lemma ReadLockedKeepsInv(s: State, t: TaskId)
    requires Inv(s) && t in s.tasks && s.tasks[t].ReadLocked?
    ensures Inv(AdvanceRead(s, t, s.tasks[t]))
  {
    var task := s.tasks[t];
    assert TaskOk(t, task, s.pubs, s.services, s.readers);
    HeldOutsideCommit(s, t, task.p);
    var pub := s.pubs[task.p];
    if task.dated {
      MoveKeepsInv(s, t, s.readers, ReadDated(task.p, pub.status.createdAt, |pub.committed|));
    } else {
      UnlockKeepsInv(s, t, task.p, s.readers - {t}, Done(UriTokenIs(task.p, pub.token, |pub.committed|)));
    }
  }

  lemma ReadDatedKeepsInv(s: State, t: TaskId)
    requires Inv(s) && t in s.tasks && s.tasks[t].ReadDated?
    ensures Inv(AdvanceRead(s, t, s.tasks[t]))
  {
    var task := s.tasks[t];
    assert TaskOk(t, task, s.pubs, s.services, s.readers);
    HeldOutsideCommit(s, t, task.p);
    UnlockKeepsInv(s, t, task.p, s.readers - {t},
                   Done(TokenStateIs(task.p, TokenState(s.pubs[task.p].token, task.createdAt), task.index)));
  }

  // ----- start_service

  lemma TakeKeepsInv(s: State, t: TaskId, offer: Offer, seen: int)
    requires Inv(s) && t in s.tasks && s.tasks[t] == GenerationLoaded(offer, seen)
    ensures Inv(SwapGeneration(s, t, offer, seen))
  {
    assert TaskOk(t, s.tasks[t], s.pubs, s.services, s.readers);
    if s.sessionNext == seen {
      var task' := GenerationTaken(offer, seen);
      var tasks' := s.tasks[t := task'];
      forall u <- tasks' ensures TaskOk(u, tasks'[u], s.pubs, s.services, s.readers) {
        assert TaskOk(u, s.tasks[u], s.pubs, s.services, s.readers);
      }
    } else {
      MoveKeepsInv(s, t, s.readers, Offering(offer));
    }
  }

  lemma LocalSurvivesInsert(task: Task, pubs: seq<Publication>, pub: Publication)
    requires LocalOk(task, pubs)
    ensures LocalOk(task, pubs + [pub])
  {
  }

  lemma InsertTasks(s: State, t: TaskId, offer: Offer, generation: int)
    requires Inv(s) && t in s.tasks && s.tasks[t] == GenerationTaken(offer, generation)
    requires s.readers == {} && offer.serviceId !in s.services
    ensures var s' := Insert(s, t, offer, generation);
            TasksOk(s'.tasks, s'.pubs, s'.services, {}) && LocksOk(s'.pubs, s'.tasks)
  {
    var s' := Insert(s, t, offer, generation);
    var pub := FreshPublication(offer, generation);
    forall u <- s'.tasks ensures TaskOk(u, s'.tasks[u], s'.pubs, s'.services, {}) {
      if u != t {
        assert TaskOk(u, s.tasks[u], s.pubs, s.services, s.readers);
        LocalSurvivesInsert(s.tasks[u], s.pubs, pub);
      }
    }
    forall p | 0 <= p < |s'.pubs| && s'.pubs[p].rotating.Some?
      ensures s'.pubs[p].rotating.value in s'.tasks && LockOf(s'.tasks[s'.pubs[p].rotating.value]) == Some(p)
      ensures s'.pubs[p].midCommit <==> s'.tasks[s'.pubs[p].rotating.value].RotationWritten?
    {
      assert s'.pubs[p] == s.pubs[p];
    }
  }

  lemma InsertPubs(s: State, t: TaskId, offer: Offer, generation: int)
    requires Inv(s) && t in s.tasks && s.tasks[t] == GenerationTaken(offer, generation)
    requires s.readers == {} && offer.serviceId !in s.services
    ensures var s' := Insert(s, t, offer, generation);
            && PubsOk(s'.pubs) && ServicesOk(s'.pubs, s'.services)
            && GenerationsOk(s'.pubs, s'.sessionNext) && TakenOk(s'.tasks, s'.pubs, s'.sessionNext)
  {
  }

  lemma InsertKeepsInv(s: State, t: TaskId, offer: Offer, generation: int)
    requires Inv(s) && t in s.tasks && s.tasks[t] == GenerationTaken(offer, generation)
    ensures Inv(Insert(s, t, offer, generation))
  {
    assert TaskOk(t, s.tasks[t], s.pubs, s.services, s.readers);
    if s.readers == {} {
      if offer.serviceId in s.services {
        MoveKeepsInv(s, t, s.readers, Done(Refused));
      } else {
        InsertTasks(s, t, offer, generation);
        InsertPubs(s, t, offer, generation);
      }
    }
  }

  lemma StartKeepsInv(s: State, t: TaskId)
    requires Inv(s) && t in s.tasks
    requires s.tasks[t].Offering? || s.tasks[t].GenerationLoaded? || s.tasks[t].GenerationTaken?
    ensures Inv(Advancing(s, t))
  {
    assert TaskOk(t, s.tasks[t], s.pubs, s.services, s.readers);
    match s.tasks[t] {
      case Offering(offer) => MoveKeepsInv(s, t, s.readers, GenerationLoaded(offer, s.sessionNext));
      case GenerationLoaded(offer, seen) =>
        if seen == U64_MAX {
          MoveKeepsInv(s, t, s.readers, Done(Refused));
        } else {
          TakeKeepsInv(s, t, offer, seen);
        }
      case GenerationTaken(offer, generation) => InsertKeepsInv(s, t, offer, generation);
      case _ =>
    }
  }

  // ----- stop, close, drain

  /** With no reader in the map nothing relies on an entry, so entries may go. */
  lemma ShrinkKeepsInv(s: State, t: TaskId, services': map<ServiceId, PubId>, left: set<PubId>)
    requires Inv(s) && s.readers == {} && t !in s.tasks
    requires forall id <- services' :: id in s.services && services'[id] == s.services[id]
    requires forall p <- left :: 0 <= p < |s.pubs|
    ensures Inv(Put(s.(services := services'), t, Draining(left)))
  {
    MoveKeepsInv(s, t, s.readers, Draining(left));
    var tasks' := s.tasks[t := Draining(left)];
    forall u <- tasks' ensures TaskOk(u, tasks'[u], s.pubs, services', s.readers) {
      assert TaskOk(u, tasks'[u], s.pubs, s.services, s.readers);
    }
  }

  lemma RemovalsKeepInv(s: State, t: TaskId, serviceId: ServiceId)
    requires Inv(s) && t !in s.tasks
    ensures Inv(Remove(s, t, serviceId)) && Inv(RemoveAll(s, t))
  {
    if s.readers == {} {
      ShrinkKeepsInv(s, t, map[], s.services.Values);
      if serviceId in s.services {
        ShrinkKeepsInv(s, t, s.services - {serviceId}, {s.services[serviceId]});
      } else {
        MoveKeepsInv(s, t, s.readers, Done(Refused));
      }
    }
  }

  lemma PhaseKeepsInv(s: State, t: TaskId, p: PubId, phase: Phase, task': Task)
    requires Inv(s) && t in s.tasks && (s.tasks[t].Draining? || s.tasks[t].DrainingOne?) && ValidPub(s, p)
    requires (task'.Draining? || task'.DrainingOne?) && LocalOk(task', s.pubs)
    ensures Inv(Put(SetPhase(s, p, phase), t, task'))
  {
    QuietMoveKeepsInv(s, t, p, WithStatus(s.pubs[p], s.pubs[p].status.(phase := phase)), task');
  }

  // ----- failure reports and routing

  lemma ReportLookUpKeepsInv(s: State, t: TaskId)
    requires Inv(s) && t in s.tasks && s.tasks[t].ReportRequested?
    ensures Inv(AdvanceReport(s, t, s.tasks[t]))
  {
    var task := s.tasks[t];
    assert TaskOk(t, task, s.pubs, s.services, s.readers);
    if task.serviceId in s.services && s.pubs[s.services[task.serviceId]].sessionGeneration == task.generation {
      MoveKeepsInv(s, t, s.readers, ReportFound(s.services[task.serviceId], task.category, task.owner));
    } else {
      MoveKeepsInv(s, t, s.readers, Done(Finished));
    }
  }

  /** A quiet status write by a task that holds no lock, followed by its next state. */
  lemma QuietMoveKeepsInv(s: State, t: TaskId, p: PubId, pub': Publication, task': Task)
    requires Inv(s) && t in s.tasks && LockOf(s.tasks[t]).None? && ReadOf(s.tasks[t]).None?
    requires 0 <= p < |s.pubs| && Quiet(s.pubs[p], pub')
    requires LockOf(task').None? && ReadOf(task').None? && !task'.GenerationTaken? && LocalOk(task', s.pubs[p := pub'])
    ensures Inv(Put(SetPub(s, p, pub'), t, task'))
  {
    assert TaskOk(t, s.tasks[t], s.pubs, s.services, s.readers);
    QuietKeepsInv(s, p, pub');
    MoveKeepsInv(SetPub(s, p, pub'), t, s.readers, task');
  }

  lemma ReportKeepsInv(s: State, t: TaskId)
    requires Inv(s) && t in s.tasks && s.tasks[t].ReportFound?
    ensures Inv(AdvanceReport(s, t, s.tasks[t]))
  {
    var task := s.tasks[t];
    assert TaskOk(t, task, s.pubs, s.services, s.readers);
    var pub' := WithStatus(s.pubs[task.p], s.pubs[task.p].status.(lastError := Some(task.category)));
    QuietMoveKeepsInv(s, t, task.p, pub', Done(Finished));
  }

  lemma RouteLookUpKeepsInv(s: State, t: TaskId)
    requires Inv(s) && t in s.tasks && s.tasks[t].RouteRequested?
    ensures Inv(AdvanceRoute(s, t, s.tasks[t]))
  {
    var task := s.tasks[t];
    assert TaskOk(t, task, s.pubs, s.services, s.readers);
    if task.request.serviceId in s.services {
      MoveKeepsInv(s, t, s.readers, RouteFound(s.services[task.request.serviceId], task.request));
    } else {
      MoveKeepsInv(s, t, s.readers, Done(Refused));
    }
  }

  lemma RouteKeepsInv(s: State, t: TaskId)
    requires Inv(s) && t in s.tasks && s.tasks[t].RouteFound?
    ensures Inv(AdvanceRoute(s, t, s.tasks[t]))
  {
    var task := s.tasks[t];
    assert TaskOk(t, task, s.pubs, s.services, s.readers);
    if s.pubs[task.p].token == task.request.token {
      MoveKeepsInv(s, t, s.readers, Done(Admitted(task.p, |s.pubs[task.p].committed|)));
    } else {
      MoveKeepsInv(s, t, s.readers, Done(Refused));
    }
  }

  // ----- every step

  lemma DrainKeepsInv(s: State, t: TaskId)
    requires Inv(s) && t in s.tasks && (s.tasks[t].Draining? || s.tasks[t].DrainingOne?)
    ensures Inv(Advancing(s, t))
  {
    var task := s.tasks[t];
    assert TaskOk(t, task, s.pubs, s.services, s.readers);
    if task.DrainingOne? {
      PhaseKeepsInv(s, t, task.p, Stopped, Draining(task.left));
    } else if task.left == {} {
      MoveKeepsInv(s, t, s.readers, Done(Finished));
    }
  }

  lemma AdvancingKeepsInv(s: State, t: TaskId)
    requires Inv(s) && t in s.tasks
    ensures Inv(Advancing(s, t))
  {
    match s.tasks[t] {
      case Offering(_) => StartKeepsInv(s, t);
      case GenerationLoaded(_, _) => StartKeepsInv(s, t);
      case GenerationTaken(_, _) => StartKeepsInv(s, t);
      case ReadRequested(_, _) => ReadRequestKeepsInv(s, t);
      case ReadEntered(_, _) => ReadEnterKeepsInv(s, t);
      case ReadLocked(_, _) => ReadLockedKeepsInv(s, t);
      case ReadDated(_, _, _) => ReadDatedKeepsInv(s, t);
      case Draining(_) => DrainKeepsInv(s, t);
      case DrainingOne(_, _) => DrainKeepsInv(s, t);
      case ReportRequested(_, _, _, _) => ReportLookUpKeepsInv(s, t);
      case ReportFound(_, _, _) => ReportKeepsInv(s, t);
      case RouteRequested(_) => RouteLookUpKeepsInv(s, t);
      case RouteFound(_, _) => RouteKeepsInv(s, t);
      case _ => RotationKeepsInv(s, t);
    }
  }

  lemma DroppingKeepsInv(s: State, t: TaskId)
    requires Inv(s) && t in s.tasks
    ensures Inv(Dropping(s, t))
  {
    var task := s.tasks[t];
    assert TaskOk(t, task, s.pubs, s.services, s.readers);
    if task.RotationRequested? || task.ReadRequested? {
      MoveKeepsInv(s, t, s.readers, Dropped);
    } else if task.ReadEntered? {
      MoveKeepsInv(s, t, s.readers - {t}, Dropped);
    } else if task.RotationReady? {
      UnlockKeepsInv(s, t, task.p, s.readers, Dropped);
    } else if task.RotationChecked? || (task.ReadLocked? && !task.dated) || task.ReadDated? {
      UnlockKeepsInv(s, t, task.p, s.readers - {t}, Dropped);
    }
  }

  lemma BeginningKeepsInv(s: State, t: TaskId, task: Task)
    requires Inv(s) && t !in s.tasks && LocalOk(task, s.pubs)
    requires LockOf(task).None? && ReadOf(task).None? && !task.GenerationTaken?
    ensures Inv(Put(s, t, task))
  {
    MoveKeepsInv(s, t, s.readers, task);
  }

  predicate Begins(a: Action) {
    a.BeginStart? || a.BeginRotation? || a.BeginAutomaticRotation? || a.BeginRead? || a.BeginReport? || a.BeginRoute?
  }

  lemma BeginsKeepInv(s: State, a: Action)
    requires Inv(s) && Begins(a) && a.t !in s.tasks
    ensures Inv(Step(s, a))
  {
    match a {
      case BeginStart(t, serviceId, policy, saved, now, drawn) =>
        var resolved := Resolve(s.limits, policy, saved, now, drawn);
        BeginningKeepsInv(s, t, if resolved.None? then Done(Refused) else Offering(Offer(serviceId, resolved.value)));
      case BeginRotation(t, serviceId) =>
        BeginningKeepsInv(s, t, RotationRequested(Attempt(serviceId, None, true, None)));
      case BeginAutomaticRotation(t, p) =>
        if ValidPub(s, p) {
          var attempt := Attempt(s.pubs[p].serviceId, Some(s.pubs[p].sessionGeneration), false, Some(p));
          BeginningKeepsInv(s, t, RotationRequested(attempt));
        }
      case BeginRead(t, serviceId, dated) => BeginningKeepsInv(s, t, ReadRequested(serviceId, dated));
      case BeginReport(t, p, category) =>
        if ValidPub(s, p) {
          BeginningKeepsInv(s, t, ReportRequested(s.pubs[p].serviceId, s.pubs[p].sessionGeneration, category, p));
        }
      case BeginRoute(t, request) => BeginningKeepsInv(s, t, RouteRequested(request));
    }
  }

  lemma ChoicesKeepInv(s: State, a: Action)
    requires Inv(s) && (a.Generate? || a.SwapFails? || a.DrainNext?) && a.t in s.tasks
    ensures Inv(Step(s, a))
  {
    var task := s.tasks[a.t];
    assert TaskOk(a.t, task, s.pubs, s.services, s.readers);
    if a.Generate? && task.RotationLocked? {
      PrepareKeepsInv(s, a.t, task.attempt, task.p, a.drawn, a.at);
    } else if a.SwapFails? && task.GenerationLoaded? {
      MoveKeepsInv(s, a.t, s.readers, Offering(task.offer));
    } else if a.DrainNext? && task.Draining? && a.p in task.left {
      PhaseKeepsInv(s, a.t, a.p, Stopping, DrainingOne(a.p, task.left - {a.p}));
    }
  }

  lemma StepKeepsInv(s: State, a: Action)
    requires Inv(s)
    ensures Inv(Step(s, a))
  {
    match a {
      case Stop(t, serviceId) =>
        if t !in s.tasks {
          RemovalsKeepInv(s, t, serviceId);
        }
      case Close(t) =>
        if t !in s.tasks {
          RemovalsKeepInv(s, t, seq(16, _ => 0));
        }
      case Advance(t) =>
        if t in s.tasks {
          AdvancingKeepsInv(s, t);
        }
      case Drop(t) =>
        if t in s.tasks {
          DroppingKeepsInv(s, t);
        }
      case CountConnections(p, count) =>
        if ValidPub(s, p) {
          QuietKeepsInv(s, p, WithStatus(s.pubs[p], s.pubs[p].status.(connectionCount := count)));
        }
      case Generate(t, _, _) =>
        if t in s.tasks {
          ChoicesKeepInv(s, a);
        }
      case SwapFails(t) =>
        if t in s.tasks {
          ChoicesKeepInv(s, a);
        }
      case DrainNext(t, _) =>
        if t in s.tasks {
          ChoicesKeepInv(s, a);
        }
      case _ =>
        if a.t !in s.tasks {
          BeginsKeepInv(s, a);
        }
    }
  }

  /** Every schedule from an empty node keeps the invariant. */
  lemma {:induction false} ExecKeepsInv(limits: Limits, schedule: seq<Action>)
    ensures Inv(Exec(Init(limits), schedule))
  {
    if schedule != [] {
      ExecKeepsInv(limits, schedule[..|schedule| - 1]);
      StepKeepsInv(Exec(Init(limits), schedule[..|schedule| - 1]), Last(schedule));
    }
  }
}
