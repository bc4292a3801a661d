/** The command-line host keeps its state file in step with rotations
    (cli/src/main.rs, `run_host_until_shutdown`): subscribe, read the generation,
    save, then save again for every status with a newer generation. It runs
    against a node on which anything else may happen in between. */
module CliHost {
  import opened Prelude
  import opened Bytes
  import opened Clocks
  import opened HostState
  import opened TokenResolution
  import opened HostedNode
  import opened HostedNodeInvariant
  import opened HostedNodeResults
  import opened HostedNodeProgress
  import HostRestarts

  /** `seen` is the channel version the subscription compares with, `pending` its
      initial status not yet delivered, `generation` the local `uri_generation`.
      `saved` is history: how many commits the saved token state was the last of. */
  datatype Cli =
    | Idle
    | Starting(t: TaskId, serviceId: ServiceId)
    | Started(serviceId: ServiceId)
    | Subscribed(serviceId: ServiceId, p: PubId, seen: int)
    | Saving(serviceId: ServiceId, p: PubId, seen: int, pending: bool, generation: int, t: TaskId)
    | Looping(serviceId: ServiceId, p: PubId, seen: int, pending: bool, generation: int, saved: int)
    | Notified(serviceId: ServiceId, p: PubId, seen: int, generation: int, saved: int)
    | Exited

  datatype World = World(node: State, cli: Cli, file: Option<seq<Byte>>)

  datatype Move =
    | Node(a: Action)
    | Launch(t: TaskId, serviceId: ServiceId, policy: Policy, state: Option<TokenState>, now: Reading, drawn: Token)
    | Launched
    | Subscribe
    | ReadGeneration(t: TaskId)
    | Save(outcome: HostRestarts.SaveOutcome)
    | Notice
    | Handle(t: TaskId)
    | Exit

  function Launching(w: World, m: Move): World
    requires m.Launch?
  {
    if !w.cli.Idle? || m.t in w.node.tasks then w
    else w.(node := Step(w.node, BeginStart(m.t, m.serviceId, m.policy, m.state, m.now, m.drawn)),
            cli := Starting(m.t, m.serviceId))
  }

  function AfterStart(w: World): World {
    if !w.cli.Starting? || w.cli.t !in w.node.tasks || !w.node.tasks[w.cli.t].Done? then w
    else if w.node.tasks[w.cli.t].outcome.Published? then w.(cli := Started(w.cli.serviceId))
    else w.(cli := Exited)
  }

  function Subscribing(w: World): World {
    if !w.cli.Started? then w
    else
      var id := w.cli.serviceId;
      if id !in w.node.services || !ValidPub(w.node, w.node.services[id]) then w.(cli := Exited)
      else w.(cli := Subscribed(id, w.node.services[id], w.node.pubs[w.node.services[id]].version))
  }

  /** Starts `token_state` for a save; its steps are the node's. */
  function BeginSave(w: World, t: TaskId, cli: Cli): World
    requires cli.Saving?
  {
    w.(node := Step(w.node, BeginRead(t, cli.serviceId, true)), cli := cli)
  }

  function ReadingGeneration(w: World, t: TaskId): World {
    if !w.cli.Subscribed? || t in w.node.tasks then w
    else
      var id := w.cli.serviceId;
      if id !in w.node.services || !ValidPub(w.node, w.node.services[id]) then w.(cli := Exited)
      else
        var generation := w.node.pubs[w.node.services[id]].status.uriGeneration;
        BeginSave(w, t, Saving(id, w.cli.p, w.cli.seen, true, generation, t))
  }

  function FinishSave(w: World, outcome: HostRestarts.SaveOutcome): World {
    if !w.cli.Saving? || w.cli.t !in w.node.tasks || !w.node.tasks[w.cli.t].Done? then w
    else
      var c, answer := w.cli, w.node.tasks[w.cli.t].outcome;
      if !answer.TokenStateIs? then w.(cli := Exited)
      else
        var bytes := Encode(StoredHost(c.serviceId, answer.state));
        if bytes.Err? || outcome.FailedBefore? then w.(cli := Exited)
        else if outcome.FailedAfter? then w.(file := Some(bytes.value), cli := Exited)
        else w.(file := Some(bytes.value),
                cli := Looping(c.serviceId, c.p, c.seen, c.pending, c.generation, answer.index))
  }

  /** `recv`: the initial status is delivered without marking a version as seen;
      after that a changed version is marked and only then is the status read. */
  function Noticing(w: World): World {
    if !w.cli.Looping? || !ValidPub(w.node, w.cli.p) then w
    else
      var c, version := w.cli, w.node.pubs[w.cli.p].version;
      if c.pending then w.(cli := Notified(c.serviceId, c.p, c.seen, c.generation, c.saved))
      else if version != c.seen then w.(cli := Notified(c.serviceId, c.p, version, c.generation, c.saved))
      else w
  }

  function Handling(w: World, t: TaskId): World {
    if !w.cli.Notified? || t in w.node.tasks || !ValidPub(w.node, w.cli.p) then w
    else
      var c, generation := w.cli, w.node.pubs[w.cli.p].status.uriGeneration;
      if generation > c.generation then BeginSave(w, t, Saving(c.serviceId, c.p, c.seen, false, generation, t))
      else w.(cli := Looping(c.serviceId, c.p, c.seen, false, c.generation, c.saved))
  }

  function MoveStep(w: World, m: Move): World {
    match m
    case Node(a) => w.(node := Step(w.node, a))
    case Launch(_, _, _, _, _, _) => Launching(w, m)
    case Launched => AfterStart(w)
    case Subscribe => Subscribing(w)
    case ReadGeneration(t) => ReadingGeneration(w, t)
    case Save(outcome) => FinishSave(w, outcome)
    case Notice => Noticing(w)
    case Handle(t) => Handling(w, t)
    case Exit => w.(cli := Exited)
  }

  function Play(w: World, moves: seq<Move>): World {
    if moves == [] then w else MoveStep(Play(w, moves[..|moves| - 1]), Last(moves))
  }

  // ----- what every move keeps

  ghost predicate Live(s: State, p: PubId) {
    IsPublished(s.pubs, s.services, p)
  }

  ghost predicate Follows(s: State, id: ServiceId, p: PubId) {
    ValidPub(s, p) && s.pubs[p].serviceId == id
  }

  /** A state saved as the `saved`-th commit is out of date only if a version is
      still to be noticed. */
  ghost predicate WillNotice(s: State, p: PubId, seen: int, saved: int)
    requires ValidPub(s, p)
  {
    saved < s.pubs[p].status.uriGeneration ==> seen < s.pubs[p].version
  }

  ghost predicate ReadTaskOk(s: State, id: ServiceId, p: PubId, seen: int, generation: int, task: Task)
    requires ValidPub(s, p)
  {
    match task
    case ReadRequested(serviceId, dated) => serviceId == id && dated
    case ReadEntered(q, dated) => q == p && dated
    case ReadLocked(q, dated) => q == p && dated
    case ReadDated(q, _, _) => q == p
    case Done(outcome) =>
      || outcome == Refused
      || (outcome.TokenStateIs? && outcome.p == p && generation <= outcome.index && WillNotice(s, p, seen, outcome.index))
    case Dropped => true
    case _ => false
  }

  ghost predicate FileHolds(s: State, file: Option<seq<Byte>>, id: ServiceId, p: PubId, saved: int)
    requires ValidPub(s, p)
  {
    && 1 <= saved <= |s.pubs[p].committed|
    && file.Some? && Encode(StoredHost(id, s.pubs[p].committed[saved - 1])) == Ok(file.value)
  }

  ghost predicate CliOk(s: State, cli: Cli, file: Option<seq<Byte>>) {
    match cli
    case Subscribed(id, p, seen) => Follows(s, id, p) && (Live(s, p) ==> seen <= s.pubs[p].version)
    case Saving(id, p, seen, _, generation, t) =>
      && Follows(s, id, p) && t in s.tasks
      && (Live(s, p) ==>
            && seen <= s.pubs[p].version && generation <= s.pubs[p].status.uriGeneration
            && ReadTaskOk(s, id, p, seen, generation, s.tasks[t]))
    case Looping(id, p, seen, _, generation, saved) =>
      && Follows(s, id, p)
      && (Live(s, p) ==>
            && seen <= s.pubs[p].version && generation <= saved
            && FileHolds(s, file, id, p, saved) && WillNotice(s, p, seen, saved))
    case Notified(id, p, seen, generation, saved) =>
      && Follows(s, id, p)
      && (Live(s, p) ==>
            seen <= s.pubs[p].version && generation <= saved && FileHolds(s, file, id, p, saved))
    case _ => true
  }

  ghost predicate WorldInv(w: World) {
    Inv(w.node) && CliOk(w.node, w.cli, w.file)
  }

  /** What the command-line host relies on about one node step. */
  lemma NodeStepFacts(s: State, a: Action, p: PubId)
    requires Inv(s) && ValidPub(s, p)
    ensures var s' := Step(s, a);
            && Inv(s') && ValidPub(s', p)
            && s'.pubs[p].serviceId == s.pubs[p].serviceId
            && s.pubs[p].committed <= s'.pubs[p].committed
            && s.pubs[p].version <= s'.pubs[p].version
            && s.pubs[p].status.uriGeneration <= s'.pubs[p].status.uriGeneration
            && (s.pubs[p].status.uriGeneration < s'.pubs[p].status.uriGeneration ==>
                  s.pubs[p].version < s'.pubs[p].version)
            && (Live(s', p) ==> Live(s, p))
  {
    assert PubOk(s.pubs[p]);
    StepOnlyAdds(s, a, p);
    StepKeepsInv(s, a);
    if !Live(s, p) {
      RetiredUnderStep(s, a, p);
    }
  }

  /** The save's reader, one step further. Its answer is the latest commit, which is
      already counted. */
  lemma ReaderSteps(s: State, id: ServiceId, p: PubId, seen: int, generation: int, t: TaskId)
    requires Inv(s) && Follows(s, id, p) && Live(s, p) && t in s.tasks
    requires generation <= s.pubs[p].status.uriGeneration
    requires ReadTaskOk(s, id, p, seen, generation, s.tasks[t])
    ensures var s' := Advancing(s, t);
            t in s'.tasks && ValidPub(s', p) && ReadTaskOk(s', id, p, seen, generation, s'.tasks[t])
  {
    var task := s.tasks[t];
    assert TaskOk(t, task, s.pubs, s.services, s.readers);
    assert PubOk(s.pubs[p]);
    if task.ReadDated? {
      HeldOutsideCommit(s, t, p);
    }
  }

  lemma ReaderDrops(s: State, id: ServiceId, p: PubId, seen: int, generation: int, t: TaskId)
    requires Follows(s, id, p) && t in s.tasks && ReadTaskOk(s, id, p, seen, generation, s.tasks[t])
    ensures var s' := Dropping(s, t);
            t in s'.tasks && ValidPub(s', p) && ReadTaskOk(s', id, p, seen, generation, s'.tasks[t])
  {
  }

  lemma OtherActionsIgnoreReader(s: State, a: Action, id: ServiceId, p: PubId, seen: int, generation: int, t: TaskId)
    requires ValidPub(s, p) && t in s.tasks && ReadTaskOk(s, id, p, seen, generation, s.tasks[t])
    requires a.CountConnections? || !(a.Advance? || a.Drop?) || a.t != t
    ensures SameTask(s, Step(s, a), t)
  {
    if a.CountConnections? || a.t != t {
      OthersUntouched(s, a, t);
    }
  }

  lemma NodeStepKeepsReader(s: State, a: Action, id: ServiceId, p: PubId, seen: int, generation: int, t: TaskId)
    requires Inv(s) && Follows(s, id, p) && t in s.tasks && Live(s, p)
    requires seen <= s.pubs[p].version && generation <= s.pubs[p].status.uriGeneration
    requires ReadTaskOk(s, id, p, seen, generation, s.tasks[t])
    ensures var s' := Step(s, a);
            ValidPub(s', p) && t in s'.tasks && ReadTaskOk(s', id, p, seen, generation, s'.tasks[t])
  {
    NodeStepFacts(s, a, p);
    if a == Advance(t) {
      ReaderSteps(s, id, p, seen, generation, t);
    } else if a == Drop(t) {
      ReaderDrops(s, id, p, seen, generation, t);
    } else {
      OtherActionsIgnoreReader(s, a, id, p, seen, generation, t);
    }
  }

  /** A task, once there, is never forgotten. */
  lemma TasksRemain(s: State, a: Action, t: TaskId)
    requires t in s.tasks
    ensures t in Step(s, a).tasks
  {
    if a.CountConnections? || a.t != t {
      OthersUntouched(s, a, t);
    }
  }

  lemma NodeStepKeepsCli(s: State, a: Action, cli: Cli, file: Option<seq<Byte>>)
    requires Inv(s) && CliOk(s, cli, file)
    ensures CliOk(Step(s, a), cli, file)
  {
    if cli.Subscribed? || cli.Looping? || cli.Notified? {
      NodeStepFacts(s, a, cli.p);
    } else if cli.Saving? {
      NodeStepFacts(s, a, cli.p);
      TasksRemain(s, a, cli.t);
      if Live(s, cli.p) {
        NodeStepKeepsReader(s, a, cli.serviceId, cli.p, cli.seen, cli.generation, cli.t);
      }
    }
  }

  lemma BeginSaveKeepsInv(w: World, t: TaskId, cli: Cli)
    requires Inv(w.node) && t !in w.node.tasks && cli.Saving? && cli.t == t && Follows(w.node, cli.serviceId, cli.p)
    requires Live(w.node, cli.p) ==>
               cli.seen <= w.node.pubs[cli.p].version && cli.generation <= w.node.pubs[cli.p].status.uriGeneration
    ensures WorldInv(BeginSave(w, t, cli))
  {
    StepKeepsInv(w.node, BeginRead(t, cli.serviceId, true));
  }

  lemma SubscriptionKeepsInv(w: World, t: TaskId)
    requires WorldInv(w)
    ensures WorldInv(Subscribing(w)) && WorldInv(ReadingGeneration(w, t))
  {
    if w.cli.Subscribed? && t !in w.node.tasks && w.cli.serviceId in w.node.services {
      var q := w.node.services[w.cli.serviceId];
      if ValidPub(w.node, q) {
        BeginSaveKeepsInv(w, t, Saving(w.cli.serviceId, w.cli.p, w.cli.seen, true, w.node.pubs[q].status.uriGeneration, t));
      }
    }
  }

  lemma SaveKeepsInv(w: World, outcome: HostRestarts.SaveOutcome)
    requires WorldInv(w)
    ensures WorldInv(FinishSave(w, outcome))
  {
    if w.cli.Saving? && Live(w.node, w.cli.p) {
      assert TaskOk(w.cli.t, w.node.tasks[w.cli.t], w.node.pubs, w.node.services, w.node.readers);
    }
  }

  lemma RecvKeepsInv(w: World, t: TaskId)
    requires WorldInv(w)
    ensures WorldInv(Noticing(w)) && WorldInv(Handling(w, t))
  {
    if w.cli.Notified? && t !in w.node.tasks {
      var c, generation := w.cli, w.node.pubs[w.cli.p].status.uriGeneration;
      if generation > c.generation {
        BeginSaveKeepsInv(w, t, Saving(c.serviceId, c.p, c.seen, false, generation, t));
      }
    }
  }

  lemma MoveKeepsWorldInv(w: World, m: Move)
    requires WorldInv(w)
    ensures WorldInv(MoveStep(w, m))
  {
    match m {
      case Node(a) =>
        StepKeepsInv(w.node, a);
        NodeStepKeepsCli(w.node, a, w.cli, w.file);
      case Launch(t, serviceId, policy, state, now, drawn) =>
        StepKeepsInv(w.node, BeginStart(t, serviceId, policy, state, now, drawn));
      case Launched =>
      case Subscribe => SubscriptionKeepsInv(w, 0);
      case ReadGeneration(t) => SubscriptionKeepsInv(w, t);
      case Save(outcome) => SaveKeepsInv(w, outcome);
      case Notice => RecvKeepsInv(w, 0);
      case Handle(t) => RecvKeepsInv(w, t);
      case Exit =>
    }
  }

  lemma {:induction false} PlayKeepsInv(limits: Limits, file: Option<seq<Byte>>, moves: seq<Move>)
    ensures WorldInv(Play(World(Init(limits), Idle, file), moves))
  {
    if moves != [] {
      PlayKeepsInv(limits, file, moves[..|moves| - 1]);
      MoveKeepsWorldInv(Play(World(Init(limits), Idle, file), moves[..|moves| - 1]), Last(moves));
    }
  }

  // ----- the main result

  /** The host waits for a status it has not seen yet, and none is there; no rotation
      is between its two writes; fewer than 2^64 token states were committed. */
  ghost predicate Settled(w: World) {
    && w.cli.Looping? && Live(w.node, w.cli.p)
    && w.cli.seen == w.node.pubs[w.cli.p].version
    && !w.node.pubs[w.cli.p].midCommit
    && |w.node.pubs[w.cli.p].committed| <= U64_MAX
  }

  lemma SettledFile(w: World)
    requires WorldInv(w) && Settled(w)
    ensures w.file.Some?
    ensures var pub := w.node.pubs[w.cli.p];
            && w.cli.saved == |pub.committed|
            && Encode(StoredHost(pub.serviceId, TokenState(pub.token, pub.status.createdAt))) == Ok(w.file.value)
  {
    var pub := w.node.pubs[w.cli.p];
    assert PubOk(pub);
    assert Last(pub.committed) == TokenState(pub.token, pub.status.createdAt);
  }

  /** However rotations interleave with the subscription, the generation read and
      the saves: whenever the host is settled, its state file decodes to the running
      service's id, token and creation time. */
  lemma SettledFileIsCurrent(limits: Limits, file: Option<seq<Byte>>, moves: seq<Move>)
    requires limits.wallMax <= DURATION_MAX
    ensures var w := Play(World(Init(limits), Idle, file), moves);
            Settled(w) && w.node.pubs[w.cli.p].status.createdAt <= limits.wallMax ==>
              var pub := w.node.pubs[w.cli.p];
              && w.file.Some?
              && Decode(limits, w.file.value)
                 == Ok(StoredHost(pub.serviceId, TokenState(pub.token, pub.status.createdAt)))
  {
    PlayKeepsInv(limits, file, moves);
    var w := Play(World(Init(limits), Idle, file), moves);
    if Settled(w) && w.node.pubs[w.cli.p].status.createdAt <= limits.wallMax {
      SettledFile(w);
      var pub := w.node.pubs[w.cli.p];
      SaveThenLoad(limits, StoredHost(pub.serviceId, TokenState(pub.token, pub.status.createdAt)));
    }
  }

  // ----- the host does settle

  lemma ReadSucceeds(s: State, begun: State, t: TaskId, id: ServiceId, p: PubId)
    requires Inv(s) && t !in s.tasks && begun == Put(s, t, ReadRequested(id, true))
    requires id in s.services && s.services[id] == p && s.pubs[p].rotating.None?
    ensures var r := FourTimes(begun, t);
            var state := TokenState(s.pubs[p].token, s.pubs[p].status.createdAt);
            && r.pubs == s.pubs && r.services == s.services && t in r.tasks
            && r.tasks[t] == Done(TokenStateIs(p, state, |s.pubs[p].committed|))
  {
    ReaderEnds(s, begun, t, id, true);
    PublishedIsSettled(s, id);
  }

  /** `n` steps of one task of the node. */
  function Advances(w: World, t: TaskId, n: nat): World {
    if n == 0 then w else MoveStep(Advances(w, t, n - 1), Node(Advance(t)))
  }

  lemma AdvancesAre(w: World, t: TaskId)
    ensures Advances(w, t, 3) == w.(node := StartAlone(w.node, t))
    ensures Advances(w, t, 4) == w.(node := FourTimes(w.node, t))
  {
    var w1 := MoveStep(w, Node(Advance(t)));
    assert Advances(w, t, 0) == w && Advances(w, t, 1) == w1;
    var w2 := MoveStep(w1, Node(Advance(t)));
    assert Advances(w, t, 2) == w2;
  }

  lemma {:induction false} AdvancesKeepInv(w: World, t: TaskId, n: nat)
    requires WorldInv(w)
    ensures WorldInv(Advances(w, t, n))
    decreases n
  {
    if n > 0 {
      AdvancesKeepInv(w, t, n - 1);
      MoveKeepsWorldInv(Advances(w, t, n - 1), Node(Advance(t)));
    }
  }

  /** One round of the loop, undisturbed: receive a status, handle it, and if it has a
      newer generation read the token state and save it. */
  function Round(w: World, t: TaskId): World {
    var handled := MoveStep(MoveStep(w, Notice), Handle(t));
    if handled.cli.Saving? then MoveStep(Advances(handled, t, 4), Save(HostRestarts.Saved)) else handled
  }

  /** Nothing else is going on: no rotation holds the lock of the host's publication. */
  ghost predicate Undisturbed(w: World) {
    && w.cli.Looping? && Live(w.node, w.cli.p) && w.node.pubs[w.cli.p].rotating.None?
    && w.node.pubs[w.cli.p].status.createdAt >= 0 && |w.node.pubs[w.cli.p].committed| <= U64_MAX
  }

  /** What a round leaves: the same publication, the initial status delivered, and then
      the newest version seen. */
  ghost predicate Handled(w: World, r: World) {
    && w.cli.Looping? && r.cli.Looping? && r.cli.p == w.cli.p
    && r.node.pubs == w.node.pubs && r.node.services == w.node.services && ValidPub(w.node, w.cli.p)
    && !r.cli.pending && (!w.cli.pending ==> r.cli.seen == w.node.pubs[w.cli.p].version)
  }

  lemma RoundWithSave(w: World, t: TaskId)
    requires WorldInv(w) && Undisturbed(w) && t !in w.node.tasks && Handling(Noticing(w), t).cli.Saving?
    ensures Handled(w, Round(w, t))
  {
    var handled := Handling(Noticing(w), t);
    AdvancesAre(handled, t);
    var s := handled.node;
    assert s == Put(w.node, t, ReadRequested(w.cli.serviceId, true));
    ReadSucceeds(w.node, s, t, w.cli.serviceId, w.cli.p);
  }

  lemma RoundWithoutSave(w: World, t: TaskId)
    requires WorldInv(w) && Undisturbed(w) && t !in w.node.tasks && !Handling(Noticing(w), t).cli.Saving?
    ensures Handled(w, Round(w, t))
  {
  }

  lemma RoundHandles(w: World, t: TaskId)
    requires WorldInv(w) && Undisturbed(w) && t !in w.node.tasks
    ensures Handled(w, Round(w, t))
  {
    if Handling(Noticing(w), t).cli.Saving? {
      RoundWithSave(w, t);
    } else {
      RoundWithoutSave(w, t);
    }
  }

  lemma HandledOnceSettles(w: World, r: World)
    requires WorldInv(w) && Undisturbed(w) && Handled(w, r) && !w.cli.pending
    ensures Settled(r)
  {
    assert PubOk(w.node.pubs[w.cli.p]);
  }

  lemma RoundKeepsInv(w: World, t: TaskId)
    requires WorldInv(w)
    ensures WorldInv(Round(w, t))
  {
    MoveKeepsWorldInv(w, Notice);
    var handled := MoveStep(MoveStep(w, Notice), Handle(t));
    MoveKeepsWorldInv(MoveStep(w, Notice), Handle(t));
    if handled.cli.Saving? {
      AdvancesKeepInv(handled, t, 4);
      MoveKeepsWorldInv(Advances(handled, t, 4), Save(HostRestarts.Saved));
    }
  }

  /** Left alone, a host settles in one round, or in two if its initial status has not
      been delivered yet, unless the clock was before the epoch. */
  lemma UndisturbedHostSettles(w: World, t: TaskId, u: TaskId)
    requires WorldInv(w) && Undisturbed(w) && t !in w.node.tasks && u !in Round(w, t).node.tasks
    ensures Settled(if w.cli.pending then Round(Round(w, t), u) else Round(w, t))
  {
    RoundHandles(w, t);
    if w.cli.pending {
      var r := Round(w, t);
      RoundKeepsInv(w, t);
      RoundHandles(r, u);
      HandledOnceSettles(r, Round(r, u));
    } else {
      HandledOnceSettles(w, Round(w, t));
    }
  }

  // ----- from launch to loop

  /** The host's moves up to its start's answer, with no other step in between. */
  function LaunchAlone(w: World, m: Move): World
    requires m.Launch?
  {
    MoveStep(Advances(MoveStep(w, m), m.t, 3), Launched)
  }

  /** ... then subscription, generation, and the first save by reader `u`. */
  function SaveAlone(w: World, u: TaskId): World {
    var reading := MoveStep(MoveStep(w, Subscribe), ReadGeneration(u));
    MoveStep(Advances(reading, u, 4), Save(HostRestarts.Saved))
  }

  /** The start publishes. */
  predicate Publishes(s: State, m: Move)
    requires m.Launch?
  {
    && Resolve(s.limits, m.policy, m.state, m.now, m.drawn).Some?
    && s.sessionNext != U64_MAX && m.serviceId !in s.services
  }

  lemma LaunchStarts(w: World, m: Move)
    requires w.cli.Idle? && m.Launch? && m.t !in w.node.tasks && w.node.readers == {}
    ensures var r := LaunchAlone(w, m);
            && r.file == w.file && r.node.readers == {}
            && if Publishes(w.node, m)
               then
                 var state := Resolve(w.node.limits, m.policy, m.state, m.now, m.drawn).value.state;
                 var p := |w.node.pubs|;
                 && r.cli == Started(m.serviceId) && |r.node.pubs| == p + 1
                 && m.serviceId in r.node.services && r.node.services[m.serviceId] == p
                 && r.node.pubs[p].serviceId == m.serviceId && r.node.pubs[p].rotating.None?
                 && r.node.pubs[p].committed == [state]
                 && r.node.pubs[p].token == state.token && r.node.pubs[p].status.createdAt == state.createdAt
               else r.cli == Exited
  {
    AdvancesAre(MoveStep(w, m), m.t);
    StartsEndExactly(w.node, m.t, m.serviceId, m.policy, m.state, m.now, m.drawn);
  }

  lemma LaunchKeepsInv(w: World, m: Move)
    requires WorldInv(w) && m.Launch?
    ensures WorldInv(LaunchAlone(w, m))
  {
    MoveKeepsWorldInv(w, m);
    AdvancesKeepInv(MoveStep(w, m), m.t, 3);
    MoveKeepsWorldInv(Advances(MoveStep(w, m), m.t, 3), Launched);
  }

  lemma FirstSave(w: World, u: TaskId, id: ServiceId, p: PubId)
    requires Inv(w.node) && w.cli == Started(id) && u !in w.node.tasks
    requires id in w.node.services && w.node.services[id] == p && ValidPub(w.node, p) && w.node.pubs[p].rotating.None?
    ensures var pub := w.node.pubs[p];
            var bytes := Encode(StoredHost(id, TokenState(pub.token, pub.status.createdAt)));
            var r := SaveAlone(w, u);
            && r.node.pubs == w.node.pubs && r.node.services == w.node.services
            && if bytes.Ok?
               then r.cli == Looping(id, p, pub.version, true, pub.status.uriGeneration, |pub.committed|)
                    && r.file == Some(bytes.value)
               else r.cli == Exited && r.file == w.file
  {
    var subscribed := MoveStep(w, Subscribe);
    var reading := MoveStep(subscribed, ReadGeneration(u));
    AdvancesAre(reading, u);
    assert reading.node == Put(w.node, u, ReadRequested(id, true));
    ReadSucceeds(w.node, reading.node, u, id, p);
  }

  /** Left alone, a host whose start publishes is in its loop after its first save, with a
      file that decodes to its service id and the resolved token and creation time, unless
      the clock was before the epoch, and then it exits as it does when the start is
      refused; in both cases the file is as before. */
  lemma LaunchesEndExactly(limits: Limits, file: Option<seq<Byte>>, moves: seq<Move>, m: Move, u: TaskId)
    requires limits.wallMax <= DURATION_MAX
    requires var w := Play(World(Init(limits), Idle, file), moves);
             && w.cli.Idle? && m.Launch? && m.t !in w.node.tasks && w.node.readers == {}
             && u !in LaunchAlone(w, m).node.tasks
    ensures var w := Play(World(Init(limits), Idle, file), moves);
            var started := LaunchAlone(w, m);
            if !Publishes(w.node, m) then started.cli == Exited && started.file == w.file
            else
              var state := Resolve(w.node.limits, m.policy, m.state, m.now, m.drawn).value.state;
              var r := SaveAlone(started, u);
              if state.createdAt < 0 then r.cli == Exited && r.file == w.file
              else r.cli.Looping? && r.cli.serviceId == m.serviceId && Live(r.node, r.cli.p)
                   && r.file.Some?
                   && (state.createdAt <= limits.wallMax ==>
                         Decode(limits, r.file.value) == Ok(StoredHost(m.serviceId, state)))
  {
    PlayKeepsInv(limits, file, moves);
    var w := Play(World(Init(limits), Idle, file), moves);
    LaunchStarts(w, m);
    LaunchKeepsInv(w, m);
    if Publishes(w.node, m) {
      var started := LaunchAlone(w, m);
      var state := Resolve(w.node.limits, m.policy, m.state, m.now, m.drawn).value.state;
      FirstSave(started, u, m.serviceId, |w.node.pubs|);
      if 0 <= state.createdAt <= limits.wallMax {
        SaveThenLoad(limits, StoredHost(m.serviceId, state));
      }
    }
  }

  /** Why a move ends the host. */
  predicate EndsHost(w: World, m: Move) {
    match m
    case Exit => true
    case Launched =>
      w.cli.Starting? && w.cli.t in w.node.tasks && w.node.tasks[w.cli.t].Done?
      && !w.node.tasks[w.cli.t].outcome.Published?
    case Subscribe =>
      w.cli.Started? && (w.cli.serviceId !in w.node.services || !ValidPub(w.node, w.node.services[w.cli.serviceId]))
    case ReadGeneration(t) =>
      w.cli.Subscribed? && t !in w.node.tasks
      && (w.cli.serviceId !in w.node.services || !ValidPub(w.node, w.node.services[w.cli.serviceId]))
    case Save(outcome) =>
      w.cli.Saving? && w.cli.t in w.node.tasks && w.node.tasks[w.cli.t].Done?
      && (|| !w.node.tasks[w.cli.t].outcome.TokenStateIs?
          || w.node.tasks[w.cli.t].outcome.state.createdAt < 0
          || !outcome.Saved?)
    case _ => false
  }

  /** The host ends exactly by a refused start, a service that has vanished, a save that
      fails, or its exit. */
  lemma HostsEndExactly(w: World, m: Move)
    requires !w.cli.Exited?
    ensures MoveStep(w, m).cli.Exited? <==> EndsHost(w, m)
  {
  }
}
