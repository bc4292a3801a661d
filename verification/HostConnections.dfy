/** Registration, replacement and close of authenticated connections
    (core/src/tunnel/iroh/host.rs), interleaved at every point where the
    original releases the session lock or awaits. A schedule is any sequence of
    actions; an action that is not enabled changes nothing. */
module HostConnections {
  import opened Prelude
  import opened HostSessions

  /** Where one connection's tasks stand. `residency` counts the times the
      endpoint entered the table and `ordinal` numbers its registrations since;
      both are history, the code stores only `generation`. */
  datatype Session = Session(endpoint: EndpointId, residency: int, ordinal: int, generation: nat, reconnect: bool)

  datatype Connection =
    | Authenticated(endpoint: EndpointId)
    | Waiting(endpoint: EndpointId)
    | Rejected(endpoint: EndpointId)
    | Registered(session: Session, count: int)
    | Announcing(session: Session)
    | Open(session: Session)
    | Leaving(session: Session, removed: bool, count: int)
    | Departing(session: Session, removed: bool)
    | Gone(session: Session)

  datatype Event = PlayerJoined(id: EndpointId) | PlayerLeft(id: EndpointId) | PlayerRejected(id: EndpointId)

  datatype State = State(
    maxPlayers: Option<nat>,
    table: Table,
    connections: map<ConnectionId, Connection>,
    published: seq<int>,                 // connection counts given to the status, in order
    events: seq<Event>,                  // attempted emissions, in order
    sizes: seq<int>,                     // table size after every locked section
    joins: multiset<EndpointId>,         // first registrations decided under the lock
    leaves: multiset<EndpointId>,        // removals decided under the lock
    residencies: map<EndpointId, int>,
    registrations: map<EndpointId, seq<ConnectionId>>)  // of the latest residency

  datatype Action =
    | Arrive(conn: ConnectionId, endpoint: EndpointId)
    | TryRegister(conn: ConnectionId)
    | Recheck(conn: ConnectionId)
    | PublishRegistered(conn: ConnectionId)
    | Announce(conn: ConnectionId)
    | Close(conn: ConnectionId)
    | PublishClosed(conn: ConnectionId)
    | FinishClose(conn: ConnectionId)

  function Init(maxPlayers: Option<nat>): State {
    State(maxPlayers, map[], map[], [], [], [0], multiset{}, multiset{}, map[], map[])
  }

  /** The session a registration opens: a first one starts a new residency. */
  function NewSession(
    table: Table, residencies: map<EndpointId, int>, registrations: map<EndpointId, seq<ConnectionId>>,
    conn: ConnectionId, id: EndpointId): Session
  {
    var up := Upsert(table, id, conn);
    var past := if id in residencies then residencies[id] else 0;
    var earlier := if id in registrations then |registrations[id]| else 0;
    if up.reconnect then Session(id, past, earlier + 1, up.generation, true)
    else Session(id, past + 1, 1, up.generation, false)
  }

  function Recorded(registrations: map<EndpointId, seq<ConnectionId>>, conn: ConnectionId, session: Session)
    : map<EndpointId, seq<ConnectionId>>
  {
    var id := session.endpoint;
    registrations[id := if session.reconnect && id in registrations then registrations[id] + [conn] else [conn]]
  }

  /** The locked section that registers a connection there is room for. */
  function Register(s: State, conn: ConnectionId, id: EndpointId): State {
    var table := Upsert(s.table, id, conn).table;
    var session := NewSession(s.table, s.residencies, s.registrations, conn, id);
    s.(table := table,
       connections := s.connections[conn := Registered(session, |table|)],
       sizes := s.sizes + [|table|],
       joins := if session.reconnect then s.joins else s.joins + multiset{id},
       residencies := s.residencies[id := session.residency],
       registrations := Recorded(s.registrations, conn, session))
  }

  /** The close task's locked section. */
  function CloseSession(s: State, conn: ConnectionId, session: Session): State {
    var removed := IsCurrent(s.table, session.endpoint, session.generation);
    var table := RemoveIfCurrent(s.table, session.endpoint, session.generation);
    s.(table := table,
       connections := s.connections[conn := Leaving(session, removed, |table|)],
       sizes := s.sizes + [|table|],
       leaves := if removed then s.leaves + multiset{session.endpoint} else s.leaves)
  }

  function Move(s: State, conn: ConnectionId, to: Connection): State {
    s.(connections := s.connections[conn := to])
  }

  function Arriving(s: State, conn: ConnectionId, id: EndpointId): State {
    if conn in s.connections then s else Move(s, conn, Authenticated(id))
  }

  /** The first capacity check. A refusal waits for the recheck. */
  function FirstTry(s: State, conn: ConnectionId): State {
    if conn !in s.connections || !s.connections[conn].Authenticated? then s
    else
      var id := s.connections[conn].endpoint;
      if HasCapacity(s.table, id, s.maxPlayers) then Register(s, conn, id)
      else Move(s, conn, Waiting(id)).(sizes := s.sizes + [|s.table|])
  }

  /** The second capacity check, after the grace delay. */
  function SecondTry(s: State, conn: ConnectionId): State {
    if conn !in s.connections || !s.connections[conn].Waiting? then s
    else
      var id := s.connections[conn].endpoint;
      if HasCapacity(s.table, id, s.maxPlayers) then Register(s, conn, id)
      else Move(s, conn, Rejected(id)).(sizes := s.sizes + [|s.table|], events := s.events + [PlayerRejected(id)])
  }

  function PublishingRegistered(s: State, conn: ConnectionId): State {
    if conn !in s.connections || !s.connections[conn].Registered? then s
    else Move(s, conn, Announcing(s.connections[conn].session)).(published := s.published + [s.connections[conn].count])
  }

  function Announced(s: State, conn: ConnectionId): State {
    if conn !in s.connections || !s.connections[conn].Announcing? then s
    else
      var session := s.connections[conn].session;
      Move(s, conn, Open(session)).(
        events := if session.reconnect then s.events else s.events + [PlayerJoined(session.endpoint)])
  }

  function Closing(s: State, conn: ConnectionId): State {
    if conn !in s.connections || !s.connections[conn].Open? then s else CloseSession(s, conn, s.connections[conn].session)
  }

  function PublishingClosed(s: State, conn: ConnectionId): State {
    if conn !in s.connections || !s.connections[conn].Leaving? then s
    else
      var c := s.connections[conn];
      Move(s, conn, Departing(c.session, c.removed)).(published := s.published + [c.count])
  }

  function Departed(s: State, conn: ConnectionId): State {
    if conn !in s.connections || !s.connections[conn].Departing? then s
    else
      var c := s.connections[conn];
      Move(s, conn, Gone(c.session)).(
        events := if c.removed then s.events + [PlayerLeft(c.session.endpoint)] else s.events)
  }

  function Step(s: State, a: Action): State {
    match a
    case Arrive(conn, id) => Arriving(s, conn, id)
    case TryRegister(conn) => FirstTry(s, conn)
    case Recheck(conn) => SecondTry(s, conn)
    case PublishRegistered(conn) => PublishingRegistered(s, conn)
    case Announce(conn) => Announced(s, conn)
    case Close(conn) => Closing(s, conn)
    case PublishClosed(conn) => PublishingClosed(s, conn)
    case FinishClose(conn) => Departed(s, conn)
  }

  function Exec(s: State, schedule: seq<Action>): State {
    if schedule == [] then s
    else Step(Exec(s, schedule[..|schedule| - 1]), Last(schedule))
  }

  // ----- the locked sections, in place

  /** The check-and-register section. It is the one both tries run, so it moves any
      state with this table as `FirstTry` and `SecondTry` do. */
  method RegisterSession(sessions: SessionIndex, id: EndpointId, conn: ConnectionId, maxPlayers: Option<nat>)
    returns (registered: Option<Upserted>, count: int)
    modifies sessions
    ensures registered.Some? <==> HasCapacity(old(sessions.byId), id, maxPlayers)
    ensures registered.Some? ==>
              registered.value == Upsert(old(sessions.byId), id, conn) && sessions.byId == registered.value.table
    ensures registered.None? ==> sessions.byId == old(sessions.byId)
    ensures count == |sessions.byId|
    ensures forall s: State :: s.table == old(sessions.byId) && registered.Some? ==>
              Register(s, conn, id).table == sessions.byId && Last(Register(s, conn, id).sizes) == count
  {
    var free := sessions.HasCapacityFor(id, maxPlayers);
    if !free {
      registered := None;
    } else {
      var generation, reconnect, replaced := sessions.Insert(id, conn);
      registered := Some(Upserted(sessions.byId, generation, reconnect, replaced));
    }
    count := sessions.ActivePlayers();
  }

  /** The close task's section: whether to announce the departure, and the count to publish. */
  method CloseLocked(sessions: SessionIndex, session: Session) returns (left: bool, count: int)
    modifies sessions
    ensures left == IsCurrent(old(sessions.byId), session.endpoint, session.generation)
    ensures count == |sessions.byId|
    ensures forall s: State, conn: ConnectionId :: s.table == old(sessions.byId) ==>
              CloseSession(s, conn, session).table == sessions.byId
              && CloseSession(s, conn, session).connections[conn] == Leaving(session, left, count)
  {
    left := sessions.Remove(session.endpoint, session.generation);
    count := sessions.ActivePlayers();
  }

  // ----- what every step keeps

  ghost predicate CountsOk(maxPlayers: Option<nat>, table: Table, sizes: seq<int>, published: seq<int>) {
    && sizes != [] && Last(sizes) == |table|
    && (forall n <- sizes :: maxPlayers.Some? ==> n <= maxPlayers.value)
    && (forall n <- published :: n in sizes)
  }

  ghost predicate Balanced(table: Table, joins: multiset<EndpointId>, leaves: multiset<EndpointId>) {
    forall id: EndpointId {:trigger joins[id]} :: joins[id] == leaves[id] + if id in table then 1 else 0
  }

  /** The entry of an endpoint in the table is determined by the registrations
      of its current residency. */
  ghost predicate EntriesOk(
    table: Table, residencies: map<EndpointId, int>, registrations: map<EndpointId, seq<ConnectionId>>)
  {
    forall id <- table ::
      && id in residencies && id in registrations && registrations[id] != []
      && table[id] == Entry(Min(|registrations[id]|, U64_MAX), Some(Last(registrations[id])))
  }

  ghost predicate SessionOk(
    conn: ConnectionId, session: Session,
    residencies: map<EndpointId, int>, registrations: map<EndpointId, seq<ConnectionId>>)
  {
    var id := session.endpoint;
    && id in residencies && id in registrations
    && 1 <= session.ordinal
    && session.generation == Min(session.ordinal, U64_MAX)
    && session.residency <= residencies[id]
    && (session.residency == residencies[id] ==>
          session.ordinal <= |registrations[id]| && registrations[id][session.ordinal - 1] == conn)
  }

  ghost predicate ConnectionOk(
    conn: ConnectionId, c: Connection, sizes: seq<int>,
    residencies: map<EndpointId, int>, registrations: map<EndpointId, seq<ConnectionId>>)
  {
    match c
    case Registered(session, count) => SessionOk(conn, session, residencies, registrations) && count in sizes
    case Announcing(session) => SessionOk(conn, session, residencies, registrations)
    case Open(session) => SessionOk(conn, session, residencies, registrations)
    case Leaving(_, _, count) => count in sizes
    case _ => true
  }

  ghost predicate ConnectionsOk(
    connections: map<ConnectionId, Connection>, sizes: seq<int>,
    residencies: map<EndpointId, int>, registrations: map<EndpointId, seq<ConnectionId>>)
  {
    forall conn <- connections :: ConnectionOk(conn, connections[conn], sizes, residencies, registrations)
  }

  ghost predicate Inv(s: State) {
    && CountsOk(s.maxPlayers, s.table, s.sizes, s.published)
    && Balanced(s.table, s.joins, s.leaves)
    && EntriesOk(s.table, s.residencies, s.registrations)
    && ConnectionsOk(s.connections, s.sizes, s.residencies, s.registrations)
  }

  lemma CountsGrow(maxPlayers: Option<nat>, table: Table, sizes: seq<int>, published: seq<int>, table': Table)
    requires CountsOk(maxPlayers, table, sizes, published)
    requires maxPlayers.Some? ==> |table'| <= maxPlayers.value
    ensures CountsOk(maxPlayers, table', sizes + [|table'|], published)
  {
  }

  lemma OpeningKeepsEntries(
      table: Table, residencies: map<EndpointId, int>, registrations: map<EndpointId, seq<ConnectionId>>,
      conn: ConnectionId, id: EndpointId)
    requires EntriesOk(table, residencies, registrations)
    ensures var session := NewSession(table, residencies, registrations, conn, id);
            EntriesOk(Upsert(table, id, conn).table, residencies[id := session.residency],
                      Recorded(registrations, conn, session))
  {
  }

  lemma OpeningKeepsConnections(
      table: Table, connections: map<ConnectionId, Connection>, sizes: seq<int>, residencies: map<EndpointId, int>,
      registrations: map<EndpointId, seq<ConnectionId>>, conn: ConnectionId, id: EndpointId, count: int)
    requires EntriesOk(table, residencies, registrations)
    requires ConnectionsOk(connections, sizes, residencies, registrations)
    ensures var session := NewSession(table, residencies, registrations, conn, id);
            ConnectionsOk(connections[conn := Registered(session, count)], sizes + [count],
                          residencies[id := session.residency], Recorded(registrations, conn, session))
  {
    var session := NewSession(table, residencies, registrations, conn, id);
    var residencies', registrations' := residencies[id := session.residency], Recorded(registrations, conn, session);
    var connections' := connections[conn := Registered(session, count)];
    assert SessionOk(conn, session, residencies', registrations');
    assert count in sizes + [count];
    forall c <- connections' ensures ConnectionOk(c, connections'[c], sizes + [count], residencies', registrations') {
      if c != conn {
        assert ConnectionOk(c, connections[c], sizes, residencies, registrations);
      }
    }
  }

  lemma UpsertCounts(
      maxPlayers: Option<nat>, table: Table, id: EndpointId, conn: ConnectionId, sizes: seq<int>, published: seq<int>)
    requires CountsOk(maxPlayers, table, sizes, published) && HasCapacity(table, id, maxPlayers)
    requires maxPlayers.Some? ==> maxPlayers.value <= U32_MAX
    ensures var table' := Upsert(table, id, conn).table;
            CountsOk(maxPlayers, table', sizes + [|table'|], published)
  {
    var table' := Upsert(table, id, conn).table;
    assert table'.Keys == table.Keys + {id};
    assert |table| in sizes;
    CountsGrow(maxPlayers, table, sizes, published, table');
  }

  lemma UpsertBalances(
      table: Table, id: EndpointId, conn: ConnectionId, joins: multiset<EndpointId>, leaves: multiset<EndpointId>)
    requires Balanced(table, joins, leaves)
    ensures Balanced(Upsert(table, id, conn).table, if id in table then joins else joins + multiset{id}, leaves)
  {
    var joins' := if id in table then joins else joins + multiset{id};
    forall k: EndpointId
      ensures joins'[k] == leaves[k] + if k in Upsert(table, id, conn).table then 1 else 0
    {
      assert joins[k] == leaves[k] + if k in table then 1 else 0;
    }
  }

  lemma RegisterKeepsInv(s: State, conn: ConnectionId, id: EndpointId)
    requires Inv(s) && HasCapacity(s.table, id, s.maxPlayers)
    requires s.maxPlayers.Some? ==> s.maxPlayers.value <= U32_MAX
    ensures Inv(Register(s, conn, id))
  {
    var s' := Register(s, conn, id);
    UpsertCounts(s.maxPlayers, s.table, id, conn, s.sizes, s.published);
    UpsertBalances(s.table, id, conn, s.joins, s.leaves);
    OpeningKeepsEntries(s.table, s.residencies, s.registrations, conn, id);
    OpeningKeepsConnections(s.table, s.connections, s.sizes, s.residencies, s.registrations, conn, id, |s'.table|);
  }

  lemma CloseKeepsInv(s: State, conn: ConnectionId, session: Session)
    requires Inv(s)
    ensures Inv(CloseSession(s, conn, session))
  {
    var s' := CloseSession(s, conn, session);
    var id := session.endpoint;
    assert |s'.table| <= |s.table| by {
      if IsCurrent(s.table, id, session.generation) {
        assert s.table.Keys == s'.table.Keys + {id};
      }
    }
    assert |s.table| in s.sizes;
    CountsGrow(s.maxPlayers, s.table, s.sizes, s.published, s'.table);
    forall k: EndpointId ensures s'.joins[k] == s'.leaves[k] + if k in s'.table then 1 else 0 {
      assert s.joins[k] == s.leaves[k] + if k in s.table then 1 else 0;
    }
    MovingKeepsConnections(s.connections, s.sizes, s.residencies, s.registrations, conn,
                           s'.connections[conn], [|s'.table|]);
  }

  lemma MovingKeepsConnections(
      connections: map<ConnectionId, Connection>, sizes: seq<int>, residencies: map<EndpointId, int>,
      registrations: map<EndpointId, seq<ConnectionId>>, conn: ConnectionId, c: Connection, more: seq<int>)
    requires ConnectionsOk(connections, sizes, residencies, registrations)
    requires ConnectionOk(conn, c, sizes + more, residencies, registrations)
    ensures ConnectionsOk(connections[conn := c], sizes + more, residencies, registrations)
  {
    var connections' := connections[conn := c];
    forall k <- connections' ensures ConnectionOk(k, connections'[k], sizes + more, residencies, registrations) {
      assert k != conn ==> ConnectionOk(k, connections[k], sizes, residencies, registrations);
    }
  }

  /** Steps that leave the table alone: a refused check, which records the table
      size once more, or one that takes no lock. */
  lemma QuietKeepsInv(s: State, s': State, conn: ConnectionId, sizes: seq<int>, published: seq<int>)
    requires Inv(s)
    requires s' == s.(connections := s'.connections, events := s'.events,
                      sizes := s.sizes + sizes, published := s.published + published)
    requires sizes == [] || sizes == [|s.table|]
    requires forall n <- published :: n in s.sizes
    requires conn in s'.connections && s'.connections == s.connections[conn := s'.connections[conn]]
    requires ConnectionOk(conn, s'.connections[conn], s'.sizes, s'.residencies, s'.registrations)
    ensures Inv(s')
  {
    assert |s.table| in s.sizes;
    if sizes == [] {
      assert s'.sizes == s.sizes;
    } else {
      CountsGrow(s.maxPlayers, s.table, s.sizes, s.published, s.table);
    }
    MovingKeepsConnections(s.connections, s.sizes, s.residencies, s.registrations, conn, s'.connections[conn], sizes);
  }

  lemma TriesKeepInv(s: State, conn: ConnectionId)
    requires Inv(s)
    requires s.maxPlayers.Some? ==> s.maxPlayers.value <= U32_MAX
    ensures Inv(FirstTry(s, conn)) && Inv(SecondTry(s, conn))
  {
    if conn in s.connections && (s.connections[conn].Authenticated? || s.connections[conn].Waiting?) {
      if HasCapacity(s.table, s.connections[conn].endpoint, s.maxPlayers) {
        RegisterKeepsInv(s, conn, s.connections[conn].endpoint);
      } else if s.connections[conn].Authenticated? {
        QuietKeepsInv(s, FirstTry(s, conn), conn, [|s.table|], []);
      } else {
        QuietKeepsInv(s, SecondTry(s, conn), conn, [|s.table|], []);
      }
    }
  }

  lemma PublishingKeepsInv(s: State, conn: ConnectionId)
    requires Inv(s)
    ensures Inv(PublishingRegistered(s, conn)) && Inv(PublishingClosed(s, conn))
  {
    if conn in s.connections && (s.connections[conn].Registered? || s.connections[conn].Leaving?) {
      assert ConnectionOk(conn, s.connections[conn], s.sizes, s.residencies, s.registrations);
      if s.connections[conn].Registered? {
        QuietKeepsInv(s, PublishingRegistered(s, conn), conn, [], [s.connections[conn].count]);
      } else {
        QuietKeepsInv(s, PublishingClosed(s, conn), conn, [], [s.connections[conn].count]);
      }
    }
  }

  lemma EmittingKeepsInv(s: State, conn: ConnectionId)
    requires Inv(s)
    ensures Inv(Announced(s, conn)) && Inv(Departed(s, conn))
  {
    if conn in s.connections && (s.connections[conn].Announcing? || s.connections[conn].Departing?) {
      assert ConnectionOk(conn, s.connections[conn], s.sizes, s.residencies, s.registrations);
      if s.connections[conn].Announcing? {
        QuietKeepsInv(s, Announced(s, conn), conn, [], []);
      } else {
        QuietKeepsInv(s, Departed(s, conn), conn, [], []);
      }
    }
  }

  lemma ArrivingKeepsInv(s: State, conn: ConnectionId, id: EndpointId)
    requires Inv(s)
    ensures Inv(Arriving(s, conn, id))
  {
    if conn !in s.connections {
      QuietKeepsInv(s, Arriving(s, conn, id), conn, [], []);
    }
  }

  lemma StepKeepsInv(s: State, a: Action)
    requires Inv(s)
    requires s.maxPlayers.Some? ==> s.maxPlayers.value <= U32_MAX
    ensures Inv(Step(s, a))
  {
    match a {
      case Arrive(conn, id) => ArrivingKeepsInv(s, conn, id);
      case TryRegister(conn) => TriesKeepInv(s, conn);
      case Recheck(conn) => TriesKeepInv(s, conn);
      case PublishRegistered(conn) => PublishingKeepsInv(s, conn);
      case Announce(conn) => EmittingKeepsInv(s, conn);
      case Close(conn) =>
        if conn in s.connections && s.connections[conn].Open? {
          CloseKeepsInv(s, conn, s.connections[conn].session);
        }
      case PublishClosed(conn) => PublishingKeepsInv(s, conn);
      case FinishClose(conn) => EmittingKeepsInv(s, conn);
    }
  }

  lemma StepKeepsLimit(s: State, a: Action)
    ensures Step(s, a).maxPlayers == s.maxPlayers
  {
  }

  /** Every schedule from an empty table keeps the invariant. */
  lemma {:induction false} ExecKeepsInv(maxPlayers: Option<nat>, schedule: seq<Action>)
    requires maxPlayers.Some? ==> maxPlayers.value <= U32_MAX
    ensures Inv(Exec(Init(maxPlayers), schedule)) && Exec(Init(maxPlayers), schedule).maxPlayers == maxPlayers
  {
    if schedule != [] {
      ExecKeepsInv(maxPlayers, schedule[..|schedule| - 1]);
      StepKeepsInv(Exec(Init(maxPlayers), schedule[..|schedule| - 1]), Last(schedule));
      StepKeepsLimit(Exec(Init(maxPlayers), schedule[..|schedule| - 1]), Last(schedule));
    }
  }

  // ----- main results

  /** In every interleaving the table respects the limit, every published count
      was the exact table size at some locked section, and the joined decisions
      for an endpoint exceed its left decisions by one exactly while it is in
      the table. */
  lemma TableIsBoundedAndCounted(maxPlayers: Option<nat>, schedule: seq<Action>)
    requires maxPlayers.Some? ==> maxPlayers.value <= U32_MAX
    ensures var s := Exec(Init(maxPlayers), schedule);
            && (maxPlayers.Some? ==> |s.table| <= maxPlayers.value)
            && (forall n <- s.published :: n in s.sizes && (maxPlayers.Some? ==> n <= maxPlayers.value))
            && (forall id: EndpointId :: s.joins[id] == s.leaves[id] + if id in s.table then 1 else 0)
  {
    ExecKeepsInv(maxPlayers, schedule);
    var s := Exec(Init(maxPlayers), schedule);
    assert |s.table| in s.sizes;
    assert Balanced(s.table, s.joins, s.leaves);
  }

  lemma OnlyRecheckRejects(s: State, a: Action)
    requires Inv(s)
    requires s.maxPlayers.Some? ==> s.maxPlayers.value <= U32_MAX
    ensures var s' := Step(s, a);
            s'.events != s.events && Last(s'.events).PlayerRejected? <==>
              && a.Recheck? && a.conn in s.connections && s.connections[a.conn].Waiting?
              && s.connections[a.conn].endpoint !in s.table
              && s.maxPlayers.Some? && |s.table| == s.maxPlayers.value
  {
    assert |s.table| in s.sizes;
    match a {
      case Recheck(conn) =>
        if conn in s.connections && s.connections[conn].Waiting? {
          CapacityIsExact(s.table, s.connections[conn].endpoint, s.maxPlayers);
        }
      case _ =>
    }
  }

  /** A connection is turned away exactly when it is rechecked while its endpoint
      is unknown and the table full; in particular a known endpoint never is. */
  lemma OnlyStrangersAreRefused(maxPlayers: Option<nat>, schedule: seq<Action>, a: Action)
    requires maxPlayers.Some? ==> maxPlayers.value <= U32_MAX
    ensures var s := Exec(Init(maxPlayers), schedule);
            var s' := Step(s, a);
            s'.events != s.events && Last(s'.events).PlayerRejected? <==>
              && a.Recheck? && a.conn in s.connections && s.connections[a.conn].Waiting?
              && s.connections[a.conn].endpoint !in s.table
              && maxPlayers.Some? && |s.table| == maxPlayers.value
  {
    ExecKeepsInv(maxPlayers, schedule);
    OnlyRecheckRejects(Exec(Init(maxPlayers), schedule), a);
  }

  /** While an endpoint is in the table its entry holds the number of
      registrations of this residency and the connection registered last. */
  lemma EntryFollowsResidency(maxPlayers: Option<nat>, schedule: seq<Action>, id: EndpointId)
    requires maxPlayers.Some? ==> maxPlayers.value <= U32_MAX
    ensures var s := Exec(Init(maxPlayers), schedule);
            id in s.table ==>
              && id in s.registrations && s.registrations[id] != []
              && s.table[id].generation == Min(|s.registrations[id]|, U64_MAX)
              && s.table[id].conn == Some(Last(s.registrations[id]))
  {
    ExecKeepsInv(maxPlayers, schedule);
  }

  /** Closing `conn`, whichever residency it was opened in, removes the entry of its
      endpoint exactly when its ordinal and the number of registrations of the
      current residency agree once both saturate at `u64::MAX`, and otherwise changes
      neither the table nor the left decisions. */
  ghost predicate CloseIsFiltered(s: State, conn: ConnectionId)
    requires conn in s.connections && s.connections[conn].Open?
  {
    var session := s.connections[conn].session;
    var id := session.endpoint;
    var s' := Step(s, Close(conn));
    && id in s.registrations
    && if id in s.table && Min(session.ordinal, U64_MAX) == Min(|s.registrations[id]|, U64_MAX)
       then s'.table == s.table - {id} && s'.leaves == s.leaves + multiset{id}
       else s'.table == s.table && s'.leaves == s.leaves
  }

  /** Within the current residency and below 2^64 registrations: the close of a
      replaced connection is ignored and that of the last registered one is not. */
  ghost predicate OnlyTheLastCounts(s: State, conn: ConnectionId)
    requires conn in s.connections && s.connections[conn].Open?
  {
    var session := s.connections[conn].session;
    var id := session.endpoint;
    id in s.table && id in s.residencies && session.residency == s.residencies[id]
    && id in s.registrations && 0 < |s.registrations[id]| <= U64_MAX ==>
      && (session.ordinal < |s.registrations[id]| ==> Step(s, Close(conn)).table == s.table)
      && (session.ordinal == |s.registrations[id]| ==>
            conn == Last(s.registrations[id]) && id !in Step(s, Close(conn)).table)
      && 1 <= session.ordinal <= |s.registrations[id]|
  }

  lemma ClosesAreFiltered(s: State, conn: ConnectionId)
    requires Inv(s) && conn in s.connections && s.connections[conn].Open?
    ensures CloseIsFiltered(s, conn) && OnlyTheLastCounts(s, conn)
  {
    assert ConnectionOk(conn, s.connections[conn], s.sizes, s.residencies, s.registrations);
  }

  /** In every interleaving an open connection's close removes the entry exactly as
      said: within its own residency only the last registered one does, and one left
      over from an earlier residency does exactly when it was then the
      n-th registration and the current residency has n. */
  lemma ClosesAreCompared(maxPlayers: Option<nat>, schedule: seq<Action>, conn: ConnectionId)
    requires maxPlayers.Some? ==> maxPlayers.value <= U32_MAX
    requires conn in Exec(Init(maxPlayers), schedule).connections
    requires Exec(Init(maxPlayers), schedule).connections[conn].Open?
    ensures CloseIsFiltered(Exec(Init(maxPlayers), schedule), conn)
  {
    ExecKeepsInv(maxPlayers, schedule);
    ClosesAreFiltered(Exec(Init(maxPlayers), schedule), conn);
  }

  /** In every interleaving, closes of replaced connections, in any order and at
      any time in the residency, neither remove the entry nor announce a departure. */
  lemma OnlyTheLastRegistrationEndsAResidency(maxPlayers: Option<nat>, schedule: seq<Action>, conn: ConnectionId)
    requires maxPlayers.Some? ==> maxPlayers.value <= U32_MAX
    ensures var s := Exec(Init(maxPlayers), schedule);
            conn in s.connections && s.connections[conn].Open? ==>
              CloseIsFiltered(s, conn) && OnlyTheLastCounts(s, conn)
  {
    ExecKeepsInv(maxPlayers, schedule);
    var s := Exec(Init(maxPlayers), schedule);
    if conn in s.connections && s.connections[conn].Open? {
      ClosesAreFiltered(s, conn);
    }
  }

  // ----- what is announced

  /** A first registration not yet announced. */
  predicate WillJoin(c: Connection, id: EndpointId) {
    (c.Registered? || c.Announcing?) && !c.session.reconnect && c.session.endpoint == id
  }

  /** A removal not yet announced. */
  predicate WillLeave(c: Connection, id: EndpointId) {
    (c.Leaving? || c.Departing?) && c.removed && c.session.endpoint == id
  }

  function Joining(connections: map<ConnectionId, Connection>, id: EndpointId): set<ConnectionId> {
    set c | c in connections && WillJoin(connections[c], id)
  }

  function Departures(connections: map<ConnectionId, Connection>, id: EndpointId): set<ConnectionId> {
    set c | c in connections && WillLeave(connections[c], id)
  }

  function Count(b: bool): int {
    if b then 1 else 0
  }

  function Announcements(events: seq<Event>, e: Event): int {
    multiset(events)[e]
  }

  lemma Replaced(s: set<ConnectionId>, conn: ConnectionId, there: bool)
    ensures |(s - {conn}) + (if there then {conn} else {})| == |s| - Count(conn in s) + Count(there)
  {
    assert |s - {conn}| == |s| - Count(conn in s) by {
      if conn in s {
        assert s == (s - {conn}) + {conn};
      } else {
        assert s - {conn} == s;
      }
    }
    if !there {
      assert (s - {conn}) + {} == s - {conn};
    }
  }

  lemma JoiningSet(connections: map<ConnectionId, Connection>, conn: ConnectionId, to: Connection, id: EndpointId)
    ensures Joining(connections[conn := to], id)
            == (Joining(connections, id) - {conn}) + (if WillJoin(to, id) then {conn} else {})
    ensures conn in Joining(connections, id) <==> conn in connections && WillJoin(connections[conn], id)
  {
    var after := Joining(connections[conn := to], id);
    if WillJoin(to, id) {
      assert after == (Joining(connections, id) - {conn}) + {conn};
    } else {
      assert after == (Joining(connections, id) - {conn}) + {};
    }
  }

  lemma JoiningMoves(connections: map<ConnectionId, Connection>, conn: ConnectionId, to: Connection, id: EndpointId)
    ensures |Joining(connections[conn := to], id)|
            == |Joining(connections, id)| - Count(conn in connections && WillJoin(connections[conn], id)) + Count(WillJoin(to, id))
  {
    JoiningSet(connections, conn, to, id);
    Replaced(Joining(connections, id), conn, WillJoin(to, id));
  }

  lemma DeparturesSet(connections: map<ConnectionId, Connection>, conn: ConnectionId, to: Connection, id: EndpointId)
    ensures Departures(connections[conn := to], id)
            == (Departures(connections, id) - {conn}) + (if WillLeave(to, id) then {conn} else {})
    ensures conn in Departures(connections, id) <==> conn in connections && WillLeave(connections[conn], id)
  {
    var after := Departures(connections[conn := to], id);
    if WillLeave(to, id) {
      assert after == (Departures(connections, id) - {conn}) + {conn};
    } else {
      assert after == (Departures(connections, id) - {conn}) + {};
    }
  }

  lemma DeparturesMove(connections: map<ConnectionId, Connection>, conn: ConnectionId, to: Connection, id: EndpointId)
    ensures |Departures(connections[conn := to], id)|
            == |Departures(connections, id)| - Count(conn in connections && WillLeave(connections[conn], id))
               + Count(WillLeave(to, id))
  {
    DeparturesSet(connections, conn, to, id);
    Replaced(Departures(connections, id), conn, WillLeave(to, id));
  }

  lemma MoveCounts(connections: map<ConnectionId, Connection>, conn: ConnectionId, to: Connection, id: EndpointId)
    ensures |Joining(connections[conn := to], id)|
            == |Joining(connections, id)| - Count(conn in connections && WillJoin(connections[conn], id)) + Count(WillJoin(to, id))
    ensures |Departures(connections[conn := to], id)|
            == |Departures(connections, id)| - Count(conn in connections && WillLeave(connections[conn], id))
               + Count(WillLeave(to, id))
  {
    JoiningMoves(connections, conn, to, id);
    DeparturesMove(connections, conn, to, id);
  }

  lemma EmitCounts(events: seq<Event>, emitted: Event, e: Event)
    ensures Announcements(events + [emitted], e) == Announcements(events, e) + Count(emitted == e)
  {
    assert multiset(events + [emitted]) == multiset(events) + multiset{emitted};
  }

  /** Every decision to announce a player is carried out once or still to be carried out. */
  ghost predicate AnnouncedExactly(s: State, id: EndpointId) {
    && Announcements(s.events, PlayerJoined(id)) + |Joining(s.connections, id)| == s.joins[id]
    && Announcements(s.events, PlayerLeft(id)) + |Departures(s.connections, id)| == s.leaves[id]
  }

  lemma RegisterAnnounces(s: State, conn: ConnectionId, here: EndpointId, id: EndpointId)
    requires AnnouncedExactly(s, id)
    requires conn in s.connections && (s.connections[conn].Authenticated? || s.connections[conn].Waiting?)
    ensures AnnouncedExactly(Register(s, conn, here), id)
  {
    var r := Register(s, conn, here);
    MoveCounts(s.connections, conn, r.connections[conn], id);
  }

  lemma CloseAnnounces(s: State, conn: ConnectionId, id: EndpointId)
    requires AnnouncedExactly(s, id) && conn in s.connections && s.connections[conn].Open?
    ensures AnnouncedExactly(Closing(s, conn), id)
  {
    var r := Closing(s, conn);
    MoveCounts(s.connections, conn, r.connections[conn], id);
  }

  /** A move that emits at most one event, of its own connection. */
  lemma EmittingAnnounces(s: State, conn: ConnectionId, to: Connection, emitted: seq<Event>, id: EndpointId)
    requires AnnouncedExactly(s, id) && |emitted| <= 1
    requires Count(emitted == [PlayerJoined(id)]) + Count(WillJoin(to, id))
             == Count(conn in s.connections && WillJoin(s.connections[conn], id))
    requires Count(emitted == [PlayerLeft(id)]) + Count(WillLeave(to, id))
             == Count(conn in s.connections && WillLeave(s.connections[conn], id))
    ensures Announcements(s.events + emitted, PlayerJoined(id)) + |Joining(s.connections[conn := to], id)| == s.joins[id]
    ensures Announcements(s.events + emitted, PlayerLeft(id)) + |Departures(s.connections[conn := to], id)| == s.leaves[id]
  {
    MoveCounts(s.connections, conn, to, id);
    if emitted == [] {
      assert s.events + emitted == s.events;
    } else {
      EmitCounts(s.events, emitted[0], PlayerJoined(id));
      EmitCounts(s.events, emitted[0], PlayerLeft(id));
      assert emitted == [emitted[0]];
    }
  }

  lemma FirstTryAnnounces(s: State, conn: ConnectionId, id: EndpointId)
    requires AnnouncedExactly(s, id) && conn in s.connections && s.connections[conn].Authenticated?
    ensures AnnouncedExactly(FirstTry(s, conn), id)
  {
    var here := s.connections[conn].endpoint;
    if HasCapacity(s.table, here, s.maxPlayers) {
      RegisterAnnounces(s, conn, here, id);
    } else {
      EmittingAnnounces(s, conn, Waiting(here), [], id);
      assert s.events + [] == s.events;
    }
  }

  lemma SecondTryAnnounces(s: State, conn: ConnectionId, id: EndpointId)
    requires AnnouncedExactly(s, id) && conn in s.connections && s.connections[conn].Waiting?
    ensures AnnouncedExactly(SecondTry(s, conn), id)
  {
    var here := s.connections[conn].endpoint;
    if HasCapacity(s.table, here, s.maxPlayers) {
      RegisterAnnounces(s, conn, here, id);
    } else {
      EmittingAnnounces(s, conn, Rejected(here), [PlayerRejected(here)], id);
    }
  }

  lemma AnnounceAnnounces(s: State, conn: ConnectionId, id: EndpointId)
    requires AnnouncedExactly(s, id) && conn in s.connections && s.connections[conn].Announcing?
    ensures AnnouncedExactly(Announced(s, conn), id)
  {
    var session := s.connections[conn].session;
    EmittingAnnounces(s, conn, Open(session), if session.reconnect then [] else [PlayerJoined(session.endpoint)], id);
    assert s.events + [] == s.events;
  }

  lemma DepartureAnnounces(s: State, conn: ConnectionId, id: EndpointId)
    requires AnnouncedExactly(s, id) && conn in s.connections && s.connections[conn].Departing?
    ensures AnnouncedExactly(Departed(s, conn), id)
  {
    var c := s.connections[conn];
    EmittingAnnounces(s, conn, Gone(c.session), if c.removed then [PlayerLeft(c.session.endpoint)] else [], id);
    assert s.events + [] == s.events;
  }

  lemma PublishAnnounces(s: State, conn: ConnectionId, id: EndpointId)
    requires AnnouncedExactly(s, id)
    ensures AnnouncedExactly(PublishingRegistered(s, conn), id) && AnnouncedExactly(PublishingClosed(s, conn), id)
  {
    assert s.events + [] == s.events;
    if conn in s.connections && s.connections[conn].Registered? {
      EmittingAnnounces(s, conn, Announcing(s.connections[conn].session), [], id);
    } else if conn in s.connections && s.connections[conn].Leaving? {
      EmittingAnnounces(s, conn, Departing(s.connections[conn].session, s.connections[conn].removed), [], id);
    }
  }

  lemma StepAnnounces(s: State, a: Action, id: EndpointId)
    requires AnnouncedExactly(s, id)
    ensures AnnouncedExactly(Step(s, a), id)
  {
    match a
    case Arrive(conn, here) =>
      if conn !in s.connections {
        EmittingAnnounces(s, conn, Authenticated(here), [], id);
        assert s.events + [] == s.events;
      }
    case TryRegister(conn) =>
      if conn in s.connections && s.connections[conn].Authenticated? { FirstTryAnnounces(s, conn, id); }
    case Recheck(conn) =>
      if conn in s.connections && s.connections[conn].Waiting? { SecondTryAnnounces(s, conn, id); }
    case PublishRegistered(conn) => PublishAnnounces(s, conn, id);
    case Announce(conn) => if conn in s.connections && s.connections[conn].Announcing? { AnnounceAnnounces(s, conn, id); }
    case Close(conn) => if conn in s.connections && s.connections[conn].Open? { CloseAnnounces(s, conn, id); }
    case PublishClosed(conn) => PublishAnnounces(s, conn, id);
    case FinishClose(conn) => if conn in s.connections && s.connections[conn].Departing? { DepartureAnnounces(s, conn, id); }
  }

  /** In every interleaving and for every endpoint, the joined announcements made, plus the
      first registrations still to be announced, are the joined decisions; and likewise
      for the left announcements and the removals. */
  lemma {:induction false} DecisionsAreAnnounced(maxPlayers: Option<nat>, schedule: seq<Action>, id: EndpointId)
    ensures AnnouncedExactly(Exec(Init(maxPlayers), schedule), id)
  {
    if schedule != [] {
      DecisionsAreAnnounced(maxPlayers, schedule[..|schedule| - 1], id);
      StepAnnounces(Exec(Init(maxPlayers), schedule[..|schedule| - 1]), Last(schedule), id);
    } else {
      assert Joining(map[], id) == {} && Departures(map[], id) == {};
    }
  }

  lemma {:induction false} ExecConcat(s: State, first: seq<Action>, second: seq<Action>)
    ensures Exec(s, first + second) == Exec(Exec(s, first), second)
  {
    if second == [] {
      assert first + second == first;
    } else {
      ExecConcat(s, first, second[..|second| - 1]);
      assert (first + second)[..|first + second| - 1] == first + second[..|second| - 1];
    }
  }

  lemma ExecOne(s: State, a: Action)
    ensures Exec(s, [a]) == Step(s, a)
  {
    assert [a][..0] == [];
  }

  lemma ExecMore(s: State, schedule: seq<Action>, a: Action)
    ensures Exec(s, schedule + [a]) == Step(Exec(s, schedule), a)
  {
    ExecConcat(s, schedule, [a]);
    ExecOne(Exec(s, schedule), a);
  }

  lemma ExecFour(s: State, a: Action, b: Action, c: Action, d: Action)
    ensures Exec(s, [a, b, c, d]) == Step(Step(Step(Step(s, a), b), c), d)
  {
    ExecOne(s, a);
    ExecMore(s, [a], b);
    ExecMore(s, [a] + [b], c);
    ExecMore(s, [a] + [b] + [c], d);
    assert [a, b, c, d] == [a] + [b] + [c] + [d];
  }

  function Lifecycle(c: ConnectionId, id: EndpointId): seq<Action> {
    [Arrive(c, id), TryRegister(c), PublishRegistered(c), Announce(c)]
  }

  ghost predicate SameButConnections(s: State, s': State) {
    && s'.table == s.table && s'.leaves == s.leaves && s'.maxPlayers == s.maxPlayers
    && s'.residencies == s.residencies && s'.registrations == s.registrations
  }

  lemma FirstHalfRuns(s: State, c: ConnectionId, id: EndpointId)
    requires c !in s.connections && s.maxPlayers.None?
    ensures var r := Register(s, c, id);
            var s' := Step(Step(s, Arrive(c, id)), TryRegister(c));
            SameButConnections(r, s') && s'.connections == s.connections[c := r.connections[c]]
  {
    var s1 := Move(s, c, Authenticated(id));
    assert Step(s, Arrive(c, id)) == s1;
    assert Step(s1, TryRegister(c)) == Register(s1, c, id);
  }

  /** What a new connection does to a host without a player limit, up to the
      point where only its close task is left. */
  lemma LifecycleRuns(s: State, c: ConnectionId, id: EndpointId)
    requires c !in s.connections && s.maxPlayers.None?
    ensures var r := Register(s, c, id);
            var s' := Exec(s, Lifecycle(c, id));
            && SameButConnections(r, s') && s'.maxPlayers.None?
            && s'.connections == s.connections[c := Open(r.connections[c].session)]
  {
    ExecFour(s, Arrive(c, id), TryRegister(c), PublishRegistered(c), Announce(c));
    FirstHalfRuns(s, c, id);
    SecondHalfRuns(Step(Step(s, Arrive(c, id)), TryRegister(c)), c);
  }

  lemma SecondHalfRuns(s: State, c: ConnectionId)
    requires c in s.connections && s.connections[c].Registered?
    ensures var session := s.connections[c].session;
            var s' := Step(Step(s, PublishRegistered(c)), Announce(c));
            SameButConnections(s, s') && s'.connections == s.connections[c := Open(session)]
  {
    var session := s.connections[c].session;
    var counted := Step(s, PublishRegistered(c));
    assert counted.connections == s.connections[c := Announcing(session)];
  }

  lemma FirstRegistration(s: State, c: ConnectionId, id: EndpointId)
    requires id !in s.table && c !in s.connections && s.maxPlayers.None?
    ensures var s' := Exec(s, Lifecycle(c, id));
            var residency := if id in s.residencies then s.residencies[id] + 1 else 1;
            && s'.table == s.table[id := Entry(1, Some(c))] && s'.leaves == s.leaves && s'.maxPlayers.None?
            && s'.residencies == s.residencies[id := residency]
            && id in s'.registrations && s'.registrations[id] == [c]
            && s'.connections == s.connections[c := Open(Session(id, residency, 1, 1, false))]
  {
    LifecycleRuns(s, c, id);
  }

  /** A second registration, and its close, of an endpoint registered once. */
  lemma ReplacedAndGone(s: State, b: ConnectionId, id: EndpointId)
    requires id in s.table && s.table[id].generation == 1 && b !in s.connections && s.maxPlayers.None?
    requires id in s.residencies && id in s.registrations && |s.registrations[id]| == 1
    ensures var s' := Step(Exec(s, Lifecycle(b, id)), Close(b));
            && s'.table == s.table - {id} && s'.maxPlayers.None? && s'.residencies == s.residencies
            && s'.connections.Keys == s.connections.Keys + {b}
            && (forall k <- s.connections :: s'.connections[k] == s.connections[k])
  {
    LifecycleRuns(s, b, id);
    var open := Exec(s, Lifecycle(b, id));
    assert open.table[id] == Entry(2, Some(b));
    assert open.connections[b] == Open(Session(id, s.residencies[id], 2, 2, true));
    assert open.residencies == s.residencies;
    assert open.table - {id} == s.table - {id};
  }

  /** Generations restart at 1 after a removal, so the guarantee above stops at
      the residency. For any three connections of one endpoint: once `b` has
      replaced `a` and closed, and `c` has registered, the late close of `a` removes
      the entry of `c` and counts as a departure. */
  lemma StaleCloseCrossesResidencies(a: ConnectionId, b: ConnectionId, c: ConnectionId, id: EndpointId)
    requires a != b && b != c && a != c
    ensures var s := Exec(Init(None), Lifecycle(a, id) + Lifecycle(b, id) + [Close(b)] + Lifecycle(c, id));
            && id in s.table && s.table[id].conn == Some(c)
            && a in s.connections && s.connections[a].Open? && s.connections[a].session.residency == 1
            && id in s.residencies && s.residencies[id] == 2
            && Step(s, Close(a)).table == map[] && Step(s, Close(a)).leaves == s.leaves + multiset{id}
  {
    var s0 := Init(None);
    FirstRegistration(s0, a, id);
    var s1 := Exec(s0, Lifecycle(a, id));
    ReplacedAndGone(s1, b, id);
    var s2 := Step(Exec(s1, Lifecycle(b, id)), Close(b));
    ExecOne(Exec(s1, Lifecycle(b, id)), Close(b));
    ExecConcat(s0, Lifecycle(a, id), Lifecycle(b, id));
    ExecConcat(s0, Lifecycle(a, id) + Lifecycle(b, id), [Close(b)]);
    FirstRegistration(s2, c, id);
    ExecConcat(s0, Lifecycle(a, id) + Lifecycle(b, id) + [Close(b)], Lifecycle(c, id));
    SecondResidencyEnds(Exec(s2, Lifecycle(c, id)), a, c, id);
  }

  lemma SecondResidencyEnds(s: State, a: ConnectionId, c: ConnectionId, id: EndpointId)
    requires s.table == map[id := Entry(1, Some(c))]
    requires a in s.connections && s.connections[a] == Open(Session(id, 1, 1, 1, false))
    ensures Step(s, Close(a)).table == map[] && Step(s, Close(a)).leaves == s.leaves + multiset{id}
  {
  }
}
