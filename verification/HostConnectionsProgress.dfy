/** What the host does with one connection when nothing else takes a step: exactly when
    it is registered, replaced, announced, counted, refused and forgotten. */
module HostConnectionsProgress {
  import opened Prelude
  import opened HostSessions
  import opened HostConnections

  /** There is room for the endpoint, or it is known. */
  predicate Room(s: State, id: EndpointId) {
    id in s.table || s.maxPlayers.None? || |s.table| < s.maxPlayers.value
  }

  /** Registration, its count and its announcement. */
  function RegisterAlone(s: State, a: Action): State {
    Step(Step(Step(s, a), PublishRegistered(a.conn)), Announce(a.conn))
  }

  /** Close, its count and its announcement. */
  function CloseAlone(s: State, conn: ConnectionId): State {
    Step(Step(Step(s, Close(conn)), PublishClosed(conn)), FinishClose(conn))
  }

  /** The registered connection is open under a generation above the previous one, was
      counted, and is announced exactly if its endpoint was unknown. */
  predicate Welcomed(s: State, r: State, conn: ConnectionId, id: EndpointId) {
    var known := id in s.table;
    var generation := if known then Min(s.table[id].generation + 1, U64_MAX) else 1;
    && r.table == s.table[id := Entry(generation, Some(conn))]
    && r.published == s.published + [|r.table|]
    && r.events == s.events + (if known then [] else [PlayerJoined(id)])
    && conn in r.connections && r.connections == s.connections[conn := r.connections[conn]]
    && r.connections[conn].Open?
    && r.connections[conn].session.endpoint == id && r.connections[conn].session.generation == generation
    && r.connections[conn].session.reconnect == known
  }

  lemma RegisteredIsWelcomed(s: State, tried: State, conn: ConnectionId, id: EndpointId)
    requires tried == Register(s, conn, id)
    ensures Welcomed(s, Step(Step(tried, PublishRegistered(conn)), Announce(conn)), conn, id)
  {
    var session := tried.connections[conn].session;
    var counted := Step(tried, PublishRegistered(conn));
    assert counted == Move(tried, conn, Announcing(session)).(published := tried.published + [|tried.table|]);
    assert s.events + [] == s.events;
    var r := Step(counted, Announce(conn));
    assert r.connections == s.connections[conn := Open(session)];
  }

  lemma UnregisteredStays(s: State, conn: ConnectionId)
    requires conn in s.connections && (s.connections[conn].Waiting? || s.connections[conn].Rejected?)
    ensures Step(Step(s, PublishRegistered(conn)), Announce(conn)) == s
  {
  }

  lemma AuthenticatedEnds(s: State, conn: ConnectionId, id: EndpointId)
    requires s.maxPlayers.Some? ==> s.maxPlayers.value <= U32_MAX
    requires conn in s.connections && s.connections[conn] == Authenticated(id)
    ensures var r := RegisterAlone(s, TryRegister(conn));
            if Room(s, id) then Welcomed(s, r, conn, id)
            else r.table == s.table && r.published == s.published && r.events == s.events
                 && r.connections == s.connections[conn := Waiting(id)]
  {
    CapacityIsExact(s.table, id, s.maxPlayers);
    if Room(s, id) {
      RegisteredIsWelcomed(s, Step(s, TryRegister(conn)), conn, id);
    } else {
      UnregisteredStays(Step(s, TryRegister(conn)), conn);
    }
  }

  lemma ArrivesAuthenticated(s: State, conn: ConnectionId, id: EndpointId)
    requires conn !in s.connections
    ensures Step(s, Arrive(conn, id)) == Move(s, conn, Authenticated(id))
  {
  }

  lemma WelcomedFromBefore(s: State, r: State, conn: ConnectionId, id: EndpointId)
    requires conn !in s.connections && Welcomed(Move(s, conn, Authenticated(id)), r, conn, id)
    ensures Welcomed(s, r, conn, id)
  {
    assert r.connections == s.connections[conn := r.connections[conn]];
  }

  /** A connection that arrives is registered at its first try exactly if there is room,
      and waits otherwise. */
  lemma FirstTriesEndExactly(s: State, conn: ConnectionId, id: EndpointId)
    requires s.maxPlayers.Some? ==> s.maxPlayers.value <= U32_MAX
    requires conn !in s.connections
    ensures var r := RegisterAlone(Step(s, Arrive(conn, id)), TryRegister(conn));
            if Room(s, id) then Welcomed(s, r, conn, id)
            else r.table == s.table && r.published == s.published && r.events == s.events
                 && r.connections == s.connections[conn := Waiting(id)]
  {
    ArrivesAuthenticated(s, conn, id);
    var arrived := Move(s, conn, Authenticated(id));
    AuthenticatedEnds(arrived, conn, id);
    if Room(s, id) {
      WelcomedFromBefore(s, RegisterAlone(arrived, TryRegister(conn)), conn, id);
    }
  }

  /** A recheck registers exactly if there is room by then, and otherwise refuses for good. */
  lemma RechecksEndExactly(s: State, conn: ConnectionId, id: EndpointId)
    requires s.maxPlayers.Some? ==> s.maxPlayers.value <= U32_MAX
    requires conn in s.connections && s.connections[conn] == Waiting(id)
    ensures var r := RegisterAlone(s, Recheck(conn));
            if Room(s, id) then Welcomed(s, r, conn, id)
            else r.table == s.table && r.published == s.published && r.events == s.events + [PlayerRejected(id)]
                 && r.connections == s.connections[conn := Rejected(id)]
  {
    CapacityIsExact(s.table, id, s.maxPlayers);
    if Room(s, id) {
      RegisteredIsWelcomed(s, Step(s, Recheck(conn)), conn, id);
    } else {
      UnregisteredStays(Step(s, Recheck(conn)), conn);
    }
  }

  /** A close forgets the endpoint, and announces that it left, exactly if the entry still
      has the generation of the connection; either way the table is counted. */
  lemma ClosesEndExactly(s: State, conn: ConnectionId)
    requires conn in s.connections && s.connections[conn].Open?
    ensures var session := s.connections[conn].session;
            var r := CloseAlone(s, conn);
            var removed := session.endpoint in s.table && s.table[session.endpoint].generation == session.generation;
            && r.table == (if removed then s.table - {session.endpoint} else s.table)
            && r.published == s.published + [|r.table|]
            && r.events == s.events + (if removed then [PlayerLeft(session.endpoint)] else [])
            && r.connections == s.connections[conn := Gone(session)]
  {
    var session := s.connections[conn].session;
    var closed := Step(s, Close(conn));
    var counted := Step(closed, PublishClosed(conn));
    assert counted.published == s.published + [|closed.table|];
    assert s.events + [] == s.events;
    var r := Step(counted, FinishClose(conn));
    assert r.connections == s.connections[conn := Gone(session)];
  }

  /** A reconnect replaces, and has the host close, the connection registered last in the
      residency; a first registration replaces none. */
  lemma ReconnectsReplaceTheLast(maxPlayers: Option<nat>, schedule: seq<Action>, id: EndpointId, conn: ConnectionId)
    requires maxPlayers.Some? ==> maxPlayers.value <= U32_MAX
    ensures var s := Exec(Init(maxPlayers), schedule);
            var up := Upsert(s.table, id, conn);
            && up.reconnect == (id in s.table)
            && (id in s.table ==> id in s.registrations && s.registrations[id] != []
                                  && up.replaced == Some(Last(s.registrations[id])))
            && (id !in s.table ==> up.replaced.None?)
  {
    EntryFollowsResidency(maxPlayers, schedule, id);
  }
}
