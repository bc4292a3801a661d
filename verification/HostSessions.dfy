/** The host's session table (core/src/tunnel/iroh/session.rs): one entry per
    endpoint, so that a reconnecting player is not announced twice. */
module HostSessions {
  import opened Prelude

  type EndpointId = int
  type ConnectionId = int

  datatype Entry = Entry(generation: nat, conn: Option<ConnectionId>)

  type Table = map<EndpointId, Entry>

  datatype Upserted = Upserted(table: Table, generation: nat, reconnect: bool, replaced: Option<ConnectionId>)

  /** The length comparison happens on `u32`, a larger length counting as `u32::MAX`. */
  predicate HasCapacity(table: Table, id: EndpointId, maxPlayers: Option<nat>) {
    id in table || maxPlayers.None? || Min(|table|, U32_MAX) < maxPlayers.value
  }

  function Upsert(table: Table, id: EndpointId, conn: ConnectionId): Upserted {
    if id in table then
      var generation := SaturatingAdd(table[id].generation, 1, U64_MAX);
      Upserted(table[id := Entry(generation, Some(conn))], generation, true, table[id].conn)
    else
      Upserted(table[id := Entry(1, Some(conn))], 1, false, None)
  }

  predicate IsCurrent(table: Table, id: EndpointId, generation: nat) {
    id in table && table[id].generation == generation
  }

  function RemoveIfCurrent(table: Table, id: EndpointId, generation: nat): Table {
    if IsCurrent(table, id, generation) then table - {id} else table
  }

  /** For every limit the option type can hold, clamping the length to `u32`
      changes no answer. */
  lemma CapacityIsExact(table: Table, id: EndpointId, maxPlayers: Option<nat>)
    requires maxPlayers.Some? ==> maxPlayers.value <= U32_MAX
    ensures HasCapacity(table, id, maxPlayers) <==>
            id in table || (maxPlayers.Some? ==> |table| < maxPlayers.value)
  {
  }

  /** Upserting and then closing with the generation just handed out forgets the
      endpoint and nothing else. */
  lemma UpsertThenRemove(table: Table, id: EndpointId, conn: ConnectionId)
    ensures var up := Upsert(table, id, conn);
            && IsCurrent(up.table, id, up.generation)
            && RemoveIfCurrent(up.table, id, up.generation) == table - {id}
  {
    var up := Upsert(table, id, conn);
    assert up.table - {id} == table - {id};
  }

  class SessionIndex {
    var byId: Table

    constructor ()
      ensures byId == map[]
    {
      byId := map[];
    }

    method ActivePlayers() returns (count: nat)
      ensures count == |byId|
    {
      count := |byId|;
    }

    method HasCapacityFor(id: EndpointId, maxPlayers: Option<nat>) returns (free: bool)
      ensures free == HasCapacity(byId, id, maxPlayers)
    {
      if id in byId {
        return true;
      }
      if maxPlayers.None? {
        return true;
      }
      var players := ActivePlayers();
      if players > U32_MAX {
        players := U32_MAX;
      }
      free := players < maxPlayers.value;
    }

    method Insert(id: EndpointId, conn: ConnectionId)
      returns (generation: nat, reconnect: bool, replaced: Option<ConnectionId>)
      modifies this
      ensures Upserted(byId, generation, reconnect, replaced) == Upsert(old(byId), id, conn)
    {
      if id in byId {
        var entry := byId[id];
        generation := if entry.generation >= U64_MAX then U64_MAX else entry.generation + 1;
        replaced := entry.conn;
        byId := byId[id := entry.(generation := generation, conn := Some(conn))];
        reconnect := true;
      } else {
        byId := byId[id := Entry(1, Some(conn))];
        generation, reconnect, replaced := 1, false, None;
      }
    }

    method Remove(id: EndpointId, generation: nat) returns (removed: bool)
      modifies this
      ensures removed == IsCurrent(old(byId), id, generation)
      ensures byId == RemoveIfCurrent(old(byId), id, generation)
    {
      removed := id in byId && byId[id].generation == generation;
      if removed {
        byId := map k | k in byId && k != id :: byId[k];
      }
    }
  }
}
