/** The objects behind the hosted node (core/src/tunnel/iroh/node.rs), updated in
    place: each method is one locked section, and its contract is the step of the
    state machine in HostedNode that stands for it. */
module HostedService {
  import opened Prelude
  import opened Bytes
  import opened HostState
  import HostedNode

  /** `usize` on the platforms the original supports at most. */
  const COUNT_MAX := U64_MAX

  // ----- HostedStatus

  /** `current` behind its mutex; `published` and `version` are the watch channel. */
  class HostedStatus {
    var current: HostedNode.Status
    var bridges: int
    var published: (HostedNode.Status, int)
    var version: int

    /** Between updates the channel holds the current status. */
    predicate Valid()
      reads this
    {
      published == (current, bridges) && 0 <= bridges <= COUNT_MAX
    }

    constructor (createdAt: int, nextRotationAt: Option<int>)
      ensures Valid() && version == 0 && bridges == 0
      ensures current == HostedNode.Status(HostedNode.Active, 1, createdAt, nextRotationAt, 0, None)
    {
      current := HostedNode.Status(HostedNode.Active, 1, createdAt, nextRotationAt, 0, None);
      bridges := 0;
      published := (HostedNode.Status(HostedNode.Active, 1, createdAt, nextRotationAt, 0, None), 0);
      version := 0;
    }

    /** `update`: the change and its publication are one locked section. */
    method Update(status: HostedNode.Status, count: int)
      requires 0 <= count <= COUNT_MAX
      modifies this
      ensures Valid() && current == status && bridges == count && version == old(version) + 1
    {
      current := status;
      bridges := count;
      published := (current, bridges);
      version := version + 1;
    }

    method SetPhase(phase: HostedNode.Phase)
      requires Valid()
      modifies this
      ensures Valid() && current == old(current).(phase := phase)
      ensures bridges == old(bridges) && version == old(version) + 1
    {
      Update(current.(phase := phase), bridges);
    }

    method SetConnectionCount(count: int)
      requires Valid()
      modifies this
      ensures Valid() && current == old(current).(connectionCount := count)
      ensures bridges == old(bridges) && version == old(version) + 1
    {
      Update(current.(connectionCount := count), bridges);
    }

    method SetError(category: int)
      requires Valid()
      modifies this
      ensures Valid() && current == old(current).(lastError := Some(category))
      ensures bridges == old(bridges) && version == old(version) + 1
    {
      Update(current.(lastError := Some(category)), bridges);
    }

    method RotateUri(createdAt: int, nextRotationAt: Option<int>)
      requires Valid() && current.uriGeneration >= 0
      modifies this
      ensures Valid() && current == HostedNode.RotateUri(old(current), createdAt, nextRotationAt)
      ensures bridges == old(bridges) && version == old(version) + 1
    {
      var generation := if current.uriGeneration < U64_MAX then current.uriGeneration + 1 else U64_MAX;
      Update(current.(uriGeneration := generation, createdAt := createdAt, nextRotationAt := nextRotationAt), bridges);
    }

    method BridgeStarted()
      requires Valid()
      modifies this
      ensures Valid() && current == old(current) && bridges == Counted(old(bridges), true)
      ensures version == old(version) + 1
    {
      Update(current, if bridges < COUNT_MAX then bridges + 1 else COUNT_MAX);
    }

    method BridgeEnded()
      requires Valid()
      modifies this
      ensures Valid() && current == old(current) && bridges == Counted(old(bridges), false)
      ensures version == old(version) + 1
    {
      Update(current, if bridges > 0 then bridges - 1 else 0);
    }
  }

  /** A bridge starts or ends, saturating either way. */
  function Counted(bridges: int, started: bool): int {
    if started then Min(bridges + 1, COUNT_MAX) else Max(bridges - 1, 0)
  }

  function CountAll(history: seq<bool>): int {
    if history == [] then 0 else Counted(CountAll(history[..|history| - 1]), Last(history))
  }

  /** How many bridges are open. */
  function Open(history: seq<bool>): int {
    if history == [] then 0 else Open(history[..|history| - 1]) + if Last(history) then 1 else -1
  }

  /** The count is the number of open bridges as long as every end follows its start
      and fewer than 2^64 are open at once. */
  lemma {:induction false} BridgesAreCounted(history: seq<bool>)
    requires forall n :: 0 <= n <= |history| ==> 0 <= Open(history[..n]) <= COUNT_MAX
    ensures CountAll(history) == Open(history)
  {
    assert history[..|history|] == history;
    if history != [] {
      var before := history[..|history| - 1];
      forall n | 0 <= n <= |before| ensures 0 <= Open(before[..n]) <= COUNT_MAX {
        assert before[..n] == history[..n];
      }
      BridgesAreCounted(before);
    }
  }

  // ----- HostedService and the node's map

  class HostedService {
    const serviceId: ServiceId
    const sessionGeneration: int
    const status: HostedStatus
    var token: Token
    var resets: int

    constructor (serviceId: ServiceId, sessionGeneration: int, state: TokenState, nextRotationAt: Option<int>)
      ensures this.serviceId == serviceId && this.sessionGeneration == sessionGeneration
      ensures token == state.token && resets == 0 && fresh(status) && status.Valid()
      ensures status.current == HostedNode.Status(HostedNode.Active, 1, state.createdAt, nextRotationAt, 0, None)
    {
      this.serviceId, this.sessionGeneration := serviceId, sessionGeneration;
      token, resets := state.token, 0;
      status := new HostedStatus(state.createdAt, nextRotationAt);
    }
  }

  class Node {
    var services: map<ServiceId, HostedService>
    var sessionNext: int

    /** Every service is filed under its own id and has a status of its own. */
    ghost predicate Valid()
      reads this, services.Values, set id | id in services :: services[id].status
    {
      && (forall id <- services :: services[id].serviceId == id && services[id].status.Valid()
                                   && services[id].status.current.uriGeneration >= 0)
      && (forall i, j :: i in services && j in services && i != j ==> services[i].status != services[j].status)
    }

    constructor ()
      ensures Valid() && services == map[] && sessionNext == 1
    {
      services, sessionNext := map[], 1;
    }

    /** A generation nobody else gets, or none when all are used up. */
    method NextSessionGeneration() returns (generation: Option<int>)
      modifies this`sessionNext
      ensures old(sessionNext) == U64_MAX ==> generation.None? && sessionNext == old(sessionNext)
      ensures old(sessionNext) != U64_MAX ==> generation == Some(old(sessionNext)) && sessionNext == old(sessionNext) + 1
    {
      if sessionNext == U64_MAX {
        return None;
      }
      generation := Some(sessionNext);
      sessionNext := sessionNext + 1;
    }

    /** The end of `start_service`, under the write lock: a duplicate changes nothing. */
    method Publish(service: HostedService) returns (published: bool)
      requires Valid() && service.status.Valid() && service.status.current.uriGeneration >= 0
      requires forall id <- services :: services[id].status != service.status
      modifies this`services
      ensures Valid()
      ensures published <==> service.serviceId !in old(services)
      ensures services == if published then old(services)[service.serviceId := service] else old(services)
    {
      published := service.serviceId !in services;
      if published {
        services := services[service.serviceId := service];
      }
    }

    method Remove(serviceId: ServiceId) returns (removed: Option<HostedService>)
      requires Valid()
      modifies this`services
      ensures Valid() && services == old(services) - {serviceId}
      ensures removed == if serviceId in old(services) then Some(old(services)[serviceId]) else None
    {
      if serviceId in services {
        removed := Some(services[serviceId]);
      } else {
        removed := None;
      }
      services := services - {serviceId};
    }

    /** The commit of a rotation, under the read lock: it happens only if the map still
        holds this very service, and touches no other. */
    method Commit(service: HostedService, state: TokenState, nextRotationAt: Option<int>, resetTimer: bool)
      returns (committed: bool)
      requires Valid()
      modifies service, service.status
      ensures Valid() && services == old(services)
      ensures committed <==> service.serviceId in services && services[service.serviceId] == service
      ensures committed ==>
                && service.token == state.token
                && service.status.current == HostedNode.RotateUri(old(service.status.current), state.createdAt, nextRotationAt)
                && service.resets == old(service.resets) + (if resetTimer then 1 else 0)
      ensures !committed ==> unchanged(service) && unchanged(service.status)
      ensures forall id <- services :: services[id] != service ==>
                unchanged(services[id]) && unchanged(services[id].status)
    {
      committed := service.serviceId in services && services[service.serviceId] == service;
      if committed {
        service.token := state.token;
        service.status.RotateUri(state.createdAt, nextRotationAt);
        if resetTimer {
          service.resets := service.resets + 1;
        }
      }
    }
  }
}
