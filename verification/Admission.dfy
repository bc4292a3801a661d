/** From a share URI to admission: the joiner parses the text and sends the control
    request (core/src/tunnel/iroh/auth.rs), the node looks the service up and
    compares the token (core/src/tunnel/iroh/node.rs, `route_connection`). */
module Admission {
  import opened Prelude
  import opened Bytes
  import opened Clocks
  import opened HostedNode
  import opened HostedNodeInvariant
  import opened HostedNodeResults
  import ControlRequest
  import JoinUri

  /** The request the node receives from a joiner who was given `text`, if the text
      parses and the bytes decode. */
  function RequestFrom(f: JoinUri.Foreign, text: string): Option<ControlRequest.Request> {
    var parsed := JoinUri.Parse(f, text);
    if parsed.Err? then None
    else ControlRequest.Decode(ControlRequest.Encode(ControlRequest.Request(parsed.value.serviceId, parsed.value.token)))
  }

  /** Sharing, parsing, sending and receiving lose nothing of the id and the token. */
  lemma RequestCarriesTheUri(f: JoinUri.Foreign, uri: JoinUri.JoinUri)
    requires JoinUri.ReadsPrefixLiterally(f) && JoinUri.Expose(uri).Ok?
    requires f.isEndpoint(uri.endpoint) && JoinUri.RelaySurvives(f, uri.relay)
    ensures RequestFrom(f, JoinUri.Expose(uri).value) == Some(ControlRequest.Request(uri.serviceId, uri.token))
  {
    JoinUri.ShareRoundTrip(f, uri);
    var request := ControlRequest.Request(uri.serviceId, uri.token);
    ControlRequest.EncodingIsExact(ControlRequest.Encode(request), request);
  }

  lemma LookUpIsExact(s: State, t: TaskId, request: ControlRequest.Request)
    requires t in s.tasks && s.tasks[t] == RouteRequested(request)
    ensures t in Step(s, Advance(t)).tasks
    ensures request.serviceId in s.services ==>
              Step(s, Advance(t)).tasks[t] == RouteFound(s.services[request.serviceId], request)
    ensures request.serviceId !in s.services ==> Step(s, Advance(t)).tasks[t] == Done(Refused)
  {
  }

  lemma DecisionIsExact(s: State, t: TaskId, p: PubId, request: ControlRequest.Request)
    requires Inv(s) && t in s.tasks && s.tasks[t] == RouteFound(p, request)
    ensures var s' := Step(s, Advance(t));
            && ValidPub(s, p) && s.pubs[p].committed != [] && t in s'.tasks
            && s'.tasks[t] == (if request.token == Last(s.pubs[p].committed).token
                               then Done(Admitted(p, |s.pubs[p].committed|)) else Done(Refused))
  {
    assert TaskOk(t, s.tasks[t], s.pubs, s.services, s.readers);
    assert PubOk(s.pubs[p]);
  }

  /** With the lookup in state `s` and the token read after `between`: task `t` ends
      admitted exactly when the id was published at the lookup and the latest token
      that publication had committed by the read is `token`. */
  ghost predicate AdmitsExactly(s: State, t: TaskId, between: seq<Action>, id: ServiceId, token: Token) {
    var read := Exec(Step(s, Advance(t)), between);
    var end := Step(read, Advance(t));
    && t in end.tasks
    && (end.tasks[t].Done? && end.tasks[t].outcome.Admitted? <==>
          && id in s.services
          && ValidPub(read, s.services[id]) && read.pubs[s.services[id]].committed != []
          && Last(read.pubs[s.services[id]].committed).token == token)
  }

  lemma RefusedStaysRefused(s: State, t: TaskId)
    requires t in s.tasks && s.tasks[t] == Done(Refused)
    ensures Step(s, Advance(t)) == s
  {
  }

  lemma RouteIsExact(s: State, t: TaskId, between: seq<Action>, request: ControlRequest.Request)
    requires Inv(s) && t in s.tasks && s.tasks[t] == RouteRequested(request)
    requires forall a <- between :: a.CountConnections? || a.t != t
    ensures AdmitsExactly(s, t, between, request.serviceId, request.token)
  {
    LookUpIsExact(s, t, request);
    var found := Step(s, Advance(t));
    TaskWaits(found, between, t);
    var read := Exec(found, between);
    if request.serviceId in s.services {
      StepKeepsInv(s, Advance(t));
      ExecFromKeepsInv(found, between);
      DecisionIsExact(read, t, s.services[request.serviceId], request);
    } else {
      RefusedStaysRefused(read, t);
    }
  }

  /** A joiner holding a shared URI is admitted exactly when its service is published
      at the lookup and the publication's token at the read, whatever happened in
      between, is the URI's. */
  lemma AdmittedExactly(
      f: JoinUri.Foreign, uri: JoinUri.JoinUri, limits: Limits, schedule: seq<Action>, between: seq<Action>, t: TaskId)
    requires JoinUri.ReadsPrefixLiterally(f) && JoinUri.Expose(uri).Ok?
    requires f.isEndpoint(uri.endpoint) && JoinUri.RelaySurvives(f, uri.relay)
    requires forall a <- between :: a.CountConnections? || a.t != t
    ensures var s := Exec(Init(limits), schedule);
            var request := RequestFrom(f, JoinUri.Expose(uri).value);
            && request.Some?
            && (t in s.tasks && s.tasks[t] == RouteRequested(request.value) ==>
                  AdmitsExactly(s, t, between, uri.serviceId, uri.token))
  {
    RequestCarriesTheUri(f, uri);
    ExecKeepsInv(limits, schedule);
    var s := Exec(Init(limits), schedule);
    var request := ControlRequest.Request(uri.serviceId, uri.token);
    if t in s.tasks && s.tasks[t] == RouteRequested(request) {
      RouteIsExact(s, t, between, request);
    }
  }

  lemma {:induction false} TaskWaits(s: State, between: seq<Action>, t: TaskId)
    requires t in s.tasks && forall a <- between :: a.CountConnections? || a.t != t
    ensures t in Exec(s, between).tasks && Exec(s, between).tasks[t] == s.tasks[t]
  {
    if between != [] {
      TaskWaits(s, between[..|between| - 1], t);
      assert Last(between) in between;
      OthersUntouched(Exec(s, between[..|between| - 1]), Last(between), t);
    }
  }

  lemma {:induction false} ExecFromKeepsInv(s: State, more: seq<Action>)
    requires Inv(s)
    ensures Inv(Exec(s, more))
  {
    if more != [] {
      ExecFromKeepsInv(s, more[..|more| - 1]);
      StepKeepsInv(Exec(s, more[..|more| - 1]), Last(more));
    }
  }

  /** The generated tokens of a publication never repeat. */
  ghost predicate DistinctTokens(pub: Publication) {
    forall i, j :: 0 <= i < j < |pub.committed| ==> pub.committed[i].token != pub.committed[j].token
  }

  /** With tokens that never repeat, the token of the i-th commit admits at a read
      exactly if it is the last one. */
  lemma OnlyTheLatestUri(s: State, t: TaskId, p: PubId, request: ControlRequest.Request, i: int)
    requires Inv(s) && t in s.tasks && s.tasks[t] == RouteFound(p, request)
    requires ValidPub(s, p) && DistinctTokens(s.pubs[p])
    requires 0 <= i < |s.pubs[p].committed| && request.token == s.pubs[p].committed[i].token
    ensures var s' := Step(s, Advance(t));
            && t in s'.tasks
            && s'.tasks[t] == (if i == |s.pubs[p].committed| - 1
                               then Done(Admitted(p, |s.pubs[p].committed|)) else Done(Refused))
  {
    DecisionIsExact(s, t, p, request);
  }

  /** The publication, token and commit count a caller was given a URI for, by
      `join_uri` or by `rotate_token`. */
  function HandedOut(outcome: Outcome): Option<(PubId, Token, int)> {
    match outcome
    case UriTokenIs(p, token, index) => Some((p, token, index))
    case RotatedTo(p, state, index) => Some((p, state.token, index))
    case _ => None
  }

  /** A URI handed out carries the token of the commit it was given for. */
  lemma HandedOutUrisAreCommitted(limits: Limits, schedule: seq<Action>, u: TaskId)
    requires var s := Exec(Init(limits), schedule);
             u in s.tasks && s.tasks[u].Done? && HandedOut(s.tasks[u].outcome).Some?
    ensures var s := Exec(Init(limits), schedule);
            var (p, token, index) := HandedOut(s.tasks[u].outcome).value;
            ValidPub(s, p) && 1 <= index <= |s.pubs[p].committed| && s.pubs[p].committed[index - 1].token == token
  {
    ExecKeepsInv(limits, schedule);
    var s := Exec(Init(limits), schedule);
    assert TaskOk(u, s.tasks[u], s.pubs, s.services, s.readers);
  }

  /** With tokens that never repeat, a URI with the token of any commit of a publication,
      however it was handed out, admits at a read exactly while no later rotation has
      stored its token: the rotation's token write refuses every superseded URI from
      then on. */
  lemma SupersededUrisAreRefused(limits: Limits, schedule: seq<Action>, t: TaskId, i: int)
    requires var s := Exec(Init(limits), schedule);
             && t in s.tasks && s.tasks[t].RouteFound? && ValidPub(s, s.tasks[t].p)
             && var pub := s.pubs[s.tasks[t].p];
                DistinctTokens(pub) && 0 <= i < |pub.committed| && s.tasks[t].request.token == pub.committed[i].token
    ensures var s := Exec(Init(limits), schedule);
            var s' := Step(s, Advance(t));
            t in s'.tasks && s'.tasks[t].Done?
            && (s'.tasks[t].outcome.Admitted? <==> i == |s.pubs[s.tasks[t].p].committed| - 1)
  {
    ExecKeepsInv(limits, schedule);
    var s := Exec(Init(limits), schedule);
    OnlyTheLatestUri(s, t, s.tasks[t].p, s.tasks[t].request, i);
  }
}
