/** The joining side's reconnect supervisor (core/src/tunnel/iroh/join.rs). What the
    network, the timers and the user do is a sequence of inputs, each the branch of the
    current wait that completes; the result is the sequence of events it tries to emit. */
module JoinReconnect {
  import opened Prelude
  import opened Bytes

  const CLOSE_AUTH_FAILED := 1
  const CLOSE_SERVER_FULL := 2

  /** "auth failed" */
  const AUTH_FAILED_REASON: seq<Byte> := [97, 117, 116, 104, 32, 102, 97, 105, 108, 101, 100]

  datatype Close = ApplicationClosed(code: int, reason: seq<Byte>) | OtherClose(kind: int)

  datatype AuthError = RejectedByHost | OtherAuthError

  datatype Attempt = ConnectFails | AuthFails(error: AuthError, closed: Option<Close>) | Authenticated

  datatype Outcome = Connected | Retry | Rejected

  datatype Category = AuthorizationDenied | HostUnreachable | Internal

  datatype Event =
    | Disconnected(reason: Close)
    | Reconnecting(attempt: int)
    | Reconnected
    | Failed(category: Category)

  datatype Input =
    | Closed(reason: Option<Close>)
    | Shutdown
    | TimedOut
    | Finished(attempt: Attempt)
    | Tick
    | Registered(ok: bool)

  /** `timeout` bounds a whole reconnection; zero switches reconnecting off. */
  datatype Config = Config(timeout: Option<nat>)

  predicate IsAuthFailureClose(close: Close) {
    close.ApplicationClosed? && close.code == CLOSE_AUTH_FAILED && close.reason == AUTH_FAILED_REASON
  }

  predicate IsPermanentRejection(close: Close) {
    match close
    case ApplicationClosed(code, _) => IsAuthFailureClose(close) || code == CLOSE_SERVER_FULL
    case OtherClose(_) => false
  }

  function OutcomeOf(attempt: Attempt): Outcome {
    match attempt
    case ConnectFails => Retry
    case AuthFails(error, closed) =>
      if error.RejectedByHost? || (closed.Some? && IsPermanentRejection(closed.value)) then Rejected else Retry
    case Authenticated => Connected
  }

  predicate IsPermanent(reason: Option<Close>) {
    reason.Some? && IsPermanentRejection(reason.value)
  }

  // ----- as a state machine

  datatype Phase = Waiting | Connecting(attempt: int) | Pausing(attempt: int) | Registering | Stopped

  datatype State = State(phase: Phase, events: seq<Event>)

  function Emit(s: State, phase: Phase, event: Event): State {
    State(phase, s.events + [event])
  }

  function Lost(config: Config, s: State, reason: Option<Close>): State {
    var told := if reason.Some? then s.events + [Disconnected(reason.value)] else s.events;
    if IsPermanent(reason) || config.timeout == Some(0) then State(Stopped, told)
    else State(Connecting(1), told + [Reconnecting(1)])
  }

  /** `advance_reconnect_progress` on an unsigned 32-bit counter. */
  function Advanced(attempt: int): int {
    if attempt < U32_MAX then attempt + 1 else attempt
  }

  function Step(config: Config, s: State, input: Input): State {
    match s.phase
    case Waiting =>
      (match input
       case Closed(reason) => Lost(config, s, reason)
       case Shutdown => State(Stopped, s.events)
       case _ => s)
    case Connecting(attempt) =>
      (match input
       case Shutdown => State(Stopped, s.events)
       case TimedOut => if config.timeout.Some? then Emit(s, Stopped, Failed(HostUnreachable)) else s
       case Finished(result) =>
         (match OutcomeOf(result)
          case Connected => State(Registering, s.events)
          case Retry => State(Pausing(attempt), s.events)
          case Rejected => Emit(s, Stopped, Failed(AuthorizationDenied)))
       case Tick => Emit(s, Connecting(Advanced(attempt)), Reconnecting(Advanced(attempt)))
       case _ => s)
    case Pausing(attempt) =>
      (match input
       case Shutdown => State(Stopped, s.events)
       case TimedOut => if config.timeout.Some? then Emit(s, Stopped, Failed(HostUnreachable)) else s
       case Tick => Emit(s, Connecting(Advanced(attempt)), Reconnecting(Advanced(attempt)))
       case _ => s)
    case Registering =>
      (match input
       case Registered(ok) =>
         if ok then Emit(s, Waiting, Reconnected) else Emit(s, Stopped, Failed(Internal))
       case _ => s)
    case Stopped => s
  }

  function Run(config: Config, s: State, inputs: seq<Input>): State
    decreases |inputs|
  {
    if inputs == [] then s else Run(config, Step(config, s, inputs[0]), inputs[1..])
  }

  const START := State(Waiting, [])

  function Trace(config: Config, inputs: seq<Input>): seq<Event> {
    Run(config, START, inputs).events
  }

  // ----- as the loops of the original

  lemma TakeInput(config: Config, s: State, inputs: seq<Input>, i: int)
    requires 0 <= i < |inputs|
    ensures Run(config, s, inputs[i..]) == Run(config, Step(config, s, inputs[i]), inputs[i + 1..])
  {
    assert inputs[i..][1..] == inputs[i + 1..];
  }

  lemma {:induction false} StoppedStays(config: Config, s: State, inputs: seq<Input>)
    requires s.phase.Stopped?
    ensures Run(config, s, inputs) == s
    decreases |inputs|
  {
    if inputs != [] {
      StoppedStays(config, s, inputs[1..]);
    }
  }

  /** The loop that tries to reconnect, from its first event on; a wait that no branch
      of its own completes goes on waiting, and when the inputs end the result is what
      has been emitted so far. */
  method Reconnect(config: Config, inputs: seq<Input>, start: int, told: seq<Event>)
    returns (connected: bool, events: seq<Event>, i: int)
    requires 0 <= start <= |inputs|
    ensures start <= i <= |inputs|
    ensures connected ==>
              Run(config, State(Connecting(1), told), inputs[start..]) == Run(config, State(Registering, events), inputs[i..])
    ensures !connected ==> Run(config, State(Connecting(1), told), inputs[start..]).events == events
  {
    ghost var goal := Run(config, State(Connecting(1), told), inputs[start..]);
    var attempt := 1;
    connected, events, i := false, told, start;
    while true
      invariant start <= i <= |inputs|
      invariant goal == Run(config, State(Connecting(attempt), events), inputs[i..])
      decreases |inputs| - i
    {
      var retry := false;
      ghost var outer := i;
      while !retry
        invariant outer <= i <= |inputs| && (retry ==> outer < i)
        invariant goal == Run(config, State(if retry then Pausing(attempt) else Connecting(attempt), events), inputs[i..])
        decreases |inputs| - i, !retry
      {
        if i == |inputs| {
          return;
        }
        TakeInput(config, State(Connecting(attempt), events), inputs, i);
        var input := inputs[i];
        i := i + 1;
        match input
        case Shutdown =>
          StoppedStays(config, State(Stopped, events), inputs[i..]);
          return;
        case TimedOut =>
          if config.timeout.Some? {
            events := events + [Failed(HostUnreachable)];
            StoppedStays(config, State(Stopped, events), inputs[i..]);
            return;
          }
        case Finished(result) =>
          match OutcomeOf(result) {
            case Connected =>
              connected := true;
              return;
            case Rejected =>
              events := events + [Failed(AuthorizationDenied)];
              StoppedStays(config, State(Stopped, events), inputs[i..]);
              return;
            case Retry => retry := true;
          }
        case Tick =>
          attempt := Advanced(attempt);
          events := events + [Reconnecting(attempt)];
        case _ =>
      }
      var resumed := false;
      while !resumed
        invariant outer < i <= |inputs|
        invariant goal == Run(config, State(if resumed then Connecting(attempt) else Pausing(attempt), events), inputs[i..])
        decreases |inputs| - i, !resumed
      {
        if i == |inputs| {
          return;
        }
        TakeInput(config, State(Pausing(attempt), events), inputs, i);
        var input := inputs[i];
        i := i + 1;
        match input
        case Shutdown =>
          StoppedStays(config, State(Stopped, events), inputs[i..]);
          return;
        case TimedOut =>
          if config.timeout.Some? {
            events := events + [Failed(HostUnreachable)];
            StoppedStays(config, State(Stopped, events), inputs[i..]);
            return;
          }
        case Tick =>
          attempt := Advanced(attempt);
          events := events + [Reconnecting(attempt)];
          resumed := true;
        case _ =>
      }
    }
  }

  /** Waits until the connection closes or the tunnel shuts down. */
  method AwaitClose(config: Config, inputs: seq<Input>, start: int, events: seq<Event>) returns (i: int)
    requires 0 <= start <= |inputs|
    ensures start <= i <= |inputs| && (i < |inputs| ==> inputs[i].Closed? || inputs[i].Shutdown?)
    ensures Run(config, State(Waiting, events), inputs[start..]) == Run(config, State(Waiting, events), inputs[i..])
  {
    i := start;
    while i < |inputs| && !inputs[i].Closed? && !inputs[i].Shutdown?
      invariant start <= i <= |inputs|
      invariant Run(config, State(Waiting, events), inputs[start..]) == Run(config, State(Waiting, events), inputs[i..])
    {
      TakeInput(config, State(Waiting, events), inputs, i);
      i := i + 1;
    }
  }

  /** Waits until the new connection is filed with the others. */
  method AwaitRegistration(config: Config, inputs: seq<Input>, start: int, events: seq<Event>) returns (i: int)
    requires 0 <= start <= |inputs|
    ensures start <= i <= |inputs| && (i < |inputs| ==> inputs[i].Registered?)
    ensures Run(config, State(Registering, events), inputs[start..]) == Run(config, State(Registering, events), inputs[i..])
  {
    i := start;
    while i < |inputs| && !inputs[i].Registered?
      invariant start <= i <= |inputs|
      invariant Run(config, State(Registering, events), inputs[start..])
                == Run(config, State(Registering, events), inputs[i..])
    {
      TakeInput(config, State(Registering, events), inputs, i);
      i := i + 1;
    }
  }

  /** The supervisor: wait for the connection to close, reconnect, register, repeat. */
  method Supervise(config: Config, inputs: seq<Input>) returns (events: seq<Event>)
    ensures events == Trace(config, inputs)
  {
    events := [];
    var i := 0;
    assert inputs[0..] == inputs;
    ghost var goal := Run(config, START, inputs);
    while true
      invariant 0 <= i <= |inputs|
      invariant goal == Run(config, State(Waiting, events), inputs[i..])
      decreases |inputs| - i
    {
      i := AwaitClose(config, inputs, i, events);
      if i == |inputs| {
        return;
      }
      TakeInput(config, State(Waiting, events), inputs, i);
      if inputs[i].Shutdown? {
        StoppedStays(config, State(Stopped, events), inputs[i + 1..]);
        return;
      }
      var reason := inputs[i].reason;
      i := i + 1;
      if reason.Some? {
        events := events + [Disconnected(reason.value)];
      }
      if IsPermanent(reason) || config.timeout == Some(0) {
        StoppedStays(config, State(Stopped, events), inputs[i..]);
        return;
      }
      var connected;
      connected, events, i := Reconnect(config, inputs, i, events + [Reconnecting(1)]);
      if !connected {
        return;
      }
      i := AwaitRegistration(config, inputs, i, events);
      if i == |inputs| {
        return;
      }
      TakeInput(config, State(Registering, events), inputs, i);
      i := i + 1;
      if !inputs[i - 1].ok {
        events := events + [Failed(Internal)];
        StoppedStays(config, State(Stopped, events), inputs[i..]);
        return;
      }
      events := events + [Reconnected];
    }
  }

  // ----- the language of events

  datatype Episode = Episode(reason: Option<Close>, attempts: int)

  /** What follows the completed reconnections. */
  datatype Tail =
    | Quiet
    | GaveUp(reason: Option<Close>)
    | Trying(episode: Episode)
    | Ended(episode: Episode, category: Category)

  datatype Story = Story(episodes: seq<Episode>, tail: Tail)

  /** Reconnecting(1), ..., Reconnecting(attempts) on a saturating counter. */
  function Progress(attempts: int): seq<Event> {
    if attempts <= 0 then [] else Progress(attempts - 1) + [Reconnecting(Min(attempts, U32_MAX))]
  }

  function Opening(reason: Option<Close>): seq<Event> {
    if reason.Some? then [Disconnected(reason.value)] else []
  }

  function EpisodeEvents(e: Episode): seq<Event> {
    Opening(e.reason) + Progress(e.attempts)
  }

  function Completed(episodes: seq<Episode>): seq<Event> {
    if episodes == [] then []
    else Completed(episodes[..|episodes| - 1]) + (EpisodeEvents(Last(episodes)) + [Reconnected])
  }

  function TailEvents(tail: Tail): seq<Event> {
    match tail
    case Quiet => []
    case GaveUp(reason) => Opening(reason)
    case Trying(e) => EpisodeEvents(e)
    case Ended(e, category) => EpisodeEvents(e) + [Failed(category)]
  }

  function Told(story: Story): seq<Event> {
    Completed(story.episodes) + TailEvents(story.tail)
  }

  /** Reconnecting is possible, and was tried at least once. */
  predicate EpisodeOk(config: Config, e: Episode) {
    e.attempts >= 1 && !IsPermanent(e.reason) && config.timeout != Some(0)
  }

  predicate TailOk(config: Config, tail: Tail) {
    match tail
    case Quiet => true
    case GaveUp(reason) => IsPermanent(reason) || config.timeout == Some(0)
    case Trying(e) => EpisodeOk(config, e)
    case Ended(e, category) => EpisodeOk(config, e) && (category.HostUnreachable? ==> config.timeout.Some?)
  }

  predicate StoryOk(config: Config, story: Story) {
    (forall k :: 0 <= k < |story.episodes| ==> EpisodeOk(config, story.episodes[k])) && TailOk(config, story.tail)
  }

  /** The phase a story has come to. */
  predicate At(phase: Phase, tail: Tail) {
    match phase
    case Waiting => tail.Quiet?
    case Connecting(attempt) => tail.Trying? && attempt == Min(tail.episode.attempts, U32_MAX)
    case Pausing(attempt) => tail.Trying? && attempt == Min(tail.episode.attempts, U32_MAX)
    case Registering => tail.Trying?
    case Stopped => true
  }

  predicate Tells(config: Config, s: State, story: Story) {
    StoryOk(config, story) && At(s.phase, story.tail) && s.events == Told(story)
  }

  lemma LoseTells(config: Config, s: State, story: Story, reason: Option<Close>) returns (after: Story)
    requires Tells(config, s, story) && s.phase.Waiting?
    ensures Tells(config, Lost(config, s, reason), after)
  {
    if IsPermanent(reason) || config.timeout == Some(0) {
      after := story.(tail := GaveUp(reason));
    } else {
      after := story.(tail := Trying(Episode(reason, 1)));
      assert Progress(1) == Progress(0) + [Reconnecting(1)];
      assert Told(after) == s.events + Opening(reason) + [Reconnecting(1)];
    }
  }

  lemma TickTells(config: Config, s: State, story: Story) returns (after: Story)
    requires Tells(config, s, story) && (s.phase.Connecting? || s.phase.Pausing?)
    ensures Tells(config, Step(config, s, Tick), after)
  {
    var e := story.tail.episode;
    after := story.(tail := Trying(Episode(e.reason, e.attempts + 1)));
    var next := [Reconnecting(Min(e.attempts + 1, U32_MAX))];
    assert Progress(e.attempts + 1) == Progress(e.attempts) + next;
    assert Told(after) == Told(story) + next;
  }

  lemma FailTells(config: Config, s: State, story: Story, category: Category) returns (after: Story)
    requires Tells(config, s, story) && story.tail.Trying?
    requires category.HostUnreachable? ==> config.timeout.Some?
    ensures Tells(config, Emit(s, Stopped, Failed(category)), after)
  {
    after := story.(tail := Ended(story.tail.episode, category));
    assert Told(after) == Told(story) + [Failed(category)];
  }

  lemma ReconnectTells(config: Config, s: State, story: Story) returns (after: Story)
    requires Tells(config, s, story) && story.tail.Trying?
    ensures Tells(config, Emit(s, Waiting, Reconnected), after)
  {
    after := Story(story.episodes + [story.tail.episode], Quiet);
    assert after.episodes[..|after.episodes| - 1] == story.episodes;
    assert Told(after) == Told(story) + [Reconnected];
  }

  lemma StepTells(config: Config, s: State, story: Story, input: Input) returns (after: Story)
    requires Tells(config, s, story)
    ensures Tells(config, Step(config, s, input), after)
  {
    after := story;
    if s.phase.Waiting? {
      if input.Closed? { after := LoseTells(config, s, story, input.reason); }
    } else if s.phase.Connecting? || s.phase.Pausing? {
      if input.Tick? {
        after := TickTells(config, s, story);
      } else if input.TimedOut? && config.timeout.Some? {
        after := FailTells(config, s, story, HostUnreachable);
      } else if s.phase.Connecting? && input.Finished? && OutcomeOf(input.attempt).Rejected? {
        after := FailTells(config, s, story, AuthorizationDenied);
      }
    } else if s.phase.Registering? && input.Registered? {
      if input.ok {
        after := ReconnectTells(config, s, story);
      } else {
        after := FailTells(config, s, story, Internal);
      }
    }
  }

  lemma {:induction false} RunTells(config: Config, s: State, story: Story, inputs: seq<Input>) returns (after: Story)
    requires Tells(config, s, story)
    ensures Tells(config, Run(config, s, inputs), after)
    decreases |inputs|
  {
    if inputs == [] {
      after := story;
    } else {
      var next := StepTells(config, s, story, inputs[0]);
      after := RunTells(config, Step(config, s, inputs[0]), next, inputs[1..]);
    }
  }

  // ----- what each event means

  /** The closes after which reconnecting is pointless: a full server (code 2), and a
      refused authentication (code 1 with the reason "auth failed"). */
  lemma PermanentExactly(close: Close)
    ensures IsPermanentRejection(close) <==>
              close.ApplicationClosed?
              && (close.code == 2
                  || (close.code == 1 && close.reason == [97, 117, 116, 104, 32, 102, 97, 105, 108, 101, 100]))
  {
  }

  /** A refusal by the host is final, and so is any failure of the authentication on a
      connection closed for good; all other failures are tried again. */
  lemma AttemptsExactly(attempt: Attempt)
    ensures OutcomeOf(attempt).Connected? <==> attempt.Authenticated?
    ensures OutcomeOf(attempt).Rejected? <==>
              attempt.AuthFails?
              && (attempt.error.RejectedByHost? || (attempt.closed.Some? && IsPermanentRejection(attempt.closed.value)))
  {
  }

  /** What the next input makes the supervisor emit, by what it waits for. */
  function NewEvents(config: Config, phase: Phase, input: Input): seq<Event> {
    match input
    case Closed(reason) =>
      if !phase.Waiting? then []
      else (if reason.Some? then [Disconnected(reason.value)] else [])
           + (if IsPermanent(reason) || config.timeout == Some(0) then [] else [Reconnecting(1)])
    case Shutdown => []
    case TimedOut =>
      if (phase.Connecting? || phase.Pausing?) && config.timeout.Some? then [Failed(HostUnreachable)] else []
    case Finished(attempt) =>
      if phase.Connecting? && attempt.AuthFails?
         && (attempt.error.RejectedByHost? || (attempt.closed.Some? && IsPermanentRejection(attempt.closed.value)))
      then [Failed(AuthorizationDenied)] else []
    case Tick =>
      if phase.Connecting? || phase.Pausing? then [Reconnecting(Min(phase.attempt + 1, U32_MAX))] else []
    case Registered(ok) =>
      if !phase.Registering? then [] else if ok then [Reconnected] else [Failed(Internal)]
  }

  predicate AttemptInRange(phase: Phase) {
    phase.Connecting? || phase.Pausing? ==> 1 <= phase.attempt <= U32_MAX
  }

  lemma {:induction false} AttemptsStayInRange(config: Config, s: State, inputs: seq<Input>)
    requires AttemptInRange(s.phase)
    ensures AttemptInRange(Run(config, s, inputs).phase)
    decreases |inputs|
  {
    if inputs != [] {
      AttemptsStayInRange(config, Step(config, s, inputs[0]), inputs[1..]);
    }
  }

  /** Every event has its one cause: the trace grows by exactly the events of the input. */
  lemma EventsHaveCauses(config: Config, inputs: seq<Input>, input: Input)
    ensures Trace(config, inputs + [input])
            == Trace(config, inputs) + NewEvents(config, Run(config, START, inputs).phase, input)
  {
    RunOne(config, START, inputs, input);
    AttemptsStayInRange(config, START, inputs);
  }

  /** The last input the supervisor was waiting for is an authenticated connection. */
  ghost predicate JustAuthenticated(inputs: seq<Input>) {
    exists j :: 0 <= j < |inputs| && inputs[j] == Finished(Authenticated)
                && forall k :: j < k < |inputs| ==> !inputs[k].Registered?
  }

  lemma RegisteringFollows(config: Config, s: State, input: Input)
    ensures Step(config, s, input).phase.Registering? <==>
              || (s.phase.Connecting? && input == Finished(Authenticated))
              || (s.phase.Registering? && !input.Registered?)
  {
  }

  /** A registration is awaited only after an authenticated connection, so Reconnected is
      emitted only for one that was then registered. */
  lemma {:induction false} ReconnectedIsEarned(config: Config, inputs: seq<Input>)
    ensures Run(config, START, inputs).phase.Registering? ==> JustAuthenticated(inputs)
    decreases |inputs|
  {
    if inputs != [] {
      var before, last := inputs[..|inputs| - 1], Last(inputs);
      ReconnectedIsEarned(config, before);
      RunOne(config, START, before, last);
      assert before + [last] == inputs;
      RegisteringFollows(config, Run(config, START, before), last);
      if Run(config, START, inputs).phase.Registering? {
        if last == Finished(Authenticated) && Run(config, START, before).phase.Connecting? {
          assert inputs[|inputs| - 1] == Finished(Authenticated);
        } else {
          var j :| 0 <= j < |before| && before[j] == Finished(Authenticated)
                   && forall k :: j < k < |before| ==> !before[k].Registered?;
          assert inputs[j] == Finished(Authenticated);
          forall k | j < k < |inputs| ensures !inputs[k].Registered? {
            assert k < |before| ==> inputs[k] == before[k];
          }
        }
      }
    }
  }

  // ----- every story can be told

  lemma {:induction false} RunAppend(config: Config, s: State, a: seq<Input>, b: seq<Input>)
    ensures Run(config, s, a + b) == Run(config, Run(config, s, a), b)
    decreases |a|
  {
    if a == [] {
      assert a + b == b;
    } else {
      assert (a + b)[0] == a[0] && (a + b)[1..] == a[1..] + b;
      RunAppend(config, Step(config, s, a[0]), a[1..], b);
    }
  }

  lemma RunOne(config: Config, s: State, a: seq<Input>, input: Input)
    ensures Run(config, s, a + [input]) == Step(config, Run(config, s, a), input)
  {
    RunAppend(config, s, a, [input]);
    assert Run(config, Step(config, Run(config, s, a), input), []) == Step(config, Run(config, s, a), input);
    assert [input][1..] == [];
  }

  lemma {:induction false} EpisodeIsPossible(config: Config, e: Episode, inputs: seq<Input>, told: seq<Event>)
    returns (longer: seq<Input>)
    requires EpisodeOk(config, e) && Run(config, START, inputs) == State(Waiting, told)
    ensures Run(config, START, longer) == State(Connecting(Min(e.attempts, U32_MAX)), told + EpisodeEvents(e))
    decreases e.attempts
  {
    if e.attempts == 1 {
      longer := inputs + [Closed(e.reason)];
      RunOne(config, START, inputs, Closed(e.reason));
      assert Progress(1) == Progress(0) + [Reconnecting(1)];
      assert told + EpisodeEvents(e) == told + Opening(e.reason) + [Reconnecting(1)];
    } else {
      var shorter := Episode(e.reason, e.attempts - 1);
      var before := EpisodeIsPossible(config, shorter, inputs, told);
      longer := before + [Tick];
      RunOne(config, START, before, Tick);
      assert told + EpisodeEvents(e) == told + EpisodeEvents(shorter) + [Reconnecting(Min(e.attempts, U32_MAX))];
    }
  }

  lemma {:induction false} EpisodesArePossible(config: Config, episodes: seq<Episode>) returns (inputs: seq<Input>)
    requires forall k :: 0 <= k < |episodes| ==> EpisodeOk(config, episodes[k])
    ensures Run(config, START, inputs) == State(Waiting, Completed(episodes))
    decreases |episodes|
  {
    if episodes == [] {
      inputs := [];
    } else {
      var front := episodes[..|episodes| - 1];
      var before := EpisodesArePossible(config, front);
      var trying := EpisodeIsPossible(config, Last(episodes), before, Completed(front));
      RunOne(config, START, trying, Finished(Authenticated));
      RunOne(config, START, trying + [Finished(Authenticated)], Registered(true));
      inputs := trying + [Finished(Authenticated)] + [Registered(true)];
      assert Completed(episodes)
          == Completed(front) + EpisodeEvents(Last(episodes)) + [Reconnected];
    }
  }

  lemma EndIsPossible(config: Config, category: Category, inputs: seq<Input>, attempt: int, told: seq<Event>)
    returns (longer: seq<Input>)
    requires Run(config, START, inputs) == State(Connecting(attempt), told)
    requires category.HostUnreachable? ==> config.timeout.Some?
    ensures Run(config, START, longer).events == told + [Failed(category)]
  {
    match category
    case AuthorizationDenied =>
      var refused := Finished(AuthFails(RejectedByHost, None));
      longer := inputs + [refused];
      RunOne(config, START, inputs, refused);
    case HostUnreachable =>
      longer := inputs + [TimedOut];
      RunOne(config, START, inputs, TimedOut);
    case Internal =>
      RunOne(config, START, inputs, Finished(Authenticated));
      RunOne(config, START, inputs + [Finished(Authenticated)], Registered(false));
      longer := inputs + [Finished(Authenticated)] + [Registered(false)];
  }

  lemma StoryIsPossible(config: Config, story: Story) returns (inputs: seq<Input>)
    requires StoryOk(config, story)
    ensures Trace(config, inputs) == Told(story)
  {
    var before := EpisodesArePossible(config, story.episodes);
    var told := Completed(story.episodes);
    match story.tail
    case Quiet =>
      inputs := before;
      assert Told(story) == told;
    case GaveUp(reason) =>
      inputs := before + [Closed(reason)];
      RunOne(config, START, before, Closed(reason));
    case Trying(e) => inputs := EpisodeIsPossible(config, e, before, told);
    case Ended(e, category) =>
      var trying := EpisodeIsPossible(config, e, before, told);
      inputs := EndIsPossible(config, category, trying, Min(e.attempts, U32_MAX), told + EpisodeEvents(e));
      assert told + EpisodeEvents(e) + [Failed(category)] == Told(story);
  }

  /** The traces of the supervisor are exactly the stories: completed reconnections,
      each an optional Disconnected, Reconnecting counted up from 1 and Reconnected,
      then nothing, a rejection, an attempt under way or one final error; after a
      permanent rejection or with a zero timeout there is no Reconnecting. */
  lemma TracesAreStories(config: Config, events: seq<Event>)
    ensures (exists inputs :: Trace(config, inputs) == events)
            <==> (exists story :: StoryOk(config, story) && Told(story) == events)
  {
    if inputs :| Trace(config, inputs) == events {
      var story := RunTells(config, START, Story([], Quiet), inputs);
      assert StoryOk(config, story) && Told(story) == events;
    }
    if story :| StoryOk(config, story) && Told(story) == events {
      var inputs := StoryIsPossible(config, story);
      assert Trace(config, inputs) == events;
    }
  }
}
