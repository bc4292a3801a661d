/** Which token a service is published with (core/src/tunnel/iroh/node.rs,
    `resolve_token_state` and `rotation_deadline`). */
module TokenResolution {
  import opened Prelude
  import opened Bytes
  import opened Clocks
  import opened HostState

  datatype Policy = Always | Never | After(period: nat)

  datatype Resolved = Resolved(
    state: TokenState, refresh: Option<nat>, deadline: Option<int>, deadlineInstant: Option<int>)

  /** The one failure, `InvalidRefreshPeriod`, is `None`. */
  function RotationDeadline(limits: Limits, now: int, period: Option<nat>): Option<Option<int>> {
    if period.None? then Some(None)
    else
      var deadline := CheckedAdd(now, period.value, limits.wallMax);
      if deadline.None? then None else Some(deadline)
  }

  /** `drawn` is the token a generation step would draw; no call draws two. */
  function Resolve(limits: Limits, policy: Policy, saved: Option<TokenState>, now: Reading, drawn: Token): Option<Resolved> {
    var generated := TokenState(drawn, now.wall);
    match policy
    case Always => Some(Resolved(generated, None, None, None))
    case Never => Some(Resolved(if saved.Some? then saved.value else generated, None, None, None))
    case After(period) =>
      if period == 0 then None
      else
        var candidate := if saved.Some? && saved.value.createdAt <= now.wall then saved.value else generated;
        var deadline := CheckedAdd(candidate.createdAt, period, limits.wallMax);
        if deadline.None? then None
        else if deadline.value <= now.wall then
          var renewed := CheckedAdd(now.wall, period, limits.wallMax);
          if renewed.None? then None else Armed(limits, generated, period, renewed.value, now)
        else Armed(limits, candidate, period, deadline.value, now)
  }

  function Armed(limits: Limits, state: TokenState, period: nat, deadline: int, now: Reading): Option<Resolved> {
    if deadline < now.wall then None
    else
      var deadlineInstant := CheckedAdd(now.instant, deadline - now.wall, limits.instantMax);
      if deadlineInstant.None? then None
      else Some(Resolved(state, Some(period), Some(deadline), deadlineInstant))
  }

  /** Created in the past and not yet a period old. */
  predicate Reusable(state: TokenState, period: nat, now: int) {
    state.createdAt <= now < state.createdAt + period
  }

  /** Under `After(p)` a saved token is reused exactly when it is neither expired
      nor from the future, otherwise a new one created now is published; the token
      published is never older than the period, and the monotonic deadline leaves
      the same time as the wall one. */
  lemma ResolvedTokenIsCurrent(limits: Limits, period: nat, saved: Option<TokenState>, now: Reading, drawn: Token)
    requires Resolve(limits, After(period), saved, now, drawn).Some?
    ensures var r := Resolve(limits, After(period), saved, now, drawn).value;
            && Reusable(r.state, period, now.wall)
            && (saved.Some? && Reusable(saved.value, period, now.wall) ==> r.state == saved.value)
            && (saved.None? || !Reusable(saved.value, period, now.wall) ==> r.state == TokenState(drawn, now.wall))
            && r.refresh == Some(period)
            && r.deadline == Some(r.state.createdAt + period)
            && r.deadlineInstant.Some? && r.deadline.value - now.wall == r.deadlineInstant.value - now.instant > 0
  {
  }

  /** Publishing under `After(p)` is refused exactly for a zero period or when the
      deadline of the token to publish does not fit one of the clocks. */
  lemma RefusedExactly(limits: Limits, period: nat, saved: Option<TokenState>, now: Reading, drawn: Token)
    requires now.wall <= limits.wallMax
    ensures var state := if saved.Some? && Reusable(saved.value, period, now.wall) then saved.value
                         else TokenState(drawn, now.wall);
            Resolve(limits, After(period), saved, now, drawn).Some? <==>
              && period > 0
              && state.createdAt + period <= limits.wallMax
              && now.instant + (state.createdAt + period - now.wall) <= limits.instantMax
  {
  }

  /** The timer a publication starts with agrees with the policy on both clocks:
      with clocks that advance together it is due exactly when the token expires. */
  lemma ExpiryIsTheDeadline(
      limits: Limits, period: nat, saved: Option<TokenState>, now: Reading, drawn: Token, later: nat)
    requires Resolve(limits, After(period), saved, now, drawn).Some?
    ensures var r := Resolve(limits, After(period), saved, now, drawn).value;
            var wall, instant := now.wall + later, now.instant + later;
            (wall >= r.deadline.value || instant >= r.deadlineInstant.value) <==> !Reusable(r.state, period, wall)
  {
    ResolvedTokenIsCurrent(limits, period, saved, now, drawn);
  }

  /** Under `Always` a token is drawn whatever was saved; under `Never` only if nothing
      was. Neither is ever refused or has a deadline. */
  lemma PoliciesWithoutRefresh(limits: Limits, saved: Option<TokenState>, now: Reading, drawn: Token)
    ensures var r := Resolve(limits, Always, saved, now, drawn);
            r.Some? && r.value.state == TokenState(drawn, now.wall)
            && r.value.refresh.None? && r.value.deadline.None? && r.value.deadlineInstant.None?
    ensures var r := Resolve(limits, Never, saved, now, drawn);
            && r.Some? && r.value.refresh.None? && r.value.deadline.None? && r.value.deadlineInstant.None?
            && (saved.Some? ==> r.value.state == saved.value)
            && (saved.None? ==> r.value.state == TokenState(drawn, now.wall))
  {
  }
}
