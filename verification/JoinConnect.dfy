/** The first connection of a joiner (core/src/tunnel/iroh/join.rs, `connect_with_retry`).
    What each connection attempt would bring is a parameter. */
module JoinConnect {
  import opened Prelude
  import opened Clocks

  datatype Retries = Retries(count: nat, base: nat, max: nat)

  /** `auth` is the error of the authentication that follows a connection. */
  datatype Attempt = Refused(error: int) | Accepted(auth: Option<int>)

  datatype JoinError = ConnectHostEndpoint(error: int) | Unauthenticated(error: int) | Exhausted(attempts: int)

  predicate RetriesOk(retries: Retries) {
    retries.count <= U32_MAX && retries.base <= DURATION_MAX && retries.max <= DURATION_MAX
  }

  /** The wait before the `attempt`-th retry, with the original's saturations. */
  function Backoff(retries: Retries, attempt: nat): nat
    requires attempt >= 1
  {
    Min(Min(retries.base * SaturatingPow2(attempt - 1), DURATION_MAX), retries.max)
  }

  lemma ScaleMonotone(base: nat, a: nat, b: nat)
    requires a <= b
    ensures base * a <= base * b
  {
  }

  /** Backoffs never shrink and never exceed the maximum. */
  lemma BackoffsGrow(retries: Retries, attempt: nat)
    requires attempt >= 1
    ensures Backoff(retries, attempt) <= Backoff(retries, attempt + 1) <= retries.max
  {
    Pow2Monotone(attempt - 1, attempt);
    ScaleMonotone(retries.base, SaturatingPow2(attempt - 1), SaturatingPow2(attempt));
  }

  lemma Pow2Of32()
    ensures Pow2(31) == 0x8000_0000 && Pow2(32) == U32_MAX + 1
  {
    assert Pow2(8) == 256;
    assert Pow2(16) == 0x1_0000;
    assert Pow2(24) == 0x100_0000;
  }

  /** The wait doubles from the base up to the maximum, exactly for the first 32 retries
      and after that exactly if the saturated power already reaches the maximum. */
  lemma BackoffDoubles(retries: Retries, attempt: nat)
    requires RetriesOk(retries) && attempt >= 1
    ensures Backoff(retries, attempt) == Min(retries.base * Pow2(attempt - 1), retries.max)
            <==> attempt <= 32 || retries.base == 0 || retries.base * U32_MAX >= retries.max
  {
    Pow2Of32();
    if attempt <= 32 {
      Pow2Monotone(attempt - 1, 31);
    } else {
      Pow2Monotone(32, attempt - 1);
      ScaleMonotone(retries.base, U32_MAX + 1, Pow2(attempt - 1));
    }
  }

  /** An input for which it does not double: the 33rd retry from a base of one
      nanosecond waits 2^32 - 1 and not 2^32. */
  lemma BackoffStopsDoubling(retries: Retries)
    requires retries.base == 1 && retries.max == U32_MAX + 1
    ensures Backoff(retries, 33) == U32_MAX && Min(retries.base * Pow2(32), retries.max) == U32_MAX + 1
  {
    Pow2Of32();
  }

  predicate AllRefused(results: seq<Attempt>) {
    forall i :: 0 <= i < |results| ==> results[i].Refused?
  }

  /** At most `count + 1` connects. The first connection that is made decides, at once;
      when none is made the last error is returned. */
  method ConnectWithRetry(retries: Retries, results: seq<Attempt>)
    returns (r: Result<int, JoinError>, connects: int, waits: seq<nat>)
    requires |results| == retries.count + 1
    ensures 1 <= connects <= retries.count + 1 && AllRefused(results[..connects - 1])
    ensures match results[connects - 1]
            case Refused(error) => connects == retries.count + 1 && r == Err(ConnectHostEndpoint(error))
            case Accepted(None) => r == Ok(connects - 1)
            case Accepted(Some(error)) => r == Err(Unauthenticated(error))
    ensures r.Err? ==> !r.error.Exhausted?
    ensures |waits| == connects - 1 && forall k :: 0 <= k < |waits| ==> waits[k] == Backoff(retries, k + 1)
  {
    var lastError: Option<int> := None;
    connects, waits := 0, [];
    for attempt := 0 to retries.count + 1
      invariant connects == attempt && AllRefused(results[..attempt])
      invariant attempt > 0 ==> lastError == Some(results[attempt - 1].error)
      invariant |waits| == Max(attempt - 1, 0)
      invariant forall k :: 0 <= k < |waits| ==> waits[k] == Backoff(retries, k + 1)
    {
      if attempt > 0 {
        var wait := Min(Min(retries.base * SaturatingPow2(attempt - 1), DURATION_MAX), retries.max);
        waits := waits + [wait];
      }
      connects := connects + 1;
      match results[attempt]
      case Accepted(auth) =>
        if auth.Some? {
          return Err(Unauthenticated(auth.value)), connects, waits;
        }
        return Ok(attempt), connects, waits;
      case Refused(error) => lastError := Some(error);
    }
    if lastError.Some? {
      r := Err(ConnectHostEndpoint(lastError.value));
    } else {
      r := Err(Exhausted(connects));
    }
  }
}
