/** The automatic rotation timer (core/src/tunnel/iroh/node.rs, `RotationSchedule`
    and `rotation_loop`). */
module RotationSchedule {
  import opened Prelude
  import opened Clocks

  const CLOCK_CHECK_MAX: nat := 60 * SECOND
  const RETRY_MIN: nat := SECOND
  const RETRY_MAX: nat := 60 * SECOND

  datatype Schedule = Schedule(period: nat, deadline: int, deadlineInstant: int, failures: nat)

  function RetryDelay(failures: nat): nat {
    var exponent := Min(SaturatingSince(failures, 1), 31);
    Min(Min(RETRY_MIN * SaturatingPow2(exponent), DURATION_MAX), RETRY_MAX)
  }

  function Delay(s: Schedule, r: Reading): nat {
    if s.failures > 0 then RetryDelay(s.failures)
    else Min(Min(SaturatingSince(s.deadline, r.wall), SaturatingSince(s.deadlineInstant, r.instant)), CLOCK_CHECK_MAX)
  }

  predicate ShouldRotate(s: Schedule, r: Reading) {
    s.failures > 0 || r.wall >= s.deadline || r.instant >= s.deadlineInstant
  }

  /** Fails, leaving the schedule as it was, when a deadline is not representable. */
  function Reset(limits: Limits, s: Schedule, r: Reading): Option<Schedule> {
    var deadline := CheckedAdd(r.wall, s.period, limits.wallMax);
    var deadlineInstant := CheckedAdd(r.instant, s.period, limits.instantMax);
    if deadline.None? || deadlineInstant.None? then None
    else Some(Schedule(s.period, deadline.value, deadlineInstant.value, 0))
  }

  function RecordFailure(s: Schedule): Schedule {
    s.(failures := SaturatingAdd(s.failures, 1, U32_MAX))
  }

  // ----- the timer object

  class RotationTimer {
    const period: nat
    var deadline: int
    var deadlineInstant: int
    var failures: nat

    function View(): Schedule
      reads this
    {
      Schedule(period, deadline, deadlineInstant, failures)
    }

    constructor (period: nat, deadline: int, deadlineInstant: int)
      ensures View() == Schedule(period, deadline, deadlineInstant, 0)
    {
      this.period := period;
      this.deadline := deadline;
      this.deadlineInstant := deadlineInstant;
      this.failures := 0;
    }

    method NextDelay(r: Reading) returns (delay: nat)
      ensures delay == Delay(View(), r)
    {
      if failures > 0 {
        return RetryDelay(failures);
      }
      delay := SaturatingSince(deadline, r.wall);
      var monotonic := SaturatingSince(deadlineInstant, r.instant);
      if monotonic < delay {
        delay := monotonic;
      }
      if CLOCK_CHECK_MAX < delay {
        delay := CLOCK_CHECK_MAX;
      }
    }

    method Restart(limits: Limits, r: Reading) returns (ok: bool)
      modifies this
      ensures ok <==> Reset(limits, old(View()), r).Some?
      ensures View() == if ok then Reset(limits, old(View()), r).value else old(View())
    {
      var next := CheckedAdd(r.wall, period, limits.wallMax);
      if next.None? {
        return false;
      }
      var nextInstant := CheckedAdd(r.instant, period, limits.instantMax);
      if nextInstant.None? {
        return false;
      }
      deadline := next.value;
      deadlineInstant := nextInstant.value;
      failures := 0;
      ok := true;
    }

    method Failed()
      modifies this
      ensures View() == RecordFailure(old(View()))
    {
      if failures < U32_MAX {
        failures := failures + 1;
      } else {
        failures := U32_MAX;
      }
    }
  }

  // ----- the retry delay

  /** Clamping the exponent at 31 and saturating the power and the product change
      nothing: the k-th consecutive failure waits 2^(k-1) seconds, at most 60. */
  lemma RetryDelayIsExponential(failures: nat)
    requires failures >= 1
    ensures RetryDelay(failures) == Min(60 * SECOND, Pow2(failures - 1) * SECOND)
    ensures failures >= 7 ==> RetryDelay(failures) == 60 * SECOND
    ensures RetryDelay(failures) <= RetryDelay(failures + 1)
  {
    assert Pow2(6) == 64;
    assert Pow2(12) == 4096;
    assert Pow2(18) == 0x4_0000;
    assert Pow2(24) == 0x100_0000;
    assert Pow2(31) == 0x8000_0000;
    Pow2Monotone(Min(failures - 1, 31), 31);
    Pow2Monotone(Min(failures, 31), 31);
    Pow2Monotone(Min(31, failures - 1), failures - 1);
    Pow2Monotone(failures - 1, failures);
    Pow2Monotone(Min(failures - 1, 31), Min(failures, 31));
    if failures >= 7 {
      Pow2Monotone(6, failures - 1);
      Pow2Monotone(6, Min(failures - 1, 31));
    }
  }

  // ----- one reading

  /** Whatever the wall clock shows, a sleep lasts at most a minute and, unless it
      is a retry, ends no later than the monotonic deadline; it has length zero
      exactly when rotation is due at that reading. */
  lemma DelayIsSafe(s: Schedule, r: Reading)
    ensures Delay(s, r) <= 60 * SECOND
    ensures s.failures == 0 ==> r.instant + Delay(s, r) <= Max(r.instant, s.deadlineInstant)
    ensures s.failures == 0 ==> (Delay(s, r) == 0 <==> ShouldRotate(s, r))
    ensures s.failures > 0 ==> SECOND <= Delay(s, r)
  {
    if s.failures > 0 {
      RetryDelayIsExponential(s.failures);
      Pow2Monotone(0, s.failures - 1);
    }
  }

  function Remaining(s: Schedule, r: Reading): nat {
    Min(SaturatingSince(s.deadline, r.wall), SaturatingSince(s.deadlineInstant, r.instant))
  }

  // ----- the loop

  datatype Outcome = Rotated | ServiceNotFound | RotationInProgress | OtherError | NodeDropped

  /** What ends one sleep: the timer, with the reading then checked, the result of
      the rotation and the reading taken after it; or the manual-reset channel. */
  datatype Wake =
    | Slept(check: Reading, outcome: Outcome, after: Reading)
    | ManualReset(at: Reading)
    | ChannelClosed

  datatype Iteration = Iteration(before: Reading, wake: Wake)

  /** `readings`, `rotations`, `sleeps` and `warnings` record what the loop did;
      `anchor` is the index of the reading the schedule was last reset from. */
  datatype Loop = Loop(
    schedule: Schedule, running: bool, readings: seq<Reading>, anchor: Option<nat>,
    rotations: nat, sleeps: seq<nat>, warnings: seq<nat>)

  function Started(s: Schedule): Loop {
    Loop(s, true, [], None, 0, [], [])
  }

  function ResetLoop(limits: Limits, l: Loop, at: Reading): Loop {
    var next := Reset(limits, l.schedule, at);
    var read := l.(readings := l.readings + [at]);
    if next.None? then read.(running := false)
    else read.(schedule := next.value, anchor := Some(|l.readings|))
  }

  function Attempt(limits: Limits, l: Loop, outcome: Outcome, after: Reading): Loop {
    match outcome
    case Rotated => ResetLoop(limits, l.(rotations := l.rotations + 1), after)
    case ServiceNotFound => l.(running := false)
    case NodeDropped => l.(running := false)
    case RotationInProgress => l.(schedule := RecordFailure(l.schedule))
    case OtherError =>
      var failed := RecordFailure(l.schedule);
      l.(schedule := failed, warnings := l.warnings + [RetryDelay(failed.failures)])
  }

  function Sleep(l: Loop, before: Reading): Loop {
    l.(readings := l.readings + [before], sleeps := l.sleeps + [Delay(l.schedule, before)])
  }

  function Check(l: Loop, check: Reading): Loop {
    l.(readings := l.readings + [check])
  }

  function Iterate(limits: Limits, l: Loop, it: Iteration): Loop {
    if !l.running then l
    else
      var slept := Sleep(l, it.before);
      match it.wake
      case ChannelClosed => slept.(running := false)
      case ManualReset(at) => ResetLoop(limits, slept, at)
      case Slept(check, outcome, after) =>
        var checked := Check(slept, check);
        if ShouldRotate(l.schedule, check) then Attempt(limits, checked, outcome, after) else checked
  }

  function RunLoop(limits: Limits, l: Loop, its: seq<Iteration>): Loop {
    if its == [] then l else Iterate(limits, RunLoop(limits, l, its[..|its| - 1]), Last(its))
  }

  /** `rotation_loop`, fed the clock readings and results of its environment. */
  method RotationLoop(limits: Limits, period: nat, deadline: int, deadlineInstant: int, its: seq<Iteration>)
    returns (l: Loop)
    ensures l == RunLoop(limits, Started(Schedule(period, deadline, deadlineInstant, 0)), its)
  {
    ghost var start := Started(Schedule(period, deadline, deadlineInstant, 0));
    var timer := new RotationTimer(period, deadline, deadlineInstant);
    var running, readings, sleeps, warnings := true, [], [], [];
    var anchor: Option<nat>, rotations: nat := None, 0;
    assert its[..0] == [];
    for i := 0 to |its|
      invariant Loop(timer.View(), running, readings, anchor, rotations, sleeps, warnings)
                == RunLoop(limits, start, its[..i])
    {
      assert its[..i + 1][..i] == its[..i];
      if running {
        var it := its[i];
        var delay := timer.NextDelay(it.before);
        readings, sleeps := readings + [it.before], sleeps + [delay];
        match it.wake {
          case ChannelClosed => running := false;
          case ManualReset(at) =>
            running := timer.Restart(limits, at);
            anchor := if running then Some(|readings|) else anchor;
            readings := readings + [at];
          case Slept(check, outcome, after) =>
            readings := readings + [check];
            if ShouldRotate(timer.View(), check) {
              match outcome {
                case Rotated =>
                  rotations := rotations + 1;
                  running := timer.Restart(limits, after);
                  anchor := if running then Some(|readings|) else anchor;
                  readings := readings + [after];
                case ServiceNotFound => running := false;
                case NodeDropped => running := false;
                case RotationInProgress => timer.Failed();
                case OtherError =>
                  timer.Failed();
                  warnings := warnings + [RetryDelay(timer.failures)];
              }
            }
        }
      }
    }
    assert its[..|its|] == its;
    l := Loop(timer.View(), running, readings, anchor, rotations, sleeps, warnings);
  }

  // ----- clocks that agree

  /** Both clocks advance by the same time. */
  predicate Together(a: Reading, b: Reading) {
    b.wall - a.wall == b.instant - a.instant >= 0
  }

  /** Every iteration ends by its timer, after at least the requested sleep, and the
      clocks agree from each reading to the next. */
  ghost predicate Steady(s: Schedule, its: seq<Iteration>) {
    && (forall i :: 0 <= i < |its| ==>
          && its[i].wake.Slept? && Together(its[i].before, its[i].wake.check)
          && its[i].wake.check.instant - its[i].before.instant >= Delay(s, its[i].before))
    && (forall i :: 0 < i < |its| && its[i - 1].wake.Slept? ==> Together(its[i - 1].wake.check, its[i].before))
  }

  lemma {:induction false} RemainingShrinks(s: Schedule, its: seq<Iteration>, i: nat)
    requires s.failures == 0 && Steady(s, its) && i < |its|
    ensures Remaining(s, its[i].wake.check)
            <= SaturatingSince(Remaining(s, its[0].before), (i + 1) * CLOCK_CHECK_MAX)
  {
    var before, check := its[i].before, its[i].wake.check;
    assert check.instant - before.instant >= Min(Remaining(s, before), CLOCK_CHECK_MAX);
    if i > 0 {
      RemainingShrinks(s, its, i - 1);
      assert Together(its[i - 1].wake.check, before);
    }
  }

  predicate Due(s: Schedule, it: Iteration) {
    it.wake.Slept? && ShouldRotate(s, it.wake.check)
  }

  /** The first of the iterations below `n` that finds rotation due. */
  lemma {:induction false} FirstDue(s: Schedule, its: seq<Iteration>, n: nat) returns (k: nat)
    requires n < |its| && Due(s, its[n])
    ensures k <= n && Due(s, its[k]) && forall j :: 0 <= j < k ==> !Due(s, its[j])
  {
    if j :| 0 <= j < n && Due(s, its[j]) {
      k := FirstDue(s, its, j);
    } else {
      k := n;
    }
  }

  lemma {:induction false} NothingBeforeDue(limits: Limits, l: Loop, its: seq<Iteration>, k: nat)
    requires l.running && k <= |its|
    requires forall j :: 0 <= j < k ==> its[j].wake.Slept? && !Due(l.schedule, its[j])
    ensures var r := RunLoop(limits, l, its[..k]);
            r.running && r.schedule == l.schedule && r.rotations == l.rotations && r.warnings == l.warnings
  {
    if k > 0 {
      NothingBeforeDue(limits, l, its, k - 1);
      assert its[..k][..k - 1] == its[..k - 1];
    }
  }

  /** With clocks that agree, the loop attempts a rotation at the end of at most
      ceil(remaining / 60 s) sleeps (one sleep of length zero when nothing remains),
      and until then nothing but the record of its sleeps has changed. */
  lemma SteadyClocksReachRotation(limits: Limits, l: Loop, its: seq<Iteration>) returns (k: nat)
    requires l.running && l.schedule.failures == 0 && its != [] && Steady(l.schedule, its)
    requires |its| >= Max(1, (Remaining(l.schedule, its[0].before) + CLOCK_CHECK_MAX - 1) / CLOCK_CHECK_MAX)
    ensures k < Max(1, (Remaining(l.schedule, its[0].before) + CLOCK_CHECK_MAX - 1) / CLOCK_CHECK_MAX)
    ensures Due(l.schedule, its[k]) && forall j :: 0 <= j < k ==> !Due(l.schedule, its[j])
    ensures var r := RunLoop(limits, l, its[..k]);
            && r.running && r.schedule == l.schedule && r.rotations == l.rotations
            && RunLoop(limits, l, its[..k + 1])
               == Attempt(limits, Check(Sleep(r, its[k].before), its[k].wake.check), its[k].wake.outcome, its[k].wake.after)
  {
    var s := l.schedule;
    var remaining := Remaining(s, its[0].before);
    var sleeps := Max(1, (remaining + CLOCK_CHECK_MAX - 1) / CLOCK_CHECK_MAX);
    assert sleeps * CLOCK_CHECK_MAX >= remaining;
    RemainingShrinks(s, its, sleeps - 1);
    k := FirstDue(s, its, sleeps - 1);
    NothingBeforeDue(limits, l, its, k);
    assert its[..k + 1][..k] == its[..k] && Last(its[..k + 1]) == its[k];
  }

  // ----- what one wake does

  /** Both deadlines a period after the reading can be represented. */
  predicate CanReset(limits: Limits, period: nat, r: Reading) {
    r.wall + period <= limits.wallMax && r.instant + period <= limits.instantMax
  }

  /** The schedule right after a reset at this reading. */
  function ResetAt(period: nat, r: Reading): Schedule {
    Schedule(period, r.wall + period, r.instant + period, 0)
  }

  /** The reading a wake resets the timer at: that of a manual reset, or the one taken
      after an automatic rotation. */
  function ResetsAt(s: Schedule, wake: Wake): Option<Reading> {
    match wake
    case ManualReset(at) => Some(at)
    case Slept(check, outcome, after) =>
      if outcome.Rotated? && (s.failures > 0 || check.wall >= s.deadline || check.instant >= s.deadlineInstant)
      then Some(after) else None
    case ChannelClosed => None
  }

  /** A wake that finds rotation due and the attempt failing. */
  predicate FailsWith(s: Schedule, wake: Wake, outcome: Outcome) {
    && wake.Slept? && wake.outcome == outcome
    && (s.failures > 0 || wake.check.wall >= s.deadline || wake.check.instant >= s.deadlineInstant)
  }

  lemma LastIteration(limits: Limits, l: Loop, its: seq<Iteration>, it: Iteration)
    ensures RunLoop(limits, l, its + [it]) == Iterate(limits, RunLoop(limits, l, its), it)
  {
    assert (its + [it])[..|its + [it]| - 1] == its;
  }

  /** A manual reset, or a rotation, starts a full period on both clocks from its reading
      and forgets all failures; only if a deadline cannot be represented does the loop
      end instead. */
  lemma ResetsStartAPeriod(limits: Limits, start: Loop, its: seq<Iteration>, it: Iteration)
    requires RunLoop(limits, start, its).running
    requires ResetsAt(RunLoop(limits, start, its).schedule, it.wake).Some?
    ensures var l, r := RunLoop(limits, start, its), RunLoop(limits, start, its + [it]);
            var at := ResetsAt(l.schedule, it.wake).value;
            && r.rotations == l.rotations + (if it.wake.Slept? then 1 else 0)
            && (r.running <==> CanReset(limits, l.schedule.period, at))
            && r.schedule == if r.running then ResetAt(l.schedule.period, at) else l.schedule
  {
    LastIteration(limits, start, its, it);
  }

  /** An attempt that meets a rotation in progress, or any error but a missing service,
      leaves the loop running with one more failure and the same deadlines; only the
      error is reported, with the delay until the retry. */
  lemma FailuresAreRetried(limits: Limits, start: Loop, its: seq<Iteration>, it: Iteration)
    requires RunLoop(limits, start, its).running
    requires var s := RunLoop(limits, start, its).schedule;
             FailsWith(s, it.wake, RotationInProgress) || FailsWith(s, it.wake, OtherError)
    ensures var l, r := RunLoop(limits, start, its), RunLoop(limits, start, its + [it]);
            && r.running && r.rotations == l.rotations
            && r.schedule == l.schedule.(failures := Min(l.schedule.failures + 1, U32_MAX))
            && r.warnings == l.warnings + if it.wake.outcome.OtherError? then [RetryDelay(r.schedule.failures)] else []
  {
    LastIteration(limits, start, its, it);
  }

  /** A wake before both deadlines, with no failure pending, attempts nothing. */
  lemma EarlyWakesDoNothing(limits: Limits, start: Loop, its: seq<Iteration>, it: Iteration)
    requires RunLoop(limits, start, its).running && it.wake.Slept?
    requires var s := RunLoop(limits, start, its).schedule;
             s.failures == 0 && it.wake.check.wall < s.deadline && it.wake.check.instant < s.deadlineInstant
    ensures var l, r := RunLoop(limits, start, its), RunLoop(limits, start, its + [it]);
            r.running && r.schedule == l.schedule && r.rotations == l.rotations && r.warnings == l.warnings
  {
    LastIteration(limits, start, its, it);
  }

  /** The loop ends exactly when its channel closes, when an attempt finds no service or no
      node, or when a reset cannot be represented. */
  lemma LoopsEndExactly(limits: Limits, start: Loop, its: seq<Iteration>, it: Iteration)
    requires RunLoop(limits, start, its).running
    ensures var l := RunLoop(limits, start, its);
            !RunLoop(limits, start, its + [it]).running <==>
              || it.wake.ChannelClosed?
              || FailsWith(l.schedule, it.wake, ServiceNotFound) || FailsWith(l.schedule, it.wake, NodeDropped)
              || (ResetsAt(l.schedule, it.wake).Some?
                  && !CanReset(limits, l.schedule.period, ResetsAt(l.schedule, it.wake).value))
  {
    LastIteration(limits, start, its, it);
  }

  /** Every iteration of a running loop sleeps as long as its schedule says. */
  lemma SleepsFollowTheSchedule(limits: Limits, start: Loop, its: seq<Iteration>, it: Iteration)
    requires RunLoop(limits, start, its).running
    ensures var l := RunLoop(limits, start, its);
            RunLoop(limits, start, its + [it]).sleeps == l.sleeps + [Delay(l.schedule, it.before)]
  {
    LastIteration(limits, start, its, it);
  }

  /** After a manual reset or a rotation read at `at`, no rotation is attempted as long as
      every check is less than a period after it on both clocks: the next one is a full
      period away. */
  lemma {:induction false} AFullPeriodFollows(
    limits: Limits, start: Loop, its: seq<Iteration>, it: Iteration, more: seq<Iteration>)
    requires RunLoop(limits, start, its).running
    requires ResetsAt(RunLoop(limits, start, its).schedule, it.wake).Some?
    requires var period := RunLoop(limits, start, its).schedule.period;
             var at := ResetsAt(RunLoop(limits, start, its).schedule, it.wake).value;
             && CanReset(limits, period, at)
             && forall i :: 0 <= i < |more| ==>
                  && more[i].wake.Slept?
                  && more[i].wake.check.wall < at.wall + period && more[i].wake.check.instant < at.instant + period
    ensures var l := RunLoop(limits, start, its);
            var reset, r := RunLoop(limits, start, its + [it]), RunLoop(limits, start, its + [it] + more);
            && r.running && r.rotations == reset.rotations && r.warnings == reset.warnings
            && r.schedule == ResetAt(l.schedule.period, ResetsAt(l.schedule, it.wake).value)
    decreases |more|
  {
    ResetsStartAPeriod(limits, start, its, it);
    if more == [] {
      assert its + [it] + more == its + [it];
    } else {
      var before := more[..|more| - 1];
      AFullPeriodFollows(limits, start, its, it, before);
      EarlyWakesDoNothing(limits, start, its + [it] + before, Last(more));
      assert its + [it] + more == its + [it] + before + [Last(more)];
    }
  }

  // ----- no catch-up bursts

  /** A measure of the readings that grows between any two of them by at least the
      rise of either clock. */
  ghost predicate Paces(readings: seq<Reading>, measure: seq<int>) {
    && |measure| == |readings|
    && forall i, j :: 0 <= i <= j < |readings| ==>
         && measure[j] >= measure[i]
         && measure[j] - measure[i] >= readings[j].wall - readings[i].wall
         && measure[j] - measure[i] >= readings[j].instant - readings[i].instant
  }

  /** `measure` paces the readings of the whole run; `l` has taken the first of them. */
  ghost predicate Paced(l: Loop, readings: seq<Reading>, measure: seq<int>) {
    && l.readings <= readings && Paces(readings, measure)
    && (l.rotations >= 1 ==>
          && l.readings != []
          && (l.rotations - 1) * l.schedule.period <= measure[|l.readings| - 1] - measure[0])
    && (l.rotations >= 1 && l.running ==>
          && l.anchor.Some? && l.anchor.value < |l.readings|
          && var i := l.anchor.value;
             && l.schedule.deadline == readings[i].wall + l.schedule.period
             && l.schedule.deadlineInstant == readings[i].instant + l.schedule.period
             && (l.rotations - 1) * l.schedule.period <= measure[i] - measure[0]
             && (l.schedule.failures > 0 ==> measure[|l.readings| - 1] - measure[i] >= l.schedule.period))
  }

  lemma ReadKeepsPaced(l: Loop, r: Reading, readings: seq<Reading>, measure: seq<int>)
    requires Paced(l, readings, measure) && l.readings + [r] <= readings
    ensures Paced(l.(readings := l.readings + [r]), readings, measure)
  {
  }

  lemma ResetKeepsPaced(limits: Limits, l: Loop, at: Reading, readings: seq<Reading>, measure: seq<int>)
    requires Paced(l, readings, measure) && l.readings + [at] <= readings
    ensures Paced(ResetLoop(limits, l, at), readings, measure)
  {
    ReadKeepsPaced(l, at, readings, measure);
  }

  /** A due reading is at least a period, by the measure, after the last reset. */
  lemma RotationKeepsPaced(limits: Limits, l: Loop, after: Reading, readings: seq<Reading>, measure: seq<int>)
    requires Paced(l, readings, measure) && l.running
    requires l.readings != [] && ShouldRotate(l.schedule, Last(l.readings))
    requires l.readings + [after] <= readings
    ensures Paced(ResetLoop(limits, l.(rotations := l.rotations + 1), after), readings, measure)
  {
    var counted := l.(rotations := l.rotations + 1);
    var last := |l.readings| - 1;
    assert readings[last] == Last(l.readings) && readings[last + 1] == after;
    if l.rotations >= 1 {
      var i := l.anchor.value;
      assert measure[last] - measure[i] >= l.schedule.period;
      assert l.rotations * l.schedule.period == (l.rotations - 1) * l.schedule.period + l.schedule.period;
    }
    assert l.rotations * l.schedule.period <= measure[last] - measure[0];
    assert measure[last + 1] >= measure[last];
  }

  lemma FailureKeepsPaced(limits: Limits, l: Loop, outcome: Outcome, after: Reading, readings: seq<Reading>, measure: seq<int>)
    requires Paced(l, readings, measure) && l.running && !outcome.Rotated?
    requires l.readings != [] && ShouldRotate(l.schedule, Last(l.readings))
    ensures Paced(Attempt(limits, l, outcome, after), readings, measure)
  {
    assert readings[|l.readings| - 1] == Last(l.readings);
  }

  /** What follows a due check: a rotation or a failure. */
  lemma AttemptKeepsPaced(limits: Limits, l: Loop, outcome: Outcome, after: Reading, readings: seq<Reading>, measure: seq<int>)
    requires Paced(l, readings, measure) && l.running
    requires l.readings != [] && ShouldRotate(l.schedule, Last(l.readings))
    requires Attempt(limits, l, outcome, after).readings <= readings
    ensures Paced(Attempt(limits, l, outcome, after), readings, measure)
  {
    if outcome.Rotated? {
      RotationKeepsPaced(limits, l, after, readings, measure);
    } else {
      FailureKeepsPaced(limits, l, outcome, after, readings, measure);
    }
  }

  lemma AttemptOnlyReads(limits: Limits, l: Loop, outcome: Outcome, after: Reading)
    ensures l.readings <= Attempt(limits, l, outcome, after).readings
    ensures Attempt(limits, l, outcome, after).schedule.period == l.schedule.period
  {
  }

  lemma SleepKeepsPaced(l: Loop, r: Reading, readings: seq<Reading>, measure: seq<int>)
    requires Paced(l, readings, measure) && l.readings + [r] <= readings
    ensures Paced(Sleep(l, r), readings, measure) && Paced(Check(l, r), readings, measure)
  {
    ReadKeepsPaced(l, r, readings, measure);
  }

  lemma WakeKeepsPaced(
      limits: Limits, slept: Loop, check: Reading, outcome: Outcome, after: Reading,
      readings: seq<Reading>, measure: seq<int>)
    requires Paced(slept, readings, measure) && slept.running && ShouldRotate(slept.schedule, check)
    requires Attempt(limits, Check(slept, check), outcome, after).readings <= readings
    ensures Paced(Attempt(limits, Check(slept, check), outcome, after), readings, measure)
  {
    var checked := Check(slept, check);
    AttemptOnlyReads(limits, checked, outcome, after);
    assert checked.readings <= readings;
    SleepKeepsPaced(slept, check, readings, measure);
    AttemptKeepsPaced(limits, checked, outcome, after, readings, measure);
  }

  lemma IterateKeepsPaced(limits: Limits, l: Loop, it: Iteration, readings: seq<Reading>, measure: seq<int>)
    requires Paced(l, readings, measure) && Iterate(limits, l, it).readings <= readings
    ensures Paced(Iterate(limits, l, it), readings, measure)
  {
    if l.running {
      IterateOnlyReads(limits, l, it);
      var slept := Sleep(l, it.before);
      SleepKeepsPaced(l, it.before, readings, measure);
      match it.wake {
        case ChannelClosed =>
        case ManualReset(at) => ResetKeepsPaced(limits, slept, at, readings, measure);
        case Slept(check, outcome, after) =>
          if ShouldRotate(l.schedule, check) {
            WakeKeepsPaced(limits, slept, check, outcome, after, readings, measure);
          } else {
            SleepKeepsPaced(slept, check, readings, measure);
          }
      }
    }
  }

  lemma IterateOnlyReads(limits: Limits, l: Loop, it: Iteration)
    ensures l.readings <= Iterate(limits, l, it).readings
    ensures l.running ==> Sleep(l, it.before).readings <= Iterate(limits, l, it).readings
    ensures Iterate(limits, l, it).schedule.period == l.schedule.period
  {
    if l.running && it.wake.Slept? {
      AttemptOnlyReads(limits, Check(Sleep(l, it.before), it.wake.check), it.wake.outcome, it.wake.after);
    }
  }

  lemma {:induction false} RunIsPaced(
      limits: Limits, s: Schedule, its: seq<Iteration>, readings: seq<Reading>, measure: seq<int>)
    requires RunLoop(limits, Started(s), its).readings <= readings && Paces(readings, measure)
    ensures Paced(RunLoop(limits, Started(s), its), readings, measure)
    ensures RunLoop(limits, Started(s), its).schedule.period == s.period
  {
    if its != [] {
      var before := RunLoop(limits, Started(s), its[..|its| - 1]);
      IterateOnlyReads(limits, before, Last(its));
      RunIsPaced(limits, s, its[..|its| - 1], readings, measure);
      IterateKeepsPaced(limits, before, Last(its), readings, measure);
    }
  }

  /** n rotations take n - 1 periods of any measure that paces the readings. */
  lemma RotationsArePaced(limits: Limits, s: Schedule, its: seq<Iteration>, measure: seq<int>)
    requires Paces(RunLoop(limits, Started(s), its).readings, measure)
    ensures var l := RunLoop(limits, Started(s), its);
            l.rotations >= 1 ==>
              && l.readings != []
              && (l.rotations - 1) * s.period <= measure[|l.readings| - 1] - measure[0]
  {
    RunIsPaced(limits, s, its, RunLoop(limits, Started(s), its).readings, measure);
  }

  ghost predicate Monotonic(readings: seq<Reading>) {
    forall i :: 0 < i < |readings| ==> readings[i - 1].instant <= readings[i].instant
  }

  /** Total upward movement of the wall clock up to the reading with index `i`. */
  function Upward(readings: seq<Reading>, i: nat): nat
    requires i < |readings|
  {
    if i == 0 then 0 else Upward(readings, i - 1) + SaturatingSince(readings[i].wall, readings[i - 1].wall)
  }

  lemma {:induction false} ElapsedPlusUpwardPaces(readings: seq<Reading>, i: nat, j: nat)
    requires Monotonic(readings) && i <= j < |readings|
    ensures readings[i].instant <= readings[j].instant && Upward(readings, i) <= Upward(readings, j)
    ensures readings[j].wall - readings[i].wall <= Upward(readings, j) - Upward(readings, i)
    decreases j
  {
    if i < j {
      ElapsedPlusUpwardPaces(readings, i, j - 1);
    }
  }

  /** However the wall clock jumps, and with any retries and manual resets in
      between, n automatic rotations need (n - 1) periods of monotonic time plus
      upward wall movement: no burst makes up for missed rotations. */
  lemma NoCatchUpBursts(limits: Limits, s: Schedule, its: seq<Iteration>)
    requires Monotonic(RunLoop(limits, Started(s), its).readings)
    ensures var l := RunLoop(limits, Started(s), its);
            l.rotations >= 1 ==>
              && l.readings != []
              && (l.rotations - 1) * s.period
                 <= Last(l.readings).instant - l.readings[0].instant + Upward(l.readings, |l.readings| - 1)
  {
    var readings := RunLoop(limits, Started(s), its).readings;
    var measure := seq(|readings|, (i: int) requires 0 <= i < |readings| => readings[i].instant + Upward(readings, i));
    forall i, j | 0 <= i <= j < |readings|
      ensures measure[j] >= measure[i]
      ensures measure[j] - measure[i] >= readings[j].wall - readings[i].wall
      ensures measure[j] - measure[i] >= readings[j].instant - readings[i].instant
    {
      ElapsedPlusUpwardPaces(readings, i, j);
    }
    RotationsArePaced(limits, s, its, measure);
  }

  /** When the wall clock never runs ahead of the instant, monotonic time alone
      pays for the rotations. */
  lemma NoEarlyRotation(limits: Limits, s: Schedule, its: seq<Iteration>)
    requires Monotonic(RunLoop(limits, Started(s), its).readings)
    requires var rs := RunLoop(limits, Started(s), its).readings;
             forall i, j :: 0 <= i <= j < |rs| ==> rs[j].wall - rs[i].wall <= rs[j].instant - rs[i].instant
    ensures var l := RunLoop(limits, Started(s), its);
            l.rotations >= 1 ==>
              l.readings != [] && (l.rotations - 1) * s.period <= Last(l.readings).instant - l.readings[0].instant
  {
    var readings := RunLoop(limits, Started(s), its).readings;
    var measure := seq(|readings|, (i: int) requires 0 <= i < |readings| => readings[i].instant);
    forall i, j | 0 <= i <= j < |readings| ensures measure[j] >= measure[i] {
      ElapsedPlusUpwardPaces(readings, i, j);
    }
    RotationsArePaced(limits, s, its, measure);
  }
}
