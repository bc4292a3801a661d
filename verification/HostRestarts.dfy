/** Chains of host launches that share one state file
    (cli/src/main.rs, `run_host_until_shutdown` and `save_host_state`). */
module HostRestarts {
  import opened Prelude
  import opened Bytes
  import opened Clocks
  import opened HostState
  import opened TokenResolution

  /** A save may fail before or after the atomic replacement of the file; either
      failure ends the launch. */
  datatype SaveOutcome = Saved | FailedBefore | FailedAfter

  datatype Rotation = Rotation(token: Token, at: int, save: SaveOutcome)

  datatype Launch = Launch(
    policy: Policy, newUri: bool, now: Reading, freshId: ServiceId, freshToken: Token,
    save: SaveOutcome, rotations: seq<Rotation>)

  /** A token made public at wall time `at`, by a launch or by an automatic rotation. */
  datatype Publication = Publication(policy: Policy, serviceId: ServiceId, state: TokenState, at: int)

  datatype World = World(file: Option<seq<Byte>>, published: seq<Publication>, running: bool)

  function Saving(w: World, serviceId: ServiceId, state: TokenState, save: SaveOutcome): World {
    var bytes := Encode(StoredHost(serviceId, state));
    if bytes.Err? || save.FailedBefore? then w.(running := false)
    else w.(file := Some(bytes.value), running := save.Saved?)
  }

  function Publishing(w: World, p: Publication, save: SaveOutcome): World {
    Saving(w.(published := w.published + [p]), p.serviceId, p.state, save)
  }

  function Rotate(limits: Limits, w: World, policy: Policy, serviceId: ServiceId, r: Rotation): World {
    if !w.running || !policy.After? || RotationDeadline(limits, r.at, Some(policy.period)).None? then w
    else Publishing(w, Publication(policy, serviceId, TokenState(r.token, r.at), r.at), r.save)
  }

  function RotateAll(limits: Limits, w: World, policy: Policy, serviceId: ServiceId, rs: seq<Rotation>): World {
    if rs == [] then w
    else Rotate(limits, RotateAll(limits, w, policy, serviceId, rs[..|rs| - 1]), policy, serviceId, Last(rs))
  }

  function RunLaunch(limits: Limits, w: World, l: Launch): World {
    var loaded := if w.file.None? then None else Some(Decode(limits, w.file.value));
    if loaded.Some? && loaded.value.Err? then w.(running := false)
    else
      var serviceId := if loaded.Some? then loaded.value.value.serviceId else l.freshId;
      var saved := if l.newUri || loaded.None? then None else Some(loaded.value.value.tokenState);
      var resolved := Resolve(limits, l.policy, saved, l.now, l.freshToken);
      if resolved.None? then w.(running := false)
      else
        var p := Publication(l.policy, serviceId, resolved.value.state, l.now.wall);
        RotateAll(limits, Publishing(w.(running := true), p, l.save), l.policy, serviceId, l.rotations)
  }

  function RunLaunches(limits: Limits, w: World, ls: seq<Launch>): World {
    if ls == [] then w else RunLaunch(limits, RunLaunches(limits, w, ls[..|ls| - 1]), Last(ls))
  }

  // ----- a token is never published outside its period

  predicate InPeriod(p: Publication) {
    p.policy.After? ==> Reusable(p.state, p.policy.period, p.at)
  }

  lemma {:induction false} RotationsStayInPeriod(
      limits: Limits, w: World, policy: Policy, serviceId: ServiceId, rs: seq<Rotation>)
    requires forall p <- w.published :: InPeriod(p)
    requires policy.After? ==> policy.period > 0
    ensures forall p <- RotateAll(limits, w, policy, serviceId, rs).published :: InPeriod(p)
  {
    if rs != [] {
      RotationsStayInPeriod(limits, w, policy, serviceId, rs[..|rs| - 1]);
    }
  }

  /** The recorded creation time and the time of publication, whatever the file held. */
  lemma {:induction false} PublicationsAreInPeriod(limits: Limits, file: Option<seq<Byte>>, ls: seq<Launch>)
    ensures forall p <- RunLaunches(limits, World(file, [], false), ls).published :: InPeriod(p)
  {
    if ls != [] {
      PublicationsAreInPeriod(limits, file, ls[..|ls| - 1]);
      var w, l := RunLaunches(limits, World(file, [], false), ls[..|ls| - 1]), Last(ls);
      var loaded := if w.file.None? then None else Some(Decode(limits, w.file.value));
      if loaded.None? || loaded.value.Ok? {
        var serviceId := if loaded.Some? then loaded.value.value.serviceId else l.freshId;
        var saved := if l.newUri || loaded.None? then None else Some(loaded.value.value.tokenState);
        var resolved := Resolve(limits, l.policy, saved, l.now, l.freshToken);
        if resolved.Some? {
          if l.policy.After? {
            ResolvedTokenIsCurrent(limits, l.policy.period, saved, l.now, l.freshToken);
          }
          var p := Publication(l.policy, serviceId, resolved.value.state, l.now.wall);
          assert InPeriod(p);
          RotationsStayInPeriod(limits, Publishing(w.(running := true), p, l.save), l.policy, serviceId, l.rotations);
        }
      }
    }
  }

  // ----- what the file keeps

  /** The file decodes and holds this service id, and so does everything published since. */
  ghost predicate Keeps(limits: Limits, w: World, serviceId: ServiceId) {
    && w.file.Some? && Decode(limits, w.file.value).Ok? && Decode(limits, w.file.value).value.serviceId == serviceId
    && (forall p <- w.published :: p.serviceId == serviceId)
  }

  lemma PublishingKeepsId(limits: Limits, w: World, p: Publication, save: SaveOutcome)
    requires limits.wallMax <= DURATION_MAX && p.state.createdAt <= limits.wallMax
    requires Keeps(limits, w, p.serviceId)
    ensures Keeps(limits, Publishing(w, p, save), p.serviceId)
  {
    SaveThenLoad(limits, StoredHost(p.serviceId, p.state));
  }

  lemma {:induction false} RotationsKeepId(
      limits: Limits, w: World, policy: Policy, serviceId: ServiceId, rs: seq<Rotation>)
    requires limits.wallMax <= DURATION_MAX && Keeps(limits, w, serviceId)
    ensures Keeps(limits, RotateAll(limits, w, policy, serviceId, rs), serviceId)
  {
    if rs != [] {
      RotationsKeepId(limits, w, policy, serviceId, rs[..|rs| - 1]);
      var before, r := RotateAll(limits, w, policy, serviceId, rs[..|rs| - 1]), Last(rs);
      if before.running && policy.After? && RotationDeadline(limits, r.at, Some(policy.period)).Some? {
        PublishingKeepsId(limits, before, Publication(policy, serviceId, TokenState(r.token, r.at), r.at), r.save);
      }
    }
  }

  ghost predicate ClockInRange(limits: Limits, ls: seq<Launch>) {
    forall l <- ls :: l.now.wall <= limits.wallMax
  }

  lemma DecodedTimeInRange(limits: Limits, bytes: seq<Byte>)
    requires Decode(limits, bytes).Ok?
    ensures 0 <= Decode(limits, bytes).value.tokenState.createdAt <= limits.wallMax
  {
  }

  /** Once a state file exists the service id never changes, whatever the policies
      and with or without `--new-uri`: every later publication carries it and every
      later file decodes to it. */
  lemma {:induction false} ServiceIdIsStable(limits: Limits, bytes: seq<Byte>, ls: seq<Launch>)
    requires limits.wallMax <= DURATION_MAX && ClockInRange(limits, ls)
    requires Decode(limits, bytes).Ok?
    ensures Keeps(limits, RunLaunches(limits, World(Some(bytes), [], false), ls),
                  Decode(limits, bytes).value.serviceId)
  {
    if ls != [] {
      ServiceIdIsStable(limits, bytes, ls[..|ls| - 1]);
      var serviceId := Decode(limits, bytes).value.serviceId;
      var w, l := RunLaunches(limits, World(Some(bytes), [], false), ls[..|ls| - 1]), Last(ls);
      assert l in ls;
      DecodedTimeInRange(limits, w.file.value);
      var state := Decode(limits, w.file.value).value;
      var saved := if l.newUri then None else Some(state.tokenState);
      var resolved := Resolve(limits, l.policy, saved, l.now, l.freshToken);
      if resolved.Some? {
        var p := Publication(l.policy, serviceId, resolved.value.state, l.now.wall);
        PublishingKeepsId(limits, w.(running := true), p, l.save);
        RotationsKeepId(limits, Publishing(w.(running := true), p, l.save), l.policy, serviceId, l.rotations);
      }
    }
  }

  lemma {:induction false} WithoutRefreshNoRotation(limits: Limits, w: World, policy: Policy, serviceId: ServiceId, rs: seq<Rotation>)
    requires !policy.After?
    ensures RotateAll(limits, w, policy, serviceId, rs) == w
  {
    if rs != [] {
      WithoutRefreshNoRotation(limits, w, policy, serviceId, rs[..|rs| - 1]);
    }
  }

  /** Under `Never` without `--new-uri` the saved token is published for ever: every
      launch publishes it and leaves the file byte for byte as it was. */
  lemma {:induction false} NeverKeepsTheToken(limits: Limits, bytes: seq<Byte>, ls: seq<Launch>)
    requires limits.wallMax <= DURATION_MAX && Decode(limits, bytes).Ok?
    requires forall l <- ls :: l.policy.Never? && !l.newUri
    ensures var w := RunLaunches(limits, World(Some(bytes), [], false), ls);
            && w.file == Some(bytes)
            && |w.published| == |ls|
            && forall p <- w.published :: StoredHost(p.serviceId, p.state) == Decode(limits, bytes).value
  {
    if ls != [] {
      NeverKeepsTheToken(limits, bytes, ls[..|ls| - 1]);
      var w, l := RunLaunches(limits, World(Some(bytes), [], false), ls[..|ls| - 1]), Last(ls);
      assert l in ls;
      LoadThenSave(limits, bytes);
      var state := Decode(limits, bytes).value;
      var p := Publication(l.policy, state.serviceId, state.tokenState, l.now.wall);
      assert Resolve(limits, l.policy, Some(state.tokenState), l.now, l.freshToken).value.state == state.tokenState;
      WithoutRefreshNoRotation(limits, Publishing(w.(running := true), p, l.save), l.policy, state.serviceId, l.rotations);
    }
  }

  // ----- where tokens come from

  predicate DrawnBy(l: Launch, state: TokenState) {
    state == TokenState(l.freshToken, l.now.wall) || exists r <- l.rotations :: state == TokenState(r.token, r.at)
  }

  /** Drawn by a launch or a rotation of the chain, at the creation time it carries. */
  ghost predicate Drawn(ls: seq<Launch>, state: TokenState) {
    exists i :: 0 <= i < |ls| && DrawnBy(ls[i], state)
  }

  predicate HeldBy(limits: Limits, file: Option<seq<Byte>>, state: TokenState) {
    file.Some? && Decode(limits, file.value).Ok? && Decode(limits, file.value).value.tokenState == state
  }

  /** Drawn in the chain, or in the file the chain began with. */
  ghost predicate Known(limits: Limits, file: Option<seq<Byte>>, ls: seq<Launch>, state: TokenState) {
    HeldBy(limits, file, state) || Drawn(ls, state)
  }

  ghost predicate AllKnown(limits: Limits, file: Option<seq<Byte>>, ls: seq<Launch>, w: World) {
    && (forall p <- w.published :: Known(limits, file, ls, p.state))
    && (forall state :: HeldBy(limits, w.file, state) ==> Known(limits, file, ls, state))
  }

  lemma PublishingKeepsKnown(
    limits: Limits, file: Option<seq<Byte>>, ls: seq<Launch>, w: World, p: Publication, save: SaveOutcome)
    requires limits.wallMax <= DURATION_MAX && p.state.createdAt <= limits.wallMax
    requires AllKnown(limits, file, ls, w) && Known(limits, file, ls, p.state)
    ensures AllKnown(limits, file, ls, Publishing(w, p, save))
  {
    SaveThenLoad(limits, StoredHost(p.serviceId, p.state));
  }

  lemma {:induction false} RotationsKeepKnown(
    limits: Limits, file: Option<seq<Byte>>, ls: seq<Launch>, w: World, l: Launch, serviceId: ServiceId, n: nat)
    requires limits.wallMax <= DURATION_MAX && AllKnown(limits, file, ls, w)
    requires ls != [] && Last(ls) == l && n <= |l.rotations|
    ensures AllKnown(limits, file, ls, RotateAll(limits, w, l.policy, serviceId, l.rotations[..n]))
  {
    if n > 0 {
      RotationsKeepKnown(limits, file, ls, w, l, serviceId, n - 1);
      assert l.rotations[..n][..n - 1] == l.rotations[..n - 1];
      var before, r := RotateAll(limits, w, l.policy, serviceId, l.rotations[..n - 1]), l.rotations[n - 1];
      if before.running && l.policy.After? && RotationDeadline(limits, r.at, Some(l.policy.period)).Some? {
        var state := TokenState(r.token, r.at);
        assert r in l.rotations && DrawnBy(ls[|ls| - 1], state);
        PublishingKeepsKnown(limits, file, ls, before, Publication(l.policy, serviceId, state, r.at), r.save);
      }
    }
  }

  lemma LongerChainKnows(limits: Limits, file: Option<seq<Byte>>, ls: seq<Launch>, l: Launch, w: World)
    requires AllKnown(limits, file, ls, w)
    ensures AllKnown(limits, file, ls + [l], w)
  {
    forall state | Drawn(ls, state) ensures Drawn(ls + [l], state) {
      var i :| 0 <= i < |ls| && DrawnBy(ls[i], state);
      assert DrawnBy((ls + [l])[i], state);
    }
  }

  lemma LaunchKeepsKnown(limits: Limits, file: Option<seq<Byte>>, ls: seq<Launch>, w: World)
    requires limits.wallMax <= DURATION_MAX && ls != [] && Last(ls).now.wall <= limits.wallMax
    requires AllKnown(limits, file, ls, w)
    ensures AllKnown(limits, file, ls, RunLaunch(limits, w, Last(ls)))
  {
    var l := Last(ls);
    var loaded := if w.file.None? then None else Some(Decode(limits, w.file.value));
    if loaded.None? || loaded.value.Ok? {
      var serviceId := if loaded.Some? then loaded.value.value.serviceId else l.freshId;
      var saved := if l.newUri || loaded.None? then None else Some(loaded.value.value.tokenState);
      var resolved := Resolve(limits, l.policy, saved, l.now, l.freshToken);
      if resolved.Some? {
        var state := resolved.value.state;
        assert saved == Some(state) || DrawnBy(ls[|ls| - 1], state);
        if saved.Some? {
          assert HeldBy(limits, w.file, saved.value);
          DecodedTimeInRange(limits, w.file.value);
        }
        var p := Publication(l.policy, serviceId, state, l.now.wall);
        PublishingKeepsKnown(limits, file, ls, w.(running := true), p, l.save);
        RotationsKeepKnown(limits, file, ls, Publishing(w.(running := true), p, l.save), l, serviceId, |l.rotations|);
        assert l.rotations[..|l.rotations|] == l.rotations;
      }
    }
  }

  lemma {:induction false} ChainIsKnown(limits: Limits, file: Option<seq<Byte>>, ls: seq<Launch>)
    requires limits.wallMax <= DURATION_MAX && ClockInRange(limits, ls)
    ensures AllKnown(limits, file, ls, RunLaunches(limits, World(file, [], false), ls))
  {
    if ls != [] {
      var before := ls[..|ls| - 1];
      ChainIsKnown(limits, file, before);
      var w := RunLaunches(limits, World(file, [], false), before);
      LongerChainKnows(limits, file, before, Last(ls), w);
      assert ls == before + [Last(ls)];
      assert Last(ls) in ls;
      LaunchKeepsKnown(limits, file, ls, w);
    }
  }

  /** Across any chain of launches, loads, saves (failing or not) and rotations, under
      any mix of policies: every token published, and the one in the file, was drawn
      in the chain exactly at the creation time c it carries, or is that of the file
      the chain began with; and under `After(p)` it is published only in [c, c + p). */
  lemma TokensArePublishedInPeriod(limits: Limits, file: Option<seq<Byte>>, ls: seq<Launch>)
    requires limits.wallMax <= DURATION_MAX && ClockInRange(limits, ls)
    ensures var w := RunLaunches(limits, World(file, [], false), ls);
            && AllKnown(limits, file, ls, w)
            && forall p <- w.published :: p.policy.After? ==> Reusable(p.state, p.policy.period, p.at)
  {
    ChainIsKnown(limits, file, ls);
    PublicationsAreInPeriod(limits, file, ls);
    assert forall p <- RunLaunches(limits, World(file, [], false), ls).published :: InPeriod(p);
  }

  // ----- reuse from one launch to the next

  /** While a launch is up, all its saves have succeeded and the file holds what it
      published last. */
  predicate FileIsLatest(limits: Limits, w: World) {
    w.running ==>
      && w.published != [] && w.file.Some?
      && Decode(limits, w.file.value) == Ok(StoredHost(Last(w.published).serviceId, Last(w.published).state))
  }

  lemma PublishingIsLatest(limits: Limits, w: World, p: Publication, save: SaveOutcome)
    requires limits.wallMax <= DURATION_MAX && p.state.createdAt <= limits.wallMax
    ensures FileIsLatest(limits, Publishing(w, p, save))
  {
    SaveThenLoad(limits, StoredHost(p.serviceId, p.state));
  }

  lemma {:induction false} RotationsStayLatest(
    limits: Limits, w: World, policy: Policy, serviceId: ServiceId, rs: seq<Rotation>)
    requires limits.wallMax <= DURATION_MAX && FileIsLatest(limits, w)
    ensures var r := RotateAll(limits, w, policy, serviceId, rs);
            FileIsLatest(limits, r) && w.published <= r.published
  {
    if rs != [] {
      RotationsStayLatest(limits, w, policy, serviceId, rs[..|rs| - 1]);
      var before, r := RotateAll(limits, w, policy, serviceId, rs[..|rs| - 1]), Last(rs);
      if before.running && policy.After? && RotationDeadline(limits, r.at, Some(policy.period)).Some? {
        PublishingIsLatest(limits, before, Publication(policy, serviceId, TokenState(r.token, r.at), r.at), r.save);
      }
    }
  }

  lemma LaunchPublishes(limits: Limits, w: World, l: Launch, serviceId: ServiceId, saved: Option<TokenState>)
    requires limits.wallMax <= DURATION_MAX && l.now.wall <= limits.wallMax
    requires w.file.Some? ==> Decode(limits, w.file.value).Ok?
    requires serviceId == if w.file.Some? then Decode(limits, w.file.value).value.serviceId else l.freshId
    requires saved == if l.newUri || w.file.None? then None
                      else Some(Decode(limits, w.file.value).value.tokenState)
    ensures var resolved := Resolve(limits, l.policy, saved, l.now, l.freshToken);
            var r := RunLaunch(limits, w, l);
            && FileIsLatest(limits, r)
            && (resolved.None? ==> r.published == w.published)
            && (resolved.Some? ==>
                  w.published + [Publication(l.policy, serviceId, resolved.value.state, l.now.wall)] <= r.published)
  {
    var resolved := Resolve(limits, l.policy, saved, l.now, l.freshToken);
    if resolved.Some? {
      if saved.Some? {
        DecodedTimeInRange(limits, w.file.value);
      }
      var p := Publication(l.policy, serviceId, resolved.value.state, l.now.wall);
      PublishingIsLatest(limits, w.(running := true), p, l.save);
      RotationsStayLatest(limits, Publishing(w.(running := true), p, l.save), l.policy, serviceId, l.rotations);
    }
  }

  lemma {:induction false} ChainFileIsLatest(limits: Limits, file: Option<seq<Byte>>, ls: seq<Launch>)
    requires limits.wallMax <= DURATION_MAX && ClockInRange(limits, ls)
    ensures FileIsLatest(limits, RunLaunches(limits, World(file, [], false), ls))
  {
    if ls != [] {
      var w, l := RunLaunches(limits, World(file, [], false), ls[..|ls| - 1]), Last(ls);
      assert l in ls;
      if w.file.None? || Decode(limits, w.file.value).Ok? {
        var serviceId := if w.file.Some? then Decode(limits, w.file.value).value.serviceId else l.freshId;
        var saved := if l.newUri || w.file.None? then None else Some(Decode(limits, w.file.value).value.tokenState);
        LaunchPublishes(limits, w, l, serviceId, saved);
      }
    }
  }

  /** A launch under `After(p)` without `--new-uri`, after a chain whose last launch was
      up to the end, publishes exactly what that launch published last if it is neither
      expired nor from the future, and otherwise a fresh token; it publishes nothing
      exactly for a zero period or a deadline that fits no clock. */
  lemma TokensAreReusedAcrossLaunches(limits: Limits, file: Option<seq<Byte>>, ls: seq<Launch>, l: Launch)
    requires limits.wallMax <= DURATION_MAX && ClockInRange(limits, ls) && l.now.wall <= limits.wallMax
    requires RunLaunches(limits, World(file, [], false), ls).running && l.policy.After? && !l.newUri
    ensures var w := RunLaunches(limits, World(file, [], false), ls);
            var r := RunLaunch(limits, w, l);
            && w.published != [] && w.published <= r.published
            && var last, period := Last(w.published), l.policy.period;
               var state := if Reusable(last.state, period, l.now.wall) then last.state
                            else TokenState(l.freshToken, l.now.wall);
               && (|r.published| > |w.published| <==>
                     && period > 0
                     && state.createdAt + period <= limits.wallMax
                     && l.now.instant + (state.createdAt + period - l.now.wall) <= limits.instantMax)
               && (|r.published| > |w.published| ==>
                     r.published[|w.published|] == Publication(l.policy, last.serviceId, state, l.now.wall))
  {
    ChainFileIsLatest(limits, file, ls);
    var w := RunLaunches(limits, World(file, [], false), ls);
    var last, period := Last(w.published), l.policy.period;
    LaunchPublishes(limits, w, l, last.serviceId, Some(last.state));
    RefusedExactly(limits, period, Some(last.state), l.now, l.freshToken);
    if Resolve(limits, l.policy, Some(last.state), l.now, l.freshToken).Some? {
      ResolvedTokenIsCurrent(limits, period, Some(last.state), l.now, l.freshToken);
    }
  }

  // ----- what each launch, rotation and save does

  /** The token state a launch is to publish, under each policy. */
  function DueState(policy: Policy, saved: Option<TokenState>, now: int, newToken: Token): TokenState {
    var drawn := TokenState(newToken, now);
    match policy
    case Always => drawn
    case Never => if saved.Some? then saved.value else drawn
    case After(period) => if saved.Some? && Reusable(saved.value, period, now) then saved.value else drawn
  }

  predicate Fits(limits: Limits, policy: Policy, createdAt: int, now: Reading) {
    policy.After? ==>
      && policy.period > 0 && createdAt + policy.period <= limits.wallMax
      && now.instant + (createdAt + policy.period - now.wall) <= limits.instantMax
  }

  /** A launch whose file does not load ends at once. One whose file is absent or loads
      publishes under the id in the file, or a fresh one, a drawn token under `Always` or
      with `--new-uri`, and otherwise the saved one where the policy lets it; it publishes
      nothing exactly for a zero period or a deadline that fits no clock. */
  lemma LaunchesPublishExactly(limits: Limits, file: Option<seq<Byte>>, ls: seq<Launch>, l: Launch)
    requires limits.wallMax <= DURATION_MAX && l.now.wall <= limits.wallMax
    ensures var w := RunLaunches(limits, World(file, [], false), ls);
            var r := RunLaunch(limits, w, l);
            if w.file.Some? && Decode(limits, w.file.value).Err?
            then r.published == w.published && r.file == w.file && !r.running
            else
              var held := if w.file.Some? then Some(Decode(limits, w.file.value).value) else None;
              var serviceId := if held.Some? then held.value.serviceId else l.freshId;
              var saved := if held.Some? && !l.newUri then Some(held.value.tokenState) else None;
              var state := DueState(l.policy, saved, l.now.wall, l.freshToken);
              if Fits(limits, l.policy, state.createdAt, l.now)
              then w.published + [Publication(l.policy, serviceId, state, l.now.wall)] <= r.published
              else r.published == w.published && r.file == w.file && !r.running
  {
    var w := RunLaunches(limits, World(file, [], false), ls);
    if w.file.None? || Decode(limits, w.file.value).Ok? {
      var serviceId := if w.file.Some? then Decode(limits, w.file.value).value.serviceId else l.freshId;
      var saved := if l.newUri || w.file.None? then None else Some(Decode(limits, w.file.value).value.tokenState);
      LaunchPublishes(limits, w, l, serviceId, saved);
      PoliciesWithoutRefresh(limits, saved, l.now, l.freshToken);
      if l.policy.After? {
        RefusedExactly(limits, l.policy.period, saved, l.now, l.freshToken);
        if Resolve(limits, l.policy, saved, l.now, l.freshToken).Some? {
          ResolvedTokenIsCurrent(limits, l.policy.period, saved, l.now, l.freshToken);
        }
      }
    }
  }

  /** A rotation of a running launch publishes its token exactly under a refresh period
      whose next deadline fits the clock. */
  lemma RotationsPublishExactly(limits: Limits, w: World, policy: Policy, serviceId: ServiceId, r: Rotation)
    ensures var rotated := Rotate(limits, w, policy, serviceId, r);
            if w.running && policy.After? && r.at + policy.period <= limits.wallMax
            then rotated.published == w.published + [Publication(policy, serviceId, TokenState(r.token, r.at), r.at)]
            else rotated == w
  {
  }

  /** A save leaves a file that loads as what was saved, or the old one if it fails before
      the replacement or the creation time lies before the epoch; the launch goes on
      exactly if it succeeds. */
  lemma SavesExactly(limits: Limits, w: World, serviceId: ServiceId, state: TokenState, save: SaveOutcome)
    requires limits.wallMax <= DURATION_MAX && state.createdAt <= limits.wallMax && w.running
    ensures var r := Saving(w, serviceId, state, save);
            && r.published == w.published && (r.running <==> state.createdAt >= 0 && save.Saved?)
            && if state.createdAt < 0 || save.FailedBefore? then r.file == w.file
               else r.file.Some? && Decode(limits, r.file.value) == Ok(StoredHost(serviceId, state))
  {
    SaveThenLoad(limits, StoredHost(serviceId, state));
  }
}
