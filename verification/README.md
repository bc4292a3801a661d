# sculk, modelled in Dafny

sculk is a peer-to-peer tunnel for Minecraft servers. QUIC, TCP and the timers are
library calls; its own logic is a set of small concurrent protocols and strict codecs.
This project models those and proves what they promise, for every input and every
interleaving. `dafny verify dfyconfig.toml` checks all of it.

The protocols are step systems. A `State` holds the real state and, beside it, history
that only proofs read; a step runs from one lock acquisition or await to the next; a
schedule is any sequence of actions, and an action that is not enabled changes nothing.
There is no bound on tasks, publications, connections, tunnels or callers. A future may
be dropped where the code lets it be dropped, and a file operation may fail or the
process crash at any step. What the code updates in place is also written as classes and
methods, one per locked section or loop, proved against the functions the protocols use
and, for the managed tunnel and the session table, against the steps themselves.

| files | what they model |
|---|---|
| `HostedNode`, `HostedNodeInvariant`, `HostedNodeResults`, `HostedNodeProgress`, `HostedService` | publication of services on a shared node, manual and automatic token rotation, readers, stop, routing |
| `RotationSchedule`, `TokenResolution`, `HostRestarts`, `Clocks` | the rotation timer on two clocks, which token a publication starts with, chains of launches |
| `CliHost` | the command-line loop that keeps the state file in step with rotations |
| `ManagedTunnel`, `ManagedTunnelInvariant`, `ManagedTunnelResults`, `ManagedTunnelProgress`, `ManagedTunnelStatus`, `ManagedTunnelRaces` | the managed tunnel: operations, guards, start tasks, event tasks, published status |
| `HostSessions`, `HostConnections`, `HostConnectionsProgress` | the host's session table, registration with a delayed recheck, replacement, close |
| `KeyFile`, `KeyFileRuns`, `KeyFileProgress` | exclusive creation of the key file, alone and by any number of callers |
| `JoinReconnect`, `JoinConnect` | the reconnect supervisor and the first connection of a joiner |
| `JoinUri`, `Base64Url`, `HostState`, `ControlRequest`, `LanPacket`, `Utf8`, `Bytes` | the codecs |
| `Admission` | from the text of a shared URI to admission on the node |

Safety results hold in every interleaving. The `Progress` modules add when operations
succeed: what each comes to, from any state, when nothing else takes a step, and exactly
when it fails instead and how.

Where a property is false of the code, the code is kept, a run that breaks the property
is given, and the exact condition under which the property holds is proved:

- A report of a failed start that republishes a status it read earlier can show Idle while
  another start is under way (`StaleReportHidesAStart`), and a `stop` future dropped while
  `begin_stop` waits for the event task leaves the service Idle with an Active status
  (`DroppedStopLeavesActiveShown`). `StatusAgreesExactly` says which steps a run must be
  free of, no more and no less, for status and state to agree whenever the lock is free,
  and `OnlyGentleStepsKeepAgreement` which ones break it for good.
- The same report can show a tunnel as active after its Stopping
  (`StaleReportRevivesATunnel`). `NothingActiveAfterStopping` is the exact condition.
- A close that is still pending when its endpoint has left and come back can remove the
  new entry, because generations restart at 1 (`StaleCloseCrossesResidencies`). It does
  so exactly when its connection was the n-th of its residency and the current one has n
  registrations (`ClosesAreCompared`); within one residency that is the last one only.
- A key file of the wrong length is never repaired: every caller fails
  (`WrongLengthIsNeverAnswered`).
- The first-connection backoff stops doubling after 32 retries (`BackoffStopsDoubling`),
  exactly when the maximum lies above the base times the saturated power (`BackoffDoubles`).
- A relay text that the URL parser would rewrite does not come back as it was
  (`ShareRoundTrip`, `AcceptedTextReencodes`).

Hypotheses that recur: fewer than 2^64 operation ids have been issued (the counter wraps),
fewer than 2^64 commits or registrations where an exact count is stated (the counters
saturate), and player limits that fit their 32-bit type.

## Model

| member | source | states |
|---|---|---|
| HostedNodeResults.StatusCountsCommits | core/src/tunnel/iroh/node.rs:557-584 | in every interleaving, outside a commit `uri_generation` is 1 plus the committed rotations of that publication and the creation time is that of the current token; between the two writes of a commit, which only the committing rotation can witness, it is exactly one behind |
| HostedNodeResults.AnswersAreLatest | core/src/tunnel/iroh/node.rs:844-869 | whatever step makes `token_state`, `join_uri` or `rotate_token` answer, with rotations and readers dropped at any await, the answer is the latest committed token, with the creation time stored with it |
| HostedNodeResults.CommittedStatesAreDrawnOnce | core/src/tunnel/iroh/node.rs:557-591 | every token state ever stored was produced, token and time together, by one start or one rotation |
| HostedNodeResults.RotationLoopsStayHome | core/src/tunnel/iroh/node.rs:544-589 | no step of a rotation loop or of its failure report changes any other publication, whatever was stopped or republished under the same id meanwhile |
| HostedNodeResults.OrphanedLoopsEnd | core/src/tunnel/iroh/node.rs:544-589 | an attempt of a loop whose publication has left the map never commits, wherever it stands and even when the id is published again: its lookup and its re-check find no service, which ends the loop, and before the re-check it can only meet a rotation in progress or an unrepresentable deadline |
| HostedNodeResults.RetiredPublicationsAreFrozen | core/src/tunnel/iroh/node.rs:481-505 | once a publication is out of the map it never returns, and its token, creation time and `uri_generation` never change again |
| HostedNodeResults.StepOnlyAdds | core/src/tunnel/iroh/node.rs:315-327 | generation, version and the list of commits of a publication only grow, and a counted rotation always bumps the version subscribers compare |
| HostedNodeResults.StepChanges | core/src/tunnel/iroh/node.rs:538-591 | the complete list of what one step can do to a publication |
| HostedNodeProgress.ManualRotationsEndExactly | core/src/tunnel/iroh/node.rs:531-591 | from any reachable state a manual rotation that nothing disturbs ends with NotFound exactly if the id is not published, with InProgress exactly if its rotation lock is held, with a refusal exactly if the next deadline is not representable, and otherwise commits: token, time, count, deadline and timer reset written out, nothing else changed |
| HostedNodeProgress.AutomaticRotationsEndExactly | core/src/tunnel/iroh/node.rs:538-591 | the same for an attempt of a rotation loop, with NotFound exactly if its own publication has left the map, and without a timer reset |
| HostedNodeProgress.StartsEndExactly | core/src/tunnel/iroh/node.rs:385-479 | an undisturbed start publishes the resolved token under a fresh session generation with an Active status, or is refused exactly if there is no token state, no generation left or the id is taken |
| HostedNodeProgress.StopsExactly | core/src/tunnel/iroh/node.rs:481-505 | a stop removes exactly the named service at once and is refused exactly if there is none |
| HostedNodeProgress.ClosesExactly | core/src/tunnel/iroh/node.rs:623-645 | a close removes every service and is to drain each |
| HostedNodeProgress.DrainsExactly | core/src/tunnel/iroh/node.rs:493-505 | each removed publication becomes Stopping, then Stopped, and no other changes |
| HostedNodeProgress.ReadsEndExactly | core/src/tunnel/iroh/node.rs:844-869 | from any reachable state an undisturbed reader fails exactly if the id is not published, waits exactly while the rotation lock is held, and otherwise answers the last commit and gives lock and map back |
| HostedNodeProgress.ReportsExactly | core/src/tunnel/iroh/node.rs:598-620 | a failure report sets the error exactly of the publication of the reporting loop, and of none once that is out of the map |
| HostedNodeProgress.CountsExactly | core/src/tunnel/iroh/node.rs:298-300 | the connection count of one publication changes, is published, and nothing else |
| HostedNodeProgress.DropsExactly | core/src/tunnel/iroh/node.rs:538-591 | a rotation or reader dropped at an await gives back its lock and the map and changes no token and no status |
| HostedNodeInvariant.ExecKeepsInv | core/src/tunnel/iroh/node.rs:385-645 | the invariant of every reachable state: distinct session generations, locks held by whom they say, mid-commit publications held by their committer, readers keeping their publication in the map |
| HostedService.HostedStatus.constructor | core/src/tunnel/iroh/node.rs:261-281 | a new status is Active with generation 1, and the channel holds it |
| HostedService.HostedStatus.RotateUri | core/src/tunnel/iroh/node.rs:315-327 | the in-place update equals the commit of the step system and is published in the same section |
| HostedService.HostedStatus.SetPhase | core/src/tunnel/iroh/node.rs:294-296 | only the phase changes, and it is published |
| HostedService.HostedStatus.SetConnectionCount | core/src/tunnel/iroh/node.rs:298-300 | only the connection count changes, and it is published |
| HostedService.HostedStatus.SetError | core/src/tunnel/iroh/node.rs:311-313 | only the last error changes, and it is published |
| HostedService.HostedStatus.BridgeStarted | core/src/tunnel/iroh/node.rs:302-309 | one more bridge, saturating |
| HostedService.HostedStatus.BridgeEnded | core/src/tunnel/iroh/node.rs:341-347 | one bridge fewer, never below zero |
| HostedService.BridgesAreCounted | core/src/tunnel/iroh/node.rs:302-347 | the saturating count is the number of open bridges whenever every end follows its start and fewer than 2^64 are open |
| HostedService.Node.NextSessionGeneration | core/src/tunnel/iroh/node.rs:409-423 | hands out the counter and advances it, or fails at its last value instead of wrapping; that no two starts get the same one, through the compare-exchange loop, is part of HostedNodeInvariant.ExecKeepsInv |
| HostedService.Node.Publish | core/src/tunnel/iroh/node.rs:459-463 | a duplicate id is refused and changes nothing; otherwise exactly this service is added |
| HostedService.Node.Remove | core/src/tunnel/iroh/node.rs:485-491 | exactly the named service leaves the map and is returned |
| HostedService.Node.Commit | core/src/tunnel/iroh/node.rs:572-589 | token, status and timer reset change together exactly if the map still holds this very object; nothing else changes |
| Admission.RequestCarriesTheUri | core/src/tunnel/iroh/auth.rs:36-39 | sharing, parsing, sending and receiving lose nothing of service id and token |
| Admission.AdmittedExactly | core/src/tunnel/iroh/node.rs:959-993 | a joiner is admitted exactly when the requested id was published at the lookup and that publication's latest token at the read is the one in the URI, whatever happened in between |
| Admission.HandedOutUrisAreCommitted | core/src/tunnel/iroh/node.rs:844-858 | a URI given by `join_uri` or by `rotate_token` carries the token of the commit it was given for |
| Admission.SupersededUrisAreRefused | core/src/tunnel/iroh/node.rs:976-984 | with distinct generated tokens, a URI with the token of any commit of a publication admits at a read exactly while it is the last commit, so every superseded URI is refused from the rotation's token write on |
| CliHost.SettledFileIsCurrent | cli/src/main.rs:345-392 | whenever the host has no unseen status and no rotation is mid-commit, the state file decodes to the running service's id, token and creation time, however rotations interleaved with subscription, status reads and saves |
| CliHost.UndisturbedHostSettles | cli/src/main.rs:371-382 | left alone, a host in its loop reaches such a state in one round, or in two if its initial status was still to be delivered |
| CliHost.LaunchesEndExactly | cli/src/main.rs:319-352 | from any state in which no host runs yet: if its start publishes and the creation time is not before the epoch, the host left alone subscribes, saves and enters its loop, with a file that decodes to its id and the resolved token and time; if the start is refused or the time lies before the epoch it exits and the file is as before |
| CliHost.HostsEndExactly | cli/src/main.rs:337-392 | a step ends the host if and only if it is a refused start, a service that vanished, a failed save or the exit itself |
| TokenResolution.ResolvedTokenIsCurrent | core/src/tunnel/iroh/node.rs:775-825 | under `After(p)` a saved token is reused exactly when neither expired nor from the future, otherwise a new one is used; both deadlines leave the same time |
| TokenResolution.RefusedExactly | core/src/tunnel/iroh/node.rs:763-825 | publishing is refused exactly for a zero period or a deadline that fits no clock |
| TokenResolution.ExpiryIsTheDeadline | core/src/tunnel/iroh/node.rs:800-825 | with clocks advancing together the timer is due exactly when the token expires |
| TokenResolution.PoliciesWithoutRefresh | core/src/tunnel/iroh/node.rs:781-799 | under `Always` a token is drawn now whatever was saved, under `Never` exactly if nothing was; neither is refused or has a refresh or a deadline |
| HostRestarts.TokensArePublishedInPeriod | core/src/tunnel/iroh/node.rs:775-825 | across any chain of launches, loads, failing or succeeding saves and rotations, every token published, and the one in the file, was drawn in the chain at the creation time c it carries or comes from the file the chain began with, and under `After(p)` it is published only in [c, c + p) |
| HostRestarts.TokensAreReusedAcrossLaunches | core/src/tunnel/iroh/node.rs:775-825 | the launch after one that stayed up publishes under `After(p)` exactly what that one published last if it is neither expired nor from the future, and a fresh token otherwise; when it publishes nothing is exact too |
| HostRestarts.ServiceIdIsStable | cli/src/main.rs:328-335 | once a state file exists every later publication and file carries its service id, with or without `--new-uri` |
| HostRestarts.NeverKeepsTheToken | cli/src/main.rs:331-344 | under `Never` without `--new-uri` the same token is published for ever and the file stays byte for byte the same |
| HostRestarts.LaunchesPublishExactly | core/src/tunnel/iroh/node.rs:775-825 | at the end of any chain, the next launch publishes exactly the due token under the due id: drawn now under `Always`, with `--new-uri`, without a file, or when the saved one expired or is from the future, and otherwise the saved one; it publishes nothing exactly if the file does not load, the period is zero or a deadline fits no clock |
| HostRestarts.RotationsPublishExactly | core/src/tunnel/iroh/node.rs:557-591 | a rotation of a running launch publishes its token exactly under a refresh period whose next deadline fits |
| HostRestarts.SavesExactly | cli/src/main.rs:385-392 | after a save the file loads as what was saved, or is the old one if the save failed before the replacement or the time lies before the epoch, and the launch goes on exactly if the save succeeded |
| RotationSchedule.RotationTimer.NextDelay | core/src/tunnel/iroh/node.rs:721-732 | the in-place timer returns the delay of its schedule |
| RotationSchedule.RotationTimer.Restart | core/src/tunnel/iroh/node.rs:738-749 | both deadlines move together or, if one is not representable, neither |
| RotationSchedule.RotationTimer.Failed | core/src/tunnel/iroh/node.rs:751-753 | the failure counter saturates |
| RotationSchedule.RotationLoop | core/src/tunnel/iroh/node.rs:647-702 | the loop, fed the readings and outcomes of its environment, does what the recorded run says |
| RotationSchedule.RetryDelayIsExponential | core/src/tunnel/iroh/node.rs:755-760 | the k-th consecutive failure waits min(60 s, 2^(k-1) s) despite clamping and saturation |
| RotationSchedule.DelayIsSafe | core/src/tunnel/iroh/node.rs:721-736 | no sleep is longer than 60 s or runs past the monotonic deadline, and without failures it is zero exactly when rotation is due |
| RotationSchedule.SteadyClocksReachRotation | core/src/tunnel/iroh/node.rs:656-667 | in the loop, from any state without failures and with agreeing clocks, a rotation is attempted at the end of at most ceil(remaining / 60 s) sleeps, at the first reading that finds it due, and until then schedule and rotations are unchanged |
| RotationSchedule.ResetsStartAPeriod | core/src/tunnel/iroh/node.rs:668-702 | a manual reset or a rotation read at r puts the deadlines at r plus the period on both clocks and forgets all failures, or ends the loop exactly if one is not representable |
| RotationSchedule.AFullPeriodFollows | core/src/tunnel/iroh/node.rs:656-702 | after it no rotation is attempted at any later check less than a period after r on both clocks, and the deadlines stay |
| RotationSchedule.EarlyWakesDoNothing | core/src/tunnel/iroh/node.rs:656-667 | a wake before both deadlines with no failure pending changes nothing |
| RotationSchedule.FailuresAreRetried | core/src/tunnel/iroh/node.rs:676-690 | a rotation in progress or another error keeps the loop running with one more failure and the same deadlines; only the other error is reported, with the delay of its retry |
| RotationSchedule.LoopsEndExactly | core/src/tunnel/iroh/node.rs:647-702 | the loop ends if and only if its channel closes, an attempt finds no service or no node, or a reset is not representable |
| RotationSchedule.SleepsFollowTheSchedule | core/src/tunnel/iroh/node.rs:656-660 | every iteration sleeps for the delay of the schedule at its first reading |
| RotationSchedule.RotationsArePaced | core/src/tunnel/iroh/node.rs:656-702 | n automatic rotations need n - 1 periods of any measure that paces both clocks |
| RotationSchedule.NoCatchUpBursts | core/src/tunnel/iroh/node.rs:734-749 | n automatic rotations imply (n - 1) periods of monotonic time plus upward wall-clock movement, for any readings, retries and manual resets |
| RotationSchedule.NoEarlyRotation | core/src/tunnel/iroh/node.rs:734-749 | if the wall clock never runs ahead, monotonic time alone pays for them |
| ManagedTunnel.TunnelService.constructor | core/src/tunnel/service.rs:344-356 | a new service is Idle with an Idle status |
| ManagedTunnel.TunnelService.NextOperationId | core/src/tunnel/service.rs:600-602 | ids count up and wrap at 64 bits |
| ManagedTunnel.TunnelService.BeginStart | core/src/tunnel/service.rs:484-500 | only an Idle service accepts, with a new id and the Starting status; a busy one is unchanged |
| ManagedTunnel.TunnelService.AttachStartTask | core/src/tunnel/service.rs:525-539 | the start task is attached to its own Starting state or must be aborted |
| ManagedTunnel.TunnelService.FinishStart | core/src/tunnel/service.rs:502-523 | state and status become Active exactly if this operation is still Starting |
| ManagedTunnel.TunnelService.ResetOperation | core/src/tunnel/service.rs:592-598 | state and status go to Idle exactly for the current operation |
| ManagedTunnel.TunnelService.TakeForStop | core/src/tunnel/service.rs:546-584 | what a stop takes, what it puts back and what it publishes |
| ManagedTunnel.TunnelService.PublishStopping | core/src/tunnel/service.rs:556-561 | the second half of a stop |
| ManagedTunnel.TunnelService.PublishError | core/src/tunnel/service.rs:608-612 | only the error of the status changes, as in the report step |
| ManagedTunnel.OperationIdsCount | core/src/tunnel/service.rs:600-602 | the wrapping counter hands out 1, 2, 3, ... until 2^64 ids are used up |
| ManagedTunnelInvariant.ExecKeepsInv | core/src/tunnel/service.rs:361-598 | the invariant of every reachable state: one holder per armed guard, the lock held where it says, every tunnel where its owner says |
| ManagedTunnelResults.ServiceMoves | core/src/tunnel/service.rs:484-598 | the complete list of moves of the service state and of who may make each |
| ManagedTunnelResults.OnlyTheOperationActivates | core/src/tunnel/service.rs:502-523 | the state becomes Active only by the one task that holds the guard of the operation in Starting |
| ManagedTunnelResults.SupersededOperationsAreInert | core/src/tunnel/service.rs:592-598 | once the service has left a start operation it never returns to it, and whatever the holder of its guard still does changes neither state nor status nor what was published |
| ManagedTunnelResults.StopCancelsStart | core/src/tunnel/service.rs:563-569 | a stop during Starting supersedes the operation, publishes Idle and aborts the attached task |
| ManagedTunnelResults.StopsFinish | core/src/tunnel/service.rs:587-598 | the completion of a stop always finds its own Stopping state and returns to Idle |
| ManagedTunnelResults.StartTasksAreAccountedFor | core/src/tunnel/service.rs:361-375 | a start task that still holds its guard is attached to its own Starting state, aborted, about to be attached, or its caller was dropped |
| ManagedTunnelResults.AttachFindsNoTask | core/src/tunnel/service.rs:525-534 | the assertion that no task is attached yet never fires |
| ManagedTunnelResults.TunnelsAreConserved | core/src/tunnel/service.rs:451-458 | a tunnel once created is at all times in exactly one place: held by its start task, owned by Active, being closed, or closed, and closed for good |
| ManagedTunnelResults.NoTunnelIsLost | core/src/tunnel/service.rs:773-779 | when the service is not Active and no task owns a tunnel, every tunnel is closed or left to be reaped |
| ManagedTunnelProgress.CallsEndExactly | core/src/tunnel/service.rs:361-375 | an undisturbed start call is accepted, with the Starting status published and its task attached, exactly if the service is idle; otherwise it is told Busy and nothing else happens |
| ManagedTunnelProgress.StartsEndActive | core/src/tunnel/service.rs:502-523 | a start task that connects while its operation is the service's ends with state and published status Active, its events running and its guard disarmed |
| ManagedTunnelProgress.FailuresEndExactly | core/src/tunnel/service.rs:366-404 | one that fails gives up its guard and publishes its error, over an idle service exactly if the operation was still the service's |
| ManagedTunnelProgress.SurplusTunnelsAreClosed | core/src/tunnel/service.rs:508-512 | one that connects after its operation was superseded closes its tunnel and changes neither state nor status |
| ManagedTunnelProgress.LostStatusEndsExactly | core/src/tunnel/service.rs:507-507 | one that cannot read its tunnel's status drops it and leaves the service to its guard |
| ManagedTunnelProgress.AbortsEndExactly | core/src/tunnel/service.rs:525-539 | an abort ends a start task exactly where it awaits with its guard, dropping its tunnel and spawning the reset, and changes neither state nor status |
| ManagedTunnelProgress.ResetsEndExactly | core/src/tunnel/service.rs:592-598 | the reset of a dropped guard makes the service idle, and says so, exactly if the operation is still the service's |
| ManagedTunnelProgress.StopsCancelExactly | core/src/tunnel/service.rs:563-569 | a stop during Starting answers at once: Idle, published, the attached start task to be aborted |
| ManagedTunnelProgress.StopsRefuseExactly | core/src/tunnel/service.rs:570-584 | a stop of an idle or stopping service is told NotRunning or Busy and changes nothing but the operation counter |
| ManagedTunnelProgress.StopsEndIdle | core/src/tunnel/service.rs:451-458 | the undisturbed stop of an active tunnel publishes Stopping and Idle, ends the event task, closes the tunnel and answers |
| ManagedTunnelProgress.CancelledStartsEndExactly | core/src/tunnel/service.rs:546-598 | stop, abort and reset together leave nothing of a cancelled start: its task ended, its tunnel to be reaped, its guard given up, and Idle as the stop left it |
| ManagedTunnelProgress.DroppedStopsEndIdle | core/src/tunnel/service.rs:661-675 | a stop dropped after it has published Stopping still ends with an idle service, by the reset of its guard |
| ManagedTunnelProgress.DroppedCallsEndAlone | core/src/tunnel/service.rs:361-375 | a caller dropped before its first lock, or before its start task is attached, changes nothing else |
| ManagedTunnelProgress.EventsPublishExactly | core/src/tunnel/service.rs:692-741 | the event task publishes its own tunnel, exactly until it has ended |
| ManagedTunnelStatus.StatusAgreesWithState | core/src/tunnel/service.rs:502-598 | whenever the state lock is free, the published phase, mode and tunnel are those of the service state, in every run in which no report republishes, with the lock free, a status that shows another state, and no stop is dropped inside `begin_stop` unless Idle is shown and the event task is over |
| ManagedTunnelStatus.StatusAgreesExactly | core/src/tunnel/service.rs:502-612 | the agreement holds whenever the lock is free, all through a run, if and only if every step of the run is undisturbed: no such report, no stop dropped inside `begin_stop` unless Idle is shown, and no publication by an event task such a drop left behind |
| ManagedTunnelStatus.AgreementIsKeptExactly | core/src/tunnel/service.rs:546-612 | one step keeps the agreement if and only if it is undisturbed, whether or not the lock is held |
| ManagedTunnelStatus.OnlyGentleStepsKeepAgreement | core/src/tunnel/service.rs:546-612 | a step keeps both the agreement and the absence of orphaned event tasks if and only if it is neither such a report nor such a drop, whether or not the lock is held |
| ManagedTunnelStatus.PhasesGoRound | core/src/tunnel/service.rs:484-598 | what subscribers see goes round Idle, Starting, Active, Stopping, with Starting back to Idle the only other move, in runs in which reports republish what is shown and no stop is dropped inside `begin_stop` |
| ManagedTunnelStatus.StepGoesRound | core/src/tunnel/service.rs:608-612 | from a state in order a step leaves the round if and only if it is a report whose phase may not follow the current one |
| ManagedTunnelStatus.LogStays | core/src/tunnel/service.rs:608-612 | after a step no stopped tunnel has been shown again if and only if none had been before and the step does not republish a status of a stopped tunnel |
| ManagedTunnelStatus.NothingActiveAfterStopping | core/src/tunnel/service.rs:608-612 | once Stopping was published for a tunnel nothing published later shows it, even when stops are dropped, if and only if no report of the run republishes the status of a tunnel already stopped |
| ManagedTunnelStatus.OrderlyRunsAreFresh | core/src/tunnel/service.rs:608-612 | the hypothesis of `PhasesGoRound` implies that condition |
| ManagedTunnelRaces.StaleReportHidesAStart | core/src/tunnel/service.rs:608-612 | a run after which the service is Starting and the status Idle |
| ManagedTunnelRaces.DroppedStopLeavesActiveShown | core/src/tunnel/service.rs:551-556 | a run after which the service is Idle and the status Active |
| ManagedTunnelRaces.StaleReportRevivesATunnel | core/src/tunnel/service.rs:608-612 | a run after which the service is Stopping and the status shows the stopped tunnel as Active |
| HostSessions.CapacityIsExact | core/src/tunnel/iroh/session.rs:24-33 | clamping the table size to 32 bits changes no answer |
| HostSessions.UpsertThenRemove | core/src/tunnel/iroh/session.rs:35-72 | closing with the generation just handed out forgets that endpoint and nothing else |
| HostSessions.SessionIndex.HasCapacityFor | core/src/tunnel/iroh/session.rs:24-33 | the in-place check agrees with the table function |
| HostSessions.SessionIndex.Insert | core/src/tunnel/iroh/session.rs:35-59 | the in-place upsert agrees with the table function |
| HostSessions.SessionIndex.Remove | core/src/tunnel/iroh/session.rs:61-72 | the in-place removal agrees with the table function and says whether it removed |
| HostConnections.RegisterSession | core/src/tunnel/iroh/host.rs:234-258 | the locked registration, in place, is the registration step of every state with that table |
| HostConnections.CloseLocked | core/src/tunnel/iroh/host.rs:188-205 | the locked close, in place, is the close step of every state with that table |
| HostConnections.TableIsBoundedAndCounted | core/src/tunnel/iroh/host.rs:135-221 | the table never exceeds the limit, every published count was the table size at some locked section, and joined minus left decisions is 1 for endpoints in the table and 0 for others |
| HostConnections.DecisionsAreAnnounced | core/src/tunnel/iroh/host.rs:135-219 | for every schedule and endpoint, the PlayerJoined announcements plus the first registrations not yet announced are its joined decisions, and likewise for PlayerLeft and the removals |
| HostConnectionsProgress.FirstTriesEndExactly | core/src/tunnel/iroh/host.rs:135-173 | a connection that arrives is registered at its first try exactly if its endpoint is known or there is room: with the next generation, counted, and announced exactly if the endpoint was unknown; otherwise it waits and nothing changes |
| HostConnectionsProgress.RechecksEndExactly | core/src/tunnel/iroh/host.rs:234-258 | the same at the recheck, where it is otherwise refused for good and the refusal announced |
| HostConnectionsProgress.ClosesEndExactly | core/src/tunnel/iroh/host.rs:186-219 | a close forgets its endpoint and announces that it left exactly if the entry still has its generation; the table is counted either way |
| HostConnectionsProgress.ReconnectsReplaceTheLast | core/src/tunnel/iroh/session.rs:35-59 | a reconnect replaces, and has the host close, exactly the connection registered last in the residency |
| HostConnections.OnlyStrangersAreRefused | core/src/tunnel/iroh/host.rs:234-258 | a connection is refused exactly when it is rechecked with its endpoint unknown and the table full |
| HostConnections.EntryFollowsResidency | core/src/tunnel/iroh/session.rs:35-59 | the stored generation counts the registrations of the residency, and the stored connection is the last |
| HostConnections.ClosesAreCompared | core/src/tunnel/iroh/session.rs:61-72 | a close, of whichever residency, removes the entry of its endpoint if and only if its connection's ordinal equals the number of registrations of the current residency (both saturating), and otherwise changes neither table nor left decisions |
| HostConnections.OnlyTheLastRegistrationEndsAResidency | core/src/tunnel/iroh/host.rs:186-219 | closes of replaced connections, in any order and at any time of the residency, neither remove the entry nor announce a departure; the last one does |
| HostConnections.StaleCloseCrossesResidencies | core/src/tunnel/iroh/session.rs:47-55 | a run in which a close left over from an earlier residency removes the entry of the next |
| KeyFile.WriteTempKey | core/src/persist/key.rs:104-159 | the name of a complete new file after at most sixteen names, or the first failure that occurs, exactly, with nothing left behind unless the removal fails |
| KeyFile.SaveKeyExclusive | core/src/persist/key.rs:72-91 | the whole key is published exactly if nothing fails up to the link and there was no key file, and which error is returned is exact |
| KeyFile.SaveKeyReplace | core/src/persist/key.rs:94-102 | the key file is replaced as a whole exactly if nothing fails up to the rename, and is left as it was otherwise; the error is exact |
| KeyFile.LoadKey | core/src/persist/key.rs:48-69 | the content if it has the right length, and which error otherwise |
| KeyFile.LoadOrGenerateKey | core/src/persist/key.rs:18-34 | whatever fails, a returned key is the one in the file, an existing file is untouched, an absent one stays absent or holds the whole new key, and the answer is exact for every combination of failures |
| KeyFileRuns.ExecKeepsInv | core/src/persist/key.rs:18-159 | the invariant of every reachable state: a file being written has one name, and no answer differs from the file |
| KeyFileRuns.KeyFileNeverChanges | core/src/persist/key.rs:72-91 | once there is a key file, no caller, failure or crash changes it |
| KeyFileRuns.KeyFileIsAllOrNothing | core/src/persist/key.rs:72-91 | from no file there is none or the whole key one caller drew, whatever fails or crashes |
| KeyFileRuns.AnswersAreStored | core/src/persist/key.rs:18-34 | a returned key is the one in the file |
| KeyFileRuns.AnswersAgree | core/src/persist/key.rs:18-34 | all successful callers get the same key |
| KeyFileRuns.WrongLengthIsNeverAnswered | core/src/persist/key.rs:48-69 | a file of another length is neither overwritten nor answered with |
| KeyFileRuns.NoOtherLitter | core/src/persist/key.rs:206-210 | a temporary name left over belongs to a caller at work, crashed, or unable to remove it |
| KeyFileRuns.OnlyExhaustedCallersFail | core/src/persist/key.rs:104-159 | where no operation fails by itself, only a caller that met sixteen taken names fails, whoever else crashes |
| KeyFileProgress.CallersCreate | core/src/persist/key.rs:18-34 | a caller that finds no file and a free name creates it with the key it drew, answers that key, and leaves no other new name |
| KeyFileProgress.CallersLoad | core/src/persist/key.rs:18-24 | a caller that finds a file answers what loading it gives |
| KeyFileProgress.LosersLoadTheWinner | core/src/persist/key.rs:26-34 | a caller that loses the race to link removes its temporary file and answers the key of the winner |
| KeyFileProgress.FailuresAreAnswered | core/src/persist/key.rs:104-159 | a failure on the temporary file, the link or the directory is answered as it is after the temporary name is removed, except that a taken name has the key file loaded |
| KeyFileProgress.EarlyFailuresAreAnswered | core/src/persist/key.rs:18-34 | a failure before that is answered as it is and touches nothing, except for the two kinds the code looks for |
| KeyFileProgress.TakenNamesAreRetried | core/src/persist/key.rs:112-126 | a taken name is tried again up to the sixteenth, which has the key file loaded |
| KeyFileProgress.CrashesExactly | core/src/persist/key.rs:18-159 | a crash ends a caller that has not returned, leaves every file, and the caller takes no further step |
| JoinReconnect.Reconnect | core/src/tunnel/iroh/join.rs:90-136 | the nested loops of one reconnection emit what the state machine emits |
| JoinReconnect.Supervise | core/src/tunnel/iroh/join.rs:24-164 | so does the whole supervisor |
| JoinReconnect.TracesAreStories | core/src/tunnel/iroh/join.rs:31-164 | the traces are exactly: completed reconnections (optional Disconnected, Reconnecting 1, 2, ..., Reconnected), then a prefix of another or one final error, with no Reconnecting after a permanent rejection or with a zero timeout |
| JoinReconnect.StoryIsPossible | core/src/tunnel/iroh/join.rs:31-164 | every such trace occurs |
| JoinReconnect.EventsHaveCauses | core/src/tunnel/iroh/join.rs:31-164 | after any inputs, what one more input adds to the trace is written out for every phase and input |
| JoinReconnect.ReconnectedIsEarned | core/src/tunnel/iroh/join.rs:108-136 | a registration, and with it Reconnected, is awaited only right after an authenticated connection |
| JoinReconnect.AttemptsExactly | core/src/tunnel/iroh/join.rs:173-195 | an attempt connects exactly if it authenticates, and is final exactly if the host refused it or its connection was closed for good |
| JoinReconnect.PermanentExactly | core/src/tunnel/iroh/join.rs:235-241 | the closes for good are those with code 2 and those with code 1 and the reason "auth failed" |
| JoinConnect.ConnectWithRetry | core/src/tunnel/iroh/join.rs:259-306 | at most retries + 1 connects; the first connection decides, else the last error is returned; the exhausted-without-error branch is unreachable |
| JoinConnect.BackoffsGrow | core/src/tunnel/iroh/join.rs:272-277 | backoffs never shrink and never exceed the maximum |
| JoinConnect.BackoffDoubles | core/src/tunnel/iroh/join.rs:272-277 | the exact condition under which the saturating backoff is the doubled one |
| JoinConnect.BackoffStopsDoubling | core/src/tunnel/iroh/join.rs:272-277 | an input for which it is not: the 33rd retry |
| Base64Url.CodecIsExact | core/src/tunnel/join_uri.rs:91-92 | section 5 of RFC 4648, unpadded (section 3.2) with canonical trailing bits (section 3.5): a text decodes to bytes exactly when it is their encoding |
| Base64Url.EncodedText | core/src/tunnel/join_uri.rs:91-92 | length and alphabet of the text |
| JoinUri.ExposeSecretUri | core/src/tunnel/join_uri.rs:70-97 | filling the growing buffer gives the exported text of the specification function |
| JoinUri.ExportsExactly | core/src/tunnel/join_uri.rs:70-97 | a value exports exactly when its relay text has at most 255 bytes, in at most 466 characters, so the 512 cap refuses nothing |
| JoinUri.PayloadRoundTrip | core/src/tunnel/join_uri.rs:141-189 | a payload parses back to its value exactly when the key is valid and the relay text survives |
| JoinUri.AcceptedPayloadRebuilds | core/src/tunnel/join_uri.rs:141-189 | an accepted payload has no second form, up to what the URL parser normalises |
| JoinUri.ShareRoundTrip | core/src/tunnel/join_uri.rs:111-189 | parsing the exported text gives the value back, exactly when key and relay text survive |
| JoinUri.AcceptedTextReencodes | core/src/tunnel/join_uri.rs:114-189 | every accepted base64url part re-encodes to itself, under the same exact condition |
| JoinUri.ParsesExactly | core/src/tunnel/join_uri.rs:111-189 | a text is read as a value if and only if it has at most 512 bytes and is a bare sculk://join URL (no port, user, password, query or fragment) with the path /v1/ and the base64url of a payload that spells the value |
| JoinUri.PayloadsParseExactly | core/src/tunnel/join_uri.rs:141-189 | a payload is read as a value if and only if it is flag, key, id, token and perhaps a relay text of 1 to 255 bytes that parses to the relay of the value |
| JoinUri.PayloadsAreRefusedExactly | core/src/tunnel/join_uri.rs:141-189 | which payloads are refused for unknown flags and which for an unparsable relay, exactly; all others are refused as invalid |
| JoinUri.TextsAreRefusedExactly | core/src/tunnel/join_uri.rs:111-139 | which texts are refused as too long, as no URL, for another version and for their structure, exactly |
| HostState.Serialize | core/src/persist/host_state.rs:66-79 | filling the fixed buffer gives the 61 bytes of the layout |
| HostState.SaveThenLoad | core/src/persist/host_state.rs:25-79 | every state from the epoch on survives; an earlier time is refused by the save |
| HostState.LoadThenSave | core/src/persist/host_state.rs:25-79 | an accepted file is the one its state saves |
| HostState.LoadsExactly | core/src/persist/host_state.rs:38-63 | the accepted files, and the refused ones by reason, exactly |
| ControlRequest.Serialize | core/src/tunnel/iroh/auth.rs:36-39 | filling the buffer slice by slice gives the request |
| ControlRequest.EncodingIsExact | core/src/tunnel/iroh/auth.rs:111-125 | bytes are read as a request exactly when they are its 49-byte encoding |
| LanPacket.SanitizedName | core/src/minecraft/lan.rs:345-361 | 1 to 64 characters, no brackets or controls, only single inner spaces, the words kept, and idempotent |
| LanPacket.CleanedExactly | core/src/minecraft/lan.rs:345-361 | brackets and controls become spaces and no other character changes |
| LanPacket.WordsKeepEverything | core/src/minecraft/lan.rs:345-361 | the words are everything but the white characters, in order |
| LanPacket.PortsParseExactly | core/src/minecraft/lan.rs:129-136 | a port is read exactly from digits, perhaps after a plus sign, with a value from 1 to 65535 |
| LanPacket.BuiltPacketParses | core/src/minecraft/lan.rs:129-136 | for every name and non-zero port the built packet parses back to the port |
| LanPacket.BuiltPacketIsShort | core/src/minecraft/lan.rs:341-343 | the packet has at most 283 bytes |
| LanPacket.AcceptedExactly | core/src/minecraft/lan.rs:129-136 | the accepted packets, exactly, with the port they give |
| Utf8.EncodeIsInjective | core/src/minecraft/lan.rs:130-130 | different texts have different bytes, so reading text from bytes is a function |

## Left out

- Endpoints, QUIC handshakes, TCP sockets, relays, timers as such, task scheduling and randomness: library code. Tokens, ids, keys, clock readings, failures and branch choices are parameters, distinct only where a row says so.
- General URL and relay parsing: `JoinUri` takes the URL parser as a parameter that reads the `sculk://join/v1/` prefix literally.
- The bytes carried by a bridge: they depend on what a cancelled library copy has buffered.
- Progress of the locks: rotation takes the rotation lock before the map's read lock and readers the other way round, which the code does not settle when a writer is queued. Safety is proved of the node in every interleaving, and what each operation comes to when nothing else takes a step; not that it comes to an end among others.
- The protocols as heap objects shared by concurrent tasks: interleavings are proved on values, the locked sections and loops in place, on classes. Aliasing between handles of one node is not modelled.
- The automatic rotation attempts of `HostedNode` come at any time and in any number; when they come is the matter of `RotationSchedule`.
- The export check of the join URI in `start_service` and `rotate_token`: its outcome depends only on the node's relay and is the same for every service.
- Connections that register after a stop has drained the list, and `connection_count` between its lock step and its publication: the code promises neither.
- Delivery of events: they can be dropped when a channel is full, so logs hold attempted emissions. The best-effort events of the managed tunnel are not modelled, only its statuses.
- Mutex poisoning, constant-time comparison and redaction in `Debug` output.
- Guards dropped outside a runtime: they reset nothing, as on shutdown of the process.
- `generate_new_key` beside concurrent callers: the drop after a rename removes by name, so a colliding name could remove another caller's file. `KeyFile.SaveKeyReplace` covers it alone; the atomic write of the host state is the same sequence.
- Power loss, and what a directory sync guarantees.
- Reads of a file as several operations: a bound key file never changes, so one read stands for them.
- A bridge, path monitor, profile file, option builders, command-line parsing, clipboard, LAN threads and probing: they add easy members or input and output only.
- HostConnections.OnlyTheLastRegistrationEndsAResidency: holds per residency of an endpoint and below 2^64 registrations; across residencies it fails, as `StaleCloseCrossesResidencies` shows, and `ClosesAreCompared` is exact.
- ManagedTunnelStatus.PhasesGoRound: its hypothesis on the whole run is sufficient; `StepGoesRound` is exact for one step.
- CliHost.UndisturbedHostSettles: assumes that nothing else takes a step during the rounds; while rotations keep coming the host keeps following them.
