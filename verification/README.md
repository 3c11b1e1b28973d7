# Verified model of the lfr-tunnel client

The client keeps one tunnel up through gateways that come, go and announce that they will go. This project
models the parts of it that decide something, and proves what those decisions promise. It has six parts.

**The session loop.** `SessionLoop.dfy` gives the loop as a function of everything the outside world decides:
what gateways answer, how long each request and hook takes, what a probe measures, when the user stops the
client. A session is a list of ticks of its four workers (heartbeat, failback prober, shutdown migrator, node-set
watcher), each atomic; time is an integer that never goes back. `TunnelClient.dfy` is the same loop as the client
runs it, an object whose fields each branch reassigns, and every method is proved to make exactly the step that
`SessionLoop` describes. The theorems are about runs of any length from the first registration on
(`SessionRuns.dfy`); the other `Session*` modules carry their inductions. A history of sessions, hooks, signals,
failbacks, proposed moves and failover attempts rides along with the state so that a theorem can speak about the
past. `HeartbeatReadings.dfy`, `SessionWorkers.dfy`, `SessionResults.dfy` and `SessionRetries.dfy` say what single
steps come to in terms of what the world answered: what a reply changes, why a worker ends its session, where each way
out of a lost session leaves the client, and how it tries again.

**The upgrade relaunch planner** (`Relaunch.dfy`, `RelaunchProofs.dfy`, `RelaunchFlags.dfy`): which killed processes
an upgrade starts again, given that services and trays start others; and the two readers of a process's arguments that
feed it (`ProcessArgv.dfy`).

**The rotating log** (`RotatingLog.dfy`, `RotatingLogCap.dfy`): a directory as a map from path to bytes, the
rotation that shifts its files, and the stream they refine.

**The fence check and the alert converter** (`Fences.dfy`, `Alerts.dfy`, `AlertText.dfy`): two readers of the
closing rule of section 4.5 (fenced code blocks) of CommonMark 0.31.2 that part on bad input and agree on what the
check accepts.

**Collecting logs and keeping configuration** (`LogCollection.dfy`, `LogRedaction.dfy`, `ClientConfig.dfy`,
`ConfigSources.dfy`, `ConfigExamples.dfy`): a greedy window against its optimum, and a sequence of overwrites against
a priority ladder.

**Election and budgets** (`Election.dfy`, `Reelection.dfy`, `ElectionResults.dfy`, `ReconnectBudget.dfy`).

`Prelude.dfy` holds the shared vocabulary, `Gateways.dfy` the comparison of gateway URLs, `Cooldowns.dfy` the
gateways held out, `Engine.dfy` the signals between the workers and the loop, and `ExampleGateways.dfy` and
`EvictionRounds.dfy` the gateways and the rounds of the runs that show where a promise ends.

## Where a promise has an exception

- The code promises that a failback whose session is lost within 20 s is not tried again for 45 s. It judges a lost
  session only after its `stopping`, `stopped` and `starting` hooks have run (cmd/lfr-tunnel/main.go:772-823), and only
  a session judged within 20 s of the failback that established it starts the 45 s suppression
  (`SessionFailback.EvictionIsThePrimarys`, an if and only if). So the promise holds for a session that ends d after
  the failback and is judged k later exactly when d + k is below 20 s, or k plus the prober's period is 45 s or more
  (`SessionEvictionGap.HoldOffIsExact`, for every d below 20 s, every k and any periods of the workers). In between,
  `SessionEvictionGap.SlowHooksDefeatTheHoldOff` gives the run: a move proposed along with the failback is refused when
  the session is lost, so that the loop takes the gateway for one it never left. A lost lease leaves it a candidate in
  the same way. A loss that nothing exempts (no lease lost, no pending move or failback refused) holds the gateway out
  for 90 s by itself, unless the failover has to register with it again
  (`SessionHoldOff.OrdinaryLossHoldsTheGatewayOut`).
- Within one failover no attempt goes back to a gateway that failed in it or that was excluded just before it, as long
  as that exclusion lasts (`SessionFailovers.FailoverRespectsCooldowns`). The 90 s of a refused failback, a refused move
  or a failure outlast the failover's 79.5 s; the 45 s of an eviction do not, and a failover that keeps its region may
  then ask the evicted gateway again (`SessionFailovers.ExclusionsLongEnough`, an if and only if on the length;
  `SessionFailovers.AnEvictedGatewayIsAskedAgain`). Where a pending move is refused between a refused failback and the
  failover, the primary is avoided exactly when that refusal took less than 10.5 s
  (`SessionFailovers.RefusedBothInTime`).
- A list of no flags and a list of one empty flag share one key (pkg/client/upgrade.go:721-723). A tunnel is lost to an
  upgrade exactly when one of the two was captured and the other, but not it, is started by something else
  (`RelaunchProofs.NoTunnelIsLost`); `RelaunchProofs.LoneEmptyArgumentIsLost` is a case with the systemd unit.
- The macOS reader takes an empty first argument for padding; it recovers every other list
  (`ProcessArgv.DarwinRecovers`, an if and only if).
- The fence check and the converter can disagree after a stray fence (`Fences.RejectedFilesCanReadDifferently`).
- Saving rewrites the config file and its backup, so a token file that is one of them changes under a save. Loading,
  saving and loading again gives the first configuration exactly when the rung of the ladder that supplied its token
  still supplies it, by what the save leaves in the token files (`ClientConfig.LoadSaveLoadExactly`, for every state of
  the files). `ConfigExamples.ASaveCanLoseTheToken` is a state on which it does not: a `token_file:` that names the
  backup. YAML is assumed to read back what it wrote; `ConfigExamples.RoundTripsCanBeMet` shows, with a codec made for
  the purpose, that the assumption is not empty.
- An IPv6 address without a port can share its key with a shorter one that has a port; all other URLs share a key
  exactly when they name the same gateway (`Gateways.KeysNameGateways`).

## Model

| member | source | states |
|---|---|---|
| SessionRuns.EveryLoopHeadAgrees | cmd/lfr-tunnel/main.go:699-1108 | At every loop head of every run the engine, the state record and the configuration name the same region and gateway, that gateway has no cooldown, and no lease loss, failback request, shutdown warning or pending migration of an earlier session is left |
| SessionRuns.HooksFollowTheCycle | cmd/lfr-tunnel/main.go:719-788 | In every run the lifecycle hooks are a prefix of (stopping stopped starting started)*, or of (stopped starting started)* for a pinned client, through every branch, break and fall-through |
| SessionRuns.SignalsComeFromTheServingGateway | pkg/client/interceptor.go:655-831 | In every run each signal was raised by the gateway serving its session, each one acted on was raised in that same session with nothing of its kind in between, and no raise is acted on twice |
| SessionRuns.NoFailbackSoonAfterAnEviction | cmd/lfr-tunnel/main.go:812-849 | In every run, after a session that failback established is judged within 20 s of that failback, no failback is attempted until 45 s after both the judgement and the session's end; the exact condition is HoldOffIsExact |
| SessionRuns.MovesAreWellChosen | cmd/lfr-tunnel/reelection.go:179-260 | In every run a topology move never goes to the gateway in use under another name, and goes to a gateway in cooldown at that moment only if every gateway of the roster is cooling: never if the roster lists the gateway in use, never if latency drove the move |
| SessionRuns.MovesAreThrottled | cmd/lfr-tunnel/reelection.go:94-117 | In every run the moves proposed from one instant to another, w ms later, are at most floor(w / 600000) + 1 |
| SessionWorkers.EveryFailbackWasAskedFor | pkg/client/interceptor.go:1027-1069 | In every run each failback attempted follows at once the end of a session in which a probe found the primary usable |
| SessionInvariants.IterationReachesHead | cmd/lfr-tunnel/main.go:727-1108 | Whichever of failback, move, planned move, failover, re-registration or same-gateway reconnect an iteration takes, it ends at a proper loop head or leaves the loop |
| SessionInvariants.AppliedIsAtHead | cmd/lfr-tunnel/main.go:699-725 | Committing a registration makes the recorded endpoints agree, clears the gateway's own cooldown and retires the previous gateway's announcements |
| SessionHooks.IterationCycles | cmd/lfr-tunnel/main.go:722-1102 | One iteration turns the hook cycle once round, or stops part of the way only by leaving the loop |
| SessionSignals.IterationIsHonest | cmd/lfr-tunnel/main.go:797-849 | Every iteration keeps the history of signals honest: raises by the serving gateway, consumptions of unconsumed raises of the same session |
| SessionSignals.HonestMeaning | pkg/client/interceptor.go:549-570 | In an honest history every consumption has a raise of its kind and session, by that session's gateway, with nothing of the kind in between |
| SessionSignals.RaisedOnceConsumedOnce | pkg/client/interceptor.go:549-570 | Two consumptions never act on the same raise |
| SessionFailback.EvictionIsThePrimarys | cmd/lfr-tunnel/main.go:812-823 | The loop takes a session for an eviction exactly when a failback established that session less than 20 s before the judgement, and the gateway then held out is the primary |
| SessionFailback.IterationKeepsFailback | cmd/lfr-tunnel/main.go:812-896 | Every iteration keeps the invariant that ties the memory of the last failback, the suppression timer and the pending request to the history of failbacks |
| SessionWorkers.WorkersEndExactly | pkg/client/interceptor.go:970-1069 | For every session and all its ticks: a worker ended it exactly when a tick of its own did, for its reason (the serving gateway gone or holding no lease; a usable primary elsewhere, neither suppressed nor cooling; a pending move of a client that may move; a target found ten minutes after the last); and a failback is asked for exactly when the prober did, so with no usable probe neither changes |
| SessionWorkers.FailbacksAreExact | cmd/lfr-tunnel/main.go:812-896 | An iteration attempts a failback exactly when its prober ended the session and nothing holds the primary out when the session is judged, and notes the end, the attempt and the session established, each with its time |
| SessionWorkers.ProbersAndMigratorsOnlyTakeTime | pkg/client/interceptor.go:909-959 | A prober tick takes the time of the question it asks and a migrator tick that of the drain; the pending move stays pending, and nothing else changes but the request for a failback |
| SessionWorkers.WhatAWatcherLeaves | cmd/lfr-tunnel/reelection.go:139-171 | A watcher consumes the change it saw, takes the time of roster and probes unless throttled, and leaves the target it found pending, dated when its probes were answered |
| SessionEvictionGap.HoldOffIsExact | cmd/lfr-tunnel/main.go:772-849 | For every session length d under 20 s and every time k until the judgement: no run attempts a failback within 45 s of the end exactly when d + k is under 20 s or k plus the prober's period is at least 45 s; with hooks held to their timeout and any periods of heartbeat and prober |
| SessionEvictionGap.HoldOffIsExactAtAnyTimes | cmd/lfr-tunnel/main.go:772-849 | Of all runs, whenever their ticks come: exactly when d + k is under 20 s or k is at least 45 s |
| SessionEvictionGap.SlowHooksDefeatTheHoldOff | cmd/lfr-tunnel/main.go:772-985 | For every other d and k and any periods a run, with hooks within 15 s each, in which a failback is attempted too soon: the session is lost while a pending move is refused |
| SessionHoldOff.AttemptsKeepTheirDistance | pkg/client/interceptor.go:970-1069 | In every run no failback is attempted within a prober's period of the judgement of a session that failback established |
| SessionHoldOff.OrdinaryLossHoldsTheGatewayOut | cmd/lfr-tunnel/main.go:976-1053 | A failover that nothing exempts leaves its gateway cooling for 90 s from the judgement, or the client registered with that gateway again |
| SessionHoldOff.AStopHoldsForAnHour | cmd/lfr-tunnel/main.go:1483-1495 | The gateway a failover leaves cools for an hour from the judgement if it announced its stop, else for 90 s, unless an attempt of the failover goes to it |
| SessionMoves.SpanHoldsFewProposals | cmd/lfr-tunnel/reelection.go:94-117 | Proposals a throttle interval apart fit floor(w / interval) + 1 times into a span w |
| SessionMoves.FailoverFitsItsCooldown | cmd/lfr-tunnel/main.go:1527-1569 | The last roster of a failover is filtered at most 79.5 s after its start, within the 90 s cooldown |
| SessionMoves.FailoverAvoidsFailedGateways | cmd/lfr-tunnel/main.go:1527-1569 | An attempt of a failover whose election succeeded never goes to a host that failed earlier in that failover, nor to the one the failover itself excluded, unless every advertised host is cooling, although the roster is fetched afresh each time |
| SessionFailovers.FailoverRespectsCooldowns | cmd/lfr-tunnel/main.go:976-1053 | No such attempt goes to a host that a cooldown in force at the start, whoever imposed it, still holds when the attempt filters its roster; and each filters within 79.5 s |
| SessionFailovers.RefusedFailbackIsAvoided | cmd/lfr-tunnel/main.go:876-896 | After a refused failback no such attempt goes to the primary, unless a pending move is tried in between and refused only after 10.5 s |
| SessionFailovers.RefusedBothInTime | cmd/lfr-tunnel/main.go:876-974 | After a refused failback and a refused move the primary is avoided exactly when the move was refused within 10.5 s |
| SessionFailovers.RefusedMoveIsAvoided | cmd/lfr-tunnel/main.go:955-974 | After a refused move no such attempt goes to its target |
| SessionFailovers.ExclusionsLongEnough | cmd/lfr-tunnel/main.go:812-823 | An exclusion just before a failover that keeps its region keeps every such attempt from its host exactly when it is longer than 79.5 s: 90 s are, the 45 s of an eviction are not |
| SessionFailovers.AnEvictedGatewayIsAskedAgain | cmd/lfr-tunnel/main.go:812-823 | After an eviction with the lease lost, timely attempts can end at the evicted gateway although others are open |
| SessionMoves.ElectionAvoidsHeld | cmd/lfr-tunnel/main.go:2669-2721 | An election that found a gateway chose no host that stays held until the roster is filtered, unless every advertised host is held |
| SessionResults.WhatIsTaken | cmd/lfr-tunnel/main.go:797-849 | Recovery clears lease loss and pending migration and notes each that was set; a failback less than 20 s old makes the loss an eviction, with 45 s of suppression and exclusion, and is forgotten |
| SessionResults.AFailbackLands | cmd/lfr-tunnel/main.go:851-875 | A failback that registers puts the client on its primary in every record, with the primary's roster and control plane, remembered from when it is up; a pending move stays pending |
| SessionResults.AFailbackIsRefused | cmd/lfr-tunnel/main.go:876-896 | A refused one holds the primary out for 90 s from the refusal and goes on from the region and gateway the client had, keeping the region |
| SessionResults.AMoveLands | cmd/lfr-tunnel/main.go:903-954 | A move that registers puts the client on its target, makes that the primary with its roster, and holds the gateway left for 90 s |
| SessionResults.AMoveIsRefused | cmd/lfr-tunnel/main.go:955-974 | A refused one holds the target out for 90 s and goes on to a failover from the region and gateway the client had, keeping the region and the primary |
| SessionResults.AFailoverLands | cmd/lfr-tunnel/main.go:976-1053 | A client with a roster excludes its gateway for an hour or 90 s unless it keeps its region, tries four times and stands on the gateway that took it in every record, or leaves; one without comes back to its own |
| SessionResults.AnAttemptAsks | cmd/lfr-tunnel/main.go:2669-2755 | An attempt elects from the roster fetched, or the last one, less what is held out: the cached gateway while on offer, else the fastest; it asks that, or the gateway the client had if none was elected, and takes the time of just what it did |
| SessionResults.AttemptsFollowRefusals | cmd/lfr-tunnel/main.go:1527-1569 | Only a refusal another gateway may not repeat leads to the next attempt, with the one that refused held out for 90 s and a pause that doubles; the last has no pause |
| SessionResults.ComingBack | cmd/lfr-tunnel/main.go:1061-1107 | A client whose session failed on this machine leaves; any other registers with its own gateway until an answer settles it, and stands there again exactly if that took it |
| SessionResults.APinnedClientComesBack | cmd/lfr-tunnel/main.go:755-781 | A pinned client that is not stopped stands on its own gateway again at the next loop head, or leaves; it never stands elsewhere |
| SessionRetries.RetriesPauseAndSettle | cmd/lfr-tunnel/main.go:1593-1630 | The first answer that is not to be tried again decides, after pauses of 1, 2, 4, 8, 16 and then 30 s |
| TunnelClient.TunnelClient.Loop | cmd/lfr-tunnel/main.go:727-1108 | The object's loop makes a run of the specification, with region discovery answering as the rosters at hand allow |
| TunnelClient.TunnelClient.Iterate | cmd/lfr-tunnel/main.go:727-1108 | One round of the object's loop is one iteration of the specification |
| TunnelClient.TunnelClient.Recover | cmd/lfr-tunnel/main.go:782-1059 | The recovery of a lost session takes each one-shot signal once and ends as the specification says |
| TunnelClient.TunnelClient.ApplySession | cmd/lfr-tunnel/main.go:699-725 | Committing a registration reaches every place the endpoint is recorded |
| TunnelClient.TunnelClient.JudgeSession | cmd/lfr-tunnel/main.go:812-823 | A session lost soon after a failback suppresses failbacks and holds its gateway out; any other changes nothing |
| TunnelClient.TunnelClient.FailBack | cmd/lfr-tunnel/main.go:851-896 | A failback lands on the primary, or puts the client back where it was with the primary held out |
| TunnelClient.TunnelClient.MoveOrFailOver | cmd/lfr-tunnel/main.go:903-974 | A pending move makes its target the primary and holds the old gateway out, or leaves the client where it was to re-register there |
| TunnelClient.TunnelClient.FailOver | cmd/lfr-tunnel/main.go:976-1053 | A failover excludes the gateway that failed, unless nothing failed, and re-registers across regions |
| TunnelClient.TunnelClient.ExcludeFailedRegion | cmd/lfr-tunnel/main.go:1483-1495 | The failed gateway is held out, longer for an announced stop, and discovery is asked of a usable gateway if there is one |
| TunnelClient.TunnelClient.Reconnect | cmd/lfr-tunnel/main.go:1061-1107 | A client with nowhere to go re-registers with the gateway it has |
| TunnelClient.TunnelClient.ReregisterAcrossRegions | cmd/lfr-tunnel/main.go:1527-1569 | Up to four re-elections, each gateway that refuses held out, the pause doubling, ending at once on success or on a refusal no region can fix |
| TunnelClient.TunnelClient.ReregisterSameGateway | cmd/lfr-tunnel/main.go:1593-1630 | Registrations with one gateway until one succeeds or cannot, the pause doubling up to 30 s |
| TunnelClient.TunnelClient.ResolveServerUrl | cmd/lfr-tunnel/main.go:2669-2755 | The roster is refreshed and filtered, and the cached election is used only while it is still offered |
| TunnelClient.TunnelClient.Serve | cmd/lfr-tunnel/main.go:728-764 | A session runs its workers' ticks in any order, none after the worker ended the session |
| TunnelClient.TunnelClient.ProberTick | pkg/client/interceptor.go:970-1069 | The object's prober tick is that of the specification, of which SessionWorkers.WorkersEndExactly says when it asks for a failback |
| TunnelClient.TunnelClient.MigratorTick | pkg/client/interceptor.go:909-959 | A migrator tick ends the session only on a pending migration, and leaves that pending |
| TunnelClient.TunnelClient.WatcherTick | cmd/lfr-tunnel/reelection.go:139-171 | A watcher tick consumes a roster change and, unless throttled, proposes the chosen move |
| TunnelClient.DiscoveryLeavesTheFailedGateway | cmd/lfr-tunnel/main.go:1483-1520 | Discovery never points back at the gateway that failed under any name, and points nowhere exactly when neither roster has another |
| TunnelClient.DiscoveryPrefersCentral | cmd/lfr-tunnel/main.go:1505-1520 | Central is asked before any other gateway, that of the present list before the primary's, unless it is blank or the failed host; nothing outside the two lists is asked |
| TunnelClient.RegionDiscoveryUrl | cmd/lfr-tunnel/main.go:1505-1520 | The result is central if usable, in the present list before the primary's, else any usable gateway in the same order |
| Gateways.KeysNameGateways | cmd/lfr-tunnel/main.go:2512-2531 | Two parsed URLs share a key exactly when host names agree but for case and the ports agree, the scheme's own being none, or one is an IPv6 address that reads like the other with its port |
| Gateways.ServingTargetIsSessionUrl | pkg/client/interceptor.go:276-303 | A report target is on the serving gateway's host exactly when it is the session URL itself |
| Gateways.ComparisonsAgree | pkg/client/interceptor.go:276-290 | Blank URLs are no gateway; unparsed ones compare alike by key and by host; of parsed ones one key means one host, and one host one key where neither has a port |
| Gateways.WhoIsTold | pkg/client/interceptor.go:292-303 | A report goes to the serving gateway first and to central after it exactly when that is another host |
| Engine.CentralsReplyIsIgnored | pkg/client/interceptor.go:701-813 | A heartbeat's outcome is that of the serving gateway's own reply, whatever central answers |
| Engine.OtherHostsAreIgnored | pkg/client/interceptor.go:701-813 | Replies from hosts other than the serving one change nothing and end nothing |
| Engine.BeatAllIsSound | pkg/client/interceptor.go:701-813 | What a heartbeat raises comes from the session URL and is pending afterwards, and what is pending afterwards was pending before or raised by it |
| HeartbeatReadings.WhatAHeartbeatReads | pkg/client/interceptor.go:701-813 | Field by field what the serving gateway's reply leaves: a stop other than the last one announced is a pending move, a hash other than the session's last a change, a report taken with no lease held the end; anything but a body changes nothing |
| HeartbeatReadings.AStopIsAnnouncedOnce | pkg/client/interceptor.go:475-514 | Over all ticks of a session, a stop announced before raises no further move however often it is repeated |
| HeartbeatReadings.SteadyRostersRaiseNothing | pkg/client/node_set.go:68-90 | Over all ticks of a session whose replies carry one roster hash or none, no change is raised |
| Engine.InterceptorEngine.HeartbeatTick | pkg/client/interceptor.go:701-813 | The tick over the report targets is the heartbeat of the specification |
| Engine.InterceptorEngine.NoteShutdownWarning | pkg/client/interceptor.go:475-514 | A stop announced again is not pending again; a new or moved one is |
| Engine.InterceptorEngine.SetRegionEndpoint | pkg/client/interceptor.go:1275-1283 | Committing an endpoint retires the warning and the pending migration |
| Engine.InterceptorEngine.ConsumeShutdownMigration | pkg/client/interceptor.go:564-570 | A pending migration is handed over once |
| Engine.InterceptorEngine.NoteNodeSetFingerprint | pkg/client/node_set.go:68-90 | A change is raised only against a baseline of the same session |
| Engine.InterceptorEngine.ResetNodeSet | pkg/client/node_set.go:51-56 | A new session starts with no baseline and no pending change |
| Cooldowns.AvailableIsOpen | cmd/lfr-tunnel/main.go:2601-2624 | Only gateways not held are offered exactly when some advertised gateway is not held; otherwise everything is |
| Cooldowns.ReapingKeepsHolds | cmd/lfr-tunnel/main.go:2601-2624 | Forgetting expired deadlines changes what is held neither now nor later |
| Cooldowns.RegionCooldowns.Filter | cmd/lfr-tunnel/main.go:2601-2624 | One pass in any order gives the open regions, or everything when none is open, and deletes only expired deadlines |
| Cooldowns.RegionCooldowns.Exclude | cmd/lfr-tunnel/main.go:2545-2553 | The new deadline replaces the old one, earlier or later; other hosts keep theirs |
| Cooldowns.RegionCooldowns.IsCoolingDown | cmd/lfr-tunnel/main.go:2568-2584 | A gateway cools until its deadline |
| Election.DedupeKeepsLeastName | cmd/lfr-tunnel/main.go:2828-2849 | De-duplication keeps, for every gateway host, exactly its least name by length and then spelling |
| Election.DedupeKeepsHosts | cmd/lfr-tunnel/main.go:2828-2849 | De-duplication loses no gateway and renames none |
| Election.FastestIsUnique | cmd/lfr-tunnel/main.go:3021-3029 | Only one name can win an election, so the order in which measurements are met does not matter |
| Election.WinnerIsNearestHost | cmd/lfr-tunnel/main.go:2897-2974 | The winning latency is the least of any advertised gateway that answers, and there is none exactly when none answers |
| Election.AliasesDoNotChangeTheWinner | cmd/lfr-tunnel/main.go:2828-2849 | Advertising the same gateways under more or fewer names never changes the winning latency |
| ElectionResults.TheKeptNameIsShortest | cmd/lfr-tunnel/main.go:2828-2849 | The name kept for a gateway is the shortest of its names, and the alphabetically first of those |
| ElectionResults.TheWinnerIsFastest | cmd/lfr-tunnel/main.go:3021-3029 | The winner answered no later than any other, and is the alphabetically first to have done so |
| Election.DedupeRegionsByHost | cmd/lfr-tunnel/main.go:2828-2849 | The loop over the map, in any order, computes the de-duplication |
| Election.FastestRegion | cmd/lfr-tunnel/main.go:3021-3029 | The loop over the measurements, in any order, finds the unique winner |
| Reelection.ChoiceIsOpenAndElsewhere | cmd/lfr-tunnel/reelection.go:179-260 | Whatever the roster, the choice is never the gateway in use under another name, and it is cooling only if every gateway of the roster is; a latency-driven choice requires the roster to list the gateway in use |
| Reelection.ChoiceIsCloser | cmd/lfr-tunnel/reelection.go:218-284 | A latency-driven choice is a gateway of the roster that is materially closer |
| Reelection.MoveCutsLatency | cmd/lfr-tunnel/reelection.go:278-284 | A latency-driven move cuts at least 40 ms and leaves at most 70 percent |
| Reelection.ChainsTerminate | cmd/lfr-tunnel/reelection.go:218-284 | On a fixed table of latencies a chain of such moves has at most floor(start / 40 ms) of them |
| ElectionResults.NamedRegionsAreHonoured | cmd/lfr-tunnel/reelection.go:179-217 | A client whose user named a region moves to it exactly when it is on offer with a URL and on another host, taking the roster along |
| ElectionResults.OthersMoveForMuchLess | cmd/lfr-tunnel/reelection.go:218-284 | Any other moves exactly when its own gateway is on offer and measured and some gateway on offer is 40 ms and three tenths nearer; it moves to the nearest |
| Reelection.ChooseReelectionTarget | cmd/lfr-tunnel/reelection.go:179-260 | The decision, made from the fetched roster and measured latencies, is the specification's |
| Reelection.RttForHost | cmd/lfr-tunnel/reelection.go:264-274 | A host's measurement is found under whatever name it was probed, and only if there is one |
| Reelection.ReelectionState.Propose | cmd/lfr-tunnel/reelection.go:112-117 | The throttle starts when a move is decided |
| RelaunchProofs.NoTunnelIsLost | pkg/client/upgrade.go:609-703 | For NUL-free arguments every captured tunnel is started again, by a service or by the plan, exactly unless one of the two lists that share a key is taken for the other |
| RelaunchProofs.LoneEmptyArgumentIsLost | pkg/client/upgrade.go:721-723 | A tunnel started with one empty argument is lost when the systemd unit is reloaded |
| RelaunchProofs.NoTunnelIsDoubled | pkg/client/upgrade.go:651-703 | No planned background tunnel has the configuration of one that a service or a planned tray starts |
| RelaunchProofs.PlannedEntries | pkg/client/upgrade.go:729-739 | Every planned entry is a captured one, a tray unchanged and a tunnel with at most a -background token added, which it then carries |
| RelaunchProofs.RelaunchingKeepsTheTunnel | pkg/client/upgrade.go:729-739 | What a planned entry starts is what the captured process started |
| RelaunchProofs.PlanningIsIdempotent | pkg/client/upgrade.go:651-703 | Planning a plan again with the same services returns it unchanged |
| RelaunchProofs.ServicesStartTheBareTunnel | pkg/client/upgrade.go:586-600 | Every service definition an upgrade reloads brings up the tunnel without flags |
| RelaunchFlags.TheLastSettingDecides | pkg/client/tray_launch.go:36-57 | A flag has a value exactly when the last argument to set it, as -name, --name or either with = and one of Go's twelve words, sets it so; an unreadable word sets nothing |
| RelaunchFlags.WhatACommandLineStarts | pkg/client/upgrade.go:609-620 | A command line is a tray exactly when -gui is set on it; a tray starts nothing exactly when -no-autoconnect is set, else the tunnel of the arguments it forwards; anything else starts its own |
| RelaunchFlags.LastWordOnConnecting | pkg/client/tray_launch.go:71-85 | A tray with -no-autoconnect appended starts nothing, one with -no-autoconnect=false appended or without the flag starts a tunnel |
| RelaunchFlags.TraysForwardTheRest | pkg/client/tray_launch.go:102-116 | A tray forwards its arguments in order but for those that spell -gui, -background or -no-autoconnect |
| RelaunchFlags.TunnelsDropTheToken | pkg/client/tray_launch.go:137-146 | A tunnel runs with its arguments in order but for -background and --background |
| RelaunchFlags.QuietTraysReplaceNothing | pkg/client/upgrade.go:651-703 | When every captured tray ends with -no-autoconnect, a captured tunnel that no service starts is planned |
| RelaunchFlags.PlansKeepTheOrder | pkg/client/upgrade.go:651-703 | The plan has one entry for each captured command line not left out, in the order of capture |
| RelaunchFlags.HowItIsStartedAgain | pkg/client/upgrade.go:729-739 | A tray as it was, and a tunnel with -background appended unless it spells that flag already |
| RelaunchFlags.WhatServicesRun | pkg/client/upgrade.go:586-600 | The two plists by their file names run -background and -gui, any other nothing, in order and the systemd unit last |
| Relaunch.KeysIdentify | pkg/client/upgrade.go:721-723 | NUL-free flag lists have one key exactly when they are equal, or one is empty and the other a lone empty flag |
| Relaunch.PlanRelaunch | pkg/client/upgrade.go:651-703 | The three passes over services, trays and processes compute the plan |
| Relaunch.BoolFlagValue | pkg/client/tray_launch.go:36-57 | The last argument that sets the flag to a readable value decides |
| Relaunch.ComputeStartedTunnel | pkg/client/upgrade.go:609-620 | The configuration a command line brings up: a tray's forwarded flags, a tunnel's own |
| Relaunch.ComputeTrayClientArgs | pkg/client/tray_launch.go:102-116 | A tray forwards every argument but those that describe how to run it |
| Relaunch.ComputeWithoutBackgroundFlag | pkg/client/tray_launch.go:137-146 | Exactly the two bare spellings of -background are dropped |
| Relaunch.ComputeRelaunchArgv | pkg/client/upgrade.go:729-739 | A tray as it was; a tunnel with a -background token |
| Relaunch.ComputeServiceStarts | pkg/client/upgrade.go:586-600 | What the reloaded definitions run, by their file names |
| ProcessArgv.DarwinRecovers | pkg/client/process_argv_darwin.go:27-73 | For 1 to 1024 NUL-free arguments, any path, padding and environment, the reader recovers the list exactly when its first argument is not empty |
| ProcessArgv.LinuxRecovers | pkg/client/process_argv_linux.go:22-34 | The reader recovers the list from its terminated form exactly when its first argument is not empty, and otherwise fails |
| ProcessArgv.ReadersAgree | pkg/client/process_argv_linux.go:22-34 | Both readers give the same arguments for the same process |
| ProcessArgv.CountsHaveBounds | pkg/client/process_argv_darwin.go:27-45 | A buffer under four bytes, or with a count of zero or above 1024, gives nothing |
| ProcessArgv.DarwinRecoversCutBuffers | pkg/client/process_argv_darwin.go:46-73 | A buffer cut off before the last argument's NUL still gives every argument |
| ProcessArgv.ReadDarwinArgv | pkg/client/process_argv_darwin.go:27-73 | The loops over the buffer compute the reading, errors included |
| RotatingLog.LogIsASuffix | pkg/client/sessionlog.go:288-387 | In every run of restarts and writes each file is made of whole writes (or what it held at first), and the files from oldest to live are a suffix of everything |
| RotatingLog.LogRefinesTheStream | pkg/client/sessionlog.go:288-387 | In bytes, what the log holds is a suffix of the starting contents followed by all writes |
| RotatingLog.NothingIsLostWhileThereIsRoom | pkg/client/sessionlog.go:329-348 | From files without gaps, nothing at all is lost while some generation is unused |
| RotatingLog.LiveStaysBounded | pkg/client/sessionlog.go:365-387 | After an open the live file is within the cap or is one oversized write |
| RotatingLog.RotationDropsTheOldest | pkg/client/sessionlog.go:329-348 | Rotating loses exactly the oldest generation, or the live file when none is kept |
| RotatingLog.RotationSparesOthers | pkg/client/sessionlog.go:329-348 | No other file and no generation beyond the kept ones is touched |
| RotatingLogCap.WritesRotateExactly | pkg/client/sessionlog.go:365-387 | A write that fits under the cap, or finds the live file empty, is appended and touches nothing else; any other is alone in the live file, with every file one generation on |
| RotatingLogCap.OpeningRotatesExactly | pkg/client/sessionlog.go:288-326 | Opening moves every file one generation on exactly when the live one has content, and otherwise only creates it |
| RotatingLogCap.ASmallSessionIsOneFile | pkg/client/sessionlog.go:365-387 | From an open log, writes that fit the cap together are all in the live file and touch no generation, however many are kept |
| RotatingLog.Directory.RotateGenerations | pkg/client/sessionlog.go:329-348 | The descending loop of renames moves every file one generation on, gaps with their neighbours |
| RotatingLog.Directory.RotateFile | pkg/client/sessionlog.go:317-326 | Only a log with content is rotated |
| RotatingLog.RotatingFile.Write | pkg/client/sessionlog.go:365-387 | The write appends as the specification does, of which RotatingLogCap.WritesRotateExactly says when it rotates; a closed file takes nothing |
| RotatingLog.RotatingFile.Open | pkg/client/sessionlog.go:288-308 | Opening shifts what an earlier run left and starts on an empty live file, with defaults for a cap or a count out of range |
| Fences.AcceptedFilesReadTheSame | scripts/check-docs-fences.py:46-71 | A file passes the check exactly when the converter meets no stray fence and ends outside a block, and both then see the same block at every line |
| Fences.RejectedFilesCanReadDifferently | scripts/mkdocs_github_alerts.py:127-139 | A file the check rejects on which the two end in different blocks |
| Fences.ReportsNameOpenBlocks | scripts/check-docs-fences.py:46-71 | Every report names the fence that opened a block and the line that shows no fence closed it |
| Fences.FenceLinesReadOneWay | scripts/check-docs-fences.py:29-29 | A line is a fence exactly when it reads as white space, three or more of one mark and an info string, and it reads so in one way |
| AlertText.BlocksCloseExactly | scripts/mkdocs_github_alerts.py:127-141 | A block is closed exactly by a line of white space, as many of its own marks or more, and white space |
| Fences.UnclosedFences | scripts/check-docs-fences.py:32-71 | The loop over the lines computes the reports |
| Alerts.MarkersConvertExactly | scripts/mkdocs_github_alerts.py:127-157 | A line opens an admonition exactly when it is a marker outside every block and follows no alert through quoted lines |
| Alerts.FencedLinesAreVerbatim | scripts/mkdocs_github_alerts.py:127-145 | Fence lines and the lines between them come out as they are, in place |
| Alerts.AcceptedFilesKeepTheirCode | scripts/mkdocs_github_alerts.py:122-157 | On a file the check accepts, its fences and the lines the check sees in blocks come out as they are, and only markers it sees outside are converted |
| Alerts.BodyLinesComeOutOnce | scripts/mkdocs_github_alerts.py:151-179 | Every body line belongs to one alert and comes out at its own place in that alert's admonition and nowhere else |
| Alerts.UnchangedWithoutMarkers | scripts/mkdocs_github_alerts.py:115-181 | The converter is the identity exactly on documents without a marker outside their blocks |
| AlertText.MarkersReadOneWay | scripts/mkdocs_github_alerts.py:68-68 | A line is taken for a marker exactly when it reads > and [!NAME] with one of the five names, white space between them, and it is taken by that name and what follows |
| AlertText.WhatAnAlertBecomes | scripts/mkdocs_github_alerts.py:147-179 | An alert is the literal header of its name, such as !!! danger "Caution", a blank line, its text indented by four, and a blank line; with a title lifted from its first line the header is !!! info and that title, and the line holds what is left |
| AlertText.QuotesRunOn | scripts/mkdocs_github_alerts.py:156-160 | An alert's text is every quoted line up to the first that is not one, each without its mark |
| Alerts.Convert | scripts/mkdocs_github_alerts.py:115-181 | The loop over the lines computes what the specification says each comes out as; AlertText.WhatAnAlertBecomes says it of an alert in the text itself |
| Alerts.ConvertText | scripts/mkdocs_github_alerts.py:115-181 | Text without a marker outside its blocks comes back character for character |
| LogCollection.KeepsTheNewestLines | pkg/client/redact.go:263-338 | The kept lines are the longest suffix of the redacted lines that fits the budget, and the log is marked truncated exactly when a redacted line was left out |
| LogCollection.CollectionFitsItsBudget | pkg/client/redact.go:216-260 | Everything collected fits the budget but for one dropped-lines trailer, which only the last log, traffic's, can have |
| LogCollection.TheErrorLogHasTheWholeBudget | pkg/client/redact.go:228-258 | The error log comes first and is as long as it would be alone |
| LogRedaction.KeptLinesAreImages | pkg/client/redact.go:284-311 | The kept lines are, in order, what the redactor of their kind makes of the trimmed lines that are not blank; with the dropped ones they count them all |
| LogRedaction.ContentIsClean | pkg/client/redact.go:284-335 | Whatever holds of everything the redactor of a kind returns holds of every line of the log collected, before the trailer |
| LogRedaction.LogsAreCollectedInTurn | pkg/client/redact.go:216-260 | The error, console and traffic logs in that order, each within what those before it left of the bytes asked for or 4 MiB; missing and empty ones passed over, an unreadable one fatal while bytes are left |
| LogCollection.CollectOne | pkg/client/redact.go:263-338 | The sliding window over the lines computes the log of which KeepsTheNewestLines and LogRedaction.ContentIsClean say what it holds |
| LogCollection.CollectRedactedLogs | pkg/client/redact.go:216-260 | The loop over the three logs gives each what the ones before it left, skips missing and empty ones and fails on an unreadable one |
| ClientConfig.LoadSaveLoadExactly | pkg/config/config.go:1154-1463 | For every state of the files and the environment: load, save, load gives the configuration of the first load exactly when the rung that supplied its token still supplies it, by what the save leaves in the token files |
| ClientConfig.LoadSaveLoadIsStable | pkg/config/config.go:1154-1463 | In particular when no token file the load depends on is the config file or its backup |
| ClientConfig.NoForeignTokenIsSaved | pkg/config/config.go:1187-1225 | After a load, a save writes into auth_token: nothing, or the token that key held and that is in force; nothing beside a token_file: |
| ClientConfig.SourceMatchesToken | pkg/config/config.go:1293-1385 | The source is called the config file exactly when the token is the file's own and nothing outranks it, and is blank exactly when there is no token |
| ClientConfig.AuthoredTokenIsLoaded | pkg/config/config.go:1227-1236 | A token a form supplies is saved and loaded again when nothing above the config file supplies one |
| ClientConfig.BackupAsTokenFile | pkg/config/config.go:1172-1177 | With a token_file: that names the backup, the second load agrees exactly when the config file's previous text reads as the same token, or as any where a variable supplies the token |
| ClientConfig.ConfigFileAsTokenFile | pkg/config/config.go:1183-1195 | With a token_file: that names the config file, exactly when the configuration as saved, without a token, reads so |
| ClientConfig.GuessedFileIsWritten | pkg/config/config.go:1320-1348 | With a guessed token file that is the config file or its backup, exactly when what the save leaves there reads as the same token |
| ConfigExamples.ASaveCanLoseTheToken | pkg/config/config.go:1154-1196 | A state of the files on which the second load takes another token |
| ClientConfig.OverridingAgainChangesNothing | pkg/config/config.go:1370-1460 | The environment decides the same keys whatever it is applied to |
| ConfigSources.KeysFollowTheirVariables | pkg/config/config.go:1364-1460 | Each of eleven keys takes the first of its own variables, by name, that is set, through its own reading, and stays as it is when none is or the text does not read; no other key changes |
| ConfigSources.TheHighestRungWins | pkg/config/config.go:1293-1385 | A load takes its token and the name of its source from the first of seven rungs, written out by variable and path, that supplies one; it fails only on a named token file without a token |
| ConfigSources.WhereTheConfigIs | pkg/config/config.go:1154-1291 | A file asked for by name has to be there; the one below the home directory may be missing, and a save without a path writes it |
| ConfigSources.WhatASaveKeepsOfTheToken | pkg/config/config.go:1187-1225 | Of any configuration's token, a save keeps exactly one called the config file's own beside no token_file:, and every other key |
| ClientConfig.Disk.LoadClientConfig | pkg/config/config.go:1270-1463 | The overwrites, rung by rung from the lowest, give the highest rung of the ladder with its source; a named token file that cannot be read is an error whatever stands above it |
| ClientConfig.Disk.ResolveToken | pkg/config/config.go:1293-1385 | The same for the token alone |
| ClientConfig.Disk.ReadClientTokenFile | pkg/config/config.go:1571-1603 | A named token file gives a token that is not blank, or an error |
| ClientConfig.Disk.SaveClientConfig | pkg/config/config.go:1154-1196 | The previous file becomes the backup and the configuration is written, its token left out when it does not belong there |
| ReconnectBudget.RetryCountForWindow | pkg/client/client.go:807-828 | The count is the least whose waits cover the window, which they overshoot by less than 10 s |
| ReconnectBudget.AttemptsAreBounded | pkg/client/client.go:802-839 | No advertised window makes a client try fewer than 7 or more than 24 times, and one that can fail over tries 7 times over 12.7 s |
| ReconnectBudget.DefaultWindowTakesTwelve | pkg/client/client.go:807-828 | The default window takes 12 attempts over 62.7 s |
| ReconnectBudget.ResolvedWindowsAreHonoured | pkg/client/client.go:802-805 | A window resolved from settings is honoured as it is |
| ReconnectBudget.ClampSetting | pkg/client/settings.go:74-92 | The value in force is in bounds, and is reported as sent exactly when the advertised one is |
| ReconnectBudget.ClampedIsNearest | pkg/client/settings.go:74-92 | Of the values in bounds the one in force is the nearest to what was asked for |
| ReconnectBudget.ClampingTwiceIsOnce | pkg/client/settings.go:74-92 | Clamping a clamped setting changes nothing and finds nothing to report |
| ReconnectBudget.SettingsInSeconds | pkg/client/settings.go:74-92 | The window is honoured from 20 s to 180 s and the heartbeat from 2 s to 60 s, clamped outside, and 60 s and 5 s where nothing is asked for |
| ReconnectBudget.TheBlockOutranksTheOldField | pkg/client/settings.go:110-146 | The window is the block's where it carries one, else the older field's; the heartbeat has no older field |
| ReconnectBudget.WindowsCountWholeSeconds | pkg/client/client.go:802-805 | Parts of a second do not count towards a window, and less than one second is the default |
| ReconnectBudget.ResolveSettings | pkg/client/settings.go:110-146 | Both values are in bounds, and an adjustment is noted for exactly the values asked for and not used as sent, in order of name |

## Left out

- HTTP, TLS, chisel, DNS, probing and the region cache file: their answers are inputs of the model (registered, retryable or terminal; a latency or none; any roster; a cached election or none).
- Environment overrides of cooldowns, and the diagnostics text the code attaches to its decisions (reasons, advice, log events).
- The startup branch of `resolveServerURL` for a region the user named or asked to refresh, and `candidateHosts` and `sameCandidates`, which decide whether a cached election is still valid.
- `SetFailoverAvailable` and the control-plane reachability flags, which nothing in the loop's decisions reads.
- Scheduling below one worker tick, and workers that outlive their session: a stale watcher could still propose a move there, which no theorem here covers.
- The periods of the tickers, but for the first ticks of the heartbeat and the prober where SessionHoldOff asks for them: workers tick at any times, also while the stopping hook runs after their session returned.
- Spellings of one path: two paths are the same file exactly when they are the same string; links are not modelled.
- Parsing of URLs: a URL is its trimmed text and the parts parsing gave; case folding is ASCII.
- Go's rounding in `materiallyCloser`: the comparison is exact (10 times the gain against 3 times the present latency); integers are unbounded throughout.
- Running hooks: only their order and how long each takes matter.
- Signature checking, download and replacement of the binary in an upgrade, and finding, stopping and starting processes: the planner's input is the list of captured command lines.
- The log's mutex, partial writes and I/O errors; `ReadSessionLog`.
- The pattern that lifts a title out of an alert's first line: the converter takes any such function, and every theorem holds for all of them.
- Line ends other than a line feed in the two scripts, and files that are not UTF-8.
- Redaction patterns and white-space trimming: any functions of a line; scanner errors and lines over 8 MiB.
- YAML, `parseSecretsFile`, host and duration parsing: functions of their text; YAML is assumed to read back what it wrote. File permissions and the warnings about them.
- SessionRuns.NoFailbackSoonAfterAnEviction: counts the 20 s to the judgement, because the code does; the property counted from the session's end is false of the code, and SessionEvictionGap.HoldOffIsExact says exactly when it holds.
- The relaunch plan works on values rather than growing Go slices, so the sharing of backing arrays that `slices.Clone` guards against is not modelled.
- A client configuration is a value, copied by each overwrite; sharing of the Go struct between callers is not modelled.
- Server, Inspector, TUI, tray, service installers, login, never-expires policies and the remaining scripts.
