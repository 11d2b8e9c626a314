# AirSonos2 in Dafny

AirSonos2 receives AirPlay audio and plays it on Sonos and Home Assistant rooms. One event loop,
the bridge, prepares a stream for every room, collects rooms that are selected together in a
cohort, groups the Sonos rooms of one sender natively, and starts them at one source sample. Audio
travels from the AirPlay callback through two bounded queues to an encoder, and from there through
a broadcast ring into HTTP responses. This project models those four layers and proves what they
rely on.

| Layer | Files |
|---|---|
| Control plane | `bridge_state`, `bridge_handlers` (the handlers as functions), `bridge_rooms`, `bridge_core`, `bridge_worker`, `bridge_steps`, `bridge_system` (every interleaving, and the invariant of every run), `bridge_history` and `bridge_runs` (what each step sends and renews), `bridge_orders` (what a worker runs of it), `bridge_theorems` (what it means), `bridge_progress` (nobody is stuck), `bridge_cutoffs` (streams that start together), `bridge_cohorts` (admission and release of cohorts), `bridge_outcomes` (results, retries, pauses) |
| FLUSH epochs | `bridge_epochs` (adapter, bridge and encoder together) |
| Native groups | `bridge_grouping` (which group a room gets), `bridge_members` and `bridge_dissolved` (what becomes of members), `bridge_forest`, `bridge_out`, `bridge_regroup`, `bridge_groups` (every run), `bridge_commands`, `bridge_exposure`, `bridge_selfjoin`, `bridge_counterexample` |
| The same in place | `bridge_runtime` (`BridgeRuntime`), `bridge_zone_worker` (`ZoneWorker`, `GroupJoins`, and the requests to a `Device`) |
| PCM admission | `pcm` (`PcmQueue`, `PcmCredits`), `audio_session` (`BridgeAudioSession`), `pcm_paths` |
| Live output | `live_timing`, `live_stream` (`LiveStream`, `StreamRegistry`), `encoder`, `http_body`, `http_query` |
| Delays | `delays`, `bridge_delays`, `bridge_alignment` (the rooms of a release) |
| Shared | `numbers` |

## How the bridge is modelled

`BridgeState.St` holds the sessions, the generations issued so far, the cohort queue (the active
cohort followed by the pending ones), the native groups and, for every room, a `Channel`: the
commands the worker has not seen, the command that runs, what the renderer has loaded, whether the
worker believes the room is in a group, whether the device is, and the messages on their way back.
A command channel shows its reader only the latest value at the moment it looks. A handler is not
one instant for a worker, so a worker may look between two commands of one handler: it takes any
unseen command and forgets the earlier ones. This covers every schedule.

`BridgeSystem.Step` lists what can happen: AirPlay events, frames of any epoch and how the encoder's
queue answers them, messages in any order, retry timers, cohort wakes that are due, worker moves and
renderer answers. `Env` holds what nobody controls: the
clock (monotone), the order in which a hash map is searched, whether an encoder can be built, and
the configuration. `Env.clearFirst` selects the order inside a restart. The source leaves the native
group first and clears `observed` afterwards (`crates/airsonos2-cli/src/main.rs:1762-1768`); with
`clearFirst` it is the other way round. Everything is proved for both orders, the forest of native
groups in the source's order only for runs that are `Calm`.

The class `BridgeRuntime` updates its fields in place with the loops of the source. Each of its
methods is proved to compute the function of the same handler, so the theorems about runs apply to
it. The class `ZoneWorker` sends requests to a `Device` that answers as it likes, but rejects Stop,
Load and Play while it is in a group. Each of its methods makes a move of `BridgeWorker`.

## What is shown

* **Nobody is stuck, nobody is driven twice.** In every reachable state a session that wants playback
  has exactly one command, message, waiting stream or retry under way for its current generation, or
  plays, or has spent its six retries. What is under way has a next step that is possible, or will be
  at its deadline, and there is a course of time and answers in which the session comes to play without
  any further event, unless a result on its way makes it give up.
* **No member is forgotten.** Whatever happens, every room of a native group that wants playback is
  afterwards still in that group, or it restarted: in a new generation, told to stop, and with something
  that drives it on. Each step that breaks up a group restarts all its members.
* **Retries are paid for.** A session that keeps failing is retried at most six times from its last
  success on, through every restart around it.
* **The nested calls end.** A restart dissolves a group, restarts its members, releases cohorts and
  so forms new groups. Group members plus waiting streams decrease.
* **Native groups** are a forest of depth one in every reachable state, and members keep their
  coordinator's delay, if a restart clears what it observed first. In the order that the source has,
  this is false: a run of the bridge ends with a room that is told to join itself. It holds in that
  order for every calm run: no group breaks up while a stream of its sender waits for its release,
  unless neither its coordinator nor more than the first member that restarts still plays. For the
  restart of a room that plays, that condition is exact: the groups stay a forest of
  depth one, and no room is told to join itself, under every timing and however a calm run goes on, if
  and only if the room has no members or no stream of its sender waits. Otherwise some timing leads to
  a room that is told to join itself, from any such state.
* **No room joins itself.** In those runs no channel ever holds a Join to its own room. In every run
  each start that a handler sends, from however deep within restarts, is for the current stream of a
  session that wants playback, and its room has loaded that stream and has nothing else to do.
* **Generations never return.** Once a session has moved past a generation, nothing with it changes
  the bridge or is started, in any later state.
* **FLUSH epochs never mix.** All frames that an encoder was ever fed have the epoch it was built for,
  and once a FLUSH is handled no older frame is in any encoder of the session, in any later state.
* **Audio with a credit is never lost** between the AirPlay callback and the encoder, and a packet is
  admitted exactly once over any refusals. A packet that is presented again while the audio before it
  is encoded is taken if and only if its chunks have whole sample frames: it has, and it fits one chunk
  or the chunk size has. Of a packet of more than 11025 samples in stereo at 22050 Hz nothing is ever
  taken.
* **One release, one cutoff.** Rooms that a release tells to wait for its joins and then to play their
  own WAV streams begin at one source sample, in every later state.
* **Two rooms with one cutoff play the same bytes**, however the source was cut into packets, and an
  HTTP body is one header followed by a gapless run of the published audio. A reader that is polled
  within two seconds of whatever happens gets all of it.
* **Releases align rooms.** The rooms that a release tells to play their own streams are equally late,
  one of them is not delayed, and each is told the delay that its session keeps. Every delay in every
  run fits the encoder's input queue. The Sonos rooms of one sender share a group.
* **Stale audio is never consumed.** What a queue hands out is fresh or holds a credit, and what it
  discards is exactly its stale front and what an arrival has no room beside. Each chunk of a packet
  is presented when its first sample is.

## Model

| member | source | states |
|---|---|---|
| `BridgeSystem.RunSound` | crates/airsonos2-cli/src/main.rs:967-1023 | Over every interleaving of events, messages, timers and renderer answers, the room, queue and cutoff invariants hold after each step, and generations are only ever added |
| `BridgeSystem.StepSound` | crates/airsonos2-cli/src/main.rs:1185-1332 | Each single step, with all the restarts and releases it nests, keeps the invariants |
| `BridgeTheorems.OneDriver` | crates/airsonos2-cli/src/main.rs:1070-1183 | A wanted session has exactly one thing under way, plays, or spent its budget; an unwanted one has nothing under way; at most six retries between resets |
| `BridgeProgress.NobodyIsStuck` | crates/airsonos2-cli/src/main.rs:1070-1183 | In every reachable state, what is under way for a session has a next step: it is possible now, or it is a wake with a deadline to come |
| `BridgeProgress.CanPlay` | crates/airsonos2-cli/src/main.rs:967-1023 | From every reachable state, a wanted session with something under way comes to play in some course, without any further AirPlay event, unless a result on its way makes it give up |
| `BridgeTheorems.TagsAreOwned` | crates/airsonos2-cli/src/main.rs:1381-1390 | Generations are never shared between sessions, a zone has one live session, and unseen and running commands, messages and waiting streams with a live generation are that session's, in its room |
| `BridgeTheorems.StaleForever` | crates/airsonos2-cli/src/main.rs:1100-1106 | A generation that was issued and is not a session's current one never is again, even if the session id starts again; in every later state messages with it change nothing and no step sends a start of it |
| `BridgeTheorems.StartsAreCurrent` | crates/airsonos2-cli/src/main.rs:1475-1497 | Every start that any step of any run sends, nested releases and later cohorts included, is for the current stream of a session that wants playback, in a room that loaded it, is idle and, but for a fallback Play, in no group; what was sent before stays |
| `BridgeTheorems.NoRoomJoinsItself` | crates/airsonos2-cli/src/main.rs:1762-1823 | In every state of a calm run, and of every run with the clearing order, no unseen or running Join has its own room as target |
| `BridgeTheorems.WorkersAreCoherent` | crates/airsonos2-cli/src/bridge/mod.rs:79-181 | A running Play, PlayGroup or Join belongs to the stream the last finished Prepare loaded; a WAV Play has its plan; PlayGroup and Join never meet a group member; the flag covers real membership |
| `BridgeCutoffs.ReleasedTogether` | crates/airsonos2-cli/src/main.rs:1668-1719 | Two rooms that are told to wait for the same joins and to play their own streams: in every later state in which both have plans, these begin at one source sample, the release time of that wait |
| `BridgeCutoffs.ReleaseStartsTogether` | crates/airsonos2-cli/src/main.rs:1668-1719 | The streams of one release, wherever a handler nests it, that play by themselves while others join: their plans begin at one source sample in every later state |
| `BridgeTheorems.GroupsStartTogether` | crates/airsonos2-cli/src/bridge/mod.rs:58-65 | All streams that one shared wait released have one cutoff, whichever room finished waiting first |
| `BridgeTheorems.SoloStartsTogether` | crates/airsonos2-cli/src/main.rs:1668-1719 | Without joins, every WAV stream of a release gets the release's one cutoff |
| `BridgeTheorems.CohortsAreSafe` | crates/airsonos2-cli/src/main.rs:1400-1438 | A session waits in one cohort at most, equal sizes mean that all streams are prepared, deadlines are sorted and each has a wake to come |
| `BridgeTheorems.NoCohortIsLate` | crates/airsonos2-cli/src/main.rs:1462-1502 | One turn of the queue at time t leaves no cohort whose start deadline is t or earlier |
| `BridgeCohorts.EnqueueExactly` | crates/airsonos2-cli/src/main.rs:1400-1438 | An admitted session waits at the end of the last cohort and nowhere else, without a stream; a new cohort opens exactly when the last one's window or deadline is over; others stay as they are |
| `BridgeCohorts.WithinWindow` | crates/airsonos2-cli/src/main.rs:1400-1438 | Two sessions admitted within one window wait in one cohort |
| `BridgeCohorts.NothingReadyWaits` | crates/airsonos2-cli/src/main.rs:1462-1502 | After a turn of the queue its front cohort lacks a stream, and holds only wanted sessions and current streams |
| `BridgeCohorts.FullCohortStarts` | crates/airsonos2-cli/src/main.rs:1462-1502 | A front cohort whose wanted sessions all have their streams starts with the next turn, in each of its rooms |
| `BridgeOutcomes.ResultRecorded` | crates/airsonos2-cli/src/main.rs:1113-1125 | A success resets the failures and makes the session play, a failure counts one and arms a retry; only a room that plays its own stream or failed to join leaves its group |
| `BridgeOutcomes.ResultIgnored` | crates/airsonos2-cli/src/main.rs:1100-1112 | Results of other generations, and of sessions that want no playback, drive nothing |
| `BridgeOutcomes.ResultGivesUp` | crates/airsonos2-cli/src/main.rs:1126-1155 | A permanent failure, or one with the budget spent: no retry is armed, whatever restarts around the session |
| `BridgeOutcomes.RetryBudget` | crates/airsonos2-cli/src/main.rs:1070-1098 | Along any run in which a session neither succeeds nor is played or started again, at most six retries of it are armed, its failures until then included |
| `BridgeOutcomes.StepPays` | crates/airsonos2-cli/src/main.rs:1070-1098 | No step arms a retry of any session without one more failure on its count, or gives failures back other than by success or play |
| `BridgeOutcomes.PauseStops` | crates/airsonos2-cli/src/main.rs:1843-1862 | After a pause the session has a new generation, no stream and no retry, and the last command to its room is the Stop of that generation |
| `BridgeOutcomes.StopStops` | crates/airsonos2-cli/src/main.rs:1865-1887 | After the end of a session the last command to its room is its Stop |
| `BridgeOutcomes.EncoderClosedStops` | crates/airsonos2-cli/src/main.rs:1212-1231 | A lost encoder: new generation, no stream, its Stop last in the room, and a retry while the budget lasts |
| `BridgeOutcomes.FrameFeeds` | crates/airsonos2-cli/src/main.rs:1196-1211 | A frame of the session's epoch that the encoder takes is the last it was fed; any other changes nothing |
| `BridgeOutcomes.GroupPlan` | crates/airsonos2-cli/src/bridge/mod.rs:112-132 | The plan of a shared start is 120 ms after the wait's release, with the delay of the command |
| `BridgeSteps.RetryPlays` | crates/airsonos2-cli/src/main.rs:1158-1177 | A retry that still has its stream sends its Play, with a plan of the held delay if there is one |
| `BridgeEpochs.EncodersNeverMixEpochs` | crates/airsonos2-cli/src/main.rs:1196-1209 | In every run all frames that a session's encoder was ever fed have the epoch its stream accepts, which is the session's |
| `BridgeEpochs.EncodersKeepTheirEpoch` | crates/airsonos2-cli/src/main.rs:1359-1364 | An encoder that is still there in a later state accepts the same epoch and was only fed more |
| `BridgeEpochs.FlushIsolates` | crates/airsonos2-cli/src/main.rs:1243-1266 | Once a FLUSH is handled, no frame of an earlier epoch is in what an encoder of the session was fed, in any later state of the session |
| `BridgeEpochs.FlushEndToEnd` | crates/airsonos2-airplay/src/lib.rs:549-574 | The callback's FLUSH and any run that handles it: no frame of the old queue is in an encoder afterwards, and the new queue holds the new epoch only |
| `BridgeEpochs.EncodeFed` | crates/airsonos2-stream/src/encoder.rs:174-180 | What the encoder of a run was fed passes its own epoch filter: its stream emits what the release lets through of all of it, and nothing else |
| `BridgeTheorems.GroupsAreAForest` | crates/airsonos2-cli/src/main.rs:1507-1611 | In every state of a calm run, and of every run with the clearing order, members and coordinators are distinct live wanted Sonos sessions of one sender, a member is in one group, once, with its coordinator's delay, and coordinates none |
| `BridgeHandlers.Restart` | crates/airsonos2-cli/src/main.rs:1756-1825 | The mutual recursion of restart, leaving and releasing ends, with group members plus waiting streams not growing |
| `BridgeMembers.LeaveGroupRestarts` | crates/airsonos2-cli/src/main.rs:1596-1612 | When a session leaves its group, every wanted room that it coordinated gets a new generation and a Stop for one, and is not seen to play |
| `BridgeMembers.RestartMembersOf` | crates/airsonos2-cli/src/main.rs:1756-1825 | A restart, through all it nests, renews its session and the members it coordinated, and leaves every other member in its group or renews it |
| `BridgeDissolved.BrokenGroupRestarts` | crates/airsonos2-cli/src/main.rs:1596-1612 | Whatever step breaks up a group (pause, play after a loss, flush, a failure without another retry, a retry without a stream, the end of the session, another session in its room), each member that wants playback restarts and is driven on |
| `BridgeDissolved.NoMemberIsForgotten` | crates/airsonos2-cli/src/main.rs:1588-1612 | After any step a wanted member is still in its group or restarted; only a session that pauses, stops, plays its own stream or gives up leaves without a restart |
| `BridgeHandlers.LeaveGroup` | crates/airsonos2-cli/src/main.rs:1596-1612 | Leaving a group, with the restarts it nests, ends without growing that measure |
| `BridgeHandlers.DetachLoad` | crates/airsonos2-cli/src/main.rs:1596-1598 | The members still to restart and the remaining measure together do not exceed the measure before |
| `BridgeHandlers.MaybeStartKeeps` | crates/airsonos2-cli/src/main.rs:1462-1502 | Releasing turns waiting streams into at most as many new members |
| `BridgeCore.RestartCore` | crates/airsonos2-cli/src/main.rs:1756-1825 | A restart settles its session and keeps every other room right, through everything it nests, in both orders |
| `BridgeCore.MaybeStartQueue` | crates/airsonos2-cli/src/main.rs:1462-1502 | The queue stays distinct and sorted, and nothing due remains in it |
| `BridgeOrders.CoalescedInOrder` | crates/airsonos2-cli/src/bridge/mod.rs:87-88 | Along a run, the commands that a room's worker runs are a subsequence of those the bridge sends it, in order |
| `BridgeOrders.LastTaken` | crates/airsonos2-cli/src/bridge/mod.rs:202-204 | When a run leaves nothing unseen, the last command that the worker ran is the last one sent |
| `BridgeGroups.RunForest` | crates/airsonos2-cli/src/main.rs:1507-1611 | The forest of native groups is an invariant of every calm run, in either order |
| `BridgeGroups.ClearFirstIsCalm` | crates/airsonos2-cli/src/main.rs:1762-1768 | With the clearing order every run is calm |
| `BridgeCommands.PlayPreparedCommands` | crates/airsonos2-cli/src/main.rs:1668-1719 | A release in a state with the invariants, wherever it is nested, sends each room one command: a Join at the zone of the coordinator in whose group it now is, never itself, or a start that makes it a member of none |
| `BridgeCommands.ReleasesFitGroups` | crates/airsonos2-cli/src/main.rs:1462-1502 | The same for the cohort at the front in any state between the steps of a calm run |
| `BridgeCommands.ReleaseSharesWait` | crates/airsonos2-cli/src/main.rs:1668-1719 | All rooms of a release with joins wait under one new number, and WAV rooms that play their own stream get their delay |
| `BridgeGrouping.SendersShareGroups` | crates/airsonos2-cli/src/main.rs:1507-1586 | The Sonos rooms of one sender in a release all become members of a room of that sender that plays, a coordinator if there is one; if none plays, they form one group around one of them |
| `BridgeGrouping.NoNativeGroups` | crates/airsonos2-cli/src/main.rs:1507-1514 | Without native groups a release changes no group |
| `BridgeAlignment.ReleaseAligns` | crates/airsonos2-cli/src/main.rs:1614-1719 | In a WAV release, offset plus delay is the same for all rooms that are not told to join another, the rooms in no group among them (and no others if none was a member before), and one has no delay; each room's plan, shared wait or held delay is its session's delay, and a plan starts 120 ms after the release |
| `BridgeAlignment.ReleasesAlign` | crates/airsonos2-cli/src/main.rs:1462-1502 | The same for the front cohort in every reachable state |
| `BridgeRegroup.RestartForest` | crates/airsonos2-cli/src/main.rs:1756-1825 | A restart keeps the forest through all it nests: with the clearing order, when no stream waits for the sender of a group it leaves, or when neither its room nor more than the first member plays |
| `BridgeOut.RestartOut` | crates/airsonos2-cli/src/main.rs:1756-1825 | In both orders, a session that nothing can pick stays in no group while others restart |
| `BridgeOut.RestartThinner` | crates/airsonos2-cli/src/main.rs:1756-1825 | No stream starts to wait during a restart, whatever it nests |
| `BridgeForest.ReleaseDelays` | crates/airsonos2-cli/src/main.rs:1614-1666 | After a release every member, new or old, has its coordinator's delay |
| `BridgeExposure.StaysOutExactly` | crates/airsonos2-cli/src/main.rs:1762-1768 | In the source's order a restart ends in no group under every timing if and only if the session does not play with members while a stream of its sender waits |
| `BridgeSelfJoin.KeepsForestExactly` | crates/airsonos2-cli/src/main.rs:1762-1768 | In the source's order, after the restart of a session that plays the groups stay a forest of depth one, and no room is told to join itself, under every timing and in every calm continuation, if and only if it has no members or no stream of its sender waits |
| `BridgeSelfJoin.ExposedDooms` | crates/airsonos2-cli/src/main.rs:1762-1823 | From every other state some timing and some calm continuation make the room a member of the group it coordinates, with the command to join itself under way |
| `BridgeCounterexample.CoordinatorJoinsItself` | crates/airsonos2-cli/src/main.rs:1762-1823 | A concrete run from the empty bridge after which a room is a member of its own group and is told to join itself |
| `BridgeRuntimeClass.BridgeRuntime.RestartDownstreamForPlay` | crates/airsonos2-cli/src/main.rs:1756-1825 | In place, a restart reaches the state that the specified restart reaches |
| `BridgeRuntimeClass.BridgeRuntime.LeaveNativeGroup` | crates/airsonos2-cli/src/main.rs:1596-1612 | In place, its loop over the former members reaches the state of `LeaveGroup`, of which `LeaveGroupRestarts` speaks |
| `BridgeRuntimeClass.BridgeRuntime.MaybeStartSyncCohort` | crates/airsonos2-cli/src/main.rs:1462-1502 | In place, the loop over the queue; a cohort is pending only behind an active one |
| `BridgeRuntimeClass.BridgeRuntime.AddSessionToSyncCohort` | crates/airsonos2-cli/src/main.rs:1400-1438 | In place, removal from every cohort and admission to the last open one |
| `BridgeRuntimeClass.BridgeRuntime.PlanGroups` | crates/airsonos2-cli/src/main.rs:1507-1562 | In place, one pass to find the senders and one to group them give the specified groups and roles |
| `BridgeRuntimeClass.BridgeRuntime.PlayPreparedDownstreams` | crates/airsonos2-cli/src/main.rs:1668-1719 | In place, delays, shared wait, plans and commands reach the state of the specified release, of which `ReleaseAligns` speaks |
| `BridgeRuntimeClass.BridgeRuntime.HandleDownstreamStartResult` | crates/airsonos2-cli/src/main.rs:1100-1156 | In place, what a start result changes |
| `BridgeRuntimeClass.BridgeRuntime.HandleDownstreamRetry` | crates/airsonos2-cli/src/main.rs:1158-1183 | In place, a retry plays the kept stream or restarts |
| `BridgeRuntimeClass.BridgeRuntime.HandlePreparedDownstream` | crates/airsonos2-cli/src/main.rs:1440-1460 | In place, a prepared stream waits in its cohort or plays at once |
| `BridgeRuntimeClass.BridgeRuntime.SetPlaybackState` | crates/airsonos2-cli/src/main.rs:1827-1863 | In place, play and pause |
| `BridgeRuntimeClass.BridgeRuntime.Flushed` | crates/airsonos2-cli/src/main.rs:1243-1266 | In place, a FLUSH of a later epoch |
| `BridgeRuntimeClass.BridgeRuntime.EncoderInputClosed` | crates/airsonos2-cli/src/main.rs:1212-1231 | In place, a lost encoder |
| `BridgeRuntimeClass.BridgeRuntime.HandlePcm` | crates/airsonos2-cli/src/main.rs:1190-1236 | In place, the frames of one batch: dropped, fed, refused, or the end of the encoder |
| `BridgeRuntimeClass.BridgeRuntime.BeginSession` | crates/airsonos2-cli/src/main.rs:1721-1744 | In place, a session replaces the one in its zone |
| `BridgeRuntimeClass.BridgeRuntime.EndSession` | crates/airsonos2-cli/src/main.rs:1865-1887 | In place, the end of a session |
| `BridgeRuntimeClass.PartiesAppend` | crates/airsonos2-cli/src/main.rs:1515-1532 | Adding one stream to the list of senders gives the senders of the longer list |
| `BridgeRuntimeClass.GroupAllParties` | crates/airsonos2-cli/src/main.rs:1533-1562 | Grouping sender by sender equals grouping by first appearance |
| `ZoneWorkerClass.ZoneWorker.Prepare` | crates/airsonos2-cli/src/bridge/mod.rs:274-353 | Leaves a possible group, stands alone if told to, stops, and only then loads: the requests are a prefix of that list, and all of it if the stream is reported as prepared; a room in a group never gets that far; a stream is reported exactly when no request failed, a failed one as permanent or not |
| `ZoneWorkerClass.ZoneWorker.Play` | crates/airsonos2-cli/src/bridge/mod.rs:98-111 | A room that may be in a group is asked to leave before it plays; a room that started plays the loaded stream and is in no group; the answer decides the outcome |
| `ZoneWorkerClass.ZoneWorker.Stop` | crates/airsonos2-cli/src/bridge/mod.rs:156-178 | The same before a Stop, and the flag stays exactly if the room did not leave |
| `ZoneWorkerClass.ZoneWorker.Join` | crates/airsonos2-cli/src/bridge/mod.rs:133-155 | The flag is set exactly if the join was carried out or not answered; a failed join is never permanent |
| `ZoneWorkerClass.ZoneWorker.PlayGroup` | crates/airsonos2-cli/src/bridge/mod.rs:112-132 | The plan of a shared start begins 120 ms after the wait's one release time; the answer decides the outcome |
| `ZoneWorkerClass.AllWaiters` | crates/airsonos2-cli/src/bridge/mod.rs:58-65 | All rooms that wait for the same joins get one time, the first one's |
| `BridgeDelays.RunFitsQueue` | crates/airsonos2-core/src/config.rs:405-417 | With a validated configuration every delay in every run, inherited and held ones too, is at most the queue duration less the start deadline and 250 ms |
| `Delays.ConfiguredDelaysFit` | crates/airsonos2-core/src/sync.rs:29-46 | Offset plus delay is the same for all rooms, some room has no delay, and each delay fits the input queue |
| `Delays.DelaysAlign` | crates/airsonos2-core/src/sync.rs:13-27 | The same for any offsets that 64 bits can subtract |
| `Delays.DelaysExact` | crates/airsonos2-core/src/sync.rs:11-27 | Then each delay is the latency that the slowest room has more |
| `Delays.ConfiguredOffset` | crates/airsonos2-core/src/sync.rs:36-43 | The entry of the room's id, else that of its name, else the default |
| `Delays.OffsetsLast` | crates/airsonos2-core/src/sync.rs:34-44 | Of several rooms with one id the last one counts |
| `Delays.QueueDurationExact` | crates/airsonos2-core/src/config.rs:405-417 | The queue is as long as the start deadline, 250 ms and the largest difference of two configured offsets, which is attained |
| `Pcm.PcmQueue.Push` | crates/airsonos2-core/src/pcm_queue.rs:75-127 | What a push discards is exactly the stale front, and after it one frame without permit at a time while the new one does not fit; it refuses only closed, malformed or permit-blocked frames; counters equal the contents |
| `Pcm.PcmQueue.MakeRoom` | crates/airsonos2-core/src/pcm_queue.rs:100-115 | The eviction loop ends, because an admissible frame fits the empty queue |
| `Pcm.PcmQueue.Pop` | crates/airsonos2-core/src/pcm_queue.rs:161-174 | Exactly the stale front goes; the oldest entry behind it, which is fresh or has a permit, is consumed, or all were stale; the history accounts for every accepted frame |
| `Pcm.PcmQueue.BeginBatch` | crates/airsonos2-core/src/pcm_queue.rs:149-154 | Exactly the stale front goes, the rest is the batch, and the next arrival notifies again |
| `Pcm.PcmQueue.RoomIsFresh` | crates/airsonos2-core/src/pcm_queue.rs:100-115 | When frames arrived in order, what an admission leaves in front is fresh or has a permit |
| `Pcm.PcmQueue.AdmissibleFits` | crates/airsonos2-core/src/pcm_queue.rs:50-63 | The byte limit admits every frame that the sample limit admits |
| `Pcm.PcmCredits.TryReserve` | crates/airsonos2-core/src/pcm_queue.rs:328-346 | Credit is granted exactly when both limits allow it, and use equals the sum of live permits |
| `Pcm.ReservedMinus` | crates/airsonos2-core/src/pcm_queue.rs:348-354 | Any live permit can be taken out of the sum |
| `AudioSession.BridgeAudioSession.TakeChunk` | crates/airsonos2-airplay/src/lib.rs:526-546 | A chunk is taken only with whole sample frames; in a queue of buffered audio it is taken exactly when it has and its credit is free; it carries the time of its first sample |
| `AudioSession.BridgeAudioSession.AudioProcessBuffered` | crates/airsonos2-airplay/src/lib.rs:521-547 | One call admits exactly the samples between the old and the new progress in chunks of whole sample frames, a refused chunk returns its credit, and with all credit back a chunk is taken unless it has no whole sample frames; the chunk that begins with sample k is presented k / (rate * channels) seconds after the packet, in the epoch and format, and arrived now |
| `AudioSession.BridgeAudioSession.AudioFlush` | crates/airsonos2-airplay/src/lib.rs:549-574 | The new queue holds frames of the new epoch only, and the old one is closed and empty |
| `AudioSession.Present` | crates/airsonos2-airplay/src/lib.rs:526-546 | Over any refusals and re-presentations the admitted chunks concatenate to the packet, and it is taken only if all its chunks have whole sample frames; each chunk is presented when its first sample is |
| `AudioSession.TakenExactly` | crates/airsonos2-airplay/src/lib.rs:528-530 | Every chunk has whole sample frames if and only if the packet has, and it fits one chunk or the limit is a whole number of them |
| `AudioSession.OddCredit` | crates/airsonos2-core/src/pcm_queue.rs:86-99 | Stereo at 22050 Hz: of a packet of more than 11025 samples nothing is ever taken, over any list of attempts |
| `PcmPaths.PcmLink.PopNext` | crates/airsonos2-cli/src/main.rs:1196-1202 | Frames that no batch will take always have a notification under way |
| `PcmPaths.AudioPath.Deliver` | crates/airsonos2-airplay/src/lib.rs:521-547 | The session's own call: what it takes joins the queue with its times, and nothing is evicted or expired |
| `PcmPaths.AudioPath.PresentDrained` | crates/airsonos2-airplay/src/lib.rs:521-547 | Presented as often as it has chunks, with the audio before it encoded each time, a packet is taken if and only if its chunks have whole sample frames |
| `PcmPaths.AudioPath.Discard` | crates/airsonos2-cli/src/main.rs:1203-1206 | A frame without an encoder is dropped and its credit comes back |
| `PcmPaths.AudioPath.Replace` | crates/airsonos2-cli/src/main.rs:1773-1777 | A restart drops the old encoder's frames with their credit, and the new queue takes what the adapter holds |
| `PcmPaths.AudioPath.Forward` | crates/airsonos2-stream/src/encoder.rs:226-232 | The encoder's queue takes every credited frame without loss |
| `PcmPaths.AudioPath.WithinCredit` | crates/airsonos2-core/src/pcm_queue.rs:303-346 | Samples and bytes in both queues and in processing are exactly the credit in use |
| `PcmPaths.PermitsSum` | crates/airsonos2-core/src/pcm_queue.rs:303-316 | Permits of credited frames add up to their samples and bytes |
| `LiveTiming.EmittedSuffix` | crates/airsonos2-stream/src/registry.rs:323-358 | However a source is cut, the output is exactly its sample frames at or after the anchor |
| `LiveTiming.RoomsEmitTheSame` | crates/airsonos2-stream/src/registry.rs:323-358 | Two rooms with one anchor emit the same bytes |
| `LiveTiming.FirstFrameExact` | crates/airsonos2-stream/src/registry.rs:341-344 | The first frame of the output is the first one that is not before the anchor |
| `LiveStreams.LiveStream.PublishTimedPcm` | crates/airsonos2-stream/src/registry.rs:273-358 | Trimming at the anchor, arming, and which bytes count as dropped, skipped or broadcast |
| `LiveStreams.LiveStream.Publish` | crates/airsonos2-stream/src/registry.rs:248-269 | Bytes are dropped, and counted so, without a subscriber, and broadcast in chunks with one |
| `LiveStreams.LiveStream.SendServed` | crates/airsonos2-stream/src/registry.rs:395-409 | Chunks of 16 KiB that concatenate to the publication; one over 1 MiB is dropped and closes the stream |
| `LiveStreams.LiveStream.PublishPrelude` | crates/airsonos2-stream/src/registry.rs:420-432 | The header is published once, and comes first in the broadcast |
| `LiveStreams.StreamRegistry.TotalsAreSums` | crates/airsonos2-stream/src/registry.rs:364-380 | The totals are the sums over every stream ever registered |
| `LiveStreams.StreamRegistry.Insert` | crates/airsonos2-stream/src/registry.rs:46-52 | A replaced stream is closed and keeps its share of the totals |
| `LiveStreams.PublishFitsRing` | crates/airsonos2-stream/src/registry.rs:395-409 | A publication fits the ring of 64 if and only if it is at most 1 MiB |
| `LiveStreams.SplitConcat` | crates/airsonos2-stream/src/registry.rs:402-408 | The chunks of a publication concatenate to it |
| `HttpBodies.Respond` | crates/airsonos2-stream/src/http.rs:83-104 | For any interleaving of header, audio, other subscribers and polls, a body is a prefix of one header and a gapless run of the audio |
| `HttpBodies.HttpBody.Poll` | crates/airsonos2-stream/src/http.rs:85-104 | A poll hands over the header, then the next chunk; the body ends exactly when the stream closes, the receiver is more than 64 behind, or the next chunk is older than two seconds; nothing follows its end, and what is handed over is what counts as consumed |
| `HttpBodies.HttpBody.CatchUp` | crates/airsonos2-stream/src/http.rs:85-104 | Polled until nothing is ready, a body whose chunks are all within the ring and two seconds hands over the header and every chunk |
| `HttpBodies.RespondInTime` | crates/airsonos2-stream/src/http.rs:83-104 | A reader polled within two seconds of each publication has, while the stream is open, the one header and every later chunk, and when it closes all that was broadcast until then |
| `HttpBodies.HttpBody.BodyRefines` | crates/airsonos2-stream/src/http.rs:83-104 | The receiver's position and the header hand-over imply that refinement |
| `HttpBodies.PublishBesideReader` | crates/airsonos2-stream/src/registry.rs:395-409 | One publication never makes a caught-up receiver lag |
| `HttpQueries.StreamGeneration` | crates/airsonos2-stream/src/http.rs:120-138 | The first pair with the key `gen`, none before it, decides: a number, or a bad request; without one no generation is named |
| `HttpQueries.GenExactly` | crates/airsonos2-stream/src/http.rs:120-138 | A pair has that key exactly when it starts with `gen=`, and its value is what follows |
| `HttpQueries.SplitExactly` | crates/airsonos2-stream/src/http.rs:120-138 | The pairs are the parts of the query between the separators |
| `HttpQueries.ParseExactly` | crates/airsonos2-stream/src/http.rs:130-134 | A value is accepted exactly when it is a decimal number of 64 bits, perhaps with zeros and one plus sign before it, and read as that number |
| `HttpQueries.AdvertisedGeneration` | crates/airsonos2-cli/src/main.rs:1932-1933 | The query of an advertised URL reads back as its generation |
| `Encoders.EncodeWav` | crates/airsonos2-stream/src/encoder.rs:174-211 | The output is that of the frames that pass the epoch and arrival filter, in order, and each goes out as soon as the one before it is out and, with a delay, it is due |
| `Encoders.EncodeFrame` | crates/airsonos2-stream/src/encoder.rs:174-211 | One frame: what it adds to the stream, and when |
| `Encoders.HeardFromCutoff` | crates/airsonos2-stream/src/encoder.rs:174-211 | A stream fed with a source in any packets emits exactly the source from the cutoff on |
| `Encoders.ReadTail` | crates/airsonos2-stream/src/encoder.rs:259-275 | What is kept is the last 16 KiB of everything read |

## Left out

- SSDP, SOAP, HTTP transport, pairing, configuration files, the command line and the web pages: input, output or user interface. Renderer calls are arbitrary outcomes.
- BridgeWorker's moves take the requests of one command as one step, with the answers as arguments; `ZoneWorker` has the requests one by one. How a worker ends at shutdown is not modelled.
- MP3 through ffmpeg: foreign code. MP3 streams are those without playback plans (`Env.wav` is false).
- Volume, and the conversion of samples to 16 bits: floating point and easy members only.
- The zone that an AirPlay event carries beside its session is taken to be the session's zone.
- The grace timer of a paused session, and the back-off before a retry: any session may stop, and an armed retry may fire, at any time.
- The release of a shared wait may come at any time, by its joins or by its timeout; `GroupJoins` models the counter, not the timeout.
- The plan of a shared start is set in the step in which its Play is answered, not before the request goes out.
- Delivery times are exact numbers, not 64-bit floats and whole nanoseconds.
- 64-bit counters and generations are unbounded; the saturating FLUSH epoch and the limits of queues are modelled.
- A stream's input queue is not closed with the stream in `LiveStream`, and the metrics text and its queue statistics are not modelled.
- The broadcast ring is the list of all chunks sent; a receiver more than 64 behind ends, as do chunks older than two seconds.
- HttpBodies.RespondInTime: the reader is polled after each thing that happens, until nothing is ready; `CatchUp` has the general condition for one turn.
- BridgeAlignment.ReleaseAligns: speaks of one release; rooms of different releases are aligned only as far as a member takes its coordinator's delay.
- Encoders.EncodeWav: states the output while a subscriber is connected and the stream stays open, for frames of at most 1 MiB.
- BridgeEpochs.EncodeFed: the same conditions on the stream.
- BridgeEpochs.FlushEndToEnd: isolates nothing after 2^64 - 1 FLUSHes, when the callback's epoch no longer grows and the bridge ignores it, as SaturatedFlush shows.
- PcmPaths.AudioPath.Deliver: the path has one playback epoch; a FLUSH begins a new path.
- BridgeRegroup.RestartForest: in the source's order assumes that no stream waits for the sender of a group that breaks up, or that neither the room nor more than the first member plays, because the property is false without it, as CoordinatorJoinsItself shows. For a room that does not play, with a later member that does, the condition is not shown to be necessary.
- BridgeGroups.RunForest: assumes a calm run for the same reason.
- BridgeTheorems.GroupsAreAForest: assumes a calm run for the same reason.
- BridgeCommands.ReleasesFitGroups: assumes a calm run for the same reason, and speaks of the front cohort between steps only.
- BridgeTheorems.NoRoomJoinsItself: assumes a calm run for the same reason.
