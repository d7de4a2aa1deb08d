# claudebox: verified models of its protocols

claudebox runs coding agents in containers. Most of it is plumbing; a few modules hold protocols whose guarantees live in
comments and in a handful of subtle lines. This project models those modules in Dafny and proves the guarantees, for every
interleaving, input or run.

Asyncio code is modelled as atomic steps between awaits: an `Action` datatype, an `Enabled` guard and a `Next` function
give the step machine, lemmas quantify over every sequence of steps, and a class with the original's fields implements the
steps, each method being proved to do exactly its `Next`. Loops are methods proved against a specification function, and
what the code is for is proved about that function. Files are byte sequences. The Claude SDK, LangGraph, JSON and UTF-8
decoding, gitignore matching and the file system are parameters, or steps that may happen at any time with any outcome.

| file | models |
|---|---|
| `ClaudeQueue.dfy`, `QueueOutcomes.dfy` | the queue of prompts and setting changes, the task that drains it once connected, and what callers are told |
| `TurnDriver.dfy`, `TurnRuns.dfy`, `TurnStream.dfy`, `TurnEnding.dfy` | LangGraph turns: driver, graph task, lock-step hand-off, stop, failure, pause and resume; what holds over every run; that what is streamed arrives; that turns end |
| `Migration.dfy`, `MigrationComplete.dfy` | the translation of an event log into LangChain messages |
| `SingleFlight.dfy` | keyed job sharing with caller counts |
| `WorkspaceLoads.dfy` | the daemon's workspace loads and evictions |
| `Followers.dfy` | the supervisor of container log followers |
| `Jsonl.dfy` | JSONL reading from start, offset and end, and tail repair |
| `FileStamps.dfy` | the file cache and the file watcher, over a file system whose change times move in ticks |
| `PathResolver.dfy`, `PathMeaning.dfy` | the pruned walk, its index, the two caches and the adaptive lifetime; what the answers mean |
| `Glob.dfy`, `Dispatch.dfy` | the audit script's glob compiler and its search for return dispatches |
| `Merge.dfy` | the deep merge of configuration tables |
| `Tasks.dfy` | the task store and its replay from the event log |

## Where the code and its promises differ

The model follows the code. Each of these is stated by a lemma, mostly as an exact condition.

- A connect that is *cancelled* reaches only the `finally`: `ready` is set without `connect_error`, so the drain sends what
  was queued (`ClaudeQueue.ConnectEnding`, `ClaudeQueue.CancelledConnectSends`).
- The comment at runtime_claude.py:346-347 says every ready-gated method checks `connect_error` first; `_change` does not,
  so a change made after a failed connect's flush goes straight to the SDK (`ClaudeQueue.DirectStart`,
  `ClaudeQueue.FailedConnectAppliesChange`).
- A turn whose graph fails is not probed and keeps what its middlewares queued: the next turn yields it
  (`TurnRuns.ForeignEventsExactly`, `TurnRuns.LeftoverSurfaces`), and a pause is forgotten, so that its answer is routed as
  a new message (`TurnRuns.MisroutedExactly`, `TurnRuns.FailureHidesPause`).
- The migration's cut can drop a result whose call it keeps, when calls overlap (`Migration.AllAnsweredExactly`,
  `Migration.OverlappingCallsLoseAnAnswer`).
- Right after an eviction a lookup can still join a load that stored the evicted service and whose done callback has not run
  (`WorkspaceLoads.LookupAfterEviction`, `WorkspaceLoads.LookupInTheWindow`).
- `FileCache` promises that a hit's stamp "was settled", but line 49 tests the fresh stamp's flag: an entry stored from an
  unsettled stamp can be returned stale (`FileStamps.SafeExactly`, `FileStamps.StaleHit`).
- `MtimeWatcher` keeps the new stamp before it reacts: a poll cut short in between loses the change for good
  (`FileStamps.NoWriteLost`, `FileStamps.AnyWriteCanBeLost`).
- `read_jsonl_tail` with limit 0 slices with `[-0:]` and returns every line it read (`Jsonl.LimitZeroKeepsAll`). The one
  caller in the repository passes 1000.
- `repair_jsonl_tail` drops an unterminated last value that decodes but is no object, which `read_jsonl` had been yielding
  (`Jsonl.RepairKeepsRecords`).
- The glob docstring says `**` is any number of segments: a closing `**` needs one, and inside a segment it crosses slashes
  (`Glob.DocumentedExactly`, `Glob.InnerStarsCrossSlashes`).
- `merge` is not associative where a scalar lies between two tables (`Merge.AssociativeExactly`, `Merge.GroupingMatters`).
- The `task_output` tool only reads, but its log entry is replayed as an append of nothing: output that was non-empty comes
  back with one more newline (`Tasks.ReplayRebuilds`, `Tasks.ReadOutputIsReplayedAsAppend`). Nothing in
  the repository appends output but the replay itself, so this takes a caller of the service's own.

## Model

| member | source | states |
|---|---|---|
| ClaudeQueue.StepInv | src/claudebox/agent_session/runtime_claude.py:365-420 | every step - connect, disconnect, call, interrupt, timeout, drain - keeps calls in order, phases consistent and futures matched to callers |
| ClaudeQueue.CallOrder | src/claudebox/agent_session/runtime_claude.py:342-350 | over every interleaving, sends and applies begin in call order and ahead of all that is queued; every call has begun, is queued or is gone, exactly one of the three |
| ClaudeQueue.DirectStart | src/claudebox/agent_session/runtime_claude.py:398-410 | a call begins at once if and only if the drain is over and nothing refuses it; then every older call has begun or is gone and the drain task has finished; it is refused if and only if it is a prompt after a failed connect, and else joins the end of the queue |
| ClaudeQueue.DrainCompletes | src/claudebox/agent_session/runtime_claude.py:1021-1045 | whatever each outcome, and whatever calls, interrupts and timeouts land between: every finish takes one entry, so the drain is over after more finishes than entries queued before and calls made since; then every entry has begun unless an interrupt or its own caller took it out |
| ClaudeQueue.QuietDrain | src/claudebox/agent_session/runtime_claude.py:1028-1045 | with nothing between, the drain begins exactly what was queued, in order |
| ClaudeQueue.DrainStep | src/claudebox/agent_session/runtime_claude.py:1028-1094 | each step of a drain leaves a queued entry queued, begins it, or drops it as an interrupt or its caller asked |
| ClaudeQueue.SettledOnce | src/claudebox/agent_session/runtime_claude.py:1047-1059 | a change's future is settled at most once: its first outcome is its last |
| QueueOutcomes.OutcomeIsFirstWord | src/claudebox/agent_session/runtime_claude.py:1047-1094 | over every run a waiting change has as its outcome the first word on it - its own attempt ending well or in a refusal, its caller giving up, the queue being dropped - and waits on while there is none |
| QueueOutcomes.AppliedExactly | src/claudebox/agent_session/runtime_claude.py:1047-1059 | it is told "applied" if and only if its own attempt ended well while its caller still waited, and "refused" if and only if its own attempt was refused in that time |
| QueueOutcomes.FinishSettles | src/claudebox/agent_session/runtime_claude.py:1050-1059 | however an attempt ends, its caller is not left waiting |
| QueueOutcomes.WaitsFromTheCall | src/claudebox/agent_session/runtime_claude.py:1082-1088 | a waited change made before the drain is over goes to the end of the queue and waits from then on |
| QueueOutcomes.WaitEnds | src/claudebox/agent_session/runtime_claude.py:1086-1094 | a caller waits until it goes on with the outcome, with the report of a timeout or because it was cancelled, and a timeout is reported in the second case only |
| QueueOutcomes.FiredIsReported | src/claudebox/agent_session/runtime_claude.py:1086-1094 | once its timer has fired a caller goes on with the report of a timeout unless it is cancelled, even if its change was settled before |
| QueueOutcomes.WaiterGoesOn | src/claudebox/agent_session/runtime_claude.py:1086-1094 | a caller whose change is settled, or whose timer has fired, is free to go on |
| ClaudeQueue.TimedOutNeverBegins | src/claudebox/agent_session/runtime_claude.py:1084-1094 | a change reported as timed out never begins after the report |
| ClaudeQueue.GoneNeverBegins | src/claudebox/agent_session/runtime_claude.py:1137-1142 | an interrupted, withdrawn, discarded or refused call never begins |
| ClaudeQueue.InterruptDropsPrompts | src/claudebox/agent_session/runtime_claude.py:412-420 | an interrupt during the drain drops exactly the queued prompts, for good, and keeps every change in order |
| ClaudeQueue.FilterExact | src/claudebox/agent_session/runtime_claude.py:415-416 | the filtered queue holds exactly the changes, or exactly the prompts, in order |
| ClaudeQueue.RemoveExact | src/claudebox/agent_session/runtime_claude.py:1091-1092 | withdrawing removes that entry, if it is there, and nothing else |
| ClaudeQueue.FailedConnectSendsNothing | src/claudebox/agent_session/runtime_claude.py:1023-1026 | what is queued when a connect has raised is never sent or applied, whatever follows |
| ClaudeQueue.FailedConnectSettles | src/claudebox/agent_session/runtime_claude.py:1137-1142 | the flush after a failed connect empties the queue and leaves no queued future unsettled |
| QueueOutcomes.DisconnectDiscards | src/claudebox/agent_session/runtime_claude.py:380-394 | what a disconnect finds in the queue never begins, reconnects included, and each of its waiting callers is told |
| QueueOutcomes.NothingBeginsDisconnected | src/claudebox/agent_session/runtime_claude.py:1021-1026 | and until a connect has ended nothing is sent or applied at all |
| QueueOutcomes.EscapeStopsTheDrain | src/claudebox/agent_session/runtime_claude.py:1028-1045 | after an exception of an apply that is no refusal nothing more is sent or applied until a disconnect |
| ClaudeQueue.ConnectEnding | src/claudebox/agent_session/runtime_claude.py:371-378 | the head of the queue stays unsent if and only if the connect ended by raising |
| ClaudeQueue.CancelledConnectSends | src/claudebox/agent_session/runtime_claude.py:371-378 | a run in which a connect is cancelled and the queued prompt is sent |
| ClaudeQueue.FailedConnectAppliesChange | src/claudebox/agent_session/runtime_claude.py:1061-1077 | a run in which a change made after a failed connect goes straight to the SDK |
| ClaudeQueue.ClaudeRuntime.DiscardQueue | src/claudebox/agent_session/runtime_claude.py:1137-1142 | the popping loop tells exactly the waiting callers of exactly the queued changes |
| TurnDriver.StepInv | src/claudebox/agent_session/runtime_langgraph.py:571-739 | every step of reader, driver, graph, middleware and stop keeps positions, lock-step, event flow, the flag and the history of turns consistent, failed turns and the reader's return included |
| TurnRuns.TurnsReadWell | src/claudebox/agent_session/runtime_langgraph.py:571-648 | every turn that ended yielded its prompt, then events in order - all it inherited and produced, or those handed over - then one result, or none if its graph failed; it inherited exactly what the turn before left, which is nothing unless that failed; it is stopped only if a stop or a disconnect landed inside it |
| TurnStream.StreamedReachesReader | src/claudebox/agent_session/runtime_langgraph.py:657-739 | whatever was queued or projected up to one stream event is handed over, and taken by the reader, before the next stream event or the graph's return; a turn that finishes or fails has yielded all of it, and one stopped at once the first event not yet handed over |
| TurnStream.HandOffsComplete | src/claudebox/agent_session/runtime_langgraph.py:612-666 | a graph that waits on a hand-off is brought to run again by the driver's, the reader's and its own next steps alone, with all it had to hand over handed over |
| TurnRuns.ForeignEventsExactly | src/claudebox/agent_session/runtime_langgraph.py:612-646 | a turn yields another turn's event if and only if the turn before it failed with events queued and it came to hand anything over |
| TurnRuns.TurnsKeepApart | src/claudebox/agent_session/runtime_langgraph.py:629-646 | so while no graph fails no event of one turn surfaces in another |
| TurnRuns.LeftoverSurfaces | src/claudebox/agent_session/runtime_langgraph.py:617-627 | a run in which a failed turn's queued event comes out of the next turn |
| TurnEnding.NeverStuck | src/claudebox/agent_session/runtime_langgraph.py:603-648 | from every reachable state some step other than a stop, a disconnect or a middleware's event is possible, and within a turn it is the turn's own unless the graph is running |
| TurnEnding.TurnEnds | src/claudebox/agent_session/runtime_langgraph.py:413-414 | once its graph has ended, or it was stopped before it had one, a turn ends in every schedule within a bounded number of steps: with one result after what was handed over if stopped, after all there was if finished, with none if failed |
| TurnEnding.TurnCanEnd | src/claudebox/agent_session/runtime_langgraph.py:612-648 | and the driver's and the reader's own steps bring it there |
| TurnEnding.NextTurnCanBegin | src/claudebox/agent_session/runtime_langgraph.py:560-648 | from every reachable state, without a stop or a disconnect, the turn can come to its end and the reader can begin the next one |
| TurnEnding.StopSettles | src/claudebox/agent_session/runtime_langgraph.py:413-422 | a stop inside a turn settles it as stopped, at once or by letting the graph task unwind, unless the graph had ended by itself |
| TurnEnding.StoppedBeforeItRan | src/claudebox/agent_session/runtime_langgraph.py:603-630 | a turn stopped before its graph's first step never runs it: the prompt is not routed, nothing is handed over, and a pause goes on waiting for its answer |
| TurnEnding.DisconnectSettles | src/claudebox/agent_session/runtime_langgraph.py:350-366 | a disconnect lets a graph task that has not ended unwind, which settles the turn as stopped, and else leaves the turn alone |
| TurnRuns.AtMostOneUntaken | src/claudebox/agent_session/runtime_langgraph.py:612-615 | mid-turn at most one hand-off is untaken, nothing handed over is lost or reordered, and a live graph is blocked on that one |
| TurnRuns.StopOutsideTurn | src/claudebox/agent_session/runtime_langgraph.py:413-422 | a stop outside a turn changes nothing, one after the graph ended only sets the request flag, a second one adds nothing |
| TurnRuns.AnswersRoutedExactly | src/claudebox/agent_session/runtime_langgraph.py:668-688 | over every run, a prompt was routed as an answer if and only if the graph was paused and had been probed since it last ran; the same of the flag at any time |
| TurnRuns.MisroutedExactly | src/claudebox/agent_session/runtime_langgraph.py:629-676 | told by the steps alone: between turns and when a prompt is about to be routed, the flag is set if and only if the last graph that ran ended paused and neither it nor its probe failed, and the prompt is routed by it; so an answer becomes a new message exactly when one of them failed, and a new message never becomes an answer |
| TurnRuns.FlagTracksGraph | src/claudebox/agent_session/runtime_langgraph.py:1196-1220 | while probes answer and no graph fails, the flag between turns equals the graph's pause, also after turns stopped before their task's first step |
| TurnRuns.FailureHidesPause | src/claudebox/agent_session/runtime_langgraph.py:617-642 | a run in which a graph pauses and then fails, and the answer is routed as a new message |
| Migration.AnswersFollowCalls | src/claudebox/agent_session/runtime_langgraph.py:1605-1606 | each tool message answers an earlier call of the output, and no prefix holds more results than calls under any id |
| Migration.IdsUniqueAndOrdered | src/claudebox/agent_session/runtime_langgraph.py:1611-1700 | generated ids, as rendered, differ pairwise, those of messages and those of calls; messages keep event order and say what their event said; a call goes by its tool use's id, its own or the generated one |
| MigrationComplete.EveryEventTold | src/claudebox/agent_session/runtime_langgraph.py:1611-1700 | told by the log alone: up to the cut an event has a message if and only if it speaks, and just one, in the order of the events; each says what its event said, a result being an answer if a mapped call of that id is open and text if only an unmapped one is |
| Migration.GeneratedNamesDiffer | src/claudebox/agent_session/runtime_langgraph.py:1660 | the ids generated for tool uses without one differ pairwise, mapped or not |
| MigrationComplete.IdsAreConsecutive | src/claudebox/agent_session/runtime_langgraph.py:1617-1623 | generated ids are numbered one after the other from 1, those of calls among those of messages |
| Migration.RenderInjective | src/claudebox/agent_session/runtime_langgraph.py:1619-1623 | two generated ids render alike only if they are the same |
| Migration.DigitsInjective | src/claudebox/agent_session/runtime_langgraph.py:1623 | decimal counters render alike only if they are equal |
| Migration.AllAnsweredExactly | src/claudebox/agent_session/runtime_langgraph.py:1697-1700 | if no two mapped calls go by the same id, its own or a generated one, every call of the output has its result if and only if no call is open when the first never-answered one is issued |
| Migration.SequentialCallsAnswered | src/claudebox/agent_session/runtime_langgraph.py:1610 | under the same condition on ids it does when no mapped call is issued while another is open |
| Migration.OverlappingCallsLoseAnAnswer | src/claudebox/agent_session/runtime_langgraph.py:1697-1698 | call A, call B, result A: A is kept and its result dropped |
| Migration.CutExactly | src/claudebox/agent_session/runtime_langgraph.py:1697-1698 | under that condition the output is cut at the first call the log never answers, and not at all if it answers every one |
| Migration.KeptAnswered | src/claudebox/agent_session/runtime_langgraph.py:1681-1698 | a call kept is answered in the output if and only if the log answers it before the cut |
| Migration.EventsToMessages | src/claudebox/agent_session/runtime_langgraph.py:1614-1700 | the loop over the events, and the cut before the earliest call still open |
| Migration.Least | src/claudebox/agent_session/runtime_langgraph.py:1698 | the minimum of the open calls' positions |
| SingleFlight.StepInv | src/claudebox/core/concurrency.py:40-70 | every step keeps counts, table and key map consistent |
| SingleFlight.CallersCounted | src/claudebox/core/concurrency.py:57-66 | over every interleaving `callers` is the number of waiting calls, each waits on a job for its own key, none on one told to cancel, and a key has at most one joinable job |
| SingleFlight.CancelledOnlyWhenDeserted | src/claudebox/core/concurrency.py:61-66 | a job is told to cancel if and only if its last caller leaves before it is done |
| SingleFlight.SettledIsLeftAlone | src/claudebox/core/concurrency.py:60-70 | a job that has settled is never told to cancel, and once its callback has run nobody joins it |
| SingleFlight.NeverJoinedAfterCancel | src/claudebox/core/concurrency.py:64-66 | a job told to cancel is never waited on again |
| SingleFlight.OneJobServesTheKey | src/claudebox/core/concurrency.py:46-57 | a call for a key with a joinable job starts none and waits on that one |
| SingleFlight.CallIsServed | src/claudebox/core/concurrency.py:46-59 | a call waits on the one job on hand for its key or, if there is none, on a fresh one of its own, and no other call is moved |
| WorkspaceLoads.StepInv | src/claudebox_daemon/domain/service.py:254-325 | every step keeps loads, builds and evictions consistent |
| WorkspaceLoads.OneBuildPerWorkspace | src/claudebox_daemon/domain/service.py:288-306 | at most one build per workspace is under way, and any lookup meanwhile joins it |
| WorkspaceLoads.LookupServes | src/claudebox_daemon/domain/service.py:288-306 | a lookup joins the one load of its workspace that is registered; without one it gets the cached service if that is current and begins a load otherwise; whatever it gets is its own workspace's |
| WorkspaceLoads.StoredIsServed | src/claudebox_daemon/domain/service.py:297-321 | a service that was stored is what lookups get from its load's callback on, while it is current and neither replaced nor evicted; once it is not current a lookup builds anew |
| WorkspaceLoads.LoadConcludes | src/claudebox_daemon/domain/service.py:308-321 | when a load has stored or failed its callback can run, and then a lookup gets what is cached if it is current, or begins anew; a failed load leaves the map as it was |
| WorkspaceLoads.EvictionPops | src/claudebox_daemon/domain/service.py:254-263 | an eviction pops at once if no load of its workspace is under way and else when that one has concluded, and takes away that service alone |
| WorkspaceLoads.BuildOutlivesItsCallers | src/claudebox_daemon/domain/service.py:288-292 | whatever callers and evictions do, a build goes on and stays joinable until it stores or fails by itself |
| WorkspaceLoads.EvictionSticks | src/claudebox_daemon/domain/service.py:254-260 | once an eviction has popped, no service whose build began before it is in the map or still to come |
| WorkspaceLoads.LookupAfterEviction | src/claudebox_daemon/domain/service.py:81-94 | a later lookup gets an outdated service if and only if an older finished load is still registered, its callback not yet run |
| WorkspaceLoads.LookupInTheWindow | src/claudebox_daemon/domain/service.py:294-295 | a run that reaches that window |
| Followers.StepInv | src/claudebox_cli/cmd_logs.py:291-392 | every step keeps handles owned by attached containers and notices in step with attachment |
| Followers.NoticesAlternate | src/claudebox_cli/cmd_logs.py:342-383 | over every run followed containers are attached, and each id's notices strictly alternate, "stopped" first exactly for the seeded |
| Followers.ReconcileAligns | src/claudebox_cli/cmd_logs.py:309-328 | after a successful reconcile attached and followed are both exactly the servable containers |
| Followers.ReconcileKeepsFollowers | src/claudebox_cli/cmd_logs.py:309-383 | a reconcile keeps the follower of every servable container that has one, starts exactly one for each that has none, replaying history only where the container was not attached, and cancels exactly the followers of the others |
| Followers.OneLiveFollower | src/claudebox_cli/cmd_logs.py:342-392 | over every run a container has at most one follower that runs and was not told to stop, and that one's handle is kept |
| Followers.EndedIsReopened | src/claudebox_cli/cmd_logs.py:342-392 | a stream that ended by itself is forgotten by its callback and opened again by the next reconcile that finds its container servable, by one new follower, without history and without a notice |
| Followers.ForgetRemovesExactly | src/claudebox_cli/cmd_logs.py:385-392 | a finished follower's callback, however late, removes its own entry and nothing else |
| Followers.SeedInv | src/claudebox_cli/cmd_logs.py:300-307 | seeding attaches and follows exactly the listed containers, silently |
| Followers.StopAllInv | src/claudebox_cli/cmd_logs.py:323-324 | stopping what left the list detaches exactly that |
| Followers.StartAllInv | src/claudebox_cli/cmd_logs.py:326-328 | starting the list attaches and follows exactly that as well |
| Followers.ContainerFollowers.Seed | src/claudebox_cli/cmd_logs.py:300-307 | starts a follower for each, without notices |
| Followers.ContainerFollowers.Reconcile | src/claudebox_cli/cmd_logs.py:309-328 | detaches what is not servable, in any order, then attaches what is |
| Followers.ContainerFollowers.StopEach | src/claudebox_cli/cmd_logs.py:323-324 | stops each container of a set once |
| Jsonl.ReadFromComposes | src/claudebox/core/io.py:147-178 | reading, appending any bytes and reading on from the returned offset gives the records and offset of one read of the final file |
| Jsonl.ReadFromStart | src/claudebox/core/io.py:147-151 | reading from 0, plus an unterminated last line's record if it has one, is what `read_jsonl` yields |
| Jsonl.RepairKeepsCompleteLines | src/claudebox/core/io.py:219-256 | repair leaves the file empty or newline-terminated, keeps every byte through the last newline, and is idempotent |
| Jsonl.AppendDecodesAlone | src/claudebox/core/io.py:54-61 | on a newline-terminated file the next append adds exactly its own line's records |
| Jsonl.LineYields | src/claudebox/core/io.py:128-144 | wherever a line stands it yields its record if it parses; if it does not, whatever can be recovered from it when it is terminated, and nothing when it is the unterminated last |
| Jsonl.ReturnsEndLines | src/claudebox/core/io.py:133 | in text mode a return ends a line like a newline, and the two together end just one |
| Jsonl.OffsetsSurviveRepair | src/claudebox/core/io.py:219-256 | reading on after a repair from any offset up to the last line's start gives the records it gave before, then the completed line if there is one, and ends at the file's end |
| Jsonl.ReadOnAfterRepair | src/claudebox/core/io.py:219-223 | reading on after a repair yields the completed line, if there is one, and nothing else |
| Jsonl.RepairKeepsRecords | src/claudebox/core/io.py:247-256 | repair changes nothing that `read_jsonl` yields if and only if the torn tail is an object or does not decode |
| Jsonl.TailIsSuffix | src/claudebox/core/io.py:181-216 | for any chunk size and limit the tail reader returns a suffix of what `read_jsonl` yields |
| Jsonl.TailIsLastLines | src/claudebox/core/io.py:181-216 | without blank lines and for a limit of at least 1 it is exactly the records of the last lines, an unterminated one included |
| Jsonl.LimitZeroKeepsAll | src/claudebox/core/io.py:202-204 | limit 0 keeps every line that was read |
| Jsonl.ReadJsonlTail | src/claudebox/core/io.py:181-216 | the reader itself: for any chunk size a suffix of the whole file's records and, without blank lines and for a limit of at least 1, exactly those of the last lines |
| Jsonl.Gather | src/claudebox/core/io.py:205-216 | the loop over the kept lines |
| Jsonl.ReadTail | src/claudebox/core/io.py:274-285 | for any chunk size, a suffix of the file with more than `limit` newlines, or the whole file |
| Jsonl.FindLastLineStart | src/claudebox/core/io.py:259-271 | for any chunk size, the offset past the file's last newline |
| Jsonl.RFind | src/claudebox/core/io.py:266 | the last newline of a chunk, or -1 |
| Jsonl.LogFile.Repair | src/claudebox/core/io.py:219-256 | completes an object that lost its newline, truncates anything else |
| Jsonl.LogFile.ReadOn | src/claudebox/core/io.py:147-178 | the incremental reader's loop over complete lines |
| FileStamps.SettledStampProves | src/claudebox/core/file_cache.py:15-18 | if a settled stamp compares equal again, the file was not written in between |
| FileStamps.SafeExactly | src/claudebox/core/file_cache.py:38-55 | an entry, stamped before a callback and read at its end, is never returned stale if and only if the stamp's tick was over when it was read, or there was no file then |
| FileStamps.SafeExactlyIfStoredSettled | src/claudebox/core/file_cache.py:46-50 | for a callback that takes no time: if and only if the stored stamp was settled, or there was no file |
| FileStamps.StaleHit | src/claudebox/core/file_cache.py:49 | otherwise a same-size write in the same tick, or the file's removal, leads to a stale hit |
| FileStamps.WriteDuringCallbackMisses | src/claudebox/core/file_cache.py:38-55 | a write during the callback makes the settled entry miss |
| FileStamps.HitsAreFresh | src/claudebox/core/file_cache.py:32-55 | over every run of lookups and writes a hit on an entry that was read after its stamp's tick returns what is there now |
| FileStamps.UnsoundGoesStale | src/claudebox/core/file_cache.py:49-53 | and wherever a run stores another entry, a continuation of it makes the entry a stale hit |
| FileStamps.LookupHits | src/claudebox/core/file_cache.py:38-55 | a lookup returns the stored value if and only if there is no file as then, or the file agrees with the stamp and was last written over two seconds ago; else the callback runs under the stamp of now and what it reads is stored |
| FileStamps.UsesEvolve | src/claudebox/core/file_cache.py:38-55 | lookups and callbacks leave the file alone |
| FileStamps.FileCache.Get | src/claudebox/core/file_cache.py:38-55 | a hit returns the stored value and changes nothing, a miss stores the fresh one |
| FileStamps.FileCache.Retain | src/claudebox/core/file_cache.py:57-63 | keeps exactly the entries of the given paths |
| FileStamps.NoWriteLost | src/claudebox/core/polling.py:88-110 | when a poll that sampled the file settled has completed, a write it had sampled is unreported if and only if a poll that had sampled one was cut short since `_on_changed` last ran |
| FileStamps.CutShortIsForGood | src/claudebox/core/polling.py:98-110 | once the poll that sampled a write settled is cut short, nothing but another write makes the watcher report it |
| FileStamps.AnyWriteCanBeLost | src/claudebox/core/polling.py:55-66 | for any file and any write to it there is a run with one cut-short poll after which it is never reported until the next write |
| FileStamps.PollReacts | src/claudebox/core/polling.py:91-106 | a poll reacts at once to a stamp that has changed, settled or not, and else exactly when the file has settled since the stamp in hand; not to a file that is gone |
| FileStamps.PollingGoesOn | src/claudebox/core/polling.py:55-66 | a poll that has found something ends with its reaction or is cut short, and the next may follow either way |
| FileStamps.FewReports | src/claudebox/core/polling.py:100-104 | a file that nobody writes is reported at most once for its change and once more when it has settled, however long it is polled |
| FileStamps.MtimeWatcher.SyncWatches | src/claudebox/core/polling.py:77-86 | watches exactly the given paths; those already watched keep their stamp |
| PathResolver.PrunedWalkIsFilteredWalk | src/claudebox_container_api/files/path_resolver.py:196-222 | the pruned walk finds, in the same order, exactly the files of the full walk with no ignored ancestor and not ignored themselves |
| PathResolver.IndexAnswers | src/claudebox_container_api/files/path_resolver.py:98-128 | on a current index a lookup gives the brute-force answer over the whole tree |
| PathMeaning.PartsSplit | src/claudebox_container_api/files/path_resolver.py:111-118 | a slash separates parts, and a name without one is a part unless it is empty or a dot |
| PathMeaning.NameAnswers | src/claudebox_container_api/files/path_resolver.py:111-128 | a bare name means the one visible file of that name, and nothing if there is none or more than one |
| PathMeaning.PathAnswers | src/claudebox_container_api/files/path_resolver.py:111-128 | a path of several parts means the one visible file of that name whose path ends in it; if all before the name is empty or dots, the name alone decides |
| PathMeaning.AbsoluteAnswers | src/claudebox_container_api/files/path_resolver.py:82-108 | an absolute path stands for itself if it exists; with a temp directory `/tmp` and what is under it stand for that |
| PathMeaning.RelativeAnswers | src/claudebox_container_api/files/path_resolver.py:82-86 | a relative candidate is no matter of the temp directory |
| PathMeaning.BatchAnswers | src/claudebox_container_api/files/path_resolver.py:61-75 | a batch maps every stripped candidate that is not blank to its answer, unless it has none or an empty one |
| PathMeaning.WalkFinds | src/claudebox_container_api/files/path_resolver.py:196-222 | the walk finds exactly the files to which directories lead that are neither excluded nor ignored and that are not ignored themselves |
| PathResolver.SuffixesAmong | src/claudebox_container_api/files/path_resolver.py:117-118 | the filter keeps exactly the paths that end in the candidate's text |
| PathResolver.CleanedExactly | src/claudebox_container_api/files/path_resolver.py:61 | exactly the candidates that are not blank are resolved, stripped |
| PathResolver.WalkingIsBounded | src/claudebox_container_api/files/path_resolver.py:185-194 | eleven times the walking done before the latest rebuild fits into the time since the first, and rebuilds come at most once a minute |
| PathResolver.AddDirectory | src/claudebox_container_api/files/path_resolver.py:196-222 | the walk's loop with in-place pruning indexes exactly the files of the pruned walk, in order |
| PathResolver.AddFiles | src/claudebox_container_api/files/path_resolver.py:214-220 | one directory's files that are not ignored, each under its name |
| PathResolver.Resolver.FreshIndex | src/claudebox_container_api/files/path_resolver.py:172-183 | a held index is current, is given out within its lifetime, and is not given out after it |
| PathResolver.Resolver.GetFileIndex | src/claudebox_container_api/files/path_resolver.py:141-170 | a current index after at most one rebuild, spaced as the bound needs |
| PathResolver.Resolver.Rebuild | src/claudebox_container_api/files/path_resolver.py:158-170 | clears the answers, walks, times the walk and stamps after it |
| PathResolver.Resolver.BuildIndex | src/claudebox_container_api/files/path_resolver.py:196-222 | the index of the whole workspace |
| PathResolver.Resolver.ResolveUncached | src/claudebox_container_api/files/path_resolver.py:98-128 | the brute-force answer |
| PathResolver.Resolver.ResolveCandidate | src/claudebox_container_api/files/path_resolver.py:79-96 | the same through the answer cache, temp paths by joining |
| PathResolver.Resolver.Resolve | src/claudebox_container_api/files/path_resolver.py:55-75 | after any earlier calls and under any clock a batch maps exactly the candidates with an answer to the brute-force one, and one of absolute and temp paths alone costs no walk |
| PathResolver.Resolver.ResolveEach | src/claudebox_container_api/files/path_resolver.py:67-75 | the batch's loop |
| Glob.GlobToRegex | scripts/python-guidelines-audit.py:17-42 | the scan emits the compiled tokens |
| Glob.CompilesBySegment | scripts/python-guidelines-audit.py:23-38 | where `**` is always a whole segment the scan is a segment-by-segment translation |
| Glob.MatchMeans | scripts/python-guidelines-audit.py:17-42 | the translated tokens match a path without newlines exactly when its segments match the glob's |
| Glob.GlobMeaning | scripts/python-guidelines-audit.py:17-42 | the emitted expression matches exactly the paths whose segments match the glob's |
| Glob.LostPathsExactly | scripts/python-guidelines-audit.py:18 | of the newline-free paths the documented meaning gives, the expression loses exactly those that the glob without its closing `**` matches as a whole and of which it matches no proper beginning |
| Glob.ClosedMeans | scripts/python-guidelines-audit.py:27-29 | with a closing `**` the compiled meaning takes exactly the paths of which the documented meaning of the rest takes a proper beginning |
| Glob.DocumentedExactly | scripts/python-guidelines-audit.py:18 | the documented meaning holds of all newline-free paths if and only if the glob does not end in `**` after another segment, or holds a newline itself |
| Glob.SameUnlessClosed | scripts/python-guidelines-audit.py:24-29 | the compiled and the documented meaning are the same when `**` is not last |
| Glob.ClosingStarsAdd | scripts/python-guidelines-audit.py:27-29 | a closing `**` as documented adds what matches without it |
| Glob.ALostPath | scripts/python-guidelines-audit.py:27-29 | for every such glob, a path that is lost |
| Glob.InnerStarsCrossSlashes | scripts/python-guidelines-audit.py:27-29 | closing a segment that does not end in `*`, `**` takes anything after what the segment matches, slashes included; as a wildcard of the segment it would take exactly what has none |
| Glob.PlainCompiles | scripts/python-guidelines-audit.py:30-38 | a segment without `**` compiles to its own tokens whatever follows |
| Glob.TokensToStretch | scripts/python-guidelines-audit.py:30-38 | what a segment's tokens match lies inside one path segment |
| Glob.StretchToTokens | scripts/python-guidelines-audit.py:30-38 | and every such stretch is matched |
| Dispatch.CheckDispatch | scripts/python-guidelines-audit.py:235-257 | reports exactly the beginnings of runs of two or more return-ifs closed by a return, once each, in order |
| Dispatch.RunEndsOnce | scripts/python-guidelines-audit.py:244-255 | skipping past a run skips no other run's beginning |
| Merge.Merge | src/claudebox/core/structures.py:33-52 | the loop is a left fold of the pairwise merge |
| Merge.MergeSource | src/claudebox/core/structures.py:43-50 | one source's keys, in any order, give the pairwise merge |
| Merge.OverEmpty | src/claudebox/core/structures.py:43-48 | merging into nothing copies, so the nested merge's copy of its first table is harmless |
| Merge.EmptyOver | src/claudebox/core/structures.py:41-50 | an empty source changes nothing |
| Merge.LayersOnTop | src/claudebox/config.py:111-138 | merging a bundle over the merged configuration is one merge with the bundle last |
| Merge.OverLeaf | src/claudebox/core/structures.py:43-50 | at each path the upper table decides if it touches the path, else the lower |
| Merge.LastSourceDecides | src/claudebox/core/structures.py:33-34 | at each path the last source that touches it decides |
| Merge.AssociativeExactly | src/claudebox/core/structures.py:33-52 | merging is associative if and only if no scalar in the middle hides a table that the top table does not cover |
| Merge.AbsorbedExactly | src/claudebox/core/structures.py:43-50 | a table under another adds nothing if and only if all its keys are covered, all the way down |
| Merge.CompatibleAssociates | src/claudebox/core/structures.py:33-52 | so it is associative when no path is a table in one source and a scalar in another |
| Merge.GroupingMatters | src/claudebox/core/structures.py:46-50 | three sources for which it is not |
| Tasks.ReplayRebuilds | src/claudebox/agent_session/_tasks.py:205-291 | replaying a session's log, unknown ids and foreign entries included, gives the same ids and next id, and the same store up to timestamps if and only if the output tool never hit a task with output; otherwise only outputs differ, by having grown |
| Tasks.CallTracks | src/claudebox/agent_session/_tasks.py:236-291 | each call and the replay of its entry have the same effect, except the output tool's on a task with output |
| Tasks.ReadOutputIsReplayedAsAppend | src/claudebox/agent_session/langgraph_tools/task_mgmt.py:73-80 | a task whose output is read comes back with a newline it never had |
| Tasks.ToolsAloneRebuild | src/claudebox/agent_session/langgraph_tools/task_mgmt.py:39-117 | with the six tools alone, which append nothing, replay always rebuilds the store |
| Tasks.IdsAreDense | src/claudebox/agent_session/_tasks.py:100-117 | ids are exactly 1 to the next id less one, each task under its own |
| Tasks.BlockedByAccumulates | src/claudebox/agent_session/_tasks.py:149-152 | blockers are strictly ascending and exactly all those ever added to the task |
| Tasks.SortedUnion | src/claudebox/agent_session/_tasks.py:149-152 | the new blockers are ascending and hold exactly the old and the added |
| Tasks.AscendingIsUnique | src/claudebox/agent_session/_tasks.py:152 | an ascending sequence is determined by its elements, so that union is the sorted set |
| Tasks.OutputIsJoinedChunks | src/claudebox/agent_session/_tasks.py:160-172 | output is the newline join of the appended chunks after leading empty ones |
| Tasks.FieldIsLastGiven | src/claudebox/agent_session/_tasks.py:88-158 | status, subject, description and active form are each what the last call to give one said: the creation, an update or a stop |
| Tasks.TimesAreKept | src/claudebox/agent_session/_tasks.py:90-172 | a task bears the time and the parent of the call that created it and the time of the last call to touch it |
| Tasks.TasksOnlyGrow | src/claudebox/agent_session/_tasks.py:119-172 | later calls take away no task, creation time, blocker or output |
| Tasks.TaskService.UpdateTask | src/claudebox/agent_session/_tasks.py:119-158 | the given fields replaced, blockers merged; an unknown id is reported and changes nothing |
| Tasks.TaskService.Append | src/claudebox/agent_session/_tasks.py:160-172 | the chunk joined on; an unknown id is reported and changes nothing |
| Tasks.TaskService.RebuildFromEvents | src/claudebox/agent_session/_tasks.py:205-291 | the replay loop over the log, entries without an integer id passed over |

## Left out

- ClaudeQueue.StepInv: a second `connect` without a `disconnect`, and a `disconnect` while a connect is under way, are no steps; the one caller connects once and lets a cancelled connect unwind before it disconnects (src/claudebox/agent_session/orchestration/session.py:311, 332-334). A change being applied at a disconnect has its future left to its timeout, as in the code.
- ClaudeQueue.DrainCompletes: about drains that nobody disconnects and in which no apply raises anything but a refusal; both are steps of the model.
- TurnRuns.TurnsReadWell: the reader closing the generator in the middle of a turn, a turn boundary whose recording raises, and a turn begun on a runtime that was disconnected, are not modelled.
- Migration.EventsToMessages: tool arguments, attachment encoding and the list of echo markers are uninterpreted; a missing id and an empty one are not told apart.
- WorkspaceLoads.DaemonService.LoadWorkspace: one step serves `get_workspace` and `_load_workspace`, whose tests agree; config reload, registration and `stop()` are left out.
- Followers.ContainerFollowers.Reconcile: the container list is a list of ids; `cancel_all`, which ends the supervisor, is left out.
- Jsonl.TailIsSuffix: on files without carriage returns, which text mode rewrites; UTF-8 errors and the once-per-process damage report are left out.
- Jsonl.LogFile.ReadOn: a missing file, from which every reader returns nothing, is left out.
- FileStamps.NoWriteLost: one watched file, with change times that lag a write by at most the settle window and never run backwards.
- PathResolver.Resolver.Resolve: the file system does not change and a saved index is not stale; other threads waiting for the index lock, and saving the index, are left out.
- PathResolver.WalkingIsBounded: whole milliseconds of a monotone clock; float rounding is left out.
- Merge.Merge: the order of a table's keys and the identity of nested dictionaries are left out.
- Tasks.ReplayRebuilds: calls are those that reached the store; a tool use logged but refused before it ran is replayed by the code and not modelled here.
- Tasks.ToolsAloneRebuild: an entry holds the id that reached the store, where the log holds the model's raw arguments; an id sent as `"1"` that the tool layer turns into 1 reaches the store, and the replay passes its entry over.
- The unkeyed `SingleFlight`: the keyed one without counts or cancellation.
- `_fire_*_changed` and `_stream_container` with its bounded history: single-branch facts.
- The search inside a damaged JSONL line, JSON and UTF-8 decoding, SSE framing and gitignore matching: uninterpreted.
- The CLI, handlers, frontend, health pollers, provider tables and container management: glue without deep invariants.
