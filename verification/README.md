# pantoken: a verified model of its hardest parts

Pantoken drives coding agents from a browser. A hub journals each session's events and ships them to clients that
fold them into a transcript; clients reconnect, resume, stop turns and navigate on a phone; several agents land
their work on one main branch. This project models those protocols in Dafny and proves what they keep over every
run, and, where the code does not keep what its comments or tests promise, shows an input on which it fails and the
exact condition under which it holds.

`dafny verify dfyconfig.toml` checks everything.

| files | part of the system |
|---|---|
| `Logs`, `Runs` | folding and compacting event logs; runs of state machines, for any events and states |
| `Transcript`, `Reset`, `Retention` | the client's session fold, `sessionReset`, bounded subagent transcripts |
| `Rows`, `NestedRows` | what a session's and a subagent's transcript shows, said of the log alone |
| `MetaSeed`, `MetaAgree` | the hub's own metadata fold, the seed of a restarted journal, and when hub and client agree |
| `Coalesce`, `NestedLimits`, `NestedMerge`, `Streams` | merging adjacent events, exactly when the merge preserves the fold, and compacting whole logs |
| `Journal`, `Resume`, `Hub` | the session journal and the `{epoch, seq}` resume protocol, end to end |
| `MergeLock`, `MergeRuns`, `MergeWaits` | the merge lock, who integrates and who waits |
| `MergeViews`, `MergeLands`, `MergeNames`, `MergeExits` | what any number of integrating processes do to main, the origin and the workspaces |
| `Overlay`, `OverlayRuns`, `OverlayCallbacks` | phone overlays and browser history |
| `StopTurn` | stopping a turn and giving the prompt back |
| `Observer` | the navigation observer of the image tests |
| `Noise` | the xorshift noise image |
| `Slots`, `Listeners`, `Storage` | event dispatch over a live listener set, and the localStorage mock |
| `Contrast`, `Wheel` | luminance and contrast; the wheel events of a scroll |

## What turned out false, and exactly when it holds

- The merge lock lies at the root of the process, which by default is that of its own workspace. Two agents in workspaces
  of their own find no lock and integrate at once (`TwoRoots`, `TwoRootsReached`). At most one process integrates
  throughout a run if and only if none enters while a lock at any root names a living one (`MergeRuns.ExclusiveRuns`). With
  one root for all that still fails when a takeover, which reads the lock and overwrites it in two steps, overwrites the
  lock of a living process, and only then (`SharedRootRuns`, `TwoTakeOver`).
- Whoever fails between rebase and bookmark move, or is signalled later, restores the whole repository. With two agents
  integrating at once, a failed gate takes the other's commit off main and back into its workspace, published or not
  (`FailedGateTakesBack`); between the other's bookmark move and its push, the other then reports success with nothing
  published (`SuccessWithoutLanding`, `BothHoldReached`). Exactly when each promise holds, over every run: what was once on
  main stays there unless a restore goes back to a main captured without it (`StaysOnMain`, `KnowingRuns`); what is pushed
  is what was landed unless the push comes after such a restore (`PublishedRuns`); no commit is in a workspace and published
  unless a restore brings it back (`OnceRuns`); and a restore leaves a workspace alone if and only if nothing was put there
  since, or what was there before (`RestoreSparesExactly`). The commit that lands names its process's issue as long as no
  commit for another issue is written, or brought back by such a restore, under a living process (`NamedRuns`).
- A journal that restarts on `sessionReset` is seeded from the hub's metadata, and the hub's reducer does not read
  subagent handles. A subagent's snapshot, which its driver sends as `sessionUpdated` and which no client applies to the
  session, therefore comes back to the session in that seed (`NestedSnapshotInSeed`). The seed means what folding the
  reset means if and only if the reset is the session's own, a snapshot of its own has named the session, and every
  metadata field has the same last writer with and without the events no client follows (`RestartExact`).
- A resume token that the ring no longer covers is answered with its session's seed while the focus moves to the hub's
  default session. Nothing more of the session is then sent, through any run, until the client opens it or reconnects, if and
  only if the ring did not cover the token and the session is not the default (`SilentExactly`, `KeepsUpExactly`).
- Merging adjacent deltas is called fold-equivalent. On a subagent's stream it is, if and only if the open bubble outlives
  the first delta and the merged delta leaves no more items than the first, or the bubble outlives neither and the second
  delta's own would not fit, or one corner case in which it outlives only the merged one (`DeltaMergeExact`); a log is compacted
  faithfully throughout if and only if every merge made is so (`CompactionExact`). A tool
  started with a large payload and 8000 streamed characters are enough to lose text (`OverBudgetLog`).
- A commit lands on the main its gate ran on if and only if that is still main when it lands (`GatedExactly`). The retry of
  the bookmark move lands over newly fetched commits ungated (`UngatedLanding`), and a commit whose rebase another's restore
  has undone lands on an older main than its gate ran on (`LandsBelowItsGate`), unless jj refuses to work in that workspace.
  A signal after the bookmark move takes off main what its process landed, even after the push (`LateSignalFallsBehind`).
- The half hour a conflict keeps others out counts from when the process began to wait, so a lock can be born stale
  (`BornStale`), and it keeps nobody out who is between reading and overwriting a lock (`KeepsOutExactly`). Exit 2 means
  the lock is held unless the local gate itself exited 2 (`ExitHoldsLock`). Exit 0 can mean that a commit is on local
  main only (`RerunHidesFailedPush`).
- An out-of-order close is said to cost one extra Back at worst. It costs one for each (`BacksToLeave`). Opening the
  other phone view while an owned Back is under way can show both: if and only if a view stays open beneath
  (`OverlayRuns.ExclusiveRuns`).
- A prompt is not withheld for a draft that was there at Escape, only for one that is there when the stop is accepted
  (`RestoresExactly`, `ClearedDraftIsFilled`). A stop tried in another session cuts the confirmation timer of a stop under
  way if it cannot be sent (`TimedRuns`, `TimerCut`). Every control that stops a turn is disabled while the page shows it is
  offline, so this takes a socket that has closed in the moment before the page shows it.

Three more failures need an event that its type lets carry a subagent handle but that no driver in the repository sends
with one. `usageUpdated` events of two streams merge and the earlier is lost, soundly if and only if it told the session
nothing new (`UsageMergeExact`). A dialog of a subagent's stream joins the session's dialogs, and a `hostUiResolved`
leaves it pending if and only if that came on a subagent's stream too (`ResolvedExactly`). A nested `sessionReset` makes
the hub drop the session's own transcript (`NestedResetDropsTranscript`).

The client's fold follows `protocol/src/state.ts`, the hub's follows `server/pantoken-protocol/src/state.rs`, which
differs in metadata as said and keeps empty status lines. `scripts/README.md` says the integration rebases onto
`main@origin`, runs `pnpm run test` and more; the model follows the script, which rebases onto local main when that is
ahead and runs one local gate.

## Model

| member | source | states |
|---|---|---|
| Logs.CoalesceEvents | server/pantoken-server/src/journal.rs:281-287 | the loop computes the compaction of the whole log |
| Logs.CoalesceOverCut | server/pantoken-server/src/journal.rs:186-204 | compacting a compacted prefix with the rest of the log equals compacting the log, wherever the cut fell |
| Logs.CoalesceSound | server/pantoken-server/src/journal.rs:206-287 | for any events: if merging two neighbours preserves the fold, compacting every calm log does |
| Logs.CoalesceExactly | server/pantoken-server/src/journal.rs:206-287 | for any events and every log: after each event the compacted log means what the log does if and only if every merge made meets the exact condition for a pair |
| Coalesce.TryMergeKeepsNeighbours | server/pantoken-server/src/journal.rs:238-278 | two events that do not merge still do not after the second has absorbed its successor |
| Coalesce.TryMergeExactly | server/pantoken-server/src/journal.rs:238-278 | exactly which events merge, and what they become |
| Coalesce.MergePair | server/pantoken-server/src/journal.rs:206-278 | whatever the sizes, folding the merge is folding both events for deltas that need no eviction, and for usage of one stream over any budget |
| Coalesce.NestedUsageMerge | server/pantoken-server/src/journal.rs:272-275 | usage events of one nested stream merge soundly on every state |
| Coalesce.UsageMergeExact | server/pantoken-server/src/journal.rs:272-275 | usage events of different streams merge, and soundly if and only if the earlier one was redundant |
| Coalesce.UsageMergeLosesTopLevel | server/pantoken-server/src/journal.rs:272-275 | a concrete log whose merge loses the session's own usage |
| Coalesce.TopLevelIsCalm | server/pantoken-server/src/journal.rs:206-212 | every log without subagent events meets the hypothesis of the compaction theorem |
| Coalesce.SessionCoalesce | server/pantoken-server/src/journal.rs:8-9 | for every condition under which pairs merge soundly, a compacted log whose events meet it folds to the same session |
| Coalesce.BudgetMerging | server/pantoken-server/src/journal.rs:280-287 | needing no eviction is such a condition, whatever the sizes |
| Streams.LivingMerging | server/pantoken-server/src/journal.rs:280-287 | so is that the open bubble fits beside the tools in flight and does not shrink in a truncated stream, over any budget |
| Streams.StreamCoalesce | server/pantoken-server/src/journal.rs:8-9 | under that condition compaction preserves the session however far its streams run over their budgets |
| Streams.CompactionExact | server/pantoken-server/src/journal.rs:8-9 | for every log, over any budget: after each event the compacted log folds to the session of the log if and only if every merge made meets the exact condition on its deltas or usage |
| Streams.BudgetFits | protocol/src/state.ts:291-309 | a delta within the budget of an untruncated stream always meets it |
| NestedLimits.OverBudgetMergeDiverges | protocol/src/state.ts:275-311 | over any tools in flight, deltas beyond the budget leave different transcripts merged and unmerged |
| NestedLimits.OverBudgetLog | protocol/src/state.ts:275-311 | a log of three events that does, for every size no less than the characters |
| NestedMerge.DeltaMergeExact | server/pantoken-server/src/journal.rs:245-271 | for every state and any two nested deltas that merge, folding the merge is folding both if and only if a condition on what fits beside the tools in flight holds |
| NestedMerge.ArraysShrink | protocol/src/state.ts:271-273 | the size the source takes, the length of a JSON array, meets the one hypothesis on sizes |
| NestedMerge.Survives | protocol/src/state.ts:291-309 | retention keeps the open bubble if and only if it fits beside the tools in flight |
| NestedLimits.NestedDialogSticks | protocol/src/state.ts:333-346 | a subagent's dialog appears among the session's and outlives its resolution on the subagent's stream |
| NestedLimits.ResolvedExactly | protocol/src/state.ts:333-346 | a resolution leaves its dialog pending if and only if it came on a subagent's stream and the dialog was pending |
| NestedLimits.ResolvedIsGone | protocol/src/state.ts:614-619 | resolving removes that dialog and leaves every other |
| Reset.LogSplits | protocol/src/state.ts:323-656 | for every log, transcript and session metadata fold independently of each other |
| Reset.ResetReplaces | e2e/sessions.e2e.ts:472-502 | for every log around a reset: the transcript is that of the suffix alone, and the rest is as if there had been no reset |
| Reset.LogWellformed | protocol/src/state.ts:323-656 | after every log at most the last item streams, in every transcript, and pending dialogs are distinct |
| Reset.TurnEndSettles | protocol/src/state.ts:255-269 | after every log, an authoritative turn end leaves no running tool and no streaming bubble |
| Rows.TranscriptFollows | protocol/src/state.ts:347-656 | for every log the transcript is, in order, the rows its own events since the last reset make: each prompt, injection, notice, bubble and tool card with every field as the log gives it |
| NestedRows.StatusFollows | protocol/src/state.ts:323-346 | for every log a subagent's stream is there if and only if mentioned, and its run status, replay status and reason are what the last event to set each says |
| NestedRows.BoundsExactly | protocol/src/state.ts:275-290 | bounding leaves the last characters of each text, up to its cap, and nothing else changes |
| NestedRows.PlaceholderExactly | protocol/src/state.ts:299-306 | what the placeholder of a tool in flight keeps |
| NestedRows.EveryStreamBudgeted | protocol/src/state.ts:275-311 | after every log every subagent's rows are within their caps and the budget, unless only tools in flight are left |
| NestedRows.StreamFollows | protocol/src/state.ts:333-346 | as long as they always were, the subagent's transcript is the rows its own events make |
| MetaSeed.SeedRoundTrip | server/pantoken-server/src/journal.rs:296-421 | both reducers fold the seed back to the metadata it was made from, a client's less empty status lines |
| MetaSeed.MetaSeedRoundTrip | server/pantoken-server/src/journal.rs:289-421 | a client that adopts the seed shows that metadata and an empty transcript |
| MetaSeed.SeedParts | server/pantoken-server/src/journal.rs:296-421 | the parts of a seed that no fold shows |
| MetaSeed.ServerMetaSeedable | server/pantoken-protocol/src/state.rs:326-700 | after every log the hub's metadata has the shape a seed can carry |
| MetaAgree.ClientFoldsVisible | protocol/src/state.ts:333-346 | for every log, the client's metadata is the hub's fold of the events a client follows |
| MetaAgree.LastWriterWins | server/pantoken-protocol/src/state.rs:332-386 | for every log and every field, the hub's metadata holds what the last writer wrote |
| MetaAgree.QueueFollows | server/pantoken-protocol/src/state.rs:456-476 | the queue is the last list given less what has started since |
| MetaAgree.DialogsStand | server/pantoken-protocol/src/state.rs:600-693 | the pending dialogs are, in order, each id's first request since it was last resolved |
| MetaAgree.AgreesExactly | server/pantoken-protocol/src/state.rs:326-700 | after every log, hub and client agree if and only if last writers, queue and dialogs do |
| Retention.InterruptRunningTools | protocol/src/state.ts:259-269 | the in-place loop settles exactly the running tools |
| Retention.StampLastEntryId | protocol/src/state.ts:235-253 | the in-place backward loop refines the stamp of the fold |
| Retention.StampsLast | protocol/src/state.ts:231-253 | the stamp lands on the last item of its kind and changes no other |
| Retention.EvictToBudget | protocol/src/state.ts:291-309 | the eviction loop computes the retention of the fold |
| Retention.FoldEvents | protocol/src/state.ts:659-665 | the loop folds the whole log, which Rows.TranscriptFollows and MetaAgree.LastWriterWins say in full |
| Retention.RetainKeepsInFlight | protocol/src/state.ts:275-311 | bounding keeps every tool in flight, in order, and ends within budget unless only those are left |
| Retention.EvictsExactly | protocol/src/state.ts:291-309 | eviction takes the oldest items that are not tools in flight and stops as soon as the rest fits 65536 bytes |
| Retention.RetainIdempotent | protocol/src/state.ts:275-311 | bounding a nested transcript again changes nothing |
| Journal.SessionJournal.constructor | server/pantoken-server/src/journal.rs:64-74 | a new journal holds its seed, compacted, and an empty ring |
| Journal.SessionJournal.BumpEpoch | server/pantoken-server/src/journal.rs:76-86 | a restart forgets the log and holds the new seed |
| Journal.SessionJournal.AppendEvent | server/pantoken-server/src/journal.rs:145-168 | appends to the log under the next number and evicts no more than the caps require |
| Journal.SessionJournal.TailCovers | server/pantoken-server/src/journal.rs:170-184 | true if and only if every event after the watermark is still in the ring |
| Journal.SessionJournal.Replay | server/pantoken-server/src/hub.rs:1483-1513 | a covered watermark is sent exactly the missed events, in order, under their numbers |
| Journal.SessionJournal.BuildSeed | server/pantoken-server/src/journal.rs:186-192 | the seed is the compaction of seed and log, however much was evicted |
| Resume.EveryRunSound | client/src/lib/store.svelte.ts:1295-1310 | whatever is lost, repeated or reordered, the client shows the fold of a prefix of its journal, and the hub holds everything emitted |
| Resume.CurrentShowsEverything | server/pantoken-server/src/journal.rs:8-9 | a client at the watermark shows the fold of every event emitted |
| Resume.ResumeReplaysGap | e2e/reconnect.e2e.ts:169-234 | a connection is answered with a seed if and only if the ring does not cover its token and it has one or the session is the default; a covered token gets exactly the missed events in order |
| Resume.KeepsUpExactly | server/pantoken-server/src/hub.rs:1426-1440 | after any connection, with a token or without, the next event reaches the client if and only if the ring covered the token or the session is the default |
| Resume.SilentExactly | server/pantoken-server/src/hub.rs:1426-1440 | after a connection nothing more of the session is sent through any run, until the client opens it or reconnects, if and only if the ring did not cover the token and the session is not the default |
| Resume.AttachedExactly | server/pantoken-server/src/hub.rs:1426-1440 | for every run, by its labels: exactly when the client is connected, and connected with the session in focus |
| Resume.HeldExactly | server/pantoken-server/src/hub.rs:577-652 | exactly which events are held back, and that a merged one sends nothing |
| Resume.AsksExactly | client/src/lib/store.svelte.ts:1295-1310 | exactly when a client asks for a seed, and that frames of another build or after a gap are not folded |
| Resume.AnsweredShowsEverything | client/src/lib/store.svelte.ts:1295-1310 | whatever the network did, once the request is answered and the wire read, the client shows everything emitted |
| Resume.EveryRunOrdered | server/pantoken-server/src/hub.rs:529-576 | over an ordered connection the client never sees a gap, and a focused one is led to the watermark |
| Resume.CatchesUp | e2e/reconnect.e2e.ts:169-234 | over every ordered run of drops and reconnects a client that ends attached never needs to ask for a seed, and after a flush ends with everything |
| Hub.SessionHubLawful | server/pantoken-server/src/hub.rs:529-652 | the session's fold, merge and restart meet the laws the protocol theorems assume, for every sound condition on events |
| Hub.HubHolds | server/pantoken-server/src/hub.rs:529-616 | exactly which events the hub holds back, and exactly which start a new build |
| Hub.HubCatchesUp | server/pantoken-server/src/hub.rs:529-652 | end to end, for every sound condition on events: after reading the wire a focused client's session is the fold of the driver's whole event stream, resets included |
| Hub.SessionCatchesUp | server/pantoken-server/src/hub.rs:529-652 | so it is when each open bubble fits beside its tools in flight, however far the streams run over their budgets |
| Hub.BudgetCatchesUp | server/pantoken-server/src/hub.rs:529-652 | and, whatever the sizes, when no delta makes a stream evict anything |
| Hub.PlainSessionCatchesUp | server/pantoken-server/src/hub.rs:529-652 | for a session without subagents the same holds of every interleaving of events, resets, flushes, reloads, drops and reconnects |
| Hub.RestartExact | server/pantoken-server/src/hub.rs:532-558 | the restart means what the reset means if and only if it is top-level, the session is named and the last writers agree |
| Hub.RestartableExactly | server/pantoken-server/src/hub.rs:532-558 | the same condition is what the end-to-end theorem asks of a reset |
| Hub.NestedSnapshotInSeed | server/pantoken-server/src/hub.rs:540-545 | for any two snapshots, the seed after a reset carries the subagent's status where folding keeps the session's |
| Hub.ServerMerge | server/pantoken-server/src/journal.rs:238-278 | the hub's metadata never notices a merge |
| Hub.NestedResetDropsTranscript | server/pantoken-server/src/hub.rs:532-558 | a nested reset whose restart drops the session's own transcript |
| MergeLock.StepExcludes | scripts/integrate-into-main.sh:23-135 | a step keeps at most one process integrating if and only if none enters while a lock at any root names a living one |
| MergeLock.StepOwns | scripts/integrate-into-main.sh:66-135 | a step keeps each root's lock with the process integrating there if and only if it overwrites no living one's |
| MergeRuns.EveryRunNamesWorker | scripts/integrate-into-main.sh:66-135 | in every run each lock names a process of its root and session that integrates as long as it lives |
| MergeRuns.ExclusiveRuns | scripts/integrate-into-main.sh:23-29 | at most one live process integrates throughout a run if and only if none enters while a lock at any root names a living one |
| MergeRuns.OwnedRuns | scripts/README.md:49-59 | at each root at most one live process integrates, and the lock names it, throughout a run if and only if no takeover is unsafe |
| MergeRuns.SharedRootRuns | scripts/README.md:49-59 | when all processes share a root, that is at most one process in all |
| MergeRuns.TwoRoots | scripts/integrate-into-main.sh:23-29 | two processes with roots of their own and no lock there both integrate |
| MergeRuns.TwoRootsReached | scripts/create-workspace.sh:33-33 | two launches in two workspaces reach such a state |
| MergeRuns.AtomicTakeoversExclude | scripts/README.md:54-57 | with one root, and if deciding and writing were one step, at most one process would integrate in every run |
| MergeRuns.TwoTakeOver | scripts/integrate-into-main.sh:89-124 | from any state with a stale lock and two waiting processes both can end up integrating |
| MergeRuns.StaleLockReached | scripts/integrate-into-main.sh:108-124 | such a state is reachable at any root |
| MergeViews.EveryRunSound | scripts/integrate-into-main.sh:209-376 | in every run every workspace, now and in each captured operation, sits on an earlier main or on an origin that parted from main |
| MergeViews.LandsOnce | scripts/integrate-into-main.sh:260-376 | in every run, whatever is restored and however many integrate at once, no change is on main, on the origin or in a workspace's history twice |
| MergeViews.OnceRuns | scripts/integrate-into-main.sh:209-227 | no change is both in a workspace and on main, at the origin or in another workspace throughout a run if and only if no restore brings back a commit pushed since |
| MergeLands.OneCommitLands | scripts/README.md:36-47 | from every state, whoever else integrates: main changes by exactly one commit, by a fetch that brings it forward to the origin, or by a restore, and in no other way |
| MergeLands.GatedExactly | scripts/integrate-into-main.sh:342-376 | a commit lands on the main its gate ran on if and only if that is still main, after the retry's fetch where there is one |
| MergeLands.UngatedLanding | scripts/integrate-into-main.sh:352-376 | a commit fetched after the gate ran ends up under the landing without a gate having seen it |
| MergeLands.MainGrows | scripts/integrate-into-main.sh:170-239 | from every state a step keeps main growing if and only if it does not restore a main that is not ahead |
| MergeLands.StaysOnMain | scripts/integrate-into-main.sh:209-227 | what was once on main stays there through a run of any number of processes if and only if no restore goes back to a main captured without it |
| MergeLands.StaysAtOrigin | scripts/integrate-into-main.sh:378-390 | what was once at the origin stays there through every run |
| MergeLands.KnowingRuns | scripts/integrate-into-main.sh:241-390 | every process finds on main what it saw and landed, and at the origin what it pushed, throughout a run if and only if no restore goes back behind what another saw or landed |
| MergeLands.ExclusiveRunsKnow | scripts/README.md:49-59 | so it does in every run in which at most one process integrates |
| MergeLands.ExclusiveRunsOnce | scripts/README.md:49-59 | and there, without late signals, no change is ever in two places |
| MergeLands.LateSignalFallsBehind | scripts/integrate-into-main.sh:209-235 | a signal after the bookmark move takes off main what was landed if and only if the operation was captured without it; where nothing was taken back before it always does, and after a push leaves main behind the origin |
| MergeLands.PublishedRuns | scripts/integrate-into-main.sh:378-390 | what is pushed for a process is what it landed throughout a run if and only if no push comes after a restore has taken that off main |
| MergeLands.RestoreSparesExactly | scripts/integrate-into-main.sh:209-227 | whoever else integrates, a restore leaves a workspace alone if and only if nothing was written, rebased or landed there since the operation was captured, or what was put there last had been there |
| MergeLands.LineAfter | scripts/integrate-into-main.sh:209-376 | over every run a workspace changes by what is written, rebased, landed or restored there and by nothing else |
| MergeLands.RestoreForgets | scripts/integrate-into-main.sh:209-227 | after a restore nothing written since the operation was captured is on main or in a workspace |
| MergeNames.NamedRuns | scripts/integrate-into-main.sh:137-163 | the commits of living processes name their issues throughout a run if and only if none for another issue is written or restored under one |
| MergeNames.LandedNamesIssue | scripts/README.md:36-47 | in such a run every commit that lands names its process's issue |
| MergeExits.SuccessPublishes | scripts/integrate-into-main.sh:251-258 | from every state exit 0 follows the process's own push, or a fetch that left nothing of its workspace above main; main is then published if and only if it was before |
| MergeExits.ExitHoldsLock | scripts/integrate-into-main.sh:128-135 | every exit but a conflict releases the process's own lock, a gate's exit 2 too, and a kill releases nothing |
| MergeExits.ReleasesOnlyItsOwn | scripts/integrate-into-main.sh:128-135 | a process that ends leaves a lock of another process or session alone |
| MergeExits.ExitCodes | scripts/integrate-into-main.sh:229-390 | every exit code, by what ends the process |
| MergeExits.LaunchExactly | scripts/integrate-into-main.sh:137-163 | a launch waits if and only if its workspace has no commit above main or exactly one, naming the issue |
| MergeExits.RerunHidesFailedPush | scripts/integrate-into-main.sh:384-389 | after a failed push a rerun reports success and the commit stays local |
| MergeExits.HoldingReached | scripts/integrate-into-main.sh:137-168 | one commit and one launch reach the states these failures start from |
| MergeExits.FailedGateTakesBack | scripts/integrate-into-main.sh:335-340 | of two that integrate at once, one has landed, pushed and exited 0 when the other's failed gate takes its commit off main and back into its workspace |
| MergeExits.SuccessWithoutLanding | scripts/integrate-into-main.sh:335-340 | when that happens between bookmark move and push, success is reported with the repository unchanged |
| MergeExits.LandsBelowItsGate | scripts/integrate-into-main.sh:342-352 | a third whose rebase is undone with it lands on an older main than its gate ran on |
| MergeExits.BothHoldReached | scripts/create-workspace.sh:33-33 | two agents in workspaces of their own reach the states these runs start from |
| MergeExits.ThreeHoldReached | scripts/create-workspace.sh:33-33 | and so do three |
| MergeWaits.ConflictKeepsOthersOut | scripts/README.md:54-57 | until the session returns or the lock is 30 minutes old, through every run, nobody of that root integrates and main changes from elsewhere only |
| MergeWaits.KeepsOutExactly | scripts/README.md:54-57 | within its window an abandoned lock keeps everybody of its root out in every run if and only if nobody there is between reading and overwriting a lock |
| MergeWaits.ConflictKeepsLock | scripts/integrate-into-main.sh:295-301 | a conflict exit leaves the lock exactly as it was |
| MergeWaits.WindowIsExact | scripts/integrate-into-main.sh:108-124 | another session gets in if and only if the lock is then 30 minutes old |
| MergeWaits.TakesOverExactly | scripts/integrate-into-main.sh:75-125 | the whole decision table: a waiting process takes over if and only if the lock's process is dead and the sessions are the same and known or the lock is 1800 seconds old, and creates the lock if and only if there is none |
| MergeWaits.LockTold | scripts/integrate-into-main.sh:52-80 | what a created and an overwritten lock say |
| MergeWaits.ConflictReturns | scripts/README.md:54-57 | after a conflict a rerun of the same session gets in without a tick of the clock |
| MergeWaits.BornStale | scripts/integrate-into-main.sh:66-80 | a lock taken after half an hour of waiting keeps nobody out |
| MergeWaits.LongWaitReached | scripts/integrate-into-main.sh:66-80 | two launches and half an hour reach such a state |
| MergeWaits.CanAlwaysGetIn | scripts/README.md:49-57 | after every run a waiting process can enter within three steps, by waiting alone if the holder is dead |
| Overlay.OverlayHistory.constructor | client/src/lib/overlay-history.ts:37-51 | starts with nothing open and nothing pending |
| Overlay.OverlayHistory.OnOpened | client/src/lib/overlay-history.ts:86-145 | refines the opening step the run theorems are about, callbacks included |
| Overlay.OverlayHistory.OnOpenedNested | client/src/lib/overlay-history.ts:150-166 | refines the nested opening step |
| Overlay.OverlayHistory.OnClosed | client/src/lib/overlay-history.ts:170-188 | refines the closing step |
| Overlay.OverlayHistory.OnPop | client/src/lib/overlay-history.ts:53-82 | refines the popstate step |
| Overlay.OverlayHistory.Drive | client/src/lib/overlay-history.ts:37-194 | the object goes through exactly the run of the model, whatever the steps |
| OverlayRuns.EveryRunBooked | client/src/lib/overlay-history.ts:9-14 | every run: history entries are overlays plus owned pops plus stranded entries, and stranded entries are out-of-order closes not yet backed over |
| OverlayRuns.OneEntryPerOverlay | e2e/context-screen.mobile.e2e.ts:67-118 | once owned pops drain, the markers above the base entry are exactly the open overlays if and only if every stranded entry has been backed over |
| OverlayRuns.NeverLeavesWhileOpen | client/src/lib/overlay-history.ts:185-187 | in every run the app is left only with nothing open, nothing waiting and no entry left |
| OverlayRuns.BackClosesTop | client/src/lib/overlay-history.ts:79-80 | one Back closes exactly the top overlay open or waiting, even while an owned traversal is under way |
| OverlayRuns.BacksToLeave | client/src/lib/overlay-history.ts:185-187 | from every reachable state, pending Backs close the top overlays in order and leave the app if and only if they exceed overlays plus stranded entries |
| OverlayRuns.MoreThanOneExtraBack | client/src/lib/overlay-history.ts:185-187 | two out-of-order closes cost two extra Backs |
| OverlayRuns.Drains | e2e/helpers.ts:205-256 | completing the owned pops activates every deferred overlay in order and closes nothing |
| OverlayRuns.PeersExclude | client/src/lib/overlay-history.ts:121-142 | a step keeps the phone views exclusive if and only if it is not an opening during an owned Back over a view that stays |
| OverlayRuns.ExclusiveRuns | e2e/context-screen.mobile.e2e.ts:162-190 | a run shows at most one view throughout if and only if none of its opens collides |
| OverlayRuns.TwoPeersOpen | client/src/lib/overlay-history.ts:92-113 | closing a sheet and opening the other view at once leaves both open |
| OverlayCallbacks.EveryRunAccounts | client/src/lib/overlay-history.ts:84-188 | conservation: every overlay tracked is open, waiting, closed by its callback or closed in the UI |
| OverlayCallbacks.OpenDisplaces | client/src/lib/overlay-history.ts:86-145 | opening another view closes, top first and through the callbacks given last, all overlays but those that stay for an owned Back |
| OverlayCallbacks.ReopenRefreshes | client/src/lib/overlay-history.ts:105-120 | opening a tracked overlay gives it the new callback and changes nothing else |
| OverlayCallbacks.ChildOnTop | client/src/lib/overlay-history.ts:150-166 | opening a child puts it on top and closes nothing |
| OverlayCallbacks.UiCloseRemoves | client/src/lib/overlay-history.ts:170-188 | closing in the UI takes away one overlay of the id and invokes no callback |
| StopTurn.AbortRestoreText | client/src/lib/store.svelte.ts:1080-1100 | the two loops find the prompt to give back |
| StopTurn.RestoresUnanswered | client/src/lib/store.svelte.ts:1072-1100 | that is the last prompt, if and only if no tool and no answer text follows it |
| StopTurn.StopControl.AbortTurn | client/src/lib/store.svelte.ts:2145-2195 | refines the abort step |
| StopTurn.StopControl.OnTimer | client/src/lib/store.svelte.ts:2189-2194 | refines the timeout step |
| StopTurn.StopControl.OnResult | client/src/lib/store.svelte.ts:1468-1533 | refines the result step, restore included |
| StopTurn.StopControl.SettleStopOperation | client/src/lib/store.svelte.ts:985-1016 | refines the settling that follows every folded event |
| StopTurn.StopControl.Drive | client/src/lib/store.svelte.ts:960-1040 | the object goes through exactly the run of the model, whatever the steps |
| StopTurn.RestoredBy | e2e/stop-turn.e2e.ts:184-251 | each prompt given back was set up by an Escape step with the transcript's text then, and given back by a later acceptance of that request |
| StopTurn.RestoredAtMostOnce | e2e/stop-turn.e2e.ts:290-325 | over every run a prompt comes back at most once per request |
| StopTurn.RestoresExactly | client/src/lib/store.svelte.ts:1469-1494 | after any run, exactly which step brings a prompt back, and that the draft is then that prompt |
| StopTurn.ArmedExactly | client/src/lib/store.svelte.ts:2162-2182 | exactly when an abort arms a restore: never a Stop click, never offline, never an answered turn |
| StopTurn.DraftChangesOnly | e2e/stop-turn.e2e.ts:213-251 | of the stop protocol's own steps only a restore, into a blank draft, changes the draft |
| StopTurn.ClearedDraftIsFilled | e2e/stop-turn.e2e.ts:234-251 | a draft cleared between Escape and acceptance is filled with the old prompt |
| StopTurn.LateAcceptanceRestores | client/src/lib/store.svelte.ts:1018-1040 | an acceptance that arrives after the timeout still restores |
| StopTurn.SupersededIgnored | client/src/lib/store.svelte.ts:1477-1494 | a result for any other request leaves the pending restore and the draft alone |
| StopTurn.BeginsExactly | client/src/lib/store.svelte.ts:2145-2195 | after any run, exactly which step begins a stop, whose it is and that it is timed |
| StopTurn.EndsExactly | client/src/lib/store-helpers.ts:33-58 | a step ends the stop in progress if and only if it is the acceptance of its request, an event of its session with the turn inactive, or one with activity beyond what an unconfirmed stop recorded |
| StopTurn.InactiveLeavesNone | client/src/lib/store.svelte.ts:985-1016 | after every run that ends with a session's turn inactive, no stop of that session is left |
| StopTurn.ChangesExactly | client/src/lib/store.svelte.ts:1018-1040 | otherwise it stays as it is, or is unconfirmed once its timer fires or its request is refused, with the reason and the activity then |
| StopTurn.TimerIsTheStops | client/src/lib/store.svelte.ts:2189-2194 | in every run a running timer is that of the stop being confirmed |
| StopTurn.PendingStaysExactly | client/src/lib/store.svelte.ts:985-996 | exactly which steps leave a pending restore in place |
| StopTurn.ErrorExactly | client/src/lib/store-helpers.ts:33-58 | the error on screen is cleared exactly when a stop is overtaken whose own error it is |
| StopTurn.CountsExactly | client/src/lib/store.svelte.ts:2162-2166 | every attempt is counted, sent or not, unless there is no session or one is being confirmed there |
| StopTurn.WhiteExactly | client/src/lib/store.svelte.ts:1486-1486 | what counts as blank are the 25 characters that trimming removes |
| StopTurn.TimedRuns | client/src/lib/store.svelte.ts:2162-2194 | every stop being confirmed is timed throughout a run if and only if no offline attempt elsewhere cuts its timer |
| StopTurn.TimerCut | client/src/lib/store.svelte.ts:2162-2182 | a run from the start that cuts a timer |
| StopTurn.UntimedStopIsStuck | client/src/lib/store.svelte.ts:2154-2160 | a stop whose timer was cut can no longer be retried from its own session |
| Observer.NavigationObserver.constructor | e2e/images.e2e.ts:33-39 | starts empty |
| Observer.NavigationObserver.Push | e2e/images.e2e.ts:41-56 | refines the numbering step |
| Observer.NavigationObserver.Handle | e2e/images.e2e.ts:58-116 | refines the page event step |
| Observer.NavigationObserver.Settle | e2e/images.e2e.ts:87-91 | refines the merge of a diagnostics read |
| Observer.NavigationObserver.BeginStop | e2e/images.e2e.ts:130-140 | refines the start of a stop |
| Observer.NavigationObserver.Drive | e2e/images.e2e.ts:33-144 | the object goes through exactly the run of the model, whatever the events |
| Observer.EveryRunNumbered | e2e/images.e2e.ts:41-97 | every run: records are numbered 1..n, navigations are counted, exactly the first is initial, and each stop waits for what is under way |
| Observer.IdentityPersists | e2e/images.e2e.ts:79-92 | no later event changes anything of a record but its details |
| Observer.NewRecordStatus | e2e/images.e2e.ts:58-100 | a new record's status is the last-write-wins fold of its url's whole history |
| Observer.RecordsFollow | e2e/images.e2e.ts:41-116 | over every run the records are, in order, the recorded events before the stop, each with its url, failure, message and status and what the first read made for it found |
| Observer.PendingFollows | e2e/images.e2e.ts:74-92 | the observer's set holds exactly the reads made and not yet forgotten, which follows their settling |
| Observer.CallsFollow | e2e/images.e2e.ts:130-140 | each stop waits for what was pending when it was called |
| Observer.StopIsFinal | e2e/images.e2e.ts:130-140 | once a stop has returned no read is under way, none starts, and the records never change |
| Observer.StopReturnsWhenSettled | e2e/images.e2e.ts:139-139 | a stop can return if and only if no read is under way |
| Noise.MixBijective | e2e/images.e2e.ts:432-434 | the mixing step is a bijection with the given inverse and only 0 goes to 0 |
| Noise.NeverZero | e2e/images.e2e.ts:430-434 | the stream is zero somewhere if and only if its seed is zero |
| Noise.PurelyPeriodic | e2e/images.e2e.ts:430-434 | two equal seeds of the stream mean it returned to its start |
| Noise.FirstRepeatIsTheSeed | e2e/images.e2e.ts:430-434 | from every seed the stream returns to it within 2^32 steps and nothing repeats before |
| Noise.Fill | e2e/images.e2e.ts:430-439 | the in-place loop writes the whole image and ends at the last seed |
| Noise.ImageAt | e2e/images.e2e.ts:431-438 | pixel k shows the low three bytes of the (k+1)-th seed, opaque |
| Noise.FirstPixels | e2e/images.e2e.ts:430-439 | the first two pixels, in numbers |
| Noise.RegeneratesReversed | e2e/images.e2e.ts:430-439 | the inverse run back from the last seed shows the pixels in reverse and ends at the first seed |
| Listeners.Window.DispatchEvent | test-setup.ts:67-73 | the live loop terminates when additions are finite and calls what the walk finds |
| Listeners.FoundExactly | test-setup.ts:67-73 | each slot is found as the registry holds it after exactly the handler calls made before it |
| Listeners.RemovedIsNotCalled | test-setup.ts:64-73 | a listener, registered before or added by a handler, that another handler removes before its turn is not called |
| Listeners.StillThereIsCalled | test-setup.ts:60-73 | a listener there from the start or added by a handler, and not removed before its turn, is called |
| Listeners.FoundInPlace | test-setup.ts:60-73 | each stay in the set is met at most once, in registration order, and a stay that lasts is met |
| Listeners.CalledAgainForNewStay | test-setup.ts:60-73 | a listener called twice had left its first slot and was added anew |
| Listeners.PresentThroughout | test-setup.ts:67-73 | a listener never removed is called exactly once, whatever handlers do to others |
| Storage.RefinesList | test-setup.ts:81-99 | for every sequence of calls the mock iterates as an insertion-ordered list |
| Storage.LocalStorageMock.Drive | test-setup.ts:82-99 | the mock goes through exactly the model's states, whatever the calls |
| Storage.KeysEnumerate | test-setup.ts:85-96 | indices below the length list every stored key exactly once, each with a value, and nothing else |
| Storage.GetFollows | test-setup.ts:82-86 | after every sequence of calls a key has the value it was last given, unless taken away since |
| Storage.PlaceOfKey | test-setup.ts:86-91 | overwriting keeps a key's place; removing and setting moves it last |
| Contrast.LinearIncreasing | e2e/settings.e2e.ts:365-370 | linearisation is strictly increasing, across the branch point too |
| Contrast.LinearRange | e2e/settings.e2e.ts:365-370 | linear values lie in [0, 1] with the ends reached at 0 and 255 only |
| Contrast.LinearAt | e2e/settings.e2e.ts:365-370 | the linear value wherever it can be written out, on both pieces |
| Contrast.LuminanceRange | e2e/settings.e2e.ts:364-372 | luminance lies in [0, 1] and reaches the ends for black and white only |
| Contrast.Primaries | e2e/settings.e2e.ts:371-371 | the luminances of the three primaries |
| Contrast.RatioRange | e2e/settings.e2e.ts:374-377 | contrast is symmetric, lies in [1, 21] and is 1 if and only if luminances are equal |
| Contrast.CheckChain | e2e/settings.e2e.ts:436-442 | the surface loop accepts exactly the strictly darkening chains with steps of at least 1.05 |
| Contrast.FarSurfaces | e2e/settings.e2e.ts:432-442 | surfaces k apart in such a chain differ by at least the k-th power of the step |
| Wheel.WheelUp | e2e/helpers.ts:421-436 | the loop sends as few equal events of at most 100 pixels as cover the delta, and overshoots by less than a pixel an event |

## Left out

- Streams.LivingMerging: is sufficient in a truncated stream: at the cap of 8192 characters a delta can make the JSON of a bubble smaller, and whether a merge is then still sound depends on items already evicted. Streams.CompactionExact has no such gap; the end-to-end theorems need a condition on single events.
- Hub.SessionCatchesUp: assumes that events meet the condition of Streams.LivingMerging, that adjacent usage events belong to one stream, and that resets meet the condition of Hub.RestartExact; a session without subagents always does once opened (Hub.PlainSessionCatchesUp). One client watches one session, and detaching and buffering during a swap are not modelled.
- Contrast.LinearIncreasing: is about values that satisfy the equation of the power 2.4; that a root exists, and rounding, are not modelled.
- MergeRuns.ExclusiveRuns: process ids are not reused, and the three reads of a lock file in one decision are one step.
- MergeLands.OneCommitLands: a fetch that finds local main and the origin diverged leaves local main where it is; the conflicted bookmark jj then shows is not modelled further than that it refuses to move. Each jj command with the reads around it is one step. What jj remembers of the origin is always the origin itself; a restore sets that memory back, and jj then refuses a push until the next fetch.
- MergeExits.LandsBelowItsGate: jj refuses commands in a workspace whose files no longer match its commit, as after another's restore; the model lets the steps of such a process go on, and so has more runs than the script.
- MergeViews.LandsOnce: takes it that a rebase leaves a change its destination carries already empty, and that workspaces are made on main.
- MergeLock.StepExcludes: a malformed lock file, on which the script waits for manual recovery, and the dry-run mode are not modelled.
- Overlay.OverlayHistory.OnOpened: an overlay id that is the empty string, which the source's truthiness tests treat as absent, is treated as an id; no id in the client is empty. A close callback that calls back into the module while it runs, and forward navigation, are not modelled.
- Listeners.Window.DispatchEvent: a handler that dispatches another event from inside its own call is not modelled.
- Noise.Fill: takes buffers of whole pixels, as image data always is.
- StopTurn.RestoredAtMostOnce: the reset on switching hosts, which restarts the request counter, is not modelled; requests are named by the counter alone.
- StopTurn.BeginsExactly: the passing chat notices of the stop protocol are not modelled.
- Transcript: the in-place sharing of arrays between a session and its nested copy is modelled by its effect on the session, not by references; item text is a sequence of characters rather than UTF-16 units.
- Observer: timestamps are not modelled.
- Parsing of CSS colour strings and the gated WebSocket of the reconnect tests are not part of this model; their properties are one-step facts.
- Wheel.WheelUp: takes whole deltas, as every caller passes.
- Transport, authentication, push notifications, rendering and persistence of drafts are not part of this model.
