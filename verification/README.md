# Three cores of xbin, modelled and proved

This project models three parts of xbin and proves what their design relies on.

- **The push relay's durable store** (`relay/`). Handles and workspaces live in memory; every change gets a sequence
  number under the store's lock and is journalled after the lock is let go, so records reach the log out of order,
  while a background compaction replaces the snapshot and the log, and the process may die anywhere.
- **The Agent tab's transcript** (`web/agent-fold.js`, `web/agent-pages.js`). An event log is folded into nested
  blocks one event at a time; a transcript holds separately folded pages of it that load, unload, split and refold.
- **Algorithms with a bound or a promise of their own**: the line diff (`web/agent-tools.js`), the token buckets
  (`relay/limit.go`), the spent proofs of work (`relay/pow.go`, `relay/relay.go`) and the dismissal store's write
  queue (`web/bx-dismiss.js`).

## How it is laid out

| files | what they hold |
|---|---|
| `Options`, `RelayTypes`, `Replay` | entities; replaying records onto a snapshot |
| `StoreSpec`, `Store`, `Retention` | what the store's memory must look like and what an operation may do to it; the `Store` class, method by method; caps and retention |
| `Journal`, `RelaySystem`, `RelayTheorems`, `RelayCompaction` | the `Journal` class; the relay as a step system (operations, appends, five compaction phases, crash, open) and its invariant; what holds of every run; what a compaction leaves on the log |
| `RelaySurvival`, `RelayPush`, `RelayFamilies` | an acknowledged change in every later life of the relay; a push from its handle to its answer; families over starts, restarts and crashes: which are kept, and which are split |
| `FoldSpec`, `AgentFold` | the fold as a function; the `Fold` class, proved to change its fields as that function says |
| `FoldLog`, `FoldEffects`, `FoldContents` | what a log says without being folded: the events of a call, the runs of text, answers, plans, places; what one event does to the blocks; the proof that a fold shows what its log says |
| `FoldRows`, `FoldClock`, `FoldVersions` | where the blocks are shown; how long a thought took; what a block's version promises |
| `FoldSim`, `FoldSplit`, `FoldOrder` | a fold of a piece of a log simulates the fold of the whole; the split theorem; nesting |
| `FoldSeed`, `FoldYoung`, `FoldWrites` | when exactly a page may be seeded with a turn number; what a fold still holds on to behind a cut; when exactly later events leave earlier blocks as they were |
| `PagesSpec`, `Transcript` | the transcript's operations as functions; the `Transcript` class, proved against them |
| `Pages`, `PagesRun`, `PagesTheorems` | clean cuts; the invariant every operation keeps while live events come in step; what is shown after any such run |
| `Delivery`, `AnyOrder`, `AnyOrderRuns` | live events late, repeated and with some missing, between loads, unloads and splits: where they are filed, the invariant every operation keeps, what is shown after any run |
| `SplitExactly`, `AnyOrderExamples` | when exactly splitting a tail that misses events leaves its older part right; a run in which it does not |
| `Diff`, `Limiter`, `Pow`, `Registration`, `Dismiss`, `DismissStore` | one algorithm each, with its class or methods and its theorems |

`dafny verify dfyconfig.toml` checks everything.

## What the models assume

- Store, journal, limiter and spent-set operations are atomic where the source holds a mutex for them, and the times
  they see do not go back in lock order. In `Pow` a proof's verification and its spending see the same time and are
  one step.
- A write of the log that fails leaves whole lines only, and reopening the log after its rename succeeds. A crash may
  leave any number of whole lines of one batch and a torn one.
- Random ids are fresh, hashes of distinct keys are distinct; both are arguments. HMAC, SHA-256 and base64 are
  functions of which only `decode(encode(x)) = x` is used.
- A PUT or DELETE of the dismissals that fails has taken effect by the time it fails, or never does.
- The events of a log have distinct numbers (`FoldContents`), which rise where versions are concerned
  (`FoldVersions`).
- The server's pages are cut where no later event refers to a block opened before the cut (`Pages.CleanCut`), turn
  numbers in a log rise (`Pages.Log`), and a fetch is atomic with respect to live events. The log of the page theorems
  is the log as it will ever be: each answer may come from any prefix of it.

## Where the code and its documentation differ, or a natural claim is false

- "At most 16 activity handles" is what creating one guarantees, not an invariant: registering a known push-to-start
  token as an activity's evicts nobody (`Retention.FlipAddsAnActivity` says exactly when that crosses the cap). The
  same goes for 64 handles per token and repointing (`Retention.RepointAddsToToken`).
- A piece of a log may not be seeded with just any turn number: one that a later turn of the piece reaches again makes
  a reused tool id merge into the wrong call (`FoldSplit.SeedTooHigh`). It may exactly when no two calls of one id
  with the end of a turn between them get the same turn counter from it (`FoldSeed.SplitsExactlyWithoutClash`); the
  number the server's state header carries, that of the last turn before the page, always may (`FoldSeed.HeaderFits`).
- "The blocks move; none refolds" is wrong for a tail that misses an event when it is split: a later message may have
  gone on with a block of the older part, and when the missing one comes only its own segment is folded again
  (`AnyOrderExamples.SplitWithAGap`: whatever the limit, three messages, all of which come, and the first goes on
  showing the third's text). The older part is right exactly when no event of the newer part that has come writes to a
  block of it (`SplitExactly.SplitShowsExactly`), as when nothing of the tail is missing.
- After a split the tail's fold still goes on with the text it was adding to and with its plan, even if that block is
  in the older part now. Live events in step never do harm with that; an event that skips others does. It may be any
  event exactly when the tail holds on to no such block (`AnyOrderRuns.SkipIsSeenExactly`). `AnyOrderRuns.AnyRun` asks
  for no more than this and that a split is of a whole tail, or one that neither an event that has come of the newer
  part nor what its fold goes on with reaches across.
- The `Retry-After` of a refusal is enough exactly when a bucket holds a whole token; with a smaller burst nobody is
  ever let in (`Limiter.RetryAfterSuffices`, `Limiter.SmallBurstRefuses`).
- A family's handles share one workspace until a crash in the middle of an append. While the process lives every
  family that is together stays so; over any crash and start too, if none of the family's own records was in flight or
  had failed to be written, whatever else was (`RelayFamilies.RestartKeepsFamily`). The first push to a family nobody
  owns, of which nothing is in flight, and a crash in its append leave it split exactly when some but not all lines of
  its batch, one for each handle, were written (`RelayFamilies.TornPushSplits`): so it can happen if and only if a
  Live Activity handle hangs off the device handle (`RelayFamilies.CrashMaySplitAFamily`;
  `RelayFamilies.AFamilyIsSplit` is a run from the first start). An accepted push puts a split family together exactly
  when every other handle of it was the pusher's already, or had no owner like the device handle (`Store.PushMends`).
- "The binding is durable before the first push goes out" holds of the push that binds: once it is answered, its
  records are acknowledged and survive every crash (`RelayPush.AnsweredBindingSurvives`). It does not hold of the
  first push that goes out: another push of the same workspace, accepted while the binding's batch is still in flight,
  binds nothing, is answered at once, and its handle may be nobody's after a crash
  (`RelayFamilies.NextPushIsNotHeldBack`).

## Model

| member | source | states |
|---|---|---|
| Replay.ReplayIsLastWriterWins | relay/journal.go:97-103 | replaying a sorted log gives every key the value of its newest record above the snapshot's sequence number, or the snapshot's value when there is none |
| Replay.ReplayDependsOnlyOnNewRecords | relay/journal.go:59-103 | two logs with the same records above the snapshot replay to the same state: order on disk, stale records and duplicates do not show, which is what makes appending outside the store's lock sound |
| Replay.RecoverIsLastWriterWins | relay/journal.go:75-116 | the same for what an open recovers from a disk with torn lines in its log |
| Journal.OpenJournal | relay/journal.go:75-116 | the open's loops compute exactly the recovered state, fold it into a snapshot, and leave an empty log |
| Journal.ReadRecords | relay/journal.go:118-137 | every whole line is read, every torn one skipped |
| Journal.SortRecords | relay/journal.go:97-97 | the insertion of records in order is the sorted sequence the replay theorems are about |
| Journal.ReplayRecords | relay/journal.go:98-103 | the replay loop is the replay function |
| Journal.Journal.Append | relay/journal.go:186-222 | the batch is durable, or a prefix of it after a failed write; it joins the captured tail during a compaction; a compaction is asked for when the log has outgrown its threshold, at most once at a time and never after close |
| Journal.Journal.Finish | relay/journal.go:236-259 | the end of a compaction, under the lock: capture is off, and the log is replaced by what was captured unless the snapshot or the log could not be written or the journal is closed (over a run: `RelayCompaction.CompactionKeepsTheAppended`) |
| RelayTheorems.DiskAndFlightDenoteMemory | relay/journal.go:184-260 | in every run, the snapshot, the log and the batches in flight or failed replay to exactly the live entries, usage timestamps at most a day behind |
| RelayTheorems.DiskDenotesMemoryAtRest | relay/store.go:272-277 | with nothing in flight and nothing failed, the disk alone recovers memory |
| RelayTheorems.NoAcknowledgedChangeIsLost | relay/journal.go:186-260 | the crash that ends a process, inside an append or between any two steps of a compaction, leaves for every change acknowledged in that process the value of a record handed out then or later |
| RelaySurvival.AcknowledgedSurvivesForever | relay/journal.go:75-284 | from the moment a change is acknowledged, at every later step of any run, through any number of crashes, interrupted opens and compactions, what memory holds, or an open would recover, for its key went on from it: an acknowledged deletion never comes back, and an acknowledged value is there unless a later operation deleted it |
| RelaySurvival.BindingSurvivesForever | relay/store.go:519-521 | once a binding's batch is acknowledged the handle belongs to that workspace, or is gone, at every later step of any run |
| RelayTheorems.CompactionDropsOnlyIncluded | relay/journal.go:227-260 | a record a compaction drops from the log is included in the snapshot or still on its way |
| RelayCompaction.CompactionKeepsTheAppended | relay/journal.go:227-260 | in any run, a compaction that could write its snapshot and the log leaves on the log exactly the records of the batches appended since it began, line by line in their order, and no record that was on it then: nothing at all when nothing was appended |
| RelayCompaction.FailedCompactionKeepsAll | relay/journal.go:242-255 | one that could not, or that finds the journal closed, leaves snapshot and log as they were, and the next one may start |
| RelayTheorems.CloseThenOpenIsIdentity | relay/journal.go:264-284 | closing with nothing in flight and opening again gives back the whole memory, usage timestamps included |
| RelaySystem.OpenIsIdempotent | relay/journal.go:104-113 | an open stopped before its snapshot, before truncating the log or after it recovers the same state again |
| RelaySystem.NextKeeps | relay/journal.go:184-284 | every step of the relay, operation, append, compaction phase, close, crash, fold or serve, keeps the system's invariant |
| RelaySystem.RecoveredValues | relay/store.go:112-156 | what an open recovers are values the store could have held: parent, kind and key hash as at birth |
| RelayTheorems.AlwaysWellFormed | relay/store.go:112-156 | whenever the relay serves, after any crash, no orphan exists, a parent marks exactly the Live Activity handles, and both indexes are exact |
| StoreSpec.DepthAtMostOne | relay/store.go:24-50 | the handle tree is one level deep and a parent marks exactly the Live Activity handles |
| StoreSpec.IndexesAreDetermined | relay/store.go:128-140 | the indexes rebuilt at open equal the incrementally kept ones: the entries determine them |
| RelayTheorems.EntryEvolves | relay/store.go:464-523 | while the process lives an entry keeps its kind, parent and workspace, its usage only moves forward, and once deleted it never comes back |
| RelayTheorems.FamilyStaysTogether | relay/store.go:464-523 | while the process lives every family that is together, a device handle and its Live Activity handles with one owner, stays together whatever becomes of the others, and a device handle with at most one push-to-start handle gets no second |
| RelayFamilies.FirstStartHasNoFamilies | relay/store.go:112-156 | the first time the relay serves every family is together |
| RelayFamilies.CrashKeepsFamily | relay/journal.go:75-222 | any crash, in any append and with anything else in flight: a family of which nothing is in flight or failed is recovered as memory had it, handle by handle |
| RelayFamilies.RestartKeepsFamily | relay/store.go:112-156 | and served so by the start that follows, however often it is interrupted: a family that was together still is, and a device handle with one push-to-start handle still has one |
| RelayFamilies.RestartKeepsFamilies | relay/store.go:112-156 | so after a close or a crash with nothing in flight every handle comes back in its family with its owner |
| RelayFamilies.TornPushSplits | relay/store.go:492-521 | a push to a family nobody owns, of which nothing is in flight, hands out one record for each of its handles; if the relay dies in its append the family is recovered together exactly when none or all of them were written |
| RelayFamilies.CrashMaySplitAFamily | relay/store.go:492-521 | so, whatever else is in flight, the first push to such a family and a crash in its append can split it if and only if a Live Activity handle hangs off the device handle |
| RelayFamilies.AFamilyIsSplit | relay/store.go:492-521 | a whole run of the relay, from an empty disk, that ends with a Live Activity handle owned and its device handle not |
| RelayTheorems.OneWorkspacePerFamily | relay/store.go:484-491 | once a device handle belongs to a workspace, a push from another to anything in its family is refused as long as it lives |
| Store.RefusedExactly | relay/store.go:470-491 | of the refusals: an unknown handle is one, another workspace's handle or device handle the next, then a push of another kind than the handle's; and every other push goes out |
| RelayTheorems.AcceptedPushOwnsTheFamily | relay/store.go:492-513 | an accepted push leaves the device handle and the pushed handle with the pushing workspace and, when the device handle had no owner, every handle under it that had none; nobody else's handle and no other family changes hands |
| Store.PushMarksOne | relay/store.go:514-518 | besides owners, an accepted push changes the usage of the pushed handle alone, to its own time |
| Store.PushMends | relay/store.go:484-513 | an accepted push leaves its family together exactly when each other member was the pusher's, or had no owner like the device handle |
| RelayTheorems.BindIsJournalled | relay/store.go:498-513 | the push that binds a family hands out a record of the new owner of every handle it binds |
| Store.Store.constructor | relay/store.go:127-140 | loading rebuilds both indexes exactly and takes every usage timestamp as saved |
| Store.Store.PruneOrphans | relay/store.go:141-148 | exactly the handles whose parent is gone are removed, each with its record |
| Store.Store.DelTree | relay/store.go:177-193 | a handle goes with exactly what hangs off it, the records are theirs and its own is the last, and the index follows |
| StoreSpec.CascadeLeavesNoOrphan | relay/store.go:141-142 | so however much of the batch reached the log, replaying it leaves no handle without its device handle |
| Store.Store.Sweep | relay/store.go:298-329 | the sweep, whatever order the maps are walked in, leaves the tables that the retention theorems are about (`Retention.SweptHandle`, `Retention.SweptWorkspace`), with a record for each entry that went |
| Retention.SweepRemovesExactlyTheStale | relay/store.go:307-321 | a handle goes in a sweep exactly when the rules say so of it or of its parent, although it is judged with its parent's data while the map shrinks; no orphan is left |
| Retention.SweptHandle | relay/store.go:298-322 | the rules: in a due sweep goes exactly what nobody owns (its device handle neither) and is older than unboundTTL, or was neither created nor pushed to for idleTTL, for a push-to-start handle nor its device handle either, and a Live Activity handle whose device handle goes; what stays is unchanged. A sweep is due after ten minutes, after one when the store is full |
| Retention.OwnedAndUsedStays | relay/store.go:307-320 | so a handle of an owned family stays while it and its device handle are in use, and a push-to-start handle while its device handle is |
| Retention.SweptWorkspace | relay/store.go:323-328 | a workspace never used goes exactly when it is older than unusedWorkspace, one that was used when its last use is longer ago than idleWorkspace |
| Retention.FullIsSwept | relay/store.go:298-342 | a registration refused for want of room came within a minute of a sweep, its own unless the one before was so recent |
| Store.Store.Evict | relay/store.go:349-357 | just enough of the least recently used of a pool go, with their trees |
| Store.Store.NewHandle | relay/store.go:331-363 | sweep, capacity, least recently used of the token's handles, then the new handle, found under the new id with its token, topic and environment, unowned and unused; at capacity nothing but the sweeps |
| Retention.TokenStaysWithinCap | relay/store.go:343-357 | afterwards the token has one handle more, or exactly 64, and every survivor is at least as recent as every victim |
| Retention.NewHandleWithinLimit | relay/store.go:335-342 | creating a device handle never takes the store over its limit |
| Store.Store.Repoint | relay/store.go:369-388 | token, topic and environment change and the binding stays; unknown handles, the wrong kind and a child that would leave its parent's topic are refused with nothing changed |
| Store.Store.DropToken | relay/store.go:406-417 | exactly the handles of the token, and those whose device handle has it, go |
| Store.Store.DeleteHandle | relay/store.go:392-402 | the handle goes with those under it and no others, or nothing when it is unknown |
| Store.Store.NewChild | relay/liveactivity.go:148-212 | the outcome of registering a Live Activity token in every case: unknown or foreign parent, known token (kind flipped, other push-to-start handles dropped), at capacity, new; and what its sweeps leave of the workspaces |
| Retention.ActivitiesStayWithinCap | relay/liveactivity.go:186-200 | a new activity handle leaves at most 16 (one more, or exactly 16), the least recently used went, and no push-to-start handle did |
| Retention.OneStartAfterNewStart | relay/liveactivity.go:183-184 | a new push-to-start token leaves exactly one such handle under its parent |
| Retention.OneStartAfterReregister | relay/liveactivity.go:162-173 | so does registering a known token as push-to-start, whatever a crash left there |
| Retention.ChildHangsOffItsParent | relay/liveactivity.go:148-212 | a Live Activity token is refused exactly for an unknown device handle, or one of another kind, topic or environment; accepted, its handle is under that device handle, with the token and kind registered, and the device handle stays |
| Retention.NewChildWithinLimit | relay/liveactivity.go:175-182 | creating a Live Activity handle never takes the store over its limit |
| Retention.FlipAddsAnActivity | relay/liveactivity.go:162-173 | registering a push-to-start token as an activity's adds an activity handle, so the cap still holds exactly when it was not reached |
| Retention.RepointAddsToToken | relay/store.go:369-388 | repointing to another token adds to that token's handles, so its cap still holds exactly when it was not reached |
| Store.Store.DropStarts | relay/liveactivity.go:215-223 | exactly the parent's push-to-start handles but the one kept go |
| Store.Store.Retire | relay/liveactivity.go:228-236 | an activity's handle goes, a push-to-start or device handle stays |
| Store.Store.Target | relay/store.go:470-517 | what a push does under the lock: refused (`Store.RefusedExactly`) with nothing changed; else the whole unbound family is bound, usage moves on, the records are bindings of that family's handles, one for each at most, and whether something was bound is told |
| RelayPush.Target | relay/store.go:470-523 | the whole call: the records are written, and the answer is the handle, except that a push that bound something fails when its write did |
| RelayPush.AnsweredBindingSurvives | relay/store.go:518-521 | among any other calls, compactions and crashes: a push that bound something is answered only once the record of each new owner is acknowledged, and from then on the handle is that workspace's, or gone, at every later step of the run |
| RelayFamilies.NextPushIsNotHeldBack | relay/store.go:514-522 | a push that binds nothing is answered at once, also while the push that bound its handle still waits; then a crash may bring the handle back as nobody's |
| Store.Store.NewWorkspace | relay/store.go:420-439 | sweep, capacity, then a workspace found by its key's hash |
| Store.Store.WorkspaceFor | relay/store.go:442-462 | a key resolves to the workspace whose hash it has, and to nothing otherwise; its use is journalled once a day |
| RelaySystem.TakeSnapshotKeeps | relay/store.go:205-219 | the copy of memory a compaction takes under the lock, with its sequence number, includes every record handed out so far and covers memory with the batches captured since: the invariant holds again |
| Store.Store.Written | relay/store.go:223-236 | exactly the live entries the snapshot holds take its usage timestamps as saved, and none moves back |
| FoldSplit.FoldSplits | web/agent-fold.js:49-176 | folding a log whole gives the blocks of its first half followed by those of its second, with the same keys, contents, versions and nesting, when no later event refers to an older block and turn numbers rise above the seed |
| FoldSeed.NoClashSplits | web/agent-fold.js:49-61 | and so under every seed that lets no event find a call of an earlier turn: a condition on the seed and the second half alone |
| FoldSeed.SplitsExactlyWithoutClash | web/agent-fold.js:55-61 | where no event patches a call by its id the condition is exact: the log splits under a seed if and only if it makes no clash |
| FoldSeed.ClashIsAPair | web/agent-fold.js:55-61 | a clash is two calls of one id, with the end of a turn between them, that get the same turn counter from the seed |
| FoldSeed.HeaderFits | web/agent-fold.js:55-61 | the number of the last turn before a page never clashes with the turns of the page |
| FoldWrites.KeptExactly | web/agent-fold.js:67-175 | whatever events come after, the blocks a fold had keep content, nesting and version exactly when no event writes to one: ends its thought, goes on with its text, patches, answers or nests in it |
| FoldYoung.PushFree | web/agent-fold.js:67-175 | a fold that points at nothing before a cut stays so, and leaves everything before it alone, whatever events come and whichever are missing |
| FoldYoung.HeldSwallows | web/agent-fold.js:78-135 | a fold that still goes on with a text or a plan from before a cut takes the next one of its kind for more of it, where a fold started at the cut opens a block |
| FoldSplit.SeedTooHigh | web/agent-fold.js:55-61 | a log for which a seed that a later turn reaches again loses a block |
| FoldSplit.RunSim | web/agent-fold.js:67-175 | a fold of a piece follows the fold of the whole through any clean run of events, and the whole never touches what lies before the cut |
| FoldSplit.PushBelow | web/agent-fold.js:67-175 | an event leaves a fold pointing only at blocks it opened, calls filed under turns up to the current one |
| FoldOrder.FoldOrder | web/agent-fold.js:25-26 | in a fold of events in order every block is nested in an older one, so the walk that bumps its cards ends at the outermost |
| FoldContents.CallIsItsEvents | web/agent-tools.js:22-38 | after any log of distinct numbers, from any seed, the events of one turn with one tool id are one block, under the first of them: its output is the last `output` given and the deltas since, in order; each field is what was last given; it is a card exactly once one of them said subagent; its changes are the last brought for it; and it is nested in the card it named when it opened |
| FoldContents.TextIsItsRun | web/agent-fold.js:76-95 | every text is part of one block, under the text that began its run, holding the texts of that run one after the other: texts of one lane (the log or a card), thoughts or messages of one role and id without files, that no call, plan, request or end of turn in the lane came between |
| FoldContents.OthersAreTheirEvents | web/agent-fold.js:116-172 | a request shows the last answer given before one of its id came again, a turn's plan the entries last given, and changes, ends of turns and notices stay as they came |
| FoldRows.RowsInOrder | web/agent-fold.js:116-172 | the rows of a log are the blocks opened in no card, in order, a turn's changes before its last end |
| FoldRows.CardsInOrder | web/agent-fold.js:80-106 | a card holds exactly the texts and calls opened in it, in order |
| FoldClock.ThoughtLasts | web/agent-fold.js:63-113 | a thought is done exactly when an event has ended it: for one of the log's own anything but a thought, status, changes or the queue; in a card a message or a call there, or the end of the card's call. Its time runs to the last one given by an event of its own or the one that stopped it |
| FoldVersions.VersionsTell | web/agent-fold.js:25-26 | as a log grows, a block whose version stays is as it was, and a block that gets a later version gives its card one |
| FoldVersions.VersionCoversNested | web/agent-fold.js:201-213 | so what was rendered of a block, everything nested in it included, may be used again while its version stays |
| AgentFold.Fold.PushAll | web/agent-fold.js:45-46 | the loop over a page's events leaves the fold that the theorems speak of (what it shows: `FoldContents`, `FoldRows`, `FoldClock`) |
| AgentFold.Fold.FindTurn | web/agent-fold.js:124-124 | the last end marker of a turn, or none |
| AgentFold.Fold.Bump | web/agent-fold.js:25-26 | the walk over enclosing cards bumps exactly those |
| TranscriptClass.Transcript.AddOlder | web/agent-pages.js:100-112 | the unseen older events of the answer become a new first segment |
| TranscriptClass.Transcript.AddNewer | web/agent-pages.js:117-135 | the first dropped segment below is fetched back, or everything since, which is live again |
| TranscriptClass.Transcript.SplitLiveTail | web/agent-pages.js:140-157 | the tail's events, blocks and indexes fall in two at the server's cut, and nothing is folded again |
| TranscriptClass.Transcript.ApplyBatch | web/agent-pages.js:164-199 | new events are folded into the tail, late ones filed in their segment, which is folded again after the batch |
| TranscriptClass.Transcript.Unload | web/agent-pages.js:209-227 | the two scans find the segments to drop, and their numbers, first numbers and flags follow |
| TranscriptClass.FindSeg | web/agent-pages.js:256-264 | the search from the newest segment finds the one a number lies in |
| PagesRun.OpenTailKeeps | web/agent-pages.js:72-95 | a view just opened satisfies the invariant: consecutive segments, each showing exactly what the whole fold opened in its range, and a live tail that goes on as a piece of the whole |
| PagesRun.LoadOlderKeeps | web/agent-pages.js:100-112 | loading an older page keeps it |
| PagesRun.LoadNewerKeeps | web/agent-pages.js:117-135 | fetching back a dropped segment, or the old tail, keeps it, with the same blocks as before |
| PagesRun.SplitTailKeeps | web/agent-pages.js:140-157 | splitting the live tail keeps it, although no block is folded again |
| PagesRun.ApplyKeeps | web/agent-pages.js:164-199 | live events in step, repeated or not, keep it |
| PagesRun.KeepKeeps | web/agent-pages.js:209-227 | unloading keeps it |
| PagesTheorems.RunShowsSlice | web/agent-pages.js:28-280 | after any run of opens, loads, unloads, splits and live events the blocks shown are one contiguous slice of the whole log's fold, that of the loaded range; segment starts and dropped ones ascend, and the view is detached exactly when some were dropped below |
| PagesTheorems.BlocksAreSlice | web/agent-pages.js:229-235 | the slice: nothing twice, missing or out of place, keys below, in and above the loaded range apart |
| PagesTheorems.CardsAreTheWholes | web/agent-pages.js:4-14 | every block opened in a loaded segment is, contents, nesting and version, what it is in the fold of the whole log |
| PagesTheorems.KeepSparesTheWindow | web/agent-pages.js:204-227 | unloading drops whole segments from the ends, never a block of the window, and all that lie outside but for the last one left and a live tail that must stay |
| PagesTheorems.NothingOlderEnds | web/agent-pages.js:100-112 | a request for older events that brings none ends the asking |
| PagesTheorems.SplitsWhenLong | web/agent-pages.js:140-146 | the tail is split exactly when it is live, longer than three pages, and the server's last page begins inside it: one of at most three pages never is |
| PagesTheorems.RangeMoves | web/agent-pages.js:72-199 | in step, opening loads the tail page, loading a page more on its side and nothing else, splitting changes no range, and live events take the loaded range as far as the newest of them unless the tail was dropped |
| AnyOrder.ApplyHolds | web/agent-pages.js:164-199 | a batch of live events in any order, repeated, late or with some missing, keeps the any-order invariant: each segment holds exactly the events seen of its range, in order, and shows what one fold of them does |
| AnyOrder.OlderHolds | web/agent-pages.js:100-112 | loading an older page keeps it, whatever is missing |
| AnyOrder.NewerHolds | web/agent-pages.js:117-135 | fetching back a dropped segment, or the old tail, keeps it |
| AnyOrder.SplitHolds | web/agent-pages.js:140-157 | splitting a tail of which nothing is missing keeps it, although events of earlier segments may be missing and no block is folded again |
| SplitExactly.CleanSplitHolds | web/agent-pages.js:140-157 | and so does splitting one with events missing, where no event of the newer part that has come, nor the text and the plan its fold goes on with, is of an older block |
| AnyOrder.UnloadHolds | web/agent-pages.js:209-227 | unloading keeps it |
| AnyOrder.OlderStay | web/agent-pages.js:172-184 | an event the tail takes writes to no block older than the tail, which an older segment may share with it |
| AnyOrderRuns.AnyRunShowsItsEvents | web/agent-pages.js:28-280 | after any run of opens, loads, unloads, splits and live events, in any order and with any missing, every loaded segment holds, in order, exactly the events seen of its range and shows what one fold of them shows: blocks, order, contents, nesting, versions |
| AnyOrderRuns.AnyRunShowsSlice | web/agent-pages.js:28-280 | and once no loaded number is missing the view is in step again and shows the slice of the whole log's fold |
| AnyOrderRuns.StepRunIsAnyRun | web/agent-pages.js:159-199 | a run in which live events come in step is one of these: its tails are whole when they are split, and nothing is skipped |
| AnyOrderRuns.OrderIsUnseen | web/agent-pages.js:159-199 | two deliveries of the same events, in whatever orders, repetitions and batches, end with segments that show the same, split or not |
| AnyOrderRuns.FreeTakesAll | web/agent-pages.js:159-199 | while the tail holds on to no older block, as when it was folded from its own events, it takes any events of the log in any order, none held back, and stays so |
| AnyOrderRuns.GuardedSplit | web/agent-pages.js:140-157 | a split that checks that nothing of the tail is missing, or that no event of the newer part refers to an older block, and that neither its running text nor its plan is older than the cut, is safe for whatever comes after |
| AnyOrderRuns.SkipIsSeenExactly | web/agent-pages.js:172-184 | a whole tail may skip to every later event if and only if it holds on to no older block: else some event opens no block where the segment's own fold opens one |
| SplitExactly.SplitShowsExactly | web/agent-pages.js:137-157 | splitting a tail whatever of it is missing: the older part shows what its own events do if and only if no event of the newer part writes to an older block, and both parts do when none refers to one |
| AnyOrderExamples.SplitWithAGap | web/agent-pages.js:137-157 | the example, for every limit and any size of the last page: a tail longer than three times the limit, in which only the second of three messages is missing, is split there; the message comes, and the older part, which ends with the first one, goes on showing the third's text |
| PagesTheorems.AReusedIdIsRead | web/agent-fold.js:96-115 | an example the theorems apply to: a tool id used again in the next turn opens a second call |
| Diff.BodySpells | web/agent-tools.js:226-247 | context and removed lines spell the old text, context and added lines the new, in both branches |
| Diff.ContextIsLongest | web/agent-tools.js:235-241 | in the table branch the context is a longest common subsequence of the two texts' lines |
| Diff.ScriptIsShortest | web/agent-tools.js:235-241 | so no diff of the two texts has fewer lines |
| Diff.DiffReadsBack | web/agent-tools.js:246-246 | the text of a diff, split at its newlines, reads: the path (or "file") three times, a line `@@ -1,n +1,m @@` with two decimal numbers, and a body whose sides have n and m lines and join to the two texts |
| Diff.NoHunkMeansEqual | web/agent-tools.js:229-229 | the line with the path alone is the answer exactly for equal texts |
| Diff.CellsSuffice | web/agent-tools.js:235-235 | the table's 32-bit cells hold every entry |
| Diff.LcsIsBound | web/agent-tools.js:236-236 | no common subsequence is longer than the table's entry |
| Diff.Table | web/agent-tools.js:235-236 | the table, filled from the end, holds for every pair of suffixes the length of their longest common subsequence |
| Diff.Walk | web/agent-tools.js:237-244 | the walk through the table writes the script |
| Diff.UnifiedDiff | web/agent-tools.js:226-247 | the whole function, with its size limit and its default name, gives the text that is read back |
| Limiter.ForgettingIsUnseen | relay/limit.go:46-53 | every sequence of calls is answered, waits included, as by a limiter that never forgets a bucket |
| Limiter.FromNew | relay/limit.go:23-53 | so from a new limiter, of any rate and with none, every sequence of calls is answered as if no bucket were ever forgotten |
| Limiter.WindowBound | relay/limit.go:38-67 | in any window, from any state, at most the burst and the window's share of the hourly rate pass for a key |
| Limiter.RefillsAtItsRate | relay/limit.go:38-67 | and no less comes in: a new key has the whole burst, and one that comes back after a time is let in exactly when what it left and that time's share of the hourly rate make a token |
| Limiter.RetryAfterSuffices | relay/relay.go:233-237 | a refused caller that comes back after the seconds it was told, whatever calls of other keys came between, is let in exactly when the burst is at least one token |
| Limiter.RetryAfterIsTight | relay/relay.go:233-237 | nor is it told to wait a second too long: until one second before the seconds named are over it is refused |
| Limiter.SmallBurstRefuses | relay/limit.go:59-66 | with less than a token of burst every call is refused |
| Limiter.SweepBoundsTheMap | relay/limit.go:46-53 | a bucket that survives a sweep was used within the time one takes to fill |
| Limiter.Limiter.Ask | relay/limit.go:38-67 | the method, sweep loop in any order included, answers and leaves the buckets as the functions say |
| Pow.MintedVerifies | relay/pow.go:82-113 | a challenge handed out is accepted, until it expires ten minutes later and while no more work is asked for, exactly with a nonce of 1 to 64 characters of `A-Z a-z 0-9 _ -` for which the hash of challenge, colon and nonce begins with as many zero bits as the challenge asked for |
| Pow.EachChallengeItsWork | relay/pow.go:147-153 | so the work for one challenge is none for another: each asks for zero bits of a hash of its own |
| Pow.AcceptedIsSealed | relay/pow.go:96-113 | nothing is accepted without the relay's seal over version, difficulty and expiry, or minted for less work than is asked for |
| Pow.ZerosReach | relay/pow.go:147-164 | the count of leading zero bits reaches a difficulty exactly when that many first bits are zero |
| Pow.LeadingZeroBits | relay/pow.go:155-164 | the loop counts the zero bits before the first one |
| Pow.NextKeeps | relay/pow.go:115-145 | every post, answer and refusal keeps: a challenge is used at most once, remembered until it expires when used and not remembered when not |
| Pow.OneKeyPerChallenge | relay/pow.go:18-34 | over any interleaving of registrations one challenge string yields at most one workspace key, and the spent set stays within its bound |
| Pow.RefusalLeavesSpendable | relay/pow.go:139-145 | after a refusal the same proof is taken again exactly when there is room |
| Pow.AnsweredStaysSpent | relay/pow.go:115-137 | after an answer it is refused from then on, though expired entries are forgotten |
| Pow.SpentStaysBounded | relay/pow.go:117-137 | spending never takes the set over its bound, swept or not |
| Pow.FullMeansBusy | relay/pow.go:121-134 | turned away for want of room, every place is taken by a proof that could still be replayed |
| Pow.Pow.Record | relay/pow.go:117-137 | spending, with its sweep in any order, is the function of the theorems |
| Registration.RefusalsCostNothing | relay/relay.go:447-502 | a request turned down for its proof leaves the global limit untouched, and any request turned down leaves its challenge as it found it |
| Registration.CreatedIsProved | relay/relay.go:470-507 | a key is answered only for a verified, unspent proof, which is spent from then on |
| Registration.CreatedExactly | relay/relay.go:441-508 | a key is answered exactly to a caller within both limits whose workspace was saved: with tokens configured for one of them, with work asked for on a verified, unspent proof while there is room, else to anyone |
| Registration.HandleIsSteps | relay/relay.go:441-508 | one registration is a post followed by its answer or refusal in the system of the proof-of-work theorems |
| Dismiss.ApplyChanges | web/bx-dismiss.js:67-83 | which keys a dismissal or a restore leaves dismissed, other kinds untouched |
| Dismiss.ApplyKeepsTheRest | web/bx-dismiss.js:53-83 | the key dismissed has the change's date, every other one its own, and what lies outside the four kinds stays as it was |
| Dismiss.ApplyTwice | web/bx-dismiss.js:144-154 | a change stored twice is stored once, so a retried write is harmless |
| DismissStore.ReduceComposes | web/bx-dismiss.js:176-180 | the value settled on the queue is the queued changes applied one by one to the stored value |
| DismissStore.ShownIsQueueOnStored | web/bx-dismiss.js:156-214 | over any run, whoever else writes: updates run one at a time in the order of the changes, the queue is exactly those not stored, and the value shown is the queue on top of the last stored value unless a change given up is still being undone |
| DismissStore.UndoneKeeps | web/bx-dismiss.js:205-210 | once it is undone, the value shown no longer has it |
| DismissStore.GivenUpAfterFour | web/bx-dismiss.js:168-212 | over any run, a change is given up and undone exactly when four attempts to store it have failed |
| DismissStore.NoChangeIsLost | web/bx-dismiss.js:141-154 | while one page writes, the server ends with every change that was stored, in order, and with no others but those of writes that took effect unanswered |
| DismissStore.Dismissals.Settle | web/bx-dismiss.js:176-180 | the loop over the queue computes the value settled |
| DismissStore.Dismissals.Dequeue | web/bx-dismiss.js:205-205 | the first occurrence of a change leaves the queue |

## Left out

- HTTP, JSON, APNs, JWTs, client addresses and CSS/DOM code: input and output around the cores. What APNs answered and
  whether a workspace could be saved are arguments.
- Handles are values in a map, not shared pointers; a deep copy is a copy. In a fold, blocks are values in a map under
  their keys, and a transcript's segments hold their folds as values.
- TranscriptClass.Transcript.SplitLiveTail: both parts of a split tail share the block objects, which the model
  copies; so a later write through the newer part's fold does not reach the older part's copy. No event that the tail
  may take writes to one (`AnyOrder.OlderStay`).
- FoldSplit.FoldSplits: rising turn numbers are enough for the seed but not necessary; `FoldSeed` has the exact
  condition, its converse for logs in which no `files.changed` names a call by its id (one that finds the wrong call
  may patch it with what it has, and show nothing).
- SplitExactly.SplitShowsExactly: for the newer part one direction. Two kinds of event refer to an older block without
  writing to it, and what they leave different in the newer part is seen only if other events follow: a turn's changes
  placed before an older marker, and a call that names an older card.
- RelayTheorems.NoAcknowledgedChangeIsLost: of the crash that ends the process; every later life is
  `RelaySurvival.AcknowledgedSurvivesForever`.
- RelayTheorems.FamilyStaysTogether: for runs between opens; what a crash and a start do to a family is in
  `RelayFamilies`.
- Pow.OneKeyPerChallenge: of the string posted. The base64 decoder of the source skips line breaks, so one challenge
  has several strings, and each of them can be spent once, with its own work.
- DismissStore.NoChangeIsLost: a write that reaches the server after its failure was reported is not among its steps.
  As a write of someone else's it is one of those of `DismissStore.ShownIsQueueOnStored`.
- Registration.HandleIsSteps: the saving of the workspace is an outcome, not the store's own step.
- PagesTheorems.RunShowsSlice: live events come in step (none is skipped); runs in which they are missing, late or out
  of order are those of `AnyOrderRuns`.
- The status digest, the `fresh` count, versions of the view, history metadata and servers that do not page.
- TranscriptClass.Transcript.AddNewer: without the `gap` block for what the ring lost.
- TranscriptClass.Transcript.ApplyBatch: without the `gap` block, the `fresh` count and the status digest.
- A ring that dropped events, the `gap` blocks that say so, and other events without a sequence number.
- The two-reads rule by which dismissals of vanished items are pruned (`seen`), and the time a dismissal records,
  which the code reads at each application of the change and the model fixes when the change is made.
- Integer widths: counters, sequence numbers and Unix times are unbounded, except an expiry's 64 bits in a challenge.
  A wait too long for a 64-bit duration is not modelled; floating point in the limiter is exact.
- When a compaction starts is left open (any append may ask for one); file names, modes and temporary files are not
  modelled, and an open serves before its removal of orphans is durable, where the source waits.
- `SolvePoW`, which searches for a nonce, and the diff counters.
