# jjfx: what its event loop, agent fold, reports and parsers keep

jjfx drives a `jj` repository from a terminal. This project models the parts of it whose
correctness spans many steps, and proves what they keep.

- **The TUI event loop** (`src/app.rs`). `App::handle` folds one message into the state and
  returns effects; a runtime performs them later and answers with messages in any order.
  `App.dfy` is the state machine, `AppShell.dfy` the object whose methods update its fields in
  place, each proved to take exactly the machine's step. `AppSteps.dfy` shows that every message
  takes the App by one of a dozen shapes of step; `AppExclusion.dfy`, `AppLifts.dfy` and
  `AppIdentities.dfy` draw the invariants from them, `AppRuns.dfy` carries those over every run, and
  `AppLoop.dfy` over the batches the loop of `src/lib.rs` folds. What a message brings about is stated
  beside this from the message and the state alone: the effects it asks for (`AppEffects.dfy`), the
  lifts it has accepted and what the answers of setups and deletions leave, over runs
  (`AppRequests.dfy`), the view a key leads to (`AppModes.dfy`) and the footer (`AppFooter.dfy`). All that is assumed of the runtime is that each lift it was asked for is answered at most
  once, with its own job, and that every store lists `default`. Setup, deletion and timer
  messages may be invented, late, repeated or reordered.
- **The agent lifecycle fold** (`src/agent.rs`): an append-only log folded into workspace agents
  and child sessions (`Agents.dfy` the fold and its trace properties, `AgentMeaning.dfy` what it comes to, told from
  the positions of the events, `AgentLog.dfy` the object),
  and the child report built on it (`src/children.rs`, `ChildReport.dfy`). Canonical paths are one
  fixed function.
- **Indexes, reports and protocols of the command line** (`src/cli.rs`): the backlog index and its
  lanes (`Backlog.dfy`, `Lanes.dfy`), the listing of a local source (`LocalListing.dfy`), the session feed (`SessionFeeds.dfy`), the wait loop
  (`Wait.dfy`).
- **Codecs** (`src/cli.rs`): the `dispatch` command line and the one the detached runner is started
  with (`Argv.dfy`), with what any line means to them (`ArgvMeaning.dfy`), and the hand-written JSON encoder against a decoder written from RFC 8259
  (`Json.dfy`, `DispatchReport.dfy`).
- **Ad-hoc Ticket text** (`src/adhoc_ticket.rs`, `AdHocTickets.dfy`): the slug loop, the heading
  splitter and the parser around them. Which characters are white space is a parameter.

What a fold reads from outside its state (the row under the cursor, whether a workspace is
conflicted, which forges run, the clock, whether a directory exists, what a Worker Pool view makes
of a key) is part of the message.

## What turned out not to hold

- A queued lift of a named workspace may start while that workspace is being deleted, and a
  workspace just created may be opened while it is being deleted: the two steps that start them do
  not look. `AppExclusion.ClearIff` says these are the only two; `AppRuns.QueuedLiftCanStray` and
  `AppRuns.CreatedWorkspaceCanStray` are runs that get there.
- The kind shown for a workspace is not decided by what happened since its last `SessionStart`:
  `Agents.KindCanOutliveAStart`, with the exact condition in `Agents.SuffixDecides`.
- A session first seen without a parent and later with one is on both axes:
  `Agents.SessionCanBeOnBothAxes`, and exactly then: `Agents.BothAxesIff`.
- Events of different workspaces need not commute when they share a session:
  `Agents.SharedSessionNeedNotCommute`. `Agents.DifferentWorkspacesCommuteIff` says exactly when they
  do.
- Quitting can leave a deletion running. The message that sets the quit flag never does, but the loop
  folds the rest of its batch before it looks at the flag (`src/lib.rs:346-395`): `q`, `d`, `y` in one
  batch, `AppLoop.QuitDeleteConfirm`; `AppLoop.QuitLeavesDeletionIff` says exactly when.
- The comment on `pending_workers` (`src/cli.rs:5819-5820`) says every target of a timed-out wait is
  non-terminal. A target that is done satisfies a wait for it, is terminal, and is left out of the
  list: `Wait.TimeoutCanSkipADoneTarget`, with the exact condition in `Wait.NoneIsTerminalIff`. And
  under `--until ticket-resolved` the list may name a target whose Ticket is already resolved:
  `Wait.TimeoutCanNameAResolvedWorker`, with `Wait.TimeoutIsExactIff` for when the list is exact.
- A page that shows one message in two states prints again on every reading:
  `SessionFeeds.InconsistentPageReprints`, and exactly such pages do:
  `SessionFeeds.RereadPrintsNothingIff`.
- A message whose snapshots do not each extend the one before prints more than its final text:
  `SessionFeeds.PrintedOnceIff`.
- `ticket list` over a local source and `dispatch --all` show one reason (`src/cli.rs:3712-3717`)
  exactly where the first lane that lists a Ticket is one that explains it:
  `LocalListing.LocalListAgreesWithFanOut`. Where one lane counts as finished what another explains
  they part: `LocalListing.FinishedHereBlockedThere`.
- A pool whose name starts with a dash does not survive the detached runner's command line:
  `Argv.RunnerRoundTrip` says it does exactly otherwise.
- `jjfx children` shows a session that the service reports under one parent and the fold files
  under another with the default agent: `ChildReport.ReportedChildCanShowAbsent`, and exactly then:
  `ChildReport.RowFollowsLatestParent`.
- The comment on `slug` (`src/adhoc_ticket.rs:158-160`) says it is empty for a value without letters and
  digits. It is `ticket`: `AdHocTickets.SlugOfNothing`.

## Model

| member | source | states |
|---|---|---|
| AppRuns.RunsKeepInv | src/app.rs:563-610 | from any state that satisfies the invariant (exclusion, serial lifts, identities, timers tied to the emitted effects), every run of messages ends in one that does |
| AppRuns.BootsSafely | src/app.rs:487-560 | the starting state satisfies the invariant |
| AppRuns.ReachableAims | src/app.rs:978-1031 | in every reachable state no workspace is being set up and deleted at once, no key press emits an effect aimed at a busy workspace, and any message does so exactly when it starts a stray queued lift or opens a stray created workspace |
| AppRuns.LiftsAreConserved | src/app.rs:2334-2408 | over every run, finished, then running, then waiting lifts are the accepted ones in order; emitted lifts are the finished and the running one; none is outstanding twice; the work outstanding changes by what was accepted less what settled |
| AppRuns.QueueDrains | src/app.rs:2346-2408 | if nothing new is accepted, the queue is idle after as many completions as it had jobs running and waiting, and they finished in that order |
| AppRuns.JobInFlightMayFinish | src/app.rs:2346-2354 | while a lift runs, its answer is always possible, so the queue never waits for good |
| AppRuns.QuitTakesEffectIff | src/app.rs:980-987 | a deletion just started, any run, then its answer: the program ends with that answer exactly when a quit was asked for meanwhile and the deletion succeeded |
| AppRuns.QuitWaitsForTheDeletion | src/app.rs:2224-2276 | through any run without its answer, a deletion stays pending, the program does not end, and a quit is remembered exactly when it was asked for |
| AppRuns.PinnedUntilReplaced | src/app.rs:751-762 | a pinned message that nothing replaced is not cleared by any timer the runtime was asked for by then, however many messages later |
| AppRuns.QueuedLiftCanStray | src/app.rs:2346-2354 | a run after which a lift's completion starts the lift of a workspace that is being deleted |
| AppRuns.CreatedWorkspaceCanStray | src/app.rs:2134-2151 | a run after which a reload opens a created workspace that is being deleted |
| AppEffects.HandleAsks | src/app.rs:563-610 | every message adds to the effects, timers aside, exactly the ones told by the message, the view, the row under the cursor and what is pending, in that order |
| AppEffects.TargetsAreForgeable | src/app.rs:2482-2507 | a forge goes to exactly the rows of known path that no forge runs on, in order |
| AppRequests.LogIsWhatWasAsked | src/app.rs:563-610 | over every run the emitted effects, timers aside, are what its messages asked for, in order |
| AppRequests.AcceptsExactly | src/app.rs:2312-2342 | a message adds to the accepted lifts exactly the job it asks for (`r` on a row that is not busy, `R` while nothing is set up) if that job neither runs nor waits, and nothing otherwise |
| AppRequests.RunsAcceptExactly | src/app.rs:2312-2342 | over every run the accepted lifts are the ones asked for, in order, less those outstanding when asked for |
| AppRequests.SetupAnswer | src/app.rs:2094-2130 | the answer of the pending setup leaves the workspace awaiting its tab exactly when all went well; otherwise its failure is recorded, and shown in the words of what failed |
| AppRequests.CreatedOpensAreSetUp | src/app.rs:2094-2182 | over every run a created workspace is opened only after its setup, then pending, was answered as done |
| AppRequests.DeletionAnswer | src/app.rs:2246-2276 | the answer of the pending deletion leaves the store it brought, and its outcome shown |
| AppModes.KeyLeads | src/app.rs:880-1042 | every key leads to the view told by the key, the view and the row; `w` alone turns the world pane over and `u` alone sets the fetch flag |
| AppFooter.RefusalSays | src/app.rs:1963-1980 | a refusal says which of deletion and setup keeps the workspace busy, deletion first |
| AppFooter.EnqueueSays | src/app.rs:2334-2374 | a lift is refused in those words exactly when it is outstanding; otherwise it is last in the queue, shown with the running job, how many wait and how many failed |
| AppFooter.CompletionSays | src/app.rs:2381-2408 | a completion with lifts waiting shows the next of them, and its own failure counted |
| AppFooter.ReloadSays | src/app.rs:2134-2182 | the reload a created workspace awaits settles it, and says created exactly when it opens it |
| AppFooter.OpenKeysSay | src/app.rs:1995-2015 | opening a row says why it is busy, or that it has no path, or nothing |
| AppFooter.ForgeSays | src/app.rs:2482-2507 | a forge that starts clears the footer; one that cannot names the last row without a path, or says there is nothing to forge when none lacks one |
| AppExclusion.HandleExcludes | src/app.rs:1963-2113 | every message keeps: the tombstone of a pending deletion is listed and not being set up, `default` is listed and never busy, and a deletion awaiting confirmation, even under the help overlay, is of a workspace that may be deleted |
| AppExclusion.KeyPressAims | src/app.rs:880-1031 | no open, resolve, diff, named lift, forge, create or delete emitted by a key press is aimed at a workspace being set up or deleted |
| AppExclusion.ClearIff | src/app.rs:563-610 | a message aims at a busy workspace exactly when it is one of the two that do not look |
| AppExclusion.LiftedClearIff | src/app.rs:2381-2408 | a completed lift starts one aimed at a busy workspace exactly when the head of the queue names one |
| AppExclusion.ReloadedClearIff | src/app.rs:2134-2151 | a reload opens a busy workspace exactly when the created workspace awaiting it is busy, listed where it was created, and a directory |
| AppLifts.AnswerIsInFlight | src/app.rs:2381-2382 | the only lift answer that can arrive is that of the job in flight, although the code does not check it |
| AppLifts.SettlesSerially | src/app.rs:2381-2408 | a completion keeps the queue serial, first-in first-out, duplicate-free, with failures and count those of the current batch |
| AppLifts.OthersStaySerial | src/app.rs:2334-2354 | and so does every other message |
| AppLifts.DrainSumsUpTheBatch | src/app.rs:2390-2404 | when the queue drains, the footer reports failure, with every error in order, exactly when some job of the batch failed, "nothing to lift" exactly when all were up to date, and otherwise the job by name or, from two lifts on that end with a named one, their number |
| AppIdentities.IdentityIs | src/app.rs:660-665 | the k-th identity is ((k-1) mod (2^64-1)) + 1, so never 0 |
| AppIdentities.IdentitiesRepeatIff | src/app.rs:660-665 | two allocations share an identity exactly when a whole number of 2^64-1 allocations lies between them |
| AppIdentities.HandleIdentifies | src/app.rs:2224-2244 | every message keeps: the counter is the last identity, each deletion asked of the runtime carries its own, and a pending deletion is the last one asked for |
| AppIdentities.AnswerSettlesIff | src/app.rs:2246-2260 | the answer to any deletion ever asked for, late or repeated, settles the pending one exactly when both are of one workspace with whole cycles between them, and otherwise changes nothing |
| AppIdentities.OnlyItsOwnAnswerSettles | src/app.rs:2246-2260 | within 2^64-1 allocations, only the pending deletion's own answer settles it |
| AppIdentities.PendingUntilAnswered | src/app.rs:2224-2276 | no other message ends or replaces a pending deletion |
| AppIdentities.QuitsWithNothingPending | src/app.rs:980-987 | the message that sets the quit flag leaves no deletion pending |
| AppLoop.FlagSetIff | src/app.rs:980-987 | the flag is set by a quit key with no deletion pending, or the answer of a deletion that succeeded while a quit waited, and by nothing else, and is never taken back |
| AppLoop.DeletionStartsIff | src/app.rs:1930-1943 | a deletion starts by a `y` in the confirmation of a listed workspace, with none pending, and by nothing else |
| AppLoop.QuitLeavesDeletionIff | src/lib.rs:346-395 | messages folded before the flag is looked at end with it set and a deletion pending exactly when one of them, folded after the quit, confirmed the deletion of a listed workspace and its answer is not among the rest |
| AppLoop.ProgramLeavesDeletionIff | src/lib.rs:346-395 | so the program ends leaving a deletion running exactly when the last batch it folded was such a one |
| AppLoop.QuitDeleteConfirm | src/lib.rs:346-395 | `q`, `d`, `y` on any row in one batch is one |
| AppShell.App.FoldBatch | src/lib.rs:356-382 | folds a batch in order with its reloads collapsed into one at the end, taking the object along the run those messages are |
| AppShell.App.EventLoop | src/lib.rs:346-395 | folds batch after batch up to the first that leaves the flag set, and keeps the invariant of the runs on the object |
| AppIdentities.QuitWaits | src/app.rs:980-987 | while a deletion is pending, a quit key is remembered and nothing else is |
| AppIdentities.AnswerDecidesQuit | src/app.rs:2264-2275 | the answer lets a waiting quit through exactly when the deletion succeeded, and drops it otherwise |
| AppIdentities.ExpiryClearsItsOwnMessage | src/app.rs:602-606 | a timer the runtime was asked for clears nothing but the message it was armed for, and nothing once a newer one is shown |
| AppIdentities.PinnedOutlivesTimers | src/app.rs:759-762 | a pinned message survives every timer the runtime was ever asked for, in any order and any number of times |
| AppIdentities.TransientGoes | src/app.rs:748-755 | a transient message arms a new generation and goes when that timer fires |
| AppIdentities.HandleKeepsFooter | src/app.rs:748-762 | no message disarms or relabels a generation, generations only grow, and the armed ones stay those the runtime was asked to time |
| AppSteps.HandleSteps | src/app.rs:563-610 | every message takes the App by one of a dozen shapes of step |
| App.FindSnoc | src/store.rs:287-291 | lookup in a store with one more row finds the earlier row of that name if there is one |
| App.RestoreFinds | src/store.rs:395-404 | restoring a workspace that is not listed makes its name find it, and changes what no other name finds, although every row may move |
| App.SortOrders | src/store.rs:400-403 | the rows are put in order, `default` first and then by name, and none is lost or gained |
| App.FindSorted | src/store.rs:400-403 | the sort is stable: every name finds the row it found before |
| AppShell.App.constructor | src/app.rs:487-560 | a new App is in the starting state |
| AppShell.App.TakeEffects | src/app.rs:619-623 | hands over what was emitted since the last drain, once |
| AppShell.App.HandleMessage | src/app.rs:563-610 | takes the machine's step and returns exactly the effects emitted since the last drain |
| AppShell.App.OnWorkspaceDispatch | src/app.rs:625-649 | applies the Pool updates one after the other |
| AppShell.App.AllocateOperation | src/app.rs:660-665 | steps the counter, wrapping past 0 |
| AppShell.App.SetStatus | src/app.rs:748-755 | shows a message and arms its generation |
| AppShell.App.OnKey | src/app.rs:880-919 | dispatches a key by mode, `?` opening help where it is not text |
| AppShell.App.OnKeyNormal | src/app.rs:978-1031 | the home list's keys |
| AppShell.App.OnKeyConfirmDelete | src/app.rs:1930-1943 | confirms or drops a deletion |
| AppShell.App.RefuseIfConfiguring | src/app.rs:1963-1980 | refuses, and says why, a workspace being deleted or set up |
| AppShell.App.CreateNamed | src/app.rs:2068-2092 | starts a setup unless the name is empty or listed or a setup runs |
| AppShell.App.OnSetupCompleted | src/app.rs:2094-2130 | settles the setup it answers and no other |
| AppShell.App.OpenPendingCreated | src/app.rs:2134-2182 | opens the created workspace once, if it survived |
| AppShell.App.DeleteNamed | src/app.rs:2224-2244 | starts a deletion under a new identity unless one is pending |
| AppShell.App.OnDeletionCompleted | src/app.rs:2246-2276 | settles the deletion it answers and no other |
| AppShell.App.EnqueueLift | src/app.rs:2334-2342 | accepts a job that is neither running nor waiting, and starts an idle queue |
| AppShell.App.PumpLift | src/app.rs:2346-2354 | starts the next job when none runs |
| AppShell.App.OnLifted | src/app.rs:2381-2408 | counts the outcome, then starts the next job or sums the batch up |
| AppShell.App.BeginForge | src/app.rs:2482-2507 | skips running forges and unknown paths, and emits the rest in order or says why there are none |
| AppShell.App.OnStoreReloaded | src/app.rs:2542-2558 | takes the new store over, keeps the tombstone, opens what awaited it |
| Agents.AxesDoNotInterfere | src/agent.rs:346-408 | for any log, the workspace map is the one of the log without its child-routed events, the children map the one of only those, although routing depends on the evolving children |
| Agents.WorkspaceProjection | src/agent.rs:302-368 | each workspace's agent is a single-session fold over only its own root-routed events |
| Agents.DifferentWorkspacesCommuteIff | src/agent.rs:346-408 | events of different workspaces commute exactly when neither decides where the other goes, or both go to one child that takes them either way round, or the one that could go either way changes nothing either way |
| Agents.FoldOrdersAgreeIff | src/agent.rs:179-228 | two events give an agent the same state and kind in both orders exactly when neither sets what the other would overwrite or resume, whatever the agent |
| Agents.SharedSessionNeedNotCommute | src/agent.rs:377-408 | two events of one session in two workspaces that do not commute |
| Agents.SuffixDecides | src/agent.rs:346-368 | state and session depend only on the events from the last start on; the kind does too exactly when some of them sets it |
| Agents.KindIsTheLastOneSet | src/agent.rs:283-310 | the kind shown is the last one set by an event that counted |
| Agents.KindCanOutliveAStart | src/agent.rs:298-310 | a start that keeps the kind of the session before it |
| Agents.SessionGuard | src/agent.rs:353-368 | while a session is active, only its own events and legacy ones without a session count |
| Agents.ActiveSessionGuard | src/agent.rs:353-407 | over any continuation of any log without a new root start, a workspace's session stays and its agent is folded from that session's events alone |
| Agents.SessionCanBeOnBothAxes | src/agent.rs:377-408 | a log that makes one session active in its workspace and a child |
| Agents.BothAxesIff | src/agent.rs:377-408 | a session is on both axes exactly when it is first seen without a parent and later with one |
| Agents.ActiveSessionIsNeverAChild | src/agent.rs:377-408 | if every child session names its parent when first seen, no workspace's active session is ever one |
| Agents.ChildrenAreFiledByLatestParent | src/agent.rs:377-408 | a session is tracked as a child exactly when some event named its parent, and under the latest one named |
| AgentMeaning.SessionFoldMeaning | src/agent.rs:346-368 | for any events of one workspace, its session is the first one named since its last start (a start that names none counts as naming none), and its agent the fold of exactly the events that counted when they came |
| AgentMeaning.WorkspaceMeaning | src/agent.rs:346-374 | and so at every key of the fold of any log |
| AgentMeaning.StateMeaning | src/agent.rs:179-228 | the state shown is the one the last event that sets a state set, except that attention is resolved by a later event that resumes work |
| AgentMeaning.KindsMeaning | src/agent.rs:283-310 | which provider an event names, and whether it names one |
| AgentMeaning.KindMeaning | src/agent.rs:298-310 | the kind is the one the last event that sets it names, or unknown |
| AgentMeaning.ChildMeaning | src/agent.rs:377-408 | the agent of a child is the fold of all its events, in order: none is taken for stale |
| AgentLog.AgentStates.FromLog | src/agent.rs:337-343 | replays a log |
| AgentLog.AgentStates.Apply | src/agent.rs:346-374 | one event, routed, guarded and folded in place |
| AgentLog.AgentStates.ApplyToChild | src/agent.rs:377-408 | takes an event over exactly when it belongs to a child |
| AgentLog.AgentStates.ChildrenOf | src/agent.rs:416-424 | lists exactly the children of a parent, strictly sorted |
| AgentLog.AgentStates.AgentFor | src/agent.rs:431-437 | the agent of a path, by its tracked key or its canonical one |
| AgentLog.AgentStates.Track | src/agent.rs:332-335 | remembers a path's canonical key |
| AgentLog.ListsPartitionChildren | src/agent.rs:416-424 | a session is in the list of exactly the parent it was last filed under |
| ChildReport.Collect | src/children.rs:89-129 | strictly sorted unique rows, exactly the union of the fold's children and the reported ones, each with the fold's agent if it tracks it and the last report's title and directory |
| ChildReport.MergeOne | src/children.rs:104-127 | one reported session merged into the rows |
| ChildReport.RowFollowsLatestParent | src/children.rs:89-129 | a row shows the fold's agent exactly when the parent asked about is the latest the session named |
| ChildReport.ReportedChildCanShowAbsent | src/children.rs:89-129 | a log and a report that show a waiting session absent |
| ChildReport.LogReportIsTheFoldsList | src/children.rs:89-129 | without the service, the report is the fold's list, row by row |
| Backlog.TicketBacklog.Insert | src/cli.rs:3683-3701 | one more insertion, the index mapping each Ticket to the one position that holds it |
| Backlog.TicketBacklog.Record | src/cli.rs:3610-3651 | a local Ticket's verdict, the source's own reason first |
| Backlog.LocalVerdictMeaning | src/cli.rs:3610-3651 | a local Ticket is ready, finished, not ready or blocked exactly when the lane takes it, says nothing of it, explains it under another status, or under its own; the reason is the first given |
| Backlog.TicketBacklog.RecordDiscovery | src/cli.rs:3657-3679 | a lane's Tickets, then its diagnostics |
| Backlog.TicketsMeaning | src/cli.rs:3595-3701 | the list holds each inserted Ticket once |
| Backlog.TicketsInFirstOrder | src/cli.rs:3595-3701 | in the order in which they were first inserted |
| Backlog.PickSnoc | src/cli.rs:3683-3701 | an insertion changes a Ticket's entry exactly when it is the first to ready it |
| Backlog.InsertKnown | src/cli.rs:3683-3695 | an insertion of a listed Ticket keeps the index and the entries' meaning |
| Backlog.InsertNew | src/cli.rs:3695-3701 | and so does one of a new Ticket |
| Backlog.ListAgreesWithFanOut | src/cli.rs:3657-3679 | over a source with no backlog of its own, what the list shows ready is what the fan-out routes; what it shows blocked is what the fan-out reports, with the same reason |
| LocalListing.ListLocal | src/cli.rs:3757-3770 | folds every lane's backlog in with that lane's verdicts |
| LocalListing.LocalListAgreesWithFanOut | src/cli.rs:3610-3770 | over a local source, what the list shows ready is what the fan-out routes; what the fan-out reports is listed, with the same reason exactly when the first lane that lists it explains it |
| LocalListing.FinishedHereBlockedThere | src/cli.rs:3610-3651 | two lanes over which the list says finished and the fan-out gives a reason |
| Lanes.FanOut | src/cli.rs:4088-4158 | the routed Tickets, and the reports of the others |
| Lanes.FirstReportsMeaning | src/cli.rs:4100-4125 | one report a subject, the first made of it, in the order they were made |
| Lanes.FanOutConserves | src/cli.rs:4088-4158 | every subject some lane took or diagnosed is in exactly one of routed and unrouted, which is duplicate-free, in first-report order, with the first reason |
| SessionFeeds.SessionFeed.Fresh | src/cli.rs:5537-5551 | the lines not yet printed |
| SessionFeeds.ReadingPrints | src/cli.rs:5537-5551 | one reading prints exactly the present text of the lines that are new or differ from the last state of their message, in page and line order |
| SessionFeeds.LastPrintedIsShown | src/cli.rs:5530-5551 | whenever a reading ends, the last text printed at each line of a message is the one it shows |
| SessionFeeds.PrintedOnce | src/cli.rs:5530-5551 | over any pages, if each message only extends, what is printed of it over all readings is its final text, each line once and in order, even when it leaves the page and returns |
| SessionFeeds.PrintedOnceIff | src/cli.rs:5530-5551 | and every message prints exactly its final text exactly when every snapshot extends the one before it |
| SessionFeeds.PrintsInMessageOrder | src/cli.rs:5537-5551 | one reading prints in the order of the page's messages |
| SessionFeeds.PassesAreOneStretch | src/cli.rs:5537-5551 | reading page by page prints what reading them in one stretch would |
| SessionFeeds.RereadPrintsNothingIff | src/cli.rs:5537-5551 | every further reading of an unchanged page prints nothing exactly when the page shows each message in one state |
| SessionFeeds.AfterIsIdempotent | src/cli.rs:5537-5551 | reading a page again changes nothing that is remembered |
| SessionFeeds.InconsistentPageReprints | src/cli.rs:5537-5551 | the smallest page that prints again |
| Wait.WaitVerdict | src/cli.rs:5784-5817 | the loop's verdict depends only on the set of targets |
| Wait.VerdictMeaning | src/cli.rs:5784-5817 | satisfied exactly when every target is; unsatisfied exactly when some target is missing or finished without satisfying |
| Wait.ConditionMeaning | src/cli.rs:5784-5817 | what each condition waits for, terminal being done or failed; a terminal wait can fail only for a target that left its Pool, a wait for one outcome also for a target with the other |
| Wait.WaitLoop | src/cli.rs:5653-5688 | ends at the first pass that decides or is past the deadline, and a condition that holds on that pass beats the timeout |
| Wait.WaitWithTimeout | src/cli.rs:5653-5688 | with a timeout and an advancing clock the loop ends, and a timeout names someone |
| Wait.TimeoutNamesPending | src/cli.rs:5819-5830 | the workers named cover every target that does not satisfy, exactly so for the worker conditions |
| Wait.NoneIsTerminalIff | src/cli.rs:5819-5830 | on a pending verdict every target is non-terminal exactly when none has reached the condition, and, for a Ticket's resolution, exactly when no finished target's Ticket is resolved |
| Wait.TimeoutCanSkipADoneTarget | src/cli.rs:5819-5830 | a pending wait with a terminal target that the list leaves out |
| Wait.TimeoutIsExactIff | src/cli.rs:5819-5830 | when the list is exact |
| Wait.TimeoutCanNameAResolvedWorker | src/cli.rs:5819-5830 | a list that names a target which satisfies |
| Argv.RejectUnknownFlags | src/cli.rs:565-599 | the first word no table entry takes, skipping the values of those that take one |
| Argv.TableAgreesWithArms | src/cli_help.rs:251-326 | the flag table and the parser's match arms name the same options and agree on which take a value |
| Argv.ParseDispatch | src/cli.rs:1176-1297 | the flag check and the parse loop |
| Argv.AcceptedIsWellFormed | src/cli.rs:1164-1297 | whatever is accepted satisfies every exclusion rule |
| Argv.RenderRoundTrip | src/cli.rs:1176-1297 | the canonical command line of any well-formed arguments parses back to them |
| Argv.WellFormedIffReachable | src/cli.rs:1164-1297 | the rules say exactly which arguments some command line can produce |
| Argv.CheckPassesWhatLoopTakes | src/cli.rs:565-599 | the flag check turns away nothing the loop would take |
| Argv.UnknownOptionsAreTheChecks | src/cli.rs:565-599 | an unknown option is only ever reported by the check |
| ArgvMeaning.DispatchMeaning | src/cli.rs:1164-1297 | any line is accepted exactly when its words are proper and do not exclude each other, and means: foreground exactly when `--fg` is there, each switch set when its word is, each option its last value, the Tickets the plain words in order |
| ArgvMeaning.RefusalMeaning | src/cli.rs:1164-1297 | every refusal is true of the line it refuses |
| ArgvMeaning.ParseU32Meaning | src/cli.rs:1243-1250 | a budget is decimal digits, after at most a plus sign, below 2^32 |
| ArgvMeaning.OrchestrateMeaning | src/cli.rs:1418-1460 | the runner takes exactly the lines of proper words in which no option has two values, and reads the parent, the values and the force flag off them |
| Argv.ParseOrchestrate | src/cli.rs:1418-1460 | the detached runner's parser |
| Argv.OrchestrationArgv | src/cli.rs:6425-6445 | the detached runner's command line |
| Argv.RunnerRoundTrip | src/cli.rs:6425-6445 | for all arguments some command line can produce, the runner reads back the parent, pool, provider, model and force flag exactly when the pool's name does not start with a dash |
| Json.JsonString | src/cli.rs:3003-3026 | the encoder's loop |
| Json.StringRoundTrip | src/cli.rs:3003-3026 | an RFC 8259 section 7 decoder gives every string back, whatever follows it |
| Json.EncodingIsSelfDelimiting | src/cli.rs:3003-3026 | no encoding can be mistaken for another's beginning |
| Json.JsonStringArray | src/cli.rs:3029-3039 | the array's loop |
| Json.StringArrayRoundTrip | src/cli.rs:3029-3039 | decodes as the section 5 array of the same strings |
| Json.ArrayReads | src/cli.rs:5157-5197 | texts that each decode still do when joined by commas, with any white space, in brackets |
| Json.ObjectReads | src/cli.rs:5157-5197 | and members in braces |
| DispatchReport.DispatchJson | src/cli.rs:5157-5197 | the report's loops and comma placement |
| DispatchReport.EntryReads | src/cli.rs:5170-5193 | an entry decodes as the object of its fields, in order |
| DispatchReport.BatchRoundTrip | src/cli.rs:5157-5197 | the report decodes as the array of its entries, in order |
| DispatchReport.DispatchedSays | src/cli.rs:4911-5073 | a dispatched Ticket reads as `dispatched` with its Worker and process |
| DispatchReport.FailedSays | src/cli.rs:4911-5073 | a failed one as `failed` with its phase and the Worker, if any |
| DispatchReport.HeldSays | src/cli.rs:4911-5073 | waiting, skipped and orchestrating ones under those words, with the reason alone |
| DispatchReport.SearchSays | src/cli.rs:4911-5073 | a search as skipped, with its label and root and no Ticket |
| DispatchReport.FieldsDecideTheEntry | src/cli.rs:5170-5193 | no two entries read alike |
| AdHocTickets.Slug | src/adhoc_ticket.rs:161-180 | the one-pass loop gives the maximal alphanumeric runs, lower-cased and joined by single hyphens, or `ticket` if there are none |
| AdHocTickets.PassMeaning | src/adhoc_ticket.rs:161-180 | what the loop still writes from any point in its run |
| AdHocTickets.SlugOfSeparated | src/adhoc_ticket.rs:161-180 | text around a separator gives the two slugs and a hyphen |
| AdHocTickets.SlugIsIdempotent | src/adhoc_ticket.rs:161-180 | a slug is its own slug |
| AdHocTickets.SlugIsSafe | src/adhoc_ticket.rs:161-180 | a slug is never empty and holds nothing but lower-case letters, digits and hyphens |
| AdHocTickets.SlugOfNothing | src/adhoc_ticket.rs:161-180 | a value without letters and digits has the slug `ticket` |
| AdHocTickets.HeadingRoundTrip | src/adhoc_ticket.rs:124-139 | a heading, a blank line and a body are split back into the two |
| AdHocTickets.TitleIsEmptyIff | src/adhoc_ticket.rs:124-139 | when no title is found |
| AdHocTickets.HeadlessMeaning | src/adhoc_ticket.rs:124-139 | without a heading the whole text, trimmed, is the body, and its first line that is not blank, trimmed, the title |
| AdHocTickets.FirstLineMeaning | src/adhoc_ticket.rs:132-137 | which line that is |
| AdHocTickets.TrimMeaning | src/adhoc_ticket.rs:124-139 | trimming takes white space off both ends and nothing else |
| AdHocTickets.FirstWordsMeaning | src/adhoc_ticket.rs:142-150 | the first words are the maximal stretches without white space, no more than asked for, with single spaces between |
| AdHocTickets.IdMeaning | src/adhoc_ticket.rs:77-97 | the identifier is the one given, else one made from the file name, else from the first six words of the title; parsing fails exactly for want of a title or for a bad identifier |
| AdHocTickets.DerivedIdIsAccepted | src/adhoc_ticket.rs:77-97 | with a derived identifier, parsing fails exactly for want of a title |
| AdHocTickets.ParseRoundTrip | src/adhoc_ticket.rs:77-97 | a Ticket written as a heading and a body parses back to itself |

## Left out

- AppShell.App.OnKeyNormal: moving the cursor, folding idle rows and scrolling change nothing modelled and are no-ops.
- AppShell.App.OnKey: a Worker Pool view's own keys, text buffers and confirmations are one step that may change the mode, allocate an identity and set the footer; key releases are `Ambient`.
- AppShell.App.CreateNamed: trimming the name does nothing to the characters the dialog accepts and is left out.
- AppShell.App.SetStatus: footer texts are values naming the message and what it carries; their wording is not modelled, and the generation counter is unbounded where the code's is 64 bits wide.
- Agent events, work snapshots, graph and diff loads, setup output and ticks reach the App as `Ambient`: they touch only what is drawn.
- Wait.WaitLoop: without a timeout the loop may run for ever; the pass at which it settles is then a hypothesis.
- Json.StringRoundTrip: the decoder reads what the encoder writes, natural numbers included, but not booleans, fractions or exponents.
- LocalListing.LocalListAgreesWithFanOut: that a local lane's Ready set takes or explains only Tickets of its own backlog (`src/engine/local_tickets.rs:328-359`) is a hypothesis.
- AppShell.App.EventLoop: the batches are given, since which messages wait in the channel is the runtime's doing; drawing and the animation gate are not modelled.
- Lanes.FanOut: a lane whose discovery or dispatch fails ends the command in the code and is not modelled.
- AdHocTickets.ParseRoundTrip: reading the text from a file or standard input is not modelled; which identifiers are valid is a parameter.
- Argv.ParseDispatch: the wording of errors, and what a help flag prints.
- Parsing of log lines with serde, the projection of the store, the engine, forge, `jj`, the Worker Pool session, spending and provisioning are behind the messages and are not part of this model.
- Rendering, help pages, attention lanes, display helpers and the other subcommands: presentation over finite tables, or plumbing, that would only add easy members.
