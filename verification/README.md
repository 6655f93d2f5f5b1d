# The admin panel, modelled and proved

A Dafny model of the hard parts of the pi-dispatch admin package, with proofs of what they promise:

- the overlay of `admin/src/dashboard.ts` as a concurrent state machine: keys, ticks, frames and the settling of every
  suspended read, in any order;
- its layout allocators (trigger rows, the LIST row budget), its text splitters (wrapping, broken calls, proxy names),
  its rows, search and reset countdowns;
- the receiver step of `admin/src/setup-wizard.ts`, which hands `up`'s Valkey to compose, with the writes that
  `admin/src/index.ts` addresses by raw index.

`dafny verify dfyconfig.toml` checks the whole project.

## How the overlay is modelled

`Overlay.dfy` is the specification: a `State`, one function for each event, and the runs they make. A suspended
coroutine is what it captured before its `await`, held under an id in the pool of its part of the panel; resuming it is
an event, and what it resumes with is the environment's choice (`Enabled` says what that may be). `Panes.dfy` and
`Dashboard.dfy` are the program: classes whose fields are `makeDashboard`'s closure variables, grouped by the part of
the panel they belong to, and one method for each key handler and each place where a coroutine resumes, written in the
source's order of assignments. Suspended coroutines and the history of armings and calls are ghost fields. Every public
method is proved to take exactly one step of the specification and to leave the object in a reachable state, so each
theorem about reachable states (`OverlayInvariant.dfy`, `OverlaySteps.dfy` and the modules after them) is a theorem
about the object. The overlay is wired with the seams `index.ts` gives it.

Beside what every event keeps, three modules say what the events do, from what is on screen alone: `OverlayTick.dfy` (a
tick reads on and draws what it read), `OverlayCalls.dfy` (which calls and armings each event makes, over every run) and
`OverlayViews.dfy` (where each key leads, what the opened view holds, and how its cursor moves).

The source's ordering is kept: a lone `z` in LIST is handled before an armed cancel and before the open message input,
a rejected tail read writes its note without a generation check, and `done` may be called more than once.

The text splitters are stated over a cut and a width with two laws (a cut is a start of the text and no wider than it
was asked to be; a text is no narrower than its start or its end). `Clusters.dfy` builds the cut that the source makes
from `sliceColumns` and `cutUnits`, over any segmenter, and proves that it obeys them. `fitTriggerRow` assumes laws of
the row it is given alone: that its lines can be padded and cut (`LawfulRow`) and, for the clauses about leftover
columns, that however it is laid out it is as wide as its parts (`UnitWidth`). The search draws lines through any
function, and the transcript's page size and retention are any numbers.

## How the hand-over is modelled

`Handover.dfy` is the receiver step: a class whose methods take its steps, each of which may fail and leave nothing,
something or all of its effect, with the states it goes through as history. `Passes.dfy` adds `pi-dispatch up`, which
every setup asks to run first: another program, so it is the guards of its Valkey step and what its commands leave
behind. A Valkey of this deployment that runs listens on the deployment's port, which is what `up` probes, and no second
one can bind it.

## Where the code does less than its comments say

Each of these has a concrete counterexample and an exact condition below.

- `wrapColumns` and `hardWrap` can emit a line that is too wide although every grapheme cluster fits: a cluster that
  ends in a joiner is longer than the slice, which drops the joiner, unless the next character fits too
  (`JoinerLeavesALineTooWide`, `WrapFitsIffRoom`, `HardWrapText`).
- `callLines` says that its last resort keeps every character on screen. A piece too wide for the line goes through
  `wrapColumns`, which drops the spaces it breaks at, so a panel no wider than the tool's name drops the space after it
  (`ALimitCallLosesItsSpace`, `CallIsExactIffWiderThanItsName`; for any call, `NarrowCallLosesItsSpace` and
  `RowsAreTheCallIff`).
- `proxyName` prints a blank name as a sentence, and prints a proxy literally so named in the same way
  (`ASpaceIsPrintedLikeItsSentence`, `PrintsAlikeIff`).
- The reset countdowns pass the year to `Date.UTC`, which reads 0 to 99 as 1900 to 1999
  (`TheYearFiftyIsTakenFor1950`, `ResetIsTheNextStartIff`).
- The note under a tail can belong to another run: a rejected read of a tail already left still writes it
  (`NoteOfAnotherRun`, `StaleReadWritesOnlyItsRejection`; over every run, `NoteIsOfItsReadsJob`).
- A receiver step that fails leaves the override as it found it, except where its unlink failed, which it says, and where
  its write failed half-way, which it does not say (`FailedRunPutsTheOverrideBackIff`).
- A compose that fails after `up`'s container is removed takes the override away again. A setup run again serves the queue
  only through its `up`; where the failed compose left its own valkey running, `up` finds the port taken and leaves it,
  and the receiver step then moves compose to its own volume (`RetryServesTheQueueIff`, `CleanRetryServesTheQueueIff`).
- `up` reads whose queue an unlabelled volume holds with a Valkey of its own, and does not ask whether that one stopped
  before it starts another on the volume. The one left carries this deployment's label, so a later `up` or hand-over takes
  it for its own and can start beside it too (`TheOwnerCheckCanServeBesideUp`, `ALaterUpCanServeBesideIt`,
  `NeverTwoOnTheVolumeIff`). `up`'s Valkey and compose's are never both there (`NeverBothOnTheVolume`).
- A hand-over takes an unlabelled volume that `up`'s container serves without asking whose it is, and records it only
  where docker dates it and the write takes. Where it has no record, the next setup asks for the adoption of the volume
  it has just handed over (`AnUndatedVolumeIsAskedAboutAgain`, `CleanRunIsRepeatableIff`).
- The comment above `buildRows` puts the ACTIVE row first; the code, and the model, put the triggers first.

## Model

| member | source | states |
|---|---|---|
| `OverlaySteps.StepKeeps` | admin/src/dashboard.ts:420-676 | every event the environment can make, from every state with the invariant, leads to one: one refresh and one bounded read in flight, tail reads of the shown job after its cursor, captured targets, open questions only in their views |
| `OverlaySteps.ReachableInv` | admin/src/dashboard.ts:371-676 | the invariant holds in every state of every interleaving of keys, ticks, frames, settling reads and disposal |
| `OverlayTheorems.TailShowsTheLastEntriesOfItsJob` | admin/src/dashboard.ts:420-478 | LIVE_TAIL holds exactly the last min(200, n) of the n entries read since it opened, all of the shown job's stream, each once and in order, ending at the cursor, and consecutive unless the stream's head was trimmed; outside LIVE_TAIL nothing of a tail is held |
| `OverlayTheorems.RefreshesNeverOverlap` | admin/src/dashboard.ts:607-646 | at most one refresh is suspended, and only while `fetching` is up |
| `OverlayTheorems.StaleReadWritesOnlyItsRejection` | admin/src/dashboard.ts:440-449 | a read of a tail that was closed changes the tail exactly when it is rejected, and then only its note |
| `OverlayTheorems.NoteOfAnotherRun` | admin/src/dashboard.ts:635-638 | a run of five events after which job b's tail carries the rejection of job a's read |
| `OverlayNotes.NoteIsOfItsReadsJob` | admin/src/dashboard.ts:440-449 | over every run there is a note exactly where some read left one that nothing has cleared since, a stale read's rejection included; it is the shown job's where that read is of the opening on screen, and else of the job that read was for |
| `OverlayTheorems.OneTickDrainsTheTranscript` | admin/src/dashboard.ts:61-68 | for any page size P and retention M: the page loop reaches the end of any stream with at most M entries past the cursor that does not grow meanwhile, in at most one page more than its entries fill, and never in more than ceil(M/P)+1 |
| `OverlayTheorems.ElevenPagesDrainTheTranscript` | admin/src/dashboard.ts:448-466 | with the read model's pages of 200 and retention of 2,000, eleven pages |
| `OverlayTheorems.ReachableLoopIsReady` | admin/src/dashboard.ts:448-466 | every page loop met in a reachable state is in the state that `OneTickDrainsTheTranscript` starts from, with no end entry read yet and a page left in the bound |
| `OverlayTick.ATickReadsOn` | admin/src/dashboard.ts:437-450 | from every reachable state in LIVE_TAIL with nothing in flight, a tick whose snapshot and phase are answered asks for the page after the cursor until the stream has ended; where no stream is known yet it does so once there is one, and asks for the log where there is none |
| `OverlayTick.ATickShowsTheStream` | admin/src/dashboard.ts:448-468 | at the end of that tick and its pages the cursor is at the end of the stream, everything between has been read, and the pane draws the last min(200, n) of the n entries read since the tail opened, each of the shown job, in order, with the stream's end |
| `OverlayTick.ATickShowsTheLog` | admin/src/dashboard.ts:470-476 | where there is no stream, the log's text becomes the pane, or the pane says there is none |
| `OverlayTick.ARefreshKeepsTheDrawnLines` | admin/src/dashboard.ts:466 | whatever a refresh is answered, the lines wrapped by the last frame stay, so that a key pressed before the next one scrolls over what is on screen |
| `OverlayTick.TheSnapshotIsShown` | admin/src/dashboard.ts:607-643 | an answered snapshot is the one shown and one that fails shows an unreachable fleet and ends the refresh; WATCH is then read and awaited, and the phase of an active job |
| `OverlayTick.TheRefreshGoesOn` | admin/src/dashboard.ts:615-643 | after WATCH's read a refresh goes on to the phase of an active job, after that to the tail on screen, and ends where there is none |
| `OverlayTick.RefreshesEnd` | admin/src/dashboard.ts:607-646 | whatever it is answered, a resumed refresh has ended or has strictly fewer awaits left, so none goes on for ever |
| `OverlayInvariant.TakePageKeeps` | admin/src/dashboard.ts:455-463 | a page of any size after the cursor leaves the tail the last 200 entries read of its job, ascending, with the cursor at the last one |
| `OverlayInvariant.TailReadResumesKeeps` | admin/src/dashboard.ts:437-478 | a tail read resumed with any answer, late, rejected or of another kind included, keeps the tail its job's and leaves at most one read suspended, after the cursor |
| `OverlayInvariant.LoadCapacityKeeps` | admin/src/dashboard.ts:541-569 | a request for the report, joining or not, keeps one bounded read, one latest request, and that request behind a report that waits |
| `OverlayPromises.NoViewIsLeftWaiting` | admin/src/dashboard.ts:538-574 | while the panel is open, a report that HOSTS or VENUES waits for has a suspended request with the current number whose bounded read is running or settled; ALLOCATION and WATCH with nothing yet have a read running; there is at most one bounded read |
| `OverlayPromises.LatestRequestEndsTheWait` | admin/src/dashboard.ts:565-574 | that request, resumed once its read settles by answer or timer, draws the answer and ends the wait |
| `OverlayPromises.RequestFromBeforeEscapeNeverDraws` | admin/src/dashboard.ts:1014-1020 | a request from before HOSTS was left with Escape never draws, however the run goes on |
| `OverlayPromises.RefreshOnlyReads` | admin/src/dashboard.ts:607-646 | a resumed refresh changes the snapshot, the watch read and the tail's contents, and no view, cursor, question, request or target |
| `OverlayEscape.EscapePopsALayer` | admin/src/dashboard.ts:744-1316 | in every view, question, search or query, Escape strictly lowers the number of layers |
| `OverlayEscape.SettlingAddsNoLayer` | admin/src/dashboard.ts:607-676 | no tick, frame, settling read or disposal raises that number; a parked read that may open RUN_DETAIL is counted before it does |
| `OverlayEscape.ThreeEscapesClose` | admin/src/dashboard.ts:1314-1317 | from every reachable state three Escapes dispose the panel and its clients, whatever settles between them |
| `OverlayTargets.CallsCarryWhatWasArmed` | admin/src/dashboard.ts:489-498 | over every run each cancel carries the job and door, each message the job and mode, and each revert the row captured when it was armed; a message is pushed only as planned; one arming yields at most one call of a kind; the clients are disposed at most once, and exactly when the panel is; no two questions or inputs are open together |
| `OverlayCalls.CallsAreWhatWasAsked` | admin/src/dashboard.ts:744-1518 | over every run the calls made are exactly those its events ask for, in order: `Asked` says what each asks for from what is on screen alone, every key that asks for nothing included |
| `OverlayCalls.KeysMakeTheirCalls` | admin/src/dashboard.ts:764-834 | every key makes exactly those calls, leaves exactly that action pending under a new number, arms exactly the row under its cursor where it can be armed (`t` a steer, `T` a follow-up), disposes exactly where it closes, and leaves open exactly what it armed or did not answer |
| `OverlayCalls.YesCancels` | admin/src/dashboard.ts:765-793 | in every reachable state `y` to an open question makes exactly one cancel, by the door and for the job of the latest arming, awaits it, and closes the question |
| `OverlayCalls.EnterPlans` | admin/src/dashboard.ts:795-833 | Enter in the input has exactly its text planned, for the job and mode of the latest arming, if and only if it is not blank, and closes it |
| `OverlayCalls.YesReverts` | admin/src/dashboard.ts:952-973 | `y` to a revert makes exactly one revert, to the row of the latest arming |
| `OverlayCalls.NoCallsNothing` | admin/src/dashboard.ts:786-790 | Escape, and `n` to a question, call nothing, leave nothing pending and close what was open |
| `OverlayCalls.SettledActionsFollowUp` | admin/src/dashboard.ts:648-655 | a settled cancel, pause, resume or send, and a message that could not be planned, suspend a refresh unless one is in flight or the panel is disposed; a settled revert reads the allocation again; nothing else changes |
| `OverlayCalls.PendingStays` | admin/src/dashboard.ts:648-655 | no action is lost: across any events, until its own call settles it is pending as it was asked for |
| `OverlayCalls.DoneIsToldWhatClosedIt` | admin/src/dashboard.ts:909-940 | a key that closes the panel disposes it and, whatever happens before its clients are gone, `done` is then told exactly what it closed with: a delete only from `y` to its question, an edit of the opened index from `e`, and the page of each letter |
| `OverlayTargets.KeysArmTheRowUnderTheCursor` | admin/src/dashboard.ts:1463-1493 | a key arms nothing, or exactly the row under its cursor, in LIST, HELD_LIST and ALLOCATION |
| `OverlayTargets.OpenLayerTakesEveryKey` | admin/src/dashboard.ts:754-834 | while a question or the message input is open on its view, every key but LIST's `z` changes nothing else, arms nothing, and makes no call but for `y` and Enter; what is typed or pasted, substituted as the input does, is in the message at its cursor, which ends up after it |
| `OverlayTargets.WalkShowsTheRowUnderTheCursor` | admin/src/dashboard.ts:845-863 | an arrow in RUN_DETAIL changes nothing, or shows the run on the row the LIST cursor is then on |
| `OverlayTargets.WalkBackReturnsIff` | admin/src/dashboard.ts:845-863 | a step right and a step left end on the row left, showing its run, if and only if no earlier row names the job stepped to |
| `OverlayViews.WalkMovesIff` | admin/src/dashboard.ts:845-863 | an arrow in RUN_DETAIL shows the run on the next row, and reads where it went on, if and only if the run shown has a row and the next one is a run's; the row counted from is the first that names the job |
| `OverlayTargets.OnlyKeysTouchTheTarget` | admin/src/dashboard.ts:489-498 | no snapshot, tick, frame or settling read changes a question, input or revert that is open |
| `OverlayTargets.ByIdOpensItsJobIff` | admin/src/dashboard.ts:1136-1156 | a parked by-id answer opens the very job its Enter captured, with what its record says of a recovery, if and only if it answers the current number, in PARKED, with the panel open and a record found; else it opens nothing |
| `OverlayTargets.EnterCapturesTheParkedJob` | admin/src/dashboard.ts:1113-1142 | Enter in PARKED opens the first run the snapshot has for the job under the cursor, or, where it has none, reads that job by id under a new number; on no job it does nothing |
| `OverlayTargets.OvertakenReadNeverOpens` | admin/src/dashboard.ts:1094-1112 | a by-id read overtaken by a cursor move, a newer Enter, `k` or Escape opens nothing, however late it answers and whatever happens in between |
| `OverlayTargets.ContinuesNamesTheRunOnScreen` | admin/src/dashboard.ts:575-594 | in every reachable state the "continues" fact names the run on screen and was read for it |
| `OverlayViews.TheRecoveryIsShown` | admin/src/dashboard.ts:584-593 | in every reachable state the answer to the read under the current number is shown as the recovery of the run on screen, and any other answer changes nothing on screen |
| `OverlayTargets.EscapeLandsOnTheTailsRowOrNone` | admin/src/dashboard.ts:1230-1251 | Escape from a tail puts the cursor on that job's ACTIVE row, or, exactly when the rows have none, on no row |
| `OverlayTargets.NoRowNoAction` | admin/src/dashboard.ts:1318-1321 | on no row Enter, `x`, `t` and `T` leave the whole state as it was |
| `OverlayTargets.CursorStaysOffRowsUntilMoved` | admin/src/dashboard.ts:681-682 | across any number of snapshots, frames and other keys the cursor stays on no row until an arrow, Tab or another tail's Escape |
| `OverlayTriggers.DeleteAsksForTheTriggerOpened` | admin/src/dashboard.ts:909-932 | Enter on the k-th displayed trigger and, across any snapshots, ticks and keys that stay in its view, the confirmed delete: it asks for exactly that entry of the file the row was read from, and every other usable entry stays, in order |
| `OverlayTriggers.OpenedStays` | admin/src/dashboard.ts:1322-1332 | no event but the view's own Escape leaves the opened trigger or changes its captured index |
| `OverlayViews.KeysLeadTo` | admin/src/dashboard.ts:744-1518 | every key in every view leads to the view of its row or letter, back to where the view was opened from, or nowhere; an open question, input, revert or delete leads nowhere |
| `OverlayViews.EnterOpensItsRow` | admin/src/dashboard.ts:1318-1344 | Enter in LIST opens exactly the row under the cursor: the trigger's index, a fresh tail of the active job that follows its bottom with a refresh under way, or the run with its recovery being read |
| `OverlayViews.LettersOpenTheirViews` | admin/src/dashboard.ts:1345-1460 | each letter's view opens at its top with its own read under way, only where it has something to show, and changes nothing else |
| `OverlayViews.ADeleteIsAskedFirst` | admin/src/dashboard.ts:909-940 | in TRIGGER_DETAIL `x` asks, `n` and Escape take the question back, and a delete is asked for by `y` while it is up and by nothing else |
| `OverlayViews.ZOpensWatch` | admin/src/dashboard.ts:754-760 | `z` opens WATCH on nothing yet with a read under way, and keeps an open question or message for when LIST is back |
| `OverlayViews.UAsksAgain` | admin/src/dashboard.ts:1021-1026 | `u` in HOSTS keeps the report on screen, marked, behind a current request for a new one |
| `OverlayViews.ArrowsMoveOneRow` | admin/src/dashboard.ts:1494-1503 | an arrow moves the cursor one row, and stays at either end, in LIST, HELD_LIST, PARKED, PROJECTS, VENUES and ALLOCATION alike |
| `OverlayViews.TabGoesToTheSectionHeads` | admin/src/dashboard.ts:1360-1368 | Tab goes from a trigger to the first row below the triggers, and else to the top |
| `OverlayViews.OCyclesTheOrders` | admin/src/dashboard.ts:1369-1375 | `o` goes through four different orders and back, and changes nothing else |
| `OverlayViews.SettledReadsAreShown` | admin/src/dashboard.ts:527-534 | an allocation or watch read that settles, in any order, is what its view shows, which no longer waits |
| `OverlayViews.EnterFiltersByProject` | admin/src/dashboard.ts:1077-1084 | Enter in PROJECTS leaves in LIST exactly the rows of the runs of the project under the cursor, or of all runs where that project was shown already |
| `OverlayViews.SlashOpensTheSearch` | admin/src/dashboard.ts:1268-1274 | `/` opens the search on the query that is armed, and moves nothing |
| `OverlayViews.SearchArmsItsText` | admin/src/dashboard.ts:1198-1216 | in the open search Enter arms exactly its text, or nothing where it is empty, and Escape drops the search, the query and the match |
| `OverlayViews.TheSearchFindsItsText` | admin/src/dashboard.ts:1281-1294 | and then `n` brings a line that contains the text as drawn into the window, wherever there is one |
| `OverlayViews.SearchTakesEveryKey` | admin/src/dashboard.ts:1217-1225 | every other key edits the search's text alone, and what is typed or pasted is at its cursor |
| `OverlayViews.KeysScrollTheTail` | admin/src/dashboard.ts:1275-1311 | any other key of LIVE_TAIL scrolls its window over the lines the last frame drew and changes nothing else |
| `OverlayViews.AFrameClamps` | admin/src/dashboard.ts:678-697 | a frame brings the cursor onto the rows where it is past them, and the tail's window onto the lines it draws: at the bottom where it follows, and where it was if that is still in the tail |
| `Keys.EditingLaws` | admin/src/panel.mjs:1154-1188 | a backspace takes back a character typed, each arrow the other, Home and End go to the ends, and the cursor stays in the text |
| `DashboardComponent.Dashboard.constructor` | admin/src/dashboard.ts:669-675 | the panel opens on LIST, or on a valid run id's tail, with the poll timer set and the first fetch suspended |
| `DashboardComponent.Dashboard.HandleInput` | admin/src/dashboard.ts:744-1518 | a key takes exactly the specification's step and leaves a reachable state |
| `DashboardComponent.Dashboard.Render` | admin/src/dashboard.ts:678-696 | a frame clamps the cursor and the tail's window, and turns a transcript's entries into the lines it wrapped |
| `DashboardComponent.Dashboard.Tick` | admin/src/dashboard.ts:671-673 | a tick starts a refresh unless one is in flight |
| `DashboardComponent.Dashboard.Dispose` | admin/src/dashboard.ts:657-667 | disposal clears the timer and disposes the clients, once |
| `DashboardComponent.Dashboard.ResumeRefresh` | admin/src/dashboard.ts:607-646 | a refresh resumed at any of its awaits goes exactly to the next one, or ends and lowers `fetching` |
| `DashboardComponent.Dashboard.SettleContinues` | admin/src/dashboard.ts:584-593 | the recovery job's id is shown only under the current number and while the panel is open |
| `DashboardComponent.Dashboard.SettleById` | admin/src/dashboard.ts:1142-1160 | a by-id answer opens RUN_DETAIL only under the current number, in PARKED, while the panel is open |
| `DashboardComponent.Dashboard.ResumeCapacity` | admin/src/dashboard.ts:569-573 | a request draws the bounded read's answer only as the latest one, in HOSTS or VENUES, while the panel is open |
| `DashboardComponent.Dashboard.SettleAction` | admin/src/dashboard.ts:648-655 | a settled action refreshes, a planned message is pushed, a revert reads the allocation again, a closed overlay answers `done` |
| `Rows.RowsAreTriggersThenActiveThenRuns` | admin/src/dashboard.ts:4076-4100 | the rows are the triggers, each with its raw index or else its position, then exactly one ACTIVE row where a job is active, steered and open as the first registry row that names it says, then the stable sort of exactly the runs the filter shows |
| `Rows.SortRunsIsStableSort` | admin/src/dashboard.ts:4104-4114 | every ordering, "time" included, is the one stable sort by its key |
| `Rows.SortRunsOrders` | admin/src/dashboard.ts:4101-4114 | under tokens and cost larger numbers come first and an absent one after every number from zero up; under outcome failures come first, then the policy's stops, then what completed; "time" leaves the order as it was |
| `Sorting.StableSortIsUnique` | admin/src/dashboard.ts:4104-4114 | a stable sort is unique, so the algorithm behind `Array.prototype.sort` does not matter |
| `Rows.RunsWindowShowsCursor` | admin/src/dashboard.ts:3500-3505 | the runs window lies in the list, is as full as it can be, and shows the cursor |
| `Rows.DeleteDisplayedTrigger` | admin/src/index.ts:2496-2503 | deleting the k-th displayed trigger removes exactly that raw entry, whatever unusable entries the display dropped, and the display loses exactly its k-th row |
| `Rows.EditDisplayedTrigger` | admin/src/index.ts:2479-2488 | editing the k-th displayed trigger changes the flow of exactly that raw entry |
| `Rows.PositionNamesEntryIffNothingDropped` | admin/src/dashboard.ts:4077-4084 | the fallback to the display position names the entry if and only if nothing up to it was dropped |
| `TailView.TailMatches` | admin/src/dashboard.ts:4229-4248 | the matches are strictly ascending and exactly the lines that contain the query as drawn, whatever the drawing substitutes and folds |
| `TailView.NextAndPreviousAreInverseCyclicSteps` | admin/src/dashboard.ts:1281-1290 | `n` and `N` step cyclically through the matches and undo each other |
| `TailView.JumpShowsTheMatch` | admin/src/dashboard.ts:1286-1292 | after a jump the matched line is a match inside the 20-line window, with the window inside the tail and follow off |
| `TailView.ScrollKeepsBounds` | admin/src/dashboard.ts:1295-1311 | every scroll key keeps the window in the tail, and a view that does not follow follows again if and only if a key down brings its window to the bottom |
| `TailView.ScrollMoves` | admin/src/dashboard.ts:1293-1311 | the arrows move the window one line and the page keys twenty, each in its own direction and no further than the tail; any other key leaves it |
| `TailView.TheBottomIsTheLastLine` | admin/src/dashboard.ts:1275-1277 | at its lowest the window ends on the last line of the tail, or the tail is no longer than it |
| `TailView.NJumpsToTheNearest` | admin/src/dashboard.ts:1285-1291 | `n` goes to the nearest match below the current one, or below the window's top where there is none, and else to the first of all |
| `TailView.CapitalNJumpsToTheNearest` | admin/src/dashboard.ts:1285-1291 | `N` goes to the nearest match above it, and else to the last of all |
| `TriggerRow.FitLine` | admin/src/dashboard.ts:1874-1880 | the result has exactly the width asked for; a line that fits is only padded, and one that does not is its coloured cut, padded |
| `TriggerRow.RowFloorMatch` | admin/src/dashboard.ts:2591-2598 | the floor is within the selector, is nothing only for an empty one, and where the selector is not whole it is five columns, or one more than a cron row's id |
| `TriggerRow.FitTriggerRow` | admin/src/dashboard.ts:2619-2648 | exactly `inner` columns; a row that fits keeps its full layout; else the badges kept are the risk badges and the longest prefix that fits at the minimum, the selector keeps its floor, the give-back never overflows, and where this row is as wide as its parts leftover columns mean every kept part is whole and badge text grows only once the selector (then the risk badges) is whole. What is drawn is the lead, the selector or its longest start with the ellipsis, a space, the target, and each kept badge in its colour with its fixed text around its free text or the longest start of that with the ellipsis; at the ellipsis' own width or less, the ellipsis alone |
| `TriggerRow.PrefixKept` | admin/src/dashboard.ts:2632-2634 | the prefix kept fits, and no longer one does |
| `TriggerRow.SurvivorsExact` | admin/src/dashboard.ts:2634 | dropping right to left leaves exactly the risk badges and a prefix, in order |
| `TriggerRow.Regrow` | admin/src/dashboard.ts:2637-2642 | a part grows only within its whole and never past the frame, and where the row is as wide as its parts stops only when it is whole or the row is full |
| `TriggerRow.FullIsTheWholeRow` | admin/src/dashboard.ts:2625-2630 | the full layout is the row as written, nothing clipped, where neither its selector nor a badge's free text is something drawn in no column |
| `TriggerRow.WholeIffItsColumns` | admin/src/dashboard.ts:2624 | a part that is drawn is whole if and only if it is given its whole columns |
| `TriggerRow.MarkedIsLawful` | admin/src/style.mjs:160-195 | a styler on one-column characters whose colour codes are shortened to one mark that draws nothing, and which cuts as `clipStyled` does, with its ellipsis and its closing code, obeys every law assumed, those of the cuts included, on every row and at every width |
| `RowBudget.CollapseKeys` | admin/src/dashboard.ts:1928-1941 | an unknown height folds nothing; otherwise the folded set is the shortest prefix of the stable priority order that fits, or all of it |
| `RowBudget.BuildListLines` | admin/src/dashboard.ts:1947-2005 | composed lines plus chrome equal the budget's total; the frame fits or everything foldable but the focused section is folded; nothing else folds; with one section fewer folded the frame would not have fitted |
| `RowBudget.ListLines` | admin/src/dashboard.ts:1961-2005 | on the LIST view's own sections the budget is exact; the header and the runs never fold, nor the triggers while the cursor is in them; the sections folded are the first few of `ListOrder`, the fewest with which the frame fits, or, where it overflows still, all of them |
| `RowBudget.ListFoldsInOrder` | admin/src/dashboard.ts:1933-1935 | that order is limits, pauses, settings, triggers with bundles and profiles, spend with the dollars, held, failed, parked, without the triggers while the cursor is in them |
| `RowBudget.LinesAreTheSections` | admin/src/dashboard.ts:1988-2004 | the composed lines hold exactly the rows of the bodies that are not folded, and a divider for each section that has one, which says how many rows its fold hides |
| `RowBudget.ComposedIsTheTotal` | admin/src/dashboard.ts:1983-2004 | for any set of folded sections the composed lines and the chrome are exactly the budget's total |
| `RowBudget.FoldOrderExact` | admin/src/dashboard.ts:1933-1935 | the fold order has each foldable section once, in stable order of priority |
| `RowBudget.ListIsAPanel` | admin/src/dashboard.ts:1961-1979 | the LIST view's own sections, optional ones present or not, are each named once, and each foldable one has a divider |
| `Wrap.WrapColumns` | admin/src/dashboard.ts:1888-1910 | the loop terminates and returns the lines of the specification the lemmas below are about |
| `Wrap.WrapLosesOnlySpaces` | admin/src/dashboard.ts:1888-1910 | every character that is not a space is on some line, once and in order |
| `Clusters.WrapFitsIffRoom` | admin/src/dashboard.ts:1892-1902 | no line is wider than the width if and only if every cluster of every word fits, together with the next character where it ends in a joiner |
| `Wrap.WrapIsShortest` | admin/src/dashboard.ts:1904-1907 | when every word fits, the lines are an in-order breaking of the words and no in-order breaking has fewer |
| `Wrap.HardWrap` | admin/src/dashboard.ts:4191-4202 | the pieces concatenate to the line exactly, all but the last fit, and no width leaves the line whole |
| `Clusters.HardWrapText` | admin/src/dashboard.ts:4191-4202 | and all fit if and only if every cluster of the line has that room |
| `Clusters.CuttableIffRoom` | admin/src/dashboard.ts:1898-1901 | the cutting loop never stops short if and only if every cluster has room, for any segmenter that ends no cluster before a joiner |
| `Clusters.CutterIsLawful` | admin/src/panel.mjs:811-865 | the cut by columns and then by clusters, whatever segmenter decides them, is a start of the text within its width, and widths are monotone |
| `Clusters.CutIsLongest` | admin/src/panel.mjs:811-865 | the cut is as long as it can be: with the next cluster it would be too wide, or that cluster ends in a joiner |
| `Clusters.JoinerLeavesALineTooWide` | admin/src/dashboard.ts:1892-1900 | a word whose clusters are all one column wide is emitted three columns wide at width one |
| `CallText.CallPieces` | admin/src/dashboard.ts:2834-2853 | the scan returns the pieces of the specification the lemmas below are about |
| `CallText.PiecesAreTheCall` | admin/src/dashboard.ts:2834-2853 | the pieces concatenate to the call, none is empty, and each ends exactly at a place where a call may be broken, outside every JSON string |
| `CallText.ACallCut` | admin/src/dashboard.ts:2825-2833 | concrete texts cut after `{`, a space and `,`, and after `:` in the finer form alone, and not at a comma inside a string |
| `CallText.CutExactlyIsUnique` | admin/src/dashboard.ts:2834-2853 | no other cutting of the call does that |
| `CallText.BrokenCallIsTheSameCall` | admin/src/dashboard.ts:2825-2833 | white space at any of the cuts leaves the JSON token sequence (sections 2 and 7 of RFC 8259) as it was |
| `CallText.ColonFormRefinesLooseForm` | admin/src/dashboard.ts:2834-2853 | each piece of the loose form is a run of pieces of the colon form |
| `CallText.CallRows` | admin/src/dashboard.ts:2865-2889 | the loose pieces unless one is too wide, the indent that gives way, and the rows filled from them |
| `CallLines.FittingRowsAreTheCall` | admin/src/dashboard.ts:2865-2889 | when every piece fits, the rows concatenate to the exact call, each fits beside the indent, the indent gives way only where the widest piece needs it, and the rows with any white space between them are the same JSON |
| `CallLines.RowsAreFewest` | admin/src/dashboard.ts:2873-2888 | when every piece fits, no rows of whole pieces, in order, are fewer |
| `CallLines.FormAndIndentGiveWay` | admin/src/dashboard.ts:2867-2871 | the colon form is used exactly where a loose piece is too wide, and the indent is the usual one, or all that the widest piece leaves, or none |
| `CallLines.RowsAreTheCallIff` | admin/src/dashboard.ts:2881-2886 | whatever the pieces, the rows are the exact call if and only if each piece too wide for its row keeps its spaces |
| `CallLines.WrapKeepsAllIff` | admin/src/dashboard.ts:1888-1910 | the wrapper keeps every character if and only if spaces are single and between words, and what is left of the first word after its cuts fits one line with all the others |
| `CallLines.WideTextOfFittingWordsIsBroken` | admin/src/dashboard.ts:2881-2886 | a piece too wide for the row whose words all fit always loses a space |
| `CallLines.CallIsExactIffWiderThanItsName` | admin/src/dashboard.ts:2865-2889 | a tool's name and JSON without spaces: the rows are the exact call if and only if there are more columns than the name has |
| `CallLines.NarrowCallLosesItsSpace` | admin/src/dashboard.ts:2881-2886 | whatever the JSON, in no more columns than its tool's name the space after the name is on none of the rows |
| `CallLines.ALimitCallLosesItsSpace` | worker/src/size-suggest.mjs:388-401 | the `dispatch_limit_add` call in eighteen columns or fewer |
| `ProxyName.PrintsTheNameItself` | admin/src/dashboard.ts:162-182 | a name that is not blank prints as printable ASCII: itself with no quote in it, or a JSON string that decodes (section 7 of RFC 8259) to it |
| `ProxyName.PrintsItselfIff` | admin/src/dashboard.ts:175-180 | a name is printed as it is if and only if every unit of it is printable, none is a quote, and neither end is a space |
| `ProxyName.PrintsNamesApart` | admin/src/dashboard.ts:162-182 | two names that are not blank print alike only if they are equal |
| `ProxyName.PrintsAlikeIff` | admin/src/dashboard.ts:162-182 | any two names print alike if and only if they are equal, or one is blank and the other is literally its sentence |
| `ProxyName.EscapedDecodes` | admin/src/dashboard.ts:181 | quoting, with pairs kept, lone surrogates escaped and every unit that is not printable then escaped, decodes back to the name |
| `ProxyName.ASpaceIsPrintedLikeItsSentence` | admin/src/dashboard.ts:171-172 | one space and the name that is its sentence print alike |
| `Calendar.ResetIsTheNextStartIff` | admin/src/dashboard.ts:3992-4001 | for every instant the countdown runs to the earliest UTC midnight, Monday midnight or first-of-month midnight strictly after it, if and only if the year is not 0 to 99 and that midnight is a time value; and it is then positive and at most 1, 7 or 31 days |
| `Calendar.KnownDays` | admin/src/dashboard.ts:3992-4001 | the calendar behind the countdowns (section 21.4.1 of ECMA-262) is the Gregorian one: the epoch is 1 January 1970, and 29 February 2000 is the day it was |
| `Calendar.KnownWeekDays` | admin/src/dashboard.ts:3995-3998 | those were a Thursday and a Tuesday, and weekdays follow one another |
| `Calendar.MonthsAreAsLongAsTheyAre` | admin/src/dashboard.ts:3999-4001 | its months have the days they have, February by the leap year |
| `Calendar.NextDayIsNext` | admin/src/dashboard.ts:3995-3998 | the day counted to starts the span, within its bound, and no day in between does |
| `Calendar.OnlyTheLastMonthIsClipped` | admin/src/dashboard.ts:3992-4001 | up to a month before the last time value no countdown is NaN for want of a time value |
| `Calendar.TheYearFiftyIsTakenFor1950` | admin/src/dashboard.ts:3992-3994 | an instant of the year 50 whose countdown runs nineteen centuries |
| `Handover.Deployment.ReceiverContainer` | admin/src/setup-wizard.ts:1205-1400 | one run goes through exactly the states of the specification, each step failing or not, with the override put back where the source does |
| `Passes.NeverTwoOnTheVolumeIff` | admin/src/setup-wizard.ts:910-953 | over any sequence of receiver steps and `up` passes, with any step failing and leaving nothing, something or all of its effect: two Valkeys are on the queue's volume in some state on the way if and only if some pass, in the state it finds, meets the guards under which it starts one beside an owner check's, its own or one left by an earlier pass |
| `Passes.NeverBothOnTheVolume` | admin/src/setup-wizard.ts:910-953 | over any such sequence, whatever fails and whatever checks are left, `up`'s Valkey and compose's are never both on the volume |
| `Passes.StoppedChecksAreNeverBeside` | worker/src/up.mjs:661-676 | no pass starts one beside an owner check's where none was left at the start and every `up` stops its own |
| `Passes.UpServesIff` | worker/src/up.mjs:609-851 | one `up`, from any state without two Valkeys on the volume, has two if and only if it starts one on it while an earlier pass's owner check is left there and the volume needs no adoption, or adopts an unlabelled volume, does not stop its own check's Valkey, and starts another; and an `up` that finds none and stops its own leaves none |
| `Passes.SetupServesIff` | admin/src/setup-wizard.ts:1205-1400 | one receiver step has two if and only if it finds an owner check's Valkey left on the volume and its plan goes, is confirmed, and reaches a start of compose on the volume that takes |
| `Passes.UpWithTheOverride` | worker/src/up.mjs:790-815 | with the override, `up` ends with compose on the queue's volume exactly where the volume may be used, the operator agrees, the port is free, the start has its effect, and the queue's owner marker is not another folder's that it could stop for |
| `Passes.UpStartsItsOwn` | worker/src/up.mjs:816-851 | without it, on a free port and with no container, `up` ends with its own container under those conditions, and with it stopped and removed again where the marker is another folder's and both take |
| `Passes.UpRestartsItsOwn` | worker/src/up.mjs:762-784 | where this deployment's own container answers without the password, an `up` in which nothing fails removes it on the way and leaves it running again if and only if the volume may be used, and else never touches it |
| `Passes.ACleanUpServesIff` | worker/src/up.mjs:736-851 | after an `up` in which nothing fails the queue is served if and only if it was before, or the volume may be used and there is something to start on it |
| `Passes.TheRulesAreThere` | worker/src/up.mjs:866-870 | the proxy's rules are there once `init` has written them, and are what a refresh makes them |
| `Passes.TheOwnerCheckCanServeBesideUp` | worker/src/up.mjs:661-676 | one such `up`: the check's stop is not asked about, and `pi-dispatch-valkey` is started beside it |
| `Passes.ALaterUpCanServeBesideIt` | worker/src/up.mjs:636-640 | two passes of which neither alone would: an `up` that adopts, keeps the record, leaves its check running and is declined, and a later one in which nothing fails |
| `Passes.ExistingFilesAreKept` | admin/src/setup-wizard.ts:1206-1228 | over any such sequence, at no step is an existing override or compose file changed, nor the proxy's rules where no `up` is let refresh them |
| `Passes.RetryServesTheQueueIff` | admin/src/setup-wizard.ts:1379-1382 | after a compose that failed once the container was gone, a setup run again whose receiver step does not fail serves the queue if and only if its `up` brings the container back, which takes a free port, docker's answers, a volume that is this deployment's or adopted, consent, and a start that leaves its container; otherwise the receiver ends on its own volume |
| `Passes.CleanRetryServesTheQueueIff` | worker/src/up.mjs:736-740 | with an `up` in which nothing fails, if and only if the failed compose left no Valkey of its own on the port, and an unlabelled volume without a record has no earlier owner check on it |
| `Handover.RemovedOnlyAfterPullAndStop` | admin/src/setup-wizard.ts:1347-1379 | `up`'s container is removed only in a confirmed run whose pull and stop succeeded, is stopped just before, is not touched before the override is there, and another deployment's never changes |
| `Handover.FailedRunPutsTheOverrideBackIff` | admin/src/setup-wizard.ts:1352-1387 | a run that does not start the receiver changes the override if and only if it found none, reached the hand-over, and either its write failed and left something or its unlink failed after a later step did |
| `Handover.TheMarkerDecides` | admin/src/setup-wizard.ts:1332-1347 | a run that starts compose on the queue's volume leaves it there if and only if the queue's owner marker is not another folder's or the stop that follows does not take, and leaves it down otherwise; without the override it is on its own volume and the marker changes nothing |
| `Handover.RunsGoAheadIff` | worker/src/valkey-auth.mjs:424-442 | a run cannot copy, is refused, asks for an adoption or is declined if and only if the guard of each says so, and each of these leaves every Valkey, the override and the record as they were |
| `Handover.MissingFilesAreCopied` | admin/src/setup-wizard.ts:1206-1228 | a file that is missing is there once its copy is made, to the end of the run |
| `Handover.CleanRunServesTheQueueIff` | admin/src/setup-wizard.ts:1280-1296 | a run in which nothing fails starts the receiver if and only if the plan goes, and then ends with compose on the queue's volume, with the override that keeps it there and `up`'s container gone, if and only if that container or the override was there |
| `Handover.CleanRunIsRepeatableIff` | worker/src/valkey-auth.mjs:424-442 | run again, it changes nothing more, and it starts again if and only if it had not handed over an unlabelled volume of which this folder has no record afterwards; there it asks for an adoption instead |
| `Handover.AnUndatedVolumeIsAskedAboutAgain` | admin/src/setup-wizard.ts:1379-1389 | the upgrade of an unlabelled volume that docker does not date: handed over once, asked about on every later run |
| `Handover.ADatedUpgradeStartsAgain` | admin/src/setup-wizard.ts:1383-1389 | a hand-over of an unlabelled volume that docker dates is recorded where the write takes, and then starts again on the next run |

## Left out

- Presentation: colours, borders, glyphs, titles, the wording of notes and footers, and the detail panes' text.
- `transcriptLines`: the lines a frame wraps are the environment's (`Render` is given them); `HardWrap` covers its cut.
- The tail's fallback host, and the "no stream" and "missing" notes of a log that is not there; the log's own text is the environment's.
- `actionNote`, `copiedNote`, `parkedNote` and `allocNote`: write-only sentences that no branch reads.
- RUN_DETAIL's clipboard and sandbox keys, and the terminal handed to a sandbox: line-level effects of injected seams.
- Panels wired without a seam (`runById`, `steer`, `watch`, `capacityInfo` and the others): each is a single branch to a note.
- The PROJECTS view's spend and projects that are no longer in the file; its rows are the snapshot's projects and the "(no project)" row.
- A bounded read that settles after its timer won: the race has one winner, which is the event modelled.
- `OverlayNotes.NoteIsOfItsReadsJob`: which read the note is from, not its wording.
- `TriggerRow.FitTriggerRow`: the order of give-back and the leftover columns are stated for rows as wide as their parts; a row in which a colour code splits a cluster can be wider. What a cut part shows is stated for a cut that is a start of the text; one that drops a joiner before the ellipsis, or falls back to a colourless cell, is not part of that.
- `Clusters.CutterIsLawful`: widths are a character's and add up; widths that depend on the characters beside are not part of this model.
- `CallText.CallRows`: the padding, colour and the dim "join the lines" note that `callLines` adds around its rows.
- `Passes.ACleanUpServesIff`: states in which `up`'s container and compose's both run are not considered; they would listen on one port.
- `OverlayTriggers.DeleteAsksForTheTriggerOpened`: an index names an entry of the file the snapshot was read from; a file edited by hand since then is not part of this model.
- `Calendar.ResetIsTheNextStartIff`: instants are whole milliseconds.
- `RowBudget.BuildListLines`: a section's body is a number of lines, not their text.
- The `.env` port line, the legacy compose file's warning and the runtime question of the receiver step; what `up` does besides its Valkey and the proxy's rules; a Valkey of this deployment that runs and does not answer its port.
- `registerWriteGuard`, `makeLogViewer`, the bounded gates of `ensureDocker`, `ensurePodman` and `ensureOpenshell`, and the dialog-driven edits of `index.ts`: small loops and prompts over planners that would add easy members only.
