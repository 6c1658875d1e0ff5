# Gilbreth: a verified model

Gilbreth records what happens on a desktop into a local database. This project
models the parts of it that keep state across events, processes or failures, or
that must undo each other, and proves what they promise over every input, every
run and every interleaving. `dafny verify dfyconfig.toml` checks all of it.

Each `.dfy` file is one module. Code that works step by step is a class or a
method with loops, proved equal to a function of its inputs and old state; the
main results are lemmas about those functions over whole runs. Threads and
processes are interleaved step by step, and every outside answer (a clock, a
reply, a read, a write) is an arbitrary input.

| files | what they model |
|---|---|
| `RecordLanes`, `RecordGate`, `RecordThreads` | the Record Routine lifecycle in the tray: pump, stop lane, pause lane, cap prompt, start flow, and the capture gate it borrows |
| `CapturePause`, `CapturePauseRuns`, `CaptureResume`, `CaptureHandshake` | pausing, privacy operations, the forwarder and the resume handshake |
| `SeqAudit` | the sequence-continuity audit that decides between a recorded deletion and data loss |
| `Mouse`, `MouseGestures`, `MouseMotion`, `MouseClicks` | aggregated moves, drags and double clicks from one raw event stream |
| `Clipboard`, `ClipboardRuns`, `ClipboardRows` | owner changes, the TARGETS round trip and its rows |
| `Foreground`, `ForegroundRows` | focus segments with capped dwell, their rows, and what a pause forgets |
| `PermissionRequests` | the numbered request file between dashboards and the pump |
| `WindowsArgs`, `HelperBridge` | quoting for the elevated helper's command line, and its message loop |
| `Ico` | the icon writer and reader |
| `Hotkey` | the chord printer and parser |
| `Purge`, `PurgeRun`, `PurgeProofs`, `PurgeResults`, `PurgeCompletes`, `PurgeGone`, `PurgeReceipts` | the destructive uninstall and its receipt |
| `Config`, `ConfigWriters`, `ConfigLock`, `SphereAliases` | configuration upgrade, locked writers, the alias sidecar |
| `Wrappers`, `Clock`, `Sequences` | what several of these share |

## Where the code does less than is said of it

Each of these is kept as the code has it, shown on a concrete input or run, and
bounded by the exact condition under which the promise does hold.

- **Pause rows.** Besides a toggle that races an operation's first steps, two things
  put a captured row after a pause. A privacy operation
  that ends while the user has paused writes `CapturePaused` again without draining
  the pipeline, so after a failed flush an earlier row lands on the paused side
  (`FailedFlushLeaksRow`). And a user who lifts a pause during an operation's closing
  report only clears the flag; the next operation then opens the gate without a
  boundary over a log that still says paused, with no failure and no race at all
  (`LiftedPauseLeaksRow`). The conditions are exact at three levels. A state is safe
  from traffic iff its log is clean and guarded (`SafeIffGuarded`). A run is safe at
  every moment iff no step writes a pause row over unwritten rows or past an open
  gate, or opens the gate over a paused log (`GuardedUnlessBroken`,
  `SafeUnlessBroken`). And over whole schedules there are three rules, each to be
  checked before the step it speaks of: an operation begins with the user's pause
  standing if the log says paused, and not under a toggle handler that saw no
  operation and is still to flip the flag or open the gate; a toggle does not begin
  between an operation's reading of the pause and its raising of its own flag; and
  an operation that began unpaused does not reach its restore paused with rows still
  in the pipeline. Runs that keep them stay clean, wherever else toggles fall, and a
  step that breaks any of them always has a continuation, itself keeping the rules,
  that puts a captured row after a pause (`FairIffNothingLeaks`).
- **Stopping a recording.** `Failed` without a session id clears the active slot
  without looking at it. A second start flow that begins before the pump has
  taken up the first one's session leaves that session open with no stop
  (`LateStartStrandsSession`); `LeavesStoppedIff` says this is the only way, and
  `StoppedOnceIffDisciplined` that a run which does so never makes up for it.
- **Clipboard replies.** A comment says the reply to an overwritten request reads
  as stale. It does not once the newer copy's own request is out
  (`LateAnswerIsNotStale`); `AnswerIsCreditedRight` gives the condition.
- **Double clicks.** The window compared is the last one known during the first
  press, not the one its click row names (`ClickRowsMayDisagree`); the last clause
  of `DoubleClicksMatch` says when the rows agree.
- **Paused foreground.** One thing outlives a user pause: whether the next title
  is to be blanked (`PauseLeavesNoTrace`).
- **Permission requests.** If the first poll's read fails while a request file is
  there, the old request looks new and a relaunch repeats
  (`FailedBaselineReplays`, `BaselineDecides`). Two dashboards that read before
  either writes number their requests alike, and the second is overlooked
  for good (`TwinRequestIsOverlooked`, `OverlookedIffNotPast`).
- **Uninstall.** An unresolved configured database keeps the configuration,
  except a configuration file that is itself one of that database's files
  (`ConfigurationSurvivesIff`).
- **Configuration flags.** A damaged document loads with the posture confirmed;
  when it stores the opposite and all its damage is in the six keys a privacy save
  overwrites, that save mends it and so undoes the confirmation; nothing else does
  (`MendingUndoesPosture`, `PostureUndoneIff`).
- **Flush answers.** The forwarder answers a flush even when the writer went away
  during its drain. The answers are true exactly when the writer had room for
  everything received by then (`AnswersAreTrueIff`).

## Model

| member | source | states |
|---|---|---|
| RecordLanes.OneStopInFlight | crates/gilbreth-app/src/main.rs:2993-3022 | over every interleaving, while a stop is pending for the active session exactly one stop for it is being sent, awaiting a reply or queued; while none is pending none was spawned; no session is stopped twice |
| RecordLanes.StoppedOnceIffDisciplined | crates/gilbreth-app/src/main.rs:2745-2858 | in a run every session that left the active slot left once and had exactly one stop spawned, exactly when no start outcome was taken up while a session was active and not yet being stopped |
| RecordLanes.LeavesStoppedIff | crates/gilbreth-app/src/main.rs:2825-2854 | a session leaves with its one stop spawned unless, and only unless, a start flow's outcome arrives while it is active and not being stopped |
| RecordLanes.LateStartStrandsSession | crates/gilbreth-app/src/main.rs:3436-3466 | a run of one start flow after another in which the refused second start strands the running session |
| RecordLanes.StaleEventsChangeNothing | crates/gilbreth-app/src/main.rs:2784-2840 | handling any queue is handling what is left when every event of another session, and every pause confirmation overtaken by a stop, is struck out |
| RecordLanes.UserPauseHoldsGate | crates/gilbreth-app/src/main.rs:3098-3114 | while the user has paused no sequence of record events opens the capture gate |
| RecordLanes.StepSound | crates/gilbreth-app/src/main.rs:3329-3372 | every send, reply, prompt, start and pump step keeps the accounts of stops and sessions |
| RecordLanes.RecordTray.HandleRecordUiEvents | crates/gilbreth-app/src/main.rs:2745-2858 | draining the event queue has the effect of handling its events one by one in order |
| RecordLanes.RecordTray.HandleRecordUiEvent | crates/gilbreth-app/src/main.rs:2747-2856 | one turn of the event loop: the whole new tray state and the stops it spawns |
| RecordLanes.RecordTray.StopRecordingWithReason | crates/gilbreth-app/src/main.rs:2993-3022 | a stop is spawned and noted for the active session unless one is pending |
| RecordLanes.RecordTray.ResumeBaselineCaptureAfterRecording | crates/gilbreth-app/src/main.rs:3098-3114 | the gate is left as it was when the user has paused or the recording did not close it, and opened otherwise; the hold is given back either way; nothing else changes |
| RecordGate.GateAfter | crates/gilbreth-app/src/main.rs:2784-2854 | an event that ends the active recording leaves the gate closed exactly when it was and the user has paused or the recording did not close it, and gives the hold back; no other event moves the gate |
| RecordGate.FieldsAfter | crates/gilbreth-app/src/main.rs:2745-2858 | what becomes of the active slot, the pending stop, the pause flag and the hold, for every tray and event |
| RecordGate.StopsSpawned | crates/gilbreth-app/src/main.rs:2993-3022 | an event spawns a stop exactly for the session it asks to stop, once, when that is active and not already being stopped |
| RecordGate.SuspendBaseline | crates/gilbreth-app/src/main.rs:3292-3300 | a start flow closes the gate and owns it exactly when it was open |
| RecordGate.QueueGivesGateBack | crates/gilbreth-app/src/main.rs:2745-2858 | with no user pause a queue of events moves nothing while the recording stays, and once it ends leaves closed only what something else closed |
| RecordGate.RecordingLeavesGateAsFound | crates/gilbreth-app/src/main.rs:3289-3312 | from the start flow's closing of the gate to the end of the recording, whatever events come between, an unpaused user gets the gate back as the recording found it |
| RecordThreads.PauseRunsThrough | crates/gilbreth-app/src/main.rs:3117-3185 | a pause or resume asked of an active, unstopped session in the other state with none under way, once sent, confirmed and handled, sets the flag and leaves everything else as it was; one that cannot be sent or is refused is reported as a failure of its session; asked at any other time it does nothing |
| RecordThreads.NobodySteps | crates/gilbreth-app/src/main.rs:3329-3372 | a thread that is not there takes no step, and an event that is not queued is not handled |
| RecordThreads.UserPauseOnlyFlips | crates/gilbreth-app/src/main.rs:2451-2523 | the user's pause sets its flag, and lifting it leaves the record lanes as they were |
| RecordThreads.OnePauseAtATime | crates/gilbreth-app/src/main.rs:3154-3171 | over every interleaving at most one pause or resume is under way |
| RecordThreads.StopRunsThrough | crates/gilbreth-app/src/main.rs:2986-3022 | a stop asked for an active session not already being stopped is noted, spawned once, and reports the session stopped or its failure; with no such session asking does nothing |
| RecordThreads.CapRunsThrough | crates/gilbreth-app/src/main.rs:3470-3492 | an answered cap prompt changes nothing when the extension reaches the writer, and is otherwise a failure or a stop of its session |
| RecordThreads.StartRunsThrough | crates/gilbreth-app/src/main.rs:3436-3466 | a start that was asked for announces the next session or fails without one |
| CapturePauseRuns.FairRunsStayClean | crates/gilbreth-app/src/main.rs:2451-2523 | in every interleaving of producers, forwarder, toggles and privacy operations whose steps keep the three rules no captured row lies between a pause row and the next resume row, nor can any traffic put one there |
| CapturePauseRuns.FairIffNothingLeaks | crates/gilbreth-app/src/main.rs:3691-3726 | the rules are exact: a step of any kind keeps them exactly when no rule-keeping continuation puts a captured row after a pause |
| CapturePauseRuns.FairRunsAreTheCleanOnes | crates/gilbreth-app/src/main.rs:3738-3858 | the same for the next step of any run that has kept the rules so far |
| CapturePause.SafeIffGuarded | crates/gilbreth-app/src/main.rs:1618-1684 | whatever traffic comes the log stays clean exactly when it is clean and, if it says paused, the pipeline is empty and the gate closed |
| CapturePause.GuardedUnlessBroken | crates/gilbreth-app/src/main.rs:3691-3726 | for every state and step, a guarded state stays guarded unless, and only unless, the step writes a pause row over a non-empty pipeline or an open gate, or opens the gate while the log says paused |
| CapturePause.SafeUnlessBroken | crates/gilbreth-app/src/main.rs:2451-2523 | a run is safe at every moment exactly when none of its steps does either |
| CapturePauseRuns.FailedFlushLeaksRow | crates/gilbreth-app/src/main.rs:3761-3770 | a run in which the operation's flush fails, the user pauses meanwhile, and a captured row follows the pause row |
| CapturePauseRuns.LiftedPauseLeaksRow | crates/gilbreth-app/src/main.rs:3701-3712 | a run without failure or race in which a pause lifted during one operation's report lets the next open the gate over a paused log |
| CapturePause.RunInOrder | crates/gilbreth-app/src/main.rs:1618-1684 | in every run each captured row is in the log or the pipeline once, in capture order |
| CapturePauseRuns.StepInv | crates/gilbreth-app/src/main.rs:3738-3858 | every step that keeps the rules keeps the pause invariant |
| CaptureResume.Controls.ResumeCaptureAfterQuiet | crates/gilbreth-app/src/main.rs:1761-1810 | capture reopens exactly in the first attempt of three since whose preparation no transition has begun, with every earlier one ended, and which can write its boundary; the boundary is the one row added and precedes the opening; on failure nothing changes; the barrier is down on every exit |
| CaptureResume.CheckMeansQuiet | crates/gilbreth-core/src/lib.rs:446-473 | the two loads of the check pass exactly when no transition has begun between the acknowledged generation and the second load and every earlier one had ended by the first |
| CaptureResume.WordReads | crates/gilbreth-core/src/lib.rs:213-225 | the packed word reads as the number of transitions begun and whether one is open |
| CaptureResume.Forwarder.DrainUntilQuiet | crates/gilbreth-app/src/main.rs:1622-1643 | everything received before the first quiet period is forwarded in order, or the writer is gone with a prefix forwarded |
| CaptureResume.Forwarder.Run | crates/gilbreth-app/src/main.rs:1645-1684 | the writer gets the rows in the order received as far as it takes them, every flush is answered, and the loop ends only when a channel closes or the writer is gone |
| CaptureResume.AnswersAreTrueIff | crates/gilbreth-app/src/main.rs:1662-1669 | the answers are true, each after everything received before it has been forwarded, exactly when at every flush the writer had room for all of it |
| CaptureHandshake.RunsAreTheForwarders | crates/gilbreth-app/src/main.rs:1645-1694 | every interleaved run of `CapturePause` is one of the forwarder's: it writes what the forwarder receives, and each confirmed flush is answered with everything captured up to then |
| CaptureHandshake.AnswersInARun | crates/gilbreth-app/src/main.rs:1645-1694 | a forwarder whose writer takes all that is captured gives exactly these answers |
| CaptureHandshake.DrainsAreRuns | crates/gilbreth-app/src/main.rs:1622-1643 | every drain of the pipeline until a quiet period is a run of the forwarder's steps, after which a flush can be confirmed |
| CaptureHandshake.HandshakesAgree | crates/gilbreth-app/src/main.rs:1761-1810 | over a drained pipeline the interleaved handshake ends, for every three attempts, with the verdict, row, gate and barrier of the resume handshake |
| SeqAudit.SessionGapIsExplained | scripts/review_run.py:410-446 | true exactly when the spans are non-empty, no number repeats, every missing number is audited, and the missing count is at most the audited rows |
| SeqAudit.RunInsideOneBlock | scripts/review_run.py:399-407 | a contiguous run inside the union of the merged blocks lies inside one of them |
| SeqAudit.MergedAuditSpans | scripts/review_run.py:399-407 | the merged blocks cover exactly what the spans cover, in order, with a hole between neighbours |
| SeqAudit.ScanGaps | scripts/review_run.py:432-446 | the scan fails exactly on a duplicate or an uncovered missing run, and otherwise counts the missing numbers |
| SeqAudit.FlaggedMeansNotContiguous | scripts/review_run.py:48-62 | the aggregate condition flags a session exactly when its numbers are not the whole range once each |
| SeqAudit.ComputeFlag | scripts/review_run.py:48-62 | the aggregates decide the flag |
| SeqAudit.SinceKeeps | scripts/review_run.py:256-268 | spans stamped before the session began are discarded and no others |
| SeqAudit.LifetimeKeeps | scripts/review_run.py:256-268 | every span of the session's lifetime is kept, as often as it is there, and no other |
| SeqAudit.ReviewSessions | scripts/review_run.py:248-278 | an id is returned as unexplained exactly when a session of that id is flagged and its gap not explained, as explained exactly when one is flagged and explained, and both lists follow session order |
| SeqAudit.ReportedIff | scripts/review_run.py:248-278 | where ids are distinct a session needs review exactly when its id is returned as unexplained, and then it is not returned as explained |
| SeqAudit.LostRowNeedsReview | schema/README.md:40-55 | a number missing inside the observed range and outside every audited span of the session's lifetime puts its id into the returned unexplained list and keeps it out of the explained one |
| SeqAudit.OversizedLossNeedsReview | schema/README.md:40-55 | so does a loss larger than the deletions audited in the session's lifetime |
| SeqAudit.HonestHistoryIsNeverReviewed | schema/README.md:40-55 | after any history of contiguous writes and truthfully recorded deletions, whatever older residue lies beside them, the id is never in the returned unexplained list |
| SeqAudit.RunAccounted | schema/README.md:40-55 | every step of such a history keeps live rows and audited rows in account |
| Mouse.MouseState.OnEvent | crates/gilbreth-capture-linux/src/mouse.rs:128-172 | one raw event: the whole new state and the rows it emits |
| Mouse.MouseState.AddMovement | crates/gilbreth-capture-linux/src/mouse.rs:135-141 | every held button accumulates the motion |
| Mouse.MouseState.OnButtonDown | crates/gilbreth-capture-linux/src/mouse.rs:255-308 | a press: the click row, the double click row when it completes one, and the new gesture |
| Mouse.MouseState.OnButtonUp | crates/gilbreth-capture-linux/src/mouse.rs:310-337 | a release: the drag row, or the remembered click, or neither |
| Mouse.MouseState.FlushPassed | crates/gilbreth-capture-linux/src/mouse.rs:185-193 | the trailing aggregate is flushed once its window has elapsed |
| Mouse.MouseState.ResetAfterBoundary | crates/gilbreth-capture-linux/src/mouse.rs:174-181 | a boundary drops every gesture in progress and the remembered click, and leaves the pending aggregate |
| MouseMotion.DistanceIsTheRoot | crates/gilbreth-capture-linux/src/mouse.rs:70-73 | the distance is the one integer nearest to the square root: a number is it exactly when it lies within half of the root |
| MouseMotion.MotionConserved | crates/gilbreth-capture-linux/src/mouse.rs:195-253 | over every run the raw motion, in order, is cut into consecutive batches, one for each move row and one pending, and each row carries its own batch |
| MouseMotion.SumsConserved | crates/gilbreth-capture-linux/src/mouse.rs:195-253 | in runs of any length the move rows and the pending aggregate add up to all raw motion as long as no single one of them is saturated |
| MouseMotion.PathBounds | crates/gilbreth-capture-linux/src/mouse.rs:70-73 | an aggregate's path length lies between its net displacement on either axis and the axis-by-axis length of its raw motion |
| MouseMotion.DragSumsItsMoveRows | crates/gilbreth-capture-linux/src/mouse.rs:310-337 | every drag row short of saturation is the sum of the move rows since that button's last click row, whatever comes between |
| MouseClicks.DoubleClicksMatch | crates/gilbreth-capture-linux/src/mouse.rs:255-396 | over every run double click rows pair presses of one button, close in time and place and in one known window, no press is in two pairs, and no reset lies inside a pair; each pair's first press was let go by the first operation after it on that button; and the click rows of all pairs agree on the window exactly when every first press was let go where it began |
| MouseClicks.ClickRowsMayDisagree | crates/gilbreth-capture-linux/src/mouse.rs:326-333 | a press that wanders into another window pairs with a press there |
| MouseGestures.DragIff | crates/gilbreth-capture-linux/src/mouse.rs:310-337 | after any history, an operation puts out a drag exactly when it lets go a held button whose path is at least 8 pixels or whose known ends lie more than 8 apart on an axis; the drag comes last and alone with the press point, the last known point and window, and leaves no click remembered |
| MouseGestures.DoubleClickIff | crates/gilbreth-capture-linux/src/mouse.rs:255-308 | after any history, a press puts out a double click exactly when it is at most 500 ms and 4 pixels on each axis from the press of the remembered click, of its button and in the window where it was let go; that click ended in no drag and began with no second press, and is spent |
| MouseGestures.RememberedIsClean | crates/gilbreth-capture-linux/src/mouse.rs:310-337 | the click a press may double was held from its press to its release, ended no drag and was not itself the second of a double click |
| MouseGestures.RowsFollowHistory | crates/gilbreth-capture-linux/src/mouse.rs:128-253 | the rows of every run, in order and field by field, are those a reading of the raw operations alone asks for |
| MouseGestures.StateReadsHistory | crates/gilbreth-capture-linux/src/mouse.rs:128-337 | after every run the held buttons, the pending aggregate and the remembered click are what the raw operations say |
| Clipboard.ClipboardMonitor.Poll | crates/gilbreth-capture-linux/src/clipboard.rs:154-242 | one pass has the effect of its signals in order and then of the request-or-expire step |
| Clipboard.ClipboardMonitor.ReseedMonitor | crates/gilbreth-capture-linux/src/clipboard.rs:139-141 | a reseed drops the pending copy and puts out nothing |
| Clipboard.ClassifyIgnoresOrder | crates/gilbreth-capture-linux/src/clipboard.rs:83-106 | the verdict on a target list does not depend on its order |
| Clipboard.KindDecides | crates/gilbreth-capture-linux/src/clipboard.rs:83-106 | each verdict holds exactly when its targets are there: concealed first, then empty for nothing but protocol targets, then text, files, images and audio; the count leaves the protocol targets out |
| ClipboardRuns.RowsComeFromLiveCopies | crates/gilbreth-capture-linux/src/clipboard.rs:154-242 | every row is an emptied clipboard's or carries one copy that arrived with the stream on, with the stream on and no reseed at any step since |
| ClipboardRuns.CopyEndsOnce | crates/gilbreth-capture-linux/src/clipboard.rs:161-242 | every copy taken with the stream on is pending for one stretch and ends once; only the step that ends it can report it, and does exactly when that is its fate |
| ClipboardRuns.RequestsAreSpaced | crates/gilbreth-capture-linux/src/clipboard.rs:212-221 | requests are at least a sample interval apart in every run |
| ClipboardRuns.PassLeavesNothingOverdue | crates/gilbreth-capture-linux/src/clipboard.rs:207-242 | at the end of every pass of every run with the stream on a request in flight is younger than the timeout and an unasked copy waits only for the cadence; with the stream off nothing is pending |
| ClipboardRuns.AnswerIsCreditedRight | crates/gilbreth-capture-linux/src/clipboard.rs:177-206 | a reply is credited to the copy it answers exactly when no newer request has gone out |
| ClipboardRuns.LateAnswerIsNotStale | crates/gilbreth-capture-linux/src/clipboard.rs:165-172 | a run in which the reply for an overwritten request is reported as the newer copy's |
| ClipboardRuns.AskedOnce | crates/gilbreth-capture-linux/src/clipboard.rs:212-231 | no copy is asked about twice |
| ClipboardRuns.CallsPass | crates/gilbreth-capture-linux/src/clipboard.rs:147-160 | every sequence of passes and reseeds has the step structure the run lemmas assume |
| ClipboardRows.RowsFollowHistory | crates/gilbreth-capture-linux/src/clipboard.rs:154-242 | after any history a step puts out exactly the row, and makes exactly the request, that the raw steps ask for: an emptied clipboard, the pending copy's answer or refusal, or its giving up two seconds after the request; a request a second or more after the last |
| Foreground.ForegroundMonitor.PollOnce | crates/gilbreth-capture-linux/src/foreground.rs:124-187 | one service pass: the whole new state and the rows |
| Foreground.ForegroundMonitor.ReseedMonitor | crates/gilbreth-capture-linux/src/foreground.rs:110-114 | a reseed forgets the segments and the last reading and sets the title flag, and puts out nothing |
| Foreground.ForegroundMonitor.EndCurrentGapCappedAt | crates/gilbreth-capture-linux/src/foreground.rs:198-212 | a close attributes only what was observed |
| Foreground.ForegroundMonitor.FlushSegment | crates/gilbreth-capture-linux/src/foreground.rs:205-211 | the shutdown flush closes the open segment under the same cap |
| Foreground.DwellIsObserved | crates/gilbreth-capture-linux/src/foreground.rs:124-218 | over every clocked run, dwell in rows, open time and time thrown away by reseeds add up to exactly the unstalled gaps with a segment open, to within a millisecond a row |
| Foreground.PauseForgets | crates/gilbreth-capture-linux/src/foreground.rs:131-153 | after a paused pass the monitor depends only on that pass's time and the title flag |
| Foreground.PauseLeavesNoTrace | crates/gilbreth-capture-linux/src/foreground.rs:131-153 | two histories are indistinguishable by all later rows after a paused pass exactly when they agree on the title flag |
| ForegroundRows.FlagIsRedactionDue | crates/gilbreth-capture-linux/src/foreground.rs:110-115 | the flag is up exactly when the last reseed asked for it and no window has been read since |
| ForegroundRows.RowsFollowHistory | crates/gilbreth-core/src/lib.rs:2605-2712 | over every run, told from the calls and the rows already out: a reading puts out no row for the open window and else one that names exactly the window read, title blanked when redaction is due, the window of the row that opened the segment, how long that had focus, and how long since a row last took focus from the new one short of a pause or reseed; a closing row names the opening row's window on both sides, with dwell up to the last pass across a stall of over 30 seconds |
| ForegroundRows.RunsAreChained | crates/gilbreth-core/src/lib.rs:2605-2712 | the rows of every run form a chain: a row that names a previous window follows the row that opened it and credits at most the time between, all of it when the focus moved on |
| PermissionRequests.PermissionPump.HandlePermissionSubsystem | crates/gilbreth-app/src/main.rs:2200-2264 | one service call: throttled, or the silent baseline on the first poll and then one action at most |
| PermissionRequests.RequestsAreNeverReplayed | crates/gilbreth-app/src/main.rs:2209-2225 | over every interleaving and restart, each request is acted on at most once and only by a pump whose baseline came before it was written |
| PermissionRequests.BaselineDecides | crates/gilbreth-app/src/main.rs:2215-2224 | a fresh pump is safe from everything older exactly when its baseline read succeeded or there was no file |
| PermissionRequests.FailedBaselineReplays | crates/gilbreth-app/src/permissions.rs:122-125 | a run in which a failed read replays a relaunch |
| PermissionRequests.SerialRequestIsActedOn | crates/gilbreth-app/src/main.rs:1032-1044 | when dashboards take turns the next poll acts on whatever was written last |
| PermissionRequests.DashboardRunsThrough | crates/gilbreth-app/src/main.rs:1032-1044 | a dashboard that reads and writes puts its request into the file numbered past the one it read, or leaves the file as it was when the write fails |
| PermissionRequests.PumpsComeAndGo | crates/gilbreth-app/src/main.rs:2200-2264 | a pump starts knowing nothing, only when none runs, and quitting takes nothing else with it |
| PermissionRequests.OverlookedIffNotPast | crates/gilbreth-app/src/main.rs:2246-2250 | the request in the file is overlooked for good, through any later writes, polls, failed reads and restarts, exactly when its number is not past the pump's |
| PermissionRequests.TwinRequestIsOverlooked | crates/gilbreth-app/src/main.rs:1032-1044 | of two requests numbered from the same read the second is overlooked for good once the first is acted on |
| WindowsArgs.QuotedSplitsBack | crates/gilbreth-app/src/elevated_record_helper.rs:754-775 | the quoted form of any value reads back as exactly that value |
| WindowsArgs.QuoteWindowsArg | crates/gilbreth-app/src/elevated_record_helper.rs:754-775 | the quoting loop produces that form |
| WindowsArgs.QuotedInjective | crates/gilbreth-app/src/elevated_record_helper.rs:754-775 | distinct values never share a quoted form |
| WindowsArgs.HelperReceivesItsArguments | crates/gilbreth-app/src/elevated_record_helper.rs:557-561 | the helper's parameter line splits into exactly the eight intended arguments |
| WindowsArgs.DecimalReadsBack | crates/gilbreth-app/src/elevated_record_helper.rs:557-559 | numbers on the command line read back as themselves, signed only when negative |
| HelperBridge.BridgeHelperActions | crates/gilbreth-app/src/elevated_record_helper.rs:395-464 | what reaches the writer is exactly this session's actions after the announcement and before the closing message, failed read or wrong announcement, as far as the writer takes them; the end is decided by which of these came |
| HelperBridge.OnlyCountedActions | crates/gilbreth-app/src/elevated_record_helper.rs:404-437 | an action gets through exactly when it is of this session and comes after the announcement |
| HelperBridge.StopsAtFirst | crates/gilbreth-app/src/elevated_record_helper.rs:395-464 | the bridge reads on past the right announcement, actions, and word of other sessions, and stops at anything else |
| Ico.BuiltIconReadsBack | crates/gilbreth-app/src/main.rs:5974-6017 | from a file built over any distinct sizes, reading any of them returns that image's original pixels |
| Ico.DirectoryTilesFile | scripts/generate_windows_icon.py:110-131 | the directory entries describe their parts, which tile the file without gap or overlap |
| Ico.HeadersReadBack | scripts/generate_windows_icon.py:93-107 | every image header of a built file reads back: its length, the width, the doubled height, one plane of 32 bits, no compression and the length of the pixels |
| Ico.DistinctSizesFit | scripts/generate_windows_icon.py:110-131 | distinct icon sizes always fit the format's fields |
| Ico.MaskMarksTransparentPixels | scripts/generate_windows_icon.py:81-92 | each mask bit is set exactly when its pixel's alpha is zero, and padding bits are clear |
| Ico.StoredPixel | scripts/generate_windows_icon.py:86-90 | pixels are stored bottom row first, each as blue, green, red, alpha |
| Ico.StrideIsLeast | scripts/generate_windows_icon.py:81-85 | a mask row is the fewest whole 32-bit words that hold a bit for each pixel |
| Ico.FlipTwice | crates/gilbreth-app/src/main.rs:6002-6015 | the reader's flip undoes the writer's |
| Ico.DibImage | scripts/generate_windows_icon.py:79-107 | the image writer's loops produce header, pixels and mask |
| Ico.BuildIco | scripts/generate_windows_icon.py:110-131 | the file writer produces the container, or fails when a field cannot hold its value |
| Ico.IcoImageRgba | crates/gilbreth-app/src/main.rs:5974-6017 | the reader's loops produce the flipped pixels, or fail where it asserts |
| Hotkey.ParsePauseHotkey | crates/gilbreth-app/src/hotkey.rs:163-213 | accepts exactly the lists of known, distinct, non-empty parts with each modifier group at most once, a modifier and one key |
| Hotkey.PrintedChordParsesBack | crates/gilbreth-app/src/hotkey.rs:58-121 | printing then parsing gives the chord back exactly when it has a modifier |
| Hotkey.PrintChord | crates/gilbreth-app/src/hotkey.rs:58-121 | the printed text: Ctrl, Alt, Shift and Win or Cmd in this order, each with its plus sign, then the key; it parses back |
| Hotkey.OrderIrrelevant | crates/gilbreth-app/src/hotkey.rs:163-213 | the verdict and the chord do not depend on the order of the parts |
| Hotkey.AcceptedPartsAreDistinct | crates/gilbreth-app/src/hotkey.rs:163-213 | accepted parts are non-empty and distinct |
| Hotkey.ResolvePauseHotkey | crates/gilbreth-app/src/hotkey.rs:138-161 | blank disables, a valid chord is used, anything else falls back to the default |
| Hotkey.DefaultParses | crates/gilbreth-app/src/hotkey.rs:159-161 | the default chord is valid |
| Hotkey.AliasesReadAlike | crates/gilbreth-app/src/hotkey.rs:163-252 | a part spelled control, windows, cmd, command, del, return, esc, ins, pgdn or pgup, in any case, means what its printed form does |
| Hotkey.TrimIs | crates/gilbreth-app/src/hotkey.rs:163-167 | trimming takes the white space off both ends of a part and nothing else |
| Hotkey.WhiteSpaces | crates/gilbreth-app/src/hotkey.rs:163-167 | the white space stripped is the 25 code points of the Unicode White_Space property |
| Hotkey.SplitIs | crates/gilbreth-app/src/hotkey.rs:163-167 | the text is cut at every plus sign and at nothing else |
| Hotkey.CasesAre | crates/gilbreth-app/src/hotkey.rs:174 | only the 26 letters have a case, 32 code points apart |
| PurgeResults.StatusIsHonest | crates/gilbreth-app/src/uninstall.rs:549-591 | the status is incomplete exactly when some class is deferred or needs a retry |
| PurgeResults.CompletedMeansGone | crates/gilbreth-app/src/uninstall.rs:555-591 | completed means the root and everything in it are gone |
| PurgeResults.OthersSurvive | crates/gilbreth-app/src/uninstall.rs:439-593 | whatever fails, an entry that no class claims survives as it was, and so does the root until the purge completes |
| PurgeResults.StrangeEntriesSurvive | crates/gilbreth-app/src/uninstall.rs:819-861 | so nothing outside the root but the configured database's files goes, nothing at or below a strange name in it, no marker of an unmarked root, and nothing strange in its program directory |
| PurgeResults.ClaimedIffNotStrange | crates/gilbreth-app/src/uninstall.rs:439-593 | the classes claim exactly the configured database's files and the entries below the root that are not strange |
| PurgeResults.ConfigurationSurvives | crates/gilbreth-app/src/uninstall.rs:483-506 | a purge that leaves the configured database unfinished keeps the configuration |
| PurgeResults.ConfigurationSurvivesIff | crates/gilbreth-app/src/uninstall.rs:609-680 | a configuration file is safe from every such purge exactly when it is not one of that database's files |
| PurgeResults.RerunTouchesNothing | crates/gilbreth-app/src/uninstall.rs:439-593 | with no root nothing is removed, whatever fails |
| PurgeCompletes.RerunIsANoOp | crates/gilbreth-app/src/uninstall.rs:439-593 | rerunning after a completed purge changes nothing, whatever fails, and completes again exactly when the configuration reads as missing and none of its own looks fails |
| PurgeCompletes.TidyPurgeCompletes | crates/gilbreth-app/src/uninstall.rs:439-593 | when nothing fails and the root holds only what the classes expect, the purge completes |
| PurgeCompletes.CompletedCountsEverything | crates/gilbreth-app/src/uninstall.rs:507-591 | a completed receipt's counts add up to every entry removed, but for the program directory itself |
| PurgeGone.RemovedIsGone | crates/gilbreth-app/src/uninstall.rs:439-593 | whatever fails, what a receipt calls removed is not on the disk when the purge is over: each class's own names, the trees of the directory classes, the root, and a database configured elsewhere with its companions |
| PurgeGone.CompletedLeavesNoDatabase | crates/gilbreth-app/src/uninstall.rs:609-694 | a completed purge leaves neither the configured database nor its -wal or -shm on the disk, wherever they lie |
| PurgeGone.CompletedCountsDatabase | crates/gilbreth-app/src/uninstall.rs:646-679 | and its count for a database configured elsewhere is how many of the three were there and not removed before as default files |
| PurgeGone.FileClassIsExact | crates/gilbreth-app/src/uninstall.rs:646-739 | a class of files removes exactly those of its entries that nothing keeps, counts every one it can see, succeeds exactly when nothing kept any, and is deferred for a lock and to be retried otherwise |
| PurgeGone.ReceiptHasEveryLine | crates/gilbreth-app/src/uninstall.rs:439-593 | a purge that runs writes a line for each of the thirteen classes in order, and is complete exactly when all but the exports' say removed |
| PurgeReceipts.DirectoryClassIsExact | crates/gilbreth-app/src/uninstall.rs:752-794 | without an obstacle a directory class counts its whole tree and takes it, or what the failing removal takes, deferred when the failure is a lock |
| PurgeReceipts.ObstructedClassIsExact | crates/gilbreth-app/src/uninstall.rs:752-783 | one that cannot be looked at, is no directory, or holds what cannot be read or a link is left alone, with the line that says which |
| PurgeReceipts.ProgramsAreExact | crates/gilbreth-app/src/uninstall.rs:796-841 | in a program directory within reach exactly the programs go that nothing keeps; the directory goes too when none is kept, there are no strangers and it can be removed; strangers keep it without failing the class, a failing removal fails it; out of reach nothing is touched, and the line and the unknown count say why |
| PurgeReceipts.LineIsItsClass | crates/gilbreth-app/src/uninstall.rs:439-527 | each of the first ten lines is its class's, run on the disk the earlier ones left |
| PurgeReceipts.UnresolvedDefersConfiguration | crates/gilbreth-app/src/uninstall.rs:483-506 | a configured database that cannot be resolved is deferred, and then so is the configuration, which its class leaves as it is, its line counting what is there up to the first file that cannot be looked at |
| PurgeReceipts.LastLinesAreExact | crates/gilbreth-app/src/uninstall.rs:528-593 | the unknown-entries line is removed for none, deferred with their number, or a retry when either directory cannot be read; the root is left alone while any line is unfinished, and otherwise removed unless it is not empty or its removal fails; a refused root is all the receipt speaks of |
| PurgeProofs.ClassIsHonest | crates/gilbreth-app/src/uninstall.rs:696-841 | each class removes only what it claims and, when it reports success, counted exactly that |
| PurgeProofs.PathsPurged | crates/gilbreth-app/src/uninstall.rs:696-739 | a file loop removes only plain files from its list and, without trouble, all of them |
| PurgeRun.CountTreeEntries | crates/gilbreth-app/src/uninstall.rs:864-880 | counts the directory and everything below it, or fails when the tree holds a link or cannot be read |
| PurgeRun.Disk.RemoveFiles | crates/gilbreth-app/src/uninstall.rs:696-739 | the file loop over the disk |
| PurgeRun.Disk.DeferFilesOf | crates/gilbreth-app/src/uninstall.rs:731-749 | counts what is there, or stops at the first entry it cannot look at |
| PurgeRun.Disk.RemoveConfiguredDatabase | crates/gilbreth-app/src/uninstall.rs:609-680 | the configured database's class over the disk: nothing for a missing or default configuration, deferred for an unresolved one, the file loop over its three files otherwise |
| PurgeRun.Disk.RemoveDirectoryClass | crates/gilbreth-app/src/uninstall.rs:752-794 | a directory class refuses links and unreadable trees, and otherwise removes or tears its tree |
| PurgeRun.Disk.RemoveLegacyProgramFiles | crates/gilbreth-app/src/uninstall.rs:796-841 | the program files, and their directory when nothing else is in it |
| PurgeRun.Disk.CountUnknownEntries | crates/gilbreth-app/src/uninstall.rs:843-861 | the number of entries no list claims |
| PurgeRun.Disk.PurgeRoot | crates/gilbreth-app/src/uninstall.rs:439-593 | the whole purge and its receipt |
| Config.Editor.InsertVisibleDefaults | crates/gilbreth-app/src/config.rs:1189-1311 | the upgrade of the document in place, and whether it changed anything |
| Config.Editor.InsertMissingValue | crates/gilbreth-app/src/config.rs:1313-1326 | inserts exactly when the key is missing |
| Config.UpgradeKeepsMeaning | crates/gilbreth-app/src/config.rs:370-411 | the upgrade leaves every present key as it was, reads back as the same configuration and writes every visible setting out |
| Config.UpgradeIsIdempotent | crates/gilbreth-app/src/config.rs:976-990 | upgrading again changes nothing |
| Config.UpgradeWrites | crates/gilbreth-app/src/config.rs:1189-1311 | every key of an upgraded document: what was there stays, and what was missing is written with its shipped value unless the upgrade leaves it implicit |
| Config.ParsesIff | crates/gilbreth-app/src/config.rs:60-320 | a document reads as a configuration exactly when each of the seven known sections it has is a table whose every value fits its key |
| ConfigWriters.OthersSame | crates/gilbreth-app/src/config.rs:467-487 | an operation that refuses changes nothing; any other leaves every key it does not set as it was, in the file or in the document that stands for a missing one |
| ConfigWriters.MissingFileHolds | crates/gilbreth-app/src/config.rs:418-425 | the document that stands for a missing file holds exactly the shipped settings, value by value, and a fresh install's three keys of its own |
| ConfigWriters.LoadingWrites | crates/gilbreth-app/src/config.rs:370-425 | loading writes a missing file with the fresh install's settings, and into one that reads as a configuration every missing setting that is to be visible |
| ConfigWriters.SetsItsKeys | crates/gilbreth-app/src/config.rs:467-621 | every key an operation sets, the privacy save's six and the posture among them, holds the new value afterwards unless the operation refuses, and then what it held |
| ConfigWriters.StoresPrivacy | crates/gilbreth-app/src/config.rs:587-621 | a privacy save that does not refuse stores each of its six choices, day counts held to 64 bits |
| ConfigWriters.StoresWhatWasAsked | crates/gilbreth-app/src/config.rs:467-585 | so does every other operation that does not refuse |
| ConfigWriters.WritesParse | crates/gilbreth-app/src/config.rs:587-621 | a readable file, or none, is never made unreadable |
| ConfigWriters.WelcomeStaysGone | crates/gilbreth-app/src/config.rs:493-528 | once the file exists a dismissed welcome is never armed again |
| ConfigWriters.PostureUndoneIff | crates/gilbreth-app/src/config.rs:467-477 | a confirmed posture is undone exactly when a privacy save meets an unreadable document that stores the opposite and whose every fault is a key the save overwrites |
| ConfigWriters.SaveMendsIff | crates/gilbreth-app/src/config.rs:587-621 | a privacy save makes a document readable exactly when every known section is a table and every ill-typed setting is one of its six keys |
| ConfigWriters.MendingUndoesPosture | crates/gilbreth-app/src/config.rs:587-621 | a document on which that happens |
| ConfigLock.WritersSerialize | crates/gilbreth-app/src/config.rs:863-887 | under any interleaving the file is what the committed operations make of it one at a time |
| ConfigLock.NoUpdateLost | crates/gilbreth-app/src/config.rs:863-866 | what an operation stored is there at the end unless a later one set that key |
| ConfigLock.OperationRunsThrough | crates/gilbreth-app/src/config.rs:863-887 | a process that finds the lock free leaves the file as its operation makes it, or as it was when the write fails, and the lock free; one that finds it taken cannot begin, and none can skip a step |
| ConfigLock.FlagsNeverRevert | crates/gilbreth-app/src/config.rs:467-528 | from a readable file or none, both flags only ever rise |
| SphereAliases.WriteSphereAliases | crates/gilbreth-app/src/config.rs:785-832 | the cleaned list: folded keys in first-seen order with their last values |
| SphereAliases.WrittenAliasesReadBack | crates/gilbreth-app/src/config.rs:762-783 | what is written reads back as the aliases themselves read, whatever collided |
| SphereAliases.ReadTakesLast | crates/gilbreth-app/src/config.rs:762-783 | a token has an alias exactly when some entry names it and says something, and then the last such entry's |
| SphereAliases.PruneStaleSphereAliases | crates/gilbreth-app/src/config.rs:835-861 | keeps exactly the aliases of live tokens, as they were, and writes only when something goes |

## Left out

- X11, D-Bus, Win32, AppKit, tray and dialog calls: only their observable answers appear, as arbitrary inputs.
- The SQLite writer and readers behind the channels: the writer appears only as replies and as a log.
- MouseMotion.PathBounds: `distance_px` is the exact nearest root; the double-precision square root of large deltas is not modelled.
- MouseMotion.DragSumsItsMoveRows: a drag longer than 2^63 pixels or 2^64 events saturates its counters and is not covered.
- Mouse.MouseState.OnEvent: pointer coordinates are unbounded integers, so overflow of a coordinate difference is not modelled.
- Foreground.DwellIsObserved: assumes clock readings that never run backwards from call to call.
- CapturePauseRuns.FairRunsStayClean: a producer's gate check and its enqueue are one step, one privacy operation is under way at a time, and nothing is claimed for runs with Record Routine.
- CapturePause.RunInOrder: the writer's disconnection is not part of the interleaved model; `CaptureResume.Forwarder.Run` has it.
- RecordLanes.StoppedOnceIffDisciplined: assumes that writer session ids are never reused; capture workers, the panic cutoff and menu state are not modelled.
- RecordLanes.OneStopInFlight: the event channel hands over messages in any order, which covers first-in first-out.
- PermissionRequests.OverlookedIffNotPast: restarted pumps see the file on their first poll; `BaselineDecides` covers the others.
- PermissionRequests.RequestsAreNeverReplayed: a write replaces the file in one step; two dashboards sharing the temporary file's name are not modelled, nor is removal of the file.
- PurgeResults.OthersSurvive: paths are compared as written, so a configured database reached through a link into the root is not modelled.
- PurgeCompletes.RerunIsANoOp: the configuration went with the root, so the rerun does not read a database path from it.
- PurgeProofs.ClassIsHonest: nothing else changes the disk while the purge runs.
- Config.UpgradeKeepsMeaning: a known section written as an array, which the deserializer reads by position, counts as unreadable here; comments, key order and integer widths are not modelled.
- ConfigWriters.OthersSame: `excluded_apps` and pattern lists arrive already normalized; `save_atomic`, which only tests call, is left out.
- SphereAliases.WrittenAliasesReadBack: case folding and stripping are any functions that are idempotent; JSON text is not modelled.
- WindowsArgs.QuotedSplitsBack: strings are sequences of characters, without UTF-16 encoding; both readings of a doubled quote are covered.
- WindowsArgs.HelperReceivesItsArguments: a NUL in a path or pipe name, which would cut the line at its conversion to a wide string, is not modelled.
- Icon rasterisation: pixel bytes are arbitrary input.
- `health.rs`, `idle.rs`, `system.rs`, `keyboard.rs`, autostart and consent text: single-branch code or wording that would add only easy members.
- The handle and pipe lifetime of the elevated helper: operating-system objects; its message loop and command line are modelled.
