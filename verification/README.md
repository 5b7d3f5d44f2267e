# Doorfast: a verified model

Doorfast is a daemon for a video door-entry network. Door stations call, send pictures and
audio, and are answered; indoor stations keep each other's settings in step. This project models
its deterministic core in Dafny and proves what it keeps on every run.

Time is a parameter, as in the C code. Everything outside (a frame that cannot be sent, a
publisher that refuses, an encoder that does not stop) is a parameter too: an answer, a function
from call numbers to answers, or an oracle with one entry for each place that asks. Every theorem
holds for all of them.

Where the C code changes a struct or an array in place, a class does the same with fields, arrays
and loops, and each method is proved equal to a function on values; the theorems are about those
functions and about whole runs of them. C structs become datatypes held in one field of the class;
large structs (the monitor and the media session) have their fields grouped.

| file | models |
|---|---|
| Words | bytes, 16-bit sequence numbers, 64-bit clocks |
| AudioBuffer, AudioPlayout, AudioJitter, AudioJitterWindow | the downlink audio chain: reorder window, playout, drop-oldest ring |
| AudioAdmission, AudioOrder, AudioService | what the window takes and lets out, that it restores order, and when audio is published |
| G711Alaw | the A-law codec |
| VideoReassembly | pictures from chunks in any order |
| ReplyQueue, SendTransaction | the queue of replies and the sender with its retries |
| Frame | control frames on the wire |
| Session, Receive, CallAck, Handshake, CallDispatch, CallRuntime, CallControl, CallRuns | the call-control stack, and its runs |
| CallBegin, CallEnd, CallTalk, CallReport | how calls begin and end on every run, what is said meanwhile, and what is reported |
| Presence, PresenceTalk, Sync, SyncJson | timers and maintainers of the room, and the settings they exchange as JSON |
| Monitor, MediaSession, MediaManager | the preview monitor, one media session, and the manager's operations |
| MonitorTalk, MediaFrame | what the monitor says, and every frame the manager sends |
| MediaAdmission, MediaCourse | which sessions are opened, and what becomes of them |
| MediaSoundness, MediaConfirmation, MediaTable | what the manager keeps, what a confirmation means, and the manager in place |

Places where the code does not do what one would expect, kept as they are:

- An incoming call that arrives when our own hang-up is overdue, before any step, takes the session
  over and its end is never recorded. `CallRuns.EndsAreRecorded` has this as its one exception, in
  both directions, and `CallRuns.AnEndWithoutRecord` is a run that shows it.
- The audio store takes a packet at distance 32768 only after an announced gap. The window's own
  rule makes exactly that case arise, and `AudioJitters.StoreTakesRealPackets` shows the fit.
- The manager marks a session failed when a stopping retry cannot be sent and its cleanup fails
  too; the next stage of the same tick marks it stopping again
  (src/media_session_manager.c:1546-1576). The model does the same.
- A restart that the monitor refuses while hang-ups cross has already moved its clock
  (src/gvs_monitor.c:554-559); so has the model's.
- A caller without an address rings, but no keep-alives can be started for it, so every step is
  refused until its deadline is due (src/gvs_call_control.c:268-272). `CallRuns.StepsAreRefused`
  says exactly when a step is refused, and `CallRuns.CallersWithoutAddressBlock` is such a run.

## Model

A row about a method says which part of the code it is: its contract equates the state after the
call, and every result, with the function on values that the run theorems are about, so a skipped
step or a swapped value fails there or in those theorems.

| member | source | states |
|---|---|---|
| `MediaSoundness.SlotsAreKept` | src/media_session_manager.c:787-908 | after any sequence of calls of the module, with any answers from outside: the active count is the number of sessions in use and at most the capacity, nothing stays reserved, a station has at most one session, one session at most is a call, and generations are distinct, positive and at most the last one issued |
| `MediaSoundness.GenerationsAreIssuedOnce` | src/media_session_manager.c:882-906 | a generation seen at two moments of a run belongs to the same station in the same slot, and was in use at every moment between: no generation is ever reissued |
| `MediaSoundness.EveryRunIsSound` | src/media_session_manager.c:1136-1301 | the invariant behind both, including that unused slots are empty and that sessions in use have a station the monitor accepts, holds on every run |
| `MediaSoundness.StepFollows` | src/media_session_manager.c:1668-1686 | every single entry point keeps that invariant, and each later session is an earlier one in its own slot or has a newer generation |
| `MediaSoundness.LaterInherits` | src/media_session_manager.c:903-906 | the same between any two moments of a run |
| `MediaSoundness.CallsTakeTheirPlace` | src/media_session_manager.c:1136-1230 | an incoming call that fails leaves every session with its owner, generation and purpose; one that succeeds is the call already there, or takes the place of the station's own session, or an empty slot, or, when all slots are taken, exactly that of the preview started first, every other slot untouched |
| `MediaSoundness.HereOutcome` | src/media_session_manager.c:1175-1195 | the station's own session becomes the call under the next generation, or nothing changes hands |
| `MediaSoundness.FullOutcome` | src/media_session_manager.c:1196-1220 | at full capacity exactly the oldest preview is replaced, or nothing changes hands |
| `MediaSoundness.FreeOutcome` | src/media_session_manager.c:1221-1229 | an empty slot is filled and one more session counted, or nothing changes hands |
| `MediaSoundness.BindCannotFail` | src/media_session_manager.c:510-535 | once the preflight has passed and the session is upgraded, binding its monitor to the call succeeds |
| `MediaSoundness.OldestIsOldest` | src/media_session_manager.c:1053-1066 | the victim is a preview, none was started before it, and of those started together it has the first slot; there is no victim exactly when there is no preview |
| `MediaSoundness.RoomIsFree` | src/media_session_manager.c:385-396 | a free slot is found exactly when the active count is below the capacity |
| `MediaAdmissions.CallsAreAnswered` | src/media_session_manager.c:1136-1230 | an incoming call succeeds exactly if a condition on configuration, sessions, clock and outside holds: it is under way already, or nobody else calls, generations are left, and the station's session can become the call, or a slot is free or the oldest preview gives way and address, memory, names, encoder and monitor allow it; and every obstacle gets its own answer |
| `MediaAdmissions.PreviewsAreAnswered` | src/media_session_manager.c:838-907 | the same for starting a preview or an unlock preparation |
| `MediaAdmissions.StartedCalls` | src/media_session_manager.c:813-837 | the same for starting a call |
| `MediaAdmissions.ChecksAreAnswered` | src/media_session_manager.c:645-681 | the same for the check before an outgoing call: a confirmation of the attempt that plays, with pictures less than 30 s old |
| `MediaAdmissions.PreparationAnswers` | src/media_session_manager.c:1096-1134 | what preparing a call needs, and which lack gets which answer |
| `MediaAdmissions.HereAnswers` | src/media_session_manager.c:1175-1195 | when the station's own session becomes the call |
| `MediaAdmissions.FullAnswers` | src/media_session_manager.c:1196-1220 | when the oldest preview gives way |
| `MediaAdmissions.UnknownStations` | src/media_session_manager.c:1149-1150 | a station that is not configured is told so |
| `MediaSoundness.NamedHasName` | src/media_session_manager.c:361-371 | a station is found exactly when one of that name is configured, and has that name |
| `MediaSoundness.CheckChangesNothing` | src/media_session_manager.c:645-681 | a check changes nothing, and succeeds only when no other session is a call |
| `MediaSoundness.IncomingFollows` | src/media_session_manager.c:1136-1230 | an incoming call keeps the invariant, whatever its outcome |
| `MediaSoundness.StartFollows` | src/media_session_manager.c:787-908 | so does starting a session |
| `MediaSoundness.OperateFollows` | src/media_session_manager.c:537-682 | so do releases, rollback, binding and marking |
| `MediaSoundness.HandOverFollows` | src/media_session_manager.c:684-710 | so does handing a preview to an outgoing call |
| `MediaSoundness.CommandedFollows` | src/media_session_manager.c:1232-1301 | so do the stop and viewer commands |
| `MediaSoundness.ControlFollows` | src/media_session_manager.c:924-1051 | so does a control frame |
| `MediaSoundness.PictureFollows` | src/media_session_manager.c:1327-1428 | so does a picture |
| `MediaSoundness.TickFollows` | src/media_session_manager.c:1496-1645 | so does a tick over all slots |
| `MediaSessions.TickMoves` | src/media_session_manager.c:1523-1642 | a tick either empties a slot or leaves it to its owner, however many cleanups fail on the way |
| `MediaSessions.ControlMoves` | src/media_session_manager.c:936-1048 | so does a control frame |
| `MediaSessions.PictureMoves` | src/media_session_manager.c:1345-1425 | so does a picture |
| `MediaSessions.CommandMoves` | src/media_session_manager.c:1251-1290 | so does the stop command |
| `MediaSessions.StopMoves` | src/media_session_manager.c:171-190 | the best-effort hang-up empties nothing and leaves the session state alone |
| `MediaSessions.FinishedMoves` | src/media_session_manager.c:481-508 | finishing a retry keeps the session's owner |
| `MediaSessions.ScheduledMoves` | src/media_session_manager.c:456-479 | so does scheduling one |
| `MediaSessions.ShownKeepsOwner` | src/media_session.c:422-553 | so does pushing a picture to the encoder, recovered or not |
| `MediaSessions.AttemptKeepsOwner` | src/media_session.c:235-276 | so does resetting the pipeline or the attempt |
| `MediaSessions.EmptyStaysEmpty` | src/media_session_manager.c:1571-1642 | a slot emptied early in a tick is left alone by the rest of it |
| `MediaFrames.EveryFrameIsSpoken` | src/media_session_manager.c:1496-1645 | on every run every frame sent goes from this station to the station of the session it is sent for, at that session's address, and is a request, a keep-alive, a hang-up, or the answer to one of the latter two, with exactly its bytes |
| `MediaFrames.StepSpeaks` | src/media_session_manager.c:1668-1686 | the same for one call of the module |
| `MediaFrames.KeepAlivesAreAnswered` | src/media_session_manager.c:966-972 | a keep-alive of the station's is answered; the answer to ours is not |
| `MediaFrames.HangupsAreAnswered` | src/media_session_manager.c:973-981 | a hang-up is answered before anything else comes of it |
| `MediaCourses.StopsAreSaid` | src/media_session_manager.c:1251-1277 | the stop command hangs up at once unless an outgoing call speaks for the session, and the slot waits |
| `MediaCourses.CommandsAreAnswered` | src/media_session_manager.c:1240-1250 | the stop and viewer commands reach exactly the station's session of the given generation, as long as no release of it is pending; what they find in the way gets its own answer and changes nothing |
| `MediaCourses.AnswersEmptyTheSlot` | src/media_session_manager.c:1036-1044 | the station's answer then empties the slot |
| `MediaCourses.SilenceEmptiesTheSlot` | src/media_session_manager.c:1588-1598 | so does a second without one |
| `MediaCourses.ReleasesAreDone` | src/media_session_manager.c:574-620 | a release that may be asked for empties the slot when the encoder stops, and is remembered for a tenth of a second otherwise |
| `MediaCourses.HandoffsAreAnswered` | src/media_session_manager.c:559-644 | binding the call, noting that its command went out and taking the preview back succeed exactly for a session handed over, under its call's generation; what is refused changes nothing |
| `MediaCourses.ReleasesNeedTheirOwner` | src/media_session_manager.c:559-573 | exactly who may ask for a release |
| `MediaCourses.ReleasesAreRetried` | src/media_session_manager.c:1508-1517 | a remembered release is tried again by the first tick that is due |
| `MediaCourses.FramesFindTheirSession` | src/media_session_manager.c:924-942 | a frame goes to the first session of its sender and to no other |
| `MediaCourses.PicturesFindTheirSession` | src/media_session_manager.c:1327-1344 | a picture goes to the first session of its station |
| `MediaCourses.PicturesAreShown` | src/media_session_manager.c:1345-1425 | a picture the monitor admits is published under the session's generation |
| `MediaCourses.PreparationsNoteTheirPicture` | src/media_session_manager.c:1345-1400 | an unlock preparation takes pictures of its current attempt only, and without an encoder |
| `MediaCourses.StallsAreNoticed` | src/media_session_manager.c:1599-1625 | half a minute without a picture is noticed, and nothing less |
| `MediaCourses.StalledPreviewsAskAgain` | src/media_session_manager.c:456-479 | a stalled preview hangs up to ask again and goes on publishing |
| `MediaCourses.StalledPreviewsAreGivenUp` | src/media_session_manager.c:456-479 | one whose monitor can no longer ask fails and is released when its encoder stops |
| `MediaCourses.CallsLeaveTheirControl` | src/media_session_manager.c:944-950 | the keep-alives and hang-ups of a call are refused here: they are the call control's |
| `MediaCourses.StalledCallsEnd` | src/media_session_manager.c:1599-1625 | a stalled call hangs up and its slot is emptied |
| `MediaCourses.SessionsFollowTheirMonitor` | src/media_session_manager.c:481-508 | with the monitor's next attempt the session takes its pictures and keeps what it publishes |
| `MediaCourses.HangupsRestartSessions` | src/media_session_manager.c:1001-1024 | after a final hang-up a preview goes on with its next attempt and nothing of the old one counts |
| `MediaCourses.LateCallsEnd` | src/media_session_manager.c:1523-1587 | a call whose video does not come in time is given up by the first tick that sees it |
| `MediaCourses.LatePreviewsHangUp` | src/media_session_manager.c:1523-1576 | a preview in the same place hangs up to ask again |
| `MediaCourses.FailedSessionsAreReleased` | src/media_session_manager.c:1518-1522 | a failed session is released by the next tick whose encoder stops |
| `MediaCourses.HandedOverIsSilent` | src/media_session_manager.c:171-190 | while an outgoing call speaks for a session its monitor says nothing |
| `MediaCourses.DeadEncodersAreReplaced` | src/media_session.c:404-420 | an encoder that has exited is replaced for a preview, or the session has failed |
| `MediaCourses.FrozenPicturesGoOn` | src/media_session_manager.c:1626-1642 | a picture that cannot be frozen while its source is away ends the session; one that can does not |
| `MediaCourses.ViewersAreNoted` | src/media_session_manager.c:1291-1301 | who watches decides whether a session that publishes is viewed |
| `MediaCourses.NewCallsWatch` | src/media_session_manager.c:1096-1134 | a new call awaits the caller's video for the configured time |
| `MediaCourses.UpgradedCallsWatch` | src/media_session_manager.c:1175-1195 | so does a preview that becomes the call |
| `MediaCourses.NewPreviewsAsk` | src/media_session_manager.c:854-902 | a new preview asks from the end of its cooldown on |
| `MediaCourses.PreparationsAreAdopted` | src/media_session_manager.c:838-848 | starting a preview of a station that has one changes nothing, but makes an unlock preparation a full preview |
| `MediaCourses.StartsNameTheirSession` | src/media_session_manager.c:787-908 | a start that succeeds names the station's session |
| `MediaCourses.RollbackUndoes` | src/media_session_manager.c:621-631 | a preview handed over and taken back is what it was, but no longer a mere preparation |
| `MonitorTalks.StepsSpeak` | src/gvs_monitor.c:231-352 | a step sends the request with its seven bytes exactly when one is due, the keep-alive exactly when one is due and the hang-up exactly when one is, each to the station in the monitor's own name, and nothing otherwise |
| `MonitorTalks.StopIsSaidOnce` | src/gvs_monitor.c:308-326 | however often it is stepped, a stop is said once, at the first step |
| `MonitorTalks.RequestsKeepTheirDistance` | src/gvs_monitor.c:238-273 | requests are at least a second apart |
| `MonitorTalks.KeepAlivesKeepTheirDistance` | src/gvs_monitor.c:286-307 | keep-alives are at least two seconds apart |
| `MonitorTalks.ConfirmationIsUnderstood` | src/gvs_monitor.c:380-406 | the confirmation of a request, its addresses turned round, is accepted whenever it comes while video is asked for |
| `MonitorTalks.OvertakenConfirmation` | src/gvs_monitor.c:374-406 | overtaken by the first picture it is accepted exactly until the request's second is over |
| `MonitorTalks.KeepAliveIsUnderstood` | src/gvs_monitor.c:459-473 | the answer to a keep-alive is accepted and the next follows two seconds later |
| `MonitorTalks.HangupIsUnderstood` | src/gvs_monitor.c:565-600 | the answer to a hang-up ends the stop or starts the next attempt |
| `MonitorTalks.StrangersAreIgnored` | src/gvs_monitor.c:354-374 | frames of anybody else change nothing |
| `MonitorTalks.FinalHangupAsksAgain` | src/gvs_monitor.c:474-549 | after a final hang-up a persistent monitor asks again four seconds later, in the next generation |
| `MonitorTalks.SoftHangupAsksAgain` | src/gvs_monitor.c:474-549 | after a soft one it does the same, and any other monitor asks again a second later |
| `MonitorTalks.RepeatedHangupsChangeNothing` | src/gvs_monitor.c:474-549 | repeats change no plan |
| `MonitorTalks.CrossedHangupsAreAnswered` | src/gvs_monitor.c:550-570 | a hang-up that meets ours ends the stop, or starts the next attempt four seconds later, and a soft one is answered |
| `MonitorTalks.BusyAnswersCount` | src/gvs_monitor.c:407-442 | a persistent monitor hangs up at the sixth busy answer, or before its first picture after twelve seconds of them |
| `MonitorTalks.FirstPictureIsDue` | src/gvs_monitor.c:274-285 | promised video that does not come by its time makes a persistent monitor hang up and any other give up, and not before |
| `MonitorTalks.SilenceEndsStop` | src/gvs_monitor.c:327-352 | a hang-up nobody answers is over after a second |
| `MonitorTalks.RequestsRunOut` | src/gvs_monitor.c:238-273 | a monitor that is not persistent asks twenty times and gives up |
| `MonitorTalks.PicturesAreAdmitted` | src/gvs_monitor.c:603-650 | which pictures are taken, confirmed or not, and that the stream is kept alive from the next step on |
| `MonitorTalks.StopsCoolDown` | src/gvs_monitor.c:677-698 | after a stop the station is left alone for four seconds, also by the next monitor |
| `MediaConfirmations.ConfirmedWasConfirmed` | src/media_session_manager.c:1999-2015 | on every run, when the unlock preparation reports a confirmation, a request (03/04) of the monitor's current generation really went out at some t, its confirmation (03/84) was accepted in [t, t + 1000 ms), and since then there was no stop, accepted hang-up, retry or take-over |
| `MediaConfirmations.TimelyAnswersAreReported` | src/media_session_manager.c:977-996 | the other way: before a picture has come, an answer to an open request is reported exactly when it comes before the request's second is over |
| `MediaConfirmations.AnswersAfterThePicture` | src/gvs_monitor.c:380-406 | after the first picture an answer still counts until the request's second is over, and is reported exactly when that picture was of this attempt and no earlier wait for it has run out; a later answer is refused and changes nothing |
| `MediaConfirmations.UnlockingIsConfirmed` | src/media_session_manager.c:1971-2020 | a concrete run ends in such a report |
| `MediaConfirmations.EveryRunIsHeeded` | src/media_session_manager.c:977-984 | on every run each preparing session's monitor and flag agree with what its log tells |
| `MediaConfirmations.StepHeeds` | src/media_session_manager.c:1668-1686 | every entry point keeps that agreement |
| `MediaConfirmations.ReceiveCarries` | src/gvs_monitor.c:365-601 | a frame keeps monitor, flag and trail in agreement, once the manager has dropped or set the flag as it does |
| `MediaConfirmations.HangupCarries` | src/gvs_monitor.c:474-549 | so do both kinds of hang-up, repeated ones included |
| `MediaConfirmations.CrossedCarries` | src/gvs_monitor.c:550-599 | so do hang-ups that cross ours |
| `MediaConfirmations.ConfirmationCarries` | src/gvs_monitor.c:380-406 | an open window always belongs to the last request of the current generation |
| `MediaConfirmations.StepCarries` | src/gvs_monitor.c:231-352 | so does a step of time |
| `MediaConfirmations.StopCarries` | src/gvs_monitor.c:677-698 | so does a stop |
| `MediaConfirmations.TickCarries` | src/media_session_manager.c:1523-1642 | a tick of a slot keeps the agreement, unsent frames included |
| `MediaConfirmations.ControlCarries` | src/media_session_manager.c:943-1048 | so does a control frame of its station |
| `MediaConfirmations.PictureCarries` | src/media_session_manager.c:1345-1425 | so does a picture |
| `MediaConfirmations.TrailIsInLog` | src/media_session_manager.c:2003-2008 | what the trail remembers stands in the log |
| `MediaTables.ValidateConfig` | src/media_module_config.c:7-43 | accepts exactly the configurations whose stations have distinct, non-empty identifiers of less than 33 bytes and non-empty stream names, with at least one enabled station for each encoder asked for if the module is enabled |
| `MediaTables.MediaManager.constructor` | src/media_session_manager.c:712-749 | as many empty slots as encoders asked for, at most one for each enabled station |
| `MediaTables.MediaManager.FindStation` | src/media_session_manager.c:361-371 | the first station of that name |
| `MediaTables.MediaManager.Find` | src/media_session_manager.c:373-408 | the first slot that fits the query |
| `MediaTables.MediaManager.FindOldestPreview` | src/media_session_manager.c:1053-1066 | the preview started first |
| `MediaTables.MediaManager.PlaceCall` | src/media_session_manager.c:1221-1229 | the free slot, the count and the last generation after a new call is prepared in place |
| `MediaTables.MediaManager.UpgradeHere` | src/media_session_manager.c:1175-1195 | the whole new state of upgrading the station's own session |
| `MediaTables.MediaManager.ReplaceOldest` | src/media_session_manager.c:1196-1220 | the whole new state of replacing the oldest preview |
| `MediaTables.MediaManager.TakeCall` | src/media_session_manager.c:1136-1230 | the incoming call, branch by branch |
| `MediaTables.MediaManager.StartCallFor` | src/media_session_manager.c:813-837 | starting a call: the running one, or an incoming call under the next generation |
| `MediaTables.MediaManager.StartPreviewFor` | src/media_session_manager.c:838-907 | starting or adopting a preview, or an unlock preparation |
| `MediaTables.MediaManager.OperateOn` | src/media_session_manager.c:537-682 | an operation on a named session, or the refusal |
| `MediaTables.MediaManager.OperateAt` | src/media_session_manager.c:556-682 | checks, rollback, binding, marking and releases |
| `MediaTables.MediaManager.HandOverCall` | src/media_session_manager.c:684-710 | a confirmed preview is handed to an outgoing call |
| `MediaTables.MediaManager.ObeyCommand` | src/media_session_manager.c:1232-1301 | the stop and viewer commands |
| `MediaTables.MediaManager.OpenPreview` | src/media_session_manager.c:854-902 | a new preview whose monitor is started in place, or stays idle without a local address |
| `MediaTables.MediaManager.StopSession` | src/media_session_manager.c:1251-1290 | the monitor is stopped and hangs up, or the session is emptied |
| `MediaTables.MediaManager.TakeFrame` | src/media_session_manager.c:936-1048 | the slot's monitor receives the frame, and what it reports decides what becomes of the slot |
| `MediaTables.MediaManager.TakePicture` | src/media_session_manager.c:1345-1425 | the slot's monitor admits the picture before it is shown |
| `MediaTables.MediaManager.FinishPicture` | src/media_session_manager.c:1403-1420 | a failed slot is given up, a first picture is published |
| `MediaTables.MediaManager.ReceiveControl` | src/media_session_manager.c:924-1051 | the first session of the sender takes the frame |
| `MediaTables.MediaManager.PushJpeg` | src/media_session_manager.c:1327-1428 | the first session of the sender takes the picture |
| `MediaTables.MediaManager.StepMonitor` | src/media_session_manager.c:1524-1562 | the monitor's step, and what a frame that could not be sent undoes |
| `MediaTables.MediaManager.TickSlot` | src/media_session_manager.c:1502-1643 | one slot's tick, stage by stage, with the pending release first |
| `MediaTables.MediaManager.TickAll` | src/media_session_manager.c:1496-1645 | all slots in turn, and whether any of them failed |
| `Monitors.PreviewMonitor.Fail` | src/gvs_monitor.c:35-51 | the monitor gives up |
| `Monitors.PreviewMonitor.RequestRetry` | src/gvs_monitor.c:79-101 | hang up to ask again; refused unless persistent and active |
| `Monitors.PreviewMonitor.RestartAfterPeerStop` | src/gvs_monitor.c:103-129 | ask again under a new generation after a pause |
| `Monitors.PreviewMonitor.Start` | src/gvs_monitor.c:131-169 | a fresh request, keeping timeout, policy and cooldown |
| `Monitors.PreviewMonitor.BindCall` | src/gvs_monitor.c:205-229 | video expected without a request |
| `Monitors.PreviewMonitor.Request` | src/gvs_monitor.c:250-272 | the 03/04 and the one-second window it opens |
| `Monitors.PreviewMonitor.StepStopping` | src/gvs_monitor.c:309-350 | the hang-up, its timeout, and the new attempt after it |
| `Monitors.PreviewMonitor.Step` | src/gvs_monitor.c:231-352 | one step of time in the order of the code |
| `Monitors.PreviewMonitor.ReceiveConfirmation` | src/gvs_monitor.c:380-406 | the 03/84, also when the picture came first |
| `Monitors.PreviewMonitor.ReceiveBusy` | src/gvs_monitor.c:407-442 | busy answers, counted or timed until the attempt is rebuilt |
| `Monitors.PreviewMonitor.ReceiveHangup` | src/gvs_monitor.c:474-549 | both reasons of 03/02, with repeats ignored |
| `Monitors.PreviewMonitor.ReceiveCrossedHangup` | src/gvs_monitor.c:550-568 | a hang-up that meets ours |
| `Monitors.PreviewMonitor.ReceiveStopped` | src/gvs_monitor.c:569-599 | the 03/82 that ends a stop or starts the next attempt |
| `Monitors.PreviewMonitor.Receive` | src/gvs_monitor.c:365-601 | which frames are taken in which state |
| `Monitors.PreviewMonitor.AdmitJpeg` | src/gvs_monitor.c:603-650 | which pictures are taken in which state |
| `Monitors.PreviewMonitor.MarkPublishing` | src/gvs_monitor.c:652-662 | publishing starts with the first picture |
| `Monitors.PreviewMonitor.Stop` | src/gvs_monitor.c:677-698 | a stop and its cooldown |
| `AudioJitters.EveryEmissionIsTaken` | src/gvs_audio_jitter.c:54-100 | with the window emitting into the playout on one generation, on every run no emission is answered duplicate, late or stale, across the 16-bit wrap, the distance 32768 and failing callbacks included |
| `AudioJitters.StoreTakesRealPackets` | src/gvs_audio_buffer.c:39-77 | the two half-range rules fit: the store accepts whatever the window emits, with the one exception at 32768 exactly when a gap was announced |
| `AudioJitters.OnlyFaultsHoldPacketsBack` | src/gvs_audio_jitter.c:195-201 | no queued packet is refused for ever: a packet that has waited 40 ms goes with the next tick unless the callback itself fails |
| `AudioJitters.HeardInOrder` | src/gvs_audio_jitter.c:57-98 | on every run what is heard is the delivered packets in strictly rising unwrapped order with their own bytes, each gap bridged by exactly one silence of min(missing * last length, 320) samples, flagged discontinuous exactly when the product exceeds 320; an announced silence whose packet has not followed yet is the one for the gap before the closest packet queued |
| `AudioJitters.NothingLostOrDoubled` | src/gvs_audio_jitter.c:125-193 | each accepted packet was delivered once or is still queued |
| `AudioJitters.RunsStaySteady` | src/gvs_audio_jitter.c:125-201 | on every run queued numbers are distinct and within half the circle ahead, and window, playout and books agree |
| `AudioJitters.NeverDividesByZero` | src/gvs_audio_jitter.c:74-78 | when a gap is bridged the last length is positive |
| `AudioJitters.LimitIsTheProduct` | src/gvs_audio_jitter.c:74-78 | the division in the code decides whether the product exceeds the limit, and gives its minimum |
| `AudioJitters.HalfIsTooLong` | src/gvs_audio_jitter.c:74-78 | a gap of half the circle is always concealed with a discontinuity |
| `AudioJitters.NearestIsNearest` | src/gvs_audio_jitter.c:11-24 | the chosen slot is the one closest ahead |
| `AudioJitters.EarliestIsEarliest` | src/gvs_audio_jitter.c:26-35 | the gap deadline is counted from the oldest arrival |
| `AudioJitters.BeforeTheDeadlineIsQuiet` | src/gvs_audio_jitter.c:26-35 | before the deadline no packet has waited 40 ms |
| `AudioJitters.DrainKeeps` | src/gvs_audio_jitter.c:54-100 | draining keeps the invariant, loses nothing, and with enough passes leaves nothing overdue; a forced drain frees a slot |
| `AudioJitters.MakingRoom` | src/gvs_audio_jitter.c:166-184 | a forced drain of a full window frees a slot for a packet still ahead |
| `AudioJitters.AdmitKeeps` | src/gvs_audio_jitter.c:143-192 | a pushed packet is queued, delivered, or refused with the state it should leave |
| `AudioJitters.ClockKeeps` | src/gvs_audio_jitter.c:195-201 | after a successful tick no packet that arrived 40 ms ago or earlier is queued |
| `AudioJitters.OthersStay` | src/gvs_audio_jitter.c:89-98 | advancing past the nearest packet moves every other by the same distance |
| `AudioJitters.FirstPacketSetsTheLine` | src/gvs_audio_jitter.c:134-142 | the first packet binds generation and expected number |
| `AudioJitters.PositionsRise` | src/gvs_audio_jitter.c:57-98 | rising order holds between any two delivered packets |
| `AudioOrders.OrderIsRestored` | src/gvs_audio_jitter.c:125-193 | end to end: a stream that comes shuffled, with none half the circle ahead of a missing one, at most four waiting and none waiting 40 ms, is accepted whole, and at every moment exactly the packets up to the first one missing have been heard, each once, with its own bytes, in order and without any silence between |
| `AudioOrders.CalmDrain` | src/gvs_audio_jitter.c:54-100 | when nothing behind a gap is overdue a drain lets out exactly the unbroken row that starts at the expected packet |
| `AudioAdmissions.PushAnswers` | src/gvs_audio_jitter.c:125-193 | a push answers 1 exactly to a packet of a foreign or unbound generation, one that is queued, was delivered last, lies 32768 or more ahead or in the gap an announced silence stands for, and one that making room in a full window passes by; -1 to malformed input and a clock run back; 0 to all others, which are accepted at their place on the line; and a failure only when the callback failed |
| `AudioAdmissions.WorkingPushAnswers` | src/gvs_audio_jitter.c:125-193 | so with callbacks that work every well-formed packet in time is turned away or accepted, by that condition alone |
| `AudioAdmissions.DrainLets` | src/gvs_audio_jitter.c:54-100 | a drain that succeeds lets out exactly the packets that nothing holds back: those whose predecessors are there, those for whose gap silence has been announced or is forced, and those before one that has waited 40 ms; and the line then stands behind the last of them |
| `AudioAdmissions.PushSetsFree` | src/gvs_audio_jitter.c:143-193 | an accepted packet takes a free slot, or as the expected one goes straight out, and then exactly what it sets free leaves |
| `AudioJitterWindow.AudioJitter.constructor` | src/gvs_audio_jitter.c:102-111 | an empty window, bound to nothing |
| `AudioJitterWindow.AudioJitter.Reset` | src/gvs_audio_jitter.c:113-123 | everything but the callback is forgotten, and the generation is the given one |
| `AudioJitterWindow.AudioJitter.NearestSlot` | src/gvs_audio_jitter.c:11-24 | the loop finds the closest packet ahead |
| `AudioJitterWindow.AudioJitter.EarliestDeadline` | src/gvs_audio_jitter.c:26-35 | the loop finds the oldest arrival |
| `AudioJitterWindow.AudioJitter.EmitToPlayout` | src/gvs_audio_jitter.c:37-52 | the callback takes the emission or fails |
| `AudioJitterWindow.AudioJitter.StoreAndDrain` | src/gvs_audio_jitter.c:185-192 | the packet is seated and the window drained |
| `AudioJitterWindow.AudioJitter.ConcealedCount` | src/gvs_audio_jitter.c:160-163 | how many numbers the announced silence stands for |
| `AudioJitterWindow.AudioJitter.EmitSlot` | src/gvs_audio_jitter.c:89-97 | one packet is emitted and the window advances only if it was taken |
| `AudioJitterWindow.AudioJitter.EmitSilence` | src/gvs_audio_jitter.c:70-88 | one silence is emitted for a gap |
| `AudioJitterWindow.AudioJitter.FillGap` | src/gvs_audio_jitter.c:68-88 | the gap before the nearest packet |
| `AudioJitterWindow.AudioJitter.DrainOnce` | src/gvs_audio_jitter.c:54-100 | one pass of the drain |
| `AudioJitterWindow.AudioJitter.DrainWindow` | src/gvs_audio_jitter.c:54-100 | the whole drain |
| `AudioJitterWindow.AudioJitter.Tick` | src/gvs_audio_jitter.c:195-201 | a tick is a drain by time |
| `AudioJitterWindow.AudioJitter.ScanSlots` | src/gvs_audio_jitter.c:143-149 | repeats and a free slot are found |
| `AudioJitterWindow.AudioJitter.EmitDirectly` | src/gvs_audio_jitter.c:166-177 | the expected packet passes through |
| `AudioJitterWindow.AudioJitter.SeatPacket` | src/gvs_audio_jitter.c:166-192 | a packet ahead is queued |
| `AudioJitterWindow.AudioJitter.AdmitPacket` | src/gvs_audio_jitter.c:143-192 | the admission, branch by branch |
| `AudioJitterWindow.AudioJitter.NoteDuplicate` | src/gvs_audio_jitter.c:143-154 | repeats are counted |
| `AudioJitterWindow.AudioJitter.NoteLate` | src/gvs_audio_jitter.c:5-9 | late packets are counted |
| `AudioJitterWindow.AudioJitter.Push` | src/gvs_audio_jitter.c:125-193 | the whole push |
| `AudioPlayouts.EveryRunConserves` | src/gvs_audio_playout.c:32-119 | on every run nothing pushed is lost track of: published, dropped and pending samples add up, revisions chain and strictly rise, each chunk is the newest min(pending, 1600) samples of its span |
| `AudioPlayouts.PublishedDroppedPending` | src/gvs_audio_playout.c:67-119 | published plus dropped plus pending is exactly what was pushed |
| `AudioPlayouts.PublishedIsCommitted` | src/gvs_audio_playout.c:77-119 | a successful publish is always followed by a successful commit, up to the last sample and packet |
| `AudioPlayouts.CommitTakesOver` | src/gvs_audio_playout.c:67-119 | what one committed chunk contains, drops and refers to |
| `AudioPlayouts.AcceptanceAppends` | src/gvs_audio_playout.c:43-63 | an accepted emission appends exactly its payload |
| `AudioPlayouts.RefusalKeepsBooks` | src/gvs_audio_playout.c:32-65 | a refused emission changes no book |
| `AudioPlayouts.EmitConserves` | src/gvs_audio_playout.c:32-65 | each emission keeps the account |
| `AudioPlayouts.ServiceConserves` | src/gvs_audio_playout.c:67-119 | each tick keeps the account, however the publisher answers |
| `AudioServices.ChunksAreOffered` | src/gvs_audio_playout.c:67-119 | on every run the publisher is called exactly when a real packet waits, 800 samples wait or the first of them has waited 100 ms, and its last refusal lies 100 ms back |
| `AudioServices.OfferedWhenDue` | src/gvs_audio_playout.c:67-119 | and it is called with the newest 1600 at most of the samples not yet covered, the rest counted as dropped |
| `AudioPlayouts.AudioPlayout.constructor` | src/gvs_audio_playout.c:5-17 | an empty playout |
| `AudioPlayouts.AudioPlayout.Reset` | src/gvs_audio_playout.c:19-30 | the ring and the flags start over under the given generation |
| `AudioPlayouts.AudioPlayout.PushEmission` | src/gvs_audio_playout.c:32-65 | the push, branch by branch |
| `AudioPlayouts.AudioPlayout.OfferToBuffer` | src/gvs_audio_playout.c:45-55 | what is handed to the ring and with which exception |
| `AudioPlayouts.AudioPlayout.Service` | src/gvs_audio_playout.c:67-119 | the tick: chunk, publish, commit or retry |
| `AudioPlayouts.AudioPlayout.Publish` | src/gvs_audio_playout.c:96-118 | the published chunk and the commit |
| `AudioBuffers.AccountsBalanceOnEveryRun` | src/gvs_audio_buffer.c:39-104 | on every run the sample count is bytes plus concealed samples, and last minus first number is packets - 1 + missing, modulo 65536 |
| `AudioBuffers.StoredKeepsAccounts` | src/gvs_audio_buffer.c:55-77 | storing a packet keeps both accounts |
| `AudioBuffers.ResetsStartOver` | src/gvs_audio_buffer.c:11-22 | after a reset nothing is left; under no generation nothing is taken, under one the first packet not older |
| `AudioBuffers.PacketsAreJudged` | src/gvs_audio_buffer.c:39-77 | a packet is stored exactly when it is of this or a newer generation and ahead by less than half the circle, or at exactly half behind an announced silence; repeats, late and stale packets are told apart and change nothing that is heard |
| `AudioBuffers.SliceOfContents` | src/gvs_audio_buffer.c:106-147 | cells before the write offset are the newest samples of the whole history |
| `AudioBuffers.AdvancedHolds` | src/gvs_audio_buffer.c:24-37 | writing drops the oldest samples and keeps the ring a tail of the history |
| `AudioBuffers.TakingOldest` | src/gvs_audio_buffer.c:106-118 | reading takes the oldest samples kept |
| `AudioBuffers.WrapIsRemainder` | src/gvs_audio_buffer.c:24-37 | the wrapped offset is the remainder the code takes |
| `AudioBuffers.AudioBuffer.constructor` | src/gvs_audio_buffer.c:5-9 | an empty ring |
| `AudioBuffers.AudioBuffer.Reset` | src/gvs_audio_buffer.c:11-15 | an empty ring for a generation |
| `AudioBuffers.AudioBuffer.AppendSamples` | src/gvs_audio_buffer.c:24-37 | the ring holds the newest samples of old and new |
| `AudioBuffers.AudioBuffer.BindGeneration` | src/gvs_audio_buffer.c:17-22 | the first packet may bind the generation |
| `AudioBuffers.AudioBuffer.PushInternal` | src/gvs_audio_buffer.c:39-77 | answers and new state of a push, the jitter exception included |
| `AudioBuffers.AudioBuffer.Store` | src/gvs_audio_buffer.c:55-77 | counters and contents after a stored packet |
| `AudioBuffers.AudioBuffer.PushGapSilence` | src/gvs_audio_buffer.c:92-104 | silence counts as concealed samples |
| `AudioBuffers.AudioBuffer.Read` | src/gvs_audio_buffer.c:106-118 | returns and removes the oldest samples of the history |
| `AudioBuffers.AudioBuffer.Copy` | src/gvs_audio_buffer.c:120-129 | returns the oldest samples kept and changes nothing |
| `AudioBuffers.AudioBuffer.CopyPending` | src/gvs_audio_buffer.c:131-157 | returns the exact slice pending since the snapshot, from its start or its end |
| `AudioBuffers.AudioBuffer.CopyBack` | src/gvs_audio_buffer.c:131-147 | the slice a number of samples back |
| `AudioBuffers.AudioBuffer.MarkSnapshot` | src/gvs_audio_buffer.c:159-178 | the snapshot moves only to a revision reached |
| `G711Alaw.ErrorBound` | src/g711_alaw.c:5-32 | 32 * |error| <= max(256, |x|) for every sample (section 3 of ITU-T G.711) |
| `G711Alaw.BufferErrorBound` | src/g711_alaw.c:34-47 | the same at every position of a buffer of any length |
| `G711Alaw.EncodeOfDecode` | src/g711_alaw.c:5-32 | every code byte survives decode and encode |
| `G711Alaw.BufferCodesSurvive` | src/g711_alaw.c:34-47 | so does every buffer of codes |
| `G711Alaw.SegmentSpans` | src/g711_alaw.c:22-28 | the segment search stays in its table and finds the segment of the magnitude |
| `G711Alaw.EncodeIsMasked` | src/g711_alaw.c:6-32 | the code is segment, step and sign under the 0x55 mask |
| `G711Alaw.DecodeOfEncode` | src/g711_alaw.c:5-32 | decoding gives the middle of the step, with the sign |
| `G711Alaw.LevelRefolds` | src/g711_alaw.c:5-32 | levels of different codes never meet |
| `G711Alaw.EncodeSample` | src/g711_alaw.c:6-32 | the search loop computes the code |
| `G711Alaw.EncodeBuffer` | src/g711_alaw.c:34-46 | every sample of the buffer is encoded, in place order |
| `G711Alaw.DecodeBuffer` | src/g711_alaw.c:47-47 | every code of the buffer is decoded, in place order |
| `VideoReassembly.FrameArrives` | src/gvs_video_reassembly.c:121-182 | the chunks of a frame, in any order and with repeats, with malformed, earlier and other-shaped packets between them and failing allocations, answer duplicate, incomplete, or on the last missing one complete with exactly the frame; the packets between are refused |
| `VideoReassembly.CompletesOnce` | src/gvs_video_reassembly.c:121-182 | whatever comes between, the frame completes exactly once, and exactly when every chunk has got in |
| `VideoReassembly.RefusalsAreNamed` | src/gvs_video_reassembly.c:121-182 | what does not belong to the open frame is refused by its name and changes nothing: an earlier frame, another shape, other bytes, no memory; a later frame takes over |
| `VideoReassembly.GuardsAreUnreachable` | src/gvs_video_reassembly.c:86-175 | no run of packets reaches the errors for an offset beyond the frame or a length that does not add up |
| `VideoReassembly.PlacementIsExact` | src/gvs_video_reassembly.c:68-95 | a packet is placed exactly when its payload is the size of the chunk it names |
| `VideoReassembly.CeilingIsCount` | src/gvs_video_reassembly.c:68-95 | the rounded-up division is the chunk count of the frame |
| `VideoReassembly.PushKeeps` | src/gvs_video_reassembly.c:121-182 | bitmap, count and byte total stay in agreement, and a refused, late or repeated packet changes nothing |
| `VideoReassembly.HeldWasDelivered` | src/gvs_video_reassembly.c:168-171 | every chunk held was the payload of a packet of this frame |
| `VideoReassembly.CompletedWasDelivered` | src/gvs_video_reassembly.c:172-181 | a completed frame consists of payloads delivered for it, each in its place |
| `VideoReassembly.MarksRise` | src/gvs_video_reassembly.c:68-95 | chunk boundaries rise to the end of the frame |
| `VideoReassembly.Reassembly.constructor` | src/gvs_video_reassembly.c:51-56 | nothing held |
| `VideoReassembly.Reassembly.Reset` | src/gvs_video_reassembly.c:58-66 | nothing held |
| `VideoReassembly.Reassembly.StartFrame` | src/gvs_video_reassembly.c:97-119 | a frame is opened, or no memory was found |
| `VideoReassembly.Reassembly.PlaceChunk` | src/gvs_video_reassembly.c:158-181 | a chunk of the frame at hand |
| `VideoReassembly.Reassembly.Seen` | src/gvs_video_reassembly.c:158-166 | the bitmap says whether a chunk was placed |
| `VideoReassembly.Reassembly.StoreChunk` | src/gvs_video_reassembly.c:168-169 | the chunk's bytes go to their place and no other |
| `VideoReassembly.Reassembly.CountChunk` | src/gvs_video_reassembly.c:170-181 | count, total and the completed frame |
| `VideoReassembly.Reassembly.Push` | src/gvs_video_reassembly.c:121-182 | the push, branch by branch |
| `VideoReassembly.SetBit` | src/gvs_video_reassembly.c:159-169 | sets the bit in place and no other |
| `VideoReassembly.SettingBit` | src/gvs_video_reassembly.c:159-169 | or-ing a bit's mask into its byte sets exactly that bit, whatever its byte and neighbours |
| `ReplyQueues.EveryRunBalances` | src/gvs_reply_queue.c:6-132 | on every run keys stay unique, nothing outlives its time, and every accepted request is waiting, was handed out, or ran out of time |
| `ReplyQueues.EnqueueIsUpdate` | src/gvs_reply_queue.c:42-84 | as a map: the own key gets a full time to live and one more repeat, the others only expire; refused exactly when sixteen others are live |
| `ReplyQueues.OperationsAreAnswered` | src/gvs_reply_queue.c:42-132 | no operation is refused but for its clock or a full queue; expiring forgets exactly what is not live, and counts it |
| `ReplyQueues.TakeIsOldest` | src/gvs_reply_queue.c:105-132 | replies leave in the order of their first request, never stale |
| `ReplyQueues.LiveIsFilter` | src/gvs_reply_queue.c:6-30 | compaction keeps exactly the entries whose time is not over |
| `ReplyQueues.LiveKeepsOrder` | src/gvs_reply_queue.c:6-30 | and keeps their order |
| `ReplyQueues.ApplyKeeps` | src/gvs_reply_queue.c:42-132 | every operation keeps the queue sound |
| `ReplyQueues.ReplyQueue.constructor` | src/gvs_reply_queue.c:32-40 | an empty queue |
| `ReplyQueues.ReplyQueue.Prune` | src/gvs_reply_queue.c:6-30 | the compaction loop computes the filter |
| `ReplyQueues.ReplyQueue.Enqueue` | src/gvs_reply_queue.c:42-84 | the enqueue, branch by branch |
| `ReplyQueues.ReplyQueue.Search` | src/gvs_reply_queue.c:42-84 | the waiting request with the same key |
| `ReplyQueues.ReplyQueue.Put` | src/gvs_reply_queue.c:42-84 | a repeat refreshes its entry |
| `ReplyQueues.ReplyQueue.Append` | src/gvs_reply_queue.c:42-84 | a new request goes to the end |
| `ReplyQueues.ReplyQueue.RemoveFirst` | src/gvs_reply_queue.c:105-132 | the others move up by one |
| `ReplyQueues.ReplyQueue.Expire` | src/gvs_reply_queue.c:86-103 | expired entries go |
| `ReplyQueues.ReplyQueue.Take` | src/gvs_reply_queue.c:105-132 | the oldest live entry leaves |
| `SendTransactions.AttemptsOnEveryRun` | src/gvs_send_transaction.c:22-213 | on every run no message is attempted a fourth time, completion ids strictly rise and each message has one outcome at most |
| `SendTransactions.EveryRunIsTold` | src/gvs_send_transaction.c:22-213 | on every run the events tell the life of one message after another, and a trace never holds more than two |
| `SendTransactions.OutcomeIsFinal` | src/gvs_send_transaction.c:22-62 | nothing more is heard of a message after its outcome; a retry follows its own failure |
| `SendTransactions.IdsRise` | src/gvs_send_transaction.c:78-103 | completion ids are never reused |
| `SendTransactions.StaleReportIsIgnored` | src/gvs_send_transaction.c:187-213 | a report for another or no attempt changes nothing |
| `SendTransactions.TakenIsTried` | src/gvs_send_transaction.c:117-185 | a reply leaves the queue only by expiring or by being attempted |
| `SendTransactions.TurnsAreTaken` | src/gvs_send_transaction.c:117-185 | when its turn comes the oldest live reply, or the one in hand, is attempted, and the callback's answer decides: success ends it, a failure makes it wait 100 ms or, the third time, ends it as failed |
| `SendTransactions.ReportsDecide` | src/gvs_send_transaction.c:187-213 | so does a report on the attempt that is out, if it comes within the 250 ms |
| `SendTransactions.SilenceDecides` | src/gvs_send_transaction.c:117-185 | with no report the attempt fails when its 250 ms are over, and not before |
| `SendTransactions.StepReads` | src/gvs_send_transaction.c:117-185 | each step adds a legal piece of that story |
| `SendTransactions.CompleteReads` | src/gvs_send_transaction.c:187-213 | so does each completion |
| `SendTransactions.SendTransaction.constructor` | src/gvs_send_transaction.c:105-115 | nothing being sent |
| `SendTransactions.SendTransaction.Finish` | src/gvs_send_transaction.c:22-30 | the outcome is noted |
| `SendTransactions.SendTransaction.FailedAttempt` | src/gvs_send_transaction.c:32-62 | retry, or give up after three attempts |
| `SendTransactions.SendTransaction.ApplyResult` | src/gvs_send_transaction.c:64-76 | success, failure or waiting |
| `SendTransactions.SendTransaction.StartAttempt` | src/gvs_send_transaction.c:78-103 | a new id and a new deadline |
| `SendTransactions.SendTransaction.Step` | src/gvs_send_transaction.c:117-185 | the step on copies, then the commit |
| `SendTransactions.SendTransaction.Complete` | src/gvs_send_transaction.c:187-213 | a report from outside |
| `SendTransactions.Trace.Add` | src/gvs_send_transaction.c:10-20 | appends one event where there is room, as every caller has |
| `CallRuns.EndsAreRecorded` | src/gvs_call_control.c:233-433 | on every run a session that is ended or taken over gets its terminal record in the same input, except exactly when an incoming call overtakes an overdue hang-up |
| `CallRuns.AnEndWithoutRecord` | src/gvs_call_runtime.c:84-126 | a concrete run in which that exception loses the record |
| `CallRuns.StepFirstIsEnough` | src/gvs_call_control.c:233-378 | after a step at the same time there is no such exception |
| `CallRuns.ReceptionRecords` | src/gvs_call_control.c:380-433 | the same for one reception, both ways |
| `CallRuns.StepEffect` | src/gvs_call_control.c:233-378 | a step ends the session on record, notes our pick-up, or leaves it |
| `CallRuns.FirstReasonStays` | src/gvs_call_control.c:17-31 | the first reason recorded for a session is never overwritten |
| `CallRuns.TalkingWasAnswered` | src/gvs_session.c:123-164 | on every run from idle a session talks only on the peer's answer to a pick-up we sent to the same peer in the same generation less than 3000 ms before |
| `CallRuns.AwaitedWasSent` | src/gvs_call_control.c:342-368 | an awaited answer belongs to a pick-up that was sent |
| `CallRuns.RepeatsDoNotExtend` | src/gvs_receive.c:63-82 | repeated pick-ups never move the window, preemption voids it |
| `CallRuns.OverdueCallsEnd` | src/gvs_deadline.c:23-49 | whatever rings or talks, and nothing else, has an armed deadline of its generation of at most 30 s or 120 s, and ends at any step that late in time, that is, with no clock run back |
| `CallRuns.AtMostTwoPreemptions` | src/gvs_priority.c:4-35 | one ringing spell is preempted twice at most, each time by a higher rank |
| `CallRuns.RingingTakeover` | src/gvs_session.c:6-34 | ringing turns into other ringing only by preemption or by that exception |
| `CallRuns.SilentPeersAreDropped` | src/gvs_handshake.c:73-127 | five unanswered keep-alives end the session at any due step in time, recorded as a heartbeat timeout; never more than five go unanswered |
| `CallRuns.RunCounts` | src/gvs_handshake.c:73-180 | on every run the counter is the number of keep-alives sent since the peer was last heard |
| `CallRuns.RunsAreSound` | src/gvs_call_control.c:233-433 | on every run what rings or talks, and nothing else, has its own armed deadline of at most 30 s or 120 s, and the record is of a session already issued, of the current one only if that has ended |
| `CallRuns.StepsAreRefused` | src/gvs_call_control.c:251-273 | on every run of the prepared commands a step is refused exactly when a clock ran back, or when a session that is still alive after the timers has no keep-alives and lacks its peer's or our address to start them |
| `CallRuns.CallersWithoutAddressBlock` | src/gvs_call_control.c:264-273 | a concrete run: a caller without an address rings, and every step before its deadline is refused and changes nothing |
| `CallRuns.StepIsRefused` | src/gvs_handshake.c:48-71 | the same for any state that keeps deadline, record and commands in order |
| `CallRuns.RunsAreOrderly` | src/gvs_call_control.c:233-433 | on every such run the command under way is a prepared one, at most that one waits for an answer, and the deadline did not start ahead of the clock |
| `CallEnds.EveryEndHasItsReason` | src/gvs_call_control.c:233-522 | on every run an active session is over after an input exactly if the input was taken and the peer hung up, our hang-up was seen, confirmed, left unanswered for its second or lost, the deadline came, the peer said that no time is left, five keep-alives went unanswered, or somebody of higher rank called; and the record names that reason and what had gone wrong, unless an incoming call overtook our overdue hang-up |
| `CallEnds.PeersCanHangUp` | src/gvs_receive.c:15-37 | on every run the peer's hang-up received in time ends the session and its deadline, recorded as the peer's |
| `CallEnds.FramesEndCalls` | src/gvs_call_runtime.c:70-133 | the same for one frame |
| `CallEnds.StepsEndCalls` | src/gvs_call_control.c:233-378 | the same for one step |
| `CallEnds.KeepAlivesEndNothing` | src/gvs_call_control.c:380-440 | frames about keep-alives never end a session |
| `CallEnds.GivingUpIsFinal` | src/gvs_call_dispatch.c:110-144 | exactly when a step makes the slot give its command up, as failed or as out of time |
| `CallBegins.CallsRing` | src/gvs_observer.c:8-41 | on every run, with nobody on the line, an incoming call for this room rings under the next generation for 30 s |
| `CallBegins.OnlyCallsRing` | src/gvs_call_control.c:380-440 | and nothing else brings a session to life but a call or a preview set up here |
| `CallBegins.AnswersStartTalks` | src/gvs_receive.c:63-82 | on every run the peer's answer starts the talk, for 120 s, exactly within the three seconds of our pick-up and when it is the one waited for |
| `CallBegins.SyncsRearm` | src/gvs_receive.c:39-61 | a time sync of the peer's within its limit sets the time left; zero ends the call |
| `CallBegins.RanksOfCallers` | src/gvs_priority.c:4-36 | who outranks whom, by kind of address |
| `CallTalks.ProbesAreSent` | src/gvs_handshake.c:73-127 | on every run a step that finds a keep-alive due sends it to the peer at once, and the next is due two seconds later |
| `CallTalks.KeepAlivesBegin` | src/gvs_call_control.c:264-273 | a live session without keep-alives gets its first at the next step |
| `CallTalks.ProbesAreAnswered` | src/gvs_handshake.c:129-180 | the peer's keep-alive starts the two seconds anew and gets its answer ready, addressed back to it, or counted as dropped while another is being sent; the answer to ours clears the count |
| `CallTalks.DeliveriesAreNoted` | src/gvs_call_control.c:295-378 | a command delivered is waited for from then on for a second, and a pick-up opens its three seconds |
| `CallTalks.SubmissionsAreTaken` | src/gvs_call_control.c:167-232 | a command is submitted exactly when none waits or is under way and it was prepared |
| `CallTalks.PickUpIsUnderstood` | src/gvs_call_ack.c:47-63 | our pick-up carries both ports and the duration, and the peer's answer that repeats them is both the one waited for and the one that starts the talk |
| `CallTalks.HangupIsUnderstood` | src/gvs_call_command.c:87-104 | our hang-up ends the session of the station that talks to us, and its answer is the one waited for |
| `Receiving.ReceptionKeepsGuard` | src/gvs_receive.c:116-146 | after a reception a ringing or talking session, and no other, has its armed deadline |
| `Receiving.DeadlineEndsTheCall` | src/gvs_deadline.c:23-49 | a tick past the deadline ends the call |
| `Receiving.OnlyTransitionsRearm` | src/gvs_receive.c:39-114 | repeated calls and pick-ups never re-arm the deadline |
| `CallReports.StepsReport` | src/gvs_call_control.c:233-378 | on every run a step's report says what time did to the session and to the wait for our command, whether a keep-alive went out or found its slot taken, and what became of the command under way |
| `CallReports.ReceptionsReport` | src/gvs_call_control.c:420-435 | on every run the report of a reception says whether it answers the command that waits, whether that wait is over or in vain, and, with the exact frames for each, what it did to the session and which transitions it noted |
| `CallReports.BeatsReport` | src/gvs_call_control.c:407-419 | on every run a keep-alive that is taken is reported as what it is, and a probe is answered unless the slot for keep-alives is taken, which is reported and counted |
| `CallReports.ReceptionsAreRefused` | src/gvs_call_control.c:394-435 | on every run a datagram is refused exactly if it is no frame, a clock has run back, a keep-alive is not the peer's, or a call finds the line taken by somebody it does not outrank |
| `Receiving.PreemptionsClimb` | src/gvs_receive.c:84-114 | each preemption brings a strictly higher rank of three |
| `Receiving.ObserveBatch` | src/gvs_observer.c:8-41 | observation and session after a datagram |
| `Receiving.ReceiveHangup` | src/gvs_receive.c:15-37 | a hang-up |
| `Receiving.ReceiveTimeSync` | src/gvs_receive.c:39-61 | the peer's time sync re-arms a ringing or talking session with the peer's time, and ends it at once when that is zero |
| `Receiving.ReceivePick` | src/gvs_receive.c:63-82 | our own pick-up seen on the wire, and its answer |
| `Receiving.ReceiveCall` | src/gvs_receive.c:84-114 | an incoming call: new, repeated, busy or preempting |
| `Receiving.Receive` | src/gvs_receive.c:116-146 | which handler takes the frame, and the deadline after its transition |
| `Sessions.CallSession.Preempt` | src/gvs_session.c:6-34 | a higher rank takes over a ringing session |
| `Sessions.CallSession.Start` | src/gvs_session.c:46-56 | a session starts from outside |
| `Sessions.CallSession.Apply` | src/gvs_session.c:58-104 | one transition event |
| `Sessions.CallSession.Abort` | src/gvs_session.c:106-121 | a session ends from outside |
| `Sessions.CallSession.ObservePick` | src/gvs_session.c:123-164 | the pick-up window opens, closes or answers |
| `Sessions.CallDeadline.Arm` | src/gvs_deadline.c:9-21 | ringing and talking get their deadline |
| `Sessions.CallDeadline.Tick` | src/gvs_deadline.c:23-49 | the deadline ends its own session only |
| `Sessions.CallDeadline.Cancel` | src/gvs_deadline.c:72-76 | the deadline is off |
| `Sessions.DeadlinesAreTheirOwn` | src/gvs_deadline.c:23-49 | a tick ends the session exactly when the deadline is its own and its time is over, and drops any other deadline |
| `Sessions.EventsApply` | src/gvs_session.c:58-95 | for each of the five events, exactly which sessions take it and what it makes of them |
| `Sessions.RemainingIsExact` | src/gvs_deadline.c:51-70 | what remains runs out exactly when a tick would end the session |
| `CallDispatching.AttemptsOnEveryRun` | src/gvs_call_dispatch.c:110-159 | on every run an attempt is one of three, made while its command belongs to the session, its id above all earlier ones, and an outcome is final |
| `CallDispatching.EveryRunIsTold` | src/gvs_call_dispatch.c:39-159 | on every run the notes tell the life of one command after another |
| `CallDispatching.AcceptableIsPrepared` | src/gvs_call_command.c:38-146 | a command is taken exactly when one of the prepare functions made it or it is a well-formed keep-alive |
| `CallDispatching.StepsDecide` | src/gvs_call_dispatch.c:110-144 | a step cancels a command that no longer fits the session, fails an attempt after 250 ms, takes a turn that has come, and lets the callback's answer decide: sent, again 100 ms later, or failed the third time |
| `CallDispatching.ReportsDecide` | src/gvs_call_dispatch.c:146-159 | so does a report on the attempt that is out |
| `CallDispatching.CommandsAreTaken` | src/gvs_call_dispatch.c:65-108 | the slot takes an acceptable command exactly when it has none under way |
| `CallDispatching.CallDispatch.Finish` | src/gvs_call_dispatch.c:39-44 | the outcome |
| `CallDispatching.CallDispatch.FailedAttempt` | src/gvs_call_dispatch.c:46-56 | retry or give up |
| `CallDispatching.CallDispatch.Enqueue` | src/gvs_call_dispatch.c:65-108 | what the slot takes |
| `CallDispatching.CallDispatch.Step` | src/gvs_call_dispatch.c:110-144 | attempt, retry, time out or cancel |
| `CallDispatching.CallDispatch.Complete` | src/gvs_call_dispatch.c:146-159 | a report from outside |
| `CallAcks.AnswerInTime` | src/gvs_call_ack.c:73-135 | a delivered command is confirmed by a matching answer exactly before its deadline, and expires exactly from then on |
| `CallAcks.TimeEndsWaits` | src/gvs_call_ack.c:116-135 | time ends a wait with its session or at its deadline, and leaves anything else alone |
| `CallAcks.CallAck.Begin` | src/gvs_call_ack.c:73-97 | the wait for a delivered command |
| `CallAcks.CallAck.Observe` | src/gvs_call_ack.c:99-114 | a matching answer |
| `CallAcks.CallAck.Tick` | src/gvs_call_ack.c:116-135 | expiry, or the end of the wait with its session |
| `Handshakes.KeepAlive.Stop` | src/gvs_handshake.c:31-35 | keep-alives stop |
| `Handshakes.KeepAlive.Start` | src/gvs_handshake.c:48-71 | keep-alives start for an active session |
| `Handshakes.KeepAlive.Tick` | src/gvs_handshake.c:73-127 | the next probe, or the abort after five |
| `Handshakes.KeepAlive.Receive` | src/gvs_handshake.c:129-180 | a probe is answered, an answer clears the count |
| `CallRuntimes.EndByHangup` | src/gvs_call_runtime.c:93-101 | a confirmed or expired hang-up ends the session and its deadline |
| `CallRuntimes.Tick` | src/gvs_call_runtime.c:31-68 | the deadline first, then the acknowledgement, both or neither |
| `CallRuntimes.ReceiveFrame` | src/gvs_call_runtime.c:70-133 | one received frame |
| `CallRuntimes.ReceiveAnswer` | src/gvs_call_runtime.c:102-121 | the awaited answer |
| `CallRuntimes.PassOn` | src/gvs_call_runtime.c:119-132 | everything else goes to the receiver |
| `CallControls.CallControl.constructor` | src/gvs_call_control.c:117-135 | nothing going on |
| `CallControls.CallControl.RecordTerminal` | src/gvs_call_control.c:17-31 | a record is written once for a generation |
| `CallControls.CallControl.ClassifyTransition` | src/gvs_call_control.c:33-104 | which end goes on record |
| `CallControls.CallControl.Submit` | src/gvs_call_control.c:167-188 | what the control takes |
| `CallControls.CallControl.SubmitAnswer` | src/gvs_call_control.c:190-203 | a pick-up of a ringing call |
| `CallControls.CallControl.SubmitCall` | src/gvs_call_control.c:205-218 | a pick-up of a preview |
| `CallControls.CallControl.SubmitHangup` | src/gvs_call_control.c:220-231 | a hang-up |
| `CallControls.CallControl.RunTimers` | src/gvs_call_control.c:248-263 | keep-alive, deadline and acknowledgement |
| `CallControls.CallControl.Revive` | src/gvs_call_control.c:264-273 | an active session without keep-alives starts them |
| `CallControls.CallControl.ServeKeepAlive` | src/gvs_call_control.c:274-296 | the keep-alive slot |
| `CallControls.CallControl.OfferAction` | src/gvs_call_control.c:284-296 | a new probe or answer |
| `CallControls.CallControl.ServeCall` | src/gvs_call_control.c:297-368 | the call command |
| `CallControls.CallControl.ReportUndelivered` | src/gvs_call_control.c:304-341 | a command that was not delivered |
| `CallControls.CallControl.BeginConfirmation` | src/gvs_call_control.c:342-368 | a delivered command awaits its answer |
| `CallControls.CallControl.Step` | src/gvs_call_control.c:233-378 | the step on copies, then the commit |
| `CallControls.CallControl.Receive` | src/gvs_call_control.c:380-433 | the reception on copies, then the commit |
| `CallControls.CallControl.ReceiveHand` | src/gvs_call_control.c:407-418 | a keep-alive frame |
| `CallControls.CallControl.ReceiveCall` | src/gvs_call_control.c:419-432 | a call frame |
| `Presences.SplitInvariance` | src/gvs_presence.c:164-189 | if nothing is refused, tick(t1) then tick(t2) gives the same state and the same actions as tick(t2) alone |
| `Presences.CatchUpSplits` | src/gvs_presence.c:48-132 | catching up in two stages is catching up at once, also after a refusal |
| `Presences.FailuresOnlyDelay` | src/gvs_presence.c:164-189 | however many ticks failed before, the first that succeeds, with whatever callback, leaves the state an undisturbed one would have left |
| `Presences.ProbesAreAnswered` | src/gvs_presence.c:215-279 | of two peers that know each other, a probe is answered and both end up marked as heard from: what one side prepares the other takes, and nothing else changes |
| `Presences.StrangersAreAnswered` | src/gvs_presence.c:258-279 | a stranger's probe is answered but the stranger becomes no peer |
| `Presences.AnswersOnlyResign` | src/gvs_presence.c:289-324 | a sync answer never makes anyone the maintainer, leaves peers and their timer alone, moves the phase only from asking to periodic, and changes nothing when refused |
| `Presences.ChoosersSettle` | src/gvs_presence.c:289-324 | of two choosers that hear each other's version the lower number never resigns, and the higher one resigns exactly when the other's version is not older |
| `Presences.PresenceStation.ReceivePeer` | src/gvs_presence.c:215-236 | a probe's answer marks its sender online |
| `Presences.PresenceStation.ReceivePeerRequest` | src/gvs_presence.c:238-279 | a probe, the answer prepared for it and the callback's refusal |
| `Presences.PresenceStation.ReceiveSync` | src/gvs_presence.c:289-324 | a sync answer, in each phase |
| `Presences.TimersDoNotDrift` | src/gvs_presence.c:48-132 | after a tick neither timer is late nor too far ahead, and the peers' timer moved by whole seconds |
| `PresenceTalks.StartedStationsTalk` | src/gvs_presence.c:77-189 | a station left alone, ticked whenever it likes, asks at 3, 3.5 and 4 s after its start, asks for versions at 4.5, 5.5 and 6.5 s, keeps the settings from 7.5 s on and spreads them every minute, and says at their seconds what its silent peers call for: exactly these actions in this order |
| `PresenceTalks.PeriodicStationsTalk` | src/gvs_presence.c:117-132 | in the periodic phase the one who keeps the settings spreads them every minute, anybody else from the second silent minute on, being the one who keeps them then |
| `PresenceTalks.PeersAreWatched` | src/gvs_presence.c:48-75 | in any phase exactly what the peers' seconds call for is said of them: a probe at each 30 s left, offline when none is left, and again every minute |
| `PresenceTalks.HeardPeersAreWatched` | src/gvs_presence.c:191-213 | a peer just heard is probed once after 30 s and given up after 60 |
| `Presences.IndoorStationsAreNumbered` | src/gvs_identity.c:118-151 | exactly the indoor stations whose bytes spell, in decimal, a building, floor, room and machine in range have peers |
| `PresenceTalks.PeersAreTheRoom` | src/gvs_identity.c:118-151 | the peers are the other three machines of its kind in the room and two of kind 62 |
| `PresenceTalks.AnswersEndTheAsking` | src/gvs_presence.c:304-312 | an answered question ends the asking: the settings are awaited for a minute |
| `PresenceTalks.LateAnswersChangeNothing` | src/gvs_presence.c:304-323 | in any other phase the answer changes nothing |
| `PresenceTalks.HeardDataPutsOff` | src/gvs_presence.c:326-374 | periodic data heard puts off one's own for a minute; single settings bring their version |
| `Presences.TwoMaintainersSettle` | src/gvs_presence.c:326-374 | of two maintainers who hear each other exactly one remains, and both end at the newer version |
| `Presences.DataIsAppliedOrAnswered` | src/gvs_presence.c:326-374 | accepted data is applied or answered, never both |
| `Presences.PresenceStation.Start` | src/gvs_presence.c:134-156 | peers and timers at the start |
| `Presences.PresenceStation.Stop` | src/gvs_presence.c:158-162 | nothing runs |
| `Presences.PresenceStation.EmitIndoor` | src/gvs_presence.c:33-46 | an action to each indoor station |
| `Presences.PresenceStation.PeerSecond` | src/gvs_presence.c:48-75 | one second of the peers |
| `Presences.PresenceStation.PeerTick` | src/gvs_presence.c:48-75 | the peers' timer |
| `Presences.PresenceStation.PhaseTick` | src/gvs_presence.c:77-132 | the phase timer |
| `Presences.PresenceStation.RunPass` | src/gvs_presence.c:164-189 | one pass of the loop |
| `Presences.PresenceStation.Tick` | src/gvs_presence.c:164-189 | the loop, its actions and its end |
| `Presences.PresenceStation.ObservePeer` | src/gvs_presence.c:191-213 | a peer was heard |
| `Presences.PresenceStation.ObserveSyncData` | src/gvs_presence.c:326-374 | version and maintainer after data |
| `Syncs.PeriodicRoundTrip` | src/gvs_sync.c:411-436 | every chunk that can be sent is read by the target as exactly its entries, type and version; it can be sent exactly when it is 7-bit and fits |
| `Syncs.NormalRoundTrip` | src/gvs_sync.c:438-454 | the same for a single entry |
| `Syncs.JsonRoundTrip` | src/gvs_sync.c:62-104 | what was printed reads back as the same type and entries (strings as in section 7 of RFC 8259) |
| `Syncs.FrameRoundTrip` | src/gvs_sync.c:136-162 | the same through frame and JSON together |
| `Syncs.StringBack` | src/gvs_sync.c:35-60 | every 7-bit string comes back from its escapes |
| `Syncs.EntriesBack` | src/gvs_sync.c:286-345 | every list of entries comes back |
| `Syncs.ChunksAreTheStore` | src/gvs_sync.c:403-436 | the chunks in order are the whole store |
| `Syncs.FramesCopyTheStore` | src/gvs_sync.c:456-520 | a station that receives the frames of all chunks of a store in order, with nothing between, and yields to the first, takes them all over: it agrees with the sender on every key both know, keeps everything else and answers nothing |
| `Syncs.ChunksAreTakenOver` | src/gvs_presence.c:326-374 | having yielded to one chunk it takes over the following ones of that version, up to any point of the way |
| `Syncs.YieldingTakesOver` | src/gvs_presence.c:326-374 | data is taken over without an answer exactly when the station is in its periodic phase and in the same room, its own version is not newer, and it is not the maintainer of that very version with a number no higher than the sender's |
| `Syncs.ChunksCopyTheStore` | src/gvs_sync.c:456-520 | a station that applies all chunks agrees on every key both know and keeps the rest |
| `Syncs.AppliedIsUpdate` | src/gvs_sync.c:456-520 | a known key takes the received value, every other keeps its own |
| `Syncs.SentIsApplied` | src/gvs_sync.c:456-520 | a chunk sent by a station of the room is applied as it is when data is taken over at all |
| `Syncs.StoreStaysOk` | src/gvs_sync.c:353-401 | registering and updating keep the store sound |
| `Syncs.UpdatesAreTaken` | src/gvs_sync.c:377-401 | a local change is taken exactly when its key is known and its value fits; then it has the new value, all others keep theirs, and the version goes on, from 60000 back to one |
| `Syncs.RegistrationsAreTaken` | src/gvs_sync.c:353-375 | a new key is taken exactly when it fits and there is room; a known one keeps its value |
| `SyncJson.JsonWriter.Write` | src/gvs_sync.c:20-33 | bytes are appended or the writer fails for good |
| `SyncJson.JsonWriter.WriteString` | src/gvs_sync.c:35-60 | the quoted string, or failure on a byte above 7 bits |
| `SyncJson.WriteJson` | src/gvs_sync.c:62-104 | the whole text, or nothing |
| `SyncJson.SerializeSync` | src/gvs_sync.c:136-162 | the frame around it |
| `SyncJson.JsonParser.SkipSpace` | src/gvs_sync.c:164-172 | space is skipped |
| `SyncJson.JsonParser.Accept` | src/gvs_sync.c:174-183 | one expected byte |
| `SyncJson.JsonParser.ParseString` | src/gvs_sync.c:198-250 | a string and its escapes |
| `SyncJson.JsonParser.AcceptMember` | src/gvs_sync.c:252-261 | a member name |
| `SyncJson.JsonParser.ParseCount` | src/gvs_sync.c:263-284 | a decimal number of at most twenty, with any number of leading zeros |
| `SyncJson.JsonParser.ParseJson` | src/gvs_sync.c:286-345 | the whole text, or nothing |
| `SyncJson.SyncStore.FindEntry` | src/gvs_sync.c:106-119 | the entry of a key |
| `SyncJson.SyncStore.Register` | src/gvs_sync.c:353-375 | a new key, or a refusal |
| `SyncJson.SyncStore.UpdateLocal` | src/gvs_sync.c:377-401 | a changed value and the next version |
| `SyncJson.SyncStore.Apply` | src/gvs_sync.c:456-520 | known keys take the received values |
| `SyncJson.SyncStore.Receive` | src/gvs_sync.c:456-520 | the reception from frame to store |
| `Frames.ParseOfImage` | src/gvs_frame.c:37-72 | reading what was printed gives the frame back, whatever the opaque fields |
| `Frames.ImageOfParse` | src/gvs_frame.c:37-72 | only such images, or an incoming call six bytes short, are read as frames |
| `Frames.Serialize` | src/gvs_serialize.c:9-51 | prints exactly the image, or reports that it does not fit |
| `Words.DistanceIsTruncation` | src/gvs_audio_jitter.c:11-24 | differences and increments are those of 16-bit unsigned arithmetic |

## Left out

- Presences.PresenceStation.Tick: requires a clock at least 60 s below the 64-bit limit, because beyond it the phase timer cannot advance and the loop need not end.
- AudioJitters.EveryEmissionIsTaken: holds while the callback was called at most 2^48 times, because the store's 64-bit counters are not guarded against wrapping.
- MediaSessions.ShownKeepsOwner: covers the encoder's part of a picture by its possible outcomes only (shown, waiting, stuck, dead, recovered), because process control is outside the model.
- Null pointers and uninitialised managers: a parameter is always there.
- A slot's own operations are functions from slot to slot, stored back into the array in one assignment; partial updates inside one operation are not separate heap writes.
- Media sessions: end reasons, failure reasons, last errors, last results, revisions, statistics and log lines, which nothing decides on.
- Media sessions: picture buffers of the reconnect frame, the frame queue's contents and the credentials file; their failures are oracle entries.
- Media manager: the cooldown remembered for each station between two previews is a parameter of a start; pushing raw video chunks is the reassembly followed by a picture.
- Unlock preparation: the ready and current-attempt flags of its status, which depend on one picture only.
- Monitor: cancelling, and switching between publishing and viewing, which the manager never calls; the pending status retry, which is never set.
- Presence: setting the maintainer from outside; convergence of three or more maintainers, which the code does not establish in one round.
- CallRuns.StepsAreRefused: for clocks at least 2 s below the 64-bit limit, beyond which no next keep-alive can be scheduled, and for runs that submit pick-ups and hang-ups as the submit functions prepare them.
- Call control: status records, the name tables, and the external finish and cancel paths of src/runtime_station_call.c.
- Header random and transform fields: opaque bytes.
- Picture validation and dimensions: whether bytes are a picture is a parameter.
- Sockets, capture, files, streams, processes, configuration parsing, status output: input and output.
- Elevator, access control, audio transmission, event relay, media admission and the older media module: small state machines that would only add easy members.
