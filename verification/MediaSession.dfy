/** One slot of the media manager: a station's stream, its monitor, and what the manager does
    to it (src/media_session.c and the per-session parts of src/media_session_manager.c).
    What the outside world answers, such as a frame that cannot be sent or an encoder that
    does not stop, comes from an oracle with one entry for each place that asks. */
module MediaSessions {
  import opened Words
  import Frames
  import M = Monitors

  type Frame = Frames.Frame
  type u32 = M.u32

  const STALL_TIMEOUT_MS := 30000
  const RELEASE_RETRY_MS := 100

  datatype Purpose = Preview | Call

  datatype SlotState = Idle | Requesting | AwaitingVideo | Publishing | Viewing | Stopping | Failed

  datatype Source = Waiting | Live | Reconnecting

  datatype Operation =
    | Check | Rollback | Release | BindControl | MarkSent
    | ReleasePeer | ReleaseSession | ReleaseConfirmation | ReleasePreempted | ReleaseRuntime | ReleaseUnknown
    | IncomingLocal | IncomingPeer | IncomingSession | IncomingRuntime | IncomingUnknown

  /** Whom the slot belongs to, since when, and under which generation. */
  datatype Owner = Owner(
    id: string, station: Address, ipv4: u32, purpose: Purpose, generation: u64, started: u64,
    reserved: bool, active: bool)

  /** The encoder and what it publishes; zero means no publication. */
  datatype Stream = Stream(
    publication: u64, source: Source, frames: nat, lastFrame: u64, running: bool, viewer: bool)

  /** A preview handed to an outgoing call. */
  datatype Handoff = Handoff(callGeneration: u64, out: bool, commandSent: bool, persistent: bool)

  /** A release that still has to stop the encoder. */
  datatype Cleanup = Cleanup(pending: Option<Operation>, retryAt: u64)

  datatype Confirmation = Confirmation(current: bool, generation: u64)

  /** `df_media_session`, its fields grouped. */
  datatype Slot = Slot(
    owner: Owner, state: SlotState, mediaGeneration: u64, preparationOnly: bool, stream: Stream,
    handoff: Handoff, cleanup: Cleanup, confirmation: Confirmation, monitor: M.Monitor)

  const NOBODY := Owner("", M.NOBODY, 0, Preview, 0, 0, false, false)
  const NO_STREAM := Stream(0, Waiting, 0, 0, false, false)
  const NO_HANDOFF := Handoff(0, false, false, false)
  const NO_CLEANUP := Cleanup(None, 0)
  const UNCONFIRMED := Confirmation(false, 0)

  /** A slot as `memset` leaves it. */
  const BLANK := Slot(NOBODY, Idle, 0, false, NO_STREAM, NO_HANDOFF, NO_CLEANUP, UNCONFIRMED, M.ZEROED)

  /** The places where a slot depends on the outside world. */
  datatype Site =
    | RouteFound | MemoryFree | HookStarts | CredentialsLoad
    | StepSent | ReplySent | StopSent | StallStopSent | ReconnectStopSent
    | EncoderStops | QueueResets | StallQueueResets | PipelineStops | FinishResets
    | RetryStops | EndStops | StallStops | TickStops | ReconnectStops
    | EncoderLives | EncoderTicks | EncoderRecovers | FrameRateSet | ReconnectWorks | ReconnectRecovers | ReconnectFits

  type Oracle = Site -> bool

  datatype Code = Done | BadRequest | Trouble | StationNotFound | GenerationMismatch | StationDisabled
                | CapacityBusy | ResourceExhausted | RouteUnavailable | EncoderFault | PreviewUnconfirmed

  // ---------------------------------------------------------------------------
  // What is told about a slot.

  datatype Cause = LocalStop | PeerHangup | Retry | TakenOver

  /** A frame that went out, in which generation of the monitor and to which address; a
      confirmation (03/84) that was accepted; and what makes a confirmation worthless. */
  datatype Note = FrameSent(generation: u64, at: u64, frame: Frame, ipv4: u32)
                | ConfirmationTaken(generation: u64, at: u64)
                | Disturbed(cause: Cause)

  /** What one operation makes of a slot; `failed` when it has an error to report. */
  datatype Change = Change(slot: Slot, released: bool, failed: bool, notes: seq<Note>)

  function Unchanged(s: Slot): Change {
    Change(s, false, false, [])
  }

  function Failing(s: Slot): Change {
    Change(s, false, true, [])
  }

  /** The frame of the monitor's turn, once it is out. */
  function Voiced(s: Slot, now: u64, action: Option<Frame>, sent: bool): seq<Note> {
    if action.Some? && sent then [FrameSent(s.monitor.generation, now, action.value, s.owner.ipv4)] else []
  }

  /** One change after another. */
  function Then(a: Change, b: Change): Change {
    Change(b.slot, a.released || b.released, a.failed || b.failed, a.notes + b.notes)
  }

  // ---------------------------------------------------------------------------
  // The pipeline.

  function PipelineStopped(s: Slot): Slot {
    s.(stream := s.stream.(running := false, publication := 0, source := Waiting))
  }

  function PipelineReset(s: Slot): Slot {
    s.(stream := NO_STREAM)
  }

  /** Starts over under a new media generation, keeping what is published. */
  function AttemptReset(s: Slot, generation: u64, queue: bool): Option<Slot> {
    if !s.owner.active || generation == 0 || !queue then None
    else
      Some(s.(monitor := s.monitor.(flags := s.monitor.flags.(mediaReady := false)), mediaGeneration := generation,
              stream := if s.preparationOnly then s.stream.(frames := 0, lastFrame := 0) else s.stream))
  }

  function SourceLost(s: Slot): Slot {
    if || !s.owner.active || s.owner.purpose != Preview || (s.stream.publication == 0 && !s.preparationOnly)
       || s.stream.source == Reconnecting then s
    else s.(stream := s.stream.(source := Reconnecting))
  }

  function Showing(viewer: bool): SlotState {
    if viewer then Viewing else Publishing
  }

  function EncoderFailed(s: Slot): Slot {
    PipelineStopped(s).(state := Failed)
  }

  /** A preview gets a new encoder in place of one that exited. */
  function Recovered(s: Slot): Slot {
    s.(stream := NO_STREAM.(viewer := s.stream.viewer),
       state := if s.stream.viewer || s.monitor.state == M.Viewing then Viewing
                else if s.monitor.state == M.Requesting then Requesting
                else if s.monitor.state == M.AwaitingVideo then AwaitingVideo
                else if s.monitor.state == M.Stopping then Stopping
                else Publishing)
  }

  function Died(s: Slot, recovers: bool): Slot {
    if s.owner.purpose == Preview && recovers then Recovered(s) else EncoderFailed(s)
  }

  function StateAfterViewer(s: Slot): SlotState {
    if s.monitor.state == M.AwaitingVideo then AwaitingVideo
    else if s.monitor.state == M.Requesting then Requesting
    else if || s.monitor.state == M.Publishing || s.monitor.state == M.Viewing
            || (s.stream.frames != 0 && s.stream.running) then Publishing
    else Requesting
  }

  function ViewerSet(s: Slot, watched: bool): Slot {
    var seen := s.(stream := s.stream.(viewer := watched), preparationOnly := s.preparationOnly && !watched);
    seen.(state := if s.stream.publication != 0 then Showing(watched)
                   else if watched then Viewing
                   else if s.state == Viewing then StateAfterViewer(seen)
                   else s.state)
  }

  // ---------------------------------------------------------------------------
  // Opening, handing over, letting go.

  function Prepared(id: string, station: Address, ipv4: u32, purpose: Purpose, now: u64): Slot {
    BLANK.(owner := BLANK.owner.(id := id, station := station, ipv4 := ipv4, purpose := purpose, reserved := true,
                                 started := now),
           monitor := M.FRESH)
  }

  function Activated(s: Slot, generation: u64): Option<Slot> {
    if !s.owner.reserved || s.owner.active || generation == 0 then None
    else
      Some(s.(owner := s.owner.(generation := generation, reserved := false, active := true),
              mediaGeneration := generation, state := Requesting))
  }

  /** `seconds` is the configured time to the first picture; zero keeps the default. */
  function Timed(m: M.Monitor, seconds: byte): M.Monitor {
    if seconds == 0 then m else m.(policy := m.policy.(frameTimeout := seconds as int * 1000))
  }

  /** Without a local address the monitor stays idle. */
  function MonitorStarted(s: Slot, local: Address, seconds: byte, now: u64): Option<Slot> {
    if local[0] == 0 then Some(s)
    else if M.Active(s.monitor.state) && seconds != 0 then None
    else if s.monitor.state != M.Idle && s.monitor.state != M.Failed then None
    else
      var timed := Timed(s.monitor, seconds);
      var ready := timed.(policy := timed.policy.(persistent := s.owner.purpose == Preview,
                                                  grace := s.owner.purpose == Preview && !s.preparationOnly));
      match M.Started(ready, local, s.owner.station, s.owner.ipv4, s.mediaGeneration, now)
      case None => None
      case Some(m) => Some(s.(monitor := m))
  }

  function CallBound(s: Slot, local: Address, seconds: byte, now: u64): Option<Slot> {
    if local[0] == 0 then Some(s)
    else
      match M.Bound(Timed(s.monitor, seconds), local, s.owner.station, s.owner.ipv4, s.mediaGeneration, now)
      case None => None
      case Some(m) => Some(s.(monitor := m))
  }

  predicate Preflight(s: Slot, local: Address, seconds: byte, now: u64) {
    local[0] == 0 || (s.monitor.lastNow <= now && now <= U64_MAX - M.FrameTimeout(Timed(s.monitor, seconds)))
  }

  /** A preview becomes an incoming call under a new generation. */
  function Upgraded(s: Slot, generation: u64, callGeneration: u64, now: u64, o: Oracle): (Slot, Code) {
    if || !s.owner.active || generation == 0 || callGeneration == 0 || generation == s.owner.generation
       || now < s.monitor.lastNow then (s, BadRequest)
    else if (s.stream.running && !o(EncoderStops)) || !o(QueueResets) then
      (s.(stream := s.stream.(running := false)), Trouble)
    else
      (s.(owner := s.owner.(purpose := Call, generation := generation, started := now), state := Requesting,
          mediaGeneration := generation, preparationOnly := false, stream := NO_STREAM,
          handoff := NO_HANDOFF.(callGeneration := callGeneration), confirmation := UNCONFIRMED),
       Done)
  }

  /** A confirmed preview becomes an outgoing call under its own generation. */
  function Promoted(s: Slot, callGeneration: u64, now: u64): Option<Slot> {
    if !s.owner.active || s.owner.purpose != Preview || !s.confirmation.current || now < s.monitor.lastNow then None
    else
      Some(s.(owner := s.owner.(purpose := Call), preparationOnly := false,
              handoff := Handoff(callGeneration, true, false, s.monitor.policy.persistent),
              monitor := s.monitor.(policy := s.monitor.policy.(persistent := false))))
  }

  function RolledBack(s: Slot): Slot {
    s.(owner := s.owner.(purpose := Preview), handoff := Handoff(0, false, s.handoff.commandSent, false),
       monitor := s.monitor.(policy := s.monitor.policy.(persistent := s.handoff.persistent)))
  }

  /** Stops the encoder and empties the slot, or keeps it to try again. */
  function ReleasedFailed(s: Slot, stops: bool): Change {
    if !s.owner.active then Failing(s)
    else if !stops then Failing(PipelineStopped(s))
    else Change(BLANK, true, false, [])
  }

  /** The hang-up of a slot that is given up. */
  function StopEmitted(s: Slot, now: u64, sent: bool): Change {
    if s.handoff.out || s.monitor.state == M.Idle then Unchanged(s)
    else
      match M.Stopped(s.monitor, s.mediaGeneration, now)
      case None => Failing(s)
      case Some(stopping) =>
        var turn := M.Stepped(stopping, now).value;
        Change(s.(monitor := turn.m), false, !sent, [Disturbed(LocalStop)] + Voiced(s, now, turn.action, sent))
  }

  /** A release on request: the slot is emptied, or marked to be emptied later. */
  function ReleasedOnRequest(s: Slot, operation: Operation, now: u64, stops: bool): Change {
    if stops then Change(BLANK, true, false, [])
    else
      var stopped := PipelineStopped(s);
      Failing(stopped.(cleanup := Cleanup(Some(operation), Min(now + RELEASE_RETRY_MS, U64_MAX)), state := Stopping,
                       stream := stopped.stream.(viewer := false)))
  }

  function StoppedByCommand(s: Slot, now: u64, o: Oracle): (Change, Code) {
    if M.Active(s.monitor.state) then
      match M.Stopped(s.monitor, s.mediaGeneration, now)
      case None => (Unchanged(s), BadRequest)
      case Some(stopping) =>
        var stopped, turn := PipelineStopped(s), M.Stepped(stopping, now).value;
        (Change(stopped.(monitor := turn.m, state := Stopping, stream := stopped.stream.(viewer := false)),
                false, false,
                [Disturbed(LocalStop)] + Voiced(s, now, turn.action, !s.handoff.out && o(StopSent))),
         if !o(EncoderStops) then EncoderFault else if !s.handoff.out && !o(StopSent) then Trouble else Done)
    else if !o(EncoderStops) then (Unchanged(PipelineStopped(s)), EncoderFault)
    else (Change(BLANK, true, false, []), Done)
  }

  // ---------------------------------------------------------------------------
  // Asking again.

  function RetryScheduled(s: Slot, now: u64, queue: bool): Change
    requires s.owner.active && s.owner.purpose == Preview
  {
    match M.Retried(s.monitor, now)
    case None => Failing(s.(state := Failed))
    case Some(m) =>
      var lost := SourceLost(s.(monitor := m));
      var told := [Disturbed(Retry)];
      if s.stream.publication == 0 then Change(lost.(state := Stopping), false, false, told)
      else
        match AttemptReset(lost, m.generation, queue)
        case None => Change(lost, false, true, told)
        case Some(again) => Change(again.(state := Showing(s.stream.viewer)), false, false, told)
  }

  /** The pipeline of a new attempt: what is published stays, anything else is reset. */
  function NewAttempt(s: Slot, generation: u64, queue: bool, stops: bool): (Slot, bool) {
    if s.stream.publication == 0 then (PipelineReset(s), stops)
    else
      match AttemptReset(s, generation, queue)
      case None => (s, false)
      case Some(again) => (again, true)
  }

  function RetryFinished(s: Slot, ok: bool): Change {
    var generation := s.monitor.generation;
    if !s.owner.active || s.owner.purpose != Preview || !s.monitor.flags.retryReady || generation == 0 then Failing(s)
    else
      var (again, done) := NewAttempt(s, generation, ok, ok);
      if !done then Failing(again.(state := Failed))
      else
        Unchanged(again.(stream := again.stream.(viewer := s.stream.viewer), mediaGeneration := generation,
                         monitor := again.monitor.(flags := again.monitor.flags.(retryReady := false)),
                         state := if again.stream.publication != 0 then Showing(s.stream.viewer) else Requesting))
  }

  // ---------------------------------------------------------------------------
  // A control frame.

  function TakeConfirmation(s: Slot, before: M.Monitor, now: u64, o: Oracle): (Change, Code) {
    var told := [ConfirmationTaken(s.monitor.generation, now)];
    var inTime := before.counts.attempts != 0 && before.times.confirmUntil != 0 && now < before.times.confirmUntil;
    var marked := s.(confirmation := Confirmation(inTime, s.monitor.generation));
    if before.flags.mediaReady then (Change(marked, false, false, told), Done)
    else
      match AttemptReset(marked, s.monitor.generation, o(QueueResets))
      case None => (Change(marked, false, false, told), Trouble)
      case Some(again) =>
        (Change(again.(state := if s.stream.publication != 0 then Showing(s.stream.viewer) else AwaitingVideo),
                false, false, told), Done)
  }

  function TakeRetry(s: Slot, told: seq<Note>, o: Oracle): (Change, Code) {
    var marked := s.(confirmation := s.confirmation.(current := false));
    if s.monitor.flags.peerStopSeen then
      var (again, done) := NewAttempt(SourceLost(marked), s.monitor.generation, o(QueueResets), o(PipelineStops));
      if !done then
        (Then(Change(again, false, false, told), ReleasedFailed(again.(state := Failed), o(EndStops))), Trouble)
      else
        (Change(again.(stream := again.stream.(viewer := s.stream.viewer), mediaGeneration := s.monitor.generation,
                       state := if again.stream.publication != 0 then Showing(s.stream.viewer) else Requesting),
                false, false, told),
         Done)
    else
      (Change(marked.(state := if s.owner.purpose == Preview && s.stream.publication != 0
                               then Showing(s.stream.viewer)
                               else if s.monitor.state == M.Requesting then Requesting
                               else Stopping),
              false, false, told),
       Done)
  }

  /** The answers that a frame gets: to a keep-alive, to a hang-up. */
  function Replies(s: Slot, local: Address, report: M.Report, now: u64): seq<Note> {
    Voiced(s, now, Some(Frames.Frame(s.owner.station, local, 0x03, 0x52, [])), report.keepaliveReply) +
    Voiced(s, now, Some(Frames.Frame(s.owner.station, local, 0x03, 0x82, [])), report.hangupReply)
  }

  /** A frame of this slot's station, from the station's own address. */
  function ControlReceived(s: Slot, local: Address, f: Frame, ipv4: u32, now: u64, o: Oracle): (Change, Code) {
    if f.destination != local then (Unchanged(s), BadRequest)
    else if s.cleanup.pending.Some? then (Unchanged(s), EncoderFault)
    else if f.family == 0x03 && (f.opcode == 0x51 || f.opcode == 0x02) && s.owner.purpose != Preview then
      (Unchanged(s), BadRequest)
    else
      var reply := M.Received(s.monitor, f, ipv4, now);
      var next := s.(monitor := reply.m);
      var said := Replies(s, local, reply.report, now);
      var told := said + if f.opcode == 0x02 then [Disturbed(PeerHangup)] else [];
      if !reply.accepted then (Unchanged(next), BadRequest)
      else if (reply.report.keepaliveReply || reply.report.hangupReply) && !o(ReplySent) then (Unchanged(s), Trouble)
      else if reply.report.confirmed then TakeConfirmation(next, s.monitor, now, o)
      else if reply.report.retrying then
        TakeRetry(next, if f.opcode == 0x02 then told else said + [Disturbed(Retry)], o)
      else if reply.report.retryReady then
        var finished := RetryFinished(next, o(FinishResets));
        if finished.failed then (Change(finished.slot.(monitor := s.monitor), false, false, said), Trouble)
        else (Then(Change(next, false, false, told), finished), Done)
      else if reply.report.failed then
        var ended := ReleasedFailed(next.(confirmation := next.confirmation.(current := false), state := Failed),
                                    o(EndStops));
        (Then(Change(next, false, false, told), ended), if ended.failed then Trouble else Done)
      else if reply.report.stopped then
        if !o(EndStops) then (Change(PipelineStopped(next), false, false, told), Trouble)
        else (Change(BLANK, true, false, told), Done)
      else (Change(next, false, false, told), Done)
  }

  // ---------------------------------------------------------------------------
  // A picture.

  /** Ways a picture can leave the session's own push: shown, waiting for the encoder, lost
      with an error, or ending the encoder. */
  datatype Path = Shows | Waits | Sticks(counted: bool, running: bool) | Dies

  function Counted(s: Slot, at: u64): Slot {
    s.(stream := s.stream.(frames := s.stream.frames + 1, lastFrame := at, source := Live))
  }

  function PictureShown(s: Slot, at: u64, path: Path, o: Oracle): (Slot, Code) {
    if !s.owner.active || s.state == Failed then (s, BadRequest)
    else
      var living := if o(EncoderLives) then s else Died(s, o(EncoderRecovers));
      if living.state == Failed then (living, Trouble)
      else
        var publication := if living.stream.publication == 0 then s.owner.generation else living.stream.publication;
        var published := living.(stream := living.stream.(publication := publication));
        match path
        case Shows =>
          var shown := Counted(published, at);
          (shown.(state := Showing(s.stream.viewer), stream := shown.stream.(running := true)), Done)
        case Waits =>
          var shown := Counted(published, at);
          (shown.(state := Publishing, stream := shown.stream.(running := true)), Done)
        case Sticks(counted, running) =>
          var stuck := if counted then Counted(published, at) else published;
          (stuck.(stream := stuck.stream.(running := running)), Trouble)
        case Dies =>
          var dead := Died(published, o(EncoderRecovers));
          (dead, if dead.state == Failed then Trouble else Done)
  }

  /** A picture for a slot that only prepares an unlock: no encoder is needed. */
  function PictureNoted(s: Slot, at: u64): (Slot, Code) {
    if !s.owner.active || s.state == Failed || s.mediaGeneration == 0 || at < s.monitor.lastNow then (s, BadRequest)
    else (Counted(s, at).(state := Showing(s.stream.viewer)), Done)
  }

  /** `valid` says whether the bytes are a picture of some size. */
  function PictureReceived(s: Slot, source: Address, destination: Address, ipv4: u32, valid: bool, at: u64,
                           path: Path, o: Oracle): (Change, Code)
  {
    if ipv4 != s.owner.ipv4 || s.cleanup.pending.Some? then (Unchanged(s), BadRequest)
    else if s.preparationOnly &&
            (s.monitor.counts.attempts == 0 || s.monitor.generation != s.mediaGeneration || !valid) then
      (Unchanged(s), BadRequest)
    else
      var admitted := if s.monitor.state == M.Idle then Some(s.monitor)
                      else M.Admitted(s.monitor, source, destination, ipv4, s.mediaGeneration, at);
      match admitted
      case None => (Unchanged(s), BadRequest)
      case Some(m) =>
        var next := s.(monitor := m);
        if !s.preparationOnly && !o(CredentialsLoad) then (Unchanged(next), BadRequest)
        else
          var (shown, code) := if s.preparationOnly then PictureNoted(next, at)
                               else if !valid then (next, BadRequest)
                               else PictureShown(next, at, path, o);
          AfterPicture(shown, code, at, o)
  }

  function AfterPicture(s: Slot, code: Code, at: u64, o: Oracle): (Change, Code) {
    if s.state == Failed then
      var stopped := StopEmitted(s, at, o(StopSent));
      (Then(stopped, ReleasedFailed(stopped.slot, o(EndStops))), code)
    else if code == Done && s.monitor.state == M.AwaitingVideo then
      match M.MarkedPublishing(s.monitor, s.mediaGeneration, at)
      case None => (Unchanged(s), Trouble)
      case Some(m) => (Unchanged(s.(monitor := m)), Done)
    else (Unchanged(s), code)
  }

  // ---------------------------------------------------------------------------
  // Time, in the order the manager's tick looks at a slot.

  /** The monitor as it was before a frame that could not be sent. */
  function Unsent(before: M.Monitor, after: M.Monitor, action: Frame, now: u64): M.Monitor {
    if action.opcode == 0x51 then
      before.(times := before.times.(keepaliveNext := after.times.keepaliveNext))
    else if action.opcode == 0x04 && before.flags.peerStopSeen && now <= U64_MAX - M.REQUEST_INTERVAL_MS then
      before.(times := before.times.(nextAction := after.times.nextAction))
    else before
  }

  function TickMonitor(s: Slot, now: u64, o: Oracle): Change {
    match M.Stepped(s.monitor, now)
    case None => Failing(s)
    case Some(turn) =>
      var sending := turn.action.Some? && !s.handoff.out;
      if sending && !o(StepSent) then
        var restored := s.(monitor := Unsent(s.monitor, turn.m, turn.action.value, now));
        if s.monitor.flags.retryAfterStop then
          Then(Failing(restored), ReleasedFailed(restored.(state := Failed), o(RetryStops)))
        else Failing(restored)
      else
        Change(s.(monitor := turn.m), false, false,
               if sending then Voiced(s, now, turn.action, true)
               else if M.Playing(s.monitor.state) && turn.m.state == M.Stopping then [Disturbed(Retry)]
               else [])
  }

  /** A retrying preview that publishes nothing shows that it is stopping. */
  function TickStopping(s: Slot): Slot {
    if s.owner.purpose == Preview && s.monitor.state == M.Stopping && s.stream.publication == 0
    then s.(state := Stopping)
    else s
  }

  function TickRetry(s: Slot, o: Oracle): Change {
    if s.owner.purpose == Preview && s.monitor.flags.retryReady then
      RetryFinished(s, o(FinishResets))
    else Unchanged(s)
  }

  predicate Stalled(s: Slot, now: u64) {
    && (s.state == Publishing || s.state == Viewing) && s.stream.source != Reconnecting && s.stream.frames != 0
    && now >= s.stream.lastFrame && now - s.stream.lastFrame >= STALL_TIMEOUT_MS
  }

  function TickStall(s: Slot, now: u64, o: Oracle): Change
    requires s.owner.active
  {
    if s.owner.purpose == Preview then
      var asked := RetryScheduled(s, now, o(StallQueueResets));
      if asked.failed && asked.slot.state == Failed then Then(asked, ReleasedFailed(asked.slot, o(StallStops)))
      else asked
    else
      var stopped := StopEmitted(s, now, o(StallStopSent));
      Then(stopped, ReleasedFailed(stopped.slot.(state := Failed), o(StallStops)))
  }

  /** A slot without an encoder has none to look after. */
  function TickPipeline(s: Slot, o: Oracle): Change {
    var (ticked, ok) := if !s.stream.running || !s.owner.active || s.state == Failed
                        then (s, s.owner.active || !s.stream.running)
                        else if o(EncoderLives) then (s, true)
                        else
                          var died := Died(s, o(EncoderRecovers));
                          (died, died.state != Failed || o(EncoderTicks));
    var kept := Change(ticked, false, !ok, []);
    if ticked.state != Failed then kept
    else
      var ended := ReleasedFailed(ticked, o(TickStops));
      Then(kept, ended.(failed := false))
  }

  /** The frozen picture shown while the source is away. */
  function TickReconnect(s: Slot, now: u64, o: Oracle): Change {
    var shows := s.owner.purpose == Preview && s.stream.running;
    if !s.owner.active || s.stream.publication == 0 || (o(FrameRateSet) && (!shows || o(ReconnectWorks)))
    then Unchanged(s)
    else if o(FrameRateSet) && shows && o(ReconnectRecovers) then Unchanged(Recovered(s))
    else
      var broken := if o(ReconnectFits) then EncoderFailed(s) else s.(state := Failed);
      var stopped := StopEmitted(broken, now, o(ReconnectStopSent));
      Then(stopped, ReleasedFailed(stopped.slot, o(ReconnectStops))).(failed := true)
  }

  function TickStream(s: Slot, now: u64, o: Oracle): Change {
    var ticked := TickPipeline(s, o);
    Then(ticked, TickReconnect(ticked.slot, now, o))
  }

  function TickShown(s: Slot, now: u64, o: Oracle): Change {
    if !s.owner.active || !Stalled(s, now) then TickStream(s, now, o)
    else
      var stalled := TickStall(s, now, o);
      if !stalled.slot.owner.active then stalled else Then(stalled, TickStream(stalled.slot, now, o))
  }

  function TickEnded(s: Slot, now: u64, o: Oracle): Change {
    if s.monitor.state == M.Failed then ReleasedFailed(s.(state := Failed), o(EndStops))
    else if s.state == Stopping && s.monitor.state == M.Idle then
      (if o(EndStops) then Change(BLANK, true, false, []) else Failing(PipelineStopped(s)))
    else TickShown(s, now, o)
  }

  /** A slot that is neither being cleaned up nor failed. */
  function Ticked(s: Slot, now: u64, o: Oracle): Change {
    var moved := TickMonitor(s, now, o);
    var again := TickRetry(TickStopping(moved.slot), o);
    Then(Then(moved, again), TickEnded(again.slot, now, o))
  }

  // ---------------------------------------------------------------------------
  // Whatever happens to a slot in use, it is emptied or stays whose it was.

  /** The slot stays whose it was, and its monitor goes on talking to the same peer. */
  predicate SameOwner(s: Slot, t: Slot) {
    t.owner == s.owner && M.KeepsPeer(s.monitor, t.monitor)
  }

  /** A frame goes from the monitor to its station, at the owner's address. */
  predicate SaidBy(s: Slot, n: Note) {
    n.FrameSent? ==>
      && M.WellSpoken(n.frame) && s.monitor.state != M.Idle && n.frame.source == s.monitor.peer.local
      && (n.frame.destination == s.monitor.peer.station || n.frame.destination == s.owner.station)
      && n.ipv4 == s.owner.ipv4
  }

  predicate AllSaidBy(s: Slot, notes: seq<Note>) {
    forall i :: 0 <= i < |notes| ==> SaidBy(s, notes[i])
  }

  predicate Moves(s: Slot, c: Change) {
    AllSaidBy(s, c.notes) && if c.released then c.slot == BLANK else SameOwner(s, c.slot)
  }

  lemma StopMoves(s: Slot, now: u64, sent: bool)
    ensures Moves(s, StopEmitted(s, now, sent)) && !StopEmitted(s, now, sent).released
    ensures StopEmitted(s, now, sent).slot.state == s.state
  {
    hide M.Stopped, M.Stepped, M.WellSpoken;
    if M.Stopped(s.monitor, s.mediaGeneration, now).Some? {
      StopSpeaks(s, now);
    }
  }

  /** A stop and its hang-up keep the peer, and the hang-up goes to it. */
  lemma StopSpeaks(s: Slot, now: u64)
    requires M.Stopped(s.monitor, s.mediaGeneration, now).Some?
    ensures var stopping := M.Stopped(s.monitor, s.mediaGeneration, now).value;
            var turn := M.Stepped(stopping, now).value;
            && M.KeepsPeer(s.monitor, turn.m)
            && AllSaidBy(s, Voiced(s, now, turn.action, true))
  {
    M.OtherwiseKeepsPeer(s.monitor, M.NOBODY, M.NOBODY, 0, s.mediaGeneration, now);
    M.StepKeepsPeer(M.Stopped(s.monitor, s.mediaGeneration, now).value, now);
    hide M.WellSpoken;
  }

  lemma RecoveryKeepsOwner(s: Slot, recovers: bool)
    ensures SameOwner(s, Died(s, recovers)) && SameOwner(s, Recovered(s))
  {
  }

  lemma AttemptKeepsOwner(s: Slot, generation: u64, queue: bool, stops: bool)
    ensures SameOwner(s, NewAttempt(s, generation, queue, stops).0)
  {
  }

  lemma ReleaseMoves(s: Slot, operation: Operation, now: u64, stops: bool)
    ensures Moves(s, ReleasedFailed(s, stops)) && Moves(s, ReleasedOnRequest(s, operation, now, stops))
  {
  }

  lemma BindingKeepsOwner(s: Slot, local: Address, seconds: byte, now: u64)
    requires CallBound(s, local, seconds, now).Some?
    ensures var t := CallBound(s, local, seconds, now).value;
            && t.owner == s.owner && t.preparationOnly == s.preparationOnly
            && if local[0] == 0 then t == s else t.monitor.peer == M.Peer(local, s.owner.station, s.owner.ipv4)
  {
    hide M.Bound, Timed;
    M.OpeningMeetsPeer(Timed(s.monitor, seconds), local, s.owner.station, s.owner.ipv4, s.mediaGeneration, now);
  }

  lemma ViewingKeepsOwner(s: Slot, watched: bool)
    ensures SameOwner(s, ViewerSet(s, watched))
  {
    hide StateAfterViewer;
  }

  lemma ScheduledMoves(s: Slot, now: u64, queue: bool)
    requires s.owner.active && s.owner.purpose == Preview
    ensures Moves(s, RetryScheduled(s, now, queue)) && !RetryScheduled(s, now, queue).released
  {
    hide M.Retried;
    M.OtherwiseKeepsPeer(s.monitor, M.NOBODY, M.NOBODY, 0, 0, now);
  }

  lemma FinishedMoves(s: Slot, ok: bool)
    ensures Moves(s, RetryFinished(s, ok)) && !RetryFinished(s, ok).released
  {
    AttemptKeepsOwner(s, s.monitor.generation, ok, ok);
    hide NewAttempt;
  }

  lemma MonitorMoves(s: Slot, now: u64, o: Oracle)
    ensures Moves(s, TickMonitor(s, now, o))
  {
    hide M.Stepped, M.WellSpoken;
    if M.Stepped(s.monitor, now).Some? {
      M.StepKeepsPeer(s.monitor, now);
    }
  }

  lemma StallMoves(s: Slot, now: u64, o: Oracle)
    requires s.owner.active
    ensures Moves(s, TickStall(s, now, o))
  {
    hide RetryScheduled, StopEmitted;
    if s.owner.purpose == Preview {
      ScheduledMoves(s, now, o(StallQueueResets));
    } else {
      StopMoves(s, now, o(StallStopSent));
    }
  }

  lemma PipelineMoves(s: Slot, o: Oracle)
    ensures Moves(s, TickPipeline(s, o))
  {
    hide Died;
    RecoveryKeepsOwner(s, o(EncoderRecovers));
  }

  lemma ReconnectMoves(s: Slot, now: u64, o: Oracle)
    ensures Moves(s, TickReconnect(s, now, o))
  {
    hide StopEmitted, Recovered;
    RecoveryKeepsOwner(s, o(ReconnectRecovers));
    StopMoves(EncoderFailed(s), now, o(ReconnectStopSent));
    StopMoves(s.(state := Failed), now, o(ReconnectStopSent));
  }

  /** An emptied slot is left alone by the rest of the tick. */
  lemma EmptyStaysEmpty(now: u64, o: Oracle)
    ensures TickReconnect(BLANK, now, o) == Unchanged(BLANK)
    ensures TickEnded(BLANK, now, o) == Unchanged(BLANK)
    ensures TickRetry(TickStopping(BLANK), o) == Unchanged(BLANK)
  {
  }

  lemma StreamMoves(s: Slot, now: u64, o: Oracle)
    ensures Moves(s, TickStream(s, now, o))
  {
    hide TickPipeline, TickReconnect;
    var ticked := TickPipeline(s, o);
    PipelineMoves(s, o);
    EmptyStaysEmpty(now, o);
    ReconnectMoves(ticked.slot, now, o);
  }

  lemma EndMoves(s: Slot, now: u64, o: Oracle)
    ensures Moves(s, TickEnded(s, now, o))
  {
    hide TickStall, TickStream, Stalled;
    StreamMoves(s, now, o);
    if s.owner.active {
      var stalled := TickStall(s, now, o);
      StallMoves(s, now, o);
      StreamMoves(stalled.slot, now, o);
    }
  }

  lemma TickMoves(s: Slot, now: u64, o: Oracle)
    ensures Moves(s, Ticked(s, now, o))
  {
    hide TickMonitor, TickEnded, RetryFinished;
    var moved := TickMonitor(s, now, o);
    MonitorMoves(s, now, o);
    EmptyStaysEmpty(now, o);
    var stopping := TickStopping(moved.slot);
    FinishedMoves(stopping, o(FinishResets));
    var again := TickRetry(stopping, o);
    EndMoves(again.slot, now, o);
  }

  lemma ConfirmationMoves(s: Slot, before: M.Monitor, now: u64, o: Oracle)
    ensures Moves(s, TakeConfirmation(s, before, now, o).0)
  {
  }

  lemma RetryMoves(s: Slot, told: seq<Note>, o: Oracle)
    ensures var c := TakeRetry(s, told, o).0;
            c.notes == told && if c.released then c.slot == BLANK else SameOwner(s, c.slot)
  {
    hide NewAttempt;
    var marked := s.(confirmation := s.confirmation.(current := false));
    AttemptKeepsOwner(SourceLost(marked), s.monitor.generation, o(QueueResets), o(PipelineStops));
  }

  lemma RetriedMoves(s: Slot, next: Slot, told: seq<Note>, o: Oracle)
    requires SameOwner(s, next) && AllSaidBy(s, told)
    ensures Moves(s, TakeRetry(next, told, o).0)
  {
    hide TakeRetry, SaidBy;
    RetryMoves(next, told, o);
  }

  lemma FinishingMoves(s: Slot, next: Slot, said: seq<Note>, told: seq<Note>, ok: bool)
    requires SameOwner(s, next) && AllSaidBy(s, said) && AllSaidBy(s, told)
    ensures var finished := RetryFinished(next, ok);
            && Moves(s, Then(Change(next, false, false, told), finished))
            && Moves(s, Change(finished.slot.(monitor := s.monitor), false, false, said))
  {
    hide RetryFinished, M.WellSpoken;
    FinishedMoves(next, ok);
  }

  lemma EndingMoves(s: Slot, next: Slot, told: seq<Note>, stops: bool)
    requires SameOwner(s, next) && AllSaidBy(s, told)
    ensures var ended := next.(confirmation := next.confirmation.(current := false), state := Failed);
            Moves(s, Then(Change(next, false, false, told), ReleasedFailed(ended, stops)))
    ensures Moves(s, Change(PipelineStopped(next), false, false, told))
    ensures Moves(s, Change(next, false, false, told)) && Moves(s, Change(BLANK, true, false, told))
  {
  }

  lemma RepliesAreSaid(s: Slot, local: Address, report: M.Report, now: u64)
    requires s.monitor.state != M.Idle && local == s.monitor.peer.local
    ensures AllSaidBy(s, Replies(s, local, report, now))
  {
  }

  lemma ControlMoves(s: Slot, local: Address, f: Frame, ipv4: u32, now: u64, o: Oracle)
    ensures Moves(s, ControlReceived(s, local, f, ipv4, now, o).0)
  {
    hide M.Received, TakeConfirmation, TakeRetry, RetryFinished, Replies, ReleasedFailed, PipelineStopped, Moves, SaidBy, M.KeepsPeer, Then;
    var reply := M.Received(s.monitor, f, ipv4, now);
    var next := s.(monitor := reply.m);
    var said := Replies(s, local, reply.report, now);
    var told := said + if f.opcode == 0x02 then [Disturbed(PeerHangup)] else [];
    M.ReceptionKeepsPeer(s.monitor, f, ipv4, now);
    NothingMoves(s);
    EndingMoves(s, next, [], true);
    if reply.accepted && f.destination == local {
      RepliesAreSaid(s, local, reply.report, now);
      DisturbancesAreSaid(s, said);
      ConfirmedMoves(s, next, now, o);
      RetriedMoves(s, next, if f.opcode == 0x02 then told else said + [Disturbed(Retry)], o);
      FinishingMoves(s, next, said, told, o(FinishResets));
      EndingMoves(s, next, told, o(EndStops));
    }
  }

  lemma NothingMoves(s: Slot)
    ensures Moves(s, Unchanged(s))
  {
  }

  lemma ConfirmedMoves(s: Slot, next: Slot, now: u64, o: Oracle)
    requires SameOwner(s, next)
    ensures Moves(s, TakeConfirmation(next, s.monitor, now, o).0)
  {
    hide TakeConfirmation, M.WellSpoken;
    ConfirmationMoves(next, s.monitor, now, o);
  }

  lemma DisturbancesAreSaid(s: Slot, said: seq<Note>)
    requires AllSaidBy(s, said)
    ensures forall cause :: AllSaidBy(s, said + [Disturbed(cause)])
    ensures AllSaidBy(s, said + [])
  {
    hide M.WellSpoken;
  }

  lemma AfterPictureMoves(s: Slot, code: Code, at: u64, o: Oracle)
    ensures Moves(s, AfterPicture(s, code, at, o).0)
  {
    hide StopEmitted;
    StopMoves(s, at, o(StopSent));
  }

  lemma ShownKeepsOwner(s: Slot, at: u64, path: Path, o: Oracle)
    ensures SameOwner(s, PictureShown(s, at, path, o).0)
  {
    hide Died;
    var living := if o(EncoderLives) then s else Died(s, o(EncoderRecovers));
    RecoveryKeepsOwner(s, o(EncoderRecovers));
    var publication := if living.stream.publication == 0 then s.owner.generation else living.stream.publication;
    RecoveryKeepsOwner(living.(stream := living.stream.(publication := publication)), o(EncoderRecovers));
  }

  lemma PictureMoves(s: Slot, source: Address, destination: Address, ipv4: u32, valid: bool, at: u64, path: Path,
                     o: Oracle)
    ensures Moves(s, PictureReceived(s, source, destination, ipv4, valid, at, path, o).0)
  {
    hide M.Admitted, PictureShown, AfterPicture;
    var admitted := if s.monitor.state == M.Idle then Some(s.monitor)
                    else M.Admitted(s.monitor, source, destination, ipv4, s.mediaGeneration, at);
    M.OtherwiseKeepsPeer(s.monitor, source, destination, ipv4, s.mediaGeneration, at);
    if admitted.Some? {
      var next := s.(monitor := admitted.value);
      ShownKeepsOwner(next, at, path, o);
      var (shown, code) := if s.preparationOnly then PictureNoted(next, at)
                           else if !valid then (next, BadRequest)
                           else PictureShown(next, at, path, o);
      AfterPictureMoves(shown, code, at, o);
    }
  }

  lemma CommandMoves(s: Slot, now: u64, o: Oracle)
    ensures Moves(s, StoppedByCommand(s, now, o).0)
  {
    hide M.Stopped, M.Stepped, M.WellSpoken;
    if M.Stopped(s.monitor, s.mediaGeneration, now).Some? {
      StopSpeaks(s, now);
    }
  }
}
