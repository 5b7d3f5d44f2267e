/** The preview monitor: asks a door station for video, keeps the stream alive, and gives it
    up or asks again when the station hangs up (src/gvs_monitor.c, src/gvs_station.c:28-39). */
module Monitors {
  import opened Words
  import opened Frames

  const REQUEST_INTERVAL_MS := 1000
  const KEEPALIVE_INTERVAL_MS := 2000
  const STARTUP_BUSY_LIMIT := 6
  const RECOVERY_BUSY_LIMIT := 6
  const STARTUP_BUSY_WINDOW_MS := 12000
  const MAX_REQUESTS := 20
  const FRAME_TIMEOUT_MS := 8000
  const STOP_TIMEOUT_MS := 1000
  const PEER_RETRY_DELAY_MS := 4000
  const STOP_COOLDOWN_MS := 4000

  const REQUEST_PAYLOAD: seq<byte> := [0x02, 0x20, 0x6f, 0x00, 0x20, 0x6e, 0x1e]
  const CONFIRMATION_PAYLOAD: seq<byte> := [0x1e, 0x00, 0x01]

  const NOBODY: Address := [0, 0, 0, 0, 0, 0]

  /** `unsigned`, counted up without wrapping. */
  type u32 = x: int | 0 <= x <= 0xFFFF_FFFF

  function Raised(x: u32): u32 {
    if x == 0xFFFF_FFFF then x else x + 1
  }

  predicate Bcd(x: byte) {
    x / 16 <= 9 && x % 16 <= 9
  }

  predicate StationValid(a: Address) {
    && a[0] == 0x32 && Bcd(a[1]) && a[1] != 0 && Bcd(a[2]) && a[2] != 0
    && a[3] == 0 && Bcd(a[4]) && a[4] != 0 && a[5] == 0
  }

  datatype MonitorState = Idle | Requesting | AwaitingVideo | Publishing | Viewing | Stopping | Failed

  datatype Failure = NoFailure | Timeout | FirstFrameTimeout | StopTimeout

  /** Whom the monitor talks to, and as whom. */
  datatype Peer = Peer(local: Address, station: Address, ipv4: u32)

  /** What a restart keeps. */
  datatype Policy = Policy(frameTimeout: u64, persistent: bool, grace: bool, cooldownUntil: u64)

  datatype Times = Times(
    nextAction: u64, firstRequest: u64, notBefore: u64, confirmUntil: u64, frameDeadline: u64, keepaliveNext: u64)

  datatype Counts = Counts(attempts: u32, busy: u32, misses: u32)

  datatype Flags = Flags(
    mediaReady: bool, established: bool, retryAfterStop: bool, retryReady: bool, retryWaiting: bool,
    peerStopSeen: bool, stopSent: bool)

  /** The C struct, its fields grouped. */
  datatype Monitor = Monitor(
    state: MonitorState, failure: Failure, generation: u64, lastNow: u64, peer: Peer, policy: Policy,
    times: Times, counts: Counts, flags: Flags)

  const ZEROED := Monitor(Idle, NoFailure, 0, 0, Peer(NOBODY, NOBODY, 0), Policy(0, false, false, 0),
                          Times(0, 0, 0, 0, 0, 0), Counts(0, 0, 0),
                          Flags(false, false, false, false, false, false, false))

  const FRESH := ZEROED.(policy := Policy(FRAME_TIMEOUT_MS, false, false, 0))

  predicate Playing(state: MonitorState) {
    state == AwaitingVideo || state == Publishing || state == Viewing
  }

  predicate Active(state: MonitorState) {
    state == Requesting || Playing(state)
  }

  function FrameTimeout(m: Monitor): u64 {
    if m.policy.frameTimeout == 0 then FRAME_TIMEOUT_MS else m.policy.frameTimeout
  }

  // ---------------------------------------------------------------------------
  // Failing, and asking again.

  function Broken(m: Monitor, failure: Failure): Monitor {
    m.(state := Failed, failure := failure,
       times := m.times.(nextAction := 0, confirmUntil := 0, frameDeadline := 0, keepaliveNext := 0),
       flags := m.flags.(mediaReady := false, retryAfterStop := false, retryReady := false, retryWaiting := false,
                         peerStopSeen := false),
       counts := m.counts.(misses := 0))
  }

  /** Hang up, to ask again under a new generation. */
  function Retried(m: Monitor, now: u64): Option<Monitor> {
    if !m.policy.persistent || now < m.lastNow || !Active(m.state) then None
    else
      Some(m.(lastNow := now, state := Stopping, failure := NoFailure,
              times := m.times.(nextAction := now, confirmUntil := 0, frameDeadline := 0, keepaliveNext := 0),
              flags := m.flags.(mediaReady := false, retryAfterStop := true, retryReady := false,
                                retryWaiting := false, peerStopSeen := false, stopSent := false),
              counts := m.counts.(misses := 0)))
  }

  /** The station hung up: ask again under a new generation, after a pause. */
  function Restarted(m: Monitor, now: u64): Option<Monitor> {
    if now < m.lastNow || m.generation == U64_MAX || now > U64_MAX - PEER_RETRY_DELAY_MS then None
    else
      Some(m.(lastNow := now, generation := m.generation + 1, state := Requesting, failure := NoFailure,
              times := m.times.(nextAction := now + PEER_RETRY_DELAY_MS, confirmUntil := 0, frameDeadline := 0,
                                keepaliveNext := 0),
              counts := m.counts.(attempts := 0, busy := 0, misses := 0),
              flags := m.flags.(mediaReady := false, retryAfterStop := false, retryReady := true,
                                retryWaiting := false, peerStopSeen := true, stopSent := false)))
  }

  // ---------------------------------------------------------------------------
  // Starting.

  predicate Startable(local: Address, station: Address, ipv4: u32, generation: u64) {
    local != NOBODY && StationValid(station) && ipv4 != 0 && generation != 0
  }

  function Started(m: Monitor, local: Address, station: Address, ipv4: u32, generation: u64,
                   now: u64): Option<Monitor> {
    if || !Startable(local, station, ipv4, generation) || (m.state != Idle && m.state != Failed)
       || (m.generation != 0 && now < m.lastNow) || m.generation == U64_MAX then None
    else
      Some(ZEROED.(policy := m.policy.(frameTimeout := FrameTimeout(m)), state := Requesting,
                   peer := Peer(local, station, ipv4), generation := generation, lastNow := now,
                   times := ZEROED.times.(nextAction := Max(now, m.policy.cooldownUntil))))
  }

  /** A call's video arrives without being asked for. */
  function Bound(m: Monitor, local: Address, station: Address, ipv4: u32, generation: u64,
                 now: u64): Option<Monitor> {
    if !Startable(local, station, ipv4, generation) || now < m.lastNow || now > U64_MAX - FrameTimeout(m) then None
    else
      Some(ZEROED.(policy := ZEROED.policy.(frameTimeout := FrameTimeout(m)), state := AwaitingVideo,
                   peer := Peer(local, station, ipv4), generation := generation, lastNow := now,
                   times := ZEROED.times.(frameDeadline := now + FrameTimeout(m))))
  }

  // ---------------------------------------------------------------------------
  // Time.

  /** A full preview that has not shown a picture yet is patient. */
  predicate Unproven(m: Monitor) {
    m.policy.grace && !m.flags.established
  }

  function ToStation(m: Monitor, opcode: byte, payload: seq<byte>): Frame {
    Frame(m.peer.station, m.peer.local, 0x03, opcode, payload)
  }

  datatype Turn = Turn(m: Monitor, action: Option<Frame>)

  function Asked(m: Monitor, now: u64): Turn {
    var sent := m.(times := m.times.(firstRequest := if m.counts.attempts == 0 then now else m.times.firstRequest),
                   counts := m.counts.(attempts := Raised(m.counts.attempts)),
                   flags := m.flags.(retryWaiting := false));
    var request := Some(ToStation(m, 0x04, REQUEST_PAYLOAD));
    if now > U64_MAX - REQUEST_INTERVAL_MS then Turn(Broken(sent, Timeout), request)
    else
      var next: u64 := now + REQUEST_INTERVAL_MS;
      Turn(sent.(times := sent.times.(nextAction := next, notBefore := next, confirmUntil := next)), request)
  }

  function TurnRequesting(m: Monitor, now: u64): Turn {
    if now < m.times.nextAction || (Unproven(m) && now < m.times.notBefore) then Turn(m, None)
    else if !m.policy.persistent && m.counts.attempts >= MAX_REQUESTS then Turn(Broken(m, Timeout), None)
    else Asked(m, now)
  }

  function NextBeat(now: u64): u64 {
    if now > U64_MAX - KEEPALIVE_INTERVAL_MS then 0 else now + KEEPALIVE_INTERVAL_MS
  }

  function Beaten(m: Monitor, now: u64): Turn {
    Turn(m.(counts := m.counts.(misses := Raised(m.counts.misses)),
            times := m.times.(keepaliveNext := NextBeat(now))),
         Some(ToStation(m, 0x51, [])))
  }

  function TurnStopping(m: Monitor, now: u64): Turn {
    if !m.flags.stopSent then
      Turn(if now > U64_MAX - STOP_TIMEOUT_MS then m.(flags := m.flags.(stopSent := true), state := Idle,
                                                      failure := StopTimeout)
           else m.(flags := m.flags.(stopSent := true), times := m.times.(nextAction := now + STOP_TIMEOUT_MS)),
           Some(ToStation(m, 0x02, [0])))
    else if now < m.times.nextAction then Turn(m, None)
    else if !m.flags.retryAfterStop then Turn(m.(state := Idle, failure := StopTimeout,
                                                 flags := m.flags.(mediaReady := false)), None)
    else if m.generation == U64_MAX then Turn(Broken(m, StopTimeout), None)
    else
      Turn(m.(generation := m.generation + 1, state := Requesting, failure := NoFailure,
              times := m.times.(nextAction := now),
              flags := m.flags.(mediaReady := false, retryAfterStop := false, retryReady := true, stopSent := false),
              counts := m.counts.(attempts := 0, busy := 0)),
           None)
  }

  predicate FrameOverdue(m: Monitor, now: u64) {
    m.state == AwaitingVideo && m.times.frameDeadline != 0 && !m.flags.mediaReady && now >= m.times.frameDeadline
  }

  predicate BeatDue(m: Monitor, now: u64) {
    && m.policy.persistent && Playing(m.state) && m.flags.mediaReady
    && m.times.keepaliveNext != 0 && now >= m.times.keepaliveNext
  }

  /** One step of time; None when the clock ran backwards. */
  function Stepped(m: Monitor, now: u64): Option<Turn> {
    if now < m.lastNow then None
    else
      var next := m.(lastNow := now);
      if m.state == Requesting then Some(TurnRequesting(next, now))
      else if FrameOverdue(m, now) then
        Some(Turn(if m.policy.persistent then Retried(next, now).value else Broken(next, FirstFrameTimeout), None))
      else if BeatDue(m, now) then Some(Beaten(next, now))
      else if m.state == Stopping then Some(TurnStopping(next, now))
      else Some(Turn(next, None))
  }

  // ---------------------------------------------------------------------------
  // Frames from the station.

  datatype Report = Report(
    confirmed: bool, keepaliveReply: bool, hangupReply: bool, retrying: bool, retryReady: bool,
    stopped: bool, failed: bool)

  const QUIET := Report(false, false, false, false, false, false, false)

  /** A frame that is not accepted may still have moved the clock. */
  datatype Reply = Reply(m: Monitor, accepted: bool, report: Report)

  function Refused(m: Monitor): Reply {
    Reply(m, false, QUIET)
  }

  predicate FromStation(m: Monitor, f: Frame, ipv4: u32) {
    f.family == 0x03 && ipv4 == m.peer.ipv4 && f.source == m.peer.station && f.destination == m.peer.local
  }

  /** The first picture may overtake the confirmation of its request. */
  predicate VideoFirst(m: Monitor, now: u64) {
    m.flags.mediaReady && Playing(m.state) && m.times.confirmUntil != 0 && now < m.times.confirmUntil
  }

  function ReadConfirmation(m: Monitor, f: Frame, now: u64): Reply {
    if f.payload != CONFIRMATION_PAYLOAD || now > U64_MAX - m.policy.frameTimeout then Refused(m)
    else
      var settled := m.(lastNow := now, times := m.times.(confirmUntil := 0),
                        counts := m.counts.(busy := 0, misses := 0), failure := NoFailure,
                        flags := m.flags.(peerStopSeen := false, retryWaiting := false));
      Reply(if !VideoFirst(m, now) then
              settled.(state := AwaitingVideo, times := settled.times.(frameDeadline := now + m.policy.frameTimeout,
                                                                       keepaliveNext := now))
            else if m.state == AwaitingVideo && m.times.frameDeadline == 0 then
              settled.(times := settled.times.(frameDeadline := now + m.policy.frameTimeout))
            else settled,
            true, QUIET.(confirmed := true))
  }

  function ReadBusy(m: Monitor, f: Frame, now: u64): Reply {
    if f.payload != [] || (Unproven(m) && m.counts.attempts == 0) then Refused(m)
    else
      var busy := if m.policy.persistent then Raised(m.counts.busy) else m.counts.busy;
      var noted := m.(lastNow := now, times := m.times.(confirmUntil := 0),
                      counts := m.counts.(busy := busy));
      if m.policy.persistent &&
         (if Unproven(m) then now - m.times.firstRequest >= STARTUP_BUSY_WINDOW_MS
          else noted.counts.busy >= if m.flags.established then RECOVERY_BUSY_LIMIT else STARTUP_BUSY_LIMIT) then
        Reply(noted.(state := Stopping,
                     times := noted.times.(nextAction := now, frameDeadline := 0, keepaliveNext := 0),
                     flags := noted.flags.(mediaReady := false, retryAfterStop := true, retryReady := false,
                                           retryWaiting := false, peerStopSeen := false, stopSent := false)),
              true, QUIET.(retrying := true))
      else Reply(noted, true, QUIET)
  }

  /** A keep-alive of the station's own (opcode 51) is answered; its answer to ours is not. */
  function ReadKeepAlive(m: Monitor, f: Frame, now: u64): Reply {
    if f.payload != [] then Refused(m)
    else
      Reply(m.(lastNow := now, counts := m.counts.(misses := 0),
               times := m.times.(keepaliveNext := NextBeat(now))),
            true, QUIET.(keepaliveReply := f.opcode == 0x51))
  }

  function ReadFinalHangup(m: Monitor, now: u64): Reply
    requires now <= U64_MAX - PEER_RETRY_DELAY_MS
  {
    if m.flags.peerStopSeen then Reply(m, true, QUIET)
    else if m.policy.persistent && m.generation == U64_MAX then
      Reply(Broken(m, StopTimeout), true, QUIET.(hangupReply := true, failed := true))
    else
      Reply(m.(generation := if m.policy.persistent then m.generation + 1 else m.generation, state := Requesting,
               failure := NoFailure,
               times := m.times.(nextAction := now + PEER_RETRY_DELAY_MS, frameDeadline := 0, keepaliveNext := 0),
               flags := m.flags.(mediaReady := false, retryWaiting := true, peerStopSeen := true, stopSent := false),
               counts := m.counts.(misses := 0, attempts := if m.policy.persistent then 0 else m.counts.attempts,
                                   busy := 0)),
            true, QUIET.(hangupReply := true, retrying := true))
  }

  function ReadSoftHangup(m: Monitor, now: u64): Reply
    requires now <= U64_MAX - REQUEST_INTERVAL_MS
  {
    var answered := QUIET.(hangupReply := true);
    if m.flags.retryWaiting || (m.policy.persistent && m.flags.peerStopSeen) then
      Reply(m, true, answered.(retrying := !m.flags.peerStopSeen))
    else if !m.policy.persistent then
      Reply(m.(state := Requesting, failure := NoFailure,
               times := m.times.(nextAction := now + REQUEST_INTERVAL_MS, frameDeadline := 0, keepaliveNext := 0),
               flags := m.flags.(mediaReady := false, retryWaiting := true, stopSent := false),
               counts := m.counts.(misses := 0)),
            true, answered.(retrying := !m.flags.peerStopSeen))
    else
      match Restarted(m, now)
      case None => Reply(Broken(m, StopTimeout), true, answered.(failed := true))
      case Some(again) => Reply(again.(flags := again.flags.(retryReady := false)), true,
                                answered.(retrying := true))
  }

  function ReadHangup(m: Monitor, f: Frame, now: u64): Reply {
    if || |f.payload| != 1 || f.payload[0] > 1
       || now > U64_MAX - (if f.payload[0] == 1 then PEER_RETRY_DELAY_MS else REQUEST_INTERVAL_MS) then Refused(m)
    else if f.payload[0] == 1 then ReadFinalHangup(m.(lastNow := now), now)
    else ReadSoftHangup(m.(lastNow := now), now)
  }

  /** Both sides hung up at once. */
  function ReadCrossedHangup(m: Monitor, f: Frame, now: u64): Reply {
    if |f.payload| != 1 || f.payload[0] > 1 then Refused(m)
    else
      var next := m.(lastNow := now);
      var answered := QUIET.(hangupReply := f.payload[0] == 0);
      if !m.flags.retryAfterStop then
        Reply(next.(state := Idle, failure := NoFailure, flags := next.flags.(mediaReady := false)), true,
              answered.(stopped := true))
      else
        match Restarted(next, now)
        case None => Refused(next)
        case Some(again) => Reply(again, true, answered.(retryReady := true))
  }

  function ReadStopped(m: Monitor, now: u64): Reply {
    var next := m.(lastNow := now);
    if !m.flags.retryAfterStop then
      Reply(next.(state := Idle, failure := NoFailure, flags := next.flags.(mediaReady := false)), true,
            QUIET.(stopped := true))
    else if m.generation == U64_MAX then Reply(Broken(next, StopTimeout), true, QUIET.(failed := true))
    else
      Reply(next.(generation := m.generation + 1, state := Requesting, failure := NoFailure,
                  times := next.times.(nextAction := now, keepaliveNext := 0),
                  flags := next.flags.(mediaReady := false, retryAfterStop := false, retryReady := true,
                                       peerStopSeen := false, stopSent := false),
                  counts := next.counts.(attempts := 0, busy := 0, misses := 0)),
            true, QUIET.(retryReady := true))
  }

  predicate AwaitsConfirmation(m: Monitor, now: u64) {
    (m.state == Requesting || VideoFirst(m, now)) && !m.flags.retryWaiting
  }

  function Received(m: Monitor, f: Frame, ipv4: u32, now: u64): Reply {
    if now < m.lastNow || !FromStation(m, f, ipv4) then Refused(m)
    else if AwaitsConfirmation(m, now) && f.opcode == 0x84 then ReadConfirmation(m, f, now)
    else if m.state == Requesting && !m.flags.retryWaiting && f.opcode == 0x50 then ReadBusy(m, f, now)
    else if Active(m.state) && (f.opcode == 0x51 || f.opcode == 0x52) then ReadKeepAlive(m, f, now)
    else if Active(m.state) && f.opcode == 0x02 then ReadHangup(m, f, now)
    else if m.state == Stopping && f.opcode == 0x02 then ReadCrossedHangup(m, f, now)
    else if m.state == Stopping && f.opcode == 0x82 && f.payload == [] then ReadStopped(m, now)
    else Refused(m)
  }

  // ---------------------------------------------------------------------------
  // Pictures, and stopping.

  predicate Admits(m: Monitor, source: Address, destination: Address, ipv4: u32, generation: u64, now: u64) {
    && now >= m.lastNow && generation != 0 && generation == m.generation && ipv4 == m.peer.ipv4
    && !m.flags.peerStopSeen
    && ((m.state == Requesting && !m.flags.retryWaiting) || Playing(m.state))
    && source == m.peer.station && destination == m.peer.local
  }

  function Admitted(m: Monitor, source: Address, destination: Address, ipv4: u32, generation: u64,
                    now: u64): Option<Monitor> {
    if !Admits(m, source, destination, ipv4, generation, now) then None
    else
      var first := m.state == Requesting;
      Some(m.(lastNow := now,
              times := m.times.(keepaliveNext := if first then now else m.times.keepaliveNext,
                                nextAction := if first then 0 else m.times.nextAction),
              flags := m.flags.(retryReady := false, mediaReady := true,
                                established := m.flags.established || !m.flags.mediaReady),
              counts := m.counts.(misses := 0), state := if first then AwaitingVideo else m.state))
  }

  function MarkedPublishing(m: Monitor, generation: u64, now: u64): Option<Monitor> {
    if || generation == 0 || generation != m.generation || now < m.lastNow || !m.flags.mediaReady
       || m.state != AwaitingVideo then None
    else Some(m.(lastNow := now, state := Publishing))
  }

  function Stopped(m: Monitor, generation: u64, now: u64): Option<Monitor> {
    if || generation == 0 || generation != m.generation || now < m.lastNow || !Active(m.state)
       || now > U64_MAX - STOP_COOLDOWN_MS then None
    else
      Some(m.(lastNow := now, state := Stopping, times := m.times.(nextAction := now, keepaliveNext := 0),
              policy := m.policy.(cooldownUntil := now + STOP_COOLDOWN_MS),
              flags := m.flags.(retryAfterStop := false, retryReady := false, retryWaiting := false,
                                peerStopSeen := false, stopSent := false),
              counts := m.counts.(misses := 0)))
  }

  // ---------------------------------------------------------------------------
  // Whom it talks to.

  /** Whatever happens, a monitor keeps its peer, and an idle one stays idle. */
  predicate KeepsPeer(m: Monitor, n: Monitor) {
    n.peer == m.peer && (m.state == Idle ==> n.state == Idle)
  }

  /** The five frames of this dialogue. */
  predicate WellSpoken(f: Frame) {
    && f.family == 0x03
    && (|| (f.opcode == 0x04 && f.payload == REQUEST_PAYLOAD) || (f.opcode == 0x02 && f.payload == [0])
        || ((f.opcode == 0x51 || f.opcode == 0x52 || f.opcode == 0x82) && f.payload == []))
  }

  lemma StepKeepsPeer(m: Monitor, now: u64)
    requires Stepped(m, now).Some?
    ensures var turn := Stepped(m, now).value;
            && KeepsPeer(m, turn.m)
            && (turn.action.Some? ==>
                  && m.state != Idle && WellSpoken(turn.action.value)
                  && turn.action.value.destination == m.peer.station && turn.action.value.source == m.peer.local)
  {
  }

  /** A monitor that starts or is bound to a call gets its peer. */
  lemma OpeningMeetsPeer(m: Monitor, local: Address, station: Address, ipv4: u32, generation: u64, now: u64)
    ensures Started(m, local, station, ipv4, generation, now).Some? ==>
              Started(m, local, station, ipv4, generation, now).value.peer == Peer(local, station, ipv4)
    ensures Bound(m, local, station, ipv4, generation, now).Some? ==>
              Bound(m, local, station, ipv4, generation, now).value.peer == Peer(local, station, ipv4)
  {
  }

  lemma ReceptionKeepsPeer(m: Monitor, f: Frame, ipv4: u32, now: u64)
    ensures KeepsPeer(m, Received(m, f, ipv4, now).m)
    ensures Received(m, f, ipv4, now).accepted ==>
              m.state != Idle && f.source == m.peer.station && f.destination == m.peer.local
  {
    hide ReadConfirmation, ReadBusy, ReadKeepAlive, ReadHangup, ReadCrossedHangup, ReadStopped;
    ReadingKeepsPeer(m, f, now);
  }

  lemma ReadingKeepsPeer(m: Monitor, f: Frame, now: u64)
    ensures m.state != Idle ==>
              && KeepsPeer(m, ReadConfirmation(m, f, now).m) && KeepsPeer(m, ReadBusy(m, f, now).m)
              && KeepsPeer(m, ReadKeepAlive(m, f, now).m) && KeepsPeer(m, ReadHangup(m, f, now).m)
              && KeepsPeer(m, ReadCrossedHangup(m, f, now).m) && KeepsPeer(m, ReadStopped(m, now).m)
  {
  }

  lemma OtherwiseKeepsPeer(m: Monitor, source: Address, destination: Address, ipv4: u32, generation: u64, now: u64)
    ensures Admitted(m, source, destination, ipv4, generation, now).Some? ==>
              KeepsPeer(m, Admitted(m, source, destination, ipv4, generation, now).value)
    ensures MarkedPublishing(m, generation, now).Some? ==> KeepsPeer(m, MarkedPublishing(m, generation, now).value)
    ensures Stopped(m, generation, now).Some? ==> KeepsPeer(m, Stopped(m, generation, now).value)
    ensures Retried(m, now).Some? ==> KeepsPeer(m, Retried(m, now).value)
  {
  }

  // ---------------------------------------------------------------------------
  // In place.

  class PreviewMonitor {
    /** The C struct. */
    var m: Monitor

    constructor From(value: Monitor)
      ensures m == value
    {
      m := value;
    }

    method Fail(failure: Failure)
      modifies this
      ensures m == Broken(old(m), failure)
    {
      m := m.(state := Failed, failure := failure);
      m := m.(times := m.times.(nextAction := 0, confirmUntil := 0, frameDeadline := 0, keepaliveNext := 0));
      m := m.(flags := m.flags.(mediaReady := false, retryAfterStop := false, retryReady := false,
                                retryWaiting := false));
      m := m.(counts := m.counts.(misses := 0), flags := m.flags.(peerStopSeen := false));
    }

    method RequestRetry(now: u64) returns (status: Status)
      modifies this
      ensures status == (if Retried(old(m), now).Some? then Ok else Invalid)
      ensures m == (if status == Ok then Retried(old(m), now).value else old(m))
    {
      if !m.policy.persistent || now < m.lastNow || !Active(m.state) {
        return Invalid;
      }
      m := m.(lastNow := now, state := Stopping, failure := NoFailure, times := m.times.(nextAction := now));
      m := m.(times := m.times.(confirmUntil := 0, frameDeadline := 0, keepaliveNext := 0),
              flags := m.flags.(mediaReady := false));
      m := m.(flags := m.flags.(retryAfterStop := true, retryReady := false, retryWaiting := false));
      m := m.(counts := m.counts.(misses := 0), flags := m.flags.(peerStopSeen := false, stopSent := false));
      return Ok;
    }

    method RestartAfterPeerStop(now: u64) returns (status: Status)
      modifies this
      ensures status == (if Restarted(old(m), now).Some? then Ok else Invalid)
      ensures m == (if status == Ok then Restarted(old(m), now).value else old(m))
    {
      if now < m.lastNow || m.generation == U64_MAX || now > U64_MAX - PEER_RETRY_DELAY_MS {
        return Invalid;
      }
      m := m.(lastNow := now, generation := m.generation + 1, state := Requesting, failure := NoFailure);
      m := m.(times := m.times.(nextAction := now + PEER_RETRY_DELAY_MS, confirmUntil := 0, frameDeadline := 0,
                                keepaliveNext := 0));
      m := m.(counts := m.counts.(attempts := 0, busy := 0, misses := 0), flags := m.flags.(mediaReady := false));
      m := m.(flags := m.flags.(retryAfterStop := false, retryReady := true, retryWaiting := false));
      m := m.(flags := m.flags.(peerStopSeen := true, stopSent := false));
      return Ok;
    }

    method Start(local: Address, station: Address, ipv4: u32, generation: u64, now: u64) returns (status: Status)
      modifies this
      ensures var b := Started(old(m), local, station, ipv4, generation, now);
              if b.None? then status == Invalid && m == old(m) else status == Ok && m == b.value
    {
      if local == NOBODY || !StationValid(station) || ipv4 == 0 || generation == 0 {
        return Invalid;
      }
      if (m.state != Idle && m.state != Failed) || (m.generation != 0 && now < m.lastNow) || m.generation == U64_MAX {
        return Invalid;
      }
      var was := m;
      m := ZEROED.(policy := ZEROED.policy.(frameTimeout := FrameTimeout(was), persistent := was.policy.persistent,
                                            grace := was.policy.grace));
      m := m.(state := Requesting, peer := m.peer.(local := local, station := station, ipv4 := ipv4));
      m := m.(generation := generation, lastNow := now,
              policy := m.policy.(cooldownUntil := was.policy.cooldownUntil));
      var cooldown := was.policy.cooldownUntil;
      m := m.(times := m.times.(nextAction := if now < cooldown then cooldown else now));
      return Ok;
    }

    method BindCall(local: Address, station: Address, ipv4: u32, generation: u64, now: u64) returns (status: Status)
      modifies this
      ensures var b := Bound(old(m), local, station, ipv4, generation, now);
              if b.None? then status == Invalid && m == old(m) else status == Ok && m == b.value
    {
      if local == NOBODY || !StationValid(station) || ipv4 == 0 || generation == 0 || now < m.lastNow {
        return Invalid;
      }
      var timeout := FrameTimeout(m);
      if now > U64_MAX - timeout {
        return Invalid;
      }
      m := ZEROED.(policy := ZEROED.policy.(frameTimeout := timeout), state := AwaitingVideo);
      m := m.(peer := m.peer.(local := local, station := station, ipv4 := ipv4), generation := generation);
      m := m.(lastNow := now, times := m.times.(frameDeadline := now + timeout));
      return Ok;
    }

    method Request(now: u64) returns (action: Option<Frame>)
      requires m.lastNow == now
      modifies this
      ensures Turn(m, action) == Asked(old(m), now)
    {
      action := Some(Frame(m.peer.station, m.peer.local, 0x03, 0x04, REQUEST_PAYLOAD));
      if m.counts.attempts == 0 {
        m := m.(times := m.times.(firstRequest := now));
      }
      if m.counts.attempts != 0xFFFF_FFFF {
        m := m.(counts := m.counts.(attempts := m.counts.attempts + 1));
      }
      m := m.(flags := m.flags.(retryWaiting := false));
      if now > U64_MAX - REQUEST_INTERVAL_MS {
        Fail(Timeout);
      } else {
        m := m.(times := m.times.(nextAction := now + REQUEST_INTERVAL_MS));
        m := m.(times := m.times.(notBefore := m.times.nextAction, confirmUntil := m.times.nextAction));
      }
    }

    method StepStopping(now: u64) returns (action: Option<Frame>)
      requires m.lastNow == now
      modifies this
      ensures Turn(m, action) == TurnStopping(old(m), now)
    {
      action := None;
      if !m.flags.stopSent {
        action := Some(Frame(m.peer.station, m.peer.local, 0x03, 0x02, [0]));
        m := m.(flags := m.flags.(stopSent := true));
        if now > U64_MAX - STOP_TIMEOUT_MS {
          m := m.(state := Idle, failure := StopTimeout);
        } else {
          m := m.(times := m.times.(nextAction := now + STOP_TIMEOUT_MS));
        }
        return;
      }
      if now >= m.times.nextAction {
        if m.flags.retryAfterStop {
          if m.generation == U64_MAX {
            Fail(StopTimeout);
          } else {
            m := m.(generation := m.generation + 1, state := Requesting, failure := NoFailure,
                    times := m.times.(nextAction := now));
            m := m.(flags := m.flags.(mediaReady := false, retryAfterStop := false, retryReady := true,
                                      stopSent := false));
            m := m.(counts := m.counts.(attempts := 0, busy := 0));
          }
        } else {
          m := m.(state := Idle, failure := StopTimeout, flags := m.flags.(mediaReady := false));
        }
      }
    }

    method Step(now: u64) returns (status: Status, action: Option<Frame>)
      modifies this
      ensures var b := Stepped(old(m), now);
              if b.None? then status == Invalid && action == None && m == old(m)
              else status == Ok && Turn(m, action) == b.value
    {
      action := None;
      if now < m.lastNow {
        return Invalid, None;
      }
      m := m.(lastNow := now);
      if m.state == Requesting {
        if now < m.times.nextAction {
          return Ok, None;
        }
        if m.policy.grace && !m.flags.established && now < m.times.notBefore {
          return Ok, None;
        }
        if !m.policy.persistent && m.counts.attempts >= MAX_REQUESTS {
          Fail(Timeout);
          return Ok, None;
        }
        action := Request(now);
        return Ok, action;
      }
      if m.state == AwaitingVideo && m.times.frameDeadline != 0 && !m.flags.mediaReady
         && now >= m.times.frameDeadline
      {
        if !m.policy.persistent {
          Fail(FirstFrameTimeout);
        } else {
          status := RequestRetry(now);
        }
        return Ok, None;
      }
      if m.policy.persistent && Playing(m.state) && m.flags.mediaReady && m.times.keepaliveNext != 0
         && now >= m.times.keepaliveNext
      {
        action := Some(Frame(m.peer.station, m.peer.local, 0x03, 0x51, []));
        if m.counts.misses != 0xFFFF_FFFF {
          m := m.(counts := m.counts.(misses := m.counts.misses + 1));
        }
        if now > U64_MAX - KEEPALIVE_INTERVAL_MS {
          m := m.(times := m.times.(keepaliveNext := 0));
        } else {
          m := m.(times := m.times.(keepaliveNext := now + KEEPALIVE_INTERVAL_MS));
        }
        return Ok, action;
      }
      if m.state == Stopping {
        action := StepStopping(now);
      }
      return Ok, action;
    }

    method ReceiveConfirmation(f: Frame, now: u64) returns (status: Status, report: Report)
      modifies this
      ensures Reply(m, status == Ok, report) == ReadConfirmation(old(m), f, now)
    {
      report := QUIET;
      if f.payload != CONFIRMATION_PAYLOAD || now > U64_MAX - m.policy.frameTimeout {
        return Invalid, report;
      }
      var videoFirst := VideoFirst(m, now);
      m := m.(lastNow := now, times := m.times.(confirmUntil := 0));
      if !videoFirst {
        m := m.(state := AwaitingVideo, times := m.times.(frameDeadline := now + m.policy.frameTimeout,
                                                          keepaliveNext := now));
      } else if m.state == AwaitingVideo && m.times.frameDeadline == 0 {
        m := m.(times := m.times.(frameDeadline := now + m.policy.frameTimeout));
      }
      m := m.(counts := m.counts.(busy := 0, misses := 0), failure := NoFailure,
              flags := m.flags.(peerStopSeen := false, retryWaiting := false));
      return Ok, report.(confirmed := true);
    }

    method ReceiveBusy(f: Frame, now: u64) returns (status: Status, report: Report)
      requires m.lastNow <= now
      modifies this
      ensures Reply(m, status == Ok, report) == ReadBusy(old(m), f, now)
    {
      report := QUIET;
      if f.payload != [] || (m.policy.grace && !m.flags.established && m.counts.attempts == 0) {
        return Invalid, report;
      }
      m := m.(lastNow := now, times := m.times.(confirmUntil := 0));
      if m.policy.persistent && m.counts.busy < 0xFFFF_FFFF {
        m := m.(counts := m.counts.(busy := m.counts.busy + 1));
      }
      var startup := m.policy.grace && !m.flags.established;
      if m.policy.persistent &&
         (if startup then now - m.times.firstRequest >= STARTUP_BUSY_WINDOW_MS
          else m.counts.busy >= if m.flags.established then RECOVERY_BUSY_LIMIT else STARTUP_BUSY_LIMIT)
      {
        m := m.(state := Stopping, times := m.times.(nextAction := now, frameDeadline := 0, keepaliveNext := 0),
                flags := m.flags.(mediaReady := false));
        m := m.(flags := m.flags.(retryAfterStop := true, retryReady := false, retryWaiting := false));
        m := m.(flags := m.flags.(peerStopSeen := false, stopSent := false));
        return Ok, report.(retrying := true);
      }
      return Ok, report;
    }

    method ReceiveHangup(f: Frame, now: u64) returns (status: Status, report: Report)
      requires m.lastNow <= now
      modifies this
      ensures Reply(m, status == Ok, report) == ReadHangup(old(m), f, now)
    {
      report := QUIET;
      if |f.payload| != 1 || f.payload[0] > 1 {
        return Invalid, report;
      }
      if now > U64_MAX - (if f.payload[0] == 1 then PEER_RETRY_DELAY_MS else REQUEST_INTERVAL_MS) {
        return Invalid, report;
      }
      m := m.(lastNow := now);
      if f.payload[0] == 1 {
        if m.flags.peerStopSeen {
          return Ok, report;
        }
        report := report.(hangupReply := true);
        if m.policy.persistent {
          if m.generation == U64_MAX {
            Fail(StopTimeout);
            return Ok, report.(failed := true);
          }
          m := m.(generation := m.generation + 1);
        }
        m := m.(state := Requesting, failure := NoFailure,
                times := m.times.(nextAction := now + PEER_RETRY_DELAY_MS));
        m := m.(times := m.times.(frameDeadline := 0, keepaliveNext := 0),
                flags := m.flags.(mediaReady := false, retryWaiting := true), counts := m.counts.(misses := 0));
        m := m.(flags := m.flags.(peerStopSeen := true, stopSent := false));
        if m.policy.persistent {
          m := m.(counts := m.counts.(attempts := 0));
        }
        m := m.(counts := m.counts.(busy := 0));
        return Ok, report.(retrying := true);
      }
      if !m.flags.retryWaiting {
        if !m.policy.persistent {
          m := m.(state := Requesting, failure := NoFailure,
                  times := m.times.(nextAction := now + REQUEST_INTERVAL_MS));
          m := m.(times := m.times.(frameDeadline := 0, keepaliveNext := 0),
                  flags := m.flags.(mediaReady := false, retryWaiting := true), counts := m.counts.(misses := 0));
          m := m.(flags := m.flags.(stopSent := false));
        } else if !m.flags.peerStopSeen {
          var again := RestartAfterPeerStop(now);
          if again != Ok {
            Fail(StopTimeout);
            report := report.(failed := true);
          } else {
            m := m.(flags := m.flags.(retryReady := false));
            report := report.(retrying := true);
          }
          return Ok, report.(hangupReply := true);
        }
      }
      return Ok, report.(hangupReply := true, retrying := !m.flags.peerStopSeen);
    }

    method ReceiveCrossedHangup(f: Frame, now: u64) returns (status: Status, report: Report)
      requires m.lastNow <= now
      modifies this
      ensures Reply(m, status == Ok, report) == ReadCrossedHangup(old(m), f, now)
    {
      report := QUIET;
      if |f.payload| != 1 || f.payload[0] > 1 {
        return Invalid, report;
      }
      m := m.(lastNow := now);
      if m.flags.retryAfterStop {
        var again := RestartAfterPeerStop(now);
        if again != Ok {
          return Invalid, report;
        }
        return Ok, report.(hangupReply := f.payload[0] == 0, retryReady := true);
      }
      m := m.(state := Idle, failure := NoFailure, flags := m.flags.(mediaReady := false));
      return Ok, report.(hangupReply := f.payload[0] == 0, stopped := true);
    }

    method ReceiveStopped(now: u64) returns (report: Report)
      modifies this
      ensures Reply(m, true, report) == ReadStopped(old(m), now)
    {
      report := QUIET;
      m := m.(lastNow := now);
      if m.flags.retryAfterStop {
        if m.generation == U64_MAX {
          Fail(StopTimeout);
          report := report.(failed := true);
        } else {
          m := m.(generation := m.generation + 1, state := Requesting, failure := NoFailure,
                  times := m.times.(nextAction := now));
          m := m.(times := m.times.(keepaliveNext := 0),
                  flags := m.flags.(mediaReady := false, retryAfterStop := false, retryReady := true));
          m := m.(flags := m.flags.(peerStopSeen := false, stopSent := false),
                  counts := m.counts.(attempts := 0, busy := 0, misses := 0));
          report := report.(retryReady := true);
        }
      } else {
        m := m.(state := Idle, failure := NoFailure, flags := m.flags.(mediaReady := false));
        report := report.(stopped := true);
      }
    }

    method Receive(f: Frame, ipv4: u32, now: u64) returns (status: Status, report: Report)
      modifies this
      ensures Reply(m, status == Ok, report) == Received(old(m), f, ipv4, now)
    {
      report := QUIET;
      if now < m.lastNow || !FromStation(m, f, ipv4) {
        return Invalid, report;
      }
      if (m.state == Requesting || VideoFirst(m, now)) && !m.flags.retryWaiting && f.opcode == 0x84 {
        status, report := ReceiveConfirmation(f, now);
        return;
      }
      if m.state == Requesting && !m.flags.retryWaiting && f.opcode == 0x50 {
        status, report := ReceiveBusy(f, now);
        return;
      }
      if Active(m.state) && (f.opcode == 0x51 || f.opcode == 0x52) {
        if f.payload != [] {
          return Invalid, report;
        }
        m := m.(lastNow := now);
        m := m.(times := m.times.(keepaliveNext := NextBeat(now)));
        m := m.(counts := m.counts.(misses := 0));
        return Ok, report.(keepaliveReply := f.opcode == 0x51);
      }
      if Active(m.state) && f.opcode == 0x02 {
        status, report := ReceiveHangup(f, now);
        return;
      }
      if m.state == Stopping && f.opcode == 0x02 {
        status, report := ReceiveCrossedHangup(f, now);
        return;
      }
      if m.state == Stopping && f.opcode == 0x82 && f.payload == [] {
        report := ReceiveStopped(now);
        return Ok, report;
      }
      return Invalid, report;
    }

    method AdmitJpeg(source: Address, destination: Address, ipv4: u32, generation: u64, now: u64)
      returns (status: Status)
      modifies this
      ensures var b := Admitted(old(m), source, destination, ipv4, generation, now);
              if b.None? then status == Invalid && m == old(m) else status == Ok && m == b.value
    {
      if now < m.lastNow || generation == 0 || generation != m.generation || ipv4 != m.peer.ipv4
         || m.flags.peerStopSeen
      {
        return Invalid;
      }
      if (m.state == Requesting && m.flags.retryWaiting) || !Active(m.state) || source != m.peer.station
         || destination != m.peer.local
      {
        return Invalid;
      }
      m := m.(lastNow := now);
      m := m.(times := m.times.(keepaliveNext := if m.state == Requesting then now else m.times.keepaliveNext));
      m := m.(flags := m.flags.(retryReady := false), counts := m.counts.(misses := 0));
      if m.state == Requesting {
        m := m.(state := AwaitingVideo, times := m.times.(nextAction := 0));
      }
      if !m.flags.mediaReady {
        m := m.(flags := m.flags.(mediaReady := true, established := true));
      }
      return Ok;
    }

    method MarkPublishing(generation: u64, now: u64) returns (status: Status)
      modifies this
      ensures var b := MarkedPublishing(old(m), generation, now);
              if b.None? then status == Invalid && m == old(m) else status == Ok && m == b.value
    {
      if generation == 0 || generation != m.generation || now < m.lastNow || !m.flags.mediaReady
         || m.state != AwaitingVideo
      {
        return Invalid;
      }
      m := m.(lastNow := now);
      m := m.(state := Publishing);
      return Ok;
    }

    method Stop(generation: u64, now: u64) returns (status: Status)
      modifies this
      ensures var b := Stopped(old(m), generation, now);
              if b.None? then status == Invalid && m == old(m) else status == Ok && m == b.value
    {
      if generation == 0 || generation != m.generation || now < m.lastNow || !Active(m.state)
         || now > U64_MAX - STOP_COOLDOWN_MS
      {
        return Invalid;
      }
      m := m.(lastNow := now, state := Stopping, times := m.times.(nextAction := now),
              policy := m.policy.(cooldownUntil := now + STOP_COOLDOWN_MS));
      m := m.(flags := m.flags.(retryAfterStop := false, retryReady := false, retryWaiting := false),
              times := m.times.(keepaliveNext := 0));
      m := m.(counts := m.counts.(misses := 0), flags := m.flags.(peerStopSeen := false, stopSent := false));
      return Ok;
    }
  }
}
