/** What "confirmed" means to someone who waits to unlock a door: on every run, a confirmation
    that is reported was really asked for and answered in time, and nothing has happened
    since that makes it worthless (df_media_module_unlock_prepare_status_v1). */
module MediaConfirmations {
  import opened Words
  import opened MediaSessions
  import opened MediaManagers
  import opened MediaSoundness
  import Frames
  import M = Monitors

  /** What the notes of one session come to: its last request, its last confirmation and
      whether that came within a second of its request, and whether anything disturbed it. */
  datatype Trail = Trail(request: Option<(u64, u64)>, confirm: Option<(u64, u64)>, inTime: bool, disturbed: bool)

  const UNTOLD := Trail(None, None, false, false)

  predicate Answers(request: Option<(u64, u64)>, generation: u64, at: u64) {
    && request.Some? && request.value.0 == generation
    && request.value.1 <= at < request.value.1 + M.REQUEST_INTERVAL_MS
  }

  /** A request for video (03/04). */
  predicate IsRequest(f: Frame) {
    f.family == 0x03 && f.opcode == 0x04 && f.payload == M.REQUEST_PAYLOAD
  }

  function Asked(t: Trail, generation: u64, at: u64): Trail {
    t.(request := Some((generation, at)))
  }

  function Heard(t: Trail, n: Note): Trail {
    match n
    case FrameSent(generation, at, frame, _) => if IsRequest(frame) then Asked(t, generation, at) else t
    case ConfirmationTaken(generation, at) =>
      t.(confirm := Some((generation, at)), inTime := Answers(t.request, generation, at), disturbed := false)
    case Disturbed(_) => t.(disturbed := true)
  }

  function HeardAll(t: Trail, notes: seq<Note>): Trail {
    if notes == [] then t else Heard(HeardAll(t, notes[..|notes| - 1]), notes[|notes| - 1])
  }

  lemma {:induction false} HeardInTurn(t: Trail, a: seq<Note>, b: seq<Note>)
    ensures HeardAll(t, a + b) == HeardAll(HeardAll(t, a), b)
  {
    if b == [] {
      assert a + b == a;
    } else {
      assert (a + b)[..|a + b| - 1] == a + b[..|b| - 1];
      HeardInTurn(t, a, b[..|b| - 1]);
    }
  }

  lemma HeardFew(t: Trail, n: Note)
    ensures HeardAll(t, []) == t
    ensures HeardAll(t, [n]) == Heard(t, n)
  {
    assert [n][..0] == [];
  }

  /** Only requests matter to the trail. */
  lemma VoicedIsHeard(t: Trail, s: Slot, now: u64, action: Option<Frame>, sent: bool)
    ensures HeardAll(t, Voiced(s, now, action, sent)) ==
            if action.Some? && sent && IsRequest(action.value) then Asked(t, s.monitor.generation, now) else t
  {
    if action.Some? && sent {
      HeardFew(t, FrameSent(s.monitor.generation, now, action.value, s.owner.ipv4));
    }
  }

  lemma RepliesAreBeside(t: Trail, s: Slot, local: Address, report: M.Report, now: u64)
    ensures HeardAll(t, Replies(s, local, report, now)) == t
  {
    var beat := Frames.Frame(s.owner.station, local, 0x03, 0x52, []);
    var end := Frames.Frame(s.owner.station, local, 0x03, 0x82, []);
    VoicedIsHeard(t, s, now, Some(beat), report.keepaliveReply);
    VoicedIsHeard(t, s, now, Some(end), report.hangupReply);
    HeardInTurn(t, Voiced(s, now, Some(beat), report.keepaliveReply), Voiced(s, now, Some(end), report.hangupReply));
  }

  /** The hang-up of a stop is beside the point too. */
  lemma StopIsHeard(t: Trail, s: Slot, now: u64, sent: bool)
    requires M.Stopped(s.monitor, s.mediaGeneration, now).Some?
    ensures var turn := M.Stepped(M.Stopped(s.monitor, s.mediaGeneration, now).value, now).value;
            HeardAll(t, [Disturbed(LocalStop)] + Voiced(s, now, turn.action, sent)) == Heard(t, Disturbed(LocalStop))
  {
    var turn := M.Stepped(M.Stopped(s.monitor, s.mediaGeneration, now).value, now).value;
    HeardFew(t, Disturbed(LocalStop));
    VoicedIsHeard(Heard(t, Disturbed(LocalStop)), s, now, turn.action, sent);
    HeardInTurn(t, [Disturbed(LocalStop)], Voiced(s, now, turn.action, sent));
  }

  // ---------------------------------------------------------------------------
  // The monitor and the trail agree.

  /** An open window is that of the last request. */
  predicate Tracked(m: M.Monitor, t: Trail) {
    m.counts.attempts != 0 && m.times.confirmUntil != 0 ==>
      && m.times.confirmUntil - M.REQUEST_INTERVAL_MS <= m.lastNow
      && t.request.Some? && t.request.value.0 == m.generation
      && t.request.value.1 == m.times.confirmUntil - M.REQUEST_INTERVAL_MS
  }

  /** A confirmation of `generation` is no longer the one that counts. */
  predicate Past(m: M.Monitor, generation: u64) {
    generation < m.generation || m.state == M.Stopping || m.state == M.Idle || m.state == M.Failed
  }

  predicate Stands(m: M.Monitor, c: Confirmation, t: Trail) {
    c.current ==>
      && t.confirm.Some? && t.confirm.value.0 == c.generation && t.inTime && c.generation <= m.generation
      && (t.disturbed || m.flags.peerStopSeen || m.flags.retryWaiting ==> Past(m, c.generation))
  }

  predicate Faithful(m: M.Monitor, c: Confirmation, t: Trail) {
    Tracked(m, t) && Stands(m, c, t) && (m.policy.persistent || m.state == M.Idle)
  }

  /** Only slots that prepare an unlock are asked about. */
  predicate Believed(s: Slot, t: Trail) {
    s.preparationOnly ==>
      s.owner.active && s.owner.purpose == Preview && !s.handoff.out && Faithful(s.monitor, s.confirmation, t)
  }

  predicate Carries(s: Slot, c: Change, t: Trail) {
    Believed(s, t) ==> Believed(c.slot, HeardAll(t, c.notes))
  }

  lemma ThenCarries(s: Slot, a: Change, b: Change, t: Trail)
    requires Carries(s, a, t) && Carries(a.slot, b, HeardAll(t, a.notes))
    ensures Carries(s, Then(a, b), t)
  {
    HeardInTurn(t, a.notes, b.notes);
  }

  // ---------------------------------------------------------------------------
  // Monitor by monitor operation.

  lemma RequestingCarries(m: M.Monitor, now: u64, c: Confirmation, t: Trail)
    requires Faithful(m, c, t) && m.state == M.Requesting && m.lastNow == now
    ensures var turn := M.TurnRequesting(m, now);
            Faithful(turn.m, c, if turn.action.Some? then Asked(t, m.generation, now) else t)
    ensures M.TurnRequesting(m, now).action.Some? ==> IsRequest(M.TurnRequesting(m, now).action.value)
  {
  }

  lemma StoppingCarries(m: M.Monitor, now: u64, c: Confirmation, t: Trail)
    requires Faithful(m, c, t) && m.state == M.Stopping && m.lastNow == now
    ensures Faithful(M.TurnStopping(m, now).m, c, t)
    ensures M.TurnStopping(m, now).action.Some? ==> M.TurnStopping(m, now).action.value.opcode == 0x02
  {
  }

  /** One step of time, its request having gone out. */
  lemma StepCarries(m: M.Monitor, now: u64, c: Confirmation, t: Trail)
    requires Faithful(m, c, t) && M.Stepped(m, now).Some?
    ensures var turn := M.Stepped(m, now).value;
            Faithful(turn.m, c,
                     if turn.action.Some? && IsRequest(turn.action.value) then Asked(t, m.generation, now)
                     else if M.Playing(m.state) && turn.m.state == M.Stopping then Heard(t, Disturbed(Retry))
                     else t)
  {
    hide M.TurnRequesting, M.TurnStopping;
    var next := m.(lastNow := now);
    assert Faithful(next, c, t);
    if m.state == M.Requesting {
      RequestingCarries(next, now, c, t);
    } else if m.state == M.Stopping {
      StoppingCarries(next, now, c, t);
    }
  }

  lemma StopCarries(m: M.Monitor, generation: u64, now: u64, c: Confirmation, t: Trail)
    requires Faithful(m, c, t) && M.Stopped(m, generation, now).Some?
    ensures Faithful(M.Stopped(m, generation, now).value, c, Heard(t, Disturbed(LocalStop)))
    ensures Faithful(M.Stepped(M.Stopped(m, generation, now).value, now).value.m, c, Heard(t, Disturbed(LocalStop)))
  {
    var stopping := M.Stopped(m, generation, now).value;
    StoppingCarries(stopping, now, c, Heard(t, Disturbed(LocalStop)));
  }

  /** After a frame the manager may have to drop the flag (`retrying`, `failed`) or set it anew. */
  predicate ReplyCarries(m: M.Monitor, opcode: byte, now: u64, r: M.Reply, c: Confirmation, t: Trail) {
    var told := if opcode == 0x02 then Heard(t, Disturbed(PeerHangup)) else t;
    !(r.report.retryReady && r.report.failed) &&
    if !r.accepted then Faithful(r.m, c, t)
    else if r.report.confirmed then
      var inTime := m.counts.attempts != 0 && m.times.confirmUntil != 0 && now < m.times.confirmUntil;
      Faithful(r.m, Confirmation(inTime, r.m.generation), Heard(t, ConfirmationTaken(r.m.generation, now)))
    else if r.report.retrying then
      Faithful(r.m, c.(current := false), if opcode == 0x02 then told else Heard(t, Disturbed(Retry)))
    else if r.report.failed then Faithful(r.m, c.(current := false), told)
    else Faithful(r.m, c, told)
  }

  lemma BusyCarries(m: M.Monitor, f: Frame, now: u64, c: Confirmation, t: Trail)
    requires Faithful(m, c, t) && m.lastNow <= now && f.opcode != 0x02
    ensures ReplyCarries(m, f.opcode, now, M.ReadBusy(m, f, now), c, t)
  {
  }

  lemma ConfirmationCarries(m: M.Monitor, f: Frame, now: u64, c: Confirmation, t: Trail)
    requires Faithful(m, c, t) && m.lastNow <= now && m.state != M.Idle
    ensures ReplyCarries(m, 0x84, now, M.ReadConfirmation(m, f, now), c, t)
  {
  }

  lemma HangupCarries(m: M.Monitor, f: Frame, now: u64, c: Confirmation, t: Trail)
    requires Faithful(m, c, t) && m.lastNow <= now && M.Active(m.state)
    ensures ReplyCarries(m, 0x02, now, M.ReadHangup(m, f, now), c, t)
  {
  }

  lemma CrossedCarries(m: M.Monitor, f: Frame, now: u64, c: Confirmation, t: Trail)
    requires Faithful(m, c, t) && m.lastNow <= now && m.state == M.Stopping
    ensures ReplyCarries(m, 0x02, now, M.ReadCrossedHangup(m, f, now), c, t)
    ensures ReplyCarries(m, 0x82, now, M.ReadStopped(m, now), c, t)
  {
  }

  lemma ReceiveCarries(m: M.Monitor, f: Frame, ipv4: u32, now: u64, c: Confirmation, t: Trail)
    requires Faithful(m, c, t)
    ensures ReplyCarries(m, f.opcode, now, M.Received(m, f, ipv4, now), c, t)
  {
    hide M.ReadBusy, M.ReadConfirmation, M.ReadHangup, M.ReadCrossedHangup, M.ReadStopped;
    if m.lastNow <= now {
      if m.state != M.Idle {
        ConfirmationCarries(m, f, now, c, t);
      }
      if f.opcode != 0x02 {
        BusyCarries(m, f, now, c, t);
      }
      if M.Active(m.state) {
        HangupCarries(m, f, now, c, t);
      }
      if m.state == M.Stopping {
        CrossedCarries(m, f, now, c, t);
      }
    }
  }

  lemma AdmitCarries(m: M.Monitor, source: Address, destination: Address, ipv4: u32, generation: u64, at: u64,
                     c: Confirmation, t: Trail)
    requires Faithful(m, c, t) && M.Admitted(m, source, destination, ipv4, generation, at).Some?
    ensures Faithful(M.Admitted(m, source, destination, ipv4, generation, at).value, c, t)
  {
  }

  // ---------------------------------------------------------------------------
  // Slot by slot operation. Everything but the monitor, the flag and the purpose is beside
  // the point.

  predicate Alike(s: Slot, r: Slot) {
    && (r.preparationOnly ==> s.preparationOnly && r.owner == s.owner && r.handoff == s.handoff)
    && (r.preparationOnly ==> r.confirmation == s.confirmation && SameMonitor(s.monitor, r.monitor))
  }

  /** The same but for what the agreement does not look at. */
  predicate SameMonitor(m: M.Monitor, n: M.Monitor) {
    && n.state == m.state && n.generation == m.generation && n.lastNow == m.lastNow && n.policy == m.policy
    && n.counts == m.counts && n.times.confirmUntil == m.times.confirmUntil
    && n.flags.peerStopSeen == m.flags.peerStopSeen && n.flags.retryWaiting == m.flags.retryWaiting
  }

  lemma AlikeCarries(s: Slot, r: Slot, t: Trail)
    requires Believed(s, t) && Alike(s, r)
    ensures Believed(r, t)
  {
  }

  lemma StopEmittedCarries(s: Slot, now: u64, sent: bool, t: Trail)
    ensures Carries(s, StopEmitted(s, now, sent), t)
  {
    hide M.Stopped, M.Stepped, Faithful, Voiced;
    HeardFew(t, Disturbed(LocalStop));
    if M.Stopped(s.monitor, s.mediaGeneration, now).Some? {
      StopIsHeard(t, s, now, sent);
      if Believed(s, t) && s.preparationOnly {
        StopCarries(s.monitor, s.mediaGeneration, now, s.confirmation, t);
      }
    }
  }

  lemma ReleaseCarries(s: Slot, stops: bool, t: Trail)
    ensures Carries(s, ReleasedFailed(s, stops), t)
    ensures Carries(s, ReleasedFailed(s.(state := Failed), stops), t)
  {
    hide Faithful;
    HeardFew(t, Disturbed(LocalStop));
  }

  lemma RetryScheduledCarries(s: Slot, now: u64, queue: bool, t: Trail)
    requires s.owner.active && s.owner.purpose == Preview
    ensures Carries(s, RetryScheduled(s, now, queue), t)
  {
    HeardFew(t, Disturbed(Retry));
    var asked := M.Retried(s.monitor, now);
    if asked.Some? && s.preparationOnly && Believed(s, t) {
      assert Faithful(asked.value, s.confirmation, Heard(t, Disturbed(Retry)));
      hide M.Retried, Faithful;
      var lost := SourceLost(s.(monitor := asked.value));
      assert Believed(s.(monitor := asked.value), Heard(t, Disturbed(Retry)));
      AlikeCarries(s.(monitor := asked.value), RetryScheduled(s, now, queue).slot, Heard(t, Disturbed(Retry)));
    }
  }

  lemma RetryFinishedCarries(s: Slot, ok: bool, t: Trail)
    ensures Carries(s, RetryFinished(s, ok), t)
  {
    hide Faithful;
    HeardFew(t, Disturbed(Retry));
    if Believed(s, t) {
      AlikeCarries(s, RetryFinished(s, ok).slot, t);
    }
  }

  lemma UnsentIsTheSame(before: M.Monitor, after: M.Monitor, action: Frame, now: u64)
    ensures SameMonitor(before, Unsent(before, after, action, now))
  {
  }

  lemma TickMonitorCarries(s: Slot, now: u64, o: Oracle, t: Trail)
    ensures Carries(s, TickMonitor(s, now, o), t)
  {
    hide M.Stepped, Unsent, Voiced;
    if Believed(s, t) && s.preparationOnly && M.Stepped(s.monitor, now).Some? {
      var turn := M.Stepped(s.monitor, now).value;
      StepCarries(s.monitor, now, s.confirmation, t);
      VoicedIsHeard(t, s, now, turn.action, true);
      HeardFew(t, Disturbed(Retry));
      if turn.action.Some? && !o(StepSent) {
        var restored := s.(monitor := Unsent(s.monitor, turn.m, turn.action.value, now));
        UnsentIsTheSame(s.monitor, turn.m, turn.action.value, now);
        AlikeCarries(s, restored, t);
        ReleaseCarries(restored, o(RetryStops), t);
        if s.monitor.flags.retryAfterStop {
          ThenCarries(s, Failing(restored), ReleasedFailed(restored.(state := Failed), o(RetryStops)), t);
        }
      }
    } else {
      HeardFew(t, Disturbed(Retry));
    }
  }

  lemma RecoveryCarries(s: Slot, recovers: bool, t: Trail)
    requires Believed(s, t)
    ensures Believed(Died(s, recovers), t) && Believed(Recovered(s), t) && Believed(EncoderFailed(s), t)
  {
    hide Faithful;
  }

  lemma StallCarries(s: Slot, now: u64, o: Oracle, t: Trail)
    requires s.owner.active
    ensures Carries(s, TickStall(s, now, o), t)
  {
    hide RetryScheduled, StopEmitted, ReleasedFailed, Believed;
    if s.owner.purpose == Preview {
      var asked := RetryScheduled(s, now, o(StallQueueResets));
      RetryScheduledCarries(s, now, o(StallQueueResets), t);
      ReleaseCarries(asked.slot, o(StallStops), HeardAll(t, asked.notes));
      ThenCarries(s, asked, ReleasedFailed(asked.slot, o(StallStops)), t);
    } else {
      var stopped := StopEmitted(s, now, o(StallStopSent));
      StopEmittedCarries(s, now, o(StallStopSent), t);
      ReleaseCarries(stopped.slot, o(StallStops), HeardAll(t, stopped.notes));
      ThenCarries(s, stopped, ReleasedFailed(stopped.slot.(state := Failed), o(StallStops)), t);
    }
  }

  lemma PipelineCarries(s: Slot, o: Oracle, t: Trail)
    ensures Carries(s, TickPipeline(s, o), t)
  {
    hide Died, ReleasedFailed, Believed;
    HeardFew(t, Disturbed(Retry));
    if Believed(s, t) {
      RecoveryCarries(s, o(EncoderRecovers), t);
      var ticked := if s.stream.running && s.owner.active && s.state != Failed && !o(EncoderLives)
                    then Died(s, o(EncoderRecovers)) else s;
      ReleaseCarries(ticked, o(TickStops), t);
      HeardInTurn(t, [], ReleasedFailed(ticked, o(TickStops)).notes);
    }
  }

  lemma ReconnectCarries(s: Slot, now: u64, o: Oracle, t: Trail)
    ensures Carries(s, TickReconnect(s, now, o), t)
  {
    hide StopEmitted, ReleasedFailed, Recovered, EncoderFailed, Faithful;
    HeardFew(t, Disturbed(Retry));
    if Believed(s, t) {
      RecoveryCarries(s, o(ReconnectRecovers), t);
      var broken := if o(ReconnectFits) then EncoderFailed(s) else s.(state := Failed);
      assert Believed(broken, t);
      var stopped := StopEmitted(broken, now, o(ReconnectStopSent));
      StopEmittedCarries(broken, now, o(ReconnectStopSent), t);
      ReleaseCarries(stopped.slot, o(ReconnectStops), HeardAll(t, stopped.notes));
      ThenCarries(broken, stopped, ReleasedFailed(stopped.slot, o(ReconnectStops)), t);
    }
  }

  lemma StreamCarries(s: Slot, now: u64, o: Oracle, t: Trail)
    ensures Carries(s, TickStream(s, now, o), t)
  {
    hide TickPipeline, TickReconnect, Believed;
    var ticked := TickPipeline(s, o);
    PipelineCarries(s, o, t);
    ReconnectCarries(ticked.slot, now, o, HeardAll(t, ticked.notes));
    ThenCarries(s, ticked, TickReconnect(ticked.slot, now, o), t);
  }

  lemma EndCarries(s: Slot, now: u64, o: Oracle, t: Trail)
    ensures Carries(s, TickEnded(s, now, o), t)
  {
    hide TickStall, TickStream, Stalled, ReleasedFailed, Faithful;
    HeardFew(t, Disturbed(Retry));
    StreamCarries(s, now, o, t);
    ReleaseCarries(s, o(EndStops), t);
    if s.owner.active {
      var stalled := TickStall(s, now, o);
      StallCarries(s, now, o, t);
      StreamCarries(stalled.slot, now, o, HeardAll(t, stalled.notes));
      ThenCarries(s, stalled, TickStream(stalled.slot, now, o), t);
    }
  }

  lemma TickCarries(s: Slot, now: u64, o: Oracle, t: Trail)
    ensures Carries(s, Ticked(s, now, o), t)
  {
    hide TickMonitor, TickEnded, RetryFinished, Faithful;
    var moved := TickMonitor(s, now, o);
    var t1 := HeardAll(t, moved.notes);
    TickMonitorCarries(s, now, o, t);
    var stopping := TickStopping(moved.slot);
    var again := TickRetry(stopping, o);
    RetryFinishedCarries(stopping, o(FinishResets), t1);
    HeardFew(t1, Disturbed(Retry));
    assert Carries(moved.slot, again, t1);
    ThenCarries(s, moved, again, t);
    EndCarries(again.slot, now, o, HeardAll(t, moved.notes + again.notes));
    ThenCarries(s, Then(moved, again), TickEnded(again.slot, now, o), t);
  }

  lemma AttemptCarries(s: Slot, generation: u64, queue: bool, stops: bool, t: Trail)
    requires Believed(s, t)
    ensures Believed(NewAttempt(s, generation, queue, stops).0, t)
    ensures Believed(SourceLost(s), t)
  {
    hide Faithful;
    AlikeCarries(s, NewAttempt(s, generation, queue, stops).0, t);
  }

  lemma TakeConfirmationCarries(s: Slot, before: M.Monitor, now: u64, o: Oracle, t: Trail)
    requires s.preparationOnly ==>
               && s.owner.active && s.owner.purpose == Preview && !s.handoff.out
               && var inTime := before.counts.attempts != 0 && before.times.confirmUntil != 0
                                && now < before.times.confirmUntil;
                  Faithful(s.monitor, Confirmation(inTime, s.monitor.generation),
                           Heard(t, ConfirmationTaken(s.monitor.generation, now)))
    ensures var c := TakeConfirmation(s, before, now, o).0; Believed(c.slot, HeardAll(t, c.notes))
  {
    hide Faithful;
    var n := ConfirmationTaken(s.monitor.generation, now);
    HeardFew(t, n);
    var inTime := before.counts.attempts != 0 && before.times.confirmUntil != 0 && now < before.times.confirmUntil;
    var marked := s.(confirmation := Confirmation(inTime, s.monitor.generation));
    assert Believed(marked, Heard(t, n));
    AlikeCarries(marked, TakeConfirmation(s, before, now, o).0.slot, Heard(t, n));
  }

  lemma TakeRetryCarries(s: Slot, told: seq<Note>, o: Oracle, t: Trail)
    requires s.preparationOnly ==>
               && s.owner.active && s.owner.purpose == Preview && !s.handoff.out
               && Faithful(s.monitor, s.confirmation.(current := false), HeardAll(t, told))
    ensures var c := TakeRetry(s, told, o).0; Believed(c.slot, HeardAll(t, c.notes))
  {
    hide Faithful, NewAttempt, SourceLost, ReleasedFailed;
    var marked := s.(confirmation := s.confirmation.(current := false));
    var t1 := HeardAll(t, told);
    assert Believed(marked, t1);
    AttemptCarries(marked, s.monitor.generation, o(QueueResets), o(PipelineStops), t1);
    AttemptCarries(SourceLost(marked), s.monitor.generation, o(QueueResets), o(PipelineStops), t1);
    var again := NewAttempt(SourceLost(marked), s.monitor.generation, o(QueueResets), o(PipelineStops)).0;
    ReleaseCarries(again, o(EndStops), t1);
    HeardInTurn(t, told, ReleasedFailed(again.(state := Failed), o(EndStops)).notes);
  }

  /** A retry that fails puts the monitor back. */
  lemma RetryUndone(s: Slot, before: M.Monitor, ok: bool, t: Trail)
    requires Believed(s.(monitor := before), t)
    ensures Believed(RetryFinished(s, ok).slot.(monitor := before), t)
  {
    hide Faithful;
  }

  lemma ControlCarries(s: Slot, local: Address, f: Frame, ipv4: u32, now: u64, o: Oracle, t: Trail)
    requires Believed(s, t)
    ensures var c := ControlReceived(s, local, f, ipv4, now, o).0; Believed(c.slot, HeardAll(t, c.notes))
  {
    hide M.Received, TakeConfirmation, TakeRetry, RetryFinished, ReleasedFailed, Faithful, Replies;
    HeardFew(t, Disturbed(PeerHangup));
    HeardFew(t, Disturbed(Retry));
    var reply := M.Received(s.monitor, f, ipv4, now);
    var next := s.(monitor := reply.m);
    var said := Replies(s, local, reply.report, now);
    var told := said + if f.opcode == 0x02 then [Disturbed(PeerHangup)] else [];
    RepliesAreBeside(t, s, local, reply.report, now);
    HeardInTurn(t, said, []);
    HeardInTurn(t, said, [Disturbed(PeerHangup)]);
    HeardInTurn(t, said, [Disturbed(Retry)]);
    if s.preparationOnly {
      ReceiveCarries(s.monitor, f, ipv4, now, s.confirmation, t);
    }
    if reply.accepted {
      if reply.report.confirmed {
        TakeConfirmationCarries(next, s.monitor, now, o, t);
      } else if reply.report.retrying {
        TakeRetryCarries(next, if f.opcode == 0x02 then told else said + [Disturbed(Retry)], o, t);
      } else if reply.report.retryReady {
        var finished := RetryFinished(next, o(FinishResets));
        RetryFinishedCarries(next, o(FinishResets), HeardAll(t, told));
        HeardInTurn(t, told, finished.notes);
        RetryUndone(next, s.monitor, o(FinishResets), t);
      } else if reply.report.failed {
        var ended := next.(confirmation := next.confirmation.(current := false), state := Failed);
        ReleaseCarries(ended, o(EndStops), HeardAll(t, told));
        HeardInTurn(t, told, ReleasedFailed(ended, o(EndStops)).notes);
      }
    }
  }

  lemma AfterPictureCarries(s: Slot, code: Code, at: u64, o: Oracle, t: Trail)
    ensures Carries(s, AfterPicture(s, code, at, o).0, t)
  {
    hide StopEmitted, ReleasedFailed;
    HeardFew(t, Disturbed(Retry));
    var stopped := StopEmitted(s, at, o(StopSent));
    StopEmittedCarries(s, at, o(StopSent), t);
    ReleaseCarries(stopped.slot, o(EndStops), HeardAll(t, stopped.notes));
    ThenCarries(s, stopped, ReleasedFailed(stopped.slot, o(EndStops)), t);
  }

  lemma PictureShownCarries(s: Slot, at: u64, path: Path, o: Oracle, t: Trail)
    requires Believed(s, t)
    ensures Believed(PictureShown(s, at, path, o).0, t)
    ensures Believed(PictureNoted(s, at).0, t)
  {
    hide Died, Faithful;
    var living := if o(EncoderLives) then s else Died(s, o(EncoderRecovers));
    RecoveryCarries(s, o(EncoderRecovers), t);
    var publication := if living.stream.publication == 0 then s.owner.generation else living.stream.publication;
    var published := living.(stream := living.stream.(publication := publication));
    assert Believed(published, t);
    RecoveryCarries(published, o(EncoderRecovers), t);
  }

  lemma PictureCarries(s: Slot, source: Address, destination: Address, ipv4: u32, valid: bool, at: u64, path: Path,
                       o: Oracle, t: Trail)
    ensures Carries(s, PictureReceived(s, source, destination, ipv4, valid, at, path, o).0, t)
  {
    hide M.Admitted, PictureShown, PictureNoted, AfterPicture, Faithful;
    HeardFew(t, Disturbed(Retry));
    var admitted := if s.monitor.state == M.Idle then Some(s.monitor)
                    else M.Admitted(s.monitor, source, destination, ipv4, s.mediaGeneration, at);
    if Believed(s, t) && admitted.Some? {
      var next := s.(monitor := admitted.value);
      if s.preparationOnly && s.monitor.state != M.Idle {
        AdmitCarries(s.monitor, source, destination, ipv4, s.mediaGeneration, at, s.confirmation, t);
      }
      assert Believed(next, t);
      PictureShownCarries(next, at, path, o, t);
      var (shown, code) := if s.preparationOnly then PictureNoted(next, at)
                           else if !valid then (next, BadRequest)
                           else PictureShown(next, at, path, o);
      AfterPictureCarries(shown, code, at, o, t);
    }
  }

  lemma CommandCarries(s: Slot, now: u64, o: Oracle, t: Trail)
    ensures Carries(s, StoppedByCommand(s, now, o).0, t)
  {
    hide M.Stopped, M.Stepped, Faithful, Voiced;
    HeardFew(t, Disturbed(LocalStop));
    if M.Stopped(s.monitor, s.mediaGeneration, now).Some? {
      StopIsHeard(t, s, now, !s.handoff.out && o(StopSent));
      if Believed(s, t) && s.preparationOnly {
        StopCarries(s.monitor, s.mediaGeneration, now, s.confirmation, t);
      }
    }
  }

  lemma PreemptedCarries(s: Slot, now: u64, o: Oracle, t: Trail)
    ensures Carries(s, Preempted(s, now, o), t)
  {
    hide M.Stopped, M.Stepped, Faithful, Voiced;
    HeardFew(t, Disturbed(LocalStop));
    if M.Stopped(s.monitor, s.mediaGeneration, now).Some? {
      StopIsHeard(t, s, now, true);
      if Believed(s, t) && s.preparationOnly {
        StopCarries(s.monitor, s.mediaGeneration, now, s.confirmation, t);
      }
    }
  }

  lemma ReleaseOnRequestCarries(s: Slot, op: Operation, now: u64, stops: bool, t: Trail)
    ensures Carries(s, ReleasedOnRequest(s, op, now, stops), t)
  {
    hide Faithful;
    HeardFew(t, Disturbed(LocalStop));
  }

  /** A new session has nothing told of it, and nothing to believe. */
  lemma NewPreviewBelieved(c: Config, st: Station, generation: u64, light: bool, now: u64, cooldown: u64, ipv4: u32,
                           o: Oracle)
    requires PreviewPrepared(c, st, generation, light, now, cooldown, ipv4, o).Some?
    ensures Believed(PreviewPrepared(c, st, generation, light, now, cooldown, ipv4, o).value, UNTOLD)
  {
    hide Timed;
  }

  lemma NewCallNotPreparing(c: Config, st: Station, generation: u64, call: u64, now: u64, route: u32, o: Oracle)
    ensures var s := CallPrepared(c, st, generation, call, now, route, o).0; s.Some? ==> !s.value.preparationOnly
  {
    hide M.Bound;
  }

  // ---------------------------------------------------------------------------
  // The manager and its log.

  function TrailOf(log: seq<Entry>, session: u64): Trail {
    if log == [] then UNTOLD
    else
      var last := log[|log| - 1];
      var before := TrailOf(log[..|log| - 1], session);
      if last.session == session then Heard(before, last.note) else before
  }

  lemma {:induction false} TrailOfTold(log: seq<Entry>, session: u64, notes: seq<Note>, other: u64)
    ensures TrailOf(log + Told(session, notes), other) ==
            if other == session then HeardAll(TrailOf(log, session), notes) else TrailOf(log, other)
  {
    var told := Told(session, notes);
    if notes == [] {
      assert log + told == log;
    } else {
      var before := notes[..|notes| - 1];
      assert (log + told)[..|log + told| - 1] == log + Told(session, before);
      TrailOfTold(log, session, before, other);
    }
  }

  lemma {:induction false} NothingToldYet(log: seq<Entry>, session: u64)
    requires forall e :: e in log ==> e.session != session
    ensures TrailOf(log, session) == UNTOLD
  {
    if log != [] {
      NothingToldYet(log[..|log| - 1], session);
    }
  }

  /** Every session's slot agrees with what was told of it, and nothing was told of sessions to come. */
  predicate Heeded(m: Manager, log: seq<Entry>) {
    && (forall k :: 0 <= k < |m.slots| && m.slots[k].owner.active ==>
          Believed(m.slots[k], TrailOf(log, m.slots[k].owner.generation)))
    && forall e :: e in log ==> e.session <= m.next
  }

  /** What became of a slot, with its notes, is either the same session or one not heard of. */
  predicate Continues(m: Manager, log: seq<Entry>, k: nat, s: Slot, notes: seq<Note>)
    requires k < |m.slots|
  {
    s.owner.active && s.preparationOnly ==>
      if s.owner.generation == m.slots[k].owner.generation then
        m.slots[k].owner.active && Believed(s, HeardAll(TrailOf(log, m.slots[k].owner.generation), notes))
      else s.owner.generation > m.next && Believed(s, UNTOLD)
  }

  lemma NothingToBelieve(s: Slot, t: Trail)
    requires !s.preparationOnly
    ensures Believed(s, t)
  {
  }

  lemma SlotBelieved(m: Manager, log: seq<Entry>, k: nat)
    requires Heeded(m, log) && k < |m.slots| && m.slots[k].owner.active
    ensures Believed(m.slots[k], TrailOf(log, m.slots[k].owner.generation))
  {
  }

  lemma SlotHeeded(c: Config, m: Manager, log: seq<Entry>, k: nat, s: Slot, notes: seq<Note>, active: int, next: u64)
    requires Sound(c, m) && Heeded(m, log) && k < |m.slots| && m.next <= next
    requires m.slots[k].owner.active || notes == []
    requires Continues(m, log, k, s, notes)
    ensures Heeded(Manager(m.slots[k := s], active, next), log + Told(m.slots[k].owner.generation, notes))
  {
    hide ActiveCount, Believed, TrailOf, Tidy, Bindable, HeardAll;
    var g := m.slots[k].owner.generation;
    var t := Manager(m.slots[k := s], active, next);
    forall j | 0 <= j < |t.slots| && t.slots[j].owner.active
      ensures Believed(t.slots[j], TrailOf(log + Told(g, notes), t.slots[j].owner.generation))
    {
      var h := t.slots[j].owner.generation;
      TrailOfTold(log, g, notes, h);
      if j != k {
        if m.slots[k].owner.active {
          assert Apart(m.slots[Min(j, k)].owner, m.slots[Max(j, k)].owner);
        } else {
          assert log + Told(g, notes) == log;
        }
      } else if !s.preparationOnly {
        NothingToBelieve(s, TrailOf(log + Told(g, notes), h));
      } else if h != g {
        NothingToldYet(log, h);
      }
    }
  }

  // ---------------------------------------------------------------------------
  // Call by call.

  predicate Heeds(m: Manager, log: seq<Entry>, r: Outcome) {
    Heeded(r.m, log + r.log)
  }

  lemma NothingHeeds(m: Manager, log: seq<Entry>)
    requires Heeded(m, log)
    ensures Heeded(m, log + [])
  {
    assert log + [] == log;
  }

  /** A slot changes and nothing is told. */
  lemma QuietlyHeeded(c: Config, m: Manager, log: seq<Entry>, k: nat, s: Slot, active: int, next: u64)
    requires Sound(c, m) && Heeded(m, log) && k < |m.slots| && m.next <= next
    requires Continues(m, log, k, s, [])
    ensures Heeded(Manager(m.slots[k := s], active, next), log + [])
  {
    hide Sound, Heeded, Continues;
    SlotHeeded(c, m, log, k, s, [], active, next);
    assert Told(m.slots[k].owner.generation, []) == [];
  }

  /** A slot's own operation, on a slot in use. */
  lemma SettledHeeds(c: Config, m: Manager, log: seq<Entry>, k: nat, change: Change, code: Code)
    requires Sound(c, m) && Heeded(m, log) && k < |m.slots| && m.slots[k].owner.active
    requires Moves(m.slots[k], change)
    requires Carries(m.slots[k], change, TrailOf(log, m.slots[k].owner.generation))
    ensures Heeds(m, log, Settled(m, k, change, code))
  {
    hide Sound, Believed, HeardAll, TrailOf;
    assert Continues(m, log, k, change.slot, change.notes);
    SlotHeeded(c, m, log, k, change.slot, change.notes, Apply(m, k, change).active, m.next);
  }

  lemma HereHeeds(c: Config, m: Manager, log: seq<Entry>, k: nat, call: u64, now: u64, o: Oracle)
    requires Sound(c, m) && Heeded(m, log) && k < |m.slots| && m.slots[k].owner.active && m.next < U64_MAX
    ensures Heeds(m, log, IncomingHere(c, m, k, call, now, o))
  {
    hide Sound, Heeded, Preflight, CallBound, Told;
    var s := m.slots[k];
    var (up, code) := Upgraded(s, m.next + 1, call, now, o);
    NothingHeeds(m, log);
    if code != Done {
      assert Continues(m, log, k, up, []) by {
        SlotBelieved(m, log, k);
        hide Faithful;
        HeardFew(TrailOf(log, s.owner.generation), Disturbed(TakenOver));
      }
      QuietlyHeeded(c, m, log, k, up, m.active, m.next);
    } else {
      var bound := CallBound(up, c.local, c.seconds, now);
      SlotHeeded(c, m, log, k, up, [Disturbed(TakenOver)], m.active, m.next);
      if bound.Some? {
        BindingKeepsOwner(up, c.local, c.seconds, now);
        SlotHeeded(c, m, log, k, bound.value, [Disturbed(TakenOver)], m.active, m.next + 1);
      }
    }
  }

  lemma FullHeeds(c: Config, m: Manager, log: seq<Entry>, st: Station, call: u64, now: u64, route: u32, o: Oracle)
    requires Sound(c, m) && Heeded(m, log) && m.next < U64_MAX
    ensures Heeds(m, log, IncomingFull(c, m, st, call, now, route, o))
  {
    hide Sound, Heeded, CallPrepared, Preempted, OldestPreview, Told, Carries;
    var v := OldestPreview(m.slots, |m.slots|);
    NothingHeeds(m, log);
    if v < |m.slots| {
      OldestIsOldest(m.slots, |m.slots|);
      PreemptedMoves(m.slots[v], now, o);
      PreemptedCarries(m.slots[v], now, o, TrailOf(log, m.slots[v].owner.generation));
      SettledHeeds(c, m, log, v, Preempted(m.slots[v], now, o), EncoderFault);
      NewCallNotPreparing(c, st, m.next + 1, call, now, route, o);
      var prepared := CallPrepared(c, st, m.next + 1, call, now, route, o).0;
      if prepared.Some? {
        SlotHeeded(c, m, log, v, prepared.value, Preempted(m.slots[v], now, o).notes, m.active, m.next + 1);
      }
    }
  }

  lemma FreeHeeds(c: Config, m: Manager, log: seq<Entry>, st: Station, call: u64, now: u64, route: u32, o: Oracle)
    requires Sound(c, m) && Heeded(m, log) && m.next < U64_MAX
    ensures Heeds(m, log, IncomingFree(c, m, st, call, now, route, o))
  {
    hide Sound, Heeded, CallPrepared, Search;
    var k := Search(m.slots, Free);
    NothingHeeds(m, log);
    if k < |m.slots| {
      QuietlyHeeded(c, m, log, k, BLANK, m.active, m.next);
      NewCallNotPreparing(c, st, m.next + 1, call, now, route, o);
      var prepared := CallPrepared(c, st, m.next + 1, call, now, route, o).0;
      if prepared.Some? {
        QuietlyHeeded(c, m, log, k, prepared.value, m.active + 1, m.next + 1);
      }
    }
  }

  lemma IncomingHeeds(c: Config, m: Manager, log: seq<Entry>, id: string, call: u64, now: u64, route: u32, o: Oracle)
    requires Sound(c, m) && Heeded(m, log)
    ensures Heeds(m, log, Incoming(c, m, id, call, now, route, o))
  {
    hide Sound, Heeded, IncomingHere, IncomingFull, IncomingFree, Search, StationNamed;
    var station := StationNamed(c.stations, id);
    var k := Search(m.slots, Named(id));
    NothingHeeds(m, log);
    if m.next < U64_MAX && station.Some? {
      if k < |m.slots| {
        HereHeeds(c, m, log, k, call, now, o);
      } else {
        FullHeeds(c, m, log, station.value, call, now, route, o);
        FreeHeeds(c, m, log, station.value, call, now, route, o);
      }
    }
  }

  lemma PreviewHeeds(c: Config, m: Manager, log: seq<Entry>, st: Station, light: bool, now: u64, cooldown: u64,
                     route: u32, o: Oracle)
    requires Sound(c, m) && Heeded(m, log)
    ensures Heeds(m, log, StartPreview(c, m, st, light, now, cooldown, route, o))
  {
    hide ActiveCount, Heeded, PreviewPrepared, Search, Told;
    var k := Search(m.slots, Named(st.id));
    var free := Search(m.slots, Free);
    NothingHeeds(m, log);
    if k < |m.slots| {
      SlotHeeded(c, m, log, k, Adopted(m.slots[k]), [Disturbed(TakenOver)], m.active, m.next);
    } else if free < |m.slots| {
      QuietlyHeeded(c, m, log, free, BLANK, m.active, m.next);
      if m.next < U64_MAX && PreviewPrepared(c, st, m.next + 1, light, now, cooldown, RouteOf(st, route, o),
                                             o).Some? {
        var s := PreviewPrepared(c, st, m.next + 1, light, now, cooldown, RouteOf(st, route, o), o).value;
        PreviewFits(c, st, m.next + 1, light, now, cooldown, RouteOf(st, route, o), o);
        NewPreviewBelieved(c, st, m.next + 1, light, now, cooldown, RouteOf(st, route, o), o);
        assert m.slots[free] == BLANK;
        QuietlyHeeded(c, m, log, free, s, m.active + 1, m.next + 1);
      }
    }
  }

  lemma StartHeeds(c: Config, m: Manager, log: seq<Entry>, id: string, purpose: Purpose, light: bool, now: u64,
                   cooldown: u64, route: u32, o: Oracle)
    requires Sound(c, m) && Heeded(m, log)
    ensures Heeds(m, log, Start(c, m, id, purpose, light, now, cooldown, route, o))
  {
    hide Incoming, StartPreview, Heeded, Sound, StationNamed, Search;
    NothingHeeds(m, log);
    if m.next < U64_MAX {
      IncomingHeeds(c, m, log, id, m.next + 1, now, route, o);
    }
    if StationNamed(c.stations, id).Some? {
      PreviewHeeds(c, m, log, StationNamed(c.stations, id).value, light, now, cooldown, route, o);
    }
  }

  /** What was handed over prepares nothing. */
  lemma HandedOverHeeded(c: Config, m: Manager, log: seq<Entry>, k: nat, s: Slot)
    requires Sound(c, m) && Heeded(m, log) && k < |m.slots| && m.slots[k].owner.active && m.slots[k].handoff.out
    requires s.preparationOnly == m.slots[k].preparationOnly
    ensures Heeded(m.(slots := m.slots[k := s]), log + [])
  {
    hide Sound, Faithful;
    assert Believed(m.slots[k], TrailOf(log, m.slots[k].owner.generation));
    hide Heeded;
    QuietlyHeeded(c, m, log, k, s, m.active, m.next);
  }

  lemma OperatedHeeds(c: Config, m: Manager, log: seq<Entry>, k: nat, st: Station, op: Operation, control: u64,
                      now: u64, route: u32, o: Oracle)
    requires Sound(c, m) && Heeded(m, log) && k < |m.slots| && m.slots[k].owner.active
    ensures Heeds(m, log, OperatedAt(c, m, k, st, op, control, now, route, o))
  {
    hide Sound, Checked, Settled, Believed, Heeded, ReleasedOnRequest;
    var s := m.slots[k];
    NothingHeeds(m, log);
    ReleaseOnRequestCarries(s, op, now, o(EncoderStops), TrailOf(log, s.owner.generation));
    ReleaseMoves(s, op, now, o(EncoderStops));
    SettledHeeds(c, m, log, k, ReleasedOnRequest(s, op, now, o(EncoderStops)),
                 if o(EncoderStops) then Done else EncoderFault);
    if s.handoff.out {
      HandedOverHeeded(c, m, log, k, RolledBack(s));
      HandedOverHeeded(c, m, log, k, s.(handoff := s.handoff.(commandSent := true)));
      HandedOverHeeded(c, m, log, k, s.(handoff := s.handoff.(callGeneration := control)));
    }
  }

  lemma OperateHeeds(c: Config, m: Manager, log: seq<Entry>, op: Operation, id: string, generation: u64, control: u64,
                     now: u64, route: u32, o: Oracle)
    requires Sound(c, m) && Heeded(m, log)
    ensures Heeds(m, log, Operate(c, m, op, id, generation, control, now, route, o))
  {
    hide OperatedAt, Heeded, Sound, StationNamed, Search;
    var k := Search(m.slots, Named(id));
    NothingHeeds(m, log);
    if StationNamed(c.stations, id).Some? && k < |m.slots| {
      OperatedHeeds(c, m, log, k, StationNamed(c.stations, id).value, op, control, now, route, o);
    }
  }

  lemma HandOverHeeds(c: Config, m: Manager, log: seq<Entry>, id: string, now: u64, route: u32, o: Oracle)
    requires Sound(c, m) && Heeded(m, log)
    ensures Heeds(m, log, HandOver(c, m, id, now, route, o))
  {
    hide Operate, Heeded, Sound, Search, Told;
    var k := Search(m.slots, Named(id));
    NothingHeeds(m, log);
    if k < |m.slots| {
      var s := m.slots[k];
      CheckChangesNothing(c, m, id, s.owner.generation, 0, now, route, o);
      if Promoted(s, 0, now).Some? {
        SlotHeeded(c, m, log, k, Promoted(s, 0, now).value, [Disturbed(TakenOver)], m.active, m.next);
      }
    }
  }

  lemma CommandedHeeds(c: Config, m: Manager, log: seq<Entry>, command: Command, id: string, generation: u64,
                       now: u64, o: Oracle)
    requires Sound(c, m) && Heeded(m, log)
    ensures Heeds(m, log, Commanded(c, m, command, id, generation, now, o))
  {
    hide Sound, StoppedByCommand, Heeded, Search, StationNamed, Told, Faithful;
    var k := Search(m.slots, Named(id));
    NothingHeeds(m, log);
    if k < |m.slots| {
      var s := m.slots[k];
      var t := TrailOf(log, s.owner.generation);
      SlotBelieved(m, log, k);
      CommandMoves(s, now, o);
      CommandCarries(s, now, o, t);
      var stopped := StoppedByCommand(s, now, o);
      SettledHeeds(c, m, log, k, stopped.0, stopped.1);
      HeardFew(t, Disturbed(TakenOver));
      if command.View? {
        var seen := ViewerSet(s, command.watched);
        if s.preparationOnly && command.watched {
          SlotHeeded(c, m, log, k, seen, [Disturbed(TakenOver)], m.active, m.next);
        } else {
          QuietlyHeeded(c, m, log, k, seen, m.active, m.next);
        }
      }
    }
  }

  lemma ControlHeeds(c: Config, m: Manager, log: seq<Entry>, f: Frame, ipv4: u32, now: u64, o: Oracle)
    requires Sound(c, m) && Heeded(m, log)
    ensures Heeds(m, log, Control(c, m, f, ipv4, now, o))
  {
    hide ControlReceived, Heeded, Search, Sound;
    var k := Search(m.slots, Sender(f.source, ipv4));
    NothingHeeds(m, log);
    if k < |m.slots| {
      var t := TrailOf(log, m.slots[k].owner.generation);
      var (change, code) := ControlReceived(m.slots[k], c.local, f, ipv4, now, o);
      SlotBelieved(m, log, k);
      ControlMoves(m.slots[k], c.local, f, ipv4, now, o);
      ControlCarries(m.slots[k], c.local, f, ipv4, now, o, t);
      SettledHeeds(c, m, log, k, change, code);
    }
  }

  lemma PictureHeeds(c: Config, m: Manager, log: seq<Entry>, source: Address, destination: Address, ipv4: u32,
                     valid: bool, at: u64, path: Path, o: Oracle)
    requires Sound(c, m) && Heeded(m, log)
    ensures Heeds(m, log, Picture(c, m, source, destination, ipv4, valid, at, path, o))
  {
    hide PictureReceived, Heeded, Search, Sound;
    var k := Search(m.slots, Seen(source));
    NothingHeeds(m, log);
    if k < |m.slots| {
      var (change, code) := PictureReceived(m.slots[k], source, destination, ipv4, valid, at, path, o);
      PictureMoves(m.slots[k], source, destination, ipv4, valid, at, path, o);
      PictureCarries(m.slots[k], source, destination, ipv4, valid, at, path, o,
                     TrailOf(log, m.slots[k].owner.generation));
      SettledHeeds(c, m, log, k, change, code);
    }
  }

  lemma TickAtHeeds(c: Config, m: Manager, log: seq<Entry>, k: nat, now: u64, o: Oracle)
    requires Sound(c, m) && Heeded(m, log) && k < |m.slots|
    ensures Heeds(m, log, TickAt(c, m, k, now, o))
  {
    hide Ticked, Operate, Heeded, Sound, ReleasedFailed;
    var s := m.slots[k];
    NothingHeeds(m, log);
    if s.owner.active {
      var t := TrailOf(log, s.owner.generation);
      TickMoves(s, now, o);
      TickCarries(s, now, o, t);
      SettledHeeds(c, m, log, k, Ticked(s, now, o), Failure(Ticked(s, now, o).failed));
      ReleaseCarries(s, o(EndStops), t);
      ReleaseMoves(s, Release, now, o(EndStops));
      SettledHeeds(c, m, log, k, ReleasedFailed(s, o(EndStops)), Failure(ReleasedFailed(s, o(EndStops)).failed));
      if s.cleanup.pending.Some? {
        OperateHeeds(c, m, log, s.cleanup.pending.value, s.owner.id, s.owner.generation, s.handoff.callGeneration,
                     now, 0, o);
      }
    }
  }

  lemma {:induction false} TickHeeds(c: Config, m: Manager, log: seq<Entry>, n: nat, now: u64, os: nat -> Oracle)
    requires Sound(c, m) && Heeded(m, log) && n <= |m.slots|
    ensures Heeds(m, log, Tick(c, m, n, now, os))
  {
    hide TickAt, Sound, Heeded;
    if n == 0 {
      NothingHeeds(m, log);
    } else {
      var earlier := Tick(c, m, n - 1, now, os);
      var last := TickAt(c, earlier.m, n - 1, now, os(n - 1));
      TickHeeds(c, m, log, n - 1, now, os);
      TickFollows(c, m, n - 1, now, os);
      TickAtHeeds(c, earlier.m, log + earlier.log, n - 1, now, os(n - 1));
      assert log + (earlier.log + last.log) == log + earlier.log + last.log;
    }
  }

  lemma StepHeeds(c: Config, m: Manager, log: seq<Entry>, i: Input)
    requires Sound(c, m) && Heeded(m, log)
    ensures Heeds(m, log, Step(c, m, i))
  {
    hide Start, Incoming, HandOver, Operate, Commanded, Control, Picture, Tick, Sound, Heeds, Heeded;
    var o := i.os(0);
    match i.event
    case Starting(id, purpose, light, cooldown) => StartHeeds(c, m, log, id, purpose, light, i.now, cooldown,
                                                              i.route, o);
    case Calling(id, call) => IncomingHeeds(c, m, log, id, call, i.now, i.route, o);
    case HandingOver(id) => HandOverHeeds(c, m, log, id, i.now, i.route, o);
    case Operating(op, id, generation, control) =>
      OperateHeeds(c, m, log, op, id, generation, control, i.now, i.route, o);
    case Commanding(command, id, generation) => CommandedHeeds(c, m, log, command, id, generation, i.now, o);
    case Frame(frame, ipv4) => ControlHeeds(c, m, log, frame, ipv4, i.now, o);
    case Image(source, destination, ipv4, valid, path) =>
      PictureHeeds(c, m, log, source, destination, ipv4, valid, i.now, path, o);
    case Time => TickHeeds(c, m, log, |m.slots|, i.now, i.os);
  }

  lemma NothingIsHeeded(c: Config)
    ensures Heeded(Initial(c), [])
  {
  }

  lemma {:induction false} EveryRunIsHeeded(c: Config, inputs: seq<Input>)
    ensures Heeded(Run(c, inputs).m, Run(c, inputs).log)
  {
    hide Step, Heeded;
    if inputs == [] {
      NothingIsHeeded(c);
    } else {
      var before := Run(c, inputs[..|inputs| - 1]);
      EveryRunIsHeeded(c, inputs[..|inputs| - 1]);
      EveryRunIsSound(c, inputs[..|inputs| - 1]);
      StepHeeds(c, before.m, before.log, inputs[|inputs| - 1]);
    }
  }

  // ---------------------------------------------------------------------------
  // What is reported.

  /** `has_confirmed` of the unlock preparation's status. */
  predicate HasConfirmed(m: Manager, id: string, generation: u64) {
    var k := Search(m.slots, Named(id));
    k < |m.slots| && generation != 0 && ReportsConfirmed(m.slots[k], generation)
  }

  predicate ReportsConfirmed(s: Slot, generation: u64) {
    && generation == s.owner.generation && s.preparationOnly && s.cleanup.pending.None? && Usable(s)
    && (s.monitor.state == M.AwaitingVideo ==> s.monitor.lastNow < s.monitor.times.frameDeadline)
  }

  /** Entry `i` is a request of monitor generation `g` that went out, entry `j` the taking of
      its confirmation less than a second later, and nothing disturbed the session since. */
  predicate ConfirmedAt(log: seq<Entry>, session: u64, g: u64, i: nat, j: nat) {
    && i < j < |log| && log[i].session == session && log[j].session == session
    && log[i].note.FrameSent? && IsRequest(log[i].note.frame) && log[i].note.generation == g
    && log[j].note.ConfirmationTaken? && log[j].note.generation == g
    && log[i].note.at <= log[j].note.at < log[i].note.at + M.REQUEST_INTERVAL_MS
    && forall n :: j < n < |log| && log[n].session == session ==> !log[n].note.Disturbed?
  }

  ghost predicate ReallyConfirmed(log: seq<Entry>, session: u64, g: u64) {
    exists i: nat, j: nat :: ConfirmedAt(log, session, g, i, j)
  }

  /** Entry `i` is a request of that monitor generation at that time. */
  predicate AskedAt(log: seq<Entry>, session: u64, generation: u64, at: u64, i: nat) {
    && i < |log| && log[i].session == session && log[i].note.FrameSent? && IsRequest(log[i].note.frame)
    && log[i].note.generation == generation && log[i].note.at == at
  }

  lemma {:induction false} RequestIsInLog(log: seq<Entry>, session: u64)
    ensures var t := TrailOf(log, session);
            t.request.Some? ==> exists i :: AskedAt(log, session, t.request.value.0, t.request.value.1, i)
  {
    if log != [] {
      var before, last := log[..|log| - 1], log[|log| - 1];
      RequestIsInLog(before, session);
      var t := TrailOf(log, session);
      if t.request.Some? {
        var (generation, at) := t.request.value;
        if last.session == session && last.note.FrameSent? && IsRequest(last.note.frame) {
          assert AskedAt(log, session, generation, at, |log| - 1);
        } else {
          var i :| AskedAt(before, session, generation, at, i);
          assert AskedAt(log, session, generation, at, i);
        }
      }
    }
  }

  lemma {:induction false} TrailIsInLog(log: seq<Entry>, session: u64)
    ensures var t := TrailOf(log, session);
            t.confirm.Some? && t.inTime && !t.disturbed ==> ReallyConfirmed(log, session, t.confirm.value.0)
  {
    if log != [] {
      var before := log[..|log| - 1];
      var last := log[|log| - 1];
      TrailIsInLog(before, session);
      var t := TrailOf(log, session);
      if t.confirm.Some? && t.inTime && !t.disturbed {
        var g := t.confirm.value.0;
        if last.session == session && last.note.ConfirmationTaken? {
          RequestIsInLog(before, session);
          var asked := TrailOf(before, session).request.value;
          var i :| AskedAt(before, session, asked.0, asked.1, i);
          assert ConfirmedAt(log, session, g, i, |log| - 1);
        } else {
          ConfirmedStays(before, last, session, g);
          assert log == before + [last];
        }
      }
    }
  }

  lemma ConfirmedStays(log: seq<Entry>, last: Entry, session: u64, g: u64)
    requires ReallyConfirmed(log, session, g) && !(last.session == session && last.note.Disturbed?)
    ensures ReallyConfirmed(log + [last], session, g)
  {
    var i: nat, j: nat :| ConfirmedAt(log, session, g, i, j);
    assert ConfirmedAt(log + [last], session, g, i, j);
  }

  /** A reported confirmation is real: a request of the monitor's current generation went out
      and its confirmation was taken within the second, and since then there was no stop, no
      accepted hang-up, no retry and no take-over. */
  lemma ConfirmedWasConfirmed(c: Config, inputs: seq<Input>, id: string, generation: u64)
    requires HasConfirmed(Run(c, inputs).m, id, generation)
    ensures var w := Run(c, inputs);
            ReallyConfirmed(w.log, generation, w.m.slots[Search(w.m.slots, Named(id))].monitor.generation)
  {
    hide Run, Search, TrailOf, ReallyConfirmed;
    var w := Run(c, inputs);
    EveryRunIsHeeded(c, inputs);
    var s := w.m.slots[Search(w.m.slots, Named(id))];
    assert Believed(s, TrailOf(w.log, generation));
    TrailIsInLog(w.log, generation);
  }

  /** The other way: an answer to an open request is reported as a confirmation exactly when it
      comes before the request's second is over. */
  lemma TimelyAnswersAreReported(s: Slot, f: Frame, ipv4: u32, now: u64, o: Oracle)
    requires s.preparationOnly && s.owner.active && s.cleanup.pending.None? && o(QueueResets)
    requires s.monitor.state == M.Requesting && s.monitor.generation != 0
    requires !s.monitor.flags.retryAfterStop && !s.monitor.flags.retryReady && !s.monitor.flags.retryWaiting
    requires !s.monitor.flags.mediaReady && s.monitor.counts.attempts != 0 && s.monitor.times.confirmUntil != 0
    requires 0 < s.monitor.policy.frameTimeout && s.monitor.lastNow <= now <= U64_MAX - s.monitor.policy.frameTimeout
    requires M.FromStation(s.monitor, f, ipv4) && f.opcode == 0x84 && f.payload == M.CONFIRMATION_PAYLOAD
    ensures var r := ControlReceived(s, s.monitor.peer.local, f, ipv4, now, o);
            && r.1 == Done && r.0.notes == [ConfirmationTaken(s.monitor.generation, now)]
            && (ReportsConfirmed(r.0.slot, s.owner.generation) <==> now < s.monitor.times.confirmUntil)
  {
  }

  /** The picture may overtake the answer. Then the answer still counts until the request's
      second is over, and it is reported exactly when the picture was of this attempt and no
      earlier wait for it has run out; a later answer is refused and changes nothing. */
  lemma AnswersAfterThePicture(s: Slot, f: Frame, ipv4: u32, now: u64, o: Oracle)
    requires s.preparationOnly && s.owner.active && s.cleanup.pending.None?
    requires M.Playing(s.monitor.state) && s.monitor.flags.mediaReady && s.monitor.generation != 0
    requires !s.monitor.flags.retryAfterStop && !s.monitor.flags.retryReady && !s.monitor.flags.retryWaiting
    requires s.monitor.counts.attempts != 0 && s.monitor.times.confirmUntil != 0
    requires 0 < s.monitor.policy.frameTimeout && s.monitor.lastNow <= now <= U64_MAX - s.monitor.policy.frameTimeout
    requires M.FromStation(s.monitor, f, ipv4) && f.opcode == 0x84 && f.payload == M.CONFIRMATION_PAYLOAD
    ensures var r := ControlReceived(s, s.monitor.peer.local, f, ipv4, now, o);
            if now < s.monitor.times.confirmUntil then
              && r.1 == Done && r.0.notes == [ConfirmationTaken(s.monitor.generation, now)]
              && (ReportsConfirmed(r.0.slot, s.owner.generation) <==>
                  && s.mediaGeneration == s.monitor.generation
                  && (s.monitor.state == M.AwaitingVideo && s.monitor.times.frameDeadline != 0 ==>
                        now < s.monitor.times.frameDeadline))
            else r == (Unchanged(s), BadRequest)
  {
  }

  // ---------------------------------------------------------------------------
  // A confirmation that is reported, from setting up to the answer.

  const DOOR: Address := [0x32, 0x01, 0x01, 0x00, 0x01, 0x00]
  const HERE: Address := [0x31, 0x01, 0x00, 0x00, 0x00, 0x01]
  const HOUSE := Config(true, [Station("door", DOOR, 1, true, "door")], 1, HERE, 0, false, false)

  function AllWell(): nat -> Oracle {
    (_: nat) => ((_: Site) => true)
  }

  /** Prepare an unlock, let the request go out, and answer it half a second later. */
  function Unlocking(): seq<Input> {
    [Input(Starting("door", Preview, true, 0), 0, 0, AllWell()),
     Input(Time, 0, 0, AllWell()),
     Input(Frame(Frames.Frame(HERE, DOOR, 0x03, 0x84, M.CONFIRMATION_PAYLOAD), 1), 500, 0, AllWell())]
  }

  const ASKING := M.FRESH.(policy := M.FRESH.policy.(persistent := true), state := M.Requesting,
                           peer := M.Peer(HERE, DOOR, 1), generation := 1)

  const PREPARING := BLANK.(owner := Owner("door", DOOR, 1, Preview, 1, 0, false, true), state := Requesting,
                            mediaGeneration := 1, preparationOnly := true, monitor := ASKING)

  lemma FirstStep()
    ensures Step(HOUSE, Initial(HOUSE), Unlocking()[0]).m == Manager([PREPARING], 1, 1)
  {
    var m := Initial(HOUSE);
    assert HOUSE.stations[..0] == [];
    assert EnabledCount(HOUSE.stations) == 1;
    assert m.slots == [BLANK];
    var st := Station("door", DOOR, 1, true, "door");
    assert StationNamed(HOUSE.stations, "door") == Some(st);
    assert PreviewPrepared(HOUSE, st, 1, true, 0, 0, 1, AllWell()(0)) == Some(PREPARING);
    assert [BLANK][0 := PREPARING] == [PREPARING];
  }

  /** Nothing but the monitor has anything to do. */
  lemma OnlyAsking(asked: Slot, o: Oracle)
    requires asked == PREPARING.(monitor := M.Asked(ASKING, 0).m)
    ensures Ticked(PREPARING, 0, o).slot == if o(StepSent) then asked else PREPARING
    ensures !Ticked(PREPARING, 0, o).released
  {
    var moved := TickMonitor(PREPARING, 0, o);
    assert M.Stepped(ASKING, 0) == Some(M.Asked(ASKING, 0));
    assert moved.slot == (if o(StepSent) then asked else PREPARING) && !moved.released;
    assert TickRetry(TickStopping(moved.slot), o) == Unchanged(moved.slot);
    assert TickEnded(moved.slot, 0, o) == Unchanged(moved.slot);
  }

  lemma SecondStep()
    ensures var asked := PREPARING.(monitor := M.Asked(ASKING, 0).m);
            Step(HOUSE, Manager([PREPARING], 1, 1), Unlocking()[1]).m == Manager([asked], 1, 1)
  {
    hide Ticked;
    var m := Manager([PREPARING], 1, 1);
    var asked := PREPARING.(monitor := M.Asked(ASKING, 0).m);
    OnlyAsking(asked, AllWell()(0));
    assert [PREPARING][0 := asked] == [asked];
    assert TickAt(HOUSE, m, 0, 0, AllWell()(0)).m == Manager([asked], 1, 1);
    assert Tick(HOUSE, m, 0, 0, AllWell()).m == m;
  }

  lemma ThirdStep()
    ensures var asked := PREPARING.(monitor := M.Asked(ASKING, 0).m);
            HasConfirmed(Step(HOUSE, Manager([asked], 1, 1), Unlocking()[2]).m, "door", 1)
  {
    var asked := PREPARING.(monitor := M.Asked(ASKING, 0).m);
    var m := Manager([asked], 1, 1);
    var f := Frames.Frame(HERE, DOOR, 0x03, 0x84, M.CONFIRMATION_PAYLOAD);
    var o := AllWell()(0);
    TimelyAnswersAreReported(asked, f, 1, 500, o);
    var r := ControlReceived(asked, HERE, f, 1, 500, o);
    ControlMoves(asked, HERE, f, 1, 500, o);
    assert Search(m.slots, Sender(DOOR, 1)) == 0;
    assert Control(HOUSE, m, f, 1, 500, o).m.slots == [r.0.slot];
  }

  /** The report is not empty: this run ends in one. */
  lemma UnlockingIsConfirmed()
    ensures HasConfirmed(Run(HOUSE, Unlocking()).m, "door", 1)
  {
    hide Step, HasConfirmed, Initial;
    var inputs := Unlocking();
    FirstStep();
    SecondStep();
    ThirdStep();
    assert inputs[..1] == [inputs[0]] && inputs[..2] == [inputs[0], inputs[1]];
    assert inputs[..1][..0] == [];
    assert inputs[..2][..1] == inputs[..1];
    assert inputs[..3] == inputs;
    assert Run(HOUSE, inputs[..1]).m == Step(HOUSE, Initial(HOUSE), inputs[0]).m;
    assert Run(HOUSE, inputs[..2]).m == Step(HOUSE, Run(HOUSE, inputs[..1]).m, inputs[1]).m;
  }
}
