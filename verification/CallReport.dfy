/** What call control reports: of a step, what time did and what went out; of a reception,
    whether it was taken and what it changed. */
module CallReports {
  import opened Words
  import opened Frames
  import opened Sessions
  import opened CallControls
  import opened CallRuns
  import opened CallTalks
  import CallAcks
  import CallBegins
  import CallDispatching
  import CallEnds
  import CallRuntimes
  import Handshakes
  import Receiving
  import SendTransactions

  // ---------------------------------------------------------------------------
  // What a step reports.

  /** What time did: the peer is silent, the session's own time is over, our command has no
      acknowledgement in time, or it is waited for in vain. */
  predicate TellsTime(r: ControlReport, x: World, local: Address, now: u64) {
    var silent := CallEnds.PeerIsSilent(x.c.handshake, x.s, local, now);
    var over := !silent && DeadlineDue(x.d, x.s, now);
    && (r.handshake.disconnected <==> silent)
    && (r.runtime.sessionTimedOut <==> over)
    && (r.runtime.expired <==> !silent && !over && CallEnds.WaitIsOver(x.c.ack, local, x.s, now))
    && (r.runtime.localHangup <==> !silent && !over && LateHangup(x.c.ack, local, x.s, now))
    && (r.runtime.dropped <==>
          x.c.ack.state == CallAcks.Awaiting && (silent || over || !CallAcks.Relevant(x.c.ack.command, x.s, local)))
    && !r.runtime.confirmed && !r.runtime.rejected
  }

  /** What became of the keep-alive slot: a frame went out, or an action found it taken. */
  predicate TellsBeats(r: ControlReport, before: Control, after: Control) {
    && (r.handFrameReady <==>
          && after.handDispatch.state == CallDispatching.Sent
          && (before.handDispatch.state != CallDispatching.Sent || (r.handshake.action.Some? && !r.handActionDropped)))
    && after.handDropped == Min(before.handDropped + if r.handActionDropped then 1 else 0, U64_MAX)
    && (r.handActionDropped ==> r.handshake.action.Some? && after.handDispatch.command == before.handDispatch.command)
    && (r.handshake.action.Some? && !r.handActionDropped ==>
          after.handDispatch.command == ActionCommand(r.handshake.action.value))
  }

  /** What became of the call command: it went out and is waited for, or it is lost. */
  predicate TellsCommand(r: ControlReport, before: Control, after: Control) {
    var was := before.dispatch.state;
    && (r.frameReady <==> was != CallDispatching.Sent && after.dispatch.state == CallDispatching.Sent)
    && r.confirmationStarted == r.frameReady
    && (r.failed <==> CallDispatching.Busy(was) && after.dispatch.state == CallDispatching.Failed)
    && (r.timedOut <==> CallDispatching.Busy(was) && after.dispatch.state == CallDispatching.TimedOut)
    && (r.cancelled <==> CallDispatching.Busy(was) && after.dispatch.state == CallDispatching.Cancelled)
  }

  lemma TimersReport(x: World, local: Address, now: u64)
    requires Sound(x)
    ensures var t := Timers(x.c, x.s, x.d, local, now);
            t.Some? ==>
              && TellsTime(t.value.r, x, local, now)
              && t.value.r == BLANK.(handshake := t.value.r.handshake, runtime := t.value.r.runtime)
              && t.value.c.handDispatch == x.c.handDispatch && t.value.c.handDropped == x.c.handDropped
              && t.value.c.dispatch == x.c.dispatch
              && (t.value.r.handshake.disconnected ==> !Active(t.value.s.state))
  {
    CallEnds.BeatEnds(x.c.handshake, x.s, local, now);
    hide Handshakes.Ticked, CallEnds.PeerIsSilent;
  }

  lemma RevivedReport(x: Situation, local: Address, now: u64)
    ensures var y := Revived(x, local, now);
            y.Some? ==>
              && y.value.r == x.r.(handshake := y.value.r.handshake) && y.value.s == x.s
              && y.value.c == x.c.(handshake := y.value.c.handshake)
              && ((x.r.handshake.disconnected ==> !Active(x.s.state)) ==>
                    y.value.r.handshake.disconnected == x.r.handshake.disconnected)
  {
  }

  lemma KeptAliveReport(x: Situation, local: Address, now: u64, answers: Answers)
    requires x.r == BLANK.(handshake := x.r.handshake, runtime := x.r.runtime)
    ensures var y := KeptAlive(x, local, now, answers);
            y.Some? ==>
              && y.value.r == x.r.(handFrameReady := y.value.r.handFrameReady, handActionDropped := y.value.r.handActionDropped)
              && y.value.c == x.c.(handDispatch := y.value.c.handDispatch)
              && TellsBeats(y.value.r, x.c, Closed(y.value).c)
  {
    hide CallDispatching.Current, ActionCommand;
  }

  lemma UndeliveredReport(x: Situation, previous: Session)
    ensures var y := Undelivered(x, previous);
            var state := x.c.dispatch.state;
            && (y.r.failed <==> state == CallDispatching.Failed) && (y.r.timedOut <==> state == CallDispatching.TimedOut)
            && (y.r.cancelled <==> state == CallDispatching.Cancelled)
            && y.r.frameReady == x.r.frameReady && y.r.confirmationStarted == x.r.confirmationStarted
            && SameTimes(y.r, x.r)
  {
    hide Recorded, Aborted, HasEnded;
  }

  lemma UndeliveredKeeps(x: Situation, previous: Session)
    ensures var y := Undelivered(x, previous);
            y.c.dispatch == x.c.dispatch && y.c.handDispatch == x.c.handDispatch && y.c.handDropped == x.c.handDropped
  {
    hide Aborted, HasEnded;
  }

  /** What the timers and the keep-alive slot reported is left as it is. */
  predicate SameTimes(r: ControlReport, s: ControlReport) {
    && r.handshake == s.handshake && r.handFrameReady == s.handFrameReady && r.handActionDropped == s.handActionDropped
    && r.runtime.confirmed == s.runtime.confirmed && r.runtime.rejected == s.runtime.rejected
    && r.runtime.expired == s.runtime.expired && r.runtime.dropped == s.runtime.dropped
    && r.runtime.sessionTimedOut == s.runtime.sessionTimedOut && r.runtime.localHangup == s.runtime.localHangup
  }

  lemma DeliveredReport(x: Situation, local: Address, now: u64)
    ensures var y := Delivered(x, local, now);
            y.Some? ==>
              && y.value.r == x.r.(frameReady := true, confirmationStarted := true)
              && y.value.c == x.c.(ack := y.value.c.ack)
  {
    hide Receiving.Received, CallDispatching.CommandFrame, CallAcks.Begun;
  }

  lemma ServedReport(x: Situation, previous: Session, local: Address, now: u64, answer: AttemptResult)
    requires x.r == BLANK.(handshake := x.r.handshake, runtime := x.r.runtime, handFrameReady := x.r.handFrameReady,
                           handActionDropped := x.r.handActionDropped)
    ensures var y := Served(x, previous, local, now, answer);
            y.Some? ==>
              && TellsCommand(y.value.r, x.c, y.value.c)
              && SameTimes(y.value.r, x.r)
              && y.value.c.handDispatch == x.c.handDispatch && y.value.c.handDropped == x.c.handDropped
  {
    hide CallDispatching.Stepped, Undelivered, Delivered;
    var (m, status) := CallDispatching.Stepped(x.c.dispatch, x.s, local, now, answer);
    var y := x.(c := x.c.(dispatch := m.d));
    UndeliveredReport(y, previous);
    UndeliveredKeeps(y, previous);
    var z := if CallDispatching.Busy(x.c.dispatch.state) then Undelivered(y, previous) else y;
    DeliveredReport(z, local, now);
    if status == Ok && !CallDispatching.Busy(x.c.dispatch.state) {
      IdleSlot(x.c.dispatch, x.s, local, now, answer);
    }
  }

  /** On every run a step reports what time did to the session and to the wait for our command,
      and what became of the keep-alive and of the command under way. */
  lemma StepsReport(inputs: seq<Input>, local: Address, start: u64, now: u64, answers: Answers)
    ensures var x := Run(inputs, local, start);
            var e := Effect(x, Step(now, answers), local);
            e.Some? ==>
              && TellsTime(e.value.r, x, local, now)
              && TellsBeats(e.value.r, x.c, e.value.c)
              && TellsCommand(e.value.r, x.c, e.value.c)
  {
    hide Run, Timers, Revived, KeptAlive, Served, CallEnds.PeerIsSilent, CallEnds.WaitIsOver, LateHangup, DeadlineDue,
         CallAcks.Relevant;
    var x := Run(inputs, local, start);
    RunsAreSound(inputs, local, start);
    TimersReport(x, local, now);
    var timed := Timers(x.c, x.s, x.d, local, now);
    if timed.Some? {
      RevivedReport(timed.value, local, now);
      var revived := Revived(timed.value, local, now);
      if revived.Some? {
        KeptAliveReport(revived.value, local, now, answers);
        var kept := KeptAlive(revived.value, local, now, answers);
        if kept.Some? {
          ServedReport(kept.value, x.s, local, now, answers.call);
        }
      }
    }
  }

  // ---------------------------------------------------------------------------
  // Which receptions are refused.

  predicate IsBeat(f: Frame) {
    f.family == 3 && (f.opcode == 0x51 || f.opcode == 0x52)
  }

  /** A keep-alive frame that is not the peer's, or that finds no keep-alives under way. */
  predicate BeatIsRefused(x: World, f: Frame, local: Address, now: u64) {
    var h := x.c.handshake;
    || !h.active
    || (Handshakes.Current(h, x.s, local) && (!FromPeer(f, x.s, local, f.opcode) || (f.opcode == 0x51 && now > U64_MAX - 2000)))
  }

  /** A call that comes while another is on the line and does not outrank it, that repeats
      nothing, or that no generation is left for. */
  predicate CallIsRefused(x: World, f: Frame, local: Address, now: u64) {
    if !Active(x.s.state) || LateHangup(x.c.ack, local, x.s, now) then x.s.generation == U64_MAX
    else if x.s.state == Ringing then
      f.source != x.s.peer && (!CallEnds.Outranks(f, x.s, local) || x.s.generation == U64_MAX)
    else true
  }

  lemma BeatRefusals(x: World, f: Frame, local: Address, now: u64)
    requires IsBeat(f) && now >= x.c.handshake.lastNow
    ensures HandReceived(x.c, f, local, x.s, x.d, now).None? <==> BeatIsRefused(x, f, local, now)
  {
    hide CallDispatching.Enqueued, ActionCommand;
  }

  lemma CallRefusals(f: Frame, local: Address, s: Session, d: Deadline, now: u64)
    requires s.generation > 0 || !Active(s.state)
    ensures Receiving.Received(f, local, s, d, now).status != Ok <==>
            && CallBegins.Calls(f, local)
            && if !Active(s.state) then s.generation == U64_MAX
               else s.state != Ringing || (f.source != s.peer && (!CallEnds.Outranks(f, s, local) || s.generation == U64_MAX))
  {
  }

  lemma PassageRefusals(x: World, f: Frame, local: Address, now: u64)
    requires Sound(x)
    ensures CallRuntimes.Received(x.c.ack, f, local, x.s, x.d, now).None? <==>
            now < x.c.ack.lastNow || (CallBegins.Calls(f, local) && CallIsRefused(x, f, local, now))
  {
    hide CallAcks.Relevant, CallAcks.Acknowledges, Receiving.Received, Receiving.RankHere;
    if now < x.c.ack.lastNow {
      TickNeedsTime(x.c.ack, x.s, local, now);
    } else {
      AfterExpiryEffect(x.c.ack, local, x.s, x.d, now);
      var b := CallAcks.Ticked(x.c.ack, x.s, local, now).value;
      assert b.lastNow == now && b.command == x.c.ack.command;
      var q := CallRuntimes.AfterExpiry(CallRuntimes.Passage(b, x.s, x.d, CallRuntimes.Noted(x.c.ack.state, b, CallRuntimes.CALM)));
      assert q.a == b;
      CallRefusals(f, local, q.s, q.d, now);
    }
    hide CallRuntimes.AfterExpiry, LateHangup;
  }

  /** On every run a datagram is refused exactly when it is no frame, a clock has run back, a
      keep-alive is not the peer's, or a call finds the line taken. */
  lemma ReceptionsAreRefused(inputs: seq<Input>, local: Address, start: u64, data: seq<byte>, now: u64)
    ensures var x := Run(inputs, local, start);
            Effect(x, Datagram(data, now), local).None? <==>
            || Parse(data).None?
            || now < x.c.dispatch.lastNow || now < x.c.handshake.lastNow || now < x.c.handDispatch.lastNow
            || var f := Parse(data).value;
               if IsBeat(f) then BeatIsRefused(x, f, local, now)
               else now < x.c.ack.lastNow || (CallBegins.Calls(f, local) && CallIsRefused(x, f, local, now))
  {
    hide Run, CallRuntimes.Received, HandReceived, Parse, CallIsRefused, BeatIsRefused, Classified;
    RunsAreSound(inputs, local, start);
    var x := Run(inputs, local, start);
    if Parse(data).Some? {
      var f := Parse(data).value;
      PassageRefusals(x, f, local, now);
      if IsBeat(f) && now >= x.c.handshake.lastNow {
        BeatRefusals(x, f, local, now);
      }
    }
  }

  // ---------------------------------------------------------------------------
  // What a reception reports.

  /** A time sync of the peer's, within its limit. */
  predicate Syncs(f: Frame, s: Session, local: Address) {
    && f.family == 3 && f.opcode == 0x57 && (s.state == Ringing || s.state == Talking) && |f.payload| == 1
    && f.source == s.peer && f.destination == local && f.payload[0] <= if s.state == Talking then 120 else 30
  }

  /** Our own pick-up, first seen or seen again within its three seconds. */
  predicate ShowsPick(f: Frame, s: Session, local: Address, now: u64) {
    && f.family == 3 && f.opcode == 3 && |f.payload| == 7 && f.source == local && f.destination == s.peer
    && (s.state == Ringing || s.state == Preview) && s.generation != 0
    && (s.pick.generation == s.generation ==> InWindow(s.pick, now))
  }

  /** What a reception that is taken tells of the session before and after. */
  predicate TellsSession(r: Receiving.Report, f: Frame, s: Session, after: Session, local: Address, now: u64) {
    && (r.acceptedCall <==> CallBegins.Calls(f, local))
    && (r.talking <==> s.state != Talking && after.state == Talking)
    && (r.timeSync <==> Syncs(f, s, local))
    && (r.rejectedTimeSync <==> f.family == 3 && f.opcode == 0x57 && !Syncs(f, s, local))
    && (r.rejectedPick <==>
          f.family == 3 && (f.opcode == 3 || f.opcode == 0x83)
          && !ShowsPick(f, s, local, now) && !CallBegins.AnswersPick(f, s, local, now))
    && (r.preempted <==> CallEnds.Outranks(f, s, local))
    && (r.observedHangup <==> Active(s.state) && (CallEnds.PeerHangsUp(f, s, local) || CallEnds.WeHangUp(f, s, local)))
    && (r.localHangup <==> Active(s.state) && CallEnds.WeHangUp(f, s, local))
    && (r.ended <==> r.observedHangup || r.preempted)
    && (r.timedOut <==> CallEnds.TimeIsUp(f, s, local))
    && r.transition.events ==
       (if after.generation == s.generation then []
        else (if r.preempted then [Transition(Hangup, s.peer, s.generation)] else []) +
             [Transition(IncomingCall, f.source, after.generation)])
  }

  lemma ReceptionTells(f: Frame, local: Address, s: Session, d: Deadline, now: u64)
    ensures var e := Receiving.Received(f, local, s, d, now);
            e.status == Ok ==> TellsSession(e.r, f, s, e.s, local, now)
  {
  }

  /** The frame answers the command that waits, in time. */
  predicate Fits(a: CallAcks.Ack, f: Frame, s: Session, local: Address, now: u64) {
    && a.state == CallAcks.Awaiting && CallAcks.Relevant(a.command, s, local) && now < a.deadline
    && CallAcks.Acknowledges(a.command, f)
  }

  /** What became of the wait for our command's acknowledgement. */
  predicate TellsWait(r: CallRuntimes.RuntimeReport, a: CallAcks.Ack, after: CallAcks.Ack, f: Frame, s: Session,
                      local: Address, now: u64) {
    && (r.confirmed <==> Fits(a, f, s, local, now))
    && (r.confirmed <==> a.state == CallAcks.Awaiting && after.state == CallAcks.Confirmed)
    && (r.expired <==> CallEnds.WaitIsOver(a, local, s, now))
    && (r.expired <==> a.state == CallAcks.Awaiting && after.state == CallAcks.Expired)
    && (r.dropped <==> a.state == CallAcks.Awaiting && after.state == CallAcks.Dropped)
    && (r.rejected <==>
          && f.family == 3 && !r.confirmed
          && ((CallAcks.IsPickUp(a.command) && f.opcode == 0x83) || (CallAcks.IsHangUp(a.command) && f.opcode == 0x82)))
    && (r.localHangup <==> LateHangup(a, local, s, now) || CallEnds.ConfirmsHangup(a, f, s, local, now))
    && !r.sessionTimedOut
  }

  lemma FitsMeans(a: CallAcks.Ack, f: Frame, s: Session, local: Address, now: u64)
    ensures Fits(a, f, s, local, now) ==> CallRuntimes.Expects(a.command, f)
    ensures Fits(a, f, s, local, now) && CallAcks.IsHangUp(a.command) <==> CallEnds.ConfirmsHangup(a, f, s, local, now)
  {
  }

  lemma PassageReports(a: CallAcks.Ack, f: Frame, local: Address, s: Session, d: Deadline, now: u64)
    requires Receiving.Guarded(s, d)
    ensures var p := CallRuntimes.Received(a, f, local, s, d, now);
            p.Some? ==>
              && TellsWait(p.value.r, a, p.value.a, f, s, local, now)
              && (!p.value.r.rejected && !p.value.r.localHangup ==>
                    TellsSession(p.value.r.receive, f, s, p.value.s, local, now))
  {
    hide CallAcks.Relevant, CallAcks.Acknowledges, Receiving.Received, TellsSession;
    if now >= a.lastNow {
      AfterExpiryEffect(a, local, s, d, now);
      var b := CallAcks.Ticked(a, s, local, now).value;
      var q := CallRuntimes.AfterExpiry(CallRuntimes.Passage(b, s, d, CallRuntimes.Noted(a.state, b, CallRuntimes.CALM)));
      ReceptionTells(f, local, q.s, q.d, now);
      FitsMeans(a, f, s, local, now);
      hide CallEnds.ConfirmsHangup;
    } else {
      TickNeedsTime(a, s, local, now);
    }
  }

  /** On every run a reception that is taken reports what became of the wait for our command,
      and, unless it answers that command, what it changed. */
  lemma ReceptionsReport(inputs: seq<Input>, local: Address, start: u64, data: seq<byte>, now: u64)
    requires Parse(data).Some?
    ensures var x, f := Run(inputs, local, start), Parse(data).value;
            var e := Effect(x, Datagram(data, now), local);
            e.Some? && !IsBeat(f) ==>
              var r := e.value.r.runtime;
              && TellsWait(r, x.c.ack, e.value.c.ack, f, x.s, local, now)
              && (!r.rejected && !r.localHangup ==> TellsSession(r.receive, f, x.s, e.value.s, local, now))
              && e.value.r == BLANK.(runtime := r)
  {
    hide Run, CallRuntimes.Received, HandReceived, Parse, TellsWait, TellsSession, Receiving.Guarded;
    RunsAreSound(inputs, local, start);
    var x := Run(inputs, local, start);
    PassageReports(x.c.ack, Parse(data).value, local, x.s, x.d, now);
  }

  /** On every run a keep-alive of the peer's that is taken is reported as what it is; a probe
      is answered, unless the slot for keep-alives is taken, which is reported and counted. */
  lemma BeatsReport(inputs: seq<Input>, local: Address, start: u64, data: seq<byte>, now: u64)
    requires Parse(data).Some? && IsBeat(Parse(data).value)
    ensures var x, f := Run(inputs, local, start), Parse(data).value;
            var e := Effect(x, Datagram(data, now), local);
            e.Some? ==>
              var mine := Handshakes.Current(x.c.handshake, x.s, local);
              var y, r := e.value.c, e.value.r;
              var action := if mine && f.opcode == 0x51 then Some(Handshakes.Reply(x.s.peer, local, x.s.generation)) else None;
              && r == BLANK.(handshake := Handshakes.Outcome(action, action.Some?, mine && f.opcode == 0x52, false),
                             handActionDropped := r.handActionDropped)
              && y.handDropped == Min(x.c.handDropped + if r.handActionDropped then 1 else 0, U64_MAX)
              && (r.handActionDropped ==> action.Some? && y.handDispatch == x.c.handDispatch)
              && (action.Some? && !r.handActionDropped ==>
                    && !CallDispatching.Busy(x.c.handDispatch.state)
                    && y.handDispatch.state == CallDispatching.Queued && y.handDispatch.command == ActionCommand(action.value))
  {
    hide Run, CallControls.CallReceived, Parse, ActionCommand, CallDispatching.Acceptable;
  }
}
