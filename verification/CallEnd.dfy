/** Why calls end: on every run a session is over after an input exactly when one of eight
    things happened in it, and each goes on record under its own name. */
module CallEnds {
  import opened Words
  import opened Frames
  import opened Sessions
  import opened CallControls
  import opened CallRuns
  import CallAcks
  import CallDispatching
  import CallRuntimes
  import Handshakes
  import Receiving
  import SendTransactions

  // ---------------------------------------------------------------------------
  // What a frame can say.

  /** The peer hangs up. */
  predicate PeerHangsUp(f: Frame, s: Session, local: Address) {
    f.family == 3 && f.opcode == 2 && |f.payload| == 1 && f.source == s.peer && IsFor(f, local)
  }

  /** Our own hang-up is seen on the wire. */
  predicate WeHangUp(f: Frame, s: Session, local: Address) {
    f.family == 3 && f.opcode == 2 && |f.payload| == 1 && f.source == local && f.destination == s.peer
  }

  /** The peer says that no time is left. */
  predicate TimeIsUp(f: Frame, s: Session, local: Address) {
    && f.family == 3 && f.opcode == 0x57 && f.payload == [0] && f.source == s.peer && f.destination == local
    && (s.state == Ringing || s.state == Talking)
  }

  /** Somebody of higher rank calls while another rings. */
  predicate Outranks(f: Frame, s: Session, local: Address) {
    && f.family == 3 && f.opcode == 1 && IsFor(f, local) && s.state == Ringing && f.source != s.peer
    && 0 <= Receiving.RankHere(s.peer, local) < Receiving.RankHere(f.source, local)
  }

  /** The peer confirms our hang-up in time. */
  predicate ConfirmsHangup(a: CallAcks.Ack, f: Frame, s: Session, local: Address, now: u64) {
    && a.state == CallAcks.Awaiting && CallAcks.IsHangUp(a.command) && CallAcks.Relevant(a.command, s, local)
    && now < a.deadline
    && f.family == 3 && f.opcode == 0x82 && f.payload == [] && f.source == s.peer && f.destination == local
  }

  /** A frame after which the session is over, one way or another. */
  predicate FrameEnds(a: CallAcks.Ack, f: Frame, s: Session, local: Address, now: u64) {
    || LateHangup(a, local, s, now) || ConfirmsHangup(a, f, s, local, now)
    || PeerHangsUp(f, s, local) || WeHangUp(f, s, local) || TimeIsUp(f, s, local) || Outranks(f, s, local)
  }

  /** The name of that end. */
  function FrameReason(a: CallAcks.Ack, f: Frame, s: Session, local: Address, now: u64): EndReason {
    if LateHangup(a, local, s, now) || ConfirmsHangup(a, f, s, local, now) || WeHangUp(f, s, local) then LocalHangup
    else if PeerHangsUp(f, s, local) then PeerHangup
    else if TimeIsUp(f, s, local) then SessionTimeout
    else PreemptedEnd
  }

  /** The second in which our command was to be acknowledged is over. */
  predicate WaitIsOver(a: CallAcks.Ack, local: Address, s: Session, now: u64) {
    a.state == CallAcks.Awaiting && CallAcks.Relevant(a.command, s, local) && now >= a.deadline
  }

  /** What had gone wrong by that end. */
  function FrameFault(a: CallAcks.Ack, f: Frame, s: Session, local: Address, now: u64): Fault {
    if LateHangup(a, local, s, now) then ConfirmationTimeout
    else if ConfirmsHangup(a, f, s, local, now) then NoFault
    else if Outranks(f, s, local) then PreemptedFault
    else if TimeIsUp(f, s, local) || !WaitIsOver(a, local, s, now) then NoFault
    else ConfirmationTimeout
  }

  /** What the reception itself makes of a frame for an active session. */
  lemma ReceptionEnds(f: Frame, local: Address, s: Session, d: Deadline, now: u64)
    requires Active(s.state)
    ensures var e := Receiving.Received(f, local, s, d, now);
            e.status == Ok ==>
              && (Gone(s, e.s) <==>
                    PeerHangsUp(f, s, local) || WeHangUp(f, s, local) || TimeIsUp(f, s, local) || Outranks(f, s, local))
              && (e.r.preempted <==> Outranks(f, s, local))
              && (e.r.timedOut <==> TimeIsUp(f, s, local))
              && (e.r.ended <==> PeerHangsUp(f, s, local) || WeHangUp(f, s, local) || Outranks(f, s, local))
              && (PeerHangsUp(f, s, local) || WeHangUp(f, s, local) ==> (e.r.localHangup <==> WeHangUp(f, s, local)))
              && (Gone(s, e.s) && !Outranks(f, s, local) ==> e.s.state == Ended)
  {
  }

  /** What the report of a frame's passage says about an end. */
  predicate EndTold(s: Session, p: CallRuntimes.Passage, late: bool, confirmed: bool, over: bool, f: Frame,
                    local: Address) {
    && !p.r.sessionTimedOut && (p.r.expired <==> over) && (late ==> over) && (confirmed ==> !over)
    && (Gone(s, p.s) <==>
          late || confirmed || PeerHangsUp(f, s, local) || WeHangUp(f, s, local) || TimeIsUp(f, s, local) || Outranks(f, s, local))
    && (late || confirmed ==> p.r.localHangup && p.s.state == Ended && !p.r.receive.preempted && !p.r.receive.timedOut)
    && (!late && !confirmed ==>
          && !p.r.localHangup
          && (p.r.receive.preempted <==> Outranks(f, s, local))
          && (p.r.receive.timedOut <==> TimeIsUp(f, s, local))
          && (PeerHangsUp(f, s, local) || WeHangUp(f, s, local) ==>
                p.r.receive.ended && p.s.state == Ended && (p.r.receive.localHangup <==> WeHangUp(f, s, local))))
  }

  lemma LateEnds(q: CallRuntimes.Passage, f: Frame, local: Address, s: Session, now: u64)
    requires Found(q, s) && q.s != s && Active(s.state) && q.s.state == Ended && q.r.expired
    requires !(EventOf(f) == IncomingCall && IsFor(f, local))
    ensures CallRuntimes.Passed(q, f, local, now).Some? ==>
              EndTold(s, CallRuntimes.Passed(q, f, local, now).value, true, false, true, f, local)
    ensures CallRuntimes.Answered(q, f, local, now).Some? ==>
              EndTold(s, CallRuntimes.Answered(q, f, local, now).value, true, false, true, f, local)
  {
    EndedHears(f, local, q.s, q.d, now);
    hide Receiving.Received, CallAcks.Ticked, PeerHangsUp, WeHangUp, TimeIsUp, Outranks;
  }

  lemma EndedHears(f: Frame, local: Address, s: Session, d: Deadline, now: u64)
    requires s.state == Ended && !(EventOf(f) == IncomingCall && IsFor(f, local))
    ensures var e := Receiving.Received(f, local, s, d, now);
            e.status == Ok ==> e.s == s && !e.r.preempted && !e.r.timedOut && !e.r.ended
  {
  }

  lemma PassingEnds(q: CallRuntimes.Passage, f: Frame, local: Address, s: Session, now: u64)
    requires Found(q, s) && q.s == s && Active(s.state) && (q.r.expired ==> q.a.state == CallAcks.Expired)
    requires q.a.state == CallAcks.Awaiting ==> now < q.a.deadline
    ensures CallRuntimes.Passed(q, f, local, now).Some? ==>
              EndTold(s, CallRuntimes.Passed(q, f, local, now).value, false, false, q.r.expired, f, local)
  {
    ReceptionEnds(f, local, s, q.d, now);
    hide Receiving.Received, CallAcks.Relevant, PeerHangsUp, WeHangUp, TimeIsUp, Outranks;
  }

  lemma AnswerEnds(q: CallRuntimes.Passage, f: Frame, local: Address, s: Session, now: u64)
    requires Found(q, s) && q.s == s && Active(s.state) && CallRuntimes.Expects(q.a.command, f)
    requires q.r.expired ==> q.a.state == CallAcks.Expired
    ensures var p := CallRuntimes.Answered(q, f, local, now);
            p.Some? ==>
              EndTold(s, p.value, false, ConfirmsHangup(q.a, f, s, local, now) && now >= q.a.lastNow, q.r.expired, f, local)
  {
    ReceptionEnds(f, local, s, q.d, now);
    assert !PeerHangsUp(f, s, local) && !WeHangUp(f, s, local) && !TimeIsUp(f, s, local) && !Outranks(f, s, local);
    hide Receiving.Received, PeerHangsUp, WeHangUp, TimeIsUp, Outranks;
  }

  lemma PassageEnds(a: CallAcks.Ack, f: Frame, local: Address, s: Session, d: Deadline, now: u64)
    requires Receiving.Guarded(s, d) && Active(s.state)
    requires !(LateHangup(a, local, s, now) && EventOf(f) == IncomingCall && IsFor(f, local))
    ensures var p := CallRuntimes.Received(a, f, local, s, d, now);
            p.Some? ==>
              EndTold(s, p.value, LateHangup(a, local, s, now),
                      !LateHangup(a, local, s, now) && ConfirmsHangup(a, f, s, local, now),
                      WaitIsOver(a, local, s, now), f, local)
  {
    hide CallAcks.Ticked, Receiving.Received, Receiving.Guarded, EndTold, LateHangup, ConfirmsHangup, CallRuntimes.Answered,
         CallRuntimes.Passed, CallRuntimes.AfterExpiry, CallRuntimes.Noted, WaitIsOver;
    if now >= a.lastNow {
      AfterExpiryEffect(a, local, s, d, now);
      WaitIsNoted(a, local, s, d, now);
      var b := CallAcks.Ticked(a, s, local, now).value;
      var q := CallRuntimes.AfterExpiry(CallRuntimes.Passage(b, s, d, CallRuntimes.Noted(a.state, b, CallRuntimes.CALM)));
      if q.s != s {
        LateEnds(q, f, local, s, now);
      } else {
        WaitStays(a, f, local, s, d, now);
        PassingEnds(q, f, local, s, now);
        if CallRuntimes.Expects(q.a.command, f) {
          AnswerEnds(q, f, local, s, now);
        }
      }
    } else {
      TickNeedsTime(a, s, local, now);
    }
  }

  lemma WaitIsNoted(a: CallAcks.Ack, local: Address, s: Session, d: Deadline, now: u64)
    requires now >= a.lastNow
    ensures var b := CallAcks.Ticked(a, s, local, now);
            && b.Some?
            && var q := CallRuntimes.AfterExpiry(CallRuntimes.Passage(b.value, s, d,
                          CallRuntimes.Noted(a.state, b.value, CallRuntimes.CALM)));
               && (q.r.expired <==> WaitIsOver(a, local, s, now))
               && (q.r.expired ==> q.a.state == CallAcks.Expired)
               && (q.a.state == CallAcks.Awaiting ==> now < q.a.deadline)
               && (q.s != s ==> q.r.expired)
  {
    hide CallAcks.Relevant;
  }

  /** Ticking the wait first does not change what a confirmation is. */
  lemma WaitStays(a: CallAcks.Ack, f: Frame, local: Address, s: Session, d: Deadline, now: u64)
    requires now >= a.lastNow && !LateHangup(a, local, s, now)
    ensures var b := CallAcks.Ticked(a, s, local, now);
            && b.Some?
            && var q := CallRuntimes.AfterExpiry(CallRuntimes.Passage(b.value, s, d,
                          CallRuntimes.Noted(a.state, b.value, CallRuntimes.CALM)));
               && q.a == b.value && now >= q.a.lastNow
               && (ConfirmsHangup(q.a, f, s, local, now) <==> ConfirmsHangup(a, f, s, local, now))
               && (ConfirmsHangup(a, f, s, local, now) ==> CallRuntimes.Expects(q.a.command, f))
  {
    hide CallAcks.Relevant;
  }

  /** After a frame that call control has taken, an active session is over exactly if the
      frame, or our hang-up's time, says so, and the record then names that reason; only a
      call that overtakes our overdue hang-up leaves no record. */
  lemma FramesEndCalls(c: Control, f: Frame, local: Address, s: Session, d: Deadline, now: u64)
    requires Receiving.Guarded(s, d) && RecordOk(c, s) && Active(s.state)
    ensures var x := CallControls.CallReceived(c, f, local, s, d, now);
            x.Some? ==>
              && (Gone(s, x.value.s) <==> FrameEnds(c.ack, f, s, local, now))
              && (Gone(s, x.value.s) && !Overtaken(c, f, local, s, now) ==>
                    && OnRecord(x.value.c, s) && x.value.c.terminal.reason == FrameReason(c.ack, f, s, local, now)
                    && x.value.c.terminal.fault == FrameFault(c.ack, f, s, local, now))
  {
    hide CallRuntimes.Received, Receiving.Guarded, LateHangup, ConfirmsHangup, WaitIsOver, PeerHangsUp, WeHangUp, TimeIsUp, Outranks, Classified;
    GuardedGeneration(s, d);
    ReceptionRecords(c, f, local, s, d, now);
    var p := CallRuntimes.Received(c.ack, f, local, s, d, now);
    if !Overtaken(c, f, local, s, now) {
      PassageEnds(c.ack, f, local, s, d, now);
      if p.Some? {
        EndIsNamed(c.(ack := p.value.a), s, p.value, LateHangup(c.ack, local, s, now),
                   !LateHangup(c.ack, local, s, now) && ConfirmsHangup(c.ack, f, s, local, now),
                   WaitIsOver(c.ack, local, s, now), f, local);
      }
    }
  }

  lemma EndIsNamed(c: Control, s: Session, p: CallRuntimes.Passage, late: bool, confirmed: bool, over: bool, f: Frame,
                   local: Address)
    requires Active(s.state) && s.generation > 0 && RecordOk(c, s) && EndTold(s, p, late, confirmed, over, f, local)
    ensures Gone(s, p.s) ==>
              var t := Classified(c, s, p.s, p.r, false).terminal;
              && t.reason == (if late || confirmed || WeHangUp(f, s, local) then LocalHangup
                              else if PeerHangsUp(f, s, local) then PeerHangup
                              else if TimeIsUp(f, s, local) then SessionTimeout else PreemptedEnd)
              && t.fault == (if late then ConfirmationTimeout
                             else if confirmed then NoFault
                             else if Outranks(f, s, local) then PreemptedFault
                             else if TimeIsUp(f, s, local) || !over then NoFault else ConfirmationTimeout)
  {
    hide Receiving.RankHere;
  }

  // ---------------------------------------------------------------------------
  // What time can bring.

  /** Five keep-alives are unanswered and the next is due. */
  predicate PeerIsSilent(h: Handshakes.Handshake, s: Session, local: Address, now: u64) {
    Handshakes.Current(h, s, local) && now >= h.nextProbe && (h.missed >= 5 || now > U64_MAX - 2000)
  }

  /** The slot gives its command up: the third attempt fails or has no report in time, or the
      first one never gets its turn. */
  predicate GivesUp(d: CallDispatching.Dispatch, now: u64, answer: AttemptResult) {
    var turn := (d.state == CallDispatching.Queued && now < d.deadline) || (d.state == CallDispatching.Retry && now >= d.deadline);
    || (d.state == CallDispatching.Queued && now >= d.deadline)
    || (d.state == CallDispatching.Sending && now >= d.deadline && (d.attempts >= 3 || now > U64_MAX - 100))
    || (turn && (|| now > U64_MAX - 250 || d.nextId == 0
                 || (answer == SendTransactions.Failure && (d.attempts >= 2 || now > U64_MAX - 100))))
  }

  /** It gives up because of a failure, not for want of time. */
  predicate FailsOutright(d: CallDispatching.Dispatch, now: u64, answer: AttemptResult) {
    && ((d.state == CallDispatching.Queued && now < d.deadline) || (d.state == CallDispatching.Retry && now >= d.deadline))
    && now <= U64_MAX - 250
    && (d.nextId == 0 || (answer == SendTransactions.Failure && d.attempts >= 2))
  }

  /** Our hang-up cannot be delivered. */
  predicate HangupIsLost(d: CallDispatching.Dispatch, s: Session, local: Address, now: u64, answer: AttemptResult) {
    && CallAcks.IsHangUp(d.command) && CallDispatching.Current(d.command, s, local) && GivesUp(d, now, answer)
  }

  lemma GivingUpIsFinal(d: CallDispatching.Dispatch, s: Session, local: Address, now: u64, answer: AttemptResult)
    requires CallDispatching.Busy(d.state) && now >= d.lastNow && CallDispatching.Current(d.command, s, local)
    ensures var next := CallDispatching.Stepped(d, s, local, now, answer).0.d;
            && (next.state == CallDispatching.Failed || next.state == CallDispatching.TimedOut <==> GivesUp(d, now, answer))
            && (next.state == CallDispatching.Failed <==> FailsOutright(d, now, answer))
            && next.command == d.command
  {
    hide CallDispatching.Current;
  }

  /** The end that time brings to a session, before anything is sent for it. */
  predicate TimeEnds(x: World, local: Address, now: u64) {
    PeerIsSilent(x.c.handshake, x.s, local, now) || DeadlineDue(x.d, x.s, now) || LateHangup(x.c.ack, local, x.s, now)
  }

  function TimeReason(x: World, local: Address, now: u64): EndReason {
    if PeerIsSilent(x.c.handshake, x.s, local, now) then HeartbeatTimeout
    else if DeadlineDue(x.d, x.s, now) then SessionTimeout
    else LocalHangup
  }

  function TimeFault(x: World, local: Address, now: u64): Fault {
    if PeerIsSilent(x.c.handshake, x.s, local, now) then HeartbeatFault
    else if DeadlineDue(x.d, x.s, now) then NoFault
    else ConfirmationTimeout
  }

  function LossFault(d: CallDispatching.Dispatch, now: u64, answer: AttemptResult): Fault {
    if FailsOutright(d, now, answer) then DispatchFailed else DispatchTimeout
  }

  lemma TimersEnd(x: World, local: Address, now: u64)
    requires Sound(x) && Active(x.s.state)
    ensures var t := Timers(x.c, x.s, x.d, local, now);
            t.Some? ==>
              && (t.value.s != x.s <==> TimeEnds(x, local, now))
              && (TimeEnds(x, local, now) ==>
                    && t.value.s.state == Ended && t.value.c.terminal.reason == TimeReason(x, local, now)
                    && t.value.c.terminal.fault == TimeFault(x, local, now))
  {
    hide CallAcks.Relevant, Handshakes.Current;
    BeatEnds(x.c.handshake, x.s, local, now);
    hide Handshakes.Ticked;
  }

  lemma BeatEnds(h: Handshakes.Handshake, s: Session, local: Address, now: u64)
    ensures var b := Handshakes.Ticked(h, s, local, now);
            && (b.status == Ok <==> now >= h.lastNow)
            && (b.status == Ok ==>
                  && (b.outcome.disconnected <==> PeerIsSilent(h, s, local, now))
                  && b.s == if PeerIsSilent(h, s, local, now) then Aborted(s).0 else s)
  {
  }

  lemma ServedEnds(x: Situation, previous: Session, local: Address, now: u64, answer: AttemptResult)
    requires Receiving.Guarded(x.s, x.d) && RecordOk(x.c, x.s) && Active(x.s.state)
    requires previous.generation == x.s.generation && previous.peer == x.s.peer
    ensures var y := Served(x, previous, local, now, answer);
            y.Some? ==>
              && (EndedFrom(x.s, y.value.s) <==> HangupIsLost(x.c.dispatch, x.s, local, now, answer))
              && (EndedFrom(x.s, y.value.s) ==>
                    && y.value.c.terminal.reason == LocalHangup
                    && y.value.c.terminal.fault == LossFault(x.c.dispatch, now, answer))
  {
    ServedEffect(x, previous, local, now, answer);
    var (m, status) := CallDispatching.Stepped(x.c.dispatch, x.s, local, now, answer);
    if status == Ok {
      if CallDispatching.Busy(x.c.dispatch.state) {
        DispatchEndsWhileCurrent(x.c.dispatch, x.s, local, now, answer);
        if CallDispatching.Current(x.c.dispatch.command, x.s, local) {
          GivingUpIsFinal(x.c.dispatch, x.s, local, now, answer);
        }
      } else {
        IdleSlot(x.c.dispatch, x.s, local, now, answer);
      }
    }
    hide CallDispatching.Stepped, Delivered, GivesUp, FailsOutright;
  }

  lemma StepsEndCalls(x: World, local: Address, now: u64, answers: Answers)
    requires Sound(x) && Active(x.s.state)
    ensures var e := Effect(x, Step(now, answers), local);
            e.Some? ==>
              && (Gone(x.s, e.value.s) <==>
                    TimeEnds(x, local, now) || HangupIsLost(x.c.dispatch, x.s, local, now, answers.call))
              && (Gone(x.s, e.value.s) ==>
                    && OnRecord(e.value.c, x.s)
                    && e.value.c.terminal.reason == (if TimeEnds(x, local, now) then TimeReason(x, local, now) else LocalHangup)
                    && e.value.c.terminal.fault == (if TimeEnds(x, local, now) then TimeFault(x, local, now)
                                                    else LossFault(x.c.dispatch, now, answers.call)))
  {
    hide Timers, Revived, KeptAlive, Served, TimeEnds, HangupIsLost, TimeReason, TimeFault, LossFault, Receiving.Guarded;
    GuardedGeneration(x.s, x.d);
    StepEffect(x.c, x.s, x.d, local, now, answers);
    TimersEnd(x, local, now);
    TimersEffect(x.c, x.s, x.d, local, now);
    var timed := Timers(x.c, x.s, x.d, local, now);
    if timed.Some? {
      RevivedEffect(timed.value, local, now);
      var revived := Revived(timed.value, local, now);
      if revived.Some? {
        KeptAliveEffect(revived.value, local, now, answers);
        var kept := KeptAlive(revived.value, local, now, answers);
        if kept.Some? {
          if timed.value.s == x.s {
            ServedEnds(kept.value, x.s, local, now, answers.call);
          } else {
            EndedStaysEnded(kept.value, x.s, local, now, answers.call);
            EndedKeepsRecord(kept.value, x.s, local, now, answers.call);
          }
        }
      }
    }
  }

  lemma EndedKeepsRecord(x: Situation, previous: Session, local: Address, now: u64, answer: AttemptResult)
    requires x.s.state == Ended && Receiving.Guarded(x.s, x.d) && RecordOk(x.c, x.s)
    ensures var y := Served(x, previous, local, now, answer);
            y.Some? ==> y.value.c.terminal == x.c.terminal
  {
    hide Served;
    ServedEffect(x, previous, local, now, answer);
  }

  /** Something that ends the active session happens in this input. */
  predicate Ends(x: World, i: Input, local: Address) {
    match i
    case Step(now, answers) => TimeEnds(x, local, now) || HangupIsLost(x.c.dispatch, x.s, local, now, answers.call)
    case Datagram(data, now) => Parse(data).Some? && FrameEnds(x.c.ack, Parse(data).value, x.s, local, now)
    case _ => false
  }

  function Reason(x: World, i: Input, local: Address): EndReason {
    match i
    case Step(now, _) => if TimeEnds(x, local, now) then TimeReason(x, local, now) else LocalHangup
    case Datagram(data, now) =>
      if Parse(data).Some? then FrameReason(x.c.ack, Parse(data).value, x.s, local, now) else NoEnd
    case _ => NoEnd
  }

  /** What had gone wrong. */
  function Wrong(x: World, i: Input, local: Address): Fault {
    match i
    case Step(now, answers) =>
      if TimeEnds(x, local, now) then TimeFault(x, local, now) else LossFault(x.c.dispatch, now, answers.call)
    case Datagram(data, now) =>
      if Parse(data).Some? then FrameFault(x.c.ack, Parse(data).value, x.s, local, now) else NoFault
    case _ => NoFault
  }

  /** A frame about keep-alives; it never ends a call. */
  predicate IsKeepAlive(f: Frame) {
    f.family == 3 && (f.opcode == 0x51 || f.opcode == 0x52)
  }

  lemma InputsEndCalls(x: World, i: Input, local: Address)
    requires Sound(x) && Active(x.s.state)
    requires i.Datagram? && Parse(i.data).Some? ==> !IsKeepAlive(Parse(i.data).value)
    ensures var y := Next(x, i, local);
            && (Gone(x.s, y.s) <==> Effect(x, i, local).Some? && Ends(x, i, local))
            && (Gone(x.s, y.s) && !Overtakes(x, i, local) ==>
                  && OnRecord(y.c, x.s) && y.c.terminal.reason == Reason(x, i, local)
                  && y.c.terminal.fault == Wrong(x, i, local))
  {
    match i
    case Step(now, answers) =>
      StepsEndCalls(x, local, now, answers);
      hide CallControls.Stepped, TimeEnds, HangupIsLost, TimeFault, LossFault;
    case Datagram(data, now) =>
      if Parse(data).Some? {
        FramesEndCalls(x.c, Parse(data).value, local, x.s, x.d, now);
      }
      hide CallControls.CallReceived, Parse, FrameEnds, FrameReason, FrameFault, Overtaken;
    case Submit(command, now) =>
      hide CallDispatching.Enqueued;
    case Install(peer, primary, secondary, duration, now) =>
  }

  lemma KeepAlivesEndNothing(x: World, data: seq<byte>, now: u64, local: Address)
    requires Parse(data).Some? && IsKeepAlive(Parse(data).value)
    ensures Next(x, Datagram(data, now), local).s == x.s
    ensures Next(x, Datagram(data, now), local).c.terminal == x.c.terminal
  {
    hide Handshakes.Received, CallDispatching.Enqueued, ActionCommand, Parse;
  }

  /** On every run, an active session is over after an input exactly if that input was taken
      and one of these happened in it: the peer hung up; our own hang-up was seen, confirmed,
      left unanswered for its second, or could not be delivered; the deadline came; the peer
      said that no time is left; five keep-alives went unanswered; or somebody of higher rank
      called. The record then names that reason and what had gone wrong, unless the call came
      too soon for it. */
  lemma EveryEndHasItsReason(inputs: seq<Input>, local: Address, start: u64, k: nat)
    requires k < |inputs|
    requires inputs[k].Datagram? && Parse(inputs[k].data).Some? ==> !IsKeepAlive(Parse(inputs[k].data).value)
    ensures var x, y := Run(inputs[..k], local, start), Run(inputs[..k + 1], local, start);
            Active(x.s.state) ==>
              && (Gone(x.s, y.s) <==> Effect(x, inputs[k], local).Some? && Ends(x, inputs[k], local))
              && (Gone(x.s, y.s) && !Overtakes(x, inputs[k], local) ==>
                    && OnRecord(y.c, x.s) && y.c.terminal.reason == Reason(x, inputs[k], local)
                    && y.c.terminal.fault == Wrong(x, inputs[k], local))
  {
    hide Next, Run, Sound, Overtakes, Ends, Effect, Reason, Wrong, Parse;
    RunsAreSound(inputs[..k], local, start);
    RunStep(inputs, local, start, k);
    if Active(Run(inputs[..k], local, start).s.state) {
      InputsEndCalls(Run(inputs[..k], local, start), inputs[k], local);
    }
  }

  /** A hang-up is taken at any time that is not behind us. */
  lemma HangupIsTaken(a: CallAcks.Ack, f: Frame, local: Address, s: Session, d: Deadline, now: u64)
    requires Receiving.Guarded(s, d) && Active(s.state) && now >= a.lastNow
    requires PeerHangsUp(f, s, local) && !LateHangup(a, local, s, now)
    ensures var p := CallRuntimes.Received(a, f, local, s, d, now);
            p.Some? && EndedFrom(s, p.value.s) && p.value.d == DISARMED
  {
    hide CallAcks.Relevant, LateHangup;
    AfterExpiryEffect(a, local, s, d, now);
    WaitStays(a, f, local, s, d, now);
    var b := CallAcks.Ticked(a, s, local, now).value;
    assert b.lastNow == now;
    hide CallRuntimes.AfterExpiry;
    var e := Receiving.Received(f, local, s, d, now);
    assert e == Receiving.HangupReceived(f, local, s, d) && e.status == Ok && e.d == DISARMED && EndedFrom(s, e.s);
  }

  /** In particular, the peer's hang-up always ends the call, and its deadline with it, when
      it comes in time; our own overdue hang-up is the only thing that can be named instead. */
  lemma PeersCanHangUp(inputs: seq<Input>, local: Address, start: u64, data: seq<byte>, now: u64)
    requires Parse(data).Some?
    ensures var x, f := Run(inputs, local, start), Parse(data).value;
            Active(x.s.state) && InTime(x.c, now) && PeerHangsUp(f, x.s, local)
            && !LateHangup(x.c.ack, local, x.s, now) && !WeHangUp(f, x.s, local) ==>
              var y := Next(x, Datagram(data, now), local);
              EndedFrom(x.s, y.s) && y.d == DISARMED && OnRecord(y.c, x.s) && y.c.terminal.reason == PeerHangup
  {
    hide Run, LateHangup, CallRuntimes.Received, Receiving.Guarded, ConfirmsHangup, TimeIsUp, Outranks, Classified, Parse;
    var x, f := Run(inputs, local, start), Parse(data).value;
    RunsAreSound(inputs, local, start);
    if Active(x.s.state) && InTime(x.c, now) && PeerHangsUp(f, x.s, local)
       && !LateHangup(x.c.ack, local, x.s, now) && !WeHangUp(f, x.s, local) {
      HangupIsTaken(x.c.ack, f, local, x.s, x.d, now);
      FramesEndCalls(x.c, f, local, x.s, x.d, now);
      HangupConfirmsNothing(x.c.ack, f, x.s, local, now);
    }
  }

  lemma HangupConfirmsNothing(a: CallAcks.Ack, f: Frame, s: Session, local: Address, now: u64)
    requires PeerHangsUp(f, s, local)
    ensures !ConfirmsHangup(a, f, s, local, now)
  {
  }
}
