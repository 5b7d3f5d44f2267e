/** Call control: the command slot, the acknowledgement, the keep-alives and the terminal
    record, stepped by time and by received frames (src/gvs_call_control.c). */
module CallControls {
  import opened Words
  import opened Frames
  import opened Sessions
  import CallAcks
  import CallDispatching
  import CallRuntimes
  import Handshakes
  import Receiving
  import SendTransactions

  type Command = CallDispatching.Command
  type Dispatch = CallDispatching.Dispatch
  type AttemptResult = SendTransactions.AttemptResult

  const CONFIRM_TIMEOUT_MS := 1000

  datatype EndReason = NoEnd | LocalHangup | PeerHangup | SessionTimeout | PreemptedEnd | HeartbeatTimeout | UnknownEnd

  datatype Fault = NoFault | DispatchFailed | DispatchTimeout | ConfirmationTimeout | PreemptedFault
                 | CancelledFault | HeartbeatFault

  /** How the last session ended. */
  datatype Terminal = Terminal(reason: EndReason, fault: Fault, station: Address, generation: u64)

  datatype Control = Control(
    dispatch: Dispatch, ack: CallAcks.Ack, handshake: Handshakes.Handshake, handDispatch: Dispatch,
    handDropped: u64, terminal: Terminal, fault: Fault, observed: u64)

  datatype ControlReport = ControlReport(
    runtime: CallRuntimes.RuntimeReport, handshake: Handshakes.Outcome, handFrameReady: bool, handActionDropped: bool,
    frameReady: bool, confirmationStarted: bool, failed: bool, timedOut: bool, cancelled: bool)

  const BLANK := ControlReport(CallRuntimes.CALM, Handshakes.NOTHING, false, false, false, false, false, false, false)

  /** Control, session, deadline, and what is reported. */
  datatype Situation = Situation(c: Control, s: Session, d: Deadline, r: ControlReport)

  function Initial(now: u64): Control {
    Control(CallDispatching.Initial(now), CallAcks.Initial(now), Handshakes.Initial(now), CallDispatching.Initial(now),
            0, Terminal(NoEnd, NoFault, NO_ADDRESS, 0), NoFault, 0)
  }

  // ---------------------------------------------------------------------------
  // The terminal record.

  predicate HasEnded(t: Terminal, generation: u64) {
    t.reason != NoEnd && t.generation == generation
  }

  function Recorded(c: Control, reason: EndReason, fault: Fault, station: Address, generation: u64): Control {
    if generation == 0 || HasEnded(c.terminal, generation) then c
    else c.(terminal := Terminal(reason, fault, station, generation), fault := fault)
  }

  /** Names the end of a session that just ended; `previous` is the session before. */
  function Classified(c: Control, previous: Session, s: Session, r: CallRuntimes.RuntimeReport,
                      disconnected: bool): Control {
    var fault := if r.expired then ConfirmationTimeout else NoFault;
    var was := Active(previous.state);
    var seen := c.(observed := s.generation);
    if disconnected && was then
      Recorded(seen, HeartbeatTimeout, HeartbeatFault, previous.peer, previous.generation)
    else if r.receive.preempted then
      (if was then Recorded(seen, PreemptedEnd, PreemptedFault, previous.peer, previous.generation) else seen)
      .(fault := NoFault)
    else if (r.sessionTimedOut || r.receive.timedOut) && was then
      Recorded(seen, SessionTimeout, NoFault, previous.peer, previous.generation)
    else if (r.receive.ended || r.localHangup) && was && s.state == Ended then
      Recorded(seen, if r.receive.localHangup || r.localHangup then LocalHangup else PeerHangup, fault,
               previous.peer, previous.generation)
    else if was && s.state == Ended then
      Recorded(seen, UnknownEnd, fault, previous.peer, previous.generation)
    else if fault != NoFault && !HasEnded(c.terminal, s.generation) then seen.(fault := fault)
    else if !was && Active(s.state) && previous.generation != s.generation then seen.(fault := NoFault)
    else seen
  }

  // ---------------------------------------------------------------------------
  // One step.

  /** What the send callbacks answer: the keep-alive slot may be stepped twice. */
  datatype Answers = Answers(first: AttemptResult, second: AttemptResult, call: AttemptResult)

  function ActionCommand(a: Handshakes.Action): Command {
    CallDispatching.Command(true, if a.Ask? then CallDispatching.HandAsk else CallDispatching.HandReply,
                            a.destination, a.source, a.generation, if a.Ask? then 0x51 else 0x52, [])
  }

  /** Keep-alive, deadline and acknowledgement timers, and the name of what they ended. */
  function Timers(c: Control, s: Session, d: Deadline, local: Address, now: u64): Option<Situation> {
    var b := Handshakes.Ticked(c.handshake, s, local, now);
    if b.status != Ok then None
    else
      var t := CallRuntimes.Ticked(c.ack, local, b.s, if b.outcome.disconnected then DISARMED else d, now);
      if t.None? then None
      else
        var next := c.(handshake := b.h, ack := t.value.a);
        Some(Situation(Classified(next, s, t.value.s, t.value.r, b.outcome.disconnected), t.value.s, t.value.d,
                       BLANK.(handshake := b.outcome, runtime := t.value.r)))
  }

  /** An active session without keep-alives starts them. */
  function Revived(x: Situation, local: Address, now: u64): Option<Situation> {
    if x.c.handshake.active || !Active(x.s.state) then Some(x)
    else
      var h := Handshakes.Started(x.s, local, now);
      if h.None? then None
      else
        var b := Handshakes.Ticked(h.value, x.s, local, now);
        Some(x.(c := x.c.(handshake := b.h), s := b.s, r := x.r.(handshake := b.outcome)))
  }

  /** Puts the new action, if any, into the keep-alive slot and tries it at once. */
  function Offered(x: Situation, local: Address, now: u64, answer: AttemptResult): Option<Situation> {
    var action := x.r.handshake.action;
    if action.None? then Some(x)
    else
      var (e, accepted) := CallDispatching.Enqueued(x.c.handDispatch, ActionCommand(action.value), now);
      if accepted != Ok then Some(x.(r := x.r.(handActionDropped := true)))
      else
        var (m, status) := CallDispatching.Stepped(e.d, x.s, local, now, answer);
        if status != Ok then None
        else Some(x.(c := x.c.(handDispatch := m.d), r := x.r.(handFrameReady := m.d.state == CallDispatching.Sent)))
  }

  /** The keep-alive slot: what is in it first, then the new action. */
  function KeptAlive(x: Situation, local: Address, now: u64, answers: Answers): Option<Situation> {
    var (m, status) := CallDispatching.Stepped(x.c.handDispatch, x.s, local, now, answers.first);
    if status != Ok then None
    else
      var ready := x.c.handDispatch.state != CallDispatching.Sent && m.d.state == CallDispatching.Sent;
      Offered(x.(c := x.c.(handDispatch := m.d), r := x.r.(handFrameReady := ready)), local, now, answers.second)
  }

  /** A call command that could not be delivered: a hang-up then ends the session itself. */
  function Undelivered(x: Situation, previous: Session): Situation {
    var failed := x.c.dispatch.state == CallDispatching.Failed;
    var timedOut := x.c.dispatch.state == CallDispatching.TimedOut;
    var cancelled := x.c.dispatch.state == CallDispatching.Cancelled;
    var r := x.r.(failed := failed, timedOut := timedOut, cancelled := cancelled);
    if !failed && !timedOut && !cancelled then x.(r := r)
    else
      var mine := x.c.dispatch.command.generation == x.s.generation;
      var c :=
        if HasEnded(x.c.terminal, x.s.generation) || !mine then x.c
        else if failed then x.c.(fault := DispatchFailed)
        else if timedOut then x.c.(fault := DispatchTimeout)
        else if !x.r.runtime.receive.preempted then x.c.(fault := CancelledFault)
        else x.c;
      if mine && CallAcks.IsHangUp(x.c.dispatch.command) && (failed || timedOut) then
        var (s, ended) := Aborted(x.s);
        Situation(Recorded(c, LocalHangup, c.fault, previous.peer, previous.generation), s, DISARMED,
                  r.(runtime := r.runtime.(receive := r.runtime.receive.(ended := ended, localHangup := true))))
      else x.(c := c, r := r)
  }

  /** A call command just delivered: a pick-up passes through our own reception, and the
      wait for the peer's answer begins. */
  function Delivered(x: Situation, local: Address, now: u64): Option<Situation> {
    var c := x.c.dispatch.command;
    var own :=
      if !CallAcks.IsPickUp(c) then Some(x)
      else
        var f := CallDispatching.CommandFrame(c);
        if f.None? then None
        else
          var e := Receiving.Received(f.value, local, x.s, x.d, now);
          if e.status != Ok then None else Some(x.(s := e.s, d := e.d));
    if own.None? then None
    else
      var y := own.value;
      var a := CallAcks.Begun(y.c.ack, y.c.dispatch, y.s, local, now, CONFIRM_TIMEOUT_MS);
      if a.None? then None
      else Some(y.(c := y.c.(ack := a.value), r := y.r.(frameReady := true, confirmationStarted := true)))
  }

  function Served(x: Situation, previous: Session, local: Address, now: u64, answer: AttemptResult): Option<Situation> {
    var (m, status) := CallDispatching.Stepped(x.c.dispatch, x.s, local, now, answer);
    if status != Ok then None
    else
      var y := x.(c := x.c.(dispatch := m.d));
      var z := if CallDispatching.Busy(x.c.dispatch.state) then Undelivered(y, previous) else y;
      if x.c.dispatch.state != CallDispatching.Sent && m.d.state == CallDispatching.Sent then Delivered(z, local, now)
      else Some(z)
  }

  /** Keep-alives stop with the session, and dropped keep-alive actions are counted. */
  function Closed(x: Situation): Situation {
    var c := x.c.(handDropped := if x.r.handActionDropped && x.c.handDropped < U64_MAX then x.c.handDropped + 1
                                 else x.c.handDropped);
    x.(c := if Active(x.s.state) then c else c.(handshake := c.handshake.(active := false)))
  }

  function Stepped(c: Control, s: Session, d: Deadline, local: Address, now: u64, answers: Answers): Option<Situation> {
    var timed := Timers(c, s, d, local, now);
    if timed.None? then None
    else
      var revived := Revived(timed.value, local, now);
      if revived.None? then None
      else
        var kept := KeptAlive(revived.value, local, now, answers);
        if kept.None? then None
        else
          var served := Served(kept.value, s, local, now, answers.call);
          if served.None? then None else Some(Closed(served.value))
  }

  // ---------------------------------------------------------------------------
  // One reception, and one command.

  function HandReceived(c: Control, f: Frame, local: Address, s: Session, d: Deadline, now: u64): Option<Situation> {
    var b := Handshakes.Received(c.handshake, f, s, local, now);
    if b.status != Ok then None
    else
      var (e, accepted) := if b.outcome.action.Some?
        then CallDispatching.Enqueued(c.handDispatch, ActionCommand(b.outcome.action.value), now)
        else (CallDispatching.Move(c.handDispatch, []), Ok);
      var dropped := accepted != Ok;
      Some(Situation(c.(handshake := b.h, handDispatch := e.d,
                        handDropped := if dropped && c.handDropped < U64_MAX then c.handDropped + 1 else c.handDropped),
                     s, d, BLANK.(handshake := b.outcome, handActionDropped := dropped)))
  }

  function CallReceived(c: Control, f: Frame, local: Address, s: Session, d: Deadline, now: u64): Option<Situation> {
    var p := CallRuntimes.Received(c.ack, f, local, s, d, now);
    if p.None? then None
    else
      var named := Classified(c.(ack := p.value.a), s, p.value.s, p.value.r, false);
      Some(Situation(if Active(p.value.s.state) then named else named.(handshake := named.handshake.(active := false)),
                     p.value.s, p.value.d, BLANK.(runtime := p.value.r)))
  }

  function Received(c: Control, data: seq<byte>, local: Address, s: Session, d: Deadline, now: u64): Option<Situation> {
    if now < c.dispatch.lastNow || now < c.handshake.lastNow || now < c.handDispatch.lastNow then None
    else
      match Parse(data)
      case None => None
      case Some(f) =>
        if f.family == 3 && (f.opcode == 0x51 || f.opcode == 0x52) then HandReceived(c, f, local, s, d, now)
        else CallReceived(c, f, local, s, d, now)
  }

  /** `command` is what one of the prepare functions made, or None when it refused. */
  function Submitted(c: Control, command: Option<Command>, now: u64): (Control, Status) {
    if command.None? || now < c.ack.lastNow then (c, Invalid)
    else if c.ack.state == CallAcks.Awaiting || CallDispatching.Busy(c.dispatch.state) then (c, Io)
    else
      var (m, status) := CallDispatching.Enqueued(c.dispatch, command.value, now);
      if status != Ok then (c, Io) else (c.(dispatch := m.d), Ok)
  }

  // ---------------------------------------------------------------------------
  // In place.

  class CallControl {
    /** The structs the C control block is made of. */
    var c: Control

    constructor (now: u64)
      ensures c == Initial(now)
    {
      c := Initial(now);
    }

    method RecordTerminal(reason: EndReason, fault: Fault, station: Address, generation: u64)
      modifies this
      ensures c == Recorded(old(c), reason, fault, station, generation)
    {
      if generation == 0 {
        return;
      }
      if c.terminal.reason != NoEnd && c.terminal.generation == generation {
        return;
      }
      c := c.(terminal := Terminal(reason, fault, station, generation));
      c := c.(fault := fault);
    }

    method ClassifyTransition(previous: Session, s: Session, r: CallRuntimes.RuntimeReport, disconnected: bool)
      modifies this
      ensures c == Classified(old(c), previous, s, r, disconnected)
    {
      var fault := if r.expired then ConfirmationTimeout else NoFault;
      if disconnected && Active(previous.state) {
        RecordTerminal(HeartbeatTimeout, HeartbeatFault, previous.peer, previous.generation);
        c := c.(observed := s.generation);
        return;
      }
      if r.receive.preempted {
        if Active(previous.state) {
          RecordTerminal(PreemptedEnd, PreemptedFault, previous.peer, previous.generation);
        }
        c := c.(fault := NoFault);
        c := c.(observed := s.generation);
        return;
      }
      if (r.sessionTimedOut || r.receive.timedOut) && Active(previous.state) {
        RecordTerminal(SessionTimeout, NoFault, previous.peer, previous.generation);
        c := c.(observed := s.generation);
        return;
      }
      if (r.receive.ended || r.localHangup) && Active(previous.state) && s.state == Ended {
        RecordTerminal(if r.receive.localHangup || r.localHangup then LocalHangup else PeerHangup, fault,
                       previous.peer, previous.generation);
        c := c.(observed := s.generation);
        return;
      }
      if Active(previous.state) && s.state == Ended {
        RecordTerminal(UnknownEnd, fault, previous.peer, previous.generation);
        c := c.(observed := s.generation);
        return;
      }
      if fault != NoFault && (c.terminal.reason == NoEnd || c.terminal.generation != s.generation) {
        c := c.(fault := fault);
      } else if !Active(previous.state) && Active(s.state) && previous.generation != s.generation {
        c := c.(fault := NoFault);
      }
      c := c.(observed := s.generation);
    }

    method Submit(command: Option<Command>, now: u64) returns (status: Status)
      modifies this
      ensures (c, status) == Submitted(old(c), command, now)
    {
      hide CallDispatching.Enqueued;
      if command.None? || now < c.ack.lastNow {
        return Invalid;
      }
      if c.ack.state == CallAcks.Awaiting || CallDispatching.Busy(c.dispatch.state) {
        return Io;
      }
      var slot := new CallDispatching.CallDispatch.From(c.dispatch);
      status := slot.Enqueue(command.value, now);
      if status != Ok {
        return Io;
      }
      c := c.(dispatch := slot.d);
      return Ok;
    }

    method SubmitAnswer(s: Session, expected: u64, local: Address, primary: u16, secondary: u16, duration: byte,
                        now: u64)
      returns (status: Status)
      modifies this
      ensures (c, status) == Submitted(old(c),
                CallDispatching.PreparedPick(s, expected, local, primary, secondary, duration, CallDispatching.Answer), now)
    {
      status := Submit(CallDispatching.PreparedPick(s, expected, local, primary, secondary, duration, CallDispatching.Answer), now);
    }

    method SubmitCall(s: Session, expected: u64, local: Address, primary: u16, secondary: u16, duration: byte, now: u64)
      returns (status: Status)
      modifies this
      ensures (c, status) == Submitted(old(c),
                CallDispatching.PreparedPick(s, expected, local, primary, secondary, duration, CallDispatching.Call), now)
    {
      status := Submit(CallDispatching.PreparedPick(s, expected, local, primary, secondary, duration, CallDispatching.Call), now);
    }

    method SubmitHangup(s: Session, expected: u64, local: Address, reason: byte, now: u64) returns (status: Status)
      modifies this
      ensures (c, status) == Submitted(old(c), CallDispatching.PreparedHangup(s, expected, local, reason), now)
    {
      status := Submit(CallDispatching.PreparedHangup(s, expected, local, reason), now);
    }

    /** The first part of a step. */
    method RunTimers(session: CallSession, deadline: CallDeadline, local: Address, now: u64)
      returns (status: Status, r: ControlReport)
      modifies this, session, deadline
      ensures var t := Timers(old(c), old(session.s), old(deadline.d), local, now);
              (status == Ok <==> t.Some?) && (t.Some? ==> Situation(c, session.s, deadline.d, r) == t.value)
    {
      hide Handshakes.Ticked, CallRuntimes.Ticked, Classified;
      r := BLANK;
      var previous := session.s;
      var keepAlive := new Handshakes.KeepAlive.From(c.handshake);
      var outcome;
      status, outcome := keepAlive.Tick(session, local, now);
      if status != Ok {
        return;
      }
      if outcome.disconnected {
        deadline.Cancel();
      }
      var ack := new CallAcks.CallAck.From(c.ack);
      var report;
      status, report := CallRuntimes.Tick(ack, local, session, deadline, now);
      if status != Ok {
        return;
      }
      c := c.(handshake := keepAlive.h, ack := ack.a);
      ClassifyTransition(previous, session.s, report, outcome.disconnected);
      r := r.(handshake := outcome, runtime := report);
    }

    method Revive(session: CallSession, ghost d: Deadline, local: Address, now: u64, before: ControlReport)
      returns (status: Status, r: ControlReport)
      modifies this, session
      ensures var t := Revived(Situation(old(c), old(session.s), d, before), local, now);
                (status == Ok <==> t.Some?) && (t.Some? ==> Situation(c, session.s, d, r) == t.value)
    {
      r := before;
      if c.handshake.active || !Active(session.s.state) {
        return Ok, r;
      }
      var keepAlive := new Handshakes.KeepAlive.From(c.handshake);
      status := keepAlive.Start(session.s, local, now);
      if status != Ok {
        return;
      }
      var outcome;
      status, outcome := keepAlive.Tick(session, local, now);
      c := c.(handshake := keepAlive.h);
      r := r.(handshake := outcome);
    }

    method ServeKeepAlive(s: Session, ghost d: Deadline, local: Address, now: u64, answers: Answers,
                          before: ControlReport)
      returns (status: Status, r: ControlReport)
      modifies this
      ensures var t := KeptAlive(Situation(old(c), s, d, before), local, now, answers);
                (status == Ok <==> t.Some?) && (t.Some? ==> Situation(c, s, d, r) == t.value)
    {
      hide CallDispatching.Stepped, Offered;
      r := before;
      var slot := new CallDispatching.CallDispatch.From(c.handDispatch);
      var previous := slot.d.state;
      status := slot.Step(s, local, now, answers.first);
      if status != Ok {
        return;
      }
      c := c.(handDispatch := slot.d);
      r := r.(handFrameReady := previous != CallDispatching.Sent && slot.d.state == CallDispatching.Sent);
      status, r := OfferAction(s, d, local, now, answers.second, r);
    }

    method OfferAction(s: Session, ghost d: Deadline, local: Address, now: u64, answer: AttemptResult,
                       before: ControlReport)
      returns (status: Status, r: ControlReport)
      modifies this
      ensures var t := Offered(Situation(old(c), s, d, before), local, now, answer);
              (status == Ok <==> t.Some?) && (t.Some? ==> Situation(c, s, d, r) == t.value)
    {
      hide CallDispatching.Stepped, CallDispatching.Enqueued, ActionCommand;
      r := before;
      if r.handshake.action.None? {
        return Ok, r;
      }
      var slot := new CallDispatching.CallDispatch.From(c.handDispatch);
      var accepted := slot.Enqueue(ActionCommand(r.handshake.action.value), now);
      if accepted != Ok {
        return Ok, r.(handActionDropped := true);
      }
      status := slot.Step(s, local, now, answer);
      if status != Ok {
        return;
      }
      c := c.(handDispatch := slot.d);
      r := r.(handFrameReady := slot.d.state == CallDispatching.Sent);
    }

    method ServeCall(session: CallSession, deadline: CallDeadline, previous: Session, local: Address, now: u64,
                     answer: AttemptResult, before: ControlReport)
      returns (status: Status, r: ControlReport)
      modifies this, session, deadline
      ensures var t := Served(Situation(old(c), old(session.s), old(deadline.d), before), previous, local, now, answer);
              (status == Ok <==> t.Some?) && (t.Some? ==> Situation(c, session.s, deadline.d, r) == t.value)
    {
      hide CallDispatching.Stepped, Undelivered, Delivered;
      r := before;
      var slot := new CallDispatching.CallDispatch.From(c.dispatch);
      var was := slot.d.state;
      status := slot.Step(session.s, local, now, answer);
      if status != Ok {
        return;
      }
      c := c.(dispatch := slot.d);
      if CallDispatching.Busy(was) {
        r := ReportUndelivered(session, deadline, previous, r);
      }
      if was != CallDispatching.Sent && slot.d.state == CallDispatching.Sent {
        status, r := BeginConfirmation(session, deadline, local, now, r);
      }
    }

    method ReportUndelivered(session: CallSession, deadline: CallDeadline, previous: Session, before: ControlReport)
      returns (r: ControlReport)
      modifies this, session, deadline
      ensures Situation(c, session.s, deadline.d, r) ==
              Undelivered(Situation(old(c), old(session.s), old(deadline.d), before), previous)
      ensures c.dispatch == old(c).dispatch
    {
      var state := c.dispatch.state;
      r := before.(failed := state == CallDispatching.Failed, timedOut := state == CallDispatching.TimedOut,
                   cancelled := state == CallDispatching.Cancelled);
      if !r.failed && !r.timedOut && !r.cancelled {
        return;
      }
      var terminal := c.terminal.reason != NoEnd && c.terminal.generation == session.s.generation;
      var mine := c.dispatch.command.generation == session.s.generation;
      if r.failed && !terminal && mine {
        c := c.(fault := DispatchFailed);
      } else if r.timedOut && !terminal && mine {
        c := c.(fault := DispatchTimeout);
      } else if r.cancelled && !terminal && mine && !r.runtime.receive.preempted {
        c := c.(fault := CancelledFault);
      }
      if mine && CallAcks.IsHangUp(c.dispatch.command) && (r.failed || r.timedOut) {
        var ended := session.Abort();
        deadline.Cancel();
        RecordTerminal(LocalHangup, c.fault, previous.peer, previous.generation);
        r := r.(runtime := r.runtime.(receive := r.runtime.receive.(ended := ended, localHangup := true)));
      }
    }

    method BeginConfirmation(session: CallSession, deadline: CallDeadline, local: Address, now: u64,
                             before: ControlReport)
      returns (status: Status, r: ControlReport)
      modifies this, session, deadline
      ensures var t := Delivered(Situation(old(c), old(session.s), old(deadline.d), before), local, now);
              (status == Ok <==> t.Some?) && (t.Some? ==> Situation(c, session.s, deadline.d, r) == t.value)
    {
      hide Receiving.Received, CallAcks.Begun, CallDispatching.CommandFrame;
      r := before;
      if CallAcks.IsPickUp(c.dispatch.command) {
        var f := CallDispatching.CommandFrame(c.dispatch.command);
        if f.None? {
          return Invalid, r;
        }
        var report;
        status, report := Receiving.Receive(f.value, local, session, deadline, now);
        if status != Ok {
          return;
        }
      }
      var ack := new CallAcks.CallAck.From(c.ack);
      status := ack.Begin(c.dispatch, session.s, local, now, CONFIRM_TIMEOUT_MS);
      if status != Ok {
        return;
      }
      c := c.(ack := ack.a);
      r := r.(frameReady := true, confirmationStarted := true);
    }

    constructor From(value: Control)
      ensures c == value
    {
      c := value;
    }

    /** Copies, runs the parts in order, and commits only when all went well. */
    method Step(session: CallSession, deadline: CallDeadline, local: Address, now: u64, answers: Answers)
      returns (status: Status, r: ControlReport)
      modifies this, session, deadline
      ensures var t := Stepped(old(c), old(session.s), old(deadline.d), local, now, answers);
              if t.None? then status != Ok && c == old(c) && session.s == old(session.s) && deadline.d == old(deadline.d)
              else status == Ok && Situation(c, session.s, deadline.d, r) == t.value
    {
      hide Timers, Revived, KeptAlive, Served;
      var next := new CallControl.From(c);
      var nextSession := new CallSession.From(session.s);
      var nextDeadline := new CallDeadline.From(deadline.d);
      status, r := next.RunTimers(nextSession, nextDeadline, local, now);
      if status != Ok {
        return;
      }
      status, r := next.Revive(nextSession, nextDeadline.d, local, now, r);
      if status != Ok {
        return;
      }
      status, r := next.ServeKeepAlive(nextSession.s, nextDeadline.d, local, now, answers, r);
      if status != Ok {
        return;
      }
      status, r := next.ServeCall(nextSession, nextDeadline, session.s, local, now, answers.call, r);
      if status != Ok {
        return;
      }
      if r.handActionDropped && next.c.handDropped < U64_MAX {
        next.c := next.c.(handDropped := next.c.handDropped + 1);
      }
      if !Active(nextSession.s.state) {
        next.c := next.c.(handshake := next.c.handshake.(active := false));
      }
      c := next.c;
      session.s := nextSession.s;
      deadline.d := nextDeadline.d;
    }

    method Receive(data: seq<byte>, local: Address, session: CallSession, deadline: CallDeadline, now: u64)
      returns (status: Status, r: ControlReport)
      modifies this, session, deadline
      ensures var t := Received(old(c), data, local, old(session.s), old(deadline.d), now);
              if t.None? then status != Ok && c == old(c) && session.s == old(session.s) && deadline.d == old(deadline.d)
              else status == Ok && Situation(c, session.s, deadline.d, r) == t.value
    {
      hide HandReceived, CallReceived, Parse;
      r := BLANK;
      if now < c.dispatch.lastNow || now < c.handshake.lastNow || now < c.handDispatch.lastNow {
        return Invalid, r;
      }
      var f := Parse(data);
      if f.None? {
        return Invalid, r;
      }
      if f.value.family == 3 && (f.value.opcode == 0x51 || f.value.opcode == 0x52) {
        status, r := ReceiveHand(f.value, local, session.s, deadline.d, now);
      } else {
        status, r := ReceiveCall(f.value, local, session, deadline, now);
      }
    }

    method ReceiveHand(f: Frame, local: Address, s: Session, d: Deadline,
                       now: u64) returns (status: Status, r: ControlReport)
      modifies this
      ensures var t := HandReceived(old(c), f, local, s, d, now);
              if t.None? then status != Ok && c == old(c) else status == Ok && Situation(c, s, d, r) == t.value
    {
      hide Handshakes.Received, CallDispatching.Enqueued;
      r := BLANK;
      var keepAlive := new Handshakes.KeepAlive.From(c.handshake);
      var outcome;
      status, outcome := keepAlive.Receive(f, s, local, now);
      if status != Ok {
        return;
      }
      r := r.(handshake := outcome);
      var next := c.(handshake := keepAlive.h);
      if outcome.action.Some? {
        var slot := new CallDispatching.CallDispatch.From(c.handDispatch);
        var accepted := slot.Enqueue(ActionCommand(outcome.action.value), now);
        next := next.(handDispatch := slot.d);
        r := r.(handActionDropped := accepted != Ok);
      }
      if r.handActionDropped && next.handDropped < U64_MAX {
        next := next.(handDropped := next.handDropped + 1);
      }
      c := next;
      return Ok, r;
    }

    method ReceiveCall(f: Frame, local: Address, session: CallSession, deadline: CallDeadline, now: u64)
      returns (status: Status, r: ControlReport)
      modifies this, session, deadline
      ensures var t := CallReceived(old(c), f, local, old(session.s), old(deadline.d), now);
              if t.None? then status != Ok && c == old(c) && session.s == old(session.s) && deadline.d == old(deadline.d)
              else status == Ok && Situation(c, session.s, deadline.d, r) == t.value
    {
      hide CallRuntimes.Received, Classified;
      r := BLANK;
      var ack := new CallAcks.CallAck.From(c.ack);
      var nextSession := new CallSession.From(session.s);
      var nextDeadline := new CallDeadline.From(deadline.d);
      var report;
      status, report := CallRuntimes.ReceiveFrame(ack, f, local, nextSession, nextDeadline, now);
      if status != Ok {
        return;
      }
      c := c.(ack := ack.a);
      ClassifyTransition(session.s, nextSession.s, report, false);
      if !Active(nextSession.s.state) {
        c := c.(handshake := c.handshake.(active := false));
      }
      session.s := nextSession.s;
      deadline.d := nextDeadline.d;
      r := r.(runtime := report);
    }
  }
}
