/** What holds over whole runs of call control: every step of src/gvs_call_control.c and
    every received frame, the commands submitted to it, and the outbound preview that
    src/runtime_station_call.c installs. */
module CallRuns {
  import opened Words
  import opened Frames
  import opened Sessions
  import opened CallControls
  import CallAcks
  import CallDispatching
  import CallRuntimes
  import Handshakes
  import Receiving
  import SendTransactions

  datatype World = World(c: Control, s: Session, d: Deadline)

  datatype Input = Step(now: u64, answers: Answers)
                 | Datagram(data: seq<byte>, now: u64)
                 | Submit(command: Option<Command>, now: u64)
                 | Install(peer: Address, primary: u16, secondary: u16, duration: byte, now: u64)

  /** An outbound preview takes the next generation and submits its call (lines 254-273). */
  function Installed(x: World, local: Address, peer: Address, primary: u16, secondary: u16, duration: byte,
                     now: u64): World {
    if Active(x.s.state) || CallDispatching.Busy(x.c.dispatch.state) || x.c.ack.state == CallAcks.Awaiting
       || x.s.generation == U64_MAX then x
    else
      var s := Session(Preview, peer, x.s.generation + 1, NO_PICK);
      var command := CallDispatching.PreparedPick(s, s.generation, local, primary, secondary, duration, CallDispatching.Call);
      var (c, status) := Submitted(x.c, command, now);
      if status != Ok then x
      else World(c.(handshake := c.handshake.(active := false), fault := NoFault, observed := s.generation), s, DISARMED)
  }

  /** What a step or a reception answers; None when it is refused, or for other inputs. */
  function Effect(x: World, i: Input, local: Address): Option<Situation> {
    match i
    case Step(now, answers) => CallControls.Stepped(x.c, x.s, x.d, local, now, answers)
    case Datagram(data, now) => CallControls.Received(x.c, data, local, x.s, x.d, now)
    case _ => None
  }

  function Next(x: World, i: Input, local: Address): World {
    match i
    case Submit(command, now) => x.(c := Submitted(x.c, command, now).0)
    case Install(peer, primary, secondary, duration, now) =>
      Installed(x, local, peer, primary, secondary, duration, now)
    case _ =>
      var e := Effect(x, i, local);
      if e.None? then x else World(e.value.c, e.value.s, e.value.d)
  }

  function Start(now: u64): World {
    World(CallControls.Initial(now), Session(Idle, NO_ADDRESS, 0, NO_PICK), DISARMED)
  }

  function Run(inputs: seq<Input>, local: Address, start: u64): World {
    if inputs == [] then Start(start)
    else Next(Run(inputs[..|inputs| - 1], local, start), inputs[|inputs| - 1], local)
  }

  // ---------------------------------------------------------------------------
  // How a session may change.

  /** The session ended where it stood. */
  predicate EndedFrom(s: Session, after: Session) {
    Active(s.state) && after.state == Ended && after.generation == s.generation && after.peer == s.peer
  }

  /** The end of `s` is on record, with its peer and its generation. */
  predicate OnRecord(c: Control, s: Session) {
    HasEnded(c.terminal, s.generation) && c.terminal.station == s.peer
  }

  /** A record belongs to the present or an earlier session, never to one still going on. */
  predicate RecordOk(c: Control, s: Session) {
    c.terminal.reason != NoEnd ==>
      && c.terminal.generation <= s.generation
      && (Active(s.state) ==> c.terminal.generation < s.generation)
  }

  predicate Sound(x: World) {
    Receiving.Guarded(x.s, x.d) && RecordOk(x.c, x.s)
  }

  lemma TimersEffect(c: Control, s: Session, d: Deadline, local: Address, now: u64)
    requires Receiving.Guarded(s, d) && RecordOk(c, s)
    ensures var x := Timers(c, s, d, local, now);
            x.Some? ==>
              && (x.value.s == s || EndedFrom(s, x.value.s))
              && (x.value.s == s ==> x.value.c.terminal == c.terminal)
              && (x.value.s != s ==> OnRecord(x.value.c, s))
              && Receiving.Guarded(x.value.s, x.value.d)
              && x.value.c.dispatch == c.dispatch
              && RecordOk(x.value.c, x.value.s)
  {
    var b := Handshakes.Ticked(c.handshake, s, local, now);
    assert b.s == if b.outcome.disconnected then Aborted(s).0 else s;
    assert b.outcome.disconnected ==> Active(s.state);
    var e := if b.outcome.disconnected then DISARMED else d;
    hide Handshakes.Ticked;
    RuntimeTickEffect(c.ack, local, b.s, e, now);
    hide CallRuntimes.Ticked;
  }

  lemma RuntimeTickEffect(a: CallAcks.Ack, local: Address, s: Session, d: Deadline, now: u64)
    requires Receiving.Guarded(s, d)
    ensures var t := CallRuntimes.Ticked(a, local, s, d, now);
            t.Some? ==>
              && (t.value.s == s || EndedFrom(s, t.value.s))
              && (t.value.s == s ==> !t.value.r.sessionTimedOut)
              && Receiving.Guarded(t.value.s, t.value.d)
              && !t.value.r.receive.preempted && !t.value.r.receive.timedOut
  {
    hide CallAcks.Relevant;
  }

  lemma RevivedEffect(x: Situation, local: Address, now: u64)
    ensures var y := Revived(x, local, now);
            y.Some? ==>
              && y.value.s == x.s && y.value.d == x.d && y.value.c.terminal == x.c.terminal
              && y.value.c.dispatch == x.c.dispatch && y.value.c.ack == x.c.ack
  {
  }

  lemma KeptAliveEffect(x: Situation, local: Address, now: u64, answers: Answers)
    ensures var y := KeptAlive(x, local, now, answers);
            y.Some? ==>
              && y.value.s == x.s && y.value.d == x.d && y.value.c.terminal == x.c.terminal
              && y.value.c.dispatch == x.c.dispatch && y.value.c.ack == x.c.ack
              && y.value.c.handshake == x.c.handshake && y.value.r.handshake == x.r.handshake
  {
    hide CallDispatching.Stepped, CallDispatching.Enqueued, ActionCommand;
  }

  /** Only our own pick-up going out changes the session here, and only what it waits for. */
  predicate PickedUp(s: Session, after: Session, local: Address, now: u64) {
    && (s.state == Ringing || s.state == Preview)
    && s.pick.generation != s.generation
    && after == s.(pick := Pick(s.generation, now, Receiving.PICK_TIMEOUT_MS, local))
  }

  lemma DeliveredEffect(x: Situation, local: Address, now: u64)
    requires Receiving.Guarded(x.s, x.d)
    ensures var y := Delivered(x, local, now);
            y.Some? ==>
              && y.value.c.terminal == x.c.terminal && y.value.c.dispatch == x.c.dispatch && y.value.d == x.d
              && y.value.c.handshake == x.c.handshake && y.value.r.handshake == x.r.handshake
              && (y.value.s == x.s || PickedUp(x.s, y.value.s, local, now))
              && y.value.r.confirmationStarted
              && (y.value.s != x.s ==>
                    && CallAcks.IsPickUp(x.c.dispatch.command)
                    && x.c.dispatch.command.destination == x.s.peer && x.c.dispatch.command.source == local
                    && x.c.dispatch.command.generation == x.s.generation)
  {
    hide CallAcks.CanBeAcknowledged;
    var c := x.c.dispatch.command;
    if CallAcks.IsPickUp(c) && CallDispatching.CommandFrame(c).Some? {
      var f := CallDispatching.CommandFrame(c).value;
      assert Receiving.Received(f, local, x.s, x.d, now) == Receiving.PickReceived(f, local, x.s, x.d, now);
      hide CallDispatching.CommandFrame;
    }
  }

  lemma UndeliveredEffect(x: Situation, previous: Session)
    requires Receiving.Guarded(x.s, x.d) && RecordOk(x.c, x.s)
    requires Active(x.s.state) ==> previous.generation == x.s.generation && previous.peer == x.s.peer
    ensures var y := Undelivered(x, previous);
            && (y.s == x.s || EndedFrom(x.s, y.s))
            && (y.s == x.s ==> y.c.terminal == x.c.terminal || !Active(x.s.state))
            && (y.s != x.s ==> OnRecord(y.c, x.s) && !y.d.armed)
            && y.c.dispatch == x.c.dispatch && y.c.handshake == x.c.handshake && y.r.handshake == x.r.handshake
            && (Active(y.s.state) ==> y.d == x.d)
  {
  }

  lemma DispatchEndsWhileCurrent(d: CallDispatching.Dispatch, s: Session, local: Address, now: u64,
                                 answer: AttemptResult)
    requires CallDispatching.Busy(d.state)
    ensures var (m, status) := CallDispatching.Stepped(d, s, local, now, answer);
            && m.d.command == d.command
            && (m.d.state == CallDispatching.Failed || m.d.state == CallDispatching.TimedOut || m.d.state == CallDispatching.Sent
                ==> CallDispatching.Current(d.command, s, local))
            && (CallDispatching.Current(d.command, s, local) ==> Active(s.state))
  {
  }

  lemma UndeliveredQuietly(x: Situation, previous: Session)
    requires x.c.dispatch.state != CallDispatching.Failed && x.c.dispatch.state != CallDispatching.TimedOut
    ensures var y := Undelivered(x, previous);
            && y.s == x.s && y.d == x.d && y.c.terminal == x.c.terminal && y.c.dispatch == x.c.dispatch
            && y.c.handshake == x.c.handshake && y.r.handshake == x.r.handshake
  {
  }

  lemma ServedEffect(x: Situation, previous: Session, local: Address, now: u64, answer: AttemptResult)
    requires Receiving.Guarded(x.s, x.d) && RecordOk(x.c, x.s)
    requires Active(x.s.state) ==> previous.generation == x.s.generation && previous.peer == x.s.peer
    ensures var y := Served(x, previous, local, now, answer);
            y.Some? ==>
              && (y.value.s == x.s || EndedFrom(x.s, y.value.s) || PickedUp(x.s, y.value.s, local, now))
              && (!EndedFrom(x.s, y.value.s) ==> y.value.c.terminal == x.c.terminal && y.value.d == x.d)
              && (EndedFrom(x.s, y.value.s) ==> OnRecord(y.value.c, x.s) && !y.value.d.armed)
              && (PickedUp(x.s, y.value.s, local, now) ==>
                    && y.value.r.confirmationStarted && CallAcks.IsPickUp(y.value.c.dispatch.command)
                    && y.value.c.dispatch.command.destination == x.s.peer
                    && y.value.c.dispatch.command.source == local
                    && y.value.c.dispatch.command.generation == x.s.generation)
              && y.value.c.handshake == x.c.handshake && y.value.r.handshake == x.r.handshake
  {
    var (m, status) := CallDispatching.Stepped(x.c.dispatch, x.s, local, now, answer);
    var y := x.(c := x.c.(dispatch := m.d));
    if status == Ok {
      if CallDispatching.Busy(x.c.dispatch.state) {
        DispatchEndsWhileCurrent(x.c.dispatch, x.s, local, now, answer);
        hide CallDispatching.Stepped, CallDispatching.Current, Delivered, Undelivered;
        UndeliveredEffect(y, previous);
        if m.d.state == CallDispatching.Sent {
          UndeliveredQuietly(y, previous);
          DeliveredEffect(Undelivered(y, previous), local, now);
        } else if m.d.state != CallDispatching.Failed && m.d.state != CallDispatching.TimedOut {
          UndeliveredQuietly(y, previous);
        }
      } else {
        IdleSlot(x.c.dispatch, x.s, local, now, answer);
      }
    }
  }

  lemma IdleSlot(d: CallDispatching.Dispatch, s: Session, local: Address, now: u64, answer: AttemptResult)
    requires !CallDispatching.Busy(d.state)
    ensures CallDispatching.Stepped(d, s, local, now, answer).0.d.state == d.state
  {
  }

  /** A step leaves the session alone, notes our pick-up, or ends it, and every session it
      ends goes on record with its own peer and generation. */
  lemma StepEffect(c: Control, s: Session, d: Deadline, local: Address, now: u64, answers: Answers)
    requires Receiving.Guarded(s, d) && RecordOk(c, s)
    ensures var x := CallControls.Stepped(c, s, d, local, now, answers);
            x.Some? ==>
              && (x.value.s == s || EndedFrom(s, x.value.s) || PickedUp(s, x.value.s, local, now))
              && (EndedFrom(s, x.value.s) ==> OnRecord(x.value.c, s))
              && (!EndedFrom(s, x.value.s) ==> x.value.c.terminal == c.terminal)
              && (PickedUp(s, x.value.s, local, now) ==>
                    && x.value.r.confirmationStarted && CallAcks.IsPickUp(x.value.c.dispatch.command)
                    && x.value.c.dispatch.command.destination == s.peer
                    && x.value.c.dispatch.command.source == local
                    && x.value.c.dispatch.command.generation == s.generation)
              && Receiving.Guarded(x.value.s, x.value.d) && RecordOk(x.value.c, x.value.s)
  {
    hide Timers, Revived, KeptAlive, Served;
    TimersEffect(c, s, d, local, now);
    var timed := Timers(c, s, d, local, now);
    if timed.Some? {
      RevivedEffect(timed.value, local, now);
      var revived := Revived(timed.value, local, now);
      if revived.Some? {
        KeptAliveEffect(revived.value, local, now, answers);
        var kept := KeptAlive(revived.value, local, now, answers);
        if kept.Some? {
          ServedEffect(kept.value, s, local, now, answers.call);
        }
      }
    }
  }

  // ---------------------------------------------------------------------------
  // Receptions.

  /** The session is over for its generation. */
  predicate Gone(s: Session, after: Session) {
    Active(s.state) && !(Active(after.state) && after.generation == s.generation)
  }

  predicate LateHangup(a: CallAcks.Ack, local: Address, s: Session, now: u64) {
    && a.state == CallAcks.Awaiting && CallAcks.IsHangUp(a.command)
    && CallAcks.Relevant(a.command, s, local) && now >= a.deadline
  }

  /** Our hang-up waited for its acknowledgement past its time, no step has noticed yet, and
      an incoming call arrives: it starts a new session at once. */
  predicate Overtaken(c: Control, f: Frame, local: Address, s: Session, now: u64) {
    LateHangup(c.ack, local, s, now) && EventOf(f) == IncomingCall && IsFor(f, local)
  }

  lemma AfterExpiryEffect(a: CallAcks.Ack, local: Address, s: Session, d: Deadline, now: u64)
    requires now >= a.lastNow && Receiving.Guarded(s, d)
    ensures var b := CallAcks.Ticked(a, s, local, now);
            && b.Some?
            && var p := CallRuntimes.AfterExpiry(CallRuntimes.Passage(b.value, s, d,
                          CallRuntimes.Noted(a.state, b.value, CallRuntimes.CALM)));
            && p.a.command == a.command
            && !p.r.receive.preempted && !p.r.receive.timedOut && !p.r.sessionTimedOut
            && (p.s == s || EndedFrom(s, p.s)) && Receiving.Guarded(p.s, p.d)
            && (p.s == s ==> p.d == d && p.r.receive == Receiving.QUIET && !p.r.localHangup)
            && (p.s != s ==> p.r.localHangup && p.r.receive.ended && p.a.state == CallAcks.Expired && p.s.state == Ended)
            && (p.s != s <==> LateHangup(a, local, s, now))
  {
  }

  /** What a frame does to a session the hang-up has not ended yet, and how the report tells. */
  lemma ReceivedEffect(f: Frame, local: Address, s: Session, d: Deadline, now: u64)
    requires Receiving.Guarded(s, d)
    ensures var e := Receiving.Received(f, local, s, d, now);
            e.status == Ok ==>
              && Receiving.Guarded(e.s, e.d)
              && (Gone(s, e.s) ==>
                    || (e.r.preempted && e.s.state == Ringing && e.s.generation == s.generation + 1)
                    || (!e.r.preempted && e.r.timedOut && EndedFrom(s, e.s))
                    || (!e.r.preempted && !e.r.timedOut && e.r.ended && EndedFrom(s, e.s)))
              && (!Gone(s, e.s) && Active(s.state) ==>
                    !e.r.preempted && !e.r.timedOut && !e.r.ended && e.s.peer == s.peer)
              && (!Active(s.state) ==> !e.r.preempted && !e.r.timedOut && !e.r.ended)
              && (e.s.generation >= s.generation)
              && (e.s.generation == s.generation && !Active(s.state) ==> !Active(e.s.state))
              && (s.state == Ended && Active(e.s.state) <==> s.state == Ended && EventOf(f) == IncomingCall && IsFor(f, local))
  {
  }

  /** The three ways a reception ends a session, as its report tells them. */
  predicate Told(s: Session, p: CallRuntimes.Passage) {
    && !p.r.sessionTimedOut
    && (Gone(s, p.s) ==>
          || (p.r.receive.preempted && p.s.state == Ringing && p.s.generation == s.generation + 1)
          || (!p.r.receive.preempted && p.r.receive.timedOut && EndedFrom(s, p.s))
          || (!p.r.receive.preempted && !p.r.receive.timedOut && (p.r.receive.ended || p.r.localHangup) && EndedFrom(s, p.s)))
    && (!Gone(s, p.s) ==> !p.r.receive.preempted && !p.r.receive.timedOut && (Active(s.state) ==> Active(p.s.state)))
  }

  /** Where the frame finds the session: as it was, or ended by our own overdue hang-up. */
  predicate Found(q: CallRuntimes.Passage, s: Session) {
    && !q.r.receive.preempted && !q.r.receive.timedOut && !q.r.sessionTimedOut
    && (q.s == s || EndedFrom(s, q.s)) && Receiving.Guarded(q.s, q.d)
    && (q.s == s ==> q.r.receive == Receiving.QUIET && !q.r.localHangup)
    && (q.s != s ==> q.r.localHangup && q.a.state == CallAcks.Expired)
  }

  lemma AnsweredEffect(q: CallRuntimes.Passage, f: Frame, local: Address, s: Session, now: u64)
    requires Found(q, s) && CallRuntimes.Expects(q.a.command, f)
    ensures var p := CallRuntimes.Answered(q, f, local, now);
            p.Some? ==>
              && Told(s, p.value) && Receiving.Guarded(p.value.s, p.value.d) && p.value.s.generation == s.generation
              && (!Active(s.state) ==> !Active(p.value.s.state))
  {
    ReceivedEffect(f, local, q.s, q.d, now);
    hide CallAcks.Relevant, CallAcks.Acknowledges;
    if CallAcks.IsPickUp(q.a.command) {
      assert Receiving.Received(f, local, q.s, q.d, now) == Receiving.PickReceived(f, local, q.s, q.d, now);
    }
    hide Receiving.Received;
  }

  lemma PassedEffect(q: CallRuntimes.Passage, f: Frame, local: Address, s: Session, now: u64)
    requires Found(q, s)
    ensures var p := CallRuntimes.Passed(q, f, local, now);
            p.Some? ==>
              && Receiving.Guarded(p.value.s, p.value.d) && p.value.s.generation >= s.generation
              && (p.value.s.generation == s.generation && !Active(s.state) ==> !Active(p.value.s.state))
              && if q.s != s && EventOf(f) == IncomingCall && IsFor(f, local)
                 then && Gone(s, p.value.s) && p.value.s.state == Ringing && p.value.s.generation == s.generation + 1
                      && !p.value.r.receive.preempted && !p.value.r.receive.timedOut && !p.value.r.sessionTimedOut
                 else Told(s, p.value)
  {
    ReceivedEffect(f, local, q.s, q.d, now);
    if q.s.state == Ended && EventOf(f) == IncomingCall && IsFor(f, local) {
      assert Receiving.Received(f, local, q.s, q.d, now) == Receiving.CallReceived(f, local, q.s, q.d, now);
      FreshCall(f, local, q.s, q.d, now);
    }
    hide CallAcks.Ticked, Receiving.Received, Receiving.CallReceived, Receiving.Guarded;
  }

  lemma FreshCall(f: Frame, local: Address, s: Session, d: Deadline, now: u64)
    requires s.state == Ended && EventOf(f) == IncomingCall && IsFor(f, local)
    ensures var e := Receiving.CallReceived(f, local, s, d, now);
            e.status == Ok ==> e.s.state == Ringing && e.s.generation == s.generation + 1 && e.s.peer == f.source
  {
  }

  lemma PassageEffect(a: CallAcks.Ack, f: Frame, local: Address, s: Session, d: Deadline, now: u64)
    requires Receiving.Guarded(s, d)
    ensures var p := CallRuntimes.Received(a, f, local, s, d, now);
            p.Some? ==>
              && Receiving.Guarded(p.value.s, p.value.d) && p.value.s.generation >= s.generation
              && (p.value.s.generation == s.generation && !Active(s.state) ==> !Active(p.value.s.state))
              && if LateHangup(a, local, s, now) && EventOf(f) == IncomingCall && IsFor(f, local)
                 then && Gone(s, p.value.s) && p.value.s.state == Ringing && p.value.s.generation == s.generation + 1
                      && !p.value.r.receive.preempted && !p.value.r.receive.timedOut && !p.value.r.sessionTimedOut
                 else Told(s, p.value)
  {
    hide CallAcks.Relevant, CallAcks.Ticked, Receiving.Received, Receiving.Guarded;
    if now >= a.lastNow {
      AfterExpiryEffect(a, local, s, d, now);
      var b := CallAcks.Ticked(a, s, local, now).value;
      var q := CallRuntimes.AfterExpiry(CallRuntimes.Passage(b, s, d, CallRuntimes.Noted(a.state, b, CallRuntimes.CALM)));
      hide CallRuntimes.AfterExpiry;
      ReceivedEffect(f, local, q.s, q.d, now);
      if CallRuntimes.Expects(q.a.command, f) {
        AnsweredEffect(q, f, local, s, now);
      } else {
        PassedEffect(q, f, local, s, now);
      }
    } else {
      hide CallRuntimes.AfterExpiry;
      assert CallAcks.Ticked(a, s, local, now).None? by { TickNeedsTime(a, s, local, now); }
    }
  }

  lemma TickNeedsTime(a: CallAcks.Ack, s: Session, local: Address, now: u64)
    requires now < a.lastNow
    ensures CallAcks.Ticked(a, s, local, now).None?
  {
  }

  lemma ClassifiedRecords(c: Control, s: Session, p: CallRuntimes.Passage)
    requires RecordOk(c, s) && Receiving.Guarded(p.s, p.d) && (Active(s.state) ==> s.generation > 0)
    requires Told(s, p) && p.s.generation >= s.generation
    requires p.s.generation == s.generation && !Active(s.state) ==> !Active(p.s.state)
    ensures var named := Classified(c, s, p.s, p.r, false);
            && (Gone(s, p.s) ==> OnRecord(named, s))
            && (!Gone(s, p.s) ==> named.terminal == c.terminal)
            && RecordOk(named, p.s)
  {
  }

  /** A reception puts every session it ends on record, but for one case, and exactly that
      one: an incoming call that overtakes our overdue hang-up. */
  lemma ReceptionRecords(c: Control, f: Frame, local: Address, s: Session, d: Deadline, now: u64)
    requires Receiving.Guarded(s, d) && RecordOk(c, s)
    ensures var x := CallControls.CallReceived(c, f, local, s, d, now);
            x.Some? ==>
              && (Gone(s, x.value.s) ==> (OnRecord(x.value.c, s) <==> !Overtaken(c, f, local, s, now)))
              && (Overtaken(c, f, local, s, now) ==> Gone(s, x.value.s) && x.value.s.state == Ringing)
              && (!Gone(s, x.value.s) || Overtaken(c, f, local, s, now) ==> x.value.c.terminal == c.terminal)
              && Receiving.Guarded(x.value.s, x.value.d) && RecordOk(x.value.c, x.value.s)
              && x.value.s.generation >= s.generation
  {
    var p := CallRuntimes.Received(c.ack, f, local, s, d, now);
    PassageEffect(c.ack, f, local, s, d, now);
    hide CallRuntimes.Received, Receiving.Guarded, LateHangup;
    if p.Some? {
      var next := c.(ack := p.value.a);
      if !Overtaken(c, f, local, s, now) {
        GuardedGeneration(s, d);
        hide Gone;
        ClassifiedRecords(next, s, p.value);
        hide Classified;
      } else {
        assert Active(s.state) && p.value.s.state == Ringing;
      }
    }
  }

  lemma GuardedGeneration(s: Session, d: Deadline)
    requires Receiving.Guarded(s, d)
    ensures Active(s.state) ==> s.generation > 0
  {
  }

  // ---------------------------------------------------------------------------
  // Every run is sound.

  lemma ReceivedKeeps(x: World, data: seq<byte>, local: Address, now: u64)
    requires Sound(x)
    ensures var y := CallControls.Received(x.c, data, local, x.s, x.d, now);
            y.Some? ==>
              && Receiving.Guarded(y.value.s, y.value.d) && RecordOk(y.value.c, y.value.s)
              && y.value.s.generation >= x.s.generation
              && (Gone(x.s, y.value.s) ==>
                    && Parse(data).Some?
                    && (OnRecord(y.value.c, x.s) <==> !Overtaken(x.c, Parse(data).value, local, x.s, now)))
              && (y.value.c.terminal != x.c.terminal ==> Gone(x.s, y.value.s) && OnRecord(y.value.c, x.s))
  {
    if Parse(data).Some? {
      ReceptionRecords(x.c, Parse(data).value, local, x.s, x.d, now);
    }
    hide CallControls.CallReceived, Receiving.Guarded, Parse, Overtaken, Handshakes.Received, CallDispatching.Enqueued,
      ActionCommand;
  }

  /** The input is a call that overtakes our overdue hang-up. */
  predicate Overtakes(x: World, i: Input, local: Address) {
    i.Datagram? && Parse(i.data).Some? && Overtaken(x.c, Parse(i.data).value, local, x.s, i.now)
  }

  /** What every input keeps, and that it records the sessions it ends. */
  lemma NextKeeps(x: World, i: Input, local: Address)
    requires Sound(x)
    ensures var y := Next(x, i, local);
            && Sound(y) && y.s.generation >= x.s.generation
            && (Gone(x.s, y.s) ==> (OnRecord(y.c, x.s) <==> !Overtakes(x, i, local)))
            && (y.c.terminal != x.c.terminal ==> Gone(x.s, y.s) && OnRecord(y.c, x.s))
  {
    match i
    case Step(now, answers) =>
      StepEffect(x.c, x.s, x.d, local, now, answers);
      hide CallControls.Stepped, Receiving.Guarded;
    case Datagram(data, now) =>
      ReceivedKeeps(x, data, local, now);
      hide CallControls.Received, Receiving.Guarded;
    case Submit(command, now) =>
      hide CallDispatching.Enqueued;
    case Install(peer, primary, secondary, duration, now) =>
      hide CallDispatching.Enqueued, CallDispatching.PreparedPick;
  }

  lemma {:induction false} RunsAreSound(inputs: seq<Input>, local: Address, start: u64)
    ensures Sound(Run(inputs, local, start))
  {
    if inputs != [] {
      var n := |inputs| - 1;
      RunsAreSound(inputs[..n], local, start);
      NextKeeps(Run(inputs[..n], local, start), inputs[n], local);
      hide Next, Sound;
    }
  }

  lemma RunStep(inputs: seq<Input>, local: Address, start: u64, k: nat)
    requires k < |inputs|
    ensures Run(inputs[..k + 1], local, start) == Next(Run(inputs[..k], local, start), inputs[k], local)
  {
    assert inputs[..k + 1][..k] == inputs[..k];
    hide Next;
  }

  /** On every run, each session that is ended or taken over gets its terminal record in the
      same input, unless and only unless an incoming call overtakes an overdue hang-up. */
  lemma EndsAreRecorded(inputs: seq<Input>, local: Address, start: u64, k: nat)
    requires k < |inputs|
    ensures var x, y := Run(inputs[..k], local, start), Run(inputs[..k + 1], local, start);
            Gone(x.s, y.s) ==> (OnRecord(y.c, x.s) <==> !Overtakes(x, inputs[k], local))
  {
    RunsAreSound(inputs[..k], local, start);
    NextKeeps(Run(inputs[..k], local, start), inputs[k], local);
    RunStep(inputs, local, start, k);
    hide Next, Run, Sound, Overtakes;
  }

  predicate Advances(a: Terminal, b: Terminal) {
    a.reason != NoEnd ==> b.reason != NoEnd && (b == a || b.generation > a.generation)
  }

  lemma NextAdvances(x: World, i: Input, local: Address)
    requires Sound(x)
    ensures Advances(x.c.terminal, Next(x, i, local).c.terminal)
  {
    NextKeeps(x, i, local);
    hide Next, Overtakes;
  }

  /** The first reason recorded for a session is never overwritten: a record only gives way
      to that of a later session. */
  lemma {:induction false} FirstReasonStays(inputs: seq<Input>, local: Address, start: u64, i: nat, j: nat)
    requires i <= j <= |inputs|
    ensures Advances(Run(inputs[..i], local, start).c.terminal, Run(inputs[..j], local, start).c.terminal)
    decreases j - i
  {
    hide Next, Run, Sound;
    if i < j {
      FirstReasonStays(inputs, local, start, i, j - 1);
      RunsAreSound(inputs[..j - 1], local, start);
      RunStep(inputs, local, start, j - 1);
      NextAdvances(Run(inputs[..j - 1], local, start), inputs[j - 1], local);
    }
  }

  /** A step at the same time leaves nothing for a call to overtake: after it a reception
      records every end. */
  lemma StepFirstIsEnough(x: World, now: u64, answers: Answers, data: seq<byte>, local: Address)
    requires Sound(x) && Effect(x, Step(now, answers), local).Some?
    ensures !Overtakes(Next(x, Step(now, answers), local), Datagram(data, now), local)
  {
    TimersSettleAck(x.c, x.s, x.d, local, now);
    hide Timers, Revived, KeptAlive, Served, Parse, CallAcks.Relevant;
    var timed := Timers(x.c, x.s, x.d, local, now);
    RevivedEffect(timed.value, local, now);
    var revived := Revived(timed.value, local, now);
    KeptAliveEffect(revived.value, local, now, answers);
    var kept := KeptAlive(revived.value, local, now, answers);
    ServedAck(kept.value, x.s, local, now, answers.call);
  }

  lemma TimersSettleAck(c: Control, s: Session, d: Deadline, local: Address, now: u64)
    ensures var x := Timers(c, s, d, local, now);
            x.Some? && x.value.c.ack.state == CallAcks.Awaiting ==> now < x.value.c.ack.deadline
  {
    hide CallAcks.Relevant, Handshakes.Ticked, Elapsed;
  }

  lemma ServedAck(x: Situation, previous: Session, local: Address, now: u64, answer: AttemptResult)
    ensures var y := Served(x, previous, local, now, answer);
            y.Some? ==> y.value.c.ack == x.c.ack || now < y.value.c.ack.deadline
  {
    hide CallDispatching.Stepped, CallDispatching.CommandFrame, Receiving.Received, CallAcks.Relevant;
  }

  // ---------------------------------------------------------------------------
  // Deadlines and preemptions.

  function Limit(s: Session): u64 {
    if s.state == Ringing then Receiving.RING_TIMEOUT_MS else Receiving.TALK_TIMEOUT_MS
  }

  /** No clock of the control runs ahead of `now`. */
  predicate InTime(c: Control, now: u64) {
    && now >= c.handshake.lastNow && now >= c.ack.lastNow
    && now >= c.handDispatch.lastNow && now >= c.dispatch.lastNow
  }

  /** The timers run in time, also with a deadline ahead when the peer was found silent. */
  lemma TimersRun(c: Control, s: Session, d: Deadline, local: Address, now: u64)
    requires now >= c.handshake.lastNow && now >= c.ack.lastNow
    requires d.armed && now < d.started ==> Handshakes.Ticked(c.handshake, s, local, now).outcome.disconnected
    ensures var t := Timers(c, s, d, local, now);
            && t.Some? && t.value.c.ack.lastNow == now
            && t.value.c.dispatch == c.dispatch && t.value.c.handDispatch == c.handDispatch
            && (t.value.c.ack.state == CallAcks.Awaiting ==> c.ack.state == CallAcks.Awaiting)
  {
    hide CallAcks.Relevant, Handshakes.Current;
  }

  lemma KeptAliveRuns(x: Situation, local: Address, now: u64, answers: Answers)
    ensures KeptAlive(x, local, now, answers).Some? <==> now >= x.c.handDispatch.lastNow
  {
    hide CallDispatching.Acceptable, CallDispatching.Current, ActionCommand;
  }

  /** Nothing is sent for a session that is over. */
  lemma EndedIsServed(x: Situation, previous: Session, local: Address, now: u64, answer: AttemptResult)
    requires !Active(x.s.state) && now >= x.c.dispatch.lastNow
    ensures Served(x, previous, local, now, answer).Some?
  {
    hide CallDispatching.AfterFailure, CallDispatching.Answered, Undelivered, Delivered;
  }

  /** Once the timers have ended the session, the rest of the step cannot refuse. */
  lemma EndedStepRuns(x: World, local: Address, now: u64, answers: Answers)
    requires InTime(x.c, now)
    requires x.d.armed && now < x.d.started ==> Handshakes.Ticked(x.c.handshake, x.s, local, now).outcome.disconnected
    requires var t := Timers(x.c, x.s, x.d, local, now); t.Some? ==> t.value.s.state == Ended
    ensures Effect(x, Step(now, answers), local).Some?
  {
    TimersRun(x.c, x.s, x.d, local, now);
    hide Timers, KeptAlive, Served;
    var timed := Timers(x.c, x.s, x.d, local, now).value;
    RevivedEffect(timed, local, now);
    KeptAliveRuns(timed, local, now, answers);
    KeptAliveEffect(timed, local, now, answers);
    EndedIsServed(KeptAlive(timed, local, now, answers).value, x.s, local, now, answers.call);
  }

  /** Whatever rings or talks on a run, and nothing else, has an armed deadline; it is of its
      own generation, and the session ends at the first step in time once the deadline's
      start lies 30 or 120 seconds back. */
  lemma OverdueCallsEnd(inputs: seq<Input>, local: Address, start: u64, now: u64, answers: Answers)
    ensures var x := Run(inputs, local, start);
            x.d.armed ==> x.s.state == Ringing || x.s.state == Talking
    ensures var x := Run(inputs, local, start);
            x.s.state == Ringing || x.s.state == Talking ==>
              && x.d.armed && x.d.generation == x.s.generation && x.d.timeout <= Limit(x.s)
              && (now >= x.d.started + Limit(x.s) && InTime(x.c, now) ==>
                    EndedFrom(x.s, Next(x, Step(now, answers), local).s))
  {
    var x := Run(inputs, local, start);
    RunsAreSound(inputs, local, start);
    hide Run, Effect, Next, InTime;
    if (x.s.state == Ringing || x.s.state == Talking) && now >= x.d.started + Limit(x.s) && InTime(x.c, now) {
      OverdueTimers(x, local, now);
      EndedStepRuns(x, local, now, answers);
      OverdueStep(x, local, now, answers);
    }
  }

  lemma OverdueStep(x: World, local: Address, now: u64, answers: Answers)
    requires Sound(x) && (x.s.state == Ringing || x.s.state == Talking) && now >= x.d.started + Limit(x.s)
    requires Effect(x, Step(now, answers), local).Some?
    ensures EndedFrom(x.s, Next(x, Step(now, answers), local).s)
  {
    OverdueTimers(x, local, now);
    TimersEffect(x.c, x.s, x.d, local, now);
    hide Timers, Revived, KeptAlive, Served, PickedUp;
    var timed := Timers(x.c, x.s, x.d, local, now);
    RevivedEffect(timed.value, local, now);
    var revived := Revived(timed.value, local, now);
    KeptAliveEffect(revived.value, local, now, answers);
    var kept := KeptAlive(revived.value, local, now, answers);
    EndedStaysEnded(kept.value, x.s, local, now, answers.call);
  }

  lemma EndedStaysEnded(x: Situation, previous: Session, local: Address, now: u64, answer: AttemptResult)
    requires x.s.state == Ended && Receiving.Guarded(x.s, x.d) && RecordOk(x.c, x.s)
    ensures var y := Served(x, previous, local, now, answer);
            y.Some? ==> y.value.s == x.s
  {
    hide Served;
    ServedEffect(x, previous, local, now, answer);
  }

  lemma OverdueTimers(x: World, local: Address, now: u64)
    requires Receiving.Guarded(x.s, x.d) && (x.s.state == Ringing || x.s.state == Talking)
    ensures var t := Timers(x.c, x.s, x.d, local, now);
            t.Some? && now >= x.d.started + x.d.timeout ==> t.value.s.state == Ended
  {
    hide CallAcks.Relevant, Classified;
  }

  /** A ringing session turns into another ringing session only by preemption or by a call
      that overtakes a hang-up; a preemption climbs in rank and starts without a pick-up. */
  lemma RingingTakeover(x: World, i: Input, local: Address)
    requires Sound(x) && x.s.state == Ringing && Next(x, i, local).s.state == Ringing
    ensures var y := Next(x, i, local);
            && (y.s.generation != x.s.generation && !Overtakes(x, i, local) ==>
                  && y.s.generation == x.s.generation + 1 && y.s.pick == NO_PICK
                  && 0 <= Receiving.RankHere(x.s.peer, local) < Receiving.RankHere(y.s.peer, local) <= 2)
            && (y.s.generation == x.s.generation ==> y.s.peer == x.s.peer)
  {
    match i
    case Step(now, answers) =>
      StepEffect(x.c, x.s, x.d, local, now, answers);
      hide CallControls.Stepped, Receiving.Guarded;
    case Datagram(data, now) =>
      if Effect(x, i, local).Some? {
        var f := Parse(data).value;
        if f.family == 3 && (f.opcode == 0x51 || f.opcode == 0x52) {
          hide Handshakes.Received, CallDispatching.Enqueued, ActionCommand, Parse;
        } else {
          CallTakeover(x.c, f, local, x.s, x.d, now);
          hide CallControls.CallReceived, Parse, Receiving.Guarded, Overtaken;
        }
      }
    case Submit(command, now) =>
    case Install(peer, primary, secondary, duration, now) =>
  }

  lemma CallTakeover(c: Control, f: Frame, local: Address, s: Session, d: Deadline, now: u64)
    requires Receiving.Guarded(s, d) && s.state == Ringing
    ensures var x := CallControls.CallReceived(c, f, local, s, d, now);
            x.Some? && x.value.s.state == Ringing ==>
              && (x.value.s.generation != s.generation && !Overtaken(c, f, local, s, now) ==>
                    && x.value.s.generation == s.generation + 1 && x.value.s.pick == NO_PICK
                    && 0 <= Receiving.RankHere(s.peer, local) < Receiving.RankHere(x.value.s.peer, local) <= 2)
              && (x.value.s.generation == s.generation ==> x.value.s.peer == s.peer)
  {
    hide Classified, CallAcks.Ticked, Receiving.Received, Receiving.RankHere, CallAcks.Relevant, CallAcks.Acknowledges;
    if now >= c.ack.lastNow {
      AfterExpiryEffect(c.ack, local, s, d, now);
      var b := CallAcks.Ticked(c.ack, s, local, now).value;
      var q := CallRuntimes.AfterExpiry(CallRuntimes.Passage(b, s, d, CallRuntimes.Noted(c.ack.state, b, CallRuntimes.CALM)));
      hide CallRuntimes.AfterExpiry, LateHangup;
      RingingReception(f, local, s, d, now);
      if q.s != s {
        EndedReception(f, local, q.s, q.d, now);
      }
    } else {
      TickNeedsTime(c.ack, s, local, now);
    }
  }

  lemma RingingReception(f: Frame, local: Address, s: Session, d: Deadline, now: u64)
    requires s.state == Ringing
    ensures var e := Receiving.Received(f, local, s, d, now);
            e.status == Ok && e.s.state == Ringing ==>
              && (e.s.generation != s.generation ==>
                    && e.s.generation == s.generation + 1 && e.s.pick == NO_PICK
                    && 0 <= Receiving.RankHere(s.peer, local) < Receiving.RankHere(e.s.peer, local) <= 2)
              && (e.s.generation == s.generation ==> e.s.peer == s.peer)
  {
  }

  lemma EndedReception(f: Frame, local: Address, s: Session, d: Deadline, now: u64)
    requires s.state == Ended
    ensures var e := Receiving.Received(f, local, s, d, now);
            e.status == Ok && e.s.state == Ringing ==> EventOf(f) == IncomingCall && IsFor(f, local) && e.s.generation != s.generation
  {
  }

  /** All inputs from `i` to `j` leave the station ringing, and none overtakes a hang-up. */
  ghost predicate Rings(inputs: seq<Input>, local: Address, start: u64, i: nat, j: nat)
    requires i <= j <= |inputs|
  {
    && (forall k :: i <= k <= j ==> Run(inputs[..k], local, start).s.state == Ringing)
    && (forall k :: i <= k < j ==> !Overtakes(Run(inputs[..k], local, start), inputs[k], local))
  }

  /** One ringing spell is preempted twice at most: each preemption climbs one of the three
      ranks, and takes one generation. */
  lemma {:induction false} AtMostTwoPreemptions(inputs: seq<Input>, local: Address, start: u64, i: nat, j: nat)
    requires i <= j <= |inputs| && Rings(inputs, local, start, i, j)
    ensures var a, b := Run(inputs[..i], local, start).s, Run(inputs[..j], local, start).s;
            && a.generation <= b.generation <= a.generation + 2
            && (b.generation > a.generation ==>
                  && 0 <= Receiving.RankHere(a.peer, local)
                  && Receiving.RankHere(a.peer, local) + (b.generation - a.generation) <= Receiving.RankHere(b.peer, local) <= 2)
            && (b.generation == a.generation ==> b.peer == a.peer)
    decreases j - i
  {
    if i < j {
      AtMostTwoPreemptions(inputs, local, start, i, j - 1);
      RunsAreSound(inputs[..j - 1], local, start);
      RunStep(inputs, local, start, j - 1);
      hide Run, Next, Sound, Overtakes, Receiving.RankHere;
      RingingTakeover(Run(inputs[..j - 1], local, start), inputs[j - 1], local);
    }
  }

  // ---------------------------------------------------------------------------
  // How a call is answered.

  /** The input sends a pick-up of ours to `peer` in `generation`: seen on the wire, or
      delivered by the command slot. */
  predicate SendsPick(x: World, i: Input, local: Address, peer: Address, generation: u64, at: u64) {
    && i.now == at && x.s.generation == generation && x.s.peer == peer
    && match i
       case Datagram(data, _) =>
         && Parse(data).Some?
         && var f := Parse(data).value;
         f.family == 3 && f.opcode == 3 && |f.payload| == 7 && f.source == local && f.destination == peer
       case Step(_, _) =>
         && Effect(x, i, local).Some?
         && var y := Effect(x, i, local).value;
         && y.r.confirmationStarted && CallAcks.IsPickUp(y.c.dispatch.command)
         && y.c.dispatch.command.destination == peer && y.c.dispatch.command.source == local
         && y.c.dispatch.command.generation == generation
       case _ => false
  }

  /** A peer's answer to a pick-up. */
  predicate IsAnswer(i: Input, peer: Address, local: Address) {
    && i.Datagram? && Parse(i.data).Some?
    && var f := Parse(i.data).value;
    f.family == 3 && f.opcode == 0x83 && |f.payload| == 7 && f.source == peer && f.destination == local
  }

  /** The session waits for the answer to a pick-up. */
  predicate AwaitsAnswer(s: Session) {
    (s.state == Ringing || s.state == Preview) && s.pick.generation == s.generation
  }

  lemma PickReception(f: Frame, local: Address, s: Session, d: Deadline, now: u64)
    requires Receiving.Guarded(s, d)
    ensures var e := Receiving.Received(f, local, s, d, now);
            e.status == Ok ==>
              && (e.s.state == Talking && s.state != Talking ==>
                    && AwaitsAnswer(s) && InWindow(s.pick, now) && e.s.generation == s.generation && e.s.peer == s.peer
                    && f.family == 3 && f.opcode == 0x83 && |f.payload| == 7 && f.source == s.peer && f.destination == local)
              && (e.s.state == Talking && s.state == Talking ==> e.s.generation == s.generation)
              && (AwaitsAnswer(e.s) ==>
                    || (AwaitsAnswer(s) && e.s.pick == s.pick && e.s.generation == s.generation && e.s.peer == s.peer)
                    || (&& Active(s.state) && e.s.pick == Pick(s.generation, now, Receiving.PICK_TIMEOUT_MS, local)
                        && e.s.generation == s.generation && e.s.peer == s.peer && s.pick.generation != s.generation
                        && f.family == 3 && f.opcode == 3 && |f.payload| == 7 && f.source == local && f.destination == s.peer))
  {
  }

  /** What one input does to the wait for an answer. */
  predicate PicksFrom(x: World, i: Input, y: World, local: Address) {
    && (y.s.state == Talking && !(x.s.state == Talking && x.s.generation == y.s.generation) ==>
          && AwaitsAnswer(x.s) && InWindow(x.s.pick, i.now) && y.s.generation == x.s.generation && y.s.peer == x.s.peer
          && IsAnswer(i, x.s.peer, local))
    && (AwaitsAnswer(y.s) ==>
          || (AwaitsAnswer(x.s) && y.s.pick == x.s.pick && y.s.generation == x.s.generation && y.s.peer == x.s.peer)
          || (&& SendsPick(x, i, local, y.s.peer, y.s.generation, i.now)
              && y.s.pick == Pick(y.s.generation, i.now, Receiving.PICK_TIMEOUT_MS, local)
              && x.s.pick.generation != x.s.generation))
  }

  lemma CallPicks(c: Control, f: Frame, local: Address, s: Session, d: Deadline, now: u64)
    requires Receiving.Guarded(s, d)
    ensures var x := CallControls.CallReceived(c, f, local, s, d, now);
            x.Some? ==>
              && (x.value.s.state == Talking && s.state != Talking ==>
                    && AwaitsAnswer(s) && InWindow(s.pick, now) && x.value.s.generation == s.generation && x.value.s.peer == s.peer
                    && f.family == 3 && f.opcode == 0x83 && |f.payload| == 7 && f.source == s.peer && f.destination == local)
              && (x.value.s.state == Talking && s.state == Talking ==> x.value.s.generation == s.generation)
              && (AwaitsAnswer(x.value.s) ==>
                    || (AwaitsAnswer(s) && x.value.s.pick == s.pick && x.value.s.generation == s.generation && x.value.s.peer == s.peer)
                    || (&& x.value.s.pick == Pick(s.generation, now, Receiving.PICK_TIMEOUT_MS, local)
                        && x.value.s.generation == s.generation && x.value.s.peer == s.peer && s.pick.generation != s.generation
                        && f.family == 3 && f.opcode == 3 && |f.payload| == 7 && f.source == local && f.destination == s.peer))
  {
    hide Classified, CallAcks.Ticked, Receiving.Received, Receiving.Guarded, CallAcks.Relevant, CallAcks.Acknowledges;
    if now >= c.ack.lastNow {
      AfterExpiryEffect(c.ack, local, s, d, now);
      var b := CallAcks.Ticked(c.ack, s, local, now).value;
      var q := CallRuntimes.AfterExpiry(CallRuntimes.Passage(b, s, d, CallRuntimes.Noted(c.ack.state, b, CallRuntimes.CALM)));
      hide CallRuntimes.AfterExpiry, LateHangup;
      PickReception(f, local, q.s, q.d, now);
    } else {
      TickNeedsTime(c.ack, s, local, now);
    }
  }

  lemma NextPicks(x: World, i: Input, local: Address)
    requires Sound(x)
    ensures PicksFrom(x, i, Next(x, i, local), local)
  {
    match i
    case Step(now, answers) =>
      StepEffect(x.c, x.s, x.d, local, now, answers);
      hide CallControls.Stepped, Receiving.Guarded;
    case Datagram(data, now) =>
      if Effect(x, i, local).Some? {
        var f := Parse(data).value;
        if f.family == 3 && (f.opcode == 0x51 || f.opcode == 0x52) {
          hide Handshakes.Received, CallDispatching.Enqueued, ActionCommand, Parse;
        } else {
          CallPicks(x.c, f, local, x.s, x.d, now);
          hide CallControls.CallReceived, Parse, Receiving.Guarded;
        }
      }
    case Submit(command, now) =>
    case Install(peer, primary, secondary, duration, now) =>
      hide CallDispatching.Enqueued, CallDispatching.PreparedPick;
  }

  /** A pick-up of ours was sent to this peer in this generation at `at`. */
  ghost predicate WasSent(inputs: seq<Input>, local: Address, start: u64, peer: Address, generation: u64, at: u64) {
    exists j :: 0 <= j < |inputs| && SendsPick(Run(inputs[..j], local, start), inputs[j], local, peer, generation, at)
  }

  lemma {:induction false} AwaitedWasSent(inputs: seq<Input>, local: Address, start: u64)
    ensures var s := Run(inputs, local, start).s;
            AwaitsAnswer(s) ==>
              && s.pick.timeout == Receiving.PICK_TIMEOUT_MS
              && WasSent(inputs, local, start, s.peer, s.generation, s.pick.started)
  {
    hide Next, Sound, SendsPick;
    if inputs != [] {
      var n := |inputs| - 1;
      var x, y := Run(inputs[..n], local, start), Run(inputs, local, start);
      AwaitedWasSent(inputs[..n], local, start);
      RunsAreSound(inputs[..n], local, start);
      NextPicks(x, inputs[n], local);
      assert y == Next(x, inputs[n], local);
      hide Run;
      if AwaitsAnswer(y.s) {
        if AwaitsAnswer(x.s) && y.s.pick == x.s.pick && y.s.generation == x.s.generation && y.s.peer == x.s.peer {
          var j :| 0 <= j < n && SendsPick(Run(inputs[..n][..j], local, start), inputs[..n][j], local, x.s.peer,
                                           x.s.generation, x.s.pick.started);
          assert inputs[..n][..j] == inputs[..j];
          assert SendsPick(Run(inputs[..j], local, start), inputs[j], local, y.s.peer, y.s.generation, y.s.pick.started);
        } else {
          assert SendsPick(Run(inputs[..n], local, start), inputs[n], local, y.s.peer, y.s.generation, y.s.pick.started);
        }
      }
    } else {
      assert !AwaitsAnswer(Run(inputs, local, start).s);
    }
  }

  /** On every run from idle, a call is answered only by the peer's answer to a pick-up that
      we sent to the same peer, in the same generation, less than three seconds before. */
  lemma TalkingWasAnswered(inputs: seq<Input>, local: Address, start: u64, k: nat)
    requires k < |inputs|
    ensures var s, after := Run(inputs[..k], local, start).s, Run(inputs[..k + 1], local, start).s;
            after.state == Talking && !(s.state == Talking && s.generation == after.generation) ==>
              && IsAnswer(inputs[k], after.peer, local)
              && s.pick.started <= inputs[k].now < s.pick.started + 3000
              && WasSent(inputs[..k], local, start, after.peer, after.generation, s.pick.started)
  {
    hide Next, Sound, Run, WasSent;
    RunsAreSound(inputs[..k], local, start);
    RunStep(inputs, local, start, k);
    AwaitedWasSent(inputs[..k], local, start);
    NextPicks(Run(inputs[..k], local, start), inputs[k], local);
  }

  /** While an answer is awaited, no input moves the start of the wait: neither a repeated
      pick-up nor a repeated call. A preemption voids it. */
  lemma RepeatsDoNotExtend(x: World, i: Input, local: Address)
    requires Sound(x) && AwaitsAnswer(x.s)
    ensures var y := Next(x, i, local);
            && (AwaitsAnswer(y.s) ==> y.s.pick == x.s.pick && y.s.generation == x.s.generation)
            && (y.s.generation != x.s.generation ==> !AwaitsAnswer(y.s))
  {
    hide Next, Sound, SendsPick;
    NextPicks(x, i, local);
  }

  // ---------------------------------------------------------------------------
  // Keep-alives.

  /** How many of our keep-alives for a generation have gone unanswered, given the count
      before: an ask of that generation adds one, any accepted keep-alive frame clears. */
  function Counted(e: Option<Situation>, generation: u64, before: nat): nat {
    if e.None? then before
    else
      var h := e.value.r.handshake;
      if h.acceptedAsk || h.acceptedReply then 0
      else if h.action.Some? && h.action.value.Ask? && h.action.value.generation == generation then before + 1
      else before
  }

  function Unanswered(inputs: seq<Input>, local: Address, start: u64, generation: u64): nat {
    if inputs == [] then 0
    else
      var n := |inputs| - 1;
      Counted(Effect(Run(inputs[..n], local, start), inputs[n], local), generation,
              Unanswered(inputs[..n], local, start, generation))
  }

  /** The keep-alive of a live session counts what went unanswered. */
  predicate Beats(h: Handshakes.Handshake, s: Session, local: Address, unanswered: nat) {
    && (h.active ==> h.generation <= s.generation && h.nextProbe <= h.lastNow + Handshakes.INTERVAL_MS)
    && (Active(s.state) ==>
          if h.active && h.generation == s.generation
          then h.peer == s.peer && h.local == local && h.missed == unanswered <= Handshakes.MAX_MISSED
          else unanswered == 0)
  }

  lemma BeatEffect(h: Handshakes.Handshake, s: Session, local: Address, now: u64, u: nat)
    requires Beats(h, s, local, u)
    ensures var b := Handshakes.Ticked(h, s, local, now);
            b.status == Ok ==>
              && !b.outcome.acceptedAsk && !b.outcome.acceptedReply
              && (b.outcome.action.Some? ==> b.outcome.action.value.Ask? && b.outcome.action.value.generation == s.generation
                                              && b.h.active && Active(s.state))
              && Beats(b.h, b.s, local, if b.outcome.action.Some? then u + 1 else u)
              && (b.s == s || EndedFrom(s, b.s))
              && (b.outcome.disconnected ==> Active(s.state) && b.s == Aborted(s).0)
              && (!b.outcome.disconnected ==> b.s == s)
              && (Active(s.state) && u == Handshakes.MAX_MISSED && now >= h.lastNow + Handshakes.INTERVAL_MS
                  ==> b.outcome.disconnected)
  {
  }

  lemma TimersBeat(c: Control, s: Session, d: Deadline, local: Address, now: u64, u: nat)
    requires Receiving.Guarded(s, d) && RecordOk(c, s) && Beats(c.handshake, s, local, u)
    ensures var x := Timers(c, s, d, local, now);
            x.Some? ==>
              var h := x.value.r.handshake;
              && !h.acceptedAsk && !h.acceptedReply
              && (h.action.Some? ==> h.action.value.Ask? && h.action.value.generation == s.generation && x.value.c.handshake.active)
              && Beats(x.value.c.handshake, x.value.s, local, if h.action.Some? then u + 1 else u)
              && (Active(s.state) && u == Handshakes.MAX_MISSED && now >= c.handshake.lastNow + Handshakes.INTERVAL_MS
                  ==> EndedFrom(s, x.value.s) && x.value.c.terminal.reason == HeartbeatTimeout)
  {
    BeatEffect(c.handshake, s, local, now, u);
    var b := Handshakes.Ticked(c.handshake, s, local, now);
    var e := if b.outcome.disconnected then DISARMED else d;
    RuntimeTickEffect(c.ack, local, b.s, e, now);
    hide Handshakes.Ticked, CallRuntimes.Ticked;
    GuardedGeneration(s, d);
  }

  lemma RevivedBeat(x: Situation, local: Address, now: u64, u: nat)
    requires Beats(x.c.handshake, x.s, local, u)
    requires !x.r.handshake.acceptedAsk && !x.r.handshake.acceptedReply
    requires x.r.handshake.action.Some? ==> x.c.handshake.active
    ensures var y := Revived(x, local, now);
            y.Some? ==>
              && !y.value.r.handshake.acceptedAsk && !y.value.r.handshake.acceptedReply
              && (y.value.r.handshake != x.r.handshake ==>
                    && x.r.handshake.action.None?
                    && (y.value.r.handshake.action.Some? ==>
                          y.value.r.handshake.action.value.Ask? && y.value.r.handshake.action.value.generation == x.s.generation))
              && Beats(y.value.c.handshake, x.s, local,
                       if y.value.r.handshake != x.r.handshake && y.value.r.handshake.action.Some? then u + 1 else u)
  {
  }

  lemma ClosedBeat(h: Handshakes.Handshake, s: Session, after: Session, local: Address, u: nat)
    requires Beats(h, s, local, u)
    requires after == s || EndedFrom(s, after) || PickedUp(s, after, local, after.pick.started)
    ensures Beats(if Active(after.state) then h else h.(active := false), after, local, u)
  {
  }

  /** The only keep-alive news of a step is an ask of the session's own generation. */
  predicate AsksFor(h: Handshakes.Outcome, generation: u64) {
    && !h.acceptedAsk && !h.acceptedReply
    && (h.action.Some? ==> h.action.value.Ask? && h.action.value.generation == generation)
  }

  lemma StepBeats(x: World, local: Address, now: u64, answers: Answers, u: nat)
    requires Sound(x) && Beats(x.c.handshake, x.s, local, u)
    ensures var e := Effect(x, Step(now, answers), local);
            e.Some? ==>
              && AsksFor(e.value.r.handshake, x.s.generation)
              && Beats(e.value.c.handshake, e.value.s, local, Counted(e, x.s.generation, u))
              && e.value.s.generation == x.s.generation
  {
    hide Timers, Revived, KeptAlive, Served, Beats, Receiving.Guarded;
    var timed := Timers(x.c, x.s, x.d, local, now);
    if timed.Some? {
      TimersBeat(x.c, x.s, x.d, local, now, u);
      TimersEffect(x.c, x.s, x.d, local, now);
      TimersGuard(x, local, now);
      var v := if timed.value.r.handshake.action.Some? then u + 1 else u;
      var revived := Revived(timed.value, local, now);
      if revived.Some? {
        RevivedBeat(timed.value, local, now, v);
        RevivedEffect(timed.value, local, now);
        LaterBeats(revived.value, x.s, local, now, answers,
                   if revived.value.r.handshake != timed.value.r.handshake && revived.value.r.handshake.action.Some?
                   then v + 1 else v);
      }
    }
  }

  lemma LaterBeats(x: Situation, previous: Session, local: Address, now: u64, answers: Answers, u: nat)
    requires Receiving.Guarded(x.s, x.d) && RecordOk(x.c, x.s) && Beats(x.c.handshake, x.s, local, u)
    requires Active(x.s.state) ==> previous.generation == x.s.generation && previous.peer == x.s.peer
    ensures var kept := KeptAlive(x, local, now, answers);
            kept.Some? ==>
              var served := Served(kept.value, previous, local, now, answers.call);
              served.Some? ==>
                var y := Closed(served.value);
                && y.r.handshake == x.r.handshake && Beats(y.c.handshake, y.s, local, u)
                && y.s.generation == x.s.generation
  {
    hide KeptAlive, Served, Beats, Receiving.Guarded;
    var kept := KeptAlive(x, local, now, answers);
    if kept.Some? {
      KeptAliveEffect(x, local, now, answers);
      var served := Served(kept.value, previous, local, now, answers.call);
      if served.Some? {
        ServedEffect(kept.value, previous, local, now, answers.call);
        ClosedBeat(x.c.handshake, x.s, served.value.s, local, u);
      }
    }
  }

  lemma SilentStep(x: World, local: Address, now: u64, answers: Answers, u: nat)
    requires Sound(x) && Beats(x.c.handshake, x.s, local, u)
    requires Active(x.s.state) && u == Handshakes.MAX_MISSED && now >= x.c.handshake.lastNow + Handshakes.INTERVAL_MS
    ensures var e := Effect(x, Step(now, answers), local);
            e.Some? ==> EndedFrom(x.s, e.value.s) && e.value.c.terminal.reason == HeartbeatTimeout
  {
    hide Timers, Revived, KeptAlive, Served, Beats, Receiving.Guarded;
    var timed := Timers(x.c, x.s, x.d, local, now);
    if timed.Some? {
      TimersBeat(x.c, x.s, x.d, local, now, u);
      TimersEffect(x.c, x.s, x.d, local, now);
      TimersGuard(x, local, now);
      var revived := Revived(timed.value, local, now);
      RevivedEffect(timed.value, local, now);
      if revived.Some? {
        KeptAliveEffect(revived.value, local, now, answers);
        var kept := KeptAlive(revived.value, local, now, answers);
        if kept.Some? {
          ServedEffect(kept.value, x.s, local, now, answers.call);
        }
      }
    }
  }

  lemma TimersGuard(x: World, local: Address, now: u64)
    requires Sound(x)
    ensures var t := Timers(x.c, x.s, x.d, local, now);
            t.Some? ==> Receiving.Guarded(t.value.s, t.value.d)
  {
    hide Timers;
    TimersEffect(x.c, x.s, x.d, local, now);
  }

  lemma HandBeats(c: Control, f: Frame, local: Address, s: Session, d: Deadline, now: u64, u: nat)
    requires Beats(c.handshake, s, local, u)
    ensures var e := HandReceived(c, f, local, s, d, now);
            e.Some? ==>
              && e.value.s == s && Beats(e.value.c.handshake, s, local, Counted(e, s.generation, u))
              && (e.value.r.handshake.action.Some? ==> !e.value.r.handshake.action.value.Ask?)
  {
    hide CallDispatching.Enqueued, ActionCommand;
  }

  lemma CallBeats(c: Control, f: Frame, local: Address, s: Session, d: Deadline, now: u64, u: nat)
    requires Receiving.Guarded(s, d) && RecordOk(c, s) && Beats(c.handshake, s, local, u)
    ensures var e := CallControls.CallReceived(c, f, local, s, d, now);
            e.Some? ==>
              && e.value.r.handshake == Handshakes.NOTHING
              && e.value.s.generation >= s.generation
              && Beats(e.value.c.handshake, e.value.s, local, if e.value.s.generation == s.generation then u else 0)
  {
    PassageEffect(c.ack, f, local, s, d, now);
    hide CallRuntimes.Received, Receiving.Guarded, LateHangup, EventOf, IsFor;
    CallKeepsPeer(c.ack, f, local, s, d, now);
    NamingKeepsBeat(c, s, CallRuntimes.Received(c.ack, f, local, s, d, now));
    hide Classified, Told;
  }

  lemma NamingKeepsBeat(c: Control, s: Session, p: Option<CallRuntimes.Passage>)
    ensures p.Some? ==>
              Classified(c.(ack := p.value.a), s, p.value.s, p.value.r, false).handshake == c.handshake
  {
  }

  lemma CallKeepsPeer(a: CallAcks.Ack, f: Frame, local: Address, s: Session, d: Deadline, now: u64)
    requires Receiving.Guarded(s, d)
    ensures var p := CallRuntimes.Received(a, f, local, s, d, now);
            p.Some? && Active(p.value.s.state) && p.value.s.generation == s.generation ==>
              Active(s.state) && p.value.s.peer == s.peer
  {
    hide CallAcks.Ticked, CallAcks.Relevant, CallAcks.Acknowledges, Receiving.Received, Receiving.Guarded;
    if now >= a.lastNow {
      AfterExpiryEffect(a, local, s, d, now);
      var b := CallAcks.Ticked(a, s, local, now).value;
      var q := CallRuntimes.AfterExpiry(CallRuntimes.Passage(b, s, d, CallRuntimes.Noted(a.state, b, CallRuntimes.CALM)));
      hide CallRuntimes.AfterExpiry, LateHangup;
      ReceivedEffect(f, local, q.s, q.d, now);
    } else {
      TickNeedsTime(a, s, local, now);
    }
  }

  lemma NextBeats(x: World, i: Input, local: Address, u: nat)
    requires Sound(x) && Beats(x.c.handshake, x.s, local, u)
    ensures var y, e := Next(x, i, local), Effect(x, i, local);
            && y.s.generation >= x.s.generation
            && Beats(y.c.handshake, y.s, local, if y.s.generation == x.s.generation then Counted(e, x.s.generation, u) else 0)
            && (e.Some? && e.value.r.handshake.action.Some? && e.value.r.handshake.action.value.Ask? ==>
                  e.value.r.handshake.action.value.generation == x.s.generation)
  {
    match i
    case Step(now, answers) =>
      StepBeats(x, local, now, answers, u);
      hide CallControls.Stepped, Receiving.Guarded, Beats;
    case Datagram(data, now) =>
      if Effect(x, i, local).Some? {
        var f := Parse(data).value;
        if f.family == 3 && (f.opcode == 0x51 || f.opcode == 0x52) {
          HandBeats(x.c, f, local, x.s, x.d, now, u);
        } else {
          CallBeats(x.c, f, local, x.s, x.d, now, u);
        }
        hide HandReceived, CallControls.CallReceived, Parse, Receiving.Guarded, Beats;
      }
    case Submit(command, now) =>
      hide CallDispatching.Enqueued, Beats;
    case Install(peer, primary, secondary, duration, now) =>
      hide CallDispatching.Enqueued, CallDispatching.PreparedPick;
  }

  lemma {:induction false} NoAsksAhead(inputs: seq<Input>, local: Address, start: u64, generation: u64)
    requires generation > Run(inputs, local, start).s.generation
    ensures Unanswered(inputs, local, start, generation) == 0
  {
    hide Sound, Next, Effect, Beats;
    if inputs != [] {
      var n := |inputs| - 1;
      var x := Run(inputs[..n], local, start);
      RunCounts(inputs[..n], local, start);
      RunsAreSound(inputs[..n], local, start);
      NextBeats(x, inputs[n], local, Unanswered(inputs[..n], local, start, x.s.generation));
      NoAsksAhead(inputs[..n], local, start, generation);
    }
  }

  /** On every run the keep-alive counter of a live session is the number of keep-alives of
      its generation that went out since the peer was last heard. */
  lemma {:induction false} RunCounts(inputs: seq<Input>, local: Address, start: u64)
    ensures var x := Run(inputs, local, start);
            Beats(x.c.handshake, x.s, local, Unanswered(inputs, local, start, x.s.generation))
  {
    if inputs != [] {
      hide Sound, Next, Effect, Beats;
      var n := |inputs| - 1;
      var x, y := Run(inputs[..n], local, start), Run(inputs, local, start);
      RunCounts(inputs[..n], local, start);
      RunsAreSound(inputs[..n], local, start);
      NextBeats(x, inputs[n], local, Unanswered(inputs[..n], local, start, x.s.generation));
      if y.s.generation > x.s.generation {
        NoAsksAhead(inputs[..n], local, start, y.s.generation);
        hide Run;
        assert Unanswered(inputs, local, start, y.s.generation) == 0 by {
          CountedStays(inputs, local, start, y.s.generation);
        }
      }
    }
  }

  lemma CountedStays(inputs: seq<Input>, local: Address, start: u64, generation: u64)
    requires inputs != [] && Unanswered(inputs[..|inputs| - 1], local, start, generation) == 0
    requires var e := Effect(Run(inputs[..|inputs| - 1], local, start), inputs[|inputs| - 1], local);
             e.Some? && e.value.r.handshake.action.Some? && e.value.r.handshake.action.value.Ask? ==>
               e.value.r.handshake.action.value.generation != generation
    ensures Unanswered(inputs, local, start, generation) == 0
  {
    hide Run, Effect;
  }

  lemma SilentTimers(x: World, local: Address, now: u64, u: nat)
    requires Sound(x) && Beats(x.c.handshake, x.s, local, u) && Active(x.s.state) && u == Handshakes.MAX_MISSED
    requires now >= x.c.handshake.lastNow + Handshakes.INTERVAL_MS
    ensures Handshakes.Ticked(x.c.handshake, x.s, local, now).outcome.disconnected
    ensures var t := Timers(x.c, x.s, x.d, local, now); t.Some? ==> t.value.s.state == Ended
  {
    BeatEffect(x.c.handshake, x.s, local, now, u);
    TimersBeat(x.c, x.s, x.d, local, now, u);
    hide Timers, Handshakes.Ticked, Beats, Sound;
  }

  /** A peer that leaves five keep-alives unanswered loses its session at the next due step
      in time, and never more than five go unanswered. */
  lemma SilentPeersAreDropped(inputs: seq<Input>, local: Address, start: u64, now: u64, answers: Answers)
    ensures var x := Run(inputs, local, start);
            var u := Unanswered(inputs, local, start, x.s.generation);
            Active(x.s.state) ==>
              && u <= 5
              && (u == 5 && now >= x.c.handshake.lastNow + 2000 && InTime(x.c, now) ==>
                    var y := Next(x, Step(now, answers), local);
                    EndedFrom(x.s, y.s) && y.c.terminal.reason == HeartbeatTimeout)
  {
    var x := Run(inputs, local, start);
    var u := Unanswered(inputs, local, start, x.s.generation);
    RunCounts(inputs, local, start);
    RunsAreSound(inputs, local, start);
    hide Run, Unanswered, CallControls.Stepped, Sound, InTime;
    if Active(x.s.state) && u == 5 && now >= x.c.handshake.lastNow + 2000 && InTime(x.c, now) {
      SilentTimers(x, local, now, u);
      EndedStepRuns(x, local, now, answers);
      SilentStep(x, local, now, answers, u);
    }
  }

  // ---------------------------------------------------------------------------
  // When a step is refused.

  predicate IsCallCommand(c: Command) {
    CallAcks.IsPickUp(c) || CallAcks.IsHangUp(c)
  }

  /** A command under way is one of the prepared ones and the only one that may be waiting,
      and the deadline did not start ahead of the clock. */
  predicate Orderly(x: World) {
    && (CallDispatching.Busy(x.c.dispatch.state) ==>
          && IsCallCommand(x.c.dispatch.command) && CallDispatching.Acceptable(x.c.dispatch.command)
          && x.c.ack.state != CallAcks.Awaiting)
    && (x.d.armed ==> x.d.started <= x.c.ack.lastNow)
  }

  /** The submit functions prepare pick-ups and hang-ups, nothing else. */
  predicate CallCommandsOnly(inputs: seq<Input>) {
    forall i :: 0 <= i < |inputs| && inputs[i].Submit? && inputs[i].command.Some? ==>
      IsCallCommand(inputs[i].command.value)
  }

  predicate DeadlineDue(d: Deadline, s: Session, now: u64) {
    d.armed && d.generation == s.generation && now >= d.started + d.timeout
  }

  /** A live session that has no keep-alives and cannot start any, because its peer or this
      station has no address, and that no timer ends. */
  predicate Mute(x: World, local: Address, now: u64) {
    && Active(x.s.state) && !Handshakes.Current(x.c.handshake, x.s, local)
    && (x.s.peer == NO_ADDRESS || local == NO_ADDRESS)
    && !DeadlineDue(x.d, x.s, now) && !LateHangup(x.c.ack, local, x.s, now)
  }

  lemma RuntimeLeaves(a: CallAcks.Ack, local: Address, s: Session, d: Deadline, now: u64)
    requires now >= a.lastNow && (d.armed ==> now >= d.started) && Receiving.Guarded(s, d) && Active(s.state)
    ensures var t := CallRuntimes.Ticked(a, local, s, d, now);
            && t.Some?
            && (Active(t.value.s.state) <==> !DeadlineDue(d, s, now) && !LateHangup(a, local, s, now))
            && (Active(t.value.s.state) ==> t.value.s == s)
  {
    hide CallAcks.Relevant;
    CurrentNeedsLife(a.command, s.(state := Ended, pick := s.pick.(generation := 0)), local);
  }

  lemma CurrentNeedsLife(c: Command, s: Session, local: Address)
    ensures CallAcks.Relevant(c, s, local) ==> Active(s.state)
  {
  }

  /** Which sessions the timers leave alive and without keep-alives. */
  lemma TimersLeave(x: World, local: Address, now: u64)
    requires Sound(x) && Orderly(x) && now >= x.c.handshake.lastNow && now >= x.c.ack.lastNow
    ensures var t := Timers(x.c, x.s, x.d, local, now);
            && t.Some?
            && (Active(t.value.s.state) && !t.value.c.handshake.active <==>
                && Active(x.s.state) && !Handshakes.Current(x.c.handshake, x.s, local)
                && !DeadlineDue(x.d, x.s, now) && !LateHangup(x.c.ack, local, x.s, now))
            && (Active(t.value.s.state) ==> t.value.s == x.s)
  {
    hide CallAcks.Relevant, CallAcks.Ticked, LateHangup, DeadlineDue, CallDispatching.Acceptable;
    TimersRun(x.c, x.s, x.d, local, now);
    TimersEffect(x.c, x.s, x.d, local, now);
    var b := Handshakes.Ticked(x.c.handshake, x.s, local, now);
    if Active(x.s.state) && !b.outcome.disconnected {
      RuntimeLeaves(x.c.ack, local, x.s, x.d, now);
    }
    hide CallRuntimes.Ticked;
  }

  /** A prepared command that goes out can be waited for. */
  lemma PreparedCanBeAcknowledged(c: Command)
    requires IsCallCommand(c) && CallDispatching.Acceptable(c)
    ensures CallAcks.CanBeAcknowledged(c) && CallDispatching.CommandFrame(c).Some?
    ensures CallAcks.IsPickUp(c) ==> CallDispatching.CommandFrame(c).value.opcode == 3
                                     && CallDispatching.CommandFrame(c).value.family == 3
  {
    if CallAcks.IsPickUp(c) {
      assert c.payload == CallDispatching.Rebuilt(c).value.payload;
    }
  }

  lemma DeliveredRuns(x: Situation, local: Address, now: u64)
    requires Receiving.Guarded(x.s, x.d) && x.c.ack.lastNow <= now <= U64_MAX - CONFIRM_TIMEOUT_MS
    requires x.c.ack.state != CallAcks.Awaiting && x.c.dispatch.state == CallDispatching.Sent
    requires IsCallCommand(x.c.dispatch.command) && CallDispatching.Acceptable(x.c.dispatch.command)
    requires CallDispatching.Current(x.c.dispatch.command, x.s, local)
    ensures Delivered(x, local, now).Some?
  {
    var c := x.c.dispatch.command;
    PreparedCanBeAcknowledged(c);
    hide CallAcks.CanBeAcknowledged, CallDispatching.CommandFrame, CallDispatching.Acceptable;
    if CallAcks.IsPickUp(c) {
      var f := CallDispatching.CommandFrame(c).value;
      assert Receiving.Received(f, local, x.s, x.d, now) == Receiving.PickReceived(f, local, x.s, x.d, now);
    }
  }

  lemma ServedRuns(x: Situation, previous: Session, local: Address, now: u64, answer: AttemptResult)
    requires Receiving.Guarded(x.s, x.d) && x.c.ack.lastNow <= now <= U64_MAX - CONFIRM_TIMEOUT_MS
    requires CallDispatching.Busy(x.c.dispatch.state) ==>
               && IsCallCommand(x.c.dispatch.command) && CallDispatching.Acceptable(x.c.dispatch.command)
               && x.c.ack.state != CallAcks.Awaiting
    ensures Served(x, previous, local, now, answer).Some? <==> now >= x.c.dispatch.lastNow
  {
    hide Delivered, CallDispatching.Acceptable, CallDispatching.Current;
    var (m, status) := CallDispatching.Stepped(x.c.dispatch, x.s, local, now, answer);
    var y := x.(c := x.c.(dispatch := m.d));
    if status == Ok {
      if CallDispatching.Busy(x.c.dispatch.state) {
        DispatchEndsWhileCurrent(x.c.dispatch, x.s, local, now, answer);
        if m.d.state == CallDispatching.Sent {
          var z := Undelivered(y, previous);
          assert z.c == y.c && z.s == y.s && z.d == y.d;
          DeliveredRuns(z, local, now);
        }
      } else {
        IdleSlot(x.c.dispatch, x.s, local, now, answer);
      }
    }
  }

  lemma StepIsRefused(x: World, local: Address, now: u64, answers: Answers)
    requires Sound(x) && Orderly(x) && now <= U64_MAX - Handshakes.INTERVAL_MS
    ensures Effect(x, Step(now, answers), local).None? <==> !InTime(x.c, now) || Mute(x, local, now)
  {
    hide Timers, KeptAlive, Served, LateHangup, DeadlineDue, Handshakes.Current, CallDispatching.Acceptable;
    if now >= x.c.handshake.lastNow && now >= x.c.ack.lastNow {
      TimersRun(x.c, x.s, x.d, local, now);
      TimersLeave(x, local, now);
      TimersEffect(x.c, x.s, x.d, local, now);
      var timed := Timers(x.c, x.s, x.d, local, now).value;
      TimersGuard(x, local, now);
      RevivedEffect(timed, local, now);
      var revived := Revived(timed, local, now);
      assert revived.None? <==> Mute(x, local, now);
      if revived.Some? {
        assert revived.value.c.handDispatch == timed.c.handDispatch;
        KeptAliveRuns(revived.value, local, now, answers);
        KeptAliveEffect(revived.value, local, now, answers);
        var kept := KeptAlive(revived.value, local, now, answers);
        if kept.Some? {
          ServedRuns(kept.value, x.s, local, now, answers.call);
        }
      }
    } else {
      LateTimersRefuse(x, local, now);
    }
  }

  lemma LateTimersRefuse(x: World, local: Address, now: u64)
    requires now < x.c.handshake.lastNow || now < x.c.ack.lastNow
    ensures Timers(x.c, x.s, x.d, local, now).None?
  {
    hide Elapsed, Handshakes.Current;
  }

  /** The command under way stays the one it was, and only a delivered one is waited for. */
  lemma ServedOrder(x: Situation, previous: Session, local: Address, now: u64, answer: AttemptResult)
    requires Orderly(World(x.c, x.s, x.d)) && x.c.ack.lastNow <= now
    ensures var y := Served(x, previous, local, now, answer);
            y.Some? ==> Orderly(World(y.value.c, y.value.s, y.value.d))
  {
    hide CallDispatching.Acceptable, CallDispatching.Current, Delivered;
    var (m, status) := CallDispatching.Stepped(x.c.dispatch, x.s, local, now, answer);
    var y := x.(c := x.c.(dispatch := m.d));
    if status == Ok {
      if CallDispatching.Busy(x.c.dispatch.state) {
        DispatchEndsWhileCurrent(x.c.dispatch, x.s, local, now, answer);
        if m.d.state == CallDispatching.Sent {
          DeliveredOrder(Undelivered(y, previous), local, now);
        }
      } else {
        IdleSlot(x.c.dispatch, x.s, local, now, answer);
      }
    }
  }

  lemma DeliveredOrder(x: Situation, local: Address, now: u64)
    requires x.c.dispatch.state == CallDispatching.Sent && (x.d.armed ==> x.d.started <= now)
    ensures var y := Delivered(x, local, now);
            y.Some? ==> Orderly(World(y.value.c, y.value.s, y.value.d))
  {
    hide CallAcks.CanBeAcknowledged, CallAcks.Relevant;
    var c := x.c.dispatch.command;
    if CallAcks.IsPickUp(c) && CallDispatching.CommandFrame(c).Some? {
      var f := CallDispatching.CommandFrame(c).value;
      assert Receiving.Received(f, local, x.s, x.d, now) == Receiving.PickReceived(f, local, x.s, x.d, now);
      hide CallDispatching.CommandFrame;
    }
  }

  lemma TimersOrder(x: World, local: Address, now: u64)
    requires Orderly(x)
    ensures var t := Timers(x.c, x.s, x.d, local, now);
            t.Some? ==> t.value.c.ack.lastNow == now && Orderly(World(t.value.c, t.value.s, t.value.d))
  {
    hide CallRuntimes.Ticked, Handshakes.Ticked, Classified, CallDispatching.Acceptable;
    var b := Handshakes.Ticked(x.c.handshake, x.s, local, now);
    var e := if b.outcome.disconnected then DISARMED else x.d;
    RuntimeOrder(x.c.ack, local, b.s, e, now);
    var t := CallRuntimes.Ticked(x.c.ack, local, b.s, e, now);
    if t.Some? {
      NamingKeepsSlots(x.c.(handshake := b.h, ack := t.value.a), x.s, t.value.s, t.value.r, b.outcome.disconnected);
    }
  }

  lemma RuntimeOrder(a: CallAcks.Ack, local: Address, s: Session, d: Deadline, now: u64)
    ensures var t := CallRuntimes.Ticked(a, local, s, d, now);
            t.Some? ==>
              && now >= a.lastNow && t.value.a.lastNow == now && (t.value.d.armed ==> t.value.d == d)
              && (t.value.a.state == CallAcks.Awaiting ==> a.state == CallAcks.Awaiting)
  {
    hide CallAcks.Relevant;
  }

  lemma StepOrder(x: World, local: Address, now: u64, answers: Answers)
    requires Orderly(x)
    ensures Orderly(Next(x, Step(now, answers), local))
  {
    hide Timers, Revived, KeptAlive, Served, Orderly;
    TimersOrder(x, local, now);
    var timed := Timers(x.c, x.s, x.d, local, now);
    if timed.Some? {
      var revived := Revived(timed.value, local, now);
      RevivedEffect(timed.value, local, now);
      if revived.Some? {
        SameOrder(World(timed.value.c, timed.value.s, timed.value.d), revived.value);
        var kept := KeptAlive(revived.value, local, now, answers);
        KeptAliveEffect(revived.value, local, now, answers);
        if kept.Some? {
          SameOrder(World(revived.value.c, revived.value.s, revived.value.d), kept.value);
          var served := Served(kept.value, x.s, local, now, answers.call);
          ServedOrder(kept.value, x.s, local, now, answers.call);
          if served.Some? {
            SameOrder(World(served.value.c, served.value.s, served.value.d), Closed(served.value));
          }
        }
      }
    }
  }

  lemma SameOrder(x: World, y: Situation)
    requires Orderly(x) && y.c.dispatch == x.c.dispatch && y.c.ack == x.c.ack && y.d == x.d
    ensures Orderly(World(y.c, y.s, y.d))
  {
  }

  /** A reception waits for nothing new, and starts deadlines at its own time. */
  lemma PassageOrder(a: CallAcks.Ack, f: Frame, local: Address, s: Session, d: Deadline, now: u64)
    requires d.armed ==> d.started <= a.lastNow
    ensures var p := CallRuntimes.Received(a, f, local, s, d, now);
            p.Some? ==>
              && p.value.a.lastNow == now && (p.value.d.armed ==> p.value.d.started <= now)
              && (p.value.a.state == CallAcks.Awaiting ==> a.state == CallAcks.Awaiting)
  {
    hide CallAcks.Relevant, CallAcks.Acknowledges, EventOf, IsFor, Preempted, Applied, PickObserved;
  }

  lemma ReceivedOrder(x: World, data: seq<byte>, local: Address, now: u64)
    requires Orderly(x)
    ensures Orderly(Next(x, Datagram(data, now), local))
  {
    hide Parse, CallRuntimes.Received, Classified, Handshakes.Received, CallDispatching.Enqueued;
    hide CallDispatching.Acceptable;
    if Parse(data).Some? {
      var f := Parse(data).value;
      PassageOrder(x.c.ack, f, local, x.s, x.d, now);
      var p := CallRuntimes.Received(x.c.ack, f, local, x.s, x.d, now);
      if p.Some? {
        NamingKeepsSlots(x.c.(ack := p.value.a), x.s, p.value.s, p.value.r, false);
      }
    }
  }

  lemma NamingKeepsSlots(c: Control, previous: Session, s: Session, r: CallRuntimes.RuntimeReport, disconnected: bool)
    ensures var named := Classified(c, previous, s, r, disconnected); named.dispatch == c.dispatch && named.ack == c.ack
  {
  }

  lemma SubmitOrder(x: World, command: Option<Command>, now: u64)
    requires Orderly(x) && (command.Some? ==> IsCallCommand(command.value))
    ensures Orderly(World(Submitted(x.c, command, now).0, x.s, x.d))
  {
    hide CallDispatching.Acceptable;
  }

  lemma NextOrder(x: World, i: Input, local: Address)
    requires Orderly(x) && (i.Submit? && i.command.Some? ==> IsCallCommand(i.command.value))
    ensures Orderly(Next(x, i, local))
  {
    match i
    case Step(now, answers) =>
      hide Next, Orderly;
      StepOrder(x, local, now, answers);
    case Datagram(data, now) =>
      hide Next, Orderly;
      ReceivedOrder(x, data, local, now);
    case Submit(command, now) =>
      hide Submitted;
      SubmitOrder(x, command, now);
    case Install(peer, primary, secondary, duration, now) =>
      hide Submitted, CallDispatching.Acceptable;
      var s := Session(Preview, peer, NextGeneration(x.s.generation), NO_PICK);
      var command := CallDispatching.PreparedPick(s, s.generation, local, primary, secondary, duration,
                                                  CallDispatching.Call);
      SubmitOrder(x, command, now);
  }

  lemma {:induction false} RunsAreOrderly(inputs: seq<Input>, local: Address, start: u64)
    requires CallCommandsOnly(inputs)
    ensures Orderly(Run(inputs, local, start))
  {
    if inputs != [] {
      hide Next, Orderly;
      var n := |inputs| - 1;
      RunsAreOrderly(inputs[..n], local, start);
      NextOrder(Run(inputs[..n], local, start), inputs[n], local);
    } else {
      StartIsOrderly(start);
    }
  }

  lemma StartIsOrderly(start: u64)
    ensures Orderly(Start(start))
  {
  }

  /** On every run a step is refused exactly when a clock ran back, or when a live session
      without keep-alives cannot start them for want of an address. */
  lemma StepsAreRefused(inputs: seq<Input>, local: Address, start: u64, now: u64, answers: Answers)
    requires CallCommandsOnly(inputs) && now <= U64_MAX - Handshakes.INTERVAL_MS
    ensures var x := Run(inputs, local, start);
            Effect(x, Step(now, answers), local).None? <==> !InTime(x.c, now) || Mute(x, local, now)
  {
    hide Run, Effect, InTime, Mute, Orderly, Sound;
    RunsAreSound(inputs, local, start);
    RunsAreOrderly(inputs, local, start);
    StepIsRefused(Run(inputs, local, start), local, now, answers);
  }

  /** It does happen: a caller without an address rings, and every step until its deadline is
      refused. */
  lemma CallersWithoutAddressBlock(now: u64, answers: Answers)
    requires now < 30000
    ensures var x := Run([Datagram(CallFrom(NO_ADDRESS), 0)], STATION, 0);
            && x.s.state == Ringing && InTime(x.c, now) && Mute(x, STATION, now)
            && Effect(x, Step(now, answers), STATION).None?
            && Next(x, Step(now, answers), STATION) == x
  {
    var inputs := [Datagram(CallFrom(NO_ADDRESS), 0)];
    NamelessRings();
    assert inputs[..0] == [];
    hide Effect, CallFrom;
    StepsAreRefused(inputs, STATION, 0, now, answers);
  }

  lemma NamelessRings()
    ensures Next(Start(0), Datagram(CallFrom(NO_ADDRESS), 0), STATION) ==
            World(CallControls.Initial(0).(observed := 1), Session(Ringing, NO_ADDRESS, 1, NO_PICK),
                  Deadline(true, 1, 0, 30000))
  {
    ParseOfImage(Frame(STATION, NO_ADDRESS, 3, 1, []), CLEAR, CLEAR);
    hide Parse, Image;
  }

  // ---------------------------------------------------------------------------
  // The overtaken hang-up does occur.

  const STATION: Address := [0x61, 0, 0, 0, 0, 1]

  const CALLER: Address := [0x32, 0, 0, 0, 0, 1]

  const SECOND: Address := [0x32, 0, 0, 0, 0, 2]

  const CLEAR: Opaque := [0, 0, 0, 0, 0, 0, 0, 0]

  const GOODBYE: Command := CallDispatching.Command(true, CallDispatching.HangUp, CALLER, STATION, 1, 0x02, [0])

  function CallFrom(peer: Address): seq<byte> {
    Image(Frame(STATION, peer, 3, 1, []), CLEAR, CLEAR)
  }

  const ANSWERS := Answers(SendTransactions.Pending, SendTransactions.Pending, SendTransactions.Success)

  lemma WitnessRings()
    ensures Next(Start(0), Datagram(CallFrom(CALLER), 0), STATION) ==
            World(CallControls.Initial(0).(observed := 1), Session(Ringing, CALLER, 1, NO_PICK), Deadline(true, 1, 0, 30000))
  {
    ParseOfImage(Frame(STATION, CALLER, 3, 1, []), CLEAR, CLEAR);
    hide Parse, Image;
  }

  lemma WitnessHangsUp()
    ensures var x := World(CallControls.Initial(0).(observed := 1), Session(Ringing, CALLER, 1, NO_PICK), Deadline(true, 1, 0, 30000));
            && CallDispatching.PreparedHangup(x.s, 1, STATION, 0) == Some(GOODBYE)
            && Next(x, Submit(Some(GOODBYE), 0), STATION) ==
               x.(c := x.c.(dispatch := CallDispatching.Dispatch(CallDispatching.Queued, GOODBYE, 0, 250, 1, 0, 0)))
  {
    assert STATION[0] != CALLER[0] && CALLER[0] != NO_ADDRESS[0] && STATION[0] != NO_ADDRESS[0];
  }

  lemma WitnessTimers(x: World)
    requires x == World(CallControls.Initial(0).(observed := 1,
                          dispatch := CallDispatching.Dispatch(CallDispatching.Queued, GOODBYE, 0, 250, 1, 0, 0)),
                        Session(Ringing, CALLER, 1, NO_PICK), Deadline(true, 1, 0, 30000))
    ensures Timers(x.c, x.s, x.d, STATION, 0) == Some(Situation(x.c, x.s, x.d, BLANK))
  {
  }

  lemma WitnessKept(x: Situation)
    requires x.s == Session(Ringing, CALLER, 1, NO_PICK) && !x.c.handshake.active
    requires x.c.handDispatch == CallDispatching.Initial(0)
    ensures var y := Revived(x, STATION, 0);
            && y.Some? && y.value.c.handshake.lastNow == 0
            && y.value.c == x.c.(handshake := y.value.c.handshake)
            && y.value.s == x.s && y.value.d == x.d
            && var z := KeptAlive(y.value, STATION, 0, ANSWERS);
               z.Some? && z.value.c.handDispatch.lastNow == 0
  {
    assert STATION[0] != CALLER[0] && CALLER[0] != NO_ADDRESS[0] && STATION[0] != NO_ADDRESS[0];
    var y := Revived(x, STATION, 0);
    assert y.Some?;
    hide Revived;
    hide CallDispatching.Acceptable, ActionCommand, CallDispatching.Current;
  }

  lemma WitnessServed(x: Situation)
    requires x.s == Session(Ringing, CALLER, 1, NO_PICK)
    requires x.c.dispatch == CallDispatching.Dispatch(CallDispatching.Queued, GOODBYE, 0, 250, 1, 0, 0)
    requires x.c.ack == CallAcks.Initial(0)
    ensures var y := Served(x, x.s, STATION, 0, SendTransactions.Success);
            && y.Some? && y.value.s == x.s && y.value.d == x.d && y.value.c.terminal == x.c.terminal
            && y.value.c.ack == CallAcks.Ack(CallAcks.Awaiting, GOODBYE, 0, 1000)
            && y.value.c.dispatch.lastNow == 0 && y.value.c.handshake == x.c.handshake
            && y.value.c.handDispatch == x.c.handDispatch
  {
    assert STATION[0] != CALLER[0] && CALLER[0] != NO_ADDRESS[0] && STATION[0] != NO_ADDRESS[0];
  }

  lemma WitnessSends(x: World)
    requires x == World(CallControls.Initial(0).(observed := 1,
                          dispatch := CallDispatching.Dispatch(CallDispatching.Queued, GOODBYE, 0, 250, 1, 0, 0)),
                        Session(Ringing, CALLER, 1, NO_PICK), Deadline(true, 1, 0, 30000))
    ensures var y := Next(x, Step(0, ANSWERS), STATION);
            && y.s == x.s && y.d == x.d && y.c.terminal.reason == NoEnd
            && y.c.ack == CallAcks.Ack(CallAcks.Awaiting, GOODBYE, 0, 1000)
            && y.c.dispatch.lastNow == 0 && y.c.handshake.lastNow == 0 && y.c.handDispatch.lastNow == 0
  {
    hide Timers, Revived, KeptAlive, Served;
    WitnessTimers(x);
    var timed := Situation(x.c, x.s, x.d, BLANK);
    WitnessKept(timed);
    var revived := Revived(timed, STATION, 0).value;
    KeptAliveEffect(revived, STATION, 0, ANSWERS);
    WitnessServed(KeptAlive(revived, STATION, 0, ANSWERS).value);
  }

  lemma WitnessOvertakes(x: World)
    requires x.s == Session(Ringing, CALLER, 1, NO_PICK) && x.d == Deadline(true, 1, 0, 30000)
    requires x.c.ack == CallAcks.Ack(CallAcks.Awaiting, GOODBYE, 0, 1000) && x.c.terminal.reason == NoEnd
    requires x.c.dispatch.lastNow == 0 && x.c.handshake.lastNow == 0 && x.c.handDispatch.lastNow == 0
    ensures Overtakes(x, Datagram(CallFrom(SECOND), 1000), STATION)
    ensures var y := Next(x, Datagram(CallFrom(SECOND), 1000), STATION);
            Gone(x.s, y.s) && y.c.terminal.reason == NoEnd
  {
    hide Parse, Image, CallRuntimes.Received, Classified, Overtaken;
    var f := Frame(STATION, SECOND, 3, 1, []);
    ParseOfImage(f, CLEAR, CLEAR);
    WitnessPasses(x.c, x.s, x.d);
    ReceptionRecords(x.c, f, STATION, x.s, x.d, 1000);
  }

  lemma WitnessPasses(c: Control, s: Session, d: Deadline)
    requires s == Session(Ringing, CALLER, 1, NO_PICK) && c.ack == CallAcks.Ack(CallAcks.Awaiting, GOODBYE, 0, 1000)
    ensures CallRuntimes.Received(c.ack, Frame(STATION, SECOND, 3, 1, []), STATION, s, d, 1000).Some?
    ensures Overtaken(c, Frame(STATION, SECOND, 3, 1, []), STATION, s, 1000)
  {
    assert CALLER[5] != SECOND[5] && STATION[0] != CALLER[0];
  }

  /** From idle, a caller is hung up on and does not acknowledge; a second caller arrives a
      second later, before the next step. */
  const SECOND_CALL: seq<Input> :=
    [Datagram(CallFrom(CALLER), 0), Submit(Some(GOODBYE), 0), Step(0, ANSWERS), Datagram(CallFrom(SECOND), 1000)]

  /** The first session then leaves no record. */
  lemma AnEndWithoutRecord()
    ensures var x, y := Run(SECOND_CALL[..3], STATION, 0), Run(SECOND_CALL[..4], STATION, 0);
            Gone(x.s, y.s) && Overtakes(x, SECOND_CALL[3], STATION) && !OnRecord(y.c, x.s)
  {
    hide Next, CallFrom, Overtakes;
    var inputs := SECOND_CALL;
    WitnessRings();
    WitnessHangsUp();
    assert inputs[..0] == [];
    RunStep(inputs, STATION, 0, 0);
    RunStep(inputs, STATION, 0, 1);
    RunStep(inputs, STATION, 0, 2);
    RunStep(inputs, STATION, 0, 3);
    assert Run(inputs[..0], STATION, 0) == Start(0);
    WitnessSends(Run(inputs[..2], STATION, 0));
    WitnessOvertakes(Run(inputs[..3], STATION, 0));
  }
}
