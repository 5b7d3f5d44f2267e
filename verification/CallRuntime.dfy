/** The acknowledgement, the session and its deadline together (src/gvs_call_runtime.c). */
module CallRuntimes {
  import opened Words
  import opened Frames
  import opened Sessions
  import opened Receiving
  import CallAcks
  import CallDispatching

  type Ack = CallAcks.Ack

  type Command = CallDispatching.Command

  datatype RuntimeReport = RuntimeReport(
    receive: Report, confirmed: bool, rejected: bool, expired: bool, dropped: bool,
    sessionTimedOut: bool, localHangup: bool)

  const CALM := RuntimeReport(QUIET, false, false, false, false, false, false)

  /** The acknowledgement, the session, the deadline and the report after a call. */
  datatype Passage = Passage(a: Ack, s: Session, d: Deadline, r: RuntimeReport)

  /** The answer a command of this kind is waiting for. */
  predicate Expects(c: Command, f: Frame) {
    && f.family == 0x03
    && ((CallAcks.IsPickUp(c) && f.opcode == 0x83) || (CallAcks.IsHangUp(c) && f.opcode == 0x82))
  }

  function Noted(previous: CallAcks.AckState, a: Ack, r: RuntimeReport): RuntimeReport {
    r.(expired := r.expired || (previous == CallAcks.Awaiting && a.state == CallAcks.Expired),
       dropped := r.dropped || (previous == CallAcks.Awaiting && a.state == CallAcks.Dropped))
  }

  /** Our hang-up has run its course. */
  function HungUp(p: Passage): Passage {
    var (s, ended) := Aborted(p.s);
    Passage(p.a, s, DISARMED,
            p.r.(receive := p.r.receive.(ended := ended, localHangup := true), localHangup := true))
  }

  /** An expired wait for a hang-up's acknowledgement ends the session all the same. */
  function AfterExpiry(p: Passage): Passage {
    if p.r.expired && CallAcks.IsHangUp(p.a.command) then HungUp(p) else p
  }

  /** Session expiry wins when both deadlines fall on the same tick. */
  function Ticked(a: Ack, identity: Address, s: Session, d: Deadline, now: u64): Option<Passage> {
    var t := Elapsed(d, s, now);
    var b := CallAcks.Ticked(a, t.s, identity, now);
    if t.status != Ok || b.None? then None
    else Some(AfterExpiry(Passage(b.value, t.s, t.d, Noted(a.state, b.value, CALM.(sessionTimedOut := t.timedOut)))))
  }

  function Answered(p: Passage, f: Frame, identity: Address, now: u64): Option<Passage> {
    var o := CallAcks.Observed(p.a, p.s, identity, f, now);
    if o.None? then Some(p.(r := p.r.(rejected := true)))
    else
      var q := p.(a := o.value, r := p.r.(confirmed := true));
      if CallAcks.IsHangUp(o.value.command) then Some(HungUp(q))
      else
        var e := Receiving.Received(f, identity, p.s, p.d, now);
        if e.status != Ok then None else Some(Passage(q.a, e.s, e.d, q.r.(receive := e.r)))
  }

  function Passed(p: Passage, f: Frame, identity: Address, now: u64): Option<Passage> {
    var e := Receiving.Received(f, identity, p.s, p.d, now);
    var b := CallAcks.Ticked(p.a, e.s, identity, now);
    if e.status != Ok || b.None? then None
    else Some(Passage(b.value, e.s, e.d, Noted(p.a.state, b.value, p.r.(receive := e.r))))
  }

  function Received(a: Ack, f: Frame, identity: Address, s: Session, d: Deadline, now: u64): Option<Passage> {
    var b := CallAcks.Ticked(a, s, identity, now);
    if b.None? then None
    else
      var p := AfterExpiry(Passage(b.value, s, d, Noted(a.state, b.value, CALM)));
      if Expects(p.a.command, f) then Answered(p, f, identity, now) else Passed(p, f, identity, now)
  }

  // ---------------------------------------------------------------------------
  // In place.

  method EndByHangup(session: CallSession, deadline: CallDeadline, r: RuntimeReport) returns (after: RuntimeReport)
    modifies session, deadline
    ensures forall a: Ack :: Passage(a, session.s, deadline.d, after) == HungUp(Passage(a, old(session.s), old(deadline.d), r))
  {
    var ended := session.Abort();
    deadline.Cancel();
    after := r.(receive := r.receive.(ended := ended, localHangup := true), localHangup := true);
  }

  /** Works on copies, and keeps them only when all went well. */
  method Tick(ack: CallAcks.CallAck, identity: Address, session: CallSession, deadline: CallDeadline, now: u64)
    returns (status: Status, r: RuntimeReport)
    modifies ack, session, deadline
    ensures var t := Ticked(old(ack.a), identity, old(session.s), old(deadline.d), now);
            if t.None? then status == Invalid && ack.a == old(ack.a) && session.s == old(session.s) && deadline.d == old(deadline.d)
            else status == Ok && Passage(ack.a, session.s, deadline.d, r) == t.value
  {
    hide CallAcks.Ticked, HungUp;
    r := CALM;
    var nextAck := new CallAcks.CallAck.From(ack.a);
    var nextSession := new CallSession.From(session.s);
    var nextDeadline := new CallDeadline.From(deadline.d);
    var timedOut;
    status, timedOut := nextDeadline.Tick(nextSession, now);
    if status != Ok {
      return Invalid, r;
    }
    r := r.(sessionTimedOut := timedOut);
    status := nextAck.Tick(nextSession.s, identity, now);
    if status != Ok {
      return Invalid, CALM;
    }
    r := Noted(ack.a.state, nextAck.a, r);
    if r.expired && CallAcks.IsHangUp(nextAck.a.command) {
      r := EndByHangup(nextSession, nextDeadline, r);
    }
    ack.a := nextAck.a;
    session.s := nextSession.s;
    deadline.d := nextDeadline.d;
  }

  /** Works in place: after a failure the caller drops what it was given. */
  method ReceiveFrame(ack: CallAcks.CallAck, f: Frame, identity: Address, session: CallSession,
                      deadline: CallDeadline, now: u64)
    returns (status: Status, r: RuntimeReport)
    modifies ack, session, deadline
    ensures var p := Received(old(ack.a), f, identity, old(session.s), old(deadline.d), now);
            (status == Ok <==> p.Some?) &&
            (p.Some? ==> Passage(ack.a, session.s, deadline.d, r) == p.value)
  {
    hide CallAcks.Ticked, CallAcks.Observed, HungUp, Receiving.Received;
    r := CALM;
    var previous := ack.a.state;
    status := ack.Tick(session.s, identity, now);
    if status != Ok {
      return;
    }
    r := Noted(previous, ack.a, r);
    if r.expired && CallAcks.IsHangUp(ack.a.command) {
      r := EndByHangup(session, deadline, r);
    }
    if Expects(ack.a.command, f) {
      status, r := ReceiveAnswer(ack, f, identity, session, deadline, now, r);
    } else {
      status, r := PassOn(ack, f, identity, session, deadline, now, r);
    }
  }

  method ReceiveAnswer(ack: CallAcks.CallAck, f: Frame, identity: Address, session: CallSession, deadline: CallDeadline,
                       now: u64, before: RuntimeReport)
    returns (status: Status, r: RuntimeReport)
    modifies ack, session, deadline
    ensures var p := Answered(Passage(old(ack.a), old(session.s), old(deadline.d), before), f, identity, now);
            (status == Ok <==> p.Some?) &&
            (p.Some? ==> Passage(ack.a, session.s, deadline.d, r) == p.value)
  {
    hide CallAcks.Relevant, HungUp, Receiving.Received;
    r := before;
    if ack.a.state != CallAcks.Awaiting {
      return Ok, r.(rejected := true);
    }
    var observed := ack.Observe(session.s, identity, f, now);
    if observed != Ok {
      return Ok, r.(rejected := true);
    }
    r := r.(confirmed := true);
    if CallAcks.IsHangUp(ack.a.command) {
      r := EndByHangup(session, deadline, r);
      return Ok, r;
    }
    var report;
    status, report := Receiving.Receive(f, identity, session, deadline, now);
    r := r.(receive := report);
  }

  method PassOn(ack: CallAcks.CallAck, f: Frame, identity: Address, session: CallSession, deadline: CallDeadline,
                now: u64, before: RuntimeReport)
    returns (status: Status, r: RuntimeReport)
    modifies ack, session, deadline
    ensures var p := Passed(Passage(old(ack.a), old(session.s), old(deadline.d), before), f, identity, now);
            (status == Ok <==> p.Some?) &&
            (p.Some? ==> Passage(ack.a, session.s, deadline.d, r) == p.value)
  {
    hide CallAcks.Ticked, Receiving.Received;
    r := before;
    var report;
    status, report := Receiving.Receive(f, identity, session, deadline, now);
    if status != Ok {
      return;
    }
    r := r.(receive := report);
    var previous := ack.a.state;
    status := ack.Tick(session.s, identity, now);
    if status != Ok {
      return;
    }
    r := Noted(previous, ack.a, r);
  }
}
