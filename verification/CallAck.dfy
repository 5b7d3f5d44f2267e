/** Waiting for the peer's acknowledgement of a delivered command (src/gvs_call_ack.c). */
module CallAcks {
  import opened Words
  import opened Frames
  import opened Sessions
  import CallDispatching

  type Command = CallDispatching.Command

  datatype AckState = NoAck | Awaiting | Confirmed | Expired | Dropped

  datatype Ack = Ack(state: AckState, command: Command, lastNow: u64, deadline: u64)

  function Initial(now: u64): Ack {
    Ack(NoAck, CallDispatching.NO_COMMAND, now, 0)
  }

  predicate IsPickUp(c: Command) {
    c.kind == CallDispatching.Answer || c.kind == CallDispatching.Call
  }

  predicate IsHangUp(c: Command) {
    c.kind == CallDispatching.HangUp
  }

  predicate CanBeAcknowledged(c: Command) {
    && c.valid && c.generation != 0 && c.source != NO_ADDRESS && c.destination != NO_ADDRESS
    && if IsPickUp(c) then
         && c.opcode == 0x03 && |c.payload| == 7 && c.payload[0] == 0x02 && c.payload[3] == 0
         && (c.payload[1] != 0 || c.payload[2] != 0) && (c.payload[4] != 0 || c.payload[5] != 0) && c.payload[6] != 0
       else IsHangUp(c) && c.opcode == 0x02 && |c.payload| == 1
  }

  predicate Relevant(c: Command, s: Session, local: Address) {
    && (IsPickUp(c) || IsHangUp(c)) && CallDispatching.Current(c, s, local)
  }

  predicate Acknowledges(c: Command, f: Frame) {
    && f.family == 0x03 && f.source == c.destination && f.destination == c.source
    && if IsHangUp(c) then f.opcode == 0x82 && f.payload == []
       else && IsPickUp(c) && f.opcode == 0x83 && |f.payload| == 7 && |c.payload| >= 6
            && f.payload[0] == 0 && f.payload[1..6] == c.payload[1..6] && f.payload[6] != 0
  }

  function Begun(a: Ack, d: CallDispatching.Dispatch, s: Session, local: Address, now: u64, timeout: u64): Option<Ack> {
    if a.state == Awaiting || d.state != CallDispatching.Sent || !CanBeAcknowledged(d.command) || timeout == 0
       || now < a.lastNow || now > U64_MAX - timeout || !Relevant(d.command, s, local) then None
    else Some(Ack(Awaiting, d.command, now, now + timeout))
  }

  function Observed(a: Ack, s: Session, local: Address, f: Frame, now: u64): Option<Ack> {
    if a.state != Awaiting || now < a.lastNow || now >= a.deadline || !Relevant(a.command, s, local)
       || !Acknowledges(a.command, f) then None
    else Some(a.(lastNow := now, deadline := 0, state := Confirmed))
  }

  function Ticked(a: Ack, s: Session, local: Address, now: u64): Option<Ack> {
    if now < a.lastNow then None
    else if a.state != Awaiting then Some(a.(lastNow := now))
    else if !Relevant(a.command, s, local) then Some(a.(lastNow := now, state := Dropped, deadline := 0))
    else if now >= a.deadline then Some(a.(lastNow := now, state := Expired, deadline := 0))
    else Some(a.(lastNow := now))
  }

  /** A command delivered while it belongs to the session is confirmed by a matching answer
      in time; one millisecond past the deadline the answer is refused and a tick expires. */
  lemma AnswerInTime(d: CallDispatching.Dispatch, s: Session, local: Address, f: Frame, a: Ack, now: u64,
                     timeout: u64, later: u64)
    requires Begun(a, d, s, local, now, timeout).Some? && now <= later
    ensures var b := Begun(a, d, s, local, now, timeout).value;
            && (Observed(b, s, local, f, later).Some? <==> later < now + timeout && Acknowledges(d.command, f))
            && (Observed(b, s, local, f, later).Some? ==>
                  Observed(b, s, local, f, later).value == Ack(Confirmed, d.command, later, 0))
            && Ticked(b, s, local, later).Some?
            && (Ticked(b, s, local, later).value.state == Expired <==> later >= now + timeout)
  {
    assert Begun(a, d, s, local, now, timeout).value.deadline == now + timeout;
  }

  /** Time ends a wait in two ways: with the session it belongs to, or when its own time is
      over; anything else it leaves alone. */
  lemma TimeEndsWaits(a: Ack, s: Session, local: Address, now: u64)
    requires a.lastNow <= now
    ensures var t := Ticked(a, s, local, now);
            && t.Some? && t.value.command == a.command && t.value.lastNow == now
            && (t.value.state == Awaiting <==> a.state == Awaiting && Relevant(a.command, s, local) && now < a.deadline)
            && (a.state == Awaiting && !Relevant(a.command, s, local) ==> t.value.state == Dropped)
            && (a.state == Awaiting && Relevant(a.command, s, local) && now >= a.deadline ==> t.value.state == Expired)
            && (a.state != Awaiting ==> t.value.state == a.state)
  {
    hide Relevant;
  }

  class CallAck {
    var a: Ack

    constructor (now: u64)
      ensures a == Initial(now)
    {
      a := Initial(now);
    }

    constructor From(value: Ack)
      ensures a == value
    {
      a := value;
    }

    method Begin(d: CallDispatching.Dispatch, s: Session, local: Address, now: u64,
                 timeout: u64) returns (status: Status)
      modifies this
      ensures var b := Begun(old(a), d, s, local, now, timeout);
              if b.None? then status == Invalid && a == old(a) else status == Ok && a == b.value
    {
      if a.state == Awaiting || d.state != CallDispatching.Sent || !CanBeAcknowledged(d.command) || timeout == 0
         || now < a.lastNow || now > U64_MAX - timeout
      {
        return Invalid;
      }
      var next := a.(command := d.command, state := Awaiting, lastNow := now);
      next := next.(deadline := now + timeout);
      if !Relevant(next.command, s, local) {
        return Invalid;
      }
      a := next;
      return Ok;
    }

    method Observe(s: Session, local: Address, f: Frame, now: u64) returns (status: Status)
      modifies this
      ensures var b := Observed(old(a), s, local, f, now);
              if b.None? then status == Invalid && a == old(a) else status == Ok && a == b.value
    {
      if a.state != Awaiting || now < a.lastNow || now >= a.deadline || !Relevant(a.command, s, local)
         || !Acknowledges(a.command, f)
      {
        return Invalid;
      }
      a := a.(lastNow := now);
      a := a.(deadline := 0);
      a := a.(state := Confirmed);
      return Ok;
    }

    method Tick(s: Session, local: Address, now: u64) returns (status: Status)
      modifies this
      ensures var b := Ticked(old(a), s, local, now);
              if b.None? then status == Invalid && a == old(a) else status == Ok && a == b.value
    {
      if now < a.lastNow {
        return Invalid;
      }
      a := a.(lastNow := now);
      if a.state != Awaiting {
        return Ok;
      }
      if !Relevant(a.command, s, local) {
        a := a.(state := Dropped, deadline := 0);
      } else if now >= a.deadline {
        a := a.(state := Expired, deadline := 0);
      }
      return Ok;
    }
  }
}
