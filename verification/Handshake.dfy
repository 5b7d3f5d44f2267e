/** Keep-alives of an active session (src/gvs_handshake.c). */
module Handshakes {
  import opened Words
  import opened Frames
  import opened Sessions

  const INTERVAL_MS := 2000
  const MAX_MISSED := 5

  datatype Handshake = Handshake(
    active: bool, peer: Address, local: Address, generation: u64, nextProbe: u64, lastNow: u64, missed: nat)

  datatype Action = Ask(destination: Address, source: Address, generation: u64)
                  | Reply(destination: Address, source: Address, generation: u64)

  datatype Outcome = Outcome(action: Option<Action>, acceptedAsk: bool, acceptedReply: bool, disconnected: bool)

  const NOTHING := Outcome(None, false, false, false)

  function Initial(now: u64): Handshake {
    Handshake(false, NO_ADDRESS, NO_ADDRESS, 0, 0, now, 0)
  }

  predicate Current(h: Handshake, s: Session, local: Address) {
    h.active && Active(s.state) && h.generation == s.generation && h.peer == s.peer && h.local == local
  }

  function Stopped(h: Handshake): Handshake {
    h.(active := false, nextProbe := 0, missed := 0)
  }

  function Started(s: Session, local: Address, now: u64): Option<Handshake> {
    if !Active(s.state) || s.generation == 0 || s.peer == NO_ADDRESS || local == NO_ADDRESS
       || now > U64_MAX - INTERVAL_MS then None
    else Some(Handshake(true, s.peer, local, s.generation, now, now, 0))
  }

  datatype Beat = Beat(h: Handshake, s: Session, status: Status, outcome: Outcome)

  function Ticked(h: Handshake, s: Session, local: Address, now: u64): Beat {
    if now < h.lastNow then Beat(h, s, Invalid, NOTHING)
    else
      var next := h.(lastNow := now);
      if !h.active then Beat(next, s, Ok, NOTHING)
      else if !Current(h, s, local) then Beat(Stopped(next), s, Ok, NOTHING)
      else if now < h.nextProbe then Beat(next, s, Ok, NOTHING)
      else if h.missed >= MAX_MISSED || now > U64_MAX - INTERVAL_MS then
        Beat(Stopped(next), Aborted(s).0, Ok, NOTHING.(disconnected := true))
      else
        Beat(next.(missed := h.missed + 1, nextProbe := now + INTERVAL_MS), s, Ok,
             NOTHING.(action := Some(Ask(h.peer, h.local, h.generation))))
  }

  function Received(h: Handshake, f: Frame, s: Session, local: Address, now: u64): Beat {
    if now < h.lastNow then Beat(h, s, Invalid, NOTHING)
    else if h.active && !Current(h, s, local) then Beat(Stopped(h.(lastNow := now)), s, Ok, NOTHING)
    else if !h.active || f.family != 0x03 || (f.opcode != 0x51 && f.opcode != 0x52) || f.payload != []
            || f.source != h.peer || f.destination != h.local then Beat(h, s, Invalid, NOTHING)
    else
      var next := h.(lastNow := now, missed := 0);
      if f.opcode == 0x51 then
        if now > U64_MAX - INTERVAL_MS then Beat(h, s, Invalid, NOTHING)
        else Beat(next.(nextProbe := now + INTERVAL_MS), s, Ok,
                  Outcome(Some(Reply(h.peer, h.local, h.generation)), true, false, false))
      else Beat(next, s, Ok, NOTHING.(acceptedReply := true))
  }

  class KeepAlive {
    var h: Handshake

    constructor (now: u64)
      ensures h == Initial(now)
    {
      h := Initial(now);
    }

    constructor From(value: Handshake)
      ensures h == value
    {
      h := value;
    }

    method Stop()
      modifies this
      ensures h == Stopped(old(h))
    {
      h := h.(active := false);
      h := h.(nextProbe := 0, missed := 0);
    }

    /** A refused start leaves the keep-alive zeroed. */
    method Start(s: Session, local: Address, now: u64) returns (status: Status)
      modifies this
      ensures var b := Started(s, local, now);
              if b.None? then status == Invalid && h == Initial(0) else status == Ok && h == b.value
    {
      h := Initial(0);
      if !Active(s.state) || s.generation == 0 || s.peer == NO_ADDRESS || local == NO_ADDRESS
         || now > U64_MAX - INTERVAL_MS
      {
        return Invalid;
      }
      var next := h.(active := true, peer := s.peer, local := local);
      next := next.(generation := s.generation, nextProbe := now, lastNow := now);
      h := next;
      return Ok;
    }

    method Tick(session: CallSession, local: Address, now: u64) returns (status: Status, outcome: Outcome)
      modifies this, session
      ensures Beat(h, session.s, status, outcome) == Ticked(old(h), old(session.s), local, now)
    {
      outcome := NOTHING;
      if now < h.lastNow {
        return Invalid, outcome;
      }
      h := h.(lastNow := now);
      if !h.active {
        return Ok, outcome;
      }
      if !Current(h, session.s, local) {
        Stop();
        return Ok, outcome;
      }
      if now < h.nextProbe {
        return Ok, outcome;
      }
      if h.missed >= MAX_MISSED || now > U64_MAX - INTERVAL_MS {
        var ended := session.Abort();
        Stop();
        return Ok, outcome.(disconnected := true);
      }
      h := h.(missed := h.missed + 1);
      h := h.(nextProbe := now + INTERVAL_MS);
      return Ok, outcome.(action := Some(Ask(h.peer, h.local, h.generation)));
    }

    method Receive(f: Frame, s: Session, local: Address, now: u64) returns (status: Status, outcome: Outcome)
      modifies this
      ensures Beat(h, s, status, outcome) == Received(old(h), f, s, local, now)
    {
      outcome := NOTHING;
      if now < h.lastNow {
        return Invalid, outcome;
      }
      if h.active && !Current(h, s, local) {
        h := h.(lastNow := now);
        Stop();
        return Ok, outcome;
      }
      if !h.active || f.family != 0x03 || (f.opcode != 0x51 && f.opcode != 0x52) || f.payload != []
         || f.source != h.peer || f.destination != h.local
      {
        return Invalid, outcome;
      }
      var next := h.(lastNow := now, missed := 0);
      if f.opcode == 0x51 {
        if now > U64_MAX - INTERVAL_MS {
          return Invalid, outcome;
        }
        next := next.(nextProbe := now + INTERVAL_MS);
        outcome := outcome.(acceptedAsk := true, action := Some(Reply(next.peer, next.local, next.generation)));
      } else {
        outcome := outcome.(acceptedReply := true);
      }
      h := next;
      return Ok, outcome;
    }
  }
}
