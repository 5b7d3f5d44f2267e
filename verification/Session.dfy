/** The call session, its preemption rule and its deadline
    (src/gvs_session.c, src/gvs_priority.c, src/gvs_deadline.c). */
module Sessions {
  import opened Words
  import opened Frames

  // ---------------------------------------------------------------------------
  // Priorities.

  /** What kind of caller an address is, seen from this station; None when unknown. */
  function Category(peer: Address, local: Address): Option<nat> {
    if peer[0] == 0x12 || peer[0] == 0x31 then Some(1)
    else if peer[0] == 0x13 || peer[0] == 0x32 then Some(0)
    else if peer[0] == 0x61 then Some(if peer[..5] == local[..5] then 4 else 3)
    else if peer[0] == 0x62 then Some(7)
    else None
  }

  function Rank(category: Option<nat>): Option<nat> {
    match category
    case None => None
    case Some(c) =>
      if c == 0 || c == 1 || c == 7 then Some(2)
      else if c == 3 then Some(1)
      else if c == 4 then Some(0)
      else None
  }

  predicate Preempts(current: Option<nat>, incoming: Option<nat>) {
    && Rank(current).Some? && Rank(incoming).Some?
    && Rank(incoming).value > Rank(current).value
  }

  // ---------------------------------------------------------------------------
  // The session.

  datatype State = Idle | Preview | Ringing | Talking | Ended

  /** The outgoing pick-up being answered: when, for which generation, and how long it counts. */
  datatype Pick = Pick(generation: u64, started: u64, timeout: u64, local: Address)

  const NO_ADDRESS: Address := [0, 0, 0, 0, 0, 0]

  const NO_PICK := Pick(0, 0, 0, NO_ADDRESS)

  datatype Session = Session(state: State, peer: Address, generation: u64, pick: Pick)

  predicate Active(state: State) {
    state == Preview || state == Ringing || state == Talking
  }

  datatype Transition = Transition(kind: EventType, peer: Address, generation: u64)

  datatype Preemption = Preemption(events: seq<Transition>, ringStarted: u64)

  const NO_TRANSITION := Preemption([], 0)

  /** A caller of higher rank takes a ringing session over under the next generation. */
  function Preempted(s: Session, expected: u64, incoming: Address, current: Option<nat>, arriving: Option<nat>,
                     now: u64)
    : Option<(Session, Preemption)>
  {
    if s.state != Ringing || expected == 0 || expected != s.generation || s.generation == U64_MAX
       || s.peer == incoming || !Preempts(current, arriving) then None
    else
      Some((Session(Ringing, incoming, s.generation + 1, NO_PICK),
            Preemption([Transition(Hangup, s.peer, s.generation),
                        Transition(IncomingCall, incoming, s.generation + 1)], now)))
  }

  function NextGeneration(generation: u64): u64 {
    if generation == U64_MAX then 1 else generation + 1
  }

  function Applied(s: Session, source: Address, event: EventType): Option<Session> {
    if Active(s.state) && s.peer != source then None
    else if (s.state == Idle || s.state == Ended) && (event == PreviewStarted || event == IncomingCall) then
      Some(Session(if event == PreviewStarted then Preview else Ringing, source,
                   NextGeneration(s.generation), s.pick.(generation := 0)))
    else if (s.state == Preview || s.state == Ringing) && event == SessionEstablished then
      Some(s.(state := Talking))
    else if Active(s.state) && event == Hangup then
      Some(s.(state := Ended, pick := s.pick.(generation := 0)))
    else if s.state == Ringing && event == IncomingCall then Some(s)
    else if Active(s.state) && event == UnlockResultObserved then Some(s)
    else None
  }

  /** What each event asks of the session it comes to, and what it makes of it. */
  lemma EventsApply(s: Session, source: Address)
    ensures var begun := Applied(s, source, PreviewStarted);
            && (begun.Some? <==> !Active(s.state))
            && (begun.Some? ==> begun.value == Session(Preview, source, NextGeneration(s.generation), begun.value.pick))
    ensures var called := Applied(s, source, IncomingCall);
            && (called.Some? <==> !Active(s.state) || (s.state == Ringing && source == s.peer))
            && (called.Some? ==>
                  called.value == if Active(s.state) then s
                                  else Session(Ringing, source, NextGeneration(s.generation), called.value.pick))
    ensures var talking := Applied(s, source, SessionEstablished);
            && (talking.Some? <==> (s.state == Preview || s.state == Ringing) && source == s.peer)
            && (talking.Some? ==> talking.value == s.(state := Talking))
    ensures var over := Applied(s, source, Hangup);
            && (over.Some? <==> Active(s.state) && source == s.peer)
            && (over.Some? ==> over.value == s.(state := Ended, pick := over.value.pick) && over.value.pick.generation == 0)
    ensures var unlocked := Applied(s, source, UnlockResultObserved);
            && (unlocked.Some? <==> Active(s.state) && source == s.peer)
            && (unlocked.Some? ==> unlocked.value == s)
  {
  }

  /** The ended session, and whether there was one to end. */
  function Aborted(s: Session): (Session, bool) {
    if Active(s.state) then (s.(state := Ended, pick := NO_PICK), true) else (s, false)
  }

  predicate InWindow(p: Pick, now: u64) {
    now >= p.started && now - p.started < p.timeout
  }

  /** A pick-up frame, ours going out or the peer's reply; the second part says whether it
      was accepted. */
  function PickObserved(s: Session, f: Frame, local: Address, now: u64, timeout: u64): (Session, bool) {
    if timeout == 0 || s.generation == 0 || (s.state != Ringing && s.state != Preview)
       || f.family != 3 || |f.payload| != 7 then (s, false)
    else if f.opcode == 3 then
      if f.source != local || f.destination != s.peer then (s, false)
      else if s.pick.generation == s.generation then (s, InWindow(s.pick, now))
      else (s.(pick := Pick(s.generation, now, timeout, local)), true)
    else if f.opcode != 0x83 || f.source != s.peer || f.destination != local || s.pick.local != local
            || s.pick.generation != s.generation then (s, false)
    else if !InWindow(s.pick, now) then (s.(pick := s.pick.(generation := 0)), false)
    else (s.(pick := s.pick.(generation := 0), state := Talking), true)
  }

  // ---------------------------------------------------------------------------
  // The deadline.

  datatype Deadline = Deadline(armed: bool, generation: u64, started: u64, timeout: u64)

  const DISARMED := Deadline(false, 0, 0, 0)

  function Armed(s: Session, now: u64, timeout: u64): Option<Deadline> {
    if Active(s.state) then Some(Deadline(true, s.generation, now, timeout)) else None
  }

  datatype Ticking = Ticking(d: Deadline, s: Session, status: Status, timedOut: bool)

  function Elapsed(d: Deadline, s: Session, now: u64): Ticking {
    if !d.armed then Ticking(d, s, Ok, false)
    else if d.generation != s.generation || !Active(s.state) then Ticking(DISARMED, s, Ok, false)
    else if now < d.started then Ticking(d, s, Invalid, false)
    else if now - d.started < d.timeout then Ticking(d, s, Ok, false)
    else Ticking(DISARMED, s.(state := Ended, pick := s.pick.(generation := 0)), Ok, true)
  }

  /** A tick ends the session exactly when the deadline is its own and its time is over; a
      deadline of any other session is dropped. */
  lemma DeadlinesAreTheirOwn(d: Deadline, s: Session, now: u64)
    ensures var t := Elapsed(d, s, now);
            var mine := d.armed && d.generation == s.generation && Active(s.state);
            && (t.timedOut <==> mine && now >= d.started + d.timeout)
            && (t.timedOut ==> t.status == Ok && t.s.state == Ended && !t.d.armed)
            && (!t.timedOut ==> t.s == s && (if mine then t.d == d else !t.d.armed))
            && (t.status != Ok <==> mine && now < d.started)
  {
  }

  function Remaining(d: Deadline, now: u64): Option<u64> {
    if !d.armed then Some(0)
    else if now < d.started then None
    else if now - d.started < d.timeout then Some(d.timeout - (now - d.started))
    else Some(0)
  }

  /** What remains runs out exactly when a tick at that time would end the session. */
  lemma RemainingIsExact(d: Deadline, s: Session, now: u64)
    requires d.armed && d.generation == s.generation && Active(s.state)
    ensures Remaining(d, now) == Some(0) <==> Elapsed(d, s, now).timedOut
    ensures Remaining(d, now).Some? && Remaining(d, now).value > 0 && now + Remaining(d, now).value <= U64_MAX ==>
              && Elapsed(d, s, now) == Ticking(d, s, Ok, false)
              && !Elapsed(d, s, now + Remaining(d, now).value - 1).timedOut
              && Elapsed(d, s, now + Remaining(d, now).value).timedOut
  {
    if Remaining(d, now).Some? && Remaining(d, now).value > 0 {
      assert now >= d.started && now + Remaining(d, now).value == d.started + d.timeout;
    }
  }

  // ---------------------------------------------------------------------------
  // In place.

  class CallSession {
    var s: Session

    constructor ()
      ensures s == Session(Idle, NO_ADDRESS, 0, NO_PICK)
    {
      s := Session(Idle, NO_ADDRESS, 0, NO_PICK);
    }

    /** A struct assignment. */
    constructor From(value: Session)
      ensures s == value
    {
      s := value;
    }

    method Preempt(expected: u64, incoming: Address, current: Option<nat>, arriving: Option<nat>, now: u64)
      returns (status: Status, result: Preemption)
      modifies this
      ensures var p := Preempted(old(s), expected, incoming, current, arriving, now);
              if p.None? then status == Invalid && s == old(s) && result == NO_TRANSITION
              else status == Ok && (s, result) == p.value
    {
      if s.state != Ringing || expected == 0 || expected != s.generation || s.generation == U64_MAX
         || s.peer == incoming || !Preempts(current, arriving)
      {
        return Invalid, NO_TRANSITION;
      }
      result := Preemption([Transition(Hangup, s.peer, s.generation)], now);
      result := result.(events := result.events + [Transition(IncomingCall, incoming, s.generation + 1)]);
      assert result.events == [Transition(Hangup, s.peer, s.generation),
                               Transition(IncomingCall, incoming, s.generation + 1)];
      s := s.(peer := incoming, generation := s.generation + 1);
      s := s.(pick := NO_PICK);
      return Ok, result;
    }

    method Start(source: Address, state: State)
      modifies this
      ensures s == Session(state, source, NextGeneration(old(s).generation), old(s).pick.(generation := 0))
    {
      s := s.(generation := Increment(s.generation), pick := s.pick.(generation := 0));
      if s.generation == 0 {
        s := s.(generation := 1);
      }
      s := s.(peer := source, state := state);
    }

    method Apply(source: Address, event: EventType) returns (status: Status)
      modifies this
      ensures var a := Applied(old(s), source, event);
              if a.None? then status == Invalid && s == old(s) else status == Ok && s == a.value
    {
      if Active(s.state) && s.peer != source {
        return Invalid;
      }
      if (s.state == Idle || s.state == Ended) && event == PreviewStarted {
        Start(source, Preview);
        return Ok;
      }
      if (s.state == Idle || s.state == Ended) && event == IncomingCall {
        Start(source, Ringing);
        return Ok;
      }
      if (s.state == Preview || s.state == Ringing) && event == SessionEstablished {
        s := s.(state := Talking);
        return Ok;
      }
      if Active(s.state) && event == Hangup {
        s := s.(state := Ended, pick := s.pick.(generation := 0));
        return Ok;
      }
      if s.state == Ringing && event == IncomingCall {
        return Ok;
      }
      if Active(s.state) && event == UnlockResultObserved {
        return Ok;
      }
      return Invalid;
    }

    method Abort() returns (ended: bool)
      modifies this
      ensures (s, ended) == Aborted(old(s))
    {
      if !Active(s.state) {
        return false;
      }
      s := s.(state := Ended, pick := NO_PICK);
      return true;
    }

    method ObservePick(f: Frame, local: Address, now: u64, timeout: u64) returns (status: Status)
      modifies this
      ensures (s, status == Ok) == PickObserved(old(s), f, local, now, timeout)
      ensures status == Ok || status == Invalid
    {
      if timeout == 0 || s.generation == 0 || (s.state != Ringing && s.state != Preview)
         || f.family != 3 || |f.payload| != 7
      {
        return Invalid;
      }
      if f.opcode == 3 {
        if f.source != local || f.destination != s.peer {
          return Invalid;
        }
        if s.pick.generation == s.generation {
          return if now >= s.pick.started && now - s.pick.started < s.pick.timeout then Ok else Invalid;
        }
        s := s.(pick := Pick(s.generation, now, timeout, local));
        return Ok;
      }
      if f.opcode != 0x83 || f.source != s.peer || f.destination != local || s.pick.local != local
         || s.pick.generation != s.generation
      {
        return Invalid;
      }
      if now < s.pick.started || now - s.pick.started >= s.pick.timeout {
        s := s.(pick := s.pick.(generation := 0));
        return Invalid;
      }
      s := s.(pick := s.pick.(generation := 0));
      s := s.(state := Talking);
      return Ok;
    }
  }

  class CallDeadline {
    var d: Deadline

    constructor ()
      ensures d == DISARMED
    {
      d := DISARMED;
    }

    constructor From(value: Deadline)
      ensures d == value
    {
      d := value;
    }

    method Arm(session: CallSession, now: u64, timeout: u64) returns (status: Status)
      modifies this
      ensures var a := Armed(session.s, now, timeout);
              if a.None? then status == Invalid && d == old(d) else status == Ok && d == a.value
    {
      if !Active(session.s.state) {
        return Invalid;
      }
      d := Deadline(true, session.s.generation, now, timeout);
      return Ok;
    }

    method Tick(session: CallSession, now: u64) returns (status: Status, timedOut: bool)
      modifies this, session
      ensures Ticking(d, session.s, status, timedOut) == Elapsed(old(d), old(session.s), now)
    {
      if !d.armed {
        return Ok, false;
      }
      if d.generation != session.s.generation || !Active(session.s.state) {
        Cancel();
        return Ok, false;
      }
      if now < d.started {
        return Invalid, false;
      }
      if now - d.started < d.timeout {
        return Ok, false;
      }
      session.s := session.s.(state := Ended, pick := session.s.pick.(generation := 0));
      Cancel();
      return Ok, true;
    }

    method Cancel()
      modifies this
      ensures d == DISARMED
    {
      d := DISARMED;
    }
  }
}
