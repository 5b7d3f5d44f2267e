/** Reception of one control frame by the call session
    (src/gvs_observer.c and src/gvs_receive.c). */
module Receiving {
  import opened Words
  import opened Frames
  import opened Sessions

  const PICK_TIMEOUT_MS := 3000
  const RING_TIMEOUT_MS := 30000
  const TALK_TIMEOUT_MS := 120000

  /** What a reception reports to its caller. */
  datatype Report = Report(
    transition: Preemption, acceptedCall: bool, talking: bool, rejectedPick: bool, ended: bool,
    observedHangup: bool, localHangup: bool, preempted: bool, timeSync: bool, rejectedTimeSync: bool, timedOut: bool)

  const QUIET := Report(NO_TRANSITION, false, false, false, false, false, false, false, false, false, false)

  /** The session, its deadline, the status and the report. */
  datatype Reception = Reception(s: Session, d: Deadline, status: Status, r: Report)

  datatype Observation = Observation(s: Session, status: Status, accepted: bool, transition: Preemption)

  /** An incoming call to this room begins a ringing session, is a repeat of it, or may
      preempt it; anything else is ignored. */
  function Observed(f: Frame, identity: Address, s: Session, now: u64): Observation {
    if EventOf(f) != IncomingCall || !IsFor(f, identity) then Observation(s, Ok, false, NO_TRANSITION)
    else if s.state == Ringing && s.peer != f.source then
      var p := Preempted(s, s.generation, f.source, Category(s.peer, identity), Category(f.source, identity), now);
      if p.None? then Observation(s, Invalid, false, NO_TRANSITION)
      else Observation(p.value.0, Ok, true, p.value.1)
    else if !Active(s.state) && s.generation == U64_MAX then Observation(s, Invalid, false, NO_TRANSITION)
    else
      var a := Applied(s, f.source, IncomingCall);
      if a.None? then Observation(s, Invalid, false, NO_TRANSITION)
      else if a.value.generation != s.generation then
        Observation(a.value, Ok, true,
                    Preemption([Transition(IncomingCall, a.value.peer, a.value.generation)], now))
      else Observation(a.value, Ok, true, NO_TRANSITION)
  }

  function HangupReceived(f: Frame, identity: Address, s: Session, d: Deadline): Reception {
    var inbound := f.source == s.peer && IsFor(f, identity);
    var outbound := f.source == identity && f.destination == s.peer;
    if !inbound && !outbound then Reception(s, d, Ok, QUIET)
    else
      var a := Applied(s, s.peer, Hangup);
      if a.None? then Reception(s, d, Ok, QUIET)
      else Reception(a.value, DISARMED, Ok, QUIET.(ended := true, observedHangup := true, localHangup := outbound))
  }

  function TimeSyncReceived(f: Frame, identity: Address, s: Session, d: Deadline, now: u64): Reception {
    var limit := if s.state == Talking then 120 else 30;
    if (s.state != Talking && s.state != Ringing) || |f.payload| != 1 || f.source != s.peer
       || f.destination != identity || f.payload[0] > limit then
      Reception(s, d, Ok, QUIET.(rejectedTimeSync := true))
    else
      var t := Elapsed(Deadline(true, s.generation, now, f.payload[0] as int * 1000), s, now);
      Reception(t.s, t.d, t.status, QUIET.(timeSync := true, timedOut := t.timedOut))
  }

  function PickReceived(f: Frame, identity: Address, s: Session, d: Deadline, now: u64): Reception {
    var (after, accepted) := PickObserved(s, f, identity, now, PICK_TIMEOUT_MS);
    if !accepted then Reception(after, d, Ok, QUIET.(rejectedPick := true))
    else if s.state != Talking && after.state == Talking then
      Reception(after, Deadline(true, after.generation, now, TALK_TIMEOUT_MS), Ok, QUIET.(talking := true))
    else Reception(after, d, Ok, QUIET)
  }

  function CallReceived(f: Frame, identity: Address, s: Session, d: Deadline, now: u64): Reception {
    var o := Observed(f, identity, s, now);
    if o.status != Ok then Reception(o.s, d, o.status, QUIET)
    else
      var over := exists e :: e in o.transition.events && e.kind == Hangup;
      Reception(o.s, if o.transition.events == [] then d else Deadline(true, o.s.generation, now, RING_TIMEOUT_MS), Ok,
                QUIET.(acceptedCall := o.accepted, transition := o.transition, ended := over, preempted := over))
  }

  function Received(f: Frame, identity: Address, s: Session, d: Deadline, now: u64): Reception {
    if f.family == 3 && f.opcode == 2 && |f.payload| == 1 then HangupReceived(f, identity, s, d)
    else if f.family == 3 && f.opcode == 0x57 then TimeSyncReceived(f, identity, s, d, now)
    else if f.family == 3 && (f.opcode == 3 || f.opcode == 0x83) then PickReceived(f, identity, s, d, now)
    else CallReceived(f, identity, s, d, now)
  }

  // ---------------------------------------------------------------------------
  // The deadline of every active call.

  /** A session that rings or talks has an armed deadline of its own generation, of 30 or
      120 seconds at the most, and no other has one. */
  predicate Guarded(s: Session, d: Deadline) {
    && (s.state == Ringing || s.state == Talking ==>
          && d.armed && d.generation == s.generation
          && d.timeout <= if s.state == Ringing then RING_TIMEOUT_MS else TALK_TIMEOUT_MS)
    && (d.armed ==> s.state == Ringing || s.state == Talking)
    && (Active(s.state) ==> s.generation > 0)
  }

  lemma ReceptionKeepsGuard(f: Frame, identity: Address, s: Session, d: Deadline, now: u64)
    requires Guarded(s, d)
    ensures var r := Received(f, identity, s, d, now);
            r.status == Ok ==> Guarded(r.s, r.d)
  {
  }

  /** Once the deadline's time is over, a tick ends the call. */
  lemma DeadlineEndsTheCall(s: Session, d: Deadline, now: u64)
    requires Guarded(s, d) && (s.state == Ringing || s.state == Talking)
    requires now >= d.started + if s.state == Ringing then RING_TIMEOUT_MS else TALK_TIMEOUT_MS
    ensures Elapsed(d, s, now).timedOut && Elapsed(d, s, now).s.state == Ended
  {
    assert now - d.started >= d.timeout;
  }

  /** The deadline moves only for a new ringing or talking spell or for a time sync of the
      peer: repeated calls and pick-ups never extend it. */
  lemma OnlyTransitionsRearm(f: Frame, identity: Address, s: Session, d: Deadline, now: u64)
    ensures var r := Received(f, identity, s, d, now);
            r.status == Ok && r.d != d && r.d.armed ==>
              || r.r.timeSync
              || (r.s.state == Talking && s.state != Talking && r.s.generation == s.generation)
              || (r.s.state == Ringing && r.s.generation != s.generation)
    ensures EventOf(f) == IncomingCall && s.state == Ringing && s.peer == f.source ==>
              Received(f, identity, s, d, now).s == s && Received(f, identity, s, d, now).d == d
  {
  }

  /** How a caller ranks here, counting unknown callers lowest. */
  function RankHere(peer: Address, identity: Address): int {
    var r := Rank(Category(peer, identity));
    if r.Some? then r.value else -1
  }

  /** Each preemption brings a caller of strictly higher rank, and there are three ranks. */
  lemma PreemptionsClimb(f: Frame, identity: Address, s: Session, d: Deadline, now: u64)
    requires s.state == Ringing
    ensures var r := Received(f, identity, s, d, now);
            r.r.preempted ==>
              && r.s.state == Ringing && r.s.generation == s.generation + 1
              && 0 <= RankHere(s.peer, identity) < RankHere(r.s.peer, identity) <= 2
              && r.s.pick == NO_PICK
              && r.r.transition.events == [Transition(Hangup, s.peer, s.generation),
                                           Transition(IncomingCall, f.source, r.s.generation)]
  {
  }

  // ---------------------------------------------------------------------------
  // In place.

  method ObserveBatch(f: Frame, identity: Address, session: CallSession, now: u64)
    returns (status: Status, accepted: bool, transition: Preemption)
    modifies session
    ensures Observation(session.s, status, accepted, transition) == Observed(f, identity, old(session.s), now)
  {
    accepted, transition := false, NO_TRANSITION;
    if EventOf(f) != IncomingCall || !IsFor(f, identity) {
      return Ok, accepted, transition;
    }
    if session.s.state == Ringing && session.s.peer != f.source {
      status, transition := session.Preempt(session.s.generation, f.source, Category(session.s.peer, identity),
                                            Category(f.source, identity), now);
    } else {
      var previous := session.s.generation;
      if (session.s.state == Idle || session.s.state == Ended) && previous == U64_MAX {
        return Invalid, accepted, transition;
      }
      status := session.Apply(f.source, IncomingCall);
      if status == Ok && session.s.generation != previous {
        transition := Preemption([Transition(IncomingCall, session.s.peer, session.s.generation)], now);
      }
    }
    accepted := status == Ok;
  }

  method ReceiveHangup(f: Frame, identity: Address, session: CallSession, deadline: CallDeadline)
    returns (status: Status, r: Report)
    modifies session, deadline
    ensures Reception(session.s, deadline.d, status, r) == HangupReceived(f, identity, old(session.s), old(deadline.d))
  {
    r := QUIET;
    var inbound := f.source == session.s.peer && IsFor(f, identity);
    var outbound := f.source == identity && f.destination == session.s.peer;
    if !inbound && !outbound {
      return Ok, r;
    }
    var applied := session.Apply(session.s.peer, Hangup);
    if applied == Ok {
      deadline.Cancel();
      r := r.(ended := true, observedHangup := true, localHangup := outbound);
    }
    return Ok, r;
  }

  method ReceiveTimeSync(f: Frame, identity: Address, session: CallSession, deadline: CallDeadline, now: u64)
    returns (status: Status, r: Report)
    modifies session, deadline
    ensures Reception(session.s, deadline.d, status, r) ==
            TimeSyncReceived(f, identity, old(session.s), old(deadline.d), now)
  {
    r := QUIET;
    var limit := if session.s.state == Talking then 120 else 30;
    if (session.s.state != Talking && session.s.state != Ringing) || |f.payload| != 1
       || f.source != session.s.peer || f.destination != identity || f.payload[0] > limit
    {
      return Ok, r.(rejectedTimeSync := true);
    }
    status := deadline.Arm(session, now, f.payload[0] as int * 1000);
    r := r.(timeSync := true);
    var timedOut;
    status, timedOut := deadline.Tick(session, now);
    r := r.(timedOut := timedOut);
  }

  method ReceivePick(f: Frame, identity: Address, session: CallSession, deadline: CallDeadline, now: u64)
    returns (status: Status, r: Report)
    modifies session, deadline
    ensures Reception(session.s, deadline.d, status, r) ==
            PickReceived(f, identity, old(session.s), old(deadline.d), now)
  {
    r := QUIET;
    var previous := session.s.state;
    var accepted := session.ObservePick(f, identity, now, PICK_TIMEOUT_MS);
    if accepted != Ok {
      return Ok, r.(rejectedPick := true);
    }
    if previous != Talking && session.s.state == Talking {
      status := deadline.Arm(session, now, TALK_TIMEOUT_MS);
      return status, r.(talking := true);
    }
    return Ok, r;
  }

  method ReceiveCall(f: Frame, identity: Address, session: CallSession, deadline: CallDeadline, now: u64)
    returns (status: Status, r: Report)
    modifies session, deadline
    ensures Reception(session.s, deadline.d, status, r) ==
            CallReceived(f, identity, old(session.s), old(deadline.d), now)
  {
    r := QUIET;
    var accepted, transition;
    status, accepted, transition := ObserveBatch(f, identity, session, now);
    if status != Ok {
      return status, r;
    }
    r := r.(acceptedCall := accepted, transition := transition);
    ghost var events := transition.events;
    for i := 0 to |transition.events|
      invariant r == QUIET.(acceptedCall := accepted, transition := transition,
                            ended := exists e :: e in events[..i] && e.kind == Hangup,
                            preempted := exists e :: e in events[..i] && e.kind == Hangup)
      invariant session.s == Observed(f, identity, old(session.s), now).s
      invariant deadline.d == if i == 0 then old(deadline.d)
                              else if events[i - 1].kind == Hangup then DISARMED
                              else Deadline(true, session.s.generation, now, RING_TIMEOUT_MS)
    {
      assert events[..i + 1] == events[..i] + [events[i]];
      if transition.events[i].kind == Hangup {
        r := r.(ended := true, preempted := true);
        deadline.Cancel();
      } else if transition.events[i].kind == IncomingCall {
        status := deadline.Arm(session, transition.ringStarted, RING_TIMEOUT_MS);
      }
    }
    assert events[..|events|] == events;
    return Ok, r;
  }

  method Receive(f: Frame, identity: Address, session: CallSession, deadline: CallDeadline, now: u64)
    returns (status: Status, r: Report)
    modifies session, deadline
    ensures Reception(session.s, deadline.d, status, r) == Received(f, identity, old(session.s), old(deadline.d), now)
  {
    if f.family == 3 && f.opcode == 2 && |f.payload| == 1 {
      status, r := ReceiveHangup(f, identity, session, deadline);
    } else if f.family == 3 && f.opcode == 0x57 {
      status, r := ReceiveTimeSync(f, identity, session, deadline, now);
    } else if f.family == 3 && (f.opcode == 3 || f.opcode == 0x83) {
      status, r := ReceivePick(f, identity, session, deadline, now);
    } else {
      status, r := ReceiveCall(f, identity, session, deadline, now);
    }
  }
}
