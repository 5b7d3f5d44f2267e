/** How calls begin: when an incoming call rings, and when the peer's answer to our pick-up
    starts the talk; on every run, in both directions. */
module CallBegins {
  import opened Words
  import opened Frames
  import opened Sessions
  import opened CallControls
  import opened CallRuns
  import CallAcks
  import CallDispatching
  import CallEnds
  import CallRuntimes
  import Receiving

  /** An incoming call for this room. */
  predicate Calls(f: Frame, local: Address) {
    f.family == 3 && f.opcode == 1 && IsFor(f, local)
  }

  /** The peer's answer (03/83) to the pick-up that is out for this session, within three
      seconds of it. */
  predicate AnswersPick(f: Frame, s: Session, local: Address, now: u64) {
    && (s.state == Ringing || s.state == Preview) && s.generation != 0
    && f.family == 3 && f.opcode == 0x83 && |f.payload| == 7 && f.source == s.peer && f.destination == local
    && s.pick.generation == s.generation && s.pick.local == local
    && s.pick.started <= now < s.pick.started + s.pick.timeout
  }

  /** While a pick-up waits for its answer, only its own is let through. */
  predicate LetThrough(a: CallAcks.Ack, f: Frame, s: Session, local: Address, now: u64) {
    CallAcks.IsPickUp(a.command) ==>
      && a.state == CallAcks.Awaiting && now < a.deadline && CallAcks.Relevant(a.command, s, local)
      && CallAcks.Acknowledges(a.command, f)
  }

  lemma ReceptionBegins(f: Frame, local: Address, s: Session, d: Deadline, now: u64)
    ensures var e := Receiving.Received(f, local, s, d, now);
            && (!Active(s.state) ==>
                  && (e.status == Ok <==> !(Calls(f, local) && s.generation == U64_MAX))
                  && (e.status == Ok ==> (Active(e.s.state) <==> Calls(f, local)))
                  && (e.status == Ok && Calls(f, local) ==>
                        && e.s.state == Ringing && e.s.peer == f.source && e.s.generation == s.generation + 1
                        && e.d == Deadline(true, s.generation + 1, now, 30000)))
            && (s.state != Talking && e.status == Ok ==>
                  && (e.s.state == Talking <==> AnswersPick(f, s, local, now))
                  && (AnswersPick(f, s, local, now) ==>
                        && e.s.peer == s.peer && e.s.generation == s.generation
                        && e.d == Deadline(true, s.generation, now, 120000)))
            && (AnswersPick(f, s, local, now) ==> e.status == Ok)
  {
  }

  /** Only a reception that is let through reaches the session. */
  lemma PassageBegins(a: CallAcks.Ack, f: Frame, local: Address, s: Session, d: Deadline, now: u64)
    requires Receiving.Guarded(s, d) && now >= a.lastNow && !LateHangup(a, local, s, now)
    requires Calls(f, local) || AnswersPick(f, s, local, now)
    ensures var p, e := CallRuntimes.Received(a, f, local, s, d, now), Receiving.Received(f, local, s, d, now);
            if Calls(f, local) || LetThrough(a, f, s, local, now) then
              (p.Some? <==> e.status == Ok) && (p.Some? ==> p.value.s == e.s && p.value.d == e.d)
            else p.Some? && p.value.s == s && p.value.d == d
  {
    hide CallAcks.Relevant, CallAcks.Acknowledges, Receiving.Received;
    AfterExpiryEffect(a, local, s, d, now);
    CallEnds.WaitStays(a, f, local, s, d, now);
    var b := CallAcks.Ticked(a, s, local, now).value;
    assert b.lastNow == now && b.command == a.command;
    hide CallRuntimes.AfterExpiry, LateHangup;
  }

  /** On every run, when nobody is on the line, an incoming call for this room that comes in
      time rings, under the next generation and for thirty seconds. */
  lemma CallsRing(inputs: seq<Input>, local: Address, start: u64, data: seq<byte>, now: u64)
    requires Parse(data).Some?
    ensures var x, f := Run(inputs, local, start), Parse(data).value;
            var y := Next(x, Datagram(data, now), local);
            !Active(x.s.state) && InTime(x.c, now) && x.s.generation < U64_MAX && Calls(f, local) ==>
              && y.s.state == Ringing && y.s.peer == f.source && y.s.generation == x.s.generation + 1
              && y.d == Deadline(true, x.s.generation + 1, now, 30000)
  {
    hide Run, CallRuntimes.Received, Receiving.Received, Receiving.Guarded, Classified, Parse;
    var x, f := Run(inputs, local, start), Parse(data).value;
    RunsAreSound(inputs, local, start);
    if !Active(x.s.state) && InTime(x.c, now) && Calls(f, local) {
      NobodyIsLate(x.c.ack, local, x.s, now);
      PassageBegins(x.c.ack, f, local, x.s, x.d, now);
      ReceptionBegins(f, local, x.s, x.d, now);
    }
  }

  lemma NobodyIsLate(a: CallAcks.Ack, local: Address, s: Session, now: u64)
    requires !Active(s.state)
    ensures !LateHangup(a, local, s, now)
  {
  }

  /** And nothing else brings a session to life but a call or a preview set up here. */
  lemma OnlyCallsRing(inputs: seq<Input>, local: Address, start: u64, i: Input)
    ensures var x := Run(inputs, local, start);
            !Active(x.s.state) && Active(Next(x, i, local).s.state) ==>
              || i.Install?
              || (i.Datagram? && Parse(i.data).Some? && Calls(Parse(i.data).value, local))
  {
    hide Run;
    RunsAreSound(inputs, local, start);
    var x := Run(inputs, local, start);
    match i
    case Step(now, answers) =>
      StepEffect(x.c, x.s, x.d, local, now, answers);
      hide CallControls.Stepped, Receiving.Guarded;
    case Datagram(data, now) =>
      if !Active(x.s.state) && Parse(data).Some? && !Calls(Parse(data).value, local) {
        OthersWakeNobody(x.c, Parse(data).value, local, x.s, x.d, now);
      }
      hide CallControls.CallReceived, Parse, Receiving.Guarded, CallDispatching.Enqueued, ActionCommand;
    case Submit(command, now) =>
      hide CallDispatching.Enqueued;
    case Install(_, _, _, _, _) =>
  }

  lemma OthersWakeNobody(c: Control, f: Frame, local: Address, s: Session, d: Deadline, now: u64)
    requires !Active(s.state) && !Calls(f, local) && Receiving.Guarded(s, d)
    ensures var x := CallControls.CallReceived(c, f, local, s, d, now);
            x.Some? ==> !Active(x.value.s.state)
  {
    hide CallAcks.Relevant, CallAcks.Acknowledges, CallAcks.Ticked, Receiving.Received, Classified;
    ReceptionBegins(f, local, s, d, now);
    NobodyIsLate(c.ack, local, s, now);
    if now >= c.ack.lastNow {
      AfterExpiryEffect(c.ack, local, s, d, now);
    } else {
      TickNeedsTime(c.ack, s, local, now);
    }
    hide CallRuntimes.AfterExpiry;
  }

  /** On every run, the peer's answer to our pick-up starts the talk, for two minutes, exactly
      when it comes within the pick-up's three seconds and is the one waited for. */
  lemma AnswersStartTalks(inputs: seq<Input>, local: Address, start: u64, data: seq<byte>, now: u64)
    requires Parse(data).Some?
    ensures var x, f := Run(inputs, local, start), Parse(data).value;
            var y := Next(x, Datagram(data, now), local);
            (x.s.state == Ringing || x.s.state == Preview) && InTime(x.c, now) && !LateHangup(x.c.ack, local, x.s, now)
            && f.family == 3 && f.opcode == 0x83 ==>
              && (y.s.state == Talking <==> AnswersPick(f, x.s, local, now) && LetThrough(x.c.ack, f, x.s, local, now))
              && (y.s.state == Talking ==>
                    && y.s.peer == x.s.peer && y.s.generation == x.s.generation
                    && y.d == Deadline(true, x.s.generation, now, 120000))
  {
    hide Run, CallRuntimes.Received, Receiving.Received, Receiving.Guarded, Classified, Parse, LateHangup, AnswersPick, LetThrough;
    var x, f := Run(inputs, local, start), Parse(data).value;
    RunsAreSound(inputs, local, start);
    if (x.s.state == Ringing || x.s.state == Preview) && InTime(x.c, now) && !LateHangup(x.c.ack, local, x.s, now)
       && f.family == 3 && f.opcode == 0x83 {
      ReceptionBegins(f, local, x.s, x.d, now);
      if AnswersPick(f, x.s, local, now) {
        PassageBegins(x.c.ack, f, local, x.s, x.d, now);
      } else {
        OthersStartNoTalk(x.c, f, local, x.s, x.d, now);
      }
    }
  }

  lemma OthersStartNoTalk(c: Control, f: Frame, local: Address, s: Session, d: Deadline, now: u64)
    requires s.state != Talking && !AnswersPick(f, s, local, now) && Receiving.Guarded(s, d)
    ensures var x := CallControls.CallReceived(c, f, local, s, d, now);
            x.Some? ==> x.value.s.state != Talking
  {
    hide CallAcks.Relevant, CallAcks.Acknowledges, CallAcks.Ticked, Receiving.Received, Classified;
    ReceptionBegins(f, local, s, d, now);
    if now >= c.ack.lastNow {
      AfterExpiryEffect(c.ack, local, s, d, now);
      var b := CallAcks.Ticked(c.ack, s, local, now).value;
      var q := CallRuntimes.AfterExpiry(CallRuntimes.Passage(b, s, d, CallRuntimes.Noted(c.ack.state, b, CallRuntimes.CALM)));
      ReceptionBegins(f, local, q.s, q.d, now);
    } else {
      TickNeedsTime(c.ack, s, local, now);
    }
    hide CallRuntimes.AfterExpiry;
  }

  /** Who outranks whom: door stations and the porter anyone, other flats the own one; nobody
      else counts. */
  lemma RanksOfCallers(peer: Address, local: Address)
    ensures Receiving.RankHere(peer, local) ==
            if peer[0] in {0x12, 0x13, 0x31, 0x32, 0x62} then 2
            else if peer[0] == 0x61 then (if peer[..5] == local[..5] then 0 else 1)
            else -1
  {
  }

  /** A time sync of the peer's, within its limit, sets the time that is left; with none left
      the call is over. */
  lemma SyncsRearm(f: Frame, local: Address, s: Session, d: Deadline, now: u64)
    requires f.family == 3 && f.opcode == 0x57
    ensures var e := Receiving.Received(f, local, s, d, now);
            var heard := (s.state == Ringing || s.state == Talking) && |f.payload| == 1 && f.source == s.peer
                         && f.destination == local && f.payload[0] <= if s.state == Talking then 120 else 30;
            && e.status == Ok
            && if !heard then e.s == s && e.d == d
               else if f.payload[0] == 0 then e.s.state == Ended && !e.d.armed
               else e.s == s && e.d == Deadline(true, s.generation, now, f.payload[0] as int * 1000)
  {
  }
}
