/** What call control says on the wire: keep-alives every two seconds and their answers, and
    commands that the peer's answer fits. */
module CallTalks {
  import opened Words
  import opened Frames
  import opened Sessions
  import opened CallControls
  import opened CallRuns
  import CallAcks
  import CallBegins
  import CallDispatching
  import CallEnds
  import CallRuntimes
  import Handshakes
  import Receiving
  import SendTransactions

  // ---------------------------------------------------------------------------
  // Keep-alives.

  /** Both ends of the keep-alive have an address. */
  predicate Named(s: Session, local: Address) {
    s.peer != NO_ADDRESS && local != NO_ADDRESS && s.generation != 0
  }

  /** The slot for keep-alives takes another frame. */
  predicate Ready(d: CallDispatching.Dispatch, now: u64) {
    !CallDispatching.Busy(d.state) && d.nextId != 0 && now >= d.lastNow && now <= U64_MAX - 2000
  }

  function Probe(s: Session, local: Address): Frame {
    Frame(s.peer, local, 3, 0x51, [])
  }

  function ProbeAnswer(s: Session, local: Address): Frame {
    Frame(s.peer, local, 3, 0x52, [])
  }

  /** A keep-alive frame of the peer's. */
  predicate FromPeer(f: Frame, s: Session, local: Address, opcode: byte) {
    f.family == 3 && f.opcode == opcode && f.payload == [] && f.source == s.peer && f.destination == local
  }

  lemma HandEffect(c: Control, f: Frame, local: Address, s: Session, d: Deadline, now: u64)
    requires Handshakes.Current(c.handshake, s, local) && now >= c.handshake.lastNow && now <= U64_MAX - 2000
    ensures FromPeer(f, s, local, 0x52) ==>
              HandReceived(c, f, local, s, d, now) ==
              Some(Situation(c.(handshake := c.handshake.(lastNow := now, missed := 0)), s, d,
                             BLANK.(handshake := Handshakes.NOTHING.(acceptedReply := true))))
    ensures FromPeer(f, s, local, 0x51) && Named(s, local) ==>
              var x := HandReceived(c, f, local, s, d, now);
              && x.Some? && x.value.s == s && x.value.d == d
              && x.value.c.handshake == c.handshake.(lastNow := now, missed := 0, nextProbe := now + 2000)
              && (Ready(c.handDispatch, now) ==>
                    && x.value.c.handDispatch.state == CallDispatching.Queued && x.value.c.handDispatch.attempts == 0
                    && CallDispatching.CommandFrame(x.value.c.handDispatch.command) == Some(ProbeAnswer(s, local))
                    && x.value.c.handDropped == c.handDropped)
              && (CallDispatching.Busy(c.handDispatch.state) ==>
                    && x.value.c.handDispatch == c.handDispatch
                    && x.value.c.handDropped == Min(c.handDropped + 1, U64_MAX))
  {
    if FromPeer(f, s, local, 0x51) && Named(s, local) {
      var reply := ActionCommand(Handshakes.Reply(s.peer, local, s.generation));
      assert CallDispatching.CommandFrame(reply) == Some(ProbeAnswer(s, local));
      assert CallDispatching.Acceptable(reply);
      hide CallDispatching.CommandFrame, CallDispatching.Acceptable;
    }
  }

  /** On every run, a keep-alive of the peer's, received in time, starts the two seconds anew
      and gets its answer ready, addressed back to the peer; when another keep-alive frame is
      still being sent, the answer is counted as dropped. The answer to one of ours clears
      the count and gets none. */
  lemma ProbesAreAnswered(inputs: seq<Input>, local: Address, start: u64, data: seq<byte>, now: u64)
    requires Parse(data).Some?
    ensures var x, f := Run(inputs, local, start), Parse(data).value;
            var y := Next(x, Datagram(data, now), local);
            Handshakes.Current(x.c.handshake, x.s, local) && Named(x.s, local) && InTime(x.c, now) && now <= U64_MAX - 2000 ==>
              && (FromPeer(f, x.s, local, 0x51) ==>
                    && y.s == x.s && y.c.handshake.missed == 0 && y.c.handshake.nextProbe == now + 2000
                    && (Ready(x.c.handDispatch, now) ==>
                          && y.c.handDispatch.state == CallDispatching.Queued
                          && CallDispatching.CommandFrame(y.c.handDispatch.command) == Some(ProbeAnswer(x.s, local)))
                    && (CallDispatching.Busy(x.c.handDispatch.state) ==>
                          y.c.handDispatch == x.c.handDispatch && y.c.handDropped == Min(x.c.handDropped + 1, U64_MAX)))
              && (FromPeer(f, x.s, local, 0x52) ==>
                    && y.s == x.s && y.c.handshake == x.c.handshake.(lastNow := now, missed := 0)
                    && y.c.handDispatch == x.c.handDispatch)
  {
    hide Run, HandReceived, CallControls.CallReceived, Parse, CallDispatching.CommandFrame, Handshakes.Current;
    var x := Run(inputs, local, start);
    if Handshakes.Current(x.c.handshake, x.s, local) && InTime(x.c, now) && now <= U64_MAX - 2000 {
      HandEffect(x.c, Parse(data).value, local, x.s, x.d, now);
    }
  }

  /** What the keep-alive slot does with a new probe when it is free. */
  lemma ProbeIsTried(x: Situation, local: Address, now: u64, answers: Answers)
    requires Ready(x.c.handDispatch, now) && Active(x.s.state) && Named(x.s, local)
    requires x.r.handshake.action == Some(Handshakes.Ask(x.s.peer, local, x.s.generation))
    ensures var y := KeptAlive(x, local, now, answers);
            && y.Some? && CallDispatching.CommandFrame(y.value.c.handDispatch.command) == Some(Probe(x.s, local))
            && y.value.c.handDispatch.attempts == 1
            && y.value.c.handDispatch.state == match answers.second
                                               case Success => CallDispatching.Sent
                                               case Failure => CallDispatching.Retry
                                               case Pending => CallDispatching.Sending
  {
    var ask := ActionCommand(Handshakes.Ask(x.s.peer, local, x.s.generation));
    assert CallDispatching.CommandFrame(ask) == Some(Probe(x.s, local));
    assert CallDispatching.Acceptable(ask) && CallDispatching.Current(ask, x.s, local);
    hide CallDispatching.CommandFrame, CallDispatching.Acceptable, CallDispatching.Current;
  }

  /** A session that goes on, is kept alive, and whose next keep-alive is due. */
  predicate ProbeDue(x: World, local: Address, now: u64) {
    && Handshakes.Current(x.c.handshake, x.s, local) && Named(x.s, local) && now <= U64_MAX - 2000
    && now >= x.c.handshake.nextProbe && x.c.handshake.missed < 5 && !CallEnds.TimeEnds(x, local, now)
  }

  /** On every run a step that finds a keep-alive due sends it, to the peer, at once, and the
      next one is due two seconds later. */
  lemma ProbesAreSent(inputs: seq<Input>, local: Address, start: u64, now: u64, answers: Answers)
    ensures var x := Run(inputs, local, start);
            var e := Effect(x, Step(now, answers), local);
            ProbeDue(x, local, now) && Ready(x.c.handDispatch, now) && e.Some? ==>
              && CallDispatching.CommandFrame(e.value.c.handDispatch.command) == Some(Probe(x.s, local))
              && e.value.c.handDispatch.attempts == 1
              && (e.value.c.handDispatch.state == CallDispatching.Sent <==> answers.second == SendTransactions.Success)
              && e.value.c.handshake.nextProbe == now + 2000 && e.value.c.handshake.missed == x.c.handshake.missed + 1
  {
    hide Run, Timers, Revived, KeptAlive, Served, CallEnds.TimeEnds, CallDispatching.CommandFrame, Handshakes.Current,
         Receiving.Guarded;
    var x := Run(inputs, local, start);
    RunsAreSound(inputs, local, start);
    if ProbeDue(x, local, now) && Ready(x.c.handDispatch, now) {
      DueTimers(x, local, now);
      var timed := Timers(x.c, x.s, x.d, local, now);
      if timed.Some? {
        LiveIsLeft(timed.value, local, now);
        ProbeIsTried(timed.value, local, now, answers);
        KeptAliveEffect(timed.value, local, now, answers);
        var kept := KeptAlive(timed.value, local, now, answers);
        ServedKeepsProbe(kept.value, x.s, local, now, answers.call);
      }
    }
  }

  lemma DueTimers(x: World, local: Address, now: u64)
    requires Sound(x) && ProbeDue(x, local, now)
    ensures var t := Timers(x.c, x.s, x.d, local, now);
            t.Some? ==>
              && t.value.s == x.s && Active(x.s.state)
              && t.value.c.handDispatch == x.c.handDispatch
              && t.value.c.handshake.active && t.value.c.handshake.nextProbe == now + 2000
              && t.value.c.handshake.missed == x.c.handshake.missed + 1
              && t.value.r.handshake.action == Some(Handshakes.Ask(x.s.peer, local, x.s.generation))
  {
    CallEnds.TimersEnd(x, local, now);
    hide CallRuntimes.Ticked, CallEnds.TimeEnds;
  }

  lemma LiveIsLeft(x: Situation, local: Address, now: u64)
    requires x.c.handshake.active
    ensures Revived(x, local, now) == Some(x)
  {
  }

  lemma ServedKeepsProbe(x: Situation, previous: Session, local: Address, now: u64, answer: AttemptResult)
    ensures var y := Served(x, previous, local, now, answer);
            y.Some? ==> y.value.c.handDispatch == x.c.handDispatch && y.value.c.handshake == x.c.handshake
  {
    hide CallDispatching.Stepped, CallDispatching.CommandFrame, Receiving.Received;
  }

  // ---------------------------------------------------------------------------
  // Commands and their answers.

  /** An answer: back the way the frame came. */
  function Answer(f: Frame, opcode: byte, payload: seq<byte>): Frame {
    Frame(f.source, f.destination, 3, opcode, payload)
  }

  /** Our pick-up goes to the peer with both ports and the duration, and the peer's answer,
      which repeats the ports, is the one the acknowledgement waits for and, within three
      seconds, the one that starts the talk. */
  lemma PickUpIsUnderstood(s: Session, local: Address, primary: u16, secondary: u16, duration: byte,
                           kind: CallDispatching.CommandType, talk: byte, at: u64, later: u64)
    requires kind == CallDispatching.Answer || kind == CallDispatching.Call
    requires CallDispatching.PreparedPick(s, s.generation, local, primary, secondary, duration, kind).Some?
    requires s.pick.generation != s.generation && talk != 0 && at <= later
    ensures var c := CallDispatching.PreparedPick(s, s.generation, local, primary, secondary, duration, kind).value;
            var ports := [primary / 256, primary % 256, 0, secondary / 256, secondary % 256];
            && CallDispatching.CommandFrame(c) == Some(Frame(s.peer, local, 3, 3, [2] + ports + [duration]))
            && var said := CallDispatching.CommandFrame(c).value;
               var (noted, accepted) := PickObserved(s, said, local, at, Receiving.PICK_TIMEOUT_MS);
               && accepted
               && CallAcks.Acknowledges(c, Answer(said, 0x83, [0] + ports + [talk]))
               && (CallBegins.AnswersPick(Answer(said, 0x83, [0] + ports + [talk]), noted, local, later) <==>
                     later as int < at as int + 3000)
  {
    var c := CallDispatching.PreparedPick(s, s.generation, local, primary, secondary, duration, kind).value;
    var ports := [primary / 256, primary % 256, 0, secondary / 256, secondary % 256];
    assert c.payload == [2] + ports + [duration];
    assert c.payload[1..6] == ports && ([0] + ports + [talk])[1..6] == ports;
  }

  /** Our hang-up is the peer's: it ends the session of a station that talks to us, and that
      station's answer is the one waited for. */
  lemma HangupIsUnderstood(s: Session, local: Address, reason: byte, theirs: Session)
    requires CallDispatching.PreparedHangup(s, s.generation, local, reason).Some?
    requires theirs.peer == local
    ensures var c := CallDispatching.PreparedHangup(s, s.generation, local, reason).value;
            && CallDispatching.CommandFrame(c) == Some(Frame(s.peer, local, 3, 2, [reason]))
            && var said := CallDispatching.CommandFrame(c).value;
               && CallEnds.PeerHangsUp(said, theirs, s.peer)
               && CallEnds.WeHangUp(said, s, local)
               && CallAcks.Acknowledges(c, Answer(said, 0x82, []))
  {
  }

  /** A command is submitted exactly when none waits or is under way and it was prepared. */
  lemma SubmissionsAreTaken(c: Control, command: Option<Command>, now: u64)
    requires c.ack.lastNow <= now && c.dispatch.lastNow <= now <= U64_MAX - 250 && c.dispatch.nextId != 0
    ensures var (after, status) := Submitted(c, command, now);
            && (status == Ok <==>
                  && command.Some? && CallDispatching.Acceptable(command.value)
                  && c.ack.state != CallAcks.Awaiting && !CallDispatching.Busy(c.dispatch.state))
            && (if status == Ok then
                  after == c.(dispatch := CallDispatching.Dispatch(CallDispatching.Queued, command.value, now, now + 250,
                                                                   c.dispatch.nextId, 0, 0))
                else after == c)
  {
    hide CallDispatching.Rebuilt;
  }

  /** The turn of the command under way has come, and it is still wanted. */
  predicate CommandDue(x: World, local: Address, now: u64) {
    var d := x.c.dispatch;
    && CallDispatching.Current(d.command, x.s, local) && d.nextId != 0 && now <= U64_MAX - 1000
    && ((d.state == CallDispatching.Queued && now < d.deadline) || (d.state == CallDispatching.Retry && now >= d.deadline))
  }

  lemma DeliveryEffect(x: Situation, previous: Session, local: Address, now: u64)
    requires CommandDue(World(x.c, x.s, x.d), local, now) && Receiving.Guarded(x.s, x.d)
    ensures var y := Served(x, previous, local, now, SendTransactions.Success);
            var command := x.c.dispatch.command;
            y.Some? ==>
              && y.value.c.dispatch.state == CallDispatching.Sent
              && y.value.c.ack == CallAcks.Ack(CallAcks.Awaiting, command, now, now + 1000)
              && (CallAcks.IsPickUp(command) && x.s.pick.generation != x.s.generation ==>
                    y.value.s == x.s.(pick := Pick(x.s.generation, now, 3000, local)))
              && (CallAcks.IsHangUp(command) ==> y.value.s == x.s)
  {
    var command := x.c.dispatch.command;
    var (m, status) := CallDispatching.Stepped(x.c.dispatch, x.s, local, now, SendTransactions.Success);
    if status == Ok {
      UndeliveredQuietly(x.(c := x.c.(dispatch := m.d)), previous);
      if CallAcks.IsPickUp(command) && CallDispatching.CommandFrame(command).Some? {
        var f := CallDispatching.CommandFrame(command).value;
        assert Receiving.Received(f, local, x.s, x.d, now) == Receiving.PickReceived(f, local, x.s, x.d, now);
      }
      hide CallDispatching.Stepped, CallDispatching.CommandFrame, CallAcks.CanBeAcknowledged, Undelivered;
    }
  }

  /** On every run, a command whose turn has come and that the callback delivers is waited for
      from then on, for a second; and a pick-up opens its three seconds. */
  lemma DeliveriesAreNoted(inputs: seq<Input>, local: Address, start: u64, now: u64, answers: Answers)
    ensures var x := Run(inputs, local, start);
            var e := Effect(x, Step(now, answers), local);
            CommandDue(x, local, now) && !CallEnds.TimeEnds(x, local, now) && answers.call == SendTransactions.Success
            && e.Some? ==>
              && e.value.c.dispatch.state == CallDispatching.Sent
              && e.value.c.ack == CallAcks.Ack(CallAcks.Awaiting, x.c.dispatch.command, now, now + 1000)
              && (CallAcks.IsPickUp(x.c.dispatch.command) && x.s.pick.generation != x.s.generation ==>
                    e.value.s == x.s.(pick := Pick(x.s.generation, now, 3000, local)))
  {
    hide Run, Timers, Revived, KeptAlive, Served, CallEnds.TimeEnds, Receiving.Guarded;
    var x := Run(inputs, local, start);
    RunsAreSound(inputs, local, start);
    if CommandDue(x, local, now) && !CallEnds.TimeEnds(x, local, now) && answers.call == SendTransactions.Success {
      CallEnds.TimersEnd(x, local, now);
      TimersEffect(x.c, x.s, x.d, local, now);
      var timed := Timers(x.c, x.s, x.d, local, now);
      if timed.Some? {
        RevivedEffect(timed.value, local, now);
        var revived := Revived(timed.value, local, now);
        if revived.Some? {
          KeptAliveEffect(revived.value, local, now, answers);
          var kept := KeptAlive(revived.value, local, now, answers);
          if kept.Some? {
            DeliveryEffect(kept.value, x.s, local, now);
          }
        }
      }
    }
  }

  /** A live session that has no keep-alives yet gets its first at the next step: at once. */
  lemma KeepAlivesBegin(inputs: seq<Input>, local: Address, start: u64, now: u64, answers: Answers)
    ensures var x := Run(inputs, local, start);
            var e := Effect(x, Step(now, answers), local);
            Active(x.s.state) && !Handshakes.Current(x.c.handshake, x.s, local) && Named(x.s, local)
            && Ready(x.c.handDispatch, now) && !CallEnds.TimeEnds(x, local, now) && e.Some? ==>
              && CallDispatching.CommandFrame(e.value.c.handDispatch.command) == Some(Probe(x.s, local))
              && e.value.c.handDispatch.attempts == 1
              && e.value.c.handshake.nextProbe == now + 2000 && e.value.c.handshake.missed == 1
  {
    hide Run, Timers, KeptAlive, Served, CallEnds.TimeEnds, CallDispatching.CommandFrame, Receiving.Guarded;
    var x := Run(inputs, local, start);
    RunsAreSound(inputs, local, start);
    if Active(x.s.state) && !Handshakes.Current(x.c.handshake, x.s, local) && Named(x.s, local)
       && Ready(x.c.handDispatch, now) && !CallEnds.TimeEnds(x, local, now) {
      CallEnds.TimersEnd(x, local, now);
      LoneTimers(x, local, now);
      var timed := Timers(x.c, x.s, x.d, local, now);
      if timed.Some? {
        var revived := Revived(timed.value, local, now);
        assert revived.Some?;
        ProbeIsTried(revived.value, local, now, answers);
        KeptAliveEffect(revived.value, local, now, answers);
        var kept := KeptAlive(revived.value, local, now, answers);
        ServedKeepsProbe(kept.value, x.s, local, now, answers.call);
      }
    }
  }

  lemma LoneTimers(x: World, local: Address, now: u64)
    requires Sound(x) && Active(x.s.state) && !Handshakes.Current(x.c.handshake, x.s, local)
    requires !CallEnds.TimeEnds(x, local, now)
    ensures var t := Timers(x.c, x.s, x.d, local, now);
            t.Some? ==>
              && t.value.s == x.s && t.value.c.handDispatch == x.c.handDispatch && !t.value.c.handshake.active
  {
    CallEnds.TimersEnd(x, local, now);
    hide CallRuntimes.Ticked, CallEnds.TimeEnds;
  }
}
