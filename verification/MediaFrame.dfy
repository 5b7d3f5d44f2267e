/** What the media manager says on the wire: every frame of every run goes from this station
    to the session's own station, at the session's address, in one of five forms, and frames
    that want an answer get theirs. */
module MediaFrames {
  import opened Words
  import opened MediaSessions
  import opened MediaManagers
  import opened MediaSoundness
  import Frames
  import M = Monitors

  /** A frame of a session. */
  predicate Spoken(c: Config, owner: Owner, n: Note) {
    n.FrameSent? ==>
      && M.WellSpoken(n.frame) && n.frame.source == c.local && n.frame.destination == owner.station && n.ipv4 == owner.ipv4
  }

  predicate SpokenAt(c: Config, m: Manager, k: nat, e: Entry) {
    k < |m.slots| && m.slots[k].owner.active && m.slots[k].owner.generation == e.session && Spoken(c, m.slots[k].owner, e.note)
  }

  predicate SpokenIn(c: Config, m: Manager, e: Entry) {
    e.note.FrameSent? ==> exists k :: 0 <= k < |m.slots| && SpokenAt(c, m, k, e)
  }

  /** Every frame of the log is one of a session of `m`. */
  predicate AllSpoken(c: Config, m: Manager, log: seq<Entry>) {
    forall i :: 0 <= i < |log| ==> SpokenIn(c, m, log[i])
  }

  lemma ToldSpeaks(c: Config, m: Manager, k: nat, notes: seq<Note>)
    requires Sound(c, m) && k < |m.slots| && m.slots[k].owner.active && AllSaidBy(m.slots[k], notes)
    ensures AllSpoken(c, m, Told(m.slots[k].owner.generation, notes))
  {
    hide ActiveCount, M.WellSpoken, Told;
    var s := m.slots[k];
    assert Peered(c.local, s);
    forall i | 0 <= i < |notes|
      ensures SpokenIn(c, m, Entry(s.owner.generation, notes[i]))
    {
      assert SaidBy(s, notes[i]);
      assert SpokenAt(c, m, k, Entry(s.owner.generation, notes[i]));
    }
    ToldIsTold(s.owner.generation, notes);
  }

  lemma ToldIsTold(session: u64, notes: seq<Note>)
    ensures |Told(session, notes)| == |notes|
    ensures forall i :: 0 <= i < |notes| ==> Told(session, notes)[i] == Entry(session, notes[i])
  {
  }

  lemma SettledSpeaks(c: Config, m: Manager, k: nat, change: Change, code: Code)
    requires Sound(c, m) && k < |m.slots| && m.slots[k].owner.active && Moves(m.slots[k], change)
    ensures AllSpoken(c, m, Settled(m, k, change, code).log)
    ensures Settled(m, k, change, code).m.next == m.next
  {
    hide Sound, SpokenIn, Told, SaidBy;
    ToldSpeaks(c, m, k, change.notes);
  }

  lemma DisturbedSpeaks(c: Config, m: Manager, session: u64, cause: Cause)
    ensures AllSpoken(c, m, Told(session, [Disturbed(cause)])) && AllSpoken(c, m, [])
  {
  }

  lemma IncomingSpeaks(c: Config, m: Manager, id: string, call: u64, now: u64, route: u32, o: Oracle)
    requires Sound(c, m)
    ensures AllSpoken(c, m, Incoming(c, m, id, call, now, route, o).log)
  {
    hide Sound, Search, StationNamed, CallPrepared, Preempted, Preflight, CallBound, Upgraded, OldestPreview, AllSpoken, Told, RouteOf;
    DisturbedSpeaks(c, m, 0, TakenOver);
    var k, v := Search(m.slots, Named(id)), OldestPreview(m.slots, |m.slots|);
    if k < |m.slots| {
      DisturbedSpeaks(c, m, m.slots[k].owner.generation, TakenOver);
    }
    if v < |m.slots| {
      OldestIsActive(m.slots);
      PreemptedMoves(m.slots[v], now, o);
      SettledSpeaks(c, m, v, Preempted(m.slots[v], now, o), EncoderFault);
    }
  }

  lemma OldestIsActive(slots: seq<Slot>)
    ensures var v := OldestPreview(slots, |slots|); v < |slots| ==> slots[v].owner.active
  {
    OldestIsOldest(slots, |slots|);
  }

  lemma StartSpeaks(c: Config, m: Manager, id: string, purpose: Purpose, light: bool, now: u64, cooldown: u64,
                    route: u32, o: Oracle)
    requires Sound(c, m)
    ensures AllSpoken(c, m, Start(c, m, id, purpose, light, now, cooldown, route, o).log)
  {
    hide Sound, Search, StationNamed, Incoming, AllSpoken, PreviewPrepared, Told;
    DisturbedSpeaks(c, m, 0, TakenOver);
    if m.next < U64_MAX {
      IncomingSpeaks(c, m, id, m.next + 1, now, route, o);
    }
    var station := StationNamed(c.stations, id);
    if station.Some? {
      var k := Search(m.slots, Named(station.value.id));
      if k < |m.slots| {
        DisturbedSpeaks(c, m, m.slots[k].owner.generation, TakenOver);
      }
    }
  }

  lemma OperateSpeaks(c: Config, m: Manager, op: Operation, id: string, generation: u64, control: u64, now: u64,
                      route: u32, o: Oracle)
    requires Sound(c, m)
    ensures AllSpoken(c, m, Operate(c, m, op, id, generation, control, now, route, o).log)
    ensures Operate(c, m, op, id, generation, control, now, route, o).m.next == m.next
  {
    hide Sound, Search, StationNamed, AllSpoken, Checked, Entitled, ReleasedOnRequest, RolledBack, Settled;
    DisturbedSpeaks(c, m, 0, TakenOver);
    var k := Search(m.slots, Named(id));
    if k < |m.slots| {
      ReleaseMoves(m.slots[k], op, now, o(EncoderStops));
      SettledSpeaks(c, m, k, ReleasedOnRequest(m.slots[k], op, now, o(EncoderStops)),
                    if o(EncoderStops) then Done else EncoderFault);
    }
  }

  lemma HandOverSpeaks(c: Config, m: Manager, id: string, now: u64, route: u32, o: Oracle)
    requires Sound(c, m)
    ensures AllSpoken(c, m, HandOver(c, m, id, now, route, o).log)
  {
    hide Sound, Search, AllSpoken, Operate, Promoted, Told;
    DisturbedSpeaks(c, m, 0, TakenOver);
    var k := Search(m.slots, Named(id));
    if k < |m.slots| {
      CheckChangesNothing(c, m, id, m.slots[k].owner.generation, 0, now, route, o);
      DisturbedSpeaks(c, m, m.slots[k].owner.generation, TakenOver);
    }
  }

  lemma CommandedSpeaks(c: Config, m: Manager, command: Command, id: string, generation: u64, now: u64, o: Oracle)
    requires Sound(c, m)
    ensures AllSpoken(c, m, Commanded(c, m, command, id, generation, now, o).log)
  {
    hide Sound, Search, StationNamed, AllSpoken, StoppedByCommand, Told, ViewerSet, Settled;
    DisturbedSpeaks(c, m, 0, TakenOver);
    var k := Search(m.slots, Named(id));
    if k < |m.slots| {
      CommandMoves(m.slots[k], now, o);
      SettledSpeaks(c, m, k, StoppedByCommand(m.slots[k], now, o).0, StoppedByCommand(m.slots[k], now, o).1);
      DisturbedSpeaks(c, m, m.slots[k].owner.generation, TakenOver);
    }
  }

  lemma ControlSpeaks(c: Config, m: Manager, f: Frame, ipv4: u32, now: u64, o: Oracle)
    requires Sound(c, m)
    ensures AllSpoken(c, m, Control(c, m, f, ipv4, now, o).log)
  {
    hide Sound, Search, AllSpoken, ControlReceived, Settled;
    DisturbedSpeaks(c, m, 0, TakenOver);
    var k := Search(m.slots, Sender(f.source, ipv4));
    if k < |m.slots| {
      var (change, code) := ControlReceived(m.slots[k], c.local, f, ipv4, now, o);
      ControlMoves(m.slots[k], c.local, f, ipv4, now, o);
      SettledSpeaks(c, m, k, change, code);
    }
  }

  lemma PictureSpeaks(c: Config, m: Manager, source: Address, destination: Address, ipv4: u32, valid: bool, at: u64,
                      path: Path, o: Oracle)
    requires Sound(c, m)
    ensures AllSpoken(c, m, Picture(c, m, source, destination, ipv4, valid, at, path, o).log)
  {
    hide Sound, Search, AllSpoken, PictureReceived, Settled;
    DisturbedSpeaks(c, m, 0, TakenOver);
    var k := Search(m.slots, Seen(source));
    if k < |m.slots| {
      var (change, code) := PictureReceived(m.slots[k], source, destination, ipv4, valid, at, path, o);
      PictureMoves(m.slots[k], source, destination, ipv4, valid, at, path, o);
      SettledSpeaks(c, m, k, change, code);
    }
  }

  lemma TickAtSpeaks(c: Config, m: Manager, k: nat, now: u64, o: Oracle)
    requires Sound(c, m) && k < |m.slots|
    ensures AllSpoken(c, m, TickAt(c, m, k, now, o).log) && TickAt(c, m, k, now, o).m.next == m.next
  {
    hide Sound, AllSpoken, Operate, Ticked, ReleasedFailed, Settled;
    var s := m.slots[k];
    DisturbedSpeaks(c, m, 0, TakenOver);
    if s.owner.active {
      TickMoves(s, now, o);
      SettledSpeaks(c, m, k, Ticked(s, now, o), Failure(Ticked(s, now, o).failed));
      ReleaseMoves(s, Release, now, o(EndStops));
      SettledSpeaks(c, m, k, ReleasedFailed(s, o(EndStops)), Failure(ReleasedFailed(s, o(EndStops)).failed));
      if s.cleanup.pending.Some? {
        OperateSpeaks(c, m, s.cleanup.pending.value, s.owner.id, s.owner.generation, s.handoff.callGeneration, now, 0, o);
      }
    }
  }

  /** Where nothing new is issued, a later session is an earlier one. */
  lemma SpokenBefore(c: Config, m: Manager, t: Manager, log: seq<Entry>)
    requires Inherits(m, t) && Sound(c, t) && t.next == m.next && AllSpoken(c, t, log)
    ensures AllSpoken(c, m, log)
  {
    hide ActiveCount, M.WellSpoken, Tidy, AllApart;
    forall i | 0 <= i < |log| && log[i].note.FrameSent?
      ensures SpokenIn(c, m, log[i])
    {
      assert SpokenIn(c, t, log[i]);
      var k :| 0 <= k < |t.slots| && SpokenAt(c, t, k, log[i]);
      assert SpokenAt(c, m, k, log[i]);
    }
  }

  lemma {:induction false} TickSpeaks(c: Config, m: Manager, n: nat, now: u64, os: nat -> Oracle)
    requires Sound(c, m) && n <= |m.slots|
    ensures AllSpoken(c, m, Tick(c, m, n, now, os).log) && Tick(c, m, n, now, os).m.next == m.next
  {
    hide Sound, TickAt, SpokenIn, Inherits;
    if n > 0 {
      var earlier := Tick(c, m, n - 1, now, os);
      TickSpeaks(c, m, n - 1, now, os);
      TickFollows(c, m, n - 1, now, os);
      TickAtSpeaks(c, earlier.m, n - 1, now, os(n - 1));
      SpokenBefore(c, m, earlier.m, TickAt(c, earlier.m, n - 1, now, os(n - 1)).log);
    }
  }

  lemma StepSpeaks(c: Config, m: Manager, i: Input)
    requires Sound(c, m)
    ensures AllSpoken(c, m, Step(c, m, i).log)
  {
    hide Start, Incoming, HandOver, Operate, Commanded, Control, Picture, Tick, Sound, AllSpoken;
    var o := i.os(0);
    match i.event
    case Starting(id, purpose, light, cooldown) => StartSpeaks(c, m, id, purpose, light, i.now, cooldown, i.route, o);
    case Calling(id, call) => IncomingSpeaks(c, m, id, call, i.now, i.route, o);
    case HandingOver(id) => HandOverSpeaks(c, m, id, i.now, i.route, o);
    case Operating(op, id, generation, control) => OperateSpeaks(c, m, op, id, generation, control, i.now, i.route, o);
    case Commanding(command, id, generation) => CommandedSpeaks(c, m, command, id, generation, i.now, o);
    case Frame(frame, ipv4) => ControlSpeaks(c, m, frame, ipv4, i.now, o);
    case Image(source, destination, ipv4, valid, path) =>
      PictureSpeaks(c, m, source, destination, ipv4, valid, i.now, path, o);
    case Time => TickSpeaks(c, m, |m.slots|, i.now, i.os);
  }

  /** At some moment of the run there was the session whose frame this is. */
  predicate SpokenOnRun(c: Config, inputs: seq<Input>, e: Entry) {
    exists n :: 0 <= n < |inputs| && SpokenIn(c, Run(c, inputs[..n]).m, e)
  }

  /** On every run, every frame that went out went from us to the station of the session it
      was sent for, at that session's address, and is a request, a keep-alive, a hang-up, or
      the answer to one of the latter. */
  lemma {:induction false} EveryFrameIsSpoken(c: Config, inputs: seq<Input>)
    ensures forall e :: e in Run(c, inputs).log && e.note.FrameSent? ==> SpokenOnRun(c, inputs, e)
  {
    hide Step, SpokenIn;
    if inputs != [] {
      var n := |inputs| - 1;
      var before, last := inputs[..n], inputs[n];
      EveryFrameIsSpoken(c, before);
      EveryRunIsSound(c, before);
      StepSpeaks(c, Run(c, before).m, last);
      forall e | e in Run(c, inputs).log && e.note.FrameSent?
        ensures SpokenOnRun(c, inputs, e)
      {
        if e in Run(c, before).log {
          var j :| 0 <= j < n && SpokenIn(c, Run(c, before[..j]).m, e);
          assert before[..j] == inputs[..j];
        } else {
          assert SpokenIn(c, Run(c, inputs[..n]).m, e);
        }
      }
    }
  }

  // ---------------------------------------------------------------------------
  // Answers.

  predicate Watching(s: Slot) {
    s.owner.active && s.owner.purpose == Preview && s.cleanup.pending.None? && M.Active(s.monitor.state)
  }

  /** A keep-alive of the station's is answered at once; the answer to one of ours is not. */
  lemma KeepAlivesAreAnswered(s: Slot, f: Frame, now: u64, o: Oracle)
    requires Watching(s) && s.monitor.lastNow <= now && o(ReplySent)
    requires M.FromStation(s.monitor, f, s.owner.ipv4) && f.payload == [] && (f.opcode == 0x51 || f.opcode == 0x52)
    ensures var (change, code) := ControlReceived(s, s.monitor.peer.local, f, s.owner.ipv4, now, o);
            && code == Done && !change.released && change.slot.monitor.counts.misses == 0
            && change.notes ==
               if f.opcode == 0x51 then
                 [FrameSent(s.monitor.generation, now,
                            Frames.Frame(s.owner.station, s.monitor.peer.local, 0x03, 0x52, []), s.owner.ipv4)]
               else []
  {
  }

  /** A hang-up of the station's is answered before anything else is made of it, unless it
      only repeats one that was final. */
  lemma HangupsAreAnswered(s: Slot, f: Frame, now: u64, o: Oracle)
    requires Watching(s) && s.monitor.lastNow <= now <= U64_MAX - M.PEER_RETRY_DELAY_MS && o(ReplySent)
    requires M.FromStation(s.monitor, f, s.owner.ipv4) && f.opcode == 0x02 && (f.payload == [0] || f.payload == [1])
    requires f.payload == [1] ==> !s.monitor.flags.peerStopSeen
    ensures var notes := ControlReceived(s, s.monitor.peer.local, f, s.owner.ipv4, now, o).0.notes;
            && 0 < |notes|
            && notes[0] == FrameSent(s.monitor.generation, now,
                                     Frames.Frame(s.owner.station, s.monitor.peer.local, 0x03, 0x82, []), s.owner.ipv4)
  {
    hide TakeRetry, RetryFinished, ReleasedFailed;
    var reply := M.Received(s.monitor, f, s.owner.ipv4, now);
    assert reply.accepted && reply.report.hangupReply && !reply.report.keepaliveReply && !reply.report.confirmed;
    var next := s.(monitor := reply.m);
    var told := Replies(s, s.monitor.peer.local, reply.report, now) + [Disturbed(PeerHangup)];
    RetryMoves(next, told, o);
  }
}
