/** What becomes of media sessions: frames and pictures that reach them, stops and releases
    that empty their slots, and previews whose pictures stay away. */
module MediaCourses {
  import opened Words
  import opened MediaSessions
  import opened MediaManagers
  import opened MediaSoundness
  import MediaAdmissions
  import MonitorTalks
  import Frames
  import M = Monitors

  // ---------------------------------------------------------------------------
  // Stops.

  predicate IsHangup(s: Slot, n: Note) {
    n.FrameSent? && n.frame == Frames.Frame(s.monitor.peer.station, s.monitor.peer.local, 0x03, 0x02, [0])
    && n.ipv4 == s.owner.ipv4
  }

  /** A session told to stop while its monitor is at work, and that may still say so. */
  predicate CanStop(s: Slot, now: u64) {
    && s.owner.active && M.Active(s.monitor.state) && s.monitor.generation == s.mediaGeneration != 0
    && s.monitor.lastNow <= now <= U64_MAX - 4000
  }

  /** The stop command hangs up at once, unless an outgoing call speaks for the session; the
      slot waits for the answer, and the code says what went wrong. */
  lemma StopsAreSaid(s: Slot, now: u64, o: Oracle)
    requires CanStop(s, now)
    ensures var (change, code) := StoppedByCommand(s, now, o);
            var said := !s.handoff.out && o(StopSent);
            && !change.released && change.slot.state == Stopping && change.slot.monitor.state == M.Stopping
            && change.slot.monitor.flags.stopSent && !change.slot.monitor.flags.retryAfterStop
            && change.slot.monitor.times.nextAction == now + 1000 && change.slot.monitor.peer == s.monitor.peer
            && !change.slot.stream.running && change.slot.stream.publication == 0 && !change.slot.stream.viewer
            && |change.notes| == (if said then 2 else 1) && (said ==> IsHangup(s, change.notes[1]))
            && code == (if !o(EncoderStops) then EncoderFault else if !s.handoff.out && !o(StopSent) then Trouble else Done)
  {
  }

  /** A slot whose stop has been said. */
  predicate HasHungUp(s: Slot) {
    && s.owner.active && s.state == Stopping && s.monitor.state == M.Stopping && s.cleanup.pending.None?
    && s.monitor.flags.stopSent && !s.monitor.flags.retryAfterStop
  }

  /** The station's answer then empties the slot, once its encoder has stopped. */
  lemma AnswersEmptyTheSlot(s: Slot, f: Frame, now: u64, o: Oracle)
    requires HasHungUp(s) && s.monitor.lastNow <= now && o(EndStops)
    requires M.FromStation(s.monitor, f, s.owner.ipv4) && f.opcode == 0x82 && f.payload == []
    ensures ControlReceived(s, s.monitor.peer.local, f, s.owner.ipv4, now, o) == (Change(BLANK, true, false, []), Done)
  {
    var reply := M.Received(s.monitor, f, s.owner.ipv4, now);
    assert reply.accepted && reply.report == M.QUIET.(stopped := true);
    assert Replies(s, s.monitor.peer.local, reply.report, now) == [];
    var nothing: seq<Note> := [];
    assert nothing + [] == nothing;
  }

  /** So does a second without an answer, at the next tick. */
  lemma SilenceEmptiesTheSlot(s: Slot, now: u64, o: Oracle)
    requires HasHungUp(s) && s.monitor.lastNow <= now && s.monitor.times.nextAction <= now && o(EndStops)
    requires !s.monitor.flags.retryReady
    ensures Ticked(s, now, o) == Change(BLANK, true, false, [])
  {
    var moved := TickMonitor(s, now, o);
    assert moved.slot.monitor.state == M.Idle && moved.notes == [];
    assert TickRetry(TickStopping(moved.slot), o) == Unchanged(moved.slot);
    assert TickEnded(moved.slot, now, o) == Change(BLANK, true, false, []);
  }

  /** The stop and viewer commands reach the station's session of the given generation, as long
      as no release of it is pending, and nothing else. */
  lemma CommandsAreAnswered(c: Config, m: Manager, st: Station, command: Command, generation: u64, now: u64, o: Oracle)
    requires Sound(c, m) && MediaAdmissions.Configured(c, st)
    ensures var r := Commanded(c, m, command, st.id, generation, now, o);
            var enabled := c.enabled && st.enabled;
            && (!enabled ==> r == Answer(m, StationDisabled))
            && (enabled && (forall k :: 0 <= k < |m.slots| && m.slots[k].owner.generation == generation ==>
                              !MediaAdmissions.IsHeld(m.slots[k], st.id)) ==>
                  r == Answer(m, GenerationMismatch))
            && (forall k :: enabled && 0 <= k < |m.slots| && MediaAdmissions.IsHeld(m.slots[k], st.id)
                            && m.slots[k].owner.generation == generation ==>
                  Reaches(m, k, command, now, o, r))
  {
    hide ActiveCount, Search, StationNamed, StoppedByCommand, ViewerSet;
    MediaAdmissions.ConfiguredIsNamed(c, st);
    MediaAdmissions.HeldIsFound(c, m, st.id);
  }

  /** The command is carried out on slot `k`, or refused while a release of it is pending. */
  predicate Reaches(m: Manager, k: nat, command: Command, now: u64, o: Oracle, r: Outcome)
    requires k < |m.slots|
  {
    if m.slots[k].cleanup.pending.Some? then r == Answer(m, EncoderFault)
    else if command.View? then r.code == Done && r.m == m.(slots := m.slots[k := ViewerSet(m.slots[k], command.watched)])
    else var (change, code) := StoppedByCommand(m.slots[k], now, o); r == Settled(m, k, change, code)
  }

  // ---------------------------------------------------------------------------
  // Releases.

  predicate IsRelease(op: Operation) {
    IncomingRelease(op) || OutgoingRelease(op)
  }

  /** A release that may be asked for empties the slot when the encoder stops; otherwise it is
      remembered, and due again a tenth of a second later. */
  lemma ReleasesAreDone(c: Config, m: Manager, k: nat, st: Station, op: Operation, control: u64, now: u64, route: u32,
                        o: Oracle)
    requires k < |m.slots| && m.active > 0 && IsRelease(op) && m.slots[k].monitor.lastNow <= now
    requires Entitled(m.slots[k], op, control) == Done
    requires m.slots[k].cleanup.pending.None? || (m.slots[k].cleanup.pending == Some(op) && m.slots[k].cleanup.retryAt <= now)
    ensures var r := OperatedAt(c, m, k, st, op, control, now, route, o);
            if o(EncoderStops) then r == Answer(Manager(m.slots[k := BLANK], m.active - 1, m.next), Done)
            else
              && r.code == EncoderFault && r.m.active == m.active && r.m.next == m.next
              && r.m.slots == m.slots[k := r.m.slots[k]] && r.m.slots[k].owner == m.slots[k].owner
              && r.m.slots[k].cleanup == Cleanup(Some(op), Min(now + 100, U64_MAX))
              && !r.m.slots[k].stream.running && r.m.slots[k].handoff == m.slots[k].handoff
  {
    hide Checked;
    assert Told(m.slots[k].owner.generation, []) == [];
  }

  /** Who may ask: the runtime that owns the call, under the call's own generation. */
  lemma ReleasesNeedTheirOwner(s: Slot, op: Operation, control: u64)
    requires IsRelease(op)
    ensures Entitled(s, op, control) == Done <==>
            && control == s.handoff.callGeneration
            && (if IncomingRelease(op) then s.owner.purpose == Call && !s.handoff.out && control != 0 else s.handoff.out)
  {
  }

  /** What the control side may ask of a session handed over to it: to bind the call, to note
      that its command went out, and, until then, to give the preview back. Whatever is refused
      changes nothing. */
  lemma HandoffsAreAnswered(c: Config, m: Manager, k: nat, st: Station, op: Operation, control: u64, now: u64,
                            route: u32, o: Oracle)
    requires k < |m.slots| && (op == Rollback || op == MarkSent || op == BindControl)
    ensures var s := m.slots[k];
            var r := OperatedAt(c, m, k, st, op, control, now, route, o);
            var call := s.handoff.callGeneration;
            var mine := s.handoff.out && (control == call || (op == BindControl && call == 0));
            && (r.code == Done <==>
                  && s.monitor.lastNow <= now && (s.cleanup.pending.None? || s.cleanup.pending == Some(op)) && mine
                  && if op == Rollback then !s.handoff.commandSent else control != 0)
            && (r.code != Done ==> r.m == m)
            && (r.code == Done && op == MarkSent ==> r.m.slots == m.slots[k := s.(handoff := s.handoff.(commandSent := true))])
            && (r.code == Done && op == BindControl ==>
                  r.m.slots == m.slots[k := s.(handoff := s.handoff.(callGeneration := control))])
            && (r.code == Done && op == Rollback ==> r.m.slots == m.slots[k := RolledBack(s)])
            && r.m.active == m.active && r.m.next == m.next
  {
    hide Checked;
  }

  /** A remembered release is tried again by the first tick that is due, and until then the
      slot is left alone. */
  lemma ReleasesAreRetried(c: Config, m: Manager, k: nat, op: Operation, now: u64, o: Oracle)
    requires Sound(c, m) && k < |m.slots| && m.slots[k].owner.active && m.slots[k].cleanup.pending == Some(op)
    requires IsRelease(op) && Entitled(m.slots[k], op, m.slots[k].handoff.callGeneration) == Done
    requires m.slots[k].monitor.lastNow <= now && StationNamed(c.stations, m.slots[k].owner.id).Some?
    ensures var r := TickAt(c, m, k, now, o);
            if now < m.slots[k].cleanup.retryAt then r == Answer(m, Done)
            else if o(EncoderStops) then r == Answer(Manager(m.slots[k := BLANK], m.active - 1, m.next), Done)
            else
              && r.code == Trouble && r.m.active == m.active
              && r.m.slots[k].cleanup == Cleanup(Some(op), Min(now + 100, U64_MAX))
  {
    hide OperatedAt, Entitled, StationNamed, Search, ActiveCount, Tidy, AllApart, Bindable, AllPeered;
    var s := m.slots[k];
    SomeActive(m.slots, k);
    OwnSlotIsFound(c, m, k);
    if s.cleanup.retryAt <= now {
      ReleasesAreDone(c, m, k, StationNamed(c.stations, s.owner.id).value, op, s.handoff.callGeneration, now, 0, o);
    }
  }

  lemma SomeActive(slots: seq<Slot>, k: nat)
    requires k < |slots| && slots[k].owner.active
    ensures ActiveCount(slots) > 0
  {
    CountOfUpdate(slots, k, BLANK);
  }

  lemma OwnSlotIsFound(c: Config, m: Manager, k: nat)
    requires Sound(c, m) && k < |m.slots| && m.slots[k].owner.active
    ensures Search(m.slots, Named(m.slots[k].owner.id)) == k
  {
    hide ActiveCount, Search;
    var j := Search(m.slots, Named(m.slots[k].owner.id));
    assert Hits(Named(m.slots[k].owner.id), m.slots[k], k);
    assert j < k ==> Apart(m.slots[j].owner, m.slots[k].owner);
  }

  // ---------------------------------------------------------------------------
  // Frames and pictures find their session.

  predicate IsOf(s: Slot, station: Address, ipv4: u32) {
    s.owner.active && s.owner.station == station && s.owner.ipv4 == ipv4
  }

  /** The first of them. */
  predicate IsFirstOf(slots: seq<Slot>, k: nat, station: Address, ipv4: u32) {
    k < |slots| && IsOf(slots[k], station, ipv4) && forall j :: 0 <= j < k ==> !IsOf(slots[j], station, ipv4)
  }

  lemma SenderIsFound(slots: seq<Slot>, station: Address, ipv4: u32)
    ensures var k := Search(slots, Sender(station, ipv4));
            if k < |slots| then IsFirstOf(slots, k, station, ipv4)
            else forall j :: 0 <= j < |slots| ==> !IsOf(slots[j], station, ipv4)
  {
    hide Search;
    var k := Search(slots, Sender(station, ipv4));
    forall j | 0 <= j < k
      ensures !IsOf(slots[j], station, ipv4)
    {
      assert !Hits(Sender(station, ipv4), slots[j], j);
    }
  }

  /** A frame goes to the first session of its sender and to no other; a sender without a
      session is refused. */
  lemma FramesFindTheirSession(c: Config, m: Manager, f: Frame, ipv4: u32, now: u64, o: Oracle, k: nat)
    requires k == |m.slots| || IsFirstOf(m.slots, k, f.source, ipv4)
    requires k == |m.slots| ==> forall j :: 0 <= j < |m.slots| ==> !IsOf(m.slots[j], f.source, ipv4)
    ensures var r := Control(c, m, f, ipv4, now, o);
            if k == |m.slots| then r == Answer(m, BadRequest)
            else
              var (change, code) := ControlReceived(m.slots[k], c.local, f, ipv4, now, o);
              r.code == code && r.m.slots == m.slots[k := change.slot]
  {
    hide ControlReceived, Search;
    SenderIsFound(m.slots, f.source, ipv4);
  }

  /** A picture for a full session whose monitor admits it, with a working encoder, is shown: the
      session publishes from then on under its generation, its source is live, and the monitor
      knows. */
  lemma PicturesAreShown(s: Slot, source: Address, destination: Address, at: u64, o: Oracle)
    requires s.owner.active && !s.preparationOnly && s.cleanup.pending.None? && s.state != Failed
    requires s.mediaGeneration == s.monitor.generation != 0 && s.owner.generation != 0
    requires M.Admitted(s.monitor, source, destination, s.owner.ipv4, s.mediaGeneration, at).Some?
    requires o(CredentialsLoad) && o(EncoderLives)
    ensures var (change, code) := PictureReceived(s, source, destination, s.owner.ipv4, true, at, Shows, o);
            var r := change.slot;
            && code == Done && !change.released && change.notes == []
            && r.state == (if s.stream.viewer then Viewing else Publishing)
            && r.stream == Stream(if s.stream.publication == 0 then s.owner.generation else s.stream.publication, Live,
                                  s.stream.frames + 1, at, true, s.stream.viewer)
            && r.monitor.flags.mediaReady
            && r.monitor.state == (if s.monitor.state == M.Viewing then M.Viewing else M.Publishing)
            && r.owner == s.owner
  {
  }

  /** A session that only prepares an unlock takes pictures of its current attempt only, and
      without an encoder. */
  lemma PreparationsNoteTheirPicture(s: Slot, source: Address, destination: Address, valid: bool, at: u64, path: Path,
                                     o: Oracle)
    requires s.owner.active && s.preparationOnly && s.cleanup.pending.None? && s.state != Failed && s.monitor.state != M.Idle
    requires s.monitor.lastNow <= at && s.mediaGeneration != 0
    ensures var (change, code) := PictureReceived(s, source, destination, s.owner.ipv4, valid, at, path, o);
            && (code == Done <==>
                  && valid && s.monitor.counts.attempts != 0 && s.monitor.generation == s.mediaGeneration
                  && M.Admitted(s.monitor, source, destination, s.owner.ipv4, s.mediaGeneration, at).Some?)
            && (code == Done ==>
                  && change.slot.stream == s.stream.(frames := s.stream.frames + 1, lastFrame := at, source := Live)
                  && change.slot.monitor.flags.mediaReady && change.notes == [])
            && (code != Done ==> change == Unchanged(s))
  {
  }

  // ---------------------------------------------------------------------------
  // Pictures that stay away.

  /** Half a minute without a picture, on a stream that has shown some. */
  predicate IsStalled(s: Slot, now: u64) {
    && (s.state == Publishing || s.state == Viewing) && s.stream.source != Reconnecting && s.stream.frames > 0
    && now as int >= s.stream.lastFrame as int + 30000
  }

  lemma StallsAreNoticed(s: Slot, now: u64, o: Oracle)
    requires s.owner.active
    ensures TickShown(s, now, o) ==
            if !IsStalled(s, now) then TickStream(s, now, o)
            else
              var stalled := TickStall(s, now, o);
              if stalled.slot.owner.active then Then(stalled, TickStream(stalled.slot, now, o)) else stalled
  {
    hide TickStall, TickStream;
  }

  /** A preview whose pictures stay away hangs up, to ask again; what it publishes goes on with
      the last picture. */
  lemma StalledPreviewsAskAgain(s: Slot, now: u64, o: Oracle)
    requires s.owner.active && s.owner.purpose == Preview && s.stream.source != Reconnecting
    requires s.monitor.policy.persistent && M.Active(s.monitor.state) && s.monitor.lastNow <= now
    requires s.stream.publication != 0 ==> s.monitor.generation != 0 && o(StallQueueResets)
    ensures var r := TickStall(s, now, o);
            && !r.failed && !r.released && r.notes == [Disturbed(Retry)]
            && MonitorTalks.HangupDue(r.slot.monitor) && r.slot.monitor.flags.retryAfterStop
            && r.slot.state == (if s.stream.publication == 0 then Stopping
                                else if s.stream.viewer then Viewing else Publishing)
            && (s.stream.publication != 0 ==>
                  r.slot.stream.source == Reconnecting && r.slot.stream.publication == s.stream.publication)
  {
  }

  /** One whose monitor can no longer ask is given up. */
  lemma StalledPreviewsAreGivenUp(s: Slot, now: u64, o: Oracle)
    requires s.owner.active && s.owner.purpose == Preview
    requires !s.monitor.policy.persistent || !M.Active(s.monitor.state) || now < s.monitor.lastNow
    ensures var r := TickStall(s, now, o);
            r.failed && if o(StallStops) then r.released && r.slot == BLANK
                        else !r.released && r.slot.state == Failed && !r.slot.stream.running
  {
  }

  /** The keep-alives and hang-ups of a call are the call control's affair. */
  lemma CallsLeaveTheirControl(s: Slot, f: Frame, ipv4: u32, now: u64, o: Oracle)
    requires s.owner.purpose == Call && f.family == 3 && f.opcode in {0x51, 0x02} && s.cleanup.pending.None?
    ensures ControlReceived(s, f.destination, f, ipv4, now, o) == (Unchanged(s), BadRequest)
  {
  }

  /** A call whose pictures stay away hangs up for good, and its slot is emptied. */
  lemma StalledCallsEnd(s: Slot, now: u64, o: Oracle)
    requires CanStop(s, now) && s.owner.purpose == Call && !s.handoff.out && o(StallStopSent) && o(StallStops)
    ensures var r := TickStall(s, now, o);
            && r.released && r.slot == BLANK && !r.failed
            && |r.notes| == 2 && r.notes[0] == Disturbed(LocalStop) && IsHangup(s, r.notes[1])
  {
  }

  /** Once the monitor has begun its next attempt, so does the session: pictures of the new
      generation are its pictures, and what it publishes stays. */
  lemma SessionsFollowTheirMonitor(s: Slot, ok: bool)
    requires s.owner.active && s.owner.purpose == Preview && s.monitor.flags.retryReady && s.monitor.generation != 0
    ensures var r := RetryFinished(s, ok);
            && (r.failed <==> !ok) && r.notes == [] && !r.released
            && (ok ==>
                  && r.slot.mediaGeneration == r.slot.monitor.generation == s.monitor.generation
                  && !r.slot.monitor.flags.retryReady && r.slot.stream.publication == s.stream.publication
                  && r.slot.stream.viewer == s.stream.viewer
                  && r.slot.state == (if s.stream.publication == 0 then Requesting
                                      else if s.stream.viewer then Viewing else Publishing))
            && (!ok ==> r.slot.state == Failed)
  {
  }

  // ---------------------------------------------------------------------------
  // Encoders that die, and viewers.

  /** The session is where its monitor is. */
  predicate StandsLike(state: SlotState, monitor: M.MonitorState) {
    && (state == Requesting <==> monitor == M.Requesting)
    && (state == AwaitingVideo <==> monitor == M.AwaitingVideo)
    && (state == Viewing <==> monitor == M.Viewing)
    && (state == Stopping <==> monitor == M.Stopping)
  }

  /** An encoder that has exited is replaced for a preview when that works; otherwise the
      session has failed. */
  lemma DeadEncodersAreReplaced(s: Slot, o: Oracle)
    requires s.owner.active && s.stream.running && s.state != Failed && !o(EncoderLives)
    ensures var r := TickPipeline(s, o);
            if s.owner.purpose == Preview && o(EncoderRecovers) then
              && !r.released && !r.failed && r.notes == [] && r.slot.state != Failed
              && r.slot.stream == Stream(0, Waiting, 0, 0, false, s.stream.viewer) && r.slot.monitor == s.monitor
              && (if s.stream.viewer then r.slot.state == Viewing else StandsLike(r.slot.state, s.monitor.state))
            else if o(TickStops) then r == Change(BLANK, true, !o(EncoderTicks), [])
            else r.slot.state == Failed && !r.released && !r.slot.stream.running && r.slot.stream.publication == 0
  {
    var nothing: seq<Note> := [];
    assert nothing + [] == nothing;
  }

  lemma LivingEncodersAreLeft(s: Slot, o: Oracle)
    requires s.owner.active && s.state != Failed && (!s.stream.running || o(EncoderLives))
    ensures TickPipeline(s, o) == Unchanged(s)
  {
  }

  /** Who watches decides whether a session that publishes is viewed; watching makes a session
      that only prepared an unlock a full one. */
  lemma ViewersAreNoted(s: Slot, watched: bool)
    ensures var r := ViewerSet(s, watched);
            && r.stream == s.stream.(viewer := watched) && r.monitor == s.monitor && r.owner == s.owner
            && r.preparationOnly == (s.preparationOnly && !watched)
            && (s.stream.publication != 0 ==> r.state == if watched then Viewing else Publishing)
            && (s.stream.publication == 0 && watched ==> r.state == Viewing)
            && (s.stream.publication == 0 && !watched && s.state != Viewing ==> r.state == s.state)
  {
  }

  // ---------------------------------------------------------------------------
  // What a new session does first.

  /** A new call watches for the caller's video, which comes unasked, for the configured time;
      without a local address nothing is watched for. */
  predicate Watches(c: Config, s: Slot, timeout: nat, now: u64) {
    && s.state == Requesting && s.mediaGeneration == s.owner.generation && s.stream == NO_STREAM && !s.preparationOnly
    && (c.local[0] != 0 ==>
          && s.monitor.state == M.AwaitingVideo && s.monitor.generation == s.owner.generation
          && s.monitor.peer == M.Peer(c.local, s.owner.station, s.owner.ipv4)
          && s.monitor.times.frameDeadline == now + timeout && !s.monitor.policy.persistent)
  }

  lemma NewCallsWatch(c: Config, st: Station, generation: u64, call: u64, now: u64, route: u32, o: Oracle)
    requires CallPrepared(c, st, generation, call, now, route, o).0.Some?
    ensures var s := CallPrepared(c, st, generation, call, now, route, o).0.value;
            Watches(c, s, if c.seconds == 0 then 8000 else c.seconds as int * 1000, now)
  {
  }

  /** So does a preview that becomes the call. */
  lemma UpgradedCallsWatch(c: Config, m: Manager, k: nat, call: u64, now: u64, o: Oracle)
    requires Sound(c, m) && k < |m.slots| && m.slots[k].owner.active && m.next < U64_MAX && call != 0
    requires IncomingHere(c, m, k, call, now, o).code == Done
    ensures var t := IncomingHere(c, m, k, call, now, o).m.slots[k];
            && Watches(c, t, if c.seconds == 0 then M.FrameTimeout(m.slots[k].monitor) else c.seconds as int * 1000, now)
            && !t.confirmation.current && !t.handoff.out && t.handoff.callGeneration == call
  {
    hide ActiveCount, Tidy, AllApart;
    BindCannotFail(c, m, k, call, now, o);
  }

  /** A new preview asks for video as soon as the station may be asked, keeps asking, and unless
      it only prepares an unlock is patient with a busy station. */
  lemma NewPreviewsAsk(c: Config, st: Station, generation: u64, light: bool, now: u64, cooldown: u64, ipv4: u32,
                       o: Oracle)
    requires PreviewPrepared(c, st, generation, light, now, cooldown, ipv4, o).Some? && c.local[0] != 0
    ensures var s := PreviewPrepared(c, st, generation, light, now, cooldown, ipv4, o).value;
            && s.preparationOnly == light && s.state == Requesting && s.mediaGeneration == generation
            && s.monitor.policy.persistent && s.monitor.policy.grace == !light
            && s.monitor.policy.frameTimeout == (if c.seconds == 0 then 8000 else c.seconds as int * 1000)
            && MonitorTalks.AsksFrom(s.monitor, Max(now, cooldown), generation)
            && s.monitor.peer == M.Peer(c.local, st.address, ipv4)
  {
  }

  // ---------------------------------------------------------------------------
  // Handing over, and back.

  /** A preview handed to an outgoing call and taken back is the preview it was, but that it is
      no longer a mere preparation. */
  lemma RollbackUndoes(s: Slot, call: u64, now: u64)
    requires Promoted(s, call, now).Some?
    ensures var out := Promoted(s, call, now).value;
            && out.owner == s.owner.(purpose := Call) && out.handoff.out && !out.monitor.policy.persistent
            && RolledBack(out) == s.(preparationOnly := false, handoff := NO_HANDOFF)
  {
  }

  /** Only a confirmed preview is handed over, and only under the station's own generation. */
  lemma OnlyConfirmedIsHandedOver(s: Slot, call: u64, now: u64)
    ensures Promoted(s, call, now).Some? <==>
            s.owner.active && s.owner.purpose == Preview && s.confirmation.current && s.monitor.lastNow <= now
  {
  }

  // ---------------------------------------------------------------------------
  // Hang-ups, failures and what is left unsaid.

  /** After the station's final hang-up a preview goes on with its next attempt: nothing of the
      old one counts, what is published stays. */
  lemma HangupsRestartSessions(s: Slot, f: Frame, now: u64, o: Oracle)
    requires s.owner.active && s.owner.purpose == Preview && s.cleanup.pending.None? && M.Active(s.monitor.state)
    requires s.monitor.lastNow <= now <= U64_MAX - 4000 && !s.monitor.flags.peerStopSeen
    requires s.monitor.policy.persistent && s.monitor.generation < U64_MAX
    requires M.FromStation(s.monitor, f, s.owner.ipv4) && f.opcode == 0x02 && f.payload == [1]
    requires o(ReplySent) && o(QueueResets) && o(PipelineStops)
    ensures var (change, code) := ControlReceived(s, s.monitor.peer.local, f, s.owner.ipv4, now, o);
            var r := change.slot;
            && code == Done && !change.released
            && r.mediaGeneration == r.monitor.generation == s.monitor.generation + 1 && !r.confirmation.current
            && r.stream.publication == s.stream.publication && r.stream.viewer == s.stream.viewer
            && r.state == (if s.stream.publication == 0 then Requesting else if s.stream.viewer then Viewing else Publishing)
  {
    hide Replies;
  }

  /** A call whose video does not come in time is given up, and its slot emptied, by the first
      tick that sees it. */
  lemma LateCallsEnd(s: Slot, now: u64, o: Oracle)
    requires s.owner.active && s.owner.purpose == Call && s.monitor.state == M.AwaitingVideo && !s.monitor.policy.persistent
    requires !s.monitor.flags.mediaReady && 0 < s.monitor.times.frameDeadline <= now && s.monitor.lastNow <= now && o(EndStops)
    ensures Ticked(s, now, o) == Change(BLANK, true, false, [])
  {
    var moved := TickMonitor(s, now, o);
    assert moved.slot.monitor.state == M.Failed && moved.notes == [] && !moved.failed && !moved.released;
    assert TickRetry(TickStopping(moved.slot), o) == Unchanged(moved.slot);
    assert TickEnded(moved.slot, now, o) == Change(BLANK, true, false, []);
  }

  /** A preview in the same place hangs up, to ask again. */
  lemma LatePreviewsHangUp(s: Slot, now: u64, o: Oracle)
    requires s.owner.active && s.owner.purpose == Preview && s.monitor.state == M.AwaitingVideo && s.monitor.policy.persistent
    requires !s.monitor.flags.mediaReady && 0 < s.monitor.times.frameDeadline <= now && s.monitor.lastNow <= now
    ensures var moved := TickMonitor(s, now, o);
            && moved.notes == [Disturbed(Retry)] && !moved.failed && !moved.released
            && MonitorTalks.HangupDue(moved.slot.monitor) && moved.slot.monitor.flags.retryAfterStop
            && (s.stream.publication == 0 ==> TickStopping(moved.slot).state == Stopping)
            && (s.stream.publication != 0 ==> TickStopping(moved.slot) == moved.slot)
  {
  }

  /** A failed session is released by the next tick, again and again until its encoder stops. */
  lemma FailedSessionsAreReleased(c: Config, m: Manager, k: nat, now: u64, o: Oracle)
    requires k < |m.slots| && m.active > 0 && m.slots[k].owner.active && m.slots[k].cleanup.pending.None?
    requires m.slots[k].state == Failed
    ensures var r := TickAt(c, m, k, now, o);
            if o(EndStops) then r == Answer(Manager(m.slots[k := BLANK], m.active - 1, m.next), Done)
            else r.code == Trouble && r.m.active == m.active && r.m.slots[k].state == Failed && r.m.slots[k].owner == m.slots[k].owner
  {
    assert Told(m.slots[k].owner.generation, []) == [];
  }

  predicate Silent(notes: seq<Note>) {
    forall i :: 0 <= i < |notes| ==> !notes[i].FrameSent?
  }

  /** While an outgoing call speaks for a session, its monitor says nothing of its own accord. */
  lemma HandedOverIsSilent(s: Slot, now: u64, sent: bool, o: Oracle)
    requires s.handoff.out
    ensures StopEmitted(s, now, sent) == Unchanged(s)
    ensures Silent(TickMonitor(s, now, o).notes) && Silent(StoppedByCommand(s, now, o).0.notes)
  {
  }

  /** A picture that cannot be frozen while its source is away ends the session; one that can,
      or that nobody needs, does not. */
  lemma FrozenPicturesGoOn(s: Slot, now: u64, o: Oracle)
    requires s.owner.active && s.stream.publication != 0
    ensures var r := TickReconnect(s, now, o);
            var frozen := s.owner.purpose == Preview && s.stream.running;
            && (o(FrameRateSet) && (!frozen || o(ReconnectWorks)) ==> r == Unchanged(s))
            && (o(FrameRateSet) && frozen && !o(ReconnectWorks) && o(ReconnectRecovers) ==>
                  !r.failed && !r.released && r.slot.owner == s.owner && r.slot.monitor == s.monitor && r.slot.state != Failed)
            && (!o(FrameRateSet) || (frozen && !o(ReconnectWorks) && !o(ReconnectRecovers)) ==>
                  r.failed && (if o(ReconnectStops) then r.released && r.slot == BLANK
                               else !r.released && r.slot.state == Failed && !r.slot.stream.running))
  {
    hide M.Stopped, M.Stepped;
  }

  /** A picture goes to the first session of the station it comes from, and is for us. */
  lemma PicturesFindTheirSession(c: Config, m: Manager, source: Address, destination: Address, ipv4: u32, valid: bool,
                                 at: u64, path: Path, o: Oracle, k: nat)
    requires k <= |m.slots|
    requires k < |m.slots| ==> m.slots[k].owner.active && m.slots[k].owner.station == source
    requires forall j :: 0 <= j < k ==> !(m.slots[j].owner.active && m.slots[j].owner.station == source)
    ensures var r := Picture(c, m, source, destination, ipv4, valid, at, path, o);
            if ipv4 == 0 || destination != c.local || k == |m.slots| then r == Answer(m, BadRequest)
            else
              var (change, code) := PictureReceived(m.slots[k], source, destination, ipv4, valid, at, path, o);
              r.code == code && r.m.slots == m.slots[k := change.slot]
  {
    hide PictureReceived, Search;
    var j := Search(m.slots, Seen(source));
    if k < |m.slots| {
      assert Hits(Seen(source), m.slots[k], k);
    }
    if j < |m.slots| {
      assert Hits(Seen(source), m.slots[j], j);
    }
  }

  predicate Names(m: Manager, id: string, generation: u64) {
    exists k :: 0 <= k < |m.slots| && m.slots[k].owner.active && m.slots[k].owner.id == id
                && m.slots[k].owner.generation == generation
  }

  lemma FoundIsNamed(m: Manager, id: string)
    ensures var k := Search(m.slots, Named(id)); k < |m.slots| ==> Names(m, id, m.slots[k].owner.generation)
  {
    hide Search;
    var k := Search(m.slots, Named(id));
    if k < |m.slots| {
      assert Hits(Named(id), m.slots[k], k);
    }
  }

  /** Whoever starts a preview of a station that has one finds it as it is; an unlock
      preparation becomes a preview in full, and from then on is patient with a busy station. */
  lemma PreparationsAreAdopted(c: Config, m: Manager, st: Station, light: bool, now: u64, cooldown: u64, route: u32,
                               o: Oracle, k: nat)
    requires Sound(c, m) && k < |m.slots| && MediaAdmissions.IsHeld(m.slots[k], st.id)
    ensures var r, s := StartPreview(c, m, st, light, now, cooldown, route, o), m.slots[k];
            if light || !s.preparationOnly then r.m == m
            else
              && r.m == m.(slots := m.slots[k := r.m.slots[k]]) && r.code == Done
              && r.m.slots[k].owner == s.owner && r.m.slots[k].stream == s.stream && r.m.slots[k].confirmation == s.confirmation
              && !r.m.slots[k].preparationOnly && r.m.slots[k].monitor.policy.grace
              && r.m.slots[k].monitor == s.monitor.(policy := r.m.slots[k].monitor.policy)
              && r.m.slots[k].monitor.policy.persistent == s.monitor.policy.persistent
              && r.log == Told(s.owner.generation, [Disturbed(TakenOver)])
  {
    hide ActiveCount, Search, PreviewPrepared;
    MediaAdmissions.HeldIsFound(c, m, st.id);
  }

  lemma PreviewNamesItsSession(c: Config, m: Manager, st: Station, light: bool, now: u64, cooldown: u64, route: u32,
                               o: Oracle)
    ensures var r := StartPreview(c, m, st, light, now, cooldown, route, o);
            r.code == Done ==> Names(r.m, st.id, r.generation)
  {
    hide Search, PreviewPrepared, MemoryShort, RouteOf;
    var k, free := Search(m.slots, Named(st.id)), Search(m.slots, Free);
    FoundIsNamed(m, st.id);
    var r := StartPreview(c, m, st, light, now, cooldown, route, o);
    if k < |m.slots| {
      assert r.code == Done ==> r.m.slots[k].owner == m.slots[k].owner;
    } else if r.code == Done {
      PreviewFits(c, st, m.next + 1, light, now, cooldown, RouteOf(st, route, o), o);
      assert r.m.slots[free].owner.id == st.id && r.m.slots[free].owner.generation == r.generation;
    }
  }

  /** A start that succeeds names the station's session. */
  lemma StartsNameTheirSession(c: Config, m: Manager, id: string, purpose: Purpose, light: bool, now: u64,
                               cooldown: u64, route: u32, o: Oracle)
    ensures var r := Start(c, m, id, purpose, light, now, cooldown, route, o);
            r.code == Done ==> Names(r.m, id, r.generation)
  {
    hide Search, StartPreview, Incoming, StationNamed, Names;
    NamedHasName(c.stations, id);
    var station := StationNamed(c.stations, id);
    FoundIsNamed(m, id);
    if m.next < U64_MAX {
      FoundIsNamed(Incoming(c, m, id, m.next + 1, now, route, o).m, id);
    }
    if station.Some? {
      PreviewNamesItsSession(c, m, station.value, light, now, cooldown, route, o);
    }
  }
}
