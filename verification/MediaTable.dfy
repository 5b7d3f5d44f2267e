/** The manager in place: an array of slots, searched by loops and changed one slot at a
    time (src/media_session_manager.c). */
module MediaTables {
  import opened Words
  import opened MediaSessions
  import opened MediaManagers
  import opened MediaSoundness
  import M = Monitors

  lemma {:induction false} EnabledOneMore(stations: seq<Station>, i: nat)
    requires i < |stations|
    ensures EnabledCount(stations[..i + 1]) == EnabledCount(stations[..i]) + if stations[i].enabled then 1 else 0
  {
    assert stations[..i + 1][..i] == stations[..i];
  }

  method CountEnabled(stations: seq<Station>) returns (n: nat)
    ensures n == EnabledCount(stations)
  {
    n := 0;
    for i := 0 to |stations|
      invariant n == EnabledCount(stations[..i])
    {
      EnabledOneMore(stations, i);
      if stations[i].enabled {
        n := n + 1;
      }
    }
    assert stations[..|stations|] == stations;
  }

  /** `df_media_module_config_v3_validate`: what a manager accepts to be set up with. */
  method ValidateConfig(c: Config) returns (ok: bool)
    ensures ok == Valid(c)
  {
    for i := 0 to |c.stations|
      invariant forall j :: 0 <= j < i ==> 0 < |c.stations[j].id| < ID_SIZE && c.stations[j].stream != ""
      invariant forall j, k :: 0 <= j < k < i ==> c.stations[j].id != c.stations[k].id
    {
      if c.stations[i].id == "" || |c.stations[i].id| >= ID_SIZE || c.stations[i].stream == "" {
        return false;
      }
      for prior := 0 to i
        invariant forall j :: 0 <= j < prior ==> c.stations[j].id != c.stations[i].id
      {
        if c.stations[i].id == c.stations[prior].id {
          return false;
        }
      }
    }
    if !c.enabled {
      return true;
    }
    var enabled := CountEnabled(c.stations);
    return enabled != 0 && (if c.encoders == 0 then 1 else c.encoders) <= enabled;
  }

  /** A monitor that was just stopped takes its next step at the same time. */
  lemma StoppedSteps(m: M.Monitor, generation: u64, now: u64)
    requires M.Stopped(m, generation, now).Some?
    ensures M.Stepped(M.Stopped(m, generation, now).value, now).Some?
  {
  }

  class MediaManager {
    const c: Config
    const slots: array<Slot>
    var active: int
    var next: u64

    ghost function Value(): Manager
      reads this, slots
    {
      Manager(slots[..], active, next)
    }

    constructor (config: Config)
      ensures c == config && fresh(slots)
      ensures Value() == Initial(config)
    {
      var enabled := CountEnabled(config.stations);
      var requested := if config.encoders == 0 then 1 else config.encoders;
      var capacity: nat := if config.enabled && requested < enabled then requested
                           else if config.enabled then enabled else 0;
      c := config;
      slots := new Slot[capacity](_ => BLANK);
      active := 0;
      next := 0;
      new;
      assert slots[..] == Initial(config).slots;
    }

    // -------------------------------------------------------------------------
    // Looking.

    method FindStation(id: string) returns (st: Option<Station>)
      ensures st == StationNamed(c.stations, id)
    {
      for i := 0 to |c.stations|
        invariant StationNamed(c.stations[i..], id) == StationNamed(c.stations, id)
      {
        if c.stations[i].id == id {
          return Some(c.stations[i]);
        }
        assert c.stations[i..][1..] == c.stations[i + 1..];
      }
      return None;
    }

    method Find(q: Query) returns (k: nat)
      ensures k == Search(slots[..], q) <= slots.Length
    {
      k := 0;
      while k < slots.Length
        invariant k <= slots.Length
        invariant Search(slots[..], q, k) == Search(slots[..], q)
      {
        if Hits(q, slots[k], k) {
          return;
        }
        k := k + 1;
      }
    }

    method FindOldestPreview() returns (victim: nat)
      ensures victim == OldestPreview(slots[..], slots.Length) <= slots.Length
    {
      victim := slots.Length;
      for i := 0 to slots.Length
        invariant victim == OldestPreview(slots[..], i)
        invariant victim <= slots.Length
      {
        if slots[i].owner.active && slots[i].owner.purpose == Preview {
          if victim == slots.Length || slots[i].owner.started < slots[victim].owner.started {
            victim := i;
          }
        }
      }
    }

    // -------------------------------------------------------------------------
    // Changing one slot.

    method Put(k: nat, s: Slot)
      requires k < slots.Length
      modifies slots
      ensures slots[..] == old(slots[..])[k := s]
    {
      slots[k] := s;
    }

    method Settle(k: nat, change: Change) returns (log: seq<Entry>)
      requires k < slots.Length
      modifies this, slots
      ensures Value() == Apply(old(Value()), k, change)
      ensures log == Told(old(slots[k].owner.generation), change.notes)
    {
      log := Told(slots[k].owner.generation, change.notes);
      Put(k, change.slot);
      if change.released {
        if active > 0 {
          active := active - 1;
        }
      }
    }

    // -------------------------------------------------------------------------
    // Calls.

    method PlaceCall(k: nat, st: Station, call: u64, now: u64, route: u32, o: Oracle) returns (code: Code)
      requires k < slots.Length && next < U64_MAX
      modifies this, slots
      ensures var p := CallPrepared(c, st, old(next) + 1, call, now, route, o);
              && code == p.1
              && Value() == if p.0.Some? then Manager(old(slots[..])[k := p.0.value], old(active) + 1, old(next) + 1)
                            else old(Value()).(slots := old(slots[..])[k := BLANK])
    {
      var (prepared, status) := CallPrepared(c, st, next + 1, call, now, route, o);
      if prepared.None? {
        Put(k, BLANK);
        return status;
      }
      Put(k, prepared.value);
      active := active + 1;
      next := next + 1;
      return status;
    }

    method UpgradeHere(k: nat, call: u64, now: u64, o: Oracle) returns (code: Code, log: seq<Entry>)
      requires k < slots.Length && next < U64_MAX
      modifies this, slots
      ensures Outcome(Value(), code, 0, log) == IncomingHere(c, old(Value()), k, call, now, o)
    {
      hide Upgraded, Preflight;
      log := [];
      if !Preflight(slots[k], c.local, c.seconds, now) {
        return EncoderFault, log;
      }
      var session := slots[k].owner.generation;
      var (up, status) := Upgraded(slots[k], next + 1, call, now, o);
      Put(k, up);
      if status != Done {
        return status, log;
      }
      log := Told(session, [Disturbed(TakenOver)]);
      if c.local[0] != 0 {
        var monitor := new M.PreviewMonitor.From(Timed(up.monitor, c.seconds));
        var bound := monitor.BindCall(c.local, up.owner.station, up.owner.ipv4, up.mediaGeneration, now);
        if bound != Ok {
          return EncoderFault, log;
        }
        Put(k, up.(monitor := monitor.m));
      }
      next := next + 1;
      return Done, log;
    }

    method ReplaceOldest(st: Station, call: u64, now: u64, route: u32,
                         o: Oracle) returns (code: Code, log: seq<Entry>)
      requires next < U64_MAX
      modifies this, slots
      ensures Outcome(Value(), code, 0, log) == IncomingFull(c, old(Value()), st, call, now, route, o)
    {
      hide CallPrepared, Preempted, OldestPreview;
      if c.preserve {
        return CapacityBusy, [];
      }
      var victim := FindOldestPreview();
      if victim == slots.Length {
        return CapacityBusy, [];
      }
      var (prepared, status) := CallPrepared(c, st, next + 1, call, now, route, o);
      if prepared.None? {
        return status, [];
      }
      var gone := Preempted(slots[victim], now, o);
      if gone.failed {
        log := Settle(victim, gone);
        return EncoderFault, log;
      }
      log := Told(slots[victim].owner.generation, gone.notes);
      Put(victim, prepared.value);
      next := next + 1;
      return Done, log;
    }

    method TakeCall(id: string, call: u64, now: u64, route: u32, o: Oracle) returns (code: Code, log: seq<Entry>)
      modifies this, slots
      ensures Outcome(Value(), code, 0, log) == Incoming(c, old(Value()), id, call, now, route, o)
    {
      hide Search, StationNamed, IncomingHere, IncomingFull, CallPrepared;
      log := [];
      if call == 0 {
        return BadRequest, log;
      }
      var station := FindStation(id);
      if station.None? {
        return StationNotFound, log;
      }
      if !c.enabled || !station.value.enabled {
        return StationDisabled, log;
      }
      var k := Find(Named(id));
      if k < slots.Length && slots[k].cleanup.pending.Some? {
        return CapacityBusy, log;
      }
      var other := Find(CallBut(if k < slots.Length then k else -1));
      if other < slots.Length {
        return CapacityBusy, log;
      }
      if k < slots.Length && slots[k].owner.purpose == Call {
        if call == slots[k].handoff.callGeneration {
          return Done, log;
        }
        if call < slots[k].handoff.callGeneration {
          return GenerationMismatch, log;
        }
      }
      if next == U64_MAX {
        return ResourceExhausted, log;
      }
      if k < slots.Length {
        code, log := UpgradeHere(k, call, now, o);
        return;
      }
      if active >= slots.Length {
        code, log := ReplaceOldest(station.value, call, now, route, o);
        return;
      }
      var free := Find(Free);
      if free == slots.Length {
        return CapacityBusy, log;
      }
      code := PlaceCall(free, station.value, call, now, route, o);
      PreparedFits(c, station.value, old(next) + 1, call, now, route, o);
    }

    // -------------------------------------------------------------------------
    // Previews.

    method StartCallFor(id: string, now: u64, route: u32, o: Oracle)
      returns (code: Code, generation: u64, log: seq<Entry>)
      modifies this, slots
      ensures Outcome(Value(), code, generation, log) == StartCall(c, old(Value()), id, now, route, o)
    {
      hide Search, Incoming;
      generation, log := 0, [];
      var k := Find(Named(id));
      if k < slots.Length && slots[k].owner.purpose == Call {
        return Done, slots[k].owner.generation, log;
      }
      var other := Find(CallBut(-1));
      if other < slots.Length {
        return CapacityBusy, 0, log;
      }
      if next == U64_MAX {
        return ResourceExhausted, 0, log;
      }
      code, log := TakeCall(id, next + 1, now, route, o);
      if code == Done {
        var here := Find(Named(id));
        if here == slots.Length {
          return Trouble, 0, log;
        }
        generation := slots[here].owner.generation;
      }
    }

    /** A new preview with its monitor started; without a local address the monitor stays idle. */
    method OpenPreview(st: Station, generation: u64, light: bool, now: u64, cooldown: u64, ipv4: u32, o: Oracle)
      returns (slot: Option<Slot>)
      ensures slot == PreviewPrepared(c, st, generation, light, now, cooldown, ipv4, o)
    {
      var prepared := Prepared(st.id, st.address, ipv4, Preview, now);
      var cooled := prepared.monitor.(policy := prepared.monitor.policy.(cooldownUntil := cooldown));
      var begun := Activated(prepared.(preparationOnly := light, monitor := cooled), generation);
      if (!light && !o(HookStarts)) || begun.None? {
        return None;
      }
      if c.local[0] == 0 {
        return begun;
      }
      var timed := Timed(begun.value.monitor, c.seconds);
      var monitor := new M.PreviewMonitor.From(timed.(policy := timed.policy.(persistent := true, grace := !light)));
      var started := monitor.Start(c.local, st.address, ipv4, generation, now);
      if started != Ok {
        return None;
      }
      return Some(begun.value.(monitor := monitor.m));
    }

    method StartPreviewFor(st: Station, light: bool, now: u64, cooldown: u64, route: u32, o: Oracle)
      returns (code: Code, generation: u64, log: seq<Entry>)
      modifies this, slots
      ensures Outcome(Value(), code, generation, log) == StartPreview(c, old(Value()), st, light, now, cooldown,
                                                                      route, o)
    {
      hide Search, PreviewPrepared;
      generation, log := 0, [];
      var k := Find(Named(st.id));
      if k < slots.Length {
        generation := slots[k].owner.generation;
        if light && !slots[k].preparationOnly {
          return CapacityBusy, 0, log;
        }
        if !light && slots[k].preparationOnly {
          Put(k, Adopted(slots[k]));
          log := Told(generation, [Disturbed(TakenOver)]);
        }
        return Done, generation, log;
      }
      if active >= slots.Length {
        return CapacityBusy, 0, log;
      }
      var free := Find(Free);
      if free == slots.Length {
        return CapacityBusy, 0, log;
      }
      var ipv4 := st.ipv4;
      if ipv4 == 0 {
        if o(RouteFound) {
          ipv4 := route;
        }
        if ipv4 == 0 {
          return RouteUnavailable, 0, log;
        }
      }
      if (c.memoryChecked && !o(MemoryFree)) || next == U64_MAX {
        return ResourceExhausted, 0, log;
      }
      if !NamesFit(st) {
        return BadRequest, 0, log;
      }
      var prepared := OpenPreview(st, next + 1, light, now, cooldown, ipv4, o);
      if prepared.None? {
        Put(free, BLANK);
        return EncoderFault, 0, log;
      }
      Put(free, prepared.value);
      next := next + 1;
      active := active + 1;
      return Done, next, log;
    }

    // -------------------------------------------------------------------------
    // Outgoing calls and releases.

    method OperateOn(op: Operation, id: string, generation: u64, control: u64, now: u64, route: u32, o: Oracle)
      returns (code: Code, log: seq<Entry>)
      modifies this, slots
      ensures Outcome(Value(), code, 0, log) == Operate(c, old(Value()), op, id, generation, control, now, route, o)
    {
      hide Search, StationNamed, OperatedAt;
      log := [];
      if generation == 0 {
        return BadRequest, log;
      }
      var station := FindStation(id);
      if station.None? {
        return StationNotFound, log;
      }
      var k := Find(Named(id));
      if k == slots.Length || slots[k].owner.generation != generation {
        return GenerationMismatch, log;
      }
      code, log := OperateAt(k, station.value, op, control, now, route, o);
    }

    /** The operation on the session found. */
    method OperateAt(k: nat, st: Station, op: Operation, control: u64, now: u64, route: u32, o: Oracle)
      returns (code: Code, log: seq<Entry>)
      requires k < slots.Length
      modifies this, slots
      ensures Outcome(Value(), code, 0, log) == OperatedAt(c, old(Value()), k, st, op, control, now, route, o)
    {
      hide Checked, Entitled, ReleasedOnRequest;
      log := [];
      var s := slots[k];
      if now < s.monitor.lastNow {
        return BadRequest, log;
      }
      if s.cleanup.pending.Some? && op != s.cleanup.pending.value {
        return EncoderFault, log;
      }
      var entitled := Entitled(s, op, control);
      if entitled != Done {
        return entitled, log;
      }
      if IncomingRelease(op) || OutgoingRelease(op) {
        if s.cleanup.pending.Some? && now < s.cleanup.retryAt {
          return EncoderFault, log;
        }
        log := Settle(k, ReleasedOnRequest(s, op, now, o(EncoderStops)));
        return if o(EncoderStops) then Done else EncoderFault, log;
      }
      if op == Rollback {
        if s.handoff.commandSent {
          return BadRequest, log;
        }
        Put(k, RolledBack(s));
        return Done, log;
      }
      if op == MarkSent {
        if control == 0 {
          return BadRequest, log;
        }
        Put(k, s.(handoff := s.handoff.(commandSent := true)));
        return Done, log;
      }
      if op == BindControl {
        if !s.handoff.out || control == 0 || (s.handoff.callGeneration != 0 && s.handoff.callGeneration != control) {
          return GenerationMismatch, log;
        }
        Put(k, s.(handoff := s.handoff.(callGeneration := control)));
        return Done, log;
      }
      return Checked(c, Manager(slots[..], active, next), k, st, now, route, o), log;
    }

    method HandOverCall(id: string, now: u64, route: u32, o: Oracle)
      returns (code: Code, generation: u64, log: seq<Entry>)
      modifies this, slots
      ensures Outcome(Value(), code, generation, log) == HandOver(c, old(Value()), id, now, route, o)
    {
      hide Search, Operate, Promoted;
      generation, log := 0, [];
      var k := Find(Named(id));
      if k == slots.Length {
        return PreviewUnconfirmed, 0, log;
      }
      var s := slots[k];
      CheckChangesNothing(c, Value(), id, s.owner.generation, 0, now, route, o);
      code, log := OperateOn(Check, id, s.owner.generation, 0, now, route, o);
      if code != Done {
        return code, 0, log;
      }
      if s.handoff.out {
        return Done, s.owner.generation, log;
      }
      var call := Promoted(s, 0, now);
      if call.None? {
        return PreviewUnconfirmed, 0, log;
      }
      Put(k, call.value);
      return Done, s.owner.generation, Told(s.owner.generation, [Disturbed(TakenOver)]);
    }

    // -------------------------------------------------------------------------
    // Commands, frames, pictures.

    /** An active monitor is told to stop and hangs up; any other session is emptied at once. */
    method StopSession(s: Slot, now: u64, o: Oracle) returns (change: Change, code: Code)
      ensures (change, code) == StoppedByCommand(s, now, o)
    {
      hide M.Stopped, M.Stepped;
      if !M.Active(s.monitor.state) {
        if !o(EncoderStops) {
          return Unchanged(PipelineStopped(s)), EncoderFault;
        }
        return Change(BLANK, true, false, []), Done;
      }
      var monitor := new M.PreviewMonitor.From(s.monitor);
      var stopped := monitor.Stop(s.mediaGeneration, now);
      if stopped != Ok {
        return Unchanged(s), BadRequest;
      }
      StoppedSteps(s.monitor, s.mediaGeneration, now);
      var stepped, action := monitor.Step(now);
      var next := PipelineStopped(s);
      next := next.(monitor := monitor.m, state := Stopping, stream := next.stream.(viewer := false));
      code := if !o(EncoderStops) then EncoderFault else if !s.handoff.out && !o(StopSent) then Trouble else Done;
      return Change(next, false, false, [Disturbed(LocalStop)] + Voiced(s, now, action, !s.handoff.out && o(StopSent))),
             code;
    }

    method ObeyCommand(command: Command, id: string, generation: u64, now: u64, o: Oracle)
      returns (code: Code, log: seq<Entry>)
      modifies this, slots
      ensures Outcome(Value(), code, 0, log) == Commanded(c, old(Value()), command, id, generation, now, o)
    {
      hide Search, StationNamed, StoppedByCommand, ViewerSet;
      log := [];
      var station := FindStation(id);
      if station.None? {
        return StationNotFound, log;
      }
      if !c.enabled || !station.value.enabled {
        return StationDisabled, log;
      }
      var k := Find(Named(id));
      if k == slots.Length || slots[k].owner.generation != generation || generation == 0 {
        return GenerationMismatch, log;
      }
      var s := slots[k];
      if s.cleanup.pending.Some? {
        return EncoderFault, log;
      }
      if command.Stop? {
        var change, status := StopSession(s, now, o);
        log := Settle(k, change);
        return status, log;
      }
      Put(k, ViewerSet(s, command.watched));
      if s.preparationOnly && command.watched {
        log := Told(s.owner.generation, [Disturbed(TakenOver)]);
      }
      return Done, log;
    }

    /** The frame goes to the slot's monitor, and what that reports decides what becomes of
        the slot. */
    method TakeFrame(s: Slot, f: Frame, ipv4: u32, now: u64, o: Oracle) returns (change: Change, code: Code)
      ensures (change, code) == ControlReceived(s, c.local, f, ipv4, now, o)
    {
      hide M.Received, TakeConfirmation, TakeRetry, RetryFinished, ReleasedFailed, Replies;
      if f.destination != c.local {
        return Unchanged(s), BadRequest;
      }
      if s.cleanup.pending.Some? {
        return Unchanged(s), EncoderFault;
      }
      if f.family == 0x03 && (f.opcode == 0x51 || f.opcode == 0x02) && s.owner.purpose != Preview {
        return Unchanged(s), BadRequest;
      }
      var monitor := new M.PreviewMonitor.From(s.monitor);
      var received, report := monitor.Receive(f, ipv4, now);
      var next := s.(monitor := monitor.m);
      if received != Ok {
        return Unchanged(next), BadRequest;
      }
      if (report.keepaliveReply || report.hangupReply) && !o(ReplySent) {
        return Unchanged(s), Trouble;
      }
      var said := Replies(s, c.local, report, now);
      var told := said + if f.opcode == 0x02 then [Disturbed(PeerHangup)] else [];
      if report.confirmed {
        var (taken, result) := TakeConfirmation(next, s.monitor, now, o);
        return taken, result;
      }
      if report.retrying {
        var (taken, result) := TakeRetry(next, if f.opcode == 0x02 then told else said + [Disturbed(Retry)], o);
        return taken, result;
      }
      if report.retryReady {
        var finished := RetryFinished(next, o(FinishResets));
        if finished.failed {
          return Change(finished.slot.(monitor := s.monitor), false, false, said), Trouble;
        }
        return Then(Change(next, false, false, told), finished), Done;
      }
      if report.failed {
        var ended := ReleasedFailed(next.(confirmation := next.confirmation.(current := false), state := Failed),
                                    o(EndStops));
        return Then(Change(next, false, false, told), ended), if ended.failed then Trouble else Done;
      }
      if report.stopped {
        if !o(EndStops) {
          return Change(PipelineStopped(next), false, false, told), Trouble;
        }
        return Change(BLANK, true, false, told), Done;
      }
      return Change(next, false, false, told), Done;
    }

    method ReceiveControl(f: Frame, ipv4: u32, now: u64, o: Oracle) returns (code: Code, log: seq<Entry>)
      modifies this, slots
      ensures Outcome(Value(), code, 0, log) == Control(c, old(Value()), f, ipv4, now, o)
    {
      hide Search, ControlReceived;
      var k := Find(Sender(f.source, ipv4));
      if k == slots.Length {
        return BadRequest, [];
      }
      var change, status := TakeFrame(slots[k], f, ipv4, now, o);
      log := Settle(k, change);
      return status, log;
    }

    /** After a picture: a failed slot is given up, the first picture of a request is published. */
    method FinishPicture(s: Slot, code: Code, at: u64, o: Oracle) returns (change: Change, result: Code)
      ensures (change, result) == AfterPicture(s, code, at, o)
    {
      hide StopEmitted, ReleasedFailed;
      if s.state == Failed {
        var stopped := StopEmitted(s, at, o(StopSent));
        return Then(stopped, ReleasedFailed(stopped.slot, o(EndStops))), code;
      }
      if code == Done && s.monitor.state == M.AwaitingVideo {
        var monitor := new M.PreviewMonitor.From(s.monitor);
        var marked := monitor.MarkPublishing(s.mediaGeneration, at);
        if marked != Ok {
          return Unchanged(s), Trouble;
        }
        return Unchanged(s.(monitor := monitor.m)), Done;
      }
      return Unchanged(s), code;
    }

    /** The picture is admitted by the slot's monitor, unless that is idle. */
    method TakePicture(s: Slot, source: Address, destination: Address, ipv4: u32, valid: bool, at: u64, path: Path,
                       o: Oracle) returns (change: Change, code: Code)
      ensures (change, code) == PictureReceived(s, source, destination, ipv4, valid, at, path, o)
    {
      hide M.Admitted, PictureNoted, PictureShown, AfterPicture;
      if ipv4 != s.owner.ipv4 || s.cleanup.pending.Some? {
        return Unchanged(s), BadRequest;
      }
      if s.preparationOnly &&
         (s.monitor.counts.attempts == 0 || s.monitor.generation != s.mediaGeneration || !valid)
      {
        return Unchanged(s), BadRequest;
      }
      var next := s;
      if s.monitor.state != M.Idle {
        var monitor := new M.PreviewMonitor.From(s.monitor);
        var admitted := monitor.AdmitJpeg(source, destination, ipv4, s.mediaGeneration, at);
        if admitted != Ok {
          return Unchanged(s), BadRequest;
        }
        next := s.(monitor := monitor.m);
      }
      if s.preparationOnly {
        var (noted, seen) := PictureNoted(next, at);
        change, code := FinishPicture(noted, seen, at, o);
        return;
      }
      if !o(CredentialsLoad) {
        return Unchanged(next), BadRequest;
      }
      if !valid {
        change, code := FinishPicture(next, BadRequest, at, o);
        return;
      }
      var (shown, seen) := PictureShown(next, at, path, o);
      change, code := FinishPicture(shown, seen, at, o);
    }

    method PushJpeg(source: Address, destination: Address, ipv4: u32, valid: bool, at: u64, path: Path, o: Oracle)
      returns (code: Code, log: seq<Entry>)
      modifies this, slots
      ensures Outcome(Value(), code, 0, log) ==
              Picture(c, old(Value()), source, destination, ipv4, valid, at, path, o)
    {
      hide Search, PictureReceived;
      if ipv4 == 0 || destination != c.local {
        return BadRequest, [];
      }
      var k := Find(Seen(source));
      if k == slots.Length {
        return BadRequest, [];
      }
      var change, status := TakePicture(slots[k], source, destination, ipv4, valid, at, path, o);
      log := Settle(k, change);
      return status, log;
    }

    // -------------------------------------------------------------------------
    // Time.

    /** The monitor's step, its frame, and what a frame that was not sent undoes. */
    method StepMonitor(s: Slot, now: u64, o: Oracle) returns (change: Change)
      ensures change == TickMonitor(s, now, o)
    {
      hide M.Stepped;
      var monitor := new M.PreviewMonitor.From(s.monitor);
      var status, action := monitor.Step(now);
      if status != Ok {
        return Failing(s);
      }
      if action.None? || s.handoff.out {
        var retried := M.Playing(s.monitor.state) && monitor.m.state == M.Stopping;
        return Change(s.(monitor := monitor.m), false, false, if retried then [Disturbed(Retry)] else []);
      }
      if !o(StepSent) {
        var restored := s.(monitor := Unsent(s.monitor, monitor.m, action.value, now));
        if !s.monitor.flags.retryAfterStop {
          return Failing(restored);
        }
        return Then(Failing(restored), ReleasedFailed(restored.(state := Failed), o(RetryStops)));
      }
      return Change(s.(monitor := monitor.m), false, false, Voiced(s, now, action, true));
    }

    method TickSlot(k: nat, now: u64, o: Oracle) returns (code: Code, log: seq<Entry>)
      requires k < slots.Length
      modifies this, slots
      ensures Outcome(Value(), code, 0, log) == TickAt(c, old(Value()), k, now, o)
      ensures code == Done || code == Trouble
    {
      hide TickMonitor, TickEnded, Operate, ReleasedFailed;
      var s := slots[k];
      log := [];
      if !s.owner.active {
        return Done, log;
      }
      if s.cleanup.pending.Some? {
        if now < s.cleanup.retryAt {
          return Done, log;
        }
        var again;
        again, log := OperateOn(s.cleanup.pending.value, s.owner.id, s.owner.generation, s.handoff.callGeneration,
                                now, 0, o);
        return if again != Done then Trouble else Done, log;
      }
      if s.state == Failed {
        var ended := ReleasedFailed(s, o(EndStops));
        log := Settle(k, ended);
        return if ended.failed then Trouble else Done, log;
      }
      var change := StepMonitor(s, now, o);
      var shown := TickStopping(change.slot);
      if shown.owner.purpose == Preview && shown.monitor.flags.retryReady {
        change := Then(change, RetryFinished(shown, o(FinishResets)));
      } else {
        change := Then(change, Unchanged(shown));
      }
      change := Then(change, TickEnded(change.slot, now, o));
      log := Settle(k, change);
      return if change.failed then Trouble else Done, log;
    }

    method TickAll(now: u64, os: nat -> Oracle) returns (code: Code, log: seq<Entry>)
      modifies this, slots
      ensures Outcome(Value(), code, 0, log) == Tick(c, old(Value()), slots.Length, now, os)
    {
      hide TickAt;
      code, log := Done, [];
      for i := 0 to slots.Length
        invariant Outcome(Value(), code, 0, log) == Tick(c, old(Value()), i, now, os)
        invariant code == Done || code == Trouble
      {
        var status, more := TickSlot(i, now, os(i));
        if status != Done {
          code := Trouble;
        }
        log := log + more;
      }
    }
  }
}
