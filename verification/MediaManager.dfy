/** The media session manager: a fixed number of slots shared by the door stations, the
    generations it issues, calls that take a preview's place, and outgoing calls that a
    preview is handed to (src/media_session_manager.c, src/media_module_config.c). */
module MediaManagers {
  import opened Words
  import opened MediaSessions
  import M = Monitors

  /** Names are C strings, one character a byte. */
  datatype Station = Station(id: string, address: Address, ipv4: u32, enabled: bool, stream: string)

  const ID_SIZE := 33
  const STREAM_SIZE := 65

  /** Both names fit the fields of a session. */
  predicate NamesFit(st: Station) {
    |st.id| < ID_SIZE && |st.stream| < STREAM_SIZE
  }

  /** `seconds` is the time to the first picture, zero for the default; `memoryChecked` says
      whether a least amount of free memory is configured; `preserve` keeps previews from
      being replaced by calls. */
  datatype Config = Config(
    enabled: bool, stations: seq<Station>, encoders: nat, local: Address, seconds: byte, memoryChecked: bool,
    preserve: bool)

  datatype Manager = Manager(slots: seq<Slot>, active: int, next: u64)

  /** A note about the session of a generation. */
  datatype Entry = Entry(session: u64, note: Note)

  datatype Outcome = Outcome(m: Manager, code: Code, generation: u64, log: seq<Entry>)

  function Answer(m: Manager, code: Code): Outcome {
    Outcome(m, code, 0, [])
  }

  // ---------------------------------------------------------------------------
  // Setting up.

  function EnabledCount(stations: seq<Station>): nat {
    if stations == [] then 0
    else EnabledCount(stations[..|stations| - 1]) + if stations[|stations| - 1].enabled then 1 else 0
  }

  function Requested(c: Config): nat {
    if c.encoders == 0 then 1 else c.encoders
  }

  predicate Valid(c: Config) {
    && (forall i :: 0 <= i < |c.stations| ==>
          0 < |c.stations[i].id| < ID_SIZE && c.stations[i].stream != "")
    && (forall i, j :: 0 <= i < j < |c.stations| ==> c.stations[i].id != c.stations[j].id)
    && (c.enabled ==> 0 < EnabledCount(c.stations) && Requested(c) <= EnabledCount(c.stations))
  }

  function Capacity(c: Config): nat {
    if !c.enabled then 0 else Min(Requested(c), EnabledCount(c.stations))
  }

  function Initial(c: Config): Manager {
    Manager(seq(Capacity(c), _ => BLANK), 0, 0)
  }

  function StationNamed(stations: seq<Station>, id: string): Option<Station> {
    if stations == [] then None
    else if stations[0].id == id then Some(stations[0])
    else StationNamed(stations[1..], id)
  }

  // ---------------------------------------------------------------------------
  // Looking through the slots.

  datatype Query = Named(id: string) | Free | Sender(station: Address, ipv4: u32) | Seen(station: Address)
                 | CallBut(skip: int)

  predicate Hits(q: Query, s: Slot, k: nat) {
    match q
    case Named(id) => s.owner.active && s.owner.id == id
    case Free => !s.owner.active && !s.owner.reserved
    case Sender(station, ipv4) => s.owner.active && s.owner.station == station && s.owner.ipv4 == ipv4
    case Seen(station) => s.owner.active && s.owner.station == station
    case CallBut(skip) => k != skip && s.owner.active && s.owner.purpose == Call
  }

  /** The first slot that fits, or the number of slots. */
  function Search(slots: seq<Slot>, q: Query, from: nat := 0): (k: nat)
    requires from <= |slots|
    ensures from <= k <= |slots|
    ensures k < |slots| ==> Hits(q, slots[k], k)
    ensures forall j :: from <= j < k ==> !Hits(q, slots[j], j)
    decreases |slots| - from
  {
    if from == |slots| || Hits(q, slots[from], from) then from else Search(slots, q, from + 1)
  }

  /** The preview started first among the first `n` slots; the number of slots when there is none. */
  function OldestPreview(slots: seq<Slot>, n: nat): nat
    requires n <= |slots|
  {
    if n == 0 then |slots|
    else
      var v := OldestPreview(slots, n - 1);
      var s := slots[n - 1].owner;
      if !s.active || s.purpose != Preview then v
      else if v >= |slots| || s.started < slots[v].owner.started then n - 1
      else v
  }

  function Apply(m: Manager, k: nat, change: Change): Manager
    requires k < |m.slots|
  {
    m.(slots := m.slots[k := change.slot],
       active := if change.released && m.active > 0 then m.active - 1 else m.active)
  }

  function Told(session: u64, notes: seq<Note>): seq<Entry> {
    seq(|notes|, i requires 0 <= i < |notes| => Entry(session, notes[i]))
  }

  /** What one operation on slot `k` comes to. */
  function Settled(m: Manager, k: nat, change: Change, code: Code): Outcome
    requires k < |m.slots|
  {
    Outcome(Apply(m, k, change), code, 0, Told(m.slots[k].owner.generation, change.notes))
  }

  // ---------------------------------------------------------------------------
  // Opening a session.

  function RouteOf(st: Station, route: u32, o: Oracle): u32 {
    if st.ipv4 != 0 then st.ipv4 else if o(RouteFound) then route else 0
  }

  predicate MemoryShort(c: Config, o: Oracle) {
    c.memoryChecked && !o(MemoryFree)
  }

  /** A new session for an incoming call, not yet in its slot. */
  function CallPrepared(c: Config, st: Station, generation: u64, callGeneration: u64, now: u64, route: u32,
                        o: Oracle):
    (Option<Slot>, Code)
  {
    var ipv4 := RouteOf(st, route, o);
    if ipv4 == 0 then (None, RouteUnavailable)
    else if MemoryShort(c, o) then (None, ResourceExhausted)
    else if !NamesFit(st) then (None, BadRequest)
    else if !o(HookStarts) then (None, EncoderFault)
    else
      match Activated(Prepared(st.id, st.address, ipv4, Call, now), generation)
      case None => (None, EncoderFault)
      case Some(s) =>
        match CallBound(s, c.local, c.seconds, now)
        case None => (None, EncoderFault)
        case Some(bound) => (Some(bound.(handoff := NO_HANDOFF.(callGeneration := callGeneration))), Done)
  }

  /** The preview's hang-up and the end of its encoder, before a call takes its place. */
  function Preempted(s: Slot, now: u64, o: Oracle): Change {
    if s.monitor.state == M.Idle then Change(PipelineStopped(s), false, !o(PipelineStops), [])
    else
      match M.Stopped(s.monitor, s.mediaGeneration, now)
      case None => Failing(s)
      case Some(stopping) =>
        if !o(StopSent) then Failing(s)
        else
          var turn := M.Stepped(stopping, now).value;
          Change(PipelineStopped(s.(monitor := turn.m)), false, !o(PipelineStops),
                 [Disturbed(LocalStop)] + Voiced(s, now, turn.action, true))
  }

  /** The station has a session: it becomes the call. */
  function IncomingHere(c: Config, m: Manager, k: nat, call: u64, now: u64, o: Oracle): Outcome
    requires k < |m.slots| && m.next < U64_MAX
  {
    var s := m.slots[k];
    if !Preflight(s, c.local, c.seconds, now) then Answer(m, EncoderFault)
    else
      var (up, code) := Upgraded(s, m.next + 1, call, now, o);
      var changed := m.(slots := m.slots[k := up]);
      if code != Done then Answer(changed, code)
      else
        var log := Told(s.owner.generation, [Disturbed(TakenOver)]);
        match CallBound(up, c.local, c.seconds, now)
        case None => Outcome(changed, EncoderFault, 0, log)
        case Some(bound) => Outcome(Manager(m.slots[k := bound], m.active, m.next + 1), Done, 0, log)
  }

  /** All slots are taken: the oldest preview makes room. */
  function IncomingFull(c: Config, m: Manager, st: Station, call: u64, now: u64, route: u32, o: Oracle): Outcome
    requires m.next < U64_MAX
  {
    var v := OldestPreview(m.slots, |m.slots|);
    if c.preserve || v >= |m.slots| then Answer(m, CapacityBusy)
    else
      var (prepared, code) := CallPrepared(c, st, m.next + 1, call, now, route, o);
      if prepared.None? then Answer(m, code)
      else
        var gone := Preempted(m.slots[v], now, o);
        if gone.failed then Settled(m, v, gone, EncoderFault)
        else
          Outcome(Manager(m.slots[v := prepared.value], m.active, m.next + 1), Done, 0,
                  Told(m.slots[v].owner.generation, gone.notes))
  }

  function IncomingFree(c: Config, m: Manager, st: Station, call: u64, now: u64, route: u32, o: Oracle): Outcome
    requires m.next < U64_MAX
  {
    var k := Search(m.slots, Free);
    if k == |m.slots| then Answer(m, CapacityBusy)
    else
      var (prepared, code) := CallPrepared(c, st, m.next + 1, call, now, route, o);
      if prepared.None? then Answer(m.(slots := m.slots[k := BLANK]), code)
      else Answer(Manager(m.slots[k := prepared.value], m.active + 1, m.next + 1), Done)
  }

  /** A station calls under call generation `call`. */
  function Incoming(c: Config, m: Manager, id: string, call: u64, now: u64, route: u32, o: Oracle): Outcome {
    var station := StationNamed(c.stations, id);
    var k := Search(m.slots, Named(id));
    if call == 0 then Answer(m, BadRequest)
    else if station.None? then Answer(m, StationNotFound)
    else if !c.enabled || !station.value.enabled then Answer(m, StationDisabled)
    else if k < |m.slots| && m.slots[k].cleanup.pending.Some? then Answer(m, CapacityBusy)
    else if Search(m.slots, CallBut(if k < |m.slots| then k else -1)) < |m.slots| then Answer(m, CapacityBusy)
    else if k < |m.slots| && m.slots[k].owner.purpose == Call && call <= m.slots[k].handoff.callGeneration then
      Answer(m, if call == m.slots[k].handoff.callGeneration then Done else GenerationMismatch)
    else if m.next == U64_MAX then Answer(m, ResourceExhausted)
    else if k < |m.slots| then IncomingHere(c, m, k, call, now, o)
    else if m.active >= |m.slots| then IncomingFull(c, m, station.value, call, now, route, o)
    else IncomingFree(c, m, station.value, call, now, route, o)
  }

  function StartCall(c: Config, m: Manager, id: string, now: u64, route: u32, o: Oracle): Outcome {
    var k := Search(m.slots, Named(id));
    if k < |m.slots| && m.slots[k].owner.purpose == Call then
      Answer(m, Done).(generation := m.slots[k].owner.generation)
    else if Search(m.slots, CallBut(-1)) < |m.slots| then Answer(m, CapacityBusy)
    else if m.next == U64_MAX then Answer(m, ResourceExhausted)
    else
      var taken := Incoming(c, m, id, m.next + 1, now, route, o);
      if taken.code != Done then taken
      else
        var j := Search(taken.m.slots, Named(id));
        if j == |taken.m.slots| then taken.(code := Trouble)
        else taken.(generation := taken.m.slots[j].owner.generation)
  }

  /** A session that only prepares an unlock may be adopted as a full preview. */
  function Adopted(s: Slot): Slot {
    s.(preparationOnly := false, monitor := s.monitor.(policy := s.monitor.policy.(grace := true)))
  }

  /** A new preview; an unlock preparation takes no encoder. */
  function PreviewPrepared(c: Config, st: Station, generation: u64, light: bool, now: u64, cooldown: u64, ipv4: u32,
                           o: Oracle): Option<Slot>
  {
    var prepared := Prepared(st.id, st.address, ipv4, Preview, now);
    var cooled := prepared.monitor.(policy := prepared.monitor.policy.(cooldownUntil := cooldown));
    var begun := Activated(prepared.(preparationOnly := light, monitor := cooled), generation);
    if (!light && !o(HookStarts)) || begun.None? then None
    else MonitorStarted(begun.value, c.local, c.seconds, now)
  }

  function StartPreview(c: Config, m: Manager, st: Station, light: bool, now: u64, cooldown: u64, route: u32,
                        o: Oracle):
    Outcome
  {
    var k := Search(m.slots, Named(st.id));
    var free := Search(m.slots, Free);
    if k < |m.slots| then
      var s := m.slots[k];
      if light && !s.preparationOnly then Answer(m, CapacityBusy)
      else if !light && s.preparationOnly then
        Outcome(m.(slots := m.slots[k := Adopted(s)]), Done, s.owner.generation,
                Told(s.owner.generation, [Disturbed(TakenOver)]))
      else Answer(m, Done).(generation := s.owner.generation)
    else if m.active >= |m.slots| || free == |m.slots| then Answer(m, CapacityBusy)
    else if RouteOf(st, route, o) == 0 then Answer(m, RouteUnavailable)
    else if MemoryShort(c, o) || m.next == U64_MAX then Answer(m, ResourceExhausted)
    else if !NamesFit(st) then Answer(m, BadRequest)
    else
      match PreviewPrepared(c, st, m.next + 1, light, now, cooldown, RouteOf(st, route, o), o)
      case None => Answer(m.(slots := m.slots[free := BLANK]), EncoderFault)
      case Some(s) => Outcome(Manager(m.slots[free := s], m.active + 1, m.next + 1), Done, m.next + 1, [])
  }

  /** `light` sessions only prepare an unlock; `cooldown` is left over from the station's last preview. */
  function Start(c: Config, m: Manager, id: string, purpose: Purpose, light: bool, now: u64, cooldown: u64,
                 route: u32, o: Oracle): Outcome
  {
    var station := StationNamed(c.stations, id);
    if id == "" then Answer(m, BadRequest)
    else if station.None? then Answer(m, StationNotFound)
    else if !c.enabled || !station.value.enabled then Answer(m, StationDisabled)
    else if purpose == Call then StartCall(c, m, id, now, route, o)
    else StartPreview(c, m, station.value, light, now, cooldown, route, o)
  }

  // ---------------------------------------------------------------------------
  // Outgoing calls, and releases on request.

  predicate IncomingRelease(op: Operation) {
    || op == IncomingLocal || op == IncomingPeer || op == IncomingSession || op == IncomingRuntime
    || op == IncomingUnknown
  }

  predicate OutgoingRelease(op: Operation) {
    || op == Release || op == ReleasePeer || op == ReleaseSession || op == ReleaseConfirmation
    || op == ReleasePreempted || op == ReleaseRuntime || op == ReleaseUnknown
  }

  /** The preview of slot `k` is confirmed, running, and the only candidate for a call. */
  function Checked(c: Config, m: Manager, k: nat, st: Station, now: u64, route: u32, o: Oracle): Code
    requires k < |m.slots|
  {
    var s := m.slots[k];
    if !c.enabled || !st.enabled then StationDisabled
    else if Search(m.slots, CallBut(k)) < |m.slots| then CapacityBusy
    else if s.owner.purpose == Call then (if s.handoff.out then Done else CapacityBusy)
    else if !Usable(s) || (s.monitor.state == M.AwaitingVideo && now >= s.monitor.times.frameDeadline)
            || (s.stream.frames != 0 && Elapsed(s.stream.lastFrame, now) >= STALL_TIMEOUT_MS) then PreviewUnconfirmed
    else if RouteOf(st, route, o) == 0 || RouteOf(st, route, o) != s.owner.ipv4 then RouteUnavailable
    else if MemoryShort(c, o) then ResourceExhausted
    else Done
  }

  /** An unsigned difference: a clock behind wraps. */
  function Elapsed(since: u64, now: u64): u64 {
    if now >= since then now - since else now + U64_MAX + 1 - since
  }

  /** The confirmation of the current attempt still stands. */
  predicate Usable(s: Slot) {
    && s.confirmation.current && s.confirmation.generation == s.monitor.generation
    && s.monitor.generation == s.mediaGeneration
    && !s.monitor.flags.retryAfterStop && !s.monitor.flags.retryReady && !s.monitor.flags.retryWaiting
    && !s.monitor.flags.peerStopSeen && M.Playing(s.monitor.state)
    && (s.monitor.state == M.AwaitingVideo ==> s.monitor.times.frameDeadline != 0)
  }

  /** Who may ask for `op` on slot `s`. */
  function Entitled(s: Slot, op: Operation, control: u64): Code {
    if IncomingRelease(op) && (s.handoff.out || s.owner.purpose != Call || control == 0) then BadRequest
    else if (OutgoingRelease(op) || op == Rollback || op == MarkSent) && !s.handoff.out then BadRequest
    else if (IncomingRelease(op) || OutgoingRelease(op) || op == Rollback || op == MarkSent)
            && control != s.handoff.callGeneration then GenerationMismatch
    else Done
  }

  function OperatedAt(c: Config, m: Manager, k: nat, st: Station, op: Operation, control: u64, now: u64, route: u32,
                      o: Oracle): Outcome
    requires k < |m.slots|
  {
    var s := m.slots[k];
    if now < s.monitor.lastNow then Answer(m, BadRequest)
    else if s.cleanup.pending.Some? && op != s.cleanup.pending.value then Answer(m, EncoderFault)
    else if Entitled(s, op, control) != Done then Answer(m, Entitled(s, op, control))
    else if IncomingRelease(op) || OutgoingRelease(op) then
      if s.cleanup.pending.Some? && now < s.cleanup.retryAt then Answer(m, EncoderFault)
      else Settled(m, k, ReleasedOnRequest(s, op, now, o(EncoderStops)),
                   if o(EncoderStops) then Done else EncoderFault)
    else if op == Rollback then
      if s.handoff.commandSent then Answer(m, BadRequest)
      else Answer(m.(slots := m.slots[k := RolledBack(s)]), Done)
    else if op == MarkSent then
      if control == 0 then Answer(m, BadRequest)
      else Answer(m.(slots := m.slots[k := s.(handoff := s.handoff.(commandSent := true))]), Done)
    else if op == BindControl then
      if !s.handoff.out || control == 0 || (s.handoff.callGeneration != 0 && s.handoff.callGeneration != control) then
        Answer(m, GenerationMismatch)
      else Answer(m.(slots := m.slots[k := s.(handoff := s.handoff.(callGeneration := control))]), Done)
    else Answer(m, Checked(c, m, k, st, now, route, o))
  }

  function Operate(c: Config, m: Manager, op: Operation, id: string, generation: u64, control: u64, now: u64,
                   route: u32, o: Oracle): Outcome
  {
    var station := StationNamed(c.stations, id);
    var k := Search(m.slots, Named(id));
    if generation == 0 then Answer(m, BadRequest)
    else if station.None? then Answer(m, StationNotFound)
    else if k == |m.slots| || m.slots[k].owner.generation != generation then Answer(m, GenerationMismatch)
    else OperatedAt(c, m, k, station.value, op, control, now, route, o)
  }

  /** A confirmed preview is handed to an outgoing call. */
  function HandOver(c: Config, m: Manager, id: string, now: u64, route: u32, o: Oracle): Outcome {
    var k := Search(m.slots, Named(id));
    if k == |m.slots| then Answer(m, PreviewUnconfirmed)
    else
      var s := m.slots[k];
      var checked := Operate(c, m, Check, id, s.owner.generation, 0, now, route, o);
      if checked.code != Done then checked
      else if s.handoff.out then Answer(m, Done).(generation := s.owner.generation)
      else
        match Promoted(s, 0, now)
        case None => Answer(m, PreviewUnconfirmed)
        case Some(call) =>
          Outcome(m.(slots := m.slots[k := call]), Done, s.owner.generation,
                  Told(s.owner.generation, [Disturbed(TakenOver)]))
  }

  // ---------------------------------------------------------------------------
  // Commands, frames, pictures, time.

  datatype Command = Stop | View(watched: bool)

  function Commanded(c: Config, m: Manager, command: Command, id: string, generation: u64, now: u64,
                     o: Oracle): Outcome {
    var station := StationNamed(c.stations, id);
    var k := Search(m.slots, Named(id));
    if station.None? then Answer(m, StationNotFound)
    else if !c.enabled || !station.value.enabled then Answer(m, StationDisabled)
    else if k == |m.slots| || m.slots[k].owner.generation != generation || generation == 0 then
      Answer(m, GenerationMismatch)
    else if m.slots[k].cleanup.pending.Some? then Answer(m, EncoderFault)
    else
      var s := m.slots[k];
      match command
      case Stop => var (change, code) := StoppedByCommand(s, now, o); Settled(m, k, change, code)
      case View(watched) =>
        Outcome(m.(slots := m.slots[k := ViewerSet(s, watched)]), Done, 0,
                if s.preparationOnly && watched then Told(s.owner.generation, [Disturbed(TakenOver)]) else [])
  }

  function Control(c: Config, m: Manager, f: Frame, ipv4: u32, now: u64, o: Oracle): Outcome {
    var k := Search(m.slots, Sender(f.source, ipv4));
    if k == |m.slots| then Answer(m, BadRequest)
    else
      var (change, code) := ControlReceived(m.slots[k], c.local, f, ipv4, now, o);
      Settled(m, k, change, code)
  }

  function Picture(c: Config, m: Manager, source: Address, destination: Address, ipv4: u32, valid: bool, at: u64,
                   path: Path, o: Oracle): Outcome
  {
    var k := Search(m.slots, Seen(source));
    if ipv4 == 0 || destination != c.local || k == |m.slots| then Answer(m, BadRequest)
    else
      var (change, code) := PictureReceived(m.slots[k], source, destination, ipv4, valid, at, path, o);
      Settled(m, k, change, code)
  }

  function Failure(failed: bool): Code {
    if failed then Trouble else Done
  }

  function TickAt(c: Config, m: Manager, k: nat, now: u64, o: Oracle): (r: Outcome)
    requires k < |m.slots|
    ensures |r.m.slots| == |m.slots|
  {
    var s := m.slots[k];
    if !s.owner.active then Answer(m, Done)
    else if s.cleanup.pending.Some? then
      if now < s.cleanup.retryAt then Answer(m, Done)
      else
        var again := Operate(c, m, s.cleanup.pending.value, s.owner.id, s.owner.generation, s.handoff.callGeneration,
                             now, 0, o);
        again.(code := Failure(again.code != Done), generation := 0)
    else if s.state == Failed then
      var ended := ReleasedFailed(s, o(EndStops));
      Settled(m, k, ended, Failure(ended.failed))
    else
      var ticked := Ticked(s, now, o);
      Settled(m, k, ticked, Failure(ticked.failed))
  }

  /** The first `n` slots in turn, each with its own answers from outside. */
  function Tick(c: Config, m: Manager, n: nat, now: u64, os: nat -> Oracle): Outcome
    requires n <= |m.slots|
    ensures |Tick(c, m, n, now, os).m.slots| == |m.slots|
  {
    if n == 0 then Answer(m, Done)
    else
      var earlier := Tick(c, m, n - 1, now, os);
      var last := TickAt(c, earlier.m, n - 1, now, os(n - 1));
      Outcome(last.m, Failure(earlier.code == Trouble || last.code == Trouble), 0, earlier.log + last.log)
  }
}
