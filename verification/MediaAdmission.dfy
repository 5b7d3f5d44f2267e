/** Which sessions the media manager opens: when an incoming call or a preview succeeds, and
    which answer each obstacle gets. */
module MediaAdmissions {
  import opened Words
  import opened MediaSessions
  import opened MediaManagers
  import opened MediaSoundness
  import M = Monitors

  // ---------------------------------------------------------------------------
  // What can stand in the way.

  /** The station is the first of its name. */
  predicate Configured(c: Config, st: Station) {
    exists i :: 0 <= i < |c.stations| && c.stations[i] == st && forall j :: 0 <= j < i ==> c.stations[j].id != st.id
  }

  predicate IsHeld(s: Slot, id: string) {
    s.owner.active && s.owner.id == id
  }

  predicate HasSession(m: Manager, id: string) {
    exists k :: 0 <= k < |m.slots| && IsHeld(m.slots[k], id)
  }

  /** A frame timeout set in seconds, or the default of eight. */
  function FirstPictureTime(c: Config): u64 {
    if c.seconds == 0 then 8000 else c.seconds as int * 1000
  }

  /** The station's address is known, or can be found. */
  predicate Reachable(st: Station, route: u32, o: Oracle) {
    st.ipv4 != 0 || (o(RouteFound) && route != 0)
  }

  predicate MemoryEnough(c: Config, o: Oracle) {
    c.memoryChecked ==> o(MemoryFree)
  }

  /** As an indoor station we can watch for video from the station, and the clock leaves time
      for the first picture. */
  predicate Watchable(c: Config, st: Station, now: u64) {
    c.local[0] != 0 ==> M.StationValid(st.address) && now + FirstPictureTime(c) <= U64_MAX
  }

  /** Nobody else is calling, and the station's own session is not being released. */
  predicate Undisturbed(m: Manager, id: string) {
    forall k :: 0 <= k < |m.slots| && m.slots[k].owner.active ==>
      if m.slots[k].owner.id == id then m.slots[k].cleanup.pending.None? else m.slots[k].owner.purpose != Call
  }

  /** The very call is under way already. */
  predicate SameCall(s: Slot, id: string, call: u64) {
    IsHeld(s, id) && s.owner.purpose == Call && s.handoff.callGeneration == call
  }

  /** A later call of the station is under way. */
  predicate LaterCall(s: Slot, id: string, call: u64) {
    IsHeld(s, id) && s.owner.purpose == Call && s.handoff.callGeneration > call
  }

  /** Nothing forbids a call of that station, and none is under way that would answer for it. */
  predicate Wanted(c: Config, m: Manager, st: Station, call: u64) {
    && call != 0 && c.enabled && st.enabled && Undisturbed(m, st.id)
    && forall k :: 0 <= k < |m.slots| ==> !SameCall(m.slots[k], st.id, call) && !LaterCall(m.slots[k], st.id, call)
  }

  /** A slot is free, or a preview may be given up. */
  predicate PlaceFor(c: Config, m: Manager) {
    m.active < |m.slots| || (!c.preserve && exists v :: 0 <= v < |m.slots| && IsPreview(m.slots[v].owner))
  }

  /** The station's own monitor can watch for the call's video. */
  predicate MonitorReady(c: Config, s: Slot, now: u64) {
    c.local[0] != 0 ==>
      && s.monitor.lastNow <= now
      && now + (if c.seconds == 0 then M.FrameTimeout(s.monitor) else c.seconds as int * 1000) <= U64_MAX
  }

  /** What runs for the preview can be stopped. */
  predicate PreviewStops(s: Slot, o: Oracle) {
    (s.stream.running ==> o(EncoderStops)) && o(QueueResets)
  }

  /** Whether the station's own session can become the call: its monitor can watch for the
      call's video. */
  predicate OwnIsReady(c: Config, m: Manager, id: string, now: u64) {
    forall k :: 0 <= k < |m.slots| && IsHeld(m.slots[k], id) ==> MonitorReady(c, m.slots[k], now)
  }

  /** Its clock is ahead, although nothing is watched for as an indoor station. */
  predicate OwnIsAhead(c: Config, m: Manager, id: string, now: u64) {
    exists k :: 0 <= k < |m.slots| && IsHeld(m.slots[k], id) && MonitorReady(c, m.slots[k], now) && m.slots[k].monitor.lastNow > now
  }

  predicate OwnStops(m: Manager, id: string, o: Oracle) {
    forall k :: 0 <= k < |m.slots| && IsHeld(m.slots[k], id) ==> PreviewStops(m.slots[k], o)
  }

  /** A preview gives way: its encoder stops, and unless its monitor is idle that can hang up. */
  predicate GivesWay(s: Slot, now: u64, o: Oracle) {
    && o(PipelineStops)
    && (s.monitor.state == M.Idle ||
        (&& M.Active(s.monitor.state) && s.monitor.generation == s.mediaGeneration != 0
         && s.monitor.lastNow <= now && now + M.STOP_COOLDOWN_MS <= U64_MAX && o(StopSent)))
  }

  predicate OldestGivesWay(m: Manager, now: u64, o: Oracle) {
    exists v :: 0 <= v < |m.slots| && IsOldest(m.slots, |m.slots|, v) && GivesWay(m.slots[v], now, o)
  }

  /** Everything a new session needs from outside. */
  predicate Openable(c: Config, st: Station, now: u64, route: u32, o: Oracle) {
    Reachable(st, route, o) && MemoryEnough(c, o) && NamesFit(st) && o(HookStarts) && Watchable(c, st, now)
  }

  /** A call of the station may have a place. */
  predicate MayCall(c: Config, m: Manager, st: Station, call: u64, now: u64, route: u32, o: Oracle) {
    && call != 0 && c.enabled && st.enabled && Undisturbed(m, st.id)
    && ((exists k :: 0 <= k < |m.slots| && SameCall(m.slots[k], st.id, call)) ||
        (Wanted(c, m, st, call) && m.next < U64_MAX &&
         if HasSession(m, st.id) then
           OwnIsReady(c, m, st.id, now) && !OwnIsAhead(c, m, st.id, now) && OwnStops(m, st.id, o)
         else
           Openable(c, st, now, route, o) && (m.active < |m.slots| || (!c.preserve && OldestGivesWay(m, now, o)))))
  }

  // ---------------------------------------------------------------------------
  // Calls.

  lemma {:induction false} ConfiguredIsNamed(c: Config, st: Station)
    requires Configured(c, st)
    ensures StationNamed(c.stations, st.id) == Some(st)
  {
    var i :| 0 <= i < |c.stations| && c.stations[i] == st && forall j :: 0 <= j < i ==> c.stations[j].id != st.id;
    FirstIsNamed(c.stations, i);
  }

  lemma {:induction false} FirstIsNamed(stations: seq<Station>, i: nat)
    requires i < |stations| && forall j :: 0 <= j < i ==> stations[j].id != stations[i].id
    ensures StationNamed(stations, stations[i].id) == Some(stations[i])
  {
    if i > 0 {
      assert stations[0].id != stations[i].id;
      FirstIsNamed(stations[1..], i - 1);
    }
  }

  lemma PreparationAnswers(c: Config, st: Station, generation: u64, call: u64, now: u64, route: u32, o: Oracle)
    requires generation != 0
    ensures var code := CallPrepared(c, st, generation, call, now, route, o).1;
            && code in {Done, RouteUnavailable, ResourceExhausted, BadRequest, EncoderFault}
            && (code == Done <==> Openable(c, st, now, route, o))
            && (code == RouteUnavailable <==> !Reachable(st, route, o))
            && (code == ResourceExhausted <==> Reachable(st, route, o) && !MemoryEnough(c, o))
            && (code == BadRequest <==> Reachable(st, route, o) && MemoryEnough(c, o) && !NamesFit(st))
            && (code == EncoderFault <==>
                  && Reachable(st, route, o) && MemoryEnough(c, o) && NamesFit(st)
                  && !(o(HookStarts) && Watchable(c, st, now)))
  {
  }

  lemma GivingWayAnswers(s: Slot, now: u64, o: Oracle)
    ensures Preempted(s, now, o).failed <==> !GivesWay(s, now, o)
  {
  }

  /** The station's own session, found by name, is the only one of that name. */
  lemma HeldIsFound(c: Config, m: Manager, id: string)
    requires Sound(c, m)
    ensures var k := Search(m.slots, Named(id));
            && (k == |m.slots| <==> !HasSession(m, id))
            && (k < |m.slots| ==> forall j :: 0 <= j < |m.slots| ==> (IsHeld(m.slots[j], id) <==> j == k))
  {
    hide ActiveCount, Search;
    NoneNamed(m.slots, id);
    var k := Search(m.slots, Named(id));
    if k < |m.slots| {
      forall j | 0 <= j < |m.slots| && j != k
        ensures !IsHeld(m.slots[j], id)
      {
        assert if j < k then Apart(m.slots[j].owner, m.slots[k].owner) else Apart(m.slots[k].owner, m.slots[j].owner);
      }
    }
  }

  /** How a call of a station that has a session is answered. */
  lemma HereAnswers(c: Config, m: Manager, k: nat, call: u64, now: u64, o: Oracle)
    requires Sound(c, m) && k < |m.slots| && m.slots[k].owner.active && m.next < U64_MAX && call != 0
    ensures var s := m.slots[k];
            var code := IncomingHere(c, m, k, call, now, o).code;
            && (code == Done <==> s.monitor.lastNow <= now && MonitorReady(c, s, now) && PreviewStops(s, o))
            && (code == EncoderFault <==> !MonitorReady(c, s, now))
            && (code == BadRequest <==> MonitorReady(c, s, now) && s.monitor.lastNow > now)
            && (code == Trouble <==> s.monitor.lastNow <= now && MonitorReady(c, s, now) && !PreviewStops(s, o))
  {
    hide ActiveCount, M.Bound;
    if Preflight(m.slots[k], c.local, c.seconds, now) && Upgraded(m.slots[k], m.next + 1, call, now, o).1 == Done {
      BindCannotFail(c, m, k, call, now, o);
    }
  }

  lemma OldestIsPreview(m: Manager, now: u64, o: Oracle)
    ensures OldestGivesWay(m, now, o) ==> exists v :: 0 <= v < |m.slots| && IsPreview(m.slots[v].owner)
  {
    hide IsPreview, GivesWay;
  }

  lemma FullAnswers(c: Config, m: Manager, st: Station, call: u64, now: u64, route: u32, o: Oracle)
    requires Sound(c, m) && m.next < U64_MAX
    ensures var code := IncomingFull(c, m, st, call, now, route, o).code;
            var preview := exists v :: 0 <= v < |m.slots| && IsPreview(m.slots[v].owner);
            var open := Openable(c, st, now, route, o);
            && (code == CapacityBusy <==> c.preserve || !preview)
            && (!c.preserve && preview ==>
                  && (code == Done <==> open && OldestGivesWay(m, now, o))
                  && (code == EncoderFault <==>
                        || (open && !OldestGivesWay(m, now, o))
                        || CallPrepared(c, st, m.next + 1, call, now, route, o).1 == EncoderFault)
                  && (!open ==> code == CallPrepared(c, st, m.next + 1, call, now, route, o).1))
  {
    hide CallPrepared, Preempted, Openable, GivesWay, Sound, OldestPreview;
    var v := OldestPreview(m.slots, |m.slots|);
    OldestIsOldest(m.slots, |m.slots|);
    PreparedFits(c, st, m.next + 1, call, now, route, o);
    PreparationAnswers(c, st, m.next + 1, call, now, route, o);
    if v < |m.slots| {
      GivingWayAnswers(m.slots[v], now, o);
      assert forall w :: IsOldest(m.slots, |m.slots|, w) ==> w == v;
    }
  }

  lemma FreeAnswers(c: Config, m: Manager, st: Station, call: u64, now: u64, route: u32, o: Oracle)
    requires Sound(c, m) && m.next < U64_MAX && m.active < |m.slots|
    ensures IncomingFree(c, m, st, call, now, route, o).code == CallPrepared(c, st, m.next + 1, call, now, route, o).1
  {
    hide CallPrepared, ActiveCount;
    RoomIsFree(c, m);
    PreparedFits(c, st, m.next + 1, call, now, route, o);
  }

  /** A new session may be tried for the call. */
  predicate Opening(c: Config, m: Manager, st: Station, call: u64) {
    Wanted(c, m, st, call) && m.next < U64_MAX && !HasSession(m, st.id) && PlaceFor(c, m)
  }

  /** The station's session, if it has one, has some property. */
  predicate Upgrading(c: Config, m: Manager, st: Station, call: u64) {
    Wanted(c, m, st, call) && m.next < U64_MAX && HasSession(m, st.id)
  }

  /** Which obstacle gets which answer. */
  predicate CallAnswer(c: Config, m: Manager, st: Station, call: u64, now: u64, route: u32, o: Oracle, code: Code) {
    var enabled := call != 0 && c.enabled && st.enabled;
    var opening, upgrading := Opening(c, m, st, call), Upgrading(c, m, st, call);
    && (code == StationDisabled <==> call != 0 && !(c.enabled && st.enabled))
    && (code == GenerationMismatch <==>
          enabled && Undisturbed(m, st.id) && exists k :: 0 <= k < |m.slots| && LaterCall(m.slots[k], st.id, call))
    && (code == CapacityBusy <==>
          || (enabled && !Undisturbed(m, st.id))
          || (Wanted(c, m, st, call) && m.next < U64_MAX && !HasSession(m, st.id) && !PlaceFor(c, m)))
    && (code == RouteUnavailable <==> opening && !Reachable(st, route, o))
    && (code == ResourceExhausted <==>
          || (Wanted(c, m, st, call) && m.next == U64_MAX)
          || (opening && Reachable(st, route, o) && !MemoryEnough(c, o)))
    && (code == BadRequest <==>
          || call == 0
          || (upgrading && OwnIsAhead(c, m, st.id, now))
          || (opening && Reachable(st, route, o) && MemoryEnough(c, o) && !NamesFit(st)))
    && (code == Trouble <==>
          upgrading && OwnIsReady(c, m, st.id, now) && !OwnIsAhead(c, m, st.id, now) && !OwnStops(m, st.id, o))
    && (code == EncoderFault <==>
          || (upgrading && !OwnIsReady(c, m, st.id, now))
          || (opening && Reachable(st, route, o) && MemoryEnough(c, o) && NamesFit(st) &&
              (|| !o(HookStarts) || !Watchable(c, st, now)
               || (m.active == |m.slots| && !OldestGivesWay(m, now, o)))))
    && code != StationNotFound && code != PreviewUnconfirmed
  }

  /** A call succeeds exactly when it may, and every obstacle has its answer. */
  lemma CallsAreAnswered(c: Config, m: Manager, st: Station, call: u64, now: u64, route: u32, o: Oracle)
    requires Sound(c, m) && Configured(c, st)
    ensures var code := Incoming(c, m, st.id, call, now, route, o).code;
            && (code == Done <==> MayCall(c, m, st, call, now, route, o))
            && CallAnswer(c, m, st, call, now, route, o, code)
  {
    hide Sound, Configured, StationNamed, Search, IncomingHere, IncomingFull, IncomingFree, MayCall, CallAnswer, Undisturbed, HasSession,
         Upgrading, Opening, Wanted;
    ConfiguredIsNamed(c, st);
    HeldIsFound(c, m, st.id);
    var k := Search(m.slots, Named(st.id));
    DisturbanceIsFound(m, st.id, k);
    if call == 0 || !c.enabled || !st.enabled || !Undisturbed(m, st.id) {
      ForbiddenAnswers(c, m, st, call, now, route, o);
    } else if k < |m.slots| {
      OwnAnswers(c, m, st, call, now, route, o, k);
    } else {
      NewAnswers(c, m, st, call, now, route, o);
    }
  }

  lemma DisturbanceIsFound(m: Manager, id: string, k: nat)
    requires k <= |m.slots| && (k == |m.slots| <==> !HasSession(m, id))
    requires k < |m.slots| ==> forall j :: 0 <= j < |m.slots| ==> (IsHeld(m.slots[j], id) <==> j == k)
    ensures Undisturbed(m, id) <==>
            && (k < |m.slots| ==> m.slots[k].cleanup.pending.None?)
            && Search(m.slots, CallBut(if k < |m.slots| then k else -1)) == |m.slots|
  {
    hide Search;
    NoCallFound(m.slots, if k < |m.slots| then k else -1);
    if k < |m.slots| {
      assert IsHeld(m.slots[k], id);
    } else {
      assert forall j :: 0 <= j < |m.slots| ==> !IsHeld(m.slots[j], id);
    }
  }

  lemma ForbiddenAnswers(c: Config, m: Manager, st: Station, call: u64, now: u64, route: u32, o: Oracle)
    requires call == 0 || !c.enabled || !st.enabled || !Undisturbed(m, st.id)
    ensures !MayCall(c, m, st, call, now, route, o)
    ensures CallAnswer(c, m, st, call, now, route, o,
                       if call == 0 then BadRequest
                       else if !c.enabled || !st.enabled then StationDisabled else CapacityBusy)
  {
    hide Undisturbed, HasSession, PlaceFor, Reachable, MemoryEnough, OwnIsReady, OwnIsAhead, OwnStops;
  }

  /** The station's own session is the only one the answer looks at. */
  lemma OwnIsOnly(c: Config, m: Manager, id: string, now: u64, o: Oracle, k: nat)
    requires k < |m.slots| && forall j :: 0 <= j < |m.slots| ==> (IsHeld(m.slots[j], id) <==> j == k)
    ensures HasSession(m, id)
    ensures OwnIsReady(c, m, id, now) <==> MonitorReady(c, m.slots[k], now)
    ensures OwnIsAhead(c, m, id, now) <==> MonitorReady(c, m.slots[k], now) && m.slots[k].monitor.lastNow > now
    ensures OwnStops(m, id, o) <==> PreviewStops(m.slots[k], o)
  {
    hide MonitorReady, PreviewStops;
    assert IsHeld(m.slots[k], id);
  }

  lemma OwnCalls(c: Config, m: Manager, st: Station, call: u64, k: nat)
    requires k < |m.slots| && forall j :: 0 <= j < |m.slots| ==> (IsHeld(m.slots[j], st.id) <==> j == k)
    requires call != 0 && c.enabled && st.enabled && Undisturbed(m, st.id)
    ensures var s := m.slots[k];
            && ((exists j :: 0 <= j < |m.slots| && SameCall(m.slots[j], st.id, call)) <==>
                  s.owner.purpose == Call && s.handoff.callGeneration == call)
            && ((exists j :: 0 <= j < |m.slots| && LaterCall(m.slots[j], st.id, call)) <==>
                  s.owner.purpose == Call && s.handoff.callGeneration > call)
            && (Wanted(c, m, st, call) <==> !(s.owner.purpose == Call && call <= s.handoff.callGeneration))
  {
    hide Undisturbed;
    assert IsHeld(m.slots[k], st.id);
    assert SameCall(m.slots[k], st.id, call) <==> m.slots[k].owner.purpose == Call && m.slots[k].handoff.callGeneration == call;
    assert LaterCall(m.slots[k], st.id, call) <==> m.slots[k].owner.purpose == Call && m.slots[k].handoff.callGeneration > call;
  }

  lemma OwnAnswers(c: Config, m: Manager, st: Station, call: u64, now: u64, route: u32, o: Oracle, k: nat)
    requires Sound(c, m) && k < |m.slots| && m.slots[k].owner.active
    requires forall j :: 0 <= j < |m.slots| ==> (IsHeld(m.slots[j], st.id) <==> j == k)
    requires call != 0 && c.enabled && st.enabled && Undisturbed(m, st.id)
    ensures var s := m.slots[k];
            var code := if s.owner.purpose == Call && call <= s.handoff.callGeneration then
                          (if call == s.handoff.callGeneration then Done else GenerationMismatch)
                        else if m.next == U64_MAX then ResourceExhausted
                        else IncomingHere(c, m, k, call, now, o).code;
            (code == Done <==> MayCall(c, m, st, call, now, route, o)) && CallAnswer(c, m, st, call, now, route, o, code)
  {
    hide Sound, Undisturbed, HasSession, PlaceFor, Reachable, MemoryEnough, OwnIsReady, OwnIsAhead, OwnStops, IncomingHere,
         MonitorReady, PreviewStops, Wanted, SameCall, LaterCall, IsHeld, Openable, OldestGivesWay;
    OwnIsOnly(c, m, st.id, now, o, k);
    OwnCalls(c, m, st, call, k);
    if m.next < U64_MAX {
      HereAnswers(c, m, k, call, now, o);
    }
  }

  lemma NoOwnCalls(c: Config, m: Manager, st: Station, call: u64)
    requires !HasSession(m, st.id) && call != 0 && c.enabled && st.enabled && Undisturbed(m, st.id)
    ensures Wanted(c, m, st, call)
    ensures forall k :: 0 <= k < |m.slots| ==> !SameCall(m.slots[k], st.id, call) && !LaterCall(m.slots[k], st.id, call)
  {
    assert forall k :: 0 <= k < |m.slots| ==> !IsHeld(m.slots[k], st.id);
  }

  lemma NewAnswers(c: Config, m: Manager, st: Station, call: u64, now: u64, route: u32, o: Oracle)
    requires Sound(c, m) && !HasSession(m, st.id)
    requires call != 0 && c.enabled && st.enabled && Undisturbed(m, st.id)
    ensures var code := if m.next == U64_MAX then ResourceExhausted
                        else if m.active >= |m.slots| then IncomingFull(c, m, st, call, now, route, o).code
                        else IncomingFree(c, m, st, call, now, route, o).code;
            (code == Done <==> MayCall(c, m, st, call, now, route, o)) && CallAnswer(c, m, st, call, now, route, o, code)
  {
    hide Sound, Undisturbed, HasSession, Reachable, MemoryEnough, OwnIsReady, OwnIsAhead, OwnStops, IncomingFull, IncomingFree,
         Wanted, SameCall, LaterCall, IsHeld, OldestGivesWay, Watchable, NamesFit, CallPrepared, IsPreview, Search;
    NoOwnCalls(c, m, st, call);
    RoomIsFree(c, m);
    if m.next < U64_MAX {
      PreparationAnswers(c, st, m.next + 1, call, now, route, o);
      if m.active < |m.slots| {
        FreeAnswers(c, m, st, call, now, route, o);
      } else {
        OldestIsPreview(m, now, o);
        FullAnswers(c, m, st, call, now, route, o);
      }
    }
  }

  lemma UnknownStations(c: Config, m: Manager, id: string, call: u64, now: u64, route: u32, o: Oracle)
    requires forall i :: 0 <= i < |c.stations| ==> c.stations[i].id != id
    ensures Incoming(c, m, id, call, now, route, o) == Answer(m, if call == 0 then BadRequest else StationNotFound)
  {
    NamedHasName(c.stations, id);
  }

  // ---------------------------------------------------------------------------
  // Previews.

  /** A full preview needs an encoder; one that only prepares an unlock does not. */
  predicate PreviewOpens(c: Config, st: Station, light: bool, route: u32, o: Oracle) {
    && Reachable(st, route, o) && MemoryEnough(c, o) && NamesFit(st)
    && (light || o(HookStarts)) && (c.local[0] != 0 ==> M.StationValid(st.address))
  }

  /** A session of the station there already is good enough: an unlock preparation cannot do
      with a full preview or a call. */
  predicate OwnSuffices(m: Manager, id: string, light: bool) {
    forall k :: 0 <= k < |m.slots| && IsHeld(m.slots[k], id) ==> light ==> m.slots[k].preparationOnly
  }

  predicate MayPreview(c: Config, m: Manager, st: Station, light: bool, route: u32, o: Oracle) {
    if HasSession(m, st.id) then OwnSuffices(m, st.id, light)
    else m.active < |m.slots| && m.next < U64_MAX && PreviewOpens(c, st, light, route, o)
  }

  predicate PreviewAnswer(c: Config, m: Manager, st: Station, light: bool, route: u32, o: Oracle, code: Code) {
    var opening := !HasSession(m, st.id) && m.active < |m.slots|;
    && (code == CapacityBusy <==>
          if HasSession(m, st.id) then !OwnSuffices(m, st.id, light) else m.active == |m.slots|)
    && (code == RouteUnavailable <==> opening && !Reachable(st, route, o))
    && (code == ResourceExhausted <==> opening && Reachable(st, route, o) && (!MemoryEnough(c, o) || m.next == U64_MAX))
    && (code == BadRequest <==>
          opening && Reachable(st, route, o) && MemoryEnough(c, o) && m.next < U64_MAX && !NamesFit(st))
    && (code == EncoderFault <==>
          && opening && Reachable(st, route, o) && MemoryEnough(c, o) && m.next < U64_MAX && NamesFit(st)
          && !PreviewOpens(c, st, light, route, o))
    && code in {Done, CapacityBusy, RouteUnavailable, ResourceExhausted, BadRequest, EncoderFault}
  }

  lemma PreviewPreparationAnswers(c: Config, st: Station, generation: u64, light: bool, now: u64, cooldown: u64,
                                  ipv4: u32, o: Oracle)
    requires 0 < generation && ipv4 != 0
    ensures PreviewPrepared(c, st, generation, light, now, cooldown, ipv4, o).Some? <==>
            (light || o(HookStarts)) && (c.local[0] != 0 ==> M.StationValid(st.address))
  {
  }

  /** A preview succeeds exactly when it may, and every obstacle has its answer. */
  lemma PreviewsAreAnswered(c: Config, m: Manager, st: Station, light: bool, now: u64, cooldown: u64, route: u32,
                            o: Oracle)
    requires Sound(c, m)
    ensures var code := StartPreview(c, m, st, light, now, cooldown, route, o).code;
            && (code == Done <==> MayPreview(c, m, st, light, route, o))
            && PreviewAnswer(c, m, st, light, route, o, code)
  {
    hide Sound, Search, PreviewPrepared, HasSession, NamesFit, MemoryShort, MemoryEnough;
    HeldIsFound(c, m, st.id);
    RoomIsFree(c, m);
    MemoryIsEnough(c, o);
    var k := Search(m.slots, Named(st.id));
    if k < |m.slots| {
      assert IsHeld(m.slots[k], st.id);
    } else if m.next < U64_MAX && RouteOf(st, route, o) != 0 {
      PreviewPreparationAnswers(c, st, m.next + 1, light, now, cooldown, RouteOf(st, route, o), o);
    }
  }

  lemma MemoryIsEnough(c: Config, o: Oracle)
    ensures MemoryShort(c, o) <==> !MemoryEnough(c, o)
  {
  }

  /** A station's call from here: there is one already, or nobody calls and an incoming call
      of the next generation may come. */
  lemma StartedCalls(c: Config, m: Manager, st: Station, now: u64, route: u32, o: Oracle)
    requires Sound(c, m) && Configured(c, st)
    ensures StartCall(c, m, st.id, now, route, o).code == Done <==>
            || (exists k :: 0 <= k < |m.slots| && IsHeld(m.slots[k], st.id) && m.slots[k].owner.purpose == Call)
            || (NoOtherCall(m.slots, -1) && m.next < U64_MAX && MayCall(c, m, st, m.next + 1, now, route, o))
  {
    hide Sound, Configured, Search, Incoming, MayCall, CallAnswer, HasSession;
    HeldIsFound(c, m, st.id);
    NoCallFound(m.slots, -1);
    var k := Search(m.slots, Named(st.id));
    if m.next < U64_MAX {
      CallsAreAnswered(c, m, st, m.next + 1, now, route, o);
      StartedIsFound(c, m, st.id, m.next + 1, now, route, o);
    }
  }

  lemma StartedIsFound(c: Config, m: Manager, id: string, call: u64, now: u64, route: u32, o: Oracle)
    requires Sound(c, m)
    ensures var r := Incoming(c, m, id, call, now, route, o);
            r.code == Done ==> Search(r.m.slots, Named(id)) < |r.m.slots|
  {
    hide Sound, Incoming, ActiveCount, IsOldest;
    CallsTakeTheirPlace(c, m, id, call, now, route, o);
    var r := Incoming(c, m, id, call, now, route, o);
    NoneNamed(r.m.slots, id);
    RoomIsFree(c, m);
  }

  // ---------------------------------------------------------------------------
  // Checks before an outgoing call.

  /** The preview's confirmation counts: it is of the attempt that plays, which is neither being
      given up nor out of time, and its pictures still come. */
  predicate Confirmed(s: Slot, now: u64) {
    var flags := s.monitor.flags;
    && s.confirmation.current && s.confirmation.generation == s.monitor.generation == s.mediaGeneration
    && !flags.retryAfterStop && !flags.retryReady && !flags.retryWaiting && !flags.peerStopSeen
    && (s.monitor.state == M.AwaitingVideo || s.monitor.state == M.Publishing || s.monitor.state == M.Viewing)
    && (s.monitor.state == M.AwaitingVideo ==> now < s.monitor.times.frameDeadline)
    && (s.stream.frames != 0 ==> (now - s.stream.lastFrame) % 0x1_0000_0000_0000_0000 < 30000)
  }

  /** The station is still found at the session's address. */
  predicate SameAddress(st: Station, s: Slot, route: u32, o: Oracle) {
    Reachable(st, route, o) && s.owner.ipv4 == if st.ipv4 != 0 then st.ipv4 else route
  }

  lemma WrappedTime(since: u64, now: u64)
    ensures Elapsed(since, now) == (now - since) % 0x1_0000_0000_0000_0000
  {
  }

  /** A preview may become an outgoing call exactly when its station is enabled, nobody else
      calls, its confirmation counts, its address stands and memory suffices; or it has become
      one already. Each obstacle has its answer. */
  lemma ChecksAreAnswered(c: Config, m: Manager, k: nat, st: Station, now: u64, route: u32, o: Oracle)
    requires k < |m.slots|
    ensures var s := m.slots[k];
            var code := Checked(c, m, k, st, now, route, o);
            var open := c.enabled && st.enabled && NoOtherCall(m.slots, k);
            && (code == Done <==>
                  open && if s.owner.purpose == Call then s.handoff.out
                          else Confirmed(s, now) && SameAddress(st, s, route, o) && MemoryEnough(c, o))
            && (code == StationDisabled <==> !c.enabled || !st.enabled)
            && (code == CapacityBusy <==>
                  && c.enabled && st.enabled
                  && (!NoOtherCall(m.slots, k) || (s.owner.purpose == Call && !s.handoff.out)))
            && (code == PreviewUnconfirmed <==> open && s.owner.purpose != Call && !Confirmed(s, now))
            && (code == RouteUnavailable <==>
                  open && s.owner.purpose != Call && Confirmed(s, now) && !SameAddress(st, s, route, o))
            && (code == ResourceExhausted <==>
                  && open && s.owner.purpose != Call && Confirmed(s, now) && SameAddress(st, s, route, o)
                  && !MemoryEnough(c, o))
  {
    hide Search, Elapsed;
    NoCallFound(m.slots, k);
    WrappedTime(m.slots[k].stream.lastFrame, now);
  }
}
