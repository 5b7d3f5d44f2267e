/** What the manager keeps on every run: slots are counted, stations and calls are unique,
    generations are never issued twice, and calls take exactly the place they may take. */
module MediaSoundness {
  import opened Words
  import opened MediaSessions
  import opened MediaManagers
  import M = Monitors

  function ActiveCount(slots: seq<Slot>): nat {
    if slots == [] then 0
    else ActiveCount(slots[..|slots| - 1]) + if slots[|slots| - 1].owner.active then 1 else 0
  }

  /** No slot stays reserved, and a slot not in use is empty. */
  predicate Tidy(slots: seq<Slot>) {
    forall k :: 0 <= k < |slots| ==> !slots[k].owner.reserved && (slots[k].owner.active || slots[k] == BLANK)
  }

  /** Two sessions differ in station and generation, and at most one is a call. */
  predicate Apart(a: Owner, b: Owner) {
    a.active && b.active ==> a.id != b.id && a.generation != b.generation && !(a.purpose == Call && b.purpose == Call)
  }

  predicate AllApart(slots: seq<Slot>) {
    forall j, k :: 0 <= j < k < |slots| ==> Apart(slots[j].owner, slots[k].owner)
  }

  predicate Issued(slots: seq<Slot>, next: u64) {
    forall k :: 0 <= k < |slots| && slots[k].owner.active ==> 0 < slots[k].owner.generation <= next
  }

  /** With a local address, only stations that a monitor accepts have sessions. */
  predicate Bindable(slots: seq<Slot>, local: Address) {
    forall k :: 0 <= k < |slots| && slots[k].owner.active && local[0] != 0 ==>
      M.StationValid(slots[k].owner.station) && slots[k].owner.ipv4 != 0
  }

  /** A session's monitor, unless idle, talks to the session's station in our name. */
  predicate Peered(local: Address, s: Slot) {
    s.monitor.state == M.Idle || s.monitor.peer == M.Peer(local, s.owner.station, s.owner.ipv4)
  }

  predicate AllPeered(slots: seq<Slot>, local: Address) {
    forall k :: 0 <= k < |slots| && slots[k].owner.active ==> Peered(local, slots[k])
  }

  predicate Sound(c: Config, m: Manager) {
    && m.active == ActiveCount(m.slots) && Tidy(m.slots) && AllApart(m.slots) && Issued(m.slots, m.next)
    && Bindable(m.slots, c.local) && AllPeered(m.slots, c.local)
  }

  // ---------------------------------------------------------------------------
  // Counting.

  lemma {:induction false} CountOfUpdate(slots: seq<Slot>, k: nat, s: Slot)
    requires k < |slots|
    ensures ActiveCount(slots[k := s]) ==
            ActiveCount(slots) - (if slots[k].owner.active then 1 else 0) + (if s.owner.active then 1 else 0)
    decreases |slots|
  {
    var last := |slots| - 1;
    if k == last {
      assert slots[k := s][..last] == slots[..last];
    } else {
      CountOfUpdate(slots[..last], k, s);
      assert slots[k := s][..last] == slots[..last][k := s];
    }
  }

  lemma {:induction false} CountIsBounded(slots: seq<Slot>)
    ensures ActiveCount(slots) <= |slots|
    ensures ActiveCount(slots) == |slots| <==> forall k :: 0 <= k < |slots| ==> slots[k].owner.active
    decreases |slots|
  {
    if slots != [] {
      var last := |slots| - 1;
      CountIsBounded(slots[..last]);
      assert forall k :: 0 <= k < last ==> slots[..last][k] == slots[k];
    }
  }

  /** Counting is what finding a free slot relies on. */
  lemma RoomIsFree(c: Config, m: Manager)
    requires Sound(c, m)
    ensures m.active < |m.slots| <==> Search(m.slots, Free) < |m.slots|
    ensures m.active <= |m.slots|
  {
    CountIsBounded(m.slots);
    if m.active < |m.slots| {
      var k :| 0 <= k < |m.slots| && !m.slots[k].owner.active;
      assert Hits(Free, m.slots[k], k);
    }
  }

  // ---------------------------------------------------------------------------
  // One slot changes.

  predicate ApartFrom(slots: seq<Slot>, k: nat, owner: Owner) {
    forall j :: 0 <= j < |slots| && j != k ==> Apart(slots[j].owner, owner)
  }

  predicate SameSession(a: Owner, b: Owner) {
    && a.active && b.active && a.id == b.id && a.generation == b.generation
    && a.station == b.station && a.ipv4 == b.ipv4
  }

  /** Later sessions are those of before, in the same slots, or have newer generations. */
  predicate Inherits(m: Manager, t: Manager) {
    && |t.slots| == |m.slots| && m.next <= t.next
    && forall k :: 0 <= k < |t.slots| && t.slots[k].owner.active ==>
         SameSession(m.slots[k].owner, t.slots[k].owner) || m.next < t.slots[k].owner.generation
  }

  predicate Follows(c: Config, m: Manager, t: Manager) {
    Sound(c, t) && Inherits(m, t)
  }

  predicate Fits(c: Config, m: Manager, k: nat, owner: Owner)
    requires k < |m.slots|
  {
    && !owner.reserved && ApartFrom(m.slots, k, owner)
    && (SameSession(m.slots[k].owner, owner) || m.next < owner.generation)
    && (c.local[0] != 0 ==> M.StationValid(owner.station) && owner.ipv4 != 0)
  }

  /** A slot gets a new session, or is emptied. */
  lemma UpdateFollows(c: Config, m: Manager, k: nat, s: Slot, active: int, next: u64)
    requires Sound(c, m) && k < |m.slots| && m.next <= next
    requires if s.owner.active then Fits(c, m, k, s.owner) && Peered(c.local, s) && 0 < s.owner.generation <= next
             else s == BLANK
    requires active == m.active - (if m.slots[k].owner.active then 1 else 0) + (if s.owner.active then 1 else 0)
    ensures Follows(c, m, Manager(m.slots[k := s], active, next))
  {
    CountOfUpdate(m.slots, k, s);
  }

  /** Whatever a slot's own operations do to it. */
  lemma MoveFollows(c: Config, m: Manager, k: nat, change: Change)
    requires Sound(c, m) && k < |m.slots| && m.slots[k].owner.active && Moves(m.slots[k], change)
    ensures Follows(c, m, Apply(m, k, change))
  {
    hide ActiveCount;
    CountOfUpdate(m.slots, k, BLANK);
    UpdateFollows(c, m, k, change.slot, if change.released then m.active - 1 else m.active, m.next);
  }

  lemma OwnerFollows(c: Config, m: Manager, k: nat, s: Slot)
    requires Sound(c, m) && k < |m.slots| && m.slots[k].owner.active && SameOwner(m.slots[k], s)
    ensures Follows(c, m, m.(slots := m.slots[k := s]))
  {
    MoveFollows(c, m, k, Unchanged(s));
  }

  lemma NothingFollows(c: Config, m: Manager)
    requires Sound(c, m)
    ensures Follows(c, m, m)
  {
  }

  lemma FollowsFollows(c: Config, a: Manager, b: Manager, d: Manager)
    requires Follows(c, a, b) && Follows(c, b, d)
    ensures Follows(c, a, d)
  {
  }

  // ---------------------------------------------------------------------------
  // Calls.

  lemma {:induction false} NamedHasName(stations: seq<Station>, id: string)
    ensures StationNamed(stations, id).Some? ==> StationNamed(stations, id).value.id == id
    ensures StationNamed(stations, id).Some? <==> exists i :: 0 <= i < |stations| && stations[i].id == id
  {
    if stations != [] {
      NamedHasName(stations[1..], id);
      if stations[0].id != id && StationNamed(stations, id).Some? {
        var i :| 0 <= i < |stations[1..]| && stations[1..][i].id == id;
        assert stations[i + 1].id == id;
      }
    }
  }

  predicate IsPreview(owner: Owner) {
    owner.active && owner.purpose == Preview
  }

  /** The preview that gives way: none was started earlier, and of those started together it
      has the first slot. */
  predicate IsOldest(slots: seq<Slot>, n: nat, v: nat)
    requires n <= |slots|
  {
    && v < n && IsPreview(slots[v].owner)
    && forall j :: 0 <= j < n && IsPreview(slots[j].owner) ==>
         slots[v].owner.started < slots[j].owner.started || (slots[v].owner.started == slots[j].owner.started && v <= j)
  }

  lemma {:induction false} OldestIsOldest(slots: seq<Slot>, n: nat)
    requires n <= |slots|
    ensures var v := OldestPreview(slots, n);
            if v >= |slots| then forall j :: 0 <= j < n ==> !IsPreview(slots[j].owner) else IsOldest(slots, n, v)
  {
    if n > 0 {
      OldestIsOldest(slots, n - 1);
    }
  }

  lemma PreparedFits(c: Config, st: Station, generation: u64, call: u64, now: u64, route: u32, o: Oracle)
    ensures CallPrepared(c, st, generation, call, now, route, o).0.Some? <==>
            CallPrepared(c, st, generation, call, now, route, o).1 == Done
    ensures CallPrepared(c, st, generation, call, now, route, o).0.Some? ==>
              var s := CallPrepared(c, st, generation, call, now, route, o).0.value;
              && s.owner == Owner(st.id, st.address, RouteOf(st, route, o), Call, generation, now, false, true)
              && generation != 0 && s.owner.ipv4 != 0 && s.handoff == NO_HANDOFF.(callGeneration := call)
              && (c.local[0] != 0 ==> M.StationValid(s.owner.station)) && Peered(c.local, s)
  {
  }

  lemma PreemptedMoves(s: Slot, now: u64, o: Oracle)
    ensures Moves(s, Preempted(s, now, o)) && !Preempted(s, now, o).released
  {
    hide M.Stopped, M.Stepped, M.WellSpoken;
    if M.Stopped(s.monitor, s.mediaGeneration, now).Some? {
      StopSpeaks(s, now);
    }
  }

  /** After the preflight, the monitor of an upgraded session always accepts the call. */
  lemma BindCannotFail(c: Config, m: Manager, k: nat, call: u64, now: u64, o: Oracle)
    requires Sound(c, m) && k < |m.slots| && m.slots[k].owner.active && m.next < U64_MAX
    requires Preflight(m.slots[k], c.local, c.seconds, now)
    requires Upgraded(m.slots[k], m.next + 1, call, now, o).1 == Done
    ensures CallBound(Upgraded(m.slots[k], m.next + 1, call, now, o).0, c.local, c.seconds, now).Some?
  {
    var s := m.slots[k];
    var up := Upgraded(s, m.next + 1, call, now, o).0;
    if c.local[0] != 0 {
      assert c.local != M.NOBODY;
      assert M.Startable(c.local, up.owner.station, up.owner.ipv4, up.mediaGeneration);
    }
  }

  predicate NoOtherCall(slots: seq<Slot>, k: int) {
    forall j :: 0 <= j < |slots| && j != k ==> !(slots[j].owner.active && slots[j].owner.purpose == Call)
  }

  lemma NoCallFound(slots: seq<Slot>, k: int)
    ensures NoOtherCall(slots, k) <==> Search(slots, CallBut(k)) == |slots|
  {
    hide Search;
    var f := Search(slots, CallBut(k));
    if f == |slots| {
      forall j | 0 <= j < |slots| && j != k
        ensures !(slots[j].owner.active && slots[j].owner.purpose == Call)
      {
        assert !Hits(CallBut(k), slots[j], j);
      }
    }
  }

  predicate NoSession(slots: seq<Slot>, id: string) {
    forall j :: 0 <= j < |slots| ==> !(slots[j].owner.active && slots[j].owner.id == id)
  }

  lemma NoneNamed(slots: seq<Slot>, id: string)
    ensures NoSession(slots, id) <==> Search(slots, Named(id)) == |slots|
  {
    hide Search;
    if Search(slots, Named(id)) == |slots| {
      forall j | 0 <= j < |slots|
        ensures !(slots[j].owner.active && slots[j].owner.id == id)
      {
        assert !Hits(Named(id), slots[j], j);
      }
    }
  }

  lemma HereFollows(c: Config, m: Manager, k: nat, call: u64, now: u64, o: Oracle)
    requires Sound(c, m) && k < |m.slots| && m.slots[k].owner.active && m.next < U64_MAX
    requires NoOtherCall(m.slots, k)
    ensures Follows(c, m, IncomingHere(c, m, k, call, now, o).m)
  {
    hide ActiveCount, CallBound, Preflight;
    var s := m.slots[k];
    NothingFollows(c, m);
    var (up, code) := Upgraded(s, m.next + 1, call, now, o);
    if code != Done {
      OwnerFollows(c, m, k, up);
    } else if Preflight(s, c.local, c.seconds, now) {
      BindCannotFail(c, m, k, call, now, o);
      var bound := CallBound(up, c.local, c.seconds, now).value;
      BindingKeepsOwner(up, c.local, c.seconds, now);
      assert Fits(c, m, k, bound.owner);
      UpdateFollows(c, m, k, bound, m.active, m.next + 1);
    }
  }

  lemma NewCallFits(c: Config, m: Manager, k: nat, st: Station, call: u64, now: u64, route: u32, o: Oracle)
    requires Sound(c, m) && k < |m.slots| && m.next < U64_MAX
    requires NoOtherCall(m.slots, k) && NoSession(m.slots, st.id)
    requires CallPrepared(c, st, m.next + 1, call, now, route, o).0.Some?
    ensures Fits(c, m, k, CallPrepared(c, st, m.next + 1, call, now, route, o).0.value.owner)
  {
    hide CallPrepared;
    PreparedFits(c, st, m.next + 1, call, now, route, o);
  }

  lemma FullFollows(c: Config, m: Manager, st: Station, call: u64, now: u64, route: u32, o: Oracle)
    requires Sound(c, m) && m.next < U64_MAX
    requires NoOtherCall(m.slots, -1) && NoSession(m.slots, st.id)
    ensures Follows(c, m, IncomingFull(c, m, st, call, now, route, o).m)
  {
    hide ActiveCount, CallPrepared, Preempted;
    var v := OldestPreview(m.slots, |m.slots|);
    var (prepared, code) := CallPrepared(c, st, m.next + 1, call, now, route, o);
    OldestIsOldest(m.slots, |m.slots|);
    NothingFollows(c, m);
    if v < |m.slots| && prepared.Some? {
      PreemptedMoves(m.slots[v], now, o);
      MoveFollows(c, m, v, Preempted(m.slots[v], now, o));
      PreparedFits(c, st, m.next + 1, call, now, route, o);
      NewCallFits(c, m, v, st, call, now, route, o);
      UpdateFollows(c, m, v, prepared.value, m.active, m.next + 1);
    }
  }

  lemma FreeFollows(c: Config, m: Manager, st: Station, call: u64, now: u64, route: u32, o: Oracle)
    requires Sound(c, m) && m.next < U64_MAX
    requires NoOtherCall(m.slots, -1) && NoSession(m.slots, st.id)
    ensures Follows(c, m, IncomingFree(c, m, st, call, now, route, o).m)
  {
    hide ActiveCount, CallPrepared;
    var k := Search(m.slots, Free);
    var (prepared, code) := CallPrepared(c, st, m.next + 1, call, now, route, o);
    NothingFollows(c, m);
    if k < |m.slots| {
      if prepared.Some? {
        PreparedFits(c, st, m.next + 1, call, now, route, o);
        NewCallFits(c, m, k, st, call, now, route, o);
        UpdateFollows(c, m, k, prepared.value, m.active + 1, m.next + 1);
      } else {
        UpdateFollows(c, m, k, BLANK, m.active, m.next);
      }
    }
  }

  lemma IncomingFollows(c: Config, m: Manager, id: string, call: u64, now: u64, route: u32, o: Oracle)
    requires Sound(c, m)
    ensures Follows(c, m, Incoming(c, m, id, call, now, route, o).m)
  {
    hide ActiveCount, IncomingHere, IncomingFull, IncomingFree, Search, StationNamed;
    var station := StationNamed(c.stations, id);
    var k := Search(m.slots, Named(id));
    NothingFollows(c, m);
    NamedHasName(c.stations, id);
    NoneNamed(m.slots, id);
    NoCallFound(m.slots, if k < |m.slots| then k else -1);
    if m.next < U64_MAX && station.Some? && Search(m.slots, CallBut(if k < |m.slots| then k else -1)) == |m.slots| {
      if k < |m.slots| {
        HereFollows(c, m, k, call, now, o);
      } else {
        FullFollows(c, m, station.value, call, now, route, o);
        FreeFollows(c, m, station.value, call, now, route, o);
      }
    }
  }

  lemma StartCallFollows(c: Config, m: Manager, id: string, now: u64, route: u32, o: Oracle)
    requires Sound(c, m)
    ensures Follows(c, m, StartCall(c, m, id, now, route, o).m)
  {
    hide Incoming, Search, Follows;
    NothingFollows(c, m);
    if m.next < U64_MAX {
      IncomingFollows(c, m, id, m.next + 1, now, route, o);
    }
  }

  /** Every slot is whose it was, and nothing was issued. */
  predicate OwnersKept(m: Manager, t: Manager) {
    && |t.slots| == |m.slots| && t.active == m.active && t.next == m.next
    && forall k :: 0 <= k < |m.slots| ==> t.slots[k].owner == m.slots[k].owner
  }

  predicate IsNewCall(m: Manager, s: Slot, id: string, call: u64, now: u64) {
    && s.owner.active && s.owner.id == id && s.owner.purpose == Call && s.owner.generation == m.next + 1
    && s.owner.started == now && s.handoff == NO_HANDOFF.(callGeneration := call)
  }

  /** Only slot `k` changed, and it now holds the new call. */
  predicate CallPlaced(m: Manager, t: Manager, k: nat, id: string, call: u64, now: u64) {
    && k < |m.slots| == |t.slots| && t.slots == m.slots[k := t.slots[k]] && IsNewCall(m, t.slots[k], id, call, now)
    && t.next == m.next + 1
  }

  lemma PlacedIsNew(m: Manager, t: Manager, id: string, call: u64, now: u64)
    ensures (exists k :: CallPlaced(m, t, k, id, call, now)) ==> t.next != m.next
  {
  }

  lemma HereOutcome(c: Config, m: Manager, k: nat, call: u64, now: u64, o: Oracle)
    requires Sound(c, m) && k < |m.slots| && m.slots[k].owner.active && m.next < U64_MAX
    ensures var r := IncomingHere(c, m, k, call, now, o);
            if r.code == Done then CallPlaced(m, r.m, k, m.slots[k].owner.id, call, now) && r.m.active == m.active
            else OwnersKept(m, r.m)
  {
    hide ActiveCount, Preflight, M.Bound;
    if Preflight(m.slots[k], c.local, c.seconds, now) && Upgraded(m.slots[k], m.next + 1, call, now, o).1 == Done {
      BindCannotFail(c, m, k, call, now, o);
    }
  }

  lemma FullOutcome(c: Config, m: Manager, st: Station, call: u64, now: u64, route: u32, o: Oracle)
    requires Sound(c, m) && m.next < U64_MAX
    ensures var r := IncomingFull(c, m, st, call, now, route, o);
            if r.code == Done then
              && r.m.active == m.active && !c.preserve
              && exists v :: IsOldest(m.slots, |m.slots|, v) && CallPlaced(m, r.m, v, st.id, call, now)
            else OwnersKept(m, r.m)
  {
    hide ActiveCount, CallPrepared, Preempted, OldestPreview, IsOldest, Sound, RouteOf;
    var v := OldestPreview(m.slots, |m.slots|);
    OldestIsOldest(m.slots, |m.slots|);
    var r := IncomingFull(c, m, st, call, now, route, o);
    PreparedFits(c, st, m.next + 1, call, now, route, o);
    if v < |m.slots| {
      PreemptedMoves(m.slots[v], now, o);
      assert r.code == Done ==> CallPlaced(m, r.m, v, st.id, call, now);
    }
  }

  lemma FreeOutcome(c: Config, m: Manager, st: Station, call: u64, now: u64, route: u32, o: Oracle)
    requires Sound(c, m) && m.next < U64_MAX
    ensures var r := IncomingFree(c, m, st, call, now, route, o);
            if r.code == Done then
              && r.m.active == m.active + 1
              && exists k :: 0 <= k < |m.slots| && m.slots[k] == BLANK && CallPlaced(m, r.m, k, st.id, call, now)
            else OwnersKept(m, r.m)
  {
    hide ActiveCount, CallPrepared, Search, RouteOf;
    var k := Search(m.slots, Free);
    var r := IncomingFree(c, m, st, call, now, route, o);
    PreparedFits(c, st, m.next + 1, call, now, route, o);
    if k < |m.slots| {
      assert r.code == Done ==> CallPlaced(m, r.m, k, st.id, call, now);
    }
  }

  /** An incoming call changes nobody's session unless it succeeds. When it does, it is the
      call already there, or it takes the place of the station's own session, or an empty
      slot, or, when all slots are taken, exactly that of the preview started first. */
  lemma CallsTakeTheirPlace(c: Config, m: Manager, id: string, call: u64, now: u64, route: u32, o: Oracle)
    requires Sound(c, m)
    ensures var r := Incoming(c, m, id, call, now, route, o);
            && (r.code != Done ==> OwnersKept(m, r.m))
            && (r.code == Done && r.m == m ==>
                  exists k :: 0 <= k < |m.slots| && m.slots[k].owner.active && m.slots[k].owner.id == id
                              && m.slots[k].owner.purpose == Call && m.slots[k].handoff.callGeneration == call)
            && (r.code == Done && r.m != m && !NoSession(m.slots, id) ==>
                  exists k :: 0 <= k < |m.slots| && m.slots[k].owner.active && m.slots[k].owner.id == id
                              && CallPlaced(m, r.m, k, id, call, now) && r.m.active == m.active)
            && (r.code == Done && NoSession(m.slots, id) && m.active < |m.slots| ==>
                  && r.m.active == m.active + 1
                  && exists k :: 0 <= k < |m.slots| && m.slots[k] == BLANK && CallPlaced(m, r.m, k, id, call, now))
            && (r.code == Done && NoSession(m.slots, id) && m.active == |m.slots| ==>
                  && r.m.active == m.active && !c.preserve
                  && exists v :: IsOldest(m.slots, |m.slots|, v) && CallPlaced(m, r.m, v, id, call, now))
  {
    hide ActiveCount, IncomingHere, IncomingFull, IncomingFree, Search, StationNamed, IsOldest, CallPlaced;
    var station := StationNamed(c.stations, id);
    var k := Search(m.slots, Named(id));
    var r := Incoming(c, m, id, call, now, route, o);
    NamedHasName(c.stations, id);
    NoneNamed(m.slots, id);
    RoomIsFree(c, m);
    if m.next < U64_MAX && station.Some? {
      if k < |m.slots| {
        HereOutcome(c, m, k, call, now, o);
        PlacedIsNew(m, IncomingHere(c, m, k, call, now, o).m, id, call, now);
      } else {
        FullOutcome(c, m, station.value, call, now, route, o);
        FreeOutcome(c, m, station.value, call, now, route, o);
        PlacedIsNew(m, r.m, id, call, now);
      }
    }
  }

  // ---------------------------------------------------------------------------
  // Previews.

  lemma PreviewFits(c: Config, st: Station, generation: u64, light: bool, now: u64, cooldown: u64, ipv4: u32,
                    o: Oracle)
    requires PreviewPrepared(c, st, generation, light, now, cooldown, ipv4, o).Some?
    ensures var owner := PreviewPrepared(c, st, generation, light, now, cooldown, ipv4, o).value.owner;
            && owner == Owner(st.id, st.address, ipv4, Preview, generation, now, false, true) && generation != 0
            && Peered(c.local, PreviewPrepared(c, st, generation, light, now, cooldown, ipv4, o).value)
            && (c.local[0] != 0 ==> M.StationValid(owner.station) && owner.ipv4 != 0)
  {
    hide Timed;
  }

  lemma PreviewFollows(c: Config, m: Manager, st: Station, light: bool, now: u64, cooldown: u64, route: u32,
                       o: Oracle)
    requires Sound(c, m)
    ensures Follows(c, m, StartPreview(c, m, st, light, now, cooldown, route, o).m)
  {
    hide ActiveCount, PreviewPrepared, Search, Follows;
    var k := Search(m.slots, Named(st.id));
    var free := Search(m.slots, Free);
    var ipv4 := RouteOf(st, route, o);
    NothingFollows(c, m);
    NoneNamed(m.slots, st.id);
    if k < |m.slots| {
      OwnerFollows(c, m, k, Adopted(m.slots[k]));
    } else if free < |m.slots| {
      UpdateFollows(c, m, free, BLANK, m.active, m.next);
      if m.next < U64_MAX && PreviewPrepared(c, st, m.next + 1, light, now, cooldown, ipv4, o).Some? {
        var s := PreviewPrepared(c, st, m.next + 1, light, now, cooldown, ipv4, o).value;
        PreviewFits(c, st, m.next + 1, light, now, cooldown, ipv4, o);
        assert Fits(c, m, free, s.owner);
        UpdateFollows(c, m, free, s, m.active + 1, m.next + 1);
      }
    }
  }

  lemma StartFollows(c: Config, m: Manager, id: string, purpose: Purpose, light: bool, now: u64, cooldown: u64,
                     route: u32, o: Oracle)
    requires Sound(c, m)
    ensures Follows(c, m, Start(c, m, id, purpose, light, now, cooldown, route, o).m)
  {
    hide StartCall, StartPreview, Follows, Sound, StationNamed;
    NothingFollows(c, m);
    StartCallFollows(c, m, id, now, route, o);
    if StationNamed(c.stations, id).Some? {
      PreviewFollows(c, m, StationNamed(c.stations, id).value, light, now, cooldown, route, o);
    }
  }

  // ---------------------------------------------------------------------------
  // Everything else.

  lemma OperatedFollows(c: Config, m: Manager, k: nat, st: Station, op: Operation, control: u64, now: u64, route: u32,
                        o: Oracle)
    requires Sound(c, m) && k < |m.slots| && m.slots[k].owner.active
    ensures Follows(c, m, OperatedAt(c, m, k, st, op, control, now, route, o).m)
  {
    hide ActiveCount, Checked, Entitled, Follows;
    var s := m.slots[k];
    NothingFollows(c, m);
    MoveFollows(c, m, k, ReleasedOnRequest(s, op, now, o(EncoderStops)));
    UpdateFollows(c, m, k, RolledBack(s), m.active, m.next);
    OwnerFollows(c, m, k, s.(handoff := s.handoff.(commandSent := true)));
    OwnerFollows(c, m, k, s.(handoff := s.handoff.(callGeneration := control)));
  }

  lemma OperateFollows(c: Config, m: Manager, op: Operation, id: string, generation: u64, control: u64, now: u64,
                       route: u32, o: Oracle)
    requires Sound(c, m)
    ensures Follows(c, m, Operate(c, m, op, id, generation, control, now, route, o).m)
  {
    hide OperatedAt, Follows, Sound, StationNamed, Search;
    var k := Search(m.slots, Named(id));
    NothingFollows(c, m);
    if StationNamed(c.stations, id).Some? && k < |m.slots| {
      OperatedFollows(c, m, k, StationNamed(c.stations, id).value, op, control, now, route, o);
    }
  }

  lemma CheckChangesNothing(c: Config, m: Manager, id: string, generation: u64, control: u64, now: u64, route: u32,
                            o: Oracle)
    ensures Operate(c, m, Check, id, generation, control, now, route, o).m == m
    ensures Operate(c, m, Check, id, generation, control, now, route, o).log == []
    ensures Operate(c, m, Check, id, generation, control, now, route, o).code == Done ==>
              Search(m.slots, Named(id)) < |m.slots| && NoOtherCall(m.slots, Search(m.slots, Named(id)))
  {
    hide Search, StationNamed, Usable;
    var k := Search(m.slots, Named(id));
    NoCallFound(m.slots, k);
  }

  lemma HandOverFollows(c: Config, m: Manager, id: string, now: u64, route: u32, o: Oracle)
    requires Sound(c, m)
    ensures Follows(c, m, HandOver(c, m, id, now, route, o).m)
  {
    hide ActiveCount, Operate, Follows, Search;
    var k := Search(m.slots, Named(id));
    NothingFollows(c, m);
    if k < |m.slots| {
      var s := m.slots[k];
      CheckChangesNothing(c, m, id, s.owner.generation, 0, now, route, o);
      if NoOtherCall(m.slots, k) && Promoted(s, 0, now).Some? {
        var call := Promoted(s, 0, now).value;
        assert Fits(c, m, k, call.owner);
        UpdateFollows(c, m, k, call, m.active, m.next);
      }
    }
  }

  lemma CommandedFollows(c: Config, m: Manager, command: Command, id: string, generation: u64, now: u64, o: Oracle)
    requires Sound(c, m)
    ensures Follows(c, m, Commanded(c, m, command, id, generation, now, o).m)
  {
    hide ActiveCount, StoppedByCommand, ViewerSet, Follows, Search, StationNamed;
    var k := Search(m.slots, Named(id));
    NothingFollows(c, m);
    if k < |m.slots| {
      var s := m.slots[k];
      CommandMoves(s, now, o);
      MoveFollows(c, m, k, StoppedByCommand(s, now, o).0);
      if command.View? {
        ViewingKeepsOwner(s, command.watched);
        OwnerFollows(c, m, k, ViewerSet(s, command.watched));
      }
    }
  }

  lemma ControlFollows(c: Config, m: Manager, f: Frame, ipv4: u32, now: u64, o: Oracle)
    requires Sound(c, m)
    ensures Follows(c, m, Control(c, m, f, ipv4, now, o).m)
  {
    hide ControlReceived, Follows, Search, Sound;
    var k := Search(m.slots, Sender(f.source, ipv4));
    NothingFollows(c, m);
    if k < |m.slots| {
      ControlMoves(m.slots[k], c.local, f, ipv4, now, o);
      MoveFollows(c, m, k, ControlReceived(m.slots[k], c.local, f, ipv4, now, o).0);
    }
  }

  lemma PictureFollows(c: Config, m: Manager, source: Address, destination: Address, ipv4: u32, valid: bool, at: u64,
                       path: Path, o: Oracle)
    requires Sound(c, m)
    ensures Follows(c, m, Picture(c, m, source, destination, ipv4, valid, at, path, o).m)
  {
    hide PictureReceived, Follows, Search, Sound;
    var k := Search(m.slots, Seen(source));
    NothingFollows(c, m);
    if k < |m.slots| {
      PictureMoves(m.slots[k], source, destination, ipv4, valid, at, path, o);
      MoveFollows(c, m, k, PictureReceived(m.slots[k], source, destination, ipv4, valid, at, path, o).0);
    }
  }

  lemma TickAtFollows(c: Config, m: Manager, k: nat, now: u64, o: Oracle)
    requires Sound(c, m) && k < |m.slots|
    ensures Follows(c, m, TickAt(c, m, k, now, o).m)
  {
    hide Ticked, Operate, Follows, Sound;
    var s := m.slots[k];
    NothingFollows(c, m);
    if s.owner.active {
      TickMoves(s, now, o);
      MoveFollows(c, m, k, Ticked(s, now, o));
      MoveFollows(c, m, k, ReleasedFailed(s, o(EndStops)));
      if s.cleanup.pending.Some? {
        OperateFollows(c, m, s.cleanup.pending.value, s.owner.id, s.owner.generation, s.handoff.callGeneration, now,
                       0, o);
      }
    }
  }

  lemma {:induction false} TickFollows(c: Config, m: Manager, n: nat, now: u64, os: nat -> Oracle)
    requires Sound(c, m) && n <= |m.slots|
    ensures Follows(c, m, Tick(c, m, n, now, os).m)
  {
    hide TickAt, Sound;
    if n == 0 {
      NothingFollows(c, m);
    } else {
      var earlier := Tick(c, m, n - 1, now, os);
      TickFollows(c, m, n - 1, now, os);
      TickAtFollows(c, earlier.m, n - 1, now, os(n - 1));
      FollowsFollows(c, m, earlier.m, TickAt(c, earlier.m, n - 1, now, os(n - 1)).m);
    }
  }

  // ---------------------------------------------------------------------------
  // Runs.

  datatype Event =
    | Starting(id: string, purpose: Purpose, light: bool, cooldown: u64)
    | Calling(id: string, call: u64)
    | HandingOver(id: string)
    | Operating(op: Operation, id: string, generation: u64, control: u64)
    | Commanding(command: Command, id: string, generation: u64)
    | Frame(frame: MediaSessions.Frame, ipv4: u32)
    | Image(source: Address, destination: Address, ipv4: u32, valid: bool, path: Path)
    | Time

  /** An event, when it happens, and what the outside world answers meanwhile. */
  datatype Input = Input(event: Event, now: u64, route: u32, os: nat -> Oracle)

  function Step(c: Config, m: Manager, i: Input): Outcome {
    var o := i.os(0);
    match i.event
    case Starting(id, purpose, light, cooldown) => Start(c, m, id, purpose, light, i.now, cooldown, i.route, o)
    case Calling(id, call) => Incoming(c, m, id, call, i.now, i.route, o)
    case HandingOver(id) => HandOver(c, m, id, i.now, i.route, o)
    case Operating(op, id, generation, control) => Operate(c, m, op, id, generation, control, i.now, i.route, o)
    case Commanding(command, id, generation) => Commanded(c, m, command, id, generation, i.now, o)
    case Frame(frame, ipv4) => Control(c, m, frame, ipv4, i.now, o)
    case Image(source, destination, ipv4, valid, path) =>
      Picture(c, m, source, destination, ipv4, valid, i.now, path, o)
    case Time => Tick(c, m, |m.slots|, i.now, i.os)
  }

  lemma StepFollows(c: Config, m: Manager, i: Input)
    requires Sound(c, m)
    ensures Follows(c, m, Step(c, m, i).m)
  {
    hide Start, Incoming, HandOver, Operate, Commanded, Control, Picture, Tick, Sound, Follows;
    var o := i.os(0);
    match i.event
    case Starting(id, purpose, light, cooldown) => StartFollows(c, m, id, purpose, light, i.now, cooldown, i.route,
                                                                o);
    case Calling(id, call) => IncomingFollows(c, m, id, call, i.now, i.route, o);
    case HandingOver(id) => HandOverFollows(c, m, id, i.now, i.route, o);
    case Operating(op, id, generation, control) =>
      OperateFollows(c, m, op, id, generation, control, i.now, i.route, o);
    case Commanding(command, id, generation) => CommandedFollows(c, m, command, id, generation, i.now, o);
    case Frame(frame, ipv4) => ControlFollows(c, m, frame, ipv4, i.now, o);
    case Image(source, destination, ipv4, valid, path) =>
      PictureFollows(c, m, source, destination, ipv4, valid, i.now, path, o);
    case Time => TickFollows(c, m, |m.slots|, i.now, i.os);
  }

  datatype World = World(m: Manager, log: seq<Entry>)

  function Run(c: Config, inputs: seq<Input>): World {
    if inputs == [] then World(Initial(c), [])
    else
      var before := Run(c, inputs[..|inputs| - 1]);
      var out := Step(c, before.m, inputs[|inputs| - 1]);
      World(out.m, before.log + out.log)
  }

  lemma {:induction false} NothingIsSound(c: Config)
    ensures Sound(c, Initial(c))
  {
    CountIsBounded(Initial(c).slots);
    BlanksCountZero(Initial(c).slots);
  }

  lemma {:induction false} BlanksCountZero(slots: seq<Slot>)
    requires forall k :: 0 <= k < |slots| ==> !slots[k].owner.active
    ensures ActiveCount(slots) == 0
  {
    if slots != [] {
      BlanksCountZero(slots[..|slots| - 1]);
    }
  }

  lemma {:induction false} EveryRunIsSound(c: Config, inputs: seq<Input>)
    ensures Sound(c, Run(c, inputs).m)
    ensures |Run(c, inputs).m.slots| == Capacity(c)
  {
    hide Step, Sound;
    if inputs == [] {
      NothingIsSound(c);
    } else {
      EveryRunIsSound(c, inputs[..|inputs| - 1]);
      StepFollows(c, Run(c, inputs[..|inputs| - 1]).m, inputs[|inputs| - 1]);
    }
  }

  /** On every run the count is that of the sessions, at most the capacity; no slot is left
      reserved; each station has at most one session and at most one session is a call;
      generations are positive, distinct, and at most the last one issued. */
  lemma SlotsAreKept(c: Config, inputs: seq<Input>)
    ensures var m := Run(c, inputs).m;
            && m.active == ActiveCount(m.slots) <= |m.slots| == Capacity(c)
            && (forall k :: 0 <= k < |m.slots| ==> !m.slots[k].owner.reserved)
            && (forall j, k :: 0 <= j < |m.slots| && 0 <= k < |m.slots| && m.slots[j].owner.active
                               && m.slots[k].owner.active && j != k ==>
                  && m.slots[j].owner.id != m.slots[k].owner.id
                  && m.slots[j].owner.generation != m.slots[k].owner.generation
                  && !(m.slots[j].owner.purpose == Call && m.slots[k].owner.purpose == Call))
            && (forall k :: 0 <= k < |m.slots| && m.slots[k].owner.active ==>
                  0 < m.slots[k].owner.generation <= m.next)
  {
    hide Run, ActiveCount;
    EveryRunIsSound(c, inputs);
    var m := Run(c, inputs).m;
    CountIsBounded(m.slots);
    forall j, k | 0 <= j < |m.slots| && 0 <= k < |m.slots| && m.slots[j].owner.active && m.slots[k].owner.active && j != k
      ensures && m.slots[j].owner.id != m.slots[k].owner.id
              && m.slots[j].owner.generation != m.slots[k].owner.generation
              && !(m.slots[j].owner.purpose == Call && m.slots[k].owner.purpose == Call)
    {
      assert Apart(m.slots[Min(j, k)].owner, m.slots[Max(j, k)].owner);
    }
  }

  lemma {:induction false} LaterInherits(c: Config, inputs: seq<Input>, n: nat)
    requires n <= |inputs|
    ensures Inherits(Run(c, inputs[..n]).m, Run(c, inputs).m)
    decreases |inputs|
  {
    hide Step;
    var here := Run(c, inputs[..n]).m;
    if n == |inputs| {
      assert inputs[..n] == inputs;
    } else {
      var before := inputs[..|inputs| - 1];
      assert before[..n] == inputs[..n];
      LaterInherits(c, before, n);
      EveryRunIsSound(c, before);
      StepFollows(c, Run(c, before).m, inputs[|inputs| - 1]);
    }
  }

  /** A generation is issued once: whenever it is seen, it is the same station in the same
      slot, and it was in use at every moment between. */
  lemma GenerationsAreIssuedOnce(c: Config, inputs: seq<Input>, early: nat, middle: nat, j: nat, k: nat)
    requires early <= middle <= |inputs|
    requires j < Capacity(c) && k < Capacity(c)
    requires |Run(c, inputs[..early]).m.slots| == |Run(c, inputs).m.slots| == Capacity(c)
    requires Run(c, inputs[..early]).m.slots[j].owner.active && Run(c, inputs).m.slots[k].owner.active
    requires Run(c, inputs[..early]).m.slots[j].owner.generation == Run(c, inputs).m.slots[k].owner.generation
    ensures j == k && Run(c, inputs[..early]).m.slots[j].owner.id == Run(c, inputs).m.slots[k].owner.id
    ensures |Run(c, inputs[..middle]).m.slots| == Capacity(c)
    ensures SameSession(Run(c, inputs[..middle]).m.slots[k].owner, Run(c, inputs).m.slots[k].owner)
  {
    hide Run, ActiveCount;
    assert inputs[..middle][..early] == inputs[..early];
    LaterInherits(c, inputs, early);
    LaterInherits(c, inputs, middle);
    LaterInherits(c, inputs[..middle], early);
    EveryRunIsSound(c, inputs[..early]);
  }
}
