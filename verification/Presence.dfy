/** Presence of the indoor peers and the sync phases, driven by two timers that catch up
    (src/gvs_presence.c). */
module Presences {
  import opened Words
  import opened Frames

  const PEER_INITIAL_SECONDS := 61
  const PEER_RESET_SECONDS := 60
  const PEER_PROBE_SECONDS := 30
  const PEER_TICK_MS := 1000
  const START_DELAY_MS := 3000
  const ASK_INTERVAL_MS := 500
  const CHOOSE_INTERVAL_MS := 1000
  const PERIODIC_INTERVAL_MS := 60000
  const SYNC_ROUNDS := 3

  datatype Phase = Down | WaitSync | SyncAsk | SyncChoose | Periodic

  datatype ActionKind = PeerProbe | PeerOnline | PeerOffline | AskSync | AskVersion | SendPeriodic

  datatype Action = Action(kind: ActionKind, target: Address, round: nat)

  datatype Peer = Peer(address: Address, online: bool, seconds: nat)

  datatype Presence = Presence(
    phase: Phase, identity: Address, peers: seq<Peer>, maintainer: bool, version: u16, round: nat, misses: nat,
    lastNow: u64, nextPeer: u64, nextPhase: u64)

  const STOPPED := Presence(Down, [0, 0, 0, 0, 0, 0], [], false, 0, 0, 0, 0, 0, 0)

  // ---------------------------------------------------------------------------
  // One pass of either timer, when every action is accepted.

  function PeerAfter(p: Peer): Peer {
    var left := if p.seconds > 0 then p.seconds - 1 else 0;
    if left == 0 then p.(online := false, seconds := PEER_RESET_SECONDS) else p.(seconds := left)
  }

  function PeerNews(p: Peer): seq<Action> {
    var left := if p.seconds > 0 then p.seconds - 1 else 0;
    if left == 0 then [Action(PeerOffline, p.address, 0)]
    else if left % PEER_PROBE_SECONDS == 0 then [Action(PeerProbe, p.address, 0)]
    else []
  }

  function PeersAfter(peers: seq<Peer>): (after: seq<Peer>)
    ensures |after| == |peers|
  {
    if peers == [] then [] else PeersAfter(peers[..|peers| - 1]) + [PeerAfter(peers[|peers| - 1])]
  }

  function PeersNews(peers: seq<Peer>): seq<Action> {
    if peers == [] then [] else PeersNews(peers[..|peers| - 1]) + PeerNews(peers[|peers| - 1])
  }

  /** The same action for every indoor peer. */
  function ToIndoor(peers: seq<Peer>, kind: ActionKind, round: nat): seq<Action> {
    if peers == [] then []
    else
      var last := peers[|peers| - 1];
      ToIndoor(peers[..|peers| - 1], kind, round) + if last.address[0] == 0x61 then [Action(kind, last.address, round)] else []
  }

  datatype Pass = Pass(p: Presence, actions: seq<Action>)

  predicate Due(p: Presence, now: u64) {
    p.nextPeer <= now || p.nextPhase <= now
  }

  function PeerPass(p: Presence): Pass
    requires p.nextPeer <= U64_MAX - PERIODIC_INTERVAL_MS
  {
    Pass(p.(peers := PeersAfter(p.peers), nextPeer := p.nextPeer + PEER_TICK_MS), PeersNews(p.peers))
  }

  function PhasePass(p: Presence): Pass
    requires p.phase != Down && p.nextPhase <= U64_MAX - PERIODIC_INTERVAL_MS
  {
    match p.phase
    case WaitSync =>
      Pass(p.(phase := SyncAsk, round := 1, nextPhase := p.nextPhase + ASK_INTERVAL_MS), ToIndoor(p.peers, AskSync, 1))
    case SyncAsk =>
      if p.round < SYNC_ROUNDS then
        Pass(p.(round := p.round + 1, nextPhase := p.nextPhase + ASK_INTERVAL_MS), ToIndoor(p.peers, AskSync, p.round + 1))
      else
        Pass(p.(phase := SyncChoose, maintainer := true, round := 1, nextPhase := p.nextPhase + CHOOSE_INTERVAL_MS),
             ToIndoor(p.peers, AskVersion, 1))
    case SyncChoose =>
      if p.round < SYNC_ROUNDS then
        Pass(p.(round := p.round + 1, nextPhase := p.nextPhase + CHOOSE_INTERVAL_MS), ToIndoor(p.peers, AskVersion, p.round + 1))
      else Pass(p.(phase := Periodic, round := 0, nextPhase := p.nextPhase + PERIODIC_INTERVAL_MS), [])
    case Periodic =>
      var next := p.(nextPhase := p.nextPhase + PERIODIC_INTERVAL_MS);
      if !p.maintainer && p.misses + 1 < 2 then Pass(next.(misses := p.misses + 1), [])
      else Pass(next.(misses := 0, maintainer := true), ToIndoor(p.peers, SendPeriodic, 0))
  }

  /** The timer that is due first; the peers' when both are. */
  function PassOf(p: Presence, now: u64): Pass
    requires p.phase != Down && Due(p, now) && now <= U64_MAX - PERIODIC_INTERVAL_MS
  {
    if p.nextPeer <= p.nextPhase then PeerPass(p) else PhasePass(p)
  }

  // ---------------------------------------------------------------------------
  // Catching up, with any answers of the callback.

  /** The first of `n` calls, from call number `k` on, that the callback refuses; `n` if none. */
  function Refused(accepts: nat -> bool, k: nat, n: nat): (i: nat)
    ensures i <= n && (i < n ==> !accepts(k + i)) && forall j :: k <= j < k + i ==> accepts(j)
  {
    if n == 0 then 0
    else
      var i := Refused(accepts, k, n - 1);
      if i < n - 1 || !accepts(k + n - 1) then i else n
  }

  datatype CatchUp = CatchUp(p: Presence, done: bool, calls: seq<Action>)

  function Late(p: Presence, now: u64): nat {
    (if p.nextPeer <= now then now - p.nextPeer + 1 else 0) + (if p.nextPhase <= now then now - p.nextPhase + 1 else 0)
  }

  /** The passes due by `now`, in order; a pass with a refused action is undone and ends it. */
  function CaughtUp(p: Presence, now: u64, accepts: nat -> bool, k: nat): (c: CatchUp)
    requires p.phase != Down && now <= U64_MAX - PERIODIC_INTERVAL_MS
    ensures c.p.phase != Down && c.p.lastNow == p.lastNow
    decreases Late(p, now)
  {
    if !Due(p, now) then CatchUp(p, true, [])
    else
      var m := PassOf(p, now);
      var i := Refused(accepts, k, |m.actions|);
      if i < |m.actions| then CatchUp(p, false, m.actions[..i + 1])
      else
        var rest := CaughtUp(m.p, now, accepts, k + |m.actions|);
        CatchUp(rest.p, rest.done, m.actions + rest.calls)
  }

  datatype Ticking = Ticking(p: Presence, status: Status, calls: seq<Action>)

  function Ticked(p: Presence, now: u64, accepts: nat -> bool, k: nat): (t: Ticking)
    requires now <= U64_MAX - PERIODIC_INTERVAL_MS
    ensures t.p.phase == Down <==> p.phase == Down
  {
    if p.phase == Down || now < p.lastNow then Ticking(p, Invalid, [])
    else
      var c := CaughtUp(p, now, accepts, k);
      if c.done then Ticking(c.p.(lastNow := now), Ok, c.calls) else Ticking(c.p, Io, c.calls)
  }

  function Always(): nat -> bool {
    (_: nat) => true
  }

  lemma NoRefusal(k: nat, n: nat)
    ensures Refused(Always(), k, n) == n
  {
  }

  /** One turn of the loop. */
  lemma OnePass(p: Presence, now: u64, accepts: nat -> bool, k: nat)
    requires p.phase != Down && now <= U64_MAX - PERIODIC_INTERVAL_MS
    ensures !Due(p, now) ==> CaughtUp(p, now, accepts, k) == CatchUp(p, true, [])
    ensures Due(p, now) ==>
              var m := PassOf(p, now);
              var i := Refused(accepts, k, |m.actions|);
              && m.p.phase != Down && Late(m.p, now) < Late(p, now)
              && if i < |m.actions| then CaughtUp(p, now, accepts, k) == CatchUp(p, false, m.actions[..i + 1])
                 else
                   var rest := CaughtUp(m.p, now, accepts, k + |m.actions|);
                   CaughtUp(p, now, accepts, k) == CatchUp(rest.p, rest.done, m.actions + rest.calls)
  {
    hide PassOf, Late, Due, Refused;
    if Due(p, now) {
      LatenessFalls(p, now);
    }
  }

  /** With nothing refused it does not matter how many calls came before. */
  lemma {:induction false} CallNumberIsIdle(p: Presence, now: u64, k: nat, l: nat)
    requires p.phase != Down && now <= U64_MAX - PERIODIC_INTERVAL_MS
    ensures CaughtUp(p, now, Always(), k) == CaughtUp(p, now, Always(), l)
    ensures CaughtUp(p, now, Always(), k).done && !Due(CaughtUp(p, now, Always(), k).p, now)
    decreases Late(p, now)
  {
    hide CaughtUp, PassOf, Late, Due, Always;
    OnePass(p, now, Always(), k);
    OnePass(p, now, Always(), l);
    if Due(p, now) {
      var m := PassOf(p, now);
      NoRefusal(k, |m.actions|);
      NoRefusal(l, |m.actions|);
      CallNumberIsIdle(m.p, now, k + |m.actions|, l + |m.actions|);
    }
  }

  lemma LatenessFalls(p: Presence, now: u64)
    requires p.phase != Down && Due(p, now) && now <= U64_MAX - PERIODIC_INTERVAL_MS
    ensures var q := PassOf(p, now).p;
            && Late(q, now) < Late(p, now) && q.phase != Down && q.lastNow == p.lastNow
            && forall other: u64 :: Due(p, other) && other <= U64_MAX - PERIODIC_INTERVAL_MS ==> PassOf(p, other) == PassOf(p, now)
  {
  }

  /** Catching up in two stages is catching up at once, whatever the first stage refuses. */
  lemma {:induction false} CatchUpSplits(p: Presence, first: u64, now: u64, accepts: nat -> bool, k: nat)
    requires p.phase != Down && first <= now <= U64_MAX - PERIODIC_INTERVAL_MS
    ensures var c := CaughtUp(p, first, accepts, k);
            CaughtUp(c.p, now, Always(), 0).p == CaughtUp(p, now, Always(), 0).p
    ensures var c := CaughtUp(p, first, accepts, k);
            c.done ==> c.calls + CaughtUp(c.p, now, Always(), 0).calls == CaughtUp(p, now, Always(), 0).calls
    decreases Late(p, first)
  {
    hide CaughtUp, PassOf, Late, Always;
    OnePass(p, first, accepts, k);
    OnePass(p, now, Always(), 0);
    if Due(p, first) {
      assert Due(p, now);
      hide Due;
      var m := PassOf(p, first);
      LatenessFalls(p, first);
      NoRefusal(0, |m.actions|);
      if Refused(accepts, k, |m.actions|) == |m.actions| {
        CatchUpSplits(m.p, first, now, accepts, k + |m.actions|);
        CallNumberIsIdle(m.p, now, 0, |m.actions|);
        var rest := CaughtUp(m.p, first, accepts, k + |m.actions|);
        assert m.actions + (rest.calls + CaughtUp(rest.p, now, Always(), 0).calls) ==
               (m.actions + rest.calls) + CaughtUp(rest.p, now, Always(), 0).calls;
      }
    } else {
      assert [] + CaughtUp(p, now, Always(), 0).calls == CaughtUp(p, now, Always(), 0).calls;
    }
  }

  lemma LastNowIsIdle(p: Presence, lastNow: u64, now: u64)
    requires p.phase != Down && now <= U64_MAX - PERIODIC_INTERVAL_MS
    ensures CaughtUp(p.(lastNow := lastNow), now, Always(), 0) ==
            CaughtUp(p, now, Always(), 0).(p := CaughtUp(p, now, Always(), 0).p.(lastNow := lastNow))
    decreases Late(p, now)
  {
    if Due(p, now) {
      var m := PassOf(p, now);
      LatenessFalls(p, now);
      NoRefusal(0, |m.actions|);
      assert PassOf(p.(lastNow := lastNow), now) == Pass(m.p.(lastNow := lastNow), m.actions);
      LastNowIsIdle(m.p, lastNow, now);
      CallNumberIsIdle(m.p, now, 0, |m.actions|);
      CallNumberIsIdle(m.p.(lastNow := lastNow), now, 0, |m.actions|);
      hide PassOf;
    }
  }

  /** Ticking at `first` and then at `now` is ticking at `now`, in state and in actions. */
  lemma SplitInvariance(p: Presence, first: u64, now: u64)
    requires p.phase != Down && p.lastNow <= first <= now <= U64_MAX - PERIODIC_INTERVAL_MS
    ensures var a := Ticked(p, first, Always(), 0);
            var b := Ticked(a.p, now, Always(), |a.calls|);
            var whole := Ticked(p, now, Always(), 0);
            && a.status == Ok && b.status == Ok && whole.status == Ok
            && b.p == whole.p && a.calls + b.calls == whole.calls
  {
    hide CaughtUp;
    var c := CaughtUp(p, first, Always(), 0);
    CallNumberIsIdle(p, first, 0, 0);
    CallNumberIsIdle(p, now, 0, 0);
    CatchUpSplits(p, first, now, Always(), 0);
    LastNowIsIdle(c.p, first, now);
    CallNumberIsIdle(c.p.(lastNow := first), now, |c.calls|, 0);
  }

  /** Ticks at rising times, with the callback refusing what it likes. */
  datatype TickAt = TickAt(now: u64, accepts: nat -> bool)

  predicate Rising(ticks: seq<TickAt>, from: u64) {
    && (forall i :: 0 <= i < |ticks| ==> from <= ticks[i].now <= U64_MAX - PERIODIC_INTERVAL_MS)
    && (forall i, j :: 0 <= i < j < |ticks| ==> ticks[i].now <= ticks[j].now)
  }

  function TickedAll(p: Presence, ticks: seq<TickAt>, from: u64): (q: Presence)
    requires p.phase != Down && Rising(ticks, from)
    ensures q.phase != Down
  {
    if ticks == [] then p
    else
      var n := |ticks| - 1;
      Ticked(TickedAll(p, ticks[..n], from), ticks[n].now, ticks[n].accepts, 0).p
  }

  /** Whatever earlier ticks refused, a tick that refuses nothing makes up for it. */
  lemma {:induction false} TicksOnlyDelay(p: Presence, ticks: seq<TickAt>, now: u64)
    requires p.phase != Down && Rising(ticks, p.lastNow) && now <= U64_MAX - PERIODIC_INTERVAL_MS
    requires forall i :: 0 <= i < |ticks| ==> ticks[i].now <= now
    requires p.lastNow <= now
    ensures var q := TickedAll(p, ticks, p.lastNow);
            && q.lastNow <= now
            && Ticked(q, now, Always(), 0).p == Ticked(p, now, Always(), 0).p
  {
    CallNumberIsIdle(p, now, 0, 0);
    if ticks != [] {
      hide CaughtUp;
      var n := |ticks| - 1;
      TicksOnlyDelay(p, ticks[..n], now);
      var before := TickedAll(p, ticks[..n], p.lastNow);
      CallNumberIsIdle(before, now, 0, 0);
      if before.lastNow <= ticks[n].now {
        CatchUpSplits(before, ticks[n].now, now, ticks[n].accepts, 0);
        var c := CaughtUp(before, ticks[n].now, ticks[n].accepts, 0);
        LastNowIsIdle(c.p, ticks[n].now, now);
        CallNumberIsIdle(c.p, now, 0, 0);
        CallNumberIsIdle(c.p.(lastNow := ticks[n].now), now, 0, 0);
      }
    }
  }

  lemma {:induction false} DoneIsCaughtUp(p: Presence, now: u64, accepts: nat -> bool, k: nat)
    requires p.phase != Down && now <= U64_MAX - PERIODIC_INTERVAL_MS
    ensures CaughtUp(p, now, accepts, k).done ==> !Due(CaughtUp(p, now, accepts, k).p, now)
    decreases Late(p, now)
  {
    hide CaughtUp, PassOf, Late, Due;
    OnePass(p, now, accepts, k);
    if Due(p, now) {
      var m := PassOf(p, now);
      DoneIsCaughtUp(m.p, now, accepts, k + |m.actions|);
    }
  }

  /** Refusals only delay: however many ticks failed before, the first that succeeds, with
      whatever callback, leaves the state that one undisturbed tick would have left. */
  lemma FailuresOnlyDelay(p: Presence, ticks: seq<TickAt>, now: u64, accepts: nat -> bool, k: nat)
    requires p.phase != Down && Rising(ticks, p.lastNow) && now <= U64_MAX - PERIODIC_INTERVAL_MS
    requires forall i :: 0 <= i < |ticks| ==> ticks[i].now <= now
    requires p.lastNow <= now
    ensures var t := Ticked(TickedAll(p, ticks, p.lastNow), now, accepts, k);
            && (t.status == Ok || t.status == Io)
            && (t.status == Ok ==> t.p == Ticked(p, now, Always(), 0).p)
  {
    TicksOnlyDelay(p, ticks, now);
    hide CaughtUp, TickedAll, Always;
    var q := TickedAll(p, ticks, p.lastNow);
    var c := CaughtUp(q, now, accepts, k);
    CatchUpSplits(q, now, now, accepts, k);
    DoneIsCaughtUp(q, now, accepts, k);
    OnePass(c.p, now, Always(), 0);
    CallNumberIsIdle(q, now, 0, 0);
    CallNumberIsIdle(p, now, 0, 0);
  }

  /** After a tick neither timer is late, the peers' timer has moved by whole seconds, and
      neither is more than its longest interval ahead. */
  lemma {:induction false} TimersDoNotDrift(p: Presence, now: u64, k: nat)
    requires p.phase != Down && now <= U64_MAX - PERIODIC_INTERVAL_MS
    requires p.nextPeer <= now + PEER_TICK_MS && p.nextPhase <= now + PERIODIC_INTERVAL_MS
    ensures var q := CaughtUp(p, now, Always(), k).p;
            && now < q.nextPeer <= now + PEER_TICK_MS && now < q.nextPhase <= now + PERIODIC_INTERVAL_MS
            && (q.nextPeer - p.nextPeer) % PEER_TICK_MS == 0 && q.nextPeer >= p.nextPeer
    decreases Late(p, now)
  {
    hide CaughtUp, Late, Always;
    OnePass(p, now, Always(), k);
    if Due(p, now) {
      var m := PassOf(p, now);
      NoRefusal(k, |m.actions|);
      PassMoves(p, now);
      hide PassOf, Due;
      TimersDoNotDrift(m.p, now, k + |m.actions|);
      WholeSeconds(CaughtUp(m.p, now, Always(), k + |m.actions|).p.nextPeer, m.p.nextPeer, p.nextPeer);
    }
  }

  lemma PassMoves(p: Presence, now: u64)
    requires p.phase != Down && Due(p, now) && now <= U64_MAX - PERIODIC_INTERVAL_MS
    requires p.nextPeer <= now + PEER_TICK_MS && p.nextPhase <= now + PERIODIC_INTERVAL_MS
    ensures var q := PassOf(p, now).p;
            && q.nextPeer <= now + PEER_TICK_MS && q.nextPhase <= now + PERIODIC_INTERVAL_MS
            && (q.nextPeer == p.nextPeer || q.nextPeer == p.nextPeer + PEER_TICK_MS)
  {
  }

  lemma WholeSeconds(a: nat, b: nat, c: nat)
    requires a >= b && (a - b) % PEER_TICK_MS == 0 && (b == c || b == c + PEER_TICK_MS)
    ensures (a - c) % PEER_TICK_MS == 0
  {
  }

  // ---------------------------------------------------------------------------
  // Starting, and what peers send.

  predicate IsBcd(b: byte) {
    b / 16 <= 9 && b % 16 <= 9
  }

  function FromBcd(b: byte): nat {
    b / 16 * 10 + b % 16
  }

  /** Two decimal digits in a byte. */
  function ToBcd(n: nat): byte
    requires n <= 99
  {
    n / 10 * 16 + n % 10
  }

  lemma BcdDigits(tens: nat, units: nat)
    requires tens <= 9 && units <= 9
    ensures (tens * 16 + units) / 16 == tens && (tens * 16 + units) % 16 == units
    ensures (tens * 10 + units) / 10 == tens && (tens * 10 + units) % 10 == units
  {
  }

  lemma BcdOfNumber(n: nat)
    requires n <= 99
    ensures IsBcd(ToBcd(n)) && FromBcd(ToBcd(n)) == n
  {
    BcdDigits(n / 10, n % 10);
  }

  lemma BcdOfByte(b: byte)
    requires IsBcd(b)
    ensures FromBcd(b) <= 99 && ToBcd(FromBcd(b)) == b
  {
    BcdDigits(b / 16, b % 16);
  }

  /** Exactly the indoor stations of a numbered building, floor and room have peers: an address
      of kind 61 or 62 that is made of these numbers. */
  lemma IndoorStationsAreNumbered(identity: Address)
    ensures IndoorPeers(identity).Some? <==>
            && identity[0] in {0x61, 0x62}
            && exists b, c, floor, room, machine |
                 0 <= b <= 99 && 0 <= c <= 99 && 1 <= b * 10 + c <= 999 && 1 <= floor <= 63 && 1 <= room <= 32
                 && 1 <= machine <= 4 :: Numbered(identity, b, c, floor, room, machine)
  {
    forall i | 1 <= i <= 5
      ensures IsBcd(identity[i]) ==> FromBcd(identity[i]) <= 99 && ToBcd(FromBcd(identity[i])) == identity[i]
    {
      if IsBcd(identity[i]) {
        BcdOfByte(identity[i]);
      }
    }
    forall b: nat, c: nat, floor: nat, room: nat, machine: nat |
      b <= 99 && c <= 99 && floor <= 99 && room <= 99 && machine <= 99 && Numbered(identity, b, c, floor, room, machine)
      ensures IsBcd(identity[1]) && IsBcd(identity[2]) && IsBcd(identity[3]) && IsBcd(identity[4]) && IsBcd(identity[5])
      ensures FromBcd(identity[1]) == b && FromBcd(identity[2]) == c && FromBcd(identity[3]) == floor
      ensures FromBcd(identity[4]) == room && FromBcd(identity[5]) == machine
    {
      BcdOfNumber(b);
      BcdOfNumber(c);
      BcdOfNumber(floor);
      BcdOfNumber(room);
      BcdOfNumber(machine);
    }
    hide IsBcd, FromBcd, ToBcd, Others;
    if IndoorPeers(identity).Some? {
      assert Numbered(identity, FromBcd(identity[1]), FromBcd(identity[2]), FromBcd(identity[3]), FromBcd(identity[4]),
                      FromBcd(identity[5]));
    }
  }

  predicate Numbered(identity: Address, b: nat, c: nat, floor: nat, room: nat, machine: nat)
    requires b <= 99 && c <= 99 && floor <= 99 && room <= 99 && machine <= 99
  {
    && identity[1] == ToBcd(b) && identity[2] == ToBcd(c) && identity[3] == ToBcd(floor)
    && identity[4] == ToBcd(room) && identity[5] == ToBcd(machine)
  }

  /** The five other machines of the room, or None for an address that is no indoor station. */
  function IndoorPeers(identity: Address): Option<seq<Address>> {
    if (identity[0] != 0x61 && identity[0] != 0x62)
       || !IsBcd(identity[1]) || !IsBcd(identity[2]) || !IsBcd(identity[3]) || !IsBcd(identity[4]) || !IsBcd(identity[5])
    then None
    else
      var building := FromBcd(identity[1]) * 10 + FromBcd(identity[2]);
      var machine := FromBcd(identity[5]);
      if building < 1 || building > 999 || FromBcd(identity[3]) < 1 || FromBcd(identity[3]) > 63
         || FromBcd(identity[4]) < 1 || FromBcd(identity[4]) > 32 || machine < 1 || machine > 4 then None
      else
        var others := Others(identity, machine, 4);
        Some(others + [identity[0 := 0x62][5 := 1], identity[0 := 0x62][5 := 2]])
  }

  function Others(identity: Address, machine: nat, upto: nat): seq<Address>
    requires upto <= 4
  {
    if upto == 0 then [] else Others(identity, machine, upto - 1) + if upto != machine then [identity[5 := upto]] else []
  }

  function Started(identity: Address, now: u64): Option<Presence> {
    var peers := IndoorPeers(identity);
    if peers.None? || now > U64_MAX - PERIODIC_INTERVAL_MS then None
    else
      Some(Presence(WaitSync, identity,
                    seq(|peers.value|, i requires 0 <= i < |peers.value| => Peer(peers.value[i], false, PEER_INITIAL_SECONDS)),
                    false, 0, 0, 0, now, now + PEER_TICK_MS, now + START_DELAY_MS))
  }

  /** The position of a peer, or the number of peers. */
  function FindPeer(peers: seq<Peer>, address: Address): (i: nat)
    ensures i <= |peers| && (i < |peers| ==> peers[i].address == address)
    ensures forall j :: 0 <= j < i ==> peers[j].address != address
  {
    if peers == [] then 0
    else
      var n := |peers| - 1;
      var i := FindPeer(peers[..n], address);
      if i < n || peers[n].address == address then i else n + 1
  }

  /** A peer is heard: `accepted` is the callback's answer to the news that it is online. */
  function PeerHeard(p: Presence, address: Address, accepted: bool): (Presence, Status, seq<Action>) {
    var i := FindPeer(p.peers, address);
    if p.phase == Down || i == |p.peers| then (p, Invalid, [])
    else if !accepted then (p, Io, [Action(PeerOnline, address, 0)])
    else (p.(peers := p.peers[i := p.peers[i].(online := true, seconds := PEER_RESET_SECONDS)]), Ok,
          [Action(PeerOnline, address, 0)])
  }

  /** A peer answered our probe (07/81); its six bytes say nothing we use. */
  function PeerReplied(p: Presence, data: seq<byte>, now: u64, accepted: bool): (Presence, Status, seq<Action>) {
    match Parse(data)
    case None => (p, Invalid, [])
    case Some(f) =>
      if now < p.lastNow || f.family != 0x07 || f.opcode != 0x81 || |f.payload| != 6 || f.destination != p.identity then
        (p, Invalid, [])
      else
        var (q, status, calls) := PeerHeard(p, f.source, accepted);
        (if status == Ok then q.(lastNow := now) else q, status, calls)
  }

  /** The answer prepared for a peer's probe. */
  datatype PeerReply = PeerReply(target: Address, request: seq<byte>, observed: bool)

  const NO_REPLY := PeerReply([0, 0, 0, 0, 0, 0], [0, 0], false)

  /** A probe (07/01) is answered whoever sent it, and marks a peer we know as online. */
  function PeerAsked(p: Presence, data: seq<byte>, now: u64, accepted: bool):
    (Presence, Status, PeerReply, seq<Action>)
  {
    match Parse(data)
    case None => (p, Invalid, NO_REPLY, [])
    case Some(f) =>
      if || p.phase == Down || now < p.lastNow || f.family != 0x07 || f.opcode != 0x01 || |f.payload| != 2
         || f.destination != p.identity then (p, Invalid, NO_REPLY, [])
      else
        var (q, status, calls) := PeerHeard(p, f.source, accepted);
        if status == Invalid then (p.(lastNow := now), Ok, PeerReply(f.source, f.payload, false), [])
        else if status != Ok then (p, Io, NO_REPLY, calls)
        else (q.(lastNow := now), Ok, PeerReply(f.source, f.payload, true), calls)
  }

  /** What a probe and its answer look like on the wire (src/gvs_serialize.c:67-121). */
  function ProbeFrame(target: Address, source: Address): Frame {
    Frame(target, source, 0x07, 0x01, [0x00, 0x01])
  }

  function ReplyFrame(r: PeerReply, source: Address): Frame
    requires |r.request| == 2
  {
    Frame(r.target, source, 0x07, 0x81, r.request + [0, 0, 0, 0])
  }

  /** `q` is `p` but that the peer of this address is online for a full minute, and it is `now`. */
  predicate HeardFrom(p: Presence, q: Presence, address: Address, now: u64) {
    var i := FindPeer(p.peers, address);
    i < |p.peers| && q == p.(lastNow := now, peers := p.peers[i := Peer(address, true, PEER_RESET_SECONDS)])
  }

  /** A probe between two peers that know each other puts both online: the one who is asked
      prepares the answer that the other takes, and nothing else changes on either side. */
  lemma ProbesAreAnswered(a: Presence, b: Presence, now: u64, random: Opaque, encryption: Opaque)
    requires a.phase != Down && b.phase != Down && a.lastNow <= now && b.lastNow <= now
    requires FindPeer(a.peers, b.identity) < |a.peers| && FindPeer(b.peers, a.identity) < |b.peers|
    ensures var asked := PeerAsked(b, Image(ProbeFrame(b.identity, a.identity), random, encryption), now, true);
            && asked.1 == Ok && asked.2 == PeerReply(a.identity, [0x00, 0x01], true)
            && HeardFrom(b, asked.0, a.identity, now)
            && var heard := PeerReplied(a, Image(ReplyFrame(asked.2, b.identity), random, encryption), now, true);
               heard.1 == Ok && HeardFrom(a, heard.0, b.identity, now)
  {
    ParseOfImage(ProbeFrame(b.identity, a.identity), random, encryption);
    ParseOfImage(ReplyFrame(PeerReply(a.identity, [0x00, 0x01], true), b.identity), random, encryption);
    hide Parse, Image;
  }

  /** A stranger is answered too, but becomes no peer. */
  lemma StrangersAreAnswered(b: Presence, stranger: Address, now: u64, random: Opaque, encryption: Opaque,
                             accepted: bool)
    requires b.phase != Down && b.lastNow <= now && FindPeer(b.peers, stranger) == |b.peers|
    ensures var asked := PeerAsked(b, Image(ProbeFrame(b.identity, stranger), random, encryption), now, accepted);
            asked == (b.(lastNow := now), Ok, PeerReply(stranger, [0x00, 0x01], false), [])
  {
    ParseOfImage(ProbeFrame(b.identity, stranger), random, encryption);
    hide Parse, Image;
  }

  /** A peer's second number is one signed byte to the election. */
  function Signed(b: byte): int {
    if b < 128 then b else b - 256
  }

  predicate SameRoom(a: Address, b: Address) {
    a[..5] == b[..5] && a != b
  }

  function SyncReceived(p: Presence, data: seq<byte>, now: u64): (Presence, Status) {
    match Parse(data)
    case None => (p, Invalid)
    case Some(f) =>
      if p.phase == Down || now < p.lastNow || now > U64_MAX - PERIODIC_INTERVAL_MS || f.family != 0x91
         || (f.opcode != 0x81 && f.opcode != 0x82) || |f.payload| != 2 || f.destination != p.identity
         || !SameRoom(f.source, p.identity) then (p, Invalid)
      else if f.opcode == 0x81 && p.phase == SyncAsk then
        (p.(version := 0, maintainer := false, misses := 0, round := 0, phase := Periodic,
            nextPhase := now + PERIODIC_INTERVAL_MS, lastNow := now), Ok)
      else if f.opcode == 0x82 && p.phase == SyncChoose && Word(f.payload[0], f.payload[1]) >= p.version
              && Signed(f.source[5]) < Signed(p.identity[5]) then
        (p.(maintainer := false, lastNow := now), Ok)
      else (p.(lastNow := now), Ok)
  }

  /** The answers to our two questions (91/81 and 91/82). */
  function VersionFrame(target: Address, source: Address, opcode: byte, version: u16): Frame {
    Frame(target, source, 0x91, opcode, [version % 256, version / 256])
  }

  /** An answer never makes anyone the maintainer, and leaves peers and their timer alone. */
  lemma AnswersOnlyResign(p: Presence, data: seq<byte>, now: u64)
    ensures var (q, status) := SyncReceived(p, data, now);
            && (q.maintainer ==> p.maintainer) && q.peers == p.peers && q.nextPeer == p.nextPeer
            && (status != Ok ==> q == p)
            && (status == Ok && q.phase != p.phase ==>
                  && p.phase == SyncAsk && q.phase == Periodic && !q.maintainer && q.version == 0
                  && q.nextPhase == now + PERIODIC_INTERVAL_MS)
  {
    hide Parse;
  }

  /** Of two stations of a room that both choose and hear each other's version, the lower
      number never resigns, and the higher one resigns exactly when the other's version is
      not older. So exactly one is left unless the higher number has the newer version; then
      both are, until their periodic data settles it. */
  lemma ChoosersSettle(low: Presence, high: Presence, now: u64, random: Opaque, encryption: Opaque)
    requires low.phase == SyncChoose && high.phase == SyncChoose && low.maintainer && high.maintainer
    requires low.lastNow <= now && high.lastNow <= now <= U64_MAX - PERIODIC_INTERVAL_MS
    requires low.identity[..5] == high.identity[..5] && Signed(low.identity[5]) < Signed(high.identity[5])
    ensures var toLow := Image(VersionFrame(low.identity, high.identity, 0x82, high.version), random, encryption);
            var toHigh := Image(VersionFrame(high.identity, low.identity, 0x82, low.version), random, encryption);
            && SyncReceived(low, toLow, now) == (low.(lastNow := now), Ok)
            && SyncReceived(high, toHigh, now) ==
               (high.(maintainer := high.version > low.version, lastNow := now), Ok)
  {
    ParseOfImage(VersionFrame(low.identity, high.identity, 0x82, high.version), random, encryption);
    ParseOfImage(VersionFrame(high.identity, low.identity, 0x82, low.version), random, encryption);
    hide Parse, Image;
  }

  datatype DataType = Normal | Period

  /** What to do with sync data: apply its values, or send ours again. */
  datatype Decision = Decision(p: Presence, apply: bool, resend: bool)

  function DataObserved(p: Presence, source: Address, kind: DataType, remote: u16, now: u64): Option<Decision> {
    if p.phase != Periodic || now < p.lastNow || now > U64_MAX - PERIODIC_INTERVAL_MS || !SameRoom(source, p.identity)
    then None
    else if kind == Normal then
      Some(Decision(p.(maintainer := false, version := remote, lastNow := now), true, false))
    else
      var next := p.(misses := 0, nextPhase := now + PERIODIC_INTERVAL_MS, lastNow := now);
      if p.version > remote then Some(Decision(next.(maintainer := true), false, true))
      else if p.maintainer && p.version == remote && Signed(p.identity[5]) <= Signed(source[5]) then
        Some(Decision(next, false, true))
      else
        Some(Decision(next.(maintainer := false, version := if p.maintainer && p.version < remote then remote else p.version),
                      true, false))
  }

  /** Accepted data is either applied or answered, never both; who answers stays or becomes
      the maintainer and who applies is none. */
  lemma DataIsAppliedOrAnswered(p: Presence, source: Address, kind: DataType, remote: u16, now: u64)
    ensures var d := DataObserved(p, source, kind, remote, now);
            d.Some? ==>
              && (d.value.apply <==> !d.value.resend)
              && (d.value.resend <==> d.value.p.maintainer)
              && (d.value.p.maintainer <==>
                  && kind == Period
                  && (p.version > remote
                      || (p.maintainer && p.version == remote && Signed(p.identity[5]) <= Signed(source[5]))))
              && d.value.p.nextPeer == p.nextPeer && d.value.p.peers == p.peers && d.value.p.phase == Periodic
  {
  }

  /** Of two maintainers of a room that hear each other's periodic data exactly one stays. */
  lemma TwoMaintainersSettle(a: Presence, b: Presence, now: u64)
    requires a.maintainer && b.maintainer && a.phase == Periodic && b.phase == Periodic
    requires SameRoom(a.identity, b.identity) && a.lastNow <= now && b.lastNow <= now <= U64_MAX - PERIODIC_INTERVAL_MS
    ensures var c := DataObserved(a, b.identity, Period, b.version, now);
            var d := DataObserved(b, a.identity, Period, a.version, now);
            c.Some? && d.Some? && (c.value.p.maintainer <==> !d.value.p.maintainer)
    ensures var c := DataObserved(a, b.identity, Period, b.version, now);
            var d := DataObserved(b, a.identity, Period, a.version, now);
            c.Some? && d.Some? && c.value.p.version == d.value.p.version == Max(a.version, b.version)
  {
    assert a.identity == a.identity[..5] + [a.identity[5]];
    assert b.identity == b.identity[..5] + [b.identity[5]];
  }

  // ---------------------------------------------------------------------------
  // In place.

  /** The emit callback: it may refuse any call. */
  class Callback {
    const accepts: nat -> bool
    var calls: seq<Action>

    constructor (accepts: nat -> bool)
      ensures this.accepts == accepts && calls == []
    {
      this.accepts := accepts;
      calls := [];
    }

    method Emit(kind: ActionKind, target: Address, round: nat) returns (status: Status)
      modifies this
      ensures calls == old(calls) + [Action(kind, target, round)]
      ensures status == if accepts(|old(calls)|) then Ok else Io
    {
      status := if accepts(|calls|) then Ok else Io;
      calls := calls + [Action(kind, target, round)];
    }
  }

  /** From `before`, the callback was given `actions` up to the first it refused. */
  ghost predicate Called(accepts: nat -> bool, before: seq<Action>, actions: seq<Action>, after: seq<Action>,
                         ok: bool) {
    var i := Refused(accepts, |before|, |actions|);
    (ok <==> i == |actions|) && after == before + actions[..Min(i + 1, |actions|)]
  }

  lemma RefusedAt(accepts: nat -> bool, k: nat, n: nat, i: nat)
    requires i <= n && (i < n ==> !accepts(k + i)) && forall j :: k <= j < k + i ==> accepts(j)
    ensures Refused(accepts, k, n) == i
  {
    if n > 0 {
      RefusedAt(accepts, k, n - 1, Min(i, n - 1));
    }
  }

  lemma AllCalled(accepts: nat -> bool, before: seq<Action>, actions: seq<Action>)
    requires forall j :: |before| <= j < |before| + |actions| ==> accepts(j)
    ensures Called(accepts, before, actions, before + actions, true)
  {
    RefusedAt(accepts, |before|, |actions|, |actions|);
    assert actions[..|actions|] == actions;
  }

  lemma SomeCalled(accepts: nat -> bool, before: seq<Action>, actions: seq<Action>, part: seq<Action>)
    requires part != [] && part <= actions
    requires forall j :: |before| <= j < |before| + |part| - 1 ==> accepts(j)
    requires !accepts(|before| + |part| - 1)
    ensures Called(accepts, before, actions, before + part, false)
  {
    RefusedAt(accepts, |before|, |actions|, |part| - 1);
    assert actions[..|part|] == part;
  }

  lemma {:induction false} NewsPrefix(peers: seq<Peer>, i: nat)
    requires i <= |peers|
    ensures PeersNews(peers[..i]) <= PeersNews(peers)
    decreases |peers|
  {
    if i < |peers| {
      var rest := peers[..|peers| - 1];
      NewsPrefix(rest, i);
      assert rest[..i] == peers[..i];
    } else {
      assert peers[..i] == peers;
    }
  }

  lemma {:induction false} IndoorPrefix(peers: seq<Peer>, i: nat, kind: ActionKind, round: nat)
    requires i <= |peers|
    ensures ToIndoor(peers[..i], kind, round) <= ToIndoor(peers, kind, round)
    decreases |peers|
  {
    if i < |peers| {
      var rest := peers[..|peers| - 1];
      IndoorPrefix(rest, i, kind, round);
      assert rest[..i] == peers[..i];
    } else {
      assert peers[..i] == peers;
    }
  }

  lemma NoneCalled(accepts: nat -> bool, before: seq<Action>)
    ensures Called(accepts, before, [], before, true)
  {
    AllCalled(accepts, before, []);
    assert before + [] == before;
  }

  /** What is left to do leads where the whole was to lead. */
  ghost predicate OnTrack(p: Presence, now: u64, accepts: nat -> bool, calls: seq<Action>, before: seq<Action>,
                          whole: CatchUp)
    requires p.phase != Down && now <= U64_MAX - PERIODIC_INTERVAL_MS
  {
    var rest := CaughtUp(p, now, accepts, |calls|);
    rest.p == whole.p && rest.done == whole.done && calls + rest.calls == before + whole.calls
  }

  lemma IsDue(p: Presence, now: u64)
    ensures Due(p, now) <==> p.nextPeer <= now || p.nextPhase <= now
  {
  }

  lemma TrackStarts(p: Presence, now: u64, accepts: nat -> bool, calls: seq<Action>)
    requires p.phase != Down && now <= U64_MAX - PERIODIC_INTERVAL_MS
    ensures OnTrack(p, now, accepts, calls, calls, CaughtUp(p, now, accepts, |calls|))
  {
    hide CaughtUp;
  }

  lemma TrackMoves(p: Presence, now: u64, accepts: nat -> bool, calls: seq<Action>, before: seq<Action>, whole: CatchUp,
                   after: seq<Action>, ok: bool)
    requires p.phase != Down && Due(p, now) && now <= U64_MAX - PERIODIC_INTERVAL_MS
    requires OnTrack(p, now, accepts, calls, before, whole)
    requires Called(accepts, calls, PassOf(p, now).actions, after, ok)
    ensures var next := PassOf(p, now).p;
            && next.phase != Down && Late(next, now) < Late(p, now) && next.lastNow == p.lastNow
            && (ok ==> OnTrack(next, now, accepts, after, before, whole))
            && (!ok ==> whole.p == p && !whole.done && after == before + whole.calls)
  {
    hide CaughtUp, PassOf, Late, Due;
    LatenessFalls(p, now);
    OnePass(p, now, accepts, |calls|);
    var m := PassOf(p, now);
    if ok {
      WholePass(m.actions, calls, CaughtUp(m.p, now, accepts, |calls| + |m.actions|).calls);
    }
  }

  lemma WholePass(actions: seq<Action>, calls: seq<Action>, rest: seq<Action>)
    ensures actions[..|actions|] == actions && calls + (actions + rest) == (calls + actions) + rest
  {
  }

  lemma TrackEnds(p: Presence, now: u64, accepts: nat -> bool, calls: seq<Action>, before: seq<Action>, whole: CatchUp)
    requires p.phase != Down && !(p.nextPeer <= now || p.nextPhase <= now) && now <= U64_MAX - PERIODIC_INTERVAL_MS
    requires OnTrack(p, now, accepts, calls, before, whole)
    ensures whole.p == p && whole.done && calls == before + whole.calls
  {
    OnePass(p, now, accepts, |calls|);
    hide CaughtUp;
  }

  lemma OneNews(p: Peer)
    ensures |PeerNews(p)| <= 1
  {
  }

  class PresenceStation {
    var p: Presence

    constructor ()
      ensures p == STOPPED
    {
      p := STOPPED;
    }

    constructor From(value: Presence)
      ensures p == value
    {
      p := value;
    }

    method Start(identity: Address, now: u64) returns (status: Status)
      modifies this
      ensures var s := Started(identity, now);
              if s.None? then status == Invalid && p == old(p) else status == Ok && p == s.value
    {
      var peers := IndoorPeers(identity);
      if peers.None? || now > U64_MAX - PERIODIC_INTERVAL_MS {
        return Invalid;
      }
      var next := STOPPED.(phase := WaitSync, identity := identity);
      var list: seq<Peer> := [];
      for i := 0 to |peers.value|
        invariant |list| == i && forall j :: 0 <= j < i ==> list[j] == Peer(peers.value[j], false, PEER_INITIAL_SECONDS)
      {
        list := list + [Peer(peers.value[i], false, PEER_INITIAL_SECONDS)];
      }
      next := next.(peers := list, lastNow := now);
      p := next.(nextPeer := now + PEER_TICK_MS, nextPhase := now + START_DELAY_MS);
      return Ok;
    }

    method Stop()
      modifies this
      ensures p == STOPPED
    {
      p := STOPPED;
    }

    method EmitIndoor(kind: ActionKind, round: nat, emit: Callback) returns (status: Status)
      modifies emit
      ensures Called(emit.accepts, old(emit.calls), ToIndoor(p.peers, kind, round), emit.calls, status == Ok)
    {
      hide Called;
      ghost var before := emit.calls;
      var peers := p.peers;
      for i := 0 to |peers|
        invariant emit.calls == before + ToIndoor(peers[..i], kind, round)
        invariant forall j :: |before| <= j < |emit.calls| ==> emit.accepts(j)
      {
        assert peers[..i + 1][..i] == peers[..i];
        if peers[i].address[0] == 0x61 {
          var accepted := emit.Emit(kind, peers[i].address, round);
          assert emit.calls == before + ToIndoor(peers[..i + 1], kind, round);
          if accepted != Ok {
            IndoorPrefix(peers, i + 1, kind, round);
            SomeCalled(emit.accepts, before, ToIndoor(peers, kind, round), ToIndoor(peers[..i + 1], kind, round));
            return Io;
          }
        }
      }
      assert peers[..|peers|] == peers;
      AllCalled(emit.accepts, before, ToIndoor(peers, kind, round));
      return Ok;
    }

    /** One peer loses a second. */
    method PeerSecond(peer: Peer, emit: Callback) returns (after: Peer, accepted: Status)
      modifies emit
      ensures after == PeerAfter(peer) && emit.calls == old(emit.calls) + PeerNews(peer)
      ensures accepted == if PeerNews(peer) != [] && !emit.accepts(|old(emit.calls)|) then Io else Ok
    {
      after := peer;
      if after.seconds > 0 {
        after := after.(seconds := after.seconds - 1);
      }
      accepted := Ok;
      if after.seconds == 0 {
        after := after.(online := false, seconds := PEER_RESET_SECONDS);
        accepted := emit.Emit(PeerOffline, after.address, 0);
      } else if after.seconds % PEER_PROBE_SECONDS == 0 {
        accepted := emit.Emit(PeerProbe, after.address, 0);
      }
    }

    method PeerTick(emit: Callback) returns (status: Status)
      modifies this, emit
      ensures Called(emit.accepts, old(emit.calls), PeersNews(old(p).peers), emit.calls, status == Ok)
      ensures status == Ok ==> p == old(p).(peers := PeersAfter(old(p).peers))
    {
      hide Called, PeerAfter, PeerNews;
      ghost var before := emit.calls;
      var peers, after := p.peers, [];
      for i := 0 to |peers|
        modifies emit
        invariant after == PeersAfter(peers[..i])
        invariant emit.calls == before + PeersNews(peers[..i])
        invariant forall j :: |before| <= j < |emit.calls| ==> emit.accepts(j)
      {
        assert peers[..i + 1][..i] == peers[..i];
        var peer, accepted := PeerSecond(peers[i], emit);
        assert emit.calls == before + PeersNews(peers[..i + 1]);
        after := after + [peer];
        if accepted != Ok {
          NewsPrefix(peers, i + 1);
          OneNews(peers[i]);
          SomeCalled(emit.accepts, before, PeersNews(peers), PeersNews(peers[..i + 1]));
          return Io;
        }
        OneNews(peers[i]);
      }
      assert peers[..|peers|] == peers;
      AllCalled(emit.accepts, before, PeersNews(peers));
      p := p.(peers := after);
      return Ok;
    }

    method PhaseTick(emit: Callback) returns (status: Status)
      requires p.phase != Down && p.nextPhase <= U64_MAX - PERIODIC_INTERVAL_MS
      modifies this, emit
      ensures Called(emit.accepts, old(emit.calls), PhasePass(old(p)).actions, emit.calls, status == Ok)
      ensures status == Ok ==> p == PhasePass(old(p)).p
    {
      hide ToIndoor, Called;
      NoneCalled(emit.accepts, emit.calls);
      match p.phase
      case WaitSync =>
        p := p.(phase := SyncAsk, round := 1);
        p := p.(nextPhase := p.nextPhase + ASK_INTERVAL_MS);
        status := EmitIndoor(AskSync, p.round, emit);
      case SyncAsk =>
        if p.round < SYNC_ROUNDS {
          p := p.(round := p.round + 1, nextPhase := p.nextPhase + ASK_INTERVAL_MS);
          status := EmitIndoor(AskSync, p.round, emit);
        } else {
          p := p.(phase := SyncChoose, maintainer := true, round := 1);
          p := p.(nextPhase := p.nextPhase + CHOOSE_INTERVAL_MS);
          status := EmitIndoor(AskVersion, p.round, emit);
        }
      case SyncChoose =>
        if p.round < SYNC_ROUNDS {
          p := p.(round := p.round + 1, nextPhase := p.nextPhase + CHOOSE_INTERVAL_MS);
          status := EmitIndoor(AskVersion, p.round, emit);
        } else {
          p := p.(phase := Periodic, round := 0);
          p := p.(nextPhase := p.nextPhase + PERIODIC_INTERVAL_MS);
          return Ok;
        }
      case Periodic =>
        p := p.(nextPhase := p.nextPhase + PERIODIC_INTERVAL_MS);
        if !p.maintainer {
          p := p.(misses := p.misses + 1);
          if p.misses < 2 {
            return Ok;
          }
          p := p.(misses := 0, maintainer := true);
        }
        p := p.(misses := 0);
        status := EmitIndoor(SendPeriodic, 0, emit);
    }

    /** The catch-up loop. A pass with a refused action is dropped and ends the tick. */
    method Tick(now: u64, emit: Callback) returns (status: Status)
      requires now <= U64_MAX - PERIODIC_INTERVAL_MS
      modifies this, emit
      ensures var t := Ticked(old(p), now, emit.accepts, |old(emit.calls)|);
              p == t.p && status == t.status && emit.calls == old(emit.calls) + t.calls
    {
      if p.phase == Down || now < p.lastNow {
        return Invalid;
      }
      hide PassOf, CaughtUp, Late, OnTrack, Called, Due;
      ghost var before, whole := emit.calls, CaughtUp(p, now, emit.accepts, |emit.calls|);
      TrackStarts(p, now, emit.accepts, before);
      while p.nextPeer <= now || p.nextPhase <= now
        invariant p.phase != Down && p.lastNow == old(p).lastNow
        invariant OnTrack(p, now, emit.accepts, emit.calls, before, whole)
        decreases Late(p, now)
      {
        assert Due(p, now) by { IsDue(p, now); }
        ghost var calls := emit.calls;
        var next, stopped := RunPass(now, emit);
        TrackMoves(p, now, emit.accepts, calls, before, whole, emit.calls, !stopped);
        if stopped {
          return Io;
        }
        p := next;
      }
      TrackEnds(p, now, emit.accepts, emit.calls, before, whole);
      p := p.(lastNow := now);
      return Ok;
    }

    /** One pass on a copy. */
    method RunPass(now: u64, emit: Callback) returns (next: Presence, stopped: bool)
      requires p.phase != Down && Due(p, now) && now <= U64_MAX - PERIODIC_INTERVAL_MS
      modifies emit
      ensures Called(emit.accepts, old(emit.calls), PassOf(p, now).actions, emit.calls, !stopped)
      ensures !stopped ==> next == PassOf(p, now).p
    {
      var copy := new PresenceStation.From(p);
      var status;
      if p.nextPeer <= p.nextPhase {
        status := copy.PeerTick(emit);
        if status == Ok {
          copy.p := copy.p.(nextPeer := copy.p.nextPeer + PEER_TICK_MS);
        }
      } else {
        status := copy.PhaseTick(emit);
      }
      return copy.p, status != Ok;
    }

    method ObservePeer(address: Address, emit: Callback) returns (status: Status)
      modifies this, emit
      ensures var (q, s, calls) := PeerHeard(old(p), address, emit.accepts(|old(emit.calls)|));
              p == q && status == s && emit.calls == old(emit.calls) + calls
    {
      if p.phase == Down {
        return Invalid;
      }
      var i := 0;
      while i < |p.peers|
        invariant p == old(p) && emit.calls == old(emit.calls)
        invariant i <= |p.peers| && forall j :: 0 <= j < i ==> p.peers[j].address != address
      {
        if p.peers[i].address == address {
          var accepted := emit.Emit(PeerOnline, address, 0);
          assert i == FindPeer(p.peers, address);
          if accepted != Ok {
            return Io;
          }
          p := p.(peers := p.peers[i := p.peers[i].(online := true, seconds := PEER_RESET_SECONDS)]);
          return Ok;
        }
        i := i + 1;
      }
      return Invalid;
    }

    method ReceivePeer(data: seq<byte>, now: u64, emit: Callback) returns (status: Status)
      modifies this, emit
      ensures var (q, s, calls) := PeerReplied(old(p), data, now, emit.accepts(|old(emit.calls)|));
              p == q && status == s && emit.calls == old(emit.calls) + calls
    {
      hide Parse;
      var parsed := Parse(data);
      if now < p.lastNow || parsed.None? {
        return Invalid;
      }
      var f := parsed.value;
      if f.family != 0x07 || f.opcode != 0x81 || |f.payload| != 6 || f.destination != p.identity {
        return Invalid;
      }
      status := ObservePeer(f.source, emit);
      if status == Ok {
        p := p.(lastNow := now);
      }
    }

    method ReceivePeerRequest(data: seq<byte>, now: u64, emit: Callback) returns (status: Status, reply: PeerReply)
      modifies this, emit
      ensures var (q, s, r, calls) := PeerAsked(old(p), data, now, emit.accepts(|old(emit.calls)|));
              p == q && status == s && reply == r && emit.calls == old(emit.calls) + calls
    {
      hide Parse;
      reply := NO_REPLY;
      var parsed := Parse(data);
      if p.phase == Down || now < p.lastNow || parsed.None? {
        return Invalid, reply;
      }
      var f := parsed.value;
      if f.family != 0x07 || f.opcode != 0x01 || |f.payload| != 2 || f.destination != p.identity {
        return Invalid, reply;
      }
      var next := PeerReply(f.source, f.payload, false);
      var i := 0;
      while i < |p.peers|
        invariant p == old(p) && emit.calls == old(emit.calls) && next == PeerReply(f.source, f.payload, false)
        invariant i <= |p.peers| && forall j :: 0 <= j < i ==> p.peers[j].address != f.source
      {
        if p.peers[i].address == f.source {
          assert i == FindPeer(p.peers, f.source);
          var observed := ObservePeer(f.source, emit);
          if observed != Ok {
            return Io, reply;
          }
          next := next.(observed := true);
          break;
        }
        i := i + 1;
      }
      p := p.(lastNow := now);
      return Ok, next;
    }

    method ReceiveSync(data: seq<byte>, now: u64) returns (status: Status)
      modifies this
      ensures (p, status) == SyncReceived(old(p), data, now)
    {
      hide Parse;
      var parsed := Parse(data);
      if p.phase == Down || now < p.lastNow || now > U64_MAX - PERIODIC_INTERVAL_MS || parsed.None? {
        return Invalid;
      }
      var f := parsed.value;
      if f.family != 0x91 || (f.opcode != 0x81 && f.opcode != 0x82) || |f.payload| != 2
         || f.destination != p.identity || !SameRoom(f.source, p.identity)
      {
        return Invalid;
      }
      var version := Word(f.payload[0], f.payload[1]);
      if f.opcode == 0x81 && p.phase == SyncAsk {
        p := p.(version := 0, maintainer := false, misses := 0);
        p := p.(round := 0, phase := Periodic, nextPhase := now + PERIODIC_INTERVAL_MS);
      } else if f.opcode == 0x82 && p.phase == SyncChoose && version >= p.version
                && Signed(f.source[5]) < Signed(p.identity[5])
      {
        p := p.(maintainer := false);
      }
      p := p.(lastNow := now);
      return Ok;
    }

    method ObserveSyncData(source: Address, kind: DataType, remote: u16, now: u64)
      returns (status: Status, apply: bool, resend: bool)
      modifies this
      ensures var d := DataObserved(old(p), source, kind, remote, now);
              if d.None? then status == Invalid && p == old(p) && !apply && !resend
              else status == Ok && Decision(p, apply, resend) == d.value
    {
      apply, resend := false, false;
      if p.phase != Periodic || now < p.lastNow || now > U64_MAX - PERIODIC_INTERVAL_MS || !SameRoom(source, p.identity) {
        return Invalid, false, false;
      }
      var next := p;
      if kind == Normal {
        next := next.(maintainer := false, version := remote);
        apply := true;
      } else {
        next := next.(misses := 0);
        next := next.(nextPhase := now + PERIODIC_INTERVAL_MS);
        if next.version > remote {
          next := next.(maintainer := true);
          resend := true;
        } else if next.maintainer && next.version == remote && Signed(next.identity[5]) <= Signed(source[5]) {
          resend := true;
        } else {
          if next.maintainer && next.version < remote {
            next := next.(version := remote);
          }
          next := next.(maintainer := false);
          apply := true;
        }
      }
      p := next.(lastNow := now);
      status := Ok;
    }
  }
}
