/** What a station says over time when it is left alone, second by second: to its peers, to
    find out who keeps the settings, and to spread them. */
module PresenceTalks {
  import opened Words
  import opened Frames
  import opened Presences

  // ---------------------------------------------------------------------------
  // One instant.

  /** Nothing is due before `u`. */
  predicate Waits(p: Presence, u: u64) {
    p.phase != Down && u <= p.nextPeer && u <= p.nextPhase && u <= U64_MAX - PERIODIC_INTERVAL_MS
  }

  /** The state at the end of an instant, and what was said in it: first about the peers,
      then about the settings. */
  function Instant(p: Presence, u: u64): Pass
    requires Waits(p, u)
  {
    var peers := if p.nextPeer == u then PeerPass(p) else Pass(p, []);
    var phase := if p.nextPhase == u then PhasePass(peers.p) else Pass(peers.p, []);
    Pass(phase.p, peers.actions + phase.actions)
  }

  lemma InstantIsCaughtUp(p: Presence, u: u64)
    requires Waits(p, u)
    ensures CaughtUp(p, u, Always(), 0) == CatchUp(Instant(p, u).p, true, Instant(p, u).actions)
    ensures Instant(p, u).p.nextPeer > u && Instant(p, u).p.nextPhase > u && Instant(p, u).p.phase != Down
  {
    hide CaughtUp, PhasePass, PeerPass, Always, Late;
    PassesMoveOn(p, u);
    OnePass(p, u, Always(), 0);
    if p.nextPeer == u {
      var m := PeerPass(p);
      NoRefusal(0, |m.actions|);
      OnePass(m.p, u, Always(), |m.actions|);
      PassesMoveOn(m.p, u);
      if p.nextPhase == u {
        var n := PhasePass(m.p);
        NoRefusal(|m.actions|, |n.actions|);
        OnePass(n.p, u, Always(), |m.actions| + |n.actions|);
        assert m.actions + (n.actions + []) == m.actions + n.actions;
      }
      assert m.actions + [] == m.actions;
    } else if p.nextPhase == u {
      var n := PhasePass(p);
      NoRefusal(0, |n.actions|);
      OnePass(n.p, u, Always(), |n.actions|);
      assert n.actions + [] == n.actions && [] + n.actions == n.actions;
    }
  }

  lemma PassesMoveOn(p: Presence, u: u64)
    requires p.phase != Down && u <= U64_MAX - PERIODIC_INTERVAL_MS
    ensures p.nextPeer == u ==>
              PeerPass(p).p.nextPeer > u && PeerPass(p).p.nextPhase == p.nextPhase && PeerPass(p).p.phase == p.phase
    ensures p.nextPhase == u ==>
              PhasePass(p).p.nextPhase > u && PhasePass(p).p.nextPeer == p.nextPeer && PhasePass(p).p.phase != Down
  {
  }

  /** The next instant continues a tick: what was said before, then what is said now. */
  lemma OneInstantMore(p: Presence, before: u64, u: u64)
    requires p.phase != Down && before + 1 == u <= U64_MAX - PERIODIC_INTERVAL_MS
    ensures var earlier := CaughtUp(p, before, Always(), 0);
            && Waits(earlier.p, u)
            && CaughtUp(p, u, Always(), 0).p == Instant(earlier.p, u).p
            && CaughtUp(p, u, Always(), 0).calls == earlier.calls + Instant(earlier.p, u).actions
  {
    hide CaughtUp, Instant, Always;
    CallNumberIsIdle(p, before, 0, 0);
    CatchUpSplits(p, before, u, Always(), 0);
    InstantIsCaughtUp(CaughtUp(p, before, Always(), 0).p, u);
  }

  // ---------------------------------------------------------------------------
  // The peers.

  /** What is said of a peer `n` seconds later, when it had `left` seconds to go: a probe at
      every thirty seconds left, offline when none is left, and then every minute again. */
  function PeerWord(address: Address, left: nat, n: nat): seq<Action> {
    if n < left then
      if (left - n) % 30 == 0 then [Action(PeerProbe, address, 0)] else []
    else if (n - left) % 60 == 0 then [Action(PeerOffline, address, 0)]
    else if (n - left) % 60 == 30 then [Action(PeerProbe, address, 0)]
    else []
  }

  function PeersWord(peers: seq<Peer>, n: nat): seq<Action> {
    if peers == [] then []
    else
      var last := peers[|peers| - 1];
      PeersWord(peers[..|peers| - 1], n) + PeerWord(last.address, last.seconds, n)
  }

  /** The peer `n` seconds later, unheard. */
  function PeerLater(p: Peer, n: nat): Peer {
    if n < p.seconds then p.(seconds := p.seconds - n)
    else p.(online := false, seconds := 60 - (n - p.seconds) % 60)
  }

  function PeersLater(peers: seq<Peer>, n: nat): (later: seq<Peer>)
    ensures |later| == |peers|
    ensures forall i :: 0 <= i < |peers| ==> later[i] == PeerLater(peers[i], n)
  {
    seq(|peers|, i requires 0 <= i < |peers| => PeerLater(peers[i], n))
  }

  predicate Counting(peers: seq<Peer>) {
    forall i :: 0 <= i < |peers| ==> 0 < peers[i].seconds
  }

  lemma OneSecondMore(p: Peer, n: nat)
    requires 0 < p.seconds
    ensures PeerAfter(PeerLater(p, n)) == PeerLater(p, n + 1)
    ensures PeerNews(PeerLater(p, n)) == PeerWord(p.address, p.seconds, n + 1)
  {
  }

  lemma {:induction false} SecondOfAll(peers: seq<Peer>, n: nat)
    requires Counting(peers)
    ensures PeersAfter(PeersLater(peers, n)) == PeersLater(peers, n + 1)
    ensures PeersNews(PeersLater(peers, n)) == PeersWord(peers, n + 1)
  {
    hide PeerAfter, PeerNews, PeerLater, PeerWord;
    if peers != [] {
      var k := |peers| - 1;
      SecondOfAll(peers[..k], n);
      OneSecondMore(peers[k], n);
      assert PeersLater(peers, n)[..k] == PeersLater(peers[..k], n);
      assert PeersLater(peers, n + 1) == PeersLater(peers[..k], n + 1) + [PeerLater(peers[k], n + 1)];
    }
  }

  /** The indoor stations among the peers stay the same. */
  lemma {:induction false} IndoorStays(peers: seq<Peer>, n: nat, kind: ActionKind, round: nat)
    ensures ToIndoor(PeersLater(peers, n), kind, round) == ToIndoor(peers, kind, round)
  {
    if peers != [] {
      var k := |peers| - 1;
      IndoorStays(peers[..k], n, kind, round);
      assert PeersLater(peers, n)[..k] == PeersLater(peers[..k], n);
    }
  }

  // ---------------------------------------------------------------------------
  // The settings.

  /** What is said about the settings `e` ms after the start: three questions who keeps them,
      half a second apart from the third second on; three questions for the version, a second
      apart; and from then on the settings themselves, every minute. */
  function StartWord(peers: seq<Peer>, e: int): seq<Action> {
    if e == 3000 then ToIndoor(peers, AskSync, 1)
    else if e == 3500 then ToIndoor(peers, AskSync, 2)
    else if e == 4000 then ToIndoor(peers, AskSync, 3)
    else if e == 4500 then ToIndoor(peers, AskVersion, 1)
    else if e == 5500 then ToIndoor(peers, AskVersion, 2)
    else if e == 6500 then ToIndoor(peers, AskVersion, 3)
    else if e > 7500 && (e - 7500) % 60000 == 0 then ToIndoor(peers, SendPeriodic, 0)
    else []
  }

  /** What is said at the `m`-th minute of the periodic phase: the settings, by the one who
      keeps them or has missed them for two minutes. */
  function MinuteWord(p: Presence, m: nat): seq<Action> {
    if p.maintainer || p.misses + m >= 2 then ToIndoor(p.peers, SendPeriodic, 0) else []
  }

  /** A station just started, or one whose phase is periodic; left alone it goes on as this
      file says. */
  predicate Settled(p: Presence) {
    && Counting(p.peers)
    && ((p.phase == WaitSync && !p.maintainer && p.misses == 0 && p.round == 0) || (p.phase == Periodic && p.misses < 2))
  }

  /** How many turns of a timer that next runs at `next` are over. */
  function Turns(next: nat, every: nat, u: nat): nat
    requires every > 0
  {
    if u < next then 0 else (u - next) / every + 1
  }

  predicate IsTurn(next: nat, every: nat, u: nat)
    requires every > 0
  {
    u >= next && (u - next) % every == 0
  }

  /** The time since the start of a station that waits for its first question. */
  function SinceStart(p: Presence, u: nat): int {
    u + 3000 - p.nextPhase
  }

  function PhaseWord(p: Presence, u: nat): seq<Action> {
    if p.phase == WaitSync then StartWord(p.peers, SinceStart(p, u))
    else if IsTurn(p.nextPhase, 60000, u) then MinuteWord(p, Turns(p.nextPhase, 60000, u))
    else []
  }

  function PeersPart(p: Presence, u: nat): seq<Action> {
    if IsTurn(p.nextPeer, 1000, u) then PeersWord(p.peers, Turns(p.nextPeer, 1000, u)) else []
  }

  /** Everything that is said after `from` and until `u`, in order. */
  function Talk(p: Presence, from: nat, u: nat): seq<Action> {
    if u <= from then [] else Talk(p, from, u - 1) + (PeersPart(p, u) + PhaseWord(p, u))
  }

  /** Where the phases stand. */
  datatype Stage = Stage(phase: Phase, maintainer: bool, round: nat, misses: nat, nextPhase: nat)

  function StageOf(p: Presence): Stage {
    Stage(p.phase, p.maintainer, p.round, p.misses, p.nextPhase)
  }

  function StageAt(p: Presence, u: nat): Stage {
    if p.phase == WaitSync then
      var e := SinceStart(p, u);
      if e < 3000 then StageOf(p)
      else if e < 4500 then
        var round := (e - 3000) / 500 + 1;
        Stage(SyncAsk, false, round, 0, p.nextPhase + 500 * round)
      else if e < 7500 then
        var round := (e - 4500) / 1000 + 1;
        Stage(SyncChoose, true, round, 0, p.nextPhase + 1500 + 1000 * round)
      else Stage(Periodic, true, 0, 0, p.nextPhase + 4500 + 60000 * ((e - 7500) / 60000 + 1))
    else
      var m := Turns(p.nextPhase, 60000, u);
      Stage(p.phase, p.maintainer || p.misses + m >= 2, p.round,
            if m == 0 then p.misses else if p.maintainer || p.misses + m >= 2 then 0 else p.misses + m,
            p.nextPhase + 60000 * m)
  }

  /** The station as it must be at `u`. */
  predicate IsLater(p: Presence, u: nat, q: Presence) {
    && q.identity == p.identity && q.version == p.version && q.lastNow == p.lastNow
    && q.peers == PeersLater(p.peers, Turns(p.nextPeer, 1000, u))
    && q.nextPeer == p.nextPeer + 1000 * Turns(p.nextPeer, 1000, u)
    && StageOf(q) == StageAt(p, u)
  }

  lemma OneTurnMore(next: nat, every: nat, u: nat)
    requires every > 0 && u > 0
    ensures var n := Turns(next, every, u - 1);
            && (IsTurn(next, every, u) <==> next + every * n == u)
            && Turns(next, every, u) == (if IsTurn(next, every, u) then n + 1 else n)
            && next + every * Turns(next, every, u) > u
  {
    if u > next {
      DivisionSteps(u - next, every);
    }
  }

  /** One less divides to one less exactly at the multiples. */
  lemma DivisionSteps(a: nat, d: nat)
    requires a > 0 && d > 0
    ensures var q := a / d;
            && d * q <= a < d * q + d && (a % d == 0 <==> a == d * q)
            && (a - 1) / d == if a == d * q then q - 1 else q
    ensures d * (a / d - 1) == d * (a / d) - d && d * (a / d + 1) == d * (a / d) + d
  {
    var q := a / d;
    assert a == q * d + a % d;
    assert d * q == q * d;
    if a == d * q {
      QuotientIs(a - 1, d, q - 1);
    } else {
      QuotientIs(a - 1, d, q);
    }
  }

  lemma QuotientIs(x: int, d: nat, q: int)
    requires d > 0 && q * d <= x < q * d + d
    ensures x / d == q
  {
    var r := x / d;
    assert x == r * d + x % d;
    if r < q {
      ProductsOrder(r + 1, q, d);
    } else if r > q {
      ProductsOrder(q + 1, r, d);
    }
  }

  lemma ProductsOrder(a: int, b: int, d: nat)
    requires a <= b
    ensures a * d <= b * d
  {
    assert b * d == a * d + (b - a) * d;
  }

  /** Only the phases move. */
  predicate OnlyPhase(q: Presence, r: Presence) {
    r == q.(phase := r.phase, maintainer := r.maintainer, round := r.round, misses := r.misses, nextPhase := r.nextPhase)
  }

  lemma StartTurn(p: Presence, u: u64, q: Presence)
    requires Settled(p) && p.phase == WaitSync && 0 < u <= U64_MAX - PERIODIC_INTERVAL_MS
    requires StageOf(q) == StageAt(p, u - 1) && q.nextPhase >= u
    ensures q.phase != Down
    ensures var r := if q.nextPhase == u then PhasePass(q) else Pass(q, []);
            StageOf(r.p) == StageAt(p, u) && OnlyPhase(q, r.p) && r.actions == StartWord(q.peers, SinceStart(p, u))
  {
    hide ToIndoor, Counting;
    var e := SinceStart(p, u);
    if e > 7500 {
      var k := (e - 1 - 7500) / 60000 + 1;
      assert q.nextPhase == p.nextPhase + 4500 + 60000 * k;
      assert q.nextPhase == u <==> e - 7500 == 60000 * k;
      SixtySeconds(e - 7500);
    }
  }

  lemma SixtySeconds(x: int)
    requires x > 0
    ensures var k := (x - 1) / 60000 + 1;
            && (x == 60000 * k <==> x % 60000 == 0)
            && x / 60000 == (if x == 60000 * k then k else k - 1)
  {
  }

  lemma MinuteTurn(p: Presence, u: u64, q: Presence)
    requires Settled(p) && p.phase == Periodic && 0 < u <= U64_MAX - PERIODIC_INTERVAL_MS
    requires StageOf(q) == StageAt(p, u - 1) && q.nextPhase >= u
    ensures var r := if q.nextPhase == u then PhasePass(q) else Pass(q, []);
            && StageOf(r.p) == StageAt(p, u) && OnlyPhase(q, r.p)
            && r.actions == if IsTurn(p.nextPhase, 60000, u) then MinuteWord(p.(peers := q.peers), Turns(p.nextPhase, 60000, u))
                            else []
  {
    OneTurnMore(p.nextPhase, 60000, u);
    hide ToIndoor, Counting, Turns, IsTurn;
  }

  lemma PhaseTurn(p: Presence, u: u64, q: Presence, n: nat)
    requires Settled(p) && 0 < u <= U64_MAX - PERIODIC_INTERVAL_MS
    requires StageOf(q) == StageAt(p, u - 1) && q.nextPhase >= u && q.peers == PeersLater(p.peers, n)
    ensures q.phase != Down
    ensures var r := if q.nextPhase == u then PhasePass(q) else Pass(q, []);
            StageOf(r.p) == StageAt(p, u) && OnlyPhase(q, r.p) && r.actions == PhaseWord(p, u)
  {
    hide PhasePass, ToIndoor, PeersLater, Counting, Turns, IsTurn;
    forall kind, round
      ensures ToIndoor(q.peers, kind, round) == ToIndoor(p.peers, kind, round)
    {
      IndoorStays(p.peers, n, kind, round);
    }
    if p.phase == WaitSync {
      StartTurn(p, u, q);
    } else {
      MinuteTurn(p, u, q);
    }
  }

  lemma PeersTurn(p: Presence, u: u64, q: Presence)
    requires Counting(p.peers) && 0 < u <= U64_MAX - PERIODIC_INTERVAL_MS
    requires q.peers == PeersLater(p.peers, Turns(p.nextPeer, 1000, u - 1))
    requires q.nextPeer == p.nextPeer + 1000 * Turns(p.nextPeer, 1000, u - 1) && q.nextPeer >= u
    ensures var r := if q.nextPeer == u then PeerPass(q) else Pass(q, []);
            && r.p == q.(peers := PeersLater(p.peers, Turns(p.nextPeer, 1000, u)),
                         nextPeer := p.nextPeer + 1000 * Turns(p.nextPeer, 1000, u))
            && r.actions == PeersPart(p, u)
  {
    OneTurnMore(p.nextPeer, 1000, u);
    SecondOfAll(p.peers, Turns(p.nextPeer, 1000, u - 1));
    hide Counting, PeersAfter, PeersNews, PeersLater, PeersWord;
  }

  /** One instant of a station left alone. */
  lemma InstantTalks(p: Presence, u: u64, q: Presence)
    requires Settled(p) && 0 < u && IsLater(p, u - 1, q) && Waits(q, u)
    ensures IsLater(p, u, Instant(q, u).p) && Instant(q, u).actions == PeersPart(p, u) + PhaseWord(p, u)
  {
    hide PeerPass, PhasePass, PeersLater, StageAt, PeersPart, PhaseWord, Counting, Turns;
    PeersTurn(p, u, q);
    var peers := if q.nextPeer == u then PeerPass(q) else Pass(q, []);
    PhaseTurn(p, u, peers.p, Turns(p.nextPeer, 1000, u));
  }

  /** What a station says when it is left alone, whatever its peers were and whoever keeps the
      settings: exactly its talk, in order of time. */
  lemma {:induction false} TicksTalk(p: Presence, from: u64, u: u64)
    requires Settled(p) && from < p.nextPeer && from < p.nextPhase && from <= u <= U64_MAX - PERIODIC_INTERVAL_MS
    ensures var c := CaughtUp(p, u, Always(), 0);
            c.done && IsLater(p, u, c.p) && c.calls == Talk(p, from, u)
    decreases u
  {
    hide CaughtUp, Always, Instant, IsLater, PeersPart, PhaseWord, Late, Counting;
    if u == from {
      OnePass(p, u, Always(), 0);
      NothingLater(p, u);
    } else {
      TicksTalk(p, from, u - 1);
      OneInstantMore(p, u - 1, u);
      CallNumberIsIdle(p, u, 0, 0);
      InstantTalks(p, u, CaughtUp(p, u - 1, Always(), 0).p);
    }
  }

  lemma PeersNow(peers: seq<Peer>)
    requires Counting(peers)
    ensures PeersLater(peers, 0) == peers
  {
  }

  lemma NothingLater(p: Presence, u: nat)
    requires Settled(p) && u < p.nextPeer && u < p.nextPhase
    ensures IsLater(p, u, p)
  {
    PeersNow(p.peers);
  }

  // ---------------------------------------------------------------------------
  // Whole runs.

  /** What is said in ticks at these times, one after the other. */
  function SaidIn(p: Presence, times: seq<u64>, from: u64): (Presence, seq<Action>)
    requires InOrder(times, from)
  {
    if times == [] then (p, [])
    else
      var n := |times| - 1;
      var (q, before) := SaidIn(p, times[..n], from);
      var t := Ticked(q, times[n], Always(), 0);
      (t.p, before + t.calls)
  }

  predicate InOrder(times: seq<u64>, from: u64) {
    && (forall k :: 0 <= k < |times| ==> from <= times[k] <= U64_MAX - PERIODIC_INTERVAL_MS)
    && forall j, k :: 0 <= j < k < |times| ==> times[j] <= times[k]
  }

  lemma {:induction false} ManyTicksAreOne(p: Presence, times: seq<u64>)
    requires p.phase != Down && InOrder(times, p.lastNow) && times != []
    ensures var last := times[|times| - 1];
            SaidIn(p, times, p.lastNow) == (Ticked(p, last, Always(), 0).p, Ticked(p, last, Always(), 0).calls)
  {
    hide Ticked, Always;
    var n := |times| - 1;
    if n == 0 {
      assert times[..0] == [];
      var said := Ticked(p, times[0], Always(), 0).calls;
      assert [] + said == said;
    } else {
      ManyTicksAreOne(p, times[..n]);
      SplitInvariance(p, times[n - 1], times[n]);
      CallNumberDoesNotMatter(Ticked(p, times[n - 1], Always(), 0).p, times[n], |Ticked(p, times[n - 1], Always(), 0).calls|);
    }
  }

  lemma CallNumberDoesNotMatter(p: Presence, u: u64, k: nat)
    requires u <= U64_MAX - PERIODIC_INTERVAL_MS
    ensures Ticked(p, u, Always(), k) == Ticked(p, u, Always(), 0)
  {
    hide CaughtUp, Always;
    if p.phase != Down && u >= p.lastNow {
      CallNumberIsIdle(p, u, k, 0);
    }
  }

  /** A station started at `t` and left alone, ticked whenever it likes: it asks at 3, 3.5 and
      4 seconds, asks for versions at 4.5, 5.5 and 6.5, keeps the settings itself from 7.5 on
      and spreads them every minute after that; and it probes and gives up its peers, which
      are silent, at their seconds. */
  lemma StartedStationsTalk(identity: Address, t: u64, times: seq<u64>)
    requires Started(identity, t).Some? && InOrder(times, t) && times != []
    ensures var p, last := Started(identity, t).value, times[|times| - 1];
            var (q, said) := SaidIn(p, times, t);
            && said == Talk(p, t, last)
            && (last as int - t as int >= 7500 ==> q.phase == Periodic && q.maintainer)
  {
    var p, last := Started(identity, t).value, times[|times| - 1];
    StartedIsSettled(identity, t);
    ManyTicksAreOne(p, times);
    TicksTalk(p, t, last);
    hide CaughtUp, Talk, SaidIn, PeersLater;
  }

  lemma StartedIsSettled(identity: Address, t: u64)
    requires Started(identity, t).Some?
    ensures var p := Started(identity, t).value;
            && Settled(p) && p.nextPeer == t + 1000 && p.nextPhase == t + 3000 && p.lastNow == t && p.phase == WaitSync
            && forall u: nat :: SinceStart(p, u) == u - t
  {
  }

  /** In the periodic phase the one who keeps the settings spreads them every minute; anybody
      else who hears nothing does so from the second minute on. */
  lemma PeriodicStationsTalk(p: Presence, times: seq<u64>)
    requires p.phase == Periodic && p.misses < 2 && Counting(p.peers)
    requires p.lastNow < p.nextPeer && p.lastNow < p.nextPhase && InOrder(times, p.lastNow) && times != []
    ensures var last := times[|times| - 1];
            var (q, said) := SaidIn(p, times, p.lastNow);
            && said == Talk(p, p.lastNow, last)
            && (q.maintainer <==> p.maintainer || p.misses + Turns(p.nextPhase, 60000, last) >= 2)
  {
    var last := times[|times| - 1];
    ManyTicksAreOne(p, times);
    TicksTalk(p, p.lastNow, last);
    hide CaughtUp, Talk, SaidIn, PeersLater, Turns;
  }

  // ---------------------------------------------------------------------------
  // The peers, whatever the phases do.

  function News(actions: seq<Action>): seq<Action> {
    if actions == [] then []
    else
      var last := actions[|actions| - 1];
      News(actions[..|actions| - 1]) + if last.kind == PeerProbe || last.kind == PeerOffline then [last] else []
  }

  lemma {:induction false} NewsInTurn(a: seq<Action>, b: seq<Action>)
    ensures News(a + b) == News(a) + News(b)
  {
    if b == [] {
      assert a + b == a && News(a) + [] == News(a);
    } else {
      var n := |b| - 1;
      assert (a + b)[..|a + b| - 1] == a + b[..n];
      NewsInTurn(a, b[..n]);
    }
  }

  lemma {:induction false} PeersNewsIsNews(peers: seq<Peer>)
    ensures News(PeersNews(peers)) == PeersNews(peers)
  {
    if peers != [] {
      var n := |peers| - 1;
      PeersNewsIsNews(peers[..n]);
      NewsInTurn(PeersNews(peers[..n]), PeerNews(peers[n]));
      OneNews(peers[n]);
    }
  }

  lemma OneNews(p: Peer)
    ensures News(PeerNews(p)) == PeerNews(p)
  {
    var word := PeerNews(p);
    if word != [] {
      assert word[..0] == [];
    }
  }

  lemma {:induction false} IndoorIsNoNews(peers: seq<Peer>, kind: ActionKind, round: nat)
    requires kind != PeerProbe && kind != PeerOffline
    ensures News(ToIndoor(peers, kind, round)) == []
  {
    if peers != [] {
      var n := |peers| - 1;
      IndoorIsNoNews(peers[..n], kind, round);
      var word := if peers[n].address[0] == 0x61 then [Action(kind, peers[n].address, round)] else [];
      NewsInTurn(ToIndoor(peers[..n], kind, round), word);
      assert word != [] ==> word[..0] == [];
    }
  }

  lemma PhasesAreNoNews(p: Presence)
    requires p.phase != Down && p.nextPhase <= U64_MAX - PERIODIC_INTERVAL_MS
    ensures News(PhasePass(p).actions) == [] && PhasePass(p).p.peers == p.peers && PhasePass(p).p.nextPeer == p.nextPeer
  {
    hide ToIndoor;
    forall kind, round: nat | kind != PeerProbe && kind != PeerOffline
      ensures News(ToIndoor(p.peers, kind, round)) == []
    {
      IndoorIsNoNews(p.peers, kind, round);
    }
  }

  function PeersTalk(p: Presence, from: nat, u: nat): seq<Action> {
    if u <= from then [] else PeersTalk(p, from, u - 1) + PeersPart(p, u)
  }

  lemma InstantNews(p: Presence, u: u64, q: Presence)
    requires Counting(p.peers) && 0 < u && Waits(q, u)
    requires q.peers == PeersLater(p.peers, Turns(p.nextPeer, 1000, u - 1))
    requires q.nextPeer == p.nextPeer + 1000 * Turns(p.nextPeer, 1000, u - 1)
    ensures var i := Instant(q, u);
            && i.p.peers == PeersLater(p.peers, Turns(p.nextPeer, 1000, u))
            && i.p.nextPeer == p.nextPeer + 1000 * Turns(p.nextPeer, 1000, u)
            && News(i.actions) == PeersPart(p, u)
  {
    hide PeerPass, PhasePass, PeersLater, PeersPart, Counting, Turns, News;
    PeersTurn(p, u, q);
    var peers := if q.nextPeer == u then PeerPass(q) else Pass(q, []);
    var phase := if q.nextPhase == u then PhasePass(peers.p) else Pass(peers.p, []);
    PeersNewsIsNews(q.peers);
    PassNews(q, u);
    NewsInTurn(peers.actions, phase.actions);
    if q.nextPhase == u {
      PhasesAreNoNews(peers.p);
    }
  }

  lemma PassNews(q: Presence, u: u64)
    requires Waits(q, u)
    ensures News([]) == []
    ensures q.nextPeer == u ==> PeerPass(q).actions == PeersNews(q.peers)
  {
  }

  /** Whatever phase the station is in: about its peers it says exactly what their seconds
      ask for, each peer for itself, as long as nobody is heard. */
  lemma {:induction false} PeersAreWatched(p: Presence, from: u64, u: u64)
    requires p.phase != Down && Counting(p.peers) && from < p.nextPeer && from < p.nextPhase
    requires from <= u <= U64_MAX - PERIODIC_INTERVAL_MS
    ensures var c := CaughtUp(p, u, Always(), 0);
            && c.done && News(c.calls) == PeersTalk(p, from, u)
            && c.p.peers == PeersLater(p.peers, Turns(p.nextPeer, 1000, u))
            && c.p.nextPeer == p.nextPeer + 1000 * Turns(p.nextPeer, 1000, u)
    decreases u
  {
    hide CaughtUp, Always, Instant, PeersPart, Late, Counting;
    if u == from {
      OnePass(p, u, Always(), 0);
      PeersNow(p.peers);
    } else {
      PeersAreWatched(p, from, u - 1);
      OneInstantMore(p, u - 1, u);
      CallNumberIsIdle(p, u, 0, 0);
      var earlier := CaughtUp(p, u - 1, Always(), 0);
      InstantNews(p, u, earlier.p);
      NewsInTurn(earlier.calls, Instant(earlier.p, u).actions);
    }
  }

  /** A peer that was just heard is probed once, after thirty seconds of silence, and given up
      after sixty; not before, not in between. */
  lemma HeardPeersAreWatched(p: Presence, address: Address, n: nat)
    requires PeerHeard(p, address, true).1 == Ok && 0 < n <= 60
    ensures var i, q := FindPeer(p.peers, address), PeerHeard(p, address, true).0;
            && i < |q.peers| && q.peers[i].address == address && q.peers[i].online
            && PeerWord(address, q.peers[i].seconds, n) ==
               (if n == 30 then [Action(PeerProbe, address, 0)]
                else if n == 60 then [Action(PeerOffline, address, 0)] else [])
            && (PeerLater(q.peers[i], n).online <==> n < 60)
  {
  }

  predicate Holds(peers: seq<Peer>, a: Address) {
    exists i :: 0 <= i < |peers| && peers[i].address == a
  }

  /** A station's peers are the other three of its kind in its room and the room's two of kind
      62, and each is to be probed first. */
  lemma PeersAreTheRoom(identity: Address, t: u64, a: Address)
    requires Started(identity, t).Some?
    ensures var peers := Started(identity, t).value.peers;
            && |peers| == 5 && (forall i :: 0 <= i < |peers| ==> !peers[i].online && PeerWord(a, peers[i].seconds, 1) != [])
            && (Holds(peers, a) <==>
                  && a[1..5] == identity[1..5]
                  && ((a[0] == identity[0] && 1 <= a[5] <= 4 && a[5] != identity[5]) || (a[0] == 0x62 && 1 <= a[5] <= 2)))
  {
    var machine := FromBcd(identity[5]);
    assert identity[5] == machine;
    OthersAre(identity, machine, 4, a);
    var peers, others := Started(identity, t).value.peers, Others(identity, machine, 4);
    var all := IndoorPeers(identity).value;
    hide Others;
    assert |others| == 3;
    assert |peers| == |all| && forall i :: 0 <= i < |all| ==> peers[i].address == all[i];
    if a in all {
      var i :| 0 <= i < |all| && all[i] == a;
      assert peers[i].address == a;
    }
    assert a in all <==> a in others || a == identity[0 := 0x62][5 := 1] || a == identity[0 := 0x62][5 := 2];
    OneMachine(identity, a, 0x62, 1);
    OneMachine(identity, a, 0x62, 2);
  }

  lemma OneMachine(identity: Address, a: Address, kind: byte, machine: byte)
    ensures a == identity[0 := kind][5 := machine] <==> a[0] == kind && a[1..5] == identity[1..5] && a[5] == machine
  {
    if a[0] == kind && a[1..5] == identity[1..5] && a[5] == machine {
      assert a[1] == a[1..5][0] && a[2] == a[1..5][1] && a[3] == a[1..5][2] && a[4] == a[1..5][3];
      assert identity[1] == identity[1..5][0] && identity[2] == identity[1..5][1];
      assert identity[3] == identity[1..5][2] && identity[4] == identity[1..5][3];
    }
  }

  lemma {:induction false} OthersAre(identity: Address, machine: nat, upto: nat, a: Address)
    requires upto <= 4
    ensures a in Others(identity, machine, upto) <==>
            a[0] == identity[0] && a[1..5] == identity[1..5] && 1 <= a[5] <= upto && a[5] != machine
    ensures |Others(identity, machine, upto)| == if 1 <= machine <= upto then upto - 1 else upto
  {
    if upto > 0 {
      OthersAre(identity, machine, upto - 1, a);
      OneMachine(identity, a, identity[0], upto);
      assert identity[0 := identity[0]][5 := upto] == identity[5 := upto];
    }
  }

  // ---------------------------------------------------------------------------
  // What another station's word changes.

  /** A station that asks who keeps the settings and is answered stops asking: it waits, with
      no version of its own, to be sent them within a minute. */
  lemma AnswersEndTheAsking(p: Presence, source: Address, version: u16, now: u64, random: Opaque, encryption: Opaque)
    requires p.phase == SyncAsk && SameRoom(source, p.identity) && p.lastNow <= now <= U64_MAX - 60000
    ensures var answer := Image(VersionFrame(p.identity, source, 0x81, version), random, encryption);
            var (q, status) := SyncReceived(p, answer, now);
            && status == Ok
            && q == p.(phase := Periodic, version := 0, maintainer := false, misses := 0, round := 0,
                       nextPhase := now + 60000, lastNow := now)
  {
    ParseOfImage(VersionFrame(p.identity, source, 0x81, version), random, encryption);
    hide Parse, Image;
  }

  /** In any other phase such an answer only shows the time. */
  lemma LateAnswersChangeNothing(p: Presence, source: Address, version: u16, now: u64, random: Opaque,
                                 encryption: Opaque)
    requires p.phase != SyncAsk && p.phase != Down && SameRoom(source, p.identity) && p.lastNow <= now <= U64_MAX - 60000
    ensures var answer := Image(VersionFrame(p.identity, source, 0x81, version), random, encryption);
            SyncReceived(p, answer, now) == (p.(lastNow := now), Ok)
  {
    ParseOfImage(VersionFrame(p.identity, source, 0x81, version), random, encryption);
    hide Parse, Image;
  }

  /** Periodic data heard puts off one's own for a minute; single settings do not, but bring
      their version and end one's keeping of the settings. */
  lemma HeardDataPutsOff(p: Presence, source: Address, version: u16, now: u64)
    requires p.phase == Periodic && SameRoom(source, p.identity) && p.lastNow <= now <= U64_MAX - 60000
    ensures var d := DataObserved(p, source, Period, version, now);
            d.Some? && d.value.p.nextPhase == now + 60000 && d.value.p.misses == 0
    ensures DataObserved(p, source, Normal, version, now) ==
            Some(Decision(p.(maintainer := false, version := version, lastNow := now), true, false))
  {
  }
}
