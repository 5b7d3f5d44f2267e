/** What the preview monitor says to its station, when, and that the two understand each
    other: the answer to what it sends is what it accepts. */
module MonitorTalks {
  import opened Words
  import opened Frames
  import opened Monitors

  // ---------------------------------------------------------------------------
  // What goes out.

  /** A request's turn has come: nothing holds it back, and some are left. */
  predicate RequestDue(m: Monitor, now: u64) {
    && m.state == Requesting && m.times.nextAction <= now
    && (m.policy.grace && !m.flags.established ==> m.times.notBefore <= now)
    && (m.policy.persistent || m.counts.attempts < 20)
  }

  /** A picture has come and the last keep-alive lies two seconds back. */
  predicate KeepAliveDue(m: Monitor, now: u64) {
    && (m.state == AwaitingVideo || m.state == Publishing || m.state == Viewing)
    && m.policy.persistent && m.flags.mediaReady && 0 < m.times.keepaliveNext <= now
  }

  predicate HangupDue(m: Monitor) {
    m.state == Stopping && !m.flags.stopSent
  }

  /** The frames are exactly these, and each goes to the station in the monitor's own name. */
  lemma StepsSpeak(m: Monitor, now: u64)
    requires m.lastNow <= now
    ensures var spoken := Stepped(m, now).value.action;
            && (spoken == Some(Frame(m.peer.station, m.peer.local, 3, 4, [0x02, 0x20, 0x6f, 0x00, 0x20, 0x6e, 0x1e])) <==>
                  RequestDue(m, now))
            && (spoken == Some(Frame(m.peer.station, m.peer.local, 3, 0x51, [])) <==> KeepAliveDue(m, now))
            && (spoken == Some(Frame(m.peer.station, m.peer.local, 3, 2, [0])) <==> HangupDue(m))
            && (spoken == None <==> !RequestDue(m, now) && !KeepAliveDue(m, now) && !HangupDue(m))
  {
  }

  function Steps(m: Monitor, times: seq<u64>): Monitor
    requires InOrder(times, m.lastNow)
    decreases |times|
  {
    if times == [] then m
    else
      var next := Stepped(m, times[0]).value.m;
      StepIsInTime(m, times);
      Steps(next, times[1..])
  }

  /** What the steps say, one after the other. */
  function Said(m: Monitor, times: seq<u64>): (said: seq<Option<Frame>>)
    requires InOrder(times, m.lastNow)
    ensures |said| == |times|
    decreases |times|
  {
    if times == [] then []
    else
      StepIsInTime(m, times);
      [Stepped(m, times[0]).value.action] + Said(Stepped(m, times[0]).value.m, times[1..])
  }

  predicate InOrder(times: seq<u64>, from: u64) {
    && (forall k :: 0 <= k < |times| ==> from <= times[k])
    && forall j, k :: 0 <= j < k < |times| ==> times[j] <= times[k]
  }

  lemma StepIsInTime(m: Monitor, times: seq<u64>)
    requires times != [] && InOrder(times, m.lastNow)
    ensures InOrder(times[1..], Stepped(m, times[0]).value.m.lastNow)
  {
  }

  predicate IsHangup(said: Option<Frame>) {
    said.Some? && said.value.opcode == 2
  }

  /** A monitor that is not in a dialogue, or has hung up already. */
  predicate HungUp(m: Monitor) {
    m.state == Idle || m.state == Failed || m.state == Requesting || (m.state == Stopping && m.flags.stopSent)
  }

  lemma {:induction false} NoMoreHangups(m: Monitor, times: seq<u64>)
    requires InOrder(times, m.lastNow) && HungUp(m)
    ensures forall k :: 0 <= k < |times| ==> !IsHangup(Said(m, times)[k])
    decreases |times|
  {
    if times != [] {
      StepIsInTime(m, times);
      var turn := Stepped(m, times[0]).value;
      assert HungUp(turn.m) && !IsHangup(turn.action);
      NoMoreHangups(turn.m, times[1..]);
    }
  }

  /** A stop is said exactly once, at the first step after it, however long nothing answers. */
  lemma StopIsSaidOnce(m: Monitor, times: seq<u64>)
    requires times != [] && InOrder(times, m.lastNow) && HangupDue(m)
    ensures Said(m, times)[0] == Some(Frame(m.peer.station, m.peer.local, 3, 2, [0]))
    ensures forall k :: 0 < k < |times| ==> !IsHangup(Said(m, times)[k])
  {
    StepIsInTime(m, times);
    StepsSpeak(m, times[0]);
    var turn := Stepped(m, times[0]).value;
    NoMoreHangups(turn.m, times[1..]);
  }

  predicate IsRequest(said: Option<Frame>) {
    said.Some? && said.value.opcode == 4
  }

  predicate IsKeepAlive(said: Option<Frame>) {
    said.Some? && said.value.opcode == 0x51
  }

  /** However often it is stepped, the monitor does not press: requests are a second apart. */
  lemma {:induction false} RequestsKeepTheirDistance(m: Monitor, times: seq<u64>, j: nat, k: nat)
    requires InOrder(times, m.lastNow) && j < k < |times|
    requires IsRequest(Said(m, times)[j]) && IsRequest(Said(m, times)[k])
    ensures times[k] as int >= times[j] as int + 1000
    decreases |times|
  {
    StepIsInTime(m, times);
    var turn := Stepped(m, times[0]).value;
    if j > 0 {
      RequestsKeepTheirDistance(turn.m, times[1..], j - 1, k - 1);
    } else {
      WaitsForRequest(turn.m, times[1..], k - 1, times[0] as int + 1000);
    }
  }

  /** While it only waits for an answer, nothing goes out before the next request's time. */
  lemma {:induction false} WaitsForRequest(m: Monitor, times: seq<u64>, k: nat, next: nat)
    requires InOrder(times, m.lastNow) && k < |times| && IsRequest(Said(m, times)[k])
    requires m.state == Requesting ==> m.times.nextAction >= next
    requires m.state == Requesting || m.state == Failed
    ensures times[k] >= next
    decreases |times|
  {
    StepIsInTime(m, times);
    if k > 0 && times[0] < next {
      WaitsForRequest(Stepped(m, times[0]).value.m, times[1..], k - 1, next);
    }
  }

  /** Nor with keep-alives, which are two seconds apart. */
  lemma {:induction false} KeepAlivesKeepTheirDistance(m: Monitor, times: seq<u64>, j: nat, k: nat)
    requires InOrder(times, m.lastNow) && j < k < |times|
    requires IsKeepAlive(Said(m, times)[j]) && IsKeepAlive(Said(m, times)[k])
    ensures times[k] as int >= times[j] as int + 2000
    decreases |times|
  {
    StepIsInTime(m, times);
    var turn := Stepped(m, times[0]).value;
    if j > 0 {
      KeepAlivesKeepTheirDistance(turn.m, times[1..], j - 1, k - 1);
    } else {
      WaitsForKeepAlive(turn.m, times[1..], k - 1, times[0] as int + 2000);
    }
  }

  lemma {:induction false} WaitsForKeepAlive(m: Monitor, times: seq<u64>, k: nat, next: nat)
    requires InOrder(times, m.lastNow) && k < |times| && IsKeepAlive(Said(m, times)[k])
    requires Playing(m.state) ==> m.times.keepaliveNext == 0 || m.times.keepaliveNext >= next
    ensures times[k] >= next
    decreases |times|
  {
    StepIsInTime(m, times);
    if k > 0 && times[0] < next {
      WaitsForKeepAlive(Stepped(m, times[0]).value.m, times[1..], k - 1, next);
    }
  }

  // ---------------------------------------------------------------------------
  // The exchange.

  /** The answer to a frame: back the way it came. */
  function Answer(f: Frame, opcode: byte, payload: seq<byte>): Frame {
    Frame(f.source, f.destination, 3, opcode, payload)
  }

  /** The confirmation of a request is understood whenever it comes while video is asked for:
      from then on video is awaited, as long as the policy says. */
  lemma ConfirmationIsUnderstood(m: Monitor, now: u64, at: u64)
    requires m.lastNow <= now <= at && RequestDue(m, now)
    requires now <= U64_MAX - 1000 && at <= U64_MAX - m.policy.frameTimeout
    ensures var turn := Stepped(m, now).value;
            var heard := Received(turn.m, Answer(turn.action.value, 0x84, [0x1e, 0x00, 0x01]), m.peer.ipv4, at);
            && heard.accepted && heard.report.confirmed
            && heard.m.state == AwaitingVideo && heard.m.times.frameDeadline == at + m.policy.frameTimeout
            && heard.m.times.keepaliveNext == at && heard.m.counts.misses == 0
  {
  }

  /** It may be overtaken by the first picture, and is then understood exactly until the
      request's second is over. */
  lemma OvertakenConfirmation(m: Monitor, now: u64, seen: u64, at: u64)
    requires m.lastNow <= now <= seen <= at && RequestDue(m, now) && m.generation != 0 && !m.flags.peerStopSeen
    requires now <= U64_MAX - 1000 && at <= U64_MAX - m.policy.frameTimeout
    ensures var turn := Stepped(m, now).value;
            var shown := Admitted(turn.m, m.peer.station, m.peer.local, m.peer.ipv4, m.generation, seen);
            && shown.Some?
            && var heard := Received(shown.value, Answer(turn.action.value, 0x84, [0x1e, 0x00, 0x01]), m.peer.ipv4, at);
               (heard.accepted <==> at < now + 1000) && (heard.accepted ==> heard.report.confirmed)
  {
  }

  /** The answer to a keep-alive is understood, and the next one follows two seconds later. */
  lemma KeepAliveIsUnderstood(m: Monitor, now: u64, at: u64)
    requires m.lastNow <= now <= at && KeepAliveDue(m, now) && !FrameOverdue(m, now) && at <= U64_MAX - 2000
    ensures var turn := Stepped(m, now).value;
            var heard := Received(turn.m, Answer(turn.action.value, 0x52, []), m.peer.ipv4, at);
            && heard.accepted && !heard.report.keepaliveReply
            && heard.m == turn.m.(lastNow := at, counts := turn.m.counts.(misses := 0),
                                  times := turn.m.times.(keepaliveNext := at + 2000))
  {
  }

  /** The answer to a hang-up is understood: a monitor told to stop is idle then, one that is
      to ask again does so under the next generation. */
  lemma HangupIsUnderstood(m: Monitor, now: u64, at: u64)
    requires m.lastNow <= now <= at && HangupDue(m) && now <= U64_MAX - 1000 && m.generation < U64_MAX
    ensures var turn := Stepped(m, now).value;
            var heard := Received(turn.m, Answer(turn.action.value, 0x82, []), m.peer.ipv4, at);
            && heard.accepted
            && if m.flags.retryAfterStop then
                 heard.report.retryReady && heard.m.state == Requesting && heard.m.generation == m.generation + 1
               else heard.report.stopped && heard.m.state == Idle && heard.m.failure == NoFailure
  {
  }

  /** Nobody else's frames are: not from another address or station, not for anyone else. */
  lemma StrangersAreIgnored(m: Monitor, f: Frame, ipv4: u32, now: u64)
    requires ipv4 != m.peer.ipv4 || f.source != m.peer.station || f.destination != m.peer.local || f.family != 3
    ensures Received(m, f, ipv4, now) == Reply(m, false, QUIET)
  {
  }

  // ---------------------------------------------------------------------------
  // What comes of it.

  /** Asks for video by the next step at `due`, in this generation, and says nothing before. */
  predicate AsksFrom(m: Monitor, due: u64, generation: u64) {
    && m.generation == generation
    && forall at: u64 :: m.lastNow <= at ==>
         && (at < due ==> Stepped(m, at).value.action.None?)
         && (at >= due ==> RequestDue(m, at))
  }

  /** The station's frame to us. */
  predicate Says(f: Frame, m: Monitor, opcode: byte, payload: seq<byte>) {
    f == Frame(m.peer.local, m.peer.station, 3, opcode, payload)
  }

  /** A final hang-up (03/02, 1) is answered, and a persistent monitor asks again four seconds
      later, as the next attempt; it gives up only when there is no next one. */
  lemma FinalHangupAsksAgain(m: Monitor, f: Frame, now: u64)
    requires Says(f, m, 0x02, [1]) && Active(m.state) && m.lastNow <= now <= U64_MAX - 4000
    requires !m.flags.peerStopSeen && m.policy.persistent && m.generation < U64_MAX && m.times.notBefore <= now + 4000
    ensures var heard := Received(m, f, m.peer.ipv4, now);
            && heard.accepted && heard.report.hangupReply && heard.report.retrying
            && AsksFrom(heard.m, now + 4000, m.generation + 1)
  {
  }

  /** A soft one (03/02, 0) makes a persistent monitor do the same, and any other ask again a
      second later, as long as it may. */
  lemma SoftHangupAsksAgain(m: Monitor, f: Frame, now: u64)
    requires Says(f, m, 0x02, [0]) && Active(m.state) && m.lastNow <= now <= U64_MAX - 4000
    requires !m.flags.peerStopSeen && !m.flags.retryWaiting && m.generation < U64_MAX && m.times.notBefore <= now + 1000
    requires m.policy.persistent || m.counts.attempts < 20
    ensures var heard := Received(m, f, m.peer.ipv4, now);
            && heard.accepted && heard.report.hangupReply && heard.report.retrying
            && if m.policy.persistent then AsksFrom(heard.m, now + 4000, m.generation + 1)
               else AsksFrom(heard.m, now + 1000, m.generation)
  {
  }

  /** Repeats of a hang-up already heard are answered or passed over, and change no plan. */
  lemma RepeatedHangupsChangeNothing(m: Monitor, f: Frame, now: u64)
    requires (Says(f, m, 0x02, [0]) || Says(f, m, 0x02, [1])) && Active(m.state) && m.lastNow <= now <= U64_MAX - 4000
    requires m.flags.peerStopSeen && (m.policy.persistent || m.flags.retryWaiting)
    ensures var heard := Received(m, f, m.peer.ipv4, now);
            heard.accepted && heard.m == m.(lastNow := now) && !heard.report.retrying
            && (heard.report.hangupReply <==> f.payload == [0])
  {
  }

  /** A hang-up that meets ours takes the place of its answer, and a soft one is answered: the
      monitor is idle, or goes on with its next attempt four seconds later. */
  lemma CrossedHangupsAreAnswered(m: Monitor, f: Frame, now: u64)
    requires (Says(f, m, 0x02, [0]) || Says(f, m, 0x02, [1])) && m.state == Stopping && m.lastNow <= now <= U64_MAX - 4000
    requires m.generation < U64_MAX && m.policy.persistent && m.times.notBefore <= now + 4000
    ensures var heard := Received(m, f, m.peer.ipv4, now);
            && heard.accepted && (heard.report.hangupReply <==> f.payload == [0])
            && if m.flags.retryAfterStop then heard.report.retryReady && AsksFrom(heard.m, now + 4000, m.generation + 1)
               else heard.report.stopped && heard.m.state == Idle && heard.m.failure == NoFailure && !heard.m.flags.mediaReady
  {
  }

  /** A station that is busy is asked on; but a persistent monitor hangs up and begins a new
      attempt at the sixth busy answer, or, before its first picture, once twelve seconds have
      passed since its first request. */
  lemma BusyAnswersCount(m: Monitor, f: Frame, now: u64)
    requires Says(f, m, 0x50, []) && m.state == Requesting && !m.flags.retryWaiting && m.lastNow <= now
    requires m.policy.grace && !m.flags.established ==> m.counts.attempts > 0
    ensures var heard := Received(m, f, m.peer.ipv4, now);
            var patient := m.policy.grace && !m.flags.established;
            var enough := m.policy.persistent &&
                          (if patient then now - m.times.firstRequest >= 12000 else m.counts.busy + 1 >= 6);
            && heard.accepted && (heard.report.retrying <==> enough)
            && (if enough then HangupDue(heard.m) && heard.m.flags.retryAfterStop && heard.m.times.nextAction == now
                else
                  && heard.m.state == Requesting && heard.m.times.nextAction == m.times.nextAction
                  && heard.m.counts.busy == m.counts.busy + if m.policy.persistent && m.counts.busy < 0xFFFF_FFFF then 1 else 0)
  {
  }

  /** Video that was promised and does not come by its time: a persistent monitor hangs up and
      asks again, any other gives up; until then it waits. */
  lemma FirstPictureIsDue(m: Monitor, now: u64)
    requires m.state == AwaitingVideo && m.times.frameDeadline != 0 && !m.flags.mediaReady && m.lastNow <= now
    ensures var next := Stepped(m, now).value.m;
            if now < m.times.frameDeadline then next == m.(lastNow := now)
            else if m.policy.persistent then HangupDue(next) && next.flags.retryAfterStop && next.generation == m.generation
            else next.state == Failed && next.failure == FirstFrameTimeout
  {
  }

  /** A hang-up that nobody answers is over after a second: a monitor told to stop is idle,
      one that is to ask again does so at once, as the next attempt. */
  lemma SilenceEndsStop(m: Monitor, now: u64, later: u64)
    requires HangupDue(m) && m.lastNow <= now <= U64_MAX - 1000 && now <= later && m.generation < U64_MAX
    requires m.times.notBefore <= now + 1000
    ensures var waiting := Stepped(m, now).value.m;
            var after := Stepped(waiting, later).value;
            && waiting.state == Stopping && after.action.None?
            && if later as int < now as int + 1000 then after.m == waiting.(lastNow := later)
               else if m.flags.retryAfterStop then AsksFrom(after.m, later, m.generation + 1)
               else after.m.state == Idle && after.m.failure == StopTimeout && !after.m.flags.mediaReady
  {
  }

  /** A monitor that is not persistent asks twenty times, once a second, and then gives up. */
  lemma RequestsRunOut(m: Monitor, now: u64)
    requires m.state == Requesting && !m.policy.persistent && m.lastNow <= now <= U64_MAX - 1000
    requires m.times.nextAction <= now && m.times.notBefore <= now
    ensures var turn := Stepped(m, now).value;
            if m.counts.attempts >= 20 then turn.action.None? && turn.m.state == Failed && turn.m.failure == Timeout
            else turn.action.Some? && turn.m.counts.attempts == m.counts.attempts + 1 && AsksFromOrFails(turn.m, now + 1000)
  {
  }

  predicate AsksFromOrFails(m: Monitor, due: u64) {
    forall at: u64 :: m.lastNow <= at ==>
      && (at < due ==> Stepped(m, at).value.action.None?)
      && (at >= due ==> if m.counts.attempts < 20 then RequestDue(m, at) else Stepped(m, at).value.m.state == Failed)
  }

  /** The first picture of an attempt is taken from the station asked, in the generation asked,
      whether or not the request has been confirmed; a persistent monitor then keeps the
      stream alive from the next step on. */
  lemma PicturesAreAdmitted(m: Monitor, source: Address, destination: Address, ipv4: u32, generation: u64, now: u64)
    requires m.lastNow <= now && m.generation != 0
    ensures var taken := Admitted(m, source, destination, ipv4, generation, now);
            && (taken.Some? <==>
                  && generation == m.generation && source == m.peer.station && destination == m.peer.local
                  && ipv4 == m.peer.ipv4 && !m.flags.peerStopSeen
                  && (|| (m.state == Requesting && !m.flags.retryWaiting)
                      || m.state == AwaitingVideo || m.state == Publishing || m.state == Viewing))
            && (taken.Some? ==>
                  && taken.value.flags.mediaReady && taken.value.flags.established == (m.flags.established || !m.flags.mediaReady)
                  && taken.value.state == (if m.state == Requesting then AwaitingVideo else m.state)
                  && (m.state == Requesting && m.policy.persistent && now > 0 ==> KeepAliveDue(taken.value, now)))
  {
  }

  /** No attempt is to follow this one. */
  predicate WantsNothing(m: Monitor) {
    !m.flags.retryAfterStop && !m.flags.retryReady && !m.flags.retryWaiting && !m.flags.peerStopSeen
  }

  /** After a stop the station is left alone for four seconds, also by the next monitor that is
      set up with what this one remembers. */
  lemma StopsCoolDown(m: Monitor, generation: u64, now: u64, heir: Monitor, next: u64, at: u64)
    requires Stopped(m, generation, now).Some? && now <= at
    requires heir.state == Idle && heir.policy.cooldownUntil == Stopped(m, generation, now).value.policy.cooldownUntil
    requires Started(heir, m.peer.local, m.peer.station, m.peer.ipv4, next, at).Some?
    ensures HangupDue(Stopped(m, generation, now).value) && WantsNothing(Stopped(m, generation, now).value)
    ensures var again := Started(heir, m.peer.local, m.peer.station, m.peer.ipv4, next, at).value;
            forall later: u64 :: at <= later ==>
              (Stepped(again, later).value.action.Some? <==> later as int >= now as int + 4000)
  {
  }
}
