/** When downlink audio is offered to the publisher: on every run exactly when enough of it
    waits, or it has waited long enough, and the last refusal lies far enough back. */
module AudioServices {
  import opened Words
  import opened AudioBuffers
  import opened AudioPlayouts

  /** What has happened since the publisher last took a chunk: when the first emission came,
      whether a real packet was among them, or a break in the stream, and when the publisher
      last refused. */
  datatype Watch = Watch(first: Option<u64>, voiced: bool, broken: bool, refused: Option<u64>)

  const NOTHING := Watch(None, false, false, None)

  function Watched(w: Watch, l: Ledger, op: AudioPlayouts.Operation): Watch {
    match op
    case Emit(e) =>
      if Push(l.playout, e).1 != 0 then w
      else Watch(if w.first.Some? then w.first else Some(e.timestamp), w.voiced || !e.synthetic,
                 w.broken || e.discontinuity, w.refused)
    case Service(now, response) =>
      if !Tickable(l.playout) || Tick(l.playout, now, response).offered.None? then w
      else if response == 0 then NOTHING
      else w.(refused := Some(now))
  }

  function WatchOf(l: Ledger, ops: seq<AudioPlayouts.Operation>): Watch {
    if ops == [] then NOTHING
    else
      var before := ops[..|ops| - 1];
      Watched(WatchOf(l, before), AudioPlayouts.Run(l, before), ops[|ops| - 1])
  }

  /** The playout's own fields say the same. */
  ghost predicate Agrees(p: Playout, w: Watch) {
    && (p.flags.generation == 0 ==> w == NOTHING)
    && (p.flags.hasPending <==> w.first.Some?) && p.flags.discontinuity == w.broken
    && (w.first.Some? ==> p.flags.oldestPending == w.first.value)
    && (p.flags.nextRetry == 0 <==> w.refused.None?)
    && (w.refused.Some? ==> p.flags.nextRetry as int == w.refused.value as int + 100)
    && (p.buffer.totals.packets != p.buffer.snapshot.packets <==> w.voiced)
    && (w.voiced ==> w.first.Some? && p.buffer.snapshot.samples < |p.buffer.history|)
  }

  lemma EmitAgrees(l: Ledger, e: Emission, w: Watch)
    requires Conserved(l) && Agrees(l.playout, w)
    ensures Agrees(Push(l.playout, e).0, Watched(w, l, Emit(e)))
  {
    hide Faithful, Covered;
  }

  lemma ServiceAgrees(l: Ledger, now: u64, response: int, w: Watch)
    requires Conserved(l) && Agrees(l.playout, w)
    ensures Agrees(AudioPlayouts.Apply(l, Service(now, response)).playout, Watched(w, l, Service(now, response)))
  {
    hide Faithful, Covered;
  }

  lemma {:induction false} RunAgrees(l: Ledger, ops: seq<AudioPlayouts.Operation>)
    requires Conserved(l) && Agrees(l.playout, NOTHING)
    ensures Conserved(AudioPlayouts.Run(l, ops)) && Agrees(AudioPlayouts.Run(l, ops).playout, WatchOf(l, ops))
  {
    hide Conserved, Agrees, Push, Tick;
    if ops != [] {
      var before, op := ops[..|ops| - 1], ops[|ops| - 1];
      RunAgrees(l, before);
      ApplyConserves(AudioPlayouts.Run(l, before), op);
      match op
      case Emit(e) => EmitAgrees(AudioPlayouts.Run(l, before), e, WatchOf(l, before));
      case Service(now, response) => ServiceAgrees(AudioPlayouts.Run(l, before), now, response, WatchOf(l, before));
    }
  }

  /** The samples that no chunk has taken or given up. */
  function Unheard(l: Ledger): int {
    |l.pushed| - Covered(l.committed, |l.committed|)
  }

  /** The publisher is called exactly when a real packet waits, 800 samples wait or the first
      of them has waited for 100 ms, and no refusal lies less than 100 ms back; and it is
      called with the newest of what waits, the rest being given up, and is told whether there
      was a break. */
  lemma OfferedWhenDue(l: Ledger, w: Watch, now: u64, response: int)
    requires Conserved(l) && Agrees(l.playout, w) && now <= U64_MAX - 100
    ensures var r := Tick(l.playout, now, response);
            && (r.offered.Some? <==>
                  && w.voiced && (w.refused.Some? ==> now as int >= w.refused.value as int + 100)
                  && (Unheard(l) >= 800 || now as int >= w.first.value as int + 100))
            && (r.offered.Some? ==>
                  var chunk := r.offered.value;
                  && |chunk.samples| == Min(Unheard(l), 1600) && chunk.dropped == Unheard(l) - |chunk.samples|
                  && chunk.samples == l.pushed[|l.pushed| - |chunk.samples|..]
                  && (chunk.discontinuity <==> w.broken || chunk.dropped > 0)
                  && chunk.timestamp == now && r.status == response)
            && (r.offered.None? ==> r.status == 0 && r.playout == l.playout)
  {
    hide Faithful, Covered;
  }

  /** So on every run, from either beginning. */
  lemma ChunksAreOffered(ops: seq<AudioPlayouts.Operation>, start: Playout, now: u64, response: int)
    requires start == Fresh() || exists generation :: start == Restarted(generation)
    requires now <= U64_MAX - 100
    ensures var l, w := AudioPlayouts.Run(Ledger(start, [], []), ops), WatchOf(Ledger(start, [], []), ops);
            && Tickable(l.playout)
            && (Tick(l.playout, now, response).offered.Some? <==>
                  && w.voiced && w.first.Some? && (w.refused.Some? ==> now as int >= w.refused.value as int + 100)
                  && (Unheard(l) >= 800 || now as int >= w.first.value as int + 100))
  {
    hide Conserved, Tick, AudioPlayouts.Run, WatchOf;
    var l := Ledger(start, [], []);
    StartAgrees(start);
    RunAgrees(l, ops);
    Bounded(AudioPlayouts.Run(l, ops));
    OfferedWhenDue(AudioPlayouts.Run(l, ops), WatchOf(l, ops), now, response);
  }

  lemma StartAgrees(start: Playout)
    requires start == Fresh() || exists generation :: start == Restarted(generation)
    ensures Conserved(Ledger(start, [], [])) && Agrees(start, NOTHING)
  {
    hide Conserved;
    if generation :| start == Restarted(generation) {
      NothingPushed(generation);
    } else {
      NothingPushed(0);
    }
  }

  lemma Bounded(l: Ledger)
    requires Conserved(l)
    ensures Tickable(l.playout)
  {
  }
}
