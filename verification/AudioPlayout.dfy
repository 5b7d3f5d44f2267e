/** Publication of downlink audio: src/gvs_audio_playout.c.

    `Push` stores what the jitter window emits, `Tick` offers the newest pending
    samples to a publisher and commits them once the publisher succeeds. The
    publisher's answer is a parameter, so every lemma holds whatever it answers. */
module AudioPlayouts {
  import opened Words
  import opened AudioBuffers

  const MAX_CHUNK := 1600
  const RETRY_MS := 100

  /** What the jitter window hands to its callback. */
  datatype Emission = Emission(samples: seq<byte>, sequence: u16, generation: u64,
                               timestamp: u64, synthetic: bool, discontinuity: bool)

  datatype Chunk = Chunk(samples: seq<byte>, generation: u64, previousRevision: u64,
                         revision: u64, timestamp: u64, dropped: nat, discontinuity: bool)

  datatype Playout = Playout(buffer: Buffer, flags: Flags)

  datatype Flags = Flags(
    generation: u64,
    oldestPending: u64,
    nextRetry: u64,
    hasPending: bool,
    discontinuity: bool,
    concealedGap: bool,      // a synthetic emission awaits its real successor
    autoBind: bool)

  function Restarted(generation: u64): Playout {
    Playout(Cleared(generation, false), Flags(generation, 0, 0, false, false, false, false))
  }

  function Fresh(): Playout {
    Playout(Cleared(0, true), Flags(0, 0, 0, false, false, false, true))
  }

  /** 0 accepted, 1 refused as duplicate, late or foreign, -1 invalid. */
  function Push(p: Playout, e: Emission): (Playout, int) {
    if e.generation == 0 || |e.samples| == 0 || |e.samples| > CAPACITY then (p, -1)
    else if p.flags.generation == 0 && !p.flags.autoBind then (p, 1)
    else
      var q := if p.flags.generation == 0 then Restarted(e.generation) else p;
      if e.generation != q.flags.generation then (q, 1)
      else if q.buffer.generation != q.flags.generation then (q, -1)
      else
        var (b, code) := Offer(q, e);
        if code == Accepted then (Playout(b, AfterAccepting(q.flags, e)), 0)
        else (q.(buffer := b), if code == Error then -1 else 1)
  }

  /** The samples an accepted emission adds to the store. */
  function Payload(e: Emission): seq<byte> {
    if e.synthetic then Silence(|e.samples|) else e.samples
  }

  /** The store call an emission leads to. */
  function Offer(q: Playout, e: Emission): (Buffer, Code) {
    if e.synthetic then PushSilence(q.buffer, |e.samples|, e.generation)
    else Insert(q.buffer, e.samples, e.sequence, e.generation, e.timestamp,
                           q.flags.concealedGap && e.discontinuity)
  }

  function AfterAccepting(f: Flags, e: Emission): Flags {
    f.(oldestPending := if f.hasPending then f.oldestPending else e.timestamp,
       hasPending := true,
       concealedGap := e.synthetic,
       discontinuity := f.discontinuity || e.discontinuity)
  }

  /** `offered` is the chunk the publisher was called with, if it was called. */
  datatype TickResult = TickResult(playout: Playout, status: int, offered: Option<Chunk>)

  predicate Due(p: Playout, now: u64)
    requires CursorValid(p.buffer)
  {
    && p.flags.hasPending && Pending(p.buffer) > 0
    && p.buffer.totals.packets != p.buffer.snapshot.packets
    && (p.flags.nextRetry == 0 || now >= p.flags.nextRetry)
    && (Pending(p.buffer) >= 800 ||
        (now >= p.flags.oldestPending && now - p.flags.oldestPending >= 100))
  }

  function NextChunk(p: Playout, now: u64): Chunk
    requires CursorValid(p.buffer) && p.buffer.length <= |p.buffer.history|
  {
    var count := Min(Available(p.buffer), MAX_CHUNK);
    var dropped := Pending(p.buffer) - count;
    Chunk(Newest(p.buffer, count), p.flags.generation, p.buffer.snapshot.packets,
          p.buffer.totals.packets, now, dropped, p.flags.discontinuity || dropped != 0)
  }

  function Tick(p: Playout, now: u64, response: int): TickResult
    requires p.buffer.length <= |p.buffer.history| <= U64_MAX
  {
    var b := p.buffer;
    if p.flags.generation == 0 then TickResult(p, 0, None)
    else if b.generation != p.flags.generation || !CursorValid(b) ||
            b.snapshot.packets > b.totals.packets then TickResult(p, -1, None)
    else if !Due(p, now) then TickResult(p, 0, None)
    else if now > U64_MAX - RETRY_MS then TickResult(p, -1, None)
    else Publishing(p, now, response)
  }

  function Publishing(p: Playout, now: u64, response: int): TickResult
    requires p.buffer.length <= |p.buffer.history| <= U64_MAX
    requires CursorValid(p.buffer) && now <= U64_MAX - RETRY_MS
  {
    var chunk := NextChunk(p, now);
    if chunk.samples == [] then TickResult(p, -1, None)
    else if response != 0 then
      TickResult(p.(flags := p.flags.(nextRetry := now + RETRY_MS)), response, Some(chunk))
    else
      match Mark(p.buffer, p.flags.generation, |chunk.samples|, now)
      case None => TickResult(p, -1, Some(chunk))
      case Some(c) => TickResult(Committed(p, c, chunk), 0, Some(chunk))
  }

  function Committed(p: Playout, marked: Buffer, chunk: Chunk): Playout {
    Playout(marked.(snapshot := marked.snapshot.(discontinuity := chunk.discontinuity)),
            p.flags.(hasPending := false, oldestPending := 0, nextRetry := 0,
                     discontinuity := false))
  }

  // ---------------------------------------------------------------------------
  // Conservation over whole runs.

  datatype Operation =
    | Emit(emission: Emission)
    | Service(now: u64, response: int)

  /** A playout with what it has taken in and what the publisher has taken over. */
  datatype Ledger = Ledger(playout: Playout, pushed: seq<byte>, committed: seq<Chunk>)

  predicate Tickable(p: Playout) {
    p.buffer.length <= |p.buffer.history| <= U64_MAX
  }

  function Apply(l: Ledger, op: Operation): Ledger {
    match op
    case Emit(e) =>
      var (p, status) := Push(l.playout, e);
      Ledger(p, if status == 0 then l.pushed + Payload(e) else l.pushed, l.committed)
    case Service(now, response) =>
      if !Tickable(l.playout) then l
      else
        var r := Tick(l.playout, now, response);
        Ledger(r.playout, l.pushed,
               if r.offered.Some? && response == 0 then l.committed + [r.offered.value]
               else l.committed)
  }

  function Run(l: Ledger, ops: seq<Operation>): Ledger {
    if ops == [] then l else Apply(Run(l, ops[..|ops| - 1]), ops[|ops| - 1])
  }

  /** The samples the first `k` commits account for, published or dropped. */
  function Covered(committed: seq<Chunk>, k: nat): nat
    requires k <= |committed|
  {
    if k == 0 then 0
    else Covered(committed, k - 1) + |committed[k - 1].samples| + committed[k - 1].dropped
  }

  /** Commit `k` chains to its predecessor and carries the newest samples of its span. */
  ghost predicate Faithful(history: seq<byte>, committed: seq<Chunk>, k: nat)
    requires k < |committed|
  {
    var chunk := committed[k];
    var start, end := Covered(committed, k), Covered(committed, k + 1);
    && chunk.previousRevision == (if k == 0 then 0 else committed[k - 1].revision)
    && chunk.previousRevision < chunk.revision
    && end <= |history|
    && |chunk.samples| == Min(end - start, MAX_CHUNK)
    && chunk.samples == history[end - |chunk.samples|..end]
    && (chunk.dropped != 0 ==> chunk.discontinuity)
  }

  ghost predicate Conserved(l: Ledger) {
    var b := l.playout.buffer;
    && Balanced(b) && b.length == Min(|b.history|, CAPACITY)
    && b.generation == l.playout.flags.generation
    && (b.generation == 0 ==> b.history == [] && l.committed == [])
    && l.pushed == b.history
    && Covered(l.committed, |l.committed|) == b.snapshot.samples
    && b.snapshot.packets == (if l.committed == [] then 0 else l.committed[|l.committed| - 1].revision)
    && forall k :: 0 <= k < |l.committed| ==> Faithful(b.history, l.committed, k)
  }

  lemma CoveredPrefix(xs: seq<Chunk>, ys: seq<Chunk>, k: nat)
    requires k <= |xs|
    ensures Covered(xs + ys, k) == Covered(xs, k)
  {
    if k > 0 {
      CoveredPrefix(xs, ys, k - 1);
    }
  }

  lemma FaithfulLonger(history: seq<byte>, more: seq<byte>, committed: seq<Chunk>, later: seq<Chunk>, k: nat)
    requires k < |committed| && Faithful(history, committed, k)
    ensures Faithful(history + more, committed + later, k)
  {
    CoveredPrefix(committed, later, k);
    CoveredPrefix(committed, later, k + 1);
    var chunk, end := committed[k], Covered(committed, k + 1);
    hide Covered;
    SliceKept(history, more, end - |chunk.samples|, end);
  }

  lemma SliceKept(history: seq<byte>, more: seq<byte>, from: nat, to: nat)
    requires from <= to <= |history|
    ensures (history + more)[from..to] == history[from..to]
  {
  }

  lemma NothingMore(history: seq<byte>, committed: seq<Chunk>)
    ensures history + [] == history && committed + [] == committed
  {
  }

  /** Once the publisher has succeeded, the commit cannot fail. */
  lemma PublishedIsCommitted(p: Playout, now: u64)
    requires Balanced(p.buffer)
    requires Tick(p, now, 0).offered.Some?
    ensures Tick(p, now, 0).status == 0
    ensures Tick(p, now, 0).playout.buffer.snapshot.samples == |p.buffer.history|
    ensures Tick(p, now, 0).playout.buffer.snapshot.packets == p.buffer.totals.packets
  {
  }

  /** What an accepted emission does to the books. */
  lemma AcceptanceAppends(p: Playout, e: Emission)
    requires Balanced(p.buffer) && p.buffer.generation == p.flags.generation
    requires Push(p, e).1 == 0
    ensures var q := if p.flags.generation == 0 then Restarted(e.generation) else p;
            var r := Push(p, e).0;
            && Balanced(r.buffer)
            && r.buffer.generation == r.flags.generation == q.flags.generation != 0
            && r.buffer.history == q.buffer.history + Payload(e)
            && r.buffer.length == Min(q.buffer.length + |Payload(e)|, CAPACITY)
            && r.buffer.snapshot == q.buffer.snapshot
  {
    var q := if p.flags.generation == 0 then Restarted(e.generation) else p;
    assert Bind(q.buffer, e.generation) == Some(q.buffer);
    if !e.synthetic {
      PushKeepsAccounts(q.buffer, e.samples, e.sequence, e.generation, e.timestamp,
                        q.flags.concealedGap && e.discontinuity);
    }
  }

  lemma {:induction false} EmitConserves(l: Ledger, e: Emission)
    requires Conserved(l)
    ensures Conserved(Apply(l, Emit(e)))
  {
    var p := l.playout;
    hide Push, Balanced;
    if Push(p, e).1 == 0 {
      AcceptanceAppends(p, e);
      var b := Push(p, e).0.buffer;
      forall k | 0 <= k < |l.committed| ensures Faithful(b.history, l.committed, k) {
        FaithfulLonger(p.buffer.history, Payload(e), l.committed, [], k);
        NothingMore(p.buffer.history, l.committed);
      }
    } else {
      RefusalKeepsBooks(p, e);
    }
  }

  /** A refused emission changes at most a refusal counter, or clears an unbound store. */
  lemma RefusalKeepsBooks(p: Playout, e: Emission)
    requires Balanced(p.buffer) && p.buffer.generation == p.flags.generation
    requires Push(p, e).1 != 0
    ensures var q := Push(p, e).0;
            && q.buffer.generation == q.flags.generation && Balanced(q.buffer)
            && (if p.flags.generation == 0 && q != p then
                  q.buffer.history == [] && q.buffer.length == 0 && q.buffer.snapshot == NO_SNAPSHOT
                else
                  && q.buffer.history == p.buffer.history && q.buffer.length == p.buffer.length
                  && q.buffer.snapshot == p.buffer.snapshot
                  && q.buffer.generation == p.buffer.generation)
  {
    var q := if p.flags.generation == 0 then Restarted(e.generation) else p;
    if e.generation != 0 && 0 < |e.samples| <= CAPACITY && e.generation == q.flags.generation {
      assert Bind(q.buffer, e.generation) == Some(q.buffer);
      if !e.synthetic {
        PushKeepsAccounts(q.buffer, e.samples, e.sequence, e.generation, e.timestamp,
                          q.flags.concealedGap && e.discontinuity);
      }
    }
  }

  /** What a tick with a succeeding publisher does to the books. */
  lemma CommitTakesOver(p: Playout, now: u64)
    requires Tickable(p) && Balanced(p.buffer) && p.buffer.length == Min(|p.buffer.history|, CAPACITY)
    requires Tick(p, now, 0).offered.Some?
    ensures var chunk, q := Tick(p, now, 0).offered.value, Tick(p, now, 0).playout;
            && q.buffer == p.buffer.(snapshot := q.buffer.snapshot)
            && q.flags.generation == p.flags.generation != 0
            && q.buffer.snapshot.packets == chunk.revision == p.buffer.totals.packets
            && chunk.previousRevision == p.buffer.snapshot.packets < chunk.revision
            && q.buffer.snapshot.samples == |p.buffer.history|
            && q.buffer.snapshot.bytes == p.buffer.totals.bytes
            && |chunk.samples| == Min(Pending(p.buffer), MAX_CHUNK)
            && |chunk.samples| + chunk.dropped == Pending(p.buffer)
            && chunk.samples == p.buffer.history[|p.buffer.history| - |chunk.samples|..]
            && (chunk.dropped != 0 ==> chunk.discontinuity) && q.buffer.snapshot.discontinuity == chunk.discontinuity
            && !q.flags.hasPending && !q.flags.discontinuity && q.flags.nextRetry == 0
  {
  }

  lemma {:induction false} ServiceConserves(l: Ledger, now: u64, response: int)
    requires Conserved(l)
    ensures Conserved(Apply(l, Service(now, response)))
  {
    var p := l.playout;
    if Tick(p, now, response).offered.Some? && response == 0 {
      CommitTakesOver(p, now);
      CommitConserves(l, Tick(p, now, 0).playout, Tick(p, now, 0).offered.value);
    }
  }

  lemma {:induction false} CommitConserves(l: Ledger, q: Playout, chunk: Chunk)
    requires Conserved(l)
    requires var b := l.playout.buffer;
             && q.buffer == b.(snapshot := q.buffer.snapshot)
             && q.flags.generation == l.playout.flags.generation != 0
             && q.buffer.snapshot.packets == chunk.revision == b.totals.packets
             && chunk.previousRevision == b.snapshot.packets < chunk.revision
             && q.buffer.snapshot.samples == |b.history|
             && q.buffer.snapshot.bytes == b.totals.bytes
             && |chunk.samples| == Min(Pending(b), MAX_CHUNK)
             && |chunk.samples| + chunk.dropped == Pending(b)
             && chunk.samples == b.history[|b.history| - |chunk.samples|..]
             && (chunk.dropped != 0 ==> chunk.discontinuity)
    ensures Conserved(Ledger(q, l.pushed, l.committed + [chunk]))
  {
    var b, n, after := l.playout.buffer, |l.committed|, l.committed + [chunk];
    LastChunkFaithful(b.history, l.committed, chunk);
    hide Faithful, Covered, Balanced;
    forall k | 0 <= k < n + 1 ensures Faithful(b.history, after, k) {
      if k < n {
        FaithfulLonger(b.history, [], l.committed, [chunk], k);
        NothingMore(b.history, l.committed);
      }
    }
  }

  lemma LastChunkFaithful(history: seq<byte>, committed: seq<Chunk>, chunk: Chunk)
    requires Covered(committed, |committed|) + |chunk.samples| + chunk.dropped == |history|
    requires |chunk.samples| == Min(|chunk.samples| + chunk.dropped, MAX_CHUNK)
    requires chunk.samples == history[|history| - |chunk.samples|..]
    requires chunk.previousRevision == if committed == [] then 0 else committed[|committed| - 1].revision
    requires chunk.previousRevision < chunk.revision && (chunk.dropped != 0 ==> chunk.discontinuity)
    ensures Faithful(history, committed + [chunk], |committed|)
    ensures Covered(committed + [chunk], |committed| + 1) == |history|
  {
    hide Covered;
    CoveredPrefix(committed, [chunk], |committed|);
    CoveredLast(committed, chunk);
    WholeTail(history, |chunk.samples|);
  }

  lemma CoveredLast(committed: seq<Chunk>, chunk: Chunk)
    ensures var after, n := committed + [chunk], |committed|;
            Covered(after, n + 1) == Covered(after, n) + |chunk.samples| + chunk.dropped
  {
    assert (committed + [chunk])[|committed|] == chunk;
  }

  lemma WholeTail(history: seq<byte>, n: nat)
    requires n <= |history|
    ensures history[|history| - n..|history|] == history[|history| - n..]
  {
  }

  /** Whatever is emitted and however the publisher answers: nothing that was pushed is
      lost track of, revisions chain upward, and every chunk is the newest of its span. */
  lemma {:induction false} EveryRunConserves(generation: u64, ops: seq<Operation>)
    ensures Conserved(Run(Ledger(Fresh(), [], []), ops))
    ensures Conserved(Run(Ledger(Restarted(generation), [], []), ops))
  {
    hide Conserved, Apply, Fresh, Restarted;
    if ops == [] {
      NothingPushed(generation);
    } else {
      var before, op := ops[..|ops| - 1], ops[|ops| - 1];
      EveryRunConserves(generation, before);
      ApplyConserves(Run(Ledger(Fresh(), [], []), before), op);
      ApplyConserves(Run(Ledger(Restarted(generation), [], []), before), op);
    }
  }

  lemma NothingPushed(generation: u64)
    ensures Conserved(Ledger(Fresh(), [], [])) && Conserved(Ledger(Restarted(generation), [], []))
  {
    hide Conserved;
    ClearedConserves(Fresh(), true);
    ClearedConserves(Restarted(generation), false);
  }

  lemma ClearedConserves(p: Playout, autoBind: bool)
    requires p.buffer == Cleared(p.flags.generation, autoBind)
    ensures Conserved(Ledger(p, [], []))
  {
    hide Faithful;
    var b := p.buffer;
    assert Balanced(b);
    hide Balanced;
  }

  lemma ApplyConserves(l: Ledger, op: Operation)
    requires Conserved(l)
    ensures Conserved(Apply(l, op))
  {
    hide Conserved, Apply;
    match op
    case Emit(e) => EmitConserves(l, e);
    case Service(now, response) => ServiceConserves(l, now, response);
  }

  /** The account in one line: published, dropped and still pending samples add up to
      exactly what was pushed. */
  lemma PublishedDroppedPending(l: Ledger)
    requires Conserved(l)
    ensures Covered(l.committed, |l.committed|) + Pending(l.playout.buffer) == |l.pushed|
  {
  }

  // ---------------------------------------------------------------------------
  // The component itself, over the real ring.

  class AudioPlayout {
    const buffer: AudioBuffer
    var flags: Flags

    ghost predicate Valid()
      reads this, buffer, buffer.data
    {
      buffer.Valid() && buffer.sampleCount <= U64_MAX
    }

    ghost function Value(): Playout
      reads this, buffer
    {
      Playout(buffer.Value(), flags)
    }

    /** `df_gvs_audio_playout_init` over a newly initialized buffer. */
    constructor ()
      ensures Valid() && fresh(buffer) && fresh(buffer.data) && Value() == Fresh()
    {
      buffer := new AudioBuffer();
      flags := Flags(0, 0, 0, false, false, false, true);
    }

    method Reset(generation: u64)
      requires Valid()
      modifies this, buffer
      ensures Valid() && Value() == Restarted(generation)
    {
      flags := Flags(generation, 0, 0, false, false, false, false);
      buffer.Reset(generation);
    }

    method PushEmission(e: Emission) returns (status: int)
      requires Valid()
      modifies this, buffer, buffer.data
      ensures Valid() && (Value(), status) == Push(old(Value()), e)
    {
      if e.generation == 0 || |e.samples| == 0 || |e.samples| > CAPACITY {
        return -1;
      }
      if flags.generation == 0 {
        if !flags.autoBind {
          return 1;
        }
        Reset(e.generation);
      }
      if e.generation != flags.generation {
        return 1;
      }
      if buffer.binding.generation != flags.generation {
        return -1;
      }
      var code := OfferToBuffer(e);
      if code != Accepted {
        return if code == Error then -1 else 1;
      }
      flags := AfterAccepting(flags, e);
      return 0;
    }

    method OfferToBuffer(e: Emission) returns (code: Code)
      requires Valid()
      modifies buffer, buffer.data
      ensures Valid() && (buffer.Value(), code) == Offer(old(Value()), e)
    {
      if e.synthetic {
        code := buffer.PushGapSilence(|e.samples|, e.generation);
      } else {
        code := buffer.PushInternal(e.samples, e.sequence, e.generation, e.timestamp,
                                    flags.concealedGap && e.discontinuity);
      }
    }

    /** `response` is what the publisher would answer; `offered` is what it was shown. */
    method Service(now: u64, response: int) returns (status: int, offered: Option<Chunk>)
      requires Valid()
      modifies this, buffer
      ensures Valid() && TickResult(Value(), status, offered) == Tick(old(Value()), now, response)
    {
      if flags.generation == 0 {
        return 0, None;
      }
      if buffer.binding.generation != flags.generation ||
         buffer.snapshot.bytes > buffer.totals.bytes ||
         buffer.snapshot.samples > buffer.sampleCount ||
         buffer.snapshot.packets > buffer.totals.packets {
        return -1, None;
      }
      var pending := buffer.sampleCount - buffer.snapshot.samples;
      if !flags.hasPending || pending == 0 ||
         buffer.totals.packets == buffer.snapshot.packets {
        return 0, None;
      }
      if flags.nextRetry != 0 && now < flags.nextRetry {
        return 0, None;
      }
      if pending < 800 && !(now >= flags.oldestPending && now - flags.oldestPending >= 100) {
        return 0, None;
      }
      if now > U64_MAX - RETRY_MS {
        return -1, None;
      }
      status, offered := Publish(now, response);
    }

    /** The tail of `df_gvs_audio_playout_tick`, once a publication is due. */
    method Publish(now: u64, response: int) returns (status: int, offered: Option<Chunk>)
      requires Valid() && CursorValid(buffer.Value()) && now <= U64_MAX - RETRY_MS
      modifies this, buffer
      ensures Valid()
      ensures TickResult(Value(), status, offered) == Publishing(old(Value()), now, response)
    {
      var samples := new byte[MAX_CHUNK];
      var ok, count := buffer.CopyPending(samples, true);
      if !ok || count == 0 {
        return -1, None;
      }
      var dropped := buffer.sampleCount - buffer.snapshot.samples - count;
      var chunk := Chunk(samples[..count], flags.generation, buffer.snapshot.packets,
                         buffer.totals.packets, now, dropped, flags.discontinuity || dropped != 0);
      assert Newest(buffer.Value(), count)[..count] == Newest(buffer.Value(), count);
      assert chunk == NextChunk(old(Value()), now);
      if response != 0 {
        flags := flags.(nextRetry := now + RETRY_MS);
        return response, Some(chunk);
      }
      var marked := buffer.MarkSnapshot(flags.generation, count, now);
      if !marked {
        return -1, Some(chunk);
      }
      buffer.snapshot := buffer.snapshot.(discontinuity := chunk.discontinuity);
      flags := flags.(hasPending := false, oldestPending := 0, nextRetry := 0,
                      discontinuity := false);
      return 0, Some(chunk);
    }
  }
}
