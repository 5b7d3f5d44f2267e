/** The downlink audio store of src/gvs_audio_buffer.c: a 65536-byte ring that drops
    its oldest sample when full, with a snapshot cursor for the publisher.

    `Buffer` is the reference: it keeps every sample ever appended as one sequence.
    `AudioBuffer` is the ring itself; each of its methods is proved to do to the
    reference what the corresponding function below does. */
module AudioBuffers {
  import opened Words

  const CAPACITY := 65536
  const SILENCE: byte := 0xd5
  const HALF_RANGE := 32767

  datatype Code = Accepted | Duplicate | Late | Stale | Error

  /** Counters of the real packets and the concealed samples. */
  datatype Totals = Totals(packets: u64, bytes: u64, concealed: u64, gaps: u64, missing: u64,
                           duplicates: u64, late: u64, lastTimestamp: u64)

  /** What the last committed publication covered. */
  datatype Snapshot = Snapshot(packets: u64, previousPackets: u64, bytes: u64, samples: u64,
                               dropped: u64, timestamp: u64, fileBytes: nat, ready: bool,
                               discontinuity: bool)

  const NO_TOTALS := Totals(0, 0, 0, 0, 0, 0, 0, 0)
  const NO_SNAPSHOT := Snapshot(0, 0, 0, 0, 0, 0, 0, false, false)

  datatype Buffer = Buffer(
    history: seq<byte>,      // every sample appended since the last reset
    length: nat,             // how many of the newest are still buffered
    generation: u64,
    totals: Totals,
    snapshot: Snapshot,
    firstSequence: u16,      // bookkeeping for the sequence account
    lastSequence: u16,
    hasSequence: bool,
    autoBind: bool)

  function Cleared(generation: u64, autoBind: bool): Buffer {
    Buffer([], 0, generation, NO_TOTALS, NO_SNAPSHOT, 0, 0, false, autoBind)
  }

  function Append(b: Buffer, samples: seq<byte>): Buffer {
    b.(history := b.history + samples,
       length := Min(b.length + |samples|, CAPACITY))
  }

  /** The generation check both pushes start with; `None` is a stale generation. */
  function Bind(b: Buffer, generation: u64): Option<Buffer> {
    if (b.generation == 0 && !b.autoBind) || generation < b.generation then None
    else if generation != b.generation then Some(Cleared(generation, false))
    else Some(b)
  }

  /** The 64-bit counters have room for one more packet at this distance. */
  predicate Fits(b: Buffer, count: nat, distance: u16) {
    && b.totals.packets < U64_MAX
    && b.totals.bytes + count <= U64_MAX
    && |b.history| + count <= U64_MAX
    && (distance > 1 ==> b.totals.gaps < U64_MAX && b.totals.missing + distance - 1 <= U64_MAX)

  }

  function DistanceTo(b: Buffer, sequence: u16): u16 {
    if b.hasSequence then Distance(sequence, b.lastSequence) else 1
  }

  /** The half-range rule, with the one exception granted behind the jitter window. */
  predicate IsLate(distance: u16, afterJitter: bool) {
    distance > HALF_RANGE && !(afterJitter && distance == HALF_RANGE + 1)
  }

  function Insert(b: Buffer, samples: seq<byte>, sequence: u16, generation: u64,
                timestamp: u64, afterJitter: bool): (Buffer, Code)
  {
    if |samples| == 0 || generation == 0 || |samples| > CAPACITY then (b, Error)
    else
      match Bind(b, generation)
      case None => (b, Stale)
      case Some(c) =>
        var distance := DistanceTo(c, sequence);
        if distance == 0 then
          if c.totals.duplicates == U64_MAX then (c, Error)
          else (c.(totals := c.totals.(duplicates := c.totals.duplicates + 1)), Duplicate)
        else if IsLate(distance, afterJitter) then
          if c.totals.late == U64_MAX then (c, Error)
          else (c.(totals := c.totals.(late := c.totals.late + 1)), Late)
        else if !Fits(c, |samples|, distance) then (c, Error)
        else (Stored(c, samples, sequence, timestamp, distance), Accepted)
  }

  function Stored(c: Buffer, samples: seq<byte>, sequence: u16, timestamp: u64,
                  distance: u16): Buffer
    requires distance > 0 && Fits(c, |samples|, distance)
  {
    var t := c.totals;
    Append(c, samples).(
      totals := t.(
        gaps := if distance > 1 then t.gaps + 1 else t.gaps,
        missing := t.missing + (distance - 1),
        packets := t.packets + 1,
        bytes := t.bytes + |samples|,
        lastTimestamp := timestamp),
      firstSequence := if c.hasSequence then c.firstSequence else sequence,
      lastSequence := sequence,
      hasSequence := true)
  }

  function Silence(count: nat): (s: seq<byte>)
    ensures |s| == count && forall i :: 0 <= i < count ==> s[i] == SILENCE
  {
    seq(count, _ => SILENCE)
  }

  function PushSilence(b: Buffer, count: nat, generation: u64): (Buffer, Code) {
    if count == 0 || count > CAPACITY || generation == 0 then (b, Error)
    else
      match Bind(b, generation)
      case None => (b, Stale)
      case Some(c) =>
        if |c.history| + count > U64_MAX || c.totals.concealed + count > U64_MAX then (c, Error)
        else (Append(c, Silence(count)).(
                totals := c.totals.(concealed := c.totals.concealed + count)), Accepted)
  }

  /** The newest `n` samples of the history. */
  function Newest(b: Buffer, n: nat): seq<byte>
    requires n <= |b.history|
  {
    b.history[|b.history| - n..]
  }

  /** The oldest `count` of the newest `n` samples. */
  function Oldest(b: Buffer, n: nat, count: nat): seq<byte>
    requires count <= n <= |b.history|
  {
    Newest(b, n)[..count]
  }

  predicate CursorValid(b: Buffer) {
    b.snapshot.bytes <= b.totals.bytes && b.snapshot.samples <= |b.history|
  }

  function Pending(b: Buffer): nat
    requires CursorValid(b)
  {
    |b.history| - b.snapshot.samples
  }

  function Available(b: Buffer): nat
    requires CursorValid(b)
  {
    Min(Pending(b), b.length)
  }

  function Mark(b: Buffer, generation: u64, samples: nat, timestamp: u64): Option<Buffer> {
    if generation == 0 || generation != b.generation || samples == 0 ||
       samples > CAPACITY || !CursorValid(b) || samples > Available(b)
       || !(|b.history| <= U64_MAX) then None
    else
      Some(b.(snapshot := Snapshot(b.totals.packets, b.snapshot.packets, b.totals.bytes,
                                   |b.history|, Pending(b) - samples, timestamp,
                                   44 + samples * 2, true, b.snapshot.discontinuity)))
  }

  // ---------------------------------------------------------------------------
  // The accounts every operation keeps.

  /** Sample, cursor and sequence accounts of one generation. */
  ghost predicate Balanced(b: Buffer) {
    && b.length <= CAPACITY && b.length <= |b.history| <= U64_MAX
    && |b.history| == b.totals.bytes + b.totals.concealed
    && CursorValid(b)
    && b.snapshot.packets <= b.totals.packets
    && (b.hasSequence <==> b.totals.packets > 0)
    && (!b.hasSequence ==> b.totals.missing == 0)
    && (b.hasSequence ==>
         Distance(b.lastSequence, b.firstSequence) == (b.totals.packets - 1 + b.totals.missing) % U16_SIZE)
  }

  datatype Operation =
    | PushPacket(samples: seq<byte>, sequence: u16, generation: u64, timestamp: u64, afterJitter: bool)
    | PushGap(count: nat, generation: u64)
    | ReadOut(capacity: nat)
    | MarkSnapshot(generation: u64, count: nat, timestamp: u64)
    | ResetTo(generation: u64)

  function Consume(b: Buffer, count: nat): Buffer
    requires count <= b.length
  {
    b.(length := b.length - count)
  }

  function Apply(b: Buffer, op: Operation): Buffer {
    match op
    case PushPacket(samples, sequence, generation, timestamp, afterJitter) =>
      Insert(b, samples, sequence, generation, timestamp, afterJitter).0
    case PushGap(count, generation) => PushSilence(b, count, generation).0
    case ReadOut(capacity) => Consume(b, Min(b.length, capacity))
    case MarkSnapshot(generation, count, timestamp) =>
      (match Mark(b, generation, count, timestamp) case None => b case Some(c) => c)
    case ResetTo(generation) => Cleared(generation, false)
  }

  function Run(b: Buffer, ops: seq<Operation>): Buffer {
    if ops == [] then b else Apply(Run(b, ops[..|ops| - 1]), ops[|ops| - 1])
  }

  /** Storing a packet `distance` ahead moves both sides of the sequence account alike. */
  lemma AccountAdvances(first: u16, last: u16, next: u16, before: nat)
    requires Distance(last, first) == before % U16_SIZE
    ensures Distance(next, first) == (before + Distance(next, last)) % U16_SIZE
  {
    assert (last - first) % U16_SIZE == before % U16_SIZE;
    var d := Distance(next, last);
    assert (next - last - d) % U16_SIZE == 0;
  }

  lemma StoredKeepsAccounts(b: Buffer, samples: seq<byte>, sequence: u16, timestamp: u64)
    requires Balanced(b)
    requires DistanceTo(b, sequence) > 0 && Fits(b, |samples|, DistanceTo(b, sequence))
    ensures Balanced(Stored(b, samples, sequence, timestamp, DistanceTo(b, sequence)))
  {
    if b.hasSequence {
      AccountAdvances(b.firstSequence, b.lastSequence, sequence, b.totals.packets - 1 + b.totals.missing);
    }
  }

  lemma PushKeepsAccounts(b: Buffer, samples: seq<byte>, sequence: u16, generation: u64,
                          timestamp: u64, afterJitter: bool)
    requires Balanced(b)
    ensures Balanced(Insert(b, samples, sequence, generation, timestamp, afterJitter).0)
  {
    if Bind(b, generation).Some? {
      var c := Bind(b, generation).value;
      if DistanceTo(c, sequence) > 0 && Fits(c, |samples|, DistanceTo(c, sequence)) {
        StoredKeepsAccounts(c, samples, sequence, timestamp);
      }
    }
  }

  lemma ApplyKeepsAccounts(b: Buffer, op: Operation)
    requires Balanced(b)
    ensures Balanced(Apply(b, op))
  {
    if op.PushPacket? {
      PushKeepsAccounts(b, op.samples, op.sequence, op.generation, op.timestamp, op.afterJitter);
    }
  }

  /** Whatever is pushed, read, marked or reset, in whatever order, the sample count
      stays real plus concealed samples, and the span of sequence numbers stays the
      packets stored plus the packets missed. */
  lemma {:induction false} AccountsBalanceOnEveryRun(autoBind: bool, ops: seq<Operation>)
    ensures Balanced(Run(Cleared(0, autoBind), ops))
  {
    if ops != [] {
      AccountsBalanceOnEveryRun(autoBind, ops[..|ops| - 1]);
      ApplyKeepsAccounts(Run(Cleared(0, autoBind), ops[..|ops| - 1]), ops[|ops| - 1]);
    }
  }

  /** Where the number of a packet lies from the last one stored: the same, ahead by less than
      half the circle, or behind. */
  predicate IsAhead(b: Buffer, sequence: u16) {
    b.hasSequence ==> 0 < (sequence - b.lastSequence) % 0x1_0000 <= 0x7fff
  }

  /** How a packet is judged, as long as no counter is full: it is stored exactly when it is
      of this generation or a newer one and lies ahead, or, behind the window and its announced
      silence, at exactly half the circle; a repeat of the last one and one from behind are
      counted and change nothing that is heard. */
  lemma PacketsAreJudged(b: Buffer, samples: seq<byte>, sequence: u16, generation: u64, timestamp: u64,
                         afterJitter: bool)
    requires 0 < |samples| <= CAPACITY && generation != 0 && Balanced(b)
    requires b.totals.duplicates < U64_MAX && b.totals.late < U64_MAX
    requires b.totals.bytes + |samples| <= U64_MAX && |b.history| + |samples| <= U64_MAX
    requires b.totals.packets < U64_MAX && b.totals.gaps < U64_MAX && b.totals.missing + U16_SIZE <= U64_MAX
    ensures var (after, code) := Insert(b, samples, sequence, generation, timestamp, afterJitter);
            var stale := generation < b.generation || (b.generation == 0 && !b.autoBind);
            var newer := !stale && generation != b.generation;
            var half := b.hasSequence && (sequence - b.lastSequence) % 0x1_0000 == 0x8000;
            && (code == Stale <==> stale)
            && (code == Duplicate <==> !stale && !newer && b.hasSequence && sequence == b.lastSequence)
            && (code == Accepted <==> !stale && (newer || IsAhead(b, sequence) || (afterJitter && half)))
            && (code == Late <==> !stale && !newer && b.hasSequence && sequence != b.lastSequence && !IsAhead(b, sequence)
                                  && !(afterJitter && half))
            && (code == Accepted ==>
                  && after.history == (if newer then samples else b.history + samples)
                  && after.generation == generation && after.lastSequence == sequence && after.hasSequence)
            && (code != Accepted ==> after.history == b.history && after.lastSequence == b.lastSequence)
  {
    DistanceIsTruncation(sequence, b.lastSequence);
    if b.hasSequence && sequence != b.lastSequence {
      assert (sequence - b.lastSequence) % U16_SIZE != 0;
    }
    assert [] + samples == samples;
  }

  /** After a reset nothing is left, and under no generation nothing is taken; under one, the
      first packet of it or of a newer one. */
  lemma ResetsStartOver(b: Buffer, reset: u64, samples: seq<byte>, sequence: u16, generation: u64, timestamp: u64,
                        afterJitter: bool)
    requires 0 < |samples| <= CAPACITY && generation != 0 && Balanced(Apply(b, ResetTo(reset)))
    ensures var c := Apply(b, ResetTo(reset));
            var code := Insert(c, samples, sequence, generation, timestamp, afterJitter).1;
            && c.history == [] && c.length == 0
            && code == if reset == 0 || generation < reset then Stale else Accepted
  {
  }

  // ---------------------------------------------------------------------------
  // The ring.

  /** An offset advanced by less than one lap, brought back into the ring. */
  function Wrap(i: nat): nat
    requires i < 2 * CAPACITY
  {
    if i < CAPACITY then i else i - CAPACITY
  }

  /** It is the remainder the C code takes. */
  lemma WrapIsRemainder(i: nat)
    requires i < 2 * CAPACITY
    ensures Wrap(i) == i % CAPACITY
  {
    if i >= CAPACITY {
      assert i / CAPACITY == 1;
    }
  }

  /** The buffered samples, oldest first. */
  ghost function Contents(ring: seq<byte>, read: nat, length: nat): (c: seq<byte>)
    requires |ring| == CAPACITY && read < CAPACITY && length <= CAPACITY
    ensures |c| == length
    ensures forall k :: 0 <= k < length ==> c[k] == ring[Wrap(read + k)]
  {
    if read + length <= CAPACITY then ring[read..read + length]
    else ring[read..] + ring[..read + length - CAPACITY]
  }

  datatype Offsets = Offsets(read: nat, write: nat, length: nat)

  /** The ring holds the newest `length` samples of `h`, from `read` up to `write`. */
  ghost predicate Holds(ring: seq<byte>, h: seq<byte>, o: Offsets) {
    && |ring| == CAPACITY && o.length <= |h| && o.length <= CAPACITY
    && o.read < CAPACITY && o.write == Wrap(o.read + o.length)
    && Contents(ring, o.read, o.length) == h[|h| - o.length..]
  }

  /** Dropping the `n` oldest samples moves the read offset past them. */
  lemma DroppingOldest(ring: seq<byte>, read: nat, length: nat, n: nat)
    requires |ring| == CAPACITY && read < CAPACITY && n <= length <= CAPACITY
    ensures Wrap(read + n) < CAPACITY
    ensures Contents(ring, Wrap(read + n), length - n) == Contents(ring, read, length)[n..]
  {
  }

  lemma WritingNewest(ring: seq<byte>, read: nat, length: nat, sample: byte)
    requires |ring| == CAPACITY && read < CAPACITY && length < CAPACITY
    ensures Contents(ring[Wrap(read + length) := sample], read, length + 1)
         == Contents(ring, read, length) + [sample]
  {
  }

  /** The offsets after one more sample; a full ring gives up its oldest. */
  function Advanced(o: Offsets): Offsets
    requires o.read < CAPACITY && o.write < CAPACITY
  {
    if o.length == CAPACITY then Offsets(Wrap(o.read + 1), Wrap(o.write + 1), o.length)
    else Offsets(o.read, Wrap(o.write + 1), o.length + 1)
  }

  lemma AdvancedHolds(ring: seq<byte>, h: seq<byte>, o: Offsets, sample: byte)
    requires Holds(ring, h, o)
    ensures o.write < |ring| && o.read < CAPACITY && |ring| == CAPACITY
    ensures Holds(ring[o.write := sample], h + [sample], Advanced(o))
  {
    hide Contents;
    var kept := if o.length == CAPACITY then Offsets(Wrap(o.read + 1), o.write, o.length - 1) else o;
    if o.length == CAPACITY {
      DroppingOldest(ring, o.read, o.length, 1);
      TailOfTail(h, o.length);
    }
    WritingNewest(ring, kept.read, kept.length, sample);
    TailOfMore(h, kept.length, sample);
  }

  lemma TailOfTail(h: seq<byte>, n: nat)
    requires 0 < n <= |h|
    ensures h[|h| - n..][1..] == h[|h| - (n - 1)..]
  {
  }

  lemma TailOfMore(h: seq<byte>, n: nat, sample: byte)
    requires n <= |h|
    ensures (h + [sample])[|h| + 1 - (n + 1)..] == h[|h| - n..] + [sample]
  {
  }

  lemma PrefixMore(h: seq<byte>, samples: seq<byte>, i: nat)
    requires i < |samples|
    ensures h + samples[..i] + [samples[i]] == h + samples[..i + 1]
  {
  }

  /** The loop of `append_samples`. */
  method WriteRing(ring: array<byte>, from: Offsets, samples: seq<byte>, ghost h: seq<byte>)
    returns (o: Offsets)
    requires Holds(ring[..], h, from)
    modifies ring
    ensures Holds(ring[..], h + samples, o)
    ensures o.length == Min(from.length + |samples|, CAPACITY)
  {
    hide Holds, Contents;
    o := from;
    var i := 0;
    assert h + samples[..0] == h;
    assert from.length <= CAPACITY by { HoldsBounds(ring[..], h, from); }
    while i < |samples|
      invariant 0 <= i <= |samples|
      invariant Holds(ring[..], h + samples[..i], o)
      invariant o.length == Min(from.length + i, CAPACITY)
    {
      AdvancedHolds(ring[..], h + samples[..i], o, samples[i]);
      ghost var before, write := ring[..], o.write;
      if o.length == CAPACITY {
        o := o.(read := Wrap(o.read + 1), length := o.length - 1);
      }
      ring[o.write] := samples[i];
      o := o.(write := Wrap(o.write + 1), length := o.length + 1);
      assert ring[..] == before[write := samples[i]];
      PrefixMore(h, samples, i);
      i := i + 1;
    }
    assert samples[..i] == samples;
  }

  lemma HoldsBounds(ring: seq<byte>, h: seq<byte>, o: Offsets)
    requires Holds(ring, h, o)
    ensures |ring| == CAPACITY && o.length <= |h|
    ensures o.length <= CAPACITY && o.read < CAPACITY && o.write < CAPACITY
  {
  }

  /** Taking `count` samples from the front leaves the rest in place. */
  lemma TakingOldest(ring: seq<byte>, h: seq<byte>, o: Offsets, count: nat)
    requires Holds(ring, h, o) && count <= o.length
    ensures o.read < CAPACITY && |ring| == CAPACITY && o.length <= |h| && o.length <= CAPACITY
    ensures Contents(ring, o.read, count) == h[|h| - o.length..][..count]
    ensures Holds(ring, h, Offsets(Wrap(o.read + count), o.write, o.length - count))
  {
    DroppingOldest(ring, o.read, o.length, count);
    assert h[|h| - o.length..][count..] == h[|h| - (o.length - count)..];
    assert Contents(ring, o.read, count) == Contents(ring, o.read, o.length)[..count];
  }

  /** `count` cells starting `back` samples before the write offset. */
  lemma SliceOfContents(ring: seq<byte>, h: seq<byte>, o: Offsets, back: nat, count: nat)
    requires Holds(ring, h, o) && count <= back <= o.length
    ensures Contents(ring, Wrap(o.write + CAPACITY - back), count) == h[|h| - back..][..count]
  {
    var start := Wrap(o.write + CAPACITY - back);
    DroppingOldest(ring, o.read, o.length, o.length - back);
    assert start == Wrap(o.read + (o.length - back));
    hide Wrap, Contents;
    assert h[|h| - o.length..][o.length - back..] == h[|h| - back..];
    PrefixOfContents(ring, start, back, count);
  }

  lemma PrefixOfContents(ring: seq<byte>, start: nat, length: nat, count: nat)
    requires |ring| == CAPACITY && start < CAPACITY && count <= length <= CAPACITY
    ensures Contents(ring, start, count) == Contents(ring, start, length)[..count]
  {
    hide Wrap;
  }

  /** The copying loop shared by `read`, `copy` and `copy_pending`: `count` cells from
      `start` on, around the end of the ring. */
  method CopyRing(ring: array<byte>, start: nat, count: nat, output: array<byte>)
    requires ring.Length == CAPACITY && start < CAPACITY && count <= CAPACITY
    requires count <= output.Length && output != ring
    modifies output
    ensures output[..count] == Contents(ring[..], start, count)
  {
    ghost var c := Contents(ring[..], start, count);
    hide Contents;
    var i := 0;
    while i < count
      invariant 0 <= i <= count
      invariant output[..i] == c[..i]
    {
      output[i] := ring[Wrap(start + i)];
      assert c[i] == output[i];
      i := i + 1;
    }
  }

  datatype Binding = Binding(generation: u64, lastSequence: u16, hasSequence: bool, autoBind: bool)

  class AudioBuffer {
    const data: array<byte>
    var offsets: Offsets
    var sampleCount: nat
    var totals: Totals
    var snapshot: Snapshot
    var binding: Binding
    ghost var history: seq<byte>
    ghost var firstSequence: u16

    ghost predicate Valid()
      reads this, data
    {
      && Holds(data[..], history, offsets)
      && sampleCount == |history|
    }

    ghost function Value(): Buffer
      reads this
    {
      Buffer(history, offsets.length, binding.generation, totals, snapshot, firstSequence,
             binding.lastSequence, binding.hasSequence, binding.autoBind)
    }

    constructor ()
      ensures Valid() && fresh(data) && Value() == Cleared(0, true)
    {
      data := new byte[CAPACITY](_ => 0);
      offsets, sampleCount := Offsets(0, 0, 0), 0;
      totals, snapshot := NO_TOTALS, NO_SNAPSHOT;
      binding := Binding(0, 0, false, true);
      history, firstSequence := [], 0;
    }

    method Reset(generation: u64)
      requires Valid()
      modifies this
      ensures Valid() && Value() == Cleared(generation, false)
    {
      offsets, sampleCount := Offsets(0, 0, 0), 0;
      totals, snapshot := NO_TOTALS, NO_SNAPSHOT;
      binding := Binding(generation, 0, false, false);
      history, firstSequence := [], 0;
    }

    /** Appends sample by sample, overwriting the oldest once the ring is full. */
    method AppendSamples(samples: seq<byte>)
      requires Valid()
      modifies this`offsets, this`sampleCount, this`history, data
      ensures Valid() && Value() == Append(old(Value()), samples)
    {
      offsets := WriteRing(data, offsets, samples, history);
      history := history + samples;
      sampleCount := sampleCount + |samples|;
    }

    method BindGeneration(generation: u64) returns (stale: bool)
      requires Valid()
      modifies this
      ensures Valid()
      ensures match Bind(old(Value()), generation)
              case None => stale && Value() == old(Value())
              case Some(c) => !stale && Value() == c
    {
      if (binding.generation == 0 && !binding.autoBind) || generation < binding.generation {
        return true;
      }
      if generation != binding.generation {
        Reset(generation);
      }
      return false;
    }

    /** `push_internal`, behind `df_gvs_audio_buffer_push` and `..._push_after_jitter`. */
    method PushInternal(samples: seq<byte>, sequence: u16, generation: u64, timestamp: u64,
                        afterJitter: bool) returns (code: Code)
      requires Valid()
      modifies this, data
      ensures Valid()
      ensures (Value(), code) ==
              Insert(old(Value()), samples, sequence, generation, timestamp, afterJitter)
    {
      if |samples| == 0 || generation == 0 || |samples| > CAPACITY {
        return Error;
      }
      var stale := BindGeneration(generation);
      if stale {
        return Stale;
      }
      var distance: u16 := 1;
      if binding.hasSequence {
        distance := Distance(sequence, binding.lastSequence);
        if distance == 0 {
          if totals.duplicates == U64_MAX { return Error; }
          totals := totals.(duplicates := totals.duplicates + 1);
          return Duplicate;
        }
        if distance > HALF_RANGE && !(afterJitter && distance == HALF_RANGE + 1) {
          if totals.late == U64_MAX { return Error; }
          totals := totals.(late := totals.late + 1);
          return Late;
        }
      }
      if totals.packets == U64_MAX || totals.bytes > U64_MAX - |samples| ||
         sampleCount > U64_MAX - |samples| ||
         (distance > 1 && (totals.gaps == U64_MAX || totals.missing > U64_MAX - (distance - 1))) {
        return Error;
      }
      Store(samples, sequence, timestamp, distance);
      return Accepted;
    }

    method Store(samples: seq<byte>, sequence: u16, timestamp: u64, distance: u16)
      requires Valid()
      requires distance > 0 && Fits(Value(), |samples|, distance)
      modifies this, data
      ensures Valid()
      ensures Value() == Stored(old(Value()), samples, sequence, timestamp, distance)
    {
      var t := totals;
      if distance > 1 {
        t := t.(gaps := t.gaps + 1, missing := t.missing + (distance - 1));
      }
      AppendSamples(samples);
      if !binding.hasSequence {
        firstSequence := sequence;
      }
      binding := binding.(lastSequence := sequence, hasSequence := true);
      totals := t.(packets := t.packets + 1, bytes := t.bytes + |samples|,
                   lastTimestamp := timestamp);
    }

    method PushGapSilence(count: nat, generation: u64) returns (code: Code)
      requires Valid()
      modifies this, data
      ensures Valid()
      ensures (Value(), code) == PushSilence(old(Value()), count, generation)
    {
      hide Holds, Contents, Silence, Bind;
      if count == 0 || count > CAPACITY || generation == 0 {
        return Error;
      }
      var stale := BindGeneration(generation);
      if stale {
        return Stale;
      }
      if sampleCount > U64_MAX - count || totals.concealed > U64_MAX - count {
        return Error;
      }
      AppendSamples(Silence(count));
      totals := totals.(concealed := totals.concealed + count);
      return Accepted;
    }

    /** Takes the oldest buffered samples out of the ring. */
    method Read(output: array<byte>) returns (count: nat)
      requires Valid() && output != data
      modifies this`offsets, output
      ensures Valid() && count == Min(old(offsets.length), output.Length)
      ensures output[..count] == Newest(old(Value()), old(offsets.length))[..count]
      ensures Value() == Consume(old(Value()), count)
    {
      var o := offsets;
      count := if o.length < output.Length then o.length else output.Length;
      hide Contents, Holds;
      TakingOldest(data[..], history, o, count);
      CopyRing(data, o.read, count, output);
      offsets := o.(read := Wrap(o.read + count), length := o.length - count);
    }

    /** Copies the oldest buffered samples and leaves the ring as it is. */
    method Copy(output: array<byte>) returns (count: nat)
      requires Valid() && output != data
      modifies output
      ensures count == Min(offsets.length, output.Length)
      ensures output[..count] == Newest(Value(), offsets.length)[..count]
    {
      hide Contents, Holds;
      count := if offsets.length < output.Length then offsets.length else output.Length;
      TakingOldest(data[..], history, offsets, count);
      CopyRing(data, offsets.read, count, output);
    }

    /** Copies samples the publisher has not committed: the newest ones (`tail`), or the
        oldest still in the ring. */
    method CopyPending(output: array<byte>, tail: bool) returns (ok: bool, count: nat)
      requires Valid() && output != data
      modifies output
      ensures ok <==> CursorValid(Value())
      ensures ok ==> count == Min(Available(Value()), output.Length) && count <= offsets.length
      ensures ok ==> output[..count] ==
                     Oldest(Value(), if tail then count else Available(Value()), count)
    {
      if snapshot.bytes > totals.bytes || snapshot.samples > sampleCount {
        return false, 0;
      }
      var pending := sampleCount - snapshot.samples;
      var available := if pending > offsets.length then offsets.length else pending;
      count := if available < output.Length then available else output.Length;
      ok := true;
      CopyBack(output, if tail then count else available, count);
    }

    /** Copies `count` samples, starting `back` samples before the write offset. */
    method CopyBack(output: array<byte>, back: nat, count: nat)
      requires Valid() && output != data
      requires count <= back <= offsets.length && count <= output.Length
      modifies output
      ensures output[..count] == Oldest(Value(), back, count)
    {
      hide Contents, Holds;
      HoldsBounds(data[..], history, offsets);
      SliceOfContents(data[..], history, offsets, back, count);
      var start := Wrap(offsets.write + CAPACITY - back);
      CopyRing(data, start, count, output);
    }

    method MarkSnapshot(generation: u64, samples: nat, timestamp: u64) returns (ok: bool)
      requires Valid() && sampleCount <= U64_MAX
      modifies this`snapshot
      ensures Valid()
      ensures match Mark(old(Value()), generation, samples, timestamp)
              case None => !ok && Value() == old(Value())
              case Some(c) => ok && Value() == c
    {
      if generation == 0 || generation != binding.generation || samples == 0 ||
         samples > CAPACITY || snapshot.bytes > totals.bytes || snapshot.samples > sampleCount {
        return false;
      }
      var pending := sampleCount - snapshot.samples;
      if samples > (if pending > offsets.length then offsets.length else pending) {
        return false;
      }
      snapshot := Snapshot(totals.packets, snapshot.packets, totals.bytes, sampleCount,
                           pending - samples, timestamp, 44 + samples * 2, true,
                           snapshot.discontinuity);
      return true;
    }
  }
}
