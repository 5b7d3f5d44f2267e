/** The four-slot reorder window of src/gvs_audio_jitter.c, emitting into the playout
    (the callback of src/runtime_service.c:158-161).

    Packets carry 16-bit wrapping numbers. The window emits them in order, fills a gap
    it gives up on with a bounded stretch of silence, and survives a callback failure at
    any point. A callback either fails on its own (`faults`, arbitrary) or is the
    playout's push. `Books` records what a run did; nothing reads it but the proofs. */
module AudioJitters {
  import opened Words
  import opened AudioPlayouts
  import AudioBuffers

  const SLOTS := 4
  const MAX_SAMPLES := 256
  const MAX_SILENCE := 320
  const GAP_MS := 40
  const HALF := 32768

  datatype Slot = Slot(samples: seq<byte>, sequence: u16, arrival: u64, occupied: bool)

  datatype Fields = Fields(
    generation: u64,
    expected: u16,
    hasSequence: bool,
    autoBind: bool,
    gapDeadline: u64,
    lastReal: nat,
    lastTimestamp: u64,
    duplicates: u64,
    late: u64,
    reordered: u64,
    gapSynthetic: nat)

  /** A packet and its number on the unwrapped sequence line. */
  datatype Packet = Packet(position: nat, sequence: u16, samples: seq<byte>)

  /** What a successful emission carried. */
  datatype Sound = Sound(samples: seq<byte>, sequence: u16, synthetic: bool, discontinuity: bool)

  datatype Books = Books(
    position: nat,             // `expected`, unwrapped
    accepted: seq<Packet>,
    delivered: seq<Packet>,
    log: seq<Sound>)           // successful emissions

  /** `tries` counts callback invocations, `refused` those the playout did not accept. */
  datatype World = World(slots: seq<Slot>, f: Fields, books: Books, playout: Playout,
                         tries: nat, refused: nat)

  /** What the `n`-th callback invocation answers before it reaches the playout. */
  type Faults = nat -> int

  // ---------------------------------------------------------------------------
  // The window's operations.

  function Reach(slots: seq<Slot>, expected: u16, i: nat): u16
    requires i <= SLOTS && |slots| == SLOTS
  {
    if i == SLOTS then U16_SIZE - 1 else Distance(slots[i].sequence, expected)
  }

  /** The occupied slot nearest to `expected` among the first `n`, or `SLOTS`. */
  function Nearest(slots: seq<Slot>, expected: u16, n: nat): (index: nat)
    requires n <= SLOTS == |slots|
    ensures index <= SLOTS
    ensures index < SLOTS ==> index < n && slots[index].occupied
  {
    if n == 0 then SLOTS
    else
      var best := Nearest(slots, expected, n - 1);
      if slots[n - 1].occupied &&
         Distance(slots[n - 1].sequence, expected) < Reach(slots, expected, best) then n - 1
      else best
  }

  function EarliestArrival(slots: seq<Slot>, n: nat): u64
    requires n <= SLOTS == |slots|
  {
    if n == 0 then U64_MAX
    else
      var rest := EarliestArrival(slots, n - 1);
      if slots[n - 1].occupied && slots[n - 1].arrival < rest then slots[n - 1].arrival else rest
  }

  function GapDeadline(slots: seq<Slot>): u64
    requires |slots| == SLOTS
  {
    var arrival := EarliestArrival(slots, SLOTS);
    if arrival > U64_MAX - GAP_MS then U64_MAX else arrival + GAP_MS
  }

  /** A positive answer of the callback counts as -1. */
  function Settled(result: int): (r: int)
    ensures r <= 0 && (r == 0 <==> result == 0)
  {
    if result > 0 then -1 else result
  }

  /** An error comes from the callback itself or from a refusal in the playout. */
  predicate Blamed(x: World, faults: Faults, status: int) {
    status < 0 ==> x.tries > 0 && (faults(x.tries - 1) != 0 || x.refused > 0)
  }

  function Emit(w: World, faults: Faults, e: Emission): (r: (World, int))
    ensures r.1 <= 0 && Blamed(r.0, faults, r.1)
  {
    var x := w.(tries := w.tries + 1);
    var fault := faults(w.tries);
    if fault != 0 then (x, Settled(fault))
    else
      var (p, status) := Push(w.playout, e);
      if status != 0 then (x.(playout := p, refused := w.refused + 1), Settled(status))
      else
        var sound := Sound(e.samples, e.sequence, e.synthetic, e.discontinuity);
        (x.(playout := p, books := Logged(w.books, sound)), 0)
  }

  function Logged(b: Books, sound: Sound): Books {
    b.(log := b.log + [sound])
  }

  /** More packets are missing than the silence limit can stand for. */
  predicate TooLong(missing: nat, lastReal: nat)
    requires lastReal > 0
  {
    missing > MAX_SILENCE / lastReal
  }

  function SilenceCount(missing: nat, lastReal: nat): nat
    requires lastReal > 0
  {
    if TooLong(missing, lastReal) then MAX_SILENCE else missing * lastReal
  }

  function Conceal(w: World, faults: Faults, now: u64, missing: u16): (r: (World, int))
    requires w.f.lastReal > 0
    ensures r.1 <= 0 && Blamed(r.0, faults, r.1)
  {
    var count := SilenceCount(missing, w.f.lastReal);
    var (x, status) :=
      Emit(w, faults, Emission(AudioBuffers.Silence(count), w.f.expected, w.f.generation, now,
                               true, TooLong(missing, w.f.lastReal)));
    (if status != 0 then x else x.(f := x.f.(gapSynthetic := count)), status)
  }

  function Deliver(w: World, faults: Faults, now: u64, index: nat, discontinuity: bool): (r: (World, int))
    requires index < |w.slots|
    ensures r.1 <= 0 && Blamed(r.0, faults, r.1)
  {
    var slot := w.slots[index];
    var (x, status) := Emit(w, faults, Emission(slot.samples, slot.sequence, w.f.generation, now,
                                                false, discontinuity));
    (if status != 0 then x else Retired(x, index), status)
  }

  /** The slot's packet has gone out. */
  function Retired(w: World, index: nat): World
    requires index < |w.slots|
  {
    w.(slots := Emptied(w.slots, index), f := Passed(w.f, w.slots[index]),
       books := Delivered(w.books, PacketIn(w.slots, w.f, w.books, index)))
  }

  function Emptied(slots: seq<Slot>, index: nat): seq<Slot>
    requires index < |slots|
  {
    slots[index := slots[index].(occupied := false)]
  }

  /** The fields once the packet of `slot` has gone out. */
  function Passed(f: Fields, slot: Slot): Fields {
    f.(expected := Successor(slot.sequence), lastReal := |slot.samples|,
       gapSynthetic := 0, gapDeadline := 0)
  }

  /** The packet waiting in slot `index`. */
  function PacketIn(slots: seq<Slot>, f: Fields, b: Books, index: nat): Packet
    requires index < |slots|
  {
    Packet(b.position + Distance(slots[index].sequence, f.expected), slots[index].sequence,
           slots[index].samples)
  }

  function Delivered(b: Books, q: Packet): Books {
    b.(position := q.position + 1, delivered := b.delivered + [q])
  }

  /** One turn of the loop in `drain`; `more` says whether the loop goes round again. */
  datatype PassResult = PassResult(world: World, status: int, more: bool)

  function Pass(w: World, faults: Faults, now: u64, force: bool): (r: PassResult)
    requires WindowOk(w.slots, w.f)
    ensures r.status <= 0 && Blamed(r.world, faults, r.status)
  {
    var index := Nearest(w.slots, w.f.expected, SLOTS);
    if index == SLOTS then PassResult(w.(f := w.f.(gapDeadline := 0)), 0, false)
    else
      var missing := Distance(w.slots[index].sequence, w.f.expected);
      if missing == 0 then
        var (x, status) := Deliver(w, faults, now, index, false);
        PassResult(x, status, status == 0)
      else
        var v := w.(f := w.f.(gapDeadline := GapDeadline(w.slots)));
        if !force && v.f.gapSynthetic == 0 && now < v.f.gapDeadline then PassResult(v, 0, false)
        else
          NeverDividesByZero(w.slots, w.f);
          Fill(v, faults, now, index, missing)
  }

  /** Silence for the gap, unless it has gone out already; then the packet behind it. */
  function Fill(v: World, faults: Faults, now: u64, index: nat, missing: u16): (r: PassResult)
    requires v.f.lastReal > 0 && index < |v.slots|
    ensures r.status <= 0 && Blamed(r.world, faults, r.status)
  {
    var (x, concealed) :=
      if v.f.gapSynthetic == 0 then Conceal(v, faults, now, missing) else (v, 0);
    if concealed != 0 then PassResult(x, concealed, false)
    else
      var (y, status) := Deliver(x, faults, now, index, TooLong(missing, v.f.lastReal));
      PassResult(y, status, status == 0)
  }

  // ---------------------------------------------------------------------------
  // What the window keeps.

  predicate SlotOk(slot: Slot, expected: u16) {
    0 < |slot.samples| <= MAX_SAMPLES && Distance(slot.sequence, expected) < HALF
  }

  /** Queued numbers are distinct and less than half the circle ahead of `expected`. */
  ghost predicate QueueOk(slots: seq<Slot>, expected: u16) {
    && |slots| == SLOTS
    && (forall i :: 0 <= i < SLOTS && slots[i].occupied ==> SlotOk(slots[i], expected))
    && (forall i, j :: 0 <= i < j < SLOTS && slots[i].occupied && slots[j].occupied ==>
          slots[i].sequence != slots[j].sequence)
  }

  predicate Waiting(slots: seq<Slot>) {
    exists i :: 0 <= i < |slots| && slots[i].occupied
  }

  /** A gap is only ever measured after a first packet, and an announced silence keeps
      its successor queued. */
  ghost predicate WindowOk(slots: seq<Slot>, f: Fields) {
    && QueueOk(slots, f.expected)
    && f.lastReal <= MAX_SAMPLES
    && (!f.hasSequence ==> !Waiting(slots) && f.lastReal == 0)
    && (f.hasSequence ==> f.generation != 0)
    && (f.lastReal == 0 ==> f.gapSynthetic == 0)
    && (f.lastReal == 0 && Waiting(slots) ==>
          exists i :: 0 <= i < SLOTS && slots[i].occupied && slots[i].sequence == f.expected)
    && (f.gapSynthetic != 0 ==>
          && Waiting(slots)
          && forall i :: 0 <= i < SLOTS && slots[i].occupied ==> slots[i].sequence != f.expected)
  }

  lemma NearestIsNearest(slots: seq<Slot>, expected: u16, n: nat)
    requires n <= SLOTS && QueueOk(slots, expected)
    ensures var k := Nearest(slots, expected, n);
            forall i :: 0 <= i < n && slots[i].occupied ==>
              && k < SLOTS
              && Distance(slots[k].sequence, expected) <= Distance(slots[i].sequence, expected)
  {
  }

  lemma NeverDividesByZero(slots: seq<Slot>, f: Fields)
    requires WindowOk(slots, f)
    requires Nearest(slots, f.expected, SLOTS) < SLOTS
    requires slots[Nearest(slots, f.expected, SLOTS)].sequence != f.expected
    ensures f.lastReal > 0
  {
    NearestIsNearest(slots, f.expected, SLOTS);
  }

  // ---------------------------------------------------------------------------
  // What a run has to show for itself.

  /** The sound of a gap of `missing` packets after `p`: as long as the packets it stands
      for, but never more than 320 samples; marked when it had to be cut short. */
  function GapSound(p: Packet, missing: nat): Sound {
    var wanted := missing * |p.samples|;
    Sound(AudioBuffers.Silence(Min(wanted, 320)), Successor(p.sequence), true, wanted > 320)
  }

  /** What is heard between packet `p` and the end of its successor `q`. */
  function Bridge(p: Packet, q: Packet): seq<Sound>
    requires p.position < q.position
  {
    var missing := q.position - p.position - 1;
    if missing == 0 then [Sound(q.samples, q.sequence, false, false)]
    else [GapSound(p, missing),
          Sound(q.samples, q.sequence, false, missing * |p.samples| > 320)]
  }

  /** `q` lies strictly after `p`, by at most half the circle, and its position says by how
      much: positions are the 16-bit numbers, unwrapped. */
  predicate Follows(p: Packet, q: Packet) {
    && 0 < Distance(q.sequence, p.sequence) <= HALF
    && q.position == p.position + Distance(q.sequence, p.sequence)
  }

  ghost predicate Rising(d: seq<Packet>) {
    && (forall k :: 0 <= k < |d| ==> 0 < |d[k].samples| <= MAX_SAMPLES)
    && (forall k :: 0 < k < |d| ==> Follows(d[k - 1], d[k]))
  }

  /** The emissions a listener must hear for these packets. */
  ghost function Render(d: seq<Packet>): seq<Sound>
    requires Rising(d)
  {
    if d == [] then []
    else if |d| == 1 then [Sound(d[0].samples, d[0].sequence, false, false)]
    else Render(d[..|d| - 1]) + Bridge(d[|d| - 2], d[|d| - 1])
  }

  function Held(slot: Slot, expected: u16, position: nat): multiset<Packet> {
    if slot.occupied then
      multiset{Packet(position + Distance(slot.sequence, expected), slot.sequence, slot.samples)}
    else multiset{}
  }

  /** The packets waiting in the first `n` slots. */
  function Queued(slots: seq<Slot>, n: nat, expected: u16, position: nat): multiset<Packet>
    requires n <= |slots|
  {
    if n == 0 then multiset{}
    else Queued(slots, n - 1, expected, position) + Held(slots[n - 1], expected, position)
  }

  function Last(d: seq<Packet>): Packet
    requires d != []
  {
    d[|d| - 1]
  }

  /** The silence already emitted for the packet still queued behind it. */
  ghost function Announced(slots: seq<Slot>, f: Fields, d: seq<Packet>): seq<Sound>
    requires WindowOk(slots, f) && (f.gapSynthetic != 0 ==> d != [])
  {
    if f.gapSynthetic == 0 then []
    else
      NearestIsNearest(slots, f.expected, SLOTS);
      var k := Nearest(slots, f.expected, SLOTS);
      [GapSound(Last(d), Distance(slots[k].sequence, f.expected))]
  }

  /** The window's own fields agree with the last delivery. */
  ghost predicate LinkOk(f: Fields, b: Books) {
    && (!f.hasSequence ==> b.accepted == [])
    && (f.lastReal == 0 <==> b.delivered == [])
    && (b.delivered != [] ==>
         var last := Last(b.delivered);
         && last.position + 1 == b.position
         && Successor(last.sequence) == f.expected
         && |last.samples| == f.lastReal)
    && Rising(b.delivered)
  }

  /** Exactly the deliveries have been heard, with the gaps between them. */
  ghost predicate LogOk(slots: seq<Slot>, f: Fields, b: Books)
    requires WindowOk(slots, f) && LinkOk(f, b)
  {
    b.log == Render(b.delivered) + Announced(slots, f, b.delivered)
  }

  /** Every accepted packet is delivered, once, or still queued. */
  ghost predicate AccountOk(slots: seq<Slot>, f: Fields, b: Books)
    requires |slots| == SLOTS
  {
    multiset(b.accepted) ==
    multiset(b.delivered) + Queued(slots, SLOTS, f.expected, b.position)
  }

  ghost predicate BooksOk(slots: seq<Slot>, f: Fields, b: Books)
    requires WindowOk(slots, f)
  {
    LinkOk(f, b) && LogOk(slots, f, b) && AccountOk(slots, f, b)
  }

  const TRIES_LIMIT := 0x1_0000_0000_0000

  /** Every 64-bit counter of the store is bounded by the number of callbacks. */
  ghost predicate CountersOk(b: AudioBuffers.Buffer, tries: nat) {
    && b.totals.packets <= tries && b.totals.gaps <= tries
    && b.totals.bytes <= MAX_SILENCE * tries && b.totals.concealed <= MAX_SILENCE * tries
    && |b.history| <= MAX_SILENCE * tries && b.totals.missing <= HALF * tries
  }

  /** The playout stands exactly where the window's emissions have left it. */
  ghost predicate ChainOk(w: World) {
    var p, f, d := w.playout, w.f, w.books.delivered;
    && p.buffer.generation == p.flags.generation
    && (p.flags.generation == f.generation ||
        (p == Fresh() && d == [] && f.gapSynthetic == 0))
    && (f.generation == 0 && f.autoBind ==> p == Fresh())
    && (p.buffer.hasSequence <==> d != [])
    && (d != [] ==> p.buffer.lastSequence == Last(d).sequence)
    && (p.flags.concealedGap <==> f.gapSynthetic != 0)
    && CountersOk(p.buffer, w.tries)
    && w.refused == 0
  }

  ghost predicate Inv(w: World) {
    && |w.slots| == SLOTS
    && WindowOk(w.slots, w.f) && BooksOk(w.slots, w.f, w.books)
    && (w.tries <= TRIES_LIMIT ==> ChainOk(w))
  }

  // ---------------------------------------------------------------------------
  // One emission.

  lemma LimitIsTheProduct(missing: nat, length: nat)
    requires length > 0
    ensures TooLong(missing, length) <==> missing * length > MAX_SILENCE
    ensures SilenceCount(missing, length) == Min(missing * length, MAX_SILENCE)
  {
    var q := MAX_SILENCE / length;
    var product := q * length;
    assert MAX_SILENCE - length < product <= MAX_SILENCE;
    if missing > q {
      ProductsGrow(q + 1, missing, length);
      assert (q + 1) * length == product + length;
    } else {
      ProductsGrow(missing, q, length);
    }
  }

  /** A gap of half the circle is always longer than the silence limit. */
  lemma HalfIsTooLong(length: nat)
    requires 0 < length <= MAX_SAMPLES
    ensures TooLong(HALF - 1, length)
  {
    LimitIsTheProduct(HALF - 1, length);
  }

  /** The two half-range rules fit together: whatever the window emits is one the store
      takes, the packet at distance 32768 included. */
  lemma StoreTakesRealPackets(b: AudioBuffers.Buffer, e: Emission, tries: nat, missing: u16,
                              afterJitter: bool)
    requires CountersOk(b, tries) && tries < TRIES_LIMIT
    requires e.generation != 0 && b.generation == e.generation
    requires 0 < |e.samples| <= MAX_SAMPLES && missing < HALF
    requires b.hasSequence ==> Distance(e.sequence, b.lastSequence) == missing + 1
    requires missing == HALF - 1 && b.hasSequence ==> afterJitter
    ensures var (c, code) := AudioBuffers.Insert(b, e.samples, e.sequence, e.generation, e.timestamp, afterJitter);
            && code == AudioBuffers.Accepted
            && CountersOk(c, tries + 1)
            && c.hasSequence && c.lastSequence == e.sequence && c.generation == b.generation
  {
  }

  lemma StoreTakesSilence(b: AudioBuffers.Buffer, count: nat, generation: u64, tries: nat)
    requires CountersOk(b, tries) && tries < TRIES_LIMIT
    requires generation != 0 && b.generation == generation
    requires 0 < count <= MAX_SILENCE
    ensures var (c, code) := AudioBuffers.PushSilence(b, count, generation);
            && code == AudioBuffers.Accepted
            && CountersOk(c, tries + 1)
            && c.hasSequence == b.hasSequence && c.lastSequence == b.lastSequence
            && c.generation == b.generation
  {
  }

  // ---------------------------------------------------------------------------
  // One pass.

  /** Moving `expected` past the nearest packet leaves every other packet where it was. */
  lemma OthersStay(s: u16, near: u16, expected: u16)
    requires Distance(near, expected) < Distance(s, expected) < HALF
    ensures Distance(s, Successor(near)) == Distance(s, expected) - Distance(near, expected) - 1
  {
  }

  lemma RetiringKeepsWindow(slots: seq<Slot>, expected: u16, index: nat)
    requires QueueOk(slots, expected) && index == Nearest(slots, expected, SLOTS) < SLOTS
    ensures QueueOk(slots[index := slots[index].(occupied := false)],
                    Successor(slots[index].sequence))
  {
    NearestIsNearest(slots, expected, SLOTS);
    var near := slots[index].sequence;
    forall i | 0 <= i < SLOTS && i != index && slots[i].occupied
      ensures SlotOk(slots[i], Successor(near))
    {
      assert slots[i].sequence != near;
      OthersStay(slots[i].sequence, near, expected);
    }
  }

  lemma HeldStays(slot: Slot, near: u16, expected: u16, position: nat)
    requires slot.occupied ==> Distance(near, expected) < Distance(slot.sequence, expected) < HALF
    ensures Held(slot, expected, position)
         == Held(slot, Successor(near), position + Distance(near, expected) + 1)
  {
    if slot.occupied {
      OthersStay(slot.sequence, near, expected);
    }
  }

  lemma OthersLieFarther(slots: seq<Slot>, expected: u16, index: nat, i: nat)
    requires QueueOk(slots, expected) && index == Nearest(slots, expected, SLOTS) < SLOTS
    requires i < SLOTS && i != index && slots[i].occupied
    ensures Distance(slots[index].sequence, expected) < Distance(slots[i].sequence, expected) < HALF
  {
    NearestIsNearest(slots, expected, SLOTS);
    assert slots[i].sequence != slots[index].sequence;
  }

  /** Two windows that hold the same packets everywhere but in one emptied slot. */
  lemma {:induction false} QueueLosesOne(slots: seq<Slot>, after: seq<Slot>, index: nat,
                                         e0: u16, p0: nat, e1: u16, p1: nat, n: nat)
    requires |slots| == |after| == SLOTS && index < SLOTS && n <= SLOTS
    requires forall i :: 0 <= i < SLOTS && i != index ==>
               Held(slots[i], e0, p0) == Held(after[i], e1, p1)
    requires Held(after[index], e1, p1) == multiset{}
    ensures Queued(slots, n, e0, p0) ==
            Queued(after, n, e1, p1) + if index < n then Held(slots[index], e0, p0) else multiset{}
  {
    hide Held;
    if n > 0 {
      QueueLosesOne(slots, after, index, e0, p0, e1, p1, n - 1);
      if n - 1 != index {
        assert Held(slots[n - 1], e0, p0) == Held(after[n - 1], e1, p1);
      }
    }
  }

  lemma OneHeldStays(slots: seq<Slot>, expected: u16, index: nat, position: nat, i: nat)
    requires QueueOk(slots, expected) && index == Nearest(slots, expected, SLOTS) < SLOTS
    requires i < SLOTS && i != index
    ensures Held(slots[i], expected, position)
         == Held(Emptied(slots, index)[i], Successor(slots[index].sequence),
                 position + Distance(slots[index].sequence, expected) + 1)
  {
    hide Nearest, Held, Successor;
    if slots[i].occupied {
      OthersLieFarther(slots, expected, index, i);
    }
    HeldStays(slots[i], slots[index].sequence, expected, position);
  }

  lemma RetiringKeepsPositions(slots: seq<Slot>, expected: u16, index: nat, position: nat)
    requires QueueOk(slots, expected) && index == Nearest(slots, expected, SLOTS) < SLOTS
    ensures var d := Distance(slots[index].sequence, expected);
            Queued(slots, SLOTS, expected, position) ==
            Queued(Emptied(slots, index), SLOTS, Successor(slots[index].sequence), position + d + 1)
            + Held(slots[index], expected, position)
  {
    var after, beyond := Emptied(slots, index), Successor(slots[index].sequence);
    var moved := position + Distance(slots[index].sequence, expected) + 1;
    assert |slots| == |after| == SLOTS && Held(after[index], beyond, moved) == multiset{};
    hide Queued, Nearest, Distance, Successor, Held, QueueOk, Emptied;
    forall i | 0 <= i < SLOTS && i != index
      ensures Held(slots[i], expected, position) == Held(after[i], beyond, moved)
    {
      OneHeldStays(slots, expected, index, position, i);
    }
    QueueLosesOne(slots, after, index, expected, position, beyond, moved, SLOTS);
  }

  lemma RenderGrows(d: seq<Packet>, q: Packet)
    requires Rising(d) && d != [] && 0 < |q.samples| <= MAX_SAMPLES
    requires Follows(Last(d), q)
    ensures Rising(d + [q])
    ensures Render(d + [q]) == Render(d) + Bridge(Last(d), q)
  {
    assert (d + [q])[..|d|] == d;
  }

  /** The emission for the packet in slot `index`. */
  function RealEmission(w: World, now: u64, index: nat, discontinuity: bool): Emission
    requires index < |w.slots|
  {
    var slot := w.slots[index];
    Emission(slot.samples, slot.sequence, w.f.generation, now, false, discontinuity)
  }

  /** The nearest packet is due: nothing is missing, or its silence has gone out. */
  ghost predicate Ready(slots: seq<Slot>, f: Fields, index: nat, discontinuity: bool)
    requires |slots| == SLOTS
  {
    && index == Nearest(slots, f.expected, SLOTS) < SLOTS
    && var missing := Distance(slots[index].sequence, f.expected);
       if missing == 0 then !discontinuity
       else
         && f.gapSynthetic != 0 && f.lastReal > 0
         && discontinuity == TooLong(missing, f.lastReal)
  }

  lemma PlayoutTakesReal(w: World, now: u64, index: nat, discontinuity: bool)
    requires WindowOk(w.slots, w.f) && BooksOk(w.slots, w.f, w.books)
    requires ChainOk(w) && w.tries < TRIES_LIMIT
    requires Ready(w.slots, w.f, index, discontinuity)
    ensures var (p, status) := Push(w.playout, RealEmission(w, now, index, discontinuity));
            && status == 0
            && p.buffer.generation == p.flags.generation == w.f.generation
            && p.buffer.hasSequence && p.buffer.lastSequence == w.slots[index].sequence
            && !p.flags.concealedGap
            && CountersOk(p.buffer, w.tries + 1)
  {
    var p, slot := w.playout, w.slots[index];
    var missing := Distance(slot.sequence, w.f.expected);
    var q := if p.flags.generation == 0 then Restarted(w.f.generation) else p;
    if missing == HALF - 1 {
      HalfIsTooLong(w.f.lastReal);
    }
    StoreTakesRealPackets(q.buffer, RealEmission(w, now, index, discontinuity), w.tries,
                          missing, q.flags.concealedGap && discontinuity);
  }

  lemma PlayoutTakesSilence(w: World, now: u64, e: Emission)
    requires WindowOk(w.slots, w.f) && BooksOk(w.slots, w.f, w.books)
    requires ChainOk(w) && w.tries < TRIES_LIMIT
    requires e.synthetic && e.generation == w.f.generation && 0 < |e.samples| <= MAX_SILENCE
    requires w.f.lastReal > 0 && Waiting(w.slots)
    ensures var (p, status) := Push(w.playout, e);
            && status == 0
            && p.buffer.generation == p.flags.generation == w.f.generation
            && p.buffer.hasSequence && p.buffer.lastSequence == w.playout.buffer.lastSequence
            && p.flags.concealedGap
            && CountersOk(p.buffer, w.tries + 1)
  {
    StoreTakesSilence(w.playout.buffer, |e.samples|, e.generation, w.tries);
  }

  /** The sounds a listener hears between `d` and `q`, before `q` itself. */
  function Interlude(d: seq<Packet>, missing: nat): seq<Sound>
    requires missing > 0 ==> d != []
  {
    if missing == 0 then [] else [GapSound(Last(d), missing)]
  }

  lemma RenderNext(d: seq<Packet>, q: Packet, missing: nat)
    requires Rising(d) && 0 < |q.samples| <= MAX_SAMPLES && missing < HALF
    requires d == [] ==> missing == 0
    requires d != [] ==>
               && missing == Distance(q.sequence, Successor(Last(d).sequence))
               && q.position == Last(d).position + 1 + missing
    ensures Rising(d + [q])
    ensures Render(d + [q]) ==
            Render(d) + Interlude(d, missing)
            + [Sound(q.samples, q.sequence, false,
                     missing > 0 && missing * |Last(d).samples| > MAX_SILENCE)]
  {
    if d == [] {
      assert d + [q] == [q];
    } else {
      assert Follows(Last(d), q);
      hide Render, Rising, Distance, Successor, Follows;
      RenderGrows(d, q);
    }
  }

  lemma ReadyFacts(slots: seq<Slot>, f: Fields, b: Books, index: nat, discontinuity: bool)
    requires WindowOk(slots, f) && f.hasSequence && LinkOk(f, b)
    requires Ready(slots, f, index, discontinuity)
    ensures var d, missing := b.delivered, Distance(slots[index].sequence, f.expected);
            && missing < HALF && 0 < |slots[index].samples| <= MAX_SAMPLES
            && index == Nearest(slots, f.expected, SLOTS) < SLOTS == |slots|
            && (d == [] ==> missing == 0)
            && Announced(slots, f, d) == Interlude(d, missing)
            && discontinuity == (missing > 0 && missing * |Last(d).samples| > MAX_SILENCE)
  {
    var missing := Distance(slots[index].sequence, f.expected);
    NearestIsNearest(slots, f.expected, SLOTS);
    if missing > 0 {
      LimitIsTheProduct(missing, f.lastReal);
    }
  }

  lemma RetiredKeepsWindow(slots: seq<Slot>, f: Fields, index: nat, discontinuity: bool)
    requires WindowOk(slots, f) && f.hasSequence && Ready(slots, f, index, discontinuity)
    ensures WindowOk(Emptied(slots, index), Passed(f, slots[index]))
  {
    RetiringKeepsWindow(slots, f.expected, index);
    hide Distance, Nearest;
  }

  lemma RetiredKeepsAccount(slots: seq<Slot>, f: Fields, b: Books, index: nat)
    requires WindowOk(slots, f) && AccountOk(slots, f, b)
    requires index == Nearest(slots, f.expected, SLOTS) < SLOTS
    ensures AccountOk(Emptied(slots, index), Passed(f, slots[index]),
                      Delivered(b, PacketIn(slots, f, b, index)))
  {
    hide Queued, Nearest, Distance, Successor;
    RetiringKeepsPositions(slots, f.expected, index, b.position);
    var q := PacketIn(slots, f, b, index);
    assert |slots| == SLOTS;
    hide QueueOk;
    assert Held(slots[index], f.expected, b.position) == multiset{q};
    assert multiset(b.delivered + [q]) == multiset(b.delivered) + multiset{q};
  }

  /** The sound of the packet in slot `index`. */
  function SoundOf(slot: Slot, discontinuity: bool): Sound {
    Sound(slot.samples, slot.sequence, false, discontinuity)
  }

  lemma RetiredKeepsLink(slots: seq<Slot>, f: Fields, b: Books, index: nat, discontinuity: bool)
    requires WindowOk(slots, f) && f.hasSequence && BooksOk(slots, f, b)
    requires Ready(slots, f, index, discontinuity)
    ensures var c := Delivered(Logged(b, SoundOf(slots[index], discontinuity)),
                               PacketIn(slots, f, b, index));
            && LinkOk(Passed(f, slots[index]), c)
            && c.log == Render(c.delivered)
  {
    var q := PacketIn(slots, f, b, index);
    ReadyFacts(slots, f, b, index, discontinuity);
    hide Rising, Render, QueueOk, Nearest, Distance, Interlude, Ready, WindowOk, Announced, Successor;
    RenderNext(b.delivered, q, Distance(slots[index].sequence, f.expected));
  }

  /** The books after a packet has gone out: its sound joins the log, its place in the
      queue becomes a delivery. */
  lemma RetiredKeepsBooks(slots: seq<Slot>, f: Fields, b: Books, index: nat, discontinuity: bool)
    requires WindowOk(slots, f) && f.hasSequence && BooksOk(slots, f, b)
    requires Ready(slots, f, index, discontinuity)
    ensures WindowOk(Emptied(slots, index), Passed(f, slots[index]))
    ensures BooksOk(Emptied(slots, index), Passed(f, slots[index]),
                    Delivered(Logged(b, SoundOf(slots[index], discontinuity)),
                              PacketIn(slots, f, b, index)))
  {
    hide Nearest, Distance, Render, Rising, Queued, Ready, Successor, QueueOk, Interlude, LinkOk;
    ReadyFacts(slots, f, b, index, discontinuity);
    RetiredKeepsWindow(slots, f, index, discontinuity);
    RetiredKeepsLink(slots, f, b, index, discontinuity);
    RetiredKeepsAccount(slots, f, Logged(b, SoundOf(slots[index], discontinuity)), index);
  }

  /** Everything but the callback count stands as it was. */
  predicate Untouched(w: World, x: World) {
    x.slots == w.slots && x.f == w.f && x.books == w.books && x.tries > w.tries
  }

  /** A failed emission leaves the queue as it was. */
  lemma FailureKeeps(w: World, faults: Faults, e: Emission)
    requires Inv(w) && Emit(w, faults, e).1 != 0
    requires w.tries < TRIES_LIMIT ==> Push(w.playout, e).1 == 0
    ensures Inv(Emit(w, faults, e).0)
    ensures Untouched(w, Emit(w, faults, e).0)
  {
    hide Push, WindowOk, BooksOk;
  }

  /** The playout's side of a delivery. */
  lemma DeliveryKeepsChain(w: World, faults: Faults, now: u64, index: nat, discontinuity: bool)
    requires WindowOk(w.slots, w.f) && BooksOk(w.slots, w.f, w.books)
    requires ChainOk(w) && w.tries < TRIES_LIMIT
    requires Ready(w.slots, w.f, index, discontinuity)
    requires faults(w.tries) == 0
    ensures ChainOk(Deliver(w, faults, now, index, discontinuity).0)
    ensures Deliver(w, faults, now, index, discontinuity).1 == 0
  {
    PlayoutTakesReal(w, now, index, discontinuity);
    hide Push, WindowOk, BooksOk, Ready, Nearest, Distance, Successor, CountersOk;
  }

  lemma DeliverEffect(w: World, faults: Faults, now: u64, index: nat, discontinuity: bool)
    requires index < |w.slots|
    ensures var (x, status) := Deliver(w, faults, now, index, discontinuity);
            && x.tries == w.tries + 1
            && (if status != 0 then Untouched(w, x)
                else
                  && x.f == Passed(w.f, w.slots[index])
                  && x.slots == Emptied(w.slots, index)
                  && x.books == Delivered(Logged(w.books, SoundOf(w.slots[index], discontinuity)),
                                          PacketIn(w.slots, w.f, w.books, index)))
  {
    hide Push, Distance;
  }

  lemma DeliverKeeps(w: World, faults: Faults, now: u64, index: nat, discontinuity: bool)
    requires Inv(w) && w.f.hasSequence && Ready(w.slots, w.f, index, discontinuity)
    ensures Inv(Deliver(w, faults, now, index, discontinuity).0)
  {
    var e := RealEmission(w, now, index, discontinuity);
    var (x, status) := Deliver(w, faults, now, index, discontinuity);
    DeliverEffect(w, faults, now, index, discontinuity);
    if w.tries < TRIES_LIMIT {
      PlayoutTakesReal(w, now, index, discontinuity);
      if faults(w.tries) == 0 {
        DeliveryKeepsChain(w, faults, now, index, discontinuity);
      }
    }
    if status == 0 {
      RetiredKeepsBooks(w.slots, w.f, w.books, index, discontinuity);
      hide *;
      assert x.tries <= TRIES_LIMIT ==> ChainOk(x);
    } else {
      FailureKeeps(w, faults, e);
    }
  }

  /** The fields the invariant looks at. */
  predicate SameWindow(f: Fields, g: Fields) {
    && f.generation == g.generation && f.expected == g.expected
    && f.hasSequence == g.hasSequence && f.autoBind == g.autoBind
    && f.lastReal == g.lastReal && f.gapSynthetic == g.gapSynthetic
  }

  lemma CountersAndClocksAreFree(w: World, g: Fields)
    requires Inv(w) && SameWindow(w.f, g)
    ensures Inv(w.(f := g))
  {
    hide QueueOk, Nearest, Distance, Queued, Render;
  }

  lemma SilenceIsTheGap(f: Fields, b: Books, missing: u16)
    requires LinkOk(f, b) && f.lastReal > 0 && missing > 0
    ensures 0 < SilenceCount(missing, f.lastReal) <= MAX_SILENCE
    ensures Sound(AudioBuffers.Silence(SilenceCount(missing, f.lastReal)), f.expected, true,
                  TooLong(missing, f.lastReal))
         == GapSound(Last(b.delivered), missing)
  {
    LimitIsTheProduct(missing, f.lastReal);
    ProductsGrow(1, missing, f.lastReal);
  }

  lemma ConcealedKeepsBooks(slots: seq<Slot>, f: Fields, b: Books, count: nat)
    requires WindowOk(slots, f) && f.hasSequence && BooksOk(slots, f, b)
    requires f.gapSynthetic == 0 && f.lastReal > 0 && count > 0
    requires var k := Nearest(slots, f.expected, SLOTS);
             k < SLOTS && slots[k].sequence != f.expected
    ensures var g := f.(gapSynthetic := count);
            var missing := Distance(slots[Nearest(slots, f.expected, SLOTS)].sequence, f.expected);
            && WindowOk(slots, g)
            && BooksOk(slots, g, Logged(b, GapSound(Last(b.delivered), missing)))
  {
    NearestIsNearest(slots, f.expected, SLOTS);
    hide Queued, Render, Rising;
  }

  lemma ConcealKeeps(w: World, faults: Faults, now: u64, missing: u16)
    requires Inv(w) && w.f.gapSynthetic == 0 && w.f.lastReal > 0 && missing > 0
    requires var k := Nearest(w.slots, w.f.expected, SLOTS);
             k < SLOTS && missing == Distance(w.slots[k].sequence, w.f.expected)
    ensures var (x, status) := Conceal(w, faults, now, missing);
            && Inv(x)
            && (if status != 0 then Untouched(w, x)
                else
                  && x.slots == w.slots && x.f == w.f.(gapSynthetic := x.f.gapSynthetic)
                  && x.f.gapSynthetic > 0 && x.books.accepted == w.books.accepted
                  && x.books.delivered == w.books.delivered)
  {
    var count := SilenceCount(missing, w.f.lastReal);
    var e := Emission(AudioBuffers.Silence(count), w.f.expected, w.f.generation, now, true,
                      TooLong(missing, w.f.lastReal));
    SilenceIsTheGap(w.f, w.books, missing);
    if w.tries < TRIES_LIMIT {
      PlayoutTakesSilence(w, now, e);
    }
    if Emit(w, faults, e).1 != 0 {
      FailureKeeps(w, faults, e);
    } else {
      ConcealedKeepsBooks(w.slots, w.f, w.books, count);
      hide Push, WindowOk, BooksOk, Nearest, Distance, CountersOk, SilenceCount, TooLong;
    }
  }

  // ---------------------------------------------------------------------------
  // The drain loop.

  function Occupied(slots: seq<Slot>, n: nat): nat
    requires n <= |slots|
  {
    if n == 0 then 0 else Occupied(slots, n - 1) + if slots[n - 1].occupied then 1 else 0
  }

  lemma EmptyingCounts(slots: seq<Slot>, index: nat, n: nat)
    requires n <= |slots| && index < |slots| && slots[index].occupied
    ensures Occupied(Emptied(slots, index), n) == Occupied(slots, n) - if index < n then 1 else 0
  {
  }

  lemma NoneOccupied(slots: seq<Slot>, n: nat)
    requires n <= |slots|
    ensures Occupied(slots, n) == 0 <==> forall i :: 0 <= i < n ==> !slots[i].occupied
  {
  }

  /** No packet that has waited for 40 ms or longer. */
  predicate Quiet(slots: seq<Slot>, now: u64) {
    forall i :: 0 <= i < |slots| && slots[i].occupied ==> now < slots[i].arrival + 40
  }

  lemma EmptyIsQuiet(slots: seq<Slot>, now: u64)
    requires |slots| == SLOTS && Occupied(slots, SLOTS) == 0
    ensures Quiet(slots, now)
  {
    NoneOccupied(slots, SLOTS);
  }

  lemma EarliestIsEarliest(slots: seq<Slot>, n: nat)
    requires n <= SLOTS == |slots|
    ensures forall i :: 0 <= i < n && slots[i].occupied ==> EarliestArrival(slots, n) <= slots[i].arrival
  {
  }

  lemma BeforeTheDeadlineIsQuiet(slots: seq<Slot>, now: u64)
    requires |slots| == SLOTS && now < GapDeadline(slots)
    ensures Quiet(slots, now)
  {
    EarliestIsEarliest(slots, SLOTS);
  }

  lemma NoneNearIsEmpty(slots: seq<Slot>, expected: u16)
    requires QueueOk(slots, expected) && Nearest(slots, expected, SLOTS) == SLOTS
    ensures !Waiting(slots) && Occupied(slots, SLOTS) == 0
  {
    NearestIsNearest(slots, expected, SLOTS);
    NoneOccupied(slots, SLOTS);
  }

  /** Nothing has entered the window. */
  predicate Thinned(before: seq<Slot>, after: seq<Slot>)
    requires |before| == |after|
  {
    forall i :: 0 <= i < |after| && after[i].occupied ==> after[i] == before[i]
  }

  /** What a pass may do to the window. */
  ghost predicate PassEffect(w: World, r: PassResult, now: u64, force: bool) {
    && |w.slots| == SLOTS && |r.world.slots| == SLOTS
    && r.world.books.accepted == w.books.accepted
    && r.world.f.hasSequence == w.f.hasSequence
    && r.world.f.generation == w.f.generation
    && (r.more ==>
         && r.status == 0 && r.world.f.lastReal > 0
         && Occupied(r.world.slots, SLOTS) == Occupied(w.slots, SLOTS) - 1)
    && (!r.more ==> r.world.slots == w.slots && r.world.f.lastReal == w.f.lastReal)
    && (r.status == 0 ==> r.world.f.gapSynthetic == 0)
    && Thinned(w.slots, r.world.slots)
    && (!r.more && r.status == 0 ==>
         && Quiet(r.world.slots, now)
         && (force ==> Occupied(w.slots, SLOTS) == 0))
  }

  lemma DeliverPassKeeps(x: World, faults: Faults, now: u64, index: nat, long: bool, force: bool)
    requires Inv(x) && x.f.hasSequence && Ready(x.slots, x.f, index, long)
    ensures Inv(Deliver(x, faults, now, index, long).0)
    ensures var (y, status) := Deliver(x, faults, now, index, long);
            PassEffect(x, PassResult(y, status, status == 0), now, force)
  {
    hide Deliver, Distance, BooksOk, ChainOk, Quiet;
    EmptyingCounts(x.slots, index, SLOTS);
    DeliverKeeps(x, faults, now, index, long);
    DeliverEffect(x, faults, now, index, long);
    assert 0 < |x.slots[index].samples|;
    hide Inv, WindowOk, Nearest, Occupied, Ready;
  }

  lemma FillKeeps(v: World, faults: Faults, now: u64, index: nat, force: bool)
    requires Inv(v) && index == Nearest(v.slots, v.f.expected, SLOTS) < SLOTS
    requires v.slots[index].sequence != v.f.expected && v.f.lastReal > 0
    ensures var r := Fill(v, faults, now, index, Distance(v.slots[index].sequence, v.f.expected));
            && Inv(r.world)
            && PassEffect(v, r, now, force)
            && (!r.more ==> r.status != 0)
  {
    hide Deliver, Conceal, BooksOk, ChainOk, Quiet, Occupied, TooLong;
    var missing := Distance(v.slots[index].sequence, v.f.expected);
    var long := TooLong(missing, v.f.lastReal);
    assert missing > 0;
    if v.f.gapSynthetic != 0 {
      assert Ready(v.slots, v.f, index, long);
      DeliverPassKeeps(v, faults, now, index, long, force);
    } else {
      ConcealKeeps(v, faults, now, missing);
      var (x, concealed) := Conceal(v, faults, now, missing);
      if concealed == 0 {
        assert Ready(x.slots, x.f, index, long);
        DeliverPassKeeps(x, faults, now, index, long, force);
      }
    }
  }

  lemma GapPassKeeps(w: World, faults: Faults, now: u64, force: bool, index: nat)
    requires Inv(w) && index == Nearest(w.slots, w.f.expected, SLOTS) < SLOTS
    requires w.slots[index].sequence != w.f.expected
    ensures Inv(Pass(w, faults, now, force).world)
    ensures PassEffect(w, Pass(w, faults, now, force), now, force)
  {
    hide Fill, BooksOk, ChainOk, Quiet, Occupied, QueueOk;
    var v := w.(f := w.f.(gapDeadline := GapDeadline(w.slots)));
    CountersAndClocksAreFree(w, v.f);
    NeverDividesByZero(w.slots, w.f);
    if !force && v.f.gapSynthetic == 0 && now < v.f.gapDeadline {
      BeforeTheDeadlineIsQuiet(w.slots, now);
    } else {
      FillKeeps(v, faults, now, index, force);
    }
  }

  lemma IdlePassKeeps(w: World, faults: Faults, now: u64, force: bool)
    requires Inv(w) && Nearest(w.slots, w.f.expected, SLOTS) == SLOTS
    ensures Inv(Pass(w, faults, now, force).world)
    ensures PassEffect(w, Pass(w, faults, now, force), now, force)
  {
    NoneNearIsEmpty(w.slots, w.f.expected);
    CountersAndClocksAreFree(w, w.f.(gapDeadline := 0));
    EmptyIsQuiet(w.slots, now);
    hide Nearest, Quiet, Occupied, BooksOk, ChainOk, QueueOk;
  }

  lemma PassKeeps(w: World, faults: Faults, now: u64, force: bool)
    requires Inv(w)
    ensures Inv(Pass(w, faults, now, force).world)
    ensures PassEffect(w, Pass(w, faults, now, force), now, force)
  {
    hide PassEffect, BooksOk, ChainOk;
    var index := Nearest(w.slots, w.f.expected, SLOTS);
    if index == SLOTS {
      IdlePassKeeps(w, faults, now, force);
    } else if w.slots[index].sequence == w.f.expected {
      assert Ready(w.slots, w.f, index, false);
      DeliverPassKeeps(w, faults, now, index, false, force);
    } else {
      GapPassKeeps(w, faults, now, force, index);
    }
  }

  /** The loop in `drain`: at most four passes, only the first one forced. */
  function Drain(w: World, faults: Faults, now: u64, force: bool, passes: nat): (r: (World, int))
    requires Inv(w)
    ensures r.1 <= 0 && Blamed(r.0, faults, r.1)
    decreases passes
  {
    if passes == 0 then (w, 0)
    else
      var r := Pass(w, faults, now, force);
      if !r.more then (r.world, r.status)
      else
        PassKeeps(w, faults, now, force);
        Drain(r.world, faults, now, false, passes - 1)
  }

  lemma {:induction false} DrainKeeps(w: World, faults: Faults, now: u64, force: bool, passes: nat)
    requires Inv(w)
    ensures var (x, status) := Drain(w, faults, now, force, passes);
            && Inv(x)
            && x.books.accepted == w.books.accepted
            && x.f.hasSequence == w.f.hasSequence && x.f.generation == w.f.generation
            && Occupied(x.slots, SLOTS) <= Occupied(w.slots, SLOTS)
            && (x.f.lastReal == 0 ==> w.f.lastReal == 0 && x.slots == w.slots)
            && (status == 0 && passes > 0 ==> x.f.gapSynthetic == 0)
            && Thinned(w.slots, x.slots)
            && (status == 0 && force && passes > 0 && Occupied(w.slots, SLOTS) > 0 ==>
                 Occupied(x.slots, SLOTS) < Occupied(w.slots, SLOTS))
            && (status == 0 && passes >= Occupied(w.slots, SLOTS) ==> Quiet(x.slots, now))
    decreases passes
  {
    hide Pass, Quiet, WindowOk, BooksOk, ChainOk, Occupied;
    if passes == 0 {
      if Occupied(w.slots, SLOTS) == 0 {
        EmptyIsQuiet(w.slots, now);
      }
    } else {
      PassKeeps(w, faults, now, force);
      var r := Pass(w, faults, now, force);
      if r.more {
        DrainKeeps(r.world, faults, now, false, passes - 1);
      }
    }
  }

  // ---------------------------------------------------------------------------
  // The two entry points.

  function FreeSlot(slots: seq<Slot>, n: nat): (k: nat)
    requires n <= SLOTS == |slots|
    ensures k <= SLOTS && (k < SLOTS ==> k < n && !slots[k].occupied)
    ensures k == SLOTS ==> forall i :: 0 <= i < n ==> slots[i].occupied
  {
    if n == 0 then SLOTS
    else if !slots[n - 1].occupied then n - 1
    else FreeSlot(slots, n - 1)
  }

  predicate IsQueued(slots: seq<Slot>, sequence: u16) {
    exists i :: 0 <= i < |slots| && slots[i].occupied && slots[i].sequence == sequence
  }

  /** Once bound, the window holds its first packet until that has gone out. */
  ghost predicate Steady(w: World) {
    Inv(w) && (w.f.hasSequence && w.f.lastReal == 0 ==> Waiting(w.slots))
  }

  /** Clock and generation are taken over, and the first packet sets the line. */
  function Bound(w: World, sequence: u16, generation: u64, now: u64): World {
    var f := w.f.(lastTimestamp := now,
                  generation := if w.f.generation == 0 then generation else w.f.generation);
    if f.hasSequence then w.(f := f)
    else w.(f := f.(expected := sequence, hasSequence := true),
            books := w.books.(position := sequence))
  }

  function RejectLate(w: World): (World, int) {
    (w.(f := w.f.(late := Increment(w.f.late))), 1)
  }

  function RejectDuplicate(w: World): (World, int) {
    (w.(f := w.f.(duplicates := Increment(w.f.duplicates))), 1)
  }

  function Accepting(b: Books, q: Packet): Books {
    b.(accepted := b.accepted + [q])
  }

  /** The number of packets the announced silence stands for. */
  ghost function Concealed(slots: seq<Slot>, f: Fields): u16
    requires WindowOk(slots, f) && f.gapSynthetic != 0
  {
    NearestIsNearest(slots, f.expected, SLOTS);
    Distance(slots[Nearest(slots, f.expected, SLOTS)].sequence, f.expected)
  }

  /** The packet sits in the free slot. */
  function Placed(w: World, samples: seq<byte>, sequence: u16, now: u64): World
    requires |w.slots| == SLOTS && FreeSlot(w.slots, SLOTS) < SLOTS
  {
    var distance := Distance(sequence, w.f.expected);
    w.(slots := w.slots[FreeSlot(w.slots, SLOTS) := Slot(samples, sequence, now, true)],
       f := w.f.(reordered := if distance != 0 then Increment(w.f.reordered) else w.f.reordered),
       books := Accepting(w.books, Packet(w.books.position + distance, sequence, samples)))
  }

  /** A packet that may wait: new, not late, and beyond any announced silence. */
  ghost predicate Admissible(w: World, samples: seq<byte>, sequence: u16) {
    && Inv(w) && w.f.hasSequence
    && 0 < |samples| <= MAX_SAMPLES
    && !IsQueued(w.slots, sequence)
    && Distance(sequence, w.f.expected) < HALF
    && (w.f.gapSynthetic != 0 ==> Distance(sequence, w.f.expected) > Concealed(w.slots, w.f))
    && (w.f.lastReal == 0 && !Waiting(w.slots) ==> sequence == w.f.expected)
  }

  lemma PlacedKeepsWindow(w: World, samples: seq<byte>, sequence: u16, now: u64)
    requires Admissible(w, samples, sequence) && FreeSlot(w.slots, SLOTS) < SLOTS
    ensures var x := Placed(w, samples, sequence, now);
            && WindowOk(x.slots, x.f) && Waiting(x.slots)
            && (w.f.gapSynthetic != 0 ==> Concealed(x.slots, x.f) == Concealed(w.slots, w.f))
  {
    hide BooksOk, ChainOk;
    var x := Placed(w, samples, sequence, now);
    var k := FreeSlot(w.slots, SLOTS);
    assert x.slots[k].occupied;
    assert forall i :: 0 <= i < SLOTS && w.slots[i].occupied ==> x.slots[i] == w.slots[i];
    assert QueueOk(x.slots, x.f.expected);
    NearestIsNearest(w.slots, w.f.expected, SLOTS);
    NearestIsNearest(x.slots, x.f.expected, SLOTS);
    if w.f.lastReal == 0 && Waiting(w.slots) {
      var i :| 0 <= i < SLOTS && w.slots[i].occupied && w.slots[i].sequence == w.f.expected;
      assert x.slots[i].occupied && x.slots[i].sequence == x.f.expected;
    }
    assert WindowOk(x.slots, x.f);
    if w.f.gapSynthetic != 0 {
      var n, m := Nearest(w.slots, w.f.expected, SLOTS), Nearest(x.slots, x.f.expected, SLOTS);
      assert x.slots[n].occupied && m != k;
    }
  }

  lemma PlacedKeeps(w: World, samples: seq<byte>, sequence: u16, now: u64)
    requires Admissible(w, samples, sequence) && FreeSlot(w.slots, SLOTS) < SLOTS
    ensures Steady(Placed(w, samples, sequence, now))
  {
    var x := Placed(w, samples, sequence, now);
    PlacedKeepsWindow(w, samples, sequence, now);
    PlacedKeepsBooks(w, samples, sequence, now);
    hide WindowOk, BooksOk, Distance;
  }

  lemma PlacedKeepsAccount(w: World, samples: seq<byte>, sequence: u16, now: u64)
    requires |w.slots| == SLOTS && FreeSlot(w.slots, SLOTS) < SLOTS
    requires AccountOk(w.slots, w.f, w.books)
    ensures var x := Placed(w, samples, sequence, now); AccountOk(x.slots, x.f, x.books)
  {
    hide Queued;
    var x, k := Placed(w, samples, sequence, now), FreeSlot(w.slots, SLOTS);
    var q := Packet(w.books.position + Distance(sequence, w.f.expected), sequence, samples);
    QueueLosesOne(x.slots, w.slots, k, w.f.expected, w.books.position, w.f.expected,
                  w.books.position, SLOTS);
    assert multiset(w.books.accepted + [q]) == multiset(w.books.accepted) + multiset{q};
  }

  lemma PlacedKeepsBooks(w: World, samples: seq<byte>, sequence: u16, now: u64)
    requires Admissible(w, samples, sequence) && FreeSlot(w.slots, SLOTS) < SLOTS
    requires WindowOk(Placed(w, samples, sequence, now).slots, Placed(w, samples, sequence, now).f)
    requires var x := Placed(w, samples, sequence, now);
             w.f.gapSynthetic != 0 ==> Concealed(x.slots, x.f) == Concealed(w.slots, w.f)
    ensures var x := Placed(w, samples, sequence, now); BooksOk(x.slots, x.f, x.books)
  {
    hide WindowOk, ChainOk, Rising, Render, Nearest, Queued, AccountOk;
    PlacedKeepsAccount(w, samples, sequence, now);
  }

  /** The expected packet at a full window goes straight out. */
  function Direct(w: World, faults: Faults, samples: seq<byte>, sequence: u16, now: u64): (r: (World, int))
    ensures r.1 <= 0 && Blamed(r.0, faults, r.1)
  {
    var (x, status) := Emit(w, faults, Emission(samples, sequence, w.f.generation, now, false, false));
    if status != 0 then (x, status)
    else
      var q := Packet(w.books.position, sequence, samples);
      (x.(f := x.f.(expected := Successor(sequence), lastReal := |samples|, gapDeadline := 0),
          books := Delivered(Accepting(x.books, q), q)), 0)
  }

  /** `df_gvs_audio_jitter_push` past its checks of input, generation and clock. */
  ghost function Admit(w: World, faults: Faults, samples: seq<byte>, sequence: u16, now: u64): (World, int)
    requires Inv(w) && w.f.hasSequence
    requires 0 < |samples| <= MAX_SAMPLES
    requires w.f.lastReal == 0 && !Waiting(w.slots) ==> sequence == w.f.expected
  {
    var distance := Distance(sequence, w.f.expected);
    if IsQueued(w.slots, sequence) then RejectDuplicate(w)
    else if w.f.lastReal != 0 && Successor(sequence) == w.f.expected then RejectDuplicate(w)
    else if distance >= HALF then RejectLate(w)
    else if w.f.gapSynthetic != 0 && distance < Concealed(w.slots, w.f) then RejectLate(w)
    else
      ConcealedIsQueued(w, sequence);
      Seat(w, faults, samples, sequence, now)
  }

  /** A free slot, the direct way out, or a slot freed by force. */
  ghost function Seat(w: World, faults: Faults, samples: seq<byte>, sequence: u16, now: u64): (World, int)
    requires Admissible(w, samples, sequence)
  {
    if FreeSlot(w.slots, SLOTS) < SLOTS then
      PlacedKeeps(w, samples, sequence, now);
      Drain(Placed(w, samples, sequence, now), faults, now, false, SLOTS)
    else if sequence == w.f.expected then
      DirectKeeps(w, faults, samples, sequence, now);
      var (x, status) := Direct(w, faults, samples, sequence, now);
      if status != 0 then (x, status) else Drain(x, faults, now, false, SLOTS)
    else
      MakingRoom(w, faults, samples, sequence, now);
      var (x, status) := Drain(w, faults, now, true, SLOTS);
      if status != 0 then (x, status)
      else if Distance(sequence, x.f.expected) >= HALF then RejectLate(x)
      else
        PlacedKeeps(x, samples, sequence, now);
        Drain(Placed(x, samples, sequence, now), faults, now, false, SLOTS)
  }

  lemma ConcealedIsQueued(w: World, sequence: u16)
    requires Inv(w) && !IsQueued(w.slots, sequence)
    ensures w.f.gapSynthetic != 0 ==> Distance(sequence, w.f.expected) != Concealed(w.slots, w.f)
  {
    hide BooksOk, ChainOk;
    if w.f.gapSynthetic != 0 {
      NearestIsNearest(w.slots, w.f.expected, SLOTS);
      assert w.slots[Nearest(w.slots, w.f.expected, SLOTS)].occupied;
    }
  }

  /** A forced drain of a full window frees a slot for a packet that is still ahead. */
  lemma MakingRoom(w: World, faults: Faults, samples: seq<byte>, sequence: u16, now: u64)
    requires Inv(w) && w.f.hasSequence && 0 < |samples| <= MAX_SAMPLES
    requires FreeSlot(w.slots, SLOTS) == SLOTS && !IsQueued(w.slots, sequence)
    ensures var (x, status) := Drain(w, faults, now, true, SLOTS);
            && Inv(x) && x.f.hasSequence && x.f.generation == w.f.generation
            && (status == 0 ==> FreeSlot(x.slots, SLOTS) < SLOTS && x.f.lastReal > 0)
            && (status == 0 && Distance(sequence, x.f.expected) < HALF ==>
                 Admissible(x, samples, sequence))
  {
    hide WindowOk, BooksOk, ChainOk, Drain;
    FullCounts(w.slots, SLOTS);
    DrainKeeps(w, faults, now, true, SLOTS);
    var (x, status) := Drain(w, faults, now, true, SLOTS);
    if FreeSlot(x.slots, SLOTS) == SLOTS {
      FullCounts(x.slots, SLOTS);
    }
    ThinnedQueue(w.slots, x.slots, sequence);
  }

  lemma ThinnedQueue(before: seq<Slot>, after: seq<Slot>, sequence: u16)
    requires |before| == |after| && Thinned(before, after)
    ensures IsQueued(after, sequence) ==> IsQueued(before, sequence)
  {
  }

  lemma FullCounts(slots: seq<Slot>, n: nat)
    requires n <= |slots| && forall i :: 0 <= i < n ==> slots[i].occupied
    ensures Occupied(slots, n) == n
  {
  }

  lemma {:induction false} QueueMoves(slots: seq<Slot>, e0: u16, p0: nat, e1: u16, p1: nat, n: nat)
    requires n <= |slots|
    requires forall i :: 0 <= i < n ==> Held(slots[i], e0, p0) == Held(slots[i], e1, p1)
    ensures Queued(slots, n, e0, p0) == Queued(slots, n, e1, p1)
  {
    if n > 0 {
      QueueMoves(slots, e0, p0, e1, p1, n - 1);
    }
  }

  lemma QueueStays(slots: seq<Slot>, near: u16, position: nat)
    requires QueueOk(slots, near) && !IsQueued(slots, near)
    ensures QueueOk(slots, Successor(near))
    ensures Queued(slots, SLOTS, near, position)
         == Queued(slots, SLOTS, Successor(near), position + 1)
  {
    forall i | 0 <= i < SLOTS
      ensures slots[i].occupied ==> SlotOk(slots[i], Successor(near))
      ensures Held(slots[i], near, position) == Held(slots[i], Successor(near), position + 1)
    {
      if slots[i].occupied {
        OthersStay(slots[i].sequence, near, near);
      }
      HeldStays(slots[i], near, near, position);
    }
    QueueMoves(slots, near, position, Successor(near), position + 1, SLOTS);
  }

  /** The fields once the packet `e` has gone straight out. */
  function Skipped(f: Fields, sequence: u16, count: nat): Fields {
    f.(expected := Successor(sequence), lastReal := count, gapDeadline := 0)
  }

  lemma DirectKeepsWindow(slots: seq<Slot>, f: Fields, count: nat)
    requires WindowOk(slots, f) && f.hasSequence && !IsQueued(slots, f.expected)
    requires 0 < count <= MAX_SAMPLES && f.gapSynthetic == 0
    ensures WindowOk(slots, Skipped(f, f.expected, count))
  {
    QueueStays(slots, f.expected, 0);
    hide Queued, QueueOk, Successor;
  }

  lemma DirectKeepsLink(slots: seq<Slot>, f: Fields, b: Books, samples: seq<byte>)
    requires WindowOk(slots, f) && f.hasSequence && LinkOk(f, b) && LogOk(slots, f, b)
    requires 0 < |samples| <= MAX_SAMPLES && f.gapSynthetic == 0
    ensures var q := Packet(b.position, f.expected, samples);
            var c := Delivered(Accepting(Logged(b, Sound(samples, f.expected, false, false)), q), q);
            && LinkOk(Skipped(f, f.expected, |samples|), c)
            && c.log == Render(c.delivered)
  {
    RenderNext(b.delivered, Packet(b.position, f.expected, samples), 0);
    hide Rising, Render, QueueOk, Nearest, Successor;
  }

  lemma DirectKeepsAccount(slots: seq<Slot>, f: Fields, b: Books, q: Packet, g: Fields, c: Books)
    requires QueueOk(slots, f.expected) && !IsQueued(slots, f.expected) && AccountOk(slots, f, b)
    requires g.expected == Successor(f.expected) && c.position == b.position + 1
    requires c.accepted == b.accepted + [q] && c.delivered == b.delivered + [q]
    ensures AccountOk(slots, g, c)
  {
    QueueStays(slots, f.expected, b.position);
    hide Queued, QueueOk;
    assert multiset(b.delivered + [q]) == multiset(b.delivered) + multiset{q};
    assert multiset(b.accepted + [q]) == multiset(b.accepted) + multiset{q};
  }

  lemma DirectKeepsBooks(slots: seq<Slot>, f: Fields, b: Books, samples: seq<byte>)
    requires WindowOk(slots, f) && f.hasSequence && BooksOk(slots, f, b)
    requires 0 < |samples| <= MAX_SAMPLES
    requires !IsQueued(slots, f.expected) && f.gapSynthetic == 0
    ensures var g := Skipped(f, f.expected, |samples|);
            var q := Packet(b.position, f.expected, samples);
            var c := Delivered(Accepting(Logged(b, Sound(samples, f.expected, false, false)), q), q);
            WindowOk(slots, g) && BooksOk(slots, g, c)
  {
    hide Render, Rising, Queued, Nearest, QueueOk, Successor;
    var q := Packet(b.position, f.expected, samples);
    var g := Skipped(f, f.expected, |samples|);
    var c := Delivered(Accepting(Logged(b, Sound(samples, f.expected, false, false)), q), q);
    DirectKeepsWindow(slots, f, |samples|);
    DirectKeepsLink(slots, f, b, samples);
    DirectKeepsAccount(slots, f, b, q, g, c);
  }

  lemma DirectKeepsChain(w: World, faults: Faults, samples: seq<byte>, sequence: u16, now: u64)
    requires WindowOk(w.slots, w.f) && w.f.hasSequence && BooksOk(w.slots, w.f, w.books)
    requires ChainOk(w) && w.tries < TRIES_LIMIT
    requires 0 < |samples| <= MAX_SAMPLES
    requires sequence == w.f.expected && w.f.gapSynthetic == 0
    ensures Push(w.playout, Emission(samples, sequence, w.f.generation, now, false, false)).1 == 0
    ensures faults(w.tries) == 0 ==> ChainOk(Direct(w, faults, samples, sequence, now).0)
  {
    var p := w.playout;
    var q := if p.flags.generation == 0 then Restarted(w.f.generation) else p;
    StoreTakesRealPackets(q.buffer, Emission(samples, sequence, w.f.generation, now, false, false),
                          w.tries, 0, false);
  }

  lemma DirectKeeps(w: World, faults: Faults, samples: seq<byte>, sequence: u16, now: u64)
    requires Inv(w) && w.f.hasSequence && 0 < |samples| <= MAX_SAMPLES
    requires FreeSlot(w.slots, SLOTS) == SLOTS && !IsQueued(w.slots, sequence)
    requires sequence == w.f.expected && w.f.gapSynthetic == 0
    ensures Inv(Direct(w, faults, samples, sequence, now).0)
    ensures Direct(w, faults, samples, sequence, now).1 != 0 ==>
              Untouched(w, Direct(w, faults, samples, sequence, now).0)
  {
    var e := Emission(samples, sequence, w.f.generation, now, false, false);
    if w.tries < TRIES_LIMIT {
      DirectKeepsChain(w, faults, samples, sequence, now);
    }
    if Emit(w, faults, e).1 != 0 {
      FailureKeeps(w, faults, e);
    } else {
      DirectKeepsBooks(w.slots, w.f, w.books, samples);
      hide Push, WindowOk, BooksOk, ChainOk, Successor;
    }
  }

  // ---------------------------------------------------------------------------
  // Each entry point keeps everything.

  lemma DrainStaysSteady(w: World, faults: Faults, now: u64, force: bool)
    requires Steady(w)
    ensures Steady(Drain(w, faults, now, force, SLOTS).0)
  {
    hide WindowOk, BooksOk, ChainOk, Drain, Waiting;
    DrainKeeps(w, faults, now, force, SLOTS);
  }

  /** What an admitted packet's fate says about the books: 0 means this packet, and only
      it, was accepted; 1 means it was not; a callback error may come before or after. */
  ghost predicate Recorded(w: World, samples: seq<byte>, sequence: u16, x: World, status: int) {
    var a, b := w.books.accepted, x.books.accepted;
    && (b == a || (|b| == |a| + 1 && b[..|a|] == a &&
                   b[|a|].sequence == sequence && b[|a|].samples == samples))
    && (status == 0 ==> b != a)
    && (status > 0 ==> b == a)
  }

  lemma DrainAfter(w: World, faults: Faults, now: u64, x: World, samples: seq<byte>, sequence: u16)
    requires Steady(x)
    requires |x.books.accepted| == |w.books.accepted| + 1
    requires x.books.accepted[..|w.books.accepted|] == w.books.accepted
    requires x.books.accepted[|w.books.accepted|].sequence == sequence
    requires x.books.accepted[|w.books.accepted|].samples == samples
    ensures var (y, status) := Drain(x, faults, now, false, SLOTS);
            && Steady(y) && status <= 0
            && Recorded(w, samples, sequence, y, status)
            && (status == 0 ==> Quiet(y.slots, now))
  {
    hide WindowOk, BooksOk, ChainOk, Drain, Quiet;
    DrainStaysSteady(x, faults, now, false);
    DrainKeeps(x, faults, now, false, SLOTS);
    AtMost(x.slots, SLOTS);
  }

  lemma AtMost(slots: seq<Slot>, n: nat)
    requires n <= |slots|
    ensures Occupied(slots, n) <= n
  {
  }

  lemma DirectEffect(w: World, faults: Faults, samples: seq<byte>, sequence: u16, now: u64)
    requires Direct(w, faults, samples, sequence, now).1 == 0
    ensures var x := Direct(w, faults, samples, sequence, now).0;
            && x.f.lastReal == |samples|
            && x.books.accepted == w.books.accepted + [Packet(w.books.position, sequence, samples)]
  {
    hide Push;
  }

  ghost predicate Outcome(w: World, samples: seq<byte>, sequence: u16, now: u64, r: (World, int)) {
    && Steady(r.0)
    && Recorded(w, samples, sequence, r.0, r.1)
    && (r.1 == 0 ==> Quiet(r.0.slots, now))
  }

  lemma RejectionKeeps(w: World, x: World, samples: seq<byte>, sequence: u16, now: u64)
    requires Steady(x) && x.books.accepted == w.books.accepted
    ensures Outcome(w, samples, sequence, now, RejectLate(x))
    ensures Outcome(w, samples, sequence, now, RejectDuplicate(x))
  {
    CountersAndClocksAreFree(x, RejectLate(x).0.f);
    CountersAndClocksAreFree(x, RejectDuplicate(x).0.f);
    hide WindowOk, BooksOk, ChainOk;
  }

  lemma SeatKeeps(w: World, faults: Faults, samples: seq<byte>, sequence: u16, now: u64)
    requires Admissible(w, samples, sequence)
    ensures Outcome(w, samples, sequence, now, Seat(w, faults, samples, sequence, now))
  {
    hide WindowOk, BooksOk, ChainOk, Drain, Quiet, Direct, Placed;
    if FreeSlot(w.slots, SLOTS) < SLOTS {
      PlacedKeeps(w, samples, sequence, now);
      PlacedEffect(w, samples, sequence, now);
      DrainAfter(w, faults, now, Placed(w, samples, sequence, now), samples, sequence);
    } else if sequence == w.f.expected {
      DirectKeeps(w, faults, samples, sequence, now);
      var (x, status) := Direct(w, faults, samples, sequence, now);
      if status == 0 {
        DirectEffect(w, faults, samples, sequence, now);
        DrainAfter(w, faults, now, x, samples, sequence);
      } else {
        assert w.slots[0].occupied;
      }
    } else {
      MakingRoom(w, faults, samples, sequence, now);
      DrainKeeps(w, faults, now, true, SLOTS);
      var (x, status) := Drain(w, faults, now, true, SLOTS);
      if status != 0 {
        assert w.slots[0].occupied;
        DrainStaysSteady(w, faults, now, true);
      } else if Distance(sequence, x.f.expected) >= HALF {
        RejectionKeeps(w, x, samples, sequence, now);
      } else {
        PlacedKeeps(x, samples, sequence, now);
        PlacedEffect(x, samples, sequence, now);
        DrainAfter(w, faults, now, Placed(x, samples, sequence, now), samples, sequence);
      }
    }
  }

  lemma PlacedEffect(w: World, samples: seq<byte>, sequence: u16, now: u64)
    requires |w.slots| == SLOTS && FreeSlot(w.slots, SLOTS) < SLOTS
    ensures var distance := Distance(sequence, w.f.expected);
            Placed(w, samples, sequence, now).books.accepted ==
            w.books.accepted + [Packet(w.books.position + distance, sequence, samples)]
  {
  }

  lemma AdmitKeeps(w: World, faults: Faults, samples: seq<byte>, sequence: u16, now: u64)
    requires Inv(w) && w.f.hasSequence && 0 < |samples| <= MAX_SAMPLES
    requires w.f.lastReal == 0 && !Waiting(w.slots) ==> sequence == w.f.expected
    ensures Outcome(w, samples, sequence, now, Admit(w, faults, samples, sequence, now))
  {
    hide BooksOk, ChainOk, Seat, Outcome;
    ConcealedOrNot(w, sequence);
    var distance := Distance(sequence, w.f.expected);
    if IsQueued(w.slots, sequence) || (w.f.lastReal != 0 && Successor(sequence) == w.f.expected) ||
       distance >= HALF || (w.f.gapSynthetic != 0 && distance < Concealed(w.slots, w.f)) {
      RejectionKeeps(w, w, samples, sequence, now);
    } else {
      ConcealedIsQueued(w, sequence);
      SeatKeeps(w, faults, samples, sequence, now);
    }
  }

  lemma ConcealedOrNot(w: World, sequence: u16)
    requires Inv(w)
    ensures w.f.gapSynthetic != 0 ==> w.f.lastReal != 0
    ensures IsQueued(w.slots, sequence) ==> Waiting(w.slots)
  {
  }

  /** `df_gvs_audio_jitter_push`. */
  ghost function Arrive(w: World, faults: Faults, samples: seq<byte>, sequence: u16, generation: u64,
                        now: u64): (World, int)
    requires Steady(w)
  {
    if |samples| == 0 || |samples| > MAX_SAMPLES || generation == 0 then (w, -1)
    else if w.f.generation != 0 && generation != w.f.generation then (w, 1)
    else if w.f.generation == 0 && !w.f.autoBind then (w, 1)
    else if now < w.f.lastTimestamp then (w, -1)
    else
      BoundKeeps(w, sequence, generation, now);
      Admit(Bound(w, sequence, generation, now), faults, samples, sequence, now)
  }

  lemma BoundKeeps(w: World, sequence: u16, generation: u64, now: u64)
    requires Steady(w) && generation != 0
    requires w.f.generation == 0 ==> w.f.autoBind
    requires w.f.generation != 0 ==> generation == w.f.generation
    ensures var v := Bound(w, sequence, generation, now);
            && Inv(v) && v.f.hasSequence && v.books.accepted == w.books.accepted
            && (v.f.lastReal == 0 && !Waiting(v.slots) ==> sequence == v.f.expected)
  {
    hide Nearest, Distance, Successor, Render;
    if w.f.hasSequence {
      CountersAndClocksAreFree(w, w.f.(lastTimestamp := now));
    } else {
      FirstPacketSetsTheLine(w, sequence, generation, now);
    }
  }

  lemma FirstPacketSetsTheLine(w: World, sequence: u16, generation: u64, now: u64)
    requires Inv(w) && generation != 0 && !w.f.hasSequence
    requires w.f.generation == 0 ==> w.f.autoBind
    requires w.f.generation != 0 ==> generation == w.f.generation
    ensures Inv(Bound(w, sequence, generation, now))
  {
    hide Nearest, Distance, Successor;
    EmptyQueue(w.slots, SLOTS, w.f.expected, w.books.position);
    EmptyQueue(w.slots, SLOTS, sequence, sequence);
  }

  lemma {:induction false} EmptyQueue(slots: seq<Slot>, n: nat, expected: u16, position: nat)
    requires n <= |slots| && !Waiting(slots)
    ensures Queued(slots, n, expected, position) == multiset{}
  {
    if n > 0 {
      EmptyQueue(slots, n - 1, expected, position);
    }
  }

  /** `df_gvs_audio_jitter_tick`. */
  function Clock(w: World, faults: Faults, now: u64): (r: (World, int))
    requires Inv(w)
    ensures now >= w.f.lastTimestamp ==> Blamed(r.0, faults, r.1)
  {
    if now < w.f.lastTimestamp then (w, -1)
    else
      CountersAndClocksAreFree(w, w.f.(lastTimestamp := now));
      Drain(w.(f := w.f.(lastTimestamp := now)), faults, now, false, SLOTS)
  }

  /** After a successful tick no packet that arrived 40 ms ago or earlier is queued. */
  lemma ClockKeeps(w: World, faults: Faults, now: u64)
    requires Steady(w)
    ensures var (x, status) := Clock(w, faults, now);
            && Steady(x)
            && x.books.accepted == w.books.accepted
            && (status == 0 ==> Quiet(x.slots, now))
  {
    var v := w.(f := w.f.(lastTimestamp := now));
    CountersAndClocksAreFree(w, v.f);
    hide WindowOk, BooksOk, ChainOk, Drain, Quiet;
    if now >= w.f.lastTimestamp {
      DrainStaysSteady(v, faults, now, false);
      DrainKeeps(v, faults, now, false, SLOTS);
      AtMost(v.slots, SLOTS);
    }
  }

  /** A publication round of the playout in between. */
  function Publish(w: World, now: u64, response: int): World {
    if Tickable(w.playout) then w.(playout := Tick(w.playout, now, response).playout) else w
  }

  lemma PublishKeeps(w: World, now: u64, response: int)
    requires Steady(w)
    ensures Steady(Publish(w, now, response))
  {
    hide WindowOk, BooksOk;
  }

  // ---------------------------------------------------------------------------
  // Whole runs.

  datatype Event =
    | PacketArrives(samples: seq<byte>, sequence: u16, generation: u64, now: u64)
    | ClockTicks(now: u64)
    | PublisherRuns(now: u64, response: int)

  const EMPTY_SLOT := Slot([], 0, 0, false)

  /** Both components just initialized, or both just reset to the same generation. */
  function Start(generation: u64, reset: bool): World {
    World([EMPTY_SLOT, EMPTY_SLOT, EMPTY_SLOT, EMPTY_SLOT],
          Fields(if reset then generation else 0, 0, false, !reset, 0, 0, 0, 0, 0, 0, 0),
          Books(0, [], [], []),
          if reset then Restarted(generation) else Fresh(), 0, 0)
  }

  /** One call; `RunsStaySteady` shows that the guard always holds. */
  ghost function Next(w: World, faults: Faults, event: Event): World {
    if !Steady(w) then w
    else
      match event
      case PacketArrives(samples, sequence, generation, now) =>
        Arrive(w, faults, samples, sequence, generation, now).0
      case ClockTicks(now) => Clock(w, faults, now).0
      case PublisherRuns(now, response) => Publish(w, now, response)
  }

  lemma NextKeeps(w: World, faults: Faults, event: Event)
    requires Steady(w)
    ensures Steady(Next(w, faults, event))
  {
    hide WindowOk, BooksOk, ChainOk, Admit, Clock, Publish, Recorded;
    match event {
      case PacketArrives(samples, sequence, generation, now) =>
        if 0 < |samples| <= MAX_SAMPLES && generation != 0 &&
           (w.f.generation == 0 ==> w.f.autoBind) &&
           (w.f.generation != 0 ==> generation == w.f.generation) {
          BoundKeeps(w, sequence, generation, now);
          AdmitKeeps(Bound(w, sequence, generation, now), faults, samples, sequence, now);
        }
      case ClockTicks(now) => ClockKeeps(w, faults, now);
      case PublisherRuns(now, response) => PublishKeeps(w, now, response);
    }
  }

  ghost function Run(w: World, faults: Faults, events: seq<Event>): World {
    if events == [] then w
    else Next(Run(w, faults, events[..|events| - 1]), faults, events[|events| - 1])
  }

  lemma {:induction false} RunsStaySteady(generation: u64, reset: bool, faults: Faults, events: seq<Event>)
    ensures Steady(Run(Start(generation, reset), faults, events))
  {
    if events == [] {
      StartIsSteady(generation, reset);
    } else {
      RunsStaySteady(generation, reset, faults, events[..|events| - 1]);
      NextKeeps(Run(Start(generation, reset), faults, events[..|events| - 1]), faults,
                events[|events| - 1]);
    }
  }

  lemma StartIsSteady(generation: u64, reset: bool)
    ensures Steady(Start(generation, reset))
  {
    EmptyQueue(Start(generation, reset).slots, SLOTS, 0, 0);
  }

  /** With the window emitting into the playout on one generation, no emission is ever
      answered duplicate, late or stale, whatever arrives, whatever the publisher does,
      and wherever a callback fails, for as long as the callback count stays below 2^48. */
  lemma EveryEmissionIsTaken(generation: u64, reset: bool, faults: Faults, events: seq<Event>)
    ensures var w := Run(Start(generation, reset), faults, events);
            w.tries <= TRIES_LIMIT ==> w.refused == 0
  {
    RunsStaySteady(generation, reset, faults, events);
  }

  /** So a queued packet is never stuck: once it has waited 40 ms, a tick sends it on,
      unless the callback itself fails. */
  lemma OnlyFaultsHoldPacketsBack(generation: u64, reset: bool, faults: Faults, events: seq<Event>,
                                  now: u64)
    ensures var w := Run(Start(generation, reset), faults, events);
            Steady(w) && Unstuck(w, faults, now)
  {
    RunsStaySteady(generation, reset, faults, events);
    var w := Run(Start(generation, reset), faults, events);
    hide Run, Steady, Unstuck;
    ClockIsUnstuck(w, faults, now);
  }

  ghost predicate Unstuck(w: World, faults: Faults, now: u64)
    requires Inv(w)
  {
    var (x, status) := Clock(w, faults, now);
    now >= w.f.lastTimestamp && x.tries <= TRIES_LIMIT ==>
      if status == 0 then Quiet(x.slots, now) else x.tries > w.tries && faults(x.tries - 1) != 0
  }

  lemma ClockIsUnstuck(w: World, faults: Faults, now: u64)
    requires Steady(w)
    ensures Unstuck(w, faults, now)
  {
    hide WindowOk, BooksOk, Quiet, Drain;
    ClockKeeps(w, faults, now);
    ClockAttempts(w, faults, now);
  }

  lemma ClockAttempts(w: World, faults: Faults, now: u64)
    requires Steady(w)
    ensures now >= w.f.lastTimestamp && Clock(w, faults, now).1 != 0 ==>
              Clock(w, faults, now).0.tries > w.tries
  {
    var v := w.(f := w.f.(lastTimestamp := now));
    CountersAndClocksAreFree(w, v.f);
    DrainAttempts(v, faults, now, false, SLOTS);
    hide WindowOk, BooksOk, ChainOk, Drain;
  }

  lemma {:induction false} DrainAttempts(w: World, faults: Faults, now: u64, force: bool, passes: nat)
    requires Inv(w)
    ensures var (x, status) := Drain(w, faults, now, force, passes);
            x.tries >= w.tries && (status != 0 ==> x.tries > w.tries)
    decreases passes
  {
    hide WindowOk, BooksOk, ChainOk, Pass, PassEffect;
    if passes > 0 {
      PassKeeps(w, faults, now, force);
      PassAttempts(w, faults, now, force);
      if Pass(w, faults, now, force).more {
        DrainAttempts(Pass(w, faults, now, force).world, faults, now, false, passes - 1);
      }
    }
  }

  lemma PassAttempts(w: World, faults: Faults, now: u64, force: bool)
    requires WindowOk(w.slots, w.f)
    ensures var r := Pass(w, faults, now, force);
            r.world.tries >= w.tries && (r.status != 0 ==> r.world.tries > w.tries)
  {
    hide Push, Nearest, Distance;
  }

  /** The queued packet closest ahead, `missing` numbers beyond the next one expected. */
  predicate IsNext(slots: seq<Slot>, expected: u16, k: nat, missing: nat) {
    && k < |slots| && slots[k].occupied && missing == Distance(slots[k].sequence, expected)
    && forall i :: 0 <= i < |slots| && slots[i].occupied ==> missing <= Distance(slots[i].sequence, expected)
  }

  /** What is heard is exactly the delivered packets, in rising order of their unwrapped
      numbers, each gap bridged by one silence of the right length; while a silence has been
      announced and its packet has not followed yet, exactly that silence comes after them,
      of the length of the gap before the closest packet queued. */
  lemma HeardInOrder(generation: u64, reset: bool, faults: Faults, events: seq<Event>)
    ensures var w := Run(Start(generation, reset), faults, events);
            && Rising(w.books.delivered)
            && (w.f.gapSynthetic == 0 ==> w.books.log == Render(w.books.delivered))
            && (w.f.gapSynthetic != 0 ==>
                  && w.books.delivered != []
                  && exists k: nat, missing: nat ::
                       && IsNext(w.slots, w.f.expected, k, missing) && 0 < missing < HALF
                       && w.books.log == Render(w.books.delivered) + [GapSound(Last(w.books.delivered), missing)])
  {
    RunsStaySteady(generation, reset, faults, events);
    var w := Run(Start(generation, reset), faults, events);
    hide Run, Render, GapSound, ChainOk, AccountOk, Rising;
    if w.f.gapSynthetic != 0 {
      NearestIsNearest(w.slots, w.f.expected, SLOTS);
      var k := Nearest(w.slots, w.f.expected, SLOTS);
      assert IsNext(w.slots, w.f.expected, k, Distance(w.slots[k].sequence, w.f.expected));
    }
  }

  /** Each accepted packet is delivered with its own bytes, once, or is still queued. */
  lemma NothingLostOrDoubled(generation: u64, reset: bool, faults: Faults, events: seq<Event>)
    ensures var w := Run(Start(generation, reset), faults, events);
            && |w.slots| == SLOTS
            && multiset(w.books.accepted) ==
               multiset(w.books.delivered) + Queued(w.slots, SLOTS, w.f.expected, w.books.position)
            && forall i, j :: 0 <= i < j < |w.books.delivered| ==>
                 w.books.delivered[i].position < w.books.delivered[j].position
  {
    RunsStaySteady(generation, reset, faults, events);
    var w := Run(Start(generation, reset), faults, events);
    forall i, j | 0 <= i < j < |w.books.delivered|
      ensures w.books.delivered[i].position < w.books.delivered[j].position
    {
      PositionsRise(w.books.delivered, i, j);
    }
  }

  lemma {:induction false} PositionsRise(d: seq<Packet>, i: nat, j: nat)
    requires Rising(d) && i < j < |d|
    ensures d[i].position < d[j].position
  {
    assert Follows(d[j - 1], d[j]);
    if i < j - 1 {
      PositionsRise(d, i, j - 1);
    }
  }
}
