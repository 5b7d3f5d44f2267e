/** The end-to-end promise of the reorder window: a stream that arrives shuffled, but not too
    far and not too late, is heard whole and in order. */
module AudioOrders {
  import opened Words
  import AudioPlayouts
  import opened AudioJitters
  import opened AudioAdmissions

  // ---------------------------------------------------------------------------
  // Shuffled streams.

  /** Packet `number` of the stream comes, time passes, or the publisher runs. */
  datatype Happening =
    | Comes(number: nat, samples: seq<byte>, now: u64)
    | Ticks(now: u64)
    | Publishes(now: u64, response: int)

  /** The stream starts at `base` and wraps as 16-bit numbers do. */
  function Numbered(base: u16, number: nat): u16 {
    (base + number) % U16_SIZE
  }

  function EventOf(h: Happening, base: u16, generation: u64): Event {
    match h
    case Comes(number, samples, now) => PacketArrives(samples, Numbered(base, number), generation, now)
    case Ticks(now) => ClockTicks(now)
    case Publishes(now, response) => PublisherRuns(now, response)
  }

  function EventsOf(hs: seq<Happening>, base: u16, generation: u64): (events: seq<Event>)
    ensures |events| == |hs|
    ensures forall k :: 0 <= k < |hs| ==> events[k] == EventOf(hs[k], base, generation)
  {
    seq(|hs|, k requires 0 <= k < |hs| => EventOf(hs[k], base, generation))
  }

  predicate Arrived(hs: seq<Happening>, number: nat) {
    exists j :: 0 <= j < |hs| && hs[j].Comes? && hs[j].number == number
  }

  predicate AllBefore(hs: seq<Happening>, number: nat) {
    forall m :: 0 <= m < number ==> Arrived(hs, m)
  }

  /** One that came while one before it is still missing. */
  predicate Waits(hs: seq<Happening>, j: nat)
    requires j < |hs|
  {
    hs[j].Comes? && !AllBefore(hs, hs[j].number)
  }

  /** There are not four of them. */
  predicate Room(hs: seq<Happening>) {
    forall a, b, c, d :: 0 <= a < |hs| && 0 <= b < |hs| && 0 <= c < |hs| && 0 <= d < |hs| &&
                         Waits(hs, a) && Waits(hs, b) && Waits(hs, c) && Waits(hs, d) ==>
      a == b || a == c || a == d || b == c || b == d || c == d
  }

  /** At `now` nothing has waited for 40 ms. */
  predicate Patient(hs: seq<Happening>, now: u64) {
    forall j :: 0 <= j < |hs| && Waits(hs, j) ==> now < Min(hs[j].now + 40, U64_MAX)
  }

  predicate Timed(h: Happening) {
    !h.Publishes?
  }

  /** The shuffle is mild: the first packet is the stream's first, none comes twice, none is
      half the circle ahead of a missing one, at most four wait, and none waits too long. */
  predicate Mild(hs: seq<Happening>, k: nat)
    requires k < |hs|
  {
    var h, before := hs[k], hs[..k];
    && (Timed(h) ==> Patient(hs[..k + 1], h.now) && forall j :: 0 <= j < k && Timed(hs[j]) ==> hs[j].now <= h.now)
    && (h.Comes? ==>
          && 0 < |h.samples| <= 256 && !Arrived(before, h.number)
          && ((forall j :: 0 <= j < k ==> !hs[j].Comes?) ==> h.number == 0)
          && (forall m :: 0 <= m < h.number && !Arrived(before, m) ==> h.number - m < 32768)
          && (AllBefore(before, h.number) || Room(before)))
  }

  /** The packets that came, as they came, at their places on the line. */
  function Sent(hs: seq<Happening>, base: u16): seq<Packet> {
    if hs == [] then []
    else
      var rest, h := Sent(hs[..|hs| - 1], base), hs[|hs| - 1];
      if h.Comes? then rest + [Packet(base + h.number, Numbered(base, h.number), h.samples)] else rest
  }

  // ---------------------------------------------------------------------------
  // A drain that no gap disturbs.

  predicate HasAt(slots: seq<Slot>, expected: u16, offset: nat) {
    exists i :: 0 <= i < |slots| && slots[i].occupied && Ahead(slots, expected, i) == offset
  }

  /** What waits behind a gap is not overdue. */
  predicate Calm(slots: seq<Slot>, expected: u16, now: u64) {
    forall b, q :: 0 <= b && 0 <= q < |slots| && slots[q].occupied && b < Ahead(slots, expected, q) && !HasAt(slots, expected, b) ==>
      !Overdue(slots[q], now)
  }

  lemma StepBack(slots: seq<Slot>, expected: u16, i: nat, j: nat)
    requires i < |slots| && j < |slots| && Successor(slots[j].sequence) == slots[i].sequence
    requires slots[i].sequence != expected
    ensures Ahead(slots, expected, j) == Ahead(slots, expected, i) - 1
  {
  }

  lemma {:induction false} NoGapBefore(slots: seq<Slot>, expected: u16, now: u64, i: nat, offset: nat)
    requires i < |slots| && Leaves(slots, expected, now, false, i) && offset <= Ahead(slots, expected, i)
    requires Calm(slots, expected, now)
    ensures HasAt(slots, expected, offset)
    decreases Ahead(slots, expected, i) - offset
  {
    if offset < Ahead(slots, expected, i) {
      NoGapBefore(slots, expected, now, i, offset + 1);
      var q :| 0 <= q < |slots| && slots[q].occupied && Ahead(slots, expected, q) == offset + 1;
      assert Unblocked(slots, expected, now, false, q);
      if j :| 0 <= j < |slots| && slots[j].occupied && Successor(slots[j].sequence) == slots[q].sequence {
        StepBack(slots, expected, q, j);
      } else {
        assert slots[q].sequence != expected;
        var r :| 0 <= r < |slots| && slots[r].occupied && Overdue(slots[r], now) && offset + 1 <= Ahead(slots, expected, r);
        assert !(offset < Ahead(slots, expected, r)) || HasAt(slots, expected, offset);
      }
    }
  }

  /** A calm drain lets out exactly the unbroken row that starts at the expected packet. */
  lemma CalmDrain(slots: seq<Slot>, expected: u16, now: u64, final: seq<Slot>, next: u16, steps: int)
    requires QueueOk(slots, expected) && LetOut(slots, expected, now, false, final, next, steps)
    requires Calm(slots, expected, now)
    ensures |final| == SLOTS && 0 <= steps <= HALF && Distance(next, expected) == steps
    ensures forall offset :: 0 <= offset < steps ==> HasAt(slots, expected, offset)
    ensures !HasAt(slots, expected, steps)
    ensures forall i :: 0 <= i < SLOTS && final[i].occupied ==> final[i] == slots[i] && Ahead(slots, expected, i) > steps
  {
    if i :| 0 <= i < |slots| && LeavesLast(slots, expected, now, false, i) && next == Successor(slots[i].sequence)
            && steps == Ahead(slots, expected, i) + 1 {
      assert SlotOk(slots[i], expected);
      forall offset | 0 <= offset < steps
        ensures HasAt(slots, expected, offset)
      {
        NoGapBefore(slots, expected, now, i, offset);
      }
      BehindLast(slots, expected, now, i);
    } else {
      forall i | 0 <= i < SLOTS && slots[i].occupied
        ensures Ahead(slots, expected, i) > 0
      {
        ExpectedLeaves(slots, expected, now, i);
      }
    }
  }

  lemma ExpectedLeaves(slots: seq<Slot>, expected: u16, now: u64, i: nat)
    requires i < |slots|
    ensures slots[i].occupied && slots[i].sequence == expected ==> Leaves(slots, expected, now, false, i)
  {
    hide Overdue;
  }

  lemma BehindLast(slots: seq<Slot>, expected: u16, now: u64, l: nat)
    requires QueueOk(slots, expected) && l < SLOTS && LeavesLast(slots, expected, now, false, l)
    ensures forall i :: 0 <= i < SLOTS && slots[i].occupied && !Leaves(slots, expected, now, false, i) ==>
              Ahead(slots, expected, i) > Ahead(slots, expected, l) + 1
    ensures !HasAt(slots, expected, Ahead(slots, expected, l) + 1)
  {
    forall i | 0 <= i < SLOTS && slots[i].occupied
      ensures Ahead(slots, expected, i) != Ahead(slots, expected, l) + 1
    {
      if Ahead(slots, expected, i) == Ahead(slots, expected, l) + 1 {
        NextLeaves(slots, expected, now, l, i);
      }
    }
    hide Unblocked, Ahead;
  }

  lemma NextLeaves(slots: seq<Slot>, expected: u16, now: u64, l: nat, i: nat)
    requires QueueOk(slots, expected) && l < SLOTS && Leaves(slots, expected, now, false, l)
    requires i < SLOTS && slots[i].occupied && Ahead(slots, expected, i) == Ahead(slots, expected, l) + 1
    ensures Leaves(slots, expected, now, false, i)
  {
    assert Successor(slots[l].sequence) == slots[i].sequence;
    assert Unblocked(slots, expected, now, false, i);
    forall j | 0 <= j < SLOTS && slots[j].occupied && Ahead(slots, expected, j) <= Ahead(slots, expected, i)
      ensures Unblocked(slots, expected, now, false, j)
    {
      if Ahead(slots, expected, j) == Ahead(slots, expected, i) {
        SameNumber(slots, expected, i, j);
      }
    }
  }

  lemma SameNumber(slots: seq<Slot>, expected: u16, i: nat, j: nat)
    requires QueueOk(slots, expected) && i < SLOTS && j < SLOTS && slots[i].occupied && slots[j].occupied
    requires Ahead(slots, expected, i) == Ahead(slots, expected, j)
    ensures i == j
  {
  }

  // ---------------------------------------------------------------------------
  // The window and the stream.

  /** The packet in a slot came at some point, and stands where it belongs. */
  predicate Shows(slot: Slot, place: nat, hs: seq<Happening>, base: u16) {
    exists j :: && 0 <= j < |hs| && hs[j].Comes? && base + hs[j].number == place
                && slot == Slot(hs[j].samples, Numbered(base, hs[j].number), hs[j].now, true)
  }

  /** The line stands at the first packet still missing, and the slots hold exactly the
      packets that came and lie behind it. */
  ghost predicate Lined(slots: seq<Slot>, expected: u16, position: nat, hs: seq<Happening>, base: u16) {
    && |slots| == SLOTS && base <= position && expected == position % U16_SIZE
    && AllBefore(hs, position - base)
    && (forall i :: 0 <= i < SLOTS && slots[i].occupied ==> Shows(slots[i], position + Ahead(slots, expected, i), hs, base))
    && (forall n :: Arrived(hs, n) && position <= base + n ==> HasAt(slots, expected, base + n - position))
  }

  lemma NumbersAdd(position: nat, offset: nat)
    requires offset < U16_SIZE
    ensures Distance((position + offset) % U16_SIZE, position % U16_SIZE) == offset
  {
    DistanceIsTruncation((position + offset) % U16_SIZE, position % U16_SIZE);
  }

  lemma DistanceBack(a: u16, position: nat, offset: nat)
    requires offset < U16_SIZE && Distance(a, position % U16_SIZE) == offset
    ensures a == (position + offset) % U16_SIZE
  {
  }

  lemma PatientIsCalm(slots: seq<Slot>, expected: u16, position: nat, hs: seq<Happening>, base: u16, now: u64)
    requires Lined(slots, expected, position, hs, base) && Patient(hs, now)
    ensures Calm(slots, expected, now)
  {
    forall b, q | 0 <= b && 0 <= q < |slots| && slots[q].occupied && b < Ahead(slots, expected, q) && !HasAt(slots, expected, b)
      ensures !Overdue(slots[q], now)
    {
      assert Shows(slots[q], position + Ahead(slots, expected, q), hs, base);
      var j :| && 0 <= j < |hs| && hs[j].Comes? && base + hs[j].number == position + Ahead(slots, expected, q)
               && slots[q] == Slot(hs[j].samples, Numbered(base, hs[j].number), hs[j].now, true);
      assert !Arrived(hs, position + b - base);
      assert Waits(hs, j);
    }
  }

  /** A calm drain brings the line to the first packet still missing. */
  lemma DrainLines(slots: seq<Slot>, expected: u16, position: nat, hs: seq<Happening>, base: u16, now: u64,
                   final: seq<Slot>, next: u16, steps: int)
    requires QueueOk(slots, expected) && Lined(slots, expected, position, hs, base) && Patient(hs, now)
    requires LetOut(slots, expected, now, false, final, next, steps)
    ensures steps >= 0 && Lined(final, next, position + steps, hs, base) && !Arrived(hs, position + steps - base)
  {
    hide LetOut, QueueOk, Calm, Patient;
    PatientIsCalm(slots, expected, position, hs, base, now);
    CalmDrain(slots, expected, now, final, next, steps);
    LeftIsBefore(slots, expected, now, final, next, steps);
    LinedBase(slots, expected, position, hs, base);
    hide HasAt, Lined;
    DistanceBack(next, position, steps);
    RowMoves(slots, expected, position, hs, base, final, next, steps);
  }

  lemma RowMoves(slots: seq<Slot>, expected: u16, position: nat, hs: seq<Happening>, base: u16, final: seq<Slot>,
                 next: u16, steps: nat)
    requires Lined(slots, expected, position, hs, base) && |final| == SLOTS && next == (position + steps) % U16_SIZE
    requires forall offset :: 0 <= offset < steps ==> HasAt(slots, expected, offset)
    requires !HasAt(slots, expected, steps)
    requires forall i :: 0 <= i < SLOTS && final[i].occupied ==> final[i] == slots[i] && Ahead(slots, expected, i) > steps
    requires forall i :: 0 <= i < SLOTS && slots[i].occupied && Ahead(slots, expected, i) >= steps ==> final[i] == slots[i]
    ensures Lined(final, next, position + steps, hs, base) && !Arrived(hs, position + steps - base)
  {
    RowArrived(slots, expected, position, hs, base, steps);
    hide Shows, Arrived;
    forall i | 0 <= i < SLOTS && final[i].occupied
      ensures Shows(final[i], position + steps + Ahead(final, next, i), hs, base)
    {
      AheadFalls(slots[i].sequence, position, steps);
    }
    forall n | Arrived(hs, n) && position + steps <= base + n
      ensures HasAt(final, next, base + n - (position + steps))
    {
      var i :| 0 <= i < |slots| && slots[i].occupied && Ahead(slots, expected, i) == base + n - position;
      AheadFalls(slots[i].sequence, position, steps);
    }
  }

  lemma AheadFalls(a: u16, position: nat, steps: nat)
    requires steps <= Distance(a, position % U16_SIZE)
    ensures Distance(a, (position + steps) % U16_SIZE) == Distance(a, position % U16_SIZE) - steps
  {
  }

  lemma LeftIsBefore(slots: seq<Slot>, expected: u16, now: u64, final: seq<Slot>, next: u16, steps: int)
    requires QueueOk(slots, expected) && LetOut(slots, expected, now, false, final, next, steps)
    ensures forall i :: 0 <= i < SLOTS && slots[i].occupied && Ahead(slots, expected, i) >= steps ==> final[i] == slots[i]
  {
    hide Unblocked;
  }

  lemma RowArrived(slots: seq<Slot>, expected: u16, position: nat, hs: seq<Happening>, base: u16, steps: nat)
    requires Lined(slots, expected, position, hs, base)
    requires forall offset :: 0 <= offset < steps ==> HasAt(slots, expected, offset)
    ensures AllBefore(hs, position + steps - base)
  {
    forall m | 0 <= m < position + steps - base
      ensures Arrived(hs, m)
    {
      if m >= position - base {
        assert HasAt(slots, expected, m - (position - base));
        var i :| 0 <= i < |slots| && slots[i].occupied && Ahead(slots, expected, i) == m - (position - base);
        assert Shows(slots[i], position + Ahead(slots, expected, i), hs, base);
      }
    }
  }

  // ---------------------------------------------------------------------------
  // One happening.

  function LastTime(hs: seq<Happening>): u64 {
    if hs == [] then 0
    else if Timed(hs[|hs| - 1]) then hs[|hs| - 1].now else LastTime(hs[..|hs| - 1])
  }

  lemma {:induction false} TimeIsSomeones(hs: seq<Happening>, now: u64)
    requires forall j :: 0 <= j < |hs| && Timed(hs[j]) ==> hs[j].now <= now
    ensures LastTime(hs) <= now
  {
    if hs != [] && !Timed(hs[|hs| - 1]) {
      TimeIsSomeones(hs[..|hs| - 1], now);
    }
  }

  predicate Started(hs: seq<Happening>) {
    exists j :: 0 <= j < |hs| && hs[j].Comes?
  }

  /** Where the window stands while the stream comes in. */
  ghost predicate Keeps(w: World, hs: seq<Happening>, base: u16, generation: u64) {
    && Steady(w) && w.f.gapSynthetic == 0 && !Foreign(w, generation)
    && w.f.lastTimestamp == LastTime(hs)
    && w.books.accepted == Sent(hs, base)
    && (w.f.hasSequence <==> Started(hs))
    && (w.f.hasSequence ==>
          && Lined(w.slots, w.f.expected, w.books.position, hs, base)
          && !Arrived(hs, w.books.position - base))
  }

  /** As the window stands once clock, generation and line are set for the next packet. */
  ghost predicate Awaits(v: World, hs: seq<Happening>, base: u16, number: nat) {
    && Inv(v) && v.f.hasSequence && v.f.gapSynthetic == 0
    && (v.f.lastReal == 0 && !Waiting(v.slots) ==> Numbered(base, number) == v.f.expected)
    && Lined(v.slots, v.f.expected, v.books.position, hs, base)
    && !Arrived(hs, v.books.position - base)
  }

  lemma MoreArrived(hs: seq<Happening>, h: Happening, number: nat)
    ensures Arrived(hs + [h], number) <==> Arrived(hs, number) || (h.Comes? && h.number == number)
  {
    var all := hs + [h];
    assert all[|hs|] == h;
    assert forall j :: 0 <= j < |hs| ==> all[j] == hs[j];
  }

  lemma ShowsMore(slot: Slot, place: nat, hs: seq<Happening>, h: Happening, base: u16)
    ensures Shows(slot, place, hs, base) ==> Shows(slot, place, hs + [h], base)
    ensures h.Comes? ==>
              Shows(Slot(h.samples, Numbered(base, h.number), h.now, true), base + h.number, hs + [h], base)
  {
    var all := hs + [h];
    assert all[|hs|] == h;
    assert forall j :: 0 <= j < |hs| ==> all[j] == hs[j];
  }

  lemma SlotArrived(slots: seq<Slot>, expected: u16, position: nat, hs: seq<Happening>, base: u16, i: nat)
    requires Lined(slots, expected, position, hs, base) && i < SLOTS && slots[i].occupied
    ensures Arrived(hs, position + Ahead(slots, expected, i) - base)
  {
    assert Shows(slots[i], position + Ahead(slots, expected, i), hs, base);
  }

  /** How far the next packet lies ahead of the line. */
  lemma ComesAhead(slots: seq<Slot>, expected: u16, position: nat, hs: seq<Happening>, base: u16, number: nat)
    requires Lined(slots, expected, position, hs, base)
    requires !Arrived(hs, position - base) && !Arrived(hs, number)
    requires forall m :: 0 <= m < number && !Arrived(hs, m) ==> number - m < HALF
    ensures position <= base + number && Distance(Numbered(base, number), expected) == base + number - position < HALF
    ensures !IsQueued(slots, Numbered(base, number))
    ensures AllBefore(hs, number) <==> Numbered(base, number) == expected
  {
    assert position <= base + number;
    var offset := base + number - position;
    assert offset < HALF;
    NumbersAdd(position, offset);
    assert position + offset == base + number;
    forall i | 0 <= i < SLOTS && slots[i].occupied
      ensures slots[i].sequence != Numbered(base, number)
    {
      SlotArrived(slots, expected, position, hs, base, i);
    }
    assert AllBefore(hs, number) <==> offset == 0;
  }

  /** When all slots are taken four packets wait. */
  lemma FullIsFour(slots: seq<Slot>, expected: u16, position: nat, hs: seq<Happening>, base: u16)
    requires QueueOk(slots, expected) && Lined(slots, expected, position, hs, base)
    requires !Arrived(hs, position - base)
    requires forall i :: 0 <= i < SLOTS ==> slots[i].occupied
    ensures !Room(hs)
  {
    var a := Waiter(slots, expected, position, hs, base, 0);
    var b := Waiter(slots, expected, position, hs, base, 1);
    var c := Waiter(slots, expected, position, hs, base, 2);
    var d := Waiter(slots, expected, position, hs, base, 3);
    hide Lined, Waits;
  }

  lemma Waiter(slots: seq<Slot>, expected: u16, position: nat, hs: seq<Happening>, base: u16, i: nat) returns (j: nat)
    requires |slots| == SLOTS && Lined(slots, expected, position, hs, base)
    requires !Arrived(hs, position - base) && i < SLOTS && slots[i].occupied
    ensures j < |hs| && Waits(hs, j) && slots[i].sequence == Numbered(base, hs[j].number)
  {
    assert Shows(slots[i], position + Ahead(slots, expected, i), hs, base);
    j :| && 0 <= j < |hs| && hs[j].Comes? && base + hs[j].number == position + Ahead(slots, expected, i)
         && slots[i] == Slot(hs[j].samples, Numbered(base, hs[j].number), hs[j].now, true);
    assert hs[j].number != position - base;
    assert !AllBefore(hs, hs[j].number);
  }

  lemma BeforeStays(hs: seq<Happening>, h: Happening, number: nat)
    requires AllBefore(hs, number)
    ensures AllBefore(hs + [h], number)
  {
    forall m | 0 <= m < number
      ensures Arrived(hs + [h], m)
    {
      MoreArrived(hs, h, m);
    }
  }

  /** What neither comes nor leaves keeps its place. */
  lemma LinedStays(slots: seq<Slot>, expected: u16, position: nat, hs: seq<Happening>, base: u16, h: Happening)
    requires Lined(slots, expected, position, hs, base) && !h.Comes?
    ensures Lined(slots, expected, position, hs + [h], base)
  {
    BeforeStays(hs, h, position - base);
    forall i | 0 <= i < SLOTS && slots[i].occupied
      ensures Shows(slots[i], position + Ahead(slots, expected, i), hs + [h], base)
    {
      ShowsMore(slots[i], position + Ahead(slots, expected, i), hs, h, base);
    }
    forall n | Arrived(hs + [h], n) && position <= base + n
      ensures HasAt(slots, expected, base + n - position)
    {
      MoreArrived(hs, h, n);
    }
  }

  /** A packet takes a free slot. */
  lemma SeatedLines(slots: seq<Slot>, expected: u16, position: nat, hs: seq<Happening>, base: u16, h: Happening, k: nat)
    requires Lined(slots, expected, position, hs, base) && QueueOk(slots, expected)
    requires h.Comes? && 0 < |h.samples| <= MAX_SAMPLES && k < SLOTS && !slots[k].occupied
    requires position <= base + h.number && !IsQueued(slots, Numbered(base, h.number))
    requires Distance(Numbered(base, h.number), expected) == base + h.number - position < HALF
    ensures var after := slots[k := Slot(h.samples, Numbered(base, h.number), h.now, true)];
            QueueOk(after, expected) && Lined(after, expected, position, hs + [h], base)
  {
    var after := slots[k := Slot(h.samples, Numbered(base, h.number), h.now, true)];
    BeforeStays(hs, h, position - base);
    forall i | 0 <= i < SLOTS && after[i].occupied
      ensures Shows(after[i], position + Ahead(after, expected, i), hs + [h], base)
    {
      ShowsMore(after[i], position + Ahead(after, expected, i), hs, h, base);
    }
    forall n | Arrived(hs + [h], n) && position <= base + n
      ensures HasAt(after, expected, base + n - position)
    {
      MoreArrived(hs, h, n);
      if n == h.number {
        assert after[k].occupied && Ahead(after, expected, k) == base + n - position;
      } else {
        var i :| 0 <= i < |slots| && slots[i].occupied && Ahead(slots, expected, i) == base + n - position;
        assert after[i] == slots[i];
      }
    }
  }

  /** The expected packet goes straight out. */
  lemma DirectLines(slots: seq<Slot>, expected: u16, position: nat, hs: seq<Happening>, base: u16, h: Happening)
    requires Lined(slots, expected, position, hs, base) && QueueOk(slots, expected)
    requires !Arrived(hs, position - base) && h.Comes? && h.number == position - base
    ensures Numbered(base, h.number) == expected
    ensures QueueOk(slots, Successor(expected))
    ensures Lined(slots, Successor(expected), position + 1, hs + [h], base)
  {
    DistanceIsTruncation(expected, expected);
    forall i | 0 <= i < SLOTS && slots[i].occupied
      ensures Ahead(slots, expected, i) > 0
      ensures Ahead(slots, Successor(expected), i) == Ahead(slots, expected, i) - 1
    {
      SlotArrived(slots, expected, position, hs, base, i);
      OneStep(slots[i].sequence, expected);
    }
    forall m | 0 <= m < position + 1 - base
      ensures Arrived(hs + [h], m)
    {
      MoreArrived(hs, h, m);
    }
    forall i | 0 <= i < SLOTS && slots[i].occupied
      ensures Shows(slots[i], position + 1 + Ahead(slots, Successor(expected), i), hs + [h], base)
    {
      ShowsMore(slots[i], position + Ahead(slots, expected, i), hs, h, base);
    }
    forall n | Arrived(hs + [h], n) && position + 1 <= base + n
      ensures HasAt(slots, Successor(expected), base + n - (position + 1))
    {
      MoreArrived(hs, h, n);
      var i :| 0 <= i < |slots| && slots[i].occupied && Ahead(slots, expected, i) == base + n - position;
      assert Ahead(slots, Successor(expected), i) == base + n - (position + 1);
    }
  }

  lemma OneStep(a: u16, b: u16)
    ensures a != b ==> Distance(a, Successor(b)) == Distance(a, b) - 1
    ensures Distance(a, b) == 0 <==> a == b
  {
  }

  /** The fields that neither a drain nor a packet past its checks touches. */
  predicate SameStream(f: Fields, g: Fields) {
    && f.generation == g.generation && f.autoBind == g.autoBind && f.hasSequence == g.hasSequence
    && f.lastTimestamp == g.lastTimestamp
  }

  lemma PassStream(w: World, faults: Faults, now: u64, force: bool)
    requires WindowOk(w.slots, w.f)
    ensures SameStream(w.f, Pass(w, faults, now, force).world.f)
  {
    hide AudioPlayouts.Push, Nearest, GapDeadline, QueueOk, TooLong, SilenceCount;
  }

  lemma {:induction false} DrainStream(w: World, faults: Faults, now: u64, force: bool, passes: nat)
    requires Inv(w)
    ensures SameStream(w.f, Drain(w, faults, now, force, passes).0.f)
    ensures Drain(w, faults, now, force, passes).0.tries >= w.tries
    decreases passes
  {
    hide WindowOk, BooksOk, ChainOk, Pass;
    DrainAttempts(w, faults, now, force, passes);
    if passes > 0 {
      PassKeeps(w, faults, now, force);
      PassStream(w, faults, now, force);
      if Pass(w, faults, now, force).more {
        DrainStream(Pass(w, faults, now, force).world, faults, now, false, passes - 1);
      }
    }
  }

  lemma AdmitStream(w: World, faults: Faults, samples: seq<byte>, sequence: u16, now: u64)
    requires Inv(w) && w.f.hasSequence && 0 < |samples| <= MAX_SAMPLES
    requires w.f.lastReal == 0 && !Waiting(w.slots) ==> sequence == w.f.expected
    ensures var x := Admit(w, faults, samples, sequence, now).0; SameStream(w.f, x.f) && x.tries >= w.tries
  {
    hide BooksOk, ChainOk, WindowOk, Seat, Concealed;
    ConcealedOrNot(w, sequence);
    if !IsQueued(w.slots, sequence) {
      ConcealedIsQueued(w, sequence);
      if Admissible(w, samples, sequence) {
        SeatStream(w, faults, samples, sequence, now);
      }
    }
  }

  lemma SeatStream(w: World, faults: Faults, samples: seq<byte>, sequence: u16, now: u64)
    requires Admissible(w, samples, sequence)
    ensures var x := Seat(w, faults, samples, sequence, now).0; SameStream(w.f, x.f) && x.tries >= w.tries
  {
    hide BooksOk, ChainOk, WindowOk, Drain, Direct;
    if FreeSlot(w.slots, SLOTS) < SLOTS {
      PlacedKeeps(w, samples, sequence, now);
      DrainStream(Placed(w, samples, sequence, now), faults, now, false, SLOTS);
    } else if sequence == w.f.expected {
      DirectKeeps(w, faults, samples, sequence, now);
      DirectStream(w, faults, samples, sequence, now);
      DrainStream(Direct(w, faults, samples, sequence, now).0, faults, now, false, SLOTS);
    } else {
      MakingRoom(w, faults, samples, sequence, now);
      DrainStream(w, faults, now, true, SLOTS);
      var (x, status) := Drain(w, faults, now, true, SLOTS);
      if status == 0 && Distance(sequence, x.f.expected) < HALF {
        PlacedKeeps(x, samples, sequence, now);
        DrainStream(Placed(x, samples, sequence, now), faults, now, false, SLOTS);
      }
    }
  }

  lemma DirectStream(w: World, faults: Faults, samples: seq<byte>, sequence: u16, now: u64)
    ensures var x := Direct(w, faults, samples, sequence, now).0; SameStream(w.f, x.f) && x.tries >= w.tries
  {
    hide AudioPlayouts.Push;
  }

  lemma SettledLines(v: World, hs: seq<Happening>, base: u16, h: Happening, x: World)
    requires h.Comes? && Awaits(v, hs, base, h.number) && 0 < |h.samples| <= MAX_SAMPLES
    requires v.books.position <= base + h.number && !IsQueued(v.slots, Numbered(base, h.number))
    requires Distance(Numbered(base, h.number), v.f.expected) == base + h.number - v.books.position < HALF
    requires FreeSlot(v.slots, SLOTS) == SLOTS ==> Numbered(base, h.number) == v.f.expected
    requires Patient(hs + [h], h.now)
    requires SetsFree(v, h.samples, Numbered(base, h.number), h.now, x)
    ensures Lined(x.slots, x.f.expected, x.books.position, hs + [h], base)
    ensures x.books.position >= base && !Arrived(hs + [h], x.books.position - base)
  {
    hide Lined, LetOut, BooksOk, ChainOk, Arrived, Patient, Numbered, IsQueued, QueueOk, Distance, Nearest;
    var sequence := Numbered(base, h.number);
    LinedBase(v.slots, v.f.expected, v.books.position, hs, base);
    OneStep(sequence, v.f.expected);
    if FreeSlot(v.slots, SLOTS) < SLOTS {
      assert exists k :: 0 <= k < SLOTS && !v.slots[k].occupied;
      var k :| && 0 <= k < SLOTS && !v.slots[k].occupied
               && LetOut(v.slots[k := Slot(h.samples, sequence, h.now, true)], v.f.expected, h.now, false,
                         x.slots, x.f.expected, x.books.position - v.books.position);
      SeatedSettles(v.slots, v.f.expected, v.books.position, hs, base, h, k, x.slots, x.f.expected,
                    x.books.position - v.books.position);
    } else {
      DirectSettles(v.slots, v.f.expected, v.books.position, hs, base, h, x.slots, x.f.expected,
                    x.books.position - v.books.position - 1);
    }
  }

  lemma SeatedSettles(slots: seq<Slot>, expected: u16, position: nat, hs: seq<Happening>, base: u16, h: Happening,
                      k: nat, final: seq<Slot>, next: u16, steps: int)
    requires QueueOk(slots, expected) && Lined(slots, expected, position, hs, base) && Patient(hs + [h], h.now)
    requires h.Comes? && 0 < |h.samples| <= MAX_SAMPLES && k < SLOTS && !slots[k].occupied
    requires position <= base + h.number && !IsQueued(slots, Numbered(base, h.number))
    requires Distance(Numbered(base, h.number), expected) == base + h.number - position < HALF
    requires LetOut(slots[k := Slot(h.samples, Numbered(base, h.number), h.now, true)], expected, h.now, false,
                    final, next, steps)
    ensures steps >= 0 && Lined(final, next, position + steps, hs + [h], base)
    ensures !Arrived(hs + [h], position + steps - base)
  {
    hide *;
    LinedBase(slots, expected, position, hs, base);
    SeatedLines(slots, expected, position, hs, base, h, k);
    DrainLines(slots[k := Slot(h.samples, Numbered(base, h.number), h.now, true)], expected, position, hs + [h], base,
               h.now, final, next, steps);
  }

  lemma DirectSettles(slots: seq<Slot>, expected: u16, position: nat, hs: seq<Happening>, base: u16, h: Happening,
                      final: seq<Slot>, next: u16, steps: int)
    requires QueueOk(slots, expected) && Lined(slots, expected, position, hs, base) && Patient(hs + [h], h.now)
    requires !Arrived(hs, position - base) && h.Comes? && h.number == position - base
    requires LetOut(slots, Successor(expected), h.now, false, final, next, steps)
    ensures steps >= 0 && Lined(final, next, position + 1 + steps, hs + [h], base)
    ensures !Arrived(hs + [h], position + 1 + steps - base)
  {
    hide *;
    LinedBase(slots, expected, position, hs, base);
    DirectLines(slots, expected, position, hs, base, h);
    DrainLines(slots, Successor(expected), position + 1, hs + [h], base, h.now, final, next, steps);
  }

  lemma LinedBase(slots: seq<Slot>, expected: u16, position: nat, hs: seq<Happening>, base: u16)
    requires Lined(slots, expected, position, hs, base)
    ensures base <= position && |slots| == SLOTS
  {
  }

  /** The checks a push makes first leave the line where it is, or set it. */
  lemma BoundAwaits(w: World, hs: seq<Happening>, base: u16, generation: u64, h: Happening)
    requires Keeps(w, hs, base, generation) && generation != 0 && h.Comes?
    requires !Started(hs) ==> h.number == 0
    ensures var v := Bound(w, Numbered(base, h.number), generation, h.now);
            Awaits(v, hs, base, h.number) && v.tries == w.tries
  {
    hide BooksOk, ChainOk, Nearest, Distance;
    BoundKeeps(w, Numbered(base, h.number), generation, h.now);
    if !w.f.hasSequence {
      assert Numbered(base, 0) == base;
      assert forall n :: !Arrived(hs, n);
      NothingLined(w.slots, hs, base);
    }
  }

  lemma NothingLined(slots: seq<Slot>, hs: seq<Happening>, base: u16)
    requires |slots| == SLOTS && !Waiting(slots) && !Started(hs)
    ensures Lined(slots, base, base, hs, base)
  {
  }

  /** A packet that keeps to the terms is not turned away. */
  lemma ComesIsWelcome(w: World, hs: seq<Happening>, base: u16, generation: u64, h: Happening)
    requires Keeps(w, hs, base, generation) && h.Comes? && Mild(hs + [h], |hs|) && w.f.hasSequence
    ensures !TurnedAway(w, Numbered(base, h.number), generation, h.now)
    ensures w.books.position <= base + h.number
    ensures Distance(Numbered(base, h.number), w.f.expected) == base + h.number - w.books.position < HALF
    ensures !IsQueued(w.slots, Numbered(base, h.number))
    ensures FreeSlot(w.slots, SLOTS) == SLOTS ==> Numbered(base, h.number) == w.f.expected
  {
    hide Lined, BooksOk, ChainOk, Nearest, Distance, Room, PassedBy, Numbered, Patient, Unwanted;
    assert (hs + [h])[..|hs|] == hs;
    ComesAhead(w.slots, w.f.expected, w.books.position, hs, base, h.number);
    UnwantedIsRejected(w, Numbered(base, h.number));
    LastIsBehind(Numbered(base, h.number), w.f.expected);
    if forall i :: 0 <= i < SLOTS ==> w.slots[i].occupied {
      FullIsFour(w.slots, w.f.expected, w.books.position, hs, base);
    }
  }

  lemma LastIsBehind(a: u16, b: u16)
    requires Distance(a, b) < HALF
    ensures Successor(a) != b
  {
  }

  lemma SentNext(hs: seq<Happening>, h: Happening, base: u16)
    ensures Sent(hs + [h], base) ==
            if h.Comes? then Sent(hs, base) + [Packet(base + h.number, Numbered(base, h.number), h.samples)]
            else Sent(hs, base)
    ensures LastTime(hs + [h]) == if Timed(h) then h.now else LastTime(hs)
    ensures Started(hs + [h]) <==> Started(hs) || h.Comes?
  {
    var all := hs + [h];
    assert all[..|hs|] == hs && all[|hs|] == h;
    assert forall j :: 0 <= j < |hs| ==> all[j] == hs[j];
  }

  /** The same once the checks are passed, for the first packet too. */
  lemma ComesFits(w: World, hs: seq<Happening>, base: u16, generation: u64, h: Happening)
    requires Keeps(w, hs, base, generation) && generation != 0 && h.Comes? && Mild(hs + [h], |hs|)
    ensures !TurnedAway(w, Numbered(base, h.number), generation, h.now)
    ensures Incoming(w, h.samples, Numbered(base, h.number)) ==
            Packet(base + h.number, Numbered(base, h.number), h.samples)
    ensures var v := Bound(w, Numbered(base, h.number), generation, h.now);
            && |v.slots| == SLOTS && v.books.position <= base + h.number
            && Distance(Numbered(base, h.number), v.f.expected) == base + h.number - v.books.position < HALF
            && !IsQueued(v.slots, Numbered(base, h.number))
            && (FreeSlot(v.slots, SLOTS) == SLOTS ==> Numbered(base, h.number) == v.f.expected)
  {
    hide Lined, BooksOk, ChainOk, Nearest, Room, Patient, Unwanted, Overrun;
    if w.f.hasSequence {
      ComesIsWelcome(w, hs, base, generation, h);
    } else {
      FirstIsFirst(hs, h);
      assert Numbered(base, 0) == base;
    }
  }

  lemma FirstIsFirst(hs: seq<Happening>, h: Happening)
    requires h.Comes? && Mild(hs + [h], |hs|)
    ensures 0 < |h.samples| <= MAX_SAMPLES && Patient(hs + [h], h.now)
    ensures !Started(hs) ==> h.number == 0
    ensures LastTime(hs) <= h.now
  {
    hide Patient, Room, AllBefore;
    var all := hs + [h];
    assert all[|hs|] == h && all[..|hs| + 1] == all;
    assert forall j :: 0 <= j < |hs| ==> all[j] == hs[j];
    TimeIsSomeones(hs, h.now);
  }

  lemma ComesKeeps(w: World, faults: Faults, hs: seq<Happening>, base: u16, generation: u64, h: Happening)
    requires Keeps(w, hs, base, generation) && generation != 0 && h.Comes? && Mild(hs + [h], |hs|)
    requires forall n :: faults(n) == 0
    ensures var x := Arrive(w, faults, h.samples, Numbered(base, h.number), generation, h.now).0;
            x.tries >= w.tries && (x.tries <= TRIES_LIMIT ==> Keeps(x, hs + [h], base, generation))
  {
    hide Mild, Lined, Inv, Admit, Bound, TurnedAway, Numbered, Arrived, Patient, IsQueued, FreeSlot, Started, Sent, LastTime, Awaits,
         SetsFree, Distance, Recorded, Quiet;
    var sequence := Numbered(base, h.number);
    FirstIsFirst(hs, h);
    BoundAwaits(w, hs, base, generation, h);
    ComesFits(w, hs, base, generation, h);
    SentNext(hs, h, base);
    var v := Bound(w, sequence, generation, h.now);
    AwaitsMeans(v, hs, base, h.number);
    BoundStream(w, sequence, generation, h.now);
    AdmitStream(v, faults, h.samples, sequence, h.now);
    AdmitKeeps(v, faults, h.samples, sequence, h.now);
    RoomOrExpected(v, sequence);
    PushSetsFree(v, faults, h.samples, sequence, h.now);
    WorkingPushAnswers(w, faults, h.samples, sequence, generation, h.now);
    PushAnswers(w, faults, h.samples, sequence, generation, h.now);
    var (x, status) := Arrive(w, faults, h.samples, sequence, generation, h.now);
    assert x == Admit(v, faults, h.samples, sequence, h.now).0;
    if x.tries <= TRIES_LIMIT {
      SettledLines(v, hs, base, h, x);
    }
  }

  lemma RoomOrExpected(v: World, sequence: u16)
    requires |v.slots| == SLOTS && (FreeSlot(v.slots, SLOTS) == SLOTS ==> sequence == v.f.expected)
    ensures FreeSlot(v.slots, SLOTS) < SLOTS || sequence == v.f.expected
  {
  }

  lemma AwaitsMeans(v: World, hs: seq<Happening>, base: u16, number: nat)
    requires Awaits(v, hs, base, number)
    ensures Inv(v) && v.f.hasSequence
    ensures v.f.lastReal == 0 && !Waiting(v.slots) ==> Numbered(base, number) == v.f.expected
  {
  }

  lemma BoundStream(w: World, sequence: u16, generation: u64, now: u64)
    requires !Foreign(w, generation) && generation != 0
    ensures var v := Bound(w, sequence, generation, now);
            v.f.lastTimestamp == now && v.f.generation == generation && v.f.hasSequence && v.f.autoBind == w.f.autoBind
  {
  }

  lemma TicksKeep(w: World, faults: Faults, hs: seq<Happening>, base: u16, generation: u64, h: Happening)
    requires Keeps(w, hs, base, generation) && h.Ticks? && Mild(hs + [h], |hs|)
    requires forall n :: faults(n) == 0
    ensures var x := Clock(w, faults, h.now).0;
            x.tries >= w.tries && (x.tries <= TRIES_LIMIT ==> Keeps(x, hs + [h], base, generation))
  {
    hide Mild, Lined, WindowOk, BooksOk, ChainOk, Arrived, Patient, Started, Sent, LastTime, Drain, LetOut, Quiet, Occupied, Waiting;
    TickIsInTime(hs, h);
    SentNext(hs, h, base);
    var v := w.(f := w.f.(lastTimestamp := h.now));
    CountersAndClocksAreFree(w, v.f);
    ClockKeeps(w, faults, h.now);
    DrainStream(v, faults, h.now, false, SLOTS);
    DrainKeeps(v, faults, h.now, false, SLOTS);
    AtMost(v.slots, SLOTS);
    DrainLets(v, faults, h.now, false, SLOTS);
    DrainAttempts(v, faults, h.now, false, SLOTS);
    var (x, status) := Drain(v, faults, h.now, false, SLOTS);
    if x.tries <= TRIES_LIMIT {
      if status < 0 {
        OnlyCallbacksFail(v, x, faults, status);
      }
      if w.f.hasSequence {
        QueueIsOk(v);
        TickLines(v, hs, base, h, x);
      }
    }
  }

  lemma QueueIsOk(v: World)
    requires Inv(v)
    ensures QueueOk(v.slots, v.f.expected)
  {
  }

  lemma TickIsInTime(hs: seq<Happening>, h: Happening)
    requires h.Ticks? && Mild(hs + [h], |hs|)
    ensures Patient(hs + [h], h.now) && LastTime(hs) <= h.now
  {
    hide Patient, Room, AllBefore;
    var all := hs + [h];
    assert all[|hs|] == h && all[..|hs| + 1] == all;
    assert forall j :: 0 <= j < |hs| ==> all[j] == hs[j];
    TimeIsSomeones(hs, h.now);
  }

  lemma TickLines(v: World, hs: seq<Happening>, base: u16, h: Happening, x: World)
    requires QueueOk(v.slots, v.f.expected) && h.Ticks? && Patient(hs + [h], h.now)
    requires Lined(v.slots, v.f.expected, v.books.position, hs, base)
    requires Drained(v, x, h.now, false)
    ensures Lined(x.slots, x.f.expected, x.books.position, hs + [h], base)
    ensures x.books.position >= base && !Arrived(hs + [h], x.books.position - base)
  {
    hide Lined, LetOut, QueueOk, Arrived, Patient;
    LinedStays(v.slots, v.f.expected, v.books.position, hs, base, h);
    LinedBase(v.slots, v.f.expected, v.books.position, hs, base);
    DrainLines(v.slots, v.f.expected, v.books.position, hs + [h], base, h.now, x.slots, x.f.expected,
               x.books.position - v.books.position);
  }

  lemma PublishesKeep(w: World, hs: seq<Happening>, base: u16, generation: u64, h: Happening)
    requires Keeps(w, hs, base, generation) && h.Publishes?
    ensures var x := Publish(w, h.now, h.response);
            x.tries == w.tries && Keeps(x, hs + [h], base, generation)
  {
    hide Lined, Inv, Arrived, Started, Sent, LastTime, Waiting;
    PublishKeeps(w, h.now, h.response);
    SentNext(hs, h, base);
    MoreOfTheSame(w, hs, base, h);
  }

  lemma MoreOfTheSame(w: World, hs: seq<Happening>, base: u16, h: Happening)
    requires !h.Comes?
    ensures Lined(w.slots, w.f.expected, w.books.position, hs, base) ==>
              Lined(w.slots, w.f.expected, w.books.position, hs + [h], base)
    ensures w.books.position >= base && !Arrived(hs, w.books.position - base) ==>
              !Arrived(hs + [h], w.books.position - base)
  {
    if Lined(w.slots, w.f.expected, w.books.position, hs, base) {
      LinedStays(w.slots, w.f.expected, w.books.position, hs, base, h);
    }
    if w.books.position >= base {
      MoreArrived(hs, h, w.books.position - base);
    }
  }

  // ---------------------------------------------------------------------------
  // Whole streams.

  predicate Mildly(hs: seq<Happening>) {
    forall k :: 0 <= k < |hs| ==> Mild(hs, k)
  }

  /** The run on a stream, from a fresh window or one reset to its generation. */
  ghost function Heard(hs: seq<Happening>, faults: Faults, base: u16, generation: u64, reset: bool): World {
    Run(Start(generation, reset), faults, EventsOf(hs, base, generation))
  }

  lemma EventsMore(hs: seq<Happening>, base: u16, generation: u64)
    requires hs != []
    ensures var n, events := |hs| - 1, EventsOf(hs, base, generation);
            events[..n] == EventsOf(hs[..n], base, generation) && events[n] == EventOf(hs[n], base, generation)
  {
  }

  lemma MildPrefix(hs: seq<Happening>)
    requires hs != [] && Mildly(hs)
    ensures var n := |hs| - 1; Mildly(hs[..n]) && hs[..n] + [hs[n]] == hs
  {
    hide Patient, Room, AllBefore, Arrived;
    var n := |hs| - 1;
    forall k | 0 <= k < n
      ensures Mild(hs[..n], k)
    {
      assert Mild(hs, k);
      assert hs[..n][..k] == hs[..k] && hs[..n][..k + 1] == hs[..k + 1];
    }
  }

  lemma StartKeeps(base: u16, generation: u64, reset: bool)
    requires generation != 0
    ensures Keeps(Start(generation, reset), [], base, generation)
  {
    StartIsSteady(generation, reset);
  }

  lemma NextTries(w: World, faults: Faults, event: Event)
    requires Steady(w)
    ensures Next(w, faults, event).tries >= w.tries
  {
    hide Inv, Admit, Drain, Bound;
    match event {
      case PacketArrives(samples, sequence, generation, now) =>
        if !Malformed(samples, generation) && !Foreign(w, generation) {
          BoundKeeps(w, sequence, generation, now);
          BoundTries(w, sequence, generation, now);
          AdmitStream(Bound(w, sequence, generation, now), faults, samples, sequence, now);
        }
      case ClockTicks(now) =>
        CountersAndClocksAreFree(w, w.f.(lastTimestamp := now));
        DrainStream(w.(f := w.f.(lastTimestamp := now)), faults, now, false, SLOTS);
      case PublisherRuns(now, response) =>
    }
  }

  lemma BoundTries(w: World, sequence: u16, generation: u64, now: u64)
    ensures Bound(w, sequence, generation, now).tries == w.tries
  {
  }

  lemma HeardMore(w: World, faults: Faults, hs: seq<Happening>, base: u16, generation: u64, h: Happening)
    requires Steady(w) && (w.tries <= TRIES_LIMIT ==> Keeps(w, hs, base, generation))
    requires generation != 0 && Mild(hs + [h], |hs|) && forall n :: faults(n) == 0
    ensures var x := Next(w, faults, EventOf(h, base, generation));
            x.tries <= TRIES_LIMIT ==> Keeps(x, hs + [h], base, generation)
  {
    hide Keeps, Arrive, Clock, Publish, Numbered, Mild, Steady;
    NextTries(w, faults, EventOf(h, base, generation));
    if w.tries <= TRIES_LIMIT {
      match h {
        case Comes(_, _, _) => ComesKeeps(w, faults, hs, base, generation, h);
        case Ticks(_) => TicksKeep(w, faults, hs, base, generation, h);
        case Publishes(_, _) => PublishesKeep(w, hs, base, generation, h);
      }
    }
  }

  lemma {:induction false} HeardKeeps(hs: seq<Happening>, faults: Faults, base: u16, generation: u64, reset: bool)
    requires Mildly(hs) && generation != 0 && forall n :: faults(n) == 0
    ensures var w := Heard(hs, faults, base, generation, reset);
            w.tries <= TRIES_LIMIT ==> Keeps(w, hs, base, generation)
  {
    hide Keeps, Next, EventsOf, Start, Mild, Steady;
    if hs == [] {
      StartKeeps(base, generation, reset);
    } else {
      var n := |hs| - 1;
      MildPrefix(hs);
      EventsMore(hs, base, generation);
      HeardKeeps(hs[..n], faults, base, generation, reset);
      RunsStaySteady(generation, reset, faults, EventsOf(hs[..n], base, generation));
      HeardMore(Heard(hs[..n], faults, base, generation, reset), faults, hs[..n], base, generation, hs[n]);
    }
  }

  // ---------------------------------------------------------------------------
  // What is heard of a stream.

  /** The packet at a place of the line is one that came, with its own bytes. */
  predicate CameAs(q: Packet, hs: seq<Happening>, base: u16, number: nat) {
    exists j :: && 0 <= j < |hs| && hs[j].Comes? && hs[j].number == number
                && q == Packet(base + number, Numbered(base, number), hs[j].samples)
  }

  lemma {:induction false} SentIsWhatCame(hs: seq<Happening>, base: u16)
    ensures forall q :: q in Sent(hs, base) ==> q.position >= base && CameAs(q, hs, base, q.position - base)
    ensures forall n :: Arrived(hs, n) ==> exists q :: q in Sent(hs, base) && q.position == base + n
  {
    if hs != [] {
      var n, h := |hs| - 1, hs[|hs| - 1];
      assert hs[..n] + [h] == hs;
      SentIsWhatCame(hs[..n], base);
      SentNext(hs[..n], h, base);
      forall q | q in Sent(hs, base)
        ensures q.position >= base && CameAs(q, hs, base, q.position - base)
      {
        if q in Sent(hs[..n], base) {
          var j :| && 0 <= j < n && hs[j].Comes? && hs[j].number == q.position - base
                   && q == Packet(q.position, Numbered(base, q.position - base), hs[j].samples);
        } else {
          assert hs[n].number == q.position - base;
        }
      }
      forall m | Arrived(hs, m)
        ensures exists q :: q in Sent(hs, base) && q.position == base + m
      {
        MoreArrived(hs[..n], h, m);
      }
    }
  }

  lemma {:induction false} QueuedIsAhead(slots: seq<Slot>, n: nat, expected: u16, position: nat, q: Packet)
    requires n <= |slots| && q in Queued(slots, n, expected, position)
    ensures q.position >= position
  {
    if q !in Held(slots[n - 1], expected, position) {
      QueuedIsAhead(slots, n - 1, expected, position, q);
    }
  }

  predicate Reaches(d: seq<Packet>, place: nat) {
    exists i :: 0 <= i < |d| && d[i].position == place
  }

  /** Packets that rise through every place of a stretch of the line are that stretch. */
  lemma {:induction false} Contiguous(d: seq<Packet>, base: nat, k: nat)
    requires Rising(d) && k < |d|
    requires forall i :: 0 <= i < |d| ==> base <= d[i].position
    requires forall p :: base <= p < d[k].position ==> Reaches(d, p)
    ensures d[k].position == base + k
  {
    var p := d[k].position;
    if k > 0 {
      PositionsRise(d, k - 1, k);
      Contiguous(d, base, k - 1);
      if p > d[k - 1].position + 1 {
        assert Reaches(d, p - 1);
        var i :| 0 <= i < |d| && d[i].position == p - 1;
        NoneBetween(d, k - 1, i);
        NoneBetween(d, k, i);
      }
    } else if p > base {
      assert Reaches(d, p - 1);
      var i :| 0 <= i < |d| && d[i].position == p - 1;
      NoneBetween(d, 0, i);
    }
  }

  lemma NoneBetween(d: seq<Packet>, k: nat, i: nat)
    requires Rising(d) && k < |d| && i < |d|
    ensures d[i].position < d[k].position ==> i < k
    ensures d[i].position > d[k].position ==> i > k
  {
    if i < k {
      PositionsRise(d, i, k);
    } else if i > k {
      PositionsRise(d, k, i);
    }
  }

  lemma DeliveredIsARow(w: World, hs: seq<Happening>, base: u16, generation: u64)
    requires Keeps(w, hs, base, generation)
    ensures var d := w.books.delivered;
            && Rising(d)
            && (forall k :: 0 <= k < |d| ==> d[k].position == base + k && CameAs(d[k], hs, base, k))
            && (w.f.hasSequence ==> w.books.position == base + |d|)
            && (!w.f.hasSequence ==> d == [])
  {
    hide Lined, WindowOk, BooksOk, ChainOk, CameAs, Arrived, Sent, Rising, Waiting, Started;
    BooksLink(w);
    SentIsWhatCame(hs, base);
    if w.f.hasSequence {
      LinedAll(w, hs, base);
      RowIsDelivered(w, hs, base);
      RowReaches(w.books.delivered, base, w.books.position);
    }
  }

  /** What the books say of a run: what came is what went out and what waits. */
  lemma BooksLink(w: World)
    requires Inv(w)
    ensures |w.slots| == SLOTS && Rising(w.books.delivered)
    ensures w.books.delivered != [] ==> Last(w.books.delivered).position + 1 == w.books.position
    ensures !w.f.hasSequence ==> w.books.delivered == []
    ensures multiset(w.books.accepted) ==
            multiset(w.books.delivered) + Queued(w.slots, SLOTS, w.f.expected, w.books.position)
    ensures forall q :: q in w.books.delivered ==> q in w.books.accepted
  {
    hide QueueOk, Queued, ChainOk, Render, Nearest;
    forall q | q in w.books.delivered
      ensures q in w.books.accepted
    {
      assert q in multiset(w.books.delivered);
      assert q in multiset(w.books.accepted);
    }
  }

  lemma RowIsDelivered(w: World, hs: seq<Happening>, base: u16)
    requires |w.slots| == SLOTS && Lined(w.slots, w.f.expected, w.books.position, hs, base)
    requires multiset(w.books.accepted) ==
             multiset(w.books.delivered) + Queued(w.slots, SLOTS, w.f.expected, w.books.position)
    requires w.books.accepted == Sent(hs, base)
    ensures forall p :: base <= p < w.books.position ==> Reaches(w.books.delivered, p)
  {
    hide Lined, Sent, Queued, Arrived;
    SentIsWhatCame(hs, base);
    var d := w.books.delivered;
    forall p | base <= p < w.books.position
      ensures Reaches(d, p)
    {
      LinedBefore(w, hs, base, p - base);
      var q :| q in Sent(hs, base) && q.position == p;
      assert q in multiset(w.books.accepted);
      if q !in multiset(d) {
        QueuedIsAhead(w.slots, SLOTS, w.f.expected, w.books.position, q);
      }
    }
  }

  lemma RowReaches(d: seq<Packet>, base: nat, position: nat)
    requires Rising(d) && base <= position
    requires forall k :: 0 <= k < |d| ==> base <= d[k].position
    requires d != [] ==> Last(d).position + 1 == position
    requires forall p :: base <= p < position ==> Reaches(d, p)
    ensures position == base + |d|
    ensures forall k :: 0 <= k < |d| ==> d[k].position == base + k
  {
    forall k | 0 <= k < |d|
      ensures d[k].position == base + k
    {
      NoneBetween(d, k, |d| - 1);
      Contiguous(d, base, k);
    }
    assert base < position ==> Reaches(d, base);
  }

  lemma LinedBefore(w: World, hs: seq<Happening>, base: u16, number: nat)
    requires Lined(w.slots, w.f.expected, w.books.position, hs, base) && base + number < w.books.position
    ensures Arrived(hs, number)
  {
  }

  lemma {:induction false} RowIsPlain(d: seq<Packet>)
    requires Rising(d) && forall k :: 0 < k < |d| ==> d[k].position == d[k - 1].position + 1
    ensures Render(d) == Plain(d)
  {
    if |d| > 1 {
      RowIsPlain(d[..|d| - 1]);
      assert d == d[..|d| - 1] + [d[|d| - 1]];
    }
  }

  /** Packets heard one after the other, with nothing between. */
  function Plain(d: seq<Packet>): seq<Sound> {
    if d == [] then []
    else Plain(d[..|d| - 1]) + [Sound(d[|d| - 1].samples, d[|d| - 1].sequence, false, false)]
  }

  /** A stream shuffled mildly is heard whole and in order: at every moment exactly the
      packets up to the first one missing have gone out, each once, with its own bytes, in
      the order of the stream, and without any silence between them. */
  lemma OrderIsRestored(hs: seq<Happening>, faults: Faults, base: u16, generation: u64, reset: bool)
    requires Mildly(hs) && generation != 0 && forall n :: faults(n) == 0
    ensures var w := Heard(hs, faults, base, generation, reset);
            var d := w.books.delivered;
            w.tries <= TRIES_LIMIT ==>
              && AllBefore(hs, |d|) && !Arrived(hs, |d|)
              && (forall k :: 0 <= k < |d| ==> CameAs(d[k], hs, base, k))
              && w.books.log == Plain(d)
              && w.books.accepted == Sent(hs, base)
  {
    var w := Heard(hs, faults, base, generation, reset);
    var d := w.books.delivered;
    hide Heard, Mildly, Lined, Render, ChainOk, AccountOk, CameAs, Sent, Plain, Rising;
    HeardKeeps(hs, faults, base, generation, reset);
    if w.tries <= TRIES_LIMIT {
      DeliveredIsARow(w, hs, base, generation);
      RowIsPlain(d);
      if w.f.hasSequence {
        LinedAll(w, hs, base);
      }
    }
  }

  lemma LinedAll(w: World, hs: seq<Happening>, base: u16)
    requires Lined(w.slots, w.f.expected, w.books.position, hs, base)
    ensures w.books.position >= base && AllBefore(hs, w.books.position - base)
  {
  }
}
