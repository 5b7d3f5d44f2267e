/** What the reorder window of src/gvs_audio_jitter.c takes, what it turns away, and what a
    drain lets out, in terms of the packets queued; and that it restores the order of a
    stream that arrives shuffled. */
module AudioAdmissions {
  import opened Words
  import AudioPlayouts
  import opened AudioJitters

  // ---------------------------------------------------------------------------
  // What a drain lets out.

  function Ahead(slots: seq<Slot>, expected: u16, i: nat): u16
    requires i < |slots|
  {
    Distance(slots[i].sequence, expected)
  }

  /** The packet has waited for 40 ms, by a clock that stops at its end. */
  predicate Overdue(slot: Slot, now: u64) {
    now >= Min(slot.arrival + 40, U64_MAX)
  }

  /** Nothing holds the packet in slot `i` back: it is the one expected, the one before it
      is queued, silence stands for what is missing (`first`, if it is the closest), or it or
      one behind it is overdue. */
  predicate Unblocked(slots: seq<Slot>, expected: u16, now: u64, first: bool, i: nat)
    requires i < |slots|
  {
    || slots[i].sequence == expected
    || (exists j :: 0 <= j < |slots| && slots[j].occupied && Successor(slots[j].sequence) == slots[i].sequence)
    || (first && forall j :: 0 <= j < |slots| && slots[j].occupied ==> Ahead(slots, expected, i) <= Ahead(slots, expected, j))
    || (exists j :: && 0 <= j < |slots| && slots[j].occupied && Overdue(slots[j], now)
                    && Ahead(slots, expected, i) <= Ahead(slots, expected, j))
  }

  /** The packet goes out: nothing holds it back, nor any before it. */
  predicate Leaves(slots: seq<Slot>, expected: u16, now: u64, first: bool, i: nat)
    requires i < |slots|
  {
    slots[i].occupied &&
    forall j :: 0 <= j < |slots| && slots[j].occupied && Ahead(slots, expected, j) <= Ahead(slots, expected, i) ==>
      Unblocked(slots, expected, now, first, j)
  }

  /** The one that leaves last. */
  predicate LeavesLast(slots: seq<Slot>, expected: u16, now: u64, first: bool, i: nat)
    requires i < |slots|
  {
    Leaves(slots, expected, now, first, i) &&
    forall j :: 0 <= j < |slots| && Leaves(slots, expected, now, first, j) ==>
      Ahead(slots, expected, j) <= Ahead(slots, expected, i)
  }

  /** The line stands behind the last packet that left. */
  predicate Advanced(slots: seq<Slot>, expected: u16, now: u64, first: bool, next: u16, steps: nat) {
    if exists i :: 0 <= i < |slots| && Leaves(slots, expected, now, first, i) then
      exists i :: && 0 <= i < |slots| && LeavesLast(slots, expected, now, first, i)
                  && next == Successor(slots[i].sequence) && steps == Ahead(slots, expected, i) + 1
    else next == expected && steps == 0
  }

  /** Exactly the packets that nothing holds back have left, and the line has moved on by
      `steps`, behind the last of them. */
  predicate LetOut(slots: seq<Slot>, expected: u16, now: u64, first: bool, final: seq<Slot>, next: u16, steps: int) {
    && |final| == |slots|
    && (forall i :: 0 <= i < |slots| ==>
          final[i] == if Leaves(slots, expected, now, first, i) then slots[i].(occupied := false) else slots[i])
    && steps >= 0 && Advanced(slots, expected, now, first, next, steps)
  }

  /** The same of two moments of a run. */
  predicate Drained(w: World, x: World, now: u64, first: bool) {
    LetOut(w.slots, w.f.expected, now, first, x.slots, x.f.expected, x.books.position - w.books.position)
  }

  lemma AheadOfNext(slots: seq<Slot>, expected: u16, k: nat, i: nat)
    requires QueueOk(slots, expected) && k == Nearest(slots, expected, SLOTS) < SLOTS
    requires i < SLOTS && slots[i].occupied && i != k
    ensures Ahead(slots, expected, k) < Ahead(slots, expected, i)
    ensures Ahead(slots, Successor(slots[k].sequence), i) == Ahead(slots, expected, i) - Ahead(slots, expected, k) - 1
  {
    OthersLieFarther(slots, expected, k, i);
  }

  lemma ClosestLeaves(slots: seq<Slot>, expected: u16, now: u64, first: bool, k: nat)
    requires QueueOk(slots, expected) && k == Nearest(slots, expected, SLOTS) < SLOTS
    ensures Leaves(slots, expected, now, first, k) <==> Unblocked(slots, expected, now, first, k)
    ensures !Unblocked(slots, expected, now, first, k) ==>
              forall i :: 0 <= i < SLOTS ==> !Leaves(slots, expected, now, first, i)
  {
    NearestIsNearest(slots, expected, SLOTS);
  }

  /** Once the closest packet has gone, the others stand to each other as before. */
  ghost predicate Moved(slots: seq<Slot>, expected: u16, k: nat) {
    && |slots| == SLOTS && k < SLOTS && slots[k].occupied
    && forall j :: 0 <= j < SLOTS && slots[j].occupied && j != k ==>
         && Ahead(slots, expected, k) < Ahead(slots, expected, j)
         && Ahead(Emptied(slots, k), Successor(slots[k].sequence), j) ==
            Ahead(slots, expected, j) - Ahead(slots, expected, k) - 1
  }

  lemma ClosestMovesOn(slots: seq<Slot>, expected: u16, k: nat)
    requires QueueOk(slots, expected) && k == Nearest(slots, expected, SLOTS) < SLOTS
    ensures Moved(slots, expected, k)
  {
    hide Nearest, Successor;
    forall j | 0 <= j < SLOTS && slots[j].occupied && j != k
      ensures && Ahead(slots, expected, k) < Ahead(slots, expected, j)
              && Ahead(Emptied(slots, k), Successor(slots[k].sequence), j) ==
                 Ahead(slots, expected, j) - Ahead(slots, expected, k) - 1
    {
      AheadOfNext(slots, expected, k, j);
    }
  }

  lemma UnblockedNext(slots: seq<Slot>, expected: u16, now: u64, first: bool, k: nat, i: nat)
    requires Moved(slots, expected, k) && i < SLOTS && slots[i].occupied && i != k
    ensures Unblocked(slots, expected, now, first, i) <==>
            Unblocked(Emptied(slots, k), Successor(slots[k].sequence), now, false, i)
  {
    var after, next := Emptied(slots, k), Successor(slots[k].sequence);
    assert forall j :: 0 <= j < SLOTS && j != k ==> after[j] == slots[j];
    assert !after[k].occupied;
    assert slots[i].sequence != expected;
    hide Overdue, Ahead;
    if Unblocked(slots, expected, now, first, i) {
      assert Unblocked(after, next, now, false, i);
    }
    if Unblocked(after, next, now, false, i) {
      assert Unblocked(slots, expected, now, first, i);
    }
  }

  lemma LeavesNext(slots: seq<Slot>, expected: u16, now: u64, first: bool, k: nat, i: nat)
    requires Moved(slots, expected, k) && i < SLOTS && Unblocked(slots, expected, now, first, k)
    ensures Leaves(slots, expected, now, first, i) <==>
            i == k || Leaves(Emptied(slots, k), Successor(slots[k].sequence), now, false, i)
  {
    forall j | 0 <= j < SLOTS && slots[j].occupied && j != k
      ensures Unblocked(slots, expected, now, first, j) <==>
              Unblocked(Emptied(slots, k), Successor(slots[k].sequence), now, false, j)
    {
      UnblockedNext(slots, expected, now, first, k, j);
    }
    hide Unblocked, Ahead, Successor;
  }

  /** Letting out the closest one and then the rest is letting out all. */
  lemma AdvancedNext(slots: seq<Slot>, expected: u16, now: u64, first: bool, k: nat, next: u16, steps: nat)
    requires Moved(slots, expected, k) && Unblocked(slots, expected, now, first, k)
    requires Advanced(Emptied(slots, k), Successor(slots[k].sequence), now, false, next, steps)
    ensures Advanced(slots, expected, now, first, next, steps + Ahead(slots, expected, k) + 1)
  {
    var after := Emptied(slots, k);
    forall i | 0 <= i < SLOTS
      ensures Leaves(slots, expected, now, first, i) <==>
              i == k || Leaves(after, Successor(slots[k].sequence), now, false, i)
    {
      LeavesNext(slots, expected, now, first, k, i);
    }
    assert forall j :: 0 <= j < SLOTS && j != k ==> after[j] == slots[j];
    assert forall j :: 0 <= j < SLOTS && Leaves(after, Successor(slots[k].sequence), now, false, j) ==> j != k && after[j].occupied;
    hide Leaves, Unblocked, Ahead, Successor;
    assert Leaves(slots, expected, now, first, k);
    if i :| 0 <= i < SLOTS && LeavesLast(after, Successor(slots[k].sequence), now, false, i) && next == Successor(slots[i].sequence) {
      assert LeavesLast(slots, expected, now, first, i);
    } else {
      assert LeavesLast(slots, expected, now, first, k);
    }
  }

  lemma {:induction false} EarliestIsSomeones(slots: seq<Slot>, n: nat)
    requires n <= SLOTS == |slots| && exists i :: 0 <= i < n && slots[i].occupied
    ensures exists i :: 0 <= i < n && slots[i].occupied && slots[i].arrival == EarliestArrival(slots, n)
  {
    if i :| 0 <= i < n - 1 && slots[i].occupied {
      EarliestIsSomeones(slots, n - 1);
    } else {
      assert forall i :: 0 <= i < n - 1 ==> !slots[i].occupied;
      NobodyArrived(slots, n - 1);
    }
  }

  lemma {:induction false} NobodyArrived(slots: seq<Slot>, n: nat)
    requires n <= SLOTS == |slots| && forall i :: 0 <= i < n ==> !slots[i].occupied
    ensures EarliestArrival(slots, n) == U64_MAX
  {
    if n > 0 {
      NobodyArrived(slots, n - 1);
    }
  }

  lemma DeadlineIsOverdue(slots: seq<Slot>, now: u64)
    requires |slots| == SLOTS && Waiting(slots)
    ensures now >= GapDeadline(slots) <==>
            exists i :: 0 <= i < SLOTS && slots[i].occupied && Overdue(slots[i], now)
  {
    EarliestIsEarliest(slots, SLOTS);
    EarliestIsSomeones(slots, SLOTS);
    hide EarliestArrival;
  }

  /** What one turn of the loop in `drain` does to the queue. */
  ghost predicate TurnLets(w: World, r: PassResult, now: u64, first: bool) {
    && |w.slots| == SLOTS
    && var k := Nearest(w.slots, w.f.expected, SLOTS);
       if r.more then
         && k < SLOTS && Unblocked(w.slots, w.f.expected, now, first, k)
         && r.world.slots == Emptied(w.slots, k) && r.world.f.expected == Successor(w.slots[k].sequence)
         && r.world.books.position == w.books.position + Ahead(w.slots, w.f.expected, k) + 1
         && r.world.f.gapSynthetic == 0
       else r.status == 0 ==>
         && r.world.slots == w.slots && r.world.f.expected == w.f.expected
         && r.world.books.position == w.books.position
         && (k < SLOTS ==> !Unblocked(w.slots, w.f.expected, now, first, k))
  }

  lemma ClosestUnblocked(slots: seq<Slot>, expected: u16, now: u64, first: bool, k: nat)
    requires QueueOk(slots, expected) && k == Nearest(slots, expected, SLOTS) < SLOTS
    ensures Unblocked(slots, expected, now, first, k) <==>
            slots[k].sequence == expected || first || now >= GapDeadline(slots)
  {
    NearestIsNearest(slots, expected, SLOTS);
    DeadlineIsOverdue(slots, now);
    forall j | 0 <= j < SLOTS && slots[j].occupied
      ensures Successor(slots[j].sequence) != slots[k].sequence
    {
      NotJustBefore(slots[j].sequence, slots[k].sequence, expected);
    }
    hide Nearest, GapDeadline, Successor, Overdue;
  }

  lemma NotJustBefore(a: u16, b: u16, expected: u16)
    requires Distance(b, expected) <= Distance(a, expected) < HALF
    ensures Successor(a) != b
  {
  }

  lemma FillEffect(v: World, faults: Faults, now: u64, index: nat, missing: u16)
    requires v.f.lastReal > 0 && index < |v.slots|
    ensures var r := Fill(v, faults, now, index, missing);
            && (r.more <==> r.status == 0)
            && (r.more ==>
                  && r.world.slots == Emptied(v.slots, index) && r.world.f.expected == Successor(v.slots[index].sequence)
                  && r.world.books.position == PacketIn(v.slots, v.f, v.books, index).position + 1
                  && r.world.f.gapSynthetic == 0)
  {
    hide AudioJitters.Emit, Emptied;
    var (x, concealed) := if v.f.gapSynthetic == 0 then Conceal(v, faults, now, missing) else (v, 0);
    if concealed == 0 {
      ConcealLeavesQueue(v, faults, now, missing);
      DeliverEffect(x, faults, now, index, TooLong(missing, v.f.lastReal));
    }
  }

  lemma ConcealLeavesQueue(v: World, faults: Faults, now: u64, missing: u16)
    requires v.f.lastReal > 0
    ensures var (x, concealed) := Conceal(v, faults, now, missing);
            concealed == 0 ==>
              x.slots == v.slots && x.f.expected == v.f.expected && x.books.position == v.books.position
  {
    hide AudioPlayouts.Push, SilenceCount, TooLong;
  }

  lemma PassLets(w: World, faults: Faults, now: u64, force: bool)
    requires Inv(w)
    ensures TurnLets(w, Pass(w, faults, now, force), now, force || w.f.gapSynthetic != 0)
  {
    var k := Nearest(w.slots, w.f.expected, SLOTS);
    if k < SLOTS {
      ClosestUnblocked(w.slots, w.f.expected, now, force || w.f.gapSynthetic != 0, k);
      hide Nearest, GapDeadline, Unblocked, Deliver, Fill, BooksOk, ChainOk, QueueOk;
      if w.slots[k].sequence == w.f.expected {
        DeliverEffect(w, faults, now, k, false);
      } else {
        NeverDividesByZero(w.slots, w.f);
        FillEffect(w.(f := w.f.(gapDeadline := GapDeadline(w.slots))), faults, now, k,
                   Distance(w.slots[k].sequence, w.f.expected));
      }
    }
  }

  /** A drain that succeeds lets out exactly the packets that nothing holds back, and the
      line then stands behind the last of them. */
  lemma {:induction false} DrainLets(w: World, faults: Faults, now: u64, force: bool, passes: nat)
    requires Inv(w) && passes >= Occupied(w.slots, SLOTS)
    ensures var (x, status) := Drain(w, faults, now, force, passes);
            status == 0 ==> Drained(w, x, now, force || w.f.gapSynthetic != 0)
    decreases passes
  {
    hide Pass, BooksOk, ChainOk, LetOut, QueueOk, Nearest, Unblocked, Leaves, Ahead, Occupied, Successor, Emptied;
    var k, first := Nearest(w.slots, w.f.expected, SLOTS), force || w.f.gapSynthetic != 0;
    if passes == 0 {
      NothingOut(w, w, now, first);
    } else {
      PassKeeps(w, faults, now, force);
      PassLets(w, faults, now, force);
      var r := Pass(w, faults, now, force);
      if r.more {
        DrainLets(r.world, faults, now, false, passes - 1);
        var (x, status) := Drain(r.world, faults, now, false, passes - 1);
        if status == 0 {
          LetOutNext(w.slots, w.f.expected, now, first, k, x.slots, x.f.expected, x.books.position - r.world.books.position);
        }
      } else if r.status == 0 {
        NothingOut(w, r.world, now, first);
      }
    }
  }

  lemma NothingOut(w: World, x: World, now: u64, first: bool)
    requires QueueOk(w.slots, w.f.expected)
    requires var k := Nearest(w.slots, w.f.expected, SLOTS);
             Occupied(w.slots, SLOTS) == 0 || k == SLOTS || !Unblocked(w.slots, w.f.expected, now, first, k)
    requires x.slots == w.slots && x.f.expected == w.f.expected && x.books.position == w.books.position
    ensures Drained(w, x, now, first)
  {
    var k := Nearest(w.slots, w.f.expected, SLOTS);
    NoneOccupied(w.slots, SLOTS);
    if k == SLOTS {
      NoneNearIsEmpty(w.slots, w.f.expected);
    } else {
      ClosestLeaves(w.slots, w.f.expected, now, first, k);
    }
    hide Nearest, Unblocked, QueueOk;
  }

  lemma LetOutNext(slots: seq<Slot>, expected: u16, now: u64, first: bool, k: nat, final: seq<Slot>, next: u16,
                   steps: int)
    requires QueueOk(slots, expected) && k == Nearest(slots, expected, SLOTS) < SLOTS
    requires Unblocked(slots, expected, now, first, k)
    requires LetOut(Emptied(slots, k), Successor(slots[k].sequence), now, false, final, next, steps)
    ensures LetOut(slots, expected, now, first, final, next, steps + Ahead(slots, expected, k) + 1)
  {
    ClosestMovesOn(slots, expected, k);
    hide Nearest, Unblocked, Advanced, Leaves, Ahead, Successor, Moved;
    AdvancedNext(slots, expected, now, first, k, next, steps);
    SlotsNext(slots, final, expected, now, first, k);
  }

  lemma SlotsNext(slots: seq<Slot>, final: seq<Slot>, expected: u16, now: u64, first: bool, k: nat)
    requires Moved(slots, expected, k) && Unblocked(slots, expected, now, first, k) && |final| == SLOTS
    requires forall i :: 0 <= i < SLOTS ==>
               final[i] == if Leaves(Emptied(slots, k), Successor(slots[k].sequence), now, false, i)
                           then Emptied(slots, k)[i].(occupied := false) else Emptied(slots, k)[i]
    ensures forall i :: 0 <= i < SLOTS ==>
              final[i] == if Leaves(slots, expected, now, first, i) then slots[i].(occupied := false) else slots[i]
  {
    forall i | 0 <= i < SLOTS
      ensures final[i] == if Leaves(slots, expected, now, first, i) then slots[i].(occupied := false) else slots[i]
    {
      LeavesNext(slots, expected, now, first, k, i);
      hide Moved, Unblocked, Leaves, Successor;
    }
  }

  // ---------------------------------------------------------------------------
  // What a push answers.

  predicate Malformed(samples: seq<byte>, generation: u64) {
    |samples| == 0 || |samples| > 256 || generation == 0
  }

  /** The packet belongs to another generation, or to none while the window may not bind. */
  predicate Foreign(w: World, generation: u64) {
    if w.f.generation == 0 then !w.f.autoBind else generation != w.f.generation
  }

  /** The packet waits already, was delivered last, lies behind the line, or belongs to the
      gap an announced silence stands for. */
  predicate Unwanted(w: World, sequence: u16) {
    || IsQueued(w.slots, sequence)
    || (w.books.delivered != [] && sequence == Last(w.books.delivered).sequence)
    || Distance(sequence, w.f.expected) >= 32768
    || (w.f.gapSynthetic != 0 && forall i :: 0 <= i < |w.slots| && w.slots[i].occupied ==>
          Distance(sequence, w.f.expected) < Ahead(w.slots, w.f.expected, i))
  }

  /** Making room lets out a packet beyond this one. */
  predicate PassedBy(slots: seq<Slot>, expected: u16, sequence: u16, now: u64) {
    exists i :: && 0 <= i < |slots| && Leaves(slots, expected, now, true, i)
                && Distance(sequence, expected) < Ahead(slots, expected, i)
  }

  /** All slots are taken, and making room passes the packet by. */
  predicate Overrun(w: World, sequence: u16, now: u64) {
    && sequence != w.f.expected
    && (forall i :: 0 <= i < |w.slots| ==> w.slots[i].occupied)
    && PassedBy(w.slots, w.f.expected, sequence, now)
  }

  predicate TurnedAway(w: World, sequence: u16, generation: u64, now: u64) {
    Foreign(w, generation) || (w.f.hasSequence && (Unwanted(w, sequence) || Overrun(w, sequence, now)))
  }

  /** The packet and its place on the unwrapped line, which starts at the first packet. */
  function Incoming(w: World, samples: seq<byte>, sequence: u16): Packet {
    Packet(if w.f.hasSequence then w.books.position + Distance(sequence, w.f.expected) else sequence, sequence, samples)
  }

  lemma LateIsOverrun(slots: seq<Slot>, expected: u16, now: u64, sequence: u16, final: seq<Slot>, next: u16, steps: int)
    requires QueueOk(slots, expected) && LetOut(slots, expected, now, true, final, next, steps)
    requires Distance(sequence, expected) < HALF && !IsQueued(slots, sequence)
    ensures Distance(sequence, next) >= HALF <==> PassedBy(slots, expected, sequence, now)
    ensures Distance(sequence, next) < HALF ==> steps + Distance(sequence, next) == Distance(sequence, expected)
  {
    hide Unblocked;
    if i :| 0 <= i < SLOTS && LeavesLast(slots, expected, now, true, i) && next == Successor(slots[i].sequence)
            && steps == Ahead(slots, expected, i) + 1 {
      assert slots[i].occupied && slots[i].sequence != sequence;
      assert SlotOk(slots[i], expected);
      var a, d := Ahead(slots, expected, i), Distance(sequence, expected);
      PassingBy(sequence, slots[i].sequence, expected);
      assert d < a ==> Leaves(slots, expected, now, true, i);
      hide Leaves, Successor, Distance;
    }
  }

  lemma PassingBy(s: u16, near: u16, expected: u16)
    requires Distance(near, expected) < HALF && Distance(s, expected) < HALF && s != near
    ensures Distance(s, expected) < Distance(near, expected) ==> Distance(s, Successor(near)) >= HALF
    ensures Distance(s, expected) >= Distance(near, expected) ==>
              Distance(s, Successor(near)) == Distance(s, expected) - Distance(near, expected) - 1
  {
  }

  /** A callback that fails: the last one called. */
  predicate Failed(w: World, x: World, faults: Faults) {
    x.tries <= TRIES_LIMIT ==> x.tries > w.tries && faults(x.tries - 1) != 0
  }

  /** The answer to a packet that is not unwanted. */
  ghost predicate Answered(w: World, faults: Faults, samples: seq<byte>, sequence: u16, now: u64, r: (World, int)) {
    && r.1 <= 1
    && (r.1 == 1 ==> Overrun(w, sequence, now) && r.0.books.accepted == w.books.accepted)
    && (r.1 == 0 ==>
          && !Overrun(w, sequence, now)
          && r.0.books.accepted == w.books.accepted +
             [Packet(w.books.position + Distance(sequence, w.f.expected), sequence, samples)])
    && (r.1 < 0 ==> Failed(w, r.0, faults))
  }

  lemma UnwantedIsRejected(w: World, sequence: u16)
    requires Inv(w) && w.f.hasSequence
    ensures Unwanted(w, sequence) <==>
            || IsQueued(w.slots, sequence) || (w.f.lastReal != 0 && Successor(sequence) == w.f.expected)
            || Distance(sequence, w.f.expected) >= HALF
            || (w.f.gapSynthetic != 0 && Distance(sequence, w.f.expected) < Concealed(w.slots, w.f))
  {
    if w.f.gapSynthetic != 0 {
      NearestIsNearest(w.slots, w.f.expected, SLOTS);
      assert w.slots[Nearest(w.slots, w.f.expected, SLOTS)].occupied;
    }
    hide Nearest, QueueOk, Rising, LogOk, AccountOk, ChainOk;
  }

  /** The drain after a packet has been seated: what it answers is the callback's. */
  lemma SeatedAnswers(w: World, x: World, faults: Faults, now: u64)
    requires Inv(x) && x.tries >= w.tries
    ensures var (y, status) := Drain(x, faults, now, false, SLOTS);
            status <= 0 && y.books.accepted == x.books.accepted && (status < 0 ==> Failed(w, y, faults))
  {
    DrainKeeps(x, faults, now, false, SLOTS);
    DrainAttempts(x, faults, now, false, SLOTS);
    hide WindowOk, BooksOk, Drain;
  }

  lemma PlacedCallsNobody(w: World, samples: seq<byte>, sequence: u16, now: u64)
    requires |w.slots| == SLOTS && FreeSlot(w.slots, SLOTS) < SLOTS
    ensures Placed(w, samples, sequence, now).tries == w.tries
  {
  }

  lemma RoomIsNoOverrun(w: World, sequence: u16, now: u64)
    requires |w.slots| == SLOTS && (FreeSlot(w.slots, SLOTS) < SLOTS || sequence == w.f.expected)
    ensures !Overrun(w, sequence, now)
  {
    hide Leaves;
  }

  lemma DirectAnswers(w: World, faults: Faults, samples: seq<byte>, sequence: u16, now: u64)
    requires Inv(w) && w.f.hasSequence && 0 < |samples| <= MAX_SAMPLES
    requires FreeSlot(w.slots, SLOTS) == SLOTS && !IsQueued(w.slots, sequence)
    requires sequence == w.f.expected && w.f.gapSynthetic == 0
    ensures var (x, status) := Direct(w, faults, samples, sequence, now);
            x.tries == w.tries + 1 && (status < 0 ==> Failed(w, x, faults))
  {
    hide Inv, Direct, Failed;
    DirectKeeps(w, faults, samples, sequence, now);
    DirectCallsOnce(w, faults, samples, sequence, now);
    var (x, status) := Direct(w, faults, samples, sequence, now);
    if status < 0 {
      OnlyCallbacksFail(w, x, faults, status);
    }
  }

  lemma DirectCallsOnce(w: World, faults: Faults, samples: seq<byte>, sequence: u16, now: u64)
    ensures Direct(w, faults, samples, sequence, now).0.tries == w.tries + 1
  {
    hide AudioPlayouts.Push;
  }

  lemma ForcedDrain(w: World, faults: Faults, now: u64)
    requires Inv(w)
    ensures var (x, status) := Drain(w, faults, now, true, SLOTS);
            && status <= 0 && x.tries >= w.tries && x.books.accepted == w.books.accepted
            && (status < 0 ==> Failed(w, x, faults))
            && (status == 0 ==>
                  LetOut(w.slots, w.f.expected, now, true, x.slots, x.f.expected, x.books.position - w.books.position))
  {
    hide WindowOk, BooksOk, ChainOk, Drain, LetOut, Occupied, Failed, Quiet, Thinned;
    DrainKeeps(w, faults, now, true, SLOTS);
    DrainAttempts(w, faults, now, true, SLOTS);
    AtMost(w.slots, SLOTS);
    DrainLets(w, faults, now, true, SLOTS);
    var (x, status) := Drain(w, faults, now, true, SLOTS);
    if status < 0 {
      OnlyCallbacksFail(w, x, faults, status);
    }
  }

  /** Making room tells the packets that were overrun from those that still fit. */
  lemma ForcedAnswers(w: World, faults: Faults, samples: seq<byte>, sequence: u16, now: u64)
    requires Admissible(w, samples, sequence) && sequence != w.f.expected
    requires FreeSlot(w.slots, SLOTS) == SLOTS
    ensures var (x, status) := Drain(w, faults, now, true, SLOTS);
            && status <= 0 && x.tries >= w.tries && x.books.accepted == w.books.accepted
            && (status < 0 ==> Failed(w, x, faults))
            && (status == 0 ==>
                  if Distance(sequence, x.f.expected) >= HALF then Overrun(w, sequence, now)
                  else
                    && !Overrun(w, sequence, now)
                    && x.books.position + Distance(sequence, x.f.expected) ==
                       w.books.position + Distance(sequence, w.f.expected))
  {
    hide *;
    AdmissibleMeans(w, samples, sequence);
    ForcedDrain(w, faults, now);
    var (x, status) := Drain(w, faults, now, true, SLOTS);
    if status == 0 {
      ForcedFits(w, x, sequence, now);
    }
  }

  lemma AdmissibleMeans(w: World, samples: seq<byte>, sequence: u16)
    requires Admissible(w, samples, sequence) && sequence != w.f.expected
    ensures Inv(w) && QueueOk(w.slots, w.f.expected)
    ensures !IsQueued(w.slots, sequence) && 0 < Distance(sequence, w.f.expected) < HALF
  {
    SomeDistance(sequence, w.f.expected);
    hide Distance, IsQueued, BooksOk, ChainOk;
  }

  lemma SomeDistance(a: u16, b: u16)
    ensures Distance(a, b) == 0 <==> a == b
  {
  }

  lemma RoomTells(w: World, sequence: u16, now: u64, final: seq<Slot>, next: u16, steps: int)
    requires QueueOk(w.slots, w.f.expected) && FreeSlot(w.slots, SLOTS) == SLOTS
    requires !IsQueued(w.slots, sequence) && 0 < Distance(sequence, w.f.expected) < HALF
    requires LetOut(w.slots, w.f.expected, now, true, final, next, steps)
    ensures if Distance(sequence, next) >= HALF then Overrun(w, sequence, now)
            else !Overrun(w, sequence, now) && steps + Distance(sequence, next) == Distance(sequence, w.f.expected)
  {
    hide PassedBy, Distance;
    LateIsOverrun(w.slots, w.f.expected, now, sequence, final, next, steps);
    FullOverrun(w, sequence, now);
  }

  lemma ForcedFits(w: World, x: World, sequence: u16, now: u64)
    requires QueueOk(w.slots, w.f.expected) && FreeSlot(w.slots, SLOTS) == SLOTS
    requires !IsQueued(w.slots, sequence) && 0 < Distance(sequence, w.f.expected) < HALF
    requires LetOut(w.slots, w.f.expected, now, true, x.slots, x.f.expected, x.books.position - w.books.position)
    ensures if Distance(sequence, x.f.expected) >= HALF then Overrun(w, sequence, now)
            else
              && !Overrun(w, sequence, now)
              && x.books.position + Distance(sequence, x.f.expected) ==
                 w.books.position + Distance(sequence, w.f.expected)
  {
    hide *;
    RoomTells(w, sequence, now, x.slots, x.f.expected, x.books.position - w.books.position);
  }

  lemma FullOverrun(w: World, sequence: u16, now: u64)
    requires |w.slots| == SLOTS && FreeSlot(w.slots, SLOTS) == SLOTS && 0 < Distance(sequence, w.f.expected)
    ensures Overrun(w, sequence, now) <==> PassedBy(w.slots, w.f.expected, sequence, now)
  {
    hide PassedBy;
  }

  lemma OnlyCallbacksFail(w: World, x: World, faults: Faults, status: int)
    requires Inv(x) && Blamed(x, faults, status) && status < 0 && x.tries > w.tries
    ensures Failed(w, x, faults)
  {
    hide WindowOk, BooksOk;
  }

  lemma AdmitAnswers(w: World, faults: Faults, samples: seq<byte>, sequence: u16, now: u64)
    requires Inv(w) && w.f.hasSequence && 0 < |samples| <= MAX_SAMPLES
    requires w.f.lastReal == 0 && !Waiting(w.slots) ==> sequence == w.f.expected
    ensures var r := Admit(w, faults, samples, sequence, now);
            if Unwanted(w, sequence) then r.1 == 1 && r.0.books.accepted == w.books.accepted
            else Answered(w, faults, samples, sequence, now, r)
  {
    UnwantedIsRejected(w, sequence);
    hide Unwanted, BooksOk, ChainOk, Seat, Answered;
    if !Unwanted(w, sequence) {
      ConcealedOrNot(w, sequence);
      ConcealedIsQueued(w, sequence);
      SeatAnswers(w, faults, samples, sequence, now);
    }
  }

  lemma SeatAnswers(w: World, faults: Faults, samples: seq<byte>, sequence: u16, now: u64)
    requires Admissible(w, samples, sequence)
    ensures Answered(w, faults, samples, sequence, now, Seat(w, faults, samples, sequence, now))
  {
    hide WindowOk, BooksOk, ChainOk, Drain, Direct, Placed, Overrun, Failed;
    if FreeSlot(w.slots, SLOTS) < SLOTS {
      PlacedKeeps(w, samples, sequence, now);
      PlacedEffect(w, samples, sequence, now);
      PlacedCallsNobody(w, samples, sequence, now);
      SeatedAnswers(w, Placed(w, samples, sequence, now), faults, now);
      RoomIsNoOverrun(w, sequence, now);
    } else if sequence == w.f.expected {
      DirectKeeps(w, faults, samples, sequence, now);
      DirectAnswers(w, faults, samples, sequence, now);
      RoomIsNoOverrun(w, sequence, now);
      var (x, status) := Direct(w, faults, samples, sequence, now);
      if status == 0 {
        DirectEffect(w, faults, samples, sequence, now);
        SeatedAnswers(w, x, faults, now);
      }
    } else {
      MakingRoom(w, faults, samples, sequence, now);
      ForcedAnswers(w, faults, samples, sequence, now);
      var (x, status) := Drain(w, faults, now, true, SLOTS);
      if status == 0 && Distance(sequence, x.f.expected) < HALF {
        PlacedKeeps(x, samples, sequence, now);
        PlacedEffect(x, samples, sequence, now);
        PlacedCallsNobody(x, samples, sequence, now);
        SeatedAnswers(w, Placed(x, samples, sequence, now), faults, now);
      }
    }
  }

  /** What a push answers: 1 exactly to the packets that are turned away, 0 to those that
      are accepted, each at its place on the line, and an error exactly for malformed input,
      a clock that ran back, and a callback that failed. */
  lemma PushAnswers(w: World, faults: Faults, samples: seq<byte>, sequence: u16, generation: u64, now: u64)
    requires Steady(w)
    ensures var (x, status) := Arrive(w, faults, samples, sequence, generation, now);
            if Malformed(samples, generation) || (!Foreign(w, generation) && now < w.f.lastTimestamp) then
              x == w && status == -1
            else
              && (status > 0 ==>
                    && status == 1 && TurnedAway(w, sequence, generation, now)
                    && x.books.accepted == w.books.accepted)
              && (status == 0 ==>
                    && !TurnedAway(w, sequence, generation, now)
                    && x.books.accepted == w.books.accepted + [Incoming(w, samples, sequence)])
              && (status < 0 ==>
                    && !Foreign(w, generation) && !(w.f.hasSequence && Unwanted(w, sequence))
                    && Failed(w, x, faults))
  {
    hide Admit, BooksOk, WindowOk, Unwanted, Overrun, Distance, ChainOk, Failed, Bound, Answered;
    if !Malformed(samples, generation) && !Foreign(w, generation) && now >= w.f.lastTimestamp {
      BoundKeeps(w, sequence, generation, now);
      BoundAnswers(w, faults, samples, sequence, generation, now);
    }
  }

  lemma BoundAnswers(w: World, faults: Faults, samples: seq<byte>, sequence: u16, generation: u64, now: u64)
    requires Steady(w) && !Malformed(samples, generation) && !Foreign(w, generation)
    requires var v := Bound(w, sequence, generation, now);
             && Inv(v) && v.f.hasSequence
             && (v.f.lastReal == 0 && !Waiting(v.slots) ==> sequence == v.f.expected)
    ensures var (x, status) := Admit(Bound(w, sequence, generation, now), faults, samples, sequence, now);
            && (status > 0 ==>
                  && status == 1 && w.f.hasSequence && (Unwanted(w, sequence) || Overrun(w, sequence, now))
                  && x.books.accepted == w.books.accepted)
            && (status == 0 ==>
                  && !(w.f.hasSequence && (Unwanted(w, sequence) || Overrun(w, sequence, now)))
                  && x.books.accepted == w.books.accepted + [Incoming(w, samples, sequence)])
            && (status < 0 ==> !(w.f.hasSequence && Unwanted(w, sequence)) && Failed(w, x, faults))
  {
    hide Admit, BooksOk, WindowOk, Unwanted, Overrun, Distance, ChainOk, Bound, Waiting;
    AdmitAnswers(Bound(w, sequence, generation, now), faults, samples, sequence, now);
    BoundWants(w, sequence, generation, now);
  }

  lemma BoundWants(w: World, sequence: u16, generation: u64, now: u64)
    requires Steady(w) && !Foreign(w, generation) && generation != 0
    ensures var v := Bound(w, sequence, generation, now);
            && v.tries == w.tries && v.books.accepted == w.books.accepted
            && (Unwanted(v, sequence) <==> w.f.hasSequence && Unwanted(w, sequence))
            && (Overrun(v, sequence, now) <==> w.f.hasSequence && Overrun(w, sequence, now))
            && Incoming(w, [], sequence).position == v.books.position + Distance(sequence, v.f.expected)
  {
    hide QueueOk, Leaves, Render, Rising, Queued, ChainOk;
  }

  /** With callbacks that work, every well-formed packet in time is answered 0 or 1. */
  lemma WorkingPushAnswers(w: World, faults: Faults, samples: seq<byte>, sequence: u16, generation: u64, now: u64)
    requires Steady(w) && (forall n :: faults(n) == 0)
    requires !Malformed(samples, generation) && (Foreign(w, generation) || now >= w.f.lastTimestamp)
    ensures var (x, status) := Arrive(w, faults, samples, sequence, generation, now);
            x.tries <= TRIES_LIMIT ==>
              status == if TurnedAway(w, sequence, generation, now) then 1 else 0
  {
    PushAnswers(w, faults, samples, sequence, generation, now);
    hide TurnedAway, Arrive, Steady, Foreign;
  }

  // ---------------------------------------------------------------------------
  // What an accepted packet sets free.

  /** After an accepted packet for which there was room: either it took a free slot, or it
      was the expected one and went out at once; then a drain let out what it set free. */
  ghost predicate SetsFree(w: World, samples: seq<byte>, sequence: u16, now: u64, x: World) {
    if exists k :: 0 <= k < |w.slots| && !w.slots[k].occupied then
      exists k :: && 0 <= k < |w.slots| && !w.slots[k].occupied
                  && LetOut(w.slots[k := Slot(samples, sequence, now, true)], w.f.expected, now, w.f.gapSynthetic != 0,
                            x.slots, x.f.expected, x.books.position - w.books.position)
    else
      LetOut(w.slots, Successor(sequence), now, false, x.slots, x.f.expected, x.books.position - w.books.position - 1)
  }

  lemma PushSetsFree(w: World, faults: Faults, samples: seq<byte>, sequence: u16, now: u64)
    requires Inv(w) && w.f.hasSequence && 0 < |samples| <= MAX_SAMPLES
    requires w.f.lastReal == 0 && !Waiting(w.slots) ==> sequence == w.f.expected
    requires FreeSlot(w.slots, SLOTS) < SLOTS || sequence == w.f.expected
    ensures var (x, status) := Admit(w, faults, samples, sequence, now);
            status == 0 ==> SetsFree(w, samples, sequence, now, x) && x.f.gapSynthetic == 0
  {
    hide WindowOk, BooksOk, ChainOk, Drain, Direct, LetOut, Concealed;
    ConcealedOrNot(w, sequence);
    var (x, status) := Admit(w, faults, samples, sequence, now);
    if status == 0 {
      ConcealedIsQueued(w, sequence);
      if FreeSlot(w.slots, SLOTS) < SLOTS {
        var v := Placed(w, samples, sequence, now);
        PlacedKeeps(w, samples, sequence, now);
        DrainKeeps(v, faults, now, false, SLOTS);
        AtMost(v.slots, SLOTS);
        DrainLets(v, faults, now, false, SLOTS);
      } else {
        DirectKeeps(w, faults, samples, sequence, now);
        DirectMoves(w, faults, samples, sequence, now);
        var v := Direct(w, faults, samples, sequence, now).0;
        DrainKeeps(v, faults, now, false, SLOTS);
        AtMost(v.slots, SLOTS);
        DrainLets(v, faults, now, false, SLOTS);
      }
    }
  }

  lemma DirectMoves(w: World, faults: Faults, samples: seq<byte>, sequence: u16, now: u64)
    ensures var (x, status) := Direct(w, faults, samples, sequence, now);
            status == 0 ==>
              && x.slots == w.slots && x.f.expected == Successor(sequence) && x.f.gapSynthetic == w.f.gapSynthetic
              && x.books.position == w.books.position + 1
  {
    hide AudioPlayouts.Push;
  }
}
