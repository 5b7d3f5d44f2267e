/** The window of src/gvs_audio_jitter.c as it stands in memory: four slots updated in
    place, emitting into a playout over the real ring. Every method is proved to do what
    the function of the same purpose in `AudioJitters` does, so what is proved there of
    whole runs holds of this object. */
module AudioJitterWindow {
  import opened Words
  import opened AudioPlayouts
  import opened J = AudioJitters
  import AudioBuffers

  class AudioJitter {
    const slots: array<Slot>
    const playout: AudioPlayout
    var f: Fields
    var tries: nat              // callback invocations so far
    ghost var refused: nat
    ghost var books: Books

    ghost predicate Valid()
      reads this, slots, playout, playout.buffer, playout.buffer.data
    {
      slots.Length == SLOTS && playout.Valid()
    }

    ghost function Value(): World
      reads this, slots, playout, playout.buffer
    {
      World(slots[..], f, books, playout.Value(), tries, refused)
    }

    /** `df_gvs_audio_jitter_init` beside a newly initialized playout. */
    constructor ()
      ensures Valid() && fresh(slots) && fresh(playout) && fresh(playout.buffer)
      ensures fresh(playout.buffer.data)
      ensures Value() == Start(0, false)
    {
      slots := new Slot[SLOTS](_ => EMPTY_SLOT);
      playout := new AudioPlayout();
      f := Fields(0, 0, false, true, 0, 0, 0, 0, 0, 0, 0);
      tries, refused, books := 0, 0, Books(0, [], [], []);
    }

    /** The callback: it fails on its own, or pushes into the playout. */
    method EmitToPlayout(e: Emission, faults: Faults) returns (status: int)
      requires Valid()
      modifies this`tries, this`refused, this`books, playout, playout.buffer, playout.buffer.data
      ensures Valid() && (Value(), status) == J.Emit(old(Value()), faults, e)
    {
      var fault := faults(tries);
      tries := tries + 1;
      if fault != 0 {
        return if fault > 0 then -1 else fault;
      }
      var result := playout.PushEmission(e);
      if result == 0 {
        books := Logged(books, Sound(e.samples, e.sequence, e.synthetic, e.discontinuity));
      } else {
        refused := refused + 1;
      }
      return if result > 0 then -1 else result;
    }

    method NearestSlot() returns (nearest: nat)
      requires Valid()
      ensures nearest == Nearest(slots[..], f.expected, SLOTS)
    {
      nearest := SLOTS;
      var distance: u16 := U16_SIZE - 1;
      var i := 0;
      while i < SLOTS
        invariant 0 <= i <= SLOTS
        invariant nearest == Nearest(slots[..], f.expected, i)
        invariant distance == Reach(slots[..], f.expected, nearest)
      {
        var candidate := Distance(slots[i].sequence, f.expected);
        if slots[i].occupied && candidate < distance {
          nearest, distance := i, candidate;
        }
        i := i + 1;
      }
    }

    method EarliestDeadline() returns (deadline: u64)
      requires Valid()
      ensures deadline == GapDeadline(slots[..])
    {
      var arrival: u64 := U64_MAX;
      var i := 0;
      while i < SLOTS
        invariant 0 <= i <= SLOTS
        invariant arrival == EarliestArrival(slots[..], i)
      {
        if slots[i].occupied && slots[i].arrival < arrival {
          arrival := slots[i].arrival;
        }
        i := i + 1;
      }
      return if arrival > U64_MAX - GAP_MS then U64_MAX else arrival + GAP_MS;
    }

    /** The tail of a pass: the packet in slot `index` goes out and its slot is freed. */
    method EmitSlot(now: u64, index: nat, discontinuity: bool, faults: Faults) returns (status: int)
      requires Valid() && index < SLOTS
      modifies this, slots, playout, playout.buffer, playout.buffer.data
      ensures Valid()
      ensures (Value(), status) == Deliver(old(Value()), faults, now, index, discontinuity)
    {
      var slot := slots[index];
      ghost var q := PacketIn(slots[..], f, books, index);
      status := EmitToPlayout(Emission(slot.samples, slot.sequence, f.generation, now, false,
                                       discontinuity), faults);
      if status != 0 {
        return;
      }
      f := f.(expected := Successor(slot.sequence), lastReal := |slot.samples|,
              gapSynthetic := 0, gapDeadline := 0);
      slots[index] := slot.(occupied := false);
      books := Delivered(books, q);
    }

    method EmitSilence(now: u64, missing: u16, faults: Faults) returns (status: int)
      requires Valid() && f.lastReal > 0
      modifies this, playout, playout.buffer, playout.buffer.data
      ensures Valid() && (Value(), status) == Conceal(old(Value()), faults, now, missing)
    {
      var long := missing > MAX_SILENCE / f.lastReal;
      var count := if long then MAX_SILENCE else missing * f.lastReal;
      status := EmitToPlayout(Emission(AudioBuffers.Silence(count), f.expected, f.generation, now,
                                       true, long), faults);
      if status != 0 {
        return;
      }
      f := f.(gapSynthetic := count);
    }

    method FillGap(now: u64, index: nat, missing: u16, faults: Faults) returns (status: int)
      requires Valid() && f.lastReal > 0 && index < SLOTS
      modifies this, slots, playout, playout.buffer, playout.buffer.data
      ensures Valid()
      ensures PassResult(Value(), status, status == 0) == Fill(old(Value()), faults, now, index, missing)
    {
      hide Conceal, Deliver;
      var discontinuity := missing > MAX_SILENCE / f.lastReal;
      if f.gapSynthetic == 0 {
        status := EmitSilence(now, missing, faults);
        if status != 0 {
          return;
        }
      }
      status := EmitSlot(now, index, discontinuity, faults);
    }

    /** One turn of the loop in `drain`. */
    method DrainOnce(now: u64, force: bool, faults: Faults) returns (status: int, more: bool)
      requires Valid() && WindowOk(Value().slots, Value().f)
      modifies this, slots, playout, playout.buffer, playout.buffer.data
      ensures Valid()
      ensures PassResult(Value(), status, more) == Pass(old(Value()), faults, now, force)
    {
      hide Fill, Deliver, WindowOk, Nearest;
      var index := NearestSlot();
      if index == SLOTS {
        f := f.(gapDeadline := 0);
        return 0, false;
      }
      var missing := Distance(slots[index].sequence, f.expected);
      if missing == 0 {
        status := EmitSlot(now, index, false, faults);
        return status, status == 0;
      }
      NeverDividesByZero(slots[..], f);
      var deadline := EarliestDeadline();
      f := f.(gapDeadline := deadline);
      if !force && f.gapSynthetic == 0 && now < deadline {
        return 0, false;
      }
      status := FillGap(now, index, missing, faults);
      more := status == 0;
    }

    method DrainWindow(now: u64, force: bool, faults: Faults) returns (status: int)
      requires Valid() && Inv(Value())
      modifies this, slots, playout, playout.buffer, playout.buffer.data
      ensures Valid() && (Value(), status) == Drain(old(Value()), faults, now, force, SLOTS)
      ensures Inv(Value())
    {
      hide WindowOk, BooksOk, ChainOk, Pass;
      DrainKeeps(Value(), faults, now, force, SLOTS);
      var pass, forced := 0, force;
      while pass < SLOTS
        invariant 0 <= pass <= SLOTS
        invariant Valid() && Inv(Value())
        invariant Drain(old(Value()), faults, now, force, SLOTS) ==
                  Drain(Value(), faults, now, forced, SLOTS - pass)
      {
        PassKeeps(Value(), faults, now, forced);
        var more;
        status, more := DrainOnce(now, forced, faults);
        if !more {
          return;
        }
        forced := false;
        pass := pass + 1;
      }
      return 0;
    }

    /** `df_gvs_audio_jitter_tick`. */
    method Tick(now: u64, faults: Faults) returns (status: int)
      requires Valid() && Steady(Value())
      modifies this, slots, playout, playout.buffer, playout.buffer.data
      ensures Valid() && Steady(Value())
      ensures (Value(), status) == Clock(old(Value()), faults, now)
    {
      hide WindowOk, BooksOk, ChainOk, Drain;
      ClockKeeps(Value(), faults, now);
      if now < f.lastTimestamp {
        return -1;
      }
      CountersAndClocksAreFree(Value(), f.(lastTimestamp := now));
      f := f.(lastTimestamp := now);
      status := DrainWindow(now, false, faults);
    }

    /** The first loop of `push`: a packet already queued, or else a free slot. */
    method ScanSlots(sequence: u16) returns (queued: bool, free: nat)
      requires Valid()
      ensures queued == IsQueued(slots[..], sequence)
      ensures !queued ==> free == FreeSlot(slots[..], SLOTS)
    {
      free := SLOTS;
      var i := 0;
      while i < SLOTS
        invariant 0 <= i <= SLOTS
        invariant forall k :: 0 <= k < i && slots[k].occupied ==> slots[k].sequence != sequence
        invariant free == FreeSlot(slots[..], i)
      {
        if slots[i].occupied && slots[i].sequence == sequence {
          assert slots[..][i].occupied;
          return true, free;
        }
        if !slots[i].occupied {
          free := i;
        }
        i := i + 1;
      }
      queued := false;
    }

    method StoreAndDrain(samples: seq<byte>, sequence: u16, now: u64, free: nat, faults: Faults)
      returns (status: int)
      requires Valid() && Admissible(Value(), samples, sequence)
      requires free == FreeSlot(slots[..], SLOTS) < SLOTS
      requires Steady(Placed(Value(), samples, sequence, now))
      modifies this, slots, playout, playout.buffer, playout.buffer.data
      ensures Valid()
      ensures (Value(), status) ==
              Drain(Placed(old(Value()), samples, sequence, now), faults, now, false, SLOTS)
    {
      hide Drain, Steady, Admissible, Distance;
      ghost var w := Value();
      var distance := Distance(sequence, f.expected);
      slots[free] := Slot(samples, sequence, now, true);
      books := Accepting(books, Packet(books.position + distance, sequence, samples));
      if distance != 0 {
        f := f.(reordered := Increment(f.reordered));
      }
      assert Value() == Placed(w, samples, sequence, now);
      assert Inv(Value()) by { SteadyIsInv(Value()); }
      status := DrainWindow(now, false, faults);
    }

    lemma SteadyIsInv(w: World)
      requires Steady(w)
      ensures Inv(w)
    {
    }

    method EmitDirectly(samples: seq<byte>, sequence: u16, now: u64, faults: Faults)
      returns (status: int)
      requires Valid()
      modifies this, playout, playout.buffer, playout.buffer.data
      ensures Valid()
      ensures (Value(), status) == Direct(old(Value()), faults, samples, sequence, now)
    {
      status := EmitToPlayout(Emission(samples, sequence, f.generation, now, false, false), faults);
      if status != 0 {
        return;
      }
      f := f.(expected := Successor(sequence), lastReal := |samples|, gapDeadline := 0);
      ghost var q := Packet(books.position, sequence, samples);
      books := Delivered(Accepting(books, q), q);
    }

    /** `push` from the choice of a slot on. */
    method SeatPacket(samples: seq<byte>, sequence: u16, now: u64, free: nat, faults: Faults)
      returns (status: int)
      requires Valid() && Admissible(Value(), samples, sequence)
      requires free == FreeSlot(slots[..], SLOTS)
      modifies this, slots, playout, playout.buffer, playout.buffer.data
      ensures Valid()
      ensures (Value(), status) == Seat(old(Value()), faults, samples, sequence, now)
    {
      hide Drain, Direct, WindowOk, BooksOk, ChainOk, Placed;
      ghost var w := Value();
      if free < SLOTS {
        PlacedKeeps(w, samples, sequence, now);
        status := StoreAndDrain(samples, sequence, now, free, faults);
        return;
      }
      if Distance(sequence, f.expected) == 0 {
        DirectKeeps(w, faults, samples, sequence, now);
        status := EmitDirectly(samples, sequence, now, faults);
        if status != 0 {
          return;
        }
        status := DrainWindow(now, false, faults);
        return;
      }
      MakingRoom(w, faults, samples, sequence, now);
      status := DrainWindow(now, true, faults);
      if status != 0 {
        return;
      }
      if Distance(sequence, f.expected) >= HALF {
        f := f.(late := Increment(f.late));
        return 1;
      }
      var queued, slot := ScanSlots(sequence);
      PlacedKeeps(Value(), samples, sequence, now);
      status := StoreAndDrain(samples, sequence, now, slot, faults);
    }

    method NoteDuplicate()
      requires Valid()
      modifies this`f
      ensures Valid() && (Value(), 1) == RejectDuplicate(old(Value()))
    {
      f := f.(duplicates := Increment(f.duplicates));
    }

    method NoteLate()
      requires Valid()
      modifies this`f
      ensures Valid() && (Value(), 1) == RejectLate(old(Value()))
    {
      f := f.(late := Increment(f.late));
    }

    /** The number of packets the announced silence stands for. */
    method ConcealedCount() returns (concealed: u16)
      requires Valid() && WindowOk(slots[..], f) && f.gapSynthetic != 0
      ensures concealed == Concealed(slots[..], f)
    {
      var nearest := NearestSlot();
      NearestIsNearest(slots[..], f.expected, SLOTS);
      concealed := Distance(slots[nearest].sequence, f.expected);
    }

    method AdmitPacket(samples: seq<byte>, sequence: u16, now: u64, faults: Faults)
      returns (status: int)
      requires Valid() && Inv(Value()) && f.hasSequence && 0 < |samples| <= MAX_SAMPLES
      requires f.lastReal == 0 && !Waiting(slots[..]) ==> sequence == f.expected
      modifies this, slots, playout, playout.buffer, playout.buffer.data
      ensures Valid() && (Value(), status) == Admit(old(Value()), faults, samples, sequence, now)
    {
      hide Seat, BooksOk, ChainOk, QueueOk, Concealed;
      var queued, free := ScanSlots(sequence);
      if queued || (f.lastReal != 0 && Successor(sequence) == f.expected) {
        NoteDuplicate();
        return 1;
      }
      var distance := Distance(sequence, f.expected);
      if distance >= HALF {
        NoteLate();
        return 1;
      }
      if f.gapSynthetic != 0 {
        var concealed := ConcealedCount();
        if distance < concealed {
          NoteLate();
          return 1;
        }
      }
      ConcealedIsQueued(Value(), sequence);
      status := SeatPacket(samples, sequence, now, free, faults);
    }

    /** `df_gvs_audio_jitter_push`. */
    method Push(samples: seq<byte>, sequence: u16, generation: u64, now: u64, faults: Faults)
      returns (status: int)
      requires Valid() && Steady(Value())
      modifies this, slots, playout, playout.buffer, playout.buffer.data
      ensures Valid()
      ensures (Value(), status) == Arrive(old(Value()), faults, samples, sequence, generation, now)
    {
      hide Admit, WindowOk, BooksOk, ChainOk;
      if |samples| == 0 || |samples| > MAX_SAMPLES || generation == 0 {
        return -1;
      }
      if f.generation != 0 && generation != f.generation {
        return 1;
      }
      if f.generation == 0 && !f.autoBind {
        return 1;
      }
      if now < f.lastTimestamp {
        return -1;
      }
      ghost var w := Value();
      BoundKeeps(w, sequence, generation, now);
      var g := f.(lastTimestamp := now);
      if g.generation == 0 {
        g := g.(generation := generation);
      }
      if !g.hasSequence {
        g := g.(expected := sequence, hasSequence := true);
        books := books.(position := sequence);
      }
      f := g;
      assert Value() == Bound(w, sequence, generation, now);
      status := AdmitPacket(samples, sequence, now, faults);
    }

    /** `df_gvs_audio_jitter_reset` and `df_gvs_audio_playout_reset`, as the runtime calls
        them, one after the other with the same generation. */
    method Reset(generation: u64)
      requires Valid()
      modifies this, slots, playout, playout.buffer
      ensures Valid() && Value() == Start(generation, true)
    {
      f := Fields(generation, 0, false, false, 0, 0, 0, 0, 0, 0, 0);
      forall i | 0 <= i < slots.Length {
        slots[i] := EMPTY_SLOT;
      }
      playout.Reset(generation);
      tries, refused, books := 0, 0, Books(0, [], [], []);
    }
  }
}
