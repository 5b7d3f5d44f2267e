/** Reassembly of a JPEG frame from its chunks (src/gvs_video_reassembly.c).

    A frame is described by a shape; its chunks may arrive in any order and more than
    once. The specification keeps a list of the chunks held, the class the malloc'ed
    buffer and the bitmap of the C code. */
module VideoReassembly {
  import opened Words

  const MAX_FRAME := 1024 * 1024
  const MAX_CAPACITY := 1200

  datatype Shape = Shape(frameNo: u16, chunkCount: u16, capacity: u16, fullLength: nat)

  /** `index` counts from one, as on the wire. */
  datatype Packet = Packet(shape: Shape, index: u16, payload: seq<byte>)

  /** Why a push answers with an error. */
  datatype Fault = Malformed | BeyondFrame | NoMemory | OtherShape | OtherBytes | Shortfall

  datatype Outcome = Error(fault: Fault) | Incomplete | Complete(output: seq<byte>) | Duplicate | Late

  datatype Frame = Frame(shape: Shape, chunks: seq<Option<seq<byte>>>, received: nat, receivedChunks: nat)

  // ---------------------------------------------------------------------------
  // Geometry.

  datatype Placement = Misfit(fault: Fault) | At(offset: nat, length: nat)

  function Ceiling(a: nat, b: nat): nat
    requires b > 0
  {
    (a + b - 1) / b
  }

  function Times(a: nat, b: nat): nat {
    a * b
  }

  function Geometry(p: Packet): Placement {
    var s := p.shape;
    if s.fullLength == 0 || s.fullLength > MAX_FRAME || s.capacity == 0 || s.capacity > MAX_CAPACITY
       || s.chunkCount == 0 || p.index == 0 || p.index > s.chunkCount then Misfit(Malformed)
    else
      var expected := Ceiling(s.fullLength, s.capacity);
      if expected > 0xFFFF || s.chunkCount != expected then Misfit(Malformed)
      else
        var offset := Times(p.index - 1, s.capacity);
        if offset >= s.fullLength then Misfit(BeyondFrame)
        else
          var length := if s.fullLength - offset > s.capacity then s.capacity else s.fullLength - offset;
          if |p.payload| == length then At(offset, length) else Misfit(Malformed)
  }

  /** The shapes a sender can cut a frame into. */
  predicate WellShaped(s: Shape) {
    && 0 < s.fullLength <= MAX_FRAME
    && 0 < s.capacity <= MAX_CAPACITY
    && 0 < s.chunkCount
    && (s.chunkCount - 1) * s.capacity < s.fullLength <= s.chunkCount * s.capacity
  }

  /** The chunks of a frame meet at these marks: chunk number `i`, from zero, reaches from
      mark `i` to mark `i + 1`. */
  function Mark(s: Shape, i: nat): nat {
    Min(i * s.capacity, s.fullLength)
  }

  /** Rounding up is what makes the last chunk reach the end of the frame, and not pass it. */
  lemma CeilingIsCount(full: nat, capacity: nat, count: nat)
    requires full > 0 && capacity > 0
    ensures Ceiling(full, capacity) == count <==>
            count > 0 && (count - 1) * capacity < full <= count * capacity
  {
    var c := (full + capacity - 1) / capacity;
    assert full + capacity - 1 == c * capacity + (full + capacity - 1) % capacity;
    assert (c - 1) * capacity == c * capacity - capacity;
    assert (count - 1) * capacity == count * capacity - capacity;
    assert c > 0;
    if count > c {
      ProductsGrow(c, count - 1, capacity);
    } else if count < c {
      ProductsGrow(count, c - 1, capacity);
    }
  }

  /** The chunks of a well-shaped frame are not empty and fill it end to end. */
  lemma MarksRise(s: Shape, i: nat)
    requires WellShaped(s) && i < s.chunkCount
    ensures Mark(s, i) < Mark(s, i + 1) <= s.fullLength
    ensures Mark(s, i + 1) - Mark(s, i) <= s.capacity
    ensures Mark(s, i) == i * s.capacity
    ensures Mark(s, 0) == 0 && Mark(s, s.chunkCount) == s.fullLength
  {
    ProductsGrow(i, s.chunkCount - 1, s.capacity);
    assert (i + 1) * s.capacity == i * s.capacity + s.capacity;
  }

  /** A packet is placed exactly when its shape is sound and its payload is the size of
      the chunk it names; an offset beyond the frame never gets that far. */
  lemma PlacementIsExact(p: Packet)
    ensures Geometry(p) != Misfit(BeyondFrame)
    ensures Geometry(p).At? <==>
            && WellShaped(p.shape)
            && 1 <= p.index <= p.shape.chunkCount
            && |p.payload| == Mark(p.shape, p.index) - Mark(p.shape, p.index - 1)
    ensures Geometry(p).At? ==>
              Geometry(p) == At(Mark(p.shape, p.index - 1), |p.payload|)
  {
    var s := p.shape;
    if s.fullLength > 0 && s.capacity > 0 {
      CeilingIsCount(s.fullLength, s.capacity, s.chunkCount);
      if WellShaped(s) && 1 <= p.index <= s.chunkCount {
        MarksRise(s, p.index - 1);
        assert p.index * s.capacity == (p.index - 1) * s.capacity + s.capacity;
      }
    }
  }

  // ---------------------------------------------------------------------------
  // One push.

  function Started(s: Shape): Frame {
    Frame(s, seq(s.chunkCount, _ => None), 0, 0)
  }

  predicate Sized(state: Option<Frame>) {
    state.Some? ==> |state.value.chunks| == state.value.shape.chunkCount
  }

  datatype Opening = Refused(outcome: Outcome) | Opened(frame: Frame)

  /** Which frame a placed packet goes into; `room` says whether both allocations succeed. */
  function Open(state: Option<Frame>, s: Shape, room: bool): Opening {
    if state.None? then
      if room then Opened(Started(s)) else Refused(Error(NoMemory))
    else if s.frameNo != state.value.shape.frameNo then
      if Distance(s.frameNo, state.value.shape.frameNo) > 0xFFFF / 2 then Refused(Late)
      else if room then Opened(Started(s))
      else Refused(Error(NoMemory))
    else if s != state.value.shape then Refused(Error(OtherShape))
    else Opened(state.value)
  }

  /** The bytes held, in the order of the chunks. */
  function Assembled(chunks: seq<Option<seq<byte>>>): seq<byte> {
    if chunks == [] then []
    else
      var n := |chunks| - 1;
      Assembled(chunks[..n]) + if chunks[n].Some? then chunks[n].value else []
  }

  function Place(f: Frame, p: Packet): (Frame, Outcome)
    requires 0 < p.index <= |f.chunks|
  {
    var i := p.index - 1;
    if f.chunks[i].Some? then
      (f, if f.chunks[i].value != p.payload then Error(OtherBytes) else Duplicate)
    else
      var g := Frame(f.shape, f.chunks[i := Some(p.payload)], f.received + |p.payload|, f.receivedChunks + 1);
      if g.receivedChunks == f.shape.chunkCount then
        if g.received != f.shape.fullLength then (g, Error(Shortfall))
        else (g, Complete(Assembled(g.chunks)))
      else (g, Incomplete)
  }

  function Pushed(state: Option<Frame>, p: Packet, room: bool): (Option<Frame>, Outcome)
    requires Sized(state)
  {
    PlacementIsExact(p);
    match Geometry(p)
    case Misfit(fault) => (state, Error(fault))
    case At(_, _) =>
      match Open(state, p.shape, room)
      case Refused(outcome) => (state, outcome)
      case Opened(frame) =>
        var (f, outcome) := Place(frame, p);
        (Some(f), outcome)
  }

  // ---------------------------------------------------------------------------
  // What every push keeps.

  function Held(chunks: seq<Option<seq<byte>>>): nat {
    if chunks == [] then 0
    else Held(chunks[..|chunks| - 1]) + if chunks[|chunks| - 1].Some? then 1 else 0
  }

  lemma {:induction false} OneMoreHeld(chunks: seq<Option<seq<byte>>>, i: nat, bytes: seq<byte>)
    requires i < |chunks| && chunks[i].None?
    ensures Held(chunks[i := Some(bytes)]) == Held(chunks) + 1
    ensures |Assembled(chunks[i := Some(bytes)])| == |Assembled(chunks)| + |bytes|
  {
    var n := |chunks| - 1;
    var more := chunks[i := Some(bytes)];
    if i < n {
      OneMoreHeld(chunks[..n], i, bytes);
      assert more[..n] == chunks[..n][i := Some(bytes)];
    } else {
      assert more[..n] == chunks[..n];
    }
  }

  lemma {:induction false} NothingHeld(n: nat)
    ensures Held(seq(n, _ => None)) == 0 && Assembled(seq(n, _ => None)) == []
  {
    if n > 0 {
      NothingHeld(n - 1);
      var none: seq<Option<seq<byte>>> := seq(n, _ => None);
      assert none[..n - 1] == seq(n - 1, _ => None);
    }
  }

  lemma {:induction false} AllHeld(chunks: seq<Option<seq<byte>>>)
    ensures Held(chunks) <= |chunks|
    ensures Held(chunks) == |chunks| <==> forall i :: 0 <= i < |chunks| ==> chunks[i].Some?
  {
    if chunks != [] {
      var n := |chunks| - 1;
      AllHeld(chunks[..n]);
      if forall i :: 0 <= i < n ==> chunks[..n][i].Some? {
        assert forall i :: 0 <= i < n ==> chunks[i].Some?;
      }
    }
  }

  /** The chunks held are of the sizes the shape gives them. */
  ghost predicate ChunksFit(s: Shape, chunks: seq<Option<seq<byte>>>) {
    forall i :: 0 <= i < |chunks| && chunks[i].Some? ==> |chunks[i].value| == Mark(s, i + 1) - Mark(s, i)
  }

  lemma {:induction false} FullLength(s: Shape, chunks: seq<Option<seq<byte>>>)
    requires WellShaped(s) && |chunks| <= s.chunkCount && ChunksFit(s, chunks)
    requires forall i :: 0 <= i < |chunks| ==> chunks[i].Some?
    ensures |Assembled(chunks)| == Mark(s, |chunks|)
  {
    MarksRise(s, 0);
    hide Mark, WellShaped;
    if chunks != [] {
      FullLength(s, chunks[..|chunks| - 1]);
    }
  }

  /** The bitmap count and the byte total are those of the chunks held. */
  ghost predicate FrameOk(f: Frame) {
    && WellShaped(f.shape)
    && |f.chunks| == f.shape.chunkCount
    && ChunksFit(f.shape, f.chunks)
    && f.receivedChunks == Held(f.chunks)
    && f.received == |Assembled(f.chunks)|
  }

  ghost predicate StateOk(state: Option<Frame>) {
    state.Some? ==> FrameOk(state.value)
  }

  lemma OpenKeeps(state: Option<Frame>, s: Shape, room: bool)
    requires StateOk(state) && WellShaped(s)
    ensures Open(state, s, room).Opened? ==>
              FrameOk(Open(state, s, room).frame) && Open(state, s, room).frame.shape == s
  {
    NothingHeld(s.chunkCount);
  }

  predicate Covered(chunks: seq<Option<seq<byte>>>) {
    forall i :: 0 <= i < |chunks| ==> chunks[i].Some?
  }

  lemma FullWhenCounted(g: Frame)
    requires FrameOk(g)
    ensures g.receivedChunks == g.shape.chunkCount <==> Covered(g.chunks)
    ensures g.receivedChunks == g.shape.chunkCount ==> g.received == g.shape.fullLength
  {
    AllHeld(g.chunks);
    MarksRise(g.shape, 0);
    if g.receivedChunks == g.shape.chunkCount {
      FullLength(g.shape, g.chunks);
    }
  }

  lemma NotYetFull(f: Frame, i: nat)
    requires FrameOk(f) && i < |f.chunks| && f.chunks[i].None?
    ensures f.receivedChunks != f.shape.chunkCount
  {
    FullWhenCounted(f);
  }

  lemma PlaceKeepsFrame(f: Frame, p: Packet)
    requires FrameOk(f) && f.shape == p.shape && Geometry(p).At?
    ensures 0 < p.index <= |f.chunks| && FrameOk(Place(f, p).0) && Place(f, p).0.shape == f.shape
  {
    PlacementIsExact(p);
    hide Geometry, Mark, Assembled, Held, WellShaped;
    if f.chunks[p.index - 1].None? {
      OneMoreHeld(f.chunks, p.index - 1, p.payload);
    }
  }

  /** A frame completes when, and only when, its last missing chunk arrives, and then it
      is full length: the shortfall the code guards against cannot occur. */
  lemma PlaceKeeps(f: Frame, p: Packet)
    requires FrameOk(f) && f.shape == p.shape && Geometry(p).At?
    ensures 0 < p.index <= |f.chunks| && FrameOk(Place(f, p).0)
    ensures Place(f, p).1 != Error(Shortfall) && Place(f, p).1 != Error(BeyondFrame)
    ensures Place(f, p).1.Complete? <==>
            f.chunks[p.index - 1].None? && Covered(Place(f, p).0.chunks)
    ensures Place(f, p).1.Error? || Place(f, p).1.Duplicate? ==> Place(f, p).0 == f
  {
    hide FrameOk, WellShaped, Assembled, Held, Mark, Covered;
    PlaceKeepsFrame(f, p);
    hide Geometry;
    FullWhenCounted(Place(f, p).0);
  }

  /** From a sound state, no push reports an offset beyond the frame or a shortfall, and a
      push that is refused, late or a repeat changes nothing. */
  lemma PushKeeps(state: Option<Frame>, p: Packet, room: bool)
    requires StateOk(state)
    ensures StateOk(Pushed(state, p, room).0)
    ensures Pushed(state, p, room).1 != Error(BeyondFrame) && Pushed(state, p, room).1 != Error(Shortfall)
    ensures var outcome := Pushed(state, p, room).1;
            outcome.Error? || outcome.Late? || outcome.Duplicate? ==> Pushed(state, p, room).0 == state
  {
    PlacementIsExact(p);
    if Geometry(p).At? {
      OpenKeeps(state, p.shape, room);
      var opening := Open(state, p.shape, room);
      if opening.Opened? {
        PlaceKeeps(opening.frame, p);
      }
      hide FrameOk, Geometry, WellShaped;
    }
  }

  // ---------------------------------------------------------------------------
  // Runs.

  datatype Delivery = Delivery(packet: Packet, room: bool)

  function Run(state: Option<Frame>, deliveries: seq<Delivery>): (end: Option<Frame>)
    requires Sized(state)
    ensures Sized(end)
  {
    if deliveries == [] then state
    else
      var before := Run(state, deliveries[..|deliveries| - 1]);
      var d := deliveries[|deliveries| - 1];
      Pushed(before, d.packet, d.room).0
  }

  /** What the `k`-th push of a run answers. */
  function Answer(state: Option<Frame>, deliveries: seq<Delivery>, k: nat): Outcome
    requires Sized(state) && k < |deliveries|
  {
    Pushed(Run(state, deliveries[..k]), deliveries[k].packet, deliveries[k].room).1
  }

  lemma {:induction false} RunsStayOk(state: Option<Frame>, deliveries: seq<Delivery>)
    requires StateOk(state)
    ensures StateOk(Run(state, deliveries))
  {
    if deliveries != [] {
      var n := |deliveries| - 1;
      RunsStayOk(state, deliveries[..n]);
      PushKeeps(Run(state, deliveries[..n]), deliveries[n].packet, deliveries[n].room);
      hide StateOk, Pushed;
    }
  }

  /** No run of packets, however hostile, reaches the two guards the code keeps for safety. */
  lemma GuardsAreUnreachable(deliveries: seq<Delivery>, k: nat)
    requires k < |deliveries|
    ensures Answer(None, deliveries, k) != Error(BeyondFrame)
    ensures Answer(None, deliveries, k) != Error(Shortfall)
  {
    RunsStayOk(None, deliveries[..k]);
    PushKeeps(Run(None, deliveries[..k]), deliveries[k].packet, deliveries[k].room);
  }

  /** `s` is a shape to cut `data` into. */
  predicate Cuts(s: Shape, data: seq<byte>) {
    WellShaped(s) && s.fullLength == |data|
  }

  function Piece(data: seq<byte>, s: Shape, i: nat): seq<byte>
    requires Cuts(s, data) && i < s.chunkCount
  {
    MarksRise(s, i);
    data[Mark(s, i)..Mark(s, i + 1)]
  }

  /** Packet `i`, from zero, of a frame. */
  function ChunkOf(data: seq<byte>, s: Shape, i: nat): Packet
    requires Cuts(s, data) && i < s.chunkCount
  {
    Packet(s, i + 1, Piece(data, s, i))
  }

  /** The reassembler has nothing, or something older, when the frame begins. */
  predicate ReadyFor(state: Option<Frame>, s: Shape) {
    state.Some? ==> 0 < Distance(s.frameNo, state.value.shape.frameNo) <= 0xFFFF / 2
  }

  /** What is held after the chunks numbered by `order` have arrived. */
  ghost predicate Gathered(f: Frame, data: seq<byte>, s: Shape, order: seq<nat>)
    requires Cuts(s, data)
  {
    && f.shape == s && |f.chunks| == s.chunkCount
    && forall i: nat :: i < s.chunkCount ==> f.chunks[i] == if i in order then Some(Piece(data, s, i)) else None
  }

  lemma {:induction false} PiecesAssemble(data: seq<byte>, s: Shape, chunks: seq<Option<seq<byte>>>)
    requires Cuts(s, data) && |chunks| <= s.chunkCount
    requires forall i: nat :: i < |chunks| ==> chunks[i] == Some(Piece(data, s, i))
    ensures Mark(s, |chunks|) <= |data| && Assembled(chunks) == data[..Mark(s, |chunks|)]
  {
    MarksRise(s, 0);
    if chunks != [] {
      var n := |chunks| - 1;
      PiecesAssemble(data, s, chunks[..n]);
      MarksRise(s, n);
      hide Mark, WellShaped;
      assert data[..Mark(s, n + 1)] == data[..Mark(s, n)] + data[Mark(s, n)..Mark(s, n + 1)];
    }
  }

  ghost predicate Covers(order: seq<nat>, n: nat) {
    forall i: nat :: i < n ==> i in order
  }

  ghost function NextAnswer(data: seq<byte>, s: Shape, order: seq<nat>, i: nat): Outcome {
    if i in order then Duplicate
    else if Covers(order + [i], s.chunkCount) then Complete(data)
    else Incomplete
  }

  lemma PlaceGathers(f: Frame, data: seq<byte>, s: Shape, order: seq<nat>, i: nat)
    requires Cuts(s, data) && i < s.chunkCount
    requires FrameOk(f) && Gathered(f, data, s, order)
    ensures Gathered(Place(f, ChunkOf(data, s, i)).0, data, s, order + [i])
  {
    hide FrameOk, WellShaped, Piece, Assembled, Cuts;
    assert forall j: nat :: j in order + [i] <==> j in order || j == i;
  }

  lemma GatheredAll(g: Frame, data: seq<byte>, s: Shape, order: seq<nat>)
    requires Cuts(s, data) && Gathered(g, data, s, order)
    ensures Covered(g.chunks) <==> Covers(order, s.chunkCount)
    ensures Covered(g.chunks) ==> Assembled(g.chunks) == data
  {
    MarksRise(s, 0);
    hide Piece, Mark, Assembled, WellShaped;
    if Covered(g.chunks) {
      PiecesAssemble(data, s, g.chunks);
      assert data[..|data|] == data;
    }
  }

  lemma PlaceAnswers(f: Frame, data: seq<byte>, s: Shape, order: seq<nat>, i: nat)
    requires Cuts(s, data) && i < s.chunkCount
    requires FrameOk(f) && Gathered(f, data, s, order)
    ensures Place(f, ChunkOf(data, s, i)).1 == NextAnswer(data, s, order, i)
  {
    var p := ChunkOf(data, s, i);
    PlacementIsExact(p);
    MarksRise(s, i);
    hide Geometry, FrameOk, WellShaped, Piece, Mark, Assembled, Covers, Covered;
    PlaceKeeps(f, p);
    PlaceGathers(f, data, s, order, i);
    GatheredAll(Place(f, p).0, data, s, order + [i]);
  }

  lemma OneChunkMore(state: Option<Frame>, data: seq<byte>, s: Shape, order: seq<nat>, i: nat)
    requires Cuts(s, data) && i < s.chunkCount && StateOk(state)
    requires if order == [] then ReadyFor(state, s) else state.Some? && Gathered(state.value, data, s, order)
    ensures var (next, outcome) := Pushed(state, ChunkOf(data, s, i), true);
            && next.Some? && Gathered(next.value, data, s, order + [i])
            && outcome == NextAnswer(data, s, order, i)
  {
    var p := ChunkOf(data, s, i);
    MarksRise(s, i);
    PlacementIsExact(p);
    OpenKeeps(state, s, true);
    hide FrameOk, Geometry, WellShaped, Piece, Mark, Place, NextAnswer;
    var f := Open(state, s, true).frame;
    PlaceGathers(f, data, s, order, i);
    PlaceAnswers(f, data, s, order, i);
  }

  lemma IsSized(state: Option<Frame>)
    requires StateOk(state)
    ensures Sized(state)
  {
  }

  /** A packet of the frame at hand. */
  predicate IsOwn(p: Packet, data: seq<byte>, s: Shape)
    requires Cuts(s, data)
  {
    1 <= p.index <= s.chunkCount && p == ChunkOf(data, s, p.index - 1)
  }

  /** The numbers of the frame's own chunks that got in: all of them, once one has found the
      memory to open the frame. */
  function Taken(ds: seq<Delivery>, data: seq<byte>, s: Shape): (order: seq<nat>)
    requires Cuts(s, data)
  {
    if ds == [] then []
    else
      var before := Taken(ds[..|ds| - 1], data, s);
      var d := ds[|ds| - 1];
      if IsOwn(d.packet, data, s) && (before != [] || d.room) then before + [d.packet.index - 1] else before
  }

  /** What may come between: malformed packets and packets of earlier frames at any time; and
      while the frame is open also those half the circle away, those that claim another shape
      for it, and those that bring other bytes for a chunk already held. */
  predicate Harmless(p: Packet, s: Shape, order: seq<nat>) {
    || Geometry(p).Misfit?
    || Distance(p.shape.frameNo, s.frameNo) > 0x8000
    || (order != [] &&
        (|| Distance(p.shape.frameNo, s.frameNo) == 0x8000
         || (p.shape.frameNo == s.frameNo && p.shape != s)
         || (p.shape == s && p.index >= 1 && p.index - 1 in order)))
  }

  /** The frame's own chunks, in any order and with any repeats, with harmless packets between
      them and memory found or not. */
  predicate Mixed(ds: seq<Delivery>, data: seq<byte>, s: Shape)
    requires Cuts(s, data)
  {
    forall k :: 0 <= k < |ds| ==>
      IsOwn(ds[k].packet, data, s) || Harmless(ds[k].packet, s, Taken(ds[..k], data, s))
  }

  /** The reassembler waits for the frame, or holds exactly the chunks that got in. */
  ghost predicate Progress(state: Option<Frame>, data: seq<byte>, s: Shape, order: seq<nat>)
    requires Cuts(s, data)
  {
    if order == [] then ReadyFor(state, s) else state.Some? && Gathered(state.value, data, s, order)
  }

  /** What the frame's own chunk answers. */
  ghost function OwnAnswer(data: seq<byte>, s: Shape, order: seq<nat>, i: nat, room: bool): Outcome {
    if order == [] && !room then Error(NoMemory) else NextAnswer(data, s, order, i)
  }

  lemma OwnChunkAnswers(state: Option<Frame>, data: seq<byte>, s: Shape, order: seq<nat>, i: nat, room: bool)
    requires Cuts(s, data) && i < s.chunkCount && StateOk(state) && Progress(state, data, s, order)
    ensures var (next, outcome) := Pushed(state, ChunkOf(data, s, i), room);
            && outcome == OwnAnswer(data, s, order, i, room)
            && if order == [] && !room then next == state else Progress(next, data, s, order + [i])
  {
    var p := ChunkOf(data, s, i);
    MarksRise(s, i);
    PlacementIsExact(p);
    if order == [] && !room {
      hide Geometry, WellShaped, Mark, NextAnswer;
    } else {
      hide FrameOk, Geometry, WellShaped, Piece, Mark, Place, NextAnswer, Gathered;
      OneChunkMore(state, data, s, order, i);
      assert Open(state, s, room) == Open(state, s, true) by {
        OpenNeedsNoRoom(state, data, s, order, room);
      }
    }
  }

  lemma OpenNeedsNoRoom(state: Option<Frame>, data: seq<byte>, s: Shape, order: seq<nat>, room: bool)
    requires Cuts(s, data) && Progress(state, data, s, order) && (order != [] || room)
    ensures Open(state, s, room) == Open(state, s, true)
  {
    hide Piece;
  }

  /** Half the circle and more behind is late, seen from the frame; the frame is ahead, seen
      from there. */
  lemma BehindIsLate(a: u16, b: u16)
    requires Distance(a, b) > 0x8000
    ensures a != b && 0 < Distance(b, a) <= 0xFFFF / 2 && Distance(a, b) > 0xFFFF / 2
  {
  }

  lemma StrangersChangeNothing(state: Option<Frame>, data: seq<byte>, s: Shape, order: seq<nat>, p: Packet, room: bool)
    requires Cuts(s, data) && StateOk(state) && Progress(state, data, s, order)
    requires !IsOwn(p, data, s) && Harmless(p, s, order)
    ensures var (next, outcome) := Pushed(state, p, room);
            && Progress(next, data, s, order)
            && (order != [] ==> next == state && (outcome.Error? || outcome.Late?))
  {
    PlacementIsExact(p);
    hide Geometry;
    if Geometry(p).At? {
      if order == [] {
        BehindIsLate(p.shape.frameNo, s.frameNo);
        OpenKeeps(state, p.shape, room);
        hide FrameOk, WellShaped, Piece, Mark;
        if Open(state, p.shape, room).Opened? {
          var f := Open(state, p.shape, room).frame;
          assert Place(f, p).0.shape == f.shape;
        }
      } else if p.shape.frameNo != s.frameNo {
        hide FrameOk, WellShaped, Piece, Mark;
      } else if p.shape == s {
        var i := p.index - 1;
        OtherBytesDiffer(p, data, s);
        hide FrameOk, WellShaped, Piece, Mark;
        assert state.value.chunks[i] == Some(Piece(data, s, i));
      } else {
        hide FrameOk, WellShaped, Piece, Mark;
      }
    }
  }

  lemma OtherBytesDiffer(p: Packet, data: seq<byte>, s: Shape)
    requires Cuts(s, data) && p.shape == s && 1 <= p.index <= s.chunkCount && !IsOwn(p, data, s)
    ensures p.payload != Piece(data, s, p.index - 1)
  {
    hide Piece;
  }

  lemma RunPrefix(state: Option<Frame>, ds: seq<Delivery>, data: seq<byte>, s: Shape, k: nat)
    requires Cuts(s, data) && Mixed(ds, data, s) && k <= |ds| && Sized(state)
    ensures Mixed(ds[..k], data, s)
    ensures k < |ds| ==>
              && Run(state, ds[..k + 1]) == Pushed(Run(state, ds[..k]), ds[k].packet, ds[k].room).0
              && ds[..k + 1][..k] == ds[..k]
              && (IsOwn(ds[k].packet, data, s) || Harmless(ds[k].packet, s, Taken(ds[..k], data, s)))
  {
    hide IsOwn, Harmless, Taken, Pushed;
    forall j | 0 <= j < k
      ensures IsOwn(ds[..k][j].packet, data, s) || Harmless(ds[..k][j].packet, s, Taken(ds[..k][..j], data, s))
    {
      assert ds[..k][..j] == ds[..j];
    }
    if k < |ds| {
      assert ds[..k + 1][..k] == ds[..k];
    }
  }

  lemma {:induction false} MixedProgress(state: Option<Frame>, ds: seq<Delivery>, data: seq<byte>, s: Shape)
    requires Cuts(s, data) && Mixed(ds, data, s) && StateOk(state) && ReadyFor(state, s)
    ensures Sized(state) && StateOk(Run(state, ds)) && Progress(Run(state, ds), data, s, Taken(ds, data, s))
  {
    hide StateOk, ReadyFor, Progress, Pushed, Cuts, Harmless, Sized, ChunkOf;
    IsSized(state);
    RunsStayOk(state, ds);
    if ds == [] {
      ReadyIsProgress(state, data, s);
    } else {
      var n := |ds| - 1;
      var d := ds[n];
      RunPrefix(state, ds, data, s, n);
      MixedProgress(state, ds[..n], data, s);
      assert ds[..n + 1] == ds;
      var order := Taken(ds[..n], data, s);
      if IsOwn(d.packet, data, s) {
        OwnChunkAnswers(Run(state, ds[..n]), data, s, order, d.packet.index - 1, d.room);
      } else {
        StrangersChangeNothing(Run(state, ds[..n]), data, s, order, d.packet, d.room);
      }
    }
  }

  lemma ReadyIsProgress(state: Option<Frame>, data: seq<byte>, s: Shape)
    requires Cuts(s, data) && ReadyFor(state, s)
    ensures Progress(state, data, s, [])
  {
  }

  /** The chunks of a frame, in any order and with any repeats, with harmless packets between
      them and failing allocations, answer duplicate when they got in before and incomplete
      until the last missing one, which answers complete with exactly the frame. Packets in
      between are refused once the frame is open. */
  lemma FrameArrives(state: Option<Frame>, ds: seq<Delivery>, data: seq<byte>, s: Shape, k: nat)
    requires Cuts(s, data) && Mixed(ds, data, s) && k < |ds|
    requires StateOk(state) && ReadyFor(state, s)
    ensures Sized(state)
    ensures var order := Taken(ds[..k], data, s);
            var i := ds[k].packet.index - 1;
            if !IsOwn(ds[k].packet, data, s) then
              order != [] ==> Answer(state, ds, k).Error? || Answer(state, ds, k).Late?
            else
              Answer(state, ds, k) ==
              if order == [] && !ds[k].room then Error(NoMemory)
              else if i in order then Duplicate
              else if Covers(order + [i], s.chunkCount) then Complete(data)
              else Incomplete
  {
    hide StateOk, ReadyFor, Progress, Pushed, Cuts, Harmless, Sized, ChunkOf, Taken, Run, Covers, Mixed;
    IsSized(state);
    RunPrefix(state, ds, data, s, k);
    MixedProgress(state, ds[..k], data, s);
    var order := Taken(ds[..k], data, s);
    if IsOwn(ds[k].packet, data, s) {
      OwnChunkAnswers(Run(state, ds[..k]), data, s, order, ds[k].packet.index - 1, ds[k].room);
    } else {
      StrangersChangeNothing(Run(state, ds[..k]), data, s, order, ds[k].packet, ds[k].room);
    }
  }

  /** While a frame is open, what does not belong to it is refused by its name, and changes
      nothing: an earlier frame's packet, another shape of the same frame, other bytes for a
      chunk already held. */
  lemma RefusalsAreNamed(f: Frame, p: Packet, room: bool)
    requires FrameOk(f) && Geometry(p).At?
    ensures var r := Pushed(Some(f), p, room);
            var behind := (p.shape.frameNo - f.shape.frameNo) % 0x1_0000 > 0x7fff;
            && (p.shape.frameNo != f.shape.frameNo && behind ==> r == (Some(f), Late))
            && (p.shape.frameNo != f.shape.frameNo && !behind && !room ==> r == (Some(f), Error(NoMemory)))
            && (p.shape.frameNo != f.shape.frameNo && !behind && room ==>
                  r.0.Some? && r.0.value.shape == p.shape && r.0.value.receivedChunks == 1
                  && r.1 == (if p.shape.chunkCount == 1 then Complete(p.payload) else Incomplete))
            && (p.shape.frameNo == f.shape.frameNo && p.shape != f.shape ==> r == (Some(f), Error(OtherShape)))
            && (p.shape == f.shape && f.chunks[p.index - 1].Some? ==>
                  r == (Some(f), if f.chunks[p.index - 1].value == p.payload then Duplicate else Error(OtherBytes)))
  {
    PlacementIsExact(p);
    MarksRise(p.shape, p.index - 1);
    DistanceIsTruncation(p.shape.frameNo, f.shape.frameNo);
    if p.shape.chunkCount == 1 {
      var chunks := seq<Option<seq<byte>>>(1, _ => None)[0 := Some(p.payload)];
      assert chunks[..0] == [] && [] + p.payload == p.payload;
      assert Assembled(chunks) == p.payload;
    }
    hide Geometry, Mark;
  }

  /** Delivery `k` is the chunk of the frame that completes it. */
  ghost predicate CompletesAt(state: Option<Frame>, ds: seq<Delivery>, data: seq<byte>, s: Shape, k: nat)
    requires Cuts(s, data) && Sized(state) && k < |ds|
  {
    IsOwn(ds[k].packet, data, s) && Answer(state, ds, k) == Complete(data)
  }

  lemma {:induction false} TakenGrows(ds: seq<Delivery>, data: seq<byte>, s: Shape, j: nat, k: nat)
    requires Cuts(s, data) && j <= k <= |ds|
    ensures Taken(ds[..j], data, s) <= Taken(ds[..k], data, s)
    decreases k - j
  {
    hide IsOwn;
    if j < k {
      TakenGrows(ds, data, s, j, k - 1);
      assert ds[..k][..k - 1] == ds[..k - 1];
    }
  }

  lemma TakenNext(ds: seq<Delivery>, data: seq<byte>, s: Shape, k: nat)
    requires Cuts(s, data) && k < |ds|
    ensures Taken(ds[..k + 1], data, s) ==
            if IsOwn(ds[k].packet, data, s) && (Taken(ds[..k], data, s) != [] || ds[k].room)
            then Taken(ds[..k], data, s) + [ds[k].packet.index - 1] else Taken(ds[..k], data, s)
  {
    hide IsOwn;
    assert ds[..k + 1][..k] == ds[..k];
  }

  /** So whatever comes between, the frame completes exactly once, as soon as every chunk has
      got in. */
  lemma CompletesOnce(state: Option<Frame>, ds: seq<Delivery>, data: seq<byte>, s: Shape)
    requires Cuts(s, data) && Mixed(ds, data, s)
    requires StateOk(state) && ReadyFor(state, s)
    ensures Sized(state)
    ensures Covers(Taken(ds, data, s), s.chunkCount) <==>
            exists k :: 0 <= k < |ds| && CompletesAt(state, ds, data, s, k)
    ensures forall j, k :: 0 <= j < k < |ds| && CompletesAt(state, ds, data, s, j) ==>
              !(IsOwn(ds[k].packet, data, s) && Answer(state, ds, k).Complete?)
  {
    hide StateOk, ReadyFor, Answer, Mixed, Taken, IsOwn, Covers, WellShaped, Mark, CompletesAt, Cuts;
    IsSized(state);
    CompletesWhenCovered(state, ds, data, s);
    forall j, k | 0 <= j < k < |ds| && CompletesAt(state, ds, data, s, j)
      ensures !(IsOwn(ds[k].packet, data, s) && Answer(state, ds, k).Complete?)
    {
      NeverTwice(state, ds, data, s, j, k);
    }
  }

  lemma NeverTwice(state: Option<Frame>, ds: seq<Delivery>, data: seq<byte>, s: Shape, j: nat, k: nat)
    requires Cuts(s, data) && Mixed(ds, data, s)
    requires StateOk(state) && ReadyFor(state, s) && Sized(state)
    requires j < k < |ds| && CompletesAt(state, ds, data, s, j)
    ensures !(IsOwn(ds[k].packet, data, s) && Answer(state, ds, k).Complete?)
  {
    MarksRise(s, 0);
    hide StateOk, ReadyFor, Answer, Mixed, Taken, IsOwn, Covers, WellShaped, Mark;
    CompletingFills(state, ds, data, s, j);
    TakenGrows(ds, data, s, j + 1, k);
    FullRepeats(state, ds, data, s, k, Taken(ds[..j + 1], data, s));
  }

  lemma CompletesWhenCovered(state: Option<Frame>, ds: seq<Delivery>, data: seq<byte>, s: Shape)
    requires Cuts(s, data) && Mixed(ds, data, s)
    requires StateOk(state) && ReadyFor(state, s) && Sized(state)
    ensures Covers(Taken(ds, data, s), s.chunkCount) <==>
            exists k :: 0 <= k < |ds| && CompletesAt(state, ds, data, s, k)
  {
    MarksRise(s, 0);
    hide StateOk, ReadyFor, Answer, Mixed, Taken, IsOwn, Covers, WellShaped, Mark;
    assert ds[..|ds|] == ds;
    if Covers(Taken(ds, data, s), s.chunkCount) {
      var k := LastMissing(state, ds, data, s, |ds|);
    }
    if k :| 0 <= k < |ds| && CompletesAt(state, ds, data, s, k) {
      CompletingFills(state, ds, data, s, k);
      TakenGrows(ds, data, s, k + 1, |ds|);
      CoversMore(Taken(ds[..k + 1], data, s), Taken(ds, data, s), s.chunkCount);
    }
  }

  lemma CoversMore(order: seq<nat>, more: seq<nat>, n: nat)
    requires Covers(order, n) && order <= more
    ensures Covers(more, n)
  {
    forall i: nat | i < n ensures i in more {
      assert i in order;
    }
  }

  lemma CompletingFills(state: Option<Frame>, ds: seq<Delivery>, data: seq<byte>, s: Shape, k: nat)
    requires Cuts(s, data) && Mixed(ds, data, s) && k < |ds| && StateOk(state) && ReadyFor(state, s) && Sized(state)
    requires CompletesAt(state, ds, data, s, k)
    ensures Covers(Taken(ds[..k + 1], data, s), s.chunkCount)
  {
    hide StateOk, ReadyFor, Answer, Mixed, Taken, IsOwn, Covers;
    FrameArrives(state, ds, data, s, k);
    TakenNext(ds, data, s, k);
  }

  /** Once all are in, the next is a repeat. */
  lemma FullRepeats(state: Option<Frame>, ds: seq<Delivery>, data: seq<byte>, s: Shape, k: nat, order: seq<nat>)
    requires Cuts(s, data) && Mixed(ds, data, s) && k < |ds| && StateOk(state) && ReadyFor(state, s) && Sized(state)
    requires Covers(order, s.chunkCount) && order <= Taken(ds[..k], data, s)
    ensures !(IsOwn(ds[k].packet, data, s) && Answer(state, ds, k).Complete?)
  {
    FrameArrives(state, ds, data, s, k);
    hide StateOk, ReadyFor, Answer, Mixed, Taken;
    if IsOwn(ds[k].packet, data, s) {
      assert ds[k].packet.index - 1 in order;
    }
  }

  lemma {:induction false} LastMissing(state: Option<Frame>, ds: seq<Delivery>, data: seq<byte>, s: Shape, n: nat)
    returns (k: nat)
    requires Cuts(s, data) && Mixed(ds, data, s) && n <= |ds| && StateOk(state) && ReadyFor(state, s) && Sized(state)
    requires Covers(Taken(ds[..n], data, s), s.chunkCount) && s.chunkCount > 0
    ensures k < n && CompletesAt(state, ds, data, s, k)
  {
    hide StateOk, ReadyFor, Answer, Mixed, IsOwn;
    assert 0 in Taken(ds[..n], data, s);
    TakenNext(ds, data, s, n - 1);
    var before := Taken(ds[..n - 1], data, s);
    if Covers(before, s.chunkCount) {
      k := LastMissing(state, ds, data, s, n - 1);
    } else {
      k := n - 1;
      FrameArrives(state, ds, data, s, k);
      var i: nat :| i < s.chunkCount && i !in before;
      assert i in Taken(ds[..n], data, s);
    }
  }

  /** What the chunks held were delivered as. */
  ghost predicate Delivered(state: Option<Frame>, deliveries: seq<Delivery>) {
    state.Some? ==>
      forall i :: 0 <= i < |state.value.chunks| && state.value.chunks[i].Some? ==>
        exists j :: 0 <= j < |deliveries| &&
          IsChunk(deliveries[j].packet, state.value.shape, i, state.value.chunks[i].value)
  }

  predicate IsChunk(p: Packet, s: Shape, i: nat, bytes: seq<byte>) {
    p.shape == s && p.index == i + 1 && p.payload == bytes
  }

  /** Nothing is made up: every chunk held was the payload of a packet of this frame. */
  lemma {:induction false} HeldWasDelivered(deliveries: seq<Delivery>)
    ensures Delivered(Run(None, deliveries), deliveries)
  {
    if deliveries != [] {
      var n := |deliveries| - 1;
      var earlier, p := deliveries[..n], deliveries[n].packet;
      HeldWasDelivered(earlier);
      var before, after := Run(None, earlier), Run(None, deliveries);
      PushAddsOne(before, p, deliveries[n].room);
      assert after == Pushed(before, p, deliveries[n].room).0;
      hide Run, Pushed;
      if after.Some? {
        forall i | 0 <= i < |after.value.chunks| && after.value.chunks[i].Some?
          ensures exists j :: 0 <= j < |deliveries| &&
                    IsChunk(deliveries[j].packet, after.value.shape, i, after.value.chunks[i].value)
        {
          if IsChunk(p, after.value.shape, i, after.value.chunks[i].value) {
            assert IsChunk(deliveries[n].packet, after.value.shape, i, after.value.chunks[i].value);
          } else {
            var j :| 0 <= j < |earlier| && IsChunk(earlier[j].packet, before.value.shape, i, before.value.chunks[i].value);
            assert deliveries[j] == earlier[j];
          }
        }
      }
    }
  }

  lemma PushAddsOne(before: Option<Frame>, p: Packet, room: bool)
    requires Sized(before)
    ensures var after := Pushed(before, p, room).0;
            after.Some? ==>
              forall i :: 0 <= i < |after.value.chunks| && after.value.chunks[i].Some? ==>
                || IsChunk(p, after.value.shape, i, after.value.chunks[i].value)
                || (&& before.Some? && before.value.shape == after.value.shape
                    && |before.value.chunks| == |after.value.chunks|
                    && before.value.chunks[i] == after.value.chunks[i])
  {
    PlacementIsExact(p);
    hide Geometry, WellShaped, Assembled;
  }

  /** A completed frame consists of payloads that were delivered for it, each in its place. */
  lemma CompletedWasDelivered(deliveries: seq<Delivery>, k: nat, i: nat)
    requires k < |deliveries| && Answer(None, deliveries, k).Complete?
    requires i < deliveries[k].packet.shape.chunkCount
    ensures var s, output := deliveries[k].packet.shape, Answer(None, deliveries, k).output;
            && Mark(s, i) < Mark(s, i + 1) <= |output| == s.fullLength
            && exists j :: 0 <= j <= k && IsChunk(deliveries[j].packet, s, i, output[Mark(s, i)..Mark(s, i + 1)])
  {
    var s, output := deliveries[k].packet.shape, Answer(None, deliveries, k).output;
    var upto := deliveries[..k + 1];
    assert upto[..k] == deliveries[..k];
    RunsStayOk(None, upto);
    RunsStayOk(None, deliveries[..k]);
    HeldWasDelivered(upto);
    CompleteIsAssembled(Run(None, deliveries[..k]), deliveries[k].packet, deliveries[k].room);
    var f := Run(None, upto).value;
    MarksRise(s, i);
    FullLength(s, f.chunks);
    MarksRise(s, 0);
    hide Run, FrameOk, WellShaped, Assembled, Answer, Pushed, Geometry;
    AssembledAt(s, f.chunks, i);
    var j :| 0 <= j < |upto| && IsChunk(upto[j].packet, s, i, f.chunks[i].value);
    assert upto[j] == deliveries[j];
  }

  lemma CompleteIsAssembled(before: Option<Frame>, p: Packet, room: bool)
    requires StateOk(before) && Pushed(before, p, room).1.Complete?
    ensures var (after, outcome) := Pushed(before, p, room);
            && after.Some? && FrameOk(after.value) && after.value.shape == p.shape
            && Covered(after.value.chunks) && outcome == Complete(Assembled(after.value.chunks))
  {
    PlacementIsExact(p);
    OpenKeeps(before, p.shape, room);
    var f := Open(before, p.shape, room).frame;
    PlaceKeepsFrame(f, p);
    PlaceKeeps(f, p);
    hide Geometry, WellShaped, Assembled, FrameOk;
  }

  lemma {:induction false} AssembledAt(s: Shape, chunks: seq<Option<seq<byte>>>, i: nat)
    requires WellShaped(s) && i < |chunks| <= s.chunkCount && ChunksFit(s, chunks) && Covered(chunks)
    ensures Mark(s, i) <= Mark(s, i + 1) <= |Assembled(chunks)|
    ensures Assembled(chunks)[Mark(s, i)..Mark(s, i + 1)] == chunks[i].value
  {
    var n := |chunks| - 1;
    var rest := chunks[..n];
    MarksRise(s, i);
    FullLength(s, chunks);
    AssembledMore(chunks);
    if i < n {
      FitPrefix(s, chunks, n);
      hide Mark, WellShaped, ChunksFit, Assembled, Covered;
      AssembledAt(s, rest, i);
      SliceOfPrefix(Assembled(rest), chunks[n].value, Mark(s, i), Mark(s, i + 1));
    } else {
      FitPrefix(s, chunks, n);
      FullLength(s, rest);
      hide Mark, WellShaped, ChunksFit, Assembled;
      assert (Assembled(rest) + chunks[n].value)[|Assembled(rest)|..] == chunks[n].value;
    }
  }

  lemma AssembledMore(chunks: seq<Option<seq<byte>>>)
    requires Covered(chunks) && chunks != []
    ensures var n := |chunks| - 1; Assembled(chunks) == Assembled(chunks[..n]) + chunks[n].value
  {
  }

  lemma FitPrefix(s: Shape, chunks: seq<Option<seq<byte>>>, n: nat)
    requires ChunksFit(s, chunks) && Covered(chunks) && n <= |chunks|
    ensures ChunksFit(s, chunks[..n]) && Covered(chunks[..n])
  {
    hide Mark;
  }

  lemma SliceOfPrefix(a: seq<byte>, b: seq<byte>, from: nat, to: nat)
    requires from <= to <= |a|
    ensures (a + b)[from..to] == a[from..to]
  {
  }

  // ---------------------------------------------------------------------------
  // The bitmap.

  function Mask(i: nat): bv8 {
    (1 as bv8) << (i % 8)
  }

  predicate IsSet(bitmap: seq<bv8>, i: nat)
    requires i / 8 < |bitmap|
  {
    bitmap[i / 8] & Mask(i) != 0
  }

  function MapSize(chunkCount: nat): nat {
    (chunkCount + 7) / 8
  }

  lemma MaskValue(i: nat)
    ensures i % 8 == 0 ==> Mask(i) == 1
    ensures i % 8 == 1 ==> Mask(i) == 2
    ensures i % 8 == 2 ==> Mask(i) == 4
    ensures i % 8 == 3 ==> Mask(i) == 8
    ensures i % 8 == 4 ==> Mask(i) == 16
    ensures i % 8 == 5 ==> Mask(i) == 32
    ensures i % 8 == 6 ==> Mask(i) == 64
    ensures i % 8 == 7 ==> Mask(i) == 128
  {
  }

  lemma MasksAreDisjoint(i: nat, j: nat)
    ensures Mask(i) != 0
    ensures i % 8 != j % 8 ==> Mask(i) & Mask(j) == 0
  {
    MaskValue(i);
    MaskValue(j);
    hide Mask;
  }

  lemma SetBits(x: bv8, m: bv8, n: bv8)
    ensures (x | m) & m == m
    ensures m & n == 0 ==> (x | m) & n == x & n
  {
  }

  lemma BitAfter(x: bv8, i: nat, j: nat)
    ensures (x | Mask(i)) & Mask(j) != 0 <==> Mask(i) == Mask(j) || x & Mask(j) != 0
    ensures Mask(i) == Mask(j) <==> i % 8 == j % 8
  {
    MasksAreDisjoint(i, j);
    SetBits(x, Mask(i), Mask(j));
    if i % 8 == j % 8 {
      SameMask(i, j);
    }
    hide Mask;
  }

  lemma SameMask(i: nat, j: nat)
    requires i % 8 == j % 8
    ensures Mask(i) == Mask(j)
  {
  }

  /** Setting bit `i` sets that bit and no other. */
  lemma SettingBit(bitmap: seq<bv8>, i: nat, j: nat)
    requires i / 8 < |bitmap| && j / 8 < |bitmap|
    ensures IsSet(bitmap[i / 8 := bitmap[i / 8] | Mask(i)], j) <==> j == i || IsSet(bitmap, j)
  {
    BitAfter(bitmap[i / 8], i, j);
    hide Mask;
    SamePlace(i, j);
  }

  lemma SamePlace(i: nat, j: nat)
    ensures i == j <==> i / 8 == j / 8 && i % 8 == j % 8
  {
    assert i == i / 8 * 8 + i % 8 && j == j / 8 * 8 + j % 8;
  }

  lemma NoBits(i: nat)
    ensures 0 & Mask(i) == 0
  {
    hide Mask;
  }

  // ---------------------------------------------------------------------------
  // The reassembler.

  /** The chunks a buffer and a bitmap stand for. */
  function Stored(s: Shape, data: seq<byte>, bitmap: seq<bv8>): (chunks: seq<Option<seq<byte>>>)
    requires Cuts(s, data) && |bitmap| == MapSize(s.chunkCount)
    ensures |chunks| == s.chunkCount
  {
    seq(s.chunkCount, i requires 0 <= i < s.chunkCount =>
      if IsSet(bitmap, i) then Some(Piece(data, s, i)) else None)
  }

  lemma MarksAreOrdered(s: Shape, i: nat, j: nat)
    requires i <= j
    ensures Mark(s, i) <= Mark(s, j)
  {
    ProductsGrow(i, j, s.capacity);
  }

  /** Copying a chunk in and setting its bit adds that chunk and leaves the others. */
  lemma StoringOne(s: Shape, data: seq<byte>, after: seq<byte>, bitmap: seq<bv8>, i: nat, payload: seq<byte>)
    requires Cuts(s, data) && Cuts(s, after) && |bitmap| == MapSize(s.chunkCount) && i < s.chunkCount
    requires Mark(s, i) <= Mark(s, i + 1) <= |data| && |payload| == Mark(s, i + 1) - Mark(s, i)
    requires after == data[..Mark(s, i)] + payload + data[Mark(s, i + 1)..]
    ensures Stored(s, after, bitmap[i / 8 := bitmap[i / 8] | Mask(i)]) == Stored(s, data, bitmap)[i := Some(payload)]
  {
    var left := Stored(s, after, bitmap[i / 8 := bitmap[i / 8] | Mask(i)]);
    var right := Stored(s, data, bitmap)[i := Some(payload)];
    forall j: nat | j < s.chunkCount ensures left[j] == right[j]
    {
      MarksRise(s, j);
      SettingBit(bitmap, i, j);
      hide Mark, WellShaped, IsSet, Mask;
      if j < i {
        MarksAreOrdered(s, j + 1, i);
        assert Piece(after, s, j) == Piece(data, s, j);
      } else if i < j {
        MarksAreOrdered(s, i + 1, j);
        assert Piece(after, s, j) == Piece(data, s, j);
      } else {
        assert Piece(after, s, i) == payload;
      }
    }
  }

  lemma StoredNone(s: Shape, data: seq<byte>, bitmap: seq<bv8>)
    requires Cuts(s, data) && |bitmap| == MapSize(s.chunkCount) && forall k :: 0 <= k < |bitmap| ==> bitmap[k] == 0
    ensures Frame(s, Stored(s, data, bitmap), 0, 0) == Started(s)
    ensures FrameOk(Started(s)) && s.chunkCount > 0
  {
    NothingHeld(s.chunkCount);
    forall i: nat | i < s.chunkCount ensures !IsSet(bitmap, i) {
      NoBits(i);
    }
  }

  /** The plain fields of the C struct. */
  datatype Header = Header(shape: Shape, received: nat, receivedChunks: nat, complete: bool)

  /** All that placing a packet comes to. */
  lemma PlaceFacts(f: Frame, p: Packet)
    requires FrameOk(f) && f.shape == p.shape && Geometry(p).At?
    ensures 0 < p.index <= |f.chunks| == f.shape.chunkCount
    ensures var i := p.index - 1;
            && Geometry(p).offset == Mark(f.shape, i)
            && Geometry(p).offset + |p.payload| == Mark(f.shape, i + 1) <= f.shape.fullLength
            && (f.chunks[i].Some? ==>
                  Place(f, p) == (f, if f.chunks[i].value != p.payload then Error(OtherBytes) else Duplicate))
            && (f.chunks[i].None? ==>
                  var (g, outcome) := Place(f, p);
                  && FrameOk(g) && f.receivedChunks != f.shape.chunkCount
                  && g == Frame(f.shape, f.chunks[i := Some(p.payload)], f.received + |p.payload|, f.receivedChunks + 1)
                  && outcome == if g.receivedChunks != g.shape.chunkCount then Incomplete
                                else if g.received != g.shape.fullLength then Error(Shortfall)
                                else Complete(Assembled(g.chunks)))
  {
    PlacementIsExact(p);
    MarksRise(f.shape, p.index - 1);
    hide Geometry, Mark, WellShaped, Assembled;
    PlaceKeepsFrame(f, p);
    if f.chunks[p.index - 1].None? {
      NotYetFull(f, p.index - 1);
    }
  }

  lemma StoredAt(s: Shape, data: seq<byte>, bitmap: seq<bv8>, i: nat)
    requires WellShaped(s) && s.fullLength == |data| && |bitmap| == MapSize(s.chunkCount) && i < s.chunkCount
    ensures i / 8 < |bitmap| && Mark(s, i) <= Mark(s, i + 1) <= |data|
    ensures Cuts(s, data)
    ensures Stored(s, data, bitmap)[i] == if bitmap[i / 8] & Mask(i) != 0 then Some(data[Mark(s, i)..Mark(s, i + 1)]) else None
  {
    MarksRise(s, i);
    hide Mark, WellShaped, Mask;
  }

  /** The chunk a packet names, read from bitmap and buffer. */
  lemma ChunkInBuffer(s: Shape, data: seq<byte>, bitmap: seq<bv8>, p: Packet)
    requires WellShaped(s) && s.fullLength == |data| && |bitmap| == MapSize(s.chunkCount)
    requires p.shape == s && Geometry(p).At?
    ensures 1 <= p.index <= s.chunkCount && Cuts(s, data)
    ensures var i, offset := p.index - 1, Geometry(p).offset;
            && i / 8 < |bitmap| && offset + |p.payload| <= |data|
            && Stored(s, data, bitmap)[i] ==
               if bitmap[i / 8] & Mask(i) != 0 then Some(data[offset..offset + |p.payload|]) else None
  {
    PlacementIsExact(p);
    hide Geometry, Stored, Mask, Mark, WellShaped;
    StoredAt(s, data, bitmap, p.index - 1);
  }

  class Reassembly {
    var header: Header
    var buffer: array?<byte>
    var receivedMap: array?<bv8>

    ghost predicate Sound()
      reads this, buffer, receivedMap
    {
      && (buffer == null <==> receivedMap == null)
      && (buffer != null ==> (buffer as object) != (receivedMap as object))
      && (buffer != null ==>
            && WellShaped(header.shape) && buffer.Length == header.shape.fullLength
            && receivedMap.Length == MapSize(header.shape.chunkCount))
    }

    ghost function Value(): Option<Frame>
      requires Sound()
      reads this, buffer, receivedMap
    {
      if buffer == null then None
      else Some(Frame(header.shape, Stored(header.shape, buffer[..], receivedMap[..]),
                      header.received, header.receivedChunks))
    }

    ghost predicate Valid()
      reads this, buffer, receivedMap
    {
      && Sound() && StateOk(Value())
      && (header.complete <==> buffer != null && header.receivedChunks == header.shape.chunkCount)
    }

    constructor ()
      ensures Valid() && Value() == None
    {
      header := Header(Shape(0, 0, 0, 0), 0, 0, false);
      buffer, receivedMap := null, null;
    }

    method Reset()
      modifies this
      ensures Valid() && Value() == None
    {
      header := Header(Shape(0, 0, 0, 0), 0, 0, false);
      buffer, receivedMap := null, null;
    }

    /** Fails, and keeps the frame in hand, when an allocation fails. */
    method StartFrame(s: Shape, room: bool) returns (started: bool)
      requires Valid() && WellShaped(s)
      modifies this
      ensures Valid() && started == room
      ensures started ==> fresh(buffer) && fresh(receivedMap) && Value() == Some(Started(s))
      ensures !started ==> unchanged(this)
    {
      hide FrameOk, Stored, WellShaped, Started;
      if !room {
        return false;
      }
      var data := new byte[s.fullLength];
      var bitmap := new bv8[MapSize(s.chunkCount)](_ => 0);
      StoredNone(s, data[..], bitmap[..]);
      header, buffer, receivedMap := Header(s, 0, 0, false), data, bitmap;
      return true;
    }

    /** One packet. `room` says whether the two allocations of a new frame succeed. */
    method Push(p: Packet, room: bool) returns (outcome: Outcome)
      requires Valid()
      modifies this, buffer, receivedMap
      ensures Valid() && Sized(old(Value()))
      ensures (Value(), outcome) == Pushed(old(Value()), p, room)
    {
      PlacementIsExact(p);
      PushKeeps(Value(), p, room);
      hide Geometry, FrameOk, Stored, WellShaped, Place;
      var placement := Geometry(p);
      if placement.Misfit? {
        return Error(placement.fault);
      }
      if buffer == null {
        var started := StartFrame(p.shape, room);
        if !started {
          return Error(NoMemory);
        }
      } else if p.shape.frameNo != header.shape.frameNo {
        if Distance(p.shape.frameNo, header.shape.frameNo) > 0xFFFF / 2 {
          return Late;
        }
        var started := StartFrame(p.shape, room);
        if !started {
          return Error(NoMemory);
        }
      } else if p.shape != header.shape {
        return Error(OtherShape);
      }
      outcome := PlaceChunk(p);
    }

    /** The second half of a push, once the packet's frame is in hand. */
    method PlaceChunk(p: Packet) returns (outcome: Outcome)
      requires Valid() && buffer != null && p.shape == header.shape && Geometry(p).At?
      modifies this, buffer, receivedMap
      ensures Valid() && buffer == old(buffer) && receivedMap == old(receivedMap)
      ensures 0 < p.index <= |old(Value()).value.chunks|
      ensures buffer != null && (Value().value, outcome) == Place(old(Value()).value, p)
    {
      hide FrameOk, WellShaped, Assembled, Geometry, Covered, Mark, Stored, Mask, Place, Cuts;
      ghost var before := Value().value;
      PlaceFacts(before, p);
      var seen := Seen(p);
      if seen.Some? {
        return seen.value;
      }
      StoreChunk(p.index - 1, Geometry(p).offset, p.payload);
      ghost var g := Place(before, p).0;
      outcome := CountChunk(|p.payload|, g);
    }

    /** A chunk that is already there: the same bytes, or others. */
    method Seen(p: Packet) returns (seen: Option<Outcome>)
      requires Valid() && buffer != null && p.shape == header.shape && Geometry(p).At?
      ensures 0 < p.index <= |Value().value.chunks|
      ensures var chunk := Value().value.chunks[p.index - 1];
              seen == if chunk.None? then None
                      else Some(if chunk.value != p.payload then Error(OtherBytes) else Duplicate)
    {
      hide FrameOk, WellShaped, Assembled, Geometry, Covered, Stored, Mask, Cuts;
      ChunkInBuffer(header.shape, buffer[..], receivedMap[..], p);
      var i, offset := p.index - 1, Geometry(p).offset;
      if receivedMap[i / 8] & Mask(i) == 0 {
        return None;
      }
      if buffer[offset..offset + |p.payload|] != p.payload {
        return Some(Error(OtherBytes));
      }
      return Some(Duplicate);
    }

    /** The copy into the buffer and the bit that records it. */
    method StoreChunk(i: nat, offset: nat, payload: seq<byte>)
      requires Sound() && buffer != null && i < header.shape.chunkCount
      requires offset == Mark(header.shape, i) && offset + |payload| == Mark(header.shape, i + 1) <= buffer.Length
      modifies buffer, receivedMap
      ensures Sound()
      ensures Value() == Some(old(Value()).value.(chunks := old(Value()).value.chunks[i := Some(payload)]))
    {
      hide Stored, Mark, Mask, WellShaped;
      ghost var data, bitmap := buffer[..], receivedMap[..];
      CopyInto(buffer, offset, payload);
      SetBit(receivedMap, i);
      StoringOne(header.shape, data, buffer[..], bitmap, i, payload);
    }

    /** Counts a stored chunk and says whether it was the last one. */
    method CountChunk(length: nat, ghost g: Frame) returns (outcome: Outcome)
      requires Sound() && buffer != null && FrameOk(g) && !header.complete
      requires Value() == Some(g.(received := header.received, receivedChunks := header.receivedChunks))
      requires g.received == header.received + length && g.receivedChunks == header.receivedChunks + 1
      modifies this`header
      ensures Valid() && Value() == Some(g)
      ensures outcome == if g.receivedChunks != g.shape.chunkCount then Incomplete
                         else if g.received != g.shape.fullLength then Error(Shortfall)
                         else Complete(Assembled(g.chunks))
    {
      FullWhenCounted(g);
      hide FrameOk, Stored, WellShaped, Assembled, Covered;
      var h := header.(received := header.received + length, receivedChunks := header.receivedChunks + 1);
      header := h;
      if h.receivedChunks != h.shape.chunkCount {
        return Incomplete;
      }
      if h.received != h.shape.fullLength {
        return Error(Shortfall);
      }
      header := h.(complete := true);
      WholeBuffer(h.shape, buffer[..], receivedMap[..]);
      return Complete(buffer[..]);
    }
  }

  method SetBit(bitmap: array<bv8>, i: nat)
    requires i / 8 < bitmap.Length
    modifies bitmap
    ensures bitmap[..] == old(bitmap[..])[i / 8 := old(bitmap[i / 8]) | Mask(i)]
    ensures forall j: nat :: j / 8 < bitmap.Length ==> (IsSet(bitmap[..], j) <==> j == i || IsSet(old(bitmap[..]), j))
  {
    hide Mask, IsSet;
    bitmap[i / 8] := bitmap[i / 8] | Mask(i);
    forall j: nat | j / 8 < bitmap.Length
      ensures IsSet(bitmap[..], j) <==> j == i || IsSet(old(bitmap[..]), j)
    {
      SettingBit(old(bitmap[..]), i, j);
    }
  }

  lemma WholeBuffer(s: Shape, data: seq<byte>, bitmap: seq<bv8>)
    requires Cuts(s, data) && |bitmap| == MapSize(s.chunkCount) && Covered(Stored(s, data, bitmap))
    ensures Assembled(Stored(s, data, bitmap)) == data
  {
    MarksRise(s, 0);
    var chunks := Stored(s, data, bitmap);
    assert forall i: nat :: i < |chunks| ==> chunks[i] == Some(Piece(data, s, i));
    PiecesAssemble(data, s, chunks);
    assert data[..|data|] == data;
  }
}
