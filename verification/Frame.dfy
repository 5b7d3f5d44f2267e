/** Control frames on the wire: printed by src/gvs_serialize.c, read by src/gvs_frame.c. */
module Frames {
  import opened Words

  const MAGIC: seq<byte> := [0x47, 0x56, 0x53, 0x47, 0x56, 0x53, 0xA5, 0xA5, 0xA5, 0xA5]
  const HEADER_SIZE := 42

  /** The two opaque header fields a provider fills in. */
  type Opaque = a: seq<byte> | |a| == 8 witness [0, 0, 0, 0, 0, 0, 0, 0]

  datatype Frame = Frame(destination: Address, source: Address, family: byte, opcode: byte, payload: seq<byte>)

  datatype EventType = Unknown | IncomingCall | Hangup | StationObserved | PreviewStarted
                     | SessionEstablished | UnlockResultObserved | PickReplyObserved

  function EventOf(f: Frame): EventType {
    if f.family == 0x03 && f.opcode == 0x01 then IncomingCall
    else if f.family == 0x03 && f.opcode == 0x04 then PreviewStarted
    else if f.family == 0x03 && f.opcode == 0x86 then StationObserved
    else if f.family == 0x04 && f.opcode == 0x89 then UnlockResultObserved
    else if f.family == 0x03 && f.opcode == 0x83 && |f.payload| == 7 then PickReplyObserved
    else Unknown
  }

  /** A frame addressed to any machine of the room. */
  predicate IsFor(f: Frame, identity: Address) {
    f.destination[..5] == identity[..5]
  }

  /** An incoming call may leave six bytes of its declared payload off. */
  predicate LengthFits(family: byte, opcode: byte, declared: nat, actual: nat) {
    || actual == declared
    || (family == 0x03 && opcode == 0x01 && declared >= 6 && actual == declared - 6)
  }

  /** A 16-bit number, low byte first. */
  function Word(low: int, high: int): int {
    low + 256 * high
  }

  function Parse(data: seq<byte>): Option<Frame> {
    if |data| < HEADER_SIZE || data[..10] != MAGIC then None
    else
      var f := Frame(data[10..16], data[16..22], data[38], data[39], data[HEADER_SIZE..]);
      if LengthFits(f.family, f.opcode, Word(data[40], data[41]), |f.payload|) then Some(f) else None
  }

  function Image(f: Frame, random: Opaque, encryption: Opaque): (data: seq<byte>)
    requires |f.payload| <= 0xFFFF
    ensures |data| == HEADER_SIZE + |f.payload|
  {
    MAGIC + f.destination + f.source + random + encryption
    + [f.family, f.opcode, |f.payload| % 256, |f.payload| / 256] + f.payload
  }

  /** Reading what was printed gives the frame back, whatever the opaque fields. */
  lemma ParseOfImage(f: Frame, random: Opaque, encryption: Opaque)
    requires |f.payload| <= 0xFFFF
    ensures Parse(Image(f, random, encryption)) == Some(f)
  {
    var data := Image(f, random, encryption);
    assert data[..10] == MAGIC;
    assert data[10..16] == f.destination;
    assert data[16..22] == f.source;
    assert data[38] == f.family && data[39] == f.opcode;
    assert Word(data[40], data[41]) == |f.payload|;
    assert data[HEADER_SIZE..] == f.payload;
  }

  /** And only such images, or an incoming call six bytes short, are read as frames. */
  lemma ImageOfParse(data: seq<byte>)
    requires Parse(data).Some? && |data| <= HEADER_SIZE + 0xFFFF
    ensures var f := Parse(data).value;
            || data == Image(f, data[22..30], data[30..38])
            || (EventOf(f) == IncomingCall && Word(data[40], data[41]) == |f.payload| + 6)
  {
    var f := Parse(data).value;
    if Word(data[40], data[41]) == |f.payload| {
      var image := Image(f, data[22..30], data[30..38]);
      assert data[40] == |f.payload| % 256 && data[41] == |f.payload| / 256;
      forall i | 0 <= i < |data| ensures data[i] == image[i] {
        assert data[..10] == MAGIC;
        assert i >= HEADER_SIZE ==> f.payload[i - HEADER_SIZE] == data[i];
      }
    }
  }

  /** What the header provider answers: the two fields, or a refusal. */
  type Provided = Option<(Opaque, Opaque)>

  /** Prints a frame at the front of the buffer; refusals leave the buffer alone. */
  method Serialize(output: array<byte>, capacity: nat, f: Frame, provided: Provided)
    returns (status: Status, length: nat)
    requires capacity <= output.Length && |f.payload| <= 0xFFFF
    modifies output
    ensures status == if capacity < HEADER_SIZE + |f.payload| || provided.None? then Invalid else Ok
    ensures status != Ok ==> length == 0 && output[..] == old(output[..])
    ensures status == Ok ==>
              && length == HEADER_SIZE + |f.payload|
              && output[..] == Image(f, provided.value.0, provided.value.1) + old(output[..])[length..]
  {
    var required := HEADER_SIZE + |f.payload|;
    if capacity < required || provided.None? {
      return Invalid, 0;
    }
    ghost var was := output[..];
    CopyInto(output, 0, MAGIC);
    ghost var p := MAGIC;
    assert output[..] == p + was[10..];
    hide Image;
    p := PutNext(output, was, p, 10, f.destination);
    p := PutNext(output, was, p, 16, f.source);
    p := PutNext(output, was, p, 22, provided.value.0);
    p := PutNext(output, was, p, 30, provided.value.1);
    p := PutNext(output, was, p, 38, [f.family, f.opcode, |f.payload| % 256, |f.payload| / 256]);
    p := PutNext(output, was, p, HEADER_SIZE, f.payload);
    ImageFields(f, provided.value.0, provided.value.1);
    return Ok, required;
  }

  lemma ImageFields(f: Frame, random: Opaque, encryption: Opaque)
    requires |f.payload| <= 0xFFFF
    ensures Image(f, random, encryption) ==
            MAGIC + f.destination + f.source + random + encryption
            + [f.family, f.opcode, |f.payload| % 256, |f.payload| / 256] + f.payload
  {
  }

  /** Copies a field in after the ones before it. */
  method PutNext(output: array<byte>, ghost was: seq<byte>, ghost before: seq<byte>, offset: nat, bytes: seq<byte>)
    returns (ghost after: seq<byte>)
    requires |was| == output.Length && offset == |before| && offset + |bytes| <= output.Length
    requires output[..] == before + was[offset..]
    modifies output
    ensures after == before + bytes && output[..] == after + was[|after|..]
  {
    CopyInto(output, offset, bytes);
    after := before + bytes;
    assert (before + was[offset..])[..offset] == before;
    assert (before + was[offset..])[offset + |bytes|..] == was[offset + |bytes|..];
  }
}
