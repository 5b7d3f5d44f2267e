/** Machine integers of the C sources: bytes, 16-bit wrapping sequence numbers,
    64-bit clocks and counters, and the few facts about them every module needs. */
module Words {
  const U16_SIZE := 0x1_0000
  const U64_MAX := 0xFFFF_FFFF_FFFF_FFFF

  type byte = x: int | 0 <= x < 256
  type u16 = x: int | 0 <= x < 0x1_0000
  type u64 = x: int | 0 <= x <= 0xFFFF_FFFF_FFFF_FFFF

  /** A six-byte GVS address. */
  type Address = a: seq<byte> | |a| == 6 witness [0, 0, 0, 0, 0, 0]

  datatype Option<+T> = None | Some(value: T)

  /** The status codes of doorfast.h. */
  datatype Status = Ok | Invalid | Io

  /** `(uint16_t)(a - b)`: how far `a` lies ahead of `b` on the sequence circle. */
  function Distance(a: u16, b: u16): u16 {
    if a >= b then a - b else a + U16_SIZE - b
  }

  /** `(uint16_t)(a + 1)`. */
  function Successor(a: u16): u16 {
    if a == U16_SIZE - 1 then 0 else a + 1
  }

  /** Both are the truncating casts of the C code. */
  lemma DistanceIsTruncation(a: u16, b: u16)
    ensures Distance(a, b) == (a - b) % U16_SIZE
    ensures Successor(a) == (a + 1) % U16_SIZE
  {
    if a < b {
      assert (a - b) / U16_SIZE == -1;
    }
  }

  /** An unsigned 64-bit increment, wrapping as C does. */
  function Increment(x: u64): u64 {
    if x == U64_MAX then 0 else x + 1
  }

  function Min(a: int, b: int): int {
    if a <= b then a else b
  }

  function Max(a: int, b: int): int {
    if a <= b then b else a
  }

  lemma ProductsGrow(a: nat, b: nat, c: nat)
    requires a <= b
    ensures a * c <= b * c
  {
    assert b * c == a * c + (b - a) * c;
  }

  /** `memcpy` into the middle of a buffer. */
  method CopyInto(a: array<byte>, offset: nat, bytes: seq<byte>)
    requires offset + |bytes| <= a.Length
    modifies a
    ensures a[..] == old(a[..])[..offset] + bytes + old(a[..])[offset + |bytes|..]
  {
    forall k | 0 <= k < |bytes| {
      a[offset + k] := bytes[k];
    }
  }
}
