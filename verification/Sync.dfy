/** The shared settings of a room: printed as JSON in frames 91/03, and read back
    (src/gvs_sync.c; strings as in section 7 of RFC 8259, restricted to 7-bit). */
module Syncs {
  import opened Words
  import opened Frames
  import Presences

  const KEY_SIZE := 64
  const VALUE_SIZE := 256
  const CHUNK_ENTRIES := 20
  const MAX_ENTRIES := 64
  const MAX_PACKET := 1500
  const MAX_JSON := MAX_PACKET - HEADER_SIZE - 2

  /** A C string: bytes up to, and without, the terminating zero. */
  type Text = t: seq<byte> | forall i :: 0 <= i < |t| ==> t[i] != 0 witness []

  datatype Entry = Entry(key: Text, value: Text)

  type DataType = Presences.DataType

  const QUOTE: byte := 0x22
  const BACKSLASH: byte := 0x5C
  const COMMA: byte := 0x2C
  const COLON: byte := 0x3A
  const OPEN_BRACE: byte := 0x7B
  const CLOSE_BRACE: byte := 0x7D
  const OPEN_BRACKET: byte := 0x5B
  const CLOSE_BRACKET: byte := 0x5D
  const ZERO: byte := 0x30
  const LETTER_U: byte := 0x75

  /** The ASCII words of the format. */
  const NORMAL: Text := [0x4E, 0x6F, 0x72, 0x6D, 0x61, 0x6C]
  const PERIOD: Text := [0x50, 0x65, 0x72, 0x69, 0x6F, 0x64]
  const TYPE: Text := [0x54, 0x59, 0x50, 0x45]
  const COUNT: Text := [0x43, 0x4F, 0x55, 0x4E, 0x54]
  const INFO: Text := [0x49, 0x4E, 0x46, 0x4F]
  const KEY: Text := [0x4B, 0x45, 0x59]
  const VALUE: Text := [0x56, 0x41, 0x4C, 0x55, 0x45]

  function NameOf(kind: DataType): Text {
    if kind == Presences.Normal then NORMAL else PERIOD
  }

  // ---------------------------------------------------------------------------
  // Printing.

  function HexDigit(n: nat): byte
    requires n < 16
  {
    if n < 10 then 0x30 + n else 0x41 + n - 10
  }

  /** How a 7-bit character is printed inside a string. */
  function Escaped(b: byte): seq<byte> {
    if b == QUOTE || b == BACKSLASH then [BACKSLASH, b]
    else if b < 0x20 then [BACKSLASH, LETTER_U, ZERO, ZERO, HexDigit(b / 16), HexDigit(b % 16)]
    else [b]
  }

  function EscapedAll(t: seq<byte>): seq<byte> {
    if t == [] then [] else Escaped(t[0]) + EscapedAll(t[1..])
  }

  function Quoted(t: Text): seq<byte> {
    [QUOTE] + EscapedAll(t) + [QUOTE]
  }

  predicate SevenBit(t: seq<byte>) {
    forall i :: 0 <= i < |t| ==> t[i] <= 0x7F
  }

  function Member(name: Text): seq<byte> {
    Quoted(name) + [COLON]
  }

  function Decimal(n: nat): seq<byte>
    requires n <= CHUNK_ENTRIES
  {
    if n < 10 then [ZERO + n] else [ZERO + n / 10, ZERO + n % 10]
  }

  function PrintedEntry(e: Entry): seq<byte> {
    [OPEN_BRACE] + (Member(KEY) + (Quoted(e.key) + ([COMMA] + (Member(VALUE) + (Quoted(e.value) + [CLOSE_BRACE])))))
  }

  /** The entries from `i` on, each but the first after a comma. */
  function PrintedFrom(entries: seq<Entry>, i: nat): seq<byte>
    requires i <= |entries|
    decreases |entries| - i
  {
    if i == |entries| then []
    else (if i > 0 then [COMMA] else []) + (PrintedEntry(entries[i]) + PrintedFrom(entries, i + 1))
  }

  function PrintedType(kind: DataType): seq<byte> {
    [OPEN_BRACE] + (Member(TYPE) + (Quoted(NameOf(kind)) + [COMMA]))
  }

  function PrintedListHead(n: nat): seq<byte>
    requires n <= CHUNK_ENTRIES
  {
    Member(COUNT) + (Decimal(n) + ([COMMA] + (Member(INFO) + [OPEN_BRACKET])))
  }

  function Printed(kind: DataType, entries: seq<Entry>): seq<byte>
    requires |entries| <= CHUNK_ENTRIES
  {
    PrintedType(kind) + (PrintedListHead(|entries|) + (PrintedFrom(entries, 0) + ([CLOSE_BRACKET] + [CLOSE_BRACE])))
  }

  predicate Printable(entries: seq<Entry>) {
    forall i :: 0 <= i < |entries| ==> SevenBit(entries[i].key) && SevenBit(entries[i].value)
  }

  /** None when an entry is not 7-bit or the text does not fit. */
  function Json(kind: DataType, entries: seq<Entry>, capacity: nat): (j: Option<seq<byte>>)
    ensures j.Some? ==> |j.value| <= capacity
  {
    if |entries| > CHUNK_ENTRIES || !Printable(entries) || |Printed(kind, entries)| > capacity then None
    else Some(Printed(kind, entries))
  }

  // ---------------------------------------------------------------------------
  // Reading. Every reader starts at an offset and says where it stopped.

  predicate IsSpace(b: byte) {
    b == 0x20 || b == 0x09 || b == 0x0D || b == 0x0A
  }

  function AfterSpace(data: seq<byte>, at: nat): (end: nat)
    requires at <= |data|
    ensures at <= end <= |data|
    decreases |data| - at
  {
    if at < |data| && IsSpace(data[at]) then AfterSpace(data, at + 1) else at
  }

  function Expect(data: seq<byte>, at: nat, c: byte): (end: Option<nat>)
    requires at <= |data|
    ensures end.Some? ==> at < end.value <= |data|
  {
    var o := AfterSpace(data, at);
    if o >= |data| || data[o] != c then None else Some(o + 1)
  }

  function HexValue(b: byte): Option<nat> {
    if 0x30 <= b <= 0x39 then Some(b - 0x30)
    else if 0x61 <= b <= 0x66 then Some(b - 0x61 + 10)
    else if 0x41 <= b <= 0x46 then Some(b - 0x41 + 10)
    else None
  }

  datatype Char = Char(value: byte, end: nat)

  /** One character of a string, escaped or plain. */
  function ReadChar(data: seq<byte>, at: nat): (c: Option<Char>)
    requires at < |data|
    ensures c.Some? ==> at < c.value.end <= |data|
  {
    if data[at] != BACKSLASH then
      if data[at] < 0x20 || data[at] > 0x7F then None else Some(Char(data[at], at + 1))
    else if at + 1 >= |data| then None
    else
      var e := data[at + 1];
      if e == 0x62 then Some(Char(0x08, at + 2))
      else if e == 0x66 then Some(Char(0x0C, at + 2))
      else if e == 0x6E then Some(Char(0x0A, at + 2))
      else if e == 0x72 then Some(Char(0x0D, at + 2))
      else if e == 0x74 then Some(Char(0x09, at + 2))
      else if e == LETTER_U then
        if |data| - (at + 2) < 4 || data[at + 2] != ZERO || data[at + 3] != ZERO
           || HexValue(data[at + 4]).None? || HexValue(data[at + 5]).None? then None
        else
          HexIsByte(data[at + 4], data[at + 5]);
          Some(Char(HexValue(data[at + 4]).value * 16 + HexValue(data[at + 5]).value, at + 6))
      else if e == QUOTE || e == BACKSLASH || e == 0x2F then Some(Char(e, at + 2))
      else None
  }

  lemma HexIsByte(high: byte, low: byte)
    requires HexValue(high).Some? && HexValue(low).Some?
    ensures HexValue(high).value < 16 && HexValue(low).value < 16
  {
  }

  datatype Read<+T> = Read(value: T, end: nat)

  function ReadChars(data: seq<byte>, at: nat, sofar: Text, capacity: nat): (r: Option<Read<Text>>)
    requires at <= |data|
    ensures r.Some? ==> at < r.value.end <= |data| && |r.value.value| < Max(capacity, |sofar| + 1)
    decreases |data| - at
  {
    if at >= |data| then None
    else if data[at] == QUOTE then Some(Read(sofar, at + 1))
    else
      var c := ReadChar(data, at);
      if c.None? || c.value.value == 0 || |sofar| + 1 >= capacity then None
      else ReadChars(data, c.value.end, sofar + [c.value.value], capacity)
  }

  function ReadString(data: seq<byte>, at: nat, capacity: nat): (r: Option<Read<Text>>)
    requires at <= |data| && capacity > 0
    ensures r.Some? ==> at < r.value.end <= |data| && |r.value.value| < capacity
  {
    var o := Expect(data, at, QUOTE);
    if o.None? then None else ReadChars(data, o.value, [], capacity)
  }

  function ReadMember(data: seq<byte>, at: nat, name: Text): (end: Option<nat>)
    requires at <= |data|
    ensures end.Some? ==> at < end.value <= |data|
  {
    var r := ReadString(data, at, 16);
    if r.None? || r.value.value != name then None else Expect(data, r.value.end, COLON)
  }

  predicate IsDigit(b: byte) {
    0x30 <= b <= 0x39
  }

  function ReadDigits(data: seq<byte>, at: nat, value: nat, digits: nat): (r: Option<Read<nat>>)
    requires at <= |data| && value <= CHUNK_ENTRIES
    ensures r.Some? ==> at <= r.value.end <= |data| && r.value.value <= CHUNK_ENTRIES
    decreases |data| - at
  {
    if at < |data| && IsDigit(data[at]) then
      var next := value * 10 + (data[at] - 0x30);
      if next > CHUNK_ENTRIES then None else ReadDigits(data, at + 1, next, digits + 1)
    else if digits == 0 then None
    else Some(Read(value, at))
  }

  function ReadCount(data: seq<byte>, at: nat): (r: Option<Read<nat>>)
    requires at <= |data|
    ensures r.Some? ==> at <= r.value.end <= |data| && r.value.value <= CHUNK_ENTRIES
  {
    ReadDigits(data, AfterSpace(data, at), 0, 0)
  }

  /** `{"KEY":...,"VALUE":...}` with a key that is not empty. */
  function ReadEntry(data: seq<byte>, at: nat): (r: Option<Read<Entry>>)
    requires at <= |data|
    ensures r.Some? ==> at < r.value.end <= |data|
  {
    var a := Expect(data, at, OPEN_BRACE);
    if a.None? then None
    else
      var b := ReadMember(data, a.value, KEY);
      if b.None? then None
      else
        var key := ReadString(data, b.value, KEY_SIZE);
        if key.None? || key.value.value == [] then None
        else
          var c := Expect(data, key.value.end, COMMA);
          if c.None? then None
          else
            var d := ReadMember(data, c.value, VALUE);
            if d.None? then None
            else
              var value := ReadString(data, d.value, VALUE_SIZE);
              if value.None? then None
              else
                var end := Expect(data, value.value.end, CLOSE_BRACE);
                if end.None? then None else Some(Read(Entry(key.value.value, value.value.value), end.value))
  }

  function ReadEntries(data: seq<byte>, at: nat, index: nat, count: nat): (r: Option<Read<seq<Entry>>>)
    requires at <= |data| && index <= count
    ensures r.Some? ==> at <= r.value.end <= |data| && |r.value.value| == count - index
    decreases count - index
  {
    if index == count then Some(Read([], at))
    else
      var o := if index > 0 then Expect(data, at, COMMA) else Some(at);
      if o.None? then None
      else
        var e := ReadEntry(data, o.value);
        if e.None? then None
        else
          var rest := ReadEntries(data, e.value.end, index + 1, count);
          if rest.None? then None else Some(Read([e.value.value] + rest.value.value, rest.value.end))
  }

  datatype Update = Update(kind: DataType, entries: seq<Entry>)

  /** `{"TYPE":...,`. */
  function ReadType(data: seq<byte>): (r: Option<Read<Text>>)
    ensures r.Some? ==> r.value.end <= |data|
  {
    var a := Expect(data, 0, OPEN_BRACE);
    if a.None? then None
    else
      var b := ReadMember(data, a.value, TYPE);
      if b.None? then None
      else
        var name := ReadString(data, b.value, 8);
        if name.None? then None
        else
          var c := Expect(data, name.value.end, COMMA);
          if c.None? then None else Some(Read(name.value.value, c.value))
  }

  /** `"COUNT":...,"INFO":[`. */
  function ReadListHead(data: seq<byte>, at: nat): (r: Option<Read<nat>>)
    requires at <= |data|
    ensures r.Some? ==> r.value.end <= |data| && r.value.value <= CHUNK_ENTRIES
  {
    var a := ReadMember(data, at, COUNT);
    if a.None? then None
    else
      var n := ReadCount(data, a.value);
      if n.None? then None
      else
        var b := Expect(data, n.value.end, COMMA);
        if b.None? then None
        else
          var c := ReadMember(data, b.value, INFO);
          if c.None? then None
          else
            var d := Expect(data, c.value, OPEN_BRACKET);
            if d.None? then None else Some(Read(n.value.value, d.value))
  }

  function ReadJson(data: seq<byte>): Option<Update> {
    var name := ReadType(data);
    if name.None? then None
    else
      var n := ReadListHead(data, name.value.end);
      if n.None? || (name.value.value != NORMAL && name.value.value != PERIOD) then None
      else
        var kind := if name.value.value == NORMAL then Presences.Normal else Presences.Period;
        var e := ReadEntries(data, n.value.end, 0, n.value.value);
        if e.None? || ReadEnd(data, e.value.end).None? || (kind == Presences.Normal && n.value.value != 1) then None
        else Some(Update(kind, e.value.value))
  }

  /** `]}`, and nothing but space after it. */
  function ReadEnd(data: seq<byte>, at: nat): Option<nat>
    requires at <= |data|
  {
    var a := Expect(data, at, CLOSE_BRACKET);
    if a.None? then None
    else
      var b := Expect(data, a.value, CLOSE_BRACE);
      if b.None? || AfterSpace(data, b.value) != |data| then None else b
  }

  // ---------------------------------------------------------------------------
  // Reading back what was printed.

  /** The bytes `s` stand at offset `at`. */
  predicate At(data: seq<byte>, at: nat, s: seq<byte>) {
    at + |s| <= |data| && data[at..at + |s|] == s
  }

  lemma AtSplits(data: seq<byte>, at: nat, a: seq<byte>, b: seq<byte>)
    requires At(data, at, a + b)
    ensures At(data, at, a) && At(data, at + |a|, b)
  {
    var s := data[at..at + |a + b|];
    assert s[..|a|] == a && s[|a|..] == b;
  }

  lemma ByteAt(data: seq<byte>, at: nat, s: seq<byte>, i: nat)
    requires At(data, at, s) && i < |s|
    ensures at + i < |data| && data[at + i] == s[i]
  {
    assert data[at..at + |s|][i] == data[at + i];
  }

  lemma ExpectsHere(data: seq<byte>, at: nat, c: byte)
    requires At(data, at, [c]) && !IsSpace(c)
    ensures Expect(data, at, c) == Some(at + 1)
  {
    ByteAt(data, at, [c], 0);
  }

  lemma HexBack(n: nat)
    requires n < 16
    ensures HexValue(HexDigit(n)) == Some(n)
  {
  }

  lemma CharBack(data: seq<byte>, at: nat, b: byte)
    requires 0 < b <= 0x7F && At(data, at, Escaped(b))
    ensures data[at] != QUOTE && ReadChar(data, at) == Some(Char(b, at + |Escaped(b)|))
  {
    var s := Escaped(b);
    HexBack(b / 16);
    HexBack(b % 16);
    ByteAt(data, at, s, 0);
    if |s| >= 2 {
      ByteAt(data, at, s, 1);
    }
    if |s| == 6 {
      ByteAt(data, at, s, 2);
      ByteAt(data, at, s, 3);
      ByteAt(data, at, s, 4);
      ByteAt(data, at, s, 5);
    }
    hide HexValue, HexDigit;
  }

  lemma {:induction false} CharsBack(data: seq<byte>, at: nat, sofar: Text, t: Text, capacity: nat)
    requires SevenBit(t) && |sofar| + |t| < capacity
    requires At(data, at, EscapedAll(t) + [QUOTE])
    ensures ReadChars(data, at, sofar, capacity) == Some(Read(sofar + t, at + |EscapedAll(t)| + 1))
    decreases |t|
  {
    hide ReadChar, Escaped, At;
    if t == [] {
      assert EscapedAll(t) + [QUOTE] == [QUOTE];
      ByteAt(data, at, [QUOTE], 0);
      assert sofar + t == sofar;
    } else {
      var e := Escaped(t[0]);
      assert EscapedAll(t) + [QUOTE] == e + (EscapedAll(t[1..]) + [QUOTE]);
      AtSplits(data, at, e, EscapedAll(t[1..]) + [QUOTE]);
      AtFits(data, at + |e|, EscapedAll(t[1..]) + [QUOTE]);
      CharBack(data, at, t[0]);
      CharsBack(data, at + |e|, sofar + [t[0]], t[1..], capacity);
      assert sofar + [t[0]] + t[1..] == sofar + t;
    }
  }

  lemma AtFits(data: seq<byte>, at: nat, s: seq<byte>)
    requires At(data, at, s)
    ensures at + |s| <= |data|
  {
  }

  lemma StringBack(data: seq<byte>, at: nat, t: Text, capacity: nat)
    requires SevenBit(t) && |t| < capacity && At(data, at, Quoted(t))
    ensures at <= |data| && ReadString(data, at, capacity) == Some(Read(t, at + |Quoted(t)|))
  {
    hide ReadChars, EscapedAll, At;
    AtFits(data, at, Quoted(t));
    assert Quoted(t) == [QUOTE] + (EscapedAll(t) + [QUOTE]);
    AtSplits(data, at, [QUOTE], EscapedAll(t) + [QUOTE]);
    ExpectsHere(data, at, QUOTE);
    CharsBack(data, at + 1, [], t, capacity);
    assert [] + t == t;
  }

  lemma MemberBack(data: seq<byte>, at: nat, name: Text)
    requires SevenBit(name) && |name| < 16 && At(data, at, Member(name))
    ensures at <= |data| && ReadMember(data, at, name) == Some(at + |Member(name)|)
  {
    hide ReadString, Quoted, At;
    AtFits(data, at, Member(name));
    AtSplits(data, at, Quoted(name), [COLON]);
    StringBack(data, at, name, 16);
    ExpectsHere(data, at + |Quoted(name)|, COLON);
  }

  lemma CountBack(data: seq<byte>, at: nat, n: nat)
    requires n <= CHUNK_ENTRIES && At(data, at, Decimal(n) + [COMMA])
    ensures at <= |data| && ReadCount(data, at) == Some(Read(n, at + |Decimal(n)|))
  {
    var s := Decimal(n) + [COMMA];
    ByteAt(data, at, s, 0);
    ByteAt(data, at, s, 1);
    hide At;
    if n < 10 {
      assert ReadDigits(data, at + 1, n, 1) == Some(Read(n, at + 1));
    } else {
      ByteAt(data, at, s, 2);
      assert ReadDigits(data, at + 2, n, 2) == Some(Read(n, at + 2));
      assert ReadDigits(data, at + 1, n / 10, 1) == Some(Read(n, at + 2));
    }
  }

  /** An entry the reader has room for. */
  predicate Fits(e: Entry) {
    && 0 < |e.key| < KEY_SIZE && |e.value| < VALUE_SIZE
    && SevenBit(e.key) && SevenBit(e.value)
  }

  lemma EntryBack(data: seq<byte>, at: nat, e: Entry)
    requires Fits(e) && At(data, at, PrintedEntry(e))
    ensures at <= |data| && ReadEntry(data, at) == Some(Read(e, at + |PrintedEntry(e)|))
  {
    hide ReadString, ReadMember, Quoted, Member, At, Expect;
    AtFits(data, at, PrintedEntry(e));
    var s5 := Quoted(e.value) + [CLOSE_BRACE];
    var s4 := Member(VALUE) + s5;
    var s3 := [COMMA] + s4;
    var s2 := Quoted(e.key) + s3;
    var s1 := Member(KEY) + s2;
    AtSplits(data, at, [OPEN_BRACE], s1);
    ExpectsHere(data, at, OPEN_BRACE);
    var o := at + 1;
    AtSplits(data, o, Member(KEY), s2);
    MemberBack(data, o, KEY);
    o := o + |Member(KEY)|;
    AtSplits(data, o, Quoted(e.key), s3);
    StringBack(data, o, e.key, KEY_SIZE);
    o := o + |Quoted(e.key)|;
    AtSplits(data, o, [COMMA], s4);
    ExpectsHere(data, o, COMMA);
    o := o + 1;
    AtSplits(data, o, Member(VALUE), s5);
    MemberBack(data, o, VALUE);
    o := o + |Member(VALUE)|;
    AtSplits(data, o, Quoted(e.value), [CLOSE_BRACE]);
    StringBack(data, o, e.value, VALUE_SIZE);
    o := o + |Quoted(e.value)|;
    ExpectsHere(data, o, CLOSE_BRACE);
  }

  lemma {:induction false} EntriesBack(data: seq<byte>, at: nat, entries: seq<Entry>, i: nat)
    requires i <= |entries| && forall k :: i <= k < |entries| ==> Fits(entries[k])
    requires At(data, at, PrintedFrom(entries, i))
    ensures at <= |data|
    ensures ReadEntries(data, at, i, |entries|) == Some(Read(entries[i..], at + |PrintedFrom(entries, i)|))
    decreases |entries| - i
  {
    hide ReadEntry, PrintedEntry, At, Expect, Fits;
    AtFits(data, at, PrintedFrom(entries, i));
    if i < |entries| {
      var comma := if i > 0 then [COMMA] else [];
      var rest := PrintedFrom(entries, i + 1);
      var here := PrintedEntry(entries[i]);
      AtSplits(data, at, comma, here + rest);
      if i > 0 {
        ExpectsHere(data, at, COMMA);
      }
      var o := at + |comma|;
      AtSplits(data, o, here, rest);
      EntryBack(data, o, entries[i]);
      EntriesBack(data, o + |here|, entries, i + 1);
      assert [entries[i]] + entries[i + 1..] == entries[i..];
    }
  }

  lemma WordsAreShort()
    ensures SevenBit(TYPE) && SevenBit(COUNT) && SevenBit(INFO) && SevenBit(KEY) && SevenBit(VALUE)
    ensures SevenBit(NORMAL) && SevenBit(PERIOD) && NORMAL != PERIOD
  {
    assert NORMAL[0] != PERIOD[0];
  }

  lemma TypeBack(data: seq<byte>, kind: DataType)
    requires At(data, 0, PrintedType(kind))
    ensures ReadType(data) == Some(Read(NameOf(kind), |PrintedType(kind)|))
  {
    hide ReadString, ReadMember, Quoted, Member, At, Expect;
    WordsAreShort();
    var s2 := Quoted(NameOf(kind)) + [COMMA];
    var s1 := Member(TYPE) + s2;
    AtSplits(data, 0, [OPEN_BRACE], s1);
    ExpectsHere(data, 0, OPEN_BRACE);
    AtSplits(data, 1, Member(TYPE), s2);
    MemberBack(data, 1, TYPE);
    var o := 1 + |Member(TYPE)|;
    AtSplits(data, o, Quoted(NameOf(kind)), [COMMA]);
    StringBack(data, o, NameOf(kind), 8);
    ExpectsHere(data, o + |Quoted(NameOf(kind))|, COMMA);
  }

  lemma ListHeadBack(data: seq<byte>, at: nat, n: nat)
    requires n <= CHUNK_ENTRIES && At(data, at, PrintedListHead(n))
    ensures at <= |data| && ReadListHead(data, at) == Some(Read(n, at + |PrintedListHead(n)|))
  {
    hide ReadMember, ReadCount, Member, At, Expect, Decimal;
    WordsAreShort();
    AtFits(data, at, PrintedListHead(n));
    var s4 := Member(INFO) + [OPEN_BRACKET];
    var s3 := [COMMA] + s4;
    var s2 := Decimal(n) + s3;
    AtSplits(data, at, Member(COUNT), s2);
    MemberBack(data, at, COUNT);
    var o := at + |Member(COUNT)|;
    assert s2 == (Decimal(n) + [COMMA]) + s4;
    AtSplits(data, o, Decimal(n) + [COMMA], s4);
    CountBack(data, o, n);
    AtSplits(data, o, Decimal(n), [COMMA]);
    o := o + |Decimal(n)|;
    ExpectsHere(data, o, COMMA);
    o := o + 1;
    AtSplits(data, o, Member(INFO), [OPEN_BRACKET]);
    MemberBack(data, o, INFO);
    ExpectsHere(data, o + |Member(INFO)|, OPEN_BRACKET);
  }

  /** What was printed reads back as the same type and the same entries. */
  lemma JsonRoundTrip(kind: DataType, entries: seq<Entry>)
    requires |entries| <= CHUNK_ENTRIES && forall k :: 0 <= k < |entries| ==> Fits(entries[k])
    requires kind == Presences.Normal ==> |entries| == 1
    ensures ReadJson(Printed(kind, entries)) == Some(Update(kind, entries))
  {
    hide ReadType, ReadListHead, ReadEntries, PrintedType, PrintedListHead, At, Expect, PrintedFrom, Fits;
    WordsAreShort();
    var data := Printed(kind, entries);
    AtStart(data);
    var s2 := PrintedFrom(entries, 0) + ([CLOSE_BRACKET] + [CLOSE_BRACE]);
    var s1 := PrintedListHead(|entries|) + s2;
    AtSplits(data, 0, PrintedType(kind), s1);
    TypeBack(data, kind);
    var o := |PrintedType(kind)|;
    AtSplits(data, o, PrintedListHead(|entries|), s2);
    ListHeadBack(data, o, |entries|);
    o := o + |PrintedListHead(|entries|)|;
    AtSplits(data, o, PrintedFrom(entries, 0), [CLOSE_BRACKET] + [CLOSE_BRACE]);
    EntriesBack(data, o, entries, 0);
    assert entries[0..] == entries;
    o := o + |PrintedFrom(entries, 0)|;
    AtSplits(data, o, [CLOSE_BRACKET], [CLOSE_BRACE]);
    ExpectsHere(data, o, CLOSE_BRACKET);
    ExpectsHere(data, o + 1, CLOSE_BRACE);
  }

  lemma AtStart(data: seq<byte>)
    ensures At(data, 0, data)
  {
    assert data[0..0 + |data|] == data;
  }

  // ---------------------------------------------------------------------------
  // The store and its chunks.

  /** The position of a key, or the number of entries. */
  function Find(entries: seq<Entry>, key: Text): (i: nat)
    ensures i <= |entries| && (i < |entries| ==> entries[i].key == key)
    ensures forall j :: 0 <= j < i ==> entries[j].key != key
  {
    if entries == [] then 0
    else
      var n := |entries| - 1;
      var i := Find(entries[..n], key);
      if i < n || entries[n].key == key then i else n + 1
  }

  function Registered(store: seq<Entry>, key: Text, value: Text): Option<seq<Entry>> {
    if key == [] then None
    else if Find(store, key) < |store| then Some(store)
    else if |store| >= MAX_ENTRIES || |key| >= KEY_SIZE || |value| >= VALUE_SIZE then None
    else Some(store + [Entry(key, value)])
  }

  function UpdatedLocal(store: seq<Entry>, version: u16, key: Text, value: Text): Option<(seq<Entry>, u16)> {
    var i := Find(store, key);
    if |value| >= VALUE_SIZE || i == |store| then None
    else Some((store[i := Entry(key, value)], if version >= 60000 then 1 else version + 1))
  }

  ghost predicate UniqueKeys(entries: seq<Entry>) {
    forall i, j :: 0 <= i < j < |entries| ==> entries[i].key != entries[j].key
  }

  ghost predicate StoreOk(store: seq<Entry>) {
    && |store| <= MAX_ENTRIES && UniqueKeys(store)
    && forall i :: 0 <= i < |store| ==> 0 < |store[i].key| < KEY_SIZE && |store[i].value| < VALUE_SIZE
  }

  lemma StoreStaysOk(store: seq<Entry>, version: u16, key: Text, value: Text)
    requires StoreOk(store)
    ensures Registered(store, key, value).Some? ==> StoreOk(Registered(store, key, value).value)
    ensures UpdatedLocal(store, version, key, value).Some? ==> StoreOk(UpdatedLocal(store, version, key, value).value.0)
  {
    hide Find;
  }

  function ChunkCount(n: nat): nat {
    (n + CHUNK_ENTRIES - 1) / CHUNK_ENTRIES
  }

  function Chunk(store: seq<Entry>, i: nat): (c: seq<Entry>)
    requires i < ChunkCount(|store|)
    ensures 0 < |c| <= CHUNK_ENTRIES
  {
    var offset := i * CHUNK_ENTRIES;
    store[offset..Min(offset + CHUNK_ENTRIES, |store|)]
  }

  function Chunks(store: seq<Entry>, n: nat): seq<Entry>
    requires n <= ChunkCount(|store|)
  {
    if n == 0 then [] else Chunks(store, n - 1) + Chunk(store, n - 1)
  }

  /** The chunks, in order, are the store. */
  lemma {:induction false} ChunksAreTheStore(store: seq<Entry>, n: nat)
    requires n <= ChunkCount(|store|)
    ensures Chunks(store, n) == store[..Min(n * CHUNK_ENTRIES, |store|)]
    ensures n == ChunkCount(|store|) ==> Chunks(store, n) == store
  {
    if n > 0 {
      ChunksAreTheStore(store, n - 1);
    }
    assert store[..|store|] == store;
  }

  // ---------------------------------------------------------------------------
  // Frames.

  /** The version, low byte first, before the text. */
  function Versioned(version: u16, json: seq<byte>): (p: seq<byte>)
    ensures |p| == 2 + |json| && p[2..] == json && Word(p[0], p[1]) == version
  {
    [version % 256, version / 256] + json
  }

  function SyncFrame(kind: DataType, entries: seq<Entry>, destination: Address, source: Address, version: u16)
    : (f: Option<Frame>)
    ensures f.Some? ==> |f.value.payload| <= MAX_PACKET - HEADER_SIZE
  {
    var json := Json(kind, entries, MAX_JSON);
    if json.None? then None else Some(Frame(destination, source, 0x91, 0x03, Versioned(version, json.value)))
  }

  /** The frame of chunk `i`, sent periodically. */
  function PeriodicFrame(store: seq<Entry>, i: nat, target: Address, source: Address, version: u16): (f: Option<Frame>)
    ensures f.Some? ==> |f.value.payload| <= MAX_PACKET - HEADER_SIZE
  {
    if i >= ChunkCount(|store|) then None
    else SyncFrame(Presences.Period, Chunk(store, i), target, source, version)
  }

  /** The frame that announces one changed entry. */
  function NormalFrame(store: seq<Entry>, key: Text, destination: Address, source: Address,
                       version: u16): (f: Option<Frame>)
    ensures f.Some? ==> |f.value.payload| <= MAX_PACKET - HEADER_SIZE
  {
    var i := Find(store, key);
    if i == |store| then None else SyncFrame(Presences.Normal, [store[i]], destination, source, version)
  }

  datatype News = News(update: Update, version: u16, source: Address)

  /** What a datagram says to the station at `identity`. */
  function ReadNews(data: seq<byte>, identity: Address): Option<News> {
    match Parse(data)
    case None => None
    case Some(f) =>
      if f.family != 0x91 || f.opcode != 0x03 || |f.payload| < 2 || f.destination != identity then None
      else
        var update := ReadJson(f.payload[2..]);
        if update.None? then None else Some(News(update.value, Word(f.payload[0], f.payload[1]), f.source))
  }

  lemma FrameRoundTrip(kind: DataType, entries: seq<Entry>, destination: Address, source: Address, version: u16,
                       random: Opaque, encryption: Opaque)
    requires SyncFrame(kind, entries, destination, source, version).Some?
    requires forall k :: 0 <= k < |entries| ==> 0 < |entries[k].key| < KEY_SIZE && |entries[k].value| < VALUE_SIZE
    requires kind == Presences.Normal ==> |entries| == 1
    ensures var f := SyncFrame(kind, entries, destination, source, version).value;
            ReadNews(Image(f, random, encryption), destination) == Some(News(Update(kind, entries), version, source))
  {
    hide Parse, Image, ReadJson, Printed;
    var f := SyncFrame(kind, entries, destination, source, version).value;
    ParseOfImage(f, random, encryption);
    JsonRoundTrip(kind, entries);
  }

  /** For any store, every chunk that can be sent is read back by the target as exactly that
      chunk, with its version; and a chunk can be sent when it is 7-bit and fits a packet. */
  lemma PeriodicRoundTrip(store: seq<Entry>, i: nat, target: Address, source: Address, version: u16,
                          random: Opaque, encryption: Opaque)
    requires StoreOk(store) && i < ChunkCount(|store|)
    ensures var f := PeriodicFrame(store, i, target, source, version);
            && (f.Some? <==> Printable(Chunk(store, i)) && |Printed(Presences.Period, Chunk(store, i))| <= MAX_JSON)
            && (f.Some? ==> ReadNews(Image(f.value, random, encryption), target) ==
                            Some(News(Update(Presences.Period, Chunk(store, i)), version, source)))
  {
    hide Printed, ReadNews;
    if PeriodicFrame(store, i, target, source, version).Some? {
      FrameRoundTrip(Presences.Period, Chunk(store, i), target, source, version, random, encryption);
    }
  }

  lemma NormalRoundTrip(store: seq<Entry>, key: Text, destination: Address, source: Address, version: u16,
                        random: Opaque, encryption: Opaque)
    requires StoreOk(store) && NormalFrame(store, key, destination, source, version).Some?
    ensures var f := NormalFrame(store, key, destination, source, version).value;
            ReadNews(Image(f, random, encryption), destination) ==
            Some(News(Update(Presences.Normal, [store[Find(store, key)]]), version, source))
  {
    hide ReadNews, SyncFrame, Find;
    FrameRoundTrip(Presences.Normal, [store[Find(store, key)]], destination, source, version, random, encryption);
  }

  // ---------------------------------------------------------------------------
  // Taking values over.

  /** A received value replaces that of a key we know. */
  function AppliedOne(store: seq<Entry>, e: Entry): (after: seq<Entry>)
    ensures |after| == |store| && forall i :: 0 <= i < |store| ==> after[i].key == store[i].key
  {
    var i := Find(store, e.key);
    if i < |store| then store[i := e] else store
  }

  function Applied(store: seq<Entry>, received: seq<Entry>): (after: seq<Entry>)
    ensures |after| == |store| && forall i :: 0 <= i < |store| ==> after[i].key == store[i].key
  {
    if received == [] then store
    else AppliedOne(Applied(store, received[..|received| - 1]), received[|received| - 1])
  }

  lemma AppliedLast(store: seq<Entry>, received: seq<Entry>, e: Entry)
    ensures Applied(store, received + [e]) == AppliedOne(Applied(store, received), e)
    ensures Applied(store, []) == store
  {
    assert (received + [e])[..|received|] == received;
    hide AppliedOne;
  }

  lemma {:induction false} AppliedParts(store: seq<Entry>, a: seq<Entry>, b: seq<Entry>)
    ensures Applied(store, a + b) == Applied(Applied(store, a), b)
  {
    hide Applied, AppliedOne;
    if b == [] {
      assert a + b == a;
      AppliedLast(Applied(store, a), [], Entry([], []));
    } else {
      var n := |b| - 1;
      AppliedParts(store, a, b[..n]);
      AppliedLast(store, a + b[..n], b[n]);
      AppliedLast(Applied(store, a), b[..n], b[n]);
      assert b == b[..n] + [b[n]] && a + b == (a + b[..n]) + [b[n]];
    }
  }

  function ValueOf(entries: seq<Entry>, key: Text): Option<Text> {
    var i := Find(entries, key);
    if i < |entries| then Some(entries[i].value) else None
  }

  /** A setting changed here is taken exactly when its key is known and its value fits; then
      it has the new value, every other keeps its own, and the version goes on by one, from
      60000 back to one. */
  lemma UpdatesAreTaken(store: seq<Entry>, version: u16, key: Text, value: Text, other: Text)
    requires StoreOk(store)
    ensures var u := UpdatedLocal(store, version, key, value);
            && (u.Some? <==> ValueOf(store, key).Some? && |value| < VALUE_SIZE)
            && (u.Some? ==>
                  && ValueOf(u.value.0, other) == (if other == key then Some(value) else ValueOf(store, other))
                  && u.value.1 == (if version < 60000 then version + 1 else 1))
  {
    hide Find;
    if UpdatedLocal(store, version, key, value).Some? {
      var after := UpdatedLocal(store, version, key, value).value.0;
      assert forall i :: 0 <= i < |store| ==> after[i].key == store[i].key;
      var j := Find(store, other);
      assert j < |store| ==> after[j].key == other;
      assert Find(after, other) == j;
    }
  }

  /** A new key is known with its first value exactly when it and the value fit and there is
      room; a known one keeps the value it has. */
  lemma RegistrationsAreTaken(store: seq<Entry>, key: Text, value: Text, other: Text)
    requires StoreOk(store)
    ensures var r := Registered(store, key, value);
            && (r.Some? <==>
                  || ValueOf(store, key).Some?
                  || (0 < |key| < KEY_SIZE && |value| < VALUE_SIZE && |store| < MAX_ENTRIES))
            && (r.Some? ==>
                  ValueOf(r.value, other) ==
                  if other == key && ValueOf(store, key).None? then Some(value) else ValueOf(store, other))
  {
    if Registered(store, key, value).Some? && ValueOf(store, key).None? {
      assert (store + [Entry(key, value)])[..|store|] == store;
    }
  }

  /** A key we know takes the value received for it, and every other key keeps its own. */
  lemma {:induction false} AppliedIsUpdate(store: seq<Entry>, received: seq<Entry>, key: Text)
    requires UniqueKeys(store) && UniqueKeys(received)
    ensures ValueOf(Applied(store, received), key) ==
            if ValueOf(store, key).Some? && ValueOf(received, key).Some? then ValueOf(received, key) else ValueOf(store, key)
  {
    hide Find;
    if received != [] {
      var n := |received| - 1;
      AppliedIsUpdate(store, received[..n], key);
      assert UniqueKeys(Applied(store, received[..n]));
    }
  }

  function AppliedChunks(store: seq<Entry>, remote: seq<Entry>, n: nat): seq<Entry>
    requires n <= ChunkCount(|remote|)
  {
    if n == 0 then store else Applied(AppliedChunks(store, remote, n - 1), Chunk(remote, n - 1))
  }

  lemma {:induction false} AppliedChunksAreOne(store: seq<Entry>, remote: seq<Entry>, n: nat)
    requires n <= ChunkCount(|remote|)
    ensures AppliedChunks(store, remote, n) == Applied(store, Chunks(remote, n))
  {
    hide Applied, Chunk;
    AppliedLast(store, [], Entry([], []));
    if n > 0 {
      AppliedChunksAreOne(store, remote, n - 1);
      AppliedParts(store, Chunks(remote, n - 1), Chunk(remote, n - 1));
    }
  }

  /** A station that applies all chunks of another's store agrees with it on every key both
      know, and has kept everything else. */
  lemma ChunksCopyTheStore(store: seq<Entry>, remote: seq<Entry>, key: Text)
    requires StoreOk(store) && StoreOk(remote)
    ensures var after := AppliedChunks(store, remote, ChunkCount(|remote|));
            ValueOf(after, key) ==
            if ValueOf(store, key).Some? && ValueOf(remote, key).Some? then ValueOf(remote, key) else ValueOf(store, key)
  {
    AppliedChunksAreOne(store, remote, ChunkCount(|remote|));
    ChunksAreTheStore(remote, ChunkCount(|remote|));
    AppliedIsUpdate(store, remote, key);
  }

  /** The new store and presence, and whether to send our values again. */
  datatype Taken = Taken(store: seq<Entry>, p: Presences.Presence, resend: bool)

  function Received(store: seq<Entry>, p: Presences.Presence, data: seq<byte>, now: u64): Option<Taken> {
    var news := ReadNews(data, p.identity);
    if news.None? then None
    else
      var d := Presences.DataObserved(p, news.value.source, news.value.update.kind, news.value.version, now);
      if d.None? then None
      else Some(Taken(if d.value.apply then Applied(store, news.value.update.entries) else store, d.value.p, d.value.resend))
  }

  /** From one store to another: a chunk sent by a station of the room is applied as it is
      when its values are taken over at all. */
  lemma SentIsApplied(store: seq<Entry>, p: Presences.Presence, remote: seq<Entry>, i: nat, source: Address,
                      version: u16, random: Opaque, encryption: Opaque, now: u64)
    requires StoreOk(remote) && i < ChunkCount(|remote|)
    requires PeriodicFrame(remote, i, p.identity, source, version).Some?
    ensures var data := Image(PeriodicFrame(remote, i, p.identity, source, version).value, random, encryption);
            var d := Presences.DataObserved(p, source, Presences.Period, version, now);
            Received(store, p, data, now) ==
            if d.None? then None
            else Some(Taken(if d.value.apply then Applied(store, Chunk(remote, i)) else store, d.value.p, d.value.resend))
  {
    hide ReadNews, Presences.DataObserved, Applied;
    PeriodicRoundTrip(remote, i, p.identity, source, version, random, encryption);
  }

  // ---------------------------------------------------------------------------
  // A whole store, frame by frame.

  /** When a frame arrives, and its opaque header fields. */
  datatype Arrival = Arrival(now: u64, random: Opaque, encryption: Opaque)

  predicate AllSendable(remote: seq<Entry>, target: Address, source: Address, version: u16) {
    forall i :: 0 <= i < ChunkCount(|remote|) ==> PeriodicFrame(remote, i, target, source, version).Some?
  }

  /** The first chunks of another's store are received, one after the other. */
  function ReceivedChunks(store: seq<Entry>, p: Presences.Presence, remote: seq<Entry>, source: Address, version: u16,
                          arrivals: seq<Arrival>): Option<Taken>
    requires |arrivals| <= ChunkCount(|remote|) && AllSendable(remote, p.identity, source, version)
  {
    if arrivals == [] then Some(Taken(store, p, false))
    else
      var n := |arrivals| - 1;
      var before := ReceivedChunks(store, p, remote, source, version, arrivals[..n]);
      var data := Image(PeriodicFrame(remote, n, p.identity, source, version).value, arrivals[n].random,
                        arrivals[n].encryption);
      if before.None? then None else Received(before.value.store, before.value.p, data, arrivals[n].now)
  }

  predicate InOrder(arrivals: seq<Arrival>, from: u64) {
    && (forall i :: 0 <= i < |arrivals| ==> from <= arrivals[i].now <= U64_MAX - Presences.PERIODIC_INTERVAL_MS)
    && (forall i, j :: 0 <= i < j < |arrivals| ==> arrivals[i].now <= arrivals[j].now)
  }

  predicate TakesOver(p: Presences.Presence, source: Address, version: u16, now: u64) {
    var d := Presences.DataObserved(p, source, Presences.Period, version, now);
    d.Some? && d.value.apply
  }

  /** Data was taken over at `now`, and data of that version will be at any later time. */
  ghost predicate GoesOn(p: Presences.Presence, source: Address, version: u16, now: u64) {
    && p.lastNow == now && !p.maintainer
    && forall later: u64 :: now <= later <= U64_MAX - Presences.PERIODIC_INTERVAL_MS ==> TakesOver(p, source, version, later)
  }

  /** Whoever takes data over once goes on taking over data of that version. */
  lemma TakingOverGoesOn(p: Presences.Presence, source: Address, version: u16, now: u64)
    requires TakesOver(p, source, version, now)
    ensures var d := Presences.DataObserved(p, source, Presences.Period, version, now);
            && d.Some? && d.value.apply && !d.value.resend
            && d.value.p.identity == p.identity && GoesOn(d.value.p, source, version, now)
  {
  }

  lemma OneMoreTaken(store: seq<Entry>, p: Presences.Presence, remote: seq<Entry>, n: nat, source: Address,
                     version: u16, arrival: Arrival)
    requires StoreOk(remote) && n < ChunkCount(|remote|)
    requires PeriodicFrame(remote, n, p.identity, source, version).Some?
    requires TakesOver(p, source, version, arrival.now)
    ensures var data := Image(PeriodicFrame(remote, n, p.identity, source, version).value, arrival.random,
                              arrival.encryption);
            var t := Received(store, p, data, arrival.now);
            && t.Some? && t.value.store == Applied(store, Chunk(remote, n)) && !t.value.resend
            && t.value.p.identity == p.identity && GoesOn(t.value.p, source, version, arrival.now)
  {
    hide PeriodicFrame, Received, TakesOver, Presences.DataObserved, Applied, Chunk, StoreOk, GoesOn;
    SentIsApplied(store, p, remote, n, source, version, arrival.random, arrival.encryption, arrival.now);
    TakingOverGoesOn(p, source, version, arrival.now);
  }

  lemma LastIsReceived(store: seq<Entry>, p: Presences.Presence, remote: seq<Entry>, source: Address, version: u16,
                       arrivals: seq<Arrival>)
    requires 0 < |arrivals| <= ChunkCount(|remote|) && AllSendable(remote, p.identity, source, version)
    ensures var n := |arrivals| - 1;
            var before := ReceivedChunks(store, p, remote, source, version, arrivals[..n]);
            var data := Image(PeriodicFrame(remote, n, p.identity, source, version).value, arrivals[n].random,
                              arrivals[n].encryption);
            ReceivedChunks(store, p, remote, source, version, arrivals) ==
            if before.None? then None else Received(before.value.store, before.value.p, data, arrivals[n].now)
  {
    hide PeriodicFrame, Received, Image, ChunkCount;
  }

  lemma OrderOfPrefix(arrivals: seq<Arrival>, from: u64)
    requires arrivals != [] && InOrder(arrivals, from)
    ensures var n := |arrivals| - 1;
            && InOrder(arrivals[..n], from) && arrivals[n].now <= U64_MAX - Presences.PERIODIC_INTERVAL_MS
            && (n > 0 ==> arrivals[n - 1].now <= arrivals[n].now)
  {
  }

  lemma GoesOnTo(p: Presences.Presence, source: Address, version: u16, now: u64, later: u64)
    requires GoesOn(p, source, version, now) && now <= later <= U64_MAX - Presences.PERIODIC_INTERVAL_MS
    ensures TakesOver(p, source, version, later)
  {
    hide TakesOver;
  }

  lemma {:induction false} ChunksAreTakenOver(store: seq<Entry>, p: Presences.Presence, remote: seq<Entry>,
                                              source: Address, version: u16, arrivals: seq<Arrival>)
    requires StoreOk(remote) && |arrivals| <= ChunkCount(|remote|) && AllSendable(remote, p.identity, source, version)
    requires InOrder(arrivals, p.lastNow)
    requires arrivals != [] ==> TakesOver(p, source, version, arrivals[0].now)
    ensures var r := ReceivedChunks(store, p, remote, source, version, arrivals);
            && r.Some? && r.value.store == AppliedChunks(store, remote, |arrivals|)
            && !r.value.resend && r.value.p.identity == p.identity
            && (arrivals != [] ==> GoesOn(r.value.p, source, version, arrivals[|arrivals| - 1].now))
  {
    if arrivals != [] {
      var n := |arrivals| - 1;
      OrderOfPrefix(arrivals, p.lastNow);
      hide PeriodicFrame, Received, TakesOver, Applied, Chunk, StoreOk, Image, ChunkCount, ReceivedChunks, InOrder, GoesOn;
      LastIsReceived(store, p, remote, source, version, arrivals);
      ChunksAreTakenOver(store, p, remote, source, version, arrivals[..n]);
      var before := ReceivedChunks(store, p, remote, source, version, arrivals[..n]).value;
      if n > 0 {
        GoesOnTo(before.p, source, version, arrivals[n - 1].now, arrivals[n].now);
      }
      OneMoreTaken(before.store, before.p, remote, n, source, version, arrivals[n]);
    }
  }

  /** Ours is not newer, and we are not the maintainer who stands by the same version. */
  predicate Yields(p: Presences.Presence, source: Address, version: u16) {
    && p.phase == Presences.Periodic && Presences.SameRoom(source, p.identity) && p.version <= version
    && !(p.maintainer && p.version == version && Presences.Signed(p.identity[5]) <= Presences.Signed(source[5]))
  }

  lemma YieldingTakesOver(p: Presences.Presence, source: Address, version: u16, now: u64)
    requires p.lastNow <= now <= U64_MAX - Presences.PERIODIC_INTERVAL_MS
    ensures TakesOver(p, source, version, now) <==> Yields(p, source, version)
  {
  }

  /** A station that receives the frames of all chunks of a store, in order and with nothing
      between, and yields to the first, takes them all over: it then agrees with the sender on
      every key both know, has kept everything else, and answers nothing. */
  lemma FramesCopyTheStore(store: seq<Entry>, p: Presences.Presence, remote: seq<Entry>, source: Address,
                           version: u16, arrivals: seq<Arrival>, key: Text)
    requires StoreOk(store) && StoreOk(remote) && |arrivals| == ChunkCount(|remote|)
    requires AllSendable(remote, p.identity, source, version) && InOrder(arrivals, p.lastNow)
    requires Yields(p, source, version)
    ensures var r := ReceivedChunks(store, p, remote, source, version, arrivals);
            && r.Some? && !r.value.resend
            && ValueOf(r.value.store, key) ==
               if ValueOf(store, key).Some? && ValueOf(remote, key).Some? then ValueOf(remote, key)
               else ValueOf(store, key)
  {
    if arrivals != [] {
      YieldingTakesOver(p, source, version, arrivals[0].now);
    }
    hide ReceivedChunks, TakesOver, AllSendable, InOrder, ValueOf, StoreOk, AppliedChunks, ChunkCount, Yields;
    ChunksAreTakenOver(store, p, remote, source, version, arrivals);
    ChunksCopyTheStore(store, remote, key);
  }
}
