/** The JSON writer and parser and the store of src/gvs_sync.c as the loops they are, proved
    against the functions of module Syncs. */
module SyncJson {
  import opened Words
  import opened Frames
  import opened Syncs
  import Presences

  /** What a writer of some capacity holds after one more piece; None once it has failed. */
  function Then(held: Option<seq<byte>>, piece: seq<byte>, capacity: nat): Option<seq<byte>> {
    if held.None? || |held.value| + |piece| > capacity then None else Some(held.value + piece)
  }

  function ThenString(held: Option<seq<byte>>, text: Text, capacity: nat): Option<seq<byte>> {
    if SevenBit(text) then Then(held, Quoted(text), capacity) else None
  }

  /** Appends to a buffer until something does not fit or is not 7-bit. */
  class JsonWriter {
    const data: array<byte>
    const from: nat
    const capacity: nat
    var length: nat
    var failed: bool

    ghost predicate Valid()
      reads this
    {
      from + capacity <= data.Length && length <= capacity
    }

    ghost function Value(): Option<seq<byte>>
      requires Valid()
      reads this, data
    {
      if failed then None else Some(data[from..from + length])
    }

    constructor (data: array<byte>, from: nat, capacity: nat)
      requires from + capacity <= data.Length
      ensures Valid() && Value() == Some([])
      ensures this.data == data && this.from == from && this.capacity == capacity
    {
      this.data, this.from, this.capacity := data, from, capacity;
      length, failed := 0, false;
      new;
      assert data[from..from + 0] == [];
    }

    method Write(piece: seq<byte>)
      requires Valid()
      modifies this, data
      ensures Valid() && Value() == Then(old(Value()), piece, capacity)
      ensures data[..from] == old(data[..from])
    {
      if failed || |piece| > capacity - length {
        failed := true;
        return;
      }
      ghost var was := data[..];
      CopyInto(data, from + length, piece);
      assert data[from..from + length + |piece|] == was[from..from + length] + piece;
      length := length + |piece|;
    }

    /** One character of a string. */
    method WriteChar(c: byte)
      requires Valid()
      modifies this, data
      ensures Valid() && Value() == if c > 0x7F then None else Then(old(Value()), Escaped(c), capacity)
      ensures data[..from] == old(data[..from])
    {
      if c > 0x7F {
        failed := true;
      } else if c == QUOTE || c == BACKSLASH {
        Write([BACKSLASH, c]);
      } else if c < 0x20 {
        Write([BACKSLASH, LETTER_U, ZERO, ZERO, HexDigit(c / 16), HexDigit(c % 16)]);
      } else {
        Write([c]);
      }
    }

    method WriteString(text: Text)
      requires Valid()
      modifies this, data
      ensures Valid() && Value() == ThenString(old(Value()), text, capacity)
      ensures data[..from] == old(data[..from])
    {
      hide Escaped, Then, EscapedAll;
      ghost var before := Value();
      Write([QUOTE]);
      NothingEscaped(before, text, capacity);
      var i := 0;
      while !failed && i < |text|
        invariant i <= |text| && Valid() && (failed <==> Value().None?)
        invariant Progress(before, text, i, capacity, Value())
        invariant data[..from] == old(data[..from])
        decreases |text| - i
      {
        ghost var value := Value();
        WriteChar(text[i]);
        ProgressMore(before, text, i, capacity, value);
        i := i + 1;
      }
      ghost var value := Value();
      Write([QUOTE]);
      ProgressEnds(before, text, i, capacity, value);
    }
  }

  /** What the writer holds in the middle of a string. */
  ghost predicate Progress(before: Option<seq<byte>>, text: Text, i: nat, capacity: nat, value: Option<seq<byte>>)
    requires i <= |text|
  {
    value == if SevenBit(text[..i]) then Then(before, [QUOTE] + EscapedAll(text[..i]), capacity) else None
  }

  lemma NothingEscaped(before: Option<seq<byte>>, text: Text, capacity: nat)
    ensures Progress(before, text, 0, capacity, Then(before, [QUOTE], capacity))
  {
    assert text[..0] == [] && [QUOTE] + EscapedAll([]) == [QUOTE];
  }

  lemma ProgressMore(before: Option<seq<byte>>, text: Text, i: nat, capacity: nat, value: Option<seq<byte>>)
    requires i < |text| && Progress(before, text, i, capacity, value)
    ensures Progress(before, text, i + 1, capacity, if text[i] > 0x7F then None else Then(value, Escaped(text[i]), capacity))
  {
    EscapedMore(text, i);
    assert text[..i + 1] == text[..i] + [text[i]];
    assert SevenBit(text[..i + 1]) <==> SevenBit(text[..i]) && text[i] <= 0x7F;
    hide Escaped, EscapedAll, SevenBit;
    if before.Some? {
      assert before.value + ([QUOTE] + EscapedAll(text[..i])) + Escaped(text[i]) ==
             before.value + ([QUOTE] + (EscapedAll(text[..i]) + Escaped(text[i])));
      assert [QUOTE] + (EscapedAll(text[..i]) + Escaped(text[i])) == [QUOTE] + EscapedAll(text[..i + 1]);
    }
  }

  lemma ProgressEnds(before: Option<seq<byte>>, text: Text, i: nat, capacity: nat, value: Option<seq<byte>>)
    requires i <= |text| && Progress(before, text, i, capacity, value) && (i == |text| || value.None?)
    ensures Then(value, [QUOTE], capacity) == ThenString(before, text, capacity)
  {
    EscapedFits(text, i);
    assert i == |text| ==> text[..i] == text;
    hide Escaped, EscapedAll;
    if before.Some? && i == |text| {
      assert before.value + ([QUOTE] + EscapedAll(text)) + [QUOTE] == before.value + Quoted(text);
    }
  }

  lemma EscapedFits(text: seq<byte>, i: nat)
    requires i <= |text|
    ensures |EscapedAll(text[..i])| <= |EscapedAll(text)|
  {
    EscapedParts(text[..i], text[i..]);
    assert text[..i] + text[i..] == text;
  }

  lemma {:induction false} EscapedParts(a: seq<byte>, b: seq<byte>)
    ensures EscapedAll(a + b) == EscapedAll(a) + EscapedAll(b)
  {
    hide Escaped;
    if a == [] {
      assert a + b == b;
    } else {
      EscapedParts(a[1..], b);
      assert (a + b)[1..] == a[1..] + b;
    }
  }

  lemma EscapedMore(text: seq<byte>, i: nat)
    requires i < |text|
    ensures EscapedAll(text[..i + 1]) == EscapedAll(text[..i]) + Escaped(text[i])
  {
    assert text[..i + 1] == text[..i] + [text[i]];
    EscapedParts(text[..i], [text[i]]);
    assert EscapedAll([text[i]]) == Escaped(text[i]) + EscapedAll([]);
  }

  /** From nothing, `text` was asked for, all of it 7-bit if `ok`. */
  ghost predicate Wrote(value: Option<seq<byte>>, ok: bool, text: seq<byte>, capacity: nat) {
    value == if ok && |text| <= capacity then Some(text) else None
  }

  lemma WroteMore(value: Option<seq<byte>>, ok: bool, text: seq<byte>, capacity: nat, piece: seq<byte>)
    requires Wrote(value, ok, text, capacity)
    ensures Wrote(Then(value, piece, capacity), ok, text + piece, capacity)
  {
  }

  lemma WroteString(value: Option<seq<byte>>, ok: bool, text: seq<byte>, capacity: nat, s: Text)
    requires Wrote(value, ok, text, capacity)
    ensures Wrote(ThenString(value, s, capacity), ok && SevenBit(s), text + Quoted(s), capacity)
  {
    hide Quoted, SevenBit;
  }

  /** `"name":` */
  method WriteMember(w: JsonWriter, name: Text, ghost ok: bool, ghost text: seq<byte>)
    requires w.Valid() && SevenBit(name) && Wrote(w.Value(), ok, text, w.capacity)
    modifies w, w.data
    ensures w.Valid() && Wrote(w.Value(), ok, text + Member(name), w.capacity)
    ensures w.data[..w.from] == old(w.data[..w.from])
  {
    hide Quoted, SevenBit, Then, Wrote;
    WroteString(w.Value(), ok, text, w.capacity, name);
    w.WriteString(name);
    WroteMore(w.Value(), ok && SevenBit(name), text + Quoted(name), w.capacity, [COLON]);
    w.Write([COLON]);
    assert text + Quoted(name) + [COLON] == text + Member(name);
  }

  method WriteEntry(w: JsonWriter, e: Entry, ghost ok: bool, ghost text: seq<byte>)
    requires w.Valid() && Wrote(w.Value(), ok, text, w.capacity)
    modifies w, w.data
    ensures w.Valid() && Wrote(w.Value(), ok && SevenBit(e.key) && SevenBit(e.value), text + PrintedEntry(e), w.capacity)
    ensures w.data[..w.from] == old(w.data[..w.from])
  {
    hide Quoted, Member, SevenBit, Then, ThenString, Wrote, PrintedEntry;
    WordsAreShort();
    WroteMore(w.Value(), ok, text, w.capacity, [OPEN_BRACE]);
    w.Write([OPEN_BRACE]);
    ghost var t1 := text + [OPEN_BRACE];
    WriteMember(w, KEY, ok, t1);
    ghost var t2 := t1 + Member(KEY);
    WroteString(w.Value(), ok, t2, w.capacity, e.key);
    w.WriteString(e.key);
    ghost var t3, ok3 := t2 + Quoted(e.key), ok && SevenBit(e.key);
    WroteMore(w.Value(), ok3, t3, w.capacity, [COMMA]);
    w.Write([COMMA]);
    ghost var t4 := t3 + [COMMA];
    WriteMember(w, VALUE, ok3, t4);
    ghost var t5 := t4 + Member(VALUE);
    WroteString(w.Value(), ok3, t5, w.capacity, e.value);
    w.WriteString(e.value);
    ghost var t6, ok6 := t5 + Quoted(e.value), ok3 && SevenBit(e.value);
    WroteMore(w.Value(), ok6, t6, w.capacity, [CLOSE_BRACE]);
    w.Write([CLOSE_BRACE]);
    EntryText(e, text);
  }

  lemma EntryText(e: Entry, text: seq<byte>)
    ensures text + [OPEN_BRACE] + Member(KEY) + Quoted(e.key) + [COMMA] + Member(VALUE) + Quoted(e.value) + [CLOSE_BRACE] ==
            text + PrintedEntry(e)
  {
    hide Quoted, Member;
  }

  lemma {:induction false} PrintedMore(entries: seq<Entry>, i: nat, j: nat)
    requires i <= j < |entries|
    ensures PrintedFrom(entries[..j + 1], i) ==
            PrintedFrom(entries[..j], i) + ((if j > 0 then [COMMA] else []) + PrintedEntry(entries[j]))
    decreases j - i
  {
    hide PrintedEntry;
    if i < j {
      PrintedMore(entries, i + 1, j);
      var first := (if i > 0 then [COMMA] else []) + PrintedEntry(entries[i]);
      assert PrintedFrom(entries[..j + 1], i) == first + PrintedFrom(entries[..j + 1], i + 1);
      assert PrintedFrom(entries[..j], i) == first + PrintedFrom(entries[..j], i + 1);
    } else {
      assert PrintedFrom(entries[..j + 1], j) == (if j > 0 then [COMMA] else []) + PrintedEntry(entries[j]) + [];
    }
  }

  method WriteEntries(w: JsonWriter, entries: seq<Entry>, ghost ok: bool, ghost text: seq<byte>)
    requires w.Valid() && Wrote(w.Value(), ok, text, w.capacity)
    modifies w, w.data
    ensures w.Valid() && Wrote(w.Value(), ok && Printable(entries), text + PrintedFrom(entries, 0), w.capacity)
    ensures w.data[..w.from] == old(w.data[..w.from])
  {
    hide PrintedEntry, SevenBit, Then, Wrote;
    assert text + PrintedFrom(entries[..0], 0) == text;
    for i := 0 to |entries|
      invariant w.Valid()
      invariant Wrote(w.Value(), ok && Printable(entries[..i]), text + PrintedFrom(entries[..i], 0), w.capacity)
      invariant w.data[..w.from] == old(w.data[..w.from])
    {
      ghost var good, before := ok && Printable(entries[..i]), text + PrintedFrom(entries[..i], 0);
      if i > 0 {
        WroteMore(w.Value(), good, before, w.capacity, [COMMA]);
        w.Write([COMMA]);
      }
      ghost var comma := if i > 0 then [COMMA] else [];
      assert i == 0 ==> before + comma == before;
      WriteEntry(w, entries[i], good, before + comma);
      EntriesText(entries, i, text);
    }
    assert entries[..|entries|] == entries;
  }

  lemma Regroup(a: seq<byte>, b: seq<byte>, c: seq<byte>)
    ensures (a + b) + c == a + (b + c)
  {
  }

  lemma EntriesText(entries: seq<Entry>, i: nat, text: seq<byte>)
    requires i < |entries|
    ensures text + PrintedFrom(entries[..i], 0) + (if i > 0 then [COMMA] else []) + PrintedEntry(entries[i]) ==
            text + PrintedFrom(entries[..i + 1], 0)
    ensures Printable(entries[..i + 1]) <==>
            Printable(entries[..i]) && SevenBit(entries[i].key) && SevenBit(entries[i].value)
  {
    hide PrintedFrom, PrintedEntry, SevenBit;
    PrintedMore(entries, 0, i);
    var comma := if i > 0 then [COMMA] else [];
    Regroup(text, PrintedFrom(entries[..i], 0), comma);
    Regroup(text, PrintedFrom(entries[..i], 0) + comma, PrintedEntry(entries[i]));
    Regroup(PrintedFrom(entries[..i], 0), comma, PrintedEntry(entries[i]));
    assert entries[..i + 1] == entries[..i] + [entries[i]];
  }

  method WriteType(w: JsonWriter, kind: DataType)
    requires w.Valid() && w.Value() == Some([])
    modifies w, w.data
    ensures w.Valid() && Wrote(w.Value(), true, PrintedType(kind), w.capacity)
    ensures w.data[..w.from] == old(w.data[..w.from])
  {
    hide Quoted, Member, SevenBit, Then, ThenString, Wrote;
    WordsAreShort();
    NothingWrote(w.capacity);
    WroteMore(w.Value(), true, [], w.capacity, [OPEN_BRACE]);
    w.Write([OPEN_BRACE]);
    ghost var t1 := [] + [OPEN_BRACE];
    WriteMember(w, TYPE, true, t1);
    ghost var t2 := t1 + Member(TYPE);
    WroteString(w.Value(), true, t2, w.capacity, NameOf(kind));
    w.WriteString(NameOf(kind));
    ghost var t3 := t2 + Quoted(NameOf(kind));
    WroteMore(w.Value(), true, t3, w.capacity, [COMMA]);
    w.Write([COMMA]);
    assert t3 + [COMMA] == PrintedType(kind);
  }

  method WriteListHead(w: JsonWriter, n: nat, ghost text: seq<byte>)
    requires w.Valid() && Wrote(w.Value(), true, text, w.capacity) && n <= CHUNK_ENTRIES
    modifies w, w.data
    ensures w.Valid() && Wrote(w.Value(), true, text + PrintedListHead(n), w.capacity)
    ensures w.data[..w.from] == old(w.data[..w.from])
  {
    hide Member, SevenBit, Then, Wrote, Decimal;
    WordsAreShort();
    WriteMember(w, COUNT, true, text);
    ghost var t1 := text + Member(COUNT);
    WroteMore(w.Value(), true, t1, w.capacity, Decimal(n));
    w.Write(Decimal(n));
    ghost var t2 := t1 + Decimal(n);
    WroteMore(w.Value(), true, t2, w.capacity, [COMMA]);
    w.Write([COMMA]);
    WriteMember(w, INFO, true, t2 + [COMMA]);
    ghost var t3 := t2 + [COMMA] + Member(INFO);
    WroteMore(w.Value(), true, t3, w.capacity, [OPEN_BRACKET]);
    w.Write([OPEN_BRACKET]);
    ListHeadText(n, text);
  }

  lemma ListHeadText(n: nat, text: seq<byte>)
    requires n <= CHUNK_ENTRIES
    ensures text + Member(COUNT) + Decimal(n) + [COMMA] + Member(INFO) + [OPEN_BRACKET] == text + PrintedListHead(n)
  {
    hide Member, Decimal;
    var s4 := Member(INFO) + [OPEN_BRACKET];
    var s3 := [COMMA] + s4;
    Regroup(text + Member(COUNT) + Decimal(n) + [COMMA], Member(INFO), [OPEN_BRACKET]);
    Regroup(text + Member(COUNT) + Decimal(n), [COMMA], s4);
    Regroup(text + Member(COUNT), Decimal(n), s3);
    Regroup(text, Member(COUNT), Decimal(n) + s3);
  }

  /** Prints into the buffer from `from` on; None when it refuses. */
  method WriteJson(kind: DataType, entries: seq<Entry>, output: array<byte>, from: nat, capacity: nat)
    returns (length: Option<nat>)
    requires from + capacity <= output.Length
    modifies output
    ensures var json := Json(kind, entries, capacity);
            && (length.None? <==> json.None?)
            && (json.Some? ==> length == Some(|json.value|) && output[from..from + |json.value|] == json.value)
    ensures output[..from] == old(output[..from])
  {
    hide PrintedType, PrintedListHead, Then, Wrote, Printable, PrintedFrom;
    if |entries| > CHUNK_ENTRIES {
      return None;
    }
    var w := new JsonWriter(output, from, capacity);
    WriteType(w, kind);
    ghost var t1 := PrintedType(kind);
    WriteListHead(w, |entries|, t1);
    ghost var t2 := t1 + PrintedListHead(|entries|);
    WriteEntries(w, entries, true, t2);
    ghost var t3 := t2 + PrintedFrom(entries, 0);
    WroteMore(w.Value(), Printable(entries), t3, capacity, [CLOSE_BRACKET, CLOSE_BRACE]);
    w.Write([CLOSE_BRACKET, CLOSE_BRACE]);
    TextIsPrinted(kind, entries);
    hide Printed;
    FinishedWriting(w.Value(), kind, entries, capacity);
    if w.failed {
      return None;
    }
    return Some(w.length);
  }

  /** Prints a whole frame 91/03, or refuses and leaves the output alone. */
  method SerializeSync(kind: DataType, entries: seq<Entry>, destination: Address, source: Address, version: u16,
                       output: array<byte>, capacity: nat, provided: Provided)
    returns (status: Status, length: nat)
    requires capacity <= output.Length
    modifies output
    ensures var f := SyncFrame(kind, entries, destination, source, version);
            && (status == Ok <==> f.Some? && provided.Some? && HEADER_SIZE + |f.value.payload| <= capacity)
            && (status != Ok ==> length == 0 && output[..] == old(output[..]))
            && (status == Ok ==>
                  && length == HEADER_SIZE + |f.value.payload|
                  && output[..length] == Image(f.value, provided.value.0, provided.value.1))
  {
    hide Json, Image;
    var payload := new byte[MAX_PACKET - HEADER_SIZE](_ => 0);
    payload[0], payload[1] := version % 256, version / 256;
    var written := WriteJson(kind, entries, payload, 2, MAX_JSON);
    if written.None? {
      return Invalid, 0;
    }
    var n := written.value + 2;
    assert payload[..2] == [version % 256, version / 256];
    assert payload[..n] == payload[..2] + payload[2..n];
    var f := Frame(destination, source, 0x91, 0x03, payload[..n]);
    status, length := Serialize(output, capacity, f, provided);
  }

  lemma NothingWrote(capacity: nat)
    ensures Wrote(Some([]), true, [], capacity)
  {
  }

  lemma TextIsPrinted(kind: DataType, entries: seq<Entry>)
    requires |entries| <= CHUNK_ENTRIES
    ensures PrintedType(kind) + PrintedListHead(|entries|) + PrintedFrom(entries, 0) + [CLOSE_BRACKET, CLOSE_BRACE] ==
            Printed(kind, entries)
  {
    hide PrintedType, PrintedListHead, PrintedFrom;
    var end := [CLOSE_BRACKET] + [CLOSE_BRACE];
    assert [CLOSE_BRACKET, CLOSE_BRACE] == end;
    Regroup(PrintedType(kind) + PrintedListHead(|entries|), PrintedFrom(entries, 0), end);
    Regroup(PrintedType(kind), PrintedListHead(|entries|), PrintedFrom(entries, 0) + end);
  }

  lemma FinishedWriting(value: Option<seq<byte>>, kind: DataType, entries: seq<Entry>, capacity: nat)
    requires |entries| <= CHUNK_ENTRIES && Wrote(value, Printable(entries), Printed(kind, entries), capacity)
    ensures value == Json(kind, entries, capacity)
  {
    hide Printed;
  }

  /** Advances over a text; after a failure the offset is anywhere. */
  class JsonParser {
    const data: seq<byte>
    var offset: nat

    ghost predicate Valid()
      reads this
    {
      offset <= |data|
    }

    constructor (data: seq<byte>)
      ensures Valid() && this.data == data && offset == 0
    {
      this.data, offset := data, 0;
    }

    method SkipSpace()
      requires Valid()
      modifies this
      ensures Valid() && offset == AfterSpace(data, old(offset))
    {
      while offset < |data| && IsSpace(data[offset])
        invariant Valid() && AfterSpace(data, offset) == AfterSpace(data, old(offset))
        decreases |data| - offset
      {
        offset := offset + 1;
      }
    }

    method Accept(c: byte) returns (ok: bool)
      requires Valid()
      modifies this
      ensures Valid() && (ok <==> Expect(data, old(offset), c).Some?)
      ensures ok ==> Expect(data, old(offset), c) == Some(offset)
    {
      SkipSpace();
      if offset >= |data| || data[offset] != c {
        return false;
      }
      offset := offset + 1;
      return true;
    }

    method ParseString(capacity: nat) returns (text: Option<Text>)
      requires Valid() && capacity > 0
      modifies this
      ensures Valid()
      ensures var r := ReadString(data, old(offset), capacity);
              if r.None? then text.None? else text == Some(r.value.value) && offset == r.value.end
    {
      var begun := Accept(QUOTE);
      if !begun {
        return None;
      }
      hide ReadChar;
      var start, output: Text := offset, [];
      while offset < |data|
        invariant Valid() && ReadChars(data, offset, output, capacity) == ReadChars(data, start, [], capacity)
        decreases |data| - offset
      {
        if data[offset] == QUOTE {
          offset := offset + 1;
          return Some(output);
        }
        var c := ReadChar(data, offset);
        if c.None? || c.value.value == 0 || |output| + 1 >= capacity {
          return None;
        }
        offset := c.value.end;
        output := output + [c.value.value];
      }
      return None;
    }

    method AcceptMember(name: Text) returns (ok: bool)
      requires Valid()
      modifies this
      ensures Valid() && (ok <==> ReadMember(data, old(offset), name).Some?)
      ensures ok ==> ReadMember(data, old(offset), name) == Some(offset)
    {
      hide ReadString, Expect;
      var found := ParseString(16);
      if found.None? || found.value != name {
        return false;
      }
      ok := Accept(COLON);
    }

    method ParseCount() returns (count: Option<nat>)
      requires Valid()
      modifies this
      ensures Valid()
      ensures var r := ReadCount(data, old(offset));
              if r.None? then count.None? else count == Some(r.value.value) && offset == r.value.end
    {
      var value: nat, digits: nat := 0, 0;
      SkipSpace();
      var start := offset;
      while offset < |data| && IsDigit(data[offset])
        invariant Valid() && value <= CHUNK_ENTRIES
        invariant ReadDigits(data, offset, value, digits) == ReadDigits(data, start, 0, 0)
        decreases |data| - offset
      {
        value := value * 10 + (data[offset] - ZERO);
        offset := offset + 1;
        digits := digits + 1;
        if value > CHUNK_ENTRIES {
          return None;
        }
      }
      if digits == 0 {
        return None;
      }
      return Some(value);
    }

    method ParseEntry() returns (e: Option<Entry>)
      requires Valid()
      modifies this
      ensures Valid()
      ensures var r := ReadEntry(data, old(offset));
              if r.None? then e.None? else e == Some(r.value.value) && offset == r.value.end
    {
      hide ReadString, ReadMember, Expect;
      var ok := Accept(OPEN_BRACE);
      if !ok {
        return None;
      }
      ok := AcceptMember(KEY);
      if !ok {
        return None;
      }
      var key := ParseString(KEY_SIZE);
      if key.None? || key.value == [] {
        return None;
      }
      ok := Accept(COMMA);
      if !ok {
        return None;
      }
      ok := AcceptMember(VALUE);
      if !ok {
        return None;
      }
      var value := ParseString(VALUE_SIZE);
      if value.None? {
        return None;
      }
      ok := Accept(CLOSE_BRACE);
      if !ok {
        return None;
      }
      return Some(Entry(key.value, value.value));
    }

    method ParseEntries(count: nat) returns (entries: Option<seq<Entry>>)
      requires Valid()
      modifies this
      ensures Valid()
      ensures var r := ReadEntries(data, old(offset), 0, count);
              if r.None? then entries.None? else entries == Some(r.value.value) && offset == r.value.end
    {
      hide ReadEntry, Expect;
      var start, list: seq<Entry> := offset, [];
      ghost var whole := ReadEntries(data, start, 0, count);
      assert forall s: seq<Entry> :: [] + s == s && s + [] == s;
      for index := 0 to count
        invariant Valid() && |list| == index
        invariant Reads(whole, list, ReadEntries(data, offset, index, count))
      {
        ghost var was := ReadEntries(data, offset, index, count);
        if index > 0 {
          var comma := Accept(COMMA);
          if !comma {
            return None;
          }
        }
        var e := ParseEntry();
        if e.None? {
          return None;
        }
        ReadsMore(whole, list, was, e.value, ReadEntries(data, offset, index + 1, count));
        list := list + [e.value];
      }
      return Some(list);
    }

    method ParseJson() returns (update: Option<Update>)
      requires offset == 0
      modifies this
      ensures update == ReadJson(data)
    {
      hide ReadMember, ReadString, ReadCount, ReadEntries, Expect;
      var name := ParseType();
      if name.None? {
        return None;
      }
      var count := ParseListHead();
      if count.None? {
        return None;
      }
      var kind;
      if name.value == NORMAL {
        kind := Presences.Normal;
      } else if name.value == PERIOD {
        kind := Presences.Period;
      } else {
        return None;
      }
      var entries := ParseEntries(count.value);
      if entries.None? {
        return None;
      }
      var ok := Accept(CLOSE_BRACKET);
      if !ok {
        return None;
      }
      ok := Accept(CLOSE_BRACE);
      if !ok {
        return None;
      }
      SkipSpace();
      if offset != |data| || (kind == Presences.Normal && count.value != 1) {
        return None;
      }
      return Some(Update(kind, entries.value));
    }

    method ParseType() returns (name: Option<Text>)
      requires offset == 0
      modifies this
      ensures Valid()
      ensures var r := ReadType(data);
              if r.None? then name.None? else name == Some(r.value.value) && offset == r.value.end
    {
      hide ReadMember, ReadString, Expect;
      var ok := Accept(OPEN_BRACE);
      if !ok {
        return None;
      }
      ok := AcceptMember(TYPE);
      if !ok {
        return None;
      }
      name := ParseString(8);
      if name.None? {
        return None;
      }
      ok := Accept(COMMA);
      if !ok {
        return None;
      }
    }

    method ParseListHead() returns (count: Option<nat>)
      requires Valid()
      modifies this
      ensures Valid()
      ensures var r := ReadListHead(data, old(offset));
              if r.None? then count.None? else count == Some(r.value.value) && offset == r.value.end
    {
      hide ReadMember, ReadCount, Expect;
      var ok := AcceptMember(COUNT);
      if !ok {
        return None;
      }
      count := ParseCount();
      if count.None? {
        return None;
      }
      ok := Accept(COMMA);
      if !ok {
        return None;
      }
      ok := AcceptMember(INFO);
      if !ok {
        return None;
      }
      ok := Accept(OPEN_BRACKET);
      if !ok {
        return None;
      }
    }
  }

  /** After `list`, what is still to be read completes the whole. */
  ghost predicate Reads(whole: Option<Read<seq<Entry>>>, list: seq<Entry>, rest: Option<Read<seq<Entry>>>) {
    whole == if rest.None? then None else Some(Read(list + rest.value.value, rest.value.end))
  }

  lemma ReadsMore(whole: Option<Read<seq<Entry>>>, list: seq<Entry>, was: Option<Read<seq<Entry>>>, e: Entry,
                  rest: Option<Read<seq<Entry>>>)
    requires Reads(whole, list, was)
    requires was == if rest.None? then None else Some(Read([e] + rest.value.value, rest.value.end))
    ensures Reads(whole, list + [e], rest)
  {
    if rest.Some? {
      assert list + ([e] + rest.value.value) == list + [e] + rest.value.value;
    }
  }

  // ---------------------------------------------------------------------------
  // The store.

  class SyncStore {
    var entries: seq<Entry>

    constructor ()
      ensures entries == [] && StoreOk(entries)
    {
      entries := [];
    }

    method FindEntry(key: Text) returns (i: nat)
      ensures i == Find(entries, key)
    {
      i := 0;
      while i < |entries| && entries[i].key != key
        invariant i <= |entries| && forall j :: 0 <= j < i ==> entries[j].key != key
      {
        i := i + 1;
      }
    }

    method Register(key: Text, value: Text) returns (status: Status)
      modifies this
      ensures var r := Registered(old(entries), key, value);
              if r.None? then status == Invalid && entries == old(entries) else status == Ok && entries == r.value
    {
      hide Find;
      if key == [] {
        return Invalid;
      }
      var i := FindEntry(key);
      if i < |entries| {
        return Ok;
      }
      if |entries| >= MAX_ENTRIES || |key| >= KEY_SIZE || |value| >= VALUE_SIZE {
        return Invalid;
      }
      entries := entries + [Entry(key, value)];
      return Ok;
    }

    method UpdateLocal(version: u16, key: Text, value: Text) returns (status: Status, next: u16)
      modifies this
      ensures var r := UpdatedLocal(old(entries), version, key, value);
              if r.None? then status == Invalid && entries == old(entries) && next == version
              else status == Ok && (entries, next) == r.value
    {
      hide Find;
      next := version;
      if |value| >= VALUE_SIZE {
        return Invalid, next;
      }
      var i := FindEntry(key);
      if i == |entries| {
        return Invalid, next;
      }
      entries := entries[i := Entry(key, value)];
      next := if version >= 60000 then 1 else version + 1;
      return Ok, next;
    }

    /** Takes over the values of the keys we know. */
    method Apply(kind: DataType, received: seq<Entry>)
      modifies this
      ensures entries == Applied(old(entries), received)
    {
      hide Find;
      var next := entries;
      for index := 0 to |received|
        invariant entries == old(entries) && next == Applied(old(entries), received[..index])
      {
        assert received[..index + 1][..index] == received[..index];
        var i := 0;
        while i < |next| && next[i].key != received[index].key
          invariant i <= |next| && forall j :: 0 <= j < i ==> next[j].key != received[index].key
        {
          i := i + 1;
        }
        assert i == Find(next, received[index].key) by { FindIs(next, received[index].key, i); }
        if i < |next| && (kind == Presences.Normal || next[i].value != received[index].value) {
          next := next[i := Entry(next[i].key, received[index].value)];
        }
        assert i < |next| ==> next == Applied(old(entries), received[..index])[i := received[index]];
      }
      assert received[..|received|] == received;
      entries := next;
    }

    /** A received frame: the store and the presence change together or not at all. */
    method Receive(station: Presences.PresenceStation, data: seq<byte>, now: u64) returns (status: Status, resend: bool)
      modifies this, station
      ensures var t := Received(old(entries), old(station.p), data, now);
              if t.None? then status == Invalid && !resend && entries == old(entries) && station.p == old(station.p)
              else status == Ok && Taken(entries, station.p, resend) == t.value
    {
      hide Presences.DataObserved, Applied, ReadJson, Parse;
      var f := Parse(data);
      if f.None? || f.value.family != 0x91 || f.value.opcode != 0x03 || |f.value.payload| < 2
         || f.value.destination != station.p.identity
      {
        return Invalid, false;
      }
      var parser := new JsonParser(f.value.payload[2..]);
      var update := parser.ParseJson();
      if update.None? {
        return Invalid, false;
      }
      var apply;
      status, apply, resend := station.ObserveSyncData(f.value.source, update.value.kind,
                                                       Word(f.value.payload[0], f.value.payload[1]), now);
      if status != Ok {
        return Invalid, false;
      }
      if apply {
        Apply(update.value.kind, update.value.entries);
      }
    }
  }

  lemma FindIs(entries: seq<Entry>, key: Text, i: nat)
    requires i <= |entries| && (i < |entries| ==> entries[i].key == key)
    requires forall j :: 0 <= j < i ==> entries[j].key != key
    ensures Find(entries, key) == i
  {
    hide Find;
  }
}
