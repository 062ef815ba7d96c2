/** Entries of the write-ahead log and their payloads (`engine/src/wal/entry.rs`,
    `engine/src/wal/codec.rs`). */
module LogEntry {
  import opened Bytes
  import opened LogErrors
  import opened Utf8

  datatype Entry =
    | CreateTable(table: Text)
    | RemoveTable(table: Text)
    | Insert(table: Text, key: Text, value: seq<byte>)
    | Update(table: Text, key: Text, value: seq<byte>)
    | Delete(table: Text, key: Text)

  const U32_MAX: nat := 0xFFFF_FFFF

  // ---- Length-prefixed fields ----

  /** `encode_string` and `encode_bytes`; the cast `as u32` keeps the low 32 bits
      of a length. */
  function Field(value: seq<byte>): (s: seq<byte>)
    ensures |s| == 4 + |value|
  {
    BE32(|value| % 0x1_0000_0000) + value
  }

  /** `read_u32`. An offset too large to add to is past the end here, with the
      same error. */
  function ReadU32(payload: seq<byte>, offset: nat): Result<u32> {
    if offset + 4 > |payload| then Err(InvalidPayload) else Ok(FromBE32(payload[offset..offset + 4]))
  }

  /** `decode_bytes`: the value and the number of bytes it took. */
  function DecodeBytes(payload: seq<byte>, offset: nat): (r: Result<(seq<byte>, nat)>)
    ensures r.Ok? ==> offset + r.value.1 <= |payload|
  {
    match ReadU32(payload, offset)
    case Err(e) => Err(e)
    case Ok(len) =>
      if offset + 4 + len > |payload| then Err(InvalidPayload)
      else Ok((payload[offset + 4..offset + 4 + len], 4 + len))
  }

  /** `decode_string`. */
  function DecodeString(payload: seq<byte>, offset: nat): (r: Result<(Text, nat)>)
    ensures r.Ok? ==> offset + r.value.1 <= |payload|
  {
    match DecodeBytes(payload, offset)
    case Err(e) => Err(e)
    case Ok((bytes, size)) => if Utf8.Valid(bytes) then Ok((bytes, size)) else Err(InvalidPayload)
  }

  /** A field is decoded where it stands exactly when its length fits 32 bits;
      whatever follows does not matter. */
  lemma FieldRoundTrip(before: seq<byte>, value: seq<byte>, after: seq<byte>)
    ensures DecodeBytes(before + Field(value) + after, |before|) == Ok((value, 4 + |value|)) <==> |value| <= U32_MAX
  {
    var payload := before + Field(value) + after;
    var len := |value| % 0x1_0000_0000;
    assert payload == before + BE32(len) + value + after;
    assert payload[|before|..|before| + 4] == BE32(len);
    BE32RoundTrip(len);
    assert payload[|before| + 4..|before| + 4 + |value|] == value;
  }

  /** Whatever is decoded stands there as a field. */
  lemma DecodedIsField(payload: seq<byte>, offset: nat)
    requires DecodeBytes(payload, offset).Ok?
    ensures var (value, size) := DecodeBytes(payload, offset).value;
            |value| <= U32_MAX && size == |Field(value)| && payload[offset..offset + size] == Field(value)
  {
    FromBE32RoundTrip(payload[offset..offset + 4]);
  }

  // ---- Entries ----

  function Tag(e: Entry): byte {
    match e
    case CreateTable(_) => 0
    case RemoveTable(_) => 1
    case Insert(_, _, _) => 2
    case Update(_, _, _) => 3
    case Delete(_, _) => 4
  }

  /** The fields after the table. */
  function Rest(e: Entry): seq<byte> {
    match e
    case CreateTable(_) => []
    case RemoveTable(_) => []
    case Insert(_, key, value) => Field(key) + Field(value)
    case Update(_, key, value) => Field(key) + Field(value)
    case Delete(_, key) => Field(key)
  }

  /** The bytes an entry stands for. */
  function Payload(e: Entry): (s: seq<byte>)
    ensures 0 < |s|
  {
    [Tag(e)] + Field(e.table) + Rest(e)
  }

  lemma AppendOneByOne(tag: seq<byte>, e: Entry)
    ensures [] + tag == tag
    ensures e.CreateTable? || e.RemoveTable? ==> tag + Field(e.table) == tag + Field(e.table) + Rest(e)
    ensures e.Insert? || e.Update? ==>
              tag + Field(e.table) + Field(e.key) + Field(e.value) == tag + Field(e.table) + Rest(e)
  {
    var before := tag + Field(e.table);
    if e.Insert? || e.Update? {
      assert before + Field(e.key) + Field(e.value) == before + (Field(e.key) + Field(e.value));
    }
  }

  /** `to_bytes`. */
  method ToBytes(e: Entry) returns (buf: seq<byte>)
    ensures buf == Payload(e)
  {
    buf := [];
    AppendOneByOne([Tag(e)], e);
    match e
    case CreateTable(table) =>
      buf := buf + [0];
      buf := buf + Field(table);
    case RemoveTable(table) =>
      buf := buf + [1];
      buf := buf + Field(table);
    case Insert(table, key, value) =>
      buf := buf + [2];
      buf := buf + Field(table);
      buf := buf + Field(key);
      buf := buf + Field(value);
    case Update(table, key, value) =>
      buf := buf + [3];
      buf := buf + Field(table);
      buf := buf + Field(key);
      buf := buf + Field(value);
    case Delete(table, key) =>
      buf := buf + [4];
      buf := buf + Field(table);
      buf := buf + Field(key);
  }

  /** Every length fits its 32-bit prefix. */
  predicate Encodable(e: Entry) {
    && |e.table| <= U32_MAX
    && (e.Insert? || e.Update? ==> |e.key| <= U32_MAX && |e.value| <= U32_MAX)
    && (e.Delete? ==> |e.key| <= U32_MAX)
  }

  /** `p` is the payload of `e`, with no length cut short. */
  predicate Prints(e: Entry, p: seq<byte>) { Encodable(e) && p == Payload(e) }

  /** The fields after the table, and where they end. */
  function ParseRest(tag: byte, table: Text, payload: seq<byte>, cursor: nat): Result<(Entry, nat)> {
    if tag == 0 then Ok((CreateTable(table), cursor))
    else if tag == 1 then Ok((RemoveTable(table), cursor))
    else if tag > 4 then Err(InvalidPayload)
    else
      match DecodeString(payload, cursor)
      case Err(e) => Err(e)
      case Ok((key, keySize)) =>
        if tag == 4 then Ok((Delete(table, key), cursor + keySize))
        else
          match DecodeBytes(payload, cursor + keySize)
          case Err(e) => Err(e)
          case Ok((value, valueSize)) =>
            var entry := if tag == 2 then Insert(table, key, value) else Update(table, key, value);
            Ok((entry, cursor + keySize + valueSize))
  }

  function Parse(payload: seq<byte>): Result<Entry> {
    if payload == [] then Err(InvalidPayload)
    else
      match DecodeString(payload, 1)
      case Err(e) => Err(e)
      case Ok((table, size)) =>
        match ParseRest(payload[0], table, payload, 1 + size)
        case Err(e) => Err(e)
        case Ok((entry, cursor)) => if cursor != |payload| then Err(InvalidPayload) else Ok(entry)
  }

  /** `from_bytes`. */
  method FromBytes(payload: seq<byte>) returns (r: Result<Entry>)
    ensures r == Parse(payload)
  {
    var cursor := 0;
    if |payload| == 0 {
      return Err(InvalidPayload);
    }
    var tag := payload[0];
    cursor := cursor + 1;
    var table: Text;
    match DecodeString(payload, cursor) {
      case Err(e) => return Err(e);
      case Ok((text, size)) =>
        table := text;
        cursor := cursor + size;
    }
    var entry: Entry;
    if tag == 0 {
      entry := CreateTable(table);
    } else if tag == 1 {
      entry := RemoveTable(table);
    } else if tag == 2 || tag == 3 {
      var key: Text;
      match DecodeString(payload, cursor) {
        case Err(e) => return Err(e);
        case Ok((text, size)) =>
          key := text;
          cursor := cursor + size;
      }
      match DecodeBytes(payload, cursor) {
        case Err(e) => return Err(e);
        case Ok((value, size)) =>
          entry := if tag == 2 then Insert(table, key, value) else Update(table, key, value);
          cursor := cursor + size;
      }
    } else if tag == 4 {
      match DecodeString(payload, cursor) {
        case Err(e) => return Err(e);
        case Ok((key, size)) =>
          entry := Delete(table, key);
          cursor := cursor + size;
      }
    } else {
      return Err(InvalidPayload);
    }
    if cursor != |payload| {
      return Err(InvalidPayload);
    }
    return Ok(entry);
  }

  // ---- Parsing and printing are inverse ----

  lemma ParsedIsPrinted(payload: seq<byte>)
    requires Parse(payload).Ok?
    ensures Prints(Parse(payload).value, payload)
  {
    var (table, size) := DecodeString(payload, 1).value;
    DecodedIsField(payload, 1);
    RestIsPrinted(payload[0], table, payload, 1 + size);
    SplitAt(payload, 1 + size);
  }

  lemma SplitAt(payload: seq<byte>, cursor: nat)
    requires 1 <= cursor <= |payload|
    ensures payload == [payload[0]] + payload[1..cursor] + payload[cursor..]
  {
  }

  lemma BothAreFields(payload: seq<byte>, cursor: nat)
    requires DecodeBytes(payload, cursor).Ok? && DecodeBytes(payload, cursor + DecodeBytes(payload, cursor).value.1).Ok?
    ensures var (key, size) := DecodeBytes(payload, cursor).value;
            var (value, valueSize) := DecodeBytes(payload, cursor + size).value;
            && |key| <= U32_MAX && |value| <= U32_MAX
            && (cursor + size + valueSize == |payload| ==> payload[cursor..] == Field(key) + Field(value))
  {
    var (key, size) := DecodeBytes(payload, cursor).value;
    DecodedIsField(payload, cursor);
    DecodedIsField(payload, cursor + size);
    assert payload[cursor..] == payload[cursor..cursor + size] + payload[cursor + size..];
  }

  lemma RestIsPrinted(tag: byte, table: Text, payload: seq<byte>, cursor: nat)
    requires cursor <= |payload| && ParseRest(tag, table, payload, cursor).Ok?
    requires ParseRest(tag, table, payload, cursor).value.1 == |payload|
    ensures var e := ParseRest(tag, table, payload, cursor).value.0;
            && Tag(e) == tag && e.table == table && payload[cursor..] == Rest(e)
            && (|table| <= U32_MAX ==> Encodable(e))
  {
    if tag == 4 {
      DecodedIsField(payload, cursor);
    } else if tag >= 2 {
      BothAreFields(payload, cursor);
    }
  }

  lemma TextDecodes(before: seq<byte>, text: Text, after: seq<byte>)
    requires |text| <= U32_MAX
    ensures DecodeString(before + Field(text) + after, |before|) == Ok((text, 4 + |text|))
  {
    FieldRoundTrip(before, text, after);
  }

  /** What `ParseRest` finds, from what its fields decode to. */
  lemma KeyFound(table: Text, key: Text, p: seq<byte>, cursor: nat, size: nat)
    requires DecodeString(p, cursor) == Ok((key, size))
    ensures ParseRest(4, table, p, cursor) == Ok((Delete(table, key), cursor + size))
  {
  }

  lemma KeyAndValueFound(table: Text, key: Text, value: seq<byte>, p: seq<byte>, cursor: nat, size: nat, valueSize: nat)
    requires DecodeString(p, cursor) == Ok((key, size)) && DecodeBytes(p, cursor + size) == Ok((value, valueSize))
    ensures ParseRest(2, table, p, cursor) == Ok((Insert(table, key, value), cursor + size + valueSize))
    ensures ParseRest(3, table, p, cursor) == Ok((Update(table, key, value), cursor + size + valueSize))
  {
  }

  lemma KeyParses(before: seq<byte>, key: Text)
    requires |key| <= U32_MAX
    ensures DecodeString(before + Field(key), |before|) == Ok((key, 4 + |key|))
  {
    assert before + Field(key) == before + Field(key) + [];
    TextDecodes(before, key, []);
  }

  lemma KeyAndValueParse(before: seq<byte>, key: Text, value: seq<byte>)
    requires |key| <= U32_MAX && |value| <= U32_MAX
    ensures var p := before + (Field(key) + Field(value));
            && DecodeString(p, |before|) == Ok((key, 4 + |key|))
            && DecodeBytes(p, |before| + (4 + |key|)) == Ok((value, 4 + |value|))
  {
    var p := before + (Field(key) + Field(value));
    assert p == before + Field(key) + Field(value) == (before + Field(key)) + Field(value) + [];
    TextDecodes(before, key, Field(value));
    FieldRoundTrip(before + Field(key), value, []);
  }

  lemma DeleteParses(table: Text, key: Text, before: seq<byte>)
    requires |key| <= U32_MAX
    ensures ParseRest(4, table, before + Field(key), |before|) == Ok((Delete(table, key), |before| + (4 + |key|)))
  {
    KeyParses(before, key);
    KeyFound(table, key, before + Field(key), |before|, 4 + |key|);
  }

  lemma PairParses(table: Text, key: Text, value: seq<byte>, before: seq<byte>)
    requires |key| <= U32_MAX && |value| <= U32_MAX
    ensures var p := before + (Field(key) + Field(value));
            && ParseRest(2, table, p, |before|)
               == Ok((Insert(table, key, value), |before| + (4 + |key|) + (4 + |value|)))
            && ParseRest(3, table, p, |before|)
               == Ok((Update(table, key, value), |before| + (4 + |key|) + (4 + |value|)))
  {
    KeyAndValueParse(before, key, value);
    KeyAndValueFound(table, key, value, before + (Field(key) + Field(value)), |before|, 4 + |key|, 4 + |value|);
  }

  lemma PrintedParses(e: Entry)
    requires Encodable(e)
    ensures Parse(Payload(e)) == Ok(e)
  {
    TextDecodes([Tag(e)], e.table, Rest(e));
    match e
    case Insert(table, key, value) => PairParses(table, key, value, [2] + Field(table));
    case Update(table, key, value) => PairParses(table, key, value, [3] + Field(table));
    case Delete(table, key) => DeleteParses(table, key, [4] + Field(table));
    case _ =>
  }

  /** `from_bytes` accepts exactly what `to_bytes` prints with no length cut
      short, and returns the entry it was printed from. */
  lemma EntryBijection(e: Entry, payload: seq<byte>)
    ensures Parse(payload) == Ok(e) <==> Prints(e, payload)
  {
    if Parse(payload) == Ok(e) {
      ParsedIsPrinted(payload);
    }
    if Prints(e, payload) {
      PrintedParses(e);
    }
  }

  /** The writer's size check is enough: no length inside a payload of at most
      `u32::MAX` bytes is cut short. */
  lemma SizeCheckSuffices(e: Entry)
    requires |Payload(e)| <= U32_MAX
    ensures Encodable(e) && Parse(Payload(e)) == Ok(e)
  {
    EntryBijection(e, Payload(e));
  }

  lemma ParseFailsOnlyOnPayload(payload: seq<byte>)
    ensures Parse(payload).Err? ==> Parse(payload).error == InvalidPayload
  {
  }
}
