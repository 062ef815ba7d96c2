/** The log file byte by byte (`engine/src/wal/format.rs`, `engine/src/wal/entry.rs`,
    `engine/src/wal/writer.rs`): which files are accepted, and what is written. */
module LogLayout {
  import opened Bytes
  import opened OctetWords
  import opened Checksum
  import opened LogErrors
  import opened LogEntry
  import opened LogFormat
  import opened LogReplay
  import opened LogRecovery
  import opened LogReopen
  import opened LogWriter
  import R = LogReader

  // ---- Which files are accepted ----

  /** "TRDB", version 1; the three bytes after it are not looked at. */
  predicate Accepted(file: seq<byte>) {
    |file| >= 8 && file[0] == 0x54 && file[1] == 0x52 && file[2] == 0x44 && file[3] == 0x42 && file[4] == 1
  }

  /** Why a file is not. */
  function Refusal(file: seq<byte>): WalError {
    if |file| >= 8 && file[0] == 0x54 && file[1] == 0x52 && file[2] == 0x44 && file[3] == 0x42
    then UnsupportedVersion(file[4]) else InvalidHeader
  }

  lemma HeaderVerdict(file: seq<byte>)
    ensures ValidateHeader(file) == if Accepted(file) then Ok(()) else Err(Refusal(file))
  {
    if |file| >= 8 {
      assert file[..4] == [file[0], file[1], file[2], file[3]];
    }
  }

  /** Whatever is found behind the header, its errors are not those of the header. */
  predicate EntryError(e: WalError) { e.UnexpectedEof? || e.CorruptEntry? || e.InvalidPayload? }

  lemma JudgeErrors(payload: seq<byte>, checksum: bv32, position: nat)
    ensures var r := Judge(payload, checksum, position); r.Failed? ==> EntryError(r.error)
  {
    ParseFailsOnlyOnPayload(payload);
  }

  lemma {:induction false} StageErrors(stage: Stage, rest: seq<byte>, limit: nat, position: nat)
    ensures var r := ScanFrom(stage, rest, limit, position); r.Failed? ==> EntryError(r.error)
    decreases if stage.Length? then 2 else if stage.Checksum? then 1 else 0
  {
    match stage
    case Length =>
      if |rest| >= 4 {
        StageErrors(Stage.Checksum(FromBE32(rest[..4])), rest[4..], limit, position);
      }
    case Checksum(len) =>
      if |rest| >= 4 {
        StageErrors(Body(len, ReadChecksum(rest[..4])), rest[4..], limit, position);
      }
    case Body(len, checksum) =>
      if |rest| >= len {
        JudgeErrors(rest[..len], checksum, position);
      }
  }

  ghost predicate FailsForEntry(r: Recovery) { r.error.Some? ==> EntryError(r.error.value) }

  lemma NoEntryFails(rest: seq<byte>, limit: nat, position: nat)
    requires !ScanEntry(rest, limit, position).Found?
    ensures FailsForEntry(Recover(rest, limit, position))
  {
    StageErrors(Length, rest, limit, position);
  }

  /** The error is that of what follows the entry found. */
  lemma FoundFails(rest: seq<byte>, limit: nat, position: nat, e: Entry, n: nat)
    requires ScanEntry(rest, limit, position) == Found(e, n)
    ensures FailsForEntry(Recover(rest[n..], limit, position + n)) ==> FailsForEntry(Recover(rest, limit, position))
  {
    FoundStep(rest, limit, position, e, n);
  }

  lemma {:induction false} RecoverErrors(rest: seq<byte>, limit: nat, position: nat)
    ensures FailsForEntry(Recover(rest, limit, position))
    decreases |rest|
  {
    var scan := ScanEntry(rest, limit, position);
    if scan.Found? {
      FoundFails(rest, limit, position, scan.entry, scan.size);
      RecoverErrors(rest[scan.size..], limit, position + scan.size);
    } else {
      NoEntryFails(rest, limit, position);
    }
  }

  /** A replay of any file, in either mode: it is refused for its header, and then with
      nothing applied, exactly if the header is not there; otherwise it fails only for an
      entry, and only in strict mode. */
  lemma ReplayVerdict(file: seq<byte>, mode: ReplayMode)
    ensures !Accepted(file) ==> Verdict(file, mode) == Err(Refusal(file)) && Replayed(file) == []
    ensures Accepted(file) && mode.Lenient? ==> Verdict(file, mode).Ok?
    ensures Accepted(file) && Verdict(file, mode).Err? ==> EntryError(Verdict(file, mode).error)
  {
    HeaderVerdict(file);
    if Accepted(file) {
      RecoverErrors(file[8..], READ_LIMIT, 8);
    }
  }

  /** Opening a log to append to it: an empty file gets a header, an accepted one is left
      as it is, with the writer at its end, and any other is refused and left alone. */
  method OpenToAppend(file: LogFile, entrySizeLimit: nat) returns (r: Result<WalWriter>)
    modifies file
    ensures old(file.bytes) == [] ==>
              r.Ok? && fresh(r.value) && r.value.Valid() && r.value.contents == [0x54, 0x52, 0x44, 0x42, 1, 0, 0, 0]
    ensures Accepted(old(file.bytes)) ==>
              && r.Ok? && fresh(r.value) && r.value.Valid()
              && r.value.contents == old(file.bytes) && r.value.position == |old(file.bytes)|
    ensures old(file.bytes) != [] && !Accepted(old(file.bytes)) ==>
              r == Err(Refusal(old(file.bytes))) && file.bytes == old(file.bytes)
  {
    HeaderVerdict(file.bytes);
    r := LogWriter.Open(file, entrySizeLimit);
  }

  /** Opening a log to read it. */
  method OpenToRead(file: seq<byte>, entrySizeLimit: nat) returns (r: Result<R.WalReader>)
    ensures !Accepted(file) ==> r == Err(Refusal(file))
    ensures Accepted(file) ==> r.Ok? && fresh(r.value) && r.value.reader.rest == file[8..] && r.value.position == 8
  {
    HeaderVerdict(file);
    r := R.Open(file, entrySizeLimit);
  }

  // ---- What is written ----

  function Text4(s: seq<byte>): seq<byte>
    requires |s| < 0x1_0000_0000
  {
    Bytes4(|s|) + s
  }

  /** The payload of an entry whose lengths fit: a tag from 0 to 4, and its fields behind
      their lengths. */
  lemma EntryInBytes(e: Entry)
    requires |e.table| < 0x1_0000_0000
    requires e.Insert? || e.Update? || e.Delete? ==> |e.key| < 0x1_0000_0000
    requires e.Insert? || e.Update? ==> |e.value| < 0x1_0000_0000
    ensures Payload(e) ==
            match e
            case CreateTable(t) => [0] + Text4(t)
            case RemoveTable(t) => [1] + Text4(t)
            case Insert(t, key, value) => [2] + Text4(t) + (Text4(key) + Text4(value))
            case Update(t, key, value) => [3] + Text4(t) + (Text4(key) + Text4(value))
            case Delete(t, key) => [4] + Text4(t) + Text4(key)
  {
    FieldInBytes(e.table);
    if e.Insert? || e.Update? || e.Delete? {
      FieldInBytes(e.key);
    }
    if e.Insert? || e.Update? {
      FieldInBytes(e.value);
    }
  }

  lemma FieldInBytes(s: seq<byte>)
    requires |s| < 0x1_0000_0000
    ensures Field(s) == Text4(s)
  {
    assert |s| % 0x1_0000_0000 == |s|;
    BE32IsBytes4(|s|);
  }

  /** A stored checksum, the most significant byte first. */
  lemma ChecksumInBytes(c: bv32)
    ensures var s := ChecksumBytes(c);
            && s[0] == ((c >> 24) & 0xFF) as bv8 as int && s[1] == ((c >> 16) & 0xFF) as bv8 as int
            && s[2] == ((c >> 8) & 0xFF) as bv8 as int && s[3] == (c & 0xFF) as bv8 as int
  {
  }

  /** A log of one entry: the header, the length, the checksum and the payload. */
  lemma LogInBytes(e: Entry)
    requires Fits(e, U32_MAX)
    ensures LogBytes([e]) == [0x54, 0x52, 0x44, 0x42, 1, 0, 0, 0]
                             + (Bytes4(|Payload(e)|) + ChecksumBytes(Crc32(Payload(e))) + Payload(e))
  {
    BE32IsBytes4(|Payload(e)|);
    assert EntryFrames([e]) == [Frame(Payload(e))];
    assert Concat([Frame(Payload(e))]) == Frame(Payload(e)) + [];
  }

  /** The limit of a replay is 256 MiB, for each payload. */
  lemma ReplayLimit(e: Entry)
    requires Fits(e, U32_MAX)
    ensures Verdict(LogBytes([e]), Strict).Ok? <==> |Payload(e)| <= 268_435_456
  {
    WholeLogReplays([e]);
    assert AllFit([e], READ_LIMIT) <==> Fits([e][0], READ_LIMIT);
  }
}
