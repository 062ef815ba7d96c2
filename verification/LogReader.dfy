/** The streaming reader of a log file (`engine/src/wal/reader.rs`). */
module LogReader {
  import opened Bytes
  import opened Checksum
  import opened LogErrors
  import opened LogEntry
  import opened LogFormat

  /** An open file: its unread bytes. A read fills an arbitrary non-empty part of
      the space it is given, and nothing only at the end of the file. */
  class Source {
    var rest: seq<byte>

    constructor (bytes: seq<byte>)
      ensures rest == bytes
    {
      rest := bytes;
    }

    method Read(buf: array<byte>, from: nat) returns (n: nat)
      requires from < buf.Length
      modifies this, buf
      ensures n <= buf.Length - from && n <= |old(rest)| && (n == 0 <==> old(rest) == [])
      ensures rest == old(rest)[n..]
      ensures buf[..from + n] == old(buf[..from]) + old(rest)[..n]
    {
      if rest == [] {
        return 0;
      }
      n :| 1 <= n <= |rest| && n <= buf.Length - from;
      forall k | 0 <= k < n {
        buf[from + k] := rest[k];
      }
      rest := rest[n..];
    }
  }

  datatype ReadStatus = Eof | Partial | Complete

  /** `read_all`: fills `buf` across any number of short reads. */
  method ReadAll(source: Source, buf: array<byte>) returns (status: ReadStatus)
    modifies source, buf
    ensures status == if |old(source.rest)| >= buf.Length then Complete
                      else if old(source.rest) == [] then Eof else Partial
    ensures status.Complete? ==>
              buf[..] == old(source.rest)[..buf.Length] && source.rest == old(source.rest)[buf.Length..]
    ensures !status.Complete? ==> source.rest == []
  {
    ghost var all := source.rest;
    var read := 0;
    while read < buf.Length
      invariant read <= buf.Length && read <= |all|
      invariant buf[..read] == all[..read] && source.rest == all[read..]
    {
      var n := source.Read(buf, read);
      if n == 0 {
        return if read == 0 then Eof else Partial;
      }
      read := read + n;
    }
    assert buf[..buf.Length] == buf[..];
    return Complete;
  }

  /** A zeroed buffer of `n` bytes, filled by `read_all`. */
  method ReadBytes(source: Source, n: nat) returns (status: ReadStatus, bytes: seq<byte>)
    modifies source
    ensures status == if |old(source.rest)| >= n then Complete else if old(source.rest) == [] then Eof else Partial
    ensures status.Complete? ==> bytes == old(source.rest)[..n] && source.rest == old(source.rest)[n..]
    ensures !status.Complete? ==> source.rest == []
  {
    var buf := new byte[n](_ => 0);
    status := ReadAll(source, buf);
    bytes := buf[..];
  }

  class WalReader {
    const reader: Source
    const entrySizeLimit: nat
    var position: nat
    var eof: bool

    constructor (reader: Source, entrySizeLimit: nat)
      ensures this.reader == reader && this.entrySizeLimit == entrySizeLimit
      ensures position == HEADER_SIZE && !eof
    {
      this.reader, this.entrySizeLimit := reader, entrySizeLimit;
      position, eof := HEADER_SIZE, false;
    }

    /** The next entry, or `None` at a clean end. The position moves only past an
        entry that was returned. A torn entry consumes the rest of the file, so a
        caller that asks again is told that the file ended cleanly. */
    method NextEntry() returns (r: Result<Option<Entry>>)
      modifies this, reader
      ensures old(eof) ==> r == Ok(None) && eof && position == old(position) && reader.rest == old(reader.rest)
      ensures !old(eof) ==>
        match ScanEntry(old(reader.rest), entrySizeLimit, old(position))
        case AtEnd => r == Ok(None) && eof && position == old(position) && reader.rest == []
        case Failed(e) => r == Err(e) && !eof && position == old(position) && (e.UnexpectedEof? ==> reader.rest == [])
        case Found(entry, size) =>
          r == Ok(Some(entry)) && !eof && position == old(position) + size && reader.rest == old(reader.rest)[size..]
    {
      if eof {
        return Ok(None);
      }
      var entryStart := position;
      ghost var all := reader.rest;

      var status, lenBytes := ReadBytes(reader, 4);
      if status.Eof? {
        eof := true;
        return Ok(None);
      }
      if status.Partial? {
        return Err(UnexpectedEof);
      }
      var payloadLen := FromBE32(lenBytes);
      if payloadLen > entrySizeLimit {
        return Err(CorruptEntry(entryStart));
      }
      assert ScanEntry(all, entrySizeLimit, entryStart)
          == ScanFrom(Stage.Checksum(payloadLen), all[4..], entrySizeLimit, entryStart);

      var cksumBytes;
      status, cksumBytes := ReadBytes(reader, 4);
      if !status.Complete? {
        return Err(UnexpectedEof);
      }
      var storedChecksum := ReadChecksum(cksumBytes);
      assert ScanFrom(Stage.Checksum(payloadLen), all[4..], entrySizeLimit, entryStart)
          == ScanFrom(Body(payloadLen, storedChecksum), all[4..][4..], entrySizeLimit, entryStart);

      var payload;
      status, payload := ReadBytes(reader, payloadLen);
      if !status.Complete? {
        return Err(UnexpectedEof);
      }
      var computedChecksum := ComputeCrc32(payload);
      if computedChecksum != storedChecksum {
        return Err(CorruptEntry(entryStart));
      }
      var entry := LogEntry.FromBytes(payload);
      if entry.Err? {
        ParseFailsOnlyOnPayload(payload);
        return Err(entry.error);
      }
      position := position + ENTRY_OVERHEAD + payloadLen;
      return Ok(Some(entry.value));
    }
  }

  /** `open_with_options`: reads and validates the header. */
  method Open(file: seq<byte>, entrySizeLimit: nat) returns (r: Result<WalReader>)
    ensures ValidateHeader(file).Err? ==> r == Err(ValidateHeader(file).error)
    ensures ValidateHeader(file).Ok? ==>
              && r.Ok? && fresh(r.value) && fresh(r.value.reader) && r.value.reader.rest == file[HEADER_SIZE..]
              && r.value.position == HEADER_SIZE && !r.value.eof && r.value.entrySizeLimit == entrySizeLimit
  {
    var source := new Source(file);
    var status, header := ReadBytes(source, HEADER_SIZE);
    if !status.Complete? || header[..4] != MAGIC {
      return Err(InvalidHeader);
    }
    if header[4] != VERSION {
      return Err(UnsupportedVersion(header[4]));
    }
    var reader := new WalReader(source, entrySizeLimit);
    return Ok(reader);
  }
}
