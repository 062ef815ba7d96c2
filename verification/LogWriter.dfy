/** The append-only writer of a log file (`engine/src/wal/writer.rs`). */
module LogWriter {
  import opened Bytes
  import opened Checksum
  import opened LogErrors
  import opened LogEntry
  import opened LogFormat

  /** What the file holds; a missing file is created empty. */
  class LogFile {
    var bytes: seq<byte>

    constructor (bytes: seq<byte>)
      ensures this.bytes == bytes
    {
      this.bytes := bytes;
    }
  }

  /** The entries of a batch that are written: those before the first too large. */
  function Accepted(entries: seq<Entry>, limit: nat): (es: seq<Entry>)
    ensures AllFit(es, limit) && AllFit(es, U32_MAX)
  {
    FirstUnfitIsFirst(entries, limit);
    entries[..FirstUnfit(entries, limit)]
  }

  /** What a batch adds to the log. */
  function BatchBytes(entries: seq<Entry>, limit: nat): seq<byte> {
    Concat(EntryFrames(Accepted(entries, limit)))
  }

  lemma HeaderStays(log: seq<byte>, more: seq<byte>)
    requires ValidateHeader(log).Ok?
    ensures ValidateHeader(log + more).Ok?
  {
  }

  class WalWriter {
    const file: LogFile
    const entrySizeLimit: nat
    /** Bytes accepted and not yet handed to the file. */
    var buffer: seq<byte>
    var position: nat
    /** The log as it will be once the buffer is flushed. */
    ghost var contents: seq<byte>

    ghost predicate Valid()
      reads this, file
    {
      contents == file.bytes + buffer && position == |contents| && ValidateHeader(contents).Ok?
    }

    constructor (file: LogFile, entrySizeLimit: nat, buffer: seq<byte>, position: nat)
      ensures this.file == file && this.entrySizeLimit == entrySizeLimit
      ensures this.buffer == buffer && this.position == position && contents == file.bytes + buffer
    {
      this.file, this.entrySizeLimit, this.buffer, this.position := file, entrySizeLimit, buffer, position;
      contents := file.bytes + buffer;
    }

    /** `write_all` on the buffered file: any part of the buffer may go to the file
        at once. */
    method WriteAll(bytes: seq<byte>)
      requires contents == file.bytes + buffer
      modifies `buffer, `contents, file
      ensures contents == file.bytes + buffer && contents == old(contents) + bytes
      ensures old(file.bytes) <= file.bytes
    {
      buffer, contents := buffer + bytes, contents + bytes;
      var n :| 0 <= n <= |buffer|;
      file.bytes, buffer := file.bytes + buffer[..n], buffer[n..];
    }

    method Flush()
      requires Valid()
      modifies `buffer, file
      ensures Valid() && buffer == [] && file.bytes == contents
      ensures old(file.bytes) <= file.bytes
    {
      file.bytes, buffer := file.bytes + buffer, [];
    }

    /** The length, checksum and payload of an entry. */
    method WriteFrame(payload: seq<byte>)
      requires Valid() && |payload| <= U32_MAX
      modifies `buffer, `position, `contents, file
      ensures Valid() && old(file.bytes) <= file.bytes
      ensures contents == old(contents) + Frame(payload)
    {
      var checksum := ComputeCrc32(payload);
      ghost var log := contents;
      WriteAll(BE32(|payload|));
      WriteAll(ChecksumBytes(checksum));
      WriteAll(payload);
      position := position + ENTRY_OVERHEAD + |payload|;
      ConcatAssociates(log, BE32(|payload|), ChecksumBytes(checksum));
      ConcatAssociates(log, BE32(|payload|) + ChecksumBytes(checksum), payload);
      HeaderStays(log, Frame(payload));
    }

    /** One entry of a batch. */
    method Append(e: Entry) returns (r: Result<()>)
      requires Valid()
      modifies `buffer, `position, `contents, file
      ensures Valid() && old(file.bytes) <= file.bytes
      ensures r == if Fits(e, entrySizeLimit) then Ok(()) else Err(InvalidPayload)
      ensures contents == if Fits(e, entrySizeLimit) then old(contents) + Frame(Payload(e)) else old(contents)
    {
      var payload := ToBytes(e);
      var len := |payload|;
      if len > entrySizeLimit {
        return Err(InvalidPayload);
      }
      if len > U32_MAX {
        return Err(InvalidPayload);
      }
      WriteFrame(payload);
      return Ok(());
    }

    /** Entry `i` of a batch whose accepted entries have these frames. */
    method AppendNth(entries: seq<Entry>, i: nat, ghost frames: seq<seq<byte>>) returns (r: Result<()>)
      requires Valid() && frames == EntryFrames(Accepted(entries, entrySizeLimit)) && i < |entries| && i <= |frames|
      modifies `buffer, `position, `contents, file
      ensures Valid() && old(file.bytes) <= file.bytes
      ensures r.Ok? ==> i < |frames| && contents == old(contents) + frames[i]
      ensures r.Err? ==> r == Err(InvalidPayload) && i == |frames| < |entries| && contents == old(contents)
    {
      NextFrame(entries, entrySizeLimit, i);
      r := Append(entries[i]);
    }

    /** `append_batch`: a rejected entry ends the batch; what was accepted before it
        stays, unflushed. */
    method AppendBatch(entries: seq<Entry>) returns (r: Result<()>)
      requires Valid()
      modifies `buffer, `position, `contents, file
      ensures Valid() && old(file.bytes) <= file.bytes
      ensures contents == old(contents) + BatchBytes(entries, entrySizeLimit)
      ensures r == if |Accepted(entries, entrySizeLimit)| == |entries| then Ok(()) else Err(InvalidPayload)
      ensures r.Ok? ==> file.bytes == contents
    {
      ghost var frames := EntryFrames(Accepted(entries, entrySizeLimit));
      ghost var log := contents;
      for i := 0 to |entries|
        invariant Valid() && old(file.bytes) <= file.bytes
        invariant i <= |frames| && contents == log + Concat(frames[..i])
      {
        r := AppendNth(entries, i, frames);
        if r.Err? {
          assert frames[..i] == frames;
          return;
        }
        LogOneMore(log, frames, i);
      }
      Flush();
      assert frames[..|entries|] == frames;
      return Ok(());
    }
  }

  /** Entry `i` is accepted exactly when it fits. */
  lemma NextFrame(entries: seq<Entry>, limit: nat, i: nat)
    requires i < |entries| && i <= FirstUnfit(entries, limit)
    ensures var frames := EntryFrames(Accepted(entries, limit));
            if Fits(entries[i], limit) then i < |frames| && frames[i] == Frame(Payload(entries[i])) else i == |frames|
  {
    NextAccepted(entries, limit, i);
    if Fits(entries[i], limit) {
      FrameAt(Accepted(entries, limit), i);
    }
  }

  lemma NextAccepted(entries: seq<Entry>, limit: nat, i: nat)
    requires i < |entries| && i <= FirstUnfit(entries, limit)
    ensures |Accepted(entries, limit)| == FirstUnfit(entries, limit)
    ensures if Fits(entries[i], limit) then i < FirstUnfit(entries, limit) && Accepted(entries, limit)[i] == entries[i]
            else i == FirstUnfit(entries, limit)
  {
    FirstUnfitIsFirst(entries, limit);
    if i < FirstUnfit(entries, limit) {
      assert Fits(entries[..FirstUnfit(entries, limit)][i], limit);
    }
  }

  lemma FrameAt(es: seq<Entry>, i: nat)
    requires AllFit(es, U32_MAX) && i < |es|
    ensures EntryFrames(es)[i] == Frame(Payload(es[i]))
  {
  }

  lemma LogOneMore(log: seq<byte>, parts: seq<seq<byte>>, i: nat)
    requires i < |parts|
    ensures log + Concat(parts[..i + 1]) == log + Concat(parts[..i]) + parts[i]
  {
    ConcatOneMore(parts, i);
  }

  /** `open`: an empty log gets a header, any other must have a valid one. What
      follows the header is not looked at. */
  method Open(file: LogFile, entrySizeLimit: nat) returns (r: Result<WalWriter>)
    modifies file
    ensures old(file.bytes) == [] || ValidateHeader(old(file.bytes)).Ok? ==>
              && r.Ok? && fresh(r.value) && r.value.Valid()
              && r.value.file == file && r.value.entrySizeLimit == entrySizeLimit
              && r.value.contents == (if old(file.bytes) == [] then HEADER else old(file.bytes))
    ensures old(file.bytes) != [] && ValidateHeader(old(file.bytes)).Err? ==>
              r == Err(ValidateHeader(old(file.bytes)).error) && file.bytes == old(file.bytes)
  {
    if file.bytes == [] {
      var w := new WalWriter(file, entrySizeLimit, [], HEADER_SIZE);
      w.WriteAll(MAGIC);
      w.WriteAll([VERSION, 0, 0, 0]);
      assert w.contents == HEADER;
      return Ok(w);
    }
    var valid := ValidateHeader(file.bytes);
    if valid.Err? {
      return Err(valid.error);
    }
    var w := new WalWriter(file, entrySizeLimit, [], |file.bytes|);
    assert w.contents == file.bytes;
    return Ok(w);
  }
}
