/** Appending to a log that was reopened after a crash. `WalWriter::open` looks at the
    header only (`engine/src/wal/writer.rs`): when that is safe, and what makes it so. */
module LogReopen {
  import opened Bytes
  import opened Checksum
  import opened LogErrors
  import opened LogEntry
  import opened LogFormat
  import opened LogReplay
  import opened LogRecovery

  // ---- What was read is what was written ----

  /** A payload that passed its checks, with the four bytes of its checksum. */
  lemma JudgedIsFrame(payload: seq<byte>, stored: seq<byte>, position: nat)
    requires |stored| == 4 && |payload| <= U32_MAX && Judge(payload, ReadChecksum(stored), position).Found?
    ensures var Found(e, size) := Judge(payload, ReadChecksum(stored), position);
            && size == ENTRY_OVERHEAD + |payload| && Payload(e) == payload
            && Frame(payload) == BE32(|payload|) + stored + payload
  {
    ParsedIsPrinted(payload);
    ReadChecksumRoundTrip(stored);
  }

  /** An entry is found only by judging the bytes behind its length and checksum. */
  lemma FoundIsJudged(rest: seq<byte>, limit: nat, position: nat) returns (stored: seq<byte>, payload: seq<byte>)
    requires ScanEntry(rest, limit, position).Found?
    ensures |stored| == 4 && |payload| <= limit && |payload| <= U32_MAX
    ensures ScanEntry(rest, limit, position) == Judge(payload, ReadChecksum(stored), position)
    ensures BE32(|payload|) + stored + payload <= rest
  {
    var len := FromBE32(rest[..4]);
    stored := rest[4..][..4];
    assert ScanEntry(rest, limit, position) == ScanFrom(Stage.Checksum(len), rest[4..], limit, position)
        == ScanFrom(Body(len, ReadChecksum(stored)), rest[4..][4..], limit, position);
    payload := rest[4..][4..][..len];
    FromBE32RoundTrip(rest[..4]);
    ThreeParts(rest, len);
  }

  lemma ThreeParts(s: seq<byte>, len: nat)
    requires 8 + len <= |s|
    ensures s[..4] + s[4..][..4] + s[4..][4..][..len] <= s
  {
    assert s[..8 + len] == s[..4] + s[4..][..4] + s[4..][4..][..len];
  }

  /** An entry that is found stands there as its frame. */
  lemma FoundIsFrame(rest: seq<byte>, limit: nat, position: nat)
    requires ScanEntry(rest, limit, position).Found?
    ensures var Found(e, size) := ScanEntry(rest, limit, position);
            Fits(e, limit) && size == |Frame(Payload(e))| && rest[..size] == Frame(Payload(e))
  {
    var stored, payload := FoundIsJudged(rest, limit, position);
    JudgedIsFrame(payload, stored, position);
  }

  /** The bytes of whole entries. */
  function Stored(es: seq<Entry>): seq<byte>
    requires AllFit(es, U32_MAX)
  {
    Concat(EntryFrames(es))
  }

  lemma StoredCons(e: Entry, es: seq<Entry>)
    requires Fits(e, U32_MAX) && AllFit(es, U32_MAX)
    ensures AllFit([e] + es, U32_MAX) && Stored([e] + es) == Frame(Payload(e)) + Stored(es)
  {
    FramesCons(e, es);
    ConcatCons(Frame(Payload(e)), EntryFrames(es));
  }

  lemma FramesCons(e: Entry, es: seq<Entry>)
    requires Fits(e, U32_MAX) && AllFit(es, U32_MAX)
    ensures AllFit([e] + es, U32_MAX) && EntryFrames([e] + es) == [Frame(Payload(e))] + EntryFrames(es)
  {
  }

  lemma ConcatCons(part: seq<byte>, parts: seq<seq<byte>>)
    ensures Concat([part] + parts) == part + Concat(parts)
  {
    assert ([part] + parts)[1..] == parts;
  }

  lemma StoredAppend(es: seq<Entry>, fs: seq<Entry>)
    requires AllFit(es, U32_MAX) && AllFit(fs, U32_MAX)
    ensures AllFit(es + fs, U32_MAX) && Stored(es + fs) == Stored(es) + Stored(fs)
  {
    FramesAppend(es, fs);
    ConcatAppend(EntryFrames(es), EntryFrames(fs));
  }

  /** The entries of `r` stand at the beginning of these bytes, up to the place it
      reports, and nothing is wrong exactly if they are all there is. */
  ghost predicate Covers(r: Recovery, rest: seq<byte>, limit: nat, position: nat) {
    && AllFit(r.entries, limit) && AllFit(r.entries, U32_MAX)
    && Stored(r.entries) <= rest && r.end == position + |Stored(r.entries)|
    && (r.error.None? <==> Stored(r.entries) == rest)
  }

  lemma CoversNext(e: Entry, r: Recovery, rest: seq<byte>, limit: nat, position: nat, n: nat)
    requires Fits(e, limit) && n <= |rest| && rest[..n] == Frame(Payload(e))
    requires Covers(r, rest[n..], limit, position + n)
    ensures Covers(Prepend(e, r), rest, limit, position)
  {
    StoredCons(e, r.entries);
    FitCons(e, r.entries, limit);
    FrontAndBack(rest[..n], rest[n..], Stored(r.entries), rest);
  }

  lemma FitCons(e: Entry, es: seq<Entry>, limit: nat)
    requires Fits(e, limit) && AllFit(es, limit)
    ensures AllFit([e] + es, limit)
  {
  }

  lemma FrontAndBack(a: seq<byte>, b: seq<byte>, c: seq<byte>, all: seq<byte>)
    requires all == a + b && c <= b
    ensures a + c <= all && (a + c == all <==> c == b)
  {
    assert all[|a|..] == b && (a + c)[|a|..] == c;
  }

  lemma CoversNone(r: Recovery, rest: seq<byte>, limit: nat, position: nat)
    requires r.entries == [] && r.end == position && (r.error.None? <==> rest == [])
    ensures Covers(r, rest, limit, position)
  {
    assert Stored([]) == [];
  }

  /** One entry was found, and `later` is what follows it. */
  lemma FoundCovers(rest: seq<byte>, limit: nat, position: nat, e: Entry, n: nat, later: Recovery)
    requires ScanEntry(rest, limit, position) == Found(e, n) && later == Recover(rest[n..], limit, position + n)
    requires Covers(later, rest[n..], limit, position + n)
    ensures Covers(Recover(rest, limit, position), rest, limit, position)
  {
    FoundIsFrame(rest, limit, position);
    CoversNext(e, later, rest, limit, position, n);
    FoundStep(rest, limit, position, e, n);
  }

  lemma FoundStep(rest: seq<byte>, limit: nat, position: nat, e: Entry, n: nat)
    requires ScanEntry(rest, limit, position) == Found(e, n)
    ensures Recover(rest, limit, position) == Prepend(e, Recover(rest[n..], limit, position + n))
  {
  }

  lemma NothingFound(rest: seq<byte>, limit: nat, position: nat)
    requires Recover(rest, limit, position).entries == []
    ensures Covers(Recover(rest, limit, position), rest, limit, position)
  {
    CoversNone(Recover(rest, limit, position), rest, limit, position);
  }

  /** If what follows the first entry found is covered, everything is. */
  lemma FirstCovers(rest: seq<byte>, limit: nat, position: nat) returns (left: seq<byte>, next: nat)
    requires Recover(rest, limit, position).entries != []
    ensures |left| < |rest|
    ensures Covers(Recover(left, limit, next), left, limit, next)
            ==> Covers(Recover(rest, limit, position), rest, limit, position)
  {
    var scan := ScanEntry(rest, limit, position);
    left, next := rest[scan.size..], position + scan.size;
    var later := Recover(left, limit, next);
    if Covers(later, left, limit, next) {
      FoundCovers(rest, limit, position, scan.entry, scan.size, later);
    }
  }

  lemma {:induction false} RecoveredIsPrefix(rest: seq<byte>, limit: nat, position: nat)
    ensures Covers(Recover(rest, limit, position), rest, limit, position)
    decreases |rest|
  {
    if Recover(rest, limit, position).entries == [] {
      NothingFound(rest, limit, position);
    } else {
      var left, next := FirstCovers(rest, limit, position);
      RecoveredIsPrefix(left, limit, next);
    }
  }

  /** A strict replay accepts a file exactly if it is a header and whole entries
      within the reader's limit, byte for byte. */
  lemma StrictAcceptsExactlyLogs(file: seq<byte>)
    ensures AllFit(Replayed(file), READ_LIMIT) && AllFit(Replayed(file), U32_MAX)
    ensures Verdict(file, Strict).Ok? <==> ValidateHeader(file).Ok? && file[HEADER_SIZE..] == Stored(Replayed(file))
  {
    if ValidateHeader(file).Ok? {
      RecoveredIsPrefix(file[HEADER_SIZE..], READ_LIMIT, HEADER_SIZE);
    }
  }

  // ---- Appending ----

  /** The file after entries `fs` were appended to it. */
  function Appended(file: seq<byte>, fs: seq<Entry>): seq<byte>
    requires AllFit(fs, U32_MAX)
  {
    file + Stored(fs)
  }

  /** A strict replay gives back what was replayed before, and then `fs`. */
  predicate Survives(file: seq<byte>, before: seq<Entry>, fs: seq<Entry>)
    requires AllFit(fs, U32_MAX)
  {
    Verdict(Appended(file, fs), Strict).Ok? && Replayed(Appended(file, fs)) == before + fs
  }

  /** Where recovery says the log ends. */
  function RecoveredEnd(file: seq<byte>): nat
    requires ValidateHeader(file).Ok?
  {
    Verdict(file, Lenient).value.finalPosition
  }

  lemma EndIs(file: seq<byte>)
    requires ValidateHeader(file).Ok?
    ensures AllFit(Replayed(file), READ_LIMIT) && AllFit(Replayed(file), U32_MAX)
    ensures HEADER_SIZE <= RecoveredEnd(file) <= |file|
    ensures file[HEADER_SIZE..RecoveredEnd(file)] == Stored(Replayed(file))
  {
    var r := Recover(file[HEADER_SIZE..], READ_LIMIT, HEADER_SIZE);
    RecoveredIsPrefix(file[HEADER_SIZE..], READ_LIMIT, HEADER_SIZE);
    CoveredFile(file, r);
  }

  lemma CoveredFile(file: seq<byte>, r: Recovery)
    requires HEADER_SIZE <= |file| && Covers(r, file[HEADER_SIZE..], READ_LIMIT, HEADER_SIZE)
    ensures HEADER_SIZE <= r.end <= |file| && file[HEADER_SIZE..r.end] == Stored(r.entries)
  {
    assert file[HEADER_SIZE..r.end] == file[HEADER_SIZE..][..|Stored(r.entries)|];
  }

  /** A header and whole entries are replayed entirely. */
  lemma WholeFileReplays(file: seq<byte>, es: seq<Entry>)
    requires ValidateHeader(file).Ok? && AllFit(es, READ_LIMIT) && AllFit(es, U32_MAX)
    requires file[HEADER_SIZE..] == Stored(es)
    ensures Verdict(file, Strict) == Ok(Summary(|es|, |file|, None, None)) && Replayed(file) == es
  {
    FramesAreRead(es, READ_LIMIT);
    WholePartsReplay(file, EntryFrames(es), es);
  }

  lemma WholePartsReplay(file: seq<byte>, parts: seq<seq<byte>>, es: seq<Entry>)
    requires ValidateHeader(file).Ok? && AllRead(parts, es, READ_LIMIT) && file[HEADER_SIZE..] == Concat(parts)
    ensures Verdict(file, Strict) == Ok(Summary(|es|, |file|, None, None)) && Replayed(file) == es
  {
    RecoverThenStop(parts, es, [], READ_LIMIT, HEADER_SIZE, None);
    assert Concat(parts) + [] == file[HEADER_SIZE..];
    FileIs(file, Recovery(es, |file|, None), Strict);
  }

  /** Truncating any file with a valid header to the reported end repairs it: it is
      then replayed strictly, with the entries recovered before, and so is whatever
      is appended to it. */
  lemma TruncationRepairs(file: seq<byte>, fs: seq<Entry>)
    requires ValidateHeader(file).Ok? && AllFit(fs, READ_LIMIT) && AllFit(fs, U32_MAX)
    ensures HEADER_SIZE <= RecoveredEnd(file) <= |file|
    ensures var log := Appended(file[..RecoveredEnd(file)], fs);
            var es := Replayed(file) + fs;
            Verdict(log, Strict) == Ok(Summary(|es|, |log|, None, None)) && Replayed(log) == es
  {
    EndIs(file);
    AppendedReplays(file[..RecoveredEnd(file)], Replayed(file), fs);
  }

  lemma AppendedReplays(file: seq<byte>, es: seq<Entry>, fs: seq<Entry>)
    requires AllFit(es, READ_LIMIT) && AllFit(es, U32_MAX) && AllFit(fs, READ_LIMIT) && AllFit(fs, U32_MAX)
    requires ValidateHeader(file).Ok? && file[HEADER_SIZE..] == Stored(es)
    ensures var log := Appended(file, fs);
            Verdict(log, Strict) == Ok(Summary(|es + fs|, |log|, None, None)) && Replayed(log) == es + fs
  {
    var log := Appended(file, fs);
    StoredAppend(es, fs);
    StillValid(file, Stored(fs));
    WholeFileReplays(log, es + fs);
  }

  lemma StillValid(file: seq<byte>, more: seq<byte>)
    requires ValidateHeader(file).Ok?
    ensures ValidateHeader(file + more).Ok? && (file + more)[HEADER_SIZE..] == file[HEADER_SIZE..] + more
  {
  }

  /** A file may be appended to exactly if it ends where recovery says. */
  lemma ReopenIsSafeExactly(file: seq<byte>, fs: seq<Entry>)
    requires ValidateHeader(file).Ok? && AllFit(fs, READ_LIMIT) && AllFit(fs, U32_MAX)
    ensures Survives(file, Replayed(file), fs) <==> RecoveredEnd(file) == |file|
  {
    var es := Replayed(file);
    EndIs(file);
    if RecoveredEnd(file) == |file| {
      assert file[..|file|] == file;
      TruncationRepairs(file, fs);
    }
    if Survives(file, es, fs) {
      SurvivingFile(file, es, fs);
    }
  }

  lemma SurvivingFile(file: seq<byte>, es: seq<Entry>, fs: seq<Entry>)
    requires AllFit(es, U32_MAX) && AllFit(fs, U32_MAX) && Survives(file, es, fs) && HEADER_SIZE <= |file|
    ensures |file| == HEADER_SIZE + |Stored(es)|
  {
    var log := Appended(file, fs);
    StrictAcceptsExactlyLogs(log);
    StoredAppend(es, fs);
    assert |log[HEADER_SIZE..]| == |file| - HEADER_SIZE + |Stored(fs)|;
  }

  /** In particular a log that was written whole, with anything behind it, may be
      appended to exactly if there is nothing behind it. */
  lemma TailIsFatal(es: seq<Entry>, tail: seq<byte>, fs: seq<Entry>)
    requires AllFit(es, READ_LIMIT) && AllFit(es, U32_MAX) && AllFit(fs, READ_LIMIT) && AllFit(fs, U32_MAX)
    ensures Survives(LogBytes(es) + tail, es, fs) <==> tail == []
  {
    var file := LogBytes(es) + tail;
    HeaderIsValid(Stored(es) + tail);
    ConcatAssociates(HEADER, Stored(es), tail);
    if tail == [] {
      assert file == LogBytes(es) && file[HEADER_SIZE..] == Stored(es);
      WholeFileReplays(file, es);
      ReopenIsSafeExactly(file, fs);
    }
    if Survives(file, es, fs) {
      SurvivingFile(file, es, fs);
    }
  }

  /** A reopened log is appended to without looking at its end. Entries written
      behind a torn one whose length field survived are swallowed by it until they
      fill the length it declares: replay still stops where the torn entry began. */
  lemma TornTailSwallows(es: seq<Entry>, e: Entry, kept: nat, appended: seq<byte>)
    requires AllFit(es, READ_LIMIT) && AllFit(es, U32_MAX) && Fits(e, READ_LIMIT)
    requires 4 <= kept && kept + |appended| < |Frame(Payload(e))|
    ensures var file := LogBytes(es) + (Frame(Payload(e))[..kept] + appended);
            var place := |LogBytes(es)|;
            && Replayed(file) == es && Verdict(file, Strict) == Err(UnexpectedEof)
            && Verdict(file, Lenient) == Ok(Summary(|es|, place, Some(place), None))
  {
    var tail := Frame(Payload(e))[..kept] + appended;
    assert Frame(Payload(e))[..4] == BE32(|Payload(e)|);
    assert tail[..4] == Frame(Payload(e))[..4];
    ScanShort(|Payload(e)|, tail, READ_LIMIT, |LogBytes(es)|);
    StoppedAt(es, tail, UnexpectedEof);
  }
}
