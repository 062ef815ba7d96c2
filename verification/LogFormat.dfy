/** The layout of a log file, and what reading it entry by entry must find
    (`engine/src/wal/format.rs`, `engine/src/wal/reader.rs`). */
module LogFormat {
  import opened Bytes
  import opened Checksum
  import opened LogErrors
  import opened LogEntry

  /** "TRDB", version 1, and three reserved bytes. */
  const MAGIC: seq<byte> := [0x54, 0x52, 0x44, 0x42]
  const VERSION: byte := 1
  const HEADER: seq<byte> := MAGIC + [VERSION, 0, 0, 0]
  const HEADER_SIZE: nat := 8
  const ENTRY_OVERHEAD: nat := 8

  /** `validate_header` on the start of a file. The reserved bytes are not checked. */
  function ValidateHeader(file: seq<byte>): Result<()> {
    if |file| < HEADER_SIZE || file[..4] != MAGIC then Err(InvalidHeader)
    else if file[4] != VERSION then Err(UnsupportedVersion(file[4]))
    else Ok(())
  }

  /** A payload with its length and checksum; the writer has checked the length. */
  function Frame(payload: seq<byte>): (s: seq<byte>)
    requires |payload| <= U32_MAX
    ensures |s| == ENTRY_OVERHEAD + |payload|
  {
    BE32(|payload|) + ChecksumBytes(Crc32(payload)) + payload
  }

  /** An entry small enough for the writer and for a reader with this limit. */
  predicate Fits(e: Entry, limit: nat) {
    |Payload(e)| <= limit && |Payload(e)| <= U32_MAX
  }

  predicate AllFit(es: seq<Entry>, limit: nat) { forall i :: 0 <= i < |es| ==> Fits(es[i], limit) }

  /** The first entry too large for the limit, or the number of entries. */
  function FirstUnfit(es: seq<Entry>, limit: nat): (j: nat)
    ensures j <= |es|
  {
    if es == [] || !Fits(es[0], limit) then 0 else 1 + FirstUnfit(es[1..], limit)
  }

  lemma {:induction false} FirstUnfitIsFirst(es: seq<Entry>, limit: nat)
    ensures var j := FirstUnfit(es, limit);
            AllFit(es[..j], limit) && (j < |es| ==> !Fits(es[j], limit)) && (j == |es| <==> AllFit(es, limit))
    decreases |es|
  {
    if es != [] && Fits(es[0], limit) {
      var j := FirstUnfit(es[1..], limit);
      FirstUnfitIsFirst(es[1..], limit);
      assert es[..j + 1] == [es[0]] + es[1..][..j];
    }
  }

  function Concat(parts: seq<seq<byte>>): seq<byte> {
    if parts == [] then [] else parts[0] + Concat(parts[1..])
  }

  /** The frame of each entry. */
  function EntryFrames(es: seq<Entry>): (frames: seq<seq<byte>>)
    requires AllFit(es, U32_MAX)
    ensures |frames| == |es|
  {
    seq(|es|, i requires 0 <= i < |es| => Frame(Payload(es[i])))
  }

  /** A log holding exactly these entries. */
  function LogBytes(es: seq<Entry>): seq<byte>
    requires AllFit(es, U32_MAX)
  {
    HEADER + Concat(EntryFrames(es))
  }

  /** Where entry `k` starts, and where the log ends if `k` is past the last. */
  function Boundary(es: seq<Entry>, k: nat): nat
    requires AllFit(es, U32_MAX) && k <= |es|
  {
    HEADER_SIZE + |Concat(EntryFrames(es)[..k])|
  }

  // ---- Reading ----

  datatype Scan = Found(entry: Entry, size: nat) | AtEnd | Failed(error: WalError)

  /** How far into an entry the reader is. */
  datatype Stage = Length | Checksum(len: u32) | Body(len: u32, checksum: bv32)

  function Consumed(stage: Stage): nat { if stage.Length? then 0 else if stage.Checksum? then 4 else 8 }

  /** What the reader must make of the unread bytes, in the order of its checks. */
  function ScanFrom(stage: Stage, rest: seq<byte>, limit: nat, position: nat): (r: Scan)
    ensures r.Found? ==> ENTRY_OVERHEAD <= r.size <= Consumed(stage) + |rest|
    ensures r.AtEnd? <==> stage.Length? && rest == []
    decreases if stage.Length? then 2 else if stage.Checksum? then 1 else 0
  {
    match stage
    case Length =>
      if rest == [] then AtEnd
      else if |rest| < 4 then Failed(UnexpectedEof)
      else
        var len := FromBE32(rest[..4]);
        if len > limit then Failed(CorruptEntry(position))
        else ScanFrom(Stage.Checksum(len), rest[4..], limit, position)
    case Checksum(len) =>
      if |rest| < 4 then Failed(UnexpectedEof)
      else ScanFrom(Body(len, ReadChecksum(rest[..4])), rest[4..], limit, position)
    case Body(len, checksum) =>
      if |rest| < len then Failed(UnexpectedEof) else Judge(rest[..len], checksum, position)
  }

  /** A payload that was read whole. */
  function Judge(payload: seq<byte>, checksum: bv32, position: nat): Scan {
    if checksum != Crc32(payload) then Failed(CorruptEntry(position))
    else
      match Parse(payload)
      case Ok(entry) => Found(entry, ENTRY_OVERHEAD + |payload|)
      case Err(e) => Failed(e)
  }

  /** What `next_entry` must return. */
  function ScanEntry(rest: seq<byte>, limit: nat, position: nat): (r: Scan)
    ensures r.Found? ==> ENTRY_OVERHEAD <= r.size <= |rest|
    ensures r.AtEnd? <==> rest == []
  {
    ScanFrom(Length, rest, limit, position)
  }

  /** The reader's three reads of a frame, whatever follows it. */
  lemma FrameParts(len: u32, checksum: seq<byte>, payload: seq<byte>, after: seq<byte>)
    requires |checksum| == 4 && |payload| == len
    ensures var s := BE32(len) + checksum + payload + after;
            && FromBE32(s[..4]) == len && s[4..] == checksum + payload + after
            && s[4..][..4] == checksum && s[4..][4..] == payload + after && s[4..][4..][..len] == payload
  {
    var s := BE32(len) + checksum + payload + after;
    assert s[..4] == BE32(len);
    BE32RoundTrip(len);
    assert s[4..] == checksum + payload + after;
    assert s[4..][4..] == payload + after;
  }

  /** A stored frame whose payload was replaced by `payload` of the same length:
      the checksum decides, unless the length is over the limit. */
  lemma ScanAltered(original: seq<byte>, payload: seq<byte>, after: seq<byte>, limit: nat, position: nat)
    requires |original| == |payload| <= U32_MAX
    ensures ScanEntry(BE32(|original|) + ChecksumBytes(Crc32(original)) + payload + after, limit, position) ==
            if |original| > limit then Failed(CorruptEntry(position)) else Judge(payload, Crc32(original), position)
  {
    var stored := ChecksumBytes(Crc32(original));
    var s := BE32(|original|) + stored + payload + after;
    FrameParts(|original|, stored, payload, after);
    ChecksumRoundTrip(Crc32(original));
    if |original| <= limit {
      assert ScanEntry(s, limit, position) == ScanFrom(Stage.Checksum(|original|), s[4..], limit, position);
      assert ScanFrom(Stage.Checksum(|original|), s[4..], limit, position)
          == ScanFrom(Body(|original|, Crc32(original)), s[4..][4..], limit, position);
    }
  }

  /** A whole frame is found if it is within the limit and reported corrupt if not. */
  lemma ScanFrame(e: Entry, after: seq<byte>, limit: nat, position: nat)
    requires Fits(e, U32_MAX)
    ensures ScanEntry(Frame(Payload(e)) + after, limit, position) ==
            if Fits(e, limit) then Found(e, |Frame(Payload(e))|) else Failed(CorruptEntry(position))
  {
    ScanAltered(Payload(e), Payload(e), after, limit, position);
    SizeCheckSuffices(e);
  }

  /** A frame that was cut short, at any byte. */
  lemma ScanShort(len: u32, rest: seq<byte>, limit: nat, position: nat)
    requires 0 < |rest| < ENTRY_OVERHEAD + len && len <= limit
    requires |rest| >= 4 ==> rest[..4] == BE32(len)
    ensures ScanEntry(rest, limit, position) == Failed(UnexpectedEof)
  {
    if |rest| >= 4 {
      BE32RoundTrip(len);
      assert ScanEntry(rest, limit, position) == ScanFrom(Stage.Checksum(len), rest[4..], limit, position);
      if |rest| >= 8 {
        assert ScanFrom(Stage.Checksum(len), rest[4..], limit, position)
            == ScanFrom(Body(len, ReadChecksum(rest[4..][..4])), rest[4..][4..], limit, position);
      }
    }
  }

  // ---- Frames, as far as reading is concerned ----

  /** Wherever `b` stands, reading it gives `e`; */
  ghost predicate Reads(b: seq<byte>, e: Entry, limit: nat) {
    forall after, position :: ScanEntry(b + after, limit, position) == Found(e, |b|)
  }

  /** and a part of it that is not all of it is seen to be torn. */
  ghost predicate Tears(b: seq<byte>, limit: nat) {
    forall n, position | 0 < n < |b| :: ScanEntry(b[..n], limit, position) == Failed(UnexpectedEof)
  }

  lemma FrameReads(e: Entry, limit: nat)
    requires Fits(e, limit)
    ensures Reads(Frame(Payload(e)), e, limit)
  {
    forall after, position
      ensures ScanEntry(Frame(Payload(e)) + after, limit, position) == Found(e, |Frame(Payload(e))|)
    {
      ScanFrame(e, after, limit, position);
    }
  }

  lemma FrameTears(e: Entry, limit: nat)
    requires Fits(e, limit)
    ensures Tears(Frame(Payload(e)), limit)
  {
    var b := Frame(Payload(e));
    forall n, position | 0 < n < |b|
      ensures ScanEntry(b[..n], limit, position) == Failed(UnexpectedEof)
    {
      ScanShort(|Payload(e)|, b[..n], limit, position);
    }
  }

  ghost predicate AllRead(parts: seq<seq<byte>>, es: seq<Entry>, limit: nat)
    decreases |es|
  {
    |parts| == |es| && (es != [] ==> Reads(parts[0], es[0], limit) && AllRead(parts[1..], es[1..], limit))
  }

  ghost predicate AllTear(parts: seq<seq<byte>>, limit: nat) {
    forall i :: 0 <= i < |parts| ==> Tears(parts[i], limit)
  }

  lemma {:induction false} FramesAreRead(es: seq<Entry>, limit: nat)
    requires AllFit(es, limit)
    ensures AllFit(es, U32_MAX) && AllRead(EntryFrames(es), es, limit)
    decreases |es|
  {
    if es != [] {
      FrameReads(es[0], limit);
      FramesAreRead(es[1..], limit);
      assert EntryFrames(es)[1..] == EntryFrames(es[1..]);
    }
  }

  lemma FramesTear(es: seq<Entry>, limit: nat)
    requires AllFit(es, limit)
    ensures AllFit(es, U32_MAX) && AllTear(EntryFrames(es), limit)
  {
    forall i | 0 <= i < |es|
      ensures Tears(EntryFrames(es)[i], limit)
    {
      FrameTears(es[i], limit);
    }
  }

  lemma {:induction false} ConcatAppend(a: seq<seq<byte>>, b: seq<seq<byte>>)
    ensures Concat(a + b) == Concat(a) + Concat(b)
    decreases |a|
  {
    if a == [] {
      assert a + b == b;
    } else {
      assert (a + b)[1..] == a[1..] + b;
      ConcatAppend(a[1..], b);
    }
  }

  lemma ConcatOneMore(parts: seq<seq<byte>>, k: nat)
    requires k < |parts|
    ensures Concat(parts[..k + 1]) == Concat(parts[..k]) + parts[k]
  {
    ConcatAppend(parts[..k], [parts[k]]);
    assert parts[..k + 1] == parts[..k] + [parts[k]];
    assert Concat([parts[k]]) == parts[k];
  }

  lemma FramesAppend(es: seq<Entry>, fs: seq<Entry>)
    requires AllFit(es, U32_MAX) && AllFit(fs, U32_MAX)
    ensures AllFit(es + fs, U32_MAX) && EntryFrames(es + fs) == EntryFrames(es) + EntryFrames(fs)
  {
  }
}
