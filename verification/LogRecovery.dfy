/** What replaying a log gives back: of whole logs, torn logs and damaged logs. */
module LogRecovery {
  import opened Bytes
  import opened Checksum
  import opened LogErrors
  import opened LogEntry
  import opened LogFormat
  import opened LogReplay

  // ---- Reading past whole frames ----

  lemma RecoverFirst(b: seq<byte>, e: Entry, rest: seq<byte>, limit: nat, position: nat)
    requires Reads(b, e, limit)
    ensures Recover(b + rest, limit, position) == Prepend(e, Recover(rest, limit, position + |b|))
  {
    assert ScanEntry(b + rest, limit, position) == Found(e, |b|);
    assert (b + rest)[|b|..] == rest;
  }

  lemma AfterNothing(r: Recovery)
    ensures After([], r) == r
  {
  }

  lemma AfterCons(e: Entry, es: seq<Entry>, r: Recovery)
    ensures Prepend(e, After(es, r)) == After([e] + es, r)
  {
  }

  lemma RecoverCons(b: seq<byte>, es: seq<Entry>, all: seq<byte>, rest: seq<byte>, limit: nat, position: nat,
                    later: Recovery)
    requires es != [] && Reads(b, es[0], limit) && all == b + rest
    requires Recover(rest, limit, position + |b|) == After(es[1..], later)
    ensures Recover(all, limit, position) == After(es, later)
  {
    RecoverFirst(b, es[0], rest, limit, position);
    AfterCons(es[0], es[1..], later);
    assert [es[0]] + es[1..] == es;
  }

  lemma ConcatSplits(parts: seq<seq<byte>>, tail: seq<byte>)
    requires parts != []
    ensures Concat(parts) + tail == parts[0] + (Concat(parts[1..]) + tail)
    ensures |Concat(parts)| == |parts[0]| + |Concat(parts[1..])|
  {
  }

  lemma RecoverNone(all: seq<byte>, tail: seq<byte>, limit: nat, position: nat)
    requires all == Concat([]) + tail
    ensures Recover(all, limit, position) == After([], Recover(tail, limit, position))
  {
    assert Concat([]) + tail == tail;
    AfterNothing(Recover(tail, limit, position));
  }

  lemma RecoverMore(parts: seq<seq<byte>>, es: seq<Entry>, tail: seq<byte>, limit: nat, position: nat, later: Recovery)
    requires parts != [] && es != [] && Reads(parts[0], es[0], limit)
    requires Recover(Concat(parts[1..]) + tail, limit, position + |parts[0]|) == After(es[1..], later)
    ensures Recover(Concat(parts) + tail, limit, position) == After(es, later)
  {
    ConcatSplits(parts, tail);
    RecoverCons(parts[0], es, Concat(parts) + tail, Concat(parts[1..]) + tail, limit, position, later);
  }

  lemma {:induction false} RecoverThrough(parts: seq<seq<byte>>, es: seq<Entry>, tail: seq<byte>, limit: nat,
                                          position: nat, end: nat)
    requires AllRead(parts, es, limit) && end == position + |Concat(parts)|
    ensures Recover(Concat(parts) + tail, limit, position) == After(es, Recover(tail, limit, end))
    decreases |es|
  {
    if es == [] {
      RecoverNone(Concat(parts) + tail, tail, limit, position);
    } else {
      ConcatSplits(parts, tail);
      RecoverThrough(parts[1..], es[1..], tail, limit, position + |parts[0]|, end);
      RecoverMore(parts, es, tail, limit, position, Recover(tail, limit, end));
    }
  }

  /** Whole entries are all read, and reading goes on behind them. */
  lemma RecoverWhole(parts: seq<seq<byte>>, es: seq<Entry>, tail: seq<byte>, limit: nat, position: nat)
    requires AllRead(parts, es, limit)
    ensures Recover(Concat(parts) + tail, limit, position)
            == After(es, Recover(tail, limit, position + |Concat(parts)|))
  {
    RecoverThrough(parts, es, tail, limit, position, position + |Concat(parts)|);
  }

  // ---- Logs cut short ----

  /** How many parts are whole in the first `n` bytes. */
  function WholeParts(parts: seq<seq<byte>>, n: nat): (k: nat)
    ensures k <= |parts|
  {
    if parts == [] || n < |parts[0]| then 0 else 1 + WholeParts(parts[1..], n - |parts[0]|)
  }

  lemma TakeMore(parts: seq<seq<byte>>, k: nat)
    requires 0 < k <= |parts|
    ensures Concat(parts[..k]) == parts[0] + Concat(parts[1..][..k - 1])
  {
    assert parts[..k][1..] == parts[1..][..k - 1];
  }

  /** They are the longest run that fits. */
  lemma {:induction false} WholeIsLongest(parts: seq<seq<byte>>, n: nat)
    ensures var k := WholeParts(parts, n);
            |Concat(parts[..k])| <= n && (k < |parts| ==> n < |Concat(parts[..k + 1])|)
    decreases |parts|
  {
    var k := WholeParts(parts, n);
    if k > 0 {
      WholeIsLongest(parts[1..], n - |parts[0]|);
      TakeMore(parts, k);
    }
    if k < |parts| {
      TakeMore(parts, k + 1);
    }
  }

  /** The bytes kept of the part that was cut, if there is one. */
  function Fragment(parts: seq<seq<byte>>, n: nat): seq<byte> {
    var k := WholeParts(parts, n);
    var start := |Concat(parts[..k])|;
    if k < |parts| && start <= n <= start + |parts[k]| then parts[k][..n - start] else []
  }

  lemma CutSplits(parts: seq<seq<byte>>, n: nat)
    requires n <= |Concat(parts)|
    ensures var (k, part) := (WholeParts(parts, n), Fragment(parts, n));
            && Concat(parts)[..n] == Concat(parts[..k]) + part
            && |part| == n - |Concat(parts[..k])|
            && (part != [] ==> k < |parts| && |part| < |parts[k]| && part == parts[k][..|part|])
  {
    var k := WholeParts(parts, n);
    WholeIsLongest(parts, n);
    if k < |parts| {
      ConcatSplitsAt(parts, k);
      ConcatOneMore(parts, k);
      CutInside(Concat(parts[..k]), parts[k], Concat(parts[k + 1..]), n);
    } else {
      assert parts[..k] == parts;
    }
  }

  lemma CutInside(a: seq<byte>, b: seq<byte>, c: seq<byte>, n: nat)
    requires |a| <= n <= |a| + |b|
    ensures (a + (b + c))[..n] == a + b[..n - |a|]
  {
  }

  lemma {:induction false} TakeRead(parts: seq<seq<byte>>, es: seq<Entry>, k: nat, limit: nat)
    requires AllRead(parts, es, limit) && k <= |es|
    ensures AllRead(parts[..k], es[..k], limit)
    decreases k
  {
    if k > 0 {
      TakeRead(parts[1..], es[1..], k - 1, limit);
      assert parts[..k][1..] == parts[1..][..k - 1] && es[..k][1..] == es[1..][..k - 1];
    }
  }

  /** What is found in the first `n` bytes of a run of entries. */
  lemma RecoverCut(parts: seq<seq<byte>>, es: seq<Entry>, n: nat, limit: nat, position: nat)
    requires AllRead(parts, es, limit) && AllTear(parts, limit) && n <= |Concat(parts)|
    ensures var k := WholeParts(parts, n);
            var end := |Concat(parts[..k])|;
            Recover(Concat(parts)[..n], limit, position)
            == Recovery(es[..k], position + end, if n == end then None else Some(UnexpectedEof))
  {
    var k := WholeParts(parts, n);
    CutSplits(parts, n);
    TakeRead(parts, es, k, limit);
    RecoverFragment(parts, n, limit, position + |Concat(parts[..k])|);
    RecoverThenStop(parts[..k], es[..k], Fragment(parts, n), limit, position,
                    if Fragment(parts, n) == [] then None else Some(UnexpectedEof));
  }

  /** Whole entries, and then bytes in which none is found. */
  lemma RecoverThenStop(parts: seq<seq<byte>>, es: seq<Entry>, tail: seq<byte>, limit: nat, position: nat,
                        error: Option<WalError>)
    requires AllRead(parts, es, limit)
    requires var end := position + |Concat(parts)|; Recover(tail, limit, end) == Recovery([], end, error)
    ensures Recover(Concat(parts) + tail, limit, position) == Recovery(es, position + |Concat(parts)|, error)
  {
    RecoverWhole(parts, es, tail, limit, position);
    AfterNone(es, position + |Concat(parts)|, error);
  }

  lemma RecoverFragment(parts: seq<seq<byte>>, n: nat, limit: nat, position: nat)
    requires AllTear(parts, limit) && n <= |Concat(parts)|
    ensures Recover(Fragment(parts, n), limit, position)
         == Recovery([], position, if Fragment(parts, n) == [] then None else Some(UnexpectedEof))
  {
    CutSplits(parts, n);
    var k := WholeParts(parts, n);
    if Fragment(parts, n) != [] {
      assert Tears(parts[k], limit);
    }
  }

  // ---- Whole files ----

  lemma HeaderIsValid(body: seq<byte>)
    ensures ValidateHeader(HEADER + body) == Ok(()) && (HEADER + body)[HEADER_SIZE..] == body
  {
    assert (HEADER + body)[..4] == MAGIC;
  }

  /** A file is judged by what is found behind its header. */
  lemma FileIs(file: seq<byte>, r: Recovery, mode: ReplayMode)
    requires ValidateHeader(file).Ok? && r == Recover(file[HEADER_SIZE..], READ_LIMIT, HEADER_SIZE)
    ensures Replayed(file) == r.entries && Verdict(file, mode) == Ending(r, mode)
  {
  }

  /** The number of whole entries in the first `cut` bytes of a log. */
  function WholeEntries(es: seq<Entry>, cut: nat): (k: nat)
    requires AllFit(es, U32_MAX) && HEADER_SIZE <= cut
    ensures k <= |es|
  {
    WholeParts(EntryFrames(es), cut - HEADER_SIZE)
  }

  lemma WholeEntriesAreLongest(es: seq<Entry>, cut: nat)
    requires AllFit(es, U32_MAX) && HEADER_SIZE <= cut
    ensures var k := WholeEntries(es, cut); Boundary(es, k) <= cut && (k < |es| ==> cut < Boundary(es, k + 1))
  {
    WholeIsLongest(EntryFrames(es), cut - HEADER_SIZE);
    BoundaryIs(es, EntryFrames(es));
  }

  /** Where the frames end, one by one. */
  lemma BoundaryIs(es: seq<Entry>, frames: seq<seq<byte>>)
    requires AllFit(es, U32_MAX) && frames == EntryFrames(es)
    ensures forall k: nat :: k <= |es| ==> Boundary(es, k) == HEADER_SIZE + |Concat(frames[..k])|
  {
  }

  /** A log cut at any byte behind its header: the longest run of whole entries is
      applied, and the boundary where it ends is reported, as the place of a torn
      entry exactly when the cut is not on it. */
  lemma TornWrite(es: seq<Entry>, cut: nat)
    requires AllFit(es, READ_LIMIT) && AllFit(es, U32_MAX) && HEADER_SIZE <= cut <= |LogBytes(es)|
    ensures var file := LogBytes(es)[..cut];
            var k := WholeEntries(es, cut);
            var end := Boundary(es, k);
            && Replayed(file) == es[..k]
            && Verdict(file, Lenient) == Ok(Summary(k, end, if cut == end then None else Some(end), None))
            && Verdict(file, Strict) == if cut == end then Ok(Summary(k, end, None, None)) else Err(UnexpectedEof)
  {
    FramesAreRead(es, READ_LIMIT);
    FramesTear(es, READ_LIMIT);
    CutBehind(HEADER, Concat(EntryFrames(es)), cut);
    var k := WholeEntries(es, cut);
    TornParts(EntryFrames(es), es, LogBytes(es)[..cut], cut, k, Boundary(es, k));
  }

  lemma CutBehind(a: seq<byte>, b: seq<byte>, cut: nat)
    requires |a| <= cut <= |a + b|
    ensures (a + b)[..cut] == a + b[..cut - |a|]
  {
  }

  lemma TornParts(parts: seq<seq<byte>>, es: seq<Entry>, file: seq<byte>, cut: nat, k: nat, end: nat)
    requires AllRead(parts, es, READ_LIMIT) && AllTear(parts, READ_LIMIT)
    requires HEADER_SIZE <= cut <= HEADER_SIZE + |Concat(parts)| && file == HEADER + Concat(parts)[..cut - HEADER_SIZE]
    requires k == WholeParts(parts, cut - HEADER_SIZE) && end == HEADER_SIZE + |Concat(parts[..k])|
    ensures Replayed(file) == es[..k]
    ensures Verdict(file, Lenient) == Ok(Summary(k, end, if cut == end then None else Some(end), None))
    ensures Verdict(file, Strict) == if cut == end then Ok(Summary(k, end, None, None)) else Err(UnexpectedEof)
  {
    var n := cut - HEADER_SIZE;
    RecoverCut(parts, es, n, READ_LIMIT, HEADER_SIZE);
    HeaderIsValid(Concat(parts)[..n]);
    TornFileIs(file, Recovery(es[..k], end, if cut == end then None else Some(UnexpectedEof)));
  }

  /** A file in which reading stops at a torn entry, or nowhere. */
  lemma TornFileIs(file: seq<byte>, r: Recovery)
    requires ValidateHeader(file).Ok? && r == Recover(file[HEADER_SIZE..], READ_LIMIT, HEADER_SIZE)
    requires r.error.None? || r.error == Some(UnexpectedEof)
    ensures Replayed(file) == r.entries
    ensures Verdict(file, Lenient) == Ok(Summary(|r.entries|, r.end, if r.error.None? then None else Some(r.end), None))
    ensures Verdict(file, Strict) ==
            if r.error.None? then Ok(Summary(|r.entries|, r.end, None, None)) else Err(UnexpectedEof)
  {
    FileIs(file, r, Lenient);
    FileIs(file, r, Strict);
  }

  /** Cut inside the header, a log is refused in both modes. */
  lemma TornHeader(es: seq<Entry>, cut: nat, mode: ReplayMode)
    requires AllFit(es, U32_MAX) && cut < HEADER_SIZE
    ensures var file := LogBytes(es)[..cut]; Verdict(file, mode) == Err(InvalidHeader) && Replayed(file) == []
  {
  }

  /** A whole log, whatever stands behind it. */
  lemma WholeLogThen(es: seq<Entry>, tail: seq<byte>, mode: ReplayMode)
    requires AllFit(es, READ_LIMIT) && AllFit(es, U32_MAX)
    ensures var r := After(es, Recover(tail, READ_LIMIT, |LogBytes(es)|));
            Replayed(LogBytes(es) + tail) == r.entries && Verdict(LogBytes(es) + tail, mode) == Ending(r, mode)
  {
    FramesAreRead(es, READ_LIMIT);
    ConcatAssociates(HEADER, Concat(EntryFrames(es)), tail);
    WholePartsThen(EntryFrames(es), es, tail, mode, |LogBytes(es)|);
  }

  lemma WholePartsThen(parts: seq<seq<byte>>, es: seq<Entry>, tail: seq<byte>, mode: ReplayMode, end: nat)
    requires AllRead(parts, es, READ_LIMIT) && end == HEADER_SIZE + |Concat(parts)|
    ensures var file := HEADER + (Concat(parts) + tail);
            var r := After(es, Recover(tail, READ_LIMIT, end));
            Replayed(file) == r.entries && Verdict(file, mode) == Ending(r, mode)
  {
    RecoverThrough(parts, es, tail, READ_LIMIT, HEADER_SIZE, end);
    HeaderIsValid(Concat(parts) + tail);
    FileIs(HEADER + (Concat(parts) + tail), After(es, Recover(tail, READ_LIMIT, end)), mode);
  }

  // ---- Damage ----

  /** A stored payload was replaced by bytes of the same length with another
      checksum: replay stops there and says where, having applied the entries
      before it and none after, whatever follows. */
  lemma DamageIsFound(es: seq<Entry>, original: seq<byte>, damaged: seq<byte>, after: seq<byte>)
    requires AllFit(es, READ_LIMIT) && AllFit(es, U32_MAX) && |original| == |damaged| <= READ_LIMIT
    requires Crc32(original) != Crc32(damaged)
    ensures var file := LogBytes(es) + (BE32(|original|) + ChecksumBytes(Crc32(original)) + damaged + after);
            var place := |LogBytes(es)|;
            && Replayed(file) == es
            && Verdict(file, Strict) == Err(CorruptEntry(place))
            && Verdict(file, Lenient) == Ok(Summary(|es|, place, None, Some(place)))
  {
    var tail := BE32(|original|) + ChecksumBytes(Crc32(original)) + damaged + after;
    var place := |LogBytes(es)|;
    ScanAltered(original, damaged, after, READ_LIMIT, place);
    StoppedAt(es, tail, CorruptEntry(place));
  }

  /** What a whole log followed by unreadable bytes is judged to be. */
  lemma StoppedAt(es: seq<Entry>, tail: seq<byte>, error: WalError)
    requires AllFit(es, READ_LIMIT) && AllFit(es, U32_MAX)
    requires ScanEntry(tail, READ_LIMIT, |LogBytes(es)|) == Failed(error)
    ensures var file := LogBytes(es) + tail;
            && Replayed(file) == es && Verdict(file, Strict) == Err(error)
            && Verdict(file, Lenient) == Ok(Report(Recovery(es, |LogBytes(es)|, Some(error))))
  {
    WholeLogThen(es, tail, Strict);
    WholeLogThen(es, tail, Lenient);
    AfterNone(es, |LogBytes(es)|, Some(error));
  }

  /** In particular when the bytes changed lie within four consecutive ones. */
  lemma BurstDamageIsFound(es: seq<Entry>, e: Entry, damaged: seq<byte>, i: nat, after: seq<byte>)
    requires AllFit(es, READ_LIMIT) && AllFit(es, U32_MAX) && Fits(e, READ_LIMIT)
    requires |damaged| == |Payload(e)| && damaged != Payload(e)
    requires forall j :: 0 <= j < |damaged| && !(i <= j < i + 4) ==> Payload(e)[j] == damaged[j]
    ensures var file := LogBytes(es) + (BE32(|damaged|) + ChecksumBytes(Crc32(Payload(e))) + damaged + after);
            var place := |LogBytes(es)|;
            && Replayed(file) == es
            && Verdict(file, Strict) == Err(CorruptEntry(place))
            && Verdict(file, Lenient) == Ok(Summary(|es|, place, None, Some(place)))
  {
    BurstIsDetected(Payload(e), damaged, i);
    DamageIsFound(es, Payload(e), damaged, after);
  }

  function Zeros(n: nat): seq<byte> { seq(n, _ => 0) }

  lemma ChecksumOfNothing()
    ensures Crc32([]) == 0
  {
  }

  lemma ZeroChecksum(s: seq<byte>)
    requires s == Zeros(4)
    ensures ReadChecksum(s) == 0
  {
    ZeroBytes();
    ChecksumRoundTrip(0);
  }

  lemma ZeroBytes()
    ensures ChecksumBytes(0) == Zeros(4)
  {
  }

  lemma ScanZeros(n: nat, position: nat)
    ensures ScanEntry(Zeros(n), READ_LIMIT, position)
         == if n == 0 then AtEnd else if n < 8 then Failed(UnexpectedEof) else Failed(InvalidPayload)
  {
    var rest := Zeros(n);
    if n >= 4 {
      assert FromBE32(rest[..4]) == 0;
      assert ScanEntry(rest, READ_LIMIT, position) == ScanFrom(Stage.Checksum(0), rest[4..], READ_LIMIT, position);
      if n >= 8 {
        ZeroChecksum(rest[4..][..4]);
        assert ScanFrom(Stage.Checksum(0), rest[4..], READ_LIMIT, position)
            == ScanFrom(Body(0, 0), rest[4..][4..], READ_LIMIT, position);
        ChecksumOfNothing();
        assert rest[4..][4..][..0] == [];
      }
    }
  }

  /** A log extended with zero bytes. Fewer than eight look like a torn entry; from
      eight on they are an entry with no payload and a matching checksum, which a
      strict replay refuses and a lenient one stops at without a trace in its
      summary. */
  lemma ZeroTail(es: seq<Entry>, n: nat)
    requires AllFit(es, READ_LIMIT) && AllFit(es, U32_MAX)
    ensures var file := LogBytes(es) + Zeros(n);
            var place := |LogBytes(es)|;
            && Replayed(file) == es
            && Verdict(file, Lenient) == Ok(Summary(|es|, place, if 0 < n < 8 then Some(place) else None, None))
            && Verdict(file, Strict) == (if n == 0 then Ok(Summary(|es|, place, None, None))
                                         else if n < 8 then Err(UnexpectedEof) else Err(InvalidPayload))
  {
    var place := |LogBytes(es)|;
    ScanZeros(n, place);
    if n == 0 {
      WholeLogThen(es, Zeros(0), Strict);
      WholeLogThen(es, Zeros(0), Lenient);
      AfterNone(es, place, None);
    } else {
      StoppedAt(es, Zeros(n), if n < 8 then UnexpectedEof else InvalidPayload);
    }
  }

  // ---- Whole logs ----

  lemma LogSplits(es: seq<Entry>, j: nat)
    requires AllFit(es, U32_MAX) && j < |es|
    ensures LogBytes(es) == LogBytes(es[..j]) + (Frame(Payload(es[j])) + Concat(EntryFrames(es)[j + 1..]))
    ensures |LogBytes(es[..j])| == Boundary(es, j)
  {
    var frames := EntryFrames(es);
    assert EntryFrames(es[..j]) == frames[..j];
    ConcatSplitsAt(frames, j);
    ConcatAssociates(HEADER, Concat(frames[..j]), frames[j] + Concat(frames[j + 1..]));
  }

  lemma ConcatSplitsAt(parts: seq<seq<byte>>, j: nat)
    requires j < |parts|
    ensures Concat(parts) == Concat(parts[..j]) + (parts[j] + Concat(parts[j + 1..]))
  {
    assert parts == parts[..j] + parts[j..] && parts[j..][1..] == parts[j + 1..];
    ConcatAppend(parts[..j], parts[j..]);
  }

  /** A log as the writer leaves it is replayed entirely exactly when every payload
      is within the limit of the reader, whatever limit it was written under. The
      first that is not is reported as corrupt, and nothing from it on is applied. */
  lemma WholeLogReplays(es: seq<Entry>)
    requires AllFit(es, U32_MAX)
    ensures var j := FirstUnfit(es, READ_LIMIT);
            && Replayed(LogBytes(es)) == es[..j]
            && (Verdict(LogBytes(es), Strict).Ok? <==> AllFit(es, READ_LIMIT))
            && Verdict(LogBytes(es), Strict) == (if j == |es| then Ok(Summary(|es|, |LogBytes(es)|, None, None))
                                                 else Err(CorruptEntry(Boundary(es, j))))
  {
    var j := FirstUnfit(es, READ_LIMIT);
    FirstUnfitIsFirst(es, READ_LIMIT);
    if j == |es| {
      assert LogBytes(es) + Zeros(0) == LogBytes(es) && es[..j] == es;
      ZeroTail(es, 0);
    } else {
      LogSplits(es, j);
      var rest := Concat(EntryFrames(es)[j + 1..]);
      ScanFrame(es[j], rest, READ_LIMIT, Boundary(es, j));
      StoppedAt(es[..j], Frame(Payload(es[j])) + rest, CorruptEntry(Boundary(es, j)));
    }
  }

  /** An entry the writer accepts under a larger limit, and replay refuses. */
  lemma TooLargeToReplay() returns (e: Entry)
    ensures Fits(e, U32_MAX) && !Fits(e, READ_LIMIT)
    ensures Verdict(LogBytes([e]), Strict) == Err(CorruptEntry(HEADER_SIZE)) && Replayed(LogBytes([e])) == []
  {
    e := Insert([], [], Zeros(READ_LIMIT));
    assert |Payload(e)| == 13 + READ_LIMIT;
    WholeLogReplays([e]);
    assert FirstUnfit([e], READ_LIMIT) == 0 && Boundary([e], 0) == HEADER_SIZE;
  }
}
