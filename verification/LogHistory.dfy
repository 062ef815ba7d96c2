/** Whole histories of a log: batches, rejected entries, reopening, and crashes. */
module LogHistory {
  import opened Bytes
  import opened LogErrors
  import opened LogEntry
  import opened LogFormat
  import opened LogWriter
  import opened LogReplay
  import opened LogRecovery
  import opened Store

  /** A batch given to the writer, or the writer dropped (which flushes it) and the
      file opened again with another limit. */
  datatype Op = Batch(entries: seq<Entry>) | Reopen(limit: nat)

  /** The limit in force after these operations. */
  function Limit(first: nat, ops: seq<Op>): nat {
    if ops == [] then first
    else
      var last := ops[|ops| - 1];
      if last.Reopen? then last.limit else Limit(first, ops[..|ops| - 1])
  }

  /** File and buffer of a writer opened on an empty file, by the contracts of
      `LogWriter.Open` and `LogWriter.WalWriter.AppendBatch`. */
  function Contents(first: nat, ops: seq<Op>): seq<byte> {
    if ops == [] then HEADER
    else
      var before := ops[..|ops| - 1];
      match ops[|ops| - 1]
      case Batch(entries) => Contents(first, before) + BatchBytes(entries, Limit(first, before))
      case Reopen(_) => Contents(first, before)
  }

  /** The entries accepted, whether or not their batch was rejected later on. */
  function Logged(first: nat, ops: seq<Op>): seq<Entry> {
    if ops == [] then []
    else
      var before := ops[..|ops| - 1];
      match ops[|ops| - 1]
      case Batch(entries) => Logged(first, before) + Accepted(entries, Limit(first, before))
      case Reopen(_) => Logged(first, before)
  }

  lemma LogGrows(es: seq<Entry>, fs: seq<Entry>)
    requires AllFit(es, U32_MAX) && AllFit(fs, U32_MAX)
    ensures AllFit(es + fs, U32_MAX) && LogBytes(es + fs) == LogBytes(es) + Concat(EntryFrames(fs))
  {
    FramesAppend(es, fs);
    ConcatAppend(EntryFrames(es), EntryFrames(fs));
    ConcatAssociates(HEADER, Concat(EntryFrames(es)), Concat(EntryFrames(fs)));
  }

  /** File and buffer are the header followed by the accepted entries, in order. */
  lemma {:induction false} HistoryIsLog(first: nat, ops: seq<Op>)
    ensures AllFit(Logged(first, ops), U32_MAX) && Contents(first, ops) == LogBytes(Logged(first, ops))
    decreases |ops|
  {
    if ops != [] {
      var before := ops[..|ops| - 1];
      HistoryIsLog(first, before);
      match ops[|ops| - 1]
      case Batch(entries) => LogGrows(Logged(first, before), Accepted(entries, Limit(first, before)));
      case Reopen(_) =>
    } else {
      assert HEADER + [] == HEADER;
    }
  }

  /** Every limit a writer of this history had. */
  predicate LimitsWithin(first: nat, ops: seq<Op>, bound: nat) {
    first <= bound && forall i :: 0 <= i < |ops| ==> ops[i].Reopen? ==> ops[i].limit <= bound
  }

  lemma {:induction false} LimitIsWithin(first: nat, ops: seq<Op>, bound: nat)
    requires LimitsWithin(first, ops, bound)
    ensures Limit(first, ops) <= bound
    decreases |ops|
  {
    if ops != [] {
      LimitIsWithin(first, ops[..|ops| - 1], bound);
    }
  }

  lemma FitMore(es: seq<Entry>, fs: seq<Entry>, limit: nat, bound: nat)
    requires AllFit(es, bound) && AllFit(fs, limit) && limit <= bound
    ensures AllFit(es + fs, bound)
  {
  }

  lemma {:induction false} LoggedFits(first: nat, ops: seq<Op>, bound: nat)
    requires LimitsWithin(first, ops, bound)
    ensures AllFit(Logged(first, ops), bound)
    decreases |ops|
  {
    if ops != [] {
      var before := ops[..|ops| - 1];
      LoggedFits(first, before, bound);
      LimitIsWithin(first, before, bound);
      match ops[|ops| - 1]
      case Batch(entries) =>
        FitMore(Logged(first, before), Accepted(entries, Limit(first, before)), Limit(first, before), bound);
      case Reopen(_) =>
    }
  }

  /** Written under limits the reader shares, the flushed log is replayed entirely:
      to the end of the file, applying every accepted entry in order. */
  lemma HistoryReplays(first: nat, ops: seq<Op>)
    requires LimitsWithin(first, ops, READ_LIMIT)
    ensures var (file, es) := (Contents(first, ops), Logged(first, ops));
            Replayed(file) == es && Verdict(file, Strict) == Ok(Summary(|es|, |file|, None, None))
  {
    HistoryIsLog(first, ops);
    LoggedFits(first, ops, READ_LIMIT);
    var es := Logged(first, ops);
    WholeLogReplays(es);
    FirstUnfitIsFirst(es, READ_LIMIT);
    assert es[..|es|] == es;
  }

  lemma BoundaryGrows(es: seq<Entry>, j: nat, k: nat)
    requires AllFit(es, U32_MAX) && j <= k <= |es|
    ensures Boundary(es, j) <= Boundary(es, k)
  {
    var frames := EntryFrames(es);
    assert frames[..k] == frames[..j] + frames[j..k];
    ConcatAppend(frames[..j], frames[j..k]);
  }

  /** A batch that was acknowledged is in the file when `append_batch` returns, and
      the file only grows: whatever part of the entries written later a crash
      leaves behind, recovery applies all the acknowledged ones, in order, and then
      some of the later ones, in order. */
  lemma AcknowledgedSurvives(acknowledged: seq<Entry>, later: seq<Entry>, cut: nat)
    requires AllFit(acknowledged, READ_LIMIT) && AllFit(later, READ_LIMIT)
    requires |LogBytes(acknowledged)| <= cut <= |LogBytes(acknowledged + later)|
    ensures var file := LogBytes(acknowledged + later)[..cut];
            var k := WholeEntries(acknowledged + later, cut) - |acknowledged|;
            && 0 <= k <= |later| && Replayed(file) == acknowledged + later[..k]
            && Verdict(file, Lenient).Ok? && Verdict(file, Lenient).value.corruptionDetectedAt == None
  {
    TornWrite(acknowledged + later, cut);
    AcknowledgedAreWhole(acknowledged, later, cut);
    TakeBehind(acknowledged, later, WholeEntries(acknowledged + later, cut));
  }

  lemma TakeBehind<T>(a: seq<T>, b: seq<T>, k: nat)
    requires |a| <= k <= |a + b|
    ensures (a + b)[..k] == a + b[..k - |a|]
  {
  }

  lemma AcknowledgedAreWhole(acknowledged: seq<Entry>, later: seq<Entry>, cut: nat)
    requires AllFit(acknowledged, U32_MAX) && AllFit(later, U32_MAX) && |LogBytes(acknowledged)| <= cut
    ensures AllFit(acknowledged + later, U32_MAX) && WholeEntries(acknowledged + later, cut) >= |acknowledged|
  {
    var es, n := acknowledged + later, |acknowledged|;
    var k := WholeEntries(es, cut);
    WholeEntriesAreLongest(es, cut);
    FramesAppend(acknowledged, later);
    assert EntryFrames(es)[..n] == EntryFrames(acknowledged);
    if k < n {
      BoundaryGrows(es, k + 1, n);
    }
  }

  // ---- The same history on a file ----

  lemma OneMoreOp(first: nat, ops: seq<Op>, i: nat)
    requires i < |ops|
    ensures Limit(first, ops[..i + 1]) == if ops[i].Reopen? then ops[i].limit else Limit(first, ops[..i])
    ensures Contents(first, ops[..i + 1]) ==
            Contents(first, ops[..i]) + if ops[i].Batch? then BatchBytes(ops[i].entries, Limit(first, ops[..i])) else []
  {
    assert ops[..i + 1][..i] == ops[..i];
  }

  /** A writer opened on an empty file and given these operations. */
  method Record(file: LogFile, first: nat, ops: seq<Op>) returns (w: WalWriter)
    requires file.bytes == []
    modifies file
    ensures fresh(w) && w.Valid() && w.file == file
    ensures w.entrySizeLimit == Limit(first, ops) && w.contents == Contents(first, ops)
  {
    var r := Open(file, first);
    w := r.value;
    for i := 0 to |ops|
      invariant fresh(w) && w.Valid() && w.file == file
      invariant w.entrySizeLimit == Limit(first, ops[..i]) && w.contents == Contents(first, ops[..i])
    {
      OneMoreOp(first, ops, i);
      match ops[i]
      case Batch(entries) => var _ := w.AppendBatch(entries);
      case Reopen(limit) =>
        w.Flush();
        r := Open(file, limit);
        w := r.value;
    }
    assert ops[..|ops|] == ops;
  }

  /** Writing, flushing and replaying: under limits the reader shares, the store ends
      as if the accepted entries had been applied to it in order, versions included. */
  method RecordAndReplay(file: LogFile, first: nat, ops: seq<Op>, store: MemoryStore, mode: ReplayMode)
    returns (r: Result<Summary>)
    requires file.bytes == [] && store.Valid() && LimitsWithin(first, ops, READ_LIMIT)
    modifies file, store, store.tables.Values
    ensures store.Valid() && AllFit(Logged(first, ops), U32_MAX)
    ensures file.bytes == LogBytes(Logged(first, ops))
    ensures r == Ok(Summary(|Logged(first, ops)|, |file.bytes|, None, None))
    ensures store.View() == ApplyAll(old(store.View()), Logged(first, ops))
  {
    var w := Record(file, first, ops);
    w.Flush();
    HistoryIsLog(first, ops);
    HistoryReplays(first, ops);
    StrictMeansLenient(file.bytes, mode);
    r := Replay(store, Some(file.bytes), mode);
  }

  /** A replay that succeeds strictly succeeds leniently, with the same summary. */
  lemma StrictMeansLenient(file: seq<byte>, mode: ReplayMode)
    requires Verdict(file, Strict).Ok?
    ensures Verdict(file, mode) == Verdict(file, Strict)
  {
  }
}
