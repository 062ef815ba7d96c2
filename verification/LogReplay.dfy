/** Replaying a log into the tables (`engine/src/wal/replay.rs`). */
module LogReplay {
  import opened Bytes
  import opened Utf8
  import opened LogErrors
  import opened LogEntry
  import opened LogFormat
  import opened LogReader
  import opened Store

  /** `WalOptions::default().entry_size_limit`, which `WalReader::open` uses. */
  const READ_LIMIT: nat := 256 * 1024 * 1024

  datatype ReplayMode = Strict | Lenient

  datatype Summary = Summary(
    entriesApplied: nat, finalPosition: nat, truncatedAt: Option<nat>, corruptionDetectedAt: Option<nat>)

  // ---- What one entry does ----

  function TableOf(db: Tables, t: Text): Table { if t in db then db[t] else map[] }

  function Apply(db: Tables, e: Entry): Tables {
    match e
    case CreateTable(t) => db[t := TableOf(db, t)]
    case RemoveTable(t) => db - {t}
    case Insert(t, key, value) => db[t := Inserted(TableOf(db, t), key, value)]
    case Update(t, key, value) => db[t := Updated(TableOf(db, t), key, value)]
    case Delete(t, key) => if t in db then db[t := Erased(db[t], key)] else db
  }

  function ApplyAll(db: Tables, es: seq<Entry>): Tables
    decreases |es|
  {
    if es == [] then db else ApplyAll(Apply(db, es[0]), es[1..])
  }

  /** Collections the store holds, old or newly created. */
  twostate predicate OnlyNewTables(store: MemoryStore)
    reads store
  {
    fresh(store.tables.Values - old(store.tables.Values))
  }

  /** The view, given the records of each table. */
  lemma ViewIs(store: MemoryStore, db: Tables)
    requires store.tables.Keys == db.Keys
    requires forall u :: u in db ==> store.tables[u].records == db[u]
    ensures store.View() == db
  {
  }

  /** The collection of a table, and what the store then holds. */
  method CollectionOf(store: MemoryStore, table: Text) returns (c: Collection)
    requires store.Valid()
    modifies store
    ensures store.Valid() && OnlyNewTables(store)
    ensures table in store.tables && c == store.tables[table] && (fresh(c) || c in old(store.tables).Values)
    ensures store.View() == old(store.View())[table := TableOf(old(store.View()), table)]
  {
    c := store.Create(table);
  }

  method InsertInto(store: MemoryStore, table: Text, c: Collection, key: Text, value: Value)
    requires store.Valid() && table in store.tables && store.tables[table] == c
    modifies c
    ensures store.View() == old(store.View())[table := Inserted(old(store.View())[table], key, value)]
  {
    c.Insert(key, value);
    ViewIs(store, old(store.View())[table := c.records]);
  }

  method UpdateIn(store: MemoryStore, table: Text, c: Collection, key: Text, value: Value)
    requires store.Valid() && table in store.tables && store.tables[table] == c
    modifies c
    ensures store.View() == old(store.View())[table := Updated(old(store.View())[table], key, value)]
  {
    c.Update(key, value);
    ViewIs(store, old(store.View())[table := c.records]);
  }

  method RemoveFrom(store: MemoryStore, table: Text, c: Collection, key: Text)
    requires store.Valid() && table in store.tables && store.tables[table] == c
    modifies c
    ensures store.View() == old(store.View())[table := Erased(old(store.View())[table], key)]
  {
    var _ := c.Remove(key);
    ViewIs(store, old(store.View())[table := c.records]);
  }

  lemma WriteTwice(db: Tables, table: Text, t: Table, u: Table)
    ensures db[table := t][table := u] == db[table := u]
  {
  }

  method ApplyInsert(store: MemoryStore, table: Text, key: Text, value: Value)
    requires store.Valid()
    modifies store, store.tables.Values
    ensures store.Valid() && OnlyNewTables(store)
    ensures store.View() == Apply(old(store.View()), Insert(table, key, value))
  {
    var c := CollectionOf(store, table);
    InsertInto(store, table, c, key, value);
    WriteTwice(old(store.View()), table, TableOf(old(store.View()), table), store.View()[table]);
  }

  method ApplyUpdate(store: MemoryStore, table: Text, key: Text, value: Value)
    requires store.Valid()
    modifies store, store.tables.Values
    ensures store.Valid() && OnlyNewTables(store)
    ensures store.View() == Apply(old(store.View()), Update(table, key, value))
  {
    var c := CollectionOf(store, table);
    UpdateIn(store, table, c, key, value);
    WriteTwice(old(store.View()), table, TableOf(old(store.View()), table), store.View()[table]);
  }

  /** `apply_entry`. */
  method ApplyEntry(store: MemoryStore, e: Entry)
    requires store.Valid()
    modifies store, store.tables.Values
    ensures store.Valid() && OnlyNewTables(store)
    ensures store.View() == Apply(old(store.View()), e)
  {
    match e
    case CreateTable(table) =>
      var _ := CollectionOf(store, table);
    case RemoveTable(table) => store.Remove(table);
    case Insert(table, key, value) => ApplyInsert(store, table, key, value);
    case Update(table, key, value) => ApplyUpdate(store, table, key, value);
    case Delete(table, key) =>
      var c := store.Get(table);
      if c.Some? {
        RemoveFrom(store, table, c.value, key);
      }
  }

  // ---- What a whole file does ----

  /** The entries found before reading stops, where it stops, and why. */
  datatype Recovery = Recovery(entries: seq<Entry>, end: nat, error: Option<WalError>)

  function Recover(rest: seq<byte>, limit: nat, position: nat): Recovery
    decreases |rest|
  {
    match ScanEntry(rest, limit, position)
    case AtEnd => Recovery([], position, None)
    case Failed(e) => Recovery([], position, Some(e))
    case Found(entry, size) =>
      Prepend(entry, Recover(rest[size..], limit, position + size))
  }

  lemma RecoverStep(rest: seq<byte>, limit: nat, position: nat)
    ensures Recover(rest, limit, position) ==
            match ScanEntry(rest, limit, position)
            case AtEnd => Recovery([], position, None)
            case Failed(e) => Recovery([], position, Some(e))
            case Found(entry, size) => Prepend(entry, Recover(rest[size..], limit, position + size))
  {
  }

  function Prepend(e: Entry, r: Recovery): Recovery { r.(entries := [e] + r.entries) }

  /** The summary of a lenient replay that stopped as `r` says. */
  function Report(r: Recovery): Summary {
    Summary(|r.entries|, r.end,
            if r.error == Some(UnexpectedEof) then Some(r.end) else None,
            if r.error.Some? && r.error.value.CorruptEntry? then Some(r.error.value.position) else None)
  }

  /** What a replay returns once reading has stopped as `r` says. */
  function Ending(r: Recovery, mode: ReplayMode): Result<Summary> {
    if mode.Strict? && r.error.Some? then Err(r.error.value) else Ok(Report(r))
  }

  /** What `replay_with_mode` returns for a file with these bytes. */
  function Verdict(file: seq<byte>, mode: ReplayMode): Result<Summary> {
    if ValidateHeader(file).Err? then Err(ValidateHeader(file).error)
    else Ending(Recover(file[HEADER_SIZE..], READ_LIMIT, HEADER_SIZE), mode)
  }

  /** The entries a replay applies, whether or not it then fails. */
  function Replayed(file: seq<byte>): seq<Entry> {
    if ValidateHeader(file).Err? then [] else Recover(file[HEADER_SIZE..], READ_LIMIT, HEADER_SIZE).entries
  }

  lemma {:induction false} ApplyAllAppend(db: Tables, es: seq<Entry>, fs: seq<Entry>)
    ensures ApplyAll(db, es + fs) == ApplyAll(ApplyAll(db, es), fs)
    decreases |es|
  {
    if es == [] {
      assert es + fs == fs;
    } else {
      assert (es + fs)[1..] == es[1..] + fs;
      ApplyAllAppend(Apply(db, es[0]), es[1..], fs);
    }
  }

  lemma ApplyOneMore(db: Tables, es: seq<Entry>, e: Entry)
    ensures ApplyAll(db, es + [e]) == Apply(ApplyAll(db, es), e)
  {
    ApplyAllAppend(db, es, [e]);
  }

  /** What has been read so far, and what reading on will give. */
  function After(done: seq<Entry>, r: Recovery): Recovery { r.(entries := done + r.entries) }

  lemma AfterNone(done: seq<Entry>, end: nat, error: Option<WalError>)
    ensures After(done, Recovery([], end, error)) == Recovery(done, end, error)
  {
  }

  lemma AfterOne(done: seq<Entry>, entry: Entry, later: Recovery)
    ensures After(done, Prepend(entry, later)) == After(done + [entry], later)
  {
  }

  /** `next_entry`, as one step of `Recover`. */
  method ReadNext(reader: WalReader) returns (next: Result<Option<Entry>>)
    requires !reader.eof
    modifies reader, reader.reader
    ensures var was := Recover(old(reader.reader.rest), reader.entrySizeLimit, old(reader.position));
            match next
            case Ok(None) => was == Recovery([], reader.position, None) && reader.position == old(reader.position)
            case Err(e) => was == Recovery([], reader.position, Some(e)) && reader.position == old(reader.position)
            case Ok(Some(entry)) =>
              var later := Recover(reader.reader.rest, reader.entrySizeLimit, reader.position);
              !reader.eof && |reader.reader.rest| < |old(reader.reader.rest)| && was == Prepend(entry, later)
  {
    ghost var (rest, limit, position) := (reader.reader.rest, reader.entrySizeLimit, reader.position);
    RecoverStep(rest, limit, position);
    next := reader.NextEntry();
  }

  /** `apply_entry`, seen from a replay that has applied the entries `done`. */
  method ApplyNext(store: MemoryStore, e: Entry, ghost db: Tables, ghost done: seq<Entry>)
    requires store.Valid() && store.View() == ApplyAll(db, done)
    modifies store, store.tables.Values
    ensures store.Valid() && OnlyNewTables(store) && store.View() == ApplyAll(db, done + [e])
  {
    ApplyOneMore(db, done, e);
    ApplyEntry(store, e);
  }

  /** What a failure makes of a replay that has read the entries `done`: an error, or
      a note in the summary. */
  method Stop(before: Summary, startPosition: nat, error: WalError, mode: ReplayMode, ghost done: seq<Entry>)
    returns (r: Result<Summary>)
    requires before == Summary(|done|, startPosition, None, None)
    ensures r == Ending(Recovery(done, startPosition, Some(error)), mode)
  {
    if mode.Strict? {
      return Err(error);
    }
    var summary := before;
    if error == UnexpectedEof {
      summary := summary.(truncatedAt := Some(startPosition));
    }
    if error.CorruptEntry? {
      summary := summary.(corruptionDetectedAt := Some(error.position));
    }
    return Ok(summary);
  }

  /** Between turns of the loop: the entries `done` of a replay that will come out
      as `whole` have been read, and applied to `db`. */
  ghost predicate Midway(store: MemoryStore, reader: WalReader, db: Tables, whole: Recovery, done: seq<Entry>)
    reads store, store.tables.Values, reader, reader.reader
  {
    && store.Valid() && store.View() == ApplyAll(db, done)
    && !reader.eof && whole == After(done, Recover(reader.reader.rest, reader.entrySizeLimit, reader.position))
  }

  lemma AtTheStart(store: MemoryStore, reader: WalReader)
    requires store.Valid() && !reader.eof
    ensures Midway(store, reader, store.View(), Recover(reader.reader.rest, reader.entrySizeLimit, reader.position), [])
  {
    var r := Recover(reader.reader.rest, reader.entrySizeLimit, reader.position);
    assert [] + r.entries == r.entries;
  }

  /** The next entry, as one step of a replay that has read the entries `done`. */
  method ReadTurn(reader: WalReader, ghost whole: Recovery, ghost done: seq<Entry>)
    returns (next: Result<Option<Entry>>, ghost done': seq<Entry>)
    requires !reader.eof && whole == After(done, Recover(reader.reader.rest, reader.entrySizeLimit, reader.position))
    modifies reader, reader.reader
    ensures next.Ok? && next.value.Some? ==>
              && !reader.eof && done' == done + [next.value.value] && |reader.reader.rest| < |old(reader.reader.rest)|
              && whole == After(done', Recover(reader.reader.rest, reader.entrySizeLimit, reader.position))
    ensures next.Err? || next.value.None? ==>
              && done' == done
              && whole == Recovery(done, old(reader.position), if next.Err? then Some(next.error) else None)
  {
    next := ReadNext(reader);
    done' := done;
    if next.Ok? && next.value.Some? {
      done' := done + [next.value.value];
      AfterOne(done, next.value.value, Recover(reader.reader.rest, reader.entrySizeLimit, reader.position));
    } else {
      AfterNone(done, reader.position, if next.Err? then Some(next.error) else None);
    }
  }

  /** One turn of the loop: the next entry, if there is one, is read and applied. */
  method Turn(store: MemoryStore, reader: WalReader, ghost db: Tables, ghost whole: Recovery, ghost done: seq<Entry>)
    returns (next: Result<Option<Entry>>, ghost done': seq<Entry>)
    requires Midway(store, reader, db, whole, done)
    modifies store, store.tables.Values, reader, reader.reader
    ensures store.Valid() && OnlyNewTables(store)
    ensures next.Ok? && next.value.Some? ==>
              Midway(store, reader, db, whole, done') && |done'| == |done| + 1
                && |reader.reader.rest| < |old(reader.reader.rest)|
    ensures next.Err? || next.value.None? ==>
              && done' == done && store.View() == ApplyAll(db, done)
              && whole == Recovery(done, old(reader.position), if next.Err? then Some(next.error) else None)
  {
    next, done' := ReadTurn(reader, whole, done);
    if next.Ok? && next.value.Some? {
      ApplyNext(store, next.value.value, db, done);
    }
  }

  /** The loop of `replay_with_mode`. */
  method ReplayEntries(store: MemoryStore, reader: WalReader, mode: ReplayMode) returns (r: Result<Summary>)
    requires store.Valid() && !reader.eof && reader.position == HEADER_SIZE
    modifies store, store.tables.Values, reader, reader.reader
    ensures store.Valid()
    ensures var whole := Recover(old(reader.reader.rest), reader.entrySizeLimit, HEADER_SIZE);
            r == Ending(whole, mode) && store.View() == ApplyAll(old(store.View()), whole.entries)
  {
    var summary := Summary(0, HEADER_SIZE, None, None);
    ghost var whole := Recover(reader.reader.rest, reader.entrySizeLimit, HEADER_SIZE);
    ghost var done: seq<Entry> := [];
    ghost var db := store.View();
    AtTheStart(store, reader);
    while true
      invariant Midway(store, reader, db, whole, done) && OnlyNewTables(store)
      invariant summary == Summary(|done|, reader.position, None, None)
      decreases |reader.reader.rest|
    {
      var startPosition := reader.position;
      var next;
      next, done := Turn(store, reader, db, whole, done);
      match next
      case Ok(Some(_)) =>
        summary := summary.(entriesApplied := summary.entriesApplied + 1, finalPosition := reader.position);
      case Ok(None) =>
        return Ok(summary);
      case Err(error) =>
        r := Stop(summary, startPosition, error, mode, done);
        return;
    }
  }

  /** `replay_with_mode`: a missing file is an empty log; a strict replay that
      fails has already applied the entries before the failure. */
  method Replay(store: MemoryStore, file: Option<seq<byte>>, mode: ReplayMode) returns (r: Result<Summary>)
    requires store.Valid()
    modifies store, store.tables.Values
    ensures store.Valid()
    ensures file.None? ==> r == Ok(Summary(0, 0, None, None)) && store.View() == old(store.View())
    ensures file.Some? ==>
              r == Verdict(file.value, mode) && store.View() == ApplyAll(old(store.View()), Replayed(file.value))
  {
    if file.None? {
      return Ok(Summary(0, 0, None, None));
    }
    var open := Open(file.value, READ_LIMIT);
    if open.Err? {
      return Err(open.error);
    }
    r := ReplayEntries(store, open.value, mode);
  }
}
