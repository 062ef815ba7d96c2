/** The in-memory tables a log is replayed into (`engine/src/memory/store.rs`,
    `engine/src/rec/collections.rs`, `engine/src/rec/record.rs`). Each map
    operation is atomic in the source; versions are unbounded here. */
module Store {
  import opened Bytes
  import opened Utf8

  type Value = seq<byte>

  datatype Record = Record(value: Value, version: nat) {

    /** `Record::new`. */
    static function New(value: Value): Record { Record(value, 1) }

    /** `Record::next`. */
    static function Next(value: Value, previousVersion: nat): Record { Record(value, previousVersion + 1) }
  }

  type Table = map<Text, Record>
  type Tables = map<Text, Table>

  // ---- What `insert`, `remove` and `update` make of the map of one table ----

  function Inserted(t: Table, key: Text, value: Value): Table { t[key := Record(value, 1)] }

  function Erased(t: Table, key: Text): Table { t - {key} }

  /** The next version, or the first. */
  function Updated(t: Table, key: Text, value: Value): Table {
    t[key := if key in t then Record.Next(value, t[key].version) else Record.New(value)]
  }

  class Collection {
    var records: Table

    constructor ()
      ensures records == map[]
    {
      records := map[];
    }

    method Insert(key: Text, value: Value)
      modifies this
      ensures records == Inserted(old(records), key, value)
    {
      records := records[key := Record.New(value)];
    }

    method Remove(key: Text) returns (r: Option<Value>)
      modifies this
      ensures r == if key in old(records) then Some(old(records)[key].value) else None
      ensures records == Erased(old(records), key)
    {
      r := if key in records then Some(records[key].value) else None;
      records := records - {key};
    }

    method Update(key: Text, value: Value)
      modifies this
      ensures records == Updated(old(records), key, value)
    {
      if key in records {
        var previousVersion := records[key].version;
        records := records[key := Record.Next(value, previousVersion)];
      } else {
        records := records[key := Record.New(value)];
      }
    }
  }

  class MemoryStore {
    var tables: map<Text, Collection>

    /** No two names share a collection. */
    ghost predicate Valid()
      reads this
    {
      forall t, u :: t in tables && u in tables && tables[t] == tables[u] ==> t == u
    }

    ghost function View(): Tables
      reads this, tables.Values
    {
      map t | t in tables :: tables[t].records
    }

    constructor ()
      ensures Valid() && View() == map[] && tables == map[]
    {
      tables := map[];
    }

    method Get(table: Text) returns (r: Option<Collection>)
      ensures r == if table in tables then Some(tables[table]) else None
    {
      r := if table in tables then Some(tables[table]) else None;
    }

    /** The table of that name, created empty if there is none. */
    method Create(table: Text) returns (c: Collection)
      requires Valid()
      modifies this
      ensures Valid() && table in tables && c == tables[table]
      ensures View() == if table in old(View()) then old(View()) else old(View())[table := map[]]
      ensures table in old(tables) ==> tables == old(tables)
      ensures table !in old(tables) ==> fresh(c) && tables == old(tables)[table := c]
    {
      if table in tables {
        return tables[table];
      }
      c := new Collection();
      tables := tables[table := c];
    }

    method Remove(table: Text)
      requires Valid()
      modifies this
      ensures Valid() && tables == old(tables) - {table} && View() == old(View()) - {table}
    {
      tables := tables - {table};
    }
  }
}
