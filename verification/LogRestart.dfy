/** Replay may be interrupted and started again: what a log does to one table and
    one key is decided by its last entry about them. */
module LogRestart {
  import opened Bytes
  import opened Utf8
  import opened LogEntry
  import opened Store
  import opened LogReplay

  // ---- The last entry decides ----

  /** Whether a table exists after an entry: `None` if the entry leaves it alone. */
  function TableFate(e: Entry, t: Text): Option<bool> {
    if e.table != t || e.Delete? then None else Some(!e.RemoveTable?)
  }

  /** What a key holds after an entry: `None` if the entry leaves it alone, and
      otherwise the value it is given, if any. */
  function KeyFate(e: Entry, t: Text, key: Text): Option<Option<Value>> {
    if e.table != t then None
    else
      match e
      case CreateTable(_) => None
      case RemoveTable(_) => Some(None)
      case Insert(_, k, value) => if k == key then Some(Some(value)) else None
      case Update(_, k, value) => if k == key then Some(Some(value)) else None
      case Delete(_, k) => if k == key then Some(None) else None
  }

  function LastTableFate(es: seq<Entry>, t: Text): Option<bool>
    decreases |es|
  {
    if es == [] then None
    else
      var later := LastTableFate(es[1..], t);
      if later.Some? then later else TableFate(es[0], t)
  }

  function LastKeyFate(es: seq<Entry>, t: Text, key: Text): Option<Option<Value>>
    decreases |es|
  {
    if es == [] then None
    else
      var later := LastKeyFate(es[1..], t, key);
      if later.Some? then later else KeyFate(es[0], t, key)
  }

  function ValueAt(db: Tables, t: Text, key: Text): Option<Value> {
    if t in db && key in db[t] then Some(db[t][key].value) else None
  }

  function Or<T>(fate: Option<T>, before: T): T { if fate.Some? then fate.value else before }

  lemma OneEntryDecides(db: Tables, e: Entry, t: Text, key: Text)
    ensures (t in Apply(db, e)) == Or(TableFate(e, t), t in db)
    ensures ValueAt(Apply(db, e), t, key) == Or(KeyFate(e, t, key), ValueAt(db, t, key))
  {
  }

  /** Replay keeps, for every table and every key, what the last entry about it
      says, and otherwise what was there. */
  lemma {:induction false} LastEntryDecides(db: Tables, es: seq<Entry>, t: Text, key: Text)
    ensures (t in ApplyAll(db, es)) == Or(LastTableFate(es, t), t in db)
    ensures ValueAt(ApplyAll(db, es), t, key) == Or(LastKeyFate(es, t, key), ValueAt(db, t, key))
    decreases |es|
  {
    if es != [] {
      OneEntryDecides(db, es[0], t, key);
      LastEntryDecides(Apply(db, es[0]), es[1..], t, key);
    }
  }

  // ---- Recovery can be restarted ----

  /** The same tables, with the same keys and values; versions may differ. */
  ghost predicate SameValues(a: Tables, b: Tables) {
    && (forall t :: t in a <==> t in b)
    && (forall t, key :: ValueAt(a, t, key) == ValueAt(b, t, key))
  }

  lemma {:induction false} FatesOfPrefix(es: seq<Entry>, k: nat, t: Text, key: Text)
    requires k <= |es|
    ensures LastTableFate(es, t).None? ==> LastTableFate(es[..k], t).None?
    ensures LastKeyFate(es, t, key).None? ==> LastKeyFate(es[..k], t, key).None?
    decreases k
  {
    if k > 0 {
      assert es[..k][1..] == es[1..][..k - 1];
      FatesOfPrefix(es[1..], k - 1, t, key);
    }
  }

  /** Replaying any part of a log and then all of it gives the same tables, keys
      and values as replaying it once, on any starting store. */
  lemma RecoveryRestarts(db: Tables, es: seq<Entry>, k: nat)
    requires k <= |es|
    ensures SameValues(ApplyAll(ApplyAll(db, es[..k]), es), ApplyAll(db, es))
  {
    var part := ApplyAll(db, es[..k]);
    var twice, once := ApplyAll(part, es), ApplyAll(db, es);
    forall t, key
      ensures (t in twice <==> t in once) && ValueAt(twice, t, key) == ValueAt(once, t, key)
    {
      LastEntryDecides(part, es, t, key);
      LastEntryDecides(db, es, t, key);
      LastEntryDecides(db, es[..k], t, key);
      FatesOfPrefix(es, k, t, key);
    }
    assert forall t :: t in twice <==> t in once by {
      forall t: Text
        ensures t in twice <==> t in once
      {
        assert ValueAt(twice, t, []) == ValueAt(once, t, []);
      }
    }
  }

  // ---- Versions ----

  function VersionAt(db: Tables, t: Text, key: Text): nat {
    if t in db && key in db[t] then db[t][key].version else 0
  }

  predicate Updates(e: Entry, t: Text, key: Text) { e.Update? && e.table == t && e.key == key }

  /** An entry after which the version of a key does not depend on what it was. */
  predicate Resets(e: Entry, t: Text, key: Text) {
    e.table == t && (e.RemoveTable? || ((e.Insert? || e.Delete?) && e.key == key))
  }

  predicate HasReset(es: seq<Entry>, t: Text, key: Text) { exists i :: 0 <= i < |es| && Resets(es[i], t, key) }

  function UpdateCount(es: seq<Entry>, t: Text, key: Text): nat
    decreases |es|
  {
    if es == [] then 0 else (if Updates(es[0], t, key) then 1 else 0) + UpdateCount(es[1..], t, key)
  }

  lemma OneEntryVersion(db: Tables, e: Entry, t: Text, key: Text)
    ensures VersionAt(Apply(db, e), t, key) ==
            if Resets(e, t, key) then (if e.Insert? then 1 else 0)
            else VersionAt(db, t, key) + (if Updates(e, t, key) then 1 else 0)
  {
  }

  lemma {:induction false} VersionsCount(db: Tables, es: seq<Entry>, t: Text, key: Text)
    requires !HasReset(es, t, key)
    ensures VersionAt(ApplyAll(db, es), t, key) == VersionAt(db, t, key) + UpdateCount(es, t, key)
    decreases |es|
  {
    if es != [] {
      OneEntryVersion(db, es[0], t, key);
      assert !HasReset(es[1..], t, key) by {
        forall i | 0 <= i < |es[1..]|
          ensures !Resets(es[1..][i], t, key)
        {
          assert !Resets(es[i + 1], t, key);
        }
      }
      VersionsCount(Apply(db, es[0]), es[1..], t, key);
    }
  }

  /** After the last entry that resets a key: 1 if it was an insert, 0 if the key was
      taken away, and one more for each update since. */
  lemma VersionIs(db: Tables, es: seq<Entry>, i: nat, t: Text, key: Text)
    requires i < |es| && Resets(es[i], t, key) && !HasReset(es[i + 1..], t, key)
    ensures VersionAt(ApplyAll(db, es), t, key) ==
            (if es[i].Insert? then 1 else 0) + UpdateCount(es[i + 1..], t, key)
  {
    var before := ApplyAll(db, es[..i]);
    assert es == es[..i] + ([es[i]] + es[i + 1..]);
    ApplyAllAppend(db, es[..i], [es[i]] + es[i + 1..]);
    ApplyAllAppend(before, [es[i]], es[i + 1..]);
    ApplyOneMore(before, [], es[i]);
    assert [] + [es[i]] == [es[i]];
    OneEntryVersion(before, es[i], t, key);
    VersionsCount(Apply(before, es[i]), es[i + 1..], t, key);
  }

  lemma {:induction false} ResetForgets(a: Tables, b: Tables, es: seq<Entry>, t: Text, key: Text)
    requires HasReset(es, t, key) || VersionAt(a, t, key) == VersionAt(b, t, key)
    ensures VersionAt(ApplyAll(a, es), t, key) == VersionAt(ApplyAll(b, es), t, key)
    decreases |es|
  {
    if es != [] {
      OneEntryVersion(a, es[0], t, key);
      OneEntryVersion(b, es[0], t, key);
      if HasReset(es, t, key) && !Resets(es[0], t, key) {
        var i :| 0 <= i < |es| && Resets(es[i], t, key);
        assert Resets(es[1..][i - 1], t, key);
      }
      ResetForgets(Apply(a, es[0]), Apply(b, es[0]), es[1..], t, key);
    }
  }

  lemma SameTables(a: Tables, b: Tables)
    requires SameValues(a, b) && forall t, key :: VersionAt(a, t, key) == VersionAt(b, t, key)
    ensures a == b
  {
    forall t | t in a
      ensures a[t] == b[t]
    {
      forall key: Text
        ensures (key in a[t] <==> key in b[t]) && (key in a[t] ==> a[t][key] == b[t][key])
      {
        assert ValueAt(a, t, key) == ValueAt(b, t, key) && VersionAt(a, t, key) == VersionAt(b, t, key);
      }
    }
  }

  lemma {:induction false} CountOfPrefix(es: seq<Entry>, k: nat, t: Text, key: Text)
    requires k <= |es|
    ensures UpdateCount(es[..k], t, key) == 0 <==> forall i :: 0 <= i < k ==> !Updates(es[i], t, key)
    decreases k
  {
    if k > 0 {
      assert es[..k][1..] == es[1..][..k - 1];
      CountOfPrefix(es[1..], k - 1, t, key);
      if forall i :: 0 <= i < k - 1 ==> !Updates(es[1..][i], t, key) {
        forall i | 0 < i < k
          ensures !Updates(es[i], t, key)
        {
          assert !Updates(es[1..][i - 1], t, key);
        }
      }
      if forall i :: 0 <= i < k ==> !Updates(es[i], t, key) {
        forall i | 0 <= i < k - 1
          ensures !Updates(es[1..][i], t, key)
        {
          assert !Updates(es[i + 1], t, key);
        }
      }
    }
  }

  lemma PrefixHasNoMoreResets(es: seq<Entry>, k: nat, t: Text, key: Text)
    requires k <= |es| && !HasReset(es, t, key)
    ensures !HasReset(es[..k], t, key)
  {
    forall i | 0 <= i < k
      ensures !Resets(es[..k][i], t, key)
    {
      assert !Resets(es[i], t, key);
    }
  }

  lemma VersionsAgree(db: Tables, es: seq<Entry>, k: nat, t: Text, key: Text)
    requires k <= |es|
    ensures VersionAt(ApplyAll(ApplyAll(db, es[..k]), es), t, key) == VersionAt(ApplyAll(db, es), t, key)
       <==> HasReset(es, t, key) || UpdateCount(es[..k], t, key) == 0
  {
    var part := ApplyAll(db, es[..k]);
    if HasReset(es, t, key) {
      ResetForgets(part, db, es, t, key);
    } else {
      PrefixHasNoMoreResets(es, k, t, key);
      VersionsCount(db, es[..k], t, key);
      VersionsCount(part, es, t, key);
      VersionsCount(db, es, t, key);
    }
  }

  /** Every update that is replayed twice is of a key the log also inserts, deletes
      or removes with its table. */
  predicate UpdatesAreReset(es: seq<Entry>, k: nat)
    requires k <= |es|
  {
    forall i :: 0 <= i < k && es[i].Update? ==> HasReset(es, es[i].table, es[i].key)
  }

  /** A restarted recovery gives exactly the same store, versions included, if and
      only if that is so: each other update counts once for each time it is read. */
  lemma VersionsRestart(db: Tables, es: seq<Entry>, k: nat)
    requires k <= |es|
    ensures ApplyAll(ApplyAll(db, es[..k]), es) == ApplyAll(db, es) <==> UpdatesAreReset(es, k)
  {
    var twice, once := ApplyAll(ApplyAll(db, es[..k]), es), ApplyAll(db, es);
    RecoveryRestarts(db, es, k);
    if UpdatesAreReset(es, k) {
      forall t, key
        ensures VersionAt(twice, t, key) == VersionAt(once, t, key)
      {
        VersionsAgree(db, es, k, t, key);
        CountOfPrefix(es, k, t, key);
      }
      SameTables(twice, once);
    } else {
      var i :| 0 <= i < k && es[i].Update? && !HasReset(es, es[i].table, es[i].key);
      VersionsAgree(db, es, k, es[i].table, es[i].key);
      CountOfPrefix(es, k, es[i].table, es[i].key);
      assert Updates(es[i], es[i].table, es[i].key);
    }
  }

  /** They can differ: one update, replayed into an empty store and then again. */
  lemma RestartChangesAVersion() returns (es: seq<Entry>, k: nat)
    ensures k <= |es| && ApplyAll(ApplyAll(map[], es[..k]), es) != ApplyAll(map[], es)
  {
    es, k := [Update([], [], [])], 1;
    VersionsRestart(map[], es, k);
    assert es[0].Update? && !HasReset(es, es[0].table, es[0].key);
  }
}
