/** The store that a node's committed entries are executed on, and its saved copy. */
module Storage {
  import opened Types
  import opened Sets

  /** A map that is shared by reference: whoever holds it sees every write to it. */
  class Table {
    var entries: Data

    constructor (entries: Data := map[])
      ensures this.entries == entries
    {
      this.entries := entries;
    }
  }

  /** Copies a table, key by key, into a new one. */
  method Copy(source: Table) returns (copy: Table)
    ensures fresh(copy) && copy.entries == source.entries
  {
    copy := new Table();
    var todo := source.entries.Keys;
    while todo != {}
      invariant fresh(copy) && todo <= source.entries.Keys && source.entries == old(source.entries)
      invariant copy.entries == source.entries - todo
      decreases todo
    {
      ghost var some := Pick(todo);
      var k :| k in todo;
      copy.entries := copy.entries[k := source.entries[k]];
      todo := todo - {k};
    }
  }

  class Store {
    var data: Table
    var file: Data    // what was last saved; empty if nothing was

    constructor (file: Data := map[])
      ensures data.entries == map[] && this.file == file && fresh(data)
    {
      data := new Table();
      this.file := file;
    }

    method Get(key: string) returns (value: Option<Value>)
      ensures value == if key in data.entries then Some(data.entries[key]) else None
    {
      if key in data.entries {
        value := Some(data.entries[key]);
      } else {
        value := None;
      }
    }

    method Set(key: string, value: Value)
      modifies data
      ensures data.entries == old(data.entries)[key := value]
    {
      data.entries := data.entries[key := value];
    }

    method Delete(key: string)
      modifies data
      ensures data.entries == old(data.entries) - {key}
    {
      data.entries := data.entries - {key};
    }

    /** Starts a new table; holders of the old one keep what it held. */
    method ClearAll()
      modifies this`data
      ensures fresh(data) && data.entries == map[]
    {
      data := new Table();
    }

    method SaveState()
      modifies this`file
      ensures file == data.entries
    {
      file := data.entries;
    }

    method LoadState()
      modifies this`data
      ensures fresh(data) && data.entries == file
    {
      data := new Table(file);
    }

    /** A copy that no later write to the store reaches. */
    method CreateSnapshot() returns (snapshot: Table)
      ensures fresh(snapshot) && snapshot.entries == data.entries
    {
      snapshot := Copy(data);
    }

    /** Takes over a copy of a snapshot's data, so that later writes to the store leave the snapshot alone. */
    method RestoreSnapshot(snapshot: Table)
      modifies this`data
      ensures fresh(data) && data.entries == snapshot.entries
    {
      data := Copy(snapshot);
    }
  }

  /** A snapshot stays what it was through writes to the store that it was taken of, and to one it was restored to. */
  method SnapshotsAreIsolated(store: Store, other: Store, key: string, value: Value) returns (snapshot: Table)
    requires store != other && store.data != other.data
    modifies store, store.data, other, other.data
    ensures snapshot.entries == old(store.data.entries)
    ensures store.data.entries == old(store.data.entries)[key := value]
    ensures other.data.entries == old(store.data.entries) - {key}
  {
    snapshot := store.CreateSnapshot();
    other.RestoreSnapshot(snapshot);
    store.Set(key, value);
    other.Delete(key);
  }
}
