/** The key-value `memories` table of `server/src/data/database/operations.py`. The
    table's `key` column is UNIQUE and `store_memory` writes with INSERT OR REPLACE, so
    the table is a map from key to record. Time stamps are integers. */
module KeyedMemories {
  import opened Wrappers

  type Metadata = map<string, string>

  /** The `metadata` entry of the dictionary passed to `store_memory`: left out, an
      explicit `None`, or a dictionary. */
  datatype MetadataArg = Missing | Null | Given(fields: Metadata)

  /** The dictionary passed to `store_memory`; `expires_at` absent and `None` alike are
      `None` here. */
  datatype MemoryInput = MemoryInput(key: string, value: string, kind: string,
                                     expiresAt: Option<int>, metadata: MetadataArg)

  /** A stored row. `metadata` is the JSON document kept in the column: `None` stands for
      JSON `null`. */
  datatype Record = Record(value: string, kind: string, timestamp: int,
                           expiresAt: Option<int>, metadata: Option<Metadata>)

  /** The dictionary `get_memory` returns. */
  datatype Entry = Entry(key: string, value: string, kind: string, timestamp: int,
                         expiresAt: Option<int>, metadata: Option<Metadata>)

  /** `json.dumps(memory.get('metadata', {}))` as it is read back by `json.loads`. */
  function StoredMetadata(m: MetadataArg): (r: Option<Metadata>)
    ensures m.Missing? ==> r == Some(map[])
    ensures m.Null? ==> r == None
    ensures m.Given? ==> r == Some(m.fields)
  {
    match m
    case Missing => Some(map[])
    case Null => None
    case Given(fields) => Some(fields)
  }

  /** The row `store_memory` writes at time `now`. */
  function RecordOf(m: MemoryInput, now: int): Record
  {
    Record(m.value, m.kind, now, m.expiresAt, StoredMetadata(m.metadata))
  }

  /** A record is live at `now` when it has no expiry or expires later. */
  predicate Live(r: Record, now: int)
  {
    r.expiresAt.None? || r.expiresAt.value > now
  }

  /** The table after a sequence of `store_memory` calls at the given times. */
  function StoreAll(table: map<string, Record>, ms: seq<MemoryInput>, times: seq<int>): map<string, Record>
    requires |ms| == |times|
    decreases |ms|
  {
    if ms == [] then table
    else StoreAll(table[ms[0].key := RecordOf(ms[0], times[0])], ms[1..], times[1..])
  }

  /** Storing two sequences one after the other. */
  lemma {:induction false} StoreAllConcat(table: map<string, Record>, a: seq<MemoryInput>, ta: seq<int>,
                                          b: seq<MemoryInput>, tb: seq<int>)
    requires |a| == |ta| && |b| == |tb|
    ensures StoreAll(table, a + b, ta + tb) == StoreAll(StoreAll(table, a, ta), b, tb)
    decreases |a|
  {
    if a == [] {
      assert a + b == b && ta + tb == tb;
    } else {
      assert (a + b)[0] == a[0] && (ta + tb)[0] == ta[0];
      assert (a + b)[1..] == a[1..] + b && (ta + tb)[1..] == ta[1..] + tb;
      StoreAllConcat(table[a[0].key := RecordOf(a[0], ta[0])], a[1..], ta[1..], b, tb);
    }
  }

  /** Stores of other keys leave a key's record, or its absence, as it was. */
  lemma {:induction false} StoreAllOtherKeys(table: map<string, Record>, ms: seq<MemoryInput>, times: seq<int>,
                                             key: string)
    requires |ms| == |times|
    requires forall j :: 0 <= j < |ms| ==> ms[j].key != key
    ensures key in StoreAll(table, ms, times) <==> key in table
    ensures key in table ==> StoreAll(table, ms, times)[key] == table[key]
    decreases |ms|
  {
    if ms != [] {
      assert ms[0].key != key;
      StoreAllOtherKeys(table[ms[0].key := RecordOf(ms[0], times[0])], ms[1..], times[1..], key);
    }
  }

  /** After any sequence of stores, a key holds the record of the last store of that key. */
  lemma LastStoreWins(table: map<string, Record>, before: seq<MemoryInput>, tb: seq<int>,
                      m: MemoryInput, t: int, after: seq<MemoryInput>, ta: seq<int>)
    requires |before| == |tb| && |after| == |ta|
    requires forall j :: 0 <= j < |after| ==> after[j].key != m.key
    ensures var final := StoreAll(table, before + [m] + after, tb + [t] + ta);
            m.key in final && final[m.key] == RecordOf(m, t)
  {
    StoreAllConcat(table, before + [m], tb + [t], after, ta);
    StoreAllConcat(table, before, tb, [m], [t]);
    var mid := StoreAll(table, before + [m], tb + [t]);
    assert mid == StoreAll(table, before, tb)[m.key := RecordOf(m, t)];
    StoreAllOtherKeys(mid, after, ta, m.key);
  }

  /** The `memories` table behind `DatabaseOperations`. */
  class DatabaseOperations {
    var table: map<string, Record>

    /** Opening the database file: `CREATE TABLE IF NOT EXISTS` keeps the entries a file
        already holds, and a new file starts with none. */
    constructor (existing: map<string, Record> := map[])
      ensures table == existing
    {
      table := existing;
    }

    /** `store_memory` at time `now`: the key's record is replaced, no other key changes. */
    method StoreMemory(m: MemoryInput, now: int)
      modifies this`table
      ensures table == old(table)[m.key := RecordOf(m, now)]
      ensures m.key in table && table[m.key] == RecordOf(m, now)
      ensures table.Keys == old(table).Keys + {m.key}
      ensures forall k :: k in old(table) && k != m.key ==> table[k] == old(table)[k]
    {
      table := table[m.key := RecordOf(m, now)];
    }

    /** `get_memory` at time `now`: the key's record unless it is missing or expired. */
    method GetMemory(key: string, now: int) returns (e: Option<Entry>)
      ensures e.None? <==> key !in table || !Live(table[key], now)
      ensures e.Some? ==> var r := table[key];
                e.value == Entry(key, r.value, r.kind, r.timestamp, r.expiresAt, r.metadata)
    {
      if key in table && Live(table[key], now) {
        var r := table[key];
        e := Some(Entry(key, r.value, r.kind, r.timestamp, r.expiresAt, r.metadata));
      } else {
        e := None;
      }
    }
  }

  /** Storing then reading back: the value, the type and the metadata come back while the
      entry has not expired; a key never stored reads as nothing; storing the same key
      twice keeps the second; missing metadata reads back as `{}`. */
  method StoreThenGetScenario(m: MemoryInput, m2: MemoryInput, t: int, other: string)
    requires m.expiresAt == None && m.metadata == Missing
    requires m2.key == m.key && other != m.key
  {
    var ops := new DatabaseOperations();
    var missing := ops.GetMemory(other, t);
    assert missing == None;
    ops.StoreMemory(m, t);
    var got := ops.GetMemory(m.key, t + 10);
    assert got.Some? && got.value.value == m.value && got.value.kind == m.kind;
    assert got.value.metadata == Some(map[]);
    ops.StoreMemory(m2, t + 1);
    assert |ops.table.Keys| == 1 by { assert ops.table.Keys == {m.key}; }
    assert ops.table[m.key].value == m2.value;
    var none := ops.GetMemory(other, t + 1);
    assert none == None;
  }

  /** An entry with an expiry time reads as nothing from that time on. */
  method ExpiryScenario(m: MemoryInput, t: int)
    requires m.expiresAt == Some(t)
  {
    var ops := new DatabaseOperations();
    ops.StoreMemory(m, t - 5);
    var before := ops.GetMemory(m.key, t - 1);
    var at := ops.GetMemory(m.key, t);
    assert before.Some? && at == None;
  }
}
