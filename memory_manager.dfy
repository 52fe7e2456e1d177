/** The `memories` table of `server/src/data/memory_manager.py`, as a sequence of rows
    in insertion order with the table's AUTOINCREMENT counter. Time stamps are integers
    (the ISO texts compare in the same order), and `content` is the stored JSON text. */
module MemoryTable {
  import opened Wrappers
  import opened Constants
  import Seqs

  type Metadata = map<string, string>

  /** One row of `memories`. */
  datatype Row = Row(
    id: int,
    kind: MemoryType,
    content: string,
    metadata: Metadata,
    createdAt: int,
    expiresAt: Option<int>,
    importance: int)

  /** One condition of the `WHERE` clause that `retrieve` assembles. */
  datatype Condition = NotExpired(now: int) | OfType(kind: MemoryType) | AtLeast(importance: int)

  predicate Holds(c: Condition, r: Row)
  {
    match c
    case NotExpired(now) => r.expiresAt.None? || r.expiresAt.value > now
    case OfType(kind) => r.kind == kind
    case AtLeast(importance) => r.importance >= importance
  }

  predicate HoldsAll(conds: seq<Condition>, r: Row)
  {
    forall i :: 0 <= i < |conds| ==> Holds(conds[i], r)
  }

  /** Newest first. */
  predicate NewestFirst(s: seq<Row>)
  {
    forall i, j :: 0 <= i < j < |s| ==> s[j].createdAt <= s[i].createdAt
  }

  /** `r` placed in `s` before the first row that is not newer than it. */
  function InsertNewestFirst(r: Row, s: seq<Row>): (t: seq<Row>)
    requires NewestFirst(s)
    ensures NewestFirst(t)
    ensures multiset(t) == multiset(s) + multiset{r}
    ensures |t| == |s| + 1
    ensures t[0] == r || (s != [] && t[0] == s[0])
    decreases |s|
  {
    if s == [] || s[0].createdAt <= r.createdAt then [r] + s
    else
      var rest := InsertNewestFirst(r, s[1..]);
      assert s == [s[0]] + s[1..];
      [s[0]] + rest
  }

  /** `ORDER BY created_at DESC` (rows with equal time stamps in some order). */
  function SortNewestFirst(s: seq<Row>): (t: seq<Row>)
    ensures NewestFirst(t)
    ensures multiset(t) == multiset(s)
    decreases |s|
  {
    if s == [] then []
    else
      assert s == [s[0]] + s[1..];
      InsertNewestFirst(s[0], SortNewestFirst(s[1..]))
  }

  /** `LIMIT n`: SQLite takes a negative limit as no limit. */
  function Limit(s: seq<Row>, n: int): (t: seq<Row>)
    ensures |t| <= |s| && t == s[..|t|]
    ensures |t| == if n < 0 || |s| <= n then |s| else n
  {
    if n < 0 || |s| <= n then s else s[..n]
  }

  /** What the assembled `SELECT` returns. */
  function Select(rows: seq<Row>, conds: seq<Condition>, limit: int): seq<Row>
  {
    Limit(SortNewestFirst(Seqs.Filter(rows, (r: Row) => HoldsAll(conds, r))), limit)
  }

  /** The rows a `retrieve` call may return: not expired, of the type if one is given,
      and at least as important as a positive `min_importance`. */
  predicate Retrievable(r: Row, kind: Option<MemoryType>, minImportance: int, now: int)
  {
    && (r.expiresAt.None? || r.expiresAt.value > now)
    && (kind.None? || r.kind == kind.value)
    && (minImportance <= 0 || r.importance >= minImportance)
  }

  /** The conditions of `retrieve` select exactly the retrievable rows. */
  lemma ConditionsMeanRetrievable(conds: seq<Condition>, kind: Option<MemoryType>, minImportance: int,
                                  now: int, r: Row)
    requires conds == [NotExpired(now)] + (if kind.Some? then [OfType(kind.value)] else [])
                      + (if minImportance > 0 then [AtLeast(minImportance)] else [])
    ensures HoldsAll(conds, r) <==> Retrievable(r, kind, minImportance, now)
  {
    assert conds[0] == NotExpired(now);
    if kind.Some? {
      assert conds[1] == OfType(kind.value);
    }
    if minImportance > 0 {
      assert conds[|conds| - 1] == AtLeast(minImportance);
    }
  }

  /** A prefix of a newest-first ordering holds the newest rows: nothing left out is
      newer than anything kept. */
  lemma PrefixIsNewest(sorted: seq<Row>, n: int)
    requires NewestFirst(sorted)
    ensures NewestFirst(Limit(sorted, n))
    ensures multiset(Limit(sorted, n)) <= multiset(sorted)
    ensures forall j, i :: |Limit(sorted, n)| <= j < |sorted| && 0 <= i < |Limit(sorted, n)|
              ==> sorted[j].createdAt <= Limit(sorted, n)[i].createdAt
  {
    var t := Limit(sorted, n);
    assert sorted == t + sorted[|t|..];
  }

  /** Identifiers strictly increase along the table: rows sit in insertion order. */
  predicate IdsIncreasing(rows: seq<Row>)
  {
    forall i, j :: 0 <= i < j < |rows| ==> rows[i].id < rows[j].id
  }

  /** A row below every row of an increasing sequence can go in front of it. */
  lemma ConsIdsIncreasing(x: Row, rest: seq<Row>)
    requires IdsIncreasing(rest)
    requires forall k :: 0 <= k < |rest| ==> x.id < rest[k].id
    ensures IdsIncreasing([x] + rest)
  {
    var r := [x] + rest;
    forall i, j | 0 <= i < j < |r|
      ensures r[i].id < r[j].id
    {
      assert r[j] == rest[j - 1];
      if i > 0 {
        assert r[i] == rest[i - 1];
      }
    }
  }

  /** The first row's id is below the id of every row a filter keeps from the rest. */
  lemma FirstBelowFilteredRest(rows: seq<Row>, p: Row -> bool)
    requires rows != [] && IdsIncreasing(rows)
    ensures forall k :: 0 <= k < |Seqs.Filter(rows[1..], p)| ==> rows[0].id < Seqs.Filter(rows[1..], p)[k].id
  {
    var rest := Seqs.Filter(rows[1..], p);
    forall k | 0 <= k < |rest|
      ensures rows[0].id < rest[k].id
    {
      var j :| 0 <= j < |rows[1..]| && rows[1..][j] == rest[k];
      assert rows[j + 1] == rest[k];
    }
  }

  /** Deleting rows keeps the others in insertion order. */
  lemma {:induction false} FilterKeepsIdsIncreasing(rows: seq<Row>, p: Row -> bool)
    requires IdsIncreasing(rows)
    ensures IdsIncreasing(Seqs.Filter(rows, p))
    decreases |rows|
  {
    if rows != [] {
      var rest := Seqs.Filter(rows[1..], p);
      assert IdsIncreasing(rows[1..]);
      FilterKeepsIdsIncreasing(rows[1..], p);
      if p(rows[0]) {
        FirstBelowFilteredRest(rows, p);
        ConsIdsIncreasing(rows[0], rest);
        assert Seqs.Filter(rows, p) == [rows[0]] + rest;
      } else {
        assert Seqs.Filter(rows, p) == rest;
      }
    }
  }

  predicate HasId(rows: seq<Row>, id: int)
  {
    exists i :: 0 <= i < |rows| && rows[i].id == id
  }

  /** The memory store. `lastId` is the AUTOINCREMENT counter: the largest id ever
      handed out, kept when rows are deleted. */
  class MemoryManager {
    var rows: seq<Row>
    var lastId: nat

    ghost predicate Valid()
      reads this
    {
      && IdsIncreasing(rows)
      && forall i :: 0 <= i < |rows| ==> 0 < rows[i].id <= lastId
    }

    /** A manager over the database file: `CREATE TABLE IF NOT EXISTS` keeps the rows
        and the AUTOINCREMENT counter a file already holds (in id order, every id at most
        the counter), and a new file starts empty with the counter at 0. */
    constructor (existing: seq<Row> := [], counter: nat := 0)
      requires IdsIncreasing(existing)
      requires forall i :: 0 <= i < |existing| ==> 0 < existing[i].id <= counter
      ensures Valid() && rows == existing && lastId == counter
    {
      rows := existing;
      lastId := counter;
    }

    /** `store`: insert one row stamped `now` and return its new id; missing metadata
        is stored as `{}`, and importance defaults to 0. */
    method Store(now: int, content: string, kind: MemoryType, metadata: Option<Metadata> := None,
                 expiresAt: Option<int> := None, importance: int := 0)
      returns (id: int)
      requires Valid()
      modifies this
      ensures Valid()
      ensures id == old(lastId) + 1 && lastId == id
      ensures !HasId(old(rows), id)
      ensures rows == old(rows) + [Row(id, kind, content, if metadata.Some? then metadata.value else map[],
                                       now, expiresAt, importance)]
    {
      lastId := lastId + 1;
      id := lastId;
      var stored := if metadata.Some? then metadata.value else map[];
      rows := rows + [Row(id, kind, content, stored, now, expiresAt, importance)];
    }

    /** `retrieve`: the query is assembled condition by condition, then run. */
    method Retrieve(now: int, kind: Option<MemoryType> := None, limit: int := 10, minImportance: int := 0)
      returns (result: seq<Row>)
      ensures forall i :: 0 <= i < |result| ==> result[i] in rows && Retrievable(result[i], kind, minImportance, now)
      ensures NewestFirst(result)
      ensures multiset(result) <= multiset(Matching(rows, kind, minImportance, now))
      ensures var m := |Matching(rows, kind, minImportance, now)|;
              |result| == if limit < 0 || m <= limit then m else limit
      ensures forall k, i :: 0 <= k < |rows| && Retrievable(rows[k], kind, minImportance, now)
                             && rows[k] !in result && 0 <= i < |result|
                ==> rows[k].createdAt <= result[i].createdAt
    {
      var conds := [NotExpired(now)];
      if kind.Some? {
        conds := conds + [OfType(kind.value)];
      }
      if minImportance > 0 {
        conds := conds + [AtLeast(minImportance)];
      }
      result := Select(rows, conds, limit);
      SelectRetrieves(rows, conds, kind, minImportance, now, limit);
    }

    /** `delete`: true exactly when a row had the id; every other row stays, in order. */
    method Delete(id: int) returns (success: bool)
      requires Valid()
      modifies this`rows
      ensures Valid()
      ensures success == HasId(old(rows), id)
      ensures !HasId(rows, id)
      ensures rows == Seqs.Filter(old(rows), (r: Row) => r.id != id)
    {
      success := HasId(rows, id);
      rows := Seqs.Filter(rows, (r: Row) => r.id != id);
      FilterKeepsIdsIncreasing(old(rows), (r: Row) => r.id != id);
    }

    /** `clear`: with a type, remove exactly the rows of that type; without, empty the
        table. Returns how many rows were removed. */
    method Clear(kind: Option<MemoryType> := None) returns (count: int)
      requires Valid()
      modifies this`rows
      ensures Valid()
      ensures kind.None? ==> rows == [] && count == |old(rows)|
      ensures kind.Some? ==> rows == Seqs.Filter(old(rows), (r: Row) => r.kind != kind.value)
      ensures count == |old(rows)| - |rows|
      ensures count >= 0
    {
      var before := |rows|;
      if kind.Some? {
        rows := Seqs.Filter(rows, (r: Row) => r.kind != kind.value);
        FilterKeepsIdsIncreasing(old(rows), (r: Row) => r.kind != kind.value);
      } else {
        rows := [];
      }
      count := before - |rows|;
    }
  }

  /** The rows a `retrieve` call may return, in table order. */
  function Matching(rows: seq<Row>, kind: Option<MemoryType>, minImportance: int, now: int): (m: seq<Row>)
    ensures forall i :: 0 <= i < |m| ==> m[i] in rows && Retrievable(m[i], kind, minImportance, now)
    ensures forall k :: 0 <= k < |rows| && Retrievable(rows[k], kind, minImportance, now) ==> rows[k] in m
  {
    Seqs.Filter(rows, (r: Row) => Retrievable(r, kind, minImportance, now))
  }

  /** The assembled query sorts and limits exactly the retrievable rows. */
  lemma SelectIsMatching(rows: seq<Row>, conds: seq<Condition>, kind: Option<MemoryType>, minImportance: int,
                         now: int, limit: int)
    requires conds == [NotExpired(now)] + (if kind.Some? then [OfType(kind.value)] else [])
                      + (if minImportance > 0 then [AtLeast(minImportance)] else [])
    ensures Select(rows, conds, limit) == Limit(SortNewestFirst(Matching(rows, kind, minImportance, now)), limit)
  {
    var p := (r: Row) => HoldsAll(conds, r);
    var q := (r: Row) => Retrievable(r, kind, minImportance, now);
    forall i | 0 <= i < |rows| ensures p(rows[i]) == q(rows[i]) {
      ConditionsMeanRetrievable(conds, kind, minImportance, now, rows[i]);
    }
    Seqs.FilterEquivalent(rows, p, q);
  }

  /** The assembled query returns the newest retrievable rows, at most `limit` of them. */
  lemma SelectRetrieves(rows: seq<Row>, conds: seq<Condition>, kind: Option<MemoryType>, minImportance: int,
                        now: int, limit: int)
    requires conds == [NotExpired(now)] + (if kind.Some? then [OfType(kind.value)] else [])
                      + (if minImportance > 0 then [AtLeast(minImportance)] else [])
    ensures var result := Select(rows, conds, limit);
            && (forall i :: 0 <= i < |result| ==> result[i] in rows && Retrievable(result[i], kind, minImportance, now))
            && NewestFirst(result)
            && multiset(result) <= multiset(Matching(rows, kind, minImportance, now))
            && (var m := |Matching(rows, kind, minImportance, now)|;
                |result| == if limit < 0 || m <= limit then m else limit)
            && (forall k, i :: 0 <= k < |rows| && Retrievable(rows[k], kind, minImportance, now)
                               && rows[k] !in result && 0 <= i < |result|
                  ==> rows[k].createdAt <= result[i].createdAt)
  {
    var m := Matching(rows, kind, minImportance, now);
    SelectIsMatching(rows, conds, kind, minImportance, now, limit);
    NewestOf(m, limit);
    var result := Select(rows, conds, limit);
    forall k, i | 0 <= k < |rows| && Retrievable(rows[k], kind, minImportance, now)
                  && rows[k] !in result && 0 <= i < |result|
      ensures rows[k].createdAt <= result[i].createdAt
    {
      assert rows[k] in m;
      var j :| 0 <= j < |m| && m[j] == rows[k];
    }
  }

  /** Sorting newest first and keeping `limit` rows returns the newest rows of `m`: at
      most `limit` of them (all when the limit is negative), each from `m`, none newer
      left behind. */
  lemma NewestOf(m: seq<Row>, limit: int)
    ensures var result := Limit(SortNewestFirst(m), limit);
            && (forall i :: 0 <= i < |result| ==> result[i] in m)
            && NewestFirst(result)
            && multiset(result) <= multiset(m)
            && |result| == (if limit < 0 || |m| <= limit then |m| else limit)
            && (forall j, i :: 0 <= j < |m| && m[j] !in result && 0 <= i < |result|
                  ==> m[j].createdAt <= result[i].createdAt)
  {
    var sorted := SortNewestFirst(m);
    var result := Limit(sorted, limit);
    PrefixIsNewest(sorted, limit);
    forall i | 0 <= i < |result|
      ensures result[i] in m
    {
      assert result[i] in multiset(sorted);
    }
    forall j, i | 0 <= j < |m| && m[j] !in result && 0 <= i < |result|
      ensures m[j].createdAt <= result[i].createdAt
    {
      assert m[j] in multiset(sorted);
      var k :| 0 <= k < |sorted| && sorted[k] == m[j];
      assert result == sorted[..|result|];
      assert |result| <= k;
    }
  }

  /** A row stored and not yet expired is found by a retrieve of its type with no limit,
      provided it is important enough. */
  lemma StoredRowIsRetrievable(r: Row, now: int, minImportance: int)
    requires r.expiresAt.None? || r.expiresAt.value > now
    requires minImportance <= r.importance
    ensures Retrievable(r, Some(r.kind), minImportance, now)
  {
  }

  /** The module's scenario: two stores get consecutive fresh ids, deleting one of them
      succeeds once and keeps the other, and clearing everything returns the count. */
  method StoreDeleteClearScenario(t: int)
  {
    var mm := new MemoryManager();
    var a := mm.Store(t, "\"hello\"", CONVERSATION);
    var b := mm.Store(t + 1, "\"fact\"", FACT, Some(map["k" := "v"]), None, 5);
    assert a == 1 && b == 2;
    assert mm.rows[0].metadata == map[] && mm.rows[0].importance == 0;
    var found := mm.Retrieve(t, Some(FACT), 10, 5);
    assert Seqs.Filter(mm.rows, (r: Row) => Retrievable(r, Some(FACT), 5, t)) == [mm.rows[1]] by {
      assert !Retrievable(mm.rows[0], Some(FACT), 5, t);
      assert mm.rows[1..] == [mm.rows[1]];
      assert mm.rows[1..][1..] == [];
    }
    assert |found| == 1 && found[0] == mm.rows[1];
    assert HasId(mm.rows, a) by { assert mm.rows[0].id == a; }
    var gone := mm.Delete(a);
    assert gone;
    var again := mm.Delete(a);
    assert !again;
    var count := mm.Clear();
    assert mm.rows == [];
  }
}
