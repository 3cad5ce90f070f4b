/** The tables one batch is written to, and the transaction that writes it. */
module Persistence {
  import opened Prelude
  import opened Transactions

  type ImportId = string

  datatype RiskLevel = Low | Medium | High
  datatype Assessment = Assessment(score: real, level: RiskLevel)
  datatype Scored = Scored(transaction: Transaction, fingerprint: string, assessment: Assessment)
  datatype Rejected = Rejected(lineNumber: nat, errorCode: string, message: string, rawValue: string)
  datatype Batch = Batch(importId: ImportId, scored: seq<Scored>, rejected: seq<Rejected>, processedDelta: nat)
  datatype PersistResult = PersistResult(inserted: nat, duplicates: nat, rejected: nat)

  // UNIQUE (provider, transactionId)
  datatype Key = Key(provider: string, transactionId: string)
  datatype Row = Row(importId: ImportId, content: Scored)
  datatype RejectedRow = RejectedRow(importId: ImportId, record: Rejected)
  datatype Counters = Counters(processed: nat, accepted: nat, duplicate: nat, rejected: nat)
  type Table = map<Key, Row>
  datatype Db = Db(transactions: Table, rejected: seq<RejectedRow>, imports: map<ImportId, Counters>)

  function KeyOf(s: Scored): Key { Key(s.transaction.provider, s.transaction.transactionId) }

  // INSERT ... ON CONFLICT (provider, transactionId) DO NOTHING, row by row.
  function InsertOne(t: Table, id: ImportId, s: Scored): Table {
    if KeyOf(s) in t then t else t[KeyOf(s) := Row(id, s)]
  }

  function InsertOrSkip(t: Table, id: ImportId, rows: seq<Scored>): Table
    decreases rows
  {
    if rows == [] then t else InsertOrSkip(InsertOne(t, id, rows[0]), id, rows[1..])
  }

  function RejectedRows(id: ImportId, rejected: seq<Rejected>): seq<RejectedRow> {
    seq(|rejected|, i requires 0 <= i < |rejected| => RejectedRow(id, rejected[i]))
  }

  // The whole transaction; a batch for an import that has no row is rolled back.
  function Persist(db: Db, batch: Batch): Db {
    if batch.importId !in db.imports then db else
      var t := InsertOrSkip(db.transactions, batch.importId, batch.scored);
      var inserted := |t| - |db.transactions|;
      InsertGrows(db.transactions, batch.importId, batch.scored);
      var c := db.imports[batch.importId];
      Db(t, db.rejected + RejectedRows(batch.importId, batch.rejected),
         db.imports[batch.importId := Counters(
           c.processed + batch.processedDelta, c.accepted + inserted,
           c.duplicate + |batch.scored| - inserted, c.rejected + |batch.rejected|)])
  }

  class TransactionRepository {
    var transactions: Table
    var rejectedRecords: seq<RejectedRow>
    var imports: map<ImportId, Counters>

    function State(): Db
      reads this
    {
      Db(transactions, rejectedRecords, imports)
    }

    // One database transaction: all of the batch and its counters, or nothing.
    method PersistBatch(batch: Batch) returns (result: Option<PersistResult>)
      modifies this
      ensures State() == Persist(old(State()), batch)
      ensures result.None? <==> batch.importId !in old(imports)
      ensures result.None? ==> State() == old(State())
      ensures result.Some? ==>
                && result.value.inserted == |transactions| - |old(transactions)|
                && result.value.inserted + result.value.duplicates == |batch.scored|
                && result.value.rejected == |batch.rejected|
    {
      if batch.importId !in imports { return None; }
      ghost var before := transactions;
      var insertedCount := 0;
      for i := 0 to |batch.scored|
        invariant InsertOrSkip(transactions, batch.importId, batch.scored[i..])
               == InsertOrSkip(before, batch.importId, batch.scored)
        invariant 0 <= insertedCount <= i && |transactions| == |before| + insertedCount
        invariant imports == old(imports) && rejectedRecords == old(rejectedRecords)
      {
        var s := batch.scored[i];
        assert batch.scored[i..][1..] == batch.scored[i + 1..];
        if KeyOf(s) !in transactions {
          transactions := transactions[KeyOf(s) := Row(batch.importId, s)];
          insertedCount := insertedCount + 1;
        }
      }
      var duplicateCount := |batch.scored| - insertedCount;
      rejectedRecords := rejectedRecords + RejectedRows(batch.importId, batch.rejected);
      var c := imports[batch.importId];
      imports := imports[batch.importId := Counters(
        c.processed + batch.processedDelta, c.accepted + insertedCount,
        c.duplicate + duplicateCount, c.rejected + |batch.rejected|)];
      result := Some(PersistResult(insertedCount, duplicateCount, |batch.rejected|));
    }
  }

  // ---- First write wins

  ghost predicate Extends(t: Table, u: Table) { forall k :: k in t ==> k in u && u[k] == t[k] }

  predicate Covers(t: Table, rows: seq<Scored>) { forall i :: 0 <= i < |rows| ==> KeyOf(rows[i]) in t }

  lemma {:induction false} InsertGrows(t: Table, id: ImportId, rows: seq<Scored>)
    ensures var u := InsertOrSkip(t, id, rows); Extends(t, u) && Covers(u, rows) && |t| <= |u| <= |t| + |rows|
    decreases rows
  {
    if rows != [] {
      InsertGrows(InsertOne(t, id, rows[0]), id, rows[1..]);
      assert forall i :: 0 < i < |rows| ==> rows[i] == rows[1..][i - 1];
    }
  }

  lemma {:induction false} InsertAppend(t: Table, id: ImportId, a: seq<Scored>, b: seq<Scored>)
    ensures InsertOrSkip(t, id, a + b) == InsertOrSkip(InsertOrSkip(t, id, a), id, b)
    decreases a
  {
    if a == [] {
      assert a + b == b;
    } else {
      InsertAppend(InsertOne(t, id, a[0]), id, a[1..], b);
      assert (a + b)[1..] == a[1..] + b;
    }
  }

  lemma {:induction false} InsertCovered(t: Table, id: ImportId, rows: seq<Scored>)
    requires Covers(t, rows)
    ensures InsertOrSkip(t, id, rows) == t
  {
    if rows != [] {
      assert forall i :: 0 < i < |rows| ==> rows[i] == rows[1..][i - 1];
      InsertCovered(t, id, rows[1..]);
    }
  }

  // What has been written in the middle changes nothing when it is written again.
  lemma InsertAgain(t: Table, id: ImportId, a: seq<Scored>, b: seq<Scored>, c: seq<Scored>)
    ensures InsertOrSkip(InsertOrSkip(t, id, a + b + c), id, b) == InsertOrSkip(t, id, a + b + c)
  {
    var rows := a + b + c;
    InsertGrows(t, id, rows);
    assert forall i :: 0 <= i < |b| ==> b[i] == rows[|a| + i];
    InsertCovered(InsertOrSkip(t, id, rows), id, b);
  }

  lemma InsertOn(t: Table, id: ImportId, a: seq<Scored>, b: seq<Scored>, c: seq<Scored>)
    ensures InsertOrSkip(InsertOrSkip(t, id, a + b), id, b + c) == InsertOrSkip(t, id, (a + b) + c)
  {
    InsertAgain(t, id, a, b, []);
    assert a + b + [] == a + b;
    InsertAppend(InsertOrSkip(t, id, a + b), id, b, c);
    InsertAppend(t, id, a + b, c);
  }

  // Writing again what a prefix has already written, or anything it overlaps, continues the prefix.
  lemma InsertOverlap(t: Table, id: ImportId, rows: seq<Scored>, high: nat, from: nat, to: nat)
    requires from <= high <= |rows| && from <= to <= |rows|
    ensures InsertOrSkip(InsertOrSkip(t, id, rows[..high]), id, rows[from..to])
         == InsertOrSkip(t, id, rows[..Max(high, to)])
  {
    var seen := Min(high, to);
    var a, b := rows[..from], rows[from..seen];
    if to <= high {
      InsertAgain(t, id, a, b, rows[to..high]);
      assert rows[..high] == a + b + rows[to..high];
    } else {
      InsertOn(t, id, a, b, rows[high..to]);
      assert rows[..high] == a + b;
      assert rows[from..to] == b + rows[high..to];
      assert rows[..to] == (a + b) + rows[high..to];
    }
  }

  function FirstIndex(rows: seq<Scored>, k: Key): (i: nat)
    ensures i <= |rows|
    ensures i < |rows| ==> KeyOf(rows[i]) == k
    ensures forall j :: 0 <= j < i ==> KeyOf(rows[j]) != k
  {
    if rows == [] then 0 else if KeyOf(rows[0]) == k then 0
    else
      var i := FirstIndex(rows[1..], k);
      assert forall j :: 0 < j < i + 1 ==> rows[j] == rows[1..][j - 1];
      i + 1
  }

  // The table after a pass: stored keys are untouched, every other key holds its first occurrence.
  lemma {:induction false} FirstWriteWins(t: Table, id: ImportId, rows: seq<Scored>, k: Key)
    ensures var u := InsertOrSkip(t, id, rows);
            && (k in u <==> k in t || FirstIndex(rows, k) < |rows|)
            && (k in u ==> u[k] == if k in t then t[k] else Row(id, rows[FirstIndex(rows, k)]))
    decreases rows
  {
    if rows != [] {
      FirstWriteWins(InsertOne(t, id, rows[0]), id, rows[1..], k);
    }
  }

  // ---- Counters

  function Owned(t: Table, id: ImportId): set<Key> { set k | k in t && t[k].importId == id }

  function CountRejected(rows: seq<RejectedRow>, id: ImportId): nat {
    if rows == [] then 0 else CountRejected(rows[..|rows| - 1], id) + if rows[|rows| - 1].importId == id then 1 else 0
  }

  lemma OwnedAfterOne(t: Table, id: ImportId, row: Scored, other: ImportId)
    ensures var u := InsertOne(t, id, row);
            |Owned(u, other)| == |Owned(t, other)| + if other == id then |u| - |t| else 0
  {
    if KeyOf(row) !in t { OwnedAfterPut(t, KeyOf(row), Row(id, row), other); }
  }

  lemma OwnedAfterPut(t: Table, k: Key, row: Row, other: ImportId)
    requires k !in t
    ensures |t[k := row]| == |t| + 1
    ensures |Owned(t[k := row], other)| == |Owned(t, other)| + if other == row.importId then 1 else 0
  {
    var keep := (r: Row) => r.importId == other;
    KeysAfterPut(t, k, row);
    SelectedAfterPut(t, k, row, keep);
    assert Owned(t, other) == Selected(t, keep) && k !in Owned(t, other);
    assert Owned(t[k := row], other) == Selected(t[k := row], keep);
  }

  function Selected<K(==), V(!new)>(m: map<K, V>, keep: V -> bool): set<K> { set k | k in m && keep(m[k]) }

  lemma SelectedAfterPut<K, V(!new)>(m: map<K, V>, k: K, v: V, keep: V -> bool)
    requires k !in m
    ensures Selected(m[k := v], keep) == Selected(m, keep) + (if keep(v) then {k} else {})
  {}

  lemma KeysAfterPut<K, V>(m: map<K, V>, k: K, v: V)
    requires k !in m
    ensures |m[k := v]| == |m| + 1
  {
    assert m[k := v].Keys == m.Keys + {k};
  }

  lemma {:induction false} OwnedAfterInsert(t: Table, id: ImportId, rows: seq<Scored>, other: ImportId)
    ensures |Owned(InsertOrSkip(t, id, rows), other)|
         == |Owned(t, other)| + if other == id then |InsertOrSkip(t, id, rows)| - |t| else 0
    decreases rows
  {
    if rows != [] {
      OwnedAfterOne(t, id, rows[0], other);
      OwnedAfterInsert(InsertOne(t, id, rows[0]), id, rows[1..], other);
    }
  }

  lemma {:induction false} RejectedAfterAppend(rows: seq<RejectedRow>, id: ImportId, more: seq<Rejected>,
                                               other: ImportId)
    ensures CountRejected(rows + RejectedRows(id, more), other)
         == CountRejected(rows, other) + if other == id then |more| else 0
  {
    if more == [] {
      assert rows + RejectedRows(id, more) == rows;
    } else {
      var front := more[..|more| - 1];
      RejectedAfterAppend(rows, id, front, other);
      var all := rows + RejectedRows(id, more);
      assert all[..|all| - 1] == rows + RejectedRows(id, front);
    }
  }

  ghost predicate Reconciled(db: Db) {
    && (forall k :: k in db.transactions ==> db.transactions[k].importId in db.imports)
    && (forall r :: r in db.rejected ==> r.importId in db.imports)
    && forall id :: id in db.imports ==> CountersReconciled(db, id)
  }

  predicate CountersReconciled(db: Db, id: ImportId)
    requires id in db.imports
  {
    var c := db.imports[id];
    c.processed == c.accepted + c.duplicate + c.rejected
    && c.accepted == |Owned(db.transactions, id)|
    && c.rejected == CountRejected(db.rejected, id)
  }

  // Every batch the pipeline hands over counts each of its records once.
  predicate WellCounted(b: Batch) { b.processedDelta == |b.scored| + |b.rejected| }

  lemma PersistReconciles(db: Db, batch: Batch)
    requires Reconciled(db) && WellCounted(batch)
    ensures Reconciled(Persist(db, batch))
  {
    if batch.importId in db.imports {
      var after := Persist(db, batch);
      InsertGrows(db.transactions, batch.importId, batch.scored);
      forall id | id in after.imports ensures CountersReconciled(after, id) {
        OwnedAfterInsert(db.transactions, batch.importId, batch.scored, id);
        RejectedAfterAppend(db.rejected, batch.importId, batch.rejected, id);
        assert CountersReconciled(db, id);
      }
      forall k | k in after.transactions ensures after.transactions[k].importId in after.imports {
        FirstWriteWins(db.transactions, batch.importId, batch.scored, k);
      }
    }
  }

  // What a batch writes is there afterwards, and nothing that was there is changed.
  lemma PersistKeeps(db: Db, batch: Batch)
    ensures Extends(db.transactions, Persist(db, batch).transactions)
    ensures db.rejected <= Persist(db, batch).rejected
    ensures Persist(db, batch).imports.Keys == db.imports.Keys
    ensures batch.importId in db.imports ==>
              && Covers(Persist(db, batch).transactions, batch.scored)
              && forall i :: 0 <= i < |batch.rejected| ==>
                   RejectedRow(batch.importId, batch.rejected[i]) in Persist(db, batch).rejected
  {
    InsertGrows(db.transactions, batch.importId, batch.scored);
    if batch.importId in db.imports {
      forall i | 0 <= i < |batch.rejected|
        ensures RejectedRow(batch.importId, batch.rejected[i]) in Persist(db, batch).rejected
      {
        assert Persist(db, batch).rejected[|db.rejected| + i] == RejectedRow(batch.importId, batch.rejected[i]);
      }
    }
  }
}
