/** Reprocessing is harmless: however passes overlap, crash and repeat, a completed file is stored as by one. */
module Confluence {
  import opened Prelude
  import opened Persistence
  import opened Batching
  import opened Classification
  import opened Passes

  // The tables hold what was there plus the first `high` records of the file, first write winning.
  ghost predicate Reached(w: World, id: ImportId, start: Db, db: Db, high: nat) {
    && id in w && high <= |FileRecords(w, id)|
    && db.transactions == InsertOrSkip(start.transactions, id, RowsOf(w[id].pipeline, FileRecords(w, id)[..high]))
    && forall row :: row in db.rejected <==>
         row in start.rejected || (row.importId == id && Bad(row.record) in FileRecords(w, id)[..high])
  }

  // Where the batch a pass is working on starts and ends in the file.
  function Offset(q: Pass, i: nat): nat
    requires i <= |q.plan|
  {
    |Flatten(q.plan[..i])|
  }

  lemma BatchIsSlice(w: World, q: Pass, i: nat)
    requires PassOk(w, q) && i < |q.plan|
    ensures Offset(q, i) <= Offset(q, i + 1) <= |FileRecords(w, q.importId)|
    ensures q.plan[i] == FileRecords(w, q.importId)[Offset(q, i)..Offset(q, i + 1)]
  {
    FlattenTake(q.plan, i);
    FlattenAll(q.plan, i + 1);
    var before, upto, all := Flatten(q.plan[..i]), Flatten(q.plan[..i + 1]), FileRecords(w, q.importId);
    assert upto == before + q.plan[i];
    assert upto == all[..|upto|];
    assert q.plan[i] == upto[|before|..];
  }

  lemma RowsOfSlice(p: Pipeline, rs: seq<Record>, from: nat, to: nat)
    requires from <= to <= |rs|
    ensures var rows, m, n := RowsOf(p, rs), |RowsOf(p, rs[..from])|, |RowsOf(p, rs[..to])|;
            && m <= n <= |rows| && RowsOf(p, rs[..to]) == rows[..n] && RowsOf(p, rs[from..to]) == rows[m..n]
  {
    assert rs == rs[..to] + rs[to..];
    RowsAppend(p, rs[..to], rs[to..]);
    assert rs[..to] == rs[..from] + rs[from..to];
    RowsAppend(p, rs[..from], rs[from..to]);
    var a, b, c := RowsOf(p, rs[..from]), RowsOf(p, rs[from..to]), RowsOf(p, rs[to..]);
    assert RowsOf(p, rs) == (a + b) + c;
    assert ((a + b) + c)[|a|..|a + b|] == b;
  }

  // Committing a slice that starts at or below the high-water mark moves the mark to its end.
  lemma SliceReaches(w: World, id: ImportId, start: Db, db: Db, high: nat, from: nat, to: nat, batch: Batch)
    requires Reached(w, id, start, db, high) && from <= to <= |FileRecords(w, id)| && from <= high && id in db.imports
    requires batch == ToBatch(w[id].pipeline, id, FileRecords(w, id)[from..to])
    ensures Reached(w, id, start, Persist(db, batch), Max(high, to))
  {
    var p, rs, top := w[id].pipeline, FileRecords(w, id), Max(high, to);
    var rows := RowsOf(p, rs);
    RowsOfSlice(p, rs, from, to);
    RowsOfSlice(p, rs, from, high);
    RowsOfSlice(p, rs, Min(high, to), top);
    var h, m, n := |RowsOf(p, rs[..high])|, |RowsOf(p, rs[..from])|, |RowsOf(p, rs[..to])|;
    InsertOverlap(start.transactions, id, rows, h, m, n);
    assert RowsOf(p, rs[..top]) == rows[..Max(h, n)];
    RejectedReach(db, batch, rs, high, from, to);
  }

  lemma RejectedReach(db: Db, batch: Batch, rs: seq<Record>, high: nat, from: nat, to: nat)
    requires from <= high <= |rs| && from <= to <= |rs| && batch.importId in db.imports
    requires batch.rejected == RejectedOf(rs[from..to])
    ensures forall row :: row in Persist(db, batch).rejected <==>
              row in db.rejected || (row.importId == batch.importId && Bad(row.record) in rs[from..to])
    ensures forall r :: r in rs[..Max(high, to)] <==> r in rs[..high] || r in rs[from..to]
  {
    var more := RejectedRows(batch.importId, batch.rejected);
    assert Persist(db, batch).rejected == db.rejected + more;
    forall row
      ensures row in more <==> row.importId == batch.importId && Bad(row.record) in rs[from..to]
    {
      RejectedOfIn(rs[from..to], row.record);
      if row.importId == batch.importId && row.record in batch.rejected {
        var k :| 0 <= k < |batch.rejected| && batch.rejected[k] == row.record;
        assert more[k] == row;
      }
    }
    if high < to {
      assert rs[..to] == rs[..high] + rs[high..to] && rs[from..to] == rs[from..high] + rs[high..to];
      assert forall r :: r in rs[from..high] ==> r in rs[..high];
    } else {
      assert forall r :: r in rs[from..to] ==> r in rs[..high];
    }
  }

  // ---- One uninterrupted pass

  function PersistAll(db: Db, batches: seq<Batch>): Db {
    if batches == [] then db else Persist(PersistAll(db, batches[..|batches| - 1]), batches[|batches| - 1])
  }

  function CleanPass(w: World, db: Db, id: ImportId, batchSize: int): Db
    requires id in w
  {
    PersistAll(db, Batches(w[id].pipeline, id, Plan(w[id].pipeline, batchSize, w[id].lines)))
  }

  lemma PersistOneMore(p: Pipeline, id: ImportId, db: Db, plan: seq<seq<Record>>, n: nat)
    requires n < |plan|
    ensures PersistAll(db, Batches(p, id, plan[..n + 1]))
         == Persist(PersistAll(db, Batches(p, id, plan[..n])), ToBatch(p, id, plan[n]))
  {
    assert Batches(p, id, plan[..n + 1])[..n] == Batches(p, id, plan[..n]);
  }

  lemma OneMoreReaches(w: World, q: Pass, start: Db, db: Db, i: nat)
    requires PassOk(w, q) && i < |q.plan| && q.importId in db.imports
    requires Reached(w, q.importId, start, db, Offset(q, i))
    ensures var after := Persist(db, BatchOf(w, q, i));
            q.importId in after.imports && Reached(w, q.importId, start, after, Offset(q, i + 1))
  {
    BatchIsSlice(w, q, i);
    SliceReaches(w, q.importId, start, db, Offset(q, i), Offset(q, i), Offset(q, i + 1), BatchOf(w, q, i));
    PersistKeeps(db, BatchOf(w, q, i));
  }

  lemma {:induction false} PlanReaches(w: World, q: Pass, start: Db, i: nat)
    requires PassOk(w, q) && i <= |q.plan| && q.importId in start.imports
    ensures var db := PersistAll(start, Batches(w[q.importId].pipeline, q.importId, q.plan[..i]));
            q.importId in db.imports && Reached(w, q.importId, start, db, Offset(q, i))
  {
    var p, id := w[q.importId].pipeline, q.importId;
    if i == 0 {
      assert FileRecords(w, id)[..0] == [];
      assert RowsOf(p, []) == [];
    } else {
      PlanReaches(w, q, start, i - 1);
      OneMoreReaches(w, q, start, PersistAll(start, Batches(p, id, q.plan[..i - 1])), i - 1);
      PersistOneMore(p, id, start, q.plan, i - 1);
    }
  }

  lemma CleanPassReachesEnd(w: World, start: Db, id: ImportId, batchSize: int)
    requires id in w && id in start.imports
    ensures Reached(w, id, start, CleanPass(w, start, id, batchSize), |FileRecords(w, id)|)
  {
    PlanIsPrefix(w, id, batchSize, None);
    var q := Pass(id, PlanOf(w, id, batchSize, None), true, 0, false, true);
    PlanReaches(w, q, start, |q.plan|);
    assert q.plan[..|q.plan|] == q.plan;
  }

  // ---- Any run in which only this import is worked on

  ghost predicate PassBelow(w: World, id: ImportId, q: Pass, high: nat) {
    && PassOk(w, q) && q.importId == id
    && Offset(q, q.next) <= high
    && (q.committed ==> Offset(q, q.next + 1) <= high)
  }

  ghost predicate AllBelow(w: World, id: ImportId, passes: seq<Pass>, high: nat) {
    forall p :: 0 <= p < |passes| ==> PassBelow(w, id, passes[p], high)
  }

  ghost predicate Under(w: World, id: ImportId, start: Db, s: State, high: nat) {
    && Reached(w, id, start, s.db, high) && id in s.db.imports
    && AllBelow(w, id, s.passes, high)
    && (id in s.completed ==> high == |FileRecords(w, id)|)
  }

  lemma CommitReaches(w: World, id: ImportId, start: Db, db: Db, q: Pass, i: nat, high: nat)
    requires Reached(w, id, start, db, high) && id in db.imports
    requires PassBelow(w, id, q, high) && i <= q.next && i < |q.plan|
    ensures Offset(q, i + 1) <= |FileRecords(w, id)|
    ensures Reached(w, id, start, Persist(db, BatchOf(w, q, i)), Max(high, Offset(q, i + 1)))
  {
    BatchIsSlice(w, q, i);
    FlattenPrefix(q.plan, i, q.next);
    SliceReaches(w, id, start, db, high, Offset(q, i), Offset(q, i + 1), BatchOf(w, q, i));
  }

  lemma CommitBelow(w: World, id: ImportId, passes: seq<Pass>, p: nat, i: nat, high: nat)
    requires AllBelow(w, id, passes, high) && p < |passes| && i <= passes[p].next && i < |passes[p].plan|
    ensures var q := passes[p];
            AllBelow(w, id, passes[p := q.(committed := q.committed || i == q.next)], Max(high, Offset(q, i + 1)))
  {
    assert forall k :: 0 <= k < |passes| ==> PassBelow(w, id, passes[k], high);
  }

  lemma CommitUnder(w: World, id: ImportId, start: Db, s: State, p: nat, i: nat, high: nat)
    requires Under(w, id, start, s, high) && Enabled(w, s, Commit(p, i))
    ensures Under(w, id, start, Next(w, s, Commit(p, i)), Max(high, Offset(s.passes[p], i + 1)))
  {
    var q := s.passes[p];
    assert PassBelow(w, id, q, high);
    CommitReaches(w, id, start, s.db, q, i, high);
    PersistKeeps(s.db, BatchOf(w, q, i));
    CommitBelow(w, id, s.passes, p, i, high);
  }

  lemma OtherStepBelow(w: World, id: ImportId, s: State, e: Event, high: nat)
    requires AllBelow(w, id, s.passes, high) && Enabled(w, s, e) && (e.Claim? ==> e.id == id) && !e.Commit?
    ensures AllBelow(w, id, Next(w, s, e).passes, high)
    ensures e.Complete? ==> high >= |FileRecords(w, id)|
  {
    var t := Next(w, s, e);
    match e
    case Create(_) =>
    case Claim(_, size, stop) =>
      PlanIsPrefix(w, id, size, stop);
      assert Flatten(t.passes[|s.passes|].plan[..0]) == [];
    case Acknowledge(p) => assert PassBelow(w, id, s.passes[p], high);
    case Crash(p) => assert PassBelow(w, id, s.passes[p], high);
    case Complete(p) =>
      assert PassBelow(w, id, s.passes[p], high);
      assert s.passes[p].plan[..s.passes[p].next] == s.passes[p].plan;
  }

  lemma OtherStepUnder(w: World, id: ImportId, start: Db, s: State, e: Event, high: nat)
    requires Under(w, id, start, s, high) && Enabled(w, s, e) && (e.Claim? ==> e.id == id) && !e.Commit?
    ensures Under(w, id, start, Next(w, s, e), high)
  {
    OtherStepBelow(w, id, s, e, high);
    var db := DbAfter(w, s, e);
    assert db.transactions == s.db.transactions && db.rejected == s.db.rejected && id in db.imports;
    assert Reached(w, id, start, db, high);
  }

  lemma StepUnder(w: World, id: ImportId, start: Db, s: State, e: Event, high: nat) returns (top: nat)
    requires Under(w, id, start, s, high) && Enabled(w, s, e) && (e.Claim? ==> e.id == id)
    ensures Under(w, id, start, Next(w, s, e), top)
  {
    top := high;
    if e.Commit? {
      CommitUnder(w, id, start, s, e.pass, e.batch, high);
      top := Max(high, Offset(s.passes[e.pass], e.batch + 1));
    } else {
      OtherStepUnder(w, id, start, s, e, high);
    }
  }

  ghost predicate OnlyImport(es: seq<Event>, id: ImportId) {
    forall i :: 0 <= i < |es| && es[i].Claim? ==> es[i].id == id
  }

  lemma {:induction false} RunUnder(w: World, id: ImportId, start: Db, s: State, es: seq<Event>, high: nat)
    returns (top: nat)
    requires Under(w, id, start, s, high) && ValidRun(w, s, es) && OnlyImport(es, id)
    ensures Under(w, id, start, Run(w, s, es), top)
    decreases |es|
  {
    if es == [] { return high; }
    assert es[0] == es[0];   // names es[0], so that OnlyImport applies to it
    var mid := StepUnder(w, id, start, s, es[0], high);
    assert forall i :: 0 <= i < |es[1..]| ==> es[1..][i] == es[i + 1];
    top := RunUnder(w, id, start, Next(w, s, es[0]), es[1..], mid);
  }

  // However often and however partially the file was passed over, once some pass completed it the
  // tables equal those of one clean pass with any batch size: the same rows under the same keys,
  // and the same set of rejected records.
  lemma ReprocessingIsConfluent(w: World, s: State, es: seq<Event>, id: ImportId, batchSize: int)
    requires id in w && id in s.db.imports && s.passes == [] && id !in s.completed
    requires ValidRun(w, s, es) && OnlyImport(es, id) && id in Run(w, s, es).completed
    ensures var db, clean := Run(w, s, es).db, CleanPass(w, s.db, id, batchSize);
            && db.transactions == clean.transactions
            && forall row :: row in db.rejected <==> row in clean.rejected
  {
    assert FileRecords(w, id)[..0] == [];
    assert RowsOf(w[id].pipeline, []) == [];
    var top := RunUnder(w, id, s.db, s, es, 0);
    CleanPassReachesEnd(w, s.db, id, batchSize);
  }

  // What that table holds: stored keys are untouched, any other key has its first occurrence in the file.
  lemma CompletedContent(w: World, s: State, es: seq<Event>, id: ImportId, k: Key)
    requires id in w && id in s.db.imports && s.passes == [] && id !in s.completed
    requires ValidRun(w, s, es) && OnlyImport(es, id) && id in Run(w, s, es).completed
    ensures var table, rows := Run(w, s, es).db.transactions, RowsOf(w[id].pipeline, FileRecords(w, id));
            && (k in table <==> k in s.db.transactions || FirstIndex(rows, k) < |rows|)
            && (k in table ==>
                  table[k] == if k in s.db.transactions then s.db.transactions[k]
                              else Row(id, rows[FirstIndex(rows, k)]))
  {
    ReprocessingIsConfluent(w, s, es, id, 1);
    CleanPassReachesEnd(w, s.db, id, 1);
    var rs := FileRecords(w, id);
    assert rs[..|rs|] == rs;
    FirstWriteWins(s.db.transactions, id, RowsOf(w[id].pipeline, rs), k);
  }

  // Told by the lines of the file: any key that was not stored before is stored exactly if some accepted line has
  // it, as the row of the first such line; and the import's new rejected rows are those of its rejected lines.
  lemma CompletedFile(w: World, s: State, es: seq<Event>, id: ImportId, k: Key)
    requires id in w && id in s.db.imports && s.passes == [] && id !in s.completed
    requires ValidRun(w, s, es) && OnlyImport(es, id) && id in Run(w, s, es).completed
    ensures var table, p, lines := Run(w, s, es).db.transactions, w[id].pipeline, w[id].lines;
            && (k in s.db.transactions ==> k in table && table[k] == s.db.transactions[k])
            && (k !in s.db.transactions ==> (k in table <==> exists n, t :: LineHas(p, lines, n, t, k)))
            && (forall n, t :: k !in s.db.transactions && LineHas(p, lines, n, t, k)
                               && (forall m, u :: m < n ==> !LineHas(p, lines, m, u, k)) ==>
                  k in table && table[k] == Row(id, RowFor(p, t)))
    ensures var rejected, p, lines := Run(w, s, es).db.rejected, w[id].pipeline, w[id].lines;
            && (forall row :: row in rejected && row !in s.db.rejected ==>
                  row.importId == id && exists n :: DescribesAt(p, lines, n, Bad(row.record)))
            && (forall row :: row in s.db.rejected ==> row in rejected)
  {
    CompletedContent(w, s, es, id, k);
    FirstRowIsFirstLine(w[id].pipeline, w[id].lines, k);
    ReprocessingIsConfluent(w, s, es, id, 1);
    CleanPassReachesEnd(w, s.db, id, 1);
    var rs := FileRecords(w, id);
    assert rs[..|rs|] == rs;
    forall row | row in Run(w, s, es).db.rejected && row !in s.db.rejected
      ensures row.importId == id && exists n :: DescribesAt(w[id].pipeline, w[id].lines, n, Bad(row.record))
    {
      var n := LineOfRecord(w[id].pipeline, w[id].lines, Bad(row.record));
    }
  }

  // ---- One execution of the batching loop is a run of this system

  // The claim, then each of the first n batches handed over, stored and acknowledged in order.
  function Drive(k: nat, n: nat): seq<Event> {
    if n == 0 then [] else Drive(k, n - 1) + [Commit(k, n - 1), Acknowledge(k)]
  }

  lemma {:induction false} RunAppend(w: World, s: State, a: seq<Event>, b: seq<Event>)
    requires ValidRun(w, s, a) && ValidRun(w, Run(w, s, a), b)
    ensures ValidRun(w, s, a + b) && Run(w, s, a + b) == Run(w, Run(w, s, a), b)
    decreases |a|
  {
    if a == [] {
      assert a + b == b;
    } else {
      var ab := a + b;
      assert ab[0] == a[0] && ab[1..] == a[1..] + b;
      RunAppend(w, Next(w, s, a[0]), a[1..], b);
    }
  }

  lemma OneStep(w: World, s: State, e: Event)
    requires Enabled(w, s, e)
    ensures ValidRun(w, s, [e]) && Run(w, s, [e]) == Next(w, s, e)
  {
    var t := Next(w, s, e);
    assert [e][1..] == [];
    assert ValidRun(w, t, []) && Run(w, t, []) == t;
  }

  lemma TwoSteps(w: World, s: State, e: Event, f: Event)
    requires Enabled(w, s, e) && Enabled(w, Next(w, s, e), f)
    ensures ValidRun(w, s, [e, f]) && Run(w, s, [e, f]) == Next(w, Next(w, s, e), f)
  {
    var t := Next(w, s, e);
    OneStep(w, t, f);
    assert [e, f][1..] == [f];
  }

  // The state after the first n batches of pass k.
  function Driven(w: World, s: State, k: nat, n: nat): State
    requires k < |s.passes| && s.passes[k].importId in w && n <= |s.passes[k].plan|
  {
    var q := s.passes[k];
    s.(db := PersistAll(s.db, Batches(w[q.importId].pipeline, q.importId, q.plan[..n])),
       passes := s.passes[k := q.(next := n)])
  }

  lemma DriveStep(w: World, s: State, k: nat, n: nat)
    requires k < |s.passes| && s.passes[k].importId in w && n < |s.passes[k].plan|
    requires !s.passes[k].committed && s.passes[k].running
    ensures var m := Driven(w, s, k, n);
            && Enabled(w, m, Commit(k, n)) && Enabled(w, Next(w, m, Commit(k, n)), Acknowledge(k))
            && Next(w, Next(w, m, Commit(k, n)), Acknowledge(k)) == Driven(w, s, k, n + 1)
  {
    var q, m := s.passes[k], Driven(w, s, k, n);
    PersistOneMore(w[q.importId].pipeline, q.importId, s.db, q.plan, n);
    assert m.passes[k] == q.(next := n);
    var c := Next(w, m, Commit(k, n));
    assert c.passes == s.passes[k := q.(next := n, committed := true)];
  }

  lemma DriveOn(w: World, s: State, m: State, es: seq<Event>, e: Event, f: Event)
    requires ValidRun(w, s, es) && Run(w, s, es) == m && Enabled(w, m, e) && Enabled(w, Next(w, m, e), f)
    ensures ValidRun(w, s, es + [e, f]) && Run(w, s, es + [e, f]) == Next(w, Next(w, m, e), f)
  {
    TwoSteps(w, m, e, f);
    RunAppend(w, s, es, [e, f]);
  }

  // One more commit, of which the pass has not heard yet.
  lemma LastCommit(w: World, s: State, k: nat, n: nat)
    requires k < |s.passes| && s.passes[k].importId in w && n < |s.passes[k].plan|
    requires !s.passes[k].committed && s.passes[k].running
    ensures var m, q := Driven(w, s, k, n), s.passes[k];
            && ValidRun(w, m, [Commit(k, n)])
            && Run(w, m, [Commit(k, n)]).db
               == PersistAll(s.db, Batches(w[q.importId].pipeline, q.importId, q.plan[..n + 1]))
            && k < |Run(w, m, [Commit(k, n)]).passes| && Run(w, m, [Commit(k, n)]).passes[k].next == n
            && Run(w, m, [Commit(k, n)]).passes[k].plan == q.plan
  {
    var q, m := s.passes[k], Driven(w, s, k, n);
    DriveStep(w, s, k, n);
    OneStep(w, m, Commit(k, n));
    assert Next(w, Next(w, m, Commit(k, n)), Acknowledge(k)).db == Next(w, m, Commit(k, n)).db;
  }

  lemma NotDriven(w: World, s: State, k: nat)
    requires k < |s.passes| && s.passes[k].importId in w && s.passes[k].next == 0
    ensures Driven(w, s, k, 0) == s
  {
    var q := s.passes[k];
    assert s.passes[k := q] == s.passes;
    assert Batches(w[q.importId].pipeline, q.importId, q.plan[..0]) == [];
  }

  lemma {:induction false} DriveRuns(w: World, s: State, k: nat, n: nat)
    requires k < |s.passes| && s.passes[k].importId in w && n <= |s.passes[k].plan|
    requires s.passes[k].next == 0 && !s.passes[k].committed && s.passes[k].running
    ensures ValidRun(w, s, Drive(k, n)) && Run(w, s, Drive(k, n)) == Driven(w, s, k, n)
  {
    if n == 0 {
      NotDriven(w, s, k);
    } else {
      DriveRuns(w, s, k, n - 1);
      DriveStep(w, s, k, n - 1);
      DriveOn(w, s, Driven(w, s, k, n - 1), Drive(k, n - 1), Commit(k, n - 1), Acknowledge(k));
    }
  }

  // A batching loop that had n batches acknowledged is a claim followed by n commits, and only a
  // loop that was not cancelled and had its whole plan acknowledged may then mark the import completed.
  lemma ExecutionIsRun(w: World, s: State, id: ImportId, batchSize: int, stop: Option<nat>, n: nat)
    requires id in w && id in s.db.imports && id in s.attempts && n <= |PlanOf(w, id, batchSize, stop)|
    ensures var k, claimed := |s.passes|, Next(w, s, Claim(id, batchSize, stop));
            && ValidRun(w, claimed, Drive(k, n))
            && Run(w, claimed, Drive(k, n)).db
               == PersistAll(s.db, Batches(w[id].pipeline, id, PlanOf(w, id, batchSize, stop)[..n]))
            && (Enabled(w, Run(w, claimed, Drive(k, n)), Complete(k))
                <==> stop.None? && n == |PlanOf(w, id, batchSize, stop)|)
  {
    var k, claimed := |s.passes|, Next(w, s, Claim(id, batchSize, stop));
    ClaimedPass(w, s, id, batchSize, stop);
    DriveRuns(w, claimed, k, n);
    assert Driven(w, claimed, k, n).passes[k] == claimed.passes[k].(next := n);
  }

  lemma ClaimedPass(w: World, s: State, id: ImportId, batchSize: int, stop: Option<nat>)
    requires id in w && id in s.db.imports && id in s.attempts
    ensures var k, claimed := |s.passes|, Next(w, s, Claim(id, batchSize, stop));
            && claimed.db == s.db && k < |claimed.passes|
            && claimed.passes[k] == Pass(id, PlanOf(w, id, batchSize, stop), stop.None?, 0, false, true)
  {}

  // A loop that failed after handing over one batch more: that batch may have been committed, without the loop
  // learning of it, and the tables are then those after n + 1 batches.
  lemma FailedExecutionIsRun(w: World, s: State, id: ImportId, batchSize: int, stop: Option<nat>, n: nat)
    requires id in w && id in s.db.imports && id in s.attempts && n < |PlanOf(w, id, batchSize, stop)|
    ensures var k, claimed := |s.passes|, Next(w, s, Claim(id, batchSize, stop));
            var es := Drive(k, n) + [Commit(k, n)];
            && ValidRun(w, claimed, es)
            && Run(w, claimed, es).db
               == PersistAll(s.db, Batches(w[id].pipeline, id, PlanOf(w, id, batchSize, stop)[..n + 1]))
            && !Enabled(w, Run(w, claimed, es), Complete(k))
  {
    var k, claimed := |s.passes|, Next(w, s, Claim(id, batchSize, stop));
    ClaimedPass(w, s, id, batchSize, stop);
    DriveRuns(w, claimed, k, n);
    LastCommit(w, claimed, k, n);
    RunAppend(w, claimed, Drive(k, n), [Commit(k, n)]);
  }
}
