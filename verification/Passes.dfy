/**
 * Every run of the import pipeline over one database: any number of workers take passes over the
 * files, crash, overlap, and commit a batch again after a lost reply. A step is one transaction.
 */
module Passes {
  import opened Prelude
  import opened Persistence
  import opened Batching
  import opened Classification

  datatype File = File(lines: seq<string>, pipeline: Pipeline)
  type World = map<ImportId, File>

  // `next` batches of the plan are acknowledged; `committed` says batch `next` is stored already.
  // A pass that will see a cancellation plans only the lines before the check line.
  datatype Pass = Pass(
    importId: ImportId, plan: seq<seq<Record>>, whole: bool, next: nat, committed: bool, running: bool)

  datatype State = State(db: Db, passes: seq<Pass>, completed: set<ImportId>, attempts: map<ImportId, nat>)

  datatype Event =
    | Create(id: ImportId)
    | Claim(id: ImportId, batchSize: int, cancelledAfter: Option<nat>)
    | Commit(pass: nat, batch: nat)   // the database commits a batch the pass has handed over
    | Acknowledge(pass: nat)          // persistBatch returns, so the loop goes on
    | Crash(pass: nat)                // crash, failure or shutdown: the pass issues nothing more
    | Complete(pass: nat)             // markCompleted

  function Init(): State { State(Db(map[], [], map[]), [], {}, map[]) }

  function FileRecords(w: World, id: ImportId): seq<Record>
    requires id in w
  {
    Records(w[id].pipeline, w[id].lines)
  }

  function PlanOf(w: World, id: ImportId, batchSize: int, cancelledAfter: Option<nat>): seq<seq<Record>>
    requires id in w
  {
    var lines := w[id].lines;
    Plan(w[id].pipeline, batchSize, if cancelledAfter.Some? then lines[..Min(cancelledAfter.value, |lines|)] else lines)
  }

  predicate Enabled(w: World, s: State, e: Event) {
    match e
    case Create(id) => id in w && id !in s.db.imports
    case Claim(id, _, _) => id in w && id in s.db.imports && id in s.attempts
    case Commit(p, i) => p < |s.passes| && i <= s.passes[p].next && i < |s.passes[p].plan| && s.passes[p].importId in w
    case Acknowledge(p) => p < |s.passes| && s.passes[p].running && s.passes[p].committed
    case Crash(p) => p < |s.passes|
    case Complete(p) =>
      && p < |s.passes| && s.passes[p].running && s.passes[p].whole && s.passes[p].next == |s.passes[p].plan|
  }

  function BatchOf(w: World, q: Pass, i: nat): Batch
    requires q.importId in w && i < |q.plan|
  {
    ToBatch(w[q.importId].pipeline, q.importId, q.plan[i])
  }

  function NewPass(w: World, id: ImportId, batchSize: int, cancelledAfter: Option<nat>): Pass
    requires id in w
  {
    Pass(id, PlanOf(w, id, batchSize, cancelledAfter), cancelledAfter.None?, 0, false, true)
  }

  function PassesAfter(w: World, s: State, e: Event): seq<Pass>
    requires Enabled(w, s, e)
  {
    match e
    case Create(_) => s.passes
    case Claim(id, size, stop) => s.passes + [NewPass(w, id, size, stop)]
    case Commit(p, i) => var q := s.passes[p]; s.passes[p := q.(committed := q.committed || i == q.next)]
    case Acknowledge(p) => s.passes[p := s.passes[p].(next := s.passes[p].next + 1, committed := false)]
    case Crash(p) => s.passes[p := s.passes[p].(running := false)]
    case Complete(p) => s.passes[p := s.passes[p].(running := false)]
  }

  function DbAfter(w: World, s: State, e: Event): Db
    requires Enabled(w, s, e)
  {
    match e
    case Create(id) => s.db.(imports := s.db.imports[id := Counters(0, 0, 0, 0)])
    case Commit(p, i) => Persist(s.db, BatchOf(w, s.passes[p], i))
    case _ => s.db
  }

  function Next(w: World, s: State, e: Event): State
    requires Enabled(w, s, e)
  {
    State(DbAfter(w, s, e), PassesAfter(w, s, e),
          if e.Complete? then s.completed + {s.passes[e.pass].importId} else s.completed,
          if e.Create? then s.attempts[e.id := 0]
          else if e.Claim? then s.attempts[e.id := s.attempts[e.id] + 1]
          else s.attempts)
  }

  ghost predicate ValidRun(w: World, s: State, es: seq<Event>)
    decreases |es|
  {
    es == [] || (Enabled(w, s, es[0]) && ValidRun(w, Next(w, s, es[0]), es[1..]))
  }

  function Run(w: World, s: State, es: seq<Event>): State
    requires ValidRun(w, s, es)
    decreases |es|
  {
    if es == [] then s else Run(w, Next(w, s, es[0]), es[1..])
  }

  // ---- What is stored

  ghost predicate Stored(w: World, db: Db, id: ImportId, rs: seq<Record>)
    requires id in w
  {
    && Covers(db.transactions, RowsOf(w[id].pipeline, rs))
    && forall r :: Bad(r) in rs ==> RejectedRow(id, r) in db.rejected
  }

  lemma {:induction false} RejectedOfIn(rs: seq<Record>, r: Rejected)
    ensures r in RejectedOf(rs) <==> Bad(r) in rs
  {
    if rs != [] {
      RejectedOfIn(rs[..|rs| - 1], r);
      assert rs == rs[..|rs| - 1] + [rs[|rs| - 1]];
    }
  }

  lemma {:induction false} InputsAppend(a: seq<Record>, b: seq<Record>)
    ensures InputsOf(a + b) == InputsOf(a) + InputsOf(b)
  {
    if b == [] {
      assert a + b == a;
    } else {
      InputsAppend(a, b[..|b| - 1]);
      assert (a + b)[..|a + b| - 1] == a + b[..|b| - 1];
    }
  }

  lemma RowsAppend(p: Pipeline, a: seq<Record>, b: seq<Record>)
    ensures RowsOf(p, a + b) == RowsOf(p, a) + RowsOf(p, b)
  {
    InputsAppend(a, b);
  }

  lemma {:induction false} CountOfRecords(rs: seq<Record>)
    ensures |InputsOf(rs)| + |RejectedOf(rs)| == |rs|
  {
    if rs != [] { CountOfRecords(rs[..|rs| - 1]); }
  }

  lemma StoredAppend(w: World, db: Db, id: ImportId, a: seq<Record>, b: seq<Record>)
    requires id in w && Stored(w, db, id, a) && Stored(w, db, id, b)
    ensures Stored(w, db, id, a + b)
  {
    var p := w[id].pipeline;
    RowsAppend(p, a, b);
    var rows := RowsOf(p, a) + RowsOf(p, b);
    assert forall i :: 0 <= i < |rows| ==>
      rows[i] == if i < |RowsOf(p, a)| then RowsOf(p, a)[i] else RowsOf(p, b)[i - |RowsOf(p, a)|];
  }

  lemma StoredMonotone(w: World, db: Db, batch: Batch, id: ImportId, rs: seq<Record>)
    requires id in w && Stored(w, db, id, rs)
    ensures Stored(w, Persist(db, batch), id, rs)
  {
    PersistKeeps(db, batch);
  }

  lemma CommitStores(w: World, db: Db, q: Pass, i: nat)
    requires q.importId in w && q.importId in db.imports && i < |q.plan|
    ensures Stored(w, Persist(db, BatchOf(w, q, i)), q.importId, q.plan[i])
    ensures WellCounted(BatchOf(w, q, i))
  {
    PersistKeeps(db, BatchOf(w, q, i));
    CountOfRecords(q.plan[i]);
    var rejected := RejectedOf(q.plan[i]);
    forall r | Bad(r) in q.plan[i] ensures RejectedRow(q.importId, r) in Persist(db, BatchOf(w, q, i)).rejected {
      RejectedOfIn(q.plan[i], r);
      var k :| 0 <= k < |rejected| && rejected[k] == r;
    }
  }

  // ---- How much the passes over one import have committed, counting each batch of a pass once

  function Done(q: Pass): nat {
    if q.next > |q.plan| then 0
    else |Flatten(q.plan[..q.next])| + if q.committed && q.next < |q.plan| then |q.plan[q.next]| else 0
  }

  function Work(passes: seq<Pass>, id: ImportId): nat {
    if passes == [] then 0
    else
      var front, last := passes[..|passes| - 1], passes[|passes| - 1];
      Work(front, id) + if last.importId == id then Done(last) else 0
  }

  function Tries(passes: seq<Pass>, id: ImportId): nat {
    if passes == [] then 0
    else Tries(passes[..|passes| - 1], id) + if passes[|passes| - 1].importId == id then 1 else 0
  }

  lemma {:induction false} WorkUpdate(passes: seq<Pass>, p: nat, q: Pass, id: ImportId)
    requires p < |passes| && q.importId == passes[p].importId
    ensures Work(passes[p := q], id) == Work(passes, id) + if q.importId == id then Done(q) - Done(passes[p]) else 0
    ensures Tries(passes[p := q], id) == Tries(passes, id)
    decreases |passes|
  {
    var front := passes[..|passes| - 1];
    if p == |passes| - 1 {
      assert passes[p := q][..p] == front;
    } else {
      WorkUpdate(front, p, q, id);
      assert passes[p := q][..|passes| - 1] == front[p := q];
    }
  }

  lemma {:induction false} WorkAtLeast(passes: seq<Pass>, p: nat)
    requires p < |passes|
    ensures Work(passes, passes[p].importId) >= Done(passes[p])
    decreases |passes|
  {
    if p < |passes| - 1 { WorkAtLeast(passes[..|passes| - 1], p); }
  }

  lemma DoneBounded(q: Pass)
    ensures Done(q) <= |Flatten(q.plan)|
  {
    if q.next <= |q.plan| {
      FlattenAll(q.plan, q.next);
      if q.next < |q.plan| {
        FlattenTake(q.plan, q.next);
        FlattenAll(q.plan, q.next + 1);
      }
    }
  }

  lemma {:induction false} WorkAtMost(w: World, passes: seq<Pass>, id: ImportId)
    requires id in w && forall p :: 0 <= p < |passes| ==> PassOk(w, passes[p])
    ensures Work(passes, id) <= Tries(passes, id) * |FileRecords(w, id)|
  {
    if passes != [] {
      var front, q := passes[..|passes| - 1], passes[|passes| - 1];
      WorkAtMost(w, front, id);
      assert PassOk(w, q);
      DoneBounded(q);
      var n := |FileRecords(w, id)|;
      assert (Tries(front, id) + 1) * n == Tries(front, id) * n + n;
    }
  }

  // ---- The invariant

  ghost predicate PassOk(w: World, q: Pass) {
    && q.importId in w && q.next <= |q.plan| && (q.committed ==> q.next < |q.plan|)
    && Flatten(q.plan) <= FileRecords(w, q.importId)
    && (q.whole ==> Flatten(q.plan) == FileRecords(w, q.importId))
  }

  ghost predicate PassStored(w: World, db: Db, q: Pass)
    requires PassOk(w, q)
  {
    && q.importId in db.imports
    && Stored(w, db, q.importId, Flatten(q.plan[..q.next]))
    && (q.committed ==> Stored(w, db, q.importId, q.plan[q.next]))
  }

  ghost predicate TablesOk(w: World, db: Db, attempts: map<ImportId, nat>) {
    Reconciled(db) && attempts.Keys == db.imports.Keys <= w.Keys
  }

  ghost predicate PassesOk(w: World, db: Db, passes: seq<Pass>) {
    forall p :: 0 <= p < |passes| ==> PassOk(w, passes[p]) && PassStored(w, db, passes[p])
  }

  ghost predicate WorkOk(imports: map<ImportId, Counters>, passes: seq<Pass>, attempts: map<ImportId, nat>) {
    forall id :: id in imports ==>
      imports[id].processed >= Work(passes, id) && id in attempts && attempts[id] == Tries(passes, id)
  }

  ghost predicate CompletedOk(w: World, db: Db, completed: set<ImportId>) {
    forall id :: id in completed ==>
      && id in w && id in db.imports && Stored(w, db, id, FileRecords(w, id))
      && db.imports[id].processed >= |FileRecords(w, id)|
  }

  ghost predicate Inv(w: World, s: State) {
    && TablesOk(w, s.db, s.attempts)
    && PassesOk(w, s.db, s.passes)
    && WorkOk(s.db.imports, s.passes, s.attempts)
    && CompletedOk(w, s.db, s.completed)
  }

  // A pass plans the whole file, or the lines before the one at which it will see its cancellation.
  lemma PlanOfLines(w: World, id: ImportId, batchSize: int, lines: nat)
    requires id in w && lines <= |w[id].lines|
    ensures Flatten(PlanOf(w, id, batchSize, None)) == Records(w[id].pipeline, w[id].lines)
    ensures Flatten(PlanOf(w, id, batchSize, Some(lines))) == Records(w[id].pipeline, w[id].lines[..lines])
  {
    PlanShape(w[id].pipeline, batchSize, w[id].lines);
    PlanShape(w[id].pipeline, batchSize, w[id].lines[..lines]);
  }

  lemma PlanIsPrefix(w: World, id: ImportId, batchSize: int, stop: Option<nat>)
    requires id in w
    ensures Flatten(PlanOf(w, id, batchSize, stop)) <= FileRecords(w, id)
    ensures stop.None? ==> Flatten(PlanOf(w, id, batchSize, stop)) == FileRecords(w, id)
  {
    var p, lines := w[id].pipeline, w[id].lines;
    var taken := if stop.Some? then lines[..Min(stop.value, |lines|)] else lines;
    ChunkShape(Size(batchSize), Records(p, taken));
    if stop.Some? { RecordsPrefix(p, lines, Min(stop.value, |lines|)); }
  }

  lemma {:induction false} NothingBefore(rows: seq<RejectedRow>, passes: seq<Pass>, id: ImportId)
    requires forall r :: r in rows ==> r.importId != id
    requires forall p :: 0 <= p < |passes| ==> passes[p].importId != id
    ensures CountRejected(rows, id) == 0 && Work(passes, id) == Tries(passes, id) == 0
    decreases |rows| + |passes|
  {
    if rows != [] {
      NothingBefore(rows[..|rows| - 1], passes, id);
    } else if passes != [] {
      NothingBefore(rows, passes[..|passes| - 1], id);
    }
  }

  lemma NoPassYet(w: World, db: Db, passes: seq<Pass>, id: ImportId)
    requires PassesOk(w, db, passes) && id !in db.imports
    ensures forall p :: 0 <= p < |passes| ==> passes[p].importId != id
  {
    forall p | 0 <= p < |passes| ensures passes[p].importId != id { assert PassStored(w, db, passes[p]); }
  }

  lemma NewImportReconciles(db: Db, id: ImportId)
    requires Reconciled(db) && id !in db.imports
    ensures Reconciled(db.(imports := db.imports[id := Counters(0, 0, 0, 0)]))
  {
    var after := db.(imports := db.imports[id := Counters(0, 0, 0, 0)]);
    NothingBefore(db.rejected, [], id);
    assert Owned(db.transactions, id) == {};
    forall other | other in after.imports ensures CountersReconciled(after, other) {
      if other != id { assert CountersReconciled(db, other); }
    }
  }

  lemma CreateKeepsInv(w: World, s: State, id: ImportId)
    requires Inv(w, s) && Enabled(w, s, Create(id))
    ensures Inv(w, Next(w, s, Create(id)))
  {
    var t := Next(w, s, Create(id));
    NewImportReconciles(s.db, id);
    NoPassYet(w, s.db, s.passes, id);
    NothingBefore([], s.passes, id);
    forall p | 0 <= p < |t.passes| ensures PassStored(w, t.db, t.passes[p]) {
      assert PassStored(w, s.db, s.passes[p]);
    }
  }

  lemma ClaimKeepsInv(w: World, s: State, e: Event)
    requires Inv(w, s) && Enabled(w, s, e) && e.Claim?
    ensures Inv(w, Next(w, s, e))
  {
    var q := NewPass(w, e.id, e.batchSize, e.cancelledAfter);
    PlanIsPrefix(w, e.id, e.batchSize, e.cancelledAfter);
    AddPassKeepsInv(w, s, q);
    ClaimedState(w, s, e);
  }

  lemma ClaimedState(w: World, s: State, e: Event)
    requires Enabled(w, s, e) && e.Claim?
    ensures var q := NewPass(w, e.id, e.batchSize, e.cancelledAfter);
            Next(w, s, e)
            == s.(passes := s.passes + [q], attempts := s.attempts[q.importId := s.attempts[q.importId] + 1])
  {}

  lemma AddPassKeepsInv(w: World, s: State, q: Pass)
    requires Inv(w, s) && PassOk(w, q) && q.next == 0 && !q.committed && q.importId in s.db.imports
    ensures q.importId in s.attempts
    ensures Inv(w, s.(passes := s.passes + [q], attempts := s.attempts[q.importId := s.attempts[q.importId] + 1]))
  {
    AddPass(w, s.db, s.passes, q);
    AddWork(s.db.imports, s.passes, s.attempts, q);
  }

  lemma AddPass(w: World, db: Db, passes: seq<Pass>, q: Pass)
    requires PassesOk(w, db, passes) && PassOk(w, q) && q.next == 0 && !q.committed && q.importId in db.imports
    ensures PassesOk(w, db, passes + [q])
  {
    assert Flatten(q.plan[..0]) == [];
    assert PassStored(w, db, q);
  }

  lemma AddWork(imports: map<ImportId, Counters>, passes: seq<Pass>, attempts: map<ImportId, nat>, q: Pass)
    requires WorkOk(imports, passes, attempts) && q.next == 0 && !q.committed && q.importId in imports
    ensures WorkOk(imports, passes + [q], attempts[q.importId := attempts[q.importId] + 1])
  {
    assert (passes + [q])[..|passes|] == passes && Flatten(q.plan[..0]) == [];
  }

  lemma UpdateKeepsPasses(w: World, db: Db, passes: seq<Pass>, p: nat, q: Pass)
    requires PassesOk(w, db, passes) && p < |passes| && PassOk(w, q) && PassStored(w, db, q)
    ensures PassesOk(w, db, passes[p := q])
  {}

  lemma UpdateKeepsWork(imports: map<ImportId, Counters>, passes: seq<Pass>, attempts: map<ImportId, nat>,
                        p: nat, q: Pass)
    requires WorkOk(imports, passes, attempts)
    requires p < |passes| && q.importId == passes[p].importId && q.importId in imports
    requires imports[q.importId].processed >= Work(passes, q.importId) + Done(q) - Done(passes[p])
    ensures WorkOk(imports, passes[p := q], attempts)
  {
    forall id | id in imports
      ensures imports[id].processed >= Work(passes[p := q], id) && attempts[id] == Tries(passes[p := q], id)
    {
      WorkUpdate(passes, p, q, id);
    }
  }

  lemma PersistKeepsPasses(w: World, db: Db, passes: seq<Pass>, batch: Batch)
    requires PassesOk(w, db, passes)
    ensures PassesOk(w, Persist(db, batch), passes)
  {
    PersistKeeps(db, batch);
    forall p | 0 <= p < |passes| ensures PassStored(w, Persist(db, batch), passes[p]) {
      var r := passes[p];
      assert PassOk(w, r) && PassStored(w, db, r);
      StoredMonotone(w, db, batch, r.importId, Flatten(r.plan[..r.next]));
      if r.committed { StoredMonotone(w, db, batch, r.importId, r.plan[r.next]); }
    }
  }

  lemma PersistKeepsCompleted(w: World, db: Db, completed: set<ImportId>, batch: Batch)
    requires CompletedOk(w, db, completed)
    ensures CompletedOk(w, Persist(db, batch), completed)
  {
    PersistKeeps(db, batch);
    forall id | id in completed ensures Stored(w, Persist(db, batch), id, FileRecords(w, id)) {
      StoredMonotone(w, db, batch, id, FileRecords(w, id));
    }
  }

  lemma PersistCounts(w: World, db: Db, q: Pass, i: nat)
    requires q.importId in w && q.importId in db.imports && i < |q.plan|
    ensures var after := Persist(db, BatchOf(w, q, i)).imports;
            && after.Keys == db.imports.Keys
            && after[q.importId].processed == db.imports[q.importId].processed + |q.plan[i]|
            && forall id :: id in after && id != q.importId ==> after[id] == db.imports[id]
  {}

  lemma PersistKeepsInv(w: World, s: State, q: Pass, i: nat)
    requires Inv(w, s) && q.importId in w && q.importId in s.db.imports && i < |q.plan|
    ensures Inv(w, s.(db := Persist(s.db, BatchOf(w, q, i))))
  {
    var batch := BatchOf(w, q, i);
    CommitStores(w, s.db, q, i);
    PersistReconciles(s.db, batch);
    PersistKeepsPasses(w, s.db, s.passes, batch);
    PersistKeepsCompleted(w, s.db, s.completed, batch);
    PersistCounts(w, s.db, q, i);
  }

  lemma CommitKeepsPasses(w: World, s: State, p: nat, i: nat)
    requires Enabled(w, s, Commit(p, i)) && PassesOk(w, s.db, s.passes)
    ensures PassesOk(w, DbAfter(w, s, Commit(p, i)), PassesAfter(w, s, Commit(p, i)))
  {
    var q := s.passes[p];
    assert PassOk(w, q) && PassStored(w, s.db, q);
    var db := Persist(s.db, BatchOf(w, q, i));
    PersistKeepsPasses(w, s.db, s.passes, BatchOf(w, q, i));
    CommitStores(w, s.db, q, i);
    assert PassStored(w, db, q);
    UpdateKeepsPasses(w, db, s.passes, p, q.(committed := q.committed || i == q.next));
  }

  lemma CommitKeepsWork(w: World, s: State, p: nat, i: nat)
    requires Enabled(w, s, Commit(p, i)) && WorkOk(s.db.imports, s.passes, s.attempts)
    requires s.passes[p].importId in s.db.imports && PassOk(w, s.passes[p])
    ensures WorkOk(DbAfter(w, s, Commit(p, i)).imports, PassesAfter(w, s, Commit(p, i)), s.attempts)
  {
    var q := s.passes[p];
    PersistCounts(w, s.db, q, i);
    assert s.db.imports[q.importId].processed >= Work(s.passes, q.importId);
    var r := q.(committed := q.committed || i == q.next);
    UpdateKeepsWork(DbAfter(w, s, Commit(p, i)).imports, s.passes, s.attempts, p, r);
  }

  lemma CommitKeepsInv(w: World, s: State, p: nat, i: nat)
    requires Inv(w, s) && Enabled(w, s, Commit(p, i))
    ensures Inv(w, Next(w, s, Commit(p, i)))
  {
    var q := s.passes[p];
    assert PassOk(w, q) && PassStored(w, s.db, q);
    var db := Persist(s.db, BatchOf(w, q, i));
    PersistKeepsInv(w, s, q, i);
    CommitKeepsPasses(w, s, p, i);
    CommitKeepsWork(w, s, p, i);
  }

  lemma AcknowledgeAdvances(w: World, db: Db, q: Pass)
    requires PassOk(w, q) && PassStored(w, db, q) && q.committed
    ensures var r := q.(next := q.next + 1, committed := false);
            PassOk(w, r) && PassStored(w, db, r) && Done(r) == Done(q)
  {
    FlattenTake(q.plan, q.next);
    StoredAppend(w, db, q.importId, Flatten(q.plan[..q.next]), q.plan[q.next]);
  }

  lemma UpdateKeepsInv(w: World, s: State, p: nat, q: Pass)
    requires Inv(w, s) && p < |s.passes| && q.importId == s.passes[p].importId
    requires PassOk(w, q) && PassStored(w, s.db, q) && Done(q) == Done(s.passes[p])
    ensures Inv(w, s.(passes := s.passes[p := q]))
  {
    UpdateKeepsPasses(w, s.db, s.passes, p, q);
    UpdateKeepsWork(s.db.imports, s.passes, s.attempts, p, q);
  }

  lemma AcknowledgeKeepsInv(w: World, s: State, p: nat)
    requires Inv(w, s) && Enabled(w, s, Acknowledge(p))
    ensures Inv(w, Next(w, s, Acknowledge(p)))
  {
    var q := s.passes[p];
    assert PassOk(w, q) && PassStored(w, s.db, q);
    AcknowledgeAdvances(w, s.db, q);
    UpdateKeepsInv(w, s, p, q.(next := q.next + 1, committed := false));
    AcknowledgedState(w, s, p);
  }

  lemma AcknowledgedState(w: World, s: State, p: nat)
    requires Enabled(w, s, Acknowledge(p))
    ensures var q := s.passes[p].(next := s.passes[p].next + 1, committed := false);
            Next(w, s, Acknowledge(p)) == s.(passes := s.passes[p := q])
  {}

  lemma StopKeepsInv(w: World, s: State, p: nat)
    requires Inv(w, s) && p < |s.passes|
    ensures Inv(w, s.(passes := s.passes[p := s.passes[p].(running := false)]))
  {
    assert PassOk(w, s.passes[p]) && PassStored(w, s.db, s.passes[p]);
    UpdateKeepsInv(w, s, p, s.passes[p].(running := false));
  }

  lemma CompleteKeepsInv(w: World, s: State, p: nat)
    requires Inv(w, s) && Enabled(w, s, Complete(p))
    ensures Inv(w, Next(w, s, Complete(p)))
  {
    var q := s.passes[p];
    assert PassOk(w, q) && PassStored(w, s.db, q);
    assert q.plan[..q.next] == q.plan;
    WorkAtLeast(s.passes, p);
    StopKeepsInv(w, s, p);
    AddCompleted(w, s.db, s.completed, q.importId);
  }

  lemma AddCompleted(w: World, db: Db, completed: set<ImportId>, id: ImportId)
    requires CompletedOk(w, db, completed) && id in w && id in db.imports && Stored(w, db, id, FileRecords(w, id))
    requires db.imports[id].processed >= |FileRecords(w, id)|
    ensures CompletedOk(w, db, completed + {id})
  {}

  lemma StepKeepsInv(w: World, s: State, e: Event)
    requires Inv(w, s) && Enabled(w, s, e)
    ensures Inv(w, Next(w, s, e))
  {
    match e
    case Create(id) => CreateKeepsInv(w, s, id);
    case Claim(_, _, _) => ClaimKeepsInv(w, s, e);
    case Commit(p, i) => CommitKeepsInv(w, s, p, i);
    case Acknowledge(p) => AcknowledgeKeepsInv(w, s, p);
    case Crash(p) => StopKeepsInv(w, s, p);
    case Complete(p) => CompleteKeepsInv(w, s, p);
  }

  lemma {:induction false} RunKeepsInv(w: World, s: State, es: seq<Event>)
    requires Inv(w, s) && ValidRun(w, s, es)
    ensures Inv(w, Run(w, s, es))
    decreases |es|
  {
    if es != [] {
      StepKeepsInv(w, s, es[0]);
      RunKeepsInv(w, Next(w, s, es[0]), es[1..]);
    }
  }

  // ---- Main results over every run

  // Counters agree with the tables in every reachable state.
  lemma CountersReconcile(w: World, es: seq<Event>, id: ImportId)
    requires ValidRun(w, Init(), es) && id in Run(w, Init(), es).db.imports
    ensures var db := Run(w, Init(), es).db;
            var c := db.imports[id];
            && c.processed == c.accepted + c.duplicate + c.rejected
            && c.accepted == |Owned(db.transactions, id)|
            && c.rejected == CountRejected(db.rejected, id)
  {
    RunKeepsInv(w, Init(), es);
    assert CountersReconciled(Run(w, Init(), es).db, id);
  }

  // A completed import has every record of its file in the tables, whatever else happened.
  lemma CompletedStoresRecord(w: World, es: seq<Event>, id: ImportId, r: Record)
    requires ValidRun(w, Init(), es) && id in Run(w, Init(), es).completed
    requires id in w && r in FileRecords(w, id)
    ensures var db := Run(w, Init(), es).db;
            match r
            case Good(input) => Key(input.transaction.provider, input.transaction.transactionId) in db.transactions
            case Bad(rejected) => RejectedRow(id, rejected) in db.rejected
    ensures id in Run(w, Init(), es).db.imports
    ensures Run(w, Init(), es).db.imports[id].processed >= |FileRecords(w, id)|
  {
    RunKeepsInv(w, Init(), es);
    if r.Good? {
      var rs := FileRecords(w, id);
      var k := GoodIndex(rs, r.input);
      var row := RowsOf(w[id].pipeline, rs)[k];
      assert KeyOf(row) in Run(w, Init(), es).db.transactions;
    }
  }

  // Told by the lines of the file: the transaction of every accepted line has its key stored, and every other
  // line that is not white space has a rejected row with its number and its reason.
  lemma CompletedIsComplete(w: World, es: seq<Event>, id: ImportId, n: nat)
    requires ValidRun(w, Init(), es) && id in Run(w, Init(), es).completed && id in w
    requires 1 <= n <= |w[id].lines| && !Ndjson.AllSpace(w[id].lines[n - 1])
    ensures var p, raw, db := w[id].pipeline, w[id].lines[n - 1], Run(w, Init(), es).db;
            && (forall t :: Accepts(p, raw, t) ==> Key(t.provider, t.transactionId) in db.transactions)
            && (forall reason :: Rejects(p, raw, reason) ==>
                  exists r :: RejectedRow(id, r) in db.rejected && r.lineNumber == n && Keeps(r, reason))
    ensures id in Run(w, Init(), es).db.imports
    ensures Run(w, Init(), es).db.imports[id].processed >= |NonBlank(w[id].lines)|
  {
    var p, raw := w[id].pipeline, w[id].lines[n - 1];
    var r := RecordOfLine(p, w[id].lines, n);
    CompletedStoresRecord(w, es, id, r);
    RecordsOfLines(p, w[id].lines);
    OneFate(p, raw);
    OneReason(p, raw);
  }

  lemma {:induction false} GoodIndex(rs: seq<Record>, input: ScoringInput) returns (k: nat)
    requires Good(input) in rs
    ensures k < |InputsOf(rs)| && InputsOf(rs)[k] == input
  {
    var front, last := rs[..|rs| - 1], rs[|rs| - 1];
    if last == Good(input) {
      k := |InputsOf(front)|;
    } else {
      assert rs == front + [last];
      k := GoodIndex(front, input);
    }
  }

  // ---- Progress: every commit is counted, so repeated ones are counted again

  function Processed(imports: map<ImportId, Counters>, id: ImportId): int {
    if id in imports then imports[id].processed else 0
  }

  // Does the step commit a batch of the import that its pass has committed before?
  predicate RepeatsBatch(s: State, e: Event, id: ImportId) {
    && e.Commit? && e.pass < |s.passes| && s.passes[e.pass].importId == id
    && (e.batch != s.passes[e.pass].next || s.passes[e.pass].committed)
  }

  predicate CommitsFor(s: State, e: Event, id: ImportId) {
    e.Commit? && e.pass < |s.passes| && s.passes[e.pass].importId == id && e.batch < |s.passes[e.pass].plan|
  }

  // The records the step commits for the import.
  function Committed(s: State, e: Event, id: ImportId): nat {
    if CommitsFor(s, e, id) then |s.passes[e.pass].plan[e.batch]| else 0
  }

  // The records of batches committed again.
  function Repeats(w: World, s: State, es: seq<Event>, id: ImportId): nat
    requires ValidRun(w, s, es)
    decreases |es|
  {
    if es == [] then 0
    else (if RepeatsBatch(s, es[0], id) then Committed(s, es[0], id) else 0)
         + Repeats(w, Next(w, s, es[0]), es[1..], id)
  }

  ghost predicate NoRepeats(w: World, s: State, es: seq<Event>, id: ImportId)
    requires ValidRun(w, s, es)
    decreases |es|
  {
    es == [] || (!RepeatsBatch(s, es[0], id) && NoRepeats(w, Next(w, s, es[0]), es[1..], id))
  }

  ghost predicate KnownPasses(w: World, db: Db, passes: seq<Pass>) {
    forall p :: 0 <= p < |passes| ==> PassOk(w, passes[p]) && passes[p].importId in db.imports
  }

  lemma StepCountsCommit(w: World, s: State, e: Event, id: ImportId)
    requires Enabled(w, s, e) && KnownPasses(w, s.db, s.passes)
    ensures Processed(DbAfter(w, s, e).imports, id) == Processed(s.db.imports, id) + Committed(s, e, id)
  {
    if e.Commit? { PersistCounts(w, s.db, s.passes[e.pass], e.batch); }
  }

  lemma AcknowledgedDone(q: Pass)
    requires q.committed && q.next < |q.plan|
    ensures Done(q.(next := q.next + 1, committed := false)) == Done(q)
  {
    FlattenTake(q.plan, q.next);
  }

  // Work grows with the batches committed for the first time.
  lemma ClaimWorks(w: World, s: State, e: Event, id: ImportId)
    requires Enabled(w, s, e) && e.Claim?
    ensures Work(PassesAfter(w, s, e), id) == Work(s.passes, id)
  {
    var passes := PassesAfter(w, s, e);
    assert passes[..|passes| - 1] == s.passes;
    assert Flatten(passes[|s.passes|].plan[..0]) == [];
  }

  lemma FirstCommitDone(q: Pass, i: nat)
    requires i <= q.next && i < |q.plan| && q.next <= |q.plan|
    ensures Done(q.(committed := q.committed || i == q.next))
         == Done(q) + if i == q.next && !q.committed then |q.plan[i]| else 0
  {}

  lemma CommitWorks(w: World, s: State, e: Event, id: ImportId)
    requires Enabled(w, s, e) && e.Commit? && PassOk(w, s.passes[e.pass])
    ensures Work(PassesAfter(w, s, e), id)
         == Work(s.passes, id) + if RepeatsBatch(s, e, id) then 0 else Committed(s, e, id)
  {
    FirstCommitDone(s.passes[e.pass], e.batch);
    WorkUpdate(s.passes, e.pass, PassesAfter(w, s, e)[e.pass], id);
  }

  lemma StepWorks(w: World, s: State, e: Event, id: ImportId)
    requires Enabled(w, s, e) && KnownPasses(w, s.db, s.passes)
    ensures Work(PassesAfter(w, s, e), id)
         == Work(s.passes, id) + if RepeatsBatch(s, e, id) then 0 else Committed(s, e, id)
  {
    var passes := PassesAfter(w, s, e);
    match e
    case Create(_) =>
    case Claim(_, _, _) => ClaimWorks(w, s, e, id);
    case Commit(_, _) => CommitWorks(w, s, e, id);
    case Acknowledge(p) =>
      AcknowledgedDone(s.passes[p]);
      WorkUpdate(s.passes, p, passes[p], id);
    case Crash(p) => WorkUpdate(s.passes, p, passes[p], id);
    case Complete(p) => WorkUpdate(s.passes, p, passes[p], id);
  }

  lemma InvKnows(w: World, s: State)
    requires Inv(w, s)
    ensures KnownPasses(w, s.db, s.passes)
  {
    forall p | 0 <= p < |s.passes| ensures PassOk(w, s.passes[p]) && s.passes[p].importId in s.db.imports {
      assert PassOk(w, s.passes[p]) && PassStored(w, s.db, s.passes[p]);
    }
  }

  lemma {:induction false} RunAccounts(w: World, s: State, es: seq<Event>, id: ImportId)
    requires Inv(w, s) && ValidRun(w, s, es)
    ensures var t := Run(w, s, es);
            Processed(t.db.imports, id) - Work(t.passes, id)
            == Processed(s.db.imports, id) - Work(s.passes, id) + Repeats(w, s, es, id)
    decreases |es|
  {
    if es != [] {
      InvKnows(w, s);
      StepCountsCommit(w, s, es[0], id);
      StepWorks(w, s, es[0], id);
      StepKeepsInv(w, s, es[0]);
      RunAccounts(w, Next(w, s, es[0]), es[1..], id);
    }
  }

  // The conservation law of every run: what is counted is what the passes have committed, each batch of a pass
  // once, and the records of the batches committed again.
  lemma ProcessedIsAccounted(w: World, es: seq<Event>, id: ImportId)
    requires ValidRun(w, Init(), es) && id in Run(w, Init(), es).db.imports
    ensures var s := Run(w, Init(), es);
            s.db.imports[id].processed == Work(s.passes, id) + Repeats(w, Init(), es, id)
  {
    RunAccounts(w, Init(), es, id);
  }

  // ---- Batches are never empty, so a repeated one shows

  ghost predicate FullPlan(q: Pass) { forall i :: 0 <= i < |q.plan| ==> q.plan[i] != [] }

  ghost predicate FullPlans(passes: seq<Pass>) { forall p :: 0 <= p < |passes| ==> FullPlan(passes[p]) }

  lemma StepKeepsFullPlans(w: World, s: State, e: Event)
    requires Enabled(w, s, e) && FullPlans(s.passes)
    ensures FullPlans(PassesAfter(w, s, e))
  {
    var passes := PassesAfter(w, s, e);
    if e.Claim? { PlanIsFull(w, e.id, e.batchSize, e.cancelledAfter); }
    forall p | 0 <= p < |passes| ensures FullPlan(passes[p]) {
      if p < |s.passes| { assert FullPlan(s.passes[p]) && passes[p].plan == s.passes[p].plan; }
    }
  }

  lemma PlanIsFull(w: World, id: ImportId, batchSize: int, cancelledAfter: Option<nat>)
    requires id in w
    ensures forall i :: 0 <= i < |PlanOf(w, id, batchSize, cancelledAfter)| ==>
              PlanOf(w, id, batchSize, cancelledAfter)[i] != []
  {
    var lines := w[id].lines;
    var taken := if cancelledAfter.Some? then lines[..Min(cancelledAfter.value, |lines|)] else lines;
    ChunkShape(Size(batchSize), Records(w[id].pipeline, taken));
  }

  lemma {:induction false} RepeatsShow(w: World, s: State, es: seq<Event>, id: ImportId)
    requires ValidRun(w, s, es) && FullPlans(s.passes)
    ensures Repeats(w, s, es, id) == 0 <==> NoRepeats(w, s, es, id)
    decreases |es|
  {
    if es != [] {
      StepKeepsFullPlans(w, s, es[0]);
      RepeatsShow(w, Next(w, s, es[0]), es[1..], id);
      if RepeatsBatch(s, es[0], id) { assert FullPlan(s.passes[es[0].pass]); }
    }
  }

  // ---- A completed file has been worked through once

  ghost predicate CompletedWorked(w: World, s: State) {
    forall id :: id in s.completed ==> id in w && Work(s.passes, id) >= |FileRecords(w, id)|
  }

  lemma StepKeepsWorked(w: World, s: State, e: Event)
    requires Enabled(w, s, e) && KnownPasses(w, s.db, s.passes) && CompletedWorked(w, s)
    ensures CompletedWorked(w, Next(w, s, e))
  {
    var t := Next(w, s, e);
    forall id | id in t.completed ensures id in w && Work(t.passes, id) >= |FileRecords(w, id)| {
      StepWorks(w, s, e, id);
      if id !in s.completed {
        var q := s.passes[e.pass];
        assert PassOk(w, q) && q.plan[..q.next] == q.plan;
        WorkAtLeast(s.passes, e.pass);
      }
    }
  }

  lemma {:induction false} RunKeepsWorked(w: World, s: State, es: seq<Event>)
    requires Inv(w, s) && CompletedWorked(w, s) && ValidRun(w, s, es)
    ensures Inv(w, Run(w, s, es)) && CompletedWorked(w, Run(w, s, es))
    decreases |es|
  {
    if es != [] {
      InvKnows(w, s);
      StepKeepsWorked(w, s, es[0]);
      StepKeepsInv(w, s, es[0]);
      RunKeepsWorked(w, Next(w, s, es[0]), es[1..]);
    }
  }

  lemma BoundOfTries(w: World, db: Db, passes: seq<Pass>, id: ImportId)
    requires PassesOk(w, db, passes) && id in w
    ensures Work(passes, id) <= Tries(passes, id) * |FileRecords(w, id)|
  {
    WorkAtMost(w, passes, id);
  }

  // In every run, processedCount exceeds attempts times the records of the file by at most the records committed
  // again; and a completed import with a single attempt counts each record once exactly when no batch of it
  // was committed twice.
  lemma ProgressBounds(w: World, es: seq<Event>, id: ImportId)
    requires ValidRun(w, Init(), es) && id in Run(w, Init(), es).db.imports && id in w
    ensures id in Run(w, Init(), es).attempts
    ensures var s, n := Run(w, Init(), es), |FileRecords(w, id)|;
            && s.db.imports[id].processed <= s.attempts[id] * n + Repeats(w, Init(), es, id)
            && (NoRepeats(w, Init(), es, id) ==> s.db.imports[id].processed <= s.attempts[id] * n)
            && (id in s.completed && s.attempts[id] == 1 ==>
                  (s.db.imports[id].processed == n <==> NoRepeats(w, Init(), es, id)))
  {
    var s := Run(w, Init(), es);
    RunKeepsWorked(w, Init(), es);
    ProcessedIsAccounted(w, es, id);
    RepeatsShow(w, Init(), es, id);
    BoundOfTries(w, s.db, s.passes, id);
    assert s.attempts[id] == Tries(s.passes, id);
    if s.attempts[id] == 1 { assert 1 * |FileRecords(w, id)| == |FileRecords(w, id)|; }
  }

  // A commit whose reply is lost is counted twice: the bound needs its hypothesis.
  lemma LostReplyOvershoots(w: World, id: ImportId) returns (es: seq<Event>)
    requires id in w && FileRecords(w, id) != []
    ensures ValidRun(w, Init(), es) && id in Run(w, Init(), es).db.imports && id in Run(w, Init(), es).attempts
    ensures var s := Run(w, Init(), es); s.attempts[id] == 1 && s.db.imports[id].processed > |FileRecords(w, id)|
  {
    var n := |FileRecords(w, id)|;
    var e0, e1, e2 := Create(id), Claim(id, n, None), Commit(0, 0);
    es := [e0, e1, e2, e2];
    var s0 := Init();
    var s1 := Next(w, s0, e0);
    var s2 := Next(w, s1, e1);
    assert s2.passes[0].plan == [FileRecords(w, id)];
    var s3 := Next(w, s2, e2);
    var s4 := Next(w, s3, e2);
    assert s4.db.imports[id].processed == n + n;
    assert es[1..] == [e1, e2, e2] && es[1..][1..] == [e2, e2];
    assert es[1..][1..][1..] == [e2] && es[1..][1..][1..][1..] == [];
    assert ValidRun(w, s4, []) && Run(w, s4, []) == s4;
    assert ValidRun(w, s3, [e2]) && Run(w, s3, [e2]) == s4;
    assert ValidRun(w, s2, [e2, e2]) && Run(w, s2, [e2, e2]) == s4;
    assert ValidRun(w, s1, [e1, e2, e2]) && Run(w, s1, [e1, e2, e2]) == s4;
  }
}
