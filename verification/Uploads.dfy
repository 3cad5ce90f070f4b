/**
 * Idempotent creation of imports and the life of their files: racing uploads under one key, deletion
 * of the loser's file, and the age-guarded sweep of orphans. Every statement and file operation is a step.
 */
module Uploads {
  import opened Prelude
  import Storage

  type Key = string
  type ImportId = string
  type RequestId = nat
  type SweepId = nat
  type Path = Storage.Location
  type Time = int

  datatype Outcome = Created(id: ImportId) | Replayed(id: ImportId) | Refused | Errored

  // Saving streams the file, Saved has it complete, Conflicting lost the race for the key, Discarding
  // has found the winner and still has to delete its own file.
  datatype Phase = Saving | Saved | Conflicting | Discarding(id: ImportId) | Ended(outcome: Outcome)

  datatype Request = Request(key: Key, importId: ImportId, path: Path, lastWrite: Time, phase: Phase)
  datatype FileRow = FileRow(importId: ImportId, path: Path)

  // A sweep has listed the references; then it reads the directory, fixes the cutoff, and for every
  // entry first looks at the file and, if it is doomed, removes it.
  datatype Sweep = Sweep(
    at: Time, referenced: set<Path>, entries: Option<set<Path>>, cutoff: Option<Time>, doomed: set<Path>)

  datatype State = State(
    age: int,                        // ORPHAN_AGE_MS
    now: Time,
    disk: map<Path, Time>,           // modification times
    keys: map<Key, ImportId>,
    imports: set<ImportId>,
    files: set<FileRow>,
    jobs: set<ImportId>,
    requests: map<RequestId, Request>,
    owner: map<Path, RequestId>,     // history: the generated names and who got them
    sweeps: map<SweepId, Sweep>)

  datatype Event =
    | Tick(elapsed: nat)
    | Open(request: RequestId, key: Key, importId: ImportId, path: Path)
    | Write(request: RequestId)
    | Close(request: RequestId)
    | FailSave(request: RequestId)                    // too large, truncated or broken stream
    | Create(request: RequestId)                      // the transaction commits or hits a unique index
    | LoseCreate(request: RequestId, committed: bool) // any other database error, before or after the commit
    | Lookup(request: RequestId, found: bool)         // reads the winner of the key
    | Discard(request: RequestId)
    | Crash(request: RequestId)
    | SweepList(sweep: SweepId)
    | SweepRead(sweep: SweepId)
    | SweepCut(sweep: SweepId)
    | SweepStat(sweep: SweepId, path: Path)
    | SweepRemove(sweep: SweepId, path: Path)
    | SweepEnd(sweep: SweepId)

  function Init(age: int, now: Time): State { State(age, now, map[], map[], {}, {}, {}, map[], map[], map[]) }

  // ---- Which unique index an insert ran into

  datatype UniqueIndex = ImportsPkey | KeysPkey | KeysKey | KeysImportId | FilesPkey | JobsPkey | JobsImportId
  datatype DriverError = DriverError(
    known: bool, code: string, target: Option<seq<string>>, constraintFields: Option<seq<string>>)

  function Columns(index: UniqueIndex): seq<string> {
    match index
    case KeysKey => ["key"]
    case KeysImportId => ["importId"]
    case JobsImportId => ["importId"]
    case _ => ["id"]
  }

  function ViolatedFields(e: DriverError): seq<string> {
    if e.target.Some? then e.target.value else if e.constraintFields.Some? then e.constraintFields.value else []
  }

  predicate IsIdempotencyKeyConflict(e: DriverError) {
    e.known && e.code == "P2002" && |ViolatedFields(e)| == 1 && ViolatedFields(e)[0] == "key"
  }

  // A replay is a unique violation on exactly the one column "key", told by the error's own target if it has one
  // and by the driver's constraint otherwise.
  lemma ConflictIff(e: DriverError)
    ensures IsIdempotencyKeyConflict(e) <==>
            && e.known && e.code == "P2002"
            && (if e.target.Some? then e.target.value == ["key"] else e.constraintFields == Some(["key"]))
  {
    if |ViolatedFields(e)| == 1 { assert ViolatedFields(e) == [ViolatedFields(e)[0]]; }
  }

  function Violation(index: UniqueIndex, adapter: bool): DriverError {
    if adapter then DriverError(true, "P2002", None, Some(Columns(index)))
    else DriverError(true, "P2002", Some(Columns(index)), None)
  }

  // Whichever way the driver reports it, only the index on the key itself counts as a replay.
  lemma OnlyKeyIsReplay(index: UniqueIndex, adapter: bool)
    ensures IsIdempotencyKeyConflict(Violation(index, adapter)) <==> index == KeysKey
  {
    assert "key" != "id" && "key" != "importId" by {
      assert |"key"| == 3 && |"id"| == 2 && |"importId"| == 8;
    }
  }

  // The first unique index that inserting import id under key runs into.
  function Hit(imports: set<ImportId>, keys: map<Key, ImportId>, id: ImportId, key: Key): Option<UniqueIndex> {
    if id in imports then Some(ImportsPkey) else if key in keys then Some(KeysKey) else None
  }

  // ---- Steps

  predicate Active(s: State, q: RequestId) { q in s.requests && !s.requests[q].phase.Ended? }

  predicate InPhase(s: State, q: RequestId, p: Phase) { q in s.requests && s.requests[q].phase == p }

  predicate Enabled(s: State, e: Event) {
    match e
    case Tick(_) => true
    case Open(q, _, _, p) => q !in s.requests && p !in s.owner   // generated names never repeat
    case Write(q) => InPhase(s, q, Saving)
    case Close(q) => InPhase(s, q, Saving)
    case FailSave(q) => InPhase(s, q, Saving)
    case Create(q) => InPhase(s, q, Saved)
    case LoseCreate(q, _) => InPhase(s, q, Saved)
    case Lookup(q, found) => InPhase(s, q, Conflicting) && (found ==> s.requests[q].key in s.keys)
    case Discard(q) => q in s.requests && s.requests[q].phase.Discarding?
    case Crash(q) => Active(s, q)
    case SweepList(k) => k !in s.sweeps
    case SweepRead(k) => k in s.sweeps && s.sweeps[k].entries.None?
    case SweepCut(k) => k in s.sweeps && s.sweeps[k].entries.Some? && s.sweeps[k].cutoff.None?
    case SweepStat(k, p) =>
      k in s.sweeps && s.sweeps[k].cutoff.Some? && s.sweeps[k].entries.Some? && p in s.sweeps[k].entries.value
    case SweepRemove(k, p) => k in s.sweeps && p in s.sweeps[k].doomed
    case SweepEnd(k) => k in s.sweeps
  }

  // The request whose transaction commits in this step, if any.
  predicate Commits(s: State, e: Event)
    requires Enabled(s, e)
  {
    && (e.Create? || (e.LoseCreate? && e.committed))
    && Hit(s.imports, s.keys, s.requests[e.request].importId, s.requests[e.request].key).None?
  }

  // What the sweep finds when it looks at one file: old enough, and not listed as referenced.
  predicate Stale(sweep: Sweep, disk: map<Path, Time>, p: Path)
    requires sweep.cutoff.Some?
  {
    p in disk && Storage.Sweepable(disk[p], sweep.cutoff.value, sweep.referenced, p)
  }

  function Disk(s: State, e: Event): map<Path, Time>
    requires Enabled(s, e)
  {
    match e
    case Open(_, _, _, p) => s.disk[p := s.now]
    case Write(q) => if s.requests[q].path in s.disk then s.disk[s.requests[q].path := s.now] else s.disk
    case FailSave(q) => s.disk - {s.requests[q].path}
    case Discard(q) => s.disk - {s.requests[q].path}
    case SweepRemove(_, p) => s.disk - {p}
    case _ => s.disk
  }

  function AfterCreate(s: State, r: Request): Phase {
    match Hit(s.imports, s.keys, r.importId, r.key)
    case None => Ended(Created(r.importId))
    case Some(index) => if IsIdempotencyKeyConflict(Violation(index, true)) then Conflicting else Ended(Errored)
  }

  function Requests(s: State, e: Event): map<RequestId, Request>
    requires Enabled(s, e)
  {
    match e
    case Open(q, key, id, p) => s.requests[q := Request(key, id, p, s.now, Saving)]
    case Write(q) => s.requests[q := s.requests[q].(lastWrite := s.now)]
    case Close(q) => s.requests[q := s.requests[q].(phase := Saved)]
    case FailSave(q) => s.requests[q := s.requests[q].(phase := Ended(Refused))]
    case Create(q) => s.requests[q := s.requests[q].(phase := AfterCreate(s, s.requests[q]))]
    case LoseCreate(q, _) => s.requests[q := s.requests[q].(phase := Ended(Errored))]
    case Lookup(q, found) =>
      s.requests[q := s.requests[q].(phase := if found then Discarding(s.keys[s.requests[q].key]) else Ended(Errored))]
    case Discard(q) => s.requests[q := s.requests[q].(phase := Ended(Replayed(s.requests[q].phase.id)))]
    case Crash(q) => s.requests[q := s.requests[q].(phase := Ended(Errored))]
    case _ => s.requests
  }

  function Sweeps(s: State, e: Event): map<SweepId, Sweep>
    requires Enabled(s, e)
  {
    match e
    case SweepList(k) => s.sweeps[k := Sweep(s.now, set r | r in s.files :: r.path, None, None, {})]
    case SweepRead(k) => s.sweeps[k := s.sweeps[k].(entries := Some(s.disk.Keys))]
    case SweepCut(k) => s.sweeps[k := s.sweeps[k].(cutoff := Some(s.now - s.age))]
    case SweepStat(k, p) =>
      if !Stale(s.sweeps[k], s.disk, p) then s.sweeps
      else s.sweeps[k := s.sweeps[k].(doomed := s.sweeps[k].doomed + {p})]
    case SweepRemove(k, p) => s.sweeps[k := s.sweeps[k].(doomed := s.sweeps[k].doomed - {p})]
    case SweepEnd(k) => s.sweeps - {k}
    case _ => s.sweeps
  }

  function Next(s: State, e: Event): State
    requires Enabled(s, e)
  {
    State(s.age, if e.Tick? then s.now + e.elapsed else s.now, Disk(s, e),
          if Commits(s, e) then s.keys[s.requests[e.request].key := s.requests[e.request].importId] else s.keys,
          if Commits(s, e) then s.imports + {s.requests[e.request].importId} else s.imports,
          if !Commits(s, e) then s.files
          else s.files + {FileRow(s.requests[e.request].importId, s.requests[e.request].path)},
          if Commits(s, e) then s.jobs + {s.requests[e.request].importId} else s.jobs,
          Requests(s, e), if e.Open? then s.owner[e.path := e.request] else s.owner, Sweeps(s, e))
  }

  ghost predicate ValidRun(s: State, es: seq<Event>)
    decreases |es|
  {
    es == [] || (Enabled(s, es[0]) && ValidRun(Next(s, es[0]), es[1..]))
  }

  function Run(s: State, es: seq<Event>): State
    requires ValidRun(s, es)
    decreases |es|
  {
    if es == [] then s else Run(Next(s, es[0]), es[1..])
  }

  // ---- What the steps of one request and of one sweep come to

  // Under a new key, the transaction inserts an import with the request's key and file.
  lemma NewKeyCreates(s: State, q: RequestId)
    requires InPhase(s, q, Saved) && s.requests[q].importId !in s.imports && s.requests[q].key !in s.keys
    ensures Enabled(s, Create(q))
    ensures var r, t := s.requests[q], Next(s, Create(q));
            && t.requests == s.requests[q := r.(phase := Ended(Created(r.importId)))] && t.disk == s.disk
            && t.keys == s.keys[r.key := r.importId] && t.imports == s.imports + {r.importId}
            && t.files == s.files + {FileRow(r.importId, r.path)} && t.jobs == s.jobs + {r.importId}
  {}

  // Under a taken key, it inserts nothing, the request answers with the key's import, and its own file goes.
  lemma TakenKeyReplays(s: State, q: RequestId)
    requires InPhase(s, q, Saved) && s.requests[q].importId !in s.imports && s.requests[q].key in s.keys
    ensures Enabled(s, Create(q)) && Enabled(Next(s, Create(q)), Lookup(q, true))
    ensures Enabled(Next(Next(s, Create(q)), Lookup(q, true)), Discard(q))
    ensures var r, t := s.requests[q], Next(Next(Next(s, Create(q)), Lookup(q, true)), Discard(q));
            && t.requests == s.requests[q := r.(phase := Ended(Replayed(s.keys[r.key])))]
            && t.disk == s.disk - {r.path} && t.keys == s.keys && t.imports == s.imports
            && t.files == s.files && t.jobs == s.jobs
  {
    OnlyKeyIsReplay(KeysKey, true);
  }

  // A taken import id is an error, not a replay.
  lemma TakenIdFails(s: State, q: RequestId)
    requires InPhase(s, q, Saved) && s.requests[q].importId in s.imports
    ensures Enabled(s, Create(q))
    ensures Next(s, Create(q)) == s.(requests := s.requests[q := s.requests[q].(phase := Ended(Errored))])
  {
    OnlyKeyIsReplay(ImportsPkey, true);
  }

  // A sweep dooms exactly the files at least as old as its age guard when it fixed the cutoff, and not listed.
  lemma SweepDooms(s: State, k: SweepId, p: Path)
    requires Enabled(s, SweepStat(k, p))
    ensures var before, after := s.sweeps[k], Next(s, SweepStat(k, p)).sweeps[k];
            && after.doomed == before.doomed
                 + (if p in s.disk && s.disk[p] <= before.cutoff.value && p !in before.referenced then {p} else {})
            && Next(s, SweepStat(k, p)).disk == s.disk
  {}

  lemma SweepPrepares(s: State, k: SweepId)
    requires Enabled(s, SweepList(k))
    ensures var t := Next(s, SweepList(k));
            && t.sweeps[k].at == s.now
            && forall p :: p in t.sweeps[k].referenced <==> exists r :: r in s.files && r.path == p
    ensures var t := Next(Next(s, SweepList(k)), SweepRead(k));
            Enabled(t, SweepCut(k)) && Next(t, SweepCut(k)).sweeps[k].entries == Some(s.disk.Keys)
            && Next(t, SweepCut(k)).sweeps[k].cutoff == Some(s.now - s.age)
  {
    var t := Next(s, SweepList(k));
    forall p | exists r :: r in s.files && r.path == p ensures p in t.sweeps[k].referenced {
      var r :| r in s.files && r.path == p;
    }
  }

  // ---- Tables: one key, one file and one job per import

  function KeysOf(keys: map<Key, ImportId>, id: ImportId): set<Key> { set k | k in keys && keys[k] == id }

  function FilesOf(files: set<FileRow>, id: ImportId): set<FileRow> { set r | r in files && r.importId == id }

  predicate OneOfEach(keys: map<Key, ImportId>, imports: set<ImportId>, files: set<FileRow>, jobs: set<ImportId>,
                      id: ImportId)
  {
    if id in imports then |KeysOf(keys, id)| == 1 && |FilesOf(files, id)| == 1 && id in jobs
    else KeysOf(keys, id) == {} && FilesOf(files, id) == {} && id !in jobs
  }

  ghost predicate TablesOk(s: State) { forall id :: OneOfEach(s.keys, s.imports, s.files, s.jobs, id) }

  lemma CommitKeepsOne(keys: map<Key, ImportId>, imports: set<ImportId>, files: set<FileRow>, jobs: set<ImportId>,
                       key: Key, row: FileRow, id: ImportId)
    requires OneOfEach(keys, imports, files, jobs, id) && OneOfEach(keys, imports, files, jobs, row.importId)
    requires key !in keys && row.importId !in imports
    ensures OneOfEach(keys[key := row.importId], imports + {row.importId}, files + {row}, jobs + {row.importId}, id)
  {
    if id == row.importId {
      assert KeysOf(keys[key := row.importId], id) == {key};
      assert FilesOf(files + {row}, id) == {row};
    } else {
      assert KeysOf(keys[key := row.importId], id) == KeysOf(keys, id);
      assert FilesOf(files + {row}, id) == FilesOf(files, id);
    }
  }

  lemma StepKeepsTables(s: State, e: Event)
    requires TablesOk(s) && Enabled(s, e)
    ensures TablesOk(Next(s, e))
  {
    if Commits(s, e) {
      var r := s.requests[e.request];
      assert OneOfEach(s.keys, s.imports, s.files, s.jobs, r.importId);
      var t := Next(s, e);
      forall id ensures OneOfEach(t.keys, t.imports, t.files, t.jobs, id) {
        assert OneOfEach(s.keys, s.imports, s.files, s.jobs, id);
        CommitKeepsOne(s.keys, s.imports, s.files, s.jobs, r.key, FileRow(r.importId, r.path), id);
      }
    }
  }

  // ---- Requests: names are private, and each outcome means what it says

  ghost predicate RequestsOwn(requests: map<RequestId, Request>, owner: map<Path, RequestId>) {
    && (forall q :: q in requests ==> requests[q].path in owner && owner[requests[q].path] == q)
    && (forall p :: p in owner ==> owner[p] in requests && requests[owner[p]].path == p)
  }

  ghost predicate FilesEnded(files: set<FileRow>, requests: map<RequestId, Request>, owner: map<Path, RequestId>) {
    forall r :: r in files ==> r.path in owner && owner[r.path] in requests && requests[owner[r.path]].phase.Ended?
  }

  ghost predicate NamesOk(s: State) {
    RequestsOwn(s.requests, s.owner) && s.disk.Keys <= s.owner.Keys && FilesEnded(s.files, s.requests, s.owner)
  }

  ghost predicate OutcomeOk(r: Request, keys: map<Key, ImportId>, files: set<FileRow>, disk: map<Path, Time>) {
    match r.phase
    case Conflicting => r.key in keys
    case Discarding(id) => r.key in keys && keys[r.key] == id
    case Ended(Created(id)) => r.key in keys && keys[r.key] == id && FileRow(id, r.path) in files
    case Ended(Replayed(id)) => r.key in keys && keys[r.key] == id && r.path !in disk
    case Ended(Refused) => r.path !in disk
    case _ => true
  }

  ghost predicate OutcomesOk(s: State) {
    forall q :: q in s.requests ==> OutcomeOk(s.requests[q], s.keys, s.files, s.disk)
  }

  // The request a step belongs to.
  function Acts(e: Event): Option<RequestId> {
    match e
    case Tick(_) => None
    case SweepList(_) => None
    case SweepRead(_) => None
    case SweepCut(_) => None
    case SweepStat(_, _) => None
    case SweepRemove(_, _) => None
    case SweepEnd(_) => None
    case _ => Some(e.request)
  }

  // A step touches its own request only, keeps its names, and never revives an ended one.
  lemma RequestsFrame(s: State, e: Event, q: RequestId)
    requires Enabled(s, e) && q in s.requests
    ensures q in Requests(s, e)
    ensures var r, t := s.requests[q], Requests(s, e)[q];
            && t.key == r.key && t.importId == r.importId && t.path == r.path
            && (r.phase.Ended? ==> t == r) && (Acts(e) != Some(q) ==> t == r)
  {}

  lemma StepKeepsOwners(s: State, e: Event)
    requires Enabled(s, e) && RequestsOwn(s.requests, s.owner)
    ensures RequestsOwn(Requests(s, e), Next(s, e).owner)
  {
    if e.Open? {
      assert Next(s, e).owner == s.owner[e.path := e.request];
    } else {
      assert Requests(s, e).Keys == s.requests.Keys;
      forall q | q in s.requests ensures Requests(s, e)[q].path == s.requests[q].path { RequestsFrame(s, e, q); }
    }
  }

  lemma StepKeepsFilesEnded(s: State, e: Event)
    requires NamesOk(s) && Enabled(s, e)
    ensures FilesEnded(Next(s, e).files, Requests(s, e), Next(s, e).owner)
  {
    var t := Next(s, e);
    forall r | r in t.files
      ensures r.path in t.owner && t.owner[r.path] in t.requests && t.requests[t.owner[r.path]].phase.Ended?
    {
      if r in s.files {
        RequestsFrame(s, e, s.owner[r.path]);
      } else {
        assert s.owner[r.path] == e.request;
      }
    }
  }

  lemma StepKeepsNames(s: State, e: Event)
    requires NamesOk(s) && Enabled(s, e)
    ensures NamesOk(Next(s, e))
  {
    StepKeepsOwners(s, e);
    StepKeepsFilesEnded(s, e);
  }

  // Keys and files are only ever added, and a step puts on disk only what its own active request writes.
  lemma TablesGrow(s: State, e: Event, q: RequestId)
    requires NamesOk(s) && Enabled(s, e) && q in s.requests
    ensures s.files <= Next(s, e).files
    ensures var key := s.requests[q].key;
            key in s.keys ==> (key in Next(s, e).keys && Next(s, e).keys[key] == s.keys[key])
    ensures s.requests[q].path !in s.disk ==> s.requests[q].path !in Disk(s, e)
  {
    assert s.owner[s.requests[q].path] == q;
  }

  lemma OthersKeepOutcome(s: State, e: Event, q: RequestId)
    requires NamesOk(s) && Enabled(s, e) && q in s.requests
    requires OutcomeOk(s.requests[q], s.keys, s.files, s.disk)
    requires Acts(e) != Some(q) || s.requests[q].phase.Ended?
    ensures q in Requests(s, e) && OutcomeOk(Requests(s, e)[q], Next(s, e).keys, Next(s, e).files, Disk(s, e))
  {
    RequestsFrame(s, e, q);
    TablesGrow(s, e, q);
  }

  lemma OwnKeepsOutcome(s: State, e: Event)
    requires Enabled(s, e) && Acts(e).Some? && !e.Open? && Active(s, e.request)
    requires OutcomeOk(s.requests[e.request], s.keys, s.files, s.disk)
    ensures e.request in Requests(s, e)
    ensures OutcomeOk(Requests(s, e)[e.request], Next(s, e).keys, Next(s, e).files, Disk(s, e))
  {
    OnlyKeyIsReplay(KeysKey, true);
    OnlyKeyIsReplay(ImportsPkey, true);
  }

  lemma StepKeepsOutcomes(s: State, e: Event)
    requires NamesOk(s) && OutcomesOk(s) && Enabled(s, e)
    ensures OutcomesOk(Next(s, e))
  {
    var t := Next(s, e);
    forall q | q in t.requests ensures OutcomeOk(t.requests[q], t.keys, t.files, t.disk) {
      if q in s.requests {
        assert OutcomeOk(s.requests[q], s.keys, s.files, s.disk);
        if Acts(e) == Some(q) && !s.requests[q].phase.Ended? {
          OwnKeepsOutcome(s, e);
        } else {
          OthersKeepOutcome(s, e, q);
        }
      }
    }
  }

  ghost predicate Inv(s: State) { TablesOk(s) && NamesOk(s) && OutcomesOk(s) }

  lemma {:induction false} RunKeepsInv(s: State, es: seq<Event>)
    requires Inv(s) && ValidRun(s, es)
    ensures Inv(Run(s, es))
    decreases |es|
  {
    if es != [] {
      StepKeepsTables(s, es[0]);
      StepKeepsNames(s, es[0]);
      StepKeepsOutcomes(s, es[0]);
      RunKeepsInv(Next(s, es[0]), es[1..]);
    }
  }

  function ReturnedId(r: Request): Option<ImportId> {
    match r.phase case Ended(Created(id)) => Some(id) case Ended(Replayed(id)) => Some(id) case _ => None
  }

  predicate ReportsNew(r: Request) { r.phase.Ended? && r.phase.outcome.Created? }

  // For any interleaving of uploads, crashes and sweeps: an import has exactly one key, file and job;
  // successful requests under one key return one import, and at most one of them created it.
  lemma CreationIsIdempotent(age: int, now: Time, es: seq<Event>, a: RequestId, b: RequestId, id: ImportId)
    requires ValidRun(Init(age, now), es)
    requires var s := Run(Init(age, now), es);
             a in s.requests && b in s.requests && s.requests[a].key == s.requests[b].key
    ensures var s := Run(Init(age, now), es); OneOfEach(s.keys, s.imports, s.files, s.jobs, id)
    ensures var s := Run(Init(age, now), es);
            var x, y, key := ReturnedId(s.requests[a]), ReturnedId(s.requests[b]), s.requests[a].key;
            && (x.Some? && y.Some? ==> x == y && key in s.keys && x.value == s.keys[key])
            && (ReportsNew(s.requests[a]) && ReportsNew(s.requests[b]) ==> a == b)
  {
    RunKeepsInv(Init(age, now), es);
    var s := Run(Init(age, now), es);
    assert OutcomeOk(s.requests[a], s.keys, s.files, s.disk) && OutcomeOk(s.requests[b], s.keys, s.files, s.disk);
    if ReportsNew(s.requests[a]) && ReportsNew(s.requests[b]) {
      var i := s.requests[a].phase.outcome.id;
      assert OneOfEach(s.keys, s.imports, s.files, s.jobs, i);
      OnlyMember(FilesOf(s.files, i), FileRow(i, s.requests[a].path), FileRow(i, s.requests[b].path));
      assert s.owner[s.requests[a].path] == a && s.owner[s.requests[b].path] == b;
    }
  }

  lemma OnlyMember<T>(s: set<T>, a: T, b: T)
    requires |s| == 1 && a in s && b in s
    ensures a == b
  {
    assert |s - {a}| == 0;
  }

  // Once every request has ended, an unreferenced file belongs to one that failed with an error.
  lemma OrphansComeFromErrors(age: int, now: Time, es: seq<Event>, p: Path)
    requires ValidRun(Init(age, now), es)
    requires var s := Run(Init(age, now), es);
             && p in s.disk && (forall r :: r in s.files ==> r.path != p)
             && forall q :: q in s.requests ==> s.requests[q].phase.Ended?
    ensures var s := Run(Init(age, now), es);
            p in s.owner && s.owner[p] in s.requests && s.requests[s.owner[p]].phase == Ended(Errored)
  {
    RunKeepsInv(Init(age, now), es);
    var s := Run(Init(age, now), es);
    var r := s.requests[s.owner[p]];
    assert OutcomeOk(r, s.keys, s.files, s.disk);
  }
}
