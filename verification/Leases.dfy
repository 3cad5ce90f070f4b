/**
 * The lease protocol over the job and import tables. Every SQL statement or transaction is one step;
 * marking, releasing and reclaiming take two, and any other step may fall between them.
 * A job and its import share one identifier here: processing_jobs.importId is unique.
 */
module Leases {
  import opened Prelude

  type JobId = string
  type WorkerId = string
  type ReclaimId = nat
  type Time = int

  datatype Status = Pending | Claimed | Processing | Cancelling | Completed | Failed | Cancelled

  datatype Job = Job(status: Status, attemptCount: nat, leasedBy: Option<WorkerId>, leasedUntil: Option<Time>)

  // How far the one execution of a worker is: Marking has written the job row of markProcessing,
  // Finishing the job row of a final mark, and each still owes the import row.
  datatype Phase = Started | Marking | Working | Finishing(target: Status)
  datatype Execution = Execution(job: JobId, phase: Phase)

  datatype State = State(
    maxAttempts: int,
    now: Time,
    jobs: map<JobId, Job>,
    imports: map<JobId, Status>,
    executions: map<WorkerId, Execution>,
    reclaims: map<ReclaimId, map<JobId, nat>>,   // read as expired, with the attempt count read
    releases: map<WorkerId, JobId>,              // job row released, import row not yet
    grants: map<(JobId, WorkerId), Time>,        // history: last successful claim or renewal, until release
    resets: map<JobId, nat>)                     // history: returns to PENDING by reclaim

  datatype Event =
    | Tick(elapsed: nat)
    | Create(job: JobId)
    | Claim(worker: WorkerId, job: JobId, leaseMs: int)
    | Renew(worker: WorkerId, leaseMs: int)
    | MarkJob(worker: WorkerId, target: Status)        // first statement of updateBoth
    | MarkImport(worker: WorkerId, acknowledged: bool) // second statement of updateBoth
    | Abandon(worker: WorkerId)                        // crash, escaped error or shutdown
    | ReleaseJob(worker: WorkerId, job: JobId)
    | ReleaseImport(worker: WorkerId)
    | ReclaimRead(id: ReclaimId)
    | ReclaimWrite(id: ReclaimId)
    | ReclaimNow                                       // both halves with nothing in between
    | Cancel(job: JobId)

  function Init(maxAttempts: int, now: Time): State {
    State(maxAttempts, now, map[], map[], map[], map[], map[], map[], map[])
  }

  predicate Terminal(s: Status) { s == Completed || s == Failed || s == Cancelled }

  predicate Leasable(s: Status) { s == Claimed || s == Processing }

  predicate Expired(j: Job, now: Time) { Leasable(j.status) && j.leasedUntil.Some? && j.leasedUntil.value < now }

  predicate Eligible(j: Job, now: Time) { j.status == Pending || Expired(j, now) }

  // Math.max(1, Math.ceil(leaseDurationMs / 1000)) seconds
  function LeaseMs(ms: int): int { Max(1, (ms + 999) / 1000) * 1000 }

  predicate MayMark(p: Phase, target: Status) {
    match p
    case Started => target == Processing || target == Failed
    case Marking => false
    case Working => Terminal(target)
    case Finishing(t) => t != Failed && target == Failed
  }

  predicate Enabled(s: State, e: Event) {
    match e
    case Tick(_) => true
    case Create(j) => j !in s.jobs && j !in s.imports
    case Claim(w, j, _) => w !in s.executions && j in s.jobs && Eligible(s.jobs[j], s.now)
    case Renew(w, _) => w in s.executions && s.executions[w].phase == Working && s.executions[w].job in s.jobs
    case MarkJob(w, t) => w in s.executions && MayMark(s.executions[w].phase, t) && s.executions[w].job in s.jobs
    case MarkImport(w, _) =>
      && w in s.executions && s.executions[w].job in s.imports
      && (s.executions[w].phase == Marking || s.executions[w].phase.Finishing?)
    case Abandon(w) => w in s.executions
    case ReleaseJob(w, j) => w !in s.executions && w !in s.releases && j in s.jobs
    case ReleaseImport(w) => w in s.releases && s.releases[w] in s.imports
    case ReclaimRead(r) => r !in s.reclaims
    case ReclaimWrite(r) => r in s.reclaims
    case ReclaimNow => true
    case Cancel(j) => j in s.jobs && j in s.imports
  }

  function Leased(j: Job, w: WorkerId, until: Time): Job { j.(leasedBy := Some(w), leasedUntil := Some(until)) }

  function Unleased(j: Job, status: Status): Job { j.(status := status, leasedBy := None, leasedUntil := None) }

  function Snapshot(jobs: map<JobId, Job>, now: Time): map<JobId, nat> {
    map j | j in jobs && Expired(jobs[j], now) :: jobs[j].attemptCount
  }

  // Does renewLease match the row, and does releaseLease?
  predicate Renews(s: State, w: WorkerId)
    requires w in s.executions && s.executions[w].job in s.jobs
  {
    s.jobs[s.executions[w].job].leasedBy == Some(w)
  }

  predicate Releases(s: State, w: WorkerId, j: JobId)
    requires j in s.jobs
  {
    s.jobs[j].leasedBy == Some(w) && Leasable(s.jobs[j].status)
  }

  predicate Cancels(s: State, j: JobId)
    requires j in s.imports
  {
    !Terminal(s.imports[j]) && s.imports[j] != Cancelling
  }

  // The transaction of reclaimExpiredLeases: decided by what was read, applied to whatever is there.
  function ReclaimedJobs(s: State, seen: map<JobId, nat>): map<JobId, Job> {
    map j | j in s.jobs :: if j !in seen then s.jobs[j]
      else Unleased(s.jobs[j], if seen[j] >= s.maxAttempts then Failed else Pending)
  }

  function ReclaimedImports(s: State, seen: map<JobId, nat>): map<JobId, Status> {
    map j | j in s.imports :: if j !in seen then s.imports[j]
      else if seen[j] >= s.maxAttempts then Failed
      else if s.imports[j] == Processing then Pending else s.imports[j]
  }

  function ReclaimedResets(s: State, seen: map<JobId, nat>): map<JobId, nat> {
    map j | j in s.resets :: s.resets[j] + if j in seen && seen[j] < s.maxAttempts then 1 else 0
  }

  // ---- One step, table by table

  function Jobs(s: State, e: Event): map<JobId, Job>
    requires Enabled(s, e)
  {
    match e
    case Create(j) => s.jobs[j := Job(Pending, 0, None, None)]
    case Claim(w, j, ms) =>
      var row := s.jobs[j];
      s.jobs[j := Leased(row.(status := Claimed, attemptCount := row.attemptCount + 1), w, s.now + LeaseMs(ms))]
    case Renew(w, ms) =>
      var j := s.executions[w].job;
      if Renews(s, w) then s.jobs[j := Leased(s.jobs[j], w, s.now + LeaseMs(ms))] else s.jobs
    case MarkJob(w, t) => var j := s.executions[w].job; s.jobs[j := s.jobs[j].(status := t)]
    case ReleaseJob(w, j) => if Releases(s, w, j) then s.jobs[j := Unleased(s.jobs[j], Pending)] else s.jobs
    case ReclaimWrite(r) => ReclaimedJobs(s, s.reclaims[r])
    case ReclaimNow => ReclaimedJobs(s, Snapshot(s.jobs, s.now))
    case Cancel(j) => if Cancels(s, j) then s.jobs[j := s.jobs[j].(status := Cancelling)] else s.jobs
    case _ => s.jobs
  }

  function Imports(s: State, e: Event): map<JobId, Status>
    requires Enabled(s, e)
  {
    match e
    case Create(j) => s.imports[j := Pending]
    case MarkImport(w, _) =>
      var x := s.executions[w];
      s.imports[x.job := if x.phase == Marking then Processing else x.phase.target]
    case ReleaseImport(w) =>
      var j := s.releases[w];
      if s.imports[j] == Processing then s.imports[j := Pending] else s.imports
    case ReclaimWrite(r) => ReclaimedImports(s, s.reclaims[r])
    case ReclaimNow => ReclaimedImports(s, Snapshot(s.jobs, s.now))
    case Cancel(j) => if Cancels(s, j) then s.imports[j := Cancelling] else s.imports
    case _ => s.imports
  }

  function Executions(s: State, e: Event): map<WorkerId, Execution>
    requires Enabled(s, e)
  {
    match e
    case Claim(w, j, _) => s.executions[w := Execution(j, Started)]
    case MarkJob(w, t) =>
      s.executions[w := Execution(s.executions[w].job, if t == Processing then Marking else Finishing(t))]
    case MarkImport(w, acknowledged) =>
      if s.executions[w].phase == Marking then s.executions[w := Execution(s.executions[w].job, Working)]
      else if acknowledged then s.executions - {w} else s.executions
    case Abandon(w) => s.executions - {w}
    case _ => s.executions
  }

  function Reclaims(s: State, e: Event): map<ReclaimId, map<JobId, nat>> {
    match e
    case ReclaimRead(r) => s.reclaims[r := Snapshot(s.jobs, s.now)]
    case ReclaimWrite(r) => s.reclaims - {r}
    case _ => s.reclaims
  }

  function PendingReleases(s: State, e: Event): map<WorkerId, JobId>
    requires Enabled(s, e)
  {
    match e
    case ReleaseJob(w, j) => if Releases(s, w, j) then s.releases[w := j] else s.releases
    case ReleaseImport(w) => s.releases - {w}
    case _ => s.releases
  }

  function Grants(s: State, e: Event): map<(JobId, WorkerId), Time>
    requires Enabled(s, e)
  {
    match e
    case Claim(w, j, ms) => s.grants[(j, w) := s.now + LeaseMs(ms)]
    case Renew(w, ms) => if Renews(s, w) then s.grants[(s.executions[w].job, w) := s.now + LeaseMs(ms)] else s.grants
    case ReleaseJob(w, j) => s.grants - {(j, w)}
    case _ => s.grants
  }

  function Resets(s: State, e: Event): map<JobId, nat>
    requires Enabled(s, e)
  {
    match e
    case Create(j) => s.resets[j := 0]
    case ReclaimWrite(r) => ReclaimedResets(s, s.reclaims[r])
    case ReclaimNow => ReclaimedResets(s, Snapshot(s.jobs, s.now))
    case _ => s.resets
  }

  function Next(s: State, e: Event): State
    requires Enabled(s, e)
  {
    State(s.maxAttempts, if e.Tick? then s.now + e.elapsed else s.now, Jobs(s, e), Imports(s, e), Executions(s, e),
          Reclaims(s, e), PendingReleases(s, e), Grants(s, e), Resets(s, e))
  }

  ghost predicate ValidRun(s: State, es: seq<Event>)
    decreases |es|
  {
    es == [] || (Enabled(s, es[0]) && ValidRun(Next(s, es[0]), es[1..]))
  }

  function Run(s: State, es: seq<Event>): State
    requires ValidRun(s, es)
    decreases |es|
  {
    if es == [] then s else Run(Next(s, es[0]), es[1..])
  }

  // ---- Bookkeeping: every run, no hypothesis

  predicate RowOk(j: Job) {
    && (j.leasedBy.None? <==> j.leasedUntil.None?)
    && (j.status == Pending ==> j.leasedBy.None?)
    && (j.status == Claimed ==> j.leasedBy.Some?)
  }

  ghost predicate Bookkeeping(jobs: map<JobId, Job>) { forall j :: j in jobs ==> RowOk(jobs[j]) }

  ghost predicate KeysMatch(s: State) { s.jobs.Keys == s.imports.Keys == s.resets.Keys }

  ghost predicate ExecutionsKnown(s: State) { forall w :: w in s.executions ==> s.executions[w].job in s.jobs }

  lemma StepKeepsBookkeeping(s: State, e: Event)
    requires Enabled(s, e) && Bookkeeping(s.jobs)
    ensures Bookkeeping(Next(s, e).jobs)
  {}

  lemma StepKeepsKeys(s: State, e: Event)
    requires Enabled(s, e) && KeysMatch(s)
    ensures KeysMatch(Next(s, e))
  {}

  lemma StepKeepsExecutionsKnown(s: State, e: Event)
    requires Enabled(s, e) && ExecutionsKnown(s)
    ensures ExecutionsKnown(Next(s, e))
  {}

  lemma StepCountsClaim(s: State, e: Event, j: JobId)
    requires Enabled(s, e)
    ensures Attempts(Next(s, e), j) == Attempts(s, j) + if e.Claim? && e.job == j then 1 else 0
  {}

  function CountClaims(es: seq<Event>, j: JobId): nat {
    if es == [] then 0 else (if es[0].Claim? && es[0].job == j then 1 else 0) + CountClaims(es[1..], j)
  }

  function Attempts(s: State, j: JobId): nat { if j in s.jobs then s.jobs[j].attemptCount else 0 }

  lemma {:induction false} RunBookkeeping(s: State, es: seq<Event>, j: JobId)
    requires ValidRun(s, es) && Bookkeeping(s.jobs)
    ensures Bookkeeping(Run(s, es).jobs)
    ensures Attempts(Run(s, es), j) == Attempts(s, j) + CountClaims(es, j)
    decreases |es|
  {
    if es != [] {
      StepKeepsBookkeeping(s, es[0]);
      StepCountsClaim(s, es[0], j);
      RunBookkeeping(Next(s, es[0]), es[1..], j);
    }
  }

  // PENDING rows carry no lease, CLAIMED rows carry one, leasedBy and leasedUntil come together, and
  // attemptCount is the number of claims, in every reachable state.
  lemma LeaseBookkeeping(maxAttempts: int, now: Time, es: seq<Event>, j: JobId)
    requires ValidRun(Init(maxAttempts, now), es) && j in Run(Init(maxAttempts, now), es).jobs
    ensures RowOk(Run(Init(maxAttempts, now), es).jobs[j])
    ensures Run(Init(maxAttempts, now), es).jobs[j].attemptCount == CountClaims(es, j)
  {
    RunBookkeeping(Init(maxAttempts, now), es, j);
  }

  // ---- How often reclaim returns a job to PENDING: every run, no hypothesis

  function ResetsOf(s: State, j: JobId): nat { if j in s.resets then s.resets[j] else 0 }

  predicate IsLeased(s: State, j: JobId) { j in s.jobs && s.jobs[j].leasedBy.Some? }

  predicate ResetsJob(s: State, e: Event, j: JobId) {
    && j in s.jobs
    && match e
       case ReclaimWrite(r) => r in s.reclaims && j in s.reclaims[r] && s.reclaims[r][j] < s.maxAttempts
       case ReclaimNow => Expired(s.jobs[j], s.now) && s.jobs[j].attemptCount < s.maxAttempts
       case _ => false
  }

  // Does the row still carry a lease, with attempts left? It does if it is leased at the attempt that was read,
  // so a reset that is not justified writes over a row that has changed in between.
  predicate Justified(s: State, j: JobId) { IsLeased(s, j) && s.jobs[j].attemptCount < s.maxAttempts }

  function CountResets(s: State, es: seq<Event>, j: JobId, justified: bool): nat
    requires ValidRun(s, es)
    decreases |es|
  {
    if es == [] then 0
    else (if ResetsJob(s, es[0], j) && Justified(s, j) == justified then 1 else 0)
         + CountResets(Next(s, es[0]), es[1..], j, justified)
  }

  // Each justified reset has used up a claim of its own, and the present lease is one more claim.
  ghost predicate ResetsPaid(s: State, j: JobId, justified: nat) {
    && justified + (if IsLeased(s, j) then 1 else 0) <= Attempts(s, j)
    && justified <= Max(0, s.maxAttempts - 1)
  }

  lemma StepCountsReset(s: State, e: Event, j: JobId)
    requires Enabled(s, e) && KeysMatch(s)
    ensures ResetsOf(Next(s, e), j) == ResetsOf(s, j) + if ResetsJob(s, e, j) then 1 else 0
  {}

  lemma StepKeepsPaid(s: State, e: Event, j: JobId, justified: nat)
    requires Enabled(s, e) && Bookkeeping(s.jobs) && ResetsPaid(s, j, justified)
    ensures ResetsPaid(Next(s, e), j, justified + if ResetsJob(s, e, j) && Justified(s, j) then 1 else 0)
  {
    StepCountsClaim(s, e, j);
    StepLeases(s, e, j);
  }

  // Only a claim leases a job that had no lease, and a reset takes the lease away.
  lemma StepLeases(s: State, e: Event, j: JobId)
    requires Enabled(s, e) && Bookkeeping(s.jobs)
    ensures IsLeased(Next(s, e), j) && !IsLeased(s, j) ==> e.Claim? && e.job == j
    ensures ResetsJob(s, e, j) ==> !IsLeased(Next(s, e), j)
  {}

  lemma {:induction false} RunCountsResets(s: State, es: seq<Event>, j: JobId, justified: nat)
    requires ValidRun(s, es) && Bookkeeping(s.jobs) && KeysMatch(s) && ResetsPaid(s, j, justified)
    ensures ResetsOf(Run(s, es), j) == ResetsOf(s, j) + CountResets(s, es, j, true) + CountResets(s, es, j, false)
    ensures justified + CountResets(s, es, j, true) <= Max(0, s.maxAttempts - 1)
    decreases |es|
  {
    if es != [] {
      StepKeepsBookkeeping(s, es[0]);
      StepKeepsKeys(s, es[0]);
      StepCountsReset(s, es[0], j);
      StepKeepsPaid(s, es[0], j, justified);
      RunCountsResets(Next(s, es[0]), es[1..], j,
                      justified + if ResetsJob(s, es[0], j) && Justified(s, j) then 1 else 0);
    }
  }

  // In every run, whatever falls between a reclaim's read and its write: resets that find the row leased with
  // attempts left number at most maxAttempts - 1, so a job exceeds that bound only by its other resets.
  lemma ResetsAreBounded(maxAttempts: int, now: Time, es: seq<Event>, j: JobId)
    requires ValidRun(Init(maxAttempts, now), es)
    ensures var init := Init(maxAttempts, now);
            var justified, others := CountResets(init, es, j, true), CountResets(init, es, j, false);
            && ResetsOf(Run(init, es), j) == justified + others
            && justified <= Max(0, maxAttempts - 1)
            && ResetsOf(Run(init, es), j) <= Max(0, maxAttempts - 1) + others
            && (others == 0 ==> ResetsOf(Run(init, es), j) <= Max(0, maxAttempts - 1))
  {
    RunCountsResets(Init(maxAttempts, now), es, j, 0);
  }

  // ---- Lease exclusivity

  ghost predicate Live(s: State, j: JobId, w: WorkerId) { (j, w) in s.grants && s.grants[(j, w)] > s.now }

  // A lease a worker still believes in is the lease the row carries.
  ghost predicate GrantsHonoured(s: State) {
    forall j, w :: Live(s, j, w) ==>
      j in s.jobs && s.jobs[j].leasedBy == Some(w) && s.jobs[j].leasedUntil == Some(s.grants[(j, w)])
  }

  // What a pending reclaim has read is still the attempt it was, expired or without a lease by now.
  ghost predicate SnapshotsCurrent(s: State) {
    forall r, j :: r in s.reclaims && j in s.reclaims[r] ==> j in s.jobs && s.jobs[j].attemptCount == s.reclaims[r][j]
  }

  ghost predicate SnapshotsExpired(s: State) {
    forall r, j :: r in s.reclaims && j in s.reclaims[r] && j in s.jobs && s.jobs[j].leasedUntil.Some? ==>
      s.jobs[j].leasedUntil.value < s.now
  }

  ghost predicate Unread(s: State, j: JobId) { forall r :: r in s.reclaims ==> j !in s.reclaims[r] }

  // No claim or effective renewal of a job commits between a reclaim's read of it and its write.
  ghost predicate Quiet(s: State, e: Event) {
    match e
    case Claim(_, j, _) => Unread(s, j)
    case Renew(w, _) =>
      (w in s.executions && s.executions[w].job in s.jobs && Renews(s, w)) ==> Unread(s, s.executions[w].job)
    case _ => true
  }

  ghost predicate LeaseInv(s: State) {
    Bookkeeping(s.jobs) && ExecutionsKnown(s) && GrantsHonoured(s) && SnapshotsCurrent(s) && SnapshotsExpired(s)
  }

  lemma StepKeepsCurrent(s: State, e: Event)
    requires Enabled(s, e) && Quiet(s, e) && SnapshotsCurrent(s)
    ensures SnapshotsCurrent(Next(s, e))
  {}

  lemma StepKeepsExpired(s: State, e: Event)
    requires Enabled(s, e) && Quiet(s, e) && SnapshotsCurrent(s) && SnapshotsExpired(s)
    ensures SnapshotsExpired(Next(s, e))
  {}

  // The write of a reclaim respects every live lease exactly when it hits none.
  lemma ReclaimWriteExact(s: State, r: ReclaimId)
    requires GrantsHonoured(s) && r in s.reclaims
    ensures GrantsHonoured(Next(s, ReclaimWrite(r)))
       <==> forall j, w :: j in s.reclaims[r] ==> !Live(s, j, w)
  {
    var t := Next(s, ReclaimWrite(r));
    assert forall j, w :: Live(t, j, w) <==> Live(s, j, w);
    if j, w :| j in s.reclaims[r] && Live(s, j, w) {
      assert t.jobs[j].leasedBy == None;
      assert Live(t, j, w);
    }
  }

  // Does the step take away a lease somebody still believes in?
  ghost predicate HitsLive(s: State, e: Event) {
    e.ReclaimWrite? && e.id in s.reclaims && exists j, w :: j in s.reclaims[e.id] && Live(s, j, w)
  }

  lemma OtherKeepsHonoured(s: State, e: Event)
    requires Enabled(s, e) && Bookkeeping(s.jobs) && GrantsHonoured(s) && !e.ReclaimWrite?
    ensures GrantsHonoured(Next(s, e))
  {
    var t := Next(s, e);
    forall j, w | Live(t, j, w)
      ensures j in t.jobs && t.jobs[j].leasedBy == Some(w) && t.jobs[j].leasedUntil == Some(t.grants[(j, w)])
    {
      if !(e.Claim? && e.job == j && e.worker == w) && !(e.Renew? && e.worker == w) {
        assert Live(s, j, w);
      }
    }
  }

  lemma StepHonouredIff(s: State, e: Event)
    requires Enabled(s, e) && Bookkeeping(s.jobs) && GrantsHonoured(s)
    ensures GrantsHonoured(Next(s, e)) <==> !HitsLive(s, e)
  {
    if e.ReclaimWrite? {
      ReclaimWriteExact(s, e.id);
    } else {
      OtherKeepsHonoured(s, e);
    }
  }

  ghost predicate AlwaysHonoured(s: State, es: seq<Event>)
    requires ValidRun(s, es)
    decreases |es|
  {
    GrantsHonoured(s) && (es == [] || AlwaysHonoured(Next(s, es[0]), es[1..]))
  }

  ghost predicate SparesLive(s: State, es: seq<Event>)
    requires ValidRun(s, es)
    decreases |es|
  {
    es == [] || (!HitsLive(s, es[0]) && SparesLive(Next(s, es[0]), es[1..]))
  }

  lemma {:induction false} HonouredIff(s: State, es: seq<Event>)
    requires ValidRun(s, es) && Bookkeeping(s.jobs) && GrantsHonoured(s)
    ensures AlwaysHonoured(s, es) <==> SparesLive(s, es)
    ensures AlwaysHonoured(s, es) ==> GrantsHonoured(Run(s, es))
    decreases |es|
  {
    if es != [] {
      StepKeepsBookkeeping(s, es[0]);
      StepHonouredIff(s, es[0]);
      if !HitsLive(s, es[0]) { HonouredIff(Next(s, es[0]), es[1..]); }
    }
  }

  // In every run from the start: rows honour all live leases in every state exactly when no reclaim writes
  // over a job on which somebody holds a live lease.
  lemma LeasesHonouredIff(maxAttempts: int, now: Time, es: seq<Event>)
    requires ValidRun(Init(maxAttempts, now), es)
    ensures AlwaysHonoured(Init(maxAttempts, now), es) <==> SparesLive(Init(maxAttempts, now), es)
  {
    HonouredIff(Init(maxAttempts, now), es);
  }

  lemma StepKeepsLeaseInv(s: State, e: Event)
    requires Enabled(s, e) && Quiet(s, e) && LeaseInv(s)
    ensures LeaseInv(Next(s, e))
  {
    StepKeepsBookkeeping(s, e);
    StepKeepsExecutionsKnown(s, e);
    StepKeepsCurrent(s, e);
    StepKeepsExpired(s, e);
    assert !HitsLive(s, e);
    StepHonouredIff(s, e);
  }

  ghost predicate QuietRun(s: State, es: seq<Event>)
    requires ValidRun(s, es)
    decreases |es|
  {
    es == [] || (Quiet(s, es[0]) && QuietRun(Next(s, es[0]), es[1..]))
  }

  lemma {:induction false} RunKeepsLeaseInv(s: State, es: seq<Event>)
    requires ValidRun(s, es) && QuietRun(s, es) && LeaseInv(s)
    ensures LeaseInv(Run(s, es))
    decreases |es|
  {
    if es != [] {
      StepKeepsLeaseInv(s, es[0]);
      RunKeepsLeaseInv(Next(s, es[0]), es[1..]);
    }
  }

  lemma {:induction false} QuietSparesLive(s: State, es: seq<Event>)
    requires ValidRun(s, es) && QuietRun(s, es) && LeaseInv(s)
    ensures SparesLive(s, es)
    decreases |es|
  {
    if es != [] {
      StepKeepsLeaseInv(s, es[0]);
      QuietSparesLive(Next(s, es[0]), es[1..]);
    }
  }

  // A live lease is the row's lease, so no two workers hold one on the same job, as long as no reclaim has
  // written over a live lease.
  lemma LeaseExclusivity(maxAttempts: int, now: Time, es: seq<Event>, j: JobId, v: WorkerId, w: WorkerId)
    requires ValidRun(Init(maxAttempts, now), es) && SparesLive(Init(maxAttempts, now), es)
    requires Live(Run(Init(maxAttempts, now), es), j, v) && Live(Run(Init(maxAttempts, now), es), j, w)
    ensures v == w
    ensures var s := Run(Init(maxAttempts, now), es);
            j in s.jobs && s.jobs[j].leasedBy == Some(v) && s.jobs[j].leasedUntil == Some(s.grants[(j, v)])
  {
    HonouredIff(Init(maxAttempts, now), es);
  }

  // That is so if no claim or renewal of a job falls between a reclaim's read of it and its write.
  lemma QuietRunsSpareLive(maxAttempts: int, now: Time, es: seq<Event>)
    requires ValidRun(Init(maxAttempts, now), es) && QuietRun(Init(maxAttempts, now), es)
    ensures SparesLive(Init(maxAttempts, now), es)
  {
    QuietSparesLive(Init(maxAttempts, now), es);
  }
}
