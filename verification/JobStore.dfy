/** The job and import tables as the repositories write them, statement by statement, and the polling worker. */
module JobStore {
  import opened Prelude
  import opened Leases

  datatype ClaimedJob = ClaimedJob(id: JobId, attemptCount: nat, worker: WorkerId)

  class Repository {
    var jobs: map<JobId, Job>
    var imports: map<JobId, Status>
    var createdAt: map<JobId, Time>
    const maxAttempts: int

    constructor (maxAttempts: int)
      ensures this.maxAttempts == maxAttempts && jobs == map[] && imports == map[] && createdAt == map[]
    {
      this.maxAttempts, jobs, imports, createdAt := maxAttempts, map[], map[], map[];
    }

    // The tables are those of a state of the protocol.
    ghost predicate Shows(s: State)
      reads this
    {
      jobs == s.jobs && imports == s.imports && createdAt.Keys == jobs.Keys && maxAttempts == s.maxAttempts
    }

    // UPDATE ... WHERE id = (SELECT ... ORDER BY createdAt FOR UPDATE SKIP LOCKED LIMIT 1)
    method ClaimNext(worker: WorkerId, leaseMs: int, now: Time, locked: set<JobId>, ghost s: State)
      returns (claimed: Option<ClaimedJob>)
      requires Shows(s) && now == s.now && worker !in s.executions
      modifies this
      ensures claimed.None? ==> Shows(s) && forall j :: j in s.jobs && j !in locked ==> !Eligible(s.jobs[j], now)
      ensures claimed.Some? ==>
                var j := claimed.value.id;
                && Enabled(s, Claim(worker, j, leaseMs)) && Shows(Next(s, Claim(worker, j, leaseMs))) && j !in locked
                && claimed.value == ClaimedJob(j, s.jobs[j].attemptCount + 1, worker)
                && forall k :: k in s.jobs && k !in locked && Eligible(s.jobs[k], now) ==>
                     old(createdAt)[j] <= old(createdAt)[k]
    {
      var candidates := set j | j in jobs && j !in locked && Eligible(jobs[j], now);
      if candidates == {} {
        assert forall j :: j in jobs && j !in locked && Eligible(jobs[j], now) ==> j in candidates;
        return None;
      }
      OldestExists(candidates, createdAt);
      var j :| j in candidates && forall k :: k in candidates ==> createdAt[j] <= createdAt[k];
      var row := jobs[j];
      jobs := jobs[j := Job(Claimed, row.attemptCount + 1, Some(worker), Some(now + LeaseMs(leaseMs)))];
      claimed := Some(ClaimedJob(j, row.attemptCount + 1, worker));
    }

    // The caller ignores whether the row still names it.
    method RenewLease(job: JobId, worker: WorkerId, leaseMs: int, now: Time, ghost s: State)
      requires Shows(s) && now == s.now && Enabled(s, Renew(worker, leaseMs)) && s.executions[worker].job == job
      modifies this
      ensures Shows(Next(s, Renew(worker, leaseMs)))
    {
      if job in jobs && jobs[job].leasedBy == Some(worker) {
        jobs := jobs[job := jobs[job].(leasedUntil := Some(now + LeaseMs(leaseMs)))];
      }
    }

    // The first statement of a mark...
    method UpdateJob(job: JobId, worker: WorkerId, target: Status, ghost s: State)
      requires Shows(s) && Enabled(s, MarkJob(worker, target)) && s.executions[worker].job == job
      modifies this
      ensures Shows(Next(s, MarkJob(worker, target)))
    {
      jobs := jobs[job := jobs[job].(status := target)];
    }

    // ...and the second, in whatever state the statements of others have led to.
    method UpdateImport(job: JobId, worker: WorkerId, target: Status, acknowledged: bool, ghost s: State)
      requires Shows(s) && Enabled(s, MarkImport(worker, acknowledged))
      requires var x := s.executions[worker];
               x.job == job && target == if x.phase == Marking then Processing else x.phase.target
      modifies this
      ensures Shows(Next(s, MarkImport(worker, acknowledged)))
    {
      imports := imports[job := target];
    }

    // markProcessing, markCompleted, markFailed and markCancelled without interference in between.
    method UpdateBoth(job: JobId, worker: WorkerId, target: Status, ghost s: State)
      requires Shows(s) && Enabled(s, MarkJob(worker, target)) && s.executions[worker].job == job && job in s.imports
      modifies this
      ensures Shows(Next(Next(s, MarkJob(worker, target)), MarkImport(worker, true)))
    {
      UpdateJob(job, worker, target, s);
      UpdateImport(job, worker, target, true, Next(s, MarkJob(worker, target)));
    }

    method ReleaseJobRow(job: JobId, worker: WorkerId, ghost s: State) returns (released: bool)
      requires Shows(s) && Enabled(s, ReleaseJob(worker, job))
      modifies this
      ensures released == Releases(s, worker, job) && Shows(Next(s, ReleaseJob(worker, job)))
    {
      var row := jobs[job];
      released := row.leasedBy == Some(worker) && (row.status == Claimed || row.status == Processing);
      if released { jobs := jobs[job := row.(status := Pending, leasedBy := None, leasedUntil := None)]; }
    }

    method ReleaseImportRow(job: JobId, worker: WorkerId, ghost s: State)
      requires Shows(s) && Enabled(s, ReleaseImport(worker)) && s.releases[worker] == job
      modifies this
      ensures Shows(Next(s, ReleaseImport(worker)))
    {
      if imports[job] == Processing { imports := imports[job := Pending]; }
    }

    // Both statements without interference; the second follows only if the first matched.
    method ReleaseLease(job: JobId, worker: WorkerId, ghost s: State) returns (released: bool)
      requires Shows(s) && Enabled(s, ReleaseJob(worker, job)) && job in s.imports
      modifies this
      ensures released == Releases(s, worker, job)
      ensures Shows(if released then Next(Next(s, ReleaseJob(worker, job)), ReleaseImport(worker))
                    else Next(s, ReleaseJob(worker, job)))
    {
      released := ReleaseJobRow(job, worker, s);
      if released { ReleaseImportRow(job, worker, Next(s, ReleaseJob(worker, job))); }
    }

    method ReadExpired(now: Time, ghost s: State) returns (expired: map<JobId, nat>)
      requires Shows(s) && now == s.now
      ensures expired == Snapshot(s.jobs, s.now)
    {
      expired := map j | j in jobs && (jobs[j].status == Claimed || jobs[j].status == Processing)
                         && jobs[j].leasedUntil.Some? && jobs[j].leasedUntil.value < now :: jobs[j].attemptCount;
    }

    // The counts returned are those of the rows read, whatever has happened to them since.
    method WriteReclaimed(expired: map<JobId, nat>, ghost s: State) returns (reset: nat, failed: nat)
      requires Shows(s)
      modifies this
      ensures jobs == ReclaimedJobs(s, expired) && imports == ReclaimedImports(s, expired)
      ensures createdAt == old(createdAt)
      ensures reset + failed == |expired|
      ensures failed == |set j | j in expired && expired[j] >= maxAttempts|
    {
      var toFail := set j | j in expired && expired[j] >= maxAttempts;
      var toReset := set j | j in expired && expired[j] < maxAttempts;
      jobs := Close(jobs, toFail, Failed);
      imports := Settle(imports, toFail, Failed, false);
      jobs := Close(jobs, toReset, Pending);
      imports := Settle(imports, toReset, Pending, true);
      TwoUpdates(s, expired, toFail, toReset);
      Partition(expired, maxAttempts, toFail, toReset);
      return |toReset|, |toFail|;
    }

    // None stands for ImportNotFoundError.
    method RequestCancellation(job: JobId, ghost s: State) returns (status: Option<Status>)
      requires Shows(s) && KeysMatch(s)
      modifies this
      ensures status.None? <==> job !in s.imports
      ensures status.None? ==> Shows(s)
      ensures status.Some? ==> Shows(Next(s, Cancel(job)))
      ensures status.Some? ==> status.value == if Terminal(s.imports[job]) then s.imports[job] else Cancelling
      ensures if status == Some(Cancelling) && old(imports)[job] != Cancelling
              then jobs == old(jobs)[job := old(jobs)[job].(status := Cancelling)]
                   && imports == old(imports)[job := Cancelling]
              else jobs == old(jobs) && imports == old(imports)
    {
      if job !in imports { return None; }
      var existing := imports[job];
      if existing == Completed || existing == Failed || existing == Cancelled { return Some(existing); }
      if existing == Cancelling { return Some(Cancelling); }
      imports := imports[job := Cancelling];
      jobs := jobs[job := jobs[job].(status := Cancelling)];
      status := Some(Cancelling);
    }
  }

  // updateMany over a set of jobs, clearing the lease.
  function Close(jobs: map<JobId, Job>, ids: set<JobId>, status: Status): map<JobId, Job> {
    map j | j in jobs :: if j in ids then Unleased(jobs[j], status) else jobs[j]
  }

  function Settle(imports: map<JobId, Status>, ids: set<JobId>, status: Status, onlyProcessing: bool)
    : map<JobId, Status>
  {
    map j | j in imports :: if j in ids && (onlyProcessing ==> imports[j] == Processing) then status else imports[j]
  }

  lemma TwoUpdates(s: State, seen: map<JobId, nat>, toFail: set<JobId>, toReset: set<JobId>)
    requires forall j :: j in toFail <==> j in seen && seen[j] >= s.maxAttempts
    requires forall j :: j in toReset <==> j in seen && seen[j] < s.maxAttempts
    ensures Close(Close(s.jobs, toFail, Failed), toReset, Pending) == ReclaimedJobs(s, seen)
    ensures Settle(Settle(s.imports, toFail, Failed, false), toReset, Pending, true) == ReclaimedImports(s, seen)
  {}

  lemma Partition(seen: map<JobId, nat>, max: int, toFail: set<JobId>, toReset: set<JobId>)
    requires toFail == set j | j in seen && seen[j] >= max
    requires toReset == set j | j in seen && seen[j] < max
    ensures |seen| == |toReset| + |toFail|
  {
    assert seen.Keys == toReset + toFail;
  }

  lemma OldestExists(candidates: set<JobId>, createdAt: map<JobId, Time>)
    requires candidates != {} && candidates <= createdAt.Keys
    ensures exists j :: j in candidates && forall k :: k in candidates ==> createdAt[j] <= createdAt[k]
    decreases |candidates|
  {
    var j :| j in candidates;
    var rest := candidates - {j};
    if rest == {} {
      assert candidates == {j};
    } else {
      OldestExists(rest, createdAt);
      var i :| i in rest && forall k :: k in rest ==> createdAt[i] <= createdAt[k];
      var best := if createdAt[j] <= createdAt[i] then j else i;
      assert forall k :: k in candidates ==> k == j || k in rest;
      assert best in candidates && forall k :: k in candidates ==> createdAt[best] <= createdAt[k];
    }
  }

  // ---- The poller

  const RECLAIM_INTERVAL_MS := 30_000

  datatype ClaimReply = ClaimError | NoJob | Got(job: JobId)
  datatype ExecutionReply = Returned | Interrupted | Escaped

  // What one iteration of the loop meets; the loop ends when polling stops or shutdown begins.
  datatype Turn = Turn(goOn: bool, claim: ClaimReply, now: Time, later: Time, execution: ExecutionReply)

  // The jobs claimed by the first n turns, in order.
  function ClaimsOf(turns: seq<Turn>): seq<JobId> {
    if turns == [] then [] else
      var front, last := ClaimsOf(turns[..|turns| - 1]), turns[|turns| - 1];
      if last.claim.Got? then front + [last.claim.job] else front
  }

  // The job whose execution threw last, unless another was claimed since.
  function Unfinished(turns: seq<Turn>): Option<JobId> {
    if turns == [] then None else
      var last := turns[|turns| - 1];
      if !last.claim.Got? then Unfinished(turns[..|turns| - 1])
      else if last.execution == Returned then None else Some(last.claim.job)
  }

  // When the first n turns reclaimed, and the last time a reclaim was due.
  function ReclaimsOf(turns: seq<Turn>, start: Time): (seq<Time>, Time) {
    if turns == [] then ([], start) else
      var (times, last) := ReclaimsOf(turns[..|turns| - 1], start);
      var turn := turns[|turns| - 1];
      if turn.claim.NoJob? && turn.now - last > RECLAIM_INTERVAL_MS then (times + [turn.later], turn.later)
      else (times, last)
  }

  predicate InterruptedIn(turn: Turn) { turn.claim.Got? && turn.execution == Interrupted }

  class JobPoller {
    var polling: bool
    var currentJob: Option<JobId>
    var lastReclaimAt: Time
    var executed: seq<JobId>
    var reclaims: seq<Time>
    var released: seq<JobId>

    constructor (now: Time)
      ensures !polling && currentJob == None && lastReclaimAt == now
      ensures executed == [] && reclaims == [] && released == []
    {
      polling, currentJob, lastReclaimAt, executed, reclaims, released := false, None, now, [], [], [];
    }

    // Every claim is executed exactly once and in order; the loop goes on until it is told to stop or
    // an execution is interrupted.
    method Loop(turns: seq<Turn>) returns (taken: nat)
      requires currentJob == None && executed == [] && reclaims == []
      modifies this
      ensures taken <= |turns|
      ensures executed == ClaimsOf(turns[..taken]) && currentJob == Unfinished(turns[..taken])
      ensures released == old(released)
      ensures (reclaims, lastReclaimAt) == ReclaimsOf(turns[..taken], old(lastReclaimAt))
      ensures forall i :: 0 <= i < taken - 1 ==> turns[i].goOn && !InterruptedIn(turns[i])
      ensures taken == |turns| || !turns[taken].goOn || (taken > 0 && InterruptedIn(turns[taken - 1]))
    {
      taken, polling := 0, true;
      while taken < |turns| && polling && turns[taken].goOn
        invariant taken <= |turns|
        invariant executed == ClaimsOf(turns[..taken]) && currentJob == Unfinished(turns[..taken])
        invariant released == old(released)
        invariant (reclaims, lastReclaimAt) == ReclaimsOf(turns[..taken], old(lastReclaimAt))
        invariant polling && forall i :: 0 <= i < taken ==> turns[i].goOn && !InterruptedIn(turns[i])
      {
        var turn := turns[taken];
        taken := taken + 1;
        assert turns[..taken][..taken - 1] == turns[..taken - 1];
        match turn.claim {
          case ClaimError =>
          case NoJob =>
            if turn.now - lastReclaimAt > RECLAIM_INTERVAL_MS {
              lastReclaimAt := turn.later;
              reclaims := reclaims + [turn.later];
            }
          case Got(job) =>
            currentJob := Some(job);
            executed := executed + [job];
            match turn.execution {
              case Returned => currentJob := None;
              case Interrupted => break;
              case Escaped =>
            }
        }
      }
    }

    // stop() after the loop has ended: the unfinished job, and only that, is released.
    method Stop()
      modifies this
      ensures !polling && currentJob == None && executed == old(executed)
      ensures released == old(released) + (if old(currentJob).Some? then [old(currentJob).value] else [])
    {
      polling := false;
      if currentJob.Some? {
        released := released + [currentJob.value];
        currentJob := None;
      }
    }
  }

  // With a clock that does not run backwards, an idle worker reclaims at most once an interval.
  lemma {:induction false} ReclaimsAreSpaced(turns: seq<Turn>, start: Time)
    requires forall i :: 0 <= i < |turns| ==> turns[i].now <= turns[i].later
    ensures var (times, last) := ReclaimsOf(turns, start);
            && (last == if times == [] then start else times[|times| - 1])
            && (times != [] ==> times[0] - start > RECLAIM_INTERVAL_MS)
            && (forall i :: 0 < i < |times| ==> times[i] - times[i - 1] > RECLAIM_INTERVAL_MS)
  {
    if turns != [] {
      ReclaimsAreSpaced(turns[..|turns| - 1], start);
      var times := ReclaimsOf(turns, start).0;
      var (before, last) := ReclaimsOf(turns[..|turns| - 1], start);
      var turn := turns[|turns| - 1];
      assert turn.now <= turn.later;
      assert times == before || times == before + [turn.later];
    }
  }

  // Turn by turn, told by the times alone: an idle turn reclaims exactly if more than 30 seconds have passed since
  // the last reclaim, and no other turn does.
  lemma ReclaimsExactly(turns: seq<Turn>, turn: Turn, start: Time)
    ensures var times := ReclaimsOf(turns, start).0;
            var last := if times == [] then start else times[|times| - 1];
            ReclaimsOf(turns + [turn], start).0
            == times + if turn.claim.NoJob? && turn.now - last > 30_000 then [turn.later] else []
  {
    LastReclaim(turns, start);
    assert (turns + [turn])[..|turns|] == turns;
  }

  lemma {:induction false} LastReclaim(turns: seq<Turn>, start: Time)
    ensures var (times, last) := ReclaimsOf(turns, start);
            last == if times == [] then start else times[|times| - 1]
  {
    if turns != [] { LastReclaim(turns[..|turns| - 1], start); }
  }

  // The claims are those of the turns that got a job, one each, in order.
  lemma ClaimsExactly(turns: seq<Turn>, turn: Turn)
    ensures ClaimsOf([]) == []
    ensures ClaimsOf(turns + [turn]) == ClaimsOf(turns) + if turn.claim.Got? then [turn.claim.job] else []
  {
    assert (turns + [turn])[..|turns|] == turns;
  }

  // The last turn that got a job decides: its job is unfinished exactly if its execution did not return.
  lemma {:induction false} UnfinishedExactly(turns: seq<Turn>, i: nat)
    requires i < |turns| && turns[i].claim.Got? && forall k :: i < k < |turns| ==> !turns[k].claim.Got?
    ensures Unfinished(turns) == if turns[i].execution == Returned then None else Some(turns[i].claim.job)
  {
    if i < |turns| - 1 { UnfinishedExactly(turns[..|turns| - 1], i); }
  }

  // The job left to be released is the last one claimed, and its execution did not return.
  lemma {:induction false} UnfinishedIsLastClaim(turns: seq<Turn>)
    ensures Unfinished(turns).Some? ==>
              var claims := ClaimsOf(turns); claims != [] && claims[|claims| - 1] == Unfinished(turns).value
    ensures (forall i :: 0 <= i < |turns| && turns[i].claim.Got? ==> turns[i].execution == Returned)
            ==> Unfinished(turns) == None
  {
    if turns != [] {
      var front := turns[..|turns| - 1];
      UnfinishedIsLastClaim(front);
      assert forall i :: 0 <= i < |front| ==> front[i] == turns[i];
    }
  }
}
