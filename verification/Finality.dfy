/** Finished imports stay finished, although each mark is two statements that a cancellation can fall between. */
module Finality {
  import opened Prelude
  import opened Leases

  // Workers write the statements of a mark only while the lease they were granted is live.
  ghost predicate Timely(s: State, e: Event) {
    (e.MarkJob? || e.MarkImport?) ==> e.worker in s.executions && Live(s, s.executions[e.worker].job, e.worker)
  }

  // Statuses from which a job can neither be claimed nor reclaimed.
  predicate Closed(s: Status) { s == Cancelling || Terminal(s) }

  // A finished import belongs to a closed job...
  ghost predicate FinishedClosed(s: State) {
    forall j :: j in s.imports && Terminal(s.imports[j]) ==> j in s.jobs && Closed(s.jobs[j].status)
  }

  // ...that no pending reclaim is about to reopen.
  ghost predicate FinishedSpent(s: State) {
    forall j, r :: j in s.imports && Terminal(s.imports[j]) && r in s.reclaims && j in s.reclaims[r] ==>
      s.reclaims[r][j] >= s.maxAttempts
  }

  ghost predicate Holds(s: State, w: WorkerId) {
    w in s.executions && s.executions[w].job in s.jobs && s.jobs[s.executions[w].job].leasedBy == Some(w)
  }

  // While a worker is named by the row of the job it executes, its import is not finished before the
  // worker starts a final mark, and the job is closed from then on.
  ghost predicate HolderOk(s: State) {
    forall w :: w in s.executions && Holds(s, w) ==>
      var x := s.executions[w];
      if x.phase.Finishing? then Terminal(x.phase.target) && Closed(s.jobs[x.job].status)
      else x.job in s.imports && !Terminal(s.imports[x.job])
  }

  ghost predicate FinalInv(s: State) {
    LeaseInv(s) && KeysMatch(s) && FinishedClosed(s) && FinishedSpent(s) && HolderOk(s)
  }

  // A timely mark comes from the worker the row names, and from no other.
  lemma TimelyHolds(s: State, e: Event)
    requires LeaseInv(s) && Timely(s, e) && (e.MarkJob? || e.MarkImport?)
    ensures Holds(s, e.worker) && Unread(s, s.executions[e.worker].job)
    ensures forall v :: v != e.worker && Holds(s, v) ==> s.executions[v].job != s.executions[e.worker].job
  {
    var j := s.executions[e.worker].job;
    assert s.jobs[j].leasedUntil == Some(s.grants[(j, e.worker)]);
  }

  lemma ReclaimKeepsClosed(s: State, e: Event)
    requires KeysMatch(s) && FinishedClosed(s) && FinishedSpent(s)
    requires Enabled(s, e) && (e.ReclaimNow? || e.ReclaimWrite?)
    ensures FinishedClosed(Next(s, e))
  {
    var t, seen := Next(s, e), if e.ReclaimNow? then Snapshot(s.jobs, s.now) else s.reclaims[e.id];
    forall j | j in t.imports && Terminal(t.imports[j]) ensures j in t.jobs && Closed(t.jobs[j].status) {
      ReclaimsOneClosed(s, seen, j);
    }
  }

  // A reclaim reopens no job of a finished import, and closes the job of each import it fails.
  lemma ReclaimsOneClosed(s: State, seen: map<JobId, nat>, j: JobId)
    requires j in s.imports && j in s.jobs && (Terminal(s.imports[j]) ==> Closed(s.jobs[j].status))
    requires Terminal(s.imports[j]) && j in seen ==> seen[j] >= s.maxAttempts
    ensures Terminal(ReclaimedImports(s, seen)[j]) ==> Closed(ReclaimedJobs(s, seen)[j].status)
  {}

  lemma MarkKeepsClosed(s: State, e: Event)
    requires FinishedClosed(s) && HolderOk(s) && Enabled(s, e) && (e.MarkJob? || e.MarkImport?) && Holds(s, e.worker)
    ensures FinishedClosed(Next(s, e))
  {}

  lemma OtherKeepsClosed(s: State, e: Event)
    requires FinishedClosed(s) && Enabled(s, e)
    requires !e.ReclaimNow? && !e.ReclaimWrite? && !e.MarkJob? && !e.MarkImport?
    ensures FinishedClosed(Next(s, e))
  {}

  lemma StepKeepsClosed(s: State, e: Event)
    requires FinalInv(s) && Enabled(s, e) && Timely(s, e)
    ensures FinishedClosed(Next(s, e))
  {
    if e.ReclaimNow? || e.ReclaimWrite? {
      ReclaimKeepsClosed(s, e);
    } else if e.MarkJob? || e.MarkImport? {
      TimelyHolds(s, e);
      MarkKeepsClosed(s, e);
    } else {
      OtherKeepsClosed(s, e);
    }
  }

  lemma StepKeepsSpent(s: State, e: Event)
    requires FinalInv(s) && Enabled(s, e) && Timely(s, e)
    ensures FinishedSpent(Next(s, e))
  {
    if e.ReclaimNow? || e.ReclaimWrite? {
      ReclaimKeepsSpent(s, e);
    } else if e.MarkJob? || e.MarkImport? {
      TimelyHolds(s, e);
      MarkKeepsSpent(s, e);
    } else {
      OtherKeepsSpent(s, e);
    }
  }

  lemma MarkKeepsSpent(s: State, e: Event)
    requires FinishedSpent(s) && Enabled(s, e) && (e.MarkJob? || e.MarkImport?) && Unread(s, s.executions[e.worker].job)
    ensures FinishedSpent(Next(s, e))
  {}

  lemma OtherKeepsSpent(s: State, e: Event)
    requires FinishedSpent(s) && FinishedClosed(s) && Enabled(s, e)
    requires !e.ReclaimNow? && !e.ReclaimWrite? && !e.MarkJob? && !e.MarkImport?
    ensures FinishedSpent(Next(s, e))
  {}

  // Two reclaims that read the same job read the same attempt, so they decide alike.
  lemma ReclaimKeepsSpent(s: State, e: Event)
    requires FinishedSpent(s) && SnapshotsCurrent(s) && Enabled(s, e) && (e.ReclaimNow? || e.ReclaimWrite?)
    ensures FinishedSpent(Next(s, e))
  {
    var t, seen := Next(s, e), if e.ReclaimNow? then Snapshot(s.jobs, s.now) else s.reclaims[e.id];
    forall j, r | j in t.imports && Terminal(t.imports[j]) && r in t.reclaims && j in t.reclaims[r]
      ensures t.reclaims[r][j] >= t.maxAttempts
    {
      if !Terminal(s.imports[j]) {
        assert j in seen && seen[j] >= s.maxAttempts;
        assert seen[j] == s.jobs[j].attemptCount == s.reclaims[r][j];
      }
    }
  }

  lemma ReclaimKeepsHolder(s: State, e: Event)
    requires HolderOk(s) && Enabled(s, e) && (e.ReclaimNow? || e.ReclaimWrite?)
    ensures HolderOk(Next(s, e))
  {
    var t := Next(s, e);
    assert forall w :: Holds(t, w) ==> Holds(s, w) && t.jobs[t.executions[w].job] == s.jobs[t.executions[w].job];
  }

  lemma MarkKeepsHolder(s: State, e: Event)
    requires FinalInv(s) && Enabled(s, e) && Timely(s, e) && (e.MarkJob? || e.MarkImport?)
    ensures HolderOk(Next(s, e))
  {
    TimelyHolds(s, e);
    var t := Next(s, e);
    assert forall w :: Holds(t, w) ==> Holds(s, w);
  }

  lemma OtherKeepsHolder(s: State, e: Event)
    requires HolderOk(s) && FinishedClosed(s) && KeysMatch(s) && Enabled(s, e)
    requires !e.ReclaimNow? && !e.ReclaimWrite? && !e.MarkJob? && !e.MarkImport?
    ensures HolderOk(Next(s, e))
  {
    var t := Next(s, e);
    if e.Claim? {
      ClaimKeepsHolder(s, e);
    } else {
      assert forall w :: Holds(t, w) ==> Holds(s, w);
    }
  }

  lemma ClaimKeepsHolder(s: State, e: Event)
    requires HolderOk(s) && FinishedClosed(s) && KeysMatch(s) && Enabled(s, e) && e.Claim?
    ensures HolderOk(Next(s, e))
  {
    var t := Next(s, e);
    assert forall w :: Holds(t, w) && e.worker != w ==> Holds(s, w) && s.executions[w].job != e.job;
  }

  lemma StepKeepsHolder(s: State, e: Event)
    requires FinalInv(s) && Enabled(s, e) && Timely(s, e)
    ensures HolderOk(Next(s, e))
  {
    if e.ReclaimNow? || e.ReclaimWrite? {
      ReclaimKeepsHolder(s, e);
    } else if e.MarkJob? || e.MarkImport? {
      MarkKeepsHolder(s, e);
    } else {
      OtherKeepsHolder(s, e);
    }
  }

  lemma StepKeepsFinalInv(s: State, e: Event)
    requires FinalInv(s) && Enabled(s, e) && Quiet(s, e) && Timely(s, e)
    ensures FinalInv(Next(s, e))
  {
    StepKeepsLeaseInv(s, e);
    StepKeepsKeys(s, e);
    StepKeepsClosed(s, e);
    StepKeepsSpent(s, e);
    StepKeepsHolder(s, e);
  }

  // One disciplined step neither reopens a finished import nor claims its job.
  lemma StepKeepsFinished(s: State, e: Event, j: JobId)
    requires FinalInv(s) && Enabled(s, e) && Timely(s, e) && j in s.imports && Terminal(s.imports[j])
    ensures j in Next(s, e).imports && Terminal(Next(s, e).imports[j])
    ensures !(e.Claim? && e.job == j)
  {
    if e.MarkImport? {
      TimelyHolds(s, e);
    } else {
      OtherKeepsFinished(s, e, j);
    }
  }

  lemma OtherKeepsFinished(s: State, e: Event, j: JobId)
    requires Enabled(s, e) && !e.MarkImport? && j in s.imports && Terminal(s.imports[j])
    ensures j in Imports(s, e) && Terminal(Imports(s, e)[j])
  {}

  // ---- Exactly which steps reopen an import or its job: every run, no hypothesis

  predicate Finished(s: State, j: JobId) { j in s.imports && Terminal(s.imports[j]) }

  predicate JobClosed(s: State, j: JobId) { j in s.jobs && Closed(s.jobs[j].status) }

  // Final marks carry final statuses.
  ghost predicate FinalTargets(s: State) {
    forall w :: w in s.executions && s.executions[w].phase.Finishing? ==> Terminal(s.executions[w].phase.target)
  }

  // The second statement of markProcessing, which no guard keeps from a finished import.
  predicate LateStart(s: State, e: Event, j: JobId) {
    e.MarkImport? && e.worker in s.executions && s.executions[e.worker] == Execution(j, Marking)
  }

  // The first statement of markProcessing, or a reclaim's reset, on the job.
  predicate Reopens(s: State, e: Event, j: JobId) {
    || (e.MarkJob? && e.target == Processing && e.worker in s.executions && s.executions[e.worker].job == j)
    || (e.ReclaimWrite? && e.id in s.reclaims && j in s.reclaims[e.id] && s.reclaims[e.id][j] < s.maxAttempts)
  }

  lemma StepKeepsTargets(s: State, e: Event)
    requires Enabled(s, e) && FinalTargets(s)
    ensures FinalTargets(Next(s, e))
  {}

  lemma StepFinishedIff(s: State, e: Event, j: JobId)
    requires Enabled(s, e) && FinalTargets(s) && Finished(s, j)
    ensures Finished(Next(s, e), j) <==> !LateStart(s, e, j)
  {}

  lemma StepClosedIff(s: State, e: Event, j: JobId)
    requires Enabled(s, e) && JobClosed(s, j)
    ensures JobClosed(Next(s, e), j) <==> !Reopens(s, e, j)
    ensures !(e.Claim? && e.job == j)
  {}

  ghost predicate AlwaysFinished(s: State, es: seq<Event>, j: JobId)
    requires ValidRun(s, es)
    decreases |es|
  {
    Finished(s, j) && (es == [] || AlwaysFinished(Next(s, es[0]), es[1..], j))
  }

  ghost predicate AlwaysClosed(s: State, es: seq<Event>, j: JobId)
    requires ValidRun(s, es)
    decreases |es|
  {
    JobClosed(s, j) && (es == [] || AlwaysClosed(Next(s, es[0]), es[1..], j))
  }

  ghost predicate NoLateStart(s: State, es: seq<Event>, j: JobId)
    requires ValidRun(s, es)
    decreases |es|
  {
    es == [] || (!LateStart(s, es[0], j) && NoLateStart(Next(s, es[0]), es[1..], j))
  }

  ghost predicate NoReopening(s: State, es: seq<Event>, j: JobId)
    requires ValidRun(s, es)
    decreases |es|
  {
    es == [] || (!Reopens(s, es[0], j) && NoReopening(Next(s, es[0]), es[1..], j))
  }

  lemma {:induction false} RunKeepsTargets(s: State, es: seq<Event>)
    requires ValidRun(s, es) && FinalTargets(s)
    ensures FinalTargets(Run(s, es))
    decreases |es|
  {
    if es != [] {
      StepKeepsTargets(s, es[0]);
      RunKeepsTargets(Next(s, es[0]), es[1..]);
    }
  }

  lemma {:induction false} RunFinishedIff(s: State, es: seq<Event>, j: JobId)
    requires ValidRun(s, es) && FinalTargets(s) && Finished(s, j)
    ensures AlwaysFinished(s, es, j) <==> NoLateStart(s, es, j)
    decreases |es|
  {
    if es != [] {
      StepFinishedIff(s, es[0], j);
      StepKeepsTargets(s, es[0]);
      if !LateStart(s, es[0], j) { RunFinishedIff(Next(s, es[0]), es[1..], j); }
    }
  }

  // A closed job stays closed throughout a run, and so is never claimed, exactly when no step reopens it.
  lemma {:induction false} ClosedStaysIff(s: State, es: seq<Event>, j: JobId)
    requires ValidRun(s, es)
    ensures AlwaysClosed(s, es, j) <==> JobClosed(s, j) && NoReopening(s, es, j)
    ensures AlwaysClosed(s, es, j) ==> CountClaims(es, j) == 0
    decreases |es|
  {
    if es != [] && JobClosed(s, j) {
      StepClosedIff(s, es[0], j);
      if !Reopens(s, es[0], j) { ClosedStaysIff(Next(s, es[0]), es[1..], j); }
    }
  }

  // In any run from the start, an import that is finished after `before` is so in every state of `after`
  // exactly when the second statement of no markProcessing falls into it.
  lemma FinishedStaysIff(maxAttempts: int, now: Time, before: seq<Event>, after: seq<Event>, j: JobId)
    requires ValidRun(Init(maxAttempts, now), before) && ValidRun(Run(Init(maxAttempts, now), before), after)
    requires Finished(Run(Init(maxAttempts, now), before), j)
    ensures var s := Run(Init(maxAttempts, now), before); AlwaysFinished(s, after, j) <==> NoLateStart(s, after, j)
  {
    RunKeepsTargets(Init(maxAttempts, now), before);
    RunFinishedIff(Run(Init(maxAttempts, now), before), after, j);
  }

  // ---- Runs in which neither happens

  ghost predicate Disciplined(s: State, es: seq<Event>)
    requires ValidRun(s, es)
    decreases |es|
  {
    es == [] || (Quiet(s, es[0]) && Timely(s, es[0]) && Disciplined(Next(s, es[0]), es[1..]))
  }

  lemma {:induction false} RunKeepsFinalInv(s: State, es: seq<Event>)
    requires ValidRun(s, es) && Disciplined(s, es) && FinalInv(s)
    ensures FinalInv(Run(s, es))
    decreases |es|
  {
    if es != [] {
      StepKeepsFinalInv(s, es[0]);
      RunKeepsFinalInv(Next(s, es[0]), es[1..]);
    }
  }

  lemma {:induction false} RunKeepsFinished(s: State, es: seq<Event>, j: JobId)
    requires ValidRun(s, es) && Disciplined(s, es) && FinalInv(s) && Finished(s, j)
    ensures AlwaysFinished(s, es, j) && AlwaysClosed(s, es, j)
    decreases |es|
  {
    if es != [] {
      StepKeepsFinished(s, es[0], j);
      StepKeepsFinalInv(s, es[0]);
      RunKeepsFinished(Next(s, es[0]), es[1..], j);
    }
  }

  // If workers write marks only under a live lease, and no claim or renewal of a job falls between a reclaim's
  // read of it and its write, then a finished import is so for good and its job is never claimed again.
  lemma FinishedStaysFinished(maxAttempts: int, now: Time, before: seq<Event>, after: seq<Event>, j: JobId)
    requires ValidRun(Init(maxAttempts, now), before) && Disciplined(Init(maxAttempts, now), before)
    requires var s := Run(Init(maxAttempts, now), before);
             ValidRun(s, after) && Disciplined(s, after) && Finished(s, j)
    ensures var s := Run(Init(maxAttempts, now), before);
            AlwaysFinished(s, after, j) && AlwaysClosed(s, after, j) && CountClaims(after, j) == 0
  {
    RunKeepsFinalInv(Init(maxAttempts, now), before);
    RunKeepsFinished(Run(Init(maxAttempts, now), before), after, j);
    ClosedStaysIff(Run(Init(maxAttempts, now), before), after, j);
  }

  // ---- What happens without the hypotheses

  // The run es leads from the start to state s.
  ghost predicate Reaches(maxAttempts: int, es: seq<Event>, s: State) {
    ValidRun(Init(maxAttempts, 0), es) && Run(Init(maxAttempts, 0), es) == s
  }

  ghost predicate LeadsTo(es: seq<Event>, s: State) { Reaches(3, es, s) }

  lemma {:induction false} RunSnoc(s: State, es: seq<Event>, e: Event)
    requires ValidRun(s, es) && Enabled(Run(s, es), e)
    ensures ValidRun(s, es + [e]) && Run(s, es + [e]) == Next(Run(s, es), e)
    decreases |es|
  {
    if es == [] {
      assert [e][1..] == [];
      assert ValidRun(Next(s, e), []);
    } else {
      RunSnoc(Next(s, es[0]), es[1..], e);
      assert (es + [e])[1..] == es[1..] + [e];
    }
  }

  lemma Extend(es: seq<Event>, s: State, e: Event) returns (fs: seq<Event>, t: State)
    requires LeadsTo(es, s) && Enabled(s, e)
    ensures LeadsTo(fs, t) && t == Next(s, e) && fs == es + [e]
  {
    RunSnoc(Init(3, 0), es, e);
    fs, t := es + [e], Next(s, e);
  }

  // Worker v's lease has run out before it marked anything.
  lemma LeaseRunsOut(j: JobId, v: WorkerId) returns (es: seq<Event>, s: State)
    ensures LeadsTo(es, s) && s == Init(3, 0).(now := 1001,
              jobs := map[j := Job(Claimed, 1, Some(v), Some(1000))],
              imports := map[j := Pending], resets := map[j := 0],
              executions := map[v := Execution(j, Started)], grants := map[(j, v) := 1000])
  {
    assert LeadsTo([], Init(3, 0));
    es, s := Extend([], Init(3, 0), Create(j));
    es, s := Extend(es, s, Claim(v, j, 1000));
    es, s := Extend(es, s, Tick(1001));
  }

  lemma OtherWorkerStarts(j: JobId, v: WorkerId, w: WorkerId) returns (es: seq<Event>, s: State)
    requires v != w
    ensures LeadsTo(es, s) && s.now == 1001 && j in s.jobs && j in s.imports
    ensures s.executions == map[v := Execution(j, Started), w := Execution(j, Working)]
  {
    es, s := LeaseRunsOut(j, v);
    es, s := Extend(es, s, Claim(w, j, 1000));
    es, s := Extend(es, s, MarkJob(w, Processing));
    es, s := Extend(es, s, MarkImport(w, true));
  }

  lemma OtherWorkerCompletes(j: JobId, v: WorkerId, w: WorkerId) returns (es: seq<Event>, s: State)
    requires v != w
    ensures LeadsTo(es, s) && s.now == 1001 && j in s.jobs && j in s.imports && s.imports[j] == Completed
    ensures v in s.executions && s.executions[v] == Execution(j, Started)
  {
    es, s := OtherWorkerStarts(j, v, w);
    es, s := Extend(es, s, MarkJob(w, Completed));
    es, s := Extend(es, s, MarkImport(w, true));
  }

  // A worker that outlived its lease reopens an import another worker has completed.
  lemma LateMarkReopens(j: JobId, v: WorkerId, w: WorkerId) returns (es: seq<Event>, s: State, fs: seq<Event>, t: State)
    requires v != w
    ensures LeadsTo(es, s) && j in s.imports && s.imports[j] == Completed
    ensures es <= fs && LeadsTo(fs, t) && j in t.imports && t.imports[j] == Processing
  {
    es, s := OtherWorkerCompletes(j, v, w);
    fs, t := Extend(es, s, MarkJob(v, Processing));
    fs, t := Extend(fs, t, MarkImport(v, true));
  }

  // A claim between the two halves of a reclaim loses its lease while it is live.
  lemma ClaimInsideReclaimLosesLease(j: JobId, v: WorkerId, w: WorkerId) returns (es: seq<Event>, s: State)
    requires v != w
    ensures LeadsTo(es, s) && Live(s, j, w) && j in s.jobs
    ensures s.jobs[j].leasedBy == None && s.jobs[j].status == Pending
  {
    es, s := LeaseRunsOut(j, v);
    es, s := Extend(es, s, ReclaimRead(0));
    es, s := Extend(es, s, Claim(w, j, 1000));
    es, s := Extend(es, s, ReclaimWrite(0));
  }

  ghost predicate TimelyRun(s: State, es: seq<Event>)
    requires ValidRun(s, es)
    decreases |es|
  {
    es == [] || (Timely(s, es[0]) && TimelyRun(Next(s, es[0]), es[1..]))
  }

  lemma {:induction false} TimelySnoc(s: State, es: seq<Event>, e: Event)
    requires ValidRun(s, es) && TimelyRun(s, es) && Enabled(Run(s, es), e) && Timely(Run(s, es), e)
    ensures ValidRun(s, es + [e]) && TimelyRun(s, es + [e])
    decreases |es|
  {
    if es == [] {
      assert [e][1..] == [];
      assert ValidRun(Next(s, e), []) && TimelyRun(Next(s, e), []);
    } else {
      TimelySnoc(Next(s, es[0]), es[1..], e);
      assert (es + [e])[1..] == es[1..] + [e];
    }
  }

  // Leads to s, and every mark on the way was written under a live lease.
  ghost predicate LeadsTimely(es: seq<Event>, s: State) { LeadsTo(es, s) && TimelyRun(Init(3, 0), es) }

  lemma ExtendTimely(es: seq<Event>, s: State, e: Event) returns (fs: seq<Event>, t: State)
    requires LeadsTimely(es, s) && Enabled(s, e) && Timely(s, e)
    ensures LeadsTimely(fs, t) && t == Next(s, e) && fs == es + [e]
  {
    fs, t := Extend(es, s, e);
    TimelySnoc(Init(3, 0), es, e);
  }

  // A reclaim reads the job while its lease has run out, and another worker claims it.
  lemma ClaimedInsideReclaim(j: JobId, v: WorkerId, w: WorkerId) returns (es: seq<Event>, s: State)
    requires v != w
    ensures LeadsTimely(es, s) && s.maxAttempts == 3 && s.now == 1001 && s.reclaims == map[0 := map[j := 1]]
    ensures s.jobs == map[j := Job(Claimed, 2, Some(w), Some(2001))] && s.imports == map[j := Pending]
    ensures s.executions == map[v := Execution(j, Started), w := Execution(j, Started)] && Live(s, j, w)
  {
    assert LeadsTimely([], Init(3, 0));
    es, s := ExtendTimely([], Init(3, 0), Create(j));
    es, s := ExtendTimely(es, s, Claim(v, j, 1000));
    es, s := ExtendTimely(es, s, Tick(1001));
    es, s := ReadThenClaimed(es, s, j, v, w);
  }

  lemma ReadThenClaimed(es: seq<Event>, s: State, j: JobId, v: WorkerId, w: WorkerId) returns (fs: seq<Event>, t: State)
    requires v != w && LeadsTimely(es, s) && s.now == 1001 && s.reclaims == map[]
    requires s.jobs == map[j := Job(Claimed, 1, Some(v), Some(1000))]
    requires s.executions == map[v := Execution(j, Started)]
    ensures LeadsTimely(fs, t) && t.maxAttempts == s.maxAttempts && t.now == 1001 && t.imports == s.imports
    ensures t.reclaims == map[0 := map[j := 1]] && Live(t, j, w)
    ensures t.jobs == map[j := Job(Claimed, 2, Some(w), Some(2001))]
    ensures t.executions == map[v := Execution(j, Started), w := Execution(j, Started)]
  {
    assert Snapshot(s.jobs, s.now) == map[j := 1];
    fs, t := ExtendTimely(es, s, ReclaimRead(0));
    assert t == s.(reclaims := map[0 := map[j := 1]]);
    fs, t := ClaimedAgain(fs, t, j, v, w);
  }

  lemma ClaimedAgain(es: seq<Event>, s: State, j: JobId, v: WorkerId, w: WorkerId) returns (fs: seq<Event>, t: State)
    requires v != w && LeadsTimely(es, s) && s.now == 1001 && j in s.jobs
    requires s.jobs[j] == Job(Claimed, 1, Some(v), Some(1000)) && s.executions == map[v := Execution(j, Started)]
    ensures LeadsTimely(fs, t) && t.maxAttempts == s.maxAttempts && t.now == 1001 && t.imports == s.imports
    ensures t.reclaims == s.reclaims && Live(t, j, w)
    ensures t.jobs == s.jobs[j := Job(Claimed, 2, Some(w), Some(2001))]
    ensures t.executions == map[v := Execution(j, Started), w := Execution(j, Started)]
  {
    fs, t := ExtendTimely(es, s, Claim(w, j, 1000));
  }

  // One execution under a live lease, undisturbed: both statements of markProcessing and of markCompleted.
  lemma TimelyStart(es: seq<Event>, s: State, j: JobId, w: WorkerId) returns (fs: seq<Event>, t: State)
    requires LeadsTimely(es, s) && Live(s, j, w) && j in s.jobs && j in s.imports
    requires w in s.executions && s.executions[w] == Execution(j, Started)
    ensures LeadsTimely(fs, t) && es <= fs
    ensures t.maxAttempts == s.maxAttempts && t.now == s.now && t.reclaims == s.reclaims
    ensures t.grants == s.grants && t.executions == s.executions[w := Execution(j, Working)]
    ensures t.jobs == s.jobs[j := s.jobs[j].(status := Processing)] && t.imports == s.imports[j := Processing]
  {
    fs, t := ExtendTimely(es, s, MarkJob(w, Processing));
    fs, t := ExtendTimely(fs, t, MarkImport(w, true));
  }

  lemma TimelyEnd(es: seq<Event>, s: State, j: JobId, w: WorkerId) returns (fs: seq<Event>, t: State)
    requires LeadsTimely(es, s) && Live(s, j, w) && j in s.jobs && j in s.imports
    requires w in s.executions && s.executions[w] == Execution(j, Working)
    ensures LeadsTimely(fs, t) && es <= fs
    ensures t.maxAttempts == s.maxAttempts && t.now == s.now && t.reclaims == s.reclaims
    ensures t.executions == s.executions - {w}
    ensures t.jobs == s.jobs[j := s.jobs[j].(status := Completed)] && t.imports == s.imports[j := Completed]
  {
    fs, t := ExtendTimely(es, s, MarkJob(w, Completed));
    fs, t := ExtendTimely(fs, t, MarkImport(w, true));
  }

  lemma CompletedInsideReclaim(j: JobId, v: WorkerId, w: WorkerId) returns (es: seq<Event>, s: State)
    requires v != w
    ensures LeadsTimely(es, s) && s.maxAttempts == 3 && s.now == 1001 && s.reclaims == map[0 := map[j := 1]]
    ensures s.jobs == map[j := Job(Completed, 2, Some(w), Some(2001))] && s.imports == map[j := Completed]
    ensures s.executions == map[v := Execution(j, Started)]
  {
    es, s := ClaimedInsideReclaim(j, v, w);
    es, s := TimelyStart(es, s, j, w);
    es, s := TimelyEnd(es, s, j, w);
  }

  // Marks under a live lease alone do not keep an import finished: the late write of a reclaim returns the job
  // of a completed import to PENDING, and the next worker sets the import to PROCESSING.
  lemma LateReclaimReopens(j: JobId, v: WorkerId, w: WorkerId)
    returns (es: seq<Event>, s: State, fs: seq<Event>, t: State)
    requires v != w
    ensures LeadsTimely(es, s) && j in s.imports && s.imports[j] == Completed
    ensures es <= fs && LeadsTimely(fs, t) && j in t.imports && t.imports[j] == Processing
  {
    es, s := CompletedInsideReclaim(j, v, w);
    fs, t := ExtendTimely(es, s, ReclaimWrite(0));
    fs, t := ExtendTimely(fs, t, Claim(w, j, 1000));
    fs, t := TimelyStart(fs, t, j, w);
  }

  // Reclaims that overlap reset one attempt several times, beyond the maxAttempts - 1 = 2 of separate ones.
  lemma OverlappingReclaimsExceedBound(j: JobId, v: WorkerId) returns (es: seq<Event>, s: State)
    ensures LeadsTo(es, s) && j in s.jobs && s.jobs[j].attemptCount == 1
    ensures j in s.resets && s.resets[j] == 3
  {
    var jobs := map[j := Job(Claimed, 1, Some(v), Some(1000))];
    es, s := LeaseRunsOut(j, v);
    assert Snapshot(jobs, 1001) == map[j := 1];
    es, s := Extend(es, s, ReclaimRead(0));
    es, s := Extend(es, s, ReclaimRead(1));
    es, s := Extend(es, s, ReclaimRead(2));
    es, s := WriteThree(j, es, s);
  }

  lemma WriteThree(j: JobId, es: seq<Event>, s: State) returns (fs: seq<Event>, t: State)
    requires LeadsTo(es, s) && s.maxAttempts == 3 && j in s.jobs && s.jobs[j].attemptCount == 1
    requires 0 in s.reclaims && 1 in s.reclaims && 2 in s.reclaims && j in s.resets && s.resets[j] == 0
    requires s.reclaims[0] == s.reclaims[1] == s.reclaims[2] == map[j := 1]
    ensures LeadsTo(fs, t) && j in t.jobs && t.jobs[j].attemptCount == 1 && j in t.resets && t.resets[j] == 3
  {
    fs, t := Extend(es, s, ReclaimWrite(0));
    fs, t := Extend(fs, t, ReclaimWrite(1));
    fs, t := Extend(fs, t, ReclaimWrite(2));
  }
}
