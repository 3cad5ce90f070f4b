/** What each statement of the lease protocol does to the rows, and who may claim the job afterwards. */
module LeaseEffects {
  import opened Prelude
  import opened Leases
  import opened Finality

  // All rows but those of one job are as before.
  ghost predicate OnlyTouches(s: State, t: State, j: JobId) {
    && t.jobs.Keys == s.jobs.Keys && t.imports.Keys == s.imports.Keys
    && (forall i :: i in s.jobs && i != j ==> t.jobs[i] == s.jobs[i])
    && (forall i :: i in s.imports && i != j ==> t.imports[i] == s.imports[i])
  }

  // A lease lasts the least whole number of seconds, at least one, that covers the request.
  lemma LeaseIsLeast(ms: int)
    ensures LeaseMs(ms) % 1000 == 0 && LeaseMs(ms) >= 1000 && LeaseMs(ms) >= ms
    ensures forall seconds :: seconds >= 1 && seconds * 1000 >= ms ==> LeaseMs(ms) <= seconds * 1000
  {}

  // What may be claimed: a pending job, or one whose worker let its lease run out.
  lemma ClaimableIff(s: State, w: WorkerId, j: JobId, ms: int)
    ensures Enabled(s, Claim(w, j, ms)) <==>
            && w !in s.executions && j in s.jobs
            && (s.jobs[j].status == Pending
                || ((s.jobs[j].status == Claimed || s.jobs[j].status == Processing)
                    && s.jobs[j].leasedUntil.Some? && s.jobs[j].leasedUntil.value < s.now))
  {}

  // A claim takes the job for the worker, counts an attempt, and shuts the others out for exactly the lease.
  lemma ClaimTakes(s: State, w: WorkerId, j: JobId, ms: int, v: WorkerId, other: int, later: nat)
    requires Enabled(s, Claim(w, j, ms)) && v != w && v !in s.executions
    ensures var t := Next(s, Claim(w, j, ms));
            && t.jobs[j] == Job(Claimed, s.jobs[j].attemptCount + 1, Some(w), Some(s.now + LeaseMs(ms)))
            && t.imports == s.imports && OnlyTouches(s, t, j)
            && t.executions == s.executions[w := Execution(j, Started)]
            && (Enabled(Next(t, Tick(later)), Claim(v, j, other)) <==> later > LeaseMs(ms))
  {}

  // A renewal counts from now if the row still names the worker, and does nothing if it does not.
  lemma RenewalExtends(s: State, w: WorkerId, ms: int)
    requires Enabled(s, Renew(w, ms))
    ensures var j, t := s.executions[w].job, Next(s, Renew(w, ms));
            if s.jobs[j].leasedBy == Some(w)
            then t.jobs == s.jobs[j := s.jobs[j].(leasedUntil := Some(s.now + LeaseMs(ms)))] && t.imports == s.imports
            else t == s
  {}

  // A cancellation stops job and import together and keeps the lease and the attempts.
  lemma CancelStops(s: State, j: JobId)
    requires j in s.jobs && j in s.imports && s.imports[j] != Cancelling
    requires s.imports[j] != Completed && s.imports[j] != Failed && s.imports[j] != Cancelled
    ensures Enabled(s, Cancel(j))
    ensures var t := Next(s, Cancel(j));
            && t.imports[j] == Cancelling && t.jobs[j].status == Cancelling
            && t.jobs[j].leasedBy == s.jobs[j].leasedBy && t.jobs[j].leasedUntil == s.jobs[j].leasedUntil
            && t.jobs[j].attemptCount == s.jobs[j].attemptCount
            && OnlyTouches(s, t, j) && JobClosed(t, j)
            && forall w, ms :: !Enabled(t, Claim(w, j, ms))
  {}

  lemma CancelIgnoresEnded(s: State, j: JobId)
    requires Enabled(s, Cancel(j))
    requires s.imports[j] == Cancelling
             || s.imports[j] == Completed || s.imports[j] == Failed || s.imports[j] == Cancelled
    ensures Next(s, Cancel(j)) == s
  {}

  // From then on the job stays closed, and unclaimed, in every run exactly until a step reopens it.
  lemma CancelledStaysClosed(s: State, j: JobId, es: seq<Event>)
    requires j in s.jobs && j in s.imports && s.imports[j] != Cancelling && !Terminal(s.imports[j])
    requires ValidRun(Next(s, Cancel(j)), es)
    ensures AlwaysClosed(Next(s, Cancel(j)), es, j) <==> NoReopening(Next(s, Cancel(j)), es, j)
    ensures NoReopening(Next(s, Cancel(j)), es, j) ==> CountClaims(es, j) == 0
  {
    CancelStops(s, j);
    ClosedStaysIff(Next(s, Cancel(j)), es, j);
  }

  // Both statements of a mark, undisturbed: job and import carry the same status, and the lease is untouched.
  lemma MarkSetsBoth(s: State, w: WorkerId, target: Status)
    requires Enabled(s, MarkJob(w, target)) && s.executions[w].job in s.imports
    ensures Enabled(Next(s, MarkJob(w, target)), MarkImport(w, true))
    ensures var j, t := s.executions[w].job, Next(Next(s, MarkJob(w, target)), MarkImport(w, true));
            && t.jobs[j].status == target == t.imports[j] && OnlyTouches(s, t, j)
            && t.jobs[j].leasedBy == s.jobs[j].leasedBy && t.jobs[j].leasedUntil == s.jobs[j].leasedUntil
            && t.jobs[j].attemptCount == s.jobs[j].attemptCount
            && t.executions == if target == Processing then s.executions[w := Execution(j, Working)]
                               else s.executions - {w}
  {}

  // A released job is anybody's at once; the attempt stays counted.
  lemma ReleaseFrees(s: State, w: WorkerId, j: JobId)
    requires Enabled(s, ReleaseJob(w, j)) && j in s.imports
    ensures var t := Next(s, ReleaseJob(w, j));
            if s.jobs[j].leasedBy == Some(w) && (s.jobs[j].status == Claimed || s.jobs[j].status == Processing)
            then
              && t.jobs[j] == Job(Pending, s.jobs[j].attemptCount, None, None) && OnlyTouches(s, t, j)
              && (forall v, ms :: v !in s.executions ==> Enabled(t, Claim(v, j, ms)))
              && Enabled(t, ReleaseImport(w))
              && Next(t, ReleaseImport(w)).imports
                 == s.imports[j := if s.imports[j] == Processing then Pending else s.imports[j]]
              && Next(t, ReleaseImport(w)).jobs == t.jobs
            else t.jobs == s.jobs && t.imports == s.imports && t.releases == s.releases
  {}

  // What a reclaim has read is what has run out.
  lemma ReclaimReads(s: State, r: ReclaimId, j: JobId)
    requires Enabled(s, ReclaimRead(r))
    ensures var t := Next(s, ReclaimRead(r));
            && t.jobs == s.jobs && t.imports == s.imports && r in t.reclaims
            && (j in t.reclaims[r] <==>
                  && j in s.jobs && (s.jobs[j].status == Claimed || s.jobs[j].status == Processing)
                  && s.jobs[j].leasedUntil.Some? && s.jobs[j].leasedUntil.value < s.now)
            && (j in t.reclaims[r] ==> t.reclaims[r][j] == s.jobs[j].attemptCount)
  {}

  // Its write ends what it read out of attempts and hands back the rest, whatever the rows say by now.
  lemma ReclaimWrites(s: State, r: ReclaimId, j: JobId)
    requires Enabled(s, ReclaimWrite(r)) && j in s.jobs && j in s.imports
    ensures var t := Next(s, ReclaimWrite(r));
            && j in t.jobs && j in t.imports && r !in t.reclaims
            && if j !in s.reclaims[r] then t.jobs[j] == s.jobs[j] && t.imports[j] == s.imports[j]
               else if s.reclaims[r][j] >= s.maxAttempts then
                 t.jobs[j] == Job(Failed, s.jobs[j].attemptCount, None, None) && t.imports[j] == Failed
               else
                 && t.jobs[j] == Job(Pending, s.jobs[j].attemptCount, None, None)
                 && t.imports[j] == (if s.imports[j] == Processing then Pending else s.imports[j])
                 && forall v, ms :: v !in s.executions ==> Enabled(t, Claim(v, j, ms))
  {}

  // In one piece, a reclaim is its read followed by its write.
  lemma ReclaimInOnePiece(s: State, r: ReclaimId)
    requires r !in s.reclaims
    ensures Next(Next(s, ReclaimRead(r)), ReclaimWrite(r)) == Next(s, ReclaimNow)
  {}
}
