/** The bound on resets by reclaim is sharp: one reset of a row that has changed since it was read breaks it. */
module Reclaims {
  import opened Prelude
  import opened Leases
  import opened Finality

  lemma {:induction false} CountSnoc(s: State, es: seq<Event>, e: Event, j: JobId, justified: bool)
    requires ValidRun(s, es) && Enabled(Run(s, es), e)
    ensures ValidRun(s, es + [e])
    ensures var t := Run(s, es);
            CountResets(s, es + [e], j, justified)
            == CountResets(s, es, j, justified) + if ResetsJob(t, e, j) && Justified(t, j) == justified then 1 else 0
    decreases |es|
  {
    if es == [] {
      assert [e][1..] == [];
      assert ValidRun(Next(s, e), []);
    } else {
      CountSnoc(Next(s, es[0]), es[1..], e, j, justified);
      assert (es + [e])[1..] == es[1..] + [e];
    }
  }

  // Leads to s with the given number of unjustified resets of the job.
  ghost predicate ReachesWith(maxAttempts: int, es: seq<Event>, s: State, j: JobId, others: nat) {
    Reaches(maxAttempts, es, s) && CountResets(Init(maxAttempts, 0), es, j, false) == others
  }

  lemma Extend(max: int, es: seq<Event>, s: State, e: Event, j: JobId, others: nat) returns (fs: seq<Event>, t: State)
    requires ReachesWith(max, es, s, j, others) && Enabled(s, e)
    ensures t == Next(s, e)
    ensures ReachesWith(max, fs, t, j, others + if ResetsJob(s, e, j) && !Justified(s, j) then 1 else 0)
  {
    RunSnoc(Init(max, 0), es, e);
    CountSnoc(Init(max, 0), es, e, j, false);
    fs, t := es + [e], Next(s, e);
  }

  // The only job has been claimed and reset n times; nothing is going on.
  predicate Idle(max: int, s: State, j: JobId, n: nat) {
    && s.maxAttempts == max && s.executions == map[] && s.reclaims == map[]
    && s.jobs == map[j := Job(Pending, n, None, None)] && s.imports == map[j := Pending] && s.resets == map[j := n]
  }

  // It is claimed once more, and the worker is gone when the lease runs out.
  predicate Lapsed(max: int, s: State, j: JobId, n: nat) {
    && s.maxAttempts == max && s.executions == map[] && s.reclaims == map[] && j in s.jobs
    && s.jobs == map[j := s.jobs[j]] && s.jobs[j].status == Claimed && s.jobs[j].attemptCount == n + 1
    && s.jobs[j].leasedBy.Some? && Expired(s.jobs[j], s.now)
    && s.imports == map[j := Pending] && s.resets == map[j := n]
  }

  lemma LeaseLapses(max: int, es: seq<Event>, s: State, j: JobId, w: WorkerId, n: nat)
    returns (fs: seq<Event>, t: State)
    requires ReachesWith(max, es, s, j, 0) && Idle(max, s, j, n)
    ensures ReachesWith(max, fs, t, j, 0) && Lapsed(max, t, j, n)
  {
    fs, t := Extend(max, es, s, Claim(w, j, 1000), j, 0);
    fs, t := Extend(max, fs, t, Abandon(w), j, 0);
    fs, t := Extend(max, fs, t, Tick(1001), j, 0);
  }

  lemma ResetOnce(max: int, es: seq<Event>, s: State, j: JobId, n: nat) returns (fs: seq<Event>, t: State)
    requires ReachesWith(max, es, s, j, 0) && Lapsed(max, s, j, n) && n + 1 < max
    ensures ReachesWith(max, fs, t, j, 0) && Idle(max, t, j, n + 1)
  {
    assert Snapshot(s.jobs, s.now) == map[j := n + 1];
    fs, t := Extend(max, es, s, ReclaimNow, j, 0);
    assert t.jobs == map[j := Job(Pending, n + 1, None, None)];
  }

  lemma {:induction false} Rounds(max: int, j: JobId, w: WorkerId, n: nat) returns (es: seq<Event>, s: State)
    requires n < max
    ensures ReachesWith(max, es, s, j, 0) && Idle(max, s, j, n)
  {
    if n == 0 {
      assert ReachesWith(max, [], Init(max, 0), j, 0);
      es, s := Extend(max, [], Init(max, 0), Create(j), j, 0);
    } else {
      es, s := Rounds(max, j, w, n - 1);
      es, s := LeaseLapses(max, es, s, j, w, n - 1);
      es, s := ResetOnce(max, es, s, j, n - 1);
    }
  }

  lemma ReadTwice(max: int, es: seq<Event>, s: State, j: JobId, n: nat) returns (fs: seq<Event>, t: State)
    requires ReachesWith(max, es, s, j, 0) && Lapsed(max, s, j, n)
    ensures ReachesWith(max, fs, t, j, 0) && t == s.(reclaims := map[0 := map[j := n + 1], 1 := map[j := n + 1]])
  {
    assert Snapshot(s.jobs, s.now) == map[j := n + 1];
    fs, t := Extend(max, es, s, ReclaimRead(0), j, 0);
    fs, t := Extend(max, fs, t, ReclaimRead(1), j, 0);
  }

  lemma WriteFirst(max: int, es: seq<Event>, s: State, j: JobId, n: nat) returns (fs: seq<Event>, t: State)
    requires ReachesWith(max, es, s, j, 0) && n + 1 < max && s.maxAttempts == max
    requires j in s.jobs && s.resets == map[j := n]
    requires IsLeased(s, j) && s.jobs[j].attemptCount == n + 1
    requires s.reclaims == map[0 := map[j := n + 1], 1 := map[j := n + 1]]
    ensures ReachesWith(max, fs, t, j, 0) && t.maxAttempts == max && j in t.jobs && !IsLeased(t, j)
    ensures t.resets == map[j := n + 1] && t.reclaims == map[1 := map[j := n + 1]]
  {
    fs, t := Extend(max, es, s, ReclaimWrite(0), j, 0);
  }

  // For every limit of at least two, a run in which a single unjustified reset takes a job one over the bound.
  lemma OneUnjustifiedResetExceeds(max: int, j: JobId, w: WorkerId) returns (es: seq<Event>, s: State)
    requires max >= 2
    ensures ReachesWith(max, es, s, j, 1) && ResetsOf(s, j) == max
  {
    es, s := Rounds(max, j, w, max - 2);
    es, s := LeaseLapses(max, es, s, j, w, max - 2);
    es, s := ReadTwice(max, es, s, j, max - 2);
    es, s := WriteFirst(max, es, s, j, max - 2);
    es, s := Extend(max, es, s, ReclaimWrite(1), j, 0);
  }
}
