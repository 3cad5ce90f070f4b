/**
 * The counting semaphore that bounds concurrent batch writes. Runs are named by arrival number; a run
 * that is granted the semaphore resumes only later, and finishes (normally or by throwing) after that.
 */
module Semaphores {
  import opened Prelude

  type Ticket = nat

  datatype State = State(
    limit: nat, available: nat, waiting: seq<Ticket>,
    arrived: nat,            // tickets below this have called run
    granted: nat,            // tickets below this have been let through, in this order
    holders: set<Ticket>,    // granted and not finished
    running: set<Ticket>,    // of these, the ones whose function has started
    finished: set<Ticket>)

  datatype Event = Arrive | Resume(ticket: Ticket) | Finish(ticket: Ticket)

  function Init(limit: nat): State { State(limit, limit, [], 0, 0, {}, {}, {}) }

  predicate Enabled(s: State, e: Event) {
    match e
    case Arrive => true
    case Resume(t) => t in s.holders && t !in s.running
    case Finish(t) => t in s.running
  }

  function Next(s: State, e: Event): State
    requires Enabled(s, e)
  {
    match e
    case Arrive =>
      var t, seen := s.arrived, s.(arrived := s.arrived + 1);
      if s.available > 0 then seen.(available := s.available - 1, granted := s.granted + 1, holders := s.holders + {t})
      else seen.(waiting := s.waiting + [t])
    case Resume(t) => s.(running := s.running + {t})
    case Finish(t) =>
      var done := s.(holders := s.holders - {t}, running := s.running - {t}, finished := s.finished + {t});
      if s.waiting != [] then
        done.(waiting := s.waiting[1..], granted := s.granted + 1, holders := done.holders + {s.waiting[0]})
      else done.(available := s.available + 1)
  }

  ghost predicate ValidRun(s: State, es: seq<Event>)
    decreases |es|
  {
    es == [] || (Enabled(s, es[0]) && ValidRun(Next(s, es[0]), es[1..]))
  }

  function Run(s: State, es: seq<Event>): State
    requires ValidRun(s, es)
    decreases |es|
  {
    if es == [] then s else Run(Next(s, es[0]), es[1..])
  }

  // Every ticket below `granted` holds the semaphore or has finished; the rest wait in arrival order.
  ghost predicate Ordered(s: State) {
    && s.arrived == s.granted + |s.waiting|
    && (forall i :: 0 <= i < |s.waiting| ==> s.waiting[i] == s.granted + i)
    && s.holders !! s.finished && s.running <= s.holders
    && forall t: Ticket :: t < s.granted <==> t in s.holders || t in s.finished
  }

  ghost predicate Counted(s: State) {
    s.limit == s.available + |s.holders| && (s.waiting != [] ==> s.available == 0)
  }

  ghost predicate Inv(s: State) { Ordered(s) && Counted(s) }

  lemma StepKeepsInv(s: State, e: Event)
    requires Inv(s) && Enabled(s, e)
    ensures Inv(Next(s, e)) && Next(s, e).limit == s.limit
  {
    match e
    case Arrive =>
      assert s.arrived !in s.holders;
    case Resume(_) =>
    case Finish(t) =>
      assert t in s.holders;
      if s.waiting != [] { assert s.waiting[0] !in s.holders - {t}; }
  }

  lemma {:induction false} RunKeepsInv(s: State, es: seq<Event>)
    requires Inv(s) && ValidRun(s, es)
    ensures Inv(Run(s, es)) && Run(s, es).limit == s.limit
    decreases |es|
  {
    if es != [] {
      StepKeepsInv(s, es[0]);
      RunKeepsInv(Next(s, es[0]), es[1..]);
    }
  }

  lemma SubsetSize(a: set<Ticket>, b: set<Ticket>)
    requires a <= b
    ensures |a| <= |b|
  {
    assert b == a + (b - a);
  }

  // In every reachable state: never more than `limit` functions run, permits are neither lost nor
  // invented, a run waits only while no permit is free, and runs are let through in arrival order.
  lemma SemaphoreIsFair(limit: nat, es: seq<Event>)
    requires ValidRun(Init(limit), es)
    ensures var s := Run(Init(limit), es);
            && |s.running| <= limit && limit == s.available + |s.holders|
            && (s.waiting != [] ==> s.available == 0 && (limit > 0 ==> s.holders != {}))
            && (forall t: Ticket :: t in s.holders || t in s.finished <==> t < s.granted)
            && forall i :: 0 <= i < |s.waiting| ==> s.waiting[i] == s.granted + i
  {
    RunKeepsInv(Init(limit), es);
    var s := Run(Init(limit), es);
    SubsetSize(s.running, s.holders);
  }

  lemma WaiterUnfinished(s: State)
    requires Inv(s) && s.waiting != []
    ensures s.waiting[0] < s.arrived && s.waiting[0] !in s.finished
  {}

  // Once every run has ended, all permits are back and nobody waits.
  lemma AllReturned(limit: nat, es: seq<Event>)
    requires ValidRun(Init(limit), es)
    requires forall t: Ticket :: t < Run(Init(limit), es).arrived ==> t in Run(Init(limit), es).finished
    ensures var s := Run(Init(limit), es); s.available == limit && s.waiting == [] && s.holders == {}
  {
    RunKeepsInv(Init(limit), es);
    var s := Run(Init(limit), es);
    assert s.waiting == [] by {
      if s.waiting != [] { WaiterUnfinished(s); }
    }
    assert forall t: Ticket :: t !in s.holders;
    assert s.holders == {};
  }

  class Semaphore {
    const limit: nat
    var available: nat
    var waiters: seq<Ticket>
    var arrived: nat

    ghost predicate Shows(s: State)
      reads this
    {
      limit == s.limit && available == s.available && waiters == s.waiting && arrived == s.arrived
    }

    constructor (limit: nat)
      requires limit >= 1
      ensures Shows(Init(limit))
    {
      this.limit, available, waiters, arrived := limit, limit, [], 0;
    }

    // None stands for the error thrown for a limit below 1.
    static method Create(limit: int) returns (semaphore: Semaphore?)
      ensures semaphore == null <==> limit < 1
      ensures semaphore != null ==> fresh(semaphore) && semaphore.Shows(Init(limit))
    {
      if limit < 1 { return null; }
      semaphore := new Semaphore(limit);
    }

    // acquire up to its first suspension; `granted` tells whether the caller waits.
    method Acquire(ghost s: State) returns (ticket: Ticket, granted: bool)
      requires Shows(s) && Inv(s)
      modifies this
      ensures Shows(Next(s, Arrive)) && ticket == s.arrived
      ensures granted <==> ticket in Next(s, Arrive).holders
    {
      ticket := arrived;
      arrived := arrived + 1;
      granted := available > 0;
      if granted { available := available - 1; } else { waiters := waiters + [ticket]; }
    }

    // release hands the permit to the first waiter, or returns it.
    method Release(ticket: Ticket, ghost s: State) returns (next: Option<Ticket>)
      requires Shows(s) && Inv(s) && Enabled(s, Finish(ticket))
      modifies this
      ensures Shows(Next(s, Finish(ticket)))
      ensures next.Some? ==> next.value in Next(s, Finish(ticket)).holders && next.value == s.granted
      ensures next.None? ==> Next(s, Finish(ticket)).holders == s.holders - {ticket}
    {
      if |waiters| > 0 {
        next := Some(waiters[0]);
        waiters := waiters[1..];
        return;
      }
      next := None;
      available := available + 1;
    }

    function InFlight(): int
      reads this
    {
      limit - available
    }

    // The gauges report granted runs and waiting runs.
    lemma GaugesAreExact(s: State)
      requires Shows(s) && Inv(s)
      ensures InFlight() == |s.holders| && |waiters| == s.arrived - s.granted
    {}
  }
}
