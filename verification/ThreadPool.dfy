/**
 * The risk-scoring pool: a queue of submitted batches, slots that each hold at most one of them, and
 * workers that answer, fail and exit in any order. Batches are named by their submission number.
 */
module ThreadPool {
  import opened Prelude

  type Ticket = nat

  datatype Held = Held(taskId: nat, ticket: Ticket)
  datatype Slot = Slot(busy: bool, current: Option<Held>)
  datatype Cause = Reply(taskId: nat, ok: bool) | WorkerLost | ShutDown
  datatype Settlement = Settlement(ticket: Ticket, cause: Cause)

  // `slots` are all slots ever spawned: the handlers of a replaced one stay attached. `active` are
  // the ones the pool dispatches to.
  datatype Pool = Pool(
    size: nat, slots: seq<Slot>, active: seq<nat>, queue: seq<Ticket>, nextTaskId: nat, shuttingDown: bool,
    submitted: nat, settled: seq<Settlement>)

  datatype Event =
    | Submit
    | Message(slot: nat, taskId: nat, ok: bool)
    | WorkerError(slot: nat)
    | WorkerExit(slot: nat, code: int)
    | Shutdown
    | Terminated    // all workers have terminated after Shutdown

  const IDLE := Slot(false, None)

  function Init(size: nat): Pool { Pool(size, seq(size, _ => IDLE), seq(size, i => i), [], 0, false, 0, []) }

  predicate Enabled(p: Pool, e: Event) {
    match e
    case Message(k, _, _) => k < |p.slots|
    case WorkerError(k) => k < |p.slots|
    case WorkerExit(k, _) => k < |p.slots|
    case Terminated => p.shuttingDown
    case _ => true
  }

  predicate Indexed(p: Pool) { forall i :: 0 <= i < |p.active| ==> p.active[i] < |p.slots| }

  function Assign(p: Pool, k: nat): (q: Pool)
    requires k < |p.slots| && p.queue != []
    ensures Indexed(p) ==> Indexed(q)
  {
    p.(slots := p.slots[k := Slot(true, Some(Held(p.nextTaskId, p.queue[0])))],
       queue := p.queue[1..], nextTaskId := p.nextTaskId + 1)
  }

  function DispatchFrom(p: Pool, i: nat): Pool
    requires Indexed(p)
    decreases |p.active| - i
  {
    if i >= |p.active| then p
    else if p.slots[p.active[i]].busy then DispatchFrom(p, i + 1)
    else if p.queue == [] then p
    else DispatchFrom(Assign(p, p.active[i]), i + 1)
  }

  function Dispatch(p: Pool): Pool
    requires Indexed(p)
  {
    if p.shuttingDown then p else DispatchFrom(p, 0)
  }

  // Settles what the slot holds, if anything, and frees it.
  function Free(p: Pool, k: nat, cause: Cause): Pool
    requires k < |p.slots|
  {
    var current := p.slots[k].current;
    p.(slots := p.slots[k := IDLE],
       settled := if current.Some? then p.settled + [Settlement(current.value.ticket, cause)] else p.settled)
  }

  function IndexOf(active: seq<nat>, k: nat): (i: nat)
    ensures i <= |active| && (i < |active| ==> active[i] == k) && (k in active ==> i < |active|)
  {
    if active == [] then 0 else if active[0] == k then 0 else 1 + IndexOf(active[1..], k)
  }

  function Replace(p: Pool, k: nat): Pool
    requires Indexed(p)
  {
    var i := IndexOf(p.active, k);
    if p.shuttingDown || i == |p.active| then p
    else Dispatch(p.(slots := p.slots + [IDLE], active := p.active[i := |p.slots|]))
  }

  function RejectAll(queue: seq<Ticket>): seq<Settlement> {
    seq(|queue|, i requires 0 <= i < |queue| => Settlement(queue[i], ShutDown))
  }

  function Next(p: Pool, e: Event): Pool
    requires Enabled(p, e) && Indexed(p)
  {
    match e
    case Submit =>
      if p.shuttingDown then p
      else Dispatch(p.(queue := p.queue + [p.submitted], submitted := p.submitted + 1))
    case Message(k, taskId, ok) =>
      var current := p.slots[k].current;
      if current.None? || current.value.taskId != taskId then p else Dispatch(Free(p, k, Reply(taskId, ok)))
    case WorkerError(k) => Replace(Free(p, k, WorkerLost), k)
    case WorkerExit(k, code) => if p.shuttingDown || code == 0 then p else Replace(Free(p, k, WorkerLost), k)
    case Shutdown =>
      if p.shuttingDown then p
      else p.(shuttingDown := true, settled := p.settled + RejectAll(p.queue), queue := [])
    case Terminated => p.(active := [])
  }

  // ---- The invariant

  function HeldCount(slots: seq<Slot>, t: Ticket): nat {
    if slots == [] then 0 else HeldCount(slots[..|slots| - 1], t) + HoldsNow(slots[|slots| - 1], t)
  }

  function HoldsNow(s: Slot, t: Ticket): nat { if s.current.Some? && s.current.value.ticket == t then 1 else 0 }

  function SettledCount(settled: seq<Settlement>, t: Ticket): nat {
    if settled == [] then 0
    else SettledCount(settled[..|settled| - 1], t) + if settled[|settled| - 1].ticket == t then 1 else 0
  }

  function OffQueue(p: Pool, t: Ticket): nat { HeldCount(p.slots, t) + SettledCount(p.settled, t) }

  // A task off the queue is held by exactly one slot or settled exactly once; one still on it is neither.
  ghost predicate Conserved(p: Pool) {
    forall t: Ticket :: OffQueue(p, t) == if t < (if p.shuttingDown then p.submitted else p.nextTaskId) then 1 else 0
  }

  predicate SlotOk(s: Slot, nextTaskId: nat) {
    && (s.busy <==> s.current.Some?)
    && (s.current.Some? ==> s.current.value.taskId == s.current.value.ticket < nextTaskId)
  }

  // Task numbers are submission numbers: a task is settled only by the reply to its own number, and
  // one that shutdown rejects was never given out.
  predicate CauseOk(x: Settlement, nextTaskId: nat) {
    match x.cause
    case Reply(taskId, _) => taskId == x.ticket < nextTaskId
    case WorkerLost => x.ticket < nextTaskId
    case ShutDown => x.ticket >= nextTaskId
  }

  ghost predicate SlotsOk(p: Pool) { forall k :: 0 <= k < |p.slots| ==> SlotOk(p.slots[k], p.nextTaskId) }

  ghost predicate CausesOk(p: Pool) {
    forall i :: 0 <= i < |p.settled| ==>
      CauseOk(p.settled[i], p.nextTaskId) && (p.settled[i].cause == ShutDown ==> p.shuttingDown)
  }

  // First in, first out: the queue is the tickets not yet given a task number.
  ghost predicate Fifo(p: Pool) {
    if p.shuttingDown then p.queue == []
    else |p.queue| == p.submitted - p.nextTaskId && forall i :: 0 <= i < |p.queue| ==> p.queue[i] == p.nextTaskId + i
  }

  ghost predicate ActiveOk(p: Pool) {
    && Indexed(p) && (!p.shuttingDown ==> |p.active| == p.size)
    && forall i, j :: 0 <= i < j < |p.active| ==> p.active[i] != p.active[j]
  }

  ghost predicate Core(p: Pool) { ActiveOk(p) && SlotsOk(p) && CausesOk(p) && Fifo(p) && Conserved(p) }

  // No slot idles while a task waits.
  ghost predicate WorkConserving(p: Pool) {
    !p.shuttingDown && p.queue != [] ==>
      forall i :: 0 <= i < |p.active| ==> p.active[i] < |p.slots| && p.slots[p.active[i]].busy
  }

  ghost predicate Inv(p: Pool) { Core(p) && WorkConserving(p) }

  lemma {:induction false} HeldUpdate(slots: seq<Slot>, k: nat, s: Slot, t: Ticket)
    requires k < |slots|
    ensures HeldCount(slots[k := s], t) + HoldsNow(slots[k], t) == HeldCount(slots, t) + HoldsNow(s, t)
    decreases |slots|
  {
    var front, updated := slots[..|slots| - 1], slots[k := s];
    if k == |slots| - 1 {
      assert updated[..k] == front;
    } else {
      HeldUpdate(front, k, s, t);
      assert updated[..|slots| - 1] == front[k := s];
    }
  }

  lemma {:induction false} RejectedOnce(settled: seq<Settlement>, queue: seq<Ticket>, base: nat, t: Ticket)
    requires forall i :: 0 <= i < |queue| ==> queue[i] == base + i
    ensures SettledCount(settled + RejectAll(queue), t)
         == SettledCount(settled, t) + if base <= t < base + |queue| then 1 else 0
    decreases |queue|
  {
    if queue == [] {
      assert settled + RejectAll(queue) == settled;
    } else {
      var front, all := queue[..|queue| - 1], settled + RejectAll(queue);
      RejectedOnce(settled, front, base, t);
      assert all[..|all| - 1] == settled + RejectAll(front);
    }
  }

  lemma AssignKeepsConserved(p: Pool, k: nat)
    requires Conserved(p) && Fifo(p) && k < |p.slots| && p.slots[k].current.None? && p.queue != [] && !p.shuttingDown
    ensures Conserved(Assign(p, k))
  {
    var q := Assign(p, k);
    forall t: Ticket ensures OffQueue(q, t) == if t < q.nextTaskId then 1 else 0 {
      assert OffQueue(p, t) == if t < p.nextTaskId then 1 else 0;
      HeldUpdate(p.slots, k, q.slots[k], t);
    }
  }

  lemma FreeKeepsConserved(p: Pool, k: nat, cause: Cause)
    requires Conserved(p) && k < |p.slots|
    ensures Conserved(Free(p, k, cause))
  {
    var q := Free(p, k, cause);
    forall t: Ticket ensures OffQueue(q, t) == OffQueue(p, t) {
      HeldUpdate(p.slots, k, IDLE, t);
      if p.slots[k].current.Some? { assert q.settled[..|q.settled| - 1] == p.settled; }
    }
  }

  lemma ShutdownKeepsConserved(p: Pool)
    requires Conserved(p) && Fifo(p) && !p.shuttingDown && Indexed(p)
    ensures Conserved(Next(p, Shutdown))
  {
    var q := Next(p, Shutdown);
    forall t: Ticket ensures OffQueue(q, t) == if t < q.submitted then 1 else 0 {
      assert OffQueue(p, t) == if t < p.nextTaskId then 1 else 0;
      RejectedOnce(p.settled, p.queue, p.nextTaskId, t);
    }
  }

  lemma SpawnKeepsConserved(p: Pool, active: seq<nat>)
    requires Conserved(p)
    ensures Conserved(p.(slots := p.slots + [IDLE], active := active))
  {
    var q := p.(slots := p.slots + [IDLE], active := active);
    assert q.slots[..|q.slots| - 1] == p.slots;
    assert forall t: Ticket :: OffQueue(q, t) == OffQueue(p, t);
  }

  lemma AssignKeepsCore(p: Pool, k: nat)
    requires Core(p) && k < |p.slots| && !p.slots[k].busy && p.queue != [] && !p.shuttingDown
    ensures Core(Assign(p, k))
  {
    assert SlotOk(p.slots[k], p.nextTaskId);
    AssignKeepsConserved(p, k);
  }

  lemma {:induction false} DispatchKeepsCore(p: Pool, i: nat)
    requires Core(p) && !p.shuttingDown
    requires p.queue != [] ==> forall j :: 0 <= j < i && j < |p.active| ==> p.slots[p.active[j]].busy
    ensures var q := DispatchFrom(p, i); Inv(q) && q.active == p.active && !q.shuttingDown
    decreases |p.active| - i
  {
    if i < |p.active| {
      if p.slots[p.active[i]].busy {
        DispatchKeepsCore(p, i + 1);
      } else if p.queue != [] {
        AssignKeepsCore(p, p.active[i]);
        DispatchKeepsCore(Assign(p, p.active[i]), i + 1);
      }
    }
  }

  lemma FreeKeepsCore(p: Pool, k: nat, cause: Cause)
    requires Core(p) && k < |p.slots|
    requires cause == WorkerLost
             || (cause.Reply? && p.slots[k].current.Some? && p.slots[k].current.value.taskId == cause.taskId)
    ensures Core(Free(p, k, cause))
  {
    assert SlotOk(p.slots[k], p.nextTaskId);
    FreeKeepsConserved(p, k, cause);
  }

  lemma ReplaceKeepsInv(p: Pool, k: nat)
    requires Core(p) && k < |p.slots|
    requires WorkConserving(p) || k in p.active
    ensures Inv(Replace(p, k))
  {
    var i := IndexOf(p.active, k);
    if !p.shuttingDown && i < |p.active| {
      var q := p.(slots := p.slots + [IDLE], active := p.active[i := |p.slots|]);
      SpawnKeepsConserved(p, q.active);
      DispatchKeepsCore(q, 0);
    }
  }

  lemma SubmitKeepsInv(p: Pool)
    requires Inv(p) && !p.shuttingDown
    ensures Inv(Next(p, Submit))
  {
    var q := p.(queue := p.queue + [p.submitted], submitted := p.submitted + 1);
    assert forall t: Ticket :: OffQueue(q, t) == OffQueue(p, t);
    DispatchKeepsCore(q, 0);
  }

  lemma ShutdownKeepsInv(p: Pool)
    requires Inv(p) && !p.shuttingDown
    ensures Inv(Next(p, Shutdown))
  {
    ShutdownKeepsConserved(p);
  }

  lemma MessageKeepsInv(p: Pool, e: Event)
    requires Inv(p) && Enabled(p, e) && e.Message?
    ensures Inv(Next(p, e))
  {
    var current, cause := p.slots[e.slot].current, Reply(e.taskId, e.ok);
    if current.Some? && current.value.taskId == e.taskId {
      FreeKeepsCore(p, e.slot, cause);
      if !p.shuttingDown { DispatchKeepsCore(Free(p, e.slot, cause), 0); }
    }
  }

  lemma LostKeepsInv(p: Pool, k: nat)
    requires Inv(p) && k < |p.slots|
    ensures Inv(Replace(Free(p, k, WorkerLost), k))
  {
    FreeKeepsCore(p, k, WorkerLost);
    ReplaceKeepsInv(Free(p, k, WorkerLost), k);
  }

  lemma StepKeepsInv(p: Pool, e: Event)
    requires Inv(p) && Enabled(p, e)
    ensures Inv(Next(p, e))
  {
    match e
    case Submit => if !p.shuttingDown { SubmitKeepsInv(p); }
    case Message(_, _, _) => MessageKeepsInv(p, e);
    case WorkerError(k) => LostKeepsInv(p, k);
    case WorkerExit(k, code) => LostKeepsInv(p, k);
    case Shutdown => if !p.shuttingDown { ShutdownKeepsInv(p); }
    case Terminated => assert forall t: Ticket :: OffQueue(Next(p, e), t) == OffQueue(p, t);
  }

  ghost predicate ValidRun(p: Pool, es: seq<Event>)
    decreases |es|
  {
    Indexed(p) && (es == [] || (Enabled(p, es[0]) && ValidRun(Next(p, es[0]), es[1..])))
  }

  function Run(p: Pool, es: seq<Event>): Pool
    requires ValidRun(p, es)
    decreases |es|
  {
    if es == [] then p else Run(Next(p, es[0]), es[1..])
  }

  lemma {:induction false} RunKeepsInv(p: Pool, es: seq<Event>)
    requires Inv(p) && ValidRun(p, es)
    ensures Inv(Run(p, es))
    decreases |es|
  {
    if es != [] {
      StepKeepsInv(p, es[0]);
      RunKeepsInv(Next(p, es[0]), es[1..]);
    }
  }

  lemma {:induction false} NothingHeld(n: nat, t: Ticket)
    ensures HeldCount(seq(n, _ => IDLE), t) == 0
  {
    if n > 0 {
      NothingHeld(n - 1, t);
      assert seq(n, _ => IDLE)[..n - 1] == seq(n - 1, _ => IDLE);
    }
  }

  lemma InitInv(size: nat)
    ensures Inv(Init(size))
  {
    forall t: Ticket ensures OffQueue(Init(size), t) == 0 { NothingHeld(size, t); }
  }

  lemma ReachableInv(size: nat, es: seq<Event>)
    requires ValidRun(Init(size), es)
    ensures Inv(Run(Init(size), es))
  {
    InitInv(size);
    RunKeepsInv(Init(size), es);
  }

  // ---- Main results over every sequence of events

  function Holders(slots: seq<Slot>, t: Ticket): set<nat> {
    set k | 0 <= k < |slots| && slots[k].current.Some? && slots[k].current.value.ticket == t
  }

  function Times(settled: seq<Settlement>, t: Ticket): set<nat> {
    set i | 0 <= i < |settled| && settled[i].ticket == t
  }

  function Places(queue: seq<Ticket>, t: Ticket): set<nat> { set i | 0 <= i < |queue| && queue[i] == t }

  lemma {:induction false} HoldersCount(slots: seq<Slot>, t: Ticket)
    ensures |Holders(slots, t)| == HeldCount(slots, t)
  {
    if slots != [] {
      var n := |slots| - 1;
      HoldersCount(slots[..n], t);
      assert Holders(slots, t) == Holders(slots[..n], t) + if HoldsNow(slots[n], t) == 1 then {n} else {};
    }
  }

  lemma {:induction false} TimesCount(settled: seq<Settlement>, t: Ticket)
    ensures |Times(settled, t)| == SettledCount(settled, t)
  {
    if settled != [] {
      var n := |settled| - 1;
      TimesCount(settled[..n], t);
      assert Times(settled, t) == Times(settled[..n], t) + if settled[n].ticket == t then {n} else {};
    }
  }

  lemma PlacesCount(queue: seq<Ticket>, base: nat, t: Ticket)
    requires forall i :: 0 <= i < |queue| ==> queue[i] == base + i
    ensures |Places(queue, t)| == if base <= t < base + |queue| then 1 else 0
  {
    assert Places(queue, t) == if base <= t < base + |queue| then {t - base} else {};
  }

  // Each submitted task has exactly one place: one queue position, one slot or one settlement.
  lemma TaskConservation(size: nat, es: seq<Event>, t: Ticket)
    requires ValidRun(Init(size), es)
    ensures var p := Run(Init(size), es);
            |Places(p.queue, t)| + |Holders(p.slots, t)| + |Times(p.settled, t)| == if t < p.submitted then 1 else 0
  {
    ReachableInv(size, es);
    var p := Run(Init(size), es);
    PlacesCount(p.queue, p.nextTaskId, t);
    HoldersCount(p.slots, t);
    TimesCount(p.settled, t);
    assert OffQueue(p, t) == HeldCount(p.slots, t) + SettledCount(p.settled, t);
  }

  // Tasks are numbered and dispatched in submission order and answered only under their own number.
  lemma OwnReplyOnly(size: nat, es: seq<Event>)
    requires ValidRun(Init(size), es)
    ensures var p := Run(Init(size), es);
            && (forall i :: 0 <= i < |p.settled| && p.settled[i].cause.Reply? ==>
                  p.settled[i].cause.taskId == p.settled[i].ticket)
            && (forall k :: 0 <= k < |p.slots| && p.slots[k].current.Some? ==>
                  p.slots[k].current.value.taskId == p.slots[k].current.value.ticket < p.nextTaskId)
            && (!p.shuttingDown ==> forall i :: 0 <= i < |p.queue| ==> p.queue[i] == p.nextTaskId + i)
  {
    ReachableInv(size, es);
    var p := Run(Init(size), es);
    assert forall i :: 0 <= i < |p.settled| ==> CauseOk(p.settled[i], p.nextTaskId);
    assert forall k :: 0 <= k < |p.slots| ==> SlotOk(p.slots[k], p.nextTaskId);
  }

  // Until shutdown the pool keeps its size and leaves no slot idle while a task waits; afterwards nothing waits.
  lemma PoolLiveness(size: nat, es: seq<Event>)
    requires ValidRun(Init(size), es)
    ensures var p := Run(Init(size), es);
            && (p.shuttingDown ==> p.queue == [])
            && (!p.shuttingDown ==> |p.active| == p.size)
            && (!p.shuttingDown && p.queue != [] ==>
                  forall i :: 0 <= i < |p.active| ==> p.active[i] < |p.slots| && p.slots[p.active[i]].busy)
  {
    ReachableInv(size, es);
    var p := Run(Init(size), es);
    assert Core(p) && WorkConserving(p);
  }

  // ---- What settles a task, told from the events

  // The event settles ticket t for the given cause: a reply to the task the slot holds, with the reply's own flag;
  // the loss of the worker that holds it; or shutdown while it waits.
  predicate SettledBy(p: Pool, e: Event, t: Ticket, cause: Cause) {
    match cause
    case Reply(n, ok) =>
      e.Message? && e.taskId == n && e.ok == ok && e.slot < |p.slots| && p.slots[e.slot].current == Some(Held(n, t))
    case WorkerLost =>
      && (e.WorkerError? || (e.WorkerExit? && e.code != 0 && !p.shuttingDown))
      && e.slot < |p.slots| && p.slots[e.slot].current.Some? && p.slots[e.slot].current.value.ticket == t
    case ShutDown => e.Shutdown? && !p.shuttingDown && t in p.queue
  }

  lemma {:induction false} DispatchSettlesNothing(p: Pool, i: nat)
    requires Indexed(p)
    ensures DispatchFrom(p, i).settled == p.settled
    decreases |p.active| - i
  {
    if i < |p.active| && p.slots[p.active[i]].busy {
      DispatchSettlesNothing(p, i + 1);
    } else if i < |p.active| && p.queue != [] {
      DispatchSettlesNothing(Assign(p, p.active[i]), i + 1);
    }
  }

  lemma ReplaceSettlesNothing(p: Pool, k: nat)
    requires Indexed(p)
    ensures Replace(p, k).settled == p.settled
  {
    var i := IndexOf(p.active, k);
    if !p.shuttingDown && i < |p.active| {
      DispatchSettlesNothing(p.(slots := p.slots + [IDLE], active := p.active[i := |p.slots|]), 0);
    }
  }

  lemma FreeSettles(p: Pool, k: nat, cause: Cause, x: Settlement)
    requires k < |p.slots|
    ensures x in Free(p, k, cause).settled <==>
            x in p.settled
            || (p.slots[k].current.Some? && x == Settlement(p.slots[k].current.value.ticket, cause))
  {}

  lemma RejectsQueue(queue: seq<Ticket>, x: Settlement)
    ensures x in RejectAll(queue) <==> x.cause == ShutDown && x.ticket in queue
  {
    if x.cause == ShutDown && x.ticket in queue {
      var i :| 0 <= i < |queue| && queue[i] == x.ticket;
      assert RejectAll(queue)[i] == x;
    }
  }

  lemma StepSettlesIff(p: Pool, e: Event, t: Ticket, cause: Cause)
    requires Inv(p) && Enabled(p, e)
    ensures Settlement(t, cause) in Next(p, e).settled <==>
            Settlement(t, cause) in p.settled || SettledBy(p, e, t, cause)
  {
    var x := Settlement(t, cause);
    match e
    case Submit =>
      if !p.shuttingDown {
        DispatchSettlesNothing(p.(queue := p.queue + [p.submitted], submitted := p.submitted + 1), 0);
      }
    case Message(k, taskId, ok) =>
      FreeSettles(p, k, Reply(taskId, ok), x);
      DispatchSettlesNothing(Free(p, k, Reply(taskId, ok)), 0);
    case WorkerError(k) =>
      FreeSettles(p, k, WorkerLost, x);
      ReplaceSettlesNothing(Free(p, k, WorkerLost), k);
    case WorkerExit(k, _) =>
      FreeSettles(p, k, WorkerLost, x);
      ReplaceSettlesNothing(Free(p, k, WorkerLost), k);
    case Shutdown => RejectsQueue(p.queue, x);
    case Terminated =>
  }

  // Some event of the run settles ticket t for that cause.
  ghost predicate EverSettledBy(p: Pool, es: seq<Event>, t: Ticket, cause: Cause)
    requires ValidRun(p, es)
    decreases |es|
  {
    es != [] && (SettledBy(p, es[0], t, cause) || EverSettledBy(Next(p, es[0]), es[1..], t, cause))
  }

  lemma {:induction false} RunSettlesIff(p: Pool, es: seq<Event>, t: Ticket, cause: Cause)
    requires Inv(p) && ValidRun(p, es)
    ensures Settlement(t, cause) in Run(p, es).settled <==>
            Settlement(t, cause) in p.settled || EverSettledBy(p, es, t, cause)
    decreases |es|
  {
    if es != [] {
      StepSettlesIff(p, es[0], t, cause);
      StepKeepsInv(p, es[0]);
      RunSettlesIff(Next(p, es[0]), es[1..], t, cause);
    }
  }

  // In every run a task is settled for a cause exactly when some event settles it so: a promise is resolved only by
  // a successful reply to its own task from the slot that holds it, and by every such reply.
  lemma SettledIff(size: nat, es: seq<Event>, t: Ticket, cause: Cause)
    requires ValidRun(Init(size), es)
    ensures Settlement(t, cause) in Run(Init(size), es).settled <==> EverSettledBy(Init(size), es, t, cause)
  {
    InitInv(size);
    RunSettlesIff(Init(size), es, t, cause);
  }

  // ---- In which order tasks go to slots

  predicate IdleAt(p: Pool, i: nat) { i < |p.active| && p.active[i] < |p.slots| && !p.slots[p.active[i]].busy }

  // How many of the active slots from one position up to another are idle.
  function IdleBetween(p: Pool, lo: int, hi: int): nat
    requires 0 <= lo
    decreases hi - lo
  {
    if lo >= hi then 0 else (if IdleAt(p, lo) then 1 else 0) + IdleBetween(p, lo + 1, hi)
  }

  ghost predicate Distinct(active: seq<nat>) { forall i, j :: 0 <= i < j < |active| ==> active[i] != active[j] }

  lemma {:induction false} SameIdle(p: Pool, q: Pool, lo: int, hi: int)
    requires 0 <= lo && forall m :: lo <= m < hi ==> (IdleAt(p, m) <==> IdleAt(q, m))
    ensures IdleBetween(p, lo, hi) == IdleBetween(q, lo, hi)
    decreases hi - lo
  {
    if lo < hi { SameIdle(p, q, lo + 1, hi); }
  }

  // The idle slots get the waiting tasks in the order of both, as many as there are; the others are left alone.
  lemma {:induction false} DispatchesInOrder(p: Pool, i: nat, pos: nat)
    requires Indexed(p) && Distinct(p.active) && pos < |p.active|
    ensures var q, k, rank := DispatchFrom(p, i), p.active[pos], IdleBetween(p, i, pos);
            && q.active == p.active && k < |q.slots|
            && q.slots[k] == if i <= pos && IdleAt(p, pos) && rank < |p.queue|
                             then Slot(true, Some(Held(p.nextTaskId + rank, p.queue[rank]))) else p.slots[k]
    decreases |p.active| - i
  {
    if i < |p.active| && p.slots[p.active[i]].busy {
      DispatchesInOrder(p, i + 1, pos);
    } else if i < |p.active| && p.queue != [] {
      var q := Assign(p, p.active[i]);
      DispatchesInOrder(q, i + 1, pos);
      SameIdle(p, q, i + 1, pos);
    }
  }

  // ---- Lost workers are replaced

  lemma {:induction false} DispatchKeepsSlots(p: Pool, i: nat)
    requires Indexed(p)
    ensures DispatchFrom(p, i).active == p.active && |DispatchFrom(p, i).slots| == |p.slots|
    decreases |p.active| - i
  {
    if i < |p.active| && p.slots[p.active[i]].busy {
      DispatchKeepsSlots(p, i + 1);
    } else if i < |p.active| && p.queue != [] {
      DispatchKeepsSlots(Assign(p, p.active[i]), i + 1);
    }
  }

  // Until shutdown, an active slot whose worker is lost makes room for a new one at its place, and is never handed a
  // task again; an inactive one changes nothing there.
  lemma LostSlotIsReplaced(p: Pool, k: nat, code: int)
    requires Inv(p) && k < |p.slots| && !p.shuttingDown && code != 0
    ensures Next(p, WorkerExit(k, code)) == Next(p, WorkerError(k))
    ensures var q := Next(p, WorkerError(k));
            && k !in q.active && |q.active| == |p.active|
            && (k !in p.active ==> q.active == p.active && |q.slots| == |p.slots|)
            && (forall i :: 0 <= i < |p.active| ==>
                  q.active[i] == if p.active[i] == k then |p.slots| else p.active[i])
            && (k in p.active ==> |q.slots| == |p.slots| + 1)
  {
    var f := Free(p, k, WorkerLost);
    var i := IndexOf(f.active, k);
    if i < |f.active| {
      DispatchKeepsSlots(f.(slots := f.slots + [IDLE], active := f.active[i := |f.slots|]), 0);
    }
  }

  // ---- The pool itself

  class WorkerSlot {
    var busy: bool
    var current: Option<Held>

    constructor ()
      ensures !busy && current == None
    {
      busy, current := false, None;
    }
  }

  datatype Submission = Refused | NothingToScore | Queued(ticket: Ticket)

  class WorkerThreadPool {
    var slots: seq<WorkerSlot>
    var queue: seq<Ticket>
    var nextTaskId: nat
    var shuttingDown: bool
    var submitted: nat
    var settled: seq<Settlement>
    ghost var spawned: seq<WorkerSlot>

    // The objects are those of a state of the pool.
    ghost predicate Shows(p: Pool)
      reads this, spawned
    {
      && Indexed(p)
      && |spawned| == |p.slots| && |slots| == |p.active|
      && (forall k, l :: 0 <= k < l < |spawned| ==> spawned[k] != spawned[l])
      && (forall k :: 0 <= k < |spawned| ==> p.slots[k] == Slot(spawned[k].busy, spawned[k].current))
      && (forall i :: 0 <= i < |slots| ==> slots[i] == spawned[p.active[i]])
      && queue == p.queue && nextTaskId == p.nextTaskId && shuttingDown == p.shuttingDown
      && submitted == p.submitted && settled == p.settled
    }

    constructor (size: nat)
      ensures Shows(Init(size)) && fresh(spawned)
    {
      slots, queue, nextTaskId, shuttingDown, submitted, settled, spawned := [], [], 0, false, 0, [], [];
      new;
      for i := 0 to size
        invariant |slots| == i && spawned == slots && fresh(slots)
        invariant forall k :: 0 <= k < i ==> !slots[k].busy && slots[k].current == None
        invariant forall k, l :: 0 <= k < l < i ==> slots[k] != slots[l]
        invariant queue == [] && nextTaskId == 0 && !shuttingDown && submitted == 0 && settled == []
      {
        var slot := new WorkerSlot();
        slots, spawned := slots + [slot], spawned + [slot];
      }
    }

    // Hands the head of the queue to an idle slot under the next task number.
    method Post(slot: WorkerSlot, ghost k: nat, ghost p: Pool)
      requires Shows(p) && k < |spawned| && spawned[k] == slot && queue != []
      modifies this, slot
      ensures slots == old(slots) && spawned == old(spawned) && Shows(Assign(p, k))
    {
      var ticket := queue[0];
      queue := queue[1..];
      slot.busy := true;
      slot.current := Some(Held(nextTaskId, ticket));
      nextTaskId := nextTaskId + 1;
    }

    method DispatchQueue(ghost p: Pool)
      requires Shows(p)
      modifies this, spawned
      ensures spawned == old(spawned) && Shows(Dispatch(p))
    {
      if shuttingDown { return; }
      ghost var q := p;
      for i := 0 to |slots|
        invariant slots == old(slots) && spawned == old(spawned)
        invariant Shows(q) && DispatchFrom(q, i) == DispatchFrom(p, 0)
      {
        var slot := slots[i];
        if slot.busy { continue; }
        if |queue| == 0 { return; }
        Post(slot, q.active[i], q);
        q := Assign(q, q.active[i]);
      }
    }

    // An empty batch is answered at once, without a task.
    method ScoreBatch(inputs: nat, ghost p: Pool) returns (reply: Submission)
      requires Shows(p)
      modifies this, spawned
      ensures spawned == old(spawned) && Shows(if inputs == 0 then p else Next(p, Submit))
      ensures reply == if p.shuttingDown then Refused else if inputs == 0 then NothingToScore else Queued(p.submitted)
    {
      if shuttingDown { return Refused; }
      if inputs == 0 { return NothingToScore; }
      reply := Queued(submitted);
      queue := queue + [submitted];
      submitted := submitted + 1;
      DispatchQueue(p.(queue := p.queue + [p.submitted], submitted := p.submitted + 1));
    }

    method OnMessage(slot: WorkerSlot, taskId: nat, ok: bool, ghost k: nat, ghost p: Pool)
      requires Shows(p) && k < |spawned| && spawned[k] == slot
      modifies this, spawned
      ensures spawned == old(spawned) && Shows(Next(p, Message(k, taskId, ok)))
      ensures var held := old(slot.current);
              settled == old(settled)
                         + if held.Some? && held.value.taskId == taskId
                           then [Settlement(held.value.ticket, Reply(taskId, ok))] else []
    {
      var current := slot.current;
      if current.None? || current.value.taskId != taskId { return; }
      slot.current := None;
      slot.busy := false;
      settled := settled + [Settlement(current.value.ticket, Reply(taskId, ok))];
      DispatchSettlesNothing(Free(p, k, Reply(taskId, ok)), 0);
      DispatchQueue(Free(p, k, Reply(taskId, ok)));
    }

    method OnError(slot: WorkerSlot, ghost k: nat, ghost p: Pool)
      requires Shows(p) && ActiveOk(p) && k < |spawned| && spawned[k] == slot
      modifies this, spawned
      ensures old(spawned) <= spawned && fresh(spawned[|old(spawned)|..]) && Shows(Next(p, WorkerError(k)))
      ensures var held := old(slot.current);
              settled == old(settled) + if held.Some? then [Settlement(held.value.ticket, WorkerLost)] else []
    {
      if slot.current.Some? { settled := settled + [Settlement(slot.current.value.ticket, WorkerLost)]; }
      slot.current := None;
      slot.busy := false;
      ReplaceSettlesNothing(Free(p, k, WorkerLost), k);
      ReplaceSlot(slot, k, Free(p, k, WorkerLost));
    }

    method OnExit(slot: WorkerSlot, code: int, ghost k: nat, ghost p: Pool)
      requires Shows(p) && ActiveOk(p) && k < |spawned| && spawned[k] == slot
      modifies this, spawned
      ensures old(spawned) <= spawned && fresh(spawned[|old(spawned)|..]) && Shows(Next(p, WorkerExit(k, code)))
    {
      if shuttingDown || code == 0 { return; }
      OnError(slot, k, p);
    }

    method ReplaceSlot(dead: WorkerSlot, ghost k: nat, ghost p: Pool)
      requires Shows(p) && ActiveOk(p) && k < |spawned| && spawned[k] == dead
      modifies this, spawned
      ensures old(spawned) <= spawned && fresh(spawned[|old(spawned)|..]) && Shows(Replace(p, k))
    {
      if shuttingDown { return; }
      ghost var i := IndexOf(p.active, k);
      if dead !in slots {
        if i < |slots| { assert false; }
        return;
      }
      var index :| 0 <= index < |slots| && slots[index] == dead;
      assert p.active[index] == k && i == index;
      var slot := new WorkerSlot();
      slots := slots[index := slot];
      spawned := spawned + [slot];
      DispatchQueue(p.(slots := p.slots + [IDLE], active := p.active[i := |p.slots|]));
    }

    method BeginShutdown(ghost p: Pool)
      requires Shows(p)
      modifies this
      ensures spawned == old(spawned) && Shows(Next(p, Shutdown))
    {
      if shuttingDown { return; }
      shuttingDown := true;
      ghost var all := queue;
      ghost var n := 0;
      while |queue| > 0
        invariant 0 <= n <= |all| && queue == all[n..]
        invariant settled == p.settled + RejectAll(all[..n])
        invariant slots == old(slots) && spawned == old(spawned) && shuttingDown
        invariant nextTaskId == p.nextTaskId && submitted == p.submitted
        decreases |queue|
      {
        settled := settled + [Settlement(queue[0], ShutDown)];
        queue := queue[1..];
        n := n + 1;
        assert all[..n] == all[..n - 1] + [all[n - 1]];
      }
      assert all[..n] == all;
    }

    method EndShutdown(ghost p: Pool)
      requires Shows(p) && p.shuttingDown
      modifies this
      ensures spawned == old(spawned) && Shows(Next(p, Terminated)) && slots == []
    {
      slots := [];
    }
  }
}
