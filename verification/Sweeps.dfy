/**
 * When the age-guarded sweep of orphans is safe. Requests and sweeps interleave freely; the clock ties them
 * together by three bounds: how long a request may pause between writes, how long it may take from its last
 * write to its commit, and how long a sweep may take from listing the references to fixing its cutoff.
 */
module Sweeps {
  import opened Prelude
  import opened Uploads

  // Gaps between writes are bounded only when steady is set.
  datatype Bounds = Bounds(commit: int, listing: int, steady: bool)

  predicate Timely(s: State, e: Event, b: Bounds)
    requires Enabled(s, e)
  {
    && (Commits(s, e) || (b.steady && e.Write?) ==> s.now <= s.requests[e.request].lastWrite + b.commit)
    && (e.SweepCut? ==> s.now <= s.sweeps[e.sweep].at + b.listing)
  }

  ghost predicate TimedRun(s: State, es: seq<Event>, b: Bounds)
    requires ValidRun(s, es)
    decreases |es|
  {
    es == [] || (Timely(s, es[0], b) && TimedRun(Next(s, es[0]), es[1..], b))
  }

  // Every path an import refers to is on disk.
  ghost predicate FilesOnDisk(files: set<FileRow>, disk: map<Path, Time>) { forall r :: r in files ==> r.path in disk }

  ghost predicate ReferencedExist(s: State) { FilesOnDisk(s.files, s.disk) }

  ghost predicate SafeAfter(s: State, es: seq<Event>, b: Bounds) {
    ValidRun(s, es) && TimedRun(s, es, b) ==> ReferencedExist(Run(s, es))
  }

  // ---- Without sweeps

  predicate Pending(r: Request) { r.phase.Saving? || r.phase.Saved? }

  ghost predicate PendingOnDisk(requests: map<RequestId, Request>, disk: map<Path, Time>) {
    forall q :: q in requests && Pending(requests[q]) ==> requests[q].path in disk
  }

  lemma {:induction false} UnsweptFilesStay(s: State, es: seq<Event>)
    requires Inv(s) && ReferencedExist(s) && PendingOnDisk(s.requests, s.disk)
    requires ValidRun(s, es) && forall e :: e in es ==> !e.SweepRemove?
    ensures ReferencedExist(Run(s, es))
    decreases |es|
  {
    if es != [] {
      var t := Next(s, es[0]);
      assert es[0] in es;
      RowsStay(s, es[0]);
      forall q | q in t.requests && Pending(t.requests[q]) ensures t.requests[q].path in t.disk {
        if q in s.requests {
          RequestsFrame(s, es[0], q);
          PendingBefore(s, es[0], q);
          assert s.owner[s.requests[q].path] == q;
        }
      }
      StepKeepsTables(s, es[0]);
      StepKeepsNames(s, es[0]);
      StepKeepsOutcomes(s, es[0]);
      UnsweptFilesStay(t, es[1..]);
    }
  }

  lemma PendingBefore(s: State, e: Event, q: RequestId)
    requires Enabled(s, e) && q in s.requests && Pending(Requests(s, e)[q])
    ensures Pending(s.requests[q])
    ensures Acts(e) == Some(q) && !e.Open? ==> e.Write? || e.Close?
  {}

  // A step other than a sweep's removal takes no referenced file away.
  lemma RowsStay(s: State, e: Event)
    requires NamesOk(s) && ReferencedExist(s) && Enabled(s, e)
    requires Commits(s, e) ==> s.requests[e.request].path in s.disk
    requires e.SweepRemove? ==> forall r :: r in s.files ==> r.path != e.path
    ensures ReferencedExist(Next(s, e))
  {
    var t := Next(s, e);
    forall r | r in t.files ensures r.path in t.disk {
      if r in s.files {
        var q := s.owner[r.path];
        assert s.requests[q].path == r.path && s.requests[q].phase.Ended?;
      }
    }
  }

  // Whatever the interleaving, files of imports are lost to sweeps only.
  lemma OnlySweepsLoseFiles(age: int, now: Time, es: seq<Event>)
    requires ValidRun(Init(age, now), es)
    ensures (forall e :: e in es ==> !e.SweepRemove?) ==> ReferencedExist(Run(Init(age, now), es))
  {
    if forall e :: e in es ==> !e.SweepRemove? {
      UnsweptFilesStay(Init(age, now), es);
    }
  }

  // ---- With sweeps: what the clock guarantees

  // A file is as old as the last write of the request that owns it.
  ghost predicate TimesOk(disk: map<Path, Time>, requests: map<RequestId, Request>, owner: map<Path, RequestId>) {
    forall p :: p in disk ==> p in owner && owner[p] in requests && disk[p] == requests[owner[p]].lastWrite
  }

  ghost predicate PastOk(now: Time, requests: map<RequestId, Request>, sweeps: map<SweepId, Sweep>) {
    && (forall q :: q in requests ==> requests[q].lastWrite <= now)
    && (forall k :: k in sweeps ==> sweeps[k].at <= now)
  }

  ghost predicate CutoffsOk(age: int, sweeps: map<SweepId, Sweep>, b: Bounds) {
    forall k :: k in sweeps && sweeps[k].cutoff.Some? ==> sweeps[k].cutoff.value <= sweeps[k].at + b.listing - age
  }

  // A row the sweep did not list was committed after the listing, so its file was written shortly before it
  // at the earliest.
  ghost predicate RowListed(r: FileRow, sweep: Sweep, requests: map<RequestId, Request>,
                            owner: map<Path, RequestId>, b: Bounds)
  {
    r.path in sweep.referenced
    || (r.path in owner && owner[r.path] in requests && sweep.at <= requests[owner[r.path]].lastWrite + b.commit)
  }

  ghost predicate RowsListed(s: State, b: Bounds) {
    forall k, r :: k in s.sweeps && r in s.files ==> RowListed(r, s.sweeps[k], s.requests, s.owner, b)
  }

  // A doomed file was last written before the cutoff, and still is.
  ghost predicate DoomedOk(sweep: Sweep, requests: map<RequestId, Request>, owner: map<Path, RequestId>) {
    forall p :: p in sweep.doomed ==>
      && p !in sweep.referenced && sweep.cutoff.Some?
      && p in owner && owner[p] in requests && requests[owner[p]].lastWrite <= sweep.cutoff.value
  }

  ghost predicate AllDoomedOk(s: State) { forall k :: k in s.sweeps ==> DoomedOk(s.sweeps[k], s.requests, s.owner) }

  // An upload that has lost its file can no longer commit in time.
  ghost predicate PendingOk(now: Time, requests: map<RequestId, Request>, disk: map<Path, Time>, b: Bounds) {
    forall q :: q in requests && Pending(requests[q]) ==>
      requests[q].path in disk || requests[q].lastWrite + b.commit < now
  }

  ghost predicate SweepInv(s: State, b: Bounds) {
    && NamesOk(s) && TimesOk(s.disk, s.requests, s.owner) && PastOk(s.now, s.requests, s.sweeps)
    && CutoffsOk(s.age, s.sweeps, b) && RowsListed(s, b) && AllDoomedOk(s)
    && PendingOk(s.now, s.requests, s.disk, b) && ReferencedExist(s)
  }

  // ---- One step

  lemma StepKeepsTimes(s: State, e: Event)
    requires NamesOk(s) && TimesOk(s.disk, s.requests, s.owner) && Enabled(s, e)
    ensures TimesOk(Disk(s, e), Requests(s, e), Next(s, e).owner)
  {
    forall p | p in Disk(s, e)
      ensures var owner := Next(s, e).owner;
              p in owner && owner[p] in Requests(s, e) && Disk(s, e)[p] == Requests(s, e)[owner[p]].lastWrite
    {
      if p in s.disk {
        RequestsFrame(s, e, s.owner[p]);
        assert s.requests[s.owner[p]].path == p;
      }
    }
  }

  // A request's last write only moves forward, and only by a write of its own.
  lemma WritesMove(s: State, e: Event, q: RequestId)
    requires Enabled(s, e) && q in s.requests
    ensures q in Requests(s, e)
    ensures Requests(s, e)[q].lastWrite == if e == Write(q) then s.now else s.requests[q].lastWrite
  {}

  // A sweep keeps what it listed and, once fixed, its cutoff.
  lemma SweepsFrame(s: State, e: Event, k: SweepId)
    requires Enabled(s, e) && k in Sweeps(s, e)
    ensures k !in s.sweeps ==> e == SweepList(k)
    ensures k in s.sweeps ==>
      var x, y := s.sweeps[k], Sweeps(s, e)[k];
      && y.at == x.at && y.referenced == x.referenced
      && (y.cutoff == x.cutoff || (e == SweepCut(k) && y.cutoff == Some(s.now - s.age)))
      && (y.doomed <= x.doomed || (e.SweepStat? && e.sweep == k && x.cutoff.Some? && Stale(x, s.disk, e.path)
                                   && y.doomed == x.doomed + {e.path}))
      && (x.cutoff.Some? ==> y.cutoff == x.cutoff)
  {}

  lemma StepKeepsPast(s: State, e: Event)
    requires PastOk(s.now, s.requests, s.sweeps) && Enabled(s, e)
    ensures PastOk(Next(s, e).now, Requests(s, e), Sweeps(s, e))
  {
    forall q | q in Requests(s, e) ensures Requests(s, e)[q].lastWrite <= Next(s, e).now {
      if q in s.requests { WritesMove(s, e, q); }
    }
    forall k | k in Sweeps(s, e) ensures Sweeps(s, e)[k].at <= Next(s, e).now {
      SweepsFrame(s, e, k);
    }
  }

  lemma StepKeepsCutoffs(s: State, e: Event, b: Bounds)
    requires CutoffsOk(s.age, s.sweeps, b) && Enabled(s, e) && Timely(s, e, b)
    ensures CutoffsOk(s.age, Sweeps(s, e), b)
  {
    forall k | k in Sweeps(s, e) && Sweeps(s, e)[k].cutoff.Some?
      ensures Sweeps(s, e)[k].cutoff.value <= Sweeps(s, e)[k].at + b.listing - s.age
    {
      SweepsFrame(s, e, k);
    }
  }

  lemma StepKeepsRowListed(s: State, e: Event, b: Bounds, k: SweepId, r: FileRow)
    requires NamesOk(s) && PastOk(s.now, s.requests, s.sweeps) && RowsListed(s, b)
    requires Enabled(s, e) && Timely(s, e, b)
    requires k in Sweeps(s, e) && r in Next(s, e).files
    ensures RowListed(r, Sweeps(s, e)[k], Requests(s, e), Next(s, e).owner, b)
  {
    SweepsFrame(s, e, k);
    if r in s.files {
      var q := s.owner[r.path];
      WritesMove(s, e, q);
      if k in s.sweeps {
        assert RowListed(r, s.sweeps[k], s.requests, s.owner, b);
      }
    } else {
      WritesMove(s, e, e.request);
      assert s.owner[r.path] == e.request;
    }
  }

  // The heart of the argument: a file doomed by a sweep can be neither written nor committed any more.
  lemma DoomedIsLost(s: State, b: Bounds, k: SweepId, p: Path)
    requires SweepInv(s, b) && b.commit + b.listing < s.age && k in s.sweeps && p in s.sweeps[k].doomed
    ensures p in s.owner && s.owner[p] in s.requests && s.requests[s.owner[p]].lastWrite + b.commit < s.now
    ensures forall r :: r in s.files ==> r.path != p
  {
    assert DoomedOk(s.sweeps[k], s.requests, s.owner);
    forall r | r in s.files ensures r.path != p {
      assert RowListed(r, s.sweeps[k], s.requests, s.owner, b);
    }
  }

  lemma StepKeepsDoomed(s: State, e: Event, b: Bounds, k: SweepId)
    requires SweepInv(s, b) && b.steady && b.commit + b.listing < s.age
    requires Enabled(s, e) && Timely(s, e, b) && k in Sweeps(s, e)
    ensures DoomedOk(Sweeps(s, e)[k], Requests(s, e), Next(s, e).owner)
  {
    SweepsFrame(s, e, k);
    if k in s.sweeps {
      assert DoomedOk(s.sweeps[k], s.requests, s.owner);
      forall p | p in Sweeps(s, e)[k].doomed
        ensures var y, owner := Sweeps(s, e)[k], Next(s, e).owner;
                && p !in y.referenced && y.cutoff.Some? && p in owner && owner[p] in Requests(s, e)
                && Requests(s, e)[owner[p]].lastWrite <= y.cutoff.value
      {
        WritesMove(s, e, s.owner[p]);
        if p in s.sweeps[k].doomed {
          DoomedIsLost(s, b, k, p);
        }
      }
    }
  }

  lemma StepKeepsPending(s: State, e: Event, b: Bounds, q: RequestId)
    requires SweepInv(s, b) && b.steady && b.commit + b.listing < s.age
    requires Enabled(s, e) && Timely(s, e, b) && q in Requests(s, e) && Pending(Requests(s, e)[q])
    ensures Requests(s, e)[q].path in Disk(s, e) || Requests(s, e)[q].lastWrite + b.commit < Next(s, e).now
  {
    if q in s.requests {
      RequestsFrame(s, e, q);
      PendingBefore(s, e, q);
      WritesMove(s, e, q);
      assert s.owner[s.requests[q].path] == q;
      if e.SweepRemove? {
        DoomedIsLost(s, b, e.sweep, e.path);
      }
    }
  }

  lemma StepKeepsSweepInv(s: State, e: Event, b: Bounds)
    requires SweepInv(s, b) && b.steady && b.commit + b.listing < s.age && Enabled(s, e) && Timely(s, e, b)
    ensures SweepInv(Next(s, e), b)
  {
    var t := Next(s, e);
    StepKeepsNames(s, e);
    StepKeepsTimes(s, e);
    StepKeepsPast(s, e);
    StepKeepsCutoffs(s, e, b);
    forall k, r | k in t.sweeps && r in t.files ensures RowListed(r, t.sweeps[k], t.requests, t.owner, b) {
      StepKeepsRowListed(s, e, b, k, r);
    }
    forall k | k in t.sweeps ensures DoomedOk(t.sweeps[k], t.requests, t.owner) { StepKeepsDoomed(s, e, b, k); }
    forall q | q in t.requests && Pending(t.requests[q])
      ensures t.requests[q].path in t.disk || t.requests[q].lastWrite + b.commit < t.now
    {
      StepKeepsPending(s, e, b, q);
    }
    if e.SweepRemove? { DoomedIsLost(s, b, e.sweep, e.path); }
    RowsStay(s, e);
  }

  lemma {:induction false} RunKeepsSweepInv(s: State, es: seq<Event>, b: Bounds)
    requires SweepInv(s, b) && b.steady && b.commit + b.listing < s.age && ValidRun(s, es) && TimedRun(s, es, b)
    ensures SweepInv(Run(s, es), b)
    decreases |es|
  {
    if es != [] {
      StepKeepsSweepInv(s, es[0], b);
      RunKeepsSweepInv(Next(s, es[0]), es[1..], b);
    }
  }

  // ---- Runs that lose a file

  // The run es leads within the bounds from the start to state s.
  ghost predicate LeadsTo(age: int, b: Bounds, es: seq<Event>, s: State) {
    ValidRun(Init(age, 0), es) && TimedRun(Init(age, 0), es, b) && Run(Init(age, 0), es) == s
  }

  lemma {:induction false} RunSnoc(s: State, es: seq<Event>, e: Event, b: Bounds)
    requires ValidRun(s, es) && TimedRun(s, es, b) && Enabled(Run(s, es), e) && Timely(Run(s, es), e, b)
    ensures ValidRun(s, es + [e]) && TimedRun(s, es + [e], b) && Run(s, es + [e]) == Next(Run(s, es), e)
    decreases |es|
  {
    if es == [] {
      assert [e][1..] == [];
      assert ValidRun(Next(s, e), []) && TimedRun(Next(s, e), [], b);
    } else {
      RunSnoc(Next(s, es[0]), es[1..], e, b);
      assert (es + [e])[1..] == es[1..] + [e];
    }
  }

  lemma Extend(age: int, b: Bounds, es: seq<Event>, s: State, e: Event) returns (fs: seq<Event>, t: State)
    requires LeadsTo(age, b, es, s) && Enabled(s, e) && Timely(s, e, b)
    ensures LeadsTo(age, b, fs, t) && t == Next(s, e)
  {
    RunSnoc(Init(age, 0), es, e, b);
    fs, t := es + [e], Next(s, e);
  }

  function Only(sweep: Sweep): map<SweepId, Sweep> { map[0 := sweep] }

  lemma SaveAtOnce(age: int, b: Bounds) returns (es: seq<Event>, s: State)
    ensures LeadsTo(age, b, es, s)
    ensures s == Init(age, 0).(disk := map[["f"] := 0], owner := map[["f"] := 0],
                               requests := map[0 := Request("k", "i", ["f"], 0, Saved)])
  {
    assert LeadsTo(age, b, [], Init(age, 0));
    es, s := Extend(age, b, [], Init(age, 0), Open(0, "k", "i", ["f"]));
    es, s := Extend(age, b, es, s, Close(0));
  }

  // The upload is saved at once and then waits; the sweep lists no references.
  lemma SavedThenListed(age: int, b: Bounds, wait: nat) returns (es: seq<Event>, s: State)
    ensures LeadsTo(age, b, es, s)
    ensures s == Init(age, 0).(now := wait, disk := map[["f"] := 0], owner := map[["f"] := 0],
                               requests := map[0 := Request("k", "i", ["f"], 0, Saved)],
                               sweeps := Only(Sweep(wait, {}, None, None, {})))
  {
    es, s := SaveAtOnce(age, b);
    es, s := Wait(age, b, es, s, wait);
    assert s.files == {} && (set r | r in s.files :: r.path) == {};
    es, s := Extend(age, b, es, s, SweepList(0));
  }

  // It commits just in time, and the sweep, just in time with its cutoff, removes the file.
  lemma TooYoungLost(age: int, b: Bounds) returns (es: seq<Event>)
    requires 0 <= b.commit && 0 <= b.listing && age <= b.commit + b.listing
    ensures !SafeAfter(Init(age, 0), es, b)
  {
    var s;
    es, s := SavedThenListed(age, b, b.commit);
    es, s := Extend(age, b, es, s, Create(0));
    es, s := CutAndRemove(age, b, es, s, b.listing);
    assert FileRow("i", ["f"]) in s.files && ["f"] !in s.disk;
  }

  lemma Wait(age: int, b: Bounds, es: seq<Event>, s: State, wait: nat) returns (fs: seq<Event>, t: State)
    requires LeadsTo(age, b, es, s)
    ensures LeadsTo(age, b, fs, t) && t == s.(now := s.now + wait)
  {
    fs, t := Extend(age, b, es, s, Tick(wait));
  }

  lemma ReadDirectory(age: int, b: Bounds, es: seq<Event>, s: State) returns (fs: seq<Event>, t: State)
    requires LeadsTo(age, b, es, s)
    requires s.sweeps == Only(Sweep(s.now, {}, None, None, {})) && s.disk == map[["f"] := 0]
    ensures LeadsTo(age, b, fs, t)
    ensures t == s.(sweeps := Only(Sweep(s.now, {}, Some({["f"]}), None, {})))
  {
    assert s.disk.Keys == {["f"]};
    fs, t := Extend(age, b, es, s, SweepRead(0));
  }

  lemma FixCutoff(age: int, b: Bounds, es: seq<Event>, s: State, at: Time) returns (fs: seq<Event>, t: State)
    requires LeadsTo(age, b, es, s) && s.age == age && s.now <= at + b.listing
    requires s.sweeps == Only(Sweep(at, {}, Some({["f"]}), None, {}))
    ensures LeadsTo(age, b, fs, t)
    ensures t == s.(sweeps := Only(Sweep(at, {}, Some({["f"]}), Some(s.now - age), {})))
  {
    assert 0 in s.sweeps && s.sweeps[0] == Sweep(at, {}, Some({["f"]}), None, {});
    fs, t := Extend(age, b, es, s, SweepCut(0));
    assert t.sweeps == s.sweeps[0 := Sweep(at, {}, Some({["f"]}), Some(s.now - age), {})];
  }

  // The only sweep, at its listing, reads the directory and fixes its cutoff.
  lemma Cut(age: int, b: Bounds, es: seq<Event>, s: State, wait: nat) returns (fs: seq<Event>, t: State)
    requires LeadsTo(age, b, es, s) && s.age == age && wait <= b.listing
    requires s.sweeps == Only(Sweep(s.now, {}, None, None, {})) && s.disk == map[["f"] := 0]
    ensures LeadsTo(age, b, fs, t)
    ensures t == s.(now := s.now + wait, sweeps := Only(Sweep(s.now, {}, Some({["f"]}), Some(s.now + wait - age), {})))
  {
    fs, t := ReadDirectory(age, b, es, s);
    fs, t := Wait(age, b, fs, t, wait);
    fs, t := FixCutoff(age, b, fs, t, s.now);
  }

  lemma Remove(age: int, b: Bounds, es: seq<Event>, s: State, at: Time, cutoff: nat) returns (fs: seq<Event>, t: State)
    requires LeadsTo(age, b, es, s)
    requires s.sweeps == Only(Sweep(at, {}, Some({["f"]}), Some(cutoff), {})) && s.disk == map[["f"] := 0]
    ensures LeadsTo(age, b, fs, t) && t.disk == map[] && t == s.(disk := t.disk, sweeps := t.sweeps)
  {
    fs, t := Extend(age, b, es, s, SweepStat(0, ["f"]));
    fs, t := Extend(age, b, fs, t, SweepRemove(0, ["f"]));
  }

  // It then goes on to remove the only file, written at 0.
  lemma CutAndRemove(age: int, b: Bounds, es: seq<Event>, s: State, wait: nat) returns (fs: seq<Event>, t: State)
    requires LeadsTo(age, b, es, s) && s.age == age && wait <= b.listing && age <= s.now + wait
    requires s.sweeps == Only(Sweep(s.now, {}, None, None, {})) && s.disk == map[["f"] := 0]
    ensures LeadsTo(age, b, fs, t) && t.disk == map[]
    ensures t == s.(now := s.now + wait, disk := t.disk, sweeps := t.sweeps)
  {
    fs, t := Cut(age, b, es, s, wait);
    fs, t := Remove(age, b, fs, t, s.now, s.now + wait - age);
  }

  // For steady uploads, no interleaving of uploads and sweeps loses a file that an import refers to if and
  // only if the two bounds together stay strictly below the age guard.
  lemma SweepsAreSafeIff(age: int, b: Bounds)
    requires 0 <= b.commit && 0 <= b.listing && b.steady
    ensures (forall es :: SafeAfter(Init(age, 0), es, b)) <==> b.commit + b.listing < age
  {
    if b.commit + b.listing < age {
      forall es ensures SafeAfter(Init(age, 0), es, b) {
        if ValidRun(Init(age, 0), es) && TimedRun(Init(age, 0), es, b) {
          RunKeepsSweepInv(Init(age, 0), es, b);
        }
      }
    } else {
      var es := TooYoungLost(age, b);
      assert !SafeAfter(Init(age, 0), es, b);
    }
  }

  // Bounding only the time from the last write to the commit is never enough, however old a file must be:
  // an upload that pauses for the age guard loses its file and then commits at once after its last write.
  lemma StalledUploadLost(age: nat) returns (es: seq<Event>)
    ensures !SafeAfter(Init(age, 0), es, Bounds(0, 0, false))
  {
    var b, s := Bounds(0, 0, false), Init(age, 0);
    assert LeadsTo(age, b, [], s);
    es, s := Extend(age, b, [], s, Open(0, "k", "i", ["f"]));
    es, s := Extend(age, b, es, s, Tick(age));
    assert s.files == {} && (set r | r in s.files :: r.path) == {};
    es, s := Extend(age, b, es, s, SweepList(0));
    es, s := CutAndRemove(age, b, es, s, 0);
    es, s := Extend(age, b, es, s, Write(0));
    es, s := Extend(age, b, es, s, Close(0));
    es, s := Extend(age, b, es, s, Create(0));
    assert FileRow("i", ["f"]) in s.files && ["f"] !in s.disk;
  }
}
