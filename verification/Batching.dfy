/** The pipeline of one import file: classify line by line, hand over batches, then mark the job. */
module Batching {
  import opened Prelude
  import opened Ndjson
  import opened Transactions
  import opened Persistence
  import Fingerprint
  import LineReader

  const CANCELLATION_CHECK_INTERVAL := 500
  const HEARTBEAT_INTERVAL_MS := 30_000
  const RAW_VALUE_CAP := 2000

  datatype Validation = Accepted(transaction: Transaction) | Invalid(errorCode: string, message: string)
  datatype ScoringInput = ScoringInput(transaction: Transaction, fingerprint: string)

  // The deterministic functions of a line whose bodies are not modelled.
  datatype Pipeline = Pipeline(
    json: string -> JsonReply, stringify: Json -> string, validate: (Json, string) -> Validation,
    sha256Hex: string -> string, assess: (Transaction, string) -> Assessment, fallbackProvider: string)

  datatype Record = Good(input: ScoringInput) | Bad(rejected: Rejected)

  // None for a blank line.
  function Classify(p: Pipeline, raw: string, n: nat): Option<Record> {
    match ParseLine(p.json, raw, n)
    case Blank => None
    case Refused(line, code, message, value) => Some(Bad(Rejected(line, code, message, Take(value, RAW_VALUE_CAP))))
    case Valid(line, data) =>
      match p.validate(data, p.fallbackProvider)
      case Invalid(code, message) => Some(Bad(Rejected(line, code, message, Take(p.stringify(data), RAW_VALUE_CAP))))
      case Accepted(t) => Some(Good(ScoringInput(t, Fingerprint.ComputeFingerprint(p.sha256Hex, t))))
  }

  // The non-blank lines in file order; line numbers start at 1 and count blank lines.
  function Records(p: Pipeline, lines: seq<string>): seq<Record> {
    if lines == [] then [] else
      var front := Records(p, lines[..|lines| - 1]);
      match Classify(p, lines[|lines| - 1], |lines|) case None => front case Some(r) => front + [r]
  }

  function InputsOf(rs: seq<Record>): seq<ScoringInput> {
    if rs == [] then [] else
      var front := InputsOf(rs[..|rs| - 1]);
      match rs[|rs| - 1] case Good(input) => front + [input] case Bad(_) => front
  }

  function RejectedOf(rs: seq<Record>): seq<Rejected> {
    if rs == [] then [] else
      var front := RejectedOf(rs[..|rs| - 1]);
      match rs[|rs| - 1] case Good(_) => front case Bad(r) => front + [r]
  }

  // The scoring worker maps every input to its own assessment.
  function ScoreAll(p: Pipeline, inputs: seq<ScoringInput>): seq<Scored> {
    seq(|inputs|, i requires 0 <= i < |inputs| =>
      Scored(inputs[i].transaction, inputs[i].fingerprint, p.assess(inputs[i].transaction, inputs[i].fingerprint)))
  }

  function RowsOf(p: Pipeline, rs: seq<Record>): seq<Scored> { ScoreAll(p, InputsOf(rs)) }

  function ToBatch(p: Pipeline, id: ImportId, chunk: seq<Record>): Batch {
    Batch(id, RowsOf(p, chunk), RejectedOf(chunk), |chunk|)
  }

  function Chunk(size: nat, rs: seq<Record>): seq<seq<Record>>
    requires size > 0
    decreases |rs|
  {
    if rs == [] then [] else if |rs| <= size then [rs] else [rs[..size]] + Chunk(size, rs[size..])
  }

  function Batches(p: Pipeline, id: ImportId, chunks: seq<seq<Record>>): seq<Batch> {
    seq(|chunks|, i requires 0 <= i < |chunks| => ToBatch(p, id, chunks[i]))
  }

  // A configured size of zero or less flushes after every record.
  function Size(batchSize: int): nat { Max(1, batchSize) }

  function Plan(p: Pipeline, batchSize: int, lines: seq<string>): seq<seq<Record>> {
    Chunk(Size(batchSize), Records(p, lines))
  }

  // ---- What one execution meets on its way

  datatype Failure = Shutdown | Other(message: string)
  datatype StatusReply = Active | CancelRequested | StatusError(failure: Failure)
  // How far an execution gets before it reads lines: the error is one of looking up the file or counting its
  // lines, or of markProcessing.
  datatype Start = NoFile | StartError | MarkingError | Started

  datatype Environment = Environment(
    start: Start,
    readError: nat -> Option<Failure>,     // while fetching line n
    clock: nat -> int,                     // Date.now() at line n, and at the start for n = 0
    clockAfterRenewal: nat -> int,
    renewError: nat -> Option<Failure>,
    status: nat -> StatusReply,            // the job status read at line n
    scoreError: nat -> Option<Failure>,    // by flush number
    persistError: nat -> Option<Failure>,  // by flush number, retries exhausted
    markError: Option<Failure>)            // of markCompleted or markCancelled

  datatype Mark = MarkProcessing(totalRecords: nat) | MarkCompleted | MarkCancelled | MarkFailed(reason: string)

  datatype Outcome =
    | FileMissing
    | NotStarted
    | Completed
    | CancelledAt(line: nat)
    | Aborted(failure: Failure)
    | MarkRefused(failure: Failure)

  predicate CheckLine(n: nat) { n % CANCELLATION_CHECK_INTERVAL == 0 }

  // The lines at which the lease is renewed among the first n, and the last heartbeat after them.
  function Beats(env: Environment, n: nat): (seq<nat>, int) {
    if n == 0 then ([], env.clock(0)) else
      var (lines, last) := Beats(env, n - 1);
      if env.clock(n) - last > HEARTBEAT_INTERVAL_MS then (lines + [n], env.clockAfterRenewal(n)) else (lines, last)
  }

  // Line n was fetched, with no failed renewal and no cancellation seen on the way.
  predicate LinePassed(env: Environment, n: nat) {
    && env.readError(n).None? && (CheckLine(n) ==> env.status(n) == Active)
    && (n > 0 && Beats(env, n).0 != Beats(env, n - 1).0 ==> env.renewError(n).None?)
  }

  ghost predicate Passed(env: Environment, n: nat) { forall k: nat :: 1 <= k <= n ==> LinePassed(env, k) }

  ghost predicate AllPersisted(env: Environment, n: nat) { forall i: nat :: 1 <= i <= n ==> env.persistError(i).None? }

  // What having passed n lines means for each of them: the cancellation check runs on every 500th line.
  lemma PassedMeans(env: Environment, n: nat, k: nat)
    requires Passed(env, n) && 1 <= k <= n
    ensures env.readError(k).None? && (k % 500 == 0 ==> env.status(k) == Active)
    ensures k in Beats(env, k).0 && k !in Beats(env, k - 1).0 ==> env.renewError(k).None?
  {
    assert LinePassed(env, k);
  }

  // Told by the renewals alone: line n renews the lease exactly if more than 30 seconds have passed since the last
  // renewal, or since the start if there was none.
  lemma RenewsExactly(env: Environment, n: nat)
    requires n > 0
    ensures var before := Beats(env, n - 1).0;
            var last := if before == [] then env.clock(0) else env.clockAfterRenewal(before[|before| - 1]);
            Beats(env, n).0 == before + if env.clock(n) - last > 30_000 then [n] else []
    ensures Beats(env, 0).0 == []
  {
    LastBeat(env, n - 1);
  }

  lemma {:induction false} LastBeat(env: Environment, n: nat)
    ensures var (lines, last) := Beats(env, n);
            last == if lines == [] then env.clock(0) else env.clockAfterRenewal(lines[|lines| - 1])
  {
    if n > 0 { LastBeat(env, n - 1); }
  }

  // The failure comes from the line being fetched or looked at, or from the flush just made.
  predicate Raised(env: Environment, f: Failure, reached: nat, flushes: nat) {
    || env.readError(reached + 1) == Some(f) || env.renewError(reached) == Some(f)
    || env.status(reached) == StatusError(f)
    || env.scoreError(flushes) == Some(f) || env.persistError(flushes) == Some(f)
  }

  function FailureMarks(failure: Failure): seq<Mark> {
    match failure case Shutdown => [] case Other(message) => [MarkFailed(message)]
  }

  class ImportRun {
    const pipeline: Pipeline
    const importId: ImportId
    const batchSize: int
    const env: Environment

    var pendingScoring: seq<ScoringInput>
    var pendingRejected: seq<Rejected>
    var pendingLineCount: nat
    var flushes: nat
    var handed: seq<Batch>   // given to persistBatch, in order
    var acked: seq<Batch>    // of these, the ones reported persisted
    var marks: seq<Mark>

    ghost var held: seq<Record>
    ghost var full: seq<seq<Record>>

    constructor (pipeline: Pipeline, importId: ImportId, batchSize: int, env: Environment)
      ensures Valid() && handed == [] && marks == [] && held == [] && full == [] && flushes == 0
      ensures this.pipeline == pipeline && this.importId == importId && this.batchSize == batchSize && this.env == env
    {
      this.pipeline, this.importId, this.batchSize, this.env := pipeline, importId, batchSize, env;
      pendingScoring, pendingRejected, pendingLineCount, flushes := [], [], 0, 0;
      handed, acked, marks := [], [], [];
      held, full := [], [];
    }

    ghost predicate Valid()
      reads this
    {
      && pendingScoring == InputsOf(held) && pendingRejected == RejectedOf(held) && pendingLineCount == |held|
      && |pendingScoring| + |pendingRejected| == |held|
      && acked == Batches(pipeline, importId, full)
      && acked <= handed && AllPersisted(env, |full|)
    }

    // The pool answers in the order of its inputs, and each row is paired with the answer at its own place.
    method Score(inputs: seq<ScoringInput>) returns (rows: seq<Scored>)
      ensures rows == ScoreAll(pipeline, inputs)
      ensures |rows| == |inputs|
      ensures forall i :: 0 <= i < |inputs| ==>
                && rows[i].transaction == inputs[i].transaction && rows[i].fingerprint == inputs[i].fingerprint
                && rows[i].assessment == pipeline.assess(inputs[i].transaction, inputs[i].fingerprint)
    {
      var scored := seq(|inputs|, i requires 0 <= i < |inputs| =>
        pipeline.assess(inputs[i].transaction, inputs[i].fingerprint));
      rows := seq(|inputs|, i requires 0 <= i < |inputs| =>
        Scored(inputs[i].transaction, inputs[i].fingerprint, scored[i]));
    }

    method Flush() returns (failure: Option<Failure>)
      requires Valid() && handed == acked && flushes == |full|
      modifies this
      ensures Valid() && marks == old(marks)
      ensures failure.None? ==> flushes == |full|
      ensures failure.Some? ==> env.scoreError(flushes) == failure || env.persistError(flushes) == failure
      ensures old(held) == [] ==> failure.None? && held == old(held) && full == old(full) && handed == acked
      ensures old(held) != [] ==> held == []
      ensures old(held) != [] && failure.None? ==> full == old(full) + [old(held)] && handed == acked
      ensures failure.Some? ==> full == old(full)
      ensures old(held) != [] && failure.Some? ==>
                handed == acked || handed == acked + [ToBatch(pipeline, importId, old(held))]
    {
      failure := None;
      if |pendingScoring| == 0 && |pendingRejected| == 0 { return; }
      var scoringBatch, rejectedBatch, processedDelta := pendingScoring, pendingRejected, pendingLineCount;
      pendingScoring, pendingRejected, pendingLineCount := [], [], 0;
      ghost var chunk := held;
      held := [];
      flushes := flushes + 1;
      if |scoringBatch| > 0 {
        failure := env.scoreError(flushes);
        if failure.Some? { return; }
      }
      var rows := Score(scoringBatch);
      var batch := Batch(importId, rows, rejectedBatch, processedDelta);
      handed := handed + [batch];
      failure := env.persistError(flushes);
      if failure.None? {
        acked := acked + [batch];
        full := full + [chunk];
      }
    }

    method AddRecord(r: Record)
      requires Valid()
      modifies this
      ensures Valid() && held == old(held) + [r]
      ensures handed == old(handed) && acked == old(acked) && marks == old(marks)
      ensures full == old(full) && flushes == old(flushes)
    {
      pendingLineCount := pendingLineCount + 1;
      match r {
        case Bad(rejected) => pendingRejected := pendingRejected + [rejected];
        case Good(input) => pendingScoring := pendingScoring + [input];
      }
      held := held + [r];
      assert held[..|held| - 1] == old(held);
    }

    // Every record read so far is either in a full batch or held back.
    ghost predicate Progress(recs: seq<Record>)
      reads this
    {
      && Valid() && handed == acked && flushes == |full| && |held| < Size(batchSize)
      && Whole(Size(batchSize), full) && Flatten(full) + held == recs
    }

    // Stopped by a failure: at most the batch in flight was handed over without being acknowledged.
    ghost predicate Halted(recs: seq<Record>)
      reads this
    {
      && Valid() && |handed| <= |acked| + 1
      && Whole(Size(batchSize), full) && Flatten(full) <= recs
      && handed <= Batches(pipeline, importId, Chunk(Size(batchSize), recs))
    }

    lemma ProgressHalts(recs: seq<Record>)
      requires Progress(recs)
      ensures Halted(recs)
    {
      ChunkSplit(Size(batchSize), full, held);
    }

    // After a failure the acknowledged batches are whole, and the first ones of the full plan.
    lemma HaltedKeepsWholeBatches(lines: seq<string>, taken: nat)
      requires taken <= |lines| && Halted(Records(pipeline, lines[..taken]))
      ensures acked <= Batches(pipeline, importId, Plan(pipeline, batchSize, lines))
      ensures forall i :: 0 <= i < |acked| ==> acked[i].processedDelta == Size(batchSize)
    {
      RecordsPrefix(pipeline, lines, taken);
      var all := Records(pipeline, lines);
      assert all == Flatten(full) + all[|Flatten(full)|..];
      ChunkSplit(Size(batchSize), full, all[|Flatten(full)|..]);
    }

    method FlushAll(ghost recs: seq<Record>) returns (failure: Option<Failure>)
      requires Valid() && handed == acked && flushes == |full|
      requires Whole(Size(batchSize), full) && Flatten(full) + held == recs && |held| <= Size(batchSize)
      modifies this
      ensures marks == old(marks)
      ensures failure.Some? ==> Halted(recs)
      ensures failure.Some? ==> env.scoreError(flushes) == failure || env.persistError(flushes) == failure
      ensures failure.None? ==> Valid() && handed == acked && held == [] && flushes == |full|
      ensures failure.None? ==>
                full == Chunk(Size(batchSize), recs) == old(full) + (if old(held) == [] then [] else [old(held)])
    {
      ghost var before, chunk := full, held;
      ChunkSplit(Size(batchSize), before, chunk);
      HandedIsPlanned(pipeline, importId, before, chunk);
      failure := Flush();
    }

    method TakeLine(raw: string, n: nat, ghost lines: seq<string>) returns (failure: Option<Failure>, ghost count: nat)
      requires 1 <= n <= |lines| && raw == lines[n - 1] && Progress(Records(pipeline, lines[..n - 1]))
      modifies this
      ensures marks == old(marks) && count <= Size(batchSize)
      ensures failure.None? ==> Progress(Records(pipeline, lines[..n]))
      ensures failure.Some? ==> Halted(Records(pipeline, lines[..n]))
      ensures failure.Some? ==> env.scoreError(flushes) == failure || env.persistError(flushes) == failure
    {
      failure, count := None, 0;
      ghost var recs := Records(pipeline, lines[..n]);
      assert lines[..n][..n - 1] == lines[..n - 1];
      var record := Classify(pipeline, raw, n);
      if record.None? { return; }
      AddRecord(record.value);
      count := |held|;
      assert Flatten(full) + held == recs;
      if |pendingScoring| + |pendingRejected| >= batchSize {
        ghost var before, chunk := full, held;
        failure := FlushAll(recs);
        FlattenAppend(before, [chunk]);
        assert Flatten([chunk]) == chunk;
      }
    }

    method Heartbeat(n: nat, before: seq<nat>, last: int)
      returns (failure: Option<Failure>, renewals: seq<nat>, lastHeartbeat: int)
      requires n > 0 && (before, last) == Beats(env, n - 1)
      ensures renewals == Beats(env, n).0
      ensures failure.None? ==> lastHeartbeat == Beats(env, n).1
      ensures failure == if renewals == before then None else env.renewError(n)
    {
      failure, renewals, lastHeartbeat := None, before, last;
      if env.clock(n) - lastHeartbeat > HEARTBEAT_INTERVAL_MS {
        renewals := renewals + [n];
        failure := env.renewError(n);
        if failure.None? { lastHeartbeat := env.clockAfterRenewal(n); }
      }
    }

    // What happens to line n before it is looked at: the heartbeat, and on check lines the cancellation check.
    method BeforeLine(n: nat, before: seq<nat>, last: int)
      returns (failure: Option<Failure>, cancelled: bool, renewals: seq<nat>, lastHeartbeat: int)
      requires n > 0 && (before, last) == Beats(env, n - 1) && Passed(env, n - 1) && env.readError(n).None?
      ensures renewals == Beats(env, n).0
      ensures failure.None? ==> lastHeartbeat == Beats(env, n).1
      ensures cancelled ==> failure.None? && n % 500 == 0 && env.status(n) == CancelRequested
      ensures failure.None? && n % 500 == 0 && env.status(n) == CancelRequested ==> cancelled
      ensures failure.None? && !cancelled ==> Passed(env, n)
      ensures failure.Some? ==> env.renewError(n) == failure || env.status(n) == StatusError(failure.value)
    {
      cancelled := false;
      failure, renewals, lastHeartbeat := Heartbeat(n, before, last);
      if failure.None? && CheckLine(n) {
        match env.status(n) {
          case Active =>
          case StatusError(f) => failure := Some(f);
          case CancelRequested => cancelled := true;
        }
      }
    }

    // The reading loop: `taken` lines were classified out of `reached` fetched.
    method ReadAll(lines: seq<string>)
      returns (failure: Option<Failure>, wasCancelled: bool, taken: nat, reached: nat, renewals: seq<nat>,
               ghost peak: nat)
      requires Progress([])
      modifies this
      ensures taken <= reached <= |lines| && reached <= taken + 1 && peak <= Size(batchSize)
      ensures marks == old(marks) && renewals == Beats(env, reached).0
      ensures failure.Some? ==> Halted(Records(pipeline, lines[..taken]))
      ensures failure.None? ==> Progress(Records(pipeline, lines[..taken]))
      ensures failure.None? && !wasCancelled ==> taken == |lines|
      ensures failure.None? && wasCancelled ==>
                reached == taken + 1 && reached % 500 == 0 && env.status(reached) == CancelRequested
      ensures failure.None? ==> Passed(env, taken)
      ensures failure.Some? ==> Raised(env, failure.value, reached, flushes)
    {
      failure, wasCancelled, taken, reached, renewals, peak := None, false, 0, 0, [], 0;
      var lastHeartbeat := env.clock(0);
      ghost var recs := Records(pipeline, lines[..0]);
      while reached < |lines|
        invariant taken == reached <= |lines| && peak <= Size(batchSize)
        invariant marks == old(marks) && failure.None? && !wasCancelled
        invariant recs == Records(pipeline, lines[..taken])
        invariant Progress(recs)
        invariant (renewals, lastHeartbeat) == Beats(env, reached)
        invariant Passed(env, taken)
      {
        ProgressHalts(recs);
        failure := env.readError(reached + 1);
        if failure.Some? { return; }
        reached := reached + 1;

        failure, wasCancelled, renewals, lastHeartbeat := BeforeLine(reached, renewals, lastHeartbeat);
        if failure.Some? || wasCancelled { return; }

        taken := reached;
        ghost var count;
        failure, count := TakeLine(lines[reached - 1], reached, lines);
        recs := Records(pipeline, lines[..taken]);
        peak := Max(peak, count);
        if failure.Some? { return; }
      }
      ProgressHalts(recs);
      failure := env.readError(reached + 1);
    }

    // The reading loop and the flush of the trailing batch.
    method Process(lines: seq<string>)
      returns (failure: Option<Failure>, wasCancelled: bool, taken: nat, reached: nat, renewals: seq<nat>,
               ghost peak: nat)
      requires Progress([])
      modifies this
      ensures taken <= reached <= |lines| && reached <= taken + 1 && peak <= Size(batchSize)
      ensures marks == old(marks) && renewals == Beats(env, reached).0
      ensures acked <= handed <= Batches(pipeline, importId, Plan(pipeline, batchSize, lines[..taken]))
      ensures |handed| <= |acked| + 1
      ensures failure.Some? ==>
                && acked <= Batches(pipeline, importId, Plan(pipeline, batchSize, lines))
                && forall i :: 0 <= i < |acked| ==> acked[i].processedDelta == Size(batchSize)
      ensures failure.None? ==>
                handed == acked == Batches(pipeline, importId, Plan(pipeline, batchSize, lines[..taken]))
      ensures failure.None? && !wasCancelled ==> taken == |lines|
      ensures failure.None? && wasCancelled ==>
                reached == taken + 1 && reached % 500 == 0 && env.status(reached) == CancelRequested
      ensures failure.None? ==> Passed(env, taken) && AllPersisted(env, |acked|)
      ensures failure.Some? ==> Raised(env, failure.value, reached, flushes)
    {
      failure, wasCancelled, taken, reached, renewals, peak := ReadAll(lines);
      if failure.None? { failure := FlushAll(Records(pipeline, lines[..taken])); }
      if failure.Some? { HaltedKeepsWholeBatches(lines, taken); }
    }

    // The final mark, or the marks and the outcome of an error.
    method Conclude(failure: Option<Failure>, wasCancelled: bool, reached: nat) returns (outcome: Outcome)
      modifies this`marks
      ensures failure.Some? ==> outcome == Aborted(failure.value) && marks == old(marks) + FailureMarks(failure.value)
      ensures failure == Some(Shutdown) ==> marks == old(marks)
      ensures failure.Some? && failure.value.Other? ==> marks == old(marks) + [MarkFailed(failure.value.message)]
      ensures failure.None? ==>
                var ended := old(marks) + [if wasCancelled then MarkCancelled else MarkCompleted];
                && marks == ended + (if env.markError.Some? then FailureMarks(env.markError.value) else [])
                && outcome == (if env.markError.Some? then MarkRefused(env.markError.value)
                               else if wasCancelled then CancelledAt(reached) else Completed)
                && (env.markError == Some(Shutdown) ==> marks == ended)
                && (env.markError.Some? && env.markError.value.Other? ==>
                      marks == ended + [MarkFailed(env.markError.value.message)])
    {
      if failure.Some? {
        marks := marks + FailureMarks(failure.value);
        return Aborted(failure.value);
      }
      marks := marks + [if wasCancelled then MarkCancelled else MarkCompleted];
      if env.markError.Some? {
        marks := marks + FailureMarks(env.markError.value);
        return MarkRefused(env.markError.value);
      }
      outcome := if wasCancelled then CancelledAt(reached) else Completed;
    }

    // From the first line to the final mark.
    method ProcessAndMark(lines: seq<string>)
      returns (outcome: Outcome, taken: nat, reached: nat, renewals: seq<nat>, ghost peak: nat)
      requires Progress([])
      modifies this
      ensures taken <= reached <= |lines| && reached <= taken + 1
      ensures acked <= handed <= Batches(pipeline, importId, Plan(pipeline, batchSize, lines[..taken]))
      ensures |handed| <= |acked| + 1 && peak <= Size(batchSize) && renewals == Beats(env, reached).0
      ensures match outcome
        case FileMissing => false
        case NotStarted => false
        case Completed =>
          && marks == old(marks) + [MarkCompleted] && taken == |lines| && handed == acked
          && acked == Batches(pipeline, importId, Plan(pipeline, batchSize, lines[..taken]))
          && Passed(env, taken) && AllPersisted(env, |acked|) && env.markError.None?
        case CancelledAt(c) =>
          && marks == old(marks) + [MarkCancelled] && c == taken + 1 == reached && handed == acked
          && acked == Batches(pipeline, importId, Plan(pipeline, batchSize, lines[..taken]))
          && c % 500 == 0 && env.status(c) == CancelRequested
          && Passed(env, taken) && AllPersisted(env, |acked|)
        case Aborted(f) =>
          && marks == old(marks) + FailureMarks(f) && Raised(env, f, reached, flushes)
          && acked <= Batches(pipeline, importId, Plan(pipeline, batchSize, lines))
          && forall i :: 0 <= i < |acked| ==> acked[i].processedDelta == Size(batchSize)
        case MarkRefused(f) =>
          && env.markError == Some(f)
          && handed == acked == Batches(pipeline, importId, Plan(pipeline, batchSize, lines[..taken]))
          && ((marks == old(marks) + [MarkCompleted] + FailureMarks(f) && taken == |lines|)
              || marks == old(marks) + [MarkCancelled] + FailureMarks(f))
    {
      var failure, wasCancelled;
      failure, wasCancelled, taken, reached, renewals, peak := Process(lines);
      outcome := Conclude(failure, wasCancelled, reached);
    }

    // One claimed job from start to end. Every outcome other than completion has its cause in the environment.
    method Execute(chunks: seq<seq<Byte>>, lines: seq<string>)
      returns (outcome: Outcome, taken: nat, reached: nat, renewals: seq<nat>, ghost peak: nat)
      requires Valid() && handed == [] && marks == [] && held == [] && full == [] && flushes == 0
      modifies this
      ensures taken <= reached <= |lines| && reached <= taken + 1
      ensures acked <= handed <= Batches(pipeline, importId, Plan(pipeline, batchSize, lines[..taken]))
      ensures |handed| <= |acked| + 1 && peak <= Size(batchSize)
      ensures outcome.FileMissing? || outcome.NotStarted? || renewals == Beats(env, reached).0
      ensures var started := MarkProcessing(LineReader.TotalRecords(Flatten(chunks)));
        match outcome
        case FileMissing =>
          env.start == NoFile && marks == [MarkFailed("Import file record not found.")] && handed == []
        case NotStarted =>
          && handed == []
          && ((env.start == StartError && marks == []) || (env.start == MarkingError && marks == [started]))
        case Completed =>
          && marks == [started, MarkCompleted] && taken == |lines| && handed == acked
          && acked == Batches(pipeline, importId, Plan(pipeline, batchSize, lines))
          && Passed(env, |lines|) && AllPersisted(env, |acked|) && env.markError.None?
        case CancelledAt(c) =>
          && marks == [started, MarkCancelled] && c == taken + 1 == reached && handed == acked
          && acked == Batches(pipeline, importId, Plan(pipeline, batchSize, lines[..taken]))
          && c % 500 == 0 && env.status(c) == CancelRequested
          && Passed(env, taken) && AllPersisted(env, |acked|)
        case Aborted(f) =>
          && marks == [started] + FailureMarks(f) && Raised(env, f, reached, flushes)
          && acked <= Batches(pipeline, importId, Plan(pipeline, batchSize, lines))
          && forall i :: 0 <= i < |acked| ==> acked[i].processedDelta == Size(batchSize)
        case MarkRefused(f) =>
          && env.markError == Some(f)
          && handed == acked == Batches(pipeline, importId, Plan(pipeline, batchSize, lines[..taken]))
          && ((marks == [started, MarkCompleted] + FailureMarks(f) && taken == |lines|)
              || marks == [started, MarkCancelled] + FailureMarks(f))
    {
      taken, reached, renewals, peak := 0, 0, [], 0;
      if env.start == NoFile {
        marks := [MarkFailed("Import file record not found.")];
        return FileMissing, 0, 0, [], 0;
      }
      if env.start == StartError { return NotStarted, 0, 0, [], 0; }
      var total := LineReader.CountLines(chunks);
      marks := [MarkProcessing(total)];
      if env.start == MarkingError { return NotStarted, 0, 0, [], 0; }
      outcome, taken, reached, renewals, peak := ProcessAndMark(lines);
      assert lines[..|lines|] == lines;
    }
  }

  // ---- Chunks

  ghost predicate Whole(size: nat, chunks: seq<seq<Record>>) { forall i :: 0 <= i < |chunks| ==> |chunks[i]| == size }

  lemma ChunkFirst(size: nat, first: seq<Record>, rest: seq<Record>)
    requires size > 0 && |first| == size
    ensures Chunk(size, first + rest) == [first] + Chunk(size, rest)
  {
    var rs := first + rest;
    if rest == [] {
      assert rs == first;
    } else {
      assert rs[..size] == first && rs[size..] == rest;
    }
  }

  // A file that starts with whole chunks is cut there first.
  lemma {:induction false} ChunkSplit(size: nat, whole: seq<seq<Record>>, rest: seq<Record>)
    requires size > 0 && Whole(size, whole)
    ensures Chunk(size, Flatten(whole) + rest) == whole + Chunk(size, rest)
  {
    if whole == [] {
      assert Flatten(whole) + rest == rest;
    } else {
      var later := Flatten(whole[1..]);
      ChunkSplit(size, whole[1..], rest);
      ChunkFirst(size, whole[0], later + rest);
      Associates(whole[0], later, rest);
      Associates([whole[0]], whole[1..], Chunk(size, rest));
      assert [whole[0]] + whole[1..] == whole;
    }
  }

  // Cutting a file into batches loses nothing: all but the last hold the configured number of records (one, if the
  // configured number is not positive), and the last at most that.
  lemma PlanShape(p: Pipeline, batchSize: int, lines: seq<string>)
    ensures var plan, size := Plan(p, batchSize, lines), if batchSize < 1 then 1 else batchSize;
            && Flatten(plan) == Records(p, lines)
            && forall i :: 0 <= i < |plan| ==> 0 < |plan[i]| <= size && (i < |plan| - 1 ==> |plan[i]| == size)
  {
    ChunkShape(Size(batchSize), Records(p, lines));
  }

  lemma HandedIsPlanned(p: Pipeline, id: ImportId, whole: seq<seq<Record>>, chunk: seq<Record>)
    ensures Batches(p, id, whole + [chunk]) == Batches(p, id, whole) + [ToBatch(p, id, chunk)]
    ensures Batches(p, id, whole + []) == Batches(p, id, whole)
  {}

  lemma {:induction false} RecordsPrefix(p: Pipeline, lines: seq<string>, k: nat)
    requires k <= |lines|
    ensures Records(p, lines[..k]) <= Records(p, lines)
  {
    if k == |lines| {
      assert lines[..k] == lines;
    } else {
      RecordsPrefix(p, lines[..|lines| - 1], k);
      assert lines[..|lines| - 1][..k] == lines[..k];
    }
  }

  // All batches but the last hold exactly `size` records, the last at least one; nothing is lost,
  // and their number is the record count divided by `size`, rounded up.
  lemma {:induction false} ChunkShape(size: nat, rs: seq<Record>)
    requires size > 0
    ensures var chunks := Chunk(size, rs);
            && Flatten(chunks) == rs
            && |rs| <= |chunks| * size < |rs| + size
            && forall i :: 0 <= i < |chunks| ==>
                 0 < |chunks[i]| <= size && (i < |chunks| - 1 ==> |chunks[i]| == size)
    decreases |rs|
  {
    if |rs| > size {
      ChunkShape(size, rs[size..]);
      var rest := Chunk(size, rs[size..]);
      assert Chunk(size, rs) == [rs[..size]] + rest;
      assert (1 + |rest|) * size == size + |rest| * size;
    } else if rs != [] {
      assert Flatten([rs]) == rs;
    }
  }
}
