/** Bounded retry with exponential back-off, and the bounded search of an error's cause chain. */
module Retry {
  import opened Prelude

  // Thrown values form a graph that may be cyclic; NoObject is anything falsy or not an object.
  datatype Ref = NoObject | Object(id: nat)
  datatype Node = Node(code: Option<string>, originalCode: Option<string>, cause: Ref)
  type Graph = nat -> Node

  datatype Category = RequestValidation | RecordValidation | BusinessRule | Infrastructure | Cancellation
  datatype Thrown = Domain(category: Category, retryable: bool, cause: Ref) | Plain(value: Ref)

  const RETRYABLE_CODES: set<string> := {
    "08000", "08003", "08006", "08001", "08004", "40001", "40P01", "53300", "57P01", "57P02", "57P03", "55P03",
    "ECONNRESET", "ECONNREFUSED", "ETIMEDOUT", "EPIPE", "EHOSTUNREACH", "ENETUNREACH"}

  const MAX_DEPTH := 5

  predicate Listed(code: Option<string>) { code.Some? && code.value in RETRYABLE_CODES }

  // Connection, serialization, resource and shutdown errors of the database, and network errors of the runtime.
  lemma ListedIff(code: string)
    ensures Listed(Some(code)) <==>
            || code == "08000" || code == "08003" || code == "08006" || code == "08001" || code == "08004"
            || code == "40001" || code == "40P01" || code == "53300"
            || code == "57P01" || code == "57P02" || code == "57P03" || code == "55P03"
            || code == "ECONNRESET" || code == "ECONNREFUSED" || code == "ETIMEDOUT" || code == "EPIPE"
            || code == "EHOSTUNREACH" || code == "ENETUNREACH"
    ensures !Listed(None)
  {}

  predicate HasRetryableCause(g: Graph, error: Ref, depth: nat)
    decreases MAX_DEPTH + 1 - depth
  {
    if error.NoObject? || depth > MAX_DEPTH then false
    else if Listed(g(error.id).code) || Listed(g(error.id).originalCode) then true
    else HasRetryableCause(g, g(error.id).cause, depth + 1)
  }

  // The k-th object of a cause chain, the error itself being the 0-th.
  function ChainAt(g: Graph, error: Ref, k: nat): Ref
    decreases k
  {
    if k == 0 || error.NoObject? then error else ChainAt(g, g(error.id).cause, k - 1)
  }

  predicate CodeAt(g: Graph, error: Ref, k: nat) {
    var e := ChainAt(g, error, k);
    e.Object? && (Listed(g(e.id).code) || Listed(g(e.id).originalCode))
  }

  // The search is exact on the first six objects of the chain, cyclic or not.
  lemma {:induction false} SearchIsExact(g: Graph, error: Ref, depth: nat)
    requires depth <= MAX_DEPTH + 1
    ensures HasRetryableCause(g, error, depth) <==> exists k: nat :: k <= MAX_DEPTH - depth && CodeAt(g, error, k)
    decreases MAX_DEPTH + 1 - depth
  {
    if error.Object? && depth <= MAX_DEPTH {
      var cause := g(error.id).cause;
      SearchIsExact(g, cause, depth + 1);
      assert forall k: nat :: k > 0 ==> (CodeAt(g, error, k) <==> CodeAt(g, cause, k - 1));
      if CodeAt(g, error, 0) {
        assert HasRetryableCause(g, error, depth);
      } else if HasRetryableCause(g, error, depth) {
        var k: nat :| k <= MAX_DEPTH - (depth + 1) && CodeAt(g, cause, k);
        assert CodeAt(g, error, k + 1);
      } else {
        assert forall k: nat :: k <= MAX_DEPTH - (depth + 1) ==> !CodeAt(g, cause, k);
      }
    }
  }

  predicate IsRetryable(g: Graph, error: Thrown) {
    match error
    case Domain(category, retryable, cause) =>
      if category == Cancellation then false else if retryable then true else HasRetryableCause(g, cause, 0)
    case Plain(value) => HasRetryableCause(g, value, 0)
  }

  function WrapDatabaseError(cause: Ref): Thrown { Domain(Infrastructure, true, cause) }

  lemma RetryableIff(g: Graph, error: Thrown)
    ensures error.Plain? ==> (IsRetryable(g, error) <==> exists k: nat :: k < 6 && CodeAt(g, error.value, k))
    ensures error.Domain? ==>
              (IsRetryable(g, error) <==>
                && error.category != Cancellation
                && (error.retryable || exists k: nat :: k < 6 && CodeAt(g, error.cause, k)))
    // Every wrapped database error is retried, whatever its code: also a constraint violation.
    ensures forall cause :: IsRetryable(g, WrapDatabaseError(cause))
  {
    SearchIsExact(g, if error.Plain? then error.value else error.cause, 0);
  }

  // ---- The loop

  datatype Config = Config(maxAttempts: int, baseDelayMs: nat, maxDelayMs: nat)
  datatype Attempt = Succeeds | Throws(error: Thrown)
  datatype Outcome = Returned | Rethrown(error: Thrown) | NothingThrown
  datatype Notice = Notice(attempt: nat, delayMs: int)

  function Pow2(n: nat): (p: nat)
    ensures p >= 1
  {
    if n == 0 then 1 else 2 * Pow2(n - 1)
  }

  function Ceiling(c: Config, attempt: nat): nat
    requires attempt >= 1
  {
    Min(c.baseDelayMs * Pow2(attempt - 1), c.maxDelayMs)
  }

  // The ceiling starts at the base and doubles with every attempt until it reaches the cap.
  lemma CeilingDoubles(c: Config, attempt: nat)
    requires attempt >= 1
    ensures Ceiling(c, 1) == Min(c.baseDelayMs, c.maxDelayMs)
    ensures Ceiling(c, attempt + 1) == Min(2 * Ceiling(c, attempt), c.maxDelayMs)
  {
    assert Pow2(0) == 1 && Pow2(attempt) == 2 * Pow2(attempt - 1);
    Doubles(c.baseDelayMs, Pow2(attempt - 1));
  }

  // The ceilings of the first n retries.
  function CeilingSum(c: Config, n: nat): nat { if n == 0 then 0 else CeilingSum(c, n - 1) + Ceiling(c, n) }

  function TotalDelay(notices: seq<Notice>): int {
    if notices == [] then 0 else TotalDelay(notices[..|notices| - 1]) + notices[|notices| - 1].delayMs
  }

  lemma Product(a: real, b: real)
    requires a >= 0.0 && b >= 0.0
    ensures a * b >= 0.0 && (a > 0.0 && b > 0.0 ==> a * b > 0.0)
  {}

  lemma JitterBounded(random: real, ceiling: nat)
    requires 0.0 <= random < 1.0
    ensures 0 <= (random * ceiling as real).Floor <= ceiling
    ensures ceiling > 0 ==> (random * ceiling as real).Floor < ceiling
  {
    var c := ceiling as real;
    var x := random * c;
    var rest := 1.0 - random;
    Product(random, c);
    Product(rest, c);
    assert x + rest * c == c;
    if ceiling > 0 {
      assert x.Floor as real <= x;
    }
  }

  function ComputeDelay(c: Config, attempt: nat, random: real): (delayMs: nat)
    requires attempt >= 1 && 0.0 <= random < 1.0
    ensures delayMs <= Ceiling(c, attempt) && (Ceiling(c, attempt) > 0 ==> delayMs < Ceiling(c, attempt))
    ensures delayMs as real <= random * Ceiling(c, attempt) as real < delayMs as real + 1.0
  {
    JitterBounded(random, Ceiling(c, attempt));
    (random * Ceiling(c, attempt) as real).Floor
  }

  // Notices count up from 1 and announce delays of at most the ceiling of their attempt.
  predicate NoticesOk(c: Config, notices: seq<Notice>) {
    forall i :: 0 <= i < |notices| ==> notices[i].attempt == i + 1 && 0 <= notices[i].delayMs <= Ceiling(c, i + 1)
  }

  // The notices of the first retries, with the delays drawn for them.
  ghost predicate Drawn(c: Config, random: nat -> real, notices: seq<Notice>)
    requires forall n :: 0.0 <= random(n) < 1.0
  {
    forall i :: 0 <= i < |notices| ==> notices[i] == Notice(i + 1, ComputeDelay(c, i + 1, random(i + 1)))
  }

  lemma DrawnDelays(c: Config, random: nat -> real, notices: seq<Notice>)
    requires forall n :: 0.0 <= random(n) < 1.0
    requires Drawn(c, random, notices)
    ensures NoticesOk(c, notices) && 0 <= TotalDelay(notices) <= CeilingSum(c, |notices|)
  {
    DelayBounded(c, notices);
  }

  lemma {:induction false} DelayBounded(c: Config, notices: seq<Notice>)
    requires NoticesOk(c, notices)
    ensures 0 <= TotalDelay(notices) <= CeilingSum(c, |notices|)
  {
    if notices != [] { DelayBounded(c, notices[..|notices| - 1]); }
  }

  predicate Retried(g: Graph, outcome: nat -> Attempt, n: nat) {
    outcome(n).Throws? && IsRetryable(g, outcome(n).error)
  }

  // `outcome(n)` is what the n-th call of the operation does; `random(n)` the number drawn after it.
  method Execute(c: Config, g: Graph, outcome: nat -> Attempt, random: nat -> real)
    returns (result: Outcome, calls: nat, notices: seq<Notice>)
    requires forall n :: 0.0 <= random(n) < 1.0
    ensures calls <= Max(0, c.maxAttempts) && (calls == 0 <==> c.maxAttempts < 1)
    ensures |notices| == Max(0, calls - 1) && Drawn(c, random, notices)
    ensures 0 <= TotalDelay(notices) <= CeilingSum(c, |notices|)
    ensures forall n :: 1 <= n < calls ==> Retried(g, outcome, n)
    ensures match result
      case Returned => calls >= 1 && outcome(calls) == Succeeds
      case Rethrown(e) => calls >= 1 && outcome(calls) == Throws(e) && (!IsRetryable(g, e) || calls == c.maxAttempts)
      case NothingThrown => calls == 0
  {
    calls, notices := 0, [];
    var attempt := 1;
    while attempt <= c.maxAttempts
      invariant 1 <= attempt && calls == attempt - 1 == |notices| && (calls > 0 ==> calls < c.maxAttempts)
      invariant Drawn(c, random, notices)
      invariant forall n :: 1 <= n <= calls ==> Retried(g, outcome, n)
    {
      calls := attempt;
      DrawnDelays(c, random, notices);
      match outcome(attempt) {
        case Succeeds => return Returned, calls, notices;
        case Throws(error) =>
          if !IsRetryable(g, error) { return Rethrown(error), calls, notices; }
          if attempt == c.maxAttempts { return Rethrown(error), calls, notices; }
          notices := notices + [Notice(attempt, ComputeDelay(c, attempt, random(attempt)))];
      }
      attempt := attempt + 1;
    }
    DrawnDelays(c, random, notices);
    result := NothingThrown;
  }

  lemma Doubles(b: nat, p: nat)
    ensures b * (2 * p) == b * p + b * p
  {}

  // One more retry adds at most the cap, and at most what all before it have added and the base once more.
  lemma CeilingAdds(c: Config, n: nat)
    requires n > 0
    ensures Ceiling(c, n) <= c.maxDelayMs && n * c.maxDelayMs == (n - 1) * c.maxDelayMs + c.maxDelayMs
    ensures c.baseDelayMs * Pow2(n) >= c.baseDelayMs * Pow2(n - 1) + Ceiling(c, n)
  {
    Doubles(c.baseDelayMs, Pow2(n - 1));
  }

  // The delays cannot exceed the cap for every retry, however fast the exponent grows.
  lemma {:induction false} CeilingSumCapped(c: Config, n: nat)
    ensures CeilingSum(c, n) <= n * c.maxDelayMs
    ensures CeilingSum(c, n) + c.baseDelayMs <= c.baseDelayMs * Pow2(n)
  {
    if n > 0 {
      CeilingSumCapped(c, n - 1);
      CeilingAdds(c, n);
    }
  }
}
