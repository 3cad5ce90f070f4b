/** What the records of a file are, told from its lines: one for every line that is not white space, in order. */
module Classification {
  import opened Prelude
  import opened Ndjson
  import opened Transactions
  import opened Persistence
  import opened Batching
  import Fingerprint

  // The numbers of the lines that hold more than white space.
  function NonBlank(lines: seq<string>): (ns: seq<nat>)
    ensures forall k :: 0 <= k < |ns| ==> 1 <= ns[k] <= |lines| && !AllSpace(lines[ns[k] - 1])
  {
    if lines == [] then [] else
      var n := |lines|;
      NonBlank(lines[..n - 1]) + if AllSpace(lines[n - 1]) then [] else [n]
  }

  // They are counted from 1 and come in order, each once.
  lemma {:induction false} NonBlankIff(lines: seq<string>, n: nat)
    ensures n in NonBlank(lines) <==> 1 <= n <= |lines| && !AllSpace(lines[n - 1])
    ensures forall j, k :: 0 <= j < k < |NonBlank(lines)| ==> NonBlank(lines)[j] < NonBlank(lines)[k]
  {
    if lines != [] { NonBlankIff(lines[..|lines| - 1], n); }
  }

  // The transaction a line stands for, if it is not blank and its trimmed text is short enough, parses, and is
  // accepted.
  predicate Accepts(p: Pipeline, raw: string, t: Transaction) {
    var text := Trim(raw);
    && !AllSpace(raw) && |Encode(text)| <= 65536
    && p.json(text).Parsed? && p.validate(p.json(text).data, p.fallbackProvider) == Accepted(t)
  }

  // Why a line is rejected, and the text of which the row keeps at most the first `cap` characters.
  datatype Reason = Reason(code: string, message: string, text: string, cap: nat)

  predicate Rejects(p: Pipeline, raw: string, reason: Reason) {
    var trimmed := Trim(raw);
    if AllSpace(raw) then false
    else if |Encode(trimmed)| > 65536 then reason == TooLong(trimmed)
    else match p.json(trimmed)
      case Malformed(message) => reason == Reason("INVALID_JSON", message, trimmed, 200)
      case Parsed(data) =>
        var verdict := p.validate(data, p.fallbackProvider);
        verdict.Invalid? && reason == Reason(verdict.errorCode, verdict.message, p.stringify(data), 2000)
  }

  predicate Keeps(r: Rejected, reason: Reason) {
    && r.errorCode == reason.code && r.message == reason.message
    && r.rawValue <= reason.text && |r.rawValue| == Min(|reason.text|, reason.cap)
  }

  // The record of line n: the accepted transaction with its fingerprint, or the rejection with the line's number.
  ghost predicate Describes(p: Pipeline, raw: string, n: nat, r: Record) {
    match r
    case Good(input) =>
      Accepts(p, raw, input.transaction)
      && input.fingerprint == "v1:" + p.sha256Hex(Fingerprint.Canonical(input.transaction))
    case Bad(rejected) =>
      rejected.lineNumber == n && exists reason :: Rejects(p, raw, reason) && Keeps(rejected, reason)
  }

  function TooLong(trimmed: string): Reason {
    Reason("LINE_TOO_LONG", "Line exceeds the 65536-byte limit.", trimmed, 200)
  }

  // A line that is not blank is accepted as one transaction or rejected for one reason, never both.
  lemma OneFate(p: Pipeline, raw: string)
    ensures AllSpace(raw) <==> (forall t :: !Accepts(p, raw, t)) && forall reason :: !Rejects(p, raw, reason)
    ensures forall t, reason :: Accepts(p, raw, t) ==> !Rejects(p, raw, reason)
    ensures forall t, u :: Accepts(p, raw, t) && Accepts(p, raw, u) ==> t == u
  {
    var trimmed := Trim(raw);
    if AllSpace(raw) {
    } else if |Encode(trimmed)| > 65536 {
      assert Rejects(p, raw, TooLong(trimmed));
    } else if p.json(trimmed).Malformed? {
      assert Rejects(p, raw, Reason("INVALID_JSON", p.json(trimmed).message, trimmed, 200));
    } else {
      var data := p.json(trimmed).data;
      var verdict := p.validate(data, p.fallbackProvider);
      if verdict.Accepted? {
        assert Accepts(p, raw, verdict.transaction);
      } else {
        assert Rejects(p, raw, Reason(verdict.errorCode, verdict.message, p.stringify(data), 2000));
      }
    }
  }

  lemma OneReason(p: Pipeline, raw: string)
    ensures forall a, b :: Rejects(p, raw, a) && Rejects(p, raw, b) ==> a == b
  {}

  lemma ClassifiesLine(p: Pipeline, raw: string, n: nat)
    ensures Classify(p, raw, n).None? <==> AllSpace(raw)
    ensures !AllSpace(raw) ==> Describes(p, raw, n, Classify(p, raw, n).value)
  {
    BlankIffAllSpace(p.json, raw, n);
    if !AllSpace(raw) {
      var trimmed := Trim(raw);
      var r := Classify(p, raw, n).value;
      if |Encode(trimmed)| > 65536 {
        assert Rejects(p, raw, TooLong(trimmed)) && Keeps(r.rejected, TooLong(trimmed));
      } else if p.json(trimmed).Malformed? {
        var reason := Reason("INVALID_JSON", p.json(trimmed).message, trimmed, 200);
        assert Rejects(p, raw, reason) && Keeps(r.rejected, reason);
      } else if r.Bad? {
        var reason := Reason(r.rejected.errorCode, r.rejected.message, p.stringify(p.json(trimmed).data), 2000);
        assert Rejects(p, raw, reason) && Keeps(r.rejected, reason);
      }
    }
  }

  ghost predicate DescribesAt(p: Pipeline, lines: seq<string>, n: nat, r: Record) {
    1 <= n <= |lines| && Describes(p, lines[n - 1], n, r)
  }

  ghost predicate AllDescribed(p: Pipeline, lines: seq<string>, ns: seq<nat>, rs: seq<Record>) {
    |ns| == |rs| && forall k :: 0 <= k < |ns| ==> DescribesAt(p, lines, ns[k], rs[k])
  }

  lemma DescribesFurther(p: Pipeline, lines: seq<string>, last: string, n: nat, r: Record)
    requires DescribesAt(p, lines, n, r)
    ensures DescribesAt(p, lines + [last], n, r)
  {
    assert (lines + [last])[n - 1] == lines[n - 1];
  }

  lemma DescribeOneMore(p: Pipeline, lines: seq<string>, last: string, ns: seq<nat>, rs: seq<Record>, r: Option<Record>)
    requires AllDescribed(p, lines, ns, rs)
    requires r.Some? ==> DescribesAt(p, lines + [last], |lines| + 1, r.value)
    ensures AllDescribed(p, lines + [last], ns, rs)
    ensures r.Some? ==> AllDescribed(p, lines + [last], ns + [|lines| + 1], rs + [r.value])
  {
    forall k | 0 <= k < |ns| ensures DescribesAt(p, lines + [last], ns[k], rs[k]) {
      DescribesFurther(p, lines, last, ns[k], rs[k]);
    }
  }

  // The records of a file are those of its non-blank lines, one each, in order.
  lemma {:induction false} RecordsOfLines(p: Pipeline, lines: seq<string>)
    ensures AllDescribed(p, lines, NonBlank(lines), Records(p, lines))
  {
    if lines != [] {
      var front, last := lines[..|lines| - 1], lines[|lines| - 1];
      RecordsOfLines(p, front);
      ClassifiesLine(p, last, |lines|);
      assert lines == front + [last];
      DescribeOneMore(p, front, last, NonBlank(front), Records(p, front), Classify(p, last, |lines|));
    }
  }

  // Every non-blank line has its record.
  lemma RecordOfLine(p: Pipeline, lines: seq<string>, n: nat) returns (r: Record)
    requires 1 <= n <= |lines| && !AllSpace(lines[n - 1])
    ensures r in Records(p, lines) && DescribesAt(p, lines, n, r)
  {
    RecordsOfLines(p, lines);
    NonBlankIff(lines, n);
    var k := IndexOf(NonBlank(lines), n);
    assert DescribesAt(p, lines, NonBlank(lines)[k], Records(p, lines)[k]);
    r := Records(p, lines)[k];
  }

  lemma IndexOf(ns: seq<nat>, n: nat) returns (k: nat)
    requires n in ns
    ensures k < |ns| && ns[k] == n
  {
    k :| 0 <= k < |ns| && ns[k] == n;
  }

  // A rejected record stems from a line of the file that is rejected for it.
  lemma LineOfRecord(p: Pipeline, lines: seq<string>, r: Record) returns (n: nat)
    requires r in Records(p, lines)
    ensures DescribesAt(p, lines, n, r)
  {
    RecordsOfLines(p, lines);
    var rs := Records(p, lines);
    var k :| 0 <= k < |rs| && rs[k] == r;
    n := NonBlank(lines)[k];
    assert DescribesAt(p, lines, NonBlank(lines)[k], rs[k]);
  }

  // ---- The rows to insert: one for every accepted line, in order

  ghost predicate IsAccepted(p: Pipeline, raw: string) { exists t :: Accepts(p, raw, t) }

  ghost function AcceptedLines(p: Pipeline, lines: seq<string>): (ns: seq<nat>)
    ensures forall k :: 0 <= k < |ns| ==> 1 <= ns[k] <= |lines|
    ensures forall j, k :: 0 <= j < k < |ns| ==> ns[j] < ns[k]
  {
    if lines == [] then [] else
      AcceptedLines(p, lines[..|lines| - 1]) + if IsAccepted(p, lines[|lines| - 1]) then [|lines|] else []
  }

  lemma {:induction false} AcceptedLinesIff(p: Pipeline, lines: seq<string>, n: nat)
    ensures n in AcceptedLines(p, lines) <==> 1 <= n <= |lines| && IsAccepted(p, lines[n - 1])
  {
    if lines != [] { AcceptedLinesIff(p, lines[..|lines| - 1], n); }
  }

  // The row for a transaction: its fingerprint, and the assessment of exactly these two.
  function RowFor(p: Pipeline, t: Transaction): Scored {
    var fingerprint := "v1:" + p.sha256Hex(Fingerprint.Canonical(t));
    Scored(t, fingerprint, p.assess(t, fingerprint))
  }

  predicate RowAt(p: Pipeline, lines: seq<string>, n: nat, row: Scored) {
    1 <= n <= |lines| && Accepts(p, lines[n - 1], row.transaction) && row == RowFor(p, row.transaction)
  }

  ghost predicate AllRows(p: Pipeline, lines: seq<string>, ns: seq<nat>, rows: seq<Scored>) {
    |ns| == |rows| && forall k :: 0 <= k < |ns| ==> RowAt(p, lines, ns[k], rows[k])
  }

  lemma OneMoreLine(p: Pipeline, lines: seq<string>, last: string, ns: seq<nat>, rows: seq<Scored>,
                    t: Option<Transaction>)
    requires AllRows(p, lines, ns, rows) && (t.Some? ==> Accepts(p, last, t.value))
    ensures AllRows(p, lines + [last], ns, rows)
    ensures t.Some? ==> AllRows(p, lines + [last], ns + [|lines| + 1], rows + [RowFor(p, t.value)])
  {
    forall k | 0 <= k < |ns| ensures RowAt(p, lines + [last], ns[k], rows[k]) {
      assert (lines + [last])[ns[k] - 1] == lines[ns[k] - 1];
    }
    assert (lines + [last])[|lines|] == last;
  }

  lemma AddsRow(p: Pipeline, front: seq<Record>, r: Record)
    ensures RowsOf(p, front + [r])
         == RowsOf(p, front) + match r
                               case Bad(_) => []
                               case Good(input) =>
                                 var assessment := p.assess(input.transaction, input.fingerprint);
                                 [Scored(input.transaction, input.fingerprint, assessment)]
  {
    assert (front + [r])[..|front|] == front;
  }

  lemma {:induction false} RowsOfLines(p: Pipeline, lines: seq<string>)
    ensures AllRows(p, lines, AcceptedLines(p, lines), RowsOf(p, Records(p, lines)))
  {
    if lines != [] {
      var front, last := lines[..|lines| - 1], lines[|lines| - 1];
      RowsOfLines(p, front);
      assert lines == front + [last];
      var t := LastRow(p, front, last);
      OneMoreLine(p, front, last, AcceptedLines(p, front), RowsOf(p, Records(p, front)), t);
    }
  }

  // The last line adds the row of its transaction, or none.
  lemma LastRow(p: Pipeline, front: seq<string>, last: string) returns (t: Option<Transaction>)
    ensures t.Some? <==> IsAccepted(p, last)
    ensures t.Some? ==> Accepts(p, last, t.value)
    ensures RowsOf(p, Records(p, front + [last]))
         == RowsOf(p, Records(p, front)) + if t.Some? then [RowFor(p, t.value)] else []
  {
    var lines := front + [last];
    assert lines[..|lines| - 1] == front;
    ClassifiesLine(p, last, |lines|);
    OneFate(p, last);
    var r := Classify(p, last, |lines|);
    t := if r.Some? && r.value.Good? then Some(r.value.input.transaction) else None;
    if r.Some? { AddsRow(p, Records(p, front), r.value); }
  }

  predicate LineHas(p: Pipeline, lines: seq<string>, n: nat, t: Transaction, k: Key) {
    1 <= n <= |lines| && Accepts(p, lines[n - 1], t) && k == Key(t.provider, t.transactionId)
  }

  // The first row with a key is that of the first accepted line with it.
  lemma FirstRowIsFirstLine(p: Pipeline, lines: seq<string>, k: Key)
    ensures var rows := RowsOf(p, Records(p, lines));
            var i := FirstIndex(rows, k);
            && (i < |rows| <==> exists n, t :: LineHas(p, lines, n, t, k))
            && forall n, t :: LineHas(p, lines, n, t, k) && (forall m, u :: m < n ==> !LineHas(p, lines, m, u, k)) ==>
                 i < |rows| && rows[i] == RowFor(p, t)
  {
    RowsOfLines(p, lines);
    var rows, ns := RowsOf(p, Records(p, lines)), AcceptedLines(p, lines);
    var i := FirstIndex(rows, k);
    if i < |rows| {
      assert RowAt(p, lines, ns[i], rows[i]);
      assert LineHas(p, lines, ns[i], rows[i].transaction, k);
    }
    forall n, t | LineHas(p, lines, n, t, k)
      ensures i < |rows| && ns[i] <= n && (ns[i] == n ==> rows[i] == RowFor(p, t))
    {
      HasRow(p, lines, n, t, k);
    }
  }

  lemma HasRow(p: Pipeline, lines: seq<string>, n: nat, t: Transaction, k: Key)
    requires LineHas(p, lines, n, t, k)
    ensures var rows, ns := RowsOf(p, Records(p, lines)), AcceptedLines(p, lines);
            var i := FirstIndex(rows, k);
            |ns| == |rows| && i < |rows| && ns[i] <= n && (ns[i] == n ==> rows[i] == RowFor(p, t))
  {
    RowsOfLines(p, lines);
    var rows, ns := RowsOf(p, Records(p, lines)), AcceptedLines(p, lines);
    assert IsAccepted(p, lines[n - 1]);
    AcceptedLinesIff(p, lines, n);
    var j := IndexOf(ns, n);
    assert RowAt(p, lines, ns[j], rows[j]);
    OneFate(p, lines[n - 1]);
    assert KeyOf(rows[j]) == k;
  }
}
