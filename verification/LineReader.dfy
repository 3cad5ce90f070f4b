/** The line reader: the byte scan that fixes totalRecords, and the lines the pipeline later reads. */
module LineReader {
  import opened Prelude
  import opened Ndjson

  const LF: Byte := 0x0a

  predicate IsContent(b: Byte) { b != 0x0d && b != 0x20 && b != 0x09 }

  predicate HasContent(segment: seq<Byte>) { exists i :: 0 <= i < |segment| && IsContent(segment[i]) }

  // The LF-separated segments of a file, the last one running to the end of the file.
  function Segments(bytes: seq<Byte>, current: seq<Byte>): seq<seq<Byte>> {
    if bytes == [] then [current]
    else if bytes[0] == LF then [current] + Segments(bytes[1..], [])
    else Segments(bytes[1..], current + [bytes[0]])
  }

  function CountContent(segments: seq<seq<Byte>>): nat {
    if segments == [] then 0
    else (if HasContent(segments[0]) then 1 else 0) + CountContent(segments[1..])
  }

  // What totalRecords is set to.
  function TotalRecords(bytes: seq<Byte>): nat { CountContent(Segments(bytes, [])) }

  lemma OneSegment(bytes: seq<Byte>, current: seq<Byte>)
    requires bytes != []
    ensures bytes[0] == LF ==>
              CountContent(Segments(bytes, current))
              == (if HasContent(current) then 1 else 0) + CountContent(Segments(bytes[1..], []))
    ensures HasContent(current + [bytes[0]]) <==> HasContent(current) || IsContent(bytes[0])
  {
    if bytes[0] == LF {
      assert ([current] + Segments(bytes[1..], []))[1..] == Segments(bytes[1..], []);
    }
    var longer := current + [bytes[0]];
    if IsContent(bytes[0]) {
      assert IsContent(longer[|current|]);
    }
    if HasContent(current) {
      var i :| 0 <= i < |current| && IsContent(current[i]);
      assert IsContent(longer[i]);
    }
  }

  // The result depends only on the concatenation of the chunks, not on how the stream cut the file.
  method CountLines(chunks: seq<seq<Byte>>) returns (count: nat)
    ensures count == TotalRecords(Flatten(chunks))
  {
    count := 0;
    var currentLineHasContent := false;
    ghost var current: seq<Byte> := [];
    for c := 0 to |chunks|
      invariant currentLineHasContent == HasContent(current)
      invariant count + CountContent(Segments(Flatten(chunks[c..]), current))
             == CountContent(Segments(Flatten(chunks), []))
    {
      var chunk := chunks[c];
      ghost var later := Flatten(chunks[c + 1..]);
      assert chunks[c..][1..] == chunks[c + 1..];
      assert chunk[0..] == chunk;
      for i := 0 to |chunk|
        invariant currentLineHasContent == HasContent(current)
        invariant count + CountContent(Segments(chunk[i..] + later, current))
               == CountContent(Segments(Flatten(chunks), []))
      {
        ghost var rest := chunk[i..] + later;
        assert rest[1..] == chunk[i + 1..] + later;
        OneSegment(rest, current);
        var byte := chunk[i];
        if byte == LF {
          if currentLineHasContent { count := count + 1; }
          currentLineHasContent := false;
          current := [];
        } else {
          if byte != 0x0d && byte != 0x20 && byte != 0x09 { currentLineHasContent := true; }
          current := current + [byte];
        }
      }
      assert chunk[|chunk|..] + later == later;
    }
    assert CountContent(Segments([], current)) == if HasContent(current) then 1 else 0;
    if currentLineHasContent { count := count + 1; }
  }

  // ---- The lines the pipeline reads: LF, CRLF, a lone CR and the two Unicode separators end a line.

  predicate IsTerminator(c: char) {
    c == '\n' || c == '\r' || c as int == 0x2028 || c as int == 0x2029
  }

  function LinesFrom(text: string, current: string): seq<string> {
    if text == [] then (if current == [] then [] else [current])
    else if text[0] == '\r' && |text| > 1 && text[1] == '\n' then [current] + LinesFrom(text[2..], [])
    else if IsTerminator(text[0]) then [current] + LinesFrom(text[1..], [])
    else LinesFrom(text[1..], current + [text[0]])
  }

  function ReadLines(text: string): seq<string> { LinesFrom(text, []) }

  // Lines, each followed by its ending.
  function Glued(lines: seq<string>, ends: seq<string>): string
    requires |ends| == |lines|
  {
    if lines == [] then [] else lines[0] + (ends[0] + Glued(lines[1..], ends[1..]))
  }

  predicate LineEnd(end: string) {
    end == "\n" || end == "\r\n" || end == "\r" || (|end| == 1 && (end[0] as int == 0x2028 || end[0] as int == 0x2029))
  }

  // Only the last line may lack an ending, and then it is not empty; a CR directly before an LF is one ending with it.
  ghost predicate Ends(lines: seq<string>, ends: seq<string>) {
    && |ends| == |lines|
    && (forall i :: 0 <= i < |ends| ==> LineEnd(ends[i]) || (i == |ends| - 1 && ends[i] == "" && lines[i] != ""))
    && (forall i :: 0 <= i < |ends| - 1 && ends[i] == "\r" ==> !(lines[i + 1] == "" && ends[i + 1] == "\n"))
  }

  lemma EndsCons(line: string, end: string, lines: seq<string>, ends: seq<string>)
    requires Ends(lines, ends) && LineEnd(end)
    requires end == "\r" && lines != [] ==> !(lines[0] == "" && ends[0] == "\n")
    ensures Ends([line] + lines, [end] + ends)
    ensures Glued([line] + lines, [end] + ends) == line + (end + Glued(lines, ends))
  {
    assert ([line] + lines)[1..] == lines && ([end] + ends)[1..] == ends;
  }

  lemma GluedHead(lines: seq<string>, ends: seq<string>)
    requires |ends| == |lines|
    ensures lines != [] && lines[0] == "" && ends[0] == "\n" ==>
              Glued(lines, ends) != "" && Glued(lines, ends)[0] == '\n'
  {}

  lemma {:induction false} LinesGlue(text: string, current: string) returns (ends: seq<string>)
    requires NoTerminator(current)
    ensures var lines := LinesFrom(text, current);
            && Ends(lines, ends) && Glued(lines, ends) == current + text
            && forall i :: 0 <= i < |lines| ==> NoTerminator(lines[i])
    decreases |text|
  {
    if text == [] {
      ends := if current == [] then [] else [""];
      assert current == [] || Glued([current], [""]) == current + ("" + Glued([], []));
    } else if text[0] == '\r' && |text| > 1 && text[1] == '\n' {
      ends := LinesGlue(text[2..], []);
      EndsCons(current, "\r\n", LinesFrom(text[2..], []), ends);
      ends := ["\r\n"] + ends;
      assert text == "\r\n" + text[2..];
    } else if IsTerminator(text[0]) {
      var lines := LinesFrom(text[1..], []);
      ends := LinesGlue(text[1..], []);
      GluedHead(lines, ends);
      assert Glued(lines, ends) == text[1..];
      EndsCons(current, [text[0]], lines, ends);
      ends := [[text[0]]] + ends;
      assert text == [text[0]] + text[1..];
    } else {
      ends := LinesGlue(text[1..], current + [text[0]]);
      assert current + [text[0]] + text[1..] == current + text;
    }
  }

  // The lines and their endings are the file again, and no line contains an ending.
  lemma ReadLinesGlue(text: string) returns (ends: seq<string>)
    ensures Ends(ReadLines(text), ends) && Glued(ReadLines(text), ends) == text
    ensures forall line, c :: line in ReadLines(text) && c in line ==>
              c != '\n' && c != '\r' && c as int != 0x2028 && c as int != 0x2029
  {
    ends := LinesGlue(text, []);
    assert [] + text == text;
  }

  // The lines parseNdjsonLine does not call blank.
  function CountRecords(json: string -> JsonReply, lines: seq<string>): nat {
    if lines == [] then 0
    else (if ParseLine(json, lines[0], 1) != Blank then 1 else 0) + CountRecords(json, lines[1..])
  }

  predicate PlainSpace(c: char) { c == ' ' || c == '\t' || c == '\r' }

  // White space to JavaScript, content to the byte scan.
  predicate ExoticBlank(line: string) {
    AllSpace(line) && exists i :: 0 <= i < |line| && !PlainSpace(line[i])
  }

  function CountExotic(lines: seq<string>): nat {
    if lines == [] then 0
    else (if ExoticBlank(lines[0]) then 1 else 0) + CountExotic(lines[1..])
  }

  predicate LfTerminated(text: string) {
    forall i :: 0 <= i < |text| && IsTerminator(text[i]) && text[i] != '\n' ==>
      text[i] == '\r' && i + 1 < |text| && text[i + 1] == '\n'
  }

  predicate NoTerminator(line: string) { forall i :: 0 <= i < |line| ==> !IsTerminator(line[i]) }

  lemma {:induction false} EncodeAppend(a: string, b: string)
    ensures Encode(a + b) == Encode(a) + Encode(b)
  {
    if a == [] {
      assert a + b == b;
    } else {
      EncodeAppend(a[1..], b);
      assert (a + b)[0] == a[0] && (a + b)[1..] == a[1..] + b;
      Associates(Utf8(a[0]), Encode(a[1..]), Encode(b));
    }
  }

  lemma {:induction false} SegmentsSkip(head: seq<Byte>, rest: seq<Byte>, current: seq<Byte>)
    requires LF !in head
    ensures Segments(head + rest, current) == Segments(rest, current + head)
  {
    if head == [] {
      assert head + rest == rest && current + head == current;
    } else {
      SegmentsSkip(head[1..], rest, current + [head[0]]);
      assert (head + rest)[1..] == head[1..] + rest;
      assert current + [head[0]] + head[1..] == current + head;
    }
  }

  lemma ContentAppend(a: seq<Byte>, b: seq<Byte>)
    ensures HasContent(a + b) <==> HasContent(a) || HasContent(b)
  {
    assert forall i :: 0 <= i < |a| ==> (a + b)[i] == a[i];
    assert forall i :: 0 <= i < |b| ==> (a + b)[|a| + i] == b[i];
    if HasContent(b) {
      var i :| 0 <= i < |b| && IsContent(b[i]);
      assert IsContent((a + b)[|a| + i]);
    }
    if HasContent(a) {
      var i :| 0 <= i < |a| && IsContent(a[i]);
      assert IsContent((a + b)[i]);
    }
  }

  lemma {:induction false} ContentOfLine(line: string)
    ensures HasContent(Encode(line)) <==> exists i :: 0 <= i < |line| && !PlainSpace(line[i])
  {
    if line != [] {
      ContentOfLine(line[1..]);
      ContentAppend(Utf8(line[0]), Encode(line[1..]));
      assert forall i :: 0 < i < |line| ==> line[i] == line[1..][i - 1];
      var u := Utf8(line[0]);
      assert !PlainSpace(line[0]) ==> IsContent(u[0]);
    }
  }

  // One line adds to the byte count what it adds to the record count and to the exotic count.
  lemma OneLine(json: string -> JsonReply, line: string)
    requires NoTerminator(line)
    ensures (if HasContent(Encode(line)) then 1 else 0)
         == (if ParseLine(json, line, 1) != Blank then 1 else 0) + (if ExoticBlank(line) then 1 else 0)
  {
    ContentOfLine(line);
    BlankIffAllSpace(json, line, 1);
    if !AllSpace(line) {
      var i :| 0 <= i < |line| && !IsSpace(line[i]);
      assert !PlainSpace(line[i]);
    }
  }

  lemma TextTail(text: string, k: nat)
    requires LfTerminated(text) && k <= |text|
    ensures LfTerminated(text[k..])
  {
    var tail := text[k..];
    forall i | 0 <= i < |tail| && IsTerminator(tail[i]) && tail[i] != '\n'
      ensures tail[i] == '\r' && i + 1 < |tail| && tail[i + 1] == '\n'
    {
      assert tail[i] == text[k + i];
    }
  }

  // A line break, LF or CR LF, ends the current segment.
  lemma BreakBytes(text: string, line: seq<Byte>, k: nat)
    requires LfTerminated(text) && text != [] && IsTerminator(text[0])
    requires k == (if text[0] == '\r' then 2 else 1) && k <= |text|
    ensures CountContent(Segments(Encode(text), line))
         == (if HasContent(line) then 1 else 0) + CountContent(Segments(Encode(text[k..]), []))
  {
    var rest := Encode(text[k..]);
    assert text[0] == '\n' || text[0] == '\r';
    if text[0] == '\r' {
      assert text == text[..2] + text[2..];
      EncodeAppend(text[..2], text[2..]);
      assert text[..2][1..] == ['\n'];
      assert Encode(text) == [0x0d] + ([LF] + rest);
      SegmentsSkip([0x0d], [LF] + rest, line);
      ContentAppend(line, [0x0d]);
      OneSegment([LF] + rest, line + [0x0d]);
    } else {
      assert Encode(text) == [LF] + rest;
      OneSegment([LF] + rest, line);
    }
  }

  lemma {:induction false} CountGap(json: string -> JsonReply, text: string, current: string)
    requires LfTerminated(text) && NoTerminator(current)
    ensures CountContent(Segments(Encode(text), Encode(current)))
         == CountRecords(json, LinesFrom(text, current)) + CountExotic(LinesFrom(text, current))
    decreases |text|
  {
    OneLine(json, current);
    if text == [] {
    } else if text[0] == '\n' || text[0] == '\r' {
      var k := if text[0] == '\r' then 2 else 1;
      TextTail(text, k);
      CountGap(json, text[k..], []);
      BreakBytes(text, Encode(current), k);
      assert LinesFrom(text, current)[1..] == LinesFrom(text[k..], []);
    } else {
      var c := text[0];
      TextTail(text, 1);
      CountGap(json, text[1..], current + [c]);
      EncodeAppend(current, [c]);
      assert Encode([c]) == Utf8(c);
      SegmentsSkip(Utf8(c), Encode(text[1..]), Encode(current));
    }
  }

  lemma {:induction false} ExoticZero(lines: seq<string>)
    ensures CountExotic(lines) == 0 <==> forall i :: 0 <= i < |lines| ==> !ExoticBlank(lines[i])
  {
    if lines != [] {
      ExoticZero(lines[1..]);
      assert forall i :: 0 < i < |lines| ==> lines[i] == lines[1..][i - 1];
    }
  }

  // totalRecords never falls short of the records processed, and meets it exactly when no line
  // consists of white space that includes more than spaces, tabs and carriage returns.
  lemma TotalMatchesRecords(json: string -> JsonReply, text: string)
    requires LfTerminated(text)
    ensures TotalRecords(Encode(text)) >= CountRecords(json, ReadLines(text))
    ensures TotalRecords(Encode(text)) == CountRecords(json, ReadLines(text))
       <==> forall i :: 0 <= i < |ReadLines(text)| ==> !ExoticBlank(ReadLines(text)[i])
  {
    CountGap(json, text, []);
    ExoticZero(ReadLines(text));
  }

  // ---- Every file, whatever ends its lines: the two counts compared LF segment by LF segment

  function FirstLf(text: string): (k: nat)
    ensures k <= |text| && (k < |text| ==> text[k] == '\n') && forall i :: 0 <= i < k ==> text[i] != '\n'
  {
    if text == [] || text[0] == '\n' then 0 else 1 + FirstLf(text[1..])
  }

  function LfSegments(text: string): seq<string>
    decreases |text|
  {
    var k := FirstLf(text);
    if k == |text| then [text] else [text[..k]] + LfSegments(text[k + 1..])
  }

  function RecordsIn(json: string -> JsonReply, segment: string): nat { CountRecords(json, ReadLines(segment)) }

  // Records beyond the first of each segment: the byte scan counts a segment once.
  function Surplus(json: string -> JsonReply, segments: seq<string>): nat {
    if segments == [] then 0 else Max(0, RecordsIn(json, segments[0]) - 1) + Surplus(json, segments[1..])
  }

  lemma {:induction false} NoLfEncoded(text: string)
    requires forall i :: 0 <= i < |text| ==> text[i] != '\n'
    ensures LF !in Encode(text)
  {
    if text != [] { NoLfEncoded(text[1..]); }
  }

  // The byte scan counts the segments with content.
  lemma SegmentAtLf(head: string, tail: string)
    requires forall i :: 0 <= i < |head| ==> head[i] != '\n'
    ensures CountContent(Segments(Encode(head + (['\n'] + tail)), []))
         == (if HasContent(Encode(head)) then 1 else 0) + CountContent(Segments(Encode(tail), []))
  {
    EncodeAppend(head, ['\n'] + tail);
    EncodeLf(tail);
    NoLfEncoded(head);
    ScanSegment(Encode(head), Encode(tail));
  }

  lemma EncodeLf(tail: string)
    ensures Encode(['\n'] + tail) == [LF] + Encode(tail)
  {
    assert (['\n'] + tail)[1..] == tail;
  }

  lemma ScanSegment(head: seq<Byte>, rest: seq<Byte>)
    requires LF !in head
    ensures CountContent(Segments(head + ([LF] + rest), []))
         == (if HasContent(head) then 1 else 0) + CountContent(Segments(rest, []))
  {
    SegmentsSkip(head, [LF] + rest, []);
    assert [] + head == head && ([LF] + rest)[1..] == rest;
    OneSegment([LF] + rest, head);
  }

  lemma SegmentAtEnd(head: string)
    requires forall i :: 0 <= i < |head| ==> head[i] != '\n'
    ensures CountContent(Segments(Encode(head), [])) == if HasContent(Encode(head)) then 1 else 0
  {
    NoLfEncoded(head);
    SegmentsSkip(Encode(head), [], []);
    assert Encode(head) + [] == Encode(head) && [] + Encode(head) == Encode(head);
    assert CountContent([Encode(head)]) == (if HasContent(Encode(head)) then 1 else 0) + CountContent([]);
  }

  // No line crosses an LF, so the records of a file are those of its segments.
  lemma {:induction false} LinesStopAtLf(json: string -> JsonReply, head: string, tail: string, current: string)
    requires forall i :: 0 <= i < |head| ==> head[i] != '\n'
    ensures CountRecords(json, LinesFrom(head + (['\n'] + tail), current))
         == CountRecords(json, LinesFrom(head, current)) + CountRecords(json, ReadLines(tail))
    decreases |head|
  {
    var text := head + (['\n'] + tail);
    if head == [] {
      assert text[0] == '\n' && text[1..] == tail;
      BlankIffAllSpace(json, current, 1);
      CountOne(json, current, ReadLines(tail));
      CountOne(json, current, []);
      assert [current] + [] == [current];
    } else if head[0] == '\r' && |head| == 1 {
      assert text[1] == '\n' && text[2..] == tail && head[1..] == [];
      CountOne(json, current, ReadLines(tail));
      CountOne(json, current, []);
      assert [current] + [] == [current];
    } else {
      assert text[0] == head[0] && text[1..] == head[1..] + (['\n'] + tail);
      assert |head| > 1 ==> text[1] == head[1];
      if IsTerminator(head[0]) {
        LinesStopAtLf(json, head[1..], tail, []);
        CountOne(json, current, LinesFrom(text[1..], []));
        CountOne(json, current, LinesFrom(head[1..], []));
      } else {
        LinesStopAtLf(json, head[1..], tail, current + [head[0]]);
      }
    }
  }

  lemma CountOne(json: string -> JsonReply, line: string, rest: seq<string>)
    ensures CountRecords(json, [line] + rest)
         == (if ParseLine(json, line, 1) != Blank then 1 else 0) + CountRecords(json, rest)
  {
    assert ([line] + rest)[1..] == rest;
  }

  lemma AllSpaceSplit(text: string, k: nat)
    requires k <= |text|
    ensures AllSpace(text) <==> AllSpace(text[..k]) && AllSpace(text[k..])
  {
    assert forall i :: k <= i < |text| ==> text[i] == text[k..][i - k];
  }

  // A segment holds no record exactly when it is nothing but white space.
  lemma {:induction false} NoRecordIff(json: string -> JsonReply, text: string, current: string)
    ensures CountRecords(json, LinesFrom(text, current)) == 0 <==> AllSpace(current) && AllSpace(text)
    decreases |text|
  {
    BlankIffAllSpace(json, current, 1);
    if text == [] {
    } else if text[0] == '\r' && |text| > 1 && text[1] == '\n' {
      NoRecordIff(json, text[2..], []);
      CountOne(json, current, LinesFrom(text[2..], []));
      AllSpaceSplit(text, 2);
    } else if IsTerminator(text[0]) {
      NoRecordIff(json, text[1..], []);
      CountOne(json, current, LinesFrom(text[1..], []));
      AllSpaceSplit(text, 1);
    } else {
      var longer := current + [text[0]];
      NoRecordIff(json, text[1..], longer);
      AllSpaceSplit(longer, |current|);
      AllSpaceSplit(text, 1);
      assert longer[..|current|] == current && longer[|current|..] == [text[0]] == text[..1];
    }
  }

  // One segment: it is counted once if it has content, and its records are one, more than one, or none.
  lemma SegmentLaw(json: string -> JsonReply, segment: string)
    ensures (if HasContent(Encode(segment)) then 1 else 0) + Max(0, RecordsIn(json, segment) - 1)
         == RecordsIn(json, segment) + if ExoticBlank(segment) then 1 else 0
  {
    ContentOfLine(segment);
    NoRecordIff(json, segment, []);
    if !AllSpace(segment) {
      var i :| 0 <= i < |segment| && !IsSpace(segment[i]);
      assert !PlainSpace(segment[i]);
    }
  }

  lemma RecordsAtLf(json: string -> JsonReply, head: string, tail: string)
    requires forall i :: 0 <= i < |head| ==> head[i] != '\n'
    ensures RecordsIn(json, head + (['\n'] + tail)) == RecordsIn(json, head) + RecordsIn(json, tail)
  {
    LinesStopAtLf(json, head, tail, []);
  }

  // What one segment adds to the right-hand sides of the law.
  lemma AddSegment(json: string -> JsonReply, segment: string, rest: seq<string>)
    ensures Surplus(json, [segment] + rest) == Max(0, RecordsIn(json, segment) - 1) + Surplus(json, rest)
    ensures CountExotic([segment] + rest) == (if ExoticBlank(segment) then 1 else 0) + CountExotic(rest)
  {
    var all := [segment] + rest;
    assert all[0] == segment && all[1..] == rest;
  }

  ghost predicate Balanced(json: string -> JsonReply, text: string) {
    TotalRecords(Encode(text)) + Surplus(json, LfSegments(text))
    == RecordsIn(json, text) + CountExotic(LfSegments(text))
  }

  lemma LfSegmentsAt(head: string, tail: string)
    requires forall i :: 0 <= i < |head| ==> head[i] != '\n'
    ensures LfSegments(head + (['\n'] + tail)) == [head] + LfSegments(tail)
  {
    var text := head + (['\n'] + tail);
    assert text[|head|] == '\n' && forall i :: 0 <= i < |head| ==> text[i] == head[i];
    assert FirstLf(text) == |head|;
    assert text[..|head|] == head && text[|head| + 1..] == tail;
  }

  lemma BalancedAtLf(json: string -> JsonReply, head: string, tail: string)
    requires forall i :: 0 <= i < |head| ==> head[i] != '\n'
    requires Balanced(json, tail)
    ensures Balanced(json, head + (['\n'] + tail))
  {
    SegmentLaw(json, head);
    SegmentAtLf(head, tail);
    RecordsAtLf(json, head, tail);
    LfSegmentsAt(head, tail);
    AddSegment(json, head, LfSegments(tail));
  }

  lemma BalancedAtEnd(json: string -> JsonReply, text: string)
    requires FirstLf(text) == |text|
    ensures Balanced(json, text)
  {
    SegmentLaw(json, text);
    SegmentAtEnd(text);
    AddSegment(json, text, []);
    assert [text] + [] == [text] == LfSegments(text);
  }

  lemma CutAtLf(text: string) returns (head: string, tail: string)
    requires FirstLf(text) < |text|
    ensures text == head + (['\n'] + tail) && forall i :: 0 <= i < |head| ==> head[i] != '\n'
  {
    head, tail := text[..FirstLf(text)], text[FirstLf(text) + 1..];
  }

  lemma {:induction false} AlwaysBalanced(json: string -> JsonReply, text: string)
    ensures Balanced(json, text)
    decreases |text|
  {
    if FirstLf(text) == |text| {
      BalancedAtEnd(json, text);
    } else {
      var head, tail := CutAtLf(text);
      AlwaysBalanced(json, tail);
      BalancedAtLf(json, head, tail);
    }
  }

  // For every file: totalRecords exceeds the records by the segments that are white space to JavaScript but not to
  // the byte scan, and falls behind by the records a segment holds beyond its first.
  lemma CountLaw(json: string -> JsonReply, text: string)
    ensures var total, records := TotalRecords(Encode(text)), CountRecords(json, ReadLines(text));
            var exotic, surplus := CountExotic(LfSegments(text)), Surplus(json, LfSegments(text));
            && total - records == exotic - surplus
            && (total == records <==> exotic == surplus)
            && (total < records <==> exotic < surplus)
  {
    AlwaysBalanced(json, text);
  }

  lemma LoneCarriageReturnBytes()
    ensures TotalRecords(Encode("1\r2")) == 1
  {
    EncodeAppend("1", "\r2");
    EncodeAppend("\r", "2");
    assert "1" + "\r2" == "1\r2" && "\r" + "2" == "\r2";
    assert Encode("1") == Utf8('1') && Encode("\r") == Utf8('\r') && Encode("2") == Utf8('2');
    var bytes: seq<Byte> := [0x31, 0x0d, 0x32];
    assert Encode("1\r2") == bytes;
    SegmentsSkip(bytes, [], []);
    assert bytes + [] == bytes && [] + bytes == bytes;
    assert IsContent(bytes[0]);
  }

  lemma LoneCarriageReturnLines(json: string -> JsonReply)
    ensures CountRecords(json, ReadLines("1\r2")) == 2
  {
    assert "1\r2"[1..] == "\r2" && "\r2"[1..] == "2" && "2"[1..] == "" && "" + ['1'] == "1" && "" + ['2'] == "2";
    assert LinesFrom("2", "") == LinesFrom("", "2") == ["2"];
    assert LinesFrom("\r2", "1") == ["1"] + LinesFrom("2", "");
    assert "1"[0] == '1' && "2"[0] == '2';
    NotBlank(json, "1");
    NotBlank(json, "2");
    CountOne(json, "1", ["2"]);
    CountOne(json, "2", []);
    assert ["2"] + [] == ["2"];
  }

  lemma NotBlank(json: string -> JsonReply, line: string)
    requires line != [] && !IsSpace(line[0])
    ensures ParseLine(json, line, 1) != Blank
  {
    BlankIffAllSpace(json, line, 1);
  }

  // A lone CR ends a line but no segment, so it can put two records into one: totalRecords is 1 here.
  lemma LoneCarriageReturnDisagrees(json: string -> JsonReply)
    ensures !LfTerminated("1\r2")
    ensures TotalRecords(Encode("1\r2")) < CountRecords(json, ReadLines("1\r2"))
  {
    assert IsTerminator("1\r2"[1]);
    LoneCarriageReturnBytes();
    LoneCarriageReturnLines(json);
  }
}
