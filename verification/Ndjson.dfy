/** Text of an import file: UTF-8, JavaScript trimming and the classification of one line. */
module Ndjson {
  import opened Prelude

  type Byte = b: int | 0 <= b < 256

  const MAX_LINE_BYTES := 64 * 1024
  const SNIPPET_CAP := 200

  datatype Json =
    | JsonNull
    | JsonBool(flag: bool)
    | JsonNumber(number: real)
    | JsonString(text: string)
    | JsonArray(items: seq<Json>)
    | JsonObject(fields: seq<(string, Json)>)

  datatype JsonReply = Parsed(data: Json) | Malformed(message: string)

  datatype LineParse =
    | Blank
    | Valid(lineNumber: nat, data: Json)
    | Refused(lineNumber: nat, errorCode: string, message: string, rawValue: string)

  // The code points removed by String.prototype.trim: white space and line terminators.
  predicate IsSpace(c: char) {
    var p := c as int;
    || 0x09 <= p <= 0x0d || p == 0x20 || p == 0xa0 || p == 0x1680
    || 0x2000 <= p <= 0x200a || p == 0x2028 || p == 0x2029
    || p == 0x202f || p == 0x205f || p == 0x3000 || p == 0xfeff
  }

  function TrimStart(s: string): string {
    if s != [] && IsSpace(s[0]) then TrimStart(s[1..]) else s
  }

  function TrimEnd(s: string): string {
    if s != [] && IsSpace(s[|s| - 1]) then TrimEnd(s[..|s| - 1]) else s
  }

  function Trim(s: string): string { TrimEnd(TrimStart(s)) }

  predicate AllSpace(s: string) { forall i :: 0 <= i < |s| ==> IsSpace(s[i]) }

  function Take(s: string, n: nat): string { if |s| <= n then s else s[..n] }

  function Utf8(c: char): (bytes: seq<Byte>)
    // A multi-byte character never contains an ASCII byte.
    ensures bytes != []
    ensures c as int < 0x80 ==> bytes == [c as int]
    ensures c as int >= 0x80 ==> forall i :: 0 <= i < |bytes| ==> bytes[i] >= 0x80
  {
    var p := c as int;
    if p < 0x80 then [p]
    else if p < 0x800 then [0xc0 + p / 64, 0x80 + p % 64]
    else if p < 0x10000 then [0xe0 + p / 4096, 0x80 + p / 64 % 64, 0x80 + p % 64]
    else [0xf0 + p / 262144, 0x80 + p / 4096 % 64, 0x80 + p / 64 % 64, 0x80 + p % 64]
  }

  predicate Continues(b: Byte) { 0x80 <= b < 0xc0 }

  // The payload of a byte above its marker.
  function Bits(b: Byte, marker: int): int { b as int - marker }

  // As many bytes as the code point needs, and they give it back.
  lemma Utf8Decodes(c: char)
    ensures var p, u := c as int, Utf8(c);
            if p < 0x80 then |u| == 1 && u[0] == p
            else if p < 0x800 then |u| == 2 && Continues(u[1]) && Bits(u[0], 0xc0) * 64 + Bits(u[1], 0x80) == p
            else if p < 0x10000 then
              |u| == 3 && Continues(u[1]) && Continues(u[2])
              && Bits(u[0], 0xe0) * 4096 + Bits(u[1], 0x80) * 64 + Bits(u[2], 0x80) == p
            else
              |u| == 4 && Continues(u[1]) && Continues(u[2]) && Continues(u[3])
              && Bits(u[0], 0xf0) * 262144 + Bits(u[1], 0x80) * 4096 + Bits(u[2], 0x80) * 64 + Bits(u[3], 0x80) == p
  {
    var p := c as int;
    assert p / 4096 == p / 64 / 64 && p / 262144 == p / 64 / 64 / 64;
  }

  function Encode(text: string): seq<Byte> {
    if text == [] then [] else Utf8(text[0]) + Encode(text[1..])
  }

  function ParseLine(json: string -> JsonReply, raw: string, lineNumber: nat): LineParse {
    var trimmed := Trim(raw);
    if |trimmed| == 0 then Blank
    else if |Encode(trimmed)| > MAX_LINE_BYTES then
      Refused(lineNumber, "LINE_TOO_LONG", "Line exceeds the 65536-byte limit.", Take(trimmed, SNIPPET_CAP))
    else match json(trimmed)
      case Parsed(data) => Valid(lineNumber, data)
      case Malformed(message) => Refused(lineNumber, "INVALID_JSON", message, Take(trimmed, SNIPPET_CAP))
  }

  lemma {:induction false} TrimEndEmpty(s: string)
    ensures TrimEnd(s) == [] <==> AllSpace(s)
  {
    if s != [] && IsSpace(s[|s| - 1]) {
      TrimEndEmpty(s[..|s| - 1]);
    }
  }

  lemma {:induction false} TrimStartSuffix(s: string)
    ensures AllSpace(TrimStart(s)) <==> AllSpace(s)
  {
    if s != [] && IsSpace(s[0]) {
      TrimStartSuffix(s[1..]);
      assert forall i :: 0 < i < |s| ==> s[i] == s[1..][i - 1];
    }
  }

  // A line is blank exactly when it holds nothing but JavaScript white space.
  lemma BlankIffAllSpace(json: string -> JsonReply, raw: string, lineNumber: nat)
    ensures ParseLine(json, raw, lineNumber) == Blank <==> AllSpace(raw)
  {
    TrimStartSuffix(raw);
    TrimEndEmpty(TrimStart(raw));
  }

  lemma {:induction false} TrimStartSlice(s: string) returns (from: nat)
    ensures from <= |s| && TrimStart(s) == s[from..] && AllSpace(s[..from])
    ensures TrimStart(s) != [] ==> !IsSpace(TrimStart(s)[0])
  {
    from := 0;
    if s != [] && IsSpace(s[0]) {
      var k := TrimStartSlice(s[1..]);
      from := k + 1;
      assert s[1..][k..] == s[from..];
      assert forall i :: 0 < i < from ==> s[i] == s[1..][..k][i - 1];
    }
  }

  lemma {:induction false} TrimEndSlice(s: string) returns (to: nat)
    ensures to <= |s| && TrimEnd(s) == s[..to] && AllSpace(s[to..])
    ensures TrimEnd(s) != [] ==> !IsSpace(TrimEnd(s)[to - 1])
  {
    to := |s|;
    if s != [] && IsSpace(s[|s| - 1]) {
      var front := s[..|s| - 1];
      to := TrimEndSlice(front);
      assert forall i :: to <= i < |front| ==> s[i] == front[to..][i - to];
    }
  }

  // Trimming takes away white space at both ends, and all of it.
  lemma TrimCore(s: string) returns (from: nat, to: nat)
    ensures from <= to <= |s| && Trim(s) == s[from..to] && AllSpace(s[..from]) && AllSpace(s[to..])
    ensures from < to ==> !IsSpace(s[from]) && !IsSpace(s[to - 1])
    ensures from == to <==> AllSpace(s)
  {
    from := TrimStartSlice(s);
    var k := TrimEndSlice(s[from..]);
    to := from + k;
    assert s[from..][..k] == s[from..to] && s[from..][k..] == s[to..];
    if from < to {
      assert TrimStart(s)[0] == s[from] && TrimEnd(s[from..])[k - 1] == s[to - 1];
    } else {
      assert from == |s| && s[..from] == s;
    }
  }
}
