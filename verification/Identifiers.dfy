/** The identifiers that validation lets through: cleaned of control characters, trimmed, and not too long. */
module Identifiers {
  import opened Prelude
  import opened Ndjson

  const MAX_IDENTIFIER_LENGTH := 128

  predicate IsControl(c: char) { c as int <= 0x1f || 0x7f <= c as int <= 0x9f }

  function RemoveControls(s: string): string {
    if s == [] then [] else (if IsControl(s[0]) then [] else [s[0]]) + RemoveControls(s[1..])
  }

  function NormalizeRequiredString(s: string): Option<string> {
    var cleaned := Trim(RemoveControls(s));
    if |cleaned| == 0 || |cleaned| > MAX_IDENTIFIER_LENGTH then None else Some(cleaned)
  }

  predicate ValidIdentifier(s: string) {
    && 1 <= |s| <= 128
    && !IsSpace(s[0]) && !IsSpace(s[|s| - 1])
    && forall i :: 0 <= i < |s| ==> 0x1f < s[i] as int < 0x7f || 0x9f < s[i] as int
  }

  lemma {:induction false} NoControlsLeft(s: string)
    ensures forall i :: 0 <= i < |RemoveControls(s)| ==> !IsControl(RemoveControls(s)[i])
  {
    if s != [] { NoControlsLeft(s[1..]); }
  }

  lemma {:induction false} NothingToRemove(s: string)
    requires forall i :: 0 <= i < |s| ==> !IsControl(s[i])
    ensures RemoveControls(s) == s
  {
    if s != [] {
      NothingToRemove(s[1..]);
      assert s == [s[0]] + s[1..];
    }
  }

  // What normalizing returns is exactly what it leaves as it is.
  lemma NormalizedIff(r: string)
    ensures (exists s :: NormalizeRequiredString(s) == Some(r)) <==> ValidIdentifier(r)
    ensures ValidIdentifier(r) <==> NormalizeRequiredString(r) == Some(r)
  {
    forall s | NormalizeRequiredString(s) == Some(r) ensures ValidIdentifier(r) { NormalizedIsValid(s, r); }
    if ValidIdentifier(r) {
      NothingToRemove(r);
      assert TrimStart(r) == r && TrimEnd(r) == r;
      assert NormalizeRequiredString(r) == Some(r);
    }
  }

  lemma NormalizedIsValid(s: string, r: string)
    requires NormalizeRequiredString(s) == Some(r)
    ensures ValidIdentifier(r)
  {
    var cleaned := RemoveControls(s);
    NoControlsLeft(s);
    var from := TrimStartSlice(cleaned);
    var to := TrimEndSlice(TrimStart(cleaned));
    assert r == cleaned[from..][..to];
    assert forall i :: 0 <= i < |r| ==> r[i] == cleaned[from + i];
    assert r[0] == TrimStart(cleaned)[0];
  }
}
