/** Small shared vocabulary: optional values and sequences of sequences. */
module Prelude {

  datatype Option<+T> = None | Some(value: T)

  function Max(a: int, b: int): int { if a < b then b else a }

  function Min(a: int, b: int): int { if a < b then a else b }

  function Flatten<T>(ss: seq<seq<T>>): seq<T> {
    if ss == [] then [] else ss[0] + Flatten(ss[1..])
  }

  lemma Associates<T>(a: seq<T>, b: seq<T>, c: seq<T>)
    ensures a + (b + c) == (a + b) + c
  {}

  lemma {:induction false} FlattenAppend<T>(a: seq<seq<T>>, b: seq<seq<T>>)
    ensures Flatten(a + b) == Flatten(a) + Flatten(b)
  {
    if a == [] {
      assert a + b == b;
    } else {
      FlattenAppend(a[1..], b);
      assert (a + b)[1..] == a[1..] + b;
      Associates(a[0], Flatten(a[1..]), Flatten(b));
    }
  }

  lemma FlattenPrefix<T>(ss: seq<seq<T>>, i: nat, j: nat)
    requires i <= j <= |ss|
    ensures Flatten(ss[..i]) <= Flatten(ss[..j])
  {
    assert ss[..j] == ss[..i] + ss[i..j];
    FlattenAppend(ss[..i], ss[i..j]);
  }

  // Flattening the first i pieces stops exactly where piece i starts.
  lemma FlattenTake<T>(ss: seq<seq<T>>, i: nat)
    requires i < |ss|
    ensures Flatten(ss[..i + 1]) == Flatten(ss[..i]) + ss[i]
  {
    assert ss[..i + 1] == ss[..i] + [ss[i]];
    FlattenAppend(ss[..i], [ss[i]]);
  }

  lemma FlattenAll<T>(ss: seq<seq<T>>, i: nat)
    requires i <= |ss|
    ensures Flatten(ss[..i]) <= Flatten(ss)
  {
    FlattenPrefix(ss, i, |ss|);
    assert ss[..|ss|] == ss;
  }
}
