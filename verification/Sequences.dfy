/** Facts about sequences that several modules share: byte strings cut into parts, and text. */
module Sequences {
  import opened Wrappers

  lemma Associates<T>(a: seq<T>, b: seq<T>, c: seq<T>)
    ensures a + (b + c) == (a + b) + c
  {
  }

  /** The parts put together again. */
  function Flat(parts: seq<Bytes>): Bytes {
    if parts == [] then [] else parts[0] + Flat(parts[1..])
  }

  lemma {:induction false} FlatConcat(a: seq<Bytes>, b: seq<Bytes>)
    ensures Flat(a + b) == Flat(a) + Flat(b)
  {
    if a == [] {
      assert a + b == b;
    } else {
      FlatConcat(a[1..], b);
      assert (a + b)[1..] == a[1..] + b;
      Associates(a[0], Flat(a[1..]), Flat(b));
    }
  }

  lemma FlatOne(part: Bytes)
    ensures Flat([part]) == part
  {
    assert [part][1..] == [];
  }

  /** One more part of `parts` adds its bytes at the end. */
  lemma FlatNext(parts: seq<Bytes>, n: nat)
    requires n < |parts|
    ensures Flat(parts[..n + 1]) == Flat(parts[..n]) + parts[n]
  {
    assert parts[..n + 1] == parts[..n] + [parts[n]];
    FlatConcat(parts[..n], [parts[n]]);
    FlatOne(parts[n]);
  }

  lemma FlatPrefix(parts: seq<Bytes>, n: nat)
    requires n <= |parts|
    ensures Flat(parts[..n]) <= Flat(parts)
  {
    FlatConcat(parts[..n], parts[n..]);
    assert parts[..n] + parts[n..] == parts;
  }

  predicate StartsWith(text: string, pattern: string) {
    |pattern| <= |text| && text[..|pattern|] == pattern
  }
}
