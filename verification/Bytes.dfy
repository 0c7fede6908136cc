/** Byte strings and the few slice facts every stream stage uses. */
module Bytes {
  newtype Byte = b: int | 0 <= b < 256
  type Bytes = seq<Byte>

  const NEWLINE: Byte := 10
  const TURN_SENTINEL: Byte := 0x1e

  lemma Assoc(a: Bytes, b: Bytes, c: Bytes)
    ensures (a + b) + c == a + (b + c)
  {
  }

  lemma Cut3(s: Bytes, i: nat, j: nat)
    requires i <= j <= |s|
    ensures s[..i] + (s[i..j] + s[j..]) == s
  {
  }

  lemma CutLater(a: Bytes, b: Bytes, i: nat)
    requires i <= |b|
    ensures (a + b)[..|a| + i] == a + b[..i] && (a + b)[|a| + i..] == b[i..]
  {
  }

  function Concat(chunks: seq<Bytes>): Bytes {
    if chunks == [] then [] else chunks[0] + Concat(chunks[1..])
  }

  lemma {:induction false} ConcatAppend(a: seq<Bytes>, b: seq<Bytes>)
    ensures Concat(a + b) == Concat(a) + Concat(b)
  {
    if a == [] {
      assert a + b == b;
    } else {
      ConcatAppend(a[1..], b);
      assert (a + b)[1..] == a[1..] + b;
    }
  }

  lemma ConcatSnoc(a: seq<Bytes>, x: Bytes)
    ensures Concat(a + [x]) == Concat(a) + x
  {
    ConcatAppend(a, [x]);
    assert [x][1..] == [];
  }

  /** literal stands in s at position i. */
  predicate OccursAt(s: Bytes, literal: Bytes, i: nat) {
    i + |literal| <= |s| && forall k :: 0 <= k < |literal| ==> literal[k] == s[i + k]
  }

  lemma OccursInPrefix(s: Bytes, rest: Bytes, literal: Bytes, i: nat)
    requires i + |literal| <= |s|
    ensures OccursAt(s + rest, literal, i) <==> OccursAt(s, literal, i)
  {
  }

  lemma OccursShifted(s: Bytes, rest: Bytes, literal: Bytes, i: nat)
    requires |s| <= i
    ensures OccursAt(s + rest, literal, i) <==> OccursAt(rest, literal, i - |s|)
  {
  }
}
