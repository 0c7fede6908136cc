/** UTF-8 as Go's unicode/utf8 decodes it, and utf8NormalizingWriter
    (data-plane/cmd/agent/claude_stream.go). */
module Utf8 {
  import opened Bytes

  // ----------------------------------------------- RFC 3629, as code points

  /** A Unicode scalar value: section 3 of RFC 3629 excludes the surrogates. */
  predicate Scalar(c: nat) { c < 0xd800 || 0xe000 <= c < 0x110000 }

  /** The encoding table of section 3 of RFC 3629. */
  function Encode(c: nat): (e: Bytes)
    requires Scalar(c)
    ensures 1 <= |e| <= 4
  {
    if c < 0x80 then [c as Byte]
    else if c < 0x800 then [(0xc0 + c / 64) as Byte, Tail(c)]
    else if c < 0x10000 then [(0xe0 + c / 4096) as Byte, Tail(c / 64), Tail(c)]
    else [(0xf0 + c / 262144) as Byte, Tail(c / 4096), Tail(c / 64), Tail(c)]
  }

  function Tail(c: nat): Byte { (0x80 + c % 64) as Byte }

  /** s begins with the encoding of some scalar value, n bytes long. */
  ghost predicate Begins(s: Bytes, n: nat) {
    exists c: nat :: Scalar(c) && n == |Encode(c)| && Encode(c) <= s
  }

  // ----------------------------------------------------- Go's decoder tables

  /** The sequence length Go's table gives a lead byte; 1 for ASCII and for bytes that lead nothing. */
  function Need(b: Byte): (n: nat)
    ensures 1 <= n <= 4
  {
    if b < 0xc2 then 1 else if b < 0xe0 then 2 else if b < 0xf0 then 3 else if b < 0xf5 then 4 else 1
  }

  predicate Leads(b: Byte) { b < 0x80 || 0xc2 <= b < 0xf5 }

  predicate Continues(b: Byte) { 0x80 <= b < 0xc0 }

  /** utf8.RuneStart. */
  predicate RuneStart(b: Byte) { !Continues(b) }

  /** The range Go's table gives the second byte. */
  predicate SecondFits(lead: Byte, b: Byte) {
    if lead == 0xe0 then 0xa0 <= b < 0xc0
    else if lead == 0xed then 0x80 <= b < 0xa0
    else if lead == 0xf0 then 0x90 <= b < 0xc0
    else if lead == 0xf4 then 0x80 <= b < 0x90
    else Continues(b)
  }

  /** utf8.DecodeRune found a character: not the pair (RuneError, 1). */
  predicate Decodes(s: Bytes) {
    && s != [] && Leads(s[0]) && Need(s[0]) <= |s|
    && (Need(s[0]) > 1 ==> SecondFits(s[0], s[1]))
    && (Need(s[0]) > 2 ==> Continues(s[2]))
    && (Need(s[0]) > 3 ==> Continues(s[3]))
  }

  /** utf8.FullRune. */
  predicate FullRune(s: Bytes) {
    && s != []
    && (|s| >= Need(s[0]) || (|s| > 1 && !SecondFits(s[0], s[1])) || (|s| > 2 && !Continues(s[2])))
  }

  /** The scalar value of a decoded sequence. */
  function Value(s: Bytes): nat
    requires Decodes(s)
  {
    var a := s[0] as int;
    if Need(s[0]) == 1 then a
    else if Need(s[0]) == 2 then (a - 0xc0) * 64 + (s[1] as int - 0x80)
    else if Need(s[0]) == 3 then ((a - 0xe0) * 64 + (s[1] as int - 0x80)) * 64 + (s[2] as int - 0x80)
    else (((a - 0xf0) * 64 + (s[1] as int - 0x80)) * 64 + (s[2] as int - 0x80)) * 64 + (s[3] as int - 0x80)
  }

  /** Splitting a value at its low six bits. */
  lemma LowSix(high: nat, low: nat)
    requires low < 64
    ensures (high * 64 + low) / 64 == high && (high * 64 + low) % 64 == low
  {
  }

  lemma DecodedIsEncoded(s: Bytes)
    requires Decodes(s)
    ensures Scalar(Value(s)) && Encode(Value(s)) == s[..Need(s[0])]
  {
    var c := Value(s);
    if Need(s[0]) == 2 {
      LowSix(s[0] as int - 0xc0, s[1] as int - 0x80);
    } else if Need(s[0]) == 3 {
      var h := (s[0] as int - 0xe0) * 64 + (s[1] as int - 0x80);
      LowSix(s[0] as int - 0xe0, s[1] as int - 0x80);
      LowSix(h, s[2] as int - 0x80);
    } else if Need(s[0]) == 4 {
      var h := (s[0] as int - 0xf0) * 64 + (s[1] as int - 0x80);
      var k := h * 64 + (s[2] as int - 0x80);
      LowSix(s[0] as int - 0xf0, s[1] as int - 0x80);
      LowSix(h, s[2] as int - 0x80);
      LowSix(k, s[3] as int - 0x80);
    }
  }

  lemma EncodedDecodes(c: nat, s: Bytes)
    requires Scalar(c) && Encode(c) <= s
    ensures Decodes(s) && Need(s[0]) == |Encode(c)|
  {
    var e := Encode(c);
    assert s[0] == e[0];
    if |e| > 1 { assert s[1] == e[1]; }
    if |e| > 2 { assert s[2] == e[2]; }
    if |e| > 3 { assert s[3] == e[3]; }
  }

  /** Go's byte tables accept exactly the encodings of scalar values. */
  lemma DecodesMeans(s: Bytes, n: nat)
    ensures Begins(s, n) <==> Decodes(s) && n == Need(s[0])
  {
    if Decodes(s) {
      DecodedIsEncoded(s);
      assert Encode(Value(s)) <= s;
    }
    forall c: nat | Scalar(c) && n == |Encode(c)| && Encode(c) <= s
      ensures Decodes(s) && n == Need(s[0])
    {
      EncodedDecodes(c, s);
    }
  }

  // ------------------------------------------------------------ well-formed text

  /** s is a sequence of characters. */
  predicate Valid(s: Bytes) {
    s == [] || (Decodes(s) && Valid(s[Need(s[0])..]))
  }

  /** A cursor that does not split a character. */
  predicate Boundary(s: Bytes, i: nat) { i == |s| || (i < |s| && RuneStart(s[i])) }

  /** One character, then the rest. */
  lemma DecodesAppend(a: Bytes, b: Bytes)
    requires Decodes(a)
    ensures Decodes(a + b) && (a + b)[..Need(a[0])] == a[..Need(a[0])] && (a + b)[Need(a[0])..] == a[Need(a[0])..] + b
  {
  }

  /** Inside a character only continuation bytes follow the lead. */
  lemma InsideContinues(s: Bytes, i: nat)
    requires Decodes(s) && i < Need(s[0])
    ensures RuneStart(s[i]) <==> i == 0
  {
  }

  lemma ValidStarts(s: Bytes)
    requires Valid(s) && s != []
    ensures RuneStart(s[0])
  {
    InsideContinues(s, 0);
  }

  lemma EmptyIsValid()
    ensures Valid([])
  {
  }

  lemma {:induction false} ValidAppend(a: Bytes, b: Bytes)
    requires Valid(a)
    ensures Valid(a + b) <==> Valid(b)
  {
    if a == [] {
      assert a + b == b;
    } else {
      DecodesAppend(a, b);
      ValidAppend(a[Need(a[0])..], b);
    }
  }

  /** Cutting well-formed text leaves two well-formed halves exactly at a rune start. */
  lemma {:induction false} BoundaryMeans(s: Bytes, i: nat)
    requires Valid(s) && i <= |s|
    ensures Boundary(s, i) <==> Valid(s[..i])
    ensures Boundary(s, i) ==> Valid(s[i..])
    decreases |s|
  {
    if i == 0 {
      if s != [] { InsideContinues(s, 0); }
      assert s[..0] == [] && s[0..] == s;
    } else {
      var n := Need(s[0]);
      if i < n {
        InsideContinues(s, i);
      } else {
        BoundaryMeans(s[n..], i - n);
        assert Boundary(s, i) <==> Boundary(s[n..], i - n);
        assert s[i..] == s[n..][i - n..];
        HeadCut(s, n, i);
      }
    }
  }

  lemma HeadCut(s: Bytes, n: nat, i: nat)
    requires Decodes(s) && n == Need(s[0]) <= i <= |s|
    ensures Valid(s[..i]) <==> Valid(s[n..][..i - n])
  {
    assert s[..i][n..] == s[n..][..i - n];
    assert Decodes(s[..i]);
  }

  lemma RuneStartCut(s: Bytes, i: nat)
    requires Valid(s) && i <= |s| && Boundary(s, i)
    ensures Valid(s[..i]) && Valid(s[i..])
  {
    BoundaryMeans(s, i);
  }

  /** A character reaches at most three bytes past any of its own positions. */
  lemma {:induction false} BoundaryNear(s: Bytes, i: nat) returns (j: nat)
    requires Valid(s) && i <= |s|
    ensures j <= i < j + 4 && Boundary(s, j)
    decreases |s|
  {
    if s == [] || i < Need(s[0]) {
      j := 0;
      if s != [] { InsideContinues(s, 0); }
    } else {
      var n := Need(s[0]);
      j := BoundaryNear(s[n..], i - n);
      j := j + n;
    }
  }

  // ------------------------------------------------- replacing ill-formed bytes

  /** U+FFFD. */
  const RUNE_ERROR: Bytes := [0xef, 0xbf, 0xbd]

  /** Whole-input decoding with one U+FFFD per byte that starts no character. */
  function Normalize(s: Bytes): Bytes {
    if s == [] then []
    else if Decodes(s) then s[..Need(s[0])] + Normalize(s[Need(s[0])..])
    else RUNE_ERROR + Normalize(s[1..])
  }

  lemma CharacterIsValid(s: Bytes)
    requires Decodes(s)
    ensures Valid(s[..Need(s[0])])
  {
    var c := s[..Need(s[0])];
    assert Decodes(c) && c[|c|..] == [];
  }

  lemma RuneErrorIsValid()
    ensures Valid(RUNE_ERROR)
  {
    assert Decodes(RUNE_ERROR) && RUNE_ERROR[3..] == [];
  }

  lemma {:induction false} NormalizeIsValid(s: Bytes)
    ensures Valid(Normalize(s))
  {
    if s == [] {
    } else if Decodes(s) {
      CharacterIsValid(s);
      NormalizeIsValid(s[Need(s[0])..]);
      ValidAppend(s[..Need(s[0])], Normalize(s[Need(s[0])..]));
    } else {
      RuneErrorIsValid();
      NormalizeIsValid(s[1..]);
      ValidAppend(RUNE_ERROR, Normalize(s[1..]));
    }
  }

  /** Well-formed text, and only that, is left alone. */
  lemma {:induction false} NormalizeFixes(s: Bytes)
    ensures Normalize(s) == s <==> Valid(s)
  {
    if Valid(s) {
      ValidIsKept(s);
    }
    NormalizeIsValid(s);
  }

  lemma {:induction false} ValidIsKept(s: Bytes)
    requires Valid(s)
    ensures Normalize(s) == s
  {
    if s != [] {
      ValidIsKept(s[Need(s[0])..]);
      assert s == s[..Need(s[0])] + s[Need(s[0])..];
    }
  }

  /** strings.ToValidUTF8: one replacement for each run of bytes that start no character. */
  function ToValid(s: Bytes, replacement: Bytes, inRun: bool): Bytes
    decreases |s|
  {
    if s == [] then []
    else if Decodes(s) then s[..Need(s[0])] + ToValid(s[Need(s[0])..], replacement, false)
    else (if inRun then [] else replacement) + ToValid(s[1..], replacement, true)
  }

  /** The result is well-formed, and well-formed text, and only that, is left alone. */
  lemma {:induction false} ToValidMeans(s: Bytes, replacement: Bytes, inRun: bool)
    requires Valid(replacement)
    ensures Valid(ToValid(s, replacement, inRun)) && (ToValid(s, replacement, inRun) == s <==> Valid(s))
    decreases |s|
  {
    if s == [] {
    } else if Decodes(s) {
      var n := Need(s[0]);
      CharacterIsValid(s);
      ToValidMeans(s[n..], replacement, false);
      ValidAppend(s[..n], ToValid(s[n..], replacement, false));
      assert s == s[..n] + s[n..];
    } else {
      ToValidMeans(s[1..], replacement, true);
      ValidAppend(replacement, ToValid(s[1..], replacement, true));
      assert [] + ToValid(s[1..], replacement, true) == ToValid(s[1..], replacement, true);
    }
  }

  /** What the decoder sees of a full rune does not change with later input. */
  lemma FullRuneStands(s: Bytes, rest: Bytes)
    requires FullRune(s)
    ensures Decodes(s + rest) <==> Decodes(s)
    ensures Decodes(s) ==> Need((s + rest)[0]) == Need(s[0])
  {
  }

  // ------------------------------------------------------------ the stream machine

  datatype Drained = Drained(out: Bytes, pending: Bytes)

  /** utf8NormalizingWriter.drain. */
  function Drain(pending: Bytes, final: bool): (d: Drained)
    ensures final ==> d.pending == []
    decreases |pending|
  {
    if pending == [] || (!final && !FullRune(pending)) then Drained([], pending)
    else if Decodes(pending) then
      var d := Drain(pending[Need(pending[0])..], final);
      Drained(pending[..Need(pending[0])] + d.out, d.pending)
    else
      var d := Drain(pending[1..], final);
      Drained(RUNE_ERROR + d.out, d.pending)
  }

  /** Write for each chunk, then Close: what reaches the destination, piece by piece. */
  function Stream(pending: Bytes, chunks: seq<Bytes>): (pieces: seq<Bytes>)
    decreases |chunks|
  {
    if chunks == [] then [Drain(pending, true).out]
    else
      var d := Drain(pending + chunks[0], false);
      [d.out] + Stream(d.pending, chunks[1..])
  }

  lemma {:induction false} DrainResidual(pending: Bytes, final: bool, rest: Bytes)
    requires final ==> rest == []
    ensures var d := Drain(pending, final); Normalize(pending + rest) == d.out + Normalize(d.pending + rest)
    decreases |pending|
  {
    if pending != [] && (final || FullRune(pending)) {
      var n := if Decodes(pending) then Need(pending[0]) else 1;
      var piece := if Decodes(pending) then pending[..n] else RUNE_ERROR;
      if final { assert pending + rest == pending && pending[n..] + rest == pending[n..]; }
      DrainResidual(pending[n..], final, rest);
      NormalizeHead(pending, rest);
      var d := Drain(pending[n..], final);
      Assoc(piece, d.out, Normalize(d.pending + rest));
    }
  }

  lemma NormalizeHead(s: Bytes, rest: Bytes)
    requires s != [] && (FullRune(s) || rest == [])
    ensures var n := if Decodes(s) then Need(s[0]) else 1;
      Normalize(s + rest) == (if Decodes(s) then s[..n] else RUNE_ERROR) + Normalize(s[n..] + rest)
  {
    if rest == [] { assert s + rest == s; } else { FullRuneStands(s, rest); }
    var n := if Decodes(s) then Need(s[0]) else 1;
    assert (s + rest)[n..] == s[n..] + rest && (s + rest)[..n] == s[..n];
  }

  /** For every chunking, the pieces spell the whole input's decoding. */
  lemma {:induction false} StreamIsNormalize(pending: Bytes, chunks: seq<Bytes>)
    ensures Concat(Stream(pending, chunks)) == Normalize(pending + Concat(chunks))
    decreases |chunks|
  {
    if chunks == [] {
      DrainResidual(pending, true, []);
      assert pending + [] == pending;
      assert Stream(pending, chunks)[1..] == [];
    } else {
      var d := Drain(pending + chunks[0], false);
      DrainResidual(pending + chunks[0], false, Concat(chunks[1..]));
      StreamIsNormalize(d.pending, chunks[1..]);
      Assoc(pending, chunks[0], Concat(chunks[1..]));
      assert Stream(pending, chunks)[1..] == Stream(d.pending, chunks[1..]);
    }
  }

  /** Fewer than four bytes ever wait, and they could still become a character. */
  lemma {:induction false} DrainHolds(pending: Bytes)
    ensures var d := Drain(pending, false); |d.pending| < 4 && !FullRune(d.pending)
    ensures Valid(Drain(pending, false).out)
    decreases |pending|
  {
    if pending == [] || !FullRune(pending) {
    } else if Decodes(pending) {
      var n := Need(pending[0]);
      DrainHolds(pending[n..]);
      CharacterIsValid(pending);
      ValidAppend(pending[..n], Drain(pending[n..], false).out);
    } else {
      DrainHolds(pending[1..]);
      RuneErrorIsValid();
      ValidAppend(RUNE_ERROR, Drain(pending[1..], false).out);
    }
  }

  lemma FinalDrainIsValid(pending: Bytes)
    ensures Drain(pending, true).out == Normalize(pending) && Valid(Drain(pending, true).out)
  {
    DrainResidual(pending, true, []);
    assert pending + [] == pending && Drain(pending, true).out + [] == Drain(pending, true).out;
    NormalizeIsValid(pending);
  }

  /** Every piece is well-formed on its own: no character is split between two writes. */
  lemma {:induction false} PiecesAreValid(pending: Bytes, chunks: seq<Bytes>)
    ensures forall piece :: piece in Stream(pending, chunks) ==> Valid(piece)
    decreases |chunks|
  {
    if chunks == [] {
      FinalDrainIsValid(pending);
    } else {
      DrainHolds(pending + chunks[0]);
      PiecesAreValid(Drain(pending + chunks[0], false).pending, chunks[1..]);
    }
  }

  class NormalizingWriter {
    var pending: Bytes

    constructor ()
      ensures pending == []
    {
      pending := [];
    }

    method Write(p: Bytes) returns (out: Bytes)
      modifies this
      ensures Drained(out, pending) == Drain(old(pending) + p, false)
      ensures Valid(out) && |pending| < 4
    {
      pending := pending + p;
      DrainHolds(pending);
      out := DrainPending(false);
    }

    method Close() returns (out: Bytes)
      modifies this
      ensures out == Normalize(old(pending)) && pending == []
    {
      FinalDrainIsValid(pending);
      out := DrainPending(true);
    }

    method DrainPending(final: bool) returns (out: Bytes)
      modifies this
      ensures Drained(out, pending) == Drain(old(pending), final)
    {
      out := [];
      var consumed := 0;
      while consumed < |pending|
        invariant consumed <= |pending| && pending == old(pending)
        invariant Drain(pending, final) ==
                  Drained(out + Drain(pending[consumed..], final).out, Drain(pending[consumed..], final).pending)
      {
        var rest := pending[consumed..];
        if !FullRune(rest) && !final { break; }
        var size := 1;
        var piece := RUNE_ERROR;
        if Decodes(rest) {
          size := Need(rest[0]);
          piece := rest[..size];
        }
        assert rest[size..] == pending[consumed + size..];
        Assoc(out, piece, Drain(rest[size..], final).out);
        out := out + piece;
        consumed := consumed + size;
      }
      pending := pending[consumed..];
    }
  }
}
