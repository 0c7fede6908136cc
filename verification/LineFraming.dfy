/** Cutting an agent's standard output into lines, whatever chunks it arrives in.
    The Claude and MiniMax projectors share this shape; a projector is a state S, a
    step per line (told whether the line had its newline) and a step at Close. */
module LineFraming {
  import opened Bytes

  datatype Step<S, P> = Step(state: S, out: seq<P>)

  datatype Projector<!S, !P> = Projector(line: (S, Bytes, bool) -> Step<S, P>, finish: S -> Step<S, P>)

  /** Where the first newline is, or the length. */
  function LineEnd(s: Bytes): (n: nat)
    ensures n <= |s|
  {
    if s == [] || s[0] == NEWLINE then 0 else 1 + LineEnd(s[1..])
  }

  lemma {:induction false} LineEndMeans(s: Bytes)
    ensures var n := LineEnd(s); NEWLINE !in s[..n] && (n < |s| ==> s[n] == NEWLINE)
  {
    if s != [] && s[0] != NEWLINE {
      LineEndMeans(s[1..]);
      var n := LineEnd(s[1..]);
      assert s[..n + 1] == [s[0]] + s[1..][..n];
    }
  }

  lemma {:induction false} LineEndIs(s: Bytes, n: nat)
    requires n <= |s| && NEWLINE !in s[..n] && (n < |s| ==> s[n] == NEWLINE)
    ensures LineEnd(s) == n
  {
    var k := LineEnd(s);
    LineEndMeans(s);
    Unended(s, n);
    Unended(s, k);
  }

  lemma Unended(s: Bytes, n: nat)
    requires n <= |s| && NEWLINE !in s[..n]
    ensures forall i :: 0 <= i < n ==> s[i] != NEWLINE
  {
    forall i | 0 <= i < n
      ensures s[i] != NEWLINE
    {
      assert s[..n][i] == s[i];
    }
  }

  /** The whole input, line by line; an empty last line is not a line. */
  function Whole<S, P>(f: Projector<S, P>, st: S, s: Bytes): seq<P>
    decreases |s|
  {
    var n := LineEnd(s);
    if n == |s| then
      if s == [] then f.finish(st).out
      else
        var last := f.line(st, s, false);
        last.out + f.finish(last.state).out
    else
      var first := f.line(st, s[..n], true);
      first.out + Whole(f, first.state, s[n + 1..])
  }

  datatype Drained<S, P> = Drained(state: S, out: seq<P>, buf: Bytes)

  /** Write's loop: every complete line in the buffer. */
  function Drain<S, P>(f: Projector<S, P>, st: S, buf: Bytes): Drained<S, P>
    decreases |buf|
  {
    var n := LineEnd(buf);
    if n == |buf| then Drained(st, [], buf)
    else
      var first := f.line(st, buf[..n], true);
      var rest := Drain(f, first.state, buf[n + 1..]);
      Drained(rest.state, first.out + rest.out, rest.buf)
  }

  /** One turn of Write's loop, onto what has been written before. */
  lemma DrainLine<S, P>(f: Projector<S, P>, st: S, buf: Bytes, dst: seq<P>)
    requires LineEnd(buf) < |buf|
    ensures var n := LineEnd(buf);
      var first := f.line(st, buf[..n], true);
      var d, rest := Drain(f, st, buf), Drain(f, first.state, buf[n + 1..]);
      dst + d.out == (dst + first.out) + rest.out && d.state == rest.state && d.buf == rest.buf
  {
  }

  lemma {:induction false} DrainHoldsNoLine<S, P>(f: Projector<S, P>, st: S, buf: Bytes)
    ensures NEWLINE !in Drain(f, st, buf).buf
    decreases |buf|
  {
    var n := LineEnd(buf);
    if n == |buf| {
      LineEndMeans(buf);
      assert buf[..n] == buf;
    } else {
      DrainHoldsNoLine(f, f.line(st, buf[..n], true).state, buf[n + 1..]);
    }
  }

  function Close<S, P>(f: Projector<S, P>, st: S, buf: Bytes): seq<P> {
    if buf == [] then f.finish(st).out
    else
      var last := f.line(st, buf, false);
      last.out + f.finish(last.state).out
  }

  /** Write for each chunk, then Close. */
  function Stream<S, P>(f: Projector<S, P>, st: S, buf: Bytes, chunks: seq<Bytes>): seq<P>
    decreases |chunks|
  {
    if chunks == [] then Close(f, st, buf)
    else
      var d := Drain(f, st, buf + chunks[0]);
      d.out + Stream(f, d.state, d.buf, chunks[1..])
  }

  /** Lines already complete do not depend on what follows. */
  lemma {:induction false} DrainResidual<S, P>(f: Projector<S, P>, st: S, buf: Bytes, rest: Bytes)
    ensures var d := Drain(f, st, buf); Whole(f, st, buf + rest) == d.out + Whole(f, d.state, d.buf + rest)
    decreases |buf|
  {
    var n := LineEnd(buf);
    if n < |buf| {
      var first := f.line(st, buf[..n], true);
      WholeStep(f, st, buf, rest, n);
      DrainResidual(f, first.state, buf[n + 1..], rest);
      var d := Drain(f, first.state, buf[n + 1..]);
      assert first.out + (d.out + Whole(f, d.state, d.buf + rest)) == (first.out + d.out) + Whole(f, d.state, d.buf + rest);
    }
  }

  lemma WholeStep<S, P>(f: Projector<S, P>, st: S, buf: Bytes, rest: Bytes, n: nat)
    requires LineEnd(buf) == n < |buf|
    ensures var first := f.line(st, buf[..n], true);
      Whole(f, st, buf + rest) == first.out + Whole(f, first.state, buf[n + 1..] + rest)
  {
    LineEndMeans(buf);
    assert (buf + rest)[..n] == buf[..n];
    assert (buf + rest)[n + 1..] == buf[n + 1..] + rest;
    LineEndIs(buf + rest, n);
  }

  lemma CloseIsWhole<S, P>(f: Projector<S, P>, st: S, buf: Bytes)
    requires NEWLINE !in buf
    ensures Close(f, st, buf) == Whole(f, st, buf)
  {
    assert buf[..|buf|] == buf;
    LineEndIs(buf, |buf|);
  }

  /** For every chunking, the output is the whole input's, line by line. */
  lemma {:induction false} StreamIsWhole<S, P>(f: Projector<S, P>, st: S, buf: Bytes, chunks: seq<Bytes>)
    requires NEWLINE !in buf
    ensures Stream(f, st, buf, chunks) == Whole(f, st, buf + Concat(chunks))
    decreases |chunks|
  {
    if chunks == [] {
      CloseIsWhole(f, st, buf);
      assert buf + Concat(chunks) == buf;
    } else {
      var d := Drain(f, st, buf + chunks[0]);
      DrainHoldsNoLine(f, st, buf + chunks[0]);
      StreamIsWhole(f, d.state, d.buf, chunks[1..]);
      DrainResidual(f, st, buf + chunks[0], Concat(chunks[1..]));
      Assoc(buf, chunks[0], Concat(chunks[1..]));
    }
  }

  /** The lines of an input: the terminated ones, then what is left. */
  datatype Line = Line(text: Bytes, ended: bool)

  function Lines(s: Bytes): seq<Line>
    decreases |s|
  {
    var n := LineEnd(s);
    if s == [] then [] else if n == |s| then [Line(s, false)] else [Line(s[..n], true)] + Lines(s[n + 1..])
  }

  function Project<S, P>(f: Projector<S, P>, st: S, lines: seq<Line>): Step<S, P>
    decreases |lines|
  {
    if lines == [] then Step(st, [])
    else
      var first := f.line(st, lines[0].text, lines[0].ended);
      var rest := Project(f, first.state, lines[1..]);
      Step(rest.state, first.out + rest.out)
  }

  lemma {:induction false} WholeIsProject<S, P>(f: Projector<S, P>, st: S, s: Bytes)
    ensures var p := Project(f, st, Lines(s)); Whole(f, st, s) == p.out + f.finish(p.state).out
    decreases |s|
  {
    var n := LineEnd(s);
    if s == [] {
    } else if n == |s| {
      var lines := Lines(s);
      assert lines[1..] == [];
      var first := f.line(st, s, false);
      assert first.out + [] == first.out;
    } else {
      var first := f.line(st, s[..n], true);
      var lines := Lines(s);
      assert lines[1..] == Lines(s[n + 1..]);
      WholeIsProject(f, first.state, s[n + 1..]);
      var p := Project(f, first.state, Lines(s[n + 1..]));
      assert first.out + (p.out + f.finish(p.state).out) == (first.out + p.out) + f.finish(p.state).out;
    }
  }
}
