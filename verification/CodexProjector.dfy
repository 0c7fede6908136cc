/** codexStreamProjector (data-plane/cmd/agent/codex_stream.go): one JSON record per
    line, with a bound on the line kept in memory. JSON decoding and oneLine are parameters. */
module CodexProjector {
  import opened Wrappers
  import opened Bytes
  import LineFraming

  const MAX_RECORD: nat := 8 * 1024 * 1024

  /** "[session-platform: dropped an oversized codex record]\n" */
  datatype Piece = Dropped | Shown(line: Bytes)

  datatype Item = Item(kind: string, text: Bytes, server: Bytes, tool: Bytes, status: string, error: Bytes)

  /** What a line is once decoded: strings are already taken out of their raw JSON. */
  datatype Decoded =
    | Blank
    | NotJson
    | Undecodable
    | Record(kind: string, text: Bytes, message: Bytes, error: Bytes, item: Option<Item>)

  datatype Codec = Codec(decode: Bytes -> Decoded, oneLine: Bytes -> Bytes)

  const CARRIAGE_RETURN: Byte := 13
  const ERROR_LEAD: Bytes := [101, 114, 114, 111, 114, 58, 32]                       // "error: "
  const CALL_LEAD: Bytes := [0xc2, 0xb7, 32]                                         // "· "
  const COLON: Bytes := [58, 32]
  const FAILED: Bytes := [102, 97, 105, 108, 101, 100]                               // "failed"
  const UNNAMED_ERROR: Bytes :=                                                      // "codex reported an error"
    [99, 111, 100, 101, 120, 32, 114, 101, 112, 111, 114, 116, 101, 100, 32, 97, 110, 32, 101, 114, 114, 111, 114]

  function WriteLine(text: Bytes): seq<Piece> {
    [Shown(if text != [] && text[|text| - 1] == NEWLINE then text else text + [NEWLINE])]
  }

  function WriteError(c: Codec, message: Bytes): seq<Piece> {
    WriteLine(ERROR_LEAD + c.oneLine(if message == [] then UNNAMED_ERROR else message))
  }

  function ProjectItem(c: Codec, event: string, item: Item): seq<Piece> {
    if item.kind == "agent_message" then
      if event == "item.completed" && item.text != [] then WriteLine(item.text) else []
    else if item.kind == "mcp_tool_call" then
      var name := c.oneLine(item.server) + [46] + c.oneLine(item.tool);
      if event == "item.started" then WriteLine(CALL_LEAD + name)
      else if item.error == [] && item.status != "failed" then []
      else WriteLine(ERROR_LEAD + name + COLON + c.oneLine(if item.error == [] then FAILED else item.error))
    else []
  }

  function TrimReturn(line: Bytes): Bytes {
    if line != [] && line[|line| - 1] == CARRIAGE_RETURN then line[..|line| - 1] else line
  }

  function ProjectLine(c: Codec, raw: Bytes): seq<Piece> {
    var line := TrimReturn(raw);
    match c.decode(line)
    case Blank => []
    case NotJson => WriteLine(line)
    case Undecodable => []
    case Record(kind, text, message, error, item) =>
      if kind == "session_platform.notice" then if text != [] then WriteLine(text) else []
      else if kind == "turn.failed" then WriteError(c, error)
      else if kind == "error" then WriteError(c, message)
      else if (kind == "item.started" || kind == "item.completed") && item.Some? then ProjectItem(c, kind, item.value)
      else []
  }

  // ------------------------------------------------------------------- framing

  function Projection(c: Codec): Bytes -> seq<Piece> { line => ProjectLine(c, line) }

  /** A line within the bound is projected; a longer one is one notice. */
  function LineOrNotice(f: Bytes -> seq<Piece>, line: Bytes): seq<Piece> {
    if |line| > MAX_RECORD then [Dropped] else f(line)
  }

  /** The whole input, line by line; nothing after the last newline is no line. */
  function Whole(f: Bytes -> seq<Piece>, s: Bytes): seq<Piece>
    decreases |s|
  {
    var n := LineFraming.LineEnd(s);
    if n == |s| then if s == [] then [] else LineOrNotice(f, s)
    else LineOrNotice(f, s[..n]) + Whole(f, s[n + 1..])
  }

  datatype State = State(buf: Bytes, discarding: bool)

  datatype Step = Step(state: State, out: seq<Piece>)

  /** One Write. */
  function Push(f: Bytes -> seq<Piece>, st: State, chunk: Bytes): Step
    decreases |chunk|
  {
    var n := LineFraming.LineEnd(chunk);
    if chunk == [] then Step(st, [])
    else if st.discarding then
      if n == |chunk| then Step(st, []) else Push(f, st.(discarding := false), chunk[n + 1..])
    else if n == |chunk| then
      if |st.buf| + |chunk| > MAX_RECORD then Step(State([], true), [Dropped])
      else Step(State(st.buf + chunk, false), [])
    else
      var out := if |st.buf| + n > MAX_RECORD then [Dropped] else f(st.buf + chunk[..n]);
      var rest := Push(f, State([], false), chunk[n + 1..]);
      Step(rest.state, out + rest.out)
  }

  function AtClose(f: Bytes -> seq<Piece>, st: State): seq<Piece> { if st.buf == [] then [] else f(st.buf) }

  function Stream(f: Bytes -> seq<Piece>, st: State, chunks: seq<Bytes>): seq<Piece>
    decreases |chunks|
  {
    if chunks == [] then AtClose(f, st)
    else
      var s := Push(f, st, chunks[0]);
      s.out + Stream(f, s.state, chunks[1..])
  }

  /** What is still to come, given the input not yet read: a line being discarded
      contributes nothing more. */
  function Rest(f: Bytes -> seq<Piece>, st: State, more: Bytes): seq<Piece> {
    if st.discarding then
      var n := LineFraming.LineEnd(more);
      if n == |more| then [] else Whole(f, more[n + 1..])
    else Whole(f, st.buf + more)
  }

  predicate Kept(st: State) {
    && NEWLINE !in st.buf && |st.buf| <= MAX_RECORD
    && (st.discarding ==> st.buf == [])
  }

  lemma LineAcross(f: Bytes -> seq<Piece>, buf: Bytes, chunk: Bytes, n: nat, rest: Bytes)
    requires NEWLINE !in buf && n == LineFraming.LineEnd(chunk) < |chunk|
    ensures Whole(f, buf + chunk + rest) == LineOrNotice(f, buf + chunk[..n]) + Whole(f, chunk[n + 1..] + rest)
  {
    var s := buf + chunk + rest;
    LineFraming.LineEndMeans(chunk);
    assert s[..|buf| + n] == buf + chunk[..n] && s[|buf| + n + 1..] == chunk[n + 1..] + rest;
    LineFraming.LineEndIs(s, |buf| + n);
  }

  lemma SkipsAcross(f: Bytes -> seq<Piece>, chunk: Bytes, rest: Bytes)
    ensures var n := LineFraming.LineEnd(chunk);
      Rest(f, State([], true), chunk + rest) ==
        if n == |chunk| then Rest(f, State([], true), rest) else Whole(f, chunk[n + 1..] + rest)
  {
    var n := LineFraming.LineEnd(chunk);
    LineFraming.LineEndMeans(chunk);
    if n == |chunk| {
      var m := LineFraming.LineEnd(rest);
      assert chunk[..n] == chunk;
      LineEndAcross(chunk, rest, m);
      if m < |rest| {
        var tail := DropAcross(chunk, rest, m + 1);
        SkipsTo(f, rest, m, tail);
        SkipsTo(f, chunk + rest, n + m, tail);
      }
    } else {
      LineEndBefore(chunk, rest, n);
      SkipsTo(f, chunk + rest, n, chunk[n + 1..] + rest);
    }
  }

  lemma LineEndBefore(chunk: Bytes, rest: Bytes, n: nat)
    requires n == LineFraming.LineEnd(chunk) < |chunk|
    ensures LineFraming.LineEnd(chunk + rest) == n && (chunk + rest)[n + 1..] == chunk[n + 1..] + rest
  {
    LineFraming.LineEndMeans(chunk);
    assert (chunk + rest)[..n] == chunk[..n];
    LineFraming.LineEndIs(chunk + rest, n);
  }

  /** A line that has outgrown the bound: its notice is out, the rest is skipped. */
  lemma TooLong(f: Bytes -> seq<Piece>, held: Bytes, rest: Bytes)
    requires NEWLINE !in held && |held| > MAX_RECORD
    ensures Whole(f, held + rest) == [Dropped] + Rest(f, State([], true), rest)
  {
    var n := LineFraming.LineEnd(rest);
    LineEndAcross(held, rest, n);
    if n < |rest| {
      var tail := DropAcross(held, rest, n + 1);
      WholeLong(f, held + rest, |held| + n, tail);
      SkipsTo(f, rest, n, tail);
    } else {
      WholeLong(f, held + rest, |held| + n, []);
    }
  }

  lemma DropAcross(a: Bytes, b: Bytes, i: nat) returns (tail: Bytes)
    requires i <= |b|
    ensures tail == b[i..] == (a + b)[|a| + i..]
  {
    tail := b[i..];
    CutLater(a, b, i);
  }

  lemma SkipsTo(f: Bytes -> seq<Piece>, more: Bytes, n: nat, tail: Bytes)
    requires n == LineFraming.LineEnd(more) < |more| && tail == more[n + 1..]
    ensures Rest(f, State([], true), more) == Whole(f, tail)
  {
  }

  lemma WholeLong(f: Bytes -> seq<Piece>, s: Bytes, n: nat, tail: Bytes)
    requires LineFraming.LineEnd(s) == n > MAX_RECORD && (if n < |s| then tail == s[n + 1..] else tail == [])
    ensures Whole(f, s) == [Dropped] + Whole(f, tail)
  {
    if n < |s| {
      WholeFrom(f, s, n);
      assert |s[..n]| == n;
    }
  }

  lemma WholeFrom(f: Bytes -> seq<Piece>, s: Bytes, n: nat)
    requires LineFraming.LineEnd(s) == n < |s|
    ensures Whole(f, s) == LineOrNotice(f, s[..n]) + Whole(f, s[n + 1..])
  {
  }

  lemma LineEndAcross(held: Bytes, rest: Bytes, n: nat)
    requires NEWLINE !in held && n == LineFraming.LineEnd(rest)
    ensures LineFraming.LineEnd(held + rest) == |held| + n
  {
    CutLater(held, rest, n);
    LineFraming.LineEndMeans(rest);
    LineFraming.LineEndIs(held + rest, |held| + n);
  }

  lemma {:induction false} PushResidual(f: Bytes -> seq<Piece>, st: State, chunk: Bytes, rest: Bytes)
    requires Kept(st)
    ensures var s := Push(f, st, chunk); Kept(s.state) && Rest(f, st, chunk + rest) == s.out + Rest(f, s.state, rest)
    decreases |chunk|
  {
    var n := LineFraming.LineEnd(chunk);
    if chunk == [] {
      assert chunk + rest == rest;
    } else if st.discarding {
      SkipsAcross(f, chunk, rest);
      if n < |chunk| {
        PushResidual(f, State([], false), chunk[n + 1..], rest);
        assert [] + (chunk[n + 1..] + rest) == chunk[n + 1..] + rest;
      }
    } else {
      Assoc(st.buf, chunk, rest);
      if n == |chunk| {
        LineFraming.LineEndMeans(chunk);
        assert chunk[..n] == chunk;
        if |st.buf| + |chunk| > MAX_RECORD { TooLong(f, st.buf + chunk, rest); }
      } else {
        LineAcross(f, st.buf, chunk, n, rest);
        PushResidual(f, State([], false), chunk[n + 1..], rest);
        assert [] + (chunk[n + 1..] + rest) == chunk[n + 1..] + rest;
        var s := Push(f, State([], false), chunk[n + 1..]);
        var out := LineOrNotice(f, st.buf + chunk[..n]);
        assert out + (s.out + Rest(f, s.state, rest)) == (out + s.out) + Rest(f, s.state, rest);
      }
    }
  }

  /** For every chunking the output is the whole input's, line by line; a line over
      the bound is exactly one notice. */
  lemma {:induction false} StreamIsRest(f: Bytes -> seq<Piece>, st: State, chunks: seq<Bytes>)
    requires Kept(st)
    ensures Stream(f, st, chunks) == Rest(f, st, Concat(chunks))
    decreases |chunks|
  {
    if chunks == [] {
      assert st.buf + [] == st.buf && st.buf[..|st.buf|] == st.buf;
      LineFraming.LineEndIs(st.buf, |st.buf|);
    } else {
      PushResidual(f, st, chunks[0], Concat(chunks[1..]));
      StreamIsRest(f, Push(f, st, chunks[0]).state, chunks[1..]);
    }
  }

  lemma ChunksNeverShow(f: Bytes -> seq<Piece>, chunks: seq<Bytes>)
    ensures Stream(f, State([], false), chunks) == Whole(f, Concat(chunks))
  {
    StreamIsRest(f, State([], false), chunks);
    assert [] + Concat(chunks) == Concat(chunks);
  }

  // ----------------------------------------------------- what one input drops

  function Long(lines: seq<LineFraming.Line>): nat
    decreases |lines|
  {
    if lines == [] then 0 else (if |lines[0].text| > MAX_RECORD then 1 else 0) + Long(lines[1..])
  }

  function Drops(ps: seq<Piece>): nat
    decreases |ps|
  {
    if ps == [] then 0 else (if ps[0].Dropped? then 1 else 0) + Drops(ps[1..])
  }

  lemma {:induction false} DropsAppend(a: seq<Piece>, b: seq<Piece>)
    ensures Drops(a + b) == Drops(a) + Drops(b)
    decreases |a|
  {
    if a == [] {
      assert a + b == b;
    } else {
      DropsAppend(a[1..], b);
      assert (a + b)[1..] == a[1..] + b;
    }
  }

  /** As many notices as lines past the bound. */
  lemma {:induction false} OneNoticePerLongLine(c: Codec, s: Bytes)
    ensures Drops(Whole(Projection(c), s)) == Long(LineFraming.Lines(s))
    decreases |s|
  {
    var n := LineFraming.LineEnd(s);
    var lines := LineFraming.Lines(s);
    if s != [] && n == |s| {
      assert lines[1..] == [];
      LineDrops(c, s);
    } else if n < |s| {
      assert lines[1..] == LineFraming.Lines(s[n + 1..]);
      OneNoticePerLongLine(c, s[n + 1..]);
      LineDrops(c, s[..n]);
      DropsAppend(LineOrNotice(Projection(c), s[..n]), Whole(Projection(c), s[n + 1..]));
    }
  }

  lemma LineDrops(c: Codec, line: Bytes)
    ensures Drops(LineOrNotice(Projection(c), line)) == if |line| > MAX_RECORD then 1 else 0
  {
  }

  /** Every piece is whole lines: nothing the projector writes leaves a line open. */
  lemma {:induction false} WholeLines(c: Codec, s: Bytes)
    ensures forall p :: p in Whole(Projection(c), s) && p.Shown? ==> p.line != [] && p.line[|p.line| - 1] == NEWLINE
    decreases |s|
  {
    var n := LineFraming.LineEnd(s);
    if n < |s| {
      LineIsWhole(c, s[..n]);
      WholeLines(c, s[n + 1..]);
      WholeFrom(Projection(c), s, n);
    } else {
      LineIsWhole(c, s);
    }
  }

  ghost predicate EndLines(ps: seq<Piece>) {
    forall p :: p in ps && p.Shown? ==> p.line != [] && p.line[|p.line| - 1] == NEWLINE
  }

  lemma WriteLineEnds(text: Bytes)
    ensures EndLines(WriteLine(text))
  {
  }

  lemma ItemEnds(c: Codec, event: string, item: Item)
    ensures EndLines(ProjectItem(c, event, item))
  {
    hide WriteLine;
    forall text
      ensures EndLines(WriteLine(text))
    {
      WriteLineEnds(text);
    }
  }

  lemma LineIsWhole(c: Codec, line: Bytes)
    ensures EndLines(LineOrNotice(Projection(c), line))
  {
    hide WriteLine;
    hide ProjectItem;
    forall text
      ensures EndLines(WriteLine(text))
    {
      WriteLineEnds(text);
    }
    forall event, item
      ensures EndLines(ProjectItem(c, event, item))
    {
      ItemEnds(c, event, item);
    }
  }

  class CodexStreamProjector {
    const codec: Codec
    var dst: seq<Piece>
    var buf: Bytes
    var discarding: bool

    function Held(): State
      reads this
    {
      State(buf, discarding)
    }

    constructor (codec: Codec)
      ensures this.codec == codec && dst == [] && Held() == State([], false)
    {
      this.codec := codec;
      dst, buf, discarding := [], [], false;
    }

    method Write(all: Bytes)
      modifies this
      ensures var s := Push(Projection(codec), old(Held()), all); Held() == s.state && dst == old(dst) + s.out
    {
      hide ProjectLine;
      var chunk := all;
      ghost var s := Push(Projection(codec), Held(), all);
      while |chunk| > 0
        invariant var t := Push(Projection(codec), Held(), chunk); t.state == s.state && dst + t.out == old(dst) + s.out
        decreases |chunk|
      {
        var newline := LineFraming.LineEnd(chunk);
        if discarding {
          if newline == |chunk| { return; }
          discarding := false;
          chunk := chunk[newline + 1..];
          continue;
        }
        if newline == |chunk| {
          if |buf| + |chunk| > MAX_RECORD {
            buf, discarding := [], true;
            dst := dst + [Dropped];
            return;
          }
          buf := buf + chunk;
          return;
        }
        ghost var rest := Push(Projection(codec), State([], false), chunk[newline + 1..]).out;
        if |buf| + newline > MAX_RECORD {
          assert dst + ([Dropped] + rest) == (dst + [Dropped]) + rest;
          buf := [];
          dst := dst + [Dropped];
          chunk := chunk[newline + 1..];
          continue;
        }
        var line := buf + chunk[..newline];
        assert dst + (ProjectLine(codec, line) + rest) == (dst + ProjectLine(codec, line)) + rest;
        buf := [];
        chunk := chunk[newline + 1..];
        dst := dst + ProjectLine(codec, line);
      }
    }

    method Close()
      modifies this
      ensures dst == old(dst) + AtClose(Projection(codec), old(Held())) && Held() == State([], false)
    {
      var line := buf;
      buf, discarding := [], false;
      if line != [] { dst := dst + ProjectLine(codec, line); }
    }
  }
}
