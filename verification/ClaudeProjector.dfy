/** claudeStreamProjector (data-plane/cmd/agent/claude_stream.go): Claude Code's
    stream-json standard output as the text a session keeps. JSON decoding is the
    parameter `decode`; None is a line json.Unmarshal refuses. */
module ClaudeProjector {
  import opened Wrappers
  import opened Bytes
  import opened LineFraming

  datatype Envelope = Envelope(kind: string, result: Bytes, event: string,
                               deltaKind: string, deltaText: Bytes, blockKind: string, blockText: Bytes)

  type Decoder = Bytes -> Option<Envelope>

  /** One write to the destination, by what it is. */
  datatype Piece = Text(text: Bytes) | Result(result: Bytes) | Break | Raw(line: Bytes)

  datatype Message = Message(hasText: bool, newline: bool, projected: bool)

  const QUIET := Message(false, false, false)

  function Payload(p: Piece): Bytes {
    match p
    case Text(t) => t
    case Result(t) => t
    case Break => [NEWLINE]
    case Raw(l) => l
  }

  function Render(ps: seq<Piece>): Bytes { if ps == [] then [] else Payload(ps[0]) + Render(ps[1..]) }

  function WriteText(m: Message, p: Piece): Step<Message, Piece>
    requires Payload(p) != []
  {
    var text := Payload(p);
    Step(Message(true, text[|text| - 1] == NEWLINE, true), [p])
  }

  function FinishMessage(m: Message): Step<Message, Piece> {
    Step(m.(hasText := false, newline := false), if m.hasText && !m.newline then [Break] else [])
  }

  function ProjectLine(decode: Decoder, m: Message, line: Bytes, hadNewline: bool): Step<Message, Piece> {
    var envelope := if line == [] then None else decode(line);
    if envelope.None? then Step(m, [Raw(line)] + if hadNewline then [Raw([NEWLINE])] else [])
    else
      var e := envelope.value;
      if e.kind == "stream_event" then
        if e.event == "content_block_start" then
          if e.blockKind == "text" && e.blockText != [] then WriteText(m, Text(e.blockText)) else Step(m, [])
        else if e.event == "content_block_delta" then
          if e.deltaKind == "text_delta" && e.deltaText != [] then WriteText(m, Text(e.deltaText)) else Step(m, [])
        else if e.event == "message_stop" then FinishMessage(m)
        else Step(m, [])
      else if e.kind == "result" && !m.projected && e.result != [] then
        var w := WriteText(m, Result(e.result));
        Step(FinishMessage(w.state).state, w.out + FinishMessage(w.state).out)
      else Step(m, [])
  }

  function Projection(decode: Decoder): Projector<Message, Piece> {
    Projector((m, line, hadNewline) => ProjectLine(decode, m, line, hadNewline), FinishMessage)
  }

  /** Chunking of the process's output never shows. */
  lemma ChunksNeverShow(decode: Decoder, chunks: seq<Bytes>)
    ensures Stream(Projection(decode), QUIET, [], chunks) == Whole(Projection(decode), QUIET, Concat(chunks))
  {
    StreamIsWhole(Projection(decode), QUIET, [], chunks);
    assert [] + Concat(chunks) == Concat(chunks);
  }

  ghost predicate Streamed(ps: seq<Piece>) { exists p :: p in ps && p.Text? }

  /** The result record is a fallback: whatever the input, one run never holds both
      streamed text before it and the result, nor two results. */
  ghost predicate ResultIsFallback(ps: seq<Piece>) {
    forall i, j :: 0 <= i < j < |ps| && ps[j].Result? ==> !ps[i].Text? && !ps[i].Result?
  }

  ghost predicate NoAnswer(ps: seq<Piece>) { forall p :: p in ps ==> !p.Text? && !p.Result? }

  lemma LineAnswers(decode: Decoder, m: Message, line: Bytes, hadNewline: bool)
    ensures var s := ProjectLine(decode, m, line, hadNewline);
      && (m.projected ==> s.state.projected && forall p :: p in s.out ==> !p.Result?)
      && (!s.state.projected ==> NoAnswer(s.out))
      && ResultIsFallback(s.out)
  {
  }

  lemma {:induction false} ProjectAnswers(decode: Decoder, m: Message, lines: seq<Line>)
    ensures var s := Project(Projection(decode), m, lines);
      && (m.projected ==> forall p :: p in s.out ==> !p.Result?)
      && ResultIsFallback(s.out)
    decreases |lines|
  {
    if lines != [] {
      LineAnswers(decode, m, lines[0].text, lines[0].ended);
      var first := ProjectLine(decode, m, lines[0].text, lines[0].ended);
      ProjectAnswers(decode, first.state, lines[1..]);
      var rest := Project(Projection(decode), first.state, lines[1..]);
      Joined(first.out, rest.out, first.state.projected);
    }
  }

  lemma Joined(a: seq<Piece>, b: seq<Piece>, projected: bool)
    requires ResultIsFallback(a) && ResultIsFallback(b)
    requires !projected ==> NoAnswer(a)
    requires projected ==> forall p :: p in b ==> !p.Result?
    ensures ResultIsFallback(a + b)
  {
    forall i, j | 0 <= i < j < |a + b| && (a + b)[j].Result?
      ensures !(a + b)[i].Text? && !(a + b)[i].Result?
    {
      if |a| <= j {
        assert b[j - |a|] in b;
        if i < |a| { assert a[i] in a; }
      }
    }
  }

  lemma FallbackOnly(decode: Decoder, chunks: seq<Bytes>)
    ensures ResultIsFallback(Stream(Projection(decode), QUIET, [], chunks))
  {
    ChunksNeverShow(decode, chunks);
    var s := Concat(chunks);
    WholeIsProject(Projection(decode), QUIET, s);
    ProjectAnswers(decode, QUIET, Lines(s));
    var p := Project(Projection(decode), QUIET, Lines(s));
    assert forall q :: q in FinishMessage(p.state).out ==> q.Break?;
  }

  /** The projector object; `dst` is everything written to it so far. */
  class ClaudeStreamProjector {
    const decode: Decoder
    var dst: seq<Piece>
    var buf: Bytes
    var messageHasText: bool
    var messageNewline: bool
    var projectedText: bool

    function State(): Message
      reads this
    {
      Message(messageHasText, messageNewline, projectedText)
    }

    constructor (decode: Decoder)
      ensures this.decode == decode && dst == [] && buf == [] && State() == QUIET
    {
      this.decode := decode;
      dst, buf, messageHasText, messageNewline, projectedText := [], [], false, false, false;
    }

    method Write(chunk: Bytes)
      modifies this
      ensures var d := Drain(Projection(decode), old(State()), old(buf) + chunk);
        State() == d.state && dst == old(dst) + d.out && buf == d.buf
    {
      buf := buf + chunk;
      ghost var d := Drain(Projection(decode), State(), buf);
      while true
        invariant var e := Drain(Projection(decode), State(), buf);
          e.state == d.state && e.buf == d.buf && dst + e.out == old(dst) + d.out
        decreases |buf|
      {
        var newline := LineEnd(buf);
        if newline == |buf| { break; }
        var line := buf[..newline];
        DrainLine(Projection(decode), State(), buf, dst);
        buf := buf[newline + 1..];
        ProjectLineInto(line, true);
      }
    }

    method ProjectLineInto(line: Bytes, hadNewline: bool)
      modifies this
      ensures var s := ProjectLine(decode, old(State()), line, hadNewline);
        State() == s.state && dst == old(dst) + s.out && buf == old(buf)
    {
      var envelope := if line == [] then None else decode(line);
      if envelope.None? {
        dst := dst + [Raw(line)];
        if hadNewline { dst := dst + [Raw([NEWLINE])]; }
        return;
      }
      var e := envelope.value;
      if e.kind == "stream_event" {
        if e.event == "content_block_start" {
          if e.blockKind == "text" && e.blockText != [] { WriteTextInto(Text(e.blockText)); }
        } else if e.event == "content_block_delta" {
          if e.deltaKind == "text_delta" && e.deltaText != [] { WriteTextInto(Text(e.deltaText)); }
        } else if e.event == "message_stop" {
          FinishMessageInto();
        }
        return;
      }
      if e.kind == "result" && !projectedText && e.result != [] {
        WriteTextInto(Result(e.result));
        FinishMessageInto();
      }
    }

    method WriteTextInto(p: Piece)
      requires Payload(p) != []
      modifies this
      ensures var s := WriteText(old(State()), p); State() == s.state && dst == old(dst) + s.out && buf == old(buf)
    {
      var text := Payload(p);
      dst := dst + [p];
      messageHasText, projectedText := true, true;
      messageNewline := text[|text| - 1] == NEWLINE;
    }

    method FinishMessageInto()
      modifies this
      ensures var s := FinishMessage(old(State())); State() == s.state && dst == old(dst) + s.out && buf == old(buf)
    {
      if messageHasText && !messageNewline { dst := dst + [Break]; }
      messageHasText, messageNewline := false, false;
    }

    method Close()
      modifies this
      ensures dst == old(dst) + LineFraming.Close(Projection(decode), old(State()), old(buf)) && buf == []
    {
      if buf != [] {
        var line := buf;
        buf := [];
        ProjectLineInto(line, false);
      }
      FinishMessageInto();
    }
  }
}
