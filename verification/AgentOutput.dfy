/** From a process's standard output to the session's record: a projector, the UTF-8
    normalizer, the redacting sink and the bounded record, with the platform's own
    notices arriving at any time (data-plane/cmd/agent/claude.go). */
module AgentOutput {
  import opened Bytes
  import opened OutputSink
  import opened Scrollback
  import ClaudeProjector
  import CodexProjector
  import LineFraming
  import MiniMaxProjector
  import Redactor
  import Utf8

  // --------------------------------------------------- notices between the writes

  /** A write to the sink of the running turn, or an appendPlatformNotice. */
  datatype Event = Out(p: Bytes) | Notice(text: Bytes)

  /** A piece of the record, by who appended it. */
  datatype Part = Run(text: Bytes) | Platform(text: Bytes)

  function OnEvent(s: Sink, e: Event, k: Limits): Sink {
    match e
    case Out(p) => WriteSink(s, p, k)
    case Notice(text) => s.(buf := AppendBounded(s.buf, Strip(text), k.limit, k.marker))
  }

  function OnEvents(s: Sink, es: seq<Event>, k: Limits): Sink
    decreases |es|
  {
    if es == [] then s else OnEvents(OnEvent(s, es[0], k), es[1..], k)
  }

  function Outs(es: seq<Event>): seq<Bytes>
    decreases |es|
  {
    if es == [] then [] else (if es[0].Out? then [es[0].p] else []) + Outs(es[1..])
  }

  function Notices(es: seq<Event>): seq<Bytes>
    decreases |es|
  {
    if es == [] then [] else (if es[0].Notice? then [Strip(es[0].text)] else []) + Notices(es[1..])
  }

  function Texts(parts: seq<Part>): seq<Bytes>
    decreases |parts|
  {
    if parts == [] then [] else [parts[0].text] + Texts(parts[1..])
  }

  function RunParts(parts: seq<Part>): Bytes
    decreases |parts|
  {
    if parts == [] then [] else (if parts[0].Run? then parts[0].text else []) + RunParts(parts[1..])
  }

  function PlatformParts(parts: seq<Part>): seq<Bytes>
    decreases |parts|
  {
    if parts == [] then [] else (if parts[0].Platform? then [parts[0].text] else []) + PlatformParts(parts[1..])
  }

  lemma {:induction false} PartsSnoc(parts: seq<Part>, part: Part)
    ensures Texts(parts + [part]) == Texts(parts) + [part.text]
    ensures RunParts(parts + [part]) == RunParts(parts) + if part.Run? then part.text else []
    ensures PlatformParts(parts + [part]) == PlatformParts(parts) + if part.Platform? then [part.text] else []
    decreases |parts|
  {
    if parts == [] {
      assert [part][1..] == [] && parts + [part] == [part];
    } else {
      var first, rest := parts[0], parts[1..];
      assert (parts + [part])[0] == first && (parts + [part])[1..] == rest + [part];
      PartsSnoc(rest, part);
      Assoc(if first.Run? then first.text else [], RunParts(rest), if part.Run? then part.text else []);
      Joins([first.text], Texts(rest), [part.text]);
      Joins(if first.Platform? then [first.text] else [], PlatformParts(rest), if part.Platform? then [part.text] else []);
    }
  }

  lemma Joins(a: seq<Bytes>, b: seq<Bytes>, c: seq<Bytes>)
    ensures (a + b) + c == a + (b + c)
  {
  }

  lemma {:induction false} AppendAllSnoc(base: Bytes, ps: seq<Bytes>, p: Bytes, limit: int, marker: Bytes)
    ensures AppendAll(base, ps + [p], limit, marker) == AppendBounded(AppendAll(base, ps, limit, marker), p, limit, marker)
    decreases |ps|
  {
    if ps == [] {
      assert [p][1..] == [] && ps + [p] == [p];
    } else {
      assert (ps + [p])[1..] == ps[1..] + [p];
      AppendAllSnoc(AppendBounded(base, ps[0], limit, marker), ps[1..], p, limit, marker);
    }
  }

  /** The sink has released t and holds h; the record is base and the parts. */
  ghost predicate Woven(s: Sink, base: Bytes, t: Bytes, h: Bytes, parts: seq<Part>, k: Limits) {
    && Utf8.Valid(t) && Utf8.Valid(h) && !s.closed
    && s.buf == AppendAll(base, Texts(parts), k.limit, k.marker) && RunParts(parts) == Left(t, k.runLimit, k.note)
    && (s.full ==> Full(s.buf, k.limit, k.marker))
    && (!s.full ==> CapFor(s.cap, t, k.runLimit, k.note))
    && (!s.full && !s.cap.truncated ==> s.held == h)
  }

  lemma PartAppends(s: Sink, base: Bytes, parts: seq<Part>, part: Part, k: Limits)
    requires s.buf == AppendAll(base, Texts(parts), k.limit, k.marker)
    ensures AppendBounded(s.buf, part.text, k.limit, k.marker) == AppendAll(base, Texts(parts + [part]), k.limit, k.marker)
  {
    PartsSnoc(parts, part);
    AppendAllSnoc(base, Texts(parts), part.text, k.limit, k.marker);
  }

  lemma BoundWoven(s: Sink, base: Bytes, t: Bytes, h: Bytes, parts: seq<Part>, p: Bytes, k: Limits) returns (part: Part)
    requires Woven(s, base, t, h, parts, k) && Utf8.Valid(p) && TextLimits(k)
    ensures part.Run? && Woven(Bound(s, p, k), base, t + p, h, parts + [part], k)
  {
    hide Utf8.Valid;
    if s.full {
      var more := LeftGrows(t, p, k);
      part := Run(more);
      PartsSnoc(parts, part);
      PartAppends(s, base, parts, part, k);
    } else {
      var e := CapPush(s.cap, p, k.runLimit, k.note);
      CapStep(s.cap, t, p, k.runLimit, k.note);
      EmittedIsValid(s.cap, t, p, k);
      SessionTwice(s, e.text, e.note, k);
      part := Run(e.text + e.note);
      PartsSnoc(parts, part);
      PartAppends(s, base, parts, part, k);
      BoundIsPush(s, p, k);
    }
  }

  /** Every way of Bound, an empty or truncated one too, is one push of the cap. */
  lemma BoundIsPush(s: Sink, p: Bytes, k: Limits)
    requires !s.full
    ensures var e := CapPush(s.cap, p, k.runLimit, k.note);
      Bound(s, p, k) == Session(Session(s, e.text, k), e.note, k).(cap := e.cap)
  {
  }

  lemma WriteWoven(s: Sink, base: Bytes, t: Bytes, h: Bytes, parts: seq<Part>, p: Bytes, k: Limits) returns (part: Part)
    requires Woven(s, base, t, h, parts, k) && Utf8.Valid(p) && p != [] && TextLimits(k)
    ensures var d := Redactor.Drain(k.literals, h + Strip(p), false);
      part.Run? && Woven(WriteSink(s, p, k), base, t + Redactor.Render(d.segs), d.pending, parts + [part], k)
  {
    hide Utf8.Valid;
    var d := Redactor.Drain(k.literals, h + Strip(p), false);
    StripIsValid(p);
    Utf8.ValidAppend(h, Strip(p));
    DrainAligned(k.literals, h + Strip(p), false);
    var fed := if s.full || s.cap.truncated then s else s.(held := d.pending);
    assert Woven(fed, base, t, d.pending, parts, k);
    part := BoundWoven(fed, base, t, d.pending, parts, Redactor.Render(d.segs), k);
  }

  lemma NoticeWoven(s: Sink, base: Bytes, t: Bytes, h: Bytes, parts: seq<Part>, text: Bytes, k: Limits)
    requires Woven(s, base, t, h, parts, k)
    ensures Woven(OnEvent(s, Notice(text), k), base, t, h, parts + [Platform(Strip(text))], k)
  {
    hide Utf8.Valid;
    PartsSnoc(parts, Platform(Strip(text)));
    PartAppends(s, base, parts, Platform(Strip(text)), k);
  }

  lemma FlushWoven(s: Sink, base: Bytes, t: Bytes, h: Bytes, parts: seq<Part>, k: Limits) returns (part: Part)
    requires Woven(s, base, t, h, parts, k) && TextLimits(k)
    ensures part.Run? && Woven(Flush(s, k), base, t + Redactor.Redact(k.literals, h), [], parts + [part], k)
  {
    hide Utf8.Valid;
    hide AppendAll;
    var p := Redactor.Redact(k.literals, h);
    Redactor.FinishIsRedact(k.literals, h);
    DrainAligned(k.literals, h, true);
    Utf8.EmptyIsValid();
    var fed := if s.full || s.cap.truncated then s else s.(held := []);
    assert Woven(fed, base, t, [], parts, k);
    part := BoundWoven(fed, base, t, [], parts, p, k);
    assert Flush(s, k) == Bound(fed, p, k);
  }

  lemma TailWoven(f: Sink, base: Bytes, t: Bytes, parts: seq<Part>, k: Limits)
    requires Woven(f, base, t, [], parts, k)
    ensures var g := if !f.cap.truncated && f.cap.tail != [] then Session(f, f.cap.tail, k) else f;
      var rest := Run(HeldBack(t, k.runLimit, k.note));
      && g.buf == AppendAll(base, Texts(parts + [rest]), k.limit, k.marker)
      && RunParts(parts + [rest]) == RunText(t, k.runLimit, k.note)
      && PlatformParts(parts + [rest]) == PlatformParts(parts)
  {
    hide Utf8.Valid;
    hide AppendAll;
    var rest := HeldBack(t, k.runLimit, k.note);
    RunTextIsLeft(t, k.runLimit, k.note);
    PartsSnoc(parts, Run(rest));
    PartAppends(f, base, parts, Run(rest), k);
    assert PlatformParts(parts) + [] == PlatformParts(parts);
    assert !f.full ==> rest == if f.cap.truncated then [] else f.cap.tail;
  }

  /** The record at the end of a run that released ran while the notices came. */
  ghost predicate Ends(record: Bytes, base: Bytes, ran: Bytes, notices: seq<Bytes>, parts: seq<Part>, k: Limits) {
    && record == AppendAll(base, Texts(parts), k.limit, k.marker)
    && RunParts(parts) == RunText(ran, k.runLimit, k.note) && PlatformParts(parts) == notices
  }

  lemma CloseWoven(f: Sink, s: Sink, base: Bytes, t: Bytes, parts: seq<Part>, k: Limits) returns (all: seq<Part>)
    requires f == Flush(s, k) && !s.closed && Woven(f, base, t, [], parts, k)
    ensures Ends(CloseSink(s, k).buf, base, t, PlatformParts(parts), all, k)
  {
    TailWoven(f, base, t, parts, k);
    all := parts + [Run(HeldBack(t, k.runLimit, k.note))];
  }

  ghost predicate OutsValid(es: seq<Event>) { AllValid(Outs(es)) }

  /** All that the redactor releases from here on. */
  function Released(h: Bytes, es: seq<Event>, k: Limits): Bytes {
    Redactor.Render(Redactor.Stream(k.literals, h, Fed(Outs(es))))
  }

  lemma NoticeFirst(t: Bytes, h: Bytes, es: seq<Event>, notices: seq<Bytes>, k: Limits)
    requires es != [] && es[0].Notice?
    ensures Outs(es) == Outs(es[1..]) && Released(h, es, k) == Released(h, es[1..], k)
    ensures notices + Notices(es) == (notices + [Strip(es[0].text)]) + Notices(es[1..])
  {
    assert [] + Outs(es[1..]) == Outs(es[1..]);
  }

  lemma OutFirst(t: Bytes, h: Bytes, es: seq<Event>, k: Limits)
    requires es != [] && es[0].Out? && OutsValid(es)
    ensures Utf8.Valid(es[0].p) && OutsValid(es[1..]) && Notices(es) == Notices(es[1..])
    ensures es[0].p == [] ==> Released(h, es, k) == Released(h, es[1..], k)
    ensures es[0].p != [] ==>
      var d := Redactor.Drain(k.literals, h + Strip(es[0].p), false);
      t + Released(h, es, k) == (t + Redactor.Render(d.segs)) + Released(d.pending, es[1..], k)
  {
    hide Utf8.Valid;
    var p := es[0].p;
    assert Outs(es) == [p] + Outs(es[1..]) && Outs(es)[1..] == Outs(es[1..]);
    assert p in Outs(es) && forall q :: q in Outs(es[1..]) ==> q in Outs(es);
    assert [] + Notices(es[1..]) == Notices(es[1..]);
    if p == [] {
      assert Fed(Outs(es)) == Fed(Outs(es[1..]));
    } else {
      var d := Redactor.Drain(k.literals, h + Strip(p), false);
      assert Fed(Outs(es)) == [Strip(p)] + Fed(Outs(es[1..])) && Fed(Outs(es))[1..] == Fed(Outs(es[1..]));
      var rest := Redactor.Stream(k.literals, d.pending, Fed(Outs(es[1..])));
      Redactor.RenderAppend(d.segs, rest);
      Assoc(t, Redactor.Render(d.segs), Redactor.Render(rest));
    }
  }

  lemma {:induction false} EventsWoven(s: Sink, base: Bytes, t: Bytes, h: Bytes, parts: seq<Part>, es: seq<Event>, k: Limits)
    returns (all: seq<Part>)
    requires Woven(s, base, t, h, parts, k) && OutsValid(es) && TextLimits(k)
    ensures Ends(CloseSink(OnEvents(s, es, k), k).buf, base, t + Released(h, es, k), PlatformParts(parts) + Notices(es), all, k)
    decreases |es|
  {
    hide Woven;
    hide Ends;
    hide OutsValid;
    hide CloseSink;
    hide WriteSink;
    hide Redactor.Drain;
    hide Utf8.Valid;
    if es == [] {
      var part := FlushWoven(s, base, t, h, parts, k);
      PartsSnoc(parts, part);
      Redactor.FinishIsRedact(k.literals, h);
      assert PlatformParts(parts) + [] == PlatformParts(parts);
      assert !s.closed by { OpenWoven(s, base, t, h, parts, k); }
      all := CloseWoven(Flush(s, k), s, base, t + Redactor.Redact(k.literals, h), parts + [part], k);
    } else if es[0].Notice? {
      NoticeFirst(t, h, es, PlatformParts(parts), k);
      assert OutsValid(es[1..]) by { SameOuts(es, es[1..]); }
      NoticeWoven(s, base, t, h, parts, es[0].text, k);
      PartsSnoc(parts, Platform(Strip(es[0].text)));
      all := EventsWoven(OnEvent(s, es[0], k), base, t, h, parts + [Platform(Strip(es[0].text))], es[1..], k);
    } else {
      OutFirst(t, h, es, k);
      var d := Redactor.Drain(k.literals, h + Strip(es[0].p), false);
      if es[0].p == [] {
        EmptyWrite(s, k);
        all := EventsWoven(s, base, t, h, parts, es[1..], k);
      } else {
        var part := WriteWoven(s, base, t, h, parts, es[0].p, k);
        PartsSnoc(parts, part);
        assert PlatformParts(parts) + [] == PlatformParts(parts);
        all := EventsWoven(WriteSink(s, es[0].p, k), base, t + Redactor.Render(d.segs), d.pending, parts + [part], es[1..], k);
      }
    }
  }

  lemma OpenWoven(s: Sink, base: Bytes, t: Bytes, h: Bytes, parts: seq<Part>, k: Limits)
    requires Woven(s, base, t, h, parts, k)
    ensures !s.closed
  {
  }

  lemma SameOuts(a: seq<Event>, b: seq<Event>)
    requires OutsValid(a) && Outs(a) == Outs(b)
    ensures OutsValid(b)
  {
  }

  lemma EmptyWrite(s: Sink, k: Limits)
    ensures WriteSink(s, [], k) == s
  {
  }

  /** However notices fall between the writes of a run, the record is the bounded append
      of the run's own capped text, in pieces, and of the notices, each whole and in
      their order. */
  lemma NoticesInterleave(base: Bytes, es: seq<Event>, k: Limits) returns (parts: seq<Part>)
    requires OutsValid(es) && TextLimits(k)
    ensures Ends(CloseSink(OnEvents(NewSink(base), es, k), k).buf, base, Released([], es, k), Notices(es), parts, k)
  {
    assert Left([], k.runLimit, k.note) == [];
    assert Woven(NewSink(base), base, [], [], [], k);
    parts := EventsWoven(NewSink(base), base, [], [], [], es, k);
    assert [] + Released([], es, k) == Released([], es, k) && [] + Notices(es) == Notices(es);
  }

  // ------------------------------------------------------------ the whole pipeline

  /** What a run leaves of the bytes its projector writes. */
  function Kept(text: Bytes, k: Limits): Bytes {
    RunText(Redactor.Redact(k.literals, Strip(Utf8.Normalize(text))), k.runLimit, k.note)
  }

  /** A record to which a run added its text and the platform its notices, in pieces. */
  ghost predicate RecordHolds(record: Bytes, base: Bytes, text: Bytes, notices: seq<Bytes>, k: Limits) {
    exists parts: seq<Part> ::
      && record == AppendAll(base, Texts(parts), k.limit, k.marker)
      && RunParts(parts) == text && PlatformParts(parts) == notices
  }

  lemma WritesAreKept(base: Bytes, writes: seq<Bytes>, es: seq<Event>, k: Limits)
    requires TextLimits(k) && Redactor.NoEarlyMatch(k.literals) && Outs(es) == Utf8.Stream([], writes)
    ensures RecordHolds(CloseSink(OnEvents(NewSink(base), es, k), k).buf, base, Kept(Concat(writes), k), Notices(es), k)
  {
    Utf8.PiecesAreValid([], writes);
    Utf8.StreamIsNormalize([], writes);
    assert [] + Concat(writes) == Concat(writes);
    var parts := NoticesInterleave(base, es, k);
    Redactor.StreamIsRedact(k.literals, [], Fed(Outs(es)));
    FedConcat(Outs(es));
    assert [] + Concat(Fed(Outs(es))) == Concat(Fed(Outs(es)));
    assert RunParts(parts) == Kept(Concat(writes), k);
  }

  function ClaudeWrites(ps: seq<ClaudeProjector.Piece>): seq<Bytes> {
    seq(|ps|, i requires 0 <= i < |ps| => ClaudeProjector.Payload(ps[i]))
  }

  lemma {:induction false} ClaudeConcat(ps: seq<ClaudeProjector.Piece>)
    ensures Concat(ClaudeWrites(ps)) == ClaudeProjector.Render(ps)
    decreases |ps|
  {
    if ps != [] {
      assert ClaudeWrites(ps)[1..] == ClaudeWrites(ps[1..]);
      ClaudeConcat(ps[1..]);
    }
  }

  /** For every chunking of Claude Code's standard output and notices at any point, the
      record gains the capped, redacted, well-formed projection of the whole output. */
  lemma ClaudeRun(decode: ClaudeProjector.Decoder, chunks: seq<Bytes>, base: Bytes, es: seq<Event>, k: Limits)
    requires TextLimits(k) && Redactor.NoEarlyMatch(k.literals)
    requires var f := ClaudeProjector.Projection(decode);
      Outs(es) == Utf8.Stream([], ClaudeWrites(LineFraming.Stream(f, ClaudeProjector.QUIET, [], chunks)))
    ensures var whole := LineFraming.Whole(ClaudeProjector.Projection(decode), ClaudeProjector.QUIET, Concat(chunks));
      RecordHolds(CloseSink(OnEvents(NewSink(base), es, k), k).buf, base, Kept(ClaudeProjector.Render(whole), k), Notices(es), k)
  {
    var f := ClaudeProjector.Projection(decode);
    var ps := LineFraming.Stream(f, ClaudeProjector.QUIET, [], chunks);
    ClaudeProjector.ChunksNeverShow(decode, chunks);
    ClaudeConcat(ps);
    WritesAreKept(base, ClaudeWrites(ps), es, k);
  }

  const OVERSIZED := Ascii("[session-platform: dropped an oversized codex record]\n")

  function CodexPayload(p: CodexProjector.Piece): Bytes { if p.Dropped? then OVERSIZED else p.line }

  function CodexWrites(ps: seq<CodexProjector.Piece>): seq<Bytes> {
    seq(|ps|, i requires 0 <= i < |ps| => CodexPayload(ps[i]))
  }

  lemma CodexRun(c: CodexProjector.Codec, chunks: seq<Bytes>, base: Bytes, es: seq<Event>, k: Limits)
    requires TextLimits(k) && Redactor.NoEarlyMatch(k.literals)
    requires var f := CodexProjector.Projection(c);
      Outs(es) == Utf8.Stream([], CodexWrites(CodexProjector.Stream(f, CodexProjector.State([], false), chunks)))
    ensures var whole := CodexProjector.Whole(CodexProjector.Projection(c), Concat(chunks));
      RecordHolds(CloseSink(OnEvents(NewSink(base), es, k), k).buf, base, Kept(Concat(CodexWrites(whole)), k), Notices(es), k)
  {
    var f := CodexProjector.Projection(c);
    CodexProjector.ChunksNeverShow(f, chunks);
    WritesAreKept(base, CodexWrites(CodexProjector.Whole(f, Concat(chunks))), es, k);
  }

  function MiniMaxPayload(p: MiniMaxProjector.Piece): Bytes {
    match p
    case Text(_, text) => text
    case Break => [NEWLINE]
    case Raw(line) => line
  }

  function MiniMaxWrites(ps: seq<MiniMaxProjector.Piece>): seq<Bytes> {
    seq(|ps|, i requires 0 <= i < |ps| => MiniMaxPayload(ps[i]))
  }

  lemma MiniMaxRun(decode: MiniMaxProjector.Decoder, chunks: seq<Bytes>, base: Bytes, es: seq<Event>, k: Limits)
    requires TextLimits(k) && Redactor.NoEarlyMatch(k.literals)
    requires var f := MiniMaxProjector.Projection(decode);
      Outs(es) == Utf8.Stream([], MiniMaxWrites(LineFraming.Stream(f, MiniMaxProjector.QUIET, [], chunks)))
    ensures var whole := LineFraming.Whole(MiniMaxProjector.Projection(decode), MiniMaxProjector.QUIET, Concat(chunks));
      RecordHolds(CloseSink(OnEvents(NewSink(base), es, k), k).buf, base, Kept(Concat(MiniMaxWrites(whole)), k), Notices(es), k)
  {
    var f := MiniMaxProjector.Projection(decode);
    MiniMaxProjector.ChunksNeverShow(decode, chunks);
    WritesAreKept(base, MiniMaxWrites(LineFraming.Whole(f, MiniMaxProjector.QUIET, Concat(chunks))), es, k);
  }
}
