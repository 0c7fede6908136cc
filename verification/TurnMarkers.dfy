/** The turn markers a session's record carries (beginTurn, endTurn and appendPlatformNotice,
    data-plane/cmd/agent/claude.go) and their reader (web/src/app/agentTranscript.ts). */
module TurnMarkers {
  import opened Wrappers
  import opened Bytes
  import opened LineFraming
  import Redactor
  import OutputSink
  import Scrollback
  import Utf8

  const SPACE: Byte := 32
  const RETURN: Byte := 13

  /** "session-platform " */
  const LEAD: Bytes := [115, 101, 115, 115, 105, 111, 110, 45, 112, 108, 97, 116, 102, 111, 114, 109, 32]
  const INPUT: Bytes := [105, 110, 112, 117, 116]
  const OUTPUT: Bytes := [111, 117, 116, 112, 117, 116]
  const END: Bytes := [101, 110, 100]
  const SEQ: Bytes := [32, 115, 101, 113, 61]                           // " seq="
  const AT: Bytes := [32, 97, 116, 61]                                  // " at="
  const STATUS: Bytes := [32, 115, 116, 97, 116, 117, 115, 61]          // " status="

  /** Bytes a marker field may hold. */
  predicate Plain(s: Bytes) { TURN_SENTINEL !in s && NEWLINE !in s && SPACE !in s }

  function Itoa(n: nat): (s: Bytes)
    ensures Plain(s) && s != []
  {
    if n < 10 then [(48 + n) as Byte] else Itoa(n / 10) + [(48 + n % 10) as Byte]
  }

  // ---------------------------------------------------------------- the record's shape

  /** A marker's header line, and everything up to the next marker. */
  datatype Section = Section(header: Bytes, body: Bytes)

  datatype Transcript = Transcript(first: Bytes, sections: seq<Section>)

  function EncodeSections(ss: seq<Section>): Bytes
    decreases |ss|
  {
    if ss == [] then [] else [TURN_SENTINEL] + ss[0].header + [NEWLINE] + ss[0].body + EncodeSections(ss[1..])
  }

  function Encode(t: Transcript): Bytes { t.first + EncodeSections(t.sections) }

  predicate Clean(text: Bytes) { TURN_SENTINEL !in text }

  ghost predicate WellMarked(t: Transcript) {
    Clean(t.first) && forall s :: s in t.sections ==> Clean(s.header) && NEWLINE !in s.header && Clean(s.body)
  }

  // --------------------------------------------------------------------- the reader

  /** raw.split(separator) */
  function Parts(separator: Byte, raw: Bytes): (ps: seq<Bytes>)
    ensures ps != []
    decreases |raw|
  {
    if raw == [] then [[]]
    else
      var rest := Parts(separator, raw[1..]);
      if raw[0] == separator then [[]] + rest else [[raw[0]] + rest[0]] + rest[1..]
  }

  /** A part with a header line; one without is skipped. */
  function SectionsOf(parts: seq<Bytes>): seq<Section>
    decreases |parts|
  {
    if parts == [] then []
    else
      var n := LineEnd(parts[0]);
      (if n < |parts[0]| then [Section(parts[0][..n], parts[0][n + 1..])] else []) + SectionsOf(parts[1..])
  }

  function Parse(raw: Bytes): Transcript { Transcript(Parts(TURN_SENTINEL, raw)[0], SectionsOf(Parts(TURN_SENTINEL, raw)[1..])) }

  lemma {:induction false} PartsAfter(separator: Byte, text: Bytes, raw: Bytes)
    requires separator !in text
    ensures Parts(separator, text + [separator] + raw) == [text] + Parts(separator, raw)
    decreases |text|
  {
    var all := text + [separator] + raw;
    if text == [] {
      assert all[1..] == raw;
    } else {
      assert all[1..] == text[1..] + [separator] + raw;
      PartsAfter(separator, text[1..], raw);
      assert [text[0]] + text[1..] == text;
      assert ([text[1..]] + Parts(separator, raw))[1..] == Parts(separator, raw);
    }
  }

  lemma {:induction false} PartsPlain(separator: Byte, text: Bytes)
    requires separator !in text
    ensures Parts(separator, text) == [text]
    decreases |text|
  {
    if text != [] {
      PartsPlain(separator, text[1..]);
      assert [text[0]] + text[1..] == text;
    }
  }

  /** The text between two sentinels of a well-marked record. */
  function Span(s: Section): Bytes { s.header + [NEWLINE] + s.body }

  function Spans(ss: seq<Section>): seq<Bytes>
    decreases |ss|
  {
    if ss == [] then [] else [Span(ss[0])] + Spans(ss[1..])
  }

  lemma {:induction false} EncodedParts(first: Bytes, ss: seq<Section>)
    requires Clean(first) && forall s :: s in ss ==> Clean(s.header) && Clean(s.body)
    ensures Parts(TURN_SENTINEL, first + EncodeSections(ss)) == [first] + Spans(ss)
    decreases |ss|
  {
    if ss == [] {
      assert first + [] == first;
      PartsPlain(TURN_SENTINEL, first);
    } else {
      var s, rest := ss[0], EncodeSections(ss[1..]);
      assert s in ss && Clean(Span(s));
      EncodedParts(Span(s), ss[1..]);
      EncodeHead(first, ss);
      PartsAfter(TURN_SENTINEL, first, Span(s) + rest);
    }
  }

  lemma EncodeHead(first: Bytes, ss: seq<Section>)
    requires ss != []
    ensures first + EncodeSections(ss) == first + [TURN_SENTINEL] + (Span(ss[0]) + EncodeSections(ss[1..]))
  {
    var s, rest := ss[0], EncodeSections(ss[1..]);
    assert [TURN_SENTINEL] + s.header + [NEWLINE] + s.body + rest == [TURN_SENTINEL] + (Span(s) + rest);
  }

  lemma {:induction false} SpansParse(ss: seq<Section>)
    requires forall s :: s in ss ==> NEWLINE !in s.header
    ensures SectionsOf(Spans(ss)) == ss
    decreases |ss|
  {
    if ss != [] {
      var s := ss[0];
      assert s in ss;
      SpanSplits(s);
      SpansParse(ss[1..]);
      assert Spans(ss)[1..] == Spans(ss[1..]);
    }
  }

  lemma SpanSplits(s: Section)
    requires NEWLINE !in s.header
    ensures LineEnd(Span(s)) == |s.header| < |Span(s)|
    ensures Span(s)[..|s.header|] == s.header && Span(s)[|s.header| + 1..] == s.body
  {
    assert Span(s)[..|s.header|] == s.header;
    LineEndIs(Span(s), |s.header|);
  }

  /** Reading back what was written gives exactly its sections: nothing in a prompt, an
      output or a notice can pass for a marker. */
  lemma ParseEncode(t: Transcript)
    requires WellMarked(t)
    ensures Parse(Encode(t)) == t
  {
    EncodedParts(t.first, t.sections);
    SpansParse(t.sections);
    assert ([t.first] + Spans(t.sections))[1..] == Spans(t.sections);
  }

  // --------------------------------------------------------------------- the writer

  datatype Op =
    | Notice(text: Bytes)                             // appendPlatformNotice
    | BeginTurn(number: nat, at: Bytes, prompt: Bytes)
    | Print(output: Bytes)                            // what a sink hands on, already sanitized
    | EndTurn(number: nat, status: Bytes, at: Bytes)

  predicate Allowed(op: Op) {
    match op
    case Notice(_) => true
    case BeginTurn(_, at, _) => Plain(at)
    case Print(output) => Clean(output)
    case EndTurn(_, status, at) => Plain(status) && Plain(at)
  }

  /** claudeTurnMarker, without its sentinel and newline. */
  function Header(kind: Bytes, number: nat, fields: Bytes): Bytes { LEAD + kind + SEQ + Itoa(number) + fields }

  function Marker(header: Bytes): Bytes { [TURN_SENTINEL] + header + [NEWLINE] }

  function TrimLineEnds(s: Bytes): Bytes
    decreases |s|
  {
    if s != [] && (s[|s| - 1] == NEWLINE || s[|s| - 1] == RETURN) then TrimLineEnds(s[..|s| - 1]) else s
  }

  /** The body of a turn's input: text, one line end, no sentinel. */
  function PromptBody(prompt: Bytes): (body: Bytes)
    ensures Clean(body)
  {
    OutputSink.Strip(TrimLineEnds(Utf8.ToValid(prompt, Utf8.RUNE_ERROR, false)) + [NEWLINE])
  }

  /** The prompt as the record shows it: one Push and one Finish of a redactor. */
  function Sanitized(literals: seq<Bytes>, prompt: Bytes): Bytes {
    Redactor.Render(Redactor.Stream(literals, [], [PromptBody(prompt)]))
  }

  /** The record shows the whole prompt's leftmost replacement, wherever that does not
      depend on the redactor's chunks. */
  lemma PromptIsRedacted(literals: seq<Bytes>, prompt: Bytes)
    requires Redactor.NoEarlyMatch(literals)
    ensures Sanitized(literals, prompt) == Redactor.Redact(literals, PromptBody(prompt))
  {
    Redactor.StreamIsRedact(literals, [], [PromptBody(prompt)]);
    ConcatSnoc([], PromptBody(prompt));
    assert [] + [PromptBody(prompt)] == [PromptBody(prompt)];
    assert [] + Concat([PromptBody(prompt)]) == PromptBody(prompt);
  }

  /** For any literals, every one that stands in the prompt is covered. */
  lemma PromptIsCovered(literals: seq<Bytes>, prompt: Bytes, literal: Bytes, i: nat)
    requires literal in literals && literal != [] && OccursAt(PromptBody(prompt), literal, i)
    ensures Redactor.Covers(Redactor.Stream(literals, [], [PromptBody(prompt)]), literal, i)
  {
    assert [] + Concat([PromptBody(prompt)]) == PromptBody(prompt) by {
      ConcatSnoc([], PromptBody(prompt));
      assert [] + [PromptBody(prompt)] == [PromptBody(prompt)];
    }
    Redactor.StreamCovers(literals, [], [PromptBody(prompt)], literal, i);
  }

  function BlockOf(literals: seq<Bytes>, op: Op): Bytes {
    match op
    case Notice(text) => OutputSink.Strip(text)
    case Print(output) => output
    case BeginTurn(n, at, prompt) =>
      Marker(Header(INPUT, n, AT + at)) + Sanitized(literals, prompt) + Marker(Header(OUTPUT, n, []))
    case EndTurn(n, status, at) => Marker(Header(END, n, STATUS + status + AT + at))
  }

  predicate IsBlock(op: Op) { op.BeginTurn? || op.EndTurn? }

  /** The block beginTurn appends. */
  method BeginTurnBlock(all: seq<Bytes>, number: nat, at: Bytes, prompt: Bytes) returns (block: Bytes)
    ensures block == BlockOf(Redactor.NonEmpty(all), BeginTurn(number, at, prompt))
  {
    var redactor := new Redactor.StreamingRedactor(all);
    var body := PromptBody(prompt);
    var first := redactor.Push(body);
    assert [] + body == body;
    Redactor.FinishIsRedact(redactor.literals, redactor.pending);
    var last := redactor.Finish();
    SanitizedInTwo(redactor.literals, prompt);
    block := Marker(Header(INPUT, number, AT + at)) + (first + last) + Marker(Header(OUTPUT, number, []));
  }

  lemma SanitizedInTwo(literals: seq<Bytes>, prompt: Bytes)
    ensures var d := Redactor.Drain(literals, [] + PromptBody(prompt), false);
      Sanitized(literals, prompt) ==
      Redactor.Render(d.segs) + Redactor.Render(Redactor.Drain(literals, d.pending, true).segs)
  {
    var d := Redactor.Drain(literals, [] + PromptBody(prompt), false);
    var last := Redactor.Drain(literals, d.pending, true).segs;
    assert [PromptBody(prompt)][1..] == [];
    assert Redactor.Stream(literals, d.pending, []) == last;
    assert Redactor.Stream(literals, [], [PromptBody(prompt)]) == Redactor.Append(d.segs, last);
    Redactor.RenderAppend(d.segs, last);
  }

  /** One append to the record; a turn block first ends an open line. */
  function Record(literals: seq<Bytes>, record: Bytes, op: Op): Bytes {
    if IsBlock(op) && !Scrollback.LineComplete(record) then record + ([NEWLINE] + BlockOf(literals, op))
    else record + BlockOf(literals, op)
  }

  /** The same, on sections. */
  function Extend(t: Transcript, text: Bytes): Transcript {
    if t.sections == [] then t.(first := t.first + text)
    else
      var k := |t.sections| - 1;
      t.(sections := t.sections[..k] + [t.sections[k].(body := t.sections[k].body + text)])
  }

  function Add(t: Transcript, header: Bytes, body: Bytes): Transcript {
    t.(sections := t.sections + [Section(header, body)])
  }

  function Closed(t: Transcript): Transcript { if Scrollback.LineComplete(Encode(t)) then t else Extend(t, [NEWLINE]) }

  function Transcribe(literals: seq<Bytes>, t: Transcript, op: Op): Transcript {
    match op
    case Notice(text) => Extend(t, OutputSink.Strip(text))
    case Print(output) => Extend(t, output)
    case BeginTurn(n, at, prompt) =>
      Add(Add(Closed(t), Header(INPUT, n, AT + at), Sanitized(literals, prompt)), Header(OUTPUT, n, []), [])
    case EndTurn(n, status, at) => Add(Closed(t), Header(END, n, STATUS + status + AT + at), [])
  }

  lemma {:induction false} EncodeAppend(a: seq<Section>, b: seq<Section>)
    ensures EncodeSections(a + b) == EncodeSections(a) + EncodeSections(b)
    decreases |a|
  {
    if a == [] {
      assert a + b == b;
    } else {
      EncodeAppend(a[1..], b);
      assert (a + b)[1..] == a[1..] + b;
      var head := [TURN_SENTINEL] + a[0].header + [NEWLINE] + a[0].body;
      Assoc(head, EncodeSections(a[1..]), EncodeSections(b));
    }
  }

  lemma EncodeOne(s: Section)
    ensures EncodeSections([s]) == Marker(s.header) + s.body
  {
    assert [s][1..] == [];
    assert [TURN_SENTINEL] + s.header + [NEWLINE] + s.body + [] == Marker(s.header) + s.body;
  }

  lemma AddEncodes(t: Transcript, header: Bytes, body: Bytes)
    ensures Encode(Add(t, header, body)) == Encode(t) + (Marker(header) + body)
  {
    EncodeAppend(t.sections, [Section(header, body)]);
    EncodeOne(Section(header, body));
    Assoc(t.first, EncodeSections(t.sections), Marker(header) + body);
  }

  lemma ExtendEncodes(t: Transcript, text: Bytes)
    ensures Encode(Extend(t, text)) == Encode(t) + text
  {
    if t.sections == [] {
      assert t.first + text + [] == t.first + [] + text;
    } else {
      var k := |t.sections| - 1;
      var last, before := t.sections[k], t.sections[..k];
      var longer := last.(body := last.body + text);
      assert t.sections == before + [last];
      EncodeAppend(before, [last]);
      EncodeAppend(before, [longer]);
      EncodeOne(last);
      EncodeOne(longer);
      Assoc(Marker(last.header), last.body, text);
      Assoc(EncodeSections(before), Marker(last.header) + last.body, text);
      Assoc(t.first, EncodeSections(t.sections), text);
    }
  }

  lemma ClosedEncodes(t: Transcript)
    ensures Encode(Closed(t)) == if Scrollback.LineComplete(Encode(t)) then Encode(t) else Encode(t) + [NEWLINE]
  {
    ExtendEncodes(t, [NEWLINE]);
  }

  /** Each append to the record is one operation on the sections. */
  lemma RecordIsTranscribe(literals: seq<Bytes>, t: Transcript, op: Op)
    ensures Record(literals, Encode(t), op) == Encode(Transcribe(literals, t, op))
  {
    match op {
      case Notice(text) => ExtendEncodes(t, OutputSink.Strip(text));
      case Print(output) => ExtendEncodes(t, output);
      case BeginTurn(n, at, prompt) =>
        BeginEncodes(Encode(t), Closed(t), Header(INPUT, n, AT + at), Sanitized(literals, prompt), Header(OUTPUT, n, []));
        ClosedEncodes(t);
        BlockJoins(Encode(t), BlockOf(literals, op));
      case EndTurn(n, status, at) =>
        ClosedEncodes(t);
        AddEncodes(Closed(t), Header(END, n, STATUS + status + AT + at), []);
        BlockJoins(Encode(t), BlockOf(literals, op));
        assert Marker(Header(END, n, STATUS + status + AT + at)) + [] == BlockOf(literals, op);
    }
  }

  lemma BlockJoins(record: Bytes, block: Bytes)
    ensures record + ([NEWLINE] + block) == (record + [NEWLINE]) + block
  {
  }

  lemma BeginEncodes(record: Bytes, t: Transcript, input: Bytes, body: Bytes, output: Bytes)
    ensures Encode(Add(Add(t, input, body), output, [])) == Encode(t) + (Marker(input) + body + Marker(output))
  {
    AddEncodes(t, input, body);
    AddEncodes(Add(t, input, body), output, []);
    assert Marker(output) + [] == Marker(output);
    Assoc(Encode(t), Marker(input) + body, Marker(output));
  }

  // ------------------------------------------------------------------- whole records

  lemma {:induction false} RedactIsClean(literals: seq<Bytes>, s: Bytes)
    requires Clean(s)
    ensures Clean(Redactor.Redact(literals, s))
    decreases |s|
  {
    match Redactor.FirstMatch(literals, s) {
      case None => Redactor.RedactNothing(literals, s);
      case Some(m) =>
        Redactor.RedactFirst(literals, s, m);
        RedactIsClean(literals, s[m.at + m.len..]);
    }
  }

  lemma {:induction false} RenderIsClean(segs: Redactor.Segs)
    requires Clean(Redactor.Source(segs))
    ensures Clean(Redactor.Render(segs))
  {
    match segs {
      case Done =>
      case Clean(text, next) => RenderIsClean(next);
      case Hidden(text, next) => RenderIsClean(next);
    }
  }

  lemma SanitizedIsClean(literals: seq<Bytes>, prompt: Bytes)
    ensures Clean(Sanitized(literals, prompt))
  {
    var body := PromptBody(prompt);
    Redactor.StreamSource(literals, [], [body]);
    ConcatSnoc([], body);
    assert [] + [body] == [body] && [] + Concat([body]) == body;
    RenderIsClean(Redactor.Stream(literals, [], [body]));
  }

  lemma ItoaHeader(kind: Bytes, n: nat, fields: Bytes)
    requires Clean(kind) && NEWLINE !in kind && Clean(fields) && NEWLINE !in fields
    ensures Clean(Header(kind, n, fields)) && NEWLINE !in Header(kind, n, fields)
  {
  }

  lemma ExtendMarked(t: Transcript, text: Bytes)
    requires WellMarked(t) && Clean(text)
    ensures WellMarked(Extend(t, text))
  {
  }

  lemma AddMarked(t: Transcript, header: Bytes, body: Bytes)
    requires WellMarked(t) && Clean(header) && NEWLINE !in header && Clean(body)
    ensures WellMarked(Add(t, header, body))
  {
  }

  lemma TranscribeMarked(literals: seq<Bytes>, t: Transcript, op: Op)
    requires WellMarked(t) && Allowed(op)
    ensures WellMarked(Transcribe(literals, t, op))
  {
    hide WellMarked;
    hide Encode;
    match op {
      case Notice(text) => ExtendMarked(t, OutputSink.Strip(text));
      case Print(output) => ExtendMarked(t, output);
      case BeginTurn(n, at, prompt) =>
        ExtendMarked(t, [NEWLINE]);
        SanitizedIsClean(literals, prompt);
        ItoaHeader(INPUT, n, AT + at);
        ItoaHeader(OUTPUT, n, []);
        AddMarked(Closed(t), Header(INPUT, n, AT + at), Sanitized(literals, prompt));
        AddMarked(Add(Closed(t), Header(INPUT, n, AT + at), Sanitized(literals, prompt)), Header(OUTPUT, n, []), []);
      case EndTurn(n, status, at) =>
        ExtendMarked(t, [NEWLINE]);
        ItoaHeader(END, n, STATUS + status + AT + at);
        AddMarked(Closed(t), Header(END, n, STATUS + status + AT + at), []);
    }
  }

  function RecordAll(literals: seq<Bytes>, record: Bytes, ops: seq<Op>): Bytes
    decreases |ops|
  {
    if ops == [] then record else RecordAll(literals, Record(literals, record, ops[0]), ops[1..])
  }

  function TranscribeAll(literals: seq<Bytes>, t: Transcript, ops: seq<Op>): Transcript
    decreases |ops|
  {
    if ops == [] then t else TranscribeAll(literals, Transcribe(literals, t, ops[0]), ops[1..])
  }

  ghost predicate AllAllowed(ops: seq<Op>) { forall op :: op in ops ==> Allowed(op) }

  lemma {:induction false} RecordAllEncodes(literals: seq<Bytes>, t: Transcript, ops: seq<Op>)
    requires WellMarked(t) && AllAllowed(ops)
    ensures RecordAll(literals, Encode(t), ops) == Encode(TranscribeAll(literals, t, ops))
    ensures WellMarked(TranscribeAll(literals, t, ops))
    decreases |ops|
  {
    if ops != [] {
      assert ops[0] in ops && forall op :: op in ops[1..] ==> op in ops;
      RecordIsTranscribe(literals, t, ops[0]);
      TranscribeMarked(literals, t, ops[0]);
      RecordAllEncodes(literals, Transcribe(literals, t, ops[0]), ops[1..]);
    }
  }

  const NOTHING := Transcript([], [])

  /** Parsing the recorded bytes of any turns and notices recovers every section. */
  lemma RecordParses(literals: seq<Bytes>, ops: seq<Op>)
    requires AllAllowed(ops)
    ensures Parse(RecordAll(literals, [], ops)) == TranscribeAll(literals, NOTHING, ops)
  {
    RecordAllEncodes(literals, NOTHING, ops);
    assert Encode(NOTHING) == [];
    ParseEncode(TranscribeAll(literals, NOTHING, ops));
  }

  /** Below the session's limit a bounded append of the block is exactly this append. */
  lemma FitsIsRecord(literals: seq<Bytes>, record: Bytes, op: Op, limit: int, marker: Bytes)
    requires |Record(literals, record, op)| <= Scrollback.DataLimit(limit, marker)
    ensures var block := BlockOf(literals, op);
      Record(literals, record, op) ==
      Scrollback.AppendBounded(record, if IsBlock(op) && !Scrollback.LineComplete(record) then [NEWLINE] + block else block, limit, marker)
  {
    assert record + [] == record;
  }

  /** What a run's sink puts in the record holds no sentinel, whatever the process wrote. */
  lemma RunTextIsClean(literals: seq<Bytes>, raw: Bytes, runLimit: int, note: Bytes)
    requires Clean(note)
    ensures Clean(OutputSink.RunText(Redactor.Redact(literals, OutputSink.Strip(raw)), runLimit, note))
  {
    RedactIsClean(literals, OutputSink.Strip(raw));
  }

  // ------------------------------------------------------------------------ one turn

  function TextOf(op: Op): Bytes {
    match op
    case Notice(text) => OutputSink.Strip(text)
    case Print(output) => output
    case _ => []
  }

  function Texts(ops: seq<Op>): Bytes
    decreases |ops|
  {
    if ops == [] then [] else TextOf(ops[0]) + Texts(ops[1..])
  }

  lemma {:induction false} TextsExtend(literals: seq<Bytes>, t: Transcript, ops: seq<Op>)
    requires t.sections != [] && forall op :: op in ops ==> !IsBlock(op)
    ensures TranscribeAll(literals, t, ops) == Extend(t, Texts(ops))
    decreases |ops|
  {
    var k := |t.sections| - 1;
    if ops == [] {
      assert t.sections[k].body + [] == t.sections[k].body;
      assert t.sections == t.sections[..k] + [t.sections[k]];
    } else {
      assert ops[0] in ops;
      var u := Extend(t, TextOf(ops[0]));
      TextsExtend(literals, u, ops[1..]);
      assert u.sections[..k] == t.sections[..k] && |u.sections| == k + 1;
      Assoc(t.sections[k].body, TextOf(ops[0]), Texts(ops[1..]));
    }
  }

  /** A newline completes an output that does not end in one. */
  function Completed(text: Bytes): Bytes { if Scrollback.LineComplete(text) then text else text + [NEWLINE] }

  lemma LastByte(t: Transcript)
    requires t.sections != []
    ensures Scrollback.LineComplete(Encode(t)) == Scrollback.LineComplete(t.sections[|t.sections| - 1].body)
  {
    var k := |t.sections| - 1;
    var last := t.sections[k];
    assert t.sections == t.sections[..k] + [last];
    EncodeAppend(t.sections[..k], [last]);
    EncodeOne(last);
    assert Encode(t) == t.first + (EncodeSections(t.sections[..k]) + (Marker(last.header) + last.body));
  }

  /** What one turn leaves: its sanitized prompt, everything printed and announced while
      it ran with its last line completed, and its status. */
  function TurnSections(literals: seq<Bytes>, n: nat, at: Bytes, prompt: Bytes, text: Bytes, status: Bytes,
                        ended: Bytes): seq<Section> {
    [Section(Header(INPUT, n, AT + at), Sanitized(literals, prompt)),
     Section(Header(OUTPUT, n, []), Completed(text)),
     Section(Header(END, n, STATUS + status + AT + ended), [])]
  }

  lemma TurnIsRecorded(literals: seq<Bytes>, t: Transcript, n: nat, at: Bytes, prompt: Bytes, during: seq<Op>,
                       status: Bytes, ended: Bytes)
    requires forall op :: op in during ==> !IsBlock(op)
    ensures var begun := Transcribe(literals, t, BeginTurn(n, at, prompt));
      var ran := TranscribeAll(literals, begun, during);
      Transcribe(literals, ran, EndTurn(n, status, ended)) ==
      Transcript(Closed(t).first, Closed(t).sections + TurnSections(literals, n, at, prompt, Texts(during), status, ended))
  {
    hide Sanitized;
    hide Encode;
    hide Header;
    var begun := Transcribe(literals, t, BeginTurn(n, at, prompt));
    var text := Texts(during);
    TextsExtend(literals, begun, during);
    var ran := Extend(begun, text);
    var k := |begun.sections| - 1;
    assert [] + text == text;
    LastByte(ran);
    assert ran.sections[k].body == text;
    assert Closed(ran).sections == begun.sections[..k] + [Section(Header(OUTPUT, n, []), Completed(text))];
    assert begun.sections[..k] == Closed(t).sections + [Section(Header(INPUT, n, AT + at), Sanitized(literals, prompt))];
  }

  // ------------------------------------------------------- kinds, statuses and numbers

  /** The first word after the lead; no kind without it. */
  function KindOf(header: Bytes): Bytes {
    if LEAD <= header then Parts(SPACE, header[|LEAD|..])[0] else []
  }

  const STATUS_KEY: Bytes := [115, 116, 97, 116, 117, 115, 61]   // "status="

  /** s begins with a white space character of the reader's pattern, in UTF-8. */
  predicate White(s: Bytes) {
    && s != []
    && (|| 9 <= s[0] <= 13 || s[0] == SPACE
        || [0xc2, 0xa0] <= s || [0xe1, 0x9a, 0x80] <= s || [0xe3, 0x80, 0x80] <= s || [0xef, 0xbb, 0xbf] <= s
        || [0xe2, 0x80, 0xa8] <= s || [0xe2, 0x80, 0xa9] <= s || [0xe2, 0x80, 0xaf] <= s || [0xe2, 0x81, 0x9f] <= s
        || (|s| > 2 && s[0] == 0xe2 && s[1] == 0x80 && 0x80 <= s[2] <= 0x8a))
  }

  /** What comes before the first white space. */
  function NonWhite(s: Bytes): Bytes { if s == [] || White(s) then [] else [s[0]] + NonWhite(s[1..]) }

  /** The first word that gives a status a value. */
  function FirstStatus(words: seq<Bytes>): Option<Bytes>
    decreases |words|
  {
    if words == [] then None
    else if STATUS_KEY <= words[0] && NonWhite(words[0][|STATUS_KEY|..]) != [] then
      Some(NonWhite(words[0][|STATUS_KEY|..]))
    else FirstStatus(words[1..])
  }

  /** Bytes of visible ASCII characters, as all of claudeTurnStatus's are. */
  predicate Visible(s: Bytes) { forall b :: b in s ==> 33 <= b < 127 }

  lemma {:induction false} VisibleIsNonWhite(s: Bytes)
    requires Visible(s)
    ensures NonWhite(s) == s
  {
    if s != [] {
      assert s[0] in s && forall b :: b in s[1..] ==> b in s;
      VisibleIsNonWhite(s[1..]);
    }
  }

  function StatusOf(header: Bytes): Option<Bytes> { FirstStatus(Parts(SPACE, header)) }

  lemma KindIsRead(kind: Bytes, n: nat, fields: Bytes)
    requires SPACE !in kind
    ensures KindOf(Header(kind, n, fields)) == kind
  {
    var rest := SEQ[1..] + Itoa(n) + fields;
    var h := Header(kind, n, fields);
    assert h == LEAD + (kind + [SPACE] + rest) by { assert SEQ == [SPACE] + SEQ[1..]; }
    assert h[|LEAD|..] == kind + [SPACE] + rest;
    PartsAfter(SPACE, kind, rest);
  }

  /** The words of an end marker. */
  lemma EndWords(n: nat, status: Bytes, at: Bytes)
    requires Plain(status) && Plain(at)
    ensures Parts(SPACE, Header(END, n, STATUS + status + AT + at)) ==
            [LEAD[..16]] + ([END] + ([SEQ[1..] + Itoa(n)] + ([STATUS_KEY + status] + [AT[1..] + at])))
  {
    var w1, w2, w3, w4, w5 := LEAD[..16], END, SEQ[1..] + Itoa(n), STATUS_KEY + status, AT[1..] + at;
    var r4 := w4 + [SPACE] + w5;
    var r3 := w3 + [SPACE] + r4;
    var r2 := w2 + [SPACE] + r3;
    HeaderInWords(n, status, at);
    PartsPlain(SPACE, w5);
    PartsAfter(SPACE, w4, w5);
    PartsAfter(SPACE, w3, r4);
    PartsAfter(SPACE, w2, r3);
    PartsAfter(SPACE, w1, r2);
  }

  lemma HeaderInWords(n: nat, status: Bytes, at: Bytes)
    ensures Header(END, n, STATUS + status + AT + at) ==
            LEAD[..16] + [SPACE] + (END + [SPACE] + ((SEQ[1..] + Itoa(n)) + [SPACE] + ((STATUS_KEY + status) + [SPACE] + (AT[1..] + at))))
  {
    assert LEAD == LEAD[..16] + [SPACE];
    assert SEQ == [SPACE] + SEQ[1..] && STATUS == [SPACE] + STATUS_KEY && AT == [SPACE] + AT[1..];
  }

  lemma StatusIsRead(n: nat, status: Bytes, at: Bytes)
    requires Visible(status) && Plain(at) && status != []
    ensures StatusOf(Header(END, n, STATUS + status + AT + at)) == Some(status)
  {
    VisibleIsNonWhite(status);
    EndWords(n, status, at);
    var words := Parts(SPACE, Header(END, n, STATUS + status + AT + at));
    assert words[0] == LEAD[..16] && words[0][2] != STATUS_KEY[2];
    assert words[1..] == [END] + ([SEQ[1..] + Itoa(n)] + ([STATUS_KEY + status] + [AT[1..] + at]));
    assert words[1..][1..] == [SEQ[1..] + Itoa(n)] + ([STATUS_KEY + status] + [AT[1..] + at]);
    assert words[1..][1..][1..] == [STATUS_KEY + status] + [AT[1..] + at];
    SkipWord(words);
    assert |END| < |STATUS_KEY|;
    SkipWord(words[1..]);
    assert words[1..][1..][0][1] == SEQ[2] && SEQ[2] != STATUS_KEY[1];
    SkipWord(words[1..][1..]);
    assert (STATUS_KEY + status)[|STATUS_KEY|..] == status;
  }

  lemma SkipWord(words: seq<Bytes>)
    requires words != [] && !(STATUS_KEY <= words[0])
    ensures FirstStatus(words) == FirstStatus(words[1..])
  {
  }

  /** "\u001esession-platform input " */
  const INPUT_MARK: Bytes := [TURN_SENTINEL] + LEAD + INPUT + [SPACE]

  /** bytes.Count of the input mark: what a restore takes for the number of turns. */
  function CountInputs(s: Bytes): nat
    decreases |s|
  {
    if s == [] then 0
    else if INPUT_MARK <= s then 1 + CountInputs(s[|INPUT_MARK|..])
    else CountInputs(s[1..])
  }

  predicate IsInput(s: Section) { LEAD + INPUT + [SPACE] <= s.header }

  function Inputs(ss: seq<Section>): nat
    decreases |ss|
  {
    if ss == [] then 0 else (if IsInput(ss[0]) then 1 else 0) + Inputs(ss[1..])
  }

  predicate StartsMarked(s: Bytes) { s == [] || s[0] == TURN_SENTINEL }

  lemma {:induction false} CountSkips(text: Bytes, rest: Bytes)
    requires Clean(text) && StartsMarked(rest)
    ensures CountInputs(text + rest) == CountInputs(rest)
    decreases |text|
  {
    if text == [] {
      assert text + rest == rest;
    } else {
      assert (text + rest)[0] == text[0] != INPUT_MARK[0];
      assert (text + rest)[1..] == text[1..] + rest;
      CountSkips(text[1..], rest);
    }
  }

  lemma MarkOrNot(s: Section, rest: Bytes)
    requires NEWLINE !in s.header
    ensures INPUT_MARK <= [TURN_SENTINEL] + (Span(s) + rest) <==> IsInput(s)
  {
    var whole := [TURN_SENTINEL] + (Span(s) + rest);
    var key := LEAD + INPUT + [SPACE];
    assert INPUT_MARK == [TURN_SENTINEL] + key;
    if IsInput(s) {
      assert whole[..|INPUT_MARK|] == INPUT_MARK by { assert s.header[..|key|] == key; }
    }
    if INPUT_MARK <= whole {
      assert key == (Span(s) + rest)[..|key|] by { assert whole[1..] == Span(s) + rest; }
      assert NEWLINE !in key && (Span(s) + rest)[|s.header|] == NEWLINE;
      assert forall i :: 0 <= i < |key| ==> key[i] == (Span(s) + rest)[i] && key[i] in key;
      assert s.header[..|key|] == key;
    }
  }

  lemma CountStep(s: Section, rest: Bytes)
    requires Clean(s.header) && NEWLINE !in s.header && Clean(s.body) && StartsMarked(rest)
    ensures CountInputs([TURN_SENTINEL] + (Span(s) + rest)) == (if IsInput(s) then 1 else 0) + CountInputs(rest)
  {
    var whole := [TURN_SENTINEL] + (Span(s) + rest);
    MarkOrNot(s, rest);
    var n := if IsInput(s) then |INPUT_MARK| else 1;
    var left := Span(s)[n - 1..];
    assert whole[n..] == left + rest;
    CountSkips(left, rest);
  }

  lemma {:induction false} CountIsInputs(ss: seq<Section>)
    requires forall s :: s in ss ==> Clean(s.header) && NEWLINE !in s.header && Clean(s.body)
    ensures CountInputs(EncodeSections(ss)) == Inputs(ss)
    decreases |ss|
  {
    if ss != [] {
      var s, rest := ss[0], EncodeSections(ss[1..]);
      assert s in ss;
      CountIsInputs(ss[1..]);
      EncodedStarts(ss[1..]);
      CountStep(s, rest);
      EncodeHead([], ss);
      assert [] + EncodeSections(ss) == EncodeSections(ss) && [] + [TURN_SENTINEL] == [TURN_SENTINEL];
    }
  }

  lemma {:induction false} InputsAppend(a: seq<Section>, b: seq<Section>)
    ensures Inputs(a + b) == Inputs(a) + Inputs(b)
    decreases |a|
  {
    if a == [] {
      assert a + b == b;
    } else {
      assert (a + b)[1..] == a[1..] + b;
      InputsAppend(a[1..], b);
    }
  }

  function Begun(ops: seq<Op>): nat
    decreases |ops|
  {
    if ops == [] then 0 else (if ops[0].BeginTurn? then 1 else 0) + Begun(ops[1..])
  }

  lemma ExtendInputs(t: Transcript, text: Bytes)
    ensures Inputs(Extend(t, text).sections) == Inputs(t.sections)
  {
    if t.sections != [] {
      var k := |t.sections| - 1;
      var last := t.sections[k];
      assert t.sections == t.sections[..k] + [last];
      InputsAppend(t.sections[..k], [last]);
      InputsAppend(t.sections[..k], [last.(body := last.body + text)]);
    }
  }

  lemma AddInputs(t: Transcript, header: Bytes, body: Bytes)
    ensures Inputs(Add(t, header, body).sections) == Inputs(t.sections) + if IsInput(Section(header, body)) then 1 else 0
  {
    InputsAppend(t.sections, [Section(header, body)]);
    assert [Section(header, body)][1..] == [];
  }

  lemma HeaderKinds(n: nat, fields: Bytes, body: Bytes)
    ensures IsInput(Section(Header(INPUT, n, fields), body))
    ensures !IsInput(Section(Header(OUTPUT, n, fields), body)) && !IsInput(Section(Header(END, n, fields), body))
  {
    assert Header(INPUT, n, fields) == (LEAD + INPUT + [SPACE]) + (SEQ[1..] + Itoa(n) + fields) by { assert SEQ == [SPACE] + SEQ[1..]; }
    assert Header(OUTPUT, n, fields)[|LEAD|] == OUTPUT[0] && (LEAD + INPUT + [SPACE])[|LEAD|] == INPUT[0];
    assert Header(END, n, fields)[|LEAD|] == END[0];
  }

  lemma TranscribeInputs(literals: seq<Bytes>, t: Transcript, op: Op)
    ensures Inputs(Transcribe(literals, t, op).sections) == Inputs(t.sections) + if op.BeginTurn? then 1 else 0
  {
    match op {
      case Notice(text) => ExtendInputs(t, OutputSink.Strip(text));
      case Print(output) => ExtendInputs(t, output);
      case BeginTurn(n, at, prompt) =>
        ExtendInputs(t, [NEWLINE]);
        AddInputs(Closed(t), Header(INPUT, n, AT + at), Sanitized(literals, prompt));
        AddInputs(Add(Closed(t), Header(INPUT, n, AT + at), Sanitized(literals, prompt)), Header(OUTPUT, n, []), []);
        HeaderKinds(n, AT + at, Sanitized(literals, prompt));
        HeaderKinds(n, [], []);
      case EndTurn(n, status, at) =>
        ExtendInputs(t, [NEWLINE]);
        AddInputs(Closed(t), Header(END, n, STATUS + status + AT + at), []);
        HeaderKinds(n, STATUS + status + AT + at, []);
    }
  }

  lemma {:induction false} TranscribeAllInputs(literals: seq<Bytes>, t: Transcript, ops: seq<Op>)
    ensures Inputs(TranscribeAll(literals, t, ops).sections) == Inputs(t.sections) + Begun(ops)
    decreases |ops|
  {
    if ops != [] {
      TranscribeInputs(literals, t, ops[0]);
      TranscribeAllInputs(literals, Transcribe(literals, t, ops[0]), ops[1..]);
    }
  }

  /** Counting input markers in the record gives the number of turns it holds, so a
      restored agent goes on with the next number. */
  lemma TurnsAreCounted(literals: seq<Bytes>, ops: seq<Op>)
    requires AllAllowed(ops)
    ensures CountInputs(RecordAll(literals, [], ops)) == Begun(ops)
  {
    RecordAllEncodes(literals, NOTHING, ops);
    assert Encode(NOTHING) == [];
    var t := TranscribeAll(literals, NOTHING, ops);
    TranscribeAllInputs(literals, NOTHING, ops);
    CountIsInputs(t.sections);
    EncodedStarts(t.sections);
    CountSkips(t.first, EncodeSections(t.sections));
  }

  lemma EncodedStarts(ss: seq<Section>)
    ensures StartsMarked(EncodeSections(ss))
  {
  }

  /** Numbers given in order, from the count a restore starts with. */
  predicate Numbered(ops: seq<Op>, from: nat)
    decreases |ops|
  {
    ops == [] ||
    if ops[0].BeginTurn? then ops[0].number == from + 1 && Numbered(ops[1..], from + 1) else Numbered(ops[1..], from)
  }

  lemma {:induction false} NumbersBelow(ops: seq<Op>, from: nat, i: nat)
    requires Numbered(ops, from) && i < |ops| && ops[i].BeginTurn?
    ensures from < ops[i].number <= from + Begun(ops)
    decreases |ops|
  {
    if i > 0 { NumbersBelow(ops[1..], if ops[0].BeginTurn? then from + 1 else from, i - 1); }
  }

  /** The number after a restore is new. */
  lemma NumbersNotReused(literals: seq<Bytes>, ops: seq<Op>, i: nat)
    requires AllAllowed(ops) && Numbered(ops, 0) && i < |ops| && ops[i].BeginTurn?
    ensures ops[i].number < CountInputs(RecordAll(literals, [], ops)) + 1
  {
    TurnsAreCounted(literals, ops);
    NumbersBelow(ops, 0, i);
  }

  // ------------------------------------------------------------ renderAgentTranscript

  const PROMPT_LEAD: Bytes := [0xe2, 0x96, 0xb8, 32]          // "▸ "
  const INDENT: Bytes := [10, 32, 32]                          // "\n  "
  const OK: Bytes := [111, 107]
  const ENDED: Bytes :=                                        // "◆ turn ended: "
    [0xe2, 0x97, 0x86, 32, 116, 117, 114, 110, 32, 101, 110, 100, 101, 100, 58, 32]

  function WithoutLastNewline(s: Bytes): Bytes { if s != [] && s[|s| - 1] == NEWLINE then s[..|s| - 1] else s }

  function JoinLines(lines: seq<Bytes>): Bytes
    decreases |lines|
  {
    if lines == [] then [] else if |lines| == 1 then lines[0] else lines[0] + INDENT + JoinLines(lines[1..])
  }

  function ShownSection(s: Section): Bytes {
    if KindOf(s.header) == INPUT then PROMPT_LEAD + JoinLines(Parts(NEWLINE, WithoutLastNewline(s.body))) + [NEWLINE]
    else
      var status := if KindOf(s.header) == END then StatusOf(s.header) else None;
      (if status.Some? && status.value != OK then ENDED + status.value + [NEWLINE] else []) + s.body
  }

  function ShownSections(ss: seq<Section>): Bytes
    decreases |ss|
  {
    if ss == [] then [] else ShownSection(ss[0]) + ShownSections(ss[1..])
  }

  /** The reader's loop over the split record. */
  method RenderAgentTranscript(raw: Bytes) returns (shown: Bytes)
    ensures shown == Parse(raw).first + ShownSections(Parse(raw).sections)
  {
    hide StatusOf;
    hide KindOf;
    hide JoinLines;
    if TURN_SENTINEL !in raw {
      PartsPlain(TURN_SENTINEL, raw);
      assert raw + [] == raw;
      return raw;
    }
    var parts := Parts(TURN_SENTINEL, raw);
    shown := parts[0];
    ghost var whole := parts[0] + ShownSections(SectionsOf(parts[1..]));
    var i := 1;
    while i < |parts|
      invariant 1 <= i <= |parts| && shown + ShownSections(SectionsOf(parts[i..])) == whole
    {
      var part := parts[i];
      assert parts[i..][0] == part && parts[i..][1..] == parts[i + 1..];
      i := i + 1;
      var newline := LineEnd(part);
      if newline == |part| {
        assert [] + SectionsOf(parts[i..]) == SectionsOf(parts[i..]);
        continue;
      }
      var header, body := part[..newline], part[newline + 1..];
      ghost var s := Section(header, body);
      assert ([s] + SectionsOf(parts[i..]))[1..] == SectionsOf(parts[i..]);
      Assoc(shown, ShownSection(s), ShownSections(SectionsOf(parts[i..])));
      var kind := KindOf(header);
      if kind == INPUT {
        shown := shown + (PROMPT_LEAD + JoinLines(Parts(NEWLINE, WithoutLastNewline(body))) + [NEWLINE]);
        continue;
      }
      ghost var before := shown;
      var note: Bytes := [];
      if kind == END {
        var status := StatusOf(header);
        if status.Some? && status.value != OK { note := ENDED + status.value + [NEWLINE]; }
      }
      shown := shown + (note + body);
    }
    assert shown + [] == shown;
  }
}
