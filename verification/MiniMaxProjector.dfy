/** miniMaxStreamProjector (data-plane/cmd/agent/minimax_code.go). JSON decoding is
    the parameter `decode`; a record carries its agent_message item, if it has one. */
module MiniMaxProjector {
  import opened Wrappers
  import opened Bytes
  import opened LineFraming

  type Id = string

  datatype Item = Item(id: Id, delta: Bytes, content: Bytes)

  datatype Decoded = NotJson | Undecodable | Record(kind: string, item: Option<Item>)

  type Decoder = Bytes -> Decoded

  datatype Piece = Text(id: Id, text: Bytes) | Break | Raw(line: Bytes)

  datatype Message = Message(openItem: Id, streamed: set<Id>, hasText: bool, newline: bool)

  const QUIET := Message("", {}, false, false)

  type Out = Step<Message, Piece>

  function FinishMessage(m: Message): Out {
    Step(m.(hasText := false, newline := false), if m.hasText && !m.newline then [Break] else [])
  }

  function OpenMessage(m: Message, id: Id): Out {
    if m.openItem == id then Step(m, []) else Step(FinishMessage(m).state.(openItem := id), FinishMessage(m).out)
  }

  predicate Ended(text: Bytes) { text != [] && text[|text| - 1] == NEWLINE }

  function WriteText(m: Message, id: Id, text: Bytes): Out {
    Step(m.(hasText := true, newline := Ended(text)), [Text(id, text)])
  }

  /** openMessage, then the text. */
  function Say(m: Message, id: Id, text: Bytes): Out {
    var o := OpenMessage(m, id);
    var w := WriteText(o.state, id, text);
    Step(w.state, o.out + w.out)
  }

  function Complete(m: Message, item: Item): Out {
    var s := if item.id !in m.streamed && item.content != [] then Say(m, item.id, item.content) else Step(m, []);
    var left := s.state.(streamed := s.state.streamed - {item.id});
    if left.openItem == item.id then
      var f := FinishMessage(left.(openItem := ""));
      Step(f.state, s.out + f.out)
    else Step(left, s.out)
  }

  function ProjectRecord(m: Message, kind: string, item: Option<Item>): Out {
    if item.None? then
      if kind == "turn.completed" || kind == "exec.completed" then FinishMessage(m) else Step(m, [])
    else if kind == "item.started" || kind == "item.updated" then
      var i := item.value;
      if i.delta == [] then Step(m, [])
      else
        var s := Say(m, i.id, i.delta);
        Step(s.state.(streamed := s.state.streamed + {i.id}), s.out)
    else if kind == "item.completed" then Complete(m, item.value)
    else Step(m, [])
  }

  function ProjectLine(decode: Decoder, m: Message, line: Bytes, hadNewline: bool): Out {
    var d := if line == [] then NotJson else decode(line);
    match d
    case NotJson => Step(m, [Raw(line)] + if hadNewline then [Raw([NEWLINE])] else [])
    case Undecodable => Step(m, [])
    case Record(kind, item) => ProjectRecord(m, kind, item)
  }

  function Projection(decode: Decoder): Projector<Message, Piece> {
    Projector((m, line, hadNewline) => ProjectLine(decode, m, line, hadNewline), FinishMessage)
  }

  lemma ChunksNeverShow(decode: Decoder, chunks: seq<Bytes>)
    ensures Stream(Projection(decode), QUIET, [], chunks) == Whole(Projection(decode), QUIET, Concat(chunks))
  {
    StreamIsWhole(Projection(decode), QUIET, [], chunks);
    assert [] + Concat(chunks) == Concat(chunks);
  }

  // ------------------------------------------- two messages never share a line

  /** The message whose line is open after a piece, seen from the pieces alone. */
  function OpenAfter(open: Option<Id>, p: Piece): Option<Id> {
    match p
    case Text(id, text) => if Ended(text) then None else Some(id)
    case Break => None
    case Raw(_) => open
  }

  /** No message's text is written onto the open line of another. */
  predicate Apart(open: Option<Id>, ps: seq<Piece>)
    decreases |ps|
  {
    ps == [] || ((ps[0].Text? && open.Some? ==> open.value == ps[0].id) && Apart(OpenAfter(open, ps[0]), ps[1..]))
  }

  function OpenAtEnd(open: Option<Id>, ps: seq<Piece>): Option<Id>
    decreases |ps|
  {
    if ps == [] then open else OpenAtEnd(OpenAfter(open, ps[0]), ps[1..])
  }

  lemma {:induction false} ApartAppend(open: Option<Id>, a: seq<Piece>, b: seq<Piece>)
    ensures Apart(open, a + b) <==> Apart(open, a) && Apart(OpenAtEnd(open, a), b)
    ensures OpenAtEnd(open, a + b) == OpenAtEnd(OpenAtEnd(open, a), b)
    decreases |a|
  {
    if a == [] {
      assert a + b == b;
    } else {
      assert (a + b)[1..] == a[1..] + b;
      ApartAppend(OpenAfter(open, a[0]), a[1..], b);
    }
  }

  function OpenOf(m: Message): Option<Id> { if m.hasText && !m.newline then Some(m.openItem) else None }

  /** A step that keeps messages apart, and whose state knows which line is open. */
  ghost predicate Keeps(m: Message, s: Out) {
    Apart(OpenOf(m), s.out) && OpenAtEnd(OpenOf(m), s.out) == OpenOf(s.state)
  }

  lemma FinishKeeps(m: Message)
    ensures Keeps(m, FinishMessage(m)) && OpenOf(FinishMessage(m).state).None?
  {
    var out := FinishMessage(m).out;
    assert out == [] || out[1..] == [];
  }

  lemma ThenKeeps(m: Message, s: Out, t: Out)
    requires Keeps(m, s) && Keeps(s.state, t)
    ensures Keeps(m, Step(t.state, s.out + t.out))
  {
    ApartAppend(OpenOf(m), s.out, t.out);
  }

  lemma SayKeeps(m: Message, id: Id, text: Bytes)
    requires text != []
    ensures Keeps(m, Say(m, id, text))
  {
    var o := OpenMessage(m, id);
    FinishKeeps(m);
    var w := WriteText(o.state, id, text);
    assert w.out[1..] == [];
    ThenKeeps(m, o, w);
  }

  lemma CompleteKeeps(m: Message, item: Item)
    ensures Keeps(m, Complete(m, item))
  {
    var s := if item.id !in m.streamed && item.content != [] then Say(m, item.id, item.content) else Step(m, []);
    if item.id !in m.streamed && item.content != [] { SayKeeps(m, item.id, item.content); }
    var left := s.state.(streamed := s.state.streamed - {item.id});
    if left.openItem == item.id {
      var f := FinishMessage(left.(openItem := ""));
      FinishKeeps(left);
      assert f.out == FinishMessage(left).out;
      assert Keeps(s.state, f);
      ThenKeeps(m, s, f);
    }
  }

  lemma LineKeeps(decode: Decoder, m: Message, line: Bytes, hadNewline: bool)
    ensures Keeps(m, ProjectLine(decode, m, line, hadNewline))
  {
    var d := if line == [] then NotJson else decode(line);
    match d {
      case NotJson => RawKeeps(m, line, hadNewline);
      case Undecodable =>
      case Record(kind, item) => RecordKeeps(m, kind, item);
    }
  }

  lemma RawKeeps(m: Message, line: Bytes, hadNewline: bool)
    ensures Keeps(m, Step(m, [Raw(line)] + if hadNewline then [Raw([NEWLINE])] else []))
  {
    var a: seq<Piece>, b: seq<Piece> := [Raw(line)], if hadNewline then [Raw([NEWLINE])] else [];
    assert a[1..] == [] && (b == [] || b[1..] == []);
    ThenKeeps(m, Step(m, a), Step(m, b));
  }

  lemma RecordKeeps(m: Message, kind: string, item: Option<Item>)
    ensures Keeps(m, ProjectRecord(m, kind, item))
  {
    FinishKeeps(m);
    if item.Some? {
      CompleteKeeps(m, item.value);
      if item.value.delta != [] { SayKeeps(m, item.value.id, item.value.delta); }
    }
  }

  lemma {:induction false} ProjectKeeps(decode: Decoder, m: Message, lines: seq<Line>)
    ensures Keeps(m, Project(Projection(decode), m, lines))
    decreases |lines|
  {
    if lines != [] {
      LineKeeps(decode, m, lines[0].text, lines[0].ended);
      var first := ProjectLine(decode, m, lines[0].text, lines[0].ended);
      ProjectKeeps(decode, first.state, lines[1..]);
      ThenKeeps(m, first, Project(Projection(decode), first.state, lines[1..]));
    }
  }

  /** For any output of the process, in any chunks. */
  lemma MessagesApart(decode: Decoder, chunks: seq<Bytes>)
    ensures Apart(None, Stream(Projection(decode), QUIET, [], chunks))
    ensures OpenAtEnd(None, Stream(Projection(decode), QUIET, [], chunks)).None?
  {
    ChunksNeverShow(decode, chunks);
    var s := Concat(chunks);
    WholeIsProject(Projection(decode), QUIET, s);
    ProjectKeeps(decode, QUIET, Lines(s));
    var p := Project(Projection(decode), QUIET, Lines(s));
    FinishKeeps(p.state);
    ThenKeeps(QUIET, p, FinishMessage(p.state));
  }

  /** What Apart says of any two texts with none between them. */
  lemma {:induction false} ApartMeans(open: Option<Id>, ps: seq<Piece>, i: nat, j: nat)
    requires Apart(open, ps) && i < j < |ps| && ps[i].Text? && ps[j].Text? && ps[i].id != ps[j].id
    requires forall k :: i < k < j ==> !ps[k].Text?
    ensures Ended(ps[i].text) || exists k :: i < k < j && ps[k].Break?
    decreases i
  {
    if i > 0 {
      ApartMeans(OpenAfter(open, ps[0]), ps[1..], i - 1, j - 1);
      if k: nat :| i - 1 < k < j - 1 && ps[1..][k].Break? {
        assert ps[k + 1].Break?;
      }
    } else if !Ended(ps[0].text) {
      var k := BreakBefore(ps[0].id, ps[1..], j - 1);
      assert ps[k + 1].Break?;
    }
  }

  lemma {:induction false} BreakBefore(id: Id, ps: seq<Piece>, j: nat) returns (k: nat)
    requires Apart(Some(id), ps) && j < |ps| && ps[j].Text? && ps[j].id != id
    requires forall k :: 0 <= k < j ==> !ps[k].Text?
    ensures k < j && ps[k].Break?
    decreases j
  {
    if ps[0].Break? {
      k := 0;
    } else {
      k := BreakBefore(id, ps[1..], j - 1);
      k := k + 1;
    }
  }

  // ------------------------------------------------ each message exactly once

  function TextsOf(id: Id, ps: seq<Piece>): Bytes
    decreases |ps|
  {
    if ps == [] then [] else (if ps[0].Text? && ps[0].id == id then ps[0].text else []) + TextsOf(id, ps[1..])
  }

  lemma {:induction false} TextsAppend(id: Id, a: seq<Piece>, b: seq<Piece>)
    ensures TextsOf(id, a + b) == TextsOf(id, a) + TextsOf(id, b)
    decreases |a|
  {
    if a == [] {
      assert a + b == b;
    } else {
      assert (a + b)[1..] == a[1..] + b;
      TextsAppend(id, a[1..], b);
    }
  }

  function Decode(decode: Decoder, line: Line): Decoded { if line.text == [] then NotJson else decode(line.text) }

  predicate Streams(d: Decoded, id: Id) {
    d.Record? && (d.kind == "item.started" || d.kind == "item.updated") && d.item.Some? && d.item.value.id == id
  }

  predicate Completes(d: Decoded, id: Id) {
    d.Record? && d.kind == "item.completed" && d.item.Some? && d.item.value.id == id
  }

  /** Everything the records stream for an item, in order. */
  function Deltas(decode: Decoder, id: Id, lines: seq<Line>): Bytes
    decreases |lines|
  {
    if lines == [] then []
    else
      var d := Decode(decode, lines[0]);
      (if Streams(d, id) then d.item.value.delta else []) + Deltas(decode, id, lines[1..])
  }

  lemma SayTexts(m: Message, who: Id, text: Bytes, id: Id)
    ensures TextsOf(id, Say(m, who, text).out) == if who == id then text else []
    ensures Say(m, who, text).state.streamed == m.streamed
  {
    var o := OpenMessage(m, who);
    TextsAppend(id, o.out, [Text(who, text)]);
    assert o.out == [] || o.out == [Break];
    assert [Text(who, text)][1..] == [] && [Break][1..] == [];
  }

  lemma CompleteTexts(m: Message, item: Item, id: Id)
    ensures TextsOf(id, Complete(m, item).out) == if item.id == id && id !in m.streamed then item.content else []
    ensures id in Complete(m, item).state.streamed <==> id in m.streamed && id != item.id
  {
    hide Say;
    var s := if item.id !in m.streamed && item.content != [] then Say(m, item.id, item.content) else Step(m, []);
    if item.id !in m.streamed && item.content != [] { SayTexts(m, item.id, item.content, id); }
    var left := s.state.(streamed := s.state.streamed - {item.id});
    var f := FinishMessage(left.(openItem := ""));
    TextsAppend(id, s.out, f.out);
    assert [Break][1..] == [];
    assert f.out == [] || f.out == [Break];
    assert s.out + [] == s.out;
  }

  lemma LineTexts(decode: Decoder, m: Message, line: Line, id: Id)
    ensures var d := Decode(decode, line);
      var s := ProjectLine(decode, m, line.text, line.ended);
      && TextsOf(id, s.out) == (if Streams(d, id) then d.item.value.delta
                                else if Completes(d, id) && id !in m.streamed then d.item.value.content else [])
      && (id in s.state.streamed <==>
          (id in m.streamed && !Completes(d, id)) || (Streams(d, id) && d.item.value.delta != []))
  {
    match Decode(decode, line) {
      case NotJson => RawTexts(line, id);
      case Undecodable =>
      case Record(kind, item) => RecordTexts(m, kind, item, id);
    }
  }

  lemma RawTexts(line: Line, id: Id)
    ensures TextsOf(id, [Raw(line.text)] + if line.ended then [Raw([NEWLINE])] else []) == []
  {
    var a: seq<Piece>, b: seq<Piece> := [Raw(line.text)], if line.ended then [Raw([NEWLINE])] else [];
    TextsAppend(id, a, b);
    assert a[1..] == [] && (b == [] || b[1..] == []);
  }

  lemma RecordTexts(m: Message, kind: string, item: Option<Item>, id: Id)
    ensures var d := Record(kind, item);
      var s := ProjectRecord(m, kind, item);
      && TextsOf(id, s.out) == (if Streams(d, id) then item.value.delta
                                else if Completes(d, id) && id !in m.streamed then item.value.content else [])
      && (id in s.state.streamed <==>
          (id in m.streamed && !Completes(d, id)) || (Streams(d, id) && item.value.delta != []))
  {
    if item.None? {
      var out := FinishMessage(m).out;
      assert out == [] || (out == [Break] && out[1..] == []);
    } else {
      CompleteTexts(m, item.value, id);
      SayTexts(m, item.value.id, item.value.delta, id);
    }
  }

  lemma {:induction false} DeltasAreShown(decode: Decoder, m: Message, lines: seq<Line>, id: Id)
    requires forall l :: l in lines ==> !Completes(Decode(decode, l), id)
    ensures var p := Project(Projection(decode), m, lines);
      && TextsOf(id, p.out) == Deltas(decode, id, lines)
      && (id in p.state.streamed <==> id in m.streamed || Deltas(decode, id, lines) != [])
    decreases |lines|
  {
    if lines != [] {
      assert lines[0] in lines;
      LineTexts(decode, m, lines[0], id);
      var first := ProjectLine(decode, m, lines[0].text, lines[0].ended);
      DeltasAreShown(decode, first.state, lines[1..], id);
      TextsAppend(id, first.out, Project(Projection(decode), first.state, lines[1..]).out);
    }
  }

  /** From an item's first record to its completion its text is written once: the
      streamed pieces in order, or the final content if nothing was streamed. */
  lemma ShownOnce(decode: Decoder, m: Message, lines: seq<Line>, last: Line, id: Id)
    requires id !in m.streamed && Completes(Decode(decode, last), id)
    requires forall l :: l in lines ==> !Completes(Decode(decode, l), id)
    ensures var p := Project(Projection(decode), m, lines);
      var q := ProjectLine(decode, p.state, last.text, last.ended);
      var streamed := Deltas(decode, id, lines);
      && TextsOf(id, p.out + q.out) ==
         (if streamed != [] then streamed else Decode(decode, last).item.value.content)
      && id !in q.state.streamed
  {
    DeltasAreShown(decode, m, lines, id);
    var p := Project(Projection(decode), m, lines);
    LineTexts(decode, p.state, last, id);
    TextsAppend(id, p.out, ProjectLine(decode, p.state, last.text, last.ended).out);
  }

  class MiniMaxStreamProjector {
    const decode: Decoder
    var dst: seq<Piece>
    var buf: Bytes
    var openItem: Id
    var streamed: set<Id>
    var messageHasText: bool
    var messageNewline: bool

    function State(): Message
      reads this
    {
      Message(openItem, streamed, messageHasText, messageNewline)
    }

    /** One step happened and nothing else. */
    twostate predicate Did(s: Out)
      reads this
    {
      State() == s.state && dst == old(dst) + s.out && buf == old(buf)
    }

    constructor (decode: Decoder)
      ensures this.decode == decode && dst == [] && buf == [] && State() == QUIET
    {
      this.decode := decode;
      dst, buf, openItem, streamed, messageHasText, messageNewline := [], [], "", {}, false, false;
    }

    method FinishMessageInto()
      modifies this
      ensures Did(FinishMessage(old(State())))
    {
      if messageHasText && !messageNewline { dst := dst + [Break]; }
      messageHasText, messageNewline := false, false;
    }

    method OpenMessageInto(id: Id)
      modifies this
      ensures Did(OpenMessage(old(State()), id))
    {
      if openItem == id { return; }
      FinishMessageInto();
      openItem := id;
    }

    method WriteTextInto(id: Id, text: Bytes)
      modifies this
      ensures Did(WriteText(old(State()), id, text))
    {
      dst := dst + [Text(id, text)];
      messageHasText, messageNewline := true, Ended(text);
    }

    method CompleteInto(item: Item)
      modifies this
      ensures Did(Complete(old(State()), item))
    {
      if item.id !in streamed && item.content != [] {
        OpenMessageInto(item.id);
        WriteTextInto(item.id, item.content);
      }
      streamed := streamed - {item.id};
      if openItem == item.id {
        openItem := "";
        FinishMessageInto();
      }
    }

    method ProjectLineInto(line: Bytes, hadNewline: bool)
      modifies this
      ensures Did(ProjectLine(decode, old(State()), line, hadNewline))
    {
      var d := if line == [] then NotJson else decode(line);
      if d.NotJson? {
        dst := dst + [Raw(line)];
        if hadNewline { dst := dst + [Raw([NEWLINE])]; }
        return;
      }
      if d.Undecodable? { return; }
      if d.item.None? {
        if d.kind == "turn.completed" || d.kind == "exec.completed" { FinishMessageInto(); }
        return;
      }
      var item := d.item.value;
      if d.kind == "item.started" || d.kind == "item.updated" {
        if item.delta == [] { return; }
        OpenMessageInto(item.id);
        streamed := streamed + {item.id};
        WriteTextInto(item.id, item.delta);
      } else if d.kind == "item.completed" {
        CompleteInto(item);
      }
    }

    method Write(chunk: Bytes)
      modifies this
      ensures var d := Drain(Projection(decode), old(State()), old(buf) + chunk);
        State() == d.state && dst == old(dst) + d.out && buf == d.buf
    {
      buf := buf + chunk;
      ghost var d := Drain(Projection(decode), State(), buf);
      while true
        invariant var e := Drain(Projection(decode), State(), buf);
          e.state == d.state && e.buf == d.buf && dst + e.out == old(dst) + d.out
        decreases |buf|
      {
        var newline := LineEnd(buf);
        if newline == |buf| { break; }
        var line := buf[..newline];
        DrainLine(Projection(decode), State(), buf, dst);
        buf := buf[newline + 1..];
        ProjectLineInto(line, true);
      }
    }

    method Close()
      modifies this
      ensures dst == old(dst) + LineFraming.Close(Projection(decode), old(State()), old(buf)) && buf == []
    {
      if buf != [] {
        var line := buf;
        buf := [];
        ProjectLineInto(line, false);
      }
      FinishMessageInto();
    }
  }
}
