/** claudeOutputSink (data-plane/cmd/agent/claude_stream.go): sentinel removal,
    redaction, the per-invocation cap and the session record, behind one Write. */
module OutputSink {
  import opened Wrappers
  import opened Bytes
  import opened Utf8
  import opened Scrollback
  import Redactor

  // ------------------------------------------- redaction never splits a character

  ghost predicate TextLiterals(literals: seq<Bytes>) { forall l :: l in literals ==> Valid(l) }

  /** A well-formed literal can only stand between two boundaries. */
  lemma MatchAligned(s: Bytes, l: Bytes, i: nat, n: nat)
    requires Valid(s) && Valid(l) && l != [] && OccursAt(s, l, i) && n == i + |l|
    ensures Valid(s[..i]) && Valid(s[n..])
  {
    hide Valid;
    ValidStarts(l);
    assert s[i] == l[0];
    RuneStartCut(s, i);
    assert s[i..] == l + s[n..];
    ValidAppend(l, s[n..]);
  }

  lemma HeldAligned(s: Bytes, l: Bytes, n: nat)
    requires Valid(s) && Valid(l) && Redactor.HeldBy(l, s, n)
    ensures Valid(s[..|s| - n]) && Valid(s[|s| - n..])
  {
    if n > 0 {
      ValidStarts(l);
      assert s[|s| - n] == l[0];
    }
    RuneStartCut(s, |s| - n);
  }

  lemma MarkerIsValid()
    ensures Valid(Redactor.REDACTED)
  {
    AsciiIsValid(Redactor.REDACTED);
  }

  ghost predicate IsAscii(s: Bytes) { forall b :: b in s ==> b < 0x80 }

  lemma {:induction false} AsciiIsValid(s: Bytes)
    requires IsAscii(s)
    ensures Valid(s)
  {
    if s != [] {
      assert s[0] in s && forall b :: b in s[1..] ==> b in s;
      AsciiIsValid(s[1..]);
    }
  }

  lemma {:induction false} DrainAligned(literals: seq<Bytes>, pending: Bytes, final: bool)
    requires TextLiterals(literals) && Valid(pending)
    ensures var d := Redactor.Drain(literals, pending, final); Valid(Redactor.Render(d.segs)) && Valid(d.pending)
    decreases |pending|
  {
    match Redactor.FirstMatch(literals, pending) {
      case Some(m) =>
        AroundMatch(literals, pending, m);
        DrainAligned(literals, pending[m.at + m.len..], final);
        DrainFirst(literals, pending, final, m);
      case None =>
        ReleaseAligned(literals, pending, final);
    }
  }

  lemma AroundMatch(literals: seq<Bytes>, pending: Bytes, m: Redactor.Match)
    requires TextLiterals(literals) && Valid(pending) && Redactor.FirstMatch(literals, pending) == Some(m)
    ensures Valid(pending[..m.at]) && Valid(pending[m.at + m.len..])
  {
    Redactor.FirstMatchMeans(literals, pending);
    var l :| l in literals && l != [] && |l| == m.len && OccursAt(pending, l, m.at);
    MatchAligned(pending, l, m.at, m.at + m.len);
  }

  lemma DrainFirst(literals: seq<Bytes>, pending: Bytes, final: bool, m: Redactor.Match)
    requires Redactor.FirstMatch(literals, pending) == Some(m)
    ensures var d, rest := Redactor.Drain(literals, pending, final), Redactor.Drain(literals, pending[m.at + m.len..], final);
      && Redactor.Render(d.segs) == pending[..m.at] + Redactor.REDACTED + Redactor.Render(rest.segs)
      && d.pending == rest.pending
      && (Valid(pending[..m.at]) && Valid(Redactor.Render(rest.segs)) ==> Valid(Redactor.Render(d.segs)))
  {
    var rest := Redactor.Drain(literals, pending[m.at + m.len..], final);
    Redactor.DrainStep(literals, pending, final, m, []);
    var whole := Redactor.Render(Redactor.Drain(literals, pending, final).segs);
    assert [] + whole == whole && [] + pending[..m.at] == pending[..m.at];
    if Valid(pending[..m.at]) && Valid(Redactor.Render(rest.segs)) {
      MarkerIsValid();
      ThreeValid(pending[..m.at], Redactor.REDACTED, Redactor.Render(rest.segs));
    }
  }

  lemma ThreeValid(a: Bytes, b: Bytes, c: Bytes)
    requires Valid(a) && Valid(b) && Valid(c)
    ensures Valid(a + b + c)
  {
    ValidAppend(a, b);
    ValidAppend(a + b, c);
  }

  lemma ReleaseAligned(literals: seq<Bytes>, pending: Bytes, final: bool)
    requires TextLiterals(literals) && Valid(pending) && Redactor.FirstMatch(literals, pending).None?
    ensures var d := Redactor.Drain(literals, pending, final); Valid(Redactor.Render(d.segs)) && Valid(d.pending)
  {
    var keep := if final then 0 else Redactor.Keep(literals, pending);
    Redactor.KeepMeans(literals, pending);
    if keep == 0 {
      assert pending[..|pending|] == pending;
    } else {
      var l :| l in literals && Redactor.HeldBy(l, pending, keep);
      HeldAligned(pending, l, keep);
    }
    assert pending[..|pending| - keep] + [] == pending[..|pending| - keep];
  }

  // -------------------------------------------------------- withoutTurnSentinel

  function Strip(p: Bytes): (q: Bytes)
    ensures TURN_SENTINEL !in q
  {
    if p == [] then []
    else if p[0] == TURN_SENTINEL then Strip(p[1..])
    else [p[0]] + Strip(p[1..])
  }

  lemma {:induction false} StripAppend(a: Bytes, b: Bytes)
    ensures Strip(a + b) == Strip(a) + Strip(b)
  {
    if a == [] {
      assert a + b == b;
    } else {
      StripAppend(a[1..], b);
      assert (a + b)[1..] == a[1..] + b;
    }
  }

  lemma {:induction false} StripKeeps(p: Bytes)
    requires TURN_SENTINEL !in p
    ensures Strip(p) == p
  {
    if p != [] { StripKeeps(p[1..]); }
  }

  lemma {:induction false} StripIsValid(p: Bytes)
    requires Valid(p)
    ensures Valid(Strip(p))
    decreases |p|
  {
    if p != [] {
      var n := Need(p[0]);
      StripIsValid(p[n..]);
      assert p == p[..n] + p[n..];
      StripAppend(p[..n], p[n..]);
      if p[0] == TURN_SENTINEL {
        assert p[..n] == [TURN_SENTINEL] && [TURN_SENTINEL][1..] == [];
        assert Strip(p[..n]) == [];
      } else {
        assert TURN_SENTINEL !in p[..n];
        StripKeeps(p[..n]);
        CharacterIsValid(p);
        ValidAppend(p[..n], Strip(p[n..]));
      }
    }
  }

  /** What the redactor is fed: a Write of nothing is ignored. */
  function Fed(ps: seq<Bytes>): seq<Bytes>
    decreases |ps|
  {
    if ps == [] then []
    else if ps[0] == [] then Fed(ps[1..])
    else [Strip(ps[0])] + Fed(ps[1..])
  }

  lemma {:induction false} FedConcat(ps: seq<Bytes>)
    ensures Concat(Fed(ps)) == Strip(Concat(ps))
    decreases |ps|
  {
    if ps != [] {
      FedConcat(ps[1..]);
      StripAppend(ps[0], Concat(ps[1..]));
      assert ps[0] != [] ==> Fed(ps)[1..] == Fed(ps[1..]);
    }
  }

  // --------------------------------------------------------------- the run's cap

  /** runSeen, runEmitted, runPending, truncated. */
  datatype Cap = Cap(seen: nat, emitted: nat, tail: Bytes, truncated: bool)

  const FRESH := Cap(0, 0, [], false)

  function MarkerBytes(runLimit: int, note: Bytes): nat { if runLimit < 0 then 0 else Min(|note|, runLimit) }

  /** What one call hands to the session: some text, then the note if the run overflows. */
  datatype Emitted = Emitted(cap: Cap, text: Bytes, note: Bytes)

  /** appendBoundedLocked without the session-full guard. */
  function CapPush(c: Cap, p: Bytes, runLimit: int, note: Bytes): Emitted {
    if p == [] || c.truncated then Emitted(c, [], [])
    else if runLimit <= 0 then Emitted(c, p, [])
    else
      var m := MarkerBytes(runLimit, note);
      var tail := c.tail + p;
      var canEmit := if runLimit - m - c.emitted > 0 then Clip(tail, runLimit - m - c.emitted) else 0;
      if c.seen + |p| > runLimit then
        Emitted(Cap(c.seen + |p|, c.emitted + canEmit, [], true), tail[..canEmit], note[..m])
      else
        Emitted(Cap(c.seen + |p|, c.emitted + canEmit, tail[canEmit..], false), tail[..canEmit], [])
  }

  /** What one invocation may leave in the record: all of its text if that fits,
      otherwise the longest whole-character prefix beside the note, and the note. */
  function RunText(t: Bytes, runLimit: int, note: Bytes): Bytes {
    if runLimit <= 0 || |t| <= runLimit then t
    else
      var m := MarkerBytes(runLimit, note);
      t[..Clip(t, runLimit - m)] + note[..m]
  }

  /** The cap after the text t of a run. */
  ghost predicate CapFor(c: Cap, t: Bytes, runLimit: int, note: Bytes) {
    if runLimit <= 0 then c == FRESH
    else if |t| > runLimit then c.truncated
    else
      var e := Clip(t, runLimit - MarkerBytes(runLimit, note));
      c == Cap(|t|, e, t[e..], false)
  }

  /** The part of the run's text that has already left. */
  function Left(t: Bytes, runLimit: int, note: Bytes): Bytes {
    if runLimit <= 0 then t
    else if |t| > runLimit then RunText(t, runLimit, note)
    else t[..Clip(t, runLimit - MarkerBytes(runLimit, note))]
  }

  lemma CapStep(c: Cap, t: Bytes, p: Bytes, runLimit: int, note: Bytes)
    requires Valid(t) && Valid(p) && CapFor(c, t, runLimit, note)
    ensures var e := CapPush(c, p, runLimit, note);
      && Valid(t + p) && CapFor(e.cap, t + p, runLimit, note)
      && Left(t + p, runLimit, note) == Left(t, runLimit, note) + (e.text + e.note)
  {
    ValidAppend(t, p);
    if p == [] {
      assert t + p == t && Left(t, runLimit, note) + ([] + []) == Left(t, runLimit, note);
    } else if runLimit > 0 {
      CapLimited(c, t, p, runLimit, note);
    } else {
      assert p + [] == p;
    }
  }

  lemma CapLimited(c: Cap, t: Bytes, p: Bytes, runLimit: int, note: Bytes)
    requires Valid(t) && Valid(p) && Valid(t + p) && CapFor(c, t, runLimit, note) && runLimit > 0 && p != []
    ensures var e := CapPush(c, p, runLimit, note);
      && CapFor(e.cap, t + p, runLimit, note)
      && Left(t + p, runLimit, note) == Left(t, runLimit, note) + (e.text + e.note)
  {
    hide Clip;
    hide Valid;
    if |t| > runLimit {
      var d := runLimit - MarkerBytes(runLimit, note);
      ClipStands(t, p, d);
      assert (t + p)[..Clip(t, d)] == t[..Clip(t, d)];
      assert Left(t, runLimit, note) + ([] + []) == Left(t, runLimit, note);
    } else {
      var e, k := TwoClips(t, p, runLimit - MarkerBytes(runLimit, note));
      CapCuts(c, t, p, runLimit, note, e, k);
    }
  }

  lemma TwoClips(t: Bytes, p: Bytes, d: nat) returns (e: nat, k: nat)
    requires Valid(t) && Valid(p)
    ensures e == Clip(t, d) && k == Clip(t[e..] + p, d - e) && e + k == Clip(t + p, d) && (d == e ==> k == 0)
  {
    hide Clip;
    hide Valid;
    e := Clip(t, d);
    k := Clip(t[e..] + p, d - e);
    ClipContinues(t, p, d);
  }

  lemma CapCuts(c: Cap, t: Bytes, p: Bytes, runLimit: int, note: Bytes, e: nat, k: nat)
    requires CapFor(c, t, runLimit, note) && |t| <= runLimit && runLimit > 0 && p != []
    requires var d := runLimit - MarkerBytes(runLimit, note);
      e == Clip(t, d) && k == Clip(t[e..] + p, d - e) && e + k == Clip(t + p, d) && (d == e ==> k == 0)
    ensures var r := CapPush(c, p, runLimit, note);
      && CapFor(r.cap, t + p, runLimit, note)
      && Left(t + p, runLimit, note) == Left(t, runLimit, note) + (r.text + r.note)
  {
    hide Clip;
    var m := MarkerBytes(runLimit, note);
    var r := CapPush(c, p, runLimit, note);
    TailCuts(t, p, e, k);
    assert r.text == (t[e..] + p)[..k];
    if |t| + |p| > runLimit {
      Assoc(t[..e], r.text, note[..m]);
    } else {
      assert r.text + [] == r.text;
    }
  }

  lemma TailCuts(t: Bytes, p: Bytes, e: nat, k: nat)
    requires e <= |t| && k <= |t[e..] + p|
    ensures t[..e] + (t[e..] + p)[..k] == (t + p)[..e + k]
    ensures (t[e..] + p)[k..] == (t + p)[e + k..]
  {
  }

  // ------------------------------------------------------------ the sink, as values

  datatype Limits = Limits(literals: seq<Bytes>, runLimit: int, note: Bytes, limit: int, marker: Bytes)

  datatype Sink = Sink(buf: Bytes, held: Bytes, cap: Cap, closed: bool, full: bool)

  ghost predicate TextLimits(k: Limits) {
    TextLiterals(k.literals) && IsAscii(k.note) && |k.marker| > 3
  }

  /** appendSession. */
  function Session(s: Sink, p: Bytes, k: Limits): Sink {
    if p == [] || s.full then s
    else s.(buf := AppendBounded(s.buf, p, k.limit, k.marker), full := Fills(s.buf, p, k.limit, k.marker))
  }

  function Bound(s: Sink, p: Bytes, k: Limits): Sink {
    if p == [] || s.cap.truncated || s.full then s
    else
      var e := CapPush(s.cap, p, k.runLimit, k.note);
      Session(Session(s, e.text, k), e.note, k).(cap := e.cap)
  }

  function WriteSink(s: Sink, p: Bytes, k: Limits): Sink {
    if p == [] || s.closed || s.cap.truncated || s.full then s
    else
      var d := Redactor.Drain(k.literals, s.held + Strip(p), false);
      Bound(s.(held := d.pending), Redactor.Render(d.segs), k)
  }

  function Flush(s: Sink, k: Limits): Sink {
    if s.cap.truncated || s.full then s
    else Bound(s.(held := []), Redactor.Redact(k.literals, s.held), k)
  }

  function CloseSink(s: Sink, k: Limits): Sink {
    if s.closed then s
    else
      var f := Flush(s, k);
      if !f.cap.truncated && f.cap.tail != [] then
        var g := Session(f, f.cap.tail, k);
        g.(cap := g.cap.(tail := []), closed := true)
      else f.(closed := true)
  }

  function WriteAll(s: Sink, ps: seq<Bytes>, k: Limits): Sink
    decreases |ps|
  {
    if ps == [] then s else WriteAll(WriteSink(s, ps[0], k), ps[1..], k)
  }

  /** The state the sink is in once the redactor has released t and holds h. */
  ghost predicate Sound(s: Sink, base: Bytes, t: Bytes, h: Bytes, k: Limits) {
    && Valid(t) && Valid(h) && !s.closed
    && s.buf == AppendBounded(base, Left(t, k.runLimit, k.note), k.limit, k.marker)
    && (s.full ==> Full(s.buf, k.limit, k.marker))
    && (!s.full ==> CapFor(s.cap, t, k.runLimit, k.note))
    && (!s.full && !s.cap.truncated ==> s.held == h)
  }

  lemma NotePrefixValid(k: Limits)
    requires TextLimits(k)
    ensures Valid(k.note[..MarkerBytes(k.runLimit, k.note)])
  {
    var n := k.note[..MarkerBytes(k.runLimit, k.note)];
    assert forall b :: b in n ==> b in k.note;
    AsciiIsValid(n);
  }

  lemma LeftIsValid(t: Bytes, k: Limits)
    requires Valid(t) && TextLimits(k)
    ensures Valid(Left(t, k.runLimit, k.note))
  {
    hide Clip;
    hide Valid;
    if k.runLimit > 0 {
      var d := k.runLimit - MarkerBytes(k.runLimit, k.note);
      ClipMeans(t, d);
      NotePrefixValid(k);
      ValidAppend(t[..Clip(t, d)], k.note[..MarkerBytes(k.runLimit, k.note)]);
    }
  }

  /** What has left is never taken back. */
  lemma LeftGrows(t: Bytes, p: Bytes, k: Limits) returns (more: Bytes)
    requires Valid(t) && Valid(p) && TextLimits(k)
    ensures Valid(t + p) && Valid(more)
    ensures Left(t + p, k.runLimit, k.note) == Left(t, k.runLimit, k.note) + more
  {
    var e := Clip(t, k.runLimit - MarkerBytes(k.runLimit, k.note));
    var c := if k.runLimit <= 0 then FRESH else if |t| > k.runLimit then Cap(0, 0, [], true) else Cap(|t|, e, t[e..], false);
    CapStep(c, t, p, k.runLimit, k.note);
    var r := CapPush(c, p, k.runLimit, k.note);
    more := r.text + r.note;
    LeftIsValid(t, k);
    LeftIsValid(t + p, k);
    ValidAppend(Left(t, k.runLimit, k.note), more);
  }

  /** A full record stays as it is while the run's text goes on. */
  lemma FullStays(base: Bytes, a: Bytes, b: Bytes, k: Limits)
    requires Valid(a) && Valid(b) && |k.marker| > 3
    requires Full(AppendBounded(base, a, k.limit, k.marker), k.limit, k.marker)
    ensures AppendBounded(base, a + b, k.limit, k.marker) == AppendBounded(base, a, k.limit, k.marker)
  {
    AppendTwice(base, a, b, k.limit, k.marker);
  }

  /** One or two session appends are one bounded append of both texts. */
  lemma SessionTwice(s: Sink, a: Bytes, b: Bytes, k: Limits)
    requires Valid(a) && Valid(b) && |k.marker| > 3 && !s.full
    ensures var r := Session(Session(s, a, k), b, k);
      && r.buf == AppendBounded(s.buf, a + b, k.limit, k.marker)
      && (r.full ==> Full(r.buf, k.limit, k.marker))
      && r == s.(buf := r.buf, full := r.full)
  {
    AppendTwice(s.buf, a, b, k.limit, k.marker);
    if Fills(s.buf, a, k.limit, k.marker) { FillsIsFinal(s.buf, a, k.limit, k.marker); }
    var m := AppendBounded(s.buf, a, k.limit, k.marker);
    if Fills(m, b, k.limit, k.marker) { FillsIsFinal(m, b, k.limit, k.marker); }
  }

  lemma CutsValid(tail: Bytes, p: Bytes, n: nat)
    requires Valid(tail) && Valid(p)
    ensures Valid((tail + p)[..Clip(tail + p, n)])
  {
    ValidAppend(tail, p);
    ClipMeans(tail + p, n);
  }

  lemma TailIsValid(c: Cap, t: Bytes, k: Limits)
    requires Valid(t) && CapFor(c, t, k.runLimit, k.note) && !c.truncated
    ensures Valid(c.tail)
  {
    hide Valid;
    hide Clip;
    EmptyIsValid();
    if k.runLimit > 0 { ClipMeans(t, k.runLimit - MarkerBytes(k.runLimit, k.note)); }
  }

  lemma EmittedIsValid(c: Cap, t: Bytes, p: Bytes, k: Limits)
    requires Valid(t) && Valid(p) && TextLimits(k) && CapFor(c, t, k.runLimit, k.note)
    ensures var e := CapPush(c, p, k.runLimit, k.note); Valid(e.text) && Valid(e.note)
  {
    if !c.truncated {
      TailIsValid(c, t, k);
      PushedIsValid(c, p, k);
    }
  }

  lemma PushedIsValid(c: Cap, p: Bytes, k: Limits)
    requires Valid(c.tail) && Valid(p) && TextLimits(k)
    ensures var e := CapPush(c, p, k.runLimit, k.note); Valid(e.text) && Valid(e.note)
  {
    hide Valid;
    hide Clip;
    NotePrefixValid(k);
    EmptyIsValid();
    var d := k.runLimit - MarkerBytes(k.runLimit, k.note) - c.emitted;
    if d > 0 { CutsValid(c.tail, p, d); }
    var n := if d > 0 then Clip(c.tail + p, d) else 0;
    assert n == 0 ==> (c.tail + p)[..n] == [];
    assert Valid((c.tail + p)[..n]);
  }

  lemma BoundStep(s: Sink, base: Bytes, t: Bytes, h: Bytes, p: Bytes, k: Limits)
    requires Sound(s, base, t, h, k) && Valid(p) && TextLimits(k)
    ensures Sound(Bound(s, p, k), base, t + p, h, k)
  {
    if s.full {
      var more := LeftGrows(t, p, k);
      LeftIsValid(t, k);
      FullStays(base, Left(t, k.runLimit, k.note), more, k);
    } else {
      BoundOpen(s, base, t, h, p, k);
    }
  }

  lemma BoundOpen(s: Sink, base: Bytes, t: Bytes, h: Bytes, p: Bytes, k: Limits)
    requires Sound(s, base, t, h, k) && Valid(p) && TextLimits(k) && !s.full
    ensures Sound(Bound(s, p, k), base, t + p, h, k)
  {
    var e := CapPush(s.cap, p, k.runLimit, k.note);
    CapStep(s.cap, t, p, k.runLimit, k.note);
    EmittedIsValid(s.cap, t, p, k);
    ValidAppend(e.text, e.note);
    LeftIsValid(t, k);
    AppendTwice(base, Left(t, k.runLimit, k.note), e.text + e.note, k.limit, k.marker);
    SessionTwice(s, e.text, e.note, k);
  }

  lemma WriteStep(s: Sink, base: Bytes, t: Bytes, h: Bytes, p: Bytes, k: Limits)
    requires Sound(s, base, t, h, k) && Valid(p) && p != [] && TextLimits(k)
    ensures var d := Redactor.Drain(k.literals, h + Strip(p), false);
      Sound(WriteSink(s, p, k), base, t + Redactor.Render(d.segs), d.pending, k)
  {
    var d := Redactor.Drain(k.literals, h + Strip(p), false);
    StripIsValid(p);
    ValidAppend(h, Strip(p));
    DrainAligned(k.literals, h + Strip(p), false);
    var fed := if s.full || s.cap.truncated then s else s.(held := d.pending);
    assert Sound(fed, base, t, d.pending, k);
    BoundStep(fed, base, t, d.pending, Redactor.Render(d.segs), k);
  }

  /** The text a run that fits holds back until Close. */
  function HeldBack(t: Bytes, runLimit: int, note: Bytes): Bytes {
    if 0 < runLimit && |t| <= runLimit then t[Clip(t, runLimit - MarkerBytes(runLimit, note))..] else []
  }

  lemma RunTextIsLeft(t: Bytes, runLimit: int, note: Bytes)
    ensures RunText(t, runLimit, note) == Left(t, runLimit, note) + HeldBack(t, runLimit, note)
  {
  }

  lemma HeldBackIsValid(t: Bytes, runLimit: int, note: Bytes)
    requires Valid(t)
    ensures Valid(HeldBack(t, runLimit, note))
  {
    if 0 < runLimit { ClipMeans(t, runLimit - MarkerBytes(runLimit, note)); }
  }

  lemma CloseStep(s: Sink, base: Bytes, t: Bytes, h: Bytes, k: Limits)
    requires Sound(s, base, t, h, k) && TextLimits(k)
    ensures CloseSink(s, k).buf ==
            AppendBounded(base, RunText(t + Redactor.Redact(k.literals, h), k.runLimit, k.note), k.limit, k.marker)
  {
    var p := Redactor.Redact(k.literals, h);
    Redactor.FinishIsRedact(k.literals, h);
    DrainAligned(k.literals, h, true);
    var fed := if s.full || s.cap.truncated then s else s.(held := []);
    assert Sound(fed, base, t, [], k);
    BoundStep(fed, base, t, [], p, k);
    TailStep(Flush(s, k), base, t + p, k);
  }

  lemma TailStep(f: Sink, base: Bytes, t: Bytes, k: Limits)
    requires Sound(f, base, t, [], k) && TextLimits(k)
    ensures (if !f.cap.truncated && f.cap.tail != [] then Session(f, f.cap.tail, k) else f).buf ==
            AppendBounded(base, RunText(t, k.runLimit, k.note), k.limit, k.marker)
  {
    var left, rest := Left(t, k.runLimit, k.note), HeldBack(t, k.runLimit, k.note);
    RunTextIsLeft(t, k.runLimit, k.note);
    LeftIsValid(t, k);
    HeldBackIsValid(t, k.runLimit, k.note);
    if f.full {
      FullStays(base, left, rest, k);
    } else {
      assert rest == if f.cap.truncated then [] else f.cap.tail;
      AppendTwice(base, left, rest, k.limit, k.marker);
    }
  }

  /** Every write, then Close: the record gains exactly the run's capped text. */
  lemma {:induction false} RunFrom(s: Sink, base: Bytes, t: Bytes, h: Bytes, ps: seq<Bytes>, k: Limits)
    requires Sound(s, base, t, h, k) && AllValid(ps) && TextLimits(k)
    ensures CloseSink(WriteAll(s, ps, k), k).buf ==
            AppendBounded(base, RunText(t + Redactor.Render(Redactor.Stream(k.literals, h, Fed(ps))), k.runLimit, k.note),
                          k.limit, k.marker)
    decreases |ps|
  {
    if ps == [] {
      CloseStep(s, base, t, h, k);
      Redactor.FinishIsRedact(k.literals, h);
    } else {
      assert ps[0] in ps;
      if ps[0] == [] {
        RunFrom(s, base, t, h, ps[1..], k);
      } else {
        var d := Redactor.Drain(k.literals, h + Strip(ps[0]), false);
        WriteStep(s, base, t, h, ps[0], k);
        RunFrom(WriteSink(s, ps[0], k), base, t + Redactor.Render(d.segs), d.pending, ps[1..], k);
        assert Fed(ps)[1..] == Fed(ps[1..]);
        var rest := Redactor.Stream(k.literals, d.pending, Fed(ps[1..]));
        Redactor.RenderAppend(d.segs, rest);
        Assoc(t, Redactor.Render(d.segs), Redactor.Render(rest));
      }
    }
  }

  function NewSink(base: Bytes): Sink { Sink(base, [], FRESH, false, false) }

  lemma RunIsWhole(base: Bytes, ps: seq<Bytes>, k: Limits)
    requires AllValid(ps) && TextLimits(k) && Redactor.NoEarlyMatch(k.literals)
    ensures CloseSink(WriteAll(NewSink(base), ps, k), k).buf ==
            AppendBounded(base, RunText(Redactor.Redact(k.literals, Strip(Concat(ps))), k.runLimit, k.note), k.limit, k.marker)
  {
    assert Left([], k.runLimit, k.note) == [];
    RunFrom(NewSink(base), base, [], [], ps, k);
    Redactor.StreamIsRedact(k.literals, [], Fed(ps));
    FedConcat(ps);
    assert [] + Concat(Fed(ps)) == Concat(Fed(ps));
    var t := Redactor.Render(Redactor.Stream(k.literals, [], Fed(ps)));
    assert [] + t == t;
  }

  /** The whole pipeline: raw pieces through the normalizer into the sink. The
      record depends on the bytes, not on how they arrived. */
  lemma PipelineIsWhole(base: Bytes, raw: seq<Bytes>, k: Limits)
    requires TextLimits(k) && Redactor.NoEarlyMatch(k.literals)
    ensures CloseSink(WriteAll(NewSink(base), Utf8.Stream([], raw), k), k).buf ==
            AppendBounded(base, RunText(Redactor.Redact(k.literals, Strip(Normalize(Concat(raw)))), k.runLimit, k.note),
                          k.limit, k.marker)
  {
    PiecesAreValid([], raw);
    StreamIsNormalize([], raw);
    assert [] + Concat(raw) == Concat(raw);
    RunIsWhole(base, Utf8.Stream([], raw), k);
  }

  /** A run adds no more than its cap, and text that overflows keeps all but at most
      three bytes of the room beside the note. */
  lemma RunTextFits(t: Bytes, runLimit: int, note: Bytes)
    requires Valid(t) && runLimit > 0
    ensures |RunText(t, runLimit, note)| <= runLimit
    ensures |t| > runLimit ==> |RunText(t, runLimit, note)| > runLimit - 4
    ensures |t| <= runLimit ==> RunText(t, runLimit, note) == t
  {
    ClipMeans(t, runLimit - MarkerBytes(runLimit, note));
  }

  lemma {:induction false} WritesAreSound(s: Sink, base: Bytes, t: Bytes, h: Bytes, ps: seq<Bytes>, k: Limits)
    returns (t': Bytes, h': Bytes)
    requires Sound(s, base, t, h, k) && AllValid(ps) && TextLimits(k)
    ensures Sound(WriteAll(s, ps, k), base, t', h', k)
    decreases |ps|
  {
    if ps == [] {
      t', h' := t, h;
    } else {
      assert ps[0] in ps;
      var u, g := t, h;
      if ps[0] != [] {
        var d := Redactor.Drain(k.literals, h + Strip(ps[0]), false);
        WriteStep(s, base, t, h, ps[0], k);
        u, g := t + Redactor.Render(d.segs), d.pending;
      }
      t', h' := WritesAreSound(WriteSink(s, ps[0], k), base, u, g, ps[1..], k);
    }
  }

  /** After any number of writes the record ends between characters: every length a
      reader can see is a usable cursor. */
  lemma VisibleIsText(base: Bytes, ps: seq<Bytes>, k: Limits)
    requires Valid(base) && AllValid(ps) && TextLimits(k) && Valid(k.marker)
    ensures Valid(WriteAll(NewSink(base), ps, k).buf)
    ensures base <= WriteAll(NewSink(base), ps, k).buf
  {
    assert Left([], k.runLimit, k.note) == [];
    var t, h := WritesAreSound(NewSink(base), base, [], [], ps, k);
    LeftIsValid(t, k);
    AppendIsValid(base, Left(t, k.runLimit, k.note), k.limit, k.marker);
    AppendGrows(base, Left(t, k.runLimit, k.note), k.limit, k.marker);
  }

  // ------------------------------------------------------------------ constants

  function Ascii(s: string): (b: Bytes)
    ensures |b| == |s| && IsAscii(b)
  {
    if s == [] then []
    else [if s[0] < 128 as char then s[0] as int as Byte else 63] + Ascii(s[1..])
  }

  const RUN_LIMIT: int := 16 * 1024 * 1024
  const SCROLLBACK_LIMIT: int := 256 * 1024 * 1024
  const RUN_NOTE := Ascii("\n[session-platform: invocation output truncated at 16 MiB]\n")
  const SESSION_NOTE := Ascii("\n[session-platform: session output limit reached; further prompts are disabled]\n")

  /** The deployed limits are ones the theorems cover. */
  lemma DeployedLimits(literals: seq<Bytes>)
    requires TextLiterals(literals)
    ensures TextLimits(Limits(literals, RUN_LIMIT, RUN_NOTE, SCROLLBACK_LIMIT, SESSION_NOTE))
    ensures Valid(SESSION_NOTE) && |SESSION_NOTE| <= SCROLLBACK_LIMIT
  {
    AsciiIsValid(SESSION_NOTE);
  }

  // ------------------------------------------------------------------ the object

  /** The middle of appendBoundedLocked: emit what fits beside the note. */
  function EmitStep(s: Sink, dataLimit: nat, k: Limits): Sink {
    var c := s.cap;
    var n := if dataLimit - c.emitted > 0 then Clip(c.tail, dataLimit - c.emitted) else 0;
    Session(s, c.tail[..n], k).(cap := c.(emitted := c.emitted + n, tail := c.tail[n..]))
  }

  function BoundLimited(s: Sink, p: Bytes, k: Limits): Sink {
    var m := MarkerBytes(k.runLimit, k.note);
    var sent := EmitStep(TakeStep(s, p), if k.runLimit < m then 0 else k.runLimit - m, k);
    if sent.cap.seen > k.runLimit then TruncateStep(sent, k.note[..m], k) else sent
  }

  function TruncateStep(s: Sink, note: Bytes, k: Limits): Sink {
    Session(s, note, k).(cap := s.cap.(tail := [], truncated := true))
  }

  /** Counting p, before anything is emitted. */
  function TakeStep(s: Sink, p: Bytes): Sink {
    s.(cap := s.cap.(seen := s.cap.seen + |p|, tail := s.cap.tail + p))
  }

  lemma BoundInSteps(s: Sink, p: Bytes, k: Limits)
    requires p != [] && !s.cap.truncated && !s.full && k.runLimit > 0
    ensures Bound(s, p, k) == BoundLimited(s, p, k)
  {
  }

  class ClaudeOutputSink {
    const out: Buffer
    const redactor: Redactor.StreamingRedactor
    const runLimit: int
    const note: Bytes
    const scrollbackLimit: int
    const marker: Bytes
    var runSeen: nat
    var runEmitted: nat
    var runPending: Bytes
    var truncated: bool
    var closed: bool
    var sessionFull: bool
    var fullCalls: nat    // calls of onSessionFull

    ghost predicate Ready()
      reads this, redactor
    {
      Redactor.Literals(redactor.literals)
    }

    function K(): Limits { Limits(redactor.literals, runLimit, note, scrollbackLimit, marker) }

    function State(): Sink
      reads this, out, redactor
    {
      Sink(out.buf, redactor.pending, Cap(runSeen, runEmitted, runPending, truncated), closed, sessionFull)
    }

    constructor (out: Buffer, redact: seq<Bytes>, runLimit: int, note: Bytes, scrollbackLimit: int, marker: Bytes)
      ensures this.out == out && fresh(redactor) && Ready()
      ensures State() == NewSink(out.buf)
      ensures K() == Limits(Redactor.NonEmpty(redact), runLimit, note, scrollbackLimit, marker)
      ensures fullCalls == 0
    {
      var r := new Redactor.StreamingRedactor(redact);
      this.out, redactor := out, r;
      this.runLimit, this.note, this.scrollbackLimit, this.marker := runLimit, note, scrollbackLimit, marker;
      runSeen, runEmitted, runPending := 0, 0, [];
      truncated, closed, sessionFull, fullCalls := false, false, false, 0;
    }

    method AppendSession(p: Bytes)
      modifies this`sessionFull, this`fullCalls, out
      ensures State() == Session(old(State()), p, K())
      ensures fullCalls == old(fullCalls) + if sessionFull && !old(sessionFull) then 1 else 0
    {
      if p == [] || sessionFull { return; }
      var becameFull := out.AppendBoundedAt(p, scrollbackLimit, marker);
      if becameFull {
        sessionFull := true;
        fullCalls := fullCalls + 1;
      }
    }

    method AppendBoundedLocked(p: Bytes)
      modifies this, out
      ensures State() == Bound(old(State()), p, K())
      ensures fullCalls == old(fullCalls) + if sessionFull && !old(sessionFull) then 1 else 0
    {
      if p == [] || truncated || sessionFull { return; }
      if runLimit <= 0 {
        AppendSession(p);
        return;
      }
      BoundInSteps(State(), p, K());
      AppendLimited(p);
    }

    method AppendLimited(p: Bytes)
      requires runLimit > 0
      modifies this, out
      ensures State() == BoundLimited(old(State()), p, K())
      ensures fullCalls == old(fullCalls) + if sessionFull && !old(sessionFull) then 1 else 0
    {
      TakePending(p);
      var markerBytes := Min(|note|, runLimit);
      EmitPending(runLimit - markerBytes);
      if runSeen > runLimit {
        TruncateRun(markerBytes);
      }
    }

    method TakePending(p: Bytes)
      modifies this`runSeen, this`runPending
      ensures State() == TakeStep(old(State()), p)
    {
      runSeen := runSeen + |p|;
      runPending := runPending + p;
    }

    method TruncateRun(markerBytes: nat)
      requires markerBytes <= |note|
      modifies this, out
      ensures State() == TruncateStep(old(State()), note[..markerBytes], K())
      ensures fullCalls == old(fullCalls) + if sessionFull && !old(sessionFull) then 1 else 0
    {
      runPending := [];
      AppendSession(note[..markerBytes]);
      truncated := true;
    }

    /** The part of runPending that fits beside the note, at a character boundary. */
    method EmitPending(dataLimit: nat)
      modifies this, out
      ensures State() == EmitStep(old(State()), dataLimit, K())
      ensures fullCalls == old(fullCalls) + if sessionFull && !old(sessionFull) then 1 else 0
    {
      hide AppendBounded;
      hide Fills;
      hide Clip;
      var canEmit: int := dataLimit - runEmitted;
      assert runPending[..0] == [] && runPending[0..] == runPending;
      if canEmit > 0 {
        ClipMin(runPending, canEmit);
        canEmit := ValidUTF8PrefixAtMost(runPending, Min(canEmit, |runPending|));
        if canEmit > 0 {
          AppendSession(runPending[..canEmit]);
          runEmitted := runEmitted + canEmit;
          runPending := runPending[canEmit..];
        }
      }
    }

    method Write(p: Bytes)
      requires Ready()
      modifies this, out, redactor
      ensures Ready() && State() == WriteSink(old(State()), p, K())
      ensures fullCalls == old(fullCalls) + if sessionFull && !old(sessionFull) then 1 else 0
    {
      if p == [] || closed || truncated || sessionFull { return; }
      var text := redactor.Push(Strip(p));
      AppendBoundedLocked(text);
    }

    method Close()
      requires Ready()
      modifies this, out, redactor
      ensures Ready() && State() == CloseSink(old(State()), K())
      ensures fullCalls == old(fullCalls) + if sessionFull && !old(sessionFull) then 1 else 0
    {
      if closed { return; }
      if !truncated && !sessionFull {
        var text := redactor.Finish();
        AppendBoundedLocked(text);
      }
      if !truncated && runPending != [] {
        AppendSession(runPending);
        runPending := [];
      }
      closed := true;
    }
  }
}
