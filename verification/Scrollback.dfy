/** The append-only record of a session (scrollback in data-plane/cmd/agent/main.go,
    streamChunk and serveOutputStream in data-plane/cmd/agent/output_stream.go). */
module Scrollback {
  import opened Wrappers
  import opened Bytes
  import opened Utf8

  // --------------------------------------------------- validUTF8PrefixAtMost

  function Min(a: int, b: int): int { if a < b then a else b }

  function Clip(p: Bytes, limit: int): (n: nat)
    ensures n <= |p| && (0 <= limit ==> n <= limit)
    decreases if limit < 0 then 0 else limit
  {
    if limit >= |p| then |p|
    else if limit <= 0 then 0
    else if RuneStart(p[limit]) then limit
    else Clip(p, limit - 1)
  }

  lemma ClipWhole(p: Bytes, limit: int)
    requires |p| <= limit
    ensures Clip(p, limit) == |p|
  {
  }

  lemma ClipMin(p: Bytes, limit: int)
    ensures Clip(p, Min(limit, |p|)) == Clip(p, limit)
  {
  }

  /** The longest cut at or below limit that splits no character. */
  ghost predicate IsClip(p: Bytes, limit: nat, n: nat) {
    n <= limit && Boundary(p, n) && forall j: nat :: j <= limit && Boundary(p, j) ==> j <= n
  }

  lemma {:induction false} ClipMeans(p: Bytes, limit: nat)
    requires Valid(p)
    ensures IsClip(p, limit, Clip(p, limit))
    ensures limit <= |p| ==> limit < Clip(p, limit) + 4
    ensures Valid(p[..Clip(p, limit)]) && Valid(p[Clip(p, limit)..])
  {
    ClipIsLast(p, limit);
    RuneStartCut(p, Clip(p, limit));
    if limit <= |p| {
      var j := BoundaryNear(p, limit);
    }
  }

  lemma {:induction false} ClipIsLast(p: Bytes, limit: nat)
    requires Valid(p)
    ensures IsClip(p, limit, Clip(p, limit))
  {
    if limit >= |p| {
    } else if limit == 0 {
      assert Boundary(p, 0) by { BoundaryMeans(p, 0); assert p[..0] == []; }
    } else if !RuneStart(p[limit]) {
      ClipIsLast(p, limit - 1);
    }
  }

  method ValidUTF8PrefixAtMost(p: Bytes, limit: int) returns (n: nat)
    ensures n == Clip(p, limit)
  {
    if limit >= |p| { return |p|; }
    if limit <= 0 { return 0; }
    n := limit;
    while n > 0 && !RuneStart(p[n])
      invariant n < |p| && Clip(p, n) == Clip(p, limit)
    {
      n := n - 1;
    }
  }

  /** The last cut is unique, so a cut that is one is the clip. */
  lemma ClipIs(p: Bytes, limit: nat, n: nat)
    requires Valid(p) && IsClip(p, limit, n) && n <= |p|
    ensures Clip(p, limit) == n
  {
    ClipIsLast(p, limit);
  }

  /** Clipping what follows an earlier boundary gives the clip of the whole. */
  lemma ClipFrom(s: Bytes, e: nat, limit: nat)
    requires Valid(s) && e <= limit && e <= |s| && Boundary(s, e)
    ensures Valid(s[e..]) && e + Clip(s[e..], limit - e) == Clip(s, limit)
  {
    hide Valid;
    hide Clip;
    RuneStartCut(s, e);
    ClipIsLast(s[e..], limit - e);
    var k := Clip(s[e..], limit - e);
    BoundaryShift(s, e);
    forall j: nat | j <= limit && Boundary(s, j)
      ensures j <= e + k
    {
      if e <= j { assert Boundary(s[e..], j - e); }
    }
    ClipIs(s, limit, e + k);
  }

  /** Text beyond the limit does not move the clip. */
  lemma ClipStands(t: Bytes, q: Bytes, limit: nat)
    requires Valid(t) && Valid(t + q) && limit < |t|
    ensures Clip(t + q, limit) == Clip(t, limit)
  {
    ClipIsLast(t, limit);
    var n := Clip(t, limit);
    forall j: nat | j <= limit
      ensures Boundary(t + q, j) <==> Boundary(t, j)
    {
    }
    ClipIs(t + q, limit, n);
  }

  lemma ClipContinues(t: Bytes, q: Bytes, limit: nat)
    requires Valid(t) && Valid(q)
    ensures var e := Clip(t, limit);
      && Valid(t + q) && t[e..] + q == (t + q)[e..]
      && e + Clip(t[e..] + q, limit - e) == Clip(t + q, limit)
  {
    hide Clip;
    hide Valid;
    var e := Clip(t, limit);
    ClipIsLast(t, limit);
    ValidAppend(t, q);
    StartsWhole(t, q, e);
    assert t[e..] + q == (t + q)[e..];
    ClipFrom(t + q, e, limit);
  }

  /** A boundary of the first part is one of the whole. */
  lemma StartsWhole(t: Bytes, q: Bytes, e: nat)
    requires Valid(t) && Valid(q) && Boundary(t, e) && e <= |t|
    ensures Boundary(t + q, e)
  {
    if q != [] { InsideContinues(q, 0); }
  }

  lemma BoundaryShift(s: Bytes, e: nat)
    requires e <= |s|
    ensures forall j: nat :: e <= j ==> (Boundary(s, j) <==> Boundary(s[e..], j - e))
  {
  }

  // ------------------------------------------------- the bounded append (AC-E3)

  /** Nothing has been left on an open line. */
  predicate LineComplete(s: Bytes) { s == [] || s[|s| - 1] == NEWLINE }

  function DataLimit(limit: int, marker: Bytes): nat {
    if limit < |marker| then 0 else limit - |marker|
  }

  /** claudeFullAtLocked. */
  predicate Full(buf: Bytes, limit: int, marker: Bytes) { |buf| > DataLimit(limit, marker) }

  /** The append that writes the marker, and no other, reports the session full. */
  predicate Fills(buf: Bytes, p: Bytes, limit: int, marker: Bytes) {
    !Full(buf, limit, marker) && p != [] && |buf| + |p| > DataLimit(limit, marker)
  }

  function AppendBounded(buf: Bytes, p: Bytes, limit: int, marker: Bytes): Bytes {
    if Full(buf, limit, marker) || p == [] then buf
    else if !Fills(buf, p, limit, marker) then buf + p
    else buf + p[..Clip(p, DataLimit(limit, marker) - |buf|)] + marker
  }

  /** The record only grows at its end, and never past its limit. */
  lemma AppendGrows(buf: Bytes, p: Bytes, limit: int, marker: Bytes)
    ensures buf <= AppendBounded(buf, p, limit, marker)
    ensures |marker| <= limit && |buf| <= limit ==> |AppendBounded(buf, p, limit, marker)| <= limit
  {
  }

  /** Marker bytes that could leave room for another append after them. */
  lemma FillsIsFinal(buf: Bytes, p: Bytes, limit: int, marker: Bytes)
    requires Fills(buf, p, limit, marker)
    ensures var room := DataLimit(limit, marker) - |buf|;
      Full(AppendBounded(buf, p, limit, marker), limit, marker) <==> room - Clip(p, room) < |marker|
    ensures Valid(p) && |marker| > 3 ==> Full(AppendBounded(buf, p, limit, marker), limit, marker)
  {
    hide Valid;
    hide Clip;
    if Valid(p) {
      ClipMeans(p, DataLimit(limit, marker) - |buf|);
    }
  }

  lemma AppendIsValid(buf: Bytes, p: Bytes, limit: int, marker: Bytes)
    requires Valid(buf) && Valid(p) && Valid(marker)
    ensures Valid(AppendBounded(buf, p, limit, marker))
  {
    hide Valid;
    hide Clip;
    ValidAppend(buf, p);
    if Fills(buf, p, limit, marker) {
      var cut := p[..Clip(p, DataLimit(limit, marker) - |buf|)];
      ClipMeans(p, DataLimit(limit, marker) - |buf|);
      ValidAppend(buf, cut);
      ValidAppend(buf + cut, marker);
    }
  }

  /** Two appends are one append of both texts. */
  lemma AppendTwice(buf: Bytes, p: Bytes, q: Bytes, limit: int, marker: Bytes)
    requires Valid(p) && Valid(q) && |marker| > 3
    ensures AppendBounded(AppendBounded(buf, p, limit, marker), q, limit, marker) == AppendBounded(buf, p + q, limit, marker)
  {
    hide Valid;
    hide Clip;
    if p == [] {
      assert p + q == q;
    } else if q == [] {
      assert p + q == p;
    } else if Fills(buf, p, limit, marker) {
      FillsIsFinal(buf, p, limit, marker);
      var room := DataLimit(limit, marker) - |buf|;
      ValidAppend(p, q);
      ClipStands(p, q, room);
      assert (p + q)[..Clip(p, room)] == p[..Clip(p, room)];
    } else if !Full(buf, limit, marker) {
      FitsThenFills(buf, p, q, limit, marker);
    }
  }

  lemma FitsThenFills(buf: Bytes, p: Bytes, q: Bytes, limit: int, marker: Bytes)
    requires Valid(p) && Valid(q) && p != [] && q != []
    requires !Full(buf, limit, marker) && !Fills(buf, p, limit, marker)
    ensures AppendBounded(buf + p, q, limit, marker) == AppendBounded(buf, p + q, limit, marker)
  {
    ClipPast(p, q, DataLimit(limit, marker) - |buf|);
    BothParts(buf, p, q, limit, marker);
  }

  lemma BothParts(buf: Bytes, p: Bytes, q: Bytes, limit: int, marker: Bytes)
    requires p != [] && q != [] && |buf| + |p| <= DataLimit(limit, marker)
    requires var room := DataLimit(limit, marker) - |buf|; Clip(p + q, room) == |p| + Clip(q, room - |p|)
    ensures AppendBounded(buf + p, q, limit, marker) == AppendBounded(buf, p + q, limit, marker)
  {
    var room := DataLimit(limit, marker) - |buf|;
    var n := Clip(q, room - |p|);
    assert |p + q| == |p| + |q|;
    if |p| + |q| <= room {
      Assoc(buf, p, q);
    } else {
      assert AppendBounded(buf + p, q, limit, marker) == (buf + p) + q[..n] + marker;
      assert AppendBounded(buf, p + q, limit, marker) == buf + (p + q)[..|p| + n] + marker;
      CutJoin(buf, p, q, n);
    }
  }

  lemma CutJoin(a: Bytes, b: Bytes, c: Bytes, n: nat)
    requires n <= |c|
    ensures a + (b + c)[..|b| + n] == (a + b) + c[..n]
  {
    assert (b + c)[..|b| + n] == b + c[..n];
  }

  lemma ClipPast(p: Bytes, q: Bytes, limit: nat)
    requires Valid(p) && Valid(q) && |p| <= limit
    ensures Clip(p + q, limit) == |p| + Clip(q, limit - |p|)
  {
    hide Clip;
    hide Valid;
    ClipWhole(p, limit);
    ClipContinues(p, q, limit);
    assert p[|p|..] + q == q;
  }

  function AppendAll(buf: Bytes, ps: seq<Bytes>, limit: int, marker: Bytes): Bytes
    decreases |ps|
  {
    if ps == [] then buf else AppendAll(AppendBounded(buf, ps[0], limit, marker), ps[1..], limit, marker)
  }

  ghost predicate AllValid(ps: seq<Bytes>) { forall p :: p in ps ==> Valid(p) }

  /** However a text is split, the record ends up holding it whole or its longest
      prefix that fits, then the marker. */
  lemma {:induction false} AppendAllIsOne(buf: Bytes, ps: seq<Bytes>, limit: int, marker: Bytes)
    requires AllValid(ps) && |marker| > 3
    ensures Valid(Concat(ps))
    ensures AppendAll(buf, ps, limit, marker) == AppendBounded(buf, Concat(ps), limit, marker)
    decreases |ps|
  {
    if ps != [] {
      assert ps[0] in ps;
      AppendAllIsOne(AppendBounded(buf, ps[0], limit, marker), ps[1..], limit, marker);
      ValidAppend(ps[0], Concat(ps[1..]));
      AppendTwice(buf, ps[0], Concat(ps[1..]), limit, marker);
    }
  }

  /** A restored record goes on from the archived copy: whatever is appended, the bytes
      below any cursor into the copy stay what they were. */
  lemma {:induction false} CursorsSurvive(copy: Bytes, ps: seq<Bytes>, limit: int, marker: Bytes, cursor: nat)
    requires cursor <= |copy|
    ensures cursor <= |AppendAll(copy, ps, limit, marker)|
    ensures AppendAll(copy, ps, limit, marker)[..cursor] == copy[..cursor]
    decreases |ps|
  {
    if ps != [] {
      var next := AppendBounded(copy, ps[0], limit, marker);
      AppendGrows(copy, ps[0], limit, marker);
      CursorsSurvive(next, ps[1..], limit, marker, cursor);
    }
  }

  // -------------------------------------------------- waiting for the next append

  /** What one call of streamChunk returns. */
  datatype Chunk = Chunk(payload: Bytes, start: nat, next: nat, reset: bool)

  function ChunkAt(buf: Bytes, offset: nat, limit: int): Chunk {
    if offset > |buf| then Chunk([], |buf|, |buf|, true)
    else if offset == |buf| then Chunk([], offset, offset, false)
    else if limit <= 0 || |buf| - offset <= limit then Chunk(buf[offset..], offset, |buf|, false)
    else
      var safe := Clip(buf[offset..], limit);
      var end := offset + if safe > 0 then safe else limit;
      Chunk(buf[offset..end], offset, end, false)
  }

  /** A chunk is the record's own bytes, never empty while bytes remain; on
      well-formed text a good cursor gives a good cursor. */
  lemma ChunkMeans(buf: Bytes, offset: nat, limit: int)
    ensures var c := ChunkAt(buf, offset, limit);
      && c.reset == (offset > |buf|)
      && (c.reset ==> c.next == |buf| && c.payload == [])
      && c.next <= |buf|
      && (!c.reset ==> c.start == offset <= c.next && c.payload == buf[offset..c.next])
      && (offset < |buf| ==> offset < c.next)
      && (limit > 0 ==> |c.payload| <= limit)
      && (Valid(buf) && offset <= |buf| && Boundary(buf, offset) && (limit <= 0 || limit > 3) ==> Boundary(buf, c.next))
  {
    if Valid(buf) && offset < |buf| && Boundary(buf, offset) && 3 < limit < |buf| - offset {
      RuneStartCut(buf, offset);
      ClipMeans(buf[offset..], limit);
      BoundaryShift(buf, offset);
    }
  }

  /** The calls that can touch a buffer between two steps of one stream. */
  datatype Call =
    | Write(p: Bytes)
    | WriteBounded(q: Bytes, limit: int, marker: Bytes)
    | Replace(all: Bytes)
    | Look

  datatype Watch = Watch(buf: Bytes, watched: bool, generation: nat)

  function After(w: Watch, c: Call): Watch {
    match c
    case Write(p) => Watch(w.buf + p, w.watched, w.generation + if w.watched && p != [] then 1 else 0)
    case WriteBounded(q, limit, marker) =>
      Watch(AppendBounded(w.buf, q, limit, marker), w.watched,
            w.generation + if w.watched && !Full(w.buf, limit, marker) && q != [] then 1 else 0)
    case Replace(all) => Watch(all, w.watched, w.generation + if w.watched then 1 else 0)
    case Look => w.(watched := true)
  }

  class Buffer {
    var buf: Bytes
    var watched: bool     // changed != nil
    var generation: nat   // channels closed so far; the open one is number `generation`

    constructor (initial: Bytes)
      ensures buf == initial && !watched && generation == 0
    {
      buf, watched, generation := initial, false, 0;
    }

    function State(): Watch
      reads this
    {
      Watch(buf, watched, generation)
    }

    method NotifyLocked()
      modifies this`generation
      ensures generation == old(generation) + if watched then 1 else 0
    {
      if watched { generation := generation + 1; }
    }

    method Append(p: Bytes)
      modifies this
      ensures State() == After(old(State()), Write(p))
    {
      if p == [] {
        assert buf + p == buf;
        return;
      }
      buf := buf + p;
      NotifyLocked();
    }

    method AppendBoundedAt(p: Bytes, limit: int, marker: Bytes) returns (becameFull: bool)
      modifies this
      ensures State() == After(old(State()), WriteBounded(p, limit, marker))
      ensures becameFull == Fills(old(buf), p, limit, marker)
    {
      if |buf| > DataLimit(limit, marker) || p == [] { return false; }
      var dataLimit := DataLimit(limit, marker);
      if |buf| + |p| <= dataLimit {
        buf := buf + p;
        NotifyLocked();
        return false;
      }
      ghost var before := buf;
      var remaining := dataLimit - |buf|;
      if remaining > 0 {
        var prefix := ValidUTF8PrefixAtMost(p, Min(remaining, |p|));
        buf := buf + p[..prefix];
      }
      assert buf == before + p[..Clip(p, remaining)];
      buf := buf + marker;
      NotifyLocked();
      return true;
    }

    method Since(offset: int) returns (payload: Bytes, next: nat)
      ensures next == |buf|
      ensures payload == if 0 <= offset < |buf| then buf[offset..] else []
    {
      if offset < 0 || offset >= |buf| { return [], |buf|; }
      return buf[offset..], |buf|;
    }

    predicate EndsWithNewline()
      reads this
    {
      LineComplete(buf)
    }

    method Restore(p: Bytes)
      modifies this
      ensures State() == After(old(State()), Replace(p))
    {
      buf := p;
      NotifyLocked();
    }

    method StreamChunk(offset: nat, limit: int) returns (c: Chunk, channel: nat)
      modifies this`watched
      ensures c == ChunkAt(buf, offset, limit) && channel == generation
      ensures State() == After(old(State()), Look)
    {
      watched := true;
      channel := generation;
      if offset > |buf| { return Chunk([], |buf|, |buf|, true), channel; }
      if offset == |buf| { return Chunk([], offset, offset, false), channel; }
      var end := |buf|;
      if limit > 0 && end - offset > limit {
        end := offset + limit;
        var safe := ValidUTF8PrefixAtMost(buf[offset..], end - offset);
        if safe > 0 { end := offset + safe; }
      }
      return Chunk(buf[offset..end], offset, end, false), channel;
    }
  }

  function AfterAll(w: Watch, calls: seq<Call>): Watch
    decreases |calls|
  {
    if calls == [] then w else AfterAll(After(w, calls[0]), calls[1..])
  }

  /** No wakeup is lost: whatever happens after a stream looked, either its channel
      was closed or the record is still what it saw. */
  lemma {:induction false} NoLostWakeup(w: Watch, calls: seq<Call>)
    requires w.watched
    ensures AfterAll(w, calls).generation >= w.generation
    ensures AfterAll(w, calls).generation > w.generation || AfterAll(w, calls).buf == w.buf
    decreases |calls|
  {
    if calls != [] {
      NoLostWakeup(After(w, calls[0]), calls[1..]);
      match calls[0] {
        case Write(p) => assert p == [] ==> w.buf + p == w.buf;
        case WriteBounded(_, _, _) =>
        case Replace(_) =>
        case Look =>
      }
    }
  }

  // ------------------------------------------------------------- the cursor loop

  const STREAM_CHUNK: int := 65536

  /** The record as successive turns of the loop find it: append-only. */
  ghost predicate Growing(views: seq<Bytes>) {
    forall i, j :: 0 <= i <= j < |views| ==> views[i] <= views[j]
  }

  lemma PrefixEndsWhole(view: Bytes, last: Bytes, i: nat)
    requires Valid(view) && Valid(last) && view <= last && i <= |view|
    ensures Boundary(view, i) <==> Boundary(last, i)
  {
    assert last[..|view|] == view;
    BoundaryMeans(last, |view|);
  }

  /** serveOutputStream, one iteration per view. The client gets the record from its
      cursor on, without gap or repeat; only a cursor past the end is first moved back. */
  method Serve(views: seq<Bytes>, from: nat) returns (sent: Bytes, offset: nat, resets: nat)
    requires Growing(views) && views != []
    ensures var begin := Min(from, |views[0]|);
      var last := views[|views| - 1];
      && resets == (if from > |views[0]| then 1 else 0)
      && begin <= offset <= |last|
      && sent == last[begin..offset]
      && (AllValid(views) && Boundary(last, begin) ==> Boundary(last, offset))
  {
    hide ChunkAt;
    hide Valid;
    sent, offset, resets := [], from, 0;
    ghost var begin := Min(from, |views[0]|);
    ghost var last := views[|views| - 1];
    for i := 0 to |views|
      invariant i == 0 ==> offset == from && resets == 0 && sent == []
      invariant i > 0 ==> begin <= offset <= |views[i - 1]| && resets == if from > |views[0]| then 1 else 0
      invariant i > 0 ==> sent == last[begin..offset]
      invariant i > 0 && AllValid(views) && Boundary(last, begin) ==> Boundary(last, offset)
    {
      assert views[i] <= last;
      assert i > 0 ==> views[i - 1] <= views[i];
      ghost var was := if offset > |views[i]| then |views[i]| else offset;
      var c := ChunkAt(views[i], offset, STREAM_CHUNK);
      ChunkMeans(views[i], offset, STREAM_CHUNK);
      if AllValid(views) && Boundary(last, was) {
        assert views[i] in views && last in views;
        PrefixEndsWhole(views[i], last, was);
        PrefixEndsWhole(views[i], last, c.next);
      }
      assert c.payload == last[was..c.next];
      if c.reset {
        resets := resets + 1;
      } else {
        sent := sent + c.payload;
      }
      offset := c.next;
    }
  }
}
