/** streamingRedactor (data-plane/cmd/agent/claude_stream.go): credential literals
    are replaced in a byte stream whose chunks may split them anywhere. */
module Redactor {
  import opened Wrappers
  import opened Bytes

  /** redactedLiteral, "[REDACTED]". */
  const REDACTED: Bytes := [91, 82, 69, 68, 65, 67, 84, 69, 68, 93]

  // ------------------------------------------------------- whole-input reference

  ghost predicate Literals(literals: seq<Bytes>) { forall l :: l in literals ==> l != [] }

  /** The longest literal that occurs at position i, or the empty string. */
  function LongestAt(literals: seq<Bytes>, s: Bytes, i: nat): (best: Bytes)
    ensures i + |best| <= |s| || best == []
  {
    if literals == [] then []
    else
      var rest := LongestAt(literals[1..], s, i);
      if OccursAt(s, literals[0], i) && |literals[0]| > |rest| then literals[0] else rest
  }

  lemma {:induction false} LongestAtMeans(literals: seq<Bytes>, s: Bytes, i: nat)
    ensures var best := LongestAt(literals, s, i);
      && (best == [] || (best in literals && OccursAt(s, best, i)))
      && (forall l :: l in literals && OccursAt(s, l, i) ==> |l| <= |best|)
  {
    if literals != [] {
      LongestAtMeans(literals[1..], s, i);
    }
  }

  datatype Match = Match(at: nat, len: nat)

  /** The leftmost occurrence of any literal at or after i; the longest one on a tie. */
  function FirstMatchFrom(literals: seq<Bytes>, s: Bytes, i: nat): (m: Option<Match>)
    ensures m.Some? ==> i <= m.value.at && 0 < m.value.len && m.value.at + m.value.len <= |s|
    decreases |s| - i
  {
    if i >= |s| then None
    else if LongestAt(literals, s, i) != [] then Some(Match(i, |LongestAt(literals, s, i)|))
    else FirstMatchFrom(literals, s, i + 1)
  }

  function FirstMatch(literals: seq<Bytes>, s: Bytes): (m: Option<Match>)
    ensures m.Some? ==> 0 < m.value.len && m.value.at + m.value.len <= |s|
  {
    FirstMatchFrom(literals, s, 0)
  }

  /** Leftmost, longest replacement over a whole input. */
  function Redact(literals: seq<Bytes>, s: Bytes): Bytes
    decreases |s|
  {
    match FirstMatch(literals, s)
    case None => s
    case Some(m) => s[..m.at] + REDACTED + Redact(literals, s[m.at + m.len..])
  }

  /** What being the first match means, both ways. */
  ghost predicate IsFirst(literals: seq<Bytes>, s: Bytes, m: Match) {
    && (exists l :: l in literals && l != [] && |l| == m.len && OccursAt(s, l, m.at))
    && (forall l, i: nat :: l in literals && l != [] && i < m.at ==> !OccursAt(s, l, i))
    && (forall l :: l in literals && OccursAt(s, l, m.at) ==> |l| <= m.len)
  }

  ghost predicate NoMatch(literals: seq<Bytes>, s: Bytes) {
    forall l, i: nat :: l in literals && l != [] ==> !OccursAt(s, l, i)
  }

  lemma {:induction false} FirstMatchFromMeans(literals: seq<Bytes>, s: Bytes, i: nat)
    requires forall l, j: nat :: l in literals && l != [] && j < i ==> !OccursAt(s, l, j)
    ensures FirstMatchFrom(literals, s, i).None? ==> NoMatch(literals, s)
    ensures FirstMatchFrom(literals, s, i).Some? ==> IsFirst(literals, s, FirstMatchFrom(literals, s, i).value)
    decreases |s| - i
  {
    LongestAtMeans(literals, s, i);
    if i < |s| && LongestAt(literals, s, i) == [] {
      FirstMatchFromMeans(literals, s, i + 1);
    }
  }

  lemma FirstMatchMeans(literals: seq<Bytes>, s: Bytes)
    ensures FirstMatch(literals, s).None? <==> NoMatch(literals, s)
    ensures forall m :: FirstMatch(literals, s) == Some(m) <==> IsFirst(literals, s, m)
  {
    FirstMatchFromMeans(literals, s, 0);
    forall m | IsFirst(literals, s, m)
      ensures FirstMatch(literals, s) == Some(m)
    {
      var l :| l in literals && l != [] && |l| == m.len && OccursAt(s, l, m.at);
      var f := FirstMatch(literals, s).value;
      var k :| k in literals && k != [] && |k| == f.len && OccursAt(s, k, f.at);
      assert f.at == m.at;
    }
  }

  // ------------------------------------------------------------ the stream machine

  /** What a drain emits, in order: text passed through, and text replaced by the marker. */
  datatype Segs = Done | Clean(text: Bytes, next: Segs) | Hidden(text: Bytes, next: Segs)

  function Append(a: Segs, b: Segs): Segs {
    match a
    case Done => b
    case Clean(text, next) => Clean(text, Append(next, b))
    case Hidden(text, next) => Hidden(text, Append(next, b))
  }

  function Render(segs: Segs): Bytes {
    match segs
    case Done => []
    case Clean(text, next) => text + Render(next)
    case Hidden(_, next) => REDACTED + Render(next)
  }

  /** The input bytes a drain consumed. */
  function Source(segs: Segs): Bytes {
    match segs
    case Done => []
    case Clean(text, next) => text + Source(next)
    case Hidden(text, next) => text + Source(next)
  }

  /** Input position j was replaced. */
  predicate HiddenAt(segs: Segs, j: int) {
    match segs
    case Done => false
    case Clean(text, next) => HiddenAt(next, j - |text|)
    case Hidden(text, next) => 0 <= j < |text| || HiddenAt(next, j - |text|)
  }

  /** A literal's first n bytes are the stream's last n. */
  predicate HeldBy(literal: Bytes, s: Bytes, n: nat) {
    n < |literal| && n <= |s| && forall k :: 0 <= k < n ==> literal[k] == s[|s| - n + k]
  }

  /** How much of s must wait: the longest end of s that begins, but is not, a literal. */
  ghost predicate IsKeep(literals: seq<Bytes>, s: Bytes, keep: nat) {
    && keep <= |s|
    && (keep == 0 || exists l :: l in literals && HeldBy(l, s, keep))
    && (forall l, n: nat :: l in literals && HeldBy(l, s, n) ==> n <= keep)
  }

  function LongestHeld(literal: Bytes, s: Bytes, n: nat): (held: nat)
    requires n <= |s|
    ensures held <= n
  {
    if n == 0 || HeldBy(literal, s, n) then n else LongestHeld(literal, s, n - 1)
  }

  function Keep(literals: seq<Bytes>, s: Bytes): (keep: nat)
    ensures keep <= |s|
  {
    if literals == [] then 0
    else
      var head := LongestHeld(literals[0], s, |s|);
      var rest := Keep(literals[1..], s);
      if head > rest then head else rest
  }

  lemma {:induction false} LongestHeldMeans(literal: Bytes, s: Bytes, n: nat)
    requires n <= |s|
    ensures var held := LongestHeld(literal, s, n);
      (held == 0 || HeldBy(literal, s, held)) && (forall k: nat :: k <= n && HeldBy(literal, s, k) ==> k <= held)
  {
    if n != 0 && !HeldBy(literal, s, n) {
      LongestHeldMeans(literal, s, n - 1);
    }
  }

  lemma {:induction false} KeepMeans(literals: seq<Bytes>, s: Bytes)
    ensures IsKeep(literals, s, Keep(literals, s))
  {
    if literals != [] {
      LongestHeldMeans(literals[0], s, |s|);
      KeepMeans(literals[1..], s);
    }
  }

  datatype Drained = Drained(segs: Segs, pending: Bytes)

  function Drain(literals: seq<Bytes>, pending: Bytes, final: bool): (d: Drained)
    ensures final ==> d.pending == []
    decreases |pending|
  {
    if pending == [] then Drained(Done, [])
    else
      match FirstMatch(literals, pending)
      case Some(m) =>
        var rest := Drain(literals, pending[m.at + m.len..], final);
        Drained(Clean(pending[..m.at], Hidden(pending[m.at..m.at + m.len], rest.segs)), rest.pending)
      case None =>
        var keep := if final then 0 else Keep(literals, pending);
        Drained(Clean(pending[..|pending| - keep], Done), pending[|pending| - keep..])
  }

  /** Every Push of a stream, then Finish. */
  function Stream(literals: seq<Bytes>, pending: Bytes, chunks: seq<Bytes>): Segs
    decreases |chunks|
  {
    if chunks == [] then Drain(literals, pending, true).segs
    else
      var d := Drain(literals, pending + chunks[0], false);
      Append(d.segs, Stream(literals, d.pending, chunks[1..]))
  }

  lemma {:induction false} RenderAppend(a: Segs, b: Segs)
    ensures Render(Append(a, b)) == Render(a) + Render(b)
  {
    match a {
      case Done =>
      case Clean(_, next) => RenderAppend(next, b);
      case Hidden(_, next) => RenderAppend(next, b);
    }
  }

  lemma {:induction false} SourceAppend(a: Segs, b: Segs)
    ensures Source(Append(a, b)) == Source(a) + Source(b)
  {
    match a {
      case Done =>
      case Clean(_, next) => SourceAppend(next, b);
      case Hidden(_, next) => SourceAppend(next, b);
    }
  }

  lemma {:induction false} DrainSource(literals: seq<Bytes>, pending: Bytes, final: bool)
    ensures var d := Drain(literals, pending, final); Source(d.segs) + d.pending == pending
    decreases |pending|
  {
    hide FirstMatch;
    hide Keep;
    if pending != [] {
      match FirstMatch(literals, pending) {
        case Some(m) =>
          var a, b, c := pending[..m.at], pending[m.at..m.at + m.len], pending[m.at + m.len..];
          var rest := Drain(literals, c, final);
          DrainSource(literals, c, final);
          Cut3(pending, m.at, m.at + m.len);
          Assoc(b, Source(rest.segs), rest.pending);
          Assoc(a, b + Source(rest.segs), rest.pending);
        case None =>
      }
    }
  }

  // ------------------------------------------------- equality with the reference

  /** No literal lies inside another one's proper prefix, so none can be complete
      while an earlier, longer one still waits for its end. */
  ghost predicate NoEarlyMatch(literals: seq<Bytes>) {
    forall a, b, i: nat :: a in literals && b in literals && b != [] ==> !OccursAt(ButLast(a), b, i)
  }

  function ButLast(a: Bytes): Bytes { if a == [] then [] else a[..|a| - 1] }

  ghost predicate NoStartIn(literals: seq<Bytes>, s: Bytes, n: nat) {
    forall l, i: nat :: l in literals && l != [] && i < n ==> !OccursAt(s, l, i)
  }

  lemma RedactNothing(literals: seq<Bytes>, s: Bytes)
    requires FirstMatch(literals, s).None?
    ensures Redact(literals, s) == s
  {
  }

  lemma RedactFirst(literals: seq<Bytes>, s: Bytes, m: Match)
    requires FirstMatch(literals, s) == Some(m)
    ensures Redact(literals, s) == s[..m.at] + REDACTED + Redact(literals, s[m.at + m.len..])
  {
  }

  lemma ShiftNone(literals: seq<Bytes>, clean: Bytes, rest: Bytes)
    requires NoStartIn(literals, clean + rest, |clean|) && NoMatch(literals, rest)
    ensures NoMatch(literals, clean + rest)
  {
    forall l, i: nat | l in literals && l != []
      ensures !OccursAt(clean + rest, l, i)
    {
      if |clean| <= i { OccursShifted(clean, rest, l, i); }
    }
  }

  lemma ShiftSome(literals: seq<Bytes>, clean: Bytes, rest: Bytes, m: Match)
    requires NoStartIn(literals, clean + rest, |clean|) && IsFirst(literals, rest, m)
    ensures IsFirst(literals, clean + rest, Match(|clean| + m.at, m.len))
  {
    var l :| l in literals && l != [] && |l| == m.len && OccursAt(rest, l, m.at);
    OccursShifted(clean, rest, l, |clean| + m.at);
    forall k, i: nat | k in literals && k != [] && i <= |clean| + m.at && OccursAt(clean + rest, k, i)
      ensures i == |clean| + m.at && |k| <= m.len
    {
      if |clean| <= i { OccursShifted(clean, rest, k, i); }
    }
  }

  lemma FirstMatchShifts(literals: seq<Bytes>, clean: Bytes, rest: Bytes)
    requires NoStartIn(literals, clean + rest, |clean|)
    ensures FirstMatch(literals, clean + rest) ==
            match FirstMatch(literals, rest) case None => None case Some(m) => Some(Match(|clean| + m.at, m.len))
  {
    hide FirstMatch;
    hide NoStartIn;
    FirstMatchMeans(literals, clean + rest);
    FirstMatchMeans(literals, rest);
    match FirstMatch(literals, rest) {
      case None => ShiftNone(literals, clean, rest);
      case Some(m) => ShiftSome(literals, clean, rest, m);
    }
  }

  /** Text before the first possible start of a match is copied. */
  lemma RedactSkips(literals: seq<Bytes>, clean: Bytes, rest: Bytes)
    requires NoStartIn(literals, clean + rest, |clean|)
    ensures Redact(literals, clean + rest) == clean + Redact(literals, rest)
  {
    hide NoStartIn;
    hide OccursAt;
    hide FirstMatch;
    FirstMatchShifts(literals, clean, rest);
    match FirstMatch(literals, rest) {
      case None =>
      case Some(m) =>
        CutLater(clean, rest, m.at);
        CutLater(clean, rest, m.at + m.len);
        Assoc(clean, rest[..m.at], REDACTED);
        Assoc(clean, rest[..m.at] + REDACTED, Redact(literals, rest[m.at + m.len..]));
    }
  }

  /** A literal that starts no later than a complete one and ends after the pending
      bytes would hold the complete one early. */
  lemma LateOverlapIsEarlyMatch(a: Bytes, b: Bytes, pending: Bytes, rest: Bytes, i: nat, at: nat)
    requires OccursAt(pending, b, at) && i <= at && OccursAt(pending + rest, a, i) && |pending| < i + |a|
    ensures OccursAt(ButLast(a), b, at - i)
  {
    forall k | 0 <= k < |b|
      ensures b[k] == ButLast(a)[at - i + k]
    {
      assert a[at - i + k] == (pending + rest)[i + (at - i + k)];
    }
  }

  /** A match that is complete in the pending bytes stays the first one whatever follows. */
  lemma FirstMatchStands(literals: seq<Bytes>, pending: Bytes, rest: Bytes, m: Match)
    requires NoEarlyMatch(literals) && FirstMatch(literals, pending) == Some(m)
    ensures FirstMatch(literals, pending + rest) == Some(m)
  {
    FirstMatchMeans(literals, pending);
    FirstMatchMeans(literals, pending + rest);
    var b :| b in literals && b != [] && |b| == m.len && OccursAt(pending, b, m.at);
    OccursInPrefix(pending, rest, b, m.at);
    forall a, i: nat | a in literals && a != [] && i <= m.at && OccursAt(pending + rest, a, i)
      ensures i == m.at && |a| <= m.len
    {
      if i + |a| <= |pending| {
        OccursInPrefix(pending, rest, a, i);
      } else {
        LateOverlapIsEarlyMatch(a, b, pending, rest, i, m.at);
      }
    }
    assert IsFirst(literals, pending + rest, m);
  }

  /** Released text cannot be the start of a literal that later bytes complete. */
  lemma ReleasedIsClean(literals: seq<Bytes>, pending: Bytes, rest: Bytes, l: Bytes, i: nat)
    requires FirstMatch(literals, pending).None? && l in literals && l != []
    requires i < |pending| - Keep(literals, pending)
    ensures !OccursAt(pending + rest, l, i)
  {
    FirstMatchMeans(literals, pending);
    KeepMeans(literals, pending);
    CleanAlone(literals, pending, rest, l, i, Keep(literals, pending));
  }

  lemma CleanAlone(literals: seq<Bytes>, pending: Bytes, rest: Bytes, l: Bytes, i: nat, keep: nat)
    requires NoMatch(literals, pending) && IsKeep(literals, pending, keep) && l in literals && l != []
    requires i < |pending| - keep
    ensures !OccursAt(pending + rest, l, i)
  {
    if OccursAt(pending + rest, l, i) {
      if i + |l| <= |pending| {
        OccursInPrefix(pending, rest, l, i);
      } else {
        ReachesIn(pending, rest, l, i);
      }
    }
  }

  /** An occurrence that ends after the pending bytes begins with their end. */
  lemma ReachesIn(pending: Bytes, rest: Bytes, l: Bytes, i: nat)
    requires OccursAt(pending + rest, l, i) && i < |pending| < i + |l|
    ensures HeldBy(l, pending, |pending| - i)
  {
    forall k | 0 <= k < |pending| - i
      ensures l[k] == pending[i + k]
    {
      assert l[k] == (pending + rest)[i + k];
    }
  }

  /** The unsettled input is the settled output and what is still pending. */
  lemma {:induction false} DrainResidual(literals: seq<Bytes>, pending: Bytes, rest: Bytes)
    requires NoEarlyMatch(literals)
    ensures var d := Drain(literals, pending, false);
      Redact(literals, pending + rest) == Render(d.segs) + Redact(literals, d.pending + rest)
    decreases |pending|
  {
    hide FirstMatch;
    hide Keep;
    if pending == [] {
      assert pending + rest == rest;
    } else {
      match FirstMatch(literals, pending) {
        case Some(m) =>
          var tail := pending[m.at + m.len..];
          var d := Drain(literals, tail, false);
          DrainResidual(literals, tail, rest);
          MatchResidual(literals, pending, rest, m);
          Assoc(REDACTED, Render(d.segs), Redact(literals, d.pending + rest));
          Assoc(pending[..m.at], REDACTED, Redact(literals, tail + rest));
          Assoc(pending[..m.at], REDACTED + Render(d.segs), Redact(literals, d.pending + rest));
        case None => ReleaseResidual(literals, pending, rest);
      }
    }
  }

  lemma MatchResidual(literals: seq<Bytes>, pending: Bytes, rest: Bytes, m: Match)
    requires NoEarlyMatch(literals) && FirstMatch(literals, pending) == Some(m)
    ensures Redact(literals, pending + rest) ==
            pending[..m.at] + REDACTED + Redact(literals, pending[m.at + m.len..] + rest)
  {
    FirstMatchStands(literals, pending, rest, m);
    assert (pending + rest)[..m.at] == pending[..m.at];
    assert (pending + rest)[m.at + m.len..] == pending[m.at + m.len..] + rest;
  }

  lemma ReleaseResidual(literals: seq<Bytes>, pending: Bytes, rest: Bytes)
    requires FirstMatch(literals, pending).None?
    ensures
      var cut := |pending| - Keep(literals, pending);
      Redact(literals, pending + rest) == pending[..cut] + Redact(literals, pending[cut..] + rest)
  {
    var cut := |pending| - Keep(literals, pending);
    assert pending[..cut] + (pending[cut..] + rest) == pending + rest;
    forall l, i: nat | l in literals && l != [] && i < cut
      ensures !OccursAt(pending + rest, l, i)
    {
      ReleasedIsClean(literals, pending, rest, l, i);
    }
    RedactSkips(literals, pending[..cut], pending[cut..] + rest);
  }

  lemma {:induction false} FinishIsRedact(literals: seq<Bytes>, pending: Bytes)
    ensures Render(Drain(literals, pending, true).segs) == Redact(literals, pending)
    decreases |pending|
  {
    if pending != [] {
      match FirstMatch(literals, pending) {
        case Some(m) => FinishIsRedact(literals, pending[m.at + m.len..]);
        case None => assert pending[..|pending|] == pending;
      }
    }
  }

  /** For every chunking, the stream's output is the whole input's replacement. */
  lemma {:induction false} StreamIsRedact(literals: seq<Bytes>, pending: Bytes, chunks: seq<Bytes>)
    requires NoEarlyMatch(literals)
    ensures Render(Stream(literals, pending, chunks)) == Redact(literals, pending + Concat(chunks))
    decreases |chunks|
  {
    if chunks == [] {
      FinishIsRedact(literals, pending);
      assert pending + Concat(chunks) == pending;
    } else {
      var d := Drain(literals, pending + chunks[0], false);
      DrainResidual(literals, pending + chunks[0], Concat(chunks[1..]));
      StreamIsRedact(literals, d.pending, chunks[1..]);
      RenderAppend(d.segs, Stream(literals, d.pending, chunks[1..]));
      assert pending + Concat(chunks) == pending + chunks[0] + Concat(chunks[1..]);
    }
  }

  lemma {:induction false} NothingShown(segs: Segs)
    ensures Render(segs) == [] ==> Source(segs) == []
  {
    match segs {
      case Done =>
      case Clean(_, next) => NothingShown(next);
      case Hidden(_, _) =>
    }
  }

  lemma {:induction false} StreamShows(literals: seq<Bytes>, pending: Bytes, chunks: seq<Bytes>)
    requires pending + Concat(chunks) != []
    ensures Render(Stream(literals, pending, chunks)) != []
    decreases |chunks|
  {
    if chunks == [] {
      var d := Drain(literals, pending, true);
      DrainSource(literals, pending, true);
      NothingShown(d.segs);
    } else {
      var d := Drain(literals, pending + chunks[0], false);
      DrainSource(literals, pending + chunks[0], false);
      NothingShown(d.segs);
      RenderAppend(d.segs, Stream(literals, d.pending, chunks[1..]));
      if Render(d.segs) == [] {
        assert d.pending == pending + chunks[0];
        Assoc(pending, chunks[0], Concat(chunks[1..]));
        StreamShows(literals, d.pending, chunks[1..]);
      }
    }
  }

  lemma LiteralIsHidden(literals: seq<Bytes>, a: Bytes)
    requires a in literals && a != []
    ensures Redact(literals, a) == REDACTED
  {
    FirstMatchMeans(literals, a);
    assert OccursAt(a, a, 0);
    assert IsFirst(literals, a, Match(0, |a|));
    assert a[..0] == [] && a[|a|..] == [];
  }

  /** An early match always shows: feed the outer literal in two pieces. */
  lemma EarlyMatchShows(literals: seq<Bytes>, a: Bytes, b: Bytes, i: nat, chunks: seq<Bytes>)
    requires a in literals && b in literals && b != [] && OccursAt(ButLast(a), b, i)
    requires chunks == [ButLast(a), a[|a| - 1..]]
    ensures Concat(chunks) == a && Render(Stream(literals, [], chunks)) != Redact(literals, a)
  {
    hide FirstMatch;
    hide Keep;
    LiteralIsHidden(literals, a);
    var last := a[|a| - 1..];
    assert chunks[1..] == [last] && [last][1..] == [];
    assert [] + ButLast(a) == ButLast(a);
    FirstMatchMeans(literals, ButLast(a));
    var d := Drain(literals, ButLast(a), false);
    assert |Render(d.segs)| >= |REDACTED|;
    StreamShows(literals, d.pending, [last]);
    RenderAppend(d.segs, Stream(literals, d.pending, [last]));
  }

  /** Chunk boundaries never show exactly when no literal can complete early. */
  lemma ChunkingNeverShows(literals: seq<Bytes>)
    ensures NoEarlyMatch(literals) <==>
            forall chunks :: Render(Stream(literals, [], chunks)) == Redact(literals, Concat(chunks))
  {
    if NoEarlyMatch(literals) {
      forall chunks
        ensures Render(Stream(literals, [], chunks)) == Redact(literals, Concat(chunks))
      {
        StreamIsRedact(literals, [], chunks);
        assert [] + Concat(chunks) == Concat(chunks);
      }
    } else {
      var a, b, i: nat :| a in literals && b in literals && b != [] && OccursAt(ButLast(a), b, i);
      EarlyMatchShows(literals, a, b, i, [ButLast(a), a[|a| - 1..]]);
    }
  }

  /** No literal inside another (the condition the callers' token lists meet) is enough. */
  lemma SubstringFreeIsEnough(literals: seq<Bytes>)
    requires forall a, b, i: nat :: a in literals && b in literals && a != b && b != [] ==> !OccursAt(a, b, i)
    ensures NoEarlyMatch(literals)
  {
    forall a, b, i: nat | a in literals && b in literals && b != []
      ensures !OccursAt(ButLast(a), b, i)
    {
      if OccursAt(ButLast(a), b, i) {
        assert OccursAt(a, b, i);
      }
    }
  }

  // ---------------------------------------------------- one literal: ReplaceAll

  /** bytes.Index from position i. */
  function Index(s: Bytes, literal: Bytes, i: nat): (at: Option<nat>)
    ensures at.Some? ==> at.value + |literal| <= |s|
    decreases |s| - i
  {
    if i + |literal| > |s| then None
    else if OccursAt(s, literal, i) then Some(i)
    else Index(s, literal, i + 1)
  }

  lemma {:induction false} IndexMeans(s: Bytes, literal: Bytes, i: nat)
    ensures match Index(s, literal, i)
      case None => forall j: nat :: i <= j ==> !OccursAt(s, literal, j)
      case Some(at) => i <= at && OccursAt(s, literal, at) && forall j: nat :: i <= j < at ==> !OccursAt(s, literal, j)
    decreases |s| - i
  {
    if i + |literal| <= |s| && !OccursAt(s, literal, i) {
      IndexMeans(s, literal, i + 1);
    }
  }

  /** bytes.ReplaceAll(s, literal, "[REDACTED]"). */
  function ReplaceAll(s: Bytes, literal: Bytes): Bytes
    requires literal != []
    decreases |s|
  {
    match Index(s, literal, 0)
    case None => s
    case Some(at) => s[..at] + REDACTED + ReplaceAll(s[at + |literal|..], literal)
  }

  lemma OneLiteralMatch(literal: Bytes, s: Bytes)
    requires literal != []
    ensures FirstMatch([literal], s) ==
            match Index(s, literal, 0) case None => None case Some(at) => Some(Match(at, |literal|))
  {
    FirstMatchMeans([literal], s);
    IndexMeans(s, literal, 0);
    assert literal in [literal];
    match Index(s, literal, 0) {
      case None => assert NoMatch([literal], s);
      case Some(at) => assert IsFirst([literal], s, Match(at, |literal|));
    }
  }

  lemma {:induction false} OneLiteralIsReplaceAll(literal: Bytes, s: Bytes)
    requires literal != []
    ensures Redact([literal], s) == ReplaceAll(s, literal)
    decreases |s|
  {
    OneLiteralMatch(literal, s);
    var at := Index(s, literal, 0);
    if at.None? {
      RedactNothing([literal], s);
      assert ReplaceAll(s, literal) == s;
    } else {
      OneLiteralIsReplaceAll(literal, s[at.value + |literal|..]);
      OneStep(literal, s, at.value);
    }
  }

  lemma OneStep(literal: Bytes, s: Bytes, at: nat)
    requires literal != [] && Index(s, literal, 0) == Some(at) && FirstMatch([literal], s) == Some(Match(at, |literal|))
    requires Redact([literal], s[at + |literal|..]) == ReplaceAll(s[at + |literal|..], literal)
    ensures Redact([literal], s) == ReplaceAll(s, literal)
  {
    hide OccursAt;
    hide Index;
    hide FirstMatch;
    var tail := s[at + |literal|..];
    calc {
      Redact([literal], s);
      == { RedactFirst([literal], s, Match(at, |literal|)); }
      s[..at] + REDACTED + Redact([literal], tail);
      s[..at] + REDACTED + ReplaceAll(tail, literal);
      == ReplaceAll(s, literal);
    }
  }

  /** A stream with one literal is bytes.ReplaceAll of its whole input, however chunked. */
  lemma OneLiteralStream(literal: Bytes, chunks: seq<Bytes>)
    requires literal != []
    ensures Render(Stream([literal], [], chunks)) == ReplaceAll(Concat(chunks), literal)
  {
    assert NoEarlyMatch([literal]);
    StreamIsRedact([literal], [], chunks);
    assert [] + Concat(chunks) == Concat(chunks);
    OneLiteralIsReplaceAll(literal, Concat(chunks));
  }

  // ------------------------------------------------------- any literals: coverage

  lemma {:induction false} HiddenAppend(a: Segs, b: Segs, j: int)
    ensures HiddenAt(Append(a, b), j) <==> (HiddenAt(a, j) || HiddenAt(b, j - |Source(a)|))
  {
    match a {
      case Done =>
      case Clean(text, next) => HiddenAppend(next, b, j - |text|);
      case Hidden(text, next) => HiddenAppend(next, b, j - |text|);
    }
  }

  /** Some byte of the occurrence at i was replaced. */
  ghost predicate Covers(segs: Segs, l: Bytes, i: int) {
    exists j :: i <= j < i + |l| && HiddenAt(segs, j)
  }

  /** An occurrence that starts before or inside the first match overlaps it. */
  lemma FirstMatchCovers(literals: seq<Bytes>, pending: Bytes, rest: Bytes, m: Match, l: Bytes, i: nat) returns (j: nat)
    requires l in literals && l != [] && OccursAt(pending + rest, l, i)
    requires FirstMatch(literals, pending) == Some(m) && i < m.at + m.len
    ensures i <= j < i + |l| && m.at <= j < m.at + m.len
  {
    FirstMatchMeans(literals, pending);
    j := i;
    if i < m.at {
      if i + |l| <= |pending| { OccursInPrefix(pending, rest, l, i); }
      j := m.at;
    }
  }

  lemma DrainFirst(literals: seq<Bytes>, pending: Bytes, final: bool, m: Match)
    requires FirstMatch(literals, pending) == Some(m)
    ensures Drain(literals, pending, final).segs ==
            Clean(pending[..m.at], Hidden(pending[m.at..m.at + m.len], Drain(literals, pending[m.at + m.len..], final).segs))
  {
    assert pending != [];
  }

  lemma PairCovers(a: Bytes, b: Bytes, rest: Segs, l: Bytes, i: int, j: int)
    requires (i <= j < i + |l| && |a| <= j < |a| + |b|) || Covers(rest, l, i - |a| - |b|)
    ensures Covers(Clean(a, Hidden(b, rest)), l, i)
  {
    var segs := Clean(a, Hidden(b, rest));
    if i <= j < i + |l| && |a| <= j < |a| + |b| {
      assert HiddenAt(segs, j);
    } else {
      var n := |a| + |b|;
      var k :| i - n <= k < i - n + |l| && HiddenAt(rest, k);
      assert HiddenAt(Hidden(b, rest), k + |b|);
      assert HiddenAt(segs, k + n);
    }
  }

  lemma DrainNoneSource(literals: seq<Bytes>, pending: Bytes, final: bool)
    requires FirstMatch(literals, pending).None?
    ensures |Source(Drain(literals, pending, final).segs)| == |pending| - if final then 0 else Keep(literals, pending)
  {
  }

  lemma PairSource(a: Bytes, b: Bytes, rest: Segs)
    ensures |Source(Clean(a, Hidden(b, rest)))| == |a| + |b| + |Source(rest)|
  {
  }

  lemma NoMatchCovers(literals: seq<Bytes>, pending: Bytes, final: bool, rest: Bytes, l: Bytes, i: nat)
    requires l in literals && l != [] && (final ==> rest == []) && FirstMatch(literals, pending).None?
    requires i < |pending| - if final then 0 else Keep(literals, pending)
    ensures !OccursAt(pending + rest, l, i)
  {
    FirstMatchMeans(literals, pending);
    if final {
      assert pending + rest == pending;
    } else {
      ReleasedIsClean(literals, pending, rest, l, i);
    }
  }

  lemma {:induction false} DrainCovers(literals: seq<Bytes>, pending: Bytes, final: bool, rest: Bytes, l: Bytes, i: nat)
    requires l in literals && l != [] && OccursAt(pending + rest, l, i) && (final ==> rest == [])
    requires i < |Source(Drain(literals, pending, final).segs)|
    ensures Covers(Drain(literals, pending, final).segs, l, i)
    decreases |pending|
  {
    hide FirstMatch;
    hide Drain;
    hide Source;
    hide Keep;
    match FirstMatch(literals, pending) {
      case Some(m) =>
        var n := m.at + m.len;
        var a, b, rest' := pending[..m.at], pending[m.at..n], Drain(literals, pending[n..], final).segs;
        DrainFirst(literals, pending, final, m);
        PairSource(a, b, rest');
        var j := i;
        if i < n {
          j := FirstMatchCovers(literals, pending, rest, m, l, i);
        } else {
          TailOccurs(pending, n, rest, l, i);
          DrainCovers(literals, pending[n..], final, rest, l, i - n);
        }
        PairCovers(a, b, rest', l, i, j);
      case None =>
        DrainNoneSource(literals, pending, final);
        NoMatchCovers(literals, pending, final, rest, l, i);
    }
  }

  lemma TailOccurs(s: Bytes, n: nat, rest: Bytes, l: Bytes, i: nat)
    requires n <= |s| && n <= i && OccursAt(s + rest, l, i)
    ensures OccursAt(s[n..] + rest, l, i - n)
  {
  }

  /** For any literals at all and any chunking, every occurrence of a literal in
      the input overlaps a replaced stretch. */
  lemma {:induction false} StreamCovers(literals: seq<Bytes>, pending: Bytes, chunks: seq<Bytes>, l: Bytes, i: nat)
    requires l in literals && l != [] && OccursAt(pending + Concat(chunks), l, i)
    ensures Covers(Stream(literals, pending, chunks), l, i)
    decreases |chunks|
  {
    if chunks == [] {
      assert pending + Concat(chunks) == pending;
      DrainSource(literals, pending, true);
      assert pending + [] == pending;
      DrainCovers(literals, pending, true, [], l, i);
    } else {
      var d := Drain(literals, pending + chunks[0], false);
      var rest := Concat(chunks[1..]);
      var n := |Source(d.segs)|;
      DrainSource(literals, pending + chunks[0], false);
      Assoc(pending, chunks[0], rest);
      Assoc(Source(d.segs), d.pending, rest);
      if i < n {
        DrainCovers(literals, pending + chunks[0], false, rest, l, i);
      } else {
        OccursShifted(Source(d.segs), d.pending + rest, l, i);
        StreamCovers(literals, d.pending, chunks[1..], l, i - n);
      }
      CoversAppend(d.segs, Stream(literals, d.pending, chunks[1..]), l, i);
    }
  }

  lemma CoversAppend(a: Segs, b: Segs, l: Bytes, i: int)
    requires Covers(a, l, i) || Covers(b, l, i - |Source(a)|)
    ensures Covers(Append(a, b), l, i)
  {
    var j;
    if Covers(a, l, i) {
      j :| i <= j < i + |l| && HiddenAt(a, j);
    } else {
      var k :| i - |Source(a)| <= k < i - |Source(a)| + |l| && HiddenAt(b, k);
      j := k + |Source(a)|;
    }
    HiddenAppend(a, b, j);
  }

  /** Nothing is lost or invented: the stretches spell the input in order. */
  lemma {:induction false} StreamSource(literals: seq<Bytes>, pending: Bytes, chunks: seq<Bytes>)
    ensures Source(Stream(literals, pending, chunks)) == pending + Concat(chunks)
    decreases |chunks|
  {
    if chunks == [] {
      DrainSource(literals, pending, true);
      assert pending + Concat(chunks) == pending;
    } else {
      var d := Drain(literals, pending + chunks[0], false);
      DrainSource(literals, pending + chunks[0], false);
      StreamSource(literals, d.pending, chunks[1..]);
      SourceAppend(d.segs, Stream(literals, d.pending, chunks[1..]));
      Assoc(Source(d.segs), d.pending, Concat(chunks[1..]));
      Assoc(pending, chunks[0], Concat(chunks[1..]));
    }
  }

  // ------------------------------------------------------------- the object itself

  function NonEmpty(all: seq<Bytes>): (kept: seq<Bytes>)
    ensures forall l :: l in kept <==> l in all && l != []
  {
    if all == [] then []
    else if all[0] == [] then NonEmpty(all[1..])
    else [all[0]] + NonEmpty(all[1..])
  }

  /** What the scan over the first literals has found so far. */
  ghost predicate BestSoFar(literals: seq<Bytes>, s: Bytes, best: Option<Match>) {
    if best.None? then NoMatch(literals, s) else IsFirst(literals, s, best.value)
  }

  function Better(best: Option<Match>, at: Option<nat>, len: nat): Option<Match> {
    if at.Some? && (best.None? || at.value < best.value.at || (at.value == best.value.at && len > best.value.len))
    then Some(Match(at.value, len))
    else best
  }

  /** The first place the literal alone occurs. */
  ghost predicate IsIndex(s: Bytes, literal: Bytes, at: Option<nat>) {
    match at
    case None => forall i: nat :: !OccursAt(s, literal, i)
    case Some(a) => OccursAt(s, literal, a) && forall i: nat :: i < a ==> !OccursAt(s, literal, i)
  }

  lemma BestGrows(literals: seq<Bytes>, s: Bytes, best: Option<Match>, literal: Bytes, at: Option<nat>)
    requires BestSoFar(literals, s, best) && literal != [] && IsIndex(s, literal, at)
    ensures BestSoFar(literals + [literal], s, Better(best, at, |literal|))
  {
    var all := literals + [literal];
    assert forall l :: l in all <==> l in literals || l == literal;
    var next := Better(best, at, |literal|);
    if next.None? {
      assert NoMatch(all, s);
    } else {
      assert exists l :: l in all && l != [] && |l| == next.value.len && OccursAt(s, l, next.value.at);
      assert IsFirst(all, s, next.value);
    }
  }

  lemma KeepGrows(literals: seq<Bytes>, s: Bytes, keep: nat, literal: Bytes, next: nat)
    requires IsKeep(literals, s, keep) && keep <= next <= |s|
    requires next == keep || HeldBy(literal, s, next)
    requires forall n: nat :: next < n && HeldBy(literal, s, n) ==> false
    ensures IsKeep(literals + [literal], s, next)
  {
    var all := literals + [literal];
    assert forall l :: l in all <==> l in literals || l == literal;
    if next != keep {
      assert literal in all;
    }
  }

  class StreamingRedactor {
    const literals: seq<Bytes>
    var pending: Bytes

    constructor (all: seq<Bytes>)
      ensures literals == NonEmpty(all) && Literals(literals) && pending == []
    {
      literals := NonEmpty(all);
      pending := [];
    }

    method Push(p: Bytes) returns (out: Bytes)
      requires Literals(literals)
      modifies this
      ensures var d := Drain(literals, old(pending) + p, false); out == Render(d.segs) && pending == d.pending
    {
      pending := pending + p;
      out := DrainPending(false);
    }

    method Finish() returns (out: Bytes)
      requires Literals(literals)
      modifies this
      ensures out == Redact(literals, old(pending)) && pending == []
    {
      FinishIsRedact(literals, pending);
      out := DrainPending(true);
    }

    method DrainPending(final: bool) returns (out: Bytes)
      requires Literals(literals)
      modifies this
      ensures var d := Drain(literals, old(pending), final); out == Render(d.segs) && pending == d.pending
    {
      hide FirstMatch;
      hide Keep;
      out := [];
      ghost var d := Drain(literals, pending, final);
      while pending != []
        invariant Render(d.segs) == out + Render(Drain(literals, pending, final).segs)
        invariant d.pending == Drain(literals, pending, final).pending
        decreases |pending|
      {
        var m := FindMatch();
        if m.Some? {
          var n := m.value.at + m.value.len;
          DrainStep(literals, pending, final, m.value, out);
          out := out + pending[..m.value.at] + REDACTED;
          pending := pending[n..];
        } else {
          var keep := 0;
          if !final {
            keep := FindKeep();
          }
          assert Render(Drain(literals, pending, final).segs) == pending[..|pending| - keep];
          out := out + pending[..|pending| - keep];
          pending := pending[|pending| - keep..];
          return;
        }
      }
    }

    method FindMatch() returns (best: Option<Match>)
      requires Literals(literals)
      ensures best == FirstMatch(literals, pending)
    {
      best := None;
      for i := 0 to |literals|
        invariant BestSoFar(literals[..i], pending, best)
      {
        assert literals[i] in literals;
        var at := Index(pending, literals[i], 0);
        IndexMeans(pending, literals[i], 0);
        BestGrows(literals[..i], pending, best, literals[i], at);
        assert literals[..i + 1] == literals[..i] + [literals[i]];
        best := Better(best, at, |literals[i]|);
      }
      assert literals[..|literals|] == literals;
      FirstMatchMeans(literals, pending);
    }

    method FindKeep() returns (keep: nat)
      ensures keep == Keep(literals, pending)
    {
      keep := 0;
      for i := 0 to |literals|
        invariant IsKeep(literals[..i], pending, keep)
      {
        var l := literals[i];
        var n := if |l| - 1 < |pending| then |l| - 1 else |pending|;
        while n > keep && !HeldBy(l, pending, n)
          invariant n <= |pending| && n < |l|
          invariant forall k: nat :: n < k && k > keep ==> !HeldBy(l, pending, k)
        {
          n := n - 1;
        }
        var next := if n > keep then n else keep;
        KeepGrows(literals[..i], pending, keep, l, next);
        assert literals[..i + 1] == literals[..i] + [l];
        keep := next;
      }
      assert literals[..|literals|] == literals;
      KeepMeans(literals, pending);
    }
  }

  lemma DrainStep(literals: seq<Bytes>, pending: Bytes, final: bool, m: Match, out: Bytes)
    requires FirstMatch(literals, pending) == Some(m)
    ensures var rest := Drain(literals, pending[m.at + m.len..], final);
      && out + Render(Drain(literals, pending, final).segs) == out + pending[..m.at] + REDACTED + Render(rest.segs)
      && Drain(literals, pending, final).pending == rest.pending
  {
    DrainFirst(literals, pending, final, m);
    var rest := Render(Drain(literals, pending[m.at + m.len..], final).segs);
    Assoc(out, pending[..m.at], REDACTED + rest);
    Assoc(out + pending[..m.at], REDACTED, rest);
    assert pending != [];
  }
}
