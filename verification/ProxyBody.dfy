/** credentialProxyStreamingBody (data-plane/cmd/agent/credential_proxy_stream.go):
    an upstream response redacted while it is read. */
module ProxyBody {
  import opened Wrappers
  import opened Bytes
  import opened Redactor

  const READ_BYTES: nat := 32 * 1024
  const EMPTY_READ_LIMIT: nat := 100

  datatype Ending = Eof | Failure

  datatype Terminal = EndOfBody | TooLarge | ReadFailed | NoProgress

  /** io.ReadCloser: any bytes in any pieces (empty ones too), then EOF or an error,
      which may come with the last bytes or after them. */
  class Source {
    var script: seq<Bytes>
    const ending: Ending
    const eager: bool

    constructor (script: seq<Bytes>, ending: Ending, eager: bool)
      ensures this.script == script && this.ending == ending && this.eager == eager
    {
      this.script, this.ending, this.eager := script, ending, eager;
    }

    function Left(): Bytes
      reads this
    {
      Concat(script)
    }

    method Read(max: nat) returns (data: Bytes, err: Option<Ending>)
      requires max > 0
      modifies this
      ensures |data| <= max && old(Left()) == data + Left()
      ensures err.Some? ==> err.value == ending && script == [] && Left() == []
      ensures err.None? ==> |Left()| + |script| < old(|Left()| + |script|)
    {
      if script == [] { return [], Some(ending); }
      var head := script[0];
      if |head| <= max {
        data := head;
        script := script[1..];
        err := if eager && script == [] then Some(ending) else None;
      } else {
        data := head[..max];
        assert head == data + head[max..];
        Assoc(data, head[max..], Concat(script[1..]));
        assert ([head[max..]] + script[1..])[1..] == script[1..];
        script := [head[max..]] + script[1..];
        err := None;
      }
    }
  }

  /** Everything shown so far is settled: whatever follows the admitted bytes, the
      redaction of all of it begins with what was shown. */
  ghost predicate Settled(literals: seq<Bytes>, shown: Bytes, held: Bytes, admitted: Bytes) {
    forall rest: Bytes :: Redact(literals, admitted + rest) == shown + Redact(literals, held + rest)
  }

  lemma SettledGrows(literals: seq<Bytes>, shown: Bytes, held: Bytes, admitted: Bytes, p: Bytes)
    requires NoEarlyMatch(literals) && Settled(literals, shown, held, admitted)
    ensures var d := Drain(literals, held + p, false);
      Settled(literals, shown + Render(d.segs), d.pending, admitted + p)
  {
    var d := Drain(literals, held + p, false);
    forall rest: Bytes
      ensures Redact(literals, (admitted + p) + rest) == (shown + Render(d.segs)) + Redact(literals, d.pending + rest)
    {
      SettledStep(literals, shown, held, admitted, p, rest);
    }
  }

  lemma SettledStep(literals: seq<Bytes>, shown: Bytes, held: Bytes, admitted: Bytes, p: Bytes, rest: Bytes)
    requires NoEarlyMatch(literals)
    requires Redact(literals, admitted + (p + rest)) == shown + Redact(literals, held + (p + rest))
    ensures var d := Drain(literals, held + p, false);
      Redact(literals, (admitted + p) + rest) == (shown + Render(d.segs)) + Redact(literals, d.pending + rest)
  {
    var d := Drain(literals, held + p, false);
    Assoc(admitted, p, rest);
    Assoc(held, p, rest);
    DrainResidual(literals, held + p, rest);
    Assoc(shown, Render(d.segs), Redact(literals, d.pending + rest));
  }

  lemma SettledEnds(literals: seq<Bytes>, shown: Bytes, held: Bytes, admitted: Bytes)
    requires Settled(literals, shown, held, admitted)
    ensures Redact(literals, admitted) == shown + Redact(literals, held)
  {
    assert admitted + [] == admitted && held + [] == held;
    assert Redact(literals, admitted + []) == shown + Redact(literals, held + []);
  }

  lemma TokenIsEnough(token: Bytes)
    ensures NoEarlyMatch(NonEmpty([token])) && Literals(NonEmpty([token]))
  {
    assert NonEmpty([token]) == if token == [] then [] else [token] by {
      assert [token][1..] == [];
    }
  }

  lemma NothingAdmitted(p: Bytes, left: Bytes)
    requires p == []
    ensures p + left == left
  {
  }

  class StreamingBody {
    const source: Source
    const redactor: StreamingRedactor
    const limit: nat
    var remaining: nat
    var eofCalls: nat
    var ready: Bytes
    var terminalErr: Option<Terminal>
    var closed: bool
    ghost const whole: Bytes      // the body, had it all been read
    ghost var admitted: Bytes     // raw bytes given to the redactor
    ghost var delivered: Bytes    // results of Read so far

    /** What every Read keeps, until Close. */
    ghost predicate Inv()
      reads this, source, redactor
    {
      && NoEarlyMatch(redactor.literals) && Literals(redactor.literals)
      && |admitted| + remaining == limit && admitted <= whole
      && (terminalErr != Some(EndOfBody) ==> Settled(redactor.literals, delivered + ready, redactor.pending, admitted))
      && Outcome()
    }

    ghost predicate Outcome()
      reads this, source, redactor
    {
      eofCalls == (if terminalErr == Some(EndOfBody) then 1 else 0) &&
      match terminalErr
      case None => admitted + source.Left() == whole
      case Some(EndOfBody) =>
        source.ending == Eof && admitted == whole && delivered + ready == Redact(redactor.literals, whole)
      case Some(TooLarge) => |whole| > limit && remaining == 0
      case Some(ReadFailed) => source.ending == Failure && admitted == whole
      case Some(NoProgress) => true
    }

    constructor (source: Source, token: Bytes, limit: nat)
      ensures Inv() && !closed && fresh(redactor) && this.source == source && this.limit == limit
      ensures redactor.literals == NonEmpty([token]) && whole == source.Left()
      ensures delivered == [] && ready == [] && terminalErr.None?
    {
      var r := new StreamingRedactor([token]);
      TokenIsEnough(token);
      this.source, redactor, this.limit, remaining := source, r, limit, limit;
      eofCalls, ready, terminalErr, closed := 0, [], None, false;
      whole, admitted, delivered := source.Left(), [], [];
      new;
      assert [] + source.Left() == whole && delivered + ready == [];
      forall rest: Bytes
        ensures Redact(r.literals, [] + rest) == [] + Redact(r.literals, [] + rest)
      {
        assert [] + Redact(r.literals, [] + rest) == Redact(r.literals, [] + rest);
      }
    }

    /** The admitted part of one source read goes through the redactor. */
    method Admit(p: Bytes, ghost left: Bytes)
      requires NoEarlyMatch(redactor.literals) && Literals(redactor.literals)
      requires Settled(redactor.literals, delivered + ready, redactor.pending, admitted)
      requires |admitted| + remaining == limit && |p| <= remaining && admitted + (p + left) == whole
      modifies this`ready, this`remaining, this`admitted, redactor
      ensures |admitted| + remaining == limit && admitted + left == whole && admitted == old(admitted) + p
      ensures Settled(redactor.literals, delivered + ready, redactor.pending, admitted)
    {
      SettledGrows(redactor.literals, delivered + ready, redactor.pending, admitted, p);
      Assoc(admitted, p, left);
      var out := redactor.Push(p);
      Assoc(delivered, ready, out);
      ready := ready + out;
      remaining := remaining - |p|;
      admitted := admitted + p;
    }

    /** One turn of Read's loop: one source read and what follows from it. */
    method Turn(empty: nat) returns (emptyReads: nat)
      requires Inv() && terminalErr.None? && !closed
      modifies this`ready, this`remaining, this`admitted, this`terminalErr, this`eofCalls, source, redactor
      ensures Inv() && delivered == old(delivered)
      ensures terminalErr.None? ==> |source.Left()| + |source.script| < old(|source.Left()| + |source.script|)
      ensures terminalErr == Some(NoProgress) ==> ready == old(ready) && empty + 1 >= EMPTY_READ_LIMIT && emptyReads == empty + 1
    {
      var readBytes := if remaining < READ_BYTES then remaining + 1 else READ_BYTES;
      emptyReads := empty;
      ghost var left := source.Left();
      var data, readErr := source.Read(readBytes);
      if |data| > 0 {
        emptyReads := 0;
        var allowed := if |data| > remaining then remaining else |data|;
        var p := data[..allowed];
        Assoc(p, data[allowed..], source.Left());
        assert data == p + data[allowed..];
        if allowed > 0 {
          Admit(p, data[allowed..] + source.Left());
        } else {
          NothingAdmitted(p, data[allowed..] + source.Left());
        }
        if allowed < |data| {
          terminalErr := Some(TooLarge);
          return;
        }
        assert data[allowed..] + source.Left() == source.Left();
      } else {
        assert data + source.Left() == source.Left();
      }
      if readErr == Some(Eof) {
        EndBody();
      } else if readErr.Some? {
        assert admitted + [] == admitted;
        terminalErr := Some(ReadFailed);
      } else if |data| == 0 {
        emptyReads := emptyReads + 1;
        if emptyReads >= EMPTY_READ_LIMIT { terminalErr := Some(NoProgress); }
      }
    }

    method EndBody()
      requires Inv() && terminalErr.None? && source.Left() == [] && source.ending == Eof
      modifies this`ready, this`terminalErr, this`eofCalls, redactor
      ensures Inv() && terminalErr == Some(EndOfBody)
    {
      SettledEnds(redactor.literals, delivered + ready, redactor.pending, admitted);
      assert admitted + [] == admitted;
      var out := redactor.Finish();
      Assoc(delivered, ready, out);
      ready := ready + out;
      eofCalls := eofCalls + 1;
      terminalErr := Some(EndOfBody);
    }

    method Read(size: nat) returns (out: Bytes, err: Option<Terminal>, refused: bool)
      requires closed || Inv()
      modifies this`ready, this`remaining, this`admitted, this`terminalErr, this`eofCalls, this`delivered, source, redactor
      ensures size == 0 || closed ==> out == [] && err.None? && refused == (size > 0) && delivered == old(delivered)
      ensures !closed ==> Inv()
      ensures |out| <= size && delivered == old(delivered) + out
      ensures size > 0 && !closed ==> !refused && (out == [] <==> err.Some?)
      ensures err.Some? ==> err == terminalErr && ready == []
    {
      refused := false;
      if size == 0 { return [], None, false; }
      if closed { return [], None, true; }
      var emptyReads := 0;
      while ready == [] && terminalErr.None?
        invariant Inv() && delivered == old(delivered)
        decreases if terminalErr.None? then 1 else 0, |source.Left()| + |source.script|
      {
        emptyReads := Turn(emptyReads);
      }
      if ready == [] { return [], terminalErr, false; }
      var n := if size < |ready| then size else |ready|;
      out, err := ready[..n], None;
      Assoc(delivered, ready[..n], ready[n..]);
      assert ready == ready[..n] + ready[n..];
      delivered := delivered + out;
      ready := ready[n..];
    }

    method Close()
      modifies this`closed, this`ready, redactor`pending
      ensures closed && (!old(closed) ==> ready == [] && redactor.pending == [])
    {
      if closed { return; }
      closed, ready, redactor.pending := true, [], [];
    }
  }

  /** all begins the redaction of everything that could follow admitted. */
  ghost predicate SafePrefix(literals: seq<Bytes>, all: Bytes, admitted: Bytes) {
    forall rest: Bytes :: all <= Redact(literals, admitted + rest)
  }

  /** How much a reader has when Read returns err, for a body `whole`. */
  ghost predicate Got(literals: seq<Bytes>, all: Bytes, err: Option<Terminal>, whole: Bytes, limit: nat) {
    match err
    case Some(EndOfBody) => all == Redact(literals, whole) && |whole| <= limit
    case Some(TooLarge) => |whole| > limit && SafePrefix(literals, all, whole[..limit])
    case Some(ReadFailed) => |whole| <= limit && SafePrefix(literals, all, whole)
    case _ => exists n: nat :: n <= |whole| && n <= limit && all <= Redact(literals, whole[..n])
  }

  lemma SettledIsPrefix(literals: seq<Bytes>, delivered: Bytes, ready: Bytes, held: Bytes, admitted: Bytes)
    requires Settled(literals, delivered + ready, held, admitted)
    ensures SafePrefix(literals, delivered, admitted)
  {
    forall rest: Bytes
      ensures delivered <= Redact(literals, admitted + rest)
    {
      Assoc(delivered, ready, Redact(literals, held + rest));
    }
  }

  lemma PrefixGot(literals: seq<Bytes>, all: Bytes, admitted: Bytes, whole: Bytes, limit: nat)
    requires SafePrefix(literals, all, admitted) && admitted <= whole && |admitted| <= limit
    ensures Got(literals, all, None, whole, limit) && Got(literals, all, Some(NoProgress), whole, limit)
  {
    assert admitted + [] == admitted == whole[..|admitted|];
    assert all <= Redact(literals, admitted + []);
  }

  lemma BodyGot(body: StreamingBody, err: Option<Terminal>)
    requires body.Inv() && (err.Some? ==> body.terminalErr == err && body.ready == [])
    ensures Got(body.redactor.literals, body.delivered, err, body.whole, body.limit)
  {
    var literals, delivered, admitted := body.redactor.literals, body.delivered, body.admitted;
    if body.terminalErr == Some(EndOfBody) {
      assert delivered + body.ready == Redact(literals, body.whole);
      assert admitted == body.whole == body.whole[..|admitted|];
      if body.ready == [] { assert delivered + [] == delivered; }
    } else {
      SettledIsPrefix(literals, delivered, body.ready, body.redactor.pending, admitted);
      PrefixGot(literals, delivered, admitted, body.whole, body.limit);
      if body.terminalErr == Some(TooLarge) { assert admitted == body.whole[..body.limit]; }
    }
  }

  /** A consumer with buffers of any sizes. The credential is never shown in part: a
      body that ends in time gives exactly its redaction; one cut short gives only
      bytes that no continuation could have redacted. */
  method Consume(source: Source, token: Bytes, limit: nat, sizes: seq<nat>) returns (all: Bytes, err: Option<Terminal>)
    requires forall n :: n in sizes ==> n > 0
    modifies source
    ensures Got(NonEmpty([token]), all, err, old(source.Left()), limit)
    ensures err == Some(EndOfBody) ==> source.ending == Eof
  {
    var body := new StreamingBody(source, token, limit);
    err := None;
    all := [];
    var i := 0;
    while i < |sizes| && err.None?
      invariant i <= |sizes| && body.Inv() && !body.closed && all == body.delivered
      invariant fresh(body) && fresh(body.redactor) && body.source == source
      invariant err.Some? ==> body.terminalErr == err && body.ready == []
    {
      var out, refused;
      out, err, refused := body.Read(sizes[i]);
      all := all + out;
      i := i + 1;
    }
    BodyGot(body, err);
  }
}
