/** The shell agent's checkpoint barrier (data-plane/cmd/agent/checkpoint.go) and the
    write admission lock (data-plane/cmd/agent/main.go): the same AgentFence. */
module ShellCheckpoint {
  import opened Wrappers
  import opened AgentFence

  /** shellCheckpoint; `paused` is whether it holds stopped processes. */
  datatype Attempt = Attempt(active: bool, ready: bool, id: Generation, paused: bool)

  const NO_ATTEMPT := Attempt(false, false, NO_GENERATION, false)

  /** The /checkpoint or /restore request in flight. */
  datatype Handler = NoHandler | Archiving(gen: Generation) | Restoring

  /** `writing` counts writes that hold the admission lock for reading. */
  datatype Shell = Shell(started: bool, alive: bool, ckpt: Attempt, handler: Handler, writing: nat)

  datatype Refusal = NoLiveShell | AdmissionClosed | BadCheckpointID | CheckpointBusy | AlreadyStarted | MustWait

  type Reply = Result<Shell, Refusal>

  /** POST /write takes the lock for reading, then looks at the attempt. */
  function BeginWrite(s: Shell): Reply {
    if !s.started || !s.alive then Err(NoLiveShell)
    else if s.ckpt.active then Err(AdmissionClosed)
    else Ok(s.(writing := s.writing + 1))
  }

  function EndWrite(s: Shell): Shell { if s.writing > 0 then s.(writing := s.writing - 1) else s }

  /** beginCheckpoint waits for the lock, so no write is under way when it goes on. */
  function Begin(s: Shell, gen: Generation): Reply {
    if s.writing > 0 then Err(MustWait)
    else if !s.started || !s.alive then Err(NoLiveShell)
    else if s.ckpt.active then Err(AdmissionClosed)
    else Ok(s.(ckpt := Attempt(true, false, gen, true), handler := Archiving(gen)))
  }

  function LocalAbort(s: Shell): Shell {
    if s.handler.Archiving? then s.(ckpt := NO_ATTEMPT, handler := NoHandler) else s
  }

  function Complete(s: Shell): Shell {
    if s.handler.Archiving? then s.(ckpt := if s.ckpt.active then s.ckpt.(ready := true) else s.ckpt, handler := NoHandler) else s
  }

  function Abort(s: Shell, gen: Generation): Reply {
    if !s.started then Err(NoLiveShell)
    else if gen == NO_GENERATION then Err(BadCheckpointID)
    else if !s.ckpt.active then Ok(s)
    else if gen != s.ckpt.id then Err(BadCheckpointID)
    else if !s.ckpt.ready then Err(CheckpointBusy)
    else Ok(s.(ckpt := NO_ATTEMPT))
  }

  function BeginRestore(s: Shell): Reply {
    if s.started || s.ckpt.active then Err(AlreadyStarted) else Ok(s.(ckpt := NO_ATTEMPT.(active := true), handler := Restoring))
  }

  /** adopt, before the handler gives the slot back. */
  function Adopt(s: Shell): Shell { if s.handler.Restoring? then s.(started := true, alive := true) else s }

  function EndRestore(s: Shell): Shell { if s.handler.Restoring? then s.(ckpt := NO_ATTEMPT, handler := NoHandler) else s }

  datatype Label = WriteBegins | WriteEnds | Request(gen: Generation) | Failed | StreamDone | AbortRequest(abort: Generation)
                 | RestoreBegins | Adopts | RestoreEnds | ShellExits

  function Kept(s: Shell, r: Reply): Shell { if r.Ok? then r.value else s }

  function Next(s: Shell, l: Label): Shell {
    match l
    case WriteBegins => Kept(s, BeginWrite(s))
    case WriteEnds => EndWrite(s)
    case Request(gen) => if gen == NO_GENERATION then s else Kept(s, Begin(s, gen))
    case Failed => LocalAbort(s)
    case StreamDone => Complete(s)
    case AbortRequest(gen) => Kept(s, Abort(s, gen))
    case RestoreBegins => Kept(s, BeginRestore(s))
    case Adopts => Adopt(s)
    case RestoreEnds => EndRestore(s)
    case ShellExits => s.(alive := false)
  }

  function After(s: Shell, labels: seq<Label>): Shell
    decreases |labels|
  {
    if labels == [] then s else After(Next(s, labels[0]), labels[1..])
  }

  ghost predicate Inv(s: Shell) {
    && (s.writing > 0 ==> s.started && !s.ckpt.active)
    && (s.alive ==> s.started)
    && (s.handler.Restoring? ==> s.ckpt == NO_ATTEMPT.(active := true))
    && (s.handler.Archiving? ==> s.started && s.ckpt == Attempt(true, false, s.handler.gen, true) && s.handler.gen != NO_GENERATION)
    && (s.handler.NoHandler? ==>
          s.ckpt == NO_ATTEMPT || (s.ckpt.ready && s.ckpt.active && s.ckpt.paused && s.started && s.ckpt.id != NO_GENERATION))
  }

  function New(restoreMode: bool): Shell { Shell(!restoreMode, !restoreMode, NO_ATTEMPT, NoHandler, 0) }

  lemma NextInv(s: Shell, l: Label)
    requires Inv(s)
    ensures Inv(Next(s, l))
  {
  }

  function Fence(s: Shell): Admission {
    if !s.started || s.handler.Restoring? then Awaiting
    else if !s.ckpt.active then Open
    else if s.ckpt.ready then Streamed(s.ckpt.id)
    else Streaming(s.ckpt.id)
  }

  /** Every step is a step of AgentFence, or leaves the barrier alone. */
  lemma StepRefines(s: Shell, l: Label)
    requires Inv(s)
    ensures var a, b := Fence(s), Fence(Next(s, l));
      match l
      case Request(gen) => b == a || b == BeginArchive(a, gen)
      case Failed => b == FailArchive(a)
      case StreamDone => b == CompleteArchive(a)
      case AbortRequest(gen) => b == if gen == NO_GENERATION then a else AbortArchive(a, gen)
      case RestoreEnds => b == a || b == RestoreArchive(a)
      case _ => b == a
  {
  }

  predicate Aborts(s: Shell, l: Label, gen: Generation) { l == AbortRequest(gen) && Abort(s, gen).Ok? }

  ghost predicate NeverAborts(s: Shell, labels: seq<Label>, gen: Generation)
    decreases |labels|
  {
    labels == [] || (!Aborts(s, labels[0], gen) && NeverAborts(Next(s, labels[0]), labels[1..], gen))
  }

  /** The home directory holds still: no write is under way and the tree is stopped. */
  predicate Still(s: Shell) { s.writing == 0 && s.ckpt.paused }

  lemma ClosedIsStill(s: Shell)
    requires Inv(s) && (Fence(s).Streaming? || Fence(s).Streamed?)
    ensures Still(s) && BeginWrite(s).Err?
  {
  }

  /** From a complete archive until the abort of that generation, nothing is written and
      the tree stays stopped, in every continuation. */
  lemma {:induction false} StaysStill(s: Shell, labels: seq<Label>, gen: Generation)
    requires Inv(s) && Fence(s) == Streamed(gen) && NeverAborts(s, labels, gen)
    ensures Fence(After(s, labels)) == Streamed(gen) && Still(After(s, labels))
    decreases |labels|
  {
    if labels == [] {
      ClosedIsStill(s);
    } else {
      StepRefines(s, labels[0]);
      NextInv(s, labels[0]);
      StaysStill(Next(s, labels[0]), labels[1..], gen);
    }
  }

  lemma LocalAbortIsOwn(s: Shell)
    requires Inv(s) && s.handler.Archiving?
    ensures Fence(s) == Streaming(s.handler.gen) && Fence(LocalAbort(s)) == Open && !LocalAbort(s).ckpt.paused
  {
  }

  lemma AbortTwice(s: Shell, gen: Generation)
    requires Abort(s, gen).Ok?
    ensures Abort(Abort(s, gen).value, gen) == Abort(s, gen)
  {
  }

  class ShellAgent {
    var started: bool
    var alive: bool
    var ckpt: Attempt
    var handler: Handler
    var writing: nat

    function S(): Shell
      reads this
    {
      Shell(started, alive, ckpt, handler, writing)
    }

    constructor (restoreMode: bool)
      ensures S() == New(restoreMode)
    {
      started, alive, ckpt, handler, writing := !restoreMode, !restoreMode, NO_ATTEMPT, NoHandler, 0;
    }

    method BeginCheckpoint(gen: Generation) returns (err: Option<Refusal>)
      requires writing == 0
      modifies this`ckpt, this`handler
      ensures match Begin(old(S()), gen)
        case Ok(s) => err.None? && S() == s
        case Err(e) => err == Some(e) && S() == old(S())
    {
      if !started || !alive { return Some(NoLiveShell); }
      if ckpt.active { return Some(AdmissionClosed); }
      ckpt := Attempt(true, false, gen, true);
      handler := Archiving(gen);
      return None;
    }

    method ReopenLocked()
      modifies this`ckpt
      ensures ckpt == NO_ATTEMPT
    {
      ckpt := NO_ATTEMPT;
    }

    method AbortCheckpoint()
      modifies this`ckpt, this`handler
      ensures S() == LocalAbort(old(S()))
    {
      if !handler.Archiving? { return; }
      ReopenLocked();
      handler := NoHandler;
    }

    method CompleteCheckpoint()
      modifies this`ckpt, this`handler
      ensures S() == Complete(old(S()))
    {
      if !handler.Archiving? { return; }
      if ckpt.active { ckpt := ckpt.(ready := true); }
      handler := NoHandler;
    }

    method AbortCompletedCheckpoint(gen: Generation) returns (err: Option<Refusal>)
      modifies this`ckpt
      ensures match Abort(old(S()), gen)
        case Ok(s) => err.None? && S() == s
        case Err(e) => err == Some(e) && S() == old(S())
    {
      if !started { return Some(NoLiveShell); }
      if gen == NO_GENERATION { return Some(BadCheckpointID); }
      if !ckpt.active { return None; }
      if gen != ckpt.id { return Some(BadCheckpointID); }
      if !ckpt.ready { return Some(CheckpointBusy); }
      ReopenLocked();
      return None;
    }
  }
}
