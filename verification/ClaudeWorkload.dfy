/** claudeWorkload (data-plane/cmd/agent/claude.go): the bounded prompt queue, the one
    worker, the checkpoint barrier, the plugin refresh, restore and the two-write
    sign-in. Each function is one critical section under the workload's mutex. */
module ClaudeWorkload {
  import opened Wrappers
  import opened Bytes
  import opened AgentFence

  const MAX_QUEUED_PROMPTS: nat := 64
  const MAX_QUEUED_BYTES: nat := 8 * 1024 * 1024

  datatype Job = Job(prompt: Bytes, seqNo: nat)

  /** pendingClaudeLogin: the writes it was shown after and the held prompt. The sign-in's
      number and the held write's tell one from another and decide nothing. */
  datatype Pending = Pending(id: nat, after: nat, held: Job)

  datatype Dropped = Dropped(after: nat, until: int)

  datatype Input = Plain | Code(signIn: Pending) | StaleCode | BeforeSignIn

  /** running is the write whose prompt the CLI was given, once it was. */
  datatype Turn = Turn(job: Job, resume: bool, input: Input, running: Option<Job>)

  /** The /checkpoint request in flight. */
  datatype Handler = NoHandler | Draining(gen: Generation) | Archiving(gen: Generation)

  datatype Jobs = Jobs(queue: seq<Job>, queuedBytes: nat, enqueued: nat)

  datatype Gate = Gate(ready: bool, accepting: bool, checkpointing: bool, checkpointReady: bool, checkpointID: Generation,
                       handler: Handler, restoring: bool, refreshing: bool, stopping: bool)

  datatype Login = Login(pending: Option<Pending>, dropped: Option<Dropped>, signIns: nat)

  datatype Workload = Workload(jobs: Jobs, gate: Gate, login: Login, turn: Option<Turn>, hasRun: bool, turns: nat)

  datatype Refusal = Stopping | AwaitingRestore | AlreadyReady | AdmissionClosed | OutputFull | QueueFull
                   | BadCheckpointID | CheckpointBusy | RefreshRunning | RefreshBusy

  type Reply = Result<Workload, Refusal>

  function New(restoreMode: bool, hasRun: bool): Workload {
    Workload(Jobs([], 0, 0),
             Gate(!restoreMode, !restoreMode, false, false, NO_GENERATION, NoHandler, false, false, false),
             Login(None, None, 0), None, !restoreMode && hasRun, 0)
  }

  // --------------------------------------------------------------------- queue

  function Enqueue(w: Workload, prompt: Bytes, outputFull: bool): Reply {
    if w.gate.stopping then Err(Stopping)
    else if !w.gate.ready then Err(AwaitingRestore)
    else if !w.gate.accepting then Err(AdmissionClosed)
    else if outputFull then Err(OutputFull)
    else if |w.jobs.queue| >= MAX_QUEUED_PROMPTS || w.jobs.queuedBytes + |prompt| > MAX_QUEUED_BYTES then Err(QueueFull)
    else
      Ok(w.(jobs := Jobs(w.jobs.queue + [Job(prompt, w.jobs.enqueued + 1)],
                         w.jobs.queuedBytes + |prompt|, w.jobs.enqueued + 1)))
  }

  /** classifyInputLocked */
  function Classify(pending: Option<Pending>, dropped: Option<Dropped>, job: Job, now: int)
    : (Input, Option<Pending>, Option<Dropped>)
  {
    if pending.Some? then
      if job.seqNo <= pending.value.after then (BeforeSignIn, pending, dropped) else (Code(pending.value), None, dropped)
    else if dropped.Some? then
      if now > dropped.value.until then (Plain, None, None)
      else if job.seqNo > dropped.value.after then (StaleCode, None, None)
      else (Plain, None, dropped)
    else (Plain, None, None)
  }

  /** The worker waits for these. */
  predicate CanTake(w: Workload) {
    !w.gate.stopping && w.gate.ready && !w.gate.refreshing && w.turn.None? && w.jobs.queue != []
  }

  /** The worker's dequeue. */
  function Take(w: Workload, now: int): Workload
    requires CanTake(w)
  {
    var job := w.jobs.queue[0];
    var c := Classify(w.login.pending, w.login.dropped, job, now);
    var bytes := if |job.prompt| <= w.jobs.queuedBytes then w.jobs.queuedBytes - |job.prompt| else 0;
    Workload(Jobs(w.jobs.queue[1..], bytes, w.jobs.enqueued), w.gate, w.login.(pending := c.1, dropped := c.2),
             Some(Turn(job, w.hasRun, c.0, None)), w.hasRun, w.turns + 1)
  }

  /** subscriptionGate's three ways out: the prompt may run, a sign-in was started for
      it, or neither. */
  datatype GateAnswer = Passed | SignInShown | Refused

  predicate CanOpen(w: Workload) { w.turn.Some? && w.turn.value.running.None? }

  predicate CanHold(w: Workload) { CanOpen(w) && w.turn.value.input.Plain? }

  /** subscriptionGate starts a sign-in and holds the turn's prompt. */
  function Hold(w: Workload): Workload
    requires CanHold(w)
  {
    w.(login := Login(Some(Pending(w.login.signIns, w.jobs.enqueued, w.turn.value.job)), None, w.login.signIns + 1))
  }

  /** The write whose prompt the turn runs: its own past the gate, the held one when
      completeLogin had the code accepted, otherwise none. */
  function Runs(w: Workload, answer: GateAnswer, accepted: bool): Option<Job>
    requires CanOpen(w)
  {
    match w.turn.value.input
    case Plain => if answer == Passed then Some(w.turn.value.job) else None
    case Code(p) => if accepted then Some(p.held) else None
    case StaleCode => None
    case BeforeSignIn => None
  }

  /** openTurn; a turn with nothing to run ends at once. */
  function Opened(w: Workload, answer: GateAnswer, accepted: bool): Workload
    requires CanOpen(w)
  {
    var v := if CanHold(w) && answer == SignInShown then Hold(w) else w;
    var running := Runs(w, answer, accepted);
    v.(turn := if running.None? then None else Some(w.turn.value.(running := running)))
  }

  predicate CanFinish(w: Workload) { w.turn.Some? && w.turn.value.running.Some? }

  /** The end of a turn that ran. */
  function EndTurn(w: Workload, succeeded: bool): Workload
    requires CanFinish(w)
  {
    w.(hasRun := w.turn.value.resume || succeeded, turn := None)
  }

  /** dropPendingLogin for a given sign-in */
  function Drop(w: Workload, id: nat, until: int): Workload {
    if w.login.pending.None? || w.login.pending.value.id != id then w
    else
      var dropped := if w.gate.stopping then w.login.dropped else Some(Dropped(w.login.pending.value.after, until));
      w.(login := Login(None, dropped, w.login.signIns))
  }

  // ---------------------------------------------------------------- checkpoints

  function Begin(w: Workload, gen: Generation): Reply {
    if w.gate.stopping then Err(Stopping)
    else if !w.gate.ready then Err(AwaitingRestore)
    else if !w.gate.accepting || w.gate.checkpointing then Err(AdmissionClosed)
    else Ok(w.(gate := w.gate.(accepting := false, checkpointing := true, checkpointReady := false, checkpointID := gen,
                               handler := Draining(gen))))
  }

  predicate Idle(w: Workload) { w.turn.None? && !w.gate.refreshing && w.jobs.queue == [] }

  function Cleared(g: Gate): Gate { g.(checkpointing := false, checkpointReady := false, checkpointID := NO_GENERATION) }

  function Reopen(g: Gate): Gate { Cleared(g).(accepting := if g.ready && !g.stopping then true else g.accepting) }

  /** The drain ends: stopping, a cancelled request, or everything idle and the sign-in dropped. */
  function DrainEnds(w: Workload, cancelled: bool, until: int): Workload {
    if !w.gate.handler.Draining? then w
    else if w.gate.stopping then w.(gate := Cleared(w.gate).(handler := NoHandler))
    else if cancelled then w.(gate := Reopen(w.gate).(handler := NoHandler))
    else if !Idle(w) then w
    else
      var v := if w.login.pending.Some? then Drop(w, w.login.pending.value.id, until) else w;
      v.(gate := v.gate.(handler := Archiving(v.gate.handler.gen)))
  }

  /** abortCheckpoint, from the handler: persisting, validating or streaming failed. */
  function LocalAbort(w: Workload): Workload {
    if !w.gate.handler.Archiving? then w
    else w.(gate := (if w.gate.checkpointing then Reopen(w.gate) else w.gate).(handler := NoHandler))
  }

  /** completeCheckpointStream, from the handler. */
  function Complete(w: Workload): Workload {
    if !w.gate.handler.Archiving? then w
    else
      var g := if w.gate.checkpointing then w.gate.(checkpointReady := true, accepting := false) else w.gate;
      w.(gate := g.(handler := NoHandler))
  }

  /** abortCompletedCheckpoint */
  function Abort(w: Workload, gen: Generation): Reply {
    if w.gate.stopping then Err(Stopping)
    else if !w.gate.ready then Err(AwaitingRestore)
    else if gen == NO_GENERATION then Err(BadCheckpointID)
    else if !w.gate.checkpointing then Ok(w)
    else if gen != w.gate.checkpointID then Err(BadCheckpointID)
    else if !w.gate.checkpointReady then Err(CheckpointBusy)
    else Ok(w.(gate := Reopen(w.gate)))
  }

  // ------------------------------------------------- refresh, restore and shutdown

  function BeginRefresh(w: Workload): Reply {
    if w.gate.stopping then Err(Stopping)
    else if !w.gate.ready then Err(AwaitingRestore)
    else if !w.gate.accepting || w.gate.checkpointing then Err(AdmissionClosed)
    else if w.gate.refreshing then Err(RefreshRunning)
    else if w.turn.Some? || w.jobs.queue != [] then Err(RefreshBusy)
    else Ok(w.(gate := w.gate.(refreshing := true)))
  }

  function EndRefresh(w: Workload): Workload { w.(gate := w.gate.(refreshing := false)) }

  function BeginRestore(w: Workload): Reply {
    if w.gate.stopping then Err(Stopping)
    else if w.gate.ready || w.gate.restoring then Err(AlreadyReady)
    else Ok(w.(gate := w.gate.(restoring := true)))
  }

  datatype Restored = Restored(hasRun: bool, turns: nat)

  function EndRestore(w: Workload, result: Option<Restored>): Workload {
    if !w.gate.restoring then w
    else if result.None? then w.(gate := w.gate.(restoring := false))
    else w.(turns := result.value.turns, hasRun := result.value.hasRun,
            gate := w.gate.(ready := true, accepting := true, restoring := false))
  }

  function Stop(w: Workload): Workload {
    if w.gate.stopping then w
    else w.(gate := w.gate.(stopping := true, accepting := false), login := w.login.(pending := None))
  }

  // ----------------------------------------------------------------------- steps

  datatype Label =
    | Queue(q: QueueStep)
    | Checkpoint(c: CheckpointStep)
    | Life(l: LifeStep)

  datatype QueueStep = Write(prompt: Bytes, outputFull: bool) | Dequeue(now: int)
                     | TurnOpens(answer: GateAnswer, accepted: bool) | TurnEnds(succeeded: bool)
                     | Expire(id: nat, until: int)

  datatype CheckpointStep = Request(gen: Generation) | Drained(cancelled: bool, until: int) | Failed | StreamDone
                          | AbortRequest(abort: Generation)

  datatype LifeStep = RefreshBegins | RefreshEnds | RestoreBegins | RestoreEnds(result: Option<Restored>) | Close

  function Kept(w: Workload, r: Reply): Workload { if r.Ok? then r.value else w }

  function QueueNext(w: Workload, q: QueueStep): Workload {
    match q
    case Write(prompt, outputFull) => Kept(w, Enqueue(w, prompt, outputFull))
    case Dequeue(now) => if CanTake(w) then Take(w, now) else w
    case TurnOpens(answer, accepted) => if CanOpen(w) then Opened(w, answer, accepted) else w
    case TurnEnds(succeeded) => if CanFinish(w) then EndTurn(w, succeeded) else w
    case Expire(id, until) => Drop(w, id, until)
  }

  function CheckpointNext(w: Workload, c: CheckpointStep): Workload {
    match c
    case Request(gen) => if gen == NO_GENERATION then w else Kept(w, Begin(w, gen))
    case Drained(cancelled, until) => DrainEnds(w, cancelled, until)
    case Failed => LocalAbort(w)
    case StreamDone => Complete(w)
    case AbortRequest(gen) => Kept(w, Abort(w, gen))
  }

  function LifeNext(w: Workload, l: LifeStep): Workload {
    match l
    case RefreshBegins => Kept(w, BeginRefresh(w))
    case RefreshEnds => EndRefresh(w)
    case RestoreBegins => Kept(w, BeginRestore(w))
    case RestoreEnds(result) => EndRestore(w, result)
    case Close => Stop(w)
  }

  /** A refused call and a wait change nothing. */
  function Next(w: Workload, l: Label): Workload {
    match l
    case Queue(q) => QueueNext(w, q)
    case Checkpoint(c) => CheckpointNext(w, c)
    case Life(l) => LifeNext(w, l)
  }

  function After(w: Workload, labels: seq<Label>): Workload
    decreases |labels|
  {
    if labels == [] then w else After(Next(w, labels[0]), labels[1..])
  }

  // ------------------------------------------------------------------- invariant

  function PromptBytes(queue: seq<Job>): nat
    decreases |queue|
  {
    if queue == [] then 0 else |queue[0].prompt| + PromptBytes(queue[1..])
  }

  ghost predicate QueueOk(w: Workload) {
    && w.jobs.queuedBytes == PromptBytes(w.jobs.queue)
    && |w.jobs.queue| <= MAX_QUEUED_PROMPTS && w.jobs.queuedBytes <= MAX_QUEUED_BYTES
    && |w.jobs.queue| <= w.jobs.enqueued
    && (forall i :: 0 <= i < |w.jobs.queue| ==> w.jobs.queue[i].seqNo == w.jobs.enqueued - |w.jobs.queue| + 1 + i)
    && (w.turn.Some? ==> w.turn.value.job.seqNo <= w.jobs.enqueued - |w.jobs.queue| && w.turn.value.resume == w.hasRun)
  }

  ghost predicate SignInOk(w: Workload) {
    && (w.login.pending.None? || w.login.dropped.None?)
    && (w.turn.Some? && (w.turn.value.input.Plain? || w.turn.value.input.Code?) ==> w.login.pending.None?)
    && (w.turn.Some? && w.turn.value.input.Code? ==>
          w.turn.value.input.signIn.held.seqNo <= w.jobs.enqueued - |w.jobs.queue|)
    && (w.login.pending.Some? ==>
          var p := w.login.pending.value;
          p.after <= w.jobs.enqueued && p.id < w.login.signIns && p.held.seqNo <= w.jobs.enqueued - |w.jobs.queue|)
    && (w.login.dropped.Some? ==> w.login.dropped.value.after <= w.jobs.enqueued)
  }

  ghost predicate BarrierOk(w: Workload) {
    && (w.gate.accepting ==> w.gate.ready && !w.gate.checkpointing)
    && (w.gate.ready && !w.gate.stopping ==> w.gate.accepting || w.gate.checkpointing)
    && (w.gate.restoring ==> !w.gate.ready)
    && (w.gate.checkpointReady ==> w.gate.checkpointing)
    && (w.gate.checkpointing ==> w.gate.ready && w.gate.checkpointID != NO_GENERATION)
    && (w.gate.handler != NoHandler ==> w.gate.checkpointing && !w.gate.checkpointReady && w.gate.handler.gen == w.gate.checkpointID)
    && (w.gate.checkpointing && !w.gate.checkpointReady ==> w.gate.handler != NoHandler)
    && (w.gate.checkpointing && !w.gate.handler.Draining? ==> Idle(w))
    && (!w.gate.ready ==> Idle(w))
  }

  ghost predicate Inv(w: Workload) { QueueOk(w) && SignInOk(w) && BarrierOk(w) }

  lemma NewInv(restoreMode: bool, hasRun: bool)
    ensures Inv(New(restoreMode, hasRun))
  {
  }

  lemma {:induction false} BytesAppend(a: seq<Job>, b: seq<Job>)
    ensures PromptBytes(a + b) == PromptBytes(a) + PromptBytes(b)
    decreases |a|
  {
    if a == [] {
      assert a + b == b;
    } else {
      assert (a + b)[1..] == a[1..] + b;
      BytesAppend(a[1..], b);
    }
  }

  lemma WriteInv(w: Workload, prompt: Bytes, outputFull: bool)
    requires Inv(w)
    ensures Inv(Kept(w, Enqueue(w, prompt, outputFull)))
  {
    BytesAppend(w.jobs.queue, [Job(prompt, w.jobs.enqueued + 1)]);
    assert [Job(prompt, w.jobs.enqueued + 1)][1..] == [];
  }

  lemma TakeInv(w: Workload, now: int)
    requires Inv(w) && CanTake(w)
    ensures Inv(Take(w, now))
  {
  }

  lemma QueueInv(w: Workload, q: QueueStep)
    requires Inv(w)
    ensures Inv(QueueNext(w, q))
  {
    match q {
      case Write(prompt, outputFull) => WriteInv(w, prompt, outputFull);
      case Dequeue(now) => if CanTake(w) { TakeInv(w, now); }
      case TurnOpens(_, _) =>
      case TurnEnds(_) =>
      case Expire(_, _) =>
    }
  }

  lemma CheckpointInv(w: Workload, c: CheckpointStep)
    requires Inv(w)
    ensures Inv(CheckpointNext(w, c))
  {
  }

  lemma LifeInv(w: Workload, l: LifeStep)
    requires Inv(w)
    ensures Inv(LifeNext(w, l))
  {
  }

  lemma NextInv(w: Workload, l: Label)
    requires Inv(w)
    ensures Inv(Next(w, l))
  {
    match l {
      case Queue(q) => QueueInv(w, q);
      case Checkpoint(c) => CheckpointInv(w, c);
      case Life(l) => LifeInv(w, l);
    }
  }

  lemma {:induction false} RunInv(w: Workload, labels: seq<Label>)
    requires Inv(w)
    ensures Inv(After(w, labels))
    decreases |labels|
  {
    if labels != [] {
      NextInv(w, labels[0]);
      RunInv(Next(w, labels[0]), labels[1..]);
    }
  }

  // ------------------------------------- arrival order, each prompt exactly once

  predicate Accepts(w: Workload, l: Label) { l.Queue? && l.q.Write? && Enqueue(w, l.q.prompt, l.q.outputFull).Ok? }

  /** What the steps of a run accepted and what the worker took, in order. */
  function Accepted(w: Workload, labels: seq<Label>): seq<Job>
    decreases |labels|
  {
    if labels == [] then []
    else
      (if Accepts(w, labels[0]) then [Job(labels[0].q.prompt, w.jobs.enqueued + 1)] else []) +
      Accepted(Next(w, labels[0]), labels[1..])
  }

  predicate Takes(w: Workload, l: Label) { l.Queue? && l.q.Dequeue? && CanTake(w) }

  function Taken(w: Workload, labels: seq<Label>): seq<Job>
    decreases |labels|
  {
    if labels == [] then []
    else (if Takes(w, labels[0]) then [w.jobs.queue[0]] else []) + Taken(Next(w, labels[0]), labels[1..])
  }

  /** What one step does to the queue. */
  ghost predicate QueueStepped(w: Workload, l: Label, v: Workload) {
    && v.jobs.enqueued == w.jobs.enqueued + (if Accepts(w, l) then 1 else 0)
    && v.jobs.queue == (if Accepts(w, l) then w.jobs.queue + [Job(l.q.prompt, v.jobs.enqueued)]
                   else if Takes(w, l) then w.jobs.queue[1..] else w.jobs.queue)
  }

  lemma WriteStepsQueue(w: Workload, prompt: Bytes, outputFull: bool)
    ensures QueueStepped(w, Queue(Write(prompt, outputFull)), QueueNext(w, Write(prompt, outputFull)))
  {
  }

  lemma DequeueStepsQueue(w: Workload, now: int)
    ensures QueueStepped(w, Queue(Dequeue(now)), QueueNext(w, Dequeue(now)))
  {
    hide Classify;
  }

  lemma QueueStepsQueue(w: Workload, q: QueueStep)
    ensures QueueStepped(w, Queue(q), QueueNext(w, q))
  {
    hide Classify;
    match q {
      case Write(prompt, outputFull) => WriteStepsQueue(w, prompt, outputFull);
      case Dequeue(now) => DequeueStepsQueue(w, now);
      case TurnOpens(_, _) =>
      case TurnEnds(_) =>
      case Expire(_, _) =>
    }
  }

  /** What no checkpoint step touches. */
  ghost predicate SameWork(w: Workload, v: Workload) {
    && v.jobs == w.jobs && v.turn == w.turn && v.turns == w.turns && v.hasRun == w.hasRun
    && v.gate.ready == w.gate.ready && v.gate.refreshing == w.gate.refreshing && v.gate.stopping == w.gate.stopping
    && v.login.signIns == w.login.signIns
  }

  lemma CheckpointKeepsWork(w: Workload, c: CheckpointStep)
    ensures SameWork(w, CheckpointNext(w, c))
  {
  }

  lemma CheckpointKeepsQueue(w: Workload, c: CheckpointStep)
    ensures QueueStepped(w, Checkpoint(c), CheckpointNext(w, c))
  {
    hide CheckpointNext;
    CheckpointKeepsWork(w, c);
  }

  lemma LifeKeepsQueue(w: Workload, l: LifeStep)
    ensures QueueStepped(w, Life(l), LifeNext(w, l))
  {
  }

  lemma StepQueue(w: Workload, l: Label)
    ensures QueueStepped(w, l, Next(w, l))
  {
    hide QueueStepped;
    match l {
      case Queue(q) => QueueStepsQueue(w, q);
      case Checkpoint(c) => CheckpointKeepsQueue(w, c);
      case Life(l) => LifeKeepsQueue(w, l);
    }
  }

  /** Everything accepted is taken in arrival order exactly once, or still queued. */
  lemma {:induction false} FifoExactlyOnce(w: Workload, labels: seq<Label>)
    ensures w.jobs.queue + Accepted(w, labels) == Taken(w, labels) + After(w, labels).jobs.queue
    decreases |labels|
  {
    hide Next;
    if labels == [] {
      assert w.jobs.queue + [] == [] + w.jobs.queue;
    } else {
      StepQueue(w, labels[0]);
      var v := Next(w, labels[0]);
      FifoExactlyOnce(v, labels[1..]);
      FifoStep(w, v, labels[0], Accepted(v, labels[1..]), Taken(v, labels[1..]), After(v, labels[1..]).jobs.queue);
    }
  }

  lemma FifoStep(w: Workload, v: Workload, l: Label, accepted: seq<Job>, taken: seq<Job>, last: seq<Job>)
    requires QueueStepped(w, l, v) && v.jobs.queue + accepted == taken + last
    ensures w.jobs.queue + ((if Accepts(w, l) then [Job(l.q.prompt, w.jobs.enqueued + 1)] else []) + accepted) ==
            ((if Takes(w, l) then [w.jobs.queue[0]] else []) + taken) + last
  {
    hide Enqueue;
    if Accepts(w, l) {
      var job := [Job(l.q.prompt, w.jobs.enqueued + 1)];
      assert w.jobs.queue + (job + accepted) == (w.jobs.queue + job) + accepted;
      assert [] + taken == taken;
    } else if Takes(w, l) {
      var first := [w.jobs.queue[0]];
      assert w.jobs.queue == first + v.jobs.queue;
      assert (first + v.jobs.queue) + accepted == first + (v.jobs.queue + accepted);
      assert (first + taken) + last == first + (taken + last);
      assert [] + accepted == accepted;
    } else {
      assert [] + accepted == accepted && [] + taken == taken;
    }
  }

  // -------------------------------------------------- the resume flag (AC-E4)

  predicate Succeeds(w: Workload, l: Label) { l.Queue? && l.q.TurnEnds? && l.q.succeeded && CanFinish(w) }

  predicate Restores(w: Workload, l: Label) { l.Life? && l.l.RestoreEnds? && l.l.result.Some? && w.gate.restoring }

  /** What the labels of a run say of the flag: the last restored one, or the first one,
      or a success since. */
  ghost function Resumes(w: Workload, labels: seq<Label>, flag: bool): bool
    decreases |labels|
  {
    if labels == [] then flag
    else
      var l := labels[0];
      Resumes(Next(w, l), labels[1..], if Restores(w, l) then l.l.result.value.hasRun else flag || Succeeds(w, l))
  }

  lemma StepHasRun(w: Workload, l: Label)
    requires Inv(w) && !Restores(w, l)
    ensures Next(w, l).hasRun <==> w.hasRun || Succeeds(w, l)
  {
    match l {
      case Queue(q) => QueueHasRun(w, q);
      case Checkpoint(c) => CheckpointKeepsWork(w, c);
      case Life(_) =>
    }
  }

  lemma QueueHasRun(w: Workload, q: QueueStep)
    requires Inv(w)
    ensures QueueNext(w, q).hasRun <==> w.hasRun || Succeeds(w, Queue(q))
  {
    hide Classify;
  }

  /** The conversation is resumed exactly after a first success, here or in the pod the
      agent was restored from, and that is never forgotten. */
  lemma {:induction false} ResumesAfterFirstSuccess(w: Workload, labels: seq<Label>)
    requires Inv(w)
    ensures After(w, labels).hasRun == Resumes(w, labels, w.hasRun)
    decreases |labels|
  {
    if labels != [] {
      if !Restores(w, labels[0]) { StepHasRun(w, labels[0]); }
      NextInv(w, labels[0]);
      ResumesAfterFirstSuccess(Next(w, labels[0]), labels[1..]);
    }
  }

  // ------------------------------------------------------- the admission barrier

  /** The barrier as AgentFence has it. */
  function Fence(w: Workload): Admission {
    if !w.gate.ready then Awaiting
    else if !w.gate.checkpointing then Open
    else if w.gate.checkpointReady then Streamed(w.gate.checkpointID)
    else Streaming(w.gate.checkpointID)
  }

  lemma BeginRefines(w: Workload, gen: Generation)
    requires Inv(w) && gen != NO_GENERATION
    ensures Begin(w, gen).Ok? <==> Fence(w) == Open && !w.gate.stopping
    ensures Begin(w, gen).Ok? ==> Fence(Begin(w, gen).value) == BeginArchive(Fence(w), gen)
    ensures Fence(w) != Open ==> BeginArchive(Fence(w), gen) == Fence(w)
  {
  }

  lemma AbortRefines(w: Workload, gen: Generation)
    requires Inv(w)
    ensures Fence(Kept(w, Abort(w, gen))) ==
            if w.gate.stopping || gen == NO_GENERATION then Fence(w) else AbortArchive(Fence(w), gen)
  {
  }

  /** Every step is a step of AgentFence, or leaves the barrier alone. */
  ghost predicate Refines(a: Admission, l: Label, b: Admission) {
    match l
    case Queue(_) => b == a
    case Checkpoint(Request(gen)) => b == a || b == BeginArchive(a, gen)
    case Checkpoint(AbortRequest(gen)) => b == a || b == AbortArchive(a, gen)
    case Checkpoint(StreamDone) => b == a || b == CompleteArchive(a)
    case Checkpoint(Failed) => b == a || b == FailArchive(a)
    case Checkpoint(Drained(_, _)) => b == a || b == FailArchive(a)
    case Life(l) => b == a || (l.RestoreEnds? && b == RestoreArchive(a))
  }

  lemma QueueRefines(w: Workload, q: QueueStep)
    requires Inv(w)
    ensures Fence(QueueNext(w, q)) == Fence(w)
  {
  }

  lemma CheckpointRefines(w: Workload, c: CheckpointStep)
    requires Inv(w)
    ensures Refines(Fence(w), Checkpoint(c), Fence(CheckpointNext(w, c)))
  {
    match c {
      case Request(gen) => if gen != NO_GENERATION { BeginRefines(w, gen); }
      case Drained(_, _) =>
      case Failed =>
      case StreamDone =>
      case AbortRequest(gen) => AbortRefines(w, gen);
    }
  }

  lemma LifeRefines(w: Workload, l: LifeStep)
    requires Inv(w)
    ensures Refines(Fence(w), Life(l), Fence(LifeNext(w, l)))
  {
  }

  lemma StepRefines(w: Workload, l: Label)
    requires Inv(w)
    ensures Refines(Fence(w), l, Fence(Next(w, l)))
  {
    match l {
      case Queue(q) => QueueRefines(w, q);
      case Checkpoint(c) => CheckpointRefines(w, c);
      case Life(l) => LifeRefines(w, l);
    }
  }

  /** A prompt is accepted only while the barrier is open. */
  lemma AcceptsOnlyOpen(w: Workload, prompt: Bytes, outputFull: bool)
    requires Inv(w) && Enqueue(w, prompt, outputFull).Ok?
    ensures Fence(w) == Open
  {
  }

  lemma RefreshesOnlyOpen(w: Workload)
    requires Inv(w) && BeginRefresh(w).Ok?
    ensures Fence(w) == Open && Idle(w)
  {
  }

  /** The handler's own failure reopens its own generation and no other. */
  lemma LocalAbortIsOwn(w: Workload)
    requires Inv(w) && w.gate.handler.Archiving?
    ensures Fence(w) == Streaming(w.gate.handler.gen) && Fence(LocalAbort(w)) == Open
  {
  }

  /** Repeating an abort is a success that changes nothing. */
  lemma AbortTwice(w: Workload, gen: Generation)
    requires Abort(w, gen).Ok?
    ensures Abort(Abort(w, gen).value, gen) == Abort(w, gen)
  {
  }

  predicate Aborts(w: Workload, l: Label, gen: Generation) {
    l == Checkpoint(AbortRequest(gen)) && Abort(w, gen).Ok?
  }

  ghost predicate NeverAborts(w: Workload, labels: seq<Label>, gen: Generation)
    decreases |labels|
  {
    labels == [] || (!Aborts(w, labels[0], gen) && NeverAborts(Next(w, labels[0]), labels[1..], gen))
  }

  /** Nothing runs and nothing is queued: the archive is all there is. */
  ghost predicate Frozen(w: Workload, gen: Generation) { Fence(w) == Streamed(gen) && Idle(w) }

  lemma StepStaysFrozen(w: Workload, l: Label, gen: Generation)
    requires Inv(w) && Frozen(w, gen) && !Aborts(w, l, gen)
    ensures Frozen(Next(w, l), gen) && !Takes(w, l) && Next(w, l).jobs.enqueued == w.jobs.enqueued && !Next(w, l).gate.refreshing
  {
    hide PromptBytes;
  }

  /** From a complete archive until the abort of that very generation: no prompt is
      accepted, no turn and no refresh starts, whatever else is asked. */
  lemma {:induction false} StaysFrozen(w: Workload, labels: seq<Label>, gen: Generation)
    requires Inv(w) && Frozen(w, gen) && NeverAborts(w, labels, gen)
    ensures Frozen(After(w, labels), gen) && Accepted(w, labels) == [] && Taken(w, labels) == []
    decreases |labels|
  {
    if labels != [] {
      StepStaysFrozen(w, labels[0], gen);
      NextInv(w, labels[0]);
      StaysFrozen(Next(w, labels[0]), labels[1..], gen);
    }
  }

  /** An archive is begun only when queue and worker are empty. */
  lemma ArchivesWhenIdle(w: Workload, l: Label)
    requires Inv(w) && !w.gate.handler.Archiving? && Next(w, l).gate.handler.Archiving?
    ensures Idle(w) && Fence(w) == Streaming(w.gate.handler.gen)
  {
  }

  // ------------------------------------------------------------------ the object

  /** A call either did what the function says or was refused and changed nothing. */
  predicate Answered(r: Reply, before: Workload, after: Workload, err: Option<Refusal>) {
    match r
    case Ok(w) => err.None? && after == w
    case Err(e) => err == Some(e) && after == before
  }

  lemma HeadFits(w: Workload)
    requires QueueOk(w) && w.jobs.queue != []
    ensures |w.jobs.queue[0].prompt| <= w.jobs.queuedBytes
  {
  }

  /** The fields the mutex guards, and each critical section as a method. */
  class ClaudeAgent {
    var queue: seq<Job>
    var queuedBytes: nat
    var enqueued: nat
    var ready: bool
    var accepting: bool
    var checkpointing: bool
    var checkpointReady: bool
    var checkpointID: Generation
    var restoring: bool
    var refreshing: bool
    var hasRun: bool
    var turns: nat
    var stopping: bool
    var turn: Option<Turn>
    var pendingLogin: Option<Pending>
    var droppedLogin: Option<Dropped>
    var signIns: nat
    var handler: Handler

    function S(): Workload
      reads this
    {
      Workload(Jobs(queue, queuedBytes, enqueued), G(), Login(pendingLogin, droppedLogin, signIns), turn, hasRun, turns)
    }

    function G(): Gate
      reads this
    {
      Gate(ready, accepting, checkpointing, checkpointReady, checkpointID, handler, restoring, refreshing, stopping)
    }

    constructor (restoreMode: bool, persisted: bool)
      ensures S() == New(restoreMode, persisted)
    {
      queue, queuedBytes, enqueued := [], 0, 0;
      ready, accepting, checkpointing, checkpointReady, checkpointID := !restoreMode, !restoreMode, false, false, NO_GENERATION;
      restoring, refreshing, hasRun, turns, stopping := false, false, !restoreMode && persisted, 0, false;
      turn, pendingLogin, droppedLogin, signIns, handler := None, None, None, 0, NoHandler;
    }

    method EnqueuePrompt(prompt: Bytes, outputFull: bool) returns (err: Option<Refusal>)
      modifies this
      ensures Answered(Enqueue(old(S()), prompt, outputFull), old(S()), S(), err)
    {
      if stopping { return Some(Stopping); }
      if !ready { return Some(AwaitingRestore); }
      if !accepting { return Some(AdmissionClosed); }
      if outputFull { return Some(OutputFull); }
      if |queue| >= MAX_QUEUED_PROMPTS || queuedBytes + |prompt| > MAX_QUEUED_BYTES { return Some(QueueFull); }
      enqueued := enqueued + 1;
      queue := queue + [Job(prompt, enqueued)];
      queuedBytes := queuedBytes + |prompt|;
      return None;
    }

    method ClassifyInput(job: Job, now: int) returns (input: Input)
      modifies this`pendingLogin, this`droppedLogin
      ensures (input, pendingLogin, droppedLogin) == Classify(old(pendingLogin), old(droppedLogin), job, now)
    {
      if pendingLogin.Some? {
        var pending := pendingLogin.value;
        if job.seqNo <= pending.after { return BeforeSignIn; }
        pendingLogin := None;
        return Code(pending);
      }
      if droppedLogin.Some? {
        if now > droppedLogin.value.until {
          droppedLogin := None;
        } else if job.seqNo > droppedLogin.value.after {
          droppedLogin := None;
          return StaleCode;
        }
      }
      return Plain;
    }

    method TakeNext(now: int)
      requires QueueOk(S()) && CanTake(S())
      modifies this
      ensures S() == Take(old(S()), now)
    {
      hide QueueOk;
      hide Classify;
      HeadFits(S());
      var job := queue[0];
      queue := queue[1..];
      queuedBytes := queuedBytes - |job.prompt|;
      var resume := hasRun;
      turns := turns + 1;
      var input := ClassifyInput(job, now);
      turn := Some(Turn(job, resume, input, None));
    }

    method HoldForSignIn()
      requires CanHold(S())
      modifies this`pendingLogin, this`droppedLogin, this`signIns
      ensures S() == Hold(old(S()))
    {
      pendingLogin := Some(Pending(signIns, enqueued, turn.value.job));
      droppedLogin := None;
      signIns := signIns + 1;
    }

    /** openTurn, given subscriptionGate's answer and completeLogin's. */
    method OpenTurn(answer: GateAnswer, accepted: bool) returns (prompt: Option<Bytes>)
      requires CanOpen(S())
      modifies this`turn, this`pendingLogin, this`droppedLogin, this`signIns
      ensures S() == Opened(old(S()), answer, accepted)
      ensures prompt == var r := Runs(old(S()), answer, accepted); if r.Some? then Some(r.value.prompt) else None
    {
      var t := turn.value;
      match t.input {
        case Code(p) =>
          if accepted {
            turn := Some(t.(running := Some(p.held)));
            return Some(p.held.prompt);
          }
        case StaleCode =>
        case BeforeSignIn =>
        case Plain =>
          if answer == Passed {
            turn := Some(t.(running := Some(t.job)));
            return Some(t.job.prompt);
          }
          if answer == SignInShown { HoldForSignIn(); }
      }
      turn := None;
      return None;
    }

    method FinishTurn(succeeded: bool)
      requires CanFinish(S())
      modifies this`hasRun, this`turn
      ensures S() == EndTurn(old(S()), succeeded)
    {
      hasRun := turn.value.resume || succeeded;
      turn := None;
    }

    method DropPendingLogin(id: nat, until: int)
      modifies this`pendingLogin, this`droppedLogin
      ensures S() == Drop(old(S()), id, until)
    {
      if pendingLogin.None? || pendingLogin.value.id != id { return; }
      var pending := pendingLogin.value;
      pendingLogin := None;
      if !stopping { droppedLogin := Some(Dropped(pending.after, until)); }
    }

    method BeginCheckpoint(gen: Generation) returns (err: Option<Refusal>)
      modifies this
      ensures Answered(Begin(old(S()), gen), old(S()), S(), err)
    {
      if stopping { return Some(Stopping); }
      if !ready { return Some(AwaitingRestore); }
      if !accepting || checkpointing { return Some(AdmissionClosed); }
      accepting, checkpointing, checkpointReady, checkpointID, handler := false, true, false, gen, Draining(gen);
      return None;
    }

    method ReopenLocked()
      modifies this`checkpointing, this`checkpointReady, this`checkpointID, this`accepting
      ensures G() == Reopen(old(G()))
    {
      checkpointing, checkpointReady, checkpointID := false, false, NO_GENERATION;
      if ready && !stopping { accepting := true; }
    }

    method AbortCheckpoint()
      modifies this
      ensures S() == LocalAbort(old(S()))
    {
      if !handler.Archiving? { return; }
      handler := NoHandler;
      if checkpointing { ReopenLocked(); }
    }

    method CompleteCheckpointStream()
      modifies this
      ensures S() == Complete(old(S()))
    {
      if !handler.Archiving? { return; }
      handler := NoHandler;
      if checkpointing { checkpointReady, accepting := true, false; }
    }

    method AbortCompletedCheckpoint(gen: Generation) returns (err: Option<Refusal>)
      modifies this
      ensures Answered(Abort(old(S()), gen), old(S()), S(), err)
    {
      if stopping { return Some(Stopping); }
      if !ready { return Some(AwaitingRestore); }
      if gen == NO_GENERATION { return Some(BadCheckpointID); }
      if !checkpointing { return None; }
      if gen != checkpointID { return Some(BadCheckpointID); }
      if !checkpointReady { return Some(CheckpointBusy); }
      ReopenLocked();
      return None;
    }

    method RefreshPlugins() returns (err: Option<Refusal>)
      modifies this
      ensures Answered(BeginRefresh(old(S())), old(S()), S(), err)
    {
      if stopping { return Some(Stopping); }
      if !ready { return Some(AwaitingRestore); }
      if !accepting || checkpointing { return Some(AdmissionClosed); }
      if refreshing { return Some(RefreshRunning); }
      if turn.Some? || queue != [] { return Some(RefreshBusy); }
      refreshing := true;
      return None;
    }
  }
}
