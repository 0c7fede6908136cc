/** One session as its readers and its user see it, across every pod it is frozen out
    of and thawed into: what beginCheckpoint puts in the archive and what restore takes
    from it (data-plane/cmd/agent/claude.go), around the agent of ClaudeWorkload and the
    record of TurnMarkers. FreezeRestore is why a thaw starts from the archive of the
    attempt its source pod is still closed under. */
module ClaudeSession {
  import opened Wrappers
  import opened Bytes
  import opened TurnMarkers
  import Agent = ClaudeWorkload
  import AgentFence
  import Paths
  import Scrollback
  import StateArchive
  import StateExtract
  import StateRestore
  import StateTree

  /** What the agents of a session are configured with. */
  datatype Config = Config(literals: seq<Bytes>, limit: int, marker: Bytes)

  /** The persisted flag and the copied record; ops is what the record was written from. */
  datatype Archive = Archive(hasRun: bool, record: Bytes, ops: seq<Op>)

  /** saved is the runtime state file; copy what the last checkpoint gathered. */
  datatype Pod = Pod(agent: Agent.Workload, record: Bytes, saved: bool, copy: Option<Archive>, ops: seq<Op>)

  datatype Session = Session(
    pod: Pod,
    archive: Option<Archive>,     // what the pod was thawed from
    // history
    accepted: seq<Bytes>,         // prompts acknowledged, by any pod
    taken: seq<Bytes>,            // prompts dequeued, by any pod
    succeeded: bool               // some turn of some pod has succeeded
  )

  datatype Step =
    | Work(l: Agent.Label, written: seq<Op>, saves: bool)   // a step of the agent and what it records
    | RestoreDone(good: bool)
    | Thaw                                                  // a new pod for the archive
    | Retry                                                 // another one

  // --------------------------------------------------------------------- the record

  /** One bounded append; a turn block first ends an open line. */
  function Append(c: Config, record: Bytes, op: Op): Bytes {
    var block := BlockOf(c.literals, op);
    var whole := if IsBlock(op) && !Scrollback.LineComplete(record) then [NEWLINE] + block else block;
    Scrollback.AppendBounded(record, whole, c.limit, c.marker)
  }

  function AppendOps(c: Config, record: Bytes, ops: seq<Op>): Bytes
    decreases |ops|
  {
    if ops == [] then record else AppendOps(c, Append(c, record, ops[0]), ops[1..])
  }

  /** The session's limit has not been reached. */
  predicate Fits(c: Config, ops: seq<Op>) {
    |RecordAll(c.literals, [], ops)| <= Scrollback.DataLimit(c.limit, c.marker)
  }

  // ----------------------------------------------------------------------- the steps

  /** A dequeue records the beginning of its turn; nothing else begins one. */
  predicate WritesOk(w: Agent.Workload, l: Agent.Label, written: seq<Op>) {
    && (forall op :: op in written ==> Allowed(op))
    && Numbered(written, w.turns) && Begun(written) == if Agent.Takes(w, l) then 1 else 0
  }

  const FRESH := Pod(Agent.New(true, false), [], false, None, [])

  predicate Enabled(s: Session, x: Step) {
    match x
    case Work(l, written, _) => !(l.Life? && l.l.RestoreEnds?) && WritesOk(s.pod.agent, l, written)
    case RestoreDone(_) => s.archive.Some?
    case Thaw => Agent.Fence(s.pod.agent).Streamed? && s.pod.copy.Some?
    case Retry => !s.pod.agent.gate.ready
  }

  /** The drain is over: the flag is persisted and the record copied. */
  predicate Copies(w: Agent.Workload, l: Agent.Label) {
    !w.gate.handler.Archiving? && Agent.Next(w, l).gate.handler.Archiving?
  }

  predicate Persists(w: Agent.Workload, x: Step) {
    x.Work? && (Copies(w, x.l) || (x.saves && x.l.Queue? && x.l.q.TurnEnds? && Agent.CanFinish(w)))
  }

  function Worked(c: Config, s: Session, x: Step): Session
    requires x.Work?
  {
    var w, v := s.pod.agent, Agent.Next(s.pod.agent, x.l);
    var record, ops := AppendOps(c, s.pod.record, x.written), s.pod.ops + x.written;
    var saved := if Persists(w, x) then v.hasRun else s.pod.saved;
    var copy := if Copies(w, x.l) then Some(Archive(saved, record, ops)) else s.pod.copy;
    Session(Pod(v, record, saved, copy, ops), s.archive,
            s.accepted + (if Agent.Accepts(w, x.l) then [x.l.q.prompt] else []),
            s.taken + (if Agent.Takes(w, x.l) then [w.jobs.queue[0].prompt] else []),
            s.succeeded || Agent.Succeeds(w, x.l))
  }

  /** restore, with the flag required from the archive's files and the turns counted in
      its record. */
  function Restored(s: Session, good: bool): Session
    requires s.archive.Some?
  {
    var a, w := s.archive.value, s.pod.agent;
    var result := if good then Some(Agent.Restored(a.hasRun, CountInputs(a.record))) else None;
    var v := Agent.Next(w, Agent.Life(Agent.RestoreEnds(result)));
    if good && w.gate.restoring then s.(pod := Pod(v, a.record, a.hasRun, None, a.ops)) else s.(pod := s.pod.(agent := v))
  }

  function Apply(c: Config, s: Session, x: Step): Session
    requires Enabled(s, x)
  {
    match x
    case Work(_, _, _) => Worked(c, s, x)
    case RestoreDone(good) => Restored(s, good)
    case Thaw => s.(pod := FRESH, archive := s.pod.copy)
    case Retry => s.(pod := FRESH)
  }

  predicate Run(c: Config, s: Session, steps: seq<Step>)
    decreases |steps|
  {
    steps == [] || (Enabled(s, steps[0]) && Run(c, Apply(c, s, steps[0]), steps[1..]))
  }

  function After(c: Config, s: Session, steps: seq<Step>): Session
    requires Run(c, s, steps)
    decreases |steps|
  {
    if steps == [] then s else After(c, Apply(c, s, steps[0]), steps[1..])
  }

  /** A session as its first pod starts it. */
  const CREATED := Session(Pod(Agent.New(false, false), [], false, None, []), None, [], [], false)

  // ------------------------------------------------------------------- the invariant

  function Prompts(queue: seq<Agent.Job>): seq<Bytes> { seq(|queue|, i requires 0 <= i < |queue| => queue[i].prompt) }

  /** A record is what was written to it, turn by turn, each turn under its own number. */
  ghost predicate Written(c: Config, record: Bytes, ops: seq<Op>) {
    && AllAllowed(ops)
    && (Fits(c, ops) ==> record == RecordAll(c.literals, [], ops) && Numbered(ops, 0))
  }

  /** The archive of the attempt under way is complete but for its streaming. */
  predicate Closed(w: Agent.Workload) { w.gate.checkpointing && !w.gate.handler.Draining? }

  ghost predicate QueueInv(s: Session) { s.accepted == s.taken + Prompts(s.pod.agent.jobs.queue) }

  ghost predicate FlagInv(s: Session) {
    && (s.pod.agent.gate.ready ==> s.pod.agent.hasRun == s.succeeded)
    && (!s.pod.agent.gate.ready ==> s.archive.Some? && s.archive.value.hasRun == s.succeeded)
    && (Closed(s.pod.agent) ==> s.pod.copy.Some? && s.pod.copy.value.hasRun == s.succeeded)
  }

  ghost predicate RecordInv(c: Config, s: Session) {
    && Written(c, s.pod.record, s.pod.ops)
    && (Fits(c, s.pod.ops) ==> s.pod.agent.turns == Begun(s.pod.ops))
    && (s.archive.Some? ==> Written(c, s.archive.value.record, s.archive.value.ops))
    && (s.pod.copy.Some? ==> Written(c, s.pod.copy.value.record, s.pod.copy.value.ops))
    && (s.pod.copy.Some? ==> s.pod.copy.value.record <= s.pod.record)
  }

  ghost predicate Inv(c: Config, s: Session) {
    Agent.Inv(s.pod.agent) && QueueInv(s) && FlagInv(s) && RecordInv(c, s)
  }

  lemma CreatedInv(c: Config)
    ensures Inv(c, CREATED)
  {
    Agent.NewInv(false, false);
    assert Prompts([]) == [];
  }

  // --------------------------------------------------------- the record's arithmetic

  lemma {:induction false} RecordAllAppend(literals: seq<Bytes>, record: Bytes, a: seq<Op>, b: seq<Op>)
    ensures RecordAll(literals, record, a + b) == RecordAll(literals, RecordAll(literals, record, a), b)
    decreases |a|
  {
    if a == [] {
      assert a + b == b;
    } else {
      assert (a + b)[1..] == a[1..] + b;
      RecordAllAppend(literals, Record(literals, record, a[0]), a[1..], b);
    }
  }

  lemma {:induction false} RecordAllGrows(literals: seq<Bytes>, record: Bytes, ops: seq<Op>)
    ensures record <= RecordAll(literals, record, ops)
    decreases |ops|
  {
    if ops != [] { RecordAllGrows(literals, Record(literals, record, ops[0]), ops[1..]); }
  }

  lemma {:induction false} AppendOpsGrows(c: Config, record: Bytes, ops: seq<Op>)
    ensures record <= AppendOps(c, record, ops)
    decreases |ops|
  {
    if ops != [] {
      Scrollback.AppendGrows(record, BlockOf(c.literals, ops[0]), c.limit, c.marker);
      Scrollback.AppendGrows(record, [NEWLINE] + BlockOf(c.literals, ops[0]), c.limit, c.marker);
      AppendOpsGrows(c, Append(c, record, ops[0]), ops[1..]);
    }
  }

  /** Below the limit the bounded appends are the plain ones. */
  lemma {:induction false} AppendOpsIsRecord(c: Config, record: Bytes, ops: seq<Op>)
    requires |RecordAll(c.literals, record, ops)| <= Scrollback.DataLimit(c.limit, c.marker)
    ensures AppendOps(c, record, ops) == RecordAll(c.literals, record, ops)
    decreases |ops|
  {
    if ops != [] {
      var next := Record(c.literals, record, ops[0]);
      RecordAllGrows(c.literals, next, ops[1..]);
      FitsIsRecord(c.literals, record, ops[0], c.limit, c.marker);
      AppendOpsIsRecord(c, next, ops[1..]);
    }
  }

  lemma {:induction false} NumberedAppend(a: seq<Op>, b: seq<Op>, from: nat)
    requires Numbered(a, from) && Numbered(b, from + Begun(a))
    ensures Numbered(a + b, from)
    decreases |a|
  {
    if a == [] {
      assert a + b == b;
    } else {
      assert (a + b)[1..] == a[1..] + b;
      NumberedAppend(a[1..], b, if a[0].BeginTurn? then from + 1 else from);
    }
  }

  lemma {:induction false} BegunAppend(a: seq<Op>, b: seq<Op>)
    ensures Begun(a + b) == Begun(a) + Begun(b)
    decreases |a|
  {
    if a == [] {
      assert a + b == b;
    } else {
      assert (a + b)[1..] == a[1..] + b;
      BegunAppend(a[1..], b);
    }
  }

  lemma WrittenOn(c: Config, record: Bytes, ops: seq<Op>, more: seq<Op>, turns: nat)
    requires Written(c, record, ops) && (Fits(c, ops) ==> turns == Begun(ops))
    requires (forall op :: op in more ==> Allowed(op)) && Numbered(more, turns)
    ensures Written(c, AppendOps(c, record, more), ops + more)
    ensures Fits(c, ops + more) ==> Fits(c, ops) && Begun(ops + more) == turns + Begun(more)
  {
    if Fits(c, ops + more) {
      RecordAllAppend(c.literals, [], ops, more);
      RecordAllGrows(c.literals, RecordAll(c.literals, [], ops), more);
      AppendOpsIsRecord(c, record, more);
      NumberedAppend(ops, more, 0);
      BegunAppend(ops, more);
    }
  }

  // ------------------------------------------------------------- every step keeps it

  lemma StepTurns(w: Agent.Workload, l: Agent.Label)
    requires !(l.Life? && l.l.RestoreEnds?)
    ensures Agent.Next(w, l).turns == w.turns + if Agent.Takes(w, l) then 1 else 0
  {
    if l.Checkpoint? { Agent.CheckpointKeepsWork(w, l.c); }
  }

  lemma WorkRecord(c: Config, s: Session, x: Step)
    requires x.Work? && Enabled(s, x) && RecordInv(c, s)
    ensures RecordInv(c, Worked(c, s, x))
  {
    hide Fits;
    hide Written;
    hide Copies;
    hide Persists;
    StepTurns(s.pod.agent, x.l);
    WrittenOn(c, s.pod.record, s.pod.ops, x.written, s.pod.agent.turns);
    AppendOpsGrows(c, s.pod.record, x.written);
  }

  lemma WorkQueue(c: Config, s: Session, x: Step)
    requires x.Work? && QueueInv(s)
    ensures QueueInv(Worked(c, s, x))
  {
    hide Copies;
    hide Persists;
    var w, v := s.pod.agent, Agent.Next(s.pod.agent, x.l);
    Agent.StepQueue(w, x.l);
    if Agent.Accepts(w, x.l) {
      assert Prompts(v.jobs.queue) == Prompts(w.jobs.queue) + [x.l.q.prompt];
    } else if Agent.Takes(w, x.l) {
      assert Prompts(w.jobs.queue) == [w.jobs.queue[0].prompt] + Prompts(v.jobs.queue);
    }
  }

  lemma StepReady(w: Agent.Workload, l: Agent.Label)
    requires !(l.Life? && l.l.RestoreEnds?)
    ensures Agent.Next(w, l).gate.ready == w.gate.ready
  {
    if l.Checkpoint? { Agent.CheckpointKeepsWork(w, l.c); }
  }

  /** An agent that is closed became so by copying, or was closed with nothing to run. */
  lemma StepCloses(w: Agent.Workload, l: Agent.Label)
    requires Agent.Inv(w) && Closed(Agent.Next(w, l))
    ensures Copies(w, l) || (Closed(w) && !Agent.Succeeds(w, l))
  {
    hide Agent.PromptBytes;
  }

  lemma WorkFlag(c: Config, s: Session, x: Step)
    requires x.Work? && Enabled(s, x) && Agent.Inv(s.pod.agent) && FlagInv(s)
    ensures FlagInv(Worked(c, s, x))
  {
    hide Agent.Inv;
    hide Closed;
    hide Copies;
    var w, v := s.pod.agent, Agent.Next(s.pod.agent, x.l);
    StepReady(w, x.l);
    Agent.StepHasRun(w, x.l);
    CopyIsReady(w, x.l);
    if !w.gate.ready { AwaitingIsIdle(w, x.l); }
    if Closed(v) { StepCloses(w, x.l); }
  }

  lemma AwaitingIsIdle(w: Agent.Workload, l: Agent.Label)
    requires Agent.Inv(w) && !w.gate.ready
    ensures !Agent.Succeeds(w, l)
  {
  }

  lemma CopyIsReady(w: Agent.Workload, l: Agent.Label)
    requires Agent.Inv(w)
    ensures Copies(w, l) ==> w.gate.ready
  {
    if Copies(w, l) { Agent.ArchivesWhenIdle(w, l); }
  }

  lemma FreshInv(c: Config, s: Session)
    requires s.pod == FRESH && s.accepted == s.taken && s.archive.Some? && s.archive.value.hasRun == s.succeeded
    requires Written(c, s.archive.value.record, s.archive.value.ops)
    ensures Inv(c, s)
  {
    Agent.NewInv(true, false);
    assert Prompts([]) == [];
    assert s.taken + [] == s.taken;
  }

  lemma RestoreKeeps(c: Config, s: Session, good: bool)
    requires Inv(c, s) && s.archive.Some?
    ensures Inv(c, Restored(s, good))
  {
    var a, w := s.archive.value, s.pod.agent;
    var result := if good then Some(Agent.Restored(a.hasRun, CountInputs(a.record))) else None;
    Agent.NextInv(w, Agent.Life(Agent.RestoreEnds(result)));
    if Fits(c, a.ops) { TurnsAreCounted(c.literals, a.ops); }
  }

  /** A closed agent, or one that waits for its archive, has an empty queue. */
  lemma EmptyQueue(s: Session)
    requires Agent.Inv(s.pod.agent) && QueueInv(s)
    requires Agent.Fence(s.pod.agent).Streamed? || !s.pod.agent.gate.ready
    ensures s.accepted == s.taken
  {
    assert s.pod.agent.jobs.queue == [];
    assert s.taken + [] == s.taken;
  }

  lemma StepKeeps(c: Config, s: Session, x: Step)
    requires Inv(c, s) && Enabled(s, x)
    ensures Inv(c, Apply(c, s, x))
  {
    hide RecordInv;
    hide QueueInv;
    hide FlagInv;
    hide Agent.Inv;
    match x {
      case Work(l, _, _) =>
        Agent.NextInv(s.pod.agent, l);
        WorkRecord(c, s, x);
        WorkQueue(c, s, x);
        WorkFlag(c, s, x);
      case RestoreDone(good) => RestoreKeeps(c, s, good);
      case Thaw => EmptyQueue(s); ThawReady(c, s); FreshInv(c, Apply(c, s, x));
      case Retry => EmptyQueue(s); RetryReady(c, s); FreshInv(c, Apply(c, s, x));
    }
  }

  lemma ThawReady(c: Config, s: Session)
    requires Inv(c, s) && Enabled(s, Thaw)
    ensures s.pod.copy.value.hasRun == s.succeeded && Written(c, s.pod.copy.value.record, s.pod.copy.value.ops)
  {
    assert Closed(s.pod.agent);
  }

  lemma RetryReady(c: Config, s: Session)
    requires Inv(c, s) && Enabled(s, Retry)
    ensures s.archive.Some? && s.archive.value.hasRun == s.succeeded
    ensures Written(c, s.archive.value.record, s.archive.value.ops)
  {
  }

  lemma {:induction false} RunKeeps(c: Config, s: Session, steps: seq<Step>)
    requires Inv(c, s) && Run(c, s, steps)
    ensures Inv(c, After(c, s, steps))
    decreases |steps|
  {
    if steps != [] {
      StepKeeps(c, s, steps[0]);
      RunKeeps(c, Apply(c, s, steps[0]), steps[1..]);
    }
  }

  // -------------------------------------------------------- one session, many pods

  /** Whatever pods a session passes through, it is one conversation: its prompts are
      dequeued once, in the order they were accepted; a pod that serves resumes exactly
      if some turn of some pod has succeeded; and until the record is full, the record is
      what was written to it and the next turn's number follows all those recorded. */
  lemma OneSession(c: Config, steps: seq<Step>)
    requires Run(c, CREATED, steps)
    ensures var s := After(c, CREATED, steps);
      && s.accepted == s.taken + Prompts(s.pod.agent.jobs.queue)
      && (s.pod.agent.gate.ready ==> s.pod.agent.hasRun == s.succeeded)
      && (Fits(c, s.pod.ops) ==>
            && s.pod.record == RecordAll(c.literals, [], s.pod.ops)
            && Numbered(s.pod.ops, 0) && s.pod.agent.turns == Begun(s.pod.ops) == CountInputs(s.pod.record))
  {
    CreatedInv(c);
    RunKeeps(c, CREATED, steps);
    var s := After(c, CREATED, steps);
    if Fits(c, s.pod.ops) { TurnsAreCounted(c.literals, s.pod.ops); }
  }

  /** The history only grows. */
  lemma {:induction false} HistoryGrows(c: Config, s: Session, steps: seq<Step>)
    requires Run(c, s, steps)
    ensures s.accepted <= After(c, s, steps).accepted && s.taken <= After(c, s, steps).taken
    ensures s.succeeded ==> After(c, s, steps).succeeded
    decreases |steps|
  {
    if steps != [] { HistoryGrows(c, Apply(c, s, steps[0]), steps[1..]); }
  }

  /** The part of the record that a thaw keeps. */
  function Durable(s: Session): Bytes {
    if !s.pod.agent.gate.ready && s.archive.Some? then s.archive.value.record
    else if Closed(s.pod.agent) && s.pod.copy.Some? then s.pod.copy.value.record
    else s.pod.record
  }

  lemma WorkDurable(c: Config, s: Session, x: Step)
    requires Inv(c, s) && x.Work? && Enabled(s, x)
    ensures Durable(s) <= Durable(Worked(c, s, x))
  {
    hide Written;
    hide Fits;
    hide Closed;
    hide Copies;
    hide Agent.Inv;
    var w, v := s.pod.agent, Agent.Next(s.pod.agent, x.l);
    StepReady(w, x.l);
    CopyIsReady(w, x.l);
    AppendOpsGrows(c, s.pod.record, x.written);
    if Closed(v) { StepCloses(w, x.l); }
  }

  lemma StepDurable(c: Config, s: Session, x: Step)
    requires Inv(c, s) && Enabled(s, x)
    ensures Durable(s) <= Durable(Apply(c, s, x))
  {
    match x {
      case Work(_, _, _) => WorkDurable(c, s, x);
      case RestoreDone(_) =>
      case Thaw =>
      case Retry =>
    }
  }

  /** A cursor into the part of the record that was there when it was copied, or that has
      not been copied yet, reads the same bytes in every later pod that serves. */
  lemma {:induction false} CursorsReadOn(c: Config, s: Session, steps: seq<Step>, cursor: nat)
    requires Inv(c, s) && Run(c, s, steps) && cursor <= |Durable(s)|
    ensures var v := After(c, s, steps);
      v.pod.agent.gate.ready ==> cursor <= |v.pod.record| && v.pod.record[..cursor] == Durable(s)[..cursor]
    decreases |steps|
  {
    hide Durable;
    if steps == [] {
      if s.pod.agent.gate.ready { DurableIsRead(c, s); }
    } else {
      StepDurable(c, s, steps[0]);
      StepKeeps(c, s, steps[0]);
      CursorsReadOn(c, Apply(c, s, steps[0]), steps[1..], cursor);
    }
  }

  lemma DurableIsRead(c: Config, s: Session)
    requires Inv(c, s) && s.pod.agent.gate.ready
    ensures Durable(s) <= s.pod.record
  {
  }

  // ------------------------------------------------------- a freeze and its thaw

  function Silent(l: Agent.Label): Step { Work(l, [], true) }

  lemma SilentStep(c: Config, s: Session, l: Agent.Label)
    requires !(l.Life? && l.l.RestoreEnds?) && !Agent.Takes(s.pod.agent, l) && !Agent.Accepts(s.pod.agent, l)
    ensures Enabled(s, Silent(l))
    ensures var v := Apply(c, s, Silent(l));
      && v.pod.agent == Agent.Next(s.pod.agent, l) && v.pod.record == s.pod.record && v.pod.ops == s.pod.ops
      && v.archive == s.archive && v.accepted == s.accepted && v.taken == s.taken
      && v.pod.copy == (if Copies(s.pod.agent, l) then Some(Archive(v.pod.saved, s.pod.record, s.pod.ops)) else s.pod.copy)
      && (Copies(s.pod.agent, l) ==> v.pod.saved == v.pod.agent.hasRun)
  {
    assert s.pod.ops + [] == s.pod.ops && s.accepted + [] == s.accepted && s.taken + [] == s.taken;
  }

  /** The steps of a freeze that nothing interrupts. */
  function Freeze(gen: AgentFence.Generation, until: int): seq<Step> {
    [Silent(Agent.Checkpoint(Agent.Request(gen))), Silent(Agent.Checkpoint(Agent.Drained(false, until))),
     Silent(Agent.Checkpoint(Agent.StreamDone))]
  }

  const THAW: seq<Step> := [Thaw, Silent(Agent.Life(Agent.RestoreBegins)), RestoreDone(true)]

  lemma AgentFreezes(w: Agent.Workload, gen: AgentFence.Generation, until: int)
    requires Agent.Inv(w) && Agent.Fence(w) == AgentFence.Open && !w.gate.stopping && Agent.Idle(w)
    requires gen != AgentFence.NO_GENERATION
    ensures var l1, l2, l3 := Agent.Checkpoint(Agent.Request(gen)), Agent.Checkpoint(Agent.Drained(false, until)),
                              Agent.Checkpoint(Agent.StreamDone);
      var w1 := Agent.Next(w, l1);
      var w2 := Agent.Next(w1, l2);
      && !Copies(w, l1) && Copies(w1, l2) && !Copies(w2, l3)
      && w2.hasRun == w.hasRun && Agent.Fence(Agent.Next(w2, l3)) == AgentFence.Streamed(gen)
  {
    hide Agent.PromptBytes;
    assert w.gate.handler == Agent.NoHandler;
  }

  /** An idle session can be frozen: its archive has its record and its flag. */
  lemma Freezes(c: Config, s: Session, gen: AgentFence.Generation, until: int)
    requires Inv(c, s) && Agent.Fence(s.pod.agent) == AgentFence.Open && !s.pod.agent.gate.stopping
    requires Agent.Idle(s.pod.agent) && gen != AgentFence.NO_GENERATION
    ensures Run(c, s, Freeze(gen, until))
    ensures var v := After(c, s, Freeze(gen, until));
      && Agent.Fence(v.pod.agent) == AgentFence.Streamed(gen)
      && v.pod.copy == Some(Archive(s.pod.agent.hasRun, s.pod.record, s.pod.ops))
      && v.accepted == s.accepted && v.taken == s.taken
  {
    AgentFreezes(s.pod.agent, gen, until);
    hide Inv;
    hide Copies;
    var ls := [Agent.Checkpoint(Agent.Request(gen)), Agent.Checkpoint(Agent.Drained(false, until)),
               Agent.Checkpoint(Agent.StreamDone)];
    SilentStep(c, s, ls[0]);
    var s1 := Apply(c, s, Silent(ls[0]));
    SilentStep(c, s1, ls[1]);
    var s2 := Apply(c, s1, Silent(ls[1]));
    SilentStep(c, s2, ls[2]);
    var s3 := Apply(c, s2, Silent(ls[2]));
    ThreeSteps(c, s, s1, s2, s3, Freeze(gen, until));
  }

  lemma ThreeSteps(c: Config, s: Session, s1: Session, s2: Session, s3: Session, xs: seq<Step>)
    requires |xs| == 3 && Enabled(s, xs[0]) && s1 == Apply(c, s, xs[0]) && Enabled(s1, xs[1])
    requires s2 == Apply(c, s1, xs[1]) && Enabled(s2, xs[2]) && s3 == Apply(c, s2, xs[2])
    ensures Run(c, s, xs) && After(c, s, xs) == s3
  {
    assert xs[1..][1..] == xs[2..] && xs[2..][1..] == [] && xs[1..][0] == xs[1] && xs[2..][0] == xs[2];
    assert Run(c, s2, xs[2..]) && After(c, s2, xs[2..]) == s3;
    assert Run(c, s1, xs[1..]) && After(c, s1, xs[1..]) == s3;
  }

  /** And thawed: the new pod serves, with the same record, flag and turn count. */
  lemma Thaws(c: Config, s: Session)
    requires Inv(c, s) && Enabled(s, Thaw)
    ensures Run(c, s, THAW)
    ensures var v, a := After(c, s, THAW), s.pod.copy.value;
      && Agent.Fence(v.pod.agent) == AgentFence.Open && !v.pod.agent.gate.stopping
      && v.pod.record == a.record && v.pod.agent.hasRun == v.pod.saved == a.hasRun == s.succeeded
      && v.pod.agent.turns == CountInputs(a.record) && (Fits(c, a.ops) ==> v.pod.agent.turns == Begun(a.ops))
      && v.accepted == s.accepted && v.taken == s.taken
  {
    ThawReady(c, s);
    var s1 := Apply(c, s, Thaw);
    SilentStep(c, s1, Agent.Life(Agent.RestoreBegins));
    var s2 := Apply(c, s1, Silent(Agent.Life(Agent.RestoreBegins)));
    var s3 := Apply(c, s2, RestoreDone(true));
    ThreeSteps(c, s, s1, s2, s3, THAW);
    if Fits(c, s.pod.copy.value.ops) { TurnsAreCounted(c.literals, s.pod.copy.value.ops); }
  }

  // ------------------------------------------------------ how the archive carries it

  /** claudeRuntimeStateFile, directly below the state directory */
  const RUNTIME_FILE: Paths.Path := [".session-platform-claude.json"]

  /** persistClaudeRuntimeState: the file is replaced by a rename. */
  function Persist(t: StateTree.Tree, content: Bytes): StateTree.Tree { t[RUNTIME_FILE := StateTree.File(0x180, content)] }

  /** loadRequiredClaudeRuntimeState */
  function LoadRequired(t: StateTree.Tree, decode: Bytes -> Option<bool>): Option<bool> {
    if RUNTIME_FILE in t && t[RUNTIME_FILE].File? then decode(t[RUNTIME_FILE].data) else None
  }

  /** What a restore takes is what the checkpoint gathered: the flag that was persisted
      comes back out of the files of the archive, and the record with them. */
  lemma ArchiveCarries(t: StateTree.Tree, state: StateArchive.Walked, shared: Option<StateArchive.Walked>, a: Archive,
                       skip: set<Paths.Path>, live: Option<StateTree.Tree>, volume: Option<StateTree.Tree>,
                       validate: StateTree.Tree -> bool, f: StateRestore.Faults,
                       sort: seq<StateExtract.DirMode> -> seq<StateExtract.DirMode>,
                       walk: StateTree.Tree -> seq<Paths.Path>, encode: bool -> Bytes, decode: Bytes -> Option<bool>)
    requires state.tree == Persist(t, encode(a.hasRun)) && decode(encode(a.hasRun)) == Some(a.hasRun)
    requires forall p :: p in skip ==> |p| > 1
    requires StateArchive.GoodWalk(state) && (shared.Some? ==> StateArchive.GoodWalk(shared.value))
    requires StateArchive.PlainNames(state, shared, skip)
    requires StateArchive.WriteArchive(state, shared, a.record, skip).Ok?
    requires validate(StateArchive.All(state.tree, skip))
    requires StateRestore.Sorts(sort) && StateRestore.Walks(walk)
    requires !f.stat && !f.aside && !f.install && !f.cleanUp
    requires shared.Some? ==> StateRestore.Fits(volume, shared.value.tree)
    ensures var entries := StateArchive.WriteArchive(state, shared, a.record, skip).value;
      var r := StateRestore.Restore(entries, live, volume, validate, f, sort, walk);
      && r.result == StateExtract.Outcome.Ok(a.record) && r.live.Some?
      && LoadRequired(r.live.value, decode) == Some(a.hasRun)
  {
    StateRestore.ArchiveRestores(state, shared, a.record, skip, live, volume, validate, f, sort, walk);
    assert RUNTIME_FILE in state.tree && RUNTIME_FILE !in skip;
  }
}
