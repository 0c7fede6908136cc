/** The freeze/restore transaction of one session, as several control-plane
    replicas run it: control-plane/internal/service/manager.go against the store
    contract of control-plane/internal/store/store.go and the agents' admission
    barrier.

    A world is the shared record, the lifecycle fence, the pods, the archive
    store, every message that may still arrive, and one entry per running
    operation: its program counter and its stale copy of the record. A label is
    one atomic step; a run is any sequence of enabled labels. An operation may
    vanish at any step (crash, lost Lease, cancelled context, or an error return),
    and a new one may take the fence at any step, so Lease exclusivity is never
    assumed. */
module FreezeRestore {
  import opened Wrappers
  import opened AgentFence

  // ---------------------------------------------------------------- data model

  type Token = nat      // one operation; also its Lease token and its generation
  type PodName = nat
  type Ref = nat        // an archive in the checkpoint store
  type Log = seq<string>

  datatype State = Active | Idle | Snapshot
  datatype Phase = Preparing | Committing

  datatype Txn = Txn(gen: Generation, owner: Token, sourcePod: PodName, phase: Phase, checkpoint: Option<Ref>)

  datatype Record = Record(state: State, pod: Option<PodName>, checkpoint: Option<Ref>, txn: Option<Txn>)

  /** log is every write the agent acknowledged, oldest first. */
  datatype Pod = Pod(creator: Token, alive: bool, admission: Admission, log: Log)

  datatype Goal = ToSnapshot | ToRecover | ToRestore | ToTerminate

  datatype Pc =
    | Start                            // took the fence, has not read the record
    | Decide                           // read a record that carries a transaction, or is about to terminate
    | Ready                            // any transaction found was recovered
    | RecAbort | RecClear              // recovery of a preparing transaction, claimed
    | Reclaim | Finalize               // after the commit decision: stop pods, then freeze
    | Prepared | Checkpointing | Commit(ref: Ref)
    | Rollback | RollbackClear
    | Restoring(target: PodName) | RestoreWait(target: PodName) | Install(target: PodName)
    | ReadBack(target: PodName, refused: bool)
    | TermStop | TermDelete

  datatype Op = Op(goal: Goal, pc: Pc, sess: Record)

  datatype World = World(
    record: Option<Record>,
    fence: Token,                             // the lifecycle-owner annotation Lock writes
    ops: map<Token, Op>,
    pods: map<PodName, Pod>,
    archives: map<Ref, Log>,
    requests: set<(PodName, Generation)>,     // /checkpoint calls, deliverable any number of times
    streams: map<(PodName, Generation), Log>, // archives streamed in full
    aborts: set<(PodName, Generation)>,       // /checkpoint/abort calls, deliverable any number of times
    restores: set<(PodName, Ref)>,            // /restore calls
    stops: set<PodName>,                      // pod deletions asked for; each may land at any later time
    supply: nat,                              // tokens, pod names and archive refs never repeat
    // history
    accepted: Log,                            // every write ever acknowledged to a client
    known: set<PodName>,                      // pods the record has ever named
    deleting: bool,                           // a Terminate has begun to stop pods
    doomed: set<Generation>,                  // generations decided against
    sealed: map<Generation, PodName>          // generations whose commit reached the record
  )

  /** Steps every operation shares, and recoverSnapshotLocked's. */
  datatype RecoveryStep =
    | Crash | Load
    | Claim | ClaimRefused | IssueAbort | Clear    // a preparing transaction
    | IssueStop | FreezeRecord | AdoptFrozen       // a committing one

  /** snapshotWithTransactionLocked up to its commit decision. */
  datatype SnapshotStep = Prepare | SendCheckpoint | CheckpointOk | CheckpointFailed | CommitRecord | CommitRefused

  datatype RestoreStep =
    | Provision | SendRestore | RestoreAcked | Abandon
    | InstallRecord(replied: bool) | InstallMissed(refused: bool)
    | ReadBackAnswered | ReadBackFailed

  datatype TerminateStep = TermClaim | TermStops | TermDeleted

  datatype PodStep =
    | ClientWrite(data: string)
    | ArchiveBegins(g: Generation) | ArchiveFails | ArchiveStreamed | ArchiveAborted(g: Generation)
    | Unpack(ref: Ref)
    | Dies

  datatype Label =
    | Lock(goal: Goal)
    | Recovery(t: Token, r: RecoveryStep)
    | Freezing(t: Token, f: SnapshotStep)
    | Thawing(t: Token, h: RestoreStep)
    | Terminating(t: Token, d: TerminateStep)
    | ResumeIdle
    | OnPod(p: PodName, e: PodStep)

  // ------------------------------------------------------ record transitions

  /** CompareAndSwapSession's guard: the caller's token, the state and the whole
      transaction must be the record's. */
  predicate CasOk(w: World, t: Token, sess: Record) {
    w.record.Some? && w.fence == t && w.record.value.state == sess.state && w.record.value.txn == sess.txn
  }

  predicate PreparingTxn(r: Record) { r.txn.Some? && r.txn.value.phase == Preparing }

  predicate CommittingTxn(r: Record) { r.txn.Some? && r.txn.value.phase == Committing }

  function Owned(sess: Record, t: Token): Record
    requires sess.txn.Some?
  {
    sess.(txn := Some(sess.txn.value.(owner := t)))
  }

  function Cleared(sess: Record): Record { sess.(txn := None) }

  function Preparation(sess: Record, t: Token): Record
    requires sess.pod.Some?
  {
    sess.(txn := Some(Txn(t, t, sess.pod.value, Preparing, None)))
  }

  function Committed(sess: Record, ref: Ref): Record
    requires sess.txn.Some?
  {
    sess.(txn := Some(sess.txn.value.(phase := Committing, checkpoint := Some(ref))))
  }

  function Frozen(sess: Record): Record
    requires sess.txn.Some?
  {
    Record(Snapshot, None, sess.txn.value.checkpoint, None)
  }

  function Installed(sess: Record, p: PodName): Record {
    sess.(state := Active, pod := Some(p), checkpoint := None)
  }

  /** sessionReclaimRefs: the recorded pod and the transaction's source pod. */
  function ReclaimPods(sess: Record): set<PodName> {
    (if sess.pod.Some? then {sess.pod.value} else {}) +
    (if sess.txn.Some? then {sess.txn.value.sourcePod} else {})
  }

  /** Restore's check that an unacknowledged CAS did commit its target. */
  predicate ShowsTarget(r: Record, p: PodName) {
    r.state == Active && r.pod == Some(p) && r.checkpoint == None && r.txn == None
  }

  // ------------------------------------------------- steps of one operation

  predicate At(w: World, t: Token, pc: Pc) { t in w.ops && w.ops[t].pc == pc }

  function Move(w: World, t: Token, pc: Pc): World
    requires t in w.ops
  {
    w.(ops := w.ops[t := w.ops[t].(pc := pc)])
  }

  function MoveWith(w: World, t: Token, pc: Pc, sess: Record): World
    requires t in w.ops
  {
    w.(ops := w.ops[t := Op(w.ops[t].goal, pc, sess)])
  }

  function Return(w: World, t: Token): World { w.(ops := w.ops - {t}) }

  /** Lock: a fresh token always may take over. */
  function DoLock(w: World, goal: Goal): World {
    w.(fence := w.supply, supply := w.supply + 1,
       ops := w.ops[w.supply := Op(goal, Start, Record(Active, None, None, None))])
  }

  predicate CanLoad(w: World, t: Token) { (At(w, t, Start) || At(w, t, Ready)) && w.record.Some? }

  /** A record without a transaction needs no recovery; Terminate decides for itself. */
  function PcAfterLoad(pc: Pc, goal: Goal, txn: Option<Txn>): Pc {
    if pc == Ready || (goal != ToTerminate && txn == None) then Ready else Decide
  }

  /** Get: the first read, the re-read after a refused claim, or the idle reaper's re-read. */
  function DoLoad(w: World, t: Token): World
    requires CanLoad(w, t)
  {
    MoveWith(w, t, PcAfterLoad(w.ops[t].pc, w.ops[t].goal, w.record.value.txn), w.record.value)
  }

  /** recoverSnapshotLocked found a preparing transaction. */
  predicate RecoversPrepare(w: World, t: Token) {
    At(w, t, Decide) && w.ops[t].goal != ToTerminate && PreparingTxn(w.ops[t].sess) && w.ops[t].sess.state != Snapshot
  }

  predicate CanClaim(w: World, t: Token) {
    RecoversPrepare(w, t) && w.ops[t].sess.txn.value.owner != t && CasOk(w, t, w.ops[t].sess)
  }

  function DoClaim(w: World, t: Token): World
    requires CanClaim(w, t)
  {
    var next := Owned(w.ops[t].sess, t);
    MoveWith(w, t, RecAbort, next).(record := Some(next), doomed := w.doomed + {next.txn.value.gen})
  }

  predicate CanAbort(w: World, t: Token) {
    t in w.ops && w.ops[t].sess.txn.Some? &&
    (At(w, t, RecAbort) || At(w, t, Rollback) || (RecoversPrepare(w, t) && w.ops[t].sess.txn.value.owner == t))
  }

  function DoAbort(w: World, t: Token): World
    requires CanAbort(w, t)
  {
    var txn := w.ops[t].sess.txn.value;
    Move(w, t, if w.ops[t].pc == Rollback then RollbackClear else RecClear)
      .(aborts := w.aborts + {(txn.sourcePod, txn.gen)})
  }

  predicate CanClear(w: World, t: Token) {
    (At(w, t, RecClear) || At(w, t, RollbackClear)) && CasOk(w, t, w.ops[t].sess)
  }

  function DoClear(w: World, t: Token): World
    requires CanClear(w, t)
  {
    var next := Cleared(w.ops[t].sess);
    (if w.ops[t].pc == RollbackClear then Return(w, t) else MoveWith(w, t, Ready, next)).(record := Some(next))
  }

  predicate CanStop(w: World, t: Token) {
    At(w, t, Reclaim) ||
    (At(w, t, Decide) && w.ops[t].goal != ToTerminate && CommittingTxn(w.ops[t].sess) &&
     w.ops[t].sess.txn.value.checkpoint.Some?)
  }

  function DoStop(w: World, t: Token): World
    requires CanStop(w, t)
  {
    Move(w, t, Finalize).(stops := w.stops + ReclaimPods(w.ops[t].sess))
  }

  predicate CanFinalize(w: World, t: Token) {
    At(w, t, Finalize) && CommittingTxn(w.ops[t].sess) && CasOk(w, t, w.ops[t].sess)
  }

  function DoFinalize(w: World, t: Token): World
    requires CanFinalize(w, t)
  {
    var next := Frozen(w.ops[t].sess);
    MoveWith(w, t, Ready, next).(record := Some(next))
  }

  /** The refused finalize re-reads the record: somebody else froze it first. */
  predicate CanAdoptFrozen(w: World, t: Token) {
    At(w, t, Finalize) && w.record.Some? && w.record.value.state == Snapshot && w.record.value.txn == None
  }

  function DoAdoptFrozen(w: World, t: Token): World
    requires CanAdoptFrozen(w, t)
  {
    MoveWith(w, t, Ready, w.record.value)
  }

  predicate CanPrepare(w: World, t: Token) {
    At(w, t, Ready) && w.ops[t].goal == ToSnapshot && w.ops[t].sess.state != Snapshot &&
    w.ops[t].sess.pod.Some? && CasOk(w, t, w.ops[t].sess)
  }

  function DoPrepare(w: World, t: Token): World
    requires CanPrepare(w, t)
  {
    var next := Preparation(w.ops[t].sess, t);
    MoveWith(w, t, Prepared, next).(record := Some(next))
  }

  predicate CanSendCheckpoint(w: World, t: Token) { At(w, t, Prepared) && w.ops[t].sess.pod.Some? }

  function DoSendCheckpoint(w: World, t: Token): World
    requires CanSendCheckpoint(w, t)
  {
    Move(w, t, Checkpointing).(requests := w.requests + {(w.ops[t].sess.pod.value, t)})
  }

  /** CheckpointWithGeneration returned: the whole stream of this generation is in the store. */
  predicate CanCheckpoint(w: World, t: Token) {
    At(w, t, Checkpointing) && w.ops[t].sess.pod.Some? && (w.ops[t].sess.pod.value, t) in w.streams
  }

  function DoCheckpoint(w: World, t: Token): World
    requires CanCheckpoint(w, t)
  {
    Move(w, t, Commit(w.supply))
      .(supply := w.supply + 1, archives := w.archives[w.supply := w.streams[(w.ops[t].sess.pod.value, t)]])
  }

  predicate CanRollBack(w: World, t: Token) { t in w.ops && (w.ops[t].pc.Checkpointing? || w.ops[t].pc.Commit?) }

  /** The checkpoint failed, or the store refused the commit. */
  function DoRollBack(w: World, t: Token): World
    requires CanRollBack(w, t)
  {
    Move(w, t, Rollback).(doomed := w.doomed + {t})
  }

  predicate CanCommit(w: World, t: Token) {
    t in w.ops && w.ops[t].pc.Commit? && w.ops[t].sess.txn.Some? && CasOk(w, t, w.ops[t].sess)
  }

  function DoCommit(w: World, t: Token): World
    requires CanCommit(w, t)
  {
    var next := Committed(w.ops[t].sess, w.ops[t].pc.ref);
    MoveWith(w, t, Reclaim, next).(record := Some(next), sealed := w.sealed[t := next.txn.value.sourcePod])
  }

  predicate CanProvision(w: World, t: Token) {
    At(w, t, Ready) && w.ops[t].goal == ToRestore && w.ops[t].sess.state == Snapshot &&
    w.ops[t].sess.checkpoint.Some?
  }

  function DoProvision(w: World, t: Token): World
    requires CanProvision(w, t)
  {
    Move(w, t, Restoring(w.supply)).(supply := w.supply + 1, pods := w.pods[w.supply := Pod(t, true, Awaiting, [])])
  }

  predicate CanSendRestore(w: World, t: Token) {
    t in w.ops && w.ops[t].pc.Restoring? && w.ops[t].sess.checkpoint.Some?
  }

  function DoSendRestore(w: World, t: Token): World
    requires CanSendRestore(w, t)
  {
    Move(w, t, RestoreWait(w.ops[t].pc.target))
      .(restores := w.restores + {(w.ops[t].pc.target, w.ops[t].sess.checkpoint.value)})
  }

  predicate CanFinishRestore(w: World, t: Token) {
    t in w.ops && w.ops[t].pc.RestoreWait? && w.ops[t].pc.target in w.pods &&
    w.pods[w.ops[t].pc.target].admission != Awaiting
  }

  function DoFinishRestore(w: World, t: Token): World
    requires CanFinishRestore(w, t)
  {
    Move(w, t, Install(w.ops[t].pc.target))
  }

  predicate CanAbandon(w: World, t: Token) {
    t in w.ops && (w.ops[t].pc.Restoring? || w.ops[t].pc.RestoreWait? || w.ops[t].pc.Install?)
  }

  /** A failed or cancelled restore reclaims its own target. */
  function DoAbandon(w: World, t: Token): World
    requires CanAbandon(w, t)
  {
    Return(w, t).(stops := w.stops + {w.ops[t].pc.target})
  }

  predicate CanInstall(w: World, t: Token) { t in w.ops && w.ops[t].pc.Install? && CasOk(w, t, w.ops[t].sess) }

  /** The CAS to Active applied; its reply arrived, or was lost. */
  function DoInstall(w: World, t: Token, replied: bool): World
    requires CanInstall(w, t)
  {
    var p := w.ops[t].pc.target;
    (if replied then Return(w, t) else Move(w, t, ReadBack(p, false)))
      .(record := Some(Installed(w.ops[t].sess, p)), known := w.known + {p})
  }

  predicate Installing(w: World, t: Token) { t in w.ops && w.ops[t].pc.Install? }

  /** The CAS to Active did not apply: refused with ErrConflict, or any other error. */
  function DoMissInstall(w: World, t: Token, refused: bool): World
    requires Installing(w, t)
  {
    Move(w, t, ReadBack(w.ops[t].pc.target, refused))
  }

  predicate ReadsBack(w: World, t: Token) { t in w.ops && w.ops[t].pc.ReadBack? }

  /** The read after an unacknowledged CAS answered (a record, or not found). */
  function DoReadBack(w: World, t: Token): World
    requires ReadsBack(w, t)
  {
    if w.record.Some? && ShowsTarget(w.record.value, w.ops[t].pc.target) then Return(w, t)
    else Return(w, t).(stops := w.stops + {w.ops[t].pc.target})
  }

  function DoMissReadBack(w: World, t: Token): World
    requires ReadsBack(w, t)
  {
    if w.ops[t].pc.refused then Return(w, t).(stops := w.stops + {w.ops[t].pc.target}) else Return(w, t)
  }

  predicate CanTermClaim(w: World, t: Token) {
    At(w, t, Decide) && w.ops[t].goal == ToTerminate && w.ops[t].sess.txn.Some? && CasOk(w, t, w.ops[t].sess)
  }

  function DoTermClaim(w: World, t: Token): World
    requires CanTermClaim(w, t)
  {
    var next := Owned(w.ops[t].sess, t);
    MoveWith(w, t, TermStop, next)
      .(record := Some(next),
        doomed := if PreparingTxn(next) then w.doomed + {next.txn.value.gen} else w.doomed)
  }

  predicate CanTermStop(w: World, t: Token) {
    At(w, t, TermStop) || (At(w, t, Decide) && w.ops[t].goal == ToTerminate && w.ops[t].sess.txn == None)
  }

  function DoTermStop(w: World, t: Token): World
    requires CanTermStop(w, t)
  {
    Move(w, t, TermDelete).(stops := w.stops + ReclaimPods(w.ops[t].sess), deleting := true)
  }

  predicate CanTermDelete(w: World, t: Token) { At(w, t, TermDelete) && w.fence == t }

  function DoTermDelete(w: World, t: Token): World
    requires CanTermDelete(w, t)
  {
    Return(w, t).(record := None)
  }

  /** activate's CompareAndSwapState: unfenced, and only the state moves. */
  predicate CanResume(w: World) { w.record.Some? && w.record.value.state == Idle }

  function DoResume(w: World): World
    requires CanResume(w)
  {
    w.(record := Some(w.record.value.(state := Active)))
  }

  // ------------------------------------------------------------ steps of pods

  predicate Live(w: World, p: PodName) { p in w.pods && w.pods[p].alive }

  function WithPod(w: World, p: PodName, a: Admission, log: Log): World
    requires p in w.pods
  {
    w.(pods := w.pods[p := w.pods[p].(admission := a, log := log)])
  }

  /** A client may hold any pod name the record ever showed. */
  predicate CanWrite(w: World, p: PodName) { Live(w, p) && p in w.known && w.pods[p].admission == Open }

  function DoWrite(w: World, p: PodName, data: string): World
    requires CanWrite(w, p)
  {
    WithPod(w, p, Open, w.pods[p].log + [data]).(accepted := w.accepted + [data])
  }

  predicate CanBegin(w: World, p: PodName, g: Generation) { Live(w, p) && (p, g) in w.requests }

  function DoBegin(w: World, p: PodName, g: Generation): World
    requires CanBegin(w, p, g)
  {
    WithPod(w, p, BeginArchive(w.pods[p].admission, g), w.pods[p].log)
  }

  function DoFail(w: World, p: PodName): World
    requires Live(w, p)
  {
    WithPod(w, p, FailArchive(w.pods[p].admission), w.pods[p].log)
  }

  predicate CanStream(w: World, p: PodName) { Live(w, p) && w.pods[p].admission.Streaming? }

  function DoStream(w: World, p: PodName): World
    requires CanStream(w, p)
  {
    WithPod(w, p, CompleteArchive(w.pods[p].admission), w.pods[p].log)
      .(streams := w.streams[(p, w.pods[p].admission.gen) := w.pods[p].log])
  }

  predicate CanReopen(w: World, p: PodName, g: Generation) { Live(w, p) && (p, g) in w.aborts }

  function DoReopen(w: World, p: PodName, g: Generation): World
    requires CanReopen(w, p, g)
  {
    WithPod(w, p, AbortArchive(w.pods[p].admission, g), w.pods[p].log)
  }

  predicate CanUnpack(w: World, p: PodName, ref: Ref) {
    Live(w, p) && (p, ref) in w.restores && ref in w.archives && w.pods[p].admission == Awaiting
  }

  function DoUnpack(w: World, p: PodName, ref: Ref): World
    requires CanUnpack(w, p, ref)
  {
    WithPod(w, p, RestoreArchive(w.pods[p].admission), w.archives[ref])
  }

  predicate CanDie(w: World, p: PodName) { p in w.stops && p in w.pods }

  function DoDie(w: World, p: PodName): World
    requires CanDie(w, p)
  {
    w.(pods := w.pods[p := w.pods[p].(alive := false)])
  }

  // -------------------------------------------------------------------- runs

  predicate RecoveryEnabled(w: World, t: Token, r: RecoveryStep) {
    match r
    case Crash => t in w.ops
    case Load => CanLoad(w, t)
    case Claim => CanClaim(w, t)
    case ClaimRefused => RecoversPrepare(w, t)
    case IssueAbort => CanAbort(w, t)
    case Clear => CanClear(w, t)
    case IssueStop => CanStop(w, t)
    case FreezeRecord => CanFinalize(w, t)
    case AdoptFrozen => CanAdoptFrozen(w, t)
  }

  function ApplyRecovery(w: World, t: Token, r: RecoveryStep): World
    requires RecoveryEnabled(w, t, r)
  {
    match r
    case Crash => Return(w, t)
    case Load => DoLoad(w, t)
    case Claim => DoClaim(w, t)
    case ClaimRefused => Move(w, t, Start)
    case IssueAbort => DoAbort(w, t)
    case Clear => DoClear(w, t)
    case IssueStop => DoStop(w, t)
    case FreezeRecord => DoFinalize(w, t)
    case AdoptFrozen => DoAdoptFrozen(w, t)
  }

  predicate FreezingEnabled(w: World, t: Token, f: SnapshotStep) {
    match f
    case Prepare => CanPrepare(w, t)
    case SendCheckpoint => CanSendCheckpoint(w, t)
    case CheckpointOk => CanCheckpoint(w, t)
    case CheckpointFailed => At(w, t, Checkpointing)
    case CommitRecord => CanCommit(w, t)
    case CommitRefused => t in w.ops && w.ops[t].pc.Commit?
  }

  function ApplyFreezing(w: World, t: Token, f: SnapshotStep): World
    requires FreezingEnabled(w, t, f)
  {
    match f
    case Prepare => DoPrepare(w, t)
    case SendCheckpoint => DoSendCheckpoint(w, t)
    case CheckpointOk => DoCheckpoint(w, t)
    case CheckpointFailed => DoRollBack(w, t)
    case CommitRecord => DoCommit(w, t)
    case CommitRefused => DoRollBack(w, t)
  }

  predicate ThawingEnabled(w: World, t: Token, h: RestoreStep) {
    match h
    case Provision => CanProvision(w, t)
    case SendRestore => CanSendRestore(w, t)
    case RestoreAcked => CanFinishRestore(w, t)
    case Abandon => CanAbandon(w, t)
    case InstallRecord(_) => CanInstall(w, t)
    case InstallMissed(_) => Installing(w, t)
    case ReadBackAnswered => ReadsBack(w, t)
    case ReadBackFailed => ReadsBack(w, t)
  }

  function ApplyThawing(w: World, t: Token, h: RestoreStep): World
    requires ThawingEnabled(w, t, h)
  {
    match h
    case Provision => DoProvision(w, t)
    case SendRestore => DoSendRestore(w, t)
    case RestoreAcked => DoFinishRestore(w, t)
    case Abandon => DoAbandon(w, t)
    case InstallRecord(replied) => DoInstall(w, t, replied)
    case InstallMissed(refused) => DoMissInstall(w, t, refused)
    case ReadBackAnswered => DoReadBack(w, t)
    case ReadBackFailed => DoMissReadBack(w, t)
  }

  predicate TerminatingEnabled(w: World, t: Token, d: TerminateStep) {
    match d
    case TermClaim => CanTermClaim(w, t)
    case TermStops => CanTermStop(w, t)
    case TermDeleted => CanTermDelete(w, t)
  }

  function ApplyTerminating(w: World, t: Token, d: TerminateStep): World
    requires TerminatingEnabled(w, t, d)
  {
    match d
    case TermClaim => DoTermClaim(w, t)
    case TermStops => DoTermStop(w, t)
    case TermDeleted => DoTermDelete(w, t)
  }

  predicate PodEnabled(w: World, p: PodName, e: PodStep) {
    match e
    case ClientWrite(_) => CanWrite(w, p)
    case ArchiveBegins(g) => CanBegin(w, p, g)
    case ArchiveFails => Live(w, p)
    case ArchiveStreamed => CanStream(w, p)
    case ArchiveAborted(g) => CanReopen(w, p, g)
    case Unpack(ref) => CanUnpack(w, p, ref)
    case Dies => CanDie(w, p)
  }

  function ApplyPod(w: World, p: PodName, e: PodStep): World
    requires PodEnabled(w, p, e)
  {
    match e
    case ClientWrite(data) => DoWrite(w, p, data)
    case ArchiveBegins(g) => DoBegin(w, p, g)
    case ArchiveFails => DoFail(w, p)
    case ArchiveStreamed => DoStream(w, p)
    case ArchiveAborted(g) => DoReopen(w, p, g)
    case Unpack(ref) => DoUnpack(w, p, ref)
    case Dies => DoDie(w, p)
  }

  predicate Enabled(w: World, l: Label) {
    match l
    case Lock(_) => true
    case Recovery(t, r) => RecoveryEnabled(w, t, r)
    case Freezing(t, f) => FreezingEnabled(w, t, f)
    case Thawing(t, h) => ThawingEnabled(w, t, h)
    case Terminating(t, d) => TerminatingEnabled(w, t, d)
    case ResumeIdle => CanResume(w)
    case OnPod(p, e) => PodEnabled(w, p, e)
  }

  function Apply(w: World, l: Label): World
    requires Enabled(w, l)
  {
    match l
    case Lock(goal) => DoLock(w, goal)
    case Recovery(t, r) => ApplyRecovery(w, t, r)
    case Freezing(t, f) => ApplyFreezing(w, t, f)
    case Thawing(t, h) => ApplyThawing(w, t, h)
    case Terminating(t, d) => ApplyTerminating(w, t, d)
    case ResumeIdle => DoResume(w)
    case OnPod(p, e) => ApplyPod(w, p, e)
  }

  /** A created session: one recorded pod, serving, nothing accepted yet. A record
      stored by an older release may be idle. */
  function Created(idle: bool): World {
    World(Some(Record(if idle then Idle else Active, Some(0), None, None)), 0, map[], map[0 := Pod(0, true, Open, [])],
          map[], {}, map[], {}, {}, {}, 1, [], {0}, false, {}, map[])
  }

  predicate Run(w: World, labels: seq<Label>)
    decreases |labels|
  {
    labels == [] || (Enabled(w, labels[0]) && Run(Apply(w, labels[0]), labels[1..]))
  }

  function After(w: World, labels: seq<Label>): World
    requires Run(w, labels)
    decreases |labels|
  {
    if labels == [] then w else After(Apply(w, labels[0]), labels[1..])
  }
}
