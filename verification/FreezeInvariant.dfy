/** The inductive invariant of the freeze/restore transaction. */
module FreezeInvariant {
  import opened Wrappers
  import opened AgentFence
  import opened FreezeRestore

  // -------------------------------------------------------------- predicates

  /** What any copy of the record ever read still says truthfully. */
  ghost predicate SessOk(w: World, r: Record) {
    && (r.state == Snapshot <==> r.pod == None)
    && (r.state == Snapshot ==> r.txn == None && r.checkpoint.Some? && r.checkpoint.value in w.archives)
    && (r.state != Snapshot ==> r.pod.value in w.known && r.checkpoint == None)
    && (r.txn.Some? ==> r.txn.value.sourcePod == r.pod.value && r.txn.value.gen < w.supply && r.txn.value.owner < w.supply)
    && (PreparingTxn(r) ==> r.txn.value.checkpoint == None)
    && (CommittingTxn(r) ==> r.txn.value.checkpoint.Some? && r.txn.value.checkpoint.value in w.archives
                             && r.txn.value.gen in w.sealed && w.sealed[r.txn.value.gen] == r.pod.value)
  }

  /** A record names one pod at most to reclaim, so stopping its pods is one request. */
  lemma ReclaimsOnePod(w: World, r: Record)
    requires SessOk(w, r)
    ensures ReclaimPods(r) == if r.state == Snapshot then {} else {r.pod.value}
  {
  }

  /** Program counters outside an operation's own snapshot, or past its commit. */
  predicate Early(pc: Pc) {
    !pc.Prepared? && !pc.Checkpointing? && !pc.Commit? && !pc.Rollback? && !pc.RollbackClear?
  }

  predicate Undecided(pc: Pc) { pc.Prepared? || pc.Checkpointing? || pc.Commit? }

  predicate Fresh(w: World, t: Token) { t in w.ops ==> !w.ops[t].pc.Start? && !w.ops[t].pc.Decide? }

  /** The recorded pod holds every accepted write, and nobody has asked to stop it before a commit. */
  ghost predicate HolderOk(w: World, r: Record, p: PodName) {
    && p in w.pods && w.pods[p].log == w.accepted && w.pods[p].admission != Awaiting
    && (!CommittingTxn(r) && !w.deleting ==> p !in w.stops)
    && (r.state == Idle ==> w.pods[p].creator == 0)
  }

  ghost predicate PrepareOk(w: World, txn: Txn) {
    && txn.gen !in w.sealed
    && (txn.owner != txn.gen ==> txn.gen in w.doomed)
    && (txn.gen in w.ops ==> !Early(w.ops[txn.gen].pc))
    && (txn.owner == txn.gen && txn.gen in w.ops && Undecided(w.ops[txn.gen].pc) ==> txn.gen !in w.doomed)
  }

  ghost predicate RecordOk(w: World, r: Record) {
    && SessOk(w, r)
    && (r.state == Snapshot ==> w.archives[r.checkpoint.value] == w.accepted)
    && (r.state != Snapshot ==> HolderOk(w, r, r.pod.value))
    && (PreparingTxn(r) ==> PrepareOk(w, r.txn.value))
    && (CommittingTxn(r) ==> w.archives[r.txn.value.checkpoint.value] == w.accepted)
    && (r.txn.Some? ==> Fresh(w, r.txn.value.owner) && Fresh(w, r.txn.value.gen))
  }

  /** The copy is the record, but for an unfenced idle-to-active move. */
  predicate Agrees(sess: Record, r: Record) {
    && sess.pod == r.pod && sess.checkpoint == r.checkpoint && sess.txn == r.txn
    && (sess.state == r.state || (sess.state == Idle && r.state == Active))
  }

  /** While nobody else took the fence, the operation's copy is current. */
  ghost predicate Current(w: World, t: Token, sess: Record) {
    w.fence == t ==> w.record.Some? && Agrees(sess, w.record.value)
  }

  ghost predicate RecoveryOk(w: World, t: Token, sess: Record) {
    Current(w, t, sess) && PreparingTxn(sess) && sess.txn.value.owner == t && sess.txn.value.gen in w.doomed
  }

  ghost predicate OwnPrepare(w: World, t: Token, sess: Record) {
    && Current(w, t, sess) && sess.state != Snapshot && sess.pod.Some?
    && sess.txn == Some(Txn(t, t, sess.pod.value, Preparing, None))
  }

  /** The stored archive is what the still-closed source pod holds, unless the generation was decided against. */
  ghost predicate ArchiveOk(w: World, t: Token, p: PodName, ref: Ref) {
    && ref in w.archives
    && (t !in w.doomed ==> p in w.pods && w.pods[p].admission == Streamed(t) && w.archives[ref] == w.pods[p].log)
  }

  /** A restore target the record has never named, and that nobody stops but its creator. */
  ghost predicate RestoreOk(w: World, t: Token, sess: Record, p: PodName) {
    && Current(w, t, sess) && sess.state == Snapshot
    && p in w.pods && w.pods[p].creator == t && p !in w.known && p !in w.stops
  }

  ghost predicate Restored(w: World, p: PodName, ref: Ref) {
    p in w.pods && w.pods[p].admission == Open && ref in w.archives && w.pods[p].log == w.archives[ref]
  }

  ghost predicate AwaitsOnly(w: World, p: PodName, ref: Ref) {
    && p in w.pods
    && (forall r :: (p, r) in w.restores ==> r == ref)
    && (w.pods[p].admission == Awaiting || Restored(w, p, ref))
  }

  ghost predicate ReadBackOk(w: World, t: Token, sess: Record, p: PodName, refused: bool) {
    && sess.state == Snapshot
    && p in w.pods && w.pods[p].creator == t
    && (refused ==> p !in w.known)
    && (w.fence == t ==> w.record.Some? && (Agrees(sess, w.record.value) || w.record.value == Installed(sess, p)))
  }

  ghost predicate PcOk(w: World, t: Token, pc: Pc, sess: Record) {
    match pc
    case Start => true
    case Decide => Current(w, t, sess) && (sess.txn.Some? ==> sess.txn.value.owner != t && sess.txn.value.gen != t)
    case Ready => Current(w, t, sess) && (w.fence == t ==> sess.txn == None && (t in w.sealed ==> sess.state == Snapshot))
    case RecAbort => RecoveryOk(w, t, sess)
    case RecClear => RecoveryOk(w, t, sess)
    case Reclaim => Current(w, t, sess) && CommittingTxn(sess)
    case Finalize => Current(w, t, sess) && CommittingTxn(sess)
    case Prepared => OwnPrepare(w, t, sess)
    case Checkpointing => OwnPrepare(w, t, sess)
    case Commit(ref) => OwnPrepare(w, t, sess) && ArchiveOk(w, t, sess.pod.value, ref)
    case Rollback => OwnPrepare(w, t, sess) && t in w.doomed
    case RollbackClear => OwnPrepare(w, t, sess) && t in w.doomed
    case Restoring(p) => RestoreOk(w, t, sess, p) && w.pods[p].admission == Awaiting && (forall r :: (p, r) !in w.restores)
    case RestoreWait(p) => RestoreOk(w, t, sess, p) && sess.checkpoint.Some? && AwaitsOnly(w, p, sess.checkpoint.value)
    case Install(p) => RestoreOk(w, t, sess, p) && sess.checkpoint.Some? && Restored(w, p, sess.checkpoint.value)
    case ReadBack(p, refused) => ReadBackOk(w, t, sess, p, refused)
    case TermStop => true
    case TermDelete => true
  }

  ghost predicate OpOk(w: World, t: Token, op: Op) {
    && 0 < t < w.supply
    && (Early(op.pc) ==> t !in w.doomed)
    && (!Early(op.pc) ==> op.goal == ToSnapshot)
    && (t in w.sealed ==> op.goal == ToSnapshot && (op.pc.Reclaim? || op.pc.Finalize? || op.pc.Ready?))
    && (!op.pc.Start? ==> SessOk(w, op.sess))
    && PcOk(w, t, op.pc, op.sess)
  }

  /** A sealed generation holds its source pod closed for ever. */
  ghost predicate SealOk(w: World, g: Generation, p: PodName) {
    && g !in w.doomed && p in w.pods && p in w.known && w.pods[p].admission == Streamed(g)
    && (w.record.Some? && w.record.value.pod == Some(p) ==>
          CommittingTxn(w.record.value) && w.record.value.txn.value.gen == g)
  }

  /** A pod the record no longer names was left by a sealed generation. */
  ghost predicate KnownOk(w: World, q: PodName) {
    && q in w.pods
    && (w.record.Some? && w.record.value.pod != Some(q) ==>
          w.pods[q].admission.Streamed? && w.pods[q].admission.gen in w.sealed)
  }

  /** The archive of a generation nobody decided against is still what its pod holds. */
  ghost predicate StreamOk(w: World, q: PodName, g: Generation, log: Log) {
    q in w.pods && (g !in w.doomed ==> w.pods[q].admission == Streamed(g) && w.pods[q].log == log)
  }

  ghost predicate RecordInv(w: World) { w.record.Some? ==> RecordOk(w, w.record.value) }
  ghost predicate OpsInv(w: World) { forall t :: t in w.ops ==> OpOk(w, t, w.ops[t]) }
  ghost predicate SealInv(w: World) { forall g :: g in w.sealed ==> SealOk(w, g, w.sealed[g]) }
  ghost predicate KnownInv(w: World) { forall q :: q in w.known ==> KnownOk(w, q) }
  ghost predicate StreamInv(w: World) { forall k :: k in w.streams ==> StreamOk(w, k.0, k.1, w.streams[k]) }

  ghost predicate MessageInv(w: World) {
    && (forall k :: k in w.aborts ==> k.1 in w.doomed)
    && (forall k :: k in w.requests ==> k.0 in w.known)
    && (forall k :: k in w.restores ==> k.0 in w.pods)
    && (forall p :: p in w.stops ==> p in w.pods)
  }

  /** Everything numbered so far came from the supply; only pods somebody stopped die. */
  ghost predicate SupplyInv(w: World) {
    && w.fence < w.supply
    && (forall p :: p in w.pods ==> p < w.supply && (w.pods[p].alive || p in w.stops))
    && (forall r :: r in w.archives ==> r < w.supply)
    && (forall g :: g in w.doomed ==> g < w.supply)
    && (forall g :: g in w.sealed ==> g < w.supply)
  }

  ghost predicate Inv(w: World) {
    RecordInv(w) && OpsInv(w) && SealInv(w) && KnownInv(w) && StreamInv(w) && MessageInv(w) && SupplyInv(w)
  }

  lemma CreatedInv(idle: bool)
    ensures Inv(Created(idle))
  {
  }

  // ---------------------------------------- what a step leaves to the others

  /** A pod keeps what other operations rely on: a closed archive nobody decided
      against, and a restored target the record has not named. */
  ghost predicate PodFrame(w: World, v: World, p: PodName)
    requires p in w.pods
  {
    && p in v.pods && v.pods[p].creator == w.pods[p].creator
    && (w.pods[p].admission.Streamed? && w.pods[p].admission.gen !in v.doomed ==>
          v.pods[p].admission == w.pods[p].admission && v.pods[p].log == w.pods[p].log)
    && (p !in w.known && (w.pods[p].admission == Awaiting || w.pods[p].admission == Open) ==>
          || (v.pods[p].admission == w.pods[p].admission && v.pods[p].log == w.pods[p].log)
          || (w.pods[p].admission == Awaiting && v.pods[p].admission == Open &&
              exists r :: (p, r) in w.restores && r in w.archives && v.pods[p].log == w.archives[r]))
  }

  /** v differs from w only in ways that operation t (0: nobody) may bring about. */
  ghost predicate Frame(w: World, v: World, t: Token) {
    && w.supply <= v.supply
    && (forall r :: r in w.archives ==> r in v.archives && v.archives[r] == w.archives[r])
    && (forall p :: p in w.known ==> p in v.known)
    && (forall p :: p in v.known && p !in w.known ==> p in w.pods && w.pods[p].creator == t)
    && (forall g :: g in w.doomed ==> g in v.doomed)
    && (forall u :: u in w.ops && u != t && Early(w.ops[u].pc) && u in v.doomed ==> u in w.doomed)
    && (forall g :: g in w.sealed ==> g in v.sealed && v.sealed[g] == w.sealed[g])
    && (forall g :: g in v.sealed ==> g in w.sealed || g == t)
    && (v.fence == w.fence || v.fence == t)
    && (v.record == w.record || w.fence == t || (CanResume(w) && v.record == DoResume(w).record))
    && (forall p :: p in v.stops && p !in w.stops ==> p in w.pods && (p in w.known || w.pods[p].creator == t))
    && (forall k :: k in v.restores && k !in w.restores ==> k.0 in w.pods && w.pods[k.0].creator == t)
    && (forall p :: p in w.pods ==> PodFrame(w, v, p))
  }

  lemma SessKept(w: World, v: World, t: Token, r: Record)
    requires SessOk(w, r) && Frame(w, v, t)
    ensures SessOk(v, r)
  {
  }

  lemma CurrentKept(w: World, v: World, t: Token, u: Token, sess: Record)
    requires Frame(w, v, t) && u != t && Current(w, u, sess)
    ensures Current(v, u, sess)
  {
  }

  predicate HoldsPod(pc: Pc) { pc.Commit? || pc.Restoring? || pc.RestoreWait? || pc.Install? || pc.ReadBack? }

  lemma PcKept(w: World, v: World, t: Token, u: Token, op: Op)
    requires OpOk(w, u, op) && Frame(w, v, t) && u != t && !HoldsPod(op.pc)
    ensures PcOk(v, u, op.pc, op.sess)
  {
    if !op.pc.Start? && !op.pc.TermStop? && !op.pc.TermDelete? {
      CurrentKept(w, v, t, u, op.sess);
    }
  }

  lemma PodPcKept(w: World, v: World, t: Token, u: Token, op: Op)
    requires OpOk(w, u, op) && Frame(w, v, t) && u != t && HoldsPod(op.pc)
    ensures PcOk(v, u, op.pc, op.sess)
  {
    if !op.pc.ReadBack? {
      CurrentKept(w, v, t, u, op.sess);
    }
  }

  lemma OpsKept(w: World, v: World, t: Token)
    requires OpsInv(w) && Frame(w, v, t)
    requires forall u :: u in v.ops && u != t ==> u in w.ops && v.ops[u] == w.ops[u]
    requires t in v.ops ==> OpOk(v, t, v.ops[t])
    ensures OpsInv(v)
  {
    forall u | u in v.ops && u != t
      ensures OpOk(v, u, v.ops[u])
    {
      if !w.ops[u].pc.Start? {
        SessKept(w, v, t, w.ops[u].sess);
        if HoldsPod(w.ops[u].pc) { PodPcKept(w, v, t, u, w.ops[u]); } else { PcKept(w, v, t, u, w.ops[u]); }
      }
    }
  }

  // ------------------------------------------------ steps of one operation

  /** The one branch that can lose the session: a read-back that finds the
      operation's own target recorded, but already carrying a prepare. A session that
      a Terminate has begun to stop is not there to lose. */
  predicate StrandsTarget(w: World, t: Token) {
    && ReadsBack(w, t) && w.record.Some? && !w.deleting
    && w.record.value.pod == Some(w.ops[t].pc.target) && PreparingTxn(w.record.value)
  }

  ghost predicate OnlyMoves(w: World, v: World, t: Token) {
    forall u :: u != t ==> (u in v.ops <==> u in w.ops) && (u in v.ops ==> v.ops[u] == w.ops[u])
  }

  /** Asking for p's deletion does not touch a session that has no commit decision. */
  ghost predicate MayStop(w: World, p: PodName) {
    p in w.pods && (w.record.Some? && w.record.value.pod == Some(p) ==> CommittingTxn(w.record.value))
  }

  /** Operation t's new program counter fits the transaction it may own. */
  ghost predicate FitsTxn(w: World, v: World, t: Token) {
    w.record.Some? && w.record.value.txn.Some? && t in v.ops ==>
      var txn := w.record.value.txn.value;
      && (txn.owner == t || txn.gen == t ==> !v.ops[t].pc.Start? && !v.ops[t].pc.Decide?)
      && (txn.gen == t && txn.phase == Preparing ==>
            !Early(v.ops[t].pc) && (Undecided(v.ops[t].pc) ==> t in w.ops && Undecided(w.ops[t].pc)))
  }

  /** A step that sends messages and moves one program counter. */
  ghost predicate Quiet(w: World, v: World, t: Token) {
    && v.record == w.record && v.pods == w.pods && v.known == w.known && v.accepted == w.accepted
    && v.doomed == w.doomed && v.sealed == w.sealed && v.streams == w.streams
    && w.supply <= v.supply && (v.fence == w.fence || v.fence == t < v.supply)
    && (forall r :: r in w.archives ==> r in v.archives && v.archives[r] == w.archives[r])
    && (forall r :: r in v.archives ==> r in w.archives || r < v.supply)
    && (w.deleting ==> v.deleting)
    && (forall k :: k in v.aborts ==> k in w.aborts || k.1 in w.doomed)
    && (forall k :: k in v.requests ==> k in w.requests || k.0 in w.known)
    && (forall k :: k in v.restores ==> k in w.restores || (k.0 in w.pods && w.pods[k.0].creator == t))
    && (forall p :: p in w.stops ==> p in v.stops)
    && (forall p :: p in v.stops ==>
          || p in w.stops
          || (p in w.pods && (p in w.known || w.pods[p].creator == t) && (v.deleting || MayStop(w, p))))
    && OnlyMoves(w, v, t) && FitsTxn(w, v, t)
  }

  lemma QuietRecordKept(w: World, v: World, t: Token)
    requires RecordInv(w) && Quiet(w, v, t)
    ensures RecordInv(v)
  {
  }

  lemma QuietKept(w: World, v: World, t: Token)
    requires Inv(w) && Quiet(w, v, t) && OwnOk(v, t)
    ensures Inv(v)
  {
    QuietRecordKept(w, v, t);
    OpsKept(w, v, t);
  }

  ghost predicate OwnOk(w: World, t: Token) { t in w.ops ==> OpOk(w, t, w.ops[t]) }

  /** All a quiet step needs of the invariant. */
  ghost predicate Local(w: World, t: Token) { RecordInv(w) && OwnOk(w, t) }

  lemma LockQuiet(w: World, goal: Goal)
    requires Local(w, w.supply) && SupplyInv(w) && w.supply !in w.ops && 0 < w.supply
    ensures Quiet(w, DoLock(w, goal), w.supply) && OwnOk(DoLock(w, goal), w.supply)
  {
  }

  lemma CrashQuiet(w: World, t: Token)
    requires Local(w, t) && t in w.ops
    ensures Quiet(w, Return(w, t), t) && OwnOk(Return(w, t), t)
  {
  }

  lemma LoadQuiet(w: World, t: Token)
    requires RecordInv(w) && CanLoad(w, t)
    ensures Quiet(w, DoLoad(w, t), t)
  {
  }

  lemma LoadOwn(w: World, t: Token)
    requires Local(w, t) && CanLoad(w, t)
    ensures OwnOk(DoLoad(w, t), t)
  {
    var sess := w.record.value;
    assert SessOk(w, sess) && Current(w, t, sess);
  }

  lemma ClaimRefusedQuiet(w: World, t: Token)
    requires Local(w, t) && RecoversPrepare(w, t)
    ensures Quiet(w, Move(w, t, Start), t) && OwnOk(Move(w, t, Start), t)
  {
  }

  lemma AbortQuiet(w: World, t: Token)
    requires Local(w, t) && CanAbort(w, t)
    ensures Quiet(w, DoAbort(w, t), t) && OwnOk(DoAbort(w, t), t)
  {
  }

  lemma StopQuiet(w: World, t: Token)
    requires Local(w, t) && CanStop(w, t) && KnownInv(w) && SealInv(w)
    ensures Quiet(w, DoStop(w, t), t) && OwnOk(DoStop(w, t), t)
  {
  }

  lemma AdoptFrozenQuiet(w: World, t: Token)
    requires Local(w, t) && CanAdoptFrozen(w, t)
    ensures Quiet(w, DoAdoptFrozen(w, t), t) && OwnOk(DoAdoptFrozen(w, t), t)
  {
  }

  lemma SendCheckpointQuiet(w: World, t: Token)
    requires Local(w, t) && CanSendCheckpoint(w, t)
    ensures Quiet(w, DoSendCheckpoint(w, t), t) && OwnOk(DoSendCheckpoint(w, t), t)
  {
  }

  lemma CheckpointQuiet(w: World, t: Token)
    requires Local(w, t) && CanCheckpoint(w, t) && StreamInv(w) && SupplyInv(w)
    ensures Quiet(w, DoCheckpoint(w, t), t) && OwnOk(DoCheckpoint(w, t), t)
  {
  }

  lemma SendRestoreQuiet(w: World, t: Token)
    requires Local(w, t) && CanSendRestore(w, t)
    ensures Quiet(w, DoSendRestore(w, t), t) && OwnOk(DoSendRestore(w, t), t)
  {
  }

  lemma FinishRestoreQuiet(w: World, t: Token)
    requires Local(w, t) && CanFinishRestore(w, t)
    ensures Quiet(w, DoFinishRestore(w, t), t) && OwnOk(DoFinishRestore(w, t), t)
  {
  }

  lemma AbandonQuiet(w: World, t: Token)
    requires Local(w, t) && CanAbandon(w, t)
    ensures Quiet(w, DoAbandon(w, t), t) && OwnOk(DoAbandon(w, t), t)
  {
  }

  lemma MissInstallQuiet(w: World, t: Token, refused: bool)
    requires Local(w, t) && Installing(w, t)
    ensures Quiet(w, DoMissInstall(w, t, refused), t) && OwnOk(DoMissInstall(w, t, refused), t)
  {
  }

  /** A target that is neither shown as installed nor stranded may be stopped. */
  lemma TargetMayStop(w: World, t: Token, p: PodName)
    requires RecordInv(w) && 0 < t && p in w.pods && w.pods[p].creator == t
    requires w.record.Some? ==> !ShowsTarget(w.record.value, p)
    requires w.record.Some? && w.record.value.pod == Some(p) ==> !PreparingTxn(w.record.value)
    ensures MayStop(w, p)
  {
  }

  lemma ReadBackQuiet(w: World, t: Token)
    requires Local(w, t) && ReadsBack(w, t) && !StrandsTarget(w, t)
    ensures Quiet(w, DoReadBack(w, t), t) && OwnOk(DoReadBack(w, t), t)
  {
    var p := w.ops[t].pc.target;
    assert p in w.pods && w.pods[p].creator == t;
    if !(w.record.Some? && ShowsTarget(w.record.value, p)) && !w.deleting {
      TargetMayStop(w, t, p);
    }
  }

  lemma MissReadBackQuiet(w: World, t: Token)
    requires Local(w, t) && ReadsBack(w, t)
    ensures Quiet(w, DoMissReadBack(w, t), t) && OwnOk(DoMissReadBack(w, t), t)
  {
    var p := w.ops[t].pc.target;
    assert p in w.pods && w.pods[p].creator == t;
    if w.ops[t].pc.refused {
      assert MayStop(w, p);
    }
  }

  lemma TermStopQuiet(w: World, t: Token)
    requires Local(w, t) && CanTermStop(w, t) && KnownInv(w)
    ensures Quiet(w, DoTermStop(w, t), t) && OwnOk(DoTermStop(w, t), t)
  {
  }

  // ---------------------------------------------- fenced updates of the record

  /** A successful CAS proves the operation's copy was the record. */
  lemma CasCurrent(w: World, t: Token, sess: Record)
    requires CasOk(w, t, sess) && Current(w, t, sess)
    ensures w.record == Some(sess)
  {
  }

  /** A step under the fence: one operation moves, and it may rewrite the record. */
  ghost predicate Fenced(w: World, v: World, t: Token) {
    && v.pods == w.pods && v.streams == w.streams && v.stops == w.stops && v.aborts == w.aborts
    && v.requests == w.requests && v.restores == w.restores
    && v.supply == w.supply && v.fence == w.fence && v.archives == w.archives
    && (forall g :: g in w.doomed ==> g in v.doomed)
    && (forall g :: g in v.doomed ==> g in w.doomed || g < w.supply)
    && (forall u :: u in w.ops && u != t && Early(w.ops[u].pc) && u in v.doomed ==> u in w.doomed)
    && (forall p :: p in w.known ==> p in v.known)
    && (forall p :: p in v.known ==> p in w.known || (p in w.pods && w.pods[p].creator == t))
    && (forall g :: g in w.sealed ==> g in v.sealed && v.sealed[g] == w.sealed[g])
    && (forall g :: g in v.sealed ==> g in w.sealed || g == t < w.supply)
    && OnlyMoves(w, v, t)
    && (v.record == w.record || w.fence == t)
  }

  lemma FencedKept(w: World, v: World, t: Token)
    requires Inv(w) && Fenced(w, v, t) && OwnOk(v, t) && RecordInv(v) && SealInv(v) && KnownInv(v)
    ensures Inv(v)
  {
    OpsKept(w, v, t);
  }

  /** A fenced update that leaves the recorded pod alone. */
  ghost predicate Steady(w: World, v: World, t: Token) {
    && Fenced(w, v, t) && v.known == w.known && v.sealed == w.sealed
    && (forall g :: g in v.doomed && g !in w.doomed ==> g !in w.sealed)
    && (v.record == w.record ||
        (w.record.Some? && v.record.Some? && v.record.value.pod == w.record.value.pod &&
         (CommittingTxn(w.record.value) ==>
            CommittingTxn(v.record.value) && v.record.value.txn.value.gen == w.record.value.txn.value.gen)))
  }

  lemma SteadySealKept(w: World, v: World, t: Token)
    requires SealInv(w) && KnownInv(w) && Steady(w, v, t)
    ensures SealInv(v) && KnownInv(v)
  {
  }

  lemma SteadyKept(w: World, v: World, t: Token)
    requires Inv(w) && Steady(w, v, t) && OwnOk(v, t) && RecordInv(v)
    ensures Inv(v)
  {
    SteadySealKept(w, v, t);
    FencedKept(w, v, t);
  }

  lemma ClaimSteady(w: World, t: Token)
    requires Local(w, t) && CanClaim(w, t)
    ensures Steady(w, DoClaim(w, t), t) && OwnOk(DoClaim(w, t), t) && RecordInv(DoClaim(w, t))
  {
    CasCurrent(w, t, w.ops[t].sess);
  }

  lemma TermClaimSteady(w: World, t: Token)
    requires Local(w, t) && CanTermClaim(w, t)
    ensures Steady(w, DoTermClaim(w, t), t) && OwnOk(DoTermClaim(w, t), t) && RecordInv(DoTermClaim(w, t))
  {
    CasCurrent(w, t, w.ops[t].sess);
  }

  lemma ClearFrame(w: World, t: Token)
    requires Local(w, t) && CanClear(w, t)
    ensures Steady(w, DoClear(w, t), t)
  {
    CasCurrent(w, t, w.ops[t].sess);
  }

  lemma ClearOwn(w: World, t: Token)
    requires Local(w, t) && CanClear(w, t)
    ensures OwnOk(DoClear(w, t), t)
  {
    CasCurrent(w, t, w.ops[t].sess);
  }

  lemma ClearRecord(w: World, t: Token)
    requires Local(w, t) && CanClear(w, t)
    ensures RecordInv(DoClear(w, t))
  {
    CasCurrent(w, t, w.ops[t].sess);
  }

  lemma ClearSteady(w: World, t: Token)
    requires Local(w, t) && CanClear(w, t)
    ensures Steady(w, DoClear(w, t), t) && OwnOk(DoClear(w, t), t) && RecordInv(DoClear(w, t))
  {
    hide Local;
    hide OwnOk;
    ClearFrame(w, t);
    ClearOwn(w, t);
    ClearRecord(w, t);
  }

  lemma PrepareSteady(w: World, t: Token)
    requires Local(w, t) && CanPrepare(w, t)
    ensures Steady(w, DoPrepare(w, t), t) && OwnOk(DoPrepare(w, t), t) && RecordInv(DoPrepare(w, t))
  {
    CasCurrent(w, t, w.ops[t].sess);
  }

  lemma RollBackSteady(w: World, t: Token)
    requires Local(w, t) && CanRollBack(w, t)
    ensures Steady(w, DoRollBack(w, t), t) && OwnOk(DoRollBack(w, t), t) && RecordInv(DoRollBack(w, t))
  {
    hide Steady;
    RollBackFrame(w, t);
  }

  lemma RollBackFrame(w: World, t: Token)
    requires Local(w, t) && CanRollBack(w, t)
    ensures Steady(w, DoRollBack(w, t), t)
  {
  }

  /** The commit seals the generation: its archive holds every accepted write. */
  lemma CommitRecordKept(w: World, t: Token)
    requires Local(w, t) && CanCommit(w, t)
    ensures RecordInv(DoCommit(w, t)) && OwnOk(DoCommit(w, t), t)
  {
    CasCurrent(w, t, w.ops[t].sess);
    assert t !in w.doomed;
  }

  lemma CommitSealKept(w: World, t: Token)
    requires Local(w, t) && CanCommit(w, t) && SealInv(w)
    ensures SealInv(DoCommit(w, t))
  {
    CasCurrent(w, t, w.ops[t].sess);
    var v := DoCommit(w, t);
    var p := w.ops[t].sess.pod.value;
    assert t !in w.doomed && w.pods[p].admission == Streamed(t);
    forall g | g in v.sealed
      ensures SealOk(v, g, v.sealed[g])
    {
      if g != t {
        assert SealOk(w, g, w.sealed[g]) && w.sealed[g] != p;
      }
    }
  }

  lemma CommitFenced(w: World, t: Token)
    requires Local(w, t) && CanCommit(w, t)
    ensures Fenced(w, DoCommit(w, t), t)
  {
  }

  lemma CommitKnownKept(w: World, t: Token)
    requires Local(w, t) && CanCommit(w, t) && KnownInv(w)
    ensures KnownInv(DoCommit(w, t))
  {
    CasCurrent(w, t, w.ops[t].sess);
  }

  lemma CommitKeeps(w: World, t: Token)
    requires Inv(w) && CanCommit(w, t)
    ensures Inv(DoCommit(w, t))
  {
    CommitRecordKept(w, t);
    CommitSealKept(w, t);
    CommitKnownKept(w, t);
    CommitFenced(w, t);
    FencedKept(w, DoCommit(w, t), t);
  }

  lemma FinalizeFenced(w: World, t: Token)
    requires Local(w, t) && CanFinalize(w, t)
    ensures Fenced(w, DoFinalize(w, t), t) && OwnOk(DoFinalize(w, t), t) && RecordInv(DoFinalize(w, t))
  {
    CasCurrent(w, t, w.ops[t].sess);
  }

  /** The frozen record releases its pod, which the sealed generation keeps closed. */
  lemma FinalizeSealKept(w: World, t: Token)
    requires Local(w, t) && CanFinalize(w, t) && SealInv(w) && KnownInv(w)
    ensures SealInv(DoFinalize(w, t)) && KnownInv(DoFinalize(w, t))
  {
    CasCurrent(w, t, w.ops[t].sess);
    var txn := w.ops[t].sess.txn.value;
    assert SealOk(w, txn.gen, w.sealed[txn.gen]);
  }

  lemma InstallFenced(w: World, t: Token, replied: bool)
    requires Local(w, t) && CanInstall(w, t)
    ensures Fenced(w, DoInstall(w, t, replied), t) && OwnOk(DoInstall(w, t, replied), t)
  {
    hide Fenced;
    InstallFrame(w, t, replied);
    CasCurrent(w, t, w.ops[t].sess);
  }

  lemma InstallFrame(w: World, t: Token, replied: bool)
    requires Local(w, t) && CanInstall(w, t)
    ensures Fenced(w, DoInstall(w, t, replied), t)
  {
    CasCurrent(w, t, w.ops[t].sess);
  }

  lemma InstallRecordKept(w: World, t: Token, replied: bool)
    requires Local(w, t) && CanInstall(w, t) && SealInv(w) && KnownInv(w)
    ensures RecordInv(DoInstall(w, t, replied))
    ensures SealInv(DoInstall(w, t, replied)) && KnownInv(DoInstall(w, t, replied))
  {
    CasCurrent(w, t, w.ops[t].sess);
  }

  lemma ProvisionFrame(w: World, t: Token)
    requires Local(w, t) && CanProvision(w, t) && SupplyInv(w) && MessageInv(w) && KnownInv(w)
    ensures RecordInv(DoProvision(w, t)) && Frame(w, DoProvision(w, t), t)
  {
    assert w.supply !in w.pods && w.supply !in w.stops;
  }

  lemma ProvisionOwn(w: World, t: Token)
    requires Local(w, t) && CanProvision(w, t) && SupplyInv(w) && MessageInv(w) && KnownInv(w)
    ensures RecordInv(DoProvision(w, t)) && OwnOk(DoProvision(w, t), t) && Frame(w, DoProvision(w, t), t)
  {
    hide RecordInv;
    hide Frame;
    ProvisionFrame(w, t);
    assert w.supply !in w.pods && w.supply !in w.stops;
    assert forall r :: (w.supply, r) in w.restores ==> (w.supply, r).0 in w.pods;
  }

  lemma ProvisionRest(w: World, t: Token)
    requires t in w.ops && CanProvision(w, t)
    requires SupplyInv(w) && MessageInv(w) && KnownInv(w) && SealInv(w) && StreamInv(w)
    ensures var v := DoProvision(w, t); SupplyInv(v) && MessageInv(v) && KnownInv(v) && SealInv(v) && StreamInv(v)
  {
  }

  lemma ProvisionKeeps(w: World, t: Token)
    requires Inv(w) && CanProvision(w, t)
    ensures Inv(DoProvision(w, t))
  {
    ProvisionOwn(w, t);
    ProvisionRest(w, t);
    OpsKept(w, DoProvision(w, t), t);
  }

  lemma TermDeleteFenced(w: World, t: Token)
    requires Local(w, t) && CanTermDelete(w, t) && SealInv(w) && KnownInv(w)
    ensures var v := DoTermDelete(w, t); Fenced(w, v, t) && SealInv(v) && KnownInv(v)
  {
  }

  lemma ResumeRest(w: World)
    requires RecordInv(w) && SealInv(w) && KnownInv(w) && CanResume(w)
    ensures var v := DoResume(w); RecordInv(v) && SealInv(v) && KnownInv(v) && Frame(w, v, 0)
  {
  }

  lemma ResumeKeeps(w: World)
    requires Inv(w) && CanResume(w)
    ensures Inv(DoResume(w))
  {
    ResumeRest(w);
    OpsKept(w, DoResume(w), 0);
  }

  // -------------------------------------------------------------- pod steps

  /** Only pods (and the history they write) change, each within its frame. */
  ghost predicate OnPods(w: World, v: World) {
    && v.ops == w.ops && v.record == w.record && v.fence == w.fence && v.archives == w.archives
    && v.requests == w.requests && v.aborts == w.aborts && v.restores == w.restores && v.stops == w.stops
    && v.supply == w.supply && v.known == w.known && v.deleting == w.deleting
    && v.doomed == w.doomed && v.sealed == w.sealed
    && v.pods.Keys == w.pods.Keys
    && (forall p :: p in w.pods ==> PodFrame(w, v, p) && (w.pods[p].alive == v.pods[p].alive || p in w.stops))
  }

  lemma OnPodsKept(w: World, v: World)
    requires Inv(w) && OnPods(w, v) && RecordInv(v) && StreamInv(v)
    ensures Inv(v)
  {
    assert OpsInv(v) by {
      assert 0 in v.ops ==> OpOk(w, 0, w.ops[0]);
      OpsKept(w, v, 0);
    }
  }

  /** Only the recorded pod, before any commit decision, still accepts writes. */
  lemma WriterHolds(w: World, p: PodName)
    requires RecordInv(w) && SealInv(w) && KnownInv(w) && CanWrite(w, p)
    ensures w.record.Some? ==> w.record.value.pod == Some(p) && !CommittingTxn(w.record.value)
  {
    assert KnownOk(w, p);
    assert w.record.Some? && CommittingTxn(w.record.value) ==>
        SealOk(w, w.record.value.txn.value.gen, w.sealed[w.record.value.txn.value.gen]);
  }

  lemma WriteOnPods(w: World, p: PodName, data: string)
    requires StreamInv(w) && CanWrite(w, p)
    ensures OnPods(w, DoWrite(w, p, data)) && StreamInv(DoWrite(w, p, data))
  {
  }

  lemma WriteRecordKept(w: World, p: PodName, data: string)
    requires RecordInv(w) && CanWrite(w, p)
    requires w.record.Some? ==> w.record.value.pod == Some(p) && !CommittingTxn(w.record.value)
    ensures RecordInv(DoWrite(w, p, data))
  {
  }

  lemma BeginOnPods(w: World, p: PodName, g: Generation)
    requires RecordInv(w) && MessageInv(w) && StreamInv(w) && CanBegin(w, p, g)
    ensures OnPods(w, DoBegin(w, p, g)) && StreamInv(DoBegin(w, p, g)) && RecordInv(DoBegin(w, p, g))
  {
  }

  lemma FailOnPods(w: World, p: PodName)
    requires RecordInv(w) && OpsInv(w) && StreamInv(w) && Live(w, p)
    ensures OnPods(w, DoFail(w, p)) && StreamInv(DoFail(w, p)) && RecordInv(DoFail(w, p))
  {
  }

  lemma StreamOnPods(w: World, p: PodName)
    requires RecordInv(w) && StreamInv(w) && CanStream(w, p)
    ensures OnPods(w, DoStream(w, p)) && StreamInv(DoStream(w, p)) && RecordInv(DoStream(w, p))
  {
  }

  lemma ReopenOnPods(w: World, p: PodName, g: Generation)
    requires RecordInv(w) && MessageInv(w) && StreamInv(w) && CanReopen(w, p, g)
    ensures OnPods(w, DoReopen(w, p, g)) && StreamInv(DoReopen(w, p, g)) && RecordInv(DoReopen(w, p, g))
  {
    assert (p, g) in w.aborts && (p, g).1 in w.doomed;
  }

  lemma UnpackOnPods(w: World, p: PodName, ref: Ref)
    requires RecordInv(w) && StreamInv(w) && KnownInv(w) && CanUnpack(w, p, ref)
    ensures OnPods(w, DoUnpack(w, p, ref)) && StreamInv(DoUnpack(w, p, ref)) && RecordInv(DoUnpack(w, p, ref))
  {
  }

  lemma DieOnPods(w: World, p: PodName)
    requires RecordInv(w) && StreamInv(w) && CanDie(w, p)
    ensures OnPods(w, DoDie(w, p)) && StreamInv(DoDie(w, p)) && RecordInv(DoDie(w, p))
  {
  }

  // ------------------------------------------------------------- every label

  lemma PodStepKeeps(w: World, p: PodName, e: PodStep)
    requires Inv(w) && PodEnabled(w, p, e)
    ensures Inv(ApplyPod(w, p, e))
  {
    match e {
      case ClientWrite(data) => WriterHolds(w, p); WriteOnPods(w, p, data); WriteRecordKept(w, p, data);
      case ArchiveBegins(g) => BeginOnPods(w, p, g);
      case ArchiveFails => FailOnPods(w, p);
      case ArchiveStreamed => StreamOnPods(w, p);
      case ArchiveAborted(g) => ReopenOnPods(w, p, g);
      case Unpack(ref) => UnpackOnPods(w, p, ref);
      case Dies => DieOnPods(w, p);
    }
    OnPodsKept(w, ApplyPod(w, p, e));
  }

  lemma RecoveryRecordKeeps(w: World, t: Token, r: RecoveryStep)
    requires Inv(w) && RecoveryEnabled(w, t, r) && (r.Claim? || r.Clear? || r.FreezeRecord? || r.IssueStop?)
    ensures Inv(ApplyRecovery(w, t, r))
  {
    var v := ApplyRecovery(w, t, r);
    if r.Claim? {
      ClaimSteady(w, t);
      SteadyKept(w, v, t);
    } else if r.Clear? {
      ClearSteady(w, t);
      SteadyKept(w, v, t);
    } else if r.FreezeRecord? {
      FinalizeFenced(w, t);
      FinalizeSealKept(w, t);
      FencedKept(w, v, t);
    } else {
      StopQuiet(w, t);
      QuietKept(w, v, t);
    }
  }

  lemma RecoveryStepKeeps(w: World, t: Token, r: RecoveryStep)
    requires Inv(w) && RecoveryEnabled(w, t, r)
    ensures Inv(ApplyRecovery(w, t, r))
  {
    var v := ApplyRecovery(w, t, r);
    match r {
      case Crash => CrashQuiet(w, t); QuietKept(w, v, t);
      case Load => LoadQuiet(w, t); LoadOwn(w, t); QuietKept(w, v, t);
      case ClaimRefused => ClaimRefusedQuiet(w, t); QuietKept(w, v, t);
      case IssueAbort => AbortQuiet(w, t); QuietKept(w, v, t);
      case AdoptFrozen => AdoptFrozenQuiet(w, t); QuietKept(w, v, t);
      case _ => RecoveryRecordKeeps(w, t, r);
    }
  }

  lemma FreezingStepKeeps(w: World, t: Token, f: SnapshotStep)
    requires Inv(w) && FreezingEnabled(w, t, f)
    ensures Inv(ApplyFreezing(w, t, f))
  {
    var v := ApplyFreezing(w, t, f);
    match f {
      case Prepare => PrepareSteady(w, t); SteadyKept(w, v, t);
      case SendCheckpoint => SendCheckpointQuiet(w, t); QuietKept(w, v, t);
      case CheckpointOk => CheckpointQuiet(w, t); QuietKept(w, v, t);
      case CheckpointFailed => RollBackSteady(w, t); SteadyKept(w, v, t);
      case CommitRecord => CommitKeeps(w, t);
      case CommitRefused => RollBackSteady(w, t); SteadyKept(w, v, t);
    }
  }

  lemma ThawingStepKeeps(w: World, t: Token, h: RestoreStep)
    requires Inv(w) && ThawingEnabled(w, t, h)
    requires h == ReadBackAnswered ==> !StrandsTarget(w, t)
    ensures Inv(ApplyThawing(w, t, h))
  {
    var v := ApplyThawing(w, t, h);
    match h {
      case Provision => ProvisionKeeps(w, t);
      case SendRestore => SendRestoreQuiet(w, t); QuietKept(w, v, t);
      case RestoreAcked => FinishRestoreQuiet(w, t); QuietKept(w, v, t);
      case Abandon => AbandonQuiet(w, t); QuietKept(w, v, t);
      case InstallRecord(replied) => InstallFenced(w, t, replied); InstallRecordKept(w, t, replied); FencedKept(w, v, t);
      case InstallMissed(refused) => MissInstallQuiet(w, t, refused); QuietKept(w, v, t);
      case ReadBackAnswered => ReadBackQuiet(w, t); QuietKept(w, v, t);
      case ReadBackFailed => MissReadBackQuiet(w, t); QuietKept(w, v, t);
    }
  }

  lemma TerminatingStepKeeps(w: World, t: Token, d: TerminateStep)
    requires Inv(w) && TerminatingEnabled(w, t, d)
    ensures Inv(ApplyTerminating(w, t, d))
  {
    var v := ApplyTerminating(w, t, d);
    match d {
      case TermClaim => TermClaimSteady(w, t); SteadyKept(w, v, t);
      case TermStops => TermStopQuiet(w, t); QuietKept(w, v, t);
      case TermDeleted => TermDeleteFenced(w, t); FencedKept(w, v, t);
    }
  }

  predicate Strands(w: World, l: Label) { l.Thawing? && l.h == ReadBackAnswered && StrandsTarget(w, l.t) }

  lemma StepKeeps(w: World, l: Label)
    requires Inv(w) && Enabled(w, l) && !Strands(w, l)
    ensures Inv(Apply(w, l))
  {
    match l {
      case Lock(goal) => LockQuiet(w, goal); QuietKept(w, DoLock(w, goal), w.supply);
      case Recovery(t, r) => RecoveryStepKeeps(w, t, r);
      case Freezing(t, f) => FreezingStepKeeps(w, t, f);
      case Thawing(t, h) => ThawingStepKeeps(w, t, h);
      case Terminating(t, d) => TerminatingStepKeeps(w, t, d);
      case ResumeIdle => ResumeKeeps(w);
      case OnPod(p, e) => PodStepKeeps(w, p, e);
    }
  }

  // ------------------------------------------------- what every run keeps

  /** The same world with a Terminate begun: the invariant of such a world promises
      nothing about which pods are asked to stop, and everything else. */
  function Unheld(w: World): World { w.(deleting := true) }

  /** The part of the invariant that no step can break. */
  ghost predicate Core(w: World) { Inv(Unheld(w)) }

  lemma InvIsCore(w: World)
    requires Inv(w)
    ensures Core(w)
  {
    QuietKept(w, Unheld(w), 0);
  }

  lemma RecoveryUnheld(w: World, t: Token, r: RecoveryStep)
    requires RecoveryEnabled(w, t, r)
    ensures RecoveryEnabled(Unheld(w), t, r) && ApplyRecovery(Unheld(w), t, r) == Unheld(ApplyRecovery(w, t, r))
  {
  }

  lemma FreezingUnheld(w: World, t: Token, f: SnapshotStep)
    requires FreezingEnabled(w, t, f)
    ensures FreezingEnabled(Unheld(w), t, f) && ApplyFreezing(Unheld(w), t, f) == Unheld(ApplyFreezing(w, t, f))
  {
  }

  lemma ThawingUnheld(w: World, t: Token, h: RestoreStep)
    requires ThawingEnabled(w, t, h)
    ensures ThawingEnabled(Unheld(w), t, h) && ApplyThawing(Unheld(w), t, h) == Unheld(ApplyThawing(w, t, h))
  {
  }

  lemma TerminatingUnheld(w: World, t: Token, d: TerminateStep)
    requires TerminatingEnabled(w, t, d)
    ensures TerminatingEnabled(Unheld(w), t, d)
    ensures ApplyTerminating(Unheld(w), t, d) == Unheld(ApplyTerminating(w, t, d))
  {
  }

  lemma PodUnheld(w: World, p: PodName, e: PodStep)
    requires PodEnabled(w, p, e)
    ensures PodEnabled(Unheld(w), p, e) && ApplyPod(Unheld(w), p, e) == Unheld(ApplyPod(w, p, e))
  {
  }

  lemma StepUnheld(w: World, l: Label)
    requires Enabled(w, l)
    ensures Enabled(Unheld(w), l) && Apply(Unheld(w), l) == Unheld(Apply(w, l)) && !Strands(Unheld(w), l)
  {
    match l {
      case Lock(_) =>
      case Recovery(t, r) => RecoveryUnheld(w, t, r);
      case Freezing(t, f) => FreezingUnheld(w, t, f);
      case Thawing(t, h) => ThawingUnheld(w, t, h);
      case Terminating(t, d) => TerminatingUnheld(w, t, d);
      case ResumeIdle =>
      case OnPod(p, e) => PodUnheld(w, p, e);
    }
  }

  /** Every step, a stranding read-back included, keeps the core of the invariant. */
  lemma StepKeepsCore(w: World, l: Label)
    requires Core(w) && Enabled(w, l)
    ensures Core(Apply(w, l))
  {
    StepUnheld(w, l);
    StepKeeps(Unheld(w), l);
  }
}
