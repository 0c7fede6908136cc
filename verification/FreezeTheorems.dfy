/** What the freeze/restore transaction guarantees over whole runs. */
module FreezeTheorems {
  import opened Wrappers
  import opened AgentFence
  import opened FreezeRestore
  import opened FreezeInvariant

  /** The session lives: in the recorded pod nobody has asked to stop, or, once the
      commit decision is durable, in the archive the record refers to. Either way
      it holds every write ever acknowledged. */
  ghost predicate Survives(w: World) {
    w.record.Some? && !w.deleting ==>
      var r := w.record.value;
      if r.state == Snapshot then
        r.checkpoint.Some? && r.checkpoint.value in w.archives && w.archives[r.checkpoint.value] == w.accepted
      else if CommittingTxn(r) then
        r.txn.value.checkpoint.Some? && r.txn.value.checkpoint.value in w.archives &&
        w.archives[r.txn.value.checkpoint.value] == w.accepted
      else
        r.pod.Some? && r.pod.value in w.pods && r.pod.value !in w.stops &&
        w.pods[r.pod.value].alive && w.pods[r.pod.value].log == w.accepted
  }

  lemma InvSurvives(w: World)
    requires Inv(w)
    ensures Survives(w)
  {
  }

  /** No read-back of the run finds its target recorded under somebody else's prepare. */
  predicate Guarded(w: World, labels: seq<Label>)
    requires Run(w, labels)
    decreases |labels|
  {
    labels == [] || (!Strands(w, labels[0]) && Guarded(Apply(w, labels[0]), labels[1..]))
  }

  lemma {:induction false} RunKeepsInv(w: World, labels: seq<Label>)
    requires Inv(w) && Run(w, labels) && Guarded(w, labels)
    ensures Inv(After(w, labels))
    decreases |labels|
  {
    if labels != [] {
      StepKeeps(w, labels[0]);
      RunKeepsInv(Apply(w, labels[0]), labels[1..]);
    }
  }

  /** What holds in every reachable state, whatever a read-back does. */
  lemma {:induction false} RunKeepsCore(w: World, labels: seq<Label>)
    requires Core(w) && Run(w, labels)
    ensures Core(After(w, labels))
    decreases |labels|
  {
    if labels != [] {
      StepKeepsCore(w, labels[0]);
      RunKeepsCore(Apply(w, labels[0]), labels[1..]);
    }
  }

  /** Every multi-replica run, with crashes, takeovers at any step, lost replies and
      late messages, keeps the session and every acknowledged write. */
  lemma SessionSurvives(idle: bool, labels: seq<Label>)
    requires Run(Created(idle), labels) && Guarded(Created(idle), labels)
    ensures Survives(After(Created(idle), labels))
  {
    CreatedInv(idle);
    RunKeepsInv(Created(idle), labels);
    InvSurvives(After(Created(idle), labels));
  }

  /** The exact gap: a step out of a good state loses the session just when it is
      the unguarded read-back. */
  lemma LostExactlyWhenStranded(w: World, l: Label)
    requires Inv(w) && Enabled(w, l) && !w.deleting
    ensures Survives(Apply(w, l)) <==> !Strands(w, l)
  {
    if !Strands(w, l) {
      StepKeeps(w, l);
      InvSurvives(Apply(w, l));
    }
  }

  ghost predicate SurvivesThroughout(w: World, labels: seq<Label>)
    requires Run(w, labels)
    decreases |labels|
  {
    Survives(w) && (labels != [] ==> SurvivesThroughout(Apply(w, labels[0]), labels[1..]))
  }

  /** The same of whole runs: with no Terminate begun, the session survives at every
      point of a run if and only if no read-back of it strands its target. */
  lemma {:induction false} SurvivesExactlyWhenGuarded(w: World, labels: seq<Label>)
    requires Inv(w) && Run(w, labels) && !After(w, labels).deleting
    ensures SurvivesThroughout(w, labels) <==> Guarded(w, labels)
    decreases |labels|
  {
    InvSurvives(w);
    InvIsCore(w);
    HistoryGrows(w, labels);
    if labels != [] {
      LostExactlyWhenStranded(w, labels[0]);
      if !Strands(w, labels[0]) {
        StepKeeps(w, labels[0]);
        SurvivesExactlyWhenGuarded(Apply(w, labels[0]), labels[1..]);
      }
    }
  }

  /** The gap needs a takeover: with the fence still its own, a read-back is safe. */
  lemma FenceHeldNeverStrands(w: World, t: Token)
    requires Inv(w) && ReadsBack(w, t) && w.fence == t
    ensures !StrandsTarget(w, t)
  {
    assert OpOk(w, t, w.ops[t]);
  }

  // ------------------------------------------------- commit and abort exclude

  /** What is never taken back: acknowledged writes, archives, seals, aborts and
      dooms issued, and the decision to terminate. */
  ghost predicate Grows(w: World, v: World) {
    && w.accepted <= v.accepted && w.doomed <= v.doomed && w.aborts <= v.aborts && (w.deleting ==> v.deleting)
    && (forall r :: r in w.archives ==> r in v.archives && v.archives[r] == w.archives[r])
    && (forall g :: g in w.sealed ==> g in v.sealed && v.sealed[g] == w.sealed[g])
  }

  lemma RecoveryGrows(w: World, t: Token, r: RecoveryStep)
    requires RecoveryEnabled(w, t, r)
    ensures Grows(w, ApplyRecovery(w, t, r))
  {
  }

  lemma FreezingGrows(w: World, t: Token, f: SnapshotStep)
    requires Core(w) && FreezingEnabled(w, t, f)
    ensures Grows(w, ApplyFreezing(w, t, f))
  {
    if f == CheckpointOk {
      assert SupplyInv(Unheld(w));
    } else if f == CommitRecord {
      OpsAreOk(w, t);
    }
  }

  /** Nothing that Grows speaks of changes. */
  predicate SameHistory(w: World, v: World) {
    && v.accepted == w.accepted && v.doomed == w.doomed && v.aborts == w.aborts && v.deleting == w.deleting
    && v.archives == w.archives && v.sealed == w.sealed
  }

  lemma SameGrows(w: World, v: World)
    requires SameHistory(w, v)
    ensures Grows(w, v)
  {
  }

  lemma TargetSame(w: World, t: Token, h: RestoreStep)
    requires ThawingEnabled(w, t, h) && (h.Provision? || h.SendRestore? || h.RestoreAcked? || h.Abandon?)
    ensures SameHistory(w, ApplyThawing(w, t, h))
  {
  }

  lemma InstallSame(w: World, t: Token, h: RestoreStep)
    requires ThawingEnabled(w, t, h) && !(h.Provision? || h.SendRestore? || h.RestoreAcked? || h.Abandon?)
    ensures SameHistory(w, ApplyThawing(w, t, h))
  {
    hide Installed;
    hide ShowsTarget;
    hide CasOk;
    match h {
      case InstallRecord(replied) => assert SameHistory(w, DoInstall(w, t, replied));
      case InstallMissed(refused) => assert SameHistory(w, DoMissInstall(w, t, refused));
      case ReadBackAnswered => assert SameHistory(w, DoReadBack(w, t));
      case ReadBackFailed => assert SameHistory(w, DoMissReadBack(w, t));
    }
  }

  lemma ThawingGrows(w: World, t: Token, h: RestoreStep)
    requires ThawingEnabled(w, t, h)
    ensures Grows(w, ApplyThawing(w, t, h))
  {
    hide Grows;
    hide ApplyThawing;
    hide SameHistory;
    if h.Provision? || h.SendRestore? || h.RestoreAcked? || h.Abandon? {
      TargetSame(w, t, h);
    } else {
      InstallSame(w, t, h);
    }
    SameGrows(w, ApplyThawing(w, t, h));
  }

  lemma PodGrows(w: World, p: PodName, e: PodStep)
    requires PodEnabled(w, p, e)
    ensures Grows(w, ApplyPod(w, p, e))
  {
  }

  lemma TerminatingGrows(w: World, t: Token, d: TerminateStep)
    requires TerminatingEnabled(w, t, d)
    ensures Grows(w, ApplyTerminating(w, t, d))
  {
  }

  lemma OtherGrows(w: World, l: Label)
    requires Enabled(w, l) && (l.Lock? || l.ResumeIdle?)
    ensures Grows(w, Apply(w, l))
  {
    hide Grows;
    SameGrows(w, Apply(w, l));
  }

  lemma StepGrows(w: World, l: Label)
    requires Core(w) && Enabled(w, l)
    ensures Grows(w, Apply(w, l))
  {
    hide Core;
    hide Grows;
    match l {
      case Recovery(t, r) => RecoveryGrows(w, t, r);
      case Freezing(t, f) => FreezingGrows(w, t, f);
      case Thawing(t, h) => ThawingGrows(w, t, h);
      case Terminating(t, d) => TerminatingGrows(w, t, d);
      case OnPod(p, e) => PodGrows(w, p, e);
      case _ => OtherGrows(w, l);
    }
  }

  lemma {:induction false} HistoryGrows(w: World, labels: seq<Label>)
    requires Core(w) && Run(w, labels)
    ensures Grows(w, After(w, labels))
    decreases |labels|
  {
    hide Core;
    if labels != [] {
      StepGrows(w, labels[0]);
      StepKeepsCore(w, labels[0]);
      HistoryGrows(Apply(w, labels[0]), labels[1..]);
    }
  }

  lemma OpsAreOk(w: World, t: Token)
    requires Core(w) && t in w.ops
    ensures OpOk(Unheld(w), t, w.ops[t])
  {
  }

  /** Once a record is committing(g): no abort of g is ever issued, and the source
      pod stays closed under g with the archived writes, in every continuation. */
  lemma NoAbortAfterCommit(w: World, labels: seq<Label>, g: Generation)
    requires Core(w) && Run(w, labels)
    requires w.record.Some? && CommittingTxn(w.record.value) && w.record.value.txn.value.gen == g
    ensures var v := After(w, labels);
      && (forall q :: (q, g) !in v.aborts)
      && g in v.sealed && v.sealed[g] in v.pods && v.pods[v.sealed[g]].admission == Streamed(g)
  {
    RunKeepsCore(w, labels);
    HistoryGrows(w, labels);
    var v := After(w, labels);
    assert SealOk(Unheld(v), g, v.sealed[g]);
    forall q
      ensures (q, g) !in v.aborts
    {
      assert (q, g) in v.aborts ==> (q, g).1 in v.doomed;
    }
  }

  /** A prepare that a recoverer claimed is never committed, in any continuation. */
  lemma ClaimedNeverCommits(w: World, labels: seq<Label>, g: Generation)
    requires Core(w) && Run(w, labels)
    requires w.record.Some? && PreparingTxn(w.record.value)
    requires w.record.value.txn.value.gen == g && w.record.value.txn.value.owner != g
    ensures var v := After(w, labels);
      v.record.Some? && CommittingTxn(v.record.value) ==> v.record.value.txn.value.gen != g
  {
    RunKeepsCore(w, labels);
    HistoryGrows(w, labels);
    var v := After(w, labels);
    assert g in w.doomed;
    assert g in v.sealed ==> SealOk(Unheld(v), g, v.sealed[g]);
  }

  /** The same commit, possibly under another owner; or the frozen record that
      refers to its archive. */
  predicate StaysCommitted(r: Record, next: Option<Record>) {
    && next.Some?
    && (|| (r.txn.Some? && next.value == Frozen(r))
        || (r.txn.Some? && next.value.txn.Some? && next.value.pod == r.pod && next.value.checkpoint == r.checkpoint
            && next.value.txn.value == r.txn.value.(owner := next.value.txn.value.owner)))
  }

  lemma RecoveryExits(w: World, t: Token, r: RecoveryStep)
    requires RecoveryEnabled(w, t, r) && t in w.ops && OpOk(Unheld(w), t, w.ops[t])
    requires w.record.Some? && CommittingTxn(w.record.value)
    ensures StaysCommitted(w.record.value, ApplyRecovery(w, t, r).record)
  {
    if r == Claim || r == Clear || r == FreezeRecord {
      CasCurrent(w, t, w.ops[t].sess);
    }
  }

  lemma FreezingExits(w: World, t: Token, f: SnapshotStep)
    requires FreezingEnabled(w, t, f) && t in w.ops && OpOk(Unheld(w), t, w.ops[t])
    requires w.record.Some? && CommittingTxn(w.record.value)
    ensures StaysCommitted(w.record.value, ApplyFreezing(w, t, f).record)
  {
    if f == Prepare || f == CommitRecord {
      CasCurrent(w, t, w.ops[t].sess);
    }
  }

  lemma ThawingExits(w: World, t: Token, h: RestoreStep)
    requires ThawingEnabled(w, t, h) && t in w.ops && OpOk(Unheld(w), t, w.ops[t])
    requires w.record.Some? && CommittingTxn(w.record.value)
    ensures StaysCommitted(w.record.value, ApplyThawing(w, t, h).record)
  {
    if h.InstallRecord? {
      CasCurrent(w, t, w.ops[t].sess);
    }
  }

  lemma TerminatingExits(w: World, t: Token, d: TerminateStep)
    requires TerminatingEnabled(w, t, d) && t in w.ops && OpOk(Unheld(w), t, w.ops[t])
    requires w.record.Some? && CommittingTxn(w.record.value)
    ensures
      var next := ApplyTerminating(w, t, d).record;
      StaysCommitted(w.record.value, next) || next == None
  {
    if d == TermClaim {
      CasCurrent(w, t, w.ops[t].sess);
    }
  }

  lemma PodKeepsRecord(w: World, p: PodName, e: PodStep)
    requires PodEnabled(w, p, e)
    ensures ApplyPod(w, p, e).record == w.record
  {
  }

  lemma OtherExits(w: World, l: Label)
    requires Enabled(w, l) && (l.Lock? || l.ResumeIdle? || l.OnPod?)
    requires w.record.Some? && CommittingTxn(w.record.value)
    ensures StaysCommitted(w.record.value, Apply(w, l).record)
  {
    hide ApplyPod;
    hide PodEnabled;
    if l.OnPod? { PodKeepsRecord(w, l.p, l.e); }
  }

  /** The only ways out of committing(g). */
  lemma CommitExits(w: World, l: Label)
    requires Core(w) && Enabled(w, l)
    requires w.record.Some? && CommittingTxn(w.record.value)
    ensures StaysCommitted(w.record.value, Apply(w, l).record) || (l.Terminating? && Apply(w, l).record == None)
  {
    hide StaysCommitted;
    hide OpOk;
    hide Core;
    match l {
      case Recovery(t, r) => OpsAreOk(w, t); RecoveryExits(w, t, r);
      case Freezing(t, f) => OpsAreOk(w, t); FreezingExits(w, t, f);
      case Thawing(t, h) => OpsAreOk(w, t); ThawingExits(w, t, h);
      case Terminating(t, d) => OpsAreOk(w, t); TerminatingExits(w, t, d);
      case _ => OtherExits(w, l);
    }
  }

  /** A deleted session stays deleted: no operation in flight can bring it back. */
  lemma {:induction false} DeletedStays(w: World, labels: seq<Label>)
    requires Run(w, labels) && w.record == None
    ensures After(w, labels).record == None
    decreases |labels|
  {
    if labels != [] {
      DeletedStays(Apply(w, labels[0]), labels[1..]);
    }
  }

  // ------------------------------------------------------ reachable examples

  ghost predicate Reaches(w: World, v: World) { exists labels :: Run(w, labels) && After(w, labels) == v }

  lemma {:induction false} RunSnoc(w: World, labels: seq<Label>, l: Label)
    requires Run(w, labels) && Enabled(After(w, labels), l)
    ensures Run(w, labels + [l]) && After(w, labels + [l]) == Apply(After(w, labels), l)
    decreases |labels|
  {
    if labels == [] {
      assert [l][1..] == [];
    } else {
      RunSnoc(Apply(w, labels[0]), labels[1..], l);
      assert (labels + [l])[1..] == labels[1..] + [l];
    }
  }

  lemma Step(w: World, v: World, l: Label) returns (next: World)
    requires Reaches(w, v) && Enabled(v, l)
    ensures next == Apply(v, l) && Reaches(w, next)
  {
    next := Apply(v, l);
    var labels :| Run(w, labels) && After(w, labels) == v;
    RunSnoc(w, labels, l);
  }

  lemma SelfReaches(w: World)
    ensures Reaches(w, w)
  {
    assert Run(w, []) && After(w, []) == w;
  }

  lemma RecoveryMove(w: World, v: World, t: Token, r: RecoveryStep) returns (next: World)
    requires Reaches(w, v) && RecoveryEnabled(v, t, r)
    ensures next == ApplyRecovery(v, t, r) && Reaches(w, next)
  {
    next := Step(w, v, Recovery(t, r));
  }

  lemma FreezingMove(w: World, v: World, t: Token, f: SnapshotStep) returns (next: World)
    requires Reaches(w, v) && FreezingEnabled(v, t, f)
    ensures next == ApplyFreezing(v, t, f) && Reaches(w, next)
  {
    next := Step(w, v, Freezing(t, f));
  }

  lemma ThawingMove(w: World, v: World, t: Token, h: RestoreStep) returns (next: World)
    requires Reaches(w, v) && ThawingEnabled(v, t, h)
    ensures next == ApplyThawing(v, t, h) && Reaches(w, next)
  {
    next := Step(w, v, Thawing(t, h));
  }

  lemma PodMove(w: World, v: World, p: PodName, e: PodStep) returns (next: World)
    requires Reaches(w, v) && PodEnabled(v, p, e)
    ensures next == ApplyPod(v, p, e) && Reaches(w, next)
  {
    next := Step(w, v, OnPod(p, e));
  }

  lemma LockMove(w: World, v: World, goal: Goal) returns (next: World)
    requires Reaches(w, v)
    ensures next == DoLock(v, goal) && Reaches(w, next)
  {
    next := Step(w, v, Lock(goal));
  }

  // ------------------------------------------------------ one recovery alone

  /** A step of operation t whose calls are answered, or a step of some pod. */
  predicate Undisturbed(t: Token, l: Label) {
    l.OnPod? || (l.Recovery? && l.t == t && l.r != Crash && l.r != ClaimRefused)
  }

  predicate Uninterrupted(t: Token, labels: seq<Label>) { forall l :: l in labels ==> Undisturbed(t, l) }

  /** How many steps the recovery itself took. */
  function Calls(labels: seq<Label>): nat
    decreases |labels|
  {
    if labels == [] then 0 else (if labels[0].Recovery? then 1 else 0) + Calls(labels[1..])
  }

  /** What a recovery makes of a record it finds in a transaction. */
  function Decision(r: Record): Record
    requires r.txn.Some?
  {
    if PreparingTxn(r) then Cleared(r) else Frozen(r)
  }

  /** Read, claim, abort, clear; or read, stop, freeze. */
  function CallsNeeded(r: Record): nat { if PreparingTxn(r) then 4 else 3 }

  /** Recovery t of the record r after its n-th call. */
  ghost predicate Stage(v: World, t: Token, r: Record, n: nat)
    requires r.txn.Some?
  {
    && v.fence == t && v.record.Some? && t in v.ops && v.ops[t].goal == ToRecover
    && v.record == Some(if n >= CallsNeeded(r) then Decision(r) else if PreparingTxn(r) && n >= 2 then Owned(r, t) else r)
    && (n > 0 ==> v.ops[t].sess == v.record.value)
    && v.ops[t].pc == if n >= CallsNeeded(r) then Ready else if n == 0 then Start else if n == 1 then Decide
                      else if CommittingTxn(r) then Finalize else if n == 2 then RecAbort else RecClear
  }

  /** A record in a transaction that somebody else owns, as every reachable one is. */
  predicate Recoverable(r: Record, t: Token) {
    && r.txn.Some? && r.state != Snapshot && r.txn.value.owner != t
    && (CommittingTxn(r) ==> r.txn.value.checkpoint.Some?)
  }

  lemma StageCall(v: World, t: Token, r: Record, n: nat, c: RecoveryStep)
    requires Recoverable(r, t) && Stage(v, t, r, n) && RecoveryEnabled(v, t, c) && c != Crash && c != ClaimRefused
    ensures Stage(ApplyRecovery(v, t, c), t, r, n + 1)
  {
  }

  lemma StagePod(v: World, t: Token, r: Record, n: nat, p: PodName, e: PodStep)
    requires r.txn.Some? && Stage(v, t, r, n) && PodEnabled(v, p, e)
    ensures Stage(ApplyPod(v, p, e), t, r, n)
  {
  }

  lemma StageStep(v: World, t: Token, r: Record, n: nat, l: Label)
    requires Recoverable(r, t) && Stage(v, t, r, n) && Enabled(v, l) && Undisturbed(t, l)
    ensures Stage(Apply(v, l), t, r, n + if l.Recovery? then 1 else 0)
  {
    hide Stage;
    match l {
      case Recovery(_, c) => StageCall(v, t, r, n, c);
      case OnPod(p, e) => StagePod(v, t, r, n, p, e);
    }
  }

  /** The next call of the recovery can be made. */
  lemma StageGoesOn(v: World, t: Token, r: Record, n: nat)
    requires Recoverable(r, t) && Stage(v, t, r, n)
    ensures exists l: Label :: l.Recovery? && Undisturbed(t, l) && Enabled(v, l)
  {
    var step := if n == 0 || n >= CallsNeeded(r) then Load
                else if PreparingTxn(r) then (if n == 1 then Claim else if n == 2 then IssueAbort else Clear)
                else if n == 1 then IssueStop else FreezeRecord;
    assert Enabled(v, Recovery(t, step)) && Undisturbed(t, Recovery(t, step));
  }

  lemma {:induction false} StageRun(v: World, t: Token, r: Record, n: nat, labels: seq<Label>)
    requires Recoverable(r, t) && Stage(v, t, r, n) && Run(v, labels) && Uninterrupted(t, labels)
    ensures Stage(After(v, labels), t, r, n + Calls(labels))
    decreases |labels|
  {
    hide Stage;
    if labels != [] {
      assert labels[0] in labels;
      StageStep(v, t, r, n, labels[0]);
      StageRun(Apply(v, labels[0]), t, r, n + if labels[0].Recovery? then 1 else 0, labels[1..]);
    }
  }

  lemma RecoveryStarts(w: World)
    requires Core(w) && w.record.Some? && w.record.value.txn.Some?
    ensures Recoverable(w.record.value, w.supply) && Stage(DoLock(w, ToRecover), w.supply, w.record.value, 0)
  {
    assert SessOk(Unheld(w), w.record.value);
  }

  lemma StageReads(v: World, t: Token, r: Record, n: nat)
    requires r.txn.Some? && Stage(v, t, r, n)
    ensures (At(v, t, Ready) <==> n >= CallsNeeded(r)) && (At(v, t, Ready) ==> v.record == Some(Decision(r)))
  {
  }

  /** Every uninterrupted recovery decides whatever transaction it finds: it never gets
      stuck, it is done after four calls or three, and then it has rolled the prepare
      back to the same pod, or completed the freeze into the committed archive. */
  lemma RecoveryDecides(w: World, labels: seq<Label>)
    requires Core(w) && w.record.Some? && w.record.value.txn.Some?
    requires Run(DoLock(w, ToRecover), labels) && Uninterrupted(w.supply, labels)
    ensures var v, t, r := After(DoLock(w, ToRecover), labels), w.supply, w.record.value;
      && (At(v, t, Ready) <==> Calls(labels) >= CallsNeeded(r))
      && (At(v, t, Ready) ==> v.record == Some(Decision(r)))
      && (exists l: Label :: l.Recovery? && Undisturbed(t, l) && Enabled(v, l))
  {
    var r, t := w.record.value, w.supply;
    RecoveryStarts(w);
    hide Core;
    hide Stage;
    hide Apply;
    hide Recoverable;
    StageRun(DoLock(w, ToRecover), t, r, 0, labels);
    StageReads(After(DoLock(w, ToRecover), labels), t, r, Calls(labels));
    StageGoesOn(After(DoLock(w, ToRecover), labels), t, r, Calls(labels));
  }

  // --------------------------------------------------------- the stranded run

  function Prepare1(): Record { Record(Active, Some(0), None, Some(Txn(1, 1, 0, Preparing, None))) }
  function Commit1(): Record { Record(Active, Some(0), None, Some(Txn(1, 1, 0, Committing, Some(2)))) }
  function Frozen1(): Record { Record(Snapshot, None, Some(2), None) }

  function Scene1(): World {
    Created(false).(record := Some(Prepare1()), fence := 1, supply := 2, requests := {(0, 1)},
                    ops := map[1 := Op(ToSnapshot, Checkpointing, Prepare1())])
  }

  function Archived1(): World {
    Scene1().(streams := map[(0, 1) := []], pods := map[0 := Pod(0, true, Streamed(1), [])])
  }

  function Scene2(): World {
    Archived1().(record := Some(Commit1()), supply := 3, archives := map[2 := []], sealed := map[1 := 0],
                 ops := map[1 := Op(ToSnapshot, Reclaim, Commit1())])
  }

  function Scene3(): World {
    Scene2().(record := Some(Frozen1()), stops := {0}, ops := map[1 := Op(ToSnapshot, Ready, Frozen1())])
  }

  function Unpacked4(): World {
    Scene3().(fence := 3, supply := 5, restores := {(4, 2)},
              pods := map[0 := Pod(0, true, Streamed(1), []), 4 := Pod(3, true, Open, [])],
              ops := map[1 := Op(ToSnapshot, Ready, Frozen1()), 3 := Op(ToRestore, RestoreWait(4), Frozen1())])
  }

  function Scene4(): World {
    Unpacked4().(record := Some(Record(Active, Some(4), None, None)), known := {0, 4},
                 ops := map[1 := Op(ToSnapshot, Ready, Frozen1()), 3 := Op(ToRestore, ReadBack(4, false), Frozen1())])
  }

  lemma Closes() returns (v: World)
    ensures Reaches(Created(false), v) && v == Scene1()
  {
    hide Reaches;
    var w := Created(false);
    SelfReaches(w);
    v := LockMove(w, w, ToSnapshot);
    v := RecoveryMove(w, v, 1, Load);
    v := FreezingMove(w, v, 1, Prepare);
    v := FreezingMove(w, v, 1, SendCheckpoint);
  }

  lemma Archives() returns (v: World)
    ensures Reaches(Created(false), v) && v == Archived1()
  {
    hide Reaches;
    var w := Created(false);
    v := Closes();
    v := PodMove(w, v, 0, ArchiveBegins(1));
    v := PodMove(w, v, 0, ArchiveStreamed);
  }

  lemma Commits() returns (v: World)
    ensures Reaches(Created(false), v) && v == Scene2()
  {
    hide Reaches;
    var w := Created(false);
    v := Archives();
    v := FreezingMove(w, v, 1, CheckpointOk);
    v := FreezingMove(w, v, 1, CommitRecord);
  }

  lemma Freezes() returns (v: World)
    ensures Reaches(Created(false), v) && v == Scene3()
  {
    hide Reaches;
    var w := Created(false);
    v := Commits();
    v := RecoveryMove(w, v, 1, IssueStop);
    v := RecoveryMove(w, v, 1, FreezeRecord);
  }

  lemma Reopens() returns (v: World)
    ensures Reaches(Created(false), v)
    ensures v == Scene3().(fence := 3, supply := 4,
                           ops := map[1 := Op(ToSnapshot, Ready, Frozen1()), 3 := Op(ToRestore, Ready, Frozen1())])
  {
    hide Reaches;
    var w := Created(false);
    v := Freezes();
    v := LockMove(w, v, ToRestore);
    v := RecoveryMove(w, v, 3, Load);
  }

  lemma Provisions() returns (v: World)
    ensures Reaches(Created(false), v)
    ensures v == Scene3().(fence := 3, supply := 5,
                           pods := map[0 := Pod(0, true, Streamed(1), []), 4 := Pod(3, true, Awaiting, [])],
                           ops := map[1 := Op(ToSnapshot, Ready, Frozen1()), 3 := Op(ToRestore, Restoring(4), Frozen1())])
  {
    hide Reaches;
    var w := Created(false);
    v := Reopens();
    v := ThawingMove(w, v, 3, Provision);
  }

  lemma Sends() returns (v: World)
    ensures Reaches(Created(false), v)
    ensures v == Unpacked4().(pods := map[0 := Pod(0, true, Streamed(1), []), 4 := Pod(3, true, Awaiting, [])])
  {
    hide Reaches;
    var w := Created(false);
    v := Provisions();
    v := ThawingMove(w, v, 3, SendRestore);
  }

  lemma Unpacks() returns (v: World)
    ensures Reaches(Created(false), v) && v == Unpacked4()
  {
    hide Reaches;
    var w := Created(false);
    v := Sends();
    v := PodMove(w, v, 4, Unpack(2));
  }

  /** Frozen into archive 2 and thawed by operation 3 into pod 4, with the reply to
      operation 3's CAS lost. */
  lemma ThawsWithoutReply() returns (v: World)
    ensures Reaches(Created(false), v) && v == Scene4()
  {
    hide Reaches;
    var w := Created(false);
    v := Unpacks();
    v := ThawingMove(w, v, 3, RestoreAcked);
    v := ThawingMove(w, v, 3, InstallRecord(false));
  }

  function Prepare5(): Record { Record(Active, Some(4), None, Some(Txn(5, 5, 4, Preparing, None))) }

  function Scene5(): World {
    Scene4().(record := Some(Prepare5()), fence := 5, supply := 6, accepted := ["x"],
              pods := map[0 := Pod(0, true, Streamed(1), []), 4 := Pod(3, true, Open, ["x"])],
              ops := map[1 := Op(ToSnapshot, Ready, Frozen1()), 3 := Op(ToRestore, ReadBack(4, false), Frozen1()),
                         5 := Op(ToSnapshot, Prepared, Prepare5())])
  }

  lemma Written5() returns (v: World)
    ensures Reaches(Created(false), v)
    ensures v == Scene4().(accepted := ["x"], pods := map[0 := Pod(0, true, Streamed(1), []), 4 := Pod(3, true, Open, ["x"])])
  {
    hide Reaches;
    var w := Created(false);
    v := ThawsWithoutReply();
    v := PodMove(w, v, 4, ClientWrite("x"));
    assert [] + ["x"] == ["x"];
    assert v.pods == map[0 := Pod(0, true, Streamed(1), []), 4 := Pod(3, true, Open, ["x"])];
  }

  /** A client writes to the thawed pod, then another replica prepares its next snapshot. */
  lemma NextPrepare() returns (v: World)
    ensures Reaches(Created(false), v) && v == Scene5()
  {
    hide Reaches;
    var w := Created(false);
    v := Written5();
    v := LockMove(w, v, ToSnapshot);
    v := RecoveryMove(w, v, 5, Load);
    v := FreezingMove(w, v, 5, Prepare);
  }

  /** The gap is real: operation 3's read-back answers after the next prepare, takes
      its own installed pod for a stray, and has it stopped. The acknowledged write
      is then in no live pod and in no archive. */
  lemma StrandedRun() returns (v: World)
    ensures Reaches(Created(false), v)
    ensures !v.deleting && v.accepted == ["x"] && v.record.Some? && v.record.value.pod == Some(4)
    ensures forall p :: p in v.pods && v.pods[p].log == v.accepted ==> !v.pods[p].alive
    ensures forall ref :: ref in v.archives ==> v.archives[ref] != v.accepted
  {
    hide Reaches;
    var w := Created(false);
    v := NextPrepare();
    v := ThawingMove(w, v, 3, ReadBackAnswered);
    v := PodMove(w, v, 4, Dies);
  }
}
