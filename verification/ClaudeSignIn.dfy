/** The two-write sign-in (AC-E7, data-plane/cmd/agent/claude_subscription.go) over whole
    runs of ClaudeWorkload: a prompt starts it and is held, the next write is its code. */
module ClaudeSignIn {
  import opened Wrappers
  import opened Bytes
  import opened ClaudeWorkload

  // ------------------------------------------------- each sign-in ends exactly once

  function IdOf(p: Option<Pending>): seq<nat> { if p.Some? then [p.value.id] else [] }

  predicate Starts(w: Workload, l: Label) {
    l.Queue? && l.q.TurnOpens? && l.q.answer == SignInShown && CanHold(w)
  }

  /** A step that takes the pending sign-in away: its code, its expiry, an archive or close. */
  predicate Ends(w: Workload, l: Label) { w.login.pending.Some? && Next(w, l).login.pending.None? }

  function Started(w: Workload, labels: seq<Label>): seq<nat>
    decreases |labels|
  {
    if labels == [] then []
    else (if Starts(w, labels[0]) then [w.login.signIns] else []) + Started(Next(w, labels[0]), labels[1..])
  }

  function Ended(w: Workload, labels: seq<Label>): seq<nat>
    decreases |labels|
  {
    if labels == [] then []
    else (if Ends(w, labels[0]) then IdOf(w.login.pending) else []) + Ended(Next(w, labels[0]), labels[1..])
  }

  ghost predicate SignInStepped(w: Workload, l: Label, v: Workload) {
    && (Starts(w, l) ==>
          w.login.pending.None? &&
          v.login.pending == Some(Pending(w.login.signIns, w.jobs.enqueued, w.turn.value.job)))
    && (!Starts(w, l) ==> v.login.pending == w.login.pending || v.login.pending.None?)
    && v.login.signIns == w.login.signIns + (if Starts(w, l) then 1 else 0)
  }

  lemma QueueSignIn(w: Workload, q: QueueStep)
    requires Inv(w)
    ensures SignInStepped(w, Queue(q), QueueNext(w, q))
  {
  }

  lemma CheckpointSignIn(w: Workload, c: CheckpointStep)
    ensures SignInStepped(w, Checkpoint(c), CheckpointNext(w, c))
  {
  }

  lemma StepSignIn(w: Workload, l: Label)
    requires Inv(w)
    ensures SignInStepped(w, l, Next(w, l))
  {
    match l {
      case Queue(q) => QueueSignIn(w, q);
      case Checkpoint(c) => CheckpointSignIn(w, c);
      case Life(_) =>
    }
  }

  /** Sign-ins end one by one in the order they start; at most the last is pending. */
  lemma {:induction false} EachEndsOnce(w: Workload, labels: seq<Label>)
    requires Inv(w)
    ensures IdOf(w.login.pending) + Started(w, labels) == Ended(w, labels) + IdOf(After(w, labels).login.pending)
    decreases |labels|
  {
    hide Inv;
    if labels == [] {
      assert IdOf(w.login.pending) + [] == [] + IdOf(w.login.pending);
    } else {
      StepSignIn(w, labels[0]);
      NextInv(w, labels[0]);
      var v := Next(w, labels[0]);
      EachEndsOnce(v, labels[1..]);
      SignInStep(w, v, labels[0], Started(v, labels[1..]), Ended(v, labels[1..]), IdOf(After(v, labels[1..]).login.pending));
    }
  }

  lemma SignInStep(w: Workload, v: Workload, l: Label, started: seq<nat>, ended: seq<nat>, last: seq<nat>)
    requires SignInStepped(w, l, v) && v == Next(w, l) && IdOf(v.login.pending) + started == ended + last
    ensures IdOf(w.login.pending) + ((if Starts(w, l) then [w.login.signIns] else []) + started) ==
            ((if Ends(w, l) then IdOf(w.login.pending) else []) + ended) + last
  {
    hide Next;
    if Starts(w, l) {
      assert [] + ([w.login.signIns] + started) == IdOf(v.login.pending) + started && [] + ended == ended;
    } else if Ends(w, l) {
      var id := IdOf(w.login.pending);
      assert [] + started == started;
      assert (id + ended) + last == id + (ended + last);
    } else {
      assert [] + started == started && [] + ended == ended;
    }
  }

  /** The ids a run starts are the next ones, each once. */
  lemma {:induction false} StartedIds(w: Workload, labels: seq<Label>)
    requires Inv(w)
    ensures forall i :: 0 <= i < |Started(w, labels)| ==> Started(w, labels)[i] == w.login.signIns + i
    decreases |labels|
  {
    hide Inv;
    hide Next;
    if labels != [] {
      StepSignIn(w, labels[0]);
      NextInv(w, labels[0]);
      StartedIds(Next(w, labels[0]), labels[1..]);
    }
  }

  /** So no sign-in ends twice, and none is both ended and pending. */
  lemma NoneEndsTwice(w: Workload, labels: seq<Label>, i: nat, j: nat)
    requires Inv(w) && i < j < |Ended(w, labels)|
    ensures Ended(w, labels)[i] != Ended(w, labels)[j]
    ensures IdOf(After(w, labels).login.pending) != [Ended(w, labels)[i]]
  {
    EachEndsOnce(w, labels);
    StartedIds(w, labels);
    var all := IdOf(w.login.pending) + Started(w, labels);
    var ended, last := Ended(w, labels), IdOf(After(w, labels).login.pending);
    assert all[i] == ended[i] && all[j] == ended[j];
    if last != [] { assert all[|ended|] == last[0]; }
  }

  // ------------------------------------------------- what runs, and how often

  /** How many writes the worker has taken. */
  function TakenCount(w: Workload): int { w.jobs.enqueued - |w.jobs.queue| }

  /** The step that hands the CLI a prompt. */
  predicate Invokes(w: Workload, l: Label) { CanOpen(w) && CanFinish(Next(w, l)) }

  /** The write whose prompt that is. */
  function RunBy(w: Workload, l: Label): Job
    requires Invokes(w, l)
  {
    Next(w, l).turn.value.running.value
  }

  /** The numbers of the writes whose prompts a run hands to the CLI, in order. */
  function Ran(w: Workload, labels: seq<Label>): seq<nat>
    decreases |labels|
  {
    if labels == [] then []
    else (if Invokes(w, labels[0]) then [RunBy(w, labels[0]).seqNo] else []) + Ran(Next(w, labels[0]), labels[1..])
  }

  /** The write a turn may still come to run. */
  function Carried(t: Turn): Option<nat> {
    match t.input
    case Plain => Some(t.job.seqNo)
    case Code(p) => Some(p.held.seqNo)
    case _ => None
  }

  /** Write n may still run: it is not yet taken, its turn has not been decided, or it is held. */
  predicate MayRun(w: Workload, n: nat) {
    || n > TakenCount(w)
    || (CanOpen(w) && Carried(w.turn.value) == Some(n))
    || (w.login.pending.Some? && w.login.pending.value.held.seqNo == n)
  }

  lemma QueueRuns(w: Workload, q: QueueStep, n: nat)
    requires Inv(w)
    ensures MayRun(QueueNext(w, q), n) ==> MayRun(w, n)
  {
  }

  lemma CheckpointRuns(w: Workload, c: CheckpointStep, n: nat)
    ensures MayRun(CheckpointNext(w, c), n) ==> MayRun(w, n)
    ensures !Invokes(w, Checkpoint(c))
  {
  }

  /** A write that may not run any more never may again. */
  lemma StepRuns(w: Workload, l: Label, n: nat)
    requires Inv(w)
    ensures MayRun(Next(w, l), n) ==> MayRun(w, n)
  {
    match l {
      case Queue(q) => QueueRuns(w, q, n);
      case Checkpoint(c) => CheckpointRuns(w, c, n);
      case Life(_) =>
    }
  }

  /** And the one that runs is then done with. */
  lemma InvokeUses(w: Workload, l: Label)
    requires Inv(w) && Invokes(w, l)
    ensures MayRun(w, RunBy(w, l).seqNo) && !MayRun(Next(w, l), RunBy(w, l).seqNo)
  {
    if l.Checkpoint? { CheckpointRuns(w, l.c, 0); }
  }

  /** Every accepted prompt, held for a sign-in or not, runs at most once. */
  lemma {:induction false} RunsAtMostOnce(w: Workload, labels: seq<Label>)
    requires Inv(w)
    ensures forall n :: n in Ran(w, labels) ==> MayRun(w, n)
    ensures forall i, j :: 0 <= i < j < |Ran(w, labels)| ==> Ran(w, labels)[i] != Ran(w, labels)[j]
    decreases |labels|
  {
    hide Inv;
    hide MayRun;
    hide Next;
    if labels != [] {
      var v := Next(w, labels[0]);
      NextInv(w, labels[0]);
      RunsAtMostOnce(v, labels[1..]);
      forall n | n in Ran(v, labels[1..])
        ensures MayRun(w, n)
      {
        StepRuns(w, labels[0], n);
      }
      if Invokes(w, labels[0]) { InvokeUses(w, labels[0]); }
    }
  }

  lemma NeverRuns(w: Workload, labels: seq<Label>, n: nat)
    requires Inv(w) && !MayRun(w, n)
    ensures n !in Ran(w, labels)
  {
    RunsAtMostOnce(w, labels);
  }

  /** A write taken as a code, as a stale code or as a prompt from before the sign-in is
      never run, whatever follows. */
  lemma OnlyPromptsRun(w: Workload, l: Label, labels: seq<Label>)
    requires Inv(w) && Takes(w, l) && !Next(w, l).turn.value.input.Plain?
    ensures w.jobs.queue[0].seqNo !in Ran(Next(w, l), labels)
  {
    NextInv(w, l);
    NeverRuns(Next(w, l), labels, w.jobs.queue[0].seqNo);
  }

  /** A sign-in that ends without its code, or whose code was refused, takes the held
      prompt with it. */
  lemma DroppedNeverRuns(w: Workload, l: Label, labels: seq<Label>)
    requires Inv(w) && !Takes(w, l) && !Invokes(w, l)
    requires Ends(w, l) || (CanOpen(w) && w.turn.value.input.Code? && Next(w, l).turn.None?)
    ensures var p := if Ends(w, l) then w.login.pending.value else w.turn.value.input.signIn;
      p.held.seqNo !in Ran(Next(w, l), labels)
  {
    NextInv(w, l);
    var p := if Ends(w, l) then w.login.pending.value else w.turn.value.input.signIn;
    DroppedIsGone(w, l, p);
    NeverRuns(Next(w, l), labels, p.held.seqNo);
  }

  lemma DroppedIsGone(w: Workload, l: Label, p: Pending)
    requires Inv(w) && !Takes(w, l) && !Invokes(w, l)
    requires (Ends(w, l) && w.login.pending == Some(p)) ||
             (CanOpen(w) && w.turn.value.input == Code(p) && Next(w, l).turn.None?)
    ensures !MayRun(Next(w, l), p.held.seqNo)
  {
  }

  // ------------------------------------- a held prompt runs with its own code only

  function Upto(w: Workload, labels: seq<Label>, k: nat): Workload
    requires k <= |labels|
  {
    After(w, labels[..k])
  }

  lemma {:induction false} AfterSnoc(w: Workload, labels: seq<Label>, l: Label)
    ensures After(w, labels + [l]) == Next(After(w, labels), l)
    decreases |labels|
  {
    hide Next;
    if labels == [] {
      assert [l][1..] == [];
      assert labels + [l] == [l];
    } else {
      assert (labels + [l])[1..] == labels[1..] + [l];
      AfterSnoc(Next(w, labels[0]), labels[1..], l);
    }
  }

  lemma UptoNext(w: Workload, labels: seq<Label>, k: nat)
    requires Inv(w) && k < |labels|
    ensures Upto(w, labels, k + 1) == Next(Upto(w, labels, k), labels[k]) && Inv(Upto(w, labels, k))
  {
    assert labels[..k + 1] == labels[..k] + [labels[k]];
    AfterSnoc(w, labels[..k], labels[k]);
    RunInv(w, labels[..k]);
  }

  /** The step that began the sign-in now pending. */
  lemma {:induction false} PendingFrom(w: Workload, labels: seq<Label>, k: nat) returns (i: nat)
    requires Inv(w) && w.login.pending.None? && k <= |labels| && Upto(w, labels, k).login.pending.Some?
    ensures i < k && Starts(Upto(w, labels, i), labels[i])
    ensures forall m :: i < m <= k ==> Upto(w, labels, m).login.pending == Upto(w, labels, k).login.pending
    ensures var v := Upto(w, labels, i);
      Upto(w, labels, k).login.pending == Some(Pending(v.login.signIns, v.jobs.enqueued, v.turn.value.job))
    decreases k
  {
    hide Next;
    hide Inv;
    UptoNext(w, labels, k - 1);
    StepSignIn(Upto(w, labels, k - 1), labels[k - 1]);
    i := k - 1;
    if !Starts(Upto(w, labels, k - 1), labels[k - 1]) { i := PendingFrom(w, labels, k - 1); }
  }

  lemma StepOpens(w: Workload, l: Label)
    requires CanOpen(Next(w, l))
    ensures Takes(w, l) || (CanOpen(w) && Next(w, l).turn == w.turn)
  {
    if l.Checkpoint? { CheckpointKeepsWork(w, l.c); }
  }

  /** The dequeue that began the turn now open. */
  lemma {:induction false} TurnFrom(w: Workload, labels: seq<Label>, k: nat) returns (j: nat)
    requires Inv(w) && w.turn.None? && k <= |labels| && CanOpen(Upto(w, labels, k))
    ensures j < k && Takes(Upto(w, labels, j), labels[j])
    ensures forall m :: j < m <= k ==> Upto(w, labels, m).turn == Upto(w, labels, k).turn
    decreases k
  {
    hide Next;
    hide Inv;
    UptoNext(w, labels, k - 1);
    StepOpens(Upto(w, labels, k - 1), labels[k - 1]);
    j := k - 1;
    if !Takes(Upto(w, labels, k - 1), labels[k - 1]) { j := TurnFrom(w, labels, k - 1); }
  }

  lemma InvokesHeld(w: Workload, l: Label)
    requires Invokes(w, l) && RunBy(w, l) != w.turn.value.job
    ensures w.turn.value.input.Code? && RunBy(w, l) == w.turn.value.input.signIn.held
    ensures l.Queue? && l.q.TurnOpens? && l.q.accepted
  {
    if l.Checkpoint? { CheckpointRuns(w, l.c, 0); }
  }

  lemma TakesCode(w: Workload, l: Label)
    requires Takes(w, l) && Next(w, l).turn.value.input.Code?
    ensures w.login.pending == Some(Next(w, l).turn.value.input.signIn) && Next(w, l).login.pending.None?
    ensures w.jobs.queue[0].seqNo > w.login.pending.value.after && Next(w, l).turn.value.job == w.jobs.queue[0]
  {
  }

  /** A turn that runs a prompt other than its own (step k) took the code (step j) of the
      sign-in that held that prompt (step i), which was pending all the while; the code
      was written after the sign-in was shown, and it was accepted. */
  lemma HeldRunsWithItsCode(w: Workload, labels: seq<Label>, k: nat) returns (i: nat, j: nat)
    requires Inv(w) && w.turn.None? && w.login.pending.None? && k < |labels|
    requires Invokes(Upto(w, labels, k), labels[k])
    requires RunBy(Upto(w, labels, k), labels[k]) != Upto(w, labels, k).turn.value.job
    ensures i < j < k
    ensures var v := Upto(w, labels, i);
      && Starts(v, labels[i]) && v.turn.value.job == RunBy(Upto(w, labels, k), labels[k])
      && (forall m :: i < m <= j ==>
            Upto(w, labels, m).login.pending == Some(Pending(v.login.signIns, v.jobs.enqueued, v.turn.value.job)))
      && Takes(Upto(w, labels, j), labels[j]) && Upto(w, labels, j).jobs.queue[0].seqNo > v.jobs.enqueued
      && Upto(w, labels, j + 1).login.pending.None?
    ensures forall m :: j < m <= k ==>
      Upto(w, labels, m).turn.Some? && Upto(w, labels, m).turn.value.job == Upto(w, labels, j).jobs.queue[0]
    ensures labels[k].Queue? && labels[k].q.TurnOpens? && labels[k].q.accepted
  {
    hide Next;
    hide Inv;
    InvokesHeld(Upto(w, labels, k), labels[k]);
    j := TurnFrom(w, labels, k);
    UptoNext(w, labels, j);
    TakesCode(Upto(w, labels, j), labels[j]);
    i := PendingFrom(w, labels, j);
  }

  // ------------------------------------------------- the code is never shown or run

  /** Write number k is dequeued as an ordinary prompt: it goes into the record, and
      possibly to the CLI. */
  predicate Exposes(w: Workload, l: Label, k: nat) {
    Takes(w, l) && w.jobs.queue[0].seqNo == k &&
    var input := Classify(w.login.pending, w.login.dropped, w.jobs.queue[0], l.q.now).0;
    input.Plain? || input.BeforeSignIn?
  }

  ghost predicate Exposed(w: Workload, labels: seq<Label>, k: nat)
    decreases |labels|
  {
    labels != [] && (Exposes(w, labels[0], k) || Exposed(Next(w, labels[0]), labels[1..], k))
  }

  /** Every dequeue happens by `until`, and every sign-in dropped meanwhile is remembered that long. */
  predicate InWindow(labels: seq<Label>, until: int)
    decreases |labels|
  {
    labels == [] || (StepInWindow(labels[0], until) && InWindow(labels[1..], until))
  }

  predicate StepInWindow(l: Label, until: int) {
    match l
    case Queue(Dequeue(now)) => now <= until
    case Queue(Expire(_, t)) => until <= t
    case Checkpoint(Drained(_, t)) => until <= t
    case _ => true
  }

  /** The sign-in shown after write a is pending, or ended with every earlier write taken. */
  ghost predicate Guarded(w: Workload, a: nat, until: int) {
    || w.gate.stopping
    || TakenCount(w) > a
    || (w.login.pending.Some? && w.login.pending.value.after == a)
    || (TakenCount(w) == a && w.login.pending.None? && !CanHold(w) &&
        w.login.dropped.Some? && w.login.dropped.value.after == a && w.login.dropped.value.until >= until)
  }

  /** The sign-in does not expire while a write from before it is still queued. */
  predicate Timely(w: Workload, l: Label) {
    l.Queue? && l.q.Expire? && Ends(w, l) ==> TakenCount(w) >= w.login.pending.value.after
  }

  lemma QueueGuarded(w: Workload, q: QueueStep, a: nat, until: int)
    requires Inv(w) && Guarded(w, a, until) && StepInWindow(Queue(q), until) && Timely(w, Queue(q))
    ensures Guarded(QueueNext(w, q), a, until) && !Exposes(w, Queue(q), a + 1)
  {
  }

  lemma CheckpointGuarded(w: Workload, c: CheckpointStep, a: nat, until: int)
    requires Inv(w) && Guarded(w, a, until) && StepInWindow(Checkpoint(c), until)
    ensures Guarded(CheckpointNext(w, c), a, until)
  {
  }

  lemma LifeGuarded(w: Workload, l: LifeStep, a: nat, until: int)
    requires Inv(w) && Guarded(w, a, until)
    ensures Guarded(LifeNext(w, l), a, until)
  {
  }

  lemma StepGuarded(w: Workload, l: Label, a: nat, until: int)
    requires Inv(w) && Guarded(w, a, until) && StepInWindow(l, until) && Timely(w, l)
    ensures Guarded(Next(w, l), a, until) && !Exposes(w, l, a + 1)
  {
    match l {
      case Queue(q) => QueueGuarded(w, q, a, until);
      case Checkpoint(c) => CheckpointGuarded(w, c, a, until);
      case Life(l) => LifeGuarded(w, l, a, until);
    }
  }

  ghost predicate AllTimely(w: Workload, labels: seq<Label>)
    decreases |labels|
  {
    labels == [] || (Timely(w, labels[0]) && AllTimely(Next(w, labels[0]), labels[1..]))
  }

  /** The first write after a shown URL never reaches the record or the CLI within the
      window, as long as no sign-in expires with earlier writes still queued. */
  lemma {:induction false} CodeStaysHidden(w: Workload, labels: seq<Label>, a: nat, until: int)
    requires Inv(w) && Guarded(w, a, until) && InWindow(labels, until) && AllTimely(w, labels)
    ensures !Exposed(w, labels, a + 1)
    decreases |labels|
  {
    if labels != [] {
      StepGuarded(w, labels[0], a, until);
      NextInv(w, labels[0]);
      CodeStaysHidden(Next(w, labels[0]), labels[1..], a, until);
    }
  }

  const SHOWN := Queue(TurnOpens(SignInShown, false))
  const NOT_RUN := Queue(TurnOpens(Refused, false))

  /** A sign-in just shown is guarded. */
  lemma ShownIsGuarded(w: Workload, until: int)
    requires Inv(w) && Starts(w, SHOWN)
    ensures Guarded(Next(w, SHOWN), w.jobs.enqueued, until)
  {
  }

  // ------------------------------------------------------ when an expiry is too early

  /** The sign-in shown after write a is over and write a + 1 cannot be taken for a prompt. */
  ghost predicate Past(w: Workload, a: nat, until: int) {
    || w.gate.stopping
    || TakenCount(w) > a
    || (TakenCount(w) == a && w.login.pending.None? && !CanHold(w) &&
        w.login.dropped.Some? && w.login.dropped.value.after == a && w.login.dropped.value.until >= until)
  }

  lemma StepPast(w: Workload, l: Label, a: nat, until: int)
    requires Inv(w) && Past(w, a, until) && StepInWindow(l, until)
    ensures Past(Next(w, l), a, until) && !Exposes(w, l, a + 1)
  {
    StepQueue(w, l);
    match l {
      case Queue(q) => QueuePast(w, q, a, until);
      case Checkpoint(_) =>
      case Life(_) =>
    }
  }

  lemma QueuePast(w: Workload, q: QueueStep, a: nat, until: int)
    requires Inv(w) && Past(w, a, until) && StepInWindow(Queue(q), until)
    ensures Past(QueueNext(w, q), a, until) && !Exposes(w, Queue(q), a + 1)
  {
  }

  lemma {:induction false} PastStays(w: Workload, labels: seq<Label>, a: nat, until: int)
    requires Inv(w) && Past(w, a, until) && InWindow(labels, until)
    ensures !Exposed(w, labels, a + 1)
    decreases |labels|
  {
    if labels != [] {
      StepPast(w, labels[0], a, until);
      NextInv(w, labels[0]);
      PastStays(Next(w, labels[0]), labels[1..], a, until);
    }
  }

  /** Running, open and with room for one more write. */
  predicate Live(w: Workload) { w.gate.ready && !w.gate.stopping && w.gate.accepting && !w.gate.refreshing }

  lemma ExposedThen(w: Workload, l: Label, labels: seq<Label>, k: nat, until: int)
    requires Exposed(Next(w, l), labels, k) && StepInWindow(l, until) && InWindow(labels, until)
    ensures Exposed(w, [l] + labels, k) && InWindow([l] + labels, until)
  {
    assert ([l] + labels)[1..] == labels;
  }

  /** With a later sign-in pending, every earlier write is dequeued as a prompt from before it. */
  lemma {:induction false} DrainExposes(w: Workload, k: nat, until: int) returns (labels: seq<Label>)
    requires Inv(w) && Live(w) && w.turn.None? && w.login.pending.Some? && TakenCount(w) < k <= w.login.pending.value.after
    ensures Exposed(w, labels, k) && InWindow(labels, until)
    decreases k - TakenCount(w)
  {
    var l := Queue(Dequeue(until));
    labels := [l];
    if TakenCount(w) + 1 < k {
      var v := Next(w, l);
      var u := Next(v, NOT_RUN);
      NextInv(w, l);
      NextInv(v, NOT_RUN);
      var rest := DrainExposes(u, k, until);
      ExposedThen(v, NOT_RUN, rest, k, until);
      labels := [NOT_RUN] + rest;
      ExposedThen(w, l, labels, k, until);
      labels := [l] + labels;
    }
  }

  /** A write from before the ended sign-in is taken for a prompt and starts another one. */
  lemma NextSignInExposes(w: Workload, a: nat, until: int) returns (labels: seq<Label>)
    requires Inv(w) && Live(w) && w.turn.None? && w.login.pending.None? && w.login.dropped == Some(Dropped(a, until))
    requires TakenCount(w) < a < w.jobs.enqueued
    ensures Exposed(w, labels, a + 1) && InWindow(labels, until)
  {
    var l, h := Queue(Dequeue(until)), SHOWN;
    var v := Next(w, l);
    NextInv(w, l);
    NextInv(v, h);
    labels := DrainExposes(Next(v, h), a + 1, until);
    ExposedThen(v, h, labels, a + 1, until);
    labels := [h] + labels;
    ExposedThen(w, l, labels, a + 1, until);
    labels := [l] + labels;
  }

  lemma SentExposes(w: Workload, a: nat, until: int) returns (labels: seq<Label>)
    requires Inv(w) && Live(w) && w.turn.None? && w.login.pending.None? && w.login.dropped == Some(Dropped(a, until))
    requires TakenCount(w) < a && (a < w.jobs.enqueued || |w.jobs.queue| < MAX_QUEUED_PROMPTS)
    ensures Exposed(w, labels, a + 1) && InWindow(labels, until)
  {
    if a < w.jobs.enqueued {
      labels := NextSignInExposes(w, a, until);
    } else {
      var l := Queue(Write([], false));
      NextInv(w, l);
      labels := NextSignInExposes(Next(w, l), a, until);
      ExposedThen(w, l, labels, a + 1, until);
      labels := [l] + labels;
    }
  }

  lemma LateExpiryExposes(v: Workload, a: nat, until: int) returns (labels: seq<Label>)
    requires Inv(v) && Live(v) && v.login.pending.None? && v.login.dropped == Some(Dropped(a, until)) && !CanHold(v)
    requires TakenCount(v) < a && (a < v.jobs.enqueued || |v.jobs.queue| < MAX_QUEUED_PROMPTS)
    ensures Exposed(v, labels, a + 1) && InWindow(labels, until)
  {
    if v.turn.None? {
      labels := SentExposes(v, a, until);
    } else {
      var l := if CanOpen(v) then NOT_RUN else Queue(TurnEnds(false));
      NextInv(v, l);
      labels := SentExposes(Next(v, l), a, until);
      ExposedThen(v, l, labels, a + 1, until);
      labels := [l] + labels;
    }
  }

  /** Some continuation within the window shows write k or runs it. */
  ghost predicate CanExpose(w: Workload, k: nat, until: int) {
    exists labels :: InWindow(labels, until) && Exposed(w, labels, k)
  }

  /** The first write after the URL can be shown or run within the window if and only if
      the sign-in expired while a write from before it was still queued. */
  lemma ExpiryDecides(w: Workload, p: Pending, until: int)
    requires Inv(w) && Live(w) && w.login.pending == Some(p)
    requires p.after < w.jobs.enqueued || |w.jobs.queue| < MAX_QUEUED_PROMPTS
    ensures CanExpose(Next(w, Queue(Expire(p.id, until))), p.after + 1, until) <==> TakenCount(w) < p.after
  {
    var v := Next(w, Queue(Expire(p.id, until)));
    NextInv(w, Queue(Expire(p.id, until)));
    if TakenCount(w) < p.after {
      var labels := LateExpiryExposes(v, p.after, until);
      assert CanExpose(v, p.after + 1, until);
    } else {
      forall labels | InWindow(labels, until)
        ensures !Exposed(v, labels, p.after + 1)
      {
        PastStays(v, labels, p.after, until);
      }
    }
  }

  /** Such an expiry can come up: two prompts are sent and the first starts the sign-in. */
  lemma EarlyExpiryReachable(a: Bytes, b: Bytes)
    requires |a| + |b| <= MAX_QUEUED_BYTES
    ensures
      var w := After(New(false, false), [Queue(Write(a, false)), Queue(Write(b, false)), Queue(Dequeue(0)), SHOWN]);
      Inv(w) && Live(w) && w.login.pending == Some(Pending(0, 2, Job(a, 1))) && TakenCount(w) == 1
  {
    var w0 := New(false, false);
    var l := [Queue(Write(a, false)), Queue(Write(b, false)), Queue(Dequeue(0)), SHOWN];
    var w1 := Next(w0, l[0]);
    var w2 := Next(w1, l[1]);
    var w3 := Next(w2, l[2]);
    var w4 := Next(w3, l[3]);
    assert w1.jobs.queue == [Job(a, 1)];
    assert w2.jobs.queue == [Job(a, 1), Job(b, 2)];
    assert w3.jobs.queue == [Job(b, 2)] && w3.turn == Some(Turn(Job(a, 1), false, Plain, None));
    assert w4.login.pending == Some(Pending(0, 2, Job(a, 1))) && TakenCount(w4) == 1;
    assert l[1..] == [l[1], l[2], l[3]] && l[1..][1..] == [l[2], l[3]] && l[1..][1..][1..] == [l[3]];
    assert [l[3]][1..] == [];
    assert After(w3, [l[3]]) == w4;
    assert After(w2, [l[2], l[3]]) == w4;
    assert After(w1, [l[1], l[2], l[3]]) == w4;
    NewInv(false, false);
    RunInv(w0, l);
  }
}
