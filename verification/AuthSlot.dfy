/** authSlot (data-plane/cmd/agent/auth_slot.go): one login kept in two places, the
    session's HOME and the slot the pod borrows, under failing I/O. */
module AuthSlot {
  import opened Wrappers
  import opened Bytes

  type Login = Option<Bytes>

  /** json.Valid */
  type Validity = Bytes -> bool

  predicate IsLogin(valid: Validity, l: Login) { l.Some? && valid(l.value) }

  /** How a write or removal ends: done, not done, or done with an error after it (the
      directory could not be synced). */
  datatype Effect = Done | NotDone | DoneWithError

  datatype Slot = Slot(home: Login, slot: Login, placed: bool, unpushed: bool)

  datatype Failure = Io | NotJson

  /** What goes wrong in one copyBackLocked. */
  datatype CopyFaults = CopyFaults(readHome: bool, readSlot: bool, write: Effect)

  datatype Copied = Copied(slot: Login, err: Option<Failure>)

  function Write(old_: Login, content: Login, e: Effect): Copied {
    Copied(if e == NotDone then old_ else content, if e == Done then None else Some(Io))
  }

  function CopyBack(valid: Validity, s: Slot, removeWhenAbsent: bool, f: CopyFaults): Copied {
    if f.readHome then Copied(s.slot, Some(Io))
    else if s.home.None? then
      if removeWhenAbsent then Write(s.slot, None, f.write) else Copied(s.slot, None)
    else if !valid(s.home.value) then Copied(s.slot, Some(NotJson))
    else if !f.readSlot && s.slot == s.home then Copied(s.slot, None)
    else Write(s.slot, s.home, f.write)
  }

  datatype PullFaults = PullFaults(copy: CopyFaults, readKept: bool, readSlot: bool, remove: bool, readHome: bool, write: Effect)

  /** pull, before a turn */
  function Pull(valid: Validity, s: Slot, f: PullFaults): Slot {
    var c := if s.unpushed then CopyBack(valid, s, false, f.copy) else Copied(s.slot, None);
    if c.err.Some? then s.(slot := c.slot, placed := !f.readKept && s.home.Some?)
    else
      var t := s.(slot := c.slot, placed := false, unpushed := false);
      if f.readSlot then t
      else if t.slot.None? then (if f.remove then t else t.(home := None))
      else if !f.readHome && t.home == t.slot then t.(placed := true)
      else
        var w := Write(t.home, t.slot, f.write);
        t.(home := w.slot, placed := w.err.None?)
  }

  /** push, after a turn */
  function Push(valid: Validity, s: Slot, f: CopyFaults): Slot {
    var c := CopyBack(valid, s, s.placed, f);
    s.(slot := c.slot, unpushed := s.unpushed || (c.err.Some? && c.err.value != NotJson))
  }

  /** pushIfPresent, the poll during a turn */
  function Poll(valid: Validity, s: Slot, f: CopyFaults): Slot { s.(slot := CopyBack(valid, s, false, f).slot) }

  // ------------------------------------------------------------------ whole turns

  /** The CLI left this in HOME when the poll looked. */
  datatype Look = Look(home: Login, faults: CopyFaults)

  /** What turns are made of. An ordinary turn is Pulled, Ran; one that the sign-in gate
      stops is Pulled, Left; one that takes an accepted code is Ran (the sign-in) and Ran
      (the held prompt), with no pull; one whose code was refused is Left. */
  datatype Step =
    | Pulled(pull: PullFaults)
    | Ran(looks: seq<Look>, home: Login, push: CopyFaults)   // the CLI runs, polled, and a push follows
    | Left(left: Login)                                      // HOME as the CLI leaves it when no push follows

  function Polls(valid: Validity, s: Slot, looks: seq<Look>): Slot
    decreases |looks|
  {
    if looks == [] then s else Polls(valid, Poll(valid, s.(home := looks[0].home), looks[0].faults), looks[1..])
  }

  function Next(valid: Validity, s: Slot, x: Step): Slot {
    match x
    case Pulled(f) => Pull(valid, s, f)
    case Ran(looks, home, f) => Push(valid, Polls(valid, s, looks).(home := home), f)
    case Left(home) => s.(home := home)
  }

  /** The newest login anyone has seen: where a turn stops, or copied by a poll. */
  function NewestAfterPolls(valid: Validity, s: Slot, newest: Login, looks: seq<Look>): Login
    decreases |looks|
  {
    if looks == [] then newest
    else
      var next := Poll(valid, s.(home := looks[0].home), looks[0].faults);
      NewestAfterPolls(valid, next, if next.slot != s.slot then next.slot else newest, looks[1..])
  }

  /** The CLI had a login when HOME was last pulled and leaves none. */
  predicate LogsOut(s: Slot, x: Step) { x.Ran? && s.placed && x.home.None? }

  function NewestAfter(valid: Validity, s: Slot, newest: Login, x: Step): Login {
    match x
    case Pulled(_) => newest
    case Ran(looks, home, _) =>
      if IsLogin(valid, home) then home else if LogsOut(s, x) then None else NewestAfterPolls(valid, s, newest, looks)
    case Left(home) => if IsLogin(valid, home) then home else newest
  }

  /** The newest login is in the slot, or in HOME and known to be unsaved. */
  ghost predicate Inv(valid: Validity, s: Slot, newest: Login) {
    && (newest.Some? ==> valid(newest.value) && (s.slot == newest || (s.unpushed && s.home == newest)))
    && (s.unpushed && IsLogin(valid, s.home) ==> newest == s.home)
  }

  ghost predicate Somewhere(s: Slot, l: Login) { s.slot == l || s.home == l }

  /** A pull never puts the slot's older copy over an unsaved newer login. */
  lemma PullKeeps(valid: Validity, s: Slot, newest: Login, f: PullFaults)
    requires Inv(valid, s, newest)
    ensures var p := Pull(valid, s, f);
      && (newest.Some? ==> p.slot == newest || (p.unpushed && p.home == newest))
      && (p.unpushed ==> s.unpushed && p.home == s.home)
      && (p.placed ==> p.home.Some?)
  {
  }

  /** Some poll wrote to the slot. */
  predicate Polled(valid: Validity, s: Slot, looks: seq<Look>)
    decreases |looks|
  {
    looks != [] &&
    var next := Poll(valid, s.(home := looks[0].home), looks[0].faults);
    next.slot != s.slot || Polled(valid, next, looks[1..])
  }

  /** A turn's end as seen from its middle. */
  lemma {:induction false} PollsKeep(valid: Validity, s: Slot, newest: Login, looks: seq<Look>)
    requires newest.Some? ==> valid(newest.value)
    ensures var v := Polls(valid, s, looks);
      var n := NewestAfterPolls(valid, s, newest, looks);
      && (n.Some? ==> valid(n.value))
      && v.placed == s.placed && v.unpushed == s.unpushed
      && (Polled(valid, s, looks) ==> v.slot == n)
      && (!Polled(valid, s, looks) ==> v.slot == s.slot && n == newest)
      && (s.slot.Some? ==> v.slot.Some?)
    decreases |looks|
  {
    if looks != [] {
      var next := Poll(valid, s.(home := looks[0].home), looks[0].faults);
      PollsKeep(valid, next, if next.slot != s.slot then next.slot else newest, looks[1..]);
    }
  }

  /** HOME holds the one copy of a login that could not be saved. */
  predicate Unsaved(valid: Validity, s: Slot) { s.unpushed && IsLogin(valid, s.home) && s.slot != s.home }

  /** The CLI leaves neither a login nor a logout where the only copy was and no poll
      wrote, or it leaves a new login and no push follows. */
  predicate CliLoses(valid: Validity, s: Slot, x: Step) {
    match x
    case Pulled(_) => false
    case Ran(looks, home, _) =>
      Unsaved(valid, s) && !Polled(valid, s, looks) && !IsLogin(valid, home) && !(s.placed && home.None?)
    case Left(home) =>
      if IsLogin(valid, home) then home != s.slot && !s.unpushed else Unsaved(valid, s)
  }

  lemma PushKeeps(valid: Validity, s: Slot, newest: Login, f: CopyFaults)
    requires newest.Some? ==> valid(newest.value)
    requires IsLogin(valid, s.home) ==> newest == s.home
    requires newest.Some? && !IsLogin(valid, s.home) ==> s.slot == newest && !(s.placed && s.home.None?)
    ensures Inv(valid, Push(valid, s, f), newest)
  {
  }

  /** Whatever I/O fails, the newest login stays in HOME or the slot, unless the CLI
      itself destroys or leaves behind the one copy that was not saved. */
  lemma StepKeeps(valid: Validity, s: Slot, newest: Login, x: Step)
    requires Inv(valid, s, newest) && !CliLoses(valid, s, x)
    ensures Inv(valid, Next(valid, s, x), NewestAfter(valid, s, newest, x))
  {
    match x {
      case Pulled(f) => PullKeeps(valid, s, newest, f);
      case Ran(looks, home, f) =>
        PollsKeep(valid, s, newest, looks);
        PushKeeps(valid, Polls(valid, s, looks).(home := home), NewestAfter(valid, s, newest, x), f);
      case Left(_) =>
    }
  }

  const GOOD := PullFaults(CopyFaults(false, false, Done), false, false, false, false, Done)

  /** The exception is exact: after any step a good pull still finds the newest login if
      and only if the step is not one of those. */
  lemma LostExactly(valid: Validity, s: Slot, newest: Login, x: Step)
    requires Inv(valid, s, newest) && NewestAfter(valid, s, newest, x).Some?
    ensures Somewhere(Pull(valid, Next(valid, s, x), GOOD), NewestAfter(valid, s, newest, x)) <==> !CliLoses(valid, s, x)
  {
    if !CliLoses(valid, s, x) {
      StepKeeps(valid, s, newest, x);
      PullKeeps(valid, Next(valid, s, x), NewestAfter(valid, s, newest, x), GOOD);
    } else if x.Ran? {
      PollsKeep(valid, s, newest, x.looks);
    }
  }

  function Run(valid: Validity, s: Slot, steps: seq<Step>): Slot
    decreases |steps|
  {
    if steps == [] then s else Run(valid, Next(valid, s, steps[0]), steps[1..])
  }

  function Newest(valid: Validity, s: Slot, newest: Login, steps: seq<Step>): Login
    decreases |steps|
  {
    if steps == [] then newest
    else Newest(valid, Next(valid, s, steps[0]), NewestAfter(valid, s, newest, steps[0]), steps[1..])
  }

  predicate CliNeverLoses(valid: Validity, s: Slot, steps: seq<Step>)
    decreases |steps|
  {
    steps == [] || (!CliLoses(valid, s, steps[0]) && CliNeverLoses(valid, Next(valid, s, steps[0]), steps[1..]))
  }

  /** Over any number of turns of any shape, with any failures. */
  lemma {:induction false} RunKeeps(valid: Validity, s: Slot, newest: Login, steps: seq<Step>)
    requires Inv(valid, s, newest) && CliNeverLoses(valid, s, steps)
    ensures Inv(valid, Run(valid, s, steps), Newest(valid, s, newest, steps))
    ensures Newest(valid, s, newest, steps).Some? ==> Somewhere(Run(valid, s, steps), Newest(valid, s, newest, steps))
    decreases |steps|
  {
    if steps != [] {
      StepKeeps(valid, s, newest, steps[0]);
      RunKeeps(valid, Next(valid, s, steps[0]), NewestAfter(valid, s, newest, steps[0]), steps[1..]);
    }
  }

  const FAILS := CopyFaults(false, false, NotDone)
  const FRESH := Slot(None, None, false, false)

  /** Two turns that lose a login: the first signs in and its copy to the slot fails; the
      second's pull fails to save it again, and its CLI leaves a half-written file. */
  lemma LossReachable(valid: Validity, login: Bytes, junk: Bytes)
    requires valid(login) && !valid(junk)
    ensures var before := [Pulled(GOOD), Ran([], Some(login), FAILS), Pulled(GOOD.(copy := FAILS))];
      var s, x := Run(valid, FRESH, before), Ran([], Some(junk), CopyFaults(false, false, Done));
      && Inv(valid, FRESH, None) && CliNeverLoses(valid, FRESH, before)
      && Newest(valid, FRESH, None, before) == Some(login) && CliLoses(valid, s, x)
      && Next(valid, s, x).slot == None && Next(valid, s, x).home == Some(junk)
  {
    var x0, x1, x2 := Pulled(GOOD), Ran([], Some(login), FAILS), Pulled(GOOD.(copy := FAILS));
    var s1 := Next(valid, FRESH, x0);
    var s2 := Next(valid, s1, x1);
    var s3 := Next(valid, s2, x2);
    assert s1 == FRESH && s2 == Slot(Some(login), None, false, true) && s3 == Slot(Some(login), None, true, true);
    assert [x0, x1, x2][1..] == [x1, x2] && [x1, x2][1..] == [x2] && [x2][1..] == [];
    assert Run(valid, s2, [x2]) == s3 && CliNeverLoses(valid, s2, [x2]) && Newest(valid, s2, Some(login), [x2]) == Some(login);
    assert Run(valid, s1, [x1, x2]) == s3 && CliNeverLoses(valid, s1, [x1, x2]);
    assert Newest(valid, s1, None, [x1, x2]) == Some(login);
  }

  function Upto(valid: Validity, s: Slot, steps: seq<Step>, k: nat): Slot
    requires k <= |steps|
  {
    Run(valid, s, steps[..k])
  }

  lemma {:induction false} RunSnoc(valid: Validity, s: Slot, steps: seq<Step>, x: Step)
    ensures Run(valid, s, steps + [x]) == Next(valid, Run(valid, s, steps), x)
    decreases |steps|
  {
    if steps == [] {
      assert [x][1..] == [] && steps + [x] == [x];
    } else {
      assert (steps + [x])[1..] == steps[1..] + [x];
      RunSnoc(valid, Next(valid, s, steps[0]), steps[1..], x);
    }
  }

  lemma UptoNext(valid: Validity, s: Slot, steps: seq<Step>, k: nat)
    requires k < |steps|
    ensures Upto(valid, s, steps, k + 1) == Next(valid, Upto(valid, s, steps, k), steps[k])
  {
    assert steps[..k + 1] == steps[..k] + [steps[k]];
    RunSnoc(valid, s, steps[..k], steps[k]);
  }

  lemma StepPlaces(valid: Validity, s: Slot, x: Step)
    ensures !x.Pulled? ==> Next(valid, s, x).placed == s.placed
    ensures x.Pulled? && Next(valid, s, x).placed ==> Next(valid, s, x).home.Some?
    ensures s.slot.Some? && Next(valid, s, x).slot.None? ==> LogsOut(s, x)
  {
    if x.Ran? { PollsKeep(valid, s, None, x.looks); }
  }

  /** The pull after which HOME counts as holding a login. */
  lemma {:induction false} PlacedFrom(valid: Validity, s: Slot, steps: seq<Step>, k: nat) returns (i: nat)
    requires !s.placed && k <= |steps| && Upto(valid, s, steps, k).placed
    ensures i < k && steps[i].Pulled? && Upto(valid, s, steps, i + 1).home.Some?
    ensures forall m :: i < m < k ==> !steps[m].Pulled?
    decreases k
  {
    hide Next;
    UptoNext(valid, s, steps, k - 1);
    StepPlaces(valid, Upto(valid, s, steps, k - 1), steps[k - 1]);
    i := k - 1;
    if !steps[k - 1].Pulled? { i := PlacedFrom(valid, s, steps, k - 1); }
  }

  /** The slot is emptied only where the CLI leaves no login in a HOME that had one when
      it was last pulled. */
  lemma EmptiedOnlyByLogout(valid: Validity, s: Slot, steps: seq<Step>, k: nat) returns (i: nat)
    requires !s.placed && k < |steps|
    requires Upto(valid, s, steps, k).slot.Some? && Upto(valid, s, steps, k + 1).slot.None?
    ensures steps[k].Ran? && steps[k].home.None?
    ensures i < k && steps[i].Pulled? && Upto(valid, s, steps, i + 1).home.Some?
    ensures forall m :: i < m < k ==> !steps[m].Pulled?
  {
    hide Next;
    UptoNext(valid, s, steps, k);
    StepPlaces(valid, Upto(valid, s, steps, k), steps[k]);
    i := PlacedFrom(valid, s, steps, k);
  }

  /** A logout stays one exactly when the slot's file was really removed: a removal that
      failed is not tried again, and the next good pull brings the old login back. */
  lemma LogoutNeedsRemoval(valid: Validity, s: Slot, x: Step, next: PullFaults)
    requires LogsOut(s, x) && !x.push.readHome && Polls(valid, s, x.looks).slot.Some?
    requires !next.readSlot && !next.remove && !next.copy.readHome && !next.readHome && next.write == Done
    ensures var p := Pull(valid, Next(valid, s, x), next);
      && (x.push.write != NotDone <==> p.home.None?)
      && (x.push.write == NotDone ==> p.home == Polls(valid, s, x.looks).slot && !p.unpushed)
  {
    PollsKeep(valid, s, None, x.looks);
  }

  class AuthSlotSync {
    const valid: Validity
    var home: Login
    var slot: Login
    var placed: bool
    var unpushed: bool

    function S(): Slot
      reads this
    {
      Slot(home, slot, placed, unpushed)
    }

    constructor (valid: Validity, home: Login, slot: Login)
      ensures this.valid == valid && S() == Slot(home, slot, false, false)
    {
      this.valid, this.home, this.slot, placed, unpushed := valid, home, slot, false, false;
    }

    method CopyBackLocked(removeWhenAbsent: bool, f: CopyFaults) returns (err: Option<Failure>)
      modifies this`slot
      ensures Copied(slot, err) == CopyBack(valid, old(S()), removeWhenAbsent, f)
    {
      if f.readHome { return Some(Io); }
      if home.None? {
        if !removeWhenAbsent { return None; }
        if f.write != NotDone { slot := None; }
        return if f.write == Done then None else Some(Io);
      }
      if !valid(home.value) { return Some(NotJson); }
      if !f.readSlot && slot == home { return None; }
      if f.write != NotDone { slot := home; }
      return if f.write == Done then None else Some(Io);
    }

    method PullLogin(f: PullFaults)
      modifies this
      ensures S() == Pull(valid, old(S()), f)
    {
      placed := false;
      if unpushed {
        var err := CopyBackLocked(false, f.copy);
        if err.Some? {
          placed := !f.readKept && home.Some?;
          return;
        }
        unpushed := false;
      }
      if f.readSlot { return; }
      if slot.None? {
        if !f.remove { home := None; }
        return;
      }
      if f.readHome || home != slot {
        if f.write != NotDone { home := slot; }
        if f.write != Done { return; }
      }
      placed := true;
    }

    method PushLogin(f: CopyFaults)
      modifies this`slot, this`unpushed
      ensures S() == Push(valid, old(S()), f)
    {
      var err := CopyBackLocked(placed, f);
      if err.Some? && err.value != NotJson { unpushed := true; }
    }
  }
}
