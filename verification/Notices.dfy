/** The approval notices: noticeFeed (data-plane/cmd/agent/session_mcp_notices.go), the
    tailer that polls it (session_mcp_notice_tail.go) and the set of requests being
    waited for (approval_wait.go). */
module Notices {
  import opened Wrappers

  const CAPACITY: nat := 1024

  type Id = string

  datatype Kind = Awaiting | Decided | Unavailable | OtherKind

  datatype Notice = Notice(kind: Kind, id: Id)

  /** An entry of the feed: number n of the container's life. */
  datatype Entry = Entry(n: nat, notice: Notice)

  // ------------------------------------------------------------------------ feed

  datatype Feed = Feed(last: nat, kept: seq<Entry>)

  function Publish(f: Feed, notice: Notice): Feed {
    var kept := f.kept + [Entry(f.last + 1, notice)];
    Feed(f.last + 1, if |kept| > CAPACITY then kept[|kept| - CAPACITY..] else kept)
  }

  datatype Answer = Answer(notices: seq<Entry>, next: nat, dropped: nat)

  function Newer(kept: seq<Entry>, after: nat): seq<Entry>
    decreases |kept|
  {
    if kept == [] then [] else (if kept[0].n > after then [kept[0]] else []) + Newer(kept[1..], after)
  }

  function Since(f: Feed, after: nat): Answer {
    if f.kept == [] then Answer([], f.last, 0)
    else Answer(Newer(f.kept, after), f.last, if after + 1 < f.kept[0].n then f.kept[0].n - 1 - after else 0)
  }

  /** The feed keeps the last 1024 of everything published, numbered from 1. */
  ghost predicate FeedOf(f: Feed, all: seq<Notice>) {
    && f.last == |all| && |f.kept| == (if |all| < CAPACITY then |all| else CAPACITY)
    && forall i :: 0 <= i < |f.kept| ==> f.kept[i] == Entry(|all| - |f.kept| + i + 1, all[|all| - |f.kept| + i])
  }

  lemma PublishKeeps(f: Feed, all: seq<Notice>, notice: Notice)
    requires FeedOf(f, all)
    ensures FeedOf(Publish(f, notice), all + [notice])
  {
  }

  /** The entries of `all` from number `from` + 1 on. */
  function Tail(all: seq<Notice>, from: nat): (es: seq<Entry>)
    requires from <= |all|
    ensures |es| == |all| - from
    ensures forall i :: 0 <= i < |es| ==> es[i] == Entry(from + i + 1, all[from + i])
  {
    seq(|all| - from, i requires 0 <= i < |all| - from => Entry(from + i + 1, all[from + i]))
  }

  /** kept is the end of all, numbered. */
  ghost predicate Numbered(kept: seq<Entry>, all: seq<Notice>) { |kept| <= |all| && kept == Tail(all, |all| - |kept|) }

  lemma TailStep(all: seq<Notice>, from: nat)
    requires from < |all|
    ensures Tail(all, from) == [Entry(from + 1, all[from])] + Tail(all, from + 1)
    ensures Tail(all, from)[1..] == Tail(all, from + 1)
  {
  }

  lemma {:induction false} NewerIsTail(kept: seq<Entry>, all: seq<Notice>, after: nat)
    requires Numbered(kept, all) && after <= |all|
    ensures Newer(kept, after) == Tail(all, if |all| - |kept| < after then after else |all| - |kept|)
    decreases |kept|
  {
    hide Tail;
    if kept != [] {
      TailStep(all, |all| - |kept|);
      NewerIsTail(kept[1..], all, after);
    } else {
      assert Tail(all, |all|) == [];
    }
  }

  /** What an answer holds: every entry after the cursor that is still kept, and the
      count of those that are not. */
  lemma SinceMeans(f: Feed, all: seq<Notice>, after: nat)
    requires FeedOf(f, all) && after <= |all|
    ensures var a := Since(f, after);
      && a.next == |all| && after + a.dropped <= |all|
      && a.notices == Tail(all, after + a.dropped)
      && (a.dropped > 0 <==> |all| - after > CAPACITY)
  {
    assert f.kept == Tail(all, |all| - |f.kept|);
    NewerIsTail(f.kept, all, after);
  }

  // --------------------------------------------------------------------- wait set

  function Fold(pending: set<Id>, notice: Notice): set<Id> {
    if notice.id == "" then pending
    else
      match notice.kind
      case Awaiting => pending + {notice.id}
      case Decided => pending - {notice.id}
      case Unavailable => pending - {notice.id}
      case OtherKind => pending
  }

  function FoldAll(pending: set<Id>, es: seq<Entry>): set<Id>
    decreases |es|
  {
    if es == [] then pending else FoldAll(Fold(pending, es[0].notice), es[1..])
  }

  function Observe(pending: set<Id>, es: seq<Entry>, dropped: nat): set<Id> {
    FoldAll(if dropped > 0 then {} else pending, es)
  }

  predicate Settles(notice: Notice, id: Id) { notice.id == id && (notice.kind.Decided? || notice.kind.Unavailable?) }

  /** A request among the first n notices was asked and has not been settled since. */
  ghost predicate Undecided(all: seq<Notice>, id: Id, n: nat)
    requires n <= |all|
  {
    id != "" && exists i :: 0 <= i < n && all[i] == Notice(Awaiting, id) && forall j :: i < j < n ==> !Settles(all[j], id)
  }

  lemma UndecidedStep(all: seq<Notice>, id: Id, n: nat)
    requires n < |all|
    ensures Undecided(all, id, n + 1) <==>
            id != "" && (all[n] == Notice(Awaiting, id) || (Undecided(all, id, n) && !Settles(all[n], id)))
  {
    if Undecided(all, id, n) && !Settles(all[n], id) {
      var i :| 0 <= i < n && all[i] == Notice(Awaiting, id) && forall j :: i < j < n ==> !Settles(all[j], id);
      assert forall j :: i < j < n + 1 ==> !Settles(all[j], id);
    }
    if Undecided(all, id, n + 1) && all[n] != Notice(Awaiting, id) {
      var i :| 0 <= i < n + 1 && all[i] == Notice(Awaiting, id) && forall j :: i < j < n + 1 ==> !Settles(all[j], id);
      assert i < n && !Settles(all[n], id);
    }
  }

  /** Folding a stretch of the feed keeps a set exact, or below exact. */
  lemma {:induction false} FoldMeans(pending: set<Id>, all: seq<Notice>, from: nat, id: Id)
    requires from <= |all|
    ensures (id in pending ==> Undecided(all, id, from)) ==> (id in FoldAll(pending, Tail(all, from)) ==> Undecided(all, id, |all|))
    ensures (id in pending <==> Undecided(all, id, from)) ==> (id in FoldAll(pending, Tail(all, from)) <==> Undecided(all, id, |all|))
    decreases |all| - from
  {
    if from < |all| {
      UndecidedStep(all, id, from);
      assert Tail(all, from)[1..] == Tail(all, from + 1);
      FoldMeans(Fold(pending, all[from]), all, from + 1, id);
    }
  }

  // ------------------------------------------------------------------------- runs

  /** The container's notices, the tailer's cursor, what its sink was given, and the wait set. */
  datatype Tailer = Tailer(feed: Feed, cursor: nat, shown: seq<Entry>, lost: nat, pending: set<Id>)

  const START := Tailer(Feed(0, []), 0, [], 0, {})

  /** Something is published, a poll is answered, or a poll fails on the way. */
  datatype Step = Published(notice: Notice) | Polled | PollFailed

  function Next(t: Tailer, s: Step): Tailer {
    match s
    case Published(notice) => t.(feed := Publish(t.feed, notice))
    case PollFailed => t
    case Polled =>
      var a := Since(t.feed, t.cursor);
      Tailer(t.feed, if a.next > t.cursor then a.next else t.cursor, t.shown + a.notices, t.lost + a.dropped,
             Observe(t.pending, a.notices, a.dropped))
  }

  function Run(t: Tailer, steps: seq<Step>): Tailer
    decreases |steps|
  {
    if steps == [] then t else Run(Next(t, steps[0]), steps[1..])
  }

  function All(all: seq<Notice>, steps: seq<Step>): seq<Notice>
    decreases |steps|
  {
    if steps == [] then all else All(if steps[0].Published? then all + [steps[0].notice] else all, steps[1..])
  }

  /** The sink got each notice up to the cursor at most once and in order; the rest it
      was told are lost. The wait set is right if nothing was lost, never too large. */
  ghost predicate Inv(t: Tailer, all: seq<Notice>) {
    && FeedOf(t.feed, all) && t.cursor <= |all|
    && |t.shown| + t.lost == t.cursor
    && (forall i :: 0 <= i < |t.shown| ==> 1 <= t.shown[i].n <= t.cursor && t.shown[i].notice == all[t.shown[i].n - 1])
    && (forall i, j :: 0 <= i < j < |t.shown| ==> t.shown[i].n < t.shown[j].n)
    && (forall id :: id in t.pending ==> Undecided(all, id, t.cursor))
    && (t.lost == 0 ==> forall id :: id in t.pending <==> Undecided(all, id, t.cursor))
  }

  lemma UndecidedExtends(all: seq<Notice>, more: seq<Notice>, id: Id, n: nat)
    requires n <= |all|
    ensures Undecided(all, id, n) <==> Undecided(all + more, id, n)
  {
    forall i | 0 <= i < n
      ensures (all + more)[i] == all[i]
    {
    }
    if Undecided(all, id, n) {
      var i :| 0 <= i < n && all[i] == Notice(Awaiting, id) && forall j :: i < j < n ==> !Settles(all[j], id);
      assert (all + more)[i] == Notice(Awaiting, id);
    }
    if Undecided(all + more, id, n) {
      var i :| 0 <= i < n && (all + more)[i] == Notice(Awaiting, id) && forall j :: i < j < n ==> !Settles((all + more)[j], id);
      forall j | i < j < n
        ensures !Settles(all[j], id)
      {
        assert !Settles((all + more)[j], id);
      }
    }
  }

  lemma PublishInv(t: Tailer, all: seq<Notice>, notice: Notice)
    requires Inv(t, all)
    ensures Inv(Next(t, Published(notice)), all + [notice])
  {
    PublishKeeps(t.feed, all, notice);
    forall id
      ensures Undecided(all, id, t.cursor) <==> Undecided(all + [notice], id, t.cursor)
    {
      UndecidedExtends(all, [notice], id, t.cursor);
    }
  }

  lemma PollInv(t: Tailer, all: seq<Notice>)
    requires Inv(t, all)
    ensures Inv(Next(t, Polled), all)
  {
    hide Since;
    hide FoldAll;
    hide Undecided;
    hide Settles;
    SinceMeans(t.feed, all, t.cursor);
    var a := Since(t.feed, t.cursor);
    var pending := if a.dropped > 0 then {} else t.pending;
    forall id
      ensures id in Observe(t.pending, a.notices, a.dropped) ==> Undecided(all, id, |all|)
      ensures a.dropped == 0 && t.lost == 0 ==> (id in Observe(t.pending, a.notices, a.dropped) <==> Undecided(all, id, |all|))
    {
      FoldMeans(pending, all, t.cursor + a.dropped, id);
    }
  }

  /** For any publishes and polls, failed ones included. */
  lemma {:induction false} RunInv(t: Tailer, all: seq<Notice>, steps: seq<Step>)
    requires Inv(t, all)
    ensures Inv(Run(t, steps), All(all, steps))
    decreases |steps|
  {
    if steps != [] {
      match steps[0] {
        case Published(notice) => PublishInv(t, all, notice);
        case Polled => PollInv(t, all);
        case PollFailed =>
      }
      RunInv(Next(t, steps[0]), if steps[0].Published? then all + [steps[0].notice] else all, steps[1..]);
    }
  }

  /** Delivered and reported lost add up to the cursor, and the wait set is sound. */
  lemma {:induction false} DeliveredOrReported(steps: seq<Step>)
    ensures Inv(Run(START, steps), All([], steps))
  {
    RunInv(START, [], steps);
  }

  // -------------------------------------------------------------------- the objects

  class NoticeFeed {
    var last: nat
    var kept: seq<Entry>

    function F(): Feed
      reads this
    {
      Feed(last, kept)
    }

    constructor ()
      ensures F() == Feed(0, [])
    {
      last, kept := 0, [];
    }

    method PublishNotice(n: Notice)
      modifies this
      ensures F() == Publish(old(F()), n)
    {
      last := last + 1;
      kept := kept + [Entry(last, n)];
      if |kept| > CAPACITY { kept := kept[|kept| - CAPACITY..]; }
    }

    method SinceCursor(after: nat) returns (out: seq<Entry>, next: nat, dropped: nat)
      ensures Answer(out, next, dropped) == Since(F(), after)
    {
      out, next, dropped := [], last, 0;
      if kept == [] { return; }
      if after + 1 < kept[0].n { dropped := kept[0].n - 1 - after; }
      assert kept[0..] == kept && [] + Newer(kept, after) == Newer(kept, after);
      for i := 0 to |kept|
        invariant out + Newer(kept[i..], after) == Newer(kept, after)
      {
        assert kept[i..][1..] == kept[i + 1..];
        var rest := Newer(kept[i + 1..], after);
        assert out + ([kept[i]] + rest) == (out + [kept[i]]) + rest;
        assert [] + rest == rest;
        if kept[i].n > after { out := out + [kept[i]]; }
      }
      assert kept[|kept|..] == [] && out + [] == out;
    }
  }

  class ApprovalWaits {
    var pending: set<Id>

    constructor ()
      ensures pending == {}
    {
      pending := {};
    }

    method ObserveAnswer(notices: seq<Entry>, dropped: nat)
      modifies this
      ensures pending == Observe(old(pending), notices, dropped)
    {
      if dropped > 0 { pending := {}; }
      ghost var start := pending;
      assert notices[0..] == notices;
      for i := 0 to |notices|
        invariant FoldAll(pending, notices[i..]) == FoldAll(start, notices)
      {
        assert notices[i..][1..] == notices[i + 1..];
        var n := notices[i].notice;
        if n.id == "" { continue; }
        match n.kind {
          case Awaiting => pending := pending + {n.id};
          case Decided => pending := pending - {n.id};
          case Unavailable => pending := pending - {n.id};
          case OtherKind =>
        }
      }
    }
  }

  /** One turn of noticeTailer.run on an answered poll. */
  method TailOnce(feed: NoticeFeed, waits: ApprovalWaits, after: nat, shown: seq<Entry>, lost: nat)
    returns (after': nat, shown': seq<Entry>, lost': nat)
    modifies waits
    ensures Tailer(feed.F(), after', shown', lost', waits.pending) ==
            Next(Tailer(feed.F(), after, shown, lost, old(waits.pending)), Polled)
  {
    var notices, next, dropped := feed.SinceCursor(after);
    waits.ObserveAnswer(notices, dropped);
    shown', lost' := shown + notices, lost + dropped;
    after' := if next > after then next else after;
  }
}
