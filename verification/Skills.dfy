/** The managed skills of a Codex session: syncCodexSkills (data-plane/cmd/agent/codex_skills.go)
    and the pending change note (data-plane/cmd/agent/codex_plugin_refresh.go). */
module Skills {
  import opened Wrappers
  import opened Bytes

  type Name = string

  type RelPath = string

  /** A skill of the seed: its files by relative path. */
  type Skill = map<RelPath, Bytes>

  datatype FileNode = Regular(content: Bytes) | Irregular

  /** What stands under a name in the skills directory; the marker file is `managed`. */
  datatype Node = NotDirectory | Folder(managed: bool, files: map<RelPath, FileNode>)

  type Skillset = map<Name, Node>

  predicate UserOwned(d: Skillset, n: Name) { n in d && !(d[n].Folder? && d[n].managed) }

  predicate Managed(d: Skillset, n: Name) { n in d && d[n].Folder? && d[n].managed }

  function Installed(skill: Skill): map<RelPath, FileNode> { map p | p in skill :: Regular(skill[p]) }

  /** The directory after a sync to the seed. */
  function Synced(d: Skillset, seed: map<Name, Skill>): Skillset {
    map n | n in d.Keys + seed.Keys && (UserOwned(d, n) || n in seed) ::
      if UserOwned(d, n) then d[n] else Folder(true, Installed(seed[n]))
  }

  datatype Change = Added | Updated | Removed

  function ChangeOf(d: Skillset, seed: map<Name, Skill>, n: Name): Option<Change> {
    if UserOwned(d, n) then None
    else if n in seed then
      if n !in d then Some(Added) else if d[n].files == Installed(seed[n]) then None else Some(Updated)
    else if n in d then Some(Removed)
    else None
  }

  /** After a sync the managed skills are the seed less the names the user took, with
      the seed's files; what the user put there is untouched. */
  lemma SyncMeans(d: Skillset, seed: map<Name, Skill>, n: Name)
    ensures var s := Synced(d, seed);
      && (Managed(s, n) <==> n in seed && !UserOwned(d, n))
      && (Managed(s, n) ==> s[n].files == Installed(seed[n]))
      && (UserOwned(s, n) <==> UserOwned(d, n))
      && (UserOwned(d, n) ==> s[n] == d[n])
      && (ChangeOf(d, seed, n) == Some(Added) <==> !Managed(d, n) && Managed(s, n))
      && (ChangeOf(d, seed, n) == Some(Removed) <==> Managed(d, n) && !Managed(s, n))
      && (ChangeOf(d, seed, n) == Some(Updated) <==> Managed(d, n) && Managed(s, n) && d[n] != s[n])
  {
  }

  lemma SyncTwice(d: Skillset, seed: map<Name, Skill>)
    ensures Synced(Synced(d, seed), seed) == Synced(d, seed)
    ensures forall n :: ChangeOf(Synced(d, seed), seed, n).None?
  {
    forall n
      ensures ChangeOf(Synced(d, seed), seed, n).None?
    {
      SyncMeans(d, seed, n);
    }
  }

  // -------------------------------------------------------------- the pending note

  /** foldCodexSkillChange */
  function Fold(earlier: Option<Change>, later: Change): Option<Change> {
    if earlier.None? then Some(later)
    else if earlier == Some(Added) && later == Removed then None
    else if earlier == Some(Added) then Some(Added)
    else if earlier == Some(Removed) && later == Added then Some(Updated)
    else Some(later)
  }

  type Record = map<Name, Change>

  function Noted(r: Record, n: Name): Option<Change> { if n in r then Some(r[n]) else None }

  /** The record after one sync's changes. */
  ghost predicate Recorded(r: Record, d: Skillset, seed: map<Name, Skill>, next: Record) {
    forall n :: Noted(next, n) ==
                match ChangeOf(d, seed, n) case None => Noted(r, n) case Some(c) => Fold(Noted(r, n), c)
  }

  /** The note compared with the directory as the conversation last saw it. */
  ghost predicate Tells(r: Record, before: Skillset, now: Skillset) {
    forall n ::
      && (Noted(r, n) == Some(Added) <==> !Managed(before, n) && Managed(now, n))
      && (Noted(r, n) == Some(Removed) <==> Managed(before, n) && !Managed(now, n))
      && (Noted(r, n).None? ==> Managed(before, n) == Managed(now, n) && (Managed(now, n) ==> before[n] == now[n]))
  }

  lemma SyncTells(r: Record, before: Skillset, d: Skillset, seed: map<Name, Skill>, next: Record)
    requires Tells(r, before, d) && Recorded(r, d, seed, next)
    ensures Tells(next, before, Synced(d, seed))
  {
    forall n
      ensures
        && (Noted(next, n) == Some(Added) <==> !Managed(before, n) && Managed(Synced(d, seed), n))
        && (Noted(next, n) == Some(Removed) <==> Managed(before, n) && !Managed(Synced(d, seed), n))
        && (Noted(next, n).None? ==> Managed(before, n) == Managed(Synced(d, seed), n) &&
                                     (Managed(Synced(d, seed), n) ==> before[n] == Synced(d, seed)[n]))
    {
      SyncMeans(d, seed, n);
      FoldTells(r, before, d, n);
    }
  }

  lemma FoldTells(r: Record, before: Skillset, d: Skillset, n: Name)
    requires Tells(r, before, d)
    ensures Noted(r, n) == Some(Added) <==> !Managed(before, n) && Managed(d, n)
    ensures Noted(r, n) == Some(Removed) <==> Managed(before, n) && !Managed(d, n)
    ensures Noted(r, n).None? ==> Managed(before, n) == Managed(d, n) && (Managed(d, n) ==> before[n] == d[n])
  {
  }

  function RunSyncs(d: Skillset, seeds: seq<map<Name, Skill>>): Skillset
    decreases |seeds|
  {
    if seeds == [] then d else RunSyncs(Synced(d, seeds[0]), seeds[1..])
  }

  /** records[i] is the note after i syncs. */
  ghost predicate Notes(records: seq<Record>, d: Skillset, seeds: seq<map<Name, Skill>>)
    decreases |seeds|
  {
    && |records| == |seeds| + 1
    && (seeds != [] ==> Recorded(records[0], d, seeds[0], records[1]) && Notes(records[1..], Synced(d, seeds[0]), seeds[1..]))
  }

  lemma {:induction false} NotesTell(records: seq<Record>, before: Skillset, d: Skillset, seeds: seq<map<Name, Skill>>)
    requires Notes(records, d, seeds) && Tells(records[0], before, d)
    ensures Tells(records[|seeds|], before, RunSyncs(d, seeds))
    decreases |seeds|
  {
    if seeds != [] {
      SyncTells(records[0], before, d, seeds[0], records[1]);
      NotesTell(records[1..], before, Synced(d, seeds[0]), seeds[1..]);
    }
  }

  /** Over any syncs since the note was last cleared: it says added or removed exactly
      when presence differs, and an unmentioned skill is the same, byte for byte. */
  lemma NoteIsTrue(records: seq<Record>, d: Skillset, seeds: seq<map<Name, Skill>>)
    requires Notes(records, d, seeds) && records[0] == map[]
    ensures Tells(records[|seeds|], d, RunSyncs(d, seeds))
  {
    NotesTell(records, d, d, seeds);
  }

  // -------------------------------------------------------------------- the loops

  /** codexSkillMatches: the walk may visit the installed files in any order. */
  method Matches(files: map<RelPath, FileNode>, skill: Skill) returns (same: bool)
    ensures same == (files == Installed(skill))
  {
    var todo := files.Keys;
    var found := 0;
    ghost var seen: set<RelPath> := {};
    while todo != {}
      invariant seen !! todo && seen + todo == files.Keys && found == |seen|
      invariant forall p :: p in seen ==> p in skill && files[p] == Regular(skill[p])
      decreases |todo|
    {
      var rel :| rel in todo;
      if rel !in skill || files[rel].Irregular? || files[rel].content != skill[rel] {
        Differs(files, skill, rel);
        return false;
      }
      todo := todo - {rel};
      seen := seen + {rel};
      found := found + 1;
    }
    AllFound(files, skill);
    return found == |skill|;
  }

  lemma Differs(files: map<RelPath, FileNode>, skill: Skill, rel: RelPath)
    requires rel in files && (rel !in skill || files[rel] != Regular(skill[rel]))
    ensures files != Installed(skill)
  {
    if rel in skill {
      assert Installed(skill)[rel] == Regular(skill[rel]);
    } else {
      assert rel !in Installed(skill);
    }
  }

  lemma AllFound(files: map<RelPath, FileNode>, skill: Skill)
    requires forall p :: p in files ==> p in skill && files[p] == Regular(skill[p])
    ensures |files.Keys| == |skill| <==> files == Installed(skill)
  {
    SameCount(files.Keys, skill.Keys);
    assert |skill| == |skill.Keys|;
    if files == Installed(skill) { assert skill.Keys <= files.Keys; }
  }

  lemma {:induction false} SameCount<T>(a: set<T>, b: set<T>)
    requires a <= b
    ensures |a| == |b| <==> a == b
    decreases |a|
  {
    if a != {} {
      var x :| x in a;
      SameCount(a - {x}, b - {x});
      assert b == (b - {x}) + {x} && a == (a - {x}) + {x};
    }
  }

  function Changed(d: Skillset, seed: map<Name, Skill>, c: Change): set<Name> {
    set n | n in d.Keys + seed.Keys && ChangeOf(d, seed, n) == Some(c)
  }

  /** The directory while the second loop runs: `left` are the names to come. */
  ghost predicate Installing(now: Skillset, d: Skillset, seed: map<Name, Skill>, left: set<Name>) {
    && (forall n :: n in left || n !in seed ==> (n in now <==> n in d) && (n in d ==> n in now && now[n] == d[n]))
    && (forall n :: n in seed && n !in left ==> n in now && now[n] == Synced(d, seed)[n])
  }

  lemma InstallStart(d: Skillset, seed: map<Name, Skill>)
    ensures Installing(d, d, seed, seed.Keys)
    ensures Changed(d, seed, Added) - seed.Keys == {} && Changed(d, seed, Updated) - seed.Keys == {}
  {
  }

  lemma InstallEnd(now: Skillset, d: Skillset, seed: map<Name, Skill>)
    requires Installing(now, d, seed, {}) && forall n :: Managed(d, n) ==> n in seed
    ensures now == Synced(d, seed)
  {
  }

  /** The second loop leaves n alone: the user's, or already the seed's. */
  predicate LeftAlone(d: Skillset, seed: map<Name, Skill>, n: Name)
    requires n in seed
  {
    UserOwned(d, n) || (n in d && d[n].files == Installed(seed[n]))
  }

  /** What one turn of the second loop finds and should leave. */
  lemma InstallStep(now: Skillset, d: Skillset, seed: map<Name, Skill>, left: set<Name>, n: Name)
    requires Installing(now, d, seed, left) && n in left && left <= seed.Keys
    ensures n in now <==> n in d
    ensures n in d ==> now[n] == d[n]
    ensures Installing(if LeftAlone(d, seed, n) then now else now[n := Folder(true, Installed(seed[n]))], d, seed, left - {n})
  {
  }

  lemma CountStep(d: Skillset, seed: map<Name, Skill>, left: set<Name>, n: Name)
    requires n in left && left <= seed.Keys
    ensures Changed(d, seed, Added) - (left - {n}) ==
            (Changed(d, seed, Added) - left) + if !LeftAlone(d, seed, n) && n !in d then {n} else {}
    ensures Changed(d, seed, Updated) - (left - {n}) ==
            (Changed(d, seed, Updated) - left) + if !LeftAlone(d, seed, n) && n in d then {n} else {}
  {
    hide Changed;
    InChanged(d, seed, n);
  }

  lemma InChanged(d: Skillset, seed: map<Name, Skill>, n: Name)
    requires n in seed
    ensures n in Changed(d, seed, Added) <==> !LeftAlone(d, seed, n) && n !in d
    ensures n in Changed(d, seed, Updated) <==> !LeftAlone(d, seed, n) && n in d
  {
  }

  class SkillsDirectory {
    var nodes: Skillset

    constructor (nodes: Skillset)
      ensures this.nodes == nodes
    {
      this.nodes := nodes;
    }

    /** The first loop: stale managed skills go. */
    method RemoveStale(seed: map<Name, Skill>) returns (removed: set<Name>)
      modifies this
      ensures nodes == Without(old(nodes), seed, old(nodes).Keys)
      ensures removed == Changed(old(nodes), seed, Removed)
    {
      hide Without;
      hide Changed;
      removed := {};
      ghost var before := nodes;
      var todo := nodes.Keys;
      WithoutStart(before, seed);
      while todo != {}
        invariant todo <= before.Keys
        invariant nodes == Without(before, seed, before.Keys - todo)
        invariant removed == Changed(before, seed, Removed) - todo
        decreases |todo|
      {
        var n :| n in todo;
        WithoutStep(before, seed, todo, n);
        if nodes[n].Folder? && nodes[n].managed && n !in seed {
          nodes := nodes - {n};
          removed := removed + {n};
        }
        todo := todo - {n};
      }
      assert before.Keys - {} == before.Keys;
    }

    /** The second loop: every seeded skill the user does not shadow is installed. */
    method InstallSeed(seed: map<Name, Skill>) returns (added: set<Name>, updated: set<Name>)
      requires forall n :: Managed(nodes, n) ==> n in seed
      modifies this
      ensures nodes == Synced(old(nodes), seed)
      ensures added == Changed(old(nodes), seed, Added) && updated == Changed(old(nodes), seed, Updated)
    {
      hide Changed;
      hide Installing;
      hide Synced;
      added, updated := {}, {};
      ghost var before := nodes;
      var todo := seed.Keys;
      InstallStart(before, seed);
      while todo != {}
        invariant todo <= seed.Keys && Installing(nodes, before, seed, todo)
        invariant added == Changed(before, seed, Added) - todo
        invariant updated == Changed(before, seed, Updated) - todo
        decreases |todo|
      {
        var n :| n in todo;
        InstallStep(nodes, before, seed, todo, n);
        CountStep(before, seed, todo, n);
        todo := todo - {n};
        if n in nodes && !(nodes[n].Folder? && nodes[n].managed) { continue; }
        if n in nodes {
          var same := Matches(nodes[n].files, seed[n]);
          if same { continue; }
          updated := updated + {n};
        } else {
          added := added + {n};
        }
        nodes := nodes[n := Folder(true, Installed(seed[n]))];
      }
      InstallEnd(nodes, before, seed);
    }

    method Sync(seed: map<Name, Skill>) returns (added: set<Name>, updated: set<Name>, removed: set<Name>)
      modifies this
      ensures nodes == Synced(old(nodes), seed)
      ensures added == Changed(old(nodes), seed, Added) && updated == Changed(old(nodes), seed, Updated)
      ensures removed == Changed(old(nodes), seed, Removed)
    {
      ghost var before := nodes;
      removed := RemoveStale(seed);
      StaleGone(before, seed);
      added, updated := InstallSeed(seed);
    }
  }

  /** The directory without the stale managed skills among `seen`. */
  function Without(d: Skillset, seed: map<Name, Skill>, seen: set<Name>): Skillset {
    map n | n in d && !(n in seen && Managed(d, n) && n !in seed) :: d[n]
  }

  lemma WithoutStart(d: Skillset, seed: map<Name, Skill>)
    ensures Without(d, seed, d.Keys - d.Keys) == d
    ensures Changed(d, seed, Removed) - d.Keys == {}
  {
  }

  lemma WithoutStep(d: Skillset, seed: map<Name, Skill>, todo: set<Name>, n: Name)
    requires n in todo && todo <= d.Keys
    ensures n in Without(d, seed, d.Keys - todo) && Without(d, seed, d.Keys - todo)[n] == d[n]
    ensures Without(d, seed, d.Keys - (todo - {n})) ==
            if Managed(d, n) && n !in seed then Without(d, seed, d.Keys - todo) - {n} else Without(d, seed, d.Keys - todo)
    ensures Changed(d, seed, Removed) - (todo - {n}) ==
            (Changed(d, seed, Removed) - todo) + if Managed(d, n) && n !in seed then {n} else {}
  {
  }

  lemma StaleGone(d: Skillset, seed: map<Name, Skill>)
    ensures var w := Without(d, seed, d.Keys);
      && (forall n :: Managed(w, n) ==> n in seed)
      && Synced(w, seed) == Synced(d, seed)
      && Changed(w, seed, Added) == Changed(d, seed, Added) && Changed(w, seed, Updated) == Changed(d, seed, Updated)
  {
  }

  /** One kind's inner loop of recordCodexSkillChanges. */
  method FoldNames(r: Record, names: set<Name>, kind: Change) returns (next: Record)
    ensures forall n :: Noted(next, n) == if n in names then Fold(Noted(r, n), kind) else Noted(r, n)
  {
    next := r;
    var todo := names;
    while todo != {}
      invariant todo <= names
      invariant forall n :: Noted(next, n) == if n in names - todo then Fold(Noted(r, n), kind) else Noted(r, n)
      decreases |todo|
    {
      var n :| n in todo;
      todo := todo - {n};
      var folded := Fold(Noted(next, n), kind);
      if folded.None? { next := next - {n}; } else { next := next[n := folded.value]; }
    }
  }

  /** recordCodexSkillChanges; Go visits the three kinds in any order, which cannot matter
      because no name is in two of them. */
  method RecordChanges(r: Record, ghost d: Skillset, ghost seed: map<Name, Skill>, order: (Change, Change, Change),
                       names: map<Change, set<Name>>) returns (next: Record)
    requires {order.0, order.1, order.2} == {Added, Updated, Removed} && names.Keys == {Added, Updated, Removed}
    requires forall c :: c in names ==> names[c] == Changed(d, seed, c)
    ensures Recorded(r, d, seed, next)
  {
    ThreeKinds(order);
    var one := FoldNames(r, names[order.0], order.0);
    var two := FoldNames(one, names[order.1], order.1);
    next := FoldNames(two, names[order.2], order.2);
    forall n
      ensures Noted(next, n) == match ChangeOf(d, seed, n) case None => Noted(r, n) case Some(c) => Fold(Noted(r, n), c)
    {
      var change := ChangeOf(d, seed, n);
      assert change.Some? ==> change.value in {order.0, order.1, order.2};
    }
  }

  lemma ThreeKinds(order: (Change, Change, Change))
    requires {order.0, order.1, order.2} == {Added, Updated, Removed}
    ensures order.0 != order.1 && order.1 != order.2 && order.0 != order.2
  {
    assert Added in {order.0, order.1, order.2} && Updated in {order.0, order.1, order.2} && Removed in {order.0, order.1, order.2};
  }
}
