/** The loops of data-plane/cmd/agent/state_archive.go, each against its function. */
module StateFiles {
  import opened Wrappers
  import opened Bytes
  import opened Paths
  import opened StateTree
  import opened StateExtract
  import opened StateArchive
  import opened StateRestore

  // ------------------------------------------------------- ensureSafeClaudeParents

  lemma {:induction false} ParentErrorStands(t: Tree, p: Path, n: nat)
    requires n <= |p| && EnsureParents(t, p[..n]).Err?
    ensures EnsureParents(t, p) == EnsureParents(t, p[..n])
    decreases |p|
  {
    if n == |p| {
      assert p[..n] == p;
    } else {
      assert Parent(p)[..n] == p[..n];
      ParentErrorStands(t, Parent(p), n);
    }
  }

  method EnsureSafeParents(t: Tree, relParent: Path) returns (u: Tree, err: Option<Failure>)
    ensures match EnsureParents(t, relParent)
      case Ok(v) => err.None? && u == v
      case Err(f) => err == Some(f)
  {
    u, err := t, None;
    assert relParent[..0] == [];
    match EnsureRoot(t) {
      case Err(f) =>
        ParentErrorStands(t, relParent, 0);
        return t, Some(f);
      case Ok(v) => u := v;
    }
    for i := 0 to |relParent|
      invariant EnsureParents(t, relParent[..i]) == Ok(u)
    {
      var current := relParent[..i + 1];
      assert Parent(current) == relParent[..i];
      match EnsureDir(u, current) {
        case Err(f) =>
          ParentErrorStands(t, relParent, i + 1);
          return u, Some(f);
        case Ok(v) => u := v;
      }
    }
    assert relParent[..|relParent|] == relParent;
  }

  // ------------------------------------------------------------------- archiveTree

  lemma ArchiveSnoc(done: seq<Entry>, e: Entry, rest: seq<Entry>)
    ensures (done + [e]) + rest == done + ([e] + rest)
  {
  }

  method ArchiveLoop(w: Walked, prefix: Name, skip: set<Path>, count0: nat)
    returns (entries: seq<Entry>, count: nat, err: Option<Failure>)
    requires forall p :: p in w.order ==> p in w.tree
    ensures match ArchiveTree(w.tree, w.order, prefix, skip, count0)
      case Ok(a) => err.None? && entries == a.entries && count == a.count
      case Err(f) => err == Some(f)
  {
    entries, count, err := [], count0, None;
    ghost var whole := ArchiveTree(w.tree, w.order, prefix, skip, count0);
    assert w.order[0..] == w.order;
    if whole.Ok? { assert [] + whole.value.entries == whole.value.entries; }
    var i := 0;
    while i < |w.order|
      invariant i <= |w.order|
      invariant forall p :: p in w.order[i..] ==> p in w.tree
      invariant match ArchiveTree(w.tree, w.order[i..], prefix, skip, count)
        case Err(f) => whole == Err(f)
        case Ok(a) => whole == Ok(Archived(entries + a.entries, a.count))
    {
      var p := w.order[i];
      assert p in w.order[i..] && w.order[i..][1..] == w.order[i + 1..];
      assert forall q :: q in w.order[i + 1..] ==> q in w.order;
      var node := w.tree[p];
      i := i + 1;
      if p in skip && node.File? { continue; }
      count := count + 1;
      if count > MAX_ENTRIES { return entries, count, Some(TooMany); }
      if node.Special? { return entries, count, Some(Unsupported); }
      if node.Link? {
        var ok := ValidateSymlink(p, node.target);
        if !ok { return entries, count, Some(BadLink); }
      }
      if |Join([prefix] + p)| > MAX_PATH || (node.Link? && |node.target| > MAX_PATH) {
        return entries, count, Some(TooLong);
      }
      ghost var rest := ArchiveTree(w.tree, w.order[i..], prefix, skip, count);
      if rest.Ok? { ArchiveSnoc(entries, EntryOf(prefix, p, node), rest.value.entries); }
      entries := entries + [EntryOf(prefix, p, node)];
    }
  }

  // ------------------------------------------------- the loop of restoreStateArchive

  class Extraction {
    var state: Tree
    var shared: Tree
    var scrollback: Option<Bytes>
    var sawState: bool
    var sawShared: bool
    var seenEntries: set<Path>
    var dirModes: seq<DirMode>
    var entryCount: nat

    function S(): Staging
      reads this
    {
      Staging(state, shared, scrollback, sawState, sawShared, seenEntries, dirModes, entryCount)
    }

    constructor ()
      ensures S() == EMPTY
    {
      state, shared, scrollback, sawState, sawShared := map[], map[], None, false, false;
      seenEntries, dirModes, entryCount := {}, [], 0;
    }

    /** extractClaudeStateEntry */
    method ExtractEntry(e: Entry, isShared: bool, rel: Path) returns (err: Option<Failure>)
      modifies this
      ensures match TakeNode(old(S()), e, isShared, rel)
        case Ok(next) => err.None? && S() == next
        case Err(f) => err == Some(f)
    {
      if isShared { sawShared := true; } else { sawState := true; }
      if rel == [] && e.kind != Directory { return Some(RootNotDirectory); }
      var t := if isShared then shared else state;
      if rel != [] {
        t, err := EnsureSafeParents(t, Parent(rel));
        if err.Some? { return err; }
      }
      var put := if rel == [] then EnsureRoot(t) else Put(t, e, rel);
      if put.Err? { return Some(put.error); }
      if isShared { shared := put.value; } else { state := put.value; }
      if e.kind == Directory { dirModes := dirModes + [DirMode(isShared, rel, e.perm)]; }
      return None;
    }

    method TakeEntry(e: Entry) returns (err: Option<Failure>)
      modifies this
      ensures match Take(old(S()), e)
        case Ok(next) => err.None? && S() == next
        case Err(f) => err == Some(f)
    {
      entryCount := entryCount + 1;
      if entryCount > MAX_ENTRIES { return Some(TooMany); }
      if |e.name| > MAX_PATH || |e.link| > MAX_PATH { return Some(TooLong); }
      var clean := CleanArchiveName(e.name);
      if clean.Err? { return Some(BadName); }
      var name := clean.value;
      if name in seenEntries { return Some(DuplicateEntry); }
      if name == [] { return Some(BadName); }
      seenEntries := seenEntries + {name};
      if name == [SCROLLBACK] {
        if scrollback.Some? { return Some(DuplicateEntry); }
        if e.kind != Regular { return Some(ScrollbackNotFile); }
        if |e.data| > MAX_SCROLLBACK { return Some(ScrollbackTooLarge); }
        scrollback := Some(e.data);
        return None;
      }
      if name[0] != STATE && name[0] != SHARED { return Some(Unexpected); }
      err := ExtractEntry(e, name[0] == SHARED, name[1..]);
    }

    method Run(entries: seq<Entry>) returns (err: Option<Failure>)
      modifies this
      ensures match TakeAll(old(S()), entries)
        case Ok(next) => err.None? && S() == next
        case Err(f) => err == Some(f)
    {
      ghost var whole := TakeAll(S(), entries);
      var i := 0;
      while i < |entries|
        invariant i <= |entries| && TakeAll(S(), entries[i..]) == whole
      {
        assert entries[i..][0] == entries[i] && entries[i..][1..] == entries[i + 1..];
        err := TakeEntry(entries[i]);
        if err.Some? { return err; }
        i := i + 1;
      }
      return None;
    }
  }

  // ------------------------------------------------------------------ copyRestoredTree

  method CopyLoop(target: Tree, staged: Walked) returns (t: Tree, err: Option<Failure>)
    requires forall p :: p in staged.order ==> p in staged.tree
    ensures match CopyNodes(target, staged.tree, staged.order)
      case Ok(u) => err.None? && t == u
      case Err(f) => err == Some(f)
  {
    t, err := target, None;
    var i := 0;
    while i < |staged.order|
      invariant i <= |staged.order| && forall p :: p in staged.order[i..] ==> p in staged.tree
      invariant err.None?
      invariant CopyNodes(t, staged.tree, staged.order[i..]) == CopyNodes(target, staged.tree, staged.order)
    {
      var p := staged.order[i];
      assert p in staged.order[i..] && staged.order[i..][1..] == staged.order[i + 1..];
      i := i + 1;
      if p == [] { continue; }
      ghost var before := t;
      var u;
      u, err := EnsureSafeParents(t, Parent(p));
      if err.Some? { return t, err; }
      var node := staged.tree[p];
      if node.Dir? {
        var made := EnsureDir(u, p);
        if made.Err? { return u, Some(made.error); }
        t := made.value;
      } else if node.Special? {
        return u, Some(Unsupported);
      } else {
        var cleared := RemoveIfNotDir(u, p);
        if cleared.Err? { return u, Some(cleared.error); }
        if !CanMake(cleared.value, p) { return cleared.value, Some(Denied); }
        t := cleared.value[p := node];
      }
      assert CopyOne(before, staged.tree, p) == Ok(t);
    }
  }

  // ---------------------------------------------------------------- installClaudeState

  class StateDir {
    var target: Option<Tree>
    var backup: Option<Tree>

    constructor (target: Option<Tree>)
      ensures this.target == target && backup.None?
    {
      this.target, backup := target, None;
    }

    method InstallStaged(staged: Tree, f: Faults) returns (ok: bool)
      requires backup.None?
      modifies this
      ensures Installed(target, ok) == Install(old(target), staged, f)
      ensures old(target).Some? && target != old(target) && !ok ==> backup == old(target)
    {
      if f.stat || !IsDir(staged, []) { return false; }
      var moved := target.Some?;
      if moved {
        if f.aside { return false; }
        target, backup := None, target;
      }
      if f.install {
        if moved && !f.rollBack { target, backup := backup, None; }
        return false;
      }
      target := Some(staged);
      if moved {
        if f.cleanUp { return false; }
        backup := None;
      }
      return true;
    }
  }
}
