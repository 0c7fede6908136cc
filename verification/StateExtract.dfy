/** Writing a state tree entry by entry (extractClaudeStateEntry, ensureSafeClaudeParents
    and the entry loop of restoreStateArchive, data-plane/cmd/agent/state_archive.go). */
module StateExtract {
  import opened Wrappers
  import opened Bytes
  import opened Paths
  import opened StateTree

  datatype Failure =
    | BadName | DuplicateEntry | TooMany | TooLong | Unexpected | Unsupported | BadLink | RootNotDirectory
    | ScrollbackNotFile | ScrollbackTooLarge
    | NotDirectory | Exists | Denied
    | Missing | NoSharedVolume | Invalid

  type Outcome<T> = Result<T, Failure>

  const MAX_ENTRIES: nat := 200000
  const MAX_PATH: nat := 4096
  const MAX_SCROLLBACK: nat := 256 * 1024 * 1024

  /** 0o700: what every directory has until all of its children exist. */
  const PRIVATE: nat := 0x1c0

  predicate Searchable(perm: nat) { perm / 64 % 2 == 1 }

  predicate Writable(perm: nat) { perm / 128 % 2 == 1 }

  /** Every directory down to p, p included, is a real one the agent may search. */
  predicate Reach(t: Tree, p: Path)
    decreases |p|
  {
    IsDir(t, p) && Searchable(t[p].perm) && (p == [] || Reach(t, Parent(p)))
  }

  /** p may be created or removed: its parents are real directories, so it stands where it says. */
  predicate CanMake(t: Tree, p: Path) { p != [] && Reach(t, Parent(p)) && Writable(t[Parent(p)].perm) }

  // ------------------------------------------------------ ensureSafeClaudeParents

  function EnsureRoot(t: Tree): Outcome<Tree> {
    if [] !in t then Ok(t[[] := Dir(PRIVATE)]) else if t[[]].Dir? then Ok(t) else Err(NotDirectory)
  }

  function EnsureDir(t: Tree, p: Path): Outcome<Tree>
    requires p != []
  {
    if !Reach(t, Parent(p)) then Err(Denied)
    else if p in t then if t[p].Dir? then Ok(t) else Err(NotDirectory)
    else if CanMake(t, p) then Ok(t[p := Dir(PRIVATE)])
    else Err(Denied)
  }

  function EnsureParents(t: Tree, p: Path): Outcome<Tree>
    decreases |p|
  {
    if p == [] then EnsureRoot(t)
    else
      match EnsureParents(t, Parent(p))
      case Err(e) => Err(e)
      case Ok(u) => EnsureDir(u, p)
  }

  // --------------------------------------------------------------------- entries

  datatype Kind = Regular | Directory | Symlink | OtherKind

  datatype Entry = Entry(name: string, kind: Kind, link: string, perm: nat, data: Bytes)

  /** extractClaudeStateEntry, below the tree's root. */
  function ExtractAt(t: Tree, e: Entry, rel: Path): Outcome<Tree> {
    if rel == [] then
      if e.kind != Directory then Err(RootNotDirectory) else EnsureRoot(t)
    else
      match EnsureParents(t, Parent(rel))
      case Err(f) => Err(f)
      case Ok(u) => Put(u, e, rel)
  }

  function Put(t: Tree, e: Entry, rel: Path): Outcome<Tree>
    requires rel != []
  {
    match e.kind
    case Directory => EnsureDir(t, rel)
    case Regular => if rel in t then Err(Exists) else if !CanMake(t, rel) then Err(Denied) else Ok(t[rel := File(e.perm, e.data)])
    case Symlink =>
      if !SafeSymlink(rel, e.link) then Err(BadLink)
      else if rel in t then Err(Exists)
      else if !CanMake(t, rel) then Err(Denied)
      else Ok(t[rel := Link(e.link)])
    case OtherKind => Err(Unsupported)
  }

  datatype DirMode = DirMode(shared: bool, path: Path, perm: nat)

  /** The staging directory and what the loop remembers. */
  datatype Staging = Staging(state: Tree, shared: Tree, scrollback: Option<Bytes>, sawState: bool, sawShared: bool,
                             seen: set<Path>, modes: seq<DirMode>, count: nat)

  const EMPTY := Staging(map[], map[], None, false, false, {}, [], 0)

  const SCROLLBACK: Name := "scrollback"
  const STATE: Name := "state"
  const SHARED: Name := "shared"

  function TakeScrollback(s: Staging, e: Entry): Outcome<Staging> {
    if s.scrollback.Some? then Err(DuplicateEntry)
    else if e.kind != Regular then Err(ScrollbackNotFile)
    else if |e.data| > MAX_SCROLLBACK then Err(ScrollbackTooLarge)
    else Ok(s.(scrollback := Some(e.data)))
  }

  function TakeNode(s: Staging, e: Entry, shared: bool, rel: Path): Outcome<Staging> {
    match ExtractAt(if shared then s.shared else s.state, e, rel)
    case Err(f) => Err(f)
    case Ok(t) =>
      var saw := if shared then s.(sawShared := true, shared := t) else s.(sawState := true, state := t);
      Ok(if e.kind == Directory then saw.(modes := s.modes + [DirMode(shared, rel, e.perm)]) else saw)
  }

  /** One turn of the entry loop. */
  function Take(s: Staging, e: Entry): Outcome<Staging> {
    if s.count + 1 > MAX_ENTRIES then Err(TooMany)
    else if |e.name| > MAX_PATH || |e.link| > MAX_PATH then Err(TooLong)
    else
      match CleanArchiveName(e.name)
      case Err(_) => Err(BadName)
      case Ok(name) =>
        if name in s.seen then Err(DuplicateEntry)
        else if name == [] then Err(BadName)
        else
          var counted := s.(count := s.count + 1, seen := s.seen + {name});
          if name == [SCROLLBACK] then TakeScrollback(counted, e)
          else if name[0] == STATE then TakeNode(counted, e, false, name[1..])
          else if name[0] == SHARED then TakeNode(counted, e, true, name[1..])
          else Err(Unexpected)
  }

  function TakeAll(s: Staging, entries: seq<Entry>): Outcome<Staging>
    decreases |entries|
  {
    if entries == [] then Ok(s)
    else
      match Take(s, entries[0])
      case Err(f) => Err(f)
      case Ok(next) => TakeAll(next, entries[1..])
  }

  // -------------------------------------------- what any accepted archive leaves

  ghost predicate AllPrivate(t: Tree) { forall p :: p in t && t[p].Dir? ==> t[p].perm == PRIVATE }

  ghost predicate Sane(t: Tree) { WellFormed(t) && LinksSafe(t) && AllPrivate(t) }

  lemma EmptyIsSane()
    ensures Sane(map[])
  {
  }

  lemma EnsureDirSane(t: Tree, p: Path)
    requires Sane(t) && p != [] && NormalPath(p) && EnsureDir(t, p).Ok?
    ensures Sane(EnsureDir(t, p).value) && IsDir(EnsureDir(t, p).value, p)
  {
  }

  lemma {:induction false} EnsureParentsSane(t: Tree, p: Path)
    requires Sane(t) && NormalPath(p) && EnsureParents(t, p).Ok?
    ensures Sane(EnsureParents(t, p).value) && IsDir(EnsureParents(t, p).value, p)
    decreases |p|
  {
    if p != [] {
      assert forall c :: c in Parent(p) ==> c in p;
      EnsureParentsSane(t, Parent(p));
      EnsureDirSane(EnsureParents(t, Parent(p)).value, p);
    }
  }

  lemma PutSane(t: Tree, e: Entry, rel: Path)
    requires Sane(t) && rel != [] && NormalPath(rel) && IsDir(t, Parent(rel)) && Put(t, e, rel).Ok?
    ensures Sane(Put(t, e, rel).value)
  {
    match e.kind {
      case Directory => EnsureDirSane(t, rel);
      case Regular => AddSane(t, rel, File(e.perm, e.data));
      case Symlink => AddSane(t, rel, Link(e.link));
      case OtherKind =>
    }
  }

  lemma AddSane(t: Tree, p: Path, node: Node)
    requires Sane(t) && p != [] && NormalPath(p) && IsDir(t, Parent(p)) && p !in t
    requires !node.Dir? && (node.Link? ==> SafeSymlink(p, node.target))
    ensures Sane(t[p := node])
  {
    var u := t[p := node];
    forall q | q in u && q != []
      ensures IsDir(u, Parent(q))
    {
      if q != p { assert IsDir(t, Parent(q)); }
    }
  }

  lemma ExtractSane(t: Tree, e: Entry, rel: Path)
    requires Sane(t) && NormalPath(rel) && ExtractAt(t, e, rel).Ok?
    ensures Sane(ExtractAt(t, e, rel).value)
  {
    if rel != [] {
      assert forall c :: c in Parent(rel) ==> c in rel;
      EnsureParentsSane(t, Parent(rel));
      PutSane(EnsureParents(t, Parent(rel)).value, e, rel);
    }
  }

  lemma TakeSane(s: Staging, e: Entry)
    requires Sane(s.state) && Sane(s.shared) && Take(s, e).Ok?
    ensures Sane(Take(s, e).value.state) && Sane(Take(s, e).value.shared)
  {
    CleanArchiveNameMeans(e.name);
    var name := CleanArchiveName(e.name).value;
    assert forall c :: c in name[1..] ==> c in name;
    if name != [SCROLLBACK] {
      ExtractSane(if name[0] == STATE then s.state else s.shared, e, name[1..]);
    }
  }

  /** Whatever the archive holds, an accepted one leaves well-formed trees whose links
      are all safe, so StateTree.PathsStayInside applies to them. */
  lemma {:induction false} AcceptedIsSane(s: Staging, entries: seq<Entry>)
    requires Sane(s.state) && Sane(s.shared) && TakeAll(s, entries).Ok?
    ensures Sane(TakeAll(s, entries).value.state) && Sane(TakeAll(s, entries).value.shared)
    decreases |entries|
  {
    if entries != [] {
      TakeSane(s, entries[0]);
      AcceptedIsSane(Take(s, entries[0]).value, entries[1..]);
    }
  }

  /** One refused entry refuses the archive. */
  lemma {:induction false} BadEntryRefuses(s: Staging, entries: seq<Entry>, i: nat)
    requires i < |entries| && CleanArchiveName(entries[i].name).Err?
    ensures TakeAll(s, entries).Err?
    decreases |entries|
  {
    if i > 0 && Take(s, entries[0]).Ok? {
      BadEntryRefuses(Take(s, entries[0]).value, entries[1..], i - 1);
    }
  }

  lemma {:induction false} TakeAllAppend(s: Staging, a: seq<Entry>, b: seq<Entry>)
    ensures TakeAll(s, a + b) == match TakeAll(s, a) case Err(f) => Err(f) case Ok(next) => TakeAll(next, b)
    decreases |a|
  {
    if a == [] {
      assert a + b == b;
    } else {
      assert (a + b)[1..] == a[1..] + b;
      if Take(s, a[0]).Ok? { TakeAllAppend(Take(s, a[0]).value, a[1..], b); }
    }
  }

  /** In a sane tree every real directory can be reached and written into, so its
      parents need nothing done. */
  lemma {:induction false} SaneReach(t: Tree, p: Path)
    requires WellFormed(t) && AllPrivate(t) && IsDir(t, p)
    ensures Reach(t, p) && Writable(t[p].perm) && EnsureParents(t, p) == Ok(t)
    decreases |p|
  {
    if p != [] { SaneReach(t, Parent(p)); }
  }
}
