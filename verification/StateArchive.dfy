/** writeStateArchiveExcluding and archiveTree against the extraction of
    restoreStateArchive (data-plane/cmd/agent/state_archive.go). A walk of a tree is any
    order that names every node once, parents first; filepath.WalkDir gives one. */
module StateArchive {
  import opened Wrappers
  import opened Bytes
  import opened Paths
  import opened StateTree
  import opened StateExtract

  // ---------------------------------------------------------------------- writing

  /** Files named in skip are left out; a directory or link of that name is not. */
  predicate Kept(t: Tree, p: Path, skip: set<Path>) {
    !(p in skip && p in t && t[p].File?)
  }

  function EntryOf(prefix: Name, p: Path, node: Node): Entry {
    var name := Join([prefix] + p);
    match node
    case Dir(perm) => Entry(name, Directory, "", perm, [])
    case File(perm, data) => Entry(name, Regular, "", perm, data)
    case Link(target) => Entry(name, Symlink, target, 0, [])
    case Special => Entry(name, OtherKind, "", 0, [])
  }

  datatype Archived = Archived(entries: seq<Entry>, count: nat)

  /** archiveTree over the rest of a walk. */
  function ArchiveTree(t: Tree, order: seq<Path>, prefix: Name, skip: set<Path>, count: nat): Outcome<Archived>
    requires forall p :: p in order ==> p in t
    decreases |order|
  {
    if order == [] then Ok(Archived([], count))
    else
      assert order[0] in order;
      var p, node, rest := order[0], t[order[0]], order[1..];
      if !Kept(t, p, skip) then ArchiveTree(t, rest, prefix, skip, count)
      else if count + 1 > MAX_ENTRIES then Err(TooMany)
      else if node.Special? then Err(Unsupported)
      else if node.Link? && !SafeSymlink(p, node.target) then Err(BadLink)
      else if |Join([prefix] + p)| > MAX_PATH || (node.Link? && |node.target| > MAX_PATH) then Err(TooLong)
      else
        match ArchiveTree(t, rest, prefix, skip, count + 1)
        case Err(f) => Err(f)
        case Ok(a) => Ok(Archived([EntryOf(prefix, p, node)] + a.entries, a.count))
  }

  predicate ParentsFirst(known: set<Path>, order: seq<Path>)
    decreases |order|
  {
    order == [] ||
    (order[0] !in known && (order[0] == [] || Parent(order[0]) in known) && ParentsFirst(known + {order[0]}, order[1..]))
  }

  ghost predicate WalkOrder(t: Tree, order: seq<Path>) {
    ParentsFirst({}, order) && forall p :: p in order <==> p in t
  }

  // ----------------------------------------------------- one entry, there and back

  /** A node as it stands in the staging directory before the last pass. */
  function Staged(node: Node): Node { if node.Dir? then Dir(PRIVATE) else node }

  function Prefix(shared: bool): Name { if shared then SHARED else STATE }

  /** A node's name in the archive. */
  function Under(shared: bool, p: Path): Path { [Prefix(shared)] + p }

  lemma UnderIsOneName(a: bool, p: Path, b: bool, q: Path)
    ensures Under(a, p) == Under(b, q) <==> a == b && p == q
  {
    assert Under(a, p)[0] == Prefix(a) && Under(b, q)[0] == Prefix(b);
    assert Under(a, p)[1..] == p && Under(b, q)[1..] == q;
  }

  function TreeOf(s: Staging, shared: bool): Tree { if shared then s.shared else s.state }

  function WithTree(s: Staging, shared: bool, t: Tree): Staging {
    if shared then s.(shared := t, sawShared := true) else s.(state := t, sawState := true)
  }

  /** What taking p's entry should do. */
  function LoadOne(s: Staging, t: Tree, shared: bool, p: Path): Staging
    requires p in t
  {
    var u := WithTree(s, shared, TreeOf(s, shared)[p := Staged(t[p])]);
    u.(count := s.count + 1, seen := s.seen + {Under(shared, p)},
       modes := s.modes + if t[p].Dir? then [DirMode(shared, p, t[p].perm)] else [])
  }

  /** Names seen under a prefix are nodes of that tree. */
  ghost predicate SeenFits(s: Staging, shared: bool) {
    forall q: Path :: Under(shared, q) in s.seen ==> q in TreeOf(s, shared)
  }

  predicate Backslashed(p: Path) { exists c :: c in p && '\\' in c }

  lemma PrefixedName(shared: bool, p: Path)
    requires NormalPath(p)
    ensures CleanArchiveName(Join([Prefix(shared)] + p)) ==
            if Backslashed(p) then Err(UnsafeName) else Ok(Under(shared, p))
  {
    var full := Under(shared, p);
    assert forall c :: c in full ==> c == Prefix(shared) || c in p;
    assert forall c :: c in p ==> c in full;
    JoinedName(full);
  }

  lemma ExtractLoads(u: Tree, t: Tree, prefix: Name, p: Path)
    requires Sane(u) && p in t && NormalPath(p) && p !in u && (p == [] || IsDir(u, Parent(p)))
    requires !t[p].Special? && (t[p].Link? ==> SafeSymlink(p, t[p].target)) && (p == [] ==> t[p].Dir?)
    ensures ExtractAt(u, EntryOf(prefix, p, t[p]), p) == Ok(u[p := Staged(t[p])])
  {
    if p != [] {
      SaneReach(u, Parent(p));
      assert CanMake(u, p);
    }
  }

  lemma TakeLoads(s: Staging, t: Tree, shared: bool, p: Path)
    requires p in t && NormalPath(p) && !Backslashed(p) && (p == [] ==> t[p].Dir?)
    requires Sane(TreeOf(s, shared)) && p !in TreeOf(s, shared) && (p == [] || IsDir(TreeOf(s, shared), Parent(p)))
    requires SeenFits(s, shared) && s.count + 1 <= MAX_ENTRIES
    requires !t[p].Special? && (t[p].Link? ==> SafeSymlink(p, t[p].target) && |t[p].target| <= MAX_PATH)
    requires |Join([Prefix(shared)] + p)| <= MAX_PATH
    ensures Take(s, EntryOf(Prefix(shared), p, t[p])) == Ok(LoadOne(s, t, shared, p))
  {
    hide CleanArchiveName;
    hide Join;
    hide Sane;
    hide SafeSymlink;
    var e := EntryOf(Prefix(shared), p, t[p]);
    PrefixedName(shared, p);
    ExtractLoads(TreeOf(s, shared), t, Prefix(shared), p);
    var name := Under(shared, p);
    assert name[0] == Prefix(shared) && name[1..] == p && name !in s.seen && name != [SCROLLBACK];
    var counted := s.(count := s.count + 1, seen := s.seen + {name});
    assert Take(s, e) == TakeNode(counted, e, shared, p);
    assert s.modes + [] == s.modes;
  }

  // --------------------------------------------------------------- one whole tree

  /** The staged part of t: the kept nodes among those known. */
  function Part(t: Tree, known: set<Path>, skip: set<Path>): Tree {
    map p | p in t && p in known && Kept(t, p, skip) :: Staged(t[p])
  }

  function Modes(t: Tree, order: seq<Path>, shared: bool): seq<DirMode>
    decreases |order|
  {
    if order == [] then []
    else (if IsDir(t, order[0]) then [DirMode(shared, order[0], t[order[0]].perm)] else []) + Modes(t, order[1..], shared)
  }

  ghost predicate Plain(t: Tree, order: seq<Path>, skip: set<Path>) {
    forall p :: p in order && Kept(t, p, skip) ==> !Backslashed(p)
  }

  /** The state the extraction has reached when `known` of t has come back. */
  ghost predicate Reached(s: Staging, t: Tree, shared: bool, known: set<Path>, skip: set<Path>) {
    TreeOf(s, shared) == Part(t, known, skip) && Sane(TreeOf(s, shared)) && SeenFits(s, shared)
  }

  lemma LoadReaches(s: Staging, t: Tree, shared: bool, known: set<Path>, skip: set<Path>, p: Path)
    requires WellFormed(t) && Reached(s, t, shared, known, skip) && p in t && Kept(t, p, skip)
    requires p == [] || Parent(p) in known
    requires !t[p].Special? && (t[p].Link? ==> SafeSymlink(p, t[p].target))
    ensures Reached(LoadOne(s, t, shared, p), t, shared, known + {p}, skip)
  {
    hide Sane;
    hide WellFormed;
    hide SafeSymlink;
    var u, v := TreeOf(s, shared), TreeOf(LoadOne(s, t, shared, p), shared);
    assert v == Part(t, known + {p}, skip);
    PartSane(t, known, skip, u, p);
    forall q: Path | Under(shared, q) in LoadOne(s, t, shared, p).seen
      ensures q in v
    {
      UnderIsOneName(shared, p, shared, q);
    }
  }

  lemma PartSane(t: Tree, known: set<Path>, skip: set<Path>, u: Tree, p: Path)
    requires WellFormed(t) && u == Part(t, known, skip) && Sane(u) && p in t && Kept(t, p, skip)
    requires p == [] || Parent(p) in known
    requires t[p].Link? ==> SafeSymlink(p, t[p].target)
    ensures Sane(u[p := Staged(t[p])])
  {
    var v := u[p := Staged(t[p])];
    if p != [] { assert IsDir(u, Parent(p)); }
    forall q | q in v && q != []
      ensures IsDir(v, Parent(q))
    {
      if q != p { assert IsDir(u, Parent(q)); }
    }
  }

  /** What the extraction of one tree changes and what it leaves. */
  ghost predicate Loaded(s: Staging, out: Staging, t: Tree, shared: bool, order: seq<Path>, skip: set<Path>) {
    && out.modes == s.modes + Modes(t, order, shared)
    && TreeOf(out, !shared) == TreeOf(s, !shared) && out.scrollback == s.scrollback
    && SawAfter(s, out, shared, exists p :: p in order && Kept(t, p, skip))
    && (SeenFits(s, !shared) ==> SeenFits(out, !shared))
  }

  lemma StepLoads(s: Staging, t: Tree, shared: bool, known: set<Path>, skip: set<Path>, p: Path)
    requires WellFormed(t) && Reached(s, t, shared, known, skip) && p in t && p !in known && Kept(t, p, skip)
    requires (p == [] || Parent(p) in known) && !Backslashed(p) && s.count + 1 <= MAX_ENTRIES
    requires !t[p].Special? && (t[p].Link? ==> SafeSymlink(p, t[p].target) && |t[p].target| <= MAX_PATH)
    requires |Join([Prefix(shared)] + p)| <= MAX_PATH
    ensures Take(s, EntryOf(Prefix(shared), p, t[p])) == Ok(LoadOne(s, t, shared, p))
    ensures Reached(LoadOne(s, t, shared, p), t, shared, known + {p}, skip)
    ensures Loaded(s, LoadOne(s, t, shared, p), t, shared, [p], skip)
  {
    hide Sane;
    hide SafeSymlink;
    hide Join;
    hide WellFormed;
    hide Loaded;
    NodeReady(s, t, shared, known, skip, p);
    TakeLoads(s, t, shared, p);
    LoadReaches(s, t, shared, known, skip, p);
    OneLoaded(s, t, shared, skip, p);
  }

  lemma OneLoaded(s: Staging, t: Tree, shared: bool, skip: set<Path>, p: Path)
    requires p in t && Kept(t, p, skip)
    ensures Loaded(s, LoadOne(s, t, shared, p), t, shared, [p], skip)
  {
    if SeenFits(s, !shared) { OtherSeen(s, t, shared, p); }
    assert [p][0] == p && [p][1..] == [];
    assert p in [p] && Kept(t, p, skip);
    assert Modes(t, [p], shared) == if t[p].Dir? then [DirMode(shared, p, t[p].perm)] else [];
  }

  lemma LoadedTwice(s: Staging, mid: Staging, out: Staging, t: Tree, shared: bool, order: seq<Path>, skip: set<Path>)
    requires order != [] && Loaded(s, mid, t, shared, [order[0]], skip) && Loaded(mid, out, t, shared, order[1..], skip)
    ensures Loaded(s, out, t, shared, order, skip)
  {
    assert [order[0]][1..] == [] && order == [order[0]] + order[1..];
    var p := order[0];
    assert (exists q :: q in [p] && Kept(t, q, skip)) <==> Kept(t, p, skip) by {
      assert p in [p];
    }
    assert forall q :: q in order <==> q == p || q in order[1..];
    assert Modes(t, [p], shared) + Modes(t, order[1..], shared) == Modes(t, order, shared);
    assert s.modes + (Modes(t, [p], shared) + Modes(t, order[1..], shared)) == mid.modes + Modes(t, order[1..], shared);
  }

  lemma SkipLoads(s: Staging, t: Tree, shared: bool, p: Path, skip: set<Path>)
    requires p in t && !Kept(t, p, skip)
    ensures Loaded(s, s, t, shared, [p], skip)
  {
    assert [p][1..] == [] && Modes(t, [p], shared) == [] && s.modes + [] == s.modes;
  }

  /** What the loop knows before each node of a walk. */
  ghost predicate Loadable(s: Staging, t: Tree, shared: bool, known: set<Path>, order: seq<Path>, skip: set<Path>) {
    && WellFormed(t) && Reached(s, t, shared, known, skip)
    && ParentsFirst(known, order) && (forall p :: p in order ==> p in t) && Plain(t, order, skip)
    && ArchiveTree(t, order, Prefix(shared), skip, s.count).Ok?
  }

  lemma FirstLoads(s: Staging, t: Tree, shared: bool, known: set<Path>, order: seq<Path>, skip: set<Path>)
    returns (mid: Staging)
    requires order != [] && Loadable(s, t, shared, known, order, skip)
    ensures Loadable(mid, t, shared, known + {order[0]}, order[1..], skip) && Loaded(s, mid, t, shared, [order[0]], skip)
    ensures var a, b := ArchiveTree(t, order, Prefix(shared), skip, s.count).value,
                        ArchiveTree(t, order[1..], Prefix(shared), skip, mid.count).value;
      TakeAll(s, a.entries) == TakeAll(mid, b.entries) && a.count == b.count
  {
    var p := order[0];
    ArchiveHead(t, order, Prefix(shared), skip, s.count);
    mid := s;
    if Kept(t, p, skip) {
      StepLoads(s, t, shared, known, skip, p);
      mid := LoadOne(s, t, shared, p);
    } else {
      SkipReaches(s, t, shared, known, skip, p);
      SkipLoads(s, t, shared, p, skip);
    }
    TakeAllHead(s, t, shared, order, skip, mid);
  }

  /** The extraction of a whole archived tree. */
  lemma {:induction false} TreeLoads(s: Staging, t: Tree, shared: bool, known: set<Path>, order: seq<Path>, skip: set<Path>)
    returns (out: Staging)
    requires Loadable(s, t, shared, known, order, skip)
    ensures var a := ArchiveTree(t, order, Prefix(shared), skip, s.count).value;
      && TakeAll(s, a.entries) == Ok(out) && out.count == a.count
    ensures Reached(out, t, shared, known + (set p | p in order), skip) && Loaded(s, out, t, shared, order, skip)
    decreases |order|
  {
    if order == [] {
      out := s;
      assert known + (set p | p in order) == known;
      assert s.modes + [] == s.modes;
    } else {
      var mid := FirstLoads(s, t, shared, known, order, skip);
      out := TreeLoads(mid, t, shared, known + {order[0]}, order[1..], skip);
      SetOfOrder(known, order);
      LoadedTwice(s, mid, out, t, shared, order, skip);
    }
  }

  /** What a successful archive says of the walk's first node. */
  lemma ArchiveHead(t: Tree, order: seq<Path>, prefix: Name, skip: set<Path>, count: nat)
    requires order != [] && (forall p :: p in order ==> p in t) && ArchiveTree(t, order, prefix, skip, count).Ok?
    ensures forall p :: p in order[1..] ==> p in order
    ensures var p, k := order[0], Kept(t, order[0], skip);
      && p in order
      && ArchiveTree(t, order[1..], prefix, skip, count + if k then 1 else 0).Ok?
      && (k ==> count + 1 <= MAX_ENTRIES && !t[p].Special? && |Join([prefix] + p)| <= MAX_PATH)
      && (k && t[p].Link? ==> SafeSymlink(p, t[p].target) && |t[p].target| <= MAX_PATH)
  {
  }

  lemma {:induction false} TakeAllHead(s: Staging, t: Tree, shared: bool, order: seq<Path>, skip: set<Path>, mid: Staging)
    requires order != [] && (forall p :: p in order ==> p in t)
    requires ArchiveTree(t, order, Prefix(shared), skip, s.count).Ok?
    requires if Kept(t, order[0], skip) then
               order[0] in order && mid.count == s.count + 1 &&
               Take(s, EntryOf(Prefix(shared), order[0], t[order[0]])) == Ok(mid)
             else mid == s
    requires forall p :: p in order[1..] ==> p in order
    ensures ArchiveTree(t, order[1..], Prefix(shared), skip, mid.count).Ok?
    ensures var a, b := ArchiveTree(t, order, Prefix(shared), skip, s.count).value,
                        ArchiveTree(t, order[1..], Prefix(shared), skip, mid.count).value;
      TakeAll(s, a.entries) == TakeAll(mid, b.entries) && a.count == b.count
  {
    hide Join;
    hide SafeSymlink;
    hide Take;
    if Kept(t, order[0], skip) {
      var b := ArchiveTree(t, order[1..], Prefix(shared), skip, mid.count).value;
      var e := EntryOf(Prefix(shared), order[0], t[order[0]]);
      assert ([e] + b.entries)[1..] == b.entries && ([e] + b.entries)[0] == e;
    }
  }

  lemma SetOfOrder(known: set<Path>, order: seq<Path>)
    requires order != []
    ensures known + {order[0]} + (set q | q in order[1..]) == known + (set q | q in order)
  {
    assert forall q :: q in order <==> q == order[0] || q in order[1..];
  }

  ghost predicate SawAfter(s: Staging, out: Staging, shared: bool, any: bool) {
    if shared then out.sawShared == (s.sawShared || any) && out.sawState == s.sawState
    else out.sawState == (s.sawState || any) && out.sawShared == s.sawShared
  }

  lemma OtherSeen(s: Staging, t: Tree, shared: bool, p: Path)
    requires p in t && SeenFits(s, !shared)
    ensures SeenFits(LoadOne(s, t, shared, p), !shared)
  {
    var other := !shared;
    forall q: Path | Under(other, q) in LoadOne(s, t, shared, p).seen
      ensures q in TreeOf(LoadOne(s, t, shared, p), other)
    {
      UnderIsOneName(shared, p, other, q);
    }
  }

  lemma SkipReaches(s: Staging, t: Tree, shared: bool, known: set<Path>, skip: set<Path>, p: Path)
    requires Reached(s, t, shared, known, skip) && !Kept(t, p, skip)
    ensures Reached(s, t, shared, known + {p}, skip)
  {
    assert Part(t, known + {p}, skip) == Part(t, known, skip);
  }

  /** The next kept node can be taken. */
  lemma NodeReady(s: Staging, t: Tree, shared: bool, known: set<Path>, skip: set<Path>, p: Path)
    requires WellFormed(t) && Reached(s, t, shared, known, skip) && p in t && p !in known
    requires p == [] || Parent(p) in known
    ensures NormalPath(p) && (p == [] ==> t[p].Dir?) && p !in TreeOf(s, shared)
    ensures p == [] || IsDir(TreeOf(s, shared), Parent(p))
  {
    if p != [] { assert IsDir(t, Parent(p)); }
  }

  // -------------------------------------------------------------- the whole archive

  datatype Walked = Walked(tree: Tree, order: seq<Path>)

  ghost predicate GoodWalk(w: Walked) { WellFormed(w.tree) && IsDir(w.tree, []) && WalkOrder(w.tree, w.order) }

  function ScrollbackEntry(scrollback: Bytes): Entry { Entry(SCROLLBACK, Regular, "", 0x180, scrollback) }

  /** writeStateArchiveExcluding, without the limit on the tar stream's size. */
  function WriteArchive(state: Walked, shared: Option<Walked>, scrollback: Bytes, skip: set<Path>): Outcome<seq<Entry>>
    requires forall p :: p in state.order ==> p in state.tree
    requires shared.Some? ==> forall p :: p in shared.value.order ==> p in shared.value.tree
  {
    if |scrollback| > MAX_SCROLLBACK then Err(ScrollbackTooLarge)
    else
      match ArchiveTree(state.tree, state.order, STATE, skip, 1)
      case Err(f) => Err(f)
      case Ok(a) =>
        if shared.None? then Ok([ScrollbackEntry(scrollback)] + a.entries)
        else
          match ArchiveTree(shared.value.tree, shared.value.order, SHARED, {}, a.count)
          case Err(f) => Err(f)
          case Ok(b) => Ok([ScrollbackEntry(scrollback)] + a.entries + b.entries)
  }

  /** The tree a restore should give back. */
  function Without(t: Tree, skip: set<Path>): Tree { map p | p in t && Kept(t, p, skip) :: t[p] }

  function All(t: Tree, skip: set<Path>): Tree { map p | p in t && Kept(t, p, skip) :: Staged(t[p]) }

  const NO_TREE := Walked(map[], [])

  /** The staging directory after every entry of an archive. */
  ghost predicate BackInStaging(s: Staging, state: Walked, shared: Option<Walked>, scrollback: Bytes, skip: set<Path>) {
    var v := if shared.Some? then shared.value else NO_TREE;
    && s.scrollback == Some(scrollback) && s.sawState && s.sawShared == shared.Some?
    && s.state == All(state.tree, skip) && s.shared == All(v.tree, {})
    && s.modes == Modes(state.tree, state.order, false) + Modes(v.tree, v.order, true)
    && Sane(s.state) && Sane(s.shared)
  }

  lemma ScrollbackName()
    ensures CleanArchiveName(SCROLLBACK) == Ok([SCROLLBACK])
  {
    JoinedName([SCROLLBACK]);
    assert forall c :: c in [SCROLLBACK] ==> '\\' !in c;
  }

  lemma ScrollbackLoads(scrollback: Bytes) returns (s: Staging)
    requires |scrollback| <= MAX_SCROLLBACK
    ensures Take(EMPTY, ScrollbackEntry(scrollback)) == Ok(s)
    ensures s == EMPTY.(scrollback := Some(scrollback), count := 1, seen := {[SCROLLBACK]})
    ensures SeenFits(s, false) && SeenFits(s, true) && Sane(s.state) && Sane(s.shared)
  {
    hide CleanArchiveName;
    hide Sane;
    ScrollbackName();
    s := EMPTY.(scrollback := Some(scrollback), count := 1, seen := {[SCROLLBACK]});
    NamedScrollback(ScrollbackEntry(scrollback));
    NothingUnder();
    EmptyIsSane();
  }

  lemma NamedScrollback(e: Entry)
    requires CleanArchiveName(e.name) == Ok([SCROLLBACK]) && e.kind == Regular && |e.data| <= MAX_SCROLLBACK
    requires |e.name| <= MAX_PATH && |e.link| <= MAX_PATH
    ensures Take(EMPTY, e) == Ok(EMPTY.(scrollback := Some(e.data), count := 1, seen := {[SCROLLBACK]}))
  {
    assert EMPTY.seen + {[SCROLLBACK]} == {[SCROLLBACK]};
  }

  lemma NothingUnder()
    ensures forall shared, q: Path :: Under(shared, q) != [SCROLLBACK]
  {
    forall shared, q: Path
      ensures Under(shared, q) != [SCROLLBACK]
    {
      assert Under(shared, q)[0] == Prefix(shared);
    }
  }

  lemma OneTreeLoads(s: Staging, w: Walked, shared: bool, skip: set<Path>) returns (out: Staging)
    requires GoodWalk(w) && TreeOf(s, shared) == map[] && SeenFits(s, shared) && SeenFits(s, !shared) && Plain(w.tree, w.order, skip)
    requires ArchiveTree(w.tree, w.order, Prefix(shared), skip, s.count).Ok?
    ensures var a := ArchiveTree(w.tree, w.order, Prefix(shared), skip, s.count).value;
      && TakeAll(s, a.entries) == Ok(out) && out.count == a.count
    ensures TreeOf(out, shared) == All(w.tree, skip) && Sane(TreeOf(out, shared)) && SeenFits(out, shared) && SeenFits(out, !shared)
    ensures out.modes == s.modes + Modes(w.tree, w.order, shared)
    ensures TreeOf(out, !shared) == TreeOf(s, !shared) && out.scrollback == s.scrollback && SawAfter(s, out, shared, true)
  {
    assert Part(w.tree, {}, skip) == map[];
    out := TreeLoads(s, w.tree, shared, {}, w.order, skip);
    var known: set<Path> := {} + (set p | p in w.order);
    assert Part(w.tree, known, skip) == All(w.tree, skip);
    assert [] in w.order && Kept(w.tree, [], skip);
  }

  /** The parts of a written archive. */
  lemma Parts(state: Walked, shared: Option<Walked>, scrollback: Bytes, skip: set<Path>) returns (a: Archived, b: Archived)
    requires (forall p :: p in state.order ==> p in state.tree)
    requires shared.Some? ==> forall p :: p in shared.value.order ==> p in shared.value.tree
    requires WriteArchive(state, shared, scrollback, skip).Ok?
    ensures |scrollback| <= MAX_SCROLLBACK && ArchiveTree(state.tree, state.order, STATE, skip, 1) == Ok(a)
    ensures if shared.Some? then ArchiveTree(shared.value.tree, shared.value.order, SHARED, {}, a.count) == Ok(b)
            else b.entries == []
    ensures WriteArchive(state, shared, scrollback, skip) == Ok([ScrollbackEntry(scrollback)] + (a.entries + b.entries))
  {
    a := ArchiveTree(state.tree, state.order, STATE, skip, 1).value;
    b := Archived([], 0);
    if shared.Some? { b := ArchiveTree(shared.value.tree, shared.value.order, SHARED, {}, a.count).value; }
    assert [ScrollbackEntry(scrollback)] + a.entries + b.entries == [ScrollbackEntry(scrollback)] + (a.entries + b.entries);
    assert a.entries + [] == a.entries;
  }

  /** The staging directory once the state tree is in it. */
  ghost predicate StateInStaging(s: Staging, state: Walked, scrollback: Bytes, skip: set<Path>) {
    && s.scrollback == Some(scrollback) && s.sawState && !s.sawShared
    && s.state == All(state.tree, skip) && Sane(s.state) && s.shared == map[] && SeenFits(s, true)
    && s.modes == Modes(state.tree, state.order, false)
  }

  lemma StateLoads(first: Staging, state: Walked, skip: set<Path>, a: Archived) returns (s: Staging)
    requires GoodWalk(state) && Plain(state.tree, state.order, skip)
    requires first == EMPTY.(scrollback := first.scrollback, count := 1, seen := first.seen)
    requires SeenFits(first, false) && SeenFits(first, true) && first.scrollback.Some?
    requires ArchiveTree(state.tree, state.order, STATE, skip, 1) == Ok(a)
    ensures TakeAll(first, a.entries) == Ok(s) && s.count == a.count
    ensures StateInStaging(s, state, first.scrollback.value, skip) && SeenFits(s, false)
  {
    s := OneTreeLoads(first, state, false, skip);
    assert first.modes + Modes(state.tree, state.order, false) == Modes(state.tree, state.order, false);
  }

  lemma SharedLoads(mid: Staging, state: Walked, shared: Option<Walked>, scrollback: Bytes, skip: set<Path>, b: Archived)
    returns (s: Staging)
    requires shared.Some? ==> GoodWalk(shared.value) && Plain(shared.value.tree, shared.value.order, {})
    requires StateInStaging(mid, state, scrollback, skip) && SeenFits(mid, false)
    requires if shared.Some? then ArchiveTree(shared.value.tree, shared.value.order, SHARED, {}, mid.count) == Ok(b)
             else b.entries == []
    ensures TakeAll(mid, b.entries) == Ok(s) && BackInStaging(s, state, shared, scrollback, skip)
  {
    s := mid;
    if shared.Some? {
      s := OneTreeLoads(mid, shared.value, true, {});
    } else {
      NoSharedTree(mid);
    }
  }

  lemma NoSharedTree(s: Staging)
    ensures All(NO_TREE.tree, {}) == map[] && s.modes + Modes(NO_TREE.tree, NO_TREE.order, true) == s.modes
  {
    assert s.modes + [] == s.modes;
  }

  /** Everything archived is extracted again, entry for entry. */
  lemma ArchiveExtracts(state: Walked, shared: Option<Walked>, scrollback: Bytes, skip: set<Path>) returns (s: Staging)
    requires GoodWalk(state) && (shared.Some? ==> GoodWalk(shared.value)) && PlainNames(state, shared, skip)
    requires WriteArchive(state, shared, scrollback, skip).Ok?
    ensures TakeAll(EMPTY, WriteArchive(state, shared, scrollback, skip).value) == Ok(s)
    ensures BackInStaging(s, state, shared, scrollback, skip)
  {
    var a, b := Parts(state, shared, scrollback, skip);
    var first := ScrollbackLoads(scrollback);
    var entries := [ScrollbackEntry(scrollback)] + (a.entries + b.entries);
    assert entries[1..] == a.entries + b.entries;
    var mid := StateLoads(first, state, skip, a);
    TakeAllAppend(first, a.entries, b.entries);
    s := SharedLoads(mid, state, shared, scrollback, skip, b);
  }

  // ----------------------------------------- the names that come back, and only those

  lemma {:induction false} EntryStands(t: Tree, order: seq<Path>, prefix: Name, skip: set<Path>, count: nat, p: Path)
    returns (i: nat)
    requires (forall q :: q in order ==> q in t) && ArchiveTree(t, order, prefix, skip, count).Ok?
    requires p in order && Kept(t, p, skip)
    ensures var es := ArchiveTree(t, order, prefix, skip, count).value.entries; i < |es| && es[i] == EntryOf(prefix, p, t[p])
    decreases |order|
  {
    ArchiveHead(t, order, prefix, skip, count);
    if order[0] == p {
      i := 0;
    } else {
      assert p in order[1..];
      var k := Kept(t, order[0], skip);
      i := EntryStands(t, order[1..], prefix, skip, count + if k then 1 else 0, p);
      i := i + if k then 1 else 0;
    }
  }

  /** Archiving accepts a backslash in a name; extraction never does. */
  lemma BackslashRefuses(state: Walked, shared: Option<Walked>, scrollback: Bytes, skip: set<Path>, inShared: bool, p: Path)
    requires GoodWalk(state) && (shared.Some? ==> GoodWalk(shared.value))
    requires WriteArchive(state, shared, scrollback, skip).Ok? && Backslashed(p)
    requires if inShared then shared.Some? && p in shared.value.order
             else p in state.order && Kept(state.tree, p, skip)
    ensures TakeAll(EMPTY, WriteArchive(state, shared, scrollback, skip).value).Err?
  {
    var a, b := Parts(state, shared, scrollback, skip);
    if inShared {
      var i := EntryStands(shared.value.tree, shared.value.order, SHARED, {}, a.count, p);
      RefusedAt([ScrollbackEntry(scrollback)] + a.entries, b.entries, [], i, true, p, shared.value.tree[p]);
      assert ([ScrollbackEntry(scrollback)] + a.entries) + b.entries + [] == [ScrollbackEntry(scrollback)] + (a.entries + b.entries);
    } else {
      var i := EntryStands(state.tree, state.order, STATE, skip, 1, p);
      RefusedAt([ScrollbackEntry(scrollback)], a.entries, b.entries, i, false, p, state.tree[p]);
      assert [ScrollbackEntry(scrollback)] + a.entries + b.entries == [ScrollbackEntry(scrollback)] + (a.entries + b.entries);
    }
  }

  lemma RefusedAt(before: seq<Entry>, here: seq<Entry>, after: seq<Entry>, i: nat, shared: bool, p: Path, node: Node)
    requires i < |here| && here[i] == EntryOf(Prefix(shared), p, node) && NormalPath(p) && Backslashed(p)
    ensures TakeAll(EMPTY, before + here + after).Err?
  {
    PrefixedName(shared, p);
    assert (before + here + after)[|before| + i] == here[i];
    BadEntryRefuses(EMPTY, before + here + after, |before| + i);
  }

  /** No kept name holds a backslash. */
  ghost predicate PlainNames(state: Walked, shared: Option<Walked>, skip: set<Path>) {
    Plain(state.tree, state.order, skip) && (shared.Some? ==> Plain(shared.value.tree, shared.value.order, {}))
  }

  /** An archive that was written is extracted if and only if no name in it holds a backslash. */
  lemma ExtractsExactly(state: Walked, shared: Option<Walked>, scrollback: Bytes, skip: set<Path>)
    requires GoodWalk(state) && (shared.Some? ==> GoodWalk(shared.value))
    requires WriteArchive(state, shared, scrollback, skip).Ok?
    ensures TakeAll(EMPTY, WriteArchive(state, shared, scrollback, skip).value).Ok? <==> PlainNames(state, shared, skip)
  {
    if PlainNames(state, shared, skip) {
      var s := ArchiveExtracts(state, shared, scrollback, skip);
    } else if !Plain(state.tree, state.order, skip) {
      var p :| p in state.order && Kept(state.tree, p, skip) && Backslashed(p);
      BackslashRefuses(state, shared, scrollback, skip, false, p);
    } else {
      var p :| p in shared.value.order && Kept(shared.value.tree, p, {}) && Backslashed(p);
      BackslashRefuses(state, shared, scrollback, skip, true, p);
    }
  }

  /** A state directory that holds one file. */
  function OneFile(name: Name, data: Bytes): Walked {
    Walked(map[[] := Dir(PRIVATE), [name] := File(0x180, data)], [[], [name]])
  }

  lemma OneFileWalk(name: Name, data: Bytes)
    requires Normal(name)
    ensures GoodWalk(OneFile(name, data))
  {
    var t, order := OneFile(name, data).tree, OneFile(name, data).order;
    assert Parent([name]) == [] && t.Keys == {[], [name]};
    assert order[1..] == [[name]] && [[name]][1..] == [];
    assert ParentsFirst({[]} + {[name]}, []);
    assert ParentsFirst({} + {[]}, order[1..]);
  }

  lemma OneFileArchive(name: Name, data: Bytes)
    requires |name| + 6 <= MAX_PATH
    ensures var w := OneFile(name, data);
      (forall p :: p in w.order ==> p in w.tree) && ArchiveTree(w.tree, w.order, STATE, {}, 1).Ok?
  {
    var w := OneFile(name, data);
    assert w.order[0] == [] && w.order[1..] == [[name]] && [[name]][0] == [name] && [[name]][1..] == [];
    assert [STATE] + [] == [STATE] && |Join([STATE])| == 5;
    assert [STATE] + [name] == [STATE, name] && [STATE, name][1..] == [name];
    assert |Join([STATE, name])| == |name| + 6;
    assert ArchiveTree(w.tree, [], STATE, {}, 3).Ok?;
    assert ArchiveTree(w.tree, [[name]], STATE, {}, 2).Ok?;
  }

  /** Such archives are written: one file whose name holds a backslash is enough. */
  lemma BackslashArchives(name: Name, data: Bytes, scrollback: Bytes)
    requires Normal(name) && '\\' in name && |name| + 6 <= MAX_PATH && |scrollback| <= MAX_SCROLLBACK
    ensures GoodWalk(OneFile(name, data)) && WriteArchive(OneFile(name, data), None, scrollback, {}).Ok?
    ensures !PlainNames(OneFile(name, data), None, {})
    ensures TakeAll(EMPTY, WriteArchive(OneFile(name, data), None, scrollback, {}).value).Err?
  {
    OneFileWalk(name, data);
    OneFileArchive(name, data);
    var w := OneFile(name, data);
    assert [name] in w.order && Kept(w.tree, [name], {}) && Backslashed([name]) by {
      assert w.order[1] == [name] && name in [name];
    }
    ExtractsExactly(w, None, scrollback, {});
  }

  const NOTES: Name := "notes\\today"

  /** For instance an empty file called notes\today, archived with an empty record. */
  lemma NotesNeverComeBack()
    ensures GoodWalk(OneFile(NOTES, [])) && WriteArchive(OneFile(NOTES, []), None, [], {}).Ok?
    ensures TakeAll(EMPTY, WriteArchive(OneFile(NOTES, []), None, [], {}).value).Err?
  {
    assert NOTES[5] == '\\';
    assert forall i :: 0 <= i < |NOTES| ==> NOTES[i] != '/';
    BackslashArchives(NOTES, [], []);
  }
}
