/** The rest of restoreStateArchive: the directory modes, the shared volume and the
    swap of the live tree (data-plane/cmd/agent/state_archive.go). */
module StateRestore {
  import opened Wrappers
  import opened Bytes
  import opened Paths
  import opened StateTree
  import opened StateExtract
  import opened StateArchive

  // ------------------------------------------------------------- directory modes

  function Chmod(t: Tree, p: Path, perm: nat): Outcome<Tree> {
    if p != [] && !Reach(t, Parent(p)) then Err(Denied)
    else if !IsDir(t, p) then Err(NotDirectory)
    else Ok(t[p := Dir(perm)])
  }

  function SetTree(s: Staging, shared: bool, t: Tree): Staging { if shared then s.(shared := t) else s.(state := t) }

  function ApplyModes(s: Staging, modes: seq<DirMode>): Outcome<Staging>
    decreases |modes|
  {
    if modes == [] then Ok(s)
    else
      var m := modes[0];
      match Chmod(TreeOf(s, m.shared), m.path, m.perm)
      case Err(f) => Err(f)
      case Ok(t) => ApplyModes(SetTree(s, m.shared, t), modes[1..])
  }

  /** sort.Slice by the number of separators, most first; equal ones in any order. */
  ghost predicate DeepestFirst(modes: seq<DirMode>) {
    forall i, j :: 0 <= i < j < |modes| ==> |modes[i].path| >= |modes[j].path|
  }

  ghost predicate SortOf(sorted: seq<DirMode>, modes: seq<DirMode>) {
    DeepestFirst(sorted) && forall m :: m in sorted <==> m in modes
  }

  ghost predicate Moded(modes: seq<DirMode>, shared: bool, p: Path) {
    exists m :: m in modes && m.shared == shared && m.path == p
  }

  /** One mode for each directory. */
  ghost predicate Consistent(modes: seq<DirMode>) {
    forall m, n :: m in modes && n in modes && m.shared == n.shared && m.path == n.path ==> m == n
  }

  /** out is s with exactly the listed modes set. */
  ghost predicate ModesSet(s: Staging, out: Staging, modes: seq<DirMode>) {
    && out == s.(state := out.state, shared := out.shared)
    && out.state.Keys == s.state.Keys && out.shared.Keys == s.shared.Keys
    && (forall m :: m in modes ==> m.path in TreeOf(out, m.shared) && TreeOf(out, m.shared)[m.path] == Dir(m.perm))
    && (forall shared, p :: p in TreeOf(s, shared) && !Moded(modes, shared, p) ==> TreeOf(out, shared)[p] == TreeOf(s, shared)[p])
  }

  lemma {:induction false} ModesMean(s: Staging, modes: seq<DirMode>)
    requires Consistent(modes) && ApplyModes(s, modes).Ok?
    ensures ModesSet(s, ApplyModes(s, modes).value, modes)
    decreases |modes|
  {
    if modes != [] {
      var m := modes[0];
      assert m in modes && forall n :: n in modes[1..] ==> n in modes;
      var next := SetTree(s, m.shared, Chmod(TreeOf(s, m.shared), m.path, m.perm).value);
      ModesMean(next, modes[1..]);
      ModesThen(s, next, ApplyModes(s, modes).value, modes);
    }
  }

  lemma ModesThen(s: Staging, next: Staging, out: Staging, modes: seq<DirMode>)
    requires modes != [] && Consistent(modes) && ModesSet(next, out, modes[1..])
    requires IsDir(TreeOf(s, modes[0].shared), modes[0].path)
    requires next == SetTree(s, modes[0].shared, TreeOf(s, modes[0].shared)[modes[0].path := Dir(modes[0].perm)])
    ensures ModesSet(s, out, modes)
  {
    var m := modes[0];
    assert forall n :: n in modes <==> n == m || n in modes[1..];
    forall n | n in modes
      ensures n.path in TreeOf(out, n.shared) && TreeOf(out, n.shared)[n.path] == Dir(n.perm)
    {
      if n !in modes[1..] {
        assert !Moded(modes[1..], m.shared, m.path);
      }
    }
    forall shared, p | p in TreeOf(s, shared) && !Moded(modes, shared, p)
      ensures TreeOf(out, shared)[p] == TreeOf(s, shared)[p]
    {
      assert !(m.shared == shared && m.path == p);
      assert !Moded(modes[1..], shared, p);
    }
  }

  ghost predicate OpenAbove(t: Tree, depth: nat) {
    forall p :: p in t && |p| < depth && t[p].Dir? ==> Searchable(t[p].perm)
  }

  lemma {:induction false} OpenReach(t: Tree, p: Path, depth: nat)
    requires WellFormed(t) && OpenAbove(t, depth) && IsDir(t, p) && |p| < depth
    ensures Reach(t, p)
    decreases |p|
  {
    if p != [] { OpenReach(t, Parent(p), depth); }
  }

  lemma ChmodWellFormed(t: Tree, p: Path, perm: nat)
    requires WellFormed(t) && IsDir(t, p)
    ensures WellFormed(t[p := Dir(perm)])
  {
    var u := t[p := Dir(perm)];
    forall q | q in u && q != []
      ensures IsDir(u, Parent(q))
    {
      assert IsDir(t, Parent(q));
    }
  }

  ghost predicate Ready(s: Staging, depth: nat) {
    && WellFormed(s.state) && WellFormed(s.shared)
    && OpenAbove(s.state, depth) && OpenAbove(s.shared, depth)
  }

  lemma ChmodReady(s: Staging, m: DirMode, depth: nat)
    requires Ready(s, |m.path|) && IsDir(TreeOf(s, m.shared), m.path) && depth <= |m.path|
    ensures Chmod(TreeOf(s, m.shared), m.path, m.perm) == Ok(TreeOf(s, m.shared)[m.path := Dir(m.perm)])
    ensures Ready(SetTree(s, m.shared, TreeOf(s, m.shared)[m.path := Dir(m.perm)]), depth)
  {
    var t := TreeOf(s, m.shared);
    if m.path != [] {
      assert IsDir(t, Parent(m.path));
      OpenReach(t, Parent(m.path), |m.path|);
    }
    ChmodWellFormed(t, m.path, m.perm);
  }

  /** Deepest first, no chmod ever closes the way to a later one. */
  lemma {:induction false} ModesSucceed(s: Staging, modes: seq<DirMode>)
    requires DeepestFirst(modes) && (forall m :: m in modes ==> IsDir(TreeOf(s, m.shared), m.path))
    requires modes != [] ==> Ready(s, |modes[0].path|)
    ensures ApplyModes(s, modes).Ok?
    decreases |modes|
  {
    hide Ready;
    hide Chmod;
    hide Reach;
    if modes != [] {
      var m := modes[0];
      assert m in modes;
      var t := TreeOf(s, m.shared);
      ChmodReady(s, m, if |modes| > 1 then |modes[1].path| else 0);
      var next := SetTree(s, m.shared, t[m.path := Dir(m.perm)]);
      forall n | n in modes[1..]
        ensures IsDir(TreeOf(next, n.shared), n.path)
      {
        assert n in modes;
      }
      ModesSucceed(next, modes[1..]);
    }
  }

  // -------------------------------------------- the round trip, modes and all

  lemma {:induction false} ModesAre(t: Tree, order: seq<Path>, shared: bool, m: DirMode)
    ensures m in Modes(t, order, shared) <==>
            m.shared == shared && m.path in order && IsDir(t, m.path) && m.perm == t[m.path].perm
    decreases |order|
  {
    if order != [] {
      assert order == [order[0]] + order[1..];
      ModesAre(t, order[1..], shared, m);
    }
  }

  /** Every directory's own mode and no other. */
  ghost predicate ModesOf(modes: seq<DirMode>, state: Tree, shared: Tree) {
    forall m: DirMode :: m in modes <==>
      var t := if m.shared then shared else state; IsDir(t, m.path) && m.perm == t[m.path].perm
  }

  lemma StagedModes(s: Staging, state: Walked, shared: Option<Walked>, scrollback: Bytes, skip: set<Path>)
    requires GoodWalk(state) && (shared.Some? ==> GoodWalk(shared.value))
    requires BackInStaging(s, state, shared, scrollback, skip)
    ensures ModesOf(s.modes, state.tree, if shared.Some? then shared.value.tree else map[])
  {
    var v := if shared.Some? then shared.value else NO_TREE;
    forall m: DirMode
      ensures m in s.modes <==>
              var t := if m.shared then v.tree else state.tree; IsDir(t, m.path) && m.perm == t[m.path].perm
    {
      ModesAre(state.tree, state.order, false, m);
      ModesAre(v.tree, v.order, true, m);
    }
  }

  /** The staging directory when every mode has been set. */
  ghost predicate BackInFull(out: Staging, state: Walked, shared: Option<Walked>, scrollback: Bytes, skip: set<Path>) {
    && out.scrollback == Some(scrollback) && out.sawState && out.sawShared == shared.Some?
    && out.state == Without(state.tree, skip)
    && out.shared == (if shared.Some? then shared.value.tree else map[])
  }

  lemma ModesFinish(s: Staging, sorted: seq<DirMode>, t: Tree, skip: set<Path>, shared: bool, out: Staging)
    requires TreeOf(s, shared) == All(t, skip) && ModesSet(s, out, sorted)
    requires forall m: DirMode :: m in sorted && m.shared == shared <==>
               m.shared == shared && IsDir(t, m.path) && m.perm == t[m.path].perm
    ensures TreeOf(out, shared) == Without(t, skip)
  {
    forall p | p in Without(t, skip)
      ensures TreeOf(out, shared)[p] == t[p]
    {
      if t[p].Dir? {
        assert DirMode(shared, p, t[p].perm) in sorted;
      } else {
        assert !Moded(sorted, shared, p);
      }
    }
    assert TreeOf(out, shared).Keys == Without(t, skip).Keys;
  }

  /** Archive, then extract and set the modes in any deepest-first order: the same tree
      with the same permissions, less the files left out, and the same record. */
  lemma RoundTrip(state: Walked, shared: Option<Walked>, scrollback: Bytes, skip: set<Path>, s: Staging, sorted: seq<DirMode>)
    returns (out: Staging)
    requires GoodWalk(state) && (shared.Some? ==> GoodWalk(shared.value)) && PlainNames(state, shared, skip)
    requires WriteArchive(state, shared, scrollback, skip).Ok?
    requires TakeAll(EMPTY, WriteArchive(state, shared, scrollback, skip).value) == Ok(s) && SortOf(sorted, s.modes)
    ensures ApplyModes(s, sorted) == Ok(out) && BackInFull(out, state, shared, scrollback, skip)
  {
    var again := ArchiveExtracts(state, shared, scrollback, skip);
    StagedModes(s, state, shared, scrollback, skip);
    out := ModesBack(s, state.tree, if shared.Some? then shared.value.tree else map[], skip, sorted);
  }

  lemma ModesBack(s: Staging, state: Tree, shared: Tree, skip: set<Path>, sorted: seq<DirMode>) returns (out: Staging)
    requires s.state == All(state, skip) && s.shared == All(shared, {}) && Sane(s.state) && Sane(s.shared)
    requires ModesOf(s.modes, state, shared) && SortOf(sorted, s.modes)
    ensures ApplyModes(s, sorted) == Ok(out) && out == s.(state := out.state, shared := out.shared)
    ensures out.state == Without(state, skip) && out.shared == shared
  {
    hide Reach;
    hide WellFormed;
    hide LinksSafe;
    assert ModesOf(sorted, state, shared);
    SortedReady(s, sorted, state, shared, skip);
    ModesSucceed(s, sorted);
    ModesMean(s, sorted);
    out := ApplyModes(s, sorted).value;
    ModesFinish(s, sorted, state, skip, false, out);
    ModesFinish(s, sorted, shared, {}, true, out);
    assert Without(shared, {}) == shared;
  }

  lemma SortedReady(s: Staging, sorted: seq<DirMode>, state: Tree, shared: Tree, skip: set<Path>)
    requires s.state == All(state, skip) && s.shared == All(shared, {}) && Sane(s.state) && Sane(s.shared)
    requires ModesOf(sorted, state, shared)
    ensures Consistent(sorted) && (forall m :: m in sorted ==> IsDir(TreeOf(s, m.shared), m.path))
    ensures forall depth: nat :: Ready(s, depth)
  {
  }

  // ------------------------------------------------------------ the shared volume

  function RemoveIfNotDir(t: Tree, p: Path): Outcome<Tree>
    requires p != []
  {
    if !Reach(t, Parent(p)) then Err(Denied)
    else if p !in t then Ok(t)
    else if t[p].Dir? then Err(Exists)
    else if CanMake(t, p) then Ok(t - {p})
    else Err(Denied)
  }

  /** One step of copyRestoredTree's walk. */
  function CopyOne(t: Tree, staged: Tree, p: Path): Outcome<Tree>
    requires p in staged
  {
    if p == [] then Ok(t)
    else
      match EnsureParents(t, Parent(p))
      case Err(f) => Err(f)
      case Ok(u) =>
        if staged[p].Dir? then EnsureDir(u, p)
        else if staged[p].Special? then Err(Unsupported)
        else
          match RemoveIfNotDir(u, p)
          case Err(f) => Err(f)
          case Ok(v) => if CanMake(v, p) then Ok(v[p := staged[p]]) else Err(Denied)
  }

  function CopyNodes(t: Tree, staged: Tree, order: seq<Path>): Outcome<Tree>
    requires forall p :: p in order ==> p in staged
    decreases |order|
  {
    if order == [] then Ok(t)
    else
      assert order[0] in order;
      match CopyOne(t, staged, order[0])
      case Err(f) => Err(f)
      case Ok(u) => CopyNodes(u, staged, order[1..])
  }

  /** copyRestoredTree. */
  function CopyTree(target: Tree, staged: Walked, sorted: seq<DirMode>): Outcome<Tree>
    requires forall p :: p in staged.order ==> p in staged.tree
  {
    match CopyNodes(target, staged.tree, staged.order)
    case Err(f) => Err(f)
    case Ok(u) =>
      match ApplyModes(EMPTY.(shared := u), sorted)
      case Err(f) => Err(f)
      case Ok(s) => Ok(s.shared)
  }

  /** The staged tree laid over the target; the volume's own root keeps its mode. */
  function Overlay(target: Tree, staged: Tree): Tree {
    map p | p in target.Keys + staged.Keys :: if p in staged && (p != [] || p !in target) then staged[p] else target[p]
  }

  /** The target when the nodes in `done` have been copied. */
  ghost predicate Copied(u: Tree, target: Tree, staged: Tree, done: set<Path>) {
    && WellFormed(u) && IsDir(u, [])
    && (forall p :: p in u <==> p in target || p in done)
    && (forall p :: p in u ==> if p !in done || p == [] then p in target && u[p] == target[p]
                               else p in staged && if staged[p].Dir? then u[p].Dir? else u[p] == staged[p])
    && Agree(target, staged, done)
  }

  /** No directory of one tree stands where the other has a file or a link. */
  ghost predicate Agree(target: Tree, staged: Tree, at: set<Path>) {
    forall p :: p in at && p in target && p in staged ==> target[p].Dir? == staged[p].Dir?
  }

  lemma {:induction false} ParentsStay(u: Tree, p: Path)
    requires WellFormed(u) && IsDir(u, p) && EnsureParents(u, p).Ok?
    ensures EnsureParents(u, p) == Ok(u)
    decreases |p|
  {
    if p != [] { ParentsStay(u, Parent(p)); }
  }

  lemma SetWellFormed(u: Tree, p: Path, node: Node)
    requires WellFormed(u) && p != [] && NormalPath(p) && IsDir(u, Parent(p)) && (p in u && u[p].Dir? ==> node.Dir?)
    ensures WellFormed(u[p := node])
  {
    var v := u[p := node];
    forall q | q in v && q != []
      ensures IsDir(v, Parent(q))
    {
      if q != p { assert IsDir(u, Parent(q)); }
    }
  }

  lemma CopyStep(u: Tree, target: Tree, staged: Tree, done: set<Path>, p: Path)
    requires WellFormed(staged) && Copied(u, target, staged, done) && p in staged && p !in done
    requires (p == [] || Parent(p) in done) && CopyOne(u, staged, p).Ok?
    ensures Copied(CopyOne(u, staged, p).value, target, staged, done + {p})
  {
    if p != [] {
      var q := Parent(p);
      assert IsDir(staged, q);
      assert IsDir(u, q);
      ParentsStay(u, q);
      var v := CopyOne(u, staged, p).value;
      CopyValue(u, staged, p);
      SetWellFormed(u, p, v[p]);
    }
  }

  lemma CopyValue(u: Tree, staged: Tree, p: Path)
    requires p in staged && p != [] && IsDir(u, Parent(p)) && EnsureParents(u, Parent(p)) == Ok(u) && CopyOne(u, staged, p).Ok?
    ensures var v := CopyOne(u, staged, p).value;
      && p in v && v == u[p := v[p]]
      && (if staged[p].Dir? then v[p].Dir? else v[p] == staged[p] && !(p in u && u[p].Dir?))
  {
  }

  lemma {:induction false} CopyMeans(u: Tree, target: Tree, staged: Tree, done: set<Path>, order: seq<Path>)
    requires WellFormed(staged) && Copied(u, target, staged, done) && ParentsFirst(done, order)
    requires (forall p :: p in order ==> p in staged) && CopyNodes(u, staged, order).Ok?
    ensures Copied(CopyNodes(u, staged, order).value, target, staged, done + (set p | p in order))
    decreases |order|
  {
    if order == [] {
      assert done + (set p | p in order) == done;
    } else {
      assert order[0] in order && forall q :: q in order[1..] ==> q in order;
      CopyStep(u, target, staged, done, order[0]);
      SetOfOrder(done, order);
      CopyMeans(CopyOne(u, staged, order[0]).value, target, staged, done + {order[0]}, order[1..]);
    }
  }

  /** The modes copyRestoredTree collects: every staged directory but the root. */
  ghost predicate CopyModes(sorted: seq<DirMode>, staged: Tree) {
    DeepestFirst(sorted) &&
    forall m: DirMode :: m in sorted <==> m.shared && m.path != [] && IsDir(staged, m.path) && m.perm == staged[m.path].perm
  }

  /** A copy that succeeds leaves exactly the overlay. */
  lemma CopyIsOverlay(target: Tree, staged: Walked, sorted: seq<DirMode>)
    requires GoodWalk(staged) && WellFormed(target) && IsDir(target, []) && CopyModes(sorted, staged.tree)
    requires CopyTree(target, staged, sorted).Ok?
    ensures CopyTree(target, staged, sorted).value == Overlay(target, staged.tree)
  {
    assert Copied(target, target, staged.tree, {});
    CopyMeans(target, target, staged.tree, {}, staged.order);
    var u := CopyNodes(target, staged.tree, staged.order).value;
    var s := EMPTY.(shared := u);
    ModesMean(s, sorted);
    var out := ApplyModes(s, sorted).value;
    OverlayValues(u, target, staged, sorted, s, out);
  }

  lemma OverlayValues(u: Tree, target: Tree, staged: Walked, sorted: seq<DirMode>, s: Staging, out: Staging)
    requires GoodWalk(staged) && IsDir(target, []) && CopyModes(sorted, staged.tree)
    requires Copied(u, target, staged.tree, {} + (set p | p in staged.order)) && s.shared == u && ModesSet(s, out, sorted)
    ensures out.shared == Overlay(target, staged.tree)
  {
    var o := Overlay(target, staged.tree);
    forall p | p in o
      ensures p in out.shared && out.shared[p] == o[p]
    {
      assert p in u;
      if p in staged.tree && p != [] && staged.tree[p].Dir? {
        assert DirMode(true, p, staged.tree[p].perm) in sorted;
      } else {
        assert p in TreeOf(s, true) && !Moded(sorted, true, p);
      }
    }
    assert out.shared.Keys == o.Keys;
  }

  // ------------------------------------------------------- when the copy goes through

  /** The agent may enter and change every directory. */
  ghost predicate OpenTree(t: Tree) {
    forall p :: p in t && t[p].Dir? ==> Searchable(t[p].perm) && Writable(t[p].perm)
  }

  ghost predicate NoSpecial(t: Tree) { forall p :: p in t ==> !t[p].Special? }

  lemma {:induction false} OpenTreeReach(t: Tree, p: Path)
    requires WellFormed(t) && OpenTree(t) && IsDir(t, p)
    ensures Reach(t, p) && EnsureParents(t, p) == Ok(t)
    decreases |p|
  {
    if p != [] { OpenTreeReach(t, Parent(p)); }
  }

  lemma {:induction false} ReachWithout(t: Tree, p: Path, q: Path)
    requires Reach(t, q) && !IsDir(t, p)
    ensures Reach(t - {p}, q)
    decreases |q|
  {
    if q != [] { ReachWithout(t, p, Parent(q)); }
  }

  lemma CopyOneSucceeds(u: Tree, target: Tree, staged: Tree, done: set<Path>, p: Path)
    requires WellFormed(staged) && NoSpecial(staged) && Copied(u, target, staged, done) && OpenTree(u)
    requires p in staged && p !in done && (p == [] || Parent(p) in done) && Agree(target, staged, {p})
    ensures CopyOne(u, staged, p).Ok? && OpenTree(CopyOne(u, staged, p).value)
  {
    if p != [] {
      assert IsDir(staged, Parent(p));
      NodeCopies(u, staged, p);
    }
  }

  lemma NodeCopies(u: Tree, staged: Tree, p: Path)
    requires WellFormed(u) && OpenTree(u) && p in staged && p != [] && !staged[p].Special? && IsDir(u, Parent(p))
    requires p in u ==> u[p].Dir? == staged[p].Dir?
    ensures CopyOne(u, staged, p).Ok? && OpenTree(CopyOne(u, staged, p).value)
  {
    hide WellFormed;
    OpenTreeReach(u, Parent(p));
    if !staged[p].Dir? {
      ReachWithout(u, p, Parent(p));
      assert CanMake(u, p) && CanMake(u - {p}, p);
      assert RemoveIfNotDir(u, p) == Ok(if p in u then u - {p} else u);
    }
  }

  lemma {:induction false} CopyNodesSucceed(u: Tree, target: Tree, staged: Tree, done: set<Path>, order: seq<Path>)
    requires WellFormed(staged) && NoSpecial(staged) && Copied(u, target, staged, done) && OpenTree(u)
    requires ParentsFirst(done, order) && (forall p :: p in order ==> p in staged) && Agree(target, staged, staged.Keys)
    ensures CopyNodes(u, staged, order).Ok? && OpenTree(CopyNodes(u, staged, order).value)
    decreases |order|
  {
    if order != [] {
      assert order[0] in order && forall q :: q in order[1..] ==> q in order;
      CopyOneSucceeds(u, target, staged, done, order[0]);
      CopyStep(u, target, staged, done, order[0]);
      CopyNodesSucceed(CopyOne(u, staged, order[0]).value, target, staged, done + {order[0]}, order[1..]);
    }
  }

  lemma CopyGoesThrough(target: Tree, staged: Walked, sorted: seq<DirMode>)
    requires GoodWalk(staged) && NoSpecial(staged.tree) && WellFormed(target) && IsDir(target, []) && OpenTree(target)
    requires CopyModes(sorted, staged.tree) && Agree(target, staged.tree, staged.tree.Keys)
    ensures CopyTree(target, staged, sorted).Ok?
  {
    assert Copied(target, target, staged.tree, {});
    CopyNodesSucceed(target, target, staged.tree, {}, staged.order);
    CopyMeans(target, target, staged.tree, {}, staged.order);
    var u := CopyNodes(target, staged.tree, staged.order).value;
    CopiedDirs(u, target, staged, sorted);
    ModesSucceed(EMPTY.(shared := u), sorted);
  }

  lemma CopiedDirs(u: Tree, target: Tree, staged: Walked, sorted: seq<DirMode>)
    requires GoodWalk(staged) && CopyModes(sorted, staged.tree) && OpenTree(u)
    requires Copied(u, target, staged.tree, {} + (set p | p in staged.order))
    ensures forall m :: m in sorted ==> IsDir(TreeOf(EMPTY.(shared := u), m.shared), m.path)
    ensures forall depth: nat :: Ready(EMPTY.(shared := u), depth)
  {
    forall m | m in sorted
      ensures IsDir(TreeOf(EMPTY.(shared := u), m.shared), m.path)
    {
      assert m.path in staged.order && m.path in u;
    }
  }

  /** Into a volume the agent may change, the copy succeeds if and only if no directory of
      one tree stands where the other has a file or a link; and then it is the overlay. */
  lemma CopyExactly(target: Tree, staged: Walked, sorted: seq<DirMode>)
    requires GoodWalk(staged) && NoSpecial(staged.tree) && WellFormed(target) && IsDir(target, []) && OpenTree(target)
    requires CopyModes(sorted, staged.tree)
    ensures CopyTree(target, staged, sorted).Ok? <==> Agree(target, staged.tree, staged.tree.Keys)
    ensures CopyTree(target, staged, sorted).Ok? ==> CopyTree(target, staged, sorted).value == Overlay(target, staged.tree)
  {
    if Agree(target, staged.tree, staged.tree.Keys) { CopyGoesThrough(target, staged, sorted); }
    if CopyTree(target, staged, sorted).Ok? {
      CopyIsOverlay(target, staged, sorted);
      assert Copied(target, target, staged.tree, {});
      CopyMeans(target, target, staged.tree, {}, staged.order);
      assert ({} + (set p | p in staged.order)) == staged.tree.Keys;
    }
  }

  /** The shared volume's links stay safe, so its paths stay inside too. */
  lemma OverlaySafe(target: Tree, staged: Tree)
    requires LinksSafe(target) && LinksSafe(staged)
    ensures LinksSafe(Overlay(target, staged))
  {
  }

  // ------------------------------------------------------------------ the swap

  /** Which steps of installClaudeState fail. */
  datatype Faults = Faults(stat: bool, aside: bool, install: bool, rollBack: bool, cleanUp: bool)

  datatype Installed = Installed(live: Option<Tree>, ok: bool)

  function Install(live: Option<Tree>, staged: Tree, f: Faults): Installed {
    if f.stat || !IsDir(staged, []) then Installed(live, false)
    else if live.Some? && f.aside then Installed(live, false)
    else if f.install then Installed(if live.Some? && f.rollBack then None else live, false)
    else Installed(Some(staged), live.None? || !f.cleanUp)
  }

  /** The live tree is the old one or the new one, whole, unless both renames fail; and
      success means the new one. */
  lemma InstallKeepsATree(live: Option<Tree>, staged: Tree, f: Faults)
    ensures var i := Install(live, staged, f);
      && (i.ok ==> i.live == Some(staged))
      && (i.live == live || i.live == Some(staged) <==>
          !(live.Some? && IsDir(staged, []) && !f.stat && !f.aside && f.install && f.rollBack))
      && (!i.ok && i.live != live ==> f.cleanUp || (f.install && f.rollBack))
  {
  }

  // ------------------------------------------------------------ restoreStateArchive

  datatype Restored = Restored(live: Option<Tree>, volume: Option<Tree>, result: Outcome<Bytes>)

  /** restoreStateArchive. `sort` stands for sort.Slice and `walk` for filepath.WalkDir. */
  function Restore(entries: seq<Entry>, live: Option<Tree>, volume: Option<Tree>, validate: Tree -> bool, f: Faults,
                   sort: seq<DirMode> -> seq<DirMode>, walk: Tree -> seq<Path>): Restored
    requires forall t, p :: p in walk(t) ==> p in t
  {
    match TakeAll(EMPTY, entries)
    case Err(e) => Restored(live, volume, Err(e))
    case Ok(s) =>
      if s.scrollback.None? || !s.sawState || !IsDir(s.state, []) then Restored(live, volume, Err(Missing))
      else if s.sawShared && (volume.None? || !IsDir(s.shared, [])) then Restored(live, volume, Err(NoSharedVolume))
      else if !validate(s.state) then Restored(live, volume, Err(Invalid))
      else
        match ApplyModes(s, sort(s.modes))
        case Err(e) => Restored(live, volume, Err(e))
        case Ok(m) => Swap(s.(state := m.state, shared := m.shared), live, volume, f, sort, walk)
  }

  function Swap(m: Staging, live: Option<Tree>, volume: Option<Tree>, f: Faults,
                sort: seq<DirMode> -> seq<DirMode>, walk: Tree -> seq<Path>): Restored
    requires (m.sawShared ==> volume.Some?) && m.scrollback.Some? && forall t, p :: p in walk(t) ==> p in t
  {
    var copied := if m.sawShared then
                    CopyTree(volume.value, Walked(m.shared, walk(m.shared)), sort(Below(Modes(m.shared, walk(m.shared), true))))
                  else Ok(map[]);
    match copied
    case Err(e) => Restored(live, None, Err(e))   // the volume is left part-way
    case Ok(c) =>
      var i := Install(live, m.state, f);
      Restored(i.live, if m.sawShared then Some(c) else volume, if i.ok then Ok(m.scrollback.value) else Err(Denied))
  }

  /** The collected modes without the root's. */
  function Below(modes: seq<DirMode>): seq<DirMode>
    decreases |modes|
  {
    if modes == [] then [] else (if modes[0].path == [] then [] else [modes[0]]) + Below(modes[1..])
  }

  lemma {:induction false} BelowMeans(modes: seq<DirMode>, m: DirMode)
    ensures m in Below(modes) <==> m in modes && m.path != []
    decreases |modes|
  {
    if modes != [] {
      assert modes == [modes[0]] + modes[1..];
      BelowMeans(modes[1..], m);
    }
  }

  /** A restore that fails before the swap leaves the live tree alone; whatever happens
      short of a double fault, the live tree is the old one or a validated new one. */
  lemma NeverHalfRestored(entries: seq<Entry>, live: Option<Tree>, volume: Option<Tree>, validate: Tree -> bool, f: Faults,
                          sort: seq<DirMode> -> seq<DirMode>, walk: Tree -> seq<Path>)
    requires (forall t, p :: p in walk(t) ==> p in t) && !(f.install && f.rollBack)
    ensures var r := Restore(entries, live, volume, validate, f, sort, walk);
      && (r.result.Ok? ==> r.live.Some?)
      && (r.live == live || (r.live.Some? && TakeAll(EMPTY, entries).Ok? &&
          var s := TakeAll(EMPTY, entries).value;
          validate(s.state) && ApplyModes(s, sort(s.modes)).Ok? && r.live == Some(ApplyModes(s, sort(s.modes)).value.state)))
  {
  }

  ghost predicate Sorts(sort: seq<DirMode> -> seq<DirMode>) { forall ms :: SortOf(sort(ms), ms) }

  ghost predicate Walks(walk: Tree -> seq<Path>) {
    && (forall t, p :: p in walk(t) ==> p in t)
    && (forall t :: WellFormed(t) && IsDir(t, []) ==> GoodWalk(Walked(t, walk(t))))
  }

  /** A volume a restore can fill: the agent may change it and nothing in it is in the way. */
  ghost predicate Fits(volume: Option<Tree>, staged: Tree) {
    && volume.Some? && WellFormed(volume.value) && IsDir(volume.value, []) && OpenTree(volume.value)
    && Agree(volume.value, staged, staged.Keys)
  }

  lemma WalkedModes(w: Walked, sort: seq<DirMode> -> seq<DirMode>)
    requires Sorts(sort) && GoodWalk(w)
    ensures CopyModes(sort(Below(Modes(w.tree, w.order, true))), w.tree)
  {
    var modes := Modes(w.tree, w.order, true);
    var sorted := sort(Below(modes));
    assert SortOf(sorted, Below(modes));
    forall n: DirMode
      ensures n in sorted <==> n.shared && n.path != [] && IsDir(w.tree, n.path) && n.perm == w.tree[n.path].perm
    {
      BelowMeans(modes, n);
      ModesAre(w.tree, w.order, true, n);
    }
  }

  lemma SwapCopies(m: Staging, live: Option<Tree>, volume: Option<Tree>, f: Faults,
                   sort: seq<DirMode> -> seq<DirMode>, walk: Tree -> seq<Path>)
    requires Sorts(sort) && Walks(walk) && m.scrollback.Some? && IsDir(m.state, [])
    requires !f.stat && !f.aside && !f.install && !f.cleanUp
    requires m.sawShared ==> WellFormed(m.shared) && IsDir(m.shared, []) && NoSpecial(m.shared) && Fits(volume, m.shared)
    ensures Swap(m, live, volume, f, sort, walk) ==
            Restored(Some(m.state), if m.sawShared then Some(Overlay(volume.value, m.shared)) else volume, Ok(m.scrollback.value))
  {
    if m.sawShared {
      var w := Walked(m.shared, walk(m.shared));
      assert GoodWalk(w);
      WalkedModes(w, sort);
      CopyExactly(volume.value, w, sort(Below(Modes(w.tree, w.order, true))));
    }
  }

  /** What was archived holds no device, socket or pipe. */
  lemma {:induction false} ArchivedNoSpecial(t: Tree, order: seq<Path>, prefix: Name, count: nat)
    requires (forall p :: p in order ==> p in t) && ArchiveTree(t, order, prefix, {}, count).Ok?
    ensures forall p :: p in order ==> !t[p].Special?
    decreases |order|
  {
    if order != [] {
      ArchiveHead(t, order, prefix, {}, count);
      ArchivedNoSpecial(t, order[1..], prefix, count + 1);
    }
  }

  /** Restoring what was archived gives back the state tree less the excluded files, the
      shared tree over the volume, and the record. */
  lemma ArchiveRestores(state: Walked, shared: Option<Walked>, scrollback: Bytes, skip: set<Path>,
                        live: Option<Tree>, volume: Option<Tree>, validate: Tree -> bool, f: Faults,
                        sort: seq<DirMode> -> seq<DirMode>, walk: Tree -> seq<Path>)
    requires GoodWalk(state) && (shared.Some? ==> GoodWalk(shared.value)) && PlainNames(state, shared, skip)
    requires WriteArchive(state, shared, scrollback, skip).Ok? && validate(All(state.tree, skip))
    requires Sorts(sort) && Walks(walk) && !f.stat && !f.aside && !f.install && !f.cleanUp
    requires shared.Some? ==> Fits(volume, shared.value.tree)
    ensures Restore(WriteArchive(state, shared, scrollback, skip).value, live, volume, validate, f, sort, walk) ==
            Restored(Some(Without(state.tree, skip)),
                     if shared.Some? then Some(Overlay(volume.value, shared.value.tree)) else volume, Ok(scrollback))
  {
    var s := ArchiveExtracts(state, shared, scrollback, skip);
    var out := RoundTrip(state, shared, scrollback, skip, s, sort(s.modes));
    if shared.Some? {
      var a, b := Parts(state, shared, scrollback, skip);
      ArchivedNoSpecial(shared.value.tree, shared.value.order, SHARED, a.count);
    }
    assert IsDir(s.state, []) && (shared.Some? ==> IsDir(s.shared, []));
    SwapCopies(s.(state := out.state, shared := out.shared), live, volume, f, sort, walk);
  }

  /** And the names decide: an archive that was written restores only if no name in it
      holds a backslash. */
  lemma BackslashNeverRestores(state: Walked, shared: Option<Walked>, scrollback: Bytes, skip: set<Path>,
                               live: Option<Tree>, volume: Option<Tree>, validate: Tree -> bool, f: Faults,
                               sort: seq<DirMode> -> seq<DirMode>, walk: Tree -> seq<Path>)
    requires GoodWalk(state) && (shared.Some? ==> GoodWalk(shared.value)) && !PlainNames(state, shared, skip)
    requires WriteArchive(state, shared, scrollback, skip).Ok? && forall t, p :: p in walk(t) ==> p in t
    ensures var r := Restore(WriteArchive(state, shared, scrollback, skip).value, live, volume, validate, f, sort, walk);
      r.result.Err? && r.live == live && r.volume == volume
  {
    ExtractsExactly(state, shared, scrollback, skip);
  }

  /** A restored tree's paths never leave it (with StateTree.PathsStayInside). */
  lemma RestoredStaysInside(entries: seq<Entry>, sorted: seq<DirMode>, s: Staging, dir: Path, path: string, steps: nat)
    requires TakeAll(EMPTY, entries) == Ok(s) && ApplyModes(s, sorted).Ok?
    requires IsDir(ApplyModes(s, sorted).value.state, dir) && forall c :: c in Split(path) ==> c != ".."
    ensures Resolve(ApplyModes(s, sorted).value.state, At(dir, Split(path)), steps) != Outside
  {
    AcceptedIsSane(EMPTY, entries);
    SaneAfterModes(s, sorted);
    PathsStayInside(ApplyModes(s, sorted).value.state, dir, path, steps);
  }

  lemma {:induction false} SaneAfterModes(s: Staging, modes: seq<DirMode>)
    requires WellFormed(s.state) && LinksSafe(s.state) && ApplyModes(s, modes).Ok?
    ensures WellFormed(ApplyModes(s, modes).value.state) && LinksSafe(ApplyModes(s, modes).value.state)
    decreases |modes|
  {
    if modes != [] {
      var m := modes[0];
      if !m.shared { ChmodWellFormed(s.state, m.path, m.perm); }
      SaneAfterModes(SetTree(s, m.shared, Chmod(TreeOf(s, m.shared), m.path, m.perm).value), modes[1..]);
    }
  }

  // -------------------------------------------------- walks and orders do exist

  lemma {:induction false} ParentsFirstSnoc(known: set<Path>, order: seq<Path>, p: Path)
    requires ParentsFirst(known, order) && p !in known && p !in order && (p == [] || Parent(p) in known || Parent(p) in order)
    ensures ParentsFirst(known, order + [p])
    decreases |order|
  {
    if order == [] {
      assert [p][1..] == [];
    } else {
      assert (order + [p])[1..] == order[1..] + [p];
      ParentsFirstSnoc(known + {order[0]}, order[1..], p);
    }
  }

  /** The topmost ancestor that is still missing. */
  lemma {:induction false} NextOf(t: Tree, order: seq<Path>, p: Path) returns (q: Path)
    requires WellFormed(t) && p in t && p !in order
    ensures q in t && q !in order && (q == [] || Parent(q) in order)
    decreases |p|
  {
    if p == [] || Parent(p) in order {
      q := p;
    } else {
      assert IsDir(t, Parent(p));
      q := NextOf(t, order, Parent(p));
    }
  }

  lemma {:induction false} WalkFrom(t: Tree, order: seq<Path>) returns (walk: seq<Path>)
    requires WellFormed(t) && ParentsFirst({}, order) && forall p :: p in order ==> p in t
    ensures WalkOrder(t, walk)
    decreases t.Keys - (set p | p in order)
  {
    if p :| p in t && p !in order {
      var q := NextOf(t, order, p);
      ParentsFirstSnoc({}, order, q);
      assert forall x :: x in order + [q] <==> x in order || x == q;
      assert q in t.Keys - (set x | x in order) && q !in t.Keys - (set x | x in order + [q]);
      walk := WalkFrom(t, order + [q]);
    } else {
      walk := order;
    }
  }

  /** Every tree has a walk, parents first. */
  lemma WalkExists(t: Tree)
    requires WellFormed(t)
    ensures exists order :: WalkOrder(t, order)
  {
    var walk := WalkFrom(t, []);
  }

  lemma {:induction false} Inserted(m: DirMode, sorted: seq<DirMode>) returns (out: seq<DirMode>)
    requires DeepestFirst(sorted)
    ensures DeepestFirst(out) && forall n :: n in out <==> n == m || n in sorted
    decreases |sorted|
  {
    if sorted == [] || |m.path| >= |sorted[0].path| {
      out := [m] + sorted;
    } else {
      var rest := Inserted(m, sorted[1..]);
      out := [sorted[0]] + rest;
      assert sorted == [sorted[0]] + sorted[1..];
      assert forall n :: n in rest ==> |n.path| <= |sorted[0].path|;
    }
  }

  /** Every list of modes has a deepest-first order. */
  lemma {:induction false} SortExists(modes: seq<DirMode>) returns (sorted: seq<DirMode>)
    ensures SortOf(sorted, modes)
    decreases |modes|
  {
    if modes == [] {
      sorted := [];
    } else {
      sorted := SortExists(modes[1..]);
      sorted := Inserted(modes[0], sorted);
      assert modes == [modes[0]] + modes[1..];
    }
  }
}
