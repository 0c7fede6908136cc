/** A session's state tree as the kernel sees it: directories, files and symlinks
    under one root, and how a path is resolved through symlinks. */
module StateTree {
  import opened Wrappers
  import opened Bytes
  import opened Paths

  datatype Node =
    | Dir(perm: nat)
    | File(perm: nat, data: Bytes)
    | Link(target: string)
    | Special                       // a device, socket or pipe

  /** Nodes by their real path below the root; [] is the root itself. */
  type Tree = map<Path, Node>

  predicate IsDir(t: Tree, p: Path) { p in t && t[p].Dir? }

  /** Every node stands in a real directory, under an ordinary name. */
  ghost predicate WellFormed(t: Tree) {
    && (t != map[] ==> IsDir(t, []))
    && (forall p :: p in t ==> NormalPath(p))
    && (forall p :: p in t && p != [] ==> IsDir(t, Parent(p)))
  }

  /** Every symlink passes the check made when it is archived and when it is restored. */
  ghost predicate LinksSafe(t: Tree) {
    forall p :: p in t && t[p].Link? ==> p != [] && SafeSymlink(p, t[p].target)
  }

  // ---------------------------------------------------------------- resolution

  datatype Walk =
    | At(dir: Path, pending: seq<string>)   // in the real directory dir, components to go
    | Found(p: Path)
    | Absent                                // ENOENT or ENOTDIR
    | Outside                               // the root's parent, or an absolute target

  /** One component of path resolution: "" and "." stay, ".." goes to the real parent,
      a symlink puts its target's components in front. */
  function Step(t: Tree, w: Walk): Walk {
    if !w.At? then w
    else if w.pending == [] then Found(w.dir)
    else
      var c, rest := w.pending[0], w.pending[1..];
      if c == "" || c == "." then At(w.dir, rest)
      else if c == ".." then if w.dir == [] then Outside else At(Parent(w.dir), rest)
      else
        var p := w.dir + [c];
        if p !in t then Absent
        else
          match t[p]
          case Dir(_) => At(p, rest)
          case Link(target) => if target != "" && target[0] == '/' then Outside else At(w.dir, Split(target) + rest)
          case _ => if rest == [] then Found(p) else Absent
  }

  function Resolve(t: Tree, w: Walk, steps: nat): Walk
    decreases steps
  {
    if steps == 0 then w else Resolve(t, Step(t, w), steps - 1)
  }

  /** What is left to resolve: ".." only at the front, fewer than there are directories above. */
  ghost predicate Confined(t: Tree, w: Walk) {
    && w != Outside
    && (w.At? ==> IsDir(t, w.dir) && UpsFirst(w.pending, false) && Ups(w.pending) <= |w.dir|)
    && (w.Found? ==> w.p in t)
  }

  lemma {:induction false} UpsFirstAppend(a: seq<string>, b: seq<string>, saw: bool)
    requires UpsFirst(a, saw) && UpsFirst(b, true)
    ensures UpsFirst(a + b, saw) && Ups(a + b) == Ups(a)
    decreases |a|
  {
    NoUps(b);
    if a == [] {
      assert a + b == b;
      NamesAnyway(b, saw);
    } else {
      assert (a + b)[1..] == a[1..] + b;
      UpsFirstAppend(a[1..], b, saw || !(a[0] == "" || a[0] == "." || a[0] == ".."));
    }
  }

  lemma {:induction false} NamesAnyway(b: seq<string>, saw: bool)
    requires UpsFirst(b, true)
    ensures UpsFirst(b, saw)
    decreases |b|
  {
    if b != [] {
      if b[0] == "" || b[0] == "." { NamesAnyway(b[1..], saw); }
    }
  }

  lemma StepConfined(t: Tree, w: Walk)
    requires WellFormed(t) && LinksSafe(t) && Confined(t, w)
    ensures Confined(t, Step(t, w))
  {
    if w.At? && w.pending != [] {
      var c, rest := w.pending[0], w.pending[1..];
      var p := w.dir + [c];
      if c == ".." {
        assert IsDir(t, Parent(w.dir));
      } else if c != "" && c != "." && p in t {
        NoUps(rest);
        NamesAnyway(rest, false);
        if t[p].Link? { LinkConfined(t, w.dir, p, rest); }
      }
    }
  }

  lemma LinkConfined(t: Tree, dir: Path, p: Path, rest: seq<string>)
    requires WellFormed(t) && LinksSafe(t) && IsDir(t, dir) && p in t && t[p].Link? && |p| == |dir| + 1
    requires UpsFirst(rest, true)
    ensures t[p].target != "" && t[p].target[0] != '/'
    ensures Confined(t, At(dir, Split(t[p].target) + rest))
  {
    SafeSymlinkMeans(p, t[p].target);
    UpsFirstAppend(Split(t[p].target), rest, false);
  }

  /** Symlink containment: whatever chain of symlinks a path runs through, and however
      far its resolution gets, it never leaves the root. */
  lemma {:induction false} Contained(t: Tree, w: Walk, steps: nat)
    requires WellFormed(t) && LinksSafe(t) && Confined(t, w)
    ensures Confined(t, Resolve(t, w, steps))
    decreases steps
  {
    if steps > 0 {
      StepConfined(t, w);
      Contained(t, Step(t, w), steps - 1);
    }
  }

  /** In particular for a path without "..", from any real directory. */
  lemma PathsStayInside(t: Tree, dir: Path, path: string, steps: nat)
    requires WellFormed(t) && LinksSafe(t) && IsDir(t, dir)
    requires forall c :: c in Split(path) ==> c != ".."
    ensures Resolve(t, At(dir, Split(path)), steps) != Outside
    ensures Resolve(t, At(dir, Split(path)), steps).Found? ==> Resolve(t, At(dir, Split(path)), steps).p in t
  {
    NoUpsAtAll(Split(path));
    Contained(t, At(dir, Split(path)), steps);
  }

  lemma {:induction false} NoUpsAtAll(cs: seq<string>)
    requires forall c :: c in cs ==> c != ".."
    ensures UpsFirst(cs, false) && UpsFirst(cs, true) && Ups(cs) == 0
    decreases |cs|
  {
    if cs != [] {
      assert cs[0] in cs && forall c :: c in cs[1..] ==> c in cs;
      NoUpsAtAll(cs[1..]);
    }
  }

  // ------------------------------------- why ".." after a name must be refused

  /** a/b/up -> ../.. and out -> a/b/up/.. */
  ghost predicate HasChain(t: Tree) {
    && IsDir(t, []) && IsDir(t, ["a"]) && IsDir(t, ["a"] + ["b"])
    && (["a"] + ["b"]) + ["up"] in t && t[(["a"] + ["b"]) + ["up"]] == Link("../..")
    && [] + ["out"] in t && t[[] + ["out"]] == Link("a/b/up/..")
  }

  lemma ChainSplits()
    ensures Split("../..") == ["..", ".."]
    ensures Split("a/b/up/..") == ["a", "b", "up", ".."]
  {
    var up, out := ["..", ".."], ["a", "b", "up", ".."];
    SplitJoin(up);
    SplitJoin(out);
    assert up[1..] == [".."] && Join(up) == "../..";
    assert out[1..] == ["b", "up", ".."] && out[1..][1..] == ["up", ".."] && out[1..][1..][1..] == [".."];
    assert Join(out) == "a/b/up/..";
  }

  lemma OutSteps(t: Tree)
    requires HasChain(t)
    ensures Step(t, At([], ["out"])) == At([], ["a", "b", "up", ".."])
    ensures Step(t, At([], ["a", "b", "up", ".."])) == At(["a"], ["b", "up", ".."])
  {
    hide Split;
    ChainSplits();
    assert [] + ["a"] == ["a"] && ["out"] + [] == ["out"];
    FollowLink(t, [], "out", []);
    assert ["a", "b", "up", ".."] + [] == ["a", "b", "up", ".."];
    Enter(t, [], "a", ["b", "up", ".."]);
    assert ["a"] + ["b", "up", ".."] == ["a", "b", "up", ".."];
  }

  lemma DownSteps(t: Tree)
    requires HasChain(t)
    ensures Step(t, At(["a"], ["b", "up", ".."])) == At(["a"] + ["b"], ["up", ".."])
    ensures Step(t, At(["a"] + ["b"], ["up", ".."])) == At(["a"] + ["b"], ["..", "..", ".."])
  {
    hide Split;
    ChainSplits();
    Enter(t, ["a"], "b", ["up", ".."]);
    assert ["b"] + ["up", ".."] == ["b", "up", ".."];
    FollowLink(t, ["a"] + ["b"], "up", [".."]);
    assert ["up"] + [".."] == ["up", ".."] && ["..", ".."] + [".."] == ["..", "..", ".."];
  }

  lemma Enter(t: Tree, dir: Path, c: Name, rest: seq<string>)
    requires IsDir(t, dir + [c]) && Normal(c)
    ensures Step(t, At(dir, [c] + rest)) == At(dir + [c], rest)
  {
    assert ([c] + rest)[1..] == rest;
  }

  lemma FollowLink(t: Tree, dir: Path, c: Name, rest: seq<string>)
    requires dir + [c] in t && t[dir + [c]].Link? && Normal(c) && t[dir + [c]].target != "" && t[dir + [c]].target[0] != '/'
    ensures Step(t, At(dir, [c] + rest)) == At(dir, Split(t[dir + [c]].target) + rest)
  {
    assert ([c] + rest)[1..] == rest;
  }

  lemma UpSteps(t: Tree)
    ensures Resolve(t, At(["a"] + ["b"], ["..", "..", ".."]), 3) == Outside
  {
    assert Parent(["a"] + ["b"]) == ["a"] && Parent(["a"]) == [];
    assert ["..", "..", ".."][1..] == ["..", ".."] && ["..", ".."][1..] == [".."];
    assert Step(t, At(["a"] + ["b"], ["..", "..", ".."])) == At(["a"], ["..", ".."]);
    assert Step(t, At(["a"], ["..", ".."])) == At([], [".."]);
  }

  lemma {:induction false} ResolveMore(t: Tree, w: Walk, m: nat, n: nat)
    ensures Resolve(t, w, m + n) == Resolve(t, Resolve(t, w, m), n)
    decreases m
  {
    if m > 0 { ResolveMore(t, Step(t, w), m - 1, n); }
  }

  /** The rule against ".." after a name is needed: each of these two links stays inside
      by its own text, yet together they leave the root. */
  lemma ChainedEscape(t: Tree)
    requires HasChain(t)
    ensures Clean("a/b/up/..") == ["a", "b"] && !SafeSymlink(["out"], "a/b/up/..")
    ensures Resolve(t, At([], ["out"]), 7) == Outside
  {
    ChainSplits();
    OutSteps(t);
    DownSteps(t);
    UpSteps(t);
    ResolveMore(t, At([], ["out"]), 4, 3);
    assert Resolve(t, At([], ["out"]), 4) == At(["a"] + ["b"], ["..", "..", ".."]);
    ChainIsRefused();
  }

  lemma ChainIsRefused()
    ensures Clean("a/b/up/..") == ["a", "b"] && !SafeSymlink(["out"], "a/b/up/..")
  {
    ChainSplits();
    var cs := ["a", "b", "up", ".."];
    assert cs[1..] == ["b", "up", ".."] && cs[1..][1..] == ["up", ".."] && cs[1..][1..][1..] == [".."];
    assert [] + ["a"] + ["b"] + ["up"] == ["a", "b", "up"] && Parent(["a", "b", "up"]) == ["a", "b"];
    assert !UpsFirst(cs, false);
  }
}
