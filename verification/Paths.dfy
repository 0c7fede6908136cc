/** Slash paths as the archive code reads them: strings.Split, path.Clean on
    relative paths, cleanClaudeArchiveName and validateClaudeSymlink
    (data-plane/cmd/agent/state_archive.go). */
module Paths {
  import opened Wrappers

  type Name = string
  type Path = seq<Name>

  /** A directory entry's name. */
  predicate Normal(c: Name) { c != "" && c != "." && c != ".." && '/' !in c }

  ghost predicate NormalPath(p: Path) { forall c :: c in p ==> Normal(c) }

  function Parent(p: Path): (parent: Path)
    requires p != []
    ensures |parent| == |p| - 1
  {
    p[..|p| - 1]
  }

  // ------------------------------------------------------------- split and join

  function Split(s: string): (cs: seq<string>)
    ensures cs != []
  {
    if s == "" then [""]
    else
      var rest := Split(s[1..]);
      if s[0] == '/' then [""] + rest else [[s[0]] + rest[0]] + rest[1..]
  }

  function Join(cs: seq<string>): string {
    if cs == [] then "" else if |cs| == 1 then cs[0] else cs[0] + "/" + Join(cs[1..])
  }

  lemma {:induction false} SplitPlain(c: string)
    requires '/' !in c
    ensures Split(c) == [c]
  {
    if c != "" {
      SplitPlain(c[1..]);
      assert [c[0]] + c[1..] == c;
    }
  }

  lemma {:induction false} SplitAfter(c: string, s: string)
    requires '/' !in c
    ensures Split(c + "/" + s) == [c] + Split(s)
  {
    if c == "" {
      assert (c + "/" + s)[1..] == s;
    } else {
      SplitAfter(c[1..], s);
      assert (c + "/" + s)[1..] == c[1..] + "/" + s;
      assert [c[0]] + c[1..] == c;
    }
  }

  lemma {:induction false} SplitJoin(cs: seq<string>)
    requires cs != [] && forall c :: c in cs ==> '/' !in c
    ensures Split(Join(cs)) == cs
  {
    if |cs| == 1 {
      SplitPlain(cs[0]);
    } else {
      SplitJoin(cs[1..]);
      SplitAfter(cs[0], Join(cs[1..]));
    }
  }

  lemma {:induction false} SplitPieces(s: string)
    ensures forall c :: c in Split(s) ==> '/' !in c
  {
    if s != "" { SplitPieces(s[1..]); }
  }

  // ----------------------------------------------------------------- path.Clean

  /** The components path.Clean keeps of a relative path, after those in `done`. */
  function CleanOnto(done: Path, cs: seq<string>): Path
    decreases |cs|
  {
    if cs == [] then done
    else if cs[0] == "" || cs[0] == "." then CleanOnto(done, cs[1..])
    else if cs[0] == ".." then
      CleanOnto(if done != [] && done[|done| - 1] != ".." then Parent(done) else done + [".."], cs[1..])
    else CleanOnto(done + [cs[0]], cs[1..])
  }

  function Clean(s: string): Path { CleanOnto([], Split(s)) }

  /** Leading ".." components, then names: the only shape Clean leaves. */
  predicate UpsThenNames(p: Path) {
    forall i :: 0 <= i < |p| ==> Normal(p[i]) || (p[i] == ".." && forall j :: 0 <= j < i ==> p[j] == "..")
  }

  lemma {:induction false} CleanShape(done: Path, cs: seq<string>)
    requires UpsThenNames(done) && forall c :: c in cs ==> '/' !in c
    ensures UpsThenNames(CleanOnto(done, cs))
    decreases |cs|
  {
    if cs != [] {
      assert cs[0] in cs;
      if cs[0] == "" || cs[0] == "." {
        CleanShape(done, cs[1..]);
      } else if cs[0] == ".." {
        if done != [] && done[|done| - 1] != ".." {
          CleanShape(Parent(done), cs[1..]);
        } else {
          AllUps(done);
          CleanShape(done + [".."], cs[1..]);
        }
      } else {
        CleanShape(done + [cs[0]], cs[1..]);
      }
    }
  }

  lemma AllUps(done: Path)
    requires UpsThenNames(done) && (done == [] || done[|done| - 1] == "..")
    ensures UpsThenNames(done + [".."])
  {
  }

  /** Names are kept as they stand. */
  lemma {:induction false} CleanNames(done: Path, cs: seq<string>)
    requires NormalPath(cs)
    ensures CleanOnto(done, cs) == done + cs
    decreases |cs|
  {
    if cs == [] {
      assert done + cs == done;
    } else {
      assert cs[0] in cs;
      CleanNames(done + [cs[0]], cs[1..]);
      assert (done + [cs[0]]) + cs[1..] == done + cs;
    }
  }

  datatype Error = UnsafeName | UnsafeSymlink | Escapes

  /** cleanClaudeArchiveName, as components. */
  function CleanArchiveName(name: string): Result<Path, Error> {
    if name == "" || '\\' in name || name[0] == '/' then Err(UnsafeName)
    else
      var clean := Clean(name);
      if clean == [] || clean[0] == ".." then Err(UnsafeName) else Ok(clean)
  }

  /** An accepted name is a non-empty path of ordinary names below the root. */
  lemma CleanArchiveNameMeans(name: string)
    ensures var r := CleanArchiveName(name); r.Ok? ==> r.value != [] && NormalPath(r.value)
  {
    if CleanArchiveName(name).Ok? {
      SplitPieces(name);
      CleanShape([], Split(name));
      var p := Clean(name);
      forall i | 0 <= i < |p|
        ensures Normal(p[i])
      {
      }
    }
  }

  /** A path of ordinary names comes back from its joined form, unless some name
      holds a backslash: then the name is refused. */
  lemma JoinedName(p: Path)
    requires p != [] && NormalPath(p)
    ensures CleanArchiveName(Join(p)) == if exists c :: c in p && '\\' in c then Err(UnsafeName) else Ok(p)
  {
    SplitJoin(p);
    CleanNames([], p);
    assert [] + p == p;
    JoinHas(p, '\\');
    assert p[0] in p;
    JoinStarts(p);
  }

  lemma {:induction false} JoinHas(p: Path, ch: char)
    requires ch != '/'
    ensures ch in Join(p) <==> exists c :: c in p && ch in c
  {
    if |p| == 1 {
      assert p[0] in p;
    } else if |p| > 1 {
      JoinHas(p[1..], ch);
      assert p == [p[0]] + p[1..];
      if ch in Join(p[1..]) {
        var c :| c in p[1..] && ch in c;
        assert c in p;
      }
    }
  }

  lemma JoinStarts(p: Path)
    requires p != [] && Normal(p[0])
    ensures Join(p) != "" && Join(p)[0] == p[0][0] && Join(p)[0] != '/'
  {
    assert p[0][0] in p[0];
  }

  // ------------------------------------------------------------------- symlinks

  /** Only ".." before any name, and "" or "." anywhere: the loop in validateClaudeSymlink. */
  predicate UpsFirst(cs: seq<string>, sawNormal: bool)
    decreases |cs|
  {
    cs == [] ||
    if cs[0] == "" || cs[0] == "." then UpsFirst(cs[1..], sawNormal)
    else if cs[0] == ".." then !sawNormal && UpsFirst(cs[1..], sawNormal)
    else UpsFirst(cs[1..], true)
  }

  function Ups(cs: seq<string>): nat
    decreases |cs|
  {
    if cs == [] then 0 else (if cs[0] == ".." then 1 else 0) + Ups(cs[1..])
  }

  /** validateClaudeSymlink for a link that stands at rel. */
  predicate SafeSymlink(rel: Path, link: string) {
    && link != "" && '\\' !in link && link[0] != '/'
    && UpsFirst(Split(link), false)
    && var resolved := CleanOnto(if rel == [] then [] else Parent(rel), Split(link));
      resolved == [] || resolved[0] != ".."
  }

  lemma {:induction false} NoUps(cs: seq<string>)
    requires UpsFirst(cs, true)
    ensures Ups(cs) == 0
    decreases |cs|
  {
    if cs != [] { NoUps(cs[1..]); }
  }

  /** Once out, a cleaned path stays out. */
  lemma {:induction false} StaysOut(done: Path, cs: seq<string>)
    requires done != [] && done[0] == ".."
    ensures CleanOnto(done, cs) != [] && CleanOnto(done, cs)[0] == ".."
    decreases |cs|
  {
    if cs != [] {
      StaysOut(if cs[0] == "" || cs[0] == "." then done
               else if cs[0] == ".." then if done[|done| - 1] != ".." then Parent(done) else done + [".."]
               else done + [cs[0]], cs[1..]);
    }
  }

  /** The lexical check means: no more ".." than directories above the link. */
  lemma {:induction false} CleanStaysIn(done: Path, cs: seq<string>, sawNormal: bool)
    requires NormalPath(done) && UpsFirst(cs, sawNormal) && forall c :: c in cs ==> '/' !in c
    ensures var resolved := CleanOnto(done, cs);
      (resolved == [] || resolved[0] != "..") <==> Ups(cs) <= |done|
    decreases |cs|
  {
    if cs == [] {
      assert done != [] ==> done[0] in done;
    } else {
      assert cs[0] in cs;
      if cs[0] == "" || cs[0] == "." {
        CleanStaysIn(done, cs[1..], sawNormal);
      } else if cs[0] == ".." {
        if done == [] {
          assert done + [".."] == [".."];
          StaysOut([".."], cs[1..]);
        } else {
          assert done[|done| - 1] in done;
          assert forall c :: c in Parent(done) ==> c in done;
          CleanStaysIn(Parent(done), cs[1..], sawNormal);
        }
      } else {
        NoUps(cs[1..]);
        CleanStaysIn(done + [cs[0]], cs[1..], true);
      }
    }
  }

  lemma SafeSymlinkMeans(rel: Path, link: string)
    requires rel != [] && NormalPath(rel)
    ensures SafeSymlink(rel, link) <==>
            link != "" && '\\' !in link && link[0] != '/' && UpsFirst(Split(link), false) && Ups(Split(link)) < |rel|
  {
    if UpsFirst(Split(link), false) {
      SplitPieces(link);
      assert forall c :: c in Parent(rel) ==> c in rel;
      CleanStaysIn(Parent(rel), Split(link), false);
    }
  }

  method ValidateSymlink(rel: Path, link: string) returns (ok: bool)
    ensures ok == SafeSymlink(rel, link)
  {
    if link == "" || '\\' in link || link[0] == '/' { return false; }
    var cs := Split(link);
    var sawNormal := false;
    var i := 0;
    while i < |cs|
      invariant i <= |cs| && UpsFirst(cs, false) == UpsFirst(cs[i..], sawNormal)
    {
      assert cs[i..][1..] == cs[i + 1..];
      if cs[i] == ".." {
        if sawNormal { return false; }
      } else if cs[i] != "" && cs[i] != "." {
        sawNormal := true;
      }
      i := i + 1;
    }
    var resolved := CleanOnto(if rel == [] then [] else Parent(rel), cs);
    return resolved == [] || resolved[0] != "..";
  }
}
