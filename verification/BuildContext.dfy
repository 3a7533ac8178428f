// cmd/oak/context.go: the walk that tars a build context, pruning ignored
// directories, against the plain filter of every path.

module BuildContext {

  /** A path relative to the context root, split at '/'. */
  type Path = seq<string>

  /** One line of .dockerignore. `negated`: written with '!'. `name`: its text;
      `matches`: whether the glob itself matches a path. */
  datatype Pattern = Pattern(negated: bool, name: Path, matches: Path -> bool)

  /** A directory's entries in the order WalkDir visits them. */
  datatype Node = FileNode | DirNode(kids: Kids)
  datatype Kids = Nil | Cons(name: string, node: Node, rest: Kids)

  const GIT_DIR: Path := [".git"]
  const IGNORE_FILE: Path := [".dockerignore"]

  // ----- the matcher ------------------------------------------------------------------

  /** A pattern applies to a path when it matches it or one of its parents. */
  predicate Hits(pat: Pattern, p: Path) {
    exists k :: 0 < k <= |p| && pat.matches(p[..k])
  }

  /** The last pattern that applies decides. */
  function Ignored(pats: seq<Pattern>, p: Path): bool {
    if pats == [] then false
    else
      var before, pat := Ignored(pats[..|pats| - 1], p), pats[|pats| - 1];
      if pat.negated then before && !Hits(pat, p) else before || Hits(pat, p)
  }

  /** Could an exception match something at or below `dir`? */
  predicate ExceptionBelow(pats: seq<Pattern>, dir: Path) {
    exists i :: 0 <= i < |pats| && pats[i].negated && dir <= pats[i].name
  }

  /** Some plain pattern applies to the path and no later pattern does. */
  lemma {:induction false} LastMatchWins(pats: seq<Pattern>, p: Path)
    ensures Ignored(pats, p) <==>
            exists i :: 0 <= i < |pats| && !pats[i].negated && Hits(pats[i], p) && forall j | i < j < |pats| :: !Hits(pats[j], p)
  {
    if pats != [] {
      var n := |pats| - 1;
      var front := pats[..n];
      LastMatchWins(front, p);
      hide Hits, Ignored;
      assert forall j | 0 <= j < n :: front[j] == pats[j];
      if Hits(pats[n], p) {
      } else if i :| 0 <= i < n && !front[i].negated && Hits(front[i], p) && forall j | i < j < n :: !Hits(front[j], p) {
        assert forall j | i < j < |pats| :: !Hits(pats[j], p);
      } else if i :| 0 <= i < |pats| && !pats[i].negated && Hits(pats[i], p) && forall j | i < j < |pats| :: !Hits(pats[j], p) {
        assert i < n && Hits(front[i], p);
      }
    }
  }

  /** patternmatcher's MatchesOrParentMatches: patterns in order, each evaluated
      only if it could change the verdict so far. A path is ignored exactly if a
      plain pattern matches it or one of its parents and no later pattern does. */
  method MatchesOrParentMatches(pats: seq<Pattern>, p: Path) returns (matched: bool)
    ensures matched == Ignored(pats, p)
    ensures matched <==>
            exists i, k :: 0 <= i < |pats| && 0 < k <= |p| && !pats[i].negated && pats[i].matches(p[..k])
                           && forall j, l | i < j < |pats| && 0 < l <= |p| :: !pats[j].matches(p[..l])
  {
    LastMatchWins(pats, p);
    matched := false;
    for i := 0 to |pats|
      invariant matched == Ignored(pats[..i], p)
    {
      assert pats[..i + 1][..i] == pats[..i];
      if pats[i].negated == matched {
        var hit := false;
        for k := 1 to |p| + 1
          invariant hit <==> exists j :: 0 < j < k && pats[i].matches(p[..j])
        {
          if pats[i].matches(p[..k]) {
            hit := true;
          }
        }
        assert hit <==> Hits(pats[i], p);
        if hit {
          matched := !pats[i].negated;
        }
      }
    }
    assert pats[..|pats|] == pats;
  }

  method FindExceptionBelow(pats: seq<Pattern>, dir: Path) returns (found: bool)
    ensures found <==> exists i :: 0 <= i < |pats| && pats[i].negated && dir <= pats[i].name
    ensures found == ExceptionBelow(pats, dir)
  {
    for i := 0 to |pats|
      invariant !ExceptionBelow(pats[..i], dir)
    {
      if pats[i].negated && dir <= pats[i].name {
        return true;
      }
    }
    assert pats[..|pats|] == pats;
    return false;
  }

  // ----- the walk -----------------------------------------------------------------------

  datatype Verdict = Emit | Drop | SkipDir

  function Visit(pats: seq<Pattern>, dockerfile: Path, p: Path, isDir: bool): Verdict {
    if p == GIT_DIR then SkipDir
    else if p == IGNORE_FILE then Drop
    else if p == dockerfile then Emit
    else if !Ignored(pats, p) then Emit
    else if !isDir || ExceptionBelow(pats, p) then Drop
    else SkipDir
  }

  /** filepath.WalkDir: SkipDir on a directory skips what is below it; on a file
      it skips the rest of the directory the file is in. */
  function Walk(pats: seq<Pattern>, dockerfile: Path, d: Path, kids: Kids): seq<Path>
    decreases kids
  {
    match kids
    case Nil => []
    case Cons(name, node, rest) =>
      var p := d + [name];
      var v := Visit(pats, dockerfile, p, node.DirNode?);
      if v == SkipDir && node.FileNode? then []
      else
        (if v == Emit then [p] else [])
        + (if v != SkipDir && node.DirNode? then Walk(pats, dockerfile, p, node.kids) else [])
        + Walk(pats, dockerfile, d, rest)
  }

  /** Every path, parents before children. */
  function AllPaths(d: Path, kids: Kids): seq<Path>
    decreases kids
  {
    match kids
    case Nil => []
    case Cons(name, node, rest) =>
      [d + [name]] + (if node.DirNode? then AllPaths(d + [name], node.kids) else []) + AllPaths(d, rest)
  }

  lemma WalkStep(pats: seq<Pattern>, dockerfile: Path, d: Path, kids: Kids)
    requires kids.Cons?
    ensures var p := d + [kids.name];
            var v := Visit(pats, dockerfile, p, kids.node.DirNode?);
            Walk(pats, dockerfile, d, kids) ==
              if v == SkipDir && kids.node.FileNode? then []
              else
                (if v == Emit then [p] else [])
                + (if v != SkipDir && kids.node.DirNode? then Walk(pats, dockerfile, p, kids.node.kids) else [])
                + Walk(pats, dockerfile, d, kids.rest)
  {
  }

  lemma Regroup(a: seq<Path>, b: seq<Path>, c: seq<Path>, d: seq<Path>)
    ensures a + b + c + d == a + (b + c + d)
  {
  }

  class TarWriter {
    var entries: seq<Path>

    constructor ()
      ensures entries == []
    {
      entries := [];
    }

    /** The WalkDir callback and the recursion around it. */
    method WalkDir(pats: seq<Pattern>, dockerfile: Path, d: Path, kids: Kids)
      modifies this
      ensures entries == old(entries) + Walk(pats, dockerfile, d, kids)
      decreases kids
    {
      match kids
      case Nil =>
      case Cons(name, node, rest) =>
        var p := d + [name];
        var v := Callback(pats, dockerfile, p, node.DirNode?);
        WalkStep(pats, dockerfile, d, kids);
        hide Visit, Walk;
        if v == SkipDir && node.FileNode? {
          return;
        }
        ghost var before := entries;
        ghost var own := if v == Emit then [p] else [];
        ghost var below := if v != SkipDir && node.DirNode? then Walk(pats, dockerfile, p, node.kids) else [];
        if v == Emit {
          entries := entries + [p];
        }
        assert entries == before + own;
        if v != SkipDir && node.DirNode? {
          WalkDir(pats, dockerfile, p, node.kids);
          assert entries == before + own + below;
        }
        WalkDir(pats, dockerfile, d, rest);
        Regroup(before, own, below, Walk(pats, dockerfile, d, rest));
    }

    method Callback(pats: seq<Pattern>, dockerfile: Path, p: Path, isDir: bool) returns (v: Verdict)
      ensures v == Visit(pats, dockerfile, p, isDir)
    {
      if p == GIT_DIR {
        return SkipDir;
      }
      if p == IGNORE_FILE {
        return Drop;
      }
      if p == dockerfile {
        return Emit;
      }
      var matched := MatchesOrParentMatches(pats, p);
      if matched {
        if !isDir {
          return Drop;
        }
        var below := FindExceptionBelow(pats, p);
        return if below then Drop else SkipDir;
      }
      return Emit;
    }
  }

  // ----- what a context should contain -------------------------------------------------------

  /** A directory the walk does not enter. */
  predicate Pruned(pats: seq<Pattern>, dockerfile: Path, q: Path) {
    q != IGNORE_FILE && q != dockerfile && Ignored(pats, q) && !ExceptionBelow(pats, q)
  }

  /** Not ignored, outside .git and not the ignore file; the Dockerfile in any
      case, unless a directory it is in is pruned. */
  predicate Wanted(pats: seq<Pattern>, dockerfile: Path, p: Path) {
    && !(GIT_DIR <= p) && p != IGNORE_FILE
    && (if p == dockerfile then forall k | 0 < k < |p| :: !Pruned(pats, dockerfile, p[..k]) else !Ignored(pats, p))
  }

  function Select(pats: seq<Pattern>, dockerfile: Path, paths: seq<Path>): seq<Path> {
    if paths == [] then []
    else (if Wanted(pats, dockerfile, paths[0]) then [paths[0]] else []) + Select(pats, dockerfile, paths[1..])
  }

  /** Exceptions without wildcards: each matches exactly the path it spells. */
  ghost predicate LiteralExceptions(pats: seq<Pattern>) {
    forall i, q | 0 <= i < |pats| && pats[i].negated :: pats[i].matches(q) <==> q == pats[i].name
  }

  /** `.git` at the root, if there, is a directory. */
  predicate GitIsDir(d: Path, kids: Kids) {
    match kids
    case Nil => true
    case Cons(name, node, rest) => (d + [name] == GIT_DIR ==> node.DirNode?) && GitIsDir(d, rest)
  }

  lemma {:induction false} SelectAppend(pats: seq<Pattern>, dockerfile: Path, a: seq<Path>, b: seq<Path>)
    ensures Select(pats, dockerfile, a + b) == Select(pats, dockerfile, a) + Select(pats, dockerfile, b)
  {
    if a == [] {
      assert a + b == b;
    } else {
      assert (a + b)[1..] == a[1..] + b;
      SelectAppend(pats, dockerfile, a[1..], b);
    }
  }

  /** Below an ignored directory that no exception reaches, everything is ignored. */
  lemma {:induction false} IgnoredBelow(pats: seq<Pattern>, q: Path, p: Path)
    requires LiteralExceptions(pats) && q <= p && q != []
    requires !ExceptionBelow(pats, q) && Ignored(pats, q)
    ensures Ignored(pats, p)
  {
    Carries(pats, q, p);
  }

  lemma PrefixesCompare(a: Path, b: Path, p: Path)
    requires a <= p && b <= p && !(b <= a)
    ensures a <= b && a == b[..|a|]
  {
    assert a == p[..|a|] && b == p[..|b|];
  }

  lemma {:induction false} Carries(pats: seq<Pattern>, q: Path, p: Path)
    requires LiteralExceptions(pats) && q <= p && q != [] && !ExceptionBelow(pats, q)
    ensures Ignored(pats, q) ==> Ignored(pats, p)
  {
    if pats != [] {
      var n := |pats| - 1;
      var front, pat := pats[..n], pats[n];
      forall i | 0 <= i < |front| ensures front[i] == pats[i] { }
      Carries(front, q, p);
      if Hits(pat, q) {
        var k :| 0 < k <= |q| && pat.matches(q[..k]);
        assert p[..k] == q[..k];
      }
      if pat.negated && Hits(pat, p) {
        var k :| 0 < k <= |p| && pat.matches(p[..k]);
        assert p[..k] == pat.name && !(q <= pat.name);
        PrefixesCompare(pat.name, q, p);
        assert q[..k] == pat.name;
      }
    }
  }

  /** Nothing below a skipped directory is wanted. */
  lemma {:induction false} NothingBelow(pats: seq<Pattern>, dockerfile: Path, q: Path, d: Path, kids: Kids)
    requires LiteralExceptions(pats) && q != [] && q <= d
    requires q == GIT_DIR || Pruned(pats, dockerfile, q)
    ensures Select(pats, dockerfile, AllPaths(d, kids)) == []
    decreases kids
  {
    match kids
    case Nil =>
    case Cons(name, node, rest) =>
      var p := d + [name];
      var below := if node.DirNode? then AllPaths(p, node.kids) else [];
      SelectAppend(pats, dockerfile, [p] + below, AllPaths(d, rest));
      SelectAppend(pats, dockerfile, [p], below);
      NothingBelow(pats, dockerfile, q, d, rest);
      if node.DirNode? { NothingBelow(pats, dockerfile, q, p, node.kids); }
      assert p[..|q|] == q && |q| < |p|;
      if q != GIT_DIR { IgnoredBelow(pats, q, p); }
      assert !Wanted(pats, dockerfile, p);
  }

  /** No directory on the way to `d` was skipped. */
  predicate Entered(pats: seq<Pattern>, dockerfile: Path, d: Path) {
    forall k | 0 < k <= |d| :: d[..k] != GIT_DIR && !Pruned(pats, dockerfile, d[..k])
  }

  /** What is listed after a `.git` that is a file. */
  function AfterGitFile(d: Path, kids: Kids): Kids {
    match kids
    case Nil => Nil
    case Cons(name, node, rest) => if d + [name] == GIT_DIR && node.FileNode? then rest else AfterGitFile(d, rest)
  }

  predicate NoneWanted(pats: seq<Pattern>, dockerfile: Path, paths: seq<Path>) {
    forall p | p in paths :: !Wanted(pats, dockerfile, p)
  }

  lemma {:induction false} SelectsNone(pats: seq<Pattern>, dockerfile: Path, paths: seq<Path>)
    ensures Select(pats, dockerfile, paths) == [] <==> NoneWanted(pats, dockerfile, paths)
  {
    if paths != [] {
      assert paths == [paths[0]] + paths[1..];
      SelectsNone(pats, dockerfile, paths[1..]);
    }
  }

  lemma {:induction false} WalkIsSelection(pats: seq<Pattern>, dockerfile: Path, d: Path, kids: Kids)
    requires LiteralExceptions(pats) && Entered(pats, dockerfile, d)
    ensures Walk(pats, dockerfile, d, kids) == Select(pats, dockerfile, AllPaths(d, kids))
            <==> NoneWanted(pats, dockerfile, AllPaths(d, AfterGitFile(d, kids)))
    decreases kids
  {
    match kids
    case Nil =>
    case Cons(name, node, rest) =>
      var p := d + [name];
      var below := if node.DirNode? then AllPaths(p, node.kids) else [];
      SelectAppend(pats, dockerfile, [p] + below, AllPaths(d, rest));
      if p == GIT_DIR && node.FileNode? {
        assert !Wanted(pats, dockerfile, p);
        assert Select(pats, dockerfile, [p] + below) == [];
        SelectsNone(pats, dockerfile, AllPaths(d, rest));
      } else {
        WalkIsSelection(pats, dockerfile, d, rest);
        HeadIsSelected(pats, dockerfile, d, name, node);
        Cancel(Select(pats, dockerfile, [p] + below), Walk(pats, dockerfile, d, rest), Select(pats, dockerfile, AllPaths(d, rest)));
        hide Visit, Wanted, Entered, LiteralExceptions, NoneWanted, Select;
      }
  }

  /** What the walk does with one entry. */
  lemma {:induction false} HeadIsSelected(pats: seq<Pattern>, dockerfile: Path, d: Path, name: string, node: Node)
    requires LiteralExceptions(pats) && Entered(pats, dockerfile, d)
    requires !(d + [name] == GIT_DIR && node.FileNode?)
    ensures var p := d + [name];
            var v := Visit(pats, dockerfile, p, node.DirNode?);
            && (v == SkipDir ==> node.DirNode?)
            && (if v == Emit then [p] else [])
               + (if v != SkipDir && node.DirNode? then Walk(pats, dockerfile, p, node.kids) else [])
               == Select(pats, dockerfile, [p] + if node.DirNode? then AllPaths(p, node.kids) else [])
    decreases node
  {
    var p := d + [name];
    SelectAppend(pats, dockerfile, [p], if node.DirNode? then AllPaths(p, node.kids) else []);
    VisitWanted(pats, dockerfile, d, name, node.DirNode?);
    assert Select(pats, dockerfile, [p]) == if Wanted(pats, dockerfile, p) then [p] else [];
    hide Visit, Wanted, Pruned, Entered, LiteralExceptions, NoneWanted, Walk;
    if node.DirNode? {
      if Visit(pats, dockerfile, p, true) == SkipDir {
        NothingBelow(pats, dockerfile, p, p, node.kids);
      } else {
        DeepGit(p, node.kids);
        NothingListed(pats, dockerfile, p);
        WalkIsSelection(pats, dockerfile, p, node.kids);
      }
    }
  }

  lemma Cancel(a: seq<Path>, b: seq<Path>, c: seq<Path>)
    ensures a + b == a + c <==> b == c
  {
    assert (a + b)[|a|..] == b && (a + c)[|a|..] == c;
  }

  lemma NothingListed(pats: seq<Pattern>, dockerfile: Path, d: Path)
    ensures NoneWanted(pats, dockerfile, AllPaths(d, Nil))
  {
  }

  /** The callback's verdict on a path it reaches. */
  lemma VisitWanted(pats: seq<Pattern>, dockerfile: Path, d: Path, name: string, isDir: bool)
    requires Entered(pats, dockerfile, d) && (d + [name] == GIT_DIR ==> isDir)
    ensures var p := d + [name];
            var v := Visit(pats, dockerfile, p, isDir);
            && (v == Emit <==> Wanted(pats, dockerfile, p))
            && (v == SkipDir ==> isDir && (p == GIT_DIR || Pruned(pats, dockerfile, p)))
            && (v != SkipDir && isDir ==> Entered(pats, dockerfile, p))
  {
    var p := d + [name];
    assert forall k | 0 < k <= |d| :: p[..k] == d[..k];
    assert p[..|p|] == p;
    assert d != [] ==> p[0] == d[0] && d[..1] == [d[0]];
  }

  lemma {:induction false} DeepGit(d: Path, kids: Kids)
    requires d != []
    ensures AfterGitFile(d, kids) == Nil
    decreases kids
  {
    if kids.Cons? {
      assert |d + [kids.name]| > 1;
      DeepGit(d, kids.rest);
    }
  }

  lemma {:induction false} GitDirCutsNothing(d: Path, kids: Kids)
    requires GitIsDir(d, kids)
    ensures AfterGitFile(d, kids) == Nil
    decreases kids
  {
    if kids.Cons? { GitDirCutsNothing(d, kids.rest); }
  }

  /** With `.git` a directory, the pruned walk emits, in order, exactly the wanted paths. */
  lemma ContextIsExact(pats: seq<Pattern>, dockerfile: Path, kids: Kids)
    requires LiteralExceptions(pats) && GitIsDir([], kids)
    ensures Walk(pats, dockerfile, [], kids) == Select(pats, dockerfile, AllPaths([], kids))
  {
    GitFileCutsTheWalk(pats, dockerfile, kids);
    GitDirCutsNothing([], kids);
  }

  /** `q` is the way down to an entry of the tree. */
  predicate InTree(kids: Kids, q: Path) {
    match kids
    case Nil => false
    case Cons(name, node, rest) =>
      || (q == [name])
      || (|q| > 1 && q[0] == name && node.DirNode? && InTree(node.kids, q[1..]))
      || InTree(rest, q)
  }

  lemma {:induction false} AllPathsAreTheTree(d: Path, kids: Kids, p: Path)
    ensures p in AllPaths(d, kids) <==> d <= p && InTree(kids, p[|d|..])
    decreases kids
  {
    match kids
    case Nil =>
    case Cons(name, node, rest) =>
      AllPathsAreTheTree(d, rest, p);
      var here := d + [name];
      assert p == here <==> d <= p && p[|d|..] == [name];
      if node.DirNode? {
        AllPathsAreTheTree(here, node.kids, p);
        if d <= p && |p| > |here| && p[|d|] == name {
          assert p[..|here|] == here;
          assert p[|d|..][1..] == p[|here|..];
        }
        if here <= p {
          assert p[..|here|] == here && p[|d|..][1..] == p[|here|..];
          NotEmpty(node.kids);
        }
      }
  }

  lemma {:induction false} NotEmpty(kids: Kids)
    ensures !InTree(kids, [])
    decreases kids
  {
    if kids.Cons? { NotEmpty(kids.rest); }
  }

  lemma {:induction false} SelectHolds(pats: seq<Pattern>, dockerfile: Path, paths: seq<Path>, p: Path)
    ensures p in Select(pats, dockerfile, paths) <==> p in paths && Wanted(pats, dockerfile, p)
  {
    if paths != [] { SelectHolds(pats, dockerfile, paths[1..], p); }
  }

  /** So a path other than the Dockerfile's is in the context exactly if it is an
      entry of the tree, outside .git and not the ignore file, and no plain pattern
      that matches it or a parent is the last pattern that does. */
  lemma ContextHolds(pats: seq<Pattern>, dockerfile: Path, kids: Kids, p: Path)
    requires LiteralExceptions(pats) && GitIsDir([], kids) && p != dockerfile
    ensures p in Walk(pats, dockerfile, [], kids) <==>
              && InTree(kids, p) && !([".git"] <= p) && p != [".dockerignore"]
              && !(exists i :: 0 <= i < |pats| && !pats[i].negated && Hits(pats[i], p) && forall j | i < j < |pats| :: !Hits(pats[j], p))
  {
    ContextIsExact(pats, dockerfile, kids);
    SelectHolds(pats, dockerfile, AllPaths([], kids), p);
    AllPathsAreTheTree([], kids, p);
    LastMatchWins(pats, p);
    assert p[0..] == p;
    hide Walk, Select, AllPaths, Hits, LiteralExceptions, GitIsDir, InTree, Ignored;
  }

  /** With `.git` a plain file (a worktree, a submodule) the walk stops there: it
      emits exactly the wanted paths if and only if none is listed after it. */
  lemma GitFileCutsTheWalk(pats: seq<Pattern>, dockerfile: Path, kids: Kids)
    requires LiteralExceptions(pats)
    ensures Walk(pats, dockerfile, [], kids) == Select(pats, dockerfile, AllPaths([], kids))
            <==> forall p | p in AllPaths([], AfterGitFile([], kids)) :: !Wanted(pats, dockerfile, p)
  {
    WalkIsSelection(pats, dockerfile, [], kids);
  }

  /** As in a worktree with one source file and no patterns. */
  lemma WorktreeLosesItsSource(dockerfile: Path)
    requires dockerfile != ["main.go"]
    ensures var kids := Cons(".git", FileNode, Cons("main.go", FileNode, Nil));
            Walk([], dockerfile, [], kids) == [] && ["main.go"] in Select([], dockerfile, AllPaths([], kids))
  {
    var kids := Cons(".git", FileNode, Cons("main.go", FileNode, Nil));
    assert [] + [".git"] == GIT_DIR && [] + ["main.go"] == ["main.go"];
    assert AllPaths([], kids) == [GIT_DIR, ["main.go"]];
    assert [GIT_DIR, ["main.go"]][1..] == [["main.go"]];
    assert GIT_DIR[0] != ["main.go"][0] && IGNORE_FILE[0] != ["main.go"][0];
  }
}
