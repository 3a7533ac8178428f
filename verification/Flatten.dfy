// internal/rootfs/flatten.go: OCI layers applied entry by entry to one
// directory tree, against a declarative overlay of the layers.

module Flatten {
  import opened Common

  type Path = seq<string>

  datatype Node = Dir | File(content: string)

  /** A tar header: its name split at '/', and what is used of its type. Links
      are not modelled; `Other` is a device or FIFO, which is skipped. */
  datatype Kind = DirEntry | RegEntry(content: string) | Other
  datatype Entry = Entry(name: seq<string>, kind: Kind)

  type Tree = map<Path, Node>

  const OPAQUE_NAME: string := ".wh..wh..opq"
  const WHITEOUT_PREFIX: string := ".wh."

  // ----- names ---------------------------------------------------------------------

  predicate Plain(c: string) {
    c != "" && c != "." && c != ".."
  }

  /** filepath.Clean of a relative name: only leading ".." survive. */
  function CleanRel(name: seq<string>): seq<string> {
    if name == [] then []
    else
      var front, c := CleanRel(name[..|name| - 1]), name[|name| - 1];
      if c == "" || c == "." then front
      else if c == ".." && front != [] && front[|front| - 1] != ".." then front[..|front| - 1]
      else front + [c]
  }

  /** filepath.Join of an absolute directory and a relative name. */
  function JoinAbs(dir: Path, name: seq<string>): Path {
    if name == [] then dir
    else
      var front, c := JoinAbs(dir, name[..|name| - 1]), name[|name| - 1];
      if c == "" || c == "." then front
      else if c == ".." then (if front == [] then [] else front[..|front| - 1])
      else front + [c]
  }

  /** The name starts with '/'. */
  predicate Rooted(name: seq<string>) {
    |name| > 1 && name[0] == ""
  }

  /** filepath.Clean: a rooted name cannot climb above the root. */
  function Clean(name: seq<string>): seq<string> {
    if Rooted(name) then JoinAbs([], name) else CleanRel(name)
  }

  /** safeJoin: the path relative to `dir`, or None for one that leaves it. */
  function SafeJoin(dir: Path, name: seq<string>): Option<Path> {
    var target := JoinAbs(dir, name);
    if dir <= target then Some(target[|dir|..]) else None
  }

  /** What an entry does to the tree below `dir`. */
  datatype Action = Clear(path: Path) | Remove(path: Path) | MakeDir(path: Path) | Put(path: Path, content: string)
                  | Skip | Escape

  function Parse(dir: Path, e: Entry): Action {
    var name := Clean(e.name);
    var base := if name == [] then "." else name[|name| - 1];
    var parent := if name == [] then [] else name[..|name| - 1];
    if base == OPAQUE_NAME then
      match SafeJoin(dir, parent) case None => Escape case Some(p) => Clear(p)
    else if WHITEOUT_PREFIX <= base then
      match SafeJoin(dir, parent + [base[|WHITEOUT_PREFIX|..]]) case None => Escape case Some(p) => Remove(p)
    else
      match SafeJoin(dir, name)
      case None => Escape
      case Some(p) =>
        match e.kind
        case DirEntry => MakeDir(p)
        case RegEntry(content) => Put(p, content)
        case Other => Skip
  }

  /** safeJoin accepts exactly the names that stay inside: no accepted target
      lies outside `dir`, and every name of ordinary components is accepted. */
  lemma {:induction false} SafeJoinStaysInside(dir: Path, name: seq<string>)
    ensures match SafeJoin(dir, name)
            case Some(p) => JoinAbs(dir, name) == dir + p
            case None => !(dir <= JoinAbs(dir, name))
    ensures (forall c | c in name :: Plain(c)) ==> SafeJoin(dir, name) == Some(name)
  {
    if name == [] {
      assert dir[|dir|..] == [];
    } else {
      var front := name[..|name| - 1];
      SafeJoinStaysInside(dir, front);
      if forall c | c in name :: Plain(c) {
        assert forall c | c in front :: c in name;
        assert Plain(name[|name| - 1]);
        assert JoinAbs(dir, front) == dir + front;
        assert JoinAbs(dir, name) == dir + (front + [name[|name| - 1]]);
        assert front + [name[|name| - 1]] == name;
      }
    }
  }

  // ----- the file system calls --------------------------------------------------------

  function Lookup(t: Tree, p: Path): Option<Node> {
    if p in t then Some(t[p]) else None
  }

  function RemoveAll(t: Tree, victim: Path): Tree {
    map p | p in t && !(victim <= p) :: t[p]
  }

  function ClearDir(t: Tree, dir: Path): Tree {
    map p | p in t && !(dir < p) :: t[p]
  }

  /** os.MkdirAll: fails on a file in the way, otherwise fills in what is missing. */
  function MkdirAll(t: Tree, p: Path): Option<Tree>
    decreases |p|
  {
    if p == [] then
      if [] in t then (if t[[]].Dir? then Some(t) else None) else Some(t[[] := Dir])
    else
      match MkdirAll(t, p[..|p| - 1])
      case None => None
      case Some(u) => if p in u then (if u[p].Dir? then Some(u) else None) else Some(u[p := Dir])
  }

  function PutFile(t: Tree, p: Path, content: string): Option<Tree> {
    if p == [] then None       // the root itself is a directory
    else
      match MkdirAll(t, p[..|p| - 1])
      case None => None
      case Some(u) => if p in u && u[p].Dir? then None else Some(u[p := File(content)])
  }

  /** A component on the way to `p` is a file: the call fails with ENOTDIR. */
  predicate Blocked(t: Tree, p: Path) {
    exists k :: 0 <= k < |p| && p[..k] in t && t[p[..k]].File?
  }

  function Act(t: Tree, a: Action): Option<Tree> {
    match a
    case Clear(d) =>
      if Blocked(t, d) || (d in t && t[d].File?) then None
      else if d !in t then Some(t)
      else Some(ClearDir(t, d))
    case Remove(v) => if Blocked(t, v) then None else Some(RemoveAll(t, v))
    case MakeDir(p) => MkdirAll(t, p)
    case Put(p, content) => PutFile(t, p, content)
    case Skip => Some(t)
    case Escape => None
  }

  function ActAll(t: Tree, actions: seq<Action>): Option<Tree> {
    if actions == [] then Some(t)
    else match ActAll(t, actions[..|actions| - 1])
         case None => None
         case Some(u) => Act(u, actions[|actions| - 1])
  }

  function Actions(dir: Path, entries: seq<Entry>): seq<Action> {
    seq(|entries|, i requires 0 <= i < |entries| => Parse(dir, entries[i]))
  }

  const EMPTY_ROOT: Tree := map[[] := Dir]

  /** Flatten: every layer, bottom first. */
  function FlattenTree(layers: seq<seq<Action>>): Option<Tree> {
    if layers == [] then Some(EMPTY_ROOT)
    else match FlattenTree(layers[..|layers| - 1])
         case None => None
         case Some(t) => ActAll(t, layers[|layers| - 1])
  }

  /** A failure anywhere on the way is the outcome. */
  lemma {:induction false} MkdirAllStops(t: Tree, p: Path, k: nat)
    requires k <= |p| && MkdirAll(t, p[..k]).None?
    ensures MkdirAll(t, p).None?
    decreases |p|
  {
    if k < |p| {
      assert p[..|p| - 1][..k] == p[..k];
      MkdirAllStops(t, p[..|p| - 1], k);
    } else {
      assert p[..k] == p;
    }
  }

  lemma {:induction false} ActAllStops(t: Tree, actions: seq<Action>, k: nat)
    requires k <= |actions| && ActAll(t, actions[..k]).None?
    ensures ActAll(t, actions).None?
    decreases |actions|
  {
    if k < |actions| {
      assert actions[..|actions| - 1][..k] == actions[..k];
      ActAllStops(t, actions[..|actions| - 1], k);
    } else {
      assert actions[..k] == actions;
    }
  }

  // ----- in place -------------------------------------------------------------------------

  class RootDir {
    var nodes: Tree
    const dir: Path

    constructor (dir: Path)
      ensures nodes == EMPTY_ROOT && this.dir == dir
    {
      nodes := EMPTY_ROOT;
      this.dir := dir;
    }

    /** os.MkdirAll, from the root down. */
    method Mkdirs(p: Path) returns (ok: bool)
      modifies this
      ensures match MkdirAll(old(nodes), p)
              case None => !ok
              case Some(t) => ok && nodes == t
    {
      if [] in nodes && nodes[[]].File? {
        MkdirAllStops(nodes, p, 0);
        return false;
      }
      if [] !in nodes {
        nodes := nodes[[] := Dir];
      }
      for i := 0 to |p|
        invariant MkdirAll(old(nodes), p[..i]) == Some(nodes)
      {
        var q := p[..i + 1];
        assert q[..|q| - 1] == p[..i];
        if q in nodes && nodes[q].File? {
          MkdirAllStops(old(nodes), p, i + 1);
          return false;
        }
        if q !in nodes {
          nodes := nodes[q := Dir];
        }
      }
      assert p[..|p|] == p;
      return true;
    }

    /** The body of untarLayer's loop. */
    method Apply(a: Action) returns (ok: bool)
      modifies this
      ensures match Act(old(nodes), a)
              case None => !ok
              case Some(t) => ok && nodes == t
    {
      match a
      case Clear(d) =>
        ok := !Blocked(nodes, d) && !(d in nodes && nodes[d].File?);
        if d in nodes {
          nodes := ClearDir(nodes, d);
        }
      case Remove(v) =>
        ok := !Blocked(nodes, v);
        nodes := RemoveAll(nodes, v);
      case MakeDir(p) => ok := Mkdirs(p);
      case Put(p, content) =>
        if p == [] {
          return false;
        }
        ok := Mkdirs(p[..|p| - 1]);
        if ok {
          ok := !(p in nodes && nodes[p].Dir?);
          nodes := nodes[p := File(content)];
        }
      case Skip => ok := true;
      case Escape => ok := false;
    }

    /** untarLayer. */
    method Untar(entries: seq<Entry>) returns (ok: bool)
      modifies this
      ensures match ActAll(old(nodes), Actions(dir, entries))
              case None => !ok
              case Some(t) => ok && nodes == t
    {
      hide Parse, Act;
      ghost var actions := Actions(dir, entries);
      for i := 0 to |entries|
        invariant ActAll(old(nodes), actions[..i]) == Some(nodes)
      {
        assert actions[..i + 1][..i] == actions[..i];
        var moved := Apply(Parse(dir, entries[i]));
        if !moved {
          ActAllStops(old(nodes), actions, i + 1);
          return false;
        }
      }
      assert actions[..|entries|] == actions;
      return true;
    }
  }

  function AllActions(dir: Path, layers: seq<seq<Entry>>): seq<seq<Action>> {
    seq(|layers|, i requires 0 <= i < |layers| => Actions(dir, layers[i]))
  }

  lemma {:induction false} FlattenStops(layers: seq<seq<Action>>, k: nat)
    requires k <= |layers| && FlattenTree(layers[..k]).None?
    ensures FlattenTree(layers).None?
    decreases |layers|
  {
    if k < |layers| {
      assert layers[..|layers| - 1][..k] == layers[..k];
      FlattenStops(layers[..|layers| - 1], k);
    } else {
      assert layers[..k] == layers;
    }
  }

  /** Flatten, into a fresh root. */
  method FlattenInto(root: RootDir, layers: seq<seq<Entry>>) returns (ok: bool)
    requires root.nodes == EMPTY_ROOT
    modifies root
    ensures match FlattenTree(AllActions(root.dir, layers))
            case None => !ok
            case Some(t) => ok && root.nodes == t
  {
    ghost var all := AllActions(root.dir, layers);
    for i := 0 to |layers|
      invariant FlattenTree(all[..i]) == Some(root.nodes)
    {
      assert all[..i + 1][..i] == all[..i];
      ok := root.Untar(layers[i]);
      if !ok {
        FlattenStops(all, i + 1);
        return;
      }
    }
    assert all[..|layers|] == all;
    ok := true;
  }

  // ----- how names are read ---------------------------------------------------------------

  predicate PlainPath(p: Path) {
    forall c | c in p :: Plain(c)
  }

  lemma {:induction false} CleanPlain(p: Path)
    requires PlainPath(p)
    ensures CleanRel(p) == p
  {
    if p != [] {
      var front := p[..|p| - 1];
      assert forall c | c in front :: c in p;
      CleanPlain(front);
      assert Plain(p[|p| - 1]) && front + [p[|p| - 1]] == p;
    }
  }

  /** Names of ordinary components mean themselves; `.wh.x` removes its sibling x;
      `.wh..wh..opq` clears its directory; a device or FIFO is skipped. */
  lemma NamesMeanThemselves(dir: Path, parent: Path, base: string, kind: Kind)
    requires PlainPath(parent) && Plain(base)
    ensures Parse(dir, Entry(parent + [".wh..wh..opq"], kind)) == Clear(parent)
    ensures ".wh." + base != ".wh..wh..opq" ==> Parse(dir, Entry(parent + [".wh." + base], kind)) == Remove(parent + [base])
    ensures !(".wh." <= base) ==>
              Parse(dir, Entry(parent + [base], kind)) ==
                match kind
                case DirEntry => MakeDir(parent + [base])
                case RegEntry(content) => Put(parent + [base], content)
                case Other => Skip
  {
    MarkerNames(base);
    OneName(parent, OPAQUE_NAME);
    OneName(parent, WHITEOUT_PREFIX + base);
    OneName(parent, base);
    SafeJoinStaysInside(dir, parent);
    SafeJoinStaysInside(dir, parent + [base]);
    assert OPAQUE_NAME == ".wh..wh..opq" && WHITEOUT_PREFIX == ".wh.";
    hide OPAQUE_NAME, WHITEOUT_PREFIX, SafeJoin, Plain;
  }

  lemma OneName(parent: Path, base: string)
    requires PlainPath(parent) && Plain(base)
    ensures Clean(parent + [base]) == parent + [base] && PlainPath(parent + [base])
  {
    CleanPlain(parent + [base]);
    if parent != [] { assert parent[0] in parent && (parent + [base])[0] == parent[0]; }
  }

  lemma {:induction false} RootedStaysInside(name: seq<string>)
    ensures PlainPath(JoinAbs([], name))
  {
    if name != [] { RootedStaysInside(name[..|name| - 1]); }
  }

  /** A rooted name, however it climbs, never leaves the image's root: `/../x` is x. */
  lemma RootedNamesLand(dir: Path, e: Entry)
    requires Rooted(e.name)
    ensures PlainPath(Clean(e.name))
    ensures !Parse(dir, e).Escape? || WHITEOUT_PREFIX <= (if Clean(e.name) == [] then "." else Clean(e.name)[|Clean(e.name)| - 1])
  {
    RootedStaysInside(e.name);
    var name := Clean(e.name);
    assert PlainPath(name);
    hide JoinAbs, CleanRel, OPAQUE_NAME, WHITEOUT_PREFIX, Rooted, Clean;
    SafeJoinStaysInside(dir, name);
    if name != [] {
      var parent := name[..|name| - 1];
      assert forall c | c in parent :: c in name;
      SafeJoinStaysInside(dir, parent);
    } else {
      SafeJoinStaysInside(dir, []);
    }
    hide SafeJoin, Plain, PlainPath;
  }

  lemma MarkerNames(base: string)
    requires Plain(base)
    ensures Plain(OPAQUE_NAME) && Plain(WHITEOUT_PREFIX + base)
    ensures WHITEOUT_PREFIX <= WHITEOUT_PREFIX + base && (WHITEOUT_PREFIX + base)[|WHITEOUT_PREFIX|..] == base
    ensures WHITEOUT_PREFIX <= OPAQUE_NAME
  {
  }
}
