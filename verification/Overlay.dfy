// What a stack of layers means, path by path (the "Whiteouts" section of
// layer.md in the OCI image-spec), and that flattening computes it.

module Overlay {
  import opened Common
  import opened Flatten

  // ----- the declarative view ---------------------------------------------------------

  /** The content the layer gives `p`: its last regular-file entry there. */
  function LastPut(layer: seq<Action>, p: Path): Option<string> {
    if layer == [] then None
    else
      var a := layer[|layer| - 1];
      if a.Put? && a.path == p then Some(a.content) else LastPut(layer[..|layer| - 1], p)
  }

  /** The layer has a directory at `p`: an entry for it, or for something below it. */
  predicate MakesDir(a: Action, p: Path) {
    (a.MakeDir? && p <= a.path) || (a.Put? && p < a.path)
  }

  predicate HasDir(layer: seq<Action>, p: Path) {
    exists i :: 0 <= i < |layer| && MakesDir(layer[i], p)
  }

  /** A whiteout of `p` or an ancestor, or an opaque marker on an ancestor. */
  predicate Covers(a: Action, p: Path) {
    (a.Remove? && a.path <= p) || (a.Clear? && a.path < p)
  }

  predicate Hides(layer: seq<Action>, p: Path) {
    exists i :: 0 <= i < |layer| && Covers(layer[i], p)
  }

  /** The topmost layer that says anything about `p` decides. */
  function Union(layers: seq<seq<Action>>, p: Path): Option<Node> {
    if layers == [] then (if p == [] then Some(Dir) else None)
    else
      var top, below := layers[|layers| - 1], layers[..|layers| - 1];
      if LastPut(top, p).Some? then Some(File(LastPut(top, p).value))
      else if HasDir(top, p) then Some(Dir)
      else if Hides(top, p) then None
      else Union(below, p)
  }

  // ----- layers the promise is for -------------------------------------------------------

  /** The entry leaves something at `p`: a file, or a directory. */
  predicate Provides(a: Action, p: Path) {
    (a.Put? && a.path == p) || MakesDir(a, p)
  }

  predicate ProvidedBefore(layer: seq<Action>, j: nat, p: Path)
    requires j <= |layer|
  {
    exists i :: 0 <= i < j && Provides(layer[i], p)
  }

  /** The layer provides `p`, and whites it out after the last entry that does. */
  predicate Late(layer: seq<Action>, p: Path) {
    exists j :: 0 <= j < |layer| && Covers(layer[j], p) && ProvidedBefore(layer, j, p)
                && forall k | j < k < |layer| :: !Provides(layer[k], p)
  }

  /** The topmost layer that says anything about `p` whites it out too late. */
  predicate LateAt(layers: seq<seq<Action>>, p: Path) {
    if layers == [] then false
    else
      var top, below := layers[|layers| - 1], layers[..|layers| - 1];
      if LastPut(top, p).Some? || HasDir(top, p) || Hides(top, p) then Late(top, p) else LateAt(below, p)
  }

  /** Whiteouts precede the entries of their own layer that they cover. */
  predicate WhiteoutsFirst(layer: seq<Action>) {
    forall i, j | 0 <= i < j < |layer| && (layer[i].Put? || layer[i].MakeDir?) :: !Covers(layer[j], layer[i].path)
  }

  /** `p` is used as a directory by some entry. */
  predicate UsesDir(a: Action, p: Path) {
    !a.Skip? && !a.Escape? && (p < a.path || ((a.MakeDir? || a.Clear?) && p == a.path))
  }

  predicate FileAt(layers: seq<seq<Action>>, p: Path) {
    exists l, i :: 0 <= l < |layers| && 0 <= i < |layers[l]| && layers[l][i].Put? && layers[l][i].path == p
  }

  predicate DirAt(layers: seq<seq<Action>>, p: Path) {
    p == [] || exists l, i :: 0 <= l < |layers| && 0 <= i < |layers[l]| && UsesDir(layers[l][i], p)
  }

  /** No path is a file in one place and a directory in another; nothing
      escapes the root. */
  ghost predicate NoClash(layers: seq<seq<Action>>) {
    && (forall p | FileAt(layers, p) :: !DirAt(layers, p))
    && (forall l, i | 0 <= l < |layers| && 0 <= i < |layers[l]| :: !layers[l][i].Escape?)
  }

  // ----- the tree stays a tree ---------------------------------------------------------------

  /** Every path's parent is there and is a directory. */
  predicate Closed(t: Tree) {
    forall p | p in t && p != [] :: p[..|p| - 1] in t && t[p[..|p| - 1]].Dir?
  }

  lemma {:induction false} ClosedPrefix(t: Tree, p: Path, k: nat)
    requires Closed(t) && p in t && k < |p|
    ensures p[..k] in t && t[p[..k]].Dir?
    decreases |p|
  {
    var q := p[..|p| - 1];
    if k < |q| {
      ClosedPrefix(t, q, k);
      assert q[..k] == p[..k];
    } else {
      assert q == p[..k];
    }
  }

  lemma ClosedUnder(t: Tree, q: Path, p: Path)
    requires Closed(t) && p in t && q < p
    ensures q in t && t[q].Dir?
  {
    ClosedPrefix(t, p, |q|);
    assert p[..|q|] == q;
  }

  lemma {:induction false} MkdirAllClosed(t: Tree, p: Path)
    requires Closed(t)
    ensures MkdirAll(t, p).Some? ==>
              && Closed(MkdirAll(t, p).value) && Lookup(MkdirAll(t, p).value, p) == Some(Dir)
              && forall q | q in t :: Lookup(MkdirAll(t, p).value, q) == Some(t[q])
    decreases |p|
  {
    if p != [] { MkdirAllClosed(t, p[..|p| - 1]); }
  }

  lemma FileIsLeaf(u: Tree, p: Path, c: string)
    requires Closed(u) && p != [] && p[..|p| - 1] in u && u[p[..|p| - 1]].Dir?
    requires p in u ==> u[p].File?
    ensures Closed(u[p := File(c)])
  {
    forall q: Path | q in u && q != [] ensures q[..|q| - 1] != p {
      if q[..|q| - 1] in u { assert u[q[..|q| - 1]].Dir?; }
    }
  }

  lemma ActClosed(t: Tree, a: Action)
    requires Closed(t)
    ensures Act(t, a).Some? ==> Closed(Act(t, a).value)
  {
    match a
    case MakeDir(p) => MkdirAllClosed(t, p);
    case Put(p, c) =>
      if p != [] {
        MkdirAllClosed(t, p[..|p| - 1]);
        if PutFile(t, p, c).Some? {
          FileIsLeaf(MkdirAll(t, p[..|p| - 1]).value, p, c);
        }
      }
    case Remove(v) =>
      if !Blocked(t, v) {
        forall p: Path | p in RemoveAll(t, v) && p != [] ensures p[..|p| - 1] in RemoveAll(t, v) {
          assert v <= p[..|p| - 1] ==> v <= p;
        }
      }
    case Clear(d) =>
      forall p: Path | p in ClearDir(t, d) && p != [] ensures p[..|p| - 1] in ClearDir(t, d) {
        assert d < p[..|p| - 1] ==> d < p;
      }
    case _ =>
  }

  /** Whatever the layers contain, after every entry each path's parents are directories. */
  lemma {:induction false} StaysClosed(t: Tree, actions: seq<Action>)
    requires Closed(t)
    ensures ActAll(t, actions).Some? ==> Closed(ActAll(t, actions).value)
  {
    if actions != [] {
      StaysClosed(t, actions[..|actions| - 1]);
      var u := ActAll(t, actions[..|actions| - 1]);
      if u.Some? { ActClosed(u.value, actions[|actions| - 1]); }
    }
  }

  // ----- one layer ------------------------------------------------------------------------------

  /** What `p` is once the entries `es` have been applied on top of `t`: the last
      entry that provides or covers it decides. */
  function Effect(es: seq<Action>, t: Tree, p: Path): Option<Node> {
    if es == [] then Lookup(t, p)
    else
      var a := es[|es| - 1];
      if a.Put? && a.path == p then Some(File(a.content))
      else if MakesDir(a, p) then Some(Dir)
      else if Covers(a, p) then None
      else Effect(es[..|es| - 1], t, p)
  }

  /** What the layer `es` should leave there. */
  function Merge(es: seq<Action>, t: Tree, p: Path): Option<Node> {
    if LastPut(es, p).Some? then Some(File(LastPut(es, p).value))
    else if HasDir(es, p) then Some(Dir)
    else if Hides(es, p) then None
    else Lookup(t, p)
  }

  /** Files and directories are where the layers' entries put them. */
  predicate Sane(all: seq<seq<Action>>, t: Tree) {
    forall p | p in t :: if t[p].File? then FileAt(all, p) else DirAt(all, p)
  }

  lemma {:induction false} MkdirAllFills(t: Tree, p: Path)
    requires forall q: Path | q <= p && q in t :: t[q].Dir?
    ensures MkdirAll(t, p).Some?
    ensures forall q: Path :: Lookup(MkdirAll(t, p).value, q) == if q <= p then Some(Dir) else Lookup(t, q)
    decreases |p|
  {
    if p == [] {
    } else {
      var front := p[..|p| - 1];
      forall q: Path | q <= front && q in t ensures t[q].Dir? { PrefixStep(q, p); }
      MkdirAllFills(t, front);
      PrefixStep(p, p);
      var u := MkdirAll(t, front).value;
      assert Lookup(u, p) == Lookup(t, p);
      forall q: Path ensures Lookup(MkdirAll(t, p).value, q) == if q <= p then Some(Dir) else Lookup(t, q) {
        PrefixStep(q, p);
        assert Lookup(u, q) == if q <= front then Some(Dir) else Lookup(t, q);
      }
    }
  }

  lemma PrefixStep(q: Path, p: Path)
    requires p != []
    ensures q <= p <==> q <= p[..|p| - 1] || q == p
    ensures q < p <==> q <= p[..|p| - 1]
  {
    if q <= p && q != p { assert q == p[..|q|] == p[..|p| - 1][..|q|]; }
  }

  /** A file at `p` or on the way to it. */
  predicate FileInTheWay(t: Tree, p: Path) {
    exists k :: 0 <= k <= |p| && p[..k] in t && t[p[..k]].File?
  }

  lemma {:induction false} MkdirAllFails(t: Tree, p: Path)
    ensures MkdirAll(t, p).None? <==> FileInTheWay(t, p)
    decreases |p|
  {
    if p == [] {
      assert p[..0] == [];
    } else {
      var front := p[..|p| - 1];
      MkdirAllFails(t, front);
      assert p[..|p|] == p;
      assert forall k | 0 <= k <= |front| :: front[..k] == p[..k];
      if FileInTheWay(t, front) {
        var k :| 0 <= k <= |front| && front[..k] in t && t[front[..k]].File?;
        assert p[..k] in t;
      } else {
        forall q: Path | q <= front && q in t ensures t[q].Dir? { assert front[..|q|] == q; }
        MkdirAllFills(t, front);
        PrefixStep(p, p);
        assert Lookup(MkdirAll(t, front).value, p) == Lookup(t, p);
      }
    }
  }

  /** What one entry does, path by path, and exactly when it fails: on a name that
      escapes, a file on the way, a file where a directory has to be, or a
      directory where a file has to be. */
  lemma ActMeans(t: Tree, a: Action)
    requires Closed(t) && [] in t && t[[]].Dir?
    ensures Act(t, a).Some? ==> forall q ::
              Lookup(Act(t, a).value, q) ==
                if a.Put? && q == a.path then Some(File(a.content))
                else if (a.MakeDir? && q <= a.path) || (a.Put? && q < a.path) then Some(Dir)
                else if (a.Remove? && a.path <= q) || (a.Clear? && a.path < q) then None
                else Lookup(t, q)
    ensures Act(t, a).None? <==>
              || a.Escape?
              || (!a.Skip? && exists k :: 0 <= k < |a.path| && a.path[..k] in t && t[a.path[..k]].File?)
              || ((a.MakeDir? || a.Clear?) && Lookup(t, a.path).Some? && Lookup(t, a.path).value.File?)
              || (a.Put? && (a.path == [] || Lookup(t, a.path) == Some(Dir)))
  {
    match a
    case MakeDir(p) => MkdirMeans(t, p);
    case Put(p, content) => PutMeans(t, p, content);
    case Clear(d) =>
      if d !in t {
        forall q | q in t ensures !(d < q) { if d < q { ClosedUnder(t, d, q); } }
      }
    case _ =>
  }

  lemma MkdirMeans(t: Tree, p: Path)
    ensures MkdirAll(t, p).Some? ==> forall q :: Lookup(MkdirAll(t, p).value, q) == if q <= p then Some(Dir) else Lookup(t, q)
    ensures MkdirAll(t, p).None? <==>
              || (exists k :: 0 <= k < |p| && p[..k] in t && t[p[..k]].File?)
              || (Lookup(t, p).Some? && Lookup(t, p).value.File?)
  {
    MkdirAllFails(t, p);
    assert p[..|p|] == p;
    if !FileInTheWay(t, p) {
      forall q: Path | q <= p && q in t ensures t[q].Dir? { assert p[..|q|] == q; }
      MkdirAllFills(t, p);
    }
  }

  lemma PutMeans(t: Tree, p: Path, content: string)
    ensures PutFile(t, p, content).Some? ==> p != [] && forall q ::
              Lookup(PutFile(t, p, content).value, q) ==
                if q == p then Some(File(content)) else if q < p then Some(Dir) else Lookup(t, q)
    ensures PutFile(t, p, content).None? <==>
              || p == [] || (exists k :: 0 <= k < |p| && p[..k] in t && t[p[..k]].File?) || Lookup(t, p) == Some(Dir)
  {
    if p != [] {
      var front := p[..|p| - 1];
      MkdirMeans(t, front);
      assert forall k | 0 <= k <= |front| :: front[..k] == p[..k];
      assert front == p[..|front|];
      PrefixStep(p, p);
      if PutFile(t, p, content).Some? {
        forall q ensures Lookup(PutFile(t, p, content).value, q) == if q == p then Some(File(content)) else if q < p then Some(Dir) else Lookup(t, q) {
          PrefixStep(q, p);
          assert Lookup(MkdirAll(t, front).value, q) == if q <= front then Some(Dir) else Lookup(t, q);
        }
      }
      assert MkdirAll(t, front).Some? ==> Lookup(MkdirAll(t, front).value, p) == Lookup(t, p);
    }
  }

  lemma AppendMerge(es: seq<Action>, a: Action, p: Path)
    ensures LastPut(es + [a], p) == if a.Put? && a.path == p then Some(a.content) else LastPut(es, p)
    ensures HasDir(es + [a], p) <==> HasDir(es, p) || MakesDir(a, p)
    ensures Hides(es + [a], p) <==> Hides(es, p) || Covers(a, p)
  {
    var all := es + [a];
    assert all[..|es|] == es && all[|es|] == a;
    assert forall i | 0 <= i < |es| :: all[i] == es[i];
    if HasDir(es, p) { var i :| 0 <= i < |es| && MakesDir(es[i], p); assert MakesDir(all[i], p); }
    if Hides(es, p) { var i :| 0 <= i < |es| && Covers(es[i], p); assert Covers(all[i], p); }
    if MakesDir(a, p) { assert MakesDir(all[|es|], p); }
    if Covers(a, p) { assert Covers(all[|es|], p); }
  }

  lemma EffectStep(es: seq<Action>, a: Action, t: Tree, p: Path)
    ensures Effect(es + [a], t, p) ==
            if a.Put? && a.path == p then Some(File(a.content))
            else if MakesDir(a, p) then Some(Dir)
            else if Covers(a, p) then None
            else Effect(es, t, p)
  {
    assert (es + [a])[..|es|] == es;
  }

  /** One more entry: the tree follows. */
  lemma PutStep(all: seq<seq<Action>>, es: seq<Action>, a: Action, t0: Tree, t: Tree)
    requires a.Put? && Sane(all, t) && (forall p :: Lookup(t, p) == Effect(es, t0, p))
    requires forall p | FileAt(all, p) :: !DirAt(all, p)
    requires FileAt(all, a.path) && forall q | q < a.path :: DirAt(all, q)
    ensures Act(t, a).Some? && forall p :: Lookup(Act(t, a).value, p) == Effect(es + [a], t0, p)
  {
    assert a.path != [];
    var front := a.path[..|a.path| - 1];
    forall q: Path | q <= front && q in t ensures t[q].Dir? { PrefixStep(q, a.path); }
    MkdirAllFills(t, front);
    var u := MkdirAll(t, front).value;
    PrefixStep(a.path, a.path);
    assert Lookup(u, a.path) == Lookup(t, a.path);
    forall p ensures Lookup(Act(t, a).value, p) == Effect(es + [a], t0, p) {
      EffectStep(es, a, t0, p);
      PrefixStep(p, a.path);
      assert Lookup(u, p) == if p <= front then Some(Dir) else Lookup(t, p);
    }
  }

  lemma MakeDirStep(all: seq<seq<Action>>, es: seq<Action>, a: Action, t0: Tree, t: Tree)
    requires a.MakeDir? && Sane(all, t) && (forall p :: Lookup(t, p) == Effect(es, t0, p))
    requires forall p | FileAt(all, p) :: !DirAt(all, p)
    requires forall q | q <= a.path :: DirAt(all, q)
    ensures Act(t, a).Some? && forall p :: Lookup(Act(t, a).value, p) == Effect(es + [a], t0, p)
  {
    forall q: Path | q <= a.path && q in t ensures t[q].Dir? { assert DirAt(all, q); }
    MkdirAllFills(t, a.path);
    forall p ensures Lookup(Act(t, a).value, p) == Effect(es + [a], t0, p) {
      EffectStep(es, a, t0, p);
    }
  }

  lemma NotBlocked(all: seq<seq<Action>>, t: Tree, p: Path)
    requires Sane(all, t) && (forall q | FileAt(all, q) :: !DirAt(all, q)) && forall q | q < p :: DirAt(all, q)
    ensures !Blocked(t, p)
  {
    forall k | 0 <= k < |p| && p[..k] in t ensures t[p[..k]].Dir? {
      assert p[..k] < p;
      assert DirAt(all, p[..k]);
    }
  }

  lemma RemoveStep(all: seq<seq<Action>>, es: seq<Action>, a: Action, t0: Tree, t: Tree)
    requires a.Remove? && Sane(all, t) && (forall p :: Lookup(t, p) == Effect(es, t0, p))
    requires forall p | FileAt(all, p) :: !DirAt(all, p)
    requires forall q | q < a.path :: DirAt(all, q)
    ensures Act(t, a).Some? && forall p :: Lookup(Act(t, a).value, p) == Effect(es + [a], t0, p)
  {
    NotBlocked(all, t, a.path);
    forall p ensures Lookup(RemoveAll(t, a.path), p) == Effect(es + [a], t0, p) {
      EffectStep(es, a, t0, p);
    }
  }

  lemma ClearStep(all: seq<seq<Action>>, es: seq<Action>, a: Action, t0: Tree, t: Tree)
    requires a.Clear? && Sane(all, t) && Closed(t) && (forall p :: Lookup(t, p) == Effect(es, t0, p))
    requires forall p | FileAt(all, p) :: !DirAt(all, p)
    requires (forall q | q < a.path :: DirAt(all, q)) && DirAt(all, a.path)
    ensures Act(t, a).Some? && forall p :: Lookup(Act(t, a).value, p) == Effect(es + [a], t0, p)
  {
    NotBlocked(all, t, a.path);
    assert a.path in t ==> t[a.path].Dir?;
    hide FileAt, DirAt, Sane, Closed, Blocked;
    forall p ensures Lookup(Act(t, a).value, p) == Effect(es + [a], t0, p) {
      EffectStep(es, a, t0, p);
      if Covers(a, p) && p in t { ClosedUnder(t, a.path, p); }
      assert Lookup(t, p) == Effect(es, t0, p);
    }
  }

  /** An effect comes from an entry or from the tree below. */
  lemma {:induction false} EffectFrom(es: seq<Action>, t: Tree, p: Path) returns (i: nat)
    requires Effect(es, t, p).Some? && Effect(es, t, p) != Lookup(t, p)
    ensures i < |es| && if Effect(es, t, p).value.File? then es[i].Put? && es[i].path == p else MakesDir(es[i], p)
  {
    i := |es| - 1;
    if !(es[i].Put? && es[i].path == p) && !MakesDir(es[i], p) {
      i := EffectFrom(es[..i], t, p);
    }
  }

  lemma EffectSane(all: seq<seq<Action>>, l: nat, n: nat, t0: Tree, t: Tree)
    requires l < |all| && n <= |all[l]| && Sane(all, t0)
    requires forall p :: Lookup(t, p) == Effect(all[l][..n], t0, p)
    ensures Sane(all, t)
  {
    var es := all[l][..n];
    forall p | p in t ensures if t[p].File? then FileAt(all, p) else DirAt(all, p) {
      assert Lookup(t, p) == Effect(es, t0, p);
      if Effect(es, t0, p) != Lookup(t0, p) {
        var i := EffectFrom(es, t0, p);
        assert es[i] == all[l][i];
        if t[p].Dir? { assert UsesDir(all[l][i], p); }
      }
    }
  }

  lemma EntryFits(all: seq<seq<Action>>, l: nat, n: nat)
    requires NoClash(all) && l < |all| && n < |all[l]|
    ensures !all[l][n].Escape?
    ensures all[l][n].Put? ==> FileAt(all, all[l][n].path)
    ensures !all[l][n].Skip? ==> forall q | q < all[l][n].path :: DirAt(all, q)
    ensures all[l][n].MakeDir? || all[l][n].Clear? ==> DirAt(all, all[l][n].path)
    ensures all[l][n].MakeDir? ==> forall q | q <= all[l][n].path :: DirAt(all, q)
  {
    var a := all[l][n];
    if !a.Skip? {
      forall q | q < a.path || (a.MakeDir? && q <= a.path) ensures DirAt(all, q) { assert UsesDir(all[l][n], q); }
      if a.MakeDir? || a.Clear? { assert UsesDir(all[l][n], a.path); }
    }
  }

  lemma {:induction false} LayerFlattens(all: seq<seq<Action>>, l: nat, n: nat, t0: Tree)
    requires NoClash(all) && l < |all| && n <= |all[l]|
    requires Sane(all, t0) && Closed(t0)
    ensures ActAll(t0, all[l][..n]).Some?
    ensures forall p :: Lookup(ActAll(t0, all[l][..n]).value, p) == Effect(all[l][..n], t0, p)
    ensures Sane(all, ActAll(t0, all[l][..n]).value) && Closed(ActAll(t0, all[l][..n]).value)
  {
    hide Act, Effect, Sane, Closed, NoClash, FileAt, DirAt;
    if n == 0 {
      assert all[l][..0] == [];
      NoEffect(t0);
    } else {
      var es, a := all[l][..n - 1], all[l][n - 1];
      LayerFlattens(all, l, n - 1, t0);
      var t := ActAll(t0, es).value;
      assert all[l][..n] == es + [a] && (es + [a])[..|es|] == es;
      EntryFits(all, l, n - 1);
      Clashes(all);
      if a.Put? { PutStep(all, es, a, t0, t); }
      else if a.MakeDir? { MakeDirStep(all, es, a, t0, t); }
      else if a.Remove? { RemoveStep(all, es, a, t0, t); }
      else if a.Clear? { ClearStep(all, es, a, t0, t); }
      else { SkipStep(es, a, t0, t); }
      ActClosed(t, a);
      EffectSane(all, l, n, t0, Act(t, a).value);
    }
  }

  lemma NoEffect(t0: Tree)
    ensures forall p :: Effect([], t0, p) == Lookup(t0, p)
  {
  }

  lemma Clashes(all: seq<seq<Action>>)
    requires NoClash(all)
    ensures forall p | FileAt(all, p) :: !DirAt(all, p)
  {
  }

  lemma SkipStep(es: seq<Action>, a: Action, t0: Tree, t: Tree)
    requires a.Skip? && (forall p :: Lookup(t, p) == Effect(es, t0, p))
    ensures Act(t, a) == Some(t) && forall p :: Lookup(t, p) == Effect(es + [a], t0, p)
  {
    forall p ensures Lookup(t, p) == Effect(es + [a], t0, p) { EffectStep(es, a, t0, p); }
  }

  // ----- the effect of a layer against what it should leave -------------------------------------

  lemma AppendLate(es: seq<Action>, a: Action, p: Path)
    ensures Late(es + [a], p) <==> !Provides(a, p) && (if Covers(a, p) then ProvidedBefore(es, |es|, p) else Late(es, p))
  {
    var all := es + [a];
    assert all[|es|] == a && forall i | 0 <= i < |es| :: all[i] == es[i];
    assert forall j | 0 <= j <= |es| :: ProvidedBefore(all, j, p) <==> ProvidedBefore(es, j, p);
    if Late(all, p) && !Covers(a, p) {
      var j :| 0 <= j < |all| && Covers(all[j], p) && ProvidedBefore(all, j, p)
               && forall k | j < k < |all| :: !Provides(all[k], p);
      assert j < |es| && forall k | j < k < |es| :: !Provides(all[k], p);
    }
  }

  lemma {:induction false} ProvidedIsPutOrDir(es: seq<Action>, p: Path)
    ensures ProvidedBefore(es, |es|, p) <==> LastPut(es, p).Some? || HasDir(es, p)
  {
    if es != [] {
      var front, a := es[..|es| - 1], es[|es| - 1];
      assert es == front + [a];
      ProvidedIsPutOrDir(front, p);
      AppendMerge(front, a, p);
      assert ProvidedBefore(es, |es|, p) <==> ProvidedBefore(front, |front|, p) || Provides(a, p);
    }
  }

  /** Nothing in the layer makes a directory of a path it puts a file at. */
  predicate OneKind(es: seq<Action>, p: Path) {
    !(LastPut(es, p).Some? && HasDir(es, p))
  }

  /** The layer leaves at `p` what it should, exactly if it does not white `p` out
      late; then it leaves nothing there. */
  lemma {:induction false} LateExactly(es: seq<Action>, t: Tree, p: Path)
    requires OneKind(es, p)
    ensures Effect(es, t, p) == if Late(es, p) then None else Merge(es, t, p)
    ensures Late(es, p) ==> Merge(es, t, p).Some?
  {
    if es != [] {
      var front, a := es[..|es| - 1], es[|es| - 1];
      assert es == front + [a];
      AppendMerge(front, a, p);
      LateExactly(front, t, p);
      EffectStep(front, a, t, p);
      AppendLate(front, a, p);
      ProvidedIsPutOrDir(front, p);
    }
  }

  lemma NoClashOneKind(all: seq<seq<Action>>, l: nat, p: Path)
    requires NoClash(all) && l < |all|
    ensures OneKind(all[l], p)
  {
    if LastPut(all[l], p).Some? && HasDir(all[l], p) {
      var i := LastPutAt(all[l], p);
      var j :| 0 <= j < |all[l]| && MakesDir(all[l][j], p);
      assert UsesDir(all[l][j], p);
      assert FileAt(all, p) && DirAt(all, p);
    }
  }

  lemma {:induction false} LastPutAt(es: seq<Action>, p: Path) returns (i: nat)
    requires LastPut(es, p).Some?
    ensures i < |es| && es[i].Put? && es[i].path == p
  {
    i := |es| - 1;
    if !(es[i].Put? && es[i].path == p) {
      i := LastPutAt(es[..|es| - 1], p);
    }
  }

  lemma {:induction false} NothingSaid(es: seq<Action>, t: Tree, p: Path)
    requires LastPut(es, p).None? && !HasDir(es, p) && !Hides(es, p)
    ensures !Late(es, p)
  {
  }

  // ----- the stack ------------------------------------------------------------------------------

  /** What a stack leaves at `p`. */
  function Left(layers: seq<seq<Action>>, p: Path): Option<Node> {
    if LateAt(layers, p) then None else Union(layers, p)
  }

  lemma {:induction false} StackFlattens(all: seq<seq<Action>>, k: nat)
    requires NoClash(all) && k <= |all|
    ensures FlattenTree(all[..k]).Some?
    ensures forall p :: Lookup(FlattenTree(all[..k]).value, p) == Left(all[..k], p)
    ensures Sane(all, FlattenTree(all[..k]).value) && Closed(FlattenTree(all[..k]).value)
  {
    if k == 0 {
      EmptyStack(all);
      assert all[..0] == [];
    } else {
      hide Sane, Closed, Effect, ActAll, Left, Lookup;
      StackFlattens(all, k - 1);
      assert all[..k][..k - 1] == all[..k - 1] && all[..k][k - 1] == all[k - 1];
      var t0 := FlattenTree(all[..k - 1]).value;
      LayerFlattens(all, k - 1, |all[k - 1]|, t0);
      assert all[k - 1][..|all[k - 1]|] == all[k - 1];
      forall p ensures Lookup(FlattenTree(all[..k]).value, p) == Left(all[..k], p) {
        LeftTop(all, k, t0, p);
      }
    }
  }

  lemma EmptyStack(all: seq<seq<Action>>)
    ensures FlattenTree([]) == Some(EMPTY_ROOT) && Sane(all, EMPTY_ROOT) && Closed(EMPTY_ROOT)
    ensures forall p :: Lookup(EMPTY_ROOT, p) == Left([], p)
  {
  }

  lemma LeftTop(all: seq<seq<Action>>, k: nat, t0: Tree, p: Path)
    requires NoClash(all) && 0 < k <= |all| && Lookup(t0, p) == Left(all[..k - 1], p)
    ensures Left(all[..k], p) == Effect(all[k - 1], t0, p)
  {
    var top := all[k - 1];
    assert all[..k][..k - 1] == all[..k - 1] && all[..k][k - 1] == top;
    NoClashOneKind(all, k - 1, p);
    LateExactly(top, t0, p);
    if LastPut(top, p).None? && !HasDir(top, p) && !Hides(top, p) { NothingSaid(top, t0, p); }
    hide Late, LastPut, HasDir, Hides, Effect, NoClash;
  }

  lemma {:induction false} LateIsProvided(layers: seq<seq<Action>>, p: Path)
    requires LateAt(layers, p)
    ensures Union(layers, p).Some?
  {
    var top, below := layers[|layers| - 1], layers[..|layers| - 1];
    if LastPut(top, p).Some? || HasDir(top, p) || Hides(top, p) {
      ProvidedIsPutOrDir(top, p);
      var j :| 0 <= j < |top| && Covers(top[j], p) && ProvidedBefore(top, j, p);
      assert ProvidedBefore(top, |top|, p);
    } else {
      LateIsProvided(below, p);
    }
  }

  /** Flattening any stack succeeds, and gives at a path the union of the layers
      exactly when the topmost layer that says anything about the path does not
      white it out after its last entry that provides it; nothing is there otherwise. */
  lemma LateWhiteoutRemoves(layers: seq<seq<Action>>)
    requires NoClash(layers)
    ensures FlattenTree(layers).Some? && Closed(FlattenTree(layers).value)
    ensures forall p :: Lookup(FlattenTree(layers).value, p) == Union(layers, p) <==> !LateAt(layers, p)
    ensures forall p | LateAt(layers, p) :: Lookup(FlattenTree(layers).value, p) == None
  {
    StackFlattens(layers, |layers|);
    assert layers[..|layers|] == layers;
    forall p ensures Lookup(FlattenTree(layers).value, p) == Union(layers, p) <==> !LateAt(layers, p) {
      assert Lookup(FlattenTree(layers).value, p) == Left(layers, p);
      if LateAt(layers, p) { LateIsProvided(layers, p); }
    }
  }

  /** It happens: a file and then its whiteout, in one layer. */
  lemma FileThenWhiteout(name: string, c: string)
    ensures var layer := [Put([name], c), Remove([name])];
            NoClash([layer]) && LateAt([layer], [name])
  {
    var layer := [Put([name], c), Remove([name])];
    forall q: Path | DirAt([layer], q) ensures q == [] {
      if i: nat :| i < |layer| && UsesDir(layer[i], q) { assert q < layer[i].path; }
    }
    assert Covers(layer[1], [name]) && Provides(layer[0], [name]);
    assert Hides(layer, [name]) && Late(layer, [name]);
  }

  lemma FirstIsNotLate(layer: seq<Action>, p: Path)
    requires WhiteoutsFirst(layer)
    ensures !Late(layer, p)
  {
    forall i, j | 0 <= i < j < |layer| && Covers(layer[j], p) ensures !Provides(layer[i], p) {
      if Provides(layer[i], p) { assert Covers(layer[j], layer[i].path); }
    }
  }

  lemma {:induction false} FirstIsNeverLate(layers: seq<seq<Action>>, p: Path)
    requires forall l | l in layers :: WhiteoutsFirst(l)
    ensures !LateAt(layers, p)
  {
    if layers != [] {
      FirstIsNotLate(layers[|layers| - 1], p);
      FirstIsNeverLate(layers[..|layers| - 1], p);
    }
  }

  /** So flattening layers whose whiteouts come first gives at every path exactly
      the union of the layers: the topmost layer's entry, nothing where that layer
      whites it out, else what the layers below give. */
  lemma FlattenIsUnion(layers: seq<seq<Action>>)
    requires NoClash(layers) && forall l | l in layers :: WhiteoutsFirst(l)
    ensures FlattenTree(layers).Some?
    ensures forall p :: Lookup(FlattenTree(layers).value, p) == Union(layers, p)
    ensures Closed(FlattenTree(layers).value)
  {
    LateWhiteoutRemoves(layers);
    forall p ensures !LateAt(layers, p) { FirstIsNeverLate(layers, p); }
  }
}
