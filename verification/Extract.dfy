// internal/daemon/build.go: where an entry of an uploaded build context may go.

module Extract {
  import opened Common
  import opened Flatten

  /** safeExtractPath: the target relative to `dir`, or None. `absolute`: the name
      starts with '/'. */
  method SafeExtractPath(dir: Path, name: seq<string>, absolute: bool) returns (target: Option<Path>)
    ensures target == if absolute || Climbs(name) then None else Some(CleanRel(name))
  {
    if absolute {
      return None;
    }
    var cleaned := CleanRel(name);
    ClimbsAreDots(name);
    if cleaned != [] && cleaned[0] == ".." {
      return None;
    }
    PlainStaysInside(dir, name);
    return SafeJoin(dir, cleaned);
  }

  /** How far below its start a name has got. */
  function Level(name: seq<string>): int {
    if name == [] then 0
    else
      var c := name[|name| - 1];
      Level(name[..|name| - 1]) + if c == ".." then -1 else if Plain(c) then 1 else 0
  }

  /** Somewhere along the way the name is above where it started. */
  predicate Climbs(name: seq<string>) {
    exists k :: 0 <= k <= |name| && Level(name[..k]) < 0
  }

  predicate Dots(p: seq<string>, u: nat) {
    u <= |p| && (forall i | 0 <= i < u :: p[i] == "..") && (forall i | u <= i < |p| :: Plain(p[i]))
  }

  lemma ClimbsGrows(name: seq<string>)
    requires name != []
    ensures Climbs(name) <==> Climbs(name[..|name| - 1]) || Level(name) < 0
  {
    hide Level;
    var n := |name| - 1;
    Whole(name);
    if Climbs(name[..n]) {
      var k :| 0 <= k <= n && Level(name[..n][..k]) < 0;
      TakeTake(name, n, k);
      assert Level(name[..k]) < 0;
    }
    if Climbs(name) {
      var k :| 0 <= k <= n + 1 && Level(name[..k]) < 0;
      if k <= n { TakeTake(name, n, k); }
    }
    assert Level(name[..n + 1]) == Level(name);
  }

  lemma TakeTake(name: seq<string>, n: nat, k: nat)
    requires k <= n <= |name|
    ensures name[..n][..k] == name[..k]
  {
  }

  lemma Whole(name: seq<string>)
    ensures name[..|name|] == name
  {
  }

  /** A cleaned name is some ".." followed by ordinary components, and has ".."
      exactly if the name climbs. */
  lemma {:induction false} Shape(name: seq<string>) returns (u: nat)
    ensures Dots(CleanRel(name), u) && |CleanRel(name)| - 2 * u == Level(name)
    ensures u > 0 <==> Climbs(name)
  {
    if name == [] {
      u := 0;
    } else {
      var front, c := name[..|name| - 1], name[|name| - 1];
      u := Shape(front);
      ClimbsGrows(name);
      hide Climbs;
      var p := CleanRel(front);
      if c == ".." && (p == [] || p[|p| - 1] == "..") {
        assert u == |p|;
        u := u + 1;
      }
    }
  }

  lemma ClimbsAreDots(name: seq<string>)
    ensures (CleanRel(name) != [] && CleanRel(name)[0] == "..") <==> Climbs(name)
  {
    var u := Shape(name);
  }

  /** An accepted name lands inside `dir`, at its cleaned form: the final prefix
      check of the source never fails. And it is stricter than the image
      extractor's safeJoin, which also lets a name leave and come back. */
  lemma PlainStaysInside(dir: Path, name: seq<string>)
    requires !Climbs(name)
    ensures SafeJoin(dir, CleanRel(name)) == Some(CleanRel(name))
    ensures PlainPath(CleanRel(name))
  {
    var u := Shape(name);
    assert forall c | c in CleanRel(name) :: Plain(c);
    SafeJoinStaysInside(dir, CleanRel(name));
  }

  lemma LeaveAndComeBack(parent: Path, d: string, x: string)
    requires Plain(d) && Plain(x)
    ensures var name := ["..", d, x];
            Climbs(name) && SafeJoin(parent + [d], name) == Some([x])
  {
    var name := ["..", d, x];
    var dir := parent + [d];
    assert name[..1] == [".."] && name[..1][..0] == [] && Level(name[..1]) == -1;
    assert name[..2][..1] == name[..1] && name[..2][1] == d && name[..3] == name;
    assert JoinAbs(dir, name[..1]) == parent;
    assert JoinAbs(dir, name[..2]) == dir;
    assert name[..|name| - 1] == name[..2] && JoinAbs(dir, name) == dir + [x];
  }
}
