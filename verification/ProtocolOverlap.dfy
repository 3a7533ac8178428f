// Two requests booting the same app at once, which oakd does nothing to prevent:
// the steps of Protocol taken by two requests in turn, and what is left running.

module ProtocolOverlap {
  import opened Common
  import opened Tables
  import opened Protocol
  import opened ProtocolInv
  import opened ProtocolSteps
  import opened ProtocolTheorems

  /** Two requests past their health checks, over one daemon. */
  datatype Pair = Pair(s: State, x: Op, y: Op)

  /** A step of one of the two, or of a watcher. */
  datatype Turn = Cut(first: bool, c: Choice) | Reap(id: MachineId, c: Choice)

  function OpOf(p: Pair, first: bool): Op {
    if first then p.x else p.y
  }

  /** The daemon as one of the requests sees it. */
  function View(p: Pair, a: string, first: bool): State {
    p.s.(ops := map[a := OpOf(p, first)])
  }

  predicate Cutting(pc: Pc) {
    pc.Mark? || pc.Spawn? || pc.ListOld? || Looping(pc)
  }

  /** The requests' store calls succeed; a watcher's may fail. */
  ghost predicate TurnOk(p: Pair, a: string, t: Turn) {
    match t
    case Cut(first, c) => Cutting(OpOf(p, first).pc) && c.ok && OpEnabled(View(p, a, first), a, c)
    case Reap(id, c) => WatchEnabled(p.s, id)
  }

  ghost function After(p: Pair, a: string, t: Turn): Pair
    requires TurnOk(p, a, t)
  {
    match t
    case Cut(first, c) =>
      var u := OpStep(View(p, a, first), a, c);
      if a !in u.ops then p.(s := u)
      else if first then Pair(u, u.ops[a], p.y) else Pair(u, p.x, u.ops[a])
    case Reap(id, c) => p.(s := WatchStep(p.s, id, c))
  }

  ghost predicate Played(p: Pair, a: string, ts: seq<Turn>)
    decreases |ts|, 0
  {
    ts == [] || (Played(p, a, ts[..|ts| - 1]) && TurnOk(Run(p, a, ts[..|ts| - 1]), a, ts[|ts| - 1]))
  }

  ghost function Run(p: Pair, a: string, ts: seq<Turn>): Pair
    requires Played(p, a, ts)
    decreases |ts|, 1
  {
    if ts == [] then p else After(Run(p, a, ts[..|ts| - 1]), a, ts[|ts| - 1])
  }

  /** The step is this request's, at this pc. */
  ghost predicate StepsAt(p: Pair, t: Turn, first: bool, pc: Pc) {
    t.Cut? && t.first == first && OpOf(p, first).pc == pc
  }

  /** Somewhere in `ts` this request's machine is marked running. */
  ghost predicate Marked(p: Pair, a: string, ts: seq<Turn>, first: bool)
    requires Played(p, a, ts)
  {
    ts != [] &&
      var front := ts[..|ts| - 1];
      Marked(p, a, front, first) || StepsAt(Run(p, a, front), ts[|ts| - 1], first, Mark)
  }

  /** Somewhere in `ts` the other request lists the old machines, after this one's
      has been marked running. */
  ghost predicate MarkedBeforeListed(p: Pair, a: string, ts: seq<Turn>, first: bool)
    requires Played(p, a, ts)
  {
    ts != [] &&
      var front := ts[..|ts| - 1];
      || MarkedBeforeListed(p, a, front, first)
      || (Marked(p, a, front, first) && StepsAt(Run(p, a, front), ts[|ts| - 1], !first, ListOld))
  }

  /** Both about to mark their machine, each with a row and a live process. */
  ghost predicate BothBooted(p: Pair, a: string) {
    && p.x.id != p.y.id
    && Booted(p.s, a, p.x) && Booted(p.s, a, p.y)
  }

  ghost predicate Booted(s: State, a: string, op: Op) {
    && op.pc.Mark? && !op.kind.Destroy? && op.todo == {}
    && op.id in s.db.machines && s.db.machines[op.id].app == a && s.db.machines[op.id].state == Starting
    && op.id in s.vm.procs && s.vm.procs[op.id].live && op.id !in s.vm.watchers
  }

  // ----- what holds between the steps ------------------------------------------------

  predicate Listed(pc: Pc) { Looping(pc) || pc.Announce? }

  predicate Targets(op: Op, id: MachineId) {
    id in op.todo || (op.pc.DropNext? && op.cur == id)
  }

  predicate StageOk(op: Op) {
    && !op.kind.Destroy? && (Cutting(op.pc) || op.pc.Announce?)
    && (!Looping(op.pc) ==> op.todo == {}) && !Targets(op, op.id)
  }

  /** One request's machine, given the other request. `taken`: the other listed
      the old machines after this one's was marked. */
  ghost predicate MachineOk(s: State, a: string, own: Op, other: Op, taken: bool) {
    && (own.pc.Mark? ==>
          own.id in s.db.machines && s.db.machines[own.id].app == a && !IsRunning(s.db.machines, own.id) && own.id !in s.vm.watchers)
    && (!own.pc.Mark? && !taken ==> IsRunning(s.db.machines, own.id) && s.db.machines[own.id].app == a)
    && (!taken ==>
          && !Targets(other, own.id) && own.id in s.vm.procs && s.vm.procs[own.id].live
          && (own.id in s.vm.watchers ==> s.vm.watchers[own.id].pc.Waiting?))
    && (taken ==> !own.pc.Mark? && Listed(other.pc) && (Targets(other, own.id) || !IsRunning(s.db.machines, own.id)))
  }

  /** Whatever else runs has been seen by both lists and not yet been reached. */
  ghost predicate OldOk(s: State, a: string, x: Op, y: Op) {
    forall m | IsRunning(s.db.machines, m) && s.db.machines[m].app == a && m != x.id && m != y.id ::
      (Listed(x.pc) ==> Targets(x, m)) && (Listed(y.pc) ==> Targets(y, m))
  }

  ghost predicate Both(s: State, a: string, own: Op, other: Op, ownTaken: bool, otherTaken: bool) {
    && own.id != other.id && StageOk(own) && StageOk(other)
    && MachineOk(s, a, own, other, ownTaken) && MachineOk(s, a, other, own, otherTaken)
    && OldOk(s, a, own, other)
  }

  /** `own`'s step keeps all of it; listing takes the other machine if it is marked. */
  ghost predicate Keeps(u: State, a: string, own: Op, other: Op, ownTaken: bool, otherTaken: bool) {
    && a in u.ops && u.ops[a].id == own.id && (u.ops[a].pc.Mark? ==> own.pc.Mark?) && (own.pc.Mark? ==> !u.ops[a].pc.Mark?)
    && Both(u, a, u.ops[a], other, ownTaken, otherTaken || (own.pc.ListOld? && !other.pc.Mark?))
  }

  lemma MarkTurn(s: State, a: string, own: Op, other: Op, ownTaken: bool, otherTaken: bool, c: Choice)
    requires Both(s, a, own, other, ownTaken, otherTaken) && a in s.ops && c.ok && own.pc.Mark?
    requires own.id in s.vm.procs
    ensures Keeps(DoMark(s, a, own, c), a, own, other, ownTaken, otherTaken)
  {
  }

  lemma SpawnTurn(s: State, a: string, own: Op, other: Op, ownTaken: bool, otherTaken: bool)
    requires Both(s, a, own, other, ownTaken, otherTaken) && a in s.ops && own.pc.Spawn? && own.id in s.vm.procs
    ensures Keeps(DoSpawn(s, a, own), a, own, other, ownTaken, otherTaken)
  {
  }

  lemma ListTurn(s: State, a: string, own: Op, other: Op, ownTaken: bool, otherTaken: bool, c: Choice)
    requires Both(s, a, own, other, ownTaken, otherTaken) && a in s.ops && c.ok && own.pc.ListOld?
    ensures Keeps(DoListOld(s, a, own, c), a, own, other, ownTaken, otherTaken)
  {
    assert forall m | IsRunning(s.db.machines, m) && s.db.machines[m].app == a :: m in MachinesOf(s.db, a);
  }

  lemma StopTurn(s: State, a: string, own: Op, other: Op, ownTaken: bool, otherTaken: bool, c: Choice)
    requires Both(s, a, own, other, ownTaken, otherTaken) && a in s.ops && own.pc.StopNext? && c.id in own.todo
    ensures Keeps(DoStopNext(s, a, own, c), a, own, other, ownTaken, otherTaken)
  {
  }

  lemma DropTurn(s: State, a: string, own: Op, other: Op, ownTaken: bool, otherTaken: bool, c: Choice)
    requires Both(s, a, own, other, ownTaken, otherTaken) && a in s.ops && c.ok && own.pc.DropNext?
    ensures Keeps(DoDropNext(s, a, own, c), a, own, other, ownTaken, otherTaken)
  {
  }

  lemma ForgetTurn(s: State, a: string, own: Op, other: Op, ownTaken: bool, otherTaken: bool)
    requires Both(s, a, own, other, ownTaken, otherTaken) && a in s.ops && own.pc.ForgetNext?
    ensures Keeps(DoForgetNext(s, a, own), a, own, other, ownTaken, otherTaken)
  {
  }

  lemma CutTurn(s: State, a: string, own: Op, other: Op, ownTaken: bool, otherTaken: bool, c: Choice)
    requires Both(s, a, own, other, ownTaken, otherTaken) && s.ops == map[a := own]
    requires Cutting(own.pc) && c.ok && OpEnabled(s, a, c)
    ensures Keeps(OpStep(s, a, c), a, own, other, ownTaken, otherTaken)
  {
    hide Both, Keeps, DoMark, DoSpawn, DoListOld, DoStopNext, DoDropNext, DoForgetNext;
    match own.pc
    case Mark => MarkTurn(s, a, own, other, ownTaken, otherTaken, c);
    case Spawn => SpawnTurn(s, a, own, other, ownTaken, otherTaken);
    case ListOld => ListTurn(s, a, own, other, ownTaken, otherTaken, c);
    case StopNext => StopTurn(s, a, own, other, ownTaken, otherTaken, c);
    case DropNext => DropTurn(s, a, own, other, ownTaken, otherTaken, c);
    case ForgetNext => ForgetTurn(s, a, own, other, ownTaken, otherTaken);
  }

  lemma ReapMachine(s: State, a: string, own: Op, other: Op, taken: bool, id: MachineId, c: Choice)
    requires MachineOk(s, a, own, other, taken) && WatchEnabled(s, id)
    ensures MachineOk(WatchStep(s, id, c), a, own, other, taken)
  {
  }

  lemma ReapTurn(s: State, a: string, x: Op, y: Op, xTaken: bool, yTaken: bool, id: MachineId, c: Choice)
    requires Both(s, a, x, y, xTaken, yTaken) && WatchEnabled(s, id)
    ensures Both(WatchStep(s, id, c), a, x, y, xTaken, yTaken)
  {
    ReapMachine(s, a, x, y, xTaken, id, c);
    ReapMachine(s, a, y, x, yTaken, id, c);
    WatchRows(s, id, c);
    hide MachineOk, StageOk;
    var t := WatchStep(s, id, c);
    hide WatchStep;
    forall m | IsRunning(t.db.machines, m) ensures IsRunning(s.db.machines, m) && t.db.machines[m].app == s.db.machines[m].app {
      assert m != id ==> Same(s.db.machines, t.db.machines, m);
    }
  }

  lemma Swap(s: State, a: string, x: Op, y: Op, xTaken: bool, yTaken: bool)
    ensures Both(s, a, x, y, xTaken, yTaken) <==> Both(s, a, y, x, yTaken, xTaken)
  {
  }

  /** A turn of one request keeps all of it. */
  lemma CutPair(q: Pair, a: string, first: bool, c: Choice, xTaken: bool, yTaken: bool)
    requires Both(q.s, a, q.x, q.y, xTaken, yTaken) && TurnOk(q, a, Cut(first, c))
    ensures var r := After(q, a, Cut(first, c));
            && r.x.id == q.x.id && r.y.id == q.y.id
            && (r.x.pc.Mark? <==> q.x.pc.Mark? && !first) && (r.y.pc.Mark? <==> q.y.pc.Mark? && first)
            && Both(r.s, a, r.x, r.y, xTaken || (!first && q.y.pc.ListOld? && !q.x.pc.Mark?),
                    yTaken || (first && q.x.pc.ListOld? && !q.y.pc.Mark?))
  {
    var v := View(q, a, first);
    OpsApart(q.s, v, a, q.x, q.y, xTaken, yTaken);
    hide MachineOk, StageOk, OldOk, OpStep, OpEnabled, Cutting;
    if first {
      CutTurn(v, a, q.x, q.y, xTaken, yTaken, c);
    } else {
      Swap(v, a, q.x, q.y, xTaken, yTaken);
      CutTurn(v, a, q.y, q.x, yTaken, xTaken, c);
    }
  }

  lemma OpsApart(s: State, t: State, a: string, x: Op, y: Op, xTaken: bool, yTaken: bool)
    requires t == s.(ops := t.ops) && Both(s, a, x, y, xTaken, yTaken)
    ensures Both(t, a, x, y, xTaken, yTaken)
  {
  }

  /** What a schedule has done so far. */
  ghost predicate SoFar(p: Pair, a: string, ts: seq<Turn>)
    requires Played(p, a, ts)
  {
    var q := Run(p, a, ts);
    && q.x.id == p.x.id && q.y.id == p.y.id
    && (Marked(p, a, ts, true) <==> !q.x.pc.Mark?) && (Marked(p, a, ts, false) <==> !q.y.pc.Mark?)
    && Both(q.s, a, q.x, q.y, MarkedBeforeListed(p, a, ts, true), MarkedBeforeListed(p, a, ts, false))
  }

  lemma {:induction false} PlayedSoFar(p: Pair, a: string, ts: seq<Turn>)
    requires BothBooted(p, a) && Played(p, a, ts)
    ensures SoFar(p, a, ts)
    decreases |ts|
  {
    if ts == [] {
      assert Both(p.s, a, p.x, p.y, false, false);
    } else {
      var front, t := ts[..|ts| - 1], ts[|ts| - 1];
      PlayedSoFar(p, a, front);
      hide SoFar, BothBooted;
      if t.Cut? { CutSoFar(p, a, ts); } else { ReapSoFar(p, a, ts); }
    }
  }

  lemma CutSoFar(p: Pair, a: string, ts: seq<Turn>)
    requires Played(p, a, ts) && ts != [] && ts[|ts| - 1].Cut? && SoFar(p, a, ts[..|ts| - 1])
    ensures SoFar(p, a, ts)
  {
    var front, t := ts[..|ts| - 1], ts[|ts| - 1];
    var q := Run(p, a, front);
    hide Both, TurnOk, After;
    CutPair(q, a, t.first, t.c, MarkedBeforeListed(p, a, front, true), MarkedBeforeListed(p, a, front, false));
  }

  lemma ReapSoFar(p: Pair, a: string, ts: seq<Turn>)
    requires Played(p, a, ts) && ts != [] && ts[|ts| - 1].Reap? && SoFar(p, a, ts[..|ts| - 1])
    ensures SoFar(p, a, ts)
  {
    var front, t := ts[..|ts| - 1], ts[|ts| - 1];
    var q := Run(p, a, front);
    hide Both, TurnOk;
    ReapPair(q, a, t.id, t.c, MarkedBeforeListed(p, a, front, true), MarkedBeforeListed(p, a, front, false));
  }

  lemma ReapPair(q: Pair, a: string, id: MachineId, c: Choice, xTaken: bool, yTaken: bool)
    requires Both(q.s, a, q.x, q.y, xTaken, yTaken) && TurnOk(q, a, Reap(id, c))
    ensures var r := After(q, a, Reap(id, c));
            r.x == q.x && r.y == q.y && Both(r.s, a, r.x, r.y, xTaken, yTaken)
  {
    hide Both;
    ReapTurn(q.s, a, q.x, q.y, xTaken, yTaken, id, c);
  }

  /** When both requests are through, a new machine is running unless it was marked
      running before the other request listed the machines to stop. */
  lemma WhatOverlapLeaves(p: Pair, a: string, ts: seq<Turn>)
    requires BothBooted(p, a) && Played(p, a, ts)
    requires Run(p, a, ts).x.pc.Announce? && Run(p, a, ts).y.pc.Announce?
    ensures RunningOf(Run(p, a, ts).s.db, a) ==
            (if MarkedBeforeListed(p, a, ts, true) then {} else {p.x.id})
            + (if MarkedBeforeListed(p, a, ts, false) then {} else {p.y.id})
  {
    PlayedSoFar(p, a, ts);
    var q := Run(p, a, ts);
    hide Run, Played, Marked, MarkedBeforeListed;
    assert forall m | m in RunningOf(q.s.db, a) :: IsRunning(q.s.db.machines, m);
    assert forall m | IsRunning(q.s.db.machines, m) && q.s.db.machines[m].app == a :: m in RunningOf(q.s.db, a);
  }

  /** Two overlapping cutovers leave the app without a running machine if and only
      if each machine was marked running before the other request listed. */
  lemma OverlapEmptiesTheApp(p: Pair, a: string, ts: seq<Turn>)
    requires BothBooted(p, a) && Played(p, a, ts)
    requires Run(p, a, ts).x.pc.Announce? && Run(p, a, ts).y.pc.Announce?
    ensures RunningOf(Run(p, a, ts).s.db, a) == {}
            <==> MarkedBeforeListed(p, a, ts, true) && MarkedBeforeListed(p, a, ts, false)
  {
    WhatOverlapLeaves(p, a, ts);
    var left := RunningOf(Run(p, a, ts).s.db, a);
    hide Run, RunningOf, Played, MarkedBeforeListed;
    assert p.x.id in left || p.y.id in left || left == {};
  }
}
