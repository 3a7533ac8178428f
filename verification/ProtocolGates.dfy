// What a request has been through to be where it is: every call it may not go on
// without has succeeded, and a machine that fails its health check is undone.

module ProtocolGates {
  import opened Common
  import opened Tables
  import opened Protocol
  import opened ProtocolInv
  import opened ProtocolSteps
  import opened ProtocolRuns
  import opened ProtocolFlow
  import opened ProtocolTheorems
  import opened ProtocolCutover

  // ----- gates ----------------------------------------------------------------------

  /** The calls a request of this kind does not go on without. */
  function Gates(kind: Kind): set<Pc> {
    match kind
    case Deploy(_, _) => {Upsert, Build, AddRelease, Subnet, Insert, Start, Await, Mark, ListOld}
    case Scale(_, _) => {Upsert, FindRelease, Subnet, Insert, Start, Await, Mark, ListOld}
    case Restart => {FindRelease, Subnet, Insert, Start, Await, Mark, ListOld}
    case Destroy => {ListAll, DropReleases, DropApp, RemoveFiles}
  }

  /** The order of the steps; the undoing of a failed boot counts as no progress. */
  function Rank(pc: Pc): nat {
    match pc
    case Load => 0
    case LoadStored => 0
    case LoadCached => 1
    case Upsert => 2
    case CacheCfg => 3
    case Build => 4
    case AddRelease => 5
    case FindRelease => 5
    case RelSubnet => 6
    case RelInsert => 6
    case RelStart => 6
    case RelWait => 6
    case RelStop => 6
    case RelDelete => 6
    case Subnet => 7
    case Insert => 8
    case Start => 9
    case StopNew => 9
    case ForgetNew => 9
    case FailState => 9
    case FailDelete => 9
    case SetHandle => 10
    case Await => 11
    case Mark => 12
    case Spawn => 13
    case ListOld => 14
    case ListAll => 14
    case StopNext => 15
    case DropNext => 15
    case ForgetNext => 15
    case Announce => 16
    case DropReleases => 16
    case DropApp => 17
    case DropCache => 18
    case RemoveFiles => 19
    case ApplyTunnel => 20
    case SetOwner => 21
  }

  predicate Beyond(op: Op, g: Pc) {
    g in Gates(op.kind) && Rank(op.pc) > Rank(g)
  }

  /** Only a Deploy builds, inserts and runs a release; the others look one up. */
  predicate OnPath(op: Op) {
    && (op.kind.Deploy? ==> !op.pc.FindRelease? && !op.pc.Load? && !op.pc.LoadStored? && !op.pc.LoadCached?)
    && (!op.kind.Deploy? ==> !op.pc.Build? && !op.pc.AddRelease? && Rank(op.pc) != 6)
  }

  lemma PathGoesOn(op: Op, op': Op, ok: bool)
    requires KindOk(op) && OnPath(op) && op'.kind == op.kind && op'.pc in After(op, ok)
    ensures OnPath(op')
  {
  }

  lemma LoadHolds(op: Op, op': Op, ok: bool, g: Pc)
    requires KindOk(op) && OnPath(op) && op'.kind == op.kind && op'.pc in After(op, ok) && Rank(op.pc) <= 1
    ensures !Beyond(op', g)
  {
  }

  lemma StoreHolds(op: Op, op': Op, ok: bool, g: Pc)
    requires KindOk(op) && OnPath(op) && op'.kind == op.kind && op'.pc in After(op, ok) && Beyond(op', g)
    requires op.pc.Upsert? || op.pc.CacheCfg?
    ensures Beyond(op, g) || (op.pc == g && ok)
  {
  }

  lemma ConfigHolds(op: Op, op': Op, ok: bool, g: Pc)
    requires KindOk(op) && OnPath(op) && op'.kind == op.kind && op'.pc in After(op, ok) && Beyond(op', g)
    requires op.pc.Build? || op.pc.AddRelease? || op.pc.FindRelease?
    ensures Beyond(op, g) || (op.pc == g && ok)
  {
  }

  lemma MachineHolds(op: Op, op': Op, ok: bool, g: Pc)
    requires KindOk(op) && OnPath(op) && op'.kind == op.kind && op'.pc in After(op, ok) && Beyond(op', g)
    requires 5 < Rank(op.pc) <= 8
    ensures Beyond(op, g) || (op.pc == g && ok)
  {
  }

  lemma BootHolds(op: Op, op': Op, ok: bool, g: Pc)
    requires KindOk(op) && OnPath(op) && op'.kind == op.kind && op'.pc in After(op, ok) && Beyond(op', g)
    requires 8 < Rank(op.pc) <= 13
    ensures Beyond(op, g) || (op.pc == g && ok)
  {
  }

  lemma LateHolds(op: Op, op': Op, ok: bool, g: Pc)
    requires KindOk(op) && OnPath(op) && op'.kind == op.kind && op'.pc in After(op, ok) && Beyond(op', g)
    requires 13 < Rank(op.pc) && !op.kind.Destroy?
    ensures Beyond(op, g) || (op.pc == g && ok)
  {
  }

  lemma DestroyHolds(op: Op, op': Op, ok: bool, g: Pc)
    requires KindOk(op) && OnPath(op) && op'.kind == op.kind && op'.pc in After(op, ok) && Beyond(op', g)
    requires op.kind.Destroy?
    ensures Beyond(op, g) || (op.pc == g && ok)
  {
  }

  /** No step skips a gate. */
  lemma GateHolds(op: Op, op': Op, ok: bool, g: Pc)
    requires KindOk(op) && OnPath(op) && op'.kind == op.kind && op'.pc in After(op, ok) && Beyond(op', g)
    ensures Beyond(op, g) || (op.pc == g && ok)
  {
    assert 1 < Rank(op.pc) <= 5 ==> op.pc.Upsert? || op.pc.CacheCfg? || op.pc.Build? || op.pc.AddRelease? || op.pc.FindRelease?;
    hide KindOk, OnPath, After, Beyond, Rank;
    if op.kind.Destroy? { DestroyHolds(op, op', ok, g); }
    else if Rank(op.pc) <= 1 { LoadHolds(op, op', ok, g); }
    else if op.pc.Upsert? || op.pc.CacheCfg? { StoreHolds(op, op', ok, g); }
    else if op.pc.Build? || op.pc.AddRelease? || op.pc.FindRelease? { ConfigHolds(op, op', ok, g); }
    else if 5 < Rank(op.pc) <= 8 { MachineHolds(op, op', ok, g); }
    else if 8 < Rank(op.pc) <= 13 { BootHolds(op, op', ok, g); }
    else { LateHolds(op, op', ok, g); }
  }

  // ----- over runs --------------------------------------------------------------------

  ghost predicate Paths(s: State) {
    forall a | a in s.ops :: OnPath(s.ops[a])
  }

  /** Gates that are about the machine the request boots. */
  predicate OfMachine(g: Pc) {
    g.Start? || g.Await? || g.Mark? || g.ListOld?
  }

  /** `a`'s request passes the gate, with machine `id` if it is about one. */
  ghost predicate PassesAt(s: State, e: Event, a: string, g: Pc, id: MachineId) {
    && e.EOp? && e.app == a && a in s.ops && s.ops[a].pc == g && e.c.ok
    && (OfMachine(g) ==> s.ops[a].id == id) && (g.Insert? ==> e.c.id == id)
  }

  /** Somewhere in the run `a`'s latest request passed the gate. */
  ghost predicate PassedIn(s: State, es: seq<Event>, a: string, g: Pc, id: MachineId)
    requires ValidRun(s, es)
    decreases es
  {
    es != [] &&
      (PassedIn(Next(s, es[0]), es[1..], a, g, id)
       || (PassesAt(s, es[0], a, g, id) && forall e | e in es[1..] :: !Begins(e, a)))
  }

  /** Beyond the gate, with this machine if it is past inserting one. */
  predicate BeyondWith(op: Op, g: Pc, id: MachineId) {
    Beyond(op, g) && (OfMachine(g) || g.Insert? ==> op.id == id)
  }

  /** Past inserting a machine, a request is booting it or cutting over to it. */
  lemma HasMachine(op: Op, g: Pc)
    requires KindOk(op) && OnPath(op) && Beyond(op, g) && (OfMachine(g) || g.Insert?)
    ensures BootOwn(op.pc) || Cutover(op)
  {
  }

  lemma MachineKept(op: Op, op': Op, c: Choice, g: Pc, id: MachineId)
    requires KindOk(op') && OnPath(op') && SameMachine(op, op', c) && BeyondWith(op', g, id)
    requires Beyond(op, g) || (op.pc == g && c.ok)
    ensures BeyondWith(op, g, id) || (op.pc == g && c.ok && (OfMachine(g) ==> op.id == id) && (g.Insert? ==> c.id == id))
  {
    if OfMachine(g) || g.Insert? { HasMachine(op', g); }
    hide KindOk, OnPath, Gates;
  }

  lemma OpGates(s: State, a: string, c: Choice, g: Pc, id: MachineId)
    requires Inv(s) && Paths(s) && OpEnabled(s, a, c) && Inv(OpStep(s, a, c))
    ensures Paths(OpStep(s, a, c))
    ensures a in OpStep(s, a, c).ops && BeyondWith(OpStep(s, a, c).ops[a], g, id) ==>
              BeyondWith(s.ops[a], g, id) || PassesAt(s, EOp(a, c), a, g, id)
  {
    hide Inv, DbOk, OwnOk, LoopOk, GoneOk, OpStep, KindOk, OnPath, After, Beyond, SameMachine;
    var t := OpStep(s, a, c);
    OpStepFrame(s, a, c);
    InOp(s, a);
    OpFollows(s, a, c);
    OpSameMachine(s, a, c);
    if a in t.ops {
      InOp(t, a);
      PathGoesOn(s.ops[a], t.ops[a], c.ok);
      if BeyondWith(t.ops[a], g, id) {
        GateHolds(s.ops[a], t.ops[a], c.ok, g);
        MachineKept(s.ops[a], t.ops[a], c, g, id);
      }
    }
  }

  lemma Begun(s: State, a: string, kind: Kind, g: Pc)
    ensures var op := Begin(s, a, kind).ops[a]; OnPath(op) && !Beyond(op, g)
  {
    var op := Begin(s, a, kind).ops[a];
    assert op.kind == kind && op.pc == match kind case Deploy(_, _) => Upsert case Scale(_, _) => Load case Restart => Load case Destroy => ListAll;
    hide Begin;
    FirstSteps(op, g);
  }

  lemma FirstSteps(op: Op, g: Pc)
    requires match op.kind case Deploy(_, _) => op.pc.Upsert? case Destroy => op.pc.ListAll? case _ => op.pc.Load?
    ensures OnPath(op) && !Beyond(op, g)
  {
  }

  /** applyTunnel returned: only from there does a request go on without a step of its own. */
  lemma Rendered(op: Op, g: Pc, id: MachineId)
    requires op.pc.ApplyTunnel? && OnPath(op)
    ensures OnPath(op.(pc := SetOwner, changed := false))
    ensures BeyondWith(op.(pc := SetOwner, changed := false), g, id) ==> BeyondWith(op, g, id)
  {
  }

  lemma StepGates(s: State, e: Event, a: string, g: Pc, id: MachineId)
    requires Inv(s) && HolderOk(s) && Enabled(s, e) && Paths(s) && Inv(Next(s, e))
    ensures Paths(Next(s, e))
    ensures a in Next(s, e).ops && BeyondWith(Next(s, e).ops[a], g, id) ==>
              (a in s.ops && BeyondWith(s.ops[a], g, id) && !Begins(e, a)) || PassesAt(s, e, a, g, id)
  {
    hide Inv, DbOk, OpStep, WatchStep, TunnelStep, ReconcileStep, Begin, OnPath, BeyondWith;
    var t := Next(s, e);
    match e
    case EOp(b, c) =>
      OpGates(s, b, c, g, id);
      OpStepFrame(s, b, c);
    case EWatch(j, c) => WatchFrame(s, j, c);
    case EReconcile(c) => ReconcileFrame(s, c);
    case ETunnel(c) =>
      TunnelRows(s, c);
      forall b | b in t.ops ensures OnPath(t.ops[b]) && (BeyondWith(t.ops[b], g, id) ==> BeyondWith(s.ops[b], g, id)) {
        if s.ops[b].pc.ApplyTunnel? { Rendered(s.ops[b], g, id); }
      }
    case EBegin(b, kind) =>
      BeginFrame(s, b, kind);
      Begun(s, b, kind, g);
      NotBeyond(t.ops[b], g, id);
      forall x | x in t.ops ensures OnPath(t.ops[x]) && (BeyondWith(t.ops[x], g, id) ==> x in s.ops && t.ops[x] == s.ops[x]) {
        if x != b { assert Same(s.ops, t.ops, x); }
      }
    case _ =>
  }

  lemma NotBeyond(op: Op, g: Pc, id: MachineId)
    requires !Beyond(op, g)
    ensures !BeyondWith(op, g, id)
  {
  }

  lemma {:induction false} GatesPassed(s: State, es: seq<Event>, a: string, g: Pc, id: MachineId)
    requires Inv(s) && HolderOk(s) && Paths(s) && ValidRun(s, es)
    requires a in Exec(s, es).ops && BeyondWith(Exec(s, es).ops[a], g, id)
    ensures (a in s.ops && BeyondWith(s.ops[a], g, id) && forall e | e in es :: !Begins(e, a)) || PassedIn(s, es, a, g, id)
    decreases es
  {
    hide Inv, HolderOk, Paths, BeyondWith, PassesAt;
    if es != [] {
      var t, rest := Next(s, es[0]), es[1..];
      StepKeeps(s, es[0]);
      StepGates(s, es[0], a, g, id);
      GatesPassed(t, rest, a, g, id);
      assert es == [es[0]] + rest;
    }
  }

  /** In every interleaving: a request beyond a call it may not go on without has
      had that call succeed, earlier in the same request and for the same machine. */
  lemma EveryGateWasPassed(s: State, es: seq<Event>, a: string, g: Pc)
    requires Inv(s) && HolderOk(s) && Paths(s) && ValidRun(s, es) && a !in s.ops
    requires a in Exec(s, es).ops && Beyond(Exec(s, es).ops[a], g)
    ensures PassedIn(s, es, a, g, Exec(s, es).ops[a].id)
  {
    GatesPassed(s, es, a, g, Exec(s, es).ops[a].id);
  }

  lemma StartsOk()
    ensures Inv(INIT) && HolderOk(INIT) && Paths(INIT)
  {
    InitOk();
  }

  // ----- a failed health check -----------------------------------------------------------

  /** On the way to running. */
  predicate Hopeful(op: Op) {
    op.pc.Start? || op.pc.SetHandle? || op.pc.Await? || op.pc.Mark?
  }

  /** Not running, and no request is on the way to making it so. */
  ghost predicate Rejected(s: State, id: MachineId) {
    && id in s.ids.appOf && !IsRunning(s.db.machines, id)
    && forall a | a in s.ops && s.ops[a].id == id :: !Hopeful(s.ops[a])
  }

  lemma NoHope(op: Op, op': Op, c: Choice)
    requires KindOk(op) && !Hopeful(op) && op'.kind == op.kind && op'.pc in After(op, c.ok) && Hopeful(op')
    ensures InsertPc(op.pc)
  {
  }

  lemma OpRejects(s: State, a: string, c: Choice, id: MachineId)
    requires Inv(s) && OpEnabled(s, a, c) && Rejected(s, id)
    ensures Rejected(OpStep(s, a, c), id)
  {
    hide Inv, DbOk, OwnOk, LoopOk, GoneOk, OpStep, KindOk, After;
    var t := OpStep(s, a, c);
    OpStepFrame(s, a, c);
    OpIds(s, a, c);
    InOp(s, a);
    if IsRunning(t.db.machines, id) { OpTurnsRunning(s, a, c, id); }
    if a in t.ops && t.ops[a].id == id && Hopeful(t.ops[a]) {
      OpFollows(s, a, c);
      OpSameMachine(s, a, c);
      if !Hopeful(s.ops[a]) { NoHope(s.ops[a], t.ops[a], c); }
    }
  }

  lemma StepRejects(s: State, e: Event, id: MachineId)
    requires Inv(s) && HolderOk(s) && Enabled(s, e) && Rejected(s, id)
    ensures Rejected(Next(s, e), id)
  {
    hide Inv, DbOk, OpStep, WatchStep, TunnelStep, ReconcileStep, Begin, Hopeful;
    var t := Next(s, e);
    match e
    case EOp(b, c) => OpRejects(s, b, c, id);
    case EWatch(j, c) =>
      WatchFrame(s, j, c);
      WatchRows(s, j, c);
      assert j != id ==> Same(s.db.machines, t.db.machines, id);
    case EReconcile(c) =>
      ReconcileFrame(s, c);
      ReconcileRows(s, c, id);
      ReconcileIds(s, c);
    case ETunnel(c) =>
      TunnelRows(s, c);
      forall b | b in t.ops && t.ops[b].id == id ensures !Hopeful(t.ops[b]) { TunnelHope(s, t, b); }
    case EBegin(b, kind) =>
      BeginFrame(s, b, kind);
      assert !Hopeful(t.ops[b]) by { BegunHope(s, b, kind); }
      forall x | x in t.ops && t.ops[x].id == id ensures !Hopeful(t.ops[x]) {
        if x != b { assert Same(s.ops, t.ops, x); }
      }
    case _ =>
  }

  lemma ReconcileIds(s: State, c: Choice)
    requires ReconcileEnabled(s, c)
    ensures ReconcileStep(s, c).ids == s.ids
  {
    hide SubnetForOwner, SetMachineState;
  }

  lemma TunnelHope(s: State, t: State, a: string)
    requires Inv(s) && TunnelOnly(s, t) && a in t.ops
    ensures t.ops[a].id == s.ops[a].id && (Hopeful(t.ops[a]) ==> Hopeful(s.ops[a]))
  {
    hide Inv;
  }

  lemma BegunHope(s: State, a: string, kind: Kind)
    ensures !Hopeful(Begin(s, a, kind).ops[a])
  {
  }

  /** A step changes no row, handle or stop of a machine other than `id`. */
  ghost predicate OnlyOwn(s: State, t: State, id: MachineId) {
    forall m | m != id ::
      Same(s.db.machines, t.db.machines, m) && Same(s.vm.handles, t.vm.handles, m) && (m in t.ids.stopped <==> m in s.ids.stopped)
  }

  /** Until `a` gets another request, every step of its request is such. */
  ghost predicate UndoesOnly(s: State, es: seq<Event>, a: string, id: MachineId)
    requires ValidRun(s, es)
    decreases es
  {
    es != [] ==>
      && (es[0].EOp? && es[0].app == a ==> OnlyOwn(s, Next(s, es[0]), id))
      && (Begins(es[0], a) || UndoesOnly(Next(s, es[0]), es[1..], a, id))
  }

  ghost predicate GivingUp(s: State, a: string, id: MachineId) {
    a in s.ops ==> Undoing(s.ops[a].pc) && s.ops[a].id == id
  }

  lemma UndoingStep(s: State, a: string, c: Choice, id: MachineId)
    requires OpEnabled(s, a, c) && GivingUp(s, a, id)
    ensures OnlyOwn(s, OpStep(s, a, c), id) && GivingUp(OpStep(s, a, c), a, id)
  {
    hide OpOwes;
  }

  lemma StepGivesUp(s: State, e: Event, a: string, id: MachineId)
    requires Inv(s) && HolderOk(s) && Enabled(s, e) && GivingUp(s, a, id) && !Begins(e, a)
    ensures GivingUp(Next(s, e), a, id)
    ensures e.EOp? && e.app == a ==> OnlyOwn(s, Next(s, e), id)
  {
    hide Inv, DbOk, OpStep, WatchStep, TunnelStep, ReconcileStep, Begin, OnlyOwn;
    match e
    case EOp(b, c) =>
      if b == a { UndoingStep(s, a, c, id); } else { OpStepFrame(s, b, c); }
    case EWatch(j, c) => WatchFrame(s, j, c);
    case EReconcile(c) => ReconcileFrame(s, c);
    case ETunnel(c) => TunnelRows(s, c);
    case EBegin(b, kind) =>
      BeginFrame(s, b, kind);
      assert Same(s.ops, Next(s, e).ops, a);
    case _ =>
  }

  lemma {:induction false} GivesUp(s: State, es: seq<Event>, a: string, id: MachineId)
    requires Inv(s) && HolderOk(s) && ValidRun(s, es) && Rejected(s, id)
    ensures Rejected(Exec(s, es), id)
    ensures GivingUp(s, a, id) ==> UndoesOnly(s, es, a, id)
    decreases es
  {
    hide Inv, HolderOk, Rejected, GivingUp, OnlyOwn;
    if es != [] {
      StepKeeps(s, es[0]);
      StepRejects(s, es[0], id);
      GivesUp(Next(s, es[0]), es[1..], a, id);
      if GivingUp(s, a, id) {
        if Begins(es[0], a) { assert !es[0].EOp?; } else { StepGivesUp(s, es[0], a, id); }
      }
    }
  }

  lemma CheckFails(s: State, a: string, c: Choice)
    requires Inv(s) && OpEnabled(s, a, c) && s.ops[a].pc.Await? && !c.ok
    ensures Rejected(OpStep(s, a, c), s.ops[a].id) && GivingUp(OpStep(s, a, c), a, s.ops[a].id)
  {
    hide Inv, DbOk, KindOk, LoopOk, GoneOk, IdOk;
    InOp(s, a);
    var t := OpStep(s, a, c);
    forall b | b in t.ops && t.ops[b].id == s.ops[a].id ensures !Hopeful(t.ops[b]) {
      if b != a { InOp(s, b); }
    }
  }

  /** After a failed health check that machine never runs, and all its request
      still does, to its end, concerns that machine alone: the machines that were
      running are left running. */
  lemma FailedCheckIsFinal(s: State, a: string, c: Choice, es: seq<Event>)
    requires Inv(s) && HolderOk(s) && OpEnabled(s, a, c) && s.ops[a].pc.Await? && !c.ok && ValidRun(OpStep(s, a, c), es)
    ensures !IsRunning(Exec(OpStep(s, a, c), es).db.machines, s.ops[a].id)
    ensures UndoesOnly(OpStep(s, a, c), es, a, s.ops[a].id)
  {
    CheckFails(s, a, c);
    StepKeeps(s, EOp(a, c));
    GivesUp(OpStep(s, a, c), es, a, s.ops[a].id);
  }

  /** And once a watcher has marked its exited machine's row stopped, that machine
      never runs again, whether or not the row's delete then succeeds. */
  lemma ReapedNeverRuns(s: State, id: MachineId, c: Choice, es: seq<Event>)
    requires Inv(s) && HolderOk(s) && WatchEnabled(s, id) && s.vm.watchers[id].pc.Matched? && c.ok && ValidRun(WatchStep(s, id, c), es)
    ensures !IsRunning(Exec(WatchStep(s, id, c), es).db.machines, id)
  {
    Reaped(s, id, c);
    StepKeeps(s, EWatch(id, c));
    GivesUp(WatchStep(s, id, c), es, "", id);
  }

  lemma Reaped(s: State, id: MachineId, c: Choice)
    requires Inv(s) && WatchEnabled(s, id) && s.vm.watchers[id].pc.Matched? && c.ok
    ensures Rejected(WatchStep(s, id, c), id)
  {
    AnId(s, id);
    var t := WatchStep(s, id, c);
    WatchFrame(s, id, c);
    assert t.ids == s.ids && !IsRunning(t.db.machines, id);
    hide Inv, WatchStep, DbOk, KindOk, LoopOk, GoneOk, IdOk;
    forall b | b in t.ops && t.ops[b].id == id ensures !Hopeful(t.ops[b]) { InOp(s, b); }
  }

  // ----- a row left behind --------------------------------------------------------------------

  /** The row, if it is still there, reads failed, and nothing is about to change that. */
  ghost predicate ReadsFailed(s: State, id: MachineId) {
    && Rejected(s, id) && id !in s.vm.watchers && (id in s.db.machines ==> s.db.machines[id].state == Failed)
  }

  lemma OpReadsFailed(s: State, a: string, c: Choice, id: MachineId)
    requires Inv(s) && OpEnabled(s, a, c) && ReadsFailed(s, id)
    ensures ReadsFailed(OpStep(s, a, c), id)
  {
    OpRejects(s, a, c, id);
    OpRows(s, a, c);
    OpStepFrame(s, a, c);
    hide Inv, OpStep, Rejected;
    var op, t := s.ops[a], OpStep(s, a, c);
    if op.pc.Spawn? { NotSpawning(s, a, id); }
    if !Same(s.db.machines, t.db.machines, id) {
      if id == op.id && RowPc(op.pc) { OwnRowFails(s, a, c, id); }
      else if op.pc.DropNext? { DropsRow(s, a, c, id); }
      else { NotInserting(s, a, c, id); }
    }
  }

  lemma NotSpawning(s: State, a: string, id: MachineId)
    requires Inv(s) && a in s.ops && s.ops[a].pc.Spawn? && ReadsFailed(s, id)
    ensures s.ops[a].id != id
  {
    hide Inv, DbOk, KindOk, LoopOk, GoneOk;
    InOp(s, a);
  }

  lemma OwnRowFails(s: State, a: string, c: Choice, id: MachineId)
    requires OpEnabled(s, a, c) && RowPc(s.ops[a].pc) && s.ops[a].id == id && ReadsFailed(s, id)
    ensures id in OpStep(s, a, c).db.machines ==> OpStep(s, a, c).db.machines[id].state == Failed
  {
    hide OpOwes;
  }

  lemma DropsRow(s: State, a: string, c: Choice, id: MachineId)
    requires OpEnabled(s, a, c) && s.ops[a].pc.DropNext? && ReadsFailed(s, id)
    ensures id in OpStep(s, a, c).db.machines ==> OpStep(s, a, c).db.machines[id].state == Failed
  {
    hide OpOwes;
  }

  lemma NotInserting(s: State, a: string, c: Choice, id: MachineId)
    requires Inv(s) && OpEnabled(s, a, c) && ReadsFailed(s, id) && InsertPc(s.ops[a].pc)
    ensures id != c.id
  {
    hide Inv;
  }

  lemma StepReadsFailed(s: State, e: Event, id: MachineId)
    requires Inv(s) && HolderOk(s) && Enabled(s, e) && ReadsFailed(s, id)
    ensures ReadsFailed(Next(s, e), id)
  {
    StepRejects(s, e, id);
    hide Inv, DbOk, OpStep, WatchStep, TunnelStep, ReconcileStep, Begin, Rejected;
    if e.EOp? { OpReadsFailed(s, e.app, e.c, id); }
    else if e.EWatch? { WatchReadsFailed(s, e.id, e.c, id); }
    else if e.EReconcile? { ReconcileReadsFailed(s, e.c, id); }
    else if e.ETunnel? { TunnelRows(s, e.c); }
    else { RestReadsFailed(s, e, id); }
  }

  lemma RestReadsFailed(s: State, e: Event, id: MachineId)
    requires Enabled(s, e) && !e.EOp? && !e.EWatch? && !e.EReconcile? && !e.ETunnel? && id !in s.vm.watchers
    ensures id !in Next(s, e).vm.watchers && Next(s, e).db == s.db
  {
    if e.EBegin? { BeginVm(s, e.app, e.kind); }
  }

  lemma WatchReadsFailed(s: State, j: MachineId, c: Choice, id: MachineId)
    requires WatchEnabled(s, j) && ReadsFailed(s, id)
    ensures var t := WatchStep(s, j, c); id !in t.vm.watchers && (id in t.db.machines ==> t.db.machines[id].state == Failed)
  {
    WatchFrame(s, j, c);
    WatchRows(s, j, c);
    hide WatchStep, Rejected;
    assert Same(s.vm.watchers, WatchStep(s, j, c).vm.watchers, id) && Same(s.db.machines, WatchStep(s, j, c).db.machines, id);
  }

  lemma BeginVm(s: State, a: string, kind: Kind)
    ensures Begin(s, a, kind).db == s.db && Begin(s, a, kind).vm == s.vm
  {
  }

  lemma ReconcileReadsFailed(s: State, c: Choice, id: MachineId)
    requires Inv(s) && ReconcileEnabled(s, c) && ReadsFailed(s, id)
    ensures var t := ReconcileStep(s, c); id !in t.vm.watchers && (id in t.db.machines ==> t.db.machines[id].state == Failed)
  {
    hide Inv, DbOk, LeastIndexFrom;
    InMode(s);
  }

  lemma {:induction false} StaysFailed(s: State, es: seq<Event>, id: MachineId)
    requires Inv(s) && HolderOk(s) && ValidRun(s, es) && ReadsFailed(s, id)
    ensures ReadsFailed(Exec(s, es), id)
    decreases es
  {
    hide Inv, HolderOk, ReadsFailed;
    if es != [] {
      StepKeeps(s, es[0]);
      StepReadsFailed(s, es[0], id);
      StaysFailed(Next(s, es[0]), es[1..], id);
    }
  }

  lemma MarkedFailed(s: State, a: string, c: Choice)
    requires Inv(s) && OpEnabled(s, a, c) && s.ops[a].pc.FailState? && c.ok
    ensures ReadsFailed(OpStep(s, a, c), s.ops[a].id)
  {
    hide Inv, DbOk, KindOk, LoopOk, GoneOk, IdOk, OpOwes;
    InOp(s, a);
    var op, t := s.ops[a], OpStep(s, a, c);
    assert t == DoFailState(s, a, op, c);
    hide OpStep;
    forall b | b in t.ops && t.ops[b].id == op.id ensures !Hopeful(t.ops[b]) {
      if b != a { InOp(s, b); }
    }
  }

  /** A failed boot's row reads failed from then on, should its delete fail. */
  lemma FailedBootReadsFailed(s: State, a: string, c: Choice, es: seq<Event>)
    requires Inv(s) && HolderOk(s) && OpEnabled(s, a, c) && s.ops[a].pc.FailState? && c.ok && ValidRun(OpStep(s, a, c), es)
    ensures var rows := Exec(OpStep(s, a, c), es).db.machines;
            s.ops[a].id in rows ==> rows[s.ops[a].id].state == Failed
  {
    MarkedFailed(s, a, c);
    StepKeeps(s, EOp(a, c));
    StaysFailed(OpStep(s, a, c), es, s.ops[a].id);
  }
}
