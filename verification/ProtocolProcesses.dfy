// What becomes of the processes and the handles: none is lost sight of.

module ProtocolProcesses {
  import opened Common
  import opened Tables
  import opened Protocol
  import opened ProtocolInv
  import opened ProtocolSteps
  import opened ProtocolRuns
  import opened ProtocolFlow
  import opened ProtocolTheorems
  import opened ProtocolCutover

  /** No process, or it is gone, or was asked to stop. */
  ghost predicate Quiet(vm: Vms, ids: Ids, id: MachineId) {
    id in vm.procs && vm.procs[id].live ==> id in ids.stopped
  }

  /** Started, with its handle still to be stored, or a release machine, which gets none. */
  ghost predicate InFlight(ops: map<string, Op>, appOf: map<MachineId, string>, m: Mode, id: MachineId) {
    || (m.Reconciling? && m.rpc.RHandle? && m.rcur == id)
    || (id in appOf && appOf[id] in ops && ops[appOf[id]].id == id
        && (ops[appOf[id]].pc.RelWait? || ops[appOf[id]].pc.RelStop? || ops[appOf[id]].pc.SetHandle?))
  }

  /** Its row is deleted and its handle about to be. */
  ghost predicate Forgetting(ops: map<string, Op>, appOf: map<MachineId, string>, id: MachineId) {
    id in appOf && appOf[id] in ops && ops[appOf[id]].pc.ForgetNext? && ops[appOf[id]].cur == id
  }

  ghost predicate KnownId(s: State, id: MachineId) {
    && (!Quiet(s.vm, s.ids, id) ==> id in s.db.machines && (id in s.vm.handles || InFlight(s.ops, s.ids.appOf, s.mode, id)))
    && (id in s.vm.handles ==> id in s.db.machines || Forgetting(s.ops, s.ids.appOf, id))
    && (id in s.vm.watchers && (s.vm.watchers[id].pc.Remove? || s.vm.watchers[id].pc.WApply?) ==> id !in s.vm.handles)
  }

  ghost predicate KnownOp(vm: Vms, ids: Ids, op: Op) {
    && (op.pc.RelDelete? || op.pc.ForgetNew? || op.pc.FailState? || op.pc.FailDelete? ==> Quiet(vm, ids, op.id))
    && (op.pc.FailState? || op.pc.FailDelete? ==> op.id !in vm.handles)
    && (op.pc.DropNext? ==> Quiet(vm, ids, op.cur))
  }

  /** What StopAll has still to do for the machines it was to keep the rows of. */
  ghost predicate KnownStop(vm: Vms, ids: Ids, kept: map<MachineId, Machine>, m: Mode) {
    m.Stopping? ==>
      && (m.spc.SForget? ==> m.scur in vm.procs && Quiet(vm, ids, m.scur))
      && forall id | id in kept :: id in vm.procs && (Quiet(vm, ids, id) || if m.spc.SCopy? then id in vm.handles else id in m.stodo)
  }

  ghost predicate Known(s: State) {
    && (forall id :: KnownId(s, id))
    && (forall a | a in s.ops :: KnownOp(s.vm, s.ids, s.ops[a]))
    && KnownStop(s.vm, s.ids, s.h.kept, s.mode)
  }

  // ----- one request's step -----------------------------------------------------------------

  /** The machine a step is about, if it is about one. */
  predicate Touches(op: Op, c: Choice, id: MachineId) {
    if InsertPc(op.pc) || op.pc.StopNext? then id == c.id
    else if RelOwn(op.pc) || BootOwn(op.pc) || op.pc.Spawn? then id == op.id
    else if op.pc.DropNext? || op.pc.ForgetNext? then id == op.cur
    else false
  }

  ghost predicate Spared(s: State, t: State, id: MachineId) {
    && (id in t.db.machines <==> id in s.db.machines) && Same(s.vm.procs, t.vm.procs, id) && Same(s.vm.handles, t.vm.handles, id)
    && Same(s.vm.watchers, t.vm.watchers, id) && (id in t.ids.stopped <==> id in s.ids.stopped)
  }

  ghost predicate Spares(s: State, t: State, a: string, c: Choice)
    requires a in s.ops
  {
    forall id | !Touches(s.ops[a], c, id) :: Spared(s, t, id)
  }

  lemma ConfigSpares(s: State, a: string, c: Choice)
    requires OpEnabled(s, a, c) && ConfigPc(s.ops[a].pc)
    ensures Spares(s, OpStep(s, a, c), a, c)
  {
    hide OpOwes, Scaled, LatestRelease, NextReleaseId;
  }

  lemma SubnetSpares(s: State, a: string, c: Choice)
    requires OpEnabled(s, a, c) && (s.ops[a].pc.RelSubnet? || s.ops[a].pc.Subnet?)
    ensures Spares(s, OpStep(s, a, c), a, c)
  {
    hide OpOwes, LeastIndexFrom;
  }

  lemma InsertSpares(s: State, a: string, c: Choice)
    requires OpEnabled(s, a, c) && InsertPc(s.ops[a].pc)
    ensures Spares(s, OpStep(s, a, c), a, c)
  {
    hide OpOwes, AllocAndInsertMachine, Spares;
    var op, t := s.ops[a], OpStep(s, a, c);
    var r := AllocAndInsertMachine(s.db, c.id, a, op.rel, op.idx);
    assert t.vm == s.vm && t.ids.stopped == s.ids.stopped && (t.db == s.db || (r.Some? && t.db == r.value.0));
    hide OpStep;
    OneRow(s, t, a, c);
  }

  lemma OneRow(s: State, t: State, a: string, c: Choice)
    requires a in s.ops && InsertPc(s.ops[a].pc) && t.vm == s.vm && t.ids.stopped == s.ids.stopped
    requires var r := AllocAndInsertMachine(s.db, c.id, a, s.ops[a].rel, s.ops[a].idx); t.db == s.db || (r.Some? && t.db == r.value.0)
    ensures Spares(s, t, a, c)
  {
    hide FreeIp;
  }

  lemma ReleaseSpares(s: State, a: string, c: Choice)
    requires OpEnabled(s, a, c) && RelOwn(s.ops[a].pc)
    ensures Spares(s, OpStep(s, a, c), a, c)
  {
    hide OpOwes, Passed;
  }

  lemma BootSpares(s: State, a: string, c: Choice)
    requires OpEnabled(s, a, c) && (BootOwn(s.ops[a].pc) || s.ops[a].pc.Spawn?) && !Undoing(s.ops[a].pc)
    ensures Spares(s, OpStep(s, a, c), a, c)
  {
    hide OpOwes;
  }

  lemma UndoingSpares(s: State, a: string, c: Choice)
    requires OpEnabled(s, a, c) && Undoing(s.ops[a].pc)
    ensures Spares(s, OpStep(s, a, c), a, c)
  {
    hide OpOwes;
  }

  lemma LoopSpares(s: State, a: string, c: Choice)
    requires OpEnabled(s, a, c) && Looping(s.ops[a].pc)
    ensures Spares(s, OpStep(s, a, c), a, c)
  {
    hide OpOwes, LoopPc;
  }

  lemma RestSpares(s: State, a: string, c: Choice)
    requires OpEnabled(s, a, c) && !NoMachine(s.ops[a].pc) && !RelOwn(s.ops[a].pc) && !BootOwn(s.ops[a].pc)
    requires !s.ops[a].pc.Spawn? && !Looping(s.ops[a].pc)
    ensures Spares(s, OpStep(s, a, c), a, c)
  {
    hide OpOwes, LoopPc, MachinesOf, ReleasesOf;
  }

  lemma OpSpares(s: State, a: string, c: Choice)
    requires OpEnabled(s, a, c)
    ensures Spares(s, OpStep(s, a, c), a, c)
  {
    hide OpStep, Spares;
    var pc := s.ops[a].pc;
    if ConfigPc(pc) { ConfigSpares(s, a, c); }
    else if InsertPc(pc) { InsertSpares(s, a, c); }
    else if NoMachine(pc) { SubnetSpares(s, a, c); }
    else if RelOwn(pc) { ReleaseSpares(s, a, c); }
    else if Undoing(pc) { UndoingSpares(s, a, c); }
    else if BootOwn(pc) || pc.Spawn? { BootSpares(s, a, c); }
    else if Looping(pc) { LoopSpares(s, a, c); }
    else { RestSpares(s, a, c); }
  }

  ghost predicate KnownAfter(s: State, t: State, a: string, id: MachineId) {
    KnownId(t, id) && (a in t.ops ==> KnownOp(t.vm, t.ids, t.ops[a]))
  }

  lemma InsertKnown(s: State, a: string, c: Choice)
    requires Inv(s) && OpEnabled(s, a, c) && InsertPc(s.ops[a].pc)
    ensures KnownAfter(s, OpStep(s, a, c), a, c.id)
  {
    hide Inv, OpOwes, AllocAndInsertMachine, KnownAfter;
    var t := OpStep(s, a, c);
    assert t.vm == s.vm && t.ids.stopped == s.ids.stopped;
    assert a in t.ops ==> t.ops[a].pc.RelStart? || t.ops[a].pc.Start?;
    assert c.id !in s.ids.appOf;
    hide OpStep, OpEnabled;
    AnId(s, c.id);
    NewIsKnown(s, t, a, c.id);
  }

  lemma NewIsKnown(s: State, t: State, a: string, id: MachineId)
    requires IdOk(s.db.machines, s.vm, s.ids, id) && id !in s.ids.appOf && t.vm == s.vm && t.ids.stopped == s.ids.stopped
    requires a in t.ops ==> t.ops[a].pc.RelStart? || t.ops[a].pc.Start?
    ensures KnownAfter(s, t, a, id)
  {
  }

  /** What Inv gives about the machine a request is booting or stopping. */
  lemma OwnMachineOk(s: State, a: string)
    requires Inv(s) && a in s.ops
    ensures !s.mode.Reconciling?
    ensures var op := s.ops[a];
            && (RelOwn(op.pc) || BootOwn(op.pc) || (op.pc.Spawn? && !op.kind.Destroy?) ==>
                  op.id in s.ids.appOf && s.ids.appOf[op.id] == a && op.id in s.db.machines && op.id !in s.vm.watchers)
            && (op.pc.Spawn? ==> !op.kind.Destroy?)
            && (RelOwn(op.pc) ==> op.id !in s.vm.handles)
            && (op.pc.RelStart? || op.pc.Start? ==> op.id !in s.vm.procs && op.id !in s.vm.handles)
            && (op.pc.SetHandle? ==> op.id in s.vm.procs)
            && (op.pc.StopNext? ==> forall t | t in op.todo :: t in s.ids.appOf && s.ids.appOf[t] == a)
            && (op.pc.DropNext? || op.pc.ForgetNext? ==> op.cur in s.ids.appOf && s.ids.appOf[op.cur] == a)
            && (op.pc.ForgetNext? ==> op.cur !in s.db.machines)
  {
    hide Inv, DbOk, GoneOk;
    InOp(s, a);
  }

  lemma RelStartKnown(s: State, a: string, c: Choice)
    requires Inv(s) && OpEnabled(s, a, c) && s.ops[a].pc.RelStart? && KnownId(s, s.ops[a].id) && KnownOp(s.vm, s.ids, s.ops[a])
    ensures KnownAfter(s, OpStep(s, a, c), a, s.ops[a].id)
  {
    hide Inv, OpOwes;
    OwnMachineOk(s, a);
    var op := s.ops[a];
    assert OpStep(s, a, c) == DoRelStart(s, a, op, c);
    hide OpStep;
  }

  lemma RelWaitKnown(s: State, a: string, c: Choice)
    requires Inv(s) && OpEnabled(s, a, c) && s.ops[a].pc.RelWait? && KnownId(s, s.ops[a].id) && KnownOp(s.vm, s.ids, s.ops[a])
    ensures KnownAfter(s, OpStep(s, a, c), a, s.ops[a].id)
  {
    hide Inv, OpOwes;
    OwnMachineOk(s, a);
    var op := s.ops[a];
    assert OpStep(s, a, c) == DoRelWait(s, a, op, c);
    hide OpStep;
  }

  lemma RelStopKnown(s: State, a: string, c: Choice)
    requires Inv(s) && OpEnabled(s, a, c) && s.ops[a].pc.RelStop? && KnownId(s, s.ops[a].id) && KnownOp(s.vm, s.ids, s.ops[a])
    ensures KnownAfter(s, OpStep(s, a, c), a, s.ops[a].id)
  {
    hide Inv, OpOwes;
    OwnMachineOk(s, a);
    var op := s.ops[a];
    assert OpStep(s, a, c) == DoRelStop(s, a, op, c);
    hide OpStep;
  }

  lemma RelDeleteKnown(s: State, a: string, c: Choice)
    requires Inv(s) && OpEnabled(s, a, c) && s.ops[a].pc.RelDelete? && KnownId(s, s.ops[a].id) && KnownOp(s.vm, s.ids, s.ops[a])
    ensures KnownAfter(s, OpStep(s, a, c), a, s.ops[a].id)
  {
    hide Inv, OpOwes;
    OwnMachineOk(s, a);
    var op := s.ops[a];
    assert OpStep(s, a, c) == DoRelDelete(s, a, op, c);
    hide OpStep;
  }

  lemma StartKnown(s: State, a: string, c: Choice)
    requires Inv(s) && OpEnabled(s, a, c) && s.ops[a].pc.Start? && KnownId(s, s.ops[a].id) && KnownOp(s.vm, s.ids, s.ops[a])
    ensures KnownAfter(s, OpStep(s, a, c), a, s.ops[a].id)
  {
    hide Inv, OpOwes;
    OwnMachineOk(s, a);
    var op := s.ops[a];
    assert OpStep(s, a, c) == DoStart(s, a, op, c);
    hide OpStep;
  }

  lemma SetHandleKnown(s: State, a: string, c: Choice)
    requires Inv(s) && OpEnabled(s, a, c) && s.ops[a].pc.SetHandle? && KnownId(s, s.ops[a].id) && KnownOp(s.vm, s.ids, s.ops[a])
    ensures KnownAfter(s, OpStep(s, a, c), a, s.ops[a].id)
  {
    hide Inv, OpOwes;
    OwnMachineOk(s, a);
    var op := s.ops[a];
    assert OpStep(s, a, c) == DoSetHandle(s, a, op);
    hide OpStep;
  }

  lemma AwaitKnown(s: State, a: string, c: Choice)
    requires Inv(s) && OpEnabled(s, a, c) && s.ops[a].pc.Await? && KnownId(s, s.ops[a].id) && KnownOp(s.vm, s.ids, s.ops[a])
    ensures KnownAfter(s, OpStep(s, a, c), a, s.ops[a].id)
  {
    hide Inv, OpOwes;
    OwnMachineOk(s, a);
    var op := s.ops[a];
    assert OpStep(s, a, c) == DoAwait(s, a, op, c);
    hide OpStep;
  }

  lemma MarkKnown(s: State, a: string, c: Choice)
    requires Inv(s) && OpEnabled(s, a, c) && s.ops[a].pc.Mark? && KnownId(s, s.ops[a].id) && KnownOp(s.vm, s.ids, s.ops[a])
    ensures KnownAfter(s, OpStep(s, a, c), a, s.ops[a].id)
  {
    hide Inv, OpOwes;
    OwnMachineOk(s, a);
    var op := s.ops[a];
    assert OpStep(s, a, c) == DoMark(s, a, op, c);
    hide OpStep;
  }

  lemma SpawnKnown(s: State, a: string, c: Choice)
    requires Inv(s) && OpEnabled(s, a, c) && s.ops[a].pc.Spawn? && KnownId(s, s.ops[a].id) && KnownOp(s.vm, s.ids, s.ops[a])
    ensures KnownAfter(s, OpStep(s, a, c), a, s.ops[a].id)
  {
    hide Inv, OpOwes;
    OwnMachineOk(s, a);
    var op := s.ops[a];
    assert OpStep(s, a, c) == DoSpawn(s, a, op);
    hide OpStep;
  }

  lemma StopNewKnown(s: State, a: string, c: Choice)
    requires Inv(s) && OpEnabled(s, a, c) && s.ops[a].pc.StopNew? && KnownId(s, s.ops[a].id) && KnownOp(s.vm, s.ids, s.ops[a])
    ensures KnownAfter(s, OpStep(s, a, c), a, s.ops[a].id)
  {
    hide Inv, OpOwes;
    OwnMachineOk(s, a);
    var op := s.ops[a];
    assert OpStep(s, a, c) == DoStopNew(s, a, op, c);
    hide OpStep;
  }

  lemma ForgetNewKnown(s: State, a: string, c: Choice)
    requires Inv(s) && OpEnabled(s, a, c) && s.ops[a].pc.ForgetNew? && KnownId(s, s.ops[a].id) && KnownOp(s.vm, s.ids, s.ops[a])
    ensures KnownAfter(s, OpStep(s, a, c), a, s.ops[a].id)
  {
    hide Inv, OpOwes;
    OwnMachineOk(s, a);
    var op := s.ops[a];
    assert OpStep(s, a, c) == DoForgetNew(s, a, op);
    hide OpStep;
  }

  lemma FailStateKnown(s: State, a: string, c: Choice)
    requires Inv(s) && OpEnabled(s, a, c) && s.ops[a].pc.FailState? && KnownId(s, s.ops[a].id) && KnownOp(s.vm, s.ids, s.ops[a])
    ensures KnownAfter(s, OpStep(s, a, c), a, s.ops[a].id)
  {
    hide Inv, OpOwes;
    OwnMachineOk(s, a);
    var op := s.ops[a];
    assert OpStep(s, a, c) == DoFailState(s, a, op, c);
    hide OpStep;
  }

  lemma FailDeleteKnown(s: State, a: string, c: Choice)
    requires Inv(s) && OpEnabled(s, a, c) && s.ops[a].pc.FailDelete? && KnownId(s, s.ops[a].id) && KnownOp(s.vm, s.ids, s.ops[a])
    ensures KnownAfter(s, OpStep(s, a, c), a, s.ops[a].id)
  {
    hide Inv, OpOwes;
    OwnMachineOk(s, a);
    var op := s.ops[a];
    assert OpStep(s, a, c) == DoFailDelete(s, a, op, c);
    hide OpStep;
  }

  lemma StopNextKnown(s: State, a: string, c: Choice)
    requires Inv(s) && OpEnabled(s, a, c) && s.ops[a].pc.StopNext? && KnownId(s, c.id) && KnownOp(s.vm, s.ids, s.ops[a])
    ensures KnownAfter(s, OpStep(s, a, c), a, c.id)
  {
    hide Inv, OpOwes;
    OwnMachineOk(s, a);
    var op := s.ops[a];
    assert OpStep(s, a, c) == DoStopNext(s, a, op, c);
    hide OpStep;
  }

  lemma DropNextKnown(s: State, a: string, c: Choice)
    requires Inv(s) && OpEnabled(s, a, c) && s.ops[a].pc.DropNext? && KnownId(s, s.ops[a].cur) && KnownOp(s.vm, s.ids, s.ops[a])
    ensures KnownAfter(s, OpStep(s, a, c), a, s.ops[a].cur)
  {
    hide Inv, OpOwes;
    OwnMachineOk(s, a);
    var op := s.ops[a];
    assert OpStep(s, a, c) == DoDropNext(s, a, op, c);
    hide OpStep;
  }

  lemma ForgetNextKnown(s: State, a: string, c: Choice)
    requires Inv(s) && OpEnabled(s, a, c) && s.ops[a].pc.ForgetNext? && KnownId(s, s.ops[a].cur) && KnownOp(s.vm, s.ids, s.ops[a])
    ensures KnownAfter(s, OpStep(s, a, c), a, s.ops[a].cur)
  {
    hide Inv, OpOwes;
    OwnMachineOk(s, a);
    var op := s.ops[a];
    assert OpStep(s, a, c) == DoForgetNext(s, a, op);
    hide OpStep;
  }

  /** No other step leads to where a request knows something of its machine. */
  lemma RestKnown(op: Op, op': Op, c: Choice, vm: Vms, ids: Ids)
    requires op'.pc in After(op, c.ok) && !RelOwn(op.pc) && !BootOwn(op.pc) && !op.pc.StopNext? && !op.pc.DropNext?
    ensures KnownOp(vm, ids, op')
  {
    assert !Undoing(op'.pc) && !op'.pc.RelDelete? && !op'.pc.DropNext?;
  }

  lemma ReleaseKnown(s: State, a: string, c: Choice)
    requires Inv(s) && OpEnabled(s, a, c) && RelOwn(s.ops[a].pc) && KnownId(s, s.ops[a].id) && KnownOp(s.vm, s.ids, s.ops[a])
    ensures KnownAfter(s, OpStep(s, a, c), a, s.ops[a].id)
  {
    hide Inv, OpStep, KnownAfter, KnownId, KnownOp;
    if s.ops[a].pc.RelStart? { RelStartKnown(s, a, c); }
    else if s.ops[a].pc.RelWait? { RelWaitKnown(s, a, c); }
    else if s.ops[a].pc.RelStop? { RelStopKnown(s, a, c); }
    else { RelDeleteKnown(s, a, c); }
  }

  lemma BootKnown(s: State, a: string, c: Choice)
    requires Inv(s) && OpEnabled(s, a, c) && (BootOwn(s.ops[a].pc) || s.ops[a].pc.Spawn?) && !Undoing(s.ops[a].pc) && KnownId(s, s.ops[a].id) && KnownOp(s.vm, s.ids, s.ops[a])
    ensures KnownAfter(s, OpStep(s, a, c), a, s.ops[a].id)
  {
    hide Inv, OpStep, KnownAfter, KnownId, KnownOp;
    if s.ops[a].pc.Start? { StartKnown(s, a, c); }
    else if s.ops[a].pc.SetHandle? { SetHandleKnown(s, a, c); }
    else if s.ops[a].pc.Await? { AwaitKnown(s, a, c); }
    else if s.ops[a].pc.Mark? { MarkKnown(s, a, c); }
    else { SpawnKnown(s, a, c); }
  }

  lemma UndoingKnown(s: State, a: string, c: Choice)
    requires Inv(s) && OpEnabled(s, a, c) && Undoing(s.ops[a].pc) && KnownId(s, s.ops[a].id) && KnownOp(s.vm, s.ids, s.ops[a])
    ensures KnownAfter(s, OpStep(s, a, c), a, s.ops[a].id)
  {
    hide Inv, OpStep, KnownAfter, KnownId, KnownOp;
    if s.ops[a].pc.StopNew? { StopNewKnown(s, a, c); }
    else if s.ops[a].pc.ForgetNew? { ForgetNewKnown(s, a, c); }
    else if s.ops[a].pc.FailState? { FailStateKnown(s, a, c); }
    else { FailDeleteKnown(s, a, c); }
  }

  lemma TouchedKnown(s: State, a: string, c: Choice, id: MachineId)
    requires Inv(s) && OpEnabled(s, a, c) && KnownId(s, id) && KnownOp(s.vm, s.ids, s.ops[a]) && Touches(s.ops[a], c, id)
    ensures KnownAfter(s, OpStep(s, a, c), a, id)
  {
    hide Inv, OpStep, KnownAfter, KnownId, KnownOp;
    var pc := s.ops[a].pc;
    if InsertPc(pc) { InsertKnown(s, a, c); }
    else if pc.StopNext? { StopNextKnown(s, a, c); }
    else if pc.DropNext? { DropNextKnown(s, a, c); }
    else if pc.ForgetNext? { ForgetNextKnown(s, a, c); }
    else if RelOwn(pc) { ReleaseKnown(s, a, c); }
    else if Undoing(pc) { UndoingKnown(s, a, c); }
    else { BootKnown(s, a, c); }
  }

  /** A machine the step is not about: nothing it is known by has changed. */
  lemma SparedKnown(s: State, t: State, a: string, c: Choice, id: MachineId)
    requires a in s.ops && KnownId(s, id) && Spared(s, t, id) && OwnMove(s, t, a) && !Touches(s.ops[a], c, id)
    requires id in s.ids.appOf ==> id in t.ids.appOf && t.ids.appOf[id] == s.ids.appOf[id]
    requires !s.mode.Reconciling?
    ensures KnownId(t, id)
  {
    assert Quiet(t.vm, t.ids, id) <==> Quiet(s.vm, s.ids, id);
    assert InFlight(s.ops, s.ids.appOf, s.mode, id) ==> InFlight(t.ops, t.ids.appOf, t.mode, id);
    assert Forgetting(s.ops, s.ids.appOf, id) ==> Forgetting(t.ops, t.ids.appOf, id);
  }

  /** Another app's request: its machines are none the step is about. */
  lemma OtherKnown(s: State, a: string, c: Choice, b: string)
    requires Inv(s) && OpEnabled(s, a, c) && b != a && b in s.ops && KnownOp(s.vm, s.ids, s.ops[b])
    ensures KnownOp(OpStep(s, a, c).vm, OpStep(s, a, c).ids, s.ops[b])
  {
    OpSpares(s, a, c);
    OtherUntouched(s, a, c, b);
    hide Inv, OpStep, Spares, Touches, Spared;
    var op, t := s.ops[b], OpStep(s, a, c);
    if op.pc.RelDelete? || op.pc.ForgetNew? || op.pc.FailState? || op.pc.FailDelete? { SparedQuiet(s, t, a, c, op.id); }
    if op.pc.DropNext? { SparedQuiet(s, t, a, c, op.cur); }
  }

  lemma SparedQuiet(s: State, t: State, a: string, c: Choice, id: MachineId)
    requires a in s.ops && Spares(s, t, a, c) && !Touches(s.ops[a], c, id)
    ensures Quiet(s.vm, s.ids, id) ==> Quiet(t.vm, t.ids, id)
    ensures id in t.vm.handles ==> id in s.vm.handles
  {
    OneSpared(s, t, a, c, id);
  }

  lemma OtherUntouched(s: State, a: string, c: Choice, b: string)
    requires Inv(s) && OpEnabled(s, a, c) && b != a && b in s.ops
    ensures var op := s.ops[b];
            && (op.pc.RelDelete? || op.pc.ForgetNew? || op.pc.FailState? || op.pc.FailDelete? ==> !Touches(s.ops[a], c, op.id))
            && (op.pc.DropNext? ==> !Touches(s.ops[a], c, op.cur))
  {
    var op := s.ops[b];
    OwnsWhatItKnows(s, b);
    if Touches(s.ops[a], c, op.id) { TouchesItsOwn(s, a, c, op.id); }
    if Touches(s.ops[a], c, op.cur) { TouchesItsOwn(s, a, c, op.cur); }
    hide Inv, Touches;
  }

  lemma OwnsWhatItKnows(s: State, b: string)
    requires Inv(s) && b in s.ops
    ensures var op := s.ops[b];
            && (op.pc.RelDelete? || op.pc.ForgetNew? || op.pc.FailState? || op.pc.FailDelete? ==> op.id in s.ids.appOf && s.ids.appOf[op.id] == b)
            && (op.pc.DropNext? ==> op.cur in s.ids.appOf && s.ids.appOf[op.cur] == b)
  {
    hide Inv;
    OwnMachineOk(s, b);
  }

  lemma TouchesItsOwn(s: State, a: string, c: Choice, id: MachineId)
    requires Inv(s) && OpEnabled(s, a, c) && Touches(s.ops[a], c, id)
    ensures id in s.ids.appOf ==> s.ids.appOf[id] == a
  {
    hide Inv;
    OwnMachineOk(s, a);
    FreshHere(s, a, c);
  }

  lemma FreshHere(s: State, a: string, c: Choice)
    requires Inv(s) && OpEnabled(s, a, c)
    ensures InsertPc(s.ops[a].pc) ==> c.id !in s.ids.appOf
  {
    hide Inv;
  }

  /** A process once gone or stopped stays so, and a handle goes only where the
      request forgets it. */
  ghost predicate Quieter(s: State, t: State, a: string, id: MachineId)
    requires a in s.ops
  {
    id in s.vm.procs ==>
      && id in t.vm.procs && (t.vm.procs[id].live ==> s.vm.procs[id].live) && (id in s.ids.stopped ==> id in t.ids.stopped)
      && (id in s.vm.handles ==>
            id in t.vm.handles || (s.ops[a].pc.ForgetNew? && id == s.ops[a].id) || (s.ops[a].pc.ForgetNext? && id == s.ops[a].cur))
  }

  lemma ReleaseQuieter(s: State, a: string, c: Choice)
    requires OpEnabled(s, a, c) && RelOwn(s.ops[a].pc) && (s.ops[a].pc.RelStart? ==> s.ops[a].id !in s.vm.procs)
    ensures Quieter(s, OpStep(s, a, c), a, s.ops[a].id)
  {
    hide OpOwes, Passed;
  }

  lemma BootQuieter(s: State, a: string, c: Choice)
    requires OpEnabled(s, a, c) && (BootOwn(s.ops[a].pc) || s.ops[a].pc.Spawn?) && (s.ops[a].pc.Start? ==> s.ops[a].id !in s.vm.procs)
    ensures Quieter(s, OpStep(s, a, c), a, s.ops[a].id)
  {
    hide OpOwes, SetMachineState, DeleteMachine;
  }

  lemma LoopQuieter(s: State, a: string, c: Choice)
    requires OpEnabled(s, a, c) && Looping(s.ops[a].pc)
    ensures Quieter(s, OpStep(s, a, c), a, if s.ops[a].pc.StopNext? then c.id else s.ops[a].cur)
  {
    hide OpOwes, LoopPc, DeleteMachine;
  }

  lemma InsertQuieter(s: State, a: string, c: Choice, id: MachineId)
    requires OpEnabled(s, a, c) && InsertPc(s.ops[a].pc)
    ensures Quieter(s, OpStep(s, a, c), a, id)
  {
    hide OpOwes, AllocAndInsertMachine;
  }

  lemma StartsFresh(s: State, a: string)
    requires Inv(s) && a in s.ops
    ensures s.ops[a].pc.RelStart? || s.ops[a].pc.Start? ==> s.ops[a].id !in s.vm.procs
  {
    hide Inv;
    OwnMachineOk(s, a);
  }

  lemma TouchedQuieter(s: State, a: string, c: Choice, id: MachineId)
    requires OpEnabled(s, a, c) && Touches(s.ops[a], c, id)
    requires s.ops[a].pc.RelStart? || s.ops[a].pc.Start? ==> s.ops[a].id !in s.vm.procs
    ensures Quieter(s, OpStep(s, a, c), a, id)
  {
    hide OpStep, Quieter;
    var pc := s.ops[a].pc;
    if RelOwn(pc) { ReleaseQuieter(s, a, c); }
    else if BootOwn(pc) || pc.Spawn? { BootQuieter(s, a, c); }
    else if Looping(pc) { LoopQuieter(s, a, c); }
    else { InsertQuieter(s, a, c, id); }
  }

  lemma OpQuieter(s: State, a: string, c: Choice, id: MachineId)
    requires Inv(s) && OpEnabled(s, a, c)
    ensures Quieter(s, OpStep(s, a, c), a, id)
  {
    hide Inv, OpStep, Quieter, Spared, Spares, Touches;
    StartsFresh(s, a);
    if Touches(s.ops[a], c, id) {
      TouchedQuieter(s, a, c, id);
    } else {
      OpSpares(s, a, c);
      OneSpared(s, OpStep(s, a, c), a, c, id);
      SparedQuieter(s, OpStep(s, a, c), a, c, id);
    }
  }

  lemma OneSpared(s: State, t: State, a: string, c: Choice, id: MachineId)
    requires a in s.ops && Spares(s, t, a, c) && !Touches(s.ops[a], c, id)
    ensures Spared(s, t, id)
  {
  }

  lemma SparedQuieter(s: State, t: State, a: string, c: Choice, id: MachineId)
    requires a in s.ops && Spared(s, t, id)
    ensures Quieter(s, t, a, id)
  {
  }

  lemma KeptKnown(s: State, t: State, a: string, id: MachineId)
    requires a in s.ops && Quieter(s, t, a, id) && KnownId(s, id) && KnownOp(s.vm, s.ids, s.ops[a])
    requires s.ops[a].pc.ForgetNext? ==> s.ops[a].cur !in s.db.machines
    requires id in s.vm.procs
    ensures id in t.vm.procs && (Quiet(s.vm, s.ids, id) ==> Quiet(t.vm, t.ids, id))
    ensures id in s.vm.handles ==> id in t.vm.handles || Quiet(t.vm, t.ids, id)
  {
  }

  lemma StopKnown(s: State, a: string, c: Choice)
    requires Inv(s) && OpEnabled(s, a, c) && Known(s)
    ensures var t := OpStep(s, a, c); KnownStop(t.vm, t.ids, t.h.kept, t.mode)
  {
    var t := OpStep(s, a, c);
    OpStepFrame(s, a, c);
    OpIds(s, a, c);
    OwnMachineOk(s, a);
    assert KnownOp(s.vm, s.ids, s.ops[a]);
    hide Inv, OpStep, Quieter, KnownId, KnownOp, Quiet;
    if s.mode.Stopping? {
      forall id | id in s.vm.procs
        ensures id in t.vm.procs && (Quiet(s.vm, s.ids, id) ==> Quiet(t.vm, t.ids, id))
        ensures id in s.vm.handles ==> id in t.vm.handles || Quiet(t.vm, t.ids, id)
      {
        OpQuieter(s, a, c, id);
        KeptKnown(s, t, a, id);
      }
    }
  }

  lemma EachKnown(s: State, a: string, c: Choice, id: MachineId)
    requires Inv(s) && OpEnabled(s, a, c) && KnownId(s, id) && KnownOp(s.vm, s.ids, s.ops[a])
    ensures KnownId(OpStep(s, a, c), id)
  {
    var t := OpStep(s, a, c);
    if Touches(s.ops[a], c, id) {
      TouchedKnown(s, a, c, id);
    } else {
      OpStepFrame(s, a, c);
      OpSpares(s, a, c);
      IdStays(s, a, c, id);
      hide Inv, OpStep, KnownId, KnownOp, Touches, Spared, OwnMove;
      assert Spared(s, t, id) by { OneSpared(s, t, a, c, id); }
      SparedKnown(s, t, a, c, id);
    }
  }

  lemma IdStays(s: State, a: string, c: Choice, id: MachineId)
    requires Inv(s) && OpEnabled(s, a, c)
    ensures id in s.ids.appOf ==> id in OpStep(s, a, c).ids.appOf && OpStep(s, a, c).ids.appOf[id] == s.ids.appOf[id]
    ensures !s.mode.Reconciling?
  {
    OpIds(s, a, c);
    FreshHere(s, a, c);
    hide OpStep, OpEnabled;
    InMode(s);
    hide Inv;
  }

  lemma OpKeepsKnown(s: State, a: string, c: Choice)
    requires Inv(s) && OpEnabled(s, a, c) && Known(s)
    ensures Known(OpStep(s, a, c))
  {
    var t := OpStep(s, a, c);
    StopKnown(s, a, c);
    OpStepFrame(s, a, c);
    hide Inv, OpStep, KnownId, KnownOp, KnownStop;
    assert KnownOp(s.vm, s.ids, s.ops[a]);
    forall id ensures KnownId(t, id) {
      assert KnownId(s, id);
      EachKnown(s, a, c, id);
    }
    forall b | b in t.ops ensures KnownOp(t.vm, t.ids, t.ops[b]) {
      if b != a { OtherKnown(s, a, c, b); } else { OwnKnown(s, a, c); }
    }
  }

  lemma OwnKnown(s: State, a: string, c: Choice)
    requires Inv(s) && OpEnabled(s, a, c) && Known(s) && a in OpStep(s, a, c).ops
    ensures KnownOp(OpStep(s, a, c).vm, OpStep(s, a, c).ids, OpStep(s, a, c).ops[a])
  {
    var op, t := s.ops[a], OpStep(s, a, c);
    var id := TheOne(op, c);
    assert KnownId(s, id) && KnownOp(s.vm, s.ids, op);
    hide Inv, OpStep, Known, KnownOp, KindOk, After, Touches, KnownId;
    if Touches(op, c, id) {
      TouchedKnown(s, a, c, id);
    } else {
      KindKnown(s, a);
      OpFollows(s, a, c);
      NoneTouched(op, c);
      RestKnown(op, t.ops[a], c, t.vm, t.ids);
    }
  }

  function TheOne(op: Op, c: Choice): MachineId {
    if InsertPc(op.pc) || op.pc.StopNext? then c.id else if op.pc.DropNext? || op.pc.ForgetNext? then op.cur else op.id
  }

  lemma NoneTouched(op: Op, c: Choice)
    requires !Touches(op, c, TheOne(op, c))
    ensures !RelOwn(op.pc) && !BootOwn(op.pc) && !op.pc.StopNext? && !op.pc.DropNext?
  {
  }

  lemma KindKnown(s: State, a: string)
    requires Inv(s) && a in s.ops
    ensures KindOk(s.ops[a])
  {
    hide Inv, DbOk, OwnOk, LoopOk, GoneOk;
    InOp(s, a);
  }

  // ----- everything else --------------------------------------------------------------------

  lemma WatchKnown(s: State, id: MachineId, c: Choice)
    requires Inv(s) && WatchEnabled(s, id) && Known(s)
    ensures Known(WatchStep(s, id, c))
  {
    var t := WatchStep(s, id, c);
    AnId(s, id);
    WatchRest(s, id, c);
    WatchFrame(s, id, c);
    WatchTouch(s, id, c);
    hide Inv, WatchStep, IdOk, KnownId;
    forall j ensures KnownId(t, j) {
      assert KnownId(s, j);
      if j != id {
        assert Same(s.vm.watchers, t.vm.watchers, j);
        WatchedElsewhere(s, t, id, j);
      }
    }
    forall b | b in t.ops ensures KnownOp(t.vm, t.ids, t.ops[b]) { assert KnownOp(s.vm, s.ids, s.ops[b]); }
  }

  lemma WatchedElsewhere(s: State, t: State, id: MachineId, j: MachineId)
    requires j != id && KnownId(s, j) && t.ids == s.ids && t.vm.procs == s.vm.procs && t.ops == s.ops && t.mode == s.mode
    requires (j in t.db.machines <==> j in s.db.machines) && Same(s.vm.watchers, t.vm.watchers, j)
    requires t.vm.handles == s.vm.handles || t.vm.handles == s.vm.handles - {id}
    ensures KnownId(t, j)
  {
  }

  /** A watcher past Waiting has a process that is gone. */
  lemma WatchRest(s: State, id: MachineId, c: Choice)
    requires WatchEnabled(s, id) && IdOk(s.db.machines, s.vm, s.ids, id)
    ensures var t := WatchStep(s, id, c);
            && t.ids == s.ids && t.vm.procs == s.vm.procs && t.h.kept == s.h.kept
            && (t.vm.handles == s.vm.handles || (t.vm.handles == s.vm.handles - {id} && Quiet(s.vm, s.ids, id)))
            && forall j | j != id :: j in t.db.machines <==> j in s.db.machines
  {
    match s.vm.watchers[id].pc
    case Waiting => assert WatchStep(s, id, c) == DoWake(s, id, s.vm.watchers[id]);
    case Checked => assert WatchStep(s, id, c) == DoCheckRow(s, id, s.vm.watchers[id], c);
    case Matched => assert WatchStep(s, id, c) == DoSetStopped(s, id, s.vm.watchers[id], c);
    case Unhandle => assert WatchStep(s, id, c) == DoUnhandle(s, id, s.vm.watchers[id]);
    case Remove => assert WatchStep(s, id, c) == DoRemove(s, id, s.vm.watchers[id], c);
    hide WatchStep;
  }

  lemma WatchTouch(s: State, id: MachineId, c: Choice)
    requires WatchEnabled(s, id) && IdOk(s.db.machines, s.vm, s.ids, id) && KnownId(s, id)
    ensures KnownId(WatchStep(s, id, c), id)
  {
    match s.vm.watchers[id].pc
    case Waiting => assert WatchStep(s, id, c) == DoWake(s, id, s.vm.watchers[id]);
    case Checked => assert WatchStep(s, id, c) == DoCheckRow(s, id, s.vm.watchers[id], c);
    case Matched => assert WatchStep(s, id, c) == DoSetStopped(s, id, s.vm.watchers[id], c);
    case Unhandle => assert WatchStep(s, id, c) == DoUnhandle(s, id, s.vm.watchers[id]);
    case Remove => assert WatchStep(s, id, c) == DoRemove(s, id, s.vm.watchers[id], c);
    hide WatchStep;
  }

  /** Reconcile adds and deletes no row, and starts and stores what it is at alone. */
  ghost predicate Restarts(s: State, t: State) {
    var m := s.mode;
    && m.Reconciling? && t.ids == s.ids && !t.mode.Stopping? && t.ops == s.ops && t.db.machines.Keys == s.db.machines.Keys
    && (forall id :: Same(s.vm.watchers, t.vm.watchers, id) || (id in t.vm.watchers && t.vm.watchers[id].pc.Waiting?))
    && (forall id | id != m.rcur :: Same(s.vm.procs, t.vm.procs, id) && Same(s.vm.handles, t.vm.handles, id))
    && (if m.rpc.RStart? then Same(s.vm.procs, t.vm.procs, m.rcur) || (t.mode.Reconciling? && t.mode.rpc.RHandle? && t.mode.rcur == m.rcur)
        else Same(s.vm.procs, t.vm.procs, m.rcur))
    && (if m.rpc.RHandle? then m.rcur in t.vm.handles else Same(s.vm.handles, t.vm.handles, m.rcur))
  }

  lemma ListRestarts(s: State, c: Choice)
    requires ReconcileEnabled(s, c) && (s.mode.rpc.RList? || s.mode.rpc.RNext? || s.mode.rpc.RLoad? || s.mode.rpc.RLoadStored? || s.mode.rpc.RLoadCached?)
    ensures Restarts(s, ReconcileStep(s, c))
  {
    hide RunningRows;
  }

  lemma StartRestarts(s: State, c: Choice)
    requires ReconcileEnabled(s, c) && (s.mode.rpc.RSubnet? || s.mode.rpc.RStart? || s.mode.rpc.RHandle? || s.mode.rpc.RSpawn?)
    ensures Restarts(s, ReconcileStep(s, c))
  {
    hide LeastIndexFrom;
  }

  lemma MarkRestarts(s: State, c: Choice)
    requires ReconcileEnabled(s, c) && (s.mode.rpc.RMark? || s.mode.rpc.RFail?)
    ensures Restarts(s, ReconcileStep(s, c))
  {
    SameKeys(s.db, s.mode.rcur);
    hide SetMachineState;
  }

  lemma SameKeys(db: Db, id: MachineId)
    ensures forall state, pid :: var r := SetMachineState(db, id, state, pid); r.Some? ==> r.value.machines.Keys == db.machines.Keys
  {
  }

  lemma ReconcileKnown(s: State, c: Choice)
    requires Inv(s) && ReconcileEnabled(s, c) && Known(s)
    ensures Known(ReconcileStep(s, c))
  {
    var t := ReconcileStep(s, c);
    InMode(s);
    hide ReconcileStep, Restarts;
    if s.mode.rpc.RMark? || s.mode.rpc.RFail? { MarkRestarts(s, c); }
    else if s.mode.rpc.RSubnet? || s.mode.rpc.RStart? || s.mode.rpc.RHandle? || s.mode.rpc.RSpawn? { StartRestarts(s, c); }
    else { ListRestarts(s, c); }
    hide Inv;
    RestartsKnown(s, t);
  }

  lemma RestartsKnown(s: State, t: State)
    requires Restarts(s, t) && Known(s) && s.ops == map[]
    requires s.mode.rpc.RStart? || s.mode.rpc.RHandle? ==> s.mode.rcur in s.db.machines && s.mode.rcur !in s.vm.watchers
    ensures Known(t)
  {
    forall j ensures KnownId(t, j) {
      assert KnownId(s, j);
      assert j in t.db.machines.Keys <==> j in s.db.machines.Keys;
      assert Same(s.vm.watchers, t.vm.watchers, j) || t.vm.watchers[j].pc.Waiting?;
      if j != s.mode.rcur { assert Same(s.vm.procs, t.vm.procs, j) && Same(s.vm.handles, t.vm.handles, j); }
    }
  }

  lemma TunnelKnown(s: State, t: State)
    requires Inv(s) && TunnelOnly(s, t) && Known(s)
    ensures Known(t)
  {
    hide Inv;
    forall j ensures KnownId(t, j) {
      assert KnownId(s, j);
      assert InFlight(s.ops, s.ids.appOf, s.mode, j) ==> InFlight(t.ops, t.ids.appOf, t.mode, j);
      assert Forgetting(s.ops, s.ids.appOf, j) ==> Forgetting(t.ops, t.ids.appOf, j);
    }
    forall b | b in t.ops ensures KnownOp(t.vm, t.ids, t.ops[b]) { assert KnownOp(s.vm, s.ids, s.ops[b]); }
    assert KnownStop(t.vm, t.ids, t.h.kept, t.mode);
  }

  lemma BeginKnown(s: State, a: string, kind: Kind)
    requires a !in s.ops && !s.mode.Stopping? && Known(s)
    ensures Known(Begin(s, a, kind))
  {
    var t := Begin(s, a, kind);
    BeginFrame(s, a, kind);
    assert t.vm == s.vm && t.h == s.h;
    assert KnownOp(t.vm, t.ids, t.ops[a]);
    hide Begin;
    forall j ensures KnownId(t, j) {
      assert KnownId(s, j);
      if j in s.ids.appOf { assert s.ids.appOf[j] != a ==> Same(s.ops, t.ops, s.ids.appOf[j]); }
    }
    forall b | b in t.ops ensures KnownOp(t.vm, t.ids, t.ops[b]) {
      if b != a { assert Same(s.ops, t.ops, b) && KnownOp(s.vm, s.ids, s.ops[b]); }
    }
  }

  lemma ExitKnown(s: State, id: MachineId)
    requires id in s.vm.procs && Known(s)
    ensures Known(Exit(s, id))
  {
    var t := Exit(s, id);
    forall j ensures KnownId(t, j) { assert KnownId(s, j); }
    forall b | b in t.ops ensures KnownOp(t.vm, t.ids, t.ops[b]) { assert KnownOp(s.vm, s.ids, s.ops[b]); }
  }

  /** A running row's process has its handle already. */
  lemma RunningHasHandle(s: State, id: MachineId)
    requires Inv(s) && s.mode.Serving? && KnownId(s, id) && IsRunning(s.db.machines, id)
    ensures Quiet(s.vm, s.ids, id) || id in s.vm.handles
  {
    if InFlight(s.ops, s.ids.appOf, s.mode, id) { InOp(s, s.ids.appOf[id]); }
  }

  lemma BeginStopKnown(s: State)
    requires Inv(s) && s.mode.Serving? && Known(s)
    ensures Known(BeginStop(s))
  {
    var t := BeginStop(s);
    hide Inv;
    forall j ensures KnownId(t, j) { assert KnownId(s, j); }
    forall b | b in t.ops ensures KnownOp(t.vm, t.ids, t.ops[b]) { assert KnownOp(s.vm, s.ids, s.ops[b]); }
    forall id | id in t.h.kept ensures id in t.vm.procs && (Quiet(t.vm, t.ids, id) || id in t.vm.handles) {
      assert KnownId(s, id);
      RunningHasHandle(s, id);
    }
  }

  lemma StopAllKnown(s: State, c: Choice)
    requires StopAllOk(s.vm, s.ids, s.mode) && StopAllEnabled(s, c) && Known(s)
    ensures Known(StopAllStep(s, c))
  {
    var t := StopAllStep(s, c);
    forall j ensures KnownId(t, j) { assert KnownId(s, j); }
    forall b | b in t.ops ensures KnownOp(t.vm, t.ids, t.ops[b]) { assert KnownOp(s.vm, s.ids, s.ops[b]); }
  }

  lemma RestOfKnown(s: State, e: Event)
    requires Inv(s) && Enabled(s, e) && Known(s) && (e.EBegin? || e.EAcquire? || e.EExit? || e.EBeginStop? || e.EStopAll? || e.EReboot?)
    ensures Known(Next(s, e))
  {
    if e.EBegin? { BeginKnown(s, e.app, e.kind); }
    else if e.EExit? { ExitKnown(s, e.id); }
    else if e.EBeginStop? { BeginStopKnown(s); }
    else if e.EStopAll? { StopAllKnown(s, e.c); }
    else if e.EReboot? { RebootKnown(s); }
    else { TunKnown(s, Next(s, e)); }
  }

  lemma TunKnown(s: State, t: State)
    requires Known(s) && t == s.(tun := t.tun)
    ensures Known(t)
  {
    forall j ensures KnownId(t, j) { assert KnownId(s, j); }
  }

  lemma RebootKnown(s: State)
    ensures Known(Reboot(s))
  {
  }

  lemma StepKeepsKnown(s: State, e: Event)
    requires Inv(s) && HolderOk(s) && Enabled(s, e) && Known(s)
    ensures Known(Next(s, e))
  {
    hide Inv, HolderOk, OpStep, WatchStep, TunnelStep, ReconcileStep, Known;
    match e
    case EOp(a, c) => OpKeepsKnown(s, a, c);
    case EWatch(id, c) => WatchKnown(s, id, c);
    case ETunnel(c) => HeldAtApply(s); TunnelRows(s, c); TunnelKnown(s, Next(s, e));
    case EReconcile(c) => ReconcileKnown(s, c);
    case _ => RestOfKnown(s, e);
  }

  lemma StartsOk()
    ensures Inv(INIT) && HolderOk(INIT) && Known(INIT) && Forgotten(INIT)
  {
    InitOk();
  }

  lemma {:induction false} RunKeepsKnown(s: State, es: seq<Event>)
    requires Inv(s) && HolderOk(s) && Known(s) && ValidRun(s, es)
    ensures Known(Exec(s, es))
    decreases es
  {
    hide Inv, HolderOk, Known;
    if es != [] {
      StepKeeps(s, es[0]);
      StepKeepsKnown(s, es[0]);
      RunKeepsKnown(Next(s, es[0]), es[1..]);
    }
  }

  /** In every interleaving and whatever fails: a process that has not exited and
      that nobody has asked to stop has its row, and its handle unless it was just
      started or is a release machine; and every handle has a row, but for one whose
      row the request holding it has just deleted. */
  lemma NothingIsLost(s: State, es: seq<Event>)
    requires Inv(s) && HolderOk(s) && Known(s) && ValidRun(s, es)
    ensures var t := Exec(s, es);
            && (forall id | id in t.vm.procs && t.vm.procs[id].live && id !in t.ids.stopped ::
                  id in t.db.machines && (id in t.vm.handles || InFlight(t.ops, t.ids.appOf, t.mode, id)))
            && (forall id | id in t.vm.handles :: id in t.db.machines || Forgetting(t.ops, t.ids.appOf, id))
  {
    RunKeepsKnown(s, es);
    hide Exec, Inv, HolderOk, InFlight, Forgetting, Known, ValidRun;
    LostToNobody(Exec(s, es));
  }

  lemma LostToNobody(s: State)
    requires Known(s)
    ensures forall id | id in s.vm.procs && s.vm.procs[id].live && id !in s.ids.stopped ::
              id in s.db.machines && (id in s.vm.handles || InFlight(s.ops, s.ids.appOf, s.mode, id))
    ensures forall id | id in s.vm.handles :: id in s.db.machines || Forgetting(s.ops, s.ids.appOf, id)
  {
    hide InFlight, Forgetting;
    forall id | id in s.vm.procs && s.vm.procs[id].live && id !in s.ids.stopped
      ensures id in s.db.machines && (id in s.vm.handles || InFlight(s.ops, s.ids.appOf, s.mode, id))
    {
      assert KnownId(s, id);
    }
    forall id | id in s.vm.handles ensures id in s.db.machines || Forgetting(s.ops, s.ids.appOf, id) { assert KnownId(s, id); }
  }

  // ----- StopAll ------------------------------------------------------------------------------

  /** Of those machines StopAll leaves no handle, and none gets one again. */
  ghost predicate Forgotten(s: State) {
    s.mode.Stopping? ==>
      && (forall a | a in s.ops && s.ops[a].pc.SetHandle? :: s.ops[a].id !in s.h.kept)
      && (!s.mode.spc.SCopy? ==>
            forall id | id in s.h.kept && id in s.vm.handles :: id in s.mode.stodo || (s.mode.spc.SForget? && id == s.mode.scur))
  }

  ghost predicate NoNewHandle(s: State, t: State, a: string)
    requires a in s.ops
  {
    forall id | id in t.vm.handles && id !in s.vm.handles :: s.ops[a].pc.SetHandle? && id == s.ops[a].id
  }

  lemma ReleaseHandles(s: State, a: string, c: Choice)
    requires OpEnabled(s, a, c) && RelOwn(s.ops[a].pc)
    ensures NoNewHandle(s, OpStep(s, a, c), a)
  {
    hide OpOwes, Passed, DeleteMachine;
  }

  lemma BootHandles(s: State, a: string, c: Choice)
    requires OpEnabled(s, a, c) && (BootOwn(s.ops[a].pc) || s.ops[a].pc.Spawn?)
    ensures NoNewHandle(s, OpStep(s, a, c), a)
  {
    hide OpOwes, SetMachineState, DeleteMachine;
  }

  lemma LoopHandles(s: State, a: string, c: Choice)
    requires OpEnabled(s, a, c) && Looping(s.ops[a].pc)
    ensures NoNewHandle(s, OpStep(s, a, c), a)
  {
    hide OpOwes, LoopPc, DeleteMachine;
  }

  lemma InsertHandles(s: State, a: string, c: Choice)
    requires OpEnabled(s, a, c) && InsertPc(s.ops[a].pc)
    ensures NoNewHandle(s, OpStep(s, a, c), a)
  {
    hide OpOwes, AllocAndInsertMachine;
  }

  lemma OtherHandles(s: State, t: State, a: string, c: Choice)
    requires a in s.ops && Spares(s, t, a, c) && forall id :: !Touches(s.ops[a], c, id)
    ensures NoNewHandle(s, t, a)
  {
    forall id | id in t.vm.handles ensures id in s.vm.handles { assert Spared(s, t, id); }
  }

  lemma OpHandles(s: State, a: string, c: Choice)
    requires OpEnabled(s, a, c)
    ensures NoNewHandle(s, OpStep(s, a, c), a)
  {
    OpSpares(s, a, c);
    hide OpStep, NoNewHandle, Spares;
    var pc := s.ops[a].pc;
    if RelOwn(pc) { ReleaseHandles(s, a, c); }
    else if BootOwn(pc) || pc.Spawn? { BootHandles(s, a, c); }
    else if Looping(pc) { LoopHandles(s, a, c); }
    else if InsertPc(pc) { InsertHandles(s, a, c); }
    else { OtherHandles(s, OpStep(s, a, c), a, c); }
  }

  /** A request is about to store a handle only for a process it has just started. */
  lemma HandleAfterStart(s: State, a: string, c: Choice)
    requires Inv(s) && OpEnabled(s, a, c)
    ensures var t := OpStep(s, a, c); a in t.ops && t.ops[a].pc.SetHandle? ==> t.ops[a].id !in s.vm.procs
  {
    hide Inv, OpStep, KindOk, After, SameMachine;
    KindKnown(s, a);
    StartsFresh(s, a);
    OpFollows(s, a, c);
    OpSameMachine(s, a, c);
    var t := OpStep(s, a, c);
    if a in t.ops && t.ops[a].pc.SetHandle? { OnlyFromStart(s.ops[a], t.ops[a], c); }
  }

  lemma OnlyFromStart(op: Op, op': Op, c: Choice)
    requires op'.pc.SetHandle? && op'.pc in After(op, c.ok) && SameMachine(op, op', c)
    ensures op.pc.Start? && op'.id == op.id
  {
  }

  lemma OpForgotten(s: State, a: string, c: Choice)
    requires Inv(s) && OpEnabled(s, a, c) && Known(s) && Forgotten(s)
    ensures Forgotten(OpStep(s, a, c))
  {
    OpStepFrame(s, a, c);
    OpIds(s, a, c);
    OpHandles(s, a, c);
    HandleAfterStart(s, a, c);
    hide Inv, OpStep, KnownId, KnownOp;
  }

  lemma StepForgotten(s: State, e: Event)
    requires Inv(s) && HolderOk(s) && Enabled(s, e) && Known(s) && Forgotten(s)
    ensures Forgotten(Next(s, e))
  {
    hide Inv, OpStep, WatchStep, TunnelStep, ReconcileStep, Known;
    if e.EOp? { OpForgotten(s, e.app, e.c); }
    else if e.EWatch? { WatchForgotten(s, e.id, e.c); }
    else if e.ETunnel? { HeldAtApply(s); TunnelRows(s, e.c); }
    else if e.EReconcile? { ServesAfter(s, e.c); }
    else if e.EBeginStop? { BeginForgotten(s); }
  }

  lemma WatchForgotten(s: State, id: MachineId, c: Choice)
    requires Inv(s) && WatchEnabled(s, id) && Forgotten(s)
    ensures Forgotten(WatchStep(s, id, c))
  {
    AnId(s, id);
    WatchRest(s, id, c);
    WatchFrame(s, id, c);
    hide Inv, WatchStep, IdOk;
  }

  lemma ServesAfter(s: State, c: Choice)
    requires ReconcileEnabled(s, c)
    ensures !ReconcileStep(s, c).mode.Stopping?
  {
    hide SubnetForOwner, SetMachineState, RunningRows;
  }

  lemma BeginForgotten(s: State)
    requires Inv(s) && s.mode.Serving?
    ensures Forgotten(BeginStop(s))
  {
    hide Inv, DbOk, KindOk, LoopOk, GoneOk;
    forall a | a in s.ops && s.ops[a].pc.SetHandle? ensures s.ops[a].id !in BeginStop(s).h.kept { InOp(s, a); }
  }

  lemma {:induction false} RunForgotten(s: State, es: seq<Event>)
    requires Inv(s) && HolderOk(s) && Known(s) && Forgotten(s) && ValidRun(s, es)
    ensures Forgotten(Exec(s, es))
    decreases es
  {
    hide Inv, HolderOk, Known, Forgotten;
    if es != [] {
      StepKeeps(s, es[0]);
      StepKeepsKnown(s, es[0]);
      StepForgotten(s, es[0]);
      RunForgotten(Next(s, es[0]), es[1..]);
    }
  }

  /** Once StopAll is through its handles, every machine that was alive and marked
      running when the flag went up has exited or been asked to stop, and no handle
      to it is left. */
  lemma StopAllStopsThem(s: State, es: seq<Event>)
    requires Inv(s) && HolderOk(s) && Known(s) && Forgotten(s) && ValidRun(s, es)
    requires var t := Exec(s, es); t.mode.Stopping? && t.mode.spc.SNext? && t.mode.stodo == {}
    ensures var t := Exec(s, es);
            forall id | id in t.h.kept :: id in t.vm.procs && (!t.vm.procs[id].live || id in t.ids.stopped) && id !in t.vm.handles
  {
    RunKeepsKnown(s, es);
    RunForgotten(s, es);
    hide Exec, Inv, HolderOk, KnownId, KnownOp;
  }
}
