// How a boot ends: exactly the new machine, or exactly what was there before;
// the release gate; and what reaping may and must do.

module ProtocolCutover {
  import opened Common
  import opened Tables
  import opened Protocol
  import opened ProtocolInv
  import opened ProtocolSteps
  import opened ProtocolRuns
  import opened ProtocolTheorems

  // ----- success -------------------------------------------------------------------

  /** From "machine is live" on, the request's own machine is the app's only
      running one, unless it exited by itself or the daemon is stopping. */
  lemma SuccessLeavesTheNewOne(s: State, a: string)
    requires Inv(s) && a in s.ops && !s.ops[a].kind.Destroy?
    requires s.ops[a].pc.Announce? || s.ops[a].pc.ApplyTunnel? || s.ops[a].pc.SetOwner?
    ensures RunningOf(s.db, a) <= {s.ops[a].id}
    ensures !s.mode.Stopping? && s.ops[a].id !in s.ids.crashed ==> RunningOf(s.db, a) == {s.ops[a].id}
  {
    hide Inv, DbOk, KindOk, GoneOk;
    InOp(s, a);
    assert forall m | m in RunningOf(s.db, a) :: IsRunning(s.db.machines, m);
    assert IsRunning(s.db.machines, s.ops[a].id) ==> s.ops[a].id in RunningOf(s.db, a);
  }

  // ----- failure --------------------------------------------------------------------

  /** Pcs at which a request has a row of its own that is not running yet. */
  predicate Holds(pc: Pc) { RelOwn(pc) || BootOwn(pc) }

  /** The app's rows are those of `before`, unchanged, those of the ids `left`, and
      the one of the machine in flight. */
  ghost predicate Restored(before: Rows, left: set<MachineId>, t: State, a: string) {
    && (a in t.ops ==> NoMachine(t.ops[a].pc) || Holds(t.ops[a].pc))
    && (a in t.ops && Holds(t.ops[a].pc) ==> t.ops[a].id !in before && t.ops[a].id !in left)
    && (forall id | id in before :: id in t.ids.appOf && id in t.db.machines && t.db.machines[id] == before[id])
    && (forall id | id in left ::
          id !in before && id in t.ids.appOf && id in t.db.machines && t.db.machines[id].app == a)
    && (forall id | id in t.db.machines && t.db.machines[id].app == a ::
          || id in before || id in left
          || (a in t.ops && Holds(t.ops[a].pc) && t.ops[a].id == id))
  }

  /** The steps that end or go on without deleting the request's own row: an error
      between the insert and Runtime.Start, a failed "running" update, a failed delete. */
  predicate LeavesRow(pc: Pc, c: Choice) {
    !c.ok && ((pc.Start? && c.alt) || pc.Mark? || pc.RelDelete? || pc.FailDelete?)
  }

  ghost predicate Leaves(s: State, e: Event, a: string) {
    e.EOp? && e.app == a && a in s.ops && LeavesRow(s.ops[a].pc, e.c)
  }

  ghost function LeftNow(s: State, e: Event, a: string): set<MachineId> {
    if Leaves(s, e, a) then {s.ops[a].id} else {}
  }

  /** The machines whose rows requests for `a` leave behind on the way. */
  ghost function LeftBehind(s: State, es: seq<Event>, a: string): set<MachineId>
    requires ValidRun(s, es)
    decreases es
  {
    if es == [] then {}
    else LeftNow(s, es[0], a) + LeftBehind(Next(s, es[0]), es[1..], a)
  }

  /** Events that may change the app's rows on purpose: marking the new machine
      running, destroying the app, reaping a machine of it, restarting the daemon. */
  ghost predicate Settles(s: State, e: Event, a: string) {
    || (e.EOp? && e.app == a && a in s.ops && s.ops[a].pc.Mark? && e.c.ok)
    || (e.EBegin? && e.app == a && e.kind.Destroy?)
    || (e.EWatch? && e.id in s.vm.watchers && e.id in s.ids.appOf && s.ids.appOf[e.id] == a
        && !Same(s.db.machines, WatchStep(s, e.id, e.c).db.machines, e.id))
    || e.EReconcile? || e.EReboot?
  }

  /** How a request that has not gone past its Mark moves its claim on a row. */
  ghost predicate BootMove(s: State, t: State, a: string, c: Choice)
    requires a in s.ops
  {
    var op := s.ops[a];
    && (forall id | id in s.ids.appOf :: id in t.ids.appOf)
    && (a in t.ops ==> NoMachine(t.ops[a].pc) || Holds(t.ops[a].pc))
    && (a in t.ops && Holds(t.ops[a].pc) ==>
          if InsertPc(op.pc) then t.ops[a].id == c.id else Holds(op.pc) && t.ops[a].id == op.id)
    && (Holds(op.pc) && !(a in t.ops && Holds(t.ops[a].pc)) ==>
          if LeavesRow(op.pc, c) then Same(s.db.machines, t.db.machines, op.id) else op.id !in t.db.machines)
    && (LeavesRow(op.pc, c) ==> !(a in t.ops && Holds(t.ops[a].pc)))
    && (InsertPc(op.pc) && !(a in t.ops && Holds(t.ops[a].pc)) ==> t.db.machines == s.db.machines)
  }

  lemma ConfigMove(s: State, a: string, c: Choice)
    requires OpEnabled(s, a, c) && ConfigPc(s.ops[a].pc)
    ensures BootMove(s, OpStep(s, a, c), a, c)
  {
    hide UpsertApp, InsertRelease, LatestRelease, OpOwes, Scaled, BootMove;
    var op, t := s.ops[a], OpStep(s, a, c);
    assert a in t.ops ==> NoMachine(t.ops[a].pc);
    assert t.ids == s.ids;
    hide OpStep;
    EarlyMove(s, t, a, c);
  }

  lemma SubnetMove(s: State, a: string, c: Choice)
    requires OpEnabled(s, a, c) && (s.ops[a].pc.RelSubnet? || s.ops[a].pc.Subnet?)
    ensures BootMove(s, OpStep(s, a, c), a, c)
  {
    hide SubnetForOwner, OpOwes, BootMove;
    var op, t := s.ops[a], OpStep(s, a, c);
    assert a in t.ops ==> NoMachine(t.ops[a].pc);
    assert t.ids == s.ids;
    hide OpStep;
    EarlyMove(s, t, a, c);
  }

  lemma EarlyMove(s: State, t: State, a: string, c: Choice)
    requires a in s.ops && NoMachine(s.ops[a].pc) && !InsertPc(s.ops[a].pc)
    requires (a in t.ops ==> NoMachine(t.ops[a].pc)) && t.ids == s.ids
    ensures BootMove(s, t, a, c)
  {
    NoRowPcs(s.ops[a].pc);
    if a in t.ops { NoRowPcs(t.ops[a].pc); }
    hide NoMachine, Holds, InsertPc;
  }

  lemma InsertMove(s: State, a: string, c: Choice)
    requires OpEnabled(s, a, c) && InsertPc(s.ops[a].pc)
    ensures BootMove(s, OpStep(s, a, c), a, c)
  {
    hide AllocAndInsertMachine, OpOwes;
  }

  lemma ReleaseMove(s: State, a: string, c: Choice)
    requires OpEnabled(s, a, c) && RelOwn(s.ops[a].pc)
    ensures BootMove(s, OpStep(s, a, c), a, c)
  {
    hide OpOwes;
  }

  lemma StartMove(s: State, a: string, c: Choice)
    requires OpEnabled(s, a, c) && !(s.ops[a].pc.Mark? && c.ok && s.ops[a].id in s.db.machines)
    requires s.ops[a].pc.Start? || s.ops[a].pc.SetHandle? || s.ops[a].pc.Await? || s.ops[a].pc.Mark?
    ensures BootMove(s, OpStep(s, a, c), a, c)
  {
    hide OpOwes;
  }

  lemma FailMove(s: State, a: string, c: Choice)
    requires OpEnabled(s, a, c)
    requires s.ops[a].pc.StopNew? || s.ops[a].pc.ForgetNew? || s.ops[a].pc.FailState? || s.ops[a].pc.FailDelete?
    ensures BootMove(s, OpStep(s, a, c), a, c)
  {
    hide OpOwes;
    if s.ops[a].pc.FailDelete? {
      assert c.ok ==> s.ops[a].id !in OpStep(s, a, c).db.machines;
      assert a !in OpStep(s, a, c).ops;
    }
  }

  lemma OwnBoot(s: State, a: string, c: Choice)
    requires OpEnabled(s, a, c) && (NoMachine(s.ops[a].pc) || Holds(s.ops[a].pc)) && !(s.ops[a].pc.Mark? && c.ok)
    ensures BootMove(s, OpStep(s, a, c), a, c) && RowsTouched(s, OpStep(s, a, c), a, c)
    ensures InsertPc(s.ops[a].pc) ==> c.id !in s.ids.appOf
  {
    hide OpStep, BootMove, RowsTouched;
    OpRows(s, a, c);
    if InsertPc(s.ops[a].pc) { InsertMove(s, a, c); }
    else if ConfigPc(s.ops[a].pc) { ConfigMove(s, a, c); }
    else if NoMachine(s.ops[a].pc) { SubnetMove(s, a, c); }
    else if RelOwn(s.ops[a].pc) { ReleaseMove(s, a, c); }
    else if s.ops[a].pc.Start? || s.ops[a].pc.SetHandle? || s.ops[a].pc.Await? || s.ops[a].pc.Mark? { StartMove(s, a, c); }
    else { FailMove(s, a, c); }
  }

  lemma OwnKeepsRestored(before: Rows, left: set<MachineId>, s: State, a: string, c: Choice)
    requires Inv(s) && OpEnabled(s, a, c) && Restored(before, left, s, a) && !(s.ops[a].pc.Mark? && c.ok)
    ensures Restored(before, left + if LeavesRow(s.ops[a].pc, c) then {s.ops[a].id} else {}, OpStep(s, a, c), a)
  {
    hide Inv, OpStep, RelOwn, BootOwn, NoMachine, RowPc, InsertPc, IdOk;
    var op, t := s.ops[a], OpStep(s, a, c);
    OwnBoot(s, a, c);
    NotInsertedYet(s, c.id);
    NoRowPcs(op.pc);
    LeavesWhatItHolds(op.pc, c);
    if Holds(op.pc) { OwnRow(s, a); }
    assert forall id | id in before || id in left :: Same(s.db.machines, t.db.machines, id);
    forall id | id in t.db.machines && t.db.machines[id].app == a
      ensures id in before || id in left || (LeavesRow(op.pc, c) && id == op.id) || (a in t.ops && Holds(t.ops[a].pc) && t.ops[a].id == id)
    {
      assert Same(s.db.machines, t.db.machines, id) || (id == op.id && RowPc(op.pc)) || (id == c.id && InsertPc(op.pc));
    }
  }

  lemma LeavesWhatItHolds(pc: Pc, c: Choice)
    ensures LeavesRow(pc, c) ==> Holds(pc)
  {
  }

  /** A request that holds a row has it, under its own app. */
  lemma OwnRow(s: State, a: string)
    requires Inv(s) && a in s.ops && Holds(s.ops[a].pc)
    ensures s.ops[a].id in s.ids.appOf && s.ops[a].id in s.db.machines && s.db.machines[s.ops[a].id].app == a
  {
    hide Inv, DbOk, KindOk, LoopOk, GoneOk;
    InOp(s, a);
  }

  lemma NotInsertedYet(s: State, id: MachineId)
    requires Inv(s)
    ensures id !in s.ids.appOf ==> id !in s.db.machines
  {
    hide Inv;
    AnId(s, id);
  }

  lemma NoRowPcs(pc: Pc)
    ensures NoMachine(pc) ==> !RowPc(pc) && !Holds(pc)
    ensures Holds(pc) ==> !InsertPc(pc)
    ensures NoMachine(pc) || Holds(pc) ==> !pc.DropNext? && !pc.ApplyTunnel?
  {
  }

  /** A step of some other task: it touches no row of `a` and at most starts a request. */
  ghost predicate Bystander(s: State, t: State, a: string) {
    && (forall id | id in s.ids.appOf && s.ids.appOf[id] == a :: Same(s.db.machines, t.db.machines, id))
    && (forall id | id in s.ids.appOf :: id in t.ids.appOf && t.ids.appOf[id] == s.ids.appOf[id])
    && (forall id | id in t.db.machines && id !in s.ids.appOf :: t.db.machines[id].app != a)
    && (a in s.ops && !s.ops[a].pc.ApplyTunnel? ==> a in t.ops && t.ops[a] == s.ops[a])
    && (a !in s.ops && a in t.ops ==> NoMachine(t.ops[a].pc))
    && !t.mode.Reconciling?
  }

  lemma BystanderKeepsRestored(before: Rows, left: set<MachineId>, s: State, t: State, a: string)
    requires Inv(s) && Inv(t) && Restored(before, left, s, a) && Bystander(s, t, a)
    requires forall id | id in before :: before[id].app == a
    ensures Restored(before, left, t, a)
  {
    hide Inv, NoMachine, RelOwn, BootOwn;
    if a in t.ops && a !in s.ops { NoRowPcs(t.ops[a].pc); }
    if a in s.ops { NoRowPcs(s.ops[a].pc); }
    forall id | id in before || id in left ensures id in t.db.machines && t.db.machines[id] == s.db.machines[id] {
      AnId(s, id);
      assert Same(s.db.machines, t.db.machines, id);
    }
    forall id | id in t.db.machines && t.db.machines[id].app == a
      ensures id in before || id in left || (a in t.ops && Holds(t.ops[a].pc) && t.ops[a].id == id)
    {
      AnId(t, id);
      AnId(s, id);
      assert id in s.ids.appOf ==> Same(s.db.machines, t.db.machines, id);
    }
  }

  ghost predicate IdsGrow(s: State, t: State, a: string, c: Choice)
    requires a in s.ops
  {
    && s.h.leaked <= t.h.leaked && t.h == s.h.(leaked := t.h.leaked, dirty := t.h.dirty)
    && (t.ids.appOf == s.ids.appOf || (InsertPc(s.ops[a].pc) && t.ids.appOf == s.ids.appOf[c.id := a]))
  }

  lemma IdsGrowConfig(s: State, a: string, c: Choice)
    requires OpEnabled(s, a, c) && ConfigPc(s.ops[a].pc)
    ensures IdsGrow(s, OpStep(s, a, c), a, c)
  {
    hide OpOwes, Scaled, UpsertApp, InsertRelease, LatestRelease;
  }

  lemma IdsGrowSubnet(s: State, a: string, c: Choice)
    requires OpEnabled(s, a, c) && (s.ops[a].pc.RelSubnet? || s.ops[a].pc.Subnet?)
    ensures IdsGrow(s, OpStep(s, a, c), a, c)
  {
    hide OpOwes, SubnetForOwner;
  }

  lemma IdsGrowInsert(s: State, a: string, c: Choice)
    requires OpEnabled(s, a, c) && InsertPc(s.ops[a].pc)
    ensures IdsGrow(s, OpStep(s, a, c), a, c)
  {
    hide OpOwes, AllocAndInsertMachine;
  }

  lemma IdsGrowRelease(s: State, a: string, c: Choice)
    requires OpEnabled(s, a, c) && RelOwn(s.ops[a].pc)
    ensures IdsGrow(s, OpStep(s, a, c), a, c)
  {
    hide OpOwes, DeleteMachine;
  }

  lemma IdsGrowStart(s: State, a: string, c: Choice)
    requires OpEnabled(s, a, c)
    requires s.ops[a].pc.Start? || s.ops[a].pc.SetHandle? || s.ops[a].pc.Await? || s.ops[a].pc.Mark? || s.ops[a].pc.Spawn?
    ensures IdsGrow(s, OpStep(s, a, c), a, c)
  {
    hide OpOwes, SetMachineState;
  }

  lemma IdsGrowFail(s: State, a: string, c: Choice)
    requires OpEnabled(s, a, c)
    requires s.ops[a].pc.StopNew? || s.ops[a].pc.ForgetNew? || s.ops[a].pc.FailState? || s.ops[a].pc.FailDelete?
    ensures IdsGrow(s, OpStep(s, a, c), a, c)
  {
    hide OpOwes, DeleteMachine, SetMachineState;
  }

  lemma IdsGrowList(s: State, a: string, c: Choice)
    requires OpEnabled(s, a, c) && (s.ops[a].pc.ListOld? || s.ops[a].pc.ListAll?)
    ensures IdsGrow(s, OpStep(s, a, c), a, c)
  {
    hide OpOwes, MachinesOf, LoopPc;
  }

  lemma IdsGrowLoop(s: State, a: string, c: Choice)
    requires OpEnabled(s, a, c) && Looping(s.ops[a].pc)
    ensures IdsGrow(s, OpStep(s, a, c), a, c)
  {
    hide OpOwes, DeleteMachine, LoopPc;
  }

  lemma IdsGrowTail(s: State, a: string, c: Choice)
    requires OpEnabled(s, a, c) && (s.ops[a].pc.Announce? || s.ops[a].pc.SetOwner? || s.ops[a].pc.DropCache? || s.ops[a].pc.RemoveFiles?)
    ensures IdsGrow(s, OpStep(s, a, c), a, c)
  {
    hide OpOwes, SetAppOwner;
  }

  lemma IdsGrowDrop(s: State, a: string, c: Choice)
    requires OpEnabled(s, a, c) && (s.ops[a].pc.DropReleases? || s.ops[a].pc.DropApp?)
    ensures IdsGrow(s, OpStep(s, a, c), a, c)
  {
    hide OpOwes, DeleteReleasesForApp, DeleteApp;
  }

  lemma OpIds(s: State, a: string, c: Choice)
    requires OpEnabled(s, a, c)
    ensures IdsGrow(s, OpStep(s, a, c), a, c)
  {
    hide OpStep, IdsGrow;
    var pc := s.ops[a].pc;
    if ConfigPc(pc) { IdsGrowConfig(s, a, c); }
    else if InsertPc(pc) { IdsGrowInsert(s, a, c); }
    else if NoMachine(pc) { IdsGrowSubnet(s, a, c); }
    else if RelOwn(pc) { IdsGrowRelease(s, a, c); }
    else if pc.StopNew? || pc.ForgetNew? || pc.FailState? || pc.FailDelete? { IdsGrowFail(s, a, c); }
    else if BootOwn(pc) || pc.Spawn? { IdsGrowStart(s, a, c); }
    else if Looping(pc) { IdsGrowLoop(s, a, c); }
    else if pc.ListOld? || pc.ListAll? { IdsGrowList(s, a, c); }
    else if pc.DropReleases? || pc.DropApp? { IdsGrowDrop(s, a, c); }
    else { IdsGrowTail(s, a, c); }
  }

  lemma RowsKnown(s: State)
    requires Inv(s)
    ensures forall id | id in s.db.machines :: id in s.ids.appOf && s.ids.appOf[id] == s.db.machines[id].app
  {
    hide Inv;
    forall id | id in s.db.machines ensures id in s.ids.appOf && s.ids.appOf[id] == s.db.machines[id].app { AnId(s, id); }
  }

  /** A request of another app: its rows are not `a`'s. */
  lemma OtherOpBystands(s: State, b: string, c: Choice, a: string)
    requires Inv(s) && OpEnabled(s, b, c) && Inv(OpStep(s, b, c)) && b != a
    ensures Bystander(s, OpStep(s, b, c), a)
  {
    hide Inv, OpStep, DbOk, KindOk, GoneOk;
    var op, t := s.ops[b], OpStep(s, b, c);
    InOp(s, b);
    OpRows(s, b, c);
    OpStepFrame(s, b, c);
    OpIds(s, b, c);
    RowsKnown(t);
  }

  lemma WatchBystands(s: State, id: MachineId, c: Choice, a: string)
    requires Inv(s) && WatchEnabled(s, id) && !s.mode.Reconciling?
    requires id in s.ids.appOf && s.ids.appOf[id] == a ==> Same(s.db.machines, WatchStep(s, id, c).db.machines, id)
    ensures Bystander(s, WatchStep(s, id, c), a)
  {
    hide Inv;
    var t := WatchStep(s, id, c);
    WatchFrame(s, id, c);
    WatchRows(s, id, c);
    hide WatchStep;
    RowsKnown(s);
    forall j | j in t.db.machines ensures j in s.db.machines { assert j != id ==> Same(s.db.machines, t.db.machines, j); }
  }

  lemma TunnelBystands(s: State, c: Choice, a: string)
    requires Inv(s) && TunnelEnabled(s) && AtApply(s, s.tun.who) && !s.mode.Reconciling?
    ensures Bystander(s, TunnelStep(s, c), a)
  {
    hide Inv;
    TunnelRows(s, c);
    hide TunnelStep;
    RowsKnown(s);
  }

  lemma BeginBystands(s: State, b: string, kind: Kind, a: string)
    requires Inv(s) && s.mode.Serving? && b !in s.ops && (b == a ==> !kind.Destroy?)
    ensures Bystander(s, Begin(s, b, kind), a)
  {
    hide Inv;
    BeginFrame(s, b, kind);
    BeginEarly(s, b, kind);
    hide Begin;
    RowsKnown(s);
    assert a != b ==> Same(s.ops, Begin(s, b, kind).ops, a);
  }

  lemma BeginEarly(s: State, b: string, kind: Kind)
    ensures !kind.Destroy? ==> NoMachine(Begin(s, b, kind).ops[b].pc)
  {
  }

  lemma RestBystands(s: State, e: Event, a: string)
    requires Inv(s) && Enabled(s, e) && !s.mode.Reconciling?
    requires e.EAcquire? || e.EExit? || e.EBeginStop? || e.EStopAll?
    ensures Bystander(s, Next(s, e), a)
  {
    hide Inv;
    RowsKnown(s);
  }

  lemma HeldAtApply(s: State)
    requires HolderOk(s) && s.tun.Held?
    ensures AtApply(s, s.tun.who)
  {
  }

  lemma StepKeepsRestored(before: Rows, left: set<MachineId>, s: State, e: Event, a: string)
    requires Inv(s) && HolderOk(s) && Enabled(s, e) && Restored(before, left, s, a) && !Settles(s, e, a)
    requires forall id | id in before :: before[id].app == a
    requires !s.mode.Reconciling?
    ensures Restored(before, left + LeftNow(s, e, a), Next(s, e), a)
    ensures !Next(s, e).mode.Reconciling?
  {
    StepKeeps(s, e);
    assert left + {} == left;
    hide Inv, HolderOk, OpStep, WatchStep, TunnelStep, Begin, Bystander, Restored, LeavesRow;
    match e
    case EOp(b, c) =>
      OpStepFrame(s, b, c);
      if b == a { OwnKeepsRestored(before, left, s, a, c); }
      else { OtherOpBystands(s, b, c, a); BystanderKeepsRestored(before, left, s, Next(s, e), a); }
    case EWatch(id, c) => WatchBystands(s, id, c, a); BystanderKeepsRestored(before, left, s, Next(s, e), a);
    case ETunnel(c) => HeldAtApply(s); TunnelBystands(s, c, a); BystanderKeepsRestored(before, left, s, Next(s, e), a);
    case EBegin(b, kind) => BeginBystands(s, b, kind, a); BystanderKeepsRestored(before, left, s, Next(s, e), a);
    case EReconcile(_) =>
    case EReboot =>
    case _ => RestBystands(s, e, a); BystanderKeepsRestored(before, left, s, Next(s, e), a);
  }

  /** A run in which no request for `a` is marked running keeps the app's rows,
      states and addresses, whatever else runs, and adds only those its requests
      leave behind. */
  lemma {:induction false} RunKeepsRestored(before: Rows, left: set<MachineId>, s: State, es: seq<Event>, a: string)
    requires Inv(s) && HolderOk(s) && !s.mode.Reconciling? && ValidRun(s, es) && Restored(before, left, s, a)
    requires forall id | id in before :: before[id].app == a
    requires forall k | 0 <= k < |es| :: ValidRun(s, es[..k]) && !Settles(Exec(s, es[..k]), es[k], a)
    ensures Restored(before, left + LeftBehind(s, es, a), Exec(s, es), a)
    decreases es
  {
    hide Inv, HolderOk, Settles, Restored, LeftNow;
    if es == [] {
      assert left + {} == left;
    } else {
      assert es[..0] == [];
      assert Exec(s, es[..0]) == s;
      StepKeeps(s, es[0]);
      StepKeepsRestored(before, left, s, es[0], a);
      var t, rest := Next(s, es[0]), es[1..];
      var now := LeftNow(s, es[0], a);
      forall k | 0 <= k < |rest|
        ensures ValidRun(t, rest[..k]) && !Settles(Exec(t, rest[..k]), rest[k], a)
      {
        assert es[..k + 1][1..] == rest[..k] && es[..k + 1][0] == es[0];
        assert ValidRun(s, es[..k + 1]) && !Settles(Exec(s, es[..k + 1]), es[k + 1], a);
      }
      RunKeepsRestored(before, left + now, t, rest, a);
      assert left + now + LeftBehind(t, rest, a) == left + LeftBehind(s, es, a);
      assert Exec(s, es) == Exec(t, rest);
    }
  }

  lemma {:induction false} NoneLeft(s: State, es: seq<Event>, a: string)
    requires ValidRun(s, es) && forall k | 0 <= k < |es| :: ValidRun(s, es[..k])
    ensures LeftBehind(s, es, a) == {} <==> forall k | 0 <= k < |es| :: !Leaves(Exec(s, es[..k]), es[k], a)
    decreases es
  {
    hide Leaves;
    if es != [] {
      assert es[..0] == [];
      var t, rest := Next(s, es[0]), es[1..];
      forall k | 0 <= k < |rest|
        ensures ValidRun(t, rest[..k]) && Exec(t, rest[..k]) == Exec(s, es[..k + 1]) && rest[k] == es[k + 1]
      {
        assert es[..k + 1][1..] == rest[..k] && es[..k + 1][0] == es[0] && ValidRun(s, es[..k + 1]);
      }
      NoneLeft(t, rest, a);
      if LeftBehind(s, es, a) == {} {
        forall k | 0 <= k < |es| ensures !Leaves(Exec(s, es[..k]), es[k], a) {
          if k > 0 { assert !Leaves(Exec(t, rest[..k - 1]), rest[k - 1], a); }
        }
      }
    }
  }

  /** A run of requests for `a` none of which reached "running" ends with exactly
      the rows, states and addresses the app began with, if and only if none of
      their steps was an error between the insert and Runtime.Start, a failed
      "running" update or a failed delete. Start failures, failed health checks
      and failed release commands are none of these. */
  lemma FailureRestores(s: State, es: seq<Event>, a: string)
    requires Inv(s) && HolderOk(s) && !s.mode.Reconciling? && ValidRun(s, es) && a !in s.ops
    requires forall k | 0 <= k < |es| :: ValidRun(s, es[..k]) && !Settles(Exec(s, es[..k]), es[k], a)
    requires a !in Exec(s, es).ops
    ensures RowsOf(Exec(s, es).db, a) == RowsOf(s.db, a)
            <==> forall k | 0 <= k < |es| :: !Leaves(Exec(s, es[..k]), es[k], a)
    ensures RowsOf(Exec(s, es).db, a).Keys == RowsOf(s.db, a).Keys + LeftBehind(s, es, a)
  {
    NoneLeft(s, es, a);
    hide Inv, HolderOk, Settles, ValidRun, Exec, Leaves, LeftBehind, RowsOf;
    RowsAtTheEnd(s, es, a);
  }

  lemma RowsAtTheEnd(s: State, es: seq<Event>, a: string)
    requires Inv(s) && HolderOk(s) && !s.mode.Reconciling? && ValidRun(s, es) && a !in s.ops
    requires forall k | 0 <= k < |es| :: ValidRun(s, es[..k]) && !Settles(Exec(s, es[..k]), es[k], a)
    requires a !in Exec(s, es).ops
    ensures RowsOf(Exec(s, es).db, a).Keys == RowsOf(s.db, a).Keys + LeftBehind(s, es, a)
    ensures RowsOf(Exec(s, es).db, a) == RowsOf(s.db, a) <==> LeftBehind(s, es, a) == {}
  {
    hide Inv, HolderOk, Settles, ValidRun, Exec, LeftBehind;
    var before := RowsOf(s.db, a);
    RowsKnown(s);
    RunKeepsRestored(before, {}, s, es, a);
    assert {} + LeftBehind(s, es, a) == LeftBehind(s, es, a);
    RestoredRows(before, LeftBehind(s, es, a), Exec(s, es), a);
  }

  lemma RestoredRows(before: Rows, left: set<MachineId>, t: State, a: string)
    requires Restored(before, left, t, a) && a !in t.ops && forall id | id in before :: before[id].app == a
    ensures RowsOf(t.db, a).Keys == before.Keys + left
    ensures RowsOf(t.db, a) == before <==> left == {}
  {
    if id :| id in left { assert id in RowsOf(t.db, a) && id !in before; }
  }

  /** An error between the insert and Runtime.Start is not cleaned up after: the
      'starting' row, and its address, stay. */
  lemma ErrorBeforeStartLeavesTheRow(s: State, a: string, c: Choice)
    requires Inv(s) && OpEnabled(s, a, c) && s.ops[a].pc.Start? && !c.ok && c.alt
    ensures var t := OpStep(s, a, c);
            && a !in t.ops && s.ops[a].id in t.h.leaked
            && s.ops[a].id in t.db.machines && t.db.machines[s.ops[a].id].state == Starting
  {
    hide Inv, DbOk, LoopOk, GoneOk;
    InOp(s, a);
  }
}
