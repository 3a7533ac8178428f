// After a failure: the ingress file is repaired by the next re-render that goes
// through.

module ProtocolRecover {
  import opened Common
  import opened Tables
  import opened Tunnel
  import opened Protocol
  import opened ProtocolInv
  import opened ProtocolSteps
  import opened ProtocolRuns
  import opened ProtocolTheorems
  import opened ProtocolCutover
  import opened ProtocolCache
  import opened ProtocolConverge

  /** The same state with no failure on record. */
  ghost function Cleared(s: State): State {
    s.(h := s.h.(dirty := false))
  }

  /** No step looks at the record. */
  ghost predicate Blind(t: State, u: State) {
    Cleared(t) == Cleared(u)
  }

  lemma LoadBlind(s: State, a: string, op: Op, c: Choice)
    requires a in s.ops
    ensures Blind(DoLoad(Cleared(s), a, op), DoLoad(s, a, op))
    ensures Blind(DoLoadStored(Cleared(s), a, op, c), DoLoadStored(s, a, op, c))
    ensures Blind(DoLoadCached(Cleared(s), a, op), DoLoadCached(s, a, op))
    ensures Blind(DoUpsert(Cleared(s), a, op, c), DoUpsert(s, a, op, c))
    ensures Blind(DoCacheCfg(Cleared(s), a, op), DoCacheCfg(s, a, op))
  {
    hide OpOwes, Loaded, UpsertApp;
  }

  lemma BuildBlind(s: State, a: string, op: Op, c: Choice)
    requires a in s.ops
    ensures Blind(DoBuild(Cleared(s), a, op, c), DoBuild(s, a, op, c))
    ensures Blind(DoAddRelease(Cleared(s), a, op, c), DoAddRelease(s, a, op, c))
    ensures Blind(DoFindRelease(Cleared(s), a, op, c), DoFindRelease(s, a, op, c))
  {
    hide OpOwes, InsertRelease, LatestRelease;
  }

  lemma RowBlind(s: State, a: string, op: Op, c: Choice, next: Pc)
    requires a in s.ops
    ensures Blind(AllocSubnet(Cleared(s), a, op, c, next), AllocSubnet(s, a, op, c, next))
    ensures Blind(InsertRow(Cleared(s), a, op, c, next), InsertRow(s, a, op, c, next))
  {
    hide OpOwes, SubnetForOwner, AllocAndInsertMachine;
  }

  lemma ReleaseBlind(s: State, a: string, op: Op, c: Choice)
    requires a in s.ops
    ensures Blind(DoRelStart(Cleared(s), a, op, c), DoRelStart(s, a, op, c))
    ensures Blind(DoRelWait(Cleared(s), a, op, c), DoRelWait(s, a, op, c))
    ensures Blind(DoRelStop(Cleared(s), a, op, c), DoRelStop(s, a, op, c))
    ensures Blind(DoRelDelete(Cleared(s), a, op, c), DoRelDelete(s, a, op, c))
  {
    hide OpOwes, DeleteMachine, Passed;
  }

  lemma StartBlind(s: State, a: string, op: Op, c: Choice)
    requires a in s.ops
    ensures Blind(DoStart(Cleared(s), a, op, c), DoStart(s, a, op, c))
    ensures Blind(DoAwait(Cleared(s), a, op, c), DoAwait(s, a, op, c))
  {
    hide OpOwes;
  }

  lemma LiveBlind(s: State, a: string, op: Op, c: Choice)
    requires a in s.ops && op.id in s.vm.procs
    ensures Blind(DoSetHandle(Cleared(s), a, op), DoSetHandle(s, a, op))
    ensures Blind(DoMark(Cleared(s), a, op, c), DoMark(s, a, op, c))
    ensures Blind(DoSpawn(Cleared(s), a, op), DoSpawn(s, a, op))
  {
    hide OpOwes, SetMachineState;
  }

  lemma FailBlind(s: State, a: string, op: Op, c: Choice)
    requires a in s.ops
    ensures Blind(DoStopNew(Cleared(s), a, op, c), DoStopNew(s, a, op, c))
    ensures Blind(DoForgetNew(Cleared(s), a, op), DoForgetNew(s, a, op))
    ensures Blind(DoFailState(Cleared(s), a, op, c), DoFailState(s, a, op, c))
    ensures Blind(DoFailDelete(Cleared(s), a, op, c), DoFailDelete(s, a, op, c))
  {
    hide OpOwes, SetMachineState, DeleteMachine;
  }

  lemma LoopBlind(s: State, a: string, op: Op, c: Choice)
    requires a in s.ops
    ensures Blind(DoListOld(Cleared(s), a, op, c), DoListOld(s, a, op, c))
    ensures Blind(DoListAll(Cleared(s), a, op, c), DoListAll(s, a, op, c))
    ensures Blind(DoStopNext(Cleared(s), a, op, c), DoStopNext(s, a, op, c))
    ensures Blind(DoDropNext(Cleared(s), a, op, c), DoDropNext(s, a, op, c))
    ensures Blind(DoForgetNext(Cleared(s), a, op), DoForgetNext(s, a, op))
  {
    hide OpOwes, LoopPc, DeleteMachine;
  }

  lemma TailBlind(s: State, a: string, op: Op, c: Choice)
    requires a in s.ops
    ensures Blind(DoSetOwner(Cleared(s), a, op, c), DoSetOwner(s, a, op, c))
    ensures Blind(DoDropReleases(Cleared(s), a, op, c), DoDropReleases(s, a, op, c))
    ensures Blind(DoDropApp(Cleared(s), a, op, c), DoDropApp(s, a, op, c))
    ensures Blind(DoDropCache(Cleared(s), a, op), DoDropCache(s, a, op))
    ensures Blind(DoRemoveFiles(Cleared(s), a, op, c), DoRemoveFiles(s, a, op, c))
    ensures Blind(WithOp(Cleared(s), a, op), WithOp(s, a, op))
  {
    hide OpOwes, SetAppOwner, DeleteReleasesForApp, DeleteApp;
  }

  /** What a request's step is at each pc. */
  lemma OpStepIs(s: State, a: string, c: Choice)
    requires OpEnabled(s, a, c)
    ensures a in s.ops && !s.ops[a].pc.ApplyTunnel?
    ensures var op := s.ops[a];
            && (op.pc.Load? ==> OpStep(s, a, c) == DoLoad(s, a, op))
            && (op.pc.LoadStored? ==> OpStep(s, a, c) == DoLoadStored(s, a, op, c))
            && (op.pc.LoadCached? ==> OpStep(s, a, c) == DoLoadCached(s, a, op))
            && (op.pc.Upsert? ==> OpStep(s, a, c) == DoUpsert(s, a, op, c))
            && (op.pc.CacheCfg? ==> OpStep(s, a, c) == DoCacheCfg(s, a, op))
            && (op.pc.Build? ==> OpStep(s, a, c) == DoBuild(s, a, op, c))
            && (op.pc.AddRelease? ==> OpStep(s, a, c) == DoAddRelease(s, a, op, c))
            && (op.pc.FindRelease? ==> OpStep(s, a, c) == DoFindRelease(s, a, op, c))
            && (op.pc.RelSubnet? ==> OpStep(s, a, c) == AllocSubnet(s, a, op, c, RelInsert))
            && (op.pc.RelInsert? ==> OpStep(s, a, c) == InsertRow(s, a, op, c, RelStart))
            && (op.pc.Subnet? ==> OpStep(s, a, c) == AllocSubnet(s, a, op, c, Insert))
            && (op.pc.Insert? ==> OpStep(s, a, c) == InsertRow(s, a, op, c, Start))
            && (op.pc.RelStart? ==> OpStep(s, a, c) == DoRelStart(s, a, op, c))
            && (op.pc.RelWait? ==> OpStep(s, a, c) == DoRelWait(s, a, op, c))
            && (op.pc.RelStop? ==> OpStep(s, a, c) == DoRelStop(s, a, op, c))
            && (op.pc.RelDelete? ==> OpStep(s, a, c) == DoRelDelete(s, a, op, c))
            && (op.pc.Start? ==> OpStep(s, a, c) == DoStart(s, a, op, c))
            && (op.pc.Await? ==> OpStep(s, a, c) == DoAwait(s, a, op, c))
            && (op.pc.SetHandle? ==> op.id in s.vm.procs && OpStep(s, a, c) == DoSetHandle(s, a, op))
            && (op.pc.Mark? ==> op.id in s.vm.procs && OpStep(s, a, c) == DoMark(s, a, op, c))
            && (op.pc.Spawn? ==> op.id in s.vm.procs && OpStep(s, a, c) == DoSpawn(s, a, op))
            && (op.pc.StopNew? ==> OpStep(s, a, c) == DoStopNew(s, a, op, c))
            && (op.pc.ForgetNew? ==> OpStep(s, a, c) == DoForgetNew(s, a, op))
            && (op.pc.FailState? ==> OpStep(s, a, c) == DoFailState(s, a, op, c))
            && (op.pc.FailDelete? ==> OpStep(s, a, c) == DoFailDelete(s, a, op, c))
            && (op.pc.ListOld? ==> OpStep(s, a, c) == DoListOld(s, a, op, c))
            && (op.pc.ListAll? ==> OpStep(s, a, c) == DoListAll(s, a, op, c))
            && (op.pc.StopNext? ==> OpStep(s, a, c) == DoStopNext(s, a, op, c))
            && (op.pc.DropNext? ==> OpStep(s, a, c) == DoDropNext(s, a, op, c))
            && (op.pc.ForgetNext? ==> OpStep(s, a, c) == DoForgetNext(s, a, op))
            && (op.pc.Announce? ==> OpStep(s, a, c) == WithOp(s, a, op.(pc := ApplyTunnel)))
            && (op.pc.SetOwner? ==> OpStep(s, a, c) == DoSetOwner(s, a, op, c))
            && (op.pc.DropReleases? ==> OpStep(s, a, c) == DoDropReleases(s, a, op, c))
            && (op.pc.DropApp? ==> OpStep(s, a, c) == DoDropApp(s, a, op, c))
            && (op.pc.DropCache? ==> OpStep(s, a, c) == DoDropCache(s, a, op))
            && (op.pc.RemoveFiles? ==> OpStep(s, a, c) == DoRemoveFiles(s, a, op, c))
  {
    hide DoLoad, DoLoadStored, DoLoadCached, DoUpsert, DoCacheCfg, DoBuild, DoAddRelease, DoFindRelease, AllocSubnet, InsertRow,
         DoRelStart, DoRelWait, DoRelStop, DoRelDelete, DoStart, DoSetHandle, DoAwait, DoMark, DoSpawn, DoStopNew, DoForgetNew,
         DoFailState, DoFailDelete, DoListOld, DoListAll, DoStopNext, DoDropNext, DoForgetNext, DoSetOwner, DoDropReleases,
         DoDropApp, DoDropCache, DoRemoveFiles, WithOp;
  }

  lemma SameOp(s: State, a: string, c: Choice)
    ensures OpEnabled(Cleared(s), a, c) <==> OpEnabled(s, a, c)
    ensures Cleared(s).ops == s.ops && Cleared(s).vm == s.vm
  {
  }

  lemma ConfigBlind(s: State, a: string, c: Choice)
    requires OpEnabled(s, a, c) && ConfigPc(s.ops[a].pc)
    ensures Blind(OpStep(Cleared(s), a, c), OpStep(s, a, c))
  {
    SameOp(s, a, c);
    OpStepIs(s, a, c);
    OpStepIs(Cleared(s), a, c);
    var op := s.ops[a];
    assert ConfigPc(op.pc);
    hide *;
    if op.pc.Build? || op.pc.AddRelease? || op.pc.FindRelease? { BuildBlind(s, a, op, c); }
    else { LoadBlind(s, a, op, c); }
  }

  lemma EarlyBlind(s: State, a: string, c: Choice)
    requires OpEnabled(s, a, c) && !ConfigPc(s.ops[a].pc) && (NoMachine(s.ops[a].pc) || RelOwn(s.ops[a].pc))
    ensures Blind(OpStep(Cleared(s), a, c), OpStep(s, a, c))
  {
    SameOp(s, a, c);
    OpStepIs(s, a, c);
    OpStepIs(Cleared(s), a, c);
    var op := s.ops[a];
    assert NoMachine(op.pc) || RelOwn(op.pc);
    hide *;
    if op.pc.RelSubnet? { RowBlind(s, a, op, c, RelInsert); }
    else if op.pc.RelInsert? { RowBlind(s, a, op, c, RelStart); }
    else if op.pc.Subnet? { RowBlind(s, a, op, c, Insert); }
    else if op.pc.Insert? { RowBlind(s, a, op, c, Start); }
    else { ReleaseBlind(s, a, op, c); }
  }

  lemma BootBlind(s: State, a: string, c: Choice)
    requires OpEnabled(s, a, c) && (BootOwn(s.ops[a].pc) || s.ops[a].pc.Spawn?)
    ensures Blind(OpStep(Cleared(s), a, c), OpStep(s, a, c))
  {
    SameOp(s, a, c);
    OpStepIs(s, a, c);
    OpStepIs(Cleared(s), a, c);
    var op := s.ops[a];
    hide *;
    if op.pc.Start? || op.pc.Await? { StartBlind(s, a, op, c); }
    else if op.pc.SetHandle? || op.pc.Mark? || op.pc.Spawn? { LiveBlind(s, a, op, c); }
    else { FailBlind(s, a, op, c); }
  }

  lemma LateBlind(s: State, a: string, c: Choice)
    requires OpEnabled(s, a, c) && !NoMachine(s.ops[a].pc) && !Holds(s.ops[a].pc) && !s.ops[a].pc.Spawn?
    ensures Blind(OpStep(Cleared(s), a, c), OpStep(s, a, c))
  {
    SameOp(s, a, c);
    OpStepIs(s, a, c);
    OpStepIs(Cleared(s), a, c);
    var op := s.ops[a];
    hide *;
    if op.pc.Announce? { TailBlind(s, a, op.(pc := ApplyTunnel), c); }
    else if op.pc.SetOwner? || op.pc.DropReleases? || op.pc.DropApp? || op.pc.DropCache? || op.pc.RemoveFiles? { TailBlind(s, a, op, c); }
    else { LoopBlind(s, a, op, c); }
  }

  lemma OpBlind(s: State, a: string, c: Choice)
    requires OpEnabled(s, a, c)
    ensures OpEnabled(Cleared(s), a, c) && Blind(OpStep(Cleared(s), a, c), OpStep(s, a, c))
  {
    SameOp(s, a, c);
    hide OpStep, Blind, Cleared;
    var pc := s.ops[a].pc;
    if ConfigPc(pc) { ConfigBlind(s, a, c); }
    else if NoMachine(pc) || RelOwn(pc) { EarlyBlind(s, a, c); }
    else if BootOwn(pc) || pc.Spawn? { BootBlind(s, a, c); }
    else { LateBlind(s, a, c); }
  }

  lemma LookBlind(s: State, id: MachineId, c: Choice)
    requires WatchEnabled(s, id) && (s.vm.watchers[id].pc.Waiting? || s.vm.watchers[id].pc.Checked?)
    ensures WatchEnabled(Cleared(s), id) && Blind(WatchStep(Cleared(s), id, c), WatchStep(s, id, c))
  {
  }

  lemma StoppedBlind(s: State, id: MachineId, c: Choice)
    requires WatchEnabled(s, id) && s.vm.watchers[id].pc.Matched?
    ensures WatchEnabled(Cleared(s), id) && Blind(WatchStep(Cleared(s), id, c), WatchStep(s, id, c))
  {
    hide SetMachineState;
  }

  lemma ReapBlind(s: State, id: MachineId, c: Choice)
    requires WatchEnabled(s, id) && (s.vm.watchers[id].pc.Unhandle? || s.vm.watchers[id].pc.Remove?)
    ensures WatchEnabled(Cleared(s), id) && Blind(WatchStep(Cleared(s), id, c), WatchStep(s, id, c))
  {
    hide DeleteMachine;
  }

  lemma WatchBlind(s: State, id: MachineId, c: Choice)
    requires WatchEnabled(s, id)
    ensures WatchEnabled(Cleared(s), id) && Blind(WatchStep(Cleared(s), id, c), WatchStep(s, id, c))
  {
    hide WatchStep, Blind, Cleared;
    var pc := s.vm.watchers[id].pc;
    if pc.Waiting? || pc.Checked? { LookBlind(s, id, c); }
    else if pc.Matched? { StoppedBlind(s, id, c); }
    else { ReapBlind(s, id, c); }
  }

  lemma ReconcileBlind(s: State, c: Choice)
    requires ReconcileEnabled(s, c)
    ensures ReconcileEnabled(Cleared(s), c) && Blind(ReconcileStep(Cleared(s), c), ReconcileStep(s, c))
  {
    hide ReconcileStep, Blind, Cleared;
    var rpc := s.mode.rpc;
    if rpc.RMark? || rpc.RFail? { MarkBlind(s, c); }
    else if rpc.RStart? || rpc.RHandle? || rpc.RSpawn? { StartedBlind(s, c); }
    else if rpc.RList? || rpc.RNext? { TurnBlind(s, c); }
    else if rpc.RSubnet? { SubnetBlind(s, c); }
    else { ConfiguredBlind(s, c); }
  }

  lemma StartedBlind(s: State, c: Choice)
    requires ReconcileEnabled(s, c) && (s.mode.rpc.RStart? || s.mode.rpc.RHandle? || s.mode.rpc.RSpawn?)
    ensures ReconcileEnabled(Cleared(s), c) && Blind(ReconcileStep(Cleared(s), c), ReconcileStep(s, c))
  {
  }

  lemma MarkBlind(s: State, c: Choice)
    requires ReconcileEnabled(s, c) && (s.mode.rpc.RMark? || s.mode.rpc.RFail?)
    ensures ReconcileEnabled(Cleared(s), c) && Blind(ReconcileStep(Cleared(s), c), ReconcileStep(s, c))
  {
    hide SetMachineState;
  }

  lemma TurnBlind(s: State, c: Choice)
    requires ReconcileEnabled(s, c) && (s.mode.rpc.RList? || s.mode.rpc.RNext?)
    ensures ReconcileEnabled(Cleared(s), c) && Blind(ReconcileStep(Cleared(s), c), ReconcileStep(s, c))
  {
    hide RunningRows;
  }

  lemma SubnetBlind(s: State, c: Choice)
    requires ReconcileEnabled(s, c) && s.mode.rpc.RSubnet?
    ensures ReconcileEnabled(Cleared(s), c) && Blind(ReconcileStep(Cleared(s), c), ReconcileStep(s, c))
  {
    hide SubnetForOwner;
  }

  lemma ConfiguredBlind(s: State, c: Choice)
    requires ReconcileEnabled(s, c) && (s.mode.rpc.RLoad? || s.mode.rpc.RLoadStored? || s.mode.rpc.RLoadCached?)
    ensures ReconcileEnabled(Cleared(s), c) && Blind(ReconcileStep(Cleared(s), c), ReconcileStep(s, c))
  {
  }

  lemma FinishBlind(m: State, n: State, who: Who, ok: bool)
    requires Blind(m, n)
    ensures Blind(Finish(m, who, ok), Finish(n, who, ok))
  {
  }

  lemma TunnelBlind(s: State, c: Choice)
    requires TunnelEnabled(s)
    ensures TunnelEnabled(Cleared(s)) && Blind(TunnelStep(Cleared(s), c), TunnelStep(s, c))
  {
    hide RunningList, LiveOf, Finish;
    var u, who := Cleared(s), s.tun.who;
    match s.tun.phase
    case Locked => GiveUpBlind(s, who, true);
    case Reading(rows, cfgs) =>
      GiveUpBlind(s, who, true);
      FinishBlind(u.(tun := Free, file := Ingress(rows, cfgs)), s.(tun := Free, file := Ingress(rows, cfgs)), who, true);
    case Missed(rows, cfgs) => GiveUpBlind(s, who, !c.ok);
    case Fetched(rows, cfgs, raw) =>
  }

  lemma GiveUpBlind(s: State, who: Who, fault: bool)
    ensures Blind(GiveUp(Cleared(s), who, fault), GiveUp(s, who, fault))
  {
    hide Finish;
    FinishBlind(Cleared(s).(tun := Free, h := Cleared(s).h.(dirty := fault)), s.(tun := Free, h := s.h.(dirty := s.h.dirty || fault)), who, false);
  }

  lemma RestBlind(s: State, e: Event)
    requires Enabled(s, e) && !e.EOp? && !e.EWatch? && !e.EReconcile? && !e.ETunnel?
    ensures Enabled(Cleared(s), e) && Blind(Next(Cleared(s), e), Next(s, e))
  {
  }

  lemma StepBlind(s: State, e: Event)
    requires Enabled(s, e)
    ensures Enabled(Cleared(s), e) && Blind(Next(Cleared(s), e), Next(s, e))
  {
    hide OpStep, WatchStep, ReconcileStep, TunnelStep, Blind, Cleared, OpEnabled, WatchEnabled, ReconcileEnabled, TunnelEnabled;
    match e
    case EOp(a, c) => OpBlind(s, a, c);
    case EWatch(id, c) => WatchBlind(s, id, c);
    case EReconcile(c) => ReconcileBlind(s, c);
    case ETunnel(c) => TunnelBlind(s, c);
    case _ => RestBlind(s, e);
  }

  lemma BlindEnabled(t: State, u: State, e: Event)
    requires Blind(t, u) && Enabled(t, e)
    ensures Enabled(u, e) && Blind(Next(t, e), Next(u, e))
  {
    StepBlind(t, e);
    hide Enabled, Next;
    SameRecord(t, u);
    StepFromCleared(u, e);
  }

  lemma SameRecord(t: State, u: State)
    requires Blind(t, u)
    ensures Cleared(t) == Cleared(u) && Cleared(Cleared(t)) == Cleared(t)
  {
  }

  /** And the other way round: what the cleared state can do, the state can. */
  lemma StepFromCleared(u: State, e: Event)
    requires Enabled(Cleared(u), e)
    ensures Enabled(u, e) && Blind(Next(Cleared(u), e), Next(u, e))
  {
    assert Enabled(u, e) by { SameGuards(u, e); }
    StepBlind(u, e);
  }

  lemma SameGuards(u: State, e: Event)
    ensures Enabled(Cleared(u), e) ==> Enabled(u, e)
  {
  }

  lemma {:induction false} RunBlind(t: State, u: State, es: seq<Event>)
    requires Blind(t, u) && ValidRun(t, es)
    ensures ValidRun(u, es) && Blind(Exec(t, es), Exec(u, es))
    decreases es
  {
    hide Blind, Enabled, Next;
    if es != [] {
      BlindEnabled(t, u, es[0]);
      RunBlind(Next(t, es[0]), Next(u, es[0]), es[1..]);
    }
  }

  /** The cache says what the store says, for every app with running machines. */
  ghost predicate CacheTrue(s: State) {
    && Coherent(s)
    && RunningCached(s.db.machines, s.db.apps, s.cache, s.mode)
    && ListedCached(s.tun, s.db.apps, s.cache, s.ops, s.mode)
  }

  /** A task is going to re-render from the rows as they then are. */
  ghost predicate WillRender(s: State) {
    OwesBut(s, None) && (s.tun.Free? || s.tun.phase.Locked?)
  }

  /** Whatever failed before: from a state whose cache is right and in which some
      task is still to re-render, a run in which nothing fails again ends, once no
      task owes a re-render, with the file rendered from the rows running then. */
  lemma TunnelRecovers(s: State, es: seq<Event>)
    requires Inv(s) && HolderOk(s) && CacheTrue(s) && WillRender(s)
    requires ValidRun(s, es) && Quiescent(Exec(s, es))
    requires ValidRun(Cleared(s), es) ==> !Exec(Cleared(s), es).h.dirty
    ensures FileCurrent(Exec(s, es))
  {
    var u := Cleared(s);
    DirtyKeeps(s, false);
    assert HolderOk(u) && CacheOk(u) && ConvergeOk(u);
    assert Blind(s, u);
    hide Inv, HolderOk, CacheOk, ConvergeOk, CacheTrue, WillRender, Blind;
    RunBlind(s, u, es);
    RunKeepsConverge(u, es);
    hide ValidRun, Exec;
    SettledFile(Exec(u, es), Exec(s, es));
  }

  lemma SettledFile(t: State, u: State)
    requires ConvergeOk(t) && !t.h.dirty && Blind(u, t) && Quiescent(u)
    ensures FileCurrent(u)
  {
    hide OpOwes;
  }

  lemma BlindCache(t: State, u: State)
    requires Blind(t, u) && CacheOk(t) && !t.h.dirty
    ensures CacheTrue(u)
  {
    hide RunningCached, ListedCached, CacheApp;
  }

  // ----- which failures leave the cache right -------------------------------------------------

  /** Not: a Destroy that fails to remove files, Reconcile failing to list the
      running rows or to mark one failed. */
  ghost predicate CacheSafe(s: State, e: Event) {
    && (e.EOp? && !e.c.ok && e.app in s.ops ==> !s.ops[e.app].pc.RemoveFiles?)
    && (e.EReconcile? && !e.c.ok && s.mode.Reconciling? ==> !s.mode.rpc.RList? && !s.mode.rpc.RFail?)
  }

  lemma RemovedIsDropped(s: State, a: string, c: Choice)
    requires OpEnabled(s, a, c) && CacheSafe(s, EOp(a, c)) && Dropped(s.ops, a)
    ensures Dropped(OpStep(s, a, c).ops, a)
  {
    assert s.ops[a].pc.RemoveFiles?;
  }

  lemma OpKeepsCacheTrue(s: State, a: string, c: Choice)
    requires Inv(s) && OpEnabled(s, a, c) && Inv(OpStep(s, a, c)) && CacheTrue(s) && CacheSafe(s, EOp(a, c))
    ensures CacheTrue(OpStep(s, a, c))
  {
    if Dropped(s.ops, a) { RemovedIsDropped(s, a, c); }
    hide Inv, OpStep, CacheMove, CacheApp, OwnOk, LoopOk, KindOk, DbOk, RunningCached, ListedCached, Dropped, CacheSafe;
    var t := OpStep(s, a, c);
    assert a in s.ops && !s.mode.Reconciling? by { InOp(s, a); }
    OpStepFrame(s, a, c);
    assert CacheApp(s.db.apps, s.cache, s.ops, a);
    OpCacheMove(s, a, c);
    MoveCoherent(s, t, a);
    MoveRunning(s, t, a);
    MoveListed(s, t, a);
  }

  /** A step that records no failure of its own keeps the cache right, whatever
      was recorded before. */
  lemma CleanStepKeepsCache(s: State, e: Event)
    requires Inv(s) && HolderOk(s) && Enabled(s, e) && CacheTrue(s)
    requires Enabled(Cleared(s), e) ==> !Next(Cleared(s), e).h.dirty
    ensures CacheTrue(Next(s, e))
  {
    var u := Cleared(s);
    DirtyKeeps(s, false);
    StepBlind(s, e);
    assert HolderOk(u) && CacheOk(u);
    hide Inv, HolderOk, Enabled, Next, Coherent, RunningCached, ListedCached, Cleared;
    StepKeeps(u, e);
    StepKeepsCache(u, e);
    BlindCache(Next(u, e), Next(s, e));
  }

  lemma FailedFetchKeepsCache(s: State, c: Choice)
    requires Inv(s) && TunnelEnabled(s) && AtApply(s, s.tun.who) && CacheTrue(s) && !c.ok
    requires s.tun.phase.Locked? || s.tun.phase.Missed? || (s.tun.phase.Reading? && |s.tun.phase.cfgs| >= |s.tun.phase.rows|)
    ensures CacheTrue(TunnelStep(s, c))
  {
    var u := Cleared(s);
    DirtyKeeps(s, false);
    assert CacheOk(u) && AtApply(u, u.tun.who) && u.tun.who == s.tun.who;
    hide Inv, Finish, CacheOk, CacheTrue, Coherent, RunningCached, ListedCached;
    var good := u.(tun := Free, file := u.file, h := u.h.(dirty := false));
    var bad := s.(tun := Free, file := s.file, h := s.h.(dirty := true));
    assert TunnelStep(s, c) == Finish(bad, s.tun.who, false) by { assert bad == s.(tun := Free, h := s.h.(dirty := s.h.dirty || true)); }
    FinishKeepsCache(u, u.tun.who, false, u.file, false);
    FinishBlind(good, bad, s.tun.who, false);
    FinishFile(u, u.tun.who, false, u.file, false);
    hide TunnelStep;
    BlindCache(Finish(good, s.tun.who, false), Finish(bad, s.tun.who, false));
  }

  /** In particular a re-render that fails at its query or its write is on record,
      and leaves the cache as right as it was. */
  lemma FailedRenderKeepsCache(s: State, c: Choice)
    requires Inv(s) && TunnelEnabled(s) && AtApply(s, s.tun.who) && CacheOk(s) && !s.h.dirty
    requires s.tun.phase.Locked? || (s.tun.phase.Reading? && |s.tun.phase.cfgs| == |s.tun.phase.rows|)
    requires !c.ok
    ensures TunnelStep(s, c).h.dirty && CacheTrue(TunnelStep(s, c))
  {
    FailedFetchKeepsCache(s, c);
    FinishFile(s, s.tun.who, false, s.file, true);
    hide Inv, Finish, CacheTrue, CacheOk;
  }

  lemma TunnelKeepsCacheTrue(s: State, c: Choice)
    requires Inv(s) && HolderOk(s) && TunnelEnabled(s) && CacheTrue(s)
    ensures CacheTrue(TunnelStep(s, c))
  {
    assert AtApply(s, s.tun.who);
    if !c.ok && (s.tun.phase.Locked? || s.tun.phase.Missed? || (s.tun.phase.Reading? && |s.tun.phase.cfgs| >= |s.tun.phase.rows|)) {
      FailedFetchKeepsCache(s, c);
    } else {
      TunnelClean(s, c);
      hide Inv, HolderOk, TunnelStep, CacheTrue, Cleared;
      CleanStepKeepsCache(s, ETunnel(c));
    }
  }

  lemma TunnelClean(s: State, c: Choice)
    requires TunnelEnabled(s) && AtApply(s, s.tun.who)
    requires c.ok || s.tun.phase.Fetched? || (s.tun.phase.Reading? && |s.tun.phase.cfgs| < |s.tun.phase.rows|)
    ensures !TunnelStep(Cleared(s), c).h.dirty
  {
    hide RunningList, LiveOf;
  }

  lemma QuietClean(s: State, e: Event)
    requires Enabled(Cleared(s), e) && !e.EOp? && !e.ETunnel? && CacheSafe(s, e)
    ensures !Next(Cleared(s), e).h.dirty
  {
    hide SetMachineState, SubnetForOwner, DeleteMachine, RunningRows;
    if e.EWatch? { WatchRest(Cleared(s), e.id, e.c); hide WatchStep; }
  }

  /** Every step but those failures keeps the cache right, whatever was recorded before. */
  lemma StepKeepsCacheTrue(s: State, e: Event)
    requires Inv(s) && HolderOk(s) && Enabled(s, e) && CacheTrue(s) && CacheSafe(s, e)
    ensures CacheTrue(Next(s, e))
  {
    StepKeeps(s, e);
    hide Inv, HolderOk, OpStep, TunnelStep, CacheTrue, CacheSafe, WatchStep, ReconcileStep;
    match e
    case EOp(a, c) => OpKeepsCacheTrue(s, a, c);
    case ETunnel(c) => TunnelKeepsCacheTrue(s, c);
    case _ =>
      StepBlind(s, e);
      QuietClean(s, e);
      hide Enabled, Next;
      CleanStepKeepsCache(s, e);
  }

  lemma {:induction false} RunKeepsCacheTrue(s: State, es: seq<Event>)
    requires Inv(s) && HolderOk(s) && CacheTrue(s) && ValidRun(s, es)
    requires forall k | 0 <= k < |es| :: ValidRun(s, es[..k]) && CacheSafe(Exec(s, es[..k]), es[k])
    ensures Inv(Exec(s, es)) && HolderOk(Exec(s, es)) && CacheTrue(Exec(s, es))
    decreases es
  {
    hide Inv, HolderOk, CacheTrue, CacheSafe;
    if es == [] {
      assert Exec(s, es) == s;
    } else {
      assert es[..0] == [];
      assert Exec(s, es[..0]) == s;
      StepKeeps(s, es[0]);
      StepKeepsCacheTrue(s, es[0]);
      var t, rest := Next(s, es[0]), es[1..];
      forall k | 0 <= k < |rest| ensures ValidRun(t, rest[..k]) && CacheSafe(Exec(t, rest[..k]), rest[k]) {
        assert es[..k + 1][1..] == rest[..k] && es[..k + 1][0] == es[0];
        assert ValidRun(s, es[..k + 1]) && CacheSafe(Exec(s, es[..k + 1]), es[k + 1]);
      }
      RunKeepsCacheTrue(t, rest);
      assert Exec(s, es) == Exec(t, rest);
    }
  }

  /** So after any start of a run that had none of those failures, however many
      others: once some task is still to re-render and nothing fails from then on,
      the file is current again when no task owes a re-render. */
  lemma LaterRenderRepairs(before: seq<Event>, es: seq<Event>)
    requires ValidRun(INIT, before)
    requires forall k | 0 <= k < |before| :: ValidRun(INIT, before[..k]) && CacheSafe(Exec(INIT, before[..k]), before[k])
    requires WillRender(Exec(INIT, before)) && ValidRun(Exec(INIT, before), es)
    requires Quiescent(Exec(Exec(INIT, before), es))
    requires ValidRun(Cleared(Exec(INIT, before)), es) ==> !Exec(Cleared(Exec(INIT, before)), es).h.dirty
    ensures FileCurrent(Exec(Exec(INIT, before), es))
  {
    InitOk();
    InitConverges();
    assert CacheTrue(INIT);
    hide Inv, HolderOk, CacheOk, CacheTrue, CacheSafe, Exec, ValidRun, WillRender, Quiescent, FileCurrent;
    RunKeepsCacheTrue(INIT, before);
    TunnelRecovers(Exec(INIT, before), es);
  }
}
