// Nothing is ever stuck and nothing goes on for ever: whatever a call comes to,
// its step is enabled, and a request is through after a bounded number of steps.

module ProtocolProgress {
  import opened Common
  import opened Tables
  import opened Tunnel
  import opened Protocol
  import opened ProtocolInv
  import opened ProtocolSteps
  import opened ProtocolRuns
  import opened ProtocolTheorems
  import Routing

  /** A re-render looking for a config has a row left to find it for. */
  predicate PhaseOk(t: Tun) {
    t.Held? && !t.phase.Locked? ==>
      && |t.phase.cfgs| <= |t.phase.rows|
      && (!t.phase.Reading? ==> |t.phase.cfgs| < |t.phase.rows|)
  }

  lemma TunnelKeepsPhase(s: State, c: Choice)
    requires TunnelEnabled(s) && PhaseOk(s.tun)
    ensures PhaseOk(TunnelStep(s, c).tun)
  {
    hide RunningList, LiveOf;
  }

  lemma StepKeepsPhase(s: State, e: Event)
    requires Enabled(s, e) && PhaseOk(s.tun)
    ensures PhaseOk(Next(s, e).tun)
  {
    hide PhaseOk, OpStep, WatchStep, ReconcileStep, TunnelStep, Begin, BeginStop, StopAllStep;
    match e
    case EOp(a, c) => OpStepFrame(s, a, c);
    case EWatch(id, c) => WatchFrame(s, id, c);
    case EReconcile(c) => ReconcileFrame(s, c);
    case ETunnel(c) => TunnelKeepsPhase(s, c);
    case EAcquire(who) => FreshPhase(who);
    case EReboot => FreshPhase(ByReconcile);
    case EBegin(a, kind) => assert Begin(s, a, kind).tun == s.tun by { QuietTun(s, a, kind); }
    case EBeginStop => QuietTun(s, "", Destroy);
    case EStopAll(c) => StopTun(s, c);
    case EExit(_) =>
  }

  lemma FreshPhase(who: Who)
    ensures PhaseOk(Held(who, Locked)) && PhaseOk(Free)
  {
  }

  lemma QuietTun(s: State, a: string, kind: Kind)
    ensures Begin(s, a, kind).tun == s.tun && BeginStop(s).tun == s.tun
  {
  }

  lemma StopTun(s: State, c: Choice)
    requires s.mode.Stopping?
    ensures StopAllStep(s, c).tun == s.tun
  {
  }

  /** What a choice must respect: a fresh id for a new machine, a listed one in
      the stop loop, and that Wait returns without error only for a machine that is gone. */
  ghost predicate ChoiceFits(s: State, a: string, c: Choice)
    requires a in s.ops
  {
    var op := s.ops[a];
    && (op.pc.RelInsert? || op.pc.Insert? ==> c.id !in s.ids.appOf)
    && (op.pc.StopNext? ==> c.id in op.todo)
    && (op.pc.RelWait? && c.ok ==> op.id in s.vm.procs && !s.vm.procs[op.id].live)
  }

  /** Any such choice, success or failure, is a step the request can take; and
      there is one for every outcome. */
  lemma RequestCanStep(s: State, a: string, c: Choice)
    requires Inv(s) && a in s.ops && !s.ops[a].pc.ApplyTunnel?
    ensures ChoiceFits(s, a, c) ==> OpEnabled(s, a, c)
    ensures !(s.ops[a].pc.RelWait? && c.ok && s.vm.procs[s.ops[a].id].live) ==> exists id :: OpEnabled(s, a, c.(id := id))
  {
    hide Inv, DbOk, GoneOk, KindOk;
    InOp(s, a);
    var op := s.ops[a];
    var unused := MaxKey(s.ids.appOf.Keys) + 1;
    assert unused !in s.ids.appOf;
    var id := unused;
    if op.pc.StopNext? { id :| id in op.todo; }
    if !(op.pc.RelWait? && c.ok && s.vm.procs[op.id].live) { assert OpEnabled(s, a, c.(id := id)); }
  }

  /** So it is with Reconcile. */
  lemma ReconcileCanStep(s: State, c: Choice)
    requires Inv(s) && s.mode.Reconciling? && !s.mode.rpc.RApply?
    ensures (s.mode.rpc.RNext? && s.mode.rtodo != {} ==> c.id in s.mode.rtodo) ==> ReconcileEnabled(s, c)
    ensures exists id :: ReconcileEnabled(s, c.(id := id))
  {
    hide Inv, DbOk;
    InMode(s);
    var id := 0;
    if s.mode.rpc.RNext? && s.mode.rtodo != {} { id :| id in s.mode.rtodo; }
    assert ReconcileEnabled(s, c.(id := id));
  }

  lemma {:induction false} RunKeepsPhase(s: State, es: seq<Event>)
    requires PhaseOk(s.tun) && ValidRun(s, es)
    ensures PhaseOk(Exec(s, es).tun)
    decreases es
  {
    hide PhaseOk;
    if es == [] {
      assert Exec(s, es) == s;
    } else {
      StepKeepsPhase(s, es[0]);
      RunKeepsPhase(Next(s, es[0]), es[1..]);
      assert Exec(s, es) == Exec(Next(s, es[0]), es[1..]);
    }
  }

  /** In every reachable state each request can step, whatever its call comes to,
      or is at applyTunnel, whose lock is free or held by a task that can step; a
      watcher can step unless it waits for a live process or for that lock; and
      Reconcile can step, whatever its call comes to. */
  lemma NothingIsStuck(es: seq<Event>, c: Choice)
    requires ValidRun(INIT, es)
    ensures var t := Exec(INIT, es);
            && (forall a | a in t.ops && !t.ops[a].pc.ApplyTunnel? ::
                  && (ChoiceFits(t, a, c) ==> OpEnabled(t, a, c))
                  && (t.ops[a].pc.RelWait? ==> t.ops[a].id in t.vm.procs)
                  && ((exists id :: OpEnabled(t, a, c.(id := id)))
                      || (t.ops[a].pc.RelWait? && c.ok && t.vm.procs[t.ops[a].id].live)))
            && (t.tun.Held? ==> TunnelEnabled(t))
            && (forall id | id in t.vm.watchers ::
                  t.vm.watchers[id].pc.WApply? || WatchEnabled(t, id) || (id in t.vm.procs && t.vm.procs[id].live))
            && (t.mode.Reconciling? && !t.mode.rpc.RApply? ==> exists id :: ReconcileEnabled(t, c.(id := id)))
  {
    InitOk();
    RunKeeps(INIT, es);
    RunKeepsPhase(INIT, es);
    hide Inv, HolderOk, Exec, ValidRun, OpEnabled, ReconcileEnabled, ChoiceFits;
    var t := Exec(INIT, es);
    forall a | a in t.ops && !t.ops[a].pc.ApplyTunnel?
      ensures ChoiceFits(t, a, c) ==> OpEnabled(t, a, c)
      ensures t.ops[a].pc.RelWait? ==> t.ops[a].id in t.vm.procs
      ensures (exists id :: OpEnabled(t, a, c.(id := id))) || (t.ops[a].pc.RelWait? && c.ok && t.vm.procs[t.ops[a].id].live)
    {
      WaitHasProcess(t, a);
      RequestCanStep(t, a, c);
    }
    forall id | id in t.vm.watchers
      ensures t.vm.watchers[id].pc.WApply? || WatchEnabled(t, id) || (id in t.vm.procs && t.vm.procs[id].live)
    {
      AnId(t, id);
    }
    if t.mode.Reconciling? && !t.mode.rpc.RApply? { ReconcileCanStep(t, c); }
  }

  lemma WaitHasProcess(s: State, a: string)
    requires Inv(s) && a in s.ops
    ensures s.ops[a].pc.RelWait? ==> s.ops[a].id in s.vm.procs
  {
    hide Inv, DbOk, GoneOk, KindOk, LoopOk;
    InOp(s, a);
  }

  // ----- and everything ends ---------------------------------------------------------------

  /** How many steps a request has left at most, if it lists no more than `most`
      machines to stop. */
  function StepsLeft(most: nat, op: Op): nat {
    match op.pc
    case SetOwner => 1 case ApplyTunnel => 2 case Announce => 3
    case RemoveFiles => 3 case DropCache => 4 case DropApp => 5 case DropReleases => 6
    case StopNext => 6 + 3 * |op.todo| case ForgetNext => 7 + 3 * |op.todo| case DropNext => 8 + 3 * |op.todo|
    case ListOld => 7 + 3 * most case ListAll => 7 + 3 * most
    case Spawn => 8 + 3 * most case Mark => 9 + 3 * most
    case FailDelete => 1 case FailState => 2 case ForgetNew => 3 case StopNew => 4
    case Await => 10 + 3 * most case SetHandle => 11 + 3 * most case Start => 12 + 3 * most
    case Insert => 13 + 3 * most case Subnet => 14 + 3 * most
    case RelDelete => 15 + 3 * most case RelStop => 16 + 3 * most case RelWait => 17 + 3 * most
    case RelStart => 18 + 3 * most case RelInsert => 19 + 3 * most case RelSubnet => 20 + 3 * most
    case FindRelease => 15 + 3 * most case AddRelease => 21 + 3 * most case Build => 22 + 3 * most
    case CacheCfg => 23 + 3 * most case Upsert => 24 + 3 * most
    case LoadCached => 25 + 3 * most case LoadStored => 26 + 3 * most case Load => 27 + 3 * most
  }

  predicate Lists(pc: Pc) {
    pc.ListOld? || pc.ListAll?
  }

  ghost predicate Advances(most: nat, s: State, t: State, a: string)
    requires a in s.ops
  {
    a in t.ops ==> StepsLeft(most, t.ops[a]) < StepsLeft(most, s.ops[a])
  }

  lemma ConfigAdvances(most: nat, s: State, a: string, c: Choice)
    requires OpEnabled(s, a, c) && ConfigPc(s.ops[a].pc)
    ensures Advances(most, s, OpStep(s, a, c), a)
  {
    hide UpsertApp, InsertRelease, LatestRelease, OpOwes, Scaled;
  }

  lemma RowAdvances(most: nat, s: State, a: string, c: Choice)
    requires OpEnabled(s, a, c) && NoMachine(s.ops[a].pc) && !ConfigPc(s.ops[a].pc)
    ensures Advances(most, s, OpStep(s, a, c), a)
  {
    hide SubnetForOwner, AllocAndInsertMachine, OpOwes, StepsLeft;
    var t := OpStep(s, a, c);
    assert a in t.ops ==> GoesTo(s.ops[a].pc, t.ops[a].pc);
    hide OpStep;
    if a in t.ops { FewerLeft(most, s.ops[a], t.ops[a]); }
  }

  /** The next pc where there is no loop to count. */
  predicate GoesTo(from: Pc, to: Pc) {
    || (from.RelSubnet? && to.RelInsert?) || (from.RelInsert? && to.RelStart?)
    || (from.Subnet? && to.Insert?) || (from.Insert? && to.Start?)
    || (from.Start? && (to.SetHandle? || to.FailState?)) || (from.SetHandle? && to.Await?)
    || (from.Await? && (to.Mark? || to.StopNew?)) || (from.Mark? && to.Spawn?) || (from.Spawn? && to.ListOld?)
    || (from.Announce? && to.ApplyTunnel?)
    || (from.DropReleases? && to.DropApp?) || (from.DropApp? && to.DropCache?)
    || (from.DropCache? && to.RemoveFiles?) || (from.RemoveFiles? && to.ApplyTunnel?)
  }

  lemma FewerLeft(most: nat, op: Op, op': Op)
    requires GoesTo(op.pc, op'.pc)
    ensures StepsLeft(most, op') < StepsLeft(most, op)
  {
  }

  lemma ReleaseAdvances(most: nat, s: State, a: string, c: Choice)
    requires OpEnabled(s, a, c) && RelOwn(s.ops[a].pc)
    ensures Advances(most, s, OpStep(s, a, c), a)
  {
    hide DeleteMachine, OpOwes, Passed;
  }

  lemma StartAdvances(most: nat, s: State, a: string, c: Choice)
    requires OpEnabled(s, a, c)
    requires s.ops[a].pc.Start? || s.ops[a].pc.SetHandle? || s.ops[a].pc.Await? || s.ops[a].pc.Mark? || s.ops[a].pc.Spawn?
    ensures Advances(most, s, OpStep(s, a, c), a)
  {
    hide SetMachineState, OpOwes, StepsLeft;
    var t := OpStep(s, a, c);
    assert a in t.ops ==> GoesTo(s.ops[a].pc, t.ops[a].pc);
    hide OpStep;
    if a in t.ops { FewerLeft(most, s.ops[a], t.ops[a]); }
  }

  lemma FailAdvances(most: nat, s: State, a: string, c: Choice)
    requires OpEnabled(s, a, c)
    requires s.ops[a].pc.StopNew? || s.ops[a].pc.ForgetNew? || s.ops[a].pc.FailState? || s.ops[a].pc.FailDelete?
    ensures Advances(most, s, OpStep(s, a, c), a)
  {
    hide DeleteMachine, SetMachineState, OpOwes;
  }

  lemma ListAdvances(most: nat, s: State, a: string, c: Choice)
    requires OpEnabled(s, a, c) && Lists(s.ops[a].pc) && |MachinesOf(s.db, a)| <= most
    ensures Advances(most, s, OpStep(s, a, c), a)
  {
    hide OpOwes, StepsLeft, LoopPc;
    var op, t := s.ops[a], OpStep(s, a, c);
    ListShape(s, a, c);
    hide OpStep, MachinesOf;
    if a in t.ops {
      Subset(t.ops[a].todo, MachinesOf(s.db, a));
      ListLess(most, op, t.ops[a]);
    }
  }

  lemma ListShape(s: State, a: string, c: Choice)
    requires OpEnabled(s, a, c) && Lists(s.ops[a].pc)
    ensures var t := OpStep(s, a, c);
            a in t.ops ==> t.ops[a].todo <= MachinesOf(s.db, a) && t.ops[a].pc == LoopPc(t.ops[a])
  {
    hide OpOwes;
  }

  lemma ListLess(most: nat, op: Op, op': Op)
    requires Lists(op.pc) && op'.pc == LoopPc(op') && |op'.todo| <= most
    ensures StepsLeft(most, op') < StepsLeft(most, op)
  {
  }

  lemma LoopAdvances(most: nat, s: State, a: string, c: Choice)
    requires OpEnabled(s, a, c) && Looping(s.ops[a].pc)
    ensures Advances(most, s, OpStep(s, a, c), a)
  {
    hide OpOwes, DeleteMachine, StepsLeft;
    var op, t := s.ops[a], OpStep(s, a, c);
    assert a in t.ops ==>
        && (op.pc.StopNext? ==> t.ops[a].pc.DropNext? && t.ops[a].todo == op.todo - {c.id} && c.id in op.todo)
        && (op.pc.DropNext? ==> t.ops[a].pc.ForgetNext? && t.ops[a].todo == op.todo)
        && (op.pc.ForgetNext? ==> t.ops[a].pc == LoopPc(op) && t.ops[a].todo == op.todo);
    hide OpStep;
    if a in t.ops { LoopLess(most, op, t.ops[a], c.id); }
  }

  lemma LoopLess(most: nat, op: Op, op': Op, id: MachineId)
    requires Looping(op.pc)
    requires op.pc.StopNext? ==> op'.pc.DropNext? && op'.todo == op.todo - {id} && id in op.todo
    requires op.pc.DropNext? ==> op'.pc.ForgetNext? && op'.todo == op.todo
    requires op.pc.ForgetNext? ==> op'.pc == LoopPc(op) && op'.todo == op.todo
    ensures StepsLeft(most, op') < StepsLeft(most, op)
  {
  }

  lemma TailAdvances(most: nat, s: State, a: string, c: Choice)
    requires OpEnabled(s, a, c) && AtTail(s.ops[a].pc)
    ensures Advances(most, s, OpStep(s, a, c), a)
  {
    hide OpOwes, SetAppOwner, DeleteReleasesForApp, DeleteApp, StepsLeft;
    var t := OpStep(s, a, c);
    assert a in t.ops ==> GoesTo(s.ops[a].pc, t.ops[a].pc);
    hide OpStep;
    if a in t.ops { FewerLeft(most, s.ops[a], t.ops[a]); }
  }

  predicate AtTail(pc: Pc) {
    pc.Announce? || pc.SetOwner? || pc.DropReleases? || pc.DropApp? || pc.DropCache? || pc.RemoveFiles?
  }

  lemma {:induction false} Subset(x: set<MachineId>, y: set<MachineId>)
    requires x <= y
    ensures |x| <= |y|
  {
    assert y == x + (y - x);
  }

  lemma OpAdvances(most: nat, s: State, a: string, c: Choice)
    requires OpEnabled(s, a, c) && (Lists(s.ops[a].pc) ==> |MachinesOf(s.db, a)| <= most)
    ensures Advances(most, s, OpStep(s, a, c), a)
  {
    hide OpStep, Advances;
    var pc := s.ops[a].pc;
    if ConfigPc(pc) { ConfigAdvances(most, s, a, c); }
    else if NoMachine(pc) { RowAdvances(most, s, a, c); }
    else if RelOwn(pc) { ReleaseAdvances(most, s, a, c); }
    else if pc.StopNew? || pc.ForgetNew? || pc.FailState? || pc.FailDelete? { FailAdvances(most, s, a, c); }
    else if BootOwn(pc) || pc.Spawn? { StartAdvances(most, s, a, c); }
    else if Lists(pc) { ListAdvances(most, s, a, c); }
    else if Looping(pc) { LoopAdvances(most, s, a, c); }
    else { TailAdvances(most, s, a, c); }
  }

  /** Nobody else sets a request back. */
  ghost predicate NotSetBack(most: nat, s: State, t: State, a: string) {
    a in t.ops ==> a in s.ops && StepsLeft(most, t.ops[a]) <= StepsLeft(most, s.ops[a])
  }

  lemma OthersWait(most: nat, s: State, e: Event, a: string)
    requires Inv(s) && HolderOk(s) && Enabled(s, e)
    requires !(e.EOp? && e.app == a) && !(e.EBegin? && e.app == a)
    ensures NotSetBack(most, s, Next(s, e), a)
  {
    hide Inv, HolderOk, OpStep, WatchStep, TunnelStep, ReconcileStep, StepsLeft;
    match e
    case EOp(b, c) => OpStepFrame(s, b, c);
    case EWatch(id, c) => WatchFrame(s, id, c);
    case ETunnel(c) =>
      HeldIsAtApply(s);
      TunnelRows(s, c);
      if a in s.ops && s.ops[a].pc.ApplyTunnel? { OwnerIsLess(most, s.ops[a]); }
    case EReconcile(c) => ReconcileFrame(s, c);
    case _ =>
  }

  lemma OwnerIsLess(most: nat, op: Op)
    requires op.pc.ApplyTunnel?
    ensures StepsLeft(most, op.(pc := SetOwner, changed := false)) < StepsLeft(most, op)
  {
  }

  lemma HeldIsAtApply(s: State)
    requires HolderOk(s) && s.tun.Held?
    ensures AtApply(s, s.tun.who)
  {
  }

  /** The steps of `a`'s requests in a run. */
  function OwnSteps(es: seq<Event>, a: string): nat {
    if es == [] then 0 else (if es[0].EOp? && es[0].app == a then 1 else 0) + OwnSteps(es[1..], a)
  }

  /** No new request for `a`, and none lists more than `most` machines to stop. */
  ghost predicate Bounded(most: nat, s: State, es: seq<Event>, a: string)
    requires ValidRun(s, es)
    decreases es
  {
    es != [] ==>
      && !(es[0].EBegin? && es[0].app == a)
      && (es[0].EOp? && es[0].app == a && Lists(s.ops[a].pc) ==> |MachinesOf(s.db, a)| <= most)
      && Bounded(most, Next(s, es[0]), es[1..], a)
  }

  /** However its calls turn out and whatever runs in between, a request takes at
      most 27 steps and three for each machine it stops, applyTunnel counted as one. */
  lemma {:induction false} RequestsEnd(most: nat, s: State, es: seq<Event>, a: string)
    requires Inv(s) && HolderOk(s) && ValidRun(s, es) && Bounded(most, s, es, a)
    ensures OwnSteps(es, a) <= (if a in s.ops then StepsLeft(most, s.ops[a]) else 0)
    ensures a in s.ops && BeforeLoop(s.ops[a].pc) ==> OwnSteps(es, a) <= 27 + 3 * most
    decreases es
  {
    hide Inv, HolderOk, OpStep, WatchStep, TunnelStep, ReconcileStep, StepsLeft, Lists;
    if es != [] {
      StepKeeps(s, es[0]);
      RequestsEnd(most, Next(s, es[0]), es[1..], a);
      if es[0].EOp? && es[0].app == a {
        OpAdvances(most, s, a, es[0].c);
      } else {
        OthersWait(most, s, es[0], a);
      }
    }
    if a in s.ops { LeftAtMost(most, s.ops[a]); }
  }

  predicate BeforeLoop(pc: Pc) {
    !Looping(pc)
  }

  lemma LeftAtMost(most: nat, op: Op)
    ensures BeforeLoop(op.pc) ==> StepsLeft(most, op) <= 27 + 3 * most
    ensures StepsLeft(most, op) >= 1
  {
  }

  /** A re-render, too, is through after a bounded number of steps. */
  function RenderLeft(t: Tun, most: nat): nat {
    match t
    case Free => 0
    case Held(_, Locked) => 2 + 3 * most
    case Held(_, Reading(rows, cfgs)) => if |cfgs| <= |rows| then 1 + 3 * (|rows| - |cfgs|) else 1
    case Held(_, Missed(rows, cfgs)) => if |cfgs| <= |rows| then 3 * (|rows| - |cfgs|) else 0
    case Held(_, Fetched(rows, cfgs, _)) => if |cfgs| < |rows| then 3 * (|rows| - |cfgs|) - 1 else 0
  }

  lemma RendersEnd(s: State, c: Choice, most: nat)
    requires TunnelEnabled(s) && PhaseOk(s.tun) && |LiveOf(s.db)| <= most
    ensures RenderLeft(TunnelStep(s, c).tun, most) < RenderLeft(s.tun, most)
  {
    Routing.ListIsExact(LiveOf(s.db));
    hide RunningList, LiveOf, Finish;
    FinishFrees(s, s.tun.who);
  }

  lemma FinishFrees(s: State, who: Who)
    ensures forall m, ok :: Finish(m, who, ok).tun == m.tun
  {
  }
}
