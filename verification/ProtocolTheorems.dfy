// What the invariants mean: cutover without downtime, and safe, complete reaping.

module ProtocolTheorems {
  import opened Common
  import opened Tables
  import opened Tunnel
  import opened Protocol
  import opened ProtocolInv
  import opened ProtocolSteps
  import opened ProtocolRuns
  import opened ProtocolFlow

  lemma InitOk()
    ensures Inv(INIT) && HolderOk(INIT)
  {
    assert forall id :: IdOk(INIT.db.machines, INIT.vm, INIT.ids, id);
  }

  /** Every reachable state, in every interleaving, satisfies the invariants. */
  lemma {:induction false} RunKeeps(s: State, es: seq<Event>)
    requires Inv(s) && HolderOk(s) && ValidRun(s, es)
    ensures Inv(Exec(s, es)) && HolderOk(Exec(s, es))
    decreases es
  {
    hide Inv, HolderOk;
    if es != [] {
      StepKeeps(s, es[0]);
      RunKeeps(Next(s, es[0]), es[1..]);
    }
  }

  // ----- which rows and stops a request's step can touch ------------------------------

  predicate RowPc(pc: Pc) { pc.RelDelete? || pc.Mark? || pc.FailState? || pc.FailDelete? }
  predicate InsertPc(pc: Pc) { pc.Insert? || pc.RelInsert? }

  ghost predicate RowsTouched(s: State, t: State, a: string, c: Choice)
    requires a in s.ops
  {
    var op := s.ops[a];
    && (forall j :: Same(s.db.machines, t.db.machines, j)
          || (j == op.id && RowPc(op.pc)) || (j == op.cur && op.pc.DropNext?) || (j == c.id && InsertPc(op.pc)))
    && (forall j :: (j in t.ids.stopped <==> j in s.ids.stopped)
          || (j == op.id && (op.pc.RelStop? || op.pc.StopNew?)) || (j == c.id && op.pc.StopNext?))
    && t.ids.crashed == s.ids.crashed
  }

  lemma OpRowsConfig(s: State, a: string, c: Choice)
    requires OpEnabled(s, a, c) && ConfigPc(s.ops[a].pc)
    ensures RowsTouched(s, OpStep(s, a, c), a, c)
  {
    hide OpOwes, Scaled, LatestRelease, MaxKey;
  }

  lemma OpRowsSubnet(s: State, a: string, c: Choice)
    requires OpEnabled(s, a, c) && (s.ops[a].pc.RelSubnet? || s.ops[a].pc.Subnet?)
    ensures RowsTouched(s, OpStep(s, a, c), a, c)
  {
    hide OpOwes, LeastIndexFrom;
  }

  lemma OpRowsInsert(s: State, a: string, c: Choice)
    requires OpEnabled(s, a, c) && InsertPc(s.ops[a].pc)
    ensures RowsTouched(s, OpStep(s, a, c), a, c)
  {
    hide OpOwes, FreeIp;
  }

  lemma OpRowsBoot(s: State, a: string, c: Choice)
    requires OpEnabled(s, a, c) && (RelOwn(s.ops[a].pc) || BootOwn(s.ops[a].pc) || s.ops[a].pc.Spawn?)
    ensures RowsTouched(s, OpStep(s, a, c), a, c)
  {
  }

  lemma OpRows(s: State, a: string, c: Choice)
    requires OpEnabled(s, a, c)
    ensures RowsTouched(s, OpStep(s, a, c), a, c)
  {
    if ConfigPc(s.ops[a].pc) { OpRowsConfig(s, a, c); }
    else if InsertPc(s.ops[a].pc) { OpRowsInsert(s, a, c); }
    else if NoMachine(s.ops[a].pc) { OpRowsSubnet(s, a, c); }
    else if RelOwn(s.ops[a].pc) || BootOwn(s.ops[a].pc) || s.ops[a].pc.Spawn? { OpRowsBoot(s, a, c); }
  }

  // ----- zero-downtime cutover -----------------------------------------------------------

  /** A running machine of `a` that nobody has asked to stop and that has not exited. */
  ghost predicate Sound(s: State, a: string, n: MachineId) {
    IsRunning(s.db.machines, n) && s.db.machines[n].app == a && n !in s.ids.stopped && n !in s.ids.crashed
  }

  /** `a` has a sound machine, is not being destroyed, and the machine a request
      is booting for it, if any, has not exited. */
  ghost predicate Up(s: State, a: string) {
    && s.mode.Serving?
    && (exists n :: Sound(s, a, n))
    && Calm(s, a)
  }

  /** What the promise excludes: a machine of `a` exiting by itself, destroying
      `a`, and stopping or killing the daemon. */
  ghost predicate Disturbs(s: State, e: Event, a: string) {
    || (e.EExit? && e.id in s.ids.appOf && s.ids.appOf[e.id] == a && e.id !in s.ids.stopped && e.id !in s.ids.relIds)
    || (e.EBegin? && e.app == a && e.kind.Destroy?)
    || e.EBeginStop? || e.EReboot?
  }

  /** Each step of a cutover leaves a sound machine: the old one until the new
      one is marked running, the new one from then on. */
  lemma OwnStepKeepsSound(s: State, a: string, c: Choice)
    requires Inv(s) && OpEnabled(s, a, c) && Up(s, a)
    ensures exists n :: Sound(OpStep(s, a, c), a, n)
  {
    hide Inv, DbOk, OpStep, KindOk, GoneOk;
    InOp(s, a);
    OpRows(s, a, c);
    var op, t := s.ops[a], OpStep(s, a, c);
    var n :| Sound(s, a, n);
    if (op.pc.DropNext? && n == op.cur) || (op.pc.StopNext? && n == c.id) {
      assert Sound(s, a, op.id);
      assert Same(s.db.machines, t.db.machines, op.id);
      assert Sound(t, a, op.id);
    } else {
      AnId(s, n);
      assert !InsertPc(op.pc) || n != c.id;
      assert Same(s.db.machines, t.db.machines, n) || n == op.id;
      if n == op.id && RowPc(op.pc) { NotOwnYet(s, a, n); }
      assert Sound(t, a, n);
    }
  }

  /** While a request can still undo its own row, that row is not running. */
  lemma NotOwnYet(s: State, a: string, n: MachineId)
    requires Inv(s) && a in s.ops && n == s.ops[a].id && (RowPc(s.ops[a].pc) || s.ops[a].pc.StopNew? || s.ops[a].pc.RelStop?)
    ensures !IsRunning(s.db.machines, n)
  {
    hide Inv, DbOk, KindOk, GoneOk, LoopOk;
    InOp(s, a);
  }

  /** A request of another app touches only its own machines. */
  lemma OtherStepKeepsSound(s: State, b: string, c: Choice, a: string, n: MachineId)
    requires Inv(s) && OpEnabled(s, b, c) && b != a && Sound(s, a, n)
    ensures Sound(OpStep(s, b, c), a, n)
  {
    hide Inv, DbOk, OpStep, KindOk, GoneOk;
    InOp(s, b);
    OpRows(s, b, c);
    AnId(s, n);
    var op := s.ops[b];
    if RowPc(op.pc) && n == op.id { NotOwnYet(s, b, n); }
    if op.pc.StopNew? && n == op.id { NotOwnYet(s, b, n); }
    if op.pc.RelStop? && n == op.id { NotOwnYet(s, b, n); }
    assert n != op.cur || !op.pc.DropNext?;
    assert n != c.id || !op.pc.StopNext?;
    assert n != c.id || !InsertPc(op.pc);
    assert Same(s.db.machines, OpStep(s, b, c).db.machines, n);
  }

  lemma WatchRows(s: State, id: MachineId, c: Choice)
    requires WatchEnabled(s, id)
    ensures var t := WatchStep(s, id, c);
            && (forall j | j != id :: Same(s.db.machines, t.db.machines, j))
            && (id in t.db.machines ==>
                  && id in s.db.machines && t.db.machines[id].app == s.db.machines[id].app
                  && (t.db.machines[id] == s.db.machines[id] || t.db.machines[id].state == Stopped))
            && t.ids == s.ids && t.vm.procs == s.vm.procs
  {
  }

  /** applyTunnel touches no row and no process; on return a request moves on or ends. */
  ghost predicate TunnelOnly(s: State, t: State) {
    && t.db == s.db && t.ids == s.ids && t.vm.procs == s.vm.procs && t.vm.handles == s.vm.handles
    && (t.mode == s.mode || (s.mode.Reconciling? && s.mode.rpc.RApply? && t.mode.Serving?))
    && t.h == s.h.(dirty := t.h.dirty)
    && (forall id | id in t.vm.watchers :: id in s.vm.watchers && t.vm.watchers[id] == s.vm.watchers[id])
    && (forall a | a in s.ops && !s.ops[a].pc.ApplyTunnel? :: a in t.ops)
    && (forall a | a in t.ops :: a in s.ops
          && (t.ops[a] == s.ops[a]
              || (s.ops[a].pc.ApplyTunnel? && t.ops[a] == s.ops[a].(pc := SetOwner, changed := false))))
  }

  lemma FinishRows(s: State, who: Who, ok: bool, file: Ingress, dirty: bool)
    requires AtApply(s, who)
    ensures TunnelOnly(s, Finish(s.(tun := Free, file := file, h := s.h.(dirty := dirty)), who, ok))
  {
  }

  lemma TunnelRows(s: State, c: Choice)
    requires TunnelEnabled(s) && AtApply(s, s.tun.who)
    ensures TunnelOnly(s, TunnelStep(s, c))
  {
    hide Finish;
    match s.tun.phase
    case Locked => FinishRows(s, s.tun.who, false, s.file, true);
    case Reading(rows, cfgs) =>
      FinishRows(s, s.tun.who, true, Ingress(rows, cfgs), s.h.dirty);
      FinishRows(s, s.tun.who, false, s.file, true);
    case Missed(rows, cfgs) => FinishRows(s, s.tun.who, false, s.file, s.h.dirty || !c.ok);
    case Fetched(rows, cfgs, raw) =>
  }

  lemma StepKeepsSound(s: State, e: Event, a: string)
    requires Inv(s) && HolderOk(s) && Enabled(s, e) && Up(s, a) && !Disturbs(s, e, a)
    ensures exists n :: Sound(Next(s, e), a, n)
  {
    hide Inv, DbOk, OpStep, WatchStep, TunnelStep, Begin;
    var n :| Sound(s, a, n);
    AnId(s, n);
    if e.EOp? && e.app == a {
      OwnStepKeepsSound(s, a, e.c);
      var m :| Sound(OpStep(s, a, e.c), a, m);
      assert Sound(Next(s, e), a, m);
    } else {
      if e.EOp? {
        OtherStepKeepsSound(s, e.app, e.c, a, n);
      } else if e.EWatch? {
        WatchRows(s, e.id, e.c);
        AnId(s, e.id);
        assert e.id != n;
        assert Same(s.db.machines, WatchStep(s, e.id, e.c).db.machines, n);
      } else if e.ETunnel? {
        TunnelRows(s, e.c);
      } else if e.EBegin? {
        BeginFrame(s, e.app, e.kind);
      }
      assert Sound(Next(s, e), a, n);
    }
  }

  lemma BeginFrame(s: State, b: string, kind: Kind)
    ensures Begin(s, b, kind).db == s.db && Begin(s, b, kind).ids == s.ids && Begin(s, b, kind).mode == s.mode
    ensures b in Begin(s, b, kind).ops && Begin(s, b, kind).ops[b].kind == kind
    ensures !BootOwn(Begin(s, b, kind).ops[b].pc) && !Cutover(Begin(s, b, kind).ops[b])
    ensures forall a | a != b :: Same(s.ops, Begin(s, b, kind).ops, a)
  {
  }

  /** `a`'s own request, if any, is no Destroy and its machine has not exited. */
  ghost predicate Calm(s: State, a: string) {
    a in s.ops ==>
      && !s.ops[a].kind.Destroy?
      && (BootOwn(s.ops[a].pc) || Cutover(s.ops[a]) ==> s.ops[a].id !in s.ids.crashed)
  }

  lemma OpKeepsCalm(s: State, b: string, c: Choice, a: string)
    requires Inv(s) && OpEnabled(s, b, c) && Calm(s, a)
    ensures Calm(OpStep(s, b, c), a) && OpStep(s, b, c).mode == s.mode
  {
    hide Inv, OpStep, BootOwn, Cutover, RowsTouched;
    OpStepFrame(s, b, c);
    if b == a {
      OwnMachine(s, a, c);
    } else {
      OpRows(s, b, c);
      CrashedKept(s, OpStep(s, b, c), b, c);
    }
  }

  lemma ExitKeepsCalm(s: State, id: MachineId, a: string)
    requires Inv(s) && id in s.vm.procs && Calm(s, a) && !Disturbs(s, EExit(id), a)
    ensures Calm(Exit(s, id), a)
  {
    hide Inv, DbOk, LoopOk, GoneOk, KindOk;
    if a in s.ops { InOp(s, a); }
  }

  /** The request of `a` itself stays a non-destroying one whose machine has not exited. */
  lemma StepKeepsUp(s: State, e: Event, a: string)
    requires Inv(s) && HolderOk(s) && Enabled(s, e) && Up(s, a) && !Disturbs(s, e, a)
    ensures Up(Next(s, e), a)
  {
    StepKeepsSound(s, e, a);
    assert Calm(s, a);
    hide Inv, DbOk, OpStep, WatchStep, TunnelStep, Begin, Exit, Sound;
    var t := Next(s, e);
    if e.EOp? {
      OpKeepsCalm(s, e.app, e.c, a);
    } else if e.EExit? {
      ExitKeepsCalm(s, e.id, a);
    } else {
      if e.EWatch? {
        WatchFrame(s, e.id, e.c);
        WatchRows(s, e.id, e.c);
      } else if e.ETunnel? {
        TunnelRows(s, e.c);
      } else if e.EBegin? {
        BeginFrame(s, e.app, e.kind);
        if e.app != a { assert Same(s.ops, t.ops, a); }
      }
    }
    assert Calm(t, a);
  }

  lemma CrashedKept(s: State, t: State, a: string, c: Choice)
    requires a in s.ops && RowsTouched(s, t, a, c)
    ensures t.ids.crashed == s.ids.crashed
  {
  }

  /** A request keeps its kind, and its machine except when it inserts a fresh one. */
  ghost predicate SameMachine(op: Op, op': Op, c: Choice) {
    && op'.kind == op.kind
    && (BootOwn(op'.pc) || Cutover(op') ==>
          || (InsertPc(op.pc) && op'.id == c.id)
          || (op'.id == op.id && (BootOwn(op.pc) || Cutover(op))))
  }

  lemma SameMachineConfig(s: State, a: string, c: Choice)
    requires OpEnabled(s, a, c) && ConfigPc(s.ops[a].pc)
    ensures a in OpStep(s, a, c).ops ==> SameMachine(s.ops[a], OpStep(s, a, c).ops[a], c)
  {
    hide UpsertApp, InsertRelease, LatestRelease, OpOwes, Scaled, SameMachine;
    var op, t := s.ops[a], OpStep(s, a, c);
    assert a in t.ops ==> t.ops[a].kind == op.kind && NoMachine(t.ops[a].pc);
    hide OpStep;
    if a in t.ops { assert SameMachine(op, t.ops[a], c) by { UnbootedSame(op, t.ops[a], c); } }
  }

  lemma UnbootedSame(op: Op, op': Op, c: Choice)
    requires op'.kind == op.kind && NoMachine(op'.pc)
    ensures SameMachine(op, op', c)
  {
  }

  lemma SameMachineRows(s: State, a: string, c: Choice)
    requires OpEnabled(s, a, c) && NoMachine(s.ops[a].pc) && !ConfigPc(s.ops[a].pc)
    ensures a in OpStep(s, a, c).ops ==> SameMachine(s.ops[a], OpStep(s, a, c).ops[a], c)
  {
    hide SubnetForOwner, AllocAndInsertMachine, OpOwes;
  }

  lemma SameMachineRelease(s: State, a: string, c: Choice)
    requires OpEnabled(s, a, c) && RelOwn(s.ops[a].pc)
    ensures a in OpStep(s, a, c).ops ==> SameMachine(s.ops[a], OpStep(s, a, c).ops[a], c)
  {
    hide DeleteMachine, OpOwes, Passed, SameMachine;
    var op, t := s.ops[a], OpStep(s, a, c);
    assert a in t.ops ==> t.ops[a].kind == op.kind && (RelOwn(t.ops[a].pc) || t.ops[a].pc.Subnet?);
    hide OpStep;
    if a in t.ops { ReleasingSame(op, t.ops[a], c); }
  }

  lemma ReleasingSame(op: Op, op': Op, c: Choice)
    requires op'.kind == op.kind && (RelOwn(op'.pc) || op'.pc.Subnet?)
    ensures SameMachine(op, op', c)
  {
  }

  lemma SameMachineBoot(s: State, a: string, c: Choice)
    requires OpEnabled(s, a, c) && (BootOwn(s.ops[a].pc) || s.ops[a].pc.Spawn?)
    requires s.ops[a].pc.Spawn? ==> !s.ops[a].kind.Destroy?
    ensures a in OpStep(s, a, c).ops ==> SameMachine(s.ops[a], OpStep(s, a, c).ops[a], c)
  {
    hide SetMachineState, DeleteMachine, OpOwes, SameMachine;
    var op, t := s.ops[a], OpStep(s, a, c);
    assert a in t.ops ==> t.ops[a] == op.(pc := t.ops[a].pc);
    hide OpStep;
    if a in t.ops { SameBoot(op, t.ops[a], c); }
  }

  lemma SameBoot(op: Op, op': Op, c: Choice)
    requires (BootOwn(op.pc) || (op.pc.Spawn? && !op.kind.Destroy?)) && op' == op.(pc := op'.pc)
    ensures SameMachine(op, op', c)
  {
  }

  lemma SameMachineLate(s: State, a: string, c: Choice)
    requires OpEnabled(s, a, c) && KindOk(s.ops[a])
    requires !NoMachine(s.ops[a].pc) && !RelOwn(s.ops[a].pc) && !BootOwn(s.ops[a].pc) && !s.ops[a].pc.Spawn?
    ensures a in OpStep(s, a, c).ops ==> SameMachine(s.ops[a], OpStep(s, a, c).ops[a], c)
  {
  }

  /** A machine a request starts booting has not exited. */
  lemma OwnMachine(s: State, a: string, c: Choice)
    requires Inv(s) && OpEnabled(s, a, c)
    requires BootOwn(s.ops[a].pc) || Cutover(s.ops[a]) ==> s.ops[a].id !in s.ids.crashed
    ensures var t := OpStep(s, a, c);
            a in t.ops ==>
              && t.ops[a].kind == s.ops[a].kind
              && (BootOwn(t.ops[a].pc) || Cutover(t.ops[a]) ==> t.ops[a].id !in t.ids.crashed)
  {
    hide Inv, DbOk, OwnOk, LoopOk, GoneOk, OpStep;
    InOp(s, a);
    AnId(s, c.id);
    OpRows(s, a, c);
    if ConfigPc(s.ops[a].pc) { SameMachineConfig(s, a, c); }
    else if NoMachine(s.ops[a].pc) { SameMachineRows(s, a, c); }
    else if RelOwn(s.ops[a].pc) { SameMachineRelease(s, a, c); }
    else if BootOwn(s.ops[a].pc) || s.ops[a].pc.Spawn? { SameMachineBoot(s, a, c); }
    else { SameMachineLate(s, a, c); }
  }

  // ----- only healthy machines -----------------------------------------------------------

  /** The health check of machine `id` comes out so. */
  ghost predicate Checks(s: State, e: Event, id: MachineId, ok: bool) {
    e.EOp? && e.app in s.ops && s.ops[e.app].pc.Await? && s.ops[e.app].id == id && e.c.ok == ok
  }

  /** Somewhere in the run the health check of `id` passes. */
  ghost predicate PassesIn(s: State, es: seq<Event>, id: MachineId)
    requires ValidRun(s, es)
    decreases es
  {
    es != [] && (Checks(s, es[0], id, true) || PassesIn(Next(s, es[0]), es[1..], id))
  }

  /** Booting `id`, past its health check. */
  predicate PastCheck(op: Op, id: MachineId) {
    op.id == id && (op.pc.Mark? || Cutover(op))
  }

  /** Running, or about to be marked so. */
  ghost predicate Trusted(s: State, id: MachineId) {
    IsRunning(s.db.machines, id) || exists a :: a in s.ops && PastCheck(s.ops[a], id)
  }

  lemma PastCheckFollows(op: Op, op': Op, c: Choice)
    requires op'.kind == op.kind && op'.pc in After(op, c.ok) && KindOk(op)
    requires op'.pc.Mark? || Cutover(op')
    ensures op.pc.Mark? || Cutover(op) || (op.pc.Await? && c.ok)
  {
  }

  lemma OpSameMachine(s: State, a: string, c: Choice)
    requires Inv(s) && OpEnabled(s, a, c)
    ensures a in OpStep(s, a, c).ops ==> SameMachine(s.ops[a], OpStep(s, a, c).ops[a], c)
  {
    hide Inv, DbOk, OwnOk, LoopOk, GoneOk, OpStep, SameMachine;
    InOp(s, a);
    if ConfigPc(s.ops[a].pc) { SameMachineConfig(s, a, c); }
    else if NoMachine(s.ops[a].pc) { SameMachineRows(s, a, c); }
    else if RelOwn(s.ops[a].pc) { SameMachineRelease(s, a, c); }
    else if BootOwn(s.ops[a].pc) || s.ops[a].pc.Spawn? { SameMachineBoot(s, a, c); }
    else { SameMachineLate(s, a, c); }
  }

  /** A request gets past a health check only by passing it. */
  lemma OpPassesCheck(s: State, a: string, c: Choice, id: MachineId)
    requires Inv(s) && OpEnabled(s, a, c)
    requires a in OpStep(s, a, c).ops && PastCheck(OpStep(s, a, c).ops[a], id)
    ensures PastCheck(s.ops[a], id) || Checks(s, EOp(a, c), id, true)
  {
    hide Inv, DbOk, OwnOk, LoopOk, GoneOk, OpStep, After, KindOk;
    InOp(s, a);
    OpSameMachine(s, a, c);
    OpFollows(s, a, c);
    PastCheckFollows(s.ops[a], OpStep(s, a, c).ops[a], c);
  }

  lemma DeletedIsNotRunning(s: State, a: string, c: Choice)
    requires OpEnabled(s, a, c) && (s.ops[a].pc.RelDelete? || s.ops[a].pc.FailDelete?) && !IsRunning(s.db.machines, s.ops[a].id)
    ensures !IsRunning(OpStep(s, a, c).db.machines, s.ops[a].id)
  {
    hide OpOwes;
  }

  lemma FailedIsNotRunning(s: State, a: string, c: Choice)
    requires OpEnabled(s, a, c) && s.ops[a].pc.FailState? && !IsRunning(s.db.machines, s.ops[a].id)
    ensures !IsRunning(OpStep(s, a, c).db.machines, s.ops[a].id)
  {
    hide OpOwes;
  }

  lemma InsertedIsNotRunning(s: State, a: string, c: Choice)
    requires OpEnabled(s, a, c) && InsertPc(s.ops[a].pc) && !IsRunning(s.db.machines, c.id)
    ensures !IsRunning(OpStep(s, a, c).db.machines, c.id)
  {
    hide OpOwes, FreeIp;
  }

  lemma DroppedIsNotRunning(s: State, a: string, c: Choice, id: MachineId)
    requires OpEnabled(s, a, c) && s.ops[a].pc.DropNext? && !IsRunning(s.db.machines, id)
    ensures !IsRunning(OpStep(s, a, c).db.machines, id)
  {
    hide OpOwes;
  }

  /** A row turns running at its own request's Mark alone. */
  lemma OpTurnsRunning(s: State, a: string, c: Choice, id: MachineId)
    requires Inv(s) && OpEnabled(s, a, c) && !IsRunning(s.db.machines, id) && IsRunning(OpStep(s, a, c).db.machines, id)
    ensures s.ops[a].pc.Mark? && s.ops[a].id == id
  {
    hide Inv, OpStep;
    OpRows(s, a, c);
    var pc := s.ops[a].pc;
    assert !Same(s.db.machines, OpStep(s, a, c).db.machines, id);
    if id == s.ops[a].id && RowPc(pc) {
      if pc.FailState? { FailedIsNotRunning(s, a, c); } else if !pc.Mark? { DeletedIsNotRunning(s, a, c); }
    } else if pc.DropNext? {
      DroppedIsNotRunning(s, a, c, id);
    } else {
      InsertedIsNotRunning(s, a, c);
    }
  }

  lemma OpTrusts(s: State, a: string, c: Choice, id: MachineId)
    requires Inv(s) && OpEnabled(s, a, c) && Trusted(OpStep(s, a, c), id)
    ensures Trusted(s, id) || Checks(s, EOp(a, c), id, true)
  {
    hide Inv, OpStep, PastCheck, Checks;
    var t := OpStep(s, a, c);
    OpStepFrame(s, a, c);
    if !IsRunning(s.db.machines, id) {
      if IsRunning(t.db.machines, id) {
        OpTurnsRunning(s, a, c, id);
        assert PastCheck(s.ops[a], id) by { AtMark(s.ops[a], id); }
      } else {
        var b :| b in t.ops && PastCheck(t.ops[b], id);
        if b == a { OpPassesCheck(s, a, c, id); } else { assert b in s.ops && s.ops[b] == t.ops[b]; }
      }
    }
  }

  lemma AtMark(op: Op, id: MachineId)
    requires op.pc.Mark? && op.id == id
    ensures PastCheck(op, id)
  {
  }

  lemma ReconcileTrusts(s: State, c: Choice, id: MachineId)
    requires Inv(s) && ReconcileEnabled(s, c) && Trusted(ReconcileStep(s, c), id)
    ensures Trusted(s, id)
  {
    hide Inv, PastCheck, ReconcileStep;
    ReconcileFrame(s, c);
    ReconcileRows(s, c, id);
  }

  lemma ReconcileRows(s: State, c: Choice, id: MachineId)
    requires Inv(s) && ReconcileEnabled(s, c)
    ensures IsRunning(ReconcileStep(s, c).db.machines, id) ==> IsRunning(s.db.machines, id)
  {
    hide Inv, DbOk, LeastIndexFrom;
    InMode(s);
  }

  lemma TunnelTrusts(s: State, c: Choice, id: MachineId)
    requires Inv(s) && TunnelEnabled(s) && AtApply(s, s.tun.who) && Trusted(TunnelStep(s, c), id)
    ensures Trusted(s, id)
  {
    hide Inv, DbOk, OwnOk, LoopOk, GoneOk, TunnelStep;
    TunnelRows(s, c);
    var t := TunnelStep(s, c);
    if b :| b in t.ops && PastCheck(t.ops[b], id) {
      InOp(s, b);
      assert PastCheck(s.ops[b], id);
    }
  }

  lemma StepTrusts(s: State, e: Event, id: MachineId)
    requires Inv(s) && HolderOk(s) && Enabled(s, e) && Trusted(Next(s, e), id)
    ensures Trusted(s, id) || Checks(s, e, id, true)
  {
    hide Inv, DbOk, OpStep, WatchStep, TunnelStep, ReconcileStep, Begin, PastCheck, Checks;
    var t := Next(s, e);
    match e
    case EOp(a, c) => OpTrusts(s, a, c, id);
    case EWatch(j, c) =>
      WatchFrame(s, j, c);
      WatchRows(s, j, c);
      assert j != id ==> Same(s.db.machines, t.db.machines, id);
    case EReconcile(c) => ReconcileTrusts(s, c, id);
    case ETunnel(c) => TunnelTrusts(s, c, id);
    case EBegin(a, kind) =>
      BeginFrame(s, a, kind);
      BeginUntrusted(s, a, kind, id);
      if b :| b in t.ops && PastCheck(t.ops[b], id) { assert Same(s.ops, t.ops, b); }
    case _ =>
  }

  lemma BeginUntrusted(s: State, a: string, kind: Kind, id: MachineId)
    ensures !PastCheck(Begin(s, a, kind).ops[a], id)
  {
  }

  /** The health gate, over every run: a machine is running, or its request at or
      past marking it so, only if it was at the start or its health check has
      passed since. */
  lemma {:induction false} RunsOnlyHealthy(s: State, es: seq<Event>, id: MachineId)
    requires Inv(s) && HolderOk(s) && ValidRun(s, es) && Trusted(Exec(s, es), id)
    ensures Trusted(s, id) || PassesIn(s, es, id)
    decreases es
  {
    hide Inv, HolderOk, Trusted, Checks;
    if es != [] {
      StepKeeps(s, es[0]);
      RunsOnlyHealthy(Next(s, es[0]), es[1..], id);
      if Trusted(Next(s, es[0]), id) { StepTrusts(s, es[0], id); }
    }
  }

  lemma {:induction false} StaysUp(s: State, es: seq<Event>, a: string)
    requires Inv(s) && HolderOk(s) && Up(s, a) && ValidRun(s, es)
    requires forall k | 0 <= k < |es| ::
               ValidRun(s, es[..k]) && !Disturbs(Exec(s, es[..k]), es[k], a)
    ensures exists n :: Sound(Exec(s, es), a, n)
    decreases es
  {
    hide Inv, HolderOk, Disturbs;
    if es == [] {
      assert Exec(s, es) == s;
    } else {
      assert es[..0] == [];
      assert Exec(s, es[..0]) == s;
      StepKeeps(s, es[0]);
      StepKeepsUp(s, es[0], a);
      var t, rest := Next(s, es[0]), es[1..];
      forall k | 0 <= k < |rest|
        ensures ValidRun(t, rest[..k]) && !Disturbs(Exec(t, rest[..k]), rest[k], a)
      {
        assert es[..k + 1][1..] == rest[..k] && es[..k + 1][0] == es[0];
        assert ValidRun(s, es[..k + 1]) && !Disturbs(Exec(s, es[..k + 1]), es[k + 1], a);
      }
      StaysUp(t, rest, a);
      assert Exec(s, es) == Exec(t, rest);
    }
  }

  /** Through any interleaving of deploys, restarts and scalings of any apps,
      reaping, exits of other apps' machines and tunnel re-renders, an app that
      has a sound running machine has one at every moment, and one that has passed
      its health check in that run if it was not running, or past that check, at
      the start. */
  lemma ZeroDowntime(s: State, es: seq<Event>, a: string)
    requires Inv(s) && HolderOk(s) && Up(s, a) && ValidRun(s, es)
    requires forall k | 0 <= k < |es| ::
               ValidRun(s, es[..k]) && !Disturbs(Exec(s, es[..k]), es[k], a)
    ensures exists n :: Sound(Exec(s, es), a, n) && (Trusted(s, n) || PassesIn(s, es, n))
  {
    StaysUp(s, es, a);
    hide Inv, HolderOk, Up, Disturbs, Exec, PassesIn;
    var n :| Sound(Exec(s, es), a, n);
    RunsOnlyHealthy(s, es, n);
  }
}
