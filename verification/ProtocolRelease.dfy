// The release command gates the boot, and its machine leaves no trace.

module ProtocolRelease {
  import opened Common
  import opened Tables
  import opened Protocol
  import opened ProtocolInv
  import opened ProtocolSteps
  import opened ProtocolRuns
  import opened ProtocolFlow
  import opened ProtocolTheorems
  import opened ProtocolCutover
  import opened ConsolePoll
  import ExitStatus

  // ----- the gate -------------------------------------------------------------------

  /** At or past bootFromRelease. */
  predicate Booting(pc: Pc) {
    || pc.Subnet? || pc.Insert? || BootOwn(pc) || pc.Spawn? || pc.ListOld? || Looping(pc)
    || pc.Announce? || pc.ApplyTunnel? || pc.SetOwner?
  }

  predicate GateOk(op: Op) {
    op.kind.Deploy? ==>
      && op.cfg == op.kind.config && !op.pc.FindRelease?
      && (op.kind.config.releaseCommand != "" && Booting(op.pc) ==> op.gate)
  }

  lemma GateLoad(s: State, a: string, c: Choice)
    requires OpEnabled(s, a, c) && (s.ops[a].pc.Load? || s.ops[a].pc.LoadStored? || s.ops[a].pc.LoadCached?)
    requires KindOk(s.ops[a]) && GateOk(s.ops[a])
    ensures a in OpStep(s, a, c).ops ==> GateOk(OpStep(s, a, c).ops[a]) && OpStep(s, a, c).ops[a].gate == s.ops[a].gate
  {
    hide OpOwes, Scaled;
  }

  lemma GateStored(s: State, a: string, c: Choice)
    requires OpEnabled(s, a, c) && ConfigPc(s.ops[a].pc) && KindOk(s.ops[a]) && GateOk(s.ops[a])
    requires !s.ops[a].pc.Load? && !s.ops[a].pc.LoadStored? && !s.ops[a].pc.LoadCached?
    ensures a in OpStep(s, a, c).ops ==> GateOk(OpStep(s, a, c).ops[a]) && OpStep(s, a, c).ops[a].gate == s.ops[a].gate
  {
    hide UpsertApp, InsertRelease, LatestRelease, OpOwes;
  }

  lemma GateConfig(s: State, a: string, c: Choice)
    requires OpEnabled(s, a, c) && ConfigPc(s.ops[a].pc) && KindOk(s.ops[a]) && GateOk(s.ops[a])
    ensures a in OpStep(s, a, c).ops ==> GateOk(OpStep(s, a, c).ops[a]) && OpStep(s, a, c).ops[a].gate == s.ops[a].gate
  {
    hide OpStep, GateOk;
    if s.ops[a].pc.Load? || s.ops[a].pc.LoadStored? || s.ops[a].pc.LoadCached? { GateLoad(s, a, c); } else { GateStored(s, a, c); }
  }

  lemma GateRelease(s: State, a: string, c: Choice)
    requires OpEnabled(s, a, c) && (RelOwn(s.ops[a].pc) || s.ops[a].pc.RelInsert? || s.ops[a].pc.RelSubnet?) && GateOk(s.ops[a])
    ensures a in OpStep(s, a, c).ops ==> GateOk(OpStep(s, a, c).ops[a])
    ensures a in OpStep(s, a, c).ops && OpStep(s, a, c).ops[a].gate ==> s.ops[a].gate || (s.ops[a].pc.RelWait? && Passed(c))
  {
    hide SubnetForOwner, AllocAndInsertMachine, DeleteMachine, OpOwes, GateOk, Booting, Passed;
    var op, t := s.ops[a], OpStep(s, a, c);
    assert a in t.ops ==>
        && t.ops[a] == op.(pc := t.ops[a].pc, id := t.ops[a].id, idx := t.ops[a].idx, gate := t.ops[a].gate)
        && (t.ops[a].pc.RelInsert? || RelOwn(t.ops[a].pc) || (t.ops[a].pc.Subnet? && op.gate))
        && (t.ops[a].gate == op.gate || (op.pc.RelWait? && t.ops[a].pc.RelStop? && t.ops[a].gate == Passed(c))
            || (op.pc.RelStart? && t.ops[a].pc.RelDelete? && !t.ops[a].gate));
    hide OpStep;
    if a in t.ops { GateHeld(op, t.ops[a]); }
  }

  lemma GateHeld(op: Op, op': Op)
    requires GateOk(op) && op'.kind == op.kind && op'.cfg == op.cfg
    requires op'.pc.RelInsert? || RelOwn(op'.pc) || (op'.pc.Subnet? && op'.gate)
    ensures GateOk(op')
  {
  }

  lemma GateBoot(s: State, a: string, c: Choice)
    requires OpEnabled(s, a, c) && (BootOwn(s.ops[a].pc) || s.ops[a].pc.Subnet? || s.ops[a].pc.Insert?) && GateOk(s.ops[a])
    ensures a in OpStep(s, a, c).ops ==> GateOk(OpStep(s, a, c).ops[a]) && OpStep(s, a, c).ops[a].gate == s.ops[a].gate
  {
    hide SubnetForOwner, AllocAndInsertMachine, DeleteMachine, SetMachineState, OpOwes, GateOk;
    var op, t := s.ops[a], OpStep(s, a, c);
    assert a in t.ops ==> t.ops[a] == op.(pc := t.ops[a].pc, id := t.ops[a].id, idx := t.ops[a].idx) && !t.ops[a].pc.FindRelease?;
    hide OpStep;
    assert Booting(op.pc);
    if a in t.ops { GateMoved(op, t.ops[a]); }
  }

  lemma GateLate(s: State, a: string, c: Choice)
    requires OpEnabled(s, a, c) && GateOk(s.ops[a]) && KindOk(s.ops[a])
    requires !NoMachine(s.ops[a].pc) && !RelOwn(s.ops[a].pc) && !BootOwn(s.ops[a].pc)
    ensures a in OpStep(s, a, c).ops ==> GateOk(OpStep(s, a, c).ops[a]) && OpStep(s, a, c).ops[a].gate == s.ops[a].gate
  {
    hide OpOwes;
    var op, t := s.ops[a], OpStep(s, a, c);
    assert a in t.ops ==> t.ops[a] == op.(pc := t.ops[a].pc, todo := t.ops[a].todo, cur := t.ops[a].cur) && !t.ops[a].pc.FindRelease?;
    hide OpStep;
    if a in t.ops { GateMoved(op, t.ops[a]); }
  }

  lemma GateMoved(op: Op, op': Op)
    requires GateOk(op) && op'.kind == op.kind && op'.cfg == op.cfg && op'.gate == op.gate
    requires (op.kind.Deploy? ==> Booting(op.pc)) && !op'.pc.FindRelease?
    ensures GateOk(op')
  {
  }

  /** Wait has returned on a machine that is gone, and polling its console log
      finds exit status 0. */
  ghost predicate ReportsZero(s: State, e: Event, a: string) {
    && e.EOp? && e.app == a && a in s.ops && s.ops[a].pc.RelWait?
    && e.c.ok && ExitStatus.Polled(e.c.polls) == Some(0)
    && s.ops[a].id in s.vm.procs && !s.vm.procs[s.ops[a].id].live
  }

  /** The gate opens only on such a step; from then on nothing closes it. */
  lemma GateOpensOnReportedSuccess(s: State, a: string, c: Choice)
    requires Inv(s) && OpEnabled(s, a, c) && GateOk(s.ops[a])
    ensures var t := OpStep(s, a, c);
            a in t.ops ==>
              && GateOk(t.ops[a])
              && (t.ops[a].gate && !s.ops[a].gate ==> ReportsZero(s, EOp(a, c), a))
  {
    hide Inv, DbOk, OwnOk, LoopOk, GoneOk, OpStep, GateOk, ExitStatus.Polled;
    InOp(s, a);
    var pc := s.ops[a].pc;
    if ConfigPc(pc) { GateConfig(s, a, c); }
    else if RelOwn(pc) || pc.RelInsert? || pc.RelSubnet? { GateRelease(s, a, c); }
    else if BootOwn(pc) || pc.Subnet? || pc.Insert? { GateBoot(s, a, c); }
    else { GateLate(s, a, c); }
  }

  // ----- the release machine's row ----------------------------------------------------

  ghost predicate InRelease(s: State, id: MachineId) {
    id in s.ids.appOf && s.ids.appOf[id] in s.ops && RelOwn(s.ops[s.ids.appOf[id]].pc) && s.ops[s.ids.appOf[id]].id == id
  }

  /** A release machine's row lives only while its request is between inserting
      and deleting it, unless that delete failed. */
  ghost predicate RelRows(s: State) {
    forall id | id in s.ids.relIds && id in s.db.machines :: id in s.h.leaked || InRelease(s, id)
  }

  ghost predicate Gates(s: State) {
    forall a | a in s.ops :: GateOk(s.ops[a])
  }

  ghost predicate ReleaseOk(s: State) {
    Gates(s) && RelRows(s)
  }

  /** A request's claim on a release row moves as its step says. */
  ghost predicate RelMove(s: State, t: State, a: string, c: Choice)
    requires a in s.ops
  {
    var op := s.ops[a];
    && s.h.leaked <= t.h.leaked
    && (t.ids.relIds == s.ids.relIds
        || (op.pc.RelInsert? && t.ids.relIds == s.ids.relIds + {c.id} && t.ids.appOf == s.ids.appOf[c.id := a]
            && a in t.ops && RelOwn(t.ops[a].pc) && t.ops[a].id == c.id))
    && (forall id | id in t.db.machines :: id in s.db.machines || (InsertPc(op.pc) && id == c.id))
    && (RelOwn(op.pc) ==>
          || (a in t.ops && RelOwn(t.ops[a].pc) && t.ops[a].id == op.id)
          || op.id !in t.db.machines || op.id in t.h.leaked)
  }

  lemma RelMoveConfig(s: State, a: string, c: Choice)
    requires OpEnabled(s, a, c) && ConfigPc(s.ops[a].pc)
    ensures RelMove(s, OpStep(s, a, c), a, c)
  {
    hide OpOwes, Scaled, LatestRelease, MaxKey;
  }

  lemma RelMoveSubnet(s: State, a: string, c: Choice)
    requires OpEnabled(s, a, c) && (s.ops[a].pc.RelSubnet? || s.ops[a].pc.Subnet?)
    ensures RelMove(s, OpStep(s, a, c), a, c)
  {
    hide OpOwes, LeastIndexFrom;
  }

  lemma RelMoveInsert(s: State, a: string, c: Choice)
    requires OpEnabled(s, a, c) && InsertPc(s.ops[a].pc)
    ensures RelMove(s, OpStep(s, a, c), a, c)
  {
    var r := AllocAndInsertMachine(s.db, c.id, a, s.ops[a].rel, s.ops[a].idx);
    assert r.Some? ==> r.value.0.machines.Keys == s.db.machines.Keys + {c.id};
    hide OpOwes, FreeIp, AllocAndInsertMachine, RelMove;
    InsertShape(s, a, c);
    assert !RelOwn(s.ops[a].pc);
    hide OpStep;
    InsertedMove(s, OpStep(s, a, c), a, c);
  }

  /** Inserting a row changes these, or nothing. */
  ghost predicate RowInserted(s: State, t: State, a: string, c: Choice)
    requires a in s.ops
  {
    && t.h.leaked == s.h.leaked
    && ((t.ids == s.ids && t.db == s.db)
        || (&& t.db.machines.Keys == s.db.machines.Keys + {c.id} && t.ids.appOf == s.ids.appOf[c.id := a]
            && t.ids.relIds == (if s.ops[a].pc.RelInsert? then s.ids.relIds + {c.id} else s.ids.relIds)
            && a in t.ops && t.ops[a].id == c.id && (s.ops[a].pc.RelInsert? ==> t.ops[a].pc.RelStart?)))
  }

  lemma InsertShape(s: State, a: string, c: Choice)
    requires OpEnabled(s, a, c) && InsertPc(s.ops[a].pc)
    requires var r := AllocAndInsertMachine(s.db, c.id, a, s.ops[a].rel, s.ops[a].idx);
             r.Some? ==> r.value.0.machines.Keys == s.db.machines.Keys + {c.id}
    ensures RowInserted(s, OpStep(s, a, c), a, c)
  {
    hide OpOwes, AllocAndInsertMachine;
  }

  lemma InsertedMove(s: State, t: State, a: string, c: Choice)
    requires a in s.ops && InsertPc(s.ops[a].pc) && RowInserted(s, t, a, c)
    ensures RelMove(s, t, a, c)
  {
    if t.db.machines.Keys == s.db.machines.Keys + {c.id} {
      assert forall id | id in t.db.machines :: id in t.db.machines.Keys && (id in s.db.machines.Keys || id == c.id);
    }
  }

  lemma RelMoveRelease(s: State, a: string, c: Choice)
    requires OpEnabled(s, a, c) && RelOwn(s.ops[a].pc)
    ensures RelMove(s, OpStep(s, a, c), a, c)
  {
    hide OpOwes;
  }

  lemma RelMoveBoot(s: State, a: string, c: Choice)
    requires OpEnabled(s, a, c) && (BootOwn(s.ops[a].pc) || s.ops[a].pc.Spawn?)
    ensures RelMove(s, OpStep(s, a, c), a, c)
  {
    hide OpOwes;
  }

  lemma RelMoveLate(s: State, a: string, c: Choice)
    requires OpEnabled(s, a, c) && !NoMachine(s.ops[a].pc) && !Holds(s.ops[a].pc) && !s.ops[a].pc.Spawn?
    ensures RelMove(s, OpStep(s, a, c), a, c)
  {
    hide OpOwes;
  }

  lemma RelMoves(s: State, a: string, c: Choice)
    requires OpEnabled(s, a, c)
    ensures RelMove(s, OpStep(s, a, c), a, c) && IdsGrow(s, OpStep(s, a, c), a, c) && OwnMove(s, OpStep(s, a, c), a)
  {
    hide OpStep, RelMove, IdsGrow, OwnMove;
    var pc := s.ops[a].pc;
    OpStepFrame(s, a, c);
    OpIds(s, a, c);
    if ConfigPc(pc) { RelMoveConfig(s, a, c); }
    else if InsertPc(pc) { RelMoveInsert(s, a, c); }
    else if NoMachine(pc) { RelMoveSubnet(s, a, c); }
    else if RelOwn(pc) { RelMoveRelease(s, a, c); }
    else if BootOwn(pc) || pc.Spawn? { RelMoveBoot(s, a, c); }
    else { RelMoveLate(s, a, c); }
  }

  lemma OpKeepsRelRows(s: State, a: string, c: Choice)
    requires Inv(s) && OpEnabled(s, a, c) && RelRows(s)
    ensures RelRows(OpStep(s, a, c))
  {
    hide Inv, OpStep, RelOwn, InsertPc;
    var op, t := s.ops[a], OpStep(s, a, c);
    RelMoves(s, a, c);
    assert InsertPc(op.pc) ==> c.id !in s.ids.appOf by { FreshInsert(s, a, c); }
    forall id | id in t.ids.relIds && id in t.db.machines ensures id in t.h.leaked || InRelease(t, id) {
      AnId(s, id);
    }
  }

  lemma FreshInsert(s: State, a: string, c: Choice)
    requires OpEnabled(s, a, c)
    ensures InsertPc(s.ops[a].pc) ==> c.id !in s.ids.appOf
  {
  }

  /** Every other task leaves claims and release rows alone, or loses rows. */
  ghost predicate NoRelease(s: State, t: State) {
    && t.ids.relIds == s.ids.relIds && t.ids.appOf == s.ids.appOf && s.h.leaked <= t.h.leaked
    && (forall id | id in t.db.machines :: id in s.db.machines)
    && (forall a | a in s.ops && RelOwn(s.ops[a].pc) ::
          (a in t.ops && t.ops[a] == s.ops[a]) || s.ops[a].id in t.h.leaked)
  }

  lemma NoReleaseKeeps(s: State, t: State)
    requires RelRows(s) && NoRelease(s, t)
    ensures RelRows(t)
  {
    hide RelOwn;
  }

  lemma ReconcileIsNoRelease(s: State, c: Choice)
    requires Inv(s) && ReconcileEnabled(s, c)
    ensures NoRelease(s, ReconcileStep(s, c)) && ReconcileStep(s, c).ops == map[]
  {
    hide Inv;
    InMode(s);
  }

  lemma WatchIsNoRelease(s: State, id: MachineId, c: Choice)
    requires WatchEnabled(s, id)
    ensures NoRelease(s, WatchStep(s, id, c)) && WatchStep(s, id, c).ops == s.ops
  {
  }

  lemma TunnelIsNoRelease(s: State, c: Choice)
    requires TunnelEnabled(s) && AtApply(s, s.tun.who)
    ensures NoRelease(s, TunnelStep(s, c))
    ensures Gates(s) ==> Gates(TunnelStep(s, c))
  {
    TunnelRows(s, c);
    hide TunnelStep;
  }

  lemma RestIsNoRelease(s: State, e: Event)
    requires Enabled(s, e) && (e.EBegin? || e.EAcquire? || e.EExit? || e.EBeginStop? || e.EStopAll? || e.EReboot?)
    ensures NoRelease(s, Next(s, e))
    ensures Gates(s) ==> Gates(Next(s, e))
  {
    var t := Next(s, e);
    if e.EReboot? {
      forall a | a in s.ops ensures s.ops[a].id in t.h.leaked { }
    } else if e.EBegin? {
      assert GateOk(t.ops[e.app]);
    }
  }

  lemma StepKeepsRelease(s: State, e: Event)
    requires Inv(s) && HolderOk(s) && Enabled(s, e) && ReleaseOk(s)
    ensures ReleaseOk(Next(s, e))
  {
    hide Inv, HolderOk, OpStep, WatchStep, TunnelStep, ReconcileStep, GateOk, NoRelease, RelRows, RelOwn;
    var t := Next(s, e);
    match e
    case EOp(a, c) =>
      assert GateOk(s.ops[a]);
      OpKeepsRelRows(s, a, c);
      GateOpensOnReportedSuccess(s, a, c);
      OpStepFrame(s, a, c);
    case EWatch(id, c) => WatchIsNoRelease(s, id, c); NoReleaseKeeps(s, t);
    case ETunnel(c) => HeldAtApply(s); TunnelIsNoRelease(s, c); NoReleaseKeeps(s, t);
    case EReconcile(c) => ReconcileIsNoRelease(s, c); NoReleaseKeeps(s, t);
    case _ => RestIsNoRelease(s, e); NoReleaseKeeps(s, t);
  }

  lemma NowGated(s: State)
    requires Inv(s) && ReleaseOk(s)
    ensures forall id | id in s.ids.relIds :: !IsRunning(s.db.machines, id)
    ensures forall id | id in s.ids.relIds && id in s.db.machines :: id in s.h.leaked || InRelease(s, id)
    ensures forall a | a in s.ops && s.ops[a].kind.Deploy? && s.ops[a].kind.config.releaseCommand != "" && !s.ops[a].gate ::
              !Booting(s.ops[a].pc)
  {
    hide Inv, Booting, RelOwn;
    forall id | id in s.ids.relIds ensures !IsRunning(s.db.machines, id) { AnId(s, id); }
    assert forall a | a in s.ops :: GateOk(s.ops[a]);
  }

  lemma StartsOk()
    ensures Inv(INIT) && HolderOk(INIT) && ReleaseOk(INIT)
  {
    InitOk();
  }

  /** In every reachable state: a release machine is never running; its row is
      gone once its request has moved on, unless deleting it failed or the
      daemon died first; and a deploy whose release command has not been
      reported successful is nowhere in bootFromRelease. */
  lemma {:induction false} ReleaseIsGated(s: State, es: seq<Event>)
    requires Inv(s) && HolderOk(s) && ReleaseOk(s) && ValidRun(s, es)
    ensures var t := Exec(s, es);
            && (forall id | id in t.ids.relIds :: !IsRunning(t.db.machines, id))
            && (forall id | id in t.ids.relIds && id in t.db.machines :: id in t.h.leaked || InRelease(t, id))
            && (forall a | a in t.ops && t.ops[a].kind.Deploy? && t.ops[a].kind.config.releaseCommand != "" && !t.ops[a].gate ::
                  !Booting(t.ops[a].pc))
    decreases es
  {
    hide Inv, HolderOk, ReleaseOk;
    if es == [] {
      NowGated(s);
      assert Exec(s, es) == s;
    } else {
      StepKeeps(s, es[0]);
      StepKeepsRelease(s, es[0]);
      ReleaseIsGated(Next(s, es[0]), es[1..]);
      assert Exec(s, es) == Exec(Next(s, es[0]), es[1..]);
    }
  }

  // ----- back to what oak-init printed -----------------------------------------------------

  ghost predicate GateUp(s: State, a: string) {
    a in s.ops && s.ops[a].gate
  }

  /** Reads of this console log, at the end of a Wait without error. */
  ghost predicate PollsOf(s: State, a: string, c: Choice, log: Console)
    requires a in s.ops
  {
    s.ops[a].pc.RelWait? && c.ok && WellFormed(log) && ReadsOf(c.polls, Log(log))
  }

  /** Where the guest's own output has no marker and a read reaches oak-init's
      number, the gate opens if and only if that number is 0. */
  lemma PrintedZeroOpens(s: State, a: string, c: Choice, log: Console, i: nat)
    requires OpEnabled(s, a, c) && PollsOf(s, a, c, log)
    requires log.Printed? && !ExitStatus.Contains(log.before, ExitStatus.MARKER)
    requires i < |c.polls| && c.polls[i].Some? && |c.polls[i].value| > |log.before| + |ExitStatus.MARKER|
    ensures a in OpStep(s, a, c).ops && (OpStep(s, a, c).ops[a].gate <==> log.n == 0)
  {
    PollFindsTheStatus(log, c.polls, i);
    hide ExitStatus.Polled, ExitStatus.Contains, ReadsOf, WellFormed;
  }

  /** The gate opens only on a printed 0, wherever the reads of the log fall, if and
      only if 0 was printed or the guest's own output before oak-init's line, or
      before a crash, has no marker of its own with a number that starts in 0. */
  lemma GateIsSafeExactly(s: State, a: string, log: Console)
    requires a in s.ops && s.ops[a].pc.RelWait? && s.ops[a].id in s.vm.procs && !s.vm.procs[s.ops[a].id].live && WellFormed(log)
    ensures (forall c :: OpEnabled(s, a, c) && PollsOf(s, a, c, log) && GateUp(OpStep(s, a, c), a) ==> ExitedZero(log))
            <==> ExitedZero(log) || Honest(log)
  {
    PollIsSafeExactly(log);
    forall c | OpEnabled(s, a, c) ensures GateUp(OpStep(s, a, c), a) <==> Passed(c) { WaitGate(s, a, c); }
    hide ReadsOf, WellFormed, Honest, Log, ExitStatus.Polled, OpStep, GateUp, OpEnabled, ExitedZero;
    if !ExitedZero(log) && !Honest(log) {
      var polls: seq<Option<string>> :| ReadsOf(polls, Log(log)) && ExitStatus.Polled(polls) == Some(0);
      var c := Choice(true, false, 0, 0, polls);
      assert OpEnabled(s, a, c) by { WaitCanEnd(s, a, c); }
      assert PollsOf(s, a, c, log) && GateUp(OpStep(s, a, c), a);
    }
  }

  lemma WaitGate(s: State, a: string, c: Choice)
    requires OpEnabled(s, a, c) && s.ops[a].pc.RelWait?
    ensures GateUp(OpStep(s, a, c), a) <==> Passed(c)
  {
    hide Passed;
  }

  lemma WaitCanEnd(s: State, a: string, c: Choice)
    requires a in s.ops && s.ops[a].pc.RelWait? && s.ops[a].id in s.vm.procs && !s.vm.procs[s.ops[a].id].live
    ensures OpEnabled(s, a, c)
  {
  }

  /** Somewhere in the run the release machine of `a`'s latest request reported 0. */
  ghost predicate ReportedIn(s: State, es: seq<Event>, a: string)
    requires ValidRun(s, es)
    decreases es
  {
    es != [] &&
      (ReportedIn(Next(s, es[0]), es[1..], a)
       || (ReportsZero(s, es[0], a) && forall e | e in es[1..] :: !Begins(e, a)))
  }

  lemma StepOpensGate(s: State, e: Event, a: string)
    requires Inv(s) && HolderOk(s) && Enabled(s, e) && ReleaseOk(s) && GateUp(Next(s, e), a)
    ensures (GateUp(s, a) && !Begins(e, a)) || ReportsZero(s, e, a)
  {
    hide Inv, HolderOk, OpStep, WatchStep, TunnelStep, ReconcileStep, GateOk, RelRows, ReportsZero;
    match e
    case EOp(b, c) =>
      assert GateOk(s.ops[b]);
      GateOpensOnReportedSuccess(s, b, c);
      OpStepFrame(s, b, c);
    case EWatch(id, c) => WatchIsNoRelease(s, id, c);
    case ETunnel(c) => HeldAtApply(s); TunnelRows(s, c);
    case EReconcile(c) => ReconcileIsNoRelease(s, c);
    case _ =>
  }

  lemma {:induction false} GateWasReported(s: State, es: seq<Event>, a: string)
    requires Inv(s) && HolderOk(s) && ReleaseOk(s) && ValidRun(s, es) && GateUp(Exec(s, es), a)
    ensures (GateUp(s, a) && forall e | e in es :: !Begins(e, a)) || ReportedIn(s, es, a)
    decreases es
  {
    hide Inv, HolderOk, ReleaseOk, GateUp, ReportsZero;
    if es != [] {
      var t, rest := Next(s, es[0]), es[1..];
      StepKeeps(s, es[0]);
      StepKeepsRelease(s, es[0]);
      GateWasReported(t, rest, a);
      if GateUp(t, a) { StepOpensGate(s, es[0], a); }
      assert es == [es[0]] + rest;
    }
  }

  /** A deploy with a release command boots a machine only after its own release
      machine is gone and its console log reported exit status 0. */
  lemma BootsOnlyOnReportedZero(s: State, es: seq<Event>, a: string)
    requires Inv(s) && HolderOk(s) && ReleaseOk(s) && ValidRun(s, es) && a !in s.ops
    ensures var t := Exec(s, es);
            a in t.ops && t.ops[a].kind.Deploy? && t.ops[a].kind.config.releaseCommand != "" && Booting(t.ops[a].pc)
            ==> ReportedIn(s, es, a)
  {
    ReleaseIsGated(s, es);
    var t := Exec(s, es);
    hide Inv, HolderOk, ReleaseOk, ReportedIn, Booting;
    if GateUp(t, a) { GateWasReported(s, es, a); }
  }

  /** The console logs of the run's release machines, by id: each step that ends a
      Wait of `a`'s polls its own machine's, which is honest or printed a 0. */
  ghost predicate HonestLogs(s: State, es: seq<Event>, a: string, logs: MachineId -> Console)
    requires ValidRun(s, es)
    decreases es
  {
    es != [] ==>
      && (es[0].EOp? && es[0].app == a && a in s.ops && s.ops[a].pc.RelWait? && es[0].c.ok ==>
            var log := logs(s.ops[a].id);
            PollsOf(s, a, es[0].c, log) && (ExitedZero(log) || Honest(log)))
      && HonestLogs(Next(s, es[0]), es[1..], a, logs)
  }

  /** Somewhere in the run the release machine of `a`'s latest request had printed 0. */
  ghost predicate PrintedIn(s: State, es: seq<Event>, a: string, logs: MachineId -> Console)
    requires ValidRun(s, es)
    decreases es
  {
    es != [] &&
      (PrintedIn(Next(s, es[0]), es[1..], a, logs)
       || (ReportsZero(s, es[0], a) && ExitedZero(logs(s.ops[a].id)) && forall e | e in es[1..] :: !Begins(e, a)))
  }

  lemma {:induction false} ReportedIsPrinted(s: State, es: seq<Event>, a: string, logs: MachineId -> Console)
    requires ValidRun(s, es) && HonestLogs(s, es, a, logs) && ReportedIn(s, es, a)
    ensures PrintedIn(s, es, a, logs)
    decreases es
  {
    hide Enabled, Next, ExitStatus.Polled, Honest, ExitedZero, WellFormed, ReadsOf, Log;
    if ReportedIn(Next(s, es[0]), es[1..], a) {
      ReportedIsPrinted(Next(s, es[0]), es[1..], a, logs);
    } else {
      HonestPoll(logs(s.ops[a].id), es[0].c.polls);
    }
  }

  lemma HonestPoll(log: Console, polls: seq<Option<string>>)
    requires WellFormed(log) && ReadsOf(polls, Log(log)) && (ExitedZero(log) || Honest(log)) && ExitStatus.Polled(polls) == Some(0)
    ensures ExitedZero(log)
  {
    PollIsSafeExactly(log);
    hide WellFormed, ReadsOf, Log, Honest, ExitStatus.Polled, ExitedZero;
  }

  /** So over every run whose release machines' own output is honest, or whose
      release commands exit 0, a deploy with a release command boots a machine only
      after its own release machine is gone and oak-init printed exit status 0. */
  lemma BootsOnlyOnPrintedZero(s: State, es: seq<Event>, a: string, logs: MachineId -> Console)
    requires Inv(s) && HolderOk(s) && ReleaseOk(s) && ValidRun(s, es) && a !in s.ops && HonestLogs(s, es, a, logs)
    ensures var t := Exec(s, es);
            a in t.ops && t.ops[a].kind.Deploy? && t.ops[a].kind.config.releaseCommand != "" && Booting(t.ops[a].pc)
            ==> PrintedIn(s, es, a, logs)
  {
    BootsOnlyOnReportedZero(s, es, a);
    hide Inv, HolderOk, ReleaseOk, Booting, PrintedIn, HonestLogs, Exec, ValidRun;
    if ReportedIn(s, es, a) { ReportedIsPrinted(s, es, a, logs); }
  }
}
