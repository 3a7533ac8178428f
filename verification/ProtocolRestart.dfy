// Graceful restart: StopAll loses no row of a live machine, and Reconcile
// brings exactly those machines back at the same addresses.

module ProtocolRestart {
  import opened Common
  import opened Tables
  import opened Protocol
  import opened ProtocolInv
  import opened ProtocolSteps
  import opened ProtocolRuns
  import opened ProtocolTheorems
  import opened ProtocolCutover

  /** While stopping with no request in flight, rows of machines that were alive
      when the flag went up are untouched, and their watchers have not looked yet. */
  ghost predicate StopKept(s: State) {
    s.mode.Stopping? && s.h.quiet ==>
      && s.ops == map[]
      && (forall id | id in s.h.kept ::
            && id in s.db.machines && s.db.machines[id] == s.h.kept[id] && s.h.kept[id].state == Running
            && (id in s.vm.watchers ==> s.vm.watchers[id].pc.Waiting?))
  }

  /** The next start finds them, and Reconcile lists them. */
  ghost predicate ListKept(s: State) {
    s.mode.Reconciling? && s.h.quiet ==>
      var rows := if s.mode.rpc.RList? then s.db.machines else s.h.base;
      forall id | id in s.h.kept :: id in rows && rows[id] == s.h.kept[id] && s.h.kept[id].state == Running
  }

  /** What has become of a row listed by Reconcile: not reached yet; or failed to
      start; or restarted, with only its pid new; or exited again by itself.
      Rows that were not running, and processes for them, do not come into it. */
  ghost predicate RowPlan(s: State, id: MachineId) {
    var rows, base := s.db.machines, s.h.base;
    && (id in rows ==> id in base && rows[id] == base[id].(state := rows[id].state, pid := rows[id].pid))
    && (id in s.vm.procs ==> id in base && base[id].state == Running)
    && (id in base && base[id].state != Running ==> id in rows && rows[id] == base[id])
    && (IsRunning(base, id) && id in rows && rows[id].state == Failed ==> id in s.h.rfailed)
    && (id in base && base[id].state == Running ==>
          if Unprocessed(s.mode, id) then id in rows && rows[id] == base[id]
          else
            || (id in s.h.rfailed && id in rows && (rows[id].state == Failed || s.h.reapFault))
            || id in s.ids.crashed
            || (id in rows && rows[id].state == Running && id in s.vm.procs))
  }

  ghost predicate Planned(s: State) {
    s.mode.Reconciling? ==>
      && s.ids.stopped == {}
      && (!s.mode.rpc.RList? ==> forall id :: RowPlan(s, id))
  }

  ghost predicate RestartOk(s: State) {
    StopKept(s) && ListKept(s) && Planned(s)
  }

  // ----- stopping ---------------------------------------------------------------------

  lemma BeginStopKept(s: State)
    requires Inv(s) && s.mode.Serving?
    ensures StopKept(BeginStop(s))
  {
    hide Inv;
    forall id | id in s.vm.procs && s.vm.procs[id].live && id in s.vm.watchers ensures s.vm.watchers[id].pc.Waiting? { AnId(s, id); }
  }

  lemma WatchStopKept(s: State, id: MachineId, c: Choice)
    requires Inv(s) && WatchEnabled(s, id) && StopKept(s)
    ensures StopKept(WatchStep(s, id, c))
  {
    hide Inv;
    WatchRows(s, id, c);
    WatchFrame(s, id, c);
    var t := WatchStep(s, id, c);
    assert t.h.kept == s.h.kept && t.h.quiet == s.h.quiet;
    assert s.mode.Stopping? && id in s.vm.watchers && s.vm.watchers[id].pc.Waiting? ==> t == EndWatch(s, id);
    hide WatchStep;
    if t.mode.Stopping? && t.h.quiet {
      forall j | j in t.h.kept
        ensures j in t.db.machines && t.db.machines[j] == t.h.kept[j]
        ensures j in t.vm.watchers ==> t.vm.watchers[j].pc.Waiting?
      {
        if j != id { assert Same(s.db.machines, t.db.machines, j) && Same(s.vm.watchers, t.vm.watchers, j); }
      }
    }
  }

  lemma TunnelKeepsRestart(s: State, c: Choice)
    requires Inv(s) && TunnelEnabled(s) && AtApply(s, s.tun.who) && RestartOk(s)
    ensures RestartOk(TunnelStep(s, c))
  {
    TunnelRows(s, c);
    hide TunnelStep, Inv;
    var t := TunnelStep(s, c);
    if t.mode.Reconciling? && !t.mode.rpc.RList? {
      forall id ensures RowPlan(t, id) { assert RowPlan(s, id); }
    }
  }

  // ----- reconciling --------------------------------------------------------------------

  /** A step that touches one id while Reconcile runs. */
  lemma OnePlan(s: State, t: State, id: MachineId)
    requires s.mode.Reconciling? && t.mode.Reconciling? && !s.mode.rpc.RList? && !t.mode.rpc.RList?
    requires Planned(s) && t.ids.stopped == {}
    requires forall j | j != id ::
               && Same(s.db.machines, t.db.machines, j) && (j in t.vm.procs <==> j in s.vm.procs)
               && (j in s.ids.crashed ==> j in t.ids.crashed) && (j in s.h.rfailed ==> j in t.h.rfailed)
               && (Unprocessed(t.mode, j) <==> Unprocessed(s.mode, j))
    requires t.h.base == s.h.base && (s.h.reapFault ==> t.h.reapFault)
    requires RowPlan(t, id)
    ensures Planned(t)
  {
    forall j ensures RowPlan(t, j) {
      if j != id {
        assert RowPlan(s, j);
        assert Same(s.db.machines, t.db.machines, j);
      }
    }
  }

  lemma WatchPlan(s: State, id: MachineId, c: Choice)
    requires Inv(s) && WatchEnabled(s, id) && Planned(s)
    ensures Planned(WatchStep(s, id, c))
  {
    hide Inv, DbOk;
    if s.mode.Reconciling? {
      var t := WatchStep(s, id, c);
      InMode(s);
      AnId(s, id);
      WatchRows(s, id, c);
      WatchFrame(s, id, c);
      assert t.h.base == s.h.base && t.h.rfailed == s.h.rfailed && (s.h.reapFault ==> t.h.reapFault);
      hide WatchStep;
      assert RowPlan(s, id);
      assert id in s.ids.crashed || t.db == s.db;
      OnePlan(s, t, id);
    }
  }

  lemma ListPlan(s: State, c: Choice)
    requires Inv(s) && ReconcileEnabled(s, c) && Planned(s) && s.mode.rpc.RList?
    ensures Planned(DoRList(s, c))
  {
    hide Inv, DbOk;
    InMode(s);
  }

  lemma NextPlan(s: State, c: Choice)
    requires Inv(s) && ReconcileEnabled(s, c) && Planned(s) && s.mode.rpc.RNext?
    ensures Planned(DoRNext(s, c))
  {
    hide Inv, DbOk;
    InMode(s);
    var t := DoRNext(s, c);
    forall j ensures RowPlan(t, j) { assert RowPlan(s, j); }
  }

  /** Loading the configuration and the subnet: no row and no process yet. */
  lemma PreparePlan(s: State, c: Choice)
    requires Inv(s) && ReconcileEnabled(s, c) && Planned(s)
    requires s.mode.rpc.RLoad? || s.mode.rpc.RLoadStored? || s.mode.rpc.RLoadCached? || s.mode.rpc.RSubnet? || s.mode.rpc.RApply?
    ensures Planned(ReconcileStep(s, c))
  {
    hide Inv, DbOk;
    var t := ReconcileStep(s, c);
    assert t.db.machines == s.db.machines && t.vm == s.vm && t.ids == s.ids && t.h == s.h;
    assert t.mode.Reconciling? && t.mode.rtodo == s.mode.rtodo && t.mode.rcur == s.mode.rcur && !t.mode.rpc.RList?;
    assert !t.mode.rpc.RNext? && !t.mode.rpc.RSpawn?;
    hide ReconcileStep;
    forall j ensures RowPlan(t, j) { assert RowPlan(s, j); }
  }

  lemma StartPlan(s: State, c: Choice)
    requires Inv(s) && ReconcileEnabled(s, c) && Planned(s) && (s.mode.rpc.RStart? || s.mode.rpc.RHandle? || s.mode.rpc.RSpawn?)
    ensures Planned(ReconcileStep(s, c))
  {
    hide Inv, DbOk;
    InMode(s);
    assert RowPlan(s, s.mode.rcur);
    OnePlan(s, ReconcileStep(s, c), s.mode.rcur);
  }

  lemma MarkPlan(s: State, c: Choice)
    requires Inv(s) && ReconcileEnabled(s, c) && Planned(s) && (s.mode.rpc.RMark? || s.mode.rpc.RFail?)
    ensures Planned(ReconcileStep(s, c))
  {
    hide Inv, DbOk;
    InMode(s);
    assert RowPlan(s, s.mode.rcur);
    OnePlan(s, ReconcileStep(s, c), s.mode.rcur);
  }

  lemma ReconcilePlan(s: State, c: Choice)
    requires Inv(s) && ReconcileEnabled(s, c) && RestartOk(s)
    ensures RestartOk(ReconcileStep(s, c))
  {
    ReconcileQuiet(s, c);
    hide Inv, ReconcileStep, DoRList, DoRNext;
    match s.mode.rpc
    case RList => ListPlan(s, c); assert ReconcileStep(s, c) == DoRList(s, c) by { ListStep(s, c); }
    case RNext => NextPlan(s, c); assert ReconcileStep(s, c) == DoRNext(s, c) by { ListStep(s, c); }
    case RStart => StartPlan(s, c);
    case RHandle => StartPlan(s, c);
    case RSpawn => StartPlan(s, c);
    case RMark => MarkPlan(s, c);
    case RFail => MarkPlan(s, c);
    case _ => PreparePlan(s, c);
  }

  lemma ListStep(s: State, c: Choice)
    requires ReconcileEnabled(s, c)
    ensures s.mode.rpc.RList? ==> ReconcileStep(s, c) == DoRList(s, c)
    ensures s.mode.rpc.RNext? ==> ReconcileStep(s, c) == DoRNext(s, c)
  {
  }

  lemma ReconcileQuiet(s: State, c: Choice)
    requires ReconcileEnabled(s, c) && ListKept(s)
    ensures ListKept(ReconcileStep(s, c)) && !ReconcileStep(s, c).mode.Stopping?
  {
  }

  // ----- every step, every run ------------------------------------------------------------

  lemma RebootKept(s: State)
    requires StopKept(s)
    ensures RestartOk(Reboot(s))
  {
  }

  lemma ExitPlan(s: State, id: MachineId)
    requires Inv(s) && id in s.vm.procs && s.vm.procs[id].live && RestartOk(s)
    ensures RestartOk(Exit(s, id))
  {
    hide Inv;
    var t := Exit(s, id);
    if t.mode.Reconciling? && !t.mode.rpc.RList? {
      forall j ensures RowPlan(t, j) { assert RowPlan(s, j); }
    }
  }

  /** A request's step while stopping is never quiet. */
  lemma OpKeepsRestart(s: State, a: string, c: Choice)
    requires Inv(s) && OpEnabled(s, a, c) && RestartOk(s)
    ensures RestartOk(OpStep(s, a, c))
  {
    hide Inv, OpStep, OpEnabled;
    assert a in s.ops by { IsRequest(s, a, c); }
    InOp(s, a);
    OpStepFrame(s, a, c);
    OpIds(s, a, c);
  }

  lemma IsRequest(s: State, a: string, c: Choice)
    requires OpEnabled(s, a, c)
    ensures a in s.ops
  {
  }

  lemma WatchKeepsRestart(s: State, id: MachineId, c: Choice)
    requires Inv(s) && WatchEnabled(s, id) && RestartOk(s)
    ensures RestartOk(WatchStep(s, id, c))
  {
    WatchStopKept(s, id, c);
    WatchPlan(s, id, c);
    WatchFrame(s, id, c);
    InMode(s);
    hide Inv, Planned, StopKept;
    assert WatchStep(s, id, c).h == s.h.(reapFault := WatchStep(s, id, c).h.reapFault);
  }

  lemma RestKeepsRestart(s: State, e: Event)
    requires Enabled(s, e) && RestartOk(s) && (e.EAcquire? || e.EStopAll? || e.EBegin?)
    ensures RestartOk(Next(s, e))
  {
    var t := Next(s, e);
    if t.mode.Reconciling? && !t.mode.rpc.RList? {
      forall j ensures RowPlan(t, j) { assert RowPlan(s, j); }
    }
  }

  lemma StepKeepsRestart(s: State, e: Event)
    requires Inv(s) && HolderOk(s) && Enabled(s, e) && RestartOk(s)
    ensures RestartOk(Next(s, e))
  {
    hide Inv, HolderOk, OpStep, WatchStep, TunnelStep, ReconcileStep, Exit, Reboot, BeginStop, RestartOk;
    match e
    case EOp(a, c) => OpKeepsRestart(s, a, c);
    case EWatch(id, c) => WatchKeepsRestart(s, id, c);
    case EReconcile(c) => ReconcilePlan(s, c);
    case ETunnel(c) => HeldAtApply(s); TunnelKeepsRestart(s, c);
    case EExit(id) => ExitPlan(s, id);
    case EReboot => RebootFromAny(s);
    case EBeginStop => BeginStopFromAny(s);
    case _ => RestKeepsRestart(s, e);
  }

  lemma RebootFromAny(s: State)
    requires RestartOk(s)
    ensures RestartOk(Reboot(s))
  {
    RebootKept(s);
  }

  lemma BeginStopFromAny(s: State)
    requires Inv(s) && s.mode.Serving?
    ensures RestartOk(BeginStop(s))
  {
    hide Inv;
    BeginStopKept(s);
  }

  lemma {:induction false} RunKeepsRestart(s: State, es: seq<Event>)
    requires Inv(s) && HolderOk(s) && RestartOk(s) && ValidRun(s, es)
    ensures RestartOk(Exec(s, es))
    decreases es
  {
    hide Inv, HolderOk, RestartOk;
    if es == [] {
      assert Exec(s, es) == s;
    } else {
      StepKeeps(s, es[0]);
      StepKeepsRestart(s, es[0]);
      RunKeepsRestart(Next(s, es[0]), es[1..]);
      assert Exec(s, es) == Exec(Next(s, es[0]), es[1..]);
    }
  }

  /** `kept` is what the promise is about: the running rows whose machine was
      alive when shutdown began, and `quiet` that no request was in flight. */
  lemma KeptAreTheLiveRows(s: State, id: MachineId)
    requires s.mode.Serving?
    ensures id in BeginStop(s).h.kept <==> IsRunning(s.db.machines, id) && id in s.vm.procs && s.vm.procs[id].live
    ensures id in BeginStop(s).h.kept ==> BeginStop(s).h.kept[id] == s.db.machines[id]
  {
  }

  /** Throughout a shutdown with no request in flight, whatever the interleaving
      of StopAll, watchers and exits, every row of a machine alive at its start
      is still there, still running, at the same address. */
  lemma ShutdownLosesNothing(es: seq<Event>, id: MachineId)
    requires ValidRun(INIT, es)
    ensures var t := Exec(INIT, es);
            t.mode.Stopping? && t.h.quiet && id in t.h.kept ==> id in t.db.machines && t.db.machines[id] == t.h.kept[id]
  {
    InitOk();
    RunKeepsRestart(INIT, es);
    hide Inv, HolderOk, Exec, ValidRun;
  }

  /** When Reconcile is through: every machine kept by the shutdown runs again
      with its id, release and address, unless starting it failed or it has
      exited again since; no row or process has come up for anything else, and
      only rows whose start failed read 'failed'. */
  lemma RestartLosesNothing(es: seq<Event>, id: MachineId)
    requires ValidRun(INIT, es)
    ensures var t := Exec(INIT, es);
            t.mode.Reconciling? && t.mode.rpc.RApply? ==>
              && (t.h.quiet && id in t.h.kept && id !in t.h.rfailed && id !in t.ids.crashed ==>
                    && IsRunning(t.db.machines, id) && id in t.vm.procs
                    && t.db.machines[id] == t.h.kept[id].(pid := t.db.machines[id].pid))
              && (id in t.vm.procs ==> IsRunning(t.h.base, id))
              && (id in t.db.machines ==>
                    && id in t.h.base && t.db.machines[id] == t.h.base[id].(state := t.db.machines[id].state, pid := t.db.machines[id].pid))
              && (id in t.h.base && !IsRunning(t.h.base, id) ==> id in t.db.machines && t.db.machines[id] == t.h.base[id])
              && (id in t.h.base && id !in t.db.machines ==> id in t.ids.crashed)
              && (IsRunning(t.h.base, id) && id in t.db.machines && t.db.machines[id].state == Failed ==> id in t.h.rfailed)
  {
    InitOk();
    RunKeeps(INIT, es);
    RunKeepsRestart(INIT, es);
    hide HolderOk, Exec, ValidRun, DbOk;
    var t := Exec(INIT, es);
    if t.mode.Reconciling? && t.mode.rpc.RApply? {
      assert RowPlan(t, id);
      InMode(t);
      hide Inv;
    }
  }
}
