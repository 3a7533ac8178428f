// The remaining steps (watchers, exits, Reconcile, StopAll, the tunnel,
// restarts), and the invariants over every run.

module ProtocolRuns {
  import opened Common
  import opened Tables
  import opened Tunnel
  import opened Protocol
  import opened ProtocolInv
  import opened ProtocolSteps
  import StoreLemmas

  // ----- watchMachine, and exits ---------------------------------------------------

  /** A watched machine whose row may go, or leave 'running', only once its
      process is gone. */
  ghost predicate ReapOnly(s: State, t: State, id: MachineId) {
    && id in s.ids.appOf && OnlyId(s, t, s.ids.appOf[id], id)
    && t.mode == s.mode && t.ops == s.ops
    && id in s.vm.procs && id in t.vm.procs
    && (id in s.ids.stopped <==> id in t.ids.stopped) && (id in s.ids.crashed ==> id in t.ids.crashed)
    && (id in s.ids.relIds <==> id in t.ids.relIds)
    && (id in t.db.machines ==> id in s.db.machines && t.db.machines[id].app == s.db.machines[id].app)
    && (IsRunning(t.db.machines, id) ==> IsRunning(s.db.machines, id))
    && (id in s.vm.watchers || Same(s.db.machines, t.db.machines, id))
    && (id in t.vm.watchers ==> id in s.vm.watchers)
    && (id in s.vm.handles && id !in s.vm.watchers ==> id in t.vm.handles)
    && (s.vm.procs[id].pid == t.vm.procs[id].pid)
    && (IsRunning(s.db.machines, id) && !IsRunning(t.db.machines, id) ==> !s.vm.procs[id].live)
  }

  lemma ReapOwn(s: State, t: State, id: MachineId, a: string, op: Op)
    requires ReapOnly(s, t, id) && KindOk(op)
    requires OwnOk(s.db.machines, s.vm, s.ids, s.mode.Stopping?, a, op)
    requires IdOk(s.db.machines, s.vm, s.ids, id)
    ensures OwnOk(t.db.machines, t.vm, t.ids, t.mode.Stopping?, a, op)
  {
    assert op.id != id ==> Same(s.db.machines, t.db.machines, op.id);
  }

  lemma ReapLoop(s: State, t: State, id: MachineId, a: string, op: Op)
    requires ReapOnly(s, t, id) && LoopOk(s.db.machines, s.ids.appOf, a, op)
    ensures LoopOk(t.db.machines, t.ids.appOf, a, op)
  {
    forall m | m in t.db.machines
      ensures m in s.db.machines && t.db.machines[m].app == s.db.machines[m].app
      ensures IsRunning(t.db.machines, m) ==> IsRunning(s.db.machines, m)
    {
      assert m != id ==> Same(s.db.machines, t.db.machines, m);
    }
    assert forall m | m in s.ids.appOf :: m != id ==> Same(s.ids.appOf, t.ids.appOf, m);
  }

  lemma ReapRecon(s: State, t: State, id: MachineId)
    requires ReapOnly(s, t, id) && ReconOk(s.db.machines, s.vm, s.ops, s.mode)
    ensures ReconOk(t.db.machines, t.vm, t.ops, t.mode)
  {
    if s.mode.Reconciling? {
      forall x | x in s.mode.rtodo
        ensures IsRunning(t.db.machines, x) && x !in t.vm.procs && x !in t.vm.watchers && x !in t.vm.handles
      {
        assert x != id && Same(s.db.machines, t.db.machines, x);
      }
      assert s.mode.rcur != id ==> Same(s.db.machines, t.db.machines, s.mode.rcur);
    }
  }

  lemma ReapKeeps(s: State, t: State, id: MachineId)
    requires Inv(s) && ReapOnly(s, t, id) && DbOk(t.db) && IdOk(t.db.machines, t.vm, t.ids, id)
    requires IsRunning(t.db.machines, id) && !t.mode.Stopping? && !t.h.reapFault && !Unprocessed(t.mode, id) ==> Tended(t, id)
    ensures Inv(t)
  {
    hide KindOk, OwnOk, LoopOk, DbOk, IdOk, OnlyId, Tended;
    var a := s.ids.appOf[id];
    ReapRecon(s, t, id);
    hide ReconOk;
    if a in s.ops {
      InOp(s, a);
      AnId(s, id);
      ReapOwn(s, t, id, a, s.ops[a]);
      ReapLoop(s, t, id, a, s.ops[a]);
      GoneSame(s, t, a, id);
      assert OpOk(t, a, t.ops[a]);
    }
    OneId(s, t, a, id);
  }

  lemma GoneSame(s: State, t: State, a: string, id: MachineId)
    requires OnlyId(s, t, a, id)
    ensures t.db.apps == s.db.apps && t.db.releases == s.db.releases
  {
  }

  /** Nobody else tends a machine whose watcher has moved past matching the row. */
  lemma ReapingIsNotRunning(s: State, id: MachineId)
    requires Inv(s) && id in s.vm.watchers && !s.mode.Stopping? && !s.h.reapFault
    requires s.vm.watchers[id].pc.WApply?
    ensures !IsRunning(s.db.machines, id)
  {
    hide KindOk, LoopOk, GoneOk, DbOk;
    AnId(s, id);
    TendedId(s, id);
    if IsRunning(s.db.machines, id) && id in s.ids.appOf && s.ids.appOf[id] in s.ops {
      InOp(s, s.ids.appOf[id]);
    }
  }

  lemma WakeKeeps(s: State, id: MachineId)
    requires Inv(s) && WatchEnabled(s, id) && s.vm.watchers[id].pc.Waiting?
    ensures Inv(DoWake(s, id, s.vm.watchers[id]))
  {
    hide Inv, DbOk;
    InvDb(s);
    AnId(s, id);
    TendedId(s, id);
    var t := DoWake(s, id, s.vm.watchers[id]);
    assert ReapOnly(s, t, id);
    hide ReapOnly;
    ReapKeeps(s, t, id);
  }

  lemma CheckRowKeeps(s: State, id: MachineId, c: Choice)
    requires Inv(s) && WatchEnabled(s, id) && s.vm.watchers[id].pc.Checked?
    ensures Inv(DoCheckRow(s, id, s.vm.watchers[id], c))
  {
    hide Inv, DbOk;
    InvDb(s);
    AnId(s, id);
    TendedId(s, id);
    WatcherNotPending(s, id);
    CheckRowReaps(s, id, c);
    hide ReapOnly, IdOk;
    ReapKeeps(s, DoCheckRow(s, id, s.vm.watchers[id], c), id);
  }

  lemma CheckRowReaps(s: State, id: MachineId, c: Choice)
    requires WatchEnabled(s, id) && s.vm.watchers[id].pc.Checked? && IdOk(s.db.machines, s.vm, s.ids, id)
    ensures var t := DoCheckRow(s, id, s.vm.watchers[id], c);
            ReapOnly(s, t, id) && IdOk(t.db.machines, t.vm, t.ids, id)
  {
  }

  lemma WatcherNotPending(s: State, id: MachineId)
    requires Inv(s) && id in s.vm.watchers
    ensures !SpawnPending(s.ops, s.ids.appOf, s.mode, id)
  {
    hide KindOk, LoopOk, GoneOk, DbOk;
    if id in s.ids.appOf && s.ids.appOf[id] in s.ops { InOp(s, s.ids.appOf[id]); }
  }

  lemma SetStoppedKeeps(s: State, id: MachineId, c: Choice)
    requires Inv(s) && WatchEnabled(s, id) && s.vm.watchers[id].pc.Matched?
    ensures Inv(DoSetStopped(s, id, s.vm.watchers[id], c))
  {
    hide Inv, DbOk;
    InvDb(s);
    AnId(s, id);
    TendedId(s, id);
    StoreLemmas.SetMachineStateKeeps(s.db, id, Stopped, 0);
    SetStoppedReaps(s, id, c);
    hide ReapOnly, IdOk;
    ReapKeeps(s, DoSetStopped(s, id, s.vm.watchers[id], c), id);
  }

  lemma SetStoppedReaps(s: State, id: MachineId, c: Choice)
    requires WatchEnabled(s, id) && s.vm.watchers[id].pc.Matched? && IdOk(s.db.machines, s.vm, s.ids, id)
    ensures var t := DoSetStopped(s, id, s.vm.watchers[id], c);
            ReapOnly(s, t, id) && IdOk(t.db.machines, t.vm, t.ids, id)
  {
  }

  lemma UnhandleKeeps(s: State, id: MachineId)
    requires Inv(s) && WatchEnabled(s, id) && s.vm.watchers[id].pc.Unhandle?
    ensures Inv(DoUnhandle(s, id, s.vm.watchers[id]))
  {
    hide Inv, DbOk;
    InvDb(s);
    AnId(s, id);
    TendedId(s, id);
    var t := DoUnhandle(s, id, s.vm.watchers[id]);
    assert ReapOnly(s, t, id);
    hide ReapOnly;
    ReapKeeps(s, t, id);
  }

  lemma RemoveKeeps(s: State, id: MachineId, c: Choice)
    requires Inv(s) && WatchEnabled(s, id) && s.vm.watchers[id].pc.Remove?
    ensures Inv(DoRemove(s, id, s.vm.watchers[id], c))
  {
    hide Inv, DbOk;
    InvDb(s);
    AnId(s, id);
    StoreLemmas.DeleteMachineKeeps(s.db, id);
    var t := DoRemove(s, id, s.vm.watchers[id], c);
    assert ReapOnly(s, t, id);
    hide ReapOnly;
    ReapKeeps(s, t, id);
  }

  lemma ExitKeeps(s: State, id: MachineId)
    requires Inv(s) && id in s.vm.procs && s.vm.procs[id].live
    ensures Inv(Exit(s, id))
  {
    hide Inv, DbOk;
    InvDb(s);
    AnId(s, id);
    TendedId(s, id);
    var t := Exit(s, id);
    assert ReapOnly(s, t, id);
    hide ReapOnly;
    ReapKeeps(s, t, id);
  }

  // ----- Reconcile -------------------------------------------------------------------

  /** One machine's turn: only its row, process, handle and watcher change. */
  lemma TurnKeeps(s: State, t: State, id: MachineId)
    requires Inv(s) && s.mode.Reconciling? && id == s.mode.rcur && !s.mode.rpc.RList? && !s.mode.rpc.RNext? && !s.mode.rpc.RApply?
    requires t.ops == s.ops && t.ids == s.ids && DbOk(t.db) && t.mode.Reconciling?
    requires MoveMode(s.mode, t.mode, id) && (s.h.reapFault ==> t.h.reapFault)
    requires forall j | j != id ::
               && Same(s.db.machines, t.db.machines, j) && Same(s.vm.procs, t.vm.procs, j)
               && Same(s.vm.handles, t.vm.handles, j) && Same(s.vm.watchers, t.vm.watchers, j)
    requires t.db.apps == s.db.apps && t.db.releases == s.db.releases
    requires IdOk(t.db.machines, t.vm, t.ids, id) && id in t.ids.appOf
    requires ReconOk(t.db.machines, t.vm, t.ops, t.mode)
    requires IsRunning(t.db.machines, id) && !t.h.reapFault && !Unprocessed(t.mode, id) ==> Tended(t, id)
    requires id in s.vm.procs ==> id in t.vm.procs
    ensures Inv(t)
  {
    hide Inv, DbOk, IdOk, Tended;
    InMode(s);
    assert OnlyId(s, t, s.ids.appOf[id], id);
    hide OnlyId;
    OneId(s, t, s.ids.appOf[id], id);
  }

  lemma InMode(s: State)
    requires Inv(s)
    ensures DbOk(s.db) && ReconOk(s.db.machines, s.vm, s.ops, s.mode) && StopAllOk(s.vm, s.ids, s.mode)
    ensures s.mode.Reconciling? ==> IdOk(s.db.machines, s.vm, s.ids, s.mode.rcur)
  {
  }

  lemma RListKeeps(s: State, c: Choice)
    requires Inv(s) && ReconcileEnabled(s, c) && s.mode.rpc.RList?
    ensures Inv(DoRList(s, c))
  {
    hide DbOk;
    var t := DoRList(s, c);
    forall j ensures IdOk(t.db.machines, t.vm, t.ids, j) { AnId(s, j); }
    assert AllTended(t);
  }

  lemma RNextKeeps(s: State, c: Choice)
    requires Inv(s) && ReconcileEnabled(s, c) && s.mode.rpc.RNext?
    ensures Inv(DoRNext(s, c))
  {
    hide DbOk;
    var t := DoRNext(s, c);
    forall j ensures IdOk(t.db.machines, t.vm, t.ids, j) { AnId(s, j); }
    forall j | IsRunning(t.db.machines, j) && !Unprocessed(t.mode, j) && !t.h.reapFault ensures Tended(t, j) {
      TendedId(s, j);
    }
  }

  lemma RLoadKeeps(s: State, c: Choice)
    requires Inv(s) && ReconcileEnabled(s, c) && (s.mode.rpc.RLoad? || s.mode.rpc.RLoadStored? || s.mode.rpc.RLoadCached?)
    ensures Inv(ReconcileStep(s, c))
  {
    hide Inv, DbOk;
    InMode(s);
    var t := ReconcileStep(s, c);
    TurnKeeps(s, t, s.mode.rcur);
  }

  lemma RSubnetKeeps(s: State, c: Choice)
    requires Inv(s) && ReconcileEnabled(s, c) && s.mode.rpc.RSubnet?
    ensures Inv(DoRSubnet(s, s.db.machines[s.mode.rcur].app, c))
  {
    hide Inv, DbOk;
    InMode(s);
    var app := s.db.machines[s.mode.rcur].app;
    if app in s.db.apps { StoreLemmas.SubnetForOwnerKeeps(s.db, s.db.apps[app].owner); }
    TurnKeeps(s, DoRSubnet(s, app, c), s.mode.rcur);
  }

  lemma RStartKeeps(s: State, c: Choice)
    requires Inv(s) && ReconcileEnabled(s, c) && s.mode.rpc.RStart?
    ensures Inv(DoRStart(s, c))
  {
    hide Inv, DbOk;
    InMode(s);
    TurnKeeps(s, DoRStart(s, c), s.mode.rcur);
  }

  lemma RHandleKeeps(s: State, c: Choice)
    requires Inv(s) && ReconcileEnabled(s, c) && s.mode.rpc.RHandle?
    ensures Inv(DoRHandle(s, s.vm.procs[s.mode.rcur]))
  {
    hide Inv, DbOk;
    InMode(s);
    TurnKeeps(s, DoRHandle(s, s.vm.procs[s.mode.rcur]), s.mode.rcur);
  }

  lemma RMarkKeeps(s: State, c: Choice)
    requires Inv(s) && ReconcileEnabled(s, c) && s.mode.rpc.RMark?
    ensures Inv(DoRMark(s, s.vm.procs[s.mode.rcur], c))
  {
    hide Inv, DbOk;
    InMode(s);
    StoreLemmas.SetMachineStateKeeps(s.db, s.mode.rcur, Running, s.vm.procs[s.mode.rcur].pid);
    TurnKeeps(s, DoRMark(s, s.vm.procs[s.mode.rcur], c), s.mode.rcur);
  }

  lemma RSpawnKeeps(s: State, c: Choice)
    requires Inv(s) && ReconcileEnabled(s, c) && s.mode.rpc.RSpawn?
    ensures Inv(DoRSpawn(s, s.vm.procs[s.mode.rcur]))
  {
    hide Inv, DbOk;
    InMode(s);
    TurnKeeps(s, DoRSpawn(s, s.vm.procs[s.mode.rcur]), s.mode.rcur);
  }

  lemma RFailKeeps(s: State, c: Choice)
    requires Inv(s) && ReconcileEnabled(s, c) && s.mode.rpc.RFail?
    ensures Inv(DoRFail(s, c))
  {
    hide Inv, DbOk;
    InMode(s);
    StoreLemmas.SetMachineStateKeeps(s.db, s.mode.rcur, Failed, 0);
    TurnKeeps(s, DoRFail(s, c), s.mode.rcur);
  }

  lemma ReconcileKeeps(s: State, c: Choice)
    requires Inv(s) && ReconcileEnabled(s, c)
    ensures Inv(ReconcileStep(s, c))
  {
    hide Inv, DoRList, DoRNext, DoRSubnet, DoRStart, DoRHandle, DoRMark, DoRSpawn, DoRFail;
    match s.mode.rpc
    case RList => RListKeeps(s, c);
    case RNext => RNextKeeps(s, c);
    case RSubnet => RSubnetKeeps(s, c);
    case RStart => RStartKeeps(s, c);
    case RHandle => RHandleKeeps(s, c);
    case RMark => RMarkKeeps(s, c);
    case RSpawn => RSpawnKeeps(s, c);
    case RFail => RFailKeeps(s, c);
    case _ => RLoadKeeps(s, c);
  }

  // ----- StopAll and the tunnel ---------------------------------------------------------

  lemma StopAllKeeps(s: State, c: Choice)
    requires Inv(s) && StopAllEnabled(s, c)
    ensures Inv(StopAllStep(s, c))
  {
    var t := StopAllStep(s, c);
    InMode(s);
    StopAllIds(s, c);
    forall a | a in t.ops ensures OpOk(t, a, t.ops[a]) {
      InOp(s, a);
      StopAllOwn(s, c, a, s.ops[a]);
    }
    hide DbOk, KindOk, LoopOk, GoneOk, OwnOk, IdOk;
  }

  lemma StopAllIds(s: State, c: Choice)
    requires Inv(s) && StopAllEnabled(s, c)
    ensures var t := StopAllStep(s, c);
            AllIds(t.db.machines, t.vm, t.ids) && StopAllOk(t.vm, t.ids, t.mode)
  {
    hide Inv, DbOk;
    InMode(s);
    var t := StopAllStep(s, c);
    forall x | x in t.mode.stodo ensures x in t.vm.procs && x !in t.ids.relIds { AnId(s, x); }
    hide IdOk;
    forall j ensures IdOk(t.db.machines, t.vm, t.ids, j) {
      AnId(s, j);
      StopAllId(s, c, j);
    }
  }

  lemma StopAllId(s: State, c: Choice, id: MachineId)
    requires StopAllEnabled(s, c) && StopAllOk(s.vm, s.ids, s.mode) && IdOk(s.db.machines, s.vm, s.ids, id)
    ensures var t := StopAllStep(s, c); IdOk(t.db.machines, t.vm, t.ids, id)
  {
  }

  lemma StopAllOwn(s: State, c: Choice, a: string, op: Op)
    requires StopAllEnabled(s, c) && OwnOk(s.db.machines, s.vm, s.ids, true, a, op)
    ensures var t := StopAllStep(s, c); OwnOk(t.db.machines, t.vm, t.ids, true, a, op)
  {
  }

  lemma FinishOpKeeps(s: State, a: string, ok: bool)
    requires Inv(s) && AtApply(s, ByOp(a))
    ensures Inv(Finish(s, ByOp(a), ok))
  {
    hide Inv, DbOk;
    InOp(s, a);
    if ok && s.ops[a].kind.Deploy? {
      MoveOp(s, a, s.ops[a].(pc := SetOwner, changed := false));
    } else {
      DropOp(s, a);
      DirtyKeeps(EndOp(s, a), s.h.dirty);
    }
  }

  lemma FinishWatchKeeps(s: State, id: MachineId)
    requires Inv(s) && AtApply(s, ByWatcher(id))
    ensures Inv(EndWatch(s, id))
  {
    hide Inv, DbOk;
    AnId(s, id);
    if !s.mode.Stopping? && !s.h.reapFault { ReapingIsNotRunning(s, id); }
    var t := EndWatch(s, id);
    InvDb(s);
    assert ReapOnly(s, t, id);
    hide ReapOnly;
    ReapKeeps(s, t, id);
  }

  lemma FinishReconcileKeeps(s: State)
    requires Inv(s) && AtApply(s, ByReconcile)
    ensures Inv(s.(mode := Serving))
  {
    hide DbOk;
    var t := s.(mode := Serving);
    forall j ensures IdOk(t.db.machines, t.vm, t.ids, j) { AnId(s, j); }
    forall j | IsRunning(t.db.machines, j) && !t.h.reapFault ensures Tended(t, j) { TendedId(s, j); }
  }

  lemma FinishKeeps(s: State, who: Who, ok: bool)
    requires Inv(s) && AtApply(s, who)
    ensures Inv(Finish(s, who, ok))
  {
    hide Inv;
    match who
    case ByOp(a) => FinishOpKeeps(s, a, ok);
    case ByWatcher(id) => FinishWatchKeeps(s, id);
    case ByReconcile => FinishReconcileKeeps(s);
  }

  lemma DirtyKeeps(s: State, dirty: bool)
    requires Inv(s)
    ensures Inv(s.(h := s.h.(dirty := dirty)))
  {
    hide DbOk;
    InvDb(s);
    Elsewhere(s, s.(h := s.h.(dirty := dirty)));
  }

  /** The tunnel lock, the ingress file and the cache are no part of Inv. */
  lemma TunnelIrrelevant(s: State, t: State)
    requires Inv(s) && t == s.(tun := t.tun, file := t.file, cache := t.cache, h := s.h.(dirty := t.h.dirty))
    ensures Inv(t)
  {
    hide DbOk;
    InvDb(s);
    Elsewhere(s, t);
  }

  /** While somebody holds tunnelMu it is somebody at its applyTunnel call. */
  ghost predicate HolderOk(s: State) {
    s.tun.Held? ==> AtApply(s, s.tun.who)
  }

  lemma ReleaseLockKeeps(s: State, file: Ingress, dirty: bool, ok: bool)
    requires Inv(s) && HolderOk(s) && s.tun.Held?
    ensures Inv(Finish(s.(tun := Free, file := file, h := s.h.(dirty := dirty)), s.tun.who, ok))
  {
    hide Inv;
    var m := s.(tun := Free, file := file, h := s.h.(dirty := dirty));
    TunnelIrrelevant(s, m);
    FinishKeeps(m, s.tun.who, ok);
  }

  lemma TunnelKeeps(s: State, c: Choice)
    requires Inv(s) && HolderOk(s) && TunnelEnabled(s)
    ensures Inv(TunnelStep(s, c))
  {
    hide Inv, Finish, DbOk;
    var who := s.tun.who;
    match s.tun.phase
    case Locked =>
      if c.ok { TunnelIrrelevant(s, DoRead(s, who, c)); } else { ReleaseLockKeeps(s, s.file, true, false); }
    case Reading(rows, cfgs) =>
      if |cfgs| < |rows| { TunnelIrrelevant(s, DoConfig(s, who, rows, cfgs)); }
      else if c.ok { ReleaseLockKeeps(s, Ingress(rows, cfgs), s.h.dirty, true); }
      else { ReleaseLockKeeps(s, s.file, true, false); }
    case Missed(rows, cfgs) =>
      if c.ok && rows[|cfgs|].app in s.db.apps { TunnelIrrelevant(s, DoFetch(s, who, rows, cfgs, c)); }
      else { ReleaseLockKeeps(s, s.file, s.h.dirty || !c.ok, false); }
    case Fetched(rows, cfgs, raw) => TunnelIrrelevant(s, DoStoreFetched(s, who, rows, cfgs, raw));
  }

  // ----- the rest ---------------------------------------------------------------------------

  lemma BeginKeeps(s: State, a: string, kind: Kind)
    requires Inv(s) && s.mode.Serving? && a !in s.ops
    ensures Inv(Begin(s, a, kind))
  {
    BegunOk(s, a, kind);
    hide DbOk, KindOk, OwnOk, LoopOk, GoneOk, IdOk, Tended;
    var t := Begin(s, a, kind);
    forall b | b in t.ops ensures OpOk(t, b, t.ops[b]) {
      if b != a { assert OpOk(s, b, s.ops[b]); }
    }
    forall j | IsRunning(t.db.machines, j) && !t.h.reapFault ensures Tended(t, j) {
      TendedId(s, j);
      BegunTended(s, a, kind, j);
    }
  }

  lemma BegunOk(s: State, a: string, kind: Kind)
    ensures OpOk(Begin(s, a, kind), a, Begin(s, a, kind).ops[a])
  {
  }

  lemma BegunTended(s: State, a: string, kind: Kind, id: MachineId)
    requires a !in s.ops && Tended(s, id)
    ensures Tended(Begin(s, a, kind), id)
  {
  }

  lemma BeginStopKeeps(s: State)
    requires Inv(s) && s.mode.Serving?
    ensures Inv(BeginStop(s))
  {
    hide DbOk, KindOk, LoopOk, GoneOk, IdOk;
    var t := BeginStop(s);
    assert AllIds(t.db.machines, t.vm, t.ids);
    forall a | a in t.ops ensures OpOk(t, a, t.ops[a]) {
      assert OpOk(s, a, s.ops[a]);
    }
  }

  lemma RebootKeeps(s: State)
    requires Inv(s)
    ensures Inv(Reboot(s))
  {
    hide DbOk;
    var t := Reboot(s);
    forall j ensures IdOk(t.db.machines, t.vm, t.ids, j) { AnId(s, j); }
  }

  // ----- what the steps leave to the tunnel -----------------------------------------

  /** `a`'s request moved or ended, and at most its own machine gained a watcher. */
  ghost predicate OwnMove(s: State, t: State, a: string)
    requires a in s.ops
  {
    && t.tun == s.tun && t.mode == s.mode && t.file == s.file
    && t.ops == (if a in t.ops then s.ops[a := t.ops[a]] else s.ops - {a})
    && (t.vm.watchers == s.vm.watchers
        || (s.ops[a].pc.Spawn? && s.ops[a].id in t.vm.watchers && t.vm.watchers == s.vm.watchers[s.ops[a].id := t.vm.watchers[s.ops[a].id]]))
  }

  lemma FrameConfig(s: State, a: string, c: Choice)
    requires OpEnabled(s, a, c) && ConfigPc(s.ops[a].pc)
    ensures OwnMove(s, OpStep(s, a, c), a)
  {
    hide UpsertApp, InsertRelease, LatestRelease, OpOwes, Scaled;
  }

  lemma FrameRows(s: State, a: string, c: Choice)
    requires OpEnabled(s, a, c) && NoMachine(s.ops[a].pc) && !ConfigPc(s.ops[a].pc)
    ensures OwnMove(s, OpStep(s, a, c), a)
  {
    hide SubnetForOwner, AllocAndInsertMachine, OpOwes;
  }

  lemma FrameRelease(s: State, a: string, c: Choice)
    requires OpEnabled(s, a, c) && RelOwn(s.ops[a].pc)
    ensures OwnMove(s, OpStep(s, a, c), a)
  {
    hide DeleteMachine, OpOwes, Passed;
  }

  lemma FrameBoot(s: State, a: string, c: Choice)
    requires OpEnabled(s, a, c) && (BootOwn(s.ops[a].pc) || s.ops[a].pc.Spawn?)
    ensures OwnMove(s, OpStep(s, a, c), a)
  {
    hide DeleteMachine, SetMachineState, OpOwes;
  }

  lemma OpStepFrame(s: State, a: string, c: Choice)
    requires OpEnabled(s, a, c)
    ensures OwnMove(s, OpStep(s, a, c), a)
  {
    hide OpOwes;
    if ConfigPc(s.ops[a].pc) { FrameConfig(s, a, c); }
    else if NoMachine(s.ops[a].pc) { FrameRows(s, a, c); }
    else if RelOwn(s.ops[a].pc) { FrameRelease(s, a, c); }
    else if BootOwn(s.ops[a].pc) || s.ops[a].pc.Spawn? { FrameBoot(s, a, c); }
  }

  /** A watcher's step moves its watcher alone. */
  ghost predicate WatcherMoved(s: State, t: State, id: MachineId) {
    && t.tun == s.tun && t.mode == s.mode && t.file == s.file && t.ops == s.ops
    && (t.vm.watchers == s.vm.watchers - {id}
        || (id in t.vm.watchers && t.vm.watchers == s.vm.watchers[id := t.vm.watchers[id]]))
  }

  lemma LookFrame(s: State, id: MachineId, c: Choice)
    requires WatchEnabled(s, id) && (s.vm.watchers[id].pc.Waiting? || s.vm.watchers[id].pc.Checked?)
    ensures WatcherMoved(s, WatchStep(s, id, c), id)
  {
  }

  lemma ReapFrame(s: State, id: MachineId, c: Choice)
    requires WatchEnabled(s, id) && !s.vm.watchers[id].pc.Waiting? && !s.vm.watchers[id].pc.Checked?
    ensures WatcherMoved(s, WatchStep(s, id, c), id)
  {
    hide SetMachineState, DeleteMachine;
  }

  lemma WatchFrame(s: State, id: MachineId, c: Choice)
    requires WatchEnabled(s, id)
    ensures var t := WatchStep(s, id, c);
            && t.tun == s.tun && t.mode == s.mode && t.file == s.file && t.ops == s.ops
            && (forall j | j != id :: Same(s.vm.watchers, t.vm.watchers, j))
  {
    hide WatchStep;
    if s.vm.watchers[id].pc.Waiting? || s.vm.watchers[id].pc.Checked? { LookFrame(s, id, c); } else { ReapFrame(s, id, c); }
  }

  lemma ReconcileFrame(s: State, c: Choice)
    requires ReconcileEnabled(s, c)
    ensures var t := ReconcileStep(s, c);
            && t.tun == s.tun && t.file == s.file && t.ops == s.ops
            && (s.mode.rpc.RSpawn? || t.vm.watchers == s.vm.watchers)
            && (s.mode.rpc.RSpawn? ==> forall j | j != s.mode.rcur :: Same(s.vm.watchers, t.vm.watchers, j))
  {
    if s.mode.rpc.RMark? || s.mode.rpc.RFail? {
      MarkFrame(s, c);
      hide ReconcileStep;
    } else {
      hide SubnetForOwner, DoRMark, DoRFail, RunningRows;
    }
  }

  lemma MarkFrame(s: State, c: Choice)
    requires ReconcileEnabled(s, c) && (s.mode.rpc.RMark? || s.mode.rpc.RFail?)
    ensures var t := ReconcileStep(s, c);
            t.tun == s.tun && t.file == s.file && t.ops == s.ops && t.vm.watchers == s.vm.watchers
  {
    hide SetMachineState;
  }

  lemma TunnelFrame(s: State, c: Choice)
    requires TunnelEnabled(s)
    ensures var t := TunnelStep(s, c);
            t.tun == Free || t == s.(tun := Held(s.tun.who, t.tun.phase), cache := t.cache)
  {
  }

  lemma HolderKept(s: State, e: Event)
    requires Inv(s) && HolderOk(s) && Enabled(s, e)
    ensures HolderOk(Next(s, e))
  {
    hide Inv, DbOk, OpStep, WatchStep, ReconcileStep, TunnelStep, KindOk, LoopOk;
    match e
    case EOp(a, c) => OpStepFrame(s, a, c); InOp(s, a);
    case EWatch(id, c) =>
      WatchFrame(s, id, c);
      if s.tun.Held? && s.tun.who.ByWatcher? && s.tun.who.id != id {
        assert Same(s.vm.watchers, Next(s, e).vm.watchers, s.tun.who.id);
      }
    case EReconcile(c) =>
      ReconcileFrame(s, c);
      InMode(s);
      if s.tun.Held? && s.tun.who.ByWatcher? && s.mode.rpc.RSpawn? && s.tun.who.id != s.mode.rcur {
        assert Same(s.vm.watchers, Next(s, e).vm.watchers, s.tun.who.id);
      }
    case ETunnel(c) => TunnelFrame(s, c);
    case _ =>
  }

  // ----- every run -------------------------------------------------------------------

  lemma OpKeeps(s: State, a: string, c: Choice)
    requires Inv(s) && OpEnabled(s, a, c)
    ensures Inv(OpStep(s, a, c))
  {
    hide Inv, DbOk, OwnOk, LoopOk, GoneOk;
    hide AllocSubnet, InsertRow, DoUpsert, DoAddRelease, DoRelStart, DoRelWait, DoRelStop, DoRelDelete, DoStart, DoSetHandle,
         DoAwait, DoMark, DoSpawn, DoStopNew, DoForgetNew, DoFailState, DoFailDelete, DoListOld, DoListAll, DoStopNext,
         DoDropNext, DoForgetNext, DoSetOwner, DoDropReleases, DoDropApp, DoDropCache, DoRemoveFiles;
    InOp(s, a);
    match s.ops[a].pc
    case Upsert => StoreConfigKeeps(s, a, c);
    case AddRelease => StoreConfigKeeps(s, a, c);
    case RelSubnet => SubnetKeeps(s, a, c, RelInsert);
    case RelInsert => InsertKeeps(s, a, c, RelStart);
    case RelStart => RelStartKeeps(s, a, c);
    case RelWait => RelWaitKeeps(s, a, c);
    case RelStop => RelStopKeeps(s, a, c);
    case RelDelete => RelDeleteKeeps(s, a, c);
    case Subnet => SubnetKeeps(s, a, c, Insert);
    case Insert => InsertKeeps(s, a, c, Start);
    case Start => StartKeeps(s, a, c);
    case SetHandle => SetHandleKeeps(s, a, c);
    case Await => AwaitKeeps(s, a, c);
    case Mark => MarkKeeps(s, a, c);
    case Spawn => SpawnKeeps(s, a, c);
    case StopNew => StopNewKeeps(s, a, c);
    case ForgetNew => ForgetNewKeeps(s, a, c);
    case FailState => FailStateKeeps(s, a, c);
    case FailDelete => FailDeleteKeeps(s, a, c);
    case ListOld => ListKeeps(s, a, c);
    case ListAll => ListKeeps(s, a, c);
    case StopNext => StopNextKeeps(s, a, c);
    case DropNext => DropNextKeeps(s, a, c);
    case ForgetNext => ForgetNextKeeps(s, a, c);
    case Announce => AnnounceKeeps(s, a, c);
    case SetOwner => SetOwnerKeeps(s, a, c);
    case DropReleases => DestroyRowsKeeps(s, a, c);
    case DropApp => DestroyRowsKeeps(s, a, c);
    case DropCache => DestroyFilesKeeps(s, a, c);
    case RemoveFiles => DestroyFilesKeeps(s, a, c);
    case _ => ConfigKeeps(s, a, c);
  }

  lemma WatchKeeps(s: State, id: MachineId, c: Choice)
    requires Inv(s) && WatchEnabled(s, id)
    ensures Inv(WatchStep(s, id, c))
  {
    hide Inv, DoWake, DoCheckRow, DoSetStopped, DoUnhandle, DoRemove;
    match s.vm.watchers[id].pc
    case Waiting => WakeKeeps(s, id);
    case Checked => CheckRowKeeps(s, id, c);
    case Matched => SetStoppedKeeps(s, id, c);
    case Unhandle => UnhandleKeeps(s, id);
    case Remove => RemoveKeeps(s, id, c);
  }

  lemma StepKeeps(s: State, e: Event)
    requires Inv(s) && HolderOk(s) && Enabled(s, e)
    ensures Inv(Next(s, e)) && HolderOk(Next(s, e))
  {
    HolderKept(s, e);
    hide Inv, HolderOk, OpStep, WatchStep, ReconcileStep, TunnelStep, StopAllStep, Begin, BeginStop, Reboot, Exit;
    match e
    case EBegin(a, kind) => BeginKeeps(s, a, kind);
    case EOp(a, c) => OpKeeps(s, a, c);
    case EWatch(id, c) => WatchKeeps(s, id, c);
    case EReconcile(c) => ReconcileKeeps(s, c);
    case EAcquire(who) => TunnelIrrelevant(s, s.(tun := Held(who, Locked)));
    case ETunnel(c) => TunnelKeeps(s, c);
    case EExit(id) => ExitKeeps(s, id);
    case EBeginStop => BeginStopKeeps(s);
    case EStopAll(c) => StopAllKeeps(s, c);
    case EReboot => RebootKeeps(s);
  }
}
