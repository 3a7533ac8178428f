// The inductive invariants of the control plane. Each predicate takes just the
// parts of the state it is about, so a step that leaves those parts alone keeps it.

module ProtocolInv {
  import opened Common
  import opened Tables
  import opened Protocol

  ghost predicate IsRunning(rows: Rows, id: MachineId) {
    id in rows && rows[id].state == Running
  }

  // ----- one machine id --------------------------------------------------------

  /** A process is gone only because it was asked to stop or exited by itself; a
      watcher has moved on only if its process is gone; release machines have no
      handle, no watcher, and are never anything but 'starting'. */
  ghost predicate IdOk(rows: Rows, vm: Vms, ids: Ids, id: MachineId) {
    && (id in rows ==> id in ids.appOf && ids.appOf[id] == rows[id].app)
    && (id in vm.procs ==> id in ids.appOf)
    && (id in vm.handles ==> id in vm.procs && vm.handles[id] == vm.procs[id].pid)
    && (id in ids.relIds ==>
          && id in ids.appOf && id !in vm.handles && id !in vm.watchers
          && (id in rows ==> rows[id].state == Starting))
    && (id in ids.stopped ==> id in vm.procs)
    && (id in ids.crashed ==> id in vm.procs && !vm.procs[id].live)
    && (id in vm.procs && !vm.procs[id].live ==> id in ids.stopped || id in ids.crashed)
    && (id in vm.watchers ==>
          && id in vm.procs && vm.watchers[id].pid == vm.procs[id].pid
          && (IsRunning(rows, id) ==> rows[id].pid == vm.watchers[id].pid)
          && (vm.watchers[id].pc != Waiting ==> !vm.procs[id].live))
  }

  ghost predicate AllIds(rows: Rows, vm: Vms, ids: Ids) {
    forall id :: IdOk(rows, vm, ids, id)
  }

  // ----- requests --------------------------------------------------------------

  predicate ConfigPc(pc: Pc) {
    pc.Load? || pc.LoadStored? || pc.LoadCached? || pc.Upsert? || pc.CacheCfg? || pc.Build? || pc.AddRelease? || pc.FindRelease?
  }

  predicate RelOwn(pc: Pc) {
    pc.RelStart? || pc.RelWait? || pc.RelStop? || pc.RelDelete?
  }

  predicate BootOwn(pc: Pc) {
    pc.Start? || pc.SetHandle? || pc.Await? || pc.Mark? || pc.StopNew? || pc.ForgetNew? || pc.FailState? || pc.FailDelete?
  }

  predicate Looping(pc: Pc) {
    pc.StopNext? || pc.DropNext? || pc.ForgetNext?
  }

  /** From marking the new machine running to the end of the request. */
  predicate Cutover(op: Op) {
    !op.kind.Destroy? && (op.pc.Spawn? || op.pc.ListOld? || Looping(op.pc) || op.pc.Announce? || op.pc.ApplyTunnel? || op.pc.SetOwner?)
  }

  predicate DestroyPc(pc: Pc) {
    pc.ListAll? || Looping(pc) || pc.DropReleases? || pc.DropApp? || pc.DropCache? || pc.RemoveFiles? || pc.ApplyTunnel?
  }

  predicate KindOk(op: Op) {
    && op.idx <= SUBNET_MAX
    && (op.kind.Destroy? ==> DestroyPc(op.pc))
    && (op.pc.ListAll? || op.pc.DropReleases? || op.pc.DropApp? || op.pc.DropCache? || op.pc.RemoveFiles? ==> op.kind.Destroy?)
    && (op.pc.SetOwner? ==> op.kind.Deploy?)
    && (op.changed ==> op.kind.Deploy? || op.kind.Scale?)
    && (op.pc.Load? || op.pc.LoadStored? || op.pc.LoadCached? ==> op.kind.Scale? || op.kind.Restart?)
    && (op.pc.Upsert? || op.pc.CacheCfg? ==> op.kind.Scale? || op.kind.Deploy?)
  }

  predicate HasProc(op: Op) {
    || op.pc.RelWait? || op.pc.RelStop? || op.pc.SetHandle? || op.pc.Await? || op.pc.Mark?
    || op.pc.StopNew? || op.pc.ForgetNew? || Cutover(op)
  }

  /** What a request knows of the machine it is booting. */
  ghost predicate OwnOk(rows: Rows, vm: Vms, ids: Ids, shutting: bool, a: string, op: Op) {
    && (RelOwn(op.pc) || BootOwn(op.pc) || Cutover(op) ==> op.id in ids.appOf && ids.appOf[op.id] == a)
    && (RelOwn(op.pc) || BootOwn(op.pc) ==>
          op.id in rows && op.id !in vm.watchers && (op.id in ids.relIds <==> RelOwn(op.pc)))
    && (RelOwn(op.pc) || (BootOwn(op.pc) && !op.pc.FailDelete?) ==> rows[op.id].state == Starting)
    && (op.pc.FailDelete? ==> rows[op.id].state != Running)
    && (op.pc.RelStart? || op.pc.Start? ==> op.id !in vm.procs)
    && (HasProc(op) ==> op.id in vm.procs)
    && (op.pc.Await? || op.pc.Mark? || op.pc.Spawn? ==> op.id in vm.handles || shutting)
    && (op.pc.SetHandle? || op.pc.Await? || op.pc.Mark? || Cutover(op) ==> op.id !in ids.stopped || shutting)
    && (Cutover(op) ==> op.id !in ids.relIds)
    && (op.pc.Spawn? ==>
          && IsRunning(rows, op.id) && op.id !in vm.watchers
          && op.id in vm.procs && rows[op.id].pid == vm.procs[op.id].pid)
    && (Cutover(op) && !shutting && op.id !in ids.crashed ==> IsRunning(rows, op.id))
  }

  /** What the stop loop has covered, and what is left of a destroyed app. */
  ghost predicate LoopOk(rows: Rows, appOf: map<MachineId, string>, a: string, op: Op) {
    && (Looping(op.pc) ==>
          && (forall t | t in op.todo :: t in appOf && appOf[t] == a)
          && (!op.kind.Destroy? ==> op.id !in op.todo)
          && (op.pc.StopNext? ==> op.todo != {})
          && (!op.pc.StopNext? ==> op.cur in appOf && appOf[op.cur] == a && (!op.kind.Destroy? ==> op.id != op.cur))
          && (op.pc.ForgetNext? ==> op.cur !in rows))
    && (Looping(op.pc) && !op.kind.Destroy? ==>
          forall m | IsRunning(rows, m) && rows[m].app == a :: m == op.id || m in op.todo || (op.pc.DropNext? && m == op.cur))
    && (Looping(op.pc) && op.kind.Destroy? ==>
          forall m | m in rows && rows[m].app == a :: m in op.todo || (op.pc.DropNext? && m == op.cur))
    && (!op.kind.Destroy? && (op.pc.Announce? || op.pc.ApplyTunnel? || op.pc.SetOwner?) ==>
          forall m | IsRunning(rows, m) && rows[m].app == a :: m == op.id)
    && (op.pc.DropReleases? || op.pc.DropApp? ==> forall m | m in rows :: rows[m].app != a)
  }

  ghost predicate GoneOk(apps: map<string, AppRow>, releases: map<nat, Release>, a: string, op: Op) {
    && (op.pc.DropApp? ==> forall r | r in releases :: releases[r].app != a)
    && (op.kind.Destroy? && (op.pc.DropCache? || op.pc.RemoveFiles? || op.pc.ApplyTunnel?) ==> a !in apps)
  }

  ghost predicate OpOk(s: State, a: string, op: Op) {
    && KindOk(op)
    && OwnOk(s.db.machines, s.vm, s.ids, s.mode.Stopping?, a, op)
    && LoopOk(s.db.machines, s.ids.appOf, a, op)
    && GoneOk(s.db.apps, s.db.releases, a, op)
  }

  ghost predicate AllOps(s: State) {
    forall a | a in s.ops :: OpOk(s, a, s.ops[a])
  }

  // ----- Reconcile and StopAll ---------------------------------------------------

  ghost predicate ReconOk(rows: Rows, vm: Vms, ops: map<string, Op>, m: Mode) {
    m.Reconciling? ==>
      && ops == map[]
      && (m.rpc.RList? ==> vm == Vms(map[], map[], map[]))
      && (m.rpc.RApply? ==> m.rtodo == {})
      && (forall t | t in m.rtodo :: IsRunning(rows, t) && t !in vm.procs && t !in vm.watchers && t !in vm.handles)
      && (!m.rpc.RList? && !m.rpc.RNext? && !m.rpc.RApply? ==>
            && m.rcur !in m.rtodo && m.rcur !in vm.watchers && IsRunning(rows, m.rcur)
            && (m.rpc.RHandle? || m.rpc.RMark? || m.rpc.RSpawn? ==> m.rcur in vm.procs)
            && (!m.rpc.RHandle? && !m.rpc.RMark? && !m.rpc.RSpawn? && !m.rpc.RFail? ==>
                  m.rcur !in vm.procs && m.rcur !in vm.handles)
            && (m.rpc.RMark? || m.rpc.RSpawn? ==> m.rcur in vm.handles)
            && (m.rpc.RSpawn? ==> rows[m.rcur].pid == vm.procs[m.rcur].pid))
  }

  ghost predicate StopAllOk(vm: Vms, ids: Ids, m: Mode) {
    m.Stopping? ==> forall t | t in m.stodo :: t in vm.procs && t !in ids.relIds
  }

  // ----- running rows --------------------------------------------------------------

  /** Reconcile has not yet put a fresh process behind this row. */
  ghost predicate Unprocessed(m: Mode, id: MachineId) {
    && m.Reconciling?
    && (m.rpc.RList? || id in m.rtodo || (id == m.rcur && !m.rpc.RNext? && !m.rpc.RSpawn? && !m.rpc.RApply?))
  }

  /** Marked running, with the `go watchMachine` still to come. */
  ghost predicate SpawnPending(ops: map<string, Op>, appOf: map<MachineId, string>, m: Mode, id: MachineId) {
    || (m.Reconciling? && m.rpc.RSpawn? && m.rcur == id)
    || (id in appOf && appOf[id] in ops && ops[appOf[id]].pc.Spawn? && ops[appOf[id]].id == id)
  }

  ghost predicate Watched(vm: Vms, id: MachineId) {
    id in vm.watchers && (vm.watchers[id].pc.Waiting? || vm.watchers[id].pc.Checked? || vm.watchers[id].pc.Matched?)
  }

  /** Its watcher failed to mark the row stopped and is about to delete it. */
  ghost predicate Leaving(vm: Vms, id: MachineId) {
    id in vm.watchers && (vm.watchers[id].pc.Unhandle? || vm.watchers[id].pc.Remove?)
  }

  /** A running row has its own process, its handle and somebody watching it, or
      is being reaped. */
  ghost predicate Tended(s: State, id: MachineId) {
    && id in s.db.machines && id in s.vm.procs && s.db.machines[id].pid == s.vm.procs[id].pid
    && (Leaving(s.vm, id)
        || (id in s.vm.handles && (Watched(s.vm, id) || SpawnPending(s.ops, s.ids.appOf, s.mode, id))))
  }

  ghost predicate AllTended(s: State) {
    !s.mode.Stopping? && !s.h.reapFault ==>
      forall id | IsRunning(s.db.machines, id) && !Unprocessed(s.mode, id) :: Tended(s, id)
  }

  ghost predicate Inv(s: State) {
    && DbOk(s.db)
    && AllIds(s.db.machines, s.vm, s.ids)
    && AllOps(s)
    && ReconOk(s.db.machines, s.vm, s.ops, s.mode)
    && StopAllOk(s.vm, s.ids, s.mode)
    && AllTended(s)
  }
}
