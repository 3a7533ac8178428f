// Every step of the control plane keeps the invariants.

module ProtocolSteps {
  import opened Common
  import opened Tables
  import opened Protocol
  import opened ProtocolInv
  import StoreLemmas

  /** What Inv gives about one request and its machine. */
  lemma InOp(s: State, a: string)
    requires Inv(s) && a in s.ops
    ensures !s.mode.Reconciling? && DbOk(s.db)
    ensures OpOk(s, a, s.ops[a])
    ensures IdOk(s.db.machines, s.vm, s.ids, s.ops[a].id)
    ensures IdOk(s.db.machines, s.vm, s.ids, s.ops[a].cur)
  {
    hide KindOk, OwnOk, LoopOk, GoneOk, DbOk;
  }

  // ----- steps that touch no machine -------------------------------------------

  /** The request moves on; nothing else changes. */
  lemma MoveOp(s: State, a: string, op: Op)
    requires Inv(s) && !s.mode.Reconciling? && a in s.ops && !s.ops[a].pc.Spawn?
    requires OpOk(s, a, op)
    ensures Inv(WithOp(s, a, op))
  {
    hide KindOk, OwnOk, LoopOk, GoneOk;
    var t := WithOp(s, a, op);
    forall b | b in t.ops ensures OpOk(t, b, t.ops[b]) {
      if b != a { assert OpOk(s, b, s.ops[b]); }
    }
    assert AllTended(t);
  }

  lemma DropOp(s: State, a: string)
    requires Inv(s) && !s.mode.Reconciling? && a in s.ops && !s.ops[a].pc.Spawn?
    ensures Inv(EndOp(s, a))
  {
    hide KindOk, OwnOk, LoopOk, GoneOk;
    var t := EndOp(s, a);
    forall b | b in t.ops ensures OpOk(t, b, t.ops[b]) {
      assert OpOk(s, b, s.ops[b]);
    }
    assert AllTended(t);
  }

  /** Changes to apps, releases, subnets and the cache. */
  lemma Elsewhere(s: State, t: State)
    requires Inv(s) && DbOk(t.db)
    requires t.db.machines == s.db.machines && t.vm == s.vm && t.ids == s.ids && t.ops == s.ops && t.mode == s.mode
    requires t.h.reapFault == s.h.reapFault
    requires forall b | b in s.ops && s.ops[b].kind.Destroy? :: b in t.db.apps ==> b in s.db.apps
    requires forall b, r | b in s.ops && s.ops[b].kind.Destroy? && r in t.db.releases && t.db.releases[r].app == b ::
               r in s.db.releases && s.db.releases[r].app == b
    ensures Inv(t)
  {
    hide OwnOk, LoopOk;
    forall b | b in t.ops ensures OpOk(t, b, t.ops[b]) {
      assert OpOk(s, b, s.ops[b]);
    }
    assert AllTended(t);
  }

  /** Before it has a machine a request promises nothing. */
  predicate NoMachine(pc: Pc) {
    ConfigPc(pc) || pc.RelSubnet? || pc.RelInsert? || pc.Subnet? || pc.Insert?
  }

  lemma NoMachineOk(s: State, a: string, op: Op)
    requires NoMachine(op.pc) && KindOk(op)
    ensures OpOk(s, a, op)
  {
  }

  /** A step whose request still has no machine, whatever it did elsewhere. */
  lemma EarlyKeeps(s: State, m: State, a: string, op: Op)
    requires Inv(s) && !s.mode.Reconciling? && a in s.ops && !s.ops[a].pc.Spawn? && DbOk(m.db)
    requires !s.ops[a].kind.Destroy? && NoMachine(op.pc) && KindOk(op)
    requires m == s.(db := m.db, cache := m.cache) && m.db.machines == s.db.machines
    requires forall b | b != a && b in m.db.apps :: b in s.db.apps
    requires forall r | r in m.db.releases && m.db.releases[r].app != a :: r in s.db.releases && m.db.releases[r] == s.db.releases[r]
    ensures Inv(WithOp(m, a, op))
  {
    hide OwnOk, LoopOk, GoneOk, DbOk;
    assert OpOk(s, a, s.ops[a]);
    Elsewhere(s, m);
    NoMachineOk(m, a, op);
    MoveOp(m, a, op);
  }

  /** appConfig, the cache, the build and LatestRelease. */
  lemma ConfigKeeps(s: State, a: string, c: Choice)
    requires Inv(s) && OpEnabled(s, a, c) && ConfigPc(s.ops[a].pc) && !s.ops[a].pc.Upsert? && !s.ops[a].pc.AddRelease?
    ensures Inv(OpStep(s, a, c))
  {
    hide Inv, OwnOk, LoopOk, GoneOk, DbOk, OpStep, EndOp;
    InOp(s, a);
    var op, t := s.ops[a], OpStep(s, a, c);
    DropOp(s, a);
    if op.pc.Load? || op.pc.LoadStored? || op.pc.LoadCached? { LoadShape(s, a, c); } else { ConfigShape(s, a, c); }
    hide KindOk;
    if a in t.ops { EarlyKeeps(s, s.(cache := t.cache), a, t.ops[a]); }
  }

  ghost predicate CacheOnly(s: State, t: State, a: string)
    requires a in s.ops
  {
    && t == (if a in t.ops then WithOp(s.(cache := t.cache), a, t.ops[a]) else EndOp(s, a))
    && (a in t.ops ==> NoMachine(t.ops[a].pc) && KindOk(t.ops[a]))
  }

  lemma LoadShape(s: State, a: string, c: Choice)
    requires OpEnabled(s, a, c) && (s.ops[a].pc.Load? || s.ops[a].pc.LoadStored? || s.ops[a].pc.LoadCached?) && KindOk(s.ops[a])
    ensures CacheOnly(s, OpStep(s, a, c), a)
  {
    hide OpOwes, Scaled;
  }

  lemma ConfigShape(s: State, a: string, c: Choice)
    requires OpEnabled(s, a, c) && (s.ops[a].pc.CacheCfg? || s.ops[a].pc.Build? || s.ops[a].pc.FindRelease?) && KindOk(s.ops[a])
    ensures CacheOnly(s, OpStep(s, a, c), a)
  {
    hide OpOwes, LatestRelease;
  }

  lemma StoreConfigKeeps(s: State, a: string, c: Choice)
    requires Inv(s) && OpEnabled(s, a, c) && (s.ops[a].pc.Upsert? || s.ops[a].pc.AddRelease?)
    ensures s.ops[a].pc.Upsert? ==> Inv(DoUpsert(s, a, s.ops[a], c))
    ensures s.ops[a].pc.AddRelease? ==> Inv(DoAddRelease(s, a, s.ops[a], c))
  {
    hide Inv, OwnOk, LoopOk, GoneOk;
    InOp(s, a);
    var op := s.ops[a];
    DropOp(s, a);
    if op.pc.Upsert? {
      var t := DoUpsert(s, a, op, c);
      StoreLemmas.UpsertAppKeeps(s.db, a, op.cfg);
      hide DbOk;
      if a in t.ops { EarlyKeeps(s, s.(db := t.db), a, t.ops[a]); }
    } else {
      var t := DoAddRelease(s, a, op, c);
      StoreLemmas.InsertReleaseKeeps(s.db, Release(a, ""));
      hide DbOk;
      if a in t.ops { EarlyKeeps(s, s.(db := t.db), a, t.ops[a]); }
    }
  }

  // ----- steps that touch one machine of one app ---------------------------------

  ghost predicate Same<K(!new), V>(m: map<K, V>, n: map<K, V>, k: K) {
    (k in m <==> k in n) && (k in m ==> m[k] == n[k])
  }

  /** Reconcile moves on without losing track of a row other than `id`. */
  ghost predicate MoveMode(m: Mode, n: Mode, id: MachineId) {
    && m.Reconciling? && n.Reconciling?
    && (forall j | j != id :: Unprocessed(m, j) ==> Unprocessed(n, j))
    && (m.rpc.RSpawn? ==> m.rcur == id)
  }

  /** Only `id` changes, a machine of app `a`, and only `a`'s request moves. */
  ghost predicate OnlyId(s: State, t: State, a: string, id: MachineId) {
    && (t.mode == s.mode || MoveMode(s.mode, t.mode, id)) && (s.h.reapFault ==> t.h.reapFault)
    && id in t.ids.appOf && t.ids.appOf[id] == a && (id in s.ids.appOf ==> s.ids.appOf[id] == a)
    && (forall j | j != id ::
          && Same(s.db.machines, t.db.machines, j) && Same(s.vm.procs, t.vm.procs, j)
          && Same(s.vm.handles, t.vm.handles, j) && Same(s.vm.watchers, t.vm.watchers, j)
          && Same(s.ids.appOf, t.ids.appOf, j) && (j in s.ids.stopped <==> j in t.ids.stopped)
          && (j in s.ids.crashed <==> j in t.ids.crashed) && (j in s.ids.relIds <==> j in t.ids.relIds))
    && (forall b | b != a :: Same(s.ops, t.ops, b))
    && t.db.apps == s.db.apps && t.db.releases == s.db.releases
  }

  /** Another app's request sees nothing of it. */
  lemma OtherOp(s: State, t: State, a: string, id: MachineId, b: string)
    requires OnlyId(s, t, a, id) && b != a && b in s.ops
    requires AllIds(s.db.machines, s.vm, s.ids) && IdOk(t.db.machines, t.vm, t.ids, id)
    requires OpOk(s, b, s.ops[b])
    ensures b in t.ops && OpOk(t, b, t.ops[b])
  {
    assert Same(s.ops, t.ops, b);
    var op := s.ops[b];
    OtherOwn(s, t, a, id, b, op);
    OtherLoop(s, t, a, id, b, op);
  }

  lemma OtherOwn(s: State, t: State, a: string, id: MachineId, b: string, op: Op)
    requires OnlyId(s, t, a, id) && b != a && KindOk(op)
    requires OwnOk(s.db.machines, s.vm, s.ids, s.mode.Stopping?, b, op)
    ensures OwnOk(t.db.machines, t.vm, t.ids, t.mode.Stopping?, b, op)
  {
    if RelOwn(op.pc) || BootOwn(op.pc) || Cutover(op) {
      assert op.id != id;
      assert Same(s.db.machines, t.db.machines, op.id);
    }
  }

  lemma OtherLoop(s: State, t: State, a: string, id: MachineId, b: string, op: Op)
    requires OnlyId(s, t, a, id) && b != a
    requires IdOk(t.db.machines, t.vm, t.ids, id)
    requires LoopOk(s.db.machines, s.ids.appOf, b, op)
    ensures LoopOk(t.db.machines, t.ids.appOf, b, op)
  {
    assert forall m | m in t.db.machines && t.db.machines[m].app == b :: m != id && Same(s.db.machines, t.db.machines, m);
    assert forall m | m in s.ids.appOf && s.ids.appOf[m] == b :: m != id && Same(s.ids.appOf, t.ids.appOf, m);
    assert op.cur != id ==> Same(s.db.machines, t.db.machines, op.cur);
  }

  lemma OneId(s: State, t: State, a: string, id: MachineId)
    requires Inv(s) && DbOk(t.db) && OnlyId(s, t, a, id)
    requires t.mode.Reconciling? ==> ReconOk(t.db.machines, t.vm, t.ops, t.mode)
    requires IdOk(t.db.machines, t.vm, t.ids, id)
    requires a in t.ops ==> OpOk(t, a, t.ops[a])
    requires a in s.ops && s.ops[a].pc.Spawn? ==> s.ops[a].id == id || Same(s.ops, t.ops, a)
    requires IsRunning(t.db.machines, id) && !t.mode.Stopping? && !t.h.reapFault && !Unprocessed(t.mode, id) ==> Tended(t, id)
    requires id in s.vm.procs ==> id in t.vm.procs
    requires id in t.ids.relIds ==> id in s.ids.relIds || id !in s.vm.procs
    ensures Inv(t)
  {
    hide KindOk, OwnOk, LoopOk, GoneOk;
    forall j ensures IdOk(t.db.machines, t.vm, t.ids, j) {
      if j != id {
        assert IdOk(s.db.machines, s.vm, s.ids, j);
        assert Same(s.db.machines, t.db.machines, j);
      }
    }
    forall b | b in t.ops ensures OpOk(t, b, t.ops[b]) {
      if b != a {
        assert Same(s.ops, t.ops, b);
        OtherOp(s, t, a, id, b);
      }
    }
    TendedFrame(s, t, a, id);
    StopAllFrame(s, t, a, id);
  }

  lemma StopAllFrame(s: State, t: State, a: string, id: MachineId)
    requires OnlyId(s, t, a, id) && StopAllOk(s.vm, s.ids, s.mode)
    requires id in s.vm.procs ==> id in t.vm.procs
    requires id in t.ids.relIds ==> id in s.ids.relIds || id !in s.vm.procs
    ensures StopAllOk(t.vm, t.ids, t.mode)
  {
    if t.mode.Stopping? {
      forall x | x in t.mode.stodo ensures x in t.vm.procs && x !in t.ids.relIds {
        if x != id { assert Same(s.vm.procs, t.vm.procs, x); }
      }
    }
  }

  lemma TendedFrame(s: State, t: State, a: string, id: MachineId)
    requires OnlyId(s, t, a, id) && AllTended(s)
    requires a in s.ops && s.ops[a].pc.Spawn? ==> s.ops[a].id == id || Same(s.ops, t.ops, a)
    requires IsRunning(t.db.machines, id) && !t.mode.Stopping? && !t.h.reapFault && !Unprocessed(t.mode, id) ==> Tended(t, id)
    ensures AllTended(t)
  {
    if !t.mode.Stopping? && !t.h.reapFault {
      forall j | IsRunning(t.db.machines, j) && !Unprocessed(t.mode, j) ensures Tended(t, j) {
        if j != id {
          assert Same(s.db.machines, t.db.machines, j);
          assert Tended(s, j);
          if j in s.ids.appOf { assert s.ids.appOf[j] != a ==> Same(s.ops, t.ops, s.ids.appOf[j]); }
        }
      }
    }
  }

  lemma AnId(s: State, id: MachineId)
    requires Inv(s)
    ensures IdOk(s.db.machines, s.vm, s.ids, id)
  {
  }

  lemma SubnetKeeps(s: State, a: string, c: Choice, next: Pc)
    requires Inv(s) && OpEnabled(s, a, c) && NoMachine(s.ops[a].pc) && NoMachine(next) && !ConfigPc(next)
    requires !s.ops[a].kind.Destroy?
    ensures Inv(AllocSubnet(s, a, s.ops[a], c, next))
  {
    hide OwnOk, LoopOk, GoneOk, DbOk, AllIds, AllTended;
    var t := AllocSubnet(s, a, s.ops[a], c, next);
    assert OpOk(s, a, s.ops[a]);
    DropOp(s, a);
    if a in t.ops {
      StoreLemmas.SubnetForOwnerKeeps(s.db, s.db.apps[a].owner);
      EarlyKeeps(s, s.(db := t.db), a, t.ops[a]);
    }
  }

  /** Outside the stop loop and Destroy's tail LoopOk and GoneOk say nothing. */
  lemma PlainOk(s: State, a: string, op: Op)
    requires !op.kind.Destroy? && (RelOwn(op.pc) || BootOwn(op.pc) || NoMachine(op.pc) || op.pc.Spawn? || op.pc.ListOld?)
    ensures LoopOk(s.db.machines, s.ids.appOf, a, op) && GoneOk(s.db.apps, s.db.releases, a, op)
  {
  }

  lemma InsertKeeps(s: State, a: string, c: Choice, next: Pc)
    requires Inv(s) && OpEnabled(s, a, c) && NoMachine(s.ops[a].pc) && !s.ops[a].kind.Destroy?
    requires c.id !in s.ids.appOf && next in {RelStart, Start}
    ensures Inv(InsertRow(s, a, s.ops[a], c, next))
  {
    hide Inv, LoopOk, GoneOk, OwnOk, DbOk, IdOk, EndOp;
    InOp(s, a);
    DropOp(s, a);
    AnId(s, c.id);
    StoreLemmas.AllocAndInsertKeeps(s.db, c.id, a, s.ops[a].rel, s.ops[a].idx);
    var r := AllocAndInsertMachine(s.db, c.id, a, s.ops[a].rel, s.ops[a].idx);
    hide KindOk, NoMachine;
    if c.ok && r.Some? {
      InsertedRow(s.db, c.id, a, s.ops[a].rel, s.ops[a].idx);
      hide AllocAndInsertMachine;
      Inserted(s, a, r.value.0, c.id, next);
    }
  }

  lemma InsertedRow(db: Db, id: MachineId, a: string, rel: nat, idx: nat)
    requires AllocAndInsertMachine(db, id, a, rel, idx).Some?
    ensures var db' := AllocAndInsertMachine(db, id, a, rel, idx).value.0;
            id in db'.machines && db'.machines[id].app == a && db'.machines[id].state == Starting
  {
    hide FreeIp;
  }

  lemma Inserted(s: State, a: string, db: Db, id: MachineId, next: Pc)
    requires Inv(s) && a in s.ops && !s.mode.Reconciling? && !s.ops[a].pc.Spawn? && !s.ops[a].kind.Destroy? && next in {RelStart, Start}
    requires KindOk(s.ops[a]) && id !in s.ids.appOf && IdOk(s.db.machines, s.vm, s.ids, id) && DbOk(db)
    requires db.machines.Keys == s.db.machines.Keys + {id} && (forall j | j in s.db.machines :: db.machines[j] == s.db.machines[j])
    requires db.machines[id].app == a && db.machines[id].state == Starting
    requires db.apps == s.db.apps && db.releases == s.db.releases
    ensures Inv(WithOp(s.(db := db, ids := s.ids.(appOf := s.ids.appOf[id := a],
                                                  relIds := if next == RelStart then s.ids.relIds + {id} else s.ids.relIds)),
                       a, s.ops[a].(id := id, pc := next)))
  {
    hide Inv, DbOk, LoopOk, GoneOk, OwnOk;
    var op := s.ops[a].(id := id, pc := next);
    var t := WithOp(s.(db := db, ids := s.ids.(appOf := s.ids.appOf[id := a],
                                               relIds := if next == RelStart then s.ids.relIds + {id} else s.ids.relIds)), a, op);
    assert id !in s.vm.watchers && id !in s.vm.procs;
    InsertedOwn(t.db.machines, t.vm, t.ids, t.mode.Stopping?, a, op);
    PlainOk(t, a, op);
    assert KindOk(op);
    InsertedId(s, a, db, id, next);
    hide KindOk, IdOk, OnlyId;
    OneId(s, t, a, id);
  }

  lemma InsertedId(s: State, a: string, db: Db, id: MachineId, next: Pc)
    requires a in s.ops && id !in s.ids.appOf && IdOk(s.db.machines, s.vm, s.ids, id)
    requires db.machines.Keys == s.db.machines.Keys + {id} && (forall j | j in s.db.machines :: db.machines[j] == s.db.machines[j])
    requires db.machines[id].app == a && db.machines[id].state == Starting
    requires db.apps == s.db.apps && db.releases == s.db.releases
    ensures var t := WithOp(s.(db := db, ids := s.ids.(appOf := s.ids.appOf[id := a],
                                                       relIds := if next == RelStart then s.ids.relIds + {id} else s.ids.relIds)),
                            a, s.ops[a].(id := id, pc := next));
            OnlyId(s, t, a, id) && IdOk(t.db.machines, t.vm, t.ids, id)
  {
  }

  lemma InsertedOwn(rows: Rows, vm: Vms, ids: Ids, shutting: bool, a: string, op: Op)
    requires op.pc in {RelStart, Start} && op.id in ids.appOf && ids.appOf[op.id] == a
    requires op.id in rows && rows[op.id].state == Starting && op.id !in vm.watchers && op.id !in vm.procs
    requires op.id in ids.relIds <==> op.pc == RelStart
    ensures OwnOk(rows, vm, ids, shutting, a, op)
  {
  }

  lemma LeakKeeps(s: State, leaked: set<MachineId>)
    requires Inv(s)
    ensures Inv(s.(h := s.h.(leaked := leaked)))
  {
    hide DbOk;
    InvDb(s);
    Elsewhere(s, s.(h := s.h.(leaked := leaked)));
  }

  lemma InvDb(s: State)
    requires Inv(s)
    ensures DbOk(s.db)
  {
  }

  /** Runtime.Start succeeded: the request's machine has a process. */
  lemma Started(s: State, a: string, pid: Pid, next: Pc)
    requires Inv(s) && a in s.ops
    requires (s.ops[a].pc.RelStart? && next == RelWait) || (s.ops[a].pc.Start? && next == SetHandle)
    ensures Inv(WithOp(s.(vm := s.vm.(procs := s.vm.procs[s.ops[a].id := Proc(pid, true)])), a, s.ops[a].(pc := next)))
  {
    hide Inv, LoopOk, GoneOk, DbOk;
    InOp(s, a);
    var op := s.ops[a];
    var t := WithOp(s.(vm := s.vm.(procs := s.vm.procs[op.id := Proc(pid, true)])), a, op.(pc := next));
    PlainOk(t, a, t.ops[a]);
    StartedOwn(s.db.machines, s.vm, s.ids, s.mode.Stopping?, a, op, pid, next);
    assert KindOk(t.ops[a]);
    hide OwnOk, KindOk;
    assert OnlyId(s, t, a, op.id);
    hide OnlyId;
    OneId(s, t, a, op.id);
  }

  lemma StartedOwn(rows: Rows, vm: Vms, ids: Ids, shutting: bool, a: string, op: Op, pid: Pid, next: Pc)
    requires OwnOk(rows, vm, ids, shutting, a, op) && IdOk(rows, vm, ids, op.id)
    requires (op.pc.RelStart? && next == RelWait) || (op.pc.Start? && next == SetHandle)
    ensures var vm' := vm.(procs := vm.procs[op.id := Proc(pid, true)]);
            && OwnOk(rows, vm', ids, shutting, a, op.(pc := next)) && IdOk(rows, vm', ids, op.id)
            && op.id in ids.appOf && ids.appOf[op.id] == a && !IsRunning(rows, op.id)
            && op.id !in vm.procs && (op.id in ids.relIds ==> next == RelWait)
  {
  }

  lemma RelStartKeeps(s: State, a: string, c: Choice)
    requires Inv(s) && OpEnabled(s, a, c) && s.ops[a].pc.RelStart?
    ensures Inv(DoRelStart(s, a, s.ops[a], c))
  {
    hide Inv, LoopOk, GoneOk, DbOk;
    InOp(s, a);
    if c.ok {
      Started(s, a, c.pid, RelWait);
    } else {
      PlainOk(s, a, s.ops[a].(gate := false, pc := RelDelete));
      MoveOp(s, a, s.ops[a].(gate := false, pc := RelDelete));
    }
  }

  lemma RelWaitKeeps(s: State, a: string, c: Choice)
    requires Inv(s) && OpEnabled(s, a, c) && s.ops[a].pc.RelWait?
    ensures Inv(DoRelWait(s, a, s.ops[a], c))
  {
    hide Inv, LoopOk, GoneOk, DbOk;
    InOp(s, a);
    var op, t := s.ops[a], DoRelWait(s, a, s.ops[a], c);
    PlainOk(t, a, t.ops[a]);
    MoveOp(s, a, t.ops[a]);
  }

  lemma RelStopKeeps(s: State, a: string, c: Choice)
    requires Inv(s) && OpEnabled(s, a, c) && s.ops[a].pc.RelStop?
    ensures Inv(DoRelStop(s, a, s.ops[a], c))
  {
    hide Inv, LoopOk, GoneOk, DbOk;
    InOp(s, a);
    var op, t := s.ops[a], DoRelStop(s, a, s.ops[a], c);
    PlainOk(t, a, t.ops[a]);
    assert a in t.ops ==> OpOk(t, a, t.ops[a]);
    hide OwnOk, KindOk;
    assert OnlyId(s, t, a, op.id);
    hide OnlyId;
    OneId(s, t, a, op.id);
  }

  lemma RelDeleteKeeps(s: State, a: string, c: Choice)
    requires Inv(s) && OpEnabled(s, a, c) && s.ops[a].pc.RelDelete?
    ensures Inv(DoRelDelete(s, a, s.ops[a], c))
  {
    hide Inv, LoopOk, GoneOk, DbOk;
    InOp(s, a);
    var op, t := s.ops[a], DoRelDelete(s, a, s.ops[a], c);
    if c.ok {
      StoreLemmas.DeleteMachineKeeps(s.db, op.id);
      if a in t.ops { NoMachineOk(t, a, t.ops[a]); }
      hide OwnOk, KindOk;
      assert OnlyId(s, t, a, op.id);
      hide OnlyId;
      OneId(s, t, a, op.id);
    } else {
      LeakKeeps(s, s.h.leaked + {op.id});
      var m := s.(h := s.h.(leaked := s.h.leaked + {op.id}));
      DropOp(m, a);
      if op.gate {
        NoMachineOk(m, a, t.ops[a]);
        MoveOp(m, a, t.ops[a]);
      }
    }
  }

  lemma StartKeeps(s: State, a: string, c: Choice)
    requires Inv(s) && OpEnabled(s, a, c) && s.ops[a].pc.Start?
    ensures Inv(DoStart(s, a, s.ops[a], c))
  {
    hide Inv, LoopOk, GoneOk, DbOk;
    InOp(s, a);
    if c.ok {
      Started(s, a, c.pid, SetHandle);
    } else if c.alt {
      LeakKeeps(s, s.h.leaked + {s.ops[a].id});
      DropOp(s.(h := s.h.(leaked := s.h.leaked + {s.ops[a].id})), a);
    } else {
      PlainOk(s, a, s.ops[a].(pc := FailState));
      MoveOp(s, a, s.ops[a].(pc := FailState));
    }
  }

  lemma SetHandleKeeps(s: State, a: string, c: Choice)
    requires Inv(s) && OpEnabled(s, a, c) && s.ops[a].pc.SetHandle?
    ensures Inv(DoSetHandle(s, a, s.ops[a]))
  {
    hide Inv, LoopOk, GoneOk, DbOk;
    InOp(s, a);
    var op, t := s.ops[a], DoSetHandle(s, a, s.ops[a]);
    PlainOk(t, a, t.ops[a]);
    assert a in t.ops ==> OpOk(t, a, t.ops[a]);
    hide OwnOk, KindOk;
    assert OnlyId(s, t, a, op.id);
    hide OnlyId;
    OneId(s, t, a, op.id);
  }

  lemma AwaitKeeps(s: State, a: string, c: Choice)
    requires Inv(s) && OpEnabled(s, a, c) && s.ops[a].pc.Await?
    ensures Inv(DoAwait(s, a, s.ops[a], c))
  {
    hide Inv, LoopOk, GoneOk, DbOk;
    InOp(s, a);
    var op, t := s.ops[a], DoAwait(s, a, s.ops[a], c);
    PlainOk(t, a, t.ops[a]);
    MoveOp(s, a, t.ops[a]);
  }

  lemma MarkKeeps(s: State, a: string, c: Choice)
    requires Inv(s) && OpEnabled(s, a, c) && s.ops[a].pc.Mark?
    ensures Inv(DoMark(s, a, s.ops[a], c))
  {
    hide Inv, LoopOk, GoneOk, DbOk;
    InOp(s, a);
    var op, t := s.ops[a], DoMark(s, a, s.ops[a], c);
    StoreLemmas.SetMachineStateKeeps(s.db, op.id, Running, s.vm.procs[op.id].pid);
    if c.ok {
      PlainOk(t, a, t.ops[a]);
      assert OpOk(t, a, t.ops[a]);
      hide OwnOk, KindOk;
      assert OnlyId(s, t, a, op.id);
      hide OnlyId;
      OneId(s, t, a, op.id);
    } else {
      LeakKeeps(s, s.h.leaked + {op.id});
      DropOp(s.(h := s.h.(leaked := s.h.leaked + {op.id})), a);
    }
  }

  lemma SpawnKeeps(s: State, a: string, c: Choice)
    requires Inv(s) && OpEnabled(s, a, c) && s.ops[a].pc.Spawn?
    ensures Inv(DoSpawn(s, a, s.ops[a]))
  {
    hide Inv, LoopOk, GoneOk, DbOk;
    InOp(s, a);
    var op, t := s.ops[a], DoSpawn(s, a, s.ops[a]);
    PlainOk(t, a, t.ops[a]);
    assert a in t.ops ==> OpOk(t, a, t.ops[a]);
    hide OwnOk, KindOk;
    assert OnlyId(s, t, a, op.id);
    hide OnlyId;
    OneId(s, t, a, op.id);
  }

  lemma StopNewKeeps(s: State, a: string, c: Choice)
    requires Inv(s) && OpEnabled(s, a, c) && s.ops[a].pc.StopNew?
    ensures Inv(DoStopNew(s, a, s.ops[a], c))
  {
    hide Inv, LoopOk, GoneOk, DbOk;
    InOp(s, a);
    var op, t := s.ops[a], DoStopNew(s, a, s.ops[a], c);
    PlainOk(t, a, t.ops[a]);
    assert a in t.ops ==> OpOk(t, a, t.ops[a]);
    hide OwnOk, KindOk;
    assert OnlyId(s, t, a, op.id);
    hide OnlyId;
    OneId(s, t, a, op.id);
  }

  lemma ForgetNewKeeps(s: State, a: string, c: Choice)
    requires Inv(s) && OpEnabled(s, a, c) && s.ops[a].pc.ForgetNew?
    ensures Inv(DoForgetNew(s, a, s.ops[a]))
  {
    hide Inv, LoopOk, GoneOk, DbOk;
    InOp(s, a);
    var op, t := s.ops[a], DoForgetNew(s, a, s.ops[a]);
    PlainOk(t, a, t.ops[a]);
    assert a in t.ops ==> OpOk(t, a, t.ops[a]);
    hide OwnOk, KindOk;
    assert OnlyId(s, t, a, op.id);
    hide OnlyId;
    OneId(s, t, a, op.id);
  }

  lemma FailStateOwn(rows: Rows, vm: Vms, ids: Ids, shutting: bool, a: string, op: Op)
    requires op.pc.FailState? && !op.kind.Destroy? && OwnOk(rows, vm, ids, shutting, a, op)
    ensures op.id in rows && op.id in ids.appOf && ids.appOf[op.id] == a
    ensures OwnOk(rows[op.id := rows[op.id].(state := Failed, pid := 0)], vm, ids, shutting, a, op.(pc := FailDelete))
    ensures OwnOk(rows, vm, ids, shutting, a, op.(pc := FailDelete))
  {
  }

  lemma FailStateKeeps(s: State, a: string, c: Choice)
    requires Inv(s) && OpEnabled(s, a, c) && s.ops[a].pc.FailState?
    ensures Inv(DoFailState(s, a, s.ops[a], c))
  {
    hide Inv, LoopOk, GoneOk, DbOk, OwnOk;
    InOp(s, a);
    var op, t := s.ops[a], DoFailState(s, a, s.ops[a], c);
    PlainOk(t, a, t.ops[a]);
    StoreLemmas.SetMachineStateKeeps(s.db, op.id, Failed, 0);
    FailStateOwn(s.db.machines, s.vm, s.ids, s.mode.Stopping?, a, op);
    assert KindOk(t.ops[a]);
    hide KindOk;
    if c.ok {
      assert OnlyId(s, t, a, op.id);
      hide OnlyId;
      OneId(s, t, a, op.id);
    } else {
      MoveOp(s, a, t.ops[a]);
    }
  }

  lemma FailDeleteKeeps(s: State, a: string, c: Choice)
    requires Inv(s) && OpEnabled(s, a, c) && s.ops[a].pc.FailDelete?
    ensures Inv(DoFailDelete(s, a, s.ops[a], c))
  {
    hide Inv, LoopOk, GoneOk, DbOk;
    InOp(s, a);
    var op, t := s.ops[a], DoFailDelete(s, a, s.ops[a], c);
    StoreLemmas.DeleteMachineKeeps(s.db, op.id);
    hide OwnOk, KindOk;
    assert OnlyId(s, t, a, op.id);
    hide OnlyId;
    OneId(s, t, a, op.id);
  }

  // ----- stopOldMachines and Destroy --------------------------------------------------

  lemma ListKeeps(s: State, a: string, c: Choice)
    requires Inv(s) && OpEnabled(s, a, c) && (s.ops[a].pc.ListOld? || s.ops[a].pc.ListAll?)
    ensures s.ops[a].pc.ListOld? ==> Inv(DoListOld(s, a, s.ops[a], c))
    ensures s.ops[a].pc.ListAll? ==> Inv(DoListAll(s, a, s.ops[a], c))
  {
    hide Inv, DbOk;
    InOp(s, a);
    DropOp(s, a);
    var op := s.ops[a];
    if c.ok {
      var t := if op.pc.ListOld? then DoListOld(s, a, op, c) else DoListAll(s, a, op, c);
      ListedOk(s, a, op, c, t.ops[a]);
      assert KindOk(t.ops[a]) && GoneOk(s.db.apps, s.db.releases, a, t.ops[a]);
      assert OwnOk(s.db.machines, s.vm, s.ids, s.mode.Stopping?, a, t.ops[a]);
      hide KindOk, OwnOk, LoopOk, GoneOk;
      MoveOp(s, a, t.ops[a]);
    }
  }

  lemma ListedOk(s: State, a: string, op: Op, c: Choice, op': Op)
    requires Inv(s) && a in s.ops && s.ops[a] == op && c.ok
    requires op.pc.ListOld? || op.pc.ListAll?
    requires op' == (if op.pc.ListOld? then DoListOld(s, a, op, c) else DoListAll(s, a, op, c)).ops[a]
    ensures LoopOk(s.db.machines, s.ids.appOf, a, op')
  {
    hide Inv, DbOk, OwnOk;
    InOp(s, a);
    forall m | m in MachinesOf(s.db, a) ensures m in s.ids.appOf && s.ids.appOf[m] == a { AnId(s, m); }
    assert forall m | m in s.db.machines && s.db.machines[m].app == a :: m in MachinesOf(s.db, a);
    if op.pc.ListOld? {
      assert forall m | IsRunning(s.db.machines, m) && s.db.machines[m].app == a :: m == op.id || m in op'.todo;
    } else {
      assert op'.todo == MachinesOf(s.db, a);
    }
  }

  lemma TendedId(s: State, id: MachineId)
    requires Inv(s)
    ensures !s.mode.Stopping? && !s.h.reapFault && IsRunning(s.db.machines, id) && !Unprocessed(s.mode, id) ==> Tended(s, id)
  {
  }

  lemma StopNextKeeps(s: State, a: string, c: Choice)
    requires Inv(s) && OpEnabled(s, a, c) && s.ops[a].pc.StopNext?
    ensures Inv(DoStopNext(s, a, s.ops[a], c))
  {
    hide Inv, DbOk;
    InOp(s, a);
    var t := DoStopNext(s, a, s.ops[a], c);
    StopNextLoop(s, a, c);
    StopNextOwn(s, a, c);
    StopNextRest(s, a, c);
    assert c.id in s.ids.appOf && s.ids.appOf[c.id] == a;
    hide LoopOk, OwnOk, GoneOk, KindOk;
    if c.id in s.vm.handles {
      StopNextId(s, a, c);
      hide IdOk;
      TendedId(s, c.id);
      HaltedTended(s, t, a, c);
      OneId(s, t, a, c.id);
    } else {
      MoveOp(s, a, t.ops[a]);
    }
  }

  lemma StopNextRest(s: State, a: string, c: Choice)
    requires OpEnabled(s, a, c) && s.ops[a].pc.StopNext? && KindOk(s.ops[a]) && GoneOk(s.db.apps, s.db.releases, a, s.ops[a])
    ensures var t := DoStopNext(s, a, s.ops[a], c); KindOk(t.ops[a]) && GoneOk(t.db.apps, t.db.releases, a, t.ops[a])
  {
  }

  /** Stopping a machine touches only its process. */
  lemma StopNextId(s: State, a: string, c: Choice)
    requires Inv(s) && OpEnabled(s, a, c) && s.ops[a].pc.StopNext? && c.id in s.vm.handles
    requires c.id in s.ids.appOf && s.ids.appOf[c.id] == a
    ensures var t := DoStopNext(s, a, s.ops[a], c);
            OnlyId(s, t, a, c.id) && IdOk(t.db.machines, t.vm, t.ids, c.id)
    ensures c.id in s.vm.procs && DoStopNext(s, a, s.ops[a], c).ids.relIds == s.ids.relIds
  {
    hide Inv;
    AnId(s, c.id);
  }

  lemma HaltedTended(s: State, t: State, a: string, c: Choice)
    requires a in s.ops && s.ops[a].pc.StopNext? && c.id in s.vm.procs && t == DoStopNext(s, a, s.ops[a], c)
    ensures Tended(s, c.id) ==> Tended(t, c.id)
  {
  }

  lemma StopNextOwn(s: State, a: string, c: Choice)
    requires OpEnabled(s, a, c) && s.ops[a].pc.StopNext? && KindOk(s.ops[a])
    requires LoopOk(s.db.machines, s.ids.appOf, a, s.ops[a])
    requires OwnOk(s.db.machines, s.vm, s.ids, s.mode.Stopping?, a, s.ops[a])
    ensures var t := DoStopNext(s, a, s.ops[a], c); OwnOk(t.db.machines, t.vm, t.ids, t.mode.Stopping?, a, t.ops[a])
  {
  }

  lemma StopNextLoop(s: State, a: string, c: Choice)
    requires OpEnabled(s, a, c) && s.ops[a].pc.StopNext? && LoopOk(s.db.machines, s.ids.appOf, a, s.ops[a])
    ensures var t := DoStopNext(s, a, s.ops[a], c); LoopOk(t.db.machines, t.ids.appOf, a, t.ops[a])
  {
  }

  lemma DropNextOk(s: State, a: string, c: Choice)
    requires OpEnabled(s, a, c) && s.ops[a].pc.DropNext? && c.ok && OpOk(s, a, s.ops[a])
    ensures var t := DoDropNext(s, a, s.ops[a], c); OpOk(t, a, t.ops[a])
  {
    var op, t := s.ops[a], DoDropNext(s, a, s.ops[a], c);
    assert OwnOk(t.db.machines, t.vm, t.ids, t.mode.Stopping?, a, t.ops[a]);
    hide OwnOk;
    assert LoopOk(t.db.machines, t.ids.appOf, a, t.ops[a]);
  }

  lemma DropNextId(s: State, a: string, c: Choice)
    requires OpEnabled(s, a, c) && s.ops[a].pc.DropNext? && c.ok && LoopOk(s.db.machines, s.ids.appOf, a, s.ops[a])
    requires IdOk(s.db.machines, s.vm, s.ids, s.ops[a].cur)
    ensures var t := DoDropNext(s, a, s.ops[a], c);
            && OnlyId(s, t, a, s.ops[a].cur) && IdOk(t.db.machines, t.vm, t.ids, s.ops[a].cur)
            && s.ops[a].cur !in t.db.machines && t.vm == s.vm && t.ids == s.ids && t.mode == s.mode
            && t.db == DeleteMachine(s.db, s.ops[a].cur) && a in t.ops
  {
  }

  lemma DropNextKeeps(s: State, a: string, c: Choice)
    requires Inv(s) && OpEnabled(s, a, c) && s.ops[a].pc.DropNext?
    ensures Inv(DoDropNext(s, a, s.ops[a], c))
  {
    hide Inv, DbOk, KindOk, OwnOk, LoopOk, GoneOk;
    InOp(s, a);
    DropOp(s, a);
    if c.ok {
      StoreLemmas.DeleteMachineKeeps(s.db, s.ops[a].cur);
      DropNextOk(s, a, c);
      DropNextId(s, a, c);
      hide DoDropNext, OnlyId, IdOk, OpOk, DeleteMachine;
      OneId(s, DoDropNext(s, a, s.ops[a], c), a, s.ops[a].cur);
    }
  }

  lemma ForgetNextOk(s: State, a: string, c: Choice)
    requires OpEnabled(s, a, c) && s.ops[a].pc.ForgetNext? && OpOk(s, a, s.ops[a])
    ensures var t := DoForgetNext(s, a, s.ops[a]); OpOk(t, a, t.ops[a])
  {
    var t := DoForgetNext(s, a, s.ops[a]);
    assert OwnOk(t.db.machines, t.vm, t.ids, t.mode.Stopping?, a, t.ops[a]);
    hide OwnOk;
    assert LoopOk(t.db.machines, t.ids.appOf, a, t.ops[a]);
  }

  lemma ForgetNextId(s: State, a: string, c: Choice)
    requires OpEnabled(s, a, c) && s.ops[a].pc.ForgetNext? && LoopOk(s.db.machines, s.ids.appOf, a, s.ops[a])
    requires IdOk(s.db.machines, s.vm, s.ids, s.ops[a].cur)
    ensures var t := DoForgetNext(s, a, s.ops[a]);
            && OnlyId(s, t, a, s.ops[a].cur) && IdOk(t.db.machines, t.vm, t.ids, s.ops[a].cur)
            && s.ops[a].cur !in t.db.machines && t.vm.procs == s.vm.procs && t.ids == s.ids && t.mode == s.mode && t.db == s.db
            && a in t.ops
  {
  }

  lemma ForgetNextKeeps(s: State, a: string, c: Choice)
    requires Inv(s) && OpEnabled(s, a, c) && s.ops[a].pc.ForgetNext?
    ensures Inv(DoForgetNext(s, a, s.ops[a]))
  {
    hide Inv, DbOk, KindOk, OwnOk, LoopOk, GoneOk;
    InOp(s, a);
    ForgetNextOk(s, a, c);
    ForgetNextId(s, a, c);
    hide DoForgetNext, OnlyId, IdOk, OpOk;
    OneId(s, DoForgetNext(s, a, s.ops[a]), a, s.ops[a].cur);
  }

  lemma AnnounceKeeps(s: State, a: string, c: Choice)
    requires Inv(s) && OpEnabled(s, a, c) && s.ops[a].pc.Announce?
    ensures Inv(WithOp(s, a, s.ops[a].(pc := ApplyTunnel)))
  {
    hide Inv, DbOk;
    InOp(s, a);
    MoveOp(s, a, s.ops[a].(pc := ApplyTunnel));
  }

  lemma SetOwnerKeeps(s: State, a: string, c: Choice)
    requires Inv(s) && OpEnabled(s, a, c) && s.ops[a].pc.SetOwner?
    ensures Inv(DoSetOwner(s, a, s.ops[a], c))
  {
    hide Inv, OwnOk, LoopOk;
    InOp(s, a);
    var m := if c.ok && s.ops[a].kind.Deploy? then s.(db := SetAppOwner(s.db, a, s.ops[a].kind.owner)) else s;
    Elsewhere(s, m);
    DropOp(m, a);
  }

  lemma DestroyRowsKeeps(s: State, a: string, c: Choice)
    requires Inv(s) && OpEnabled(s, a, c) && (s.ops[a].pc.DropReleases? || s.ops[a].pc.DropApp?)
    ensures s.ops[a].pc.DropReleases? ==> Inv(DoDropReleases(s, a, s.ops[a], c))
    ensures s.ops[a].pc.DropApp? ==> Inv(DoDropApp(s, a, s.ops[a], c))
  {
    hide Inv, OwnOk;
    InOp(s, a);
    DropOp(s, a);
    var op := s.ops[a];
    var t := if op.pc.DropReleases? then DoDropReleases(s, a, op, c) else DoDropApp(s, a, op, c);
    if a in t.ops {
      StoreLemmas.DeleteReleasesKeeps(s.db, a);
      StoreLemmas.DeleteAppKeeps(s.db, a);
      assert DbOk(t.db);
      hide DbOk;
      Elsewhere(s, s.(db := t.db));
      DestroyTailOwn(s, a, op, t.ops[a]);
      MoveOp(s.(db := t.db), a, t.ops[a]);
    }
  }

  lemma DestroyTailOwn(s: State, a: string, op: Op, op': Op)
    requires op'.kind.Destroy? && (op'.pc.DropApp? || op'.pc.DropCache? || op'.pc.RemoveFiles? || op'.pc.ApplyTunnel?)
    ensures OwnOk(s.db.machines, s.vm, s.ids, s.mode.Stopping?, a, op')
  {
  }

  lemma DestroyFilesKeeps(s: State, a: string, c: Choice)
    requires Inv(s) && OpEnabled(s, a, c) && (s.ops[a].pc.DropCache? || s.ops[a].pc.RemoveFiles?)
    ensures s.ops[a].pc.DropCache? ==> Inv(DoDropCache(s, a, s.ops[a]))
    ensures s.ops[a].pc.RemoveFiles? ==> Inv(DoRemoveFiles(s, a, s.ops[a], c))
  {
    hide Inv, OwnOk, DbOk;
    InOp(s, a);
    DropOp(s, a);
    var op := s.ops[a];
    var t := if op.pc.DropCache? then DoDropCache(s, a, op) else DoRemoveFiles(s, a, op, c);
    if a in t.ops {
      Elsewhere(s, s.(cache := t.cache));
      DestroyTailOwn(s, a, op, t.ops[a]);
      MoveOp(s.(cache := t.cache), a, t.ops[a]);
    }
  }
}
