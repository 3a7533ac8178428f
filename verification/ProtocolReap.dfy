// Reaping: a watcher removes only its own dead machine's row, and no dead
// machine's row stays running once the watchers have finished.

module ProtocolReap {
  import opened Common
  import opened Tables
  import opened Tunnel
  import opened Protocol
  import opened ProtocolInv
  import opened ProtocolSteps
  import opened ProtocolRuns
  import opened ProtocolTheorems
  import opened ProtocolCutover

  /** Safe: a watcher's step changes at most its own machine's row, only when
      that machine's process is gone and, if the row still says running, only
      when it carries this watcher's pid; a row deleted meanwhile by
      stopOldMachines or Destroy stays deleted. */
  lemma ReapingIsSafe(s: State, id: MachineId, c: Choice)
    requires Inv(s) && WatchEnabled(s, id)
    ensures var t := WatchStep(s, id, c);
            && (forall j | j != id :: Same(s.db.machines, t.db.machines, j))
            && (!Same(s.db.machines, t.db.machines, id) ==>
                  && id in s.db.machines && id in s.vm.procs && !s.vm.procs[id].live
                  && (id in t.db.machines ==> t.db.machines[id] == s.db.machines[id].(state := Stopped, pid := 0))
                  && (IsRunning(s.db.machines, id) ==> s.db.machines[id].pid == s.vm.watchers[id].pid))
  {
    hide Inv, DbOk;
    WatchRows(s, id, c);
    AnId(s, id);
  }

  /** Complete: while serving, with no failure that loses track, once
      every watched process is alive and every boot past its `go watchMachine`,
      each running row has a live process and a handle with the row's pid. */
  lemma ReapingIsComplete(es: seq<Event>)
    requires ValidRun(INIT, es)
    ensures var t := Exec(INIT, es);
            t.mode.Serving? && !t.h.reapFault
            && (forall id | id in t.vm.watchers :: id in t.vm.procs && t.vm.procs[id].live)
            && (forall a | a in t.ops :: !t.ops[a].pc.Spawn?)
            ==> forall id | IsRunning(t.db.machines, id) ::
                  && id in t.vm.procs && t.vm.procs[id].live
                  && id in t.vm.handles && t.vm.handles[id] == t.db.machines[id].pid == t.vm.procs[id].pid
  {
    InitOk();
    RunKeeps(INIT, es);
    hide Inv, HolderOk, Exec, ValidRun;
    var t := Exec(INIT, es);
    if t.mode.Serving? && !t.h.reapFault {
      forall id | IsRunning(t.db.machines, id) ensures Tended(t, id) && IdOk(t.db.machines, t.vm, t.ids, id) {
        TendedId(t, id);
        AnId(t, id);
      }
    }
  }

  /** The failures that rule the next promise out: a watcher's row check; its delete
      of a row that it could not mark stopped either; Reconcile's listing; and its
      marking a row failed. */
  ghost predicate LosesTrack(s: State, e: Event) {
    || (e.EWatch? && e.id in s.vm.watchers && !e.c.ok
        && (s.vm.watchers[e.id].pc.Checked? || (s.vm.watchers[e.id].pc.Remove? && IsRunning(s.db.machines, e.id))))
    || (e.EReconcile? && s.mode.Reconciling? && !e.c.ok && (s.mode.rpc.RList? || s.mode.rpc.RFail?))
  }

  lemma OnlyTheseLoseTrack(s: State, e: Event)
    requires Enabled(s, e) && !s.h.reapFault
    ensures Next(s, e).h.reapFault <==> LosesTrack(s, e)
  {
    hide OpStep, TunnelStep;
    match e
    case EOp(a, c) => assert !OpStep(s, a, c).h.reapFault by { OpKeepsTrack(s, a, c); }
    case ETunnel(c) => assert !TunnelStep(s, c).h.reapFault by { TunnelKeepsTrack(s, c); }
    case EWatch(id, c) => hide ReconcileStep;
    case EReconcile(c) => hide WatchStep, SubnetForOwner;
    case _ => hide ReconcileStep, WatchStep;
  }

  lemma OpKeepsTrack(s: State, a: string, c: Choice)
    requires OpEnabled(s, a, c)
    ensures OpStep(s, a, c).h.reapFault == s.h.reapFault
  {
    OpIds(s, a, c);
    hide OpStep;
  }

  lemma TunnelKeepsTrack(s: State, c: Choice)
    requires TunnelEnabled(s)
    ensures TunnelStep(s, c).h.reapFault == s.h.reapFault
  {
    hide RunningList, LiveOf;
  }

  const FINE: Choice := Choice(true, true, 0, 0, [])

  lemma FiveSteps(s: State, e: Event)
    requires Enabled(s, e) && Enabled(Next(s, e), e) && Enabled(Next(Next(s, e), e), e)
    requires Enabled(Next(Next(Next(s, e), e), e), e) && Enabled(Next(Next(Next(Next(s, e), e), e), e), e)
    ensures ValidRun(s, [e, e, e, e, e])
    ensures Exec(s, [e, e, e, e, e]) == Next(Next(Next(Next(Next(s, e), e), e), e), e)
  {
    hide Enabled, Next;
    var s1 := Next(s, e);
    var s2 := Next(s1, e);
    var s3 := Next(s2, e);
    var s4 := Next(s3, e);
    Cons(s4, e, []);
    Cons(s3, e, [e]);
    Cons(s2, e, [e, e]);
    Cons(s1, e, [e, e, e]);
    Cons(s, e, [e, e, e, e]);
  }

  lemma Cons(s: State, e: Event, es: seq<Event>)
    requires Enabled(s, e) && ValidRun(Next(s, e), es)
    ensures ValidRun(s, [e] + es) && Exec(s, [e] + es) == Exec(Next(s, e), es)
  {
    hide Enabled, Next;
    assert ([e] + es)[1..] == es;
  }

  /** On the way: the tables, the handles and the watcher's pc as given. */
  ghost function Stage(s: State, id: MachineId, db: Db, handles: map<MachineId, Pid>, pc: WPc): State
    requires id in s.vm.watchers
  {
    s.(db := db, vm := s.vm.(handles := handles, watchers := s.vm.watchers[id := s.vm.watchers[id].(pc := pc)]))
  }

  ghost predicate Exited(s: State, id: MachineId) {
    && s.mode.Serving? && id in s.vm.watchers && id in s.vm.procs && !s.vm.procs[id].live
    && IsRunning(s.db.machines, id) && s.db.machines[id].pid == s.vm.watchers[id].pid
  }

  lemma FirstStages(s: State, id: MachineId)
    requires Exited(s, id)
    ensures var w, h := EWatch(id, FINE), s.vm.handles;
            && Enabled(Stage(s, id, s.db, h, Waiting), w)
            && Next(Stage(s, id, s.db, h, Waiting), w) == Stage(s, id, s.db, h, Checked)
            && Enabled(Stage(s, id, s.db, h, Checked), w)
            && Next(Stage(s, id, s.db, h, Checked), w) == Stage(s, id, s.db, h, Matched)
  {
  }

  lemma LastStages(s: State, id: MachineId)
    requires Exited(s, id)
    ensures var w, h := EWatch(id, FINE), s.vm.handles;
            var stopped := SetMachineState(s.db, id, Stopped, 0).value;
            && Enabled(Stage(s, id, s.db, h, Matched), w)
            && Next(Stage(s, id, s.db, h, Matched), w) == Stage(s, id, stopped, h, Unhandle)
            && Enabled(Stage(s, id, stopped, h, Unhandle), w)
            && Next(Stage(s, id, stopped, h, Unhandle), w) == Stage(s, id, stopped, h - {id}, Remove)
            && Enabled(Stage(s, id, stopped, h - {id}, Remove), w)
            && Next(Stage(s, id, stopped, h - {id}, Remove), w) == Stage(s, id, DeleteMachine(s.db, id), h - {id}, WApply)
  {
    var stopped := SetMachineState(s.db, id, Stopped, 0).value;
    assert DeleteMachine(stopped, id) == DeleteMachine(s.db, id);
  }

  /** And it does finish: when a running machine exits, five steps of its watcher
      take the row and the handle away and leave it owing a tunnel re-render. */
  lemma ReapingFinishes(s: State, id: MachineId)
    requires Inv(s) && s.mode.Serving? && !s.h.reapFault
    requires IsRunning(s.db.machines, id) && id in s.vm.watchers && s.vm.watchers[id].pc.Waiting?
    requires id in s.vm.procs && !s.vm.procs[id].live
    ensures var t := s.(db := DeleteMachine(s.db, id),
                        vm := s.vm.(handles := s.vm.handles - {id},
                                    watchers := s.vm.watchers[id := s.vm.watchers[id].(pc := WApply)]));
            var w := EWatch(id, FINE);
            ValidRun(s, [w, w, w, w, w]) && Exec(s, [w, w, w, w, w]) == t
  {
    assert Exited(s, id) by { AnId(s, id); }
    FirstStages(s, id);
    LastStages(s, id);
    assert s == Stage(s, id, s.db, s.vm.handles, Waiting);
    hide Inv, Exited, Stage, Next, Enabled;
    FiveSteps(s, EWatch(id, FINE));
    StageIs(s, id);
  }

  lemma StageIs(s: State, id: MachineId)
    requires id in s.vm.watchers
    ensures Stage(s, id, DeleteMachine(s.db, id), s.vm.handles - {id}, WApply) ==
            s.(db := DeleteMachine(s.db, id),
               vm := s.vm.(handles := s.vm.handles - {id}, watchers := s.vm.watchers[id := s.vm.watchers[id].(pc := WApply)]))
  {
  }
}
