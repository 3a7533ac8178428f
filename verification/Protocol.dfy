// oakd's control plane as an interleaving of atomic steps: one in-flight
// request per app, one watcher per machine, the startup reconcile pass, StopAll
// and the serialised tunnel re-render. Every store call, mutex section and
// handle call of internal/daemon/deploy.go and daemon.go is one step; Choice
// carries its outcome.

module Protocol {
  import opened Common
  import opened AppConfig
  import opened Tables
  import opened Tunnel
  import ExitStatus

  // ----- tasks ---------------------------------------------------------------

  datatype Kind =
    | Deploy(config: Config, owner: string)
    | Scale(memoryMB: nat, cpus: nat)
    | Restart
    | Destroy

  /** Where a request is. */
  datatype Pc =
    | Load | LoadStored | LoadCached                             // appConfig
    | Upsert | CacheCfg | Build | AddRelease | FindRelease
    | RelSubnet | RelInsert | RelStart | RelWait | RelStop | RelDelete  // runReleaseCommand
    | Subnet | Insert | Start | SetHandle | Await | Mark | Spawn // bootFromRelease
    | StopNew | ForgetNew | FailState | FailDelete               // its failure paths
    | ListOld | ListAll                                          // stopOldMachines, Destroy
    | StopNext | DropNext | ForgetNext                           // their common loop
    | Announce | SetOwner
    | DropReleases | DropApp | DropCache | RemoveFiles           // rest of Destroy
    | ApplyTunnel

  /** `changed`: this request has stored a new configuration. `id`: the machine
      it boots. `todo`, `cur`: the machines its stop loop still has to take. */
  datatype Op = Op(kind: Kind, pc: Pc, cfg: Config, changed: bool, rel: nat, idx: nat,
                   id: MachineId, gate: bool, todo: set<MachineId>, cur: MachineId)

  datatype WPc = Waiting | Checked | Matched | Unhandle | Remove | WApply
  datatype Watcher = Watcher(pid: Pid, pc: WPc)

  datatype Proc = Proc(pid: Pid, live: bool)

  datatype RPc = RList | RNext | RLoad | RLoadStored | RLoadCached(raw: Config) | RSubnet
               | RStart | RHandle | RMark | RSpawn | RFail | RApply

  datatype SPc = SCopy | SNext | SForget

  datatype Mode =
    | Reconciling(rpc: RPc, rtodo: set<MachineId>, rcur: MachineId)
    | Serving
    | Stopping(spc: SPc, stodo: set<MachineId>, scur: MachineId)

  /** applyTunnel under tunnelMu: before the row query, collecting configs, cache
      missed on the next row's app, and holding that app's stored config. */
  datatype Phase =
    | Locked
    | Reading(rows: seq<LiveRow>, cfgs: seq<Config>)
    | Missed(rows: seq<LiveRow>, cfgs: seq<Config>)
    | Fetched(rows: seq<LiveRow>, cfgs: seq<Config>, raw: Config)

  datatype Who = ByOp(app: string) | ByWatcher(id: MachineId) | ByReconcile
  datatype Tun = Free | Held(who: Who, phase: Phase)

  /** The maps under Deployer.mu and the goroutines and processes behind them. */
  datatype Vms = Vms(handles: map<MachineId, Pid>, procs: map<MachineId, Proc>, watchers: map<MachineId, Watcher>)

  /** What is known of ids for good. `appOf`: every id ever inserted, with its
      app; `stopped`: Stop was called on it; `crashed`: exited with no Stop;
      `relIds`: release-command machines. Only the theorems look at it. */
  datatype Ids = Ids(appOf: map<MachineId, string>, stopped: set<MachineId>, crashed: set<MachineId>, relIds: set<MachineId>)

  /** More that only the theorems look at. `leaked`: rows whose final delete
      failed or was cut off by a restart; `base`, `rfailed`: rows when Reconcile
      listed them, ids it failed to start; `kept`: rows alive when StopAll began
      with no request in flight (`quiet`); `dirty`: a task ended owing a tunnel
      re-render, or Reconcile could not list or mark a row; `reapFault`: a
      watcher could not check its row, or neither mark nor delete it, or Reconcile
      could not list the rows or mark one. */
  datatype History = History(
    leaked: set<MachineId>, base: map<MachineId, Machine>, rfailed: set<MachineId>,
    kept: map<MachineId, Machine>, quiet: bool,
    dirty: bool, reapFault: bool)

  datatype State = State(
    db: Db,
    vm: Vms,
    ids: Ids,
    ops: map<string, Op>,
    cache: map<string, Config>,
    tun: Tun,
    file: Ingress,
    mode: Mode,
    h: History)

  /** The outcome of a call: success, which of two failures, a fresh or chosen
      machine id, the pid of a started process, the reads of a release machine's
      console log until one yields a status or time is up. */
  datatype Choice = Choice(ok: bool, alt: bool, id: MachineId, pid: Pid, polls: seq<Option<string>>)

  datatype Event =
    | EBegin(app: string, kind: Kind)
    | EOp(app: string, c: Choice)
    | EWatch(id: MachineId, c: Choice)
    | EReconcile(c: Choice)
    | EAcquire(who: Who)
    | ETunnel(c: Choice)
    | EExit(id: MachineId)
    | EBeginStop
    | EStopAll(c: Choice)
    | EReboot

  const NO_CONFIG: Config := Config(map[], [], [], 0, 0, "")

  const INIT: State :=
    State(EMPTY_DB, Vms(map[], map[], map[]), Ids(map[], {}, {}, {}), map[], map[], Free, Ingress([], []),
          Reconciling(RList, {}, 0), History({}, map[], {}, map[], false, false, false))

  // ----- small state updates ---------------------------------------------------

  ghost function WithOp(s: State, a: string, op: Op): State {
    s.(ops := s.ops[a := op])
  }

  /** handle.Stop: best effort, so the process may or may not be gone on return. */
  ghost function Halt(s: State, id: MachineId, dies: bool): State {
    s.(ids := s.ids.(stopped := s.ids.stopped + {id}),
       vm := if id in s.vm.procs && dies then s.vm.(procs := s.vm.procs[id := s.vm.procs[id].(live := false)]) else s.vm)
  }

  /** Pcs at which a request that changed the running set has yet to re-render. */
  predicate AfterMark(pc: Pc) {
    pc in {Spawn, ListOld, StopNext, DropNext, ForgetNext, Announce, ApplyTunnel}
  }

  predicate OpOwes(op: Op) {
    op.changed || op.kind.Destroy? || AfterMark(op.pc)
  }

  ghost function EndOp(s: State, a: string): State
    requires a in s.ops
  {
    s.(ops := s.ops - {a}, h := s.h.(dirty := s.h.dirty || OpOwes(s.ops[a])))
  }

  // ----- one request -------------------------------------------------------------

  function Scaled(cfg: Config, kind: Kind): Config {
    if kind.Scale? then Resized(cfg, kind.memoryMB, kind.cpus) else cfg
  }

  function Loaded(op: Op, cfg: Config): Op {
    op.(cfg := Scaled(cfg, op.kind), pc := if op.kind.Scale? then Upsert else FindRelease)
  }

  /** After the list is built and after each machine: go round, or leave the loop. */
  function LoopPc(op: Op): Pc {
    if op.todo != {} then StopNext else if op.kind.Destroy? then DropReleases else Announce
  }

  ghost function Begin(s: State, a: string, kind: Kind): State {
    var pc := match kind
              case Deploy(_, _) => Upsert
              case Scale(_, _) => Load
              case Restart => Load
              case Destroy => ListAll;
    var cfg := if kind.Deploy? then kind.config else NO_CONFIG;
    WithOp(s, a, Op(kind, pc, cfg, false, 0, 0, 0, false, {}, 0))
  }

  ghost function AllocSubnet(s: State, a: string, op: Op, c: Choice, next: Pc): State
    requires a in s.ops
  {
    if !c.ok || a !in s.db.apps then EndOp(s, a)
    else match SubnetForOwner(s.db, s.db.apps[a].owner)
         case None => EndOp(s, a)
         case Some((db, idx)) => WithOp(s.(db := db), a, op.(idx := idx, pc := next))
  }

  ghost function InsertRow(s: State, a: string, op: Op, c: Choice, next: Pc): State
    requires a in s.ops
  {
    if !c.ok then EndOp(s, a)
    else match AllocAndInsertMachine(s.db, c.id, a, op.rel, op.idx)
         case None => EndOp(s, a)
         case Some((db, _)) =>
           WithOp(s.(db := db, ids := s.ids.(appOf := s.ids.appOf[c.id := a],
                                             relIds := if next == RelStart then s.ids.relIds + {c.id} else s.ids.relIds)),
                  a, op.(id := c.id, pc := next))
  }

  // appConfig and the configuration half of Deploy and Scale

  ghost function DoLoad(s: State, a: string, op: Op): State {
    if a in s.cache then WithOp(s, a, Loaded(op, s.cache[a])) else WithOp(s, a, op.(pc := LoadStored))
  }

  ghost function DoLoadStored(s: State, a: string, op: Op, c: Choice): State
    requires a in s.ops
  {
    if !c.ok || a !in s.db.apps then EndOp(s, a)
    else WithOp(s, a, op.(cfg := s.db.apps[a].config, pc := LoadCached))
  }

  ghost function DoLoadCached(s: State, a: string, op: Op): State {
    WithOp(s.(cache := s.cache[a := op.cfg]), a, Loaded(op, op.cfg))
  }

  ghost function DoUpsert(s: State, a: string, op: Op, c: Choice): State
    requires a in s.ops
  {
    if !c.ok then EndOp(s, a)
    else WithOp(s.(db := UpsertApp(s.db, a, op.cfg)), a, op.(changed := true, pc := CacheCfg))
  }

  ghost function DoCacheCfg(s: State, a: string, op: Op): State {
    WithOp(s.(cache := s.cache[a := op.cfg]), a, op.(pc := if op.kind.Scale? then FindRelease else Build))
  }

  ghost function DoBuild(s: State, a: string, op: Op, c: Choice): State
    requires a in s.ops
  {
    if c.ok then WithOp(s, a, op.(pc := AddRelease)) else EndOp(s, a)
  }

  ghost function DoAddRelease(s: State, a: string, op: Op, c: Choice): State
    requires a in s.ops
  {
    var r := InsertRelease(s.db, Release(a, ""));
    if !c.ok || r.None? then EndOp(s, a)
    else
      WithOp(s.(db := r.value.0), a,
             op.(rel := r.value.1, pc := if op.cfg.releaseCommand != "" then RelSubnet else Subnet))
  }

  ghost function DoFindRelease(s: State, a: string, op: Op, c: Choice): State
    requires a in s.ops
  {
    var r := LatestRelease(s.db, a);
    if !c.ok || r.None? then EndOp(s, a) else WithOp(s, a, op.(rel := r.value, pc := Subnet))
  }

  // runReleaseCommand: a machine that never gets a handle, a watcher or 'running'

  ghost function DoRelStart(s: State, a: string, op: Op, c: Choice): State {
    if c.ok then WithOp(s.(vm := s.vm.(procs := s.vm.procs[op.id := Proc(c.pid, true)])), a, op.(pc := RelWait))
    else WithOp(s, a, op.(gate := false, pc := RelDelete))
  }

  /** Wait returned without an error, and then the log was polled. */
  predicate Passed(c: Choice) {
    c.ok && ExitStatus.Polled(c.polls) == Some(0)
  }

  ghost function DoRelWait(s: State, a: string, op: Op, c: Choice): State {
    WithOp(s, a, op.(gate := Passed(c), pc := RelStop))
  }

  ghost function DoRelStop(s: State, a: string, op: Op, c: Choice): State {
    WithOp(Halt(s, op.id, c.ok), a, op.(pc := RelDelete))
  }

  ghost function DoRelDelete(s: State, a: string, op: Op, c: Choice): State
    requires a in s.ops
  {
    var t := DropOwn(s, op, c);
    if op.gate then WithOp(t, a, op.(pc := Subnet)) else EndOp(t, a)
  }

  /** DeleteMachine of the request's own machine, its error ignored or logged. */
  ghost function DropOwn(s: State, op: Op, c: Choice): State {
    if c.ok then s.(db := DeleteMachine(s.db, op.id)) else s.(h := s.h.(leaked := s.h.leaked + {op.id}))
  }

  // bootFromRelease up to and including the watcher

  /** An error before Runtime.Start leaves the 'starting' row behind. */
  ghost function DoStart(s: State, a: string, op: Op, c: Choice): State
    requires a in s.ops
  {
    if c.ok then WithOp(s.(vm := s.vm.(procs := s.vm.procs[op.id := Proc(c.pid, true)])), a, op.(pc := SetHandle))
    else if c.alt then EndOp(s.(h := s.h.(leaked := s.h.leaked + {op.id})), a)
    else WithOp(s, a, op.(pc := FailState))
  }

  ghost function DoSetHandle(s: State, a: string, op: Op): State
    requires op.id in s.vm.procs
  {
    WithOp(s.(vm := s.vm.(handles := s.vm.handles[op.id := s.vm.procs[op.id].pid])), a, op.(pc := Await))
  }

  ghost function DoAwait(s: State, a: string, op: Op, c: Choice): State {
    WithOp(s, a, op.(pc := if c.ok then Mark else StopNew))
  }

  ghost function DoMark(s: State, a: string, op: Op, c: Choice): State
    requires a in s.ops && op.id in s.vm.procs
  {
    var r := SetMachineState(s.db, op.id, Running, s.vm.procs[op.id].pid);
    if !c.ok || r.None? then EndOp(s.(h := s.h.(leaked := s.h.leaked + {op.id})), a)
    else WithOp(s.(db := r.value), a, op.(pc := Spawn))
  }

  ghost function DoSpawn(s: State, a: string, op: Op): State
    requires op.id in s.vm.procs
  {
    WithOp(s.(vm := s.vm.(watchers := s.vm.watchers[op.id := Watcher(s.vm.procs[op.id].pid, Waiting)])),
           a, op.(pc := ListOld))
  }

  ghost function DoStopNew(s: State, a: string, op: Op, c: Choice): State {
    WithOp(Halt(s, op.id, c.ok), a, op.(pc := ForgetNew))
  }

  ghost function DoForgetNew(s: State, a: string, op: Op): State {
    WithOp(s.(vm := s.vm.(handles := s.vm.handles - {op.id})), a, op.(pc := FailState))
  }

  ghost function DoFailState(s: State, a: string, op: Op, c: Choice): State {
    var r := SetMachineState(s.db, op.id, Failed, 0);
    WithOp(if c.ok && r.Some? then s.(db := r.value) else s, a, op.(pc := FailDelete))
  }

  ghost function DoFailDelete(s: State, a: string, op: Op, c: Choice): State
    requires a in s.ops
  {
    EndOp(DropOwn(s, op, c), a)
  }

  // stopOldMachines, and Destroy

  ghost function DoListOld(s: State, a: string, op: Op, c: Choice): State
    requires a in s.ops
  {
    if !c.ok then EndOp(s, a)
    else
      var olds := set m | m in MachinesOf(s.db, a) && m != op.id && s.db.machines[m].state == Running;
      WithOp(s, a, op.(todo := olds, pc := LoopPc(op.(todo := olds))))
  }

  ghost function DoListAll(s: State, a: string, op: Op, c: Choice): State
    requires a in s.ops
  {
    if !c.ok then EndOp(s, a)
    else WithOp(s, a, op.(todo := MachinesOf(s.db, a), pc := LoopPc(op.(todo := MachinesOf(s.db, a)))))
  }

  ghost function DoStopNext(s: State, a: string, op: Op, c: Choice): State {
    WithOp(if c.id in s.vm.handles then Halt(s, c.id, c.alt) else s, a,
           op.(todo := op.todo - {c.id}, cur := c.id, pc := DropNext))
  }

  ghost function DoDropNext(s: State, a: string, op: Op, c: Choice): State
    requires a in s.ops
  {
    if c.ok then WithOp(s.(db := DeleteMachine(s.db, op.cur)), a, op.(pc := ForgetNext)) else EndOp(s, a)
  }

  ghost function DoForgetNext(s: State, a: string, op: Op): State {
    WithOp(s.(vm := s.vm.(handles := s.vm.handles - {op.cur})), a, op.(pc := LoopPc(op)))
  }

  ghost function DoSetOwner(s: State, a: string, op: Op, c: Choice): State
    requires a in s.ops
  {
    EndOp(if c.ok && op.kind.Deploy? then s.(db := SetAppOwner(s.db, a, op.kind.owner)) else s, a)
  }

  ghost function DoDropReleases(s: State, a: string, op: Op, c: Choice): State
    requires a in s.ops
  {
    if c.ok then WithOp(s.(db := DeleteReleasesForApp(s.db, a)), a, op.(pc := DropApp)) else EndOp(s, a)
  }

  ghost function DoDropApp(s: State, a: string, op: Op, c: Choice): State
    requires a in s.ops
  {
    var r := DeleteApp(s.db, a);
    if !c.ok || r.None? then EndOp(s, a) else WithOp(s.(db := r.value), a, op.(pc := DropCache))
  }

  ghost function DoDropCache(s: State, a: string, op: Op): State {
    WithOp(s.(cache := s.cache - {a}), a, op.(pc := RemoveFiles))
  }

  ghost function DoRemoveFiles(s: State, a: string, op: Op, c: Choice): State
    requires a in s.ops
  {
    if c.ok then WithOp(s, a, op.(pc := ApplyTunnel)) else EndOp(s, a)
  }

  ghost function OpStep(s: State, a: string, c: Choice): State
    requires OpEnabled(s, a, c)
  {
    var op := s.ops[a];
    match op.pc
    case Load => DoLoad(s, a, op)
    case LoadStored => DoLoadStored(s, a, op, c)
    case LoadCached => DoLoadCached(s, a, op)
    case Upsert => DoUpsert(s, a, op, c)
    case CacheCfg => DoCacheCfg(s, a, op)
    case Build => DoBuild(s, a, op, c)
    case AddRelease => DoAddRelease(s, a, op, c)
    case FindRelease => DoFindRelease(s, a, op, c)
    case RelSubnet => AllocSubnet(s, a, op, c, RelInsert)
    case RelInsert => InsertRow(s, a, op, c, RelStart)
    case RelStart => DoRelStart(s, a, op, c)
    case RelWait => DoRelWait(s, a, op, c)
    case RelStop => DoRelStop(s, a, op, c)
    case RelDelete => DoRelDelete(s, a, op, c)
    case Subnet => AllocSubnet(s, a, op, c, Insert)
    case Insert => InsertRow(s, a, op, c, Start)
    case Start => DoStart(s, a, op, c)
    case SetHandle => DoSetHandle(s, a, op)
    case Await => DoAwait(s, a, op, c)
    case Mark => DoMark(s, a, op, c)
    case Spawn => DoSpawn(s, a, op)
    case StopNew => DoStopNew(s, a, op, c)
    case ForgetNew => DoForgetNew(s, a, op)
    case FailState => DoFailState(s, a, op, c)
    case FailDelete => DoFailDelete(s, a, op, c)
    case ListOld => DoListOld(s, a, op, c)
    case ListAll => DoListAll(s, a, op, c)
    case StopNext => DoStopNext(s, a, op, c)
    case DropNext => DoDropNext(s, a, op, c)
    case ForgetNext => DoForgetNext(s, a, op)
    case Announce => WithOp(s, a, op.(pc := ApplyTunnel))
    case SetOwner => DoSetOwner(s, a, op, c)
    case DropReleases => DoDropReleases(s, a, op, c)
    case DropApp => DoDropApp(s, a, op, c)
    case DropCache => DoDropCache(s, a, op)
    case RemoveFiles => DoRemoveFiles(s, a, op, c)
    case ApplyTunnel => s
  }

  ghost predicate OpEnabled(s: State, a: string, c: Choice) {
    && a in s.ops
    && !s.ops[a].pc.ApplyTunnel?
    && (s.ops[a].pc.RelInsert? || s.ops[a].pc.Insert? ==> c.id !in s.ids.appOf)       // ids are random and never repeat
    && (s.ops[a].pc.RelWait? && c.ok ==> s.ops[a].id in s.vm.procs && !s.vm.procs[s.ops[a].id].live)
    && (s.ops[a].pc.SetHandle? || s.ops[a].pc.Mark? || s.ops[a].pc.Spawn? ==> s.ops[a].id in s.vm.procs)
    && (s.ops[a].pc.StopNext? ==> c.id in s.ops[a].todo)
  }

  // ----- watchMachine -------------------------------------------------------------

  ghost function EndWatch(s: State, id: MachineId): State {
    s.(vm := s.vm.(watchers := s.vm.watchers - {id}))
  }

  ghost function WithWatch(s: State, id: MachineId, w: Watcher, pc: WPc): State {
    s.(vm := s.vm.(watchers := s.vm.watchers[id := w.(pc := pc)]))
  }

  ghost function Faulted(s: State): State {
    s.(h := s.h.(reapFault := true))
  }

  /** Wait returned; then the shutdown flag is read. */
  ghost function DoWake(s: State, id: MachineId, w: Watcher): State {
    if s.mode.Stopping? then EndWatch(s, id) else WithWatch(s, id, w, Checked)
  }

  /** Store.Machine and the comparison with this watcher's own pid. */
  ghost function DoCheckRow(s: State, id: MachineId, w: Watcher, c: Choice): State {
    if !c.ok then Faulted(EndWatch(s, id))
    else if id !in s.db.machines || s.db.machines[id].state != Running || s.db.machines[id].pid != w.pid
    then EndWatch(s, id)
    else WithWatch(s, id, w, Matched)
  }

  ghost function DoSetStopped(s: State, id: MachineId, w: Watcher, c: Choice): State {
    var r := SetMachineState(s.db, id, Stopped, 0);
    if !c.ok then WithWatch(s, id, w, Unhandle)
    else WithWatch(if r.Some? then s.(db := r.value) else s, id, w, Unhandle)
  }

  ghost function DoUnhandle(s: State, id: MachineId, w: Watcher): State {
    WithWatch(s.(vm := s.vm.(handles := s.vm.handles - {id})), id, w, Remove)
  }

  ghost function DoRemove(s: State, id: MachineId, w: Watcher, c: Choice): State {
    if c.ok then WithWatch(s.(db := DeleteMachine(s.db, id)), id, w, WApply)
    else if id in s.db.machines && s.db.machines[id].state == Running then Faulted(WithWatch(s, id, w, WApply))
    else WithWatch(s, id, w, WApply)
  }

  ghost function WatchStep(s: State, id: MachineId, c: Choice): State
    requires id in s.vm.watchers
  {
    var w := s.vm.watchers[id];
    match w.pc
    case Waiting => DoWake(s, id, w)
    case Checked => DoCheckRow(s, id, w, c)
    case Matched => DoSetStopped(s, id, w, c)
    case Unhandle => DoUnhandle(s, id, w)
    case Remove => DoRemove(s, id, w, c)
    case WApply => s
  }

  ghost predicate WatchEnabled(s: State, id: MachineId) {
    && id in s.vm.watchers
    && s.vm.watchers[id].pc != WApply
    && (s.vm.watchers[id].pc == Waiting ==> id in s.vm.procs && !s.vm.procs[id].live)
  }

  // ----- Reconcile -----------------------------------------------------------------

  ghost function AtR(s: State, rpc: RPc): State
    requires s.mode.Reconciling?
  {
    s.(mode := s.mode.(rpc := rpc))
  }

  ghost function DoRList(s: State, c: Choice): State {
    if !c.ok then s.(mode := Serving, h := s.h.(dirty := true, reapFault := true))
    else s.(mode := Reconciling(RNext, RunningRows(s.db), 0), h := s.h.(base := s.db.machines))
  }

  ghost function DoRNext(s: State, c: Choice): State
    requires s.mode.Reconciling?
  {
    if s.mode.rtodo == {} then AtR(s, RApply)
    else s.(mode := Reconciling(RLoad, s.mode.rtodo - {c.id}, c.id))
  }

  ghost function DoRLoad(s: State, app: string): State
    requires s.mode.Reconciling?
  {
    AtR(s, if app in s.cache then RSubnet else RLoadStored)
  }

  ghost function DoRLoadStored(s: State, app: string, c: Choice): State
    requires s.mode.Reconciling?
  {
    AtR(s, if !c.ok || app !in s.db.apps then RFail else RLoadCached(s.db.apps[app].config))
  }

  ghost function DoRSubnet(s: State, app: string, c: Choice): State
    requires s.mode.Reconciling?
  {
    if !c.ok || app !in s.db.apps then AtR(s, RFail)
    else match SubnetForOwner(s.db, s.db.apps[app].owner)
         case None => AtR(s, RFail)
         case Some((db, _)) => AtR(s.(db := db), RStart)
  }

  ghost function DoRStart(s: State, c: Choice): State
    requires s.mode.Reconciling?
  {
    if c.ok then AtR(s.(vm := s.vm.(procs := s.vm.procs[s.mode.rcur := Proc(c.pid, true)])), RHandle)
    else AtR(s, RFail)
  }

  ghost function DoRHandle(s: State, p: Proc): State
    requires s.mode.Reconciling?
  {
    AtR(s.(vm := s.vm.(handles := s.vm.handles[s.mode.rcur := p.pid])), RMark)
  }

  ghost function DoRMark(s: State, p: Proc, c: Choice): State
    requires s.mode.Reconciling?
  {
    var r := SetMachineState(s.db, s.mode.rcur, Running, p.pid);
    if !c.ok || r.None? then AtR(s, RFail) else AtR(s.(db := r.value), RSpawn)
  }

  ghost function DoRSpawn(s: State, p: Proc): State
    requires s.mode.Reconciling?
  {
    AtR(s.(vm := s.vm.(watchers := s.vm.watchers[s.mode.rcur := Watcher(p.pid, Waiting)])), RNext)
  }

  ghost function DoRFail(s: State, c: Choice): State
    requires s.mode.Reconciling?
  {
    var r := SetMachineState(s.db, s.mode.rcur, Failed, 0);
    AtR(s.(db := if c.ok && r.Some? then r.value else s.db,
           h := s.h.(rfailed := s.h.rfailed + {s.mode.rcur}, dirty := s.h.dirty || !c.ok, reapFault := s.h.reapFault || !c.ok)), RNext)
  }

  ghost function ReconcileStep(s: State, c: Choice): State
    requires ReconcileEnabled(s, c)
  {
    var m := s.mode;
    match m.rpc
    case RList => DoRList(s, c)
    case RNext => DoRNext(s, c)
    case RLoad => DoRLoad(s, s.db.machines[m.rcur].app)
    case RLoadStored => DoRLoadStored(s, s.db.machines[m.rcur].app, c)
    case RLoadCached(raw) => AtR(s.(cache := s.cache[s.db.machines[m.rcur].app := raw]), RSubnet)
    case RSubnet => DoRSubnet(s, s.db.machines[m.rcur].app, c)
    case RStart => DoRStart(s, c)
    case RHandle => DoRHandle(s, s.vm.procs[m.rcur])
    case RMark => DoRMark(s, s.vm.procs[m.rcur], c)
    case RSpawn => DoRSpawn(s, s.vm.procs[m.rcur])
    case RFail => DoRFail(s, c)
    case RApply => s
  }

  ghost predicate ReconcileEnabled(s: State, c: Choice) {
    && s.mode.Reconciling?
    && !s.mode.rpc.RApply?
    && (s.mode.rpc.RNext? && s.mode.rtodo != {} ==> c.id in s.mode.rtodo)
    && (s.mode.rpc.RLoad? || s.mode.rpc.RLoadStored? || s.mode.rpc.RLoadCached? || s.mode.rpc.RSubnet? ==>
          s.mode.rcur in s.db.machines)                       // the row as Reconcile listed it
    && (s.mode.rpc.RHandle? || s.mode.rpc.RMark? || s.mode.rpc.RSpawn? ==> s.mode.rcur in s.vm.procs)
  }

  // ----- StopAll -------------------------------------------------------------------

  /** The shutdown flag goes up; `kept` records the rows whose machine is alive. */
  ghost function BeginStop(s: State): State {
    s.(mode := Stopping(SCopy, {}, 0),
       h := s.h.(quiet := s.ops == map[],
                 kept := map id | id in s.db.machines && s.db.machines[id].state == Running
                                  && id in s.vm.procs && s.vm.procs[id].live :: s.db.machines[id]))
  }

  ghost function StopAllStep(s: State, c: Choice): State
    requires s.mode.Stopping?
  {
    match s.mode.spc
    case SCopy => s.(mode := Stopping(SNext, s.vm.handles.Keys, 0))
    case SNext => Halt(s, c.id, c.ok).(mode := Stopping(SForget, s.mode.stodo - {c.id}, c.id))
    case SForget => s.(vm := s.vm.(handles := s.vm.handles - {s.mode.scur}), mode := s.mode.(spc := SNext))
  }

  ghost predicate StopAllEnabled(s: State, c: Choice) {
    s.mode.Stopping? && (s.mode.spc == SNext ==> c.id in s.mode.stodo)
  }

  // ----- applyTunnel ----------------------------------------------------------------

  ghost predicate AtApply(s: State, who: Who) {
    match who
    case ByOp(a) => a in s.ops && s.ops[a].pc == ApplyTunnel
    case ByWatcher(id) => id in s.vm.watchers && s.vm.watchers[id].pc == WApply
    case ByReconcile => s.mode.Reconciling? && s.mode.rpc == RApply
  }

  /** applyTunnel returns: Deploy goes on to record the owner only on success. */
  ghost function Finish(s: State, who: Who, ok: bool): State {
    match who
    case ByOp(a) =>
      if a in s.ops && ok && s.ops[a].kind.Deploy?
      then WithOp(s, a, s.ops[a].(pc := SetOwner, changed := false))
      else s.(ops := s.ops - {a})
    case ByWatcher(id) => EndWatch(s, id)
    case ByReconcile => s.(mode := Serving)
  }

  ghost function GiveUp(s: State, who: Who, fault: bool): State {
    Finish(s.(tun := Free, h := s.h.(dirty := s.h.dirty || fault)), who, false)
  }

  ghost function DoRead(s: State, who: Who, c: Choice): State {
    if c.ok then s.(tun := Held(who, Reading(RunningList(LiveOf(s.db)), []))) else GiveUp(s, who, true)
  }

  ghost function DoConfig(s: State, who: Who, rows: seq<LiveRow>, cfgs: seq<Config>): State
    requires |cfgs| < |rows|
  {
    var app := rows[|cfgs|].app;
    s.(tun := Held(who, if app in s.cache then Reading(rows, cfgs + [s.cache[app]]) else Missed(rows, cfgs)))
  }

  /** tunnel.Apply. `ok`: the file was written; if only the restart of cloudflared
      then fails, every caller carries on as on success. */
  ghost function DoWrite(s: State, who: Who, rows: seq<LiveRow>, cfgs: seq<Config>, c: Choice): State {
    if c.ok then Finish(s.(tun := Free, file := Ingress(rows, cfgs)), who, true) else GiveUp(s, who, true)
  }

  ghost function DoFetch(s: State, who: Who, rows: seq<LiveRow>, cfgs: seq<Config>, c: Choice): State
    requires |cfgs| < |rows|
  {
    var app := rows[|cfgs|].app;
    if !c.ok || app !in s.db.apps then GiveUp(s, who, !c.ok)
    else s.(tun := Held(who, Fetched(rows, cfgs, s.db.apps[app].config)))
  }

  ghost function DoStoreFetched(s: State, who: Who, rows: seq<LiveRow>, cfgs: seq<Config>, raw: Config): State
    requires |cfgs| < |rows|
  {
    s.(cache := s.cache[rows[|cfgs|].app := raw], tun := Held(who, Reading(rows, cfgs + [raw])))
  }

  ghost function TunnelStep(s: State, c: Choice): State
    requires TunnelEnabled(s)
  {
    var who := s.tun.who;
    match s.tun.phase
    case Locked => DoRead(s, who, c)
    case Reading(rows, cfgs) => if |cfgs| < |rows| then DoConfig(s, who, rows, cfgs) else DoWrite(s, who, rows, cfgs, c)
    case Missed(rows, cfgs) => DoFetch(s, who, rows, cfgs, c)
    case Fetched(rows, cfgs, raw) => DoStoreFetched(s, who, rows, cfgs, raw)
  }

  ghost predicate TunnelEnabled(s: State) {
    && s.tun.Held?
    && (s.tun.phase.Missed? || s.tun.phase.Fetched? ==> |s.tun.phase.cfgs| < |s.tun.phase.rows|)
  }

  // ----- the whole system -------------------------------------------------------------

  /** A machine's VMM exits; with no Stop asked for, it exited by itself. */
  ghost function Exit(s: State, id: MachineId): State
    requires id in s.vm.procs
  {
    s.(vm := s.vm.(procs := s.vm.procs[id := s.vm.procs[id].(live := false)]),
       ids := if id in s.ids.stopped then s.ids else s.ids.(crashed := s.ids.crashed + {id}))
  }

  /** oakd dies, cleanly or not, taking its VMs with it, and starts again on the
      same database and ingress file. */
  ghost function Reboot(s: State): State {
    var quiet := s.mode.Stopping? && s.h.quiet;
    State(s.db, Vms(map[], map[], map[]), s.ids.(stopped := {}, crashed := {}), map[], map[], Free, s.file,
          Reconciling(RList, {}, 0),
          History(s.h.leaked + set a | a in s.ops :: s.ops[a].id,
                  map[], {}, if quiet then s.h.kept else map[], quiet, false, false))
  }

  ghost predicate Enabled(s: State, e: Event) {
    match e
    case EBegin(a, _) => s.mode.Serving? && a !in s.ops     // at most one request per app
    case EOp(a, c) => OpEnabled(s, a, c)
    case EWatch(id, _) => WatchEnabled(s, id)
    case EReconcile(c) => ReconcileEnabled(s, c)
    case EAcquire(who) => s.tun == Free && AtApply(s, who)
    case ETunnel(_) => TunnelEnabled(s)
    case EExit(id) => id in s.vm.procs && s.vm.procs[id].live
    case EBeginStop => s.mode.Serving?
    case EStopAll(c) => StopAllEnabled(s, c)
    case EReboot => true
  }

  ghost function Next(s: State, e: Event): State
    requires Enabled(s, e)
  {
    match e
    case EBegin(a, kind) => Begin(s, a, kind)
    case EOp(a, c) => OpStep(s, a, c)
    case EWatch(id, c) => WatchStep(s, id, c)
    case EReconcile(c) => ReconcileStep(s, c)
    case EAcquire(who) => s.(tun := Held(who, Locked))
    case ETunnel(c) => TunnelStep(s, c)
    case EExit(id) => Exit(s, id)
    case EBeginStop => BeginStop(s)
    case EStopAll(c) => StopAllStep(s, c)
    case EReboot => Reboot(s)
  }

  ghost predicate ValidRun(s: State, es: seq<Event>)
    decreases es
  {
    es == [] || (Enabled(s, es[0]) && ValidRun(Next(s, es[0]), es[1..]))
  }

  ghost function Exec(s: State, es: seq<Event>): State
    requires ValidRun(s, es)
    decreases es
  {
    if es == [] then s else Exec(Next(s, es[0]), es[1..])
  }
}
