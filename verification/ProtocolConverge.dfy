// Tunnel convergence: the ingress file is current, or some task still owes a
// re-render that will make it so.

module ProtocolConverge {
  import opened Common
  import opened AppConfig
  import opened Tables
  import opened Tunnel
  import opened Protocol
  import opened ProtocolInv
  import opened ProtocolSteps
  import opened ProtocolRuns
  import opened ProtocolTheorems
  import opened ProtocolCutover
  import opened ProtocolCache
  import Routing

  /** A watcher that has taken its machine out of the running set. */
  predicate WatchOwes(w: Watcher) {
    w.pc.Unhandle? || w.pc.Remove? || w.pc.WApply?
  }

  /** A task other than `but` will re-render once it gets that far. */
  ghost predicate OwesBut(s: State, but: Option<Who>) {
    || (s.mode.Reconciling? && but != Some(ByReconcile))
    || (exists a :: a in s.ops && OpOwes(s.ops[a]) && but != Some(ByOp(a)))
    || (exists id :: id in s.vm.watchers && WatchOwes(s.vm.watchers[id]) && but != Some(ByWatcher(id)))
  }

  /** Rows are the running set newest first, and configs, so far, the stored ones. */
  ghost predicate Fresh(rows: seq<LiveRow>, cfgs: seq<Config>, db: Db) {
    && rows == RunningList(LiveOf(db)) && |cfgs| <= |rows|
    && (forall i | 0 <= i < |cfgs| :: rows[i].app in db.apps && cfgs[i] == db.apps[rows[i].app].config)
  }

  ghost predicate FileCurrent(s: State) {
    Fresh(s.file.rows, s.file.cfgs, s.db) && |s.file.cfgs| == |s.file.rows|
  }

  ghost predicate ConvergeOk(s: State) {
    !s.h.dirty ==>
      && (OwesBut(s, None) || FileCurrent(s))
      && (s.tun.Held? && !s.tun.phase.Locked? ==> OwesBut(s, Some(s.tun.who)) || Fresh(s.tun.phase.rows, s.tun.phase.cfgs, s.db))
  }

  // ----- what a step does to the running set and the stored configs ------------------------

  ghost predicate SnapSame(db: Db, db': Db) {
    && LiveOf(db') == LiveOf(db)
    && (forall x | x in db.apps :: x in db'.apps && db'.apps[x].config == db.apps[x].config)
  }

  lemma SnapFresh(rows: seq<LiveRow>, cfgs: seq<Config>, db: Db, db': Db)
    requires SnapSame(db, db') && Fresh(rows, cfgs, db)
    ensures Fresh(rows, cfgs, db')
  {
    hide RunningList, LiveOf;
  }

  lemma AllLive(db: Db, db': Db)
    requires forall id :: LiveSame(db.machines, db'.machines, id)
    ensures LiveOf(db') == LiveOf(db)
  {
    forall id ensures id in LiveOf(db') <==> id in LiveOf(db) { assert LiveSame(db.machines, db'.machines, id); }
    forall id | id in LiveOf(db) ensures LiveOf(db')[id] == LiveOf(db)[id] { assert LiveSame(db.machines, db'.machines, id); }
  }

  ghost predicate KeepsConfigs(db: Db, db': Db) {
    forall x | x in db.apps :: x in db'.apps && db'.apps[x].config == db.apps[x].config
  }

  ghost predicate Owing(s: State, a: string) {
    s.h.dirty || (a in s.ops && OpOwes(s.ops[a]))
  }

  lemma ConfigConfigs(s: State, a: string, c: Choice)
    requires OpEnabled(s, a, c) && ConfigPc(s.ops[a].pc)
    ensures KeepsConfigs(s.db, OpStep(s, a, c).db) || Owing(OpStep(s, a, c), a)
  {
    hide Scaled, LatestRelease;
  }

  lemma TailConfigs(s: State, a: string, c: Choice)
    requires OpEnabled(s, a, c) && (s.ops[a].pc.SetOwner? || s.ops[a].pc.DropApp? || s.ops[a].pc.DropCache? || s.ops[a].pc.RemoveFiles?)
    requires KindOk(s.ops[a])
    ensures KeepsConfigs(s.db, OpStep(s, a, c).db) || Owing(OpStep(s, a, c), a)
  {
  }

  lemma OpConfigs(s: State, a: string, c: Choice)
    requires Inv(s) && OpEnabled(s, a, c)
    ensures KeepsConfigs(s.db, OpStep(s, a, c).db) || Owing(OpStep(s, a, c), a)
  {
    hide Inv, DbOk, OwnOk, LoopOk, GoneOk, OpStep, KindOk, Owing;
    InOp(s, a);
    var pc := s.ops[a].pc;
    if ConfigPc(pc) { ConfigConfigs(s, a, c); }
    else if pc.SetOwner? || pc.DropApp? || pc.DropCache? || pc.RemoveFiles? { TailConfigs(s, a, c); }
    else if NoMachine(pc) { RowSettled(s, a, c); }
    else if RelOwn(pc) { ReleaseSettled(s, a, c); }
    else if pc.Start? || pc.SetHandle? || pc.Await? || pc.Mark? || pc.Spawn? { StartSettled(s, a, c); }
    else if BootOwn(pc) { FailSettled(s, a, c); }
    else if Looping(pc) { LoopSettled(s, a, c); }
    else { ListSettled(s, a, c); }
  }

  /** A request that changes the running set or a stored config owes a re-render. */
  lemma OpSnap(s: State, a: string, c: Choice)
    requires Inv(s) && OpEnabled(s, a, c)
    ensures SnapSame(s.db, OpStep(s, a, c).db) || Owing(OpStep(s, a, c), a)
  {
    hide Inv, OpStep, LiveOf, LiveSame;
    var t := OpStep(s, a, c);
    OpConfigs(s, a, c);
    OpDirty(s, a, c);
    assert s.ops[a].pc.DropNext? ==> OpOwes(s.ops[a]);
    if !Owing(t, a) {
      forall id ensures LiveSame(s.db.machines, t.db.machines, id) { OpLive(s, a, c, id); }
      AllLive(s.db, t.db);
    }
  }

  // ----- every step --------------------------------------------------------------------------

  /** Tasks that owe go on owing; nobody but the task at `apply` finishes. */
  lemma OwesStays(s: State, t: State, a: string, but: Option<Who>)
    requires a in s.ops && OwesOn(s, t, a) && !t.h.dirty
    requires t.ops == (if a in t.ops then s.ops[a := t.ops[a]] else s.ops - {a})
    requires t.mode == s.mode
    requires forall id | id in s.vm.watchers && WatchOwes(s.vm.watchers[id]) :: id in t.vm.watchers && t.vm.watchers[id] == s.vm.watchers[id]
    requires OwesBut(s, but)
    ensures OwesBut(t, but)
  {
    hide OpOwes;
    if x :| x in s.ops && OpOwes(s.ops[x]) && but != Some(ByOp(x)) {
      assert x in t.ops && OpOwes(t.ops[x]);
    } else if id :| id in s.vm.watchers && WatchOwes(s.vm.watchers[id]) && but != Some(ByWatcher(id)) {
      assert id in t.vm.watchers && WatchOwes(t.vm.watchers[id]);
    }
  }

  lemma OpKeepsConverge(s: State, a: string, c: Choice)
    requires Inv(s) && HolderOk(s) && OpEnabled(s, a, c) && ConvergeOk(s)
    ensures ConvergeOk(OpStep(s, a, c))
  {
    hide Inv, OpStep, SnapSame, Fresh, KindOk, LoopOk, GoneOk, DbOk;
    var t := OpStep(s, a, c);
    assert a in s.ops && !s.ops[a].pc.ApplyTunnel?;
    InOp(s, a);
    OpStepFrame(s, a, c);
    OpDirty(s, a, c);
    OpSnap(s, a, c);
    if !t.h.dirty {
      assert s.tun.Held? ==> s.tun.who != ByOp(a);
      if OwesBut(s, None) { OwesStays(s, t, a, None); }
      if s.tun.Held? && OwesBut(s, Some(s.tun.who)) { OwesStays(s, t, a, Some(s.tun.who)); }
      hide OwesBut;
      if SnapSame(s.db, t.db) {
        if FileCurrent(s) { SnapFresh(s.file.rows, s.file.cfgs, s.db, t.db); }
        if s.tun.Held? && !s.tun.phase.Locked? && Fresh(s.tun.phase.rows, s.tun.phase.cfgs, s.db) {
          SnapFresh(s.tun.phase.rows, s.tun.phase.cfgs, s.db, t.db);
        }
      } else {
        OwingOwes(t, a, None);
        if s.tun.Held? { OwingOwes(t, a, Some(s.tun.who)); }
      }
    }
  }

  lemma OwingOwes(s: State, a: string, but: Option<Who>)
    requires a in s.ops && OpOwes(s.ops[a]) && but != Some(ByOp(a))
    ensures OwesBut(s, but)
  {
  }

  /** A watcher that changes the running set owes a re-render. */
  lemma WatchSnap(s: State, id: MachineId, c: Choice)
    requires WatchEnabled(s, id)
    ensures var t := WatchStep(s, id, c);
            && (SnapSame(s.db, t.db) || (id in t.vm.watchers && WatchOwes(t.vm.watchers[id])))
            && (WatchOwes(s.vm.watchers[id]) ==> id in t.vm.watchers && WatchOwes(t.vm.watchers[id]))
            && t.h.dirty == s.h.dirty
  {
  }

  lemma WatchOwesStays(s: State, id: MachineId, c: Choice, but: Option<Who>)
    requires WatchEnabled(s, id) && OwesBut(s, but)
    ensures OwesBut(WatchStep(s, id, c), but)
  {
    hide OpOwes;
    WatchFrame(s, id, c);
    WatchSnap(s, id, c);
    hide WatchStep;
    var t := WatchStep(s, id, c);
    if x :| x in s.ops && OpOwes(s.ops[x]) && but != Some(ByOp(x)) {
      assert x in t.ops && OpOwes(t.ops[x]);
    } else if j :| j in s.vm.watchers && WatchOwes(s.vm.watchers[j]) && but != Some(ByWatcher(j)) {
      assert j != id ==> Same(s.vm.watchers, t.vm.watchers, j);
      assert j in t.vm.watchers && WatchOwes(t.vm.watchers[j]);
    }
  }

  lemma WatchKeepsConverge(s: State, id: MachineId, c: Choice)
    requires HolderOk(s) && WatchEnabled(s, id) && ConvergeOk(s)
    ensures ConvergeOk(WatchStep(s, id, c))
  {
    WatchFrame(s, id, c);
    WatchSnap(s, id, c);
    var t := WatchStep(s, id, c);
    hide WatchStep, SnapSame, Fresh;
    if !t.h.dirty {
      assert s.tun.Held? ==> s.tun.who != ByWatcher(id);
      hide WatchEnabled;
      if OwesBut(s, None) { WatchOwesStays(s, id, c, None); }
      if s.tun.Held? && OwesBut(s, Some(s.tun.who)) { WatchOwesStays(s, id, c, Some(s.tun.who)); }
      if SnapSame(s.db, t.db) {
        if FileCurrent(s) { SnapFresh(s.file.rows, s.file.cfgs, s.db, t.db); }
        if s.tun.Held? && !s.tun.phase.Locked? && Fresh(s.tun.phase.rows, s.tun.phase.cfgs, s.db) {
          SnapFresh(s.tun.phase.rows, s.tun.phase.cfgs, s.db, t.db);
        }
      }
    }
  }

  lemma ReconcileKeepsConverge(s: State, c: Choice)
    requires HolderOk(s) && ReconcileEnabled(s, c) && ConvergeOk(s)
    ensures ConvergeOk(ReconcileStep(s, c))
  {
    ReconcileRest(s, c);
    hide ReconcileStep, Fresh;
  }

  /** When applyTunnel returns, whoever else owed still owes. */
  lemma FinishOwes(s: State, who: Who, ok: bool, file: Ingress, dirty: bool)
    requires AtApply(s, who) && OwesBut(s, Some(who))
    ensures OwesBut(Finish(s.(tun := Free, file := file, h := s.h.(dirty := dirty)), who, ok), None)
  {
    hide OpOwes;
    var t := Finish(s.(tun := Free, file := file, h := s.h.(dirty := dirty)), who, ok);
    if x :| x in s.ops && OpOwes(s.ops[x]) && who != ByOp(x) {
      assert x in t.ops && t.ops[x] == s.ops[x];
    } else if id :| id in s.vm.watchers && WatchOwes(s.vm.watchers[id]) && who != ByWatcher(id) {
      assert id in t.vm.watchers && t.vm.watchers[id] == s.vm.watchers[id];
    }
  }

  lemma FinishFile(s: State, who: Who, ok: bool, file: Ingress, dirty: bool)
    requires AtApply(s, who)
    ensures var t := Finish(s.(tun := Free, file := file, h := s.h.(dirty := dirty)), who, ok);
            t.tun == Free && t.file == file && t.db == s.db && t.h.dirty == dirty
  {
  }

  lemma DoneConverges(s: State, who: Who, ok: bool, file: Ingress, dirty: bool)
    requires AtApply(s, who)
    requires dirty || OwesBut(s, Some(who)) || (Fresh(file.rows, file.cfgs, s.db) && |file.cfgs| == |file.rows|)
    ensures ConvergeOk(Finish(s.(tun := Free, file := file, h := s.h.(dirty := dirty)), who, ok))
  {
    hide Finish, Fresh, AtApply;
    FinishFile(s, who, ok, file, dirty);
    if OwesBut(s, Some(who)) { FinishOwes(s, who, ok, file, dirty); }
  }

  /** A config taken from the cache is the stored one, or its request owes. */
  lemma CachedIsStored(s: State, who: Who, x: string)
    requires AtApply(s, who) && CacheApp(s.db.apps, s.cache, s.ops, x) && x in s.cache
    ensures (x in s.db.apps && s.cache[x] == s.db.apps[x].config) || OwesBut(s, Some(who))
  {
    if x in s.ops && (s.ops[x].pc.CacheCfg? || (s.ops[x].kind.Destroy? && s.ops[x].pc.DropCache?)) {
      OwingOwes(s, x, Some(who));
    }
  }

  lemma CollectConverges(s: State, c: Choice)
    requires Inv(s) && TunnelEnabled(s) && AtApply(s, s.tun.who) && CacheOk(s) && ConvergeOk(s)
    requires !s.tun.phase.Locked? && |s.tun.phase.cfgs| < |s.tun.phase.rows|
    requires s.tun.phase.Missed? ==> c.ok && s.tun.phase.rows[|s.tun.phase.cfgs|].app in s.db.apps
    ensures ConvergeOk(TunnelStep(s, c))
  {
    hide Inv, RunningList, LiveOf, CacheApp, RunningCached, Dropped, AtApply;
    var t := TunnelStep(s, c);
    var x := s.tun.phase.rows[|s.tun.phase.cfgs|].app;
    assert t.tun.Held? && t.tun.who == s.tun.who && !t.tun.phase.Locked? && t.tun.phase.rows == s.tun.phase.rows;
    assert t.db == s.db && t.file == s.file && t.h == s.h && t.ops == s.ops && t.vm == s.vm && t.mode == s.mode;
    assert OwesBut(s, None) ==> OwesBut(t, None);
    assert OwesBut(s, Some(s.tun.who)) ==> OwesBut(t, Some(s.tun.who));
    if !s.h.dirty {
      assert CacheApp(s.db.apps, s.cache, s.ops, x);
      if s.tun.phase.Reading? && x in s.cache { CachedIsStored(s, s.tun.who, x); }
      hide OwesBut;
    }
  }

  lemma TunnelKeepsConverge(s: State, c: Choice)
    requires Inv(s) && TunnelEnabled(s) && AtApply(s, s.tun.who) && CacheOk(s) && ConvergeOk(s)
    ensures ConvergeOk(TunnelStep(s, c))
  {
    var who := s.tun.who;
    if !s.h.dirty && !s.tun.phase.Locked? { ListedLength(s); }
    hide Inv, Finish, CacheOk, RunningList, LiveOf, AtApply, OwesBut, ConvergeOk;
    match s.tun.phase
    case Locked =>
      if c.ok { ReadConverges(s, c); } else { DoneConverges(s, who, false, s.file, true); }
    case Reading(rows, cfgs) =>
      if |cfgs| < |rows| { CollectConverges(s, c); }
      else if c.ok { HeldFresh(s); DoneConverges(s, who, true, Ingress(rows, cfgs), s.h.dirty); }
      else { DoneConverges(s, who, false, s.file, true); }
    case Missed(rows, cfgs) =>
      if !c.ok { DoneConverges(s, who, false, s.file, true); }
      else if rows[|cfgs|].app !in s.db.apps { HeldFresh(s); FreshIsStored(s); DoneConverges(s, who, false, s.file, s.h.dirty); }
      else { CollectConverges(s, c); }
    case Fetched(rows, cfgs, raw) => CollectConverges(s, c);
  }

  lemma ListedLength(s: State)
    requires CacheOk(s) && !s.h.dirty && s.tun.Held? && !s.tun.phase.Locked?
    ensures |s.tun.phase.cfgs| <= |s.tun.phase.rows|
  {
  }

  lemma HeldFresh(s: State)
    requires ConvergeOk(s) && s.tun.Held? && !s.tun.phase.Locked?
    ensures s.h.dirty || OwesBut(s, Some(s.tun.who)) || Fresh(s.tun.phase.rows, s.tun.phase.cfgs, s.db)
  {
  }

  /** Rows of an up-to-date list belong to stored apps. */
  lemma FreshIsStored(s: State)
    requires Inv(s) && s.tun.Held? && s.tun.phase.Missed? && |s.tun.phase.cfgs| < |s.tun.phase.rows|
    ensures Fresh(s.tun.phase.rows, s.tun.phase.cfgs, s.db) ==> s.tun.phase.rows[|s.tun.phase.cfgs|].app in s.db.apps
  {
    InvDb(s);
    hide Inv;
    if Fresh(s.tun.phase.rows, s.tun.phase.cfgs, s.db) {
      Routing.ListIsExact(LiveOf(s.db));
      var r := s.tun.phase.rows[|s.tun.phase.cfgs|];
      assert r in RunningList(LiveOf(s.db));
      var id :| id in LiveOf(s.db) && LiveOf(s.db)[id] == r;
      assert s.db.machines[id].app in s.db.apps;
    }
  }

  lemma ReadConverges(s: State, c: Choice)
    requires s.tun.Held? && s.tun.phase.Locked? && c.ok && ConvergeOk(s)
    ensures ConvergeOk(DoRead(s, s.tun.who, c))
  {
    hide RunningList, LiveOf;
    var t := DoRead(s, s.tun.who, c);
    assert OwesBut(s, None) ==> OwesBut(t, None);
  }

  lemma RestKeepsConverge(s: State, e: Event)
    requires Enabled(s, e) && ConvergeOk(s) && HolderOk(s)
    requires e.EBegin? || e.EAcquire? || e.EExit? || e.EBeginStop? || e.EStopAll? || e.EReboot?
    ensures ConvergeOk(Next(s, e))
  {
    if !e.EReboot? {
      var t := Next(s, e);
      RestOwes(s, e, None);
      if s.tun.Held? { RestOwes(s, e, Some(s.tun.who)); }
      RestFrame(s, e);
      hide Next, OwesBut, RunningList, LiveOf;
    }
  }

  lemma RestFrame(s: State, e: Event)
    requires Enabled(s, e) && (e.EBegin? || e.EAcquire? || e.EExit? || e.EBeginStop? || e.EStopAll?)
    ensures var t := Next(s, e);
            && t.db == s.db && t.file == s.file && t.h.dirty == s.h.dirty
            && (t.tun == s.tun || (e.EAcquire? && t.tun.Held? && t.tun.phase.Locked?))
  {
  }

  lemma RestOwes(s: State, e: Event, but: Option<Who>)
    requires Enabled(s, e) && (e.EBegin? || e.EAcquire? || e.EExit? || e.EBeginStop? || e.EStopAll?)
    ensures OwesBut(s, but) ==> OwesBut(Next(s, e), but)
  {
    hide OpOwes;
    var t := Next(s, e);
    if x :| x in s.ops && OpOwes(s.ops[x]) && but != Some(ByOp(x)) {
      assert x in t.ops && t.ops[x] == s.ops[x];
    } else if id :| id in s.vm.watchers && WatchOwes(s.vm.watchers[id]) && but != Some(ByWatcher(id)) {
      assert id in t.vm.watchers && t.vm.watchers[id] == s.vm.watchers[id];
    }
  }

  lemma StepKeepsConverge(s: State, e: Event)
    requires Inv(s) && HolderOk(s) && Enabled(s, e) && CacheOk(s) && ConvergeOk(s)
    ensures ConvergeOk(Next(s, e))
  {
    hide Inv, CacheOk, ConvergeOk, OpStep, WatchStep, ReconcileStep, TunnelStep, AtApply;
    match e
    case EOp(a, c) => OpKeepsConverge(s, a, c);
    case EWatch(id, c) => WatchKeepsConverge(s, id, c);
    case EReconcile(c) => ReconcileKeepsConverge(s, c);
    case ETunnel(c) => TunnelKeepsConverge(s, c);
    case _ => RestKeepsConverge(s, e);
  }

  lemma InitConverges()
    ensures CacheOk(INIT) && ConvergeOk(INIT)
  {
  }

  lemma {:induction false} RunKeepsConverge(s: State, es: seq<Event>)
    requires Inv(s) && HolderOk(s) && CacheOk(s) && ConvergeOk(s) && ValidRun(s, es)
    ensures CacheOk(Exec(s, es)) && ConvergeOk(Exec(s, es))
    decreases es
  {
    hide Inv, HolderOk, CacheOk, ConvergeOk;
    if es == [] {
      assert Exec(s, es) == s;
    } else {
      StepKeeps(s, es[0]);
      StepKeepsCache(s, es[0]);
      StepKeepsConverge(s, es[0]);
      RunKeepsConverge(Next(s, es[0]), es[1..]);
      assert Exec(s, es) == Exec(Next(s, es[0]), es[1..]);
    }
  }

  /** Nobody is about to re-render. */
  ghost predicate Quiescent(s: State) {
    && !s.mode.Reconciling?
    && (forall a | a in s.ops :: !OpOwes(s.ops[a]))
    && (forall id | id in s.vm.watchers :: !WatchOwes(s.vm.watchers[id]))
  }

  /** Convergence: whenever, in any interleaving, no task is left that owes a
      re-render, the ingress file was rendered from exactly the rows running now,
      newest first, each with its app's stored configuration, unless a failure
      is on record (`dirty`). */
  lemma TunnelConverges(es: seq<Event>)
    requires ValidRun(INIT, es) && Quiescent(Exec(INIT, es)) && !Exec(INIT, es).h.dirty
    ensures var t := Exec(INIT, es);
            && t.file.rows == RunningList(LiveOf(t.db)) && |t.file.cfgs| == |t.file.rows|
            && forall i | 0 <= i < |t.file.rows| ::
                 t.file.rows[i].app in t.db.apps && t.file.cfgs[i] == t.db.apps[t.file.rows[i].app].config
  {
    InitOk();
    InitConverges();
    RunKeepsConverge(INIT, es);
    hide Inv, HolderOk, CacheOk, Exec, ValidRun, OpOwes;
  }

  /** Barring a failure on record, what a Scale stores differs from what was stored
      in the sizes asked for alone, whatever else went on since it read it. */
  lemma ScaleStoresTheRest(es: seq<Event>, a: string, c: Choice)
    requires ValidRun(INIT, es) && !Exec(INIT, es).h.dirty && OpEnabled(Exec(INIT, es), a, c) && c.ok
    requires Exec(INIT, es).ops[a].kind.Scale? && Exec(INIT, es).ops[a].pc.Upsert?
    ensures var t, u := Exec(INIT, es), OpStep(Exec(INIT, es), a, c);
            && a in t.db.apps && a in u.db.apps && u.db.apps[a].owner == t.db.apps[a].owner
            && Sized(t.db.apps[a].config, t.ops[a].kind.memoryMB, t.ops[a].kind.cpus, u.db.apps[a].config)
  {
    InitOk();
    InitConverges();
    RunKeepsConverge(INIT, es);
    var t := Exec(INIT, es);
    hide Exec, ValidRun, Inv, ConvergeOk, RunningCached, ListedCached, OpOwes;
    assert CacheApp(t.db.apps, t.cache, t.ops, a);
  }

  /** The running machine of its app that was created last. */
  ghost predicate Newest(rows: Rows, id: MachineId) {
    && IsRunning(rows, id)
    && forall j | IsRunning(rows, j) && rows[j].app == rows[id].app :: rows[j].stamp <= rows[id].stamp
  }

  /** `host` is `<app>.<domain>` or one of the app's own domains. */
  predicate NameOf(domain: string, app: string, config: Config, host: string) {
    host == app + "." + domain || host in config.domains
  }

  /** So, once settled, every hostname of an app, default or custom, reaches the
      app's newest running machine, at that machine's address and the app's first
      service port, unless another app has that name too. */
  lemma ConvergedRouting(es: seq<Event>, id: MachineId, host: string, domain: string, statics: seq<Route>, apiPort: nat)
    requires ValidRun(INIT, es) && Quiescent(Exec(INIT, es)) && !Exec(INIT, es).h.dirty
    requires var db := Exec(INIT, es).db;
             && Newest(db.machines, id) && db.machines[id].app in db.apps && db.apps[db.machines[id].app].config.ports != []
             && (forall x | x in db.apps :: NameOf(domain, x, db.apps[x].config, host) <==> x == db.machines[id].app)
    ensures var t := Exec(INIT, es);
            var rule := Routing.Match(Routing.AllRoutes(domain, t.file.rows, t.file.cfgs, statics, apiPort), host);
            rule.Some? && Routing.Reaches(rule.value, t.db.machines[id].ip, t.db.apps[t.db.machines[id].app].config.ports[0])
  {
    TunnelConverges(es);
    var t := Exec(INIT, es);
    var live := LiveOf(t.db);
    assert DbOk(t.db) by { InitOk(); RunKeeps(INIT, es); InvDb(t); }
    hide Exec, ValidRun, Inv, RunningList, Routing.Match, Routing.AllRoutes, Routing.Reaches, Quiescent;
    forall k | 0 <= k < |t.file.cfgs|
      ensures Routing.Serves(domain, t.file.rows[k], t.file.cfgs[k], host) <==> t.file.rows[k].app == live[id].app
    {
      assert NameOf(domain, t.file.rows[k].app, t.file.cfgs[k], host) <==> t.file.rows[k].app == live[id].app;
    }
    Routing.HostReachesNewest(domain, live, t.file.cfgs, id, host, statics, apiPort);
  }

  /** What goes on that record: a failed store or write call, or a request that
      ended after storing a new configuration. */
  lemma DirtyMeansAFailure(s: State, e: Event)
    requires Inv(s) && HolderOk(s) && Enabled(s, e) && !s.h.dirty && Next(s, e).h.dirty
    ensures e.EOp? || e.ETunnel? || e.EReconcile?
    ensures !e.c.ok || (e.EOp? && s.ops[e.app].changed && e.app !in Next(s, e).ops)
  {
    hide Inv, HolderOk, OpStep, TunnelStep, WatchStep, ReconcileStep;
    if e.EOp? { OpDirtyCause(s, e.app, e.c); }
    else if e.ETunnel? { HeldAtApply(s); if e.c.ok { TunnelDirtyCause(s, e.c); } }
    else if e.EReconcile? { if e.c.ok { ReconcileDirtyCause(s, e.c); } }
    else if e.EWatch? { WatchSnap(s, e.id, e.c); }
  }

  lemma TunnelDirtyCause(s: State, c: Choice)
    requires TunnelEnabled(s) && AtApply(s, s.tun.who) && c.ok
    ensures TunnelStep(s, c).h.dirty == s.h.dirty
  {
  }

  lemma ReconcileDirtyCause(s: State, c: Choice)
    requires ReconcileEnabled(s, c) && c.ok
    ensures ReconcileStep(s, c).h.dirty == s.h.dirty
  {
    hide SubnetForOwner, SetMachineState;
  }

  ghost predicate DirtyCause(s: State, t: State, a: string, c: Choice)
    requires a in s.ops
  {
    t.h.dirty == s.h.dirty || !c.ok || (s.ops[a].changed && a !in t.ops)
  }

  lemma OpDirtyCause(s: State, a: string, c: Choice)
    requires Inv(s) && OpEnabled(s, a, c)
    ensures DirtyCause(s, OpStep(s, a, c), a, c)
  {
    hide Inv, OwnOk, OpStep, DirtyCause, KindOk, DbOk;
    InOp(s, a);
    var pc := s.ops[a].pc;
    if NoMachine(pc) { EarlyDirtyCause(s, a, c); }
    else if RelOwn(pc) { ReleaseDirtyCause(s, a, c); }
    else if BootOwn(pc) || pc.Spawn? { BootDirtyCause(s, a, c); }
    else { LateDirtyCause(s, a, c); }
  }

  lemma EarlyDirtyCause(s: State, a: string, c: Choice)
    requires OpEnabled(s, a, c) && NoMachine(s.ops[a].pc) && KindOk(s.ops[a])
    ensures DirtyCause(s, OpStep(s, a, c), a, c)
  {
    hide Scaled, LatestRelease, InsertRelease, UpsertApp, SubnetForOwner, AllocAndInsertMachine;
  }

  lemma ReleaseDirtyCause(s: State, a: string, c: Choice)
    requires OpEnabled(s, a, c) && RelOwn(s.ops[a].pc) && KindOk(s.ops[a])
    ensures DirtyCause(s, OpStep(s, a, c), a, c)
  {
    hide DeleteMachine;
  }

  lemma BootDirtyCause(s: State, a: string, c: Choice)
    requires OpEnabled(s, a, c) && (BootOwn(s.ops[a].pc) || s.ops[a].pc.Spawn?) && KindOk(s.ops[a])
    ensures DirtyCause(s, OpStep(s, a, c), a, c)
  {
    hide DeleteMachine, SetMachineState;
  }

  lemma LateDirtyCause(s: State, a: string, c: Choice)
    requires OpEnabled(s, a, c) && !NoMachine(s.ops[a].pc) && !Holds(s.ops[a].pc) && !s.ops[a].pc.Spawn? && KindOk(s.ops[a])
    requires LoopOk(s.db.machines, s.ids.appOf, a, s.ops[a]) && GoneOk(s.db.apps, s.db.releases, a, s.ops[a])
    ensures DirtyCause(s, OpStep(s, a, c), a, c)
  {
    if s.ops[a].pc.DropApp? {
      assert MachinesOf(s.db, a) == {} && ReleasesOf(s.db, a) == {};
    }
  }
}
