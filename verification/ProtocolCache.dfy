// The config cache under interleaving: what the tunnel re-render finds in it is
// the stored configuration, or belongs to a request that will re-render later.

module ProtocolCache {
  import opened Common
  import opened AppConfig
  import opened Tables
  import opened Tunnel
  import opened Protocol
  import opened ProtocolInv
  import opened ProtocolSteps
  import opened ProtocolRuns
  import opened ProtocolTheorems
  import opened ProtocolCutover
  import opened ProtocolIndex
  import Routing

  /** Requests that have not yet made sure their app is cached. */
  predicate Uncached(op: Op) {
    op.kind.Destroy? || op.pc.Load? || op.pc.LoadStored? || op.pc.LoadCached? || op.pc.Upsert? || op.pc.CacheCfg?
  }

  /** A cached config is the stored one, except between Upsert and the cache
      update, and between a Destroy's DeleteApp and its cache delete; what a Scale
      is about to store is the stored one resized. */
  ghost predicate CacheApp(apps: map<string, AppRow>, cache: map<string, Config>, ops: map<string, Op>, x: string) {
    && (x in cache ==>
          || (x in apps && cache[x] == apps[x].config)
          || (x in ops && ops[x].pc.CacheCfg?)
          || (x in ops && ops[x].kind.Destroy? && ops[x].pc.DropCache?))
    && (x in ops ==>
          && (ops[x].pc.LoadCached? || ops[x].pc.CacheCfg? ==> x in apps && ops[x].cfg == apps[x].config)
          && (ops[x].pc.CacheCfg? ==> ops[x].changed)
          && (ops[x].kind.Scale? && ops[x].pc.Upsert? ==>
                x in apps && Sized(apps[x].config, ops[x].kind.memoryMB, ops[x].kind.cpus, ops[x].cfg))
          && (Uncached(ops[x]) || x in cache))
  }

  ghost predicate Coherent(s: State) {
    forall x :: CacheApp(s.db.apps, s.cache, s.ops, x)
  }

  /** Reconcile has not cached this row's app yet. */
  predicate Unloaded(m: Mode, id: MachineId) {
    && m.Reconciling?
    && (m.rpc.RList? || id in m.rtodo
        || (id == m.rcur && (m.rpc.RLoad? || m.rpc.RLoadStored? || m.rpc.RLoadCached? || m.rpc.RFail?)))
  }

  /** Apps with running machines are cached. */
  ghost predicate RunningCached(rows: Rows, apps: map<string, AppRow>, cache: map<string, Config>, m: Mode) {
    && (forall id | IsRunning(rows, id) && !Unloaded(m, id) :: rows[id].app in cache)
    && (m.Reconciling? && m.rpc.RLoadCached? ==>
          m.rcur in rows && rows[m.rcur].app in apps && m.rpc.raw == apps[rows[m.rcur].app].config)
  }

  /** A Destroy that has dropped its app from the cache. */
  predicate Dropped(ops: map<string, Op>, x: string) {
    x in ops && ops[x].kind.Destroy? && (ops[x].pc.RemoveFiles? || ops[x].pc.ApplyTunnel?)
  }

  /** The apps of the rows a re-render has listed stay cached until it is done,
      or are being destroyed; it falls back to the store only while starting up. */
  ghost predicate ListedCached(tun: Tun, apps: map<string, AppRow>, cache: map<string, Config>, ops: map<string, Op>, m: Mode) {
    tun.Held? && !tun.phase.Locked? ==>
      && |tun.phase.cfgs| <= |tun.phase.rows|
      && (!tun.phase.Reading? ==> |tun.phase.cfgs| < |tun.phase.rows|)
      && (forall i | 0 <= i < |tun.phase.rows| ::
            var x := tun.phase.rows[i].app;
            x in cache || (m.Reconciling? && x in apps) || Dropped(ops, x))
      && (tun.phase.Missed? && !m.Reconciling? ==> Dropped(ops, tun.phase.rows[|tun.phase.cfgs|].app))
      && (tun.phase.Fetched? ==>
            && m.Reconciling?
            && var x := tun.phase.rows[|tun.phase.cfgs|].app;
               x in apps && tun.phase.raw == apps[x].config)
  }

  ghost predicate CacheOk(s: State) {
    !s.h.dirty ==>
      && Coherent(s)
      && RunningCached(s.db.machines, s.db.apps, s.cache, s.mode)
      && ListedCached(s.tun, s.db.apps, s.cache, s.ops, s.mode)
  }

  // ----- requests ---------------------------------------------------------------------

  /** What a request's step does to the cache and to its app's rows. */
  ghost predicate CacheMove(s: State, t: State, a: string) {
    && (s.h.dirty ==> t.h.dirty)
    && (forall x | x != a :: Same(s.cache, t.cache, x) && Same(s.db.apps, t.db.apps, x))
    && CacheApp(t.db.apps, t.cache, t.ops, a)
    && (a in s.cache && a !in t.cache ==> Dropped(t.ops, a))
    && (Dropped(s.ops, a) ==> Dropped(t.ops, a) || t.h.dirty)
    && (forall id | IsRunning(t.db.machines, id) ::
          || (IsRunning(s.db.machines, id) && s.db.machines[id].app == t.db.machines[id].app)
          || (t.db.machines[id].app == a && a in t.cache))
  }

  lemma LoadMove(s: State, a: string, c: Choice)
    requires OpEnabled(s, a, c) && (s.ops[a].pc.Load? || s.ops[a].pc.LoadStored? || s.ops[a].pc.LoadCached?)
    requires KindOk(s.ops[a]) && CacheApp(s.db.apps, s.cache, s.ops, a)
    ensures CacheMove(s, OpStep(s, a, c), a)
  {
    hide OpOwes;
  }

  lemma ConfigCacheMove(s: State, a: string, c: Choice)
    requires OpEnabled(s, a, c) && ConfigPc(s.ops[a].pc) && !s.ops[a].pc.Load? && !s.ops[a].pc.LoadStored? && !s.ops[a].pc.LoadCached?
    requires KindOk(s.ops[a]) && CacheApp(s.db.apps, s.cache, s.ops, a)
    ensures CacheMove(s, OpStep(s, a, c), a)
  {
    hide OpOwes, Scaled, LatestRelease, MaxKey;
  }

  /** Pcs at which a request's configuration is settled and cached. */
  predicate Settled(pc: Pc) {
    !pc.Load? && !pc.LoadStored? && !pc.LoadCached? && !pc.Upsert? && !pc.CacheCfg? && !pc.DropCache?
  }

  /** The configuration and the cache stay as they are. */
  ghost predicate SettledMove(s: State, t: State, a: string)
    requires a in s.ops
  {
    && (s.h.dirty ==> t.h.dirty)
    && t.cache == s.cache && t.db.apps == s.db.apps
    && (a in t.ops ==> t.ops[a].kind == s.ops[a].kind && Settled(t.ops[a].pc))
  }

  lemma SettledCacheMove(s: State, t: State, a: string)
    requires a in s.ops && SettledMove(s, t, a) && Settled(s.ops[a].pc)
    requires CacheApp(s.db.apps, s.cache, s.ops, a)
    requires Dropped(s.ops, a) ==> Dropped(t.ops, a) || t.h.dirty
    requires forall id | IsRunning(t.db.machines, id) ::
               || (IsRunning(s.db.machines, id) && s.db.machines[id].app == t.db.machines[id].app)
               || (t.db.machines[id].app == a && a in t.cache)
    ensures CacheMove(s, t, a)
  {
  }

  lemma BootingIsSettled(s: State, t: State, a: string)
    requires a in s.ops && t.cache == s.cache && t.db.apps == s.db.apps && (s.h.dirty ==> t.h.dirty)
    requires a in t.ops ==> t.ops[a].kind == s.ops[a].kind && (t.ops[a].pc.RelStart? || t.ops[a].pc.Start?)
    ensures SettledMove(s, t, a)
  {
  }

  lemma SubnetSettled(s: State, a: string, c: Choice)
    requires OpEnabled(s, a, c) && (s.ops[a].pc.RelSubnet? || s.ops[a].pc.Subnet?)
    ensures SettledMove(s, OpStep(s, a, c), a)
  {
    hide OpOwes, LeastIndexFrom;
  }

  lemma InsertSettled(s: State, a: string, c: Choice)
    requires OpEnabled(s, a, c) && InsertPc(s.ops[a].pc)
    ensures SettledMove(s, OpStep(s, a, c), a)
  {
    var r := AllocAndInsertMachine(s.db, c.id, a, s.ops[a].rel, s.ops[a].idx);
    assert r.Some? ==> r.value.0.apps == s.db.apps;
    hide OpOwes, AllocAndInsertMachine, SettledMove, Settled;
    var t := OpStep(s, a, c);
    assert t.cache == s.cache && t.db.apps == s.db.apps && (s.h.dirty ==> t.h.dirty);
    assert a in t.ops ==> t.ops[a].kind == s.ops[a].kind && (t.ops[a].pc.RelStart? || t.ops[a].pc.Start?);
    hide OpStep;
    assert SettledMove(s, t, a) by { BootingIsSettled(s, t, a); }
  }

  lemma RowSettled(s: State, a: string, c: Choice)
    requires OpEnabled(s, a, c) && NoMachine(s.ops[a].pc) && !ConfigPc(s.ops[a].pc)
    ensures SettledMove(s, OpStep(s, a, c), a)
  {
    hide OpStep, SettledMove;
    if InsertPc(s.ops[a].pc) { InsertSettled(s, a, c); } else { SubnetSettled(s, a, c); }
  }

  lemma ReleaseSettled(s: State, a: string, c: Choice)
    requires OpEnabled(s, a, c) && RelOwn(s.ops[a].pc)
    ensures SettledMove(s, OpStep(s, a, c), a)
  {
    hide OpOwes;
  }

  lemma StartSettled(s: State, a: string, c: Choice)
    requires OpEnabled(s, a, c)
    requires s.ops[a].pc.Start? || s.ops[a].pc.SetHandle? || s.ops[a].pc.Await? || s.ops[a].pc.Mark? || s.ops[a].pc.Spawn?
    ensures SettledMove(s, OpStep(s, a, c), a)
  {
    hide OpOwes;
  }

  lemma FailSettled(s: State, a: string, c: Choice)
    requires OpEnabled(s, a, c)
    requires s.ops[a].pc.StopNew? || s.ops[a].pc.ForgetNew? || s.ops[a].pc.FailState? || s.ops[a].pc.FailDelete?
    ensures SettledMove(s, OpStep(s, a, c), a)
  {
    hide OpOwes;
  }

  lemma ListSettled(s: State, a: string, c: Choice)
    requires OpEnabled(s, a, c) && (s.ops[a].pc.ListOld? || s.ops[a].pc.ListAll? || s.ops[a].pc.DropReleases? || s.ops[a].pc.Announce?)
    ensures SettledMove(s, OpStep(s, a, c), a)
  {
    hide OpOwes;
  }

  lemma LoopSettled(s: State, a: string, c: Choice)
    requires OpEnabled(s, a, c) && Looping(s.ops[a].pc)
    ensures SettledMove(s, OpStep(s, a, c), a)
  {
    hide OpOwes;
  }

  lemma TailMove(s: State, a: string, c: Choice)
    requires OpEnabled(s, a, c) && (s.ops[a].pc.SetOwner? || s.ops[a].pc.DropApp? || s.ops[a].pc.DropCache? || s.ops[a].pc.RemoveFiles?)
    requires KindOk(s.ops[a]) && CacheApp(s.db.apps, s.cache, s.ops, a)
    requires GoneOk(s.db.apps, s.db.releases, a, s.ops[a])
    ensures CacheMove(s, OpStep(s, a, c), a)
  {
    hide OpStep, CacheMove, CacheApp, GoneOk;
    if s.ops[a].pc.SetOwner? { OwnerMove(s, a, c); }
    else if s.ops[a].pc.DropApp? { AppMove(s, a, c); }
    else { FilesMove(s, a, c); }
  }

  lemma OwnerMove(s: State, a: string, c: Choice)
    requires OpEnabled(s, a, c) && s.ops[a].pc.SetOwner? && KindOk(s.ops[a]) && CacheApp(s.db.apps, s.cache, s.ops, a)
    ensures CacheMove(s, OpStep(s, a, c), a)
  {
    hide OpOwes;
  }

  lemma AppMove(s: State, a: string, c: Choice)
    requires OpEnabled(s, a, c) && s.ops[a].pc.DropApp? && KindOk(s.ops[a]) && CacheApp(s.db.apps, s.cache, s.ops, a)
    ensures CacheMove(s, OpStep(s, a, c), a)
  {
    hide OpOwes, ReleasesOf, MachinesOf;
  }

  lemma FilesMove(s: State, a: string, c: Choice)
    requires OpEnabled(s, a, c) && (s.ops[a].pc.DropCache? || s.ops[a].pc.RemoveFiles?)
    requires KindOk(s.ops[a]) && CacheApp(s.db.apps, s.cache, s.ops, a) && GoneOk(s.db.apps, s.db.releases, a, s.ops[a])
    ensures CacheMove(s, OpStep(s, a, c), a)
  {
  }

  lemma OpCacheMove(s: State, a: string, c: Choice)
    requires Inv(s) && OpEnabled(s, a, c) && CacheApp(s.db.apps, s.cache, s.ops, a)
    ensures CacheMove(s, OpStep(s, a, c), a)
  {
    hide Inv, DbOk, OwnOk, LoopOk, GoneOk, OpStep, CacheMove, CacheApp, KindOk;
    InOp(s, a);
    var pc, t := s.ops[a].pc, OpStep(s, a, c);
    if pc.Load? || pc.LoadStored? || pc.LoadCached? { LoadMove(s, a, c); }
    else if ConfigPc(pc) { ConfigCacheMove(s, a, c); }
    else if pc.SetOwner? || pc.DropApp? || pc.DropCache? || pc.RemoveFiles? { TailMove(s, a, c); }
    else {
      if NoMachine(pc) { RowSettled(s, a, c); }
      else if RelOwn(pc) { ReleaseSettled(s, a, c); }
      else if pc.Start? || pc.SetHandle? || pc.Await? || pc.Mark? || pc.Spawn? { StartSettled(s, a, c); }
      else if BootOwn(pc) { FailSettled(s, a, c); }
      else if Looping(pc) { LoopSettled(s, a, c); }
      else { ListSettled(s, a, c); }
      RunningMove(s, a, c);
      SettledNow(s, a);
      SettledCacheMove(s, t, a);
    }
  }

  lemma SettledNow(s: State, a: string)
    requires a in s.ops && !ConfigPc(s.ops[a].pc) && !s.ops[a].pc.DropCache?
    ensures Settled(s.ops[a].pc)
    ensures !s.ops[a].pc.RemoveFiles? && !s.ops[a].pc.ApplyTunnel? ==> !Dropped(s.ops, a)
  {
  }

  // ----- which steps change the running set -------------------------------------------------

  ghost predicate LiveSame(r: Rows, r': Rows, id: MachineId) {
    && (IsRunning(r, id) <==> IsRunning(r', id))
    && (IsRunning(r, id) ==> r[id].app == r'[id].app && r[id].ip == r'[id].ip && r[id].stamp == r'[id].stamp)
  }

  /** An inserted row reads 'starting'. */
  lemma InsertedLive(s: State, a: string, c: Choice)
    requires OpEnabled(s, a, c) && InsertPc(s.ops[a].pc)
    ensures LiveSame(s.db.machines, OpStep(s, a, c).db.machines, c.id)
  {
    hide FreeIp, OpOwes;
  }

  lemma UndoneRow(s: State, a: string, c: Choice)
    requires OpEnabled(s, a, c) && (s.ops[a].pc.RelDelete? || s.ops[a].pc.FailState? || s.ops[a].pc.FailDelete?)
    requires !IsRunning(s.db.machines, s.ops[a].id)
    ensures !IsRunning(OpStep(s, a, c).db.machines, s.ops[a].id)
  {
    hide OpOwes;
  }

  /** A request undoes only rows that never ran. */
  lemma UndoneLive(s: State, a: string, c: Choice)
    requires Inv(s) && OpEnabled(s, a, c) && RowPc(s.ops[a].pc) && !s.ops[a].pc.Mark?
    ensures LiveSame(s.db.machines, OpStep(s, a, c).db.machines, s.ops[a].id)
  {
    NotOwnYet(s, a, s.ops[a].id);
    hide Inv, OpStep;
    UndoneRow(s, a, c);
  }

  lemma MarkedLive(s: State, a: string, c: Choice)
    requires Inv(s) && OpEnabled(s, a, c) && s.ops[a].pc.Mark?
    ensures var t := OpStep(s, a, c);
            LiveSame(s.db.machines, t.db.machines, s.ops[a].id)
            || (s.ops[a].id in t.db.machines && t.db.machines[s.ops[a].id].app == a && a in t.ops && t.ops[a].pc.Spawn?)
  {
    hide Inv, DbOk, LoopOk, GoneOk, KindOk, OpOwes;
    InOp(s, a);
  }

  /** Only Mark and the stop loop change the running set. */
  lemma OpLive(s: State, a: string, c: Choice, id: MachineId)
    requires Inv(s) && OpEnabled(s, a, c)
    ensures var t := OpStep(s, a, c);
            || LiveSame(s.db.machines, t.db.machines, id)
            || (s.ops[a].pc.Mark? && id == s.ops[a].id && id in t.db.machines && t.db.machines[id].app == a && a in t.ops && t.ops[a].pc.Spawn?)
            || (s.ops[a].pc.DropNext? && id == s.ops[a].cur)
  {
    hide Inv, OpStep, LiveSame;
    OpRows(s, a, c);
    var t := OpStep(s, a, c);
    if InsertPc(s.ops[a].pc) { InsertedLive(s, a, c); }
    if s.ops[a].pc.Mark? { MarkedLive(s, a, c); }
    if RowPc(s.ops[a].pc) && !s.ops[a].pc.Mark? { UndoneLive(s, a, c); }
    if Same(s.db.machines, t.db.machines, id) { SameLive(s.db.machines, t.db.machines, id); }
  }

  lemma SameLive(r: Rows, r': Rows, id: MachineId)
    requires Same(r, r', id)
    ensures LiveSame(r, r', id)
  {
  }

  lemma DroppedLive(s: State, a: string, c: Choice)
    requires OpEnabled(s, a, c) && s.ops[a].pc.DropNext?
    ensures IsRunning(OpStep(s, a, c).db.machines, s.ops[a].cur) ==> LiveSame(s.db.machines, OpStep(s, a, c).db.machines, s.ops[a].cur)
  {
    hide OpOwes;
  }

  /** Only Mark makes a row running, and by then the app is cached. */
  lemma RunningMove(s: State, a: string, c: Choice)
    requires Inv(s) && OpEnabled(s, a, c) && CacheApp(s.db.apps, s.cache, s.ops, a)
    requires OpStep(s, a, c).cache == s.cache
    ensures var t := OpStep(s, a, c);
            forall id | IsRunning(t.db.machines, id) ::
               || (IsRunning(s.db.machines, id) && s.db.machines[id].app == t.db.machines[id].app)
               || (t.db.machines[id].app == a && a in t.cache)
  {
    hide Inv, OpStep;
    var t := OpStep(s, a, c);
    assert s.ops[a].pc.Mark? ==> s.ops[a].kind.Destroy? || a in s.cache;
    assert s.ops[a].pc.Mark? ==> !s.ops[a].kind.Destroy? by { InOp(s, a); }
    forall id | IsRunning(t.db.machines, id)
      ensures || (IsRunning(s.db.machines, id) && s.db.machines[id].app == t.db.machines[id].app)
              || (t.db.machines[id].app == a && a in t.cache)
    {
      OpLive(s, a, c, id);
      if s.ops[a].pc.DropNext? { DroppedLive(s, a, c); }
    }
  }

  // ----- every step ---------------------------------------------------------------------------

  lemma OpKeepsCache(s: State, a: string, c: Choice)
    requires Inv(s) && OpEnabled(s, a, c) && Inv(OpStep(s, a, c)) && CacheOk(s)
    ensures CacheOk(OpStep(s, a, c))
  {
    hide Inv, OpStep, CacheMove, CacheApp, OwnOk, LoopOk, KindOk, DbOk, RunningCached, ListedCached;
    var t := OpStep(s, a, c);
    assert a in s.ops && !s.mode.Reconciling? by { InOp(s, a); }
    OpStepFrame(s, a, c);
    if !t.h.dirty {
      assert !s.h.dirty by { OpDirty(s, a, c); }
      assert CacheApp(s.db.apps, s.cache, s.ops, a);
      OpCacheMove(s, a, c);
      MoveCoherent(s, t, a);
      MoveRunning(s, t, a);
      DroppedStays(s, t, a);
      MoveListed(s, t, a);
    }
  }

  lemma DroppedStays(s: State, t: State, a: string)
    requires CacheMove(s, t, a) && !t.h.dirty
    ensures Dropped(s.ops, a) ==> Dropped(t.ops, a)
  {
  }

  lemma MoveCoherent(s: State, t: State, a: string)
    requires Coherent(s) && CacheMove(s, t, a)
    requires a in s.ops && t.ops == (if a in t.ops then s.ops[a := t.ops[a]] else s.ops - {a})
    ensures Coherent(t)
  {
    forall x ensures CacheApp(t.db.apps, t.cache, t.ops, x) {
      if x != a {
        assert CacheApp(s.db.apps, s.cache, s.ops, x);
        assert Same(s.cache, t.cache, x);
      }
    }
  }

  lemma MoveRunning(s: State, t: State, a: string)
    requires Inv(t) && CacheMove(s, t, a) && RunningCached(s.db.machines, s.db.apps, s.cache, s.mode)
    requires !s.mode.Reconciling? && t.mode == s.mode
    ensures RunningCached(t.db.machines, t.db.apps, t.cache, t.mode)
  {
    hide Inv, CacheApp;
    forall id | IsRunning(t.db.machines, id) ensures t.db.machines[id].app in t.cache {
      var x := t.db.machines[id].app;
      if x != a {
        assert Same(s.cache, t.cache, x);
      } else {
        if a in s.cache && a !in t.cache { InOp(t, a); }
      }
    }
  }

  lemma MoveListed(s: State, t: State, a: string)
    requires CacheMove(s, t, a) && ListedCached(s.tun, s.db.apps, s.cache, s.ops, s.mode)
    requires Dropped(s.ops, a) ==> Dropped(t.ops, a)
    requires a in s.ops && t.ops == (if a in t.ops then s.ops[a := t.ops[a]] else s.ops - {a})
    requires !s.mode.Reconciling? && t.mode == s.mode && t.tun == s.tun
    ensures ListedCached(t.tun, t.db.apps, t.cache, t.ops, t.mode)
  {
    hide CacheApp;
    if t.tun.Held? && !t.tun.phase.Locked? {
      forall i | 0 <= i < |t.tun.phase.rows|
        ensures t.tun.phase.rows[i].app in t.cache || Dropped(t.ops, t.tun.phase.rows[i].app)
      {
        var x := t.tun.phase.rows[i].app;
        if x != a { assert Same(s.cache, t.cache, x); }
      }
    }
  }

  // ----- when a request ends owing a re-render -----------------------------------------------

  /** A request that owed a re-render still does, or ended and is accounted for. */
  ghost predicate OwesOn(s: State, t: State, a: string)
    requires a in s.ops
  {
    && (s.h.dirty ==> t.h.dirty)
    && (OpOwes(s.ops[a]) ==> t.h.dirty || (a in t.ops && OpOwes(t.ops[a])))
  }

  lemma OwesConfig(s: State, a: string, c: Choice)
    requires OpEnabled(s, a, c) && ConfigPc(s.ops[a].pc)
    ensures OwesOn(s, OpStep(s, a, c), a)
  {
    hide Scaled, LatestRelease, InsertRelease, UpsertApp;
  }

  lemma OwesRows(s: State, a: string, c: Choice)
    requires OpEnabled(s, a, c) && NoMachine(s.ops[a].pc) && !ConfigPc(s.ops[a].pc)
    ensures OwesOn(s, OpStep(s, a, c), a)
  {
    hide SubnetForOwner, AllocAndInsertMachine;
  }

  lemma OwesRelease(s: State, a: string, c: Choice)
    requires OpEnabled(s, a, c) && RelOwn(s.ops[a].pc)
    ensures OwesOn(s, OpStep(s, a, c), a)
  {
    hide DeleteMachine;
  }

  lemma OwesBoot(s: State, a: string, c: Choice)
    requires OpEnabled(s, a, c) && (BootOwn(s.ops[a].pc) || s.ops[a].pc.Spawn?)
    ensures OwesOn(s, OpStep(s, a, c), a)
  {
    hide DeleteMachine, SetMachineState;
  }

  lemma OwesLate(s: State, a: string, c: Choice)
    requires OpEnabled(s, a, c) && !NoMachine(s.ops[a].pc) && !Holds(s.ops[a].pc) && !s.ops[a].pc.Spawn? && KindOk(s.ops[a])
    ensures OwesOn(s, OpStep(s, a, c), a)
  {
    hide DeleteMachine, DeleteReleasesForApp, DeleteApp, SetAppOwner;
  }

  lemma OpDirty(s: State, a: string, c: Choice)
    requires Inv(s) && OpEnabled(s, a, c)
    ensures OwesOn(s, OpStep(s, a, c), a)
  {
    hide Inv, OwnOk, LoopOk, GoneOk, DbOk, KindOk, OpStep, OwesOn;
    InOp(s, a);
    var pc := s.ops[a].pc;
    if ConfigPc(pc) { OwesConfig(s, a, c); }
    else if NoMachine(pc) { OwesRows(s, a, c); }
    else if RelOwn(pc) { OwesRelease(s, a, c); }
    else if BootOwn(pc) || pc.Spawn? { OwesBoot(s, a, c); }
    else { OwesLate(s, a, c); }
  }

  // ----- watchers, Reconcile, the re-render itself ------------------------------------------------

  lemma WatchRest(s: State, id: MachineId, c: Choice)
    requires WatchEnabled(s, id)
    ensures var t := WatchStep(s, id, c); t.cache == s.cache && t.db.apps == s.db.apps && t.h.dirty == s.h.dirty
  {
  }

  lemma WatchKeepsCache(s: State, id: MachineId, c: Choice)
    requires Inv(s) && WatchEnabled(s, id) && CacheOk(s)
    ensures CacheOk(WatchStep(s, id, c))
  {
    InMode(s);
    WatchRows(s, id, c);
    WatchFrame(s, id, c);
    WatchRest(s, id, c);
    hide Inv, CacheApp, ListedCached, WatchStep, DbOk;
    var t := WatchStep(s, id, c);
    if !t.h.dirty {
      forall j | IsRunning(t.db.machines, j) && !Unloaded(t.mode, j) ensures t.db.machines[j].app in t.cache {
        assert j != id ==> Same(s.db.machines, t.db.machines, j);
      }
      if t.mode.Reconciling? && t.mode.rpc.RLoadCached? {
        assert t.mode.rcur != id && Same(s.db.machines, t.db.machines, t.mode.rcur);
      }
    }
  }

  lemma ReconcileRest(s: State, c: Choice)
    requires ReconcileEnabled(s, c)
    ensures var t := ReconcileStep(s, c);
            && t.tun == s.tun && (s.h.dirty ==> t.h.dirty)
            && (t.mode.Reconciling? || t.h.dirty)
            && (t.cache == s.cache || (s.mode.rpc.RLoadCached? && t.cache == s.cache[s.db.machines[s.mode.rcur].app := s.mode.rpc.raw]))
  {
    hide ReconcileStep;
    if s.mode.rpc.RMark? || s.mode.rpc.RFail? { MarkRest(s, c); } else { LoadRest(s, c); }
  }

  lemma MarkRest(s: State, c: Choice)
    requires ReconcileEnabled(s, c) && (s.mode.rpc.RMark? || s.mode.rpc.RFail?)
    ensures var t := ReconcileStep(s, c);
            t.tun == s.tun && (s.h.dirty ==> t.h.dirty) && t.mode.Reconciling? && t.cache == s.cache
  {
    hide SetMachineState;
  }

  lemma LoadRest(s: State, c: Choice)
    requires ReconcileEnabled(s, c) && !s.mode.rpc.RMark? && !s.mode.rpc.RFail?
    ensures var t := ReconcileStep(s, c);
            && t.tun == s.tun && (s.h.dirty ==> t.h.dirty)
            && (t.mode.Reconciling? || t.h.dirty)
            && (t.cache == s.cache || (s.mode.rpc.RLoadCached? && t.cache == s.cache[s.db.machines[s.mode.rcur].app := s.mode.rpc.raw]))
  {
    hide SubnetForOwner;
  }

  lemma ReconcileKeepsCoherent(s: State, c: Choice)
    requires Inv(s) && ReconcileEnabled(s, c) && CacheOk(s) && !s.h.dirty && !ReconcileStep(s, c).h.dirty
    ensures Coherent(ReconcileStep(s, c))
    ensures var t := ReconcileStep(s, c); ListedCached(t.tun, t.db.apps, t.cache, t.ops, t.mode)
  {
    hide Inv;
    InMode(s);
    ReconcileTenants(s, c);
    ReconcileRest(s, c);
    hide ReconcileStep, DbOk;
    var t := ReconcileStep(s, c);
    forall x ensures CacheApp(t.db.apps, t.cache, t.ops, x) {
      assert CacheApp(s.db.apps, s.cache, s.ops, x);
    }
  }

  lemma SubnetKeepsRunning(s: State, c: Choice)
    requires Inv(s) && ReconcileEnabled(s, c) && RunningCached(s.db.machines, s.db.apps, s.cache, s.mode)
    requires s.mode.rpc.RSubnet?
    ensures var t := ReconcileStep(s, c); RunningCached(t.db.machines, t.db.apps, t.cache, t.mode)
  {
    hide Inv, LeastIndexFrom;
    InMode(s);
  }

  lemma ListKeepsRunning(s: State, c: Choice)
    requires ReconcileEnabled(s, c) && RunningCached(s.db.machines, s.db.apps, s.cache, s.mode)
    requires (s.mode.rpc.RList? || s.mode.rpc.RNext?) && !ReconcileStep(s, c).h.dirty
    ensures var t := ReconcileStep(s, c); RunningCached(t.db.machines, t.db.apps, t.cache, t.mode)
  {
  }

  lemma TurnKeepsRunning(s: State, c: Choice)
    requires Inv(s) && ReconcileEnabled(s, c) && RunningCached(s.db.machines, s.db.apps, s.cache, s.mode)
    requires !s.mode.rpc.RSubnet? && !s.mode.rpc.RList? && !s.mode.rpc.RNext? && !ReconcileStep(s, c).h.dirty
    ensures var t := ReconcileStep(s, c); RunningCached(t.db.machines, t.db.apps, t.cache, t.mode)
  {
    InMode(s);
    hide Inv, SubnetsOk, ReleasesOk, DoRList, DoRNext, DoRSubnet;
    if s.mode.rpc.RMark? || s.mode.rpc.RFail? { MarkKeepsRunning(s, c); } else { LoadKeepsRunning(s, c); }
  }

  lemma MarkKeepsRunning(s: State, c: Choice)
    requires ReconcileEnabled(s, c) && RunningCached(s.db.machines, s.db.apps, s.cache, s.mode)
    requires (s.mode.rpc.RMark? || s.mode.rpc.RFail?) && !ReconcileStep(s, c).h.dirty
    requires ReconOk(s.db.machines, s.vm, s.ops, s.mode)
    ensures var t := ReconcileStep(s, c); RunningCached(t.db.machines, t.db.apps, t.cache, t.mode)
  {
  }

  lemma LoadKeepsRunning(s: State, c: Choice)
    requires ReconcileEnabled(s, c) && RunningCached(s.db.machines, s.db.apps, s.cache, s.mode)
    requires !s.mode.rpc.RSubnet? && !s.mode.rpc.RList? && !s.mode.rpc.RNext? && !s.mode.rpc.RMark? && !s.mode.rpc.RFail?
    requires ReconOk(s.db.machines, s.vm, s.ops, s.mode) && MachinesOk(s.db)
    ensures var t := ReconcileStep(s, c); RunningCached(t.db.machines, t.db.apps, t.cache, t.mode)
  {
    hide DoRList, DoRNext, DoRSubnet;
  }

  lemma ReconcileKeepsCache(s: State, c: Choice)
    requires Inv(s) && ReconcileEnabled(s, c) && CacheOk(s)
    ensures CacheOk(ReconcileStep(s, c))
  {
    hide Inv, ReconcileStep, Coherent, RunningCached, ListedCached;
    ReconcileRest(s, c);
    if !ReconcileStep(s, c).h.dirty {
      ReconcileKeepsCoherent(s, c);
      if s.mode.rpc.RSubnet? { SubnetKeepsRunning(s, c); }
      else if s.mode.rpc.RList? || s.mode.rpc.RNext? { ListKeepsRunning(s, c); }
      else { TurnKeepsRunning(s, c); }
    }
  }

  /** The row query of a re-render: every app it lists is cached or, while
      starting up, in the store. */
  lemma ReadListed(s: State)
    requires Inv(s) && RunningCached(s.db.machines, s.db.apps, s.cache, s.mode)
    ensures forall i | 0 <= i < |RunningList(LiveOf(s.db))| ::
              var x := RunningList(LiveOf(s.db))[i].app;
              x in s.cache || (s.mode.Reconciling? && x in s.db.apps)
  {
    InvDb(s);
    hide Inv;
    Routing.ListIsExact(LiveOf(s.db));
    forall i | 0 <= i < |RunningList(LiveOf(s.db))|
      ensures var x := RunningList(LiveOf(s.db))[i].app; x in s.cache || (s.mode.Reconciling? && x in s.db.apps)
    {
      var r := RunningList(LiveOf(s.db))[i];
      assert r in RunningList(LiveOf(s.db));
      var id :| id in LiveOf(s.db) && LiveOf(s.db)[id] == r;
      assert IsRunning(s.db.machines, id);
    }
  }

  lemma FinishKeepsCache(s: State, who: Who, ok: bool, file: Ingress, dirty: bool)
    requires Inv(s) && CacheOk(s) && AtApply(s, who) && (!dirty ==> !s.h.dirty)
    ensures CacheOk(Finish(s.(tun := Free, file := file, h := s.h.(dirty := dirty)), who, ok))
  {
    if who.ByReconcile? { InMode(s); }
    hide Inv, DbOk;
    var t := Finish(s.(tun := Free, file := file, h := s.h.(dirty := dirty)), who, ok);
    if !dirty {
      FinishCoherent(s, who, ok, file, dirty);
      hide Coherent;
    }
  }

  lemma FinishCoherent(s: State, who: Who, ok: bool, file: Ingress, dirty: bool)
    requires AtApply(s, who) && Coherent(s)
    ensures Coherent(Finish(s.(tun := Free, file := file, h := s.h.(dirty := dirty)), who, ok))
  {
    var t := Finish(s.(tun := Free, file := file, h := s.h.(dirty := dirty)), who, ok);
    forall x ensures CacheApp(t.db.apps, t.cache, t.ops, x) { assert CacheApp(s.db.apps, s.cache, s.ops, x); }
  }

  lemma TunnelKeepsCache(s: State, c: Choice)
    requires Inv(s) && TunnelEnabled(s) && AtApply(s, s.tun.who) && CacheOk(s)
    ensures CacheOk(TunnelStep(s, c))
  {
    hide Inv, Finish, CacheApp, RunningCached, RunningList, LiveOf, CacheOk, AtApply;
    var who := s.tun.who;
    match s.tun.phase
    case Locked =>
      if c.ok { ReadKeepsCache(s, c); } else { FinishKeepsCache(s, who, false, s.file, true); }
    case Reading(rows, cfgs) =>
      if |cfgs| < |rows| { CollectKeepsCache(s, c); }
      else if c.ok { FinishKeepsCache(s, who, true, Ingress(rows, cfgs), s.h.dirty); }
      else { FinishKeepsCache(s, who, false, s.file, true); }
    case Missed(rows, cfgs) =>
      if !c.ok || rows[|cfgs|].app !in s.db.apps { FinishKeepsCache(s, who, false, s.file, s.h.dirty || !c.ok); }
      else { CollectKeepsCache(s, c); }
    case Fetched(rows, cfgs, raw) => CollectKeepsCache(s, c);
  }

  lemma ReadKeepsCache(s: State, c: Choice)
    requires Inv(s) && s.tun.Held? && s.tun.phase.Locked? && c.ok && CacheOk(s)
    ensures CacheOk(DoRead(s, s.tun.who, c))
  {
    hide Inv, RunningList, LiveOf;
    if !s.h.dirty { ReadListed(s); }
  }

  lemma CollectKeepsCache(s: State, c: Choice)
    requires Inv(s) && TunnelEnabled(s) && CacheOk(s) && !s.tun.phase.Locked? && |s.tun.phase.cfgs| < |s.tun.phase.rows|
    requires s.tun.phase.Missed? ==> c.ok && s.tun.phase.rows[|s.tun.phase.cfgs|].app in s.db.apps
    ensures CacheOk(TunnelStep(s, c))
  {
    hide Inv, DbOk, RunningList, LiveOf, OwnOk, LoopOk, KindOk;
    var x := s.tun.phase.rows[|s.tun.phase.cfgs|].app;
    if !s.h.dirty {
      assert CacheApp(s.db.apps, s.cache, s.ops, x);
      if s.tun.phase.Missed? && !s.mode.Reconciling? { InOp(s, x); }
      var t := TunnelStep(s, c);
      InMode(s);
      forall y ensures CacheApp(t.db.apps, t.cache, t.ops, y) { assert CacheApp(s.db.apps, s.cache, s.ops, y); }
    }
  }

  lemma RestKeepsCache(s: State, e: Event)
    requires Inv(s) && Enabled(s, e) && CacheOk(s)
    requires e.EBegin? || e.EAcquire? || e.EExit? || e.EBeginStop? || e.EStopAll? || e.EReboot?
    ensures CacheOk(Next(s, e))
  {
    hide Inv, DbOk;
    var t := Next(s, e);
    if e.EReboot? {
      assert CacheOk(t);
    } else if !t.h.dirty {
      RestDirty(s, e);
      RestCoherent(s, e);
      RestRunning(s, e);
      RestListed(s, e);
      hide Coherent, RunningCached, ListedCached, Next;
    }
  }

  lemma RestDirty(s: State, e: Event)
    requires Enabled(s, e) && (e.EBegin? || e.EAcquire? || e.EExit? || e.EBeginStop? || e.EStopAll?)
    ensures Next(s, e).h.dirty == s.h.dirty
  {
  }

  lemma RestRunning(s: State, e: Event)
    requires Enabled(s, e) && (e.EBegin? || e.EAcquire? || e.EExit? || e.EBeginStop? || e.EStopAll?)
    ensures RunningCached(s.db.machines, s.db.apps, s.cache, s.mode) ==>
              RunningCached(Next(s, e).db.machines, Next(s, e).db.apps, Next(s, e).cache, Next(s, e).mode)
  {
  }

  lemma RestListed(s: State, e: Event)
    requires Enabled(s, e) && (e.EBegin? || e.EAcquire? || e.EExit? || e.EBeginStop? || e.EStopAll?)
    ensures ListedCached(s.tun, s.db.apps, s.cache, s.ops, s.mode) ==>
              ListedCached(Next(s, e).tun, Next(s, e).db.apps, Next(s, e).cache, Next(s, e).ops, Next(s, e).mode)
  {
  }

  lemma RestCoherent(s: State, e: Event)
    requires Enabled(s, e) && Coherent(s) && (e.EBegin? || e.EAcquire? || e.EExit? || e.EBeginStop? || e.EStopAll?)
    ensures Coherent(Next(s, e))
  {
    var t := Next(s, e);
    forall y ensures CacheApp(t.db.apps, t.cache, t.ops, y) { assert CacheApp(s.db.apps, s.cache, s.ops, y); }
  }

  lemma StepKeepsCache(s: State, e: Event)
    requires Inv(s) && HolderOk(s) && Enabled(s, e) && CacheOk(s)
    ensures CacheOk(Next(s, e))
  {
    StepKeeps(s, e);
    hide Inv, HolderOk, CacheOk, OpStep, WatchStep, ReconcileStep, TunnelStep;
    match e
    case EOp(a, c) => OpKeepsCache(s, a, c);
    case EWatch(id, c) => WatchKeepsCache(s, id, c);
    case EReconcile(c) => ReconcileKeepsCache(s, c);
    case ETunnel(c) => HeldAtApply(s); TunnelKeepsCache(s, c);
    case _ => RestKeepsCache(s, e);
  }
}
