// internal/daemon/deploy.go and daemon.go as they run when nothing else does:
// the maps a Deployer updates, over a Store, with the config objects it shares
// on the heap. Protocol treats the same code step by step, interleaved and with
// failing store calls; here the calls into SQLite succeed and what the runtime
// does is a parameter.

module Deployer {
  import opened Common
  import opened AppConfig
  import opened Tables
  import opened ConsolePoll
  import ExitStatus
  import StoreLemmas
  import Stores = Store

  /** A *appconfig.Config: one object, possibly shared between callers. */
  class ConfigBox {
    var config: Config
    constructor (config: Config)
      ensures this.config == config
    {
      this.config := config;
    }
  }

  /** What Runtime.Start, the health check or the release command came to. */
  datatype Boot = StartFailed | Unhealthy(pid: Pid) | Healthy(pid: Pid)

  /** What became of a release machine: it never started, Wait failed, or it
      ended and its console log, polled until time is up, read so (None: unreadable). */
  datatype ReleaseRun = NotStarted | WaitFailed | Ended(polls: seq<Option<string>>)

  /** The exit status oakd makes of it. */
  function ReleaseStatus(run: ReleaseRun): Option<int> {
    match run
    case NotStarted => None
    case WaitFailed => None
    case Ended(polls) => ExitStatus.Polled(polls)
  }

  /** Passing means that oak-init printed 0, wherever the reads of the console log
      fall, exactly if it did or the guest's own output does not say so itself. */
  lemma PrintedStatusDecides(log: Console)
    requires WellFormed(log)
    ensures (forall polls: seq<Option<string>> :: ReadsOf(polls, Log(log)) && ReleaseStatus(Ended(polls)) == Some(0) ==> ExitedZero(log))
            <==> ExitedZero(log) || Honest(log)
  {
    PollIsSafeExactly(log);
    hide WellFormed, ReadsOf, Log, Honest, ExitStatus.Polled;
  }

  lemma OneMore<K, V>(m: map<K, V>, done: set<K>, k: K)
    ensures (m - done) - {k} == m - (done + {k})
  {
  }

  lemma PutAndDrop<K, V>(m: map<K, V>, k: K, v: V)
    requires k !in m
    ensures m[k := v] - {k} == m
  {
  }

  /** A running row added for `app`, the app's other running rows taken away. */
  lemma Booted(db: Db, app: string, id: MachineId, row: Machine)
    requires id !in db.machines && row.app == app && row.state == Running
    ensures var with := db.(machines := db.machines[id := row]);
            var olds := RunningOf(db, app);
            && RunningOf(with, app) - {id} == olds
            && with.machines - olds == (db.machines - olds)[id := row]
            && RunningOf(db.(machines := (db.machines - olds)[id := row]), app) == {id}
  {
  }

  /** The row's release is there and its app's owner has a subnet. */
  predicate Startable(db: Db, row: Machine) {
    row.rel in db.releases && row.app in db.apps && db.apps[row.app].owner in db.subnets
  }

  /** Every index is taken: no new owner gets a subnet. */
  predicate Full(subnets: map<string, nat>) {
    LeastIndexFrom(subnets.Values, 1).None?
  }

  /** The index subnetForApp resolves for an owner. */
  function IndexFor(db: Db, owner: string): Option<nat> {
    match SubnetForOwner(db, owner)
    case None => None
    case Some((_, idx)) => Some(idx)
  }

  /** A machine of the app would get an address: its owner has or can get a subnet
      and the subnet has a host left. */
  predicate Addressable(db: Db, app: string) {
    app in db.apps && IndexFor(db, db.apps[app].owner).Some? && FreeIp(db.machines, IndexFor(db, db.apps[app].owner).value).Some?
  }

  lemma StillAddressable(db: Db, db': Db, app: string)
    requires db'.apps == db.apps && db'.machines == db.machines
    requires app in db.apps ==> IndexFor(db', db.apps[app].owner) == IndexFor(db, db.apps[app].owner)
    ensures Addressable(db', app) <==> Addressable(db, app)
  {
    hide FreeIp, IndexFor;
  }

  /** What Reconcile makes of a running row: started again with a new pid and a
      handle exactly if it can be, else failed. */
  predicate Restarted(was: Machine, row: Machine, handles: map<MachineId, Pid>, starts: map<MachineId, Pid>, db: Db, id: MachineId) {
    if id in starts && Startable(db, was)
    then id in handles && handles[id] == starts[id] && row == was.(pid := starts[id])
    else row == was.(state := Failed, pid := 0)
  }

  /** A row that failed for want of a subnet fails for good: the pool is full. */
  predicate Settled(was: Machine, row: Machine, handles: map<MachineId, Pid>, starts: map<MachineId, Pid>, db: Db, id: MachineId) {
    && Restarted(was, row, handles, starts, db, id)
    && (was.rel in db.releases && was.app in db.apps && db.apps[was.app].owner !in db.subnets ==> Full(db.subnets))
  }

  lemma StaysSettled(was: Machine, row: Machine, h: map<MachineId, Pid>, h': map<MachineId, Pid>,
                     starts: map<MachineId, Pid>, db: Db, db': Db, id: MachineId)
    requires Settled(was, row, h, starts, db, id) && (id in h ==> id in h' && h'[id] == h[id])
    requires db'.apps == db.apps && db'.releases == db.releases
    requires forall o | o in db.subnets :: o in db'.subnets
    requires Full(db.subnets) ==> db'.subnets == db.subnets
    ensures Settled(was, row, h', starts, db', id)
  {
    hide LeastIndexFrom;
  }

  lemma SameReleases(db: Db, db': Db, app: string)
    requires db.releases == db'.releases
    ensures LatestRelease(db, app) == LatestRelease(db', app)
  {
    assert ReleasesOf(db, app) == ReleasesOf(db', app);
  }

  lemma SameMachines(db: Db, db': Db)
    requires db'.machines == db.machines
    ensures forall a :: MachinesOf(db', a) == MachinesOf(db, a)
  {
  }

  /** Swapping an app's running rows for one of its own touches no other app. */
  lemma OnlyThisApp(db: Db, db': Db, app: string, id: MachineId)
    requires id !in db.machines && id in db'.machines && db'.machines[id].app == app
    requires db'.machines == (db.machines - RunningOf(db, app))[id := db'.machines[id]]
    ensures forall a | a != app :: MachinesOf(db', a) == MachinesOf(db, a)
  {
  }

  class Deployer {
    const store: Stores.Store
    var handles: map<MachineId, Pid>
    var appConfigs: map<string, ConfigBox>
    var shuttingDown: bool
    /** Every handle.Stop issued, in order. */
    var stopCalls: seq<MachineId>

    /** Every cached config equals the stored one. */
    ghost predicate Coherent()
      reads this, store, appConfigs.Values
    {
      forall app | app in appConfigs :: app in store.apps && appConfigs[app].config == store.apps[app].config
    }

    ghost predicate Valid()
      reads this, store, appConfigs.Values
    {
      store.Valid() && Coherent()
    }

    constructor (store: Stores.Store)
      requires store.Valid()
      ensures Valid() && this.store == store && handles == map[] && appConfigs == map[] && !shuttingDown && stopCalls == []
    {
      this.store := store;
      handles, appConfigs, shuttingDown, stopCalls := map[], map[], false, [];
    }

    // ----- configurations ------------------------------------------------------

    /** appConfig: the cached object, or a fresh one decoded from the store. */
    method AppConfig(app: string) returns (cfg: ConfigBox?)
      requires Valid()
      modifies this`appConfigs
      ensures Valid()
      ensures cfg == null <==> app !in store.apps
      ensures cfg != null ==> app in appConfigs && appConfigs[app] == cfg && cfg.config == store.apps[app].config
      ensures forall x | x in old(appConfigs) :: x in appConfigs && appConfigs[x] == old(appConfigs)[x]
    {
      if app in appConfigs {
        return appConfigs[app];
      }
      if app !in store.apps {
        return null;
      }
      var box := new ConfigBox(store.apps[app].config);
      appConfigs := appConfigs[app := box];
      return box;
    }

    /** The first half of Deploy. On a failed UpsertApp nothing has changed. */
    method StoreConfig(app: string, cfg: ConfigBox, upsertOk: bool)
      requires Valid()
      modifies this`appConfigs, store
      ensures Valid()
      ensures store.View() == if upsertOk then UpsertApp(old(store.View()), app, cfg.config) else old(store.View())
      ensures appConfigs == if upsertOk then old(appConfigs)[app := cfg] else old(appConfigs)
    {
      if !upsertOk {
        return;
      }
      store.UpsertApp(app, cfg.config);
      appConfigs := appConfigs[app := cfg];
    }

    /** The configuration half of Scale. It works on a copy: no config object that
        existed before is written to, so a failed UpsertApp leaves the cache saying
        what the store says. */
    method ScaleConfig(app: string, memoryMB: nat, cpus: nat, upsertOk: bool) returns (scaled: ConfigBox?)
      requires Valid()
      modifies this`appConfigs, store
      ensures Valid()
      ensures scaled != null <==> app in old(store.apps) && upsertOk
      ensures scaled == null ==> store.View() == old(store.View())
      ensures scaled != null ==>
                && scaled.config == Resized(old(store.apps)[app].config, memoryMB, cpus)
                && Sized(old(store.apps)[app].config, memoryMB, cpus, scaled.config)
                && store.View() == UpsertApp(old(store.View()), app, scaled.config)
                && app in appConfigs && appConfigs[app] == scaled && fresh(scaled)
    {
      hide DbOk;
      var cfg := AppConfig(app);
      if cfg == null {
        return null;
      }
      scaled := ResizedCopy(cfg, memoryMB, cpus);
      StoreConfig(app, scaled, upsertOk);
      if !upsertOk {
        return null;
      }
    }

    method ResizedCopy(cfg: ConfigBox, memoryMB: nat, cpus: nat) returns (copy: ConfigBox)
      ensures fresh(copy) && copy.config == Resized(cfg.config, memoryMB, cpus)
    {
      copy := new ConfigBox(cfg.config);
      if memoryMB != 0 {
        copy.config := copy.config.(memoryMB := memoryMB);
      }
      if cpus != 0 {
        copy.config := copy.config.(cpus := cpus);
      }
    }

    // ----- machines ---------------------------------------------------------------

    /** subnetForApp; None when the app is unknown or the 255 subnets are taken. */
    method SubnetForApp(app: string) returns (idx: Option<nat>)
      requires store.Valid()
      modifies store
      ensures store.Valid()
      ensures store.View() == old(store.View()).(subnets := store.subnets)
      ensures idx.Some? <==> app in store.apps && store.apps[app].owner in store.subnets
      ensures idx.Some? ==> idx.value == store.subnets[store.apps[app].owner] <= SUBNET_MAX
      ensures forall o | o in old(store.subnets) :: o in store.subnets
      ensures Full(old(store.subnets)) ==> store.subnets == old(store.subnets)
      ensures idx.None? && app in store.apps ==> Full(store.subnets)
      ensures app in store.apps ==>
                idx == IndexFor(old(store.View()), store.apps[app].owner) == IndexFor(store.View(), store.apps[app].owner)
    {
      if app !in store.apps {
        return None;
      }
      StoreLemmas.SubnetForOwnerKeeps(store.View(), store.apps[app].owner);
      idx := store.SubnetForOwner(store.apps[app].owner);
    }

    /** stopOldMachines: stop and delete every other running machine of the app. */
    method StopOldMachines(app: string, keep: MachineId)
      requires store.Valid()
      modifies this`handles, this`stopCalls, store
      ensures store.Valid()
      ensures store.View() == old(store.View()).(machines := old(store.machines) - (RunningOf(old(store.View()), app) - {keep}))
      ensures handles == old(handles) - (RunningOf(old(store.View()), app) - {keep})
      ensures |old(stopCalls)| <= |stopCalls| && stopCalls[..|old(stopCalls)|] == old(stopCalls)
      ensures forall m :: m in RunningOf(old(store.View()), app) && m != keep && m in old(handles) <==> m in stopCalls[|old(stopCalls)|..]
    {
      hide DbOk;
      var olds := set id | id in store.machines && store.machines[id].app == app && id != keep && store.machines[id].state == Running;
      assert olds == RunningOf(store.View(), app) - {keep};
      StopAndDeleteAll(olds);
    }

    /** The ends of two boots of one app, both past marking their machine running:
        each runs stopOldMachines, and no machine is left. */
    method OverlappingCutovers(app: string, first: MachineId, second: MachineId)
      requires store.Valid()
      requires first != second && first in RunningOf(store.View(), app) && second in RunningOf(store.View(), app)
      modifies this`handles, this`stopCalls, store
      ensures store.Valid() && RunningOf(store.View(), app) == {}
    {
      StopOldMachines(app, first);
      assert RunningOf(store.View(), app) == {first};
      StopOldMachines(app, second);
    }

    /** The loop stopOldMachines and Destroy share. */
    method StopAndDeleteAll(ids: set<MachineId>)
      requires store.Valid()
      modifies this`handles, this`stopCalls, store
      ensures store.Valid()
      ensures store.View() == old(store.View()).(machines := old(store.machines) - ids)
      ensures handles == old(handles) - ids
      ensures |old(stopCalls)| <= |stopCalls| && stopCalls[..|old(stopCalls)|] == old(stopCalls)
      ensures forall id :: id in ids && id in old(handles) <==> id in stopCalls[|old(stopCalls)|..]
    {
      hide DbOk;
      ghost var db, was, n := store.View(), handles, |stopCalls|;
      var todo := ids;
      ghost var done: set<MachineId> := {};
      while todo != {}
        invariant store.Valid() && done + todo == ids && done !! todo
        invariant store.View() == db.(machines := db.machines - done)
        invariant handles == was - done
        invariant n <= |stopCalls| && stopCalls[..n] == old(stopCalls)
        invariant forall id :: id in done && id in was <==> id in stopCalls[n..]
        decreases |todo|
      {
        var id :| id in todo;
        todo := todo - {id};
        ghost var so := stopCalls;
        StopAndDelete(id);
        assert stopCalls[n..] == so[n..] + if id in was then [id] else [];
        OneMore(db.machines, done, id);
        OneMore(was, done, id);
        done := done + {id};
      }
    }

    /** One round of the loop stopOldMachines and Destroy share: the row goes
        before the handle, so a watcher finds nothing left to do. */
    method StopAndDelete(id: MachineId)
      requires store.Valid()
      modifies this`handles, this`stopCalls, store
      ensures store.Valid()
      ensures store.View() == DeleteMachine(old(store.View()), id)
      ensures handles == old(handles) - {id}
      ensures stopCalls == old(stopCalls) + if id in old(handles) then [id] else []
    {
      if id in handles {
        stopCalls := stopCalls + [id];
      }
      store.DeleteMachine(id);
      handles := handles - {id};
    }

    /** bootFromRelease up to the outcome line. It succeeds exactly if there is an
        address for the machine and it turns healthy. Success leaves exactly the new
        machine running for the app, at the least free address of its subnet; any
        failure leaves every row, address and handle as it was. */
    method BootFromRelease(app: string, rel: nat, id: MachineId, boot: Boot) returns (ok: bool)
      requires store.Valid()
      requires id !in store.machines && id !in handles
      modifies this`handles, this`stopCalls, store
      ensures store.Valid()
      ensures store.View() == old(store.View()).(subnets := store.subnets, machines := store.machines, clock := store.clock)
      ensures ok <==> boot.Healthy? && Addressable(old(store.View()), app)
      ensures !ok ==> store.machines == old(store.machines) && handles == old(handles)
      ensures ok ==> id in store.machines
      ensures ok ==>
                var olds := RunningOf(old(store.View()), app);
                && store.machines == (old(store.machines) - olds)[id := store.machines[id]]
                && handles == (old(handles) - olds)[id := boot.pid]
                && store.machines[id] == Machine(app, rel, store.machines[id].ip, Running, boot.pid, old(store.clock))
                && RunningOf(store.View(), app) == {id}
                && app in store.apps && store.apps[app].owner in store.subnets
                && FreeIp(old(store.machines), store.subnets[store.apps[app].owner]) == Some(store.machines[id].ip)
      ensures |old(stopCalls)| <= |stopCalls| && stopCalls[..|old(stopCalls)|] == old(stopCalls)
      ensures ok ==> forall m :: m in RunningOf(old(store.View()), app) && m in old(handles) <==> m in stopCalls[|old(stopCalls)|..]
      ensures !ok ==> stopCalls == old(stopCalls) || (boot.Unhealthy? && stopCalls == old(stopCalls) + [id])
    {
      hide DbOk, FreeIp;
      ok := false;
      var idx := SubnetForApp(app);
      if idx.None? {
        return;
      }
      ghost var db := store.View();
      var ip := InsertStarting(id, app, rel, idx.value);
      if ip.None? {
        return;
      }
      PutAndDrop(db.machines, id, Machine(app, rel, ip.value, Starting, 0, db.clock));
      if boot.StartFailed? {
        FailBoot(id);
        return;
      }
      PutAndDrop(handles, id, boot.pid);
      handles := handles[id := boot.pid];
      if boot.Unhealthy? {
        stopCalls := stopCalls + [id];
        handles := handles - {id};
        FailBoot(id);
        return;
      }
      var marked := store.SetMachineState(id, Running, boot.pid);
      Booted(db, app, id, store.machines[id]);
      assert store.machines == db.machines[id := store.machines[id]];
      assert handles - RunningOf(db, app) == (old(handles) - RunningOf(db, app))[id := boot.pid];
      assert RunningOf(store.View(), app) == RunningOf(db.(machines := store.machines), app);
      StopOldMachines(app, id);
      ok := true;
      assert RunningOf(store.View(), app) == {id};
    }

    /** AllocAndInsertMachine, and what the new row looks like. */
    method InsertStarting(id: MachineId, app: string, rel: nat, idx: nat) returns (ip: Option<nat>)
      requires store.Valid() && idx <= SUBNET_MAX && id !in store.machines
      modifies store
      ensures store.Valid()
      ensures ip.None? ==> store.View() == old(store.View()) && (app in store.apps ==> FreeIp(store.machines, idx).None?)
      ensures ip.Some? ==>
                && app in store.apps && FreeIp(old(store.machines), idx) == ip
                && store.View() == old(store.View()).(
                     machines := old(store.machines)[id := Machine(app, rel, ip.value, Starting, 0, old(store.clock))],
                     clock := old(store.clock) + 1)
    {
      hide DbOk, FreeIp;
      ip := store.AllocAndInsertMachine(id, app, rel, idx);
    }

    /** SetMachineState 'failed', then DeleteMachine: both errors are ignored. */
    method FailBoot(id: MachineId)
      requires store.Valid()
      modifies store
      ensures store.Valid()
      ensures store.View() == DeleteMachine(old(store.View()), id)
    {
      var failed := store.SetMachineState(id, Failed, 0);
      store.DeleteMachine(id);
    }

    /** runReleaseCommand: passes exactly when its machine got an address and its
        polled console log reports exit status 0, and whatever happens the machine's row
        and address are gone when it returns. */
    method RunReleaseCommand(app: string, rel: nat, id: MachineId, run: ReleaseRun) returns (ok: bool)
      requires store.Valid()
      requires id !in store.machines
      modifies this`stopCalls, store
      ensures store.Valid()
      ensures store.View() == old(store.View()).(subnets := store.subnets, clock := store.clock)
      ensures ok <==> Addressable(old(store.View()), app) && ReleaseStatus(run) == Some(0)
      ensures Addressable(store.View(), app) <==> Addressable(old(store.View()), app)
      ensures stopCalls == old(stopCalls) + if Addressable(old(store.View()), app) && !run.NotStarted? then [id] else []
    {
      hide DbOk, FreeIp;
      ok := false;
      var idx := SubnetForApp(app);
      if idx.None? {
        return;
      }
      ghost var db := store.View();
      var ip := InsertStarting(id, app, rel, idx.value);
      if ip.None? {
        return;
      }
      PutAndDrop(db.machines, id, Machine(app, rel, ip.value, Starting, 0, db.clock));
      if run.Ended? {
        var status := PollStatus(run.polls);
        ok := status == Some(0);
      }
      if !run.NotStarted? {
        stopCalls := stopCalls + [id];
      }
      store.DeleteMachine(id);
    }

    /** The loop that reads the log until it has a status. */
    static method PollStatus(polls: seq<Option<string>>) returns (status: Option<int>)
      ensures status == ExitStatus.Polled(polls)
    {
      status := None;
      var i := 0;
      while i < |polls|
        invariant 0 <= i <= |polls| && status == None && ExitStatus.Polled(polls) == ExitStatus.Polled(polls[i..])
      {
        if polls[i].Some? {
          status := ExitStatus.LastChildExitStatus(polls[i].value);
          if status.Some? {
            return;
          }
        }
        assert polls[i..][1..] == polls[i + 1..];
        i := i + 1;
      }
    }

    /** The part of Deploy after the build. */
    method ReleaseAndBoot(app: string, releaseCommand: string, image: string,
                          relId: MachineId, run: ReleaseRun, id: MachineId, boot: Boot) returns (ok: bool)
      requires store.Valid() && app in store.apps
      requires id !in store.machines && id !in handles && relId !in store.machines
      modifies this`handles, this`stopCalls, store
      ensures store.Valid() && store.apps == old(store.apps)
      ensures ok <==> (releaseCommand != "" ==> ReleaseStatus(run) == Some(0)) && boot.Healthy? && Addressable(old(store.View()), app)
      ensures !ok ==> store.machines == old(store.machines) && handles == old(handles)
      ensures ok ==> RunningOf(store.View(), app) == {id}
      ensures ok ==>
                && LatestRelease(store.View(), app).Some?
                && store.releases[LatestRelease(store.View(), app).value] == Release(app, image)
                && store.machines[id].rel == LatestRelease(store.View(), app).value
      ensures forall a | a != app :: MachinesOf(store.View(), a) == MachinesOf(old(store.View()), a)
    {
      hide DbOk, FreeIp, MaxKey, ReleaseStatus;
      StoreLemmas.InsertReleaseKeeps(store.View(), Release(app, image));
      var rel := store.InsertRelease(Release(app, image));
      ghost var db := store.View();
      if releaseCommand != "" {
        var passed := RunReleaseCommand(app, rel.value, relId, run);
        if !passed {
          return false;
        }
      }
      ok := BootFromRelease(app, rel.value, id, boot);
      SameReleases(store.View(), db, app);
      if ok { OnlyThisApp(old(store.View()), store.View(), app, id); }
    }

    /** Deploy. Unless the release command reported success, no machine of the app
        is booted; unless the boot succeeds, rows, addresses and handles are as
        before; and the release it inserted is the one Restart will use. */
    method Deploy(app: string, cfg: ConfigBox, upsertOk: bool, image: Option<string>,
                  relId: MachineId, run: ReleaseRun, id: MachineId, boot: Boot) returns (ok: bool)
      requires Valid()
      requires id !in store.machines && id !in handles && relId !in store.machines
      modifies this`handles, this`appConfigs, this`stopCalls, store
      ensures Valid()
      ensures ok <==>
                && upsertOk && image.Some? && boot.Healthy?
                && (old(cfg.config).releaseCommand != "" ==> ReleaseStatus(run) == Some(0))
                && Addressable(UpsertApp(old(store.View()), app, old(cfg.config)), app)
      ensures !ok ==> store.machines == old(store.machines) && handles == old(handles)
      ensures ok ==> RunningOf(store.View(), app) == {id}
      ensures ok ==>
                && LatestRelease(store.View(), app).Some?
                && store.releases[LatestRelease(store.View(), app).value] == Release(app, image.value)
                && store.machines[id].rel == LatestRelease(store.View(), app).value
      ensures forall a | a != app :: MachinesOf(store.View(), a) == MachinesOf(old(store.View()), a)
      ensures upsertOk ==> app in store.apps && store.apps[app].config == old(cfg.config)
      ensures !upsertOk ==> store.View() == old(store.View()) && appConfigs == old(appConfigs)
    {
      hide DbOk, LatestRelease, RunningOf, ReleaseStatus;
      ok := false;
      StoreConfig(app, cfg, upsertOk);
      if !upsertOk || image.None? {
        return;
      }
      SameMachines(old(store.View()), store.View());
      ok := ReleaseAndBoot(app, cfg.config.releaseCommand, image.value, relId, run, id, boot);
    }

    /** Restart: the latest release again, with nothing rebuilt and nothing stored. */
    method Restart(app: string, id: MachineId, boot: Boot) returns (ok: bool)
      requires Valid()
      requires id !in store.machines && id !in handles
      modifies this`handles, this`appConfigs, this`stopCalls, store
      ensures Valid() && store.apps == old(store.apps) && store.releases == old(store.releases)
      ensures ok <==> LatestRelease(old(store.View()), app).Some? && boot.Healthy? && Addressable(old(store.View()), app)
      ensures !ok ==> store.machines == old(store.machines) && handles == old(handles)
      ensures ok ==>
                && RunningOf(store.View(), app) == {id}
                && LatestRelease(old(store.View()), app) == Some(store.machines[id].rel)
    {
      hide DbOk;
      var cfg := AppConfig(app);
      if cfg == null {
        return false;
      }
      ok := Reboot(app, id, boot);
    }

    /** Scale: the resized configuration is stored even if the reboot then fails. */
    method Scale(app: string, memoryMB: nat, cpus: nat, upsertOk: bool, id: MachineId, boot: Boot) returns (ok: bool)
      requires Valid()
      requires id !in store.machines && id !in handles
      modifies this`handles, this`appConfigs, this`stopCalls, store
      ensures Valid()
      ensures app in old(store.apps) && upsertOk ==> app in store.apps && Sized(old(store.apps)[app].config, memoryMB, cpus, store.apps[app].config)
      ensures !(app in old(store.apps) && upsertOk) ==> store.apps == old(store.apps)
      ensures ok <==>
                upsertOk && LatestRelease(old(store.View()), app).Some? && boot.Healthy? && Addressable(old(store.View()), app)
      ensures !ok ==> store.machines == old(store.machines) && handles == old(handles)
      ensures ok ==>
                && RunningOf(store.View(), app) == {id}
                && LatestRelease(old(store.View()), app) == Some(store.machines[id].rel)
    {
      hide DbOk;
      var scaled := ScaleConfig(app, memoryMB, cpus, upsertOk);
      if scaled == null {
        return false;
      }
      SameReleases(store.View(), old(store.View()), app);
      ok := Reboot(app, id, boot);
    }

    /** LatestRelease and bootFromRelease, as Restart and Scale both end. */
    method Reboot(app: string, id: MachineId, boot: Boot) returns (ok: bool)
      requires store.Valid()
      requires id !in store.machines && id !in handles
      modifies this`handles, this`stopCalls, store
      ensures store.Valid() && store.apps == old(store.apps) && store.releases == old(store.releases)
      ensures ok <==> LatestRelease(old(store.View()), app).Some? && boot.Healthy? && Addressable(old(store.View()), app)
      ensures !ok ==> store.machines == old(store.machines) && handles == old(handles)
      ensures ok ==>
                && id in store.machines && RunningOf(store.View(), app) == {id}
                && LatestRelease(old(store.View()), app) == Some(store.machines[id].rel)
    {
      hide DbOk;
      var rel := store.LatestRelease(app);
      if rel.None? {
        return false;
      }
      ok := BootFromRelease(app, rel.value, id, boot);
    }

    /** Destroy's deletes. They come in an order in which no foreign key objects;
        afterwards no row of the app is left and no other app's row has changed. */
    method DestroyRows(app: string) returns (ok: bool)
      requires Valid()
      modifies this`handles, this`appConfigs, this`stopCalls, store
      ensures Valid() && ok
      ensures app !in store.apps && MachinesOf(store.View(), app) == {} && ReleasesOf(store.View(), app) == {}
      ensures app !in appConfigs
      ensures store.apps == old(store.apps) - {app} && appConfigs == old(appConfigs) - {app}
      ensures store.machines == old(store.machines) - MachinesOf(old(store.View()), app)
      ensures store.releases == old(store.releases) - ReleasesOf(old(store.View()), app)
      ensures store.subnets == old(store.subnets) && handles == old(handles) - MachinesOf(old(store.View()), app)
    {
      hide DbOk;
      var machines := set id | id in store.machines && store.machines[id].app == app;
      assert machines == MachinesOf(store.View(), app);
      StopAndDeleteAll(machines);
      assert MachinesOf(store.View(), app) == {};
      store.DeleteReleasesForApp(app);
      assert ReleasesOf(store.View(), app) == {};
      ok := store.DeleteApp(app);
      appConfigs := appConfigs - {app};
    }

    // ----- exits and restarts ---------------------------------------------------------

    /** watchMachine once Wait has returned: the row goes only if it is still this
        watcher's, and not at all during shutdown. */
    method Reap(id: MachineId, pid: Pid) returns (reaped: bool)
      requires Valid()
      modifies this`handles, store
      ensures Valid()
      ensures reaped <==> !shuttingDown && id in old(store.machines)
                          && old(store.machines)[id].state == Running && old(store.machines)[id].pid == pid
      ensures store.View() == if reaped then DeleteMachine(old(store.View()), id) else old(store.View())
      ensures handles == if reaped then old(handles) - {id} else old(handles)
    {
      hide DbOk;
      if shuttingDown {
        return false;
      }
      if id !in store.machines || store.machines[id].state != Running || store.machines[id].pid != pid {
        return false;
      }
      var stopped := store.SetMachineState(id, Stopped, 0);
      handles := handles - {id};
      store.DeleteMachine(id);
      return true;
    }

    /** StopAll: the flag first, then every handle stopped once; no row is touched. */
    method StopAll()
      requires Valid()
      modifies this`handles, this`shuttingDown, this`stopCalls
      ensures Valid() && shuttingDown && handles == map[]
      ensures |stopCalls| == |old(stopCalls)| + |old(handles).Keys| && stopCalls[..|old(stopCalls)|] == old(stopCalls)
      ensures forall id :: id in old(handles) <==> id in stopCalls[|old(stopCalls)|..]
    {
      shuttingDown := true;
      ghost var order := StopHandles();
      assert stopCalls[|old(stopCalls)|..] == order;
    }

    method StopHandles() returns (ghost order: seq<MachineId>)
      modifies this`handles, this`stopCalls
      ensures handles == map[] && stopCalls == old(stopCalls) + order
      ensures |order| == |old(handles).Keys| && forall id :: id in old(handles) <==> id in order
    {
      ghost var all := handles.Keys;
      var todo := handles.Keys;
      order := [];
      while todo != {}
        invariant todo == handles.Keys && todo <= all
        invariant stopCalls == old(stopCalls) + order && |order| + |todo| == |all|
        invariant forall id :: id in order <==> id in all && id !in todo
        decreases |todo|
      {
        var id :| id in todo;
        todo := todo - {id};
        stopCalls := stopCalls + [id];
        order := order + [id];
        handles := handles - {id};
      }
    }

    /** Reconcile over the rows RunningMachines listed: `starts` says which of them
        start, and with what pid. A row keeps id, release and address and gets a
        handle exactly if it starts, its release is there and its app's owner has,
        or could still get, a subnet; otherwise it reads 'failed'. No other row changes. */
    method Reconcile(starts: map<MachineId, Pid>)
      requires Valid()
      modifies this`handles, this`appConfigs, store
      ensures Valid()
      ensures store.apps == old(store.apps) && store.releases == old(store.releases)
      ensures store.machines.Keys == old(store.machines).Keys
      ensures forall id | id in store.machines ::
                if old(store.machines)[id].state == Running
                then Restarted(old(store.machines)[id], store.machines[id], handles, starts, store.View(), id)
                else store.machines[id] == old(store.machines)[id]
      ensures forall id | id in old(store.machines) && old(store.machines)[id].state == Running && id in starts
                          && old(store.machines)[id].rel in store.releases
                          && store.apps[old(store.machines)[id].app].owner !in store.subnets :: Full(store.subnets)
      ensures forall id | id !in old(store.machines) || old(store.machines)[id].state != Running ::
                id in handles <==> id in old(handles)
    {
      hide DbOk, Restarted, Settled, Full;
      var todo := set id | id in store.machines && store.machines[id].state == Running;
      ghost var all, rows, was := todo, store.machines, handles;
      StoreLemmas.AppsOfMachines(store.View());
      while todo != {}
        invariant Valid() && todo <= all
        invariant store.apps == old(store.apps) && store.releases == old(store.releases)
        invariant store.machines.Keys == rows.Keys
        invariant forall id | id in rows && (id in todo || id !in all) :: store.machines[id] == rows[id]
        invariant forall id | id in all && id !in todo :: Settled(rows[id], store.machines[id], handles, starts, store.View(), id)
        invariant forall id | id !in all :: id in handles <==> id in was
        decreases |todo|
      {
        var id :| id in todo;
        ghost var before, db := handles, store.View();
        ReconcileNext(id, starts);
        forall j | j in all && j !in todo ensures Settled(rows[j], store.machines[j], handles, starts, store.View(), j) {
          StaysSettled(rows[j], store.machines[j], before, handles, starts, db, store.View(), j);
        }
        todo := todo - {id};
      }
      AllSettled(rows, store.machines, all, handles, starts, store.View());
    }

    /** One round of the loop. */
    method ReconcileNext(id: MachineId, starts: map<MachineId, Pid>)
      requires Valid() && id in store.machines && store.machines[id].state == Running
      modifies this`handles, this`appConfigs, store
      ensures Valid()
      ensures store.apps == old(store.apps) && store.releases == old(store.releases)
      ensures store.machines.Keys == old(store.machines).Keys
      ensures forall m | m in store.machines && m != id :: store.machines[m] == old(store.machines)[m]
      ensures Settled(old(store.machines)[id], store.machines[id], handles, starts, store.View(), id)
      ensures forall m | m != id :: (m in handles <==> m in old(handles)) && (m in handles ==> handles[m] == old(handles)[m])
      ensures forall o | o in old(store.subnets) :: o in store.subnets
      ensures Full(old(store.subnets)) ==> store.subnets == old(store.subnets)
    {
      hide DbOk, Full;
      var ok := ReconcileOne(id, if id in starts then Some(starts[id]) else None);
      if !ok {
        var failed := store.SetMachineState(id, Failed, 0);
      }
    }

    /** reconcileOne: it succeeds exactly if the machine starts, its release is
        there and its app's owner has or can get a subnet; the row keeps its id,
        release and address. */
    method ReconcileOne(id: MachineId, start: Option<Pid>) returns (ok: bool)
      requires Valid() && id in store.machines && store.machines[id].state == Running
      modifies this`handles, this`appConfigs, store
      ensures Valid()
      ensures store.apps == old(store.apps) && store.releases == old(store.releases)
      ensures ok <==> start.Some? && Startable(store.View(), old(store.machines)[id])
      ensures store.machines == if ok then old(store.machines)[id := old(store.machines)[id].(pid := start.value)] else old(store.machines)
      ensures handles == if ok then old(handles)[id := start.value] else old(handles)
      ensures forall o | o in old(store.subnets) :: o in store.subnets
      ensures Full(old(store.subnets)) ==> store.subnets == old(store.subnets)
      ensures var row := old(store.machines)[id];
              row.rel in store.releases && row.app in store.apps && store.apps[row.app].owner !in store.subnets ==> Full(store.subnets)
    {
      hide DbOk;
      ghost var row := store.machines[id];
      var cfg := AppConfig(store.machines[id].app);
      assert row.app in store.apps by { StoreLemmas.AppsOfMachines(store.View()); }
      if cfg == null {
        return false;
      }
      if store.machines[id].rel !in store.releases {
        return false;
      }
      var idx := SubnetForApp(store.machines[id].app);
      if idx.None? || start.None? {
        return false;
      }
      handles := handles[id := start.value];
      var marked := store.SetMachineState(id, Running, start.value);
      return true;
    }
  }

  lemma AllSettled(rows: Rows, rows': Rows, all: set<MachineId>, handles: map<MachineId, Pid>, starts: map<MachineId, Pid>, db: Db)
    requires rows'.Keys == rows.Keys && all <= rows.Keys
    requires forall id | id in all :: Settled(rows[id], rows'[id], handles, starts, db, id)
    ensures forall id | id in all :: Restarted(rows[id], rows'[id], handles, starts, db, id)
    ensures forall id | id in all && rows[id].rel in db.releases && rows[id].app in db.apps && db.apps[rows[id].app].owner !in db.subnets :: Full(db.subnets)
  {
    hide Restarted, LeastIndexFrom;
  }
}
