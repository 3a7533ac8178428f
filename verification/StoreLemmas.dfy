// Address and subnet allocation, and what every run of store calls keeps.

module StoreLemmas {
  import opened Common
  import opened AppConfig
  import opened Tables

  // ----- allocation is least-free, and complete ---------------------------

  lemma {:induction false} LeastFreeIsLeast(used: set<nat>, base: nat, host: nat)
    requires host <= LAST_HOST + 1
    ensures match LeastFreeFrom(used, base, host)
            case Some(ip) =>
              base + host <= ip <= base + LAST_HOST && ip !in used && forall h | base + host <= h < ip :: h in used
            case None => forall h | base + host <= h <= base + LAST_HOST :: h in used
    decreases LAST_HOST + 1 - host
  {
    if host <= LAST_HOST && base + host in used {
      LeastFreeIsLeast(used, base, host + 1);
    }
  }

  predicate Taken(machines: map<MachineId, Machine>, ip: nat) {
    exists id :: id in machines && machines[id].ip == ip
  }

  /** allocIP: the smallest free host of the /24, failing exactly when .2-.254 are all taken. */
  lemma FreeIpSpec(machines: map<MachineId, Machine>, idx: nat)
    ensures match FreeIp(machines, idx)
            case Some(ip) =>
              && SubnetBase(idx) + FIRST_HOST <= ip <= SubnetBase(idx) + LAST_HOST
              && !Taken(machines, ip)
              && forall h | SubnetBase(idx) + FIRST_HOST <= h < ip :: Taken(machines, h)
            case None =>
              forall h | SubnetBase(idx) + FIRST_HOST <= h <= SubnetBase(idx) + LAST_HOST :: Taken(machines, h)
  {
    LeastFreeIsLeast(UsedIps(machines), SubnetBase(idx), FIRST_HOST);
    assert forall h: nat :: h in UsedIps(machines) <==> Taken(machines, h);
  }

  lemma IndexOfHost(idx: nat, ip: nat)
    requires idx <= SUBNET_MAX
    requires SubnetBase(idx) + FIRST_HOST <= ip <= SubnetBase(idx) + LAST_HOST
    ensures IndexOf(ip) == idx
    ensures HostRange(ip, IndexOf(ip))
  {
    assert ip / 256 == (10 * 256 + 200) * 256 + idx;
  }

  lemma {:induction false} LeastFreeDependsOnRange(u: set<nat>, v: set<nat>, base: nat, host: nat)
    requires forall h | base + host <= h <= base + LAST_HOST :: h in u <==> h in v
    ensures LeastFreeFrom(u, base, host) == LeastFreeFrom(v, base, host)
    decreases LAST_HOST + 1 - host
  {
    if host <= LAST_HOST && base + host in u {
      LeastFreeDependsOnRange(u, v, base, host + 1);
    }
  }

  /** Each tenant's address pool is independent: two tables with the same rows
      in subnet `idx` allocate the same address there. */
  lemma AllocationIsPerSubnet(m: map<MachineId, Machine>, n: map<MachineId, Machine>, idx: nat)
    requires idx <= SUBNET_MAX
    requires forall id :: (id in m && IndexOf(m[id].ip) == idx) <==> (id in n && IndexOf(n[id].ip) == idx)
    requires forall id | id in m && IndexOf(m[id].ip) == idx :: m[id].ip == n[id].ip
    ensures FreeIp(m, idx) == FreeIp(n, idx)
  {
    var base := SubnetBase(idx);
    forall h | base + FIRST_HOST <= h <= base + LAST_HOST
      ensures h in UsedIps(m) <==> h in UsedIps(n)
    {
      IndexOfHost(idx, h);
      if h in UsedIps(m) {
        var id :| id in m && m[id].ip == h;
        assert n[id].ip in UsedIps(n);
      }
      if h in UsedIps(n) {
        var id :| id in n && n[id].ip == h;
        assert m[id].ip in UsedIps(m);
      }
    }
    LeastFreeDependsOnRange(UsedIps(m), UsedIps(n), base, FIRST_HOST);
  }

  lemma {:induction false} LeastIndexIsLeast(used: set<nat>, idx: nat)
    requires idx <= SUBNET_MAX + 1
    ensures match LeastIndexFrom(used, idx)
            case Some(i) => idx <= i <= SUBNET_MAX && i !in used && forall j | idx <= j < i :: j in used
            case None => forall j | idx <= j <= SUBNET_MAX :: j in used
    decreases SUBNET_MAX + 1 - idx
  {
    if idx <= SUBNET_MAX && idx in used {
      LeastIndexIsLeast(used, idx + 1);
    }
  }

  // ----- every statement keeps the table invariants ------------------------

  lemma SubnetForOwnerKeeps(db: Db, owner: string)
    requires DbOk(db)
    ensures match SubnetForOwner(db, owner)
            case None => owner !in db.subnets && forall j | 1 <= j <= SUBNET_MAX :: j in db.subnets.Values
            case Some((db', idx)) =>
              && DbOk(db')
              && db' == db.(subnets := db'.subnets)
              && owner in db'.subnets && db'.subnets[owner] == idx <= SUBNET_MAX
              && (forall o | o in db.subnets :: o in db'.subnets && db'.subnets[o] == db.subnets[o])
              && OwnerForSubnet(db', idx) == Some(owner)
              && (idx == 0 <==> owner == "")
  {
    LeastIndexIsLeast(db.subnets.Values, 1);
    match SubnetForOwner(db, owner)
    case None =>
    case Some((db', idx)) =>
      if owner !in db.subnets {
        forall o | o in db.subnets ensures db.subnets[o] != idx {
          assert db.subnets[o] in db.subnets.Values;
        }
      }
      assert SubnetsOk(db');
  }

  lemma AllocAndInsertKeeps(db: Db, id: MachineId, app: string, rel: nat, idx: nat)
    requires DbOk(db) && idx <= SUBNET_MAX
    ensures match AllocAndInsertMachine(db, id, app, rel, idx)
            case None =>
              || id in db.machines || app !in db.apps
              || forall h | SubnetBase(idx) + FIRST_HOST <= h <= SubnetBase(idx) + LAST_HOST :: h in UsedIps(db.machines)
            case Some((db', ip)) =>
              && DbOk(db')
              && id !in db.machines && db'.machines.Keys == db.machines.Keys + {id}
              && (forall j | j in db.machines :: db'.machines[j] == db.machines[j])
              && db'.machines[id].ip == ip && IndexOf(ip) == idx
              && (forall j | j in db.machines :: db.machines[j].ip != ip)
              && db'.apps == db.apps && db'.subnets == db.subnets && db'.releases == db.releases
  {
    FreeIpSpec(db.machines, idx);
    LeastFreeIsLeast(UsedIps(db.machines), SubnetBase(idx), FIRST_HOST);
    match AllocAndInsertMachine(db, id, app, rel, idx)
    case None =>
    case Some((_, ip)) => IndexOfHost(idx, ip);
  }

  lemma AppsOfMachines(db: Db)
    requires DbOk(db)
    ensures forall id | id in db.machines :: db.machines[id].app in db.apps
  {
  }

  lemma DeleteMachineKeeps(db: Db, id: MachineId)
    requires DbOk(db)
    ensures DbOk(DeleteMachine(db, id))
  {
  }

  lemma SetMachineStateKeeps(db: Db, id: MachineId, state: MState, pid: Pid)
    requires DbOk(db)
    ensures match SetMachineState(db, id, state, pid)
            case None => id !in db.machines
            case Some(db') =>
              && DbOk(db') && db'.machines.Keys == db.machines.Keys
              && (forall j | j in db.machines && j != id :: db'.machines[j] == db.machines[j])
              && db'.machines[id] == db.machines[id].(state := state, pid := pid)
  {
  }

  lemma UpsertAppKeeps(db: Db, name: string, config: Config)
    requires DbOk(db)
    ensures DbOk(UpsertApp(db, name, config))
  {
  }

  lemma DeleteAppKeeps(db: Db, app: string)
    requires DbOk(db)
    ensures match DeleteApp(db, app)
            case None => app in db.apps && (ReleasesOf(db, app) != {} || MachinesOf(db, app) != {})
            case Some(db') => DbOk(db') && app !in db'.apps
  {
    match DeleteApp(db, app)
    case None =>
    case Some(db') =>
      forall id | id in db.machines ensures db.machines[id].app != app {
        assert id !in MachinesOf(db, app);
      }
      forall r | r in db.releases ensures db.releases[r].app != app {
        assert r !in ReleasesOf(db, app);
      }
  }

  lemma InsertReleaseKeeps(db: Db, rel: Release)
    requires DbOk(db)
    ensures match InsertRelease(db, rel)
            case None => rel.app !in db.apps
            case Some((db', id)) =>
              && DbOk(db') && id !in db.releases && LatestRelease(db', rel.app) == Some(id)
              && (forall a | a != rel.app :: LatestRelease(db', a) == LatestRelease(db, a))
  {
    match InsertRelease(db, rel)
    case None =>
    case Some((db', id)) =>
      assert id in ReleasesOf(db', rel.app);
      assert forall r | r in ReleasesOf(db', rel.app) :: r <= id;
      forall a | a != rel.app ensures LatestRelease(db', a) == LatestRelease(db, a) {
        assert ReleasesOf(db', a) == ReleasesOf(db, a);
      }
  }

  lemma DeleteReleasesKeeps(db: Db, app: string)
    requires DbOk(db)
    ensures DbOk(DeleteReleasesForApp(db, app))
    ensures LatestRelease(DeleteReleasesForApp(db, app), app) == None
    ensures forall a | a != app :: LatestRelease(DeleteReleasesForApp(db, app), a) == LatestRelease(db, a)
  {
    var db' := DeleteReleasesForApp(db, app);
    assert ReleasesOf(db', app) == {};
    forall a | a != app ensures LatestRelease(db', a) == LatestRelease(db, a) {
      assert ReleasesOf(db', a) == ReleasesOf(db, a);
    }
  }

  // ----- all runs -----------------------------------------------------------

  /** One call on the store that writes. Failed calls leave the tables alone. */
  datatype Call =
    | CUpsertApp(name: string, config: Config)
    | CSetAppOwner(name: string, owner: string)
    | CInsertRelease(release: Release)
    | CSubnetForOwner(owner: string)
    | CAllocAndInsert(id: MachineId, app: string, rel: nat, idx: nat)
    | CSetState(id: MachineId, state: MState, pid: Pid)
    | CDeleteMachine(id: MachineId)
    | CDeleteReleases(app: string)
    | CDeleteApp(app: string)

  function Apply(db: Db, c: Call): Db {
    match c
    case CUpsertApp(name, config) => UpsertApp(db, name, config)
    case CSetAppOwner(name, owner) => SetAppOwner(db, name, owner)
    case CInsertRelease(r) => (match InsertRelease(db, r) case Some(p) => p.0 case None => db)
    case CSubnetForOwner(o) => (match SubnetForOwner(db, o) case Some(p) => p.0 case None => db)
    case CAllocAndInsert(id, app, rel, idx) =>
      (match AllocAndInsertMachine(db, id, app, rel, idx) case Some(p) => p.0 case None => db)
    case CSetState(id, st, pid) => (match SetMachineState(db, id, st, pid) case Some(d) => d case None => db)
    case CDeleteMachine(id) => DeleteMachine(db, id)
    case CDeleteReleases(app) => DeleteReleasesForApp(db, app)
    case CDeleteApp(app) => (match DeleteApp(db, app) case Some(d) => d case None => db)
  }

  /** Callers only pass indexes SubnetForOwner returned, which fit an octet. */
  predicate CallOk(c: Call) {
    c.CAllocAndInsert? ==> c.idx <= SUBNET_MAX
  }

  /** A run, most recent call last. */
  function Run(db: Db, calls: seq<Call>): Db {
    if calls == [] then db else Apply(Run(db, calls[..|calls| - 1]), calls[|calls| - 1])
  }

  lemma ApplyKeeps(db: Db, c: Call)
    requires DbOk(db) && CallOk(c)
    ensures DbOk(Apply(db, c))
    ensures forall o | o in db.subnets :: o in Apply(db, c).subnets && Apply(db, c).subnets[o] == db.subnets[o]
  {
    match c
    case CUpsertApp(name, config) => UpsertAppKeeps(db, name, config);
    case CSetAppOwner(name, owner) =>
    case CInsertRelease(r) => InsertReleaseKeeps(db, r);
    case CSubnetForOwner(o) => SubnetForOwnerKeeps(db, o);
    case CAllocAndInsert(id, app, rel, idx) => AllocAndInsertKeeps(db, id, app, rel, idx);
    case CSetState(id, st, pid) => SetMachineStateKeeps(db, id, st, pid);
    case CDeleteMachine(id) => DeleteMachineKeeps(db, id);
    case CDeleteReleases(app) => DeleteReleasesKeeps(db, app);
    case CDeleteApp(app) => DeleteAppKeeps(db, app);
  }

  /** Over every reachable store state: addresses are distinct and in their
      tenant's 10.200.i.2-254, owner-to-index is injective with "" at 0, no row
      dangles, and an index once given to an owner stays that owner's. */
  lemma {:induction false} EveryRunIsSound(calls: seq<Call>)
    requires forall c | c in calls :: CallOk(c)
    ensures DbOk(Run(EMPTY_DB, calls))
    ensures forall n, o | 0 <= n <= |calls| && o in Run(EMPTY_DB, calls[..n]).subnets ::
              && o in Run(EMPTY_DB, calls).subnets
              && Run(EMPTY_DB, calls).subnets[o] == Run(EMPTY_DB, calls[..n]).subnets[o]
              && OwnerForSubnet(Run(EMPTY_DB, calls), Run(EMPTY_DB, calls[..n]).subnets[o]) == Some(o)
  {
    if calls == [] {
    } else {
      var front, last := calls[..|calls| - 1], calls[|calls| - 1];
      EveryRunIsSound(front);
      ApplyKeeps(Run(EMPTY_DB, front), last);
      forall n, o | 0 <= n <= |calls| && o in Run(EMPTY_DB, calls[..n]).subnets
        ensures o in Run(EMPTY_DB, calls).subnets
        ensures Run(EMPTY_DB, calls).subnets[o] == Run(EMPTY_DB, calls[..n]).subnets[o]
      {
        if n < |calls| {
          assert front[..n] == calls[..n];
        } else {
          assert calls[..n] == calls;
        }
      }
    }
  }

  /** The release inserted for `app` by the most recent successful insert since
      its releases were last deleted, named by the id that insert returned. */
  function LastInserted(calls: seq<Call>, app: string): Option<nat> {
    if calls == [] then None
    else
      var front, last := calls[..|calls| - 1], calls[|calls| - 1];
      if last.CDeleteReleases? && last.app == app then None
      else if last.CInsertRelease? && last.release.app == app then
        match InsertRelease(Run(EMPTY_DB, front), last.release)
        case Some(p) => Some(p.1)
        case None => LastInserted(front, app)
      else LastInserted(front, app)
  }

  lemma OtherCallKeepsReleases(db: Db, c: Call, app: string)
    requires !c.CInsertRelease? && !c.CDeleteReleases?
    ensures LatestRelease(Apply(db, c), app) == LatestRelease(db, app)
  {
    hide FreeIp, LeastIndexFrom, MaxKey;
    assert Apply(db, c).releases == db.releases;
    hide Apply;
    assert ReleasesOf(Apply(db, c), app) == ReleasesOf(db, app);
  }

  /** LatestRelease picks by largest id; in every run that is the app's newest
      release, although ids are reused after an app's releases are deleted. */
  lemma {:induction false} LatestIsNewest(calls: seq<Call>, app: string)
    requires forall c | c in calls :: CallOk(c)
    ensures LatestRelease(Run(EMPTY_DB, calls), app) == LastInserted(calls, app)
  {
    if calls == [] {
    } else {
      var front, last := calls[..|calls| - 1], calls[|calls| - 1];
      LatestIsNewest(front, app);
      EveryRunIsSound(front);
      var db := Run(EMPTY_DB, front);
      hide DbOk, Apply, LatestRelease, MaxKey, SubnetForOwner, OwnerForSubnet;
      assert Run(EMPTY_DB, calls) == Apply(db, last);
      match last
      case CInsertRelease(r) => InsertReleaseKeeps(db, r);
      case CDeleteReleases(a) => DeleteReleasesKeeps(db, a);
      case _ => OtherCallKeepsReleases(db, last, app);
    }
  }

  /** The ids that inserts have returned. */
  function Issued(calls: seq<Call>): set<nat> {
    if calls == [] then {}
    else
      var front, last := calls[..|calls| - 1], calls[|calls| - 1];
      Issued(front) + (if last.CInsertRelease? then
                         match InsertRelease(Run(EMPTY_DB, front), last.release)
                         case Some(p) => {p.1}
                         case None => {}
                       else {})
  }

  lemma CallKeepsReleases(db: Db, c: Call)
    requires !c.CInsertRelease?
    ensures Apply(db, c).releases.Keys <= db.releases.Keys
  {
    hide FreeIp, LeastIndexFrom, MaxKey;
  }

  /** They are 1 up to the largest, with none left out, and every release is under one. */
  lemma {:induction false} IssuedInOrder(calls: seq<Call>)
    ensures Run(EMPTY_DB, calls).releases.Keys <= Issued(calls)
    ensures forall i: nat :: i in Issued(calls) <==> 1 <= i <= MaxKey(Issued(calls))
  {
    if calls == [] {
      assert EMPTY_DB.releases.Keys == {};
    } else {
      var front, last := calls[..|calls| - 1], calls[|calls| - 1];
      IssuedInOrder(front);
      var db := Run(EMPTY_DB, front);
      assert Run(EMPTY_DB, calls) == Apply(db, last);
      if !last.CInsertRelease? {
        CallKeepsReleases(db, last);
      } else if InsertRelease(db, last.release).Some? {
        var id := NextReleaseId(db.releases);
        InOrderStep(Issued(front), db.releases.Keys, id);
        assert Issued(calls) == Issued(front) + {id};
      }
    }
  }

  lemma InOrderStep(issued: set<nat>, keys: set<nat>, id: nat)
    requires keys <= issued && (forall i: nat :: i in issued <==> 1 <= i <= MaxKey(issued)) && id == MaxKey(keys) + 1
    ensures forall i: nat :: i in issued + {id} <==> 1 <= i <= MaxKey(issued + {id})
    ensures id in issued <==> issued != {} && MaxKey(issued) !in keys
  {
    assert MaxKey(keys) <= MaxKey(issued);
    var all := issued + {id};
    assert MaxKey(all) in all && MaxKey(issued) <= MaxKey(all) && id <= MaxKey(all);
    assert MaxKey(keys) < MaxKey(issued) || MaxKey(keys) == MaxKey(issued);
  }

  /** An insert returns an id issued before exactly when the largest id ever issued
      is no longer there. */
  lemma ReleaseIdsAreReused(calls: seq<Call>, rel: Release)
    requires InsertRelease(Run(EMPTY_DB, calls), rel).Some?
    ensures InsertRelease(Run(EMPTY_DB, calls), rel).value.1 in Issued(calls)
            <==> Issued(calls) != {} && MaxKey(Issued(calls)) !in Run(EMPTY_DB, calls).releases
  {
    IssuedInOrder(calls);
    var db := Run(EMPTY_DB, calls);
    InOrderStep(Issued(calls), db.releases.Keys, NextReleaseId(db.releases));
  }

  /** As after deleting the only app's releases: the next id is 1 again. */
  lemma FirstIdComesRound(config: Config)
    ensures var ins := CInsertRelease(Release("a", "x"));
            var calls := [CUpsertApp("a", config), ins, CDeleteReleases("a"), ins];
            && LastInserted(calls[..2], "a") == Some(1)
            && LastInserted(calls, "a") == Some(1)
  {
    var ins := CInsertRelease(Release("a", "x"));
    var calls := [CUpsertApp("a", config), ins, CDeleteReleases("a"), ins];
    var db1 := UpsertApp(EMPTY_DB, "a", config);
    assert calls[..1] == [CUpsertApp("a", config)] && calls[..1][..0] == [];
    assert Run(EMPTY_DB, calls[..1]) == db1;
    assert calls[..2][..1] == calls[..1];
    var db2 := Run(EMPTY_DB, calls[..2]);
    assert db2 == Apply(db1, ins);
    assert calls[..3][..2] == calls[..2];
    var db3 := Run(EMPTY_DB, calls[..3]);
    assert db3 == DeleteReleasesForApp(db2, "a");
    assert db2.releases.Keys == {1};
    assert ReleasesOf(db2, "a") == {1};
    assert db3.releases == map[];
    assert InsertRelease(db3, ins.release).Some?;
  }

  /** The owner is recorded only after the first boot, so an app's first machine
      takes an address in the admin subnet, and keeps it although from then on
      the app's subnet, whose gateway it is given on a restart, is another. */
  lemma FirstMachineIsInAdminSubnet(db: Db, name: string, config: Config, rel: nat, id: MachineId, owner: string)
    requires DbOk(db) && name !in db.apps && id !in db.machines && owner != ""
    requires FreeIp(db.machines, 0).Some?
    ensures var db1 := UpsertApp(db, name, config);
            && SubnetForOwner(db1, db1.apps[name].owner) == Some((db1, 0))
            && var db2 := AllocAndInsertMachine(db1, id, name, rel, 0);
               && db2.Some?
               && var db3 := SetAppOwner(db2.value.0, name, owner);
                  && IndexOf(db3.machines[id].ip) == 0
                  && (SubnetForOwner(db3, db3.apps[name].owner).Some? ==> SubnetForOwner(db3, db3.apps[name].owner).value.1 != 0)
  {
    UpsertAppKeeps(db, name, config);
    var db1 := UpsertApp(db, name, config);
    AllocAndInsertKeeps(db1, id, name, rel, 0);
    var db3 := SetAppOwner(AllocAndInsertMachine(db1, id, name, rel, 0).value.0, name, owner);
    assert DbOk(db3);
    SubnetForOwnerKeeps(db3, owner);
  }
}
