// internal/store as an object over its tables. Each method is one statement or
// one transaction; what it does is said with the table functions, whose
// properties StoreLemmas proves.

module Store {
  import opened Common
  import opened AppConfig
  import opened Tables
  import StoreLemmas

  class Store {
    var apps: map<string, AppRow>
    var releases: map<nat, Release>
    var machines: map<MachineId, Machine>
    var subnets: map<string, nat>
    var clock: nat

    ghost function View(): Db
      reads this
    {
      Db(apps, releases, machines, subnets, clock)
    }

    ghost predicate Valid()
      reads this
    {
      DbOk(View())
    }

    /** Open on a fresh file: the schema with its seeded admin subnet. */
    constructor ()
      ensures Valid() && View() == EMPTY_DB
    {
      apps, releases, machines, subnets, clock := map[], map[], map[], map["" := 0], 0;
    }

    /** allocIP: collect the addresses of the /24 in use, then try hosts upwards. */
    method AllocIp(idx: nat) returns (ip: Option<nat>)
      requires idx <= SUBNET_MAX
      ensures ip == FreeIp(machines, idx)
    {
      var base := SubnetBase(idx);
      var used := UsedInBlock(base);
      UsedAgree(machines, used, idx);
      hide SubnetBase, UsedIps;
      StoreLemmas.LeastFreeDependsOnRange(used, UsedIps(machines), base, FIRST_HOST);
      var host := FIRST_HOST;
      while host <= LAST_HOST
        invariant FIRST_HOST <= host <= LAST_HOST + 1
        invariant FreeIp(machines, idx) == LeastFreeFrom(used, base, host)
      {
        if base + host !in used {
          return Some(base + host);
        }
        host := host + 1;
      }
      return None;
    }

    /** The scan over every row: addresses with the block's first three octets. */
    method UsedInBlock(base: nat) returns (used: set<nat>)
      ensures forall a :: a in used <==> a / 256 * 256 == base && exists id :: id in machines && machines[id].ip == a
    {
      used := {};
      var rows := machines.Keys;
      while rows != {}
        invariant rows <= machines.Keys
        invariant forall a :: a in used <==>
                    a / 256 * 256 == base && exists id :: id in machines && id !in rows && machines[id].ip == a
        decreases |rows|
      {
        var id :| id in rows;
        rows := rows - {id};
        var addr := machines[id].ip;
        if addr / 256 * 256 == base {
          used := used + {addr};
        }
      }
    }

    /** smallestFreeSubnetIdx. */
    method SmallestFreeSubnetIdx() returns (idx: Option<nat>)
      ensures idx == LeastIndexFrom(subnets.Values, 1)
    {
      var used: set<nat> := {};
      var owners := subnets.Keys;
      while owners != {}
        invariant owners <= subnets.Keys
        invariant forall i :: i in used <==> exists o :: o in subnets && o !in owners && subnets[o] == i
        decreases |owners|
      {
        var o :| o in owners;
        owners := owners - {o};
        used := used + {subnets[o]};
      }
      assert used == subnets.Values;
      var i := 1;
      while i <= SUBNET_MAX
        invariant 1 <= i <= SUBNET_MAX + 1
        invariant LeastIndexFrom(subnets.Values, 1) == LeastIndexFrom(used, i)
      {
        if i !in used {
          return Some(i);
        }
        i := i + 1;
      }
      return None;
    }

    /** None is "no free tenant subnet"; the transaction then leaves no trace. */
    method SubnetForOwner(owner: string) returns (idx: Option<nat>)
      requires Valid()
      modifies this
      ensures Valid()
      ensures match Tables.SubnetForOwner(old(View()), owner)
              case None => idx == None && View() == old(View())
              case Some((db, i)) => idx == Some(i) && View() == db
    {
      StoreLemmas.SubnetForOwnerKeeps(View(), owner);
      if owner in subnets {
        return Some(subnets[owner]);
      }
      idx := SmallestFreeSubnetIdx();
      if idx.Some? {
        subnets := subnets[owner := idx.value];
      }
    }

    /** The owner that holds the subnet, if any does; indexes being UNIQUE, no other can. */
    method OwnerForSubnet(idx: nat) returns (owner: Option<string>)
      requires Valid()
      ensures forall o :: owner == Some(o) <==> o in subnets && subnets[o] == idx
      ensures owner == None <==> idx !in subnets.Values
      ensures owner == Tables.OwnerForSubnet(View(), idx)
    {
      if o :| o in subnets && subnets[o] == idx {
        return Some(o);
      }
      return None;
    }

    /** None: the pool is exhausted, the id is taken or the app row is missing. */
    method AllocAndInsertMachine(id: MachineId, app: string, rel: nat, idx: nat) returns (ip: Option<nat>)
      requires Valid() && idx <= SUBNET_MAX
      modifies this
      ensures Valid()
      ensures match Tables.AllocAndInsertMachine(old(View()), id, app, rel, idx)
              case None => ip == None && View() == old(View())
              case Some((db, i)) => ip == Some(i) && View() == db
    {
      StoreLemmas.AllocAndInsertKeeps(View(), id, app, rel, idx);
      ip := AllocIp(idx);
      if ip.None? {
        return;
      }
      if id in machines || app !in apps {
        return None;
      }
      machines := machines[id := Machine(app, rel, ip.value, Starting, 0, clock)];
      clock := clock + 1;
    }

    /** One row's state and pid: it stays where it is in every listing and keeps
        its app, release and address, and no other row changes. */
    method SetMachineState(id: MachineId, state: MState, pid: Pid) returns (ok: bool)
      requires Valid()
      modifies this`machines
      ensures Valid()
      ensures ok <==> id in old(machines)
      ensures machines.Keys == old(machines).Keys && forall m | m in machines && m != id :: machines[m] == old(machines)[m]
      ensures ok ==>
                && machines[id].state == state && machines[id].pid == pid
                && machines[id].app == old(machines)[id].app && machines[id].rel == old(machines)[id].rel
                && machines[id].ip == old(machines)[id].ip && machines[id].stamp == old(machines)[id].stamp
      ensures match Tables.SetMachineState(old(View()), id, state, pid)
              case None => !ok && View() == old(View())
              case Some(db) => ok && View() == db
    {
      StoreLemmas.SetMachineStateKeeps(View(), id, state, pid);
      ok := id in machines;
      if ok {
        machines := machines[id := machines[id].(state := state, pid := pid)];
      }
    }

    /** Only that row goes, if it is there, and only its address becomes free. */
    method DeleteMachine(id: MachineId)
      requires Valid()
      modifies this`machines
      ensures Valid()
      ensures id !in machines && machines.Keys == old(machines).Keys - {id}
      ensures forall m | m in machines :: machines[m] == old(machines)[m]
      ensures UsedIps(machines) == UsedIps(old(machines)) - (if id in old(machines) then {old(machines)[id].ip} else {})
      ensures View() == Tables.DeleteMachine(old(View()), id)
    {
      StoreLemmas.DeleteMachineKeeps(View(), id);
      FreedAddress(View(), id);
      machines := machines - {id};
    }

    /** The app has the configuration, and keeps its owner; a new app has none. */
    method UpsertApp(name: string, config: Config)
      requires Valid()
      modifies this`apps
      ensures Valid()
      ensures apps.Keys == old(apps).Keys + {name} && apps[name].config == config
      ensures apps[name].owner == if name in old(apps) then old(apps)[name].owner else ""
      ensures forall a | a in old(apps) && a != name :: apps[a] == old(apps)[a]
      ensures View() == Tables.UpsertApp(old(View()), name, config)
    {
      StoreLemmas.UpsertAppKeeps(View(), name, config);
      if name in apps {
        apps := apps[name := apps[name].(config := config)];
      } else {
        apps := apps[name := AppRow(config, "")];
      }
    }

    /** An owner once recorded is never overwritten; configurations stay. */
    method SetAppOwner(name: string, owner: string)
      requires Valid()
      modifies this`apps
      ensures Valid()
      ensures apps.Keys == old(apps).Keys
      ensures forall a | a in apps :: apps[a].config == old(apps)[a].config
      ensures forall a | a in apps && (a != name || old(apps)[a].owner != "") :: apps[a].owner == old(apps)[a].owner
      ensures name in apps && old(apps)[name].owner == "" ==> apps[name].owner == owner
      ensures View() == Tables.SetAppOwner(old(View()), name, owner)
    {
      if name in apps && apps[name].owner == "" {
        apps := apps[name := apps[name].(owner := owner)];
      }
    }

    /** SQLite picks one more than the largest id in use. */
    method InsertRelease(rel: Release) returns (id: Option<nat>)
      requires Valid()
      modifies this`releases
      ensures Valid()
      ensures match Tables.InsertRelease(old(View()), rel)
              case None => id == None && View() == old(View())
              case Some((db, i)) => id == Some(i) && View() == db
    {
      StoreLemmas.InsertReleaseKeeps(View(), rel);
      if rel.app !in apps {
        return None;
      }
      var top := LargestKey(releases.Keys);
      id := Some(top + 1);
      releases := releases[top + 1 := rel];
    }

    method LatestRelease(app: string) returns (id: Option<nat>)
      ensures id == Tables.LatestRelease(View(), app)
    {
      var ids := set r | r in releases && releases[r].app == app;
      assert ids == ReleasesOf(View(), app);
      if ids == {} {
        return None;
      }
      var top := LargestKey(ids);
      return Some(top);
    }

    /** DELETE with a row still referring to the app fails; a missing app does not. */
    method DeleteApp(name: string) returns (ok: bool)
      requires Valid()
      modifies this`apps
      ensures Valid()
      ensures match Tables.DeleteApp(old(View()), name)
              case None => !ok && View() == old(View())
              case Some(db) => ok && View() == db
    {
      StoreLemmas.DeleteAppKeeps(View(), name);
      ok := !(name in apps
              && ((exists r :: r in releases && releases[r].app == name) || (exists m :: m in machines && machines[m].app == name)));
      assert (exists r :: r in releases && releases[r].app == name) <==> ReleasesOf(View(), name) != {} by {
        if r :| r in ReleasesOf(View(), name) { assert r in releases; }
        if r :| r in releases && releases[r].app == name { assert r in ReleasesOf(View(), name); }
      }
      assert (exists m :: m in machines && machines[m].app == name) <==> MachinesOf(View(), name) != {} by {
        if m :| m in MachinesOf(View(), name) { assert m in machines; }
        if m :| m in machines && machines[m].app == name { assert m in MachinesOf(View(), name); }
      }
      if ok {
        apps := apps - {name};
      }
    }

    /** No release of the app is left, and no other app's latest release changes. */
    method DeleteReleasesForApp(app: string)
      requires Valid()
      modifies this`releases
      ensures Valid()
      ensures Tables.LatestRelease(View(), app) == None && ReleasesOf(View(), app) == {}
      ensures forall r | r in old(releases) && old(releases)[r].app != app :: r in releases && releases[r] == old(releases)[r]
      ensures forall a | a != app :: Tables.LatestRelease(View(), a) == Tables.LatestRelease(old(View()), a)
      ensures View() == Tables.DeleteReleasesForApp(old(View()), app)
    {
      StoreLemmas.DeleteReleasesKeeps(View(), app);
      releases := releases - (set r | r in releases && releases[r].app == app);
    }
  }

  lemma FreedAddress(db: Db, id: MachineId)
    requires DbOk(db)
    ensures UsedIps(db.machines - {id}) == UsedIps(db.machines) - (if id in db.machines then {db.machines[id].ip} else {})
  {
    var rest := db.machines - {id};
    forall ip | ip in UsedIps(db.machines) && (id in db.machines ==> ip != db.machines[id].ip) ensures ip in UsedIps(rest) {
      var m :| m in db.machines && db.machines[m].ip == ip;
      assert m in rest && rest[m].ip == ip;
    }
  }

  /** A scan for the largest id. */
  method LargestKey(keys: set<nat>) returns (m: nat)
    ensures m == MaxKey(keys)
  {
    m := 0;
    var rest := keys;
    while rest != {}
      invariant rest <= keys && (m == 0 || m in keys)
      invariant forall k | k in keys && k !in rest :: k <= m
      decreases |rest|
    {
      var k :| k in rest;
      rest := rest - {k};
      if k > m {
        m := k;
      }
    }
    assert forall k | k in keys :: k <= m;
  }

  lemma UsedAgree(machines: map<MachineId, Machine>, used: set<nat>, idx: nat)
    requires forall a :: a in used <==> a / 256 * 256 == SubnetBase(idx) && exists id :: id in machines && machines[id].ip == a
    ensures forall h | SubnetBase(idx) + FIRST_HOST <= h <= SubnetBase(idx) + LAST_HOST :: h in used <==> h in UsedIps(machines)
  {
    InBlock(idx);
  }

  /** The addresses of block `idx` are those whose first three octets are its base. */
  lemma InBlock(idx: nat)
    ensures forall h | SubnetBase(idx) <= h < SubnetBase(idx) + 256 :: h / 256 * 256 == SubnetBase(idx)
  {
    forall h | SubnetBase(idx) <= h < SubnetBase(idx) + 256 ensures h / 256 * 256 == SubnetBase(idx) {
      assert h / 256 == (10 * 256 + 200) * 256 + idx;
    }
  }
}
