// The SQLite schema of internal/store as values: one function per statement
// (or transaction) with the schema's primary-key, UNIQUE and foreign-key checks.

module Tables {
  import opened Common
  import opened AppConfig

  datatype MState = Starting | Running | Stopped | Failed

  datatype AppRow = AppRow(config: Config, owner: string)

  /** `stamp` is the rank of (created_at, rowid): queries list rows by it, newest first. */
  datatype Machine = Machine(app: string, rel: nat, ip: nat, state: MState, pid: Pid, stamp: nat)

  /** `image` stands for the payload columns of a release. */
  datatype Release = Release(app: string, image: string)

  datatype Db = Db(
    apps: map<string, AppRow>,
    releases: map<nat, Release>,
    machines: map<MachineId, Machine>,
    subnets: map<string, nat>,
    clock: nat
  )

  type Rows = map<MachineId, Machine>

  const FIRST_HOST: nat := 2
  const LAST_HOST: nat := 254
  const SUBNET_MAX: nat := 255

  /** schema.sql seeds the admin owner "" at index 0. */
  const EMPTY_DB: Db := Db(map[], map[], map[], map["" := 0], 0)

  // ----- addresses --------------------------------------------------------

  /** 10.200.idx.0 as the uint32 the store computes with. */
  function SubnetBase(idx: nat): nat {
    ((10 * 256 + 200) * 256 + idx) * 256
  }

  /** The tenant index of an address: its third octet. */
  function IndexOf(ip: nat): nat {
    ip / 256 % 256
  }

  predicate HostRange(ip: nat, idx: nat) {
    idx <= SUBNET_MAX && SubnetBase(idx) + FIRST_HOST <= ip <= SubnetBase(idx) + LAST_HOST
  }

  function UsedIps(machines: map<MachineId, Machine>): set<nat> {
    set id | id in machines :: machines[id].ip
  }

  function LeastFreeFrom(used: set<nat>, base: nat, host: nat): Option<nat>
    decreases LAST_HOST + 1 - host
  {
    if host > LAST_HOST then None
    else if base + host !in used then Some(base + host)
    else LeastFreeFrom(used, base, host + 1)
  }

  function FreeIp(machines: map<MachineId, Machine>, idx: nat): Option<nat> {
    LeastFreeFrom(UsedIps(machines), SubnetBase(idx), FIRST_HOST)
  }

  function LeastIndexFrom(used: set<nat>, idx: nat): Option<nat>
    decreases SUBNET_MAX + 1 - idx
  {
    if idx > SUBNET_MAX then None
    else if idx !in used then Some(idx)
    else LeastIndexFrom(used, idx + 1)
  }

  // ----- statements -------------------------------------------------------

  function UpsertApp(db: Db, name: string, config: Config): Db {
    db.(apps := db.apps[name := AppRow(config, if name in db.apps then db.apps[name].owner else "")])
  }

  function SetAppOwner(db: Db, name: string, owner: string): Db {
    if name in db.apps && db.apps[name].owner == ""
    then db.(apps := db.apps[name := db.apps[name].(owner := owner)])
    else db
  }

  /** INTEGER PRIMARY KEY without AUTOINCREMENT: one more than the largest id in use. */
  function NextReleaseId(releases: map<nat, Release>): nat {
    MaxKey(releases.Keys) + 1
  }

  lemma {:induction false} HasMaximum(keys: set<nat>)
    requires keys != {}
    ensures exists m :: m in keys && forall k | k in keys :: k <= m
  {
    var k :| k in keys;
    if keys - {k} == {} {
      assert keys == {k};
    } else {
      HasMaximum(keys - {k});
      var m :| m in keys - {k} && forall j | j in keys - {k} :: j <= m;
      var top := if k > m then k else m;
      assert forall j | j in keys :: j == k || j in keys - {k};
      assert top in keys && forall j | j in keys :: j <= top;
    }
  }

  /** ORDER BY id DESC LIMIT 1, and SQLite's own search for the next id. */
  function MaxKey(keys: set<nat>): (m: nat)
    ensures forall k | k in keys :: k <= m
    ensures if keys == {} then m == 0 else m in keys
  {
    if keys == {} then 0
    else
      HasMaximum(keys);
      var m :| m in keys && forall k | k in keys :: k <= m;
      m
  }

  function InsertRelease(db: Db, rel: Release): Option<(Db, nat)> {
    if rel.app !in db.apps then None
    else
      var id := NextReleaseId(db.releases);
      Some((db.(releases := db.releases[id := rel]), id))
  }

  function ReleasesOf(db: Db, app: string): set<nat> {
    set r | r in db.releases && db.releases[r].app == app
  }

  function LatestRelease(db: Db, app: string): Option<nat> {
    var ids := ReleasesOf(db, app);
    if ids == {} then None else Some(MaxKey(ids))
  }

  function SubnetForOwner(db: Db, owner: string): Option<(Db, nat)> {
    if owner in db.subnets then Some((db, db.subnets[owner]))
    else
      match LeastIndexFrom(db.subnets.Values, 1)
      case None => None
      case Some(idx) => Some((db.(subnets := db.subnets[owner := idx]), idx))
  }

  /** The index column is UNIQUE, so at most one owner matches. */
  function OwnerForSubnet(db: Db, idx: nat): Option<string>
    requires SubnetsOk(db)
  {
    if o :| o in db.subnets && db.subnets[o] == idx then Some(o) else None
  }

  /** allocIP and the insert run in one transaction. */
  function AllocAndInsertMachine(db: Db, id: MachineId, app: string, rel: nat, idx: nat): Option<(Db, nat)> {
    match FreeIp(db.machines, idx)
    case None => None
    case Some(ip) =>
      if id in db.machines || app !in db.apps then None
      else Some((db.(machines := db.machines[id := Machine(app, rel, ip, Starting, 0, db.clock)],
                     clock := db.clock + 1), ip))
  }

  /** None is the "not found" error. */
  function SetMachineState(db: Db, id: MachineId, state: MState, pid: Pid): Option<Db> {
    if id !in db.machines then None
    else Some(db.(machines := db.machines[id := db.machines[id].(state := state, pid := pid)]))
  }

  function DeleteMachine(db: Db, id: MachineId): Db {
    db.(machines := db.machines - {id})
  }

  function DeleteReleasesForApp(db: Db, app: string): Db {
    db.(releases := db.releases - ReleasesOf(db, app))
  }

  function MachinesOf(db: Db, app: string): set<MachineId> {
    set id | id in db.machines && db.machines[id].app == app
  }

  /** None is the foreign-key failure; deleting a missing row is not an error. */
  function DeleteApp(db: Db, app: string): Option<Db> {
    if app in db.apps && (ReleasesOf(db, app) != {} || MachinesOf(db, app) != {}) then None
    else Some(db.(apps := db.apps - {app}))
  }

  // ----- queries ------------------------------------------------------------

  /** MachinesForApp. */
  function RowsOf(db: Db, app: string): Rows {
    map id | id in db.machines && db.machines[id].app == app :: db.machines[id]
  }

  /** RunningMachines, and those of one app. */
  function RunningRows(db: Db): set<MachineId> {
    set id | id in db.machines && db.machines[id].state == Running
  }

  function RunningOf(db: Db, app: string): set<MachineId> {
    set id | id in db.machines && db.machines[id].state == Running && db.machines[id].app == app
  }

  ghost predicate IsNewest<R>(rows: map<MachineId, R>, stamp: R -> nat, id: MachineId) {
    id in rows && forall j | j in rows :: stamp(rows[j]) <= stamp(rows[id])
  }

  lemma {:induction false} HasNewest<R>(rows: map<MachineId, R>, stamp: R -> nat)
    requires rows != map[]
    ensures exists id :: IsNewest(rows, stamp, id)
    decreases |rows|
  {
    var k :| k in rows;
    var rest := rows - {k};
    assert forall j | j in rows :: j == k || j in rest;
    if rest == map[] {
      assert IsNewest(rows, stamp, k);
    } else {
      HasNewest(rest, stamp);
      var n :| IsNewest(rest, stamp, n);
      var top := if stamp(rows[k]) > stamp(rows[n]) then k else n;
      assert IsNewest(rows, stamp, top);
    }
  }

  /** ORDER BY created_at DESC, rowid DESC. */
  ghost function NewestFirst<R>(rows: map<MachineId, R>, stamp: R -> nat): seq<R>
    decreases |rows|
  {
    if rows == map[] then []
    else
      HasNewest(rows, stamp);
      var id :| IsNewest(rows, stamp, id);
      [rows[id]] + NewestFirst(rows - {id}, stamp)
  }

  lemma {:induction false} NewestFirstIsExact<R>(rows: map<MachineId, R>, stamp: R -> nat)
    ensures |NewestFirst(rows, stamp)| == |rows|
    ensures forall r | r in NewestFirst(rows, stamp) :: exists id :: id in rows && rows[id] == r
    ensures forall id | id in rows :: rows[id] in NewestFirst(rows, stamp)
    decreases |rows|
  {
    if rows != map[] {
      HasNewest(rows, stamp);
      var id :| IsNewest(rows, stamp, id) && NewestFirst(rows, stamp) == [rows[id]] + NewestFirst(rows - {id}, stamp);
      NewestFirstIsExact(rows - {id}, stamp);
      assert (rows - {id})[id := rows[id]] == rows;
      forall r | r in NewestFirst(rows, stamp) ensures exists j :: j in rows && rows[j] == r {
        if r != rows[id] { assert r in NewestFirst(rows - {id}, stamp); }
      }
      forall j | j in rows ensures rows[j] in NewestFirst(rows, stamp) {
        if j != id { assert j in rows - {id}; }
      }
    }
  }

  predicate Descending<R>(rows: seq<R>, stamp: R -> nat) {
    forall i, j | 0 <= i < j < |rows| :: stamp(rows[j]) <= stamp(rows[i])
  }

  lemma {:induction false} NewestFirstIsOrdered<R>(rows: map<MachineId, R>, stamp: R -> nat)
    ensures Descending(NewestFirst(rows, stamp), stamp)
    decreases |rows|
  {
    if rows != map[] {
      HasNewest(rows, stamp);
      var id :| IsNewest(rows, stamp, id) && NewestFirst(rows, stamp) == [rows[id]] + NewestFirst(rows - {id}, stamp);
      var rest := NewestFirst(rows - {id}, stamp);
      NewestFirstIsOrdered(rows - {id}, stamp);
      NewestFirstIsExact(rows - {id}, stamp);
      hide NewestFirst, Descending;
      forall r | r in rest ensures stamp(r) <= stamp(rows[id]) { }
      HeadIsOrdered(rows[id], rest, stamp);
    }
  }

  lemma HeadIsOrdered<R>(head: R, rest: seq<R>, stamp: R -> nat)
    requires Descending(rest, stamp) && forall r | r in rest :: stamp(r) <= stamp(head)
    ensures Descending([head] + rest, stamp)
  {
    var all := [head] + rest;
    forall i, j | 0 <= i < j < |all| ensures stamp(all[j]) <= stamp(all[i]) {
      assert all[j] == rest[j - 1] && rest[j - 1] in rest;
    }
  }

  // ----- what the schema and the statements keep --------------------------

  ghost predicate SubnetsOk(db: Db) {
    && "" in db.subnets && db.subnets[""] == 0
    && (forall o | o in db.subnets :: db.subnets[o] <= SUBNET_MAX)
    && (forall o, p | o in db.subnets && p in db.subnets && db.subnets[o] == db.subnets[p] :: o == p)
  }

  ghost predicate MachinesOk(db: Db) {
    && (forall id | id in db.machines ::
          && db.machines[id].app in db.apps
          && HostRange(db.machines[id].ip, IndexOf(db.machines[id].ip))
          && db.machines[id].stamp < db.clock)
    && (forall i, j | i in db.machines && j in db.machines && i != j ::
          db.machines[i].ip != db.machines[j].ip && db.machines[i].stamp != db.machines[j].stamp)
  }

  ghost predicate ReleasesOk(db: Db) {
    forall r | r in db.releases :: db.releases[r].app in db.apps
  }

  ghost predicate DbOk(db: Db) {
    SubnetsOk(db) && MachinesOk(db) && ReleasesOk(db)
  }
}
