// internal/dns/dns.go and internal/daemon/bridge.go: the .internal zone, scoped
// to the requester's tenant.

module Dns {
  import opened Common
  import opened Tables
  import Addresses

  function MachineStamp(m: Machine): nat {
    m.stamp
  }

  /** MachinesForApp, newest first. */
  ghost function MachinesForApp(db: Db, app: string): seq<Machine> {
    NewestFirst(RowsOf(db, app), MachineStamp)
  }

  // ----- who may see what ------------------------------------------------------------------

  /** 10.200.0.0/16; anything else is the host itself. */
  predicate TenantSource(src: nat) {
    src / 0x1_0000 == 10 * 256 + 200
  }

  /** `src` is written 10.200.i.h for some h. */
  ghost predicate InSubnet(src: nat, i: nat) {
    exists h :: Addresses.At(src, i, h)
  }

  /** The tenant sources are the addresses 10.200.i.h, and `i` is their index. */
  lemma TenantSources(src: nat, i: nat)
    ensures InSubnet(src, i) <==> TenantSource(src) && IndexOf(src) == i
    ensures TenantSource(src) <==> exists j :: InSubnet(src, j)
  {
    hide Addresses.At, IndexOf, TenantSource;
    forall j ensures InSubnet(src, j) <==> TenantSource(src) && IndexOf(src) == j { OneSubnet(src, j); }
    if TenantSource(src) { assert InSubnet(src, IndexOf(src)); }
  }

  lemma OneSubnet(src: nat, i: nat)
    ensures InSubnet(src, i) <==> TenantSource(src) && IndexOf(src) == i
  {
    hide Addresses.ParseIp, Addresses.Quad, TenantSource, IndexOf, Addresses.At;
    if TenantSource(src) && IndexOf(src) == i {
      OctetsOf(src);
      Addresses.AtIsArithmetic(src, i, src % 256);
    }
    if h :| Addresses.At(src, i, h) {
      InRange(src, i, h);
      Addresses.AtIsArithmetic(src, i, h);
      FromOctets(i, h);
    }
  }

  lemma InRange(src: nat, i: nat, h: nat)
    requires Addresses.At(src, i, h)
    ensures i < 256 && h < 256
  {
  }

  lemma OctetsOf(src: nat)
    requires TenantSource(src)
    ensures IndexOf(src) < 256 && src == Addresses.Quad(10, 200, IndexOf(src), src % 256)
  {
    assert src / 256 / 256 == src / 0x1_0000;
  }

  lemma FromOctets(i: nat, h: nat)
    requires i < 256 && h < 256
    ensures TenantSource(Addresses.Quad(10, 200, i, h)) && IndexOf(Addresses.Quad(10, 200, i, h)) == i
  {
    var q := Addresses.Quad(10, 200, i, h);
    assert q == ((10 * 256 + 200) * 256 + i) * 256 + h;
    assert q / 256 == (10 * 256 + 200) * 256 + i;
    assert q / 0x1_0000 == q / 256 / 256;
  }

  /** Every machine asks from the subnet its address was allocated in. */
  lemma MachineSource(db: Db, id: MachineId, i: nat)
    requires MachinesOk(db) && id in db.machines
    ensures InSubnet(db.machines[id].ip, i) <==> HostRange(db.machines[id].ip, i)
    ensures exists j :: InSubnet(db.machines[id].ip, j)
  {
    var ip := db.machines[id].ip;
    Addresses.HostRangeIsTheSubnet(ip, IndexOf(ip));
    Addresses.HostRangeIsTheSubnet(ip, i);
    OneSubnet(ip, i);
    hide Addresses.At, TenantSource;
    assert InSubnet(ip, IndexOf(ip));
    OneSubnet(ip, IndexOf(ip));
  }

  /** requesterCanSee. `src` is None for a source that is no IPv4 address. */
  function CanSee(db: Db, app: string, src: Option<nat>): bool
    requires SubnetsOk(db)
  {
    if src.None? || !TenantSource(src.value) then true
    else
      match OwnerForSubnet(db, IndexOf(src.value))
      case None => false
      case Some(owner) => app in db.apps && db.apps[app].owner == owner
  }

  function RunningIps(rows: seq<Machine>): seq<nat> {
    if rows == [] then []
    else RunningIps(rows[..|rows| - 1]) + (if rows[|rows| - 1].state == Running then [rows[|rows| - 1].ip] else [])
  }

  ghost function Resolved(db: Db, app: string, src: Option<nat>): seq<nat>
    requires SubnetsOk(db)
  {
    if CanSee(db, app, src) then RunningIps(MachinesForApp(db, app)) else []
  }

  /** resolveDNS; `machines` is what MachinesForApp returned. */
  method ResolveDns(db: Db, app: string, src: Option<nat>, machines: seq<Machine>) returns (ips: seq<nat>)
    requires SubnetsOk(db) && machines == MachinesForApp(db, app)
    ensures ips == Resolved(db, app, src)
  {
    var sees := RequesterCanSee(db, app, src);
    if !sees {
      return [];
    }
    ips := [];
    for i := 0 to |machines|
      invariant ips == RunningIps(machines[..i])
    {
      assert machines[..i + 1][..i] == machines[..i];
      if machines[i].state == Running {
        ips := ips + [machines[i].ip];
      }
    }
    assert machines[..|machines|] == machines;
  }

  /** The host sees every app; a machine sees exactly the apps whose owner holds
      the subnet it asks from. */
  method RequesterCanSee(db: Db, app: string, src: Option<nat>) returns (sees: bool)
    requires SubnetsOk(db)
    ensures src.None? || (forall i :: !InSubnet(src.value, i)) ==> sees
    ensures src.Some? ==> forall i | InSubnet(src.value, i) ::
              sees <==> app in db.apps && db.apps[app].owner in db.subnets && db.subnets[db.apps[app].owner] == i
    ensures sees == CanSee(db, app, src)
  {
    if src.Some? {
      forall i ensures InSubnet(src.value, i) <==> TenantSource(src.value) && IndexOf(src.value) == i { TenantSources(src.value, i); }
      TenantSources(src.value, 0);
    }
    hide InSubnet, TenantSource;
    if src.None? || !TenantSource(src.value) {
      return true;
    }
    var owner := OwnerForSubnet(db, IndexOf(src.value));
    assert owner.None? ==> forall o | o in db.subnets :: db.subnets[o] != IndexOf(src.value);
    if owner.None? || app !in db.apps {
      return false;
    }
    return db.apps[app].owner == owner.value;
  }

  // ----- replies ---------------------------------------------------------------------------

  datatype Question = Question(name: string, qtype: nat)
  datatype Answer = Answer(name: string, ttl: nat, ip: nat)
  datatype Reply = FormatError | Forwarded | NxDomain | NoError(answers: seq<Answer>)

  const ZONE: string := ".internal."
  const TYPE_A: nat := 1
  const ANSWER_TTL: nat := 5

  function LowerChar(c: char): char {
    if 'A' <= c <= 'Z' then (c as int + 32) as char else c
  }

  function Lower(s: string): (r: string)
    ensures |r| == |s|
    ensures forall i | 0 <= i < |s| :: r[i] as int == s[i] as int + if 'A' <= s[i] <= 'Z' then 32 else 0
  {
    seq(|s|, i requires 0 <= i < |s| => LowerChar(s[i]))
  }

  predicate Local(name: string) {
    |ZONE| <= |name| && Lower(name)[|name| - |ZONE|..] == ZONE
  }

  function AppName(name: string): string
    requires Local(name)
  {
    Lower(name)[..|name| - |ZONE|]
  }

  /** A name is local exactly if it ends in ".internal.", in capitals or not; what
      comes before it, in small letters, is the app. */
  lemma LocalNames(name: string, zone: string)
    requires |zone| == 10
    ensures Local(name + zone) <==> Lower(zone) == ".internal."
    ensures Local(name + zone) ==> AppName(name + zone) == Lower(name)
  {
    assert Lower(name + zone) == Lower(name) + Lower(zone);
  }

  function Answers(name: string, ips: seq<nat>): seq<Answer> {
    seq(|ips|, i requires 0 <= i < |ips| => Answer(name, ANSWER_TTL, ips[i]))
  }

  function LocalReply(q: Question, ips: seq<nat>): Reply {
    if ips == [] then NxDomain else NoError(if q.qtype == TYPE_A then Answers(q.name, ips) else [])
  }

  ghost function ReplyTo(db: Db, questions: seq<Question>, src: Option<nat>): Reply
    requires SubnetsOk(db)
  {
    if |questions| != 1 then FormatError
    else if !Local(questions[0].name) then Forwarded
    else LocalReply(questions[0], Resolved(db, AppName(questions[0].name), src))
  }

  /** resolveLocal, given what Resolve returned. */
  method ResolveLocal(q: Question, ips: seq<nat>) returns (r: Reply)
    ensures r == LocalReply(q, ips)
  {
    if |ips| == 0 {
      return NxDomain;
    }
    if q.qtype != TYPE_A {
      return NoError([]);
    }
    var answers: seq<Answer> := [];
    for i := 0 to |ips|
      invariant answers == Answers(q.name, ips[..i])
    {
      answers := answers + [Answer(q.name, ANSWER_TTL, ips[i])];
    }
    assert ips[..|ips|] == ips;
    return NoError(answers);
  }

  /** ServeDNS; `rows` is what MachinesForApp returned for a local name. */
  method ServeDns(db: Db, questions: seq<Question>, src: Option<nat>, rows: seq<Machine>) returns (r: Reply)
    requires SubnetsOk(db)
    requires |questions| == 1 && Local(questions[0].name) ==> rows == MachinesForApp(db, AppName(questions[0].name))
    ensures r == ReplyTo(db, questions, src)
    ensures r.FormatError? <==> |questions| != 1
    ensures r.Forwarded? <==> |questions| == 1 && !Local(questions[0].name)
  {
    if |questions| != 1 {
      return FormatError;
    }
    var q := questions[0];
    if !Local(q.name) {
      return Forwarded;
    }
    var ips := ResolveDns(db, AppName(q.name), src, rows);
    r := ResolveLocal(q, ips);
  }

  // ----- what a tenant can learn ---------------------------------------------------------------

  /** The part of the store a tenant's own owner accounts for. */
  ghost predicate SameForOwner(db: Db, db': Db, idx: nat)
    requires SubnetsOk(db) && SubnetsOk(db')
  {
    && OwnerForSubnet(db, idx) == OwnerForSubnet(db', idx)
    && (OwnerForSubnet(db, idx).Some? ==>
          var o := OwnerForSubnet(db, idx).value;
          && (forall a :: (a in db.apps && db.apps[a].owner == o) <==> (a in db'.apps && db'.apps[a].owner == o))
          && (forall a | a in db.apps && db.apps[a].owner == o :: RowsOf(db, a) == RowsOf(db', a)))
  }

  /** Noninterference: whatever else two stores contain, a tenant whose own apps
      and machines are the same in both gets the same reply to every query. */
  lemma TenantLearnsNothing(db: Db, db': Db, questions: seq<Question>, src: nat, i: nat)
    requires SubnetsOk(db) && SubnetsOk(db') && InSubnet(src, i) && SameForOwner(db, db', i)
    ensures ReplyTo(db, questions, Some(src)) == ReplyTo(db', questions, Some(src))
  {
    TenantSources(src, i);
    hide InSubnet;
    if |questions| == 1 && Local(questions[0].name) {
      hide Local, AppName, MachinesForApp, OwnerForSubnet, SubnetsOk;
      var app := AppName(questions[0].name);
      assert CanSee(db, app, Some(src)) == CanSee(db', app, Some(src));
      if CanSee(db, app, Some(src)) { assert RowsOf(db, app) == RowsOf(db', app); }
    }
  }

  /** So for every machine of both stores, in whichever subnet it got its address. */
  lemma MachineLearnsNothing(db: Db, db': Db, questions: seq<Question>, id: MachineId, i: nat)
    requires DbOk(db) && DbOk(db') && id in db.machines && id in db'.machines && db'.machines[id].ip == db.machines[id].ip
    requires HostRange(db.machines[id].ip, i) && SameForOwner(db, db', i)
    ensures ReplyTo(db, questions, Some(db.machines[id].ip)) == ReplyTo(db', questions, Some(db'.machines[id].ip))
  {
    MachineSource(db, id, i);
    TenantLearnsNothing(db, db', questions, db.machines[id].ip, i);
  }

  /** An app a tenant may not see answers like one that does not exist. */
  lemma InvisibleIsMissing(db: Db, app: string, q: Question, src: nat, i: nat)
    requires SubnetsOk(db) && InSubnet(src, i) && Local(q.name) && AppName(q.name) == app
    requires app in db.apps && db.apps[app].owner in db.subnets ==> db.subnets[db.apps[app].owner] != i
    ensures ReplyTo(db, [q], Some(src)) == NxDomain
    ensures ReplyTo(db.(apps := db.apps - {app}), [q], Some(src)) == NxDomain
  {
    TenantSources(src, i);
    hide Local, AppName, MachinesForApp, InSubnet;
  }

  /** So a machine gets no address of an app whose owner's subnet is not its own. */
  lemma StrangerIsMissing(db: Db, id: MachineId, i: nat, q: Question)
    requires DbOk(db) && id in db.machines && HostRange(db.machines[id].ip, i) && Local(q.name)
    requires var app := AppName(q.name);
             app in db.apps && db.apps[app].owner in db.subnets ==> db.subnets[db.apps[app].owner] != i
    ensures ReplyTo(db, [q], Some(db.machines[id].ip)) == NxDomain
  {
    MachineSource(db, id, i);
    InvisibleIsMissing(db, AppName(q.name), q, db.machines[id].ip, i);
  }

  /** Whether a local name exists never depends on the query type. */
  lemma ExistenceIgnoresType(db: Db, name: string, t: nat, u: nat, src: Option<nat>)
    requires SubnetsOk(db) && Local(name)
    ensures ReplyTo(db, [Question(name, t)], src).NxDomain? <==> ReplyTo(db, [Question(name, u)], src).NxDomain?
    ensures ReplyTo(db, [Question(name, t)], src).NxDomain? || ReplyTo(db, [Question(name, t)], src).NoError?
    ensures t != 1 && ReplyTo(db, [Question(name, t)], src).NoError? ==> ReplyTo(db, [Question(name, t)], src) == NoError([])
  {
    hide Local, AppName, MachinesForApp;
  }

  lemma {:induction false} RunningIpsAreExact(rows: seq<Machine>)
    ensures forall ip :: ip in RunningIps(rows) <==> exists m :: m in rows && m.state == Running && m.ip == ip
  {
    if rows != [] {
      var front, last := rows[..|rows| - 1], rows[|rows| - 1];
      RunningIpsAreExact(front);
      assert rows == front + [last];
      forall ip ensures ip in RunningIps(rows) <==> exists m :: m in rows && m.state == Running && m.ip == ip {
        if m :| m in rows && m.state == Running && m.ip == ip {
          assert m in front || m == last;
        }
        if ip in RunningIps(rows) {
          if ip in RunningIps(front) {
            var m :| m in front && m.state == Running && m.ip == ip;
            assert m in rows;
          } else {
            assert last in rows;
          }
        }
      }
    }
  }

  /** An A query a requester may make is answered with exactly the addresses of
      the app's running machines, and with NXDOMAIN when there are none. */
  lemma AnswersAreTheRunningAddresses(db: Db, q: Question, src: Option<nat>)
    requires SubnetsOk(db) && Local(q.name) && q.qtype == 1 && CanSee(db, AppName(q.name), src)
    ensures var app := AppName(q.name);
            (match ReplyTo(db, [q], src)
            case NxDomain => forall id | id in db.machines && db.machines[id].app == app :: db.machines[id].state != Running
            case NoError(answers) =>
              && (forall a | a in answers ::
                    a.name == q.name && a.ttl == 5
                    && exists id :: id in db.machines && db.machines[id].app == app && db.machines[id].state == Running && db.machines[id].ip == a.ip)
              && (forall id | id in db.machines && db.machines[id].app == app && db.machines[id].state == Running ::
                    Answer(q.name, 5, db.machines[id].ip) in answers)
            case _ => false)
  {
    var app := AppName(q.name);
    hide Local, AppName, MachinesForApp, CanSee, RunningIps;
    var rows := MachinesForApp(db, app);
    var ips := RunningIps(rows);
    NewestFirstIsExact(RowsOf(db, app), MachineStamp);
    RunningIpsAreExact(rows);
    forall id | id in db.machines && db.machines[id].app == app && db.machines[id].state == Running
      ensures db.machines[id].ip in ips && Answer(q.name, ANSWER_TTL, db.machines[id].ip) in Answers(q.name, ips)
    {
      var m := RowsOf(db, app)[id];
      assert m in rows && m.state == Running && m.ip == db.machines[id].ip;
      assert m.ip in ips;
      var k :| 0 <= k < |ips| && ips[k] == db.machines[id].ip;
      assert Answers(q.name, ips)[k] == Answer(q.name, ANSWER_TTL, ips[k]);
    }
    forall a | a in Answers(q.name, ips)
      ensures exists id :: id in db.machines && db.machines[id].app == app && db.machines[id].state == Running && db.machines[id].ip == a.ip
    {
      assert a.ip in ips;
      var m :| m in rows && m.state == Running && m.ip == a.ip;
      var id :| id in RowsOf(db, app) && RowsOf(db, app)[id] == m;
    }
  }

  /** `at`: where in `rows` the addresses come from, in the order of the rows. */
  ghost predicate Picks(rows: seq<Machine>, at: seq<nat>) {
    && |at| == |RunningIps(rows)| && (forall i, j | 0 <= i < j < |at| :: at[i] < at[j])
    && (forall k | 0 <= k < |at| :: at[k] < |rows| && rows[at[k]].state == Running && rows[at[k]].ip == RunningIps(rows)[k])
  }

  lemma {:induction false} RunningIpsPick(rows: seq<Machine>) returns (at: seq<nat>)
    ensures Picks(rows, at)
  {
    if rows == [] {
      at := [];
    } else {
      var front := RunningIpsPick(rows[..|rows| - 1]);
      at := if rows[|rows| - 1].state == Running then front + [|rows| - 1] else front;
      PicksGrow(rows, front, at);
    }
  }

  lemma PicksGrow(rows: seq<Machine>, front: seq<nat>, at: seq<nat>)
    requires rows != [] && Picks(rows[..|rows| - 1], front)
    requires at == if rows[|rows| - 1].state == Running then front + [|rows| - 1] else front
    ensures Picks(rows, at)
  {
    var n := |rows| - 1;
    assert forall i | 0 <= i < n :: rows[..n][i] == rows[i];
    forall k | 0 <= k < |at| ensures at[k] < |rows| && rows[at[k]].state == Running && rows[at[k]].ip == RunningIps(rows)[k] {
      if k < |front| { assert at[k] == front[k] < n; }
    }
  }

  /** The answers come newest machine first. */
  lemma AnswersAreNewestFirst(db: Db, q: Question, src: Option<nat>) returns (from: seq<Machine>)
    requires SubnetsOk(db) && Local(q.name) && ReplyTo(db, [q], src).NoError? && q.qtype == 1
    ensures var answers := ReplyTo(db, [q], src).answers;
            && |from| == |answers|
            && (forall k | 0 <= k < |from| :: answers[k].ip == from[k].ip && from[k].state == Running
                 && exists id :: id in db.machines && db.machines[id] == from[k] && from[k].app == AppName(q.name))
            && forall i, j | 0 <= i < j < |from| :: from[j].stamp <= from[i].stamp
  {
    hide Local, AppName, CanSee, RunningIps, NewestFirst, SubnetsOk;
    var rows := MachinesForApp(db, AppName(q.name));
    var at := RunningIpsPick(rows);
    NewestFirstIsExact(RowsOf(db, AppName(q.name)), MachineStamp);
    NewestFirstIsOrdered(RowsOf(db, AppName(q.name)), MachineStamp);
    from := seq(|at|, k requires 0 <= k < |at| => rows[at[k]]);
    forall k | 0 <= k < |from| ensures exists id :: id in db.machines && db.machines[id] == from[k] && from[k].app == AppName(q.name) {
      assert from[k] in rows;
      var id :| id in RowsOf(db, AppName(q.name)) && RowsOf(db, AppName(q.name))[id] == from[k];
      assert id in db.machines && db.machines[id] == from[k];
    }
    forall i, j | 0 <= i < j < |from| ensures from[j].stamp <= from[i].stamp {
      assert MachineStamp(rows[at[j]]) <= MachineStamp(rows[at[i]]);
    }
  }

  // ----- one listener per bridge ------------------------------------------------------------------

  class Bridges {
    var dnsListening: set<nat>
    /** Every socket listens, by subnet index. */
    var listens: seq<nat>

    ghost predicate Valid()
      reads this
    {
      && (forall i :: i in dnsListening <==> i in listens)
      && (forall i, j | 0 <= i < j < |listens| :: listens[i] != listens[j])
    }

    constructor ()
      ensures Valid() && listens == []
    {
      dnsListening, listens := {}, [];
    }

    /** ensureBridge: however often it is called for a subnet, its listener is
        listens once; a failed listen leaves the next call to try again. */
    method EnsureBridge(idx: nat, linkOk: bool, listenOk: bool) returns (ok: bool)
      requires Valid()
      modifies this
      ensures Valid()
      ensures ok <==> linkOk && (idx in old(dnsListening) || listenOk)
      ensures listens == if linkOk && listenOk && idx !in old(dnsListening) then old(listens) + [idx] else old(listens)
      ensures ok ==> idx in dnsListening
    {
      if !linkOk {
        return false;
      }
      if idx in dnsListening {
        return true;
      }
      if !listenOk {
        return false;
      }
      listens := listens + [idx];
      dnsListening := dnsListening + {idx};
      return true;
    }
  }
}
