// What cloudflared does with a rendered config: the text read back, and the
// rule that wins for a hostname.

module Routing {
  import opened Common
  import opened AppConfig
  import opened Tables
  import opened Text
  import opened Tunnel
  import Addresses

  // ----- the running list ----------------------------------------------------------

  /** RunningMachines lists exactly the running rows. */
  lemma ListIsExact(live: map<MachineId, LiveRow>)
    ensures |RunningList(live)| == |live|
    ensures forall r | r in RunningList(live) :: exists id :: id in live && live[id] == r
    ensures forall id | id in live :: live[id] in RunningList(live)
  {
    NewestFirstIsExact(live, LiveStamp);
  }

  /** ... newest first. */
  lemma ListIsNewestFirst(live: map<MachineId, LiveRow>)
    ensures forall i, j | 0 <= i < j < |RunningList(live)| :: RunningList(live)[j].stamp <= RunningList(live)[i].stamp
  {
    NewestFirstIsOrdered(live, LiveStamp);
    hide NewestFirst;
    forall i, j | 0 <= i < j < |RunningList(live)| ensures RunningList(live)[j].stamp <= RunningList(live)[i].stamp {
      assert LiveStamp(RunningList(live)[j]) <= LiveStamp(RunningList(live)[i]);
    }
  }

  // ----- first match wins ------------------------------------------------------------

  /** cloudflared tries the rules top to bottom; None is the catch-all's 404. */
  function Match(routes: seq<Route>, host: string): Option<string> {
    if routes == [] then None
    else if routes[0].hostname == host then Some(routes[0].service)
    else Match(routes[1..], host)
  }

  /** The rules applyTunnel renders: machines, configured static routes, oakd's own API. */
  function AllRoutes(domain: string, rows: seq<LiveRow>, cfgs: seq<Config>, statics: seq<Route>, apiPort: nat): seq<Route> {
    Routes(domain, rows, cfgs) + statics
    + [Route(DefaultHost(domain, "oakberryio"), "http://127.0.0.1:" + Decimal(apiPort))]
  }

  predicate Serves(domain: string, row: LiveRow, cfg: Config, host: string) {
    cfg.ports != [] && (host == row.app + "." + domain || host in cfg.domains)
  }

  /** Plain HTTP to that address and port. */
  ghost predicate Reaches(service: string, ip: nat, port: nat) {
    exists host :: Addresses.ParseIp(host) == Some(ip) && service == "http://" + host + ":" + Decimal(port)
  }

  lemma ServiceReaches(row: LiveRow, cfg: Config)
    requires cfg.ports != [] && row.ip < 0x1_0000_0000
    ensures Reaches(Service(row, cfg), row.ip, cfg.ports[0])
  {
    Addresses.ParseIsInverse(Dotted(row.ip), row.ip);
    hide Addresses.ParseIp, Dotted, Decimal;
    assert Addresses.ParseIp(Dotted(row.ip)) == Some(row.ip);
  }

  lemma {:induction false} MatchAppend(r: seq<Route>, q: seq<Route>, host: string)
    ensures Match(r + q, host) == if Match(r, host).Some? then Match(r, host) else Match(q, host)
  {
    if r == [] {
      assert r + q == q;
    } else {
      assert (r + q)[1..] == r[1..] + q;
      MatchAppend(r[1..], q, host);
    }
  }

  lemma {:induction false} MatchUniform(routes: seq<Route>, service: string, host: string)
    requires forall r | r in routes :: r.service == service
    ensures Match(routes, host) == if exists i :: 0 <= i < |routes| && routes[i].hostname == host then Some(service) else None
  {
    if routes != [] {
      assert forall r | r in routes[1..] :: r in routes;
      MatchUniform(routes[1..], service, host);
      if routes[0].hostname != host {
        assert forall i :: 0 < i < |routes| ==> routes[i] == routes[1..][i - 1];
        if i :| 0 <= i < |routes| && routes[i].hostname == host {
          assert routes[1..][i - 1].hostname == host;
        }
      }
    }
  }

  lemma MatchRow(domain: string, row: LiveRow, cfg: Config, host: string)
    ensures Match(RowRoutes(domain, row, cfg), host) ==
            if Serves(domain, row, cfg, host) then Some(Service(row, cfg)) else None
  {
    if cfg.ports != [] {
      var routes := RowRoutes(domain, row, cfg);
      MatchUniform(routes, Service(row, cfg), host);
      if host == row.app + "." + domain { assert routes[0].hostname == host; }
      if host in cfg.domains {
        var i :| 0 <= i < |cfg.domains| && cfg.domains[i] == host;
        assert routes[i + 1].hostname == host;
      }
    }
  }

  /** The winning rule, for every hostname: it leads to the address and first
      service port of the first listed machine that serves it. */
  lemma FirstServingRowIsReached(domain: string, rows: seq<LiveRow>, cfgs: seq<Config>, host: string)
    requires |rows| == |cfgs| && forall k | 0 <= k < |rows| :: rows[k].ip < 0x1_0000_0000
    ensures match Match(Routes(domain, rows, cfgs), host)
            case None => forall k | 0 <= k < |rows| :: !Serves(domain, rows[k], cfgs[k], host)
            case Some(service) =>
              exists k :: 0 <= k < |rows| && Serves(domain, rows[k], cfgs[k], host) && Reaches(service, rows[k].ip, cfgs[k].ports[0])
                          && forall j | 0 <= j < k :: !Serves(domain, rows[j], cfgs[j], host)
  {
    FirstServingRowWins(domain, rows, cfgs, host);
    forall k | 0 <= k < |rows| && cfgs[k].ports != [] ensures Reaches(Service(rows[k], cfgs[k]), rows[k].ip, cfgs[k].ports[0]) {
      ServiceReaches(rows[k], cfgs[k]);
    }
    hide Reaches, Service, Match, Routes;
  }

  /** By rule: the first listed machine that serves the hostname. */
  lemma {:induction false} FirstServingRowWins(domain: string, rows: seq<LiveRow>, cfgs: seq<Config>, host: string)
    requires |rows| == |cfgs|
    ensures match Match(Routes(domain, rows, cfgs), host)
            case None => forall k | 0 <= k < |rows| :: !Serves(domain, rows[k], cfgs[k], host)
            case Some(service) =>
              exists k :: 0 <= k < |rows| && Serves(domain, rows[k], cfgs[k], host) && service == Service(rows[k], cfgs[k])
                          && forall j | 0 <= j < k :: !Serves(domain, rows[j], cfgs[j], host)
  {
    if rows != [] {
      FirstServingRowWins(domain, rows[1..], cfgs[1..], host);
      MatchAppend(RowRoutes(domain, rows[0], cfgs[0]), Routes(domain, rows[1..], cfgs[1..]), host);
      MatchRow(domain, rows[0], cfgs[0], host);
      if Serves(domain, rows[0], cfgs[0], host) {
      } else {
        match Match(Routes(domain, rows[1..], cfgs[1..]), host)
        case None =>
          forall k | 0 <= k < |rows| ensures !Serves(domain, rows[k], cfgs[k], host) {
            if k > 0 { assert !Serves(domain, rows[1..][k - 1], cfgs[1..][k - 1], host); }
          }
        case Some(service) =>
          var k :| 0 <= k < |rows[1..]| && Serves(domain, rows[1..][k], cfgs[1..][k], host) && service == Service(rows[1..][k], cfgs[1..][k])
                   && forall j | 0 <= j < k :: !Serves(domain, rows[1..][j], cfgs[1..][j], host);
          forall j | 0 <= j < k + 1 ensures !Serves(domain, rows[j], cfgs[j], host) {
            if j > 0 { assert !Serves(domain, rows[1..][j - 1], cfgs[1..][j - 1], host); }
          }
          assert Serves(domain, rows[k + 1], cfgs[k + 1], host);
      }
    }
  }

  lemma NameIsInjective(domain: string, a: string, b: string)
    requires a + "." + domain == b + "." + domain
    ensures a == b
  {
    assert |a + "." + domain| == |a| + 1 + |domain| && |b + "." + domain| == |b| + 1 + |domain|;
    assert a == (a + "." + domain)[..|a|] && b == (b + "." + domain)[..|b|];
  }

  /** The running machine of `app` that was created last. */
  ghost predicate NewestOf(live: map<MachineId, LiveRow>, app: string, id: MachineId) {
    id in live && live[id].app == app && forall j | j in live && live[j].app == app :: live[j].stamp <= live[id].stamp
  }

  /** A hostname that an app serves and no other running app does reaches the app's
      newest running machine. */
  lemma HostReachesNewest(domain: string, live: map<MachineId, LiveRow>, cfgs: seq<Config>, id: MachineId, host: string,
                          statics: seq<Route>, apiPort: nat)
    requires id in live && NewestOf(live, live[id].app, id) && live[id].ip < 0x1_0000_0000 && |cfgs| == |RunningList(live)|
    requires forall i, j | i in live && j in live && i != j :: live[i].stamp != live[j].stamp
    requires forall k | 0 <= k < |cfgs| :: Serves(domain, RunningList(live)[k], cfgs[k], host) <==> RunningList(live)[k].app == live[id].app
    ensures exists k :: 0 <= k < |cfgs| && RunningList(live)[k] == live[id]
              && var rule := Match(AllRoutes(domain, RunningList(live), cfgs, statics, apiPort), host);
                 rule.Some? && cfgs[k].ports != [] && Reaches(rule.value, live[id].ip, cfgs[k].ports[0])
  {
    var rows := RunningList(live);
    var at := Position(live, id);
    var k := Winner(domain, rows, cfgs, host, at);
    var j := RowAt(live, k);
    ListIsNewestFirst(live);
    hide RunningList, Match, AllRoutes, Routes, LiveOf;
    MachinesComeFirst(domain, rows, cfgs, statics, apiPort, host);
    ServiceReaches(rows[k], cfgs[k]);
    assert rows[at].stamp <= rows[k].stamp;
    assert j == id;
  }

  /** `<app>.<domain>` reaches the app's newest running machine, provided no
      running app claims that name as a custom domain. */
  lemma DefaultHostReachesNewest(domain: string, live: map<MachineId, LiveRow>, cfgs: seq<Config>, id: MachineId,
                                 statics: seq<Route>, apiPort: nat)
    requires id in live && NewestOf(live, live[id].app, id) && live[id].ip < 0x1_0000_0000 && |cfgs| == |RunningList(live)|
    requires forall i, j | i in live && j in live && i != j :: live[i].stamp != live[j].stamp
    requires forall k | 0 <= k < |cfgs| && RunningList(live)[k].app == live[id].app :: cfgs[k].ports != []
    requires forall k | 0 <= k < |cfgs| :: live[id].app + "." + domain !in cfgs[k].domains
    ensures exists k :: 0 <= k < |cfgs| && RunningList(live)[k] == live[id]
              && var rule := Match(AllRoutes(domain, RunningList(live), cfgs, statics, apiPort), live[id].app + "." + domain);
                 rule.Some? && cfgs[k].ports != [] && Reaches(rule.value, live[id].ip, cfgs[k].ports[0])
  {
    var rows, app := RunningList(live), live[id].app;
    forall k | 0 <= k < |cfgs| ensures Serves(domain, rows[k], cfgs[k], app + "." + domain) <==> rows[k].app == app {
      if rows[k].app + "." + domain == app + "." + domain { NameIsInjective(domain, rows[k].app, app); }
    }
    HostReachesNewest(domain, live, cfgs, id, app + "." + domain, statics, apiPort);
  }

  lemma Position(live: map<MachineId, LiveRow>, id: MachineId) returns (k: nat)
    requires id in live
    ensures k < |RunningList(live)| && RunningList(live)[k] == live[id]
  {
    ListIsExact(live);
    assert live[id] in RunningList(live);
    k :| 0 <= k < |RunningList(live)| && RunningList(live)[k] == live[id];
  }

  lemma RowAt(live: map<MachineId, LiveRow>, k: nat) returns (id: MachineId)
    requires k < |RunningList(live)|
    ensures id in live && live[id] == RunningList(live)[k]
  {
    ListIsExact(live);
    assert RunningList(live)[k] in RunningList(live);
    id :| id in live && live[id] == RunningList(live)[k];
  }

  lemma Winner(domain: string, rows: seq<LiveRow>, cfgs: seq<Config>, host: string, at: nat) returns (k: nat)
    requires |rows| == |cfgs| && at < |rows| && Serves(domain, rows[at], cfgs[at], host)
    ensures k <= at && Serves(domain, rows[k], cfgs[k], host)
    ensures Match(Routes(domain, rows, cfgs), host) == Some(Service(rows[k], cfgs[k]))
  {
    FirstServingRowWins(domain, rows, cfgs, host);
    k :| 0 <= k < |rows| && Serves(domain, rows[k], cfgs[k], host)
         && Match(Routes(domain, rows, cfgs), host) == Some(Service(rows[k], cfgs[k]))
         && forall j | 0 <= j < k :: !Serves(domain, rows[j], cfgs[j], host);
  }

  lemma MachinesComeFirst(domain: string, rows: seq<LiveRow>, cfgs: seq<Config>, statics: seq<Route>, apiPort: nat, host: string)
    requires Match(Routes(domain, rows, cfgs), host).Some?
    ensures Match(AllRoutes(domain, rows, cfgs, statics, apiPort), host) == Match(Routes(domain, rows, cfgs), host)
  {
    MatchAppend(Routes(domain, rows, cfgs), statics, host);
    MatchAppend(Routes(domain, rows, cfgs) + statics, [Route(DefaultHost(domain, "oakberryio"), "http://127.0.0.1:" + Decimal(apiPort))], host);
  }

  /** oakd's own hostname reaches its API unless a machine or a static route claims it. */
  lemma ApiIsReached(domain: string, rows: seq<LiveRow>, cfgs: seq<Config>, statics: seq<Route>, apiPort: nat)
    requires Match(Routes(domain, rows, cfgs), "oakberryio." + domain).None? && Match(statics, "oakberryio." + domain).None?
    ensures Match(AllRoutes(domain, rows, cfgs, statics, apiPort), "oakberryio." + domain) == Some("http://127.0.0.1:" + Decimal(apiPort))
  {
    var api := [Route(DefaultHost(domain, "oakberryio"), "http://127.0.0.1:" + Decimal(apiPort))];
    assert "oakberryio." + domain == "oakberryio" + "." + domain;
    MatchAppend(Routes(domain, rows, cfgs), statics, "oakberryio." + domain);
    MatchAppend(Routes(domain, rows, cfgs) + statics, api, "oakberryio." + domain);
  }
}
