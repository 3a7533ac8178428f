// tunnel.Render: the config text, and that reading it back gives the rules.

module Render {
  import opened Common
  import opened Text
  import opened Tunnel

  const HOST_KEY: string := "  - hostname: "
  const SERVICE_KEY: string := "    service: "
  const CATCH_ALL: string := "  - service: http_status:404"

  function RuleLines(routes: seq<Route>): seq<string> {
    if routes == [] then [] else [HOST_KEY + routes[0].hostname, SERVICE_KEY + routes[0].service] + RuleLines(routes[1..])
  }

  function HeadLines(tunnelID: string, credsFile: string): seq<string> {
    ["tunnel: " + tunnelID, "credentials-file: " + credsFile, "ingress:"]
  }

  function ConfigLines(tunnelID: string, credsFile: string, routes: seq<Route>): seq<string> {
    HeadLines(tunnelID, credsFile) + RuleLines(routes) + [CATCH_ALL]
  }

  lemma {:induction false} RuleLinesAppend(routes: seq<Route>, r: Route)
    ensures RuleLines(routes + [r]) == RuleLines(routes) + [HOST_KEY + r.hostname, SERVICE_KEY + r.service]
  {
    if routes == [] {
      assert routes + [r] == [r] && [r][1..] == [];
    } else {
      assert (routes + [r])[1..] == routes[1..] + [r];
      RuleLinesAppend(routes[1..], r);
    }
  }

  /** tunnel.go's Render: a strings.Builder filled rule by rule. */
  method RenderConfig(tunnelID: string, credsFile: string, routes: seq<Route>) returns (b: string)
    ensures b == Joined(ConfigLines(tunnelID, credsFile, routes))
  {
    hide HOST_KEY, SERVICE_KEY, CATCH_ALL;
    var head := HeadLines(tunnelID, credsFile);
    b := Joined(head);
    assert head + RuleLines(routes[..0]) == head;
    for i := 0 to |routes|
      invariant b == Joined(head + RuleLines(routes[..i]))
    {
      var r := routes[i];
      b := b + (HOST_KEY + r.hostname + "\n" + (SERVICE_KEY + r.service) + "\n");
      JoinedTwo(HOST_KEY + r.hostname, SERVICE_KEY + r.service);
      assert routes[..i + 1] == routes[..i] + [r];
      RuleLinesAppend(routes[..i], r);
      var so := head + RuleLines(routes[..i]);
      JoinedAppend(so, [HOST_KEY + r.hostname, SERVICE_KEY + r.service]);
      assert so + [HOST_KEY + r.hostname, SERVICE_KEY + r.service] == head + RuleLines(routes[..i + 1]);
    }
    assert routes[..|routes|] == routes;
    b := b + (CATCH_ALL + "\n");
    JoinedOne(CATCH_ALL);
    JoinedAppend(head + RuleLines(routes), [CATCH_ALL]);
  }

  // ----- reading it back ------------------------------------------------------------

  function After(prefix: string, s: string): Option<string> {
    if prefix <= s then Some(s[|prefix|..]) else None
  }

  /** The ingress rules of a config, top to bottom, up to the catch-all. */
  function ReadRules(lines: seq<string>): seq<Route> {
    if |lines| < 2 then []
    else
      match (After(HOST_KEY, lines[0]), After(SERVICE_KEY, lines[1]))
      case (Some(host), Some(service)) => [Route(host, service)] + ReadRules(lines[2..])
      case _ => []
  }

  function ReadConfig(text: string): seq<Route> {
    var lines := Lines(text);
    if |lines| < 3 then [] else ReadRules(lines[3..])
  }

  predicate OneLineRoutes(routes: seq<Route>) {
    forall r | r in routes :: OneLine(r.hostname) && OneLine(r.service)
  }

  lemma {:induction false} RulesReadBack(routes: seq<Route>)
    requires OneLineRoutes(routes)
    ensures ReadRules(RuleLines(routes) + [CATCH_ALL, ""]) == routes
    ensures forall l | l in RuleLines(routes) :: OneLine(l)
  {
    if routes != [] {
      RulesReadBack(routes[1..]);
      hide HOST_KEY, SERVICE_KEY, CATCH_ALL;
      var lines := RuleLines(routes) + [CATCH_ALL, ""];
      assert lines[0] == HOST_KEY + routes[0].hostname && lines[1] == SERVICE_KEY + routes[0].service;
      assert lines[2..] == RuleLines(routes[1..]) + [CATCH_ALL, ""];
      AfterKey(HOST_KEY, routes[0].hostname);
      AfterKey(SERVICE_KEY, routes[0].service);
      assert OneLineRoutes(routes[1..]) && [routes[0]] + routes[1..] == routes;
      KeysAreOneLine();
      forall l | l in RuleLines(routes) ensures OneLine(l) {
        assert l in RuleLines(routes[1..]) || l == HOST_KEY + routes[0].hostname || l == SERVICE_KEY + routes[0].service;
      }
    }
  }

  lemma AfterKey(key: string, s: string)
    ensures After(key, key + s) == Some(s)
  {
  }

  lemma KeysAreOneLine()
    ensures OneLine(HOST_KEY) && OneLine(SERVICE_KEY) && OneLine(CATCH_ALL)
    ensures OneLine("tunnel: ") && OneLine("credentials-file: ") && OneLine("ingress:")
  {
  }

  /** Rendering loses nothing: rules come back in order, the catch-all last. */
  lemma RenderedReadsBack(tunnelID: string, credsFile: string, routes: seq<Route>)
    requires OneLine(tunnelID) && OneLine(credsFile) && OneLineRoutes(routes)
    ensures ReadConfig(Joined(ConfigLines(tunnelID, credsFile, routes))) == routes
  {
    RulesReadBack(routes);
    KeysAreOneLine();
    hide HOST_KEY, SERVICE_KEY, CATCH_ALL;
    var lines := ConfigLines(tunnelID, credsFile, routes);
    LinesOfJoined(lines);
    assert (lines + [""])[3..] == RuleLines(routes) + [CATCH_ALL, ""];
  }

  lemma {:induction false} RuleText(routes: seq<Route>)
    ensures Joined(RuleLines(routes)) ==
            if routes == [] then ""
            else "  - hostname: " + routes[0].hostname + "\n    service: " + routes[0].service + "\n" + Joined(RuleLines(routes[1..]))
  {
    if routes != [] {
      var key, rest := "    service: " + routes[0].service, RuleLines(routes[1..]);
      var host := "  - hostname: " + routes[0].hostname;
      JoinedAppend([host, key], rest);
      JoinedTwo(host, key);
      assert RuleLines(routes) == [host, key] + rest;
      assert host + "\n" + key + "\n" == "  - hostname: " + routes[0].hostname + "\n    service: " + routes[0].service + "\n";
    }
  }

  /** The text itself: three lines of head, two a rule, and the catch-all. */
  lemma ConfigText(tunnelID: string, credsFile: string, routes: seq<Route>)
    ensures Joined(ConfigLines(tunnelID, credsFile, routes)) ==
            "tunnel: " + tunnelID + "\ncredentials-file: " + credsFile + "\ningress:\n"
            + Joined(RuleLines(routes)) + "  - service: http_status:404\n"
  {
    var head, rules := HeadLines(tunnelID, credsFile), RuleLines(routes);
    JoinedAppend(head + rules, [CATCH_ALL]);
    JoinedAppend(head, rules);
    JoinedOne(CATCH_ALL);
    JoinedAppend(["tunnel: " + tunnelID, "credentials-file: " + credsFile], ["ingress:"]);
    JoinedTwo("tunnel: " + tunnelID, "credentials-file: " + credsFile);
    JoinedOne("ingress:");
    assert head == ["tunnel: " + tunnelID, "credentials-file: " + credsFile] + ["ingress:"];
    Spelled(tunnelID, credsFile);
    assert CATCH_ALL + "\n" == "  - service: http_status:404\n";
    hide Joined, CATCH_ALL, ConfigLines;
  }

  lemma Spelled(a: string, b: string)
    ensures "tunnel: " + a + "\n" + ("credentials-file: " + b) + "\n" + ("ingress:" + "\n")
            == "tunnel: " + a + "\ncredentials-file: " + b + "\ningress:\n"
  {
  }
}
