// What ends up in cloudflared's config: one rule per running machine and
// hostname, newest machine first, and the text Render produces from them.

module Tunnel {
  import opened Common
  import opened AppConfig
  import opened Tables
  import opened Text

  datatype Route = Route(hostname: string, service: string)

  /** The columns of a running row that the ingress depends on. */
  datatype LiveRow = LiveRow(app: string, ip: nat, stamp: nat)

  function LiveOf(db: Db): map<MachineId, LiveRow> {
    map id | id in db.machines && db.machines[id].state == Running ::
      LiveRow(db.machines[id].app, db.machines[id].ip, db.machines[id].stamp)
  }

  function Dotted(ip: nat): string {
    Decimal(ip / 0x100_0000) + "." + Decimal(ip / 0x1_0000 % 256) + "." + Decimal(ip / 256 % 256) + "." + Decimal(ip % 256)
  }

  function LiveStamp(row: LiveRow): nat {
    row.stamp
  }

  /** RunningMachines, as applyTunnel lists it. */
  ghost function RunningList(live: map<MachineId, LiveRow>): seq<LiveRow> {
    NewestFirst(live, LiveStamp)
  }

  function DefaultHost(domain: string, app: string): string {
    app + "." + domain
  }

  function Service(row: LiveRow, cfg: Config): string
    requires cfg.ports != []
  {
    "http://" + Dotted(row.ip) + ":" + Decimal(cfg.ports[0])
  }

  /** The rules of one running machine: none without a declared service. */
  function RowRoutes(domain: string, row: LiveRow, cfg: Config): seq<Route> {
    if cfg.ports == [] then []
    else
      [Route(DefaultHost(domain, row.app), Service(row, cfg))]
      + seq(|cfg.domains|, i requires 0 <= i < |cfg.domains| => Route(cfg.domains[i], Service(row, cfg)))
  }

  /** What the file was last rendered from: the rows listed, and each one's config. */
  datatype Ingress = Ingress(rows: seq<LiveRow>, cfgs: seq<Config>)

  function Routes(domain: string, rows: seq<LiveRow>, cfgs: seq<Config>): seq<Route> {
    if rows == [] || cfgs == [] then []
    else RowRoutes(domain, rows[0], cfgs[0]) + Routes(domain, rows[1..], cfgs[1..])
  }
}
