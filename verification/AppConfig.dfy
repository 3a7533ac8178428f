// The decoded per-app configuration (internal/appconfig/appconfig.go) and the
// handful of small types every component shares.

module Common {
  datatype Option<+T> = None | Some(value: T)

  /** A 12-hex-character machine id, read as a number; only equality matters. */
  type MachineId = nat

  /** A host process id. Rows store 0 (SQL NULL) when there is none. */
  type Pid = nat
}

module AppConfig {
  /** The fields of oak.toml that decide something outside the guest. The JSON
      text stored in apps.config is identified with the value it decodes to. */
  datatype Config = Config(
    env: map<string, string>,
    ports: seq<nat>,            // [[services]] internal_port, in order
    domains: seq<string>,
    memoryMB: nat,
    cpus: nat,
    releaseCommand: string
  )

  /** Scale: 0 leaves a size as it is. */
  function Resized(was: Config, memoryMB: nat, cpus: nat): Config {
    was.(memoryMB := if memoryMB != 0 then memoryMB else was.memoryMB, cpus := if cpus != 0 then cpus else was.cpus)
  }

  /** Each size is the one asked for, or as it was for 0; nothing else differs. */
  predicate Sized(was: Config, memoryMB: nat, cpus: nat, now: Config) {
    && (memoryMB != 0 ==> now.memoryMB == memoryMB) && (memoryMB == 0 ==> now.memoryMB == was.memoryMB)
    && (cpus != 0 ==> now.cpus == cpus) && (cpus == 0 ==> now.cpus == was.cpus)
    && now.env == was.env && now.ports == was.ports && now.domains == was.domains && now.releaseCommand == was.releaseCommand
  }
}
