// The order of a request's steps: where each may go, by whether its call succeeds.

module ProtocolFlow {
  import opened Common
  import opened Tables
  import opened Protocol
  import opened ProtocolInv
  import opened ProtocolSteps

  /** Where appConfig leads. */
  function AfterLoad(kind: Kind): set<Pc> {
    if kind.Scale? then {Upsert} else {FindRelease}
  }

  /** Where a request can be after its step; {}: its call failed or it is through. */
  function After(op: Op, ok: bool): set<Pc> {
    match op.pc
    case Load => {LoadStored} + AfterLoad(op.kind)
    case LoadStored => if ok then {LoadCached} else {}
    case LoadCached => AfterLoad(op.kind)
    case Upsert => if ok then {CacheCfg} else {}
    case CacheCfg => if op.kind.Scale? then {FindRelease} else {Build}
    case Build => if ok then {AddRelease} else {}
    case AddRelease => if !ok then {} else if op.cfg.releaseCommand != "" then {RelSubnet} else {Subnet}
    case FindRelease => if ok then {Subnet} else {}
    case RelSubnet => if ok then {RelInsert} else {}
    case RelInsert => if ok then {RelStart} else {}
    case RelStart => if ok then {RelWait} else {RelDelete}
    case RelWait => {RelStop}
    case RelStop => {RelDelete}
    case RelDelete => if op.gate then {Subnet} else {}
    case Subnet => if ok then {Insert} else {}
    case Insert => if ok then {Start} else {}
    case Start => if ok then {SetHandle} else {FailState}
    case SetHandle => {Await}
    case Await => if ok then {Mark} else {StopNew}
    case Mark => if ok then {Spawn} else {}
    case Spawn => {ListOld}
    case StopNew => {ForgetNew}
    case ForgetNew => {FailState}
    case FailState => {FailDelete}
    case FailDelete => {}
    case ListOld => if ok then {StopNext, Announce} else {}
    case ListAll => if ok then {StopNext, DropReleases} else {}
    case StopNext => {DropNext}
    case DropNext => if ok then {ForgetNext} else {}
    case ForgetNext => if op.kind.Destroy? then {StopNext, DropReleases} else {StopNext, Announce}
    case Announce => {ApplyTunnel}
    case SetOwner => {}
    case DropReleases => if ok then {DropApp} else {}
    case DropApp => if ok then {DropCache} else {}
    case DropCache => {RemoveFiles}
    case RemoveFiles => if ok then {ApplyTunnel} else {}
    case ApplyTunnel => {}
  }

  /** A request keeps its kind and moves as `After` says. */
  ghost predicate Moved(s: State, t: State, a: string, c: Choice)
    requires a in s.ops
  {
    a in t.ops ==> t.ops[a].kind == s.ops[a].kind && t.ops[a].pc in After(s.ops[a], c.ok)
  }

  lemma FollowsConfig(s: State, a: string, c: Choice)
    requires OpEnabled(s, a, c) && ConfigPc(s.ops[a].pc) && KindOk(s.ops[a])
    ensures Moved(s, OpStep(s, a, c), a, c)
  {
    hide UpsertApp, InsertRelease, LatestRelease, OpOwes, Scaled;
  }

  lemma FollowsRows(s: State, a: string, c: Choice)
    requires OpEnabled(s, a, c) && NoMachine(s.ops[a].pc) && !ConfigPc(s.ops[a].pc)
    ensures Moved(s, OpStep(s, a, c), a, c)
  {
    hide SubnetForOwner, AllocAndInsertMachine, OpOwes;
  }

  lemma FollowsRelease(s: State, a: string, c: Choice)
    requires OpEnabled(s, a, c) && RelOwn(s.ops[a].pc)
    ensures Moved(s, OpStep(s, a, c), a, c)
  {
    hide DeleteMachine, OpOwes, Passed;
  }

  predicate Undoing(pc: Pc) {
    pc.StopNew? || pc.ForgetNew? || pc.FailState? || pc.FailDelete?
  }

  lemma FollowsBoot(s: State, a: string, c: Choice)
    requires OpEnabled(s, a, c) && (BootOwn(s.ops[a].pc) || s.ops[a].pc.Spawn?) && !Undoing(s.ops[a].pc)
    ensures Moved(s, OpStep(s, a, c), a, c)
  {
    hide SetMachineState, OpOwes;
  }

  lemma FollowsUndoing(s: State, a: string, c: Choice)
    requires OpEnabled(s, a, c) && Undoing(s.ops[a].pc)
    ensures Moved(s, OpStep(s, a, c), a, c)
  {
    hide DeleteMachine, SetMachineState, OpOwes;
  }

  lemma FollowsLate(s: State, a: string, c: Choice)
    requires OpEnabled(s, a, c) && KindOk(s.ops[a])
    requires !NoMachine(s.ops[a].pc) && !RelOwn(s.ops[a].pc) && !BootOwn(s.ops[a].pc) && !s.ops[a].pc.Spawn?
    ensures Moved(s, OpStep(s, a, c), a, c)
  {
    hide DeleteMachine, MachinesOf, DeleteApp, DeleteReleasesForApp, SetAppOwner, OpOwes;
  }

  lemma OpFollows(s: State, a: string, c: Choice)
    requires OpEnabled(s, a, c) && KindOk(s.ops[a])
    ensures Moved(s, OpStep(s, a, c), a, c)
  {
    hide OpStep, Moved, KindOk;
    var pc := s.ops[a].pc;
    if ConfigPc(pc) { FollowsConfig(s, a, c); }
    else if NoMachine(pc) { FollowsRows(s, a, c); }
    else if RelOwn(pc) { FollowsRelease(s, a, c); }
    else if Undoing(pc) { FollowsUndoing(s, a, c); }
    else if BootOwn(pc) || pc.Spawn? { FollowsBoot(s, a, c); }
    else { FollowsLate(s, a, c); }
  }

  predicate Begins(e: Event, a: string) {
    e.EBegin? && e.app == a
  }
}
