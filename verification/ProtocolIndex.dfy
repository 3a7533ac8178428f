// Which tenant a machine's address belongs to, over every run.

module ProtocolIndex {
  import opened Common
  import opened Tables
  import opened Protocol
  import opened ProtocolInv
  import opened ProtocolSteps
  import opened ProtocolRuns
  import opened ProtocolTheorems
  import opened ProtocolCutover
  import StoreLemmas

  // ----- which owner a machine's subnet was looked up for ----------------------------------

  /** What an observer of the run writes down: the owner each app had when its
      request last resolved its subnet, and that owner for each machine inserted. */
  datatype Book = Book(asked: map<string, string>, tenant: map<MachineId, string>)

  ghost function Note(b: Book, s: State, e: Event): Book {
    if !e.EOp? || e.app !in s.ops then b
    else
      var pc := s.ops[e.app].pc;
      if (pc.RelSubnet? || pc.Subnet?) && e.app in s.db.apps then b.(asked := b.asked[e.app := s.db.apps[e.app].owner])
      else if InsertPc(pc) && e.app in b.asked then b.(tenant := b.tenant[e.c.id := b.asked[e.app]])
      else b
  }

  ghost function Noted(b: Book, s: State, es: seq<Event>): Book
    requires ValidRun(s, es)
    decreases es
  {
    if es == [] then b else Noted(Note(b, s, es[0]), Next(s, es[0]), es[1..])
  }

  const BLANK: Book := Book(map[], map[])

  /** `idx` is the subnet of `tenant`, who is the app's recorded owner, or "" from
      before it was recorded. */
  predicate IndexFits(db: Db, app: string, tenant: string, idx: nat) {
    && app in db.apps && (tenant == "" || tenant == db.apps[app].owner)
    && tenant in db.subnets && db.subnets[tenant] == idx
  }

  ghost predicate IndexOk(b: Book, s: State) {
    && (forall id | id in s.db.machines ::
          id in b.tenant && IndexFits(s.db, s.db.machines[id].app, b.tenant[id], IndexOf(s.db.machines[id].ip)))
    && (forall a | a in s.ops && InsertPc(s.ops[a].pc) :: a in b.asked && IndexFits(s.db, a, b.asked[a], s.ops[a].idx))
  }

  /** Owners change once, from "", and indexes never; only `gone`, if it is an app
      deleted in this step, loses its row. */
  ghost predicate Fits(s: State, t: State, gone: Option<string>) {
    forall app, o, i | IndexFits(s.db, app, o, i) && Some(app) != gone :: IndexFits(t.db, app, o, i)
  }

  ghost predicate IndexMove(s: State, t: State, a: string, c: Choice)
    requires a in s.ops
  {
    && Fits(s, t, if s.ops[a].pc.DropApp? then Some(a) else None)
    && (forall id | id in t.db.machines ::
          || (id in s.db.machines && t.db.machines[id].app == s.db.machines[id].app && t.db.machines[id].ip == s.db.machines[id].ip)
          || (InsertPc(s.ops[a].pc) && id == c.id && t.db.machines[id].app == a && IndexOf(t.db.machines[id].ip) == s.ops[a].idx))
    && (a in t.ops && InsertPc(t.ops[a].pc) ==>
          && (s.ops[a].pc.RelSubnet? || s.ops[a].pc.Subnet?) && a in s.db.apps
          && IndexFits(t.db, a, s.db.apps[a].owner, t.ops[a].idx))
  }

  lemma ConfigIndex(s: State, a: string, c: Choice)
    requires OpEnabled(s, a, c) && ConfigPc(s.ops[a].pc) && DbOk(s.db)
    ensures IndexMove(s, OpStep(s, a, c), a, c)
  {
    hide OpOwes, Scaled, LatestRelease, MaxKey, MachinesOk, ReleasesOk;
  }

  lemma SubnetIndex(s: State, a: string, c: Choice)
    requires OpEnabled(s, a, c) && (s.ops[a].pc.RelSubnet? || s.ops[a].pc.Subnet?) && DbOk(s.db)
    ensures IndexMove(s, OpStep(s, a, c), a, c)
  {
    hide OpOwes, LeastIndexFrom, MachinesOk, ReleasesOk;
  }

  lemma InsertIndex(s: State, a: string, c: Choice)
    requires OpEnabled(s, a, c) && InsertPc(s.ops[a].pc) && DbOk(s.db) && s.ops[a].idx <= SUBNET_MAX
    ensures IndexMove(s, OpStep(s, a, c), a, c)
  {
    StoreLemmas.AllocAndInsertKeeps(s.db, c.id, a, s.ops[a].rel, s.ops[a].idx);
    var r := AllocAndInsertMachine(s.db, c.id, a, s.ops[a].rel, s.ops[a].idx);
    assert r.Some? ==> r.value.0.machines[c.id].app == a;
    hide OpOwes, FreeIp, DbOk, IndexOf, AllocAndInsertMachine;
    var t := OpStep(s, a, c);
    assert t.db == if c.ok && r.Some? then r.value.0 else s.db;
    assert a in t.ops ==> !InsertPc(t.ops[a].pc);
    hide OpStep;
  }

  /** No app, owner or subnet changes, no row is new and no address is another. */
  ghost predicate QuietRows(db: Db, db': Db) {
    && db'.apps == db.apps && db'.subnets == db.subnets
    && forall id | id in db'.machines ::
         id in db.machines && db'.machines[id].app == db.machines[id].app && db'.machines[id].ip == db.machines[id].ip
  }

  lemma QuietIndex(s: State, t: State, a: string, c: Choice)
    requires a in s.ops && QuietRows(s.db, t.db) && (a in t.ops ==> !InsertPc(t.ops[a].pc))
    ensures IndexMove(s, t, a, c)
  {
    hide IndexOf;
  }

  lemma ReleaseIndex(s: State, a: string, c: Choice)
    requires OpEnabled(s, a, c) && RelOwn(s.ops[a].pc)
    ensures IndexMove(s, OpStep(s, a, c), a, c)
  {
    hide OpOwes, IndexMove;
    var t := OpStep(s, a, c);
    assert QuietRows(s.db, t.db) && (a in t.ops ==> !InsertPc(t.ops[a].pc));
    hide OpStep;
    QuietIndex(s, t, a, c);
  }

  lemma StartIndex(s: State, a: string, c: Choice)
    requires OpEnabled(s, a, c)
    requires s.ops[a].pc.Start? || s.ops[a].pc.SetHandle? || s.ops[a].pc.Await? || s.ops[a].pc.Mark? || s.ops[a].pc.Spawn?
    ensures IndexMove(s, OpStep(s, a, c), a, c)
  {
    hide OpOwes, IndexMove;
    var t := OpStep(s, a, c);
    assert QuietRows(s.db, t.db) && (a in t.ops ==> !InsertPc(t.ops[a].pc));
    hide OpStep;
    QuietIndex(s, t, a, c);
  }

  lemma FailIndex(s: State, a: string, c: Choice)
    requires OpEnabled(s, a, c)
    requires s.ops[a].pc.StopNew? || s.ops[a].pc.ForgetNew? || s.ops[a].pc.FailState? || s.ops[a].pc.FailDelete?
    ensures IndexMove(s, OpStep(s, a, c), a, c)
  {
    hide OpOwes, IndexMove;
    var t := OpStep(s, a, c);
    assert QuietRows(s.db, t.db) && (a in t.ops ==> !InsertPc(t.ops[a].pc));
    hide OpStep;
    QuietIndex(s, t, a, c);
  }

  lemma LateIndex(s: State, a: string, c: Choice)
    requires OpEnabled(s, a, c) && !NoMachine(s.ops[a].pc) && !Holds(s.ops[a].pc) && !s.ops[a].pc.Spawn? && DbOk(s.db)
    ensures IndexMove(s, OpStep(s, a, c), a, c)
  {
    hide OpStep, IndexMove, DbOk;
    if s.ops[a].pc.SetOwner? || s.ops[a].pc.DropApp? { AppIndex(s, a, c); } else { RowsIndex(s, a, c); }
  }

  lemma AppIndex(s: State, a: string, c: Choice)
    requires OpEnabled(s, a, c) && (s.ops[a].pc.SetOwner? || s.ops[a].pc.DropApp?) && DbOk(s.db)
    ensures IndexMove(s, OpStep(s, a, c), a, c)
  {
    hide OpOwes, MachinesOk, ReleasesOk;
  }

  lemma RowsIndex(s: State, a: string, c: Choice)
    requires OpEnabled(s, a, c) && !NoMachine(s.ops[a].pc) && !Holds(s.ops[a].pc) && !s.ops[a].pc.Spawn?
    requires !s.ops[a].pc.SetOwner? && !s.ops[a].pc.DropApp?
    ensures IndexMove(s, OpStep(s, a, c), a, c)
  {
    hide OpOwes, IndexMove;
    var t := OpStep(s, a, c);
    assert QuietRows(s.db, t.db) && (a in t.ops ==> !InsertPc(t.ops[a].pc));
    hide OpStep;
    QuietIndex(s, t, a, c);
  }

  lemma OpIndex(s: State, a: string, c: Choice)
    requires Inv(s) && OpEnabled(s, a, c)
    ensures IndexMove(s, OpStep(s, a, c), a, c)
  {
    hide Inv, OpStep, IndexMove, DbOk, OwnOk, LoopOk, GoneOk;
    InOp(s, a);
    var pc := s.ops[a].pc;
    if ConfigPc(pc) { ConfigIndex(s, a, c); }
    else if pc.RelSubnet? || pc.Subnet? { SubnetIndex(s, a, c); }
    else if InsertPc(pc) { InsertIndex(s, a, c); }
    else if RelOwn(pc) { ReleaseIndex(s, a, c); }
    else if pc.StopNew? || pc.ForgetNew? || pc.FailState? || pc.FailDelete? { FailIndex(s, a, c); }
    else if BootOwn(pc) || pc.Spawn? { StartIndex(s, a, c); }
    else { LateIndex(s, a, c); }
  }

  lemma OpKeepsIndex(b: Book, s: State, a: string, c: Choice)
    requires Inv(s) && OpEnabled(s, a, c) && IndexOk(b, s)
    ensures IndexOk(Note(b, s, EOp(a, c)), OpStep(s, a, c))
  {
    hide Inv, OpStep, IndexFits, OwnOk, GoneOk, DbOk;
    var t, n := OpStep(s, a, c), Note(b, s, EOp(a, c));
    InOp(s, a);
    OpIndex(s, a, c);
    OpStepFrame(s, a, c);
    NotWhileDropping(s, a);
    if InsertPc(s.ops[a].pc) { FreshRow(s, a, c); }
    forall id | id in t.db.machines
      ensures id in n.tenant && IndexFits(t.db, t.db.machines[id].app, n.tenant[id], IndexOf(t.db.machines[id].ip))
    {
      if id in s.db.machines { assert s.ops[a].pc.DropApp? ==> s.db.machines[id].app != a; }
    }
  }

  lemma FreshRow(s: State, a: string, c: Choice)
    requires Inv(s) && OpEnabled(s, a, c) && InsertPc(s.ops[a].pc)
    ensures c.id !in s.db.machines
  {
    hide Inv;
    AnId(s, c.id);
  }

  lemma NotWhileDropping(s: State, a: string)
    requires a in s.ops
    ensures s.ops[a].pc.DropApp? ==> !InsertPc(s.ops[a].pc)
  {
  }

  /** Every other step leaves apps and subnets alone, or adds a subnet, and adds no row. */
  lemma OtherKeepsIndex(b: Book, s: State, t: State)
    requires IndexOk(b, s) && t.db.apps == s.db.apps
    requires forall o | o in s.db.subnets :: o in t.db.subnets && t.db.subnets[o] == s.db.subnets[o]
    requires forall id | id in t.db.machines ::
               id in s.db.machines && t.db.machines[id].app == s.db.machines[id].app && t.db.machines[id].ip == s.db.machines[id].ip
    requires forall a | a in t.ops && InsertPc(t.ops[a].pc) :: a in s.ops && t.ops[a] == s.ops[a]
    ensures IndexOk(b, t)
  {
    hide InsertPc;
    assert forall app, o, i | IndexFits(s.db, app, o, i) :: IndexFits(t.db, app, o, i);
  }

  /** Reconcile adds no row and no app; it may give an owner its subnet. */
  ghost predicate SameTenants(s: State, t: State) {
    && t.db.apps == s.db.apps && t.ops == s.ops
    && (forall o | o in s.db.subnets :: o in t.db.subnets && t.db.subnets[o] == s.db.subnets[o])
    && (forall id | id in t.db.machines ::
          id in s.db.machines && t.db.machines[id].app == s.db.machines[id].app && t.db.machines[id].ip == s.db.machines[id].ip)
  }

  lemma ReconcileTenants(s: State, c: Choice)
    requires ReconcileEnabled(s, c)
    ensures SameTenants(s, ReconcileStep(s, c))
  {
    hide LeastIndexFrom;
    if s.mode.rpc.RMark? || s.mode.rpc.RFail? {
      hide SubnetForOwner;
    } else {
      hide SetMachineState;
    }
  }

  lemma ReconcileKeepsIndex(b: Book, s: State, c: Choice)
    requires ReconcileEnabled(s, c) && IndexOk(b, s)
    ensures IndexOk(b, ReconcileStep(s, c))
  {
    ReconcileTenants(s, c);
    hide ReconcileStep, IndexOk;
    OtherKeepsIndex(b, s, ReconcileStep(s, c));
  }

  lemma WatchKeepsIndex(b: Book, s: State, id: MachineId, c: Choice)
    requires WatchEnabled(s, id) && IndexOk(b, s)
    ensures IndexOk(b, WatchStep(s, id, c))
  {
    hide IndexFits, IndexOk;
    OtherKeepsIndex(b, s, WatchStep(s, id, c));
  }

  lemma TunnelKeepsIndex(b: Book, s: State, c: Choice)
    requires TunnelEnabled(s) && AtApply(s, s.tun.who) && IndexOk(b, s)
    ensures IndexOk(b, TunnelStep(s, c))
  {
    TunnelRows(s, c);
    hide TunnelStep, IndexOk;
    OtherKeepsIndex(b, s, TunnelStep(s, c));
  }

  lemma RestKeepsIndex(b: Book, s: State, e: Event)
    requires Enabled(s, e) && IndexOk(b, s)
    requires e.EBegin? || e.EAcquire? || e.EExit? || e.EBeginStop? || e.EStopAll? || e.EReboot?
    ensures IndexOk(b, Next(s, e))
  {
    hide IndexOk;
    OtherKeepsIndex(b, s, Next(s, e));
  }

  lemma StepKeepsIndex(b: Book, s: State, e: Event)
    requires Inv(s) && HolderOk(s) && Enabled(s, e) && IndexOk(b, s)
    ensures IndexOk(Note(b, s, e), Next(s, e))
  {
    hide Inv, HolderOk, IndexOk, OpStep, WatchStep, ReconcileStep, TunnelStep;
    match e
    case EOp(a, c) => OpKeepsIndex(b, s, a, c);
    case EWatch(id, c) => WatchKeepsIndex(b, s, id, c);
    case EReconcile(c) => ReconcileKeepsIndex(b, s, c);
    case ETunnel(c) => HeldAtApply(s); TunnelKeepsIndex(b, s, c);
    case _ => RestKeepsIndex(b, s, e);
  }

  lemma StartsOk()
    ensures Inv(INIT) && HolderOk(INIT) && IndexOk(BLANK, INIT)
  {
    InitOk();
  }

  /** In every reachable state a machine sits in the subnet of the owner its app
      had when that subnet was resolved; that is the owner the app has now, or ""
      with the admin subnet. So its subnet is its app's owner's if and only if that
      owner was recorded by then, and OwnerForSubnet names it from the address. */
  lemma {:induction false} AddressesNameTheOwner(b: Book, s: State, es: seq<Event>)
    requires Inv(s) && HolderOk(s) && IndexOk(b, s) && ValidRun(s, es)
    ensures var t, n := Exec(s, es), Noted(b, s, es);
            DbOk(t.db) && forall id | id in t.db.machines ::
              var m := t.db.machines[id];
              && m.app in t.db.apps && id in n.tenant
              && OwnerForSubnet(t.db, IndexOf(m.ip)) == Some(n.tenant[id])
              && (n.tenant[id] == "" || n.tenant[id] == t.db.apps[m.app].owner)
              && (InOwnersSubnet(t.db, m) <==> n.tenant[id] == t.db.apps[m.app].owner)
    decreases es
  {
    hide Inv, HolderOk, IndexOk, DbOk, Note, InOwnersSubnet;
    if es == [] {
      NowNamed(b, s);
      assert Exec(s, es) == s;
    } else {
      StepKeeps(s, es[0]);
      StepKeepsIndex(b, s, es[0]);
      AddressesNameTheOwner(Note(b, s, es[0]), Next(s, es[0]), es[1..]);
      assert Exec(s, es) == Exec(Next(s, es[0]), es[1..]);
    }
  }

  /** The machine's address is in its app's owner's subnet. */
  predicate InOwnersSubnet(db: Db, m: Machine)
    requires m.app in db.apps
  {
    var o := db.apps[m.app].owner;
    o in db.subnets && db.subnets[o] == IndexOf(m.ip)
  }

  lemma NowNamed(b: Book, s: State)
    requires Inv(s) && IndexOk(b, s)
    ensures DbOk(s.db) && forall id | id in s.db.machines ::
              var m := s.db.machines[id];
              && m.app in s.db.apps && id in b.tenant
              && OwnerForSubnet(s.db, IndexOf(m.ip)) == Some(b.tenant[id])
              && (b.tenant[id] == "" || b.tenant[id] == s.db.apps[m.app].owner)
              && (InOwnersSubnet(s.db, m) <==> b.tenant[id] == s.db.apps[m.app].owner)
  {
    InvDb(s);
    hide Inv, MachinesOk;
  }
}
