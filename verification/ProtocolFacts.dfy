// What a request has stored by the time it boots, what its machine runs, and whose
// the app is when a Deploy has finished.

module ProtocolFacts {
  import opened Common
  import opened AppConfig
  import opened Tables
  import opened Tunnel
  import opened Protocol
  import opened ProtocolInv
  import opened ProtocolSteps
  import opened ProtocolRuns
  import opened ProtocolFlow
  import opened ProtocolTheorems
  import opened ProtocolGates
  import opened ProtocolDestroy
  import StoreLemmas

  // ----- one request ------------------------------------------------------------------

  /** Past UpsertApp the stored configuration is the request's; past the release
      the request's is the app's latest; and its machine's row names that release. */
  ghost predicate FactOk(db: Db, a: string, op: Op) {
    && (op.kind.Deploy? ==> op.cfg == op.kind.config)
    && ((op.kind.Deploy? || op.kind.Scale?) && Rank(op.pc) > 2 ==> a in db.apps && db.apps[a].config == op.cfg)
    && (!op.kind.Destroy? && Rank(op.pc) > 5 ==>
          op.rel in db.releases && db.releases[op.rel].app == a && LatestRelease(db, a) == Some(op.rel))
    && ((RelOwn(op.pc) || BootOwn(op.pc) || Cutover(op)) && op.id in db.machines ==> db.machines[op.id].rel == op.rel)
  }

  /** App `x`'s row and releases are as they were. */
  ghost predicate AppKept(db: Db, db': Db, x: string) {
    && Same(db.apps, db'.apps, x)
    && ReleasesOf(db', x) == ReleasesOf(db, x)
    && forall r | r in ReleasesOf(db, x) :: db'.releases[r] == db.releases[r]
  }

  /** Rows keep their release; a new one gets the request's. */
  ghost predicate RelKept(s: State, t: State, a: string, c: Choice)
    requires a in s.ops
  {
    forall id | id in t.db.machines ::
      || (id in s.db.machines && t.db.machines[id].rel == s.db.machines[id].rel)
      || (InsertPc(s.ops[a].pc) && id == c.id && t.db.machines[id].rel == s.ops[a].rel)
  }

  lemma KeptFact(db: Db, db': Db, a: string, op: Op)
    requires FactOk(db, a, op) && AppKept(db, db', a)
    requires Holding(op) && op.id in db'.machines ==> op.id in db.machines && db'.machines[op.id].rel == db.machines[op.id].rel
    ensures FactOk(db', a, op)
  {
    hide Rank;
    assert op.rel in ReleasesOf(db, a) ==> op.rel in ReleasesOf(db', a);
  }

  // ----- its own steps ------------------------------------------------------------------

  predicate Holding(op: Op) {
    RelOwn(op.pc) || BootOwn(op.pc) || Cutover(op)
  }

  /** A step past the configuration and the release: neither changes any more, and
      a new machine is the one just inserted. */
  ghost predicate OnlyRows(s: State, t: State, a: string, c: Choice)
    requires a in s.ops
  {
    var op := s.ops[a];
    && t.db.apps == s.db.apps && t.db.releases == s.db.releases && RelKept(s, t, a, c)
    && (a in t.ops ==>
          var op' := t.ops[a];
          && op'.kind == op.kind && op'.cfg == op.cfg && op'.rel == op.rel
          && (Holding(op') ==> if InsertPc(op.pc) then op'.id == c.id else op'.id == op.id && Holding(op)))
  }

  lemma OnlyRowsKeeps(s: State, t: State, a: string, c: Choice)
    requires a in s.ops && FactOk(s.db, a, s.ops[a]) && OnlyRows(s, t, a, c) && !ConfigPc(s.ops[a].pc) && KindOk(s.ops[a])
    requires InsertPc(s.ops[a].pc) ==> c.id !in s.db.machines
    ensures a in t.ops ==> FactOk(t.db, a, t.ops[a])
  {
    var op := s.ops[a];
    assert op.kind.Destroy? || Rank(op.pc) > 5;
    assert LatestRelease(t.db, a) == LatestRelease(s.db, a) by { assert ReleasesOf(t.db, a) == ReleasesOf(s.db, a); }
    assert InsertPc(op.pc) ==> !Holding(op);
    hide Rank, LatestRelease, KindOk, ConfigPc, RelOwn, BootOwn, Cutover;
  }

  lemma SubnetOnlyRows(s: State, a: string, c: Choice)
    requires OpEnabled(s, a, c) && (s.ops[a].pc.RelSubnet? || s.ops[a].pc.Subnet?)
    ensures OnlyRows(s, OpStep(s, a, c), a, c)
  {
    hide OpOwes, SubnetForOwner, OnlyRows;
    if a in s.db.apps { OnlySubnets(s.db, s.db.apps[a].owner); }
    var op, t := s.ops[a], OpStep(s, a, c);
    assert t.db == s.db.(subnets := t.db.subnets);
    assert a in t.ops ==> t.ops[a] == op.(idx := t.ops[a].idx, pc := if op.pc.RelSubnet? then RelInsert else Insert);
    hide OpStep;
    NothingHeld(s, t, a, c);
  }

  lemma NothingHeld(s: State, t: State, a: string, c: Choice)
    requires a in s.ops && t.db.apps == s.db.apps && t.db.releases == s.db.releases && t.db.machines == s.db.machines
    requires a in t.ops ==> InsertPc(t.ops[a].pc) && t.ops[a] == s.ops[a].(idx := t.ops[a].idx, pc := t.ops[a].pc)
    ensures OnlyRows(s, t, a, c)
  {
  }

  lemma OnlySubnets(db: Db, owner: string)
    ensures var r := SubnetForOwner(db, owner); r.Some? ==> r.value.0 == db.(subnets := r.value.0.subnets)
  {
    hide LeastIndexFrom;
  }

  lemma InsertOnlyRows(s: State, a: string, c: Choice)
    requires OpEnabled(s, a, c) && InsertPc(s.ops[a].pc)
    ensures OnlyRows(s, OpStep(s, a, c), a, c)
  {
    hide OpOwes, AllocAndInsertMachine, OnlyRows;
    var op, t := s.ops[a], OpStep(s, a, c);
    var r := AllocAndInsertMachine(s.db, c.id, a, op.rel, op.idx);
    assert t.db == s.db || (r.Some? && t.db == r.value.0);
    assert a in t.ops ==> t.ops[a] == op.(id := c.id, pc := t.ops[a].pc);
    hide OpStep;
    RowInserted(s, t, a, c);
  }

  lemma RowInserted(s: State, t: State, a: string, c: Choice)
    requires a in s.ops && InsertPc(s.ops[a].pc)
    requires var r := AllocAndInsertMachine(s.db, c.id, a, s.ops[a].rel, s.ops[a].idx); t.db == s.db || (r.Some? && t.db == r.value.0)
    requires a in t.ops ==> t.ops[a] == s.ops[a].(id := c.id, pc := t.ops[a].pc)
    ensures OnlyRows(s, t, a, c)
  {
    hide FreeIp;
  }

  lemma ReleaseOnlyRows(s: State, a: string, c: Choice)
    requires OpEnabled(s, a, c) && RelOwn(s.ops[a].pc)
    ensures OnlyRows(s, OpStep(s, a, c), a, c)
  {
    hide OpOwes, Passed;
  }

  lemma StartOnlyRows(s: State, a: string, c: Choice)
    requires OpEnabled(s, a, c) && (s.ops[a].pc.Start? || s.ops[a].pc.SetHandle? || s.ops[a].pc.Await?)
    ensures OnlyRows(s, OpStep(s, a, c), a, c)
  {
    hide OpOwes;
  }

  lemma MarkOnlyRows(s: State, a: string, c: Choice)
    requires OpEnabled(s, a, c) && (s.ops[a].pc.Mark? || s.ops[a].pc.Spawn?) && KindOk(s.ops[a])
    ensures OnlyRows(s, OpStep(s, a, c), a, c)
  {
    hide OpOwes;
  }

  lemma UndoingOnlyRows(s: State, a: string, c: Choice)
    requires OpEnabled(s, a, c) && Undoing(s.ops[a].pc)
    ensures OnlyRows(s, OpStep(s, a, c), a, c)
  {
    hide OpOwes;
  }

  lemma LoopOnlyRows(s: State, a: string, c: Choice)
    requires OpEnabled(s, a, c) && Looping(s.ops[a].pc) && KindOk(s.ops[a])
    ensures OnlyRows(s, OpStep(s, a, c), a, c)
  {
    hide OpOwes, LoopPc, OnlyRows;
    var op, t := s.ops[a], OpStep(s, a, c);
    assert t.db == s.db || t.db == DeleteMachine(s.db, op.cur);
    assert a in t.ops ==> t.ops[a] == op.(todo := t.ops[a].todo, cur := t.ops[a].cur, pc := t.ops[a].pc);
    assert a in t.ops ==> Looping(t.ops[a].pc) || t.ops[a].pc == LoopPc(op);
    hide OpStep;
    LoopGoesOn(s, t, a, c);
  }

  lemma LoopGoesOn(s: State, t: State, a: string, c: Choice)
    requires a in s.ops && Looping(s.ops[a].pc) && (t.db == s.db || t.db == DeleteMachine(s.db, s.ops[a].cur))
    requires a in t.ops ==> t.ops[a] == s.ops[a].(todo := t.ops[a].todo, cur := t.ops[a].cur, pc := t.ops[a].pc)
    requires a in t.ops ==> Looping(t.ops[a].pc) || t.ops[a].pc == LoopPc(s.ops[a])
    ensures OnlyRows(s, t, a, c)
  {
  }

  lemma ListOnlyRows(s: State, a: string, c: Choice)
    requires OpEnabled(s, a, c) && (s.ops[a].pc.ListOld? || s.ops[a].pc.Announce?) && KindOk(s.ops[a])
    ensures OnlyRows(s, OpStep(s, a, c), a, c)
  {
    hide OpOwes, MachinesOf;
  }

  lemma StepOnlyRows(s: State, a: string, c: Choice)
    requires OpEnabled(s, a, c) && KindOk(s.ops[a]) && !ConfigPc(s.ops[a].pc) && !Ending(s.ops[a].pc)
    ensures OnlyRows(s, OpStep(s, a, c), a, c)
  {
    hide OpStep, OnlyRows;
    var pc := s.ops[a].pc;
    if InsertPc(pc) { InsertOnlyRows(s, a, c); }
    else if NoMachine(pc) { SubnetOnlyRows(s, a, c); }
    else if RelOwn(pc) { ReleaseOnlyRows(s, a, c); }
    else if Undoing(pc) { UndoingOnlyRows(s, a, c); }
    else if pc.Mark? || pc.Spawn? { MarkOnlyRows(s, a, c); }
    else if BootOwn(pc) { StartOnlyRows(s, a, c); }
    else if Looping(pc) { LoopOnlyRows(s, a, c); }
    else { ListOnlyRows(s, a, c); }
  }

  /** Destroy but for its loop, and the end of a Deploy. */
  predicate Ending(pc: Pc) {
    pc.ListAll? || pc.DropReleases? || pc.DropApp? || pc.DropCache? || pc.RemoveFiles? || pc.SetOwner? || pc.ApplyTunnel?
  }

  /** The rows are as they were, and so is everything of another app. */
  ghost predicate ElsewhereKept(s: State, t: State, a: string) {
    t.db.machines == s.db.machines && forall x | x != a :: AppKept(s.db, t.db, x)
  }

  lemma SameApps(s: State, t: State, a: string)
    requires t.db.machines == s.db.machines && t.db.releases == s.db.releases && forall x | x != a :: Same(s.db.apps, t.db.apps, x)
    ensures ElsewhereKept(s, t, a)
  {
    forall x ensures ReleasesOf(t.db, x) == ReleasesOf(s.db, x) { }
  }

  lemma OwnerStep(s: State, a: string, c: Choice)
    requires OpEnabled(s, a, c) && s.ops[a].pc.SetOwner?
    ensures ElsewhereKept(s, OpStep(s, a, c), a) && a !in OpStep(s, a, c).ops
  {
    hide OpOwes, ElsewhereKept;
    SameApps(s, OpStep(s, a, c), a);
  }

  lemma DropReleasesStep(s: State, a: string, c: Choice)
    requires OpEnabled(s, a, c) && s.ops[a].pc.DropReleases?
    ensures ElsewhereKept(s, OpStep(s, a, c), a)
  {
    hide OpOwes;
    var t := OpStep(s, a, c);
    assert t.db == s.db || t.db == DeleteReleasesForApp(s.db, a);
    hide OpStep;
    forall x | x != a ensures AppKept(s.db, t.db, x) { assert ReleasesOf(t.db, x) == ReleasesOf(s.db, x); }
  }

  lemma DropAppStep(s: State, a: string, c: Choice)
    requires OpEnabled(s, a, c) && s.ops[a].pc.DropApp?
    ensures ElsewhereKept(s, OpStep(s, a, c), a)
  {
    hide OpOwes, ElsewhereKept, ReleasesOf, MachinesOf;
    SameApps(s, OpStep(s, a, c), a);
  }

  lemma OtherEnding(s: State, a: string, c: Choice)
    requires OpEnabled(s, a, c) && (s.ops[a].pc.ListAll? || s.ops[a].pc.DropCache? || s.ops[a].pc.RemoveFiles?)
    ensures OpStep(s, a, c).db == s.db
  {
    hide OpOwes, MachinesOf;
  }

  lemma EndingFollows(op: Op, op': Op, ok: bool)
    requires Ending(op.pc) && KindOk(op) && op'.kind == op.kind && op'.pc in After(op, ok)
    ensures op'.kind.Destroy? && !Holding(op')
  {
  }

  lemma EndingStep(s: State, a: string, c: Choice)
    requires OpEnabled(s, a, c) && Ending(s.ops[a].pc) && KindOk(s.ops[a])
    ensures ElsewhereKept(s, OpStep(s, a, c), a)
    ensures a in OpStep(s, a, c).ops ==> OpStep(s, a, c).ops[a].kind.Destroy? && !Holding(OpStep(s, a, c).ops[a])
  {
    hide OpStep, ElsewhereKept, After, Holding, KindOk;
    OpFollows(s, a, c);
    if a in OpStep(s, a, c).ops { EndingFollows(s.ops[a], OpStep(s, a, c).ops[a], c.ok); }
    var pc, t := s.ops[a].pc, OpStep(s, a, c);
    if pc.SetOwner? { OwnerStep(s, a, c); }
    else if pc.DropReleases? { DropReleasesStep(s, a, c); }
    else if pc.DropApp? { DropAppStep(s, a, c); }
    else { OtherEnding(s, a, c); SameApps(s, t, a); }
  }

  lemma LoadFacts(s: State, a: string, c: Choice)
    requires OpEnabled(s, a, c) && KindOk(s.ops[a]) && OnPath(s.ops[a])
    requires s.ops[a].pc.Load? || s.ops[a].pc.LoadStored? || s.ops[a].pc.LoadCached?
    ensures OpStep(s, a, c).db == s.db
    ensures a in OpStep(s, a, c).ops ==> FactOk(s.db, a, OpStep(s, a, c).ops[a])
  {
    hide OpOwes, Scaled, LatestRelease;
  }

  lemma UpsertFacts(s: State, a: string, c: Choice)
    requires OpEnabled(s, a, c) && KindOk(s.ops[a]) && FactOk(s.db, a, s.ops[a]) && s.ops[a].pc.Upsert?
    ensures ElsewhereKept(s, OpStep(s, a, c), a)
    ensures a in OpStep(s, a, c).ops ==> FactOk(OpStep(s, a, c).db, a, OpStep(s, a, c).ops[a])
  {
    hide OpOwes, LatestRelease, ElsewhereKept;
    SameApps(s, OpStep(s, a, c), a);
  }

  lemma BuildFacts(s: State, a: string, c: Choice)
    requires OpEnabled(s, a, c) && KindOk(s.ops[a]) && FactOk(s.db, a, s.ops[a])
    requires s.ops[a].pc.CacheCfg? || s.ops[a].pc.Build?
    ensures OpStep(s, a, c).db == s.db
    ensures a in OpStep(s, a, c).ops ==> FactOk(s.db, a, OpStep(s, a, c).ops[a])
  {
    hide OpOwes, LatestRelease;
  }

  lemma ReleaseFacts(s: State, a: string, c: Choice)
    requires OpEnabled(s, a, c) && KindOk(s.ops[a]) && FactOk(s.db, a, s.ops[a]) && DbOk(s.db) && s.ops[a].pc.AddRelease?
    requires OnPath(s.ops[a])
    ensures ElsewhereKept(s, OpStep(s, a, c), a)
    ensures a in OpStep(s, a, c).ops ==> FactOk(OpStep(s, a, c).db, a, OpStep(s, a, c).ops[a])
  {
    var r := InsertRelease(s.db, Release(a, ""));
    StoreLemmas.InsertReleaseKeeps(s.db, Release(a, ""));
    InsertedElsewhere(s, a);
    hide OpOwes, LatestRelease, InsertRelease, DbOk, AppKept;
    var op, t := s.ops[a], OpStep(s, a, c);
    assert t.db == s.db || (r.Some? && t.db == r.value.0);
    assert a in t.ops ==> r.Some? && t.ops[a] == op.(rel := r.value.1, pc := t.ops[a].pc) && t.db == r.value.0;
    hide OpStep;
    if t.db == s.db { SameApps(s, t, a); }
  }

  lemma InsertedElsewhere(s: State, a: string)
    ensures var r := InsertRelease(s.db, Release(a, ""));
            r.Some? ==>
              && r.value.0.machines == s.db.machines && r.value.0.apps == s.db.apps
              && r.value.1 in r.value.0.releases && r.value.0.releases[r.value.1].app == a
              && forall x | x != a :: AppKept(s.db, r.value.0, x)
  {
    var r := InsertRelease(s.db, Release(a, ""));
    if r.Some? {
      assert r.value.1 !in s.db.releases;
      forall x | x != a ensures ReleasesOf(r.value.0, x) == ReleasesOf(s.db, x) { }
    }
  }

  lemma FindFacts(s: State, a: string, c: Choice)
    requires OpEnabled(s, a, c) && KindOk(s.ops[a]) && OnPath(s.ops[a]) && FactOk(s.db, a, s.ops[a])
    requires s.ops[a].pc.FindRelease?
    ensures OpStep(s, a, c).db == s.db
    ensures a in OpStep(s, a, c).ops ==> FactOk(s.db, a, OpStep(s, a, c).ops[a])
  {
    var r := LatestRelease(s.db, a);
    assert r.Some? ==> r.value in ReleasesOf(s.db, a);
    hide OpOwes, LatestRelease;
  }

  // ----- every step -----------------------------------------------------------------------

  ghost predicate Facts(s: State) {
    forall a | a in s.ops :: FactOk(s.db, a, s.ops[a])
  }

  lemma OwnFacts(s: State, a: string, c: Choice)
    requires Inv(s) && OpEnabled(s, a, c) && Paths(s) && FactOk(s.db, a, s.ops[a])
    ensures a in OpStep(s, a, c).ops ==> FactOk(OpStep(s, a, c).db, a, OpStep(s, a, c).ops[a])
  {
    hide Inv, OwnOk, LoopOk, GoneOk, OpStep, FactOk, DbOk, IdOk, KindOk, OnPath, OnlyRows;
    InOp(s, a);
    assert OnPath(s.ops[a]);
    var pc, t := s.ops[a].pc, OpStep(s, a, c);
    if pc.Load? || pc.LoadStored? || pc.LoadCached? { LoadFacts(s, a, c); }
    else if pc.Upsert? { UpsertFacts(s, a, c); }
    else if pc.CacheCfg? || pc.Build? { BuildFacts(s, a, c); }
    else if pc.AddRelease? { ReleaseFacts(s, a, c); }
    else if pc.FindRelease? { FindFacts(s, a, c); }
    else if Ending(pc) { EndingStep(s, a, c); if a in t.ops { DestroyFact(t.db, a, t.ops[a]); } }
    else {
      StepOnlyRows(s, a, c);
      FreshHere(s, a, c);
      OnlyRowsKeeps(s, t, a, c);
    }
  }

  lemma DestroyFact(db: Db, a: string, op: Op)
    requires op.kind.Destroy? && !Holding(op)
    ensures FactOk(db, a, op)
  {
  }

  lemma FreshHere(s: State, a: string, c: Choice)
    requires Inv(s) && OpEnabled(s, a, c)
    ensures InsertPc(s.ops[a].pc) ==> c.id !in s.ids.appOf && c.id !in s.db.machines
  {
    hide Inv;
    AnId(s, c.id);
  }

  /** A request's step leaves what another one relies on. */
  lemma OtherFacts(s: State, b: string, c: Choice, a: string)
    requires Inv(s) && OpEnabled(s, b, c) && Paths(s) && b != a && a in s.ops && FactOk(s.db, a, s.ops[a]) && FactOk(s.db, b, s.ops[b])
    ensures FactOk(OpStep(s, b, c).db, a, s.ops[a])
  {
    var t := OpStep(s, b, c);
    OtherApps(s, b, c, a);
    HeldId(s, a);
    FreshHere(s, b, c);
    hide Inv, OpStep, FactOk, Holding, InsertPc, AppKept;
    KeptFact(s.db, t.db, a, s.ops[a]);
  }

  lemma HeldId(s: State, a: string)
    requires Inv(s) && a in s.ops
    ensures Holding(s.ops[a]) ==> s.ops[a].id in s.ids.appOf
  {
    hide Inv, DbOk, KindOk, LoopOk, GoneOk;
    InOp(s, a);
  }

  lemma OtherApps(s: State, b: string, c: Choice, a: string)
    requires Inv(s) && OpEnabled(s, b, c) && Paths(s) && b != a && FactOk(s.db, b, s.ops[b])
    ensures AppKept(s.db, OpStep(s, b, c).db, a) && RelKept(s, OpStep(s, b, c), b, c)
  {
    hide Inv, OwnOk, LoopOk, GoneOk, OpStep, FactOk, DbOk, IdOk, KindOk, OnPath;
    InOp(s, b);
    assert OnPath(s.ops[b]);
    var pc, t := s.ops[b].pc, OpStep(s, b, c);
    if pc.Load? || pc.LoadStored? || pc.LoadCached? { LoadFacts(s, b, c); }
    else if pc.Upsert? { UpsertFacts(s, b, c); }
    else if pc.CacheCfg? || pc.Build? { BuildFacts(s, b, c); }
    else if pc.AddRelease? { ReleaseFacts(s, b, c); }
    else if pc.FindRelease? { FindFacts(s, b, c); }
    else if Ending(pc) { EndingStep(s, b, c); }
    else {
      StepOnlyRows(s, b, c);
      assert ReleasesOf(t.db, a) == ReleasesOf(s.db, a);
    }
  }

  lemma TunnelFacts(s: State, t: State, a: string)
    requires Inv(s) && TunnelOnly(s, t) && a in t.ops && FactOk(s.db, a, s.ops[a])
    ensures FactOk(t.db, a, t.ops[a])
  {
    hide Inv, LatestRelease;
  }

  lemma BegunFact(db: Db, s: State, a: string, kind: Kind)
    ensures FactOk(db, a, Begin(s, a, kind).ops[a])
  {
  }

  lemma StepKeepsFacts(s: State, e: Event)
    requires Inv(s) && HolderOk(s) && Enabled(s, e) && Paths(s) && Facts(s)
    ensures Facts(Next(s, e))
  {
    hide Inv, DbOk, OpStep, WatchStep, TunnelStep, ReconcileStep, Begin, FactOk, OnPath;
    var t := Next(s, e);
    match e
    case EOp(b, c) =>
      OpStepFrame(s, b, c);
      OwnFacts(s, b, c);
      forall x | x in t.ops && x != b ensures FactOk(t.db, x, t.ops[x]) { OtherFacts(s, b, c, x); }
    case EWatch(j, c) =>
      WatchFrame(s, j, c);
      forall x | x in t.ops ensures FactOk(t.db, x, t.ops[x]) { WatchFact(s, j, c, x); }
    case EReconcile(c) =>
      ReconcileFrame(s, c);
      InMode(s);
    case ETunnel(c) =>
      TunnelRows(s, c);
      forall x | x in t.ops ensures FactOk(t.db, x, t.ops[x]) { TunnelFacts(s, t, x); }
    case EBegin(b, kind) =>
      BeginFrame(s, b, kind);
      BegunFact(t.db, s, b, kind);
      forall x | x in t.ops && x != b ensures FactOk(t.db, x, t.ops[x]) { assert Same(s.ops, t.ops, x); }
    case _ =>
  }

  lemma WatchFact(s: State, j: MachineId, c: Choice, a: string)
    requires WatchEnabled(s, j) && a in s.ops && FactOk(s.db, a, s.ops[a])
    ensures FactOk(WatchStep(s, j, c).db, a, s.ops[a])
  {
    var t := WatchStep(s, j, c);
    assert t.db.apps == s.db.apps && t.db.releases == s.db.releases;
    assert forall id | id in t.db.machines :: id in s.db.machines && t.db.machines[id].rel == s.db.machines[id].rel;
    assert ReleasesOf(t.db, a) == ReleasesOf(s.db, a);
    hide WatchStep, FactOk, Holding;
    KeptFact(s.db, t.db, a, s.ops[a]);
  }

  lemma {:induction false} RunKeepsFacts(s: State, es: seq<Event>)
    requires Inv(s) && HolderOk(s) && Paths(s) && Facts(s) && ValidRun(s, es)
    ensures Paths(Exec(s, es)) && Facts(Exec(s, es))
    decreases es
  {
    hide Inv, HolderOk, Paths, Facts, BeyondWith, PassesAt;
    if es != [] {
      StepKeeps(s, es[0]);
      StepGates(s, es[0], "", Upsert, 0);
      StepKeepsFacts(s, es[0]);
      RunKeepsFacts(Next(s, es[0]), es[1..]);
    }
  }

  lemma StartsOk()
    ensures Inv(INIT) && HolderOk(INIT) && Paths(INIT) && Facts(INIT) && AllOlds(INIT)
  {
    InitOk();
  }

  /** In every interleaving: the machine a request boots runs the app's latest
      release, and a Deploy or Scale boots under the configuration that is stored,
      a Deploy its own. */
  lemma BootsWhatIsStored(s: State, es: seq<Event>, a: string)
    requires Inv(s) && HolderOk(s) && Paths(s) && Facts(s) && ValidRun(s, es)
    requires var t := Exec(s, es); a in t.ops && Holding(t.ops[a])
    ensures var t, op := Exec(s, es), Exec(s, es).ops[a];
            && (op.id in t.db.machines ==> LatestRelease(t.db, a) == Some(t.db.machines[op.id].rel))
            && (op.kind.Deploy? || op.kind.Scale? ==> a in t.db.apps && t.db.apps[a].config == op.cfg)
            && (op.kind.Deploy? ==> op.cfg == op.kind.config)
  {
    RunKeeps(s, es);
    RunKeepsFacts(s, es);
    var t := Exec(s, es);
    assert FactOk(t.db, a, t.ops[a]);
    hide Exec, ValidRun, Facts, Inv, HolderOk, LatestRelease;
    InOpKind(t, a);
    RankOfHolding(t.ops[a]);
  }

  lemma InOpKind(s: State, a: string)
    requires Inv(s) && a in s.ops
    ensures KindOk(s.ops[a])
  {
    hide Inv, DbOk, OwnOk, LoopOk, GoneOk;
    InOp(s, a);
  }

  lemma RankOfHolding(op: Op)
    requires KindOk(op) && Holding(op)
    ensures Rank(op.pc) > 5 && !op.kind.Destroy?
  {
  }

  // ----- whose the app is --------------------------------------------------------------------

  /** "" while nobody is recorded. */
  function OwnerOf(db: Db, a: string): string {
    if a in db.apps then db.apps[a].owner else ""
  }

  /** A Deploy of `a` finishes: its owner goes on record if nobody is. */
  ghost predicate Finishes(s: State, e: Event, a: string) {
    e.EOp? && e.app == a && a in s.ops && s.ops[a].kind.Deploy? && s.ops[a].pc.SetOwner? && e.c.ok
  }

  ghost predicate Drops(s: State, e: Event, a: string) {
    e.EOp? && e.app == a && a in s.ops && s.ops[a].pc.DropApp? && e.c.ok
  }

  /** What one step makes of it. */
  ghost function OwnerNext(s: State, e: Event, a: string, was: string): string {
    if Drops(s, e, a) then ""
    else if was == "" && Finishes(s, e, a) then s.ops[a].kind.owner
    else was
  }

  /** Who should be on record after the run: the owner of the first Deploy to finish
      since the app was destroyed, or `was` from before. */
  ghost function Recorded(s: State, es: seq<Event>, a: string, was: string): string
    requires ValidRun(s, es)
    decreases es
  {
    if es == [] then was
    else
      Recorded(Next(s, es[0]), es[1..], a, OwnerNext(s, es[0], a, was))
  }

  lemma SetOwnerRecords(s: State, a: string, c: Choice)
    requires OpEnabled(s, a, c) && s.ops[a].pc.SetOwner? && s.ops[a].kind.Deploy? && a in s.db.apps
    ensures OwnerOf(OpStep(s, a, c).db, a) == OwnerNext(s, EOp(a, c), a, OwnerOf(s.db, a))
  {
    hide OpOwes;
  }

  lemma UpsertKeepsOwner(s: State, a: string, c: Choice)
    requires OpEnabled(s, a, c) && s.ops[a].pc.Upsert?
    ensures OwnerOf(OpStep(s, a, c).db, a) == OwnerOf(s.db, a)
  {
    hide OpOwes;
  }

  lemma DropAppForgets(s: State, a: string, c: Choice)
    requires OpEnabled(s, a, c) && s.ops[a].pc.DropApp? && DeleteApp(s.db, a).Some?
    ensures OwnerOf(OpStep(s, a, c).db, a) == OwnerNext(s, EOp(a, c), a, OwnerOf(s.db, a))
  {
    assert DeleteApp(s.db, a).value.apps == s.db.apps - {a};
    hide OpOwes, DeleteApp;
    assert OpStep(s, a, c).db == if c.ok then DeleteApp(s.db, a).value else s.db;
    hide OpStep;
  }

  lemma ConfigKeepsApps(s: State, a: string, c: Choice)
    requires OpEnabled(s, a, c) && ConfigPc(s.ops[a].pc) && !s.ops[a].pc.Upsert?
    ensures OpStep(s, a, c).db.apps == s.db.apps
  {
    hide OpOwes, Scaled, NextReleaseId, LatestRelease;
  }

  lemma OwnOwner(s: State, a: string, c: Choice)
    requires Inv(s) && OpEnabled(s, a, c) && FactOk(s.db, a, s.ops[a])
    ensures OwnerOf(OpStep(s, a, c).db, a) == OwnerNext(s, EOp(a, c), a, OwnerOf(s.db, a))
  {
    hide Inv, OpStep, OwnerNext, OwnerOf, FactOk, KindOk, DeleteApp;
    InOpKind(s, a);
    var pc := s.ops[a].pc;
    if pc.SetOwner? {
      StoredByNow(s.db, a, s.ops[a]);
      SetOwnerRecords(s, a, c);
    } else if pc.DropApp? {
      DeleteAppNeverFails(s, a);
      DropAppForgets(s, a, c);
    } else {
      KeepsOwner(s, a, c);
      NoOwnerEvent(s, a, c);
    }
  }

  lemma StoredByNow(db: Db, a: string, op: Op)
    requires KindOk(op) && FactOk(db, a, op) && op.pc.SetOwner?
    ensures op.kind.Deploy? && a in db.apps
  {
  }

  lemma NoOwnerEvent(s: State, a: string, c: Choice)
    requires a in s.ops && !s.ops[a].pc.SetOwner? && !s.ops[a].pc.DropApp?
    ensures forall was :: OwnerNext(s, EOp(a, c), a, was) == was
  {
  }

  lemma KeepsOwner(s: State, a: string, c: Choice)
    requires OpEnabled(s, a, c) && KindOk(s.ops[a]) && !s.ops[a].pc.SetOwner? && !s.ops[a].pc.DropApp?
    ensures OwnerOf(OpStep(s, a, c).db, a) == OwnerOf(s.db, a)
  {
    hide OpStep, KindOk, OnlyRows;
    var pc := s.ops[a].pc;
    if pc.Upsert? { UpsertKeepsOwner(s, a, c); }
    else if ConfigPc(pc) { ConfigKeepsApps(s, a, c); }
    else if pc.DropReleases? { DropReleasesKeepsApps(s, a, c); }
    else if Ending(pc) { EndingKeepsApps(s, a, c); }
    else { StepOnlyRows(s, a, c); AppsOnlyRows(s, OpStep(s, a, c), a, c); }
  }

  lemma EndingKeepsApps(s: State, a: string, c: Choice)
    requires OpEnabled(s, a, c) && (s.ops[a].pc.ListAll? || s.ops[a].pc.DropCache? || s.ops[a].pc.RemoveFiles?)
    ensures OpStep(s, a, c).db.apps == s.db.apps
  {
    hide OpStep;
    OtherEnding(s, a, c);
  }

  lemma AppsOnlyRows(s: State, t: State, a: string, c: Choice)
    requires a in s.ops && OnlyRows(s, t, a, c)
    ensures t.db.apps == s.db.apps
  {
  }

  lemma DropReleasesKeepsApps(s: State, a: string, c: Choice)
    requires OpEnabled(s, a, c) && s.ops[a].pc.DropReleases?
    ensures OpStep(s, a, c).db.apps == s.db.apps
  {
    hide OpOwes;
  }

  lemma StepOwner(s: State, e: Event, a: string)
    requires Inv(s) && HolderOk(s) && Enabled(s, e) && Paths(s) && Facts(s)
    ensures OwnerOf(Next(s, e).db, a) == OwnerNext(s, e, a, OwnerOf(s.db, a))
  {
    hide Inv, DbOk, OpStep, WatchStep, TunnelStep, ReconcileStep, Begin, FactOk, OnPath;
    match e
    case EOp(b, c) =>
      if b == a { OwnOwner(s, a, c); } else { OtherApps(s, b, c, a); }
    case EWatch(j, c) => WatchApps(s, j, c);
    case EReconcile(c) => ReconcileApps(s, c);
    case ETunnel(c) => TunnelRows(s, c);
    case EBegin(b, kind) => BeginFrame(s, b, kind);
    case _ =>
  }

  lemma WatchApps(s: State, j: MachineId, c: Choice)
    requires WatchEnabled(s, j)
    ensures WatchStep(s, j, c).db.apps == s.db.apps
  {
  }

  lemma ReconcileApps(s: State, c: Choice)
    requires ReconcileEnabled(s, c)
    ensures ReconcileStep(s, c).db.apps == s.db.apps
  {
    hide LeastIndexFrom;
  }

  /** Over every run: the owner on record is that of the first Deploy to finish
      since the app was destroyed, if it had none before; nothing else sets it. */
  lemma {:induction false} OwnerIsFirstToFinish(s: State, es: seq<Event>, a: string)
    requires Inv(s) && HolderOk(s) && Paths(s) && Facts(s) && ValidRun(s, es)
    ensures OwnerOf(Exec(s, es).db, a) == Recorded(s, es, a, OwnerOf(s.db, a))
    decreases es
  {
    hide Inv, HolderOk, Paths, Facts, OwnerOf, Drops, Finishes;
    if es != [] {
      StepKeeps(s, es[0]);
      StepGates(s, es[0], "", Upsert, 0);
      StepKeepsFacts(s, es[0]);
      StepOwner(s, es[0], a);
      OwnerIsFirstToFinish(Next(s, es[0]), es[1..], a);
    }
  }

  /** A Deploy goes on to record its owner only when the ingress file has just been
      rewritten for it. */
  lemma OwnerAfterRender(s: State, e: Event, a: string)
    requires Inv(s) && HolderOk(s) && Enabled(s, e) && a in Next(s, e).ops && Next(s, e).ops[a].pc.SetOwner?
    requires !(a in s.ops && s.ops[a].pc.SetOwner?)
    ensures e.ETunnel? && e.c.ok && s.tun.Held? && s.tun.who == ByOp(a) && s.tun.phase.Reading?
    ensures a in s.ops && s.ops[a].kind.Deploy? && Next(s, e).file == Ingress(s.tun.phase.rows, s.tun.phase.cfgs)
  {
    hide Inv, DbOk, OpStep, WatchStep, TunnelStep, ReconcileStep, Begin, KindOk;
    match e
    case EOp(b, c) =>
      OpStepFrame(s, b, c);
      InOpKind(s, b);
      if b == a { NoStepToOwner(s, a, c); }
    case EWatch(j, c) => WatchFrame(s, j, c);
    case EReconcile(c) => ReconcileFrame(s, c);
    case ETunnel(c) => RenderedNow(s, c, a);
    case EBegin(b, kind) =>
      BegunElsewhere(s, b, kind, a);
    case _ =>
  }

  lemma NoStepToOwner(s: State, a: string, c: Choice)
    requires OpEnabled(s, a, c) && KindOk(s.ops[a])
    ensures a in OpStep(s, a, c).ops ==> !OpStep(s, a, c).ops[a].pc.SetOwner?
  {
    hide OpStep, KindOk;
    OpFollows(s, a, c);
  }

  lemma BegunElsewhere(s: State, b: string, kind: Kind, a: string)
    requires !(a in s.ops && s.ops[a].pc.SetOwner?)
    ensures !(a in Begin(s, b, kind).ops && Begin(s, b, kind).ops[a].pc.SetOwner?)
  {
  }

  lemma RenderedNow(s: State, c: Choice, a: string)
    requires TunnelEnabled(s) && a in TunnelStep(s, c).ops && TunnelStep(s, c).ops[a].pc.SetOwner? && !(a in s.ops && s.ops[a].pc.SetOwner?)
    ensures c.ok && s.tun.who == ByOp(a) && s.tun.phase.Reading? && a in s.ops && s.ops[a].kind.Deploy?
    ensures TunnelStep(s, c).file == Ingress(s.tun.phase.rows, s.tun.phase.cfgs)
  {
  }

  // ----- what a cutover deletes -------------------------------------------------------------

  /** What a stop loop other than Destroy's has left to do was running when listed. */
  ghost predicate Olds(rows: Rows, op: Op) {
    !op.kind.Destroy? && Looping(op.pc) ==>
      forall m | (m in op.todo || (op.pc.DropNext? && m == op.cur)) && m in rows :: rows[m].state == Running || rows[m].state == Stopped
  }

  ghost predicate AllOlds(s: State) {
    forall a | a in s.ops :: Olds(s.db.machines, s.ops[a])
  }

  lemma ListsOlds(s: State, a: string, c: Choice)
    requires OpEnabled(s, a, c) && s.ops[a].pc.ListOld?
    ensures a in OpStep(s, a, c).ops ==> Olds(OpStep(s, a, c).db.machines, OpStep(s, a, c).ops[a])
  {
    hide OpOwes;
    assert OpStep(s, a, c) == DoListOld(s, a, s.ops[a], c);
    hide OpStep;
  }

  lemma LoopsOlds(s: State, a: string, c: Choice)
    requires OpEnabled(s, a, c) && Looping(s.ops[a].pc) && Olds(s.db.machines, s.ops[a])
    ensures a in OpStep(s, a, c).ops ==> Olds(OpStep(s, a, c).db.machines, OpStep(s, a, c).ops[a])
  {
    hide OpOwes, LoopPc, Olds;
    var op, t := s.ops[a], OpStep(s, a, c);
    assert t.db == s.db || t.db == DeleteMachine(s.db, op.cur);
    assert a in t.ops ==> t.ops[a] == op.(todo := t.ops[a].todo, cur := t.ops[a].cur, pc := t.ops[a].pc);
    assert a in t.ops && op.pc.StopNext? ==> c.id in op.todo && t.ops[a].todo == op.todo - {c.id} && t.ops[a].cur == c.id;
    assert a in t.ops && !op.pc.StopNext? ==> t.ops[a].todo == op.todo && (t.ops[a].pc.ForgetNext? || t.ops[a].pc == LoopPc(op));
    hide OpStep;
    if a in t.ops { FewerOlds(s.db, t.db, op, t.ops[a], c); }
  }

  lemma FewerOlds(db: Db, db': Db, op: Op, op': Op, c: Choice)
    requires Looping(op.pc) && Olds(db.machines, op) && (db' == db || db' == DeleteMachine(db, op.cur)) && op'.kind == op.kind
    requires op.pc.StopNext? ==> c.id in op.todo && op'.todo == op.todo - {c.id} && op'.cur == c.id
    requires !op.pc.StopNext? ==> op'.todo == op.todo && (op'.pc.ForgetNext? || op'.pc == LoopPc(op))
    ensures Olds(db'.machines, op')
  {
  }

  lemma NoOlds(op: Op, op': Op, ok: bool)
    requires op'.pc in After(op, ok) && op'.kind == op.kind && !op.pc.ListOld? && !Looping(op.pc) && KindOk(op)
    ensures forall rows :: Olds(rows, op')
  {
    assert Looping(op'.pc) ==> op.pc.ListAll?;
  }

  /** Another request's step touches none of them. */
  lemma OtherOlds(s: State, b: string, c: Choice, a: string)
    requires Inv(s) && OpEnabled(s, b, c) && b != a && a in s.ops && Olds(s.db.machines, s.ops[a])
    ensures Olds(OpStep(s, b, c).db.machines, s.ops[a])
  {
    var op, t := s.ops[a], OpStep(s, b, c);
    OpRows(s, b, c);
    FreshHere(s, b, c);
    LoopIds(s, a);
    LoopIds(s, b);
    hide Inv, OpStep;
    if !op.kind.Destroy? && Looping(op.pc) {
      forall m | (m in op.todo || (op.pc.DropNext? && m == op.cur)) && m in t.db.machines
        ensures t.db.machines[m].state == Running || t.db.machines[m].state == Stopped
      {
        assert Same(s.db.machines, t.db.machines, m);
      }
    }
  }

  lemma LoopIds(s: State, a: string)
    requires Inv(s) && a in s.ops
    ensures Looping(s.ops[a].pc) ==> forall m | m in s.ops[a].todo :: m in s.ids.appOf && s.ids.appOf[m] == a
    ensures s.ops[a].pc.DropNext? ==> s.ops[a].cur in s.ids.appOf && s.ids.appOf[s.ops[a].cur] == a
    ensures RowPc(s.ops[a].pc) ==> s.ops[a].id in s.ids.appOf && s.ids.appOf[s.ops[a].id] == a
  {
    hide Inv, DbOk, GoneOk;
    InOp(s, a);
  }

  lemma StepKeepsOlds(s: State, e: Event)
    requires Inv(s) && HolderOk(s) && Enabled(s, e) && AllOlds(s)
    ensures AllOlds(Next(s, e))
  {
    hide Inv, DbOk, OpStep, WatchStep, TunnelStep, ReconcileStep, Begin, Olds;
    var t := Next(s, e);
    if e.EOp? {
      OpStepFrame(s, e.app, e.c);
      if e.app in t.ops { OwnOlds(s, e.app, e.c); }
      forall x | x in t.ops && x != e.app ensures Olds(t.db.machines, t.ops[x]) { OtherOlds(s, e.app, e.c, x); }
    } else if e.EWatch? {
      WatchFrame(s, e.id, e.c);
      forall x | x in t.ops ensures Olds(t.db.machines, t.ops[x]) { WatchOlds(s, e.id, e.c, s.ops[x]); }
    } else if e.EReconcile? {
      ReconcileFrame(s, e.c);
      InMode(s);
    } else if e.ETunnel? {
      TunnelRows(s, e.c);
      forall x | x in t.ops ensures Olds(t.db.machines, t.ops[x]) { TunnelOlds(s, t, x); }
    } else if e.EBegin? {
      BeginFrame(s, e.app, e.kind);
      BegunOlds(s, e.app, e.kind, t.db.machines);
      forall x | x in t.ops && x != e.app ensures Olds(t.db.machines, t.ops[x]) { assert Same(s.ops, t.ops, x); }
    }
  }

  lemma OwnOlds(s: State, a: string, c: Choice)
    requires Inv(s) && OpEnabled(s, a, c) && Olds(s.db.machines, s.ops[a]) && a in OpStep(s, a, c).ops
    ensures Olds(OpStep(s, a, c).db.machines, OpStep(s, a, c).ops[a])
  {
    hide Inv, OpStep, Olds, After, KindOk;
    var op := s.ops[a];
    if op.pc.ListOld? { ListsOlds(s, a, c); }
    else if Looping(op.pc) { LoopsOlds(s, a, c); }
    else {
      InOpKind(s, a);
      OpFollows(s, a, c);
      NoOlds(op, OpStep(s, a, c).ops[a], c.ok);
    }
  }

  lemma WatchOlds(s: State, j: MachineId, c: Choice, op: Op)
    requires WatchEnabled(s, j) && Olds(s.db.machines, op)
    ensures Olds(WatchStep(s, j, c).db.machines, op)
  {
    var t := WatchStep(s, j, c);
    WatchRows(s, j, c);
    hide WatchStep;
    if !op.kind.Destroy? && Looping(op.pc) {
      forall m | (m in op.todo || (op.pc.DropNext? && m == op.cur)) && m in t.db.machines
        ensures t.db.machines[m].state == Running || t.db.machines[m].state == Stopped
      {
        if m != j { assert Same(s.db.machines, t.db.machines, m); }
      }
    }
  }

  lemma TunnelOlds(s: State, t: State, a: string)
    requires TunnelOnly(s, t) && a in t.ops && Olds(s.db.machines, s.ops[a])
    ensures Olds(t.db.machines, t.ops[a])
  {
  }

  lemma BegunOlds(s: State, a: string, kind: Kind, rows: Rows)
    ensures Olds(rows, Begin(s, a, kind).ops[a])
  {
  }

  lemma {:induction false} RunKeepsOlds(s: State, es: seq<Event>)
    requires Inv(s) && HolderOk(s) && AllOlds(s) && ValidRun(s, es)
    ensures AllOlds(Exec(s, es))
    decreases es
  {
    hide Inv, HolderOk, AllOlds;
    if es != [] {
      StepKeeps(s, es[0]);
      StepKeepsOlds(s, es[0]);
      RunKeepsOlds(Next(s, es[0]), es[1..]);
    }
  }

  /** In every reachable state: a Deploy, Restart or Scale deletes its own machine's
      row, and of the others only such as were running, not what earlier failures left. */
  lemma CutoverSparesLeftovers(s: State, es: seq<Event>, a: string, c: Choice)
    requires Inv(s) && HolderOk(s) && AllOlds(s) && ValidRun(s, es)
    requires OpEnabled(Exec(s, es), a, c) && !Exec(s, es).ops[a].kind.Destroy?
    ensures var t := Exec(s, es);
            forall m | m in t.db.machines && m !in OpStep(t, a, c).db.machines ::
              m == t.ops[a].id || t.db.machines[m].state == Running || t.db.machines[m].state == Stopped
  {
    RunKeepsOlds(s, es);
    RunKeeps(s, es);
    hide Exec, ValidRun, HolderOk;
    Deleted(Exec(s, es), a, c);
  }

  lemma Deleted(s: State, a: string, c: Choice)
    requires Inv(s) && AllOlds(s) && OpEnabled(s, a, c) && !s.ops[a].kind.Destroy?
    ensures forall m | m in s.db.machines && m !in OpStep(s, a, c).db.machines ::
              m == s.ops[a].id || s.db.machines[m].state == Running || s.db.machines[m].state == Stopped
  {
    OpRows(s, a, c);
    FreshHere(s, a, c);
    assert Olds(s.db.machines, s.ops[a]);
    hide Inv, OpStep;
    forall m | m in s.db.machines && m !in OpStep(s, a, c).db.machines
      ensures m == s.ops[a].id || s.db.machines[m].state == Running || s.db.machines[m].state == Stopped
    {
      assert !Same(s.db.machines, OpStep(s, a, c).db.machines, m);
    }
  }
}
