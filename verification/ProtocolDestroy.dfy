// Destroy among everything else: no foreign key objects, nothing of the app is
// left, nothing of any other app is touched.

module ProtocolDestroy {
  import opened Common
  import opened Tables
  import opened Protocol
  import opened ProtocolInv
  import opened ProtocolSteps

  /** By the time Destroy deletes the app row, in any interleaving, no machine and
      no release refers to it. */
  lemma DeleteAppNeverFails(s: State, a: string)
    requires Inv(s) && a in s.ops && s.ops[a].pc.DropApp?
    ensures DeleteApp(s.db, a).Some?
  {
    hide Inv, DbOk, OwnOk;
    InOp(s, a);
    assert MachinesOf(s.db, a) == {} && ReleasesOf(s.db, a) == {};
  }

  /** And once it has, no row of the app exists until the request has ended. */
  lemma DestroyedIsGone(s: State, a: string)
    requires Inv(s) && a in s.ops && s.ops[a].kind.Destroy?
    requires s.ops[a].pc.DropCache? || s.ops[a].pc.RemoveFiles? || s.ops[a].pc.ApplyTunnel?
    ensures a !in s.db.apps && MachinesOf(s.db, a) == {} && ReleasesOf(s.db, a) == {}
  {
    hide Inv, OwnOk, LoopOk;
    InOp(s, a);
  }

  ghost predicate OthersUntouched(db: Db, db': Db, a: string) {
    && (forall id :: Same(db.machines, db'.machines, id) || (id in db.machines && db.machines[id].app == a && id !in db'.machines))
    && (forall r :: Same(db.releases, db'.releases, r) || (r in db.releases && db.releases[r].app == a && r !in db'.releases))
    && (forall x | x != a :: Same(db.apps, db'.apps, x))
    && db'.subnets == db.subnets
  }

  lemma LoopTables(s: State, a: string, c: Choice)
    requires OpEnabled(s, a, c) && (Looping(s.ops[a].pc) || s.ops[a].pc.ListAll?)
    requires s.ops[a].pc.DropNext? && s.ops[a].cur in s.db.machines ==> s.db.machines[s.ops[a].cur].app == a
    ensures OthersUntouched(s.db, OpStep(s, a, c).db, a)
  {
    hide OpOwes, LoopPc, OthersUntouched;
    var t := OpStep(s, a, c);
    assert t.db == if s.ops[a].pc.DropNext? && c.ok then DeleteMachine(s.db, s.ops[a].cur) else s.db;
    hide OpStep;
    assert OthersUntouched(s.db, t.db, a) by { OneDeleted(s.db, a, s.ops[a].cur); }
  }

  lemma OneDeleted(db: Db, a: string, id: MachineId)
    ensures OthersUntouched(db, db, a)
    ensures (id in db.machines ==> db.machines[id].app == a) ==> OthersUntouched(db, DeleteMachine(db, id), a)
  {
  }

  lemma TailTables(s: State, a: string, c: Choice)
    requires OpEnabled(s, a, c)
    requires s.ops[a].pc.DropReleases? || s.ops[a].pc.DropApp? || s.ops[a].pc.DropCache? || s.ops[a].pc.RemoveFiles?
    ensures OthersUntouched(s.db, OpStep(s, a, c).db, a)
  {
    hide OpOwes;
  }

  /** Each of its steps only removes rows of its own app. */
  lemma DestroyFramesOthers(s: State, a: string, c: Choice)
    requires Inv(s) && OpEnabled(s, a, c) && s.ops[a].kind.Destroy?
    ensures OthersUntouched(s.db, OpStep(s, a, c).db, a)
  {
    hide Inv, DbOk, OwnOk, GoneOk, OpStep, OthersUntouched;
    InOp(s, a);
    AnId(s, s.ops[a].cur);
    if Looping(s.ops[a].pc) || s.ops[a].pc.ListAll? { LoopTables(s, a, c); } else { TailTables(s, a, c); }
  }
}
