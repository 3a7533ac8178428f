// The progress stream of a request as a run of Protocol writes it, and what the
// CLI's verdict on a part of it says about the machines.

module ProtocolStream {
  import opened Common
  import opened Tables
  import opened Text
  import opened Protocol
  import opened ProtocolInv
  import opened ProtocolSteps
  import opened ProtocolRuns
  import opened ProtocolCutover
  import Stream

  /** The step that writes the outcome line. */
  ghost predicate Announces(s: State, e: Event, a: string) {
    e.EOp? && e.app == a && a in s.ops && s.ops[a].pc.Announce?
  }

  /** What the steps of a run write to `a`'s stream: whatever `say` has them say,
      progress, warnings and errors, and the outcome line with the machine's name. */
  ghost function Written(s: State, es: seq<Event>, a: string, say: (State, Event) -> seq<string>, name: MachineId -> string): seq<string>
    requires ValidRun(s, es)
    decreases es
  {
    if es == [] then []
    else
      say(s, es[0]) + (if Announces(s, es[0], a) then [Stream.OK_WORD + name(s.ops[a].id)] else [])
      + Written(Next(s, es[0]), es[1..], a, say, name)
  }

  /** Lines of their own, none of which looks like the outcome line. */
  ghost predicate Plain(say: (State, Event) -> seq<string>, name: MachineId -> string) {
    && (forall s, e, l | l in say(s, e) :: OneLine(l) && !(Stream.OK_WORD <= l))
    && (forall id :: OneLine(name(id)))
  }

  /** At some moment of the run the cutover was complete: the request's machine is
      the app's only running one, unless it exited by itself or the daemon stops. */
  ghost predicate CutOver(s: State, es: seq<Event>, a: string)
    requires ValidRun(s, es)
    decreases es
  {
    es != [] &&
      (|| (Announces(s, es[0], a) && OnlyNewOne(s, a))
       || CutOver(Next(s, es[0]), es[1..], a))
  }

  ghost predicate OnlyNewOne(s: State, a: string) {
    && a in s.ops && RunningOf(s.db, a) <= {s.ops[a].id}
    && (!s.mode.Stopping? && s.ops[a].id !in s.ids.crashed ==> RunningOf(s.db, a) == {s.ops[a].id})
  }

  lemma AnnouncedIsCutOver(s: State, e: Event, a: string)
    requires Inv(s) && Announces(s, e, a)
    ensures OnlyNewOne(s, a)
  {
    hide Inv, KindOk, DbOk, OwnOk, LoopOk, GoneOk;
    NotDestroying(s, a);
    SuccessLeavesTheNewOne(s, a);
  }

  /** Destroy announces nothing. */
  lemma NotDestroying(s: State, a: string)
    requires Inv(s) && a in s.ops && s.ops[a].pc.Announce?
    ensures !s.ops[a].kind.Destroy?
  {
    hide Inv, DbOk, OwnOk, LoopOk, GoneOk;
    InOp(s, a);
  }

  lemma {:induction false} OutcomeMeansCutOver(s: State, es: seq<Event>, a: string,
                                              say: (State, Event) -> seq<string>, name: MachineId -> string)
    requires Inv(s) && HolderOk(s) && ValidRun(s, es) && Plain(say, name)
    ensures forall l | l in Written(s, es, a, say, name) :: OneLine(l)
    ensures (exists l :: l in Written(s, es, a, say, name) && Stream.OK_WORD <= l) ==> CutOver(s, es, a)
    decreases es
  {
    assert OneLine(Stream.OK_WORD);
    hide Inv, HolderOk, Announces, Stream.OK_WORD;
    if es != [] {
      StepKeeps(s, es[0]);
      OutcomeMeansCutOver(Next(s, es[0]), es[1..], a, say, name);
      if Announces(s, es[0], a) { AnnouncedIsCutOver(s, es[0], a); }
    }
  }

  /** However `a`'s stream is cut off, the CLI calls the request a success only if
      its cutover was complete. */
  lemma CutStreamMeansCutOver(s: State, es: seq<Event>, a: string,
                              say: (State, Event) -> seq<string>, name: MachineId -> string, k: nat)
    requires Inv(s) && HolderOk(s) && ValidRun(s, es) && Plain(say, name)
    requires k <= |Joined(Written(s, es, a, say, name))|
    ensures Stream.Verdict(Stream.LastScanned(Joined(Written(s, es, a, say, name))[..k]), true) ==> CutOver(s, es, a)
  {
    OutcomeMeansCutOver(s, es, a, say, name);
    var lines := Written(s, es, a, say, name);
    hide Inv, HolderOk, Written, CutOver, ValidRun, Plain, Stream.OK_WORD;
    var last := Stream.LastScanned(Joined(lines)[..k]);
    Stream.CutLast(lines, k);
    if Stream.OK_WORD <= last {
      Stream.EmptyIsNotOk();
      var j :| 0 <= j < |lines| && last <= lines[j];
      Stream.BeginningOfOk(last, lines[j]);
      assert lines[j] in lines;
    }
  }
}
