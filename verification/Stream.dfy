// The progress stream of a deploy, restart or scale: what oakd writes, cut off
// anywhere, and the verdict the CLI reaches from its last line.

module Stream {
  import opened Text

  const OK_WORD: string := "ok "
  const ERROR_WORD: string := "error:"

  // ----- what oakd writes --------------------------------------------------------------

  /** How bootFromRelease's call of applyTunnel and handleDeploy's SetAppOwner end. */
  datatype After =
    | Clean
    | Noted(notes: seq<string>)              // tunnel restart failed, owner not recorded
    | TunnelFailed(error: string)

  /** A run of a deploy, restart or scale: failed before the cutover was complete,
      or live, with the outcome line written in between. */
  datatype Run =
    | Failed(progress: seq<string>, error: string)
    | Live(progress: seq<string>, id: string, after: After)

  function WrittenLines(run: Run): seq<string> {
    match run
    case Failed(progress, error) => progress + [ERROR_WORD + " " + error]
    case Live(progress, id, Clean) => progress + [OK_WORD + id]
    case Live(progress, id, Noted(notes)) => progress + [OK_WORD + id] + notes
    case Live(progress, id, TunnelFailed(error)) => progress + [OK_WORD + id] + [ERROR_WORD + " " + error]
  }

  /** Deploy, Restart or Scale returned no error. */
  predicate Succeeded(run: Run) {
    run.Live? && !run.after.TunnelFailed?
  }

  /** A progress or warning line: neither outcome. */
  predicate Neutral(l: string) {
    OneLine(l) && !(OK_WORD <= l) && !(ERROR_WORD <= l)
  }

  /** Every text on a line of its own. */
  ghost predicate OneLiners(run: Run) {
    && (forall l | l in run.progress :: Neutral(l))
    && match run
       case Failed(_, error) => OneLine(error)
       case Live(_, id, Clean) => OneLine(id)
       case Live(_, id, Noted(notes)) => OneLine(id) && notes != [] && forall l | l in notes :: Neutral(l)
       case Live(_, id, TunnelFailed(error)) => OneLine(id) && OneLine(error)
  }

  // ----- bufio.Scanner -----------------------------------------------------------------------

  function DropCR(l: string): string {
    if l != "" && l[|l| - 1] == '\r' then l[..|l| - 1] else l
  }

  /** ScanLines: a last line without newline counts, an empty rest does not. The
      rest is handed out also when the stream ended in a read error. */
  function Scanned(text: string): seq<string> {
    var lines := Lines(text);
    if lines[|lines| - 1] == "" then lines[..|lines| - 1] else lines
  }

  function LastScanned(text: string): string {
    var lines := Scanned(text);
    if lines == [] then "" else DropCR(lines[|lines| - 1])
  }

  // ----- the verdict ---------------------------------------------------------------------------

  /** streamOutcome: true is success. */
  function Verdict(lastLine: string, readErr: bool): bool {
    OK_WORD <= lastLine || (!readErr && !(ERROR_WORD <= lastLine))
  }

  /** streamProgress on the bytes that arrived. */
  method StreamProgress(text: string, readErr: bool) returns (ok: bool)
    ensures ok == Verdict(LastScanned(text), readErr)
    ensures ok <==> "ok " <= LastScanned(text) || (!readErr && !("error:" <= LastScanned(text)))
  {
    assert OK_WORD == "ok " && ERROR_WORD == "error:";
    hide OK_WORD, ERROR_WORD;
    var lines := Scanned(text);
    var lastLine := "";
    for i := 0 to |lines|
      invariant lastLine == if i == 0 then "" else DropCR(lines[i - 1])
    {
      lastLine := DropCR(lines[i]);
    }
    if OK_WORD <= lastLine {
      return true;
    }
    if readErr {
      return false;
    }
    if ERROR_WORD <= lastLine {
      return false;
    }
    return true;
  }

  /** The last line of what arrived is what follows the last newline but for one at
      the very end, less a carriage return. */
  lemma LastScannedIs(before: string, l: string)
    requires (before == "" || before[|before| - 1] == '\n') && OneLine(l) && l != "" && l[|l| - 1] != '\r'
    ensures LastScanned(before + l) == LastScanned(before + l + "\n") == l
    ensures LastScanned(before + (l + "\r")) == LastScanned(before + (l + "\r") + "\n") == l
  {
    LastLineIs(before, l);
    LastLineIs(before, l + "\r");
  }

  lemma LastLineIs(before: string, l: string)
    requires (before == "" || before[|before| - 1] == '\n') && OneLine(l) && l != ""
    ensures LastScanned(before + l) == LastScanned(before + l + "\n") == DropCR(l)
  {
    EndsWith(before, l);
    LinesOfTwo(before + l, "");
    OneLineLines("");
    hide Lines, DropCR, OneLine;
    assert before + l + "\n" + "" == before + l + "\n";
    LastOf(Lines(before + l), l);
  }

  lemma EndsWith(before: string, l: string)
    requires (before == "" || before[|before| - 1] == '\n') && OneLine(l)
    ensures Lines(before + l)[|Lines(before + l)| - 1] == l
  {
    OneLineLines(l);
    hide Lines, OneLine;
    if before == "" {
      assert before + l == l;
    } else {
      assert before == before[..|before| - 1] + "\n";
      LinesOfTwo(before[..|before| - 1], l);
    }
  }

  lemma LastOf(lines: seq<string>, l: string)
    requires lines != [] && lines[|lines| - 1] == l && l != ""
    ensures (lines + [""])[|lines + [""]| - 1] == "" && (lines + [""])[..|lines + [""]| - 1] == lines
  {
  }

  // ----- cutting joined lines ----------------------------------------------------------------------

  /** The text up to somewhere in line `j`, or just past the last line. */
  predicate CutAt(lines: seq<string>, text: string, j: int, i: int) {
    && 0 <= j <= |lines| && (if j == |lines| then i == 0 else 0 <= i <= |lines[j]|)
    && Lines(text) == lines[..j] + [if j == |lines| then "" else lines[j][..i]]
  }

  lemma CutFirst(lines: seq<string>, k: nat)
    requires lines != [] && OneLine(lines[0]) && k <= |lines[0]|
    ensures Joined(lines)[..k] == lines[0][..k] && CutAt(lines, lines[0][..k], 0, k)
  {
    var l := lines[0][..k];
    assert forall c | c in l :: c in lines[0];
    OneLineLines(l);
    assert lines[..0] + [l] == [l];
  }

  lemma CutLater(lines: seq<string>, text: string, j: int, i: int)
    requires lines != [] && OneLine(lines[0]) && CutAt(lines[1..], text, j, i)
    ensures CutAt(lines, lines[0] + "\n" + text, j + 1, i)
  {
    LinesOfTwo(lines[0], text);
    OneLineLines(lines[0]);
    hide OneLine, Lines;
    ShiftCut(lines, j, i);
  }

  lemma ShiftCut(lines: seq<string>, j: int, i: int)
    requires lines != [] && 0 <= j <= |lines| - 1 && (j < |lines| - 1 ==> 0 <= i <= |lines[j + 1]|)
    ensures [lines[0]] + (lines[1..][..j] + [if j == |lines[1..]| then "" else lines[1..][j][..i]])
         == lines[..j + 1] + [if j + 1 == |lines| then "" else lines[j + 1][..i]]
  {
    assert [lines[0]] + lines[1..][..j] == lines[..j + 1];
  }

  /** A cut of joined lines ends inside one of them. */
  lemma {:induction false} CutLines(lines: seq<string>, k: nat) returns (j: int, i: int)
    requires (forall l | l in lines :: OneLine(l)) && k <= |Joined(lines)|
    ensures CutAt(lines, Joined(lines)[..k], j, i)
  {
    if lines == [] {
      j, i := 0, 0;
      assert Joined(lines)[..k] == "" && lines[..0] + [""] == [""];
      OneLineLines("");
    } else if k <= |lines[0]| {
      j, i := 0, k;
      CutFirst(lines, k);
    } else {
      var rest := Joined(lines[1..]);
      var m := k - |lines[0]| - 1;
      j, i := CutLines(lines[1..], m);
      CutLater(lines, rest[..m], j, i);
      hide CutAt, Lines;
      assert Joined(lines)[..k] == lines[0] + "\n" + rest[..m];
      j := j + 1;
    }
  }

  /** So the scanner's last line is the beginning of a written line, or nothing. */
  lemma CutLast(lines: seq<string>, k: nat)
    requires (forall l | l in lines :: OneLine(l)) && k <= |Joined(lines)|
    ensures LastScanned(Joined(lines)[..k]) == "" || exists j :: 0 <= j < |lines| && LastScanned(Joined(lines)[..k]) <= lines[j]
  {
    var text := Joined(lines)[..k];
    var j, i := CutLines(lines, k);
    hide Joined, OneLine;
    var part := if j == |lines| then "" else lines[j][..i];
    var all := lines[..j] + [part];
    assert all[|all| - 1] == part && all[..|all| - 1] == lines[..j];
    if part == "" {
      if j > 0 { assert lines[..j][j - 1] == lines[j - 1] && LastScanned(text) <= lines[j - 1]; }
    } else {
      assert LastScanned(text) <= lines[j];
    }
  }

  lemma WholeLast(lines: seq<string>)
    requires lines != [] && forall l | l in lines :: OneLine(l)
    ensures LastScanned(Joined(lines)) == DropCR(lines[|lines| - 1])
  {
    LinesOfJoined(lines);
    assert (lines + [""])[..|lines|] == lines;
  }

  // ----- the promises ----------------------------------------------------------------------------------

  lemma WrittenAreOneLine(run: Run)
    requires OneLiners(run)
    ensures forall l | l in WrittenLines(run) :: OneLine(l)
    ensures run.Failed? ==> forall l | l in WrittenLines(run) :: !(OK_WORD <= l)
    ensures WrittenLines(run) != []
  {
    assert OneLine(ERROR_WORD) && OneLine(OK_WORD) && OK_WORD[0] != ERROR_WORD[0];
    hide OK_WORD, ERROR_WORD;
    match run
    case Failed(progress, error) =>
      assert OneLine(ERROR_WORD + " " + error);
      assert (ERROR_WORD + " " + error)[0] == ERROR_WORD[0];
    case Live(progress, id, after) =>
      assert OneLine(OK_WORD + id);
      if after.TunnelFailed? { assert OneLine(ERROR_WORD + " " + after.error); }
  }

  lemma BeginningOfOk(l: string, w: string)
    requires OK_WORD <= l && l <= w
    ensures OK_WORD <= w
  {
  }

  /** However the stream is cut off, the CLI calls it a success only if the
      outcome line was written: the new machine marked running, the old ones
      stopped and deleted. */
  lemma CutStreamNeverLies(run: Run, k: nat)
    requires OneLiners(run) && k <= |Joined(WrittenLines(run))|
    ensures Verdict(LastScanned(Joined(WrittenLines(run))[..k]), true) ==> run.Live?
  {
    WrittenAreOneLine(run);
    hide WrittenLines, OneLiners, OK_WORD;
    var last := LastScanned(Joined(WrittenLines(run))[..k]);
    CutLast(WrittenLines(run), k);
    if OK_WORD <= last {
      EmptyIsNotOk();
      var j :| 0 <= j < |WrittenLines(run)| && last <= WrittenLines(run)[j];
      BeginningOfOk(last, WrittenLines(run)[j]);
      assert WrittenLines(run)[j] in WrittenLines(run);
    }
  }

  lemma EmptyIsNotOk()
    ensures !(OK_WORD <= "")
  {
  }

  /** And a stream that arrives whole is judged exactly as oakd saw it. */
  lemma WholeStreamIsExact(run: Run)
    requires OneLiners(run)
    ensures Verdict(LastScanned(Joined(WrittenLines(run))), false) <==> Succeeded(run)
  {
    WrittenAreOneLine(run);
    var lines := WrittenLines(run);
    WholeLast(lines);
    var last := lines[|lines| - 1];
    WordsApart(last);
    DropCRKeepsWords(last);
    hide OK_WORD, ERROR_WORD, DropCR, LastScanned;
    match run
    case Failed(progress, error) => assert last == ERROR_WORD + (" " + error);
    case Live(progress, id, Clean) => assert last == OK_WORD + id;
    case Live(progress, id, Noted(notes)) => assert last == notes[|notes| - 1] && notes[|notes| - 1] in notes;
    case Live(progress, id, TunnelFailed(error)) => assert last == ERROR_WORD + (" " + error);
  }

  lemma WordsApart(l: string)
    ensures OK_WORD <= l ==> !(ERROR_WORD <= l)
  {
    assert OK_WORD[0] != ERROR_WORD[0];
  }

  lemma DropCRKeepsWords(l: string)
    ensures OK_WORD <= DropCR(l) <==> OK_WORD <= l
    ensures ERROR_WORD <= DropCR(l) <==> ERROR_WORD <= l
  {
    assert OK_WORD[2] != '\r' && ERROR_WORD[5] != '\r';
  }

  // ----- error text of several lines ----------------------------------------------------------------------

  /** What is written when a call fails with any error text. */
  function FailedLines(progress: seq<string>, error: string): seq<string> {
    progress + Lines(ERROR_WORD + " " + error)
  }

  lemma {:induction false} LinesAreOneLine(s: string)
    ensures forall l | l in Lines(s) :: OneLine(l)
  {
    if s != "" {
      LinesAreOneLine(s[..|s| - 1]);
      var front := Lines(s[..|s| - 1]);
      assert front[|front| - 1] in front;
    }
  }

  /** Cutting after `i` characters of line `j` is a cut of the joined text. */
  lemma {:induction false} CutThere(lines: seq<string>, j: nat, i: nat) returns (k: nat)
    requires (forall l | l in lines :: OneLine(l)) && j < |lines| && i <= |lines[j]|
    ensures k <= |Joined(lines)| && CutAt(lines, Joined(lines)[..k], j, i)
  {
    if j == 0 {
      k := i;
      CutFirst(lines, i);
    } else {
      var rest := Joined(lines[1..]);
      var m := CutThere(lines[1..], j - 1, i);
      CutLater(lines, rest[..m], j - 1, i);
      hide CutAt, Lines;
      k := |lines[0]| + 1 + m;
      assert Joined(lines)[..k] == lines[0] + "\n" + rest[..m];
    }
  }

  /** Exactly when some cut of a failed call's stream is called a success: when a
      line of it begins with "ok ", of its error text if the others are neutral. */
  lemma CutVerdictExactly(progress: seq<string>, error: string)
    requires forall l | l in progress :: OneLine(l)
    ensures var lines := FailedLines(progress, error);
            (exists k :: 0 <= k <= |Joined(lines)| && Verdict(LastScanned(Joined(lines)[..k]), true))
            <==> exists j :: 0 <= j < |lines| && OK_WORD <= lines[j]
  {
    var lines := FailedLines(progress, error);
    LinesAreOneLine(ERROR_WORD + " " + error);
    assert forall l | l in lines :: OneLine(l);
    hide FailedLines, OK_WORD, ERROR_WORD;
    if k :| 0 <= k <= |Joined(lines)| && Verdict(LastScanned(Joined(lines)[..k]), true) {
      CutLast(lines, k);
      EmptyIsNotOk();
      var j :| 0 <= j < |lines| && LastScanned(Joined(lines)[..k]) <= lines[j];
      BeginningOfOk(LastScanned(Joined(lines)[..k]), lines[j]);
    }
    if j :| 0 <= j < |lines| && OK_WORD <= lines[j] {
      var k := CutThere(lines, j, |OK_WORD|);
      CutAtOk(lines, Joined(lines)[..k], j);
      assert Verdict(LastScanned(Joined(lines)[..k]), true);
    }
  }

  lemma CutAtOk(lines: seq<string>, text: string, j: nat)
    requires j < |lines| && OK_WORD <= lines[j] && CutAt(lines, text, j, |OK_WORD|)
    ensures LastScanned(text) == OK_WORD
  {
    assert lines[j][..|OK_WORD|] == OK_WORD;
    var all := lines[..j] + [OK_WORD];
    assert all[|all| - 1] == OK_WORD;
    assert OK_WORD[2] != '\r';
  }

  /** Exactly when the whole stream of a failed call is called a failure: when the
      last line of its error text begins with "error:", as one line of text does.
      `progress` may end in the outcome line: a call that fails in applyTunnel. */
  lemma WholeVerdictExactly(progress: seq<string>, error: string)
    requires forall l | l in progress :: OneLine(l)
    ensures var lines := FailedLines(progress, error);
            !Verdict(LastScanned(Joined(lines)), false) <==> ERROR_WORD <= lines[|lines| - 1]
    ensures OneLine(error) ==> ERROR_WORD <= FailedLines(progress, error)[|FailedLines(progress, error)| - 1]
  {
    var lines := FailedLines(progress, error);
    LinesAreOneLine(ERROR_WORD + " " + error);
    assert OneLine(ERROR_WORD);
    if OneLine(error) { OneLineLines(ERROR_WORD + " " + error); }
    WholeLast(lines);
    DropCRKeepsWords(lines[|lines| - 1]);
    WordsApart(lines[|lines| - 1]);
  }

  /** Error text of several lines defeats both: a failed deploy whose quoted log
      ends in an ordinary line is reported as a success, and one whose log has a
      line starting "ok " is too when cut there. */
  lemma ManyLineErrorIsMisread(tail: string, k: nat)
    requires OneLine(tail) && tail != ""
    ensures var run := Failed([], "boot\n" + tail);
            var text := Joined(WrittenLines(run));
            && !Succeeded(run)
            && (!(ERROR_WORD <= tail) ==> Verdict(LastScanned(text), false))
            && (OK_WORD <= tail ==> Verdict(LastScanned(text), true))
  {
    var lines := [ERROR_WORD + " boot", tail];
    var text := Joined(WrittenLines(Failed([], "boot\n" + tail)));
    assert [] + [ERROR_WORD + " " + ("boot\n" + tail)] == [ERROR_WORD + " " + ("boot\n" + tail)];
    JoinedOne(ERROR_WORD + " " + ("boot\n" + tail));
    JoinedTwo(ERROR_WORD + " boot", tail);
    assert text == Joined(lines);
    WholeLast(lines);
    DropCRKeepsWords(tail);
  }
}
