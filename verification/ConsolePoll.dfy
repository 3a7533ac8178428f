// How runReleaseCommand comes by an exit status: it reads the console log again
// and again while the log may still be growing, and takes the first status it
// finds, whoever wrote it.

module ConsolePoll {
  import opened Common
  import opened Text
  import opened ExitStatus

  /** A console log once it is complete: `before`, oak-init's line with status `n`
      and `junk` at its end, `after`; or no such line, the guest having crashed. */
  datatype Console =
    | Printed(before: string, n: int, junk: string, after: string)
    | Crashed(before: string)

  function Log(c: Console): string {
    match c
    case Printed(before, n, junk, after) => before + MARKER + Itoa(n) + junk + "\n" + after
    case Crashed(before) => before
  }

  /** `before` is whatever the guest wrote; oak-init's line is the last with a marker. */
  ghost predicate WellFormed(c: Console) {
    c.Printed? ==> -MAX_INT - 1 <= c.n <= MAX_INT && Junk(c.junk, MARKER) && !Contains(c.after, MARKER)
  }

  /** Reads of a growing log; None is a read that failed. */
  ghost predicate ReadsOf(polls: seq<Option<string>>, log: string) {
    && (forall i | 0 <= i < |polls| && polls[i].Some? :: polls[i].value <= log)
    && (forall i, j | 0 <= i < j < |polls| && polls[i].Some? && polls[j].Some? :: |polls[i].value| <= |polls[j].value|)
  }

  predicate ExitedZero(c: Console) {
    c.Printed? && c.n == 0
  }

  /** The guest's own output has a line like oak-init's with a number starting in 0. */
  ghost predicate SaysZero(text: string) {
    Contains(text, MARKER + "0") || Contains(text, MARKER + "-0")
  }

  // ----- what a cut of the log says --------------------------------------------------------

  function Scan(text: string): Option<int> {
    Status(Lines(text), MARKER)
  }

  lemma {:induction false} NumberStops(num: string, x: string)
    requires x == "" || !Numeric(x[0])
    ensures NumericPrefix(num + x) == NumericPrefix(num)
  {
    if num == "" {
      assert num + x == x;
    } else {
      assert (num + x)[1..] == num[1..] + x && (num + x)[0] == num[0];
      NumberStops(num[1..], x);
    }
  }

  /** A marker that has only begun is no marker, and none starts before it. */
  lemma BegunIsNone(line: string, m: string, j: nat, i: int)
    requires Anchored(m) && j < |m|
    ensures At(line + m[..j], m, i) <==> At(line, m, i)
  {
    var all := line + m[..j];
    if 0 <= i && i + |m| <= |line| {
      assert all[i..i + |m|] == line[i..i + |m|];
    } else if 0 <= i && i + |m| <= |all| {
      assert all[i..i + |m|][|line| - i] == all[|line|] == m[0];
    }
  }

  lemma BegunLine(line: string, m: string, j: nat)
    requires Anchored(m) && j < |m|
    ensures LineStatus(line + m[..j], m) == LineStatus(line, m)
  {
    var all := line + m[..j];
    BegunIndex(line, m, j);
    LastIndexIsLast(line, m, |line| - |m|);
    var r := LastIndex(line, m);
    hide LastIndex, LastIndexUpTo, Atoi, NumericPrefix;
    if r >= 0 {
      assert all[r + |m|..] == line[r + |m|..] + m[..j];
      assert j > 0 ==> m[..j][0] == m[0];
      NumberStops(line[r + |m|..], m[..j]);
    }
  }

  lemma BegunIndex(line: string, m: string, j: nat)
    requires Anchored(m) && j < |m|
    ensures LastIndex(line + m[..j], m) == LastIndex(line, m)
  {
    var all := line + m[..j];
    forall i ensures At(all, m, i) <==> At(line, m, i) { BegunIsNone(line, m, j, i); }
    hide Anchored, At, LastIndex;
    LastIsLast(line, m);
    IsLastIndex(all, m, LastIndex(line, m));
  }

  lemma LastIsLast(s: string, m: string)
    ensures var r := LastIndex(s, m); -1 <= r && (r >= 0 ==> At(s, m, r)) && forall i | r < i :: !At(s, m, i)
  {
    LastIndexIsLast(s, m, |s| - |m|);
    hide LastIndexUpTo;
    forall i | LastIndex(s, m) < i ensures !At(s, m, i) { }
  }

  lemma IsLastIndex(s: string, m: string, r: int)
    requires -1 <= r && (r >= 0 ==> At(s, m, r)) && forall i | r < i :: !At(s, m, i)
    ensures LastIndex(s, m) == r
  {
    LastIsLast(s, m);
    hide LastIndex, At;
    var l := LastIndex(s, m);
    assert l < r ==> !At(s, m, r);
    assert r < l ==> !At(s, m, l);
  }

  lemma BegunStatus(before: string, m: string, j: nat)
    requires Anchored(m) && j < |m|
    ensures Status(Lines(before + m[..j]), m) == Status(Lines(before), m)
  {
    var lines := Lines(before);
    var n := |lines| - 1;
    assert '\n' !in m[..j];
    LastLineGrows(before, m[..j]);
    BegunLine(lines[n], m, j);
    hide LineStatus, Anchored;
    var grown := lines[..n] + [lines[n] + m[..j]];
    assert grown[|grown| - 1] == lines[n] + m[..j] && grown[..|grown| - 1] == lines[..n];
  }

  lemma {:induction false} FrontsContain(s: string, k: nat, m: string)
    requires k <= |s| && Contains(s[..k], m)
    ensures Contains(s, m)
  {
    var i :| At(s[..k], m, i);
    assert s[i..i + |m|] == s[..k][i..i + |m|];
    assert At(s, m, i);
  }

  /** Inside or after the line: the number as far as it has been written. */
  lemma WrittenStatus(c: Console, i: nat, rest: nat)
    requires c.Printed? && WellFormed(c) && i <= |Itoa(c.n)| && rest <= |c.junk + "\n" + c.after| && (i < |Itoa(c.n)| ==> rest == 0)
    ensures Scan(c.before + MARKER + Itoa(c.n)[..i] + (c.junk + "\n" + c.after)[..rest]) == Atoi(Itoa(c.n)[..i])
  {
    MarkerIsAnchored();
    ItoaReadsBack(c.n);
    var num, tail := Itoa(c.n)[..i], c.junk + "\n" + c.after;
    assert forall d | d in num :: d in Itoa(c.n);
    hide MARKER, Itoa, Atoi;
    if rest <= |c.junk| {
      var junk := c.junk[..rest];
      assert tail[..rest] == junk;
      if Contains(junk, MARKER) { FrontsContain(c.junk, rest, MARKER); }
      assert Junk(junk, MARKER);
      LastLineDecides(c.before, MARKER, num, junk);
      Regroup(c.before, MARKER, num, junk);
    } else {
      var k := rest - |c.junk| - 1;
      var after := c.after[..k];
      assert tail[..rest] == c.junk + "\n" + after;
      if Contains(after, MARKER) { FrontsContain(c.after, k, MARKER); }
      NumberReadsBack(c.before, MARKER, num, c.junk, after);
      assert c.before + MARKER + num + (c.junk + "\n" + after) == c.before + MARKER + num + c.junk + "\n" + after;
    }
  }

  /** What a read of the first `k` characters reports: what the guest's own output
      says until oak-init's marker is complete, nothing at that point, then the
      number as far as it is written. */
  lemma CutReports(c: Console, k: nat)
    requires c.Printed? && WellFormed(c) && k <= |Log(c)|
    ensures var b := |c.before| + |MARKER|;
            Scan(Log(c)[..k]) ==
              if k < b then Scan(c.before[..if k < |c.before| then k else |c.before|])
              else Atoi(Itoa(c.n)[..if k - b < |Itoa(c.n)| then k - b else |Itoa(c.n)|])
  {
    MarkerIsAnchored();
    LogPieces(c);
    hide MARKER, Itoa, Atoi, Log, WellFormed, Anchored;
    var b, num, tail := |c.before| + |MARKER|, Itoa(c.n), c.junk + "\n" + c.after;
    assert k <= b + |num| + |tail|;
    Pieces(c.before, MARKER, num, tail, k);
    hide Scan;
    if k < |c.before| {
    } else if k < b {
      assert c.before[..|c.before|] == c.before;
      Begun(c, k - |c.before|);
    } else {
      var i := if k - b < |num| then k - b else |num|;
      WrittenStatus(c, i, k - b - i);
    }
  }

  lemma Begun(c: Console, j: nat)
    requires j < |MARKER|
    ensures Scan(c.before + MARKER[..j]) == Scan(c.before)
  {
    MarkerIsAnchored();
    hide MARKER;
    BegunStatus(c.before, MARKER, j);
  }

  lemma LogPieces(c: Console)
    requires c.Printed?
    ensures Log(c) == c.before + MARKER + Itoa(c.n) + (c.junk + "\n" + c.after)
  {
    hide MARKER, Itoa;
  }

  lemma Pieces(a: string, m: string, num: string, tail: string, k: nat)
    requires k <= |a + m + num + tail|
    ensures var cut := (a + m + num + tail)[..k];
            var b := |a| + |m|;
            && (k <= |a| ==> cut == a[..k])
            && (|a| <= k <= b ==> cut == a + m[..k - |a|])
            && (b <= k ==>
                  var i := if k - b < |num| then k - b else |num|;
                  cut == a + m + num[..i] + tail[..k - b - i])
  {
  }

  lemma {:induction false} PositiveValue(s: string)
    requires s != "" && Digits(s) && s[0] != '0'
    ensures Value(s) > 0
  {
    var front := s[..|s| - 1];
    assert s[|s| - 1] in s && s[0] in s;
    if |s| > 1 {
      assert forall d | d in front :: d in s;
      assert front[0] == s[0];
      PositiveValue(front);
    } else {
      assert front == "";
    }
  }

  /** A number cut short reads as 0 only if it is 0. */
  lemma CutNumber(n: int, i: nat)
    requires i <= |Itoa(n)| && -MAX_INT - 1 <= n <= MAX_INT
    ensures Atoi(Itoa(n)[..i]) == Some(0) <==> i > 0 && n == 0
  {
    if n == 0 {
      ZeroReads();
      assert Itoa(0) == "0" && (i > 0 ==> "0"[..i] == "0") && "0"[..0] == "";
    } else if n > 0 {
      CutDigits(n, i);
    } else {
      if i > 1 {
        CutDigits(-n, i - 1);
        assert Itoa(n)[..i][1..] == Decimal(-n)[..i - 1];
      }
    }
  }

  lemma CutDigits(n: nat, i: nat)
    requires 0 < n && i <= |Decimal(n)|
    ensures Digits(Decimal(n)[..i]) && (i > 0 ==> Decimal(n)[..i][0] != '-' && Value(Decimal(n)[..i]) > 0)
  {
    var digits := Decimal(n);
    DecimalIsCanonical(n);
    hide Decimal, Value;
    assert forall d | d in digits[..i] :: d in digits;
    if i > 0 {
      assert digits[0] in digits && digits[..i][0] == digits[0];
      PositiveValue(digits[..i]);
    }
  }

  /** So a cut reports 0 exactly if the guest's output before it does, or the
      number has begun and is 0. */
  lemma CutReportsZero(c: Console, k: nat)
    requires c.Printed? && WellFormed(c) && k <= |Log(c)|
    ensures var b := |c.before| + |MARKER|;
            Scan(Log(c)[..k]) == Some(0) <==>
              if k < b then Scan(c.before[..if k < |c.before| then k else |c.before|]) == Some(0)
              else k > b && c.n == 0
  {
    CutReports(c, k);
    var b := |c.before| + |MARKER|;
    ItoaReadsBack(c.n);
    if k >= b { CutNumber(c.n, if k - b < |Itoa(c.n)| then k - b else |Itoa(c.n)|); }
  }

  // ----- when some cut of a text reports 0 --------------------------------------------------

  /** A number that reads as 0 starts with a 0, after a sign or not. */
  lemma ZeroStarts(num: string)
    requires Atoi(num) == Some(0)
    ensures num != "" && (num[0] == '0' || (num[0] == '-' && |num| > 1 && num[1] == '0'))
  {
    if num != "" && num[0] == '-' {
      if num[1] != '0' { PositiveValue(num[1..]); }
    } else if num != "" && num[0] != '0' {
      PositiveValue(num);
    }
  }

  lemma {:induction false} NumberIsPrefix(s: string)
    ensures NumericPrefix(s) <= s
  {
    if s != "" && Numeric(s[0]) {
      NumberIsPrefix(s[1..]);
      assert s == [s[0]] + s[1..];
    }
  }

  lemma Follows(line: string, m: string, i: nat, zero: string)
    requires At(line, m, i) && zero <= line[i + |m|..]
    ensures Contains(line, m + zero)
  {
    assert line[i..i + |m| + |zero|] == line[i..i + |m|] + line[i + |m|..][..|zero|];
    assert At(line, m + zero, i);
  }

  lemma SilentLine(line: string, m: string)
    requires LineStatus(line, m) == Some(Some(0))
    ensures Contains(line, m + "0") || Contains(line, m + "-0")
  {
    LastIsLast(line, m);
    var i := LastIndex(line, m);
    var rest := line[i + |m|..];
    var num := NumericPrefix(rest);
    assert At(line, m, i) && Atoi(num) == Some(0);
    NumberIsPrefix(rest);
    ZeroStarts(num);
    hide LastIndex, Atoi, NumericPrefix, At, Contains;
    if num[0] == '0' {
      assert "0" <= rest;
      Follows(line, m, i, "0");
    } else {
      assert "-0" <= rest;
      Follows(line, m, i, "-0");
    }
  }

  lemma {:induction false} SilentScan(lines: seq<string>, m: string)
    requires forall l | l in lines :: !Contains(l, m + "0") && !Contains(l, m + "-0")
    ensures Status(lines, m) != Some(0)
  {
    if lines != [] {
      var n := |lines| - 1;
      assert lines[n] in lines;
      if LineStatus(lines[n], m) == Some(Some(0)) { SilentLine(lines[n], m); }
      SilentScan(lines[..n], m);
    }
  }

  lemma NeverZero(text: string, k: nat)
    requires k <= |text| && !SaysZero(text)
    ensures Scan(text[..k]) != Some(0)
  {
    assert |MARKER + "0"| > 0 && |MARKER + "-0"| > 0;
    hide MARKER;
    if Contains(text[..k], MARKER + "0") { FrontsContain(text, k, MARKER + "0"); }
    if Contains(text[..k], MARKER + "-0") { FrontsContain(text, k, MARKER + "-0"); }
    hide Contains;
    SilentText(text[..k], MARKER + "0");
    SilentText(text[..k], MARKER + "-0");
    SilentScan(Lines(text[..k]), MARKER);
  }

  lemma ZeroFound(text: string, zero: string) returns (k: nat)
    requires (zero == "0" || zero == "-0") && Contains(text, MARKER + zero)
    ensures k <= |text| && Scan(text[..k]) == Some(0)
  {
    MarkerIsAnchored();
    var i :| At(text, MARKER + zero, i);
    k := i + |MARKER + zero|;
    ZeroReads();
    assert !Contains("", MARKER) by { assert MARKER != ""; }
    assert Numeric('0') && Numeric('-');
    hide MARKER, Atoi;
    assert text[..k] == text[..i] + (MARKER + zero + "");
    LastLineDecides(text[..i], MARKER, zero, "");
  }

  lemma ZeroReads()
    ensures Atoi("0") == Some(0) && Atoi("-0") == Some(0)
  {
    assert Value("0"[..0]) == 0 && "-0"[1..] == "0" && "0"[..0] == "";
  }

  /** Some read of a text as it grows reports 0 exactly if the text has a marker
      with a number that starts in 0. */
  lemma ZeroSomewhere(text: string)
    ensures (exists k :: 0 <= k <= |text| && Scan(text[..k]) == Some(0)) <==> SaysZero(text)
  {
    hide Contains, Lines, Status, MARKER;
    if SaysZero(text) {
      var k := ZeroFound(text, if Contains(text, MARKER + "0") then "0" else "-0");
    } else {
      forall k | 0 <= k <= |text| ensures Scan(text[..k]) != Some(0) { NeverZero(text, k); }
    }
  }

  // ----- the poll ------------------------------------------------------------------------------

  lemma {:induction false} PolledFrom(polls: seq<Option<string>>, n: int) returns (i: nat)
    requires Polled(polls) == Some(n)
    ensures i < |polls| && Reported(polls[i]) == Some(n)
  {
    if Reported(polls[0]).Some? {
      i := 0;
    } else {
      i := PolledFrom(polls[1..], n);
      i := i + 1;
    }
  }

  /** The text written before oak-init's line, or all there is, has no such line of its own. */
  ghost predicate Honest(c: Console) {
    !SaysZero(c.before)
  }

  /** However the reads of the log fall, the poll finds a 0 only if oak-init printed
      one, exactly if it did or the text before its line (all there is, after a
      crash) has no marker of its own with a number that starts in 0. */
  lemma PollIsSafeExactly(c: Console)
    requires WellFormed(c)
    ensures (forall polls: seq<Option<string>> :: ReadsOf(polls, Log(c)) && Polled(polls) == Some(0) ==> ExitedZero(c))
            <==> ExitedZero(c) || Honest(c)
  {
    hide WellFormed, Polled, SaysZero;
    if Honest(c) && !ExitedZero(c) {
      forall polls: seq<Option<string>> | ReadsOf(polls, Log(c)) ensures Polled(polls) != Some(0) {
        if Polled(polls) == Some(0) {
          var i := PolledFrom(polls, 0);
          assert polls[i].value == Log(c)[..|polls[i].value|];
          HonestRead(c, |polls[i].value|);
        }
      }
    }
    if !Honest(c) && !ExitedZero(c) {
      var polls := MisleadingReads(c);
      assert ReadsOf(polls, Log(c)) && Polled(polls) == Some(0);
    }
  }

  lemma HonestRead(c: Console, k: nat)
    requires WellFormed(c) && Honest(c) && !ExitedZero(c) && k <= |Log(c)|
    ensures Scan(Log(c)[..k]) != Some(0)
  {
    hide WellFormed, SaysZero, Scan;
    if c.Printed? {
      CutReportsZero(c, k);
      NeverZero(c.before, if k < |c.before| then k else |c.before|);
    } else {
      NeverZero(c.before, k);
    }
  }

  /** One read of the guest's own output, before oak-init's line has reached the file. */
  lemma MisleadingReads(c: Console) returns (polls: seq<Option<string>>)
    requires WellFormed(c) && !Honest(c)
    ensures ReadsOf(polls, Log(c)) && Polled(polls) == Some(0)
  {
    hide WellFormed, SaysZero, MARKER, Status, Lines;
    ZeroSomewhere(c.before);
    var k :| 0 <= k <= |c.before| && Scan(c.before[..k]) == Some(0);
    polls := [Some(c.before[..k])];
    assert c.before <= Log(c);
    assert c.before[..k] == Log(c)[..k];
  }

  /** With no marker at all in the guest's own output, a poll one of whose reads
      reaches into the printed number passes exactly if that number is 0. */
  lemma PollFindsTheStatus(c: Console, polls: seq<Option<string>>, i: nat)
    requires WellFormed(c) && c.Printed? && !Contains(c.before, MARKER) && ReadsOf(polls, Log(c))
    requires i < |polls| && polls[i].Some? && |polls[i].value| > |c.before| + |MARKER|
    ensures Polled(polls) == Some(0) <==> c.n == 0
  {
    if c.n == 0 {
      ZeroIsFound(c, polls, i);
    } else if Polled(polls) == Some(0) {
      var j := PolledFrom(polls, 0);
      PollReport(c, polls[j]);
    }
  }

  lemma {:induction false} ZeroIsFound(c: Console, polls: seq<Option<string>>, i: nat)
    requires WellFormed(c) && c.Printed? && !Contains(c.before, MARKER) && ReadsOf(polls, Log(c)) && c.n == 0
    requires i < |polls| && polls[i].Some? && |polls[i].value| > |c.before| + |MARKER|
    ensures Polled(polls) == Some(0)
  {
    PollReport(c, polls[0]);
    hide WellFormed, Contains, MARKER, Reported;
    if i > 0 && Reported(polls[0]).None? {
      RestReads(polls, Log(c));
      ZeroIsFound(c, polls[1..], i - 1);
    }
  }

  /** With no marker before it, one read says nothing, or 0 exactly if 0 was printed. */
  lemma PollReport(c: Console, poll: Option<string>)
    requires WellFormed(c) && c.Printed? && !Contains(c.before, MARKER) && (poll.Some? ==> poll.value <= Log(c))
    ensures Reported(poll).Some? ==> (Reported(poll) == Some(0) <==> c.n == 0)
    ensures poll.Some? && |poll.value| > |c.before| + |MARKER| && c.n == 0 ==> Reported(poll) == Some(0)
  {
    if poll.Some? {
      var k := |poll.value|;
      assert poll.value == Log(c)[..k];
      MarkerIsAnchored();
      hide WellFormed, MARKER;
      CutReportsZero(c, k);
      var j := if k < |c.before| then k else |c.before|;
      if Contains(c.before[..j], MARKER) { FrontsContain(c.before, j, MARKER); }
      NoMarkerNoStatus(c.before[..j]);
      CutReports(c, k);
    }
  }

  lemma RestReads(polls: seq<Option<string>>, log: string)
    requires ReadsOf(polls, log) && polls != []
    ensures ReadsOf(polls[1..], log)
  {
  }
}
