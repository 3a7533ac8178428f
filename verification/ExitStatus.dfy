// The console contract: the line oak-init prints before powering off, and
// lastChildExitStatus, which reads it back out of everything else in the log.

module ExitStatus {
  import opened Common
  import opened Text

  const MARKER: string := "oak-init: child-exit status="

  /** What the round trip needs of a marker: one line, and its first character is
      no digit or '-' and does not occur in it again. */
  predicate Anchored(m: string) {
    && m != "" && !Numeric(m[0]) && m[0] != '\n'
    && forall i | 0 < i < |m| :: m[i] != m[0] && m[i] != '\n'
  }

  lemma MarkerIsAnchored()
    ensures Anchored(MARKER)
  {
  }

  predicate Numeric(c: char) {
    c == '-' || '0' <= c <= '9'
  }

  // ----- strings.Split, strings.LastIndex, strconv -----------------------------------------

  predicate At(s: string, m: string, i: int) {
    0 <= i <= |s| - |m| && s[i..i + |m|] == m
  }

  ghost predicate Contains(s: string, m: string) {
    exists i :: At(s, m, i)
  }

  /** strings.LastIndex, or -1. */
  function LastIndexUpTo(s: string, m: string, i: int): int
    decreases i + 1
  {
    if i < 0 then -1 else if At(s, m, i) then i else LastIndexUpTo(s, m, i - 1)
  }

  function LastIndex(s: string, m: string): int {
    LastIndexUpTo(s, m, |s| - |m|)
  }

  function NumericPrefix(s: string): string {
    if s == "" || !Numeric(s[0]) then "" else [s[0]] + NumericPrefix(s[1..])
  }

  predicate AllDigits(s: string) {
    s != "" && Digits(s)
  }

  const MAX_INT: int := 0x7fff_ffff_ffff_ffff

  /** strconv.Atoi on text of digits and '-'. */
  function Atoi(s: string): Option<int> {
    if s != "" && s[0] == '-' then
      if AllDigits(s[1..]) && Value(s[1..]) <= MAX_INT + 1 then Some(0 - Value(s[1..])) else None
    else if AllDigits(s) && Value(s) <= MAX_INT then Some(Value(s)) else None
  }

  /** fmt's %d. */
  function Itoa(n: int): string {
    if n < 0 then "-" + Decimal(-n) else Decimal(n)
  }

  // ----- the parser ----------------------------------------------------------------------------

  /** What one line says: None if it has no marker. */
  function LineStatus(line: string, m: string): Option<Option<int>> {
    var i := LastIndex(line, m);
    if i < 0 || i + |m| > |line| then None else Some(Atoi(NumericPrefix(line[i + |m|..])))
  }

  /** The last line with a marker decides. */
  function Status(lines: seq<string>, m: string): Option<int> {
    if lines == [] then None
    else match LineStatus(lines[|lines| - 1], m)
         case Some(r) => r
         case None => Status(lines[..|lines| - 1], m)
  }

  /** What is made of a console log; nothing if it cannot be read. */
  function Reported(log: Option<string>): Option<int> {
    match log
    case None => None
    case Some(data) => Status(Lines(data), MARKER)
  }

  /** The reads of a log, up to the first that yields a status or the deadline. */
  function Polled(polls: seq<Option<string>>): Option<int> {
    if polls == [] then None
    else match Reported(polls[0])
         case Some(n) => Some(n)
         case None => Polled(polls[1..])
  }

  /** lastChildExitStatus on the log's text. */
  method LastChildExitStatus(data: string) returns (r: Option<int>)
    ensures r == Status(Lines(data), MARKER)
  {
    MarkerIsAnchored();
    hide MARKER, Lines, At, LastIndex;
    var lines := Lines(data);
    var i := |lines|;
    assert lines[..i] == lines;
    while i > 0
      invariant 0 <= i <= |lines| && Status(lines, MARKER) == Status(lines[..i], MARKER)
    {
      i := i - 1;
      var line := lines[i];
      assert lines[..i + 1][..i] == lines[..i];
      var idx := FindLast(line, MARKER);
      if idx < 0 {
        assert LineStatus(line, MARKER).None?;
        continue;
      }
      var num := LeadingNumber(line[idx + |MARKER|..]);
      return Atoi(num);
    }
    return None;
  }

  method LeadingNumber(rest: string) returns (num: string)
    ensures num == NumericPrefix(rest)
  {
    var end := 0;
    while end < |rest| && Numeric(rest[end])
      invariant 0 <= end <= |rest| && NumericPrefix(rest) == rest[..end] + NumericPrefix(rest[end..])
    {
      end := end + 1;
    }
    return rest[..end];
  }

  method FindLast(s: string, m: string) returns (i: int)
    requires m != ""
    ensures i == LastIndex(s, m)
    ensures i >= 0 ==> At(s, m, i)
  {
    i := |s| - |m|;
    while i >= 0 && !At(s, m, i)
      invariant LastIndex(s, m) == LastIndexUpTo(s, m, i)
      decreases i
    {
      i := i - 1;
    }
    if i < 0 {
      i := -1;
    }
  }

  // ----- no marker, no status --------------------------------------------------------------------

  lemma {:induction false} LastIndexIsLast(s: string, m: string, i: int)
    ensures var r := LastIndexUpTo(s, m, i);
            -1 <= r && (r >= 0 ==> r <= i && At(s, m, r)) && forall j | r < j <= i :: j >= 0 ==> !At(s, m, j)
    decreases i + 1
  {
    if i >= 0 && !At(s, m, i) { LastIndexIsLast(s, m, i - 1); }
  }

  lemma NoMarkerNoIndex(line: string, m: string)
    requires !Contains(line, m)
    ensures LineStatus(line, m).None?
  {
    LastIndexIsLast(line, m, |line| - |m|);
  }

  lemma {:induction false} LastLineIsSuffix(s: string)
    ensures var last := Lines(s)[|Lines(s)| - 1]; |last| <= |s| && s[|s| - |last|..] == last
  {
    if s != "" { LastLineIsSuffix(s[..|s| - 1]); }
  }

  lemma SuffixContains(s: string, i: nat, m: string)
    requires i <= |s| && Contains(s[i..], m)
    ensures Contains(s, m)
  {
    var k :| At(s[i..], m, k);
    assert s[i + k..i + k + |m|] == s[i..][k..k + |m|];
    assert At(s, m, i + k);
  }

  lemma FrontContains(s: string, m: string)
    requires s != "" && Contains(s[..|s| - 1], m)
    ensures Contains(s, m)
  {
    var k :| At(s[..|s| - 1], m, k);
    assert s[k..k + |m|] == s[..|s| - 1][k..k + |m|];
    assert At(s, m, k);
  }

  lemma {:induction false} SilentLines(lines: seq<string>, m: string)
    requires forall l | l in lines :: !Contains(l, m)
    ensures Status(lines, m) == None
  {
    if lines != [] {
      NoMarkerNoIndex(lines[|lines| - 1], m);
      SilentLines(lines[..|lines| - 1], m);
    }
  }

  lemma {:induction false} SilentText(s: string, m: string)
    requires m != "" && !Contains(s, m)
    ensures forall l | l in Lines(s) :: !Contains(l, m)
  {
    if s != "" {
      if Contains(s[..|s| - 1], m) { FrontContains(s, m); }
      SilentText(s[..|s| - 1], m);
      LastLineIsSuffix(s);
      var last := Lines(s)[|Lines(s)| - 1];
      if Contains(last, m) { SuffixContains(s, |s| - |last|, m); }
      hide Contains;
    }
  }

  /** A log in which the marker does not occur yields no status. */
  lemma NoMarkerNoStatus(log: string)
    requires !Contains(log, "oak-init: child-exit status=")
    ensures Reported(Some(log)) == None
  {
    MarkerIsAnchored();
    assert MARKER == "oak-init: child-exit status=";
    hide MARKER;
    SilentText(log, MARKER);
    SilentLines(Lines(log), MARKER);
  }

  // ----- the round trip -----------------------------------------------------------------------------

  lemma ItoaReadsBack(n: int)
    requires -MAX_INT - 1 <= n <= MAX_INT
    ensures Atoi(Itoa(n)) == Some(n)
    ensures Itoa(n) != "" && forall c | c in Itoa(n) :: Numeric(c)
  {
    DecimalIsCanonical(if n < 0 then -n else n);
    if n < 0 { assert Itoa(n)[1..] == Decimal(-n); }
    var digits := Decimal(if n < 0 then -n else n);
    assert digits[0] in digits && Digit(digits[0]);
    forall c | c in Itoa(n) ensures Numeric(c) { assert c == '-' || c in digits; }
  }

  lemma {:induction false} PrefixOfNumber(num: string, junk: string)
    requires forall c | c in num :: Numeric(c)
    requires junk == "" || !Numeric(junk[0])
    ensures NumericPrefix(num + junk) == num
  {
    if num == "" {
      assert num + junk == junk;
    } else {
      assert (num + junk)[1..] == num[1..] + junk;
      PrefixOfNumber(num[1..], junk);
      assert num == [num[0]] + num[1..];
    }
  }

  /** After an anchored marker and a number, no later marker can start. */
  lemma MarkerIsLast(before: string, m: string, num: string, junk: string)
    requires Anchored(m) && (forall c | c in num :: Numeric(c)) && !Contains(junk, m)
    ensures LastIndex(before + m + num + junk, m) == |before|
  {
    var line := before + m + num + junk;
    LastIndexIsLast(line, m, |line| - |m|);
    assert forall j :: !At(junk, m, j);
    hide Contains, Anchored, LastIndexUpTo;
    assert At(line, m, |before|) by { MarkerIsThere(before, m, num, junk); }
    forall j | |before| < j <= |line| - |m| ensures !At(line, m, j) {
      NoLaterMarker(before, m, num, junk, j);
    }
    hide At;
    assert |before| <= LastIndex(line, m) <= |before|;
  }

  lemma MarkerIsThere(before: string, m: string, num: string, junk: string)
    ensures At(before + m + num + junk, m, |before|)
  {
  }

  lemma NoLaterMarker(before: string, m: string, num: string, junk: string, j: int)
    requires Anchored(m) && (forall c | c in num :: Numeric(c))
    requires |before| < j <= |before| + |num| + |junk|
    requires !At(junk, m, j - |before| - |m| - |num|)
    ensures !At(before + m + num + junk, m, j)
  {
    var line := before + m + num + junk;
    var i := |before| + |m|;
    if j < i + |num| {
      if j < i {
        assert line[j] == m[j - |before|];
      } else {
        assert line[j] == num[j - i] && num[j - i] in num;
      }
      assert line[j..j + |m|][0] == line[j];
    } else {
      var k := j - i - |num|;
      assert line[j..j + |m|] == junk[k..k + |m|];
    }
  }

  /** Text that may follow the number on its line. */
  ghost predicate Junk(junk: string, m: string) {
    '\n' !in junk && !Contains(junk, m) && (junk == "" || !Numeric(junk[0]))
  }

  lemma LineReadsBack(before: string, m: string, num: string, junk: string)
    requires Anchored(m) && (forall c | c in num :: Numeric(c)) && Junk(junk, m)
    ensures LineStatus(before + m + num + junk, m) == Some(Atoi(num))
  {
    MarkerIsLast(before, m, num, junk);
    PrefixOfNumber(num, junk);
    assert (before + m + num + junk)[|before| + |m|..] == num + junk;
  }

  lemma {:induction false} LaterLinesSilent(a: seq<string>, b: seq<string>, m: string)
    requires forall l | l in b :: !Contains(l, m)
    ensures Status(a + b, m) == Status(a, m)
  {
    if b == [] {
      assert a + b == a;
    } else {
      var n := |b| - 1;
      assert (a + b)[..|a + b| - 1] == a + b[..n] && (a + b)[|a + b| - 1] == b[n];
      NoMarkerNoIndex(b[n], m);
      LaterLinesSilent(a, b[..n], m);
    }
  }

  /** Whatever the log held before, even earlier markers on the same line, and
      whatever marker-free text follows, the number after the marker is read back. */
  lemma NumberReadsBack(before: string, m: string, num: string, junk: string, after: string)
    requires Anchored(m) && (forall c | c in num :: Numeric(c)) && Junk(junk, m) && !Contains(after, m)
    ensures Status(Lines(before + m + num + junk + "\n" + after), m) == Atoi(num)
  {
    LastLineDecides(before, m, num, junk);
    assert m != "";
    hide Lines, Status, Contains, Atoi, Anchored, Numeric, Junk;
    SilentText(after, m);
    LinesOfTwo(before + (m + num + junk), after);
    LaterLinesSilent(Lines(before + (m + num + junk)), Lines(after), m);
    Regroup(before, m, num, junk);
  }

  lemma Regroup(a: string, b: string, c: string, d: string)
    ensures a + b + c + d == a + (b + c + d)
  {
  }

  lemma LastLineDecides(before: string, m: string, num: string, junk: string)
    requires Anchored(m) && (forall c | c in num :: Numeric(c)) && Junk(junk, m)
    ensures Status(Lines(before + (m + num + junk)), m) == Atoi(num)
  {
    var tail := m + num + junk;
    var last := Lines(before)[|Lines(before)| - 1];
    NoNewline(m, num, junk);
    hide Contains, Atoi, LineStatus, Anchored;
    LastLineGrows(before, tail);
    LineReadsBack(last, m, num, junk);
    Regroup(last, m, num, junk);
    LastDecides(Lines(before + tail), m, Atoi(num));
  }

  lemma NoNewline(m: string, num: string, junk: string)
    requires Anchored(m) && (forall c | c in num :: Numeric(c)) && '\n' !in junk
    ensures '\n' !in m + num + junk
  {
  }

  lemma LastDecides(lines: seq<string>, m: string, r: Option<int>)
    requires lines != [] && LineStatus(lines[|lines| - 1], m) == Some(r)
    ensures Status(lines, m) == r
  {
  }

  /** oak-init's own line, read back by oakd. */
  lemma PrintedStatusReadsBack(before: string, n: int, junk: string, after: string)
    requires -0x8000_0000_0000_0000 <= n < 0x8000_0000_0000_0000
    requires '\n' !in junk && !Contains(junk, "oak-init: child-exit status=")
    requires junk == "" || (junk[0] != '-' && !('0' <= junk[0] <= '9'))
    requires !Contains(after, "oak-init: child-exit status=")
    ensures Reported(Some(before + "oak-init: child-exit status=" + Itoa(n) + junk + "\n" + after)) == Some(n)
  {
    MarkerIsAnchored();
    assert MARKER == "oak-init: child-exit status=";
    hide MARKER;
    ItoaReadsBack(n);
    NumberReadsBack(before, MARKER, Itoa(n), junk, after);
  }
}
