// Numbers as decimal text, and text as lines.

module Text {

  // ----- decimal ----------------------------------------------------------------------

  function Decimal(n: nat): string {
    if n < 10 then [('0' as int + n) as char] else Decimal(n / 10) + [('0' as int + n % 10) as char]
  }

  predicate Digit(c: char) {
    '0' <= c <= '9'
  }

  function DigitOf(c: char): nat
    requires Digit(c)
  {
    c as int - '0' as int
  }

  predicate Digits(s: string) {
    forall c | c in s :: Digit(c)
  }

  /** Decimal digits without a leading zero. */
  predicate Canonical(s: string) {
    s != "" && Digits(s) && (|s| > 1 ==> s[0] != '0')
  }

  function Value(s: string): nat
    requires Digits(s)
  {
    if s == "" then 0 else Value(s[..|s| - 1]) * 10 + DigitOf(s[|s| - 1])
  }

  lemma {:induction false} DecimalIsCanonical(n: nat)
    ensures Canonical(Decimal(n)) && Value(Decimal(n)) == n
    ensures n > 0 ==> Decimal(n)[0] != '0'
  {
    if n < 10 {
      assert Decimal(n)[..0] == "";
    } else {
      DecimalIsCanonical(n / 10);
      var s := Decimal(n);
      assert s[..|s| - 1] == Decimal(n / 10);
    }
  }

  // ----- lines -------------------------------------------------------------------------

  predicate OneLine(s: string) {
    '\n' !in s
  }

  /** Lines, each ended by a newline. */
  function Joined(lines: seq<string>): string {
    if lines == [] then "" else lines[0] + "\n" + Joined(lines[1..])
  }

  lemma {:induction false} JoinedAppend(a: seq<string>, b: seq<string>)
    ensures Joined(a + b) == Joined(a) + Joined(b)
  {
    if a == [] {
      assert a + b == b;
    } else {
      assert (a + b)[1..] == a[1..] + b;
      JoinedAppend(a[1..], b);
    }
  }

  lemma JoinedOne(a: string)
    ensures Joined([a]) == a + "\n"
  {
    assert [a][1..] == [];
  }

  lemma JoinedTwo(a: string, b: string)
    ensures Joined([a, b]) == a + "\n" + b + "\n"
  {
    assert [a, b] == [a] + [b];
    JoinedAppend([a], [b]);
    JoinedOne(a);
    JoinedOne(b);
  }

  /** strings.Split at '\n': always at least one line. */
  function Lines(s: string): (r: seq<string>)
    ensures r != []
  {
    if s == "" then [""]
    else Grow(Lines(s[..|s| - 1]), s[|s| - 1])
  }

  function Grow(lines: seq<string>, c: char): seq<string>
    requires lines != []
  {
    if c == '\n' then lines + [""] else lines[..|lines| - 1] + [lines[|lines| - 1] + [c]]
  }

  lemma WithoutLast(s: string, c: char, t: string)
    requires s == t + [c]
    ensures Lines(s) == Grow(Lines(t), c)
  {
    assert s[..|s| - 1] == t;
  }

  lemma TakeLast(a: string, b: string)
    requires b != ""
    ensures a + b == a + b[..|b| - 1] + [b[|b| - 1]]
  {
  }

  lemma GrowLast(a: seq<string>, b: seq<string>, c: char)
    requires b != []
    ensures Grow(a + b, c) == a + Grow(b, c)
  {
    assert (a + b)[|a + b| - 1] == b[|b| - 1] && (a + b)[..|a + b| - 1] == a + b[..|b| - 1];
  }

  lemma {:induction false} LinesOfTwo(a: string, b: string)
    ensures Lines(a + "\n" + b) == Lines(a) + Lines(b)
  {
    if b == "" {
      WithoutLast(a + "\n", '\n', a);
      assert a + "\n" + b == a + "\n";
    } else {
      var n := |b| - 1;
      LinesOfTwo(a, b[..n]);
      GrowLast(Lines(a), Lines(b[..n]), b[n]);
      TakeLast(a + "\n", b);
      WithoutLast(a + "\n" + b, b[n], a + "\n" + b[..n]);
    }
  }

  /** Text without a newline extends the last line. */
  lemma {:induction false} LastLineGrows(a: string, x: string)
    requires '\n' !in x
    ensures Lines(a + x) == Lines(a)[..|Lines(a)| - 1] + [Lines(a)[|Lines(a)| - 1] + x]
  {
    if x == "" {
      assert a + x == a && Lines(a)[|Lines(a)| - 1] + x == Lines(a)[|Lines(a)| - 1];
    } else {
      var n := |x| - 1;
      assert (a + x)[..|a + x| - 1] == a + x[..n] && (a + x)[|a + x| - 1] == x[n];
      LastLineGrows(a, x[..n]);
      assert x == x[..n] + [x[n]];
      assert Lines(a)[|Lines(a)| - 1] + x[..n] + [x[n]] == Lines(a)[|Lines(a)| - 1] + x;
    }
  }

  lemma OneLineLines(l: string)
    requires OneLine(l)
    ensures Lines(l) == [l]
  {
    LastLineGrows("", l);
    assert "" + l == l;
  }

  lemma {:induction false} LinesOfJoined(lines: seq<string>)
    requires forall l | l in lines :: OneLine(l)
    ensures Lines(Joined(lines)) == lines + [""]
  {
    if lines == [] {
    } else {
      assert forall x | x in lines[1..] :: x in lines;
      LinesOfJoined(lines[1..]);
      LinesOfTwo(lines[0], Joined(lines[1..]));
      OneLineLines(lines[0]);
      assert [lines[0]] + (lines[1..] + [""]) == lines + [""];
    }
  }
}
