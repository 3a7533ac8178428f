// ipToUint32 and uint32ToIP: dotted quads and the numbers the store computes with.

module Addresses {
  import opened Common
  import opened Tables
  import opened Text
  import opened Tunnel

  function Octet(s: string): Option<nat> {
    if Canonical(s) && Value(s) <= 255 then Some(Value(s)) else None
  }

  /** The text before the first dot, and what follows it (None: no dot). */
  function Cut(s: string): (string, Option<string>) {
    if s == "" then ("", None)
    else if s[0] == '.' then ("", Some(s[1..]))
    else var (f, rest) := Cut(s[1..]); ([s[0]] + f, rest)
  }

  /** net.ParseIP on a dotted quad: four fields of decimal digits up to 255,
      leading zeros refused. */
  function ParseIp(s: string): Option<nat> {
    match Cut(s)
    case (_, None) => None
    case (a, Some(s1)) =>
      match Cut(s1)
      case (_, None) => None
      case (b, Some(s2)) =>
        match Cut(s2)
        case (_, None) => None
        case (c, Some(d)) =>
          match (Octet(a), Octet(b), Octet(c), Octet(d))
          case (Some(w), Some(x), Some(y), Some(z)) => Some(((w * 256 + x) * 256 + y) * 256 + z)
          case _ => None
  }

  lemma DecimalStep(v: nat, c: char)
    requires Digit(c)
    ensures v > 0 ==> Decimal(v * 10 + DigitOf(c)) == Decimal(v) + [c]
    ensures Decimal(DigitOf(c)) == [c]
  {
    var d := DigitOf(c);
    assert (v * 10 + d) / 10 == v && (v * 10 + d) % 10 == d;
    assert ('0' as int + d) as char == c;
  }

  lemma ValueStep(s: string)
    requires s != "" && Digits(s)
    ensures Digits(s[..|s| - 1]) && Digit(s[|s| - 1])
    ensures Value(s) == Value(s[..|s| - 1]) * 10 + DigitOf(s[|s| - 1])
    ensures |s| == 1 ==> Value(s) == DigitOf(s[0]) && s == [s[0]]
  {
    assert |s| == 1 ==> s[..0] == "";
  }

  lemma {:induction false} CanonicalIsDecimal(s: string)
    requires Canonical(s)
    ensures s == Decimal(Value(s))
    ensures s[0] != '0' ==> Value(s) > 0
  {
    ValueStep(s);
    var front, c := s[..|s| - 1], s[|s| - 1];
    if |s| == 1 {
      DecimalStep(0, c);
    } else {
      assert front[0] == s[0];
      CanonicalIsDecimal(front);
      DecimalStep(Value(front), c);
      hide Decimal, Value, Digits;
      assert s == front + [c];
    }
  }

  lemma {:induction false} CutField(f: string, rest: string)
    requires Digits(f)
    ensures Cut(f + "." + rest) == (f, Some(rest))
  {
    var s := f + "." + rest;
    if f == "" {
      assert s[0] == '.' && s[1..] == rest;
    } else {
      assert s[1..] == f[1..] + "." + rest && s[0] == f[0];
      assert Digit(f[0]) && Digits(f[1..]);
      CutField(f[1..], rest);
      assert [f[0]] + f[1..] == f;
    }
  }

  lemma {:induction false} CutJoins(s: string)
    ensures Cut(s).1.Some? ==> s == Cut(s).0 + "." + Cut(s).1.value
  {
    if s != "" && s[0] != '.' { CutJoins(s[1..]); }
  }

  function Quad(w: nat, x: nat, y: nat, z: nat): nat {
    ((w * 256 + x) * 256 + y) * 256 + z
  }

  lemma QuadParts(w: nat, x: nat, y: nat, z: nat)
    requires w < 256 && x < 256 && y < 256 && z < 256
    ensures var ip := Quad(w, x, y, z);
            ip < 0x1_0000_0000 && ip / 0x100_0000 == w && ip / 0x1_0000 % 256 == x && ip / 256 % 256 == y && ip % 256 == z
  {
    var ip := Quad(w, x, y, z);
    assert ip / 256 == (w * 256 + x) * 256 + y;
    assert ip / 0x1_0000 == w * 256 + x;
    assert ip / 0x100_0000 == w;
  }

  lemma DottedQuad(w: nat, x: nat, y: nat, z: nat)
    requires w < 256 && x < 256 && y < 256 && z < 256
    ensures Dotted(Quad(w, x, y, z)) == Decimal(w) + "." + Decimal(x) + "." + Decimal(y) + "." + Decimal(z)
    ensures Quad(w, x, y, z) < 0x1_0000_0000
  {
    QuadParts(w, x, y, z);
    hide Quad, Decimal;
  }

  lemma Octets(ip: nat)
    requires ip < 0x1_0000_0000
    ensures ip == Quad(ip / 0x100_0000, ip / 0x1_0000 % 256, ip / 256 % 256, ip % 256)
  {
    assert ip / 0x1_0000 == ip / 256 / 256 && ip / 0x100_0000 == ip / 256 / 256 / 256;
  }

  lemma DottedParses(w: nat, x: nat, y: nat, z: nat)
    requires w < 256 && x < 256 && y < 256 && z < 256
    ensures ParseIp(Decimal(w) + "." + Decimal(x) + "." + Decimal(y) + "." + Decimal(z)) == Some(Quad(w, x, y, z))
  {
    OctetOfDecimal(w);
    OctetOfDecimal(x);
    OctetOfDecimal(y);
    OctetOfDecimal(z);
    FourFields(Decimal(w), Decimal(x), Decimal(y), Decimal(z));
  }

  lemma FourFields(a: string, b: string, c: string, d: string)
    requires Digits(a) && Digits(b) && Digits(c)
    requires Octet(a).Some? && Octet(b).Some? && Octet(c).Some? && Octet(d).Some?
    ensures ParseIp(a + "." + b + "." + c + "." + d) == Some(Quad(Octet(a).value, Octet(b).value, Octet(c).value, Octet(d).value))
  {
    hide Octet, Digits, Cut;
    Regroup(a, ".", b, c, d);
    CutField(a, b + "." + (c + "." + d));
    CutField(b, c + "." + d);
    CutField(c, d);
    assert ParseIp(a + "." + (b + "." + (c + "." + d))).Some?;
  }

  lemma Regroup(a: string, p: string, b: string, c: string, d: string)
    ensures a + p + b + p + c + p + d == a + p + (b + p + (c + p + d))
  {
  }

  lemma OctetOfDecimal(n: nat)
    requires n < 256
    ensures Digits(Decimal(n)) && Octet(Decimal(n)) == Some(n)
  {
    DecimalIsCanonical(n);
  }

  /** uint32ToIP and ipToUint32 are inverse: an address parses to `ip` exactly
      when it is the dotted form of `ip`. */
  lemma ParseIsInverse(s: string, ip: nat)
    ensures ParseIp(s) == Some(ip) <==> ip < 0x1_0000_0000 && s == Dotted(ip)
  {
    if ip < 0x1_0000_0000 && s == Dotted(ip) {
      Octets(ip);
      DottedParses(ip / 0x100_0000, ip / 0x1_0000 % 256, ip / 256 % 256, ip % 256);
    }
    if ParseIp(s) == Some(ip) { ParsedIsDotted(s, ip); }
  }

  lemma ParsedIsDotted(s: string, ip: nat)
    requires ParseIp(s) == Some(ip)
    ensures ip < 0x1_0000_0000 && s == Dotted(ip)
  {
    hide Cut, Dotted, Canonical, Value;
    var (a, s1) := Cut(s);
    var (b, s2) := Cut(s1.value);
    var (c, d) := Cut(s2.value);
    CutJoins(s);
    CutJoins(s1.value);
    CutJoins(s2.value);
    OctetIsDecimal(a);
    OctetIsDecimal(b);
    OctetIsDecimal(c);
    OctetIsDecimal(d.value);
    DottedQuad(Octet(a).value, Octet(b).value, Octet(c).value, Octet(d.value).value);
    assert s == a + "." + (b + "." + (c + "." + d.value));
    assert s == a + "." + b + "." + c + "." + d.value;
  }

  lemma OctetIsDecimal(s: string)
    ensures Octet(s).Some? ==> s == Decimal(Octet(s).value) && Octet(s).value <= 255
  {
    if Octet(s).Some? { CanonicalIsDecimal(s); }
  }

  /** `ip` is written 10.200.i.h. */
  ghost predicate At(ip: nat, i: nat, h: nat) {
    i < 256 && h < 256 && ParseIp("10.200." + Decimal(i) + "." + Decimal(h)) == Some(ip)
  }

  lemma AtIsArithmetic(ip: nat, i: nat, h: nat)
    requires i < 256 && h < 256
    ensures At(ip, i, h) <==> ip == Quad(10, 200, i, h)
  {
    assert Decimal(2) == "2" && Decimal(20) == Decimal(2) + "0" && Decimal(200) == Decimal(20) + "0" && Decimal(1) == "1" && Decimal(10) == Decimal(1) + "0";
    assert Decimal(10) + "." + Decimal(200) + "." == "10.200.";
    DottedParses(10, 200, i, h);
  }

  /** The addresses allocated in subnet `i` are 10.200.i.2 to 10.200.i.254. */
  lemma HostRangeIsTheSubnet(ip: nat, i: nat)
    ensures HostRange(ip, i) <==> exists h :: 2 <= h <= 254 && At(ip, i, h)
  {
    hide ParseIp, Decimal;
    if HostRange(ip, i) { AtIsArithmetic(ip, i, ip - SubnetBase(i)); }
    forall h | 2 <= h <= 254 && i < 256 ensures At(ip, i, h) <==> ip == Quad(10, 200, i, h) { AtIsArithmetic(ip, i, h); }
  }
}
