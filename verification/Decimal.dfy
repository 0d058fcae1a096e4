/** Decimal keys. The port dictionaries are keyed by the decimal text of the port, and the address
    dictionary by dotted quads; both are injective, so the model keys its maps by the numbers. */
module Decimal {

  function Digit(d: nat): char
    requires d < 10
  {
    '0' + d as char
  }

  /** What the %d conversion prints for a non-negative number. */
  function Text(n: nat): (s: string)
    ensures |s| > 0
    ensures forall c :: c in s ==> '0' <= c <= '9'
  {
    if n < 10 then [Digit(n)] else Text(n / 10) + [Digit(n % 10)]
  }

  function Value(s: string): int {
    if s == [] then 0 else Value(s[..|s| - 1]) * 10 + (s[|s| - 1] as int - '0' as int)
  }

  lemma {:induction false} ValueOfText(n: nat)
    ensures Value(Text(n)) == n
  {
    if n >= 10 {
      ValueOfText(n / 10);
      var s := Text(n);
      assert s[..|s| - 1] == Text(n / 10) && s[|s| - 1] == Digit(n % 10);
    } else {
      assert Value([Digit(n)][..0]) == 0;
    }
  }

  /** Distinct numbers have distinct keys. */
  lemma KeysInjective(m: nat, n: nat)
    ensures Text(m) == Text(n) <==> m == n
  {
    ValueOfText(m);
    ValueOfText(n);
  }

  /** A port's key and its terminator fit the six bytes reserved for them. */
  lemma PortKeyFits(port: nat)
    ensures |Text(port)| + 1 <= 6 <==> port < 100000
  {
    TextLength(port);
  }

  lemma TextLength(n: nat)
    ensures |Text(n)| <= 5 <==> n < 100000
  {
    var a, b, c, d := n / 10, n / 100, n / 1000, n / 10000;
    assert a / 10 == b && b / 10 == c && c / 10 == d;
    assert n >= 10 ==> |Text(n)| == |Text(a)| + 1;
    assert a >= 10 ==> |Text(a)| == |Text(b)| + 1;
    assert b >= 10 ==> |Text(b)| == |Text(c)| + 1;
    assert c >= 10 ==> |Text(c)| == |Text(d)| + 1;
    assert d >= 10 ==> |Text(d)| == |Text(d / 10)| + 1;
  }

  // ----- dotted quads

  function Dotted(parts: seq<nat>): string {
    if parts == [] then "" else if |parts| == 1 then Text(parts[0]) else Text(parts[0]) + "." + Dotted(parts[1..])
  }

  /** How many digits a text starts with. */
  function Digits(s: string): nat {
    if s == "" || !('0' <= s[0] <= '9') then 0 else 1 + Digits(s[1..])
  }

  /** A decimal text ends where the dot stands. */
  lemma {:induction false} DigitsBeforeDot(a: string, x: string)
    requires forall c :: c in a ==> '0' <= c <= '9'
    ensures Digits(a + "." + x) == |a|
  {
    if a == "" {
      assert (a + "." + x)[0] == '.';
    } else {
      assert a[0] in a && forall c :: c in a[1..] ==> c in a;
      assert (a + "." + x)[0] == a[0] && (a + "." + x)[1..] == a[1..] + "." + x;
      DigitsBeforeDot(a[1..], x);
    }
  }

  lemma SameHead(a: string, b: string, x: string, y: string)
    requires forall c :: c in a ==> '0' <= c <= '9'
    requires forall c :: c in b ==> '0' <= c <= '9'
    requires a + "." + x == b + "." + y
    ensures a == b && x == y
  {
    DigitsBeforeDot(a, x);
    DigitsBeforeDot(b, y);
    var s, t := a + "." + x, b + "." + y;
    assert s[..|a|] == a && t[..|b|] == b;
    assert s[|a| + 1..] == x && t[|b| + 1..] == y;
  }

  /** Dotted texts of equally many numbers determine the numbers. */
  lemma {:induction false} DottedInjective(p: seq<nat>, q: seq<nat>)
    requires |p| == |q| && Dotted(p) == Dotted(q)
    ensures p == q
  {
    if |p| == 1 {
      KeysInjective(p[0], q[0]);
    } else if |p| > 1 {
      SameHead(Text(p[0]), Text(q[0]), Dotted(p[1..]), Dotted(q[1..]));
      KeysInjective(p[0], q[0]);
      DottedInjective(p[1..], q[1..]);
      assert p == [p[0]] + p[1..] && q == [q[0]] + q[1..];
    }
  }

  /** The four bytes of an address, the lowest first: the order they have in memory. */
  function Bytes(ip: nat): seq<nat> {
    [ip % 256, ip / 256 % 256, ip / 65536 % 256, ip / 16777216]
  }

  /** inet_ntoa. */
  function Ntoa(ip: nat): string {
    Dotted(Bytes(ip))
  }

  lemma NtoaInjective(a: nat, b: nat)
    ensures Ntoa(a) == Ntoa(b) <==> a == b
  {
    if Ntoa(a) == Ntoa(b) {
      DottedInjective(Bytes(a), Bytes(b));
      assert Bytes(a)[0] == Bytes(b)[0] && Bytes(a)[1] == Bytes(b)[1];
      assert Bytes(a)[2] == Bytes(b)[2] && Bytes(a)[3] == Bytes(b)[3];
      Recompose(a);
      Recompose(b);
    }
  }

  lemma Recompose(ip: nat)
    ensures ip == ip % 256 + 256 * (ip / 256 % 256) + 65536 * (ip / 65536 % 256) + 16777216 * (ip / 16777216)
  {
    var b, c, d := ip / 256, ip / 65536, ip / 16777216;
    assert b / 256 == c && c / 256 == d;
  }

  // ----- reading dotted quads

  datatype Quad = NoQuad | Quad(parts: seq<nat>)

  /** The decimal numbers, as %d prints them, that a text of so many of them with dots between holds. */
  function ReadDotted(s: string, count: nat): Quad
    requires count >= 1
    decreases count
  {
    var k := Digits(s);
    DigitsFit(s);
    var v := Value(s[..k]);
    if k == 0 || v < 0 || Text(v) != s[..k] then NoQuad
    else if count == 1 then if k == |s| then Quad([v]) else NoQuad
    else if k == |s| || s[k] != '.' then NoQuad
    else match ReadDotted(s[k + 1..], count - 1) case NoQuad => NoQuad case Quad(rest) => Quad([v] + rest)
  }

  lemma {:induction false} DigitsFit(s: string)
    ensures Digits(s) <= |s|
  {
    if s != "" { DigitsFit(s[1..]); }
  }

  lemma {:induction false} DigitsOnly(s: string)
    requires forall c :: c in s ==> '0' <= c <= '9'
    ensures Digits(s) == |s|
  {
    if s != "" {
      assert s[0] in s && forall c :: c in s[1..] ==> c in s;
      DigitsOnly(s[1..]);
    }
  }

  /** Reading inverts printing. */
  lemma {:induction false} ReadPrinted(p: seq<nat>)
    requires p != []
    ensures ReadDotted(Dotted(p), |p|) == Quad(p)
    decreases |p|
  {
    var head, s := Text(p[0]), Dotted(p);
    ValueOfText(p[0]);
    if |p| == 1 {
      DigitsOnly(head);
      assert s[..|s|] == head && p == [p[0]];
    } else {
      var rest := Dotted(p[1..]);
      DigitsBeforeDot(head, rest);
      ReadPrinted(p[1..]);
      assert s[..|head|] == head && s[|head|] == '.' && s[|head| + 1..] == rest;
      assert p == [p[0]] + p[1..];
    }
  }

  /** What inet_addr makes of a text that has the form inet_ntoa prints: four numbers below 256 without
      leading zeros. Other spellings of addresses are not read here. */
  function Aton(s: string): (ip: int)
  {
    match ReadDotted(s, 4)
    case NoQuad => -1
    case Quad(q) =>
      if |q| == 4 && q[0] < 256 && q[1] < 256 && q[2] < 256 && q[3] < 256
      then q[0] + 256 * q[1] + 65536 * q[2] + 16777216 * q[3] else -1
  }

  /** inet_addr inverts inet_ntoa. */
  lemma AtonOfNtoa(ip: nat)
    requires ip < 0x1_0000_0000
    ensures Aton(Ntoa(ip)) == ip
  {
    var q := Bytes(ip);
    ReadPrinted(q);
    Recompose(ip);
    BytesFit(ip);
  }

  lemma BytesFit(ip: nat)
    requires ip < 0x1_0000_0000
    ensures forall i :: 0 <= i < 4 ==> Bytes(ip)[i] < 256
  {
  }
}
