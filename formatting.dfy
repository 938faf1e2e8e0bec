/**
 * The textual forms the builder puts on the command line: unsigned
 * integers in decimal (`u64::to_string` and friends) and IPv4 addresses
 * in dotted-quad notation (`Ipv4Addr`'s `Display`).
 */
module Formatting {

  type U8 = x: nat | x < 0x100
  type U16 = x: nat | x < 0x1_0000
  type U64 = x: nat | x < 0x1_0000_0000_0000_0000

  predicate IsDigit(c: char) {
    '0' <= c <= '9'
  }

  function DigitChar(d: nat): (c: char)
    requires d < 10
    ensures IsDigit(c) && c as int - '0' as int == d
  {
    ('0' as int + d) as char
  }

  /**
   * The decimal spelling of `n`: digits only, never empty, and without a
   * leading zero unless the number is zero itself.
   */
  function Decimal(n: nat): (s: string)
    ensures |s| > 0
    ensures forall i :: 0 <= i < |s| ==> IsDigit(s[i])
    ensures s[0] == '0' ==> n == 0 && s == "0"
  {
    if n < 10 then [DigitChar(n)] else Decimal(n / 10) + [DigitChar(n % 10)]
  }

  /** The number a string of decimal digits denotes. */
  function DigitsValue(s: string): nat
    requires forall i :: 0 <= i < |s| ==> IsDigit(s[i])
  {
    if s == [] then 0
    else
      assert IsDigit(s[|s| - 1]);
      10 * DigitsValue(s[..|s| - 1]) + (s[|s| - 1] as int - '0' as int)
  }

  /** Reading the decimal spelling back gives the number. */
  lemma {:induction false} DecimalRoundTrip(n: nat)
    ensures DigitsValue(Decimal(n)) == n
  {
    if n >= 10 {
      var s := Decimal(n);
      assert s[..|s| - 1] == Decimal(n / 10);
      DecimalRoundTrip(n / 10);
    }
  }

  /** Different numbers are spelled differently. */
  lemma DecimalInjective(m: nat, n: nat)
    requires Decimal(m) == Decimal(n)
    ensures m == n
  {
    DecimalRoundTrip(m);
    DecimalRoundTrip(n);
  }

  /** An IPv4 address as its four octets, most significant first. */
  datatype Ipv4Addr = Ipv4Addr(a: U8, b: U8, c: U8, d: U8)

  /** `Ipv4Addr::LOCALHOST`. */
  const Localhost := Ipv4Addr(127, 0, 0, 1)

  /** `Ipv4Addr`'s `Display`: the octets in decimal, separated by dots. */
  function DottedQuad(ip: Ipv4Addr): (s: string)
    ensures |s| >= 7
  {
    Decimal(ip.a) + "." + (Decimal(ip.b) + "." + (Decimal(ip.c) + "." + Decimal(ip.d)))
  }

  /** A run of digits ends at the first dot, so the split around it is unique. */
  lemma SplitAtDot(u: string, x: string, v: string, y: string)
    requires forall i :: 0 <= i < |u| ==> IsDigit(u[i])
    requires forall i :: 0 <= i < |v| ==> IsDigit(v[i])
    requires u + "." + x == v + "." + y
    ensures u == v && x == y
  {
    var w := u + "." + x;
    assert w[|u|] == '.' && (v + "." + y)[|u|] == '.';
    assert w[|v|] == '.' && (v + "." + y)[|v|] == '.';
    assert u == w[..|u|] && v == w[..|v|];
    assert x == w[|u| + 1..] && y == w[|v| + 1..];
  }

  /** Different addresses are displayed differently. */
  lemma DottedQuadInjective(p: Ipv4Addr, q: Ipv4Addr)
    requires DottedQuad(p) == DottedQuad(q)
    ensures p == q
  {
    SplitAtDot(Decimal(p.a), Decimal(p.b) + "." + (Decimal(p.c) + "." + Decimal(p.d)),
               Decimal(q.a), Decimal(q.b) + "." + (Decimal(q.c) + "." + Decimal(q.d)));
    SplitAtDot(Decimal(p.b), Decimal(p.c) + "." + Decimal(p.d), Decimal(q.b), Decimal(q.c) + "." + Decimal(q.d));
    SplitAtDot(Decimal(p.c), Decimal(p.d), Decimal(q.c), Decimal(q.d));
    DecimalInjective(p.a, q.a);
    DecimalInjective(p.b, q.b);
    DecimalInjective(p.c, q.c);
    DecimalInjective(p.d, q.d);
  }

  lemma LocalhostText()
    ensures DottedQuad(Localhost) == "127.0.0.1"
  {
    assert Decimal(127) == "127" by {
      assert Decimal(12) == "12";
    }
  }
}
