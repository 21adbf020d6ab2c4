/** Routes and their printed keys (`pkg/bgp/routes.go`, RouteKeyFunc in
    `pkg/bgp/store.go`). */
module Routes {

  type Octet = n: int | 0 <= n < 256

  datatype IPv4 = IPv4(a: Octet, b: Octet, c: Octet, d: Octet)

  type PrefixLength = n: int | 0 <= n <= 32

  /** What identifies a route: its source prefix and its next hop. */
  datatype RouteKey = RouteKey(prefix: IPv4, length: PrefixLength, nextHop: IPv4)

  // The printed form

  function Digit(n: nat): char
    requires n < 10
  {
    '0' + n as char
  }

  function Decimal(n: nat): (s: string)
    ensures s != [] && forall i :: 0 <= i < |s| ==> '0' <= s[i] <= '9'
  {
    if n < 10 then [Digit(n)] else Decimal(n / 10) + [Digit(n % 10)]
  }

  function Dotted(ip: IPv4): (s: string)
    ensures forall i :: 0 <= i < |s| ==> '0' <= s[i] <= '9' || s[i] == '.'
  {
    Decimal(ip.a) + ['.'] + (Decimal(ip.b) + ['.'] + (Decimal(ip.c) + ['.'] + Decimal(ip.d)))
  }

  /** The key string.  The length is printed with a verb meant for strings, so
      that "32" comes out as "%!s(uint8=32)"; the key is none the worse. */
  function RouteKeyFunc(k: RouteKey): string {
    Dotted(k.prefix) + ['/'] + ("%!s(uint8=" + (Decimal(k.length) + [')'] + ("->" + Dotted(k.nextHop))))
  }

  // It can be read back

  function Value(s: string): int {
    if s == [] then 0 else 10 * Value(s[..|s| - 1]) + (s[|s| - 1] as int - '0' as int)
  }

  lemma {:induction false} DecimalReadsBack(n: nat)
    ensures Value(Decimal(n)) == n
  {
    if n < 10 {
      assert Value([]) == 0;
      assert Decimal(n)[..0] == [];
    } else {
      DecimalReadsBack(n / 10);
      assert Decimal(n)[..|Decimal(n)| - 1] == Decimal(n / 10);
    }
  }

  lemma DecimalInjective(m: nat, n: nat)
    requires Decimal(m) == Decimal(n)
    ensures m == n
  {
    DecimalReadsBack(m);
    DecimalReadsBack(n);
  }

  /** A separator that occurs in neither head splits two equal texts alike. */
  lemma SplitAt(u: string, v: string, c: char, u': string, v': string)
    requires u + [c] + v == u' + [c] + v'
    requires c !in u && c !in u'
    ensures u == u' && v == v'
  {
    var s, s' := u + [c] + v, u' + [c] + v';
    assert s[|u|] == c && s'[|u'|] == c;
    assert u == s[..|u|] && u' == s'[..|u|];
    assert v == s[|u| + 1..] && v' == s'[|u| + 1..];
  }

  lemma DottedInjective(x: IPv4, y: IPv4)
    requires Dotted(x) == Dotted(y)
    ensures x == y
  {
    SplitAt(Decimal(x.a), Decimal(x.b) + ['.'] + (Decimal(x.c) + ['.'] + Decimal(x.d)), '.',
            Decimal(y.a), Decimal(y.b) + ['.'] + (Decimal(y.c) + ['.'] + Decimal(y.d)));
    SplitAt(Decimal(x.b), Decimal(x.c) + ['.'] + Decimal(x.d), '.', Decimal(y.b), Decimal(y.c) + ['.'] + Decimal(y.d));
    SplitAt(Decimal(x.c), Decimal(x.d), '.', Decimal(y.c), Decimal(y.d));
    DecimalInjective(x.a, y.a);
    DecimalInjective(x.b, y.b);
    DecimalInjective(x.c, y.c);
    DecimalInjective(x.d, y.d);
  }

  lemma SamePrefix(p: string, u: string, v: string)
    requires p + u == p + v
    ensures u == v
  {
    assert u == (p + u)[|p|..] && v == (p + v)[|p|..];
  }

  /** Routes with the same printed key have the same prefix, length and next
      hop: a store keyed by the string is a store keyed by the triple. */
  lemma RouteKeyInjective(j: RouteKey, k: RouteKey)
    requires RouteKeyFunc(j) == RouteKeyFunc(k)
    ensures j == k
  {
    var tj := Decimal(j.length) + [')'] + ("->" + Dotted(j.nextHop));
    var tk := Decimal(k.length) + [')'] + ("->" + Dotted(k.nextHop));
    SplitAt(Dotted(j.prefix), "%!s(uint8=" + tj, '/', Dotted(k.prefix), "%!s(uint8=" + tk);
    DottedInjective(j.prefix, k.prefix);
    SamePrefix("%!s(uint8=", tj, tk);
    SplitAt(Decimal(j.length), "->" + Dotted(j.nextHop), ')', Decimal(k.length), "->" + Dotted(k.nextHop));
    DecimalInjective(j.length, k.length);
    SamePrefix("->", Dotted(j.nextHop), Dotted(k.nextHop));
    DottedInjective(j.nextHop, k.nextHop);
  }
}
