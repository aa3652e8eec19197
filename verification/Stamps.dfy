/**
  Stored times. The store keeps a time as RFC 3339 text with the fraction of the second cut after its last
  digit that is not zero, and finds due rows by comparing that text. Down to the second the text has a fixed
  width and sorts as the times do, so only the rest is text here. Times are nanoseconds.
  */
module Stamps {

  const SECOND: nat := 1_000_000_000

  function Pow10(k: nat): (p: nat)
    ensures p >= 1
  {
    if k == 0 then 1 else 10 * Pow10(k - 1)
  }

  function Digit(d: nat): char
    requires d < 10
  {
    ('0' as int + d) as char
  }

  /** The last `k` digits of a fraction as they are written, and the zone. */
  function Digits(n: nat, k: nat): string
    requires n < Pow10(k)
  {
    if n == 0 then "Z"
    else
      var p := Pow10(k - 1);
      Leading(n, p);
      [Digit(n / p)] + Digits(n % p, k - 1)
  }

  /** What follows the seconds. */
  function Tail(n: nat): string
    requires n < SECOND
  {
    assert Pow10(9) == SECOND by { Pow10Nine(); }
    if n == 0 then "Z" else "." + Digits(n, 9)
  }

  /** Text order. */
  predicate TextLess(s: string, t: string) {
    t != [] && (s == [] || s[0] < t[0] || (s[0] == t[0] && TextLess(s[1..], t[1..])))
  }

  /** The comparison of a query: the text of `a` is not after the text of `b`. */
  predicate StoredLe(a: nat, b: nat) {
    a / SECOND < b / SECOND
    || (a / SECOND == b / SECOND && !TextLess(Tail(b % SECOND), Tail(a % SECOND)))
  }

  function Rem(b: nat, q: nat): (r: nat)
    requires q >= 1
    ensures r < q && r <= b
  {
    RemAtMost(b, q);
    b % q
  }

  /** `b` with its last `k` digits set to zero. */
  function Cut(b: nat, k: nat): nat {
    b - Rem(b, Pow10(k))
  }

  /** `a` is `b` with some of its last `k` digits set to zero. */
  predicate CutWithin(a: nat, b: nat, k: nat) {
    exists j :: 0 <= j <= k && a == Cut(b, j)
  }

  /** `a` is `b` with its fraction of a second cut short. */
  predicate CutOff(a: nat, b: nat) {
    CutWithin(a, b, 9)
  }

  // ----- arithmetic -----

  lemma Pow10Nine()
    ensures Pow10(9) == SECOND
  {
    assert Pow10(3) == 1000;
    assert Pow10(6) == 1000000;
  }

  lemma RemAtMost(b: nat, q: nat)
    requires q >= 1
    ensures 0 <= b % q < q && b % q <= b
  {
    var d := b / q;
    assert d * q >= 0;
  }

  lemma Regroup(d: nat, c: nat, q: nat)
    ensures d * (c * q) == (d * c) * q
  {
  }

  lemma Leading(n: nat, p: nat)
    requires 1 <= p && n < 10 * p
    ensures n / p < 10 && n % p < p && n == p * (n / p) + n % p
  {
    var d := n / p;
    assert d >= 10 ==> p * d >= p * 10;
  }

  lemma {:induction false} Pow10Divides(j: nat, k: nat) returns (c: nat)
    requires j <= k
    ensures Pow10(k) == c * Pow10(j)
  {
    if j == k {
      c := 1;
    } else {
      var d := Pow10Divides(j, k - 1);
      c := 10 * d;
    }
  }

  lemma ModMultiple(c: nat, q: nat, x: nat)
    requires q >= 1
    ensures (c * q + x) % q == x % q
    decreases c
  {
    if c > 0 {
      ModMultiple(c - 1, q, x);
      var y := (c - 1) * q + x;
      assert c * q + x == y + q;
      assert (y + q) % q == y % q by { ModPlus(y, q); }
    }
  }

  lemma ModPlus(y: nat, q: nat)
    requires q >= 1
    ensures (y + q) % q == y % q
  {
    var d, r := y / q, y % q;
    assert y == d * q + r;
    assert y + q == (d + 1) * q + r;
    ModIs(y + q, d + 1, q, r);
  }

  lemma ModIs(x: nat, d: nat, q: nat, r: nat)
    requires q >= 1 && r < q && x == d * q + r
    ensures x % q == r && x / q == d
  {
    var e := x / q;
    assert x == e * q + x % q;
    assert e < d ==> (e + 1) * q <= d * q;
    assert e > d ==> (d + 1) * q <= e * q;
  }

  lemma CutMultiple(d: nat, c: nat, p: nat, q: nat, x: nat)
    requires q >= 1 && p == c * q
    ensures Rem(d * p + x, q) == Rem(x, q)
  {
    Regroup(d, c, q);
    ModMultiple(d * c, q, x);
  }

  /** Cutting the last digits leaves the digits in front of them alone. */
  lemma CutTail(d: nat, k: nat, x: nat, j: nat)
    requires j <= k
    ensures Cut(d * Pow10(k) + x, j) == d * Pow10(k) + Cut(x, j)
  {
    var c := Pow10Divides(j, k);
    CutMultiple(d, c, Pow10(k), Pow10(j), x);
  }

  // ----- text order against time order -----

  lemma {:induction false} CutWithinRest(d: nat, n: nat, m: nat, k: nat)
    requires k >= 1 && n < Pow10(k - 1) && m < Pow10(k - 1) && 0 < d * Pow10(k - 1) + n && d < 10
    ensures CutWithin(d * Pow10(k - 1) + n, d * Pow10(k - 1) + m, k) <==> CutWithin(n, m, k - 1)
  {
    var p := Pow10(k - 1);
    var a, b := d * p + n, d * p + m;
    CutAll(d, m, k);
    forall j | 0 <= j <= k - 1 ensures a == Cut(b, j) <==> n == Cut(m, j) { CutTail(d, k - 1, m, j); }
    if CutWithin(a, b, k) {
      var j :| 0 <= j <= k && a == Cut(b, j);
      assert n == Cut(m, j);
    }
    if CutWithin(n, m, k - 1) {
      var j :| 0 <= j <= k - 1 && n == Cut(m, j);
      assert a == Cut(b, j);
    }
  }

  lemma CutAll(d: nat, m: nat, k: nat)
    requires k >= 1 && d < 10 && m < Pow10(k - 1)
    ensures Cut(d * Pow10(k - 1) + m, k) == 0
  {
    var p := Pow10(k - 1);
    assert d * p <= 9 * p;
    ModIs(d * p + m, 0, Pow10(k), d * p + m);
  }

  lemma {:induction false} LargerDigitIsNoCut(dn: nat, n: nat, dm: nat, m: nat, k: nat)
    requires k >= 1 && n < Pow10(k - 1) && m < Pow10(k - 1) && dn < dm < 10 && 0 < dn * Pow10(k - 1) + n
    ensures !CutWithin(dn * Pow10(k - 1) + n, dm * Pow10(k - 1) + m, k)
  {
    var p := Pow10(k - 1);
    assert (dn + 1) * p <= dm * p;
    CutAll(dm, m, k);
    var a, b := dn * p + n, dm * p + m;
    forall j | 0 <= j <= k - 1 ensures a < Cut(b, j) { CutTail(dm, k - 1, m, j); }
  }

  lemma {:induction false} DigitsOf(d: nat, n: nat, k: nat)
    requires k >= 1 && n < Pow10(k - 1) && d < 10 && 0 < d * Pow10(k - 1) + n
    ensures d * Pow10(k - 1) + n < Pow10(k)
    ensures Digits(d * Pow10(k - 1) + n, k) == [Digit(d)] + Digits(n, k - 1)
  {
    var p := Pow10(k - 1);
    assert d * p <= 9 * p;
    ModIs(d * p + n, d, p, n);
  }

  lemma Split(n: nat, k: nat) returns (d: nat, r: nat)
    requires 0 < n < Pow10(k)
    ensures k >= 1 && d < 10 && r < Pow10(k - 1) && n == d * Pow10(k - 1) + r
  {
    var p := Pow10(k - 1);
    Leading(n, p);
    d, r := n / p, n % p;
  }

  lemma HeadsInOrder(dn: nat, n: nat, dm: nat, m: nat, p: nat)
    requires n < p && m < p && dn * p + n < dm * p + m
    ensures dn <= dm && (dn == dm ==> n < m)
  {
    assert dm < dn ==> (dm + 1) * p <= dn * p;
  }

  lemma SameHead(c: char, s: string, t: string)
    ensures TextLess([c] + s, [c] + t) <==> TextLess(s, t)
  {
    assert ([c] + s)[1..] == s && ([c] + t)[1..] == t;
  }

  /** What the text order of two fractions says. */
  ghost predicate InOrder(s: string, t: string, cut: bool) {
    (TextLess(s, t) <==> !cut) && (TextLess(t, s) <==> cut)
  }

  lemma {:induction false} SameHeads(d: nat, n: nat, m: nat, k: nat)
    requires k >= 1 && n < Pow10(k - 1) && m < Pow10(k - 1) && d < 10
    requires 0 < d * Pow10(k - 1) + n && 0 < d * Pow10(k - 1) + m
    requires InOrder(Digits(n, k - 1), Digits(m, k - 1), CutWithin(n, m, k - 1))
    ensures d * Pow10(k - 1) + n < Pow10(k) && d * Pow10(k - 1) + m < Pow10(k)
    ensures var a, b := d * Pow10(k - 1) + n, d * Pow10(k - 1) + m;
      InOrder(Digits(a, k), Digits(b, k), CutWithin(a, b, k))
  {
    DigitsOf(d, n, k);
    DigitsOf(d, m, k);
    CutWithinRest(d, n, m, k);
    SameHead(Digit(d), Digits(n, k - 1), Digits(m, k - 1));
    SameHead(Digit(d), Digits(m, k - 1), Digits(n, k - 1));
  }

  lemma {:induction false} LargerHead(dn: nat, n: nat, dm: nat, m: nat, k: nat)
    requires k >= 1 && n < Pow10(k - 1) && m < Pow10(k - 1) && dn < dm < 10 && 0 < dn * Pow10(k - 1) + n
    requires 0 < dm * Pow10(k - 1) + m
    ensures dn * Pow10(k - 1) + n < Pow10(k) && dm * Pow10(k - 1) + m < Pow10(k)
    ensures var a, b := dn * Pow10(k - 1) + n, dm * Pow10(k - 1) + m;
      InOrder(Digits(a, k), Digits(b, k), CutWithin(a, b, k))
  {
    DigitsOf(dn, n, k);
    DigitsOf(dm, m, k);
    LargerDigitIsNoCut(dn, n, dm, m, k);
  }

  lemma {:induction false} ZeroIsCut(m: nat, k: nat)
    requires 0 < m < Pow10(k)
    ensures InOrder(Digits(0, k), Digits(m, k), CutWithin(0, m, k))
  {
    var d, r := Split(m, k);
    DigitsOf(d, r, k);
    CutAll(d, r, k);
    assert 0 == Cut(m, k);
  }

  /** Of two fractions the text puts the smaller first, unless it is the larger one cut short. */
  lemma {:induction false} DigitsOrder(n: nat, m: nat, k: nat)
    requires n < m < Pow10(k)
    ensures InOrder(Digits(n, k), Digits(m, k), CutWithin(n, m, k))
  {
    if n == 0 {
      ZeroIsCut(m, k);
    } else {
      var dm, m' := Split(m, k);
      var dn, n' := Split(n, k);
      HeadsInOrder(dn, n', dm, m', Pow10(k - 1));
      if dn == dm {
        DigitsOrder(n', m', k - 1);
        SameHeads(dn, n', m', k);
      } else {
        LargerHead(dn, n', dm, m', k);
      }
    }
  }

  lemma {:induction false} NotBeforeItself(s: string)
    ensures !TextLess(s, s)
  {
    if s != [] { NotBeforeItself(s[1..]); }
  }

  lemma TailOrder(n: nat, m: nat)
    requires n < m < SECOND
    ensures InOrder(Tail(n), Tail(m), CutWithin(n, m, 9))
  {
    Pow10Nine();
    DigitsOrder(n, m, 9);
    if n == 0 {
      ModIs(m, 0, Pow10(9), m);
      assert n == Cut(m, 9);
    } else {
      assert Tail(n)[1..] == Digits(n, 9) && Tail(m)[1..] == Digits(m, 9);
    }
  }

  /** A cut fraction stays in its second. */
  lemma CutInSecond(a: nat, b: nat)
    ensures CutOff(a, b) <==> a / SECOND == b / SECOND && CutWithin(a % SECOND, b % SECOND, 9)
  {
    Pow10Nine();
    var s, n := b / SECOND, b % SECOND;
    assert b == s * Pow10(9) + n;
    forall j | 0 <= j <= 9 ensures a == Cut(b, j) <==> a / SECOND == s && a % SECOND == Cut(n, j) {
      CutTail(s, 9, n, j);
      if a == Cut(b, j) { ModIs(a, s, SECOND, Cut(n, j)); }
    }
  }

  /**
    What the query's comparison decides, for all times: a time not after now is found unless it is now with
    its fraction cut short, and a time after now is found exactly when now is that time cut short.
    */
  lemma StoredOrderExactly(a: nat, b: nat)
    ensures StoredLe(a, b) <==> if a <= b then a == b || !CutOff(a, b) else CutOff(b, a)
  {
    CutInSecond(a, b);
    CutInSecond(b, a);
    var n, m := a % SECOND, b % SECOND;
    if a / SECOND == b / SECOND {
      if n < m { TailOrder(n, m); }
      if m < n { TailOrder(m, n); }
      if n == m { NotBeforeItself(Tail(n)); }
    }
  }
}
