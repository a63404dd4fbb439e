/** Facts about products, quotients and remainders that the index arithmetic uses. */
module Arith {

  lemma DivModUnique(n: nat, m: nat, q: nat, e: nat)
    requires e < m && n == q * m + e
    ensures n / m == q && n % m == e
  {
    var d := n / m - q;
    assert d * m == e - n % m;
    assert d >= 1 ==> (d - 1) * m >= 0;
    assert d <= -1 ==> (-d - 1) * m >= 0;
  }

  lemma DivBelow(n: nat, m: nat, bound: nat)
    requires m > 0
    ensures n / m < bound <==> n < bound * m
  {
    assert n == (n / m) * m + n % m;
    assert n / m < bound ==> (n / m + 1) * m <= bound * m;
    assert n / m >= bound ==> (n / m) * m >= bound * m;
  }

  lemma PositiveFactor(a: nat, b: nat)
    requires a * b > 0
    ensures a > 0 && b > 0
  {
  }

  lemma DivMonotone(x: nat, y: nat, b: nat)
    requires b > 0 && x <= y
    ensures x / b <= y / b
  {
    DivBelow(x, b, y / b + 1);
    DivBelow(y, b, y / b + 1);
  }

  lemma DivDrop(m: nat, m': nat, b: nat)
    requires b > 0 && m' + b <= m
    ensures m' / b + 1 <= m / b
  {
    assert m' == (m' / b) * b + m' % b;
    DivModUnique(m' + b, b, m' / b + 1, m' % b);
    DivMonotone(m' + b, m, b);
  }

  lemma DivModIff(n: nat, m: nat, q: nat, e: nat)
    requires e < m
    ensures n == q * m + e <==> n / m == q && n % m == e
  {
    if n == q * m + e {
      DivModUnique(n, m, q, e);
    } else {
      assert n == (n / m) * m + n % m;
    }
  }

  /** x / t, rounded up. */
  function CeilDiv(x: nat, t: nat): nat
    requires t > 0
  {
    (x + t - 1) / t
  }

  /** CeilDiv(x, t) is the least g with x <= g * t. */
  lemma CeilDivIsLeast(x: nat, t: nat, g: nat)
    requires t > 0 && x <= g * t && (g > 0 ==> (g - 1) * t < x)
    ensures CeilDiv(x, t) == g
  {
    DivModUnique(x + t - 1, t, g, x + t - 1 - g * t) by {
      assert g > 0 ==> (g - 1) * t == g * t - t;
      assert g == 0 ==> x == 0;
    }
  }

  lemma CeilDivBounds(x: nat, t: nat)
    requires t > 0
    ensures x <= CeilDiv(x, t) * t
    ensures CeilDiv(x, t) > 0 ==> (CeilDiv(x, t) - 1) * t < x
  {
    var g := CeilDiv(x, t);
    assert x + t - 1 == g * t + (x + t - 1) % t;
    assert (g - 1) * t == g * t - t;
  }
}
