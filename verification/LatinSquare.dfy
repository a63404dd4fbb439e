/** The rotated execution orders of a Latin square, and what pooling spans over them cancels. */
module LatinSquare {
  import opened Arith

  /** Order r: the protocols rotated left by r. */
  function Rotation<P>(protocols: seq<P>, r: nat): (row: seq<P>)
    ensures |row| == |protocols|
  {
    seq(|protocols|, i requires 0 <= i < |protocols| => protocols[(r + i) % |protocols|])
  }

  function Square<P>(protocols: seq<P>): seq<seq<P>> {
    seq(|protocols|, r requires 0 <= r < |protocols| => Rotation(protocols, r))
  }

  /** All execution orders of a shape: two protocols run their square twice. */
  function Orders<P>(protocols: seq<P>): seq<seq<P>> {
    if |protocols| == 2 then Square(protocols) + Square(protocols) else Square(protocols)
  }

  /** How often each protocol runs in each position. */
  function PerPosition(n: nat): nat { if n == 2 then 2 else 1 }

  ghost predicate Distinct<P>(xs: seq<P>) {
    forall i, j :: 0 <= i < j < |xs| ==> xs[i] != xs[j]
  }

  ghost predicate Rectangular<P>(orders: seq<seq<P>>, n: nat) {
    forall r :: 0 <= r < |orders| ==> |orders[r]| == n
  }

  function Column<P>(orders: seq<seq<P>>, pos: nat): seq<P>
    requires forall r :: 0 <= r < |orders| ==> pos < |orders[r]|
  {
    seq(|orders|, r requires 0 <= r < |orders| => orders[r][pos])
  }

  /** The protocols as a multiset, twice if there are two of them. */
  function Doubled<P(==)>(protocols: seq<P>): multiset<P> {
    if |protocols| == 2 then multiset(protocols) + multiset(protocols) else multiset(protocols)
  }

  lemma Wrapped(r: nat, i: nat, n: nat)
    requires r < n && i < n
    ensures (r + i) % n == if r + i < n then r + i else r + i - n
  {
    DivModUnique(r + i, n, if r + i < n then 0 else 1, if r + i < n then r + i else r + i - n);
  }

  lemma RotationIsPermutation<P>(protocols: seq<P>, r: nat)
    requires r < |protocols|
    ensures multiset(Rotation(protocols, r)) == multiset(protocols)
  {
    var row, n := Rotation(protocols, r), |protocols|;
    var parts := protocols[r..] + protocols[..r];
    forall i | 0 <= i < n
      ensures row[i] == parts[i]
    {
      Wrapped(r, i, n);
    }
    assert row == parts;
    assert protocols == protocols[..r] + protocols[r..];
  }

  /** Every row and every column of the orders is a permutation of the protocols; with two
      protocols the columns hold two copies. */
  lemma OrdersAreLatin<P>(protocols: seq<P>)
    ensures var n, orders := |protocols|, Orders(protocols);
      && |orders| == PerPosition(n) * n && Rectangular(orders, n)
      && (forall r :: 0 <= r < |orders| ==> multiset(orders[r]) == multiset(protocols))
      && forall pos :: 0 <= pos < n ==> multiset(Column(orders, pos)) == Doubled(protocols)
  {
    var n, square, orders := |protocols|, Square(protocols), Orders(protocols);
    forall r | 0 <= r < |orders|
      ensures multiset(orders[r]) == multiset(protocols)
    {
      RotationIsPermutation(protocols, if r < n then r else r - n);
    }
    forall pos | 0 <= pos < n
      ensures multiset(Column(orders, pos)) == Doubled(protocols)
    {
      RotationIsPermutation(protocols, pos);
      assert Column(square, pos) == Rotation(protocols, pos);
      assert n == 2 ==> Column(orders, pos) == Column(square, pos) + Column(square, pos);
    }
  }

  /** Order k runs the protocols in turn, from number k on and around; with two protocols the orders
      are run through twice. */
  lemma OrderAt<P>(protocols: seq<P>, k: nat, pos: nat)
    requires k < |Orders(protocols)| && pos < |protocols|
    ensures |Orders(protocols)| == if |protocols| == 2 then 4 else |protocols|
    ensures |Orders(protocols)[k]| == |protocols|
    ensures Orders(protocols)[k][pos] == protocols[(k + pos) % |protocols|]
  {
    var n := |protocols|;
    if n == 2 && k >= 2 {
      assert (k + pos) % 2 == (k - 2 + pos) % 2;
    }
  }

  lemma {:induction false} DistinctOnce<P>(xs: seq<P>, k: nat)
    requires Distinct(xs) && k < |xs|
    ensures multiset(xs)[xs[k]] == 1
    decreases |xs|
  {
    var n := |xs| - 1;
    assert xs == xs[..n] + [xs[n]];
    if k < n {
      DistinctOnce(xs[..n], k);
    } else {
      assert xs[n] !in xs[..n];
    }
  }

  /** In how many of the orders p runs at that position. */
  function At<P(==)>(orders: seq<seq<P>>, pos: nat, p: P): nat {
    if |orders| == 0 then 0
    else At(orders[..|orders| - 1], pos, p) + Here(orders[|orders| - 1], pos, p)
  }

  function Here<P(==)>(row: seq<P>, pos: nat, p: P): nat { if pos < |row| && row[pos] == p then 1 else 0 }

  lemma {:induction false} AtIsColumnCount<P>(orders: seq<seq<P>>, n: nat, pos: nat, p: P)
    requires Rectangular(orders, n) && pos < n
    ensures At(orders, pos, p) == multiset(Column(orders, pos))[p]
    decreases |orders|
  {
    if |orders| > 0 {
      var k := |orders| - 1;
      AtIsColumnCount(orders[..k], n, pos, p);
      assert Column(orders, pos) == Column(orders[..k], pos) + [orders[k][pos]];
    }
  }

  /** Every protocol runs equally often in every position. */
  lemma Balanced<P>(protocols: seq<P>, k: nat, pos: nat)
    requires Distinct(protocols) && k < |protocols| && pos < |protocols|
    ensures At(Orders(protocols), pos, protocols[k]) == PerPosition(|protocols|)
  {
    OrdersAreLatin(protocols);
    DistinctOnce(protocols, k);
    AtIsColumnCount(Orders(protocols), |protocols|, pos, protocols[k]);
  }

  // ----- pooling spans -----

  /** The sum of p's spans within one order, over the first n positions. */
  function RowTotal<P(==)>(row: seq<P>, n: nat, p: P, base: int, effect: nat -> int): int {
    if n == 0 then 0
    else RowTotal(row, n - 1, p, base, effect)
         + if Here(row, n - 1, p) == 1 then base + effect(n - 1) else 0
  }

  /** The sum of p's spans over all orders when a span is p's base plus the position's effect. */
  function Total<P(==)>(orders: seq<seq<P>>, n: nat, p: P, base: int, effect: nat -> int): int {
    if |orders| == 0 then 0
    else Total(orders[..|orders| - 1], n, p, base, effect) + RowTotal(orders[|orders| - 1], n, p, base, effect)
  }

  function ByPosition<P(==)>(orders: seq<seq<P>>, n: nat, p: P, base: int, effect: nat -> int): int {
    if n == 0 then 0 else ByPosition(orders, n - 1, p, base, effect) + At(orders, n - 1, p) * (base + effect(n - 1))
  }

  lemma {:induction false} ByPositionSnoc<P>(orders: seq<seq<P>>, row: seq<P>, n: nat, p: P, base: int,
                                             effect: nat -> int)
    ensures ByPosition(orders + [row], n, p, base, effect) == ByPosition(orders, n, p, base, effect) +
      RowTotal(row, n, p, base, effect)
    decreases n
  {
    if n > 0 {
      ByPositionSnoc(orders, row, n - 1, p, base, effect);
      assert (orders + [row])[..|orders|] == orders;
      Distribute(At(orders, n - 1, p), Here(row, n - 1, p), base + effect(n - 1));
    }
  }

  lemma Distribute(a: int, b: int, x: int)
    ensures (a + b) * x == a * x + b * x
  {
  }

  lemma {:induction false} ByPositionEmpty<P>(orders: seq<seq<P>>, n: nat, p: P, base: int, effect: nat -> int)
    requires orders == []
    ensures ByPosition(orders, n, p, base, effect) == 0
    decreases n
  {
    if n > 0 {
      ByPositionEmpty(orders, n - 1, p, base, effect);
    }
  }

  lemma {:induction false} TotalByPosition<P>(orders: seq<seq<P>>, n: nat, p: P, base: int, effect: nat -> int)
    ensures Total(orders, n, p, base, effect) == ByPosition(orders, n, p, base, effect)
    decreases |orders|
  {
    if |orders| == 0 {
      ByPositionEmpty(orders, n, p, base, effect);
    } else {
      var k := |orders| - 1;
      TotalByPosition(orders[..k], n, p, base, effect);
      ByPositionSnoc(orders[..k], orders[k], n, p, base, effect);
      assert orders == orders[..k] + [orders[k]];
    }
  }

  function Effects(n: nat, effect: nat -> int): int {
    if n == 0 then 0 else Effects(n - 1, effect) + effect(n - 1)
  }

  lemma {:induction false} ByPositionBalanced<P>(orders: seq<seq<P>>, n: nat, p: P, base: int, effect: nat -> int,
                                                 c: nat)
    requires forall pos :: 0 <= pos < n ==> At(orders, pos, p) == c
    ensures ByPosition(orders, n, p, base, effect) == c * n * base + c * Effects(n, effect)
    decreases n
  {
    if n > 0 {
      ByPositionBalanced(orders, n - 1, p, base, effect, c);
      Gather(c, n, base, Effects(n - 1, effect), effect(n - 1));
    }
  }

  lemma Gather(c: int, n: int, base: int, sum: int, e: int)
    ensures c * (n - 1) * base + c * sum + c * (base + e) == c * n * base + c * (sum + e)
  {
    assert c * (n - 1) * base == c * n * base - c * base;
  }

  /** The claim of the design: whatever the position effects, the pooled spans of two protocols
      differ by the repetition count times the difference of their bases. */
  lemma PositionEffectsCancel<P>(protocols: seq<P>, i: nat, j: nat, base: P -> int, effect: nat -> int)
    requires Distinct(protocols) && i < |protocols| && j < |protocols|
    ensures var orders, n, p, q := Orders(protocols), |protocols|, protocols[i], protocols[j];
      Total(orders, n, p, base(p), effect) - Total(orders, n, q, base(q), effect) == |orders| * (base(p) - base(q))
  {
    var orders, n, c := Orders(protocols), |protocols|, PerPosition(|protocols|);
    OrdersAreLatin(protocols);
    forall pos | 0 <= pos < n
      ensures At(orders, pos, protocols[i]) == c && At(orders, pos, protocols[j]) == c
    {
      Balanced(protocols, i, pos);
      Balanced(protocols, j, pos);
    }
    var p, q := protocols[i], protocols[j];
    TotalByPosition(orders, n, p, base(p), effect);
    TotalByPosition(orders, n, q, base(q), effect);
    ByPositionBalanced(orders, n, p, base(p), effect, c);
    ByPositionBalanced(orders, n, q, base(q), effect, c);
    Difference(c * n, base(p), base(q));
  }

  lemma Difference(k: int, a: int, b: int)
    ensures k * a - k * b == k * (a - b)
  {
  }
}
