/** Left-to-right folds over an abstract payload algebra, and the sum exchanges that
    the cross-rank reductions rest on.

    The laws of a commutative monoid are stated through `UnitAt`, `CommAt` and
    `AssocAt`, so that a proof names each instance it uses. */
module Folds {

  datatype Algebra<!T> = Algebra(zero: T, add: (T, T) -> T)

  predicate UnitAt<T(==)>(a: Algebra<T>, x: T) {
    a.add(a.zero, x) == x && a.add(x, a.zero) == x
  }

  predicate CommAt<T(==)>(a: Algebra<T>, x: T, y: T) {
    a.add(x, y) == a.add(y, x)
  }

  predicate AssocAt<T(==)>(a: Algebra<T>, x: T, y: T, z: T) {
    a.add(a.add(x, y), z) == a.add(x, a.add(y, z))
  }

  ghost predicate CommutativeMonoid<T(!new)>(a: Algebra<T>) {
    && (forall x :: UnitAt(a, x))
    && (forall x, y :: CommAt(a, x, y))
    && (forall x, y, z :: AssocAt(a, x, y, z))
  }

  /** zero + xs[0] + xs[1] + ..., in that order: the accumulation loop of a reader. */
  function Fold<T>(a: Algebra<T>, xs: seq<T>): T {
    if |xs| == 0 then a.zero
    else a.add(Fold(a, xs[..|xs| - 1]), xs[|xs| - 1])
  }

  // ----- what a fold adds, and in which order -----

  /** acc[i] is the sum before the i-th addition. */
  ghost predicate Accumulation<T>(a: Algebra<T>, term: nat -> T, acc: seq<T>) {
    && |acc| > 0 && acc[0] == a.zero
    && forall i: nat :: i < |acc| - 1 ==> acc[i + 1] == a.add(acc[i], term(i))
  }

  /** v is ((zero + term(0)) + term(1)) + ... + term(n - 1), added one after the other. */
  ghost predicate AddedUp<T(!new)>(a: Algebra<T>, n: nat, term: nat -> T, v: T) {
    exists acc: seq<T> :: Accumulation(a, term, acc) && |acc| == n + 1 && acc[n] == v
  }

  lemma {:induction false} FoldAccumulates<T>(a: Algebra<T>, xs: seq<T>, term: nat -> T) returns (acc: seq<T>)
    requires forall i: nat :: i < |xs| ==> xs[i] == term(i)
    ensures Accumulation(a, term, acc) && |acc| == |xs| + 1 && acc[|xs|] == Fold(a, xs)
  {
    if |xs| == 0 {
      acc := [a.zero];
    } else {
      var before := FoldAccumulates(a, xs[..|xs| - 1], term);
      acc := before + [Fold(a, xs)];
    }
  }

  lemma FoldAddsUp<T(!new)>(a: Algebra<T>, xs: seq<T>, term: nat -> T)
    requires forall i: nat :: i < |xs| ==> xs[i] == term(i)
    ensures AddedUp(a, |xs|, term, Fold(a, xs))
  {
    var acc := FoldAccumulates(a, xs, term);
  }

  /** Texts under concatenation: a payload whose sum tells the order of its terms. */
  function Spelling<X>(): Algebra<seq<X>> { Algebra([], (x: seq<X>, y: seq<X>) => x + y) }

  /** Adding up letters one after the other spells the word: every term once, in order. */
  lemma {:induction false} AccumulationSpells<X>(acc: seq<seq<X>>, letter: nat -> X, n: nat)
    requires Accumulation(Spelling(), (i: nat) => [letter(i)], acc) && n < |acc|
    ensures acc[n] == seq(n, i requires 0 <= i < n => letter(i))
  {
    if n > 0 {
      AccumulationSpells(acc, letter, n - 1);
    }
  }

  lemma AddedUpSpells<X(!new)>(n: nat, letter: nat -> X, term: nat -> seq<X>, v: seq<X>)
    requires AddedUp(Spelling(), n, term, v) && forall i: nat :: i < n ==> term(i) == [letter(i)]
    ensures v == seq(n, i requires 0 <= i < n => letter(i))
  {
    var acc: seq<seq<X>> :| Accumulation(Spelling(), term, acc) && |acc| == n + 1 && acc[n] == v;
    AccumulationSpells(acc, letter, n);
  }

  /** The fold of letters is the word. */
  lemma FoldSpells<X(!new)>(xs: seq<X>)
    ensures Fold(Spelling(), seq(|xs|, i requires 0 <= i < |xs| => [xs[i]])) == xs
  {
    if |xs| > 0 {
      var letter := (i: nat) => if i < |xs| then xs[i] else xs[0];
      var term := (i: nat) => [letter(i)];
      FoldAddsUp(Spelling(), seq(|xs|, i requires 0 <= i < |xs| => [xs[i]]), term);
      AddedUpSpells(|xs|, letter, term, Fold(Spelling(), seq(|xs|, i requires 0 <= i < |xs| => [xs[i]])));
    }
  }

  /** The elements whose bit is on; zero elsewhere. */
  function Masked<T>(a: Algebra<T>, xs: seq<T>, on: seq<bool>): seq<T>
    requires |on| == |xs|
  {
    seq(|xs|, i requires 0 <= i < |xs| => if on[i] then xs[i] else a.zero)
  }

  lemma {:induction false} FoldAllZero<T(!new)>(a: Algebra<T>, xs: seq<T>)
    requires CommutativeMonoid(a)
    requires forall i :: 0 <= i < |xs| ==> xs[i] == a.zero
    ensures Fold(a, xs) == a.zero
  {
    if |xs| > 0 {
      FoldAllZero(a, xs[..|xs| - 1]);
      assert UnitAt(a, a.zero);
    }
  }

  /** Adding v to one element adds v to the fold, whichever element it is. */
  lemma {:induction false} FoldAddAt<T(!new)>(a: Algebra<T>, xs: seq<T>, k: nat, v: T)
    requires CommutativeMonoid(a)
    requires k < |xs|
    ensures Fold(a, xs[k := a.add(xs[k], v)]) == a.add(Fold(a, xs), v)
  {
    var n := |xs| - 1;
    var ys := xs[k := a.add(xs[k], v)];
    if k == n {
      assert ys[..n] == xs[..n];
      assert AssocAt(a, Fold(a, xs[..n]), xs[n], v);
    } else {
      assert ys[..n] == xs[..n][k := a.add(xs[..n][k], v)];
      FoldAddAt(a, xs[..n], k, v);
      var f := Fold(a, xs[..n]);
      assert AssocAt(a, f, v, xs[n]) && CommAt(a, v, xs[n]) && AssocAt(a, f, xs[n], v);
    }
  }

  /** Switching one more contribution on adds exactly that contribution: the step of an
      atomic add, in whatever order the adds arrive. */
  lemma MaskedFoldSwitchOn<T(!new)>(a: Algebra<T>, xs: seq<T>, on: seq<bool>, k: nat)
    requires CommutativeMonoid(a)
    requires |on| == |xs| && k < |xs| && !on[k]
    ensures Fold(a, Masked(a, xs, on[k := true])) == a.add(Fold(a, Masked(a, xs, on)), xs[k])
  {
    var ms := Masked(a, xs, on);
    assert UnitAt(a, xs[k]);
    assert Masked(a, xs, on[k := true]) == ms[k := a.add(ms[k], xs[k])];
    FoldAddAt(a, ms, k, xs[k]);
  }

  predicate OwnersBelow(own: seq<nat>, world: nat) {
    forall k :: 0 <= k < |own| ==> own[k] < world
  }

  function OwnedBits(own: seq<nat>, s: nat): seq<bool> {
    seq(|own|, k requires 0 <= k < |own| => own[k] == s)
  }

  function PartialSums<T>(a: Algebra<T>, xs: seq<T>, own: seq<nat>, world: nat): seq<T>
    requires |own| == |xs|
  {
    seq(world, s requires 0 <= s < world => Fold(a, Masked(a, xs, OwnedBits(own, s))))
  }

  /** If every contribution has exactly one owner among `world` ranks, summing the owners'
      partial sums gives the sum of all contributions. */
  lemma {:induction false} PartitionFold<T(!new)>(a: Algebra<T>, xs: seq<T>, own: seq<nat>, world: nat)
    requires CommutativeMonoid(a)
    requires |own| == |xs| && OwnersBelow(own, world)
    ensures Fold(a, PartialSums(a, xs, own, world)) == Fold(a, xs)
  {
    var sums := PartialSums(a, xs, own, world);
    if |xs| == 0 {
      FoldAllZero(a, sums);
    } else {
      var n := |xs| - 1;
      var ys, pre, o := xs[..n], own[..n], own[n];
      PartitionFold(a, ys, pre, world);
      var before := PartialSums(a, ys, pre, world);
      forall s | 0 <= s < world
        ensures sums[s] == if s == o then a.add(before[s], xs[n]) else before[s]
      {
        var ms := Masked(a, xs, OwnedBits(own, s));
        assert ms[..n] == Masked(a, ys, OwnedBits(pre, s));
        assert UnitAt(a, before[s]);
      }
      assert sums == before[o := a.add(before[o], xs[n])];
      FoldAddAt(a, before, o, xs[n]);
    }
  }

  /** How many bits are set. */
  function Count(bits: seq<bool>): nat {
    if |bits| == 0 then 0 else Count(bits[..|bits| - 1]) + (if bits[|bits| - 1] then 1 else 0)
  }

  lemma {:induction false} CountBounded(bits: seq<bool>)
    ensures Count(bits) <= |bits|
    ensures Count(bits) == |bits| <==> forall i :: 0 <= i < |bits| ==> bits[i]
  {
    if |bits| > 0 {
      var n := |bits| - 1;
      CountBounded(bits[..n]);
      if forall i :: 0 <= i < |bits[..n]| ==> bits[..n][i] {
        assert forall i :: 0 <= i < n ==> bits[i] == bits[..n][i];
      } else {
        assert Count(bits[..n]) < n;
      }
    }
  }

  lemma {:induction false} CountSwitchOn(bits: seq<bool>, k: nat)
    requires k < |bits| && !bits[k]
    ensures Count(bits[k := true]) == Count(bits) + 1
  {
    var n := |bits| - 1;
    if k == n {
      assert bits[k := true][..n] == bits[..n];
    } else {
      assert bits[k := true][..n] == bits[..n][k := true];
      CountSwitchOn(bits[..n], k);
    }
  }

  lemma {:induction false} CountNone(bits: seq<bool>)
    requires forall i :: 0 <= i < |bits| ==> !bits[i]
    ensures Count(bits) == 0
  {
    if |bits| > 0 {
      CountNone(bits[..|bits| - 1]);
    }
  }
}
