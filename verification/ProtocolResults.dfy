/** What the report's tables hold when the driver's own plan is mapped onto fitting traces. */
module ProtocolResults {
  import opened Optional
  import opened LatinSquare
  import opened Manifest
  import opened LatinDriver
  import opened ProtocolReport

  // ----- the groups are the launches -----

  /** The groups of the first i executions, put together. */
  function Joined(manifest: seq<Entry>, launches: seq<Launch>, i: nat): seq<Launch>
    requires i <= |manifest|
  {
    if i == 0 then [] else Joined(manifest, launches, i - 1) + Group(manifest, launches, i - 1)
  }

  lemma {:induction false} JoinedIsPrefix(manifest: seq<Entry>, launches: seq<Launch>, i: nat)
    requires i <= |manifest| && Fits(manifest, launches)
    ensures Offset(manifest[..i]) <= |launches| && Joined(manifest, launches, i) == launches[..Offset(manifest[..i])]
  {
    if i > 0 {
      JoinedIsPrefix(manifest, launches, i - 1);
      FitsGroup(manifest, launches, i - 1);
    }
  }

  /** The groups of a fitting trace partition its launches, in order. */
  lemma GroupsPartitionLaunches(manifest: seq<Entry>, launches: seq<Launch>)
    requires Fits(manifest, launches)
    ensures Joined(manifest, launches, |manifest|) == launches
  {
    JoinedIsPrefix(manifest, launches, |manifest|);
    assert manifest[..|manifest|] == manifest;
    assert |ProtosOf(launches)| == |launches|;
  }

  // ----- a log with an unfinished real pass -----

  /** Every execution makes at least one launch. */
  lemma {:induction false} ExpandedAtLeast(es: seq<Entry>)
    requires Expanded(es).Some?
    ensures |Expanded(es).value| >= |es|
    decreases |es|
  {
    if |es| > 0 {
      ExpandedAtLeast(es[..|es| - 1]);
    }
  }

  /** A log whose real pass stopped early is not cut, and then no trace is accepted that recorded
      the plan or any part of it: nothing is reported under wrong labels. */
  lemma UnfinishedPassRejected(ms: seq<nat>, run: seq<Entry>, part: seq<Entry>, launches: seq<Launch>)
    requires |run| > 0 && part <= Plan(ms) && Fits(part, launches)
    ensures !Fits(Plan(ms) + run, launches)
  {
    LongerExpands(part, Plan(ms), run);
    assert |ProtosOf(launches)| == |launches|;
  }

  lemma LongerExpands(part: seq<Entry>, plan: seq<Entry>, run: seq<Entry>)
    requires |run| > 0 && part <= plan && Expanded(part).Some?
    ensures Expanded(plan + run).Some? ==> |Expanded(plan + run).value| > |Expanded(part).value|
  {
    CollectConcat(LaunchesOf, plan, run);
    assert plan == part + plan[|part|..];
    CollectConcat(LaunchesOf, part, plan[|part|..]);
    if Expanded(run).Some? {
      ExpandedAtLeast(run);
    }
  }

  // ----- weights -----

  /** What a latin execution of (m, proto) adds when every span is base plus effect(pos). */
  function WeightOf(e: Entry, m: nat, proto: string, base: int, effect: nat -> int): int {
    if e.phase == "latin" && e.m == m && e.proto == proto && e.pos.Some? && e.pos.value >= 0
    then base + effect(e.pos.value) else 0
  }

  function Weight(es: seq<Entry>, m: nat, proto: string, base: int, effect: nat -> int): int {
    if |es| == 0 then 0
    else Weight(es[..|es| - 1], m, proto, base, effect) + WeightOf(es[|es| - 1], m, proto, base, effect)
  }

  lemma {:induction false} WeightConcat(a: seq<Entry>, b: seq<Entry>, m: nat, proto: string, base: int,
                                        effect: nat -> int)
    ensures Weight(a + b, m, proto, base, effect) == Weight(a, m, proto, base, effect) +
      Weight(b, m, proto, base, effect)
    decreases |b|
  {
    if |b| == 0 {
      assert a + b == a;
    } else {
      var k := |b| - 1;
      WeightConcat(a, b[..k], m, proto, base, effect);
      assert (a + b)[..|a + b| - 1] == a + b[..k];
    }
  }

  lemma {:induction false} WeightNone(es: seq<Entry>, m: nat, proto: string, base: int, effect: nat -> int)
    requires forall i :: 0 <= i < |es| ==> es[i].phase != "latin" || es[i].m != m
    ensures Weight(es, m, proto, base, effect) == 0
    decreases |es|
  {
    if |es| > 0 {
      WeightNone(es[..|es| - 1], m, proto, base, effect);
    }
  }

  lemma {:induction false} WeightOfOrder(m: nat, k: nat, order: seq<string>, first: nat, i: nat, proto: string,
                                         base: int, effect: nat -> int)
    requires i <= |order|
    ensures Weight(OrderRuns(m, k, order, first)[..i], m, proto, base, effect) ==
      RowTotal(order, i, proto, base, effect)
    decreases i
  {
    var runs := OrderRuns(m, k, order, first);
    if i > 0 {
      WeightOfOrder(m, k, order, first, i - 1, proto, base, effect);
      assert runs[..i][..i - 1] == runs[..i - 1];
    }
  }

  lemma {:induction false} WeightOfSquare(m: nat, orders: seq<seq<string>>, n: nat, first: nat, proto: string,
                                          base: int, effect: nat -> int)
    requires Rectangular(orders, n)
    ensures Weight(LatinRuns(m, orders, first), m, proto, base, effect) == Total(orders, n, proto, base, effect)
    decreases |orders|
  {
    if |orders| > 0 {
      var k := |orders| - 1;
      WeightOfSquare(m, orders[..k], n, first, proto, base, effect);
      WeightOfLast(m, orders, first, proto, base, effect);
    }
  }

  /** What the last order adds. */
  lemma WeightOfLast(m: nat, orders: seq<seq<string>>, first: nat, proto: string, base: int, effect: nat -> int)
    requires |orders| > 0
    ensures var k := |orders| - 1;
      Weight(LatinRuns(m, orders, first), m, proto, base, effect)
        == Weight(LatinRuns(m, orders[..k], first), m, proto, base, effect)
           + RowTotal(orders[k], |orders[k]|, proto, base, effect)
  {
    var k := |orders| - 1;
    var before := LatinRuns(m, orders[..k], first);
    var runs := OrderRuns(m, k, orders[k], first + |before|);
    WeightOfOrder(m, k, orders[k], first + |before|, |orders[k]|, proto, base, effect);
    assert runs[..|orders[k]|] == runs;
    WeightConcat(before, runs, m, proto, base, effect);
  }

  function Occurs(ms: seq<nat>, m: nat): nat { multiset(ms)[m] }

  lemma {:induction false} OthersWeighNothing(m': nat, m: nat, orders: seq<seq<string>>, first: nat)
    requires m' != m
    ensures forall i :: 0 <= i < |LatinRuns(m', orders, first)| ==> LatinRuns(m', orders, first)[i].m != m
    decreases |orders|
  {
    if |orders| > 0 {
      OthersWeighNothing(m', m, orders[..|orders| - 1], first);
    }
  }

  lemma WeightOfShape(m': nat, protocols: seq<string>, first: nat, m: nat, proto: string, base: int, effect: nat -> int)
    ensures Weight(ShapeRuns(m', protocols, first), m, proto, base, effect)
         == if m' == m then Total(Orders(protocols), |protocols|, proto, base, effect) else 0
  {
    var orders, second := Orders(protocols), first + |protocols|;
    var latin := LatinRuns(m', orders, second);
    OrdersAreLatin(protocols);
    assert "warmup"[0] != "latin"[0];
    WeightNone(Warmups(m', protocols, first), m, proto, base, effect);
    WeightConcat(Warmups(m', protocols, first), latin, m, proto, base, effect);
    if m' == m {
      WeightOfSquare(m, orders, |protocols|, second, proto, base, effect);
    } else {
      OthersWeighNothing(m', m, orders, second);
      WeightNone(latin, m, proto, base, effect);
    }
  }

  /** The weight of one shape's orders. */
  function ShapeTotal(m: nat, proto: string, base: int, effect: nat -> int): int {
    Total(Orders(Protocols(m)), |Protocols(m)|, proto, base, effect)
  }

  lemma WeightOfPlanStep(before: seq<Entry>, m': nat, m: nat, proto: string, base: int, effect: nat -> int)
    ensures Weight(before + ShapeRuns(m', Protocols(m'), |before|), m, proto, base, effect)
         == Weight(before, m, proto, base, effect) + if m' == m then ShapeTotal(m, proto, base, effect) else 0
  {
    WeightOfShape(m', Protocols(m'), |before|, m, proto, base, effect);
    WeightConcat(before, ShapeRuns(m', Protocols(m'), |before|), m, proto, base, effect);
  }

  /** x once per occurrence of m. */
  function Repeated(ms: seq<nat>, m: nat, x: int): int {
    if |ms| == 0 then 0 else Repeated(ms[..|ms| - 1], m, x) + if ms[|ms| - 1] == m then x else 0
  }

  lemma {:induction false} RepeatedIs(ms: seq<nat>, m: nat, x: int)
    ensures Repeated(ms, m, x) == Occurs(ms, m) * x
    decreases |ms|
  {
    if |ms| > 0 {
      var k := |ms| - 1;
      RepeatedIs(ms[..k], m, x);
      assert ms == ms[..k] + [ms[k]];
      Distribute(Occurs(ms[..k], m), if ms[k] == m then 1 else 0, x);
    }
  }

  /** A plan's weight is that of one shape's orders, once per occurrence of the shape. */
  lemma {:induction false} WeightOfPlan(ms: seq<nat>, m: nat, proto: string, base: int, effect: nat -> int, shape: int)
    requires shape == ShapeTotal(m, proto, base, effect)
    ensures Weight(Plan(ms), m, proto, base, effect) == Repeated(ms, m, shape)
    decreases |ms|
  {
    if |ms| > 0 {
      var k := |ms| - 1;
      WeightOfPlan(ms[..k], m, proto, base, effect, shape);
      PlanLast(ms);
      WeightOfPlanStep(Plan(ms[..k]), ms[k], m, proto, base, effect);
    }
  }

  lemma PlanLast(ms: seq<nat>)
    requires |ms| > 0
    ensures var k := |ms| - 1; Plan(ms) == Plan(ms[..k]) + ShapeRuns(ms[k], Protocols(ms[k]), |Plan(ms[..k])|)
  {
  }

  // ----- from items to weights -----

  function ItemWeight(items: seq<Item>, m: nat, proto: string, base: int, effect: nat -> int): int {
    if |items| == 0 then 0
    else ItemWeight(items[..|items| - 1], m, proto, base, effect)
         + WeightOf(items[|items| - 1].0, m, proto, base, effect)
  }

  ghost predicate GroupsTimed(manifest: seq<Entry>, launches: seq<Launch>) {
    forall i :: 0 <= i < |manifest| ==> |AllLives(Group(manifest, launches, i))| > 0
  }

  lemma WeightSnoc(manifest: seq<Entry>, i: nat, m: nat, proto: string, base: int, effect: nat -> int)
    requires i < |manifest|
    ensures Weight(manifest[..i + 1], m, proto, base, effect)
         == Weight(manifest[..i], m, proto, base, effect) + WeightOf(manifest[i], m, proto, base, effect)
  {
    assert manifest[..i + 1][..i] == manifest[..i];
  }

  lemma {:induction false} ItemsWeigh(manifest: seq<Entry>, launches: seq<Launch>, i: nat, m: nat, proto: string,
                                      base: int, effect: nat -> int)
    requires GroupsTimed(manifest, launches) && i <= |manifest|
    ensures ItemWeight(ItemsUpto(manifest, launches, i), m, proto, base, effect) ==
      Weight(manifest[..i], m, proto, base, effect)
    decreases i
  {
    if i > 0 {
      ItemsWeigh(manifest, launches, i - 1, m, proto, base, effect);
      ItemWeighs(manifest, launches, i - 1, m, proto, base, effect);
      WeightSnoc(manifest, i - 1, m, proto, base, effect);
    }
  }

  lemma FitsIsTimed(manifest: seq<Entry>, launches: seq<Launch>)
    requires Fits(manifest, launches)
    ensures GroupsTimed(manifest, launches)
  {
    forall i | 0 <= i < |manifest|
      ensures |AllLives(Group(manifest, launches, i))| > 0
    {
      GroupTimed(manifest, launches, i);
    }
  }

  lemma GroupTimed(manifest: seq<Entry>, launches: seq<Launch>, i: nat)
    requires Fits(manifest, launches) && i < |manifest|
    ensures |AllLives(Group(manifest, launches, i))| > 0
  {
    FitsGroup(manifest, launches, i);
    TimedLives(Group(manifest, launches, i), manifest[i].proto);
  }

  lemma ItemWeighs(manifest: seq<Entry>, launches: seq<Launch>, i: nat, m: nat, proto: string, base: int,
                   effect: nat -> int)
    requires i < |manifest| && |AllLives(Group(manifest, launches, i))| > 0
    ensures ItemWeight(ItemsUpto(manifest, launches, i + 1), m, proto, base, effect)
         == ItemWeight(ItemsUpto(manifest, launches, i), m, proto, base, effect)
            + WeightOf(manifest[i], m, proto, base, effect)
  {
    var before, item := ItemsUpto(manifest, launches, i), (manifest[i], Span(Group(manifest, launches, i)));
    if manifest[i].phase == "latin" {
      assert ItemsUpto(manifest, launches, i + 1) == before + [item];
      ItemWeightSnoc(before, item, m, proto, base, effect);
    } else {
      assert ItemsUpto(manifest, launches, i + 1) == before;
    }
  }

  lemma ItemWeightSnoc(items: seq<Item>, item: Item, m: nat, proto: string, base: int, effect: nat -> int)
    ensures ItemWeight(items + [item], m, proto, base, effect)
         == ItemWeight(items, m, proto, base, effect) + WeightOf(item.0, m, proto, base, effect)
  {
    assert (items + [item])[..|items|] == items;
  }

  lemma TimedLives(group: seq<Launch>, proto: string)
    requires GroupAssert(group, proto) && AllTimed(group)
    ensures |AllLives(group)| > 0
  {
    GroupAssertIff(group, proto);
  }

  function Sum(xs: seq<int>): int { if |xs| == 0 then 0 else Sum(xs[..|xs| - 1]) + xs[|xs| - 1] }

  /** Every item is a latin execution at a position of its shape. */
  ghost predicate Placed(items: seq<Item>) {
    forall i :: 0 <= i < |items| ==> PlacedItem(items[i])
  }

  predicate PlacedItem(item: Item) {
    item.0.phase == "latin" && item.0.pos.Some? && 0 <= item.0.pos.value < |Protocols(item.0.m)|
  }

  /** The spans of (m, proto) are base plus the effect of the position. */
  ghost predicate Explained(items: seq<Item>, m: nat, proto: string, base: int, effect: nat -> int) {
    forall i :: 0 <= i < |items| && KeyOf(items[i].0) == (m, proto) ==>
      items[i].1 == WeightOf(items[i].0, m, proto, base, effect)
  }

  lemma {:induction false} BucketSum(items: seq<Item>, m: nat, proto: string, base: int, effect: nat -> int)
    requires Placed(items) && Explained(items, m, proto, base, effect)
    ensures Sum(Bucket(items, KeyOf, (m, proto))) == ItemWeight(items, m, proto, base, effect)
    decreases |items|
  {
    if |items| > 0 {
      var k := |items| - 1;
      BucketSum(items[..k], m, proto, base, effect);
      assert PlacedItem(items[k]);
      SumSnoc(Bucket(items[..k], KeyOf, (m, proto)), items[k].1);
    }
  }

  lemma SumSnoc(xs: seq<int>, x: int)
    ensures Sum(xs + [x]) == Sum(xs) + x
  {
    assert (xs + [x])[..|xs|] == xs;
  }

  lemma {:induction false} BucketSize(items: seq<Item>, m: nat, proto: string)
    requires Placed(items)
    ensures |Bucket(items, KeyOf, (m, proto))| == ItemWeight(items, m, proto, 1, Zero())
    decreases |items|
  {
    if |items| > 0 {
      BucketSize(items[..|items| - 1], m, proto);
      assert PlacedItem(items[|items| - 1]);
    }
  }

  function Zero(): nat -> int { p => 0 }

  /** 1 at a position, 0 elsewhere. */
  function Only(pos: nat): nat -> int { p => if p == pos then 1 else 0 }

  lemma {:induction false} PosBucketSize(items: seq<Item>, m: nat, proto: string, pos: nat)
    requires Placed(items)
    ensures |Bucket(items, PosKeyOf, (m, proto, Some(pos)))| == ItemWeight(items, m, proto, 0, Only(pos))
    decreases |items|
  {
    if |items| > 0 {
      PosBucketSize(items[..|items| - 1], m, proto, pos);
      assert PlacedItem(items[|items| - 1]);
    }
  }

  // ----- the results -----

  lemma {:induction false} EffectsOfZero(n: nat)
    ensures Effects(n, Zero()) == 0
  {
    if n > 0 {
      EffectsOfZero(n - 1);
    }
  }

  lemma {:induction false} EffectsOfOnly(n: nat, pos: nat)
    ensures Effects(n, Only(pos)) == if pos < n then 1 else 0
  {
    if n > 0 {
      EffectsOfOnly(n - 1, pos);
    }
  }

  lemma ProtocolsDistinct(m: nat)
    ensures Distinct(Protocols(m)) && |Protocols(m)| >= 2
  {
    assert "ll"[0] == 'l' && "bt"[0] == 'b' && "ht"[0] == 'h';
  }

  /** The total of a protocol: its base once per repetition, every position effect equally often. */
  lemma ShapeTotalIs(m: nat, i: nat, base: int, effect: nat -> int)
    requires i < |Protocols(m)|
    ensures var n := |Protocols(m)|; var c := PerPosition(n);
      ShapeTotal(m, Protocols(m)[i], base, effect) == c * n * base + c * Effects(n, effect)
  {
    BalancedTotal(Protocols(m), i, base, effect) by { ProtocolsDistinct(m); }
  }

  lemma BalancedTotal(protocols: seq<string>, i: nat, base: int, effect: nat -> int)
    requires Distinct(protocols) && i < |protocols|
    ensures var n := |protocols|; var c := PerPosition(n);
      Total(Orders(protocols), n, protocols[i], base, effect) == c * n * base + c * Effects(n, effect)
  {
    var n := |protocols|;
    forall pos | 0 <= pos < n
      ensures At(Orders(protocols), pos, protocols[i]) == PerPosition(n)
    {
      Balanced(protocols, i, pos);
    }
    TotalByPosition(Orders(protocols), n, protocols[i], base, effect);
    ByPositionBalanced(Orders(protocols), n, protocols[i], base, effect, PerPosition(n));
  }

  lemma {:induction false} PlanPlaced(ms: seq<nat>)
    ensures forall i :: 0 <= i < |Plan(ms)| && Plan(ms)[i].phase == "latin" ==> PlacedItem((Plan(ms)[i], 0))
    decreases |ms|
  {
    if |ms| > 0 {
      var k := |ms| - 1;
      var before := Plan(ms[..k]);
      PlanPlaced(ms[..k]);
      ShapePlaced(ms[k], Protocols(ms[k]), |before|);
    }
  }

  ghost predicate PlacedWithin(es: seq<Entry>, n: nat, m: nat) {
    forall i :: 0 <= i < |es| && es[i].phase == "latin" ==> es[i].m == m && es[i].pos.Some? && 0 <= es[i].pos.value < n
  }

  lemma {:induction false} LatinPlaced(m: nat, orders: seq<seq<string>>, n: nat, first: nat)
    requires Rectangular(orders, n)
    ensures PlacedWithin(LatinRuns(m, orders, first), n, m)
    decreases |orders|
  {
    if |orders| > 0 {
      LatinPlaced(m, orders[..|orders| - 1], n, first);
    }
  }

  lemma ShapePlaced(m: nat, protocols: seq<string>, first: nat)
    ensures PlacedWithin(ShapeRuns(m, protocols, first), |protocols|, m)
  {
    OrdersAreLatin(protocols);
    LatinPlaced(m, Orders(protocols), |protocols|, first + |protocols|);
    assert "warmup"[0] != "latin"[0];
    assert forall i :: 0 <= i < |protocols| ==> Warmups(m, protocols, first)[i].phase == "warmup";
  }

  lemma {:induction false} ItemsPlaced(manifest: seq<Entry>, launches: seq<Launch>, k: nat)
    requires forall i :: 0 <= i < |manifest| && manifest[i].phase == "latin" ==> PlacedItem((manifest[i], 0))
    requires k <= |manifest|
    ensures Placed(ItemsUpto(manifest, launches, k))
  {
    if k > 0 {
      ItemsPlaced(manifest, launches, k - 1);
    }
  }

  lemma PlanItemsPlaced(ms: seq<nat>, launches: seq<Launch>)
    ensures Placed(Items(Plan(ms), launches))
  {
    PlanPlaced(ms);
    ItemsPlaced(Plan(ms), launches, |Plan(ms)|);
  }

  lemma PlanItemsRepeat(ms: seq<nat>, launches: seq<Launch>, m: nat, proto: string, base: int, effect: nat -> int)
    requires Fits(Plan(ms), launches)
    ensures ItemWeight(Items(Plan(ms), launches), m, proto, base, effect)
         == Repeated(ms, m, ShapeTotal(m, proto, base, effect))
  {
    var plan := Plan(ms);
    FitsIsTimed(plan, launches);
    ItemsWeigh(plan, launches, |plan|, m, proto, base, effect);
    assert plan[..|plan|] == plan;
    WeightOfPlan(ms, m, proto, base, effect, ShapeTotal(m, proto, base, effect));
  }

  lemma PlanItemsWeigh(ms: seq<nat>, launches: seq<Launch>, m: nat, proto: string, base: int, effect: nat -> int)
    requires Fits(Plan(ms), launches)
    ensures ItemWeight(Items(Plan(ms), launches), m, proto, base, effect) ==
      Occurs(ms, m) * ShapeTotal(m, proto, base, effect)
  {
    PlanItemsRepeat(ms, launches, m, proto, base, effect);
    RepeatedIs(ms, m, ShapeTotal(m, proto, base, effect));
  }

  /** How often a protocol runs at one position, and in all, within one shape. */
  lemma RunsPerShape(m: nat, i: nat, pos: nat)
    requires i < |Protocols(m)| && pos < |Protocols(m)|
    ensures ShapeTotal(m, Protocols(m)[i], 0, Only(pos)) == PerPosition(|Protocols(m)|)
    ensures ShapeTotal(m, Protocols(m)[i], 1, Zero()) == PerPosition(|Protocols(m)|) * |Protocols(m)|
  {
    var n := |Protocols(m)|;
    ShapeTotalIs(m, i, 0, Only(pos));
    ShapeTotalIs(m, i, 1, Zero());
    EffectsOfOnly(n, pos);
    EffectsOfZero(n);
  }

  /** How many protocols run a shape, how often each runs at one position, and in all. */
  function Width(m: nat): nat { if m <= 1024 then 3 else 2 }

  function PerPlace(m: nat): nat { if m <= 1024 then 1 else 2 }

  function Reps(m: nat): nat { if m <= 1024 then 3 else 4 }

  lemma WidthIs(m: nat)
    ensures |Protocols(m)| == Width(m) && PerPosition(|Protocols(m)|) == PerPlace(m)
    ensures PerPosition(|Protocols(m)|) * |Protocols(m)| == Reps(m)
  {
  }

  /** A fitting protocol's number in its shape. */
  lemma NumberOf(m: nat, cap: nat, proto: string) returns (i: nat)
    requires Fitting(proto, m, cap)
    ensures i < |Protocols(m)| && Protocols(m)[i] == proto
  {
    RunsIffFits(m, cap, proto);
    i :| 0 <= i < |Protocols(m)| && Protocols(m)[i] == proto;
  }

  lemma BucketSizesAt(ms: seq<nat>, launches: seq<Launch>, m: nat, i: nat, pos: nat)
    requires Fits(Plan(ms), launches) && i < |Protocols(m)| && pos < |Protocols(m)|
    ensures var n := |Protocols(m)|; var items := Items(Plan(ms), launches);
      && |Bucket(items, PosKeyOf, (m, Protocols(m)[i], Some(pos)))| == Occurs(ms, m) * PerPosition(n)
      && |Bucket(items, KeyOf, (m, Protocols(m)[i]))| == Occurs(ms, m) * (PerPosition(n) * n)
  {
    var items, proto := Items(Plan(ms), launches), Protocols(m)[i];
    PlanItemsPlaced(ms, launches);
    PosBucketSize(items, m, proto, pos);
    BucketSize(items, m, proto);
    PlanItemsWeigh(ms, launches, m, proto, 0, Only(pos));
    PlanItemsWeigh(ms, launches, m, proto, 1, Zero());
    RunsPerShape(m, i, pos);
  }

  /** From a fitting trace of the driver's plan every protocol whose workspace the shape fits gets
      the same number of spans at each position: one per time the shape was listed, or two when
      only ll and ht run it; three or four in all. */
  lemma EveryBucketSameSize(ms: seq<nat>, launches: seq<Launch>, m: nat, cap: nat, proto: string, pos: nat)
    requires Fits(Plan(ms), launches) && Fitting(proto, m, cap) && pos < Width(m)
    ensures var items := Items(Plan(ms), launches);
      && |Bucket(items, PosKeyOf, (m, proto, Some(pos)))| == Occurs(ms, m) * PerPlace(m)
      && |Bucket(items, KeyOf, (m, proto))| == Occurs(ms, m) * Reps(m)
  {
    var i := NumberOf(m, cap, proto);
    WidthIs(m);
    BucketSizesAt(ms, launches, m, i, pos);
  }

  /** The buckets of the first n positions together. */
  function OverPositions(items: seq<Item>, m: nat, proto: string, n: nat): multiset<int> {
    if n == 0 then multiset{}
    else OverPositions(items, m, proto, n - 1) + multiset(Bucket(items, PosKeyOf, (m, proto, Some(n - 1))))
  }

  /** How often x is in the buckets of the first n positions. */
  function CountOver(items: seq<Item>, m: nat, proto: string, n: nat, x: int): nat {
    if n == 0 then 0
    else CountOver(items, m, proto, n - 1, x) + multiset(Bucket(items, PosKeyOf, (m, proto, Some(n - 1))))[x]
  }

  lemma {:induction false} OverPositionsCount(items: seq<Item>, m: nat, proto: string, n: nat, x: int)
    ensures OverPositions(items, m, proto, n)[x] == CountOver(items, m, proto, n, x)
  {
    if n > 0 {
      OverPositionsCount(items, m, proto, n - 1, x);
    }
  }

  lemma BucketSnoc<K>(items: seq<Item>, item: Item, key: Entry -> K, k: K, x: int)
    ensures multiset(Bucket(items + [item], key, k))[x]
         == multiset(Bucket(items, key, k))[x] + if key(item.0) == k && item.1 == x then 1 else 0
  {
    assert (items + [item])[..|items|] == items;
  }

  /** The item is x at the position. */
  predicate CountsAt(item: Item, m: nat, proto: string, pos: nat, x: int) {
    KeyOf(item.0) == (m, proto) && item.0.pos == Some(pos) && item.1 == x
  }

  lemma PosBucketSnoc(items: seq<Item>, item: Item, m: nat, proto: string, pos: nat, x: int)
    ensures multiset(Bucket(items + [item], PosKeyOf, (m, proto, Some(pos))))[x]
         == multiset(Bucket(items, PosKeyOf, (m, proto, Some(pos))))[x]
            + if CountsAt(item, m, proto, pos, x) then 1 else 0
  {
    BucketSnoc(items, item, PosKeyOf, (m, proto, Some(pos)), x);
  }

  /** The item is x at one of the first n positions. */
  predicate CountsBelow(item: Item, m: nat, proto: string, n: nat, x: int)
    requires PlacedItem(item)
  {
    KeyOf(item.0) == (m, proto) && item.0.pos.value < n && item.1 == x
  }

  /** An item counts at its own position only. */
  lemma CountsOnce(item: Item, m: nat, proto: string, pos: nat, x: int)
    requires PlacedItem(item)
    ensures CountsBelow(item, m, proto, pos + 1, x) <==>
      CountsBelow(item, m, proto, pos, x) || CountsAt(item, m, proto, pos, x)
    ensures !(CountsBelow(item, m, proto, pos, x) && CountsAt(item, m, proto, pos, x))
  {
  }

  lemma {:induction false} CountOverSnoc(items: seq<Item>, item: Item, m: nat, proto: string, n: nat, x: int)
    requires PlacedItem(item)
    ensures CountOver(items + [item], m, proto, n, x)
         == CountOver(items, m, proto, n, x) + if CountsBelow(item, m, proto, n, x) then 1 else 0
    decreases n
  {
    if n > 0 {
      CountOverSnoc(items, item, m, proto, n - 1, x);
      PosBucketSnoc(items, item, m, proto, n - 1, x);
      CountsOnce(item, m, proto, n - 1, x);
    }
  }

  lemma {:induction false} CountOverEmpty(items: seq<Item>, m: nat, proto: string, n: nat, x: int)
    requires items == []
    ensures CountOver(items, m, proto, n, x) == 0
    decreases n
  {
    if n > 0 {
      CountOverEmpty(items, m, proto, n - 1, x);
    }
  }

  lemma {:induction false} KeyCount(items: seq<Item>, m: nat, proto: string, x: int)
    requires Placed(items)
    ensures multiset(Bucket(items, KeyOf, (m, proto)))[x] == CountOver(items, m, proto, Width(m), x)
    decreases |items|
  {
    if |items| == 0 {
      CountOverEmpty(items, m, proto, Width(m), x);
    } else {
      var k := |items| - 1;
      KeyCount(items[..k], m, proto, x);
      assert PlacedItem(items[k]);
      WidthIs(m);
      assert items == items[..k] + [items[k]];
      BucketSnoc(items[..k], items[k], KeyOf, (m, proto), x);
      CountOverSnoc(items[..k], items[k], m, proto, Width(m), x);
    }
  }

  /** The (m, proto) bucket is the union of its position buckets. */
  lemma KeyIsUnionOfPositions(items: seq<Item>, m: nat, proto: string)
    requires Placed(items)
    ensures multiset(Bucket(items, KeyOf, (m, proto))) == OverPositions(items, m, proto, Width(m))
  {
    forall x: int
      ensures multiset(Bucket(items, KeyOf, (m, proto)))[x] == OverPositions(items, m, proto, Width(m))[x]
    {
      KeyCount(items, m, proto, x);
      OverPositionsCount(items, m, proto, Width(m), x);
    }
  }

  function KeySum(items: seq<Item>, m: nat, proto: string): int { Sum(Bucket(items, KeyOf, (m, proto))) }

  /** The reported sum of a protocol is its weight in one shape, once per listing. */
  lemma SumIs(ms: seq<nat>, launches: seq<Launch>, m: nat, proto: string, base: int, effect: nat -> int)
    requires Fits(Plan(ms), launches) && Explained(Items(Plan(ms), launches), m, proto, base, effect)
    ensures KeySum(Items(Plan(ms), launches), m, proto) == Repeated(ms, m, ShapeTotal(m, proto, base, effect))
  {
    PlanItemsPlaced(ms, launches);
    BucketSum(Items(Plan(ms), launches), m, proto, base, effect);
    PlanItemsRepeat(ms, launches, m, proto, base, effect);
  }

  /** How far apart two protocols' own times put them in one shape. */
  function ShapeGap(m: nat, a: int, b: int): int { Reps(m) * (a - b) }

  /** Within one shape the position effects cancel. */
  lemma TotalGap(m: nat, cap: nat, p: string, q: string, a: int, b: int, effect: nat -> int)
    requires Fitting(p, m, cap) && Fitting(q, m, cap)
    ensures ShapeTotal(m, p, a, effect) - ShapeTotal(m, q, b, effect) == ShapeGap(m, a, b)
  {
    var i := NumberOf(m, cap, p);
    var j := NumberOf(m, cap, q);
    ShapeTotalIs(m, i, a, effect);
    ShapeTotalIs(m, j, b, effect);
    WidthIs(m);
    var n := |Protocols(m)|;
    Gap(ShapeTotal(m, p, a, effect), ShapeTotal(m, q, b, effect), PerPosition(n) * n,
      PerPosition(n) * Effects(n, effect), a, b);
  }

  lemma Gap(x: int, y: int, c: int, e: int, a: int, b: int)
    requires x == c * a + e && y == c * b + e
    ensures x - y == c * (a - b)
  {
  }

  lemma {:induction false} RepeatedGap(ms: seq<nat>, m: nat, x: int, y: int, d: int)
    requires x - y == d
    ensures Repeated(ms, m, x) - Repeated(ms, m, y) == Repeated(ms, m, d)
    decreases |ms|
  {
    if |ms| > 0 {
      RepeatedGap(ms[..|ms| - 1], m, x, y, d);
    }
  }

  /** From the sums by shape to their difference. */
  lemma RepeatedSums(ms: seq<nat>, m: nat, x: int, y: int, d: int, sx: int, sy: int)
    requires sx == Repeated(ms, m, x) && sy == Repeated(ms, m, y) && x - y == d
    ensures sx - sy == Occurs(ms, m) * d
  {
    RepeatedGap(ms, m, x, y, d);
    RepeatedIs(ms, m, d);
  }

  function KeyGap(items: seq<Item>, m: nat, p: string, q: string): int { KeySum(items, m, p) - KeySum(items, m, q) }

  /** The driver's claim, end to end, for one trace: if a span is the protocol's own time plus an
      effect of the position, the reported sums of two protocols that run the shape differ by the
      number of repetitions times the difference of their own times, whatever the effects. */
  lemma ReportedDifference(ms: seq<nat>, launches: seq<Launch>, m: nat, cap: nat, p: string, q: string, a: int, b: int,
                           effect: nat -> int)
    requires Fitting(p, m, cap) && Fitting(q, m, cap) && ExplainedTrace(ms, launches, m, p, q, a, b, effect)
    ensures KeyGap(Items(Plan(ms), launches), m, p, q) == Occurs(ms, m) * ShapeGap(m, a, b)
  {
    SumIs(ms, launches, m, p, a, effect);
    SumIs(ms, launches, m, q, b, effect);
    TotalGap(m, cap, p, q, a, b, effect);
    RepeatedSums(ms, m, ShapeTotal(m, p, a, effect), ShapeTotal(m, q, b, effect), ShapeGap(m, a, b),
      KeySum(Items(Plan(ms), launches), m, p), KeySum(Items(Plan(ms), launches), m, q));
  }

  // ----- several traces -----

  lemma {:induction false} BucketConcat<K>(a: seq<Item>, b: seq<Item>, key: Entry -> K, k: K)
    ensures Bucket(a + b, key, k) == Bucket(a, key, k) + Bucket(b, key, k)
    decreases |b|
  {
    if |b| == 0 {
      assert a + b == a;
    } else {
      var n := |b| - 1;
      BucketConcat(a, b[..n], key, k);
      assert (a + b)[..|a + b| - 1] == a + b[..n];
    }
  }

  lemma {:induction false} SumConcat(a: seq<int>, b: seq<int>)
    ensures Sum(a + b) == Sum(a) + Sum(b)
    decreases |b|
  {
    if |b| == 0 {
      assert a + b == a;
    } else {
      var n := |b| - 1;
      SumConcat(a, b[..n]);
      assert (a + b)[..|a + b| - 1] == a + b[..n];
    }
  }

  /** What the report has pooled after these traces. */
  function Pooled(manifest: seq<Entry>, traces: seq<seq<Launch>>): seq<Item> {
    if |traces| == 0 then [] else Pooled(manifest, traces[..|traces| - 1]) + Items(manifest, traces[|traces| - 1])
  }

  lemma KeySumConcat(a: seq<Item>, b: seq<Item>, m: nat, proto: string)
    ensures KeySum(a + b, m, proto) == KeySum(a, m, proto) + KeySum(b, m, proto)
  {
    BucketConcat(a, b, KeyOf, (m, proto));
    SumConcat(Bucket(a, KeyOf, (m, proto)), Bucket(b, KeyOf, (m, proto)));
  }

  /** A rank's trace of the plan with its own position effects, the same two base times. */
  ghost predicate ExplainedTrace(ms: seq<nat>, launches: seq<Launch>, m: nat, p: string, q: string, a: int, b: int,
                                 effect: nat -> int)
  {
    && Fits(Plan(ms), launches)
    && Explained(Items(Plan(ms), launches), m, p, a, effect) && Explained(Items(Plan(ms), launches), m, q, b, effect)
  }

  lemma {:induction false} PooledGap(manifest: seq<Entry>, traces: seq<seq<Launch>>, m: nat, p: string, q: string,
                                     gap: int)
    requires forall t :: 0 <= t < |traces| ==> KeyGap(Items(manifest, traces[t]), m, p, q) == gap
    ensures KeyGap(Pooled(manifest, traces), m, p, q) == |traces| * gap
    decreases |traces|
  {
    if |traces| > 0 {
      var k := |traces| - 1;
      PooledGap(manifest, traces[..k], m, p, q, gap);
      KeySumConcat(Pooled(manifest, traces[..k]), Items(manifest, traces[k]), m, p);
      KeySumConcat(Pooled(manifest, traces[..k]), Items(manifest, traces[k]), m, q);
      Distribute(k, 1, gap);
    }
  }

  /** The claim over all traces pooled, each with position effects of its own. */
  lemma PooledDifference(ms: seq<nat>, traces: seq<seq<Launch>>, m: nat, cap: nat, p: string, q: string, a: int,
                         b: int, effects: seq<nat -> int>)
    requires Fitting(p, m, cap) && Fitting(q, m, cap) && |effects| == |traces|
    requires forall t :: 0 <= t < |traces| ==> ExplainedTrace(ms, traces[t], m, p, q, a, b, effects[t])
    ensures KeyGap(Pooled(Plan(ms), traces), m, p, q) == |traces| * (Occurs(ms, m) * ShapeGap(m, a, b))
  {
    var gap := Occurs(ms, m) * ShapeGap(m, a, b);
    forall t | 0 <= t < |traces|
      ensures KeyGap(Items(Plan(ms), traces[t]), m, p, q) == gap
    {
      assert ExplainedTrace(ms, traces[t], m, p, q, a, b, effects[t]);
      ReportedDifference(ms, traces[t], m, cap, p, q, a, b, effects[t]);
    }
    PooledGap(Plan(ms), traces, m, p, q, gap);
  }
}
