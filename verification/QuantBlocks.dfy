/** MXFP8 block quantisation: adjacent lanes share one 32-element scale block through a
    butterfly shuffle. Values and scales are rationals; the scale is a power of two, rounded up
    as an E8M0 exponent (section 5.4.1 of the OCP Microscaling Formats MX v1.0 specification). */
module QuantBlocks {
  import opened Arith
  import opened QuantPipeline

  const BLOCK := 32

  function Abs(x: real): real { if x < 0.0 then -x else x }

  function Times(a: real, b: real): real { a * b }

  function FMax(a: real, b: real): real { if a < b then b else a }

  function FMin(a: real, b: real): real { if a < b then a else b }

  /** The accumulation of a lane: the largest absolute value, starting from 0. */
  function AbsMax(xs: seq<real>): real {
    if |xs| == 0 then 0.0 else FMax(AbsMax(xs[..|xs| - 1]), Abs(xs[|xs| - 1]))
  }

  lemma {:induction false} AbsMaxIsMax(xs: seq<real>)
    ensures AbsMax(xs) >= 0.0
    ensures forall i :: 0 <= i < |xs| ==> Abs(xs[i]) <= AbsMax(xs)
    ensures AbsMax(xs) == 0.0 || exists i :: 0 <= i < |xs| && Abs(xs[i]) == AbsMax(xs)
  {
    if |xs| > 0 {
      var n := |xs| - 1;
      AbsMaxIsMax(xs[..n]);
      assert forall i :: 0 <= i < n ==> xs[..n][i] == xs[i];
      if AbsMax(xs[..n]) >= Abs(xs[n]) && AbsMax(xs) != 0.0 {
        var i :| 0 <= i < n && Abs(xs[..n][i]) == AbsMax(xs[..n]);
        assert Abs(xs[i]) == AbsMax(xs);
      }
    }
  }

  lemma {:induction false} AbsMaxConcat(a: seq<real>, b: seq<real>)
    ensures AbsMax(a + b) == FMax(AbsMax(a), AbsMax(b))
  {
    AbsMaxIsMax(a);
    if |b| == 0 {
      assert a + b == a;
    } else {
      assert (a + b)[..|a + b| - 1] == a + b[..|b| - 1];
      AbsMaxConcat(a, b[..|b| - 1]);
    }
  }

  // ----- scales -----

  function Pow2(e: int): real
    decreases if e < 0 then -e else e
  {
    if e == 0 then 1.0 else if e > 0 then 2.0 * Pow2(e - 1) else Pow2(e + 1) / 2.0
  }

  lemma {:induction false} Pow2Positive(e: int)
    ensures Pow2(e) > 0.0
    decreases if e < 0 then -e else e
  {
    if e > 0 {
      Pow2Positive(e - 1);
    } else if e < 0 {
      Pow2Positive(e + 1);
    }
  }

  lemma Pow2Step(e: int)
    ensures Pow2(e + 1) == 2.0 * Pow2(e)
  {
  }

  lemma {:induction false} Pow2Increases(a: int, b: int)
    requires a <= b
    ensures Pow2(a) <= Pow2(b)
    decreases b - a
  {
    if a < b {
      Pow2Increases(a, b - 1);
      Pow2Step(b - 1);
      Pow2Positive(b - 1);
    }
  }

  lemma {:induction false} Pow2Inverse(e: int)
    ensures Pow2(e) * Pow2(-e) == 1.0
    decreases if e < 0 then -e else e
  {
    if e > 0 {
      Pow2Inverse(e - 1);
      Pow2Step(-e);
      Pow2Step(e - 1);
      assert Pow2(e) * Pow2(-e) == Pow2(e - 1) * (2.0 * Pow2(-e));
    } else if e < 0 {
      Pow2Inverse(e + 1);
      Pow2Step(e);
      Pow2Step(-e - 1);
      assert Pow2(e) * Pow2(-e) == (2.0 * Pow2(e)) * Pow2(-e - 1);
    }
  }

  /** A power-of-two scale format: its exponent range, and the clamp on the multiplier. */
  datatype ScaleFormat = ScaleFormat(minExp: int, maxExp: int, clamp: real) {
    ghost predicate Valid() { minExp <= maxExp && Pow2(-minExp) <= clamp }
  }

  /** E8M0 exponents, and the largest finite float as the clamp. */
  const E8M0 := ScaleFormat(-127, 127, (2.0 - 1.0 / 8388608.0) * Pow2(127))

  /** Its exponents, biased by 127, are the bytes 0 to 254. */
  lemma E8M0Valid()
    ensures E8M0.Valid() && E8M0.minExp + 127 == 0 && E8M0.maxExp + 127 == 254
  {
    Pow2Positive(127);
    StrictTimes(1.0, 2.0 - 1.0 / 8388608.0, Pow2(127));
  }

  /** The exponent of x rounded up: the least exponent from e on whose power reaches x. */
  function RoundUp(f: ScaleFormat, x: real, e: int): int
    decreases f.maxExp - e
  {
    if x <= Pow2(e) || e >= f.maxExp then e else RoundUp(f, x, e + 1)
  }

  lemma {:induction false} RoundUpIsLeast(f: ScaleFormat, x: real, e: int)
    requires e <= f.maxExp && x <= Pow2(f.maxExp)
    ensures e <= RoundUp(f, x, e) <= f.maxExp && x <= Pow2(RoundUp(f, x, e))
    ensures RoundUp(f, x, e) > e ==> Pow2(RoundUp(f, x, e) - 1) < x
    decreases f.maxExp - e
  {
    if !(x <= Pow2(e) || e == f.maxExp) {
      RoundUpIsLeast(f, x, e + 1);
    }
  }

  /** The stored scale exponent of a block. */
  function ScaleExp(f: ScaleFormat, absmax: real, limit: real): int
    requires limit > 0.0
  {
    RoundUp(f, absmax / limit, f.minExp)
  }

  /** What each element of the block is multiplied by. */
  function AccScale(f: ScaleFormat, e: int): real {
    Pow2Positive(e);
    FMin(1.0 / Pow2(e), f.clamp)
  }

  /** The clamp never bites: the multiplier is exactly the reciprocal of the stored scale. */
  lemma AccScaleIsReciprocal(f: ScaleFormat, e: int)
    requires f.Valid() && f.minExp <= e
    ensures AccScale(f, e) == Pow2(-e) && Pow2(e) * AccScale(f, e) == 1.0
  {
    Pow2Positive(e);
    Pow2Inverse(e);
    Pow2Increases(-e, -f.minExp);
    ClampIdle(Pow2(e), Pow2(-e), f.clamp);
  }

  /** In any format the multiplier is at most the clamp, and the reciprocal exactly when that is. */
  lemma ClampBitesIff(f: ScaleFormat, e: int)
    ensures Pow2(e) > 0.0 && AccScale(f, e) <= f.clamp
    ensures AccScale(f, e) == 1.0 / Pow2(e) <==> 1.0 / Pow2(e) <= f.clamp
  {
    Pow2Positive(e);
  }

  lemma ClampIdle(p: real, inv: real, clamp: real)
    requires p > 0.0 && p * inv == 1.0 && inv <= clamp
    ensures FMin(1.0 / p, clamp) == inv
  {
    Reciprocal(p, inv);
  }

  lemma MultiplierInverts(f: ScaleFormat, e: int)
    requires f.Valid() && f.minExp <= e
    ensures AccScale(f, e) > 0.0 && Inverse(Pow2(e), AccScale(f, e))
  {
    AccScaleIsReciprocal(f, e);
    Pow2Positive(-e);
  }

  ghost predicate Inverse(p: real, s: real) { p * s == 1.0 }

  lemma Reciprocal(a: real, b: real)
    requires a > 0.0 && a * b == 1.0
    ensures 1.0 / a == b
  {
  }

  /** The scale exponent of a block whose scale is in range: the least power of two of the
      format that is no smaller than absmax / limit. */
  lemma ScaleExpIsLeast(f: ScaleFormat, absmax: real, limit: real)
    requires f.minExp <= f.maxExp && limit > 0.0 && absmax / limit <= Pow2(f.maxExp)
    ensures var e := ScaleExp(f, absmax, limit);
      && f.minExp <= e <= f.maxExp && absmax / limit <= Pow2(e)
      && (e > f.minExp ==> Pow2(e - 1) < absmax / limit)
  {
    RoundUpIsLeast(f, absmax / limit, f.minExp);
  }

  /** Every scaled element of a block whose scale is in range is at most the fp8 limit. */
  lemma ScaledWithinLimit(f: ScaleFormat, absmax: real, v: real, limit: real)
    requires f.Valid() && limit > 0.0 && Abs(v) <= absmax && absmax / limit <= Pow2(f.maxExp)
    ensures Abs(Times(v, AccScale(f, ScaleExp(f, absmax, limit)))) <= limit
  {
    ScaleExpIsLeast(f, absmax, limit);
    var e := ScaleExp(f, absmax, limit);
    MultiplierInverts(f, e);
    Within(absmax, v, limit, Pow2(e), AccScale(f, e));
  }

  /** With half the scale the block's largest element would exceed the limit, unless the scale
      is the smallest of the format. */
  lemma HalfScaleOverflows(f: ScaleFormat, absmax: real, limit: real)
    requires f.minExp <= f.maxExp && limit > 0.0 && absmax / limit <= Pow2(f.maxExp)
    requires ScaleExp(f, absmax, limit) > f.minExp
    ensures absmax * Pow2(-(ScaleExp(f, absmax, limit) - 1)) > limit
  {
    ScaleExpIsLeast(f, absmax, limit);
    OverflowsBy(absmax, limit, ScaleExp(f, absmax, limit) - 1);
  }

  lemma OverflowsBy(absmax: real, limit: real, e: int)
    requires limit > 0.0 && Pow2(e) < absmax / limit
    ensures absmax * Pow2(-e) > limit
  {
    Pow2Positive(-e);
    Pow2Inverse(e);
    Quotient(absmax, limit);
    Beyond(absmax, limit, absmax / limit, Pow2(e), Pow2(-e));
  }

  lemma Quotient(a: real, b: real)
    requires b > 0.0
    ensures (a / b) * b == a
  {
  }

  lemma Within(absmax: real, v: real, limit: real, p: real, inv: real)
    requires limit > 0.0 && inv > 0.0 && Inverse(p, inv) && absmax / limit <= p && Abs(v) <= absmax
    ensures Abs(Times(v, inv)) <= limit
  {
    var x := absmax / limit;
    Quotient(absmax, limit);
    AbsTimes(v, inv);
    TimesMonotone(Abs(v), absmax, inv);
    TimesMonotone(x, p, limit * inv);
    assert absmax * inv == x * (limit * inv);
    assert p * (limit * inv) == limit * (p * inv);
  }

  lemma Beyond(absmax: real, limit: real, x: real, p: real, inv: real)
    requires limit > 0.0 && inv > 0.0 && p * inv == 1.0 && absmax == x * limit && p < x
    ensures absmax * inv > limit
  {
    StrictTimes(p, x, limit * inv);
    assert absmax * inv == x * (limit * inv);
    assert p * (limit * inv) == limit * (p * inv);
  }

  lemma AbsTimes(v: real, s: real)
    requires s > 0.0
    ensures Abs(Times(v, s)) == Abs(v) * s
  {
  }

  lemma TimesMonotone(a: real, b: real, s: real)
    requires a <= b && s >= 0.0
    ensures a * s <= b * s
  {
  }

  lemma StrictTimes(a: real, b: real, s: real)
    requires a < b && s > 0.0
    ensures a * s < b * s
  {
  }

  // ----- blocks and lanes -----

  /** Elements of quantisation chunk q; none if the row has no such chunk. */
  function Chunk(values: seq<real>, q: nat): seq<real> {
    if QUANT_VEC * (q + 1) <= |values| then values[QUANT_VEC * q..QUANT_VEC * (q + 1)] else []
  }

  function Blocks(hidden: nat): nat { (hidden + BLOCK - 1) / BLOCK }

  /** Elements of scale block b; the last one may be a half block. */
  function Block(values: seq<real>, b: nat): seq<real>
    requires b < Blocks(|values|)
  {
    values[BLOCK * b..if BLOCK * (b + 1) <= |values| then BLOCK * (b + 1) else |values|]
  }

  /** The absolute maximum of scale block b, of 32 elements, or 16 if it is the row's last half. */
  function BlockMax(values: seq<real>, b: nat): real
    requires b < Blocks(|values|)
  {
    AbsMax(Block(values, b))
  }

  /** Quantisation chunk q exists in a row of that many elements. */
  predicate InRow(hidden: nat, q: nat) { q < NumQuantChunks(hidden) && q / 2 < Blocks(hidden) }

  function Partner(q: nat): nat { if q % 2 == 0 then q + 1 else q - 1 }

  lemma BlockIsChunks(values: seq<real>, b: nat)
    requires |values| % QUANT_VEC == 0 && 2 * b < NumQuantChunks(|values|)
    ensures b < Blocks(|values|)
    ensures Block(values, b) == Chunk(values, 2 * b) + Chunk(values, 2 * b + 1)
  {
    var h := |values|;
    if BLOCK * (b + 1) <= h {
      assert values[32 * b..32 * b + 32] == values[32 * b..32 * b + 16] + values[32 * b + 16..32 * b + 32];
    } else {
      assert h == 32 * b + 16;
    }
  }

  /** The butterfly maximum of a lane and its partner is the block's absolute maximum. */
  lemma PairIsBlock(values: seq<real>, q: nat)
    requires |values| % QUANT_VEC == 0 && q < NumQuantChunks(|values|)
    ensures q / 2 < Blocks(|values|)
    ensures FMax(LaneMax(values, q), LaneMax(values, Partner(q))) == BlockMax(values, q / 2)
  {
    var b := q / 2;
    BlockIsChunks(values, b);
    AbsMaxConcat(Chunk(values, 2 * b), Chunk(values, 2 * b + 1));
    assert q == 2 * b || q == 2 * b + 1;
  }

  /** A lane's local maximum in round j. */
  function LaneMax(values: seq<real>, q: nat): real { AbsMax(Chunk(values, q)) }

  /** Element e of the quantised row holds its value scaled by its block's scale. */
  ghost predicate ElementDone(f: ScaleFormat, values: seq<real>, out: array<real>, limit: real, e: nat)
    requires limit > 0.0 && e < |values| == out.Length
    reads out
  {
    out[e] == Scaled(f, values, limit, e)
  }

  function BlockExp(f: ScaleFormat, values: seq<real>, limit: real, b: nat): int
    requires limit > 0.0 && b < Blocks(|values|)
  {
    ScaleExp(f, BlockMax(values, b), limit)
  }

  function Scaled(f: ScaleFormat, values: seq<real>, limit: real, e: nat): real
    requires limit > 0.0 && e < |values|
  {
    Times(values[e], AccScale(f, BlockExp(f, values, limit, e / BLOCK)))
  }

  /** The first n chunks are quantised and their blocks' scales stored. */
  ghost predicate PrefixDone(f: ScaleFormat, values: seq<real>, out: array<real>, sf: array<int>, limit: real, n: nat)
    requires limit > 0.0 && |values| == out.Length && Blocks(|values|) == sf.Length
    reads out, sf
  {
    ElementsDone(f, values, out, limit, n) && ScalesDone(f, values, sf, limit, n)
  }

  ghost predicate ElementsDone(f: ScaleFormat, values: seq<real>, out: array<real>, limit: real, n: nat)
    requires limit > 0.0 && |values| == out.Length
    reads out
  {
    forall e :: 0 <= e < QUANT_VEC * n && e < |values| ==> ElementDone(f, values, out, limit, e)
  }

  ghost predicate ScalesDone(f: ScaleFormat, values: seq<real>, sf: array<int>, limit: real, n: nat)
    requires limit > 0.0 && Blocks(|values|) == sf.Length
    reads sf
  {
    forall b :: 0 <= b < Halves(n) && b < sf.Length ==> sf[b] == BlockExp(f, values, limit, b)
  }

  /** A lane's element stores. */
  method StoreChunk(values: seq<real>, out: array<real>, q: nat, acc: real)
    requires out.Length == |values| && QUANT_VEC * (q + 1) <= |values|
    modifies out
    ensures forall e :: QUANT_VEC * q <= e < QUANT_VEC * (q + 1) ==> out[e] == Times(values[e], acc)
    ensures forall e :: 0 <= e < |values| && !(QUANT_VEC * q <= e < QUANT_VEC * (q + 1)) ==> out[e] == old(out[e])
  {
    for i := 0 to QUANT_VEC
      invariant forall e :: QUANT_VEC * q <= e < QUANT_VEC * q + i ==> out[e] == Times(values[e], acc)
      invariant forall e :: 0 <= e < |values| && !(QUANT_VEC * q <= e < QUANT_VEC * q + i) ==> out[e] == old(out[e])
    {
      out[QUANT_VEC * q + i] := Times(values[QUANT_VEC * q + i], acc);
    }
  }

  /** The element stores of one lane, as the block's multiplier of each element. */
  method ScaleChunk(f: ScaleFormat, values: seq<real>, out: array<real>, limit: real, q: nat, exp: int)
    requires limit > 0.0 && out.Length == |values| && QUANT_VEC * (q + 1) <= |values|
    requires q / 2 < Blocks(|values|) && exp == BlockExp(f, values, limit, q / 2)
    requires ElementsDone(f, values, out, limit, q)
    modifies out
    ensures ElementsDone(f, values, out, limit, q + 1)
  {
    var acc := AccScale(f, exp);
    StoreChunk(values, out, q, acc);
    forall e | 0 <= e < QUANT_VEC * (q + 1)
      ensures ElementDone(f, values, out, limit, e)
    {
      if e < QUANT_VEC * q {
        assert old(ElementDone(f, values, out, limit, e));
      } else {
        assert e / BLOCK == q / 2;
      }
    }
  }

  /** The scale store of one lane: the even lane's. */
  method StoreScale(f: ScaleFormat, values: seq<real>, sf: array<int>, limit: real, q: nat, exp: int)
    returns (scaled: seq<nat>)
    requires limit > 0.0 && sf.Length == Blocks(|values|) && q / 2 < Blocks(|values|)
    requires exp == BlockExp(f, values, limit, q / 2) && ScalesDone(f, values, sf, limit, q)
    modifies sf
    ensures ScalesDone(f, values, sf, limit, q + 1)
    ensures scaled == if q % 2 == 0 then [q / 2] else []
  {
    scaled := [];
    if q % 2 == 0 {
      sf[q / 2] := exp;
      scaled := [q / 2];
    }
  }

  /** One lane of one round: scale from the shared maximum, its chunk, and the scale entry if it
      is the even lane. */
  method QuantLane(f: ScaleFormat, values: seq<real>, out: array<real>, sf: array<int>, limit: real, q: nat,
                   blockMax: real)
    returns (scaled: seq<nat>)
    requires limit > 0.0 && |values| % QUANT_VEC == 0 && out.Length == |values| && sf.Length == Blocks(|values|)
    requires q < NumQuantChunks(|values|) && q / 2 < Blocks(|values|) && blockMax == BlockMax(values, q / 2)
    requires PrefixDone(f, values, out, sf, limit, q)
    modifies out, sf
    ensures PrefixDone(f, values, out, sf, limit, q + 1)
    ensures scaled == if q % 2 == 0 then [q / 2] else []
  {
    var exp := ScaleExp(f, blockMax, limit);
    ScaleChunk(f, values, out, limit, q, exp);
    scaled := StoreScale(f, values, sf, limit, q, exp);
  }

  /** Shuffling with offset 1 reaches the lane of the partner chunk, in every round, when the
      thread count is even. */
  lemma ButterflyReachesPartner(threads: nat, first: nat, tid: nat)
    requires tid < threads && threads % 2 == 0 && first % 2 == 0
    ensures Partner(tid) < threads && Partner(tid) + first == Partner(tid + first)
  {
  }

  lemma PairMax(values: seq<real>, own: real, paired: real, q: nat)
    requires |values| % QUANT_VEC == 0 && InRow(|values|, q)
    requires own == LaneMax(values, q) && paired == LaneMax(values, Partner(q))
    ensures FMax(own, paired) == BlockMax(values, q / 2)
  {
    PairIsBlock(values, q);
  }

  lemma LocalPair(values: seq<real>, local: seq<real>, first: nat, tid: nat)
    requires first % 2 == 0 && |local| % 2 == 0 && tid < |local| && LocalsAre(values, local, first)
    ensures Partner(tid) < |local|
    ensures local[tid] == LaneMax(values, tid + first) && local[Partner(tid)] == LaneMax(values, Partner(tid + first))
  {
    ButterflyReachesPartner(|local|, first, tid);
    assert LocalIs(values, local, first, tid) && LocalIs(values, local, first, Partner(tid));
  }

  /** The butterfly: what a lane reads back is the absolute maximum of its 32-element block. */
  method Shuffle(values: seq<real>, local: seq<real>, first: nat, tid: nat, q: nat) returns (blockMax: real)
    requires |values| % QUANT_VEC == 0 && first % 2 == 0 && |local| % 2 == 0 && tid < |local|
    requires q == tid + first && InRow(|values|, q) && LocalsAre(values, local, first)
    ensures blockMax == BlockMax(values, q / 2)
  {
    LocalPair(values, local, first, tid);
    blockMax := FMax(local[tid], local[Partner(tid)]);
    PairMax(values, local[tid], local[Partner(tid)], q);
  }

  ghost predicate LocalIs(values: seq<real>, local: seq<real>, first: nat, t: nat)
    requires t < |local|
  {
    local[t] == LaneMax(values, t + first)
  }

  ghost predicate LocalsAre(values: seq<real>, local: seq<real>, first: nat) {
    forall t :: 0 <= t < |local| ==> LocalIs(values, local, first, t)
  }

  /** One lane's turn in the round from chunk `first`; lanes past the row's end do nothing. */
  method RoundLane(f: ScaleFormat, values: seq<real>, out: array<real>, sf: array<int>, limit: real, local: seq<real>,
                   first: nat, tid: nat)
    returns (quantised: seq<nat>, scaled: seq<nat>)
    requires limit > 0.0 && |values| % QUANT_VEC == 0 && out.Length == |values| && sf.Length == Blocks(|values|)
    requires first % 2 == 0 && |local| % 2 == 0 && tid < |local| && LocalsAre(values, local, first)
    requires PrefixDone(f, values, out, sf, limit, Reached(values, first + tid))
    modifies out, sf
    ensures PrefixDone(f, values, out, sf, limit, Reached(values, first + tid + 1))
    ensures quantised == Range(Reached(values, first + tid), Reached(values, first + tid + 1))
    ensures scaled == Range(Halves(Reached(values, first + tid)), Halves(Reached(values, first + tid + 1)))
  {
    var q := tid + first;
    quantised, scaled := [], [];
    if q < NumQuantChunks(|values|) {
      var blockMax := Shuffle(values, local, first, tid, q);
      scaled := QuantLane(f, values, out, sf, limit, q, blockMax);
      quantised := [q];
    }
  }

  /** One round of all lanes, from chunk `first`: every lane computes its local maximum before
      any lane shuffles. */
  method QuantRound(f: ScaleFormat, values: seq<real>, out: array<real>, sf: array<int>, limit: real, threads: nat,
                    first: nat)
    returns (quantised: seq<nat>, scaled: seq<nat>)
    requires limit > 0.0 && |values| % QUANT_VEC == 0 && out.Length == |values| && sf.Length == Blocks(|values|)
    requires threads % 2 == 0 && first % 2 == 0
    requires PrefixDone(f, values, out, sf, limit, Reached(values, first))
    modifies out, sf
    ensures PrefixDone(f, values, out, sf, limit, Reached(values, first + threads))
    ensures quantised == Range(Reached(values, first), Reached(values, first + threads))
    ensures scaled == Range(Halves(Reached(values, first)), Halves(Reached(values, first + threads)))
  {
    var local := LocalMaxima(values, threads, first);
    quantised, scaled := [], [];
    for tid := 0 to threads
      invariant PrefixDone(f, values, out, sf, limit, Reached(values, first + tid))
      invariant quantised == Range(Reached(values, first), Reached(values, first + tid))
      invariant scaled == Range(Halves(Reached(values, first)), Halves(Reached(values, first + tid)))
    {
      var did, wrote := RoundLane(f, values, out, sf, limit, local, first, tid);
      RangeConcat(Reached(values, first), Reached(values, first + tid), Reached(values, first + tid + 1));
      RangeConcat(Halves(Reached(values, first)), Halves(Reached(values, first + tid)),
        Halves(Reached(values, first + tid + 1)));
      quantised, scaled := quantised + did, scaled + wrote;
    }
  }

  /** Every lane's local maximum in the round that starts at chunk `first`. */
  method LocalMaxima(values: seq<real>, threads: nat, first: nat) returns (local: seq<real>)
    ensures |local| == threads && LocalsAre(values, local, first)
  {
    local := [];
    for t := 0 to threads
      invariant |local| == t && LocalsAre(values, local, first)
    {
      ghost var before := local;
      local := local + [LaneMax(values, t + first)];
      forall i | 0 <= i < |local|
        ensures LocalIs(values, local, first, i)
      {
        assert i < t ==> LocalIs(values, before, first, i);
      }
    }
  }

  // ----- what the stored row means -----

  /** x times p is v. */
  ghost predicate Undoes(x: real, p: real, v: real) { x * p == v }

  /** Every stored element times its block's stored scale is the element it came from. */
  ghost predicate Dequantises(values: seq<real>, out: array<real>, sf: array<int>)
    requires |values| == out.Length && Blocks(|values|) == sf.Length
    reads out, sf
  {
    forall e :: 0 <= e < |values| ==> Undoes(out[e], Pow2(sf[e / BLOCK]), values[e])
  }

  /** No element of block b is beyond x, on either side of 0. */
  ghost predicate Covers(values: seq<real>, b: nat, x: real) {
    forall e :: 0 <= e < |values| && e / BLOCK == b ==> -x <= values[e] <= x
  }

  /** The largest magnitude that scale exponent q brings down to the limit. */
  function Reach(limit: real, q: int): real { limit * Pow2(q) }

  /** q is the least exponent of the format at which the block's elements, scaled down, are within
      the limit; the largest one if there is none. */
  ghost predicate LeastScale(f: ScaleFormat, values: seq<real>, limit: real, b: nat, q: int) {
    && f.minExp <= q <= f.maxExp
    && (q < f.maxExp ==> Covers(values, b, Reach(limit, q)))
    && forall k :: f.minExp <= k < q ==> !Covers(values, b, Reach(limit, k))
  }

  ghost predicate ScalesAreLeast(f: ScaleFormat, values: seq<real>, sf: array<int>, limit: real)
    requires Blocks(|values|) == sf.Length
    reads sf
  {
    forall b :: 0 <= b < sf.Length ==> LeastScale(f, values, limit, b, sf[b])
  }

  lemma {:induction false} RoundUpInRange(f: ScaleFormat, x: real, e: int)
    requires e <= f.maxExp
    ensures e <= RoundUp(f, x, e) <= f.maxExp
    ensures RoundUp(f, x, e) < f.maxExp ==> x <= Pow2(RoundUp(f, x, e))
    ensures RoundUp(f, x, e) > e ==> Pow2(RoundUp(f, x, e) - 1) < x
    decreases f.maxExp - e
  {
    if !(x <= Pow2(e) || e == f.maxExp) {
      RoundUpInRange(f, x, e + 1);
    }
  }

  lemma ScaledBack(v: real, acc: real, p: real)
    requires Inverse(p, acc)
    ensures Undoes(Times(v, acc), p, v)
  {
    assert v * acc * p == v * (p * acc);
  }

  lemma MultiplierUndone(f: ScaleFormat, v: real, q: int)
    requires f.Valid() && f.minExp <= q
    ensures Undoes(Times(v, AccScale(f, q)), Pow2(q), v)
  {
    MultiplierInverts(f, q);
    ScaledBack(v, AccScale(f, q), Pow2(q));
  }

  lemma BlockExpInRange(f: ScaleFormat, values: seq<real>, limit: real, b: nat)
    requires f.Valid() && limit > 0.0 && b < Blocks(|values|)
    ensures f.minExp <= BlockExp(f, values, limit, b) <= f.maxExp
  {
    RoundUpInRange(f, BlockMax(values, b) / limit, f.minExp);
  }

  lemma ElementDequantises(f: ScaleFormat, values: seq<real>, limit: real, e: nat)
    requires f.Valid() && limit > 0.0 && e < |values|
    ensures Undoes(Scaled(f, values, limit, e), Pow2(BlockExp(f, values, limit, e / BLOCK)), values[e])
  {
    BlockExpInRange(f, values, limit, e / BLOCK);
    MultiplierUndone(f, values[e], BlockExp(f, values, limit, e / BLOCK));
  }

  lemma StoredDequantise(f: ScaleFormat, values: seq<real>, out: array<real>, sf: array<int>, limit: real)
    requires f.Valid() && limit > 0.0 && |values| == out.Length && Blocks(|values|) == sf.Length
    requires forall e :: 0 <= e < |values| ==> ElementDone(f, values, out, limit, e)
    requires forall b :: 0 <= b < sf.Length ==> sf[b] == BlockExp(f, values, limit, b)
    ensures Dequantises(values, out, sf)
  {
    forall e | 0 <= e < |values|
      ensures Undoes(out[e], Pow2(sf[e / BLOCK]), values[e])
    {
      assert ElementDone(f, values, out, limit, e);
      ElementDequantises(f, values, limit, e);
    }
  }

  /** A bound covers a block exactly when it is no smaller than the block's maximum. */
  lemma CoversIff(values: seq<real>, b: nat, x: real)
    requires b < Blocks(|values|) && x >= 0.0
    ensures Covers(values, b, x) <==> BlockMax(values, b) <= x
  {
    var block := Block(values, b);
    AbsMaxIsMax(block);
    forall e | 0 <= e < |values| && e / BLOCK == b
      ensures Abs(values[e]) <= AbsMax(block)
    {
      assert block[e - BLOCK * b] == values[e];
    }
    if Covers(values, b, x) && AbsMax(block) != 0.0 {
      var i :| 0 <= i < |block| && Abs(block[i]) == AbsMax(block);
      assert (BLOCK * b + i) / BLOCK == b && block[i] == values[BLOCK * b + i];
    }
  }

  lemma SameSide(x: real, p: real, limit: real, a: real, b: real)
    requires limit > 0.0 && a == x * limit && b == p * limit
    ensures x <= p <==> a <= b
  {
    if x <= p {
      TimesMonotone(x, p, limit);
    } else {
      StrictTimes(p, x, limit);
    }
  }

  lemma CoversBy(values: seq<real>, b: nat, x: real, p: real, limit: real, reach: real)
    requires b < Blocks(|values|) && BlockMax(values, b) == x * limit && limit > 0.0 && p > 0.0
    requires reach == p * limit
    ensures Covers(values, b, reach) <==> x <= p
  {
    assert reach >= 0.0 by { StrictTimes(0.0, p, limit); }
    CoversIff(values, b, reach);
    assert BlockMax(values, b) <= reach <==> x <= p by { SameSide(x, p, limit, BlockMax(values, b), reach); }
  }

  lemma CoversAt(values: seq<real>, limit: real, b: nat, k: int)
    requires limit > 0.0 && b < Blocks(|values|)
    ensures Covers(values, b, Reach(limit, k)) <==> BlockMax(values, b) / limit <= Pow2(k)
  {
    Pow2Positive(k);
    Quotient(BlockMax(values, b), limit);
    CoversBy(values, b, BlockMax(values, b) / limit, Pow2(k), limit, Reach(limit, k));
  }

  lemma BlockExpIsLeast(f: ScaleFormat, values: seq<real>, limit: real, b: nat)
    requires f.Valid() && limit > 0.0 && b < Blocks(|values|)
    ensures LeastScale(f, values, limit, b, BlockExp(f, values, limit, b))
  {
    var q := BlockExp(f, values, limit, b);
    ExpIsLeast(f, values, limit, b, BlockMax(values, b) / limit, q);
  }

  lemma ExpIsLeast(f: ScaleFormat, values: seq<real>, limit: real, b: nat, x: real, q: int)
    requires f.Valid() && limit > 0.0 && b < Blocks(|values|)
    requires x == BlockMax(values, b) / limit && q == RoundUp(f, x, f.minExp)
    ensures LeastScale(f, values, limit, b, q)
  {
    RoundUpInRange(f, x, f.minExp);
    CoversAt(values, limit, b, q);
    forall k | f.minExp <= k < q
      ensures !Covers(values, b, Reach(limit, k))
    {
      Pow2Increases(k, q - 1);
      CoversAt(values, limit, b, k);
    }
  }

  lemma StoredAreLeast(f: ScaleFormat, values: seq<real>, sf: array<int>, limit: real)
    requires f.Valid() && limit > 0.0 && Blocks(|values|) == sf.Length
    requires forall b :: 0 <= b < sf.Length ==> sf[b] == BlockExp(f, values, limit, b)
    ensures ScalesAreLeast(f, values, sf, limit)
  {
    forall b | 0 <= b < sf.Length
      ensures LeastScale(f, values, limit, b, sf[b])
    {
      BlockExpIsLeast(f, values, limit, b);
    }
  }

  /** The kernel for one token, for any even thread count: every element is quantised with its
      32-element block's scale and every scale entry is stored; `quantised` and `scaled` list
      the chunk and scale stores as they happen: each chunk and each entry exactly once. */
  method QuantToken(f: ScaleFormat, values: seq<real>, out: array<real>, sf: array<int>, limit: real, threads: nat)
    returns (quantised: seq<nat>, scaled: seq<nat>)
    requires limit > 0.0 && |values| % QUANT_VEC == 0 && out.Length == |values| && sf.Length == Blocks(|values|)
    requires threads > 0 && threads % 2 == 0
    modifies out, sf
    ensures forall e :: 0 <= e < |values| ==> ElementDone(f, values, out, limit, e)
    ensures forall b :: 0 <= b < sf.Length ==> sf[b] == BlockExp(f, values, limit, b)
    ensures quantised == Range(0, NumQuantChunks(|values|)) && scaled == Range(0, Blocks(|values|))
    ensures f.Valid() ==> Dequantises(values, out, sf) && ScalesAreLeast(f, values, sf, limit)
  {
    quantised, scaled := [], [];
    for j := 0 to QuantRounds(|values|, threads)
      invariant PrefixDone(f, values, out, sf, limit, Reached(values, j * threads))
      invariant quantised == Range(0, Reached(values, j * threads)) &&
        scaled == Range(0, Halves(Reached(values, j * threads)))
    {
      var first := j * threads;
      assert (j + 1) * threads == first + threads;
      assert first % 2 == 0 by { EvenProduct(j, threads); }
      var did, wrote := QuantRound(f, values, out, sf, limit, threads, first);
      RangeConcat(0, Reached(values, first), Reached(values, first + threads));
      RangeConcat(0, Halves(Reached(values, first)), Halves(Reached(values, first + threads)));
      quantised, scaled := quantised + did, scaled + wrote;
    }
    AllReached(values, threads);
    if f.Valid() {
      StoredDequantise(f, values, out, sf, limit);
      StoredAreLeast(f, values, sf, limit);
    }
  }

  lemma EvenProduct(j: nat, threads: nat)
    requires threads % 2 == 0
    ensures (j * threads) % 2 == 0
  {
    assert j * threads == 2 * (j * (threads / 2));
  }

  /** After the last round every chunk has been reached, and with it every scale block. */
  lemma AllReached(values: seq<real>, threads: nat)
    requires threads > 0 && |values| % QUANT_VEC == 0
    ensures var n := Reached(values, QuantRounds(|values|, threads) * threads);
      n == NumQuantChunks(|values|) && QUANT_VEC * n == |values| && Halves(n) == Blocks(|values|)
  {
    CeilDivBounds(NumQuantChunks(|values|), threads);
  }

  /** Every element QuantToken writes is at most the fp8 limit, if its block's scale is in the
      format's range. */
  lemma ElementWithinLimit(f: ScaleFormat, values: seq<real>, limit: real, e: nat)
    requires f.Valid() && limit > 0.0 && e < |values| && BlockMax(values, e / BLOCK) / limit <= Pow2(f.maxExp)
    ensures Abs(Scaled(f, values, limit, e)) <= limit
  {
    var block := Block(values, e / BLOCK);
    AbsMaxIsMax(block);
    assert block[e % BLOCK] == values[e];
    ScaledWithinLimit(f, AbsMax(block), values[e], limit);
  }

  /** A block whose largest magnitude needs a scale beyond the format saturates: that element
      exceeds the limit. */
  lemma SaturatedExceeds(f: ScaleFormat, absmax: real, v: real, limit: real)
    requires f.Valid() && limit > 0.0 && Abs(v) == absmax && absmax / limit > Pow2(f.maxExp)
    ensures Abs(Times(v, AccScale(f, ScaleExp(f, absmax, limit)))) > limit
  {
    RoundUpSaturates(f, absmax / limit, f.minExp);
    MultiplierInverts(f, f.maxExp);
    Exceeds(absmax, v, limit, Pow2(f.maxExp), AccScale(f, f.maxExp));
  }

  lemma {:induction false} RoundUpSaturates(f: ScaleFormat, x: real, e: int)
    requires e <= f.maxExp && x > Pow2(f.maxExp)
    ensures RoundUp(f, x, e) == f.maxExp
    decreases f.maxExp - e
  {
    Pow2Increases(e, f.maxExp);
    if e < f.maxExp {
      RoundUpSaturates(f, x, e + 1);
    }
  }

  lemma Exceeds(absmax: real, v: real, limit: real, p: real, inv: real)
    requires limit > 0.0 && inv > 0.0 && Inverse(p, inv) && absmax / limit > p && Abs(v) == absmax
    ensures Abs(Times(v, inv)) > limit
  {
    Quotient(absmax, limit);
    AbsTimes(v, inv);
    Beyond(absmax, limit, absmax / limit, p, inv);
  }

  /** Exactly when a block's scale is in the format's range do all its elements fit. */
  lemma BlockFitsIff(f: ScaleFormat, values: seq<real>, limit: real, b: nat)
    requires f.Valid() && limit > 0.0 && b < Blocks(|values|)
    ensures (forall e :: InBlock(values, b, e) ==> Abs(Scaled(f, values, limit, e)) <= limit) <==>
      BlockMax(values, b) / limit <= Pow2(f.maxExp)
  {
    if BlockMax(values, b) / limit <= Pow2(f.maxExp) {
      forall e | InBlock(values, b, e)
        ensures Abs(Scaled(f, values, limit, e)) <= limit
      {
        ElementWithinLimit(f, values, limit, e);
      }
    } else {
      var block := Block(values, b);
      AbsMaxIsMax(block);
      Pow2Positive(f.maxExp);
      assert AbsMax(block) != 0.0 by { ZeroOver(limit); }
      var i :| 0 <= i < |block| && Abs(block[i]) == AbsMax(block);
      var e := BLOCK * b + i;
      assert InBlock(values, b, e) && block[i] == values[e];
      SaturatedExceeds(f, AbsMax(block), values[e], limit);
    }
  }

  lemma ZeroOver(limit: real)
    requires limit > 0.0
    ensures 0.0 / limit == 0.0
  {
  }

  ghost predicate InBlock(values: seq<real>, b: nat, e: nat) { e < |values| && e / BLOCK == b }

  /** How many of the row's chunks lie before chunk q. */
  function Reached(values: seq<real>, q: nat): nat {
    if NumQuantChunks(|values|) < q then NumQuantChunks(|values|) else q
  }

  /** How many scale blocks the first n chunks touch. */
  function Halves(n: nat): nat { (n + 1) / 2 }

  function Range(lo: nat, hi: nat): (xs: seq<nat>)
    ensures lo <= hi ==> |xs| == hi - lo
  {
    if lo <= hi then seq(hi - lo, i requires 0 <= i < hi - lo => lo + i) else []
  }

  lemma RangeConcat(a: nat, b: nat, c: nat)
    requires a <= b <= c
    ensures Range(a, b) + Range(b, c) == Range(a, c)
  {
  }
}
