/** run_baseline and run_nvls as programs over the ranks' buffers: each kernel on every rank, one
    rank after another, with the barrier as the point between the two loops. Both leave the
    reference in y, the same that every interleaving of the state machine leaves. */
module CombineIterations {
  import opened Folds
  import opened CombineMachine
  import opened CombineRefinement
  import opened CombineTheorems
  import opened CombineIndex
  import opened CombineKernels
  import opened CombineGrid
  import opened Arith

  /** Every rank has its lists and its contribution rows. */
  ghost predicate Prepared<T>(pb: Problem<T>, ids: array2<nat>, experts: nat, toks: seq<seq<nat>>, slots: seq<seq<nat>>,
                              contribs: seq<array2<T>>)
    reads ids, contribs
  {
    && |toks| == |slots| == |contribs| == pb.world
    && forall r | 0 <= r < pb.world ::
         RankLists(pb, ids, experts, r, toks[r], slots[r]) && RowsHold(pb, contribs[r], toks[r], slots[r])
  }

  /** One buffer per rank of that shape, all different. */
  ghost predicate Buffers<T>(bufs: seq<array2<T>>, world: nat, rows: nat, chunks: nat) {
    |bufs| == world && StagingBuffers(bufs, rows, chunks)
  }

  /** No buffer occurs in both lists. */
  ghost predicate Apart<T>(xs: seq<array2<T>>, ys: seq<array2<T>>) {
    forall i, j :: 0 <= i < |xs| && 0 <= j < |ys| ==> xs[i] != ys[j]
  }

  /** The buffers are not the table of expert ids. */
  ghost predicate Spares<T>(bufs: seq<array2<T>>, ids: array2<nat>) {
    forall i :: 0 <= i < |bufs| ==> bufs[i] as object != ids as object
  }

  /** The reference stands in every rank's y below n. */
  ghost predicate ReferenceIn<T>(pb: Problem<T>, y: seq<array2<T>>, n: nat)
    requires Buffers(y, pb.world, pb.m, pb.chunks) && n <= pb.world
    reads y
  {
    forall r, lt, c :: 0 <= r < n && 0 <= lt < pb.m && 0 <= c < pb.chunks ==> y[r][lt, c] == Reference(pb, r, lt, c)
  }

  /** Every cell of every rank's y is its token's contributions added to zero by slot. */
  ghost predicate SlotsAddedIn<T(!new)>(pb: Problem<T>, y: seq<array2<T>>)
    requires Buffers(y, pb.world, pb.m, pb.chunks)
    reads y
  {
    forall r, lt, c :: 0 <= r < pb.world && 0 <= lt < pb.m && 0 <= c < pb.chunks ==>
      SlotsAdded(pb, r, lt, c, y[r][lt, c])
  }

  lemma ReferenceAddsIn<T(!new)>(pb: Problem<T>, y: seq<array2<T>>)
    requires Buffers(y, pb.world, pb.m, pb.chunks) && ReferenceIn(pb, y, pb.world)
    ensures SlotsAddedIn(pb, y)
  {
    forall r, lt, c | 0 <= r < pb.world && 0 <= lt < pb.m && 0 <= c < pb.chunks
      ensures SlotsAdded(pb, r, lt, c, y[r][lt, c])
    {
      ReferenceAdds(pb, r, lt, c);
    }
  }

  // ----- the baseline -----

  ghost function ContribRow<T>(pb: Problem<T>, t: nat, k: nat): (xs: seq<T>)
    ensures |xs| == pb.chunks
  {
    seq(pb.chunks, c requires 0 <= c < pb.chunks => pb.contrib(t, k, c))
  }

  /** The staged row of a pair on its home rank. */
  ghost function StagedRow<T>(pb: Problem<T>, staging: seq<array2<T>>, t: nat, k: nat): (xs: seq<T>)
    requires Buffers(staging, pb.world, pb.m * pb.topk, pb.chunks) && t < pb.Tokens() && k < pb.topk
    reads staging
    ensures |xs| == pb.chunks
  {
    PositiveFactor(pb.world, pb.m);
    PushTargetInBounds(t, k, pb.world, pb.m, pb.topk);
    RowOf(staging[HomeRank(t, pb.m)], StagingRow(t, k, pb.m, pb.topk))
  }

  /** The pairs of the ranks below n are staged. */
  ghost predicate StagedBelow<T>(pb: Problem<T>, staging: seq<array2<T>>, n: nat)
    requires Buffers(staging, pb.world, pb.m * pb.topk, pb.chunks)
    reads staging
  {
    forall t, k | 0 <= t < pb.Tokens() && 0 <= k < pb.topk && pb.owner(t, k) < n ::
      StagedRow(pb, staging, t, k) == ContribRow(pb, t, k)
  }

  /** What one rank's push does to one pair's row: its own pairs' rows hold their contribution,
      all other pairs' rows keep theirs. */
  lemma PushedRow<T>(pb: Problem<T>, ids: array2<nat>, experts: nat, rank: nat, tok: seq<nat>, slot: seq<nat>,
                     contrib: array2<T>, t: nat, k: nat, before: seq<T>, now: seq<T>)
    requires RankLists(pb, ids, experts, rank, tok, slot) && RowsHold(pb, contrib, tok, slot)
    requires pb.m > 0 && t < pb.Tokens() && k < pb.topk && |before| == |now| == pb.chunks
    requires RowPushed(contrib, tok, slot, |tok|, pb.m, pb.topk, HomeRank(t, pb.m), StagingRow(t, k, pb.m, pb.topk),
      before, now)
    ensures if pb.owner(t, k) == rank then now == ContribRow(pb, t, k) else now == before
  {
    var home, row := HomeRank(t, pb.m), StagingRow(t, k, pb.m, pb.topk);
    ListedIffOwner(pb, ids, experts, rank, tok, slot, t, k);
    if pb.owner(t, k) == rank {
      var p :| 0 <= p < |tok| && tok[p] == t && slot[p] == k;
      assert Targets(tok, slot, p, pb.m, pb.topk, home, row);
      assert now == ContribRow(pb, t, k);
    } else {
      ListsArePairList(pb, ids, experts, rank, tok, slot);
      forall p | 0 <= p < |tok|
        ensures !Targets(tok, slot, p, pb.m, pb.topk, home, row)
      {
        if Targets(tok, slot, p, pb.m, pb.topk, home, row) {
          PushTargetInjective(tok[p], slot[p], t, k, pb.m, pb.topk);
        }
      }
    }
  }

  /** The push kernel on one rank. */
  method PushRank<T>(pb: Problem<T>, ids: array2<nat>, experts: nat, r: nat, tok: seq<nat>, slot: seq<nat>,
                     contrib: array2<T>, staging: seq<array2<T>>, threads: nat)
    requires pb.m > 0 && threads > 0 && r < pb.world
    requires RankLists(pb, ids, experts, r, tok, slot) && RowsHold(pb, contrib, tok, slot)
    requires Buffers(staging, pb.world, pb.m * pb.topk, pb.chunks) && contrib !in staging && Spares(staging, ids)
    requires StagedBelow(pb, staging, r)
    modifies staging
    ensures StagedBelow(pb, staging, r + 1)
  {
    ListsArePairList(pb, ids, experts, r, tok, slot);
    PushGrid(contrib, tok, slot, staging, pb.m, pb.topk, threads);
    forall t, k | 0 <= t < pb.Tokens() && 0 <= k < pb.topk && pb.owner(t, k) < r + 1
      ensures StagedRow(pb, staging, t, k) == ContribRow(pb, t, k)
    {
      PushTargetInBounds(t, k, pb.world, pb.m, pb.topk);
      PushedRow(pb, ids, experts, r, tok, slot, contrib, t, k, old(StagedRow(pb, staging, t, k)),
        StagedRow(pb, staging, t, k));
    }
  }

  /** With every pair staged, the folds of a token's rows are the reference. */
  lemma StagedIsReference<T>(pb: Problem<T>, staging: seq<array2<T>>, r: nat, lt: nat, c: nat)
    requires pb.Valid() && Buffers(staging, pb.world, pb.m * pb.topk, pb.chunks) && StagedBelow(pb, staging, pb.world)
    requires r < pb.world && lt < pb.m && c < pb.chunks && InRows(lt, pb.topk, pb.m * pb.topk)
    ensures StagedFolds(pb.alg, staging[r], lt, pb.topk)[c] == Reference(pb, r, lt, c)
  {
    HomeToken(pb, r, lt);
    var t := r * pb.m + lt;
    forall k: nat | k < pb.topk
      ensures staging[r][lt * pb.topk + k, c] == pb.contrib(t, k, c)
    {
      assert StagedRow(pb, staging, t, k)[c] == ContribRow(pb, t, k)[c];
    }
    assert StagedColumn(staging[r], lt, pb.topk, c) == Contribs(pb, t, c);
  }

  /** The reduce kernel on one rank. */
  method ReduceRank<T>(pb: Problem<T>, staging: seq<array2<T>>, y: array2<T>, r: nat, threads: nat)
    requires pb.Valid() && threads > 0 && r < pb.world && y.Length0 == pb.m && y.Length1 == pb.chunks
    requires Buffers(staging, pb.world, pb.m * pb.topk, pb.chunks) && StagedBelow(pb, staging, pb.world)
    requires y !in staging
    modifies y
    ensures forall lt, c :: 0 <= lt < pb.m && 0 <= c < pb.chunks ==> y[lt, c] == Reference(pb, r, lt, c)
  {
    ReduceGrid(pb.alg, staging[r], y, pb.topk, threads);
    forall lt, c | 0 <= lt < pb.m && 0 <= c < pb.chunks
      ensures y[lt, c] == Reference(pb, r, lt, c)
    {
      assert InRows(lt, pb.topk, pb.m * pb.topk);
      StagedIsReference(pb, staging, r, lt, c);
      assert RowOf(y, lt)[c] == y[lt, c];
    }
  }

  /** run_baseline: every rank pushes, then every rank reduces. */
  method RunBaseline<T(!new)>(pb: Problem<T>, ids: array2<nat>, experts: nat, toks: seq<seq<nat>>, slots: seq<seq<nat>>,
                                contribs: seq<array2<T>>, staging: seq<array2<T>>, y: seq<array2<T>>, threads: nat)
    requires pb.Valid() && pb.m > 0 && threads > 0 && Prepared(pb, ids, experts, toks, slots, contribs)
    requires Buffers(staging, pb.world, pb.m * pb.topk, pb.chunks) && Buffers(y, pb.world, pb.m, pb.chunks)
    requires Apart(contribs, staging) && Apart(contribs, y) && Apart(staging, y)
    requires Spares(staging, ids) && Spares(y, ids)
    modifies staging, y
    ensures ReferenceIn(pb, y, pb.world) && SlotsAddedIn(pb, y)
  {
    for r := 0 to pb.world
      invariant StagedBelow(pb, staging, r) && Prepared(pb, ids, experts, toks, slots, contribs)
    {
      PushRank(pb, ids, experts, r, toks[r], slots[r], contribs[r], staging, threads);
    }
    for r := 0 to pb.world
      invariant StagedBelow(pb, staging, pb.world) && ReferenceIn(pb, y, r)
    {
      ReduceRank(pb, staging, y[r], r, threads);
    }
    ReferenceAddsIn(pb, y);
  }

  // ----- the NVLS path -----

  const NVLS := [Zero, Write, Barrier(Flag(0)), Read]

  lemma NvlsIsIteration()
    ensures NvlsIteration(NVLS, 0)
  {
  }

  /** The copies of the ranks below n hold their complete parts. */
  ghost predicate WrittenBelow<T>(pb: Problem<T>, copies: seq<array2<T>>, n: nat)
    requires Buffers(copies, pb.world, pb.Tokens(), pb.chunks) && n <= pb.world
    reads copies
  {
    forall r, t, c :: 0 <= r < n && 0 <= t < pb.Tokens() && 0 <= c < pb.chunks ==>
      copies[r][t, c] == SerialP(pb, NVLS, 2, r, t, c)
  }

  /** Zero and write on one rank. */
  method WriteRank<T(!new)>(pb: Problem<T>, ids: array2<nat>, experts: nat, r: nat, tok: seq<nat>, slot: seq<nat>,
                            contrib: array2<T>, p: array2<T>, threads: nat)
    requires CommutativeMonoid(pb.alg) && threads > 0 && contrib != p && p as object != ids as object
    requires RankLists(pb, ids, experts, r, tok, slot) && RowsHold(pb, contrib, tok, slot)
    requires p.Length0 == pb.Tokens() && p.Length1 == pb.chunks
    modifies p
    ensures forall t, c :: 0 <= t < pb.Tokens() && 0 <= c < pb.chunks ==> p[t, c] == SerialP(pb, NVLS, 2, r, t, c)
  {
    ListsArePairList(pb, ids, experts, r, tok, slot);
    ZeroP(pb.alg, p);
    WriteGrid(pb.alg, contrib, tok, p, threads);
    forall t, c | 0 <= t < pb.Tokens() && 0 <= c < pb.chunks
      ensures p[t, c] == SerialP(pb, NVLS, 2, r, t, c)
    {
      assert SerialP(pb, NVLS, 1, r, t, c) == pb.alg.zero;
      WriteKernelIsWrite(pb, ids, experts, r, tok, slot, contrib, NVLS, 1, t, c);
    }
  }

  /** With every copy complete, the switch sums of a token's rows are the reference. */
  lemma SwitchIsReference<T(!new)>(pb: Problem<T>, copies: seq<array2<T>>, r: nat, lt: nat, t: nat, c: nat)
    requires pb.Valid() && CommutativeMonoid(pb.alg) && Buffers(copies, pb.world, pb.Tokens(), pb.chunks)
    requires WrittenBelow(pb, copies, pb.world) && r < pb.world && lt < pb.m && c < pb.chunks
    requires t == r * pb.m + lt < pb.Tokens()
    ensures SwitchSums(pb.alg, copies, t, pb.chunks)[c] == Reference(pb, r, lt, c)
  {
    NvlsIsIteration();
    forall q | 0 <= q < pb.world
      ensures copies[q][t, c] == SerialP(pb, NVLS, 3, q, t, c)
    {
      SerialPAfterWrite(pb, NVLS, 0, q, t, c);
    }
    assert SwitchColumn(copies, t, c) == SerialColumn(pb, NVLS, 3, t, c);
    ColumnIsReference(pb, NVLS, 0, r, lt, c);
  }

  /** The rows of rank r's tokens. */
  lemma HomeRows<T>(pb: Problem<T>, r: nat) returns (row0: nat)
    requires r < pb.world
    ensures row0 == r * pb.m && row0 + pb.m <= pb.Tokens()
  {
    row0 := r * pb.m;
    assert (r + 1) * pb.m <= pb.world * pb.m;
  }

  /** The read kernel on one rank, whose tokens start at row0. */
  method ReadRank<T(!new, 0)>(pb: Problem<T>, copies: seq<array2<T>>, y: array2<T>, r: nat, row0: nat, threads: nat)
    requires pb.Valid() && CommutativeMonoid(pb.alg) && threads > 0 && r < pb.world
    requires row0 == r * pb.m && row0 + pb.m <= pb.Tokens()
    requires Buffers(copies, pb.world, pb.Tokens(), pb.chunks) && WrittenBelow(pb, copies, pb.world) && y !in copies
    requires y.Length0 == pb.m && y.Length1 == pb.chunks
    modifies y
    ensures forall lt, c :: 0 <= lt < pb.m && 0 <= c < pb.chunks ==> y[lt, c] == Reference(pb, r, lt, c)
  {
    ReadGrid(pb.alg, copies, y, row0, threads);
    forall lt, c | 0 <= lt < pb.m && 0 <= c < pb.chunks
      ensures y[lt, c] == Reference(pb, r, lt, c)
    {
      SwitchIsReference(pb, copies, r, lt, row0 + lt, c);
      assert RowOf(y, lt)[c] == y[lt, c];
    }
  }

  /** Zero and write on every rank. */
  method WriteAll<T(!new)>(pb: Problem<T>, ids: array2<nat>, experts: nat, toks: seq<seq<nat>>, slots: seq<seq<nat>>,
                           contribs: seq<array2<T>>, copies: seq<array2<T>>, threads: nat)
    requires CommutativeMonoid(pb.alg) && threads > 0 && Prepared(pb, ids, experts, toks, slots, contribs)
    requires Buffers(copies, pb.world, pb.Tokens(), pb.chunks) && Apart(contribs, copies) && Spares(copies, ids)
    modifies copies
    ensures WrittenBelow(pb, copies, pb.world)
  {
    for r := 0 to pb.world
      invariant WrittenBelow(pb, copies, r) && Prepared(pb, ids, experts, toks, slots, contribs)
    {
      WriteRank(pb, ids, experts, r, toks[r], slots[r], contribs[r], copies[r], threads);
    }
  }

  /** run_nvls: every rank zeroes and writes its copy of P, then every rank reads its tokens. */
  method RunNvls<T(!new, 0)>(pb: Problem<T>, ids: array2<nat>, experts: nat, toks: seq<seq<nat>>, slots: seq<seq<nat>>,
                             contribs: seq<array2<T>>, copies: seq<array2<T>>, y: seq<array2<T>>, threads: nat)
    requires pb.Valid() && CommutativeMonoid(pb.alg) && threads > 0 && Prepared(pb, ids, experts, toks, slots, contribs)
    requires Buffers(copies, pb.world, pb.Tokens(), pb.chunks) && Buffers(y, pb.world, pb.m, pb.chunks)
    requires Apart(contribs, copies) && Apart(contribs, y) && Apart(copies, y) && Spares(copies, ids) && Spares(y, ids)
    modifies copies, y
    ensures ReferenceIn(pb, y, pb.world) && SlotsAddedIn(pb, y)
  {
    WriteAll(pb, ids, experts, toks, slots, contribs, copies, threads);
    for r := 0 to pb.world
      invariant WrittenBelow(pb, copies, pb.world) && ReferenceIn(pb, y, r)
    {
      ghost var first := HomeRows(pb, r);
      ReadRank(pb, copies, y[r], r, r * pb.m, threads);
    }
    ReferenceAddsIn(pb, y);
  }
}
