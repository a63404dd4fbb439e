/** Whole kernels over their grids and whole iterations over all ranks, as the host launches them:
    each rank's routed pairs, its contribution rows, and the four kernels one after another leave
    in y what the state machine's runs leave there. */
module CombineGrid {
  import opened Folds
  import opened CombineMachine
  import opened CombineRefinement
  import opened CombineTheorems
  import opened CombineIndex
  import opened CombineKernels

  // ----- the host's lists and the state machine's owners -----

  /** The routing of the problem is that of the expert ids. */
  ghost predicate RoutedBy<T>(pb: Problem<T>, ids: array2<nat>, experts: nat)
    reads ids
  {
    && 0 < pb.world <= experts && ids.Length0 == pb.Tokens() && ids.Length1 == pb.topk
    && forall t, k ::
         0 <= t < ids.Length0 && 0 <= k < ids.Length1 ==>
           pb.owner(t, k) == ExpertRank(ids[t, k], experts, pb.world)
  }

  /** A rank's lists are what RoutePairs makes. */
  ghost predicate RankLists<T>(pb: Problem<T>, ids: array2<nat>, experts: nat, rank: nat, tok: seq<nat>, slot: seq<nat>)
    reads ids
  {
    RoutedBy(pb, ids, experts) && Enumerates(tok, slot, ids, rank, experts, pb.world, ids.Length0, 0)
  }

  /** The lists meet what the kernels ask of them: in range, no pair twice. */
  lemma ListsArePairList<T>(pb: Problem<T>, ids: array2<nat>, experts: nat, rank: nat, tok: seq<nat>, slot: seq<nat>)
    requires RankLists(pb, ids, experts, rank, tok, slot)
    ensures PairList(tok, slot, pb.Tokens(), pb.topk)
  {
  }

  /** A pair is listed by exactly the rank that owns it. */
  lemma ListedIffOwner<T>(pb: Problem<T>, ids: array2<nat>, experts: nat, rank: nat, tok: seq<nat>, slot: seq<nat>,
                          t: nat, k: nat)
    requires RankLists(pb, ids, experts, rank, tok, slot) && t < pb.Tokens() && k < pb.topk
    ensures Listed(tok, slot, t, k) <==> pb.owner(t, k) == rank
  {
    if Listed(tok, slot, t, k) {
      var p :| 0 <= p < |tok| && tok[p] == t && slot[p] == k;
      assert Mine(ids, rank, experts, pb.world, tok[p], slot[p]);
    }
    if pb.owner(t, k) == rank {
      assert Before(t, k, ids.Length0, 0) && Mine(ids, rank, experts, pb.world, t, k);
    }
  }

  lemma ListedIsOwned<T>(pb: Problem<T>, ids: array2<nat>, experts: nat, rank: nat, tok: seq<nat>, slot: seq<nat>,
                         t: nat)
    requires RankLists(pb, ids, experts, rank, tok, slot) && t < pb.Tokens()
    ensures ListedBits(tok, slot, t, pb.topk) == OwnedBits(Owners(pb, t), rank)
  {
    forall k: nat | k < pb.topk
      ensures Listed(tok, slot, t, k) <==> pb.owner(t, k) == rank
    {
      ListedIffOwner(pb, ids, experts, rank, tok, slot, t, k);
    }
  }

  /** The rank's buffer holds one contribution row per listed pair. */
  ghost predicate RowsHold<T>(pb: Problem<T>, contrib: array2<T>, tok: seq<nat>, slot: seq<nat>)
    reads contrib
  {
    && |tok| == |slot| == contrib.Length0 && contrib.Length1 == pb.chunks
    && forall n, c | 0 <= n < |tok| && 0 <= c < pb.chunks :: contrib[n, c] == pb.contrib(tok[n], slot[n], c)
  }

  /** One launch of the write kernel is the Write of the state machine: from what P held before
      it to what it holds in the serial run. */
  lemma WriteKernelIsWrite<T(!new)>(pb: Problem<T>, ids: array2<nat>, experts: nat, rank: nat, tok: seq<nat>,
                                    slot: seq<nat>, contrib: array2<T>, prog: seq<Kernel>, p: nat, t: nat, c: nat)
    requires CommutativeMonoid(pb.alg) && RankLists(pb, ids, experts, rank, tok, slot)
    requires RowsHold(pb, contrib, tok, slot)
    requires p < |prog| && prog[p].Write? && t < pb.Tokens() && c < pb.chunks
    ensures AddPairs(pb.alg, SerialP(pb, prog, p, rank, t, c), tok, ColumnOf(contrib, |tok|, c), t)
         == SerialP(pb, prog, p + 1, rank, t, c)
  {
    ListsArePairList(pb, ids, experts, rank, tok, slot);
    ListedIsOwned(pb, ids, experts, rank, tok, slot, t);
    var before := SerialP(pb, prog, p, rank, t, c);
    WriteKernelIsMaskedSum(pb.alg, before, tok, slot, ColumnOf(contrib, |tok|, c), t, Contribs(pb, t, c), pb.Tokens());
  }

  // ----- kernels over their grids -----

  /** _k_reduce over its grid: every token's y row is the fold of its staged rows. */
  method ReduceGrid<T>(alg: Algebra<T>, staging: array2<T>, y: array2<T>, topk: nat, threads: nat)
    requires staging != y && threads > 0
    requires y.Length0 * topk == staging.Length0 && staging.Length1 == y.Length1
    modifies y
    ensures forall t | 0 <= t < y.Length0 ::
      InRows(t, topk, staging.Length0) && RowOf(y, t) == StagedFolds(alg, staging, t, topk)
  {
    for t := 0 to y.Length0
      invariant forall s | 0 <= s < t ::
        InRows(s, topk, staging.Length0) && RowOf(y, s) == StagedFolds(alg, staging, s, topk)
    {
      RowsFit(t, topk, y.Length0);
      ghost var rows := seq(t, s requires 0 <= s < t reads y => RowOf(y, s));
      ReduceCta(alg, staging, y, t, topk, threads);
      forall s | 0 <= s < t
        ensures RowOf(y, s) == rows[s]
      {
      }
    }
  }

  /** Rows t * topk .. t * topk + topk - 1 exist. */
  ghost predicate InRows(t: nat, topk: nat, rows: nat) { t * topk + topk <= rows }

  lemma RowsFit(t: nat, topk: nat, m: nat)
    requires t < m
    ensures InRows(t, topk, m * topk)
  {
    assert (t + 1) * topk <= m * topk;
  }

  /** _k_nvls_read over its grid: every token's y row is the sum of its rows over all copies. */
  method ReadGrid<T(0)>(alg: Algebra<T>, copies: seq<array2<T>>, y: array2<T>, row0: nat, threads: nat)
    requires y !in copies && threads > 0
    requires forall q :: 0 <= q < |copies| ==> row0 + y.Length0 <= copies[q].Length0 && copies[q].Length1 == y.Length1
    modifies y
    ensures forall t | 0 <= t < y.Length0 :: RowOf(y, t) == SwitchSums(alg, copies, row0 + t, y.Length1)
  {
    for t := 0 to y.Length0
      invariant forall s | 0 <= s < t :: RowOf(y, s) == SwitchSums(alg, copies, row0 + s, y.Length1)
    {
      ghost var rows := seq(t, s requires 0 <= s < t reads y => RowOf(y, s));
      ReadCta(alg, copies, y, row0, t, threads);
      forall s | 0 <= s < t
        ensures RowOf(y, s) == rows[s]
      {
      }
    }
  }

  /** P.zero_() on one rank. */
  method ZeroP<T>(alg: Algebra<T>, p: array2<T>)
    modifies p
    ensures forall t, c :: 0 <= t < p.Length0 && 0 <= c < p.Length1 ==> p[t, c] == alg.zero
  {
    forall t, c | 0 <= t < p.Length0 && 0 <= c < p.Length1 {
      p[t, c] := alg.zero;
    }
  }
}
