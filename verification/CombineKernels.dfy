/** The four combine kernels as they are written: CTAs over rows, threads over chunks, a
    predicated pass loop. Each method runs one kernel's CTAs and threads one after another and
    is proved against what the kernel must leave in memory. */
module CombineKernels {
  import opened Folds
  import opened CombineMachine
  import opened CombineRefinement
  import opened CombineIndex
  import opened Arith

  lemma VisitAll(threads: nat, tid: nat, i: nat)
    requires tid < threads
    ensures forall c: nat :: Visited(c, threads, tid, i + 1) <==>
      Visited(c, threads, tid, i) || c == ChunkAt(threads, i, tid)
    ensures !Visited(ChunkAt(threads, i, tid), threads, tid, i)
  {
    forall c: nat
      ensures Visited(c, threads, tid, i + 1) <==> Visited(c, threads, tid, i) || c == ChunkAt(threads, i, tid)
    {
      VisitStep(threads, tid, i, c);
    }
    VisitStep(threads, tid, i, 0);
  }

  lemma VisitThreads(threads: nat, chunks: nat, tid: nat)
    requires tid < threads
    ensures forall c: nat :: c < chunks ==> (Visited(c, threads, tid, CeilDiv(chunks, threads)) <==>
      Visited(c, threads, tid + 1, 0))
  {
    forall c: nat | c < chunks
      ensures Visited(c, threads, tid, CeilDiv(chunks, threads)) <==> Visited(c, threads, tid + 1, 0)
    {
      VisitThread(threads, CeilDiv(chunks, threads), chunks, tid, c);
    }
  }

  /** One CTA of _k_push: copies a contribution row into a staging row. */
  method PushCta<T>(src: array2<T>, srcRow: nat, dst: array2<T>, dstRow: nat, threads: nat)
    requires src != dst && threads > 0
    requires srcRow < src.Length0 && dstRow < dst.Length0 && src.Length1 == dst.Length1
    modifies dst
    ensures forall c :: 0 <= c < dst.Length1 ==> dst[dstRow, c] == src[srcRow, c]
    ensures forall row, c :: 0 <= row < dst.Length0 && 0 <= c < dst.Length1 && row != dstRow ==>
      dst[row, c] == old(dst[row, c])
  {
    var chunks := dst.Length1;
    for tid := 0 to threads
      invariant forall c :: 0 <= c < chunks && Visited(c, threads, tid, 0) ==> dst[dstRow, c] == src[srcRow, c]
      invariant forall row, c :: 0 <= row < dst.Length0 && 0 <= c < chunks && row != dstRow ==>
        dst[row, c] == old(dst[row, c])
    {
      for i := 0 to CeilDiv(chunks, threads)
        invariant forall c :: 0 <= c < chunks && Visited(c, threads, tid, i) ==> dst[dstRow, c] == src[srcRow, c]
        invariant forall row, c :: 0 <= row < dst.Length0 && 0 <= c < chunks && row != dstRow ==>
          dst[row, c] == old(dst[row, c])
      {
        VisitAll(threads, tid, i);
        var c := ChunkAt(threads, i, tid);
        if c < chunks {
          dst[dstRow, c] := src[srcRow, c];
        }
      }
      VisitThreads(threads, chunks, tid);
    }
  }

  function HomeRank(t: nat, m: nat): nat
    requires m > 0
  {
    t / m
  }

  /** The pairs of one rank, as the host lists them: in range and pairwise distinct. */
  ghost predicate PairList(tok: seq<nat>, slot: seq<nat>, tokens: nat, topk: nat) {
    && |tok| == |slot|
    && (forall p :: 0 <= p < |tok| ==> tok[p] < tokens && slot[p] < topk)
    && (forall p, q :: 0 <= p < q < |tok| ==> tok[p] != tok[q] || slot[p] != slot[q])
  }

  /** Pair p is staged at (r, row). */
  predicate Targets(tok: seq<nat>, slot: seq<nat>, p: nat, m: nat, topk: nat, r: nat, row: nat)
    requires m > 0 && p < |tok| == |slot|
  {
    HomeRank(tok[p], m) == r && StagingRow(tok[p], slot[p], m, topk) == row
  }

  lemma TargetsDistinct(tok: seq<nat>, slot: seq<nat>, world: nat, m: nat, topk: nat)
    requires m > 0 && PairList(tok, slot, world * m, topk)
    ensures forall p :: 0 <= p < |tok| ==>
      HomeRank(tok[p], m) < world && StagingRow(tok[p], slot[p], m, topk) < m * topk
    ensures forall p, q, r, row :: 0 <= p < q < |tok| && Targets(tok, slot, p, m, topk, r, row) ==>
      !Targets(tok, slot, q, m, topk, r, row)
  {
    forall p | 0 <= p < |tok|
      ensures HomeRank(tok[p], m) < world && StagingRow(tok[p], slot[p], m, topk) < m * topk
    {
      PushTargetInBounds(tok[p], slot[p], world, m, topk);
    }
    forall p, q, r, row | 0 <= p < q < |tok| && Targets(tok, slot, p, m, topk, r, row)
      ensures !Targets(tok, slot, q, m, topk, r, row)
    {
      if Targets(tok, slot, q, m, topk, r, row) {
        PushTargetInjective(tok[p], slot[p], tok[q], slot[q], m, topk);
      }
    }
  }

  ghost predicate StagingBuffers<T>(staging: seq<array2<T>>, rows: nat, chunks: nat) {
    && (forall r :: 0 <= r < |staging| ==> staging[r].Length0 == rows && staging[r].Length1 == chunks)
    && (forall r, q :: 0 <= r < q < |staging| ==> staging[r] != staging[q])
  }

  /** One staging row of one rank, after the first n pairs: a pair's row if one of them is
      staged there, otherwise what it held. */
  ghost predicate RowPushed<T>(contrib: array2<T>, tok: seq<nat>, slot: seq<nat>, n: nat, m: nat, topk: nat, r: nat,
                               row: nat, before: seq<T>, now: seq<T>)
    requires m > 0 && n <= |tok| == |slot| == contrib.Length0
    requires |before| == |now| == contrib.Length1
    reads contrib
  {
    && (forall p, c :: 0 <= p < n && Targets(tok, slot, p, m, topk, r, row) && 0 <= c < contrib.Length1 ==>
      now[c] == contrib[p, c])
    && ((forall p :: 0 <= p < n ==> !Targets(tok, slot, p, m, topk, r, row)) ==> now == before)
  }

  ghost function RowOf<T>(a: array2<T>, row: nat): (xs: seq<T>)
    requires row < a.Length0
    reads a
    ensures |xs| == a.Length1
  {
    seq(a.Length1, c requires 0 <= c < a.Length1 reads a => a[row, c])
  }

  /** _k_push over its grid: every pair's row reaches its (home rank, local token, slot), and
      no other row of any rank's staging changes. */
  method PushGrid<T>(contrib: array2<T>, tok: seq<nat>, slot: seq<nat>, staging: seq<array2<T>>, m: nat, topk: nat,
                     threads: nat)
    requires m > 0 && threads > 0 && contrib.Length0 == |tok|
    requires PairList(tok, slot, |staging| * m, topk)
    requires StagingBuffers(staging, m * topk, contrib.Length1) && contrib !in staging
    modifies staging
    ensures forall r, row | 0 <= r < |staging| && 0 <= row < m * topk ::
      RowPushed(contrib, tok, slot, |tok|, m, topk, r, row, old(RowOf(staging[r], row)), RowOf(staging[r], row))
  {
    TargetsDistinct(tok, slot, |staging|, m, topk);
    var rows := m * topk;
    for n := 0 to |tok|
      invariant forall r, row | 0 <= r < |staging| && 0 <= row < rows ::
        RowPushed(contrib, tok, slot, n, m, topk, r, row, old(RowOf(staging[r], row)), RowOf(staging[r], row))
    {
      label next:
      var dst, dstRow := HomeRank(tok[n], m), StagingRow(tok[n], slot[n], m, topk);
      PushCta(contrib, n, staging[dst], dstRow, threads);
      forall r, row | 0 <= r < |staging| && 0 <= row < rows
        ensures RowPushed(contrib, tok, slot, n + 1, m, topk, r, row, old(RowOf(staging[r], row)),
          RowOf(staging[r], row))
      {
        assert RowPushed(contrib, tok, slot, n, m, topk, r, row, old(RowOf(staging[r], row)),
          old@next(RowOf(staging[r], row)));
        if Targets(tok, slot, n, m, topk, r, row) {
          assert forall p :: 0 <= p < n ==> !Targets(tok, slot, p, m, topk, r, row);
        } else {
          assert RowOf(staging[r], row) == old@next(RowOf(staging[r], row));
        }
      }
    }
  }

  /** One CTA of _k_reduce: folds the token's staged rows, slot by slot, into its y row. */
  method ReduceCta<T>(alg: Algebra<T>, staging: array2<T>, y: array2<T>, t: nat, topk: nat, threads: nat)
    requires staging != y && threads > 0 && t < y.Length0
    requires t * topk + topk <= staging.Length0 && staging.Length1 == y.Length1
    modifies y
    ensures RowOf(y, t) == StagedFolds(alg, staging, t, topk)
    ensures forall row, c :: 0 <= row < y.Length0 && 0 <= c < y.Length1 && row != t ==> y[row, c] == old(y[row, c])
  {
    var chunks := y.Length1;
    ghost var want := StagedFolds(alg, staging, t, topk);
    for tid := 0 to threads
      invariant StagedFolds(alg, staging, t, topk) == want
      invariant forall c :: 0 <= c < chunks && Visited(c, threads, tid, 0) ==> y[t, c] == want[c]
      invariant forall row, c :: 0 <= row < y.Length0 && 0 <= c < chunks && row != t ==> y[row, c] == old(y[row, c])
    {
      for i := 0 to CeilDiv(chunks, threads)
        invariant StagedFolds(alg, staging, t, topk) == want
        invariant forall c :: 0 <= c < chunks && Visited(c, threads, tid, i) ==> y[t, c] == want[c]
        invariant forall row, c :: 0 <= row < y.Length0 && 0 <= c < chunks && row != t ==> y[row, c] == old(y[row, c])
      {
        VisitAll(threads, tid, i);
        var c := ChunkAt(threads, i, tid);
        if c < chunks {
          var acc := FoldColumn(alg, staging, t, topk, c);
          assert acc == want[c];
          y[t, c] := acc;
        }
      }
      VisitThreads(threads, chunks, tid);
    }
  }

  /** What a token's y row must hold after the reduce: each chunk folded over the slots. */
  ghost function StagedFolds<T>(alg: Algebra<T>, staging: array2<T>, t: nat, topk: nat): (ys: seq<T>)
    requires t * topk + topk <= staging.Length0
    reads staging
    ensures |ys| == staging.Length1
  {
    seq(staging.Length1, c requires 0 <= c < staging.Length1 reads staging =>
      Fold(alg, StagedColumn(staging, t, topk, c)))
  }

  ghost function StagedColumn<T>(staging: array2<T>, t: nat, topk: nat, c: nat): (xs: seq<T>)
    requires t * topk + topk <= staging.Length0 && c < staging.Length1
    reads staging
    ensures |xs| == topk
  {
    seq(topk, k requires 0 <= k < topk reads staging => staging[t * topk + k, c])
  }

  /** The accumulation loop of one thread. */
  method FoldColumn<T>(alg: Algebra<T>, staging: array2<T>, t: nat, topk: nat, c: nat) returns (acc: T)
    requires t * topk + topk <= staging.Length0 && c < staging.Length1
    ensures acc == Fold(alg, StagedColumn(staging, t, topk, c))
  {
    acc := alg.zero;
    ghost var xs := StagedColumn(staging, t, topk, c);
    for k := 0 to topk
      invariant acc == Fold(alg, xs[..k])
    {
      assert xs[..k + 1][..k] == xs[..k];
      acc := alg.add(acc, staging[t * topk + k, c]);
    }
    assert xs[..topk] == xs;
  }

  /** One CTA of _k_nvls_write: adds a contribution row into the token's row of P, each chunk
      exactly once. */
  method WriteCta<T>(alg: Algebra<T>, src: array2<T>, srcRow: nat, p: array2<T>, t: nat, threads: nat)
    requires src != p && threads > 0
    requires srcRow < src.Length0 && t < p.Length0 && src.Length1 == p.Length1
    modifies p
    ensures forall c :: 0 <= c < p.Length1 ==> p[t, c] == alg.add(old(p[t, c]), src[srcRow, c])
    ensures forall row, c :: 0 <= row < p.Length0 && 0 <= c < p.Length1 && row != t ==> p[row, c] == old(p[row, c])
  {
    var chunks := p.Length1;
    for tid := 0 to threads
      invariant forall c :: 0 <= c < chunks ==>
        p[t, c] == if Visited(c, threads, tid, 0) then alg.add(old(p[t, c]), src[srcRow, c]) else old(p[t, c])
      invariant forall row, c :: 0 <= row < p.Length0 && 0 <= c < chunks && row != t ==> p[row, c] == old(p[row, c])
    {
      for i := 0 to CeilDiv(chunks, threads)
        invariant forall c :: 0 <= c < chunks ==>
          p[t, c] == if Visited(c, threads, tid, i) then alg.add(old(p[t, c]), src[srcRow, c]) else old(p[t, c])
        invariant forall row, c :: 0 <= row < p.Length0 && 0 <= c < chunks && row != t ==> p[row, c] == old(p[row, c])
      {
        VisitAll(threads, tid, i);
        var c := ChunkAt(threads, i, tid);
        if c < chunks {
          p[t, c] := alg.add(p[t, c], src[srcRow, c]);
        }
      }
      VisitThreads(threads, chunks, tid);
    }
  }

  /** One chunk of P after the first n pairs have been added, in order. */
  ghost function AddPairs<T>(alg: Algebra<T>, start: T, tok: seq<nat>, vals: seq<T>, t: nat): T
    requires |vals| == |tok|
  {
    if |tok| == 0 then start
    else
      var n := |tok| - 1;
      var prev := AddPairs(alg, start, tok[..n], vals[..n], t);
      if tok[n] == t then alg.add(prev, vals[n]) else prev
  }

  ghost function ColumnOf<T>(a: array2<T>, n: nat, c: nat): (xs: seq<T>)
    requires n <= a.Length0 && c < a.Length1
    reads a
    ensures |xs| == n
  {
    seq(n, row requires 0 <= row < n reads a => a[row, c])
  }

  /** _k_nvls_write over its grid. */
  method WriteGrid<T>(alg: Algebra<T>, contrib: array2<T>, tok: seq<nat>, p: array2<T>, threads: nat)
    requires contrib != p && threads > 0
    requires contrib.Length0 == |tok| && contrib.Length1 == p.Length1
    requires forall n :: 0 <= n < |tok| ==> tok[n] < p.Length0
    modifies p
    ensures forall t, c :: 0 <= t < p.Length0 && 0 <= c < p.Length1 ==>
      p[t, c] == AddPairs(alg, old(p[t, c]), tok, ColumnOf(contrib, |tok|, c), t)
  {
    for n := 0 to |tok|
      invariant forall t, c :: 0 <= t < p.Length0 && 0 <= c < p.Length1 ==>
        p[t, c] == AddPairs(alg, old(p[t, c]), tok[..n], ColumnOf(contrib, n, c), t)
    {
      label next:
      WriteCta(alg, contrib, n, p, tok[n], threads);
      forall t, c | 0 <= t < p.Length0 && 0 <= c < p.Length1
        ensures p[t, c] == AddPairs(alg, old(p[t, c]), tok[..n + 1], ColumnOf(contrib, n + 1, c), t)
      {
        assert old@next(p[t, c]) == AddPairs(alg, old(p[t, c]), tok[..n], ColumnOf(contrib, n, c), t);
        assert tok[..n + 1][..n] == tok[..n];
        assert ColumnOf(contrib, n + 1, c)[..n] == ColumnOf(contrib, n, c);
      }
    }
    assert tok[..|tok|] == tok;
  }

  /** One CTA of _k_nvls_read: a batch of switch-reduced loads into registers, then a batch
      of stores. */
  method ReadCta<T(0)>(alg: Algebra<T>, copies: seq<array2<T>>, y: array2<T>, row0: nat, t: nat, threads: nat)
    requires y !in copies && threads > 0 && t < y.Length0
    requires forall q :: 0 <= q < |copies| ==> row0 + t < copies[q].Length0 && copies[q].Length1 == y.Length1
    modifies y
    ensures RowOf(y, t) == old(SwitchSums(alg, copies, row0 + t, y.Length1))
    ensures forall row, c :: 0 <= row < y.Length0 && 0 <= c < y.Length1 && row != t ==> y[row, c] == old(y[row, c])
  {
    var chunks := y.Length1;
    ghost var want := SwitchSums(alg, copies, row0 + t, chunks);
    for tid := 0 to threads
      invariant SwitchSums(alg, copies, row0 + t, chunks) == want
      invariant forall c :: 0 <= c < chunks && Visited(c, threads, tid, 0) ==> y[t, c] == want[c]
      invariant forall row, c :: 0 <= row < y.Length0 && 0 <= c < chunks && row != t ==> y[row, c] == old(y[row, c])
    {
      var vals := LoadBatch(alg, copies, row0 + t, chunks, tid, threads);
      for i := 0 to vals.Length
        invariant SwitchSums(alg, copies, row0 + t, chunks) == want
        invariant forall c :: 0 <= c < chunks && Visited(c, threads, tid, i) ==> y[t, c] == want[c]
        invariant forall row, c :: 0 <= row < y.Length0 && 0 <= c < chunks && row != t ==> y[row, c] == old(y[row, c])
        invariant forall j :: 0 <= j < vals.Length && ChunkAt(threads, j, tid) < chunks ==>
          vals[j] == want[ChunkAt(threads, j, tid)]
      {
        VisitAll(threads, tid, i);
        var c := ChunkAt(threads, i, tid);
        if c < chunks {
          y[t, c] := vals[i];
        }
      }
      VisitThreads(threads, chunks, tid);
    }
  }

  /** One thread's loads: all passes are issued before anything is stored. */
  method LoadBatch<T(0)>(alg: Algebra<T>, copies: seq<array2<T>>, row: nat, chunks: nat, tid: nat, threads: nat)
    returns (vals: array<T>)
    requires threads > 0
    requires forall q :: 0 <= q < |copies| ==> row < copies[q].Length0 && chunks <= copies[q].Length1
    ensures fresh(vals) && vals.Length == CeilDiv(chunks, threads)
    ensures forall j :: 0 <= j < vals.Length && ChunkAt(threads, j, tid) < chunks ==>
      vals[j] == SwitchSums(alg, copies, row, chunks)[ChunkAt(threads, j, tid)]
  {
    ghost var want := SwitchSums(alg, copies, row, chunks);
    vals := new T[CeilDiv(chunks, threads)];
    for i := 0 to vals.Length
      invariant forall j :: 0 <= j < i && ChunkAt(threads, j, tid) < chunks ==>
        vals[j] == want[ChunkAt(threads, j, tid)]
    {
      var c := ChunkAt(threads, i, tid);
      if c < chunks {
        var sum := SwitchSum(alg, copies, row, c);
        assert sum == want[c];
        vals[i] := sum;
      }
    }
  }

  /** What a token's y row must hold after the read: each chunk summed over the ranks. */
  ghost function SwitchSums<T>(alg: Algebra<T>, copies: seq<array2<T>>, row: nat, chunks: nat): (ys: seq<T>)
    requires forall q :: 0 <= q < |copies| ==> row < copies[q].Length0 && chunks <= copies[q].Length1
    reads copies
    ensures |ys| == chunks
  {
    seq(chunks, c requires 0 <= c < chunks reads copies => Fold(alg, SwitchColumn(copies, row, c)))
  }

  ghost function SwitchColumn<T>(copies: seq<array2<T>>, row: nat, c: nat): (xs: seq<T>)
    requires forall q :: 0 <= q < |copies| ==> row < copies[q].Length0 && c < copies[q].Length1
    reads copies
    ensures |xs| == |copies|
  {
    seq(|copies|, q requires 0 <= q < |copies| reads copies => copies[q][row, c])
  }

  /** multimem.ld_reduce: the sum over every rank's copy. */
  method SwitchSum<T>(alg: Algebra<T>, copies: seq<array2<T>>, row: nat, c: nat) returns (acc: T)
    requires forall q :: 0 <= q < |copies| ==> row < copies[q].Length0 && c < copies[q].Length1
    ensures acc == Fold(alg, SwitchColumn(copies, row, c))
  {
    acc := alg.zero;
    ghost var xs := SwitchColumn(copies, row, c);
    for q := 0 to |copies|
      invariant acc == Fold(alg, xs[..q])
    {
      assert xs[..q + 1][..q] == xs[..q];
      acc := alg.add(acc, copies[q][row, c]);
    }
    assert xs[..|copies|] == xs;
  }

  // ----- the write kernel and the state machine agree -----

  /** The slots of token t among the listed pairs. */
  ghost function ListedBits(tok: seq<nat>, slot: seq<nat>, t: nat, topk: nat): (bits: seq<bool>)
    requires |tok| == |slot|
    ensures |bits| == topk
  {
    seq(topk, k requires 0 <= k < topk => Listed(tok, slot, t, k))
  }

  /** Adding a rank's listed pairs in order gives the masked sum that the state machine's
      Write leaves, whatever order its atomic adds took. */
  lemma {:induction false} WriteKernelIsMaskedSum<T(!new)>(alg: Algebra<T>, start: T, tok: seq<nat>, slot: seq<nat>,
                                                           vals: seq<T>, t: nat, xs: seq<T>, tokens: nat)
    requires CommutativeMonoid(alg)
    requires PairList(tok, slot, tokens, |xs|) && |vals| == |tok|
    requires forall p :: 0 <= p < |tok| && tok[p] == t ==> vals[p] == xs[slot[p]]
    ensures AddPairs(alg, start, tok, vals, t)
         == alg.add(start, Fold(alg, Masked(alg, xs, ListedBits(tok, slot, t, |xs|))))
  {
    var bits := ListedBits(tok, slot, t, |xs|);
    if |tok| == 0 {
      FoldAllZero(alg, Masked(alg, xs, bits));
      assert UnitAt(alg, start);
    } else {
      var n := |tok| - 1;
      var pre := ListedBits(tok[..n], slot[..n], t, |xs|);
      WriteKernelIsMaskedSum(alg, start, tok[..n], slot[..n], vals[..n], t, xs, tokens);
      forall k: nat | k < |xs|
        ensures bits[k] == (pre[k] || (tok[n] == t && slot[n] == k))
      {
        ListedSnoc(tok, slot, t, k);
      }
      if tok[n] == t {
        assert !pre[slot[n]];
        assert bits == pre[slot[n] := true];
        MaskedFoldSwitchOn(alg, xs, pre, slot[n]);
        assert AssocAt(alg, start, Fold(alg, Masked(alg, xs, pre)), xs[slot[n]]);
      } else {
        assert bits == pre;
      }
    }
  }

  lemma ListedSnoc(tok: seq<nat>, slot: seq<nat>, t: nat, k: nat)
    requires |tok| == |slot| > 0
    ensures var n := |tok| - 1;
      Listed(tok, slot, t, k) <==> Listed(tok[..n], slot[..n], t, k) || (tok[n] == t && slot[n] == k)
  {
    var n := |tok| - 1;
    if Listed(tok[..n], slot[..n], t, k) {
      var p :| 0 <= p < n && tok[..n][p] == t && slot[..n][p] == k;
      assert tok[p] == t && slot[p] == k;
    }
    if Listed(tok, slot, t, k) {
      var p :| 0 <= p < |tok| && tok[p] == t && slot[p] == k;
      if p < n {
        assert tok[..n][p] == t && slot[..n][p] == k;
      }
    }
  }
}
