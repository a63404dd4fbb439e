/** Index arithmetic of the combine: routing partition, chunk coverage, push targets and the
    range in which the kernels' Int32 byte offsets are exact. */
module CombineIndex {
  import opened Folds
  import opened CombineMachine
  import opened Arith

  const HIDDEN := 7168
  const TOPK := 6
  const CHUNKS := HIDDEN * 2 / 16

  // ----- routing -----

  /** The rank that holds expert e. */
  function ExpertRank(e: nat, experts: nat, world: nat): nat
    requires 0 < world <= experts
  {
    e / (experts / world)
  }

  /** Rank r holds the experts from r * per to (r + 1) * per - 1, and no others. */
  lemma ExpertsOfRank(e: nat, experts: nat, world: nat, r: nat)
    requires 0 < world <= experts
    ensures var per := experts / world; ExpertRank(e, experts, world) == r <==> r * per <= e < (r + 1) * per
  {
    var per := experts / world;
    DivBelow(e, per, r);
    DivBelow(e, per, r + 1);
  }

  /** Every expert has a home among the ranks exactly when the rank count divides the expert
      count; otherwise the last experts fall off the end and their contributions are lost. */
  lemma EveryExpertHomedIff(experts: nat, world: nat)
    requires 0 < world <= experts
    ensures (forall e: nat :: e < experts ==> ExpertRank(e, experts, world) < world) <==> experts % world == 0
  {
    var per := experts / world;
    assert experts == per * world + experts % world;
    DivBelow(experts - 1, per, world);
    if experts % world == 0 {
      forall e: nat | e < experts
        ensures ExpertRank(e, experts, world) < world
      {
        DivBelow(e, per, world);
      }
    } else {
      assert ExpertRank(experts - 1, experts, world) >= world;
    }
  }

  /** The combine problem of one seeded run: `ids(t, k)` is the expert chosen for token t in
      slot k. */
  function RoutedProblem<T>(world: nat, m: nat, topk: nat, chunks: nat, experts: nat, ids: (nat, nat) -> nat,
                            contrib: (nat, nat, nat) -> T, alg: Algebra<T>): Problem<T>
    requires 0 < world <= experts
  {
    Problem(world, m, topk, chunks, (t, k) => ExpertRank(ids(t, k), experts, world), contrib, alg)
  }

  lemma RoutedProblemValid<T>(world: nat, m: nat, topk: nat, chunks: nat, experts: nat, ids: (nat, nat) -> nat,
                              contrib: (nat, nat, nat) -> T, alg: Algebra<T>)
    requires 0 < world <= experts && experts % world == 0
    requires forall t: nat, k: nat :: t < world * m && k < topk ==> ids(t, k) < experts
    ensures RoutedProblem(world, m, topk, chunks, experts, ids, contrib, alg).Valid()
  {
    EveryExpertHomedIff(experts, world);
    var pb := RoutedProblem(world, m, topk, chunks, experts, ids, contrib, alg);
    forall t: nat, k: nat | t < pb.Tokens() && k < topk
      ensures pb.owner(t, k) < world
    {
      assert ids(t, k) < experts;
    }
  }

  /** (t, k) comes before (t', k') in row-major order. */
  predicate Before(t: nat, k: nat, t': nat, k': nat) {
    t < t' || (t == t' && k < k')
  }

  predicate Mine(ids: array2<nat>, rank: nat, experts: nat, world: nat, t: nat, k: nat)
    reads ids
    requires 0 < world <= experts && t < ids.Length0 && k < ids.Length1
  {
    ExpertRank(ids[t, k], experts, world) == rank
  }

  ghost predicate Listed(tok: seq<nat>, slot: seq<nat>, t: nat, k: nat)
    requires |tok| == |slot|
  {
    exists p :: 0 <= p < |tok| && tok[p] == t && slot[p] == k
  }

  /** The lists hold exactly the rank's pairs before (t, k), each once, in row-major order. */
  ghost predicate Enumerates(tok: seq<nat>, slot: seq<nat>, ids: array2<nat>, rank: nat, experts: nat, world: nat,
                             t: nat, k: nat)
    reads ids
    requires 0 < world <= experts
  {
    && |tok| == |slot|
    && (forall p :: 0 <= p < |tok| ==>
          tok[p] < ids.Length0 && slot[p] < ids.Length1 && Mine(ids, rank, experts, world, tok[p], slot[p]))
    && (forall p :: 0 <= p < |tok| ==> Before(tok[p], slot[p], t, k))
    && (forall p, q :: 0 <= p < q < |tok| ==> Before(tok[p], slot[p], tok[q], slot[q]))
    && (forall t', k' | 0 <= t' < ids.Length0 && 0 <= k' < ids.Length1 && Before(t', k', t, k) ::
          Mine(ids, rank, experts, world, t', k') ==> Listed(tok, slot, t', k'))
  }

  lemma EnumeratesAppend(tok: seq<nat>, slot: seq<nat>, ids: array2<nat>, rank: nat, experts: nat, world: nat, t: nat,
                         k: nat)
    requires 0 < world <= experts && t < ids.Length0 && k < ids.Length1
    requires Enumerates(tok, slot, ids, rank, experts, world, t, k) && Mine(ids, rank, experts, world, t, k)
    ensures Enumerates(tok + [t], slot + [k], ids, rank, experts, world, t, k + 1)
  {
    var tok', slot' := tok + [t], slot + [k];
    assert tok'[|tok|] == t && slot'[|tok|] == k;
    forall a: nat, b: nat | Listed(tok, slot, a, b)
      ensures Listed(tok', slot', a, b)
    {
      var p :| 0 <= p < |tok| && tok[p] == a && slot[p] == b;
      assert tok'[p] == a && slot'[p] == b;
    }
  }

  lemma EnumeratesSkip(tok: seq<nat>, slot: seq<nat>, ids: array2<nat>, rank: nat, experts: nat, world: nat, t: nat,
                       k: nat)
    requires 0 < world <= experts && t < ids.Length0 && k < ids.Length1
    requires Enumerates(tok, slot, ids, rank, experts, world, t, k) && !Mine(ids, rank, experts, world, t, k)
    ensures Enumerates(tok, slot, ids, rank, experts, world, t, k + 1)
  {
  }

  lemma EnumeratesRow(tok: seq<nat>, slot: seq<nat>, ids: array2<nat>, rank: nat, experts: nat, world: nat, t: nat)
    requires 0 < world <= experts && t < ids.Length0
    requires Enumerates(tok, slot, ids, rank, experts, world, t, ids.Length1)
    ensures Enumerates(tok, slot, ids, rank, experts, world, t + 1, 0)
  {
  }

  /** One token's pairs. */
  method RouteRow(ids: array2<nat>, rank: nat, experts: nat, world: nat, t: nat, tok0: seq<nat>, slot0: seq<nat>)
    returns (tok: seq<nat>, slot: seq<nat>)
    requires 0 < world <= experts && t < ids.Length0
    requires Enumerates(tok0, slot0, ids, rank, experts, world, t, 0)
    ensures Enumerates(tok, slot, ids, rank, experts, world, t + 1, 0)
  {
    tok, slot := tok0, slot0;
    for k := 0 to ids.Length1
      invariant Enumerates(tok, slot, ids, rank, experts, world, t, k)
    {
      if ExpertRank(ids[t, k], experts, world) == rank {
        EnumeratesAppend(tok, slot, ids, rank, experts, world, t, k);
        tok, slot := tok + [t], slot + [k];
      } else {
        EnumeratesSkip(tok, slot, ids, rank, experts, world, t, k);
      }
    }
    EnumeratesRow(tok, slot, ids, rank, experts, world, t);
  }

  /** The pairs (t, k) a rank computes: every pair routed to it, once, in row-major order. */
  method RoutePairs(ids: array2<nat>, rank: nat, experts: nat, world: nat) returns (tok: seq<nat>, slot: seq<nat>)
    requires 0 < world <= experts
    ensures Enumerates(tok, slot, ids, rank, experts, world, ids.Length0, 0)
  {
    tok, slot := [], [];
    for t := 0 to ids.Length0
      invariant Enumerates(tok, slot, ids, rank, experts, world, t, 0)
    {
      tok, slot := RouteRow(ids, rank, experts, world, t, tok, slot);
    }
  }

  // ----- chunk coverage -----

  /** Chunks a CTA has visited when thread `tid` is about to start pass `i`, the threads below
      it having finished. */
  predicate Visited(c: nat, threads: nat, tid: nat, i: nat)
    requires threads > 0
  {
    c % threads < tid || (c % threads == tid && c / threads < i)
  }

  /** Pass i of thread tid visits chunk i * threads + tid and nothing else. */
  lemma VisitStep(threads: nat, tid: nat, i: nat, c: nat)
    requires tid < threads
    ensures Visited(c, threads, tid, i + 1) <==> Visited(c, threads, tid, i) || c == i * threads + tid
    ensures !Visited(i * threads + tid, threads, tid, i)
  {
    DivModUnique(i * threads + tid, threads, i, tid);
    assert c == (c / threads) * threads + c % threads;
  }

  /** After the last pass the thread has visited its whole residue class. */
  lemma VisitThread(threads: nat, passes: nat, chunks: nat, tid: nat, c: nat)
    requires tid < threads && passes == CeilDiv(chunks, threads) && c < chunks
    ensures Visited(c, threads, tid, passes) <==> Visited(c, threads, tid + 1, 0)
  {
    DivBelow(c, threads, passes);
    DivBelow(chunks + threads - 1, threads, passes + 1);
    assert (passes + 1) * threads == passes * threads + threads;
  }

  /** The chunk that pass i of thread tid addresses. */
  function ChunkAt(threads: nat, i: nat, tid: nat): nat { i * threads + tid }

  /** The predicated passes cover each chunk exactly once, for any chunk and thread counts. */
  lemma ChunkVisitedOnce(threads: nat, passes: nat, chunks: nat, c: nat, i: nat, tid: nat)
    requires tid < threads && passes == CeilDiv(chunks, threads) && c < chunks
    ensures c / threads < passes && c % threads < threads
    ensures ChunkAt(threads, i, tid) == c <==> i == c / threads && tid == c % threads
  {
    VisitThread(threads, passes, chunks, c % threads, c);
    DivModUnique(ChunkAt(threads, i, tid), threads, i, tid);
    assert c == (c / threads) * threads + c % threads;
  }

  // ----- push targets -----

  /** The staging row of a pair inside its home rank. */
  function StagingRow(t: nat, k: nat, m: nat, topk: nat): nat
    requires m > 0
  {
    (t % m) * topk + k
  }

  /** Push targets are in bounds, and (home rank, staging row) determines the pair. */
  lemma PushTargetInBounds(t: nat, k: nat, world: nat, m: nat, topk: nat)
    requires m > 0 && t < world * m && k < topk
    ensures t / m < world && StagingRow(t, k, m, topk) < m * topk
  {
    DivBelow(t, m, world);
    assert (t % m + 1) * topk <= m * topk;
  }

  lemma PushTargetInjective(t: nat, k: nat, t': nat, k': nat, m: nat, topk: nat)
    requires m > 0 && k < topk && k' < topk
    requires t / m == t' / m && StagingRow(t, k, m, topk) == StagingRow(t', k', m, topk)
    ensures t == t' && k == k'
  {
    DivModUnique(StagingRow(t, k, m, topk), topk, t % m, k);
    DivModUnique(StagingRow(t', k', m, topk), topk, t' % m, k');
    assert t == (t / m) * m + t % m && t' == (t' / m) * m + t' % m;
  }

  /** Every staging row of every rank is the target of some pair. */
  lemma PushTargetSurjective(rank: nat, row: nat, world: nat, m: nat, topk: nat) returns (t: nat, k: nat)
    requires rank < world && row < m * topk
    ensures 0 < m && t < world * m && k < topk && t / m == rank && StagingRow(t, k, m, topk) == row
  {
    PositiveFactor(m, topk);
    DivBelow(row, topk, m);
    var lt := row / topk;
    t, k := rank * m + lt, row % topk;
    DivModUnique(t, m, rank, lt);
    DivBelow(t, m, world);
  }

  // ----- Int32 byte offsets -----

  /** Two's-complement 32-bit result of an integer computation. */
  function Int32(x: int): int {
    (x + 0x8000_0000) % 0x1_0000_0000 - 0x8000_0000
  }

  function PushOffset(localT: nat, slot: nat): nat { (localT * TOPK + slot) * HIDDEN * 2 }

  function ReduceOffset(t: nat, k: nat, c: nat): nat { (t * TOPK + k) * HIDDEN * 2 + c * 16 }

  function StoreOffset(t: nat, c: nat): nat { t * HIDDEN * 2 + c * 16 }

  /** Byte b of y lies in the 16-byte cell of exactly one (row, chunk): rows follow each other,
      chunks follow each other within a row, and the cells of m rows fill the buffer. */
  lemma StoreCellIff(t: nat, c: nat, b: nat)
    requires c < CHUNKS
    ensures StoreOffset(t, c) <= b < StoreOffset(t, c) + 16 <==> t == b / (HIDDEN * 2) && c == b % (HIDDEN * 2) / 16
  {
    DivModIff(b, HIDDEN * 2, t, b % (HIDDEN * 2));
  }

  /** The same of a staging buffer, whose rows are the (token, slot) pairs, slot by slot. */
  lemma ReduceCellIff(t: nat, k: nat, c: nat, b: nat)
    requires k < TOPK && c < CHUNKS
    ensures ReduceOffset(t, k, c) <= b < ReduceOffset(t, k, c) + 16 <==>
      t == b / (HIDDEN * 2) / TOPK && k == b / (HIDDEN * 2) % TOPK && c == b % (HIDDEN * 2) / 16
  {
    StoreCellIff(t * TOPK + k, c, b);
    DivModIff(b / (HIDDEN * 2), TOPK, t, k);
  }

  /** A push writes where the reduce of the token's home rank reads: for every pair and chunk
      their addresses agree, and are those of the pair's staging row. */
  lemma PushMeetsReduce(t: nat, k: nat, c: nat, m: nat)
    requires m > 0
    ensures PushOffset(t % m, k) + c * 16 == ReduceOffset(t % m, k, c) == StoreOffset(StagingRow(t, k, m, TOPK), c)
  {
  }

  predicate ExactAt(t: nat, k: nat, c: nat) {
    && Int32(PushOffset(t, k)) == PushOffset(t, k)
    && Int32(ReduceOffset(t, k, c)) == ReduceOffset(t, k, c)
    && Int32(StoreOffset(t, c)) == StoreOffset(t, c)
  }

  ghost predicate OffsetsExact(m: nat) {
    forall t: nat, k: nat, c: nat :: t < m && k < TOPK && c < CHUNKS ==> ExactAt(t, k, c)
  }

  /** The result is the one 32-bit value congruent to x. */
  lemma Int32Wraps(x: int, v: int)
    ensures Int32(x) == v <==> -0x8000_0000 <= v < 0x8000_0000 && (x - v) % 0x1_0000_0000 == 0
  {
  }

  lemma Int32ExactIff(x: int)
    ensures Int32(x) == x <==> -0x8000_0000 <= x < 0x8000_0000
  {
  }

  /** All byte offsets the baseline kernels compute in Int32 are exact iff m <= 24966. */
  lemma OffsetsExactIff(m: nat)
    ensures OffsetsExact(m) <==> m <= 24966
  {
    if m > 24966 {
      var t: nat, k: nat, c: nat := m - 1, TOPK - 1, 0;
      Int32ExactIff(PushOffset(t, k));
      assert !ExactAt(t, k, c);
    } else {
      forall t: nat, k: nat, c: nat | t < m && k < TOPK && c < CHUNKS
        ensures ExactAt(t, k, c)
      {
        Int32ExactIff(PushOffset(t, k));
        Int32ExactIff(ReduceOffset(t, k, c));
        Int32ExactIff(StoreOffset(t, c));
      }
    }
  }
}
