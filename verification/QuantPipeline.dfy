/** The asynchronous staging pipeline of the MXFP8 quantisation kernel: cp.async groups are
    committed during the load rounds, and each quantisation round commits one dummy group and
    waits until at most `numGroups` groups are outstanding. */
module QuantPipeline {
  import opened Arith

  const LOAD_VEC := 8
  const QUANT_VEC := 16

  function NumChunks(hidden: nat): nat { hidden / LOAD_VEC }

  function NumQuantChunks(hidden: nat): nat { hidden / QUANT_VEC }

  function LoadRounds(hidden: nat, threads: nat): nat
    requires threads > 0
  {
    CeilDiv(NumChunks(hidden), threads)
  }

  function QuantRounds(hidden: nat, threads: nat): nat
    requires threads > 0
  {
    CeilDiv(NumQuantChunks(hidden), threads)
  }

  function NumGroups(hidden: nat, threads: nat): nat
    requires threads > 0
  {
    CeilDiv(LoadRounds(hidden, threads), 2)
  }

  /** Halving the load rounds gives the quantisation rounds: one committed group per round. */
  lemma GroupsEqualRounds(hidden: nat, threads: nat)
    requires threads > 0 && hidden % QUANT_VEC == 0
    ensures NumGroups(hidden, threads) == QuantRounds(hidden, threads)
  {
    var x := NumQuantChunks(hidden);
    assert NumChunks(hidden) == 2 * x;
    HalfRounds(x, threads);
  }

  lemma HalfRounds(x: nat, threads: nat)
    requires threads > 0
    ensures CeilDiv(CeilDiv(2 * x, threads), 2) == CeilDiv(x, threads)
  {
    var rounds := CeilDiv(2 * x, threads);
    CeilDivBounds(2 * x, threads);
    HalfIsLeast(x, threads, rounds, CeilDiv(rounds, 2));
    CeilDivIsLeast(x, threads, CeilDiv(rounds, 2));
  }

  lemma HalfIsLeast(x: nat, threads: nat, rounds: nat, g: nat)
    requires 2 * x <= rounds * threads && (rounds > 0 ==> (rounds - 1) * threads < 2 * x)
    requires rounds <= 2 * g && (g > 0 ==> 2 * g - 2 <= rounds - 1)
    ensures x <= g * threads && (g > 0 ==> (g - 1) * threads < x)
  {
    Scale(rounds, 2 * g, threads);
    Twice(g, threads);
    if g > 0 {
      Scale(2 * g - 2, rounds - 1, threads);
      Twice(g - 1, threads);
    }
  }

  lemma Twice(g: int, t: int)
    ensures (2 * g) * t == 2 * (g * t) && (2 * g - 2) * t == 2 * ((g - 1) * t)
  {
    assert (2 * g) * t == 2 * (g * t);
    assert (2 * (g - 1)) * t == 2 * ((g - 1) * t);
  }

  lemma Scale(a: int, b: int, t: nat)
    requires a <= b
    ensures a * t <= b * t
  {
    assert (b - a) * t >= 0;
  }

  /** The load chunks thread tid copies in the load rounds that feed quantisation round k. */
  ghost function GroupChunks(hidden: nat, threads: nat, tid: nat, k: nat): set<nat>
    requires threads > 0
  {
    set c: nat | c < NumChunks(hidden) && c % threads == tid && c / threads / 2 == k
  }

  /** The two load chunks of the 16-element vector that thread tid quantises in round j. */
  ghost predicate ReadsIn(hidden: nat, threads: nat, tid: nat, j: nat, c: nat) {
    tid + j * threads < NumQuantChunks(hidden) && (c == 2 * (tid + j * threads) || c == 2 * (tid + j * threads) + 1)
  }

  /** Load chunk c of round j's reads is copied in load round 2j or 2j + 1. */
  lemma LoadRoundOf(threads: nat, j: nat, e: nat)
    requires threads > 0 && e < 2 * threads
    ensures (2 * (j * threads) + e) / threads / 2 == j
  {
    var half := if e < threads then 0 else 1;
    var r := if e < threads then e else e - threads;
    assert (2 * j + half) * threads == 2 * (j * threads) + half * threads;
    DivModUnique(2 * (j * threads) + e, threads, 2 * j + half, r);
  }

  /** Whatever a thread reads in round j was copied, by whichever thread, into that thread's
      group j. */
  lemma ReadFromGroup(hidden: nat, threads: nat, tid: nat, j: nat, c: nat)
    requires tid < threads && hidden % QUANT_VEC == 0 && ReadsIn(hidden, threads, tid, j, c)
    ensures c % threads < threads && c in GroupChunks(hidden, threads, c % threads, j)
  {
    LoadRoundOf(threads, j, c - 2 * (j * threads));
    assert NumChunks(hidden) == 2 * NumQuantChunks(hidden);
  }

  /** One thread's view of cp.async: what it has issued since its last commit, its committed
      groups, and what has landed in shared memory so far. */
  class CpAsync {
    var open: set<nat>
    var groups: seq<set<nat>>
    var landed: set<nat>

    constructor ()
      ensures open == {} && groups == [] && landed == {}
    {
      open, groups, landed := {}, [], {};
    }

    method Copy(c: nat)
      modifies this`open
      ensures open == old(open) + {c}
    {
      open := open + {c};
    }

    method CommitGroup()
      modifies this`open, this`groups
      ensures groups == old(groups) + [old(open)] && open == {}
    {
      groups := groups + [open];
      open := {};
    }

    /** Returns once at most n groups are outstanding; anything may have landed by then. */
    method WaitGroup(n: nat)
      modifies this`landed
      ensures old(landed) <= landed
      ensures forall k :: 0 <= k < |groups| - n ==> groups[k] <= landed
    {
      for k := 0 to |groups|
        invariant old(landed) <= landed
        invariant forall i :: 0 <= i < k ==> groups[i] <= landed
      {
        landed := landed + groups[k];
      }
    }
  }

  /** The chunks of thread tid in load rounds lo .. hi - 1. */
  ghost function RoundChunks(hidden: nat, threads: nat, tid: nat, lo: nat, hi: nat): set<nat>
    requires threads > 0
  {
    set c: nat | c < NumChunks(hidden) && c % threads == tid && lo <= c / threads < hi
  }

  lemma RoundStep(hidden: nat, threads: nat, tid: nat, lo: nat, i: nat)
    requires tid < threads && lo <= i
    ensures RoundChunks(hidden, threads, tid, lo, i + 1)
      == RoundChunks(hidden, threads, tid, lo, i) +
        (if tid + i * threads < NumChunks(hidden) then {tid + i * threads} else {})
    ensures RoundChunks(hidden, threads, tid, i, i) == {}
  {
    DivModUnique(tid + i * threads, threads, i, tid);
    forall c: nat | c % threads == tid && c / threads == i
      ensures c == tid + i * threads
    {
      assert c == (c / threads) * threads + c % threads;
    }
  }

  lemma GroupIsTwoRounds(hidden: nat, threads: nat, tid: nat, k: nat)
    requires tid < threads
    ensures GroupChunks(hidden, threads, tid, k) == RoundChunks(hidden, threads, tid, 2 * k, 2 * k + 2)
  {
  }

  lemma NoRoundsBeyond(hidden: nat, threads: nat, tid: nat, lo: nat)
    requires tid < threads
    ensures var last := LoadRounds(hidden, threads);
      RoundChunks(hidden, threads, tid, lo, last) == RoundChunks(hidden, threads, tid, lo, last + 1)
  {
    CeilDivBounds(NumChunks(hidden), threads);
    forall c: nat | c < NumChunks(hidden)
      ensures c / threads < LoadRounds(hidden, threads)
    {
      DivBelow(c, threads, LoadRounds(hidden, threads));
    }
  }

  /** The load phase of one thread: a predicated copy per round, a commit after every second
      round and after the last. */
  method LoadPhase(cp: CpAsync, hidden: nat, threads: nat, tid: nat)
    requires tid < threads && cp.open == {} && cp.groups == []
    modifies cp`open, cp`groups
    ensures cp.open == {} && |cp.groups| == NumGroups(hidden, threads)
    ensures forall k :: 0 <= k < |cp.groups| ==> cp.groups[k] == GroupChunks(hidden, threads, tid, k)
  {
    var rounds := LoadRounds(hidden, threads);
    RoundStep(hidden, threads, tid, 0, 0);
    for i := 0 to rounds
      invariant |cp.groups| == (if i == rounds then CeilDiv(rounds, 2) else i / 2)
      invariant cp.open == if i == rounds then {} else RoundChunks(hidden, threads, tid, 2 * (i / 2), i)
      invariant forall k :: 0 <= k < |cp.groups| ==> cp.groups[k] == GroupChunks(hidden, threads, tid, k)
    {
      var c := tid + i * threads;
      RoundStep(hidden, threads, tid, 2 * (i / 2), i);
      RoundStep(hidden, threads, tid, i + 1, i + 1);
      if c < NumChunks(hidden) {
        cp.Copy(c);
      }
      if (i + 1) % 2 == 0 || i == rounds - 1 {
        GroupIsTwoRounds(hidden, threads, tid, i / 2);
        if (i + 1) % 2 != 0 {
          NoRoundsBeyond(hidden, threads, tid, 2 * (i / 2));
        }
        cp.CommitGroup();
      }
    }
  }

  /** One thread through the whole kernel. landed[j] is what had landed for it when it left the
      wait of quantisation round j. */
  method RunThread(hidden: nat, threads: nat, tid: nat) returns (landed: seq<set<nat>>)
    requires tid < threads && hidden % QUANT_VEC == 0
    ensures |landed| == QuantRounds(hidden, threads)
    ensures forall j, k :: 0 <= k <= j < |landed| ==> GroupChunks(hidden, threads, tid, k) <= landed[j]
  {
    var cp := new CpAsync();
    LoadPhase(cp, hidden, threads, tid);
    GroupsEqualRounds(hidden, threads);
    var numGroups := NumGroups(hidden, threads);
    ghost var loaded := cp.groups;
    landed := [];
    for j := 0 to QuantRounds(hidden, threads)
      invariant |landed| == j && |cp.groups| == numGroups + j && cp.groups[..numGroups] == loaded
      invariant forall i, k :: 0 <= k <= i < j ==> GroupChunks(hidden, threads, tid, k) <= landed[i]
    {
      cp.CommitGroup();
      cp.WaitGroup(numGroups);
      forall k | 0 <= k <= j
        ensures GroupChunks(hidden, threads, tid, k) <= cp.landed
      {
        assert loaded[k] == cp.groups[k];
      }
      landed := landed + [cp.landed];
    }
  }

  /** After round j's wait by every thread and the CTA-wide sync, every load chunk that any
      thread reads in round j has landed. `landed[t]` is what RunThread returns for thread t. */
  lemma RoundReadsHaveLanded(hidden: nat, threads: nat, landed: seq<seq<set<nat>>>, tid: nat, j: nat, c: nat)
    requires hidden % QUANT_VEC == 0 && |landed| == threads && tid < threads
    requires forall t :: 0 <= t < threads ==> |landed[t]| == QuantRounds(hidden, threads)
    requires forall t, i, k :: 0 <= t < threads && 0 <= k <= i < |landed[t]| ==>
      GroupChunks(hidden, threads, t, k) <= landed[t][i]
    requires j < QuantRounds(hidden, threads) && ReadsIn(hidden, threads, tid, j, c)
    ensures c % threads < threads && c in landed[c % threads][j]
  {
    ReadFromGroup(hidden, threads, tid, j, c);
  }

  /** Chunk c has landed for thread t when it leaves the wait of round j. */
  ghost predicate LandedBy(landed: seq<seq<set<nat>>>, t: nat, j: nat, c: nat) {
    t < |landed| && j < |landed[t]| && c in landed[t][j]
  }

  /** The whole row: element e is quantised by thread e / 16 % threads in round e / 16 / threads, and
      by then its 8-element load chunk has landed for the thread that copied it. */
  lemma ElementLanded(hidden: nat, threads: nat, landed: seq<seq<set<nat>>>, e: nat)
    requires hidden % 16 == 0 && e < hidden && |landed| == threads > 0
    requires forall t :: 0 <= t < threads ==> |landed[t]| == QuantRounds(hidden, threads)
    requires forall t, i, k :: 0 <= t < threads && 0 <= k <= i < |landed[t]| ==>
      GroupChunks(hidden, threads, t, k) <= landed[t][i]
    ensures LandedBy(landed, e / 8 % threads, e / 16 / threads, e / 8)
    ensures ReadsIn(hidden, threads, e / 16 % threads, e / 16 / threads, e / 8)
  {
    var q := e / 16;
    var j, tid := q / threads, q % threads;
    assert q == tid + j * threads;
    DivBelow(q, threads, QuantRounds(hidden, threads));
    CeilDivBounds(NumQuantChunks(hidden), threads);
    RoundReadsHaveLanded(hidden, threads, landed, tid, j, e / 8);
  }

  /** A round reads of the row exactly the elements of its vectors. */
  lemma ReadsAreElements(hidden: nat, threads: nat, tid: nat, j: nat, c: nat)
    requires tid < threads && hidden % 16 == 0
    ensures ReadsIn(hidden, threads, tid, j, c) <==>
            8 * c < hidden && 8 * c / 16 / threads == j && 8 * c / 16 % threads == tid
  {
    DivModIff(8 * c / 16, threads, j, tid);
  }
}
