/** The host program: which kernels main() enqueues, in which order, with which barriers. */
module CombineHost {
  import opened CombineMachine
  import opened CombineOrder
  import opened CombineRefinement
  import opened CombineTheorems
  import opened Folds

  /** What one timed call enqueues. */
  datatype Launch =
    | Baseline | Nvls | NvlsHot
    | WriteOnly | ReadOnly | ZeroOnly | PushOnly | ReduceOnly | BarrierOnly

  function Kernels(fn: Launch, flag: nat): seq<Kernel> {
    match fn
    case Baseline => [Push, Barrier(Flag(flag)), Reduce]
    case Nvls => [Zero, Write, Barrier(Flag(flag)), Read]
    case NvlsHot => [Write, Barrier(Flag(flag)), Read]
    case WriteOnly => [Write]
    case ReadOnly => [Read]
    case ZeroOnly => [Zero]
    case PushOnly => [Push]
    case ReduceOnly => [Reduce]
    case BarrierOnly => [Barrier(Flag(flag))]
  }

  function FlagAfter(fn: Launch, flag: nat, n: nat): nat {
    if fn.Baseline? || fn.Nvls? || fn.NvlsHot? || fn.BarrierOnly? then flag + n else flag
  }

  function BenchStream(fn: Launch, n: nat, host: nat, flag: nat): seq<Kernel> {
    if n == 0 then []
    else BenchStream(fn, n - 1, host, flag) + [Barrier(Host(host + n - 1))] + Kernels(fn, FlagAfter(fn, flag, n - 1))
  }

  function WarmStream(n: nat, flag: nat): seq<Kernel> {
    if n == 0 then []
    else WarmStream(n - 1, flag) + Kernels(Baseline, flag + 2 * (n - 1)) + Kernels(Nvls, flag + 2 * (n - 1) + 1)
  }

  /** The benched calls, in order. */
  const BENCHED := [Baseline, Nvls, NvlsHot, WriteOnly, ReadOnly, ZeroOnly, PushOnly, ReduceOnly, BarrierOnly]

  function BenchFlag(iters: nat, i: nat): nat
    requires i <= |BENCHED|
  {
    if i == 0 then 8 else FlagAfter(BENCHED[i - 1], BenchFlag(iters, i - 1), iters)
  }

  /** Host barriers used before bench i. */
  function BenchHost(iters: nat, i: nat): nat { if i == 0 then 3 else BenchHost(iters, i - 1) + iters }

  function BenchesStream(iters: nat, i: nat): seq<Kernel>
    requires i <= |BENCHED|
  {
    if i == 0 then []
    else BenchesStream(iters, i - 1)
         + BenchStream(BENCHED[i - 1], iters, BenchHost(iters, i - 1), BenchFlag(iters, i - 1))
  }

  function CheckStream(): seq<Kernel> {
    [Barrier(Host(0))] + Kernels(Baseline, 0) + [Barrier(Host(1))] + Kernels(Nvls, 1) + [Barrier(Host(2))]
  }

  const WARM_ROUNDS: nat := 3

  /** The correctness check, the unpaced warm loop and the first i paced benches. */
  function Upto(iters: nat, i: nat): seq<Kernel>
    requires i <= |BENCHED|
  {
    CheckStream() + WarmStream(WARM_ROUNDS, 2) + BenchesStream(iters, i)
  }

  /** The whole stream of main(): check, warm loop, nine paced benches, the closing barrier. */
  function MainStream(iters: nat): seq<Kernel> {
    Upto(iters, |BENCHED|) + [Barrier(Host(3 + 9 * iters))]
  }

  // ----- appending one kernel -----

  /** The kernels enqueued since the last barrier. */
  function Open(prog: seq<Kernel>): set<Kernel> {
    if |prog| == 0 || prog[|prog| - 1].Barrier? then {}
    else Open(prog[..|prog| - 1]) + {prog[|prog| - 1]}
  }

  lemma {:induction false} OpenMeansSinceBarrier(prog: seq<Kernel>, x: Kernel)
    ensures x in Open(prog) <==>
            exists p: nat :: p < |prog| && prog[p] == x && !x.Barrier? && !BarrierBetween(prog, p, |prog|)
  {
    if |prog| > 0 {
      var n := |prog| - 1;
      var pre := prog[..n];
      OpenMeansSinceBarrier(pre, x);
      if prog[n].Barrier? {
        forall p: nat | p < |prog| && prog[p] == x && !x.Barrier?
          ensures BarrierBetween(prog, p, |prog|)
        {
          assert p < n < |prog|;
        }
      } else {
        forall p: nat | p < n
          ensures BarrierBetween(prog, p, |prog|) <==> BarrierBetween(pre, p, n)
        {
          assert forall b :: p < b < n ==> prog[b] == pre[b];
        }
        if prog[n] == x {
          assert !BarrierBetween(prog, n, |prog|);
        }
      }
    }
  }

  /** Appending a kernel keeps the stream separated exactly when nothing enqueued since the
      last barrier conflicts with it. */
  lemma SeparatedAppend(prog: seq<Kernel>, k: Kernel)
    ensures Separated(prog + [k]) <==> Separated(prog) && forall x :: x in Open(prog) ==> !Conflict(x, k)
  {
    var n, next := |prog|, prog + [k];
    forall p: nat, q: nat | p < q <= n
      ensures BarrierBetween(next, p, q) <==> BarrierBetween(prog, p, q)
    {
      assert forall b :: p < b < q ==> next[b] == prog[b];
    }
    if Separated(next) {
      forall p: nat, q: nat | p < q < |prog| && Conflict(prog[p], prog[q])
        ensures BarrierBetween(prog, p, q)
      {
        assert Conflict(next[p], next[q]);
      }
      forall x | x in Open(prog)
        ensures !Conflict(x, k)
      {
        OpenMeansSinceBarrier(prog, x);
        var p: nat :| p < |prog| && prog[p] == x && !BarrierBetween(prog, p, |prog|);
        assert next[p] == x && next[n] == k && !BarrierBetween(next, p, n);
      }
    }
    if Separated(prog) && forall x :: x in Open(prog) ==> !Conflict(x, k) {
      forall p: nat, q: nat | p < q < |next| && Conflict(next[p], next[q])
        ensures BarrierBetween(next, p, q)
      {
        OpenMeansSinceBarrier(prog, next[p]);
        if q < n {
          assert Conflict(prog[p], prog[q]) && BarrierBetween(prog, p, q);
        } else {
          assert next[p] == prog[p] && next[q] == k;
        }
      }
    }
  }

  /** Slots already used lie below the two counters, and none is used twice. */
  ghost predicate FreshBelow(prog: seq<Kernel>, host: nat, flag: nat) {
    && DistinctSlots(prog)
    && forall b :: 0 <= b < |prog| && prog[b].Barrier? ==>
         match prog[b].slot case Flag(i) => i < flag case Host(i) => i < host
  }

  /** A stream prefix that keeps every promise, and what it leaves open. */
  ghost predicate Good(prog: seq<Kernel>, host: nat, flag: nat, open: set<Kernel>) {
    Separated(prog) && FreshBelow(prog, host, flag) && Open(prog) == open
  }

  /** A whole stream: conflicting kernels are separated, no slot is used twice, and the slots
      are the ones below the counters. */
  ghost predicate Settled(prog: seq<Kernel>, host: nat, flag: nat) {
    Separated(prog) && FreshBelow(prog, host, flag)
  }

  lemma GoodKernel(prog: seq<Kernel>, host: nat, flag: nat, open: set<Kernel>, k: Kernel)
    requires Good(prog, host, flag, open)
    requires !k.Barrier? && forall x :: x in open ==> !Conflict(x, k)
    ensures Good(prog + [k], host, flag, open + {k})
  {
    SeparatedAppend(prog, k);
    assert (prog + [k])[..|prog|] == prog;
  }

  lemma GoodFlag(prog: seq<Kernel>, host: nat, flag: nat, open: set<Kernel>)
    requires Good(prog, host, flag, open)
    ensures Good(prog + [Barrier(Flag(flag))], host, flag + 1, {})
  {
    SeparatedAppend(prog, Barrier(Flag(flag)));
  }

  lemma GoodHost(prog: seq<Kernel>, host: nat, flag: nat, open: set<Kernel>)
    requires Good(prog, host, flag, open)
    ensures Good(prog + [Barrier(Host(host))], host + 1, flag, {})
  {
    SeparatedAppend(prog, Barrier(Host(host)));
  }

  /** run_baseline may follow anything that leaves no Reduce open. */
  lemma GoodBaseline(prog: seq<Kernel>, host: nat, flag: nat, open: set<Kernel>)
    requires Good(prog, host, flag, open) && Reduce !in open
    ensures Good(prog + Kernels(Baseline, flag), host, flag + 1, {Reduce})
  {
    GoodKernel(prog, host, flag, open, Push);
    GoodFlag(prog + [Push], host, flag, open + {Push});
    GoodKernel(prog + [Push] + [Barrier(Flag(flag))], host, flag + 1, {}, Reduce);
    assert prog + Kernels(Baseline, flag) == prog + [Push] + [Barrier(Flag(flag))] + [Reduce];
    assert {} + {Reduce} == {Reduce};
  }

  lemma OneByOne(prog: seq<Kernel>, a: Kernel, b: Kernel, c: Kernel, d: Kernel)
    ensures prog + [a, b, c, d] == prog + [a] + [b] + [c] + [d]
  {
  }

  /** run_nvls may follow anything that leaves no Read open. */
  lemma GoodNvls(prog: seq<Kernel>, host: nat, flag: nat, open: set<Kernel>)
    requires Good(prog, host, flag, open) && Read !in open
    ensures Good(prog + Kernels(Nvls, flag), host, flag + 1, {Read})
  {
    GoodKernel(prog, host, flag, open, Zero);
    GoodKernel(prog + [Zero], host, flag, open + {Zero}, Write);
    GoodFlag(prog + [Zero] + [Write], host, flag, open + {Zero} + {Write});
    GoodKernel(prog + [Zero] + [Write] + [Barrier(Flag(flag))], host, flag + 1, {}, Read);
    OneByOne(prog, Zero, Write, Barrier(Flag(flag)), Read);
    assert {} + {Read} == {Read};
  }

  /** Any benched call is safe right after a host barrier. */
  lemma GoodPaced(prog: seq<Kernel>, host: nat, flag: nat, open: set<Kernel>, fn: Launch) returns (open': set<Kernel>)
    requires Good(prog, host, flag, open)
    ensures Good(prog + [Barrier(Host(host))] + Kernels(fn, flag), host + 1, FlagAfter(fn, flag, 1), open')
  {
    GoodHost(prog, host, flag, open);
    var s := prog + [Barrier(Host(host))];
    match fn {
      case Baseline => GoodBaseline(s, host + 1, flag, {}); open' := {Reduce};
      case Nvls => GoodNvls(s, host + 1, flag, {}); open' := {Read};
      case NvlsHot =>
        GoodKernel(s, host + 1, flag, {}, Write);
        GoodFlag(s + [Write], host + 1, flag, {} + {Write});
        GoodKernel(s + [Write] + [Barrier(Flag(flag))], host + 1, flag + 1, {}, Read);
        assert s + Kernels(NvlsHot, flag) == s + [Write] + [Barrier(Flag(flag))] + [Read];
        open' := {} + {Read};
      case WriteOnly => GoodKernel(s, host + 1, flag, {}, Write); open' := {} + {Write};
      case ReadOnly => GoodKernel(s, host + 1, flag, {}, Read); open' := {} + {Read};
      case ZeroOnly => GoodKernel(s, host + 1, flag, {}, Zero); open' := {} + {Zero};
      case PushOnly => GoodKernel(s, host + 1, flag, {}, Push); open' := {} + {Push};
      case ReduceOnly => GoodKernel(s, host + 1, flag, {}, Reduce); open' := {} + {Reduce};
      case BarrierOnly => GoodFlag(s, host + 1, flag, {}); open' := {};
    }
  }

  lemma RegroupStream(a: seq<Kernel>, b: seq<Kernel>, c: seq<Kernel>, d: seq<Kernel>)
    ensures a + (b + c + d) == a + b + c + d && a + (b + c) == a + b + c
  {
  }

  lemma BenchStreamStep(prog: seq<Kernel>, fn: Launch, n: nat, host: nat, flag: nat)
    requires n > 0
    ensures prog + BenchStream(fn, n, host, flag)
         == prog + BenchStream(fn, n - 1, host, flag) + [Barrier(Host(host + n - 1))]
            + Kernels(fn, FlagAfter(fn, flag, n - 1))
  {
    RegroupStream(prog, BenchStream(fn, n - 1, host, flag), [Barrier(Host(host + n - 1))],
      Kernels(fn, FlagAfter(fn, flag, n - 1)));
  }

  lemma FlagAfterOne(fn: Launch, flag: nat, n: nat)
    requires n > 0
    ensures FlagAfter(fn, FlagAfter(fn, flag, n - 1), 1) == FlagAfter(fn, flag, n)
  {
  }

  lemma {:induction false} GoodBench(prog: seq<Kernel>, host: nat, flag: nat, open: set<Kernel>, fn: Launch, n: nat)
    returns (open': set<Kernel>)
    requires Good(prog, host, flag, open)
    ensures Good(prog + BenchStream(fn, n, host, flag), host + n, FlagAfter(fn, flag, n), open')
  {
    if n == 0 {
      open' := open;
      assert prog + BenchStream(fn, n, host, flag) == prog;
    } else {
      var mid := GoodBench(prog, host, flag, open, fn, n - 1);
      var pre := prog + BenchStream(fn, n - 1, host, flag);
      open' := GoodPaced(pre, host + n - 1, FlagAfter(fn, flag, n - 1), mid, fn);
      BenchStreamStep(prog, fn, n, host, flag);
    }
  }

  lemma GoodWarmRound(prog: seq<Kernel>, host: nat, flag: nat, open: set<Kernel>)
    requires Good(prog, host, flag, open) && Reduce !in open
    ensures Good(prog + Kernels(Baseline, flag) + Kernels(Nvls, flag + 1), host, flag + 2, {Read})
  {
    GoodBaseline(prog, host, flag, open);
    GoodNvls(prog + Kernels(Baseline, flag), host, flag + 1, {Reduce});
  }

  /** The unpaced warm loop alternates the two paths; each path's flag barrier orders the
      other path's buffer reuse, for any number of rounds. */
  lemma {:induction false} GoodWarm(prog: seq<Kernel>, host: nat, flag: nat, n: nat)
    requires Good(prog, host, flag, {})
    ensures Good(prog + WarmStream(n, flag), host, flag + 2 * n, if n == 0 then {} else {Read})
  {
    if n == 0 {
      assert prog + WarmStream(n, flag) == prog;
    } else {
      GoodWarm(prog, host, flag, n - 1);
      var pre, f := prog + WarmStream(n - 1, flag), flag + 2 * (n - 1);
      GoodWarmRound(pre, host, f, if n == 1 then {} else {Read});
      RegroupStream(prog, WarmStream(n - 1, flag), Kernels(Baseline, f), Kernels(Nvls, f + 1));
    }
  }

  lemma {:induction false} GoodBenches(prog: seq<Kernel>, open: set<Kernel>, iters: nat, i: nat)
    returns (open': set<Kernel>)
    requires Good(prog, 3, 8, open) && i <= |BENCHED|
    ensures Good(prog + BenchesStream(iters, i), BenchHost(iters, i), BenchFlag(iters, i), open')
  {
    if i == 0 {
      open' := open;
      assert prog + BenchesStream(iters, i) == prog;
    } else {
      var mid := GoodBenches(prog, open, iters, i - 1);
      var before := BenchesStream(iters, i - 1);
      var h, f := BenchHost(iters, i - 1), BenchFlag(iters, i - 1);
      open' := GoodBench(prog + before, h, f, mid, BENCHED[i - 1], iters);
      RegroupStream(prog, before, BenchStream(BENCHED[i - 1], iters, h, f), []);
    }
  }

  lemma {:induction false} HostBarriersUsed(iters: nat, i: nat)
    ensures BenchHost(iters, i) == 3 + i * iters
  {
    if i > 0 {
      HostBarriersUsed(iters, i - 1);
      assert i * iters == (i - 1) * iters + iters;
    }
  }

  lemma FlagsUsed(iters: nat)
    ensures BenchFlag(iters, |BENCHED|) == 4 * iters + 8
  {
    assert BenchFlag(iters, 1) == 8 + iters;
    assert BenchFlag(iters, 2) == 8 + 2 * iters;
    assert BenchFlag(iters, 3) == 8 + 3 * iters;
    assert BenchFlag(iters, 5) == BenchFlag(iters, 4) == 8 + 3 * iters;
    assert BenchFlag(iters, 8) == BenchFlag(iters, 7) == BenchFlag(iters, 6) == 8 + 3 * iters;
  }

  lemma CheckIsGood()
    ensures Good(CheckStream(), 3, 2, {})
  {
    assert [] + [Barrier(Host(0))] == [Barrier(Host(0))];
    GoodHost([], 0, 0, {});
    GoodBaseline([Barrier(Host(0))], 1, 0, {});
    var s := [Barrier(Host(0))] + Kernels(Baseline, 0);
    GoodHost(s, 1, 1, {Reduce});
    s := s + [Barrier(Host(1))];
    GoodNvls(s, 2, 1, {});
    s := s + Kernels(Nvls, 1);
    GoodHost(s, 2, 2, {Read});
  }

  /** Whatever the iteration count, main() uses each barrier slot once, 4 * iters + 8 device
      flags in all, and separates every two conflicting kernels of the whole run. */
  lemma MainIsSeparated(iters: nat)
    ensures Settled(MainStream(iters), 4 + 9 * iters, 4 * iters + 8)
  {
    CheckIsGood();
    var open := GoodMain(CheckStream(), iters);
    ClosingBarrier(Upto(iters, |BENCHED|), 3 + 9 * iters, 4 * iters + 8, open);
  }

  lemma ClosingBarrier(prog: seq<Kernel>, host: nat, flag: nat, open: set<Kernel>)
    requires Good(prog, host, flag, open)
    ensures Settled(prog + [Barrier(Host(host))], host + 1, flag)
  {
    GoodHost(prog, host, flag, open);
  }

  lemma GoodMain(check: seq<Kernel>, iters: nat) returns (open: set<Kernel>)
    requires Good(check, 3, 2, {})
    ensures Good(check + WarmStream(WARM_ROUNDS, 2) + BenchesStream(iters, |BENCHED|),
      3 + 9 * iters, 4 * iters + 8, open)
  {
    GoodWarm(check, 3, 2, WARM_ROUNDS);
    open := GoodBenches(check + WarmStream(WARM_ROUNDS, 2), {Read}, iters, |BENCHED|);
    FlagsUsed(iters);
    HostBarriersUsed(iters, |BENCHED|);
  }

  // ----- what main() runs, and how often -----

  /** The kernels of the n-th timed call of main()'s i-th bench, as it times them: both paths, the
      read path without its zeroing, then each phase alone. */
  function TimedKernels(iters: nat, i: nat, n: nat): seq<Kernel>
    requires i < 9
  {
    match i
    case 0 => [Push, Barrier(Flag(8 + n)), Reduce]
    case 1 => [Zero, Write, Barrier(Flag(8 + iters + n)), Read]
    case 2 => [Write, Barrier(Flag(8 + 2 * iters + n)), Read]
    case 3 => [Write]
    case 4 => [Read]
    case 5 => [Zero]
    case 6 => [Push]
    case 7 => [Reduce]
    case _ => [Barrier(Flag(8 + 3 * iters + n))]
  }

  /** The first flag slot of each bench that uses any. */
  lemma FlagsBefore(iters: nat)
    ensures BenchFlag(iters, 0) == 8 && BenchFlag(iters, 1) == 8 + iters && BenchFlag(iters, 2) == 8 + 2 * iters
    ensures BenchFlag(iters, 8) == 8 + 3 * iters
  {
    assert BenchFlag(iters, 1) == 8 + iters;
    assert BenchFlag(iters, 2) == 8 + 2 * iters;
    assert BenchFlag(iters, 3) == 8 + 3 * iters;
    assert BenchFlag(iters, 5) == BenchFlag(iters, 4) == 8 + 3 * iters;
    assert BenchFlag(iters, 8) == BenchFlag(iters, 7) == BenchFlag(iters, 6) == 8 + 3 * iters;
  }

  lemma TimedIsBenched(iters: nat, i: nat, n: nat)
    requires i < |BENCHED|
    ensures Kernels(BENCHED[i], FlagAfter(BENCHED[i], BenchFlag(iters, i), n)) == TimedKernels(iters, i, n)
  {
    FlagsBefore(iters);
  }

  /** The benched calls before the n-th call of bench i. */
  function CallsBefore(iters: nat, i: nat, n: nat): seq<Kernel>
    requires i < |BENCHED|
  {
    BenchesStream(iters, i) + BenchStream(BENCHED[i], n, BenchHost(iters, i), BenchFlag(iters, i))
  }

  lemma BenchStep(fn: Launch, n: nat, host: nat, flag: nat)
    ensures BenchStream(fn, n + 1, host, flag)
         == BenchStream(fn, n, host, flag) + [Barrier(Host(host + n))] + Kernels(fn, FlagAfter(fn, flag, n))
  {
  }

  lemma Behind(a: seq<Kernel>, b: seq<Kernel>, b': seq<Kernel>, c: seq<Kernel>, d: seq<Kernel>)
    requires b' == b + c + d
    ensures a + b' == a + b + c + d
  {
  }

  lemma CallsBeforeIs(iters: nat, i: nat, n: nat, fn: Launch, host: nat, flag: nat)
    requires i < |BENCHED| && fn == BENCHED[i] && host == BenchHost(iters, i) && flag == BenchFlag(iters, i)
    ensures CallsBefore(iters, i, n) == BenchesStream(iters, i) + BenchStream(fn, n, host, flag)
  {
  }

  lemma CallExtends(iters: nat, i: nat, n: nat)
    requires i < |BENCHED|
    ensures CallsBefore(iters, i, n + 1)
         == CallsBefore(iters, i, n) + [Barrier(Host(BenchHost(iters, i) + n))] + TimedKernels(iters, i, n)
  {
    var fn, host, flag := BENCHED[i], BenchHost(iters, i), BenchFlag(iters, i);
    TimedIsBenched(iters, i, n);
    CallsBeforeIs(iters, i, n, fn, host, flag);
    CallsBeforeIs(iters, i, n + 1, fn, host, flag);
    CallBehind(BenchesStream(iters, i), fn, n, host, flag, TimedKernels(iters, i, n));
  }

  lemma CallBehind(before: seq<Kernel>, fn: Launch, n: nat, host: nat, flag: nat, timed: seq<Kernel>)
    requires timed == Kernels(fn, FlagAfter(fn, flag, n))
    ensures before + BenchStream(fn, n + 1, host, flag)
         == before + BenchStream(fn, n, host, flag) + [Barrier(Host(host + n))] + timed
  {
    BenchStep(fn, n, host, flag);
    Behind(before, BenchStream(fn, n, host, flag), BenchStream(fn, n + 1, host, flag), [Barrier(Host(host + n))],
      timed);
  }

  /** What follows n calls of a bench of n + left. */
  lemma {:induction false} RestOfBench(fn: Launch, n: nat, left: nat, host: nat, flag: nat)
    returns (rest: seq<Kernel>)
    ensures BenchStream(fn, n + left, host, flag) == BenchStream(fn, n, host, flag) + rest
  {
    if left == 0 {
      rest := [];
    } else {
      var mid := RestOfBench(fn, n, left - 1, host, flag);
      BenchStep(fn, n + left - 1, host, flag);
      var barrier, call := [Barrier(Host(host + n + left - 1))], Kernels(fn, FlagAfter(fn, flag, n + left - 1));
      rest := mid + barrier + call;
      RegroupStream(BenchStream(fn, n, host, flag), mid, barrier, call);
    }
  }

  lemma {:induction false} RestOfBenches(iters: nat, i: nat, j: nat) returns (rest: seq<Kernel>)
    requires i <= j <= |BENCHED|
    ensures BenchesStream(iters, j) == BenchesStream(iters, i) + rest
  {
    if i == j {
      rest := [];
    } else {
      var mid := RestOfBenches(iters, i, j - 1);
      var last := BenchStream(BENCHED[j - 1], iters, BenchHost(iters, j - 1), BenchFlag(iters, j - 1));
      rest := mid + last;
      RegroupStream(BenchesStream(iters, i), mid, last, []);
    }
  }

  /** All benched calls are those before the n-th of bench i, and more. */
  lemma RestOfCalls(iters: nat, i: nat, n: nat, last: nat) returns (rest: seq<Kernel>)
    requires i < last == |BENCHED| && n <= iters
    ensures BenchesStream(iters, last) == CallsBefore(iters, i, n) + rest
  {
    var fn, host, flag := BENCHED[i], BenchHost(iters, i), BenchFlag(iters, i);
    var inBench := RestOfBench(fn, n, iters - n, host, flag);
    var behind := RestOfBenches(iters, i + 1, last);
    rest := inBench + behind;
    JoinRests(BenchesStream(iters, i), BenchStream(fn, n, host, flag), BenchStream(fn, iters, host, flag), inBench,
      behind);
  }

  lemma JoinRests(a: seq<Kernel>, b: seq<Kernel>, b': seq<Kernel>, c: seq<Kernel>, d: seq<Kernel>)
    requires b' == b + c
    ensures a + b' + d == a + b + (c + d)
  {
  }

  lemma NextHost(iters: nat, i: nat)
    ensures BenchHost(iters, i) == 3 + i * iters && 3 + i * iters + iters == 3 + (i + 1) * iters
  {
    HostBarriersUsed(iters, i);
  }

  /** The host barrier that comes after n calls of bench i: the next call's, or the closing one. */
  lemma HostFollows(iters: nat, i: nat, n: nat, last: nat) returns (post: seq<Kernel>)
    requires i < last == |BENCHED| && n <= iters
    ensures BenchesStream(iters, last) + [Barrier(Host(3 + last * iters))]
         == CallsBefore(iters, i, n) + [Barrier(Host(3 + i * iters + n))] + post
    decreases last - i
  {
    NextHost(iters, i);
    if n < iters {
      post := CallFollows(iters, i, n, last, [Barrier(Host(3 + last * iters))]);
    } else if i + 1 < last {
      EmptyBench(iters, i);
      post := HostFollows(iters, i + 1, 0, last);
    } else {
      post := [];
    }
  }

  lemma CallFollows(iters: nat, i: nat, n: nat, last: nat, end: seq<Kernel>) returns (post: seq<Kernel>)
    requires i < last == |BENCHED| && n < iters
    ensures BenchesStream(iters, last) + end
         == CallsBefore(iters, i, n) + [Barrier(Host(BenchHost(iters, i) + n))] + post
  {
    var rest := RestOfCalls(iters, i, n + 1, last);
    CallExtends(iters, i, n);
    post := TimedKernels(iters, i, n) + rest + end;
    JoinCall(BenchesStream(iters, last), CallsBefore(iters, i, n + 1), CallsBefore(iters, i, n),
      [Barrier(Host(BenchHost(iters, i) + n))], TimedKernels(iters, i, n), rest, end);
  }

  lemma JoinCall(all: seq<Kernel>, a': seq<Kernel>, a: seq<Kernel>, b: seq<Kernel>, c: seq<Kernel>, rest: seq<Kernel>,
                 end: seq<Kernel>)
    requires all == a' + rest && a' == a + b + c
    ensures all + end == a + b + (c + rest + end)
  {
  }

  lemma EmptyBench(iters: nat, i: nat)
    requires i + 1 < |BENCHED|
    ensures CallsBefore(iters, i, iters) == CallsBefore(iters, i + 1, 0)
  {
    assert BenchesStream(iters, i + 1) + [] == BenchesStream(iters, i + 1);
  }

  /** The call of MainTimes within the benches and the closing barrier. */
  lemma BenchesTime(head: seq<Kernel>, iters: nat, i: nat, n: nat, last: nat)
    returns (pre: seq<Kernel>, post: seq<Kernel>)
    requires i < last == |BENCHED| && n < iters
    ensures var host := 3 + i * iters + n;
      head + BenchesStream(iters, last) + [Barrier(Host(3 + last * iters))]
        == pre + [Barrier(Host(host))] + TimedKernels(iters, i, n) + [Barrier(Host(host + 1))] + post
  {
    post := HostFollows(iters, i, n + 1, last);
    CallExtends(iters, i, n);
    NextHost(iters, i);
    pre := head + CallsBefore(iters, i, n);
    AllBehind(head, BenchesStream(iters, last), [Barrier(Host(3 + last * iters))], CallsBefore(iters, i, n),
      [Barrier(Host(3 + i * iters + n))], TimedKernels(iters, i, n), [Barrier(Host(3 + i * iters + n + 1))], post);
  }

  lemma AllBehind(head: seq<Kernel>, benches: seq<Kernel>, last: seq<Kernel>, before: seq<Kernel>, host: seq<Kernel>,
                  timed: seq<Kernel>, next: seq<Kernel>, post: seq<Kernel>)
    requires benches + last == before + host + timed + next + post
    ensures head + benches + last == head + before + host + timed + next + post
  {
    assert head + benches + last == head + (benches + last);
  }

  /** The n-th call of bench i stands in the stream between two successive host barriers, and
      between these stand exactly the kernels main() times there. */
  lemma MainTimes(iters: nat, i: nat, n: nat) returns (pre: seq<Kernel>, post: seq<Kernel>)
    requires i < 9 && n < iters
    ensures var host := 3 + i * iters + n;
      MainStream(iters)
        == pre + [Barrier(Host(host))] + TimedKernels(iters, i, n) + [Barrier(Host(host + 1))] + post
  {
    pre, post := BenchesTime(CheckStream() + WarmStream(WARM_ROUNDS, 2), iters, i, n, |BENCHED|);
  }

  /** Two unpaced run_nvls in a row are never separated: the second zeroes P while a peer may
      still be reading. */
  lemma NvlsBackToBackUnseparated(prog: seq<Kernel>, flag: nat)
    ensures !Separated(prog + Kernels(Nvls, flag) + Kernels(Nvls, flag + 1))
  {
    var all := prog + Kernels(Nvls, flag) + Kernels(Nvls, flag + 1);
    var p := |prog| + 3;
    assert all[p] == Read && all[p + 1] == Zero && !BarrierBetween(all, p, p + 1);
  }

  /** Two unpaced run_baseline in a row likewise: a push can overwrite a row being folded, if
      only with what it holds already. */
  lemma BaselineBackToBackUnseparated(prog: seq<Kernel>, flag: nat)
    ensures !Separated(prog + Kernels(Baseline, flag) + Kernels(Baseline, flag + 1))
  {
    var all := prog + Kernels(Baseline, flag) + Kernels(Baseline, flag + 1);
    var p := |prog| + 2;
    assert all[p] == Reduce && all[p + 1] == Push && !BarrierBetween(all, p, p + 1);
  }

  /** The stream starts with one iteration of each path, each followed by a barrier, and then
      another push. */
  ghost predicate StartsWithCheck(prog: seq<Kernel>) {
    && |prog| > 10
    && BaseIteration(prog, 1) && prog[4].Barrier?
    && NvlsIteration(prog, 5) && prog[9].Barrier?
    && prog[10].Push?
  }

  lemma CheckIterations(iters: nat)
    ensures StartsWithCheck(MainStream(iters))
  {
    var rest := WarmStream(WARM_ROUNDS, 2) + BenchesStream(iters, |BENCHED|) + [Barrier(Host(3 + 9 * iters))];
    assert MainStream(iters) == CheckStream() + rest;
    FirstWarmKernel(WARM_ROUNDS, 2);
    CheckThen(rest);
  }

  lemma {:induction false} FirstWarmKernel(n: nat, flag: nat)
    requires n > 0
    ensures |WarmStream(n, flag)| > 0 && WarmStream(n, flag)[0] == Push
  {
    if n > 1 {
      FirstWarmKernel(n - 1, flag);
    } else {
      assert WarmStream(0, flag) == [];
    }
  }

  lemma CheckThen(rest: seq<Kernel>)
    requires |rest| > 0 && rest[0] == Push
    ensures StartsWithCheck(CheckStream() + rest)
  {
    assert |CheckStream()| == 10;
    assert forall i :: 0 <= i < 10 ==> (CheckStream() + rest)[i] == CheckStream()[i];
    assert (CheckStream() + rest)[10] == rest[0];
  }

  /** main()'s own check: when a rank compares y with its reference after the synchronize and
      host barrier that follow each path, both hold the reference, under every interleaving; and
      the baseline's y holds it to the end of the program. */
  lemma MainCheckPasses<T(!new)>(pb: Problem<T>, iters: nat, init: State<T>, run: seq<Step>, r: nat, lt: nat, c: nat)
    requires pb.Valid() && CommutativeMonoid(pb.alg)
    requires Initial(pb, MainStream(iters), init) && Legal(pb, MainStream(iters), init, run)
    requires r < pb.world && lt < pb.m && c < pb.chunks
    ensures var s := Exec(pb, MainStream(iters), init, run);
      && (s.pos[r] >= 4 ==> s.yBase(YCell(r, lt, c)) == Reference(pb, r, lt, c))
      && (s.pos[r] == 10 ==> s.yNvls(YCell(r, lt, c)) == Reference(pb, r, lt, c))
  {
    MainIsSeparated(iters);
    CheckIterations(iters);
    CheckPasses(pb, MainStream(iters), init, run, r, lt, c);
  }

  lemma CheckPasses<T(!new)>(pb: Problem<T>, prog: seq<Kernel>, init: State<T>, run: seq<Step>, r: nat, lt: nat, c: nat)
    requires pb.Valid() && CommutativeMonoid(pb.alg) && Separated(prog) && DistinctSlots(prog)
    requires StartsWithCheck(prog)
    requires Initial(pb, prog, init) && Legal(pb, prog, init, run)
    requires r < pb.world && lt < pb.m && c < pb.chunks
    ensures var s := Exec(pb, prog, init, run);
      && (s.pos[r] >= 4 ==> s.yBase(YCell(r, lt, c)) == Reference(pb, r, lt, c))
      && (s.pos[r] == 10 ==> s.yNvls(YCell(r, lt, c)) == Reference(pb, r, lt, c))
  {
    var s := Exec(pb, prog, init, run);
    if s.pos[r] >= 4 {
      BaselineCombineCorrect(pb, prog, init, run, 1, r, lt, c);
    }
    if s.pos[r] == 10 {
      SeparatedIsGuarded(prog, 5);
      NvlsCombineCorrect(pb, prog, init, run, 5, r, lt, c);
    }
  }

  // ----- the host program as it runs -----

  /** Host state of main(): the flag slot counter and what has been enqueued so far. */
  class HostProgram {
    const nFlags: nat
    var barSlot: nat
    var hostBarriers: nat
    var stream: seq<Kernel>

    constructor (iters: nat)
      ensures nFlags == 4 * iters + 64 && barSlot == 0 && hostBarriers == 0 && stream == []
    {
      nFlags := 4 * iters + 64;
      barSlot, hostBarriers, stream := 0, 0, [];
    }

    method Enqueue(k: Kernel)
      modifies this`stream
      ensures stream == old(stream) + [k]
    {
      stream := stream + [k];
    }

    /** A fresh flag slot per call; the precondition is the source's own assertion. */
    method BarrierKernel()
      requires barSlot + 1 < nFlags
      modifies this`stream, this`barSlot
      ensures stream == old(stream) + [Barrier(Flag(old(barSlot)))] && barSlot == old(barSlot) + 1
    {
      Enqueue(Barrier(Flag(barSlot)));
      barSlot := barSlot + 1;
    }

    /** torch.cuda.synchronize followed by dist.barrier. */
    method HostBarrier()
      modifies this`stream, this`hostBarriers
      ensures stream == old(stream) + [Barrier(Host(old(hostBarriers)))] && hostBarriers == old(hostBarriers) + 1
    {
      Enqueue(Barrier(Host(hostBarriers)));
      hostBarriers := hostBarriers + 1;
    }

    method Call(fn: Launch)
      requires FlagAfter(fn, barSlot, 1) < nFlags
      modifies this`stream, this`barSlot
      ensures stream == old(stream) + Kernels(fn, old(barSlot)) && barSlot == FlagAfter(fn, old(barSlot), 1)
    {
      if fn.Baseline? || fn.PushOnly? {
        Enqueue(Push);
      }
      if fn.Nvls? || fn.ZeroOnly? {
        Enqueue(Zero);
      }
      if fn.Nvls? || fn.NvlsHot? || fn.WriteOnly? {
        Enqueue(Write);
      }
      if fn.Baseline? || fn.Nvls? || fn.NvlsHot? || fn.BarrierOnly? {
        BarrierKernel();
      }
      if fn.Baseline? || fn.ReduceOnly? {
        Enqueue(Reduce);
      }
      if fn.Nvls? || fn.NvlsHot? || fn.ReadOnly? {
        Enqueue(Read);
      }
    }

    method Bench(fn: Launch, iters: nat)
      requires FlagAfter(fn, barSlot, iters) < nFlags
      modifies this`stream, this`barSlot, this`hostBarriers
      ensures stream == old(stream) + BenchStream(fn, iters, old(hostBarriers), old(barSlot))
      ensures barSlot == FlagAfter(fn, old(barSlot), iters) && hostBarriers == old(hostBarriers) + iters
    {
      for i := 0 to iters
        invariant stream == old(stream) + BenchStream(fn, i, old(hostBarriers), old(barSlot))
        invariant barSlot == FlagAfter(fn, old(barSlot), i) && hostBarriers == old(hostBarriers) + i
      {
        BenchStreamStep(old(stream), fn, i + 1, old(hostBarriers), old(barSlot));
        FlagAfterOne(fn, old(barSlot), i + 1);
        HostBarrier();
        Call(fn);
      }
    }

    method BenchNth(iters: nat, i: nat)
      requires nFlags == 4 * iters + 64 && i < |BENCHED|
      requires stream == Upto(iters, i)
      requires barSlot == BenchFlag(iters, i) && hostBarriers == BenchHost(iters, i)
      modifies this`stream, this`barSlot, this`hostBarriers
      ensures stream == Upto(iters, i + 1)
      ensures barSlot == BenchFlag(iters, i + 1) && hostBarriers == BenchHost(iters, i + 1)
    {
      FlagRoom(iters, i);
      RegroupStream(CheckStream() + WarmStream(WARM_ROUNDS, 2), BenchesStream(iters, i),
              BenchStream(BENCHED[i], iters, hostBarriers, barSlot), []);
      Bench(BENCHED[i], iters);
    }

    /** The correctness check: one call of each path, with a host barrier around each. */
    method Check()
      requires nFlags >= 64 && barSlot == 0 && hostBarriers == 0 && stream == []
      modifies this`stream, this`barSlot, this`hostBarriers
      ensures stream == CheckStream() && barSlot == 2 && hostBarriers == 3
    {
      HostBarrier();
      Call(Baseline);
      HostBarrier();
      Call(Nvls);
      HostBarrier();
    }

    /** The warm loop: both paths in turn, nothing between the calls. */
    method Warm()
      requires nFlags >= 64 && barSlot == 2
      modifies this`stream, this`barSlot
      ensures stream == old(stream) + WarmStream(WARM_ROUNDS, 2) && barSlot == 8
    {
      assert stream + [] == stream;
      for w := 0 to WARM_ROUNDS
        invariant stream == old(stream) + WarmStream(w, 2) && barSlot == 2 + 2 * w
      {
        ghost var before := WarmStream(w, 2);
        Call(Baseline);
        Call(Nvls);
        RegroupStream(old(stream), before, Kernels(Baseline, 2 + 2 * w), Kernels(Nvls, 3 + 2 * w));
      }
    }

    /** main() from its first correctness barrier to its last; no slot assertion can fail. */
    method Run(iters: nat)
      requires nFlags == 4 * iters + 64 && barSlot == 0 && hostBarriers == 0 && stream == []
      modifies this
      ensures stream == MainStream(iters) && barSlot == 4 * iters + 8 < nFlags
    {
      Check();
      Warm();
      assert stream == stream + BenchesStream(iters, 0);
      FlagsUsed(iters);
      HostBarriersUsed(iters, |BENCHED|);
      var i := 0;
      while i < |BENCHED|
        invariant 0 <= i <= |BENCHED|
        invariant stream == Upto(iters, i) && barSlot == BenchFlag(iters, i) && hostBarriers == BenchHost(iters, i)
      {
        BenchNth(iters, i);
        i := i + 1;
      }
      HostBarrier();
    }
  }

  lemma FlagRoom(iters: nat, i: nat)
    requires i < |BENCHED|
    ensures FlagAfter(BENCHED[i], BenchFlag(iters, i), iters) == BenchFlag(iters, i + 1) <= 4 * iters + 8
  {
    FlagsUsed(iters);
    BenchFlagGrows(iters, i + 1, |BENCHED|);
  }

  lemma {:induction false} BenchFlagGrows(iters: nat, i: nat, j: nat)
    requires i <= j <= |BENCHED|
    ensures BenchFlag(iters, i) <= BenchFlag(iters, j)
  {
    if i < j {
      BenchFlagGrows(iters, i, j - 1);
    }
  }
}
