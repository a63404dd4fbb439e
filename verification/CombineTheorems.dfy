/** The combine's main results: both paths compute the sum of each token's contributions on
    its home rank, under every interleaving; a stream is race-free exactly when barriers
    separate its conflicting kernels; and no run can get stuck. */
module CombineTheorems {
  import opened Folds
  import opened CombineMachine
  import opened CombineOrder
  import opened CombineRefinement

  /** The reference result: the token's contributions summed over its top-k slots, ascending. */
  ghost function Reference<T>(pb: Problem<T>, r: nat, lt: nat, c: nat): T {
    Fold(pb.alg, Contribs(pb, r * pb.m + lt, c))
  }

  /** The contributions of a token by slot. */
  ghost function Slots<T>(pb: Problem<T>, r: nat, lt: nat, c: nat): nat -> T {
    var t := r * pb.m + lt;
    (k: nat) => pb.contrib(t, k, c)
  }

  /** v is what adding the token's contributions to zero makes, slot 0 first, one by one. */
  ghost predicate SlotsAdded<T(!new)>(pb: Problem<T>, r: nat, lt: nat, c: nat, v: T) {
    AddedUp(pb.alg, pb.topk, Slots(pb, r, lt, c), v)
  }

  lemma ReferenceAdds<T(!new)>(pb: Problem<T>, r: nat, lt: nat, c: nat)
    ensures SlotsAdded(pb, r, lt, c, Reference(pb, r, lt, c))
  {
    FoldAddsUp(pb.alg, Contribs(pb, r * pb.m + lt, c), Slots(pb, r, lt, c));
  }

  // ----- invariants over whole runs -----

  lemma {:induction false} NvlsInvRun<T(!new)>(pb: Problem<T>, prog: seq<Kernel>, p: nat, s: State<T>, run: seq<Step>)
    requires CommutativeMonoid(pb.alg) && DistinctSlots(prog) && NvlsIteration(prog, p) && Guarded(prog, p)
    requires Ordered(pb, prog, s) && NvlsInv(pb, prog, p, s)
    requires Legal(pb, prog, s, run)
    ensures NvlsInv(pb, prog, p, Exec(pb, prog, s, run))
    decreases |run|
  {
    if |run| > 0 {
      OrderedStep(pb, prog, s, run[0]);
      NvlsInvStep(pb, prog, p, s, run[0]);
      NvlsInvRun(pb, prog, p, Apply(pb, prog, s, run[0]), run[1..]);
    }
  }

  lemma {:induction false} BaseInvRun<T>(pb: Problem<T>, prog: seq<Kernel>, init: State<T>, p: nat, s: State<T>,
                                         run: seq<Step>)
    requires pb.Valid() && DistinctSlots(prog) && BaseIteration(prog, p)
    requires Ordered(pb, prog, s) && BaseInv(pb, prog, init, p, s)
    requires Legal(pb, prog, s, run)
    ensures BaseInv(pb, prog, init, p, Exec(pb, prog, s, run))
    decreases |run|
  {
    if |run| > 0 {
      OrderedStep(pb, prog, s, run[0]);
      BaseInvStep(pb, prog, init, p, s, run[0]);
      BaseInvRun(pb, prog, init, p, Apply(pb, prog, s, run[0]), run[1..]);
    }
  }

  lemma PInvInitial<T(!new)>(pb: Problem<T>, prog: seq<Kernel>, init: State<T>)
    requires CommutativeMonoid(pb.alg) && Initial(pb, prog, init)
    ensures PInv(pb, prog, init)
  {
    forall r, t, c | 0 <= r < pb.world && 0 <= t < pb.Tokens() && 0 <= c < pb.chunks
      ensures init.part(PCell(r, t, c)) == NowP(pb, prog, 0, {}, r, t, c)
    {
      NowPAtStart(pb, prog, 0, r, t, c);
    }
  }

  lemma BaseInvInitial<T(!new)>(pb: Problem<T>, prog: seq<Kernel>, init: State<T>, p: nat)
    requires pb.Valid() && Initial(pb, prog, init)
    ensures BaseInv(pb, prog, init, p, init)
  {
    forall r, lt, k, c | 0 <= r < pb.world && 0 <= lt < pb.m && 0 <= k < pb.topk && 0 <= c < pb.chunks
      ensures StagedCell(pb, prog, init, init, r, lt, k, c)
    {
      HomeToken(pb, r, lt);
    }
  }

  /** The column a reader sums after one iteration's write is the reference split by owner. */
  lemma ColumnIsReference<T(!new)>(pb: Problem<T>, prog: seq<Kernel>, p: nat, r: nat, lt: nat, c: nat)
    requires pb.Valid() && CommutativeMonoid(pb.alg) && NvlsIteration(prog, p)
    requires r < pb.world && lt < pb.m
    ensures Fold(pb.alg, SerialColumn(pb, prog, p + 3, r * pb.m + lt, c)) == Reference(pb, r, lt, c)
  {
    HomeToken(pb, r, lt);
    var t := r * pb.m + lt;
    var xs, own := Contribs(pb, t, c), Owners(pb, t);
    forall q | 0 <= q < pb.world
      ensures SerialP(pb, prog, p + 3, q, t, c) == PartialSums(pb.alg, xs, own, pb.world)[q]
    {
      SerialPAfterWrite(pb, prog, p, q, t, c);
    }
    assert SerialColumn(pb, prog, p + 3, t, c) == PartialSums(pb.alg, xs, own, pb.world);
    PartitionFold(pb.alg, xs, own, pb.world);
  }

  /** After an iteration's zero and write a rank's copy of P is the sum over its own pairs. */
  lemma SerialPAfterWrite<T(!new)>(pb: Problem<T>, prog: seq<Kernel>, p: nat, q: nat, t: nat, c: nat)
    requires CommutativeMonoid(pb.alg) && NvlsIteration(prog, p)
    ensures SerialP(pb, prog, p + 2, q, t, c)
         == Fold(pb.alg, Masked(pb.alg, Contribs(pb, t, c), OwnedBits(Owners(pb, t), q)))
    ensures SerialP(pb, prog, p + 3, q, t, c) == SerialP(pb, prog, p + 2, q, t, c)
  {
    assert SerialP(pb, prog, p + 1, q, t, c) == pb.alg.zero;
    assert UnitAt(pb.alg, Fold(pb.alg, Masked(pb.alg, Contribs(pb, t, c), OwnedBits(Owners(pb, t), q))));
  }

  // ----- main theorems: correctness under every interleaving -----

  /** Once a rank has stored in the read of a run_nvls, y on the home rank is the sum of the
      token's contributions, however the ranks, CTAs and chunks of the whole run interleaved.
      All it takes of the stream is a barrier between that read and the next change to P. */
  lemma NvlsCombineCorrect<T(!new)>(pb: Problem<T>, prog: seq<Kernel>, init: State<T>, run: seq<Step>, p: nat, r: nat,
                                    lt: nat, c: nat)
    requires pb.Valid() && CommutativeMonoid(pb.alg)
    requires DistinctSlots(prog) && NvlsIteration(prog, p) && Guarded(prog, p)
    requires Initial(pb, prog, init) && Legal(pb, prog, init, run)
    requires r < pb.world && lt < pb.m && c < pb.chunks
    requires Stored(prog, Exec(pb, prog, init, run), r, p + 3, Task(lt, 0, c), Read)
    ensures Exec(pb, prog, init, run).yNvls(YCell(r, lt, c)) == Reference(pb, r, lt, c)
  {
    InitialOrdered(pb, prog, init);
    PInvInitial(pb, prog, init);
    NvlsInvRun(pb, prog, p, init, run);
    assert NvlsCellOk(pb, prog, p, Exec(pb, prog, init, run), r, Task(lt, 0, c));
    ColumnIsReference(pb, prog, p, r, lt, c);
  }

  /** Once a rank has stored in the reduce of a run_baseline, y on the home rank is the ascending
      fold of the token's contributions, and stays it whatever the rest of the stream is: later
      pushes write equal rows. No law of the payload's addition is used. */
  lemma BaselineCombineCorrect<T(!new)>(pb: Problem<T>, prog: seq<Kernel>, init: State<T>, run: seq<Step>, p: nat,
                                        r: nat, lt: nat, c: nat)
    requires pb.Valid() && DistinctSlots(prog) && BaseIteration(prog, p)
    requires Initial(pb, prog, init) && Legal(pb, prog, init, run)
    requires r < pb.world && lt < pb.m && c < pb.chunks
    requires var s := Exec(pb, prog, init, run);
      s.pos[r] > p + 2 || (s.pos[r] == p + 2 && Task(lt, 0, c) in s.done[r])
    ensures Exec(pb, prog, init, run).yBase(YCell(r, lt, c)) == Reference(pb, r, lt, c)
  {
    InitialOrdered(pb, prog, init);
    BaseInvInitial(pb, prog, init, p);
    BaseInvRun(pb, prog, init, p, init, run);
    assert BaseCellOk(pb, prog, p, Exec(pb, prog, init, run), r, Task(lt, 0, c));
  }

  /** Under the same conditions: each path's y is the contributions added to zero one by one,
      slot 0 first. */
  lemma NvlsAddsSlots<T(!new)>(pb: Problem<T>, prog: seq<Kernel>, init: State<T>, run: seq<Step>, p: nat, r: nat,
                               lt: nat, c: nat)
    requires pb.Valid() && CommutativeMonoid(pb.alg)
    requires DistinctSlots(prog) && NvlsIteration(prog, p) && Guarded(prog, p)
    requires Initial(pb, prog, init) && Legal(pb, prog, init, run)
    requires r < pb.world && lt < pb.m && c < pb.chunks
    requires Stored(prog, Exec(pb, prog, init, run), r, p + 3, Task(lt, 0, c), Read)
    ensures SlotsAdded(pb, r, lt, c, Exec(pb, prog, init, run).yNvls(YCell(r, lt, c)))
  {
    NvlsCombineCorrect(pb, prog, init, run, p, r, lt, c);
    ReferenceAdds(pb, r, lt, c);
  }

  lemma BaselineAddsSlots<T(!new)>(pb: Problem<T>, prog: seq<Kernel>, init: State<T>, run: seq<Step>, p: nat, r: nat,
                                   lt: nat, c: nat)
    requires pb.Valid() && DistinctSlots(prog) && BaseIteration(prog, p)
    requires Initial(pb, prog, init) && Legal(pb, prog, init, run)
    requires r < pb.world && lt < pb.m && c < pb.chunks
    requires var s := Exec(pb, prog, init, run);
      s.pos[r] > p + 2 || (s.pos[r] == p + 2 && Task(lt, 0, c) in s.done[r])
    ensures SlotsAdded(pb, r, lt, c, Exec(pb, prog, init, run).yBase(YCell(r, lt, c)))
  {
    BaselineCombineCorrect(pb, prog, init, run, p, r, lt, c);
    ReferenceAdds(pb, r, lt, c);
  }

  /** The order, in the payload that shows it: with a letter per (token, slot, chunk) as the
      contribution and concatenation as the addition, y spells the token's letters by slot. */
  lemma BaselineSpellsSlots<X(!new)>(pb: Problem<seq<X>>, letter: (nat, nat, nat) -> X, prog: seq<Kernel>,
                                     init: State<seq<X>>, run: seq<Step>, p: nat, r: nat, lt: nat, c: nat)
    requires pb.alg == Spelling() && forall t: nat, k: nat, x: nat :: pb.contrib(t, k, x) == [letter(t, k, x)]
    requires pb.Valid() && DistinctSlots(prog) && BaseIteration(prog, p)
    requires Initial(pb, prog, init) && Legal(pb, prog, init, run)
    requires r < pb.world && lt < pb.m && c < pb.chunks
    requires var s := Exec(pb, prog, init, run);
      s.pos[r] > p + 2 || (s.pos[r] == p + 2 && Task(lt, 0, c) in s.done[r])
    ensures Exec(pb, prog, init, run).yBase(YCell(r, lt, c))
         == seq(pb.topk, k requires 0 <= k < pb.topk => letter(r * pb.m + lt, k, c))
  {
    BaselineAddsSlots(pb, prog, init, run, p, r, lt, c);
    SlotsSpell(pb, letter, r, lt, c, Exec(pb, prog, init, run).yBase(YCell(r, lt, c)));
  }

  lemma SlotsSpell<X(!new)>(pb: Problem<seq<X>>, letter: (nat, nat, nat) -> X, r: nat, lt: nat, c: nat, v: seq<X>)
    requires pb.alg == Spelling() && forall t: nat, k: nat, x: nat :: pb.contrib(t, k, x) == [letter(t, k, x)]
    requires SlotsAdded(pb, r, lt, c, v)
    ensures v == seq(pb.topk, k requires 0 <= k < pb.topk => letter(r * pb.m + lt, k, c))
  {
    var word := (k: nat) => letter(r * pb.m + lt, k, c);
    AddedUpSpells(pb.topk, word, Slots(pb, r, lt, c), v);
  }

  // ----- every run can be completed -----

  lemma {:induction false} LegalAppend<T>(pb: Problem<T>, prog: seq<Kernel>, s: State<T>, a: seq<Step>, b: seq<Step>)
    requires Shape(pb, prog, s) && Legal(pb, prog, s, a) && Legal(pb, prog, Exec(pb, prog, s, a), b)
    ensures Legal(pb, prog, s, a + b)
    ensures Exec(pb, prog, s, a + b) == Exec(pb, prog, Exec(pb, prog, s, a), b)
    decreases |a|
  {
    if |a| == 0 {
      assert a + b == b;
    } else {
      LegalAppend(pb, prog, Apply(pb, prog, s, a[0]), a[1..], b);
      assert (a + b)[0] == a[0] && (a + b)[1..] == a[1..] + b;
    }
  }

  lemma LegalSnoc<T>(pb: Problem<T>, prog: seq<Kernel>, s: State<T>, a: seq<Step>, st: Step)
    requires Shape(pb, prog, s) && Legal(pb, prog, s, a)
    requires Enabled(pb, prog, Exec(pb, prog, s, a), st)
    ensures Legal(pb, prog, s, a + [st])
    ensures Exec(pb, prog, s, a + [st]) == Apply(pb, prog, Exec(pb, prog, s, a), st)
  {
    var mid := Exec(pb, prog, s, a);
    assert [st][1..] == [];
    assert Legal(pb, prog, Apply(pb, prog, mid, st), []);
    assert Legal(pb, prog, mid, [st]);
    LegalAppend(pb, prog, s, a, [st]);
  }

  /** Every step of the run is rank r's. */
  predicate Solo(run: seq<Step>, r: nat) {
    forall st :: st in run ==> st.rank == r
  }

  /** A run of one rank leaves the others where they were. */
  lemma {:induction false} SoloFrame<T>(pb: Problem<T>, prog: seq<Kernel>, s: State<T>, run: seq<Step>, r: nat, q: nat)
    requires Shape(pb, prog, s) && Legal(pb, prog, s, run) && Solo(run, r)
    requires q < pb.world && q != r
    ensures var s' := Exec(pb, prog, s, run);
      s'.pos[q] == s.pos[q] && s'.done[q] == s.done[q] && s'.regs[q] == s.regs[q]
    decreases |run|
  {
    if |run| > 0 {
      assert run[0] in run && forall st :: st in run[1..] ==> st in run;
      SoloFrame(pb, prog, Apply(pb, prog, s, run[0]), run[1..], r, q);
    }
  }

  /** Loads the first n operands of a work item. */
  lemma {:induction false} LoadOperands<T>(pb: Problem<T>, prog: seq<Kernel>, s: State<T>, r: nat, x: Task, n: nat)
    returns (run: seq<Step>)
    requires Shape(pb, prog, s) && r < pb.world && s.pos[r] < |prog|
    requires IsTask(pb, r, prog[s.pos[r]], x) && x !in s.done[r] && n <= Operands(pb, prog[s.pos[r]])
    ensures Legal(pb, prog, s, run) && Solo(run, r)
    ensures var s' := Exec(pb, prog, s, run);
      s'.pos == s.pos && s'.done == s.done && forall i: nat :: i < n ==> (x, i) in s'.regs[r]
  {
    if n == 0 {
      run := [];
    } else {
      run := LoadOperands(pb, prog, s, r, x, n - 1);
      var mid := Exec(pb, prog, s, run);
      if (x, n - 1) !in mid.regs[r] {
        LegalSnoc(pb, prog, s, run, Load(r, x, n - 1));
        run := run + [Load(r, x, n - 1)];
      }
    }
  }

  lemma DoTask<T>(pb: Problem<T>, prog: seq<Kernel>, s: State<T>, r: nat, x: Task) returns (run: seq<Step>)
    requires Shape(pb, prog, s) && r < pb.world && s.pos[r] < |prog|
    requires IsTask(pb, r, prog[s.pos[r]], x)
    ensures Legal(pb, prog, s, run) && Solo(run, r)
    ensures var s' := Exec(pb, prog, s, run); s'.pos == s.pos && s'.done == s.done[r := s.done[r] + {x}]
  {
    if x in s.done[r] {
      run := [];
      assert s.done[r] + {x} == s.done[r];
    } else {
      run := LoadOperands(pb, prog, s, r, x, Operands(pb, prog[s.pos[r]]));
      LegalSnoc(pb, prog, s, run, Do(r, x));
      run := run + [Do(r, x)];
    }
  }

  lemma Then<T>(pb: Problem<T>, prog: seq<Kernel>, s: State<T>, r: nat, a: seq<Step>, b: seq<Step>)
    requires Shape(pb, prog, s) && Legal(pb, prog, s, a) && Legal(pb, prog, Exec(pb, prog, s, a), b)
    requires Solo(a, r) && Solo(b, r)
    ensures Legal(pb, prog, s, a + b) && Solo(a + b, r)
    ensures Exec(pb, prog, s, a + b) == Exec(pb, prog, Exec(pb, prog, s, a), b)
  {
    LegalAppend(pb, prog, s, a, b);
  }

  lemma {:induction false} DoTasks<T>(pb: Problem<T>, prog: seq<Kernel>, s: State<T>, r: nat, todo: set<Task>)
    returns (run: seq<Step>)
    requires Shape(pb, prog, s) && r < pb.world && s.pos[r] < |prog|
    requires forall x :: x in todo ==> IsTask(pb, r, prog[s.pos[r]], x)
    ensures Legal(pb, prog, s, run) && Solo(run, r)
    ensures var s' := Exec(pb, prog, s, run); s'.pos == s.pos && s'.done == s.done[r := s.done[r] + todo]
    decreases |todo|
  {
    if todo == {} {
      run := [];
      assert s.done[r] + todo == s.done[r];
    } else {
      var x :| x in todo;
      var first := DoTask(pb, prog, s, r, x);
      var rest := DoTasks(pb, prog, Exec(pb, prog, s, first), r, todo - {x});
      Then(pb, prog, s, r, first, rest);
      run := first + rest;
      DoneBoth(s.done, r, x, todo);
    }
  }

  lemma DoneBoth(done: seq<set<Task>>, r: nat, x: Task, todo: set<Task>)
    requires r < |done| && x in todo
    ensures done[r := done[r] + {x}][r := done[r] + {x} + (todo - {x})] == done[r := done[r] + todo]
  {
    assert done[r] + {x} + (todo - {x}) == done[r] + todo;
  }

  ghost function TaskSet<T>(pb: Problem<T>, r: nat, kern: Kernel): (xs: set<Task>)
    ensures forall x :: x in xs <==> IsTask(pb, r, kern, x)
  {
    var xs := set t: nat, k: nat, c: nat
      | t < pb.Tokens() + pb.m + 1 && k < pb.topk + 1 && c < pb.chunks + 1 && IsTask(pb, r, kern, Task(t, k, c))
      :: Task(t, k, c);
    assert forall x: Task :: IsTask(pb, r, kern, x) ==> x == Task(x.t, x.k, x.c) && x in xs;
    xs
  }

  /** A kernel that is not a barrier can always be completed by its rank alone. */
  lemma FinishKernel<T>(pb: Problem<T>, prog: seq<Kernel>, s: State<T>, r: nat) returns (run: seq<Step>)
    requires Shape(pb, prog, s) && r < pb.world && s.pos[r] < |prog| && !prog[s.pos[r]].Barrier?
    ensures Legal(pb, prog, s, run) && Solo(run, r)
    ensures Exec(pb, prog, s, run).pos == s.pos[r := s.pos[r] + 1]
  {
    run := DoTasks(pb, prog, s, r, TaskSet(pb, r, prog[s.pos[r]]));
    LegalSnoc(pb, prog, s, run, Advance(r));
    run := run + [Advance(r)];
  }

  /** Ranks below n that are at barrier b arrive. */
  lemma {:induction false} ArriveBelow<T>(pb: Problem<T>, prog: seq<Kernel>, s: State<T>, b: nat, n: nat)
    returns (run: seq<Step>)
    requires Shape(pb, prog, s) && b < |prog| && prog[b].Barrier? && n <= pb.world
    requires forall r :: 0 <= r < pb.world ==> s.pos[r] >= b
    ensures Legal(pb, prog, s, run)
    ensures var s' := Exec(pb, prog, s, run); s'.pos == s.pos && forall q :: 0 <= q < n ==> Arrived(s', q, b)
  {
    if n == 0 {
      run := [];
    } else {
      run := ArriveBelow(pb, prog, s, b, n - 1);
      if s.pos[n - 1] == b {
        var mid := Exec(pb, prog, s, run);
        var last := DoTask(pb, prog, mid, n - 1, ARRIVE);
        LegalAppend(pb, prog, s, run, last);
        var s' := Exec(pb, prog, mid, last);
        forall q | 0 <= q < n - 1
          ensures Arrived(s', q, b)
        {
          assert Arrived(mid, q, b);
        }
        run := run + last;
      }
    }
  }

  /** A rank that is furthest behind can always move on: peers can reach its barrier. */
  lemma MoveHindmost<T>(pb: Problem<T>, prog: seq<Kernel>, s: State<T>, r: nat) returns (run: seq<Step>)
    requires Ordered(pb, prog, s) && DistinctSlots(prog)
    requires r < pb.world && s.pos[r] < |prog|
    requires forall q :: 0 <= q < pb.world ==> s.pos[q] >= s.pos[r]
    ensures Legal(pb, prog, s, run)
    ensures Exec(pb, prog, s, run).pos == s.pos[r := s.pos[r] + 1]
  {
    var b := s.pos[r];
    if !prog[b].Barrier? {
      run := FinishKernel(pb, prog, s, r);
    } else {
      run := AllArrive(pb, prog, s, b);
      LegalSnoc(pb, prog, s, run, Advance(r));
      run := run + [Advance(r)];
    }
  }

  /** When no rank is before barrier b, those at it can all arrive, and its counter is full. */
  lemma AllArrive<T>(pb: Problem<T>, prog: seq<Kernel>, s: State<T>, b: nat) returns (run: seq<Step>)
    requires Ordered(pb, prog, s) && DistinctSlots(prog) && b < |prog| && prog[b].Barrier?
    requires forall q :: 0 <= q < pb.world ==> s.pos[q] >= b
    ensures Legal(pb, prog, s, run)
    ensures var s' := Exec(pb, prog, s, run);
      && s'.pos == s.pos && s'.arrivals(prog[b].slot) == pb.world
      && forall q :: 0 <= q < pb.world && s.pos[q] == b ==> ARRIVE in s'.done[q]
  {
    run := ArriveBelow(pb, prog, s, b, pb.world);
    OrderedRun(pb, prog, s, run);
    FullCounter(pb, prog, Exec(pb, prog, s, run), b);
  }

  lemma FullCounter<T>(pb: Problem<T>, prog: seq<Kernel>, s: State<T>, b: nat)
    requires Ordered(pb, prog, s) && b < |prog| && prog[b].Barrier?
    requires forall q :: 0 <= q < pb.world ==> Arrived(s, q, b)
    ensures s.arrivals(prog[b].slot) == pb.world
    ensures forall q :: 0 <= q < pb.world && s.pos[q] == b ==> ARRIVE in s.done[q]
  {
    assert BarrierOk(pb, prog, s, b);
    var bits := ArrivedBits(s, b);
    assert forall q :: 0 <= q < pb.world ==> bits[q] == Arrived(s, q, b);
    CountBounded(bits);
    forall q | 0 <= q < pb.world && s.pos[q] == b
      ensures ARRIVE in s.done[q]
    {
      assert Arrived(s, q, b);
    }
  }

  function Max(a: nat, b: nat): nat { if a < b then b else a }

  ghost function Behind(pos: seq<nat>, target: nat): nat {
    if |pos| == 0 then 0 else Behind(pos[..|pos| - 1], target) + Max(pos[|pos| - 1], target) - pos[|pos| - 1]
  }

  lemma {:induction false} BehindStep(pos: seq<nat>, target: nat, r: nat)
    requires r < |pos| && pos[r] < target
    ensures Behind(pos[r := pos[r] + 1], target) == Behind(pos, target) - 1
  {
    var n := |pos| - 1;
    if r == n {
      assert pos[r := pos[r] + 1][..n] == pos[..n];
    } else {
      assert pos[r := pos[r] + 1][..n] == pos[..n][r := pos[..n][r] + 1];
      BehindStep(pos[..n], target, r);
    }
  }

  lemma {:induction false} Hindmost(pos: seq<nat>) returns (r: nat)
    requires |pos| > 0
    ensures r < |pos| && forall q :: 0 <= q < |pos| ==> pos[q] >= pos[r]
  {
    r := 0;
    if |pos| > 1 {
      var n := |pos| - 1;
      r := Hindmost(pos[..n]);
      assert forall q :: 0 <= q < n ==> pos[q] == pos[..n][q];
      if pos[n] < pos[r] {
        r := n;
      }
    }
  }

  /** While some rank is before the target, one of those can move on by a kernel. */
  lemma MoveOne<T>(pb: Problem<T>, prog: seq<Kernel>, s: State<T>, target: nat) returns (r: nat, run: seq<Step>)
    requires Ordered(pb, prog, s) && DistinctSlots(prog) && target <= |prog|
    requires exists q :: 0 <= q < pb.world && s.pos[q] < target
    ensures r < pb.world && s.pos[r] < target && Legal(pb, prog, s, run)
    ensures var s' := Exec(pb, prog, s, run);
      s'.pos == s.pos[r := s.pos[r] + 1] && Ordered(pb, prog, s') && Behind(s'.pos, target) < Behind(s.pos, target)
  {
    r := Hindmost(s.pos);
    run := MoveHindmost(pb, prog, s, r);
    OrderedRun(pb, prog, s, run);
    BehindStep(s.pos, target, r);
  }

  /** From every reachable state the run can go on until every rank has passed `target`
      kernels; with target = |prog| no rank is ever stuck at a barrier for good. */
  lemma {:induction false} CanRunTo<T>(pb: Problem<T>, prog: seq<Kernel>, s: State<T>, target: nat)
    returns (run: seq<Step>)
    requires Ordered(pb, prog, s) && DistinctSlots(prog) && target <= |prog|
    ensures Legal(pb, prog, s, run)
    ensures forall r :: 0 <= r < pb.world ==> Exec(pb, prog, s, run).pos[r] == Max(s.pos[r], target)
    decreases Behind(s.pos, target)
  {
    if forall r :: 0 <= r < pb.world ==> s.pos[r] >= target {
      run := [];
    } else {
      var r, first := MoveOne(pb, prog, s, target);
      var mid := Exec(pb, prog, s, first);
      var rest := CanRunTo(pb, prog, mid, target);
      LegalAppend(pb, prog, s, first, rest);
      run := first + rest;
    }
  }

  /** Rank r alone, up to the next barrier at the latest. */
  lemma {:induction false} RunAlone<T>(pb: Problem<T>, prog: seq<Kernel>, s: State<T>, r: nat, target: nat)
    returns (run: seq<Step>)
    requires Shape(pb, prog, s) && r < pb.world && s.pos[r] <= target <= |prog|
    requires forall j :: s.pos[r] <= j < target ==> !prog[j].Barrier?
    ensures Legal(pb, prog, s, run) && Solo(run, r)
    ensures Exec(pb, prog, s, run).pos == s.pos[r := target]
    decreases target - s.pos[r]
  {
    if s.pos[r] == target {
      run := [];
    } else {
      var first := FinishKernel(pb, prog, s, r);
      var rest := RunAlone(pb, prog, Exec(pb, prog, s, first), r, target);
      Then(pb, prog, s, r, first, rest);
      run := first + rest;
    }
  }

  ghost predicate RaceFree<T(!new)>(pb: Problem<T>, prog: seq<Kernel>, init: State<T>)
    requires Shape(pb, prog, init)
  {
    forall run :: Legal(pb, prog, init, run) ==> !Race(pb, prog, Exec(pb, prog, init, run))
  }

  lemma UnseparatedRaces<T(!new)>(pb: Problem<T>, prog: seq<Kernel>, init: State<T>, p: nat, q: nat)
    returns (run: seq<Step>)
    requires Initial(pb, prog, init) && DistinctSlots(prog) && pb.world >= 2
    requires p < q < |prog| && Conflict(prog[p], prog[q]) && !BarrierBetween(prog, p, q)
    ensures Legal(pb, prog, init, run) && Race(pb, prog, Exec(pb, prog, init, run))
  {
    InitialOrdered(pb, prog, init);
    var first := CanRunTo(pb, prog, init, p);
    var mid := Exec(pb, prog, init, first);
    assert mid.pos[0] == p && mid.pos[1] == p;
    var rest := RunAlone(pb, prog, mid, 0, q);
    LegalAppend(pb, prog, init, first, rest);
    run := first + rest;
    var s := Exec(pb, prog, init, run);
    assert s.pos[0] == q && s.pos[1] == p;
  }

  /** With at least two ranks, no reachable state has two ranks inside conflicting kernels if
      and only if a barrier separates every two conflicting kernels of the stream. */
  lemma RaceFreeIffSeparated<T(!new)>(pb: Problem<T>, prog: seq<Kernel>, init: State<T>)
    requires Initial(pb, prog, init) && DistinctSlots(prog) && pb.world >= 2
    ensures RaceFree(pb, prog, init) <==> Separated(prog)
  {
    InitialOrdered(pb, prog, init);
    if Separated(prog) {
      forall run | Legal(pb, prog, init, run)
        ensures !Race(pb, prog, Exec(pb, prog, init, run))
      {
        OrderedRun(pb, prog, init, run);
        SeparatedNeverRaces(pb, prog, Exec(pb, prog, init, run));
      }
    } else {
      var p: nat, q: nat :| p < q < |prog| && Conflict(prog[p], prog[q]) && !BarrierBetween(prog, p, q);
      var run := UnseparatedRaces(pb, prog, init, p, q);
    }
  }
}
