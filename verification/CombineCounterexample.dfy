/** What goes wrong without the barrier: a slow reader can see a peer's copy of P already changed
    for the next round. So the barrier between a read and the next change to P is exactly what
    the NVLS path needs. */
module CombineCounterexample {
  import opened Folds
  import opened Arith
  import opened CombineMachine
  import opened CombineOrder
  import opened CombineRefinement
  import opened CombineTheorems
  import opened CombineHost

  lemma {:induction false} PInvRun<T(!new)>(pb: Problem<T>, prog: seq<Kernel>, s: State<T>, run: seq<Step>)
    requires CommutativeMonoid(pb.alg) && DistinctSlots(prog)
    requires Ordered(pb, prog, s) && PInv(pb, prog, s)
    requires Legal(pb, prog, s, run)
    ensures PInv(pb, prog, Exec(pb, prog, s, run)) && Ordered(pb, prog, Exec(pb, prog, s, run))
    decreases |run|
  {
    if |run| > 0 {
      OrderedStep(pb, prog, s, run[0]);
      PInvStep(pb, prog, s, run[0]);
      PInvRun(pb, prog, Apply(pb, prog, s, run[0]), run[1..]);
    }
  }

  lemma PInvAfter<T(!new)>(pb: Problem<T>, prog: seq<Kernel>, init: State<T>, run: seq<Step>)
    requires CommutativeMonoid(pb.alg) && DistinctSlots(prog) && Initial(pb, prog, init) && Legal(pb, prog, init, run)
    ensures PInv(pb, prog, Exec(pb, prog, init, run)) && Ordered(pb, prog, Exec(pb, prog, init, run))
  {
    InitialOrdered(pb, prog, init);
    PInvInitial(pb, prog, init);
    PInvRun(pb, prog, init, run);
  }

  ghost function Column<T>(pb: Problem<T>, s: State<T>, t: nat, c: nat, n: nat): (xs: seq<T>)
    ensures |xs| == n
  {
    seq(n, q requires 0 <= q < n => s.part(PCell(q, t, c)))
  }

  lemma {:induction false} LoadColumn<T>(pb: Problem<T>, prog: seq<Kernel>, s: State<T>, r: nat, x: Task, n: nat)
    returns (run: seq<Step>)
    requires Shape(pb, prog, s) && r < pb.world && s.pos[r] < |prog| && prog[s.pos[r]].Read?
    requires IsTask(pb, r, Read, x) && s.done[r] == {} && s.regs[r] == map[] && n <= pb.world
    ensures Legal(pb, prog, s, run)
    ensures var s' := Exec(pb, prog, s, run);
      && s'.pos == s.pos && s'.done == s.done && s'.part == s.part
      && (forall i: nat :: (x, i) in s'.regs[r] <==> i < n)
      && Loaded(s'.regs[r], x, n) == Column(pb, s, r * pb.m + x.t, x.c, n)
  {
    if n == 0 {
      run := [];
    } else {
      run := LoadColumn(pb, prog, s, r, x, n - 1);
      var mid := Exec(pb, prog, s, run);
      LoadOneMore(pb, prog, s, mid, r, x, n);
      LegalSnoc(pb, prog, s, run, Load(r, x, n - 1));
      run := run + [Load(r, x, n - 1)];
    }
  }

  /** The n-th operand, when the first n - 1 have been loaded from an unchanged P. */
  lemma LoadOneMore<T>(pb: Problem<T>, prog: seq<Kernel>, s: State<T>, mid: State<T>, r: nat, x: Task, n: nat)
    requires Shape(pb, prog, mid) && r < pb.world && mid.pos[r] < |prog| && prog[mid.pos[r]].Read?
    requires IsTask(pb, r, Read, x) && mid.done[r] == {} && 0 < n <= pb.world && mid.part == s.part
    requires forall i: nat :: (x, i) in mid.regs[r] <==> i < n - 1
    requires Loaded(mid.regs[r], x, n - 1) == Column(pb, s, r * pb.m + x.t, x.c, n - 1)
    ensures Enabled(pb, prog, mid, Load(r, x, n - 1))
    ensures var s' := Apply(pb, prog, mid, Load(r, x, n - 1));
      && (forall i: nat :: (x, i) in s'.regs[r] <==> i < n)
      && Loaded(s'.regs[r], x, n) == Column(pb, s, r * pb.m + x.t, x.c, n)
  {
    var s' := Apply(pb, prog, mid, Load(r, x, n - 1));
    var before, after := Column(pb, s, r * pb.m + x.t, x.c, n - 1), Column(pb, s, r * pb.m + x.t, x.c, n);
    forall i: nat | i < n
      ensures s'.regs[r][(x, i)] == after[i]
    {
      if i < n - 1 {
        assert Loaded(mid.regs[r], x, n - 1)[i] == before[i];
      }
    }
  }

  /** Ranks q and r leave barrier b, the first to do so; r has nothing loaded or done yet. */
  lemma TwoLeaveBarrier<T(!new)>(pb: Problem<T>, prog: seq<Kernel>, init: State<T>, b: nat, r: nat, q: nat)
    returns (run: seq<Step>)
    requires Initial(pb, prog, init) && DistinctSlots(prog)
    requires b < |prog| && prog[b].Barrier? && r < pb.world && q < pb.world && r != q
    ensures Legal(pb, prog, init, run)
    ensures var s := Exec(pb, prog, init, run);
      && (forall i :: 0 <= i < pb.world ==> s.pos[i] == if i == r || i == q then b + 1 else b)
      && s.done[r] == {} && s.regs[r] == map[]
  {
    InitialOrdered(pb, prog, init);
    run := CanRunTo(pb, prog, init, b);
    OrderedRun(pb, prog, init, run);
    var s := Exec(pb, prog, init, run);
    var arrive := AllArrive(pb, prog, s, b);
    LegalAppend(pb, prog, init, run, arrive);
    run := run + arrive;
    var leave := LeaveBoth(pb, prog, Exec(pb, prog, init, run), b, r, q);
    LegalAppend(pb, prog, init, run, leave);
    run := run + leave;
  }

  lemma LeaveBoth<T>(pb: Problem<T>, prog: seq<Kernel>, s: State<T>, b: nat, r: nat, q: nat) returns (run: seq<Step>)
    requires Shape(pb, prog, s) && b < |prog| && prog[b].Barrier? && r < pb.world && q < pb.world && r != q
    requires (forall i :: 0 <= i < pb.world ==> s.pos[i] == b) && s.arrivals(prog[b].slot) == pb.world
    requires ARRIVE in s.done[q] && ARRIVE in s.done[r]
    ensures Legal(pb, prog, s, run)
    ensures var s' := Exec(pb, prog, s, run);
      && (forall i :: 0 <= i < pb.world ==> s'.pos[i] == if i == r || i == q then b + 1 else b)
      && s'.done[r] == {} && s'.regs[r] == map[]
  {
    assert Enabled(pb, prog, s, Advance(q));
    var mid := Apply(pb, prog, s, Advance(q));
    assert Enabled(pb, prog, mid, Advance(r));
    run := [Advance(q), Advance(r)];
    assert run[1..] == [Advance(r)] && run[1..][1..] == [];
    assert Legal(pb, prog, mid, run[1..]);
    assert Exec(pb, prog, s, run) == Exec(pb, prog, mid, [Advance(r)]) == Apply(pb, prog, mid, Advance(r));
  }

  /** The first kernel after the read that changes P, with no barrier before it. */
  ghost predicate NextWriter(prog: seq<Kernel>, p: nat, j: nat) {
    && p + 3 < j < |prog| && WritesP(prog[j])
    && forall i :: p + 3 < i < j ==> !WritesP(prog[i]) && !prog[i].Barrier?
  }

  lemma {:induction false} FirstWriter(prog: seq<Kernel>, p: nat, j: nat) returns (n: nat)
    requires p + 3 < j < |prog| && WritesP(prog[j]) && !BarrierBetween(prog, p + 3, j)
    ensures NextWriter(prog, p, n)
    decreases j
  {
    if i :| p + 3 < i < j && WritesP(prog[i]) {
      assert forall b :: p + 3 < b < i ==> !prog[b].Barrier?;
      n := FirstWriter(prog, p, i);
    } else {
      n := j;
    }
  }

  /** Rank q runs from its read to the next kernel that changes P and does all of that kernel;
      nobody else moves. */
  lemma RunAhead<T>(pb: Problem<T>, prog: seq<Kernel>, s: State<T>, p: nat, q: nat, j: nat) returns (run: seq<Step>)
    requires Shape(pb, prog, s) && q < pb.world && NvlsIteration(prog, p) && NextWriter(prog, p, j) && s.pos[q] == p + 3
    ensures Legal(pb, prog, s, run) && Solo(run, q)
    ensures var s' := Exec(pb, prog, s, run); s'.pos == s.pos[q := j] && Finished(pb, s', q, prog[j])
  {
    run := RunAlone(pb, prog, s, q, j);
    var mid := Exec(pb, prog, s, run);
    var all := DoTasks(pb, prog, mid, q, TaskSet(pb, q, prog[j]));
    Then(pb, prog, s, q, run, all);
    run := run + all;
  }

  /** r is about to read its first operand when q has already changed P for the next round. */
  ghost predicate Overtaken<T>(pb: Problem<T>, prog: seq<Kernel>, s: State<T>, p: nat, r: nat, q: nat, j: nat)
    requires Shape(pb, prog, s) && r < pb.world && q < pb.world && p + 3 < j < |prog|
  {
    && (forall i :: 0 <= i < pb.world && i != q ==> p + 2 <= s.pos[i] <= p + 3)
    && s.pos[r] == p + 3 && s.done[r] == {} && s.regs[r] == map[]
    && s.pos[q] == j && Finished(pb, s, q, prog[j])
  }

  lemma PeerWritesFirst<T(!new)>(pb: Problem<T>, prog: seq<Kernel>, init: State<T>, p: nat, r: nat, q: nat, j: nat)
    returns (run: seq<Step>)
    requires Initial(pb, prog, init) && DistinctSlots(prog) && NvlsIteration(prog, p) && NextWriter(prog, p, j)
    requires r < pb.world && q < pb.world && r != q
    ensures Legal(pb, prog, init, run) && Overtaken(pb, prog, Exec(pb, prog, init, run), p, r, q, j)
  {
    var leave := TwoLeaveBarrier(pb, prog, init, p + 2, r, q);
    var mid := Exec(pb, prog, init, leave);
    var ahead := RunAhead(pb, prog, mid, p, q, j);
    SoloFrame(pb, prog, mid, ahead, q, r);
    LegalAppend(pb, prog, init, leave, ahead);
    run := leave + ahead;
  }

  /** A reader with nothing loaded loads every copy and stores their sum. */
  lemma ReadNow<T>(pb: Problem<T>, prog: seq<Kernel>, s: State<T>, r: nat, x: Task) returns (run: seq<Step>)
    requires Shape(pb, prog, s) && r < pb.world && s.pos[r] < |prog| && prog[s.pos[r]].Read?
    requires IsTask(pb, r, Read, x) && s.done[r] == {} && s.regs[r] == map[]
    ensures Legal(pb, prog, s, run)
    ensures var s' := Exec(pb, prog, s, run);
      && s'.pos == s.pos && x in s'.done[r]
      && s'.yNvls(YCell(r, x.t, x.c)) == Fold(pb.alg, Column(pb, s, r * pb.m + x.t, x.c, pb.world))
  {
    run := LoadColumn(pb, prog, s, r, x, pb.world);
    LegalSnoc(pb, prog, s, run, Do(r, x));
    run := run + [Do(r, x)];
  }

  /** The column r then reads: every copy as after the write, q's as after the next change. */
  lemma ColumnOvertaken<T(!new)>(pb: Problem<T>, prog: seq<Kernel>, s: State<T>, p: nat, r: nat, q: nat, j: nat, t: nat,
                                 c: nat)
    requires Ordered(pb, prog, s) && PInv(pb, prog, s) && NvlsIteration(prog, p) && NextWriter(prog, p, j)
    requires r < pb.world && q < pb.world && t < pb.Tokens() && c < pb.chunks && Overtaken(pb, prog, s, p, r, q, j)
    ensures Column(pb, s, t, c, pb.world) == SerialColumn(pb, prog, p + 3, t, c)[q := SerialP(pb, prog, j + 1, q, t, c)]
  {
    forall i | 0 <= i < pb.world
      ensures s.part(PCell(i, t, c)) == SerialP(pb, prog, if i == q then j + 1 else p + 3, i, t, c)
    {
      if i == q {
        DoneWriter(pb, prog, s, q, t, c);
      } else {
        AroundBarrier(pb, prog, p, s.pos[i], s.done[i], i, t, c);
      }
    }
  }

  lemma DoneWriter<T(!new)>(pb: Problem<T>, prog: seq<Kernel>, s: State<T>, q: nat, t: nat, c: nat)
    requires Ordered(pb, prog, s) && PInv(pb, prog, s) && q < pb.world && t < pb.Tokens() && c < pb.chunks
    requires s.pos[q] < |prog| && Finished(pb, s, q, prog[s.pos[q]])
    ensures s.part(PCell(q, t, c)) == SerialP(pb, prog, s.pos[q] + 1, q, t, c)
  {
    NowPAtEnd(pb, prog, s, q, t, c);
  }

  /** A rank at the barrier or the read behind it still holds its whole part. */
  lemma AroundBarrier<T>(pb: Problem<T>, prog: seq<Kernel>, p: nat, at: nat, done: set<Task>, i: nat, t: nat, c: nat)
    requires NvlsIteration(prog, p) && p + 2 <= at <= p + 3
    ensures NowP(pb, prog, at, done, i, t, c) == SerialP(pb, prog, p + 3, i, t, c)
  {
    assert SerialP(pb, prog, p + 3, i, t, c) == SerialP(pb, prog, p + 2, i, t, c);
  }

  lemma ReadOvertaken<T(!new)>(pb: Problem<T>, prog: seq<Kernel>, s: State<T>, p: nat, r: nat, q: nat, j: nat, lt: nat,
                               c: nat)
    returns (run: seq<Step>)
    requires Ordered(pb, prog, s) && PInv(pb, prog, s) && NvlsIteration(prog, p) && NextWriter(prog, p, j)
    requires r < pb.world && q < pb.world && lt < pb.m && c < pb.chunks && Overtaken(pb, prog, s, p, r, q, j)
    ensures Legal(pb, prog, s, run)
    ensures var x := Task(lt, 0, c); var t := r * pb.m + lt; var s' := Exec(pb, prog, s, run);
      && s'.pos == s.pos && x in s'.done[r]
      && s'.yNvls(YCell(r, lt, c))
         == Fold(pb.alg, SerialColumn(pb, prog, p + 3, t, c)[q := SerialP(pb, prog, j + 1, q, t, c)])
  {
    HomeToken(pb, r, lt);
    ColumnOvertaken(pb, prog, s, p, r, q, j, r * pb.m + lt, c);
    run := ReadNow(pb, prog, s, r, Task(lt, 0, c));
  }

  /** For any problem, any stream in which the next change to P follows a read without a barrier,
      any reader r and any peer q: some run gives r a y value in which q's part is the one after
      that change. */
  lemma ReaderSeesNextRound<T(!new)>(pb: Problem<T>, prog: seq<Kernel>, init: State<T>, p: nat, r: nat, q: nat, j: nat,
                                     lt: nat, c: nat)
    returns (run: seq<Step>)
    requires CommutativeMonoid(pb.alg) && Initial(pb, prog, init) && DistinctSlots(prog)
    requires NvlsIteration(prog, p) && NextWriter(prog, p, j)
    requires r < pb.world && q < pb.world && r != q && lt < pb.m && c < pb.chunks
    ensures Legal(pb, prog, init, run)
    ensures var x := Task(lt, 0, c); var t := r * pb.m + lt; var s := Exec(pb, prog, init, run);
      && s.pos[r] == p + 3 && x in s.done[r]
      && s.yNvls(YCell(r, lt, c))
         == Fold(pb.alg, SerialColumn(pb, prog, p + 3, t, c)[q := SerialP(pb, prog, j + 1, q, t, c)])
  {
    var first := PeerWritesFirst(pb, prog, init, p, r, q, j);
    var mid := Exec(pb, prog, init, first);
    PInvAfter(pb, prog, init, first);
    var read := ReadOvertaken(pb, prog, mid, p, r, q, j, lt, c);
    LegalAppend(pb, prog, init, first, read);
    run := first + read;
  }

  /** With two adjacent run_nvls the change is a zero: q's whole part is missing. */
  lemma ReaderMissesPeer<T(!new)>(pb: Problem<T>, prog: seq<Kernel>, init: State<T>, p: nat, r: nat, q: nat, lt: nat,
                                  c: nat)
    returns (run: seq<Step>)
    requires CommutativeMonoid(pb.alg) && Initial(pb, prog, init) && DistinctSlots(prog)
    requires NvlsIteration(prog, p) && NvlsIteration(prog, p + 4)
    requires r < pb.world && q < pb.world && r != q && lt < pb.m && c < pb.chunks
    ensures Legal(pb, prog, init, run)
    ensures var x := Task(lt, 0, c); var s := Exec(pb, prog, init, run);
      && s.pos[r] == p + 3 && x in s.done[r]
      && s.yNvls(YCell(r, lt, c)) == Fold(pb.alg, SerialColumn(pb, prog, p + 3, r * pb.m + lt, c)[q := pb.alg.zero])
  {
    assert NextWriter(prog, p, p + 4);
    run := ReaderSeesNextRound(pb, prog, init, p, r, q, p + 4, lt, c);
  }

  // ----- an instance over the integers -----

  const SUM := Algebra(0, (x: int, y: int) => x + y)

  /** Two ranks, one token each, every expert on rank 1. */
  const LOPSIDED := Problem(2, 1, 1, 1, (t: nat, k: nat) => 1, (t: nat, k: nat, c: nat) => 7, SUM)

  lemma SumIsMonoid()
    ensures CommutativeMonoid(SUM)
  {
  }

  /** After an iteration's write rank 0 holds nothing of the token and rank 1 all of it. */
  lemma LopsidedAfterWrite(prog: seq<Kernel>, p: nat)
    requires NvlsIteration(prog, p)
    ensures SerialP(LOPSIDED, prog, p + 3, 0, 0, 0) == 0 && SerialP(LOPSIDED, prog, p + 3, 1, 0, 0) == 7
  {
    SumIsMonoid();
    SerialPAfterWrite(LOPSIDED, prog, p, 0, 0, 0);
    SerialPAfterWrite(LOPSIDED, prog, p, 1, 0, 0);
    LopsidedPart(0);
    LopsidedPart(1);
  }

  /** What a write adds on each rank. */
  lemma LopsidedPart(q: nat)
    requires q < 2
    ensures Fold(SUM, Masked(SUM, Contribs(LOPSIDED, 0, 0), OwnedBits(Owners(LOPSIDED, 0), q)))
         == if q == 1 then 7 else 0
  {
    var own := Masked(SUM, Contribs(LOPSIDED, 0, 0), OwnedBits(Owners(LOPSIDED, 0), q));
    assert own == [if q == 1 then 7 else 0] && own[..0] == [];
  }

  lemma LopsidedReference()
    ensures Reference(LOPSIDED, 0, 0, 0) == 7
  {
    assert Contribs(LOPSIDED, 0, 0) == [7] && [7][..0] == [];
  }

  /** Rank 1's copy after the next change: emptied by a zero, doubled by a write. */
  lemma LopsidedNext(prog: seq<Kernel>, p: nat, j: nat)
    requires NvlsIteration(prog, p) && NextWriter(prog, p, j)
    ensures SerialP(LOPSIDED, prog, j + 1, 1, 0, 0) in {0, 14}
  {
    LopsidedAfterWrite(prog, p);
    LopsidedPart(1);
    SerialPQuiet(LOPSIDED, prog, p + 3, j, 1, 0, 0);
  }

  ghost predicate RightAt<T>(pb: Problem<T>, prog: seq<Kernel>, s: State<T>, p: nat, r: nat, lt: nat, c: nat)
    requires Shape(pb, prog, s) && r < pb.world
  {
    Stored(prog, s, r, p + 3, Task(lt, 0, c), Read) ==> s.yNvls(YCell(r, lt, c)) == Reference(pb, r, lt, c)
  }

  /** In every run, a reader that has stored in the read at p + 3 stored the reference. */
  ghost predicate AlwaysRight<T(!new)>(pb: Problem<T>, prog: seq<Kernel>, init: State<T>, p: nat)
    requires Shape(pb, prog, init)
  {
    forall run, r, lt, c :: Legal(pb, prog, init, run) && 0 <= r < pb.world && 0 <= lt < pb.m && 0 <= c < pb.chunks ==>
      RightAt(pb, prog, Exec(pb, prog, init, run), p, r, lt, c)
  }

  lemma GuardedIsRight<T(!new)>(pb: Problem<T>, prog: seq<Kernel>, init: State<T>, p: nat)
    requires pb.Valid() && CommutativeMonoid(pb.alg) && Initial(pb, prog, init) && DistinctSlots(prog)
    requires NvlsIteration(prog, p) && Guarded(prog, p)
    ensures AlwaysRight(pb, prog, init, p)
  {
    forall run, r, lt, c | Legal(pb, prog, init, run) && 0 <= r < pb.world && 0 <= lt < pb.m && 0 <= c < pb.chunks
      ensures RightAt(pb, prog, Exec(pb, prog, init, run), p, r, lt, c)
    {
      if Stored(prog, Exec(pb, prog, init, run), r, p + 3, Task(lt, 0, c), Read) {
        NvlsCombineCorrect(pb, prog, init, run, p, r, lt, c);
      }
    }
  }

  /** For every stream: an iteration's y is right in every run of this instance if and only if a
      barrier stands between its read and the next change to P. */
  lemma NvlsRightIffGuarded(prog: seq<Kernel>, init: State<int>, p: nat)
    requires Initial(LOPSIDED, prog, init) && DistinctSlots(prog) && NvlsIteration(prog, p)
    ensures AlwaysRight(LOPSIDED, prog, init, p) <==> Guarded(prog, p)
  {
    SumIsMonoid();
    if Guarded(prog, p) {
      GuardedIsRight(LOPSIDED, prog, init, p);
    } else {
      var j :| p + 3 < j < |prog| && WritesP(prog[j]) && !BarrierBetween(prog, p + 3, j);
      var n := FirstWriter(prog, p, j);
      var run := LopsidedGoesWrong(prog, init, p, n);
      assert !RightAt(LOPSIDED, prog, Exec(LOPSIDED, prog, init, run), p, 0, 0, 0);
    }
  }

  lemma LopsidedGoesWrong(prog: seq<Kernel>, init: State<int>, p: nat, j: nat) returns (run: seq<Step>)
    requires Initial(LOPSIDED, prog, init) && DistinctSlots(prog) && NvlsIteration(prog, p) && NextWriter(prog, p, j)
    ensures Legal(LOPSIDED, prog, init, run)
    ensures var s := Exec(LOPSIDED, prog, init, run);
      && Stored(prog, s, 0, p + 3, Task(0, 0, 0), Read)
      && s.yNvls(YCell(0, 0, 0)) == SerialP(LOPSIDED, prog, j + 1, 1, 0, 0) != Reference(LOPSIDED, 0, 0, 0)
  {
    SumIsMonoid();
    run := ReaderSeesNextRound(LOPSIDED, prog, init, p, 0, 1, j, 0, 0);
    LopsidedAfterWrite(prog, p);
    LopsidedNext(prog, p, j);
    LopsidedReference();
    var after := SerialP(LOPSIDED, prog, j + 1, 1, 0, 0);
    var col := SerialColumn(LOPSIDED, prog, p + 3, 0, 0)[1 := after];
    assert col == [0, after];
    TwoTerms(0, after);
  }

  lemma TwoTerms(a: int, b: int)
    ensures Fold(SUM, [a, b]) == a + b
  {
    assert [a, b][..1] == [a] && [a][..0] == [];
    assert Fold(SUM, [a]) == SUM.add(Fold(SUM, []), a) == a;
  }

  /** An NVLS-only run without the per-iteration synchronize and host barrier can end an
      iteration with y = 0 where the token's contributions sum to 7. */
  lemma NvlsOnlyUnpacedCanBeWrong(init: State<int>) returns (run: seq<Step>)
    requires Initial(LOPSIDED, Kernels(Nvls, 0) + Kernels(Nvls, 1), init)
    ensures Legal(LOPSIDED, Kernels(Nvls, 0) + Kernels(Nvls, 1), init, run)
    ensures var s := Exec(LOPSIDED, Kernels(Nvls, 0) + Kernels(Nvls, 1), init, run);
      && s.pos[0] == 3 && Task(0, 0, 0) in s.done[0]
      && s.yNvls(YCell(0, 0, 0)) == 0 && Reference(LOPSIDED, 0, 0, 0) == 7
  {
    var prog := Kernels(Nvls, 0) + Kernels(Nvls, 1);
    SumIsMonoid();
    assert prog == [Zero, Write, Barrier(Flag(0)), Read, Zero, Write, Barrier(Flag(1)), Read];
    run := ReaderMissesPeer(LOPSIDED, prog, init, 0, 0, 1, 0, 0);
    LopsidedAfterWrite(prog, 0);
    assert SerialColumn(LOPSIDED, prog, 3, 0, 0)[1 := 0] == [0, 0];
    TwoTerms(0, 0);
    LopsidedReference();
  }
}
