/** What a concurrent state holds, in terms of each rank's own progress: its copy of P as running
    its kernels one after another would leave it, the staging rows pushed so far, and what the
    readers of one iteration have loaded and stored. */
module CombineRefinement {
  import opened Folds
  import opened CombineMachine
  import opened CombineOrder
  import opened Arith

  // ----- the stream run kernel by kernel -----

  ghost function Contribs<T>(pb: Problem<T>, t: nat, c: nat): (xs: seq<T>)
    ensures |xs| == pb.topk
  {
    seq(pb.topk, k requires 0 <= k < pb.topk => pb.contrib(t, k, c))
  }

  ghost function Owners<T>(pb: Problem<T>, t: nat): (own: seq<nat>)
    ensures |own| == pb.topk
  {
    seq(pb.topk, k requires 0 <= k < pb.topk => pb.owner(t, k))
  }

  /** Rank r's copy of P after the first p kernels. */
  ghost function SerialP<T>(pb: Problem<T>, prog: seq<Kernel>, p: nat, r: nat, t: nat, c: nat): T
    requires p <= |prog|
  {
    if p == 0 then pb.alg.zero
    else
      match prog[p - 1]
      case Zero => pb.alg.zero
      case Write =>
        pb.alg.add(SerialP(pb, prog, p - 1, r, t, c),
                   Fold(pb.alg, Masked(pb.alg, Contribs(pb, t, c), OwnedBits(Owners(pb, t), r))))
      case _ => SerialP(pb, prog, p - 1, r, t, c)
  }

  ghost function SerialColumn<T>(pb: Problem<T>, prog: seq<Kernel>, p: nat, t: nat, c: nat): (xs: seq<T>)
    requires p <= |prog|
    ensures |xs| == pb.world
  {
    seq(pb.world, q requires 0 <= q < pb.world => SerialP(pb, prog, p, q, t, c))
  }

  /** One run_nvls starting at stream position p. */
  ghost predicate NvlsIteration(prog: seq<Kernel>, p: nat) {
    p + 4 <= |prog| && prog[p].Zero? && prog[p + 1].Write? && prog[p + 2].Barrier? && prog[p + 3].Read?
  }

  /** One run_baseline starting at stream position p. */
  ghost predicate BaseIteration(prog: seq<Kernel>, p: nat) {
    p + 3 <= |prog| && prog[p].Push? && prog[p + 1].Barrier? && prog[p + 2].Reduce?
  }

  // ----- a rank's copy of P -----

  ghost function DoneBits<T>(pb: Problem<T>, done: set<Task>, t: nat, c: nat): (bits: seq<bool>)
    ensures |bits| == pb.topk
  {
    seq(pb.topk, k requires 0 <= k < pb.topk => Task(t, k, c) in done)
  }

  /** Rank r's copy of P, with part of its current kernel done. */
  ghost function NowP<T>(pb: Problem<T>, prog: seq<Kernel>, p: nat, done: set<Task>, r: nat, t: nat, c: nat): T
    requires p <= |prog|
  {
    var prev := SerialP(pb, prog, p, r, t, c);
    if p < |prog| && prog[p].Zero? then (if Task(t, 0, c) in done then pb.alg.zero else prev)
    else if p < |prog| && prog[p].Write? then
      pb.alg.add(prev, Fold(pb.alg, Masked(pb.alg, Contribs(pb, t, c), DoneBits(pb, done, t, c))))
    else prev
  }

  ghost predicate PInv<T>(pb: Problem<T>, prog: seq<Kernel>, s: State<T>)
    requires Shape(pb, prog, s)
  {
    forall r, t, c :: 0 <= r < pb.world && 0 <= t < pb.Tokens() && 0 <= c < pb.chunks ==>
      s.part(PCell(r, t, c)) == NowP(pb, prog, s.pos[r], s.done[r], r, t, c)
  }

  lemma NowPAtStart<T(!new)>(pb: Problem<T>, prog: seq<Kernel>, p: nat, r: nat, t: nat, c: nat)
    requires CommutativeMonoid(pb.alg)
    requires p <= |prog|
    ensures NowP(pb, prog, p, {}, r, t, c) == SerialP(pb, prog, p, r, t, c)
  {
    FoldAllZero(pb.alg, Masked(pb.alg, Contribs(pb, t, c), DoneBits(pb, {}, t, c)));
    assert UnitAt(pb.alg, SerialP(pb, prog, p, r, t, c));
  }

  lemma NowPAtEnd<T(!new)>(pb: Problem<T>, prog: seq<Kernel>, s: State<T>, r: nat, t: nat, c: nat)
    requires Ordered(pb, prog, s)
    requires r < pb.world && t < pb.Tokens() && c < pb.chunks && s.pos[r] < |prog|
    requires Finished(pb, s, r, prog[s.pos[r]])
    ensures NowP(pb, prog, s.pos[r], s.done[r], r, t, c) == SerialP(pb, prog, s.pos[r] + 1, r, t, c)
  {
    var p := s.pos[r];
    if prog[p].Write? {
      assert forall k: nat :: k < pb.topk ==> (IsTask(pb, r, prog[p], Task(t, k, c)) <==> pb.owner(t, k) == r);
      assert DoneBits(pb, s.done[r], t, c) == OwnedBits(Owners(pb, t), r);
    } else if prog[p].Zero? {
      assert IsTask(pb, r, prog[p], Task(t, 0, c));
    }
  }

  lemma PInvDo<T(!new)>(pb: Problem<T>, prog: seq<Kernel>, s: State<T>, st: Step, t: nat, c: nat)
    requires CommutativeMonoid(pb.alg)
    requires Ordered(pb, prog, s) && PInv(pb, prog, s)
    requires Enabled(pb, prog, s, st) && st.Do?
    requires t < pb.Tokens() && c < pb.chunks
    ensures var s' := Apply(pb, prog, s, st);
      s'.part(PCell(st.rank, t, c)) == NowP(pb, prog, s.pos[st.rank], s'.done[st.rank], st.rank, t, c)
  {
    var r, p, x := st.rank, s.pos[st.rank], st.x;
    var before := DoneBits(pb, s.done[r], t, c);
    var after := DoneBits(pb, s.done[r] + {x}, t, c);
    assert s.part(PCell(r, t, c)) == NowP(pb, prog, p, s.done[r], r, t, c);
    if prog[p].Write? && x.t == t && x.c == c {
      assert after == before[x.k := true];
      MaskedFoldSwitchOn(pb.alg, Contribs(pb, t, c), before, x.k);
      assert AssocAt(pb.alg, SerialP(pb, prog, p, r, t, c), Fold(pb.alg, Masked(pb.alg, Contribs(pb, t, c), before)),
        pb.contrib(t, x.k, c));
    } else {
      assert after == before || !prog[p].Write?;
    }
  }

  lemma PInvStep<T(!new)>(pb: Problem<T>, prog: seq<Kernel>, s: State<T>, st: Step)
    requires CommutativeMonoid(pb.alg)
    requires Ordered(pb, prog, s) && PInv(pb, prog, s)
    requires Enabled(pb, prog, s, st)
    ensures PInv(pb, prog, Apply(pb, prog, s, st))
  {
    var s' := Apply(pb, prog, s, st);
    forall r, t, c | 0 <= r < pb.world && 0 <= t < pb.Tokens() && 0 <= c < pb.chunks
      ensures s'.part(PCell(r, t, c)) == NowP(pb, prog, s'.pos[r], s'.done[r], r, t, c)
    {
      assert s.part(PCell(r, t, c)) == NowP(pb, prog, s.pos[r], s.done[r], r, t, c);
      if r == st.rank {
        if st.Do? {
          PInvDo(pb, prog, s, st, t, c);
        } else if st.Advance? {
          NowPAtEnd(pb, prog, s, r, t, c);
          NowPAtStart(pb, prog, s.pos[r] + 1, r, t, c);
        }
      }
    }
  }

  // ----- the NVLS reader sees finished copies of P -----

  predicate WritesP(kern: Kernel) { kern.Zero? || kern.Write? }

  lemma {:induction false} SerialPQuiet<T>(pb: Problem<T>, prog: seq<Kernel>, lo: nat, hi: nat, r: nat, t: nat, c: nat)
    requires lo <= hi <= |prog|
    requires forall j :: lo <= j < hi ==> !WritesP(prog[j])
    ensures SerialP(pb, prog, hi, r, t, c) == SerialP(pb, prog, lo, r, t, c)
  {
    if lo < hi {
      SerialPQuiet(pb, prog, lo, hi - 1, r, t, c);
    }
  }

  /** A barrier stands between the iteration's read and the next kernel that changes P. */
  ghost predicate Guarded(prog: seq<Kernel>, p: nat) {
    forall j :: p + 3 < j < |prog| && WritesP(prog[j]) ==> BarrierBetween(prog, p + 3, j)
  }

  lemma SeparatedIsGuarded(prog: seq<Kernel>, p: nat)
    requires Separated(prog) && NvlsIteration(prog, p)
    ensures Guarded(prog, p)
  {
    forall j | p + 3 < j < |prog| && WritesP(prog[j])
      ensures BarrierBetween(prog, p + 3, j)
    {
      assert Conflict(prog[p + 3], prog[j]);
    }
  }

  /** While some rank is in the read of a guarded iteration, no rank has changed P since. */
  lemma PeerPStable<T>(pb: Problem<T>, prog: seq<Kernel>, s: State<T>, p: nat, r: nat, i: nat, t: nat, c: nat)
    requires Ordered(pb, prog, s) && PInv(pb, prog, s) && NvlsIteration(prog, p) && Guarded(prog, p)
    requires r < pb.world && i < pb.world && t < pb.Tokens() && c < pb.chunks && s.pos[r] == p + 3
    ensures s.part(PCell(i, t, c)) == SerialP(pb, prog, p + 3, i, t, c)
  {
    var q := s.pos[i];
    assert s.part(PCell(i, t, c)) == NowP(pb, prog, q, s.done[i], i, t, c);
    assert BarrierOk(pb, prog, s, p + 2) && Arrived(s, i, p + 2);
    NoBarrierBetweenRanks(pb, prog, s, i, r);
    forall j | p + 2 <= j <= q && j < |prog|
      ensures !WritesP(prog[j])
    {
    }
    SerialPQuiet(pb, prog, p + 2, q, i, t, c);
    SerialPQuiet(pb, prog, p + 2, p + 3, i, t, c);
  }

  /** Token lt of home rank r. */
  lemma HomeToken<T>(pb: Problem<T>, r: nat, lt: nat)
    requires r < pb.world && lt < pb.m
    ensures r * pb.m + lt < pb.Tokens()
    ensures (r * pb.m + lt) / pb.m == r && (r * pb.m + lt) % pb.m == lt
  {
    assert (r + 1) * pb.m <= pb.world * pb.m;
    DivModUnique(r * pb.m + lt, pb.m, r, lt);
  }

  /** What the iteration's reader has loaded is its token's column after the write. */
  ghost predicate ReaderOk<T>(pb: Problem<T>, prog: seq<Kernel>, p: nat, s: State<T>)
    requires Shape(pb, prog, s) && NvlsIteration(prog, p)
  {
    forall r, x, i :: 0 <= r < pb.world && (x, i) in s.regs[r] && s.pos[r] == p + 3 ==>
      x.t < pb.m && i < pb.world && s.regs[r][(x, i)] == SerialP(pb, prog, p + 3, i, r * pb.m + x.t, x.c)
  }

  /** The rank has stored work item x in the read at position q, and entered no later read. */
  ghost predicate Stored<T>(prog: seq<Kernel>, s: State<T>, r: nat, q: nat, x: Task, reader: Kernel)
    requires r < |s.pos| == |s.done|
  {
    || (s.pos[r] == q && x in s.done[r])
    || (s.pos[r] > q && forall j :: q < j <= s.pos[r] && j < |prog| ==> prog[j] != reader)
  }

  ghost predicate NvlsCellOk<T>(pb: Problem<T>, prog: seq<Kernel>, p: nat, s: State<T>, r: nat, x: Task)
    requires Shape(pb, prog, s) && NvlsIteration(prog, p) && r < pb.world
  {
    Stored(prog, s, r, p + 3, x, Read) ==>
      s.yNvls(YCell(r, x.t, x.c)) == Fold(pb.alg, SerialColumn(pb, prog, p + 3, r * pb.m + x.t, x.c))
  }

  /** The iteration at p: P, the reader's registers, and y once it is stored. */
  ghost predicate NvlsInv<T>(pb: Problem<T>, prog: seq<Kernel>, p: nat, s: State<T>)
    requires Shape(pb, prog, s) && NvlsIteration(prog, p)
  {
    && PInv(pb, prog, s) && ReaderOk(pb, prog, p, s)
    && forall r, t, c :: 0 <= r < pb.world && 0 <= t < pb.m && 0 <= c < pb.chunks ==>
         NvlsCellOk(pb, prog, p, s, r, Task(t, 0, c))
  }

  lemma NvlsCellStep<T>(pb: Problem<T>, prog: seq<Kernel>, p: nat, s: State<T>, st: Step, r: nat, x: Task)
    requires Shape(pb, prog, s) && Enabled(pb, prog, s, st) && NvlsIteration(prog, p)
    requires r < pb.world && x.t < pb.m && x.k == 0 && x.c < pb.chunks && NvlsCellOk(pb, prog, p, s, r, x)
    requires st == Do(r, x) && s.pos[r] == p + 3 ==>
      Loaded(s.regs[r], x, pb.world) == SerialColumn(pb, prog, p + 3, r * pb.m + x.t, x.c)
    ensures NvlsCellOk(pb, prog, p, Apply(pb, prog, s, st), r, x)
  {
    if st == Advance(r) && s.pos[r] == p + 3 {
      assert IsTask(pb, r, prog[p + 3], x);
    }
  }

  lemma NvlsYStep<T>(pb: Problem<T>, prog: seq<Kernel>, p: nat, s: State<T>, st: Step)
    requires Shape(pb, prog, s) && NvlsIteration(prog, p) && NvlsInv(pb, prog, p, s) && Enabled(pb, prog, s, st)
    ensures forall r, t, c :: 0 <= r < pb.world && 0 <= t < pb.m && 0 <= c < pb.chunks ==>
      NvlsCellOk(pb, prog, p, Apply(pb, prog, s, st), r, Task(t, 0, c))
  {
    forall r, t, c | 0 <= r < pb.world && 0 <= t < pb.m && 0 <= c < pb.chunks
      ensures NvlsCellOk(pb, prog, p, Apply(pb, prog, s, st), r, Task(t, 0, c))
    {
      var x := Task(t, 0, c);
      if st == Do(r, x) && s.pos[r] == p + 3 {
        assert Loaded(s.regs[r], x, pb.world) == SerialColumn(pb, prog, p + 3, r * pb.m + t, c);
      }
      NvlsCellStep(pb, prog, p, s, st, r, x);
    }
  }

  /** The registers of the stepping rank, given that a load sees the finished column. */
  lemma NvlsRegsStep<T>(pb: Problem<T>, prog: seq<Kernel>, p: nat, s: State<T>, st: Step)
    requires Shape(pb, prog, s) && NvlsIteration(prog, p) && Enabled(pb, prog, s, st) && ReaderOk(pb, prog, p, s)
    requires st.Load? && s.pos[st.rank] == p + 3 ==>
      Operand(pb, s, st.rank, Read, st.x, st.i) == SerialP(pb, prog, p + 3, st.i, st.rank * pb.m + st.x.t, st.x.c)
    ensures ReaderOk(pb, prog, p, Apply(pb, prog, s, st))
  {
  }

  lemma NvlsInvStep<T(!new)>(pb: Problem<T>, prog: seq<Kernel>, p: nat, s: State<T>, st: Step)
    requires CommutativeMonoid(pb.alg) && NvlsIteration(prog, p) && Guarded(prog, p)
    requires Ordered(pb, prog, s) && NvlsInv(pb, prog, p, s) && Enabled(pb, prog, s, st)
    ensures NvlsInv(pb, prog, p, Apply(pb, prog, s, st))
  {
    PInvStep(pb, prog, s, st);
    NvlsYStep(pb, prog, p, s, st);
    var a := st.rank;
    if st.Load? && s.pos[a] == p + 3 {
      HomeToken(pb, a, st.x.t);
      PeerPStable(pb, prog, s, p, a, st.i, a * pb.m + st.x.t, st.x.c);
    }
    NvlsRegsStep(pb, prog, p, s, st);
  }

  // ----- the baseline reader sees the staged rows -----

  /** Some push stands before position p. */
  predicate PushedBefore(prog: seq<Kernel>, p: nat)
    requires p <= |prog|
  {
    exists i :: 0 <= i < p && prog[i].Push?
  }

  ghost predicate PushDone<T>(prog: seq<Kernel>, s: State<T>, w: nat, x: Task)
    requires w < |s.pos| == |s.done| && s.pos[w] <= |prog|
  {
    || PushedBefore(prog, s.pos[w])
    || (s.pos[w] < |prog| && prog[s.pos[w]].Push? && x in s.done[w])
  }

  /** A staging cell holds the contribution exactly when its one writer has pushed it. */
  ghost predicate StagingInv<T>(pb: Problem<T>, prog: seq<Kernel>, init: State<T>, s: State<T>)
    requires Shape(pb, prog, s) && pb.Valid()
  {
    forall r, lt, k, c :: 0 <= r < pb.world && 0 <= lt < pb.m && 0 <= k < pb.topk && 0 <= c < pb.chunks ==>
      StagedCell(pb, prog, init, s, r, lt, k, c)
  }

  ghost predicate StagedCell<T>(pb: Problem<T>, prog: seq<Kernel>, init: State<T>, s: State<T>, r: nat, lt: nat, k: nat,
                                c: nat)
    requires Shape(pb, prog, s) && pb.Valid()
    requires r < pb.world && lt < pb.m && k < pb.topk
  {
    HomeToken(pb, r, lt);
    var t := r * pb.m + lt;
    var cell := SCell(r, lt, k, c);
    s.staging(cell)
      == if PushDone(prog, s, pb.owner(t, k), Task(t, k, c)) then pb.contrib(t, k, c) else init.staging(cell)
  }

  lemma StagedCellStep<T>(pb: Problem<T>, prog: seq<Kernel>, init: State<T>, s: State<T>, st: Step, r: nat, lt: nat,
                          k: nat, c: nat)
    requires pb.Valid() && Shape(pb, prog, s) && Enabled(pb, prog, s, st)
    requires r < pb.world && lt < pb.m && k < pb.topk && c < pb.chunks && StagedCell(pb, prog, init, s, r, lt, k, c)
    ensures StagedCell(pb, prog, init, Apply(pb, prog, s, st), r, lt, k, c)
  {
    HomeToken(pb, r, lt);
    var t := r * pb.m + lt;
    var w := pb.owner(t, k);
    var p := s.pos[st.rank];
    if st.Do? && prog[p].Push? {
      DivModIff(st.x.t, pb.m, r, lt);
    } else if st == Advance(w) && prog[p].Push? {
      assert IsTask(pb, w, prog[p], Task(t, k, c));
    }
  }

  lemma StagingStep<T>(pb: Problem<T>, prog: seq<Kernel>, init: State<T>, s: State<T>, st: Step)
    requires pb.Valid() && Shape(pb, prog, s) && StagingInv(pb, prog, init, s)
    requires Enabled(pb, prog, s, st)
    ensures StagingInv(pb, prog, init, Apply(pb, prog, s, st))
  {
    forall r, lt, k, c | 0 <= r < pb.world && 0 <= lt < pb.m && 0 <= k < pb.topk && 0 <= c < pb.chunks
      ensures StagedCell(pb, prog, init, Apply(pb, prog, s, st), r, lt, k, c)
    {
      assert StagedCell(pb, prog, init, s, r, lt, k, c);
      StagedCellStep(pb, prog, init, s, st, r, lt, k, c);
    }
  }

  /** Once a rank is past a barrier that follows a push, every staged row of its tokens holds
      its contribution, and no later push can change that. */
  lemma PeerStagingStable<T>(pb: Problem<T>, prog: seq<Kernel>, init: State<T>, s: State<T>, p: nat, r: nat, lt: nat,
                             k: nat, c: nat)
    requires pb.Valid() && Ordered(pb, prog, s) && StagingInv(pb, prog, init, s) && BaseIteration(prog, p)
    requires r < pb.world && lt < pb.m && k < pb.topk && c < pb.chunks && s.pos[r] > p + 1
    ensures s.staging(SCell(r, lt, k, c)) == pb.contrib(r * pb.m + lt, k, c)
  {
    HomeToken(pb, r, lt);
    assert StagedCell(pb, prog, init, s, r, lt, k, c);
    var w := pb.owner(r * pb.m + lt, k);
    assert BarrierOk(pb, prog, s, p + 1) && Arrived(s, w, p + 1);
    assert PushedBefore(prog, s.pos[w]);
  }

  /** Whatever reduces behind the iteration's barrier have loaded are contributions. */
  ghost predicate ReducerOk<T>(pb: Problem<T>, prog: seq<Kernel>, p: nat, s: State<T>)
    requires Shape(pb, prog, s)
  {
    forall r, x, i ::
      0 <= r < pb.world && (x, i) in s.regs[r] && p + 1 < s.pos[r] < |prog| && prog[s.pos[r]].Reduce? ==>
      i < pb.topk && s.regs[r][(x, i)] == pb.contrib(r * pb.m + x.t, i, x.c)
  }

  ghost predicate BaseCellOk<T>(pb: Problem<T>, prog: seq<Kernel>, p: nat, s: State<T>, r: nat, x: Task)
    requires Shape(pb, prog, s) && r < pb.world
  {
    s.pos[r] > p + 2 || (s.pos[r] == p + 2 && x in s.done[r]) ==>
      s.yBase(YCell(r, x.t, x.c)) == Fold(pb.alg, Contribs(pb, r * pb.m + x.t, x.c))
  }

  /** The iteration at p: staging, the reducers' registers, and y once it is stored. */
  ghost predicate BaseInv<T>(pb: Problem<T>, prog: seq<Kernel>, init: State<T>, p: nat, s: State<T>)
    requires Shape(pb, prog, s) && pb.Valid()
  {
    && StagingInv(pb, prog, init, s) && ReducerOk(pb, prog, p, s)
    && forall r, t, c :: 0 <= r < pb.world && 0 <= t < pb.m && 0 <= c < pb.chunks ==>
         BaseCellOk(pb, prog, p, s, r, Task(t, 0, c))
  }

  lemma BaseCellStep<T>(pb: Problem<T>, prog: seq<Kernel>, p: nat, s: State<T>, st: Step, r: nat, x: Task)
    requires Shape(pb, prog, s) && Enabled(pb, prog, s, st) && BaseIteration(prog, p) && ReducerOk(pb, prog, p, s)
    requires r < pb.world && x.t < pb.m && x.k == 0 && x.c < pb.chunks && BaseCellOk(pb, prog, p, s, r, x)
    ensures BaseCellOk(pb, prog, p, Apply(pb, prog, s, st), r, x)
  {
    if st == Do(r, x) && s.pos[r] > p + 1 && prog[s.pos[r]].Reduce? {
      assert Loaded(s.regs[r], x, pb.topk) == Contribs(pb, r * pb.m + x.t, x.c);
    } else if st == Advance(r) && s.pos[r] == p + 2 {
      assert IsTask(pb, r, prog[p + 2], x);
    }
  }

  lemma BaseRegsStep<T>(pb: Problem<T>, prog: seq<Kernel>, p: nat, s: State<T>, st: Step)
    requires Shape(pb, prog, s) && Enabled(pb, prog, s, st) && ReducerOk(pb, prog, p, s)
    requires st.Load? && s.pos[st.rank] > p + 1 && prog[s.pos[st.rank]].Reduce? ==>
      Operand(pb, s, st.rank, Reduce, st.x, st.i) == pb.contrib(st.rank * pb.m + st.x.t, st.i, st.x.c)
    ensures ReducerOk(pb, prog, p, Apply(pb, prog, s, st))
  {
  }

  lemma BaseInvStep<T>(pb: Problem<T>, prog: seq<Kernel>, init: State<T>, p: nat, s: State<T>, st: Step)
    requires pb.Valid() && BaseIteration(prog, p)
    requires Ordered(pb, prog, s) && BaseInv(pb, prog, init, p, s) && Enabled(pb, prog, s, st)
    ensures BaseInv(pb, prog, init, p, Apply(pb, prog, s, st))
  {
    StagingStep(pb, prog, init, s, st);
    var a := st.rank;
    if st.Load? && s.pos[a] > p + 1 && prog[s.pos[a]].Reduce? {
      PeerStagingStable(pb, prog, init, s, p, a, st.x.t, st.i, st.x.c);
    }
    BaseRegsStep(pb, prog, p, s, st);
    forall r, t, c | 0 <= r < pb.world && 0 <= t < pb.m && 0 <= c < pb.chunks
      ensures BaseCellOk(pb, prog, p, Apply(pb, prog, s, st), r, Task(t, 0, c))
    {
      BaseCellStep(pb, prog, p, s, st, r, Task(t, 0, c));
    }
  }
}
