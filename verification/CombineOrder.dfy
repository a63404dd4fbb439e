/** What the barriers order: no rank is past a barrier that some rank has not reached. */
module CombineOrder {
  import opened Folds
  import opened CombineMachine

  /** Every barrier kernel uses a fresh slot. */
  ghost predicate DistinctSlots(prog: seq<Kernel>) {
    forall a, b :: 0 <= a < b < |prog| && prog[a].Barrier? && prog[b].Barrier? ==> prog[a].slot != prog[b].slot
  }

  predicate Arrived<T>(s: State<T>, q: nat, b: nat)
    requires q < |s.pos| == |s.done|
  {
    s.pos[q] > b || (s.pos[q] == b && ARRIVE in s.done[q])
  }

  ghost function ArrivedBits<T>(s: State<T>, b: nat): (bits: seq<bool>)
    requires |s.pos| == |s.done|
  {
    seq(|s.pos|, q requires 0 <= q < |s.pos| => Arrived(s, q, b))
  }

  /** The counter of barrier b counts exactly the ranks that arrived, and a rank is past b
      only if every rank has arrived. */
  ghost predicate BarrierOk<T>(pb: Problem<T>, prog: seq<Kernel>, s: State<T>, b: nat)
    requires Shape(pb, prog, s)
    requires b < |prog| && prog[b].Barrier?
  {
    && s.arrivals(prog[b].slot) == Count(ArrivedBits(s, b))
    && (forall r, q :: 0 <= r < pb.world && 0 <= q < pb.world && s.pos[r] > b ==> Arrived(s, q, b))
  }

  ghost predicate Ordered<T>(pb: Problem<T>, prog: seq<Kernel>, s: State<T>) {
    && Shape(pb, prog, s)
    && (forall r, x :: 0 <= r < pb.world && x in s.done[r] ==>
          s.pos[r] < |prog| && IsTask(pb, r, prog[s.pos[r]], x))
    && (forall b :: 0 <= b < |prog| && prog[b].Barrier? ==> BarrierOk(pb, prog, s, b))
  }

  lemma InitialOrdered<T(!new)>(pb: Problem<T>, prog: seq<Kernel>, s: State<T>)
    requires Initial(pb, prog, s)
    ensures Ordered(pb, prog, s)
  {
    forall b | 0 <= b < |prog| && prog[b].Barrier?
      ensures BarrierOk(pb, prog, s, b)
    {
      CountNone(ArrivedBits(s, b));
    }
  }

  lemma BarrierOkStep<T>(pb: Problem<T>, prog: seq<Kernel>, s: State<T>, st: Step, b: nat)
    requires Ordered(pb, prog, s) && DistinctSlots(prog)
    requires Enabled(pb, prog, s, st)
    requires b < |prog| && prog[b].Barrier?
    ensures BarrierOk(pb, prog, Apply(pb, prog, s, st), b)
  {
    assert BarrierOk(pb, prog, s, b);
    var s' := Apply(pb, prog, s, st);
    var before, after := ArrivedBits(s, b), ArrivedBits(s', b);
    var r := st.rank;
    if st.Do? && s.pos[r] == b {
      assert after == before[r := true];
      CountSwitchOn(before, r);
    } else {
      assert after == before;
      CountBounded(before);
      if st.Advance? && s.pos[r] == b {
        assert forall q :: 0 <= q < pb.world ==> before[q] == Arrived(s, q, b) == Arrived(s', q, b);
      }
      assert forall q :: 0 <= q < pb.world ==> before[q] == Arrived(s, q, b) && after[q] == Arrived(s', q, b);
    }
  }

  lemma OrderedStep<T>(pb: Problem<T>, prog: seq<Kernel>, s: State<T>, st: Step)
    requires Ordered(pb, prog, s) && DistinctSlots(prog)
    requires Enabled(pb, prog, s, st)
    ensures Ordered(pb, prog, Apply(pb, prog, s, st))
  {
    forall b | 0 <= b < |prog| && prog[b].Barrier?
      ensures BarrierOk(pb, prog, Apply(pb, prog, s, st), b)
    {
      BarrierOkStep(pb, prog, s, st, b);
    }
  }

  lemma {:induction false} OrderedRun<T>(pb: Problem<T>, prog: seq<Kernel>, s: State<T>, run: seq<Step>)
    requires Ordered(pb, prog, s) && DistinctSlots(prog)
    requires Legal(pb, prog, s, run)
    ensures Ordered(pb, prog, Exec(pb, prog, s, run))
    decreases |run|
  {
    if |run| > 0 {
      OrderedStep(pb, prog, s, run[0]);
      OrderedRun(pb, prog, Apply(pb, prog, s, run[0]), run[1..]);
    }
  }

  /** Kernels of different ranks that may not overlap: one writes memory the other touches.
      Pushes of different ranks go to disjoint staging cells, and a rank's Zero and Write
      touch only its own copy of P. */
  predicate Conflict(a: Kernel, b: Kernel) {
    || (a.Push? && b.Reduce?) || (a.Reduce? && b.Push?)
    || ((a.Zero? || a.Write?) && b.Read?) || (a.Read? && (b.Zero? || b.Write?))
  }

  ghost predicate BarrierBetween(prog: seq<Kernel>, p: nat, q: nat) {
    exists b :: p < b < q && b < |prog| && prog[b].Barrier?
  }

  /** Any two conflicting kernels of the stream have a barrier between them. */
  ghost predicate Separated(prog: seq<Kernel>) {
    forall p: nat, q: nat :: p < q < |prog| && Conflict(prog[p], prog[q]) ==> BarrierBetween(prog, p, q)
  }

  /** Two ranks are inside conflicting kernels at the same time. */
  ghost predicate Race<T>(pb: Problem<T>, prog: seq<Kernel>, s: State<T>)
    requires Shape(pb, prog, s)
  {
    exists r, q :: 0 <= r < pb.world && 0 <= q < pb.world && r != q
      && s.pos[r] < |prog| && s.pos[q] < |prog| && Conflict(prog[s.pos[r]], prog[s.pos[q]])
  }

  /** Ranks at different points of the stream have no barrier between their positions. */
  lemma NoBarrierBetweenRanks<T>(pb: Problem<T>, prog: seq<Kernel>, s: State<T>, r: nat, q: nat)
    requires Ordered(pb, prog, s)
    requires r < pb.world && q < pb.world
    ensures !BarrierBetween(prog, s.pos[q], s.pos[r])
  {
    forall b | 0 <= b < |prog| && prog[b].Barrier? && b < s.pos[r]
      ensures b <= s.pos[q]
    {
      assert BarrierOk(pb, prog, s, b);
      assert Arrived(s, q, b);
    }
  }

  lemma SeparatedNeverRaces<T>(pb: Problem<T>, prog: seq<Kernel>, s: State<T>)
    requires Ordered(pb, prog, s) && Separated(prog)
    ensures !Race(pb, prog, s)
  {
    forall r, q | 0 <= r < pb.world && 0 <= q < pb.world && r != q && s.pos[r] < |prog| && s.pos[q] < |prog|
      ensures !Conflict(prog[s.pos[r]], prog[s.pos[q]])
    {
      NoBarrierBetweenRanks(pb, prog, s, r, q);
      NoBarrierBetweenRanks(pb, prog, s, q, r);
    }
  }
}
