/** The cross-rank combine as a state machine. Every rank runs the same stream of kernels in
    order; the work items of a kernel run in any order; ranks interleave freely; memory is
    sequentially consistent. A reader loads its operands one at a time into registers and
    stores only when all of them have arrived. */
module CombineMachine {
  import opened Folds
  import opened Memory

  /** The shape and data of one run. `owner(t, k)` is the rank that holds the expert chosen
      for token t in slot k; `contrib(t, k, c)` is 16-byte chunk c of its contribution. */
  datatype Problem<!T> = Problem(
    world: nat,
    m: nat,
    topk: nat,
    chunks: nat,
    owner: (nat, nat) -> nat,
    contrib: (nat, nat, nat) -> T,
    alg: Algebra<T>)
  {
    function Tokens(): nat { world * m }

    ghost predicate Valid() {
      forall t: nat, k: nat :: t < Tokens() && k < topk ==> owner(t, k) < world
    }
  }

  /** A barrier instance: a device flag slot, or one host-side synchronize plus barrier. */
  datatype Slot = Flag(i: nat) | Host(i: nat)

  datatype Kernel = Push | Reduce | Zero | Write | Read | Barrier(slot: Slot)

  datatype Task = Task(t: nat, k: nat, c: nat)

  const ARRIVE := Task(0, 0, 0)

  datatype PCell = PCell(rank: nat, t: nat, c: nat)
  datatype SCell = SCell(rank: nat, t: nat, k: nat, c: nat)
  datatype YCell = YCell(rank: nat, t: nat, c: nat)

  datatype State<!T> = State(
    pos: seq<nat>,
    done: seq<set<Task>>,
    regs: seq<map<(Task, nat), T>>,
    arrivals: Slot -> int,
    part: PCell -> T,
    staging: SCell -> T,
    yBase: YCell -> T,
    yNvls: YCell -> T)

  datatype Step = Load(rank: nat, x: Task, i: nat) | Do(rank: nat, x: Task) | Advance(rank: nat)

  /** The work items of a kernel on rank r: one per pair and chunk for the writers, one per
      row and chunk for the others, a single arrival for a barrier. */
  predicate IsTask<T>(pb: Problem<T>, r: nat, kern: Kernel, x: Task) {
    match kern
    case Push | Write =>
      x.t < pb.Tokens() && x.k < pb.topk && x.c < pb.chunks && pb.owner(x.t, x.k) == r
    case Zero => x.t < pb.Tokens() && x.k == 0 && x.c < pb.chunks
    case Reduce | Read => x.t < pb.m && x.k == 0 && x.c < pb.chunks
    case Barrier(_) => x == ARRIVE
  }

  function Operands<T>(pb: Problem<T>, kern: Kernel): nat {
    match kern
    case Reduce => pb.topk
    case Read => pb.world
    case _ => 0
  }

  /** What the i-th load of a reader's work item sees: the i-th staged row of the token, or
      rank i's copy of the token's row of P. */
  function Operand<T>(pb: Problem<T>, s: State<T>, r: nat, kern: Kernel, x: Task, i: nat): T {
    match kern
    case Reduce => s.staging(SCell(r, x.t, i, x.c))
    case _ => s.part(PCell(i, r * pb.m + x.t, x.c))
  }

  ghost predicate Shape<T>(pb: Problem<T>, prog: seq<Kernel>, s: State<T>) {
    && |s.pos| == |s.done| == |s.regs| == pb.world
    && (forall r :: 0 <= r < pb.world ==> s.pos[r] <= |prog|)
  }

  ghost predicate Finished<T>(pb: Problem<T>, s: State<T>, r: nat, kern: Kernel)
    requires r < |s.done|
  {
    && (forall x: Task :: IsTask(pb, r, kern, x) ==> x in s.done[r])
    && (kern.Barrier? ==> s.arrivals(kern.slot) == pb.world)
  }

  ghost predicate Enabled<T>(pb: Problem<T>, prog: seq<Kernel>, s: State<T>, st: Step)
    requires Shape(pb, prog, s)
  {
    && st.rank < pb.world
    && s.pos[st.rank] < |prog|
    && var kern := prog[s.pos[st.rank]];
    match st
    case Load(r, x, i) =>
      IsTask(pb, r, kern, x) && x !in s.done[r] && i < Operands(pb, kern) && (x, i) !in s.regs[r]
    case Do(r, x) =>
      && IsTask(pb, r, kern, x) && x !in s.done[r]
      && (forall i: nat :: i < Operands(pb, kern) ==> (x, i) in s.regs[r])
    case Advance(r) => Finished(pb, s, r, kern)
  }

  /** The values a reader has loaded for one work item, in operand order. */
  function Loaded<T>(regs: map<(Task, nat), T>, x: Task, n: nat): seq<T>
    requires forall i: nat :: i < n ==> (x, i) in regs
  {
    seq(n, i requires 0 <= i < n => regs[(x, i)])
  }

  /** The memory effect of one work item. */
  ghost function Effect<T>(pb: Problem<T>, s: State<T>, r: nat, kern: Kernel, x: Task): State<T>
    requires r < |s.regs|
    requires forall i: nat :: i < Operands(pb, kern) ==> (x, i) in s.regs[r]
    requires kern.Push? ==> pb.m > 0
  {
    match kern
    case Push =>
      s.(staging := Upd(s.staging, SCell(x.t / pb.m, x.t % pb.m, x.k, x.c), pb.contrib(x.t, x.k, x.c)))
    case Zero => s.(part := Upd(s.part, PCell(r, x.t, x.c), pb.alg.zero))
    case Write =>
      var cell := PCell(r, x.t, x.c);
      s.(part := Upd(s.part, cell, pb.alg.add(s.part(cell), pb.contrib(x.t, x.k, x.c))))
    case Reduce =>
      s.(yBase := Upd(s.yBase, YCell(r, x.t, x.c), Fold(pb.alg, Loaded(s.regs[r], x, pb.topk))))
    case Read =>
      s.(yNvls := Upd(s.yNvls, YCell(r, x.t, x.c), Fold(pb.alg, Loaded(s.regs[r], x, pb.world))))
    case Barrier(slot) => s.(arrivals := Upd(s.arrivals, slot, s.arrivals(slot) + 1))
  }

  ghost function Apply<T>(pb: Problem<T>, prog: seq<Kernel>, s: State<T>, st: Step): (s': State<T>)
    requires Shape(pb, prog, s)
    requires Enabled(pb, prog, s, st)
    ensures Shape(pb, prog, s')
  {
    var kern := prog[s.pos[st.rank]];
    match st
    case Load(r, x, i) =>
      s.(regs := s.regs[r := s.regs[r][(x, i) := Operand(pb, s, r, kern, x, i)]])
    case Do(r, x) =>
      Effect(pb, s, r, kern, x).(done := s.done[r := s.done[r] + {x}])
    case Advance(r) =>
      s.(pos := s.pos[r := s.pos[r] + 1], done := s.done[r := {}], regs := s.regs[r := map[]])
  }

  /** A run: each step is enabled where it is taken. */
  ghost predicate Legal<T>(pb: Problem<T>, prog: seq<Kernel>, s: State<T>, run: seq<Step>)
    requires Shape(pb, prog, s)
    decreases |run|
  {
    |run| == 0 || (Enabled(pb, prog, s, run[0]) && Legal(pb, prog, Apply(pb, prog, s, run[0]), run[1..]))
  }

  ghost function Exec<T>(pb: Problem<T>, prog: seq<Kernel>, s: State<T>, run: seq<Step>): (s': State<T>)
    requires Shape(pb, prog, s)
    requires Legal(pb, prog, s, run)
    ensures Shape(pb, prog, s')
    decreases |run|
  {
    if |run| == 0 then s else Exec(pb, prog, Apply(pb, prog, s, run[0]), run[1..])
  }

  /** Every rank before its first kernel. P and the flags start zeroed; staging and y start
      with whatever their memory held. */
  ghost predicate Initial<T(!new)>(pb: Problem<T>, prog: seq<Kernel>, s: State<T>) {
    && Shape(pb, prog, s)
    && (forall r :: 0 <= r < pb.world ==> s.pos[r] == 0 && s.done[r] == {} && s.regs[r] == map[])
    && (forall slot :: s.arrivals(slot) == 0)
    && (forall cell :: s.part(cell) == pb.alg.zero)
  }
}
