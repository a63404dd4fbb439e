/** The two-shot grid can always be run on: from every reachable state, until every CTA of every
    rank has left any given launch. */
module TwoShotProgress {
  import opened TwoShot

  // ----- sums of naturals -----

  function SumOf(xs: seq<nat>): nat {
    if |xs| == 0 then 0 else SumOf(xs[..|xs| - 1]) + xs[|xs| - 1]
  }

  lemma {:induction false} SumUpdate(xs: seq<nat>, i: nat, v: nat)
    requires i < |xs|
    ensures SumOf(xs[i := v]) + xs[i] == SumOf(xs) + v
    decreases |xs|
  {
    var n := |xs| - 1;
    if i == n {
      assert xs[i := v][..n] == xs[..n];
    } else {
      assert xs[i := v][..n] == xs[..n][i := v];
      SumUpdate(xs[..n], i, v);
    }
  }

  // ----- what a CTA, a column and the grid still have to do -----

  ghost function Elems<T>(pb: Problem<T>): set<Elem> {
    set j: nat, e: nat | j < pb.tiles && e < pb.elems :: Elem(j, e)
  }

  ghost function Moves<T>(pb: Problem<T>): set<Move> {
    set j: nat, e: nat, q: nat | j < pb.tiles && e < pb.elems && q < pb.world :: Move(Elem(j, e), q)
  }

  function Minus(a: nat, b: nat): nat { if b <= a then a - b else 0 }

  /** Steps left in the present launch, but for leaving it. */
  ghost function Work<T>(pb: Problem<T>, cta: Cta<T>): nat {
    |Elems(pb) - cta.written| + Minus(pb.tiles, cta.arrived) + Minus(pb.tiles, cta.waited)
    + |Moves(pb) - cta.regs.Keys| + |Moves(pb) - cta.stored| + if cta.atEnd then 0 else 1
  }

  ghost function CtasWork<T>(pb: Problem<T>, ctas: seq<Cta<T>>): nat {
    SumOf(seq(|ctas|, r requires 0 <= r < |ctas| => Work(pb, ctas[r])))
  }

  ghost function ColumnWork<T>(pb: Problem<T>, s: State<T>): nat { CtasWork(pb, s.ctas) }

  /** Launches the CTAs of a column have left up to launch k. */
  ghost function ColumnLag<T>(s: State<T>, k: nat): nat {
    SumOf(seq(|s.ctas|, r requires 0 <= r < |s.ctas| => Minus(k, s.ctas[r].launch)))
  }

  ghost function GridWork<T>(pbs: seq<Problem<T>>, cols: seq<State<T>>): nat
    requires |pbs| == |cols|
  {
    SumOf(seq(|cols|, x requires 0 <= x < |cols| => ColumnWork(pbs[x], cols[x])))
  }

  ghost function GridLag<T>(cols: seq<State<T>>, k: nat): nat {
    SumOf(seq(|cols|, x requires 0 <= x < |cols| => ColumnLag(cols[x], k)))
  }

  lemma OneFewer<A>(all: set<A>, had: set<A>, x: A)
    requires x in all && x !in had
    ensures |all - (had + {x})| < |all - had|
  {
    assert all - had == (all - (had + {x})) + {x};
  }

  lemma StoreTileWork<T>(pb: Problem<T>, cta: Cta<T>, x: Elem)
    requires InTile(pb, x) && x !in cta.written
    ensures Work(pb, cta.(written := cta.written + {x})) < Work(pb, cta)
  {
    assert x == Elem(x.j, x.e);
    OneFewer(Elems(pb), cta.written, x);
  }

  lemma LoadWork<T>(pb: Problem<T>, cta: Cta<T>, mv: Move, v: T)
    requires InTile(pb, mv.x) && mv.peer < pb.world && mv !in cta.regs
    ensures Work(pb, cta.(regs := cta.regs[mv := v])) < Work(pb, cta)
  {
    assert mv == Move(Elem(mv.x.j, mv.x.e), mv.peer);
    OneFewer(Moves(pb), cta.regs.Keys, mv);
    assert cta.regs[mv := v].Keys == cta.regs.Keys + {mv};
  }

  lemma StoreWork<T>(pb: Problem<T>, cta: Cta<T>, mv: Move)
    requires InTile(pb, mv.x) && mv.peer < pb.world && mv !in cta.stored
    ensures Work(pb, cta.(stored := cta.stored + {mv})) < Work(pb, cta)
  {
    assert mv == Move(Elem(mv.x.j, mv.x.e), mv.peer);
    OneFewer(Moves(pb), cta.stored, mv);
  }

  lemma CounterWork<T>(pb: Problem<T>, cta: Cta<T>)
    ensures cta.arrived < pb.tiles ==> Work(pb, cta.(arrived := cta.arrived + 1)) < Work(pb, cta)
    ensures cta.waited < pb.tiles ==> Work(pb, cta.(waited := cta.waited + 1)) < Work(pb, cta)
    ensures !cta.atEnd ==> Work(pb, cta.(atEnd := true)) < Work(pb, cta)
  {
  }

  /** The CTA after a step that is not its leaving. */
  ghost function CtaAfter<T>(s: State<T>, st: Step): Cta<T>
    requires st.r < |s.ctas|
  {
    var cta := s.ctas[st.r];
    match st
    case StoreTile(_, x) => cta.(written := cta.written + {x})
    case Arrive(_) => cta.(arrived := cta.arrived + 1)
    case Wait(_) => cta.(waited := cta.waited + 1)
    case LoadC(_, mv) => cta.(regs := cta.regs[mv := s.c(CCell(mv.peer, mv.x))])
    case StoreC(_, mv) => cta.(stored := cta.stored + {mv})
    case EndArrive(_) => cta.(atEnd := true)
    case Leave(_) => Cta(cta.launch + 1, {}, 0, 0, map[], {}, false)
  }

  lemma OnlyCtaAfter<T>(pb: Problem<T>, s: State<T>, st: Step)
    requires |s.ctas| == pb.world && Enabled(pb, s, st)
    ensures Apply(pb, s, st).ctas == s.ctas[st.r := CtaAfter(s, st)]
  {
  }

  /** Every step but leaving brings its CTA closer to the end of the launch. */
  lemma StepDoesWork<T>(pb: Problem<T>, s: State<T>, st: Step)
    requires |s.ctas| == pb.world && Enabled(pb, s, st) && !st.Leave?
    ensures Work(pb, CtaAfter(s, st)) < Work(pb, s.ctas[st.r])
  {
    var cta := s.ctas[st.r];
    match st
    case StoreTile(_, x) => StoreTileWork(pb, cta, x);
    case LoadC(_, mv) => LoadWork(pb, cta, mv, s.c(CCell(mv.peer, mv.x)));
    case StoreC(_, mv) => StoreWork(pb, cta, mv);
    case _ => CounterWork(pb, cta);
  }

  /** Only the stepping CTA changes, and its launch only when it leaves. */
  lemma LagProgress<T>(pb: Problem<T>, s: State<T>, st: Step, k: nat)
    requires |s.ctas| == pb.world && Enabled(pb, s, st) && s.ctas[st.r].launch < k
    ensures var s' := Apply(pb, s, st);
      if st.Leave? then ColumnLag(s', k) < ColumnLag(s, k) else ColumnLag(s', k) == ColumnLag(s, k)
  {
    var s' := Apply(pb, s, st);
    var own := Minus(k, s'.ctas[st.r].launch);
    var lag := seq(|s.ctas|, r requires 0 <= r < |s.ctas| => Minus(k, s.ctas[r].launch));
    var lag' := seq(|s'.ctas|, r requires 0 <= r < |s'.ctas| => Minus(k, s'.ctas[r].launch));
    assert lag' == lag[st.r := own];
    SumUpdate(lag, st.r, own);
  }

  lemma WorkProgress<T>(pb: Problem<T>, s: State<T>, st: Step)
    requires |s.ctas| == pb.world && Enabled(pb, s, st) && !st.Leave?
    ensures ColumnWork(pb, Apply(pb, s, st)) < ColumnWork(pb, s)
  {
    StepDoesWork(pb, s, st);
    OnlyCtaAfter(pb, s, st);
    WorkOfUpdate(pb, s.ctas, st.r, CtaAfter(s, st));
  }

  lemma WorkOfUpdate<T>(pb: Problem<T>, ctas: seq<Cta<T>>, r: nat, cta: Cta<T>)
    requires r < |ctas|
    ensures CtasWork(pb, ctas[r := cta]) + Work(pb, ctas[r]) == CtasWork(pb, ctas) + Work(pb, cta)
  {
    var ctas' := ctas[r := cta];
    var work := seq(|ctas|, q requires 0 <= q < |ctas| => Work(pb, ctas[q]));
    var work' := seq(|ctas'|, q requires 0 <= q < |ctas'| => Work(pb, ctas'[q]));
    assert work' == work[r := Work(pb, cta)];
    SumUpdate(work, r, Work(pb, cta));
  }

  ghost function Next<T>(pbs: seq<Problem<T>>, cols: seq<State<T>>, world: nat, g: GridStep): seq<State<T>>
    requires GridShape(pbs, cols, world) && GridEnabled(pbs, cols, world, g)
  {
    cols[g.x := Apply(pbs[g.x], cols[g.x], g.st)]
  }

  lemma GridProgress<T>(pbs: seq<Problem<T>>, cols: seq<State<T>>, world: nat, g: GridStep, k: nat)
    requires GridShape(pbs, cols, world) && GridEnabled(pbs, cols, world, g) && cols[g.x].ctas[g.st.r].launch < k
    ensures var cols' := Next(pbs, cols, world, g);
      if g.st.Leave? then GridLag(cols', k) < GridLag(cols, k)
      else GridLag(cols', k) == GridLag(cols, k) && GridWork(pbs, cols') < GridWork(pbs, cols)
  {
    var cols' := Next(pbs, cols, world, g);
    LagProgress(pbs[g.x], cols[g.x], g.st, k);
    var lag := seq(|cols|, x requires 0 <= x < |cols| => ColumnLag(cols[x], k));
    var lag' := seq(|cols'|, x requires 0 <= x < |cols'| => ColumnLag(cols'[x], k));
    assert lag' == lag[g.x := ColumnLag(cols'[g.x], k)];
    SumUpdate(lag, g.x, ColumnLag(cols'[g.x], k));
    if !g.st.Leave? {
      GridWorkProgress(pbs, cols, world, g);
    }
  }

  lemma GridWorkProgress<T>(pbs: seq<Problem<T>>, cols: seq<State<T>>, world: nat, g: GridStep)
    requires GridShape(pbs, cols, world) && GridEnabled(pbs, cols, world, g) && !g.st.Leave?
    ensures GridWork(pbs, Next(pbs, cols, world, g)) < GridWork(pbs, cols)
  {
    var cols' := Next(pbs, cols, world, g);
    WorkProgress(pbs[g.x], cols[g.x], g.st);
    var own := ColumnWork(pbs[g.x], cols'[g.x]);
    var work := seq(|cols|, x requires 0 <= x < |cols| => ColumnWork(pbs[x], cols[x]));
    var work' := seq(|cols'|, x requires 0 <= x < |cols'| => ColumnWork(pbs[x], cols'[x]));
    assert work' == work[g.x := own];
    SumUpdate(work, g.x, own);
  }

  ghost predicate GridFlagInv<T>(pbs: seq<Problem<T>>, cols: seq<State<T>>)
    requires |pbs| == |cols|
  {
    forall x :: 0 <= x < |cols| ==> FlagInv(pbs[x], cols[x])
  }

  ghost predicate AllLeft<T>(cols: seq<State<T>>, world: nat, k: nat)
    requires forall x :: 0 <= x < |cols| ==> |cols[x].ctas| == world
  {
    forall x, r :: 0 <= x < |cols| && 0 <= r < world ==> cols[x].ctas[r].launch >= k
  }

  /** While some CTA is behind, a CTA of the lowest launch can step. */
  lemma StepBehind<T>(pbs: seq<Problem<T>>, cols: seq<State<T>>, world: nat, k: nat) returns (g: GridStep)
    requires GridShape(pbs, cols, world) && GridFlagInv(pbs, cols) && !AllLeft(cols, world, k)
    ensures GridEnabled(pbs, cols, world, g) && cols[g.x].ctas[g.st.r].launch < k
  {
    var x, r := LowestColumn(cols, world, |cols|);
    var st := SomeStep(pbs[x], cols[x], r);
    g := GridStep(x, st);
  }

  lemma NextKeepsInv<T>(pbs: seq<Problem<T>>, cols: seq<State<T>>, world: nat, g: GridStep)
    requires GridShape(pbs, cols, world) && GridFlagInv(pbs, cols) && GridEnabled(pbs, cols, world, g)
    ensures GridShape(pbs, Next(pbs, cols, world, g), world) && GridFlagInv(pbs, Next(pbs, cols, world, g))
  {
    FlagInvStep(pbs[g.x], cols[g.x], g.st);
  }

  lemma StepThen<T>(pbs: seq<Problem<T>>, cols: seq<State<T>>, world: nat, g: GridStep, rest: seq<GridStep>)
    requires GridShape(pbs, cols, world) && GridEnabled(pbs, cols, world, g)
    requires GridLegal(pbs, Next(pbs, cols, world, g), world, rest)
    ensures GridLegal(pbs, cols, world, [g] + rest)
    ensures GridExec(pbs, cols, world, [g] + rest) == GridExec(pbs, Next(pbs, cols, world, g), world, rest)
  {
    var run := [g] + rest;
    assert run[0] == g && run[1..] == rest;
  }

  lemma {:induction false} GridRunOn<T>(pbs: seq<Problem<T>>, cols: seq<State<T>>, world: nat, k: nat)
    returns (run: seq<GridStep>)
    requires GridShape(pbs, cols, world) && GridFlagInv(pbs, cols)
    ensures GridLegal(pbs, cols, world, run) && AllLeft(GridExec(pbs, cols, world, run), world, k)
    decreases GridLag(cols, k), GridWork(pbs, cols)
  {
    if AllLeft(cols, world, k) {
      run := [];
    } else {
      var g := StepBehind(pbs, cols, world, k);
      GridProgress(pbs, cols, world, g, k);
      NextKeepsInv(pbs, cols, world, g);
      var rest := GridRunOn(pbs, Next(pbs, cols, world, g), world, k);
      StepThen(pbs, cols, world, g, rest);
      run := [g] + rest;
    }
  }

  /** Whatever the grid has done so far, it can go on until every CTA of every rank has left
      launch k - 1: no launch can be blocked for good. */
  lemma GridCanRunTo<T(!new)>(pbs: seq<Problem<T>>, init: seq<State<T>>, world: nat, run: seq<GridStep>, k: nat)
    returns (more: seq<GridStep>)
    requires GridInitial(pbs, init, world) && GridLegal(pbs, init, world, run)
    ensures var cols := GridExec(pbs, init, world, run);
      GridLegal(pbs, cols, world, more) && AllLeft(GridExec(pbs, cols, world, more), world, k)
  {
    var cols := GridExec(pbs, init, world, run);
    forall x | 0 <= x < |cols|
      ensures FlagInv(pbs[x], cols[x])
    {
      ColumnInv(pbs, init, world, run, x);
    }
    more := GridRunOn(pbs, cols, world, k);
  }
}
