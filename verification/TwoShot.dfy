/** The in-place two-shot all-reduce fused into the GEMM: one CTA index across all ranks, over
    any number of launches. The epilogue stores the rank's partial tile and arrives on the
    tile's flag copy of every rank; the all-reduce warps wait for W arrivals, reset their own
    copy, sum their own slice over all ranks and store the sum to all ranks; a per-CTA barrier
    across ranks ends the launch. */
module TwoShot {
  import opened Folds
  import opened Memory

  /** `owner(j, e)` is the rank whose slice of tile j holds element e; `partial(k, r, j, e)` is
      what rank r's GEMM computes for it in launch k. */
  datatype Problem<!T> = Problem(
    world: nat,
    tiles: nat,
    elems: nat,
    owner: (nat, nat) -> nat,
    partial: (nat, nat, nat, nat) -> T,
    alg: Algebra<T>)
  {
    ghost predicate Valid() {
      forall j: nat, e: nat :: j < tiles && e < elems ==> owner(j, e) < world
    }

    /** The all-reduced value of one element in launch k. */
    ghost function Total(k: nat, j: nat, e: nat): T {
      Fold(alg, seq(world, q requires 0 <= q < world => partial(k, q, j, e)))
    }
  }

  datatype Elem = Elem(j: nat, e: nat)
  datatype Move = Move(x: Elem, peer: nat)
  datatype FlagCell = FlagCell(rank: nat, j: nat)
  datatype CCell = CCell(rank: nat, x: Elem)

  /** One CTA on one rank. */
  datatype Cta<!T> = Cta(
    launch: nat,
    written: set<Elem>,
    arrived: nat,
    waited: nat,
    regs: map<Move, T>,
    stored: set<Move>,
    atEnd: bool)

  datatype State<!T> = State(
    ctas: seq<Cta<T>>,
    flag: FlagCell -> int,
    endFlag: int -> int,
    c: CCell -> T)

  datatype Step =
    | StoreTile(r: nat, x: Elem)
    | Arrive(r: nat)
    | Wait(r: nat)
    | LoadC(r: nat, mv: Move)
    | StoreC(r: nat, mv: Move)
    | EndArrive(r: nat)
    | Leave(r: nat)

  ghost predicate InTile<T>(pb: Problem<T>, x: Elem) { x.j < pb.tiles && x.e < pb.elems }

  /** Element x belongs to rank r's slice of a tile whose flag r has consumed. */
  ghost predicate Reducible<T>(pb: Problem<T>, s: State<T>, r: nat, mv: Move)
    requires r < |s.ctas|
  {
    InTile(pb, mv.x) && mv.peer < pb.world && pb.owner(mv.x.j, mv.x.e) == r && mv.x.j < s.ctas[r].waited
  }

  ghost predicate AllLoaded<T>(pb: Problem<T>, cta: Cta<T>, x: Elem) {
    forall q: nat :: q < pb.world ==> Move(x, q) in cta.regs
  }

  ghost predicate SliceStored<T>(pb: Problem<T>, r: nat, cta: Cta<T>) {
    forall mv: Move :: InTile(pb, mv.x) && mv.peer < pb.world && pb.owner(mv.x.j, mv.x.e) == r ==> mv in cta.stored
  }

  ghost predicate Enabled<T>(pb: Problem<T>, s: State<T>, st: Step)
    requires |s.ctas| == pb.world
  {
    && st.r < pb.world
    && var cta := s.ctas[st.r];
    match st
    case StoreTile(r, x) => InTile(pb, x) && x.j == cta.arrived && x !in cta.written
    case Arrive(r) =>
      cta.arrived < pb.tiles && forall e: nat :: e < pb.elems ==> Elem(cta.arrived, e) in cta.written
    case Wait(r) => cta.waited < pb.tiles && s.flag(FlagCell(r, cta.waited)) == pb.world
    case LoadC(r, mv) => Reducible(pb, s, r, mv) && mv !in cta.regs
    case StoreC(r, mv) => Reducible(pb, s, r, mv) && AllLoaded(pb, cta, mv.x) && mv !in cta.stored
    case EndArrive(r) => cta.waited == pb.tiles && SliceStored(pb, r, cta) && !cta.atEnd
    case Leave(r) => cta.atEnd && s.endFlag(r) == pb.world
  }

  ghost function Sum<T>(pb: Problem<T>, cta: Cta<T>, x: Elem): T
    requires AllLoaded(pb, cta, x)
  {
    Fold(pb.alg, seq(pb.world, q requires 0 <= q < pb.world => cta.regs[Move(x, q)]))
  }

  ghost function Apply<T>(pb: Problem<T>, s: State<T>, st: Step): (s': State<T>)
    requires |s.ctas| == pb.world && Enabled(pb, s, st)
    ensures |s'.ctas| == pb.world
  {
    var r := st.r;
    var cta := s.ctas[r];
    match st
    case StoreTile(_, x) =>
      s.(c := Upd(s.c, CCell(r, x), pb.partial(cta.launch, r, x.j, x.e)),
         ctas := s.ctas[r := cta.(written := cta.written + {x})])
    case Arrive(_) =>
      s.(flag := (f: FlagCell) => if f.rank < pb.world && f.j == cta.arrived then s.flag(f) + 1 else s.flag(f),
         ctas := s.ctas[r := cta.(arrived := cta.arrived + 1)])
    case Wait(_) =>
      s.(flag := Upd(s.flag, FlagCell(r, cta.waited), 0), ctas := s.ctas[r := cta.(waited := cta.waited + 1)])
    case LoadC(_, mv) =>
      s.(ctas := s.ctas[r := cta.(regs := cta.regs[mv := s.c(CCell(mv.peer, mv.x))])])
    case StoreC(_, mv) =>
      s.(c := Upd(s.c, CCell(mv.peer, mv.x), Sum(pb, cta, mv.x)),
         ctas := s.ctas[r := cta.(stored := cta.stored + {mv})])
    case EndArrive(_) =>
      s.(endFlag := (q: int) => if 0 <= q < pb.world then s.endFlag(q) + 1 else s.endFlag(q),
         ctas := s.ctas[r := cta.(atEnd := true)])
    case Leave(_) =>
      s.(endFlag := Upd(s.endFlag, r, 0), ctas := s.ctas[r := Cta(cta.launch + 1, {}, 0, 0, map[], {}, false)])
  }

  ghost predicate Initial<T(!new)>(pb: Problem<T>, s: State<T>) {
    && |s.ctas| == pb.world
    && (forall r :: 0 <= r < pb.world ==> s.ctas[r] == Cta(0, {}, 0, 0, map[], {}, false))
    && (forall f :: s.flag(f) == 0)
    && (forall q :: s.endFlag(q) == 0)
  }

  ghost predicate Legal<T>(pb: Problem<T>, s: State<T>, run: seq<Step>)
    requires |s.ctas| == pb.world
    decreases |run|
  {
    |run| == 0 || (Enabled(pb, s, run[0]) && Legal(pb, Apply(pb, s, run[0]), run[1..]))
  }

  ghost function Exec<T>(pb: Problem<T>, s: State<T>, run: seq<Step>): (s': State<T>)
    requires |s.ctas| == pb.world && Legal(pb, s, run)
    ensures |s'.ctas| == pb.world
    decreases |run|
  {
    if |run| == 0 then s else Exec(pb, Apply(pb, s, run[0]), run[1..])
  }

  // ----- the flag protocol -----

  /** Arrivals of rank s on tile j, and resets by rank r of its copy, over all launches. */
  function Arrivals<T>(cta: Cta<T>, j: nat): nat { cta.launch + if cta.arrived > j then 1 else 0 }

  function Resets<T>(cta: Cta<T>, j: nat): nat { cta.launch + if cta.waited > j then 1 else 0 }

  function Ends<T>(cta: Cta<T>): nat { cta.launch + if cta.atEnd then 1 else 0 }

  ghost function Pending<T>(s: State<T>, r: nat, j: nat): (bits: seq<bool>)
    requires r < |s.ctas|
  {
    seq(|s.ctas|, q requires 0 <= q < |s.ctas| => Arrivals(s.ctas[q], j) > Resets(s.ctas[r], j))
  }

  ghost function EndPending<T>(s: State<T>, r: nat): (bits: seq<bool>)
    requires r < |s.ctas|
  {
    seq(|s.ctas|, q requires 0 <= q < |s.ctas| => Ends(s.ctas[q]) > s.ctas[r].launch)
  }

  ghost predicate TileOk<T>(pb: Problem<T>, s: State<T>, r: nat, j: nat)
    requires |s.ctas| == pb.world && r < pb.world
  {
    && s.flag(FlagCell(r, j)) == Count(Pending(s, r, j))
    && forall q :: 0 <= q < pb.world ==> Resets(s.ctas[r], j) <= Arrivals(s.ctas[q], j) <= Resets(s.ctas[r], j) + 1
  }

  ghost predicate EndOk<T>(pb: Problem<T>, s: State<T>, r: nat)
    requires |s.ctas| == pb.world && r < pb.world
  {
    && s.endFlag(r) == Count(EndPending(s, r))
    && forall q :: 0 <= q < pb.world ==> s.ctas[r].launch <= Ends(s.ctas[q]) <= s.ctas[r].launch + 1
  }

  ghost predicate CtaOk<T>(pb: Problem<T>, r: nat, cta: Cta<T>) {
    && cta.arrived <= pb.tiles && cta.waited <= pb.tiles
    && (cta.atEnd ==> cta.waited == pb.tiles && SliceStored(pb, r, cta))
    && (forall x :: x in cta.written ==> InTile(pb, x) && x.j <= cta.arrived)
    && (forall x: Elem :: InTile(pb, x) && x.j < cta.arrived ==> x in cta.written)
    && (forall mv :: mv in cta.regs ==>
          InTile(pb, mv.x) && mv.peer < pb.world && pb.owner(mv.x.j, mv.x.e) == r && mv.x.j < cta.waited)
    && (forall mv :: mv in cta.stored ==> mv in cta.regs && AllLoaded(pb, cta, mv.x))
  }

  ghost predicate FlagInv<T>(pb: Problem<T>, s: State<T>) {
    && |s.ctas| == pb.world
    && (forall r :: 0 <= r < pb.world ==> CtaOk(pb, r, s.ctas[r]) && EndOk(pb, s, r))
    && (forall r, j :: 0 <= r < pb.world && 0 <= j < pb.tiles ==> TileOk(pb, s, r, j))
  }

  lemma InitialFlagInv<T(!new)>(pb: Problem<T>, s: State<T>)
    requires Initial(pb, s)
    ensures FlagInv(pb, s)
  {
    forall r | 0 <= r < pb.world
      ensures EndOk(pb, s, r)
    {
      CountNone(EndPending(s, r));
    }
    forall r, j | 0 <= r < pb.world && 0 <= j < pb.tiles
      ensures TileOk(pb, s, r, j)
    {
      CountNone(Pending(s, r, j));
    }
  }

  /** No rank is more than one launch ahead, and one that is ahead left everyone else at the
      end barrier. */
  lemma LaunchGap<T>(pb: Problem<T>, s: State<T>, r: nat, q: nat)
    requires FlagInv(pb, s) && r < pb.world && q < pb.world
    ensures s.ctas[q].launch <= s.ctas[r].launch + 1
    ensures s.ctas[r].launch < s.ctas[q].launch ==> s.ctas[r].atEnd
  {
    assert EndOk(pb, s, q);
  }

  lemma TileOkArrive<T>(pb: Problem<T>, s: State<T>, a: nat, r: nat, j: nat)
    requires |s.ctas| == pb.world && r < pb.world && j < pb.tiles && TileOk(pb, s, r, j)
    requires Enabled(pb, s, Arrive(a))
    requires s.ctas[a].arrived == j ==> s.ctas[a].launch <= Resets(s.ctas[r], j)
    ensures TileOk(pb, Apply(pb, s, Arrive(a)), r, j)
  {
    var before, after := Pending(s, r, j), Pending(Apply(pb, s, Arrive(a)), r, j);
    if s.ctas[a].arrived == j {
      assert after == before[a := true];
      CountSwitchOn(before, a);
    } else {
      assert after == before;
    }
  }

  lemma TileOkWait<T>(pb: Problem<T>, s: State<T>, a: nat, r: nat, j: nat)
    requires |s.ctas| == pb.world && r < pb.world && j < pb.tiles && TileOk(pb, s, r, j)
    requires Enabled(pb, s, Wait(a))
    ensures TileOk(pb, Apply(pb, s, Wait(a)), r, j)
  {
    var before, after := Pending(s, r, j), Pending(Apply(pb, s, Wait(a)), r, j);
    if a == r && s.ctas[r].waited == j {
      CountBounded(before);
      assert forall q :: 0 <= q < pb.world ==> before[q] == (Arrivals(s.ctas[q], j) > Resets(s.ctas[r], j));
      CountNone(after);
    } else {
      assert after == before;
    }
  }

  lemma TileOkLeave<T>(pb: Problem<T>, s: State<T>, a: nat, r: nat, j: nat)
    requires |s.ctas| == pb.world && r < pb.world && j < pb.tiles && TileOk(pb, s, r, j)
    requires Enabled(pb, s, Leave(a)) && TileOk(pb, s, a, j) && s.ctas[a].waited == pb.tiles
    ensures TileOk(pb, Apply(pb, s, Leave(a)), r, j)
  {
    assert Resets(s.ctas[a], j) <= Arrivals(s.ctas[a], j);
    assert Pending(Apply(pb, s, Leave(a)), r, j) == Pending(s, r, j);
  }

  lemma TileOkOther<T>(pb: Problem<T>, s: State<T>, st: Step, r: nat, j: nat)
    requires |s.ctas| == pb.world && r < pb.world && j < pb.tiles && TileOk(pb, s, r, j)
    requires Enabled(pb, s, st) && !st.Arrive? && !st.Wait? && !st.Leave?
    ensures TileOk(pb, Apply(pb, s, st), r, j)
  {
    assert Pending(Apply(pb, s, st), r, j) == Pending(s, r, j);
  }

  lemma TileOkStep<T>(pb: Problem<T>, s: State<T>, st: Step, r: nat, j: nat)
    requires FlagInv(pb, s) && Enabled(pb, s, st)
    requires r < pb.world && j < pb.tiles
    ensures TileOk(pb, Apply(pb, s, st), r, j)
  {
    assert TileOk(pb, s, r, j);
    match st {
      case Arrive(a) =>
        LaunchGap(pb, s, r, a);
        assert CtaOk(pb, r, s.ctas[r]);
        TileOkArrive(pb, s, a, r, j);
      case Wait(a) => TileOkWait(pb, s, a, r, j);
      case Leave(a) =>
        assert CtaOk(pb, a, s.ctas[a]) && TileOk(pb, s, a, j);
        TileOkLeave(pb, s, a, r, j);
      case _ => TileOkOther(pb, s, st, r, j);
    }
  }

  lemma EndOkArrive<T>(pb: Problem<T>, s: State<T>, a: nat, r: nat)
    requires |s.ctas| == pb.world && r < pb.world && EndOk(pb, s, r)
    requires Enabled(pb, s, EndArrive(a)) && s.ctas[a].launch <= s.ctas[r].launch
    ensures EndOk(pb, Apply(pb, s, EndArrive(a)), r)
  {
    var before := EndPending(s, r);
    assert EndPending(Apply(pb, s, EndArrive(a)), r) == before[a := true];
    CountSwitchOn(before, a);
  }

  lemma EndOkLeave<T>(pb: Problem<T>, s: State<T>, a: nat, r: nat)
    requires |s.ctas| == pb.world && r < pb.world && EndOk(pb, s, r)
    requires Enabled(pb, s, Leave(a))
    ensures EndOk(pb, Apply(pb, s, Leave(a)), r)
  {
    var before, after := EndPending(s, r), EndPending(Apply(pb, s, Leave(a)), r);
    if a == r {
      CountBounded(before);
      assert forall q :: 0 <= q < pb.world ==> before[q] == (Ends(s.ctas[q]) > s.ctas[r].launch);
      CountNone(after);
    } else {
      assert after == before;
    }
  }

  lemma EndOkOther<T>(pb: Problem<T>, s: State<T>, st: Step, r: nat)
    requires |s.ctas| == pb.world && r < pb.world && EndOk(pb, s, r)
    requires Enabled(pb, s, st) && !st.EndArrive? && !st.Leave?
    ensures EndOk(pb, Apply(pb, s, st), r)
  {
    assert EndPending(Apply(pb, s, st), r) == EndPending(s, r);
  }

  /** A CTA with at least one tile reaches the end barrier only after every rank has entered
      its launch: the tile flag waited for all of them. */
  lemma EveryoneStarted<T>(pb: Problem<T>, s: State<T>, a: nat, r: nat)
    requires FlagInv(pb, s) && pb.tiles > 0
    requires a < pb.world && r < pb.world && s.ctas[a].waited == pb.tiles
    ensures s.ctas[a].launch <= s.ctas[r].launch
  {
    assert TileOk(pb, s, a, 0);
  }

  lemma EndOkStep<T>(pb: Problem<T>, s: State<T>, st: Step, r: nat)
    requires FlagInv(pb, s) && Enabled(pb, s, st) && pb.tiles > 0
    requires r < pb.world
    ensures EndOk(pb, Apply(pb, s, st), r)
  {
    assert EndOk(pb, s, r);
    match st {
      case EndArrive(a) =>
        EveryoneStarted(pb, s, a, r);
        EndOkArrive(pb, s, a, r);
      case Leave(a) => EndOkLeave(pb, s, a, r);
      case _ => EndOkOther(pb, s, st, r);
    }
  }

  lemma CtaOkStep<T>(pb: Problem<T>, s: State<T>, st: Step)
    requires |s.ctas| == pb.world && Enabled(pb, s, st) && CtaOk(pb, st.r, s.ctas[st.r])
    ensures CtaOk(pb, st.r, Apply(pb, s, st).ctas[st.r])
  {
    var cta' := Apply(pb, s, st).ctas[st.r];
    if st.Arrive? {
      forall x: Elem | InTile(pb, x) && x.j < cta'.arrived
        ensures x in cta'.written
      {
        assert x == Elem(x.j, x.e);
      }
    }
  }

  lemma FlagInvStep<T>(pb: Problem<T>, s: State<T>, st: Step)
    requires FlagInv(pb, s) && Enabled(pb, s, st) && pb.tiles > 0
    ensures FlagInv(pb, Apply(pb, s, st))
  {
    var s' := Apply(pb, s, st);
    forall r | 0 <= r < pb.world
      ensures CtaOk(pb, r, s'.ctas[r]) && EndOk(pb, s', r)
    {
      assert CtaOk(pb, r, s.ctas[r]);
      if r == st.r {
        CtaOkStep(pb, s, st);
      }
      EndOkStep(pb, s, st, r);
    }
    forall r, j | 0 <= r < pb.world && 0 <= j < pb.tiles
      ensures TileOk(pb, s', r, j)
    {
      TileOkStep(pb, s, st, r, j);
    }
  }

  // ----- the data -----

  /** The owner of x has stored launch k's sum of x into rank q's C. */
  ghost predicate StoredIn<T>(owner: Cta<T>, k: nat, mv: Move) {
    owner.launch > k || (owner.launch == k && mv in owner.stored)
  }

  /** Rank q's C holds, for element x: the last launch's sum until the epilogue overwrites it,
      then q's own partial until the owner's store, then this launch's sum. */
  ghost predicate ElemOk<T>(pb: Problem<T>, s: State<T>, q: nat, x: Elem)
    requires |s.ctas| == pb.world && pb.Valid() && q < pb.world && InTile(pb, x)
  {
    var cta := s.ctas[q];
    var k, v := cta.launch, s.c(CCell(q, x));
    if x !in cta.written then k > 0 ==> v == pb.Total(k - 1, x.j, x.e)
    else if StoredIn(s.ctas[pb.owner(x.j, x.e)], k, Move(x, q)) then v == pb.Total(k, x.j, x.e)
    else v == pb.partial(k, q, x.j, x.e)
  }

  ghost predicate RegOk<T>(pb: Problem<T>, cta: Cta<T>) {
    forall mv :: mv in cta.regs ==> cta.regs[mv] == pb.partial(cta.launch, mv.peer, mv.x.j, mv.x.e)
  }

  ghost predicate DataInv<T>(pb: Problem<T>, s: State<T>)
    requires pb.Valid()
  {
    && |s.ctas| == pb.world
    && (forall q, x :: 0 <= q < pb.world && InTile(pb, x) ==> ElemOk(pb, s, q, x))
    && (forall r :: 0 <= r < pb.world ==> RegOk(pb, s.ctas[r]))
  }

  /** While rank r still has to move element x for peer q, q is in the same launch and has
      stored its partial of x. */
  lemma PeerInStep<T>(pb: Problem<T>, s: State<T>, r: nat, mv: Move)
    requires FlagInv(pb, s) && r < pb.world && Reducible(pb, s, r, mv) && mv !in s.ctas[r].stored
    ensures s.ctas[mv.peer].launch == s.ctas[r].launch && mv.x in s.ctas[mv.peer].written
  {
    assert TileOk(pb, s, r, mv.x.j);
    LaunchGap(pb, s, r, mv.peer);
    assert CtaOk(pb, r, s.ctas[r]) && CtaOk(pb, mv.peer, s.ctas[mv.peer]);
  }

  /** No owner has stored an element that the epilogue has not arrived for. */
  lemma NotYetStored<T>(pb: Problem<T>, s: State<T>, q: nat, x: Elem)
    requires FlagInv(pb, s) && pb.Valid() && q < pb.world && InTile(pb, x) && x.j >= s.ctas[q].arrived
    ensures !StoredIn(s.ctas[pb.owner(x.j, x.e)], s.ctas[q].launch, Move(x, q))
  {
    var o := pb.owner(x.j, x.e);
    assert TileOk(pb, s, o, x.j);
    assert CtaOk(pb, o, s.ctas[o]);
  }

  /** When a rank may leave the end barrier, every owner has stored into its C. */
  lemma AllStoredAtEnd<T>(pb: Problem<T>, s: State<T>, r: nat, x: Elem)
    requires FlagInv(pb, s) && pb.Valid() && r < pb.world && InTile(pb, x) && Enabled(pb, s, Leave(r))
    ensures x in s.ctas[r].written && StoredIn(s.ctas[pb.owner(x.j, x.e)], s.ctas[r].launch, Move(x, r))
  {
    var o := pb.owner(x.j, x.e);
    assert EndOk(pb, s, r) && CtaOk(pb, r, s.ctas[r]) && CtaOk(pb, o, s.ctas[o]) && TileOk(pb, s, r, x.j);
    CountBounded(EndPending(s, r));
    assert EndPending(s, r)[o] == (Ends(s.ctas[o]) > s.ctas[r].launch);
  }

  lemma SumIsTotal<T>(pb: Problem<T>, cta: Cta<T>, x: Elem)
    requires AllLoaded(pb, cta, x) && RegOk(pb, cta)
    ensures Sum(pb, cta, x) == pb.Total(cta.launch, x.j, x.e)
  {
    assert seq(pb.world, q requires 0 <= q < pb.world => cta.regs[Move(x, q)])
        == seq(pb.world, q requires 0 <= q < pb.world => pb.partial(cta.launch, q, x.j, x.e));
  }

  /** When rank a may leave, every rank is at, or just past, the same end barrier. */
  lemma LeaveFacts<T>(pb: Problem<T>, s: State<T>, a: nat, q: nat)
    requires FlagInv(pb, s) && q < pb.world && Enabled(pb, s, Leave(a))
    ensures Ends(s.ctas[q]) == s.ctas[a].launch + 1 && SliceStored(pb, a, s.ctas[a])
  {
    assert EndOk(pb, s, a) && CtaOk(pb, a, s.ctas[a]);
    CountBounded(EndPending(s, a));
    assert EndPending(s, a)[q] == (Ends(s.ctas[q]) > s.ctas[a].launch);
  }

  lemma ElemOkLeave<T>(pb: Problem<T>, s: State<T>, a: nat, q: nat, x: Elem)
    requires |s.ctas| == pb.world && pb.Valid() && Enabled(pb, s, Leave(a))
    requires q < pb.world && InTile(pb, x) && ElemOk(pb, s, q, x)
    requires Ends(s.ctas[q]) == s.ctas[a].launch + 1 && SliceStored(pb, a, s.ctas[a])
    requires q == a ==> x in s.ctas[a].written && StoredIn(s.ctas[pb.owner(x.j, x.e)], s.ctas[a].launch, Move(x, a))
    ensures ElemOk(pb, Apply(pb, s, Leave(a)), q, x)
  {
  }

  lemma ElemOkStoreTile<T>(pb: Problem<T>, s: State<T>, a: nat, y: Elem, q: nat, x: Elem)
    requires |s.ctas| == pb.world && pb.Valid() && Enabled(pb, s, StoreTile(a, y))
    requires q < pb.world && InTile(pb, x) && ElemOk(pb, s, q, x)
    requires a == q && y == x ==> !StoredIn(s.ctas[pb.owner(x.j, x.e)], s.ctas[q].launch, Move(x, q))
    ensures ElemOk(pb, Apply(pb, s, StoreTile(a, y)), q, x)
  {
  }

  lemma ElemOkStoreC<T>(pb: Problem<T>, s: State<T>, a: nat, mv: Move, q: nat, x: Elem)
    requires |s.ctas| == pb.world && pb.Valid() && Enabled(pb, s, StoreC(a, mv))
    requires q < pb.world && InTile(pb, x) && ElemOk(pb, s, q, x)
    requires mv == Move(x, q) ==>
      s.ctas[q].launch == s.ctas[a].launch && x in s.ctas[q].written
      && Sum(pb, s.ctas[a], x) == pb.Total(s.ctas[a].launch, x.j, x.e)
    ensures ElemOk(pb, Apply(pb, s, StoreC(a, mv)), q, x)
  {
  }

  lemma ElemOkOther<T>(pb: Problem<T>, s: State<T>, st: Step, q: nat, x: Elem)
    requires |s.ctas| == pb.world && pb.Valid() && Enabled(pb, s, st)
    requires !st.StoreTile? && !st.StoreC? && !st.Leave?
    requires q < pb.world && InTile(pb, x) && ElemOk(pb, s, q, x)
    ensures ElemOk(pb, Apply(pb, s, st), q, x)
  {
  }

  lemma ElemOkStep<T>(pb: Problem<T>, s: State<T>, st: Step, q: nat, x: Elem)
    requires FlagInv(pb, s) && pb.Valid() && DataInv(pb, s) && Enabled(pb, s, st)
    requires q < pb.world && InTile(pb, x)
    ensures ElemOk(pb, Apply(pb, s, st), q, x)
  {
    assert ElemOk(pb, s, q, x);
    match st {
      case StoreTile(a, y) =>
        if a == q && y == x {
          NotYetStored(pb, s, q, x);
        }
        ElemOkStoreTile(pb, s, a, y, q, x);
      case StoreC(a, mv) =>
        if mv == Move(x, q) {
          PeerInStep(pb, s, a, mv);
          assert RegOk(pb, s.ctas[a]);
          SumIsTotal(pb, s.ctas[a], x);
        }
        ElemOkStoreC(pb, s, a, mv, q, x);
      case Leave(a) =>
        LeaveFacts(pb, s, a, q);
        if q == a {
          AllStoredAtEnd(pb, s, a, x);
        }
        ElemOkLeave(pb, s, a, q, x);
      case _ => ElemOkOther(pb, s, st, q, x);
    }
  }

  lemma RegOkStep<T>(pb: Problem<T>, s: State<T>, st: Step)
    requires FlagInv(pb, s) && pb.Valid() && DataInv(pb, s) && Enabled(pb, s, st)
    ensures RegOk(pb, Apply(pb, s, st).ctas[st.r])
  {
    assert RegOk(pb, s.ctas[st.r]);
    if st.LoadC? {
      var mv := st.mv;
      assert CtaOk(pb, st.r, s.ctas[st.r]);
      assert mv !in s.ctas[st.r].stored;
      PeerInStep(pb, s, st.r, mv);
      assert ElemOk(pb, s, mv.peer, mv.x);
    }
  }

  lemma DataInvStep<T>(pb: Problem<T>, s: State<T>, st: Step)
    requires FlagInv(pb, s) && pb.Valid() && DataInv(pb, s) && Enabled(pb, s, st)
    ensures DataInv(pb, Apply(pb, s, st))
  {
    var s' := Apply(pb, s, st);
    forall q, x | 0 <= q < pb.world && InTile(pb, x)
      ensures ElemOk(pb, s', q, x)
    {
      ElemOkStep(pb, s, st, q, x);
    }
    forall r | 0 <= r < pb.world
      ensures RegOk(pb, s'.ctas[r])
    {
      assert RegOk(pb, s.ctas[r]);
      if r == st.r {
        RegOkStep(pb, s, st);
      }
    }
  }

  lemma {:induction false} InvRun<T>(pb: Problem<T>, s: State<T>, run: seq<Step>)
    requires pb.Valid() && pb.tiles > 0
    requires FlagInv(pb, s) && DataInv(pb, s) && Legal(pb, s, run)
    ensures FlagInv(pb, Exec(pb, s, run)) && DataInv(pb, Exec(pb, s, run))
    decreases |run|
  {
    if |run| > 0 {
      FlagInvStep(pb, s, run[0]);
      DataInvStep(pb, s, run[0]);
      InvRun(pb, Apply(pb, s, run[0]), run[1..]);
    }
  }

  lemma ReachableInv<T(!new)>(pb: Problem<T>, init: State<T>, run: seq<Step>)
    requires pb.Valid() && pb.tiles > 0 && Initial(pb, init) && Legal(pb, init, run)
    ensures FlagInv(pb, Exec(pb, init, run)) && DataInv(pb, Exec(pb, init, run))
  {
    InitialFlagInv(pb, init);
    assert DataInv(pb, init);
    InvRun(pb, init, run);
  }

  // ----- main theorems -----

  /** v is the partials of launch k of all ranks, each once, added to zero. */
  ghost predicate PartialsAdded<T(!new)>(pb: Problem<T>, k: nat, x: Elem, v: T) {
    AddedUp(pb.alg, pb.world, (q: nat) => pb.partial(k, q, x.j, x.e), v)
  }

  lemma TotalAdds<T(!new)>(pb: Problem<T>, k: nat, x: Elem)
    ensures PartialsAdded(pb, k, x, pb.Total(k, x.j, x.e))
  {
    var xs := seq(pb.world, q requires 0 <= q < pb.world => pb.partial(k, q, x.j, x.e));
    FoldAddsUp(pb.alg, xs, (q: nat) => pb.partial(k, q, x.j, x.e));
  }

  /** When a rank has left the end barrier of launch k, every element of its C is the sum of all
      ranks' partials of launch k, until its own next epilogue overwrites the element. */
  lemma AllReduceCorrect<T(!new)>(pb: Problem<T>, init: State<T>, run: seq<Step>, r: nat, x: Elem, k: nat)
    requires pb.Valid() && pb.tiles > 0 && Initial(pb, init) && Legal(pb, init, run)
    requires r < pb.world && InTile(pb, x)
    requires var cta := Exec(pb, init, run).ctas[r]; cta.launch == k + 1 && x !in cta.written
    ensures Exec(pb, init, run).c(CCell(r, x)) == pb.Total(k, x.j, x.e)
    ensures PartialsAdded(pb, k, x, Exec(pb, init, run).c(CCell(r, x)))
  {
    TotalAdds(pb, k, x);
    ReachableInv(pb, init, run);
    assert ElemOk(pb, Exec(pb, init, run), r, x);
  }

  ghost predicate FlagsWithin<T>(pb: Problem<T>, s: State<T>) {
    && (forall r: nat, j: nat :: r < pb.world && j < pb.tiles ==> 0 <= s.flag(FlagCell(r, j)) <= pb.world)
    && (forall r: nat :: r < pb.world ==> 0 <= s.endFlag(r) <= pb.world)
  }

  lemma FlagInvWithin<T>(pb: Problem<T>, s: State<T>)
    requires FlagInv(pb, s)
    ensures FlagsWithin(pb, s)
  {
    forall r: nat, i: nat | r < pb.world && i < pb.tiles
      ensures 0 <= s.flag(FlagCell(r, i)) <= pb.world
    {
      assert TileOk(pb, s, r, i);
      CountBounded(Pending(s, r, i));
    }
    forall r: nat | r < pb.world
      ensures 0 <= s.endFlag(r) <= pb.world
    {
      assert EndOk(pb, s, r);
      CountBounded(EndPending(s, r));
    }
  }

  /** Over any number of launches no flag copy ever exceeds W. */
  lemma FlagsNeverOverflow<T(!new)>(pb: Problem<T>, init: State<T>, run: seq<Step>)
    requires pb.Valid() && pb.tiles > 0 && Initial(pb, init) && Legal(pb, init, run)
    ensures FlagsWithin(pb, Exec(pb, init, run))
  {
    ReachableInv(pb, init, run);
    FlagInvWithin(pb, Exec(pb, init, run));
  }

  /** No rank has arrived for tile j in rank a's present launch. */
  ghost predicate NoneArrived<T>(pb: Problem<T>, s: State<T>, a: nat, j: nat)
    requires a < |s.ctas| == pb.world
  {
    forall q :: 0 <= q < pb.world ==> Arrivals(s.ctas[q], j) <= s.ctas[a].launch
  }

  /** If some rank is in launch k and nobody has arrived for tile j in launch k yet, every copy
      of the tile's flag is 0: all arrivals of the launches before were consumed by resets. */
  lemma FlagsResetBetweenLaunches<T(!new)>(pb: Problem<T>, init: State<T>, run: seq<Step>, a: nat, r: nat, j: nat)
    requires pb.Valid() && pb.tiles > 0 && Initial(pb, init) && Legal(pb, init, run)
    requires a < pb.world && r < pb.world && j < pb.tiles && NoneArrived(pb, Exec(pb, init, run), a, j)
    ensures Exec(pb, init, run).flag(FlagCell(r, j)) == 0
  {
    ReachableInv(pb, init, run);
    FlagZero(pb, Exec(pb, init, run), a, r, j);
  }

  lemma FlagZero<T>(pb: Problem<T>, s: State<T>, a: nat, r: nat, j: nat)
    requires FlagInv(pb, s) && a < pb.world && r < pb.world && j < pb.tiles
    requires NoneArrived(pb, s, a, j)
    ensures s.flag(FlagCell(r, j)) == 0
  {
    assert TileOk(pb, s, r, j);
    assert CtaOk(pb, r, s.ctas[r]);
    LaunchGap(pb, s, r, a);
    CountNone(Pending(s, r, j));
  }

  // ----- no deadlock -----

  /** No rank can take away another's step: what is enabled stays enabled until it is taken,
      waiting for a flag and leaving the end barrier included. */
  lemma StaysEnabled<T(!new)>(pb: Problem<T>, init: State<T>, run: seq<Step>, st: Step, other: Step)
    requires pb.Valid() && pb.tiles > 0 && Initial(pb, init) && Legal(pb, init, run)
    requires var s := Exec(pb, init, run); Enabled(pb, s, st) && Enabled(pb, s, other) && st.r != other.r
    ensures var s := Exec(pb, init, run); Enabled(pb, Apply(pb, s, st), other)
  {
    var s := Exec(pb, init, run);
    ReachableInv(pb, init, run);
    FlagInvStep(pb, s, st);
    FlagInvWithin(pb, Apply(pb, s, st));
    KeepsEnabled(pb, s, st, other);
  }

  lemma KeepsEnabled<T>(pb: Problem<T>, s: State<T>, st: Step, other: Step)
    requires |s.ctas| == pb.world && Enabled(pb, s, st) && Enabled(pb, s, other) && st.r != other.r
    requires FlagsWithin(pb, Apply(pb, s, st))
    ensures Enabled(pb, Apply(pb, s, st), other)
  {
    var s' := Apply(pb, s, st);
    assert s'.ctas[other.r] == s.ctas[other.r];
    if other.Wait? {
      assert s'.flag(FlagCell(other.r, s.ctas[other.r].waited)) <= pb.world;
    } else if other.Leave? {
      assert s'.endFlag(other.r) <= pb.world;
    }
  }

  lemma MinLaunch<T>(ctas: seq<Cta<T>>) returns (r: nat)
    requires |ctas| > 0
    ensures r < |ctas| && forall q :: 0 <= q < |ctas| ==> ctas[r].launch <= ctas[q].launch
  {
    r := 0;
    for i := 0 to |ctas|
      invariant r < |ctas| && forall q :: 0 <= q < i ==> ctas[r].launch <= ctas[q].launch
    {
      if ctas[i].launch < ctas[r].launch {
        r := i;
      }
    }
  }

  /** An epilogue with tiles left can always take a step. */
  lemma EpilogueMoves<T>(pb: Problem<T>, s: State<T>, r: nat) returns (st: Step)
    requires |s.ctas| == pb.world && r < pb.world && s.ctas[r].arrived < pb.tiles
    ensures Enabled(pb, s, st) && st.r == r
  {
    var j := s.ctas[r].arrived;
    if e: nat :| e < pb.elems && Elem(j, e) !in s.ctas[r].written {
      st := StoreTile(r, Elem(j, e));
    } else {
      st := Arrive(r);
    }
  }

  /** Some step is enabled, and it is one of a rank in the lowest launch. */
  lemma SomeStep<T>(pb: Problem<T>, s: State<T>, r: nat) returns (st: Step)
    requires FlagInv(pb, s) && r < pb.world
    requires forall q :: 0 <= q < pb.world ==> s.ctas[r].launch <= s.ctas[q].launch
    ensures Enabled(pb, s, st) && s.ctas[st.r].launch == s.ctas[r].launch
  {
    var k := s.ctas[r].launch;
    if a :| 0 <= a < pb.world && s.ctas[a].launch == k && s.ctas[a].arrived < pb.tiles {
      st := EpilogueMoves(pb, s, a);
    } else if a :| 0 <= a < pb.world && s.ctas[a].launch == k && !s.ctas[a].atEnd {
      assert forall q :: 0 <= q < pb.world ==> CtaOk(pb, q, s.ctas[q]);
      st := LowestMoves(pb, s, a);
    } else {
      AllAtEndMayLeave(pb, s, r);
      st := Leave(r);
    }
  }

  /** When every rank is at the end barrier of the lowest launch, or past it, its ranks may leave. */
  lemma AllAtEndMayLeave<T>(pb: Problem<T>, s: State<T>, r: nat)
    requires |s.ctas| == pb.world && r < pb.world && EndOk(pb, s, r)
    requires forall q :: 0 <= q < pb.world ==>
      s.ctas[q].launch > s.ctas[r].launch || (s.ctas[q].launch == s.ctas[r].launch && s.ctas[q].atEnd)
    ensures Enabled(pb, s, Leave(r))
  {
    CountBounded(EndPending(s, r));
  }

  /** A rank of the lowest launch that is not at the end barrier can move once every rank has
      arrived for every tile of that launch. */
  lemma LowestMoves<T>(pb: Problem<T>, s: State<T>, r: nat) returns (st: Step)
    requires FlagInv(pb, s) && r < pb.world && !s.ctas[r].atEnd
    requires forall q, j :: 0 <= q < pb.world && 0 <= j < pb.tiles ==> Arrivals(s.ctas[q], j) > s.ctas[r].launch
    ensures Enabled(pb, s, st) && st.r == r
  {
    assert CtaOk(pb, r, s.ctas[r]);
    var j := s.ctas[r].waited;
    if j < pb.tiles {
      st := Wait(r);
      assert TileOk(pb, s, r, j);
      CountBounded(Pending(s, r, j));
    } else {
      st := SliceMoves(pb, s, r);
    }
  }

  /** After its last wait a rank finishes its slice and arrives at the end barrier. */
  lemma SliceMoves<T>(pb: Problem<T>, s: State<T>, r: nat) returns (st: Step)
    requires |s.ctas| == pb.world && r < pb.world && !s.ctas[r].atEnd && s.ctas[r].waited == pb.tiles
    ensures Enabled(pb, s, st) && st.r == r
  {
    var cta := s.ctas[r];
    if mv: Move :| InTile(pb, mv.x) && mv.peer < pb.world && pb.owner(mv.x.j, mv.x.e) == r && mv !in cta.stored {
      if q: nat :| q < pb.world && Move(mv.x, q) !in cta.regs {
        st := LoadC(r, Move(mv.x, q));
      } else {
        st := StoreC(r, mv);
      }
    } else {
      st := EndArrive(r);
    }
  }

  // ----- the whole grid -----

  /** All CTAs of the grid: `cols[x]` is CTA x on every rank. */
  datatype GridStep = GridStep(x: nat, st: Step)

  ghost predicate GridShape<T>(pbs: seq<Problem<T>>, cols: seq<State<T>>, world: nat) {
    && |pbs| == |cols|
    && (forall x :: 0 <= x < |pbs| ==>
          pbs[x].world == world && pbs[x].Valid() && pbs[x].tiles > 0 && |cols[x].ctas| == world)
  }

  /** A rank's CTA runs in launch k only when all CTAs of the rank have finished the launches
      before: kernels of one rank run in stream order. */
  ghost predicate GridEnabled<T>(pbs: seq<Problem<T>>, cols: seq<State<T>>, world: nat, g: GridStep)
    requires GridShape(pbs, cols, world)
  {
    && g.x < |cols| && Enabled(pbs[g.x], cols[g.x], g.st)
    && forall y :: 0 <= y < |cols| ==> cols[y].ctas[g.st.r].launch >= cols[g.x].ctas[g.st.r].launch
  }

  ghost predicate GridLegal<T>(pbs: seq<Problem<T>>, cols: seq<State<T>>, world: nat, run: seq<GridStep>)
    requires GridShape(pbs, cols, world)
    decreases |run|
  {
    |run| == 0 ||
    (GridEnabled(pbs, cols, world, run[0]) &&
     GridLegal(pbs, cols[run[0].x := Apply(pbs[run[0].x], cols[run[0].x], run[0].st)], world, run[1..]))
  }

  ghost function GridExec<T>(pbs: seq<Problem<T>>, cols: seq<State<T>>, world: nat, run: seq<GridStep>)
    : (cols': seq<State<T>>)
    requires GridShape(pbs, cols, world) && GridLegal(pbs, cols, world, run)
    ensures GridShape(pbs, cols', world)
    decreases |run|
  {
    if |run| == 0 then cols
    else GridExec(pbs, cols[run[0].x := Apply(pbs[run[0].x], cols[run[0].x], run[0].st)], world, run[1..])
  }

  /** Each CTA column of a grid run is a run of the column alone. */
  lemma {:induction false} Project<T>(pbs: seq<Problem<T>>, cols: seq<State<T>>, world: nat, run: seq<GridStep>,
                                      x: nat) returns (col: seq<Step>)
    requires GridShape(pbs, cols, world) && GridLegal(pbs, cols, world, run) && x < |cols|
    ensures Legal(pbs[x], cols[x], col) && Exec(pbs[x], cols[x], col) == GridExec(pbs, cols, world, run)[x]
    decreases |run|
  {
    if |run| == 0 {
      col := [];
    } else {
      var g := run[0];
      var next := cols[g.x := Apply(pbs[g.x], cols[g.x], g.st)];
      var rest := Project(pbs, next, world, run[1..], x);
      if g.x == x {
        col := [g.st] + rest;
        assert col[0] == g.st && col[1..] == rest;
      } else {
        col := rest;
      }
    }
  }

  ghost predicate GridInitial<T(!new)>(pbs: seq<Problem<T>>, cols: seq<State<T>>, world: nat) {
    GridShape(pbs, cols, world) && forall x :: 0 <= x < |cols| ==> Initial(pbs[x], cols[x])
  }

  /** When rank r's kernel of launch k has completed (all its CTAs have left) and the next has
      not touched element e, the element holds the sum over all ranks, in any run of the grid. */
  lemma GridAllReduceCorrect<T(!new)>(pbs: seq<Problem<T>>, init: seq<State<T>>, world: nat, run: seq<GridStep>, x: nat,
                                      r: nat, e: Elem, k: nat)
    requires GridInitial(pbs, init, world) && GridLegal(pbs, init, world, run)
    requires x < |init| && r < world && InTile(pbs[x], e)
    requires var cta := GridExec(pbs, init, world, run)[x].ctas[r]; cta.launch == k + 1 && e !in cta.written
    ensures GridExec(pbs, init, world, run)[x].c(CCell(r, e)) == pbs[x].Total(k, e.j, e.e)
    ensures PartialsAdded(pbs[x], k, e, GridExec(pbs, init, world, run)[x].c(CCell(r, e)))
  {
    var col := Project(pbs, init, world, run, x);
    AllReduceCorrect(pbs[x], init[x], col, r, e, k);
  }

  lemma ColumnInv<T(!new)>(pbs: seq<Problem<T>>, init: seq<State<T>>, world: nat, run: seq<GridStep>, x: nat)
    requires GridInitial(pbs, init, world) && GridLegal(pbs, init, world, run) && x < |init|
    ensures FlagInv(pbs[x], GridExec(pbs, init, world, run)[x])
  {
    var col := Project(pbs, init, world, run, x);
    ReachableInv(pbs[x], init[x], col);
  }

  lemma {:induction false} LowestColumn<T>(cols: seq<State<T>>, world: nat, n: nat) returns (x: nat, r: nat)
    requires 0 < n <= |cols| && world > 0 && forall y :: 0 <= y < |cols| ==> |cols[y].ctas| == world
    ensures x < n && r < world
    ensures forall y, q :: 0 <= y < n && 0 <= q < world ==> cols[x].ctas[r].launch <= cols[y].ctas[q].launch
  {
    var last := MinLaunch(cols[n - 1].ctas);
    x, r := n - 1, last;
    if n > 1 {
      var y, q := LowestColumn(cols, world, n - 1);
      if cols[y].ctas[q].launch < cols[x].ctas[r].launch {
        x, r := y, q;
      }
    }
  }

  /** In every reachable state of the grid some step is enabled: no interleaving deadlocks. */
  lemma GridNeverStuck<T(!new)>(pbs: seq<Problem<T>>, init: seq<State<T>>, world: nat, run: seq<GridStep>)
    returns (g: GridStep)
    requires GridInitial(pbs, init, world) && GridLegal(pbs, init, world, run)
    requires |init| > 0 && world > 0
    ensures GridEnabled(pbs, GridExec(pbs, init, world, run), world, g)
  {
    var cols := GridExec(pbs, init, world, run);
    var x, r := LowestColumn(cols, world, |cols|);
    ColumnInv(pbs, init, world, run, x);
    var st := SomeStep(pbs[x], cols[x], r);
    g := GridStep(x, st);
  }

  // ----- why the CTA must own a tile -----

  /** Every rank arrives at the end barrier of a CTA without tiles. */
  lemma {:induction false} EmptyCtaArrive<T(!new)>(pb: Problem<T>, s: State<T>, n: nat) returns (run: seq<Step>)
    requires pb.tiles == 0 && Initial(pb, s) && n <= pb.world
    ensures Legal(pb, s, run)
    ensures var s' := Exec(pb, s, run);
      && (forall r :: 0 <= r < pb.world ==> s'.ctas[r] == s.ctas[r].(atEnd := r < n))
      && (forall r: nat :: r < pb.world ==> s'.endFlag(r) == n)
  {
    if n == 0 {
      run := [];
    } else {
      run := EmptyCtaArrive(pb, s, n - 1);
      Snoc(pb, s, run, EndArrive(n - 1));
      run := run + [EndArrive(n - 1)];
    }
  }

  lemma {:induction false} Snoc<T>(pb: Problem<T>, s: State<T>, run: seq<Step>, st: Step)
    requires |s.ctas| == pb.world && Legal(pb, s, run) && Enabled(pb, Exec(pb, s, run), st)
    ensures Legal(pb, s, run + [st]) && Exec(pb, s, run + [st]) == Apply(pb, Exec(pb, s, run), st)
    decreases |run|
  {
    if |run| == 0 {
      assert run + [st] == [st] && [st][1..] == [];
      assert Legal(pb, Apply(pb, s, st), []);
    } else {
      assert (run + [st])[0] == run[0] && (run + [st])[1..] == run[1..] + [st];
      Snoc(pb, Apply(pb, s, run[0]), run[1..], st);
    }
  }

  ghost predicate AlwaysWithin<T(!new)>(pb: Problem<T>, init: State<T>)
    requires |init.ctas| == pb.world
  {
    forall run :: Legal(pb, init, run) ==> FlagsWithin(pb, Exec(pb, init, run))
  }

  /** With two or more ranks the flag bound holds in every run exactly when the CTA owns at
      least one tile: otherwise a fast rank re-arrives at the end barrier before a slow one has
      reset its copy. */
  lemma FlagsBoundedIff<T(!new)>(pb: Problem<T>, init: State<T>)
    requires pb.Valid() && pb.world >= 2 && Initial(pb, init)
    ensures AlwaysWithin(pb, init) <==> pb.tiles > 0
  {
    if pb.tiles > 0 {
      forall run | Legal(pb, init, run)
        ensures FlagsWithin(pb, Exec(pb, init, run))
      {
        FlagsNeverOverflow(pb, init, run);
      }
    } else {
      var run := EmptyCtaArrive(pb, init, pb.world);
      Snoc(pb, init, run, Leave(0));
      run := run + [Leave(0)];
      Snoc(pb, init, run, EndArrive(0));
      run := run + [EndArrive(0)];
      assert Exec(pb, init, run).endFlag(1) == pb.world + 1;
      assert !FlagsWithin(pb, Exec(pb, init, run));
    }
  }
}
