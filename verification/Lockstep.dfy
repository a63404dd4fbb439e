/** The worker's ranks walk the same batch and meet in collectives. A collective completes when
    every rank calls the same one; a session is stuck when they never all do. */
module Lockstep {
  import opened Optional
  import opened Ledger
  import opened Worker
  import opened Sequences

  /** The collectives among a rank's events. */
  function Collectives(events: seq<Event>): seq<Event> {
    if |events| == 0 then [] else Joined(events[0]) + Collectives(events[1..])
  }

  function Joined(e: Event): seq<Event> { if e.Barrier? || e.AllReduce? then [e] else [] }

  lemma {:induction false} CollectivesAppend(a: seq<Event>, b: seq<Event>)
    ensures Collectives(a + b) == Collectives(a) + Collectives(b)
  {
    if |a| == 0 {
      assert a + b == b;
    } else {
      CollectivesAppend(a[1..], b);
      assert (a + b)[1..] == a[1..] + b && (a + b)[0] == a[0];
      Regroup(Joined(a[0]), Collectives(a[1..]), Collectives(b));
    }
  }

  /** All ranks' pending collectives can be matched up, one round after another, to the end. */
  ghost predicate Completes(traces: seq<seq<Event>>)
    requires |traces| > 0
    decreases |traces[0]|
  {
    if forall i :: 0 <= i < |traces| ==> traces[i] == [] then true
    else
      |traces[0]| > 0 && (forall i :: 0 <= i < |traces| ==> |traces[i]| > 0 && traces[i][0] == traces[0][0]) &&
      Completes(seq(|traces|, i requires 0 <= i < |traces| => if |traces[i]| > 0 then traces[i][1..] else []))
  }

  lemma {:induction false} CompletesIffEqual(traces: seq<seq<Event>>)
    requires |traces| > 0
    ensures Completes(traces) <==> forall i :: 0 <= i < |traces| ==> traces[i] == traces[0]
    decreases |traces[0]|
  {
    if |traces[0]| > 0 && forall i :: 0 <= i < |traces| ==> |traces[i]| > 0 && traces[i][0] == traces[0][0] {
      var tails := seq(|traces|, i requires 0 <= i < |traces| => if |traces[i]| > 0 then traces[i][1..] else []);
      CompletesIffEqual(tails);
      assert forall i :: 0 <= i < |traces| ==> traces[i] == [traces[i][0]] + tails[i];
    }
  }

  /** The candidate gets past the comparison of the copy with the reference output. */
  predicate Compares(o: Outcome, compileOnly: bool) {
    !o.CompileRaises? && !compileOnly && (o.BenchRaises? ==> !o.place.Before? && !o.place.ComparingCopy?)
  }

  /** Some candidate from i on is reached and compares. */
  predicate SomeCompares(n: nat, outcome: nat -> Outcome, cfg: Setup, i: nat)
    requires i <= n
    decreases n - i
  {
    i < n && (Compares(outcome(i), cfg.compileOnly)
      || (FinalStatus(outcome(i), cfg) != FAIL_CUDA && SomeCompares(n, outcome, cfg, i + 1)))
  }

  function TripCollectives(c: Candidate, o: Outcome, cfg: Setup): seq<Event> {
    Collectives(CompileWork(o)) + Collectives(BenchWork(c, o, cfg)) + Collectives(After(o, cfg))
  }

  /** Beats and rows are no collectives. */
  lemma FourParts(beat: Event, a: seq<Event>, b: seq<Event>, emit: Event, after: seq<Event>)
    requires beat.Beat? && emit.Emit?
    ensures Collectives([beat] + a + b + [emit] + after) == Collectives(a) + Collectives(b) + Collectives(after)
  {
    SkipFirst(beat, a);
    CollectivesAppend([beat] + a, b);
    SkipLast([beat] + a + b, emit);
    CollectivesAppend([beat] + a + b + [emit], after);
  }

  lemma SkipFirst(e: Event, a: seq<Event>)
    requires !e.Barrier? && !e.AllReduce?
    ensures Collectives([e] + a) == Collectives(a)
  {
    assert ([e] + a)[1..] == a;
  }

  lemma SkipLast(a: seq<Event>, e: Event)
    requires !e.Barrier? && !e.AllReduce?
    ensures Collectives(a + [e]) == Collectives(a)
  {
    CollectivesAppend(a, [e]);
    assert [e][1..] == [];
  }

  lemma TripCollectivesAre(c: Candidate, o: Outcome, cfg: Setup)
    ensures Collectives(TripOf(c, o, cfg).Events()) == TripCollectives(c, o, cfg)
  {
    var t := TripOf(c, o, cfg);
    FourParts(Beat(Config(c.id)), CompileWork(o), BenchWork(c, o, cfg), Emit(t.row), After(o, cfg));
    assert t.work == [Beat(Config(c.id))] + CompileWork(o) + BenchWork(c, o, cfg);
  }

  /** The first collective after the comparison gives away whether the rank has a reference:
      without one it is a barrier, or none if the candidate raises before. */
  lemma BenchStart(c: Candidate, o: Outcome, cfg: Setup)
    requires !o.CompileRaises? && !cfg.compileOnly
    ensures var all := Collectives(BenchWork(c, o, cfg));
      if !Compares(o, cfg.compileOnly) then all == []
      else if cfg.yRef then |all| > 0 && all[0] == AllReduce
      else (|all| > 0 && all[0] == Barrier) || (all == [] && FinalStatus(o, cfg) == FAIL_CUDA)
  {
    var place := if o.BenchRaises? then o.place else Emitting;
    var work := BenchWork(c, o, cfg);
    assert work == BenchUpto(c, cfg, place);
    BenchHead(c, cfg, place);
    if |work| > 0 {
      assert Collectives(work) == Collectives(work[1..]);
      assert |work| == 1 ==> work[1..] == [];
    }
  }

  /** How the events up to a place begin. */
  lemma BenchHead(c: Candidate, cfg: Setup, place: BenchPlace)
    ensures var work := BenchUpto(c, cfg, place);
      && (place.Before? <==> work == [])
      && (|work| > 0 ==> work[0] == Beat(Config(c.id)))
      && (|work| == 1 <==> place.ComparingCopy? || (place.Thunk? && !cfg.yRef))
      && (|work| > 1 ==> work[1] == if cfg.yRef then AllReduce else Barrier)
  {
  }

  lemma TripsDiffer(c: Candidate, o: Outcome, yes: Setup, no: Setup, more: seq<Event>, more': seq<Event>)
    requires yes == no.(yRef := true) && !no.yRef && Compares(o, no.compileOnly)
    requires FinalStatus(o, no) == FAIL_CUDA ==> more' == []
    ensures TripCollectives(c, o, yes) + more != TripCollectives(c, o, no) + more'
  {
    BenchStart(c, o, yes);
    BenchStart(c, o, no);
    var k := |Collectives(CompileWork(o))|;
    var with, without := TripCollectives(c, o, yes) + more, TripCollectives(c, o, no) + more';
    assert with[k] == AllReduce;
    if Collectives(BenchWork(c, o, no)) == [] {
      assert Collectives(After(o, no)) == [];
      assert |without| == k;
    } else {
      assert without[k] == Barrier;
    }
  }

  lemma TripsAgree(c: Candidate, o: Outcome, yes: Setup, no: Setup)
    requires yes == no.(yRef := true) && !no.yRef && !Compares(o, no.compileOnly)
    ensures TripCollectives(c, o, yes) == TripCollectives(c, o, no)
  {
    if !o.CompileRaises? && !no.compileOnly {
      BenchStart(c, o, yes);
      BenchStart(c, o, no);
    }
  }

  /** Two ranks that differ only in having a reference output make the same collectives exactly
      when no candidate they reach compares. */
  lemma {:induction false} LoopCollectivesIff(batch: seq<Candidate>, outcome: nat -> Outcome, yes: Setup, no: Setup,
                                              i: nat)
    requires i <= |batch| && yes == no.(yRef := true) && !no.yRef
    ensures Collectives(LoopEvents(Trips(batch, outcome, yes), i)) ==
      Collectives(LoopEvents(Trips(batch, outcome, no), i))
      <==> !SomeCompares(|batch|, outcome, no, i)
    decreases |batch| - i
  {
    if i < |batch| {
      var c, o := batch[i], outcome(i);
      LoopCollectivesAre(batch, outcome, yes, i);
      LoopCollectivesAre(batch, outcome, no, i);
      LoopCollectivesIff(batch, outcome, yes, no, i + 1);
      var more := Collectives(LoopEvents(Trips(batch, outcome, yes), i + 1));
      var more' := Collectives(LoopEvents(Trips(batch, outcome, no), i + 1));
      if Compares(o, no.compileOnly) {
        var dead := FinalStatus(o, no) == FAIL_CUDA;
        TripsDiffer(c, o, yes, no, if dead then [] else more, if dead then [] else more');
      } else {
        TripsAgree(c, o, yes, no);
        Cancel(TripCollectives(c, o, yes), more, more');
      }
    }
  }

  lemma Cancel(p: seq<Event>, a: seq<Event>, b: seq<Event>)
    ensures p + a == p + b <==> a == b
  {
    if p + a == p + b {
      assert (p + a)[|p|..] == a && (p + b)[|p|..] == b;
    }
  }

  lemma LoopCollectivesAre(batch: seq<Candidate>, outcome: nat -> Outcome, cfg: Setup, i: nat)
    requires i < |batch|
    ensures var trips := Trips(batch, outcome, cfg);
      Collectives(LoopEvents(trips, i)) == TripCollectives(batch[i], outcome(i), cfg)
        + if FinalStatus(outcome(i), cfg) == FAIL_CUDA then [] else Collectives(LoopEvents(trips, i + 1))
  {
    var trips := Trips(batch, outcome, cfg);
    TripCollectivesAre(batch[i], outcome(i), cfg);
    if FinalStatus(outcome(i), cfg) != FAIL_CUDA {
      CollectivesAppend(trips[i].Events(), LoopEvents(trips, i + 1));
    }
  }

  /** The collectives of a rank that may or may not have a reference output. */
  function RankTrace(batch: seq<Candidate>, outcome: nat -> Outcome, cfg: Setup, yRef: bool): seq<Event> {
    Collectives(SessionEvents(Trips(batch, outcome, cfg.(yRef := yRef))))
  }

  lemma SessionCollectives(trips: seq<Trip>)
    ensures Collectives(SessionEvents(trips)) == Collectives(LoopEvents(trips, 0)) + [Barrier]
  {
    var loop := LoopEvents(trips, 0);
    CollectivesAppend([Beat(Bootstrap)] + loop, [Beat(End), Barrier]);
    CollectivesAppend([Beat(Bootstrap)], loop);
    assert [Beat(Bootstrap)][1..] == [] && [Beat(End), Barrier][1..] == [Barrier] && [Barrier][1..] == [];
  }

  /** Ranks that agree on every candidate's outcome and failure point run a session to its end
      exactly when they also agree on having a reference output, or no candidate compares with
      it. The orchestrator only looks for rank 0's reference file. */
  lemma SessionCompletesIff(batch: seq<Candidate>, outcome: nat -> Outcome, cfg: Setup, yRefs: seq<bool>)
    requires |yRefs| > 0
    ensures Completes(seq(|yRefs|, r requires 0 <= r < |yRefs| => RankTrace(batch, outcome, cfg, yRefs[r])))
      <==> (forall r :: 0 <= r < |yRefs| ==> yRefs[r] == yRefs[0]) || !SomeCompares(|batch|, outcome, cfg, 0)
  {
    var traces := seq(|yRefs|, r requires 0 <= r < |yRefs| => RankTrace(batch, outcome, cfg, yRefs[r]));
    CompletesIffEqual(traces);
    RankTracesIff(batch, outcome, cfg);
    var yes, no := RankTrace(batch, outcome, cfg, true), RankTrace(batch, outcome, cfg, false);
    TwoKinds(traces, yRefs, yes, no);
  }

  /** Traces of two kinds are all equal iff they are of one kind or the kinds are equal. */
  lemma TwoKinds(traces: seq<seq<Event>>, kinds: seq<bool>, yes: seq<Event>, no: seq<Event>)
    requires |traces| == |kinds| > 0
    requires forall r :: 0 <= r < |kinds| ==> traces[r] == if kinds[r] then yes else no
    ensures (forall r :: 0 <= r < |traces| ==> traces[r] == traces[0]) <==>
      (forall r :: 0 <= r < |kinds| ==> kinds[r] == kinds[0]) || yes == no
  {
    if r :| 0 <= r < |kinds| && kinds[r] != kinds[0] {
      assert traces[r] == traces[0] <==> yes == no;
    }
  }

  lemma RankTracesIff(batch: seq<Candidate>, outcome: nat -> Outcome, cfg: Setup)
    ensures RankTrace(batch, outcome, cfg, true) == RankTrace(batch, outcome, cfg, false) <==>
      !SomeCompares(|batch|, outcome, cfg, 0)
  {
    var yes, no := Trips(batch, outcome, cfg.(yRef := true)), Trips(batch, outcome, cfg.(yRef := false));
    SessionCollectives(yes);
    SessionCollectives(no);
    LoopCollectivesIff(batch, outcome, cfg.(yRef := true), cfg.(yRef := false), 0);
    YRefIrrelevant(|batch|, outcome, cfg, 0);
    SnocCancel(Collectives(LoopEvents(yes, 0)), Collectives(LoopEvents(no, 0)), Barrier);
  }

  lemma {:induction false} YRefIrrelevant(n: nat, outcome: nat -> Outcome, cfg: Setup, i: nat)
    requires i <= n
    ensures SomeCompares(n, outcome, cfg.(yRef := false), i) == SomeCompares(n, outcome, cfg, i)
    decreases n - i
  {
    if i < n {
      YRefIrrelevant(n, outcome, cfg, i + 1);
    }
  }

  lemma SnocCancel(a: seq<Event>, b: seq<Event>, e: Event)
    ensures a + [e] == b + [e] <==> a == b
  {
    if a + [e] == b + [e] {
      assert (a + [e])[..|a|] == a && (b + [e])[..|b|] == b;
    }
  }
}
