/** The batch worker: one session walks the candidates in order, beats, joins collectives and
    emits rows, and may die at any point. */
module Worker {
  import opened Optional
  import opened Ledger
  import opened Sequences

  /** Where the compile phase can raise: while the knobs are applied, or after the barrier that
      follows. */
  datatype CompilePlace = Applying | Launching

  /** Where the bench phase can raise: before its beat; comparing the copy, up to that
      comparison's all-reduce; launching the thunk, up to the barrier; comparing the view, up to
      that comparison's all-reduce; after it; after so many paced repetitions; after the medians'
      all-reduce; after the last barrier. */
  datatype BenchPlace = Before | ComparingCopy | Thunk | ComparingView | Compared
                      | Repeating(done: nat) | Gathered | Emitting

  /** How a candidate fares: it succeeds, or raises at a place of one of the two phases. */
  datatype Outcome = Succeeds | CompileRaises(at: CompilePlace) | BenchRaises(place: BenchPlace)

  /** Whom a heartbeat names: one of the two markers, or a config. */
  datatype Who = Bootstrap | End | Config(id: string)

  datatype Event = Beat(who: Who) | Barrier | AllReduce | Emit(row: JsonRow)

  datatype Setup = Setup(tokens: int, yRef: bool, compileOnly: bool, iters: nat)

  function EmittedRow(c: Candidate, cfg: Setup, status: Status): JsonRow {
    JsonRow(c.id, c.stage, cfg.tokens, c.knobs, "view", c.paced, status, None, None, None)
  }

  function Barriers(n: nat): seq<Event> { seq(n, _ => Barrier) }

  /** A rank compares, jointly with the others, only if it has a reference output. */
  function Compare(cfg: Setup): seq<Event> { if cfg.yRef then [AllReduce] else [] }

  /** The bitexact phase: both comparisons, and the barrier after the thunk between them. */
  function BitexactEvents(c: Candidate, cfg: Setup): seq<Event> {
    [Beat(Config(c.id))] + Compare(cfg) + [Barrier] + Compare(cfg)
  }

  /** The bench phase after n repetitions; only paced ones meet at a barrier. */
  function RepeatEvents(c: Candidate, cfg: Setup, n: nat): seq<Event> {
    [Beat(Config(c.id))] + if c.paced then Barriers(Min(n, cfg.iters)) else []
  }

  /** The events of both phases up to a place. */
  function BenchUpto(c: Candidate, cfg: Setup, place: BenchPlace): seq<Event> {
    match place
    case Before => []
    case ComparingCopy => [Beat(Config(c.id))]
    case Thunk => [Beat(Config(c.id))] + Compare(cfg)
    case ComparingView => [Beat(Config(c.id))] + Compare(cfg) + [Barrier]
    case Compared => BitexactEvents(c, cfg)
    case Repeating(done) => BitexactEvents(c, cfg) + RepeatEvents(c, cfg, done)
    case Gathered => BitexactEvents(c, cfg) + RepeatEvents(c, cfg, cfg.iters) + [AllReduce]
    case Emitting => BitexactEvents(c, cfg) + RepeatEvents(c, cfg, cfg.iters) + [AllReduce] + [Barrier]
  }

  /** How many events come before a place: beats, reductions if there is a reference output, and
      barriers, one per repetition if it is paced. */
  function EventsBefore(c: Candidate, cfg: Setup, place: BenchPlace): nat {
    var comparison, repeats := if cfg.yRef then 1 else 0, if c.paced then cfg.iters else 0;
    match place
    case Before => 0
    case ComparingCopy => 1
    case Thunk => 1 + comparison
    case ComparingView => 2 + comparison
    case Compared => 2 + 2 * comparison
    case Repeating(done) => 3 + 2 * comparison + if done < repeats then done else repeats
    case Gathered => 4 + 2 * comparison + repeats
    case Emitting => 5 + 2 * comparison + repeats
  }

  /** A place is reached on the way to the row, after that many of its events. */
  lemma PlacesAreOnTheWay(c: Candidate, cfg: Setup, place: BenchPlace)
    ensures BenchUpto(c, cfg, place) <= BenchUpto(c, cfg, Emitting)
    ensures |BenchUpto(c, cfg, place)| == EventsBefore(c, cfg, place)
  {
    var all := BenchUpto(c, cfg, Emitting);
    if place.Repeating? {
      assert RepeatEvents(c, cfg, place.done) <= RepeatEvents(c, cfg, cfg.iters);
    }
    assert all[..|BenchUpto(c, cfg, place)|] == BenchUpto(c, cfg, place);
  }

  function Min(a: nat, b: nat): nat { if a < b then a else b }

  /** A candidate's events up to its row. */
  function Work(c: Candidate, o: Outcome, cfg: Setup): seq<Event> {
    [Beat(Config(c.id))] + CompileWork(o) + BenchWork(c, o, cfg)
  }

  function CompileWork(o: Outcome): seq<Event> {
    Barriers(if o.CompileRaises? then (if o.at.Applying? then 0 else 1) else 2)
  }

  function BenchWork(c: Candidate, o: Outcome, cfg: Setup): seq<Event> {
    if o.CompileRaises? || cfg.compileOnly then []
    else BenchUpto(c, cfg, if o.BenchRaises? then o.place else Emitting)
  }

  function FinalStatus(o: Outcome, cfg: Setup): Status {
    if o.CompileRaises? then FAIL
    else if cfg.compileOnly then COMPILED
    else if o.BenchRaises? then FAIL_CUDA
    else OK
  }

  /** After a FAIL or COMPILED row the ranks meet once more before the next candidate. */
  function After(o: Outcome, cfg: Setup): seq<Event> {
    if FinalStatus(o, cfg) in {FAIL, COMPILED} then [Barrier] else []
  }

  /** One trip of the candidate loop: its work, its row, and what follows. */
  datatype Trip = Trip(id: string, work: seq<Event>, row: JsonRow, after: seq<Event>) {
    function Events(): seq<Event> { work + [Emit(row)] + after }
  }

  function TripOf(c: Candidate, o: Outcome, cfg: Setup): Trip {
    Trip(c.id, Work(c, o, cfg), EmittedRow(c, cfg, FinalStatus(o, cfg)), After(o, cfg))
  }

  function Trips(batch: seq<Candidate>, outcome: nat -> Outcome, cfg: Setup): seq<Trip> {
    seq(|batch|, i requires 0 <= i < |batch| => TripOf(batch[i], outcome(i), cfg))
  }

  /** The candidate loop from trip i on: FAIL and COMPILED go on with the next candidate, a
      bench failure leaves the loop. */
  function LoopEvents(trips: seq<Trip>, i: nat): seq<Event>
    requires i <= |trips|
    decreases |trips| - i
  {
    if i == |trips| then []
    else if trips[i].row.status == FAIL_CUDA then trips[i].Events()
    else trips[i].Events() + LoopEvents(trips, i + 1)
  }

  /** Everything a session does if nothing kills it. */
  function SessionEvents(trips: seq<Trip>): seq<Event> {
    [Beat(Bootstrap)] + LoopEvents(trips, 0) + [Beat(End), Barrier]
  }

  /** The rows in a stretch of events. */
  function Rows(events: seq<Event>): seq<JsonRow> {
    if |events| == 0 then []
    else
      var pre := Rows(events[..|events| - 1]);
      var last := events[|events| - 1];
      if last.Emit? then pre + [last.row] else pre
  }

  /** Whom the last heartbeat names. */
  function LastBeat(events: seq<Event>): Option<Who> {
    if |events| == 0 then None
    else if events[|events| - 1].Beat? then Some(events[|events| - 1].who)
    else LastBeat(events[..|events| - 1])
  }

  // ----- what any prefix of a session looks like -----

  lemma {:induction false} RowsAppend(a: seq<Event>, b: seq<Event>)
    ensures Rows(a + b) == Rows(a) + Rows(b)
  {
    if |b| == 0 {
      assert a + b == a;
    } else {
      var n := |b| - 1;
      RowsAppend(a, b[..n]);
      assert (a + b)[..|a + b| - 1] == a + b[..n];
    }
  }

  lemma {:induction false} LastBeatAppend(a: seq<Event>, b: seq<Event>)
    ensures LastBeat(a + b) == if LastBeat(b).None? then LastBeat(a) else LastBeat(b)
  {
    if |b| == 0 {
      assert a + b == a;
    } else {
      var n := |b| - 1;
      LastBeatAppend(a, b[..n]);
      assert (a + b)[..|a + b| - 1] == a + b[..n];
    }
  }

  lemma Join(a: seq<Event>, b: seq<Event>)
    ensures Rows(a + b) == Rows(a) + Rows(b)
    ensures LastBeat(a + b) == if LastBeat(b).None? then LastBeat(a) else LastBeat(b)
  {
    RowsAppend(a, b);
    LastBeatAppend(a, b);
  }

  lemma PrefixOfConcat(a: seq<Event>, b: seq<Event>, k: nat)
    requires k <= |a + b|
    ensures (a + b)[..k] == if k <= |a| then a[..k] else a + b[..k - |a|]
  {
  }

  /** No row, and no beat that names someone else. */
  ghost predicate OnlyBeats(events: seq<Event>, who: Who) {
    forall i :: 0 <= i < |events| ==> !events[i].Emit? && (events[i].Beat? ==> events[i].who == who)
  }

  lemma {:induction false} OnlyBeatsMeans(events: seq<Event>, who: Who)
    requires OnlyBeats(events, who)
    ensures Rows(events) == [] && (LastBeat(events) == None || LastBeat(events) == Some(who))
    ensures |events| > 0 && events[0].Beat? ==> LastBeat(events) == Some(who)
  {
    if |events| > 0 {
      OnlyBeatsMeans(events[..|events| - 1], who);
    }
  }

  lemma {:induction false} QuietMeans(events: seq<Event>)
    requires forall i :: 0 <= i < |events| ==> events[i] == Barrier
    ensures Rows(events) == [] && LastBeat(events) == None
  {
    if |events| > 0 {
      QuietMeans(events[..|events| - 1]);
    }
  }

  ghost predicate TripOk(t: Trip) {
    && |t.work| > 0 && t.work[0].Beat? && OnlyBeats(t.work, Config(t.id))
    && forall i :: 0 <= i < |t.after| ==> t.after[i] == Barrier
  }

  lemma PlacesOnlyBeat(c: Candidate, cfg: Setup, place: BenchPlace)
    ensures OnlyBeats(BenchUpto(c, cfg, place), Config(c.id))
  {
  }

  lemma TripsOk(batch: seq<Candidate>, outcome: nat -> Outcome, cfg: Setup)
    ensures forall t :: t in Trips(batch, outcome, cfg) ==> TripOk(t)
  {
    forall i | 0 <= i < |batch|
      ensures TripOk(TripOf(batch[i], outcome(i), cfg))
    {
      PlacesOnlyBeat(batch[i], cfg, if outcome(i).BenchRaises? then outcome(i).place else Emitting);
    }
  }

  /** The first k events of a trip: its own beat once it has begun, its row once emitted. */
  lemma TripPrefix(t: Trip, k: nat)
    requires TripOk(t) && k <= |t.Events()|
    ensures LastBeat(t.Events()[..k]) == if k == 0 then None else Some(Config(t.id))
    ensures Rows(t.Events()[..k]) == if k <= |t.work| then [] else [t.row]
  {
    PrefixOfConcat(t.work + [Emit(t.row)], t.after, k);
    if k <= |t.work| {
      PrefixOfConcat(t.work, [Emit(t.row)], k);
      OnlyBeatsMeans(t.work[..k], Config(t.id));
    } else {
      OnlyBeatsMeans(t.work, Config(t.id));
      EmitMeans(t.work, t.row);
      var n := k - |t.work| - 1;
      QuietMeans(t.after[..n]);
      Join(t.work + [Emit(t.row)], t.after[..n]);
      assert t.Events()[..k] == t.work + [Emit(t.row)] + t.after[..n];
    }
  }

  lemma EmitMeans(events: seq<Event>, row: JsonRow)
    ensures Rows(events + [Emit(row)]) == Rows(events) + [row]
    ensures LastBeat(events + [Emit(row)]) == LastBeat(events)
  {
    assert (events + [Emit(row)])[..|events|] == events;
  }

  /** `rows` are the rows of consecutive trips from i on, in order, one each, and only the last
      can be FAIL_CUDA. */
  ghost predicate InOrder(trips: seq<Trip>, i: nat, rows: seq<JsonRow>) {
    && i + |rows| <= |trips|
    && (forall j :: 0 <= j < |rows| ==> rows[j] == trips[i + j].row)
    && (forall j :: 0 <= j < |rows| - 1 ==> rows[j].status != FAIL_CUDA)
  }

  /** The last beat is trip b's, which has its row or is next. */
  ghost predicate Reached(trips: seq<Trip>, i: nat, b: nat, rows: seq<JsonRow>, beat: Option<Who>) {
    i <= b < |trips| && beat == Some(Config(trips[b].id)) && b <= i + |rows| <= b + 1
  }

  lemma AfterTrip(t: Trip, more: seq<Event>)
    requires TripOk(t)
    ensures Rows(t.Events() + more) == [t.row] + Rows(more)
    ensures LastBeat(t.Events() + more) == if LastBeat(more).None? then Some(Config(t.id)) else LastBeat(more)
  {
    TripPrefix(t, |t.Events()|);
    assert t.Events()[..|t.Events()|] == t.Events();
    Join(t.Events(), more);
  }

  lemma {:induction false} LoopPrefix(trips: seq<Trip>, i: nat, k: nat) returns (b: nat)
    requires forall t :: t in trips ==> TripOk(t)
    requires i <= |trips| && k <= |LoopEvents(trips, i)|
    ensures var p := LoopEvents(trips, i)[..k];
      && InOrder(trips, i, Rows(p))
      && (if k == 0 then LastBeat(p) == None && Rows(p) == [] else Reached(trips, i, b, Rows(p), LastBeat(p)))
    decreases |trips| - i
  {
    b := i;
    if k > 0 {
      var first := trips[i].Events();
      assert TripOk(trips[i]);
      if trips[i].row.status == FAIL_CUDA {
        TripPrefix(trips[i], k);
      } else {
        var more := LoopEvents(trips, i + 1);
        PrefixOfConcat(first, more, k);
        if k <= |first| {
          TripPrefix(trips[i], k);
        } else {
          AfterTrip(trips[i], more[..k - |first|]);
          b := LoopPrefix(trips, i + 1, k - |first|);
          InOrderCons(trips, i, Rows(more[..k - |first|]));
        }
      }
    }
  }

  lemma InOrderCons(trips: seq<Trip>, i: nat, rows: seq<JsonRow>)
    requires i < |trips| && trips[i].row.status != FAIL_CUDA && InOrder(trips, i + 1, rows)
    ensures InOrder(trips, i, [trips[i].row] + rows)
  {
    var all := [trips[i].row] + rows;
    forall j | 0 <= j < |all|
      ensures all[j] == trips[i + j].row && (j < |all| - 1 ==> all[j].status != FAIL_CUDA)
    {
      if j > 0 {
        assert all[j] == rows[j - 1] && rows[j - 1] == trips[i + 1 + (j - 1)].row;
      }
    }
  }

  /** Any prefix of a session: the rows are those of the first candidates, in order, and the
      last beat names the bootstrap, the end, or the candidate that emitted last or is next. */
  lemma SessionPrefix(trips: seq<Trip>, t: nat) returns (b: nat)
    requires forall t :: t in trips ==> TripOk(t)
    requires t <= |SessionEvents(trips)|
    ensures var p := SessionEvents(trips)[..t];
      && InOrder(trips, 0, Rows(p))
      && (LastBeat(p) in {None, Some(Bootstrap), Some(End)} || Reached(trips, 0, b, Rows(p), LastBeat(p)))
  {
    var boot, loop := [Beat(Bootstrap)], LoopEvents(trips, 0);
    b := 0;
    assert boot[..0] == [];
    if t > 0 {
      var k := Min(t - 1, |loop|);
      b := LoopPrefix(trips, 0, k);
      AfterBoot(loop[..k]);
      PrefixOfConcat(boot + loop, [Beat(End), Barrier], t);
      if t <= |boot + loop| {
        PrefixOfConcat(boot, loop, t);
      } else {
        assert loop[..k] == loop;
        BeforeEnd(boot + loop, t - |boot + loop|);
      }
    }
  }

  lemma AfterBoot(events: seq<Event>)
    ensures Rows([Beat(Bootstrap)] + events) == Rows(events)
    ensures LastBeat([Beat(Bootstrap)] + events) == if LastBeat(events).None? then Some(Bootstrap) else LastBeat(events)
  {
    Join([Beat(Bootstrap)], events);
    assert [Beat(Bootstrap)][..0] == [];
  }

  lemma BeforeEnd(events: seq<Event>, n: nat)
    requires 0 < n <= 2
    ensures Rows(events + [Beat(End), Barrier][..n]) == Rows(events)
    ensures LastBeat(events + [Beat(End), Barrier][..n]) == Some(End)
  {
    var e := [Beat(End), Barrier][..n];
    assert OnlyBeats(e, End) && e[0].Beat?;
    OnlyBeatsMeans(e, End);
    Join(events, e);
  }

  // ----- what the orchestrator sees of a session -----

  /** The environment of one session: how candidates fare, after how many events the session is
      over, and whether and after how many events the watchdog gives up on it. */
  datatype Env = Env(outcome: nat -> Outcome, died: nat, fires: bool, decided: nat)

  /** The rows that reached the results file. */
  function Seen(trips: seq<Trip>, env: Env): seq<JsonRow> {
    var events := SessionEvents(trips);
    Rows(events[..Min(env.died, |events|)])
  }

  /** Whom the watchdog blames: the last heartbeat when it decided, which may be earlier than
      the moment the kill takes effect. */
  function Hang(trips: seq<Trip>, env: Env): Option<Who> {
    var events := SessionEvents(trips);
    var beat := LastBeat(events[..Min(env.decided, Min(env.died, |events|))]);
    if !env.fires then None else if beat.None? then Some(Bootstrap) else beat
  }

  /** A session yields one row each for a prefix of its trips, FAIL_CUDA only last; a blamed
      config is among those that have a row or is the next one. */
  lemma SessionOutcome(trips: seq<Trip>, env: Env) returns (b: nat)
    requires forall t :: t in trips ==> TripOk(t)
    ensures InOrder(trips, 0, Seen(trips, env))
    ensures Hang(trips, env) in {None, Some(Bootstrap), Some(End)}
      || (b < |trips| && b <= |Seen(trips, env)| && Hang(trips, env) == Some(Config(trips[b].id)))
  {
    var events := SessionEvents(trips);
    var t2 := Min(env.died, |events|);
    var t1 := Min(env.decided, t2);
    var last := SessionPrefix(trips, t2);
    b := SessionPrefix(trips, t1);
    assert events[..t2] == events[..t1] + events[t1..t2];
    RowsAppend(events[..t1], events[t1..t2]);
  }

  /** A row reached the results file iff it was emitted among the events before the end. */
  lemma {:induction false} RowsAre(events: seq<Event>, row: JsonRow)
    ensures row in Rows(events) <==> Emit(row) in events
  {
    if |events| > 0 {
      var n := |events| - 1;
      RowsAre(events[..n], row);
      assert events == events[..n] + [events[n]];
    }
  }

  /** A beat of w with no beat behind it. */
  ghost predicate BeatLast(events: seq<Event>, w: Who) {
    exists i :: 0 <= i < |events| && events[i] == Beat(w) && forall j :: i < j < |events| ==> !events[j].Beat?
  }

  lemma {:induction false} LastBeatIs(events: seq<Event>, w: Who)
    ensures LastBeat(events) == Some(w) <==> BeatLast(events, w)
  {
    if |events| > 0 {
      var n := |events| - 1;
      LastBeatIs(events[..n], w);
      if events[n].Beat? {
        assert BeatLast(events, w) ==> events[n] == Beat(w);
        assert events[n] == Beat(w) ==> BeatLast(events, w);
      } else {
        if BeatLast(events[..n], w) {
          var i :| 0 <= i < n && events[..n][i] == Beat(w) && forall j :: i < j < n ==> !events[..n][j].Beat?;
          assert forall j :: i < j < n ==> events[j] == events[..n][j];
          assert events[i] == Beat(w);
        }
        if BeatLast(events, w) {
          var i :| 0 <= i < |events| && events[i] == Beat(w) && forall j :: i < j < |events| ==> !events[j].Beat?;
          assert events[..n][i] == Beat(w);
        }
      }
    }
  }

  /** What the orchestrator sees, in terms of the session's events: the rows emitted before the
      end, and the config of the last beat before the watchdog's decision. */
  lemma SeenAndBlamed(trips: seq<Trip>, env: Env, row: JsonRow, id: string)
    ensures var events := SessionEvents(trips);
      && (row in Seen(trips, env) <==> Emit(row) in events[..Min(env.died, |events|)])
      && (Hang(trips, env) == Some(Config(id)) <==>
            env.fires && BeatLast(events[..Min(env.decided, Min(env.died, |events|))], Config(id)))
  {
    var events := SessionEvents(trips);
    RowsAre(events[..Min(env.died, |events|)], row);
    LastBeatIs(events[..Min(env.decided, Min(env.died, |events|))], Config(id));
  }

  /** Before the first candidate and after the last the watchdog blames no config. */
  lemma OutsideNoConfig(trips: seq<Trip>, env: Env)
    requires env.fires
    ensures var events := SessionEvents(trips); var seen := Min(env.decided, Min(env.died, |events|));
      && (seen <= 1 ==> Hang(trips, env) == Some(Bootstrap))
      && (seen >= |events| - 1 ==> Hang(trips, env) == Some(End))
  {
    var events := SessionEvents(trips);
    var boot := [Beat(Bootstrap)] + LoopEvents(trips, 0);
    var seen := Min(env.decided, Min(env.died, |events|));
    if seen <= 1 {
      assert events[..seen] == [Beat(Bootstrap)][..seen];
    }
    if seen >= |events| - 1 {
      assert events[..seen] == boot + [Beat(End), Barrier][..seen - |boot|];
      BeforeEnd(boot, seen - |boot|);
    }
  }

  // ----- what a row says about the session -----

  /** The status of a row and the events before it: FAIL if the candidate did not get past the
      second barrier of its compile phase; behind that barrier COMPILED in a compile-only session;
      otherwise FAIL_CUDA if the bench phases raised and OK if they did not. */
  lemma StatusMeans(c: Candidate, o: Outcome, cfg: Setup)
    ensures var t := TripOf(c, o, cfg); var compiled := [Beat(Config(c.id)), Barrier, Barrier];
      && (t.row.status == FAIL <==> t.work < compiled)
      && (o.CompileRaises? ==> t.work == compiled[..if o.at.Applying? then 1 else 2])
      && (t.row.status == COMPILED <==> cfg.compileOnly && compiled <= t.work)
      && (t.row.status == COMPILED ==> t.work == compiled)
      && (t.row.status == FAIL_CUDA <==> !cfg.compileOnly && compiled <= t.work && o.BenchRaises?)
      && (t.row.status == OK <==> !cfg.compileOnly && compiled <= t.work && !o.BenchRaises?)
      && t.row.status in {FAIL, COMPILED, FAIL_CUDA, OK}
      && t.after == (if t.row.status == FAIL || t.row.status == COMPILED then [Barrier] else [])
  {
    var t, compiled := TripOf(c, o, cfg), [Beat(Config(c.id)), Barrier, Barrier];
    if o.CompileRaises? {
      assert t.work == [Beat(Config(c.id))] + Barriers(if o.at.Applying? then 0 else 1);
      assert t.work == compiled[..|t.work|];
    } else {
      assert t.work == compiled + BenchWork(c, o, cfg);
    }
  }

  /** How often an event happens. */
  function Happens(events: seq<Event>, e: Event): nat {
    if |events| == 0 then 0 else Happens(events[..|events| - 1], e) + if events[|events| - 1] == e then 1 else 0
  }

  lemma {:induction false} HappensAppend(a: seq<Event>, b: seq<Event>, e: Event)
    ensures Happens(a + b, e) == Happens(a, e) + Happens(b, e)
  {
    if |b| == 0 {
      assert a + b == a;
    } else {
      var n := |b| - 1;
      HappensAppend(a, b[..n], e);
      assert (a + b)[..|a + b| - 1] == a + b[..n];
    }
  }

  lemma {:induction false} HappensBarriers(n: nat, e: Event)
    ensures Happens(Barriers(n), e) == if e == Barrier then n else 0
  {
    if n > 0 {
      HappensBarriers(n - 1, e);
      assert Barriers(n)[..n - 1] == Barriers(n - 1);
    }
  }

  lemma HappensOne(x: Event, e: Event)
    ensures Happens([x], e) == if x == e then 1 else 0
  {
    assert [x][..0] == [];
  }

  /** Before an OK row a candidate has beaten once per phase, met the others at four barriers and,
      if it is paced, at one more per repetition, and joined one reduction of the medians and one
      per comparison it made. */
  lemma OkMeansAllEvents(c: Candidate, o: Outcome, cfg: Setup)
    requires TripOf(c, o, cfg).row.status == OK
    ensures var work := TripOf(c, o, cfg).work;
      && Happens(work, Beat(Config(c.id))) == 3
      && Happens(work, Barrier) == 4 + (if c.paced then cfg.iters else 0)
      && Happens(work, AllReduce) == 1 + (if cfg.yRef then 2 else 0)
  {
    forall e | e in {Beat(Config(c.id)), Barrier, AllReduce}
      ensures Happens(TripOf(c, o, cfg).work, e) == (match e
        case Beat(_) => 3
        case Barrier => 4 + (if c.paced then cfg.iters else 0)
        case _ => 1 + (if cfg.yRef then 2 else 0))
    {
      WorkHappens(c, o, cfg, e);
      BitexactHappens(c, cfg, e);
      RepeatHappens(c, cfg, e);
    }
  }

  lemma WorkHappens(c: Candidate, o: Outcome, cfg: Setup, e: Event)
    requires FinalStatus(o, cfg) == OK
    ensures Happens(Work(c, o, cfg), e)
      == (if e == Beat(Config(c.id)) then 1 else 0) + (if e == Barrier then 3 else 0)
       + (if e == AllReduce then 1 else 0)
       + Happens(BitexactEvents(c, cfg), e) + Happens(RepeatEvents(c, cfg, cfg.iters), e)
  {
    var beat, bitexact, repeats := [Beat(Config(c.id))], BitexactEvents(c, cfg), RepeatEvents(c, cfg, cfg.iters);
    assert Work(c, o, cfg) == beat + Barriers(2) + (bitexact + repeats + [AllReduce] + [Barrier]);
    HappensAppend(beat + Barriers(2), bitexact + repeats + [AllReduce] + [Barrier], e);
    HappensAppend(beat, Barriers(2), e);
    HappensAppend(bitexact + repeats + [AllReduce], [Barrier], e);
    HappensAppend(bitexact + repeats, [AllReduce], e);
    HappensAppend(bitexact, repeats, e);
    HappensBarriers(2, e);
    HappensOne(beat[0], e);
    HappensOne(AllReduce, e);
    HappensOne(Barrier, e);
  }

  lemma BitexactHappens(c: Candidate, cfg: Setup, e: Event)
    ensures Happens(BitexactEvents(c, cfg), e)
      == (if e == Beat(Config(c.id)) || e == Barrier then 1 else 0) + (if e == AllReduce && cfg.yRef then 2 else 0)
  {
    var beat, compare := [Beat(Config(c.id))], Compare(cfg);
    HappensAppend(beat + compare + [Barrier], compare, e);
    HappensAppend(beat + compare, [Barrier], e);
    HappensAppend(beat, compare, e);
    HappensOne(beat[0], e);
    HappensOne(AllReduce, e);
    HappensOne(Barrier, e);
  }

  lemma RepeatHappens(c: Candidate, cfg: Setup, e: Event)
    ensures Happens(RepeatEvents(c, cfg, cfg.iters), e)
      == (if e == Beat(Config(c.id)) then 1 else 0) + (if e == Barrier && c.paced then cfg.iters else 0)
  {
    HappensAppend([Beat(Config(c.id))], if c.paced then Barriers(cfg.iters) else [], e);
    HappensBarriers(cfg.iters, e);
    HappensOne(Beat(Config(c.id)), e);
  }

  // ----- the session as it runs on rank 0 -----

  class Session {
    var events: seq<Event>
    const cfg: Setup

    constructor (cfg: Setup)
      ensures this.cfg == cfg && events == []
    {
      this.cfg := cfg;
      events := [];
    }

    method Do(es: seq<Event>)
      modifies this`events
      ensures events == old(events) + es
    {
      events := events + es;
    }

    /** The comparison with the reference output, if the rank has one. */
    method DoCompare()
      modifies this`events
      ensures events == old(events) + Compare(cfg)
    {
      if cfg.yRef {
        Do([AllReduce]);
      } else {
        assert events == events + [];
      }
    }

    /** The bitexact phase up to a place; true if it is not left there. */
    method DoBitexact(c: Candidate, place: BenchPlace) returns (on: bool)
      modifies this`events
      ensures on <==> !place.Before? && !place.ComparingCopy? && !place.Thunk? && !place.ComparingView?
      ensures events == old(events) + if on then BitexactEvents(c, cfg) else BenchUpto(c, cfg, place)
    {
      ghost var start := events;
      on := false;
      assert start + [] == start;
      if place.Before? {
        return;
      }
      Do([Beat(Config(c.id))]);
      if place.ComparingCopy? {
        return;
      }
      DoCompare();
      Regroup(start, [Beat(Config(c.id))], Compare(cfg));
      if place.Thunk? {
        return;
      }
      Do([Barrier]);
      Regroup(start, [Beat(Config(c.id))] + Compare(cfg), [Barrier]);
      if place.ComparingView? {
        return;
      }
      DoCompare();
      Regroup(start, [Beat(Config(c.id))] + Compare(cfg) + [Barrier], Compare(cfg));
      on := true;
    }

    /** The bench beat and n repetitions, each behind a barrier if they are paced. */
    method DoRepeats(c: Candidate, n: nat)
      requires n <= cfg.iters
      modifies this`events
      ensures events == old(events) + RepeatEvents(c, cfg, n)
    {
      Do([Beat(Config(c.id))]);
      if c.paced {
        ghost var start := events;
        for i := 0 to n
          invariant events == start + Barriers(i)
        {
          Do([Barrier]);
          assert Barriers(i + 1) == Barriers(i) + [Barrier];
        }
        Regroup(old(events), [Beat(Config(c.id))], Barriers(n));
      } else {
        Regroup(old(events), [Beat(Config(c.id))], []);
      }
    }

    /** The bitexact and bench phases, up to a place. */
    method DoBench(c: Candidate, place: BenchPlace)
      modifies this`events
      ensures events == old(events) + BenchUpto(c, cfg, place)
    {
      ghost var start, bitexact := events, BitexactEvents(c, cfg);
      var on := DoBitexact(c, place);
      if !on || place.Compared? {
        return;
      }
      var n := if place.Repeating? then Min(place.done, cfg.iters) else cfg.iters;
      DoRepeats(c, n);
      ghost var repeats := RepeatEvents(c, cfg, n);
      Regroup(start, bitexact, repeats);
      if place.Repeating? {
        assert repeats == RepeatEvents(c, cfg, place.done);
        return;
      }
      Do([AllReduce]);
      Regroup(start, bitexact + repeats, [AllReduce]);
      if place.Emitting? {
        Do([Barrier]);
        Regroup(start, bitexact + repeats + [AllReduce], [Barrier]);
      }
    }

    /** The candidate's beat, compile phase and bench phase. */
    method DoWork(c: Candidate, o: Outcome)
      modifies this`events
      ensures events == old(events) + Work(c, o, cfg)
    {
      ghost var start := events;
      Do([Beat(Config(c.id))]);
      Do(CompileWork(o));
      Regroup(start, [Beat(Config(c.id))], CompileWork(o));
      ghost var sofar := [Beat(Config(c.id))] + CompileWork(o);
      if !o.CompileRaises? && !cfg.compileOnly {
        DoBench(c, if o.BenchRaises? then o.place else Emitting);
      } else {
        assert events == events + [];
      }
      Regroup(start, sofar, BenchWork(c, o, cfg));
    }

    /** One trip of the candidate loop; true if it leaves the loop. */
    method Step(c: Candidate, o: Outcome) returns (abort: bool)
      modifies this`events
      ensures events == old(events) + TripOf(c, o, cfg).Events()
      ensures abort <==> FinalStatus(o, cfg) == FAIL_CUDA
    {
      DoWork(c, o);
      label worked:
      abort := false;
      if o.CompileRaises? {
        Do([Emit(EmittedRow(c, cfg, FAIL))]);
        Do([Barrier]);
      } else if cfg.compileOnly {
        Do([Emit(EmittedRow(c, cfg, COMPILED))]);
        Do([Barrier]);
      } else if o.BenchRaises? {
        Do([Emit(EmittedRow(c, cfg, FAIL_CUDA))]);
        abort := true;
      } else {
        Do([Emit(EmittedRow(c, cfg, OK))]);
      }
      ghost var trip := TripOf(c, o, cfg);
      assert events == old@worked(events) + [Emit(trip.row)] + trip.after;
      Regroup(old(events), trip.work, [Emit(trip.row)]);
      Regroup(old(events), trip.work + [Emit(trip.row)], trip.after);
    }

    /** The candidate loop with its continue and break paths, from candidate i on. */
    method Loop(batch: seq<Candidate>, outcome: nat -> Outcome)
      modifies this`events
      ensures events == old(events) + LoopEvents(Trips(batch, outcome, cfg), 0)
    {
      ghost var trips := Trips(batch, outcome, cfg);
      ghost var done: seq<Event> := [];
      var aborted := false;
      var i := 0;
      while i < |batch| && !aborted
        invariant 0 <= i <= |batch|
        invariant events == old(events) + done
        invariant LoopEvents(trips, 0) == done + if aborted then [] else LoopEvents(trips, i)
      {
        ghost var before := done;
        aborted := Step(batch[i], outcome(i));
        done := done + trips[i].Events();
        Regroup(old(events), before, trips[i].Events());
        Regroup(before, trips[i].Events(), if aborted then [] else LoopEvents(trips, i + 1));
        i := i + 1;
      }
    }

    method Run(batch: seq<Candidate>, outcome: nat -> Outcome)
      requires events == []
      modifies this`events
      ensures events == SessionEvents(Trips(batch, outcome, cfg))
    {
      ghost var trips := Trips(batch, outcome, cfg);
      Do([Beat(Bootstrap)]);
      assert events == [Beat(Bootstrap)];
      Loop(batch, outcome);
      assert events == [Beat(Bootstrap)] + LoopEvents(trips, 0);
      Do([Beat(End), Barrier]);
    }
  }

}
