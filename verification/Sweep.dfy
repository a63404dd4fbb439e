/** The orchestrator's batch loop over one group of candidates: batch, session, requeue,
    two-attempt cap, ledger. */
module Sweep {
  import opened Optional
  import opened Ledger
  import opened Worker

  /** A list comprehension's filter. */
  function Keep(xs: seq<Candidate>, p: Candidate -> bool): seq<Candidate> {
    if |xs| == 0 then []
    else (if p(xs[0]) then [xs[0]] else []) + Keep(xs[1..], p)
  }

  function Without(xs: seq<Candidate>, gone: set<string>): seq<Candidate> {
    Keep(xs, (c: Candidate) => c.id !in gone)
  }

  /** Python's xs[:k], for any integer k. */
  function Slice(xs: seq<Candidate>, k: int): seq<Candidate> {
    if k >= 0 then (if k <= |xs| then xs[..k] else xs)
    else if |xs| + k >= 0 then xs[..|xs| + k] else []
  }

  function Att(attempts: map<string, nat>, id: string): nat {
    if id in attempts then attempts[id] else 0
  }

  function Bump(attempts: map<string, nat>, chunk: seq<Candidate>): map<string, nat>
    decreases |chunk|
  {
    if |chunk| == 0 then attempts
    else Bump(attempts[chunk[0].id := Att(attempts, chunk[0].id) + 1], chunk[1..])
  }

  datatype Group = Group(tokens: int, paced: bool)

  /** A row the orchestrator writes itself. */
  function OwnRow(c: Candidate, g: Group, status: Status): Row {
    JsonToRow(JsonRow(c.id, c.stage, g.tokens, c.knobs, c.closure, g.paced, status, None, None, None))
  }

  function OwnRows(cs: seq<Candidate>, g: Group, status: Status): seq<Row> {
    seq(|cs|, i requires 0 <= i < |cs| => OwnRow(cs[i], g, status))
  }

  function CsvRows(rows: seq<JsonRow>): seq<Row> {
    seq(|rows|, i requires 0 <= i < |rows| => JsonToRow(rows[i]))
  }

  function JsonIds(rows: seq<JsonRow>): set<string> { set r | r in rows :: r.id }

  function Ids(cs: seq<Candidate>): set<string> { set c | c in cs :: c.id }

  function RowIds(rows: seq<Row>): set<string> { set r | r in rows :: r.id }

  /** One session as the orchestrator logs it. */
  datatype Logged = Logged(chunk: seq<Candidate>, rows: seq<JsonRow>, hang: Option<Who>)

  datatype Loop = Loop(pending: seq<Candidate>, attempts: map<string, nat>, ledger: seq<Row>, batches: nat,
    log: seq<Logged>)

  function Hung(e: Logged): seq<Candidate> {
    Keep(e.chunk, (c: Candidate) => e.hang == Some(Config(c.id)))
  }

  /** Ids that have a row after the session and the watchdog. */
  function Got(e: Logged): set<string> { JsonIds(e.rows) + Ids(Hung(e)) }

  function Aborted(e: Logged, attempts: map<string, nat>): seq<Candidate> {
    Keep(Without(e.chunk, Got(e)), (c: Candidate) => Att(attempts, c.id) >= 2)
  }

  function NewRows(e: Logged, attempts: map<string, nat>, g: Group): seq<Row> {
    CsvRows(e.rows) + OwnRows(Hung(e), g, HANG) + OwnRows(Aborted(e, attempts), g, ABORTED)
  }

  /** One pass of the batch loop, once the session's outcome is known. */
  function Settle(s: Loop, e: Logged, g: Group): Loop {
    var attempts := Bump(s.attempts, e.chunk);
    Loop(Without(s.pending, Got(e) + Ids(Aborted(e, attempts))), attempts, s.ledger + NewRows(e, attempts, g),
         s.batches + 1, s.log + [e])
  }

  /** The session run on a chunk in a given environment. */
  function SessionOf(chunk: seq<Candidate>, env: Env, cfg: Setup): Logged {
    var trips := Trips(chunk, env.outcome, cfg);
    Logged(chunk, Seen(trips, env), Hang(trips, env))
  }

  /** What every session guarantees: rows for a prefix of the chunk, in order; a blamed config
      belongs to the chunk. */
  ghost predicate Possible(e: Logged) {
    && |e.rows| <= |e.chunk|
    && (forall i :: 0 <= i < |e.rows| ==>
          e.rows[i].id == e.chunk[i].id && e.rows[i].status !in {HANG, ABORTED, INVALID})
    && (e.hang.Some? && e.hang.value.Config? ==> e.hang.value.id in Ids(e.chunk))
  }

  lemma SessionPossible(chunk: seq<Candidate>, env: Env, cfg: Setup)
    ensures Possible(SessionOf(chunk, env, cfg))
  {
    var trips := Trips(chunk, env.outcome, cfg);
    TripsOk(chunk, env.outcome, cfg);
    var b := SessionOutcome(trips, env);
    var e := SessionOf(chunk, env, cfg);
    forall i | 0 <= i < |e.rows|
      ensures e.rows[i].id == e.chunk[i].id && e.rows[i].status !in {HANG, ABORTED, INVALID}
    {
      assert e.rows[i] == trips[0 + i].row;
      assert trips[i] == TripOf(chunk[i], env.outcome(i), cfg);
    }
    if e.hang.Some? && e.hang.value.Config? {
      assert trips[b] == TripOf(chunk[b], env.outcome(b), cfg);
      assert chunk[b] in chunk;
    }
  }

  // ----- filters and counters -----

  lemma {:induction false} KeepMembers(xs: seq<Candidate>, p: Candidate -> bool)
    ensures forall c :: c in Keep(xs, p) <==> c in xs && p(c)
    ensures |Keep(xs, p)| <= |xs|
  {
    if |xs| > 0 {
      KeepMembers(xs[1..], p);
      assert forall c :: c in xs <==> c == xs[0] || c in xs[1..];
    }
  }

  lemma {:induction false} KeepKeep(xs: seq<Candidate>, p: Candidate -> bool, q: Candidate -> bool,
                                    r: Candidate -> bool)
    requires forall c :: c in xs ==> r(c) == (p(c) && q(c))
    ensures Keep(Keep(xs, p), q) == Keep(xs, r)
  {
    if |xs| > 0 {
      KeepKeep(xs[1..], p, q, r);
      assert xs[0] in xs;
      var rest := Keep(xs[1..], p);
      if p(xs[0]) {
        assert Keep(xs, p) == [xs[0]] + rest && ([xs[0]] + rest)[1..] == rest;
      } else {
        assert Keep(xs, p) == rest;
      }
    }
  }

  lemma {:induction false} KeepAll(xs: seq<Candidate>, p: Candidate -> bool)
    requires forall c :: c in xs ==> p(c)
    ensures Keep(xs, p) == xs
  {
    if |xs| > 0 {
      assert xs[0] in xs;
      KeepAll(xs[1..], p);
    }
  }

  lemma WithoutMembers(xs: seq<Candidate>, gone: set<string>)
    ensures forall c :: c in Without(xs, gone) <==> c in xs && c.id !in gone
  {
    KeepMembers(xs, (c: Candidate) => c.id !in gone);
  }

  lemma WithoutWithout(xs: seq<Candidate>, gone: set<string>, more: set<string>)
    ensures Without(Without(xs, gone), more) == Without(xs, gone + more)
  {
    KeepKeep(xs, (c: Candidate) => c.id !in gone, (c: Candidate) => c.id !in more,
      (c: Candidate) => c.id !in gone + more);
  }

  ghost predicate DistinctIds(xs: seq<Candidate>) {
    forall i, j :: 0 <= i < j < |xs| ==> xs[i].id != xs[j].id
  }

  lemma {:induction false} BumpCounts(attempts: map<string, nat>, chunk: seq<Candidate>, id: string)
    ensures id !in Ids(chunk) ==> Att(Bump(attempts, chunk), id) == Att(attempts, id)
    ensures id in Ids(chunk) ==> Att(Bump(attempts, chunk), id) >= Att(attempts, id) + 1
    ensures id in Ids(chunk) && DistinctIds(chunk) ==> Att(Bump(attempts, chunk), id) == Att(attempts, id) + 1
    decreases |chunk|
  {
    if |chunk| > 0 {
      var c := chunk[0];
      BumpCounts(attempts[c.id := Att(attempts, c.id) + 1], chunk[1..], id);
      assert Ids(chunk) == {c.id} + Ids(chunk[1..]);
      if c.id in Ids(chunk[1..]) {
        var d :| d in chunk[1..] && d.id == c.id;
        var i :| 0 <= i < |chunk[1..]| && chunk[1..][i] == d;
        assert chunk[i + 1].id == chunk[0].id;
      }
    }
  }

  lemma SliceIsPrefix(xs: seq<Candidate>, k: int)
    ensures Slice(xs, k) <= xs
    ensures k >= 1 ==> |Slice(xs, k)| == if k <= |xs| then k else |xs|
    ensures k <= 0 && |xs| > 0 ==> |Slice(xs, k)| < |xs|
  {
  }

  // ----- one pass -----

  /** What is pending has been tried at most once. */
  ghost predicate Fresh(s: Loop) {
    forall c :: c in s.pending ==> Att(s.attempts, c.id) <= 1
  }

  function Measure(pending: seq<Candidate>, attempts: map<string, nat>): int {
    if |pending| == 0 then 0 else 2 - Att(attempts, pending[0].id) + Measure(pending[1..], attempts)
  }

  lemma {:induction false} MeasureBounds(pending: seq<Candidate>, attempts: map<string, nat>)
    requires forall c :: c in pending ==> Att(attempts, c.id) <= 1
    ensures |pending| <= Measure(pending, attempts) <= 2 * |pending|
    ensures (exists c :: c in pending && Att(attempts, c.id) == 0) || Measure(pending, attempts) == |pending|
  {
    if |pending| > 0 {
      assert pending[0] in pending;
      MeasureBounds(pending[1..], attempts);
    }
  }

  lemma {:induction false} MeasureFalls(xs: seq<Candidate>, k: nat, a: map<string, nat>, a': map<string, nat>,
                                        gone: set<string>)
    requires k <= |xs|
    requires forall c :: c in xs ==> Att(a, c.id) <= 1 && Att(a, c.id) <= Att(a', c.id)
    requires forall i :: 0 <= i < k ==> xs[i].id in gone || (Att(a, xs[i].id) == 0 && Att(a', xs[i].id) == 1)
    ensures Measure(Without(xs, gone), a') + k <= Measure(xs, a)
  {
    if |xs| > 0 {
      assert xs[0] in xs;
      MeasureFalls(xs[1..], if k == 0 then 0 else k - 1, a, a', gone);
      WithoutCons(xs, gone);
      var rest := Without(xs[1..], gone);
      if xs[0].id in gone {
        assert Without(xs, gone) == rest;
      } else {
        assert Without(xs, gone) == [xs[0]] + rest && ([xs[0]] + rest)[1..] == rest;
        assert Measure(Without(xs, gone), a') == 2 - Att(a', xs[0].id) + Measure(rest, a');
      }
    }
  }

  lemma WithoutCons(xs: seq<Candidate>, gone: set<string>)
    requires |xs| > 0
    ensures Without(xs, gone) == (if xs[0].id in gone then [] else [xs[0]]) + Without(xs[1..], gone)
  {
  }

  lemma AbortedMembers(e: Logged, attempts: map<string, nat>)
    ensures forall c :: c in Aborted(e, attempts) <==> c in e.chunk && c.id !in Got(e) && Att(attempts, c.id) >= 2
  {
    WithoutMembers(e.chunk, Got(e));
    KeepMembers(Without(e.chunk, Got(e)), (c: Candidate) => Att(attempts, c.id) >= 2);
  }

  /** A pass uses up at least one attempt per candidate of its chunk, and what stays pending
      has been tried at most once. */
  lemma SettleUsesAttempts(s: Loop, e: Logged, g: Group)
    requires Fresh(s) && e.chunk <= s.pending
    ensures Fresh(Settle(s, e, g))
    ensures Measure(Settle(s, e, g).pending, Settle(s, e, g).attempts) + |e.chunk| <= Measure(s.pending, s.attempts)
  {
    var a' := Bump(s.attempts, e.chunk);
    var gone := Got(e) + Ids(Aborted(e, a'));
    AbortedMembers(e, a');
    WithoutMembers(s.pending, gone);
    forall c | c in s.pending
      ensures Att(s.attempts, c.id) <= Att(a', c.id)
      ensures c.id !in gone ==> Att(a', c.id) <= 1
      ensures c in e.chunk && c.id !in gone ==> Att(s.attempts, c.id) == 0 && Att(a', c.id) == 1
    {
      BumpCounts(s.attempts, e.chunk, c.id);
      if c.id in Ids(e.chunk) && c.id !in gone {
        var d :| d in e.chunk && d.id == c.id;
        assert d !in Aborted(e, a');
      }
    }
    MeasureFalls(s.pending, |e.chunk|, s.attempts, a', gone);
  }

  // ----- the loop -----

  datatype Ending = Completed | MaxBatches | EmptyChunk

  /** The batch loop of one group. An empty chunk makes the source fail on chunk[0]. */
  function RunLoop(s: Loop, g: Group, batchSize: int, maxBatches: Option<nat>, cfg: Setup, envs: nat -> Env)
    : (Loop, Ending)
    requires Fresh(s)
    decreases Measure(s.pending, s.attempts)
  {
    var chunk := Slice(s.pending, batchSize);
    if |s.pending| == 0 then (s, Completed)
    else if maxBatches.Some? && s.batches >= maxBatches.value then (s, MaxBatches)
    else if |chunk| == 0 then (s, EmptyChunk)
    else
      var e := SessionOf(chunk, envs(s.batches), cfg);
      SliceIsPrefix(s.pending, batchSize);
      SettleUsesAttempts(s, e, g);
      MeasureBounds(Settle(s, e, g).pending, Settle(s, e, g).attempts);
      RunLoop(Settle(s, e, g), g, batchSize, maxBatches, cfg, envs)
  }

  function Start(group: seq<Candidate>, ledger: seq<Row>, batches: nat): Loop {
    Loop(group, map[], ledger, batches, [])
  }
}
