/** Whole-run accounting of the batch loop: nothing is lost, how often a config is ledgered,
    what ABORTED means, and how many sessions a group can take. */
module SweepTheorems {
  import opened Arith
  import opened Optional
  import opened Ledger
  import opened Worker
  import opened Sweep

  // ----- nothing is lost -----

  /** Rows were only appended, and pending is the group, in order, without the candidates that
      have a row by now. */
  ghost predicate Accounted(group: seq<Candidate>, base: seq<Row>, s: Loop) {
    && base <= s.ledger
    && s.pending == Without(group, RowIds(s.ledger[|base|..]))
    && RowIds(s.ledger[|base|..]) <= Ids(group)
  }

  lemma NewRowIds(e: Logged, attempts: map<string, nat>, g: Group)
    ensures RowIds(NewRows(e, attempts, g)) == Got(e) + Ids(Aborted(e, attempts))
  {
    var all := NewRows(e, attempts, g);
    var a, b, c := CsvRows(e.rows), OwnRows(Hung(e), g, HANG), OwnRows(Aborted(e, attempts), g, ABORTED);
    CsvRowIds(e.rows);
    OwnRowIds(Hung(e), g, HANG);
    OwnRowIds(Aborted(e, attempts), g, ABORTED);
    RowIdsAppend(a, b);
    RowIdsAppend(a + b, c);
  }

  lemma RowIdsAppend(a: seq<Row>, b: seq<Row>)
    ensures RowIds(a + b) == RowIds(a) + RowIds(b)
  {
  }

  lemma CsvRowIds(rows: seq<JsonRow>)
    ensures RowIds(CsvRows(rows)) == JsonIds(rows)
  {
    var csv := CsvRows(rows);
    forall id
      ensures id in RowIds(csv) <==> id in JsonIds(rows)
    {
      if id in RowIds(csv) {
        var i :| 0 <= i < |csv| && csv[i].id == id;
        assert rows[i].id == id && rows[i] in rows;
      }
      if id in JsonIds(rows) {
        var i :| 0 <= i < |rows| && rows[i].id == id;
        assert csv[i].id == id && csv[i] in csv;
      }
    }
  }

  lemma OwnRowIds(cs: seq<Candidate>, g: Group, status: Status)
    ensures RowIds(OwnRows(cs, g, status)) == Ids(cs)
  {
    var own := OwnRows(cs, g, status);
    forall id
      ensures id in RowIds(own) <==> id in Ids(cs)
    {
      if id in RowIds(own) {
        var i :| 0 <= i < |own| && own[i].id == id;
        assert cs[i].id == id && cs[i] in cs;
      }
      if id in Ids(cs) {
        var i :| 0 <= i < |cs| && cs[i].id == id;
        assert own[i].id == id && own[i] in own;
      }
    }
  }

  lemma HungMembers(e: Logged)
    ensures forall c :: c in Hung(e) <==> c in e.chunk && e.hang == Some(Config(c.id))
  {
    KeepMembers(e.chunk, (c: Candidate) => e.hang == Some(Config(c.id)));
  }

  /** The session ledgers only candidates of its chunk. */
  lemma GotInChunk(e: Logged, attempts: map<string, nat>)
    requires Possible(e)
    ensures Got(e) + Ids(Aborted(e, attempts)) <= Ids(e.chunk)
  {
    HungMembers(e);
    AbortedMembers(e, attempts);
    forall id | id in JsonIds(e.rows)
      ensures id in Ids(e.chunk)
    {
      var i :| 0 <= i < |e.rows| && e.rows[i].id == id;
      assert e.chunk[i] in e.chunk;
    }
  }

  lemma SettleAccounted(group: seq<Candidate>, base: seq<Row>, s: Loop, e: Logged, g: Group)
    requires Accounted(group, base, s) && e.chunk <= s.pending && Possible(e)
    ensures Accounted(group, base, Settle(s, e, g))
  {
    var a' := Bump(s.attempts, e.chunk);
    var s' := Settle(s, e, g);
    NewRowIds(e, a', g);
    GotInChunk(e, a');
    assert s'.ledger[|base|..] == s.ledger[|base|..] + NewRows(e, a', g);
    RowIdsAppend(s.ledger[|base|..], NewRows(e, a', g));
    WithoutWithout(group, RowIds(s.ledger[|base|..]), Got(e) + Ids(Aborted(e, a')));
    WithoutMembers(group, RowIds(s.ledger[|base|..]));
    assert forall c :: c in e.chunk ==> c in s.pending;
  }

  /** In every state the loop can end in, completed or not, the candidates without a row are
      exactly the pending ones, in group order; once completed, every candidate has a row. */
  lemma {:induction false} NothingLost(group: seq<Candidate>, base: seq<Row>, s: Loop, g: Group, batchSize: int,
                                       maxBatches: Option<nat>, cfg: Setup, envs: nat -> Env)
    requires Fresh(s) && Accounted(group, base, s)
    ensures var (end, how) := RunLoop(s, g, batchSize, maxBatches, cfg, envs);
      && Accounted(group, base, end)
      && (how == Completed ==> forall c :: c in group ==> c.id in RowIds(end.ledger[|base|..]))
    decreases Measure(s.pending, s.attempts)
  {
    var chunk := Slice(s.pending, batchSize);
    if |s.pending| == 0 {
      WithoutMembers(group, RowIds(s.ledger[|base|..]));
    } else if (maxBatches.Some? && s.batches >= maxBatches.value) || |chunk| == 0 {
    } else {
      var e := SessionOf(chunk, envs(s.batches), cfg);
      SliceIsPrefix(s.pending, batchSize);
      SettleUsesAttempts(s, e, g);
      MeasureBounds(Settle(s, e, g).pending, Settle(s, e, g).attempts);
      SessionPossible(chunk, envs(s.batches), cfg);
      SettleAccounted(group, base, s, e, g);
      NothingLost(group, base, Settle(s, e, g), g, batchSize, maxBatches, cfg, envs);
    }
  }

  lemma StartAccounted(group: seq<Candidate>, ledger: seq<Row>, batches: nat)
    ensures Fresh(Start(group, ledger, batches)) && Accounted(group, ledger, Start(group, ledger, batches))
  {
    assert ledger[|ledger|..] == [];
    KeepAll(group, (c: Candidate) => c.id !in RowIds([]));
  }

  // ----- how many sessions -----

  /** The most sessions that n pending candidates with attempts left in all `measure` need. */
  function Left(n: nat, measure: nat, batchSize: nat): nat
    requires batchSize > 0
  {
    if n == 0 then 0
    else if n < batchSize then (if measure == n then 1 else 2)
    else measure / batchSize + 2
  }

  ghost function SessionsLeft(s: Loop, batchSize: nat): nat
    requires batchSize > 0 && Fresh(s)
  {
    MeasureBounds(s.pending, s.attempts);
    Left(|s.pending|, Measure(s.pending, s.attempts), batchSize)
  }

  lemma LeftDrops(n: nat, m: nat, n': nat, m': nat, batchSize: nat)
    requires batchSize > 0 && 0 < n <= m && n' <= n && n' <= m'
    requires if n < batchSize then m' == n' && (m == n ==> n' == 0) else m' + batchSize <= m
    ensures Left(n', m', batchSize) + 1 <= Left(n, m, batchSize)
  {
    if n >= batchSize {
      DivDrop(m, m', batchSize);
    }
  }

  lemma SettleUsesSession(s: Loop, e: Logged, g: Group, batchSize: nat)
    requires Fresh(s) && batchSize > 0 && |s.pending| > 0 && e.chunk == Slice(s.pending, batchSize)
    ensures Fresh(Settle(s, e, g)) && SessionsLeft(Settle(s, e, g), batchSize) + 1 <= SessionsLeft(s, batchSize)
  {
    SliceIsPrefix(s.pending, batchSize);
    SettleUsesAttempts(s, e, g);
    var s' := Settle(s, e, g);
    MeasureBounds(s.pending, s.attempts);
    MeasureBounds(s'.pending, s'.attempts);
    PendingShrinks(s, e, g);
    if |s.pending| < batchSize {
      AllTriedOnce(s, e, g);
    }
    LeftDrops(|s.pending|, Measure(s.pending, s.attempts), |s'.pending|, Measure(s'.pending, s'.attempts), batchSize);
  }

  lemma PendingShrinks(s: Loop, e: Logged, g: Group)
    ensures |Settle(s, e, g).pending| <= |s.pending|
  {
    var gone := Got(e) + Ids(Aborted(e, Bump(s.attempts, e.chunk)));
    KeepMembers(s.pending, (c: Candidate) => c.id !in gone);
  }

  /** After a session over everything pending, what is still pending has been tried once. */
  lemma AllTriedOnce(s: Loop, e: Logged, g: Group)
    requires Fresh(s) && e.chunk == s.pending
    ensures var s' := Settle(s, e, g); Measure(s'.pending, s'.attempts) == |s'.pending|
  {
    var s' := Settle(s, e, g);
    var a' := Bump(s.attempts, e.chunk);
    SettleUsesAttempts(s, e, g);
    WithoutMembers(s.pending, Got(e) + Ids(Aborted(e, a')));
    forall c | c in s'.pending
      ensures Att(s'.attempts, c.id) == 1
    {
      BumpCounts(s.attempts, e.chunk, c.id);
      assert c.id in Ids(e.chunk);
    }
    MeasureBounds(s'.pending, s'.attempts);
  }

  lemma {:induction false} SessionsWithin(s: Loop, g: Group, batchSize: nat, maxBatches: Option<nat>, cfg: Setup,
                                          envs: nat -> Env)
    requires Fresh(s) && batchSize > 0
    ensures var (end, how) := RunLoop(s, g, batchSize, maxBatches, cfg, envs);
      && end.batches - s.batches == |end.log| - |s.log| <= SessionsLeft(s, batchSize)
      && (how == MaxBatches ==> maxBatches.Some?) && how != EmptyChunk
    decreases Measure(s.pending, s.attempts)
  {
    MeasureBounds(s.pending, s.attempts);
    var chunk := Slice(s.pending, batchSize);
    SliceIsPrefix(s.pending, batchSize);
    if |s.pending| > 0 && !(maxBatches.Some? && s.batches >= maxBatches.value) {
      var e := SessionOf(chunk, envs(s.batches), cfg);
      SettleUsesAttempts(s, e, g);
      SettleUsesSession(s, e, g, batchSize);
      MeasureBounds(Settle(s, e, g).pending, Settle(s, e, g).attempts);
      SessionsWithin(Settle(s, e, g), g, batchSize, maxBatches, cfg, envs);
    }
  }

  /** A batch limit is kept, and ends the loop exactly when it is used up with something pending. */
  lemma {:induction false} BatchLimit(s: Loop, g: Group, batchSize: int, limit: nat, cfg: Setup, envs: nat -> Env)
    requires Fresh(s) && s.batches <= limit
    ensures var (end, how) := RunLoop(s, g, batchSize, Some(limit), cfg, envs);
      end.batches <= limit && (how == MaxBatches <==> end.batches == limit && end.pending != [])
    decreases Measure(s.pending, s.attempts)
  {
    var chunk := Slice(s.pending, batchSize);
    if |s.pending| > 0 && s.batches < limit && |chunk| > 0 {
      var e := SessionOf(chunk, envs(s.batches), cfg);
      SliceIsPrefix(s.pending, batchSize);
      SettleUsesAttempts(s, e, g);
      MeasureBounds(Settle(s, e, g).pending, Settle(s, e, g).attempts);
      BatchLimit(Settle(s, e, g), g, batchSize, limit, cfg, envs);
    }
  }

  /** With batch size B >= 1, whatever the sessions do, a group of n candidates takes at most
      2n / B + 2 of them, and without a batch limit the loop completes. */
  lemma SessionBound(group: seq<Candidate>, ledger: seq<Row>, batches: nat, g: Group, batchSize: nat,
                     maxBatches: Option<nat>, cfg: Setup, envs: nat -> Env)
    requires batchSize > 0
    ensures var (end, how) := RunLoop(Start(group, ledger, batches), g, batchSize, maxBatches, cfg, envs);
      && |end.log| <= 2 * |group| / batchSize + 2
      && (maxBatches.None? ==> how == Completed)
  {
    var s := Start(group, ledger, batches);
    SessionsWithin(s, g, batchSize, maxBatches, cfg, envs);
    MeasureBounds(s.pending, s.attempts);
    DivMonotone(Measure(s.pending, s.attempts), 2 * |group|, batchSize);
    DivMonotone(0, 2 * |group|, batchSize);
  }
}
