/** How often each config of a group with distinct ids is ledgered, and what ABORTED means. */
module SweepCounts {
  import opened Optional
  import opened Ledger
  import opened Worker
  import opened Sweep
  import opened SweepTheorems

  function IdSeq(rows: seq<Row>): seq<string> {
    seq(|rows|, i requires 0 <= i < |rows| => rows[i].id)
  }

  /** How many rows are filed for a config. */
  ghost function Times(rows: seq<Row>, id: string): nat { multiset(IdSeq(rows))[id] }

  /** How many sessions had the config in their chunk. */
  function InChunks(log: seq<Logged>, id: string): nat {
    if |log| == 0 then 0
    else InChunks(log[..|log| - 1], id) + if id in Ids(log[|log| - 1].chunk) then 1 else 0
  }

  /** Some session ledgered a row for the config and then blamed it for a hang. */
  ghost predicate HungAfterRow(log: seq<Logged>, id: string) {
    exists i :: 0 <= i < |log| && log[i].hang == Some(Config(id)) && id in JsonIds(log[i].rows)
  }

  /** No session yielded a row for the config, nor did the watchdog. */
  ghost predicate NeverGot(log: seq<Logged>, id: string) {
    forall i :: 0 <= i < |log| ==> id !in Got(log[i])
  }

  ghost predicate HasAborted(rows: seq<Row>, id: string) {
    exists i :: 0 <= i < |rows| && rows[i].id == id && rows[i].status == ABORTED
  }

  /** Pending: no row yet, and attempts counts its chunks. Not pending: one row, or two if it
      hung after its row; an ABORTED row iff two chunks had it and nothing came of either. */
  ghost predicate ConfigOk(base: nat, s: Loop, id: string)
    requires base <= |s.ledger|
  {
    var added := s.ledger[base..];
    if id in Ids(s.pending) then
      Times(added, id) == 0 && NeverGot(s.log, id) && !HungAfterRow(s.log, id) && !HasAborted(added, id)
      && Att(s.attempts, id) == InChunks(s.log, id)
    else
      Times(added, id) == (if HungAfterRow(s.log, id) then 2 else 1)
      && (HasAborted(added, id) <==> NeverGot(s.log, id)) && (NeverGot(s.log, id) ==> InChunks(s.log, id) == 2)
  }

  ghost predicate Counted(group: seq<Candidate>, base: nat, s: Loop) {
    && base <= |s.ledger| && DistinctIds(s.pending) && Ids(s.pending) <= Ids(group)
    && forall id :: id in Ids(group) ==> ConfigOk(base, s, id)
  }

  lemma {:induction false} OnceIfDistinct(ids: seq<string>, id: string)
    requires forall i, j :: 0 <= i < j < |ids| ==> ids[i] != ids[j]
    ensures multiset(ids)[id] == if id in ids then 1 else 0
  {
    if |ids| > 0 {
      var n := |ids| - 1;
      OnceIfDistinct(ids[..n], id);
      assert ids == ids[..n] + [ids[n]];
    }
  }

  lemma {:induction false} KeepDistinct(xs: seq<Candidate>, p: Candidate -> bool)
    requires DistinctIds(xs)
    ensures DistinctIds(Keep(xs, p))
  {
    if |xs| > 0 {
      assert forall i, j :: 0 <= i < j < |xs[1..]| ==> xs[1..][i] == xs[i + 1] && xs[1..][j] == xs[j + 1];
      KeepDistinct(xs[1..], p);
      KeepMembers(xs[1..], p);
      var rest := Keep(xs[1..], p);
      if p(xs[0]) {
        assert Keep(xs, p) == [xs[0]] + rest;
        forall j | 0 <= j < |rest|
          ensures rest[j].id != xs[0].id
        {
          assert rest[j] in rest;
          var k :| 0 <= k < |xs[1..]| && xs[1..][k] == rest[j];
        }
      } else {
        assert Keep(xs, p) == rest;
      }
    }
  }

  lemma TimesAppend(a: seq<Row>, b: seq<Row>, id: string)
    ensures Times(a + b, id) == Times(a, id) + Times(b, id)
  {
    assert IdSeq(a + b) == IdSeq(a) + IdSeq(b);
  }

  lemma OwnTimes(cs: seq<Candidate>, g: Group, status: Status, id: string)
    requires DistinctIds(cs)
    ensures Times(OwnRows(cs, g, status), id) == if id in Ids(cs) then 1 else 0
  {
    OnceIfDistinct(IdSeq(OwnRows(cs, g, status)), id);
    IdSeqMembers(OwnRows(cs, g, status), id);
    OwnRowIds(cs, g, status);
  }

  lemma IdSeqMembers(rows: seq<Row>, id: string)
    ensures id in IdSeq(rows) <==> id in RowIds(rows)
  {
    if id in IdSeq(rows) {
      var i :| 0 <= i < |rows| && IdSeq(rows)[i] == id;
      assert rows[i] in rows;
    }
    if id in RowIds(rows) {
      var i :| 0 <= i < |rows| && rows[i].id == id;
      assert IdSeq(rows)[i] == id;
    }
  }

  lemma CsvTimes(e: Logged, id: string)
    requires Possible(e) && DistinctIds(e.chunk)
    ensures Times(CsvRows(e.rows), id) == if id in JsonIds(e.rows) then 1 else 0
  {
    OnceIfDistinct(IdSeq(CsvRows(e.rows)), id);
    IdSeqMembers(CsvRows(e.rows), id);
    CsvRowIds(e.rows);
  }

  /** What one session adds for a config. */
  lemma NewTimes(e: Logged, attempts: map<string, nat>, g: Group, id: string)
    requires Possible(e) && DistinctIds(e.chunk)
    ensures Times(NewRows(e, attempts, g), id)
      == (if id in JsonIds(e.rows) then 1 else 0) + (if id in Ids(Hung(e)) then 1 else 0)
       + (if id in Ids(Aborted(e, attempts)) then 1 else 0)
  {
    KeepDistinct(e.chunk, (c: Candidate) => e.hang == Some(Config(c.id)));
    KeepDistinct(e.chunk, (c: Candidate) => c.id !in Got(e));
    KeepDistinct(Without(e.chunk, Got(e)), (c: Candidate) => Att(attempts, c.id) >= 2);
    CsvTimes(e, id);
    OwnTimes(Hung(e), g, HANG, id);
    OwnTimes(Aborted(e, attempts), g, ABORTED, id);
    TimesAppend(CsvRows(e.rows), OwnRows(Hung(e), g, HANG), id);
    TimesAppend(CsvRows(e.rows) + OwnRows(Hung(e), g, HANG), OwnRows(Aborted(e, attempts), g, ABORTED), id);
  }

  lemma NewAborted(e: Logged, attempts: map<string, nat>, g: Group, id: string)
    requires Possible(e)
    ensures HasAborted(NewRows(e, attempts, g), id) <==> id in Ids(Aborted(e, attempts))
  {
    var a, b, c := CsvRows(e.rows), OwnRows(Hung(e), g, HANG), OwnRows(Aborted(e, attempts), g, ABORTED);
    HasAbortedAppend(a, b, id);
    HasAbortedAppend(a + b, c, id);
    OwnRowIds(Aborted(e, attempts), g, ABORTED);
    if HasAborted(c, id) {
      var i :| 0 <= i < |c| && c[i].id == id;
      assert c[i] in c;
    }
    if id in RowIds(c) {
      var i :| 0 <= i < |c| && c[i].id == id;
      assert c[i].status == ABORTED;
    }
  }

  lemma HasAbortedAppend(a: seq<Row>, b: seq<Row>, id: string)
    ensures HasAborted(a + b, id) <==> HasAborted(a, id) || HasAborted(b, id)
  {
    if HasAborted(a, id) {
      var i :| 0 <= i < |a| && a[i].id == id && a[i].status == ABORTED;
      assert (a + b)[i] == a[i];
    }
    if HasAborted(b, id) {
      var i :| 0 <= i < |b| && b[i].id == id && b[i].status == ABORTED;
      assert (a + b)[|a| + i] == b[i];
    }
  }

  lemma LogSnoc(log: seq<Logged>, e: Logged, id: string)
    ensures InChunks(log + [e], id) == InChunks(log, id) + if id in Ids(e.chunk) then 1 else 0
    ensures NeverGot(log + [e], id) <==> NeverGot(log, id) && id !in Got(e)
    ensures HungAfterRow(log + [e], id) <==>
            HungAfterRow(log, id) || (e.hang == Some(Config(id)) && id in JsonIds(e.rows))
  {
    var all := log + [e];
    assert all[..|all| - 1] == log && all[|log|] == e;
    assert forall i :: 0 <= i < |log| ==> all[i] == log[i];
    if HungAfterRow(log, id) {
      var i :| 0 <= i < |log| && log[i].hang == Some(Config(id)) && id in JsonIds(log[i].rows);
      assert all[i] == log[i];
    }
  }

  /** The config's id is in the chunk list of the session. */
  lemma IdsOfPrefix(chunk: seq<Candidate>, pending: seq<Candidate>)
    requires chunk <= pending
    ensures Ids(chunk) <= Ids(pending) && (DistinctIds(pending) ==> DistinctIds(chunk))
  {
    assert forall c :: c in chunk ==> c in pending;
  }

  lemma WithoutIds(xs: seq<Candidate>, gone: set<string>)
    ensures Ids(Without(xs, gone)) == Ids(xs) - gone
  {
    WithoutMembers(xs, gone);
    forall id | id in Ids(xs) - gone
      ensures id in Ids(Without(xs, gone))
    {
      var c :| c in xs && c.id == id;
      assert c in Without(xs, gone);
    }
  }

  lemma HungIds(e: Logged, id: string)
    requires Possible(e)
    ensures id in Ids(Hung(e)) <==> e.hang == Some(Config(id))
  {
    HungMembers(e);
    if e.hang == Some(Config(id)) {
      var c :| c in e.chunk && c.id == id;
      assert c in Hung(e);
    }
  }

  lemma AbortedIds(e: Logged, attempts: map<string, nat>, id: string)
    ensures id in Ids(Aborted(e, attempts)) <==> id in Ids(e.chunk) && id !in Got(e) && Att(attempts, id) >= 2
  {
    AbortedMembers(e, attempts);
    if id in Ids(e.chunk) && id !in Got(e) && Att(attempts, id) >= 2 {
      var c :| c in e.chunk && c.id == id;
      assert c in Aborted(e, attempts);
    }
  }

  function One(b: bool): nat { if b then 1 else 0 }

  /** What a pass does to everything ConfigOk speaks of. */
  lemma StepLedger(base: nat, s: Loop, e: Logged, g: Group, id: string)
    requires base <= |s.ledger| && DistinctIds(e.chunk) && Possible(e)
    ensures var a' := Bump(s.attempts, e.chunk); var s' := Settle(s, e, g);
      var aborted := id in Ids(e.chunk) && id !in Got(e) && Att(a', id) >= 2;
      && base <= |s'.ledger|
      && Times(s'.ledger[base..], id) == Times(s.ledger[base..], id)
           + One(id in JsonIds(e.rows)) + One(e.hang == Some(Config(id))) + One(aborted)
      && (HasAborted(s'.ledger[base..], id) <==> HasAborted(s.ledger[base..], id) || aborted)
      && (id in Ids(s'.pending) <==> id in Ids(s.pending) && id !in Got(e) && !aborted)
  {
    var a' := Bump(s.attempts, e.chunk);
    var s' := Settle(s, e, g);
    var added, more := s.ledger[base..], NewRows(e, a', g);
    WithoutIds(s.pending, Got(e) + Ids(Aborted(e, a')));
    AbortedIds(e, a', id);
    HungIds(e, id);
    NewTimes(e, a', g, id);
    NewAborted(e, a', g, id);
    assert s'.ledger[base..] == added + more;
    TimesAppend(added, more, id);
    HasAbortedAppend(added, more, id);
  }

  lemma GotMeans(e: Logged, id: string)
    requires Possible(e)
    ensures id in Got(e) <==> id in JsonIds(e.rows) || e.hang == Some(Config(id))
    ensures id in Got(e) ==> id in Ids(e.chunk)
  {
    HungIds(e, id);
    GotInChunk(e, map[]);
  }

  lemma ConfigOkStep(base: nat, s: Loop, e: Logged, g: Group, id: string)
    requires base <= |s.ledger| && Fresh(s) && DistinctIds(s.pending) && e.chunk <= s.pending && Possible(e)
    requires ConfigOk(base, s, id)
    ensures ConfigOk(base, Settle(s, e, g), id)
  {
    IdsOfPrefix(e.chunk, s.pending);
    StepLedger(base, s, e, g, id);
    BumpCounts(s.attempts, e.chunk, id);
    GotMeans(e, id);
    LogSnoc(s.log, e, id);
    if id in Ids(s.pending) {
      var c :| c in s.pending && c.id == id;
      assert Att(s.attempts, id) <= 1;
    }
  }

  lemma CountedStep(group: seq<Candidate>, base: nat, s: Loop, e: Logged, g: Group)
    requires Fresh(s) && Counted(group, base, s) && e.chunk <= s.pending && Possible(e)
    ensures Counted(group, base, Settle(s, e, g))
  {
    var gone := Got(e) + Ids(Aborted(e, Bump(s.attempts, e.chunk)));
    KeepDistinct(s.pending, (c: Candidate) => c.id !in gone);
    WithoutIds(s.pending, gone);
    forall id | id in Ids(group)
      ensures ConfigOk(base, Settle(s, e, g), id)
    {
      ConfigOkStep(base, s, e, g, id);
    }
  }

  lemma {:induction false} CountedRun(group: seq<Candidate>, base: nat, s: Loop, g: Group, batchSize: int,
                                      maxBatches: Option<nat>, cfg: Setup, envs: nat -> Env)
    requires Fresh(s) && Counted(group, base, s)
    ensures Counted(group, base, RunLoop(s, g, batchSize, maxBatches, cfg, envs).0)
    decreases Measure(s.pending, s.attempts)
  {
    var chunk := Slice(s.pending, batchSize);
    if |s.pending| > 0 && !(maxBatches.Some? && s.batches >= maxBatches.value) && |chunk| > 0 {
      var e := SessionOf(chunk, envs(s.batches), cfg);
      SliceIsPrefix(s.pending, batchSize);
      SettleUsesAttempts(s, e, g);
      MeasureBounds(Settle(s, e, g).pending, Settle(s, e, g).attempts);
      SessionPossible(chunk, envs(s.batches), cfg);
      CountedStep(group, base, s, e, g);
      CountedRun(group, base, Settle(s, e, g), g, batchSize, maxBatches, cfg, envs);
    }
  }

  lemma StartCounted(group: seq<Candidate>, ledger: seq<Row>, batches: nat)
    requires DistinctIds(group)
    ensures Counted(group, |ledger|, Start(group, ledger, batches))
  {
    assert ledger[|ledger|..] == [] && IdSeq([]) == [];
  }

  /** A completed group with distinct ids has exactly one new row per candidate, except two for
      a config that the watchdog blamed in the very session that had already ledgered it. */
  lemma OneRowEach(group: seq<Candidate>, ledger: seq<Row>, batches: nat, g: Group, batchSize: int,
                   maxBatches: Option<nat>, cfg: Setup, envs: nat -> Env, c: Candidate)
    requires DistinctIds(group) && c in group
    requires RunLoop(Start(group, ledger, batches), g, batchSize, maxBatches, cfg, envs).1 == Completed
    ensures var end := RunLoop(Start(group, ledger, batches), g, batchSize, maxBatches, cfg, envs).0;
      |ledger| <= |end.ledger| && Times(end.ledger[|ledger|..], c.id) == if HungAfterRow(end.log, c.id) then 2 else 1
  {
    StartCounted(group, ledger, batches);
    CountedRun(group, |ledger|, Start(group, ledger, batches), g, batchSize, maxBatches, cfg, envs);
    CompletedIsEmpty(Start(group, ledger, batches), g, batchSize, maxBatches, cfg, envs);
    assert c.id in Ids(group);
    assert ConfigOk(|ledger|, RunLoop(Start(group, ledger, batches), g, batchSize, maxBatches, cfg, envs).0, c.id);
  }

  lemma {:induction false} CompletedIsEmpty(s: Loop, g: Group, batchSize: int, maxBatches: Option<nat>, cfg: Setup,
                                            envs: nat -> Env)
    requires Fresh(s)
    ensures var (end, how) := RunLoop(s, g, batchSize, maxBatches, cfg, envs);
      (how == Completed <==> end.pending == []) && Fresh(end)
    decreases Measure(s.pending, s.attempts)
  {
    var chunk := Slice(s.pending, batchSize);
    if |s.pending| > 0 && !(maxBatches.Some? && s.batches >= maxBatches.value) && |chunk| > 0 {
      var e := SessionOf(chunk, envs(s.batches), cfg);
      SliceIsPrefix(s.pending, batchSize);
      SettleUsesAttempts(s, e, g);
      MeasureBounds(Settle(s, e, g).pending, Settle(s, e, g).attempts);
      CompletedIsEmpty(Settle(s, e, g), g, batchSize, maxBatches, cfg, envs);
    }
  }

  /** However the loop ends, a config has an ABORTED row iff exactly two chunks contained it and
      neither session yielded a row for it. */
  lemma AbortedMeansTwoLostChunks(group: seq<Candidate>, ledger: seq<Row>, batches: nat, g: Group, batchSize: int,
                                  maxBatches: Option<nat>, cfg: Setup, envs: nat -> Env, c: Candidate)
    requires DistinctIds(group) && c in group
    ensures var end := RunLoop(Start(group, ledger, batches), g, batchSize, maxBatches, cfg, envs).0;
      |ledger| <= |end.ledger| &&
      (HasAborted(end.ledger[|ledger|..], c.id) <==> InChunks(end.log, c.id) == 2 && NeverGot(end.log, c.id))
  {
    StartCounted(group, ledger, batches);
    CountedRun(group, |ledger|, Start(group, ledger, batches), g, batchSize, maxBatches, cfg, envs);
    CompletedIsEmpty(Start(group, ledger, batches), g, batchSize, maxBatches, cfg, envs);
    assert c.id in Ids(group);
    var end := RunLoop(Start(group, ledger, batches), g, batchSize, maxBatches, cfg, envs).0;
    assert ConfigOk(|ledger|, end, c.id);
    if c.id in Ids(end.pending) {
      var d :| d in end.pending && d.id == c.id;
    }
  }

  /** A batch size below 1 never completes a non-empty group: the loop fails on an empty chunk,
      at once for 0, after the candidates before the last few otherwise. */
  lemma {:induction false} BatchSizeBelowOne(s: Loop, g: Group, batchSize: int, cfg: Setup, envs: nat -> Env)
    requires Fresh(s) && DistinctIds(s.pending) && |s.pending| > 0 && batchSize <= 0
    ensures RunLoop(s, g, batchSize, None, cfg, envs).1 == EmptyChunk
    decreases Measure(s.pending, s.attempts)
  {
    var chunk := Slice(s.pending, batchSize);
    SliceIsPrefix(s.pending, batchSize);
    if |chunk| > 0 {
      var e := SessionOf(chunk, envs(s.batches), cfg);
      SettleUsesAttempts(s, e, g);
      MeasureBounds(Settle(s, e, g).pending, Settle(s, e, g).attempts);
      SessionPossible(chunk, envs(s.batches), cfg);
      var gone := Got(e) + Ids(Aborted(e, Bump(s.attempts, e.chunk)));
      GotInChunk(e, Bump(s.attempts, e.chunk));
      KeepDistinct(s.pending, (c: Candidate) => c.id !in gone);
      var last := s.pending[|s.pending| - 1];
      forall c | c in chunk
        ensures c.id != last.id
      {
        var i :| 0 <= i < |chunk| && chunk[i] == c;
        assert s.pending[i] == c;
      }
      WithoutMembers(s.pending, gone);
      assert last in Settle(s, e, g).pending;
      BatchSizeBelowOne(Settle(s, e, g), g, batchSize, cfg, envs);
    }
  }
}
