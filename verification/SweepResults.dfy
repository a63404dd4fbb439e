/** What the rows of a group say: where each comes from, with which status a blamed config is
    ledgered, and which candidates a later sweep leaves out. */
module SweepResults {
  import opened Optional
  import opened Ledger
  import opened Worker
  import opened Sweep
  import opened SweepTheorems

  // ----- what a session's rows hold -----

  /** The session's rows are those of its first candidates, each with its candidate's columns,
      closure "view", and a status that the mode of the sweep allows. */
  ghost predicate Emitted(e: Logged, cfg: Setup) {
    && |e.rows| <= |e.chunk|
    && forall i :: 0 <= i < |e.rows| ==> EmittedFor(e.rows[i], e.chunk[i], cfg)
  }

  ghost predicate EmittedFor(r: JsonRow, c: Candidate, cfg: Setup) {
    && r.id == c.id && r.stage == c.stage && r.tokens == cfg.tokens && r.knobs == c.knobs
    && r.closure == "view" && r.paced == c.paced
    && r.status in (if cfg.compileOnly then {FAIL, COMPILED} else {FAIL, FAIL_CUDA, OK})
  }

  lemma SessionEmits(chunk: seq<Candidate>, env: Env, cfg: Setup)
    ensures Emitted(SessionOf(chunk, env, cfg), cfg)
  {
    var trips := Trips(chunk, env.outcome, cfg);
    var e := SessionOf(chunk, env, cfg);
    TripsOk(chunk, env.outcome, cfg);
    var b := SessionOutcome(trips, env);
    forall i | 0 <= i < |e.rows|
      ensures EmittedFor(e.rows[i], chunk[i], cfg)
    {
      assert e.rows[i] == trips[0 + i].row;
      assert trips[i] == TripOf(chunk[i], env.outcome(i), cfg);
    }
  }

  // ----- where a row comes from -----

  /** Some session emitted r. */
  ghost predicate WasEmitted(log: seq<Logged>, r: JsonRow) { exists e :: e in log && r in e.rows }

  /** The watchdog blamed c in a session that had it in its chunk. */
  ghost predicate Blamed(log: seq<Logged>, c: Candidate) {
    exists e :: e in log && c in e.chunk && e.hang == Some(Config(c.id))
  }

  ghost predicate BlamedId(log: seq<Logged>, id: string) { exists e :: e in log && e.hang == Some(Config(id)) }

  ghost predicate HasStatus(rows: seq<Row>, id: string, status: Status) {
    exists row :: row in rows && row.id == id && row.status == status
  }

  /** A row the orchestrator wrote for c: c's columns, no figures. */
  ghost predicate WrittenFor(row: Row, c: Candidate, g: Group, status: Status) {
    && row.id == c.id && row.stage == c.stage && row.tokens == g.tokens && row.knobs == c.knobs
    && row.closure == c.closure && row.paced == Lower(g.paced) && row.status == status
    && row.median.None? && row.bitexact == ""
  }

  /** A new row is one that a session emitted, as it was emitted; or it says HANG of a candidate
      that the watchdog blamed; or it says ABORTED of a candidate. */
  ghost predicate Traced(row: Row, group: seq<Candidate>, log: seq<Logged>, g: Group) {
    || (exists r :: WasEmitted(log, r) && row == JsonToRow(r))
    || (exists c :: c in group && Blamed(log, c) && WrittenFor(row, c, g, HANG))
    || (exists c :: c in group && WrittenFor(row, c, g, ABORTED))
  }

  ghost predicate AllTraced(rows: seq<Row>, group: seq<Candidate>, log: seq<Logged>, g: Group) {
    forall row :: row in rows ==> Traced(row, group, log, g)
  }

  ghost predicate Filed(rows: seq<Row>, c: Candidate, g: Group, status: Status) {
    exists row :: row in rows && WrittenFor(row, c, g, status)
  }

  /** Nothing the sessions produced is missing: their rows, and a HANG row per blamed candidate. */
  ghost predicate AllFiled(rows: seq<Row>, log: seq<Logged>, g: Group) {
    && (forall r :: WasEmitted(log, r) ==> JsonToRow(r) in rows)
    && (forall c :: Blamed(log, c) ==> Filed(rows, c, g, HANG))
  }

  ghost predicate Within(part: seq<Candidate>, group: seq<Candidate>) { forall c :: c in part ==> c in group }

  ghost predicate Accurate(group: seq<Candidate>, base: nat, s: Loop, g: Group, cfg: Setup)
    requires base <= |s.ledger|
  {
    && AllTraced(s.ledger[base..], group, s.log, g) && AllFiled(s.ledger[base..], s.log, g)
    && (forall e :: e in s.log ==> Possible(e) && Emitted(e, cfg) && Within(e.chunk, group))
    && Within(s.pending, group)
  }

  // ----- one pass -----

  lemma EmittedSnoc(log: seq<Logged>, e: Logged, r: JsonRow)
    ensures WasEmitted(log + [e], r) <==> WasEmitted(log, r) || r in e.rows
  {
    var all := log + [e];
    assert e in all && forall x :: x in log ==> x in all;
  }

  lemma BlamedSnoc(log: seq<Logged>, e: Logged, c: Candidate)
    ensures Blamed(log + [e], c) <==> Blamed(log, c) || (c in e.chunk && e.hang == Some(Config(c.id)))
  {
    var all := log + [e];
    assert e in all && forall x :: x in log ==> x in all;
  }

  lemma TracedWiden(row: Row, group: seq<Candidate>, log: seq<Logged>, e: Logged, g: Group)
    requires Traced(row, group, log, g)
    ensures Traced(row, group, log + [e], g)
  {
    if r :| WasEmitted(log, r) && row == JsonToRow(r) {
      EmittedSnoc(log, e, r);
    } else if c :| c in group && Blamed(log, c) && WrittenFor(row, c, g, HANG) {
      BlamedSnoc(log, e, c);
    }
  }

  lemma OwnRowWritten(cs: seq<Candidate>, g: Group, status: Status, row: Row) returns (c: Candidate)
    requires row in OwnRows(cs, g, status)
    ensures c in cs && WrittenFor(row, c, g, status)
  {
    var i :| 0 <= i < |cs| && OwnRows(cs, g, status)[i] == row;
    c := cs[i];
  }

  /** The rows of one pass: the session's own, HANG for the blamed, ABORTED for the given up. */
  lemma NewRowTraced(row: Row, group: seq<Candidate>, log: seq<Logged>, e: Logged, attempts: map<string, nat>, g: Group)
    requires e in log && Within(e.chunk, group) && row in NewRows(e, attempts, g)
    ensures Traced(row, group, log, g)
  {
    if row in CsvRows(e.rows) {
      var i :| 0 <= i < |e.rows| && CsvRows(e.rows)[i] == row;
      assert e.rows[i] in e.rows && WasEmitted(log, e.rows[i]);
    } else if row in OwnRows(Hung(e), g, HANG) {
      var c := OwnRowWritten(Hung(e), g, HANG, row);
      HungMembers(e);
      assert Blamed(log, c);
    } else {
      var c := OwnRowWritten(Aborted(e, attempts), g, ABORTED, row);
      AbortedMembers(e, attempts);
    }
  }

  lemma PassFilesRow(e: Logged, attempts: map<string, nat>, g: Group, r: JsonRow)
    requires r in e.rows
    ensures JsonToRow(r) in NewRows(e, attempts, g)
  {
    var i :| 0 <= i < |e.rows| && e.rows[i] == r;
    assert CsvRows(e.rows)[i] in CsvRows(e.rows);
  }

  lemma PassFilesHang(e: Logged, attempts: map<string, nat>, g: Group, c: Candidate)
    requires c in e.chunk && e.hang == Some(Config(c.id))
    ensures Filed(NewRows(e, attempts, g), c, g, HANG)
  {
    HungMembers(e);
    var i :| 0 <= i < |Hung(e)| && Hung(e)[i] == c;
    var row := OwnRows(Hung(e), g, HANG)[i];
    assert row in OwnRows(Hung(e), g, HANG) && row in NewRows(e, attempts, g);
    assert WrittenFor(row, c, g, HANG);
  }

  lemma FiledStep(rows: seq<Row>, more: seq<Row>, log: seq<Logged>, e: Logged, attempts: map<string, nat>, g: Group)
    requires AllFiled(rows, log, g) && more == NewRows(e, attempts, g)
    ensures AllFiled(rows + more, log + [e], g)
  {
    forall r | WasEmitted(log + [e], r)
      ensures JsonToRow(r) in rows + more
    {
      EmittedSnoc(log, e, r);
      if r in e.rows {
        PassFilesRow(e, attempts, g, r);
      }
    }
    forall c | Blamed(log + [e], c)
      ensures Filed(rows + more, c, g, HANG)
    {
      BlamedSnoc(log, e, c);
      if c in e.chunk && e.hang == Some(Config(c.id)) {
        PassFilesHang(e, attempts, g, c);
      }
      var row :| (row in rows || row in more) && WrittenFor(row, c, g, HANG);
      assert row in rows + more;
    }
  }

  lemma TracedStep(rows: seq<Row>, more: seq<Row>, group: seq<Candidate>, log: seq<Logged>, e: Logged,
                   attempts: map<string, nat>, g: Group)
    requires AllTraced(rows, group, log, g) && Within(e.chunk, group) && more == NewRows(e, attempts, g)
    ensures AllTraced(rows + more, group, log + [e], g)
  {
    forall row | row in rows + more
      ensures Traced(row, group, log + [e], g)
    {
      if row in rows {
        TracedWiden(row, group, log, e, g);
      } else {
        NewRowTraced(row, group, log + [e], e, attempts, g);
      }
    }
  }

  lemma AccurateStep(group: seq<Candidate>, base: nat, s: Loop, e: Logged, g: Group, cfg: Setup)
    requires base <= |s.ledger| && Accurate(group, base, s, g, cfg)
    requires e.chunk <= s.pending && Possible(e) && Emitted(e, cfg)
    ensures base <= |Settle(s, e, g).ledger| && Accurate(group, base, Settle(s, e, g), g, cfg)
  {
    var a' := Bump(s.attempts, e.chunk);
    var s' := Settle(s, e, g);
    assert Within(e.chunk, group) by {
      assert forall c :: c in e.chunk ==> c in s.pending;
    }
    WithoutMembers(s.pending, Got(e) + Ids(Aborted(e, a')));
    assert s'.ledger[base..] == s.ledger[base..] + NewRows(e, a', g);
    TracedStep(s.ledger[base..], NewRows(e, a', g), group, s.log, e, a', g);
    FiledStep(s.ledger[base..], NewRows(e, a', g), s.log, e, a', g);
  }

  // ----- whole runs -----

  lemma {:induction false} AccurateRun(group: seq<Candidate>, base: nat, s: Loop, g: Group, batchSize: int,
                                       maxBatches: Option<nat>, cfg: Setup, envs: nat -> Env)
    requires Fresh(s) && base <= |s.ledger| && Accurate(group, base, s, g, cfg)
    ensures var end := RunLoop(s, g, batchSize, maxBatches, cfg, envs).0;
      base <= |end.ledger| && Accurate(group, base, end, g, cfg)
    decreases Measure(s.pending, s.attempts)
  {
    var chunk := Slice(s.pending, batchSize);
    if |s.pending| > 0 && !(maxBatches.Some? && s.batches >= maxBatches.value) && |chunk| > 0 {
      var e := SessionOf(chunk, envs(s.batches), cfg);
      SliceIsPrefix(s.pending, batchSize);
      SettleUsesAttempts(s, e, g);
      MeasureBounds(Settle(s, e, g).pending, Settle(s, e, g).attempts);
      SessionPossible(chunk, envs(s.batches), cfg);
      SessionEmits(chunk, envs(s.batches), cfg);
      AccurateStep(group, base, s, e, g, cfg);
      AccurateRun(group, base, Settle(s, e, g), g, batchSize, maxBatches, cfg, envs);
    }
  }

  lemma StartAccurate(group: seq<Candidate>, ledger: seq<Row>, batches: nat, g: Group, cfg: Setup)
    ensures Accurate(group, |ledger|, Start(group, ledger, batches), g, cfg)
  {
    assert ledger[|ledger|..] == [];
  }

  /** The end of a group's loop. */
  function EndOf(group: seq<Candidate>, ledger: seq<Row>, batches: nat, g: Group, batchSize: int,
                 maxBatches: Option<nat>, cfg: Setup, envs: nat -> Env): Loop {
    RunLoop(Start(group, ledger, batches), g, batchSize, maxBatches, cfg, envs).0
  }

  /** However the loop ends: every new row is a session's own row, unchanged, or a HANG row of a
      blamed candidate or an ABORTED row, with its candidate's columns; nothing is missing; and a
      config has a HANG row iff the watchdog blamed some session on it. */
  lemma RowsAreAccurate(group: seq<Candidate>, ledger: seq<Row>, batches: nat, g: Group, batchSize: int,
                        maxBatches: Option<nat>, cfg: Setup, envs: nat -> Env)
    ensures var end := EndOf(group, ledger, batches, g, batchSize, maxBatches, cfg, envs);
      && |ledger| <= |end.ledger|
      && AllTraced(end.ledger[|ledger|..], group, end.log, g) && AllFiled(end.ledger[|ledger|..], end.log, g)
      && (forall id :: HasStatus(end.ledger[|ledger|..], id, HANG) <==> BlamedId(end.log, id))
      && forall e :: e in end.log ==> Emitted(e, cfg) && Within(e.chunk, group)
  {
    StartAccurate(group, ledger, batches, g, cfg);
    AccurateRun(group, |ledger|, Start(group, ledger, batches), g, batchSize, maxBatches, cfg, envs);
    var end := EndOf(group, ledger, batches, g, batchSize, maxBatches, cfg, envs);
    HangsAreBlamed(end.ledger[|ledger|..], group, end.log, g);
  }

  lemma HangsAreBlamed(rows: seq<Row>, group: seq<Candidate>, log: seq<Logged>, g: Group)
    requires AllTraced(rows, group, log, g) && AllFiled(rows, log, g) && forall e :: e in log ==> Possible(e)
    ensures forall id :: HasStatus(rows, id, HANG) <==> BlamedId(log, id)
  {
    forall id
      ensures HasStatus(rows, id, HANG) <==> BlamedId(log, id)
    {
      if row :| row in rows && row.id == id && row.status == HANG {
        HangIsBlamed(row, group, log, g);
      }
      if e :| e in log && e.hang == Some(Config(id)) {
        var c :| c in e.chunk && c.id == id;
        assert Blamed(log, c);
      }
    }
  }

  /** No session emits HANG, ABORTED or INVALID. */
  lemma EmittedStatus(log: seq<Logged>, r: JsonRow)
    requires WasEmitted(log, r) && forall e :: e in log ==> Possible(e)
    ensures r.status !in {HANG, ABORTED, INVALID}
  {
    var e :| e in log && r in e.rows;
    var i :| 0 <= i < |e.rows| && e.rows[i] == r;
  }

  lemma HangIsBlamed(row: Row, group: seq<Candidate>, log: seq<Logged>, g: Group)
    requires Traced(row, group, log, g) && row.status == HANG && forall e :: e in log ==> Possible(e)
    ensures BlamedId(log, row.id)
  {
    forall r | WasEmitted(log, r)
      ensures r.status != HANG
    {
      EmittedStatus(log, r);
    }
    var c :| c in group && Blamed(log, c) && WrittenFor(row, c, g, HANG);
  }

  /** A new row of any other status was emitted by a session for that config, with that status
      and those figures: an OK row means an OK result. */
  lemma ResultWasEmitted(group: seq<Candidate>, ledger: seq<Row>, batches: nat, g: Group, batchSize: int,
                         maxBatches: Option<nat>, cfg: Setup, envs: nat -> Env, row: Row)
    requires row.status !in {HANG, ABORTED}
    requires var end := EndOf(group, ledger, batches, g, batchSize, maxBatches, cfg, envs);
      |ledger| <= |end.ledger| && row in end.ledger[|ledger|..]
    ensures var end := EndOf(group, ledger, batches, g, batchSize, maxBatches, cfg, envs);
      exists r :: WasEmitted(end.log, r) && r.id == row.id && r.status == row.status && row == JsonToRow(r)
  {
    RowsAreAccurate(group, ledger, batches, g, batchSize, maxBatches, cfg, envs);
    var end := EndOf(group, ledger, batches, g, batchSize, maxBatches, cfg, envs);
    assert Traced(row, group, end.log, g);
    var r :| WasEmitted(end.log, r) && row == JsonToRow(r);
    assert r.id == row.id && r.status == row.status;
  }

  ghost predicate IsSession(e: Logged, env: Env, cfg: Setup) { e == SessionOf(e.chunk, env, cfg) }

  /** Session k of the log is the one its chunk has in environment first + k. */
  ghost predicate SessionsFrom(log: seq<Logged>, first: nat, cfg: Setup, envs: nat -> Env) {
    forall k :: 0 <= k < |log| ==> IsSession(log[k], envs(first + k), cfg)
  }

  lemma SessionsSnoc(log: seq<Logged>, first: nat, cfg: Setup, envs: nat -> Env, e: Logged)
    requires SessionsFrom(log, first, cfg, envs) && IsSession(e, envs(first + |log|), cfg)
    ensures SessionsFrom(log + [e], first, cfg, envs)
  {
  }

  lemma SessionIs(chunk: seq<Candidate>, env: Env, cfg: Setup)
    ensures IsSession(SessionOf(chunk, env, cfg), env, cfg)
  {
  }

  /** A pass over a session leaves the log with that session behind it. */
  lemma LogAfter(first: nat, s: Loop, e: Logged, g: Group, cfg: Setup, envs: nat -> Env)
    requires s.batches == first + |s.log| && SessionsFrom(s.log, first, cfg, envs) && IsSession(e, envs(s.batches), cfg)
    ensures var s' := Settle(s, e, g); s'.batches == first + |s'.log| && SessionsFrom(s'.log, first, cfg, envs)
  {
    SessionsSnoc(s.log, first, cfg, envs, e);
  }

  /** The log holds the sessions of the loop, one per environment. */
  lemma {:induction false} LogIsSessions(first: nat, s: Loop, g: Group, batchSize: int, maxBatches: Option<nat>,
                                         cfg: Setup, envs: nat -> Env)
    requires Fresh(s) && s.batches == first + |s.log| && SessionsFrom(s.log, first, cfg, envs)
    ensures SessionsFrom(RunLoop(s, g, batchSize, maxBatches, cfg, envs).0.log, first, cfg, envs)
    decreases Measure(s.pending, s.attempts)
  {
    var chunk := Slice(s.pending, batchSize);
    if |s.pending| > 0 && !(maxBatches.Some? && s.batches >= maxBatches.value) && |chunk| > 0 {
      var e := SessionOf(chunk, envs(s.batches), cfg);
      SliceIsPrefix(s.pending, batchSize);
      SettleUsesAttempts(s, e, g);
      MeasureBounds(Settle(s, e, g).pending, Settle(s, e, g).attempts);
      SessionIs(chunk, envs(s.batches), cfg);
      LogAfter(first, s, e, g, cfg, envs);
      LogIsSessions(first, Settle(s, e, g), g, batchSize, maxBatches, cfg, envs);
    }
  }

  // ----- what a later sweep leaves out -----

  /** A session emitted a result under c's columns that a sweep with these options does not redo. */
  ghost predicate ResultStands(log: seq<Logged>, o: Options, c: Candidate) {
    exists r :: WasEmitted(log, r) && ResultFor(r, o, c)
  }

  ghost predicate ResultFor(r: JsonRow, o: Options, c: Candidate) {
    && c.closure == "view" && r.stage == c.stage && r.tokens == c.tokens && r.knobs == c.knobs
    && (|| r.status == OK
        || (r.status == COMPILED && o.compileOnly)
        || (r.status in {FAIL, FAIL_CUDA} && !o.retryFailed))
  }

  /** A candidate with c's columns was blamed, and hangs are not retried. */
  ghost predicate HangStands(group: seq<Candidate>, log: seq<Logged>, g: Group, o: Options, c: Candidate) {
    !o.retryHangs && exists d :: d in group && Blamed(log, d) && SameColumns(d, g, c)
  }

  ghost predicate SameColumns(d: Candidate, g: Group, c: Candidate) {
    d.stage == c.stage && g.tokens == c.tokens && d.knobs == c.knobs && d.closure == c.closure
  }

  lemma RowsSkip(rows: seq<Row>, group: seq<Candidate>, log: seq<Logged>, g: Group, cfg: Setup, o: Options,
                 c: Candidate)
    requires AllTraced(rows, group, log, g) && AllFiled(rows, log, g) && forall e :: e in log ==> Emitted(e, cfg)
    ensures Done(rows, o, CandidateKey(c)) <==> c.paced && (ResultStands(log, o, c) || HangStands(group, log, g, o, c))
  {
    if Done(rows, o, CandidateKey(c)) {
      var i :| 0 <= i < |rows| && RowKey(rows[i]) == CandidateKey(c) && Skips(rows[i].status, o);
      assert rows[i] in rows;
      SkippingRow(rows[i], group, log, g, cfg, o, c);
    }
    if c.paced && ResultStands(log, o, c) {
      StandingResult(rows, log, g, cfg, o, c);
    }
    if c.paced && HangStands(group, log, g, o, c) {
      StandingHang(rows, group, log, g, o, c);
    }
  }

  /** A row of this key that lets its candidate be skipped is enough. */
  lemma RowSkips(rows: seq<Row>, row: Row, o: Options, key: Key)
    requires row in rows && RowKey(row) == key && Skips(row.status, o)
    ensures Done(rows, o, key)
  {
    var i :| 0 <= i < |rows| && rows[i] == row;
  }

  lemma StandingResult(rows: seq<Row>, log: seq<Logged>, g: Group, cfg: Setup, o: Options, c: Candidate)
    requires AllFiled(rows, log, g) && (forall e :: e in log ==> Emitted(e, cfg)) && c.paced && ResultStands(log, o, c)
    ensures Done(rows, o, CandidateKey(c))
  {
    var r :| WasEmitted(log, r) && ResultFor(r, o, c);
    EmittedClosure(log, cfg, r);
    RowSkips(rows, JsonToRow(r), o, CandidateKey(c));
  }

  lemma StandingHang(rows: seq<Row>, group: seq<Candidate>, log: seq<Logged>, g: Group, o: Options, c: Candidate)
    requires AllFiled(rows, log, g) && c.paced && HangStands(group, log, g, o, c)
    ensures Done(rows, o, CandidateKey(c))
  {
    var d :| d in group && Blamed(log, d) && SameColumns(d, g, c);
    var row :| row in rows && WrittenFor(row, d, g, HANG);
    RowSkips(rows, row, o, CandidateKey(c));
  }

  lemma EmittedClosure(log: seq<Logged>, cfg: Setup, r: JsonRow)
    requires WasEmitted(log, r) && forall e :: e in log ==> Emitted(e, cfg)
    ensures r.closure == "view" && r.status in {FAIL, COMPILED, FAIL_CUDA, OK}
  {
    var e :| e in log && r in e.rows;
    var i :| 0 <= i < |e.rows| && e.rows[i] == r;
    assert EmittedFor(e.rows[i], e.chunk[i], cfg);
  }

  lemma SkippingRow(row: Row, group: seq<Candidate>, log: seq<Logged>, g: Group, cfg: Setup, o: Options, c: Candidate)
    requires Traced(row, group, log, g) && forall e :: e in log ==> Emitted(e, cfg)
    requires RowKey(row) == CandidateKey(c) && Skips(row.status, o)
    ensures c.paced && (ResultStands(log, o, c) || HangStands(group, log, g, o, c))
  {
    assert "true"[0] != "false"[0];
    if r :| WasEmitted(log, r) && row == JsonToRow(r) {
      EmittedClosure(log, cfg, r);
      assert ResultFor(r, o, c);
    }
  }

  /** Which candidates a later sweep with options o leaves out after a group has run, in terms of
      what its sessions did: beyond those left out before, paced ones with a result that stands
      or a hang that is not retried. */
  lemma LaterSweepSkips(group: seq<Candidate>, ledger: seq<Row>, batches: nat, g: Group, batchSize: int,
                        maxBatches: Option<nat>, cfg: Setup, envs: nat -> Env, o: Options, c: Candidate)
    ensures var end := EndOf(group, ledger, batches, g, batchSize, maxBatches, cfg, envs);
      Skipped(end.ledger, o, c) <==>
        Skipped(ledger, o, c) || (c.paced && (ResultStands(end.log, o, c) || HangStands(group, end.log, g, o, c)))
  {
    StartAccurate(group, ledger, batches, g, cfg);
    AccurateRun(group, |ledger|, Start(group, ledger, batches), g, batchSize, maxBatches, cfg, envs);
    StartAccounted(group, ledger, batches);
    NothingLost(group, ledger, Start(group, ledger, batches), g, batchSize, maxBatches, cfg, envs);
    var end := EndOf(group, ledger, batches, g, batchSize, maxBatches, cfg, envs);
    assert end.ledger == ledger + end.ledger[|ledger|..];
    DoneAppend(ledger, end.ledger[|ledger|..], o);
    RowsSkip(end.ledger[|ledger|..], group, end.log, g, cfg, o, c);
  }
}
