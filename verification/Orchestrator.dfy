/** The orchestrator as it runs: resume, INVALID rows, grouping, and the batch loop of every
    group, over a ledger that is only appended to. */
module Orchestrator {
  import opened Optional
  import opened Ledger
  import opened Worker
  import opened Sweep
  import opened SweepTheorems
  import opened SweepCounts
  import opened SweepResults

  /** Command-line settings and what the file system says about reference outputs. */
  datatype Args = Args(batchSize: int, maxBatches: Option<nat>, options: Options, iters: nat, yRef: int -> bool)

  function SetupOf(a: Args, g: Group): Setup {
    Setup(g.tokens, a.yRef(g.tokens), a.options.compileOnly, a.iters)
  }

  function GroupOf(c: Candidate): Group { Group(c.tokens, c.paced) }

  /** The order of sorted((tokens, paced)). */
  predicate Less(a: Group, b: Group) { a.tokens < b.tokens || (a.tokens == b.tokens && !a.paced && b.paced) }

  ghost predicate Increasing(keys: seq<Group>) {
    forall i, j :: 0 <= i < j < |keys| ==> Less(keys[i], keys[j])
  }

  function Members(runnable: seq<Candidate>, g: Group): seq<Candidate> {
    Keep(runnable, (c: Candidate) => GroupOf(c) == g)
  }

  function GroupResult(group: seq<Candidate>, g: Group, ledger: seq<Row>, batches: nat, a: Args, envs: nat -> Env)
    : (Loop, Ending)
  {
    RunLoop(Start(group, ledger, batches), g, a.batchSize, a.maxBatches, SetupOf(a, g), envs)
  }

  /** The groups from number i on; a group that does not complete ends the sweep. */
  function RunGroups(keys: seq<Group>, i: nat, runnable: seq<Candidate>, ledger: seq<Row>, batches: nat, a: Args,
                     envs: nat -> Env): (r: (seq<Row>, nat, Ending))
    requires i <= |keys|
    decreases |keys| - i
  {
    if i == |keys| then (ledger, batches, Completed)
    else
      var (end, how) := GroupResult(Members(runnable, keys[i]), keys[i], ledger, batches, a, envs);
      if how != Completed then (end.ledger, end.batches, how)
      else RunGroups(keys, i + 1, runnable, end.ledger, end.batches, a, envs)
  }

  lemma TailJoin(a: seq<Row>, b: seq<Row>, c: seq<Row>)
    requires a <= b <= c
    ensures a <= c && RowIds(c[|a|..]) == RowIds(b[|a|..]) + RowIds(c[|b|..])
  {
    assert c[|a|..] == b[|a|..] + c[|b|..];
    RowIdsAppend(b[|a|..], c[|b|..]);
  }

  lemma GroupLedgered(group: seq<Candidate>, g: Group, ledger: seq<Row>, batches: nat, a: Args, envs: nat -> Env)
    ensures var (end, how) := GroupResult(group, g, ledger, batches, a, envs);
      ledger <= end.ledger && (how == Completed ==> Ids(group) <= RowIds(end.ledger[|ledger|..]))
  {
    StartAccounted(group, ledger, batches);
    NothingLost(group, ledger, Start(group, ledger, batches), g, a.batchSize, a.maxBatches, SetupOf(a, g), envs);
  }

  /** Every candidate of the groups from number i on has its id in the set. */
  ghost predicate Covered(keys: seq<Group>, i: nat, runnable: seq<Candidate>, ids: set<string>) {
    forall k :: i <= k < |keys| ==> Ids(Members(runnable, keys[k])) <= ids
  }

  lemma CoveredCons(keys: seq<Group>, i: nat, runnable: seq<Candidate>, ids: set<string>, all: set<string>)
    requires i < |keys| && Covered(keys, i + 1, runnable, ids) && ids <= all && Ids(Members(runnable, keys[i])) <= all
    ensures Covered(keys, i, runnable, all)
  {
    forall k | i <= k < |keys|
      ensures Ids(Members(runnable, keys[k])) <= all
    {
      assert k > i ==> Ids(Members(runnable, keys[k])) <= ids;
    }
  }

  /** The sweep only appends rows, and when it completes every runnable candidate of every
      group has one. */
  lemma {:induction false} EveryGroupLedgered(keys: seq<Group>, i: nat, runnable: seq<Candidate>, ledger: seq<Row>,
                                              batches: nat, a: Args, envs: nat -> Env)
    requires i <= |keys|
    ensures var r := RunGroups(keys, i, runnable, ledger, batches, a, envs);
      ledger <= r.0 && (r.2 == Completed ==> Covered(keys, i, runnable, RowIds(r.0[|ledger|..])))
    decreases |keys| - i
  {
    if i < |keys| {
      var group := Members(runnable, keys[i]);
      GroupLedgered(group, keys[i], ledger, batches, a, envs);
      var first := GroupResult(group, keys[i], ledger, batches, a, envs);
      var mid := first.0.ledger;
      if first.1 == Completed {
        EveryGroupLedgered(keys, i + 1, runnable, mid, first.0.batches, a, envs);
        var r := RunGroups(keys, i + 1, runnable, mid, first.0.batches, a, envs);
        TailJoin(ledger, mid, r.0);
        if r.2 == Completed {
          CoveredCons(keys, i, runnable, RowIds(r.0[|mid|..]), RowIds(r.0[|ledger|..]));
        }
      }
    }
  }

  /** With a key for every runnable candidate, a completed sweep ledgers them all. */
  lemma SweepLedgersAll(keys: seq<Group>, runnable: seq<Candidate>, base: seq<Row>, rows: seq<Row>, batches: nat,
                        a: Args, envs: nat -> Env)
    requires forall g :: g in keys <==> exists c :: c in runnable && GroupOf(c) == g
    ensures var (end, _, how) := RunGroups(keys, 0, runnable, base + rows, batches, a, envs);
      base + rows <= end && (how == Completed ==> Ids(runnable) <= RowIds(end[|base|..]))
  {
    EveryGroupLedgered(keys, 0, runnable, base + rows, batches, a, envs);
    var (end, _, how) := RunGroups(keys, 0, runnable, base + rows, batches, a, envs);
    TailJoin(base, base + rows, end);
    if how == Completed {
      assert Covered(keys, 0, runnable, RowIds(end[|base + rows|..]));
      forall c | c in runnable
        ensures c.id in RowIds(end[|base|..])
      {
        assert GroupOf(c) in keys;
        var k :| 0 <= k < |keys| && keys[k] == GroupOf(c);
        KeepMembers(runnable, (d: Candidate) => GroupOf(d) == keys[k]);
        assert c in Members(runnable, keys[k]);
      }
    }
  }

  /** One INVALID row per invalid candidate, in order. */
  function InvalidRowsOf(invalid: seq<Candidate>): seq<Row> {
    seq(|invalid|, i requires 0 <= i < |invalid| => OwnRow(invalid[i], GroupOf(invalid[i]), INVALID))
  }

  /** A paced candidate ledgered as invalid is left out from then on, whatever the options. */
  lemma InvalidStaysOut(base: seq<Row>, invalid: seq<Candidate>, more: seq<Row>, o: Options, c: Candidate)
    requires c in invalid && c.paced
    ensures Skipped(base + InvalidRowsOf(invalid) + more, o, c)
  {
    var i :| 0 <= i < |invalid| && invalid[i] == c;
    var rows := InvalidRowsOf(invalid);
    assert RowKey(rows[i]) == CandidateKey(c) by {
      OwnRowFoundIff(c, INVALID);
    }
    DoneAppend(base, rows, o);
    DoneAppend(base + rows, more, o);
  }

  // ----- whose rows they are -----

  /** The row is about c: its columns, and a status that c and the mode of the sweep allow. */
  ghost predicate RowFor(row: Row, c: Candidate, compileOnly: bool) {
    && row.id == c.id && row.stage == c.stage && row.tokens == c.tokens && row.knobs == c.knobs
    && row.paced == Lower(c.paced) && row.closure in {"view", c.closure}
    && (row.status == INVALID <==> c.invalid)
    && row.status !in (if compileOnly then {OK, FAIL_CUDA} else {COMPILED})
  }

  ghost predicate RowsFor(rows: seq<Row>, cands: seq<Candidate>, compileOnly: bool) {
    forall row :: row in rows ==> exists c :: c in cands && RowFor(row, c, compileOnly)
  }

  ghost predicate OneGroup(group: seq<Candidate>, g: Group) { forall c :: c in group ==> GroupOf(c) == g && !c.invalid }

  lemma EmittedRowFor(r: JsonRow, log: seq<Logged>, group: seq<Candidate>, g: Group, cfg: Setup)
    requires WasEmitted(log, r) && OneGroup(group, g) && cfg.tokens == g.tokens
    requires forall e :: e in log ==> Emitted(e, cfg) && Within(e.chunk, group)
    ensures exists c :: c in group && RowFor(JsonToRow(r), c, cfg.compileOnly)
  {
    var e :| e in log && r in e.rows;
    var i :| 0 <= i < |e.rows| && e.rows[i] == r;
    assert EmittedFor(r, e.chunk[i], cfg) && e.chunk[i] in e.chunk;
    assert RowFor(JsonToRow(r), e.chunk[i], cfg.compileOnly);
  }

  lemma TracedRowFor(row: Row, log: seq<Logged>, group: seq<Candidate>, g: Group, cfg: Setup)
    requires Traced(row, group, log, g) && OneGroup(group, g) && cfg.tokens == g.tokens
    requires forall e :: e in log ==> Emitted(e, cfg) && Within(e.chunk, group)
    ensures exists c :: c in group && RowFor(row, c, cfg.compileOnly)
  {
    if r :| WasEmitted(log, r) && row == JsonToRow(r) {
      EmittedRowFor(r, log, group, g, cfg);
    } else if c :| c in group && Blamed(log, c) && WrittenFor(row, c, g, HANG) {
      assert RowFor(row, c, cfg.compileOnly);
    } else {
      var c :| c in group && WrittenFor(row, c, g, ABORTED);
      assert RowFor(row, c, cfg.compileOnly);
    }
  }

  lemma GroupRowsFor(group: seq<Candidate>, g: Group, ledger: seq<Row>, batches: nat, a: Args, envs: nat -> Env)
    requires OneGroup(group, g)
    ensures var end := GroupResult(group, g, ledger, batches, a, envs).0;
      |ledger| <= |end.ledger| && RowsFor(end.ledger[|ledger|..], group, a.options.compileOnly)
  {
    var cfg := SetupOf(a, g);
    RowsAreAccurate(group, ledger, batches, g, a.batchSize, a.maxBatches, cfg, envs);
    var end := GroupResult(group, g, ledger, batches, a, envs).0;
    forall row | row in end.ledger[|ledger|..]
      ensures exists c :: c in group && RowFor(row, c, a.options.compileOnly)
    {
      TracedRowFor(row, end.log, group, g, cfg);
    }
  }

  lemma MembersAreOneGroup(runnable: seq<Candidate>, g: Group)
    requires forall c :: c in runnable ==> !c.invalid
    ensures OneGroup(Members(runnable, g), g) && Within(Members(runnable, g), runnable)
  {
    KeepMembers(runnable, (c: Candidate) => GroupOf(c) == g);
  }

  lemma RowsForJoin(a: seq<Row>, b: seq<Row>, cands: seq<Candidate>, more: seq<Candidate>, compileOnly: bool)
    requires RowsFor(a, cands, compileOnly) && RowsFor(b, more, compileOnly)
    ensures RowsFor(a + b, cands + more, compileOnly)
  {
    forall row | row in a + b
      ensures exists c :: c in cands + more && RowFor(row, c, compileOnly)
    {
      if row in a {
        var c :| c in cands && RowFor(row, c, compileOnly);
        assert c in cands + more;
      } else {
        var c :| c in more && RowFor(row, c, compileOnly);
        assert c in cands + more;
      }
    }
  }

  lemma RowsForWithin(rows: seq<Row>, part: seq<Candidate>, all: seq<Candidate>, compileOnly: bool)
    requires RowsFor(rows, part, compileOnly) && Within(part, all)
    ensures RowsFor(rows, all, compileOnly)
  {
    forall row | row in rows
      ensures exists c :: c in all && RowFor(row, c, compileOnly)
    {
      var c :| c in part && RowFor(row, c, compileOnly);
    }
  }

  /** Over all groups: every new row is about a runnable candidate. */
  lemma {:induction false} EveryRowFor(keys: seq<Group>, i: nat, runnable: seq<Candidate>, ledger: seq<Row>,
                                       batches: nat, a: Args, envs: nat -> Env)
    requires i <= |keys| && forall c :: c in runnable ==> !c.invalid
    ensures var r := RunGroups(keys, i, runnable, ledger, batches, a, envs);
      |ledger| <= |r.0| && RowsFor(r.0[|ledger|..], runnable, a.options.compileOnly)
    decreases |keys| - i
  {
    if i == |keys| {
      assert ledger[|ledger|..] == [];
    } else {
      var group := Members(runnable, keys[i]);
      MembersAreOneGroup(runnable, keys[i]);
      GroupLedgered(group, keys[i], ledger, batches, a, envs);
      GroupRowsFor(group, keys[i], ledger, batches, a, envs);
      var first := GroupResult(group, keys[i], ledger, batches, a, envs);
      var mid := first.0.ledger;
      RowsForWithin(mid[|ledger|..], group, runnable, a.options.compileOnly);
      if first.1 == Completed {
        EveryRowFor(keys, i + 1, runnable, mid, first.0.batches, a, envs);
        EveryGroupLedgered(keys, i + 1, runnable, mid, first.0.batches, a, envs);
        var r := RunGroups(keys, i + 1, runnable, mid, first.0.batches, a, envs);
        assert r.0[|ledger|..] == mid[|ledger|..] + r.0[|mid|..];
        RowsForJoin(mid[|ledger|..], r.0[|mid|..], runnable, runnable, a.options.compileOnly);
        RowsForWithin(r.0[|ledger|..], runnable + runnable, runnable, a.options.compileOnly);
      }
    }
  }

  lemma InvalidRowsFor(invalid: seq<Candidate>, compileOnly: bool)
    requires forall c :: c in invalid ==> c.invalid
    ensures RowsFor(InvalidRowsOf(invalid), invalid, compileOnly)
  {
    var rows := InvalidRowsOf(invalid);
    forall row | row in rows
      ensures exists c :: c in invalid && RowFor(row, c, compileOnly)
    {
      var i :| 0 <= i < |rows| && rows[i] == row;
      assert invalid[i] in invalid && RowFor(row, invalid[i], compileOnly);
    }
  }

  /** The whole sweep: every row it adds is about a candidate that was not finished. */
  lemma SweepRowsFor(keys: seq<Group>, invalid: seq<Candidate>, runnable: seq<Candidate>, base: seq<Row>, batches: nat,
                     a: Args, envs: nat -> Env)
    requires (forall c :: c in invalid ==> c.invalid) && forall c :: c in runnable ==> !c.invalid
    ensures var rows := InvalidRowsOf(invalid);
      var end := RunGroups(keys, 0, runnable, base + rows, batches, a, envs).0;
      |base| <= |end| && RowsFor(end[|base|..], invalid + runnable, a.options.compileOnly)
  {
    var rows := InvalidRowsOf(invalid);
    var end := RunGroups(keys, 0, runnable, base + rows, batches, a, envs).0;
    InvalidRowsFor(invalid, a.options.compileOnly);
    EveryRowFor(keys, 0, runnable, base + rows, batches, a, envs);
    EveryGroupLedgered(keys, 0, runnable, base + rows, batches, a, envs);
    assert end[|base|..] == rows + end[|base + rows|..];
    RowsForJoin(rows, end[|base + rows|..], invalid, runnable, a.options.compileOnly);
  }

  /** The batch limit holds for all groups together. */
  lemma {:induction false} SweepBatchLimit(keys: seq<Group>, i: nat, runnable: seq<Candidate>, ledger: seq<Row>,
                                           batches: nat, a: Args, envs: nat -> Env, limit: nat)
    requires i <= |keys| && a.maxBatches == Some(limit) && batches <= limit
    ensures RunGroups(keys, i, runnable, ledger, batches, a, envs).1 <= limit
    decreases |keys| - i
  {
    if i < |keys| {
      var group := Members(runnable, keys[i]);
      BatchLimit(Start(group, ledger, batches), keys[i], a.batchSize, limit, SetupOf(a, keys[i]), envs);
      var first := GroupResult(group, keys[i], ledger, batches, a, envs);
      if first.1 == Completed {
        SweepBatchLimit(keys, i + 1, runnable, first.0.ledger, first.0.batches, a, envs, limit);
      }
    }
  }

  /** A row the worker writes for a candidate is later looked for under that candidate's key
      exactly when the candidate is paced and of closure "view"; with the paced column parsed,
      exactly when it is of closure "view". */
  lemma WorkerRowFoundIff(c: Candidate, cfg: Setup, status: Status)
    requires cfg.tokens == c.tokens
    ensures RowKey(JsonToRow(EmittedRow(c, cfg, status))) == CandidateKey(c) <==> c.paced && c.closure == "view"
    ensures ParsedKey(JsonToRow(EmittedRow(c, cfg, status))) == CandidateKey(c) <==> c.closure == "view"
  {
    assert "true"[0] != "false"[0];
  }

  /** A row the orchestrator writes itself keeps the closure, and is found iff c is paced. */
  lemma OwnRowFoundIff(c: Candidate, status: Status)
    ensures RowKey(OwnRow(c, GroupOf(c), status)) == CandidateKey(c) <==> c.paced
    ensures ParsedKey(OwnRow(c, GroupOf(c), status)) == CandidateKey(c)
  {
    assert "true"[0] != "false"[0];
  }

  class Sweeper {
    var ledger: seq<Row>
    var batches: nat
    var log: seq<Logged>
    const args: Args

    constructor (args: Args, ledger: seq<Row>)
      ensures this.args == args && this.ledger == ledger && batches == 0 && log == []
    {
      this.args, this.ledger, batches, log := args, ledger, 0, [];
    }

    /** Rows the orchestrator writes for a list of candidates, one by one. */
    static method Append(rows: seq<Row>, cs: seq<Candidate>, g: Group, status: Status) returns (all: seq<Row>)
      ensures all == rows + OwnRows(cs, g, status)
    {
      all := rows;
      for i := 0 to |cs|
        invariant all == rows + OwnRows(cs[..i], g, status)
      {
        all := all + [OwnRow(cs[i], g, status)];
        assert OwnRows(cs[..i + 1], g, status) == OwnRows(cs[..i], g, status) + [OwnRow(cs[i], g, status)];
      }
      assert cs[..|cs|] == cs;
    }

    static method CountAttempts(attempts: map<string, nat>, chunk: seq<Candidate>) returns (a: map<string, nat>)
      ensures a == Bump(attempts, chunk)
    {
      a := attempts;
      for i := 0 to |chunk|
        invariant Bump(a, chunk[i..]) == Bump(attempts, chunk)
      {
        assert chunk[i..][1..] == chunk[i + 1..];
        a := a[chunk[i].id := Att(a, chunk[i].id) + 1];
      }
    }

    /** One pass over a chunk whose session has ended: what is ledgered and what leaves pending. */
    method Pass(pending: seq<Candidate>, attempts: map<string, nat>, e: Logged, g: Group)
      returns (pending': seq<Candidate>)
      modifies this
      ensures Loop(pending', Bump(attempts, e.chunk), ledger, batches, log)
        == Settle(Loop(pending, attempts, old(ledger), old(batches), old(log)), e, g)
    {
      var a := Bump(attempts, e.chunk);
      var csv := CsvRows(e.rows);
      csv := Append(csv, Hung(e), g, HANG);
      var got := Got(e);
      var missing := Without(e.chunk, got);
      var aborted := Keep(missing, (c: Candidate) => Att(a, c.id) >= 2);
      csv := Append(csv, aborted, g, ABORTED);
      ledger := ledger + csv;
      batches := batches + 1;
      log := log + [e];
      pending' := Without(pending, got + Ids(aborted));
    }

    /** The batch loop of one group. */
    method RunGroup(group: seq<Candidate>, g: Group, envs: nat -> Env) returns (how: Ending)
      modifies this
      ensures var (end, h) := GroupResult(group, g, old(ledger), old(batches), args, envs);
        ledger == end.ledger && batches == end.batches && log == end.log && how == h
      ensures |old(ledger)| <= |ledger| && AllTraced(ledger[|old(ledger)|..], group, log, g)
      ensures AllFiled(ledger[|old(ledger)|..], log, g)
      ensures forall id :: HasStatus(ledger[|old(ledger)|..], id, HANG) <==> BlamedId(log, id)
    {
      RowsAreAccurate(group, ledger, batches, g, args.batchSize, args.maxBatches, SetupOf(args, g), envs);
      ghost var start := Start(group, ledger, batches);
      var pending, attempts := group, map[];
      log := [];
      var cfg := SetupOf(args, g);
      while |pending| > 0
        invariant Fresh(Loop(pending, attempts, ledger, batches, log))
        invariant RunLoop(Loop(pending, attempts, ledger, batches, log), g, args.batchSize, args.maxBatches, cfg, envs)
               == RunLoop(start, g, args.batchSize, args.maxBatches, cfg, envs)
        decreases Measure(pending, attempts)
      {
        if args.maxBatches.Some? && batches >= args.maxBatches.value {
          return MaxBatches;
        }
        var chunk := Slice(pending, args.batchSize);
        if |chunk| == 0 {
          return EmptyChunk;
        }
        ghost var s := Loop(pending, attempts, ledger, batches, log);
        var e := SessionOf(chunk, envs(batches), cfg);
        SliceIsPrefix(pending, args.batchSize);
        SettleUsesAttempts(s, e, g);
        MeasureBounds(Settle(s, e, g).pending, Settle(s, e, g).attempts);
        var attempts' := CountAttempts(attempts, chunk);
        pending := Pass(pending, attempts, e, g);
        attempts := attempts';
      }
      how := Completed;
    }

    /** The group keys of the runnable candidates, each once, in sorted order. */
    static method SortedGroups(runnable: seq<Candidate>) returns (keys: seq<Group>)
      ensures Increasing(keys)
      ensures forall i, j :: 0 <= i < j < |keys| ==>
        keys[i].tokens < keys[j].tokens || (keys[i].tokens == keys[j].tokens && !keys[i].paced && keys[j].paced)
      ensures forall g :: g in keys <==> exists c :: c in runnable && GroupOf(c) == g
    {
      keys := [];
      for n := 0 to |runnable|
        invariant Increasing(keys)
        invariant forall g :: g in keys <==> exists c :: c in runnable[..n] && GroupOf(c) == g
      {
        var g := GroupOf(runnable[n]);
        ghost var before := keys;
        if g !in keys {
          keys := InsertGroup(keys, g);
        }
        assert runnable[..n + 1] == runnable[..n] + [runnable[n]];
        assert forall x :: x in keys <==> x in before || x == g;
      }
      assert runnable[..|runnable|] == runnable;
      assert forall i, j :: 0 <= i < j < |keys| ==> Less(keys[i], keys[j]);
    }

    static method InsertGroup(keys: seq<Group>, g: Group) returns (all: seq<Group>)
      requires Increasing(keys) && g !in keys
      ensures Increasing(all) && forall x :: x in all <==> x in keys || x == g
    {
      var i := 0;
      while i < |keys| && Less(keys[i], g)
        invariant 0 <= i <= |keys| && forall j :: 0 <= j < i ==> Less(keys[j], g)
      {
        i := i + 1;
      }
      all := keys[..i] + [g] + keys[i..];
      assert keys == keys[..i] + keys[i..];
      if i < |keys| {
        assert keys[i] in keys && Less(g, keys[i]);
      }
    }

    /** Drops finished candidates and sets invalid ones apart. */
    method Classify(cands: seq<Candidate>) returns (invalid: seq<Candidate>, runnable: seq<Candidate>)
      ensures forall c :: c in invalid <==> c in cands && c.invalid && !Done(ledger, args.options, CandidateKey(c))
      ensures forall c :: c in runnable <==> c in cands && !c.invalid && !Done(ledger, args.options, CandidateKey(c))
    {
      var done := LoadDone(ledger, args.options);
      invalid := Keep(cands, (c: Candidate) => CandidateKey(c) !in done && c.invalid);
      runnable := Keep(cands, (c: Candidate) => CandidateKey(c) !in done && !c.invalid);
      KeepMembers(cands, (c: Candidate) => CandidateKey(c) !in done && c.invalid);
      KeepMembers(cands, (c: Candidate) => CandidateKey(c) !in done && !c.invalid);
    }

    /** The whole sweep: finished candidates get no new treatment, invalid ones are ledgered as
        such before anything runs, and on completion every other candidate has a new row. */
    method RunSweep(cands: seq<Candidate>, envs: nat -> Env)
      returns (how: Ending, ghost invalid: seq<Candidate>, runnable: seq<Candidate>)
      modifies this
      ensures forall c :: c in invalid <==> c in cands && c.invalid && !Done(old(ledger), args.options, CandidateKey(c))
      ensures forall c ::
        c in runnable <==> c in cands && !c.invalid && !Done(old(ledger), args.options, CandidateKey(c))
      ensures old(ledger) + InvalidRowsOf(invalid) <= ledger
      ensures how == Completed ==> Ids(runnable) <= RowIds(ledger[|old(ledger)|..])
      ensures RowsFor(ledger[|old(ledger)|..], invalid + runnable, args.options.compileOnly)
    {
      var inv;
      inv, runnable := Classify(cands);
      invalid := inv;
      var rows := InvalidRows(inv);
      ledger := ledger + rows;
      var keys := SortedGroups(runnable);
      SweepLedgersAll(keys, runnable, old(ledger), rows, batches, args, envs);
      SweepRowsFor(keys, inv, runnable, old(ledger), batches, args, envs);
      how := RunAll(keys, runnable, envs);
    }

    static method InvalidRows(invalid: seq<Candidate>) returns (rows: seq<Row>)
      ensures rows == InvalidRowsOf(invalid)
    {
      rows := [];
      for n := 0 to |invalid|
        invariant rows == InvalidRowsOf(invalid[..n])
      {
        rows := rows + [OwnRow(invalid[n], GroupOf(invalid[n]), INVALID)];
      }
      assert invalid[..|invalid|] == invalid;
    }

    method RunAll(keys: seq<Group>, runnable: seq<Candidate>, envs: nat -> Env) returns (how: Ending)
      modifies this
      ensures (ledger, batches, how) == RunGroups(keys, 0, runnable, old(ledger), old(batches), args, envs)
    {
      how := Completed;
      for i := 0 to |keys|
        invariant how == Completed
        invariant RunGroups(keys, i, runnable, ledger, batches, args, envs)
               == RunGroups(keys, 0, runnable, old(ledger), old(batches), args, envs)
      {
        how := RunGroup(Members(runnable, keys[i]), keys[i], envs);
        if how != Completed {
          return;
        }
      }
    }
  }
}
