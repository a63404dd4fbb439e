/** The driver that runs the protocols: which executions it makes of a list of shapes, and the
    log it leaves, for a complete run or one that a correctness check aborts. */
module LatinDriver {
  import opened Optional
  import opened Manifest
  import opened LatinSquare
  import opened Sequences

  const BT_MAX_M := 1024

  function Protocols(m: nat): seq<string> {
    if m <= BT_MAX_M then ["ll", "bt", "ht"] else ["ll", "ht"]
  }

  /** Tokens the workspace of a protocol is allocated for. */
  function WorkspaceTokens(proto: string, cap: nat): nat {
    if proto == "bt" && cap > BT_MAX_M then BT_MAX_M else cap
  }

  /** No execution exceeds the workspace of its protocol. */
  lemma FitsWorkspace(m: nat, cap: nat, i: nat)
    requires m <= cap && i < |Protocols(m)|
    ensures m <= WorkspaceTokens(Protocols(m)[i], cap)
  {
    assert "ll"[0] != "bt"[0] && "ht"[0] != "bt"[0];
  }

  const ALL_PROTOCOLS := ["ll", "bt", "ht"]

  /** Shape m fits the workspace of the protocol, allocated for shapes up to cap. */
  predicate Fitting(proto: string, m: nat, cap: nat) {
    proto in ALL_PROTOCOLS && m <= cap && m <= WorkspaceTokens(proto, cap)
  }

  /** A shape runs exactly the protocols whose workspace it fits: bt up to 1024 tokens, the other
      two always; and always in the order ll, bt, ht. */
  lemma RunsIffFits(m: nat, cap: nat, proto: string)
    requires m <= cap
    ensures proto in Protocols(m) <==> Fitting(proto, m, cap)
    ensures Fitting(proto, m, cap) <==> proto == "ll" || proto == "ht" || (proto == "bt" && m <= 1024)
    ensures forall i, j :: 0 <= i < j < |Protocols(m)| ==>
      (Protocols(m)[i], Protocols(m)[j]) in {("ll", "bt"), ("ll", "ht"), ("bt", "ht")}
  {
    assert "ll"[0] != "bt"[0] && "ht"[0] != "bt"[0];
  }

  // ----- the executions of a run -----

  function Warmups(m: nat, protocols: seq<string>, first: nat): seq<Entry> {
    seq(|protocols|, i requires 0 <= i < |protocols| => Entry(first + i, m, "warmup", None, None, protocols[i]))
  }

  /** Execution order number k of shape m. */
  function OrderRuns(m: nat, k: nat, order: seq<string>, first: nat): seq<Entry> {
    seq(|order|, i requires 0 <= i < |order| => Entry(first + i, m, "latin", Some(k), Some(i), order[i]))
  }

  function LatinRuns(m: nat, orders: seq<seq<string>>, first: nat): seq<Entry> {
    if |orders| == 0 then []
    else
      var k := |orders| - 1;
      var before := LatinRuns(m, orders[..k], first);
      before + OrderRuns(m, k, orders[k], first + |before|)
  }

  function ShapeRuns(m: nat, protocols: seq<string>, first: nat): seq<Entry> {
    Warmups(m, protocols, first) + LatinRuns(m, Orders(protocols), first + |protocols|)
  }

  /** Every execution of a complete run, numbered from 0. */
  function Plan(ms: seq<nat>): seq<Entry> {
    if |ms| == 0 then []
    else
      var before := Plan(ms[..|ms| - 1]);
      before + ShapeRuns(ms[|ms| - 1], Protocols(ms[|ms| - 1]), |before|)
  }

  lemma {:induction false} LatinRunsNumbered(m: nat, orders: seq<seq<string>>, first: nat)
    ensures Numbered(LatinRuns(m, orders, first), first)
    decreases |orders|
  {
    if |orders| > 0 {
      LatinRunsNumbered(m, orders[..|orders| - 1], first);
    }
  }

  lemma NumberedConcat(a: seq<Entry>, b: seq<Entry>, first: nat)
    requires Numbered(a, first) && Numbered(b, first + |a|)
    ensures Numbered(a + b, first)
  {
  }

  lemma ShapeNumbered(m: nat, protocols: seq<string>, first: nat)
    ensures Numbered(ShapeRuns(m, protocols, first), first)
  {
    LatinRunsNumbered(m, Orders(protocols), first + |protocols|);
    NumberedConcat(Warmups(m, protocols, first), LatinRuns(m, Orders(protocols), first + |protocols|), first);
  }

  lemma {:induction false} PlanNumbered(ms: seq<nat>)
    ensures Numbered(Plan(ms), 0)
    decreases |ms|
  {
    if |ms| > 0 {
      var k := |ms| - 1;
      PlanNumbered(ms[..k]);
      ShapeNumbered(ms[k], Protocols(ms[k]), |Plan(ms[..k])|);
      NumberedConcat(Plan(ms[..k]), ShapeRuns(ms[k], Protocols(ms[k]), |Plan(ms[..k])|), 0);
    }
  }

  lemma {:induction false} LatinRunsSize(m: nat, orders: seq<seq<string>>, first: nat, n: nat)
    requires Rectangular(orders, n)
    ensures |LatinRuns(m, orders, first)| == |orders| * n
    decreases |orders|
  {
    if |orders| > 0 {
      LatinRunsSize(m, orders[..|orders| - 1], first, n);
      assert |orders| * n == (|orders| - 1) * n + n;
    }
  }

  lemma {:induction false} RowEnds(k: nat, rows: nat, n: nat)
    requires k < rows
    ensures k * n + n <= rows * n
  {
    assert rows * n == (rows - 1) * n + n;
    if k < rows - 1 {
      RowEnds(k, rows - 1, n);
    }
  }

  /** The execution at place `at`, where order k starts at place `at - pos`. */
  ghost predicate RunAt(m: nat, orders: seq<seq<string>>, first: nat, k: nat, pos: nat, at: nat)
    requires k < |orders| && pos < |orders[k]|
  {
    && at < |LatinRuns(m, orders, first)|
    && LatinRuns(m, orders, first)[at] == Entry(first + at, m, "latin", Some(k), Some(pos), orders[k][pos])
  }

  lemma {:induction false} LatinRunAt(m: nat, orders: seq<seq<string>>, first: nat, n: nat, k: nat, pos: nat)
    requires Rectangular(orders, n) && k < |orders| && pos < n
    ensures RunAt(m, orders, first, k, pos, k * n + pos)
    decreases |orders|
  {
    var last := |orders| - 1;
    LatinRunsSize(m, orders[..last], first, n);
    if k < last {
      RowEnds(k, last, n);
      LatinRunAt(m, orders[..last], first, n, k, pos);
      EarlierRun(m, orders, first, k, pos, k * n + pos);
    } else {
      LastRun(m, orders, first, pos);
    }
  }

  lemma EarlierRun(m: nat, orders: seq<seq<string>>, first: nat, k: nat, pos: nat, at: nat)
    requires k < |orders| - 1 && pos < |orders[k]| && RunAt(m, orders[..|orders| - 1], first, k, pos, at)
    ensures RunAt(m, orders, first, k, pos, at)
  {
  }

  lemma LastRun(m: nat, orders: seq<seq<string>>, first: nat, pos: nat)
    requires |orders| > 0 && pos < |orders[|orders| - 1]|
    ensures var last := |orders| - 1;
      RunAt(m, orders, first, last, pos, |LatinRuns(m, orders[..last], first)| + pos)
  {
  }

  /** A shape's executions one by one: a warmup of each of its n protocols, then order after order,
      position after position, each order starting one protocol further on. */
  lemma ShapeExecutions(m: nat, protocols: seq<string>, first: nat, i: nat, k: nat, pos: nat)
    requires i < |protocols| && k < |Orders(protocols)| && pos < |protocols|
    ensures var n, runs := |protocols|, ShapeRuns(m, protocols, first);
      && |runs| == n + |Orders(protocols)| * n && n + k * n + pos < |runs|
      && runs[i] == Entry(first + i, m, "warmup", None, None, protocols[i])
      && runs[n + k * n + pos]
         == Entry(first + n + k * n + pos, m, "latin", Some(k), Some(pos), protocols[(k + pos) % n])
  {
    var n := |protocols|;
    OrdersAreLatin(protocols);
    OrderAt(protocols, k, pos);
    LatinRunAt(m, Orders(protocols), first + n, n, k, pos);
    LatinRunsSize(m, Orders(protocols), first + n, n);
  }

  lemma {:induction false} PlanGrows(ms: seq<nat>, k: nat)
    requires k <= |ms|
    ensures Plan(ms[..k]) <= Plan(ms)
    decreases |ms| - k
  {
    if k == |ms| {
      assert ms[..k] == ms;
    } else {
      assert ms[..k + 1][..k] == ms[..k];
      PlanGrows(ms, k + 1);
    }
  }

  // ----- the log -----

  /** A printed line: the manifest line of an execution with what follows its protocol, or any
      other text. */
  datatype Printed = Exec(entry: Entry, suffix: string) | Note(text: string)

  function Text(p: Printed): string {
    match p
    case Exec(e, suffix) => Line(e, suffix)
    case Note(text) => text
  }

  function Texts(log: seq<Printed>): seq<string> {
    seq(|log|, i requires 0 <= i < |log| => Text(log[i]))
  }

  /** The executions that were logged, in order. */
  function Executions(log: seq<Printed>): seq<Entry> {
    if |log| == 0 then []
    else
      var before, last := Executions(log[..|log| - 1]), log[|log| - 1];
      if last.Exec? then before + [last.entry] else before
  }

  lemma ExecutionsSnoc(log: seq<Printed>, last: Printed)
    ensures Executions(log + [last]) == if last.Exec? then Executions(log) + [last.entry] else Executions(log)
  {
    assert (log + [last])[..|log|] == log;
  }

  /** Manifest lines end their protocol's word; other lines, whoever printed them, do not match
      the pattern. */
  ghost predicate LegiblePrint(p: Printed) {
    match p
    case Exec(e, suffix) => Printable(e) && EndsWord(suffix)
    case Note(text) => Search(text) == None
  }

  ghost predicate Legible(log: seq<Printed>) {
    forall i :: 0 <= i < |log| ==> LegiblePrint(log[i])
  }

  /** The line mentions no execution: the pattern's opening words occur nowhere in it. */
  ghost predicate Unmentioned(line: string) {
    forall i :: 0 <= i <= |line| ==> !("MANIFEST exec=" <= line[i..])
  }

  lemma {:induction false} UnmentionedNeverMatches(line: string)
    requires Unmentioned(line)
    ensures Search(line) == None
  {
    assert !("MANIFEST exec=" <= line[0..]) && line[0..] == line;
    if |line| > 0 {
      forall i | 0 <= i <= |line[1..]|
        ensures !("MANIFEST exec=" <= line[1..][i..])
      {
        assert line[1..][i..] == line[i + 1..];
      }
      UnmentionedNeverMatches(line[1..]);
    }
  }

  /** A line without a capital M mentions no execution. */
  lemma QuietLine(line: string)
    requires 'M' !in line
    ensures Search(line) == None
  {
    assert "MANIFEST exec="[0] == 'M';
    forall i | 0 <= i <= |line|
      ensures !("MANIFEST exec=" <= line[i..])
    {
      assert i < |line| ==> line[i..][0] == line[i];
    }
    UnmentionedNeverMatches(line);
  }

  lemma ReadPrint(p: Printed)
    requires LegiblePrint(p)
    ensures ReadLine(Text(p)) == Some(if p.Exec? then [p.entry] else [])
  {
    match p
    case Exec(e, suffix) => LineRoundTrip(e, suffix);
    case Note(_) =>
  }

  /** Reading a legible log gives back exactly the executions that were logged. */
  lemma {:induction false} LogReads(log: seq<Printed>)
    requires Legible(log)
    ensures Collect(ReadLine, Texts(log)) == Some(Executions(log))
    decreases |log|
  {
    if |log| > 0 {
      var k := |log| - 1;
      LogReads(log[..k]);
      ReadPrint(log[k]);
      assert Texts(log)[..k] == Texts(log[..k]);
      assert Executions(log[..k]) + [] == Executions(log[..k]);
    }
  }

  /** How Python prints a list of numbers, without the brackets. */
  function Commas(ms: seq<nat>): string {
    if |ms| == 0 then ""
    else Commas(ms[..|ms| - 1]) + (if |ms| > 1 then ", " else "") + Str(ms[|ms| - 1])
  }

  lemma {:induction false} CommasQuiet(ms: seq<nat>)
    ensures 'M' !in Commas(ms)
    decreases |ms|
  {
    if |ms| > 0 {
      CommasQuiet(ms[..|ms| - 1]);
      IntOfStr(ms[|ms| - 1]);
    }
  }

  lemma QuietNumber(n: nat)
    ensures 'M' !in Str(n)
  {
    IntOfStr(n);
  }

  method NoteText(m: nat) returns (text: string)
    ensures 'M' !in text
  {
    QuietNumber(m);
    QuietNumber(BT_MAX_M);
    text := "NOTE m=" + Str(m);
    text := text + ": bt skipped (";
    text := text + "BT_ONLY_CONFIG";
    text := text + " caps at m=";
    text := text + Str(BT_MAX_M);
    text := text + ")";
  }

  method DoneText(exec: nat, ms: seq<nat>) returns (text: string)
    ensures 'M' !in text
  {
    QuietNumber(exec);
    CommasQuiet(ms);
    text := "done: " + Str(exec);
    text := text + " executions across m=[";
    text := text + Commas(ms) + "]";
  }

  /** What the driver itself prints: its other lines have no capital M. */
  ghost predicate OwnPrint(p: Printed) {
    match p
    case Exec(e, suffix) => Printable(e) && EndsWord(suffix)
    case Note(text) => 'M' !in text
  }

  ghost predicate Own(log: seq<Printed>) {
    forall i :: 0 <= i < |log| ==> OwnPrint(log[i])
  }

  lemma OwnIsLegible(log: seq<Printed>)
    requires Own(log)
    ensures Legible(log)
  {
    forall i | 0 <= i < |log|
      ensures LegiblePrint(log[i])
    {
      assert OwnPrint(log[i]);
      if log[i].Note? {
        QuietLine(log[i].text);
      }
    }
  }

  method PrintNote(log: seq<Printed>, text: string) returns (all: seq<Printed>)
    requires Own(log) && 'M' !in text
    ensures Own(all) && Executions(all) == Executions(log)
  {
    ExecutionsSnoc(log, Note(text));
    all := log + [Note(text)];
  }

  /** The suffix of a warmup's line. */
  method CheckText(text: string) returns (suffix: string)
    ensures EndsWord(suffix)
  {
    suffix := " norm_cos=" + text;
  }

  ghost predicate Words(protocols: seq<string>) {
    forall p :: p in protocols ==> |p| > 0 && All(p, IsWord)
  }

  lemma ProtocolsAreWords(m: nat)
    ensures Words(Protocols(m))
  {
  }

  lemma EntryPrintable(m: nat, exec: nat, k: nat, i: nat, proto: string)
    requires |proto| > 0 && All(proto, IsWord)
    ensures Printable(Entry(exec, m, "warmup", None, None, proto))
    ensures Printable(Entry(exec, m, "latin", Some(k), Some(i), proto))
  {
  }

  /** The log's executions are a part of `planned` after `before`, all of it if ok. */
  ghost predicate Progress(log: seq<Printed>, before: seq<Entry>, planned: seq<Entry>, ok: bool) {
    && before <= Executions(log) <= before + planned
    && (ok ==> Executions(log) == before + planned)
  }

  /** Every warmup among the executions passed its check. */
  ghost predicate Passed(es: seq<Entry>, checks: nat -> bool) {
    forall i :: 0 <= i < |es| && es[i].phase == "warmup" ==> checks(es[i].exec)
  }

  /** A run goes on as long as warmups pass; one that does not was ended by its last execution, a
      warmup whose check failed, the first that did. */
  ghost predicate Ended(es: seq<Entry>, checks: nat -> bool, ok: bool) {
    if ok then Passed(es, checks)
    else |es| > 0 && es[|es| - 1].phase == "warmup" && !checks(es[|es| - 1].exec) && Passed(es[..|es| - 1], checks)
  }

  lemma PassedConcat(a: seq<Entry>, b: seq<Entry>, checks: nat -> bool)
    ensures Passed(a + b, checks) <==> Passed(a, checks) && Passed(b, checks)
  {
    assert forall i :: 0 <= i < |a| ==> (a + b)[i] == a[i];
    assert forall i :: 0 <= i < |b| ==> (a + b)[|a| + i] == b[i];
  }

  lemma {:induction false} LatinPassed(m: nat, orders: seq<seq<string>>, first: nat, checks: nat -> bool)
    ensures Passed(LatinRuns(m, orders, first), checks)
    decreases |orders|
  {
    if |orders| > 0 {
      var k := |orders| - 1;
      var before := LatinRuns(m, orders[..k], first);
      LatinPassed(m, orders[..k], first, checks);
      assert "latin"[0] != "warmup"[0];
      PassedConcat(before, OrderRuns(m, k, orders[k], first + |before|), checks);
    }
  }

  lemma StillPassed(es: seq<Entry>, m: nat, orders: seq<seq<string>>, first: nat, checks: nat -> bool)
    requires Passed(es, checks)
    ensures Ended(es + LatinRuns(m, orders, first), checks, true)
  {
    LatinPassed(m, orders, first, checks);
    PassedConcat(es, LatinRuns(m, orders, first), checks);
  }

  lemma WarmupPassed(es: seq<Entry>, e: Entry, checks: nat -> bool)
    requires Passed(es, checks) && e.phase == "warmup"
    ensures Ended(es + [e], checks, checks(e.exec))
  {
    assert (es + [e])[..|es|] == es;
  }

  /** A log that can be read and holds a part of the planned executions. */
  ghost predicate Logged(log: seq<Printed>, planned: seq<Entry>, ok: bool) {
    Legible(log) && Progress(log, [], planned, ok)
  }

  method PrintWarmup(log: seq<Printed>, e: Entry, text: string) returns (all: seq<Printed>)
    requires Own(log) && |e.proto| > 0 && All(e.proto, IsWord)
    requires e == Entry(e.exec, e.m, "warmup", None, None, e.proto)
    ensures Own(all) && Executions(all) == Executions(log) + [e]
  {
    EntryPrintable(e.m, e.exec, 0, 0, e.proto);
    var suffix := CheckText(text);
    ExecutionsSnoc(log, Exec(e, suffix));
    all := log + [Exec(e, suffix)];
  }

  /** One warmup: its line comes before its check. */
  method WarmUp(log: seq<Printed>, e: Entry, checks: nat -> bool, text: string) returns (all: seq<Printed>, ok: bool)
    requires Own(log) && Passed(Executions(log), checks) && |e.proto| > 0 && All(e.proto, IsWord)
    requires e == Entry(e.exec, e.m, "warmup", None, None, e.proto)
    ensures Own(all) && Executions(all) == Executions(log) + [e]
    ensures Ended(Executions(all), checks, ok) && ok == checks(e.exec)
  {
    all := PrintWarmup(log, e, text);
    WarmupPassed(Executions(log), e, checks);
    ok := checks(e.exec);
  }

  lemma WarmupsSnoc(m: nat, protocols: seq<string>, first: nat, i: nat, before: seq<Entry>)
    requires i < |protocols| && Words(protocols)
    ensures var planned := Warmups(m, protocols, first); var e := planned[i];
      && before + planned[..i + 1] == before + planned[..i] + [e] && e.proto == protocols[i] && e.exec == first + i
      && |e.proto| > 0 && All(e.proto, IsWord) && e == Entry(e.exec, e.m, "warmup", None, None, e.proto)
  {
    assert protocols[i] in protocols;
  }

  /** The warmups of a shape: one per protocol, each logged before its check. */
  method RunWarmups(log: seq<Printed>, m: nat, protocols: seq<string>, first: nat, checks: nat -> bool,
                    texts: nat -> string)
    returns (all: seq<Printed>, ok: bool)
    requires Own(log) && Words(protocols) && Passed(Executions(log), checks)
    ensures Own(all) && Progress(all, Executions(log), Warmups(m, protocols, first), ok)
    ensures Ended(Executions(all), checks, ok)
    ensures ok <==> forall x :: first <= x < first + |protocols| ==> checks(x)
  {
    ghost var before := Executions(log);
    var planned := Warmups(m, protocols, first);
    all, ok := log, true;
    for i := 0 to |protocols|
      invariant ok && Own(all) && Executions(all) == before + planned[..i]
      invariant Ended(Executions(all), checks, ok)
      invariant forall x :: first <= x < first + i ==> checks(x)
    {
      WarmupsSnoc(m, protocols, first, i, before);
      all, ok := WarmUp(all, planned[i], checks, texts(first + i));
      if !ok {
        PrefixOf(before, planned, i + 1);
        return;
      }
    }
  }

  lemma PrefixOf(a: seq<Entry>, b: seq<Entry>, i: nat)
    requires i <= |b|
    ensures a <= a + b[..i] <= a + b
  {
  }

  /** One execution order. */
  method RunOrder(log: seq<Printed>, m: nat, k: nat, order: seq<string>, first: nat) returns (all: seq<Printed>)
    requires Own(log) && Words(order)
    ensures Own(all) && Executions(all) == Executions(log) + OrderRuns(m, k, order, first)
  {
    all := log;
    ghost var runs := OrderRuns(m, k, order, first);
    for i := 0 to |order|
      invariant Own(all) && Executions(all) == Executions(log) + runs[..i]
    {
      var e := Entry(first + i, m, "latin", Some(k), Some(i), order[i]);
      assert order[i] in order;
      EntryPrintable(m, first + i, k, i, order[i]);
      ExecutionsSnoc(all, Exec(e, ""));
      all := all + [Exec(e, "")];
      assert runs[..i + 1] == runs[..i] + [e];
    }
  }

  lemma OrderWords(protocols: seq<string>)
    requires Words(protocols)
    ensures forall k :: 0 <= k < |Orders(protocols)| ==> Words(Orders(protocols)[k])
  {
    OrdersAreLatin(protocols);
    forall k, p | 0 <= k < |Orders(protocols)| && p in Orders(protocols)[k]
      ensures p in protocols
    {
      assert p in multiset(Orders(protocols)[k]);
    }
  }

  /** The execution orders of a shape, one after the other. */
  method RunSquare(log: seq<Printed>, m: nat, orders: seq<seq<string>>, first: nat)
    returns (all: seq<Printed>, exec: nat)
    requires Own(log) && forall k :: 0 <= k < |orders| ==> Words(orders[k])
    ensures Own(all) && Executions(all) == Executions(log) + LatinRuns(m, orders, first)
    ensures exec == first + |LatinRuns(m, orders, first)|
  {
    all, exec := log, first;
    assert Executions(log) + [] == Executions(log);
    for k := 0 to |orders|
      invariant Own(all) && Executions(all) == Executions(log) + LatinRuns(m, orders[..k], first)
      invariant exec == first + |LatinRuns(m, orders[..k], first)|
    {
      SquareStep(Executions(log), m, orders, k, first);
      all := RunOrder(all, m, k, orders[k], exec);
      exec := exec + |orders[k]|;
    }
    assert orders[..|orders|] == orders;
  }

  lemma LatinRunsSnoc(m: nat, orders: seq<seq<string>>, k: nat, first: nat)
    requires k < |orders|
    ensures LatinRuns(m, orders[..k + 1], first)
         == LatinRuns(m, orders[..k], first) + OrderRuns(m, k, orders[k], first + |LatinRuns(m, orders[..k], first)|)
  {
    assert orders[..k + 1][..k] == orders[..k];
  }

  lemma SquareStep(logged: seq<Entry>, m: nat, orders: seq<seq<string>>, k: nat, first: nat)
    requires k < |orders|
    ensures var before, after := LatinRuns(m, orders[..k], first), LatinRuns(m, orders[..k + 1], first);
      && |after| == |before| + |orders[k]|
      && logged + before + OrderRuns(m, k, orders[k], first + |before|) == logged + after
  {
    LatinRunsSnoc(m, orders, k, first);
    Regroup(logged, LatinRuns(m, orders[..k], first),
      OrderRuns(m, k, orders[k], first + |LatinRuns(m, orders[..k], first)|));
  }

  lemma ProgressWiden(log: seq<Printed>, before: seq<Entry>, a: seq<Entry>, b: seq<Entry>, ok: bool)
    requires Progress(log, before, a, ok)
    ensures Progress(log, before, a + b, false)
  {
    assert before + a <= before + (a + b);
  }

  lemma ProgressAll(log: seq<Printed>, before: seq<Entry>, a: seq<Entry>, b: seq<Entry>)
    requires Executions(log) == before + a + b
    ensures Progress(log, before, a + b, true)
  {
    assert before + a + b == before + (a + b);
  }

  method RunProtocols(log: seq<Printed>, m: nat, protocols: seq<string>, first: nat, checks: nat -> bool,
                      texts: nat -> string)
    returns (all: seq<Printed>, exec: nat, ok: bool)
    requires Own(log) && Words(protocols) && Passed(Executions(log), checks)
    ensures Own(all) && Progress(all, Executions(log), ShapeRuns(m, protocols, first), ok)
    ensures Ended(Executions(all), checks, ok)
    ensures ok ==> exec == first + |ShapeRuns(m, protocols, first)|
  {
    all, ok := RunWarmups(log, m, protocols, first, checks, texts);
    ghost var before, warm := Executions(log), Warmups(m, protocols, first);
    ghost var latin := LatinRuns(m, Orders(protocols), first + |protocols|);
    exec := first + |protocols|;
    if !ok {
      ProgressWiden(all, before, warm, latin, false);
      return;
    }
    OrderWords(protocols);
    StillPassed(Executions(all), m, Orders(protocols), exec, checks);
    all, exec := RunSquare(all, m, Orders(protocols), exec);
    ProgressAll(all, before, warm, latin);
  }

  /** All executions of one shape. */
  method RunShape(log: seq<Printed>, m: nat, first: nat, checks: nat -> bool, texts: nat -> string)
    returns (all: seq<Printed>, exec: nat, ok: bool)
    requires Own(log) && Passed(Executions(log), checks)
    ensures Own(all) && Progress(all, Executions(log), ShapeRuns(m, Protocols(m), first), ok)
    ensures Ended(Executions(all), checks, ok)
    ensures ok ==> exec == first + |ShapeRuns(m, Protocols(m), first)|
  {
    var protocols := Protocols(m);
    ProtocolsAreWords(m);
    all := log;
    if |protocols| == 2 {
      var text := NoteText(m);
      all := PrintNote(all, text);
    }
    all, exec, ok := RunProtocols(all, m, protocols, first, checks, texts);
  }

  lemma PlanSnoc(ms: seq<nat>, k: nat)
    requires k < |ms|
    ensures Plan(ms[..k + 1]) == Plan(ms[..k]) + ShapeRuns(ms[k], Protocols(ms[k]), |Plan(ms[..k])|)
  {
    assert ms[..k + 1][..k] == ms[..k];
  }

  /** The driver's main loop on rank 0: the log of a complete run holds exactly the plan, and
      that of a run whose warmup check failed the part up to the first such warmup. */
  method Drive(ms: seq<nat>, checks: nat -> bool, texts: nat -> string) returns (log: seq<Printed>, ok: bool)
    ensures Logged(log, Plan(ms), ok) && Ended(Executions(log), checks, ok)
  {
    log, ok := [], true;
    var exec := 0;
    for k := 0 to |ms|
      invariant ok && Own(log) && Executions(log) == Plan(ms[..k]) && exec == |Plan(ms[..k])|
      invariant Passed(Executions(log), checks)
    {
      PlanSnoc(ms, k);
      PlanGrows(ms, k + 1);
      log, exec, ok := RunShape(log, ms[k], exec, checks, texts);
      if !ok {
        OwnIsLegible(log);
        return;
      }
    }
    assert ms[..|ms|] == ms;
    var text := DoneText(exec, ms);
    log := PrintNote(log, text);
    OwnIsLegible(log);
  }

  // ----- from the driver's log to the report's manifest -----

  lemma {:induction false} ExecutionsConcat(a: seq<Printed>, b: seq<Printed>)
    ensures Executions(a + b) == Executions(a) + Executions(b)
    decreases |b|
  {
    if |b| == 0 {
      assert a + b == a;
    } else {
      var k := |b| - 1;
      ExecutionsConcat(a, b[..k]);
      assert a + b == (a + b[..k]) + [b[k]] && b == b[..k] + [b[k]];
      ExecutionsSnoc(a + b[..k], b[k]);
      ExecutionsSnoc(b[..k], b[k]);
    }
  }

  /** Lines that do not match, printed by anything at any point, leave a log what it was: the
      results below hold for logs that other programs write into as well. */
  lemma OtherLinesHarmless(a: seq<Printed>, text: string, b: seq<Printed>, planned: seq<Entry>, ok: bool)
    requires Logged(a + b, planned, ok) && Search(text) == None
    ensures Logged(a + [Note(text)] + b, planned, ok)
  {
    var all := a + [Note(text)] + b;
    ExecutionsConcat(a, b);
    ExecutionsConcat(a + [Note(text)], b);
    ExecutionsSnoc(a, Note(text));
    forall i | 0 <= i < |all|
      ensures LegiblePrint(all[i])
    {
      assert i < |a| ==> all[i] == (a + b)[i];
      assert i > |a| ==> all[i] == (a + b)[i - 1];
    }
  }

  lemma PrefixNumbered(ms: seq<nat>, log: seq<Printed>, ok: bool)
    requires Logged(log, Plan(ms), ok)
    ensures Numbered(Executions(log), 0) && (ok ==> Executions(log) == Plan(ms))
  {
    PlanNumbered(ms);
    assert [] + Plan(ms) == Plan(ms);
  }

  lemma ManifestOfLog(log: seq<Printed>)
    requires Legible(log)
    ensures ManifestOf(Texts(log)) == Some(SecondPass(Executions(log)))
  {
    LogReads(log);
  }

  /** A run's log appended to a dry run's parses to exactly the real pass when both got equally
      far, as two complete runs do; otherwise nothing is cut. */
  lemma DriverToReport(ms: seq<nat>, dry: seq<Printed>, dryOk: bool, run: seq<Printed>, ok: bool)
    requires Logged(dry, Plan(ms), dryOk) && Logged(run, Plan(ms), ok)
    ensures ManifestOf(Texts(dry + run)) ==
      Some(if |Executions(dry)| == |Executions(run)| then Executions(run) else Executions(dry) + Executions(run))
    ensures dryOk && ok ==> ManifestOf(Texts(dry + run)) == Some(Plan(ms))
  {
    ManifestOfLog(dry + run);
    ExecutionsConcat(dry, run);
    PrefixNumbered(ms, dry, dryOk);
    PrefixNumbered(ms, run, ok);
    SecondPassIff(Executions(dry), Executions(run));
  }

  lemma OnePass(es: seq<Entry>)
    requires Numbered(es, 0)
    ensures SecondPass(es) == es
  {
    SecondPassIff([], es);
    assert [] + es == es;
  }

  /** The log of a single run, complete or aborted, is never cut. */
  lemma SinglePassUncut(ms: seq<nat>, run: seq<Printed>, ok: bool)
    requires Logged(run, Plan(ms), ok)
    ensures ManifestOf(Texts(run)) == Some(Executions(run))
  {
    ManifestOfLog(run);
    PrefixNumbered(ms, run, ok);
    OnePass(Executions(run));
  }
}
