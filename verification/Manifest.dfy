/** The MANIFEST lines: how the driver prints an execution, how the report reads one back with
    a regular expression, and how it tells a dry pass from the real one. Digits and word
    characters are the ASCII ones. */
module Manifest {
  import opened Optional

  /** One execution. `phase` and `proto` are the words of the line; a warmup has no order and
      no position. */
  datatype Entry = Entry(exec: nat, m: nat, phase: string, order: Option<nat>, pos: Option<int>, proto: string)

  predicate IsDigit(c: char) { '0' <= c <= '9' }

  predicate IsWord(c: char) { IsDigit(c) || 'a' <= c <= 'z' || 'A' <= c <= 'Z' || c == '_' }

  predicate IsPosChar(c: char) { c == '-' || IsDigit(c) }

  ghost predicate All(s: string, p: char -> bool) { forall i :: 0 <= i < |s| ==> p(s[i]) }

  // ----- numbers -----

  function Digit(d: nat): char
    requires d < 10
  {
    "0123456789"[d]
  }

  /** str(n). */
  function Str(n: nat): string {
    if n < 10 then [Digit(n)] else Str(n / 10) + [Digit(n % 10)]
  }

  /** int(s) of a text of digits. */
  function Int(s: string): nat {
    if |s| == 0 then 0
    else Int(s[..|s| - 1]) * 10 + if IsDigit(s[|s| - 1]) then s[|s| - 1] as int - '0' as int else 0
  }

  lemma {:induction false} IntOfStr(n: nat)
    ensures |Str(n)| > 0 && All(Str(n), IsDigit) && Int(Str(n)) == n
  {
    if n >= 10 {
      IntOfStr(n / 10);
      assert Str(n)[..|Str(n)| - 1] == Str(n / 10);
    } else {
      assert Str(n)[..0] == [];
    }
  }

  // ----- printing -----

  /** A key, its value, and what follows. */
  function Put(key: string, value: string, rest: string): string { key + value + rest }

  function PosText(e: Entry): string {
    if e.pos.Some? && e.pos.value >= 0 then Str(e.pos.value) else "-"
  }

  /** The line of an execution; `suffix` is what follows the protocol. */
  function Line(e: Entry, suffix: string): string {
    Put("MANIFEST exec=", Str(e.exec), Put(" m=", Str(e.m), Put(" phase=", e.phase, AfterPhase(e, suffix))))
  }

  function AfterPhase(e: Entry, suffix: string): string {
    if e.order.Some? then Put(" order=", Str(e.order.value), AfterOrder(e, suffix)) else AfterOrder(e, suffix)
  }

  function AfterOrder(e: Entry, suffix: string): string {
    Put(" pos=", PosText(e), Put(" proto=", e.proto, suffix))
  }

  /** A line in full: the words of the log, for a warmup and for an execution with an order. */
  lemma LineText(e: Entry, suffix: string)
    ensures Line(e, suffix) == "MANIFEST exec=" + Str(e.exec) + (" m=" + Str(e.m) + (" phase=" + e.phase +
      if e.order.None? then " pos=" + PosText(e) + (" proto=" + e.proto + suffix)
      else " order=" + Str(e.order.value) + (" pos=" + PosText(e) + (" proto=" + e.proto + suffix))))
    ensures e.pos.None? ==> PosText(e) == "-"
    ensures e.pos.Some? && e.pos.value >= 0 ==> PosText(e) == Str(e.pos.value)
  {
  }

  // ----- reading -----

  /** The captured groups of the pattern. */
  datatype Groups = Groups(exec: string, m: string, phase: string, order: Option<string>, pos: string, proto: string)

  function Literal(s: string, lit: string): Option<string> {
    if lit <= s then Some(s[|lit|..]) else None
  }

  /** The length of the longest prefix of characters satisfying p. */
  function RunLength(s: string, p: char -> bool): (n: nat)
    ensures n <= |s|
  {
    if |s| > 0 && p(s[0]) then 1 + RunLength(s[1..], p) else 0
  }

  /** One or more characters satisfying p, as many as there are, and the rest. */
  function Run(s: string, p: char -> bool): Option<(string, string)> {
    var n := RunLength(s, p);
    if n == 0 then None else Some((s[..n], s[n..]))
  }

  /** A literal and the run after it. */
  function Field(s: string, lit: string, p: char -> bool): Option<(string, string)> {
    var rest :- Literal(s, lit);
    Run(rest, p)
  }

  /** A match of the pattern at the start of s. Each repetition is followed by a literal that
      starts with a character outside its class, so the longest run is the only one that can
      match, and an order group that matches cannot be left out. */
  function MatchHere(s: string): Option<Groups> {
    var (exec, s1) :- Field(s, "MANIFEST exec=", IsDigit);
    var (m, s2) :- Field(s1, " m=", IsDigit);
    var (phase, s3) :- Field(s2, " phase=", IsWord);
    var order := Field(s3, " order=", IsDigit);
    var (pos, s4) :- Field(if order.Some? then order.value.1 else s3, " pos=", IsPosChar);
    var (proto, _) :- Field(s4, " proto=", IsWord);
    Some(Groups(exec, m, phase, if order.Some? then Some(order.value.0) else None, pos, proto))
  }

  /** The leftmost match in a line. */
  function Search(line: string): Option<Groups> {
    if MatchHere(line).Some? || |line| == 0 then MatchHere(line) else Search(line[1..])
  }

  /** int() of a pos group: digits, or a minus sign and digits; anything else is a ValueError. */
  function PosInt(s: string): Option<int> {
    if |s| > 0 && RunLength(s, IsDigit) == |s| then Some(Int(s))
    else if |s| > 1 && s[0] == '-' && RunLength(s[1..], IsDigit) == |s| - 1 then (var v: int := Int(s[1..]); Some(-v))
    else None
  }

  /** The entry of a match; None is the ValueError. */
  function ToEntry(g: Groups): Option<Entry> {
    var pos :- if g.pos == "-" then Some(None) else (var p :- PosInt(g.pos); Some(Some(p)));
    Some(Entry(Int(g.exec), Int(g.m), g.phase, if g.order.Some? then Some(Int(g.order.value)) else None, pos, g.proto))
  }

  /** What a line contributes: its entry, or nothing if it does not match. */
  function ReadLine(line: string): Option<seq<Entry>> {
    match Search(line)
    case None => Some([])
    case Some(g) => var e :- ToEntry(g); Some([e])
  }

  /** What the lines contribute together, unless one of them fails. */
  function Collect<L, E>(read: L -> Option<seq<E>>, lines: seq<L>): Option<seq<E>> {
    if |lines| == 0 then Some([])
    else
      var before :- Collect(read, lines[..|lines| - 1]);
      var last :- read(lines[|lines| - 1]);
      Some(before + last)
  }

  lemma {:induction false} CollectConcat<L, E>(read: L -> Option<seq<E>>, a: seq<L>, b: seq<L>)
    ensures Collect(read, a + b) == if Collect(read, a).Some? && Collect(read, b).Some?
      then Some(Collect(read, a).value + Collect(read, b).value) else None
    decreases |b|
  {
    if |b| == 0 {
      assert a + b == a;
      assert Collect(read, a).Some? ==> Collect(read, a).value + [] == Collect(read, a).value;
    } else {
      var k := |b| - 1;
      CollectConcat(read, a, b[..k]);
      assert (a + b)[..|a + b| - 1] == a + b[..k];
      if Collect(read, a).Some? && Collect(read, b).Some? {
        var x, y, z := Collect(read, a).value, Collect(read, b[..k]).value, read(b[k]).value;
        assert x + y + z == x + (y + z);
      }
    }
  }

  /** The entries of the matching lines, in order; None if int() raises on one of them. */
  function Entries(log: seq<string>): Option<seq<Entry>> { Collect(ReadLine, log) }

  // ----- round trip of a line -----

  lemma {:induction false} RunLengthOf(a: string, b: string, p: char -> bool)
    requires All(a, p) && (|b| > 0 ==> !p(b[0]))
    ensures RunLength(a + b, p) == |a|
  {
    if |a| == 0 {
      assert a + b == b;
    } else {
      assert (a + b)[0] == a[0] && (a + b)[1..] == a[1..] + b;
      RunLengthOf(a[1..], b, p);
    }
  }

  lemma FieldOf(key: string, value: string, rest: string, p: char -> bool)
    requires |value| > 0 && All(value, p) && (|rest| > 0 ==> !p(rest[0]))
    ensures Field(Put(key, value, rest), key, p) == Some((value, rest))
  {
    RunLengthOf(value, rest, p);
    assert Put(key, value, rest)[|key|..] == value + rest;
    assert (value + rest)[..|value|] == value && (value + rest)[|value|..] == rest;
  }

  /** What the driver prints: words for phase and protocol, and a position that is no negative
      number. */
  ghost predicate Printable(e: Entry) {
    |e.phase| > 0 && All(e.phase, IsWord) && |e.proto| > 0 && All(e.proto, IsWord) && (e.pos.Some? ==> e.pos.value >= 0)
  }

  /** The protocol's word ends where the suffix begins. */
  ghost predicate EndsWord(suffix: string) { |suffix| > 0 ==> !IsWord(suffix[0]) }

  function GroupsOf(e: Entry): Groups {
    Groups(Str(e.exec), Str(e.m), e.phase, if e.order.Some? then Some(Str(e.order.value)) else None, PosText(e),
      e.proto)
  }

  lemma TailFields(e: Entry, suffix: string)
    requires Printable(e) && EndsWord(suffix)
    ensures Field(AfterOrder(e, suffix), " pos=", IsPosChar) == Some((PosText(e), Put(" proto=", e.proto, suffix)))
    ensures Field(Put(" proto=", e.proto, suffix), " proto=", IsWord) == Some((e.proto, suffix))
    ensures Field(AfterOrder(e, suffix), " order=", IsDigit) == None
  {
    if e.pos.Some? {
      IntOfStr(e.pos.value);
    }
    FieldOf(" pos=", PosText(e), Put(" proto=", e.proto, suffix), IsPosChar);
    FieldOf(" proto=", e.proto, suffix, IsWord);
    assert AfterOrder(e, suffix)[1] == 'p' && " order="[1] == 'o';
  }

  lemma OrderField(e: Entry, suffix: string)
    requires Printable(e) && EndsWord(suffix) && e.order.Some?
    ensures Field(AfterPhase(e, suffix), " order=", IsDigit) == Some((Str(e.order.value), AfterOrder(e, suffix)))
  {
    IntOfStr(e.order.value);
    FieldOf(" order=", Str(e.order.value), AfterOrder(e, suffix), IsDigit);
  }

  lemma HeadFields(e: Entry, suffix: string)
    requires Printable(e) && EndsWord(suffix)
    ensures var s3 := AfterPhase(e, suffix); var s2 := Put(" phase=", e.phase, s3); var s1 := Put(" m=", Str(e.m), s2);
      && Field(Line(e, suffix), "MANIFEST exec=", IsDigit) == Some((Str(e.exec), s1))
      && Field(s1, " m=", IsDigit) == Some((Str(e.m), s2))
      && Field(s2, " phase=", IsWord) == Some((e.phase, s3))
  {
    var s3 := AfterPhase(e, suffix);
    var s2 := Put(" phase=", e.phase, s3);
    var s1 := Put(" m=", Str(e.m), s2);
    IntOfStr(e.exec);
    IntOfStr(e.m);
    FieldOf("MANIFEST exec=", Str(e.exec), s1, IsDigit);
    FieldOf(" m=", Str(e.m), s2, IsDigit);
    FieldOf(" phase=", e.phase, s3, IsWord);
  }

  /** Reading a printed line gives back the execution, whatever follows the protocol. */
  lemma LineRoundTrip(e: Entry, suffix: string)
    requires Printable(e) && EndsWord(suffix)
    ensures Search(Line(e, suffix)) == Some(GroupsOf(e)) && ToEntry(GroupsOf(e)) == Some(e)
  {
    HeadFields(e, suffix);
    TailFields(e, suffix);
    if e.order.Some? {
      OrderField(e, suffix);
    }
    assert MatchHere(Line(e, suffix)) == Some(GroupsOf(e));
    GroupsRead(e);
  }

  lemma SearchStep(line: string)
    requires |line| > 0 && line[0] != 'M'
    ensures Search(line) == Search(line[1..])
  {
    NoMatchHere(line);
  }

  lemma {:induction false} SearchBehind(pre: string, line: string, all: string)
    requires 'M' !in pre && all == pre + line
    ensures Search(all) == Search(line)
    decreases |pre|
  {
    if |pre| == 0 {
      assert all == line;
    } else {
      assert all[0] == pre[0] && all[1..] == pre[1..] + line;
      SearchBehind(pre[1..], line, all[1..]);
      SearchStep(all);
    }
  }

  /** The pattern is found behind whatever a launcher prints in front of the line. */
  lemma LineFoundBehind(pre: string, e: Entry, suffix: string)
    requires Printable(e) && EndsWord(suffix) && 'M' !in pre
    ensures Search(pre + Line(e, suffix)) == Some(GroupsOf(e))
  {
    SearchBehind(pre, Line(e, suffix), pre + Line(e, suffix));
    LineRoundTrip(e, suffix);
  }

  lemma NoMatchHere(s: string)
    requires |s| > 0 && s[0] != 'M'
    ensures MatchHere(s) == None
  {
    assert "MANIFEST exec="[0] == 'M';
  }

  /** int() of a position: a natural number or its negation. */
  lemma PosIntOf(n: nat)
    ensures PosInt(Str(n)) == Some(n) && PosInt("-") == None
    ensures PosInt("-" + Str(n)).Some? && PosInt("-" + Str(n)).value == -(n as int)
  {
    IntOfStr(n);
    RunLengthOf(Str(n), "", IsDigit);
    assert Str(n) + "" == Str(n) && ("-" + Str(n))[1..] == Str(n);
  }

  lemma GroupsRead(e: Entry)
    requires Printable(e)
    ensures ToEntry(GroupsOf(e)) == Some(e)
  {
    IntOfStr(e.exec);
    IntOfStr(e.m);
    if e.order.Some? {
      IntOfStr(e.order.value);
    }
    if e.pos.Some? {
      IntOfStr(e.pos.value);
      RunLengthOf(Str(e.pos.value), "", IsDigit);
      assert Str(e.pos.value) + "" == Str(e.pos.value);
      assert PosText(e)[0] != "-"[0];
    }
  }

  // ----- passes -----

  function Execs(es: seq<Entry>): seq<nat> {
    seq(|es|, i requires 0 <= i < |es| => es[i].exec)
  }

  /** Keeps the second half when both halves count the same executions. */
  function SecondPass(es: seq<Entry>): seq<Entry> {
    var half := |es| / 2;
    if |es| % 2 == 0 && |es| > 1 && Execs(es[..half]) == Execs(es[half..]) then es[half..] else es
  }

  /** The manifest parse_manifest makes of a log. */
  function ManifestOf(log: seq<string>): Option<seq<Entry>> {
    var es :- Entries(log);
    Some(SecondPass(es))
  }

  /** One line of the loop: its match, if any, as an entry. */
  method ReadOne(line: string) returns (r: Option<seq<Entry>>)
    ensures r == ReadLine(line)
  {
    var groups := Search(line);
    if groups.None? {
      return Some([]);
    }
    var e := ToEntry(groups.value);
    r := if e.Some? then Some([e.value]) else None;
  }

  lemma CollectSnoc<L, E>(read: L -> Option<seq<E>>, lines: seq<L>, i: nat)
    requires i < |lines|
    ensures Collect(read, lines[..i + 1]) == if Collect(read, lines[..i]).Some? && read(lines[i]).Some?
      then Some(Collect(read, lines[..i]).value + read(lines[i]).value) else None
    ensures Collect(read, lines[..i + 1]) == None ==> Collect(read, lines) == None
  {
    assert lines[..i + 1][..i] == lines[..i];
    CollectConcat(read, lines[..i + 1], lines[i + 1..]);
    assert lines == lines[..i + 1] + lines[i + 1..];
  }

  /** The loop over the lines of the log. */
  method ReadEntries(log: seq<string>) returns (r: Option<seq<Entry>>)
    ensures r == Entries(log)
  {
    var execs: seq<Entry> := [];
    ghost var read := ReadLine;
    for i := 0 to |log|
      invariant Collect(read, log[..i]) == Some(execs)
      invariant read == ReadLine
    {
      var more := ReadOne(log[i]);
      CollectSnoc(read, log, i);
      if more.None? {
        return None;
      }
      execs := execs + more.value;
    }
    assert log[..|log|] == log;
    r := Some(execs);
  }

  /** parse_manifest: the entries of the log, then the choice of the pass. */
  method ParseManifest(log: seq<string>) returns (r: Option<seq<Entry>>)
    ensures r == ManifestOf(log)
  {
    r := ReadEntries(log);
    if r.Some? && |r.value| % 2 == 0 && |r.value| > 1 {
      var half := |r.value| / 2;
      if Execs(r.value[..half]) == Execs(r.value[half..]) {
        r := Some(r.value[half..]);
      }
    }
  }

  /** Executions are numbered from `first`. */
  ghost predicate Numbered(es: seq<Entry>, first: nat) {
    forall i :: 0 <= i < |es| ==> es[i].exec == first + i
  }

  /** A log holding the whole or a part of a dry pass and of a real one is cut exactly when
      both parts are equally long, and then to the real pass; so one pass alone is never cut. */
  lemma SecondPassIff(dry: seq<Entry>, run: seq<Entry>)
    requires Numbered(dry, 0) && Numbered(run, 0)
    ensures SecondPass(dry + run) == if |dry| == |run| then run else dry + run
  {
    var es := dry + run;
    var half := |es| / 2;
    if |dry| == |run| {
      assert es[..half] == dry && es[half..] == run;
      assert |run| == 0 ==> es == run;
    } else if |es| % 2 == 0 && |es| > 1 {
      FirstDiffers(dry, run);
    }
  }

  lemma FirstDiffers(dry: seq<Entry>, run: seq<Entry>)
    requires Numbered(dry, 0) && Numbered(run, 0) && |dry| != |run| && |dry + run| % 2 == 0 && |dry + run| > 1
    ensures var es := dry + run; Execs(es[..|es| / 2]) != Execs(es[|es| / 2..])
  {
    var es := dry + run;
    var half := |es| / 2;
    assert es[..half][0] == es[0] && es[half..][0] == es[half];
    assert Execs(es[..half])[0] == es[0].exec == 0;
    assert Execs(es[half..])[0] == es[half].exec;
    assert es[half].exec == if half < |dry| then half else half - |dry|;
  }
}
