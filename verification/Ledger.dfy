/** The CSV ledger of the sweep: row keys, which rows let a candidate be skipped, and what a
    resumed run does with them. The stage is the text that the ledger holds, "1" as well as "2b";
    the token count is kept as an integer, which str() writes and compares injectively. */
module Ledger {
  import opened Optional

  datatype Status = OK | INVALID | COMPILED | FAIL | FAIL_CUDA | HANG | ABORTED

  /** A candidate as the orchestrator reads it, with the defaults of closure and paced filled
      in; `knobs` is the canonical JSON text of its knob dict. */
  datatype Candidate = Candidate(id: string, stage: string, tokens: int, knobs: string, closure: string, paced: bool,
    invalid: bool)

  /** A JSONL result line. */
  datatype JsonRow = JsonRow(
    id: string, stage: string, tokens: int, knobs: string, closure: string, paced: bool, status: Status,
    median: Option<real>, bitCopy: Option<bool>, bitView: Option<bool>)

  /** A CSV row; `paced` and `bitexact` are the texts that the file holds. */
  datatype Row = Row(
    id: string, stage: string, tokens: int, knobs: string, closure: string, paced: string, status: Status,
    median: Option<real>, bitexact: string)

  datatype Key = Key(stage: string, tokens: int, knobs: string, closure: string, paced: string)

  datatype Options = Options(retryFailed: bool, retryHangs: bool, compileOnly: bool)

  /** str(bool(x)).lower() of a boolean. */
  function Lower(b: bool): string { if b then "true" else "false" }

  /** Python's bool() of a text: any non-empty text is true. */
  predicate TextTruth(s: string) { s != "" }

  function CandidateKey(c: Candidate): Key {
    Key(c.stage, c.tokens, c.knobs, c.closure, Lower(c.paced))
  }

  /** The key load_done files a CSV row under: row_key applied to the CSV texts. */
  function RowKey(row: Row): Key {
    Key(row.stage, row.tokens, row.knobs, row.closure, Lower(TextTruth(row.paced)))
  }

  /** The key with the paced column parsed instead. */
  function ParsedKey(row: Row): Key {
    Key(row.stage, row.tokens, row.knobs, row.closure, Lower(row.paced == "true"))
  }

  function JsonToRow(jr: JsonRow): Row {
    Row(jr.id, jr.stage, jr.tokens, jr.knobs, jr.closure, Lower(jr.paced), jr.status, jr.median,
        if jr.bitCopy.None? && jr.bitView.None? then ""
        else Lower(jr.bitCopy == Some(true) && jr.bitView == Some(true)))
  }

  predicate Skips(status: Status, o: Options) {
    match status
    case OK | INVALID => true
    case COMPILED => o.compileOnly
    case FAIL | FAIL_CUDA => !o.retryFailed
    case HANG => !o.retryHangs
    case ABORTED => false
  }

  /** The keys of the finished rows. */
  ghost predicate Done(rows: seq<Row>, o: Options, key: Key) {
    exists i :: 0 <= i < |rows| && RowKey(rows[i]) == key && Skips(rows[i].status, o)
  }

  /** `status` is the status of the last skippable row filed under the key. */
  ghost predicate LastSkippable(rows: seq<Row>, o: Options, key: Key, status: Status) {
    exists i :: 0 <= i < |rows| && RowKey(rows[i]) == key && Skips(rows[i].status, o) && status == rows[i].status
      && forall j :: i < j < |rows| && RowKey(rows[j]) == key ==> !Skips(rows[j].status, o)
  }

  lemma LastSkippableSnoc(rows: seq<Row>, row: Row, o: Options, key: Key, status: Status)
    ensures key == RowKey(row) && Skips(row.status, o) ==> LastSkippable(rows + [row], o, key, row.status)
    ensures LastSkippable(rows, o, key, status) && !(key == RowKey(row) && Skips(row.status, o)) ==>
      LastSkippable(rows + [row], o, key, status)
  {
    var all := rows + [row];
    assert all[|rows|] == row;
    if LastSkippable(rows, o, key, status) && !(key == RowKey(row) && Skips(row.status, o)) {
      var i :| 0 <= i < |rows| && RowKey(rows[i]) == key && Skips(rows[i].status, o) && status == rows[i].status
        && forall j :: i < j < |rows| && RowKey(rows[j]) == key ==> !Skips(rows[j].status, o);
      assert all[i] == rows[i];
      assert forall j :: 0 <= j < |rows| ==> all[j] == rows[j];
    }
  }

  /** load_done: the keys under which some row has a skippable status, with the status of the
      last such row. */
  method LoadDone(rows: seq<Row>, o: Options) returns (done: map<Key, Status>)
    ensures forall key :: key in done <==> Done(rows, o, key)
    ensures forall key :: key in done ==> LastSkippable(rows, o, key, done[key])
  {
    done := map[];
    for n := 0 to |rows|
      invariant forall key :: key in done <==> Done(rows[..n], o, key)
      invariant forall key :: key in done ==> LastSkippable(rows[..n], o, key, done[key])
    {
      DoneSnoc(rows[..n], o, rows[n]);
      forall key, status
        ensures key == RowKey(rows[n]) && Skips(rows[n].status, o) ==>
          LastSkippable(rows[..n] + [rows[n]], o, key, rows[n].status)
        ensures LastSkippable(rows[..n], o, key, status) && !(key == RowKey(rows[n]) && Skips(rows[n].status, o))
          ==> LastSkippable(rows[..n] + [rows[n]], o, key, status)
      {
        LastSkippableSnoc(rows[..n], rows[n], o, key, status);
      }
      assert rows[..n] + [rows[n]] == rows[..n + 1];
      if Skips(rows[n].status, o) {
        done := done[RowKey(rows[n]) := rows[n].status];
      }
    }
    assert rows[..|rows|] == rows;
  }

  lemma DoneSnoc(rows: seq<Row>, o: Options, row: Row)
    ensures forall key ::
      Done(rows + [row], o, key) <==> Done(rows, o, key) || (key == RowKey(row) && Skips(row.status, o))
  {
    DoneAppend(rows, [row], o);
    forall key
      ensures Done([row], o, key) <==> key == RowKey(row) && Skips(row.status, o)
    {
      if key == RowKey(row) && Skips(row.status, o) {
        assert RowKey([row][0]) == key;
      }
    }
  }

  /** Appending rows never removes a key, and adds exactly the keys of the new rows. */
  lemma DoneAppend(rows: seq<Row>, more: seq<Row>, o: Options)
    ensures forall key :: Done(rows + more, o, key) <==> Done(rows, o, key) || Done(more, o, key)
  {
    var all := rows + more;
    forall key
      ensures Done(all, o, key) <==> Done(rows, o, key) || Done(more, o, key)
    {
      if Done(all, o, key) {
        var i :| 0 <= i < |all| && RowKey(all[i]) == key && Skips(all[i].status, o);
        assert if i < |rows| then all[i] == rows[i] else all[i] == more[i - |rows|];
      }
      if Done(rows, o, key) {
        var i :| 0 <= i < |rows| && RowKey(rows[i]) == key && Skips(rows[i].status, o);
        assert all[i] == rows[i];
      }
      if Done(more, o, key) {
        var i :| 0 <= i < |more| && RowKey(more[i]) == key && Skips(more[i].status, o);
        assert all[|rows| + i] == more[i];
      }
    }
  }

  /** Which keys are done does not depend on the order of the rows. */
  lemma DoneOrderFree(rows: seq<Row>, rows': seq<Row>, o: Options, key: Key)
    requires multiset(rows) == multiset(rows')
    ensures Done(rows, o, key) <==> Done(rows', o, key)
  {
    forall a: seq<Row>, b: seq<Row> | multiset(a) == multiset(b) && Done(a, o, key)
      ensures Done(b, o, key)
    {
      var i :| 0 <= i < |a| && RowKey(a[i]) == key && Skips(a[i].status, o);
      assert a[i] in multiset(b);
    }
  }

  // ----- what a resumed run skips -----

  ghost predicate Skipped(rows: seq<Row>, o: Options, c: Candidate) {
    Done(rows, o, CandidateKey(c))
  }

  /** Some skippable row agrees with c on everything but paced, and holds `text` there. */
  ghost predicate FinishedAs(rows: seq<Row>, o: Options, c: Candidate, text: string) {
    exists i :: 0 <= i < |rows| && Skips(rows[i].status, o) && rows[i].paced == text
      && rows[i].stage == c.stage && rows[i].tokens == c.tokens && rows[i].knobs == c.knobs
      && rows[i].closure == c.closure
  }

  /** The ledger as the sweep writes it: the paced column holds "true" or "false". */
  ghost predicate WrittenBySweep(rows: seq<Row>) {
    forall i :: 0 <= i < |rows| ==> exists b: bool :: rows[i].paced == Lower(b)
  }

  /** What the resume key is meant to do: skip c iff a finished row has all of its fields. */
  ghost predicate Finished(rows: seq<Row>, o: Options, c: Candidate) {
    FinishedAs(rows, o, c, Lower(c.paced))
  }

  /** What it does: an unpaced candidate is never skipped, and a paced one is skipped as soon
      as its paced or its unpaced twin has finished. */
  lemma SkippedExactly(rows: seq<Row>, o: Options, c: Candidate)
    requires WrittenBySweep(rows)
    ensures Skipped(rows, o, c) <==> c.paced && (FinishedAs(rows, o, c, "true") || FinishedAs(rows, o, c, "false"))
  {
    if Skipped(rows, o, c) {
      var i :| 0 <= i < |rows| && RowKey(rows[i]) == CandidateKey(c) && Skips(rows[i].status, o);
      var b: bool :| rows[i].paced == Lower(b);
      assert FinishedAs(rows, o, c, Lower(b));
    }
    if c.paced && (FinishedAs(rows, o, c, "true") || FinishedAs(rows, o, c, "false")) {
      var text := if FinishedAs(rows, o, c, "true") then "true" else "false";
      var i :| 0 <= i < |rows| && Skips(rows[i].status, o) && rows[i].paced == text
        && rows[i].stage == c.stage && rows[i].tokens == c.tokens && rows[i].knobs == c.knobs
        && rows[i].closure == c.closure;
      assert RowKey(rows[i]) == CandidateKey(c);
    }
  }

  /** The key as written does what it is meant to do exactly when no finished unpaced row
      carries the candidate's other fields, or the candidate is paced and finished itself. */
  lemma ResumeRightIff(rows: seq<Row>, o: Options, c: Candidate)
    requires WrittenBySweep(rows)
    ensures (Skipped(rows, o, c) <==> Finished(rows, o, c)) <==>
      (!FinishedAs(rows, o, c, "false") || (c.paced && FinishedAs(rows, o, c, "true")))
  {
    SkippedExactly(rows, o, c);
  }

  /** A finished paced candidate never reruns. */
  lemma PacedNeverReruns(rows: seq<Row>, more: seq<Row>, o: Options, c: Candidate, i: nat)
    requires c.paced && i < |rows| && Skips(rows[i].status, o)
    requires rows[i].stage == c.stage && rows[i].tokens == c.tokens
    requires rows[i].knobs == c.knobs && rows[i].closure == c.closure
    requires rows[i].paced == Lower(c.paced)
    ensures Skipped(rows + more, o, c)
  {
    assert RowKey(rows[i]) == CandidateKey(c);
    DoneAppend(rows, more, o);
  }

  /** With the paced column parsed, every finished candidate is skipped, paced or not, and
      only finished ones are. */
  lemma ParsedKeyResumes(rows: seq<Row>, o: Options, c: Candidate)
    requires WrittenBySweep(rows)
    ensures (exists i :: 0 <= i < |rows| && ParsedKey(rows[i]) == CandidateKey(c) && Skips(rows[i].status, o))
      <==> Finished(rows, o, c)
  {
    if i :| 0 <= i < |rows| && ParsedKey(rows[i]) == CandidateKey(c) && Skips(rows[i].status, o) {
      var b: bool :| rows[i].paced == Lower(b);
      assert rows[i].paced == Lower(c.paced);
    }
    if Finished(rows, o, c) {
      var i :| 0 <= i < |rows| && Skips(rows[i].status, o) && rows[i].paced == Lower(c.paced)
        && rows[i].stage == c.stage && rows[i].tokens == c.tokens && rows[i].knobs == c.knobs
        && rows[i].closure == c.closure;
      assert ParsedKey(rows[i]) == CandidateKey(c);
    }
  }

  /** A finished unpaced candidate that reruns, and an unfinished paced one that is skipped. */
  lemma UnpacedRerunsExample(o: Options)
    ensures var row := Row("s3-f0-m64-u-r1", "3", 64, "{}", "view", "false", OK, None, "");
      var unpaced := Candidate("s3-f0-m64-u-r1", "3", 64, "{}", "view", false, false);
      var paced := Candidate("s3-f0-m64-p-r1", "3", 64, "{}", "view", true, false);
      && Finished([row], o, unpaced) && !Skipped([row], o, unpaced)
      && !Finished([row], o, paced) && Skipped([row], o, paced)
  {
    var row := Row("s3-f0-m64-u-r1", "3", 64, "{}", "view", "false", OK, None, "");
    var unpaced := Candidate("s3-f0-m64-u-r1", "3", 64, "{}", "view", false, false);
    var paced := Candidate("s3-f0-m64-p-r1", "3", 64, "{}", "view", true, false);
    assert [row][0].paced == Lower(false) && Lower(false) != Lower(true);
    assert RowKey([row][0]) == CandidateKey(paced);
  }

  /** bitexact reads "true" only when both the copied output and the view matched; it is blank
      only when neither was compared. */
  lemma BitexactText(jr: JsonRow)
    ensures JsonToRow(jr).bitexact == "true" <==> jr.bitCopy == Some(true) && jr.bitView == Some(true)
    ensures JsonToRow(jr).bitexact == "" <==> jr.bitCopy.None? && jr.bitView.None?
  {
    assert "true" != "" && "false" != "" && "true" != "false";
  }
}
