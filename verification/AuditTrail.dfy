/** The rows that an execution leaves in the audit file. */
module AuditTrail {
  import opened Wrappers
  import opened Histories
  import opened Protocol
  import opened WriteGuarantees
  import opened WriteCauses
  import opened WriteOutcomes
  import opened WriterMoves
  import opened AuditFile

  function Appends(d: History): nat {
    if d == [] then 0 else Appends(d[..|d| - 1]) + if d[|d| - 1].call.Append? then 1 else 0
  }

  /** The text that a history's appends add to the file, the first being the file's `n`-th. */
  function Recorded(render: (nat, Row) -> string, n: nat, d: History): string {
    if d == [] then ""
    else
      var before, last := d[..|d| - 1], d[|d| - 1];
      Recorded(render, n, before) + if last.call.Append? then render(n + Appends(before), last.call.row) + "\n" else ""
  }

  ghost predicate AllAppended(d: History) {
    forall i :: 0 <= i < |d| && d[i].call.Append? ==> d[i].answer == Appended(true)
  }

  lemma RecordedStep(render: (nat, Row) -> string, n: nat, d: History, e: Event<Call, Answer>)
    ensures Appends(d + [e]) == Appends(d) + if e.call.Append? then 1 else 0
    ensures Recorded(render, n, d + [e])
            == Recorded(render, n, d) + if e.call.Append? then render(n + Appends(d), e.call.row) + "\n" else ""
    ensures AllAppended(d + [e]) <==> AllAppended(d) && (e.call.Append? ==> e.answer == Appended(true))
  {
    assert (d + [e])[..|d|] == d;
    if AllAppended(d + [e]) {
      assert (d + [e])[|d|] == e;
      forall i | 0 <= i < |d| && d[i].call.Append? ensures d[i].answer == Appended(true) {
        assert (d + [e])[i] == d[i];
      }
    }
  }

  // ---- Success means a complete trail -----------------------------------------

  /** Once an append has failed the run is over and unsuccessful. */
  ghost predicate Lapsed(d: History, m: Run) {
    AllAppended(d) || (Place(m.pc) >= 36 && !m.report.ok)
  }

  lemma OnlyThreeAppends(s: Setup, q: Request, m: Run)
    ensures Next(s, q, m).Some? && Next(s, q, m).value.Append? ==> m.pc.Begin? || m.pc.CleanAppend? || m.pc.Close?
  {
    hide Expected, PayloadHash;
  }

  lemma LateStep(s: Setup, q: Request, m: Run, a: Answer)
    requires Next(s, q, m).Some? && Place(m.pc) >= 36 && !m.report.ok
    ensures var n := Observe(s, q, m, a); Place(n.pc) >= 36 && !n.report.ok
  {
    hide Observe, PayloadHash;
    AfterClose(s, q, m, a);
  }

  lemma FailedAppend(s: Setup, q: Request, m: Run, a: Answer)
    requires Consistent(s, q, m) && Next(s, q, m).Some? && Next(s, q, m).value.Append? && a != Appended(true)
    ensures var n := Observe(s, q, m, a); Place(n.pc) >= 36 && !n.report.ok
  {
    hide Observe, PayloadHash, Next, Expected;
    OnlyThreeAppends(s, q, m);
    if m.pc.Close? {
      AfterClose(s, q, m, a);
    } else if m.pc.Begin? {
      AfterBegin(s, q, m, a);
    } else {
      AfterCleanWrites(s, q, m, a);
    }
  }

  lemma LapsedStep(s: Setup, q: Request, d: History, m: Run, e: Event<Call, Answer>)
    requires Consistent(s, q, m) && Lapsed(d, m) && Next(s, q, m) == Some(e.call)
    ensures Lapsed(d + [e], Observe(s, q, m, e.answer))
  {
    hide Observe, Next, Consistent, AllAppended;
    RecordedStep((n: nat, row) => "", 0, d, e);
    if !AllAppended(d) {
      LateStep(s, q, m, e.answer);
    } else if e.call.Append? && e.answer != Appended(true) {
      FailedAppend(s, q, m, e.answer);
    }
  }

  /** A run that reports success persisted every row. */
  lemma {:induction false} OkMeansAllAppended(s: Setup, q: Request, d: History)
    requires Legal(Execution(s, q), d)
    ensures Lapsed(d, Replay(Execution(s, q), d))
  {
    hide Observe, Next, Consistent, Lapsed;
    if d != [] {
      var before, last := d[..|d| - 1], d[|d| - 1];
      Last(Execution(s, q), d);
      OkMeansAllAppended(s, q, before);
      AlwaysConsistent(s, q, before);
      LapsedStep(s, q, before, Replay(Execution(s, q), before), last);
      assert d == before + [last];
    } else {
      NothingLapsed(q);
    }
  }

  lemma NothingLapsed(q: Request)
    ensures Lapsed([], Start(q))
  {
  }

  // ---- Reading the rows back --------------------------------------------------

  /** The rows of a history as lines, the first being the file's `n`-th append. */
  function RowTexts(render: (nat, Row) -> string, n: nat, d: History): seq<string> {
    if d == [] then []
    else
      var before, last := d[..|d| - 1], d[|d| - 1];
      RowTexts(render, n, before) + if last.call.Append? then [render(n + Appends(before), last.call.row)] else []
  }

  ghost predicate OneLine(render: (nat, Row) -> string) {
    forall n: nat, row :: '\n' !in render(n, row)
  }

  lemma {:induction false} RecordedIsReadable(render: (nat, Row) -> string, n: nat, d: History, data: string)
    requires OneLine(render) && Tail(data) == ""
    ensures Lines(data + Recorded(render, n, d)) == Lines(data) + RowTexts(render, n, d)
    ensures Tail(data + Recorded(render, n, d)) == ""
  {
    hide Lines, Tail;
    if d == [] {
      assert data + "" == data;
    } else {
      var before, last := d[..|d| - 1], d[|d| - 1];
      var so := data + Recorded(render, n, before);
      RecordedIsReadable(render, n, before, data);
      if last.call.Append? {
        var line := render(n + Appends(before), last.call.row);
        AppendedLine(so, line);
        assert Tail(so) + line == line;
        var earlier, added := Recorded(render, n, before), line + "\n";
        assert data + (earlier + added) == (data + earlier) + added;
        assert so + added == so + line + "\n";
      } else {
        assert Recorded(render, n, d) == Recorded(render, n, before);
      }
    }
  }

  /** The last call of a finished run is its final row. */
  lemma EndsWithFinalRow(s: Setup, q: Request, d: History)
    requires Complete(Execution(s, q), d) && Replay(Execution(s, q), d).report.ok
    ensures |d| > 1 && d[0].call == Append(Row(false, q.uuid, Started, PayloadHash(s, q)))
    ensures d[|d| - 1].call == Append(Row(false, Replay(Execution(s, q), d).uuid, Ok, PayloadHash(s, q)))
  {
    hide Observe, Next, PayloadHash, Consistent;
    OutcomeIsInTheLog(s, q, d);
    AlwaysGuarded(s, q, d);
  }

  lemma {:induction false} FirstRow(render: (nat, Row) -> string, n: nat, d: History)
    requires d != [] && d[0].call.Append?
    ensures RowTexts(render, n, d) != [] && RowTexts(render, n, d)[0] == render(n, d[0].call.row)
  {
    if |d| == 1 {
      assert d[..0] == [];
    } else {
      FirstRow(render, n, d[..|d| - 1]);
    }
  }

  /**
   Durable evidence: a run that reports success adds exactly its own rows to an untorn file, each on a line
   of its own, the first its "started" row and the last its "ok" row.
   */
  lemma SuccessIsDurable(s: Setup, q: Request, d: History, render: (nat, Row) -> string, n: nat, data: string)
    returns (mine: seq<string>)
    requires Complete(Execution(s, q), d) && Replay(Execution(s, q), d).report.ok
    requires OneLine(render) && Tail(data) == ""
    ensures AllAppended(d)
    ensures Lines(data + Recorded(render, n, d)) == Lines(data) + mine && |mine| == Appends(d) >= 2
    ensures mine[0] == render(n, Row(false, q.uuid, Started, PayloadHash(s, q)))
    ensures mine[|mine| - 1]
            == render(n + |mine| - 1, Row(false, Replay(Execution(s, q), d).uuid, Ok, PayloadHash(s, q)))
  {
    hide Consistent, PayloadHash, Observe, Next, Expected;
    OkMeansAllAppended(s, q, d);
    EndsWithFinalRow(s, q, d);
    RecordedIsReadable(render, n, d, data);
    mine := RowTexts(render, n, d);
    var before := d[..|d| - 1];
    FirstRow(render, n, d);
    RowCount(render, n, d);
    FirstRow(render, n, before);
    RowCount(render, n, before);
  }

  lemma {:induction false} RowCount(render: (nat, Row) -> string, n: nat, d: History)
    ensures |RowTexts(render, n, d)| == Appends(d)
  {
    if d != [] {
      RowCount(render, n, d[..|d| - 1]);
    }
  }

}
