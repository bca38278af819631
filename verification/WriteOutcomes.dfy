/** When the verified write protocol succeeds, and how its outcome shows in the audit rows. */
module WriteOutcomes {
  import opened Wrappers
  import opened Histories
  import opened Protocol
  import opened WriteGuarantees
  import opened WriteCauses
  import opened WriterMoves

  // ---- Success is reported when nothing goes wrong ----------------------------

  /** What an answer was taken for. */
  function SignalAt(s: Setup, q: Request, d: History, i: nat): Signal
    requires i < |d|
  {
    Decode(s, q, Replay(Execution(s, q), d[..i]), d[i].answer)
  }

  /** Signals that are not poor are the expected ones. */
  predicate Definite(m: Run, g: Signal) {
    match m.pc
    case PlanFirst => g.Planned?
    case Write => g.Good? || g.Created?
    case LocalIds => g.Good? || g.Other?
    case UndoRead => g.Good? || g.Other?
    case _ => g.Good?
  }

  lemma DecodesDefinitely(s: Setup, q: Request, m: Run, a: Answer)
    ensures Decode(s, q, m, a).Poor? || Definite(m, Decode(s, q, m, a))
  {
    hide HashIs, IdsAre, SamePlan, VerifyRead, PlanRead, PostProblem, ValidUuid, Expected;
  }

  /** On the way to success. */
  predicate Healthy(m: Run) {
    !m.undoing && m.report.error.NoError? && (Place(m.pc) <= 11 || (Place(m.pc) >= 36 && m.report.ok))
  }

  lemma OpeningStaysHealthy(s: Setup, q: Request, m: Run, g: Signal)
    requires Healthy(m) && !g.Poor? && Definite(m, g) && Place(m.pc) <= 5
    ensures Healthy(OpeningMove(s, q, m, g))
  {
  }

  lemma WriteStaysHealthy(s: Setup, q: Request, m: Run, g: Signal)
    requires Healthy(m) && !g.Poor? && Definite(m, g) && 6 <= Place(m.pc) <= 8
    ensures Healthy(WriteMove(s, q, m, g))
  {
  }

  lemma SyncStaysHealthy(s: Setup, q: Request, m: Run, g: Signal)
    requires Healthy(m) && !g.Poor? && Definite(m, g) && 9 <= Place(m.pc) <= 11
    ensures Healthy(SyncMove(s, q, m, g))
  {
    hide Expected;
  }

  lemma StaysHealthy(s: Setup, q: Request, m: Run, a: Answer)
    requires Healthy(m) && !Decode(s, q, m, a).Poor?
    ensures Healthy(Observe(s, q, m, a))
  {
    hide Decode, Healthy, Definite;
    var g := Decode(s, q, m, a);
    DecodesDefinitely(s, q, m, a);
    HealthyPlaces(m);
    if Place(m.pc) <= 5 {
      OpeningStaysHealthy(s, q, m, g);
    } else if Place(m.pc) <= 8 {
      WriteStaysHealthy(s, q, m, g);
    } else if Place(m.pc) <= 11 {
      SyncStaysHealthy(s, q, m, g);
    } else {
      CloseStaysHealthy(s, q, m, g);
    }
  }

  lemma HealthyPlaces(m: Run)
    ensures Healthy(m) ==> Place(m.pc) <= 11 || Place(m.pc) >= 36
  {
  }

  lemma CloseStaysHealthy(s: Setup, q: Request, m: Run, g: Signal)
    requires Healthy(m) && Definite(m, g) && Place(m.pc) >= 36
    ensures Healthy(CloseMove(s, q, m, g))
  {
  }

  lemma {:induction false} GoodHistoryIsHealthy(s: Setup, q: Request, d: History)
    requires Legal(Execution(s, q), d) && forall i :: 0 <= i < |d| ==> !SignalAt(s, q, d, i).Poor?
    ensures Healthy(Replay(Execution(s, q), d))
  {
    hide Decode, Healthy, Observe, Next;
    if d == [] {
      StartIsHealthy(q);
    } else {
      var before := d[..|d| - 1];
      forall i | 0 <= i < |before| ensures !SignalAt(s, q, before, i).Poor? {
        assert before[..i] == d[..i] && SignalAt(s, q, before, i) == SignalAt(s, q, d, i);
      }
      Last(Execution(s, q), d);
      GoodHistoryIsHealthy(s, q, before);
      assert !SignalAt(s, q, d, |d| - 1).Poor?;
      StaysHealthy(s, q, Replay(Execution(s, q), before), d[|d| - 1].answer);
    }
  }

  lemma StartIsHealthy(q: Request)
    ensures Healthy(Start(q))
  {
  }

  lemma HealthyEndIsOk(s: Setup, q: Request, m: Run)
    requires Healthy(m) && Next(s, q, m).None?
    ensures m.report.ok
  {
    DueMeansUnfinished(s, q, m);
    hide Next;
  }

  /** A finished run that was not successful had a reason: some call failed or showed something else. */
  lemma FailureHasACause(s: Setup, q: Request, d: History) returns (i: nat)
    requires Complete(Execution(s, q), d)
    ensures Replay(Execution(s, q), d).report.ok || (i < |d| && SignalAt(s, q, d, i).Poor?)
  {
    hide Decode, Observe, Next, Replay, Legal, SignalAt, Healthy;
    i := 0;
    if forall k :: 0 <= k < |d| ==> !SignalAt(s, q, d, k).Poor? {
      GoodHistoryIsHealthy(s, q, d);
      HealthyEndIsOk(s, q, Replay(Execution(s, q), d));
    } else {
      i :| 0 <= i < |d| && SignalAt(s, q, d, i).Poor?;
    }
  }

  // ---- The log tells the outcome ------------------------------------------------

  /** The final row. */
  function FinalRow(s: Setup, q: Request, uuid: string, result: RowResult): Call {
    Append(Row(false, uuid, result, PayloadHash(s, q)))
  }

  /**
   The last call of a finished run is its final row: success is reported exactly if an "ok" row was
   persisted there, and the row is attached exactly if it was persisted.
   */
  lemma OutcomeIsInTheLog(s: Setup, q: Request, d: History)
    requires Complete(Execution(s, q), d)
    ensures |d| > 1
    ensures var m, last := Replay(Execution(s, q), d), d[|d| - 1];
            && (m.report.ok <==> last == Event(FinalRow(s, q, m.uuid, Ok), Appended(true)))
            && (last.call == FinalRow(s, q, m.uuid, Ok) || last.call == FinalRow(s, q, m.uuid, Error))
            && (m.report.audited <==> last.answer == Appended(true))
            && (m.report.error.AuditError? <==> last.answer != Appended(true))
  {
    hide Move, Decode, PayloadHash, Observe, Next;
    var x, k := Execution(s, q), |d| - 1;
    DueMeansUnfinished(s, q, Replay(x, d));
    assert d != [];
    assert d[..k + 1] == d;
    StepAt(s, q, d, k);
    DueMeansUnfinished(s, q, Replay(x, d[..k]));
    Step(x, d, k);
    AfterClose(s, q, Replay(x, d[..k]), d[k].answer);
    NoAuditErrorBefore(s, q, d, k);
    assert k > 0 by {
      assert d[..0] == [];
    }
  }

  lemma {:induction false} NoAuditErrorBefore(s: Setup, q: Request, d: History, k: nat)
    requires Legal(Execution(s, q), d) && k <= |d| && Replay(Execution(s, q), d[..k]).pc != Finished
    ensures !Replay(Execution(s, q), d[..k]).report.error.AuditError?
  {
    hide Move, Decode, Observe, Next;
    if k == 0 {
      assert d[..0] == [];
    } else {
      StepAt(s, q, d, k - 1);
      var m := Replay(Execution(s, q), d[..k - 1]);
      DueMeansUnfinished(s, q, m);
      NoAuditErrorBefore(s, q, d, k - 1);
      if m.pc.Close? {
        Step(Execution(s, q), d, k - 1);
        AfterClose(s, q, m, d[k - 1].answer);
      }
    }
  }

}
