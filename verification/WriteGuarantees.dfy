/** What every history of the verified write protocol guarantees, whatever the calls answered. */
module WriteGuarantees {
  import opened Wrappers
  import opened Protocol
  import opened Histories

  // ---- Progress -------------------------------------------------------------

  /** Position of a program counter; a rollback's synchronisation comes after the main one. */
  function Place(pc: Pc): nat {
    match pc
    case Begin => 0
    case PlanFirst => 1
    case ReadCurrent => 2
    case LocalIds => 3
    case PeerObject => 4
    case PeerIds => 5
    case Write => 6
    case ApplyWrite => 7
    case Readback => 8
    case SyncPlan => 9
    case SyncRestart => 10
    case SyncRead(_) => 11
    case CleanPlan => 12
    case CleanLocalIds => 13
    case CleanPeerIds => 14
    case CleanPeerObject => 15
    case CleanAppend => 16
    case CleanDelete => 17
    case CleanApply => 18
    case CleanReadLocal => 19
    case CleanReadPeer => 20
    case UndoDelete => 21
    case UndoApply => 22
    case UndoRead => 23
    case Close => 36
    case Finished => 37
  }

  function Phase(m: Run): nat {
    var place := Place(m.pc);
    if m.undoing && 9 <= place <= 20 then place + 15 else place
  }

  predicate Later(m: Run, n: Run) {
    Phase(m) < Phase(n) || (Phase(m) == Phase(n) && m.pc.SyncRead? && n.pc.SyncRead? && m.pc.attempt < n.pc.attempt)
  }

  ghost predicate Ordered(m: Run, n: Run) {
    Later(m, n) && (Phase(m) >= 9 ==> n.undoing == m.undoing)
  }

  // ---- State invariants -----------------------------------------------------

  /** What the state of a run says about itself. */
  ghost predicate Consistent(s: Setup, q: Request, m: Run) {
    && (!q.action.Create? || !m.accepted ==> m.uuid == q.uuid)
    && (m.accepted ==> Phase(m) >= 7)
    && (7 <= Phase(m) <= 35 ==> m.accepted)
    && (Phase(m) < 36 ==> m.report.error.NoError? || m.undoing)
    && (Phase(m) <= 20 ==> !m.undoing && !m.report.ok)
    && (21 <= Phase(m) <= 35 ==> m.undoing && !m.report.ok)
    && (m.undoing ==> q.action.Create? && !m.report.ok && m.report.rollback.attempted)
    && (!m.undoing ==> m.report.rollback == NO_ROLLBACK)
    && (m.peerRevision.Some? ==> m.peerRevision == Some(q.revision))
    && (m.peerRevision.Some? ==> q.action.Delete? && s.resource.PortForward? && ExplicitPair(s))
    && (12 <= Phase(m) <= 20 ==> m.peerRevision.Some? && Expected(s, q).None?)
    && !(27 <= Phase(m) <= 35)
    && (24 <= Phase(m) <= 35 || 9 <= Phase(m) <= 20 ==> s.hasPeer && !m.sync.verified)
    && (m.report.ok ==> m.accepted && m.report.applied && m.report.verified)
    && (m.report.verified ==> m.report.applied)
    && (m.report.applied ==> m.accepted)
    && (3 <= Phase(m) <= 5 ==> q.action.Delete? && s.resource.PortForward? && ExplicitPair(s))
    && (8 <= Phase(m) <= 20 ==> m.report.applied)
    && (9 <= Phase(m) <= 20 ==> m.report.verified)
    && (m.report.audited ==> m.pc.Finished?)
    && (m.report.error in {ConflictError, UnsafeError} ==> !m.accepted)
  }

  /** The problems that a call can raise where it is made. */
  predicate Plausible(q: Request, m: Run, g: Signal) {
    && (7 <= Place(m.pc) && g.Poor? ==> g.problem.Faulty? || g.problem.Rejected? || Place(m.pc) >= 9)
    && (m.pc.Write? && g.Poor? ==> g.problem.Faulty? || g.problem.Rejected?)
    && (m.pc.Write? && g.Good? ==> !q.action.Create?)
    && (g.Created? ==> m.pc.Write? && q.action.Create?)
    && (m.pc.Readback? && g.Poor? ==> g.problem.Faulty?)
  }

  lemma DecodesPlausibly(s: Setup, q: Request, m: Run, a: Answer)
    ensures Plausible(q, m, Decode(s, q, m, a))
  {
  }

  lemma ConsistentOpening(s: Setup, q: Request, m: Run, g: Signal)
    requires Consistent(s, q, m) && Plausible(q, m, g) && Place(m.pc) <= 1
    ensures Consistent(s, q, OpeningMove(s, q, m, g)) && Ordered(m, OpeningMove(s, q, m, g))
  {
    hide Expected;
  }

  lemma ConsistentCurrent(s: Setup, q: Request, m: Run, g: Signal)
    requires Consistent(s, q, m) && Plausible(q, m, g) && m.pc.ReadCurrent?
    ensures Consistent(s, q, OpeningMove(s, q, m, g)) && Ordered(m, OpeningMove(s, q, m, g))
  {
    hide Expected;
  }

  lemma ConsistentQualifying(s: Setup, q: Request, m: Run, g: Signal)
    requires Consistent(s, q, m) && Plausible(q, m, g) && 3 <= Place(m.pc) <= 4
    ensures Consistent(s, q, OpeningMove(s, q, m, g)) && Ordered(m, OpeningMove(s, q, m, g))
  {
    hide Expected;
  }

  lemma ConsistentQualified(s: Setup, q: Request, m: Run, g: Signal)
    requires Consistent(s, q, m) && Plausible(q, m, g) && m.pc.PeerIds?
    ensures Consistent(s, q, OpeningMove(s, q, m, g)) && Ordered(m, OpeningMove(s, q, m, g))
  {
    hide Expected;
  }

  lemma ConsistentWrite(s: Setup, q: Request, m: Run, g: Signal)
    requires Consistent(s, q, m) && Plausible(q, m, g) && m.pc.Write?
    ensures Consistent(s, q, WriteMove(s, q, m, g)) && Ordered(m, WriteMove(s, q, m, g))
  {
    hide Expected;
  }

  lemma ConsistentApply(s: Setup, q: Request, m: Run, g: Signal)
    requires Consistent(s, q, m) && Plausible(q, m, g) && m.pc.ApplyWrite?
    ensures Consistent(s, q, WriteMove(s, q, m, g)) && Ordered(m, WriteMove(s, q, m, g))
  {
    hide Expected;
  }

  lemma ConsistentReadback(s: Setup, q: Request, m: Run, g: Signal)
    requires Consistent(s, q, m) && Plausible(q, m, g) && m.pc.Readback?
    ensures Consistent(s, q, WriteMove(s, q, m, g)) && Ordered(m, WriteMove(s, q, m, g))
  {
    hide Expected;
  }

  lemma ConsistentPush(s: Setup, q: Request, m: Run, g: Signal)
    requires Consistent(s, q, m) && Plausible(q, m, g) && 9 <= Place(m.pc) <= 10
    ensures Consistent(s, q, SyncMove(s, q, m, g)) && Ordered(m, SyncMove(s, q, m, g))
  {
    hide Expected;
  }

  lemma ConsistentRead(s: Setup, q: Request, m: Run, g: Signal)
    requires Consistent(s, q, m) && Plausible(q, m, g) && m.pc.SyncRead?
    ensures Consistent(s, q, SyncMove(s, q, m, g)) && Ordered(m, SyncMove(s, q, m, g))
  {
    hide Expected;
  }

  lemma ConsistentClean(s: Setup, q: Request, m: Run, g: Signal)
    requires Consistent(s, q, m) && Plausible(q, m, g) && 12 <= Place(m.pc) <= 16
    ensures Consistent(s, q, CleanMove(s, q, m, g)) && Ordered(m, CleanMove(s, q, m, g))
  {
    hide Expected;
  }

  lemma ConsistentCleaning(s: Setup, q: Request, m: Run, g: Signal)
    requires Consistent(s, q, m) && Plausible(q, m, g) && 17 <= Place(m.pc) <= 18
    ensures Consistent(s, q, CleanMove(s, q, m, g)) && Ordered(m, CleanMove(s, q, m, g))
  {
    hide Expected;
  }

  lemma ConsistentCleaned(s: Setup, q: Request, m: Run, g: Signal)
    requires Consistent(s, q, m) && Plausible(q, m, g) && 19 <= Place(m.pc) <= 20
    ensures Consistent(s, q, CleanMove(s, q, m, g)) && Ordered(m, CleanMove(s, q, m, g))
  {
    hide Expected;
  }

  lemma ConsistentUndo(s: Setup, q: Request, m: Run, g: Signal)
    requires Consistent(s, q, m) && Plausible(q, m, g) && 21 <= Place(m.pc) <= 22
    ensures Consistent(s, q, UndoMove(s, q, m, g)) && Ordered(m, UndoMove(s, q, m, g))
  {
    hide Expected;
  }

  lemma ConsistentUndone(s: Setup, q: Request, m: Run, g: Signal)
    requires Consistent(s, q, m) && Plausible(q, m, g) && m.pc.UndoRead?
    ensures Consistent(s, q, UndoMove(s, q, m, g)) && Ordered(m, UndoMove(s, q, m, g))
  {
    hide Expected;
  }

  lemma ConsistentClose(s: Setup, q: Request, m: Run, g: Signal)
    requires Consistent(s, q, m) && Plausible(q, m, g) && m.pc.Close?
    ensures Consistent(s, q, CloseMove(s, q, m, g)) && Ordered(m, CloseMove(s, q, m, g))
  {
    hide Expected;
  }

  /** Every answer keeps the state consistent and moves it forward; past readback no rollback can start. */
  lemma MoveStep(s: Setup, q: Request, m: Run, g: Signal)
    requires Consistent(s, q, m) && Plausible(q, m, g) && !m.pc.Finished?
    ensures Consistent(s, q, Move(s, q, m, g)) && Ordered(m, Move(s, q, m, g))
  {
    match m.pc
    case Begin | PlanFirst => ConsistentOpening(s, q, m, g);
    case ReadCurrent => ConsistentCurrent(s, q, m, g);
    case LocalIds | PeerObject => ConsistentQualifying(s, q, m, g);
    case PeerIds => ConsistentQualified(s, q, m, g);
    case Write => ConsistentWrite(s, q, m, g);
    case ApplyWrite => ConsistentApply(s, q, m, g);
    case Readback => ConsistentReadback(s, q, m, g);
    case SyncPlan | SyncRestart => ConsistentPush(s, q, m, g);
    case SyncRead(_) => ConsistentRead(s, q, m, g);
    case CleanPlan | CleanLocalIds | CleanPeerIds | CleanPeerObject | CleanAppend => ConsistentClean(s, q, m, g);
    case CleanDelete | CleanApply => ConsistentCleaning(s, q, m, g);
    case CleanReadLocal | CleanReadPeer => ConsistentCleaned(s, q, m, g);
    case UndoDelete | UndoApply => ConsistentUndo(s, q, m, g);
    case UndoRead => ConsistentUndone(s, q, m, g);
    case Close => ConsistentClose(s, q, m, g);
  }

  lemma DueMeansUnfinished(s: Setup, q: Request, m: Run)
    ensures Next(s, q, m).Some? <==> !m.pc.Finished?
  {
  }

  lemma ObserveStep(s: Setup, q: Request, m: Run, a: Answer)
    requires Consistent(s, q, m) && !m.pc.Finished?
    ensures Consistent(s, q, Observe(s, q, m, a)) && Ordered(m, Observe(s, q, m, a))
  {
    DecodesPlausibly(s, q, m, a);
    MoveStep(s, q, m, Decode(s, q, m, a));
  }

  lemma AlwaysConsistent(s: Setup, q: Request, d: History)
    requires Legal(Execution(s, q), d)
    ensures Consistent(s, q, Replay(Execution(s, q), d))
  {
    var x := Execution(s, q);
    var inv := (h: History, m: Run) => Consistent(s, q, m);
    StartIsConsistent(s, q);
    forall h, m, e: Event<Call, Answer> | inv(h, m) && x.next(m) == Some(e.call)
      ensures inv(h + [e], x.observe(m, e.answer)) {
      ObserveStep(s, q, m, e.answer);
    }
    Invariant(x, d, inv);
  }

  lemma StartIsConsistent(s: Setup, q: Request)
    ensures Consistent(s, q, Start(q))
  {
  }

  // ---- At most one of each POST ---------------------------------------------

  lemma NeighboursOrdered(s: Setup, q: Request, d: History, k: nat)
    requires Legal(Execution(s, q), d) && k < |d|
    ensures Ordered(Replay(Execution(s, q), d[..k]), Replay(Execution(s, q), d[..k + 1]))
  {
    hide Observe, Consistent, Ordered, VerifyCall, Next, Legal;
    DueMeansUnfinished(s, q, Replay(Execution(s, q), d[..k]));
    Step(Execution(s, q), d, k);
    AlwaysConsistent(s, q, d[..k]);
    ObserveStep(s, q, Replay(Execution(s, q), d[..k]), d[k].answer);
  }

  lemma OrderedAlong(s: Setup, q: Request, d: History, i: nat, j: nat)
    requires Legal(Execution(s, q), d) && i < j <= |d|
    ensures Ordered(Replay(Execution(s, q), d[..i]), Replay(Execution(s, q), d[..j]))
  {
    forall k | 0 <= k < |d| ensures Ordered(Replay(Execution(s, q), d[..k]), Replay(Execution(s, q), d[..k + 1])) {
      NeighboursOrdered(s, q, d, k);
    }
    Along(Execution(s, q), d, i, j, Ordered);
  }

  /** The call that each purpose stands for. */
  ghost predicate PostShape(q: Request, call: Call)
    requires call.Post?
  {
    match call.purpose
    case MainWrite => call.node == Local && call.verb == MainVerb(q.action) && call.uuid == q.uuid
    case MainApply | RollbackApply => call.node == Local && call.verb == Apply
    case SyncPush => call.node == Local && call.verb == Restart
    case RollbackDelete => call.node == Local && call.verb == Del && q.action.Create?
    case PeerDelete => call.node == Peer && call.verb == Del && call.uuid == q.uuid && q.action.Delete?
    case PeerApply => call.node == Peer && call.verb == Apply
  }

  function PurposePlace(p: Purpose): nat {
    match p
    case MainWrite => 6
    case MainApply => 7
    case SyncPush => 10
    case PeerDelete => 17
    case PeerApply => 18
    case RollbackDelete => 21
    case RollbackApply => 22
  }

  lemma PostPlace(s: Setup, q: Request, m: Run, call: Call)
    requires Next(s, q, m) == Some(call) && call.Post?
    ensures Place(m.pc) == PurposePlace(call.purpose)
    ensures Consistent(s, q, m) ==> PostShape(q, call)
  {
  }

  lemma PurposeAt(s: Setup, q: Request, d: History, i: nat)
    requires Legal(Execution(s, q), d) && i < |d| && d[i].call.Post?
    ensures Place(Replay(Execution(s, q), d[..i]).pc) == PurposePlace(d[i].call.purpose)
    ensures PostShape(q, d[i].call)
  {
    Step(Execution(s, q), d, i);
    AlwaysConsistent(s, q, d[..i]);
    PostPlace(s, q, Replay(Execution(s, q), d[..i]), d[i].call);
  }

  /** No purpose is served twice, so no mutation is repeated: one write, two local applies, and so on. */
  lemma AtMostOnce(s: Setup, q: Request, d: History, i: nat, j: nat)
    requires Legal(Execution(s, q), d) && i < j < |d|
    requires d[i].call.Post? && d[j].call.Post?
    ensures d[i].call.purpose != d[j].call.purpose
    ensures PostShape(q, d[i].call)
  {
    hide Observe, Next, Execution;
    OrderedAlong(s, q, d, i, j);
    PurposeAt(s, q, d, i);
    PurposeAt(s, q, d, j);
  }

}
