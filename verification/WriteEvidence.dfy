/** What a reported outcome of the verified write protocol rests on: acknowledged calls and reads, in order. */
module WriteEvidence {
  import opened Wrappers
  import opened Histories
  import opened Protocol
  import opened WriteGuarantees

  // ---- Marks ----------------------------------------------------------------

  /** The answered calls that count as evidence. */
  datatype Mark =
    | StartedRow | WriteAck | ApplyAck | LocalSeen | PeerSeen | OkRow | UndoAck | UndoApplyAck | LocalGone | PeerGone

  /** The event is this evidence, for an object with identifier `u`. */
  ghost predicate Is(s: Setup, q: Request, u: string, mark: Mark, e: Event<Call, Answer>) {
    match mark
    case StartedRow => e == Event(Append(Row(false, q.uuid, Started, PayloadHash(s, q))), Appended(true))
    case OkRow => e == Event(Append(Row(false, u, Ok, PayloadHash(s, q))), Appended(true))
    case WriteAck =>
      && e.call == Post(Local, MainVerb(q.action), q.uuid, MainWrite)
      && PostProblem(e.answer).None?
      && (if q.action.Create? then ValidUuid(e.answer.reply.uuid) == Some(u) else u == q.uuid)
    case ApplyAck => e.call == Post(Local, Apply, "", MainApply) && PostProblem(e.answer).None?
    case UndoAck => e.call == Post(Local, Del, u, RollbackDelete) && PostProblem(e.answer).None?
    case UndoApplyAck => e.call == Post(Local, Apply, "", RollbackApply) && PostProblem(e.answer).None?
    case LocalSeen =>
      e.call == VerifyCall(Local, u, Expected(s, q)) && VerifyRead(s, u, Expected(s, q), e.answer) == Success(true)
    case PeerSeen =>
      e.call == VerifyCall(Peer, u, Expected(s, q)) && VerifyRead(s, u, Expected(s, q), e.answer) == Success(true)
    case LocalGone => e.call == ReadListing(Local) && VerifyRead(s, u, None, e.answer) == Success(true)
    case PeerGone => e.call == ReadListing(Peer) && VerifyRead(s, u, None, e.answer) == Success(true)
  }

  /** The marks occur in the history, in this order. */
  ghost predicate Evidence(s: Setup, q: Request, u: string, d: History, marks: seq<Mark>)
    decreases |marks|
  {
    marks == [] || exists i :: 0 <= i < |d| && Is(s, q, u, marks[|marks| - 1], d[i])
                               && Evidence(s, q, u, d[..i], marks[..|marks| - 1])
  }

  lemma EvidenceGrows(s: Setup, q: Request, u: string, d: History, e: Event<Call, Answer>, marks: seq<Mark>)
    requires Evidence(s, q, u, d, marks)
    ensures Evidence(s, q, u, d + [e], marks)
  {
    hide Is;
    if marks != [] {
      var i :| 0 <= i < |d| && Is(s, q, u, marks[|marks| - 1], d[i]) && Evidence(s, q, u, d[..i], marks[..|marks| - 1]);
      assert (d + [e])[..i] == d[..i] && (d + [e])[i] == d[i];
    }
  }

  lemma EvidenceAdds(s: Setup, q: Request, u: string, d: History, e: Event<Call, Answer>, marks: seq<Mark>, mark: Mark)
    requires Evidence(s, q, u, d, marks) && Is(s, q, u, mark, e)
    ensures Evidence(s, q, u, d + [e], marks + [mark])
  {
    hide Is;
    var all, longer := marks + [mark], d + [e];
    assert longer[..|d|] == d && longer[|d|] == e;
    assert all[|all| - 1] == mark && all[..|all| - 1] == marks;
  }

  lemma {:induction false} EvidencePrefix(
    s: Setup, q: Request, u: string, d: History, marks: seq<Mark>, fewer: seq<Mark>)
    requires Evidence(s, q, u, d, marks) && fewer <= marks
    ensures Evidence(s, q, u, d, fewer)
    decreases |marks|
  {
    hide Is;
    if fewer != marks {
      var i :| 0 <= i < |d| && Is(s, q, u, marks[|marks| - 1], d[i]) && Evidence(s, q, u, d[..i], marks[..|marks| - 1]);
      EvidencePrefix(s, q, u, d[..i], marks[..|marks| - 1], fewer);
      EvidenceExtends(s, q, u, d, i, fewer);
    }
  }

  lemma EvidenceExtends(s: Setup, q: Request, u: string, d: History, i: nat, marks: seq<Mark>)
    requires i <= |d| && Evidence(s, q, u, d[..i], marks)
    ensures Evidence(s, q, u, d, marks)
  {
    hide Is;
    if marks != [] {
      var j :| 0 <= j < i && Is(s, q, u, marks[|marks| - 1], d[..i][j])
               && Evidence(s, q, u, d[..i][..j], marks[..|marks| - 1]);
      assert d[..i][..j] == d[..j] && d[..i][j] == d[j];
    }
  }

  // ---- What a state promises ------------------------------------------------

  function MainChain(s: Setup): seq<Mark> {
    if s.hasPeer then [StartedRow, WriteAck, ApplyAck, LocalSeen, PeerSeen, OkRow]
    else [StartedRow, WriteAck, ApplyAck, LocalSeen, OkRow]
  }

  function UndoChain(s: Setup): seq<Mark> {
    if s.hasPeer then [StartedRow, WriteAck, UndoAck, UndoApplyAck, LocalGone, PeerGone]
    else [StartedRow, WriteAck, UndoAck, UndoApplyAck, LocalGone]
  }

  function Opened(m: Run): nat {
    if m.accepted then 2 else if 1 <= Place(m.pc) <= 6 then 1 else 0
  }

  /** How much of the main chain the report claims. */
  function MainProgress(s: Setup, m: Run): nat {
    if m.report.ok then |MainChain(s)| - (if m.pc.Finished? then 0 else 1)
    else if m.report.verified then 4
    else if m.report.applied then 3
    else Opened(m)
  }

  /** How much of the rollback's chain the report claims. */
  function UndoProgress(s: Setup, m: Run): nat {
    if m.report.rollback.verified then |UndoChain(s)|
    else if m.report.rollback.localVerified then 5
    else if m.pc.UndoRead? then 4
    else if m.pc.UndoApply? then 3
    else Opened(m)
  }

  /** The evidence that success at a program counter adds. */
  function MarkAt(m: Run): Mark {
    match m.pc
    case Begin => StartedRow
    case Write => WriteAck
    case ApplyWrite => ApplyAck
    case Readback => LocalSeen
    case UndoDelete => UndoAck
    case UndoApply => UndoApplyAck
    case UndoRead => LocalGone
    case Close => OkRow
    case _ => if m.undoing then PeerGone else PeerSeen
  }

  /** Success here is evidence of something. */
  predicate IsEvident(m: Run, g: Signal) {
    && (g.Good? || g.Created?)
    && match m.pc
       case Begin | Write | ApplyWrite | Readback | SyncRead(_) | CleanReadPeer => true
       case UndoDelete | UndoApply | UndoRead => true
       case Close => m.report.ok
       case _ => false
  }

  /** A claim grows only by the evidence that was just obtained. */
  predicate Follows(chain: seq<Mark>, before: nat, after: nat, m: Run, g: Signal) {
    after <= before <= |chain| || (IsEvident(m, g) && after == before + 1 <= |chain| && chain[before] == MarkAt(m))
  }

  ghost predicate Earned(s: Setup, m: Run, g: Signal, n: Run) {
    && Follows(MainChain(s), MainProgress(s, m), MainProgress(s, n), m, g)
    && Follows(UndoChain(s), UndoProgress(s, m), UndoProgress(s, n), m, g)
  }

  /** What the rollback part of a report says about itself. */
  ghost predicate UndoConsistent(m: Run) {
    && (m.report.rollback.verified ==> m.report.rollback.localVerified && Place(m.pc) >= 36)
    && (m.report.rollback.localVerified ==> Phase(m) >= 24)
  }

  ghost predicate StepEarns(s: Setup, m: Run, g: Signal, n: Run) {
    Earned(s, m, g, n) && UndoConsistent(n)
  }

  lemma OpeningEarns(s: Setup, q: Request, m: Run, g: Signal)
    requires Consistent(s, q, m) && Plausible(q, m, g) && UndoConsistent(m) && Place(m.pc) <= 1
    ensures StepEarns(s, m, g, OpeningMove(s, q, m, g))
  {
    hide Expected;
  }

  lemma ComparingEarns(s: Setup, q: Request, m: Run, g: Signal)
    requires Consistent(s, q, m) && Plausible(q, m, g) && UndoConsistent(m) && 2 <= Place(m.pc) <= 5
    ensures StepEarns(s, m, g, OpeningMove(s, q, m, g))
  {
    hide Expected;
  }

  lemma WriteEarns(s: Setup, q: Request, m: Run, g: Signal)
    requires Consistent(s, q, m) && Plausible(q, m, g) && UndoConsistent(m) && 6 <= Place(m.pc) <= 7
    ensures StepEarns(s, m, g, WriteMove(s, q, m, g))
  {
    hide Expected;
  }

  lemma ReadbackEarns(s: Setup, q: Request, m: Run, g: Signal)
    requires Consistent(s, q, m) && Plausible(q, m, g) && UndoConsistent(m) && m.pc.Readback?
    ensures StepEarns(s, m, g, WriteMove(s, q, m, g))
  {
    hide Expected;
  }

  lemma SyncEarns(s: Setup, q: Request, m: Run, g: Signal)
    requires Consistent(s, q, m) && Plausible(q, m, g) && UndoConsistent(m) && 9 <= Place(m.pc) <= 10
    ensures StepEarns(s, m, g, SyncMove(s, q, m, g))
  {
    hide Expected;
  }

  lemma PeerReadEarns(s: Setup, q: Request, m: Run, g: Signal)
    requires Consistent(s, q, m) && Plausible(q, m, g) && UndoConsistent(m) && m.pc.SyncRead?
    ensures StepEarns(s, m, g, SyncMove(s, q, m, g))
  {
    hide Expected;
  }

  lemma CleanEarns(s: Setup, q: Request, m: Run, g: Signal)
    requires Consistent(s, q, m) && Plausible(q, m, g) && UndoConsistent(m) && 12 <= Place(m.pc) <= 16
    ensures StepEarns(s, m, g, CleanMove(s, q, m, g))
  {
    hide Expected;
  }

  lemma CleaningEarns(s: Setup, q: Request, m: Run, g: Signal)
    requires Consistent(s, q, m) && Plausible(q, m, g) && UndoConsistent(m) && 17 <= Place(m.pc) <= 20
    ensures StepEarns(s, m, g, CleanMove(s, q, m, g))
  {
    hide Expected;
  }

  lemma UndoEarns(s: Setup, q: Request, m: Run, g: Signal)
    requires Consistent(s, q, m) && Plausible(q, m, g) && UndoConsistent(m) && 21 <= Place(m.pc) <= 22
    ensures StepEarns(s, m, g, UndoMove(s, q, m, g))
  {
    hide Expected;
  }

  lemma UndoReadEarns(s: Setup, q: Request, m: Run, g: Signal)
    requires Consistent(s, q, m) && Plausible(q, m, g) && UndoConsistent(m) && m.pc.UndoRead?
    ensures StepEarns(s, m, g, UndoMove(s, q, m, g))
  {
    hide Expected;
  }

  lemma CloseEarns(s: Setup, q: Request, m: Run, g: Signal)
    requires Consistent(s, q, m) && Plausible(q, m, g) && UndoConsistent(m) && m.pc.Close?
    ensures StepEarns(s, m, g, CloseMove(s, q, m, g))
  {
    hide Expected;
  }

  lemma MoveEarns(s: Setup, q: Request, m: Run, g: Signal)
    requires Consistent(s, q, m) && Plausible(q, m, g) && UndoConsistent(m) && !m.pc.Finished?
    ensures StepEarns(s, m, g, Move(s, q, m, g))
  {
    hide Consistent, UndoConsistent, StepEarns;
    if Place(m.pc) <= 1 {
      OpeningEarns(s, q, m, g);
    } else if Place(m.pc) <= 5 {
      ComparingEarns(s, q, m, g);
    } else if Place(m.pc) <= 7 {
      WriteEarns(s, q, m, g);
    } else if Place(m.pc) <= 8 {
      ReadbackEarns(s, q, m, g);
    } else if Place(m.pc) <= 10 {
      SyncEarns(s, q, m, g);
    } else if Place(m.pc) <= 11 {
      PeerReadEarns(s, q, m, g);
    } else if Place(m.pc) <= 16 {
      CleanEarns(s, q, m, g);
    } else if Place(m.pc) <= 20 {
      CleaningEarns(s, q, m, g);
    } else if Place(m.pc) <= 22 {
      UndoEarns(s, q, m, g);
    } else if m.pc.UndoRead? {
      UndoReadEarns(s, q, m, g);
    } else {
      CloseEarns(s, q, m, g);
    }
  }

  /** Success at a program counter is the evidence it stands for. */
  lemma SignalIsEvidence(s: Setup, q: Request, m: Run, a: Answer)
    requires Consistent(s, q, m) && Next(s, q, m).Some?
    requires IsEvident(m, Decode(s, q, m, a))
    ensures Is(s, q, Move(s, q, m, Decode(s, q, m, a)).uuid, MarkAt(m), Event(Next(s, q, m).value, a))
  {
    hide HashIs, IdsAre, VerifyRead, PlanRead, ValidUuid, Expected;
  }

  // ---- Every history carries its evidence -----------------------------------

  lemma UuidStaysEarly(s: Setup, q: Request, m: Run, g: Signal)
    requires Place(m.pc) <= 5 || 7 <= Place(m.pc) <= 8
    ensures Move(s, q, m, g).uuid == m.uuid
  {
    hide Expected, SyncMove, CleanMove, UndoMove, CloseMove;
  }

  lemma UuidStaysLate(s: Setup, q: Request, m: Run, g: Signal)
    requires Place(m.pc) >= 9
    ensures Move(s, q, m, g).uuid == m.uuid
  {
    hide Expected, OpeningMove, WriteMove;
  }

  lemma UuidIsFixed(s: Setup, q: Request, m: Run, g: Signal)
    requires Consistent(s, q, m) && UndoConsistent(m)
    ensures Move(s, q, m, g).uuid == m.uuid || (m.pc.Write? && MainProgress(s, m) == 1 == UndoProgress(s, m))
  {
    hide Expected, Move;
    if Place(m.pc) >= 9 {
      UuidStaysLate(s, q, m, g);
    } else if !m.pc.Write? {
      UuidStaysEarly(s, q, m, g);
    }
  }

  lemma EvidenceOfStart(s: Setup, q: Request, u: string, v: string, d: History, marks: seq<Mark>)
    requires Evidence(s, q, u, d, marks) && marks <= [StartedRow]
    ensures Evidence(s, q, v, d, marks)
  {
    if marks != [] {
      assert marks == [StartedRow] && marks[..0] == [];
      var i :| 0 <= i < |d| && Is(s, q, u, StartedRow, d[i]);
      assert Is(s, q, v, StartedRow, d[i]);
    }
  }

  ghost predicate Carried(s: Setup, q: Request, d: History, m: Run) {
    && MainProgress(s, m) <= |MainChain(s)| && UndoProgress(s, m) <= |UndoChain(s)|
    && Evidence(s, q, m.uuid, d, MainChain(s)[..MainProgress(s, m)])
    && Evidence(s, q, m.uuid, d, UndoChain(s)[..UndoProgress(s, m)])
  }

  /** Evidence for a claim that follows from the one before. */
  lemma EvidenceStep(
    s: Setup, q: Request, u: string, d: History, e: Event<Call, Answer>, chain: seq<Mark>, before: nat, after: nat,
    m: Run, g: Signal)
    requires Follows(chain, before, after, m, g) && before <= |chain| && Evidence(s, q, u, d, chain[..before])
    requires IsEvident(m, g) ==> Is(s, q, u, MarkAt(m), e)
    ensures after <= |chain| && Evidence(s, q, u, d + [e], chain[..after])
  {
    hide Is;
    if after <= before {
      EvidencePrefix(s, q, u, d, chain[..before], chain[..after]);
      EvidenceGrows(s, q, u, d, e, chain[..after]);
    } else {
      EvidenceAdds(s, q, u, d, e, chain[..before], MarkAt(m));
      assert chain[..after] == chain[..before] + [MarkAt(m)];
    }
  }

  ghost predicate Sound(s: Setup, q: Request, d: History, m: Run) {
    Consistent(s, q, m) && UndoConsistent(m) && Carried(s, q, d, m)
  }

  lemma SoundStep(s: Setup, q: Request, d: History, m: Run, a: Answer)
    requires Sound(s, q, d, m) && Next(s, q, m).Some?
    ensures Sound(s, q, d + [Event(Next(s, q, m).value, a)], Observe(s, q, m, a))
  {
    hide Is, Consistent, UndoConsistent, Move, Decode, Plausible;
    hide MainProgress, UndoProgress, MarkAt, IsEvident, Follows;
    var e, g := Event(Next(s, q, m).value, a), Decode(s, q, m, a);
    var n := Move(s, q, m, g);
    DecodesPlausibly(s, q, m, a);
    MoveStep(s, q, m, g);
    MoveEarns(s, q, m, g);
    UuidIsFixed(s, q, m, g);
    if n.uuid != m.uuid {
      EvidenceOfStart(s, q, m.uuid, n.uuid, d, MainChain(s)[..1]);
      EvidenceOfStart(s, q, m.uuid, n.uuid, d, UndoChain(s)[..1]);
    }
    if IsEvident(m, g) {
      SignalIsEvidence(s, q, m, a);
    }
    EvidenceStep(s, q, n.uuid, d, e, MainChain(s), MainProgress(s, m), MainProgress(s, n), m, g);
    EvidenceStep(s, q, n.uuid, d, e, UndoChain(s), UndoProgress(s, m), UndoProgress(s, n), m, g);
  }

  lemma AlwaysSound(s: Setup, q: Request, d: History)
    requires Legal(Execution(s, q), d)
    ensures Sound(s, q, d, Replay(Execution(s, q), d))
  {
    hide Sound, Observe, Next;
    var x := Execution(s, q);
    var inv := (h: History, m: Run) => Sound(s, q, h, m);
    StartIsSound(s, q);
    forall h, m, e: Event<Call, Answer> | inv(h, m) && x.next(m) == Some(e.call)
      ensures inv(h + [e], x.observe(m, e.answer)) {
      SoundStep(s, q, h, m, e.answer);
      assert e == Event(Next(s, q, m).value, e.answer);
    }
    Invariant(x, d, inv);
  }

  lemma StartIsSound(s: Setup, q: Request)
    ensures Sound(s, q, [], Start(q))
  {
    StartIsConsistent(s, q);
  }

  // ---- Main results ---------------------------------------------------------

  /** The marks are found at ascending positions of the history. */
  ghost predicate InOrder(s: Setup, q: Request, u: string, d: History, marks: seq<Mark>, at: seq<nat>) {
    && |at| == |marks|
    && (forall k :: 0 <= k < |at| ==> at[k] < |d| && Is(s, q, u, marks[k], d[at[k]]))
    && (forall j, k :: 0 <= j < k < |at| ==> at[j] < at[k])
  }

  lemma {:induction false} EvidenceInOrder(s: Setup, q: Request, u: string, d: History, marks: seq<Mark>)
    returns (at: seq<nat>)
    requires Evidence(s, q, u, d, marks)
    ensures InOrder(s, q, u, d, marks, at)
    decreases |marks|
  {
    hide Is;
    at := [];
    if marks != [] {
      var i :| 0 <= i < |d| && Is(s, q, u, marks[|marks| - 1], d[i]) && Evidence(s, q, u, d[..i], marks[..|marks| - 1]);
      var earlier := EvidenceInOrder(s, q, u, d[..i], marks[..|marks| - 1]);
      at := earlier + [i];
      forall k | 0 <= k < |at| ensures at[k] < |d| && Is(s, q, u, marks[k], d[at[k]]) {
        if k < |earlier| {
          assert Is(s, q, u, marks[..|marks| - 1][k], d[..i][earlier[k]]);
        }
      }
    }
  }

  /**
   `ok` is reported only after a persisted "started" row, the acknowledged write, the acknowledged apply,
   a later local read that matched (or a listing without the object), with a peer a still later peer
   read that did too, and finally a persisted "ok" row.
   */
  lemma HonestSuccess(s: Setup, q: Request, d: History) returns (at: seq<nat>)
    requires Complete(Execution(s, q), d)
    ensures Replay(Execution(s, q), d).report.ok ==> InOrder(s, q, Replay(Execution(s, q), d).uuid, d, MainChain(s), at)
  {
    hide Is, Consistent, UndoConsistent, Observe, Next, UndoProgress, UndoChain, Legal;
    var m := Replay(Execution(s, q), d);
    AlwaysSound(s, q, d);
    DueMeansUnfinished(s, q, m);
    assert MainChain(s)[..|MainChain(s)|] == MainChain(s);
    at := [];
    if m.report.ok {
      at := EvidenceInOrder(s, q, m.uuid, d, MainChain(s));
    }
  }

  /**
   A rollback is reported verified only after its delete and apply were acknowledged and absence was then
   observed on the local node and, with a peer, on the peer.
   */
  lemma VerifiedRollback(s: Setup, q: Request, d: History) returns (at: seq<nat>)
    requires Legal(Execution(s, q), d)
    ensures Replay(Execution(s, q), d).report.rollback.verified ==>
              InOrder(s, q, Replay(Execution(s, q), d).uuid, d, UndoChain(s), at)
  {
    var m := Replay(Execution(s, q), d);
    AlwaysSound(s, q, d);
    hide Is, Consistent, UndoConsistent, Observe;
    assert UndoChain(s)[..|UndoChain(s)|] == UndoChain(s);
    at := [];
    if m.report.rollback.verified {
      at := EvidenceInOrder(s, q, m.uuid, d, UndoChain(s));
    }
  }

}
