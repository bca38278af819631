/** Why the verified write protocol sends what it sends: what must have happened before each mutation. */
module WriteCauses {
  import opened Wrappers
  import opened Histories
  import opened Protocol
  import opened WriteGuarantees
  import opened WriterMoves

  // ---- Nothing before the first row, nothing after a refusal ----------------

  ghost predicate Quiet(d: History) {
    forall i :: 0 <= i < |d| ==> !d[i].call.Post?
  }

  ghost predicate Guarded(s: Setup, q: Request, d: History, m: Run) {
    && Consistent(s, q, m)
    && (m.pc.Begin? <==> d == [])
    && (d != [] ==> d[0].call == Append(Row(false, q.uuid, Started, PayloadHash(s, q))))
    && (d != [] && d[0].answer != Appended(true) ==> Place(m.pc) >= 36 && Quiet(d))
    && (Place(m.pc) <= 6 || m.report.error in {ConflictError, UnsafeError} ==> Quiet(d))
  }

  /** A conflict or an unsafe pair is only ever noticed before the write. */
  ghost predicate EarlyRefusal(m: Run, g: Signal, n: Run) {
    && (n.report.error in {ConflictError, UnsafeError} ==>
          Place(m.pc) <= 5 || m.report.error in {ConflictError, UnsafeError})
    && (Place(n.pc) <= 6 ==> Place(m.pc) <= 5)
    && !n.pc.Begin?
    && (m.pc.Begin? && !g.Good? ==> Place(n.pc) >= 36)
    && (Place(m.pc) >= 36 ==> Place(n.pc) >= 36)
    && (n.pc.Finished? ==> m.pc.Close?)
    && (n.report.error.AuditError? ==> m.pc.Close? || m.report.error.AuditError?)
  }

  /** Program counters that are entered from one place only. */
  function Before(pc: Pc): Option<Pc> {
    match pc
    case PlanFirst => Some(Begin)
    case LocalIds => Some(ReadCurrent)
    case PeerObject => Some(LocalIds)
    case PeerIds => Some(PeerObject)
    case ApplyWrite => Some(Write)
    case UndoDelete => Some(ApplyWrite)
    case SyncRestart => Some(SyncPlan)
    case CleanLocalIds => Some(CleanPlan)
    case CleanPeerIds => Some(CleanLocalIds)
    case CleanPeerObject => Some(CleanPeerIds)
    case CleanAppend => Some(CleanPeerObject)
    case CleanDelete => Some(CleanAppend)
    case _ => None
  }

  ghost predicate SingleOrigin(q: Request, m: Run, g: Signal, n: Run) {
    Before(n.pc).Some? ==>
      && Some(m.pc) == Before(n.pc)
      && (if n.pc.UndoDelete? then q.action.Create? && g.Poor? && g.problem.Rejected? else g.Good? || g.Created?)
      && (m.pc.Write? ==> (q.action.Create? <==> g.Created?))
  }

  /** The clean-up's revision is set by the last qualifying read only. */
  ghost predicate RevisionOrigin(q: Request, m: Run, g: Signal, n: Run) {
    n.peerRevision != m.peerRevision ==> m.pc.PeerIds? && g.Good? && n.pc.Write? && n.peerRevision == Some(q.revision)
  }

  /** The plan is what the first preflight found. */
  ghost predicate PlanOrigin(m: Run, g: Signal, n: Run) {
    n.plan != m.plan ==> m.pc.PlanFirst? && g.Planned? && n.plan == Some(g.plan)
  }

  ghost predicate Origins(q: Request, m: Run, g: Signal, n: Run) {
    EarlyRefusal(m, g, n) && SingleOrigin(q, m, g, n) && RevisionOrigin(q, m, g, n) && PlanOrigin(m, g, n)
  }

  lemma OpeningOrigins(s: Setup, q: Request, m: Run, g: Signal)
    requires Consistent(s, q, m) && Plausible(q, m, g) && Place(m.pc) <= 1
    ensures Origins(q, m, g, OpeningMove(s, q, m, g))
  {
    hide Expected;
  }

  lemma ComparingOrigins(s: Setup, q: Request, m: Run, g: Signal)
    requires Consistent(s, q, m) && Plausible(q, m, g) && 2 <= Place(m.pc) <= 5
    ensures Origins(q, m, g, OpeningMove(s, q, m, g))
  {
    hide Expected;
  }

  lemma WriteOrigins(s: Setup, q: Request, m: Run, g: Signal)
    requires Consistent(s, q, m) && Plausible(q, m, g) && m.pc.Write?
    ensures Origins(q, m, g, WriteMove(s, q, m, g))
  {
    hide Expected;
  }

  lemma ApplyOrigins(s: Setup, q: Request, m: Run, g: Signal)
    requires Consistent(s, q, m) && Plausible(q, m, g) && m.pc.ApplyWrite?
    ensures Origins(q, m, g, WriteMove(s, q, m, g))
  {
    hide Expected;
  }

  lemma ReadbackOrigins(s: Setup, q: Request, m: Run, g: Signal)
    requires Consistent(s, q, m) && Plausible(q, m, g) && m.pc.Readback?
    ensures Origins(q, m, g, WriteMove(s, q, m, g))
  {
    hide Expected;
  }

  lemma SyncOrigins(s: Setup, q: Request, m: Run, g: Signal)
    requires Consistent(s, q, m) && Plausible(q, m, g) && m.pc.SyncPlan?
    ensures Origins(q, m, g, SyncMove(s, q, m, g))
  {
    hide Expected;
  }

  lemma PushOrigins(s: Setup, q: Request, m: Run, g: Signal)
    requires Consistent(s, q, m) && Plausible(q, m, g) && m.pc.SyncRestart?
    ensures Origins(q, m, g, SyncMove(s, q, m, g))
  {
    hide Expected;
  }

  lemma PeerReadOrigins(s: Setup, q: Request, m: Run, g: Signal)
    requires Consistent(s, q, m) && Plausible(q, m, g) && m.pc.SyncRead?
    ensures Origins(q, m, g, SyncMove(s, q, m, g))
  {
    hide Expected;
  }

  lemma CleanOrigins(s: Setup, q: Request, m: Run, g: Signal)
    requires Consistent(s, q, m) && Plausible(q, m, g) && 12 <= Place(m.pc) <= 16
    ensures Origins(q, m, g, CleanMove(s, q, m, g))
  {
    hide Expected;
  }

  lemma CleaningOrigins(s: Setup, q: Request, m: Run, g: Signal)
    requires Consistent(s, q, m) && Plausible(q, m, g) && 17 <= Place(m.pc) <= 18
    ensures Origins(q, m, g, CleanMove(s, q, m, g))
  {
    hide Expected;
  }

  lemma CleanedOrigins(s: Setup, q: Request, m: Run, g: Signal)
    requires Consistent(s, q, m) && Plausible(q, m, g) && 19 <= Place(m.pc) <= 20
    ensures Origins(q, m, g, CleanMove(s, q, m, g))
  {
    hide Expected;
  }

  lemma UndoReadOrigins(s: Setup, q: Request, m: Run, g: Signal)
    requires Consistent(s, q, m) && Plausible(q, m, g) && m.pc.UndoRead?
    ensures Origins(q, m, g, UndoMove(s, q, m, g))
  {
    hide Expected;
  }

  lemma UndoOrigins(s: Setup, q: Request, m: Run, g: Signal)
    requires Consistent(s, q, m) && Plausible(q, m, g) && 21 <= Place(m.pc) <= 22
    ensures Origins(q, m, g, UndoMove(s, q, m, g))
  {
    hide Expected;
  }

  lemma CloseOrigins(s: Setup, q: Request, m: Run, g: Signal)
    requires Consistent(s, q, m) && Plausible(q, m, g) && m.pc.Close?
    ensures Origins(q, m, g, CloseMove(s, q, m, g))
  {
    hide Expected;
  }

  lemma MoveOrigins(s: Setup, q: Request, m: Run, g: Signal)
    requires Consistent(s, q, m) && Plausible(q, m, g) && !m.pc.Finished?
    ensures Origins(q, m, g, Move(s, q, m, g))
  {
    hide Consistent, Origins;
    if Place(m.pc) <= 1 {
      OpeningOrigins(s, q, m, g);
    } else if Place(m.pc) <= 5 {
      ComparingOrigins(s, q, m, g);
    } else if m.pc.Write? {
      WriteOrigins(s, q, m, g);
    } else if m.pc.ApplyWrite? {
      ApplyOrigins(s, q, m, g);
    } else if Place(m.pc) <= 8 {
      ReadbackOrigins(s, q, m, g);
    } else if m.pc.SyncPlan? {
      SyncOrigins(s, q, m, g);
    } else if m.pc.SyncRestart? {
      PushOrigins(s, q, m, g);
    } else if Place(m.pc) <= 11 {
      PeerReadOrigins(s, q, m, g);
    } else if Place(m.pc) <= 16 {
      CleanOrigins(s, q, m, g);
    } else if Place(m.pc) <= 18 {
      CleaningOrigins(s, q, m, g);
    } else if Place(m.pc) <= 20 {
      CleanedOrigins(s, q, m, g);
    } else if Place(m.pc) <= 22 {
      UndoOrigins(s, q, m, g);
    } else if m.pc.UndoRead? {
      UndoReadOrigins(s, q, m, g);
    } else {
      CloseOrigins(s, q, m, g);
    }
  }

  lemma QuietCall(s: Setup, q: Request, m: Run)
    requires Place(m.pc) <= 5 || Place(m.pc) >= 36
    ensures Next(s, q, m).Some? ==> !Next(s, q, m).value.Post?
    ensures m.pc.Begin? ==> Next(s, q, m) == Some(Append(Row(false, m.uuid, Started, PayloadHash(s, q))))
  {
    hide Expected, PayloadHash;
  }

  lemma GuardedStep(s: Setup, q: Request, d: History, m: Run, a: Answer)
    requires Guarded(s, q, d, m) && Next(s, q, m).Some?
    ensures Guarded(s, q, d + [Event(Next(s, q, m).value, a)], Observe(s, q, m, a))
  {
    var e, g := Event(Next(s, q, m).value, a), Decode(s, q, m, a);
    DueMeansUnfinished(s, q, m);
    DecodesPlausibly(s, q, m, a);
    MoveStep(s, q, m, g);
    MoveOrigins(s, q, m, g);
    BeginDecodes(s, q, m, a);
    hide Move, Decode, Plausible, VerifyCall;
    if Place(m.pc) <= 5 || Place(m.pc) >= 36 {
      QuietCall(s, q, m);
      assert Quiet(d) ==> Quiet(d + [e]);
    }
    assert d != [] ==> (d + [e])[0] == d[0];
  }

  lemma BeginDecodes(s: Setup, q: Request, m: Run, a: Answer)
    ensures m.pc.Begin? ==> (Decode(s, q, m, a).Good? <==> a == Appended(true))
  {
  }

  lemma AlwaysGuarded(s: Setup, q: Request, d: History)
    requires Legal(Execution(s, q), d)
    ensures Guarded(s, q, d, Replay(Execution(s, q), d))
  {
    hide Guarded, Observe, Next;
    var x := Execution(s, q);
    var inv := (h: History, m: Run) => Guarded(s, q, h, m);
    StartIsGuarded(s, q);
    forall h, m, e: Event<Call, Answer> | inv(h, m) && x.next(m) == Some(e.call)
      ensures inv(h + [e], x.observe(m, e.answer)) {
      GuardedStep(s, q, h, m, e.answer);
      assert e == Event(Next(s, q, m).value, e.answer);
    }
    Invariant(x, d, inv);
  }

  lemma StartIsGuarded(s: Setup, q: Request)
    ensures Guarded(s, q, [], Start(q))
  {
    StartIsConsistent(s, q);
  }

  /** Every POST follows this run's persisted "started" row. */
  lemma PostsFollowStartedRow(s: Setup, q: Request, d: History, i: nat)
    requires Legal(Execution(s, q), d) && i < |d| && d[i].call.Post?
    ensures d[0] == Event(Append(Row(false, q.uuid, Started, PayloadHash(s, q))), Appended(true))
    ensures 0 < i
  {
    AlwaysGuarded(s, q, d);
  }

  /** A conflict or an unsafe pair means that nothing was sent to either node. */
  lemma RefusalSendsNothing(s: Setup, q: Request, d: History)
    requires Legal(Execution(s, q), d)
    requires Replay(Execution(s, q), d).report.error in {ConflictError, UnsafeError}
    ensures Quiet(d)
  {
    AlwaysGuarded(s, q, d);
  }

  // ---- Where a state comes from ---------------------------------------------

  /** The step at position `i` of a history. */
  lemma StepAt(s: Setup, q: Request, d: History, i: nat)
    requires Legal(Execution(s, q), d) && i < |d|
    ensures var m, n := Replay(Execution(s, q), d[..i]), Replay(Execution(s, q), d[..i + 1]);
            var g := Decode(s, q, m, d[i].answer);
            && Next(s, q, m) == Some(d[i].call) && n == Move(s, q, m, g)
            && Consistent(s, q, m) && Consistent(s, q, n) && Plausible(q, m, g) && Origins(q, m, g, n)
  {
    hide Move, Decode, Consistent, Origins, Next, Plausible;
    var x := Execution(s, q);
    Step(x, d, i);
    AlwaysConsistent(s, q, d[..i]);
    var m := Replay(x, d[..i]);
    DueMeansUnfinished(s, q, m);
    DecodesPlausibly(s, q, m, d[i].answer);
    var g := Decode(s, q, m, d[i].answer);
    MoveStep(s, q, m, g);
    MoveOrigins(s, q, m, g);
  }

  ghost function StateAt(s: Setup, q: Request, d: History, i: nat): Run
    requires i <= |d|
  {
    Replay(Execution(s, q), d[..i])
  }

  /** The answered call that led into a state with a single origin. */
  lemma CameFrom(s: Setup, q: Request, d: History, i: nat)
    requires Legal(Execution(s, q), d) && i <= |d| && Before(StateAt(s, q, d, i).pc).Some?
    ensures 0 < i
    ensures var m, n := StateAt(s, q, d, i - 1), StateAt(s, q, d, i);
            var g := Decode(s, q, m, d[i - 1].answer);
            && Next(s, q, m) == Some(d[i - 1].call) && n == Move(s, q, m, g)
            && SingleOrigin(q, m, g, n) && Consistent(s, q, m) && Consistent(s, q, n)
  {
    hide Move, Decode, Consistent, SingleOrigin, EarlyRefusal, RevisionOrigin, Next, Plausible;
    assert i > 0 by {
      assert d[..0] == [];
      assert Before(Start(q).pc).None?;
    }
    StepAt(s, q, d, i - 1);
  }

  lemma ConsistentFacts(s: Setup, q: Request, m: Run)
    requires Consistent(s, q, m)
    ensures Place(m.pc) <= 6 ==> m.uuid == q.uuid
    ensures 7 <= Place(m.pc) <= 23 ==> m.accepted
    ensures 12 <= Place(m.pc) <= 20 ==> q.action.Delete? && m.uuid == q.uuid && m.peerRevision == Some(q.revision)
  {
    hide Expected;
  }

  /** The state that sent a POST. */
  lemma PostAt(s: Setup, q: Request, d: History, i: nat)
    requires Legal(Execution(s, q), d) && i < |d| && d[i].call.Post?
    ensures Consistent(s, q, StateAt(s, q, d, i)) && Next(s, q, StateAt(s, q, d, i)) == Some(d[i].call)
    ensures Place(StateAt(s, q, d, i).pc) == PurposePlace(d[i].call.purpose) && PostShape(q, d[i].call)
  {
    hide Consistent, Next, Move, Decode, Plausible, Origins, Place, PostShape, PurposePlace;
    StepAt(s, q, d, i);
    PostPlace(s, q, StateAt(s, q, d, i), d[i].call);
  }

  // ---- Rollback discipline --------------------------------------------------

  /** The create at `i - 1` was acknowledged with a valid identifier and its apply, at `i`, was explicitly rejected. */
  ghost predicate RejectedCreate(s: Setup, q: Request, d: History, i: nat) {
    && 1 <= i < |d| && q.action.Create?
    && d[i].call == Post(Local, Apply, "", MainApply)
    && d[i].answer.Replied? && !Acknowledges(d[i].answer.reply)
    && d[i - 1].call == Post(Local, Add, q.uuid, MainWrite)
    && PostProblem(d[i - 1].answer).None? && ValidUuid(d[i - 1].answer.reply.uuid).Some?
  }

  /** The answer to the apply of a created object, and the state that sent it. */
  lemma ApplyDecodes(s: Setup, q: Request, m: Run, a: Answer)
    requires m.pc.ApplyWrite?
    ensures var g := Decode(s, q, m, a);
            (g.Poor? && g.problem.Rejected?) <==> (a.Replied? && !Acknowledges(a.reply))
  {
  }

  lemma WriteDecodes(s: Setup, q: Request, m: Run, a: Answer)
    requires m.pc.Write?
    ensures Decode(s, q, m, a).Created? <==>
            q.action.Create? && PostProblem(a).None? && ValidUuid(a.reply.uuid).Some?
    ensures Decode(s, q, m, a).Created? ==> Some(Decode(s, q, m, a).uuid) == ValidUuid(a.reply.uuid)
    ensures Decode(s, q, m, a).Created? ==> Move(s, q, m, Decode(s, q, m, a)).uuid == Decode(s, q, m, a).uuid
  {
  }

  lemma RaiseUndoes(s: Setup, q: Request, m: Run, g: Signal)
    requires m.pc.ApplyWrite? && m.accepted && q.action.Create? && g.Poor? && g.problem.Rejected?
    ensures Move(s, q, m, g).pc.UndoDelete?
  {
  }

  lemma ApplyKeepsUuid(s: Setup, q: Request, m: Run, g: Signal)
    requires m.pc.ApplyWrite?
    ensures Move(s, q, m, g).uuid == m.uuid
  {
  }

  /** A state that has sent the apply of a create holds the identifier that the create was given. */
  lemma ApplyFollowsWrite(s: Setup, q: Request, d: History, i: nat)
    requires Legal(Execution(s, q), d) && i < |d| && d[i].call.Post? && d[i].call.purpose == MainApply
    ensures StateAt(s, q, d, i).pc.ApplyWrite? && StateAt(s, q, d, i).accepted
    ensures d[i].call == Post(Local, Apply, "", MainApply)
    ensures 0 < i && d[i - 1].call == Post(Local, MainVerb(q.action), q.uuid, MainWrite)
    ensures q.action.Create? ==>
              && PostProblem(d[i - 1].answer).None?
              && ValidUuid(d[i - 1].answer.reply.uuid) == Some(StateAt(s, q, d, i).uuid)
  {
    hide Move, Decode, Plausible, PostProblem, ValidUuid, Consistent, Next, Execution, Replay, Legal, Expected;
    PostAt(s, q, d, i);
    ConsistentFacts(s, q, StateAt(s, q, d, i));
    AfterApply(s, q, StateAt(s, q, d, i), d[i].answer);
    CameFrom(s, q, d, i);
    var m := StateAt(s, q, d, i - 1);
    ConsistentFacts(s, q, m);
    AfterWrite(s, q, m, d[i - 1].answer);
    WriteDecodes(s, q, m, d[i - 1].answer);
  }

  /** A rollback delete is sent only right after a rejected create, and names just what it created. */
  lemma RollbackNeedsRejectedCreate(s: Setup, q: Request, d: History, i: nat)
    requires Legal(Execution(s, q), d) && i < |d| && d[i].call.Post? && d[i].call.purpose == RollbackDelete
    ensures 2 <= i && RejectedCreate(s, q, d, i - 1)
    ensures d[i].call == Post(Local, Del, ValidUuid(d[i - 2].answer.reply.uuid).value, RollbackDelete)
  {
    hide Move, Decode, Plausible, PostProblem, Acknowledges, ValidUuid, Consistent, Next, Execution, Replay, Legal;
    PostAt(s, q, d, i);
    var n := StateAt(s, q, d, i);
    AfterUndo(s, q, n, d[i].answer);
    CameFrom(s, q, d, i);
    var m := StateAt(s, q, d, i - 1);
    AfterApply(s, q, m, d[i - 1].answer);
    ApplyDecodes(s, q, m, d[i - 1].answer);
    ApplyKeepsUuid(s, q, m, Decode(s, q, m, d[i - 1].answer));
    ApplyFollowsWrite(s, q, d, i - 1);
  }

  /** After a rejected create, the rollback delete is the very next call. */
  lemma RejectedCreateIsRolledBack(s: Setup, q: Request, d: History, i: nat)
    requires Complete(Execution(s, q), d) && RejectedCreate(s, q, d, i)
    ensures i + 1 < |d| && d[i + 1].call.Post? && d[i + 1].call.purpose == RollbackDelete
  {
    hide Move, Decode, Plausible, PostProblem, Acknowledges, ValidUuid, Consistent, Next, Legal, Origins;
    ApplyFollowsWrite(s, q, d, i);
    StepAt(s, q, d, i);
    var m := StateAt(s, q, d, i);
    ApplyDecodes(s, q, m, d[i].answer);
    RaiseUndoes(s, q, m, Decode(s, q, m, d[i].answer));
    assert d[..|d|] == d;
    DueMeansUnfinished(s, q, StateAt(s, q, d, |d|));
    assert StateAt(s, q, d, i + 1).pc.UndoDelete? && i + 1 != |d|;
    StepAt(s, q, d, i + 1);
    AfterUndo(s, q, StateAt(s, q, d, i + 1), d[i + 1].answer);
  }

  /** Rollback discipline: in a finished run, exactly the rejected creates are rolled back. */
  lemma RollbackIffRejectedCreate(s: Setup, q: Request, d: History)
    requires Complete(Execution(s, q), d)
    ensures (exists i :: 0 <= i < |d| && d[i].call.Post? && d[i].call.purpose == RollbackDelete)
            <==> exists i :: RejectedCreate(s, q, d, i)
  {
    hide RejectedCreate;
    if i :| 0 <= i < |d| && d[i].call.Post? && d[i].call.purpose == RollbackDelete {
      RollbackNeedsRejectedCreate(s, q, d, i);
    }
    if i: nat :| RejectedCreate(s, q, d, i) {
      RejectedCreateIsRolledBack(s, q, d, i);
    }
  }

  // ---- Synchronisation under an unchanged plan ------------------------------

  lemma PlannedMeans(s: Setup, q: Request, m: Run, a: Answer)
    ensures m.pc.PlanFirst? && Decode(s, q, m, a).Planned? ==> PlanRead(s, a) == Success(Decode(s, q, m, a).plan)
    ensures m.pc.SyncPlan? && !Decode(s, q, m, a).Poor? ==>
              PlanRead(s, a).Success? && Some(PlanRead(s, a).value) == m.plan
  {
    hide HashIs, IdsAre, VerifyRead, PlanRead, PostProblem, ValidUuid, Expected;
  }

  /** The plan of a run is what the second call of its history found. */
  lemma {:induction false} PlanFrom(s: Setup, q: Request, d: History, i: nat)
    requires Legal(Execution(s, q), d) && i <= |d| && StateAt(s, q, d, i).plan.Some?
    ensures 2 <= i && d[1].call == Inspect && PlanRead(s, d[1].answer) == Success(StateAt(s, q, d, i).plan.value)
  {
    hide Move, Decode, Plausible, PlanRead, Legal, EarlyRefusal, SingleOrigin, RevisionOrigin, Consistent;
    assert i > 0 by {
      assert d[..0] == [];
    }
    StepAt(s, q, d, i - 1);
    var m := StateAt(s, q, d, i - 1);
    if m.plan == StateAt(s, q, d, i).plan {
      PlanFrom(s, q, d, i - 1);
    } else {
      PlannedMeans(s, q, m, d[i - 1].answer);
      PlanningIsSecond(s, q, d, i - 1);
    }
  }

  lemma PlanningIsSecond(s: Setup, q: Request, d: History, i: nat)
    requires Legal(Execution(s, q), d) && i < |d| && StateAt(s, q, d, i).pc.PlanFirst?
    ensures i == 1 && d[1].call == Inspect
  {
    hide Move, Decode, Consistent, Quiet;
    CameFrom(s, q, d, i);
    BeginIsFirst(s, q, d, i - 1);
    StepAt(s, q, d, i);
  }

  lemma BeginIsFirst(s: Setup, q: Request, d: History, i: nat)
    requires Legal(Execution(s, q), d) && i <= |d| && StateAt(s, q, d, i).pc.Begin?
    ensures i == 0
  {
    LegalPrefix(Execution(s, q), d, i);
    AlwaysGuarded(s, q, d[..i]);
  }

  /** An explicit synchronisation is pushed only right after preflight found the plan that the run began with. */
  lemma PushIsPreflighted(s: Setup, q: Request, d: History, i: nat)
    requires Legal(Execution(s, q), d) && i < |d| && d[i].call.Post? && d[i].call.purpose == SyncPush
    ensures 2 < i && d[1].call == d[i - 1].call == Inspect
    ensures PlanRead(s, d[1].answer).Success? && PlanRead(s, d[i - 1].answer) == PlanRead(s, d[1].answer)
  {
    hide Move, Decode, Consistent, Plausible, PlanRead, Origins;
    StepAt(s, q, d, i);
    PostPlace(s, q, StateAt(s, q, d, i), d[i].call);
    CameFrom(s, q, d, i);
    PlannedMeans(s, q, StateAt(s, q, d, i - 1), d[i - 1].answer);
    PlanFrom(s, q, d, i - 1);
  }

  // ---- Last-DNAT cleanup ----------------------------------------------------

  /** The peer's rules were read as exactly `{u}`, and that rule as having the caller's revision. */
  ghost predicate PeerHolds(s: Setup, q: Request, ids: Event<Call, Answer>, rule: Event<Call, Answer>) {
    && ids.call == ReadListing(Peer) && IdsAre(s, ids.answer, {q.uuid}) == Success(true)
    && rule.call == ReadObject(Peer, q.uuid) && HashIs(s, rule.answer, q.revision) == Success(true)
  }

  /** From `j` on, both nodes were read as holding only the requested rule, at the caller's revision. */
  ghost predicate Checked(s: Setup, q: Request, d: History, j: nat) {
    && j + 3 < |d|
    && d[j].call == ReadObject(Local, q.uuid) && HashIs(s, d[j].answer, q.revision) == Success(true)
    && d[j + 1].call == ReadListing(Local) && IdsAre(s, d[j + 1].answer, {q.uuid}) == Success(true)
    && PeerHolds(s, q, d[j + 3], d[j + 2])
  }

  /** Right before the peer delete at `i`, the local node held no rule and the peer still only that one. */
  ghost predicate Reconfirmed(s: Setup, q: Request, d: History, i: nat) {
    && 5 <= i <= |d|
    && d[i - 5].call == Inspect && PlanRead(s, d[i - 5].answer).Success?
    && PlanRead(s, d[i - 5].answer) == PlanRead(s, d[1].answer)
    && d[i - 4].call == ReadListing(Local) && IdsAre(s, d[i - 4].answer, {}) == Success(true)
    && PeerHolds(s, q, d[i - 3], d[i - 2])
    && d[i - 1] == Event(Append(Row(true, q.uuid, Started, q.revision)), Appended(true))
  }

  /** What the answered call of a delete that led on from `m` says. */
  ghost predicate LedOn(s: Setup, q: Request, m: Run, e: Event<Call, Answer>) {
    match m.pc
    case ReadCurrent => e.call == ReadObject(Local, q.uuid) && HashIs(s, e.answer, q.revision) == Success(true)
    case LocalIds => e.call == ReadListing(Local) && IdsAre(s, e.answer, {q.uuid}) == Success(true)
    case PeerObject | CleanPeerObject =>
      e.call == ReadObject(Peer, q.uuid) && HashIs(s, e.answer, q.revision) == Success(true)
    case PeerIds | CleanPeerIds => e.call == ReadListing(Peer) && IdsAre(s, e.answer, {q.uuid}) == Success(true)
    case CleanPlan => e.call == Inspect && SamePlan(s, e.answer, m.plan) == Success(true)
    case CleanLocalIds => e.call == ReadListing(Local) && IdsAre(s, e.answer, {}) == Success(true)
    case CleanAppend => e == Event(Append(Row(true, q.uuid, Started, q.revision)), Appended(true))
    case _ => true
  }

  lemma GoodLedOn(s: Setup, q: Request, m: Run, e: Event<Call, Answer>)
    requires q.action.Delete? && Consistent(s, q, m)
    requires Next(s, q, m) == Some(e.call) && (Decode(s, q, m, e.answer).Good? || Decode(s, q, m, e.answer).Created?)
    ensures LedOn(s, q, m, e)
  {
    hide HashIs, IdsAre, VerifyRead, PlanRead, PostProblem, ValidUuid, Expected;
  }

  /** One step back along a chain of single origins, for a delete. */
  lemma GoodBefore(s: Setup, q: Request, d: History, i: nat)
    requires Legal(Execution(s, q), d) && i <= |d| && q.action.Delete?
    requires Before(StateAt(s, q, d, i).pc).Some? && !StateAt(s, q, d, i).pc.UndoDelete?
    ensures 0 < i && Some(StateAt(s, q, d, i - 1).pc) == Before(StateAt(s, q, d, i).pc)
    ensures LedOn(s, q, StateAt(s, q, d, i - 1), d[i - 1])
  {
    hide Move, Decode, LedOn, Next, Expected, Consistent, Legal;
    CameFrom(s, q, d, i);
    GoodLedOn(s, q, StateAt(s, q, d, i - 1), d[i - 1]);
  }

  /** The two reads that lead to the read of the peer's rule. */
  lemma ReconfirmedPlan(s: Setup, q: Request, d: History, i: nat)
    requires Legal(Execution(s, q), d) && i < |d| && q.action.Delete? && StateAt(s, q, d, i).pc.CleanPeerIds?
    ensures 2 <= i && StateAt(s, q, d, i - 2).pc.CleanPlan?
    ensures d[i - 1].call == ReadListing(Local) && IdsAre(s, d[i - 1].answer, {}) == Success(true)
    ensures d[i - 2].call == Inspect && PlanRead(s, d[i - 2].answer).Success?
    ensures PlanRead(s, d[i - 2].answer) == PlanRead(s, d[1].answer)
  {
    hide Move, Decode, HashIs, IdsAre, SamePlan, PlanRead, Next, Execution, Replay, Legal;
    GoodBefore(s, q, d, i);
    GoodBefore(s, q, d, i - 1);
    CleanPlanIsFirstPlan(s, q, d, i - 2);
  }

  /** The reads of the peer's rule and the row that lead to the peer delete. */
  lemma ReconfirmedRule(s: Setup, q: Request, d: History, i: nat)
    requires Legal(Execution(s, q), d) && i < |d| && q.action.Delete? && StateAt(s, q, d, i).pc.CleanDelete?
    ensures 3 <= i && StateAt(s, q, d, i - 3).pc.CleanPeerIds? && PeerHolds(s, q, d[i - 3], d[i - 2])
    ensures d[i - 1] == Event(Append(Row(true, q.uuid, Started, q.revision)), Appended(true))
  {
    hide HashIs, IdsAre, SamePlan, Execution, Replay, Legal;
    GoodBefore(s, q, d, i);
    GoodBefore(s, q, d, i - 1);
    GoodBefore(s, q, d, i - 2);
  }

  /** What a peer delete follows at once. */
  lemma PeerDeleteIsReconfirmed(s: Setup, q: Request, d: History, i: nat)
    requires Legal(Execution(s, q), d) && i < |d| && d[i].call.Post? && d[i].call.purpose == PeerDelete
    ensures q.action.Delete? && d[i].call == Post(Peer, Del, q.uuid, PeerDelete)
    ensures Reconfirmed(s, q, d, i)
    ensures StateAt(s, q, d, i).peerRevision.Some? && StateAt(s, q, d, i - 5).pc.CleanPlan?
  {
    hide Move, Decode, Plausible, HashIs, IdsAre, SamePlan, PlanRead, Expected, Next, Execution, Replay, Origins,
        Legal, Consistent;
    PostAt(s, q, d, i);
    ConsistentFacts(s, q, StateAt(s, q, d, i));
    AfterCleanWrites(s, q, StateAt(s, q, d, i), d[i].answer);
    ReconfirmedRule(s, q, d, i);
    ReconfirmedPlan(s, q, d, i - 3);
  }

  lemma CleanPlanIsFirstPlan(s: Setup, q: Request, d: History, i: nat)
    requires Legal(Execution(s, q), d) && i < |d| && StateAt(s, q, d, i).pc.CleanPlan?
    requires LedOn(s, q, StateAt(s, q, d, i), d[i])
    ensures PlanRead(s, d[i].answer).Success? && |d| >= 2 && PlanRead(s, d[i].answer) == PlanRead(s, d[1].answer)
  {
    hide PlanRead, Expected;
    PlanFrom(s, q, d, i);
  }

  lemma RevisionIsForDelete(s: Setup, q: Request, m: Run)
    requires Consistent(s, q, m) && m.peerRevision.Some?
    ensures q.action.Delete?
  {
    hide Expected;
  }

  /** The four reads that end with the one of the peer's rules. */
  lemma QualifyingReads(s: Setup, q: Request, d: History, i: nat)
    requires Legal(Execution(s, q), d) && i < |d| && q.action.Delete?
    requires StateAt(s, q, d, i).pc.PeerIds? && LedOn(s, q, StateAt(s, q, d, i), d[i])
    ensures 3 <= i && Checked(s, q, d, i - 3)
  {
    hide Legal, Replay, Execution, HashIs, IdsAre, SamePlan;
    GoodBefore(s, q, d, i);
    GoodBefore(s, q, d, i - 1);
    GoodBefore(s, q, d, i - 2);
  }

  /** A state that holds a clean-up revision got it from reads that showed one and the same rule on both nodes. */
  lemma {:induction false} RevisionFrom(s: Setup, q: Request, d: History, i: nat) returns (j: nat)
    requires Legal(Execution(s, q), d) && i <= |d| && StateAt(s, q, d, i).peerRevision.Some?
    ensures j + 4 <= i && Checked(s, q, d, j) && StateAt(s, q, d, j + 4).pc.Write?
  {
    hide Move, Decode, Plausible, LedOn, Checked, Next, Legal, EarlyRefusal, SingleOrigin, PlanOrigin, Consistent;
    assert i > 0 by {
      assert d[..0] == [];
    }
    StepAt(s, q, d, i - 1);
    var m := StateAt(s, q, d, i - 1);
    if m.peerRevision.Some? {
      j := RevisionFrom(s, q, d, i - 1);
    } else {
      RevisionIsForDelete(s, q, StateAt(s, q, d, i));
      GoodLedOn(s, q, m, d[i - 1]);
      QualifyingReads(s, q, d, i - 1);
      j := i - 4;
    }
  }

  lemma WriteSends(s: Setup, q: Request, d: History, i: nat)
    requires Legal(Execution(s, q), d) && i < |d| && StateAt(s, q, d, i).pc.Write?
    ensures d[i].call == Post(Local, MainVerb(q.action), q.uuid, MainWrite)
  {
    StepAt(s, q, d, i);
  }

  /**
   Last-DNAT clean-up: a peer delete is sent only if, right before the main delete, both nodes were read
   as holding exactly the requested rule at the caller's revision, and right before the peer delete the
   plan was unchanged, the local node held no rule and the peer still exactly that one at that revision.
   */
  lemma PeerDeleteIsQualified(s: Setup, q: Request, d: History, i: nat) returns (j: nat)
    requires Legal(Execution(s, q), d) && i < |d| && d[i].call.Post? && d[i].call.purpose == PeerDelete
    ensures d[i].call == Post(Peer, Del, q.uuid, PeerDelete)
    ensures Reconfirmed(s, q, d, i)
    ensures j + 4 < i - 5 && Checked(s, q, d, j) && d[j + 4].call == Post(Local, Del, q.uuid, MainWrite)
  {
    hide Move, Decode, HashIs, IdsAre, PlanRead, Expected, Execution, Replay, Legal, Consistent, Origins, Plausible;
    PeerDeleteIsReconfirmed(s, q, d, i);
    j := RevisionFrom(s, q, d, i);
    if i - 5 < j + 4 {
      OrderedAlong(s, q, d, i - 5, j + 4);
    }
    WriteSends(s, q, d, j + 4);
  }

}
