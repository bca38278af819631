/** What an answer does to an execution, program counter by program counter. */
module WriterMoves {
  import opened Wrappers
  import opened Protocol

  /** The state after a check whose failure raises. */
  function Checked(q: Request, m: Run, outcome: Result<bool, Problem>, otherwise: Problem, next: Run): Run {
    match outcome
    case Failure(p) => Raise(q, m, p)
    case Success(holds) => if holds then next else Raise(q, m, otherwise)
  }

  /** The state after a POST. */
  function Posted(q: Request, m: Run, a: Answer, next: Run): Run {
    match PostProblem(a)
    case Some(p) => Raise(q, m, p)
    case None => next
  }

  lemma AfterBegin(s: Setup, q: Request, m: Run, a: Answer)
    requires m.pc.Begin?
    ensures Next(s, q, m) == Some(Append(Row(false, m.uuid, Started, PayloadHash(s, q))))
    ensures Observe(s, q, m, a) == if a != Appended(true) then Raise(q, m, Unwritable)
                                   else if ExplicitPair(s) then m.(pc := PlanFirst) else AfterPlan(q, m)
  {
    hide PayloadHash;
  }

  lemma AfterPlanFirst(s: Setup, q: Request, m: Run, a: Answer)
    requires m.pc.PlanFirst?
    ensures Next(s, q, m) == Some(Inspect)
    ensures Observe(s, q, m, a) == match PlanRead(s, a)
                                   case Success(plan) => AfterPlan(q, m.(plan := Some(plan)))
                                   case Failure(p) => Raise(q, m, p)
  {
    hide PlanRead;
  }

  predicate Qualifies(s: Setup, q: Request) {
    q.action.Delete? && s.resource.PortForward? && ExplicitPair(s)
  }

  lemma AfterCurrent(s: Setup, q: Request, m: Run, a: Answer)
    requires m.pc.ReadCurrent?
    ensures Next(s, q, m) == Some(ReadObject(Local, m.uuid))
    ensures Observe(s, q, m, a) == Checked(q, m, HashIs(s, a, q.revision), Conflicting,
                                           m.(pc := if Qualifies(s, q) then LocalIds else Write))
  {
    hide HashIs;
  }

  lemma AfterLocalIds(s: Setup, q: Request, m: Run, a: Answer)
    requires m.pc.LocalIds?
    ensures Next(s, q, m) == Some(ReadListing(Local))
    ensures Observe(s, q, m, a) == match IdsAre(s, a, {m.uuid})
                                   case Failure(p) => Raise(q, m, p)
                                   case Success(only) => m.(pc := if only then PeerObject else Write)
  {
    hide IdsAre;
  }

  lemma AfterPeerObject(s: Setup, q: Request, m: Run, a: Answer)
    requires m.pc.PeerObject?
    ensures Next(s, q, m) == Some(ReadObject(Peer, m.uuid))
    ensures Observe(s, q, m, a) == Checked(q, m, HashIs(s, a, q.revision), Conflicting, m.(pc := PeerIds))
  {
    hide HashIs;
  }

  lemma AfterPeerIds(s: Setup, q: Request, m: Run, a: Answer)
    requires m.pc.PeerIds?
    ensures Next(s, q, m) == Some(ReadListing(Peer))
    ensures Observe(s, q, m, a) == Checked(q, m, IdsAre(s, a, {m.uuid}), Conflicting,
                                           m.(pc := Write, peerRevision := Some(q.revision)))
  {
    hide IdsAre;
  }

  lemma AfterWrite(s: Setup, q: Request, m: Run, a: Answer)
    requires m.pc.Write?
    ensures Next(s, q, m) == Some(Post(Local, MainVerb(q.action), m.uuid, MainWrite))
    ensures PostProblem(a).Some? ==> Observe(s, q, m, a) == Raise(q, m, PostProblem(a).value)
    ensures PostProblem(a).None? && !q.action.Create? ==> Observe(s, q, m, a) == m.(pc := ApplyWrite, accepted := true)
    ensures PostProblem(a).None? && q.action.Create? ==>
              Observe(s, q, m, a) == match ValidUuid(a.reply.uuid)
                                     case None => Raise(q, m, Faulty(Upstream))
                                     case Some(u) => m.(pc := ApplyWrite, accepted := true, uuid := u,
                                         report := m.report.(uuid := u))
  {
    hide ValidUuid;
  }

  lemma AfterApply(s: Setup, q: Request, m: Run, a: Answer)
    requires m.pc.ApplyWrite?
    ensures Next(s, q, m) == Some(Post(Local, Apply, "", MainApply))
    ensures Observe(s, q, m, a) == Posted(q, m, a, m.(pc := Readback, report := m.report.(applied := true)))
  {
    hide PostProblem;
  }

  lemma AfterReadback(s: Setup, q: Request, m: Run, a: Answer)
    requires m.pc.Readback?
    ensures Next(s, q, m) == Some(VerifyCall(Local, m.uuid, Expected(s, q)))
    ensures Observe(s, q, m, a) == Checked(q, m, VerifyRead(s, m.uuid, Expected(s, q), a), Faulty(Upstream),
                                           BeginSync(s, m.(report := m.report.(verified := true))))
  {
    hide VerifyRead, Expected;
  }

  // ---- Synchronisation ------------------------------------------------------

  lemma AfterSyncPlan(s: Setup, q: Request, m: Run, a: Answer)
    requires m.pc.SyncPlan?
    ensures Next(s, q, m) == Some(Inspect)
    ensures Observe(s, q, m, a) == if SamePlan(s, a, m.plan) == Success(true)
                                   then m.(pc := SyncRestart, sync := m.sync.(triggered := true)) else EndSync(m)
  {
    hide SamePlan;
  }

  lemma AfterSyncRestart(s: Setup, q: Request, m: Run, a: Answer)
    requires m.pc.SyncRestart?
    ensures Next(s, q, m) == Some(Post(Local, Restart, "", SyncPush))
    ensures Observe(s, q, m, a) == if PostProblem(a).None? then m.(pc := SyncRead(1)) else EndSync(m)
  {
    hide PostProblem;
  }

  lemma AfterSyncRead(s: Setup, q: Request, m: Run, a: Answer)
    requires m.pc.SyncRead?
    ensures Next(s, q, m) == Some(VerifyCall(Peer, m.uuid, Wanted(s, q, m)))
    ensures var tried := m.(sync := m.sync.(attempts := m.pc.attempt));
            Observe(s, q, m, a) == if VerifyRead(s, m.uuid, Wanted(s, q, m), a) == Success(true)
                                   then EndSync(tried.(sync := tried.sync.(verified := true)))
                                   else NotYet(s, q, tried, m.pc.attempt)
  {
    hide VerifyRead, Expected;
  }

  /** A synchronisation that ends leaves no trace of where it ended. */
  lemma EndSyncAnywhere(m: Run, pc: Pc, sync: Sync)
    ensures EndSync(m.(pc := pc, sync := sync)) == EndSync(m.(sync := sync))
    ensures EndSync(m.(sync := m.sync)) == EndSync(m) == EndSync(m.(pc := pc))
  {
  }

  // ---- Last-DNAT clean-up ---------------------------------------------------

  /** A clean-up step leads on, or ends the synchronisation. */
  function Onward(m: Run, good: bool, next: Run): Run {
    if good then next else EndSync(m)
  }

  lemma AfterCleanReads(s: Setup, q: Request, m: Run, a: Answer)
    requires m.pc.CleanPlan? || m.pc.CleanLocalIds? || m.pc.CleanPeerIds? || m.pc.CleanPeerObject?
    ensures m.pc.CleanPlan? ==>
              && Next(s, q, m) == Some(Inspect)
              && Observe(s, q, m, a) == Onward(m, SamePlan(s, a, m.plan) == Success(true), m.(pc := CleanLocalIds))
    ensures m.pc.CleanLocalIds? ==>
              && Next(s, q, m) == Some(ReadListing(Local))
              && Observe(s, q, m, a) == Onward(m, IdsAre(s, a, {}) == Success(true), m.(pc := CleanPeerIds))
    ensures m.pc.CleanPeerIds? ==>
              && Next(s, q, m) == Some(ReadListing(Peer))
              && Observe(s, q, m, a) == Onward(m, IdsAre(s, a, {m.uuid}) == Success(true), m.(pc := CleanPeerObject))
    ensures m.pc.CleanPeerObject? && m.peerRevision.Some? ==>
              && Next(s, q, m) == Some(ReadObject(Peer, m.uuid))
              && Observe(s, q, m, a)
                 == Onward(m, HashIs(s, a, m.peerRevision.value) == Success(true), m.(pc := CleanAppend))
  {
    hide SamePlan, IdsAre, HashIs;
  }

  lemma AfterCleanWrites(s: Setup, q: Request, m: Run, a: Answer)
    requires m.pc.CleanAppend? || m.pc.CleanDelete? || m.pc.CleanApply?
    ensures m.pc.CleanAppend? && m.peerRevision.Some? ==>
              && Next(s, q, m) == Some(Append(Row(true, m.uuid, Started, m.peerRevision.value)))
              && Observe(s, q, m, a) == Onward(m, a == Appended(true),
                                               WithCleanup(m, CleanupOf(m).(attempted := true)).(pc := CleanDelete))
    ensures m.pc.CleanDelete? ==>
              && Next(s, q, m) == Some(Post(Peer, Del, m.uuid, PeerDelete))
              && Observe(s, q, m, a) == Onward(m, PostProblem(a).None?,
                                               WithCleanup(m, CleanupOf(m).(deleted := true)).(pc := CleanApply))
    ensures m.pc.CleanApply? ==>
              && Next(s, q, m) == Some(Post(Peer, Apply, "", PeerApply))
              && Observe(s, q, m, a) == Onward(m, PostProblem(a).None?,
                                               WithCleanup(m, CleanupOf(m).(applied := true)).(pc := CleanReadLocal))
  {
    hide PostProblem;
  }

  lemma AfterCleanVerify(s: Setup, q: Request, m: Run, a: Answer)
    requires m.pc.CleanReadLocal? || m.pc.CleanReadPeer?
    ensures Next(s, q, m) == Some(ReadListing(if m.pc.CleanReadLocal? then Local else Peer))
    ensures m.pc.CleanReadLocal? ==>
              Observe(s, q, m, a) == Onward(m, VerifyRead(s, m.uuid, None, a) == Success(true), m.(pc := CleanReadPeer))
    ensures m.pc.CleanReadPeer? ==>
              var done := WithCleanup(m, CleanupOf(m).(verified := true));
              Observe(s, q, m, a) == Onward(m, VerifyRead(s, m.uuid, None, a) == Success(true),
                                            EndSync(done.(sync := done.sync.(verified := true))))
  {
    hide VerifyRead;
  }

  // ---- Rollback and final row -----------------------------------------------

  lemma AfterUndo(s: Setup, q: Request, m: Run, a: Answer)
    requires m.pc.UndoDelete? || m.pc.UndoApply?
    ensures Next(s, q, m) == Some(if m.pc.UndoDelete? then Post(Local, Del, m.uuid, RollbackDelete)
                                  else Post(Local, Apply, "", RollbackApply))
    ensures Observe(s, q, m, a) == if PostProblem(a).Some? then m.(pc := Close)
                                   else m.(pc := if m.pc.UndoDelete? then UndoApply else UndoRead)
  {
    hide PostProblem;
  }

  lemma AfterUndoRead(s: Setup, q: Request, m: Run, a: Answer)
    requires m.pc.UndoRead?
    ensures Next(s, q, m) == Some(ReadListing(Local))
    ensures Observe(s, q, m, a) == match VerifyRead(s, m.uuid, None, a)
                                   case Failure(p) => m.(pc := Close)
                                   case Success(gone) =>
                                     BeginSync(s,
                                         m.(report := m.report.(rollback := m.report.rollback.(localVerified := gone))))
  {
    hide VerifyRead;
  }

  lemma AfterClose(s: Setup, q: Request, m: Run, a: Answer)
    requires m.pc.Close?
    ensures Next(s, q, m) == Some(Append(Row(false, m.uuid, if m.report.ok then Ok else Error, PayloadHash(s, q))))
    ensures Observe(s, q, m, a) == if a == Appended(true) then m.(pc := Finished, report := m.report.(audited := true))
                                   else m.(pc := Finished, report := m.report.(ok := false, error := AuditError))
  {
    hide PayloadHash;
  }

}
