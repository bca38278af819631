/**
 The verified writer in the source's own form: an object whose methods make calls, update its fields and
 the result being built, and loop over peer reads. Every method is proved to follow the protocol machine,
 so all that is proved about its histories holds of what the writer does.
 */
module Writer {
  import opened Wrappers
  import opened JsonTrees
  import opened Histories
  import opened Protocol
  import opened Preflight
  import opened WriteGuarantees
  import opened WriterMoves
  import opened AuditFile
  import opened AuditTrail
  import Listings
  import Matching
  import OptionTrees
  import Retries

  // ---- Results built in place -----------------------------------------------

  function Joined(ids: set<string>, more: Option<set<string>>): Option<set<string>> {
    match more
    case None => None
    case Some(rest) => Some(ids + rest)
  }

  /** The `result` dict of `_sync`. */
  class SyncResult {
    var triggered: bool
    var verified: bool
    var attempts: nat
    var waits: nat
    var cleanup: Option<Cleanup>

    constructor ()
      ensures Value() == NO_SYNC
    {
      triggered, verified, attempts, waits, cleanup := false, false, 0, 0, None;
    }

    function Value(): Sync
      reads this
    {
      Sync(triggered, verified, attempts, waits, cleanup)
    }
  }

  /** The `result` dict of `_execute`. */
  class WriteResult {
    var ok: bool
    var uuid: string
    var error: ErrorTag
    var applied: bool
    var verified: bool
    var sync: Option<Sync>
    var rollback: Rollback
    var audited: bool

    constructor (uuid: string)
      ensures Value() == Report(false, uuid, NoError, false, false, None, NO_ROLLBACK, false)
    {
      this.ok, this.uuid, this.error, this.applied, this.verified := false, uuid, NoError, false, false;
      this.sync, this.rollback, this.audited := None, NO_ROLLBACK, false;
    }

    function Value(): Report
      reads this
    {
      Report(ok, uuid, error, applied, verified, sync, rollback, audited)
    }
  }

  // ---- Admission --------------------------------------------------------------

  datatype BadRequest = InvalidUuid | InvalidRevision | MissingObject

  /** A payload that is not empty has its object under the resource's key. */
  predicate HasObject(s: Setup, q: Request) {
    q.payload.Obj? && q.payload.fields.Field? ==> Lookup(q.payload.fields, Key(s.resource)).Some?
  }

  /** The request as it is executed, or why it is refused. */
  function Admit(s: Setup, q: Request): Result<Request, BadRequest> {
    if q.action.Create? then if HasObject(s, q) then Success(q) else Failure(MissingObject)
    else match ValidUuid(Str(q.uuid))
         case None => Failure(InvalidUuid)
         case Some(u) =>
           if !ValidRevision(q.revision) then Failure(InvalidRevision)
           else if !HasObject(s, q) then Failure(MissingObject)
           else Success(q.(uuid := u))
  }

  // ---- The writer -----------------------------------------------------------

  /** `world` is what the firewalls answer, call by call; it may be anything. */
  class VerifiedFirewallWriter {
    const setup: Setup
    const world: nat -> Answer
    const log: AuditLog
    var calls: nat
    var syncPlan: Option<Plan>
    var peerDeleteRevision: Option<string>

    ghost var request: Request
    ghost var trace: History
    ghost var run: Run
    ghost var written: string
    ghost var rows: nat

    constructor (setup: Setup, world: nat -> Answer, log: AuditLog)
      ensures this.setup == setup && this.world == world && this.log == log
    {
      this.setup, this.world, this.log, this.calls := setup, world, log, 0;
      this.syncPlan, this.peerDeleteRevision := None, None;
    }

    /** The calls of the current execution are a history of the protocol, and its rows are in the file. */
    ghost predicate Valid()
      reads this, log
    {
      && Legal(Execution(setup, request), trace)
      && run == Replay(Execution(setup, request), trace)
      && written <= log.data
      && log.appends == rows + Appends(trace)
      && (AllAppended(trace) ==> log.data == written + Recorded(log.render, rows, trace))
    }

    ghost predicate Due(call: Call)
      reads this
    {
      Next(setup, request, run) == Some(call)
    }

    /** The last step of the current execution. */
    ghost predicate Did(before: History, m: Run, call: Call, a: Answer)
      reads this
    {
      trace == before + [Event(call, a)] && run == Observe(setup, request, m, a)
    }

    method Send(call: Call) returns (a: Answer)
      requires Valid() && Due(call) && !call.Append?
      modifies `calls, `trace, `run
      ensures Valid() && Did(old(trace), old(run), call, a) && Fits(call, a)
    {
      hide Next, Observe, Replay, Legal, Recorded, Appends, AllAppended;
      a := world(calls);
      calls := calls + 1;
      if !Fits(call, a) {
        a := Failed(Upstream);
      }
      Extend(Execution(setup, request), trace, Event(call, a));
      RecordedStep(log.render, rows, trace, Event(call, a));
      trace, run := trace + [Event(call, a)], Observe(setup, request, run, a);
    }

    method Record(row: Row) returns (ok: bool)
      requires Valid() && Due(Append(row))
      modifies `trace, `run, log
      ensures Valid() && Did(old(trace), old(run), Append(row), Appended(ok))
    {
      hide Next, Observe, Replay, Legal, Recorded, Appends, AllAppended;
      ghost var before, n := Recorded(log.render, rows, trace), rows + Appends(trace);
      ok := log.Append(row);
      var e := Event(Append(row), Appended(ok));
      Extend(Execution(setup, request), trace, e);
      RecordedStep(log.render, rows, trace, e);
      Regroup(written, before, log.render(n, row));
      trace, run := trace + [e], Observe(setup, request, run, Appended(ok));
    }

    // ---- Reads ----------------------------------------------------------------

    method Get(node: Node, uuid: string) returns (r: Result<Json, Problem>, ghost a: Answer)
      requires Valid() && Due(ReadObject(node, uuid))
      modifies `calls, `trace, `run
      ensures Valid() && Did(old(trace), old(run), ReadObject(node, uuid), a)
      ensures r == ObjectRead(setup, a)
    {
      hide Next, Observe;
      var answer := Send(ReadObject(node, uuid));
      a := answer;
      if answer.Failed? {
        return Failure(Faulty(answer.fault)), a;
      }
      var detail := Detail(setup, answer.raw);
      if detail.None? {
        return Failure(Faulty(Upstream)), a;
      }
      return Success(detail.value), a;
    }

    method Search(node: Node) returns (r: Result<seq<Json>, Problem>, ghost a: Answer)
      requires Valid() && Due(ReadListing(node))
      modifies `calls, `trace, `run
      ensures Valid() && Did(old(trace), old(run), ReadListing(node), a)
      ensures r == ListingRead(setup, a)
    {
      hide Next, Observe;
      var answer := Send(ReadListing(node));
      a := answer;
      if answer.Failed? {
        return Failure(Faulty(answer.fault)), a;
      }
      if answer.listing.Malformed? {
        return Failure(Faulty(Upstream)), a;
      }
      var rows, dnat := answer.listing.rows, setup.resource.PortForward?;
      var count := 0;
      for i := 0 to |rows|
        invariant count + |Listings.CountedRows(dnat, rows[i..])| == |Listings.CountedRows(dnat, rows)|
      {
        if !(dnat && Listings.IsLockout(Listings.RowText(rows[i]))) {
          count := count + 1;
        }
        assert rows[i..][1..] == rows[i + 1..];
      }
      if answer.listing.total.Some? {
        var total := Listings.TotalValue(answer.listing.total.value);
        if total.None? || total.value > count {
          return Failure(Faulty(Upstream)), a;
        }
      }
      return Success(rows), a;
    }

    /** `_dnat_ids`. */
    method UserRules(node: Node) returns (r: Result<set<string>, Problem>, ghost a: Answer)
      requires Valid() && Due(ReadListing(node))
      modifies `calls, `trace, `run
      ensures Valid() && Did(old(trace), old(run), ReadListing(node), a)
      ensures r == IdsRead(setup, a)
    {
      hide Next, Observe, ListingRead, ValidUuid, Listings.IsLockout;
      var rows, answer := Search(node);
      a := answer;
      if rows.Failure? {
        return Failure(rows.error), a;
      }
      var ids: set<string> := {};
      assert rows.value[0..] == rows.value && Joined({}, DnatIds(rows.value)) == DnatIds(rows.value) by {
        assert forall some: set<string> :: {} + some == some;
      }
      for i := 0 to |rows.value|
        invariant DnatIds(rows.value) == Joined(ids, DnatIds(rows.value[i..]))
      {
        var row := rows.value[i];
        assert rows.value[i..][1..] == rows.value[i + 1..];
        if !(row.Str? && Listings.IsLockout(row.text)) {
          var id := ValidUuid(row);
          if id.None? {
            return Failure(Unsafe), a;
          }
          assert forall some: set<string> :: ids + ({id.value} + some) == ids + {id.value} + some;
          ids := ids + {id.value};
        }
      }
      return Success(ids), a;
    }

    method Verify(node: Node, uuid: string, expected: Option<Fields>)
      returns (r: Result<bool, Problem>, ghost a: Answer)
      requires Valid() && Due(VerifyCall(node, uuid, expected))
      modifies `calls, `trace, `run
      ensures Valid() && Did(old(trace), old(run), VerifyCall(node, uuid, expected), a)
      ensures r == VerifyRead(setup, uuid, expected, a)
    {
      hide Next, Observe, ObjectRead, ListingRead;
      if expected.None? {
        var rows, answer := Search(node);
        a := answer;
        if rows.Failure? {
          return Failure(rows.error), a;
        }
        return Success(Listings.LacksRow(rows.value, uuid)), a;
      }
      var detail, answer := Get(node, uuid);
      a := answer;
      if detail.Failure? {
        return Failure(detail.error), a;
      }
      var held := OptionTrees.Selected(detail.value).Obj?
                  && Matching.Matches(detail.value, expected.value, setup.show);
      return Success(held), a;
    }

    /** `_sync_preflight`; without an explicit pair there is nothing to check. */
    method SyncPreflight() returns (r: Result<Option<Plan>, Problem>, ghost a: Answer)
      requires Valid() && (ExplicitPair(setup) ==> Due(Inspect))
      modifies `calls, `trace, `run
      ensures Valid()
      ensures !ExplicitPair(setup) ==> r == Success(None) && trace == old(trace) && run == old(run)
      ensures ExplicitPair(setup) ==>
                && Did(old(trace), old(run), Inspect, a)
                && r == match PlanRead(setup, a) case Success(plan) => Success(Some(plan)) case Failure(p) => Failure(p)
    {
      hide Next, Observe, Preflight.Decide;
      if !setup.hasPeer || !setup.explicitSync {
        a := Appended(true);
        return Success(None), a;
      }
      var answer := Send(Inspect);
      a := answer;
      if answer.Failed? {
        return Failure(Faulty(answer.fault)), a;
      }
      var plan := Decide(setup.resource, answer.survey, setup.show);
      if plan.None? {
        return Failure(Unsafe), a;
      }
      return Success(Some(plan.value)), a;
    }

    // ---- Synchronisation ------------------------------------------------------

    /**
     `_sync`: in explicit mode push under the unchanged plan, then read the peer a bounded number of times.
     Nothing but the synchronisation part of the run changes; before the k-th read it has waited
     1 + 2 + ... + (k - 1) backoffs.
     */
    method Sync(uuid: string, expected: Option<Fields>) returns (result: Option<Sync>)
      requires Valid() && setup.attempts > 0
      requires setup.hasPeer ==> run.pc == if setup.explicitSync then SyncPlan else SyncRead(1)
      requires setup.hasPeer ==> run.sync == NO_SYNC
      requires uuid == run.uuid && expected == Wanted(setup, request, run)
      requires ExplicitPair(setup) ==> syncPlan == run.plan
      requires peerDeleteRevision == run.peerRevision
      modifies `calls, `trace, `run, log
      ensures Valid()
      ensures !setup.hasPeer ==> result.None? && run == old(run) && trace == old(trace)
      ensures setup.hasPeer ==>
                && result.Some? && run == EndSync(old(run).(sync := result.value))
                && result.value.waits == Retries.Waiting(result.value.attempts)
                && result.value.attempts <= setup.attempts
    {
      hide Valid, Next, Observe, Wanted, EndSync;
      if !setup.hasPeer {
        return None;
      }
      ghost var base := run;
      var sync := new SyncResult();
      if setup.explicitSync {
        var pushed := Push(sync);
        if !pushed {
          return Some(sync.Value());
        }
      }
      WantedStays(setup, request, base, run);
      var holds := AwaitPeer(uuid, expected, sync);
      EndSyncAnywhere(base, SyncRead(1), sync.Value());
      if !holds && expected.None? && peerDeleteRevision.Some? {
        CleanupIsExplicit();
        FinishLastDnatDelete(uuid, sync);
        EndSyncAnywhere(base, CleanPlan, sync.Value());
      }
      return Some(sync.Value());
    }

    /** The bounded loop of peer reads. */
    method AwaitPeer(uuid: string, expected: Option<Fields>, sync: SyncResult) returns (holds: bool)
      requires Valid() && run.pc == SyncRead(1) && run.sync == sync.Value() && setup.attempts > 0
      requires !sync.verified && sync.cleanup.None? && sync.attempts == sync.waits == 0
      requires uuid == run.uuid && expected == Wanted(setup, request, run) && peerDeleteRevision == run.peerRevision
      modifies `calls, `trace, `run, sync
      ensures Valid() && sync.attempts <= setup.attempts && sync.cleanup.None? && sync.verified == holds
      ensures sync.waits == Retries.Waiting(sync.attempts)
      ensures run == if !holds && expected.None? && peerDeleteRevision.Some?
                     then old(run).(pc := CleanPlan, sync := sync.Value().(cleanup := Some(NO_CLEANUP)))
                     else EndSync(old(run).(sync := sync.Value()))
    {
      hide Next, Observe, Replay, Legal, Recorded, Appends, AllAppended, Execution, Wanted, EndSync;
      ghost var base := run;
      holds := false;
      var attempt := 1;
      while attempt <= setup.attempts
        invariant 1 <= attempt <= setup.attempts + 1 && sync.attempts == attempt - 1
        invariant !sync.verified && sync.cleanup.None?
        invariant Valid()
        invariant attempt <= setup.attempts ==>
                    && run == base.(pc := SyncRead(attempt), sync := sync.Value())
                    && sync.waits == Retries.Waiting(attempt)
        invariant attempt > setup.attempts ==>
                    && sync.waits == Retries.Waiting(sync.attempts)
                    && run == if expected.None? && peerDeleteRevision.Some?
                              then base.(pc := CleanPlan, sync := sync.Value().(cleanup := Some(NO_CLEANUP)))
                              else EndSync(base.(sync := sync.Value()))
      {
        WantedStays(setup, request, base, run);
        ghost var before := run;
        holds := ReadPeer(uuid, expected, sync, attempt);
        EndSyncAnywhere(base, before.pc, sync.Value());
        if holds {
          return;
        }
        attempt := attempt + 1;
      }
    }

    /** One read of the peer; without success, wait before the next, if any is left. */
    method ReadPeer(uuid: string, expected: Option<Fields>, sync: SyncResult, attempt: nat) returns (holds: bool)
      requires Valid() && run.pc == SyncRead(attempt) && run.sync == sync.Value() && attempt <= setup.attempts
      requires uuid == run.uuid && expected == Wanted(setup, request, run) && peerDeleteRevision == run.peerRevision
      modifies `calls, `trace, `run, sync
      ensures Valid()
      ensures sync.Value() == old(sync.Value()).(
                attempts := attempt, verified := if holds then true else old(sync.verified),
                waits := old(sync.waits) + if holds || attempt == setup.attempts then 0 else attempt)
      ensures holds ==> run == EndSync(old(run).(sync := sync.Value()))
      ensures !holds && attempt < setup.attempts ==> run == old(run).(pc := SyncRead(attempt + 1), sync := sync.Value())
      ensures !holds && attempt == setup.attempts ==>
                run == if expected.None? && peerDeleteRevision.Some?
                       then old(run).(pc := CleanPlan, sync := sync.Value().(cleanup := Some(NO_CLEANUP)))
                       else EndSync(old(run).(sync := sync.Value()))
    {
      hide Next, Observe, Replay, Legal, Recorded, Appends, AllAppended, Execution;
      hide VerifyCall, VerifyRead, Wanted, EndSync, NotYet, CleanupOf, WithCleanup;
      AfterSyncRead(setup, request, run, Failed(Upstream));
      var outcome, a := Verify(Peer, uuid, expected);
      AfterSyncRead(setup, request, old(run), a);
      sync.attempts := attempt;
      holds := outcome == Success(true);
      if holds {
        sync.verified := true;
        return;
      }
      NotYetLeadsOn(setup, request, old(run).(sync := sync.Value()), attempt);
      WantedStays(setup, request, old(run), old(run).(sync := sync.Value()));
      if attempt < setup.attempts {
        sync.waits := sync.waits + attempt;
      }
    }

    /** The explicit push, under the plan that the execution began with. */
    method Push(sync: SyncResult) returns (pushed: bool)
      requires Valid() && ExplicitPair(setup) && run.pc.SyncPlan? && run.sync == sync.Value() && syncPlan == run.plan
      modifies `calls, `trace, `run, sync
      ensures Valid()
      ensures pushed ==> sync.Value() == old(sync.Value()).(triggered := true)
      ensures pushed ==> run == old(run).(pc := SyncRead(1), sync := sync.Value())
      ensures !pushed ==> run == EndSync(old(run).(sync := sync.Value()))
      ensures sync.Value() == old(sync.Value()).(triggered := sync.triggered)
    {
      hide Next, Observe, PlanRead, PostProblem, EndSync;
      pushed := false;
      ghost var base := run;
      AfterSyncPlan(setup, request, base, Failed(Upstream));
      var plan, a := SyncPreflight();
      AfterSyncPlan(setup, request, base, a);
      if plan.Failure? || plan.value != syncPlan {
        return;
      }
      sync.triggered := true;
      ghost var before := run;
      AfterSyncRestart(setup, request, before, Failed(Upstream));
      var answer := Send(Post(Local, Restart, "", SyncPush));
      AfterSyncRestart(setup, request, before, answer);
      EndSyncAnywhere(base, before.pc, sync.Value());
      pushed := PostProblem(answer).None?;
    }

    /** `_finish_last_dnat_delete`: complete the synchronisation of a delete of the last DNAT rule. */
    method FinishLastDnatDelete(uuid: string, sync: SyncResult)
      requires Valid() && run.pc.CleanPlan? && !sync.verified && run.sync == sync.Value().(cleanup := Some(NO_CLEANUP))
      requires uuid == run.uuid && syncPlan == run.plan && peerDeleteRevision == run.peerRevision
      requires peerDeleteRevision.Some?
      modifies `calls, `trace, `run, log, sync
      ensures Valid() && run == EndSync(old(run).(sync := sync.Value()))
      ensures sync.attempts == old(sync.attempts) && sync.waits == old(sync.waits)
    {
      hide Next, Observe, Replay, Legal, Recorded, Appends, AllAppended, Execution, PostProblem, EndSync;
      sync.cleanup := Some(NO_CLEANUP);
      ghost var base := run;
      var agreed := ReconfirmLastRule(uuid);
      EndSyncAnywhere(base, CleanAppend, sync.Value());
      if !agreed {
        return;
      }
      var ok := RecordPeerDelete(uuid);
      if !ok {
        return;
      }
      sync.cleanup := Some(sync.cleanup.value.(attempted := true));
      assert run == base.(pc := CleanDelete, sync := sync.Value());
      var sent := SendPeerDelete(uuid, sync);
      EndSyncAnywhere(base, CleanDelete, sync.Value());
      if !sent {
        return;
      }
      assert run == base.(pc := CleanReadLocal, sync := sync.Value());
      var gone := BothLack(uuid);
      EndSyncAnywhere(base, CleanReadLocal, sync.Value());
      sync.cleanup := Some(sync.cleanup.value.(verified := gone));
      sync.verified := gone;
      EndSyncAnywhere(base, CleanReadLocal, sync.Value());
    }

    /** Delete and apply on the peer. */
    method SendPeerDelete(uuid: string, sync: SyncResult) returns (sent: bool)
      requires Valid() && run.pc.CleanDelete? && uuid == run.uuid && run.sync == sync.Value() && sync.cleanup.Some?
      modifies `calls, `trace, `run, sync
      ensures Valid() && sync.cleanup.Some?
      ensures sync.Value() == old(sync.Value()).(cleanup := sync.cleanup)
      ensures sent ==> run == old(run).(pc := CleanReadLocal, sync := sync.Value())
      ensures sent ==> sync.cleanup == Some(old(sync.cleanup).value.(deleted := true, applied := true))
      ensures !sent ==> run == EndSync(old(run).(sync := sync.Value()))
    {
      hide Next, Observe, Replay, Legal, Recorded, Appends, AllAppended, Execution, PostProblem, EndSync;
      sent := false;
      ghost var base := run;
      EndSyncAnywhere(base, CleanDelete, sync.Value());
      AfterCleanWrites(setup, request, base, Failed(Upstream));
      var deleted := Send(Post(Peer, Del, uuid, PeerDelete));
      AfterCleanWrites(setup, request, base, deleted);
      if PostProblem(deleted).Some? {
        return;
      }
      sync.cleanup := Some(sync.cleanup.value.(deleted := true));
      ghost var applying := run;
      assert applying == base.(pc := CleanApply, sync := sync.Value());
      AfterCleanWrites(setup, request, applying, Failed(Upstream));
      var applied := Send(Post(Peer, Apply, "", PeerApply));
      AfterCleanWrites(setup, request, applying, applied);
      EndSyncAnywhere(base, CleanApply, sync.Value());
      if PostProblem(applied).Some? {
        return;
      }
      sync.cleanup := Some(sync.cleanup.value.(applied := true));
      sent := true;
    }

    method RecordPeerDelete(uuid: string) returns (ok: bool)
      requires Valid() && run.pc.CleanAppend? && uuid == run.uuid && peerDeleteRevision == run.peerRevision
      requires peerDeleteRevision.Some?
      modifies `trace, `run, log
      ensures Valid()
      ensures run == if ok then WithCleanup(old(run), CleanupOf(old(run)).(attempted := true)).(pc := CleanDelete)
                     else EndSync(old(run))
    {
      hide Next, Observe, EndSync;
      AfterCleanWrites(setup, request, run, Failed(Upstream));
      ok := Record(Row(true, uuid, Started, peerDeleteRevision.value));
      AfterCleanWrites(setup, request, old(run), Appended(ok));
    }

    /** The checks right before a peer delete. */
    method ReconfirmLastRule(uuid: string) returns (agreed: bool)
      requires Valid() && run.pc.CleanPlan?
      requires uuid == run.uuid && syncPlan == run.plan && peerDeleteRevision == run.peerRevision
      requires peerDeleteRevision.Some?
      modifies `calls, `trace, `run
      ensures Valid()
      ensures run == if agreed then old(run).(pc := CleanAppend) else EndSync(old(run))
    {
      hide Next, Observe, PlanRead, IdsRead, ObjectRead, Hash, EndSync;
      agreed := false;
      ghost var base := run;
      CleanupIsExplicit();
      AfterCleanReads(setup, request, base, Failed(Upstream));
      var plan, a := SyncPreflight();
      AfterCleanReads(setup, request, base, a);
      if plan.Failure? || plan.value != syncPlan {
        return;
      }
      ghost var ours := run;
      AfterCleanReads(setup, request, ours, Failed(Upstream));
      var local, b := UserRules(Local);
      AfterCleanReads(setup, request, ours, b);
      EndSyncAnywhere(base, ours.pc, base.sync);
      if local.Failure? || local.value != {} {
        return;
      }
      agreed := ReconfirmPeerRule(uuid);
      EndSyncAnywhere(base, CleanPeerIds, base.sync);
    }

    method ReconfirmPeerRule(uuid: string) returns (agreed: bool)
      requires Valid() && run.pc.CleanPeerIds? && uuid == run.uuid
      requires peerDeleteRevision == run.peerRevision && peerDeleteRevision.Some?
      modifies `calls, `trace, `run
      ensures Valid()
      ensures run == if agreed then old(run).(pc := CleanAppend) else EndSync(old(run))
    {
      hide Next, Observe, IdsRead, ObjectRead, Hash, EndSync;
      agreed := false;
      ghost var base := run;
      AfterCleanReads(setup, request, base, Failed(Upstream));
      var peer, c := UserRules(Peer);
      AfterCleanReads(setup, request, base, c);
      if peer.Failure? || peer.value != {uuid} {
        return;
      }
      ghost var rule := run;
      AfterCleanReads(setup, request, rule, Failed(Upstream));
      var detail, d := Get(Peer, uuid);
      AfterCleanReads(setup, request, rule, d);
      EndSyncAnywhere(base, rule.pc, base.sync);
      agreed := detail.Success? && Hash(setup, detail.value) == peerDeleteRevision.value;
    }

    /** The absence checks after a peer delete. */
    method BothLack(uuid: string) returns (gone: bool)
      requires Valid() && run.pc.CleanReadLocal? && run.sync.cleanup.Some? && uuid == run.uuid
      modifies `calls, `trace, `run
      ensures Valid()
      ensures !gone ==> run == EndSync(old(run))
      ensures gone ==>
                var done := WithCleanup(old(run), CleanupOf(old(run)).(verified := true));
                run == EndSync(done.(sync := done.sync.(verified := true)))
    {
      hide Next, Observe, VerifyRead, EndSync;
      gone := false;
      ghost var base := run;
      AfterCleanVerify(setup, request, base, Failed(Upstream));
      var local, a := Verify(Local, uuid, None);
      AfterCleanVerify(setup, request, base, a);
      if local != Success(true) {
        return;
      }
      ghost var there := run;
      AfterCleanVerify(setup, request, there, Failed(Upstream));
      var peer, b := Verify(Peer, uuid, None);
      AfterCleanVerify(setup, request, there, b);
      EndSyncAnywhere(base, there.pc, base.sync);
      gone := peer == Success(true);
      if gone {
        EndSyncAnywhere(base, there.pc, WithCleanup(base, CleanupOf(base).(verified := true)).sync.(verified := true));
      }
    }

    // ---- Opening --------------------------------------------------------------

    /** The run was stopped by a problem before anything was accepted. */
    ghost predicate Refused(before: Run, p: Problem)
      reads this
    {
      && run == Raise(request, before, p)
      && before.report == Start(request).report && !before.accepted && before.uuid == request.uuid
    }

    /** The "started" row and the first preflight. */
    method Open(q: Request) returns (problem: Option<Problem>, ghost before: Run)
      requires Valid() && q == request && run == Start(q)
      modifies `calls, `trace, `run, `syncPlan, log
      ensures Valid()
      ensures problem.None? ==> run == AfterPlan(q, Start(q).(plan := syncPlan))
      ensures problem.Some? ==> Refused(before, problem.value)
    {
      hide Next, Observe, PlanRead, Raise;
      before := run;
      AfterBegin(setup, q, before, Failed(Upstream));
      var ok := Record(Row(false, q.uuid, Started, PayloadHash(setup, q)));
      AfterBegin(setup, q, before, Appended(ok));
      if !ok {
        return Some(Unwritable), before;
      }
      ghost var planning := run;
      if setup.hasPeer && setup.explicitSync {
        AfterPlanFirst(setup, q, planning, Failed(Upstream));
      }
      var plan, a := SyncPreflight();
      if setup.hasPeer && setup.explicitSync {
        AfterPlanFirst(setup, q, planning, a);
        before := planning;
      }
      if plan.Failure? {
        return Some(plan.error), before;
      }
      syncPlan := plan.value;
      assert Start(q).(plan := None) == Start(q);
      return None, before;
    }

    /** The comparison with the caller's revision, and whether a last DNAT rule is about to go. */
    method Compare(q: Request) returns (problem: Option<Problem>, ghost before: Run)
      requires Valid() && q == request && run == AfterPlan(q, Start(q).(plan := syncPlan))
      requires peerDeleteRevision.None?
      modifies `calls, `trace, `run, `peerDeleteRevision
      ensures Valid()
      ensures problem.None? ==> run == Start(q).(pc := Write, plan := syncPlan, peerRevision := peerDeleteRevision)
      ensures problem.Some? ==> Refused(before, problem.value)
    {
      hide Next, Observe, ObjectRead, IdsRead, Hash, Raise;
      before := run;
      if q.action.Create? {
        return None, before;
      }
      AfterCurrent(setup, q, before, Failed(Upstream));
      var current, a := Get(Local, q.uuid);
      AfterCurrent(setup, q, before, a);
      if current.Failure? {
        return Some(current.error), before;
      }
      if Hash(setup, current.value) != q.revision {
        return Some(Conflicting), before;
      }
      if q.action.Delete? && setup.resource.PortForward? && setup.hasPeer && setup.explicitSync {
        problem, before := QualifyLastRule(q);
        return;
      }
      return None, before;
    }

    /** A last rule may be completed on the peer later only if the peer holds that very rule alone. */
    method QualifyLastRule(q: Request) returns (problem: Option<Problem>, ghost before: Run)
      requires Valid() && q == request && run == Start(q).(pc := LocalIds, plan := syncPlan)
      requires peerDeleteRevision.None?
      modifies `calls, `trace, `run, `peerDeleteRevision
      ensures Valid()
      ensures problem.None? ==> run == Start(q).(pc := Write, plan := syncPlan, peerRevision := peerDeleteRevision)
      ensures problem.Some? ==> Refused(before, problem.value)
    {
      hide Next, Observe, ObjectRead, IdsRead, Hash, Raise;
      before := run;
      AfterLocalIds(setup, q, before, Failed(Upstream));
      var ours, a := UserRules(Local);
      AfterLocalIds(setup, q, before, a);
      if ours.Failure? {
        return Some(ours.error), before;
      }
      if ours.value != {q.uuid} {
        return None, before;
      }
      before := run;
      AfterPeerObject(setup, q, before, Failed(Upstream));
      var there, b := Get(Peer, q.uuid);
      AfterPeerObject(setup, q, before, b);
      if there.Failure? {
        return Some(there.error), before;
      }
      var revision := Hash(setup, there.value);
      if revision != q.revision {
        return Some(Conflicting), before;
      }
      before := run;
      AfterPeerIds(setup, q, before, Failed(Upstream));
      var theirs, c := UserRules(Peer);
      AfterPeerIds(setup, q, before, c);
      if theirs.Failure? {
        return Some(theirs.error), before;
      }
      if theirs.value != {q.uuid} {
        return Some(Conflicting), before;
      }
      peerDeleteRevision := Some(revision);
      return None, before;
    }

    // ---- Write, apply, readback -------------------------------------------------

    /** The run was stopped by a problem after `before`, which the result and the caller's variables describe. */
    ghost predicate Raised(before: Run, p: Problem, accepted: bool, uuid: string, report: Report)
      reads this
    {
      && run == Raise(request, before, p)
      && before.report == report && before.accepted == accepted && before.uuid == uuid
      && !before.undoing && before.plan == syncPlan && before.peerRevision == peerDeleteRevision
    }

    method WriteAndVerify(q: Request, expected: Option<Fields>, result: WriteResult)
      returns (problem: Option<Problem>, accepted: bool, uuid: string, ghost before: Run)
      requires Valid() && q == request && expected == Expected(setup, q) && setup.attempts > 0
      requires run == Start(q).(pc := Write, plan := syncPlan, peerRevision := peerDeleteRevision)
      requires result.Value() == Start(q).report
      modifies `calls, `trace, `run, log, result
      ensures Valid()
      ensures problem.None? ==> run.pc.Close? && run.report == result.Value() && run.uuid == uuid && !run.undoing
      ensures problem.Some? ==> Raised(before, problem.value, accepted, uuid, result.Value())
    {
      hide Next, Observe, PostProblem, ValidUuid, Expected, Raise, VerifyRead, VerifyCall, BeginSync, EndSync;
      before, accepted, uuid := run, false, q.uuid;
      AfterWrite(setup, q, before, Failed(Upstream));
      var answer := Send(Post(Local, MainVerb(q.action), q.uuid, MainWrite));
      AfterWrite(setup, q, before, answer);
      problem := PostProblem(answer);
      if problem.Some? {
        return;
      }
      if q.action.Create? {
        PostNeedsReply(answer);
        var id := ValidUuid(answer.reply.uuid);
        if id.None? {
          problem := Some(Faulty(Upstream));
          return;
        }
        uuid := id.value;
        result.uuid := uuid;
      }
      accepted := true;
      problem, before := ApplyAndVerify(q, expected, uuid, result);
    }

    /** The run once the write was acknowledged. */
    ghost predicate Accepted(q: Request, m: Run, pc: Pc, uuid: string, report: Report)
      reads this
    {
      && m == Start(q).(pc := pc, accepted := true, uuid := uuid, plan := syncPlan, peerRevision := peerDeleteRevision,
                        report := report)
    }

    method ApplyAndVerify(q: Request, expected: Option<Fields>, uuid: string, result: WriteResult)
      returns (problem: Option<Problem>, ghost before: Run)
      requires Valid() && q == request && expected == Expected(setup, q) && setup.attempts > 0
      requires Accepted(q, run, ApplyWrite, uuid, result.Value()) && result.Value() == Start(q).report.(uuid := uuid)
      modifies `calls, `trace, `run, log, result
      ensures Valid()
      ensures problem.None? ==> run.pc.Close? && run.report == result.Value() && run.uuid == uuid && !run.undoing
      ensures problem.Some? ==> Raised(before, problem.value, true, uuid, result.Value())
    {
      hide Next, Observe, PostProblem, Expected, Raise, VerifyRead, VerifyCall, BeginSync, EndSync;
      before := run;
      AfterApply(setup, q, before, Failed(Upstream));
      var answer := Send(Post(Local, Apply, "", MainApply));
      AfterApply(setup, q, before, answer);
      problem := PostProblem(answer);
      if problem.Some? {
        return;
      }
      result.applied := true;
      before := run;
      AfterReadback(setup, q, before, Failed(Upstream));
      var holds, a := Verify(Local, uuid, expected);
      AfterReadback(setup, q, before, a);
      if holds.Failure? {
        return Some(holds.error), before;
      }
      if !holds.value {
        return Some(Faulty(Upstream)), before;
      }
      result.verified := true;
      Synchronise(q, expected, uuid, result, before.(report := result.Value()));
    }

    /** The synchronisation of a verified write, and whether the whole write succeeded. */
    method Synchronise(q: Request, expected: Option<Fields>, uuid: string, result: WriteResult, ghost base: Run)
      requires Valid() && q == request && expected == Expected(setup, q) && setup.attempts > 0
      requires run == BeginSync(setup, base) && base.report == result.Value() && base.uuid == uuid && !base.undoing
      requires base.plan == syncPlan && base.peerRevision == peerDeleteRevision
      requires result.sync.None? && result.error == NoError
      modifies `calls, `trace, `run, log, result
      ensures Valid() && run.pc.Close? && run.report == result.Value() && run.uuid == uuid && !run.undoing
    {
      hide Next, Observe, Replay, Legal, Recorded, Appends, AllAppended, Execution, Expected, VerifyRead, VerifyCall;
      var sync := Sync(uuid, expected);
      result.sync := sync;
      result.ok := sync.None? || sync.value.verified;
      if !result.ok {
        result.error := HaUnverified;
      }
    }

    // ---- Rollback ---------------------------------------------------------------

    /** The rollback of a create whose apply was rejected. */
    method Undo(q: Request, uuid: string, result: WriteResult)
      requires Valid() && q == request && setup.attempts > 0
      requires run.pc.UndoDelete? && run.undoing && run.uuid == uuid && run.report == result.Value()
      requires run.plan == syncPlan && run.peerRevision == peerDeleteRevision
      requires result.rollback == NO_ROLLBACK.(attempted := true)
      modifies `calls, `trace, `run, log, result
      ensures Valid() && run.pc.Close? && run.report == result.Value() && run.uuid == uuid
    {
      hide Valid, Next, Observe, VerifyRead, BeginSync, EndSync;
      var undone := DeleteAndApply(q, uuid);
      if !undone {
        return;
      }
      ghost var before := run;
      AfterUndoRead(setup, q, before, Failed(Upstream));
      var gone, a := Verify(Local, uuid, None);
      AfterUndoRead(setup, q, before, a);
      if gone.Failure? {
        return;
      }
      result.rollback := result.rollback.(localVerified := gone.value);
      ConfirmUndo(q, uuid, result, before.(report := result.Value()));
    }

    /** The two POSTs of a rollback. */
    method DeleteAndApply(q: Request, uuid: string) returns (undone: bool)
      requires Valid() && q == request && run.pc.UndoDelete? && run.uuid == uuid
      modifies `calls, `trace, `run
      ensures Valid() && run == old(run).(pc := if undone then UndoRead else Close)
    {
      hide Next, Observe, PostProblem, Replay, Legal, Recorded, Appends, AllAppended, Execution;
      undone := false;
      ghost var before := run;
      AfterUndo(setup, q, before, Failed(Upstream));
      var deleted := Send(Post(Local, Del, uuid, RollbackDelete));
      AfterUndo(setup, q, before, deleted);
      if PostProblem(deleted).Some? {
        return;
      }
      before := run;
      AfterUndo(setup, q, before, Failed(Upstream));
      var applied := Send(Post(Local, Apply, "", RollbackApply));
      AfterUndo(setup, q, before, applied);
      undone := PostProblem(applied).None?;
    }

    method ConfirmUndo(q: Request, uuid: string, result: WriteResult, ghost base: Run)
      requires Valid() && q == request && setup.attempts > 0
      requires run == BeginSync(setup, base) && base.undoing && base.uuid == uuid && base.report == result.Value()
      requires base.plan == syncPlan && base.peerRevision == peerDeleteRevision
      requires result.rollback.peerVerified.None? && !result.rollback.verified
      modifies `calls, `trace, `run, log, result
      ensures Valid() && run.pc.Close? && run.report == result.Value() && run.uuid == uuid
    {
      hide Next, Observe, VerifyRead, VerifyCall;
      var peer := Sync(uuid, None);
      var seen := if peer.Some? then Some(peer.value.verified) else None;
      result.rollback := result.rollback.(
        peerVerified := seen, verified := result.rollback.localVerified && (!setup.hasPeer || seen == Some(true)));
    }

    // ---- The whole execution ----------------------------------------------------

    /** Everything between the "started" and the final row. */
    method Attempt(q: Request, result: WriteResult)
      returns (problem: Option<Problem>, accepted: bool, uuid: string, ghost before: Run)
      requires Valid() && q == request && run == Start(q) && setup.attempts > 0
      requires result.Value() == Start(q).report && peerDeleteRevision.None?
      modifies `calls, `trace, `run, `syncPlan, `peerDeleteRevision, log, result
      ensures Valid()
      ensures problem.None? ==> run.pc.Close? && run.report == result.Value() && run.uuid == uuid
      ensures problem.Some? ==>
                && run == Raise(q, before, problem.value) && before.report == result.Value()
                && before.accepted == accepted && before.uuid == uuid
                && (accepted ==> before.plan == syncPlan && before.peerRevision == peerDeleteRevision)
    {
      hide Next, Observe, Raise, AfterPlan, Expected;
      accepted, uuid := false, q.uuid;
      problem, before := Open(q);
      if problem.Some? {
        return;
      }
      problem, before := Compare(q);
      if problem.Some? {
        return;
      }
      problem, accepted, uuid, before := WriteAndVerify(q, Expected(setup, q), result);
    }

    /** `_execute`. */
    method ExecuteLocked(q: Request) returns (report: Report)
      requires setup.attempts > 0
      modifies this, log
      ensures Valid() && request == q && Complete(Execution(setup, q), trace)
      ensures report == Replay(Execution(setup, q), trace).report
      ensures written == old(log.data) && rows == old(log.appends)
    {
      hide Next, Observe, Raise, Expected;
      peerDeleteRevision := None;
      request, trace, run, written, rows := q, [], Start(q), log.data, log.appends;
      var result := new WriteResult(q.uuid);
      var problem, accepted, uuid, before := Attempt(q, result);
      if problem.Some? {
        Handle(q, problem.value, accepted, uuid, result, before);
      }
      FinalRow(q, uuid, result);
      NothingAfterFinish(setup, q, run);
      return result.Value();
    }

    /** The exception handler. */
    method Handle(q: Request, problem: Problem, accepted: bool, uuid: string, result: WriteResult, ghost before: Run)
      requires Valid() && q == request && setup.attempts > 0
      requires run == Raise(q, before, problem) && before.report == result.Value()
      requires before.accepted == accepted && before.uuid == uuid
      requires accepted ==> before.plan == syncPlan && before.peerRevision == peerDeleteRevision
      modifies `calls, `trace, `run, log, result
      ensures Valid() && run.pc.Close? && run.report == result.Value() && run.uuid == uuid
    {
      hide Next, Observe, Raise;
      RaisedWhere(q, before, problem);
      result.error := Tag(problem);
      if accepted && q.action.Create? && problem.Rejected? {
        result.rollback := NO_ROLLBACK.(attempted := true);
        Undo(q, uuid, result);
      }
    }

    method FinalRow(q: Request, uuid: string, result: WriteResult)
      requires Valid() && q == request && run.pc.Close? && run.report == result.Value() && run.uuid == uuid
      modifies `trace, `run, log, result
      ensures Valid() && run.pc.Finished? && run.report == result.Value()
    {
      hide Next, Observe, Replay, Legal, Recorded, Appends, AllAppended, Execution, PayloadHash;
      ghost var closing := run;
      AfterClose(setup, q, closing, Failed(Upstream));
      var ok := Record(Row(false, uuid, if result.ok then Ok else Error, PayloadHash(setup, q)));
      AfterClose(setup, q, closing, Appended(ok));
      if ok {
        result.audited := true;
      } else {
        result.ok := false;
        result.error := AuditError;
      }
    }

    /**
     `execute`: malformed identifiers and revisions, and payloads without the resource's object, are refused
     before anything is sent or recorded.
     */
    method Execute(q: Request) returns (r: Result<Report, BadRequest>)
      requires setup.attempts > 0
      modifies this, log
      ensures Admit(setup, q).Failure? ==>
                && r == Failure(Admit(setup, q).error)
                && calls == old(calls) && log.data == old(log.data) && log.appends == old(log.appends)
      ensures Admit(setup, q).Success? ==>
                && var admitted := Admit(setup, q).value;
                && Complete(Execution(setup, admitted), trace)
                && r == Success(Replay(Execution(setup, admitted), trace).report)
                && old(log.data) <= log.data
                && (AllAppended(trace) ==> log.data == old(log.data) + Recorded(log.render, old(log.appends), trace))
    {
      hide Next, Observe;
      var admitted := q;
      if !q.action.Create? {
        var uuid := ValidUuid(Str(q.uuid));
        if uuid.None? {
          return Failure(InvalidUuid);
        }
        if !ValidRevision(q.revision) {
          return Failure(InvalidRevision);
        }
        admitted := q.(uuid := uuid.value);
      }
      peerDeleteRevision := None;
      if !HasObject(setup, q) {
        return Failure(MissingObject);
      }
      var report := ExecuteLocked(admitted);
      return Success(report);
    }

    lemma CleanupIsExplicit()
      requires Valid() && run.peerRevision.Some?
      ensures ExplicitPair(setup)
    {
      AlwaysConsistent(setup, request, trace);
    }
  }

  lemma Regroup(a: string, b: string, c: string)
    ensures a + (b + (c + "\n")) == a + b + c + "\n"
  {
  }

  lemma PostNeedsReply(a: Answer)
    ensures PostProblem(a).None? ==> a.Replied? && a.reply.Reply?
  {
  }

  lemma RaisedWhere(q: Request, m: Run, p: Problem)
    ensures var n := Raise(q, m, p);
            if m.accepted && q.action.Create? && p.Rejected?
            then n == m.(pc := UndoDelete, undoing := true,
                         report := m.report.(error := Tag(p), rollback := NO_ROLLBACK.(attempted := true)))
            else n == m.(pc := Close, report := m.report.(error := Tag(p)))
  {
  }

  lemma NothingAfterFinish(s: Setup, q: Request, m: Run)
    ensures m.pc.Finished? ==> Next(s, q, m).None?
  {
  }

  lemma NotYetLeadsOn(s: Setup, q: Request, m: Run, attempt: nat)
    ensures attempt < s.attempts ==>
              NotYet(s, q, m, attempt)
              == m.(pc := SyncRead(attempt + 1), sync := m.sync.(waits := m.sync.waits + attempt))
    ensures attempt >= s.attempts ==>
              NotYet(s, q, m, attempt) == if Wanted(s, q, m).None? && m.peerRevision.Some?
                                          then m.(pc := CleanPlan, sync := m.sync.(cleanup := Some(NO_CLEANUP)))
                                          else EndSync(m)
  {
  }

  lemma WantedStays(s: Setup, q: Request, m: Run, n: Run)
    requires m.undoing == n.undoing
    ensures Wanted(s, q, m) == Wanted(s, q, n)
  {
  }

}
