/**
 The verified write protocol of one execution, as a machine that makes one firewall or audit call at a
 time. `Next` is the call that is due and `Observe` what its answer leads to. Nothing is assumed about
 the answers: any call may be acknowledged, rejected, or fail with or without having taken effect.
 */
module Protocol {
  import opened Wrappers
  import opened JsonTrees
  import opened OptionTrees
  import opened Preflight
  import opened Histories
  import Canonical
  import Listings
  import Matching
  import Text

  // ---- Requests -------------------------------------------------------------

  datatype Action = Create | Update | Delete

  /**
   A configured writer: `explicitSync` is the xmlrpc_pf mode, `attempts` the bound on peer reads, `digest`
   the hash behind revisions and `show` Python's rendering of lists.
   */
  datatype Setup = Setup(
    resource: Resource, hasPeer: bool, explicitSync: bool, attempts: nat,
    digest: string -> string, show: Json -> string)

  /** A request; `payload` is Null for a delete. */
  datatype Request = Request(action: Action, payload: Json, uuid: string, revision: string)

  predicate ExplicitPair(s: Setup) {
    s.hasPeer && s.explicitSync
  }

  function Key(resource: Resource): string {
    if resource.Aliases? then "alias" else "rule"
  }

  /** The object that readback must match; None asks for absence. */
  function Expected(s: Setup, q: Request): Option<Fields> {
    match q.payload
    case Obj(f) => (match Lookup(f, Key(s.resource)) case Some(Obj(g)) => Some(g) case _ => None)
    case _ => None
  }

  // ---- Calls and answers ----------------------------------------------------

  datatype Node = Local | Peer

  datatype Verb = Add | Set | Del | Apply | Restart

  /** Why a POST is sent. */
  datatype Purpose = MainWrite | MainApply | SyncPush | PeerDelete | PeerApply | RollbackDelete | RollbackApply

  datatype RowResult = Started | Ok | Error

  /** An audit row; `peerDelete` marks the row that precedes a peer clean-up. */
  datatype Row = Row(peerDelete: bool, target: string, result: RowResult, payloadHash: string)

  datatype Call =
    | Append(row: Row)
    | Inspect
    | ReadObject(node: Node, uuid: string)
    | ReadListing(node: Node)
    | Post(node: Node, verb: Verb, uuid: string, purpose: Purpose)

  datatype Fault = Auth | Timeout | Upstream

  /** A decoded POST answer: not an object, or its validations flag, status markers and uuid. */
  datatype Reply = NotObject | Reply(validations: bool, markers: seq<string>, uuid: Json)

  datatype Answer =
    | Appended(ok: bool)
    | Surveyed(survey: Preflight.Survey)
    | Object(raw: Json)
    | Rows(listing: Listings.Listing)
    | Replied(reply: Reply)
    | Failed(fault: Fault)

  predicate Fits(call: Call, answer: Answer) {
    match call
    case Append(_) => answer.Appended?
    case Inspect => answer.Surveyed? || answer.Failed?
    case ReadObject(_, _) => answer.Object? || answer.Failed?
    case ReadListing(_) => answer.Rows? || answer.Failed?
    case Post(_, _, _, _) => answer.Replied? || answer.Failed?
  }

  // ---- Exceptions -----------------------------------------------------------

  datatype Problem = Conflicting | Unsafe | Rejected(validations: bool) | Faulty(fault: Fault) | Unwritable

  datatype ErrorTag =
    | NoError | ConflictError | UnsafeError | ValidationError | AuthError | TimeoutError | UpstreamError
    | HaUnverified | AuditError

  function Tag(p: Problem): ErrorTag {
    match p
    case Unsafe => UnsafeError
    case Conflicting => ConflictError
    case Faulty(Auth) => AuthError
    case Faulty(Timeout) => TimeoutError
    case Rejected(true) => ValidationError
    case _ => UpstreamError
  }

  // ---- Reading answers ------------------------------------------------------

  /** `require_success`: only an object without validations whose markers all say success. */
  predicate Acknowledges(reply: Reply) {
    && reply.Reply?
    && !reply.validations
    && reply.markers != []
    && forall m :: m in reply.markers ==>
         Text.Lower(Text.Strip(m)) in {"ok", "saved", "deleted", "done", "success"}
  }

  /** The problem with a POST answer, if any. */
  function PostProblem(a: Answer): Option<Problem> {
    match a
    case Replied(reply) =>
      if Acknowledges(reply) then None else Some(Rejected(reply.Reply? && reply.validations))
    case Failed(fault) => Some(Faulty(fault))
    case _ => Some(Faulty(Upstream))
  }

  predicate IsHex(c: char) {
    '0' <= c <= '9' || 'a' <= c <= 'f'
  }

  /** A canonical UUID, lower-cased; None for anything else. */
  function ValidUuid(v: Json): Option<string> {
    if !v.Str? then None
    else
      var s := Text.Lower(v.text);
      if |s| == 36 && (forall i :: 0 <= i < 36 ==> if i in {8, 13, 18, 23} then s[i] == '-' else IsHex(s[i]))
      then Some(s) else None
  }

  predicate ValidRevision(s: string) {
    |s| == 64 && forall i :: 0 <= i < 64 ==> IsHex(s[i])
  }

  /** Counters in an alias that are not configuration. */
  const RUNTIME_FIELDS := {
    "last_updated", "eval_match", "eval_nomatch", "in_pass_b", "in_pass_p", "out_pass_b", "out_pass_p",
    "in_block_b", "in_block_p", "out_block_b", "out_block_p"}

  function WithoutRuntime(f: Fields): Fields {
    if f.Empty? then Empty
    else if f.key in RUNTIME_FIELDS then WithoutRuntime(f.rest)
    else Field(f.key, f.value, WithoutRuntime(f.rest))
  }

  /** `get`: the stored values of an object, or None where it is missing. */
  function Detail(s: Setup, raw: Json): Option<Json> {
    if !raw.Obj? || raw.fields.Empty? then None
    else if !s.resource.Aliases? then Some(Selected(raw))
    else match Selected(raw)
         case Obj(f) => Some(Obj(WithoutRuntime(f)))
         case _ => None
  }

  function Hash(s: Setup, detail: Json): string {
    Canonical.Revision(detail, s.digest)
  }

  /** The object that was read, or what the source raises. */
  function ObjectRead(s: Setup, a: Answer): Result<Json, Problem> {
    match a
    case Object(raw) => (match Detail(s, raw) case Some(d) => Success(d) case None => Failure(Faulty(Upstream)))
    case Failed(fault) => Failure(Faulty(fault))
    case _ => Failure(Faulty(Upstream))
  }

  function ListingRead(s: Setup, a: Answer): Result<seq<Json>, Problem> {
    match a
    case Rows(listing) =>
      (match Listings.Search(s.resource.PortForward?, listing)
       case Some(rows) => Success(rows)
       case None => Failure(Faulty(Upstream)))
    case Failed(fault) => Failure(Faulty(fault))
    case _ => Failure(Faulty(Upstream))
  }

  /** `_dnat_ids` over listed rows: the user rules, or None where a row is neither a rule nor a lockout. */
  function DnatIds(rows: seq<Json>): Option<set<string>> {
    if rows == [] then Some({})
    else match DnatIds(rows[1..])
         case None => None
         case Some(ids) =>
           if rows[0].Str? && Listings.IsLockout(rows[0].text) then Some(ids)
           else match ValidUuid(rows[0])
                case Some(u) => Some({u} + ids)
                case None => None
  }

  function IdsRead(s: Setup, a: Answer): Result<set<string>, Problem> {
    match ListingRead(s, a)
    case Failure(p) => Failure(p)
    case Success(rows) => (match DnatIds(rows) case Some(ids) => Success(ids) case None => Failure(Unsafe))
  }

  function PlanRead(s: Setup, a: Answer): Result<Plan, Problem> {
    match a
    case Surveyed(survey) =>
      (match Decide(s.resource, survey, s.show) case Some(plan) => Success(plan) case None => Failure(Unsafe))
    case Failed(fault) => Failure(Faulty(fault))
    case _ => Failure(Faulty(Upstream))
  }

  /** `verify`: does the node hold what is expected, or lack the object where absence is expected? */
  function VerifyRead(s: Setup, uuid: string, expected: Option<Fields>, a: Answer): Result<bool, Problem> {
    match expected
    case None =>
      (match ListingRead(s, a)
       case Failure(p) => Failure(p)
       case Success(rows) => Success(Listings.LacksRow(rows, uuid)))
    case Some(want) =>
      (match ObjectRead(s, a)
       case Failure(p) => Failure(p)
       case Success(d) => Success(Selected(d).Obj? && Matching.Matches(d, want, s.show)))
  }

  function VerifyCall(node: Node, uuid: string, expected: Option<Fields>): Call {
    if expected.None? then ReadListing(node) else ReadObject(node, uuid)
  }

  // ---- Run state ------------------------------------------------------------

  datatype Cleanup = Cleanup(attempted: bool, deleted: bool, applied: bool, verified: bool)

  /** `waits` counts the waiting time in units of the configured backoff. */
  datatype Sync = Sync(triggered: bool, verified: bool, attempts: nat, waits: nat, cleanup: Option<Cleanup>)

  datatype Rollback = Rollback(attempted: bool, verified: bool, localVerified: bool, peerVerified: Option<bool>)

  datatype Report = Report(
    ok: bool, uuid: string, error: ErrorTag, applied: bool, verified: bool,
    sync: Option<Sync>, rollback: Rollback, audited: bool)

  datatype Pc =
    | Begin | PlanFirst | ReadCurrent | LocalIds | PeerObject | PeerIds | Write | ApplyWrite | Readback
    | SyncPlan | SyncRestart | SyncRead(attempt: nat)
    | CleanPlan | CleanLocalIds | CleanPeerIds | CleanPeerObject | CleanAppend | CleanDelete | CleanApply
    | CleanReadLocal | CleanReadPeer
    | UndoDelete | UndoApply | UndoRead
    | Close | Finished

  /** `sync` is the synchronisation result being built; `undoing` tells a rollback's from the main one. */
  datatype Run = Run(
    pc: Pc, uuid: string, accepted: bool, plan: Option<Plan>, peerRevision: Option<string>,
    undoing: bool, sync: Sync, report: Report)

  const NO_SYNC := Sync(false, false, 0, 0, None)
  const NO_ROLLBACK := Rollback(false, false, false, None)
  const NO_CLEANUP := Cleanup(false, false, false, false)

  function Start(q: Request): Run {
    Run(Begin, q.uuid, false, None, None, false, NO_SYNC,
        Report(false, q.uuid, NoError, false, false, None, NO_ROLLBACK, false))
  }

  /** Absence is expected after a delete, and of a create that is being undone. */
  function Wanted(s: Setup, q: Request, m: Run): Option<Fields> {
    if m.undoing then None else Expected(s, q)
  }

  function MainVerb(action: Action): Verb {
    match action
    case Create => Add
    case Update => Set
    case Delete => Del
  }

  function PayloadHash(s: Setup, q: Request): string {
    Canonical.Revision(q.payload, s.digest)
  }

  /** The call that is due. */
  function Next(s: Setup, q: Request, m: Run): Option<Call> {
    match m.pc
    case Begin => Some(Append(Row(false, m.uuid, Started, PayloadHash(s, q))))
    case PlanFirst | SyncPlan | CleanPlan => Some(Inspect)
    case ReadCurrent => Some(ReadObject(Local, m.uuid))
    case LocalIds | CleanLocalIds => Some(ReadListing(Local))
    case PeerObject | CleanPeerObject => Some(ReadObject(Peer, m.uuid))
    case PeerIds | CleanPeerIds => Some(ReadListing(Peer))
    case Write => Some(Post(Local, MainVerb(q.action), m.uuid, MainWrite))
    case ApplyWrite => Some(Post(Local, Apply, "", MainApply))
    case Readback => Some(VerifyCall(Local, m.uuid, Expected(s, q)))
    case SyncRestart => Some(Post(Local, Restart, "", SyncPush))
    case SyncRead(_) => Some(VerifyCall(Peer, m.uuid, Wanted(s, q, m)))
    case CleanAppend =>
      Some(Append(Row(true, m.uuid, Started, if m.peerRevision.Some? then m.peerRevision.value else "")))
    case CleanDelete => Some(Post(Peer, Del, m.uuid, PeerDelete))
    case CleanApply => Some(Post(Peer, Apply, "", PeerApply))
    case CleanReadLocal => Some(ReadListing(Local))
    case CleanReadPeer => Some(ReadListing(Peer))
    case UndoDelete => Some(Post(Local, Del, m.uuid, RollbackDelete))
    case UndoApply => Some(Post(Local, Apply, "", RollbackApply))
    case UndoRead => Some(ReadListing(Local))
    case Close => Some(Append(Row(false, m.uuid, if m.report.ok then Ok else Error, PayloadHash(s, q))))
    case Finished => None
  }

  // ---- Transitions ----------------------------------------------------------

  /** An exception: only a rejected apply of an acknowledged create is undone. */
  function Raise(q: Request, m: Run, p: Problem): Run {
    var failed := m.report.(error := Tag(p));
    if m.accepted && q.action.Create? && p.Rejected?
    then m.(pc := UndoDelete, undoing := true, report := failed.(rollback := NO_ROLLBACK.(attempted := true)))
    else m.(pc := Close, report := failed)
  }

  function AfterPlan(q: Request, m: Run): Run {
    m.(pc := if q.action.Create? then Write else ReadCurrent)
  }

  /** `_sync` starts; without a peer there is nothing to do. */
  function BeginSync(s: Setup, m: Run): Run {
    if s.hasPeer then m.(pc := if s.explicitSync then SyncPlan else SyncRead(1), sync := NO_SYNC)
    else if m.undoing then
      m.(pc := Close, report := m.report.(rollback := m.report.rollback.(verified := m.report.rollback.localVerified)))
    else m.(pc := Close, report := m.report.(ok := true))
  }

  /** `_sync` returns `m.sync`. */
  function EndSync(m: Run): Run {
    if m.undoing then
      var r := m.report.rollback.(peerVerified := Some(m.sync.verified));
      m.(pc := Close, report := m.report.(rollback := r.(verified := r.localVerified && m.sync.verified)))
    else
      m.(pc := Close, report := m.report.(
          sync := Some(m.sync), ok := m.sync.verified,
          error := if m.sync.verified then m.report.error else HaUnverified))
  }

  /** One read of the peer did not show what is wanted. */
  function NotYet(s: Setup, q: Request, m: Run, attempt: nat): Run {
    if attempt < s.attempts then
      m.(pc := SyncRead(attempt + 1), sync := m.sync.(waits := m.sync.waits + attempt))
    else if Wanted(s, q, m).None? && m.peerRevision.Some? then
      m.(pc := CleanPlan, sync := m.sync.(cleanup := Some(NO_CLEANUP)))
    else EndSync(m)
  }

  function WithCleanup(m: Run, c: Cleanup): Run {
    m.(sync := m.sync.(cleanup := Some(c)))
  }

  function CleanupOf(m: Run): Cleanup {
    match m.sync.cleanup
    case Some(c) => c
    case None => NO_CLEANUP
  }

  /** What an answer means for the state that was waiting for it. */
  datatype Signal = Good | Other | Planned(plan: Plan) | Created(uuid: string) | Poor(problem: Problem)

  function Judge(outcome: Result<bool, Problem>, otherwise: Problem): Signal {
    match outcome
    case Failure(p) => Poor(p)
    case Success(holds) => if holds then Good else Poor(otherwise)
  }

  function HashIs(s: Setup, a: Answer, revision: string): Result<bool, Problem> {
    match ObjectRead(s, a)
    case Failure(p) => Failure(p)
    case Success(detail) => Success(Hash(s, detail) == revision)
  }

  function IdsAre(s: Setup, a: Answer, ids: set<string>): Result<bool, Problem> {
    match IdsRead(s, a)
    case Failure(p) => Failure(p)
    case Success(found) => Success(found == ids)
  }

  function SamePlan(s: Setup, a: Answer, plan: Option<Plan>): Result<bool, Problem> {
    match PlanRead(s, a)
    case Failure(p) => Failure(p)
    case Success(found) => Success(Some(found) == plan)
  }

  function PostSignal(a: Answer): Signal {
    match PostProblem(a)
    case Some(p) => Poor(p)
    case None => Good
  }

  function WriteSignal(q: Request, a: Answer): Signal {
    if PostProblem(a).Some? || !q.action.Create? then PostSignal(a)
    else match ValidUuid(a.reply.uuid)
         case Some(u) => Created(u)
         case None => Poor(Faulty(Upstream))
  }

  function AppendSignal(a: Answer): Signal {
    if a == Appended(true) then Good else Poor(Unwritable)
  }

  function Decode(s: Setup, q: Request, m: Run, a: Answer): Signal {
    match m.pc
    case Begin | CleanAppend | Close => AppendSignal(a)
    case PlanFirst => (match PlanRead(s, a) case Success(plan) => Planned(plan) case Failure(p) => Poor(p))
    case ReadCurrent | PeerObject => Judge(HashIs(s, a, q.revision), Conflicting)
    case LocalIds => (match IdsAre(s, a, {m.uuid}) case Success(false) => Other case other => Judge(other, Conflicting))
    case PeerIds => Judge(IdsAre(s, a, {m.uuid}), Conflicting)
    case Write => WriteSignal(q, a)
    case Readback => Judge(VerifyRead(s, m.uuid, Expected(s, q), a), Faulty(Upstream))
    case SyncRead(_) => Judge(VerifyRead(s, m.uuid, Wanted(s, q, m), a), Faulty(Upstream))
    case SyncPlan | CleanPlan => Judge(SamePlan(s, a, m.plan), Unsafe)
    case CleanLocalIds => Judge(IdsAre(s, a, {}), Unsafe)
    case CleanPeerIds => Judge(IdsAre(s, a, {m.uuid}), Unsafe)
    case CleanPeerObject =>
      if m.peerRevision.Some? then Judge(HashIs(s, a, m.peerRevision.value), Conflicting) else Poor(Conflicting)
    case CleanReadLocal | CleanReadPeer => Judge(VerifyRead(s, m.uuid, None, a), Faulty(Upstream))
    case UndoRead =>
      (match VerifyRead(s, m.uuid, None, a)
       case Failure(p) => Poor(p)
       case Success(gone) => if gone then Good else Other)
    case _ => PostSignal(a)
  }

  /** From the first audit row to the decision to write. */
  function OpeningMove(s: Setup, q: Request, m: Run, g: Signal): Run {
    match m.pc
    case Begin =>
      if !g.Good? then MoveFailed(q, m, g)
      else if ExplicitPair(s) then m.(pc := PlanFirst) else AfterPlan(q, m)
    case PlanFirst =>
      if g.Planned? then AfterPlan(q, m.(plan := Some(g.plan))) else MoveFailed(q, m, g)
    case ReadCurrent =>
      if !g.Good? then MoveFailed(q, m, g)
      else m.(pc := if q.action.Delete? && s.resource.PortForward? && ExplicitPair(s) then LocalIds else Write)
    case LocalIds =>
      if g.Good? then m.(pc := PeerObject) else if g.Other? then m.(pc := Write) else MoveFailed(q, m, g)
    case PeerObject =>
      if g.Good? then m.(pc := PeerIds) else MoveFailed(q, m, g)
    case PeerIds =>
      if g.Good? then m.(pc := Write, peerRevision := Some(q.revision)) else MoveFailed(q, m, g)
    case _ => m
  }

  /** Write, apply and local readback. */
  function WriteMove(s: Setup, q: Request, m: Run, g: Signal): Run {
    match m.pc
    case Write =>
      if g.Created? then m.(pc := ApplyWrite, accepted := true, uuid := g.uuid, report := m.report.(uuid := g.uuid))
      else if g.Good? then m.(pc := ApplyWrite, accepted := true)
      else MoveFailed(q, m, g)
    case ApplyWrite =>
      if g.Good? then m.(pc := Readback, report := m.report.(applied := true)) else MoveFailed(q, m, g)
    case Readback =>
      if g.Good? then BeginSync(s, m.(report := m.report.(verified := true))) else MoveFailed(q, m, g)
    case _ => m
  }

  /** `_sync` up to its last read of the peer. */
  function SyncMove(s: Setup, q: Request, m: Run, g: Signal): Run {
    match m.pc
    case SyncPlan =>
      if g.Good? then m.(pc := SyncRestart, sync := m.sync.(triggered := true)) else EndSync(m)
    case SyncRestart =>
      if g.Good? then m.(pc := SyncRead(1)) else EndSync(m)
    case SyncRead(attempt) =>
      var tried := m.(sync := m.sync.(attempts := attempt));
      if g.Good? then EndSync(tried.(sync := tried.sync.(verified := true))) else NotYet(s, q, tried, attempt)
    case _ => m
  }

  /** `_finish_last_dnat_delete`. */
  function CleanMove(s: Setup, q: Request, m: Run, g: Signal): Run {
    match m.pc
    case CleanPlan => if g.Good? then m.(pc := CleanLocalIds) else EndSync(m)
    case CleanLocalIds => if g.Good? then m.(pc := CleanPeerIds) else EndSync(m)
    case CleanPeerIds => if g.Good? then m.(pc := CleanPeerObject) else EndSync(m)
    case CleanPeerObject => if g.Good? then m.(pc := CleanAppend) else EndSync(m)
    case CleanAppend =>
      if g.Good? then WithCleanup(m, CleanupOf(m).(attempted := true)).(pc := CleanDelete) else EndSync(m)
    case CleanDelete =>
      if g.Good? then WithCleanup(m, CleanupOf(m).(deleted := true)).(pc := CleanApply) else EndSync(m)
    case CleanApply =>
      if g.Good? then WithCleanup(m, CleanupOf(m).(applied := true)).(pc := CleanReadLocal) else EndSync(m)
    case CleanReadLocal => if g.Good? then m.(pc := CleanReadPeer) else EndSync(m)
    case CleanReadPeer =>
      if g.Good? then
        var done := WithCleanup(m, CleanupOf(m).(verified := true));
        EndSync(done.(sync := done.sync.(verified := true)))
      else EndSync(m)
    case _ => m
  }

  /** The rollback of a create whose apply was rejected. */
  function UndoMove(s: Setup, q: Request, m: Run, g: Signal): Run {
    match m.pc
    case UndoDelete => m.(pc := if g.Good? then UndoApply else Close)
    case UndoApply => m.(pc := if g.Good? then UndoRead else Close)
    case UndoRead =>
      if g.Poor? then m.(pc := Close)
      else BeginSync(s, m.(report := m.report.(rollback := m.report.rollback.(localVerified := g.Good?))))
    case _ => m
  }

  /** The final audit row. */
  function CloseMove(s: Setup, q: Request, m: Run, g: Signal): Run {
    match m.pc
    case Close =>
      if g.Good? then m.(pc := Finished, report := m.report.(audited := true))
      else m.(pc := Finished, report := m.report.(ok := false, error := AuditError))
    case _ => m
  }

  function Move(s: Setup, q: Request, m: Run, g: Signal): Run {
    match m.pc
    case Begin | PlanFirst | ReadCurrent | LocalIds | PeerObject | PeerIds => OpeningMove(s, q, m, g)
    case Write | ApplyWrite | Readback => WriteMove(s, q, m, g)
    case SyncPlan | SyncRestart | SyncRead(_) => SyncMove(s, q, m, g)
    case UndoDelete | UndoApply | UndoRead => UndoMove(s, q, m, g)
    case Close | Finished => CloseMove(s, q, m, g)
    case _ => CleanMove(s, q, m, g)
  }

  function MoveFailed(q: Request, m: Run, g: Signal): Run {
    Raise(q, m, if g.Poor? then g.problem else Faulty(Upstream))
  }

  function Observe(s: Setup, q: Request, m: Run, a: Answer): Run {
    Move(s, q, m, Decode(s, q, m, a))
  }

  // ---- Histories ------------------------------------------------------------

  type History = seq<Event<Call, Answer>>

  /** One execution of a configured writer. */
  function Execution(s: Setup, q: Request): Machine<Run, Call, Answer> {
    Machine(Start(q), m => Next(s, q, m), Fits, (m, a) => Observe(s, q, m, a))
  }

}
