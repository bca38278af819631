/**
 One mutation of the catalog engine: save, apply, verify. Every call may answer anything; the contracts say
 what an outcome reveals about the calls that were sent.
 */
module Engine {
  import opened Wrappers
  import opened JsonTrees
  import opened Histories
  import CatalogValues
  import Canonical
  import DottedEdit
  import Listings
  import Matching
  import OptionTrees
  import Protocol
  import Text

  // ---- Modules and requests -------------------------------------------------

  /** A catalogued module: `applies` counts its apply paths, `applyAck` its own acknowledgement, if any. */
  datatype Spec = Spec(
    fields: CatalogValues.Catalogue, volatile: set<string>, key: string, applies: nat, persistenceOnly: bool,
    applyAck: Option<map<string, set<string>>>, singleton: bool, haSafe: bool)

  datatype Action = Create | Update | Delete

  datatype Request = Request(action: Action, values: Json, uuid: string, revision: string)

  datatype ErrorKind =
    | BadRequest | Unsupported | Conflict | InvalidResponse | Validation | Upstream | AuthDenied | TimedOut
    | Unverified | HaUnverified | HaUnqualified | AuditFailed

  datatype Stage = NoStage | Saving | Applying | Verifying

  /** `uuid` is reported once the save is confirmed. */
  datatype Failed = Failed(kind: ErrorKind, partial: bool, stage: Stage, uuid: Option<string>, auditFailure: bool)

  datatype Done = Done(uuid: string, applied: bool, secretChange: bool)

  // ---- Calls ----------------------------------------------------------------

  datatype RowResult = Started | Ok | Error

  datatype Call = Read(peer: bool) | Page(peer: bool,
      page: nat) | Save(payload: Json) | Apply(index: nat) | Append(result: RowResult)

  datatype Fault = Denied | Slow | Missing | Broken

  /** A decoded body, or a failed call; for audit rows, persisted or not. */
  datatype Answer = Got(body: Json) | Refused(fault: Fault)

  /** `_call`: what is raised for a failed call. */
  function KindOf(fault: Fault): ErrorKind {
    match fault
    case Denied => AuthDenied
    case Slow => TimedOut
    case Missing => Unsupported
    case Broken => Upstream
  }

  type Trace = seq<Event<Call, Answer>>

  predicate IsPost(call: Call) {
    call.Save? || call.Apply?
  }

  /** The mutations of a trace, in order. */
  function Posts(t: Trace): Trace {
    if t == [] then []
    else Posts(t[..|t| - 1]) + if IsPost(t[|t| - 1].call) then [t[|t| - 1]] else []
  }

  lemma PostsStep(t: Trace, e: Event<Call, Answer>)
    ensures Posts(t + [e]) == Posts(t) + if IsPost(e.call) then [e] else []
  {
    assert (t + [e])[..|t|] == t;
  }

  lemma {:induction false} PostsOfReads(t: Trace, more: Trace)
    requires forall e :: e in more ==> !IsPost(e.call)
    ensures Posts(t + more) == Posts(t)
  {
    if more == [] {
      assert t + more == t;
    } else {
      var before, last := more[..|more| - 1], more[|more| - 1];
      assert more == before + [last] && t + more == (t + before) + [last];
      PostsOfReads(t, before);
      PostsStep(t + before, last);
    }
  }

  // ---- Reading answers ------------------------------------------------------

  predicate HasValidations(body: Json) {
    body.Obj? && Lookup(body.fields, "validations").Some? && IsTrue(Lookup(body.fields, "validations").value)
  }

  function MarkerOk(v: Option<Json>, show: Json -> string): bool {
    v.Some? ==> Text.Lower(Matching.StrOf(v.value, show)) in {"ok", "saved", "deleted", "done", "success"}
  }

  /** `_ack`: what is raised, if anything. */
  function AckProblem(spec: Spec, body: Json, apply: bool, show: Json -> string): Option<ErrorKind> {
    if !body.Obj? then Some(InvalidResponse)
    else if HasValidations(body) then Some(Validation)
    else if apply && spec.applyAck.Some? && spec.applyAck.value != map[] then
      if forall k :: k in spec.applyAck.value ==>
           exists s :: s in spec.applyAck.value[k] && Lookup(body.fields, k) == Some(Str(s))
      then None else Some(Upstream)
    else
      var status, result := Lookup(body.fields, "status"), Lookup(body.fields, "result");
      if (status.None? && result.None?) || !MarkerOk(status, show) || !MarkerOk(result, show) then Some(Upstream)
      else None
  }

  function PostProblem(spec: Spec, a: Answer, apply: bool, show: Json -> string): Option<ErrorKind> {
    match a
    case Refused(fault) => Some(KindOf(fault))
    case Got(body) => AckProblem(spec, body, apply, show)
  }

  /** The identifier that a confirmed save reports. */
  function ConfirmedUuid(spec: Spec, q: Request, a: Answer, show: Json -> string): Result<string, ErrorKind> {
    match PostProblem(spec, a, false, show)
    case Some(kind) => Failure(kind)
    case None =>
      if !q.action.Create? then Success(q.uuid)
      else match Lookup(a.body.fields, "uuid")
           case None => Failure(InvalidResponse)
           case Some(v) =>
             (match Protocol.ValidUuid(v) case Some(u) => Success(u) case None => Failure(InvalidResponse))
  }

  /** `_raw` followed by `selected`: the canonical object, or what is raised. */
  function Current(spec: Spec, a: Answer): Result<Fields, ErrorKind> {
    match a
    case Refused(fault) => Failure(KindOf(fault))
    case Got(body) =>
      if !body.Obj? then Failure(InvalidResponse)
      else match DottedEdit.Get(body.fields, spec.key)
           case Some(Obj(raw)) =>
             if raw.Empty? then Failure(InvalidResponse)
             else
               (match OptionTrees.EngineSelected(Obj(raw)) case Obj(f) => Success(f) case _ => Failure(InvalidResponse))
           case _ => Failure(InvalidResponse)
  }

  // ---- Verification ---------------------------------------------------------

  /** Fields that readback compares. */
  predicate Compared(spec: Spec, field: CatalogValues.FieldSpec, values: Fields, expected: Fields) {
    && field.name in Keys(values)
    && field.name !in spec.volatile && !field.readonly && !field.writeOnly
    && !(field.generated && CatalogValues.IsBlank(Lookup(values, field.name).value))
    && DottedEdit.Get(expected, field.name).Some? && DottedEdit.Get(expected, field.name) != Some(Null)
  }

  /** `"" if value == {} else str(value)`, with "" for a missing value. */
  function Observed(f: Fields, name: string, show: Json -> string): string {
    match DottedEdit.Get(f, name)
    case None => ""
    case Some(v) => if v == Obj(Empty) then "" else Matching.StrOf(v, show)
  }

  predicate SameField(field: CatalogValues.FieldSpec, actual: Fields, expected: Fields, show: Json -> string) {
    var observed, desired := Observed(actual, field.name, show), Observed(expected, field.name, show);
    if field.multiple then Text.SortWords(Text.Split(observed, ',')) == Text.SortWords(Text.Split(desired, ','))
    else observed == desired
  }

  /** Every compared field was stored as desired. */
  predicate Agrees(spec: Spec, values: Fields, actual: Fields, expected: Fields, show: Json -> string) {
    forall field :: field in spec.fields && Compared(spec, field, values, expected) ==>
      SameField(field, actual, expected, show)
  }

  /** A listed row's identifier, lower-cased later by the comparison. */
  function RowUuid(row: Json): string {
    match OptionTrees.EngineSelected(row)
    case Obj(f) => (match Lookup(f, "uuid") case Some(Str(s)) => s case _ => "")
    case _ => ""
  }

  predicate AllObjects(items: Items) {
    items.Cons? ==> items.head.Obj? && AllObjects(items.tail)
  }

  function RowUuids(items: Items): seq<string> {
    if items.Nil? then [] else [RowUuid(items.head)] + RowUuids(items.tail)
  }

  /** `list` on one page; a wrong total is left to the scan. */
  function PageOf(a: Answer): Listings.Page {
    match a
    case Refused(_) => Listings.Bad
    case Got(body) =>
      if !body.Obj? then Listings.Bad
      else match (Lookup(body.fields, "rows"), Lookup(body.fields, "total"))
           case (Some(Arr(rows)), Some(Num(n))) =>
             if AllObjects(rows) then Listings.Page(RowUuids(rows), n) else Listings.Bad
           case (Some(Arr(rows)), Some(Str(s))) =>
             if AllObjects(rows) && CatalogValues.SignedValue(s).Some?
             then Listings.Page(RowUuids(rows), CatalogValues.SignedValue(s).value) else Listings.Bad
           case _ => Listings.Bad
  }

  /** The pages that a stretch of the trace holds. */
  ghost function PagesAt(t: Trace, first: nat): nat -> Listings.Page {
    (p: nat) => if 1 <= p && first + p <= |t| then PageOf(t[first + p - 1].answer) else Listings.Bad
  }

  /** From `first` on the trace holds the `n` pages of a scan that ended without the object. */
  ghost predicate ShowsAbsent(t: Trace, first: nat, n: nat, peer: bool, uuid: string) {
    && first + n <= |t|
    && (forall k :: first <= k < first + n ==> t[k].call == Page(peer, k - first + 1))
    && Listings.LastPage(PagesAt(t, first), uuid, 1, 0) == n
    && Listings.ScanFrom(PagesAt(t, first), uuid, 1, 0) == Listings.Absent
  }

  /** If every page came from one fixed table, the object is not in it. */
  lemma AbsentFromTable(t: Trace, first: nat, n: nat, peer: bool, uuid: string, table: seq<string>)
    requires ShowsAbsent(t, first, n, peer, uuid)
    requires forall k :: first <= k < first + n ==> PageOf(t[k].answer) == Listings.TablePage(table, k - first + 1)
    ensures !Listings.Contains(table, uuid)
  {
    forall p: nat | 1 <= p <= n ensures PagesAt(t, first)(p) == Listings.Pages(table)(p) {
      assert PageOf(t[first + p - 1].answer) == Listings.TablePage(table, first + p - 1 - first + 1);
    }
    Listings.ScanReadsUpToLastPage(PagesAt(t, first), Listings.Pages(table), uuid, 1, 0);
    Listings.AbsenceByExhaustion(table, uuid);
  }

  // ---- What an outcome says about the calls -----------------------------------

  /** The mutations that were sent: one save, then applies in order, each after an acknowledged one. */
  ghost predicate InOrder(spec: Spec, q: Request, posts: Trace, show: Json -> string) {
    && (posts != [] ==> posts[0].call.Save?)
    && |posts| <= 1 + spec.applies
    && (forall i :: 1 <= i < |posts| ==> posts[i].call == Apply(i - 1))
    && (|posts| > 1 ==> ConfirmedUuid(spec, q, posts[0].answer, show).Success?)
    && (forall i :: 1 <= i < |posts| - 1 ==> PostProblem(spec, posts[i].answer, true, show).None?)
  }

  /** Every mutation was sent and acknowledged. */
  ghost predicate AllAcknowledged(spec: Spec, q: Request, posts: Trace, show: Json -> string) {
    && |posts| == 1 + spec.applies
    && ConfirmedUuid(spec, q, posts[0].answer, show).Success?
    && (forall i :: 1 <= i < |posts| ==> PostProblem(spec, posts[i].answer, true, show).None?)
  }

  /** The save was rejected with field validations. */
  ghost predicate SaveInvalid(posts: Trace) {
    |posts| == 1 && posts[0].answer.Got? && HasValidations(posts[0].answer.body)
  }

  /** The identifier that an outcome may report. */
  ghost predicate Reports(spec: Spec, q: Request, posts: Trace, show: Json -> string, uuid: Option<string>) {
    match uuid
    case Some(u) => posts != [] && ConfirmedUuid(spec, q, posts[0].answer, show) == Success(u)
    case None => posts == [] || ConfirmedUuid(spec, q, posts[0].answer, show).Failure?
  }

  /** Nothing was mutated from `at` on. */
  ghost predicate AfterPosts(t: Trace, at: nat) {
    at <= |t| && Posts(t[..at]) == Posts(t)
  }

  /** The readback at `at` showed every compared field as it was sent. */
  ghost predicate ShowsStored(spec: Spec, q: Request, t: Trace, at: nat, expected: Fields, show: Json -> string) {
    && at < |t| && t[at].call == Read(false) && q.values.Obj?
    && Current(spec, t[at].answer).Success?
    && Agrees(spec, q.values.fields, Current(spec, t[at].answer).value, expected, show)
  }

  /** The peer's object, read at `p`, has the hash of the local one, read at `at`. */
  ghost predicate PeerSame(spec: Spec, t: Trace, at: nat, p: nat, digest: string -> string) {
    && at < p < |t| && t[p].call == Read(true)
    && Current(spec, t[at].answer).Success? && Current(spec, t[p].answer).Success?
    && Canonical.Revision(Obj(Current(spec, t[p].answer).value), digest)
       == Canonical.Revision(Obj(Current(spec, t[at].answer).value), digest)
  }

  /** Where a trace shows what was verified: pages `[first, first + n)`, and the peer's `m` pages after them. */
  datatype Evidence = Evidence(first: nat, n: nat, m: nat)

  /** After all mutations a deleted object was seen to be absent, any other to be stored, on every node. */
  ghost predicate Verified(
    spec: Spec, hasPeer: bool, q: Request, t: Trace, uuid: string, expected: Fields, digest: string -> string,
    show: Json -> string, e: Evidence)
  {
    && AfterPosts(t, e.first)
    && if q.action.Delete?
       then ShowsAbsent(t, e.first, e.n, false, uuid) && (hasPeer ==> ShowsAbsent(t, e.first + e.n, e.m, true, uuid))
       else
         && ShowsStored(spec, q, t, e.first, expected, show)
         && (hasPeer ==> PeerSame(spec, t, e.first, e.first + 1, digest))
  }

  /** What was shown stays shown as the trace grows by reads and rows. */
  lemma ShowsAbsentGrows(t: Trace, u: Trace, first: nat, n: nat, peer: bool, uuid: string)
    requires ShowsAbsent(t, first, n, peer, uuid) && t <= u
    ensures ShowsAbsent(u, first, n, peer, uuid)
  {
    forall p: nat | 1 <= p <= n ensures PagesAt(t, first)(p) == PagesAt(u, first)(p) {
    }
    Listings.ScanReadsUpToLastPage(PagesAt(t, first), PagesAt(u, first), uuid, 1, 0);
    forall k | first <= k < first + n ensures u[k].call == Page(peer, k - first + 1) {
      assert t[k] == u[k];
    }
  }

  // ---- The service ------------------------------------------------------------

  /** `world` is what the firewalls and the audit file answer, call by call. */
  class ManagementService {
    const spec: Spec
    const hasPeer: bool
    const digest: string -> string
    const show: Json -> string
    const world: nat -> Answer
    var calls: nat
    ghost var trace: Trace

    constructor (spec: Spec, hasPeer: bool, digest: string -> string, show: Json -> string, world: nat -> Answer)
      ensures this.spec == spec && this.hasPeer == hasPeer && this.digest == digest && this.show == show
    {
      this.spec, this.hasPeer, this.digest, this.show, this.world := spec, hasPeer, digest, show, world;
      this.calls, this.trace := 0, [];
    }

    method Send(call: Call) returns (a: Answer)
      modifies this
      ensures trace == old(trace) + [Event(call, a)] && calls == old(calls) + 1
      ensures Posts(trace) == Posts(old(trace)) + if IsPost(call) then [Event(call, a)] else []
    {
      a := world(calls);
      calls := calls + 1;
      PostsStep(trace, Event(call, a));
      trace := trace + [Event(call, a)];
    }

    /** `selected(self._raw(...))` on this node or the peer. */
    method ReadCurrent(peer: bool) returns (r: Result<Fields, ErrorKind>)
      modifies this
      ensures |trace| == |old(trace)| + 1 && old(trace) <= trace && Posts(trace) == Posts(old(trace))
      ensures trace[|old(trace)|].call == Read(peer) && r == Current(spec, trace[|old(trace)|].answer)
    {
      hide Current, Posts;
      var a := Send(Read(peer));
      r := Current(spec, a);
    }

    method Record(result: RowResult) returns (ok: bool)
      modifies this
      ensures exists a :: trace == old(trace) + [Event(Append(result), a)] && ok == a.Got?
      ensures Posts(trace) == Posts(old(trace))
    {
      hide Posts;
      var a := Send(Append(result));
      ok := a.Got?;
    }

    /** The scan that proves a deleted object absent. */
    method Scan(peer: bool, uuid: string) returns (problem: Option<ErrorKind>, ghost n: nat)
      modifies this
      ensures |trace| == |old(trace)| + n && old(trace) <= trace && Posts(trace) == Posts(old(trace))
      ensures problem.None? ==> ShowsAbsent(trace, |old(trace)|, n, peer, uuid)
      ensures problem != Some(Validation)
    {
      hide Posts, PageOf, Listings.ScanFrom, Listings.LastPage, Listings.Contains;
      var base, answers := calls, world;
      var pages := (p: nat) => if p == 0 then Listings.Bad else PageOf(answers(base + p - 1));
      var verdict, requests := Listings.ScanPages(pages, uuid);
      n := requests;
      calls := calls + requests;
      ghost var first := |trace|;
      ghost var read := seq(requests, i requires 0 <= i < requests => Event(Page(peer, i + 1), answers(base + i)));
      PostsOfReads(trace, read);
      trace := trace + read;
      forall p: nat | 1 <= p <= requests ensures pages(p) == PagesAt(trace, first)(p) {
        assert trace[first + p - 1] == read[p - 1];
      }
      Listings.ScanReadsUpToLastPage(pages, PagesAt(trace, first), uuid, 1, 0);
      match verdict
      case Absent => return None, n;
      case Failed =>
        var last := answers(base + requests - 1);
        return Some(if last.Refused? then KindOf(last.fault) else InvalidResponse), n;
      case _ => return Some(if peer then HaUnverified else Unverified), n;
    }

    /** Whether every compared field reads back as it was sent. */
    method Compare(values: Fields, actual: Fields, expected: Fields) returns (agrees: bool)
      ensures agrees == Agrees(spec, values, actual, expected, show)
    {
      hide Compared, SameField;
      for i := 0 to |spec.fields|
        invariant forall j :: 0 <= j < i && Compared(spec, spec.fields[j], values, expected) ==>
                    SameField(spec.fields[j], actual, expected, show)
      {
        var field := spec.fields[i];
        if Compared(spec, field, values, expected) && !SameField(field, actual, expected, show) {
          return false;
        }
      }
      return true;
    }

    // ---- Mutations --------------------------------------------------------------

    /** The apply paths, in order, until one is not acknowledged. */
    method ApplyAll(q: Request) returns (problem: Option<ErrorKind>)
      requires |Posts(trace)| == 1 && InOrder(spec, q, Posts(trace), show)
      requires ConfirmedUuid(spec, q, Posts(trace)[0].answer, show).Success?
      modifies this
      ensures old(trace) <= trace && InOrder(spec, q, Posts(trace), show)
      ensures |Posts(trace)| >= 1 && Posts(trace)[0] == Posts(old(trace))[0]
      ensures problem.None? ==> AllAcknowledged(spec, q, Posts(trace), show)
      ensures problem.Some? ==> |Posts(trace)| > 1
    {
      hide ConfirmedUuid, PostProblem, Posts;
      for i := 0 to spec.applies
        invariant old(trace) <= trace && |Posts(trace)| == 1 + i && Posts(trace)[0] == Posts(old(trace))[0]
        invariant InOrder(spec, q, Posts(trace), show)
        invariant forall j :: 1 <= j < |Posts(trace)| ==> PostProblem(spec, Posts(trace)[j].answer, true, show).None?
      {
        var a := Send(Apply(i));
        problem := PostProblem(spec, a, true, show);
        if problem.Some? {
          return;
        }
      }
      return None;
    }

    /** The scans after a delete, on this node and then on the peer. */
    method VerifyAbsent(uuid: string) returns (problem: Option<ErrorKind>, ghost e: Evidence)
      modifies this
      ensures old(trace) <= trace && Posts(trace) == Posts(old(trace)) && problem != Some(Validation)
      ensures problem.None? ==> e.first == |old(trace)| && ShowsAbsent(trace, e.first, e.n, false, uuid)
      ensures problem.None? && hasPeer ==> ShowsAbsent(trace, e.first + e.n, e.m, true, uuid)
    {
      hide Posts, ShowsAbsent;
      ghost var first := |trace|;
      var gone, n := Scan(false, uuid);
      e := Evidence(first, n, 0);
      if gone.Some? || !hasPeer {
        return gone, e;
      }
      ghost var scanned := trace;
      var goneThere, m := Scan(true, uuid);
      e := Evidence(first, n, m);
      if goneThere.None? {
        ShowsAbsentGrows(scanned, trace, first, n, false, uuid);
      }
      return goneThere, e;
    }

    /** The readback after a save, on this node and then on the peer. */
    method VerifyStored(q: Request, expected: Fields) returns (problem: Option<ErrorKind>, ghost at: nat)
      requires q.values.Obj?
      modifies this
      ensures old(trace) <= trace && Posts(trace) == Posts(old(trace)) && problem != Some(Validation)
      ensures problem.None? ==> at == |old(trace)| && ShowsStored(spec, q, trace, at, expected, show)
      ensures problem.None? && hasPeer ==> PeerSame(spec, trace, at, at + 1, digest)
    {
      hide Posts, Current, Agrees;
      at := |trace|;
      CurrentNeverInvalid(spec);
      var actual := ReadCurrent(false);
      if actual.Failure? {
        return Some(actual.error), at;
      }
      var agrees := Compare(q.values.fields, actual.value, expected);
      if !agrees {
        return Some(Unverified), at;
      }
      if hasPeer {
        ghost var shown := trace;
        var theirs := ReadCurrent(true);
        assert trace[at] == shown[at];
        if theirs.Failure? {
          return Some(theirs.error), at;
        }
        if Canonical.Revision(Obj(theirs.value), digest) != Canonical.Revision(Obj(actual.value), digest) {
          return Some(HaUnverified), at;
        }
      }
      return None, at;
    }

    /** From the save to the "ok" row: the body of the try block. */
    method SaveAndVerify(q: Request, payload: Json, expected: Fields)
      returns (problem: Option<ErrorKind>, stage: Stage, confirmed: Option<string>, ghost e: Evidence)
      requires Posts(trace) == [] && (q.action.Delete? || q.values.Obj?)
      modifies this
      ensures old(trace) <= trace && InOrder(spec, q, Posts(trace), show)
      ensures Posts(trace) != [] && Posts(trace)[0].call == Save(payload)
      ensures Reports(spec, q, Posts(trace), show, confirmed)
      ensures stage.Saving? && problem == Some(Validation) <==> SaveInvalid(Posts(trace))
      ensures problem.None? ==>
                && confirmed.Some? && AllAcknowledged(spec, q, Posts(trace), show)
                && Verified(spec, hasPeer, q, trace, confirmed.value, expected, digest, show, e)
                && trace[|trace| - 1].call == Append(Ok) && trace[|trace| - 1].answer.Got?
    {
      hide Posts, ConfirmedUuid, PostProblem, Verified;
      stage, confirmed, e := Saving, None, Evidence(0, 0, 0);
      var response := Send(Save(payload));
      SaveOutcome(spec, q, response, show);
      var uuid := ConfirmedUuid(spec, q, response, show);
      if uuid.Failure? {
        return Some(uuid.error), stage, confirmed, e;
      }
      confirmed, stage := Some(uuid.value), Applying;
      if spec.applies == 0 && !spec.persistenceOnly {
        return Some(Unsupported), stage, confirmed, e;
      }
      problem := ApplyAll(q);
      if problem.Some? {
        return;
      }
      stage := Verifying;
      problem, e := VerifyAndRecord(q, uuid.value, expected);
    }

    method VerifyAndRecord(q: Request, uuid: string, expected: Fields)
      returns (problem: Option<ErrorKind>, ghost e: Evidence)
      requires q.action.Delete? || q.values.Obj?
      modifies this
      ensures old(trace) <= trace && Posts(trace) == Posts(old(trace))
      ensures problem.None? ==>
                && Verified(spec, hasPeer, q, trace, uuid, expected, digest, show, e)
                && trace[|trace| - 1].call == Append(Ok) && trace[|trace| - 1].answer.Got?
    {
      hide Posts, ShowsAbsent, ShowsStored, PeerSame;
      ghost var first := |trace|;
      if q.action.Delete? {
        problem, e := VerifyAbsent(uuid);
      } else {
        ghost var at;
        problem, at := VerifyStored(q, expected);
        e := Evidence(at, 0, 0);
      }
      if problem.Some? {
        return;
      }
      ghost var shown := trace;
      assert shown[..first] == old(trace);
      var ok := Record(Ok);
      assert trace[..first] == old(trace);
      if q.action.Delete? {
        ShowsAbsentGrows(shown, trace, e.first, e.n, false, uuid);
        if hasPeer {
          ShowsAbsentGrows(shown, trace, e.first + e.n, e.m, true, uuid);
        }
      } else {
        ShowsStoredGrows(spec, q, shown, trace, e.first, expected, show);
        if hasPeer {
          PeerSameGrows(spec, shown, trace, e.first, digest);
        }
      }
      return if ok then None else Some(AuditFailed), e;
    }

    /**
     `_mutate`. On failure `partial` is false exactly if no POST was sent or the save was answered with
     validations, and an identifier is reported exactly once the save was confirmed. On success every
     mutation was acknowledged, the result was read back after the last of them, and the "ok" row is
     persisted. Mutations are never repeated, and they follow the persisted "started" row.
     */
    method Mutate(q: Request) returns (r: Result<Done, Failed>, ghost expected: Fields, ghost e: Evidence)
      requires CatalogValues.DistinctNames(spec.fields)
      modifies this
      ensures InOrder(spec, q, Posts(trace), show)
      ensures Posts(trace) != [] ==> |trace| > 2 && trace[1].call == Append(Started) && trace[1].answer.Got?
      ensures Posts(trace) != [] ==>
                && Justified(spec, q, trace[0].answer, expected, digest)
                && Posts(trace)[0].call == Save(Sent(spec, q, expected))
      ensures r.Failure? ==> (!r.error.partial <==> Posts(trace) == [] || SaveInvalid(Posts(trace)))
      ensures r.Failure? ==> Reports(spec, q, Posts(trace), show, r.error.uuid)
      ensures r.Success? ==>
                && AllAcknowledged(spec, q, Posts(trace), show)
                && Reports(spec, q, Posts(trace), show, Some(r.value.uuid))
                && Verified(spec, hasPeer, q, trace, r.value.uuid, expected, digest, show, e)
                && trace[|trace| - 1].call == Append(Ok) && trace[|trace| - 1].answer.Got?
    {
      hide Posts, Verified, InOrder, Current, CatalogValues.Payload, AllAcknowledged, SaveInvalid, Sent;
      trace, e, expected := [], Evidence(0, 0, 0), Empty;
      NothingSent(spec, q, show);
      var current := ReadCurrent(false);
      if current.Failure? {
        return Failure(Failed(current.error, false, NoStage, None, false)), expected, e;
      }
      if !q.action.Create? && Canonical.Revision(Obj(current.value), digest) != q.revision {
        return Failure(Failed(Conflict, false, NoStage, None, false)), expected, e;
      }
      var desired := Empty;
      if !q.action.Delete? {
        var values := CatalogValues.Values(spec.fields, q.values, current.value, q.action.Create?);
        if values.None? {
          return Failure(Failed(BadRequest, false, NoStage, None, false)), expected, e;
        }
        desired := values.value;
        PayloadNeedsObject(spec, q, current.value);
      }
      expected := desired;
      var ok := Record(Started);
      if !ok {
        return Failure(Failed(AuditFailed, false, NoStage, None, false)), expected, e;
      }
      ghost var started := trace;
      var problem, stage, confirmed;
      problem, stage, confirmed, e := SaveAndVerify(q, Sent(spec, q, desired), desired);
      assert trace[0] == started[0] && trace[1] == started[1];
      if problem.None? {
        return Success(Done(confirmed.value, spec.applies > 0, SecretChange(q))), expected, e;
      }
      var partial := !(problem == Some(Validation) && stage.Saving?);
      ghost var stopped := trace;
      var recorded := Record(Error);
      assert trace[0] == stopped[0] && trace[1] == stopped[1];
      return Failure(Failed(problem.value, partial, stage, confirmed, !recorded)), expected, e;
    }

    /** `mutate`: a refused request makes no call at all. */
    method Submit(q: Request) returns (r: Result<Done, Failed>)
      requires CatalogValues.DistinctNames(spec.fields)
      modifies this
      ensures Refusal(spec, hasPeer, q).Some? ==>
                && r == Failure(Failed(Refusal(spec, hasPeer, q).value, false, NoStage, None, false))
                && calls == old(calls)
      ensures Refusal(spec, hasPeer, q).None? && r.Failure? ==>
                && (!r.error.partial <==> Posts(trace) == [] || SaveInvalid(Posts(trace)))
                && Reports(spec, Admitted(q), Posts(trace), show, r.error.uuid)
      ensures Refusal(spec, hasPeer, q).None? && r.Success? ==> AllAcknowledged(spec, Admitted(q), Posts(trace), show)
    {
      hide Posts, AllAcknowledged, Reports, SaveInvalid, Verified;
      var refusal := Refusal(spec, hasPeer, q);
      if refusal.Some? {
        return Failure(Failed(refusal.value, false, NoStage, None, false));
      }
      ghost var expected, e;
      r, expected, e := Mutate(Admitted(q));
    }

    /** A write-only field was given a value. */
    predicate SecretChange(q: Request) {
      exists field :: field in spec.fields && field.writeOnly && q.values.Obj? && field.name in Keys(q.values.fields)
                      && !CatalogValues.IsBlank(Lookup(q.values.fields, field.name).value)
    }
  }

  /** The body of the save. */
  function Sent(spec: Spec, q: Request, expected: Fields): Json {
    if q.action.Delete? then Obj(Empty) else Obj(DottedEdit.Put(Empty, spec.key, Obj(expected)))
  }

  const SINGLETON_UUID := "00000000-0000-0000-0000-000000000000"

  /** What `mutate` refuses before any call. */
  function Refusal(spec: Spec, hasPeer: bool, q: Request): Option<ErrorKind> {
    if hasPeer && !spec.haSafe then Some(HaUnqualified)
    else if spec.singleton && !q.action.Update? then Some(Unsupported)
    else if !q.action.Create? && (Protocol.ValidUuid(Str(q.uuid)).None? || !Protocol.ValidRevision(q.revision))
    then Some(BadRequest)
    else if !q.action.Create? && spec.singleton && Protocol.ValidUuid(Str(q.uuid)) != Some(SINGLETON_UUID)
    then Some(BadRequest)
    else if spec.applies == 0 && !spec.persistenceOnly then Some(Unsupported)
    else None
  }

  /** The request as `_mutate` sees it. */
  function Admitted(q: Request): Request {
    match (q.action, Protocol.ValidUuid(Str(q.uuid)))
    case (Create, _) => q.(uuid := "", revision := "")
    case (_, Some(u)) => q.(uuid := u)
    case _ => q
  }

  /** The first read was of the revision that the caller named, and what is expected follows from it. */
  ghost predicate Justified(spec: Spec, q: Request, read: Answer, expected: Fields, digest: string -> string) {
    && Current(spec, read).Success?
    && (!q.action.Create? ==> Canonical.Revision(Obj(Current(spec, read).value), digest) == q.revision)
    && (!q.action.Delete? ==>
          CatalogValues.Payload(spec.fields, q.values, Current(spec, read).value, q.action.Create?) == Some(expected))
  }

  lemma NothingSent(spec: Spec, q: Request, show: Json -> string)
    ensures Posts([]) == [] && InOrder(spec, q, [], show)
  {
  }

  lemma PayloadNeedsObject(spec: Spec, q: Request, current: Fields)
    ensures CatalogValues.Payload(spec.fields, q.values, current, q.action.Create?).Some? ==> q.values.Obj?
  {
  }

  /** What the answer to a save means. */
  lemma SaveOutcome(spec: Spec, q: Request, a: Answer, show: Json -> string)
    ensures ConfirmedUuid(spec, q, a, show) == Failure(Validation) <==> a.Got? && HasValidations(a.body)
  {
  }

  lemma ShowsStoredGrows(
    spec: Spec, q: Request, t: Trace, u: Trace, at: nat, expected: Fields, show: Json -> string)
    requires ShowsStored(spec, q, t, at, expected, show) && t <= u
    ensures ShowsStored(spec, q, u, at, expected, show)
  {
    hide Current, Agrees;
    assert t[at] == u[at];
  }

  lemma PeerSameGrows(spec: Spec, t: Trace, u: Trace, at: nat, digest: string -> string)
    requires PeerSame(spec, t, at, at + 1, digest) && t <= u
    ensures PeerSame(spec, u, at, at + 1, digest)
  {
    hide Current;
    assert t[at] == u[at] && t[at + 1] == u[at + 1];
  }

  /** Reading raises no field validations. */
  lemma CurrentNeverInvalid(spec: Spec)
    ensures forall a :: Current(spec, a) != Failure(Validation)
  {
  }

}
