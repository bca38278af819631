/** Changing a CRL: validation, the revocation of one certificate, save and readback. */
module CrlService {
  import opened Wrappers
  import opened JsonTrees
  import opened Histories
  import opened RevocationLists
  import CatalogValues
  import Canonical
  import Protocol
  import Text

  // ---- Payloads -------------------------------------------------------------

  /** The body of a save; `text` is sent for an imported CRL only. */
  datatype Payload = Payload(
    descr: string, crlMethod: string, lifetime: string, lists: seq<string>, text: Option<string>)

  predicate IsWritable(name: string) {
    name in {"descr", "crlmethod", "lifetime", "text"} || exists i :: 0 <= i < REASONS && name == ReasonName(i)
  }

  predicate IsDescription(v: Json) {
    v.Str? && 1 <= |v.text| <= 255 && forall i :: 0 <= i < |v.text| ==> v.text[i] >= ' '
  }

  /** A number of days, as its decimal text. */
  function Lifetime(v: Json): Option<string> {
    match CatalogValues.NumberText(v)
    case Some(s) => if Text.IsDigits(s) && 1 <= Text.NatValue(s) <= 36500 then Some(s) else None
    case None => None
  }

  function JoinAll(lists: seq<seq<string>>): seq<string> {
    seq(|lists|, i requires 0 <= i < |lists| => Text.Join(lists[i], ','))
  }

  /** `_validate`; `pem` tells whether a text is an ASCII PEM CRL. */
  function Checked(values: Json, crl: Crl, pem: string -> bool): Option<Payload>
    requires |crl.reasons| == REASONS
  {
    if !values.Obj? || exists k :: k in Keys(values.fields) && !IsWritable(k) then None
    else
      var f := values.fields;
      var descr, crlMethod := Merged(f, "descr", crl.descr), Merged(f, "crlmethod", crl.crlMethod);
      var text := Merged(f, "text", crl.text);
      match (Lifetime(Merged(f, "lifetime", crl.lifetime)), Gather(f, crl, 0, {}))
      case (Some(lifetime), Some(lists)) =>
        if !IsDescription(descr) then None
        else if crlMethod == Str("internal") then Some(Payload(descr.text, "internal", lifetime, JoinAll(lists), None))
        else if crlMethod == Str("existing") && text.Str? && |text.text| <= 1048576 && pem(text.text)
        then Some(Payload(descr.text, "existing", lifetime, JoinAll(lists), Some(text.text)))
        else None
      case _ => None
  }

  function Prepended(done: seq<seq<string>>, more: Option<seq<seq<string>>>): Option<seq<seq<string>>> {
    match more
    case None => None
    case Some(rest) => Some(done + rest)
  }

  /** The loop over the references of one reason: `seen` grows by them as long as each is new. */
  method AddNew(refs: seq<string>, offered: set<string>, seen: set<string>) returns (ok: bool, all: set<string>)
    ensures ok == AllNew(refs, offered, seen)
    ensures ok ==> all == seen + Elements(refs)
  {
    hide IsRef;
    all := seen;
    for k := 0 to |refs|
      invariant all == seen + Elements(refs[..k])
      invariant AllNew(refs, offered, seen) == AllNew(refs[k..], offered, all)
    {
      var ref := refs[k];
      assert refs[k..][1..] == refs[k + 1..];
      if !IsRef(ref) || ref !in offered || ref in all {
        return false, all;
      }
      assert refs[..k + 1] == refs[..k] + [ref];
      all := all + {ref};
    }
    assert refs[..|refs|] == refs;
    return true, all;
  }

  /** The loop over the seven reason lists. */
  method GatherLists(values: Fields, crl: Crl) returns (lists: Option<seq<seq<string>>>)
    requires |crl.reasons| == REASONS
    ensures lists == Gather(values, crl, 0, {})
  {
    hide IsRef, AllNew, OfferedRefs, Elements, RefItems;
    var seen: set<string>, done: seq<seq<string>> := {}, [];
    assert Prepended([], Gather(values, crl, 0, {})) == Gather(values, crl, 0, {}) by {
      assert forall rest: seq<seq<string>> :: [] + rest == rest;
    }
    for number := 0 to REASONS
      invariant |done| == number
      invariant Gather(values, crl, 0, {}) == Prepended(done, Gather(values, crl, number, seen))
    {
      var value := Merged(values, ReasonName(number), crl.reasons[number].list);
      var refs := RefItems(value);
      if refs.None? || |refs.value| > MAX_REFS {
        return None;
      }
      var ok, all := AddNew(refs.value, OfferedRefs(crl.reasons[number]), seen);
      if !ok {
        return None;
      }
      seen := all;
      assert forall rest: seq<seq<string>> :: done + ([refs.value] + rest) == (done + [refs.value]) + rest;
      done := done + [refs.value];
    }
    assert done + [] == done;
    return Some(done);
  }

  method Validate(values: Json, crl: Crl, pem: string -> bool) returns (payload: Option<Payload>)
    requires |crl.reasons| == REASONS
    ensures payload == Checked(values, crl, pem)
  {
    if !values.Obj? {
      return None;
    }
    if exists k :: k in Keys(values.fields) && !IsWritable(k) {
      return None;
    }
    var f := values.fields;
    var descr, crlMethod := Merged(f, "descr", crl.descr), Merged(f, "crlmethod", crl.crlMethod);
    if !IsDescription(descr) || crlMethod !in {Str("internal"), Str("existing")} {
      return None;
    }
    var lifetime := Lifetime(Merged(f, "lifetime", crl.lifetime));
    if lifetime.None? {
      return None;
    }
    var lists := GatherLists(f, crl);
    if lists.None? {
      return None;
    }
    if crlMethod == Str("internal") {
      return Some(Payload(descr.text, "internal", lifetime.value, JoinAll(lists.value), None));
    }
    var text := Merged(f, "text", crl.text);
    if !text.Str? || |text.text| > 1048576 || !pem(text.text) {
      return None;
    }
    return Some(Payload(descr.text, "existing", lifetime.value, JoinAll(lists.value), Some(text.text)));
  }

  // ---- Revoking one certificate -----------------------------------------------

  function TextItems(texts: seq<string>): Items {
    if texts == [] then Nil else Cons(Str(texts[0]), TextItems(texts[1..]))
  }

  lemma {:induction false} TextItemsRead(texts: seq<string>)
    ensures CatalogValues.AllText(TextItems(texts)) && CatalogValues.Texts(TextItems(texts)) == texts
  {
    if texts != [] {
      TextItemsRead(texts[1..]);
    }
  }

  /** The list of reason `i` once `cert` is revoked for `reason`. */
  function RevokedList(crl: Crl, cert: string, reason: nat, i: nat): seq<string>
    requires i < REASONS == |crl.reasons|
  {
    Without(Text.Split(crl.reasons[i].list, ','), cert) + if i == reason then [cert] else []
  }

  /** The values that a revocation submits, from reason `i` on. */
  function RevokeValues(crl: Crl, cert: string, reason: nat, i: nat): Fields
    requires i <= REASONS == |crl.reasons|
    decreases REASONS - i
  {
    if i == REASONS then Empty
    else Field(ReasonName(i), Arr(TextItems(RevokedList(crl, cert, reason, i))), RevokeValues(crl, cert, reason, i + 1))
  }

  lemma ReasonNamesDiffer(i: nat, j: nat)
    requires i < REASONS && j < REASONS && i != j
    ensures ReasonName(i) != ReasonName(j)
  {
    var prefix := "revoked_reason_";
    assert ReasonName(i)[|prefix|] == Text.DigitChar(i) && ReasonName(j)[|prefix|] == Text.DigitChar(j);
  }

  lemma {:induction false} RevokeValuesRead(crl: Crl, cert: string, reason: nat, i: nat, j: nat)
    requires i <= j < REASONS == |crl.reasons|
    ensures Lookup(RevokeValues(crl, cert, reason, i), ReasonName(j))
            == Some(Arr(TextItems(RevokedList(crl, cert, reason, j))))
    decreases REASONS - i
  {
    if i < j {
      ReasonNamesDiffer(i, j);
      RevokeValuesRead(crl, cert, reason, i + 1, j);
    }
  }

  /** The submitted list of every reason: the others' certificates and, for the requested one, this one too. */
  lemma WantedOfRevoke(crl: Crl, cert: string, reason: nat, j: nat)
    requires j < REASONS == |crl.reasons|
    ensures Wanted(RevokeValues(crl, cert, reason, 0), crl, j) == Some(RevokedList(crl, cert, reason, j))
  {
    hide RevokeValues, RevokedList, TextItems, CatalogValues.AllText, CatalogValues.Texts, ReasonName, Lookup;
    RevokeValuesRead(crl, cert, reason, 0, j);
    TextItemsRead(RevokedList(crl, cert, reason, j));
  }

  /** The certificates of each reason. */
  function Revoked(crl: Crl, i: nat): set<string>
    requires i < REASONS == |crl.reasons|
  {
    Refs(crl.reasons[i].list)
  }

  lemma RevokedListElements(crl: Crl, cert: string, reason: nat, i: nat, r: string)
    requires i < REASONS && Readable(crl)
    ensures r in RevokedList(crl, cert, reason, i) <==>
            (r in Revoked(crl, i) && r != cert) || (i == reason && r == cert)
  {
    var list := crl.reasons[i].list;
    WithoutKeepsOthers(Text.Split(list, ','), cert, r);
    assert IsList(list);
    var refs :| list == Text.Join(refs, ',') && forall x :: x in refs ==> IsRef(x);
    JoinedRefs(refs);
    assert Text.Split("", ',') == [""];
  }

  // ---- Readback ---------------------------------------------------------------

  function Parts(list: string): set<string> {
    Elements(Text.Split(list, ','))
  }

  /** `matches`: what a readback must show. */
  predicate Confirms(deleting: bool, before: Crl, payload: Option<Payload>, after: Crl)
    requires |after.reasons| == REASONS && Text.IsDigits(before.serial) && Text.IsDigits(after.serial)
  {
    if deleting || payload.None? then after.descr == "" && after.text == "" && after.serial == "0"
    else
      && after.descr == payload.value.descr && after.lifetime == payload.value.lifetime
      && after.crlMethod == payload.value.crlMethod
      && (if payload.value.text.None?
          then |payload.value.lists| == REASONS
               && forall i :: 0 <= i < REASONS ==> Parts(after.reasons[i].list) == Parts(payload.value.lists[i])
          else Text.Strip(after.text) == Text.Strip(payload.value.text.value))
      && Text.NatValue(after.serial) == Text.NatValue(before.serial) + 1
  }

  /** Comparing the split parts is comparing the references. */
  lemma SamePartsSameRefs(a: string, refs: seq<string>)
    requires IsList(a) && (forall r :: r in refs ==> IsRef(r)) && Parts(a) == Parts(Text.Join(refs, ','))
    ensures Refs(a) == Elements(refs)
  {
    var mine :| a == Text.Join(mine, ',') && forall r :: r in mine ==> IsRef(r);
    JoinedRefs(mine);
    JoinedRefs(refs);
    assert Text.Split("", ',') == [""];
    assert "" in Elements([""]) && Elements([""]) == {""};
    assert refs != [] ==> refs[0] in Parts(Text.Join(refs, ','));
    assert mine != [] ==> mine[0] in Parts(a);
  }

  /** A verified revocation of `cert` for `reason`. */
  ghost predicate Revokes(before: Crl, cert: string, reason: nat, after: Crl, pem: string -> bool) {
    && Readable(before) && Readable(after) && IsRef(cert) && reason < REASONS && before.crlMethod == "internal"
    && var payload := Checked(Obj(RevokeValues(before, cert, reason, 0)), before, pem);
       payload.Some? && Confirms(false, before, payload, after)
  }

  /** The reasons of a CRL are a partial function of certificates. */
  ghost predicate OneReasonEach(crl: Crl)
    requires |crl.reasons| == REASONS
  {
    forall i, j :: 0 <= i < j < REASONS ==> Revoked(crl, i) !! Revoked(crl, j)
  }

  lemma RevokeKeepsMethod(before: Crl, cert: string, reason: nat, i: nat, name: string)
    requires i <= REASONS == |before.reasons|
    requires name in {"descr", "crlmethod", "lifetime", "text"}
    ensures Lookup(RevokeValues(before, cert, reason, i), name) == None
    decreases REASONS - i
  {
    if i < REASONS {
      assert ReasonName(i)[0] == 'r' && name[0] != 'r';
      RevokeKeepsMethod(before, cert, reason, i + 1, name);
    }
  }

  /** The lists that a revocation is validated to. */
  lemma GatheredOfRevoke(before: Crl, cert: string, reason: nat, lists: seq<seq<string>>)
    requires |before.reasons| == REASONS && Gather(RevokeValues(before, cert, reason, 0), before, 0, {}) == Some(lists)
    ensures forall j :: 0 <= j < REASONS ==>
              lists[j] == RevokedList(before, cert, reason, j) && forall r :: r in lists[j] ==> IsRef(r)
    ensures forall i, j :: 0 <= i < j < REASONS ==> forall r :: r in lists[i] ==> r !in lists[j]
  {
    hide IsRef, RevokeValues, RevokedList, Gather, OfferedRefs;
    var f := RevokeValues(before, cert, reason, 0);
    GatheredIsPartition(f, before, 0, {});
    forall j | 0 <= j < REASONS ensures lists[j] == RevokedList(before, cert, reason, j) {
      WantedOfRevoke(before, cert, reason, j);
      assert Wanted(f, before, 0 + j) == Some(lists[j]);
    }
  }

  /** What a verified revocation's readback holds for one reason. */
  lemma RevokedReason(before: Crl, cert: string, reason: nat, after: Crl, pem: string -> bool, i: nat)
    requires Revokes(before, cert, reason, after, pem) && i < REASONS
    ensures Revoked(after, i) == Elements(RevokedList(before, cert, reason, i))
    ensures forall j :: i < j < REASONS ==>
              forall r :: r in RevokedList(before, cert, reason, i) ==> r !in RevokedList(before, cert, reason, j)
  {
    hide IsRef, IsList, IsDescription, Lifetime, RevokeValues, RevokedList, Parts, Refs, Gather, Text.Split, Text.Join;
    RevokeKeepsMethod(before, cert, reason, 0, "crlmethod");
    var lists := Gather(RevokeValues(before, cert, reason, 0), before, 0, {}).value;
    GatheredOfRevoke(before, cert, reason, lists);
    SamePartsSameRefs(after.reasons[i].list, lists[i]);
  }

  /**
   A verified revocation moves exactly the one certificate: it is listed for the requested reason and no
   other, every other certificate keeps its reasons, and no certificate is listed twice.
   */
  lemma RevocationMovesOne(before: Crl, cert: string, reason: nat, after: Crl, pem: string -> bool)
    requires Revokes(before, cert, reason, after, pem)
    ensures forall i, r :: 0 <= i < REASONS ==>
              (r in Revoked(after, i) <==> if r == cert then i == reason else r in Revoked(before, i))
    ensures OneReasonEach(after)
    ensures Text.NatValue(after.serial) == Text.NatValue(before.serial) + 1
  {
    hide Checked, IsRef, RevokedList, Revoked, Parts;
    forall i, r | 0 <= i < REASONS
      ensures r in Revoked(after, i) <==> if r == cert then i == reason else r in Revoked(before, i) {
      RevokedReason(before, cert, reason, after, pem, i);
      RevokedListElements(before, cert, reason, i, r);
    }
    forall i, j | 0 <= i < j < REASONS ensures Revoked(after, i) !! Revoked(after, j) {
      RevokedReason(before, cert, reason, after, pem, i);
      RevokedReason(before, cert, reason, after, pem, j);
    }
  }

  // ---- Runs of revocations ------------------------------------------------------

  datatype Revocation = Revocation(cert: string, reason: nat)

  /** States joined by verified revocations. */
  ghost predicate RevocationRun(states: seq<Crl>, steps: seq<Revocation>, pem: string -> bool) {
    && |states| == |steps| + 1
    && forall k :: 0 <= k < |steps| ==> Revokes(states[k], steps[k].cert, steps[k].reason, states[k + 1], pem)
  }

  /** The reason of the last step for a certificate, if any. */
  function LastReason(steps: seq<Revocation>, cert: string): Option<nat> {
    if steps == [] then None
    else
      var last := steps[|steps| - 1];
      if last.cert == cert then Some(last.reason) else LastReason(steps[..|steps| - 1], cert)
  }

  lemma RevokesReadable(before: Crl, cert: string, reason: nat, after: Crl, pem: string -> bool)
    requires Revokes(before, cert, reason, after, pem)
    ensures Readable(before) && Readable(after) && |before.reasons| == |after.reasons| == REASONS
  {
  }

  /**
   Over any run of verified revocations a certificate ends under exactly the reason it was last revoked
   for, one that was never revoked keeps its reasons, and after the first step none has two.
   */
  lemma {:induction false} RunsSupersede(states: seq<Crl>, steps: seq<Revocation>, pem: string -> bool, cert: string)
    requires RevocationRun(states, steps, pem)
    requires Readable(states[0])
    ensures Readable(states[|steps|])
    ensures forall i :: 0 <= i < REASONS ==>
              (cert in Revoked(states[|steps|], i)
               <==> match LastReason(steps, cert)
                    case Some(reason) => i == reason
                    case None => cert in Revoked(states[0], i))
    ensures steps != [] ==> OneReasonEach(states[|steps|])
    ensures Text.NatValue(states[|steps|].serial) == Text.NatValue(states[0].serial) + |steps|
  {
    hide Checked, Readable, Revoked, OneReasonEach, Confirms, Revokes;
    if steps != [] {
      var k := |steps| - 1;
      assert Revokes(states[k], steps[k].cert, steps[k].reason, states[k + 1], pem);
      RevokesReadable(states[k], steps[k].cert, steps[k].reason, states[k + 1], pem);
      RunsSupersede(states[..k + 1], steps[..k], pem, cert);
      RevocationMovesOne(states[k], steps[k].cert, steps[k].reason, states[k + 1], pem);
    }
  }

  // ---- All operations -----------------------------------------------------------

  datatype Action = Create | Update | Delete | Revoke

  /** The values that are validated, and whether the operation fits the CRL's state. */
  datatype Plan = Refusal(kind: ErrorKind) | Plan(values: Json)

  datatype ErrorKind =
    | HaUnqualified | BadRequest | Conflict | InvalidResponse | Validation | Upstream | AuthDenied | TimedOut
    | Unsupported | Unverified | AuditFailed

  /** `str(reason)` as a reason code. */
  function ReasonCode(v: Json): Option<nat> {
    match v
    case Num(n) => if 0 <= n < REASONS then Some(n) else None
    case Str(s) => if |s| == 1 && '0' <= s[0] <= '6' then Some(Text.DigitValue(s[0])) else None
    case _ => None
  }

  /** The certificate and reason of a revocation request. */
  function RevocationOf(values: Json): Option<Revocation> {
    if !values.Obj? || Keys(values.fields) != {"certificate", "reason"} then None
    else match (Lookup(values.fields, "certificate"), ReasonCode(Lookup(values.fields, "reason").value))
         case (Some(Str(cert)), Some(reason)) => if IsRef(cert) then Some(Revocation(cert, reason)) else None
         case _ => None
  }

  function PlanOf(action: Action, values: Json, crl: Crl): Plan
    requires |crl.reasons| == REASONS
  {
    if action.Create? != (crl.descr == "") then Refusal(Conflict)
    else if !action.Revoke? then Plan(values)
    else match RevocationOf(values)
         case Some(r) =>
           if crl.crlMethod != "internal" then Refusal(BadRequest)
           else Plan(Obj(RevokeValues(crl, r.cert, r.reason, 0)))
         case None => Refusal(BadRequest)
  }

  /** A verified operation: what was read before, sent, and read back. */
  ghost predicate Verified(action: Action, values: Json, before: Crl, after: Crl, pem: string -> bool) {
    && Readable(before) && Readable(after)
    && PlanOf(action, values, before).Plan?
    && (action.Delete? ==> Confirms(true, before, None, after))
    && (!action.Delete? ==>
          var payload := Checked(PlanOf(action, values, before).values, before, pem);
          payload.Some? && Confirms(false, before, payload, after))
  }

  /** A verified revoke request is a verified revocation. */
  lemma VerifiedRevokeRevokes(values: Json, before: Crl, after: Crl, pem: string -> bool)
    requires Verified(Revoke, values, before, after, pem)
    ensures RevocationOf(values).Some?
    ensures Revokes(before, RevocationOf(values).value.cert, RevocationOf(values).value.reason, after, pem)
  {
    hide Checked, Confirms, Readable, RevokeValues;
  }

  datatype Operation = Operation(action: Action, values: Json)

  /** Verified writes since the last delete, starting from a given number. */
  function Writes(ops: seq<Operation>, start: nat): nat {
    if ops == [] then start
    else if ops[|ops| - 1].action.Delete? then 0
    else Writes(ops[..|ops| - 1], start) + 1
  }

  /** Over any run of verified operations the CRL number counts the writes since the last delete. */
  lemma {:induction false} SerialCountsWrites(states: seq<Crl>, ops: seq<Operation>, pem: string -> bool)
    requires |states| == |ops| + 1 && Readable(states[0])
    requires forall k :: 0 <= k < |ops| ==> Verified(ops[k].action, ops[k].values, states[k], states[k + 1], pem)
    ensures Readable(states[|ops|])
    ensures Text.NatValue(states[|ops|].serial) == Writes(ops, Text.NatValue(states[0].serial))
  {
    hide Checked, PlanOf;
    if ops != [] {
      var k := |ops| - 1;
      assert Verified(ops[k].action, ops[k].values, states[k], states[k + 1], pem);
      SerialCountsWrites(states[..k + 1], ops[..k], pem);
      assert Text.NatValue("0") == 0 by {
        assert "0"[..0] == "";
      }
    }
  }

  // ---- The service ----------------------------------------------------------------

  datatype Fault = Denied | Slow | Missing | Broken

  datatype RowResult = Attempted | Ok | Error

  datatype Call = ReadCrl | Save(payload: Payload) | Remove | Append(result: RowResult)

  datatype Answer = Got(body: Json) | Refused(fault: Fault)

  type Trace = seq<Event<Call, Answer>>

  /** `uuid` names the CA; `revision` the caller's version of the CRL. */
  datatype Request = Request(action: Action, uuid: Json, revision: Json, values: Json)

  datatype Failed = Failed(kind: ErrorKind, partial: bool, auditFailure: bool)

  function KindOf(fault: Fault): ErrorKind {
    match fault
    case Denied => AuthDenied
    case Slow => TimedOut
    case Missing => Unsupported
    case Broken => Upstream
  }

  function CrlOf(caref: string, a: Answer): Result<Crl, ErrorKind> {
    match a
    case Refused(fault) => Failure(KindOf(fault))
    case Got(body) => (match Read(caref, body) case Some(crl) => Success(crl) case None => Failure(InvalidResponse))
  }

  /** What a save or delete answer means. */
  function SaveProblem(deleting: bool, a: Answer): Option<ErrorKind> {
    match a
    case Refused(fault) => Some(KindOf(fault))
    case Got(body) =>
      if !body.Obj? then Some(Upstream)
      else if Lookup(body.fields, "validations").Some? && IsTrue(Lookup(body.fields, "validations").value)
      then Some(Validation)
      else if Lookup(body.fields, "status") != Some(Str(if deleting then "deleted" else "saved")) then Some(Upstream)
      else None
  }

  function OfferedJson(offered: seq<(string, string)>): Items {
    if offered == [] then Nil
    else
      var choice := Obj(Field("value", Str(offered[0].0), Field("label", Str(offered[0].1), Empty)));
      Cons(choice, OfferedJson(offered[1..]))
  }

  function ListFields(crl: Crl, i: nat): Fields
    requires i <= REASONS == |crl.reasons|
    decreases REASONS - i
  {
    if i == REASONS then Empty else Field(ReasonName(i), Str(crl.reasons[i].list), ListFields(crl, i + 1))
  }

  function ChoiceFields(crl: Crl, i: nat): Fields
    requires i <= REASONS == |crl.reasons|
    decreases REASONS - i
  {
    if i == REASONS then Empty
    else Field(ReasonName(i), Arr(OfferedJson(crl.reasons[i].offered)), ChoiceFields(crl, i + 1))
  }

  /** `[item, choices]`, which the revision hashes. */
  function Snapshot(crl: Crl): Json
    requires |crl.reasons| == REASONS
  {
    var lists := Field("text", Str(crl.text), Field("crlmethod", Str(crl.crlMethod), ListFields(crl, 0)));
    var numbers := Field("serial", Str(crl.serial), Field("lifetime", Str(crl.lifetime), lists));
    var item := Field("caref", Str(crl.caref), Field("descr", Str(crl.descr), numbers));
    Arr(Cons(Obj(item), Cons(Obj(ChoiceFields(crl, 0)), Nil)))
  }

  /** The calls of a verified operation: one read, one row, one POST, one readback, one row. */
  ghost predicate FullTrace(t: Trace, q: Request, before: Crl, after: Crl, pem: string -> bool) {
    && |t| == 5 && q.uuid.Str?
    && t[0].call == ReadCrl && CrlOf(q.uuid.text, t[0].answer) == Success(before)
    && t[1].call == Append(Attempted) && t[1].answer.Got?
    && |before.reasons| == REASONS && PlanOf(q.action, q.values, before).Plan?
    && t[2].call == CallOf(if q.action.Delete? then None
                           else Checked(PlanOf(q.action, q.values, before).values, before, pem))
    && SaveProblem(q.action.Delete?, t[2].answer).None?
    && t[3].call == ReadCrl && CrlOf(q.uuid.text, t[3].answer) == Success(after)
    && t[4].call == Append(Ok) && t[4].answer.Got?
    && Verified(q.action, q.values, before, after, pem)
  }

  predicate Mutates(call: Call) {
    call.Save? || call.Remove?
  }

  ghost predicate Sent(t: Trace) {
    exists i :: 0 <= i < |t| && Mutates(t[i].call)
  }

  /** The POST of a validated payload, or of a delete. */
  function CallOf(payload: Option<Payload>): Call {
    match payload case Some(body) => Save(body) case None => Remove
  }

  /** Everything up to the first row: what is changed and how, or why the request is refused. */
  function Opening(q: Request, hasPeer: bool, digest: string -> string, pem: string -> bool, first: Answer):
    Result<(Crl, Option<Payload>), ErrorKind>
  {
    if hasPeer then Failure(HaUnqualified)
    else if !q.uuid.Str? || !IsRef(q.uuid.text) || !q.revision.Str? || !Protocol.ValidRevision(q.revision.text)
    then Failure(BadRequest)
    else match CrlOf(q.uuid.text, first)
         case Failure(kind) => Failure(kind)
         case Success(crl) =>
           if |crl.reasons| != REASONS then Failure(InvalidResponse)
           else if Canonical.Revision(Snapshot(crl), digest) != q.revision.text then Failure(Conflict)
           else match PlanOf(q.action, q.values, crl)
                case Refusal(kind) => Failure(kind)
                case Plan(values) =>
                  if q.action.Delete? then Success((crl, None))
                  else match Checked(values, crl, pem)
                       case Some(payload) => Success((crl, Some(payload)))
                       case None => Failure(BadRequest)
  }

  /**
   After a POST the `partial` flag is cleared: the save was rejected with validations or for lack of
   authentication, or it was acknowledged and the readback lacked authentication.
   */
  predicate Cleared(deleting: bool, t: Trace)
    requires |t| > 2
  {
    match SaveProblem(deleting, t[2].answer)
    case Some(kind) => kind in {Validation, AuthDenied}
    case None => |t| > 3 && t[3].answer == Refused(Denied)
  }

  /** `world` is what the firewall and the audit file answer, call by call. */
  class CrlService {
    const hasPeer: bool
    const digest: string -> string
    const pem: string -> bool
    const world: nat -> Answer
    var calls: nat
    ghost var trace: Trace

    constructor (hasPeer: bool, digest: string -> string, pem: string -> bool, world: nat -> Answer)
      ensures this.hasPeer == hasPeer && this.digest == digest && this.pem == pem && this.world == world && calls == 0
    {
      this.hasPeer, this.digest, this.pem, this.world := hasPeer, digest, pem, world;
      this.calls, this.trace := 0, [];
    }

    method Send(call: Call) returns (a: Answer)
      modifies this
      ensures trace == old(trace) + [Event(call, a)] && calls == old(calls) + 1 && a == world(old(calls))
    {
      a := world(calls);
      calls := calls + 1;
      trace := trace + [Event(call, a)];
    }

    /** The answers of the trace are those of the world from call number `base` on. */
    ghost predicate Answered(base: nat)
      reads this
    {
      calls == base + |trace| && forall k :: 0 <= k < |trace| ==> trace[k].answer == world(base + k)
    }

    /**
     `mutate`. A request is refused without a POST exactly as its opening says or if the first row is not
     persisted; otherwise exactly one POST is sent, of the validated payload. Success means that it was
     acknowledged and read back. On failure `partial` is false exactly if nothing was sent or the answers to
     the POST and the readback clear the flag.
     */
    method Mutate(q: Request) returns (r: Result<string, Failed>, ghost before: Crl, ghost after: Crl)
      modifies this
      ensures Answered(old(calls))
      ensures r.Success? ==> FullTrace(trace, q, before, after, pem) && q.uuid == Str(r.value)
      ensures r.Success? ==> q.revision == Str(Canonical.Revision(Snapshot(before), digest))
      ensures var opening := Opening(q, hasPeer, digest, pem, world(old(calls)));
              && (opening.Failure? ==> r == Failure(Failed(opening.error, false, false)) && !Sent(trace))
              && (opening.Success? && world(old(calls) + 1).Refused? ==>
                    r == Failure(Failed(AuditFailed, false, true)) && !Sent(trace))
              && (opening.Success? && world(old(calls) + 1).Got? ==>
                    && |trace| > 2 && trace[1].call == Append(Attempted) && trace[2].call == CallOf(opening.value.1)
                    && (SaveProblem(q.action.Delete?, trace[2].answer).None? ==>
                          |trace| > 3 && trace[3].call == ReadCrl)
                    && (r.Failure? ==> (r.error.partial <==> !Cleared(q.action.Delete?, trace))))
      ensures forall i, j :: 0 <= i < j < |trace| ==> !(Mutates(trace[i].call) && Mutates(trace[j].call))
    {
      hide Confirms, Cleared, Opening, Readable, SaveProblem, CrlOf, Snapshot, Checked, PlanOf;
      before := Crl("", "", "", "", "", "", []);
      after := before;
      var ready := Open(q);
      if ready.Failure? {
        return Failure(Failed(ready.error, false, false)), before, after;
      }
      before := ready.value.0;
      OpeningFits(q, hasPeer, digest, pem, trace[0].answer);
      var row := Send(Append(Attempted));
      if row.Refused? {
        return Failure(Failed(AuditFailed, false, true)), before, after;
      }
      r, after := Perform(q.action, q.uuid.text, ready.value.0, ready.value.1);
    }

    /** Everything before the first row: at most one read. */
    method Open(q: Request) returns (r: Result<(Crl, Option<Payload>), ErrorKind>)
      modifies this
      ensures Answered(old(calls)) && |trace| <= 1 && forall e :: e in trace ==> e.call == ReadCrl
      ensures r == Opening(q, hasPeer, digest, pem, world(old(calls)))
      ensures r.Success? ==> |trace| == 1
    {
      hide Read, Checked, PlanOf, Snapshot, Canonical.Revision, IsRef, Protocol.ValidRevision;
      trace := [];
      if hasPeer {
        return Failure(HaUnqualified);
      }
      if !q.uuid.Str? || !IsRef(q.uuid.text) || !q.revision.Str? || !Protocol.ValidRevision(q.revision.text) {
        return Failure(BadRequest);
      }
      var first := Send(ReadCrl);
      var current := CrlOf(q.uuid.text, first);
      if current.Failure? {
        return Failure(current.error);
      }
      CrlOfIsReadable(q.uuid.text, first);
      if Canonical.Revision(Snapshot(current.value), digest) != q.revision.text {
        return Failure(Conflict);
      }
      var plan := PlanOf(q.action, q.values, current.value);
      if plan.Refusal? {
        return Failure(plan.kind);
      }
      if q.action.Delete? {
        return Success((current.value, None));
      }
      var payload := Validate(plan.values, current.value, pem);
      if payload.None? {
        return Failure(BadRequest);
      }
      return Success((current.value, payload));
    }

    /** From the POST on: the try block and its handler. */
    method Perform(action: Action, caref: string, before: Crl, payload: Option<Payload>)
      returns (r: Result<string, Failed>, ghost after: Crl)
      requires Readable(before) && |trace| == 2 && (payload.None? <==> action.Delete?)
      requires calls >= 2 && Answered(calls - 2)
      requires !Mutates(trace[0].call) && !Mutates(trace[1].call)
      modifies this
      ensures Answered(old(calls) - 2) && |trace| > 2 && trace[0] == old(trace)[0] && trace[1] == old(trace)[1]
      ensures trace[2].call == CallOf(payload)
      ensures forall k :: 0 <= k < |trace| && k != 2 ==> !Mutates(trace[k].call)
      ensures SaveProblem(action.Delete?, trace[2].answer).None? ==> |trace| > 3 && trace[3].call == ReadCrl
      ensures r.Failure? ==> (r.error.partial <==> !Cleared(action.Delete?, trace))
      ensures r.Success? ==> r.value == caref && Shown(action, caref, before, payload, after)
    {
      hide CrlOf, Confirms, SaveProblem, Readable, CallOf, Cleared;
      var problem;
      problem, after := SaveAndVerify(action, caref, before, payload);
      ghost var done := trace;
      if problem.None? {
        return Success(caref), after;
      }
      var partial := problem.value !in {Validation, AuthDenied};
      if problem == Some(AuditFailed) {
        return Failure(Failed(AuditFailed, partial, true)), after;
      }
      var last := Send(Append(Error));
      assert forall k :: 0 <= k < |done| ==> trace[k] == done[k];
      ClearedStays(action.Delete?, done, trace);
      return Failure(Failed(problem.value, partial, last.Refused?)), after;
    }

    /** The calls after the first row of a verified operation. */
    ghost predicate Shown(action: Action, caref: string, before: Crl, payload: Option<Payload>, after: Crl)
      reads this
    {
      && |trace| == 5 && SaveProblem(action.Delete?, trace[2].answer).None?
      && trace[3].call == ReadCrl && CrlOf(caref, trace[3].answer) == Success(after)
      && trace[4].call == Append(Ok) && trace[4].answer.Got?
      && Readable(before) && Readable(after) && Confirms(action.Delete?, before, payload, after)
    }

    /** The body of the try block, from the POST to the "ok" row. */
    method SaveAndVerify(action: Action, caref: string, before: Crl, payload: Option<Payload>)
      returns (problem: Option<ErrorKind>, ghost after: Crl)
      requires Readable(before) && |trace| == 2 && (payload.None? <==> action.Delete?)
      requires calls >= 2 && Answered(calls - 2)
      modifies this
      ensures Answered(old(calls) - 2)
      ensures 2 < |trace| <= 5 && trace[0] == old(trace)[0] && trace[1] == old(trace)[1]
      ensures trace[2].call == CallOf(payload)
      ensures forall k :: 2 < k < |trace| ==> !Mutates(trace[k].call)
      ensures problem.Some? ==> (problem.value in {Validation, AuthDenied} <==> Cleared(action.Delete?, trace))
      ensures SaveProblem(action.Delete?, trace[2].answer).None? ==> |trace| > 3 && trace[3].call == ReadCrl
      ensures problem.None? ==> Shown(action, caref, before, payload, after)
    {
      hide CrlOf, Confirms, SaveProblem, Readable;
      after := before;
      var response := Send(CallOf(payload));
      problem := SaveProblem(action.Delete?, response);
      if problem.Some? {
        return;
      }
      var answer := Send(ReadCrl);
      var shown := CrlOf(caref, answer);
      CrlOfFails(caref, answer);
      if shown.Failure? {
        return Some(shown.error), after;
      }
      CrlOfIsReadable(caref, answer);
      after := shown.value;
      ReadableIsComplete(before, after);
      if !Confirms(action.Delete?, before, payload, shown.value) {
        return Some(Unverified), after;
      }
      var row := Send(Append(Ok));
      return if row.Got? then None else Some(AuditFailed), after;
    }
  }

  /** What an opening that leads on has established. */
  lemma OpeningFits(q: Request, hasPeer: bool, digest: string -> string, pem: string -> bool, first: Answer)
    requires Opening(q, hasPeer, digest, pem, first).Success?
    ensures var (before, payload) := Opening(q, hasPeer, digest, pem, first).value;
            && q.uuid.Str? && CrlOf(q.uuid.text, first) == Success(before) && Readable(before)
            && |before.reasons| == REASONS
            && q.revision == Str(Canonical.Revision(Snapshot(before), digest))
            && PlanOf(q.action, q.values, before).Plan?
            && (q.action.Delete? <==> payload.None?)
            && (!q.action.Delete? ==> Checked(PlanOf(q.action, q.values, before).values, before, pem) == payload)
  {
    hide Read, Checked, PlanOf, Snapshot, Canonical.Revision, IsRef, Protocol.ValidRevision;
    CrlOfIsReadable(q.uuid.text, first);
  }

  lemma ReadableIsComplete(before: Crl, after: Crl)
    requires Readable(before) && Readable(after)
    ensures |after.reasons| == REASONS && Text.IsDigits(before.serial) && Text.IsDigits(after.serial)
  {
  }

  /** A read lacks authentication exactly if the call was denied, and raises no validations. */
  lemma CrlOfFails(caref: string, a: Answer)
    ensures CrlOf(caref, a) == Failure(AuthDenied) <==> a == Refused(Denied)
    ensures CrlOf(caref, a) != Failure(Validation)
    ensures a == Refused(Denied) ==> CrlOf(caref, a).Failure?
  {
    hide Read;
  }

  /** Later rows do not matter for the flag. */
  lemma ClearedStays(deleting: bool, t: Trace, u: Trace)
    requires 2 < |t| <= |u| && (SaveProblem(deleting, t[2].answer).Some? || |t| > 3)
    requires forall k :: 0 <= k < |t| ==> t[k] == u[k]
    ensures Cleared(deleting, u) <==> Cleared(deleting, t)
  {
    hide SaveProblem;
  }

  lemma CrlOfIsReadable(caref: string, a: Answer)
    ensures CrlOf(caref, a).Success? ==> Readable(CrlOf(caref, a).value)
  {
    hide Read;
    if a.Got? {
      ReadIsReadable(caref, a.body);
    }
  }

  // ---- A save that is reported as if nothing had been sent ------------------------

  const CAREF := "0123456789abc"

  /** No certificate is offered or revoked for the reasons from code `i` on. */
  function NoReasons(i: nat): Fields
    requires i <= REASONS
    decreases REASONS - i
  {
    if i == REASONS then Empty else Field(ReasonName(i), Arr(Nil), NoReasons(i + 1))
  }

  /** An existing CRL without revoked certificates. */
  function StoredCrl(): Fields {
    var settings := Field("lifetime", Str("9"), Field("crlmethod", Str("internal"), NoReasons(0)));
    Field("caref", Str(CAREF), Field("descr", Str("x"), Field("serial", Str("1"), settings)))
  }

  function CrlAnswer(): Json {
    Obj(Field("crl", Obj(StoredCrl()), Empty))
  }

  const ZEROS: string := seq(64, _ => '0')

  /** Some digest; which one does not matter. */
  const ALL_ZEROS: string -> string := text => ZEROS

  /** The CRL is read, the row persisted, the delete acknowledged, and the readback denied. */
  const DENIED_WORLD: nat -> Answer := k =>
    if k == 0 then Got(CrlAnswer())
    else if k == 2 then Got(Obj(Field("status", Str("deleted"), Empty)))
    else if k == 3 then Refused(Denied)
    else Got(Null)

  const DELETE_REQUEST := Request(Delete, Str(CAREF), Str(ZEROS), Null)

  lemma {:induction false} NoReasonsRead(i: nat, j: nat)
    requires i <= j < REASONS
    ensures Lookup(NoReasons(i), ReasonName(j)) == Some(Arr(Nil))
    decreases REASONS - i
  {
    if i < j {
      ReasonNamesDiffer(i, j);
      NoReasonsRead(i + 1, j);
    }
  }

  lemma {:induction false} NoReasonsHoldElse(i: nat, name: string)
    requires i <= REASONS && |name| < 16
    ensures Lookup(NoReasons(i), name) == None
    decreases REASONS - i
  {
    if i < REASONS {
      NoReasonsHoldElse(i + 1, name);
    }
  }

  lemma UnfoldLookup()
    ensures forall k, v, rest, key :: Lookup(Field(k, v, rest), key) == if k == key then Some(v) else Lookup(rest, key)
  {
  }

  lemma StoredReason(i: nat)
    requires i < REASONS
    ensures ReasonAt(StoredCrl(), i) == Some(Reason("", []))
  {
    hide NoReasons;
    NoReasonsRead(0, i);
    var name := ReasonName(i);
    assert |name| == 16;
    assert Lookup(StoredCrl(), name) == Some(Arr(Nil)) by {
      hide ReasonName, Lookup;
      UnfoldLookup();
    }
    hide StoredCrl, ReasonName, Lookup;
  }

  lemma {:induction false} StoredReasons(i: nat)
    requires i <= REASONS
    ensures ReasonsFrom(StoredCrl(), i).Some?
    decreases REASONS - i
  {
    hide StoredCrl, ReasonAt;
    if i < REASONS {
      StoredReason(i);
      StoredReasons(i + 1);
    }
  }

  lemma StoredValues()
    ensures Lookup(StoredCrl(), "caref") == Some(Str(CAREF)) && Lookup(StoredCrl(), "descr") == Some(Str("x"))
    ensures Lookup(StoredCrl(), "serial") == Some(Str("1")) && Lookup(StoredCrl(), "lifetime") == Some(Str("9"))
    ensures CrlMethod(StoredCrl()) == Some("internal") && Lookup(StoredCrl(), "text") == None
  {
    NoReasonsHoldElse(0, "text");
    hide NoReasons, Lookup;
    UnfoldLookup();
  }

  /** An answer with all fields but the text reads as they say. */
  lemma ReadGives(raw: Fields, caref: string, descr: string, serial: string, lifetime: string)
    requires IsRef(caref) && Text.IsDigits(serial) && Text.IsDigits(lifetime)
    requires Lookup(raw, "caref") == Some(Str(caref)) && Lookup(raw, "descr") == Some(Str(descr))
    requires Lookup(raw, "serial") == Some(Str(serial)) && Lookup(raw, "lifetime") == Some(Str(lifetime))
    requires Lookup(raw, "text") == None && CrlMethod(raw).Some? && ReasonsFrom(raw, 0).Some?
    ensures var answer := Obj(Field("crl", Obj(raw), Empty));
            Read(caref, answer).Some? && Read(caref, answer).value.descr == descr
  {
    hide CrlMethod, ReasonsFrom, IsRef, Text.IsDigits;
    var answer := Obj(Field("crl", Obj(raw), Empty));
    assert Lookup(answer.fields, "crl") == Some(Obj(raw));
    assert !Mentions("", "PRIVATE KEY");
  }

  lemma CarefIsRef()
    ensures IsRef(CAREF)
  {
  }

  lemma StoredCrlReads()
    ensures Read(CAREF, CrlAnswer()).Some? && Read(CAREF, CrlAnswer()).value.descr == "x"
  {
    hide StoredCrl, ReasonsFrom, Read, CrlMethod, IsRef, Lookup;
    StoredReasons(0);
    StoredValues();
    CarefIsRef();
    assert Text.IsDigits("1") && Text.IsDigits("9");
    ReadGives(StoredCrl(), CAREF, "x", "1", "9");
  }

  lemma SnapshotIsSome(crl: Crl)
    requires |crl.reasons| == REASONS
    ensures !Snapshot(crl).Null?
  {
  }

  lemma DeleteIsAdmitted(pem: string -> bool)
    ensures Opening(DELETE_REQUEST, false, ALL_ZEROS, pem, Got(CrlAnswer())).Success?
  {
    hide CrlAnswer, Read, Snapshot;
    StoredCrlReads();
    ReadIsReadable(CAREF, CrlAnswer());
    var crl := Read(CAREF, CrlAnswer()).value;
    CarefIsRef();
    assert Protocol.ValidRevision(ZEROS);
    assert CrlOf(CAREF, Got(CrlAnswer())) == Success(crl);
    assert Canonical.Revision(Snapshot(crl), ALL_ZEROS) == ZEROS by {
      SnapshotIsSome(crl);
    }
    assert PlanOf(Delete, Null, crl) == Plan(Null);
  }

  /**
   The flag misleads: in this world a delete is sent and acknowledged, and yet it is reported with `partial`
   false, as if nothing had been sent, for the readback after it lacks authentication.
   */
  method AcknowledgedDeleteReportedUnsent(pem: string -> bool)
    returns (service: CrlService, r: Result<string, Failed>)
    ensures service.world == DENIED_WORLD && |service.trace| > 3
    ensures service.trace[2].call == Remove && SaveProblem(true, service.trace[2].answer).None?
    ensures service.trace[3].call == ReadCrl && service.trace[3].answer == Refused(Denied)
    ensures r.Failure? && !r.error.partial
  {
    hide Opening, FullTrace, StoredCrl, CrlAnswer, Snapshot, Sent, Checked, PlanOf;
    service := new CrlService(false, ALL_ZEROS, pem, DENIED_WORLD);
    DeleteIsAdmitted(pem);
    OpeningFits(DELETE_REQUEST, false, ALL_ZEROS, pem, Got(CrlAnswer()));
    AnswersOfDeniedWorld();
    ghost var before, after;
    r, before, after := service.Mutate(DELETE_REQUEST);
    assert service.world(0) == Got(CrlAnswer()) && service.world(1).Got?;
    assert service.trace[2].answer == service.world(2) && service.trace[3].answer == service.world(3);
    assert r.Failure? by {
      if r.Success? {
        DeniedIsNoSuccess(service.trace, DELETE_REQUEST, before, after, pem);
      }
    }
  }

  lemma DeniedIsNoSuccess(t: Trace, q: Request, before: Crl, after: Crl, pem: string -> bool)
    requires FullTrace(t, q, before, after, pem)
    ensures |t| == 5 && t[3].answer != Refused(Denied)
  {
    hide Verified, Read, PlanOf, Checked, SaveProblem;
  }

  lemma AnswersOfDeniedWorld()
    ensures DENIED_WORLD(0) == Got(CrlAnswer()) && DENIED_WORLD(1).Got?
    ensures SaveProblem(true, DENIED_WORLD(2)).None? && DENIED_WORLD(3) == Refused(Denied)
  {
    hide CrlAnswer;
  }

}
