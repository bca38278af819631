/**
 Certificate revocation lists: reading a CRL, validating new reason lists and revoking a certificate
 (reason codes and CRL number as in sections 5.3.1 and 5.2.3 of RFC 5280).
 */
module RevocationLists {
  import opened Wrappers
  import opened JsonTrees
  import CatalogValues
  import Protocol
  import Text

  const REASONS := 7

  /** The certificates revoked for one reason, comma-joined, and all that are offered, with their labels. */
  datatype Reason = Reason(list: string, offered: seq<(string, string)>)

  /** A CRL as it is read; `reasons` has one entry per reason code. */
  datatype Crl = Crl(
    caref: string, descr: string, serial: string, lifetime: string, text: string, crlMethod: string,
    reasons: seq<Reason>)

  /** A reference: 13 hex digits. */
  predicate IsRef(s: string) {
    |s| == 13 && forall i :: 0 <= i < 13 ==> Protocol.IsHex(s[i])
  }

  function ReasonName(i: nat): string
    requires i < REASONS
  {
    "revoked_reason_" + [Text.DigitChar(i)]
  }

  // ---- Reading a CRL --------------------------------------------------------

  predicate IsChosen(option: Json) {
    option.Obj? && Lookup(option.fields, "selected") in {Some(Str("1")), Some(Num(1)), Some(Bool(true))}
  }

  function ChosenRefs(f: Fields): seq<string> {
    if f.Empty? then [] else (if IsChosen(f.value) then [f.key] else []) + ChosenRefs(f.rest)
  }

  /** `_selected`; None where it raises. */
  function SelectedText(v: Json): Option<string> {
    match v
    case Arr(Nil) => Some("")
    case Obj(f) => Some(Text.Join(ChosenRefs(f), ','))
    case Str(s) => Some(s)
    case _ => None
  }

  /** The offered certificates of one reason. */
  function Offered(f: Fields): Option<seq<(string, string)>> {
    if f.Empty? then Some([])
    else if !IsRef(f.key) || !f.value.Obj? then None
    else match (Lookup(f.value.fields, "value"), Offered(f.rest))
         case (Some(Str(caption)), Some(rest)) => Some([(f.key, caption)] + rest)
         case _ => None
  }

  /** The options of one reason; PHP sends an empty list for none. */
  function ReasonFields(raw: Fields, i: nat): Option<Fields>
    requires i < REASONS
  {
    match Lookup(raw, ReasonName(i))
    case Some(Arr(Nil)) => Some(Empty)
    case Some(Obj(f)) => Some(f)
    case _ => None
  }

  function ReasonAt(raw: Fields, i: nat): Option<Reason>
    requires i < REASONS
  {
    match ReasonFields(raw, i)
    case None => None
    case Some(f) =>
      match Offered(f)
      case Some(offered) => Some(Reason(Text.Join(ChosenRefs(f), ','), offered))
      case None => None
  }

  /** The reasons from code `i` on. */
  function ReasonsFrom(raw: Fields, i: nat): (rs: Option<seq<Reason>>)
    requires i <= REASONS
    ensures rs.Some? ==> |rs.value| == REASONS - i
    decreases REASONS - i
  {
    if i == REASONS then Some([])
    else match (ReasonAt(raw, i), ReasonsFrom(raw, i + 1))
         case (Some(reason), Some(rest)) => Some([reason] + rest)
         case _ => None
  }

  function TextField(raw: Fields, name: string, default: Option<string>): Option<string> {
    match Lookup(raw, name)
    case None => default
    case Some(Str(s)) => Some(s)
    case _ => None
  }

  predicate Mentions(text: string, part: string) {
    text != "" && (part <= text || Mentions(text[1..], part))
  }

  function CrlMethod(raw: Fields): Option<string> {
    match Lookup(raw, "crlmethod")
    case None => None
    case Some(v) =>
      match SelectedText(v)
      case Some(m) => if m in {"internal", "existing"} then Some(m) else None
      case None => None
  }

  /** `_raw`: the CRL of a CA, or None where the answer is refused. */
  function Read(caref: string, answer: Json): Option<Crl> {
    match (if answer.Obj? then Lookup(answer.fields, "crl") else None)
    case Some(Obj(raw)) =>
      if !IsRef(caref) || Lookup(raw, "caref") != Some(Str(caref)) then None
      else (match (TextField(raw, "descr", Some("")), TextField(raw, "serial", None), TextField(raw, "lifetime", None),
                   TextField(raw, "text", Some("")), CrlMethod(raw), ReasonsFrom(raw, 0))
            case (Some(descr), Some(serial), Some(lifetime), Some(text), Some(m), Some(reasons)) =>
              if Text.IsDigits(serial) && Text.IsDigits(lifetime) && !Mentions(text, "PRIVATE KEY")
              then Some(Crl(caref, descr, serial, lifetime, text, m, reasons)) else None
            case _ => None)
    case _ => None
  }

  /** A comma-joined list of references. */
  ghost predicate IsList(list: string) {
    exists refs :: list == Text.Join(refs, ',') && forall r :: r in refs ==> IsRef(r)
  }

  /** What `Read` accepts. */
  ghost predicate Readable(crl: Crl) {
    && IsRef(crl.caref) && |crl.reasons| == REASONS
    && Text.IsDigits(crl.serial) && Text.IsDigits(crl.lifetime)
    && crl.crlMethod in {"internal", "existing"}
    && forall reason :: reason in crl.reasons ==> IsList(reason.list)
  }

  lemma {:induction false} ChosenAreOffered(f: Fields)
    requires Offered(f).Some?
    ensures forall r :: r in ChosenRefs(f) ==> IsRef(r)
  {
    if f.Field? {
      ChosenAreOffered(f.rest);
    }
  }

  lemma {:induction false} ReasonsAreLists(raw: Fields, i: nat)
    requires i <= REASONS
    ensures ReasonsFrom(raw, i).Some? ==> forall reason :: reason in ReasonsFrom(raw, i).value ==> IsList(reason.list)
    decreases REASONS - i
  {
    if i < REASONS && ReasonsFrom(raw, i).Some? {
      ReasonsAreLists(raw, i + 1);
      ChosenAreOffered(ReasonFields(raw, i).value);
    }
  }

  lemma ReadIsReadable(caref: string, answer: Json)
    ensures Read(caref, answer).Some? ==>
              Readable(Read(caref, answer).value) && Read(caref, answer).value.caref == caref
  {
    hide ReasonsFrom, Mentions, IsList, IsRef;
    if Read(caref, answer).Some? {
      ReasonsAreLists(Lookup(answer.fields, "crl").value.fields, 0);
    }
  }

  // ---- Lists of references --------------------------------------------------

  function Elements(refs: seq<string>): set<string> {
    set r | r in refs
  }

  /** The references of a comma-joined list. */
  function Refs(list: string): set<string> {
    if list == "" then {} else Elements(Text.Split(list, ','))
  }

  /** `[ref for ref in list.split(",") if ref and ref != cert]`. */
  function Without(parts: seq<string>, cert: string): seq<string> {
    if parts == [] then []
    else (if parts[0] != "" && parts[0] != cert then [parts[0]] else []) + Without(parts[1..], cert)
  }

  /** Joining references and splitting them again are inverse; the empty list joins to the empty text. */
  lemma JoinedRefs(refs: seq<string>)
    requires forall r :: r in refs ==> IsRef(r)
    ensures refs != [] ==> Text.Split(Text.Join(refs, ','), ',') == refs
    ensures Refs(Text.Join(refs, ',')) == Elements(refs)
    ensures Text.Join(refs, ',') == "" <==> refs == []
  {
    forall r | r in refs ensures ',' !in r {
      forall i | 0 <= i < |r| ensures r[i] != ',' {
        assert Protocol.IsHex(r[i]);
      }
    }
    if refs != [] {
      Text.SplitJoin(refs, ',');
      assert IsRef(refs[0]);
      assert |Text.Join(refs, ',')| >= |refs[0]|;
    }
  }

  lemma {:induction false} WithoutKeepsOthers(parts: seq<string>, cert: string, r: string)
    ensures r in Without(parts, cert) <==> r in parts && r != "" && r != cert
  {
    if parts != [] {
      WithoutKeepsOthers(parts[1..], cert, r);
      assert r in parts <==> r == parts[0] || r in parts[1..];
    }
  }

  // ---- Validation -----------------------------------------------------------

  /** The references that a value lists; None for anything but a list of texts or a text. */
  function RefItems(v: Json): Option<seq<string>> {
    match v
    case Arr(items) => if CatalogValues.AllText(items) then Some(CatalogValues.Texts(items)) else None
    case Str(s) => Some(if s == "" then [] else Text.Split(s, ','))
    case _ => None
  }

  /** A submitted value, or else the current one. */
  function Merged(values: Fields, name: string, current: string): Json {
    match Lookup(values, name)
    case Some(v) => v
    case None => Str(current)
  }

  function Wanted(values: Fields, crl: Crl, i: nat): Option<seq<string>>
    requires i < REASONS == |crl.reasons|
  {
    RefItems(Merged(values, ReasonName(i), crl.reasons[i].list))
  }

  function OfferedRefs(reason: Reason): set<string> {
    set choice | choice in reason.offered :: choice.0
  }

  /** Every reference is well formed, offered, and new. */
  predicate AllNew(refs: seq<string>, offered: set<string>, seen: set<string>) {
    refs == [] ||
    (IsRef(refs[0]) && refs[0] in offered && refs[0] !in seen && AllNew(refs[1..], offered, seen + {refs[0]}))
  }

  const MAX_REFS := 5000

  /** The lists from reason `i` on, after `seen` was listed before. */
  function Gather(values: Fields, crl: Crl, i: nat, seen: set<string>): (lists: Option<seq<seq<string>>>)
    requires i <= REASONS == |crl.reasons|
    ensures lists.Some? ==> |lists.value| == REASONS - i
    decreases REASONS - i
  {
    if i == REASONS then Some([])
    else match Wanted(values, crl, i)
         case None => None
         case Some(refs) =>
           if |refs| > MAX_REFS || !AllNew(refs, OfferedRefs(crl.reasons[i]), seen) then None
           else match Gather(values, crl, i + 1, seen + Elements(refs))
                case None => None
                case Some(rest) => Some([refs] + rest)
  }

  ghost predicate NoRepeats(refs: seq<string>) {
    forall a, b :: 0 <= a < b < |refs| ==> refs[a] != refs[b]
  }

  /** What acceptance of the reason lists means: offered references only, and none listed twice anywhere. */
  ghost predicate Partition(values: Fields, crl: Crl, i: nat, seen: set<string>, lists: seq<seq<string>>)
    requires |lists| + i == REASONS == |crl.reasons|
  {
    && (forall k :: 0 <= k < |lists| ==>
          && Wanted(values, crl, i + k) == Some(lists[k]) && |lists[k]| <= MAX_REFS && NoRepeats(lists[k])
          && forall r :: r in lists[k] ==> IsRef(r) && r in OfferedRefs(crl.reasons[i + k]) && r !in seen)
    && (forall k, l :: 0 <= k < l < |lists| ==> forall r :: r in lists[k] ==> r !in lists[l])
  }

  lemma {:induction false} AllNewMeans(refs: seq<string>, offered: set<string>, seen: set<string>)
    ensures AllNew(refs, offered, seen) <==>
            NoRepeats(refs) && forall r :: r in refs ==> IsRef(r) && r in offered && r !in seen
  {
    hide IsRef;
    if refs != [] {
      var rest := refs[1..];
      AllNewMeans(rest, offered, seen + {refs[0]});
      assert forall r :: r in refs <==> r == refs[0] || r in rest;
      assert NoRepeats(refs) <==> NoRepeats(rest) && refs[0] !in rest by {
        assert forall a :: 0 <= a < |rest| ==> rest[a] == refs[a + 1];
      }
    }
  }

  /** One more list in front. */
  lemma PartitionCons(values: Fields, crl: Crl, i: nat, seen: set<string>, refs: seq<string>, rest: seq<seq<string>>)
    requires 1 + |rest| + i == REASONS == |crl.reasons|
    requires Wanted(values, crl, i) == Some(refs) && |refs| <= MAX_REFS
    requires AllNew(refs, OfferedRefs(crl.reasons[i]), seen)
    requires Partition(values, crl, i + 1, seen + Elements(refs), rest)
    ensures Partition(values, crl, i, seen, [refs] + rest)
  {
    hide IsRef, Wanted, AllNew, OfferedRefs;
    AllNewMeans(refs, OfferedRefs(crl.reasons[i]), seen);
    var lists := [refs] + rest;
    forall k | 0 <= k < |lists|
      ensures Wanted(values, crl, i + k) == Some(lists[k]) && |lists[k]| <= MAX_REFS && NoRepeats(lists[k])
      ensures forall r :: r in lists[k] ==> IsRef(r) && r in OfferedRefs(crl.reasons[i + k]) && r !in seen {
      if k > 0 {
        assert lists[k] == rest[k - 1] && i + k == i + 1 + (k - 1);
      }
    }
    forall k, l | 0 <= k < l < |lists| ensures forall r :: r in lists[k] ==> r !in lists[l] {
      assert lists[l] == rest[l - 1];
      if k > 0 {
        assert lists[k] == rest[k - 1];
      }
    }
  }

  lemma {:induction false} GatheredIsPartition(values: Fields, crl: Crl, i: nat, seen: set<string>)
    requires i <= REASONS == |crl.reasons|
    ensures var lists := Gather(values, crl, i, seen); lists.Some? ==> Partition(values, crl, i, seen, lists.value)
    decreases REASONS - i
  {
    hide Partition, IsRef, Wanted, AllNew, OfferedRefs, Elements;
    if Gather(values, crl, i, seen).Some? {
      if i < REASONS {
        var refs := Wanted(values, crl, i).value;
        GatheredIsPartition(values, crl, i + 1, seen + Elements(refs));
        PartitionCons(values, crl, i, seen, refs, Gather(values, crl, i + 1, seen + Elements(refs)).value);
      } else {
        EmptyPartition(values, crl, seen);
      }
    }
  }

  lemma EmptyPartition(values: Fields, crl: Crl, seen: set<string>)
    requires |crl.reasons| == REASONS
    ensures Partition(values, crl, REASONS, seen, [])
  {
  }

  /** Any partition is accepted, so the two descriptions agree. */
  lemma {:induction false} PartitionIsGathered(
    values: Fields, crl: Crl, i: nat, seen: set<string>, lists: seq<seq<string>>)
    requires |lists| + i == REASONS == |crl.reasons| && Partition(values, crl, i, seen, lists)
    ensures Gather(values, crl, i, seen) == Some(lists)
    decreases |lists|
  {
    hide IsRef, Wanted;
    if lists != [] {
      var refs, rest := lists[0], lists[1..];
      AllNewMeans(refs, OfferedRefs(crl.reasons[i]), seen);
      assert Wanted(values, crl, i + 0) == Some(lists[0]);
      forall k | 0 <= k < |rest|
        ensures Wanted(values, crl, i + 1 + k) == Some(rest[k]) && |rest[k]| <= MAX_REFS && NoRepeats(rest[k])
        ensures forall r :: r in rest[k] ==>
                  IsRef(r) && r in OfferedRefs(crl.reasons[i + 1 + k]) && r !in seen + Elements(refs) {
        assert rest[k] == lists[k + 1] && i + 1 + k == i + (k + 1);
      }
      PartitionIsGathered(values, crl, i + 1, seen + Elements(refs), rest);
      assert lists == [refs] + rest;
    }
  }

}
