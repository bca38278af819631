/** The sorted list of differences between the overview snapshots of two nodes. */
module Divergence {
  import opened Wrappers
  import opened JsonTrees
  import Sorting
  import Text

  datatype Severity = Error | Warning | Info

  /** One difference; the explanatory text is left out. */
  datatype Difference = Difference(category: string, key: string, severity: Severity, a: Json, b: Json)

  /** A service, gateway or interface and the value that is compared (Null where missing). */
  datatype Entry = Entry(name: string, value: Json)

  datatype Certificate = Certificate(fingerprint: string, descr: string)

  datatype Snapshot = Snapshot(
    system: Fields, carp: Fields, hasync: Fields, services: seq<Entry>, gateways: seq<Entry>, interfaces: seq<Entry>,
    certs: seq<Certificate>)

  /** `f.get(key)`. */
  function At(f: Fields, key: string): Json {
    match Lookup(f, key) case Some(v) => v case None => Null
  }

  /** `_eq_or_diff`. */
  function FieldDiff(category: string, a: Fields, b: Fields, key: string, severity: Severity): seq<Difference> {
    if At(a, key) == At(b, key) then [] else [Difference(category, key, severity, At(a, key), At(b, key))]
  }

  // ---- Single values --------------------------------------------------------

  function SystemDiffs(a: Fields, b: Fields): seq<Difference> {
    FieldDiff("system", a, b, "config_revision", Warning) + FieldDiff("system", a, b, "version", Info)
    + FieldDiff("system", a, b, "product_id", Info)
  }

  const MASTER := Str("master")
  const BACKUP := Str("backup")
  const DISABLED := Str("disabled")

  function RolePair(a: Json, b: Json): seq<Difference> {
    if {a, b} == {MASTER, BACKUP} || (a == DISABLED && b == DISABLED) then []
    else [Difference("carp", "role_pair", if a == MASTER && b == MASTER then Error else Warning, a, b)]
  }

  function Demotion(f: Fields): Json {
    match Lookup(f, "demotion") case Some(v) => v case None => Num(0)
  }

  function CarpDiffs(a: Fields, b: Fields): seq<Difference> {
    if !IsTrue(At(a, "role")) || !IsTrue(At(b, "role")) then []
    else
      RolePair(At(a, "role"), At(b, "role")) + FieldDiff("carp", a, b, "maintenance_mode", Info)
      + if Demotion(a) != Demotion(b) && (IsTrue(Demotion(a)) || IsTrue(Demotion(b)))
        then [Difference("carp", "demotion", Warning, Demotion(a), Demotion(b))] else []
  }

  function HasyncDiffs(a: Fields, b: Fields): seq<Difference> {
    FieldDiff("hasync", a, b, "enabled", Error) + FieldDiff("hasync", a, b, "pfsync_interface", Warning)
    + FieldDiff("hasync", a, b, "pfsync_version", Info) + FieldDiff("hasync", a, b, "sync_compatibility", Info)
  }

  // ---- Named values ---------------------------------------------------------

  /** The comprehension that keys a list by name; a later entry replaces an earlier one. */
  function ByName(entries: seq<Entry>): map<string, Json> {
    if entries == [] then map[]
    else ByName(entries[..|entries| - 1])[entries[|entries| - 1].name := entries[|entries| - 1].value]
  }

  /** Services without a name are skipped. */
  function NamedOnly(entries: seq<Entry>): seq<Entry> {
    if entries == [] then []
    else
      var last := entries[|entries| - 1];
      NamedOnly(entries[..|entries| - 1]) + if last.name != "" then [last] else []
  }

  /** The elements of a list, each once. */
  function Dedup(names: seq<string>): seq<string> {
    if names == [] then []
    else
      var rest := Dedup(names[..|names| - 1]);
      if names[|names| - 1] in rest then rest else rest + [names[|names| - 1]]
  }

  function NamesOf(entries: seq<Entry>): seq<string> {
    seq(|entries|, i requires 0 <= i < |entries| => entries[i].name)
  }

  /** `sorted(set(a) | set(b))`. */
  function AllNames(a: seq<Entry>, b: seq<Entry>): seq<string> {
    Text.SortWords(Dedup(NamesOf(a) + NamesOf(b)))
  }

  function ValueOf(entries: seq<Entry>, name: string): Json {
    if name in ByName(entries) then ByName(entries)[name] else Null
  }

  /** Links are compared only where both states are known or missing. */
  predicate Comparable(category: string, v: Json) {
    category == "interfaces" ==> v in {Str("up"), Str("down"), Null, Str("")}
  }

  predicate Differs(category: string, a: seq<Entry>, b: seq<Entry>, name: string) {
    var va, vb := ValueOf(a, name), ValueOf(b, name);
    va != vb && Comparable(category, va) && Comparable(category, vb)
  }

  function NamedDiff(category: string, a: seq<Entry>, b: seq<Entry>, name: string): Difference {
    Difference(category, if name == "" then "<unnamed>" else name, Warning, ValueOf(a, name), ValueOf(b, name))
  }

  function NamedDiffs(category: string, a: seq<Entry>, b: seq<Entry>, names: seq<string>): seq<Difference> {
    if names == [] then []
    else
      var last := names[|names| - 1];
      NamedDiffs(category, a, b, names[..|names| - 1])
      + if Differs(category, a, b, last) then [NamedDiff(category, a, b, last)] else []
  }

  // ---- Certificates ---------------------------------------------------------

  function CertKey(c: Certificate): string {
    if c.fingerprint != "" then c.fingerprint else c.descr
  }

  function CertKeys(certs: seq<Certificate>): seq<string> {
    Dedup(seq(|certs|, i requires 0 <= i < |certs| => CertKey(certs[i])))
  }

  /** `set(mine) - set(theirs)`. */
  function Missing(mine: seq<string>, theirs: seq<string>): seq<string> {
    if mine == [] then []
    else
      var last := mine[|mine| - 1];
      Missing(mine[..|mine| - 1], theirs) + if last in theirs then [] else [last]
  }

  function PresenceDiff(key: string, onA: bool): Difference {
    Difference("certs", key, Info, Str(if onA then "present" else "missing"), Str(if onA then "missing" else "present"))
  }

  function PresenceDiffs(keys: seq<string>, onA: bool): seq<Difference> {
    seq(|keys|, i requires 0 <= i < |keys| => PresenceDiff(keys[i], onA))
  }

  function CertDiffs(a: seq<Certificate>, b: seq<Certificate>): seq<Difference> {
    PresenceDiffs(Text.SortWords(Missing(CertKeys(a), CertKeys(b))), true)
    + PresenceDiffs(Text.SortWords(Missing(CertKeys(b), CertKeys(a))), false)
  }

  // ---- The whole list -------------------------------------------------------

  function AllDiffs(a: Snapshot, b: Snapshot): seq<Difference> {
    SystemDiffs(a.system, b.system) + CarpDiffs(a.carp, b.carp) + HasyncDiffs(a.hasync, b.hasync)
    + NamedDiffs("services", NamedOnly(a.services), NamedOnly(b.services),
                 AllNames(NamedOnly(a.services), NamedOnly(b.services)))
    + NamedDiffs("gateways", a.gateways, b.gateways, AllNames(a.gateways, b.gateways))
    + NamedDiffs("interfaces", a.interfaces, b.interfaces, AllNames(a.interfaces, b.interfaces))
    + CertDiffs(a.certs, b.certs)
  }

  function Rank(s: Severity): nat {
    match s case Error => 0 case Warning => 1 case Info => 2
  }

  /** The sort key: severity, then category, then key. */
  predicate Before(x: Difference, y: Difference) {
    Rank(x.severity) < Rank(y.severity) ||
    (x.severity == y.severity &&
     (if x.category != y.category then Text.Le(x.category, y.category) else Text.Le(x.key, y.key)))
  }

  method DiffNamed(category: string, a: seq<Entry>, b: seq<Entry>) returns (out: seq<Difference>)
    ensures out == NamedDiffs(category, a, b, AllNames(a, b))
  {
    hide Differs;
    out := [];
    var names := AllNames(a, b);
    for i := 0 to |names|
      invariant out == NamedDiffs(category, a, b, names[..i])
    {
      assert names[..i + 1][..i] == names[..i];
      if Differs(category, a, b, names[i]) {
        out := out + [NamedDiff(category, a, b, names[i])];
      }
    }
    assert names[..|names|] == names;
  }

  method DiffCerts(a: seq<Certificate>, b: seq<Certificate>) returns (out: seq<Difference>)
    ensures out == CertDiffs(a, b)
  {
    var onlyA := Text.SortWords(Missing(CertKeys(a), CertKeys(b)));
    var onlyB := Text.SortWords(Missing(CertKeys(b), CertKeys(a)));
    out := [];
    for i := 0 to |onlyA|
      invariant out == PresenceDiffs(onlyA[..i], true)
    {
      out := out + [PresenceDiff(onlyA[i], true)];
    }
    assert onlyA[..|onlyA|] == onlyA;
    for i := 0 to |onlyB|
      invariant out == PresenceDiffs(onlyA, true) + PresenceDiffs(onlyB[..i], false)
    {
      out := out + [PresenceDiff(onlyB[i], false)];
    }
    assert onlyB[..|onlyB|] == onlyB;
  }

  /** `compute_divergence`. */
  method Compute(a: Snapshot, b: Snapshot) returns (out: seq<Difference>)
    ensures out == Sorting.Sort(AllDiffs(a, b), Before)
    ensures Sorting.Sorted(out, Before) && multiset(out) == multiset(AllDiffs(a, b))
  {
    out := SystemDiffs(a.system, b.system);
    out := out + CarpDiffs(a.carp, b.carp);
    out := out + HasyncDiffs(a.hasync, b.hasync);
    var services := DiffNamed("services", NamedOnly(a.services), NamedOnly(b.services));
    out := out + services;
    var gateways := DiffNamed("gateways", a.gateways, b.gateways);
    out := out + gateways;
    var interfaces := DiffNamed("interfaces", a.interfaces, b.interfaces);
    out := out + interfaces;
    var certs := DiffCerts(a.certs, b.certs);
    out := out + certs;
    BeforeIsPreorder();
    Sorting.SortSorts(out, Before);
    Sorting.SortPermutes(out, Before);
    out := Sorting.Sort(out, Before);
  }

  lemma BeforeIsPreorder()
    ensures Sorting.TotalPreorder(Before)
  {
    Text.LeIsTotalOrder([]);
    forall x, y, z | Before(x, y) && Before(y, z) ensures Before(x, z) {
      if x.category == z.category && x.category != y.category && x.severity == y.severity == z.severity {
        Text.LeAntisymmetric(x.category, y.category);
      }
    }
  }

}
