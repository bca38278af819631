/** What the divergence list says, and that it does not depend on which node is called A. */
module DivergenceLaws {
  import opened JsonTrees
  import opened Divergence
  import Sorting
  import Text

  // ---- Exchanging the nodes -------------------------------------------------

  function Flip(d: Difference): Difference {
    d.(a := d.b, b := d.a)
  }

  function FlipAll(s: seq<Difference>): seq<Difference> {
    seq(|s|, i requires 0 <= i < |s| => Flip(s[i]))
  }

  lemma FlipJoined(s: seq<Difference>, t: seq<Difference>)
    ensures FlipAll(s + t) == FlipAll(s) + FlipAll(t)
  {
  }

  lemma {:induction false} FlipInserted(x: Difference, s: seq<Difference>)
    ensures Sorting.Insert(Flip(x), FlipAll(s), Before) == FlipAll(Sorting.Insert(x, s, Before))
  {
    if s != [] {
      assert FlipAll(s)[1..] == FlipAll(s[1..]) && FlipAll(s)[0] == Flip(s[0]);
      assert Before(Flip(x), Flip(s[0])) == Before(x, s[0]);
      FlipInserted(x, s[1..]);
    }
  }

  lemma {:induction false} FlipSorted(s: seq<Difference>)
    ensures Sorting.Sort(FlipAll(s), Before) == FlipAll(Sorting.Sort(s, Before))
  {
    if s != [] {
      assert FlipAll(s)[1..] == FlipAll(s[1..]) && FlipAll(s)[0] == Flip(s[0]);
      FlipSorted(s[1..]);
      FlipInserted(s[0], Sorting.Sort(s[1..], Before));
    }
  }

  // ---- Names ----------------------------------------------------------------

  lemma {:induction false} DedupCounts(names: seq<string>, n: string)
    ensures multiset(Dedup(names))[n] == if n in names then 1 else 0
  {
    if names != [] {
      var last, before := names[|names| - 1], names[..|names| - 1];
      DedupCounts(before, n);
      DedupCounts(before, last);
      assert names == before + [last];
      assert last in Dedup(before) <==> last in multiset(Dedup(before));
    }
  }

  lemma AllNamesSymmetric(a: seq<Entry>, b: seq<Entry>)
    ensures AllNames(a, b) == AllNames(b, a)
  {
    var s, t := Dedup(NamesOf(a) + NamesOf(b)), Dedup(NamesOf(b) + NamesOf(a));
    forall n ensures multiset(s)[n] == multiset(t)[n] {
      DedupCounts(NamesOf(a) + NamesOf(b), n);
      DedupCounts(NamesOf(b) + NamesOf(a), n);
    }
    Text.SortWordsIffSameWords(s, t);
  }

  lemma AllNamesHold(a: seq<Entry>, b: seq<Entry>, n: string)
    ensures n in AllNames(a, b) <==> n in NamesOf(a) || n in NamesOf(b)
  {
    var s := Dedup(NamesOf(a) + NamesOf(b));
    DedupCounts(NamesOf(a) + NamesOf(b), n);
    Sorting.SortPermutes(s, Text.Le);
    assert n in AllNames(a, b) <==> n in multiset(AllNames(a, b));
    assert n in s <==> n in multiset(s);
  }

  lemma {:induction false} ByNameKeys(entries: seq<Entry>, n: string)
    ensures n in ByName(entries) <==> n in NamesOf(entries)
  {
    if entries != [] {
      var k := |entries| - 1;
      ByNameKeys(entries[..k], n);
      assert NamesOf(entries) == NamesOf(entries[..k]) + [entries[k].name];
    }
  }

  lemma {:induction false} NamedDiffsHold(
    category: string, a: seq<Entry>, b: seq<Entry>, names: seq<string>, d: Difference)
    ensures d in NamedDiffs(category, a, b, names)
            <==> exists n :: n in names && Differs(category, a, b, n) && d == NamedDiff(category, a, b, n)
  {
    hide Differs;
    if names != [] {
      var last, before := names[|names| - 1], names[..|names| - 1];
      NamedDiffsHold(category, a, b, before, d);
      assert names == before + [last];
    }
  }

  // ---- Main results ---------------------------------------------------------

  /** A named object is listed, with both values, exactly when its values differ. */
  lemma ListedIffDifferent(category: string, a: seq<Entry>, b: seq<Entry>, n: string)
    requires n != "" && n != "<unnamed>"
    ensures var listed := NamedDiffs(category, a, b, AllNames(a, b));
            && (NamedDiff(category, a, b, n) in listed <==> Differs(category, a, b, n))
            && forall d :: d in listed && d.key == n ==> d == NamedDiff(category, a, b, n)
  {
    hide Differs, AllNames;
    var listed := NamedDiffs(category, a, b, AllNames(a, b));
    NamedDiffsHold(category, a, b, AllNames(a, b), NamedDiff(category, a, b, n));
    AllNamesHold(a, b, n);
    ByNameKeys(a, n);
    ByNameKeys(b, n);
    assert n !in AllNames(a, b) ==> ValueOf(a, n) == ValueOf(b, n) == Null;
    MissingAgrees(category, a, b, n);
    forall d | d in listed && d.key == n ensures d == NamedDiff(category, a, b, n) {
      NamedDiffsHold(category, a, b, AllNames(a, b), d);
    }
  }

  lemma MissingAgrees(category: string, a: seq<Entry>, b: seq<Entry>, n: string)
    ensures ValueOf(a, n) == ValueOf(b, n) ==> !Differs(category, a, b, n)
  {
  }

  /** Objects are told apart by their names. */
  ghost predicate AllNamed(s: Snapshot) {
    && (forall e :: e in s.gateways ==> e.name != "")
    && (forall e :: e in s.interfaces ==> e.name != "")
  }

  lemma FieldDiffFlips(category: string, a: Fields, b: Fields, key: string, severity: Severity)
    ensures FieldDiff(category, b, a, key, severity) == FlipAll(FieldDiff(category, a, b, key, severity))
  {
  }

  lemma SystemFlips(a: Fields, b: Fields)
    ensures SystemDiffs(b, a) == FlipAll(SystemDiffs(a, b))
  {
    hide FieldDiff;
    FieldDiffFlips("system", a, b, "config_revision", Warning);
    FieldDiffFlips("system", a, b, "version", Info);
    FieldDiffFlips("system", a, b, "product_id", Info);
  }

  lemma HasyncFlips(a: Fields, b: Fields)
    ensures HasyncDiffs(b, a) == FlipAll(HasyncDiffs(a, b))
  {
    hide FieldDiff;
    FieldDiffFlips("hasync", a, b, "enabled", Error);
    FieldDiffFlips("hasync", a, b, "pfsync_interface", Warning);
    FieldDiffFlips("hasync", a, b, "pfsync_version", Info);
    FieldDiffFlips("hasync", a, b, "sync_compatibility", Info);
  }

  lemma RolePairFlips(a: Json, b: Json)
    ensures RolePair(b, a) == FlipAll(RolePair(a, b))
  {
    assert {a, b} == {b, a};
  }

  lemma CarpFlips(a: Fields, b: Fields)
    ensures CarpDiffs(b, a) == FlipAll(CarpDiffs(a, b))
  {
    hide FieldDiff, RolePair;
    RolePairFlips(At(a, "role"), At(b, "role"));
    FieldDiffFlips("carp", a, b, "maintenance_mode", Info);
  }

  lemma {:induction false} NamedFlips(category: string, a: seq<Entry>, b: seq<Entry>, names: seq<string>)
    ensures NamedDiffs(category, b, a, names) == FlipAll(NamedDiffs(category, a, b, names))
  {
    if names != [] {
      var last, before := names[|names| - 1], names[..|names| - 1];
      NamedFlips(category, a, b, before);
      assert Differs(category, a, b, last) == Differs(category, b, a, last);
      assert NamedDiff(category, b, a, last) == Flip(NamedDiff(category, a, b, last));
      FlipJoined(NamedDiffs(category, a, b, before), [NamedDiff(category, a, b, last)]);
    }
  }

  lemma NamedSectionFlips(category: string, a: seq<Entry>, b: seq<Entry>)
    ensures NamedDiffs(category, b, a, AllNames(b, a)) == FlipAll(NamedDiffs(category, a, b, AllNames(a, b)))
  {
    AllNamesSymmetric(a, b);
    NamedFlips(category, a, b, AllNames(a, b));
  }

  lemma CertsFlip(a: seq<Certificate>, b: seq<Certificate>)
    ensures multiset(CertDiffs(b, a)) == multiset(FlipAll(CertDiffs(a, b)))
  {
    var onlyA := Text.SortWords(Missing(CertKeys(a), CertKeys(b)));
    var onlyB := Text.SortWords(Missing(CertKeys(b), CertKeys(a)));
    FlipJoined(PresenceDiffs(onlyA, true), PresenceDiffs(onlyB, false));
    assert FlipAll(PresenceDiffs(onlyA, true)) == PresenceDiffs(onlyA, false);
    assert FlipAll(PresenceDiffs(onlyB, false)) == PresenceDiffs(onlyB, true);
  }

  /** The differences but for certificates, in the order in which they are found. */
  function Plain(a: Snapshot, b: Snapshot): seq<Difference> {
    SystemDiffs(a.system, b.system) + CarpDiffs(a.carp, b.carp) + HasyncDiffs(a.hasync, b.hasync)
    + NamedDiffs("services", NamedOnly(a.services), NamedOnly(b.services),
                 AllNames(NamedOnly(a.services), NamedOnly(b.services)))
    + NamedDiffs("gateways", a.gateways, b.gateways, AllNames(a.gateways, b.gateways))
    + NamedDiffs("interfaces", a.interfaces, b.interfaces, AllNames(a.interfaces, b.interfaces))
  }

  lemma PlainFlips(a: Snapshot, b: Snapshot)
    ensures Plain(b, a) == FlipAll(Plain(a, b))
  {
    hide SystemDiffs, CarpDiffs, HasyncDiffs, NamedDiffs, AllNames;
    SystemFlips(a.system, b.system);
    CarpFlips(a.carp, b.carp);
    HasyncFlips(a.hasync, b.hasync);
    NamedSectionFlips("services", NamedOnly(a.services), NamedOnly(b.services));
    NamedSectionFlips("gateways", a.gateways, b.gateways);
    NamedSectionFlips("interfaces", a.interfaces, b.interfaces);
  }

  // ---- Keys tell differences apart --------------------------------------------

  ghost predicate Keyed(s: seq<Difference>) {
    forall x, y :: x in s && y in s && x.category == y.category && x.key == y.key ==> x == y
  }

  ghost predicate OfCategory(s: seq<Difference>, category: string) {
    forall x :: x in s ==> x.category == category
  }

  lemma FixedSectionsKeyed(a: Fields, b: Fields)
    ensures Keyed(SystemDiffs(a, b)) && OfCategory(SystemDiffs(a, b), "system")
    ensures Keyed(HasyncDiffs(a, b)) && OfCategory(HasyncDiffs(a, b), "hasync")
  {
    hide At;
  }

  lemma CarpKeyed(a: Fields, b: Fields)
    ensures Keyed(CarpDiffs(a, b)) && OfCategory(CarpDiffs(a, b), "carp")
  {
    hide At, Demotion;
  }

  lemma NamedKeyed(category: string, a: seq<Entry>, b: seq<Entry>)
    requires forall e :: e in a + b ==> e.name != ""
    ensures Keyed(NamedDiffs(category, a, b, AllNames(a, b)))
    ensures OfCategory(NamedDiffs(category, a, b, AllNames(a, b)), category)
  {
    hide Differs, ValueOf, AllNames;
    var s := NamedDiffs(category, a, b, AllNames(a, b));
    forall x | x in s
      ensures x.category == category && x == NamedDiff(category, a, b, x.key) {
      NamedDiffsHold(category, a, b, AllNames(a, b), x);
      var n :| n in AllNames(a, b) && Differs(category, a, b, n) && x == NamedDiff(category, a, b, n);
      AllNamesHold(a, b, n);
      NamesNonEmpty(a, b, n);
    }
  }

  lemma NamesNonEmpty(a: seq<Entry>, b: seq<Entry>, n: string)
    requires forall e :: e in a + b ==> e.name != ""
    requires n in NamesOf(a) || n in NamesOf(b)
    ensures n != ""
  {
    if n in NamesOf(a) {
      var i :| 0 <= i < |a| && NamesOf(a)[i] == n;
      assert a[i] in a + b;
    } else {
      var i :| 0 <= i < |b| && NamesOf(b)[i] == n;
      assert b[i] in a + b;
    }
  }

  lemma {:induction false} NamedOnlyNamed(entries: seq<Entry>)
    ensures forall e :: e in NamedOnly(entries) ==> e.name != ""
  {
    if entries != [] {
      NamedOnlyNamed(entries[..|entries| - 1]);
    }
  }

  lemma {:induction false} MissingHolds(mine: seq<string>, theirs: seq<string>, k: string)
    ensures k in Missing(mine, theirs) <==> k in mine && k !in theirs
  {
    if mine != [] {
      MissingHolds(mine[..|mine| - 1], theirs, k);
      assert mine == mine[..|mine| - 1] + [mine[|mine| - 1]];
    }
  }

  lemma CertsKeyed(a: seq<Certificate>, b: seq<Certificate>)
    ensures Keyed(CertDiffs(a, b)) && OfCategory(CertDiffs(a, b), "certs")
  {
    hide CertKeys, Text.SortWords;
    forall x | x in CertDiffs(a, b) ensures x.category == "certs" && x == PresenceDiff(x.key, x.key in CertKeys(a)) {
      var onlyA, onlyB := Missing(CertKeys(a), CertKeys(b)), Missing(CertKeys(b), CertKeys(a));
      SortedWordsSame(onlyA, x.key);
      SortedWordsSame(onlyB, x.key);
      MissingHolds(CertKeys(a), CertKeys(b), x.key);
      MissingHolds(CertKeys(b), CertKeys(a), x.key);
    }
  }

  lemma SortedWordsSame(words: seq<string>, w: string)
    ensures w in Text.SortWords(words) <==> w in words
  {
    Sorting.SortPermutes(words, Text.Le);
    assert w in Text.SortWords(words) <==> w in multiset(Text.SortWords(words));
    assert w in words <==> w in multiset(words);
  }

  ghost predicate Lacks(s: seq<Difference>, category: string) {
    forall x :: x in s ==> x.category != category
  }

  lemma KeyedJoin(s: seq<Difference>, t: seq<Difference>, category: string)
    requires Keyed(s) && Keyed(t) && OfCategory(t, category) && Lacks(s, category)
    ensures Keyed(s + t)
    ensures forall c :: Lacks(s, c) && c != category ==> Lacks(s + t, c)
  {
  }

  lemma OtherCategories(s: seq<Difference>, category: string)
    requires OfCategory(s, category)
    ensures forall c :: c != category ==> Lacks(s, c)
  {
  }

  /** Every difference is determined by its category and key. */
  lemma AllKeyed(a: Snapshot, b: Snapshot)
    requires AllNamed(a) && AllNamed(b)
    ensures Keyed(AllDiffs(a, b))
  {
    hide SystemDiffs, CarpDiffs, HasyncDiffs, NamedDiffs, AllNames, CertDiffs, Keyed, Lacks, OfCategory;
    FixedSectionsKeyed(a.system, b.system);
    FixedSectionsKeyed(a.hasync, b.hasync);
    CarpKeyed(a.carp, b.carp);
    NamedOnlyNamed(a.services);
    NamedOnlyNamed(b.services);
    NamedKeyed("services", NamedOnly(a.services), NamedOnly(b.services));
    NamedKeyed("gateways", a.gateways, b.gateways);
    NamedKeyed("interfaces", a.interfaces, b.interfaces);
    CertsKeyed(a.certs, b.certs);
    var s1, s2 := SystemDiffs(a.system, b.system), CarpDiffs(a.carp, b.carp);
    var s3 := HasyncDiffs(a.hasync, b.hasync);
    var s4 := NamedDiffs("services", NamedOnly(a.services), NamedOnly(b.services),
                         AllNames(NamedOnly(a.services), NamedOnly(b.services)));
    var s5 := NamedDiffs("gateways", a.gateways, b.gateways, AllNames(a.gateways, b.gateways));
    var s6 := NamedDiffs("interfaces", a.interfaces, b.interfaces, AllNames(a.interfaces, b.interfaces));
    OtherCategories(s1, "system");
    KeyedJoin(s1, s2, "carp");
    KeyedJoin(s1 + s2, s3, "hasync");
    KeyedJoin(s1 + s2 + s3, s4, "services");
    KeyedJoin(s1 + s2 + s3 + s4, s5, "gateways");
    KeyedJoin(s1 + s2 + s3 + s4 + s5, s6, "interfaces");
    KeyedJoin(s1 + s2 + s3 + s4 + s5 + s6, CertDiffs(a.certs, b.certs), "certs");
  }

  // ---- What the reported list holds -------------------------------------------

  /** What `compute_divergence` returns. */
  function Reported(a: Snapshot, b: Snapshot): seq<Difference> {
    Sorting.Sort(AllDiffs(a, b), Before)
  }

  /** The compared entries of a section. */
  function Section(s: Snapshot, category: string): seq<Entry> {
    if category == "services" then NamedOnly(s.services)
    else if category == "gateways" then s.gateways
    else s.interfaces
  }

  const NAMED_SECTIONS := {"services", "gateways", "interfaces"}

  lemma NamedCategory(category: string, a: seq<Entry>, b: seq<Entry>)
    ensures OfCategory(NamedDiffs(category, a, b, AllNames(a, b)), category)
  {
    hide Differs, AllNames;
    forall x | x in NamedDiffs(category, a, b, AllNames(a, b)) ensures x.category == category {
      NamedDiffsHold(category, a, b, AllNames(a, b), x);
    }
  }

  lemma ReportedAreAll(a: Snapshot, b: Snapshot, d: Difference)
    ensures d in Reported(a, b) <==> d in AllDiffs(a, b)
  {
    hide AllDiffs;
    Sorting.SortPermutes(AllDiffs(a, b), Before);
    assert d in Reported(a, b) <==> d in multiset(Reported(a, b));
    assert d in AllDiffs(a, b) <==> d in multiset(AllDiffs(a, b));
  }

  /** A reported difference comes from the section of its category. */
  lemma ReportedFromSection(a: Snapshot, b: Snapshot, d: Difference)
    ensures d.category in NAMED_SECTIONS ==>
              var mine, theirs := Section(a, d.category), Section(b, d.category);
              d in Reported(a, b) <==> d in NamedDiffs(d.category, mine, theirs, AllNames(mine, theirs))
    ensures d.category == "certs" ==> (d in Reported(a, b) <==> d in CertDiffs(a.certs, b.certs))
  {
    hide SystemDiffs, CarpDiffs, HasyncDiffs, NamedDiffs, AllNames, CertDiffs, Keyed;
    ReportedAreAll(a, b, d);
    FixedSectionsKeyed(a.system, b.system);
    FixedSectionsKeyed(a.hasync, b.hasync);
    CarpKeyed(a.carp, b.carp);
    NamedCategory("services", NamedOnly(a.services), NamedOnly(b.services));
    NamedCategory("gateways", a.gateways, b.gateways);
    NamedCategory("interfaces", a.interfaces, b.interfaces);
    CertsKeyed(a.certs, b.certs);
  }

  /**
   A service, gateway or interface is reported, with both values, exactly when its values differ, and
   nothing else is reported under its name in that section.
   */
  lemma ReportedIffDifferent(category: string, a: Snapshot, b: Snapshot, n: string)
    requires category in NAMED_SECTIONS && n != "" && n != "<unnamed>"
    ensures var mine, theirs := Section(a, category), Section(b, category);
            && (NamedDiff(category, mine, theirs, n) in Reported(a, b) <==> Differs(category, mine, theirs, n))
            && forall d :: d in Reported(a, b) && d.category == category && d.key == n ==>
                 d == NamedDiff(category, mine, theirs, n)
  {
    hide Differs, AllNames, NamedDiffs, Reported, Section;
    var mine, theirs := Section(a, category), Section(b, category);
    ListedIffDifferent(category, mine, theirs, n);
    ReportedFromSection(a, b, NamedDiff(category, mine, theirs, n));
    forall d | d in Reported(a, b) && d.category == category && d.key == n
      ensures d == NamedDiff(category, mine, theirs, n) {
      ReportedFromSection(a, b, d);
    }
  }

  /** Some certificate of the node has this fingerprint or, without one, this description. */
  ghost predicate HasCert(certs: seq<Certificate>, key: string) {
    exists c :: c in certs && CertKey(c) == key
  }

  lemma CertKeysHold(certs: seq<Certificate>, key: string)
    ensures key in CertKeys(certs) <==> HasCert(certs, key)
  {
    var keys := seq(|certs|, i requires 0 <= i < |certs| => CertKey(certs[i]));
    DedupCounts(keys, key);
    assert key in CertKeys(certs) <==> key in multiset(Dedup(keys));
    if key in keys {
      var i :| 0 <= i < |keys| && keys[i] == key;
      assert certs[i] in certs;
    }
    if c :| c in certs && CertKey(c) == key {
      var i :| 0 <= i < |certs| && certs[i] == c;
      assert keys[i] == key;
    }
  }

  /**
   A certificate is reported exactly when one node has it and the other does not, as present there and missing
   here, and no other difference of this category is reported.
   */
  lemma CertReportedIffOneSided(a: Snapshot, b: Snapshot, key: string)
    ensures PresenceDiff(key, true) in Reported(a, b) <==> HasCert(a.certs, key) && !HasCert(b.certs, key)
    ensures PresenceDiff(key, false) in Reported(a, b) <==> HasCert(b.certs, key) && !HasCert(a.certs, key)
    ensures forall d :: d in Reported(a, b) && d.category == "certs" && d.key == key ==>
              d in {PresenceDiff(key, true), PresenceDiff(key, false)}
  {
    hide Reported, CertKeys, HasCert, CertDiffs;
    CertKeysHold(a.certs, key);
    CertKeysHold(b.certs, key);
    CertDiffsHold(a.certs, b.certs, key);
    ReportedFromSection(a, b, PresenceDiff(key, true));
    ReportedFromSection(a, b, PresenceDiff(key, false));
    forall d | d in Reported(a, b) && d.category == "certs" && d.key == key
      ensures d in {PresenceDiff(key, true), PresenceDiff(key, false)} {
      ReportedFromSection(a, b, d);
    }
  }

  lemma CertDiffsHold(a: seq<Certificate>, b: seq<Certificate>, key: string)
    ensures PresenceDiff(key, true) in CertDiffs(a, b) <==> key in CertKeys(a) && key !in CertKeys(b)
    ensures PresenceDiff(key, false) in CertDiffs(a, b) <==> key in CertKeys(b) && key !in CertKeys(a)
    ensures forall d :: d in CertDiffs(a, b) && d.key == key ==>
              d in {PresenceDiff(key, true), PresenceDiff(key, false)}
  {
    hide CertKeys, Text.SortWords;
    var onlyA, onlyB := Missing(CertKeys(a), CertKeys(b)), Missing(CertKeys(b), CertKeys(a));
    SortedWordsSame(onlyA, key);
    SortedWordsSame(onlyB, key);
    MissingHolds(CertKeys(a), CertKeys(b), key);
    MissingHolds(CertKeys(b), CertKeys(a), key);
    PresenceDiffsHold(Text.SortWords(onlyA), true, key);
    PresenceDiffsHold(Text.SortWords(onlyB), false, key);
    PresenceSides();
  }

  lemma PresenceSides()
    ensures Str("present") != Str("missing")
  {
  }

  lemma PresenceDiffsHold(keys: seq<string>, onA: bool, key: string)
    ensures PresenceDiff(key, onA) in PresenceDiffs(keys, onA) <==> key in keys
    ensures forall d :: d in PresenceDiffs(keys, onA) && d.key == key ==> d == PresenceDiff(key, onA)
  {
    if key in keys {
      var i :| 0 <= i < |keys| && keys[i] == key;
      assert PresenceDiffs(keys, onA)[i] == PresenceDiff(key, onA);
    }
  }

  lemma KeyedIsStrict(s: seq<Difference>)
    requires Keyed(s)
    ensures Sorting.Strict(s, Before)
  {
    forall x, y | x in s && y in s && Before(x, y) && Before(y, x) ensures x == y {
      if x.category != y.category {
        Text.LeAntisymmetric(x.category, y.category);
      }
      Text.LeAntisymmetric(x.key, y.key);
    }
  }

  /** Swapping the nodes gives the same list with both values exchanged. */
  lemma SwapFlips(a: Snapshot, b: Snapshot)
    requires AllNamed(a) && AllNamed(b)
    ensures Reported(b, a) == FlipAll(Reported(a, b))
  {
    hide Keyed, Sorting.Strict, CertDiffs, SystemDiffs, CarpDiffs, HasyncDiffs, NamedDiffs, AllNames;
    PlainFlips(a, b);
    CertsFlip(a.certs, b.certs);
    assert AllDiffs(a, b) == Plain(a, b) + CertDiffs(a.certs, b.certs);
    assert AllDiffs(b, a) == Plain(b, a) + CertDiffs(b.certs, a.certs);
    FlipJoined(Plain(a, b), CertDiffs(a.certs, b.certs));
    AllKeyed(b, a);
    KeyedIsStrict(AllDiffs(b, a));
    BeforeIsPreorder();
    Sorting.SortEqualIffSameElements(AllDiffs(b, a), FlipAll(AllDiffs(a, b)), Before);
    FlipSorted(AllDiffs(a, b));
  }

}
