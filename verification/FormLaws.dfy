/** Saving an unchanged row sends the same object again. */
module FormLaws {
  import opened Wrappers
  import opened JsonTrees
  import opened Preflight
  import opened Forms
  import Matching
  import OptionTrees
  import Text

  // ---- Accepted values are accepted again -----------------------------------

  predicate Stripped(s: string) {
    s == "" || (!Text.IsSpace(s[0]) && !Text.IsSpace(s[|s| - 1]))
  }

  lemma StripGives(s: string)
    ensures Stripped(Text.Strip(s))
    ensures |Text.Strip(s)| <= |s| && forall c :: c in Text.Strip(s) ==> c in s
    ensures Stripped(s) ==> Text.Strip(s) == s
  {
    hide Text.IsSpace;
    var left := Text.StripLeft(s);
    assert left == s[|s| - |left|..];
    assert forall c :: c in left ==> c in s;
    assert Text.StripRight(left) != "" ==> Text.StripRight(left)[0] == left[0];
  }

  /** Text that was accepted is accepted again, unchanged. */
  ghost predicate CleanText(s: string, limit: nat, required: bool) {
    CheckText(Str(s), limit, required) == Some(s)
  }

  lemma CheckedIsClean(v: Json, limit: nat, required: bool)
    requires CheckText(v, limit, required).Some?
    ensures CleanText(CheckText(v, limit, required).value, limit, required)
  {
    hide Text.Strip, Stripped;
    StripGives(v.text);
    StripGives(Text.Strip(v.text));
  }

  lemma EmptyIsClean(limit: nat)
    ensures CheckText(Str(""), limit, false) == Some("") && Text.Lower("") == ""
  {
    StripGives("");
  }

  lemma CheckedPortIsClean(v: Json, required: bool, ranges: bool)
    requires CheckPort(v, required, ranges).Some?
    ensures CheckPort(Str(CheckPort(v, required, ranges).value), required, ranges) == CheckPort(v, required, ranges)
  {
    hide CheckText, IsPort, Text.Lower;
    CheckedIsClean(v, LIMIT, required);
    EmptyIsClean(LIMIT);
  }

  lemma LowerStaysStripped(s: string)
    requires Stripped(s)
    ensures Stripped(Text.Lower(s))
    ensures forall c :: c in Text.Lower(s) && c == '\0' ==> c in s
  {
  }

  lemma CheckedSequenceIsClean(v: Json)
    requires CheckSequence(v).Some?
    ensures CheckSequence(Str(Text.NatText(CheckSequence(v).value))) == CheckSequence(v)
  {
    Text.NatValueOfText(CheckSequence(v).value);
  }

  ghost predicate CleanCommon(c: Common, isNat: bool) {
    && CleanText(c.interface, LIMIT, true) && CleanText(c.ipprotocol, LIMIT, false) && c.ipprotocol in IP_PROTOCOLS
    && CleanText(c.protocol, LIMIT, false) && c.protocol in PROTOCOLS && Text.Lower(c.protocol) == c.protocol
    && CleanText(c.sourceNet, LIMIT, true) && CheckPort(Str(c.sourcePort), false, true) == Some(c.sourcePort)
    && CleanText(c.destinationNet, LIMIT, true)
    && CheckPort(Str(c.destinationPort), isNat, true) == Some(c.destinationPort)
    && CleanText(c.description, LIMIT, false) && CheckSequence(Str(Text.NatText(c.sequence))) == Some(c.sequence)
  }

  lemma ParsedIsClean(f: Fields, isNat: bool)
    requires ParseCommon(f, isNat).Some?
    ensures CleanCommon(ParseCommon(f, isNat).value, isNat)
  {
    hide CheckText, CheckPort, CheckSequence, Text.Lower;
    CheckedIsClean(Submitted(f, "interface", Str("")), LIMIT, true);
    CheckedIsClean(Submitted(f, "ipprotocol", Str("inet")), LIMIT, false);
    ProtocolIsClean(Submitted(f, "protocol", Str(if isNat then "tcp" else "any")));
    CheckedIsClean(Submitted(f, "source_net", Str("any")), LIMIT, true);
    CheckedPortIsClean(Submitted(f, "source_port", Str("")), false, true);
    CheckedIsClean(Submitted(f, "destination_net", Str(if isNat then "wanip" else "any")), LIMIT, true);
    CheckedPortIsClean(Submitted(f, "destination_port", Str("")), isNat, true);
    CheckedIsClean(Submitted(f, "description", Str("")), LIMIT, false);
    CheckedSequenceIsClean(Submitted(f, "sequence", Num(1)));
  }

  lemma ProtocolIsClean(v: Json)
    requires CheckText(v, LIMIT, false).Some?
    ensures var p := Text.Lower(CheckText(v, LIMIT, false).value); CleanText(p, LIMIT, false) && Text.Lower(p) == p
  {
    var s := CheckText(v, LIMIT, false).value;
    StripGives(v.text);
    LowerStaysStripped(s);
    StripGives(Text.Lower(s));
    Text.LowerIdempotent(s);
  }

  /** A row that shows a clean form's values. */
  ghost predicate Shows(g: Fields, c: Common) {
    && Lookup(g, "interface") == Some(Str(c.interface)) && Lookup(g, "ipprotocol") == Some(Str(c.ipprotocol))
    && Lookup(g, "protocol") == Some(Str(c.protocol)) && Lookup(g, "source_net") == Some(Str(c.sourceNet))
    && Lookup(g, "source_port") == Some(Str(c.sourcePort))
    && Lookup(g, "destination_net") == Some(Str(c.destinationNet))
    && Lookup(g, "destination_port") == Some(Str(c.destinationPort))
    && Lookup(g, "description") == Some(Str(c.description))
    && Lookup(g, "enabled") == Some(Bool(c.enabled)) && Lookup(g, "sequence") == Some(Str(Text.NatText(c.sequence)))
    && Lookup(g, "log") == Some(Bool(c.log))
  }

  lemma ShownParses(g: Fields, c: Common, isNat: bool)
    requires CleanCommon(c, isNat) && Shows(g, c)
    ensures ParseCommon(g, isNat) == Some(c)
  {
    hide CheckText, CheckPort, CheckSequence, Text.Lower;
  }

  // ---- What normalisation shows of a payload --------------------------------

  lemma {:induction false} PickedReads(row: Fields, names: seq<string>, key: string)
    ensures Lookup(Picked(row, names), key) == if key in names then Lookup(row, key) else None
  {
    if names != [] {
      var last, before := names[|names| - 1], names[..|names| - 1];
      PickedReads(row, before, key);
      SetIsUpdate(Picked(row, before), last, if Lookup(row, last).Some? then Lookup(row, last).value else Null);
      assert names == before + [last];
    }
  }

  /** Texts, or one level of texts. */
  predicate IsFlat(f: Fields) {
    f.Field? ==> (f.value.Str? || (f.value.Obj? && f.value.fields.Field? && AllTexts(f.value.fields))) && IsFlat(f.rest)
  }

  predicate AllTexts(f: Fields) {
    f.Field? ==> f.value.Str? && AllTexts(f.rest)
  }

  lemma {:induction false} TextsStay(f: Fields)
    requires AllTexts(f)
    ensures OptionTrees.SelectedFields(f) == f
  {
    if f.Field? {
      TextsStay(f.rest);
    }
  }

  lemma {:induction false} FlatStays(f: Fields)
    requires IsFlat(f)
    ensures OptionTrees.SelectedFields(f) == f
  {
    if f.Field? {
      FlatStays(f.rest);
      if f.value.Obj? {
        TextsStay(f.value.fields);
      }
    }
  }

  lemma PayloadStays(form: Form)
    ensures OptionTrees.Selected(Obj(Payload(form))) == Obj(Payload(form))
  {
    PayloadIsFlat(form);
    FlatStays(Payload(form));
  }

  lemma PayloadIsFlat(form: Form)
    ensures IsFlat(Payload(form)) && Payload(form).Field? && Payload(form).value.Str?
  {
    UnfoldFlat();
  }

  lemma UnfoldFlat()
    ensures forall k, v, rest :: IsFlat(Field(k, v, rest)) <==>
              (v.Str? || (v.Obj? && v.fields.Field? && AllTexts(v.fields))) && IsFlat(rest)
    ensures forall k, v, rest :: AllTexts(Field(k, v, rest)) <==> v.Str? && AllTexts(rest)
  {
  }

  lemma UnfoldLookup()
    ensures forall k, v, rest, key :: Lookup(Field(k, v, rest), key) == if k == key then Some(v) else Lookup(rest, key)
  {
  }

  lemma FlagsRead(b: bool, show: Json -> string)
    ensures (Matching.StrOf(Flag(b), show) == "1") == b
  {
  }

  lemma ProtocolReads(p: string, show: Json -> string)
    requires Text.Lower(p) == p
    ensures Text.Lower(Matching.StrOf(SentProtocol(p), show)) == p
  {
    assert Text.Lower("TCP/UDP") == "tcp/udp";
  }

  /** Stored values of a filter rule. */
  lemma FilterRow(form: Form, show: Json -> string)
    requires form.Filter? && Text.Lower(form.common.protocol) == form.common.protocol
    ensures var g := Shown(Rules, Payload(form), show);
            && Shows(g, form.common) && Lookup(g, "action") == Some(Str(form.action))
            && Lookup(g, "direction") == Some(Str(form.direction)) && Lookup(g, "quick") == Some(Bool(form.quick))
  {
    hide Picked, Matching.StrOf, Text.Lower, IsOne;
    var row := Payload(form);
    FilterFlags(form, show);
    FilterTexts(form);
    var picked := Picked(row, RULE_FIELDS);
    var own := Set(picked, "enabled", Bool(form.common.enabled));
    SetIsUpdate(picked, "enabled", Bool(form.common.enabled));
    SetIsUpdate(own, "log", Bool(form.common.log));
    SetIsUpdate(Set(own, "log", Bool(form.common.log)), "protocol", Str(form.common.protocol));
    SetIsUpdate(Set(Set(own, "log", Bool(form.common.log)), "protocol", Str(form.common.protocol)), "quick",
                Bool(form.quick));
  }

  lemma FilterFlags(form: Form, show: Json -> string)
    requires form.Filter? && Text.Lower(form.common.protocol) == form.common.protocol
    ensures var row := Payload(form);
            && IsOne(row, "enabled", "1", show) == form.common.enabled
            && IsOne(row, "log", "0", show) == form.common.log
            && IsOne(row, "quick", "1", show) == form.quick
            && Text.Lower(Matching.StrOf(Submitted(row, "protocol", Str("any")), show)) == form.common.protocol
  {
    hide Payload, Matching.StrOf, Text.Lower, SentProtocol, Flag;
    FilterDirect(form);
    FlagsRead(form.common.enabled, show);
    FlagsRead(form.common.log, show);
    FlagsRead(form.quick, show);
    ProtocolReads(form.common.protocol, show);
  }

  lemma FilterDirect(form: Form)
    requires form.Filter?
    ensures var row := Payload(form);
            && Lookup(row, "enabled") == Some(Flag(form.common.enabled))
            && Lookup(row, "log") == Some(Flag(form.common.log))
            && Lookup(row, "quick") == Some(Flag(form.quick))
            && Lookup(row, "protocol") == Some(SentProtocol(form.common.protocol))
  {
    hide SentProtocol, Flag, Lookup;
    UnfoldLookup();
  }

  lemma FilterEnds(form: Form)
    requires form.Filter?
    ensures var row := Payload(form);
            && Lookup(row, "source_net") == Some(Str(form.common.sourceNet))
            && Lookup(row, "source_port") == Some(Str(form.common.sourcePort))
            && Lookup(row, "destination_net") == Some(Str(form.common.destinationNet))
            && Lookup(row, "destination_port") == Some(Str(form.common.destinationPort))
  {
    hide SentProtocol, Flag, Lookup;
    UnfoldLookup();
  }

  lemma FilterOthers(form: Form)
    requires form.Filter?
    ensures var row := Payload(form);
            && Lookup(row, "interface") == Some(Str(form.common.interface))
            && Lookup(row, "ipprotocol") == Some(Str(form.common.ipprotocol))
            && Lookup(row, "description") == Some(Str(form.common.description))
            && Lookup(row, "sequence") == Some(Str(Text.NatText(form.common.sequence)))
            && Lookup(row, "action") == Some(Str(form.action)) && Lookup(row, "direction") == Some(Str(form.direction))
  {
    hide SentProtocol, Flag, Lookup;
    UnfoldLookup();
  }

  /** Every listed rule field is picked as it stands. */
  lemma RuleFieldsPicked(row: Fields)
    ensures forall i :: 0 <= i < |RULE_FIELDS| ==>
              Lookup(Picked(row, RULE_FIELDS), RULE_FIELDS[i]) == Lookup(row, RULE_FIELDS[i])
  {
    hide Picked;
    forall i | 0 <= i < |RULE_FIELDS|
      ensures Lookup(Picked(row, RULE_FIELDS), RULE_FIELDS[i]) == Lookup(row, RULE_FIELDS[i]) {
      PickedReads(row, RULE_FIELDS, RULE_FIELDS[i]);
    }
  }

  lemma FilterTexts(form: Form)
    requires form.Filter?
    ensures var p := Picked(Payload(form), RULE_FIELDS);
            && Lookup(p, "interface") == Some(Str(form.common.interface))
            && Lookup(p, "ipprotocol") == Some(Str(form.common.ipprotocol))
            && Lookup(p, "source_net") == Some(Str(form.common.sourceNet))
            && Lookup(p, "source_port") == Some(Str(form.common.sourcePort))
            && Lookup(p, "destination_net") == Some(Str(form.common.destinationNet))
            && Lookup(p, "destination_port") == Some(Str(form.common.destinationPort))
            && Lookup(p, "description") == Some(Str(form.common.description))
            && Lookup(p, "sequence") == Some(Str(Text.NatText(form.common.sequence)))
            && Lookup(p, "action") == Some(Str(form.action)) && Lookup(p, "direction") == Some(Str(form.direction))
  {
    hide Payload, Picked, Lookup;
    FilterEnds(form);
    FilterOthers(form);
    RuleFieldsPicked(Payload(form));
    assert RULE_FIELDS[1] == "interface" && RULE_FIELDS[2] == "ipprotocol" && RULE_FIELDS[4] == "sequence";
    assert RULE_FIELDS[5] == "source_net" && RULE_FIELDS[6] == "source_port" && RULE_FIELDS[7] == "destination_net";
    assert RULE_FIELDS[8] == "destination_port" && RULE_FIELDS[9] == "description";
    assert RULE_FIELDS[10] == "action" && RULE_FIELDS[11] == "direction";
  }

  /** A row whose last updates are given. */
  lemma Updated(g: Fields, k1: string, v1: Json, k2: string, v2: Json, k3: string, v3: Json, k4: string, v4: Json)
    ensures forall key :: Lookup(Set(Set(Set(Set(g, k1, v1), k2, v2), k3, v3), k4, v4), key)
                          == if key == k4 then Some(v4) else if key == k3 then Some(v3) else if key == k2 then Some(v2)
                             else if key == k1 then Some(v1) else Lookup(g, key)
  {
    SetIsUpdate(g, k1, v1);
    SetIsUpdate(Set(g, k1, v1), k2, v2);
    SetIsUpdate(Set(Set(g, k1, v1), k2, v2), k3, v3);
    SetIsUpdate(Set(Set(Set(g, k1, v1), k2, v2), k3, v3), k4, v4);
  }

  /** The rule fields of a destination NAT row, before the flags and the protocol. */
  function NatOwn(form: Form): Fields
    requires form.Nat?
  {
    var c := form.common;
    var ends := Set(Set(Set(Set(Picked(Payload(form), RULE_FIELDS), "source_net", Str(c.sourceNet)),
                            "source_port", Str(c.sourcePort)),
                        "destination_net", Str(c.destinationNet)),
                    "destination_port", Str(c.destinationPort));
    Set(Set(Set(Set(ends, "target_port", Str(form.targetPort)), "description", Str(c.description)),
            "enabled", Bool(c.enabled)),
        "filter_association", Str(form.association))
  }

  lemma NatOwnReads(form: Form)
    requires form.Nat?
    ensures var c, g := form.common, NatOwn(form);
            && Lookup(g, "interface") == Some(Str(c.interface)) && Lookup(g, "ipprotocol") == Some(Str(c.ipprotocol))
            && Lookup(g, "source_net") == Some(Str(c.sourceNet)) && Lookup(g, "source_port") == Some(Str(c.sourcePort))
            && Lookup(g, "destination_net") == Some(Str(c.destinationNet))
            && Lookup(g, "destination_port") == Some(Str(c.destinationPort))
            && Lookup(g, "description") == Some(Str(c.description)) && Lookup(g, "enabled") == Some(Bool(c.enabled))
            && Lookup(g, "sequence") == Some(Str(Text.NatText(c.sequence)))
            && Lookup(g, "target") == Some(Str(form.target))
            && Lookup(g, "target_port") == Some(Str(form.targetPort))
            && Lookup(g, "filter_association") == Some(Str(form.association))
            && Lookup(g, "natreflection") == Some(Str(form.reflection))
  {
    hide Picked, Payload, Set, Lookup;
    var c, p := form.common, Picked(Payload(form), RULE_FIELDS);
    NatTexts(form);
    Updated(p, "source_net", Str(c.sourceNet), "source_port", Str(c.sourcePort),
            "destination_net", Str(c.destinationNet), "destination_port", Str(c.destinationPort));
    var ends := Set(Set(Set(Set(p, "source_net", Str(c.sourceNet)), "source_port", Str(c.sourcePort)),
                        "destination_net", Str(c.destinationNet)), "destination_port", Str(c.destinationPort));
    Updated(ends, "target_port", Str(form.targetPort), "description", Str(c.description), "enabled", Bool(c.enabled),
            "filter_association", Str(form.association));
  }

  /** Stored values of a destination NAT rule. */
  lemma NatRow(form: Form, show: Json -> string)
    requires form.Nat? && Text.Lower(form.common.protocol) == form.common.protocol
    ensures var g := Shown(PortForward, Payload(form), show);
            && Shows(g, form.common) && Lookup(g, "target") == Some(Str(form.target))
            && Lookup(g, "target_port") == Some(Str(form.targetPort))
            && Lookup(g, "filter_association") == Some(Str(form.association))
            && Lookup(g, "natreflection") == Some(Str(form.reflection))
  {
    hide Picked, Payload, Matching.StrOf, Text.Lower, IsOne, Endpoint, Set, Lookup, NatOwn;
    var row, c, own := Payload(form), form.common, NatOwn(form);
    NatOwnReads(form);
    NatShown(form, show);
    var quick := Bool(IsOne(row, "quick", "1", show));
    SetIsUpdate(own, "log", Bool(c.log));
    SetIsUpdate(Set(own, "log", Bool(c.log)), "protocol", Str(c.protocol));
    SetIsUpdate(Set(Set(own, "log", Bool(c.log)), "protocol", Str(c.protocol)), "quick", quick);
  }

  lemma NatShown(form: Form, show: Json -> string)
    requires form.Nat? && Text.Lower(form.common.protocol) == form.common.protocol
    ensures Shown(PortForward, Payload(form), show)
            == Set(Set(Set(NatOwn(form), "log", Bool(form.common.log)), "protocol", Str(form.common.protocol)),
                   "quick", Bool(IsOne(Payload(form), "quick", "1", show)))
  {
    hide Picked, Payload, Matching.StrOf, Text.Lower, IsOne, Endpoint, Set, Lookup;
    NatFlags(form, show);
    NatDirect(form);
    NatEnds(form);
  }

  lemma NatFlags(form: Form, show: Json -> string)
    requires form.Nat? && Text.Lower(form.common.protocol) == form.common.protocol
    ensures var row := Payload(form);
            && IsOne(row, "disabled", "0", show) == !form.common.enabled
            && IsOne(row, "log", "0", show) == form.common.log
            && Text.Lower(Matching.StrOf(Submitted(row, "protocol", Str("any")), show)) == form.common.protocol
  {
    hide Matching.StrOf, Text.Lower, SentProtocol, Flag;
    UnfoldLookup();
    FlagsRead(!form.common.enabled, show);
    FlagsRead(form.common.log, show);
    ProtocolReads(form.common.protocol, show);
  }

  lemma NatTexts(form: Form)
    requires form.Nat?
    ensures var p := Picked(Payload(form), RULE_FIELDS);
            && Lookup(p, "interface") == Some(Str(form.common.interface))
            && Lookup(p, "ipprotocol") == Some(Str(form.common.ipprotocol))
            && Lookup(p, "sequence") == Some(Str(Text.NatText(form.common.sequence)))
            && Lookup(p, "target") == Some(Str(form.target)) && Lookup(p, "natreflection") == Some(Str(form.reflection))
  {
    hide Payload, Picked, Lookup;
    NatOthers(form);
    RuleFieldsPicked(Payload(form));
    assert RULE_FIELDS[1] == "interface" && RULE_FIELDS[2] == "ipprotocol" && RULE_FIELDS[4] == "sequence";
    assert RULE_FIELDS[12] == "target" && RULE_FIELDS[13] == "natreflection";
  }

  lemma NatOthers(form: Form)
    requires form.Nat?
    ensures var row := Payload(form);
            && Lookup(row, "interface") == Some(Str(form.common.interface))
            && Lookup(row, "ipprotocol") == Some(Str(form.common.ipprotocol))
            && Lookup(row, "sequence") == Some(Str(Text.NatText(form.common.sequence)))
            && Lookup(row, "target") == Some(Str(form.target))
            && Lookup(row, "natreflection") == Some(Str(form.reflection))
  {
    hide SentProtocol, Flag, Lookup;
    UnfoldLookup();
  }

  lemma NatDirect(form: Form)
    requires form.Nat?
    ensures var row := Payload(form);
            && Lookup(row, "local-port") == Some(Str(form.targetPort))
            && Lookup(row, "descr") == Some(Str(form.common.description))
            && Lookup(row, "pass") == Some(Str(form.association))
            && Lookup(row, "source") == Some(Ends(form.common.sourceNet, form.common.sourcePort))
            && Lookup(row, "destination") == Some(Ends(form.common.destinationNet, form.common.destinationPort))
  {
    hide SentProtocol, Flag, Ends, Lookup;
    UnfoldLookup();
  }

  lemma NatEnds(form: Form)
    requires form.Nat?
    ensures var row := Payload(form);
            && Endpoint(row, "source", "network", "net") == Str(form.common.sourceNet)
            && Endpoint(row, "source", "port", "port") == Str(form.common.sourcePort)
            && Endpoint(row, "destination", "network", "net") == Str(form.common.destinationNet)
            && Endpoint(row, "destination", "port", "port") == Str(form.common.destinationPort)
  {
    hide Payload;
    NatDirect(form);
    NotDotted(form);
    UnfoldLookup();
  }

  lemma NotDotted(form: Form)
    requires form.Nat?
    ensures forall group, suffix :: Lookup(Payload(form), group + "." + suffix) == None
  {
    forall group: string, suffix: string ensures Lookup(Payload(form), group + "." + suffix) == None {
      var key := group + "." + suffix;
      assert key[|group|] == '.';
      NoDottedKey(form, key);
    }
  }

  lemma NoDottedKey(form: Form, key: string)
    requires form.Nat? && '.' in key
    ensures Lookup(Payload(form), key) == None
  {
    NatDotFree(form);
    hide Payload, Matching.DotFree;
    if key in Keys(Payload(form)) {
      Matching.DotFreeLookup(Payload(form), key);
    }
  }

  predicate NoDot(s: string) {
    '.' !in s
  }

  lemma UnfoldDotFree()
    ensures forall k, v, rest :: Matching.DotFree(Field(k, v, rest)) <==>
                                 NoDot(k) && (v.Obj? ==> Matching.DotFree(v.fields)) && Matching.DotFree(rest)
    ensures Matching.DotFree(Empty)
  {
  }

  lemma NatNamesHaveNoDot()
    ensures NoDot("interface") && NoDot("target") && NoDot("source") && NoDot("destination")
    ensures NoDot("network") && NoDot("port")
    ensures NoDot("local-port") && NoDot("descr") && NoDot("disabled") && NoDot("log") && NoDot("ipprotocol")
    ensures NoDot("protocol") && NoDot("sequence") && NoDot("pass") && NoDot("natreflection")
  {
  }

  lemma NatDotFree(form: Form)
    requires form.Nat?
    ensures Matching.DotFree(Payload(form))
  {
    hide NoDot, Matching.DotFree;
    UnfoldDotFree();
    NatNamesHaveNoDot();
  }

  /** Stored values of an alias. */
  lemma AliasRow(form: Form, show: Json -> string)
    requires form.Alias?
    ensures var g := Shown(Aliases, Payload(form), show);
            && Lookup(g, "name") == Some(Str(form.name)) && Lookup(g, "type") == Some(Str(form.kind))
            && Lookup(g, "content") == Some(Str(Text.Replace(form.content, ',', '\n')))
            && Lookup(g, "description") == Some(Str(form.description))
            && Lookup(g, "enabled") == Some(Bool(form.enabled))
            && Lookup(g, "proto") == Some(Str(form.proto))
  {
    var row := Payload(form);
    UnfoldLookup();
    FlagsRead(form.enabled, show);
    PickedReads(row, ALIAS_FIELDS, ALIAS_FIELDS[1]);
    PickedReads(row, ALIAS_FIELDS, ALIAS_FIELDS[2]);
    PickedReads(row, ALIAS_FIELDS, ALIAS_FIELDS[3]);
    PickedReads(row, ALIAS_FIELDS, ALIAS_FIELDS[4]);
    PickedReads(row, ALIAS_FIELDS, ALIAS_FIELDS[5]);
    hide Picked, Matching.StrOf;
    var picked := Set(Picked(row, ALIAS_FIELDS), "enabled", Bool(form.enabled));
    SetIsUpdate(Picked(row, ALIAS_FIELDS), "enabled", Bool(form.enabled));
    SetIsUpdate(picked, "content", Str(Text.Replace(form.content, ',', '\n')));
  }

  // ---- Main results -------------------------------------------------------------

  lemma ChoiceKept(f: Fields, g: Fields, key: string, default: string, choices: seq<string>)
    requires ChoiceOf(TextAt(f, key, default, false), choices).Some?
    requires Lookup(g, key) == Some(Str(ChoiceOf(TextAt(f, key, default, false), choices).value))
    ensures ChoiceOf(TextAt(g, key, default, false), choices) == ChoiceOf(TextAt(f, key, default, false), choices)
  {
    hide CheckText;
    CheckedIsClean(Submitted(f, key, Str(default)), LIMIT, false);
  }

  lemma TextKept(f: Fields, g: Fields, key: string, required: bool)
    requires TextAt(f, key, "", required).Some? && Lookup(g, key) == Some(Str(TextAt(f, key, "", required).value))
    ensures TextAt(g, key, "", required) == TextAt(f, key, "", required)
  {
    hide CheckText;
    CheckedIsClean(Submitted(f, key, Str("")), LIMIT, required);
  }

  lemma ClosedNat(f: Fields, show: Json -> string)
    requires ParseNat(f).Some?
    ensures ParseNat(Shown(PortForward, Payload(ParseNat(f).value), show)) == ParseNat(f)
  {
    hide TextAt, CheckText, CheckPort, ChoiceOf, Shown, Payload, ParseCommon;
    var form := ParseNat(f).value;
    var g := Shown(PortForward, Payload(form), show);
    ParsedIsClean(f, true);
    NatRow(form, show);
    ShownParses(g, form.common, true);
    TextKept(f, g, "target", true);
    ChoiceKept(f, g, "filter_association", "", ["", "pass", "rule"]);
    ChoiceKept(f, g, "natreflection", "", ["", "purenat", "disable"]);
    var port := if Lookup(f, "target_port").None? && Lookup(f, "local_port").Some? then Lookup(f, "local_port").value
                else Submitted(f, "target_port", Str(""));
    CheckedPortIsClean(port, true, false);
  }

  lemma ClosedFilter(f: Fields, show: Json -> string)
    requires ParseFilter(f).Some?
    ensures ParseFilter(Shown(Rules, Payload(ParseFilter(f).value), show)) == ParseFilter(f)
  {
    hide TextAt, CheckText, CheckPort, ChoiceOf, Shown, Payload, ParseCommon;
    var form := ParseFilter(f).value;
    var g := Shown(Rules, Payload(form), show);
    ParsedIsClean(f, false);
    FilterRow(form, show);
    ShownParses(g, form.common, false);
    ChoiceKept(f, g, "action", "pass", ["pass", "block", "reject"]);
    ChoiceKept(f, g, "direction", "in", ["in", "out", "any"]);
  }

  /**
   Editing a filter or NAT rule without changing it sends the same object: whatever was accepted and stored
   is shown in a form that is accepted as the same rule.
   */
  lemma RuleEditRoundTrip(resource: Resource, data: Json, show: Json -> string)
    requires !resource.Aliases? && Parse(resource, data).Some?
    ensures var form := Parse(resource, data).value;
            Parse(resource, Obj(Normalize(resource, Payload(form), show))) == Some(form)
  {
    hide Shown, Payload;
    PayloadStays(Parse(resource, data).value);
    if resource.PortForward? {
      ClosedNat(data.fields, show);
    } else {
      ClosedFilter(data.fields, show);
    }
  }

  lemma ReplaceKeeps(s: string)
    ensures Text.Replace(s, ',', '\n') == s <==> ',' !in s
  {
    if ',' in s {
      var i :| 0 <= i < |s| && s[i] == ',';
      assert Text.Replace(s, ',', '\n')[i] == '\n';
    }
  }

  lemma StripReplaced(s: string)
    ensures ',' in s ==> Text.Strip(Text.Replace(s, ',', '\n')) != s
  {
    hide Text.Strip, Stripped;
    var t := Text.Replace(s, ',', '\n');
    assert forall i :: 0 <= i < |t| ==> t[i] != ',';
    StripGives(t);
    assert ',' !in Text.Strip(t);
  }

  lemma ClosedAlias(f: Fields, show: Json -> string)
    requires ParseAlias(f).Some?
    ensures var form := ParseAlias(f).value;
            var shown := Str(Text.Replace(form.content, ',', '\n'));
            var content := CheckText(shown, CONTENT_LIMIT, form.kind != "external");
            ParseAlias(Shown(Aliases, Payload(form), show))
            == match content case Some(c) => Some(form.(content := c)) case None => None
  {
    hide TextAt, CheckText, ChoiceOf, IsName, Shown, Payload, Text.Replace;
    var form := ParseAlias(f).value;
    var g := Shown(Aliases, Payload(form), show);
    AliasRow(form, show);
    TextKept(f, g, "name", true);
    ChoiceKept(f, g, "type", "host", ALIAS_TYPES);
    TextKept(f, g, "description", false);
    TextKept(f, g, "proto", false);
  }

  lemma ContentKept(s: string, limit: nat, required: bool)
    requires CleanText(s, limit, required)
    ensures CheckText(Str(Text.Replace(s, ',', '\n')), limit, required) == Some(s) <==> ',' !in s
  {
    hide Text.Strip, Text.Replace;
    ReplaceKeeps(s);
    StripReplaced(s);
  }

  /** An alias is edited unchanged exactly if its content has no comma: those come back as line breaks. */
  lemma AliasEditRoundTrip(data: Json, show: Json -> string)
    requires Parse(Aliases, data).Some?
    ensures var form := Parse(Aliases, data).value;
            Parse(Aliases, Obj(Normalize(Aliases, Payload(form), show))) == Some(form) <==> ',' !in form.content
  {
    hide Shown, Payload, CheckText, Text.Replace;
    var f, form := data.fields, Parse(Aliases, data).value;
    PayloadStays(form);
    ClosedAlias(f, show);
    CheckedIsClean(Submitted(f, "content", Str("")), CONTENT_LIMIT, form.kind != "external");
    ContentKept(form.content, CONTENT_LIMIT, form.kind != "external");
  }

  /** A host alias of two addresses, as it is submitted. */
  const TWO_HOSTS := Obj(Field("name", Str("web"), Field("content", Str("10.0.0.1,10.0.0.2"), Empty)))

  const STORED_HOSTS := Alias("web", "host", "10.0.0.1,10.0.0.2", "", true, "")

  lemma TwoHostsValues()
    ensures var f := TWO_HOSTS.fields;
            && Submitted(f, "name", Str("")) == Str("web")
            && Submitted(f, "content", Str("")) == Str("10.0.0.1,10.0.0.2")
            && Submitted(f, "type", Str("host")) == Str("host") && Submitted(f, "description", Str("")) == Str("")
            && Submitted(f, "enabled", Bool(true)) == Bool(true) && Submitted(f, "proto", Str("")) == Str("")
  {
    UnfoldLookup();
  }

  /** A text without white space at its ends passes as it is. */
  lemma TrimmedPasses(s: string, limit: nat, required: bool)
    requires s != "" && !Text.IsSpace(s[0]) && !Text.IsSpace(s[|s| - 1])
    requires |s| <= limit && forall i :: 0 <= i < |s| ==> s[i] != '\0'
    ensures CheckText(Str(s), limit, required) == Some(s)
  {
    hide Text.IsSpace;
    assert Text.StripLeft(s) == s && Text.StripRight(s) == s;
  }

  lemma PlainTextsPass()
    ensures CheckText(Str("web"), LIMIT, true) == Some("web") && IsName("web", false)
    ensures CheckText(Str("host"), LIMIT, false) == Some("host") && CheckText(Str(""), LIMIT, false) == Some("")
  {
    hide CheckText, Text.IsSpace;
    LettersAreNoSpace();
    TrimmedPasses("web", LIMIT, true);
    TrimmedPasses("host", LIMIT, false);
    assert CheckText(Str(""), LIMIT, false) == Some("") by {
      EmptyPasses();
    }
  }

  lemma EmptyPasses()
    ensures CheckText(Str(""), LIMIT, false) == Some("")
  {
  }

  lemma LettersAreNoSpace()
    ensures forall c: char :: '0' <= c <= '9' || 'a' <= c <= 'z' ==> !Text.IsSpace(c)
  {
  }

  lemma AddressesPass()
    ensures CheckText(Str("10.0.0.1,10.0.0.2"), CONTENT_LIMIT, true) == Some("10.0.0.1,10.0.0.2")
    ensures CheckText(Str("10.0.0.1\n10.0.0.2"), CONTENT_LIMIT, true) == Some("10.0.0.1\n10.0.0.2")
    ensures Text.Replace("10.0.0.1,10.0.0.2", ',', '\n') == "10.0.0.1\n10.0.0.2"
  {
    hide CheckText, Text.IsSpace;
    LettersAreNoSpace();
    TrimmedPasses("10.0.0.1,10.0.0.2", CONTENT_LIMIT, true);
    TrimmedPasses("10.0.0.1\n10.0.0.2", CONTENT_LIMIT, true);
  }

  /** The second edit of an accepted alias sends another object, although nothing was changed. */
  lemma UnchangedAliasIsSentDifferently(show: Json -> string)
    ensures Parse(Aliases, TWO_HOSTS) == Some(STORED_HOSTS)
    ensures var again := Parse(Aliases, Obj(Normalize(Aliases, Payload(STORED_HOSTS), show)));
            && again == Some(STORED_HOSTS.(content := "10.0.0.1\n10.0.0.2"))
            && Payload(again.value) != Payload(STORED_HOSTS)
  {
    hide CheckText, IsName, Shown, Payload, Text.Replace, Submitted, OptionTrees.Selected;
    TwoHostsValues();
    PlainTextsPass();
    AddressesPass();
    assert ParseAlias(TWO_HOSTS.fields) == Some(STORED_HOSTS) by {
      assert "host" in ALIAS_TYPES;
    }
    PayloadStays(STORED_HOSTS);
    ClosedAlias(TWO_HOSTS.fields, show);
    ContentDiffers(STORED_HOSTS, STORED_HOSTS.(content := "10.0.0.1\n10.0.0.2"));
  }

  lemma ContentDiffers(one: Form, other: Form)
    requires one.Alias? && other.Alias? && one.content != other.content
    ensures Payload(one) != Payload(other)
  {
    UnfoldLookup();
    assert Lookup(Payload(one), "content") == Some(Str(one.content));
    assert Lookup(Payload(other), "content") == Some(Str(other.content));
  }

}
