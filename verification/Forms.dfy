/** Filter rule, destination NAT and alias forms: what is accepted, sent, and shown for editing again. */
module Forms {
  import opened Wrappers
  import opened JsonTrees
  import opened Preflight
  import Matching
  import OptionTrees
  import Text

  // ---- Reading a submitted field --------------------------------------------

  function Submitted(f: Fields, key: string, default: Json): Json {
    match Lookup(f, key) case Some(v) => v case None => default
  }

  /** `_str` on a value. */
  function CheckText(v: Json, limit: nat, required: bool): Option<string> {
    if !v.Str? || |v.text| > limit || '\0' in v.text || (required && Text.Strip(v.text) == "") then None
    else Some(Text.Strip(v.text))
  }

  const LIMIT := 2048
  const CONTENT_LIMIT := 65536

  function TextAt(f: Fields, key: string, default: string, required: bool): Option<string> {
    CheckText(Submitted(f, key, Str(default)), LIMIT, required)
  }

  function FlagAt(f: Fields, key: string, default: bool): Option<bool> {
    match Submitted(f, key, Bool(default)) case Bool(b) => Some(b) case _ => None
  }

  /** `_enum`. */
  function ChoiceOf(v: Option<string>, choices: seq<string>): Option<string> {
    if v.Some? && v.value in choices then v else None
  }

  predicate IsLetter(c: char) {
    'A' <= c <= 'Z' || 'a' <= c <= 'z'
  }

  predicate IsName(s: string, dashes: bool) {
    && s != "" && (IsLetter(s[0]) || s[0] == '_')
    && forall i :: 0 <= i < |s| ==> IsLetter(s[i]) || Text.IsDigit(s[i]) || s[i] == '_' || (dashes && s[i] == '-')
  }

  /** A port, an ascending range, or an alias name. */
  predicate IsPort(s: string, ranges: bool) {
    var n := Text.DigitRun(s);
    if Text.IsDigits(s) then 1 <= Text.NatValue(s) <= 65535
    else if n <= |s| && Text.IsDigits(s[..n]) && n < |s| && s[n] in {':', '-'} && Text.IsDigits(s[n + 1..]) then
      ranges && 1 <= Text.NatValue(s[..n]) <= Text.NatValue(s[n + 1..]) <= 65535
    else IsName(s, true)
  }

  /** `_port` on a value. */
  function CheckPort(v: Json, required: bool, ranges: bool): Option<string> {
    match CheckText(v, LIMIT, required)
    case None => None
    case Some(text) =>
      var port := if Text.Lower(text) == "any" then "" else text;
      if port == "" then if required then None else Some("")
      else if IsPort(port, ranges) then Some(port) else None
  }

  function PortAt(f: Fields, key: string, required: bool, ranges: bool): Option<string> {
    CheckPort(Submitted(f, key, Str("")), required, ranges)
  }

  function CheckSequence(v: Json): Option<nat> {
    match v
    case Num(n) => if 1 <= n <= 999999 then Some(n) else None
    case Str(s) => if Text.IsDigits(s) && 1 <= Text.NatValue(s) <= 999999 then Some(Text.NatValue(s)) else None
    case _ => None
  }

  // ---- Forms ----------------------------------------------------------------

  datatype Common = Common(
    interface: string, ipprotocol: string, protocol: string, sourceNet: string, sourcePort: string,
    destinationNet: string, destinationPort: string, description: string, enabled: bool, sequence: nat, log: bool)

  datatype Form =
    | Nat(common: Common, target: string, targetPort: string, association: string, reflection: string)
    | Filter(common: Common, action: string, direction: string, quick: bool)
    | Alias(name: string, kind: string, content: string, description: string, enabled: bool, proto: string)

  const IP_PROTOCOLS := ["inet", "inet6", "inet46"]
  const PROTOCOLS := ["tcp", "udp", "tcp/udp", "any", "icmp", "icmp6", "esp", "gre"]
  const NAT_PROTOCOLS := ["tcp", "udp", "tcp/udp"]
  const ALIAS_TYPES := ["host", "network", "port", "url", "urltable", "geoip", "external"]

  function Lowered(v: Option<string>): Option<string> {
    match v case Some(s) => Some(Text.Lower(s)) case None => None
  }

  /** The fields that rules and NAT share. */
  function ParseCommon(f: Fields, isNat: bool): Option<Common> {
    var i := TextAt(f, "interface", "", true);
    var ip := ChoiceOf(TextAt(f, "ipprotocol", "inet", false), IP_PROTOCOLS);
    var p := ChoiceOf(Lowered(TextAt(f, "protocol", if isNat then "tcp" else "any", false)), PROTOCOLS);
    var sn, sp := TextAt(f, "source_net", "any", true), PortAt(f, "source_port", false, true);
    var dn := TextAt(f, "destination_net", if isNat then "wanip" else "any", true);
    var dp := PortAt(f, "destination_port", isNat, true);
    var d, e := TextAt(f, "description", "", false), FlagAt(f, "enabled", false);
    var s, l := CheckSequence(Submitted(f, "sequence", Num(1))), FlagAt(f, "log", false);
    if i.None? || ip.None? || p.None? || sn.None? || sp.None? || dn.None? || dp.None? then None
    else if d.None? || e.None? || s.None? || l.None? then None
    else Some(Common(i.value, ip.value, p.value, sn.value, sp.value, dn.value, dp.value, d.value, e.value, s.value,
                     l.value))
  }

  function ParseNat(f: Fields): Option<Form> {
    var port := if Lookup(f, "target_port").None? && Lookup(f, "local_port").Some? then Lookup(f, "local_port").value
                else Submitted(f, "target_port", Str(""));
    var c, t := ParseCommon(f, true), TextAt(f, "target", "", true);
    var tp := CheckPort(port, true, false);
    var a := ChoiceOf(TextAt(f, "filter_association", "", false), ["", "pass", "rule"]);
    var r := ChoiceOf(TextAt(f, "natreflection", "", false), ["", "purenat", "disable"]);
    if c.Some? && t.Some? && tp.Some? && a.Some? && r.Some? && c.value.protocol in NAT_PROTOCOLS
    then Some(Nat(c.value, t.value, tp.value, a.value, r.value)) else None
  }

  function ParseFilter(f: Fields): Option<Form> {
    var c := ParseCommon(f, false);
    var a := ChoiceOf(TextAt(f, "action", "pass", false), ["pass", "block", "reject"]);
    var d := ChoiceOf(TextAt(f, "direction", "in", false), ["in", "out", "any"]);
    var q := FlagAt(f, "quick", true);
    if c.Some? && a.Some? && d.Some? && q.Some? then Some(Filter(c.value, a.value, d.value, q.value)) else None
  }

  function ParseAlias(f: Fields): Option<Form> {
    var n, k := TextAt(f, "name", "", true), ChoiceOf(TextAt(f, "type", "host", false), ALIAS_TYPES);
    if n.None? || k.None? || !IsName(n.value, false) || |n.value| > 255 then None
    else
      var c := CheckText(Submitted(f, "content", Str("")), CONTENT_LIMIT, k.value != "external");
      var d, e, p := TextAt(f, "description", "", false), FlagAt(f, "enabled", true), TextAt(f, "proto", "", false);
      if c.Some? && d.Some? && e.Some? && p.Some?
      then Some(Alias(n.value, k.value, c.value, d.value, e.value, p.value)) else None
  }

  /** `parse_payload`, before the record is turned into a payload; None where it raises. */
  function Parse(resource: Resource, data: Json): Option<Form> {
    if !data.Obj? then None
    else match resource
         case PortForward => ParseNat(data.fields)
         case Rules => ParseFilter(data.fields)
         case Aliases => ParseAlias(data.fields)
  }

  // ---- Payloads -------------------------------------------------------------

  function Flag(b: bool): Json {
    Str(if b then "1" else "0")
  }

  function SentProtocol(protocol: string): Json {
    Str(if protocol == "tcp/udp" then "TCP/UDP" else protocol)
  }

  function Ends(net: string, port: string): Json {
    Obj(Field("network", Str(net), Field("port", Str(port), Empty)))
  }

  /** The object that is sent for a form. */
  function Payload(form: Form): Fields {
    match form
    case Nat(c, target, targetPort, association, reflection) =>
      var options := Field("pass", Str(association), Field("natreflection", Str(reflection), Empty));
      var number := Field("sequence", Str(Text.NatText(c.sequence)), options);
      var protocol := Field("protocol", SentProtocol(c.protocol), number);
      var flags := Field("log", Flag(c.log), Field("ipprotocol", Str(c.ipprotocol), protocol));
      var described := Field("descr", Str(c.description), Field("disabled", Flag(!c.enabled), flags));
      var local := Field("local-port", Str(targetPort), described);
      var ends := Field("source", Ends(c.sourceNet, c.sourcePort),
                        Field("destination", Ends(c.destinationNet, c.destinationPort), local));
      Field("interface", Str(c.interface), Field("target", Str(target), ends))
    case Filter(c, action, direction, quick) =>
      var flags := Field("log", Flag(c.log), Field("quick", Flag(quick), Empty));
      var options := Field("description", Str(c.description), flags);
      var destination := Field("destination_net", Str(c.destinationNet),
                               Field("destination_port", Str(c.destinationPort),
                                     Field("interface", Str(c.interface), options)));
      var source := Field("source_net", Str(c.sourceNet), Field("source_port", Str(c.sourcePort), destination));
      var protocol := Field("ipprotocol", Str(c.ipprotocol), Field("protocol", SentProtocol(c.protocol), source));
      var kind := Field("action", Str(action), Field("direction", Str(direction), protocol));
      Field("enabled", Flag(c.enabled), Field("sequence", Str(Text.NatText(c.sequence)), kind))
    case Alias(name, kind, content, description, enabled, proto) =>
      var flags := Field("enabled", Flag(enabled), Field("proto", Str(proto), Empty));
      var rest := Field("description", Str(description), flags);
      Field("name", Str(name), Field("type", Str(kind), Field("content", Str(content), rest)))
  }

  // ---- Showing a stored object for editing ----------------------------------

  const ALIAS_FIELDS := ["uuid", "name", "type", "content", "description", "proto"]
  const RULE_FIELDS := [
    "uuid", "interface", "ipprotocol", "protocol", "sequence", "source_net", "source_port", "destination_net",
    "destination_port", "description", "action", "direction", "target", "natreflection"]

  /** The listed fields that a row has. */
  function Picked(row: Fields, names: seq<string>): Fields {
    if names == [] then Empty
    else match Lookup(row, names[|names| - 1])
         case Some(v) => Set(Picked(row, names[..|names| - 1]), names[|names| - 1], v)
         case None => Picked(row, names[..|names| - 1])
  }

  /** A source or destination value: dotted, nested, or flat. */
  function Endpoint(row: Fields, group: string, suffix: string, key: string): Json {
    match Lookup(row, group + "." + suffix)
    case Some(v) => v
    case None =>
      var flat := Submitted(row, group + "_" + key, Str(""));
      match Submitted(row, group, Obj(Empty))
      case Obj(nested) => Submitted(nested, suffix, flat)
      case _ => flat
  }

  predicate IsOne(row: Fields, key: string, default: string, show: Json -> string) {
    Matching.StrOf(Submitted(row, key, Str(default)), show) == "1"
  }

  /** `normalize` on the converted row. */
  function Shown(resource: Resource, row: Fields, show: Json -> string): Fields {
    if resource.Aliases? then
      var picked := Set(Picked(row, ALIAS_FIELDS), "enabled", Bool(IsOne(row, "enabled", "1", show)));
      match Lookup(picked, "content")
      case Some(Str(s)) => Set(picked, "content", Str(Text.Replace(s, ',', '\n')))
      case _ => picked
    else
      var picked := Picked(row, RULE_FIELDS);
      var own :=
        if resource.PortForward? then
          var ends := Set(Set(Set(Set(picked, "source_net", Endpoint(row, "source", "network", "net")),
                                  "source_port", Endpoint(row, "source", "port", "port")),
                              "destination_net", Endpoint(row, "destination", "network", "net")),
                          "destination_port", Endpoint(row, "destination", "port", "port"));
          Set(Set(Set(Set(ends, "target_port", Submitted(row, "local-port", Submitted(row, "target_port", Str("")))),
                      "description", Submitted(row, "descr", Submitted(row, "description", Str("")))),
                  "enabled", Bool(!IsOne(row, "disabled", "0", show))),
              "filter_association", Submitted(row, "pass", Str("")))
        else Set(picked, "enabled", Bool(IsOne(row, "enabled", "1", show)));
      Set(Set(Set(own, "log", Bool(IsOne(row, "log", "0", show))),
              "protocol", Str(Text.Lower(Matching.StrOf(Submitted(row, "protocol", Str("any")), show)))),
          "quick", Bool(IsOne(row, "quick", "1", show)))
  }

  /** `normalize`. */
  function Normalize(resource: Resource, row: Fields, show: Json -> string): Fields {
    match OptionTrees.Selected(Obj(row)) case Obj(f) => Shown(resource, f, show) case _ => Empty
  }

  const GROUPS := ["source", "destination"]
  const PARTS := [("network", "net"), ("port", "port")]

  /** The endpoint values of a NAT row after `g` whole groups and `k` parts of the next one. */
  function WithEnds(row: Fields, result: Fields, g: nat, k: nat): Fields
    requires g <= 2 && k <= 2 && (g == 2 ==> k == 0)
    decreases g, k
  {
    if k > 0 then
      var before := WithEnds(row, result, g, k - 1);
      Set(before, GROUPS[g] + "_" + PARTS[k - 1].1, Endpoint(row, GROUPS[g], PARTS[k - 1].0, PARTS[k - 1].1))
    else if g > 0 then WithEnds(row, result, g - 1, 2)
    else result
  }

  lemma EndsInOrder(row: Fields, result: Fields)
    ensures WithEnds(row, result, 2, 0)
            == Set(Set(Set(Set(result, "source_net", Endpoint(row, "source", "network", "net")),
                           "source_port", Endpoint(row, "source", "port", "port")),
                       "destination_net", Endpoint(row, "destination", "network", "net")),
                   "destination_port", Endpoint(row, "destination", "port", "port"))
  {
    hide Endpoint, Set;
    assert "source" + "_" + "net" == "source_net" && "source" + "_" + "port" == "source_port";
    assert "destination" + "_" + "net" == "destination_net" && "destination" + "_" + "port" == "destination_port";
    var one := WithEnds(row, result, 1, 0);
    assert one == WithEnds(row, result, 0, 2)
           == Set(WithEnds(row, result, 0, 1), "source_port", Endpoint(row, "source", "port", "port"));
    assert WithEnds(row, result, 0, 1)
           == Set(WithEnds(row, result, 0, 0), "source_net", Endpoint(row, "source", "network", "net"));
    assert WithEnds(row, result, 2, 0) == WithEnds(row, result, 1, 2)
           == Set(WithEnds(row, result, 1, 1), "destination_port", Endpoint(row, "destination", "port", "port"));
    assert WithEnds(row, result, 1, 1) == Set(one, "destination_net", Endpoint(row, "destination", "network", "net"));
  }

  /** The loops of `normalize`, which update the result field by field. */
  method NormalizeRow(resource: Resource, row: Fields, show: Json -> string) returns (result: Fields)
    ensures result == Shown(resource, row, show)
  {
    hide Endpoint, IsOne, Set, WithEnds, Matching.StrOf;
    var names := if resource.Aliases? then ALIAS_FIELDS else RULE_FIELDS;
    result := Empty;
    for i := 0 to |names|
      invariant result == Picked(row, names[..i])
    {
      assert names[..i + 1][..i] == names[..i];
      var value := Lookup(row, names[i]);
      if value.Some? {
        result := Set(result, names[i], value.value);
      }
    }
    assert names[..|names|] == names;
    if resource.PortForward? {
      result := AddEnds(row, result);
      result := Set(result, "target_port", Submitted(row, "local-port", Submitted(row, "target_port", Str(""))));
      result := Set(result, "description", Submitted(row, "descr", Submitted(row, "description", Str(""))));
      result := Set(result, "enabled", Bool(!IsOne(row, "disabled", "0", show)));
      result := Set(result, "filter_association", Submitted(row, "pass", Str("")));
    } else {
      result := Set(result, "enabled", Bool(IsOne(row, "enabled", "1", show)));
    }
    if resource.Aliases? {
      var content := Lookup(result, "content");
      if content.Some? && content.value.Str? {
        result := Set(result, "content", Str(Text.Replace(content.value.text, ',', '\n')));
      }
      return;
    }
    result := Set(result, "log", Bool(IsOne(row, "log", "0", show)));
    result := Set(result, "protocol", Str(Text.Lower(Matching.StrOf(Submitted(row, "protocol", Str("any")), show))));
    result := Set(result, "quick", Bool(IsOne(row, "quick", "1", show)));
  }

  /** The two nested loops over endpoints and their parts. */
  method AddEnds(row: Fields, start: Fields) returns (result: Fields)
    ensures result == Set(Set(Set(Set(start, "source_net", Endpoint(row, "source", "network", "net")),
                                  "source_port", Endpoint(row, "source", "port", "port")),
                              "destination_net", Endpoint(row, "destination", "network", "net")),
                          "destination_port", Endpoint(row, "destination", "port", "port"))
  {
    hide Endpoint, Set;
    result := start;
    for g := 0 to 2
      invariant result == WithEnds(row, start, g, 0)
    {
      for k := 0 to 2
        invariant result == WithEnds(row, start, g, k)
      {
        result := Set(result, GROUPS[g] + "_" + PARTS[k].1, Endpoint(row, GROUPS[g], PARTS[k].0, PARTS[k].1));
      }
    }
    EndsInOrder(row, start);
  }

}
