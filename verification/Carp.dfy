/**
 CARP state of a node, and the two separately written checks that name the master before a write.
 `number` is Python's `int` on text and `show` its `str` on lists and dicts; both are left open.
 */
module Carp {
  import opened Wrappers
  import opened JsonTrees
  import Matching
  import Sorting
  import Text

  datatype Role = Master | Backup | Disabled | Unknown

  datatype Vip = Vip(vhid: string, ipaddr: string, status: string, advskew: string)

  datatype Status = Status(role: Role, enabled: bool, maintenance: bool, demotion: int, vhids: seq<Vip>)

  /** Python's `int(text)` and `str(container)`. */
  datatype Python = Python(number: string -> Option<int>, show: Json -> string)

  // ---- Collection -----------------------------------------------------------

  /** `str(v)`. */
  function Shown(v: Json, py: Python): string {
    Matching.StrOf(v, py.show)
  }

  /** `str(f.get(key, default))`. */
  function TextAt(f: Fields, key: string, default: string, py: Python): string {
    match Lookup(f, key)
    case Some(v) => Shown(v, py)
    case None => default
  }

  /** Alias and proxy rows are listed beside the CARP ones. */
  predicate IsCarpRow(row: Json, py: Python) {
    row.Obj? && Text.Lower(TextAt(row.fields, "mode", "carp", py)) == "carp"
  }

  function VipOf(f: Fields, py: Python): Vip {
    Vip(TextAt(f, "vhid", "", py),
        TextAt(f, "ipaddr", TextAt(f, "subnet", "", py), py),
        Text.Upper(TextAt(f, "status", "", py)),
        TextAt(f, "advskew", "", py))
  }

  function CarpRows(rows: Items, py: Python): seq<Vip> {
    if rows.Nil? then []
    else (if IsCarpRow(rows.head, py) then [VipOf(rows.head.fields, py)] else []) + CarpRows(rows.tail, py)
  }

  predicate Truthy(v: Json, py: Python) {
    match v
    case Bool(b) => b
    case Null => false
    case _ =>
      var text := Text.Strip(Shown(v, py));
      match py.number(text)
      case Some(n) => n == 1
      case None => Text.Lower(text) == "true"
  }

  function Maintenance(block: Fields, py: Python): bool {
    match (Lookup(block, "maintenancemode"), Lookup(block, "maintenance_mode"))
    case (Some(v), _) => Truthy(v, py)
    case (None, Some(v)) => Truthy(v, py)
    case _ => false
  }

  function Demotion(block: Fields, py: Python): int {
    match Lookup(block, "demotion")
    case Some(Num(n)) => n
    case Some(Bool(b)) => if b then 1 else 0
    case Some(Str(s)) => (match py.number(s) case Some(n) => n case None => 0)
    case _ => 0
  }

  // ---- Node role ------------------------------------------------------------

  predicate IsActive(v: Vip) {
    v.status != "DISABLED" && v.status != ""
  }

  function Active(vhids: seq<Vip>): seq<Vip> {
    if vhids == [] then [] else (if IsActive(vhids[0]) then [vhids[0]] else []) + Active(vhids[1..])
  }

  /** `int(text or 9999)`. */
  function Rank(text: string, py: Python): Option<int> {
    if text == "" then Some(9999) else py.number(text)
  }

  predicate Ranked(v: Vip, py: Python) {
    Rank(v.vhid, py).Some? && Rank(v.advskew, py).Some?
  }

  /** Lowest VHID first, then lowest advskew. */
  predicate RanksBefore(a: Vip, b: Vip, py: Python) {
    var key := (v: Vip) => match (Rank(v.vhid, py), Rank(v.advskew, py))
                           case (Some(x), Some(y)) => (x, y)
                           case _ => (0, 0);
    key(a).0 < key(b).0 || (key(a).0 == key(b).0 && key(a).1 <= key(b).1)
  }

  /** The VIP that decides the role of a node. */
  function Primary(active: seq<Vip>, py: Python): (v: Vip)
    requires active != []
    ensures v in active && forall w :: w in active ==> RanksBefore(v, w, py)
  {
    var le := (a, b) => RanksBefore(a, b, py);
    Sorting.FirstIsLeast(active, le);
    Sorting.Sort(active, le)[0]
  }

  /** The role of a node; None where a number cannot be read and the source raises. */
  function Classify(enabled: bool, maintenance: bool, vhids: seq<Vip>, py: Python): Option<Role> {
    if !enabled then Some(Disabled)
    else if maintenance then Some(Backup)
    else if Active(vhids) == [] then Some(Disabled)
    else if exists v :: v in Active(vhids) && !Ranked(v, py) then None
    else match Primary(Active(vhids), py).status
         case "MASTER" => Some(Master)
         case "BACKUP" => Some(Backup)
         case _ => Some(Unknown)
  }

  /** The VIP rows of a `getVipStatus` answer (Null where the call failed). */
  function RowsOf(answer: Json): Items {
    match (if answer.Obj? then Lookup(answer.fields, "rows") else None)
    case Some(Arr(items)) => items
    case _ => Nil
  }

  /** Its CARP block. */
  function BlockOf(answer: Json): Fields {
    match (if answer.Obj? then Lookup(answer.fields, "carp") else None)
    case Some(Obj(f)) => f
    case _ => Empty
  }

  /** What `collect_carp_status` makes of the `getVipStatus` answer. */
  function Collected(answer: Json, py: Python): Option<Status> {
    var vhids, maintenance := CarpRows(RowsOf(answer), py), Maintenance(BlockOf(answer), py);
    match Classify(vhids != [], maintenance, vhids, py)
    case None => None
    case Some(role) => Some(Status(role, vhids != [], maintenance, Demotion(BlockOf(answer), py), vhids))
  }

  /** Some active VIP holds `status`, and no active VIP is ranked strictly before it. */
  predicate LedBy(vhids: seq<Vip>, status: string, py: Python) {
    exists v :: v in vhids && IsActive(v) && v.status == status
                && forall w :: w in vhids && IsActive(w) ==> RanksBefore(v, w, py)
  }

  lemma {:induction false} ActiveElements(vhids: seq<Vip>)
    ensures forall v :: v in Active(vhids) <==> v in vhids && IsActive(v)
  {
    if vhids != [] {
      ActiveElements(vhids[1..]);
      assert forall v :: v in vhids <==> v == vhids[0] || v in vhids[1..];
    }
  }

  /** The loop that appends the CARP rows. */
  method CollectRows(rows: Items, py: Python) returns (vhids: seq<Vip>)
    ensures vhids == CarpRows(rows, py)
  {
    hide VipOf, TextAt;
    vhids := [];
    var rest := rows;
    while rest.Cons?
      invariant vhids + CarpRows(rest, py) == CarpRows(rows, py)
      decreases rest
    {
      assert CarpRows(rest, py)
             == (if IsCarpRow(rest.head, py) then [VipOf(rest.head.fields, py)] else []) + CarpRows(rest.tail, py);
      if IsCarpRow(rest.head, py) {
        vhids := vhids + [VipOf(rest.head.fields, py)];
      }
      rest := rest.tail;
    }
  }

  /** A status that the collector can produce. */
  ghost predicate IsCollected(s: Status, py: Python) {
    s.enabled == (s.vhids != []) && Classify(s.enabled, s.maintenance, s.vhids, py) == Some(s.role)
  }

  /**
   `collect_carp_status` raises exactly if an active VIP cannot be ranked outside maintenance. Otherwise the
   node is enabled exactly if it has VIPs, a master or backup outside maintenance is led by such a VIP, and
   without an active VIP the node is disabled.
   */
  method CollectCarpStatus(answer: Json, py: Python) returns (status: Option<Status>)
    ensures status == Collected(answer, py)
    ensures status.None? <==> (!Maintenance(BlockOf(answer), py)
                               && exists v :: v in CarpRows(RowsOf(answer), py) && IsActive(v) && !Ranked(v, py))
    ensures status.Some? ==> IsCollected(status.value, py) && status.value.vhids == CarpRows(RowsOf(answer), py)
    ensures status.Some? && status.value.role.Master? ==>
              !status.value.maintenance && LedBy(status.value.vhids, "MASTER", py)
    ensures status.Some? && status.value.role.Backup? ==>
              status.value.vhids != [] && (status.value.maintenance || LedBy(status.value.vhids, "BACKUP", py))
    ensures status.Some? ==>
              (status.value.role.Disabled? <==>
               status.value.vhids == []
               || (!status.value.maintenance && forall v :: v in status.value.vhids ==> !IsActive(v)))
  {
    hide RanksBefore, Ranked, IsActive, Active, Maintenance, CarpRows;
    var vhids := CollectRows(RowsOf(answer), py);
    var maintenance := Maintenance(BlockOf(answer), py);
    var enabled := vhids != [];
    ActiveElements(vhids);
    assert vhids == [] ==> Active(vhids) == [] by {
      assert forall v :: v in Active(vhids) ==> v in vhids;
      assert Active(vhids) != [] ==> Active(vhids)[0] in Active(vhids);
    }
    assert Active(vhids) != [] ==> Active(vhids)[0] in vhids && IsActive(Active(vhids)[0]);
    var role := Classify(enabled, maintenance, vhids, py);
    if role.None? {
      return None;
    }
    return Some(Status(role.value, enabled, maintenance, Demotion(BlockOf(answer), py), vhids));
  }

  // ---- The write gate -------------------------------------------------------

  datatype Side = A | B

  /** Status by VIP; a later row of the same VIP overwrites an earlier one. */
  function VipStates(vhids: seq<Vip>): map<(string, string), string> {
    if vhids == [] then map[]
    else
      var last := vhids[|vhids| - 1];
      VipStates(vhids[..|vhids| - 1])[(last.vhid, last.ipaddr) := last.status]
  }

  predicate AllStates(states: map<(string, string), string>, status: string) {
    states != map[] && forall k :: k in states ==> states[k] == status
  }

  /** `_firewall_target` for a write: the side that is master, or None for a refusal. */
  function Gate(left: Status, right: Status): Option<Side> {
    var la, rb := VipStates(left.vhids), VipStates(right.vhids);
    if !left.enabled || !right.enabled || la == map[] || la.Keys != rb.Keys || left.maintenance || right.maintenance
    then None
    else if AllStates(la, "MASTER") && AllStates(rb, "BACKUP") then Some(A)
    else if AllStates(la, "BACKUP") && AllStates(rb, "MASTER") then Some(B)
    else None
  }

  // ---- The preflight check --------------------------------------------------

  predicate HoldsRole(s: Status, status: string) {
    s.enabled && !s.maintenance && s.vhids != [] && forall v :: v in s.vhids ==> v.status == status
  }

  function Identities(s: Status): set<(string, string)> {
    set v | v in s.vhids :: (v.vhid, v.ipaddr)
  }

  /** The CARP part of `_sync_preflight`: `local` is MASTER and `peer` BACKUP of the same VIPs. */
  predicate PreflightAccepts(local: Status, peer: Status) {
    HoldsRole(local, "MASTER") && HoldsRole(peer, "BACKUP") && Identities(local) == Identities(peer)
  }

  // ---- Agreement of the two -------------------------------------------------

  /** No VIP is listed with two different statuses. */
  ghost predicate OneStatusEach(vhids: seq<Vip>) {
    forall v, w :: v in vhids && w in vhids && (v.vhid, v.ipaddr) == (w.vhid, w.ipaddr) ==> v.status == w.status
  }

  lemma {:induction false} VipStatesKeys(vhids: seq<Vip>)
    ensures VipStates(vhids).Keys == set v | v in vhids :: (v.vhid, v.ipaddr)
    ensures forall k :: k in VipStates(vhids) ==>
              exists v :: v in vhids && (v.vhid, v.ipaddr) == k && v.status == VipStates(vhids)[k]
  {
    if vhids != [] {
      var last, before := vhids[|vhids| - 1], vhids[..|vhids| - 1];
      VipStatesKeys(before);
      assert vhids == before + [last];
      assert forall v :: v in vhids <==> v in before || v == last;
    }
  }

  /** Uniform statuses show in the map, and the map is uniform without the statuses only for a VIP with two. */
  lemma AllStatesIffAllVips(vhids: seq<Vip>, status: string)
    ensures vhids != [] && (forall v :: v in vhids ==> v.status == status) <==>
            AllStates(VipStates(vhids), status) && OneStatusEach(vhids)
  {
    VipStatesKeys(vhids);
    if vhids != [] {
      assert vhids[0] in vhids;
      assert (vhids[0].vhid, vhids[0].ipaddr) in VipStates(vhids).Keys;
    }
    if AllStates(VipStates(vhids), status) && OneStatusEach(vhids) {
      forall v | v in vhids ensures v.status == status {
        assert (v.vhid, v.ipaddr) in VipStates(vhids).Keys;
      }
      var k :| k in VipStates(vhids);
      assert vhids != [];
    }
  }

  /** Both nodes know the same VIPs, one as `here` and the other as `there`, and neither is in maintenance. */
  predicate StatesFit(left: Status, right: Status, here: string, there: string) {
    var la, rb := VipStates(left.vhids), VipStates(right.vhids);
    !left.maintenance && !right.maintenance && la.Keys == rb.Keys && AllStates(la, here) && AllStates(rb, there)
  }

  /** The gate names a side exactly if the roles fit by VIP. */
  lemma GateIffStates(left: Status, right: Status)
    requires left.enabled == (left.vhids != []) && right.enabled == (right.vhids != [])
    ensures Gate(left, right) == Some(A) <==> StatesFit(left, right, "MASTER", "BACKUP")
    ensures Gate(left, right) == Some(B) <==> StatesFit(left, right, "BACKUP", "MASTER")
  {
    var la, rb := VipStates(left.vhids), VipStates(right.vhids);
    if la != map[] {
      var k :| k in la;
      assert AllStates(la, "MASTER") ==> la[k] == "MASTER";
      assert AllStates(la, "BACKUP") ==> la[k] == "BACKUP";
    }
  }

  /** Preflight accepts exactly where the gate names the master and no VIP occurs with two statuses on a node. */
  lemma GateIffPreflight(left: Status, right: Status)
    requires left.enabled == (left.vhids != []) && right.enabled == (right.vhids != [])
    ensures PreflightAccepts(left, right) <==>
            Gate(left, right) == Some(A) && OneStatusEach(left.vhids) && OneStatusEach(right.vhids)
    ensures PreflightAccepts(right, left) <==>
            Gate(left, right) == Some(B) && OneStatusEach(left.vhids) && OneStatusEach(right.vhids)
  {
    hide Gate, VipStates, AllStates, OneStatusEach;
    GateIffStates(left, right);
    IdentitiesAreKeys(left);
    IdentitiesAreKeys(right);
    AllStatesIffAllVips(left.vhids, "MASTER");
    AllStatesIffAllVips(left.vhids, "BACKUP");
    AllStatesIffAllVips(right.vhids, "MASTER");
    AllStatesIffAllVips(right.vhids, "BACKUP");
  }

  lemma IdentitiesAreKeys(s: Status)
    ensures Identities(s) == VipStates(s.vhids).Keys
    ensures VipStates(s.vhids) == map[] <==> s.vhids == []
    ensures AllStates(VipStates(s.vhids), "MASTER") || AllStates(VipStates(s.vhids), "BACKUP") ==> s.vhids != []
  {
    VipStatesKeys(s.vhids);
    if s.vhids != [] {
      assert s.vhids[0] in s.vhids;
      assert (s.vhids[0].vhid, s.vhids[0].ipaddr) in VipStates(s.vhids).Keys;
    }
  }

  /** The row of VIP 10.0.0.1 of group 1. */
  function VipRow(status: string): Json {
    var state := Field("status", Str(status), Field("advskew", Str("0"), Empty));
    Obj(Field("vhid", Str("1"), Field("ipaddr", Str("10.0.0.1"), state)))
  }

  function VipAnswer(rows: Items): Json {
    Obj(Field("rows", Arr(rows), Empty))
  }

  lemma VipOfRow(status: string, py: Python)
    requires status in {"INIT", "MASTER", "BACKUP"}
    ensures IsCarpRow(VipRow(status), py)
    ensures VipOf(VipRow(status).fields, py) == Vip("1", "10.0.0.1", status, "0")
  {
    assert Text.Lower("carp") == "carp";
    assert Text.Upper("INIT") == "INIT" && Text.Upper("MASTER") == "MASTER" && Text.Upper("BACKUP") == "BACKUP";
  }

  /** An answer of rankable VIPs outside maintenance is collected. */
  lemma RankedIsCollected(answer: Json, py: Python)
    requires CarpRows(RowsOf(answer), py) != [] && BlockOf(answer) == Empty
    requires forall v :: v in CarpRows(RowsOf(answer), py) ==> Ranked(v, py)
    ensures Collected(answer, py).Some?
    ensures var status := Collected(answer, py).value;
            status.enabled && !status.maintenance && status.vhids == CarpRows(RowsOf(answer), py)
  {
    hide CarpRows, Ranked;
    ActiveElements(CarpRows(RowsOf(answer), py));
    assert Lookup(Empty, "maintenancemode") == None == Lookup(Empty, "maintenance_mode");
  }

  /** The answers of a node that lists the VIP twice and of its peer are collected. */
  lemma RepeatedVipCollected(py: Python)
    requires py.number("1").Some? && py.number("0").Some?
    ensures var left := Collected(VipAnswer(Cons(VipRow("INIT"), Cons(VipRow("MASTER"), Nil))), py);
            left.Some? && left.value.enabled && !left.value.maintenance
            && left.value.vhids == [Vip("1", "10.0.0.1", "INIT", "0"), Vip("1", "10.0.0.1", "MASTER", "0")]
    ensures var right := Collected(VipAnswer(Cons(VipRow("BACKUP"), Nil)), py);
            right.Some? && right.value.enabled && !right.value.maintenance
            && right.value.vhids == [Vip("1", "10.0.0.1", "BACKUP", "0")]
  {
    hide IsCarpRow, VipOf, VipRow, Collected;
    VipOfRow("INIT", py);
    VipOfRow("MASTER", py);
    VipOfRow("BACKUP", py);
    var twice, once := Cons(VipRow("INIT"), Cons(VipRow("MASTER"), Nil)), Cons(VipRow("BACKUP"), Nil);
    assert CarpRows(Nil, py) == [];
    assert CarpRows(once, py) == [Vip("1", "10.0.0.1", "BACKUP", "0")];
    assert CarpRows(twice.tail, py) == [Vip("1", "10.0.0.1", "MASTER", "0")];
    assert CarpRows(twice, py) == [Vip("1", "10.0.0.1", "INIT", "0"), Vip("1", "10.0.0.1", "MASTER", "0")];
    RankedIsCollected(VipAnswer(twice), py);
    RankedIsCollected(VipAnswer(once), py);
  }

  lemma RepeatedVipStates()
    ensures VipStates([Vip("1", "10.0.0.1", "INIT", "0"), Vip("1", "10.0.0.1", "MASTER", "0")])
            == map[("1", "10.0.0.1") := "MASTER"]
    ensures VipStates([Vip("1", "10.0.0.1", "BACKUP", "0")]) == map[("1", "10.0.0.1") := "BACKUP"]
  {
    var first, second := Vip("1", "10.0.0.1", "INIT", "0"), Vip("1", "10.0.0.1", "MASTER", "0");
    assert [first, second][..1] == [first] && [first][..0] == [];
    var backup := Vip("1", "10.0.0.1", "BACKUP", "0");
    assert [backup][..0] == [];
  }

  /** Of a VIP that an answer lists with two statuses the gate sees the last, and accepts what preflight refuses. */
  lemma GateOverlooksRepeatedVip(py: Python)
    requires py.number("1").Some? && py.number("0").Some?
    ensures var left := Collected(VipAnswer(Cons(VipRow("INIT"), Cons(VipRow("MASTER"), Nil))), py);
            var right := Collected(VipAnswer(Cons(VipRow("BACKUP"), Nil)), py);
            && left.Some? && right.Some?
            && Gate(left.value, right.value) == Some(A) && !PreflightAccepts(left.value, right.value)
  {
    hide Collected, VipStates;
    RepeatedVipCollected(py);
    RepeatedVipStates();
    var master, backup := map[("1", "10.0.0.1") := "MASTER"], map[("1", "10.0.0.1") := "BACKUP"];
    assert ("1", "10.0.0.1") in master && master.Keys == {("1", "10.0.0.1")} == backup.Keys;
    assert AllStates(master, "MASTER") && AllStates(backup, "BACKUP");
    var first := Vip("1", "10.0.0.1", "INIT", "0");
    assert first in [first, Vip("1", "10.0.0.1", "MASTER", "0")] && first.status != "MASTER";
  }

  lemma {:induction false} ActiveWhenUniform(vhids: seq<Vip>, status: string)
    requires status != "" && status != "DISABLED"
    requires forall v :: v in vhids ==> v.status == status
    ensures Active(vhids) == vhids
  {
    if vhids != [] {
      assert vhids[0] in vhids;
      ActiveWhenUniform(vhids[1..], status);
    }
  }

  /** A node whose VIPs all hold one status is classified by it. */
  lemma UniformRole(s: Status, py: Python)
    requires IsCollected(s, py)
    ensures HoldsRole(s, "MASTER") ==> s.role == Master
    ensures HoldsRole(s, "BACKUP") ==> s.role == Backup
  {
    if HoldsRole(s, "MASTER") {
      ActiveWhenUniform(s.vhids, "MASTER");
    }
    if HoldsRole(s, "BACKUP") {
      ActiveWhenUniform(s.vhids, "BACKUP");
    }
  }

}
