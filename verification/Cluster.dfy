/** Naming the master of a node pair, and the agreement of the separately written CARP deciders. */
module Cluster {
  import opened Wrappers
  import opened JsonTrees
  import opened Carp
  import Divergence

  /** What is kept of a node's CARP status. */
  datatype Probe = Probe(role: Role, enabled: bool)

  function Other(side: Side): Side {
    if side.A? then B else A
  }

  /** The side whose role alone is master; A if there is no such side. */
  function SideOf(a: Role, b: Role): Side {
    if a.Master? && !b.Master? then A else if b.Master? && !a.Master? then B else A
  }

  /** `statusA` and `statusB` are what collecting the nodes' status yields, None where it raises. */
  class ClusterClient {
    const a: string
    const b: string
    const statusA: Option<Status>
    const statusB: Option<Status>
    var probeA: Option<Probe>
    var probeB: Option<Probe>

    constructor (a: string, b: string, statusA: Option<Status>, statusB: Option<Status>)
      ensures this.a == a && this.b == b && this.statusA == statusA && this.statusB == statusB
      ensures probeA == probeB == None
    {
      this.a, this.b, this.statusA, this.statusB := a, b, statusA, statusB;
      this.probeA, this.probeB := None, None;
    }

    /** What a probe holds once it was needed. */
    function Filled(probe: Option<Probe>, status: Option<Status>): Option<Probe> {
      if probe.Some? then probe
      else match status case Some(s) => Some(Probe(s.role, s.enabled)) case None => None
    }

    /** `_ensure_probes`: collect what is not cached, A before B; false where collecting raises. */
    method EnsureProbes() returns (ok: bool)
      modifies this
      ensures ok <==> Filled(old(probeA), statusA).Some? && Filled(old(probeB), statusB).Some?
      ensures probeA == Filled(old(probeA), statusA)
      ensures probeB == if probeA.Some? then Filled(old(probeB), statusB) else old(probeB)
    {
      if probeA.None? {
        if statusA.None? {
          return false;
        }
        probeA := Some(Probe(statusA.value.role, statusA.value.enabled));
      }
      if probeB.None? {
        if statusB.None? {
          return false;
        }
        probeB := Some(Probe(statusB.value.role, statusB.value.enabled));
      }
      return true;
    }

    /** `master_side`. */
    method MasterSide() returns (side: Option<Side>)
      modifies this
      ensures side.Some? <==> Filled(old(probeA), statusA).Some? && Filled(old(probeB), statusB).Some?
      ensures side.Some? ==>
                side.value == SideOf(Filled(old(probeA), statusA).value.role, Filled(old(probeB), statusB).value.role)
    {
      var ok := EnsureProbes();
      if !ok {
        return None;
      }
      if probeA.value.role.Master? && !probeB.value.role.Master? {
        return Some(A);
      }
      if probeB.value.role.Master? && !probeA.value.role.Master? {
        return Some(B);
      }
      return Some(A);
    }

    /** `master` and `backup`: never the same side. */
    method MasterAndBackup() returns (pair: Option<(string, string)>)
      modifies this
      ensures pair.Some? <==> Filled(old(probeA), statusA).Some? && Filled(old(probeB), statusB).Some?
      ensures pair.Some? ==>
                && var left, right := Filled(old(probeA), statusA).value, Filled(old(probeB), statusB).value;
                   pair.value == if SideOf(left.role, right.role).A? then (a, b) else (b, a)
    {
      var side := MasterSide();
      if side.None? {
        return None;
      }
      return Some(if side.value.A? then (a, b) else (b, a));
    }
  }

  // ---- The target of an operation -----------------------------------------------

  datatype Target = Unconfigured | Refused | Single(host: string) | Pair(host: string, peer: string)

  /**
   `_firewall_target`: `left` and `right` are the statuses collected for a write (None where collecting
   raises) and `cached` the side that a read uses.
   */
  function FirewallTarget(hosts: seq<string>, cluster: bool, write: bool, left: Option<Status>,
      right: Option<Status>, cached: Side): Target
    requires cluster ==> |hosts| >= 2
  {
    if hosts == [] then Unconfigured
    else if !cluster then Single(hosts[0])
    else if write && |hosts| != 2 then Refused
    else if !write then if cached.A? then Pair(hosts[0], hosts[1]) else Pair(hosts[1], hosts[0])
    else match (left, right)
         case (Some(l), Some(r)) =>
           (match Gate(l, r)
            case Some(A) => Pair(hosts[0], hosts[1])
            case Some(B) => Pair(hosts[1], hosts[0])
            case None => Refused)
         case _ => Refused
  }

  // ---- Agreement ------------------------------------------------------------------

  /** The role as it stands in a snapshot. */
  function RoleText(role: Role): Json {
    match role
    case Master => Str("master")
    case Backup => Str("backup")
    case Disabled => Str("disabled")
    case Unknown => Str("unknown")
  }

  lemma GateSwaps(left: Status, right: Status)
    ensures Gate(right, left) == match Gate(left, right) case Some(side) => Some(Other(side)) case None => None
  {
    var la, rb := VipStates(left.vhids), VipStates(right.vhids);
    if la != map[] && la.Keys == rb.Keys {
      var k :| k in la;
      assert rb != map[] && k in rb;
      assert AllStates(la, "MASTER") ==> la[k] == "MASTER";
      assert AllStates(la, "BACKUP") ==> la[k] == "BACKUP";
      assert AllStates(rb, "MASTER") ==> rb[k] == "MASTER";
      assert AllStates(rb, "BACKUP") ==> rb[k] == "BACKUP";
    } else {
      assert rb == map[] || la.Keys != rb.Keys;
    }
  }

  /**
   The CARP deciders agree: where no VIP has two statuses, the write gate names a master exactly if preflight accepts it
   as local and the other as peer; then the cluster client picks the same side, no role divergence is
   reported, and listing the hosts the other way round names the same node.
   */
  lemma CarpDecidersAgree(left: Status, right: Status, py: Python)
    requires IsCollected(left, py) && IsCollected(right, py)
    requires OneStatusEach(left.vhids) && OneStatusEach(right.vhids)
    ensures Gate(left, right) == Some(A) <==> PreflightAccepts(left, right)
    ensures Gate(left, right) == Some(B) <==> PreflightAccepts(right, left)
    ensures Gate(left, right).Some? ==>
              && SideOf(left.role, right.role) == Gate(left, right).value
              && SideOf(right.role, left.role) == Other(Gate(left, right).value)
              && Gate(right, left) == Some(Other(Gate(left, right).value))
              && Divergence.RolePair(RoleText(left.role), RoleText(right.role)) == []
  {
    hide Gate, PreflightAccepts, OneStatusEach, Classify;
    GateIffPreflight(left, right);
    GateSwaps(left, right);
    RolesOfPair(left, right, py);
    RolesOfPair(right, left, py);
  }

  lemma RolesOfPair(local: Status, peer: Status, py: Python)
    requires IsCollected(local, py) && IsCollected(peer, py)
    ensures PreflightAccepts(local, peer) ==> local.role.Master? && peer.role.Backup?
  {
    UniformRole(local, py);
    UniformRole(peer, py);
  }

  /** A cluster write that is not refused goes to the node that preflight accepts as master of the other. */
  lemma WritesGoToTheMaster(hosts: seq<string>, left: Status, right: Status, cached: Side, py: Python)
    requires |hosts| >= 2 && IsCollected(left, py) && IsCollected(right, py)
    requires OneStatusEach(left.vhids) && OneStatusEach(right.vhids)
    ensures var target := FirewallTarget(hosts, true, true, Some(left), Some(right), cached);
            && (target == Refused <==>
                |hosts| != 2 || (!PreflightAccepts(left, right) && !PreflightAccepts(right, left)))
            && (|hosts| == 2 && PreflightAccepts(left, right) ==> target == Pair(hosts[0], hosts[1]))
            && (|hosts| == 2 && PreflightAccepts(right, left) ==> target == Pair(hosts[1], hosts[0]))
  {
    hide Gate, PreflightAccepts;
    GateIffPreflight(left, right);
  }

}
