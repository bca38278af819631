/** Deciding whether the explicit XMLRPC synchronisation of a node pair can be relied on. */
module Preflight {
  import opened Wrappers
  import opened JsonTrees
  import opened OptionTrees
  import Carp
  import Matching
  import Text

  datatype Resource = PortForward | Rules | Aliases

  /**
   The answers that preflight collects. `target` is the address that the local synchronisation target
   parses to (None where it is not a literal, usable peer address); the interface addresses exclude
   CARP addresses and are None where the answer cannot be read.
   */
  datatype Survey = Survey(
    local: Json, peer: Json, target: Option<string>,
    peerAddresses: Option<set<string>>, localAddresses: Option<set<string>>,
    localCarp: Carp.Status, peerCarp: Carp.Status)

  datatype Plan = Plan(target: string, sections: set<string>, vips: set<(string, string)>)

  /** The `hasync` block of an answer. */
  function Block(answer: Json): Option<Fields> {
    match Selected(answer)
    case Obj(f) => (match Lookup(f, "hasync") case Some(Obj(g)) => Some(g) case None => Some(Empty) case _ => None)
    case _ => None
  }

  function Section(resource: Resource): string {
    match resource
    case Aliases => "aliases"
    case Rules => "rules"
    case PortForward => "nat"
  }

  function Sections(local: Fields, show: Json -> string): set<string> {
    var items := match Lookup(local, "syncitems")
                 case None => ""
                 case Some(v) => Matching.StrOf(v, show);
    set part | part in Text.Split(items, ',')
  }

  /** `_sync_preflight`: the plan, or None where the source raises UnsafeSync. */
  function Decide(resource: Resource, s: Survey, show: Json -> string): Option<Plan> {
    match (Block(s.local), Block(s.peer))
    case (Some(local), Some(peer)) =>
      if Lookup(peer, "synchronizetoip") != Some(Str("")) then None
      else if Section(resource) !in Sections(local, show) || !(Sections(local, show) <= {"aliases", "rules", "nat"})
      then None
      else (match (Lookup(local, "synchronizetoip"), s.target, s.peerAddresses, s.localAddresses)
            case (Some(Str(written)), Some(address), Some(theirs), Some(ours)) =>
              if address !in theirs || address in ours then None
              else if !Carp.PreflightAccepts(s.localCarp, s.peerCarp) then None
              else Some(Plan(written, Sections(local, show), Carp.Identities(s.localCarp)))
            case _ => None)
    case _ => None
  }

  /**
   A plan exists only where synchronisation covers the resource and nothing but firewall sections, runs
   from this node to exactly the configured peer and not back, and this node is master of all VIPs.
   */
  lemma PlanMeansSafe(resource: Resource, s: Survey, show: Json -> string)
    requires Decide(resource, s, show).Some?
    ensures var plan := Decide(resource, s, show).value;
            && Section(resource) in plan.sections && plan.sections <= {"aliases", "rules", "nat"}
            && Block(s.peer).Some? && Lookup(Block(s.peer).value, "synchronizetoip") == Some(Str(""))
            && s.target.Some? && s.peerAddresses.Some? && s.target.value in s.peerAddresses.value
            && s.localAddresses.Some? && s.target.value !in s.localAddresses.value
            && Carp.Gate(s.localCarp, s.peerCarp) == Some(Carp.A)
            && plan.vips == Carp.Identities(s.localCarp) == Carp.Identities(s.peerCarp)
  {
    Carp.AllStatesIffAllVips(s.localCarp.vhids, "MASTER");
    Carp.AllStatesIffAllVips(s.peerCarp.vhids, "BACKUP");
    Carp.VipStatesKeys(s.localCarp.vhids);
    Carp.VipStatesKeys(s.peerCarp.vhids);
  }

}
