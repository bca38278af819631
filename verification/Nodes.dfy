/**
 Two honest firewalls without outside writers: what each call of the protocol does to their stored and
 loaded configuration, and what the last-DNAT clean-up therefore removes.
 */
module Nodes {
  import opened Wrappers
  import opened JsonTrees
  import opened Histories
  import opened Protocol
  import opened WriteGuarantees
  import opened WriteCauses
  import Listings
  import Preflight
  import Text

  // ---- Configuration --------------------------------------------------------

  /** One resource of one node: stored objects, the ones that are loaded, and the generated lockout rows. */
  datatype Config = Config(saved: map<string, Json>, applied: map<string, Json>, lockouts: set<string>)

  /** A host has one table for each of the three resources. */
  datatype Site = Site(host: string, resource: Preflight.Resource)

  type Network = map<Site, Config>

  /** A request to a writer for a pair of hosts. */
  datatype Job = Job(setup: Setup, request: Request, localHost: string, peerHost: string)

  function SiteOf(job: Job, node: Node): Site {
    Site(if node.Local? then job.localHost else job.peerHost, job.setup.resource)
  }

  /** A read of the peer in automatic mode, where the nodes synchronise by themselves. */
  predicate Converges(job: Job, call: Call) {
    job.setup.hasPeer && !job.setup.explicitSync && (call.ReadObject? || call.ReadListing?) && call.node.Peer?
  }

  /** Calls with which the peer is synchronised: the explicit push, and the reads that await the automatic one. */
  predicate Synchronises(job: Job, call: Call) {
    (call.Post? && call.verb.Restart?) || Converges(job, call)
  }

  /**
   Synchronisation may change every table of a host. It leaves the lockout rows alone, which a node generates
   from its own settings.
   */
  ghost predicate Merges(host: string, before: Network, after: Network) {
    && after.Keys == before.Keys
    && forall site :: site in before ==>
         if site.host == host then after[site].lockouts == before[site].lockouts else after[site] == before[site]
  }

  /** The table is loaded; other tables of the host may be loaded with it. */
  ghost predicate Reloads(own: Site, before: Network, after: Network) {
    && own in before && after.Keys == before.Keys
    && forall site :: site in before ==>
         var loaded := before[site].(applied := before[site].saved);
         if site == own then after[site] == loaded
         else after[site] == before[site] || (site.host == own.host && after[site] == loaded)
  }

  /** The effect of an add, set or delete on the table that it names. A delete removes whatever row it names. */
  ghost predicate Edits(call: Call, answer: Answer, before: Config, after: Config)
    requires call.Post?
  {
    match call.verb
    case Add => exists u :: Adds(u, answer, before, after)
    case Set => call.uuid in before.saved && call.uuid in after.saved
                && after == before.(saved := before.saved[call.uuid := after.saved[call.uuid]])
    case Del => after == before.(saved := before.saved - {call.uuid}, lockouts := before.lockouts - {call.uuid})
    case _ => false
  }

  /** A new object under a fresh identifier, which the answer names. */
  ghost predicate Adds(u: string, answer: Answer, before: Config, after: Config) {
    && u !in before.saved && u in after.saved
    && after == before.(saved := before.saved[u := after.saved[u]])
    && (PostProblem(answer).None? && ValidUuid(answer.reply.uuid).Some? ==> ValidUuid(answer.reply.uuid) == Some(u))
  }

  /** The effect of a POST that is carried out. */
  ghost predicate Takes(job: Job, call: Call, answer: Answer, before: Network, after: Network)
    requires call.Post?
  {
    var site := SiteOf(job, call.node);
    match call.verb
    case Restart => Merges(job.peerHost, before, after)
    case Apply => Reloads(site, before, after)
    case _ => site in before && site in after && after == before[site := after[site]]
              && Edits(call, answer, before[site], after[site])
  }

  /** What a table stores under an identifier, as a reader sees it: counters that are not configuration aside. */
  function StoredDetail(s: Setup, c: Config, uuid: string): Option<Json> {
    if uuid in c.saved then Detail(s, c.saved[uuid]) else None
  }

  /**
   One answered call. Reads are honest and change nothing themselves, an acknowledged POST has taken effect, and
   one that was rejected or failed may or may not have.
   */
  ghost predicate Happens(job: Job, call: Call, answer: Answer, before: Network, after: Network) {
    match call
    case Append(_) => after == before
    case Inspect => after == before
    case ReadObject(node, uuid) =>
      && (if Converges(job, call) then Merges(job.peerHost, before, after) else after == before)
      && (answer.Object? ==>
            && SiteOf(job, node) in after
            && Detail(job.setup, answer.raw) == StoredDetail(job.setup, after[SiteOf(job, node)], uuid))
    case ReadListing(node) =>
      && (if Converges(job, call) then Merges(job.peerHost, before, after) else after == before)
      && (answer.Rows? ==>
            && SiteOf(job, node) in after
            && Listings.Honest(job.setup.resource.PortForward?, answer.listing, after[SiteOf(job, node)].saved.Keys))
    case Post(_, _, _, _) =>
      (PostProblem(answer).Some? && after == before) || Takes(job, call, answer, before, after)
  }

  /** The states of the network along a history. */
  ghost predicate Unfolds(job: Job, d: History, w: seq<Network>) {
    |w| == |d| + 1 && forall k :: 0 <= k < |d| ==> Happens(job, d[k].call, d[k].answer, w[k], w[k + 1])
  }

  lemma {:induction false} ReadsKeepTheNetwork(job: Job, d: History, w: seq<Network>, i: nat, j: nat)
    requires Unfolds(job, d, w) && i <= j <= |d|
    requires forall k :: i <= k < j ==> !d[k].call.Post? && !Converges(job, d[k].call)
    ensures w[i] == w[j]
    decreases j
  {
    if i < j {
      ReadsKeepTheNetwork(job, d, w, i, j - 1);
      assert Happens(job, d[j - 1].call, d[j - 1].answer, w[j - 1], w[j - 1 + 1]);
    }
  }

  // ---- Lockout rows ---------------------------------------------------------

  /** An update or delete names a canonical UUID. */
  predicate NamesUuid(q: Request) {
    q.action.Create? || ValidUuid(Str(q.uuid)).Some?
  }

  /** The lockout rows of a node carry generated names. */
  ghost predicate Generated(c: Config) {
    forall l :: l in c.lockouts ==> Listings.IsLockout(l)
  }

  /** No generated name is a UUID, in any letter case. */
  lemma LockoutIsNoUuid(name: string)
    requires Listings.IsLockout(name)
    ensures ValidUuid(Str(name)).None?
  {
    assert name[..8][0] == 'l';
    assert Text.Lower(name)[0] == 'l';
  }

  lemma UuidIsCanonical(v: Json)
    ensures ValidUuid(v).Some? ==> ValidUuid(Str(ValidUuid(v).value)) == ValidUuid(v)
  {
    if ValidUuid(v).Some? {
      Text.LowerIdempotent(v.text);
    }
  }

  /** Every delete names a UUID: the request's, or the one that a create was answered with. */
  lemma DeletesNameUuids(s: Setup, q: Request, d: History, i: nat)
    requires Legal(Execution(s, q), d) && i < |d| && d[i].call.Post? && d[i].call.verb.Del? && NamesUuid(q)
    ensures ValidUuid(Str(d[i].call.uuid)).Some?
  {
    hide Execution, Legal, ValidUuid;
    PurposeAt(s, q, d, i);
    if d[i].call.purpose.RollbackDelete? {
      RollbackNeedsRejectedCreate(s, q, d, i);
      UuidIsCanonical(d[i - 2].answer.reply.uuid);
    }
  }

  /** A call of an admitted request leaves the lockout rows of every table alone. */
  lemma CallKeepsLockouts(job: Job, d: History, i: nat, before: Network, after: Network, site: Site)
    requires Legal(Execution(job.setup, job.request), d) && i < |d| && NamesUuid(job.request)
    requires Happens(job, d[i].call, d[i].answer, before, after)
    requires site in before && Generated(before[site])
    ensures site in after && after[site].lockouts == before[site].lockouts
  {
    hide Execution, Legal, ValidUuid, PostProblem, Listings.Honest, Listings.IsLockout, Detail;
    if d[i].call.Post? && d[i].call.verb.Del? {
      DeletesNameUuids(job.setup, job.request, d, i);
      if d[i].call.uuid in before[site].lockouts {
        LockoutIsNoUuid(d[i].call.uuid);
      }
    }
  }

  /** No call of an admitted request adds or removes a generated lockout row, on any node. */
  lemma {:induction false} LockoutsStay(job: Job, d: History, w: seq<Network>, k: nat, site: Site)
    requires Legal(Execution(job.setup, job.request), d) && NamesUuid(job.request)
    requires Unfolds(job, d, w) && k <= |d| && site in w[0] && Generated(w[0][site])
    ensures site in w[k] && w[k][site].lockouts == w[0][site].lockouts
  {
    hide Execution, Legal, Happens;
    if k > 0 {
      LockoutsStay(job, d, w, k - 1, site);
      assert Happens(job, d[k - 1].call, d[k - 1].answer, w[k - 1], w[k - 1 + 1]);
      CallKeepsLockouts(job, d, k - 1, w[k - 1], w[k], site);
    }
  }

  // ---- Reading the user rules -----------------------------------------------

  /** The user rules are the listed rows that are not lockouts. */
  lemma {:induction false} DnatIdsAreCounted(rows: seq<Json>)
    requires DnatIds(rows).Some?
    ensures DnatIds(rows).value == set u | u in Listings.CountedRows(true, rows)
  {
    if rows != [] {
      DnatIdsAreCounted(rows[1..]);
      var text := Listings.RowText(rows[0]);
      var first := if Listings.IsLockout(text) then [] else [Text.Lower(text)];
      assert Listings.CountedRows(true, rows) == first + Listings.CountedRows(true, rows[1..]);
    }
  }

  /** Reading an honest node's DNAT rules tells exactly which it holds. */
  lemma IdsReadIsExact(s: Setup, answer: Answer, ids: set<string>, table: set<string>)
    requires s.resource.PortForward? && IdsAre(s, answer, ids) == Success(true)
    requires answer.Rows? ==> Listings.Honest(true, answer.listing, table)
    ensures answer.Rows? && table == ids
  {
    var rows := answer.listing.rows;
    DnatIdsAreCounted(rows);
    Listings.CompleteListing(true, answer.listing, table, "");
    var counted := Listings.CountedRows(true, rows);
    forall u | u in counted ensures u in table {
      var k :| 0 <= k < |counted| && counted[k] == u;
    }
  }

  /** Reading an honest node's object tells its revision. */
  lemma HashReadIsExact(s: Setup, answer: Answer, revision: string)
    requires HashIs(s, answer, revision) == Success(true)
    ensures answer.Object? && Detail(s, answer.raw).Some? && Hash(s, Detail(s, answer.raw).value) == revision
  {
  }

  // ---- Last-DNAT clean-up ---------------------------------------------------

  ghost predicate HoldsOnly(job: Job, c: Config, uuid: string, revision: string) {
    && c.saved.Keys == {uuid}
    && Detail(job.setup, c.saved[uuid]).Some? && Hash(job.setup, Detail(job.setup, c.saved[uuid]).value) == revision
  }

  ghost predicate Empties(c: Config) {
    c.saved == map[]
  }

  /** What reading the ids and then the object of a node says about it, if nothing changed in between. */
  lemma ReadsOfNode(job: Job, d: History, w: seq<Network>, node: Node, ids: nat, rule: nat)
    requires Unfolds(job, d, w) && ids < |d| && rule < |d| && w[ids] == w[rule]
    requires job.setup.resource.PortForward? && job.setup.explicitSync
    requires d[ids].call == ReadListing(node) && d[rule].call == ReadObject(node, job.request.uuid)
    requires IdsAre(job.setup, d[ids].answer, {job.request.uuid}) == Success(true)
    requires HashIs(job.setup, d[rule].answer, job.request.revision) == Success(true)
    ensures SiteOf(job, node) in w[ids]
    ensures HoldsOnly(job, w[ids][SiteOf(job, node)], job.request.uuid, job.request.revision)
  {
    hide IdsAre, HashIs, Listings.Honest;
    var s := job.setup;
    assert Happens(job, d[ids].call, d[ids].answer, w[ids], w[ids + 1]);
    assert Happens(job, d[rule].call, d[rule].answer, w[rule], w[rule + 1]);
    HashReadIsExact(s, d[rule].answer, job.request.revision);
    assert SiteOf(job, node) in w[ids];
    IdsReadIsExact(s, d[ids].answer, {job.request.uuid}, w[ids][SiteOf(job, node)].saved.Keys);
  }

  /** Before the main delete both nodes held exactly the requested rule, at the caller's revision. */
  lemma HeldBeforeDelete(job: Job, d: History, w: seq<Network>, j: nat)
    requires Unfolds(job, d, w) && Checked(job.setup, job.request, d, j) && j + 4 < |d|
    requires job.setup.resource.PortForward? && job.setup.explicitSync
    ensures forall node: Node ::
              && SiteOf(job, node) in w[j + 4]
              && HoldsOnly(job, w[j + 4][SiteOf(job, node)], job.request.uuid, job.request.revision)
  {
    hide IdsAre, HashIs, Happens, HoldsOnly;
    ReadsKeepTheNetwork(job, d, w, j, j + 4);
    ReadsKeepTheNetwork(job, d, w, j + 1, j + 4);
    ReadsKeepTheNetwork(job, d, w, j + 2, j + 4);
    ReadsKeepTheNetwork(job, d, w, j + 3, j + 4);
    ReadsOfNode(job, d, w, Local, j + 1, j);
    ReadsOfNode(job, d, w, Peer, j + 3, j + 2);
  }

  /** Before the peer delete the local node held no rule and the peer exactly the requested one. */
  lemma HeldBeforePeerDelete(job: Job, d: History, w: seq<Network>, i: nat)
    requires Legal(Execution(job.setup, job.request), d) && Unfolds(job, d, w) && i < |d|
    requires d[i].call.Post? && d[i].call.purpose == PeerDelete
    ensures SiteOf(job, Local) in w[i] && Empties(w[i][SiteOf(job, Local)])
    ensures SiteOf(job, Peer) in w[i]
    ensures HoldsOnly(job, w[i][SiteOf(job, Peer)], job.request.uuid, job.request.revision)
  {
    hide Legal, Execution, IdsAre, HashIs, PlanRead, Happens, HoldsOnly, Unfolds;
    PeerDeleteIsReconfirmed(job.setup, job.request, d, i);
    CleanupIsForDnat(job.setup, job.request, d, i);
    ReadsKeepTheNetwork(job, d, w, i - 4, i);
    ReadsKeepTheNetwork(job, d, w, i - 3, i);
    ReadsKeepTheNetwork(job, d, w, i - 2, i);
    UnfoldedLength(job, d, w);
    ReadsOfNode(job, d, w, Peer, i - 3, i - 2);
    LocalIsEmpty(job, d, w, i - 4);
  }

  lemma UnfoldedLength(job: Job, d: History, w: seq<Network>)
    requires Unfolds(job, d, w)
    ensures |w| == |d| + 1
  {
  }

  lemma LocalIsEmpty(job: Job, d: History, w: seq<Network>, k: nat)
    requires Unfolds(job, d, w) && k < |d| && job.setup.resource.PortForward?
    requires d[k].call == ReadListing(Local) && IdsAre(job.setup, d[k].answer, {}) == Success(true)
    ensures SiteOf(job, Local) in w[k] && Empties(w[k][SiteOf(job, Local)])
  {
    hide IdsAre, Listings.Honest;
    assert Happens(job, d[k].call, d[k].answer, w[k], w[k + 1]);
    assert d[k].answer.Rows? ==> SiteOf(job, Local) in w[k];
    var table := if SiteOf(job, Local) in w[k] then w[k][SiteOf(job, Local)].saved.Keys else {};
    IdsReadIsExact(job.setup, d[k].answer, {}, table);
  }

  /** The main delete of a run whose clean-up qualified leaves the local node without user rules. */
  lemma DeleteEmpties(job: Job, call: Call, answer: Answer, before: Network, after: Network)
    requires call.Post? && call.verb == Del && call.uuid == job.request.uuid && PostProblem(answer).None?
    requires Happens(job, call, answer, before, after)
    requires SiteOf(job, call.node) in before
    requires HoldsOnly(job, before[SiteOf(job, call.node)], job.request.uuid, job.request.revision)
    ensures SiteOf(job, call.node) in after && Empties(after[SiteOf(job, call.node)])
    ensures forall h :: h in before && h != SiteOf(job, call.node) ==> h in after && after[h] == before[h]
  {
  }

  ghost predicate BothEmpty(job: Job, n: Network) {
    SiteOf(job, Local) in n && SiteOf(job, Peer) in n && Empties(n[SiteOf(job, Local)]) && Empties(n[SiteOf(job, Peer)])
  }

  /** What can still be sent after a peer delete refills neither node. */
  lemma StaysEmpty(job: Job, d: History, w: seq<Network>, i: nat, k: nat)
    requires Legal(Execution(job.setup, job.request), d) && Unfolds(job, d, w) && i < k < |d|
    requires d[i].call.Post? && d[i].call.purpose == PeerDelete && BothEmpty(job, w[k])
    ensures BothEmpty(job, w[k + 1])
  {
    hide Execution, Legal, Consistent, Next, Observe;
    var s, q := job.setup, job.request;
    assert Happens(job, d[k].call, d[k].answer, w[k], w[k + 1]);
    PurposeAt(s, q, d, i);
    CleanupIsForDnat(s, q, d, i);
    if d[k].call.Post? {
      PurposeAt(s, q, d, k);
      OrderedAlong(s, q, d, i, k);
      assert d[k].call.verb.Apply? by {
        LaterPurposes(d[i].call, d[k].call, q);
      }
    }
  }

  lemma LaterPurposes(first: Call, later: Call, q: Request)
    requires first.Post? && later.Post? && first.purpose == PeerDelete
    requires PostShape(q, first) && PostShape(q, later)
    requires PurposePlace(later.purpose) > 17
    ensures later.verb.Apply?
  {
  }

  /**
   Last-DNAT clean-up without outside writers: when a peer delete was acknowledged, both nodes had held
   exactly the requested rule before the main delete, the local node none and the peer still exactly that
   rule right before it; from then on both stay without user rules, and no lockout row is ever lost.
   */
  lemma {:induction false} CleanupRemovesJustTheRule(job: Job, d: History, w: seq<Network>, i: nat, k: nat)
    returns (j: nat)
    requires Legal(Execution(job.setup, job.request), d) && Unfolds(job, d, w) && i < k <= |d|
    requires d[i].call.Post? && d[i].call.purpose == PeerDelete && PostProblem(d[i].answer).None?
    ensures j < i && d[j].call == Post(Local, Del, job.request.uuid, MainWrite)
    ensures forall node: Node ::
              && SiteOf(job, node) in w[j]
              && HoldsOnly(job, w[j][SiteOf(job, node)], job.request.uuid, job.request.revision)
    ensures SiteOf(job, Local) in w[i] && Empties(w[i][SiteOf(job, Local)])
    ensures SiteOf(job, Peer) in w[i] && HoldsOnly(job, w[i][SiteOf(job, Peer)], job.request.uuid, job.request.revision)
    ensures BothEmpty(job, w[k])
    ensures forall h :: h in w[0] && Generated(w[0][h]) ==> h in w[k] && w[k][h].lockouts == w[0][h].lockouts
    decreases k
  {
    hide Execution, Legal, Consistent, HoldsOnly, PlanRead, HashIs, IdsAre, Happens, PostProblem;
    var s, q := job.setup, job.request;
    var start := PeerDeleteIsQualified(s, q, d, i);
    CleanupIsForDnat(s, q, d, i);
    j := start + 4;
    HeldBeforeDelete(job, d, w, start);
    HeldBeforePeerDelete(job, d, w, i);
    DeleteEmpties(job, d[i].call, d[i].answer, w[i], w[i + 1]);
    if k == i + 1 {
      assert job.localHost != job.peerHost ==> w[i + 1][SiteOf(job, Local)] == w[i][SiteOf(job, Local)];
    } else {
      var again := CleanupRemovesJustTheRule(job, d, w, i, k - 1);
      StaysEmpty(job, d, w, i, k - 1);
    }
    CleanupNamesUuid(s, q, d, i);
    forall h | h in w[0] && Generated(w[0][h]) ensures h in w[k] && w[k][h].lockouts == w[0][h].lockouts {
      LockoutsStay(job, d, w, k, h);
    }
  }

  /** The rows that were read before a clean-up name the requested rule, so its name is a UUID. */
  lemma CleanupNamesUuid(s: Setup, q: Request, d: History, i: nat)
    requires Legal(Execution(s, q), d) && i < |d| && d[i].call.Post? && d[i].call.purpose == PeerDelete
    ensures NamesUuid(q)
  {
    hide Execution, Legal, HashIs, IdsAre, PlanRead, ValidUuid;
    PeerDeleteIsReconfirmed(s, q, d, i);
    ReadIdsAreUuids(s, d[i - 3].answer, {q.uuid});
  }

  lemma ReadIdsAreUuids(s: Setup, a: Answer, ids: set<string>)
    requires IdsAre(s, a, ids) == Success(true)
    ensures forall u :: u in ids ==> ValidUuid(Str(u)).Some?
  {
    hide ValidUuid;
    DnatIdsAreUuids(ListingRead(s, a).value);
  }

  lemma {:induction false} DnatIdsAreUuids(rows: seq<Json>)
    requires DnatIds(rows).Some?
    ensures forall u :: u in DnatIds(rows).value ==> ValidUuid(Str(u)).Some?
  {
    hide ValidUuid;
    if rows != [] {
      DnatIdsAreUuids(rows[1..]);
      UuidIsCanonical(rows[0]);
    }
  }

  lemma CleanupIsForDnat(s: Setup, q: Request, d: History, i: nat)
    requires Legal(Execution(s, q), d) && i < |d| && d[i].call.Post? && d[i].call.purpose == PeerDelete
    ensures s.resource.PortForward? && s.explicitSync
  {
    hide Move, Decode, HashIs, IdsAre, Expected, Execution, Legal, Reconfirmed;
    StepAt(s, q, d, i);
    PeerDeleteIsReconfirmed(s, q, d, i);
  }

}
