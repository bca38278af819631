/** What a reported success means for the two firewalls, if they answer honestly and nobody else writes. */
module NodeOutcomes {
  import opened Wrappers
  import opened JsonTrees
  import opened OptionTrees
  import opened Histories
  import opened Protocol
  import opened WriteGuarantees
  import opened WriteEvidence
  import opened Nodes
  import Listings
  import Matching
  import Text
  import WriteCauses
  import WriteOutcomes
  import WriterMoves

  /** A node stores an object that matches what is expected, or none where absence is. */
  ghost predicate Holds(s: Setup, c: Config, uuid: string, expected: Option<Fields>) {
    match expected
    case None => Text.Lower(uuid) !in c.saved
    case Some(want) =>
      && uuid in c.saved && Detail(s, c.saved[uuid]).Some?
      && var detail := Detail(s, c.saved[uuid]).value;
         Selected(detail).Obj? && Matching.Matches(detail, want, s.show)
  }

  /** An honest read that verified shows what the node holds. */
  lemma SeenIsHeld(job: Job, node: Node, uuid: string, e: Event<Call, Answer>, before: Network, after: Network)
    requires Happens(job, e.call, e.answer, before, after)
    requires e.call == VerifyCall(node, uuid, Expected(job.setup, job.request))
    requires VerifyRead(job.setup, uuid, Expected(job.setup, job.request), e.answer) == Success(true)
    ensures SiteOf(job, node) in after
    ensures Holds(job.setup, after[SiteOf(job, node)], uuid, Expected(job.setup, job.request))
  {
    hide Expected, Listings.Honest, Matching.Matches, Listings.LacksRow;
    if Expected(job.setup, job.request).None? {
      var table := after[SiteOf(job, node)].saved.Keys;
      Listings.CompleteListing(job.setup.resource.PortForward?, e.answer.listing, table, uuid);
    }
  }

  // ---- The last read ----------------------------------------------------------

  /** A step that closes with success is a verifying read. */
  ghost predicate ClosesWithRead(s: Setup, m: Run, g: Signal, n: Run) {
    n.pc.Close? && n.report.ok ==>
      && g.Good? && !m.undoing && n.uuid == m.uuid
      && if s.hasPeer then m.pc.SyncRead? || m.pc.CleanReadPeer? else m.pc.Readback?
  }

  lemma WriteCloses(s: Setup, q: Request, m: Run, g: Signal)
    requires Consistent(s, q, m) && Place(m.pc) <= 8
    ensures ClosesWithRead(s, m, g, Move(s, q, m, g))
  {
    hide Expected, SyncMove, CleanMove, UndoMove, CloseMove;
  }

  lemma SyncCloses(s: Setup, q: Request, m: Run, g: Signal)
    requires Consistent(s, q, m) && 9 <= Place(m.pc) <= 20
    ensures ClosesWithRead(s, m, g, Move(s, q, m, g))
  {
    hide Expected, OpeningMove, WriteMove, UndoMove, CloseMove;
  }

  lemma UndoCloses(s: Setup, q: Request, m: Run, g: Signal)
    requires Consistent(s, q, m) && 21 <= Place(m.pc) && !m.pc.Finished?
    ensures ClosesWithRead(s, m, g, Move(s, q, m, g))
  {
    hide Expected, OpeningMove, WriteMove, SyncMove, CleanMove;
  }

  /** Only a verifying read closes a run with success. */
  lemma OkMeansSeen(s: Setup, q: Request, m: Run, g: Signal)
    requires Consistent(s, q, m) && !m.pc.Finished?
    ensures ClosesWithRead(s, m, g, Move(s, q, m, g))
  {
    hide Consistent, ClosesWithRead, Move;
    if Place(m.pc) <= 8 {
      WriteCloses(s, q, m, g);
    } else if Place(m.pc) <= 20 {
      SyncCloses(s, q, m, g);
    } else {
      UndoCloses(s, q, m, g);
    }
  }

  /** The call before the final row of a success is the read that showed the peer or, without one, the local node. */
  lemma LastReadShows(s: Setup, q: Request, d: History)
    requires Complete(Execution(s, q), d) && Replay(Execution(s, q), d).report.ok
    ensures |d| > 1 && d[|d| - 1].call.Append?
    ensures Is(s, q, Replay(Execution(s, q), d).uuid, if s.hasPeer then PeerSeen else LocalSeen, d[|d| - 2])
  {
    hide Is, Move, Decode, Consistent, Plausible, WriteCauses.SingleOrigin, WriteCauses.RevisionOrigin, Next;
    WriteOutcomes.OutcomeIsInTheLog(s, q, d);
    var k := |d| - 1;
    assert d[..k + 1] == d;
    WriteCauses.StepAt(s, q, d, k);
    var closing := WriteCauses.StateAt(s, q, d, k);
    DueMeansUnfinished(s, q, Replay(Execution(s, q), d));
    WriterMoves.AfterClose(s, q, closing, d[k].answer);
    WriteCauses.StepAt(s, q, d, k - 1);
    var m := WriteCauses.StateAt(s, q, d, k - 1);
    DueMeansUnfinished(s, q, m);
    OkMeansSeen(s, q, m, Decode(s, q, m, d[k - 1].answer));
    SignalIsEvidence(s, q, m, d[k - 1].answer);
  }

  // ---- Nothing changes the local node after the apply ---------------------------

  /** The final state of a success was never undoing. */
  lemma NeverUndoing(s: Setup, q: Request, d: History, i: nat)
    requires Legal(Execution(s, q), d) && Replay(Execution(s, q), d).report.ok && i < |d|
    ensures Place(WriteCauses.StateAt(s, q, d, i).pc) !in {21, 22, 23}
  {
    hide Execution, Legal;
    assert d[..|d|] == d;
    AlwaysConsistent(s, q, d);
    OrderedAlong(s, q, d, i, |d|);
    LegalPrefix(Execution(s, q), d, i);
    AlwaysConsistent(s, q, d[..i]);
  }

  /** The host that a POST changes; a synchronisation push changes the peer. */
  function Touched(job: Job, call: Call): string
    requires call.Post?
  {
    if call.verb.Restart? || call.node.Peer? then job.peerHost else job.localHost
  }

  /** What a success sends after its apply goes to the peer. */
  lemma LaterPostsGoToThePeer(job: Job, d: History, i: nat, k: nat)
    requires Legal(Execution(job.setup, job.request), d) && Replay(Execution(job.setup, job.request), d).report.ok
    requires i < k < |d| && d[i].call == Post(Local, Apply, "", MainApply) && d[k].call.Post?
    ensures job.setup.hasPeer && Touched(job, d[k].call) == job.peerHost
  {
    hide Execution, Legal, Next, Observe;
    var s, q := job.setup, job.request;
    NeverUndoing(s, q, d, k);
    OrderedAlong(s, q, d, i, k);
    PurposeAt(s, q, d, i);
    PurposeAt(s, q, d, k);
    LegalPrefix(Execution(s, q), d, k);
    AlwaysConsistent(s, q, d[..k]);
  }

  /** A node that no call edits or synchronises keeps its tables. */
  lemma {:induction false} UntouchedStays(job: Job, d: History, w: seq<Network>, i: nat, k: nat, site: Site)
    requires Unfolds(job, d, w) && i <= k <= |d| && site in w[i]
    requires forall j :: i <= j < k && d[j].call.Post? ==> Touched(job, d[j].call) != site.host
    requires job.setup.hasPeer ==> job.peerHost != site.host
    ensures site in w[k] && w[k][site] == w[i][site]
    decreases k
  {
    hide Edits, PostProblem, Listings.Honest, StoredDetail, Detail;
    if i < k {
      UntouchedStays(job, d, w, i, k - 1, site);
      assert Happens(job, d[k - 1].call, d[k - 1].answer, w[k - 1], w[k - 1 + 1]);
    }
  }

  /** An acknowledged apply has loaded what the local node stores. */
  lemma ApplyLoads(job: Job, e: Event<Call, Answer>, before: Network, after: Network)
    requires e.call == Post(Local, Apply, "", MainApply) && PostProblem(e.answer).None?
    requires Happens(job, e.call, e.answer, before, after)
    ensures SiteOf(job, Local) in after && after[SiteOf(job, Local)].applied == after[SiteOf(job, Local)].saved
  {
    hide PostProblem;
  }

  // ---- Main result --------------------------------------------------------------

  /**
   Success is real: without outside writers, a run over honest nodes that reports `ok` ends with the local node
   storing a match of the requested object (or lacking it after a delete) and having loaded what it stores, and
   with a peer that stores or lacks it, too.
   */
  lemma SuccessIsReal(job: Job, d: History, w: seq<Network>)
    requires Complete(Execution(job.setup, job.request), d) && Unfolds(job, d, w)
    requires Replay(Execution(job.setup, job.request), d).report.ok
    requires job.setup.hasPeer ==> job.localHost != job.peerHost
    ensures var s, uuid, n := job.setup, Replay(Execution(job.setup, job.request), d).uuid, w[|d|];
            && SiteOf(job, Local) in n && Holds(s, n[SiteOf(job, Local)], uuid, Expected(s, job.request))
            && n[SiteOf(job, Local)].applied == n[SiteOf(job, Local)].saved
            && (s.hasPeer ==> SiteOf(job, Peer) in n && Holds(s, n[SiteOf(job, Peer)], uuid, Expected(s, job.request)))
  {
    hide Execution, Holds, Happens, Expected, VerifyRead, VerifyCall, PostProblem, Touched, Legal;
    var s, q := job.setup, job.request;
    var uuid := Replay(Execution(s, q), d).uuid;
    var at := HonestSuccess(s, q, d);
    var apply, seen := at[2], at[3];
    assert Is(s, q, uuid, MainChain(s)[2], d[apply]) && Is(s, q, uuid, MainChain(s)[3], d[seen]);
    assert Happens(job, d[apply].call, d[apply].answer, w[apply], w[apply + 1]);
    assert Happens(job, d[seen].call, d[seen].answer, w[seen], w[seen + 1]);
    ApplyLoads(job, d[apply], w[apply], w[apply + 1]);
    forall k | apply < k < |d| && d[k].call.Post? ensures s.hasPeer && Touched(job, d[k].call) == job.peerHost {
      LaterPostsGoToThePeer(job, d, apply, k);
    }
    UntouchedStays(job, d, w, apply + 1, seen + 1, SiteOf(job, Local));
    UntouchedStays(job, d, w, apply + 1, |d|, SiteOf(job, Local));
    SeenIsHeld(job, Local, uuid, d[seen], w[seen], w[seen + 1]);
    if s.hasPeer {
      PeerAtTheEnd(job, d, w);
    }
  }

  lemma PeerAtTheEnd(job: Job, d: History, w: seq<Network>)
    requires Complete(Execution(job.setup, job.request), d) && Unfolds(job, d, w)
    requires Replay(Execution(job.setup, job.request), d).report.ok && job.setup.hasPeer
    ensures var s, uuid, n := job.setup, Replay(Execution(job.setup, job.request), d).uuid, w[|d|];
            SiteOf(job, Peer) in n && Holds(s, n[SiteOf(job, Peer)], uuid, Expected(s, job.request))
  {
    hide Execution, Holds, Happens, Expected, VerifyRead, PostProblem, Legal;
    var s, q, k := job.setup, job.request, |d| - 2;
    LastReadShows(s, q, d);
    assert Happens(job, d[k].call, d[k].answer, w[k], w[k + 1]);
    SeenIsHeld(job, Peer, Replay(Execution(s, q), d).uuid, d[k], w[k], w[k + 1]);
    ReadsKeepTheNetwork(job, d, w, k + 1, |d|);
  }

}
