/**
 Any number of writers of one process on the same pair of hosts. The host-pair lock serialises them through
 the final read, comparison and write, so no update or delete overwrites a change its caller has not seen.
 */
module Concurrency {
  import opened Wrappers
  import opened JsonTrees
  import opened Histories
  import opened Protocol
  import opened WriteGuarantees
  import opened NodeOutcomes
  import opened Nodes
  import Canonical
  import Text

  // ---- The lock -------------------------------------------------------------

  /** `tuple(sorted((local_key, peer_key)))`; the peer key is empty without a peer. */
  function LockKey(local: string, peer: string): (string, string) {
    if Text.Le(local, peer) then (local, peer) else (peer, local)
  }

  /** Two writers share a lock exactly when they write to the same unordered pair of hosts. */
  lemma LockKeyIffSamePair(a: string, b: string, c: string, d: string)
    ensures LockKey(a, b) == LockKey(c, d) <==> (a == c && b == d) || (a == d && b == c)
  {
    if (a, b) == (d, c) && Text.Le(a, b) && Text.Le(b, a) {
      Text.LeAntisymmetric(a, b);
    }
    Text.LeTotal(a, b);
  }

  /** `_WRITE_LOCKS`: one lock per key, made on first use and kept. */
  class WriteLocks {
    var locks: map<(string, string), nat>

    constructor ()
      ensures Valid() && locks == map[]
    {
      locks := map[];
    }

    ghost predicate Valid()
      reads this
    {
      && (forall k :: k in locks ==> locks[k] < |locks|)
      && (forall k, l :: k in locks && l in locks && locks[k] == locks[l] ==> k == l)
    }

    /** `_WRITE_LOCKS.setdefault(lock_key, Lock())`. */
    method LockFor(local: string, peer: string) returns (lock: nat)
      requires Valid()
      modifies this
      ensures Valid()
      ensures LockKey(local, peer) in locks && locks[LockKey(local, peer)] == lock
      ensures forall k :: k in old(locks) ==> k in locks && locks[k] == old(locks)[k]
      ensures forall k :: k in locks ==> k in old(locks) || k == LockKey(local, peer)
    {
      var key := LockKey(local, peer);
      if key !in locks {
        assert |locks[key := |locks|]| == |locks| + 1;
        locks := locks[key := |locks|];
      }
      return locks[key];
    }

    /** Two writers wait for each other exactly when they write to the same unordered pair of hosts. */
    lemma SharedIffSamePair(a: string, b: string, c: string, d: string)
      requires Valid() && LockKey(a, b) in locks && LockKey(c, d) in locks
      ensures locks[LockKey(a, b)] == locks[LockKey(c, d)] <==> (a == c && b == d) || (a == d && b == c)
    {
      LockKeyIffSamePair(a, b, c, d);
    }
  }

  function KeyOf(job: Job): (string, string) {
    LockKey(job.localHost, if job.setup.hasPeer then job.peerHost else "")
  }

  /** All writers share one lock. */
  ghost predicate SameLock(jobs: seq<Job>) {
    forall v, w :: 0 <= v < w < |jobs| ==> KeyOf(jobs[v]) == KeyOf(jobs[w])
  }

  // ---- The system -----------------------------------------------------------

  /** `holder` is the writer inside the lock. */
  datatype System = System(network: Network, holder: Option<nat>, runs: seq<Run>)

  datatype Step = Acquire(w: nat) | Advance(w: nat, call: Call, answer: Answer) | Release(w: nat)

  ghost predicate Initial(jobs: seq<Job>, x: System) {
    x.holder.None? && |x.runs| == |jobs| && forall w :: 0 <= w < |jobs| ==> x.runs[w] == Start(jobs[w].request)
  }

  /** A writer takes the free lock once, makes its calls while it holds it, and then gives it back. */
  ghost predicate Steps(jobs: seq<Job>, x: System, step: Step, y: System) {
    && step.w < |x.runs| == |jobs|
    && var job, run := jobs[step.w], x.runs[step.w];
       match step
       case Acquire(w) => x.holder.None? && run.pc.Begin? && y == x.(holder := Some(w))
       case Release(w) => x.holder == Some(w) && run.pc.Finished? && y == x.(holder := None)
       case Advance(w, call, answer) =>
         && x.holder == Some(w)
         && Next(job.setup, job.request, run) == Some(call) && Fits(call, answer)
         && Happens(job, call, answer, x.network, y.network)
         && y == System(y.network, x.holder, x.runs[w := Observe(job.setup, job.request, run, answer)])
  }

  /** A run of the system: states `x[0..]` joined by steps. */
  ghost predicate Runs(jobs: seq<Job>, x: seq<System>, steps: seq<Step>) {
    && SameLock(jobs)
    && |x| == |steps| + 1
    && Initial(jobs, x[0])
    && forall t :: 0 <= t < |steps| ==> Steps(jobs, x[t], steps[t], x[t + 1])
  }

  // ---- What every state keeps -----------------------------------------------

  /** Past its first row and not yet finished. */
  predicate Working(m: Run) {
    !m.pc.Begin? && !m.pc.Finished?
  }

  /** Between the comparison with the caller's revision and the write. */
  predicate Compared(m: Run) {
    m.pc.LocalIds? || m.pc.PeerObject? || m.pc.PeerIds? || m.pc.Write?
  }

  /** The stored object has a given revision. */
  ghost predicate Stands(job: Job, n: Network, uuid: string, revision: string) {
    && SiteOf(job, Local) in n
    && var detail := StoredDetail(job.setup, n[SiteOf(job, Local)], uuid);
       detail.Some? && Hash(job.setup, detail.value) == revision
  }

  ghost predicate WriterKeeps(job: Job, n: Network, m: Run, holds: bool) {
    && Consistent(job.setup, job.request, m)
    && (Working(m) ==> holds)
    && (!job.request.action.Create? && Compared(m) ==> Stands(job, n, job.request.uuid, job.request.revision))
  }

  ghost predicate Keeps(jobs: seq<Job>, x: System) {
    && |x.runs| == |jobs|
    && forall w :: 0 <= w < |jobs| ==> WriterKeeps(jobs[w], x.network, x.runs[w], x.holder == Some(w))
  }

  /** From the write on, no step leads back before it. */
  lemma NeverComparedAgain(s: Setup, q: Request, m: Run, a: Answer)
    requires Consistent(s, q, m) && !m.pc.Finished? && Place(m.pc) >= 6
    ensures !Compared(Observe(s, q, m, a))
  {
    hide Observe, Consistent;
    ObserveStep(s, q, m, a);
  }

  /** The states before the write are entered by reads that agreed with the caller. */
  lemma ComparedStep(s: Setup, q: Request, m: Run, a: Answer)
    requires Consistent(s, q, m) && !m.pc.Finished? && !q.action.Create? && Compared(Observe(s, q, m, a))
    ensures Next(s, q, m).Some? && !Next(s, q, m).value.Post?
    ensures (Next(s, q, m).value.ReadObject? || Next(s, q, m).value.ReadListing?) && Next(s, q, m).value.node.Peer? ==>
              s.explicitSync
    ensures Compared(m) || (m.pc.ReadCurrent? && Next(s, q, m) == Some(ReadObject(Local, q.uuid))
                            && HashIs(s, a, q.revision) == Success(true))
  {
    hide Expected, HashIs, IdsAre, VerifyRead, PlanRead, PostProblem, ValidUuid;
    hide WriteMove, SyncMove, CleanMove, UndoMove, CloseMove;
    if Place(m.pc) >= 6 {
      NeverComparedAgain(s, q, m, a);
    }
  }

  lemma AdvanceKeeps(job: Job, call: Call, answer: Answer, m: Run, before: Network, after: Network)
    requires WriterKeeps(job, before, m, true) && !m.pc.Finished?
    requires Next(job.setup, job.request, m) == Some(call) && Happens(job, call, answer, before, after)
    ensures WriterKeeps(job, after, Observe(job.setup, job.request, m, answer), true)
  {
    hide Observe, Consistent, HashIs, Next, Listings.Honest;
    var s, q := job.setup, job.request;
    ObserveStep(s, q, m, answer);
    if !q.action.Create? && Compared(Observe(s, q, m, answer)) {
      ComparedStep(s, q, m, answer);
      if !Compared(m) {
        HashReadIsExact(s, answer, q.revision);
      }
    }
  }

  /** A writer outside the lock is before its first row or done, so nothing is required of it. */
  lemma OthersKeep(job: Job, before: Network, after: Network, m: Run)
    requires WriterKeeps(job, before, m, false)
    ensures WriterKeeps(job, after, m, false)
  {
    hide Consistent, Stands;
  }

  lemma StepKeeps(jobs: seq<Job>, x: System, step: Step, y: System)
    requires Keeps(jobs, x) && Steps(jobs, x, step, y)
    ensures Keeps(jobs, y)
  {
    hide WriterKeeps, Observe, Next, Happens;
    forall w | 0 <= w < |jobs| ensures WriterKeeps(jobs[w], y.network, y.runs[w], y.holder == Some(w)) {
      assert WriterKeeps(jobs[w], x.network, x.runs[w], x.holder == Some(w));
      if step.Advance? && w == step.w {
        DueMeansUnfinished(jobs[w].setup, jobs[w].request, x.runs[w]);
        AdvanceKeeps(jobs[w], step.call, step.answer, x.runs[w], x.network, y.network);
      } else if step.Advance? {
        OthersKeep(jobs[w], x.network, y.network, x.runs[w]);
      } else {
        LockChangeKeeps(jobs[w], x.network, x.runs[w], x.holder == Some(w), y.holder == Some(w));
      }
    }
  }

  lemma LockChangeKeeps(job: Job, n: Network, m: Run, before: bool, after: bool)
    requires WriterKeeps(job, n, m, before)
    requires before && !after ==> m.pc.Finished?
    ensures WriterKeeps(job, n, m, after)
  {
    hide Consistent, Stands;
  }

  lemma {:induction false} AlwaysKeeps(jobs: seq<Job>, x: seq<System>, steps: seq<Step>, t: nat)
    requires Runs(jobs, x, steps) && t <= |steps|
    ensures Keeps(jobs, x[t])
  {
    hide Steps, Consistent;
    if t == 0 {
      forall w | 0 <= w < |jobs| ensures WriterKeeps(jobs[w], x[0].network, x[0].runs[w], x[0].holder == Some(w)) {
        StartIsConsistent(jobs[w].setup, jobs[w].request);
      }
    } else {
      AlwaysKeeps(jobs, x, steps, t - 1);
      assert Steps(jobs, x[t - 1], steps[t - 1], x[t - 1 + 1]);
      StepKeeps(jobs, x[t - 1], steps[t - 1], x[t]);
    }
  }

  // ---- Main results ---------------------------------------------------------

  /** At most one writer is between its first and its last row. */
  lemma MutualExclusion(jobs: seq<Job>, x: seq<System>, steps: seq<Step>, t: nat, v: nat, w: nat)
    requires Runs(jobs, x, steps) && t <= |steps| && v < |jobs| && w < |jobs|
    ensures |x[t].runs| == |jobs|
    ensures Working(x[t].runs[v]) && Working(x[t].runs[w]) ==> v == w
  {
    AlwaysKeeps(jobs, x, steps, t);
  }

  /** Step `t` sends the main POST of an update or delete. */
  ghost predicate Overwrites(jobs: seq<Job>, steps: seq<Step>, t: nat) {
    && t < |steps| && steps[t].Advance? && steps[t].w < |jobs|
    && steps[t].call.Post? && steps[t].call.purpose == MainWrite
    && !jobs[steps[t].w].request.action.Create?
  }

  /**
   No lost update: in every interleaving, an update or delete is sent in a state whose object has the
   revision that the caller named.
   */
  lemma NoLostUpdate(jobs: seq<Job>, x: seq<System>, steps: seq<Step>, t: nat)
    requires Runs(jobs, x, steps) && Overwrites(jobs, steps, t)
    ensures var job := jobs[steps[t].w];
            && steps[t].call.uuid == job.request.uuid
            && Stands(job, x[t].network, job.request.uuid, job.request.revision)
  {
    AlwaysKeeps(jobs, x, steps, t);
    hide Consistent, Happens, Stands, Observe;
    assert Steps(jobs, x[t], steps[t], x[t + 1]);
    var job, run := jobs[steps[t].w], x[t].runs[steps[t].w];
    assert WriterKeeps(job, x[t].network, run, x[t].holder == Some(steps[t].w));
    PostPlace(job.setup, job.request, run, steps[t].call);
  }

  /** With a collision-free digest, what is overwritten is the very object that the caller had loaded. */
  lemma OverwritesWhatWasSeen(jobs: seq<Job>, x: seq<System>, steps: seq<Step>, t: nat, seen: Json)
    requires Runs(jobs, x, steps) && Overwrites(jobs, steps, t)
    requires var job := jobs[steps[t].w];
             && Canonical.CollisionFree(job.setup.digest) && Distinct(seen)
             && Hash(job.setup, seen) == job.request.revision
    ensures var job := jobs[steps[t].w];
            && Stands(job, x[t].network, job.request.uuid, job.request.revision)
            && var stored := StoredDetail(job.setup, x[t].network[SiteOf(job, Local)], job.request.uuid).value;
               (Distinct(stored) ==> Equal(stored, seen))
  {
    NoLostUpdate(jobs, x, steps, t);
    var job := jobs[steps[t].w];
    var stored := StoredDetail(job.setup, x[t].network[SiteOf(job, Local)], job.request.uuid).value;
    if Distinct(stored) {
      Canonical.RevisionIdentifies(stored, seen, job.setup.digest);
    }
  }

  /** A change back to a state: the last step of any that lead from outside a property into it. */
  lemma {:induction false} Returns(jobs: seq<Job>, x: seq<System>, first: nat, last: nat, job: Job, uuid: string,
      revision: string)
    returns (r: nat)
    requires first <= last < |x|
    requires !Stands(job, x[first].network, uuid, revision) && Stands(job, x[last].network, uuid, revision)
    ensures first <= r < last
    ensures !Stands(job, x[r].network, uuid, revision) && Stands(job, x[r + 1].network, uuid, revision)
    decreases last
  {
    hide Stands;
    if Stands(job, x[last - 1].network, uuid, revision) {
      r := Returns(jobs, x, first, last - 1, job, uuid, revision);
    } else {
      r := last - 1;
    }
  }

  /** The call may bring objects of the job's own table about: an add or set there, or a synchronisation of its host. */
  predicate MayRestore(sender: Job, call: Call, job: Job) {
    || (Synchronises(sender, call) && sender.peerHost == job.localHost)
    || (call.Post? && call.verb in {Add, Set} && SiteOf(sender, call.node) == SiteOf(job, Local))
  }

  /** Nothing else can bring a revision about. */
  lemma WhatRestores(sender: Job, call: Call, answer: Answer, before: Network, after: Network, job: Job,
      uuid: string, revision: string)
    requires Happens(sender, call, answer, before, after)
    requires !Stands(job, before, uuid, revision) && Stands(job, after, uuid, revision)
    ensures MayRestore(sender, call, job)
  {
    hide Listings.Honest, Adds, Detail, Hash;
  }

  /**
   Two holders of one revision of an object cannot both overwrite it: once the first has changed the
   object's hash, the second overwrites only if a create, update or synchronisation in between restored that revision.
   */
  lemma SecondHolderIsRefused(jobs: seq<Job>, x: seq<System>, steps: seq<Step>, t: nat, u: nat) returns (r: nat)
    requires Runs(jobs, x, steps) && t < u && Overwrites(jobs, steps, t) && Overwrites(jobs, steps, u)
    requires var one, second := jobs[steps[t].w], jobs[steps[u].w];
             && one.localHost == second.localHost && one.setup.resource == second.setup.resource
             && one.request.uuid == second.request.uuid && one.request.revision == second.request.revision
             && !Stands(second, x[t + 1].network, one.request.uuid, one.request.revision)
    ensures t < r < u && steps[r].Advance? && steps[r].w < |jobs|
    ensures MayRestore(jobs[steps[r].w], steps[r].call, jobs[steps[u].w])
    ensures var second := jobs[steps[u].w];
            && !Stands(second, x[r].network, second.request.uuid, second.request.revision)
            && Stands(second, x[r + 1].network, second.request.uuid, second.request.revision)
  {
    hide Stands, Observe, Happens;
    var second := jobs[steps[u].w];
    NoLostUpdate(jobs, x, steps, u);
    r := Returns(jobs, x, t + 1, u, second, second.request.uuid, second.request.revision);
    assert Steps(jobs, x[r], steps[r], x[r + 1]);
    if steps[r].Advance? {
      WhatRestores(jobs[steps[r].w], steps[r].call, steps[r].answer, x[r].network, x[r + 1].network,
                   second, second.request.uuid, second.request.revision);
    }
  }

  // ---- A chain of overwrites --------------------------------------------------

  predicate Present(n: Network, site: Site, uuid: string) {
    site in n && uuid in n[site].saved
  }

  /** The step neither sets nor deletes the object, nor synchronises its host. */
  predicate Spares(jobs: seq<Job>, step: Step, site: Site, uuid: string) {
    step.Advance? && step.w < |jobs| ==>
      && (Synchronises(jobs[step.w], step.call) ==> jobs[step.w].peerHost != site.host)
      && (step.call.Post? && step.call.verb in {Set, Del} && SiteOf(jobs[step.w], step.call.node) == site ==>
            step.call.uuid != uuid)
  }

  /** The step sends an add to the table. */
  predicate SendsAdd(jobs: seq<Job>, step: Step, site: Site) {
    && step.Advance? && step.w < |jobs| && step.call.Post? && step.call.verb.Add?
    && SiteOf(jobs[step.w], step.call.node) == site
  }

  /** Such a step leaves a present object alone; only an add can bring about an absent one. */
  lemma SparedStep(jobs: seq<Job>, x: System, step: Step, y: System, site: Site, uuid: string)
    requires Steps(jobs, x, step, y) && Spares(jobs, step, site, uuid)
    ensures Present(x.network, site, uuid) ==>
              Present(y.network, site, uuid) && y.network[site].saved[uuid] == x.network[site].saved[uuid]
    ensures !Present(x.network, site, uuid) && Present(y.network, site, uuid) ==> SendsAdd(jobs, step, site)
  {
    hide Observe, Next, Listings.Honest, PostProblem, ValidUuid, Detail;
  }

  /** An object that is present and then spared stays the same. */
  lemma {:induction false} SparedStays(jobs: seq<Job>, x: seq<System>, steps: seq<Step>, first: nat, last: nat,
      site: Site, uuid: string)
    requires Runs(jobs, x, steps) && first <= last <= |steps| && Present(x[first].network, site, uuid)
    requires forall k :: first <= k < last ==> Spares(jobs, steps[k], site, uuid)
    ensures Present(x[last].network, site, uuid)
    ensures x[last].network[site].saved[uuid] == x[first].network[site].saved[uuid]
    decreases last
  {
    hide Steps, Spares, Initial, SameLock;
    if first < last {
      SparedStays(jobs, x, steps, first, last - 1, site, uuid);
      assert Steps(jobs, x[last - 1], steps[last - 1], x[last - 1 + 1]);
      SparedStep(jobs, x[last - 1], steps[last - 1], x[last], site, uuid);
    }
  }

  /** An object that is absent and then spared but present later was added in between. */
  lemma {:induction false} SparedReturns(jobs: seq<Job>, x: seq<System>, steps: seq<Step>, first: nat, last: nat,
      site: Site, uuid: string)
    returns (r: nat)
    requires Runs(jobs, x, steps) && first <= last <= |steps|
    requires !Present(x[first].network, site, uuid) && Present(x[last].network, site, uuid)
    requires forall k :: first <= k < last ==> Spares(jobs, steps[k], site, uuid)
    ensures first <= r < last && SendsAdd(jobs, steps[r], site)
    ensures !Present(x[r].network, site, uuid) && Present(x[r + 1].network, site, uuid)
    decreases last
  {
    hide Steps, Spares, Initial, SameLock, SendsAdd;
    if Present(x[last - 1].network, site, uuid) {
      r := SparedReturns(jobs, x, steps, first, last - 1, site, uuid);
    } else {
      r := last - 1;
      assert Steps(jobs, x[r], steps[r], x[r + 1]);
      SparedStep(jobs, x[r], steps[r], x[r + 1], site, uuid);
    }
  }

  /** An update of an object that is there leaves one there. */
  lemma UpdateKeepsPresent(jobs: seq<Job>, x: seq<System>, steps: seq<Step>, t: nat)
    requires Runs(jobs, x, steps) && Overwrites(jobs, steps, t) && jobs[steps[t].w].request.action.Update?
    ensures var job := jobs[steps[t].w]; Present(x[t + 1].network, SiteOf(job, Local), job.request.uuid)
  {
    hide Observe, Next, Consistent, Listings.Honest, PostProblem, Stands, Initial, SameLock;
    NoLostUpdate(jobs, x, steps, t);
    var job := jobs[steps[t].w];
    StandsIsPresent(job, x[t].network, job.request.uuid, job.request.revision);
    OverwriteShape(jobs, x, steps, t);
  }

  lemma StandsIsPresent(job: Job, n: Network, uuid: string, revision: string)
    requires Stands(job, n, uuid, revision)
    ensures Present(n, SiteOf(job, Local), uuid)
  {
  }

  /** The step that overwrites, and its POST. */
  lemma OverwriteShape(jobs: seq<Job>, x: seq<System>, steps: seq<Step>, t: nat)
    requires Runs(jobs, x, steps) && Overwrites(jobs, steps, t)
    ensures Steps(jobs, x[t], steps[t], x[t + 1])
    ensures var job := jobs[steps[t].w];
            steps[t].call == Post(Local, MainVerb(job.request.action), job.request.uuid, MainWrite)
  {
    AlwaysKeeps(jobs, x, steps, t);
    hide Consistent, Happens, Observe, Stands;
    assert Steps(jobs, x[t], steps[t], x[t + 1]);
    var job, run := jobs[steps[t].w], x[t].runs[steps[t].w];
    assert WriterKeeps(job, x[t].network, run, x[t].holder == Some(steps[t].w));
    PostPlace(job.setup, job.request, run, steps[t].call);
  }

  /**
   Overwrites form a chain: where no other update or delete of the object and no synchronisation of its host came in
   between, the revision that the next writer names is the hash of what an update left. After a delete that took
   effect there is a next overwrite only of an object that was added anew in between, at step `r`.
   */
  lemma OverwritesFormAChain(jobs: seq<Job>, x: seq<System>, steps: seq<Step>, t: nat, u: nat) returns (r: nat)
    requires Runs(jobs, x, steps) && t < u && Overwrites(jobs, steps, t) && Overwrites(jobs, steps, u)
    requires var one, next := jobs[steps[t].w], jobs[steps[u].w];
             SiteOf(one, Local) == SiteOf(next, Local) && one.request.uuid == next.request.uuid
    requires forall k :: t < k < u ==>
               Spares(jobs, steps[k], SiteOf(jobs[steps[u].w], Local), jobs[steps[u].w].request.uuid)
    ensures var next := jobs[steps[u].w];
            || Stands(next, x[t + 1].network, next.request.uuid, next.request.revision)
            || (jobs[steps[t].w].request.action.Delete? && t < r < u && SendsAdd(jobs, steps[r], SiteOf(next, Local))
                && !Present(x[r].network, SiteOf(next, Local), next.request.uuid)
                && Present(x[r + 1].network, SiteOf(next, Local), next.request.uuid))
  {
    hide Initial, SameLock, Spares, Steps, Hash;
    NoLostUpdate(jobs, x, steps, u);
    var next := jobs[steps[u].w];
    var site, uuid := SiteOf(next, Local), next.request.uuid;
    r := 0;
    if Present(x[t + 1].network, site, uuid) {
      SparedStays(jobs, x, steps, t + 1, u, site, uuid);
    } else {
      r := SparedReturns(jobs, x, steps, t + 1, u, site, uuid);
      if jobs[steps[t].w].request.action.Update? {
        UpdateKeepsPresent(jobs, x, steps, t);
      }
    }
  }

  // ---- Every writer's own run -------------------------------------------------

  /** The calls of writer `w` among the first `t` steps. */
  function Own(steps: seq<Step>, t: nat, w: nat): History
    requires t <= |steps|
  {
    if t == 0 then []
    else match steps[t - 1]
         case Advance(v, call, answer) => Own(steps, t - 1, w) + if v == w then [Event(call, answer)] else []
         case _ => Own(steps, t - 1, w)
  }

  /** The network before the first call of writer `w` and after each of them. */
  ghost function Seen(x: seq<System>, steps: seq<Step>, t: nat, w: nat): seq<Network>
    requires t <= |steps| && |x| == |steps| + 1
  {
    if t == 0 || Own(steps, t, w) == [] then [x[t].network]
    else if steps[t - 1].Advance? && steps[t - 1].w == w then Seen(x, steps, t - 1, w) + [x[t].network]
    else Seen(x, steps, t - 1, w)
  }

  /** The writer's calls form a run of the protocol, over networks that nobody else changed meanwhile. */
  ghost predicate RunsAlone(job: Job, x: System, d: History, n: seq<Network>, w: nat) {
    && w < |x.runs| && Legal(Execution(job.setup, job.request), d)
    && Replay(Execution(job.setup, job.request), d) == x.runs[w]
    && Unfolds(job, d, n) && (x.holder == Some(w) || d == [] ==> n[|n| - 1] == x.network)
    && (d == [] <==> x.runs[w].pc.Begin?)
  }

  lemma OwnStep(job: Job, x: System, step: Step, y: System, jobs: seq<Job>, d: History, n: seq<Network>)
    requires step.Advance? && step.w < |jobs| && jobs[step.w] == job && Steps(jobs, x, step, y)
    requires RunsAlone(job, x, d, n, step.w)
    requires Consistent(job.setup, job.request, x.runs[step.w])
    ensures RunsAlone(job, y, d + [Event(step.call, step.answer)], n + [y.network], step.w)
  {
    hide Observe, Next, Consistent, Happens;
    var e, m := Event(step.call, step.answer), Execution(job.setup, job.request);
    Extend(m, d, e);
    DueMeansUnfinished(job.setup, job.request, x.runs[step.w]);
    MovesPastBegin(job.setup, job.request, x.runs[step.w], step.answer);
    var longer, nets := d + [e], n + [y.network];
    forall k | 0 <= k < |longer| ensures Happens(job, longer[k].call, longer[k].answer, nets[k], nets[k + 1]) {
      if k < |d| {
        assert Happens(job, d[k].call, d[k].answer, n[k], n[k + 1]);
      }
    }
  }

  lemma MovesPastBegin(s: Setup, q: Request, m: Run, a: Answer)
    requires Consistent(s, q, m) && !m.pc.Finished?
    ensures !Observe(s, q, m, a).pc.Begin?
  {
    hide Observe, Consistent;
    ObserveStep(s, q, m, a);
  }

  lemma AlwaysConsistentWriter(jobs: seq<Job>, x: seq<System>, steps: seq<Step>, t: nat, w: nat)
    requires Runs(jobs, x, steps) && t <= |steps| && w < |jobs|
    ensures |x[t].runs| == |jobs| && Consistent(jobs[w].setup, jobs[w].request, x[t].runs[w])
  {
    hide Consistent, Stands, Steps, Initial, SameLock;
    AlwaysKeeps(jobs, x, steps, t);
    assert WriterKeeps(jobs[w], x[t].network, x[t].runs[w], x[t].holder == Some(w));
  }

  /** What the own calls and networks are after one more step. */
  lemma OwnGrows(x: seq<System>, steps: seq<Step>, t: nat, w: nat)
    requires 0 < t <= |steps| && |x| == |steps| + 1
    ensures var step, own := steps[t - 1], Own(steps, t - 1, w);
            if step.Advance? && step.w == w
            then Own(steps, t, w) == own + [Event(step.call, step.answer)]
                 && Seen(x, steps, t, w) == Seen(x, steps, t - 1, w) + [x[t].network]
            else Own(steps, t, w) == own
                 && Seen(x, steps, t, w) == if own == [] then [x[t].network] else Seen(x, steps, t - 1, w)
  {
    assert Own(steps, t - 1, w) + [] == Own(steps, t - 1, w);
  }

  /** A step of someone else, or of the lock. */
  lemma OtherStep(jobs: seq<Job>, x: System, step: Step, y: System, d: History, n: seq<Network>, w: nat)
    requires Steps(jobs, x, step, y) && w < |jobs| && RunsAlone(jobs[w], x, d, n, w)
    requires !(step.Advance? && step.w == w)
    ensures RunsAlone(jobs[w], y, d, if d == [] then [y.network] else n, w)
  {
    hide Observe, Next, Happens, Execution, Legal;
  }

  lemma StartsAlone(jobs: seq<Job>, x: System, w: nat)
    requires Initial(jobs, x) && w < |jobs|
    ensures RunsAlone(jobs[w], x, [], [x.network], w)
  {
    hide Observe, Next, Happens;
  }

  /** A step of the system keeps a writer's calls a run of its own. */
  lemma StepStaysAlone(jobs: seq<Job>, x: System, step: Step, y: System, d: History, n: seq<Network>, w: nat)
    requires Steps(jobs, x, step, y) && w < |jobs| && RunsAlone(jobs[w], x, d, n, w)
    requires |x.runs| == |jobs| && Consistent(jobs[w].setup, jobs[w].request, x.runs[w])
    ensures if step.Advance? && step.w == w
            then RunsAlone(jobs[w], y, d + [Event(step.call, step.answer)], n + [y.network], w)
            else RunsAlone(jobs[w], y, d, if d == [] then [y.network] else n, w)
  {
    hide RunsAlone, Steps, Consistent;
    if step.Advance? && step.w == w {
      OwnStep(jobs[w], x, step, y, jobs, d, n);
    } else {
      OtherStep(jobs, x, step, y, d, n, w);
    }
  }

  /**
   In every interleaving each writer's calls are a run of the protocol over a network that only its own calls
   change, so all that holds of single runs without outside writers holds of concurrent ones.
   */
  lemma {:induction false} ConcurrentRunsAreRuns(jobs: seq<Job>, x: seq<System>, steps: seq<Step>, t: nat, w: nat)
    requires Runs(jobs, x, steps) && t <= |steps| && w < |jobs|
    ensures RunsAlone(jobs[w], x[t], Own(steps, t, w), Seen(x, steps, t, w), w)
  {
    hide RunsAlone, Consistent, Initial, SameLock;
    if t == 0 {
      StartsAlone(jobs, x[0], w);
    } else {
      hide Steps, Own, Seen;
      ConcurrentRunsAreRuns(jobs, x, steps, t - 1, w);
      AlwaysConsistentWriter(jobs, x, steps, t - 1, w);
      OwnGrows(x, steps, t, w);
      var before, step, after := x[t - 1], steps[t - 1], x[t - 1 + 1];
      StepStaysAlone(jobs, before, step, after, Own(steps, t - 1, w), Seen(x, steps, t - 1, w), w);
    }
  }

  /** Whatever other writers do, an acknowledged peer delete was of just the requested last rule. */
  lemma ConcurrentCleanup(jobs: seq<Job>, x: seq<System>, steps: seq<Step>, t: nat, w: nat, i: nat) returns (j: nat)
    requires Runs(jobs, x, steps) && t <= |steps| && w < |jobs| && i < |Own(steps, t, w)|
    requires var e := Own(steps, t, w)[i]; e.call.Post? && e.call.purpose == PeerDelete && PostProblem(e.answer).None?
    ensures |Seen(x, steps, t, w)| == |Own(steps, t, w)| + 1 && j < i
    ensures var n, q := Seen(x, steps, t, w), jobs[w].request;
            && (forall node: Node ::
                  && SiteOf(jobs[w], node) in n[j]
                  && HoldsOnly(jobs[w], n[j][SiteOf(jobs[w], node)], q.uuid, q.revision))
            && BothEmpty(jobs[w], n[|n| - 1])
  {
    hide Happens, HoldsOnly, PostProblem, Consistent, Observe, Next, BothEmpty;
    ConcurrentRunsAreRuns(jobs, x, steps, t, w);
    var d, n := Own(steps, t, w), Seen(x, steps, t, w);
    j := CleanupRemovesJustTheRule(jobs[w], d, n, i, |d|);
  }

  /** Reported success is real in every interleaving, as long as the writer still holds the lock. */
  lemma ConcurrentSuccessIsReal(jobs: seq<Job>, x: seq<System>, steps: seq<Step>, t: nat, w: nat)
    requires Runs(jobs, x, steps) && t <= |steps| && w < |jobs| && x[t].holder == Some(w)
    requires w < |x[t].runs| && x[t].runs[w].pc.Finished? && x[t].runs[w].report.ok
    requires jobs[w].setup.hasPeer ==> jobs[w].localHost != jobs[w].peerHost
    ensures var job, uuid, n := jobs[w], x[t].runs[w].uuid, x[t].network;
            && SiteOf(job, Local) in n
            && Holds(job.setup, n[SiteOf(job, Local)], uuid, Expected(job.setup, job.request))
            && n[SiteOf(job, Local)].applied == n[SiteOf(job, Local)].saved
            && (job.setup.hasPeer ==>
                  && SiteOf(job, Peer) in n
                  && Holds(job.setup, n[SiteOf(job, Peer)], uuid, Expected(job.setup, job.request)))
  {
    hide Happens, Holds, Consistent, Observe, Next, Expected, Legal;
    ConcurrentRunsAreRuns(jobs, x, steps, t, w);
    var d, n := Own(steps, t, w), Seen(x, steps, t, w);
    DueMeansUnfinished(jobs[w].setup, jobs[w].request, x[t].runs[w]);
    SuccessIsReal(jobs[w], d, n);
  }

  /** In every interleaving of admitted requests the generated lockout rows of every node stay. */
  lemma {:induction false} LockoutsAlwaysStay(jobs: seq<Job>, x: seq<System>, steps: seq<Step>, t: nat, site: Site)
    requires Runs(jobs, x, steps) && t <= |steps| && forall w :: 0 <= w < |jobs| ==> NamesUuid(jobs[w].request)
    requires site in x[0].network && Generated(x[0].network[site])
    ensures site in x[t].network && x[t].network[site].lockouts == x[0].network[site].lockouts
  {
    hide Happens, Observe, Next, NamesUuid, Initial, SameLock;
    if t > 0 {
      LockoutsAlwaysStay(jobs, x, steps, t - 1, site);
      var before, step, after := x[t - 1], steps[t - 1], x[t];
      assert Steps(jobs, before, step, x[t - 1 + 1]);
      if step.Advance? {
        ConcurrentRunsAreRuns(jobs, x, steps, t - 1, step.w);
        var d, e := Own(steps, t - 1, step.w), Event(step.call, step.answer);
        Extend(Execution(jobs[step.w].setup, jobs[step.w].request), d, e);
        assert (d + [e])[|d|] == e;
        CallKeepsLockouts(jobs[step.w], d + [e], |d|, before.network, after.network, site);
      }
    }
  }

}
