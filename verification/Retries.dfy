/** The bounded retry loops: repeated peer reads with linear backoff, and HTTP requests with exponential backoff. */
module Retries {
  import opened Wrappers

  // ---- Waiting --------------------------------------------------------------

  /** Backoffs waited before the `k`-th attempt: one after the first, two after the second, and so on. */
  function Waiting(k: nat): nat {
    if k <= 1 then 0 else Waiting(k - 1) + (k - 1)
  }

  lemma {:induction false} WaitingClosedForm(k: nat)
    ensures 2 * Waiting(k) == if k == 0 then 0 else k * (k - 1)
  {
    if k > 1 {
      WaitingClosedForm(k - 1);
      assert (k - 1) * (k - 2) + 2 * (k - 1) == k * (k - 1);
    }
  }

  lemma {:induction false} WaitingGrows(j: nat, k: nat)
    requires j <= k
    ensures Waiting(j) <= Waiting(k)
  {
    if j < k {
      WaitingGrows(j, k - 1);
    }
  }

  /** Within the writer's bounds of ten attempts and two seconds, waiting never exceeds 90 seconds. */
  lemma WaitingIsBounded(k: nat, backoff: real)
    requires k <= 10 && 0.0 <= backoff <= 2.0
    ensures backoff * Waiting(k) as real <= 90.0
  {
    WaitingGrows(k, 10);
    WaitingClosedForm(10);
    var w := Waiting(k) as real;
    assert w <= 45.0;
    assert backoff * w <= 2.0 * w;
  }

  // ---- Repeated peer reads --------------------------------------------------

  /** `k` is the first of the attempts `1..max` that succeeds. */
  ghost predicate IsLeast(good: nat -> bool, max: int, k: int) {
    1 <= k <= max && good(k) && forall j :: 1 <= j < k ==> !good(j)
  }

  ghost predicate NoneGood(good: nat -> bool, max: int) {
    forall j :: 1 <= j <= max ==> !good(j)
  }

  /** `waits` counts backoffs; `attempts` is what the source reports. */
  datatype SyncResult = SyncResult(triggered: bool, verified: bool, attempts: int, waits: nat)

  /** The outcome of a bounded loop: the least successful attempt, or the bound. */
  ghost predicate Bounded(good: nat -> bool, max: int, r: SyncResult) {
    && (r.verified ==> IsLeast(good, max, r.attempts))
    && (!r.verified ==> r.attempts == max && NoneGood(good, max))
    && r.waits == if r.attempts <= 1 then 0 else Waiting(r.attempts)
  }

  /** One read of the peer's listing: it raises, or tells whether the row is there. */
  datatype ItemRead = Raised | Listed(present: bool)

  /** `verify_item`: `answers(k)` is what the peer answers on attempt `k`. */
  method VerifyItem(hasPeer: bool, synced: bool, answers: nat -> ItemRead, expected: bool, max: int)
    returns (r: SyncResult)
    ensures !hasPeer ==> r == SyncResult(false, true, 1, 0)
    ensures hasPeer && !synced ==> r == SyncResult(false, false, 1, 0)
    ensures hasPeer && synced ==> r.triggered && Bounded((k: nat) => answers(k) == Listed(expected), max, r)
  {
    if !hasPeer {
      return SyncResult(false, true, 1, 0);
    }
    if !synced {
      return SyncResult(false, false, 1, 0);
    }
    var waits := 0;
    var attempt := 1;
    while attempt <= max
      invariant 1 <= attempt && (attempt == 1 ==> waits == 0) && (attempt <= max ==> waits == Waiting(attempt))
      invariant attempt == max + 1 && attempt > 1 ==> waits == Waiting(max)
      invariant attempt > max ==> attempt == max + 1 || attempt == 1
      invariant forall j :: 1 <= j < attempt ==> answers(j) != Listed(expected)
    {
      var read := answers(attempt);
      if read.Raised? {
        if attempt < max {
          waits := waits + attempt;
          attempt := attempt + 1;
          continue;
        }
        return SyncResult(true, false, attempt, waits);
      }
      if read.present == expected {
        return SyncResult(true, true, attempt, waits);
      }
      if attempt < max {
        waits := waits + attempt;
      }
      attempt := attempt + 1;
    }
    return SyncResult(true, false, max, waits);
  }

  /** A fingerprint, or None where reading raises. */
  type Fingerprint = Option<string>

  /** `verify_robust`: the peer's listing is compared with the local one by fingerprint. */
  method VerifyRobust(hasPeer: bool, synced: bool, local: string, answers: nat -> Fingerprint,
      max: int) returns (r: SyncResult, peer: string)
    ensures !hasPeer ==> r == SyncResult(false, true, 1, 0) && peer == local
    ensures hasPeer && !synced ==> r == SyncResult(false, false, 1, 0)
    ensures hasPeer && synced ==> r.triggered && Bounded((k: nat) => answers(k) == Some(local), max, r)
    ensures hasPeer && r.verified ==> peer == local
  {
    peer := "";
    if !hasPeer {
      return SyncResult(false, true, 1, 0), local;
    }
    if !synced {
      return SyncResult(false, false, 1, 0), peer;
    }
    var waits := 0;
    var attempt := 1;
    while attempt <= max
      invariant 1 <= attempt && (attempt == 1 ==> waits == 0) && (attempt <= max ==> waits == Waiting(attempt))
      invariant attempt == max + 1 && attempt > 1 ==> waits == Waiting(max)
      invariant attempt > max ==> attempt == max + 1 || attempt == 1
      invariant forall j :: 1 <= j < attempt ==> answers(j) != Some(local)
    {
      var read := answers(attempt);
      if read.None? {
        if attempt < max {
          waits := waits + attempt;
          attempt := attempt + 1;
          continue;
        }
        return SyncResult(true, false, attempt, waits), peer;
      }
      peer := read.value;
      if peer == local {
        return SyncResult(true, true, attempt, waits), peer;
      }
      if attempt < max {
        waits := waits + attempt;
      }
      attempt := attempt + 1;
    }
    return SyncResult(true, false, max, waits), peer;
  }

  /** `verify_revision`: on every attempt both revisions are read; "" stands for a failed read. */
  method VerifyRevision(hasPeer: bool, trigger: bool, synced: bool, answers: nat -> (string, string),
      max: int) returns (r: SyncResult)
    ensures !hasPeer ==> r == SyncResult(false, true, 1, 0)
    ensures hasPeer && trigger && !synced ==> r == SyncResult(false, false, 1, 0)
    ensures hasPeer && (trigger ==> synced) ==>
              r.triggered == trigger && Bounded((k: nat) => answers(k).0 != "" && answers(k).0 == answers(k).1, max, r)
  {
    if !hasPeer {
      return SyncResult(false, true, 1, 0);
    }
    if trigger && !synced {
      return SyncResult(false, false, 1, 0);
    }
    var waits := 0;
    var attempt := 1;
    while attempt <= max
      invariant 1 <= attempt && (attempt == 1 ==> waits == 0) && (attempt <= max ==> waits == Waiting(attempt))
      invariant attempt == max + 1 && attempt > 1 ==> waits == Waiting(max)
      invariant attempt > max ==> attempt == max + 1 || attempt == 1
      invariant forall j :: 1 <= j < attempt ==> !(answers(j).0 != "" && answers(j).0 == answers(j).1)
    {
      var (local, peer) := answers(attempt);
      if local != "" && local == peer {
        return SyncResult(trigger, true, attempt, waits);
      }
      if attempt < max {
        waits := waits + attempt;
      }
      attempt := attempt + 1;
    }
    return SyncResult(trigger, false, max, waits);
  }

  /** A bounded loop verifies exactly if one of the allowed attempts succeeds. */
  lemma VerifiedIffSomeGood(good: nat -> bool, max: int, r: SyncResult)
    requires Bounded(good, max, r)
    ensures r.verified <==> exists k :: 1 <= k <= max && good(k)
  {
    if k :| 1 <= k <= max && good(k) {
      assert r.verified;
    }
  }

  // ---- HTTP requests --------------------------------------------------------

  /** A transport failure, or a status with a decoded body (None where it is not JSON). */
  datatype Response = Unreachable | Response(status: int, json: Option<string>)

  datatype Outcome = Body(json: string) | TimedOut | Denied | HttpError(status: int) | NotJson | Exhausted

  /** `attempts`, the retried statuses and the delays (in any unit) of a client. */
  datatype Policy = Policy(attempts: int, statuses: set<int>, baseDelay: nat, maxDelay: nat)

  function Power(n: nat): nat {
    if n == 0 then 1 else 2 * Power(n - 1)
  }

  /** `_sleep_backoff`. */
  function Delay(p: Policy, attempt: nat): nat {
    var delay := p.baseDelay * Power(attempt);
    if delay < p.maxDelay then delay else p.maxDelay
  }

  /** Responses after which a retrying request goes on. */
  predicate Transient(p: Policy, r: Response) {
    r.Unreachable? || (r.status in p.statuses && r.status !in {401, 403})
  }

  /** What a response means when there is no further attempt. */
  function Final(r: Response): Outcome {
    match r
    case Unreachable => TimedOut
    case Response(status, json) =>
      if status in {401, 403} then Denied
      else if status >= 400 then HttpError(status)
      else match json case Some(body) => Body(body) case None => NotJson
  }

  function Attempts(p: Policy, retry: bool): int {
    if retry then p.attempts else 1
  }

  /** Delays before request number `n`, counted from 0. */
  function Delays(p: Policy, n: nat): nat {
    if n == 0 then 0 else Delays(p, n - 1) + Delay(p, n - 1)
  }

  lemma {:induction false} DelaysAreBounded(p: Policy, n: nat)
    ensures Delays(p, n) <= n * p.maxDelay
  {
    if n > 0 {
      DelaysAreBounded(p, n - 1);
      assert n * p.maxDelay == (n - 1) * p.maxDelay + p.maxDelay;
    }
  }

  /**
   `_request`: what ends the loop is the first response that is not transient, or the last one allowed. A
   request without retry is sent exactly once, and the loop is left without a verdict exactly if retrying
   is allowed no attempt at all.
   */
  method Request(p: Policy, retry: bool, responses: nat -> Response) returns (r: Outcome, sent: nat, waited: nat)
    ensures !retry ==> sent == 1
    ensures r == Exhausted <==> retry && p.attempts <= 0
    ensures r != Exhausted ==> 1 <= sent <= Attempts(p, retry) && r == Final(responses(sent - 1))
    ensures r != Exhausted ==> forall i :: 0 <= i < sent - 1 ==> Transient(p, responses(i))
    ensures r != Exhausted && sent < Attempts(p, retry) ==> !Transient(p, responses(sent - 1))
    ensures waited == Delays(p, if sent == 0 then 0 else sent - 1)
  {
    var attempts := Attempts(p, retry);
    var i: nat := 0;
    waited := 0;
    while i < attempts
      invariant waited == Delays(p, i) && (i > 0 ==> i < attempts)
      invariant forall j :: 0 <= j < i ==> Transient(p, responses(j))
    {
      var response := responses(i);
      if response.Unreachable? {
        if i == attempts - 1 {
          return TimedOut, i + 1, waited;
        }
        waited := waited + Delay(p, i);
        i := i + 1;
        continue;
      }
      if response.status in {401, 403} {
        return Denied, i + 1, waited;
      }
      if response.status in p.statuses && retry && i < attempts - 1 {
        waited := waited + Delay(p, i);
        i := i + 1;
        continue;
      }
      if response.status >= 400 {
        return HttpError(response.status), i + 1, waited;
      }
      if response.json.None? {
        return NotJson, i + 1, waited;
      }
      return Body(response.json.value), i + 1, waited;
    }
    return Exhausted, 0, waited;
  }

}
