/** A delivery held by its topic's circuit breaker: how long it is tried again, and how it ends. */
module Hold {
  import opened Basics

  const HOLD_POLL_MS := 1000

  /**
   * One attempt through the breaker, as the environment decides it: whether
   * the handler was entered, how it ended, when, and whether a stop or a
   * revocation came before the wait that follows, or during it.
   */
  datatype Attempt = Attempt(entered: bool, failed: bool, circuit: bool, now: int, releasedBefore: bool, releasedAfter: bool)

  datatype Ending = Returned | Threw | Released | Expired(heldMs: int)

  type Attempts = nat -> Attempt

  function Min(a: int, b: int): int { if a < b then a else b }

  /** The instant a hold ends at the latest: the breaker's own limit, or the delivery's, whichever comes first. */
  function Deadline(holdMs: Option<nat>, startedAt: int, receivedAt: int, maxProcessingMs: nat): int {
    var tolerated := receivedAt + maxProcessingMs;
    if holdMs.None? then tolerated else Min(startedAt + holdMs.value, tolerated)
  }

  /** A hold ends by the delivery's limit, by the breaker's where it has one, and no sooner than the earlier of the two. */
  lemma DeadlineExactly(holdMs: Option<nat>, startedAt: int, receivedAt: int, maxProcessingMs: nat, t: int)
    ensures t < Deadline(holdMs, startedAt, receivedAt, maxProcessingMs)
       <==> t - receivedAt < maxProcessingMs && (holdMs.Some? ==> t - startedAt < holdMs.value)
  {
  }

  /** Rejected without a run, with time left, and nobody taking the delivery away: tried again after the wait. */
  predicate Holds(a: Attempt, deadline: int) {
    a.failed && !a.entered && a.circuit && !a.releasedBefore && a.now < deadline && !a.releasedAfter
  }

  function Wait(a: Attempt, deadline: int): int { Min(deadline - a.now, HOLD_POLL_MS) }

  predicate HeldAt(env: Attempts, i: nat, deadline: int) { Holds(env(i), deadline) }

  /** The clock moves at least as far as a wait that was not cut short. */
  ghost predicate Timely(env: Attempts, deadline: int) {
    forall i: nat :: HeldAt(env, i, deadline) ==> env(i + 1).now >= env(i).now + Wait(env(i), deadline)
  }

  /** How the attempt that is not held again ends it: exactly one of the four. */
  predicate Ends(a: Attempt, deadline: int, since: int, e: Ending) {
    match e
    case Returned => !a.failed
    case Threw => a.failed && (a.entered || !a.circuit)
    case Released => a.failed && !a.entered && a.circuit && (a.releasedBefore || (a.now < deadline && a.releasedAfter))
    case Expired(heldMs) => a.failed && !a.entered && a.circuit && !a.releasedBefore && a.now >= deadline && heldMs == a.now - since
  }

  /**
   * `guarded`. All attempts but the last were held, so the handler ran at
   * most once, in the last; no wait reaches past either limit; and it ends.
   */
  method Guarded(env: Attempts, holdMs: Option<nat>, startedAt: int, receivedAt: int, maxProcessingMs: nat)
    returns (ending: Ending, last: nat)
    requires Timely(env, Deadline(holdMs, startedAt, receivedAt, maxProcessingMs))
    ensures var deadline := Deadline(holdMs, startedAt, receivedAt, maxProcessingMs);
            && (forall i: nat :: i < last ==> HeldAt(env, i, deadline) && env(i).now + Wait(env(i), deadline) <= deadline)
            && !Holds(env(last), deadline) && Ends(env(last), deadline, env(0).now, ending)
    ensures forall i: nat :: i < last ==>
              && env(i).now + Wait(env(i), Deadline(holdMs, startedAt, receivedAt, maxProcessingMs)) <= receivedAt + maxProcessingMs
              && (holdMs.Some? ==> env(i).now + Wait(env(i), Deadline(holdMs, startedAt, receivedAt, maxProcessingMs)) <= startedAt + holdMs.value)
    ensures ending.Expired? ==>
              env(last).now - receivedAt >= maxProcessingMs || (holdMs.Some? && env(last).now - startedAt >= holdMs.value)
  {
    var deadline := Deadline(holdMs, startedAt, receivedAt, maxProcessingMs);
    var heldSince: Option<int> := None;
    last := 0;
    while true
      invariant forall i: nat :: i < last ==> HeldAt(env, i, deadline)
      invariant last > 0 ==> heldSince == Some(env(0).now) && env(last).now > env(last - 1).now
      invariant last == 0 ==> heldSince == None
      decreases if last == 0 then 1 else 0, if last > 0 && env(last - 1).now < deadline then deadline - env(last - 1).now else 0
    {
      var a := env(last);
      if !a.failed { return Returned, last; }
      if a.entered || !a.circuit { return Threw, last; }
      if heldSince.None? { heldSince := Some(a.now); }
      if a.releasedBefore { return Released, last; }
      if a.now >= deadline { return Expired(a.now - heldSince.value), last; }
      if a.releasedAfter { return Released, last; }
      assert HeldAt(env, last, deadline);
      last := last + 1;
    }
  }

  /** The four endings exclude each other, and an attempt that is not held again has one. */
  lemma OneEnding(a: Attempt, deadline: int, since: int, e: Ending, f: Ending)
    ensures Ends(a, deadline, since, e) && Ends(a, deadline, since, f) ==> e == f
    ensures !Holds(a, deadline) ==> exists x :: Ends(a, deadline, since, x)
    ensures Ends(a, deadline, since, e) ==> !Holds(a, deadline)
  {
    assert Ends(a, deadline, since, Returned) || Ends(a, deadline, since, Threw) || Ends(a, deadline, since, Released)
        || Ends(a, deadline, since, Expired(a.now - since)) || Holds(a, deadline);
  }

  function Runs(env: Attempts, n: nat): nat { if n == 0 then 0 else Runs(env, n - 1) + (if env(n - 1).entered then 1 else 0) }

  /** The handler runs at most once. */
  lemma {:induction false} RunsOnce(env: Attempts, deadline: int, n: nat, last: nat)
    requires n <= last + 1 && forall i: nat :: i < last ==> HeldAt(env, i, deadline)
    ensures Runs(env, n) <= 1 && (n <= last ==> Runs(env, n) == 0)
  {
    if n > 0 {
      RunsOnce(env, deadline, n - 1, last);
      assert n <= last ==> HeldAt(env, n - 1, deadline);
    }
  }

  /** How long it can take: every wait uses up its poll interval, but for the last, which ends at the deadline. */
  lemma {:induction false} HeldNoLonger(env: Attempts, deadline: int, last: nat)
    requires Timely(env, deadline) && forall i: nat :: i < last ==> HeldAt(env, i, deadline)
    requires last > 0
    ensures env(last - 1).now >= env(0).now + (last - 1) * HOLD_POLL_MS && env(last - 1).now < deadline
    ensures (last - 1) * HOLD_POLL_MS < deadline - env(0).now
  {
    assert HeldAt(env, last - 1, deadline);
    if last > 1 {
      HeldNoLonger(env, deadline, last - 1);
      assert HeldAt(env, last - 2, deadline);
    }
  }
}
