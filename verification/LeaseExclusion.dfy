/** Lease exclusion and the spacing of claims, and what heartbeats that outlive their attempt do to them. */
module LeaseExclusion {
  import opened Options
  import opened Certs
  import opened Operations
  import opened LeaseProtocol
  import opened LeaseInvariant
  import opened LeaseTheorems
  import Retry

  /** An attempt that has not written its outcome and whose own lease, as granted to it, still runs. */
  predicate HoldsLease(s: State, k: Key) {
    AtWork(s, k) && s.attempts[k].granted > s.clock
  }

  ghost predicate Exclusive(s: State) {
    forall k, l | HoldsLease(s, k) && HoldsLease(s, l) && k.op == l.op :: k == l
  }

  /** The stored lease outlasts the one granted to the current claim; superseded claims hold no lease. */
  ghost predicate LeaseCovers(s: State) {
    forall k | HoldsLease(s, k) && k.op in s.ops ::
      && s.attempts[k].copy.attemptCount == s.ops[k.op].attemptCount
      && (s.ops[k.op].status == Running ==>
            s.ops[k.op].leaseExpiresAt.Some? && s.ops[k.op].leaseExpiresAt.value >= s.attempts[k].granted)
  }

  ghost predicate Safe(s: State) {
    Inv(s) && Exclusive(s) && LeaseCovers(s)
  }

  /**
   * The condition on a late heartbeat, which its sender can check against its replica's present lease:
   * no attempt of the replica holds a lease on the operation, or the renewal does not shorten it.
   */
  predicate Harmless(s: State, k: Key, t: Time) {
    forall l | l in s.attempts && l.replica == k.replica && l.op == k.op && HoldsLease(s, l) ::
      t + LEASE >= s.attempts[l].granted
  }

  predicate HarmlessStep(s: State, step: Step) {
    step.Act? && step.action.LateHeartbeat? && Lands(s, step.k, step.action.t) ==>
      Harmless(s, step.k, step.action.t)
  }

  predicate HarmlessRun(s: State, steps: seq<Step>)
    decreases |steps|
  {
    steps == [] || (HarmlessStep(s, steps[0]) && HarmlessRun(Apply(s, steps[0]), steps[1..]))
  }

  /** A step that neither grants nor changes a lease. */
  ghost predicate LeasesKept(s: State, s': State) {
    && s.clock <= s'.clock
    && (forall k | AtWork(s', k) ::
          && AtWork(s, k) && s'.attempts[k].granted == s.attempts[k].granted
          && s'.attempts[k].copy == s.attempts[k].copy)
    && (forall k | AtWork(s', k) && k.op in s'.ops ::
          && k.op in s.ops && s'.ops[k.op].attemptCount == s.ops[k.op].attemptCount
          && (s'.ops[k.op].status == Running ==>
                s.ops[k.op].status == Running && s'.ops[k.op].leaseExpiresAt == s.ops[k.op].leaseExpiresAt))
  }

  lemma KeptMeansSafe(s: State, s': State)
    requires Safe(s) && Inv(s') && LeasesKept(s, s')
    ensures Safe(s')
  {
    forall k | HoldsLease(s', k)
      ensures HoldsLease(s, k)
    {
    }
  }

  lemma NoHolderAtClaim(s: State, k: Key, l: Key)
    requires Safe(s) && DoClaim(s, k) != s && l.op == k.op
    ensures !HoldsLease(s, l)
  {
  }

  lemma ClaimSafe(s: State, k: Key)
    requires Safe(s)
    ensures Exclusive(DoClaim(s, k)) && LeaseCovers(DoClaim(s, k))
  {
    hide Inv;
    var s' := DoClaim(s, k);
    if s' != s {
      forall l: Key | l.op == k.op
        ensures !HoldsLease(s, l)
      {
        NoHolderAtClaim(s, k, l);
      }
      assert forall l: Key | l != k :: HoldsLease(s', l) <==> HoldsLease(s, l);
    }
  }

  lemma OnlyMatchingHolds(s: State, k: Key, l: Key)
    requires Safe(s) && AtWork(s, k) && Matches(s, k) && l.op == k.op && l != k
    ensures !HoldsLease(s, l)
  {
  }

  lemma HeartbeatSafe(s: State, k: Key, t: Time)
    requires Safe(s)
    ensures Exclusive(DoHeartbeat(s, k, t)) && LeaseCovers(DoHeartbeat(s, k, t))
  {
    hide Inv;
    var s' := DoHeartbeat(s, k, t);
    if s' != s {
      MatchMeansCurrent(s, k);
      forall l: Key | l.op == k.op && l != k
        ensures !HoldsLease(s, l)
      {
        OnlyMatchingHolds(s, k, l);
      }
      assert forall l: Key | l != k :: HoldsLease(s', l) <==> HoldsLease(s, l);
    }
  }

  lemma OwnerHolds(s: State, k: Key, l: Key)
    requires Safe(s) && Matches(s, k) && HoldsLease(s, l) && l.op == k.op
    ensures l.replica == k.replica
  {
    assert AttemptOk(s.attempts[l], l, s.clock, Doc(s, l.op));
  }

  lemma LateHeartbeatSafe(s: State, k: Key, t: Time)
    requires Safe(s) && (Lands(s, k, t) ==> Harmless(s, k, t))
    ensures Exclusive(DoLateHeartbeat(s, k, t)) && LeaseCovers(DoLateHeartbeat(s, k, t))
  {
    hide Inv;
    var s' := DoLateHeartbeat(s, k, t);
    if Lands(s, k, t) {
      forall l: Key | l.op == k.op && HoldsLease(s, l)
        ensures l.replica == k.replica
      {
        OwnerHolds(s, k, l);
      }
    }
    assert forall l: Key :: HoldsLease(s', l) <==> HoldsLease(s, l);
  }

  lemma FailureKeepsLeases(s: State, k: Key, permanent: bool, summary: string, t1: Time, t2: Time, t3: Time,
                           jitter: nat)
    ensures LeasesKept(s, DoWriteFailure(s, k, permanent, summary, t1, t2, t3, jitter))
  {
  }

  lemma SuccessKeepsLeases(s: State, k: Key, t: Time)
    ensures LeasesKept(s, DoWriteSuccess(s, k, t))
  {
  }

  predicate OtherAction(action: Action) {
    && !action.ClaimLands? && !action.Heartbeat? && !action.LateHeartbeat?
    && !action.WriteFailure? && !action.WriteSuccess?
  }

  lemma OtherActionKeepsGrants(s: State, k: Key, action: Action)
    requires OtherAction(action)
    ensures var s' := ApplyAction(s, k, action);
            && s'.clock == s.clock
            && forall l | AtWork(s', l) ::
                 && AtWork(s, l) && s'.attempts[l].granted == s.attempts[l].granted
                 && s'.attempts[l].copy == s.attempts[l].copy
  {
    hide CertUpdate, SlotOf;
  }

  lemma OtherActionKeepsDocs(s: State, k: Key, action: Action)
    requires OtherAction(action)
    ensures var s' := ApplyAction(s, k, action);
            && s'.ops.Keys == s.ops.Keys
            && forall id | id in s.ops ::
                 && s'.ops[id].attemptCount == s.ops[id].attemptCount && s'.ops[id].status == s.ops[id].status
                 && s'.ops[id].leaseExpiresAt == s.ops[id].leaseExpiresAt
  {
    hide CertUpdate, SlotOf;
  }

  lemma OtherActionKeepsLeases(s: State, k: Key, action: Action)
    requires OtherAction(action)
    ensures LeasesKept(s, ApplyAction(s, k, action))
  {
    hide ApplyAction;
    OtherActionKeepsGrants(s, k, action);
    OtherActionKeepsDocs(s, k, action);
  }

  lemma OtherStepKeepsLeases(s: State, step: Step)
    requires !step.Act? && forall k | k in s.attempts :: k.op in s.history
    ensures LeasesKept(s, Apply(s, step))
  {
  }

  lemma ActionSafe(s: State, k: Key, action: Action)
    requires Safe(s) && HarmlessStep(s, Act(k, action))
    ensures Safe(ApplyAction(s, k, action))
  {
    hide Inv, LeasesKept, Exclusive, LeaseCovers, DoClaim, DoHeartbeat, DoLateHeartbeat, DoWriteFailure, DoWriteSuccess;
    ActionKeeps(s, k, action);
    match action
    case ClaimLands => ClaimSafe(s, k);
    case Heartbeat(t) => HeartbeatSafe(s, k, t);
    case LateHeartbeat(t) => LateHeartbeatSafe(s, k, t);
    case WriteSuccess(t) => SuccessKeepsLeases(s, k, t); KeptMeansSafe(s, ApplyAction(s, k, action));
    case WriteFailure(permanent, summary, t1, t2, t3, jitter) =>
      FailureKeepsLeases(s, k, permanent, summary, t1, t2, t3, jitter);
      KeptMeansSafe(s, ApplyAction(s, k, action));
    case _ => OtherActionKeepsLeases(s, k, action); KeptMeansSafe(s, ApplyAction(s, k, action));
  }

  lemma StepSafe(s: State, step: Step)
    requires Safe(s) && HarmlessStep(s, step)
    ensures Safe(Apply(s, step))
  {
    if step.Act? {
      hide Inv, LeasesKept, Exclusive, LeaseCovers, ApplyAction;
      ActionSafe(s, step.k, step.action);
    } else {
      hide Apply, Exclusive, LeaseCovers, LeasesKept;
      StepKeeps(s, step);
      OtherStepKeepsLeases(s, step);
      KeptMeansSafe(s, Apply(s, step));
    }
  }

  /** Two replicas never hold a lease on one operation at the same time, in any run with harmless late heartbeats. */
  lemma {:induction false} LeaseExclusion(s: State, steps: seq<Step>)
    requires Safe(s) && HarmlessRun(s, steps)
    ensures Safe(Exec(s, steps))
    decreases |steps|
  {
    if steps != [] {
      StepSafe(s, steps[0]);
      LeaseExclusion(Apply(s, steps[0]), steps[1..]);
    }
  }

  lemma InitSafe()
    ensures Safe(Init)
  {
  }

  /** In particular no two attempts that both hold a lease on an operation are ever different. */
  lemma OneHolderPerOperation(steps: seq<Step>, k: Key, l: Key)
    requires HarmlessRun(Init, steps)
    requires var s := Exec(Init, steps); HoldsLease(s, k) && HoldsLease(s, l) && k.op == l.op
    ensures k == l
  {
    InitSafe();
    LeaseExclusion(Init, steps);
  }

  lemma {:induction false} NoLateMeansHarmless(s: State, steps: seq<Step>)
    requires NoLateHeartbeat(steps)
    ensures HarmlessRun(s, steps)
    decreases |steps|
  {
    if steps != [] {
      NoLateMeansHarmless(Apply(s, steps[0]), steps[1..]);
    }
  }

  /** Shortening a lease that still runs lets another replica take the operation over within it. */
  lemma ShortenedLeaseIsTakenOver(s: State, k: Key) returns (more: seq<Step>)
    requires Inv(s) && HoldsLease(s, k) && k.op in s.ops
    requires s.ops[k.op].status == Running && s.ops[k.op].leaseExpiresAt.Some?
    requires s.ops[k.op].leaseExpiresAt.value < s.attempts[k].granted
    ensures NoLateHeartbeat(more) && !Exclusive(Exec(s, more))
  {
    hide Inv;
    var b := Key(if k.replica == "b" then "c" else "b", k.op, 0);
    var expiry := s.ops[k.op].leaseExpiresAt.value;
    var now := if s.clock < expiry then expiry else s.clock;
    var s': State;
    more, s' := Then(s, [], s, Crash(b.replica));
    more, s' := Then(s, more, s', Tick(now));
    assert s' == DoCrash(s, b.replica).(clock := now) && k in s'.attempts && !Busy(s', b.replica, b.op);
    StepKeeps(s, Crash(b.replica));
    StepKeeps(Apply(s, Crash(b.replica)), Tick(now));
    hide Apply, Busy;
    more, s' := ClaimNow(s, more, s', b);
    assert HoldsLease(s', b) && HoldsLease(s', k);
  }

  /**
   * Exactly when a landing late heartbeat is safe: the two-holder situation stays unreachable (by any
   * continuation whose own late heartbeats are harmless) if and only if the heartbeat is harmless.
   */
  lemma HarmlessExactly(steps: seq<Step>, k: Key, t: Time)
    requires HarmlessRun(Init, steps) && Lands(Exec(Init, steps), k, t)
    ensures var s := Exec(Init, steps);
            var s' := DoLateHeartbeat(s, k, t);
            Harmless(s, k, t) <==> forall more | HarmlessRun(s', more) :: Exclusive(Exec(s', more))
  {
    hide Inv, Exclusive, LeaseCovers;
    var s := Exec(Init, steps);
    var s' := DoLateHeartbeat(s, k, t);
    InitSafe();
    LeaseExclusion(Init, steps);
    ActionKeeps(s, k, Action.LateHeartbeat(t));
    if Harmless(s, k, t) {
      ActionSafe(s, k, Action.LateHeartbeat(t));
      forall more | HarmlessRun(s', more)
        ensures Exclusive(Exec(s', more))
      {
        LeaseExclusion(s', more);
      }
    } else {
      var l :| l in s.attempts && l.replica == k.replica && l.op == k.op && HoldsLease(s, l)
               && t + LEASE < s.attempts[l].granted;
      assert HoldsLease(s', l) && s'.ops[l.op].leaseExpiresAt == Some(t + LEASE);
      var more := ShortenedLeaseIsTakenOver(s', l);
      NoLateMeansHarmless(s', more);
    }
  }
}
