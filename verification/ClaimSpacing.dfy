/** Successive claims of one operation are a lease apart, so an operation has few claims before its deadline. */
module ClaimSpacing {
  import opened Options
  import opened Certs
  import opened Operations
  import opened LeaseProtocol
  import opened LeaseInvariant
  import opened LeaseTheorems
  import opened LeaseExclusion
  import Retry

  ghost predicate Gaps(claims: seq<Time>, created: Time) {
    && (claims != [] ==> created <= claims[0])
    && (forall i | 0 < i < |claims| :: claims[i - 1] + LEASE <= claims[i])
  }

  /** The end of a full lease from the latest claim. */
  function FullLease(h: History): Time
    requires h.claims != []
  {
    h.claims[|h.claims| - 1] + LEASE
  }

  /** A clock reading that an attempt yet to claim the operation has taken, or may still take. */
  ghost predicate MayRead(s: State, id: string, x: Time) {
    || s.clock <= x
    || exists k | k in s.attempts && k.op == id ::
         match s.attempts[k]
         case Waiting(since) => since <= x
         case Checked(_, now) => now == x
         case Working(_, _, _, _, _) => false
  }

  /** No claim with a reading from the lease end `from` on comes before `to`. */
  ghost predicate NoClaimBetween(s: State, id: string, from: Time, to: Time) {
    forall x | MayRead(s, id, x) && from <= x :: to <= x
  }

  ghost predicate OpSpaced(s: State, id: string, o: Operation, h: History) {
    && Gaps(h.claims, o.createdAt)
    && (h.claims != [] && o.status == Running ==>
          o.leaseExpiresAt.Some? && NoClaimBetween(s, id, o.leaseExpiresAt.value, FullLease(h)))
    && (h.claims != [] && o.status == Pending ==>
          o.nextAttemptAt.Some? && FullLease(h) <= o.nextAttemptAt.value)
  }

  predicate ClaimKnown(a: Attempt, h: History) {
    a.Working? ==> 0 < a.copy.attemptCount <= |h.claims| && h.claims[a.copy.attemptCount - 1] == a.claimAt
  }

  ghost predicate Spaced(s: State) {
    && Inv(s)
    && (forall id | id in s.ops :: OpSpaced(s, id, s.ops[id], s.history[id]))
    && (forall k | k in s.attempts :: ClaimKnown(s.attempts[k], s.history[k.op]))
  }

  /**
   * The condition on a late heartbeat: between the lease end it sets and the end of a full lease from the
   * latest claim, nobody can claim the operation.
   */
  ghost predicate Timely(s: State, k: Key, t: Time) {
    k.op in s.history && s.history[k.op].claims != [] ==>
      NoClaimBetween(s, k.op, t + LEASE, FullLease(s.history[k.op]))
  }

  ghost predicate TimelyStep(s: State, step: Step) {
    step.Act? && step.action.LateHeartbeat? && Lands(s, step.k, step.action.t) ==> Timely(s, step.k, step.action.t)
  }

  ghost predicate TimelyRun(s: State, steps: seq<Step>)
    decreases |steps|
  {
    steps == [] || (TimelyStep(s, steps[0]) && TimelyRun(Apply(s, steps[0]), steps[1..]))
  }

  /** As long as a full lease from the latest claim runs, a heartbeat is timely exactly if it was sent in that claim. */
  lemma TimelyMeansCurrent(s: State, k: Key, t: Time)
    requires k.op in s.history && s.history[k.op].claims != []
    ensures s.history[k.op].claims[|s.history[k.op].claims| - 1] <= t ==> Timely(s, k, t)
    ensures s.clock < FullLease(s.history[k.op]) && Timely(s, k, t) ==>
              s.history[k.op].claims[|s.history[k.op].claims| - 1] <= t
  {
    assert MayRead(s, k.op, if s.clock < t + LEASE then t + LEASE else s.clock);
  }

  /** A step after which no claim has an older reading than before it. */
  ghost predicate ReadingsKept(s: State, s': State) {
    && s.clock <= s'.clock
    && forall k | k in s'.attempts ::
         match s'.attempts[k]
         case Waiting(since) => s.clock <= since || (k in s.attempts && s.attempts[k] == s'.attempts[k])
         case Checked(_, now) =>
           && k in s.attempts
           && (s.attempts[k] == s'.attempts[k] || (s.attempts[k].Waiting? && s.attempts[k].since <= now))
         case Working(_, _, _, _, _) => true
  }

  lemma NoNewReadings(s: State, s': State, id: string, from: Time, to: Time)
    requires ReadingsKept(s, s') && NoClaimBetween(s, id, from, to)
    ensures NoClaimBetween(s', id, from, to)
  {
    forall x | MayRead(s', id, x)
      ensures MayRead(s, id, x)
    {
      if x < s'.clock {
        var k :| k in s'.attempts && k.op == id && !s'.attempts[k].Working?
                 && (if s'.attempts[k].Waiting? then s'.attempts[k].since <= x else s'.attempts[k].now == x);
        assert s.clock <= x || (k in s.attempts && !s.attempts[k].Working?);
      }
    }
  }

  /** The same claim times, and lease and retry times that are no earlier. */
  lemma StillSpaced(s: State, s': State, id: string, o: Operation, o': Operation, h: History, h': History)
    requires ReadingsKept(s, s') && OpSpaced(s, id, o, h)
    requires h'.claims == h.claims && o'.createdAt == o.createdAt
    requires o'.status == Running ==> o.status == Running && o'.leaseExpiresAt == o.leaseExpiresAt
    requires o'.status == Pending ==> o.status == Pending && o'.nextAttemptAt == o.nextAttemptAt
    ensures OpSpaced(s', id, o', h')
  {
    hide ReadingsKept, NoClaimBetween, Gaps;
    if h.claims != [] && o'.status == Running {
      NoNewReadings(s, s', id, o.leaseExpiresAt.value, FullLease(h));
    }
  }

  /** A step that leaves the claim times, the leases and the retry times of running and pending operations alone. */
  ghost predicate TimesKept(s: State, s': State) {
    && (forall k | k in s'.attempts && s'.attempts[k].Working? ::
          && k in s.attempts && s.attempts[k].Working?
          && s'.attempts[k].copy == s.attempts[k].copy && s'.attempts[k].claimAt == s.attempts[k].claimAt)
    && (forall id | id in s.history :: id in s'.history && s'.history[id].claims == s.history[id].claims)
    && (forall id | id in s'.ops && id in s.ops ::
          var o, o' := s.ops[id], s'.ops[id];
          && o'.createdAt == o.createdAt
          && (o'.status == Running ==> o.status == Running && o'.leaseExpiresAt == o.leaseExpiresAt)
          && (o'.status == Pending ==> o.status == Pending && o'.nextAttemptAt == o.nextAttemptAt))
    && (forall id | id in s'.ops && id !in s.ops :: id in s'.history && s'.history[id].claims == [])
  }

  lemma KeptMeansSpaced(s: State, s': State)
    requires Spaced(s) && Inv(s') && TimesKept(s, s') && ReadingsKept(s, s')
    ensures Spaced(s')
  {
    hide ReadingsKept, OpSpaced;
    forall id | id in s'.ops
      ensures OpSpaced(s', id, s'.ops[id], s'.history[id])
    {
      if id in s.ops {
        StillSpaced(s, s', id, s.ops[id], s'.ops[id], s.history[id], s'.history[id]);
      } else {
        UnclaimedSpaced(s', id, s'.ops[id], s'.history[id]);
      }
    }
    forall k | k in s'.attempts
      ensures ClaimKnown(s'.attempts[k], s'.history[k.op])
    {
      if s'.attempts[k].Working? {
        assert ClaimKnown(s.attempts[k], s.history[k.op]);
      }
    }
  }

  lemma UnclaimedSpaced(s: State, id: string, o: Operation, h: History)
    requires h.claims == []
    ensures OpSpaced(s, id, o, h)
  {
  }

  lemma GapsGrow(claims: seq<Time>, created: Time, t: Time)
    requires Gaps(claims, created) && created <= t && (claims != [] ==> claims[|claims| - 1] + LEASE <= t)
    ensures Gaps(claims + [t], created)
  {
  }

  /** A claim lands only with a reading at or after a full lease from the claim before. */
  lemma ClaimReading(s: State, k: Key)
    requires Spaced(s) && DoClaim(s, k) != s
    ensures k.op in s.history
    ensures var h := s.history[k.op];
            var t := s.attempts[k].now;
            && Gaps(h.claims, s.ops[k.op].createdAt) && s.ops[k.op].createdAt <= t
            && (h.claims != [] ==> FullLease(h) <= t)
  {
    assert AttemptOk(s.attempts[k], k, s.clock, Doc(s, k.op));
    assert OpSpaced(s, k.op, s.ops[k.op], s.history[k.op]);
    assert MayRead(s, k.op, s.attempts[k].now);
    hide Inv, Spaced, AttemptOk;
  }

  lemma ClaimGap(s: State, k: Key)
    requires Spaced(s) && DoClaim(s, k) != s
    ensures var s' := DoClaim(s, k); OpSpaced(s', k.op, s'.ops[k.op], s'.history[k.op])
  {
    hide Spaced, Gaps;
    ClaimReading(s, k);
    GapsGrow(s.history[k.op].claims, s.ops[k.op].createdAt, s.attempts[k].now);
  }

  /** A step that changes one document and its history, and no other. */
  ghost predicate OneOp(s: State, s': State, id: string) {
    && s.history.Keys <= s'.history.Keys
    && (forall i | i in s'.ops && i != id :: i in s.ops && s'.ops[i] == s.ops[i])
    && (forall i | i in s.history && i != id :: s'.history[i] == s.history[i])
  }

  lemma OneOpSpaced(s: State, s': State, id: string)
    requires Spaced(s) && Inv(s') && OneOp(s, s', id) && ReadingsKept(s, s') && s.ops.Keys <= s.history.Keys
    requires id in s'.ops ==> id in s'.history && OpSpaced(s', id, s'.ops[id], s'.history[id])
    requires forall k | k in s'.attempts :: k.op in s'.history && ClaimKnown(s'.attempts[k], s'.history[k.op])
    ensures Spaced(s')
  {
    hide ReadingsKept, OpSpaced, ClaimKnown;
    forall i | i in s'.ops && i != id
      ensures OpSpaced(s', i, s'.ops[i], s'.history[i])
    {
      StillSpaced(s, s', i, s.ops[i], s'.ops[i], s.history[i], s'.history[i]);
    }
  }

  lemma ClaimAttemptsKnown(s: State, k: Key)
    requires DoClaim(s, k) != s && k.op in s.history && |s.history[k.op].claims| == s.ops[k.op].attemptCount
    requires forall l | l in s.attempts :: l.op in s.history && ClaimKnown(s.attempts[l], s.history[l.op])
    ensures var s' := DoClaim(s, k);
            && OneOp(s, s', k.op) && ReadingsKept(s, s')
            && (forall l | l in s'.attempts :: l.op in s'.history && ClaimKnown(s'.attempts[l], s'.history[l.op]))
  {
  }

  lemma ClaimSpaced(s: State, k: Key)
    requires Spaced(s)
    ensures Spaced(DoClaim(s, k))
  {
    ClaimKeeps(s, k);
    if DoClaim(s, k) != s {
      ClaimGap(s, k);
      assert OpOk(s.ops[k.op], k.op, s.clock, s.history[k.op]);
      ClaimAttemptsKnown(s, k);
      OneOpSpaced(s, DoClaim(s, k), k.op);
    }
  }

  lemma RenewalSpaced(s: State, k: Key, t: Time)
    requires Spaced(s) && (Renewed(s, k, t) != s ==> Timely(s, k, t))
    ensures Spaced(Renewed(s, k, t))
  {
    hide Inv, OpSpaced, ClaimKnown, LeaseHeld, Timely;
    var s' := Renewed(s, k, t);
    if s' != s {
      SpacedIsInv(s);
      RenewalKeeps(s, k, t);
      RenewalGap(s, k, t);
      KeysKnown(s);
      OneOpSpaced(s, s', k.op);
    }
  }

  lemma KeysKnown(s: State)
    requires Spaced(s)
    ensures s.ops.Keys <= s.history.Keys
    ensures forall l | l in s.attempts :: l.op in s.history && ClaimKnown(s.attempts[l], s.history[l.op])
  {
  }

  lemma RenewalGap(s: State, k: Key, t: Time)
    requires Spaced(s) && Timely(s, k, t) && Renewed(s, k, t) != s
    ensures var s' := Renewed(s, k, t);
            k.op in s'.ops && k.op in s'.history && OpSpaced(s', k.op, s'.ops[k.op], s'.history[k.op])
  {
    assert OpSpaced(s, k.op, s.ops[k.op], s.history[k.op]);
    hide Inv;
    if s.history[k.op].claims != [] {
      NoNewReadings(s, Renewed(s, k, t), k.op, t + LEASE, FullLease(s.history[k.op]));
    }
  }

  lemma HeartbeatSpaced(s: State, k: Key, t: Time)
    requires Spaced(s)
    ensures Spaced(DoHeartbeat(s, k, t))
  {
    hide Inv, OpSpaced;
    var s' := DoHeartbeat(s, k, t);
    ActionKeeps(s, k, Action.Heartbeat(t));
    if s' != s {
      LastClaimKnown(s, k);
      TimelyMeansCurrent(s, k, t);
      RenewalSpaced(s, k, t);
      KeptMeansSpaced(Renewed(s, k, t), s');
    }
  }

  lemma LateHeartbeatSpaced(s: State, k: Key, t: Time)
    requires Spaced(s) && (Lands(s, k, t) ==> Timely(s, k, t))
    ensures Spaced(DoLateHeartbeat(s, k, t))
  {
    hide Inv, OpSpaced, ClaimKnown, Timely;
    LateHeartbeatKeeps(s, k, t);
    if k !in s.attempts && Beat(k, t) in s.beats {
      RenewalSpaced(s, k, t);
      KeptMeansSpaced(Renewed(s, k, t), DoLateHeartbeat(s, k, t));
    }
  }

  /** A landing late heartbeat keeps the claims spaced if and only if it is timely. */
  lemma LateHeartbeatExact(s: State, k: Key, t: Time)
    requires Spaced(s) && Lands(s, k, t)
    ensures Spaced(DoLateHeartbeat(s, k, t)) <==> Timely(s, k, t)
  {
    var s' := DoLateHeartbeat(s, k, t);
    if Spaced(s') {
      assert OpSpaced(s', k.op, s'.ops[k.op], s'.history[k.op]);
      if s.history[k.op].claims != [] {
        NoNewReadings(s', s, k.op, t + LEASE, FullLease(s.history[k.op]));
      }
    } else if Timely(s, k, t) {
      LateHeartbeatSpaced(s, k, t);
    }
  }

  lemma LastClaimKnown(s: State, k: Key)
    requires Spaced(s) && AtWork(s, k) && Matches(s, k)
    ensures k.op in s.history
    ensures var claims := s.history[k.op].claims;
            && claims != [] && Gaps(claims, s.ops[k.op].createdAt)
            && claims[|claims| - 1] <= s.attempts[k].since
  {
    MatchMeansCurrent(s, k);
    assert AttemptOk(s.attempts[k], k, s.clock, Doc(s, k.op));
    assert ClaimKnown(s.attempts[k], s.history[k.op]) && OpSpaced(s, k.op, s.ops[k.op], s.history[k.op]);
    hide Inv, Spaced;
  }

  /** A retry is never due before a full lease from the latest claim. */
  lemma RetryGap(s: State, k: Key, permanent: bool, summary: string, t1: Time, t2: Time, t3: Time, jitter: nat)
    requires AtWork(s, k) && Matches(s, k) && FailureTimes(s, k, t1, t2) && k.op in s.history
    requires var claims := s.history[k.op].claims;
             && claims != [] && Gaps(claims, s.ops[k.op].createdAt)
             && claims[|claims| - 1] <= s.attempts[k].since
    ensures var s' := DoWriteFailure(s, k, permanent, summary, t1, t2, t3, jitter);
            k.op in s'.ops && k.op in s'.history && OpSpaced(s', k.op, s'.ops[k.op], s'.history[k.op])
  {
  }

  lemma FailureIsOneOp(s: State, k: Key, permanent: bool, summary: string, t1: Time, t2: Time, t3: Time, jitter: nat)
    requires k.op in s.history
    ensures var s' := DoWriteFailure(s, k, permanent, summary, t1, t2, t3, jitter);
            OneOp(s, s', k.op) && s'.history[k.op].claims == s.history[k.op].claims
  {
  }

  lemma FailureKeepsClaims(s: State, k: Key, permanent: bool, summary: string, t1: Time, t2: Time, t3: Time,
                           jitter: nat)
    ensures var s' := DoWriteFailure(s, k, permanent, summary, t1, t2, t3, jitter);
            forall l | l in s'.attempts && s'.attempts[l].Working? ::
              && l in s.attempts && s.attempts[l].Working?
              && s'.attempts[l].copy == s.attempts[l].copy && s'.attempts[l].claimAt == s.attempts[l].claimAt
    ensures DoWriteFailure(s, k, permanent, summary, t1, t2, t3, jitter).attempts.Keys == s.attempts.Keys
    ensures ReadingsKept(s, DoWriteFailure(s, k, permanent, summary, t1, t2, t3, jitter))
  {
  }

  lemma FailureFrame(s: State, k: Key, permanent: bool, summary: string, t1: Time, t2: Time, t3: Time, jitter: nat)
    requires k.op in s.history
    requires forall l | l in s.attempts :: l.op in s.history && ClaimKnown(s.attempts[l], s.history[l.op])
    ensures var s' := DoWriteFailure(s, k, permanent, summary, t1, t2, t3, jitter);
            && OneOp(s, s', k.op) && ReadingsKept(s, s')
            && (forall l | l in s'.attempts :: l.op in s'.history && ClaimKnown(s'.attempts[l], s'.history[l.op]))
  {
    hide DoWriteFailure;
    var s' := DoWriteFailure(s, k, permanent, summary, t1, t2, t3, jitter);
    FailureIsOneOp(s, k, permanent, summary, t1, t2, t3, jitter);
    FailureKeepsClaims(s, k, permanent, summary, t1, t2, t3, jitter);
    forall l | l in s'.attempts
      ensures l.op in s'.history && ClaimKnown(s'.attempts[l], s'.history[l.op])
    {
      assert ClaimKnown(s.attempts[l], s.history[l.op]);
    }
  }

  lemma UnmatchedKeepsTimes(s: State, k: Key, permanent: bool, summary: string, t1: Time, t2: Time, t3: Time,
                            jitter: nat)
    requires !(AtWork(s, k) && FailureTimes(s, k, t1, t2) && Matches(s, k)) && s.ops.Keys <= s.history.Keys
    ensures var s' := DoWriteFailure(s, k, permanent, summary, t1, t2, t3, jitter);
            TimesKept(s, s') && ReadingsKept(s, s')
  {
  }

  lemma FailureSpaced(s: State, k: Key, permanent: bool, summary: string, t1: Time, t2: Time, t3: Time, jitter: nat)
    requires Spaced(s)
    ensures Spaced(DoWriteFailure(s, k, permanent, summary, t1, t2, t3, jitter))
  {
    hide OpSpaced, ClaimKnown, AttemptOk, OpOk;
    FailureKeeps(s, k, permanent, summary, t1, t2, t3, jitter);
    if AtWork(s, k) && FailureTimes(s, k, t1, t2) && Matches(s, k) {
      LastClaimKnown(s, k);
      RetryGap(s, k, permanent, summary, t1, t2, t3, jitter);
      FailureFrame(s, k, permanent, summary, t1, t2, t3, jitter);
      OneOpSpaced(s, DoWriteFailure(s, k, permanent, summary, t1, t2, t3, jitter), k.op);
    } else {
      UnmatchedKeepsTimes(s, k, permanent, summary, t1, t2, t3, jitter);
      KeptMeansSpaced(s, DoWriteFailure(s, k, permanent, summary, t1, t2, t3, jitter));
    }
  }

  predicate KeepsTimes(action: Action) {
    !action.ClaimLands? && !action.Heartbeat? && !action.LateHeartbeat? && !action.WriteFailure?
  }

  lemma OtherActionKeepsReadings(s: State, k: Key, action: Action)
    requires KeepsTimes(action)
    ensures ReadingsKept(s, ApplyAction(s, k, action))
  {
    hide DoLateHeartbeat, Renewed, CertUpdate;
  }

  lemma OtherActionKeepsWork(s: State, k: Key, action: Action)
    requires KeepsTimes(action)
    ensures var s' := ApplyAction(s, k, action);
            forall l | l in s'.attempts && s'.attempts[l].Working? ::
              && l in s.attempts && s.attempts[l].Working?
              && s'.attempts[l].copy == s.attempts[l].copy && s'.attempts[l].claimAt == s.attempts[l].claimAt
  {
    hide CertUpdate, SlotOf;
  }

  lemma TimesInDocsKept(s: State, k: Key, action: Action)
    requires KeepsTimes(action)
    ensures var s' := ApplyAction(s, k, action);
            && s'.history == s.history && s'.ops.Keys == s.ops.Keys
            && forall id | id in s.ops ::
                 var o, o' := s.ops[id], s'.ops[id];
                 && o'.createdAt == o.createdAt
                 && (InFlight(o') ==> o'.status == o.status)
                 && (InFlight(o') ==> o'.leaseExpiresAt == o.leaseExpiresAt && o'.nextAttemptAt == o.nextAttemptAt)
  {
    hide CertUpdate, SlotOf;
  }

  lemma OtherActionKeepsTimes(s: State, k: Key, action: Action)
    requires KeepsTimes(action)
    ensures TimesKept(s, ApplyAction(s, k, action)) && ReadingsKept(s, ApplyAction(s, k, action))
  {
    hide ApplyAction, ReadingsKept;
    OtherActionKeepsReadings(s, k, action);
    OtherActionKeepsWork(s, k, action);
    TimesInDocsKept(s, k, action);
  }

  lemma ActionSpaced(s: State, k: Key, action: Action)
    requires Spaced(s) && TimelyStep(s, Act(k, action))
    ensures Spaced(ApplyAction(s, k, action))
  {
    hide Inv, TimesKept, ReadingsKept, OpSpaced, ClaimKnown, DoClaim, DoHeartbeat, DoLateHeartbeat, DoWriteFailure,
         Spaced, Timely;
    ActionKeeps(s, k, action) by {
      SpacedIsInv(s);
    }
    match action
    case ClaimLands => ClaimSpaced(s, k);
    case Heartbeat(t) => HeartbeatSpaced(s, k, t);
    case LateHeartbeat(t) => LateHeartbeatSpaced(s, k, t);
    case WriteFailure(permanent, summary, t1, t2, t3, jitter) =>
      FailureSpaced(s, k, permanent, summary, t1, t2, t3, jitter);
    case _ => OtherActionKeepsTimes(s, k, action); KeptMeansSpaced(s, ApplyAction(s, k, action));
  }

  lemma SpacedIsInv(s: State)
    requires Spaced(s)
    ensures Inv(s)
  {
  }

  lemma CreateKeepsTimes(s: State, id: string, certId: string, kind: Kind, snapshot: Snapshot, target: string, t: Time)
    requires s.ops.Keys <= s.history.Keys
    ensures var s' := DoCreate(s, id, certId, kind, snapshot, target, t);
            TimesKept(s, s') && ReadingsKept(s, s')
  {
  }

  lemma OtherStepKeepsReadings(s: State, step: Step)
    requires !step.Act? && !step.Create?
    ensures ReadingsKept(s, Apply(s, step))
  {
    hide ApplyAction, DoCreate;
  }

  lemma OtherStepKeepsTimes(s: State, step: Step)
    requires !step.Act? && s.ops.Keys <= s.history.Keys
    ensures TimesKept(s, Apply(s, step)) && ReadingsKept(s, Apply(s, step))
  {
    if step.Create? {
      hide TimesKept, ReadingsKept;
      CreateKeepsTimes(s, step.id, step.certId, step.kind, step.snapshot, step.target, step.t);
    } else {
      OtherStepKeepsReadings(s, step);
      hide ReadingsKept, ApplyAction, DoCreate;
    }
  }

  /** A step keeps the claims spaced if and only if it is no late heartbeat that lands out of time. */
  lemma StepExact(s: State, step: Step)
    requires Spaced(s)
    ensures Spaced(Apply(s, step)) <==> TimelyStep(s, step)
  {
    hide Spaced, Timely, Lands;
    if !TimelyStep(s, step) {
      LateHeartbeatExact(s, step.k, step.action.t);
    } else if step.Act? {
      hide ApplyAction;
      ActionSpaced(s, step.k, step.action);
    } else {
      hide Apply, TimesKept, ReadingsKept;
      SpacedIsInv(s);
      StepKeeps(s, step);
      OtherStepKeepsTimes(s, step);
      KeptMeansSpaced(s, Apply(s, step));
    }
  }

  ghost predicate SpacedThroughout(s: State, steps: seq<Step>)
    decreases |steps|
  {
    Spaced(s) && (steps == [] || SpacedThroughout(Apply(s, steps[0]), steps[1..]))
  }

  lemma InitSpaced()
    ensures Spaced(Init)
  {
  }

  /** Over a whole run the claims are spaced in every state if and only if every late heartbeat that lands is timely. */
  lemma {:induction false} SpacedExactly(s: State, steps: seq<Step>)
    requires Spaced(s)
    ensures SpacedThroughout(s, steps) <==> TimelyRun(s, steps)
    ensures TimelyRun(s, steps) ==> Spaced(Exec(s, steps))
    decreases |steps|
  {
    hide Spaced, TimelyStep;
    if steps != [] {
      StepExact(s, steps[0]);
      if TimelyStep(s, steps[0]) {
        SpacedExactly(Apply(s, steps[0]), steps[1..]);
      }
    }
  }

  lemma {:induction false} GapsAddUp(claims: seq<Time>, created: Time, i: nat)
    requires Gaps(claims, created) && i < |claims|
    ensures created + i * LEASE <= claims[i]
  {
    if i > 0 {
      GapsAddUp(claims, created, i - 1);
    }
  }

  /** Claims of one operation are at least 90 seconds apart, and at most 2880 of them precede its deadline. */
  lemma ClaimsBeforeDeadline(steps: seq<Step>, id: string, i: nat)
    requires TimelyRun(Init, steps)
    requires var s := Exec(Init, steps); id in s.ops && id in s.history && i < |s.history[id].claims|
    ensures var s := Exec(Init, steps);
            var claims := s.history[id].claims;
            && s.ops[id].attemptCount == |claims|
            && (i > 0 ==> claims[i - 1] + 90 * SECOND <= claims[i])
            && s.ops[id].deadlineAt.Some?
            && (claims[i] < s.ops[id].deadlineAt.value ==> i < 2880)
  {
    InitSpaced();
    SpacedExactly(Init, steps);
    var s := Exec(Init, steps);
    assert OpOk(s.ops[id], id, s.clock, s.history[id]);
    assert OpSpaced(s, id, s.ops[id], s.history[id]);
    hide Inv, Spaced, TimelyRun, Exec;
    GapsAddUp(s.history[id].claims, s.ops[id].createdAt, i);
  }

  // ---------- Exactly which late heartbeats are safe ----------

  ghost predicate ClaimsApart(s: State, id: string) {
    id in s.ops && id in s.history ==> forall i | 0 < i < |s.history[id].claims| ::
      s.history[id].claims[i - 1] + LEASE <= s.history[id].claims[i]
  }

  lemma {:induction false} NoLateMeansTimely(s: State, steps: seq<Step>)
    requires NoLateHeartbeat(steps)
    ensures TimelyRun(s, steps)
    decreases |steps|
  {
    if steps != [] {
      NoLateMeansTimely(Apply(s, steps[0]), steps[1..]);
    }
  }

  /** A replica that comes fresh to a claimable operation can claim it from now on. */
  lemma ClaimLater(s: State, id: string, x: Time) returns (more: seq<Step>, s': State)
    requires Inv(s) && id in s.ops && id in s.history && Claimable(s.ops[id], x) && s.clock <= x
    ensures NoLateHeartbeat(more) && Exec(s, more) == s'
    ensures id in s'.ops && id in s'.history && s'.history[id].claims == s.history[id].claims + [x]
  {
    assert Exec(s, []) == s;
    hide Inv, Busy, Claimable, Exec;
    FreshAt(s, id, "b", x);
    more, s' := Then(s, [], s, Crash("b"));
    more, s' := Then(s, more, s', Tick(x));
    hide Apply;
    more, s' := ClaimNow(s, more, s', Key("b", id, 0));
  }

  /** After a crash a replica has no attempt left. */
  lemma FreshAt(s: State, id: string, replica: string, x: Time)
    requires Inv(s) && s.clock <= x
    ensures var s' := Apply(Apply(s, Crash(replica)), Tick(x));
            && Inv(s') && !Busy(s', replica, id) && s'.ops == s.ops && s'.history == s.history && s'.clock == x
  {
    hide Inv, ApplyAction, DoCreate;
    StepKeeps(s, Crash(replica));
    StepKeeps(Apply(s, Crash(replica)), Tick(x));
  }

  /** An attempt that has yet to claim can use an old reading. */
  lemma ClaimEarlier(s: State, k: Key, x: Time) returns (more: seq<Step>, s': State)
    requires Inv(s) && k in s.attempts && k.op in s.ops && k.op in s.history && Claimable(s.ops[k.op], x)
    requires s.attempts[k] == Checked(s.attempts[k].since, x)
             || (s.attempts[k].Waiting? && s.attempts[k].since <= x <= s.clock)
    ensures NoLateHeartbeat(more) && Exec(s, more) == s'
    ensures k.op in s'.ops && k.op in s'.history && s'.history[k.op].claims == s.history[k.op].claims + [x]
  {
    NoConflictAt(s, k.op, x);
    hide Inv, Apply, Claimable;
    more, s' := [], s;
    if s.attempts[k].Waiting? {
      CheckPassed(s, k, x);
      more, s' := Then(s, more, s', Act(k, CheckConflict(x)));
    }
    Claimed(s', k);
    more, s' := Then(s, more, s', Act(k, ClaimLands));
  }

  /** Whoever may still read `x` can claim with it, if the operation is claimable at `x`. */
  lemma ClaimWith(s: State, id: string, x: Time) returns (more: seq<Step>, s': State)
    requires Inv(s) && id in s.ops && id in s.history && Claimable(s.ops[id], x) && MayRead(s, id, x)
    ensures NoLateHeartbeat(more) && Exec(s, more) == s'
    ensures id in s'.ops && id in s'.history && s'.history[id].claims == s.history[id].claims + [x]
  {
    hide Inv, Claimable, NoLateHeartbeat, Exec;
    if s.clock <= x {
      more, s' := ClaimLater(s, id, x);
    } else {
      var k :| k in s.attempts && k.op == id && !s.attempts[k].Working?
               && (if s.attempts[k].Waiting? then s.attempts[k].since <= x else s.attempts[k].now == x);
      more, s' := ClaimEarlier(s, k, x);
    }
  }

  lemma NoConflictAt(s: State, id: string, x: Time)
    requires Inv(s) && id in s.ops && InFlight(s.ops[id])
    ensures OthersHolding(s.ops, id, x) == {}
  {
  }

  /**
   * Exactly when a landing late heartbeat is safe: no continuation (whose own late heartbeats are timely)
   * claims the operation twice within a lease if and only if the heartbeat is timely.
   */
  lemma TimelyExactly(steps: seq<Step>, k: Key, t: Time)
    requires TimelyRun(Init, steps) && Lands(Exec(Init, steps), k, t)
    ensures var s := Exec(Init, steps);
            var s' := DoLateHeartbeat(s, k, t);
            Timely(s, k, t) <==> forall more | TimelyRun(s', more) :: ClaimsApart(Exec(s', more), k.op)
  {
    hide Inv, Exec, Apply, TimelyRun, Timely;
    var s := Exec(Init, steps);
    var s' := DoLateHeartbeat(s, k, t);
    InitSpaced();
    SpacedExactly(Init, steps);
    if Timely(s, k, t) {
      LateHeartbeatSpaced(s, k, t);
      forall more | TimelyRun(s', more)
        ensures ClaimsApart(Exec(s', more), k.op)
      {
        SpacedExactly(s', more);
        SpacedMeansApart(Exec(s', more), k.op);
      }
    } else {
      var more := TwoClaimsWithinLease(s, k, t);
      NoLateMeansTimely(s', more);
    }
  }

  lemma SpacedMeansApart(s: State, id: string)
    requires Spaced(s)
    ensures ClaimsApart(s, id)
  {
    if id in s.ops && id in s.history {
      assert OpSpaced(s, id, s.ops[id], s.history[id]);
    }
  }

  lemma NotTimely(s: State, k: Key, t: Time) returns (x: Time)
    requires Inv(s) && Lands(s, k, t) && !Timely(s, k, t)
    ensures var s' := DoLateHeartbeat(s, k, t);
            && k.op in s.history && s.history[k.op].claims != [] && s'.history == s.history
            && k.op in s'.ops && Claimable(s'.ops[k.op], x) && MayRead(s', k.op, x)
            && x < FullLease(s.history[k.op])
  {
    x :| MayRead(s, k.op, x) && t + LEASE <= x < FullLease(s.history[k.op]);
    hide Inv;
    assert MayRead(DoLateHeartbeat(s, k, t), k.op, x);
  }

  /** After a heartbeat that is not timely somebody can claim the operation again before a full lease has passed. */
  lemma TwoClaimsWithinLease(s: State, k: Key, t: Time) returns (more: seq<Step>)
    requires Inv(s) && Lands(s, k, t) && !Timely(s, k, t)
    ensures NoLateHeartbeat(more) && !ClaimsApart(Exec(DoLateHeartbeat(s, k, t), more), k.op)
  {
    hide Inv, Timely, MayRead, Claimable, DoLateHeartbeat, Exec, NoLateHeartbeat;
    var x := NotTimely(s, k, t);
    LateHeartbeatKeeps(s, k, t);
    var claims, s' := s.history[k.op].claims, s;
    more, s' := ClaimWith(DoLateHeartbeat(s, k, t), k.op, x);
    assert s'.history[k.op].claims == claims + [x];
    assert s'.history[k.op].claims[|claims| - 1] + LEASE > s'.history[k.op].claims[|claims|];
  }

  const FirstTry := Key("a", "o", 0)
  const SecondTry := Key("a", "o", 1)
  const Rival := Key("b", "o", 0)

  /** Replica "a" claims the operation, sends a heartbeat at 60 seconds, and gives the attempt up. */
  lemma HeartbeatOnItsWay() returns (steps: seq<Step>, s: State)
    ensures Exec(Init, steps) == s && s.clock == 60 * SECOND && s.attempts == map[]
    ensures s.beats == {Beat(FirstTry, 60 * SECOND)} && "o" in s.history && s.history["o"].claims == [0]
    ensures s.ops.Keys == {"o"} && s.ops["o"].deadlineAt == Some(72 * HOUR)
    ensures OwnedBy(s.ops["o"], "a") && s.ops["o"].leaseExpiresAt == Some(LEASE)
  {
    hide Inv;
    steps, s := OneOperation();
    Reachable(steps);
    steps, s := ClaimNow(Init, steps, s, FirstTry);
    steps, s := Then(Init, steps, s, Tick(60 * SECOND));
    steps, s := Then(Init, steps, s, Act(FirstTry, SendHeartbeat));
    steps, s := Then(Init, steps, s, Act(FirstTry, Leave));
  }

  /** At 90 seconds "a" claims the operation again, and then its old heartbeat lands. */
  lemma HeartbeatOvertaken() returns (steps: seq<Step>, s: State)
    ensures Exec(Init, steps) == s && s.clock == 90 * SECOND && s.attempts.Keys == {SecondTry}
    ensures HoldsLease(s, SecondTry) && s.attempts[SecondTry].granted == 180 * SECOND
    ensures "o" in s.history && s.history["o"].claims == [0, 90 * SECOND]
    ensures s.ops.Keys == {"o"} && s.ops["o"].deadlineAt == Some(72 * HOUR)
    ensures OwnedBy(s.ops["o"], "a") && s.ops["o"].leaseExpiresAt == Some(150 * SECOND)
  {
    hide Inv;
    steps, s := HeartbeatOnItsWay();
    steps, s := Then(Init, steps, s, Tick(90 * SECOND));
    Reachable(steps);
    steps, s := ClaimNow(Init, steps, s, SecondTry);
    steps, s := Then(Init, steps, s, Act(FirstTry, LateHeartbeat(60 * SECOND)));
  }

  /**
   * So a late heartbeat does break both properties: at 150 seconds replica "b" claims the operation while
   * the lease that "a" was granted runs to 180.
   */
  lemma LateHeartbeatHappens() returns (steps: seq<Step>)
    ensures var s := Exec(Init, steps);
            && "o" in s.history && s.history["o"].claims == [0, 90 * SECOND, 150 * SECOND]
            && HoldsLease(s, SecondTry) && HoldsLease(s, Rival) && !Exclusive(s)
  {
    var s: State;
    hide Inv;
    steps, s := HeartbeatOvertaken();
    steps, s := Then(Init, steps, s, Tick(150 * SECOND));
    Reachable(steps);
    steps, s := ClaimNow(Init, steps, s, Rival);
    assert s.history["o"].claims == [0, 90 * SECOND] + [150 * SECOND];
  }
}
