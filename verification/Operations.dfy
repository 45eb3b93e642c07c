/** Certificate operation documents and the guarded updates the store applies to them. */
module Operations {
  import opened Options
  import opened Certs
  import Retry

  const LEASE: Time := 90 * SECOND
  const TIMEOUT_SUMMARY := "operation total timeout exceeded"

  datatype Kind = Issue | Renew | Revoke
  datatype Status = Pending | Running | Succeeded | Failed

  datatype TxtRecord = TxtRecord(domain: string, token: string, keyAuth: string)

  datatype Operation = Operation(
    id: string, certId: string, kind: Kind, status: Status,
    attemptCount: nat, consecutiveFailures: nat,
    snapshot: Snapshot, targetVersionId: string,
    errorSummary: string, leaseOwner: string, leaseExpiresAt: Option<Time>,
    pendingTxt: set<TxtRecord>, startedAt: Option<Time>, finishedAt: Option<Time>,
    nextAttemptAt: Option<Time>, deadlineAt: Option<Time>, createdAt: Time)

  predicate InFlight(o: Operation) {
    o.status == Pending || o.status == Running
  }

  predicate Terminal(o: Operation) {
    !InFlight(o)
  }

  predicate Claimable(o: Operation, now: Time) {
    || (o.status == Pending && (o.nextAttemptAt.None? || o.nextAttemptAt.value <= now))
    || (o.status == Running && (o.leaseExpiresAt.None? || o.leaseExpiresAt.value <= now))
  }

  predicate LeaseHeld(o: Operation, now: Time) {
    o.status == Running && o.leaseExpiresAt.Some? && o.leaseExpiresAt.value > now
  }

  /** What the guarded writes of an attempt ask for: running, and owned by the attempt's replica. */
  predicate OwnedBy(o: Operation, owner: string) {
    o.status == Running && o.leaseOwner == owner
  }

  predicate DeadlineExceeded(o: Operation, now: Time) {
    o.deadlineAt.Some? && now >= o.deadlineAt.value
  }

  function NewOperation(id: string, certId: string, kind: Kind, snapshot: Snapshot, target: string,
                        now: Time): Operation {
    Operation(id, certId, kind, Pending, 0, 0, snapshot, target, "", "", None, {}, None, None, None,
              Some(now + Retry.TOTAL_TIMEOUT), now)
  }

  function Claim(o: Operation, owner: string, now: Time, expires: Time): Operation {
    o.(status := Running, leaseOwner := owner, leaseExpiresAt := Some(expires), finishedAt := None,
       startedAt := Some(o.startedAt.GetOr(now)), attemptCount := o.attemptCount + 1)
  }

  function ReleaseForRetry(o: Operation, nextAt: Time, summary: string, failures: nat): Operation {
    o.(status := Pending, errorSummary := summary, nextAttemptAt := Some(nextAt), consecutiveFailures := failures,
       leaseOwner := "", leaseExpiresAt := None)
  }

  function Fail(o: Operation, summary: string, now: Time): Operation {
    o.(status := Failed, errorSummary := summary, finishedAt := Some(now), leaseOwner := "", leaseExpiresAt := None)
  }

  /** Success of an issuance also empties the TXT records; success of a revocation leaves them. */
  function Succeed(o: Operation, now: Time): Operation {
    o.(status := Succeeded, finishedAt := Some(now), errorSummary := "", nextAttemptAt := None,
       consecutiveFailures := 0, leaseOwner := "", leaseExpiresAt := None,
       pendingTxt := if o.kind == Revoke then o.pendingTxt else {})
  }

  predicate Expired(o: Operation, now: Time) {
    InFlight(o) && o.deadlineAt.Some? && o.deadlineAt.value <= now
  }

  /** What a failed attempt writes: decided from the attempt's claim-time copy of the document. */
  datatype Outcome = GiveUp(summary: string) | TryAgain(nextAt: Time, failures: nat)

  /**
   * `t1` and `t2` are the two clock readings of the failure handler, `jitter` what the jitter
   * function adds to the delay.
   */
  function AfterFailure(copy: Operation, permanent: bool, summary: string, t1: Time, t2: Time, jitter: nat): Outcome {
    if permanent || DeadlineExceeded(copy, t1) then
      GiveUp(if DeadlineExceeded(copy, t1) then TIMEOUT_SUMMARY else summary)
    else
      var failures := copy.consecutiveFailures + 1;
      var nextAt := t2 + Retry.RetryBase(failures) + jitter;
      if DeadlineExceeded(copy, nextAt) then GiveUp(TIMEOUT_SUMMARY)
      else TryAgain(nextAt, failures)
  }

  /** The fields of a document that no update touches. */
  predicate SameRequest(o: Operation, p: Operation) {
    && o.id == p.id && o.certId == p.certId && o.kind == p.kind && o.snapshot == p.snapshot
    && o.targetVersionId == p.targetVersionId && o.deadlineAt == p.deadlineAt && o.createdAt == p.createdAt
  }

  /** The partial unique index: one Pending or Running operation per certificate. */
  ghost predicate OneInFlight(ops: map<string, Operation>) {
    forall i, j | i in ops && j in ops && i != j && InFlight(ops[i]) && InFlight(ops[j]) ::
      ops[i].certId != ops[j].certId
  }

  ghost predicate Keyed(ops: map<string, Operation>) {
    forall i | i in ops :: ops[i].id == i
  }

  function OthersHolding(ops: map<string, Operation>, id: string, now: Time): set<string>
    requires id in ops
  {
    set x | x in ops && x != id && ops[x].certId == ops[id].certId && LeaseHeld(ops[x], now)
  }

  predicate HasInFlight(ops: map<string, Operation>, certId: string) {
    exists i | i in ops :: ops[i].certId == certId && InFlight(ops[i])
  }

  /** The count taken before a claim never turns away an operation that could be claimed. */
  lemma ConflictCountIsZero(ops: map<string, Operation>, id: string, now: Time)
    requires OneInFlight(ops) && id in ops && InFlight(ops[id])
    ensures OthersHolding(ops, id, now) == {}
  {
  }
}
