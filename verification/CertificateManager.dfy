/**
 * The certificate manager of one replica, as an object over the store: what its calls do when nothing
 * comes in between. CertificateRuns has the interleavings of the same calls.
 */
module CertificateManager {
  import opened Options
  import opened Certs
  import opened Operations
  import opened CertificateStore
  import R = CertificateRuns
  import Retry

  const MAX_REVOKE_REASON: nat := 10

  lemma AllKindsLooked(db: Db, certId: string)
    ensures HasInFlight(db.ops, certId)
            <==> R.KindInFlight(db, certId, Issue) || R.KindInFlight(db, certId, Renew)
                 || R.KindInFlight(db, certId, Revoke)
  {
    R.InFlightIsOfSomeKind(db, certId);
  }

  lemma NoKindMeansNone(db: Db, certId: string, self: Kind)
    requires !R.KindInFlight(db, certId, self)
    ensures HasInFlight(db.ops, certId) <==> exists kind :: kind != self && R.KindInFlight(db, certId, kind)
  {
    if HasInFlight(db.ops, certId) {
      var i :| i in db.ops && db.ops[i].certId == certId && InFlight(db.ops[i]);
      assert R.KindInFlight(db, certId, db.ops[i].kind);
    }
  }

  class Manager {
    const st: MongoStore
    const replicaId: string
    /** The operations this replica has an attempt for. */
    var opInflight: set<string>
    /** On from the start of the runner to its shutdown. */
    var claimingLeases: bool
    /** Whether the runner has been started and its context still lives. */
    var runnerAlive: bool
    /** No background task is taken on any more. */
    var tasksClosed: bool

    constructor (st: MongoStore, replicaId: string)
      ensures this.st == st && this.replicaId == replicaId && opInflight == {}
      ensures !claimingLeases && !runnerAlive && !tasksClosed
    {
      this.st, this.replicaId := st, replicaId;
      opInflight, claimingLeases, runnerAlive, tasksClosed := {}, false, false, false;
    }

    method StartOperationRunner()
      modifies this`runnerAlive, this`claimingLeases
      ensures runnerAlive && claimingLeases == !tasksClosed
    {
      runnerAlive := true;
      claimingLeases := true;
      if tasksClosed {
        claimingLeases := false;
      }
    }

    /** At most one local attempt per operation: the owner token names only the replica. */
    method TriggerOperation(opId: string) returns (started: bool)
      modifies this`opInflight
      ensures started <==> claimingLeases && runnerAlive && !tasksClosed && opId !in old(opInflight)
      ensures opInflight == if started then old(opInflight) + {opId} else old(opInflight)
    {
      if !claimingLeases || !runnerAlive || opId in opInflight {
        return false;
      }
      opInflight := opInflight + {opId};
      if tasksClosed {
        opInflight := opInflight - {opId};
        return false;
      }
      started := true;
    }

    method FinishAttempt(opId: string)
      modifies this`opInflight
      ensures opInflight == old(opInflight) - {opId}
    {
      opInflight := opInflight - {opId};
    }

    /**
     * The failure handler decides on the attempt's copy. A permanent error is never retried; any other is, if
     * the deadline has not passed and the next attempt comes before it. What it writes lands only if the replica
     * still owns the operation.
     */
    method HandleOperationFailure(op: Operation, permanent: bool, summary: string, t1: Time, t2: Time, t3: Time,
                                  jitter: nat)
      requires st.Valid()
      modifies st
      ensures st.Valid()
      ensures st.Contents() ==
              match AfterFailure(op, permanent, summary, t1, t2, jitter)
              case GiveUp(text) => MarkFailed(old(st.Contents()), op.id, replicaId, text, t3).db
              case TryAgain(nextAt, failures) =>
                ScheduleRetry(old(st.Contents()), op.id, replicaId, nextAt, summary, failures).db
      ensures st.certs == old(st.certs)
      ensures st.ops ==
              if !Held(old(st.Contents()), op.id, replicaId) then old(st.ops)
              else
                var d := old(st.ops)[op.id];
                var late := op.deadlineAt.Some? && t1 >= op.deadlineAt.value;
                var nextAt := t2 + Retry.Min(15 * MINUTE * Retry.Pow2(op.consecutiveFailures), 12 * HOUR) + jitter;
                if !permanent && !late && (op.deadlineAt.Some? ==> nextAt < op.deadlineAt.value) then
                  old(st.ops)[op.id := d.(
                      status := Pending, errorSummary := summary, nextAttemptAt := Some(nextAt),
                      consecutiveFailures := op.consecutiveFailures + 1, leaseOwner := "", leaseExpiresAt := None)]
                else
                  old(st.ops)[op.id := d.(
                      status := Failed, finishedAt := Some(t3), leaseOwner := "", leaseExpiresAt := None,
                      errorSummary := if permanent && !late then summary else "operation total timeout exceeded")]
    {
      var exceeded := DeadlineExceeded(op, t1);
      var r: Result<()>;
      if permanent || exceeded {
        r := st.MarkCertificateOperationFailed(op.id, replicaId, if exceeded then TIMEOUT_SUMMARY else summary, t3);
        return;
      }
      var failures := op.consecutiveFailures + 1;
      var delay := Retry.ComputeRetryDelay(failures, d => jitter);
      var nextAt := t2 + delay;
      if op.deadlineAt.Some? && !(nextAt < op.deadlineAt.value) {
        r := st.MarkCertificateOperationFailed(op.id, replicaId, TIMEOUT_SUMMARY, t3);
        return;
      }
      r := st.ScheduleCertificateOperationRetry(op.id, replicaId, nextAt, summary, failures);
    }

    /** Whether an operation of another kind is in flight. */
    method ConflictingIssuance(certId: string, self: Kind) returns (conflict: bool)
      ensures conflict <==> exists kind :: kind != self && R.KindInFlight(st.Contents(), certId, kind)
    {
      if !HasInFlight(st.ops, certId) {
        return false;
      }
      for i := 0 to |R.AllKinds|
        invariant forall j | 0 <= j < i ::
                    R.AllKinds[j] != self ==> !R.KindInFlight(st.Contents(), certId, R.AllKinds[j])
      {
        if R.AllKinds[i] != self && R.KindInFlight(st.Contents(), certId, R.AllKinds[i]) {
          return true;
        }
      }
      forall kind | kind != self
        ensures !R.KindInFlight(st.Contents(), certId, kind)
      {
        assert kind in R.AllKinds;
      }
      conflict := false;
    }

    /** Inserts a new operation; its id is the one that was drawn for it. */
    method Insert(o: Operation) returns (r: Result<()>)
      requires st.Valid() && o.id != "" && o.deadlineAt.Some?
      modifies st
      ensures st.Valid()
      ensures Reply(r, st.Contents()) == CreateOperation(old(st.Contents()), o)
    {
      var created := st.CreateCertificateOperation(o, o.id, o.createdAt);
      r := if created.Ok? then Ok(()) else Err(created.error);
    }

    /** Publishes nothing twice: an Issue in flight is kept; otherwise one is created from the desired fields. */
    method SubmitIssueOperation(certId: string, opId: string, now: Time) returns (r: Result<()>)
      requires st.Valid() && opId != "" && opId !in st.ops
      modifies st
      ensures st.Valid() && st.certs == old(st.certs)
      ensures old(R.KindInFlight(st.Contents(), certId, Issue)) ==> r.Ok? && st.ops == old(st.ops)
      ensures r.Err? ==> st.ops == old(st.ops)
      ensures r.Ok? <==> || old(R.KindInFlight(st.Contents(), certId, Issue))
                         || (certId in st.certs && !old(HasInFlight(st.ops, certId)))
      ensures r.Ok? && !old(R.KindInFlight(st.Contents(), certId, Issue)) ==>
                && st.ops == old(st.ops)[opId := Operation(
                                opId, certId, Issue, Pending, 0, 0, st.certs[certId].desired, "",
                                "", "", None, {}, None, None, None, Some(now + 72 * HOUR), now)]
                && st.Contents() == R.IssueCall(old(st.Contents()), certId, opId, now)
    {
      if R.KindInFlight(st.Contents(), certId, Issue) {
        return Ok(());
      }
      NoKindMeansNone(st.Contents(), certId, Issue);
      var conflict := ConflictingIssuance(certId, Issue);
      if conflict {
        return Err(OperationInFlight);
      }
      if certId !in st.certs {
        return Err(NotFound);
      }
      if HasInFlight(st.ops, certId) {
        return Err(OperationInFlight);
      }
      r := Insert(NewOperation(opId, certId, Issue, st.certs[certId].desired, "", now));
    }

    /** A renewal repeats the configuration of the active version, whatever is desired by now. */
    method SubmitRenewOperation(certId: string, opId: string, now: Time) returns (r: Result<()>)
      requires st.Valid() && opId != "" && opId !in st.ops
      modifies st
      ensures st.Valid() && st.certs == old(st.certs)
      ensures old(R.KindInFlight(st.Contents(), certId, Renew)) ==> r.Ok? && st.ops == old(st.ops)
      ensures r.Err? ==> st.ops == old(st.ops)
      ensures r.Ok? <==> || old(R.KindInFlight(st.Contents(), certId, Renew))
                         || (certId in st.certs && st.certs[certId].active.Some? && !old(HasInFlight(st.ops, certId)))
      ensures r.Ok? && !old(R.KindInFlight(st.Contents(), certId, Renew)) ==>
                && st.ops == old(st.ops)[opId := Operation(
                                opId, certId, Renew, Pending, 0, 0, st.certs[certId].active.value.snapshot, "",
                                "", "", None, {}, None, None, None, Some(now + 72 * HOUR), now)]
                && st.Contents() == R.RenewCall(old(st.Contents()), certId, opId, now)
    {
      if R.KindInFlight(st.Contents(), certId, Renew) {
        return Ok(());
      }
      NoKindMeansNone(st.Contents(), certId, Renew);
      var conflict := ConflictingIssuance(certId, Renew);
      if conflict {
        return Err(OperationInFlight);
      }
      if certId !in st.certs {
        return Err(NotFound);
      }
      if st.certs[certId].active.None? {
        return Err(NoActiveVersion);
      }
      if HasInFlight(st.ops, certId) {
        return Err(OperationInFlight);
      }
      r := Insert(NewOperation(opId, certId, Renew, st.certs[certId].active.value.snapshot, "", now));
    }

    /** A Revoke in flight is returned as it is; with anything else in flight none is created. */
    method CreatePendingRevoke(certId: string, versionId: string, snapshot: Snapshot, opId: string, now: Time,
                               insertFails: bool)
      returns (r: Result<()>)
      requires st.Valid() && opId != "" && opId !in st.ops
      modifies st
      ensures st.Valid() && st.certs == old(st.certs)
      ensures old(R.KindInFlight(st.Contents(), certId, Revoke)) ==> r.Ok? && st.ops == old(st.ops)
      ensures !old(R.KindInFlight(st.Contents(), certId, Revoke)) ==>
                && (r.Ok? <==> !insertFails && !old(HasInFlight(st.ops, certId)))
                && st.ops == if r.Err? then old(st.ops)
                             else old(st.ops)[opId := NewOperation(opId, certId, Revoke, snapshot, versionId, now)]
    {
      if R.KindInFlight(st.Contents(), certId, Revoke) {
        return Ok(());
      }
      if HasInFlight(st.ops, certId) {
        return Err(OperationInFlight);
      }
      if insertFails {
        return Err(WriteFailed);
      }
      r := Insert(NewOperation(opId, certId, Revoke, snapshot, versionId, now));
    }

    /**
     * A refused or failed request leaves the store as it was: its own mark is taken back. An accepted
     * one either joined a Revoke in flight, or marked the version and created its Revoke.
     */
    method SubmitRevokeVersion(certId: string, versionId: string, reason: nat, opId: string, now: Time,
                               insertFails: bool)
      returns (r: Result<()>)
      requires st.Valid() && opId != "" && opId !in st.ops
      modifies st
      ensures st.Valid()
      ensures reason > 10 ==> r == Err(InvalidRevocationReason)
      ensures r.Ok? <==>
              && reason <= 10
              && (|| old(R.KindInFlight(st.Contents(), certId, Revoke))
                  || (!insertFails && old(R.Revocable(st.Contents(), certId, versionId))))
      ensures r.Err? ==> st.Contents() == old(st.Contents())
      ensures r.Ok? && old(R.KindInFlight(st.Contents(), certId, Revoke)) ==> st.Contents() == old(st.Contents())
      ensures reason <= 10 && !old(R.KindInFlight(st.Contents(), certId, Revoke)) ==>
                st.Contents() == R.RevokeCall(old(st.Contents()), certId, versionId, opId, now, insertFails)
      ensures r.Ok? && !old(R.KindInFlight(st.Contents(), certId, Revoke)) ==>
                var c := old(st.certs)[certId];
                var v := (if Holds(c, Active, versionId) then c.active else c.previous).value;
                var snapshot := if v.snapshot.domains == [] then c.desired else v.snapshot;
                && st.ops == old(st.ops)[opId := Operation(
                                opId, certId, Revoke, Pending, 0, 0, snapshot, versionId,
                                "", "", None, {}, None, None, None, Some(now + 72 * HOUR), now)]
                && st.certs == old(st.certs)[certId :=
                                 if Holds(c, Active, versionId)
                                 then c.(active := Some(v.(revokePending := true)))
                                 else c.(previous := Some(v.(revokePending := true)))]
    {
      if reason > MAX_REVOKE_REASON {
        return Err(InvalidRevocationReason);
      }
      if R.KindInFlight(st.Contents(), certId, Revoke) {
        return Ok(());
      }
      R.RevokeCallResult(st.Contents(), certId, versionId, opId, now, insertFails);
      NoKindMeansNone(st.Contents(), certId, Revoke);
      hide R.RevokeCall, HasInFlight, R.KindInFlight, NewOperation, R.RevokeSnapshot, ValidDb;
      var conflict := ConflictingIssuance(certId, Revoke);
      if conflict {
        return Err(OperationInFlight);
      }
      if certId !in st.certs {
        return Err(NotFound);
      }
      var slot := SlotOf(st.certs[certId], versionId);
      if slot.None? {
        return Err(VersionNotFound);
      }
      var target := InSlot(st.certs[certId], slot.value).value;
      if target.revokedAt.Some? {
        return Err(VersionRevoked);
      }
      if target.revokePending {
        return Err(VersionRevokePending);
      }
      var snapshot := R.RevokeSnapshot(st.certs[certId], target);
      r := st.MarkVersionRevokePending(certId, versionId);
      if r.Err? {
        return;
      }
      r := CreatePendingRevoke(certId, versionId, snapshot, opId, now, insertFails);
      if r.Err? {
        var cleared := st.ClearVersionRevokePending(certId, versionId);
      }
    }

    /** The field lock: with any operation in flight only edits that keep the issue fields pass. */
    method UpdateManagedCertificate(certId: string, name: string, desired: Snapshot, renewBeforeDays: nat,
                                    serverIds: seq<string>)
      returns (r: Result<()>)
      requires st.Valid()
      modifies st
      ensures st.Valid()
      ensures r.Ok? <==>
              && certId in old(st.certs)
              && (desired == old(st.certs)[certId].desired || !old(HasInFlight(st.ops, certId)))
              && !NameUsed(old(st.names), certId, name)
      ensures r.Err? ==> st.Contents() == old(st.Contents()) && st.names == old(st.names)
      ensures r.Ok? ==>
                && st.names == old(st.names)[certId := name]
                && st.ops == old(st.ops)
                && st.certs == old(st.certs)[certId := old(st.certs)[certId].(
                                 desired := desired, renewBeforeDays := renewBeforeDays, serverIds := serverIds)]
                && st.Contents() == R.UpdateCall(old(st.Contents()), certId, desired, renewBeforeDays, serverIds)
    {
      if certId !in st.certs {
        return Err(NotFound);
      }
      var existing := st.certs[certId];
      R.UpdateCallResult(st.Contents(), certId, desired, renewBeforeDays, serverIds);
      AllKindsLooked(st.Contents(), certId);
      hide R.UpdateCall, HasInFlight, R.KindInFlight, ValidDb, DistinctNames, NameUsed;
      var issueRunning := R.KindInFlight(st.Contents(), certId, Issue);
      var renewRunning := R.KindInFlight(st.Contents(), certId, Renew);
      var revokeRunning := R.KindInFlight(st.Contents(), certId, Revoke);
      if (issueRunning || renewRunning || revokeRunning) && desired != existing.desired {
        return Err(IssueFieldsLocked);
      }
      r := st.UpdateManagedCertificate(certId, name, desired, renewBeforeDays, serverIds);
    }

    /** The end of an issuance: the version built from the operation's snapshot goes into the active slot. */
    method ActivateIssued(op: Operation, version: Version, now: Time) returns (r: Result<()>)
      requires st.Valid()
      modifies st
      ensures st.Valid()
      ensures r.Err? ==> st.Contents() == old(st.Contents())
      ensures r.Ok? <==> op.certId in old(st.certs) && Held(old(st.Contents()), op.id, replicaId)
      ensures r.Ok? ==>
                && st.certs == old(st.certs)[op.certId := old(st.certs)[op.certId].(
                                 active := Some(version),
                                 previous := if old(st.certs)[op.certId].active.Some?
                                             then old(st.certs)[op.certId].active
                                             else old(st.certs)[op.certId].previous)]
                && st.ops == old(st.ops)[op.id := Succeed(old(st.ops)[op.id], now)]
    {
      if op.certId !in st.certs {
        return Err(NotFound);
      }
      var active := st.certs[op.certId].active;
      if active.None? {
        r := st.ActivateFirstIssueVersion(op.certId, version, op.id, replicaId, now);
      } else {
        r := st.ActivateSubsequentIssueVersion(op.certId, version, active.value.id, op.id, replicaId, now);
      }
    }

    /** A bundle is served exactly for a distributable version in the asked slot. */
    method GetCertificateBundle(certId: string, slot: Slot) returns (r: Result<Version>)
      ensures r == if certId !in st.certs then Err(NotFound)
                   else
                     var v := if slot == Active then st.certs[certId].active else st.certs[certId].previous;
                     if v.Some? && !v.value.revokePending && v.value.revokedAt.None? then Ok(v.value)
                     else Err(BundleNotAvailable)
      ensures r.Ok? ==> Bundle(st.certs[certId], slot) == Some(r.value)
    {
      if certId !in st.certs {
        return Err(NotFound);
      }
      var v := InSlot(st.certs[certId], slot);
      if v.None? {
        return Err(BundleNotAvailable);
      }
      if v.value.revokePending || v.value.revokedAt.Some? {
        return Err(BundleNotAvailable);
      }
      r := Ok(v.value);
    }
  }
}
