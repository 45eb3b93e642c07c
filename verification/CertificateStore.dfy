/**
 * The store's certificate and operation collections, each store method taken as one step: first as
 * functions on the contents, then as the methods of the store object.
 */
module CertificateStore {
  import opened Options
  import opened Certs
  import opened Operations
  import Retry

  datatype Db = Db(certs: map<string, Cert>, ops: map<string, Operation>)

  datatype Reply = Reply(result: Result<()>, db: Db)

  predicate Held(db: Db, opId: string, owner: string) {
    opId in db.ops && OwnedBy(db.ops[opId], owner)
  }

  function Refuse(db: Db, e: Error): Reply {
    Reply(Err(e), db)
  }

  function WithCert(db: Db, certId: string, r: Result<Cert>): Reply {
    match r
    case Ok(c) => Reply(Ok(()), db.(certs := db.certs[certId := c]))
    case Err(e) => Refuse(db, e)
  }

  /** The document that is inserted: a drawn id if the caller gives none, and a deadline 72 hours on. */
  function Prepared(o: Operation, drawn: string, now: Time): Operation {
    o.(id := if o.id == "" then "cop_" + drawn else o.id, createdAt := now,
       deadlineAt := Some(o.deadlineAt.GetOr(now + Retry.TOTAL_TIMEOUT)))
  }

  function CreateOperation(db: Db, o: Operation): Reply {
    if o.id in db.ops || (InFlight(o) && HasInFlight(db.ops, o.certId)) then Refuse(db, DuplicateKey)
    else Reply(Ok(()), db.(ops := db.ops[o.id := o]))
  }

  function TryClaim(db: Db, opId: string, owner: string, now: Time, expires: Time): Reply {
    if opId !in db.ops then Refuse(db, NotFound)
    else if OthersHolding(db.ops, opId, now) != {} then Refuse(db, OperationConflict)
    else if !Claimable(db.ops[opId], now) then Refuse(db, NotFound)
    else Reply(Ok(()), db.(ops := db.ops[opId := Claim(db.ops[opId], owner, now, expires)]))
  }

  function RenewLease(db: Db, opId: string, owner: string, expires: Time, now: Time): Reply {
    if !Held(db, opId, owner) || !LeaseHeld(db.ops[opId], now) then Refuse(db, OperationConflict)
    else Reply(Ok(()), db.(ops := db.ops[opId := db.ops[opId].(leaseExpiresAt := Some(expires))]))
  }

  function AddPendingTxt(db: Db, opId: string, owner: string, txt: TxtRecord): Reply {
    if !Held(db, opId, owner) then Refuse(db, OperationConflict)
    else Reply(Ok(()), db.(ops := db.ops[opId := db.ops[opId].(pendingTxt := db.ops[opId].pendingTxt + {txt})]))
  }

  function ScheduleRetry(db: Db, opId: string, owner: string, nextAt: Time, summary: string, failures: nat): Reply {
    if !Held(db, opId, owner) then Refuse(db, OperationConflict)
    else Reply(Ok(()), db.(ops := db.ops[opId := ReleaseForRetry(db.ops[opId], nextAt, summary, failures)]))
  }

  function MarkFailed(db: Db, opId: string, owner: string, summary: string, now: Time): Reply {
    if !Held(db, opId, owner) then Refuse(db, OperationConflict)
    else Reply(Ok(()), db.(ops := db.ops[opId := Fail(db.ops[opId], summary, now)]))
  }

  function FailExpired(db: Db, now: Time): Db {
    db.(ops := map i | i in db.ops ::
          if Expired(db.ops[i], now) then Fail(db.ops[i], TIMEOUT_SUMMARY, now) else db.ops[i])
  }

  function Finish(db: Db, certId: string, r: Result<Cert>, opId: string, now: Time): Reply
    requires opId in db.ops
  {
    match r
    case Err(e) => Refuse(db, e)
    case Ok(c) => Reply(Ok(()), Db(db.certs[certId := c], db.ops[opId := Succeed(db.ops[opId], now)]))
  }

  function ActivateFirst(db: Db, certId: string, v: Version, opId: string, owner: string, now: Time): Reply {
    if !Held(db, opId, owner) then Refuse(db, OperationConflict)
    else if certId !in db.certs then Refuse(db, ActiveVersionConflict)
    else Finish(db, certId, InstallFirst(db.certs[certId], v), opId, now)
  }

  function ActivateSubsequent(db: Db, certId: string, v: Version, expectedId: string, opId: string, owner: string,
                              now: Time): Reply {
    if !Held(db, opId, owner) then Refuse(db, OperationConflict)
    else if certId !in db.certs then Refuse(db, NotFound)
    else Finish(db, certId, InstallSubsequent(db.certs[certId], v, expectedId), opId, now)
  }

  function CompleteRevocation(db: Db, certId: string, versionId: string, opId: string, owner: string, at: Time,
                              now: Time): Reply {
    if !Held(db, opId, owner) then Refuse(db, OperationConflict)
    else if certId !in db.certs then Refuse(db, NotFound)
    else Finish(db, certId, CompleteRevoke(db.certs[certId], versionId, at), opId, now)
  }

  function ActivatePrevious(db: Db, certId: string, versionId: string): Reply {
    if certId !in db.certs then Refuse(db, NotFound)
    else WithCert(db, certId, Rollback(db.certs[certId], versionId))
  }

  function MarkPending(db: Db, certId: string, versionId: string): Reply {
    if certId !in db.certs then Refuse(db, NotFound)
    else WithCert(db, certId, MarkRevokePending(db.certs[certId], versionId))
  }

  function ClearPending(db: Db, certId: string, versionId: string): Reply {
    if certId !in db.certs then Refuse(db, NotFound)
    else WithCert(db, certId, ClearRevokePending(db.certs[certId], versionId))
  }

  function UpdateDesired(db: Db, certId: string, desired: Snapshot, renewBeforeDays: nat,
                         serverIds: seq<string>): Reply {
    if certId !in db.certs then Refuse(db, NotFound)
    else WithCert(db, certId,
        Ok(db.certs[certId].(desired := desired, renewBeforeDays := renewBeforeDays, serverIds := serverIds)))
  }

  function DeleteCertificate(db: Db, certId: string): Reply {
    if certId !in db.certs then Refuse(db, NotFound)
    else if db.certs[certId].serverIds != [] then Refuse(db, HasServerAssignments)
    else if HasInFlight(db.ops, certId) then Refuse(db, OperationInFlight)
    else Reply(Ok(()), Db(db.certs - {certId}, map i | i in db.ops && db.ops[i].certId != certId :: db.ops[i]))
  }

  ghost predicate ValidDb(db: Db) {
    Keyed(db.ops) && OneInFlight(db.ops)
  }

  lemma UpdateKeepsValid(db: Db, id: string, o: Operation)
    requires ValidDb(db) && id in db.ops && o.id == id && o.certId == db.ops[id].certId
    requires InFlight(o) ==> InFlight(db.ops[id])
    ensures ValidDb(db.(ops := db.ops[id := o]))
  {
  }

  /** The unique index on certificate names; `names` holds the name of each certificate. */
  predicate NameUsed(names: map<string, string>, certId: string, name: string) {
    exists i | i in names :: i != certId && names[i] == name
  }

  ghost predicate DistinctNames(names: map<string, string>) {
    forall i, j | i in names && j in names && i != j :: names[i] != names[j]
  }

  class MongoStore {
    var certs: map<string, Cert>
    var ops: map<string, Operation>
    var names: map<string, string>

    function Contents(): Db
      reads this
    {
      Db(certs, ops)
    }

    ghost predicate Valid()
      reads this
    {
      ValidDb(Contents()) && names.Keys == certs.Keys && DistinctNames(names)
    }

    constructor ()
      ensures Valid() && Contents() == Db(map[], map[])
    {
      certs, ops, names := map[], map[], map[];
    }

    method CreateCertificateOperation(o: Operation, drawn: string, now: Time) returns (r: Result<Operation>)
      requires Valid()
      modifies this
      ensures Valid()
      ensures Contents() == CreateOperation(old(Contents()), Prepared(o, drawn, now)).db
      ensures r.Ok? <==> CreateOperation(old(Contents()), Prepared(o, drawn, now)).result.Ok?
      ensures var id := if o.id == "" then "cop_" + drawn else o.id;
              var deadline := if o.deadlineAt.Some? then o.deadlineAt.value else now + 72 * HOUR;
              var taken := id in old(ops) || ((o.status == Pending || o.status == Running) &&
                             exists i | i in old(ops) :: old(ops)[i].certId == o.certId
                               && (old(ops)[i].status == Pending || old(ops)[i].status == Running));
              && r == (if taken then Err(DuplicateKey)
                       else Ok(o.(id := id, createdAt := now, deadlineAt := Some(deadline))))
              && certs == old(certs) && ops == (if taken then old(ops) else old(ops)[id := r.value])
    {
      var doc := o;
      if doc.id == "" {
        doc := doc.(id := "cop_" + drawn);
      }
      doc := doc.(createdAt := now);
      if doc.deadlineAt.None? {
        doc := doc.(deadlineAt := Some(now + Retry.TOTAL_TIMEOUT));
      }
      if doc.id in ops || (InFlight(doc) && HasInFlight(ops, doc.certId)) {
        return Err(DuplicateKey);
      }
      ops := ops[doc.id := doc];
      r := Ok(doc);
    }

    method TryClaimCertificateOperation(opId: string, owner: string, now: Time, expires: Time) returns (r: Result<()>)
      requires Valid()
      modifies this
      ensures Valid() && certs == old(certs)
      ensures Reply(r, Contents()) == TryClaim(old(Contents()), opId, owner, now, expires)
      ensures r.Err? ==>
                (r.error == OperationConflict <==>
                   && opId in old(ops)
                   && exists i :: i in old(ops) && i != opId && old(ops)[i].certId == old(ops)[opId].certId
                                  && LeaseHeld(old(ops)[i], now))
      ensures r.Err? ==> r.error in {OperationConflict, NotFound}
      ensures r.Ok? <==>
              opId in old(ops) &&
              var o := old(ops)[opId];
              || (o.status == Pending && (o.nextAttemptAt.None? || o.nextAttemptAt.value <= now))
              || (o.status == Running && (o.leaseExpiresAt.None? || o.leaseExpiresAt.value <= now))
      ensures ops == if r.Err? then old(ops)
                     else
                       var o := old(ops)[opId];
                       old(ops)[opId := o.(
                           status := Running, leaseOwner := owner, leaseExpiresAt := Some(expires), finishedAt := None,
                           startedAt := Some(if o.startedAt.Some? then o.startedAt.value else now),
                           attemptCount := o.attemptCount + 1)]
    {
      if opId !in ops {
        return Err(NotFound);
      }
      var conflicting := OthersHolding(ops, opId, now);
      assert forall i :: i in conflicting <==>
               i in ops && i != opId && ops[i].certId == ops[opId].certId && LeaseHeld(ops[i], now);
      if InFlight(ops[opId]) {
        ConflictCountIsZero(ops, opId, now);
      }
      if conflicting != {} {
        return Err(OperationConflict);
      }
      if !Claimable(ops[opId], now) {
        return Err(NotFound);
      }
      UpdateKeepsValid(Contents(), opId, Claim(ops[opId], owner, now, expires));
      ops := ops[opId := Claim(ops[opId], owner, now, expires)];
      r := Ok(());
    }

    method RenewCertificateOperationLease(opId: string, owner: string, expires: Time, now: Time) returns (r: Result<()>)
      requires Valid()
      modifies this
      ensures Valid() && certs == old(certs)
      ensures Reply(r, Contents()) == RenewLease(old(Contents()), opId, owner, expires, now)
      ensures r == if Held(old(Contents()), opId, owner)
                      && old(ops)[opId].leaseExpiresAt.Some? && old(ops)[opId].leaseExpiresAt.value > now
                   then Ok(()) else Err(OperationConflict)
      ensures ops == if r.Err? then old(ops)
                     else old(ops)[opId := old(ops)[opId].(leaseExpiresAt := Some(expires))]
    {
      if opId !in ops || !OwnedBy(ops[opId], owner) || !LeaseHeld(ops[opId], now) {
        return Err(OperationConflict);
      }
      UpdateKeepsValid(Contents(), opId, ops[opId].(leaseExpiresAt := Some(expires)));
      ops := ops[opId := ops[opId].(leaseExpiresAt := Some(expires))];
      r := Ok(());
    }

    method RecordCertificateOperationPendingTXT(opId: string, owner: string, txt: TxtRecord) returns (r: Result<()>)
      requires Valid()
      modifies this
      ensures Valid() && certs == old(certs)
      ensures Reply(r, Contents()) == AddPendingTxt(old(Contents()), opId, owner, txt)
      ensures r == if Held(old(Contents()), opId, owner)
                   then Ok(()) else Err(OperationConflict)
      ensures ops == if r.Err? then old(ops)
                     else old(ops)[opId := old(ops)[opId].(pendingTxt := old(ops)[opId].pendingTxt + {txt})]
    {
      if opId !in ops || !OwnedBy(ops[opId], owner) {
        return Err(OperationConflict);
      }
      UpdateKeepsValid(Contents(), opId, ops[opId].(pendingTxt := ops[opId].pendingTxt + {txt}));
      ops := ops[opId := ops[opId].(pendingTxt := ops[opId].pendingTxt + {txt})];
      r := Ok(());
    }

    /** Not guarded by the owner: whoever has cleaned up empties the list. */
    method ClearCertificateOperationPendingTXT(opId: string)
      requires Valid()
      modifies this
      ensures Valid() && certs == old(certs)
      ensures ops == if opId in old(ops) then old(ops)[opId := old(ops)[opId].(pendingTxt := {})] else old(ops)
    {
      if opId in ops {
        UpdateKeepsValid(Contents(), opId, ops[opId].(pendingTxt := {}));
        ops := ops[opId := ops[opId].(pendingTxt := {})];
      }
    }

    method ScheduleCertificateOperationRetry(opId: string, owner: string, nextAt: Time, summary: string, failures: nat)
      returns (r: Result<()>)
      requires Valid()
      modifies this
      ensures Valid()
      ensures Reply(r, Contents()) == ScheduleRetry(old(Contents()), opId, owner, nextAt, summary, failures)
      ensures r == if Held(old(Contents()), opId, owner)
                   then Ok(()) else Err(OperationConflict)
      ensures certs == old(certs)
      ensures ops == if r.Err? then old(ops)
                     else old(ops)[opId := old(ops)[opId].(
                              status := Pending, errorSummary := summary, nextAttemptAt := Some(nextAt),
                              consecutiveFailures := failures, leaseOwner := "", leaseExpiresAt := None)]
    {
      if !Held(Contents(), opId, owner) {
        return Err(OperationConflict);
      }
      UpdateKeepsValid(Contents(), opId, ReleaseForRetry(ops[opId], nextAt, summary, failures));
      ops := ops[opId := ReleaseForRetry(ops[opId], nextAt, summary, failures)];
      r := Ok(());
    }

    method MarkCertificateOperationFailed(opId: string, owner: string, summary: string, now: Time)
      returns (r: Result<()>)
      requires Valid()
      modifies this
      ensures Valid()
      ensures Reply(r, Contents()) == MarkFailed(old(Contents()), opId, owner, summary, now)
      ensures r == if Held(old(Contents()), opId, owner)
                   then Ok(()) else Err(OperationConflict)
      ensures certs == old(certs)
      ensures ops == if r.Err? then old(ops)
                     else old(ops)[opId := old(ops)[opId].(
                              status := Failed, errorSummary := summary, finishedAt := Some(now),
                              leaseOwner := "", leaseExpiresAt := None)]
    {
      if !Held(Contents(), opId, owner) {
        return Err(OperationConflict);
      }
      UpdateKeepsValid(Contents(), opId, Fail(ops[opId], summary, now));
      ops := ops[opId := Fail(ops[opId], summary, now)];
      r := Ok(());
    }

    /** Afterwards no operation in flight is past its deadline; the count is that of the documents changed. */
    method FailExpiredCertificateOperations(now: Time) returns (count: nat)
      requires Valid()
      modifies this
      ensures Valid()
      ensures Contents() == FailExpired(old(Contents()), now)
      ensures count == |set i | i in ops && ops[i] != old(ops)[i]|
      ensures certs == old(certs) && ops.Keys == old(ops).Keys
      ensures forall i | i in ops ::
                var o := old(ops)[i];
                ops[i] == if (o.status == Pending || o.status == Running)
                             && o.deadlineAt.Some? && o.deadlineAt.value <= now
                          then o.(status := Failed, errorSummary := "operation total timeout exceeded",
                                  finishedAt := Some(now), leaseOwner := "", leaseExpiresAt := None)
                          else o
    {
      var expired := set i | i in ops && Expired(ops[i], now);
      count := |expired|;
      ops := FailExpired(Contents(), now).ops;
      assert expired == set i | i in ops && ops[i] != old(ops)[i];
    }

    method ActivateFirstIssueVersion(certId: string, v: Version, opId: string, owner: string, now: Time)
      returns (r: Result<()>)
      requires Valid()
      modifies this
      ensures Valid()
      ensures Reply(r, Contents()) == ActivateFirst(old(Contents()), certId, v, opId, owner, now)
      ensures r == if !Held(old(Contents()), opId, owner)
                   then Err(OperationConflict)
                   else if certId !in old(certs) || old(certs)[certId].active.Some? then Err(ActiveVersionConflict)
                   else Ok(())
      ensures certs == if r.Err? then old(certs) else old(certs)[certId := old(certs)[certId].(active := Some(v))]
      ensures ops == if r.Err? then old(ops)
                     else old(ops)[opId := old(ops)[opId].(
                              status := Succeeded, errorSummary := "", finishedAt := Some(now), nextAttemptAt := None,
                              consecutiveFailures := 0, leaseOwner := "", leaseExpiresAt := None,
                              pendingTxt := if old(ops)[opId].kind == Revoke then old(ops)[opId].pendingTxt else {})]
    {
      if !Held(Contents(), opId, owner) {
        return Err(OperationConflict);
      }
      if certId !in certs || certs[certId].active.Some? {
        return Err(ActiveVersionConflict);
      }
      certs := certs[certId := certs[certId].(active := Some(v))];
      UpdateKeepsValid(Contents(), opId, Succeed(ops[opId], now));
      ops := ops[opId := Succeed(ops[opId], now)];
      r := Ok(());
    }

    method ActivateSubsequentIssueVersion(certId: string, v: Version, expectedId: string, opId: string, owner: string,
                                        now: Time)
      returns (r: Result<()>)
      requires Valid()
      modifies this
      ensures Valid()
      ensures Reply(r, Contents()) == ActivateSubsequent(old(Contents()), certId, v, expectedId, opId, owner, now)
      ensures r == if !Held(old(Contents()), opId, owner)
                   then Err(OperationConflict)
                   else if certId !in old(certs) then Err(NotFound)
                   else if old(certs)[certId].active.None? || old(certs)[certId].active.value.id != expectedId
                   then Err(ActiveVersionConflict)
                   else Ok(())
      ensures certs == if r.Err? then old(certs)
                       else old(certs)[certId := old(certs)[certId].(
                                active := Some(v), previous := old(certs)[certId].active)]
      ensures ops == if r.Err? then old(ops)
                     else old(ops)[opId := old(ops)[opId].(
                              status := Succeeded, errorSummary := "", finishedAt := Some(now), nextAttemptAt := None,
                              consecutiveFailures := 0, leaseOwner := "", leaseExpiresAt := None,
                              pendingTxt := if old(ops)[opId].kind == Revoke then old(ops)[opId].pendingTxt else {})]
    {
      if !Held(Contents(), opId, owner) {
        return Err(OperationConflict);
      }
      if certId !in certs {
        return Err(NotFound);
      }
      var c := certs[certId];
      if c.active.None? || c.active.value.id != expectedId {
        return Err(ActiveVersionConflict);
      }
      certs := certs[certId := c.(active := Some(v), previous := c.active)];
      UpdateKeepsValid(Contents(), opId, Succeed(ops[opId], now));
      ops := ops[opId := Succeed(ops[opId], now)];
      r := Ok(());
    }

    method CompleteRevokeVersion(certId: string, versionId: string, opId: string, owner: string, at: Time, now: Time)
      returns (r: Result<()>)
      requires Valid()
      modifies this
      ensures Valid()
      ensures Reply(r, Contents()) == CompleteRevocation(old(Contents()), certId, versionId, opId, owner, at, now)
      ensures r == if !Held(old(Contents()), opId, owner)
                   then Err(OperationConflict)
                   else if certId !in old(certs) then Err(NotFound)
                   else if SlotOf(old(certs)[certId], versionId).None? then Err(VersionNotFound)
                   else Ok(())
      ensures certs == if r.Err? then old(certs)
                       else if Holds(old(certs)[certId], Active, versionId)
                       then old(certs)[certId := old(certs)[certId].(
                                active := Some(old(certs)[certId].active.value.(
                                  revokedAt := Some(at), revokePending := false)))]
                       else old(certs)[certId := old(certs)[certId].(
                                previous := Some(old(certs)[certId].previous.value.(
                                  revokedAt := Some(at), revokePending := false)))]
      ensures ops == if r.Err? then old(ops)
                     else old(ops)[opId := old(ops)[opId].(
                              status := Succeeded, errorSummary := "", finishedAt := Some(now), nextAttemptAt := None,
                              consecutiveFailures := 0, leaseOwner := "", leaseExpiresAt := None,
                              pendingTxt := if old(ops)[opId].kind == Revoke then old(ops)[opId].pendingTxt else {})]
    {
      if !Held(Contents(), opId, owner) {
        return Err(OperationConflict);
      }
      if certId !in certs {
        return Err(NotFound);
      }
      var slot := SlotOf(certs[certId], versionId);
      if slot.None? {
        return Err(VersionNotFound);
      }
      var v := InSlot(certs[certId], slot.value).value;
      certs := certs[certId := SetSlot(certs[certId], slot.value, v.(revokedAt := Some(at), revokePending := false))];
      UpdateKeepsValid(Contents(), opId, Succeed(ops[opId], now));
      ops := ops[opId := Succeed(ops[opId], now)];
      r := Ok(());
    }

    method ActivatePreviousVersion(certId: string, versionId: string) returns (r: Result<()>)
      requires Valid()
      modifies this
      ensures Valid()
      ensures Reply(r, Contents()) == ActivatePrevious(old(Contents()), certId, versionId)
      ensures r == if certId !in old(certs) then Err(NotFound)
                   else if !Holds(old(certs)[certId], Previous, versionId) then Err(VersionNotFound)
                   else if old(certs)[certId].previous.value.revokedAt.Some? then Err(VersionRevoked)
                   else Ok(())
      ensures ops == old(ops)
      ensures certs == if r.Err? then old(certs)
                       else old(certs)[certId := old(certs)[certId].(
                                active := old(certs)[certId].previous, previous := old(certs)[certId].active)]
    {
      if certId !in certs {
        return Err(NotFound);
      }
      var c := certs[certId];
      if c.previous.None? || c.previous.value.id != versionId {
        return Err(VersionNotFound);
      }
      if c.previous.value.revokedAt.Some? {
        return Err(VersionRevoked);
      }
      var newPrevious := c.active;
      certs := certs[certId := c.(active := c.previous, previous := newPrevious)];
      r := Ok(());
    }

    method MarkVersionRevokePending(certId: string, versionId: string) returns (r: Result<()>)
      requires Valid()
      modifies this
      ensures Valid()
      ensures Reply(r, Contents()) == MarkPending(old(Contents()), certId, versionId)
      ensures r == if certId !in old(certs) then Err(NotFound)
                   else if SlotOf(old(certs)[certId], versionId).None? then Err(VersionNotFound)
                   else
                     var c := old(certs)[certId];
                     var v := (if Holds(c, Active, versionId) then c.active else c.previous).value;
                     if v.revokedAt.Some? then Err(VersionRevoked)
                     else if v.revokePending then Err(VersionRevokePending)
                     else Ok(())
      ensures ops == old(ops)
      ensures certs == if r.Err? then old(certs)
                       else if Holds(old(certs)[certId], Active, versionId)
                       then old(certs)[certId := old(certs)[certId].(
                                active := Some(old(certs)[certId].active.value.(revokePending := true)))]
                       else old(certs)[certId := old(certs)[certId].(
                                previous := Some(old(certs)[certId].previous.value.(revokePending := true)))]
    {
      if certId !in certs {
        return Err(NotFound);
      }
      var slot := SlotOf(certs[certId], versionId);
      if slot.None? {
        return Err(VersionNotFound);
      }
      var v := InSlot(certs[certId], slot.value).value;
      if v.revokedAt.Some? {
        return Err(VersionRevoked);
      }
      if v.revokePending {
        return Err(VersionRevokePending);
      }
      certs := certs[certId := SetSlot(certs[certId], slot.value, v.(revokePending := true))];
      r := Ok(());
    }

    method ClearVersionRevokePending(certId: string, versionId: string) returns (r: Result<()>)
      requires Valid()
      modifies this
      ensures Valid()
      ensures Reply(r, Contents()) == ClearPending(old(Contents()), certId, versionId)
      ensures r == if certId !in old(certs) then Err(NotFound)
                   else if SlotOf(old(certs)[certId], versionId).None? then Err(VersionNotFound)
                   else Ok(())
      ensures ops == old(ops)
      ensures certs == if r.Err? then old(certs)
                       else if Holds(old(certs)[certId], Active, versionId)
                       then old(certs)[certId := old(certs)[certId].(
                                active := Some(old(certs)[certId].active.value.(revokePending := false)))]
                       else old(certs)[certId := old(certs)[certId].(
                                previous := Some(old(certs)[certId].previous.value.(revokePending := false)))]
    {
      if certId !in certs {
        return Err(NotFound);
      }
      var slot := SlotOf(certs[certId], versionId);
      if slot.None? {
        return Err(VersionNotFound);
      }
      var v := InSlot(certs[certId], slot.value).value;
      certs := certs[certId := SetSlot(certs[certId], slot.value, v.(revokePending := false))];
      r := Ok(());
    }

    /**
     * Inserts a certificate with empty slots, under a drawn id if none is given. Whichever unique index refuses
     * it, the name is reported as taken.
     */
    method CreateManagedCertificate(certId: string, drawn: string, name: string, desired: Snapshot,
                                    renewBeforeDays: nat, serverIds: seq<string>)
      returns (r: Result<Cert>)
      requires Valid()
      modifies this
      ensures Valid() && ops == old(ops)
      ensures var id := if certId == "" then "mcert_" + drawn else certId;
              && r == (if id in old(certs) || exists i | i in old(names) :: old(names)[i] == name then Err(NameTaken)
                       else Ok(Cert(id, desired, renewBeforeDays, serverIds, None, None)))
              && certs == (if r.Err? then old(certs) else old(certs)[id := r.value])
              && names == (if r.Err? then old(names) else old(names)[id := name])
    {
      var id := certId;
      if id == "" {
        id := "mcert_" + drawn;
      }
      if id in certs || NameUsed(names, id, name) {
        return Err(NameTaken);
      }
      r := Ok(Cert(id, desired, renewBeforeDays, serverIds, None, None));
      certs := certs[id := r.value];
      names := names[id := name];
    }

    /** Writes the editable fields, unless another certificate has the name; the slots stay as they are. */
    method UpdateManagedCertificate(certId: string, name: string, desired: Snapshot, renewBeforeDays: nat,
                                    serverIds: seq<string>)
      returns (r: Result<()>)
      requires Valid()
      modifies this
      ensures Valid()
      ensures r == if certId !in old(certs) then Err(NotFound)
                   else if exists i | i in old(names) :: i != certId && old(names)[i] == name then Err(NameTaken)
                   else Ok(())
      ensures Contents() == if r.Err? then old(Contents())
                            else UpdateDesired(old(Contents()), certId, desired, renewBeforeDays, serverIds).db
      ensures names == if r.Err? then old(names) else old(names)[certId := name]
      ensures ops == old(ops)
      ensures certs == if r.Err? then old(certs)
                       else old(certs)[certId := old(certs)[certId].(
                                desired := desired, renewBeforeDays := renewBeforeDays, serverIds := serverIds)]
    {
      if certId !in certs {
        return Err(NotFound);
      }
      if NameUsed(names, certId, name) {
        return Err(NameTaken);
      }
      certs := certs[certId :=
          certs[certId].(desired := desired, renewBeforeDays := renewBeforeDays, serverIds := serverIds)];
      names := names[certId := name];
      r := Ok(());
    }

    method DeleteManagedCertificate(certId: string) returns (r: Result<()>)
      requires Valid()
      modifies this
      ensures Valid()
      ensures Reply(r, Contents()) == DeleteCertificate(old(Contents()), certId)
      ensures r == if certId !in old(certs) then Err(NotFound)
                   else if old(certs)[certId].serverIds != [] then Err(HasServerAssignments)
                   else if exists i | i in old(ops) :: old(ops)[i].certId == certId
                             && (old(ops)[i].status == Pending || old(ops)[i].status == Running)
                   then Err(OperationInFlight)
                   else Ok(())
      ensures certs == if r.Err? then old(certs) else old(certs) - {certId}
      ensures ops == if r.Err? then old(ops) else map i | i in old(ops) && old(ops)[i].certId != certId :: old(ops)[i]
    {
      if certId !in certs {
        return Err(NotFound);
      }
      if certs[certId].serverIds != [] {
        return Err(HasServerAssignments);
      }
      if HasInFlight(ops, certId) {
        return Err(OperationInFlight);
      }
      ops := map i | i in ops && ops[i].certId != certId :: ops[i];
      certs := certs - {certId};
      names := names - {certId};
      r := Ok(());
    }
  }
}
