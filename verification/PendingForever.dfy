/**
 * Exactly which versions stay pending for good: never served, and never revoked. A mark needs somebody to
 * look after it, either a call that will create its Revoke or take it back, or a Revoke in flight.
 */
module PendingForever {
  import opened Options
  import opened Certs
  import opened Operations
  import opened CertificateStore
  import opened CertificateRuns
  import opened Revocation
  import opened OrphanedMarks

  predicate PendingInSlot(db: Db, certId: string, versionId: string) {
    InService(db, certId, versionId) && MarkedPending(db, certId, versionId)
  }

  /** A request for the version is between its mark and its insert or clear, or a Revoke of it is in flight. */
  ghost predicate Attended(s: State, certId: string, versionId: string) {
    || RevokeInFlight(s.db, certId, versionId)
    || exists p | p in s.calls :: Marks(s.calls[p], certId, versionId)
  }

  /** The version is in a slot, and its mark is gone or has become a revocation. */
  predicate Settled(db: Db, certId: string, versionId: string) {
    InService(db, certId, versionId) && !MarkedPending(db, certId, versionId)
  }

  // ---------- Operations start before their deadline ----------

  /** An operation that waits can be claimed at some time before its deadline. */
  predicate StartsInTime(o: Operation) {
    && o.deadlineAt.Some? && o.createdAt < o.deadlineAt.value
    && (o.status == Pending && o.nextAttemptAt.Some? ==> o.nextAttemptAt.value < o.deadlineAt.value)
  }

  ghost predicate AllStartInTime(s: State) {
    forall i | i in s.db.ops :: StartsInTime(s.db.ops[i])
  }

  lemma StartsKept(s: State, step: Step)
    requires AllStartInTime(s)
    ensures AllStartInTime(Apply(s, step))
  {
    if ReadStep(step) {
      hide Apply;
      ReadStepFrame(s, step);
    } else if SlotStep(step) {
      SlotStepStarts(s, step);
    } else {
      OtherStepStarts(s, step);
    }
  }

  lemma SlotStepStarts(s: State, step: Step)
    requires AllStartInTime(s) && SlotStep(step)
    ensures AllStartInTime(Apply(s, step))
  {
    hide SlotOf, InSlot, SetSlot, StartsInTime;
    var s' := Apply(s, step);
    forall i | i in s'.db.ops
      ensures StartsInTime(s'.db.ops[i])
    {
      assert i in s.db.ops && StartsInTime(s.db.ops[i]);
      SuccessStarts(s.db.ops[i], if step.Activate? || step.CompleteRevokeOp? then step.now else 0);
    }
  }

  lemma SuccessStarts(o: Operation, now: Time)
    requires StartsInTime(o)
    ensures StartsInTime(Succeed(o, now))
  {
  }

  lemma OtherStepStarts(s: State, step: Step)
    requires AllStartInTime(s) && !ReadStep(step) && !SlotStep(step)
    ensures AllStartInTime(Apply(s, step))
  {
  }

  lemma {:induction false} StartsInRun(s: State, steps: seq<Step>)
    requires AllStartInTime(s)
    ensures AllStartInTime(Exec(s, steps))
    decreases |steps|
  {
    hide AllStartInTime, Apply;
    if steps != [] {
      StartsKept(s, steps[0]);
      StartsInRun(Apply(s, steps[0]), steps[1..]);
    }
  }

  /** In every run, each Pending operation can be claimed at some time before its deadline. */
  lemma PendingIsClaimable(steps: seq<Step>, i: string) returns (t: Time)
    requires i in Exec(Init, steps).db.ops && Exec(Init, steps).db.ops[i].status == Pending
    ensures var o := Exec(Init, steps).db.ops[i];
            Claimable(o, t) && o.deadlineAt.Some? && t < o.deadlineAt.value
  {
    StartsInRun(Init, steps);
    var o := Exec(Init, steps).db.ops[i];
    assert StartsInTime(o);
    t := o.nextAttemptAt.GetOr(o.createdAt);
  }

  // ---------- Attended marks ----------

  lemma Exec1(s: State, step: Step)
    ensures Exec(s, [step]) == Apply(s, step)
  {
    assert [step][1..] == [];
  }

  lemma Exec2(s: State, first: Step, second: Step)
    ensures Exec(s, [first, second]) == Apply(Apply(s, first), second)
  {
    assert [first, second][1..] == [second];
    Exec1(Apply(s, first), second);
  }

  lemma ClearSettles(s: State, p: string, certId: string, versionId: string)
    requires Inv(s) && PendingInSlot(s.db, certId, versionId)
    requires p in s.calls && s.calls[p].Clearing? && Marks(s.calls[p], certId, versionId)
    ensures Settled(Apply(s, Clear(p)).db, certId, versionId)
  {
  }

  lemma CompletionSettles(s: State, i: string, at: Time, now: Time, certId: string, versionId: string)
    requires PendingInSlot(s.db, certId, versionId) && i in s.db.ops && s.db.ops[i].status == Running
    requires s.db.ops[i].kind == Revoke && s.db.ops[i].certId == certId && s.db.ops[i].targetVersionId == versionId
    ensures Settled(Apply(s, CompleteRevokeOp(i, s.db.ops[i].leaseOwner, at, now)).db, certId, versionId)
  {
  }

  /** A call that marked the version may fail to insert its Revoke, and then takes the mark back. */
  lemma CallSettles(s: State, p: string, certId: string, versionId: string) returns (more: seq<Step>)
    requires Inv(s) && PendingInSlot(s.db, certId, versionId)
    requires p in s.calls && Marks(s.calls[p], certId, versionId)
    ensures Settled(Exec(s, more).db, certId, versionId)
  {
    hide MarkedPending, InService, Inv, Settled, DoClear;
    if s.calls[p].Clearing? {
      ClearSettles(s, p, certId, versionId);
      more := [Clear(p)];
      Exec1(s, Clear(p));
    } else {
      var insert := InsertRevoke(p, "", 0, true);
      StepKeeps(s, insert);
      ClearSettles(Apply(s, insert), p, certId, versionId);
      more := [insert, Clear(p)];
      Exec2(s, insert, Clear(p));
    }
  }

  lemma ClaimedIsRunning(s: State, i: string, t: Time)
    requires OneInFlight(s.db.ops) && i in s.db.ops && s.db.ops[i].status == Pending && Claimable(s.db.ops[i], t)
    ensures var s' := Apply(s, ClaimOp(i, "r", t, t + LEASE));
            && s'.db.certs == s.db.certs && i in s'.db.ops && s'.db.ops[i].status == Running
            && SameRequest(s'.db.ops[i], s.db.ops[i]) && s'.db.ops[i].leaseOwner == "r"
  {
    ConflictCountIsZero(s.db.ops, i, t);
  }

  /** A Revoke in flight may be claimed before its deadline and complete. */
  lemma RevokeSettles(s: State, i: string, t: Time, certId: string, versionId: string) returns (more: seq<Step>)
    requires OneInFlight(s.db.ops) && PendingInSlot(s.db, certId, versionId) && i in s.db.ops && InFlight(s.db.ops[i])
    requires s.db.ops[i].kind == Revoke && s.db.ops[i].certId == certId && s.db.ops[i].targetVersionId == versionId
    requires s.db.ops[i].status == Pending ==> Claimable(s.db.ops[i], t)
    ensures Settled(Exec(s, more).db, certId, versionId)
  {
    hide Apply, Claimable, Settled;
    if s.db.ops[i].status == Running {
      var complete := CompleteRevokeOp(i, s.db.ops[i].leaseOwner, t, t);
      CompletionSettles(s, i, t, t, certId, versionId);
      more := [complete];
      Exec1(s, complete);
    } else {
      var claim, complete := ClaimOp(i, "r", t, t + LEASE), CompleteRevokeOp(i, "r", t, t);
      ClaimedIsRunning(s, i, t);
      CompletionSettles(Apply(s, claim), i, t, t, certId, versionId);
      more := [claim, complete];
      Exec2(s, claim, complete);
    }
  }

  lemma AttendedSettles(steps: seq<Step>, certId: string, versionId: string) returns (more: seq<Step>)
    requires PendingInSlot(Exec(Init, steps).db, certId, versionId) && Attended(Exec(Init, steps), certId, versionId)
    ensures Settled(Exec(Exec(Init, steps), more).db, certId, versionId)
  {
    var s := Exec(Init, steps);
    ReachableInv(steps);
    hide Inv, Exec, Settled, InService, MarkedPending;
    if p :| p in s.calls && Marks(s.calls[p], certId, versionId) {
      more := CallSettles(s, p, certId, versionId);
    } else {
      var i :| i in s.db.ops && s.db.ops[i].kind == Revoke && s.db.ops[i].certId == certId
               && s.db.ops[i].targetVersionId == versionId && InFlight(s.db.ops[i]);
      var t := 0;
      if s.db.ops[i].status == Pending {
        t := PendingIsClaimable(steps, i);
      }
      UniqueInRun(Init, steps);
      more := RevokeSettles(s, i, t, certId, versionId);
    }
  }

  lemma {:induction false} LeftForGood(s: State, more: seq<Step>, certId: string, versionId: string)
    requires Inv(s) && LeftPending(s, certId, versionId)
    ensures LeftPending(Exec(s, more), certId, versionId)
    decreases |more|
  {
    hide Inv, Apply, LeftPending;
    if more != [] {
      StepKeeps(s, more[0]);
      LeftPendingKept(s, more[0], certId, versionId);
      LeftForGood(Apply(s, more[0]), more[1..], certId, versionId);
    }
  }

  lemma UnattendedIsLeft(s: State, certId: string, versionId: string)
    requires Inv(s) && PendingInSlot(s.db, certId, versionId) && !Attended(s, certId, versionId)
    ensures LeftPending(s, certId, versionId)
  {
    assert SlotsOk(s.db.certs[certId], s.usedVersions);
  }

  /**
   * Exactly which versions stay pending for good: after any run, a version pending in a slot stays pending in
   * every continuation, for as long as it is in a slot, if and only if nobody attends to it.
   */
  lemma PendingForeverExactly(steps: seq<Step>, certId: string, versionId: string)
    requires PendingInSlot(Exec(Init, steps).db, certId, versionId)
    ensures var s := Exec(Init, steps);
            !Attended(s, certId, versionId)
            <==> forall more :: !Settled(Exec(s, more).db, certId, versionId)
  {
    var s := Exec(Init, steps);
    hide Exec, Inv, PendingInSlot, Attended, InService, MarkedPending;
    if Attended(s, certId, versionId) {
      var more := AttendedSettles(steps, certId, versionId);
    } else {
      ReachableInv(steps);
      UnattendedIsLeft(s, certId, versionId);
      forall more
        ensures !Settled(Exec(s, more).db, certId, versionId)
      {
        LeftForGood(s, more, certId, versionId);
      }
    }
  }

  /** In particular no further request revives it: a pending version is refused. */
  lemma NoSecondRequest(s: State, p: string, certId: string, versionId: string)
    requires PendingInSlot(s.db, certId, versionId)
    ensures Apply(s, BeginRevoke(p, certId, versionId)) == s
  {
  }

  // ---------- A Revoke that ends without revoking ----------

  const FirstRevoke := NewOperation("o3", "c", Revoke, Config, "v2", 0)

  lemma RevokeCreated(s: State)
    requires s.calls == map["p" := Marked2]
    requires "o3" !in s.db.ops && forall i | i in s.db.ops :: !InFlight(s.db.ops[i])
    ensures var s' := Apply(s, InsertRevoke("p", "o3", 0, false));
            && s'.calls == map[] && s'.db == Db(s.db.certs, s.db.ops["o3" := FirstRevoke])
            && s'.revokes == s.revokes + {("c", "v2")}
  {
    hide InFlight, DoMark, DoActivate, DoCompleteRevoke;
  }

  lemma RevokeSwept(s: State)
    requires s.db.ops == BothDone["o3" := FirstRevoke]
    ensures var s' := Apply(s, SweepOps(72 * HOUR));
            && s'.calls == s.calls && s'.revokes == s.revokes && s'.db.certs == s.db.certs
            && s'.db.ops.Keys == {"o1", "o2", "o3"}
            && s'.db.ops["o3"] == Fail(FirstRevoke, TIMEOUT_SUMMARY, 72 * HOUR)
            && forall i | i in s'.db.ops :: !InFlight(s'.db.ops[i])
  {
  }

  /**
   * The active version is marked and gets its Revoke, the deadline sweep fails the Revoke, and the version
   * stays pending for good: it has had a Revoke of its own, so it is not one of the orphans.
   */
  lemma LeftByFailedRevoke() returns (steps: seq<Step>)
    ensures var s := Exec(Init, steps);
            && PendingInSlot(s.db, "c", "v2") && s.db.certs["c"].active == Some(SecondPending)
            && !Attended(s, "c", "v2") && !Orphaned(s, "c", "v2")
            && "o3" in s.db.ops && s.db.ops["o3"].kind == Revoke && s.db.ops["o3"].status == Failed
  {
    hide Exec, Apply, Inv;
    var s: State;
    steps, s := ActiveMarked();
    RevokeCreated(s);
    steps, s := Then(steps, s, InsertRevoke("p", "o3", 0, false));
    RevokeSwept(s);
    steps, s := Then(steps, s, SweepOps(72 * HOUR));
  }
}
