/** Once a Revoke operation for a version exists, the version is never served again. */
module Revocation {
  import opened Options
  import opened Certs
  import opened Operations
  import opened CertificateStore
  import opened CertificateRuns

  predicate Marking(call: Call) {
    call.Marked? || call.Clearing?
  }

  predicate Marks(call: Call, certId: string, versionId: string) {
    Marking(call) && call.certId == certId && call.versionId == versionId
  }

  predicate BlockedIn(v: Option<Version>, versionId: string) {
    v.Some? && v.value.id == versionId ==> !Distributable(v.value)
  }

  predicate PendingIn(v: Option<Version>, versionId: string) {
    v.Some? && v.value.id == versionId ==> v.value.revokePending && v.value.revokedAt.None?
  }

  /** In whichever slot the version is, it is not distributable. */
  predicate Blocked(db: Db, certId: string, versionId: string) {
    certId in db.certs ==>
      BlockedIn(db.certs[certId].active, versionId) && BlockedIn(db.certs[certId].previous, versionId)
  }

  /** In whichever slot the version is, it carries the pending mark and no revocation time. */
  predicate MarkedPending(db: Db, certId: string, versionId: string) {
    certId in db.certs ==>
      PendingIn(db.certs[certId].active, versionId) && PendingIn(db.certs[certId].previous, versionId)
  }

  predicate SlotsOk(c: Cert, used: set<string>) {
    && (c.active.Some? ==> c.active.value.id in used)
    && (c.previous.Some? ==> c.previous.value.id in used)
    && (c.active.Some? && c.previous.Some? ==> c.active.value.id != c.previous.value.id)
  }

  ghost predicate VersionsOk(s: State) {
    && (forall c | c in s.db.certs :: SlotsOk(s.db.certs[c], s.usedVersions))
    && (forall r | r in s.revokes :: r.1 in s.usedVersions)
    && (forall p | p in s.calls
          && (Marking(s.calls[p]) || s.calls[p].Revoking?) :: s.calls[p].versionId in s.usedVersions)
  }

  /** A call between its mark and its insert or clear is the only one, and no Revoke for its version exists. */
  ghost predicate MarksOk(s: State) {
    && (forall p | p in s.calls && Marking(s.calls[p]) ::
          && (s.calls[p].certId, s.calls[p].versionId) !in s.revokes
          && MarkedPending(s.db, s.calls[p].certId, s.calls[p].versionId))
    && (forall p, q | p in s.calls && q in s.calls && p != q && Marking(s.calls[p]) ::
          !Marks(s.calls[q], s.calls[p].certId, s.calls[p].versionId))
  }

  ghost predicate RevokesOk(s: State) {
    && (forall r | r in s.revokes :: Blocked(s.db, r.0, r.1))
    && (forall i | i in s.db.ops && s.db.ops[i].kind == Revoke ::
          (s.db.ops[i].certId, s.db.ops[i].targetVersionId) in s.revokes)
  }

  ghost predicate Inv(s: State) {
    VersionsOk(s) && MarksOk(s) && RevokesOk(s)
  }

  ghost predicate OpsFit(ops: map<string, Operation>, revokes: set<(string, string)>) {
    forall i | i in ops && ops[i].kind == Revoke :: (ops[i].certId, ops[i].targetVersionId) in revokes
  }

  /** Each slot of the new certificate is empty, holds what one of the old slots held, or holds a fresh version. */
  predicate SlotFrom(v: Option<Version>, certs: map<string, Cert>, certId: string, used: set<string>) {
    || v.None?
    || v.value.id !in used
    || (certId in certs && (v == certs[certId].active || v == certs[certId].previous))
  }

  /** Steps that move versions between slots, or bring in fresh ones, keep every block and every mark. */
  lemma VersionsMoved(s: State, db: Db, used: set<string>)
    requires Inv(s) && s.usedVersions <= used && OpsFit(db.ops, s.revokes)
    requires forall c | c in db.certs ::
               && SlotsOk(db.certs[c], used)
               && SlotFrom(db.certs[c].active, s.db.certs, c, s.usedVersions)
               && SlotFrom(db.certs[c].previous, s.db.certs, c, s.usedVersions)
    ensures Inv(s.(db := db, usedVersions := used))
  {
  }

  lemma CallsMoved(s: State, calls: map<string, Call>)
    requires Inv(s)
    requires forall p | p in calls && Marking(calls[p]) ::
               p in s.calls && Marks(s.calls[p], calls[p].certId, calls[p].versionId)
    requires forall p | p in calls && calls[p].Revoking? :: calls[p].versionId in s.usedVersions
    ensures Inv(s.(calls := calls))
  {
  }

  /** Rewrites one version in place. */
  function Rewrite(db: Db, certId: string, slot: Slot, v: Version): Db
    requires certId in db.certs
  {
    db.(certs := db.certs[certId := SetSlot(db.certs[certId], slot, v)])
  }

  /** Rewriting a version touches no other version's flags. */
  lemma RewriteFrame(s: State, certId: string, slot: Slot, v: Version, c: string, id: string)
    requires certId in s.db.certs && Holds(s.db.certs[certId], slot, v.id)
             && SlotsOk(s.db.certs[certId], s.usedVersions)
    requires c != certId || id != v.id
    ensures Blocked(Rewrite(s.db, certId, slot, v), c, id) <==> Blocked(s.db, c, id)
    ensures MarkedPending(Rewrite(s.db, certId, slot, v), c, id) <==> MarkedPending(s.db, c, id)
  {
  }

  lemma RewriteKeepsSlotsOk(s: State, certId: string, slot: Slot, v: Version)
    requires VersionsOk(s) && certId in s.db.certs && Holds(s.db.certs[certId], slot, v.id)
    ensures VersionsOk(s.(db := Rewrite(s.db, certId, slot, v)))
  {
  }

  /** The mark lands only on a version that no other call has marked and no Revoke targets. */
  lemma MarkKeeps(s: State, p: string)
    requires Inv(s)
    ensures Inv(DoMark(s, p))
  {
    var s' := DoMark(s, p);
    if p in s.calls && s.calls[p].Revoking? {
      var c := s.calls[p];
      if MarkPending(s.db, c.certId, c.versionId).result.Err? {
        CallsMoved(s, s.calls - {p});
      } else {
        var slot := SlotOf(s.db.certs[c.certId], c.versionId).value;
        var v := InSlot(s.db.certs[c.certId], slot).value.(revokePending := true);
        assert s'.db == Rewrite(s.db, c.certId, slot, v);
        assert !Blocked(s.db, c.certId, c.versionId) && !MarkedPending(s.db, c.certId, c.versionId);
        RewriteKeepsSlotsOk(s, c.certId, slot, v);
        forall x, id | x != c.certId || id != c.versionId
          ensures Blocked(s'.db, x, id) <==> Blocked(s.db, x, id)
          ensures MarkedPending(s'.db, x, id) <==> MarkedPending(s.db, x, id)
        {
          RewriteFrame(s, c.certId, slot, v, x, id);
        }
      }
    }
  }

  /** A clear undoes its own call's mark, and no Revoke operation needs it. */
  lemma ClearKeeps(s: State, p: string)
    requires Inv(s)
    ensures Inv(DoClear(s, p))
  {
    var s' := DoClear(s, p);
    if p in s.calls && s.calls[p].Clearing? {
      var c := s.calls[p];
      CallsMoved(s, s.calls - {p});
      if ClearPending(s.db, c.certId, c.versionId).result.Ok? {
        var slot := SlotOf(s.db.certs[c.certId], c.versionId).value;
        var v := InSlot(s.db.certs[c.certId], slot).value.(revokePending := false);
        assert s'.db == Rewrite(s.db, c.certId, slot, v);
        RewriteKeepsSlotsOk(s, c.certId, slot, v);
        forall x, id | x != c.certId || id != c.versionId
          ensures Blocked(s'.db, x, id) <==> Blocked(s.db, x, id)
          ensures MarkedPending(s'.db, x, id) <==> MarkedPending(s.db, x, id)
        {
          RewriteFrame(s, c.certId, slot, v, x, id);
        }
      }
    }
  }

  /** Completing a revocation replaces the pending mark by the revocation time. */
  lemma CompleteKeeps(s: State, opId: string, owner: string, at: Time, now: Time)
    requires Inv(s)
    ensures Inv(DoCompleteRevoke(s, opId, owner, at, now))
  {
  }

  lemma InsertRevokeKeeps(s: State, p: string, opId: string, now: Time, fails: bool)
    requires Inv(s)
    ensures Inv(DoInsertRevoke(s, p, opId, now, fails))
  {
    var s' := DoInsertRevoke(s, p, opId, now, fails);
    if p in s.calls && s.calls[p].Marked? {
      var c := s.calls[p];
      if s'.revokes == s.revokes {
        CallsMoved(s, s'.calls);
      } else {
        assert Blocked(s.db, c.certId, c.versionId);
      }
    }
  }

  lemma ActivateKeeps(s: State, opId: string, owner: string, version: Version, expected: Option<string>, now: Time)
    requires Inv(s)
    ensures Inv(DoActivate(s, opId, owner, version, expected, now))
  {
    var s' := DoActivate(s, opId, owner, version, expected, now);
    if s' != s {
      VersionsMoved(s, s'.db, s'.usedVersions);
    }
  }

  lemma StepKeeps(s: State, step: Step)
    requires Inv(s)
    ensures Inv(Apply(s, step))
  {
    hide Inv, DoMark, DoClear, DoCompleteRevoke, DoInsertRevoke, DoActivate;
    var s' := Apply(s, step);
    match step
    case Mark(p) => MarkKeeps(s, p);
    case Clear(p) => ClearKeeps(s, p);
    case InsertRevoke(p, opId, now, fails) => InsertRevokeKeeps(s, p, opId, now, fails);
    case CompleteRevokeOp(opId, owner, at, now) => CompleteKeeps(s, opId, owner, at, now);
    case Activate(opId, owner, version, expected, now) => ActivateKeeps(s, opId, owner, version, expected, now);
    case _ => OtherStepKeeps(s, step);
  }

  predicate Other(step: Step) {
    !step.Mark? && !step.Clear? && !step.InsertRevoke? && !step.CompleteRevokeOp? && !step.Activate?
  }

  lemma OtherStepKeeps(s: State, step: Step)
    requires Inv(s) && Other(step)
    ensures Inv(Apply(s, step))
  {
    var s' := Apply(s, step);
    OtherFits(s, step);
    OtherCallsFit(s, step);
    VersionsMoved(s, s'.db, s.usedVersions);
    var s1 := s.(db := s'.db);
    CallsMoved(s1, s'.calls);
    assert s' == s1.(calls := s'.calls, usedCerts := s'.usedCerts);
  }

  ghost predicate DbFits(s: State, s': State) {
    && s'.usedVersions == s.usedVersions && s'.revokes == s.revokes
    && OpsFit(s'.db.ops, s.revokes)
    && (forall c | c in s'.db.certs ::
          && SlotsOk(s'.db.certs[c], s.usedVersions)
          && SlotFrom(s'.db.certs[c].active, s.db.certs, c, s.usedVersions)
          && SlotFrom(s'.db.certs[c].previous, s.db.certs, c, s.usedVersions))
  }

  lemma OtherFits(s: State, step: Step)
    requires VersionsOk(s) && RevokesOk(s) && Other(step)
    ensures DbFits(s, Apply(s, step))
  {
    if OpsStep(step) {
      hide Apply;
      OpsStepFrame(s, step);
    } else if ReadStep(step) {
      hide Apply;
      ReadStepFrame(s, step);
    } else {
      OtherWritesFit(s, step);
    }
  }

  lemma OtherWritesFit(s: State, step: Step)
    requires VersionsOk(s) && RevokesOk(s) && Other(step) && !OpsStep(step) && !ReadStep(step)
    ensures DbFits(s, Apply(s, step))
  {
    if step.RollbackTo? {
      RollbackFits(s, step.certId, step.versionId);
    } else {
      InsertsFit(s, step);
    }
  }

  lemma RollbackFits(s: State, certId: string, versionId: string)
    requires VersionsOk(s) && RevokesOk(s)
    ensures DbFits(s, Db'(s, ActivatePrevious(s.db, certId, versionId)))
  {
  }

  lemma InsertsFit(s: State, step: Step)
    requires VersionsOk(s) && RevokesOk(s)
    requires step.CreateCert? || step.DeleteCert? || step.Insert? || step.WriteUpdate?
    ensures DbFits(s, Apply(s, step))
  {
    hide HasInFlight;
  }

  lemma OtherCallsFit(s: State, step: Step)
    requires VersionsOk(s) && Other(step)
    ensures var s' := Apply(s, step);
            && (forall p | p in s'.calls && Marking(s'.calls[p]) :: p in s.calls && s.calls[p] == s'.calls[p])
            && (forall p | p in s'.calls && s'.calls[p].Revoking? :: s'.calls[p].versionId in s.usedVersions)
  {
    if ReadStep(step) {
      hide Apply;
      ReadStepFrame(s, step);
      var s' := Apply(s, step);
      forall p | p in s'.calls && s'.calls[p].Revoking?
        ensures s'.calls[p].versionId in s.usedVersions
      {
        if p !in s.calls || s'.calls[p] != s.calls[p] {
          assert SlotsOk(s.db.certs[s'.calls[p].certId], s.usedVersions);
        }
      }
    } else {
      CallsShrink(s, step);
    }
  }

  lemma CallsShrink(s: State, step: Step)
    requires Other(step) && !ReadStep(step)
    ensures var s' := Apply(s, step); forall p | p in s'.calls :: p in s.calls && s'.calls[p] == s.calls[p]
  {
  }

  lemma RevokesGrow(s: State, step: Step)
    ensures s.revokes <= Apply(s, step).revokes
  {
  }

  lemma {:induction false} RunKeeps(s: State, steps: seq<Step>)
    requires Inv(s)
    ensures Inv(Exec(s, steps)) && s.revokes <= Exec(s, steps).revokes
    decreases |steps|
  {
    hide Inv, Apply;
    if steps != [] {
      RevokesGrow(s, steps[0]);
      StepKeeps(s, steps[0]);
      RunKeeps(Apply(s, steps[0]), steps[1..]);
    }
  }

  /**
   * Revocation sticks: from the moment a Revoke operation for a version exists, after any further
   * steps, no bundle download of either slot serves that version.
   */
  lemma RevocationSticks(before: seq<Step>, after: seq<Step>, opId: string, slot: Slot)
    requires opId in Exec(Init, before).db.ops && Exec(Init, before).db.ops[opId].kind == Revoke
    ensures var o := Exec(Init, before).db.ops[opId];
            var db := Exec(Exec(Init, before), after).db;
            o.certId in db.certs ==>
              Bundle(db.certs[o.certId], slot).None? || Bundle(db.certs[o.certId], slot).value.id != o.targetVersionId
  {
    assert Inv(Init);
    RunKeeps(Init, before);
    RunKeeps(Exec(Init, before), after);
    var o := Exec(Init, before).db.ops[opId];
    assert (o.certId, o.targetVersionId) in Exec(Init, before).revokes;
    assert Blocked(Exec(Exec(Init, before), after).db, o.certId, o.targetVersionId);
  }
}
