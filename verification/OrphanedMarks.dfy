/**
 * Revocation requests that leave their pending mark behind without a Revoke operation of their own: the
 * request found a Revoke of the certificate's other version in flight, or its process died, or its clear
 * failed. Nothing ever takes such a mark away again.
 */
module OrphanedMarks {
  import opened Options
  import opened Certs
  import opened Operations
  import opened CertificateStore
  import opened CertificateRuns
  import opened Revocation

  /** The version is in one of the certificate's slots. */
  predicate InService(db: Db, certId: string, versionId: string) {
    certId in db.certs && SlotOf(db.certs[certId], versionId).Some?
  }

  /** No Revoke operation, no call that would create one or clear the mark; pending if it is in a slot at all. */
  ghost predicate Abandoned(s: State, certId: string, versionId: string) {
    && versionId in s.usedVersions && MarkedPending(s.db, certId, versionId)
    && (certId, versionId) !in s.revokes
    && forall p | p in s.calls :: !Marks(s.calls[p], certId, versionId)
  }

  predicate RevokeInFlight(db: Db, certId: string, versionId: string) {
    exists i | i in db.ops ::
      db.ops[i].kind == Revoke && db.ops[i].certId == certId && db.ops[i].targetVersionId == versionId
      && InFlight(db.ops[i])
  }

  /** As Abandoned, but Revoke operations of the version may have been created and have ended. */
  ghost predicate LeftPending(s: State, certId: string, versionId: string) {
    && versionId in s.usedVersions && MarkedPending(s.db, certId, versionId)
    && !RevokeInFlight(s.db, certId, versionId)
    && forall p | p in s.calls :: !Marks(s.calls[p], certId, versionId)
  }

  /** A version in a slot, marked pending, that has no Revoke operation and that no call looks after. */
  ghost predicate Orphaned(s: State, certId: string, versionId: string) {
    InService(s.db, certId, versionId) && Abandoned(s, certId, versionId)
  }

  /**
   * The call that marked the version ends without a Revoke and without a clear: its process disappears or
   * its clear fails, or its look-up finds a Revoke in flight, which then is of another version.
   */
  ghost predicate Deserts(s: State, step: Step, certId: string, versionId: string) {
    exists p | p in s.calls && Marks(s.calls[p], certId, versionId) ::
      || step == Disappear(p)
      || (step.InsertRevoke? && step.p == p && s.calls[p].Marked? && !step.fails && KindInFlight(s.db, certId, Revoke))
  }

  /** No step creates a Revoke for a version that was left pending, clears its mark, or completes its revocation. */
  lemma LeftPendingKept(s: State, step: Step, certId: string, versionId: string)
    requires Inv(s) && LeftPending(s, certId, versionId)
    ensures LeftPending(Apply(s, step), certId, versionId)
  {
    hide DoMark, DoClear, DoCompleteRevoke, DoInsertRevoke, DoActivate, LeftPending, Inv;
    match step
    case Mark(p) => MarkKept(s, p, certId, versionId);
    case Clear(p) => ClearKept(s, p, certId, versionId);
    case InsertRevoke(p, opId, now, fails) => InsertKept(s, p, opId, now, fails, certId, versionId);
    case CompleteRevokeOp(opId, owner, at, now) => CompleteKept(s, opId, owner, at, now, certId, versionId);
    case Activate(opId, owner, version, expected, now) => ActivateKept(s, opId, owner, version, expected, now, certId,
        versionId);
    case _ => OtherKept(s, step, certId, versionId);
  }

  lemma MarkKept(s: State, p: string, certId: string, versionId: string)
    requires Inv(s) && LeftPending(s, certId, versionId)
    ensures LeftPending(DoMark(s, p), certId, versionId)
  {
  }

  lemma ClearKept(s: State, p: string, certId: string, versionId: string)
    requires Inv(s) && LeftPending(s, certId, versionId)
    ensures LeftPending(DoClear(s, p), certId, versionId)
  {
  }

  lemma CompleteKept(s: State, opId: string, owner: string, at: Time, now: Time, certId: string, versionId: string)
    requires Inv(s) && LeftPending(s, certId, versionId)
    ensures LeftPending(DoCompleteRevoke(s, opId, owner, at, now), certId, versionId)
  {
  }

  lemma InsertKept(s: State, p: string, opId: string, now: Time, fails: bool, certId: string, versionId: string)
    requires Inv(s) && LeftPending(s, certId, versionId)
    ensures LeftPending(DoInsertRevoke(s, p, opId, now, fails), certId, versionId)
  {
  }

  lemma ActivateKept(s: State, opId: string, owner: string, version: Version, expected: Option<string>, now: Time,
                     certId: string, versionId: string)
    requires Inv(s) && LeftPending(s, certId, versionId)
    ensures LeftPending(DoActivate(s, opId, owner, version, expected, now), certId, versionId)
  {
  }

  lemma OtherKept(s: State, step: Step, certId: string, versionId: string)
    requires Inv(s) && LeftPending(s, certId, versionId) && Other(step)
    ensures LeftPending(Apply(s, step), certId, versionId)
  {
    hide Apply, RevokeInFlight;
    OtherFits(s, step);
    OtherCallsFit(s, step);
    if RevokeInFlight(Apply(s, step).db, certId, versionId) {
      OtherStartNoRevoke(s, step, certId, versionId);
    }
  }

  lemma OtherStartNoRevoke(s: State, step: Step, certId: string, versionId: string)
    requires Other(step) && RevokeInFlight(Apply(s, step).db, certId, versionId)
    ensures RevokeInFlight(s.db, certId, versionId)
  {
    if OpsStep(step) {
      hide Apply;
      OpsStepFrame(s, step);
    } else if ReadStep(step) {
      hide Apply;
      ReadStepFrame(s, step);
    }
  }

  lemma AbandonedIsLeft(s: State, certId: string, versionId: string)
    requires Inv(s)
    ensures Abandoned(s, certId, versionId)
            <==> LeftPending(s, certId, versionId) && (certId, versionId) !in s.revokes
  {
  }

  lemma OnlyMarkedCallsRevoke(s: State, step: Step, certId: string, versionId: string)
    requires (certId, versionId) !in s.revokes && forall p | p in s.calls :: !Marks(s.calls[p], certId, versionId)
    ensures (certId, versionId) !in Apply(s, step).revokes
  {
  }

  lemma AbandonedKept(s: State, step: Step, certId: string, versionId: string)
    requires Inv(s) && Abandoned(s, certId, versionId)
    ensures Abandoned(Apply(s, step), certId, versionId)
  {
    hide Inv, Apply, LeftPending, MarkedPending, Marks;
    AbandonedIsLeft(s, certId, versionId);
    StepKeeps(s, step);
    LeftPendingKept(s, step, certId, versionId);
    OnlyMarkedCallsRevoke(s, step, certId, versionId);
    AbandonedIsLeft(Apply(s, step), certId, versionId);
  }

  lemma {:induction false} AbandonedForGood(s: State, steps: seq<Step>, certId: string, versionId: string)
    requires Inv(s) && Abandoned(s, certId, versionId)
    ensures Abandoned(Exec(s, steps), certId, versionId)
    decreases |steps|
  {
    if steps != [] {
      StepKeeps(s, steps[0]);
      AbandonedKept(s, steps[0], certId, versionId);
      AbandonedForGood(Apply(s, steps[0]), steps[1..], certId, versionId);
    }
  }

  /**
   * An orphaned mark stays for good: for as long as the version is in a slot it is pending, never served,
   * and without a Revoke operation, whatever happens.
   */
  lemma OrphanedForGood(s: State, steps: seq<Step>, certId: string, versionId: string)
    requires Inv(s) && Orphaned(s, certId, versionId)
    ensures InService(Exec(s, steps).db, certId, versionId) ==> Orphaned(Exec(s, steps), certId, versionId)
  {
    AbandonedForGood(s, steps, certId, versionId);
  }

  /** Deserting is what abandons a version that was marked. */
  lemma DesertedIsAbandoned(s: State, step: Step, certId: string, versionId: string)
    requires Inv(s) && Deserts(s, step, certId, versionId)
    ensures Abandoned(Apply(s, step), certId, versionId)
  {
    var p :| p in s.calls && Marks(s.calls[p], certId, versionId)
             && (step == Disappear(p)
                 || (step.InsertRevoke? && step.p == p && s.calls[p].Marked? && !step.fails
                     && KindInFlight(s.db, certId, Revoke)));
    assert Apply(s, step) == End(s, p);
  }

  /** A version in a slot was not abandoned before the step, so the step deserted it. */
  lemma OnlyDeserting(s: State, step: Step, certId: string, versionId: string)
    requires Inv(s) && Orphaned(Apply(s, step), certId, versionId)
    ensures Orphaned(s, certId, versionId) || Deserts(s, step, certId, versionId)
  {
    hide DoMark, DoClear, DoCompleteRevoke, DoInsertRevoke, DoActivate, Inv, Abandoned, InService;
    match step
    case Mark(p) => OrphanBeforeMark(s, p, certId, versionId);
    case Clear(p) => OrphanBeforeClear(s, p, certId, versionId);
    case InsertRevoke(p, opId, now, fails) => OrphanBeforeInsert(s, p, opId, now, fails, certId, versionId);
    case CompleteRevokeOp(opId, owner, at, now) => OrphanBeforeComplete(s, opId, owner, at, now, certId, versionId);
    case Activate(opId, owner, version, expected, now) =>
      OrphanBeforeActivate(s, opId, owner, version, expected, now, certId, versionId);
    case _ => OrphanBeforeOther(s, step, certId, versionId);
  }

  lemma OrphanBeforeMark(s: State, p: string, certId: string, versionId: string)
    requires Inv(s) && Orphaned(DoMark(s, p), certId, versionId)
    ensures Orphaned(s, certId, versionId)
  {
    var s' := DoMark(s, p);
    if p in s.calls {
      assert p in s'.calls ==> !Marks(s'.calls[p], certId, versionId);
    }
    forall q | q in s.calls && q != p
      ensures !Marks(s.calls[q], certId, versionId)
    {
      assert q in s'.calls && s'.calls[q] == s.calls[q];
    }
  }

  lemma OrphanBeforeClear(s: State, p: string, certId: string, versionId: string)
    requires Inv(s) && Orphaned(DoClear(s, p), certId, versionId)
    ensures Orphaned(s, certId, versionId)
  {
    var s' := DoClear(s, p);
    if p in s.calls {
      assert p in s'.calls ==> !Marks(s'.calls[p], certId, versionId);
    }
    forall q | q in s.calls && q != p
      ensures !Marks(s.calls[q], certId, versionId)
    {
      assert q in s'.calls && s'.calls[q] == s.calls[q];
    }
  }

  lemma OrphanBeforeInsert(s: State, p: string, opId: string, now: Time, fails: bool, certId: string,
                           versionId: string)
    requires Inv(s) && Orphaned(DoInsertRevoke(s, p, opId, now, fails), certId, versionId)
    ensures Orphaned(s, certId, versionId) || Deserts(s, InsertRevoke(p, opId, now, fails), certId, versionId)
  {
    var s' := DoInsertRevoke(s, p, opId, now, fails);
    if p in s.calls {
      assert p in s'.calls ==> !Marks(s'.calls[p], certId, versionId);
    }
    forall q | q in s.calls && q != p
      ensures !Marks(s.calls[q], certId, versionId)
    {
      assert q in s'.calls && s'.calls[q] == s.calls[q];
    }
  }

  lemma OrphanBeforeComplete(s: State, opId: string, owner: string, at: Time, now: Time, certId: string,
                             versionId: string)
    requires Inv(s) && Orphaned(DoCompleteRevoke(s, opId, owner, at, now), certId, versionId)
    ensures Orphaned(s, certId, versionId)
  {
  }

  lemma OrphanBeforeActivate(s: State, opId: string, owner: string, version: Version, expected: Option<string>,
                             now: Time, certId: string, versionId: string)
    requires Inv(s) && Orphaned(DoActivate(s, opId, owner, version, expected, now), certId, versionId)
    ensures Orphaned(s, certId, versionId)
  {
  }

  lemma OrphanBeforeOther(s: State, step: Step, certId: string, versionId: string)
    requires Inv(s) && Other(step) && Orphaned(Apply(s, step), certId, versionId)
    ensures Orphaned(s, certId, versionId) || Deserts(s, step, certId, versionId)
  {
    OtherFits(s, step);
    OtherCallsStay(s, step);
    hide Apply;
  }

  lemma OtherCallsStay(s: State, step: Step)
    requires Other(step)
    ensures forall p | p in s.calls && Marking(s.calls[p]) && step != Disappear(p) ::
              p in Apply(s, step).calls && Apply(s, step).calls[p] == s.calls[p]
  {
  }

  /** Exactly which steps orphan a version, over all steps: those that desert it while it is in a slot. */
  lemma OrphanedExactly(s: State, step: Step, certId: string, versionId: string)
    requires Inv(s) && InService(Apply(s, step).db, certId, versionId)
    ensures Orphaned(Apply(s, step), certId, versionId)
            <==> Orphaned(s, certId, versionId) || Deserts(s, step, certId, versionId)
  {
    hide Inv, Apply, Abandoned, Deserts;
    if Orphaned(Apply(s, step), certId, versionId) {
      OnlyDeserting(s, step, certId, versionId);
    } else if Orphaned(s, certId, versionId) {
      AbandonedKept(s, step, certId, versionId);
    } else if Deserts(s, step, certId, versionId) {
      DesertedIsAbandoned(s, step, certId, versionId);
    }
  }

  ghost predicate DesertedIn(s: State, steps: seq<Step>, certId: string, versionId: string)
    decreases |steps|
  {
    steps != [] && (Deserts(s, steps[0], certId, versionId)
                    || DesertedIn(Apply(s, steps[0]), steps[1..], certId, versionId))
  }

  /** Over whole runs: a version in a slot is orphaned if and only if a step of the run deserted it. */
  lemma {:induction false} OrphanedInRunExactly(s: State, steps: seq<Step>, certId: string, versionId: string)
    requires Inv(s) && !Orphaned(s, certId, versionId)
    ensures InService(Exec(s, steps).db, certId, versionId) ==>
              (Orphaned(Exec(s, steps), certId, versionId) <==> DesertedIn(s, steps, certId, versionId))
    decreases |steps|
  {
    hide Inv, Apply, Deserts, Abandoned;
    if steps != [] {
      var s' := Apply(s, steps[0]);
      StepKeeps(s, steps[0]);
      if Deserts(s, steps[0], certId, versionId) {
        DesertedIsAbandoned(s, steps[0], certId, versionId);
        AbandonedForGood(s', steps[1..], certId, versionId);
      } else if Orphaned(s', certId, versionId) {
        OnlyDeserting(s, steps[0], certId, versionId);
      } else {
        OrphanedInRunExactly(s', steps[1..], certId, versionId);
      }
    }
  }

  // ---------- A run that orphans a mark ----------

  const Config := Snapshot(["a.example"], "iss", "dns", "ec_p256")
  const First := Version("v1", Config, 0, DAY, false, None)
  const Second := Version("v2", Config, 0, DAY, false, None)

  function Submitted(opId: string, kind: Kind, target: string): Operation {
    NewOperation(opId, "c", kind, Config, target, 0)
  }

  function Done(opId: string): Operation {
    Succeed(Claim(Submitted(opId, Issue, ""), "r", 0, LEASE), 0)
  }

  function CertWith(active: Option<Version>, previous: Option<Version>): Cert {
    Cert("c", Config, 30, [], active, previous)
  }

  lemma IssueSubmitted(s: State, opId: string)
    requires s.calls == map[] && "c" in s.db.certs && s.db.certs["c"].desired == Config
    requires opId !in s.db.ops && !HasInFlight(s.db.ops, "c")
    ensures DoInsert(DoBeginIssue(s, "p", "c"), "p", opId, 0) == WithOp(s, Submitted(opId, Issue, ""))
  {
  }

  /** A whole issuance: submitted, created, claimed and activated. */
  lemma IssueRun(steps: seq<Step>, s: State, opId: string, v: Version, expected: Option<string>)
    returns (steps': seq<Step>, s': State)
    requires Exec(Init, steps) == s && s.calls == map[] && "c" in s.db.certs && s.db.certs["c"].desired == Config
    requires opId !in s.db.ops && forall i | i in s.db.ops :: !InFlight(s.db.ops[i])
    requires Distributable(v) && v.snapshot == Config && v.id !in s.usedVersions
    requires if expected.None? then s.db.certs["c"].active.None? else Holds(s.db.certs["c"], Active, expected.value)
    ensures Exec(Init, steps') == s' && s'.calls == map[] && s'.revokes == s.revokes
    ensures s'.usedVersions == s.usedVersions + {v.id} && s'.db.ops == s.db.ops[opId := Done(opId)]
    ensures var c := s.db.certs["c"];
            s'.db.certs == s.db.certs["c" :=
                c.(active := Some(v), previous := if expected.None? then c.previous else c.active)]
  {
    hide DoMark, DoClear, DoInsertRevoke, DoCompleteRevoke, DoInsert, DoBeginIssue, TryClaim, Exec;
    steps', s' := Then(steps, s, BeginIssue("p", "c"));
    steps', s' := Then(steps', s', Insert("p", opId, 0));
    IssueSubmitted(s, opId);
    steps', s' := Then(steps', s', ClaimOp(opId, "r", 0, LEASE));
    ClaimAlone(s, Submitted(opId, Issue, ""), "r", 0, LEASE);
    steps', s' := Then(steps', s', Activate(opId, "r", v, expected, 0));
  }

  lemma SecondIssued() returns (steps: seq<Step>, s: State)
    ensures Exec(Init, steps) == s && s.calls == map[] && s.revokes == {}
    ensures s.db == Db(map["c" := CertWith(Some(Second), Some(First))], map["o1" := Done("o1"), "o2" := Done("o2")])
  {
    steps, s := Then([], Init, CreateCert("c", Config, 30, []));
    steps, s := IssueRun(steps, s, "o1", First, None);
    steps, s := IssueRun(steps, s, "o2", Second, Some("v1"));
  }

  const Revoking1 := Revoking("c", "v1", Config)
  const Revoking2 := Revoking("c", "v2", Config)
  const Marked1 := Marked("c", "v1", Config)
  const Marked2 := Marked("c", "v2", Config)

  lemma BothRequested() returns (steps: seq<Step>, s: State)
    ensures Exec(Init, steps) == s && s.revokes == {} && s.calls == map["p" := Revoking1, "q" := Revoking2]
    ensures s.db == Db(map["c" := CertWith(Some(Second), Some(First))], map["o1" := Done("o1"), "o2" := Done("o2")])
  {
    steps, s := SecondIssued();
    steps, s := Then(steps, s, BeginRevoke("p", "c", "v1"));
    assert s.calls == map["p" := Revoking1];
    steps, s := Then(steps, s, BeginRevoke("q", "c", "v2"));
  }

  const BothDone := map["o1" := Done("o1"), "o2" := Done("o2")]
  const FirstPending := First.(revokePending := true)
  const SecondPending := Second.(revokePending := true)

  lemma FirstMarked(s: State)
    requires s.calls == map["p" := Revoking1, "q" := Revoking2]
    requires s.db == Db(map["c" := CertWith(Some(Second), Some(First))], BothDone)
    ensures Apply(s, Mark("p")) == s.(calls := map["p" := Marked1, "q" := Revoking2],
                                      db := Db(map["c" := CertWith(Some(Second), Some(FirstPending))], BothDone))
  {
  }

  lemma SecondMarked(s: State)
    requires s.calls == map["p" := Marked1, "q" := Revoking2]
    requires s.db == Db(map["c" := CertWith(Some(Second), Some(FirstPending))], BothDone)
    ensures Apply(s, Mark("q")) == s.(calls := map["p" := Marked1, "q" := Marked2],
                                      db := Db(map["c" := CertWith(Some(SecondPending), Some(FirstPending))], BothDone))
  {
  }

  lemma BothMarked() returns (steps: seq<Step>, s: State)
    ensures Exec(Init, steps) == s && s.revokes == {} && s.calls == map["p" := Marked1, "q" := Marked2]
    ensures s.db == Db(map["c" := CertWith(Some(SecondPending), Some(FirstPending))], BothDone)
  {
    hide Apply, Done, CertWith;
    steps, s := BothRequested();
    FirstMarked(s);
    steps, s := Then(steps, s, Mark("p"));
    SecondMarked(s);
    steps, s := Then(steps, s, Mark("q"));
  }

  lemma FirstRevokeCreated(s: State)
    requires s.calls == map["p" := Marked1, "q" := Marked2]
    requires "o3" !in s.db.ops && forall i | i in s.db.ops :: !InFlight(s.db.ops[i])
    ensures var s' := Apply(s, InsertRevoke("p", "o3", 0, false));
            && s'.calls == map["q" := Marked2] && s'.db.certs == s.db.certs
            && "o3" in s'.db.ops && s'.db.ops["o3"] == Submitted("o3", Revoke, "v1")
  {
  }

  lemma OneRevokeOneMarked() returns (steps: seq<Step>, s: State)
    ensures Exec(Init, steps) == s && s.calls == map["q" := Marked2]
    ensures s.db.certs == map["c" := CertWith(Some(SecondPending), Some(FirstPending))]
    ensures "o3" in s.db.ops && s.db.ops["o3"] == Submitted("o3", Revoke, "v1")
  {
    hide Apply, Exec;
    steps, s := BothMarked();
    FirstRevokeCreated(s);
    steps, s := Then(steps, s, InsertRevoke("p", "o3", 0, false));
  }

  lemma SecondDeserted(s: State)
    requires s.calls == map["q" := Marked2]
    requires "o3" in s.db.ops && s.db.ops["o3"] == Submitted("o3", Revoke, "v1")
    ensures Deserts(s, InsertRevoke("q", "o4", 0, false), "c", "v2")
    ensures Apply(s, InsertRevoke("q", "o4", 0, false)) == End(s, "q")
  {
    assert KindInFlight(s.db, "c", Revoke);
    assert Marks(s.calls["q"], "c", "v2");
  }

  lemma ReachableInv(steps: seq<Step>)
    ensures Inv(Exec(Init, steps))
  {
    assert Inv(Init);
    RunKeeps(Init, steps);
  }

  /** Two requests for the two versions of a certificate at the same time: the active version ends orphaned. */
  lemma OrphanHappens() returns (steps: seq<Step>)
    ensures var s := Exec(Init, steps);
            && Orphaned(s, "c", "v2")
            && "c" in s.db.certs && s.db.certs["c"].active == Some(SecondPending)
  {
    hide Inv, Abandoned, Deserts, Apply, Exec;
    var s: State;
    steps, s := OneRevokeOneMarked();
    ReachableInv(steps);
    SecondDeserted(s);
    DesertedIsAbandoned(s, InsertRevoke("q", "o4", 0, false), "c", "v2");
    steps, s := Then(steps, s, InsertRevoke("q", "o4", 0, false));
  }

  lemma ActiveMarked() returns (steps: seq<Step>, s: State)
    ensures Exec(Init, steps) == s && s.calls == map["p" := Marked2]
    ensures s.db == Db(map["c" := CertWith(Some(SecondPending), Some(First))], BothDone)
  {
    steps, s := SecondIssued();
    steps, s := Then(steps, s, BeginRevoke("p", "c", "v2"));
    steps, s := Then(steps, s, Mark("p"));
  }

  /** A process that dies between its mark and its insert: the active version ends orphaned without any Revoke. */
  lemma OrphanedByCrash() returns (steps: seq<Step>)
    ensures var s := Exec(Init, steps);
            && Orphaned(s, "c", "v2") && s.calls == map[]
            && (forall i | i in s.db.ops :: s.db.ops[i].kind != Revoke)
            && "c" in s.db.certs && s.db.certs["c"].active == Some(SecondPending)
  {
    hide Inv, Abandoned, Deserts, Exec;
    var s: State;
    steps, s := ActiveMarked();
    ReachableInv(steps);
    FirstDeserted(s);
    DesertedIsAbandoned(s, Disappear("p"), "c", "v2");
    steps, s := Then(steps, s, Disappear("p"));
  }

  lemma FirstDeserted(s: State)
    requires s.calls == map["p" := Marked2]
    ensures Deserts(s, Disappear("p"), "c", "v2")
  {
    assert Marks(s.calls["p"], "c", "v2");
  }
}
