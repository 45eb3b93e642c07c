/** How the desired configuration and the issued snapshots are kept apart. */
module DesiredActive {
  import opened Options
  import opened Certs
  import opened Operations
  import opened CertificateStore
  import opened CertificateRuns

  /** While an Issue is in flight, the desired issue fields are the ones it is going to issue. */
  ghost predicate Separated(s: State) {
    forall i | i in s.db.ops && s.db.ops[i].kind == Issue && InFlight(s.db.ops[i])
        && s.db.ops[i].certId in s.db.certs ::
      s.db.certs[s.db.ops[i].certId].desired == s.db.ops[i].snapshot
  }

  ghost predicate IdsOk(s: State) {
    && (forall c | c in s.db.certs :: c in s.usedCerts)
    && (forall i | i in s.db.ops :: s.db.ops[i].certId in s.usedCerts)
    && (forall p | p in s.calls :: s.calls[p].certId in s.usedCerts)
  }

  /**
   * What the two writes of a manager call can check at the moment they land: an Issue insert, that the
   * desired fields are still the ones it read; an edit, that no Issue is in flight or that it changes
   * no issue field.
   */
  ghost predicate Undisturbed(s: State, step: Step) {
    match step
    case Insert(p, opId, now) =>
      p in s.calls && s.calls[p].Submitting? && !s.calls[p].renewal
      && opId !in s.db.ops && !HasInFlight(s.db.ops, s.calls[p].certId) && s.calls[p].certId in s.db.certs ==>
        s.db.certs[s.calls[p].certId].desired == s.calls[p].snapshot
    case WriteUpdate(p) =>
      p in s.calls && s.calls[p].Updating? && s.calls[p].certId in s.db.certs
      && KindInFlight(s.db, s.calls[p].certId, Issue) ==>
        s.db.certs[s.calls[p].certId].desired == s.calls[p].desired
    case _ => true
  }

  lemma IdsKept(s: State, step: Step)
    requires IdsOk(s)
    ensures IdsOk(Apply(s, step))
  {
    if OpsStep(step) {
      hide Apply;
      OpsStepFrame(s, step);
    } else if ReadStep(step) {
      hide Apply;
      ReadStepFrame(s, step);
    } else if SlotStep(step) {
      hide Apply;
      SlotStepFrame(s, step);
    } else {
      WritesKeepIds(s, step);
    }
  }

  lemma WritesKeepIds(s: State, step: Step)
    requires IdsOk(s) && !OpsStep(step) && !ReadStep(step) && !SlotStep(step)
    ensures IdsOk(Apply(s, step))
  {
  }

  lemma InsertExact(s: State, p: string, opId: string, now: Time)
    requires Separated(s)
    ensures Separated(DoInsert(s, p, opId, now)) <==> Undisturbed(s, Insert(p, opId, now))
  {
    var s' := DoInsert(s, p, opId, now);
    if !Undisturbed(s, Insert(p, opId, now)) {
      var c := s.calls[p];
      assert s'.db.ops[opId] == SubmittedOperation(c, opId, now);
    }
  }

  lemma WriteExact(s: State, p: string)
    requires Separated(s)
    ensures Separated(DoWriteUpdate(s, p)) <==> Undisturbed(s, WriteUpdate(p))
  {
  }

  /** No other step changes a desired field or puts an Issue in flight. */
  lemma OtherStepsKeep(s: State, step: Step)
    requires Separated(s) && IdsOk(s) && !step.Insert? && !step.WriteUpdate?
    ensures Separated(Apply(s, step))
  {
    if OpsStep(step) {
      hide Apply;
      OpsStepFrame(s, step);
    } else if ReadStep(step) {
      hide Apply;
      ReadStepFrame(s, step);
    } else if SlotStep(step) {
      hide Apply;
      SlotStepFrame(s, step);
    } else {
      OtherWritesFrame(s, step);
    }
  }

  lemma OtherWritesFrame(s: State, step: Step)
    requires IdsOk(s) && !step.Insert? && !step.WriteUpdate? && !OpsStep(step) && !ReadStep(step) && !SlotStep(step)
    ensures var s' := Apply(s, step);
            && (forall c | c in s'.db.certs && c in s.db.certs :: s'.db.certs[c].desired == s.db.certs[c].desired)
            && (forall c | c in s'.db.certs && c !in s.db.certs :: c !in s.usedCerts)
            && (forall i | i in s'.db.ops && s'.db.ops[i].kind == Issue && InFlight(s'.db.ops[i]) ::
                  i in s.db.ops && s.db.ops[i] == s'.db.ops[i])
  {
  }

  lemma StepExact(s: State, step: Step)
    requires Separated(s) && IdsOk(s)
    ensures Separated(Apply(s, step)) <==> Undisturbed(s, step)
  {
    match step
    case Insert(p, opId, now) => InsertExact(s, p, opId, now);
    case WriteUpdate(p) => WriteExact(s, p);
    case _ => OtherStepsKeep(s, step);
  }

  ghost predicate SeparatedThroughout(s: State, steps: seq<Step>)
    decreases |steps|
  {
    Separated(s) && (steps == [] || SeparatedThroughout(Apply(s, steps[0]), steps[1..]))
  }

  ghost predicate UndisturbedRun(s: State, steps: seq<Step>)
    decreases |steps|
  {
    steps == [] || (Undisturbed(s, steps[0]) && UndisturbedRun(Apply(s, steps[0]), steps[1..]))
  }

  /** Over a whole run the separation holds in every state if and only if every write lands undisturbed. */
  lemma {:induction false} SeparationExactly(s: State, steps: seq<Step>)
    requires Separated(s) && IdsOk(s)
    ensures SeparatedThroughout(s, steps) <==> UndisturbedRun(s, steps)
    decreases |steps|
  {
    if steps != [] {
      StepExact(s, steps[0]);
      IdsKept(s, steps[0]);
      if Undisturbed(s, steps[0]) {
        SeparationExactly(Apply(s, steps[0]), steps[1..]);
      }
    }
  }

  /** The lock and the snapshot suffice when a call's write directly follows its reads. */
  lemma AdjacentCallsAreUndisturbed(s: State, p: string, certId: string, opId: string, now: Time,
                                    desired: Snapshot, days: nat, servers: seq<string>)
    requires Separated(s) && p !in s.calls
    ensures Undisturbed(Apply(s, BeginIssue(p, certId)), Insert(p, opId, now))
    ensures Undisturbed(LockChecked(Apply(s, BeginUpdate(p, certId, desired, days, servers)), p), WriteUpdate(p))
  {
    if certId in s.db.certs {
      hide LockChecked;
      LockLetsThrough(Apply(s, BeginUpdate(p, certId, desired, days, servers)), p);
    }
  }

  // ---------- What a successful Issue publishes ----------

  predicate Succeeds(s: State, step: Step, i: string) {
    && i in s.db.ops && s.db.ops[i].status != Succeeded
    && i in Apply(s, step).db.ops && Apply(s, step).db.ops[i].status == Succeeded
  }

  /** If the step lets an Issue succeed, its certificate has an active version and no unpublished changes. */
  ghost predicate Publishes(s: State, step: Step) {
    forall i | Succeeds(s, step, i) && s.db.ops[i].kind == Issue ::
      var certs, certId := Apply(s, step).db.certs, s.db.ops[i].certId;
      certId in certs && certs[certId].active.Some? && !DesiredDiffersFromActive(certs[certId])
  }

  /** An Issue succeeds in an activation only. */
  lemma OnlyActivationSucceeds(s: State, step: Step, i: string)
    requires Succeeds(s, step, i) && s.db.ops[i].kind == Issue
    ensures step.Activate? && step.opId == i
  {
    if OpsStep(step) {
      OpsStepSucceedsNone(s, step, i);
    }
  }

  lemma OpsStepSucceedsNone(s: State, step: Step, i: string)
    requires OpsStep(step) && i in s.db.ops && s.db.ops[i].status != Succeeded
    ensures i in Apply(s, step).db.ops ==> Apply(s, step).db.ops[i].status != Succeeded
  {
  }

  lemma SeparatedPublishes(s: State, step: Step)
    requires Separated(s)
    ensures Publishes(s, step)
  {
    forall i | Succeeds(s, step, i) && s.db.ops[i].kind == Issue
      ensures var certs, certId := Apply(s, step).db.certs, s.db.ops[i].certId;
              certId in certs && certs[certId].active.Some? && !DesiredDiffersFromActive(certs[certId])
    {
      OnlyActivationSucceeds(s, step, i);
      ActivationPublishes(s, step);
    }
  }

  lemma ActivationPublishes(s: State, step: Step)
    requires Separated(s) && step.Activate? && Succeeds(s, step, step.opId) && s.db.ops[step.opId].kind == Issue
    ensures var certs, certId := Apply(s, step).db.certs, s.db.ops[step.opId].certId;
            certId in certs && certs[certId].active.Some? && !DesiredDiffersFromActive(certs[certId])
  {
  }

  lemma {:induction false} UndisturbedStaysSeparated(s: State, steps: seq<Step>)
    requires Separated(s) && IdsOk(s) && UndisturbedRun(s, steps)
    ensures Separated(Exec(s, steps)) && IdsOk(Exec(s, steps))
    decreases |steps|
  {
    if steps != [] {
      StepExact(s, steps[0]);
      IdsKept(s, steps[0]);
      UndisturbedStaysSeparated(Apply(s, steps[0]), steps[1..]);
    }
  }

  /** In every run whose writes land undisturbed, an Issue that succeeds leaves no unpublished changes. */
  lemma IssuePublishesDesired(steps: seq<Step>, step: Step)
    requires UndisturbedRun(Init, steps)
    ensures Publishes(Exec(Init, steps), step)
  {
    UndisturbedStaysSeparated(Init, steps);
    SeparatedPublishes(Exec(Init, steps), step);
  }

  /** An Issue in flight whose snapshot is not what is desired. */
  predicate Overtaken(s: State, i: string) {
    && i in s.db.ops && s.db.ops[i].kind == Issue && InFlight(s.db.ops[i])
    && s.db.ops[i].certId in s.db.certs && s.db.certs[s.db.ops[i].certId].desired != s.db.ops[i].snapshot
  }

  lemma UnseparatedMeansOvertaken(s: State) returns (i: string)
    requires !Separated(s)
    ensures Overtaken(s, i)
  {
    i :| i in s.db.ops && s.db.ops[i].kind == Issue && InFlight(s.db.ops[i]) && s.db.ops[i].certId in s.db.certs
         && s.db.certs[s.db.ops[i].certId].desired != s.db.ops[i].snapshot;
  }

  /** It may be claimed by some replica. */
  lemma OvertakenRuns(s: State, i: string) returns (more: seq<Step>)
    requires OneInFlight(s.db.ops) && Overtaken(s, i)
    ensures UndisturbedRun(s, more) && Overtaken(Exec(s, more), i) && Exec(s, more).db.ops[i].status == Running
  {
    if s.db.ops[i].status == Running {
      more := [];
    } else {
      var now := s.db.ops[i].nextAttemptAt.GetOr(0);
      ConflictCountIsZero(s.db.ops, i, now);
      more := [ClaimOp(i, "r", now, now + LEASE)];
      assert more[1..] == [];
      assert Exec(s, more) == Apply(s, more[0]);
    }
  }

  /** And its activation then publishes what is no longer desired. */
  lemma OvertakenSucceeds(s: State, i: string) returns (last: Step)
    requires Overtaken(s, i) && s.db.ops[i].status == Running
    ensures !Publishes(s, last)
  {
    var id := FreshId(s.usedVersions);
    var o := s.db.ops[i];
    var active := s.db.certs[o.certId].active;
    var expected := if active.None? then None else Some(active.value.id);
    var version := Version(id, o.snapshot, 0, DAY, false, None);
    last := Activate(i, o.leaseOwner, version, expected, 0);
    assert Succeeds(s, last, i);
  }

  lemma SomeIssuePublishesOld(s: State) returns (more: seq<Step>, last: Step)
    requires OneInFlight(s.db.ops) && !Separated(s)
    ensures UndisturbedRun(s, more) && !Publishes(Exec(s, more), last)
  {
    hide Overtaken, Publishes, Separated, Exec, UndisturbedRun;
    var i := UnseparatedMeansOvertaken(s);
    more := OvertakenRuns(s, i);
    last := OvertakenSucceeds(Exec(s, more), i);
  }

  lemma SeparatedPublishesLater(s: State, more: seq<Step>, last: Step)
    requires Separated(s) && IdsOk(s) && UndisturbedRun(s, more)
    ensures Publishes(Exec(s, more), last)
  {
    UndisturbedStaysSeparated(s, more);
    SeparatedPublishes(Exec(s, more), last);
  }

  /** A state is separated exactly if no continuation lets an Issue leave unpublished changes. */
  lemma SeparatedMeansSafe(s: State)
    requires OneInFlight(s.db.ops) && IdsOk(s)
    ensures Separated(s) <==> forall more, last | UndisturbedRun(s, more) :: Publishes(Exec(s, more), last)
  {
    hide Publishes, Separated, Exec, UndisturbedRun, IdsOk;
    if Separated(s) {
      forall more, last | UndisturbedRun(s, more)
        ensures Publishes(Exec(s, more), last)
      {
        SeparatedPublishesLater(s, more, last);
      }
    } else {
      var more, last := SomeIssuePublishesOld(s);
    }
  }

  /**
   * Exactly which writes are safe: after a write, no Issue ever leaves unpublished changes (in any
   * continuation whose own writes land undisturbed) if and only if the write landed undisturbed.
   */
  lemma UndisturbedExactly(steps: seq<Step>, step: Step)
    requires UndisturbedRun(Init, steps)
    ensures var s' := Apply(Exec(Init, steps), step);
            Undisturbed(Exec(Init, steps), step)
            <==> forall more, last | UndisturbedRun(s', more) :: Publishes(Exec(s', more), last)
  {
    var s := Exec(Init, steps);
    UndisturbedStaysSeparated(Init, steps);
    UniqueInRun(Init, steps);
    hide Undisturbed, Apply, Exec, Publishes, Separated, IdsOk, UndisturbedRun;
    StepExact(s, step);
    IdsKept(s, step);
    UniqueKept(s, step);
    SeparatedMeansSafe(Apply(s, step));
  }

  const BeforeEdit := Snapshot(["a.example"], "iss", "dns", "ec_p256")
  const AfterEdit := Snapshot(["b.example"], "iss", "dns", "ec_p256")
  const IssuedVersion := Version("v", BeforeEdit, 0, DAY, false, None)

  const FreshCert := Cert("c", BeforeEdit, 30, [], None, None)
  const FirstIssue := NewOperation("o", "c", Issue, BeforeEdit, "", 0)

  const EditCall := Updating("c", AfterEdit, 30, [])

  lemma EditPassesLock() returns (steps: seq<Step>, s: State)
    ensures Exec(Init, steps) == s && s.usedVersions == {}
    ensures s.db == Db(map["c" := FreshCert], map[]) && s.calls == map["edit" := EditCall]
  {
    steps, s := Then([], Init, CreateCert("c", BeforeEdit, 30, []));
    assert s.db == Db(map["c" := FreshCert], map[]);
    steps, s := Then(steps, s, BeginUpdate("edit", "c", AfterEdit, 30, []));
    LockLetsThrough(s, "edit");
    hide DoCheckLock;
    steps, s := Then(steps, s, CheckLock("edit"));
    steps, s := Then(steps, s, CheckLock("edit"));
    steps, s := Then(steps, s, CheckLock("edit"));
    steps, s := Then(steps, s, CheckLock("edit"));
  }

  lemma EditAndIssueMeet() returns (steps: seq<Step>, s: State)
    ensures Exec(Init, steps) == s && s.usedVersions == {}
    ensures s.db == Db(map["c" := FreshCert], map["o" := FirstIssue]) && s.calls == map["edit" := EditCall]
  {
    steps, s := EditPassesLock();
    steps, s := Then(steps, s, BeginIssue("submit", "c"));
    assert s.calls == map["edit" := EditCall, "submit" := Submitting("c", false, BeforeEdit)];
    steps, s := Then(steps, s, Insert("submit", "o", 0));
  }

  /**
   * The separation does fail in some runs: an edit passes its lock check, an Issue is submitted and
   * created, the edit is written, and the Issue then succeeds with the fields from before the edit.
   */
  lemma EditOvertakenByIssue() returns (steps: seq<Step>)
    ensures var db := Exec(Init, steps).db;
            && "c" in db.certs && db.certs["c"].active == Some(IssuedVersion) && DesiredDiffersFromActive(db.certs["c"])
            && "o" in db.ops && db.ops["o"].kind == Issue && db.ops["o"].status == Succeeded
  {
    var s: State;
    steps, s := EditAndIssueMeet();
    steps, s := Then(steps, s, WriteUpdate("edit"));
    assert s == WithOp(s, FirstIssue) && s.db.certs == map["c" := FreshCert.(desired := AfterEdit)];
    ClaimAlone(s, FirstIssue, "r", 0, LEASE);
    hide Apply;
    steps, s := Then(steps, s, ClaimOp("o", "r", 0, LEASE));
    FirstActivates(s);
    steps, s := Then(steps, s, Activate("o", "r", IssuedVersion, None, 0));
  }

  lemma FirstActivates(s: State)
    requires s.usedVersions == {} && s.db.certs == map["c" := FreshCert.(desired := AfterEdit)]
    requires s.db.ops == map["o" := Claim(FirstIssue, "r", 0, LEASE)]
    ensures var db := Apply(s, Activate("o", "r", IssuedVersion, None, 0)).db;
            && db.certs == map["c" := FreshCert.(desired := AfterEdit, active := Some(IssuedVersion))]
            && db.ops == map["o" := Succeed(Claim(FirstIssue, "r", 0, LEASE), 0)]
  {
  }

  // ---------- Runs without an Issue ----------

  predicate IssueFree(steps: seq<Step>) {
    forall i | 0 <= i < |steps| :: !steps[i].BeginIssue?
  }

  function SlotSnapshots(c: Cert): set<Snapshot> {
    (if c.active.Some? then {c.active.value.snapshot} else {})
    + (if c.previous.Some? then {c.previous.value.snapshot} else {})
  }

  function Known(known: map<string, set<Snapshot>>, certId: string): set<Snapshot> {
    if certId in known then known[certId] else {}
  }

  /** Everything a renewal of a certificate could install is known for it, and nothing else is about to be installed. */
  ghost predicate Closed(s: State, known: map<string, set<Snapshot>>) {
    && (forall c | c in s.db.certs :: SlotSnapshots(s.db.certs[c]) <= Known(known, c))
    && (forall i | i in s.db.ops && InFlight(s.db.ops[i]) ::
          s.db.ops[i].kind != Issue
              && (s.db.ops[i].kind == Renew ==> s.db.ops[i].snapshot in Known(known, s.db.ops[i].certId)))
    && (forall p | p in s.calls && s.calls[p].Submitting? ::
          s.calls[p].renewal && s.calls[p].snapshot in Known(known, s.calls[p].certId))
  }

  lemma StepClosed(s: State, step: Step, known: map<string, set<Snapshot>>)
    requires Closed(s, known) && !step.BeginIssue?
    ensures Closed(Apply(s, step), known)
  {
    if OpsStep(step) {
      hide Apply;
      OpsStepFrame(s, step);
    } else if ReadStep(step) {
      hide Apply;
      ReadStepFrame(s, step);
    } else if step.Mark? || step.Clear? || step.CompleteRevokeOp? {
      FlagStepClosed(s, step, known);
    } else if step.Activate? {
      ActivateClosed(s, step, known);
    } else if step.RollbackTo? {
      RollbackClosed(s, step, known);
    } else if step.Insert? || step.InsertRevoke? {
      InsertsClosed(s, step, known);
    } else {
      OtherWritesClosed(s, step, known);
    }
  }

  lemma FlagStepClosed(s: State, step: Step, known: map<string, set<Snapshot>>)
    requires Closed(s, known) && (step.Mark? || step.Clear? || step.CompleteRevokeOp?)
    ensures Closed(Apply(s, step), known)
  {
    hide Apply;
    SlotStepFrame(s, step);
    FlagsKeepSnapshots(s, step);
  }

  lemma FlagsKeepSnapshots(s: State, step: Step)
    requires step.Mark? || step.Clear? || step.CompleteRevokeOp?
    ensures var s' := Apply(s, step);
            forall c | c in s.db.certs
                && c in s'.db.certs :: SlotSnapshots(s'.db.certs[c]) == SlotSnapshots(s.db.certs[c])
  {
  }

  /** An activation brings in the snapshot of its operation, which is in flight, and no other. */
  lemma ActivateBrings(s: State, opId: string, owner: string, version: Version, expected: Option<string>, now: Time,
                       c: string)
    requires c in s.db.certs
    ensures var s' := DoActivate(s, opId, owner, version, expected, now);
            c in s'.db.certs && forall snap | snap in SlotSnapshots(s'.db.certs[c]) ::
              || snap in SlotSnapshots(s.db.certs[c])
              || (opId in s.db.ops && InFlight(s.db.ops[opId]) && s.db.ops[opId].kind != Revoke
                  && s.db.ops[opId].certId == c && s.db.ops[opId].snapshot == snap)
  {
  }

  lemma ActivateClosed(s: State, step: Step, known: map<string, set<Snapshot>>)
    requires Closed(s, known) && step.Activate?
    ensures Closed(Apply(s, step), known)
  {
    SlotStepFrame(s, step);
    hide DoActivate, SlotSnapshots, InFlight;
    forall c | c in s.db.certs
      ensures SlotSnapshots(Apply(s, step).db.certs[c]) <= Known(known, c)
    {
      ActivateBrings(s, step.opId, step.owner, step.version, step.expected, step.now, c);
    }
  }

  lemma InsertsClosed(s: State, step: Step, known: map<string, set<Snapshot>>)
    requires Closed(s, known) && (step.Insert? || step.InsertRevoke?)
    ensures Closed(Apply(s, step), known)
  {
    hide SlotSnapshots;
  }

  lemma RollbackClosed(s: State, step: Step, known: map<string, set<Snapshot>>)
    requires Closed(s, known) && step.RollbackTo?
    ensures Closed(Apply(s, step), known)
  {
    hide InFlight;
  }

  lemma OtherWritesClosed(s: State, step: Step, known: map<string, set<Snapshot>>)
    requires Closed(s, known) && (step.CreateCert? || step.DeleteCert? || step.WriteUpdate?)
    ensures Closed(Apply(s, step), known)
  {
  }

  /**
   * Without an Issue, renewals, rollbacks and revocations never put a new snapshot in a slot, however
   * the desired configuration is edited meanwhile.
   */
  lemma {:induction false} NoIssueNoNewSnapshot(s: State, steps: seq<Step>, known: map<string, set<Snapshot>>)
    requires Closed(s, known) && IssueFree(steps)
    ensures Closed(Exec(s, steps), known)
    decreases |steps|
  {
    if steps != [] {
      StepClosed(s, steps[0], known);
      NoIssueNoNewSnapshot(Apply(s, steps[0]), steps[1..], known);
    }
  }

  /**
   * From a quiet store on: each slot of a certificate only ever holds snapshots that one of its slots
   * held at the start.
   */
  lemma OnlyOldSnapshots(s: State, steps: seq<Step>, certId: string)
    requires IssueFree(steps) && s.calls == map[] && forall i | i in s.db.ops :: !InFlight(s.db.ops[i])
    ensures var db := Exec(s, steps).db;
            certId in db.certs ==>
              SlotSnapshots(db.certs[certId]) <= if certId in s.db.certs then SlotSnapshots(s.db.certs[certId]) else {}
  {
    NoIssueNoNewSnapshot(s, steps, map c | c in s.db.certs :: SlotSnapshots(s.db.certs[c]));
  }
}
