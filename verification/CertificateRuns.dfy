/**
 * Runs of the certificate manager over the store. A store method is one step; the manager calls that
 * read, then write (submit, update, revoke) take one step for each, so other calls come in between.
 *
 * The look-ups that submits make before their insert only turn some of them away; here every submit
 * goes on to its insert, which the unique index guards. So every interleaving of the manager's calls
 * is a run, and a step that is not possible changes nothing. An insert either
 * takes effect or fails; a caller may disappear at any point.
 */
module CertificateRuns {
  import opened Options
  import opened Certs
  import opened Operations
  import opened CertificateStore

  /** A manager call in progress. */
  datatype Call =
    | Submitting(certId: string, renewal: bool, snapshot: Snapshot)
    | Editing(certId: string, read: Snapshot, unchecked: seq<Kind>, desired: Snapshot, renewBeforeDays: nat,
        serverIds: seq<string>)
    | Updating(certId: string, desired: Snapshot, renewBeforeDays: nat, serverIds: seq<string>)
    | Revoking(certId: string, versionId: string, snapshot: Snapshot)
    | Marked(certId: string, versionId: string, snapshot: Snapshot)
    | Clearing(certId: string, versionId: string)

  /** `used*` are the random identifiers drawn so far; `revokes` the targets of all Revoke operations created. */
  datatype State = State(
    db: Db, calls: map<string, Call>,
    usedCerts: set<string>, usedVersions: set<string>, revokes: set<(string, string)>)

  datatype Step =
    | CreateCert(id: string, desired: Snapshot, renewBeforeDays: nat, serverIds: seq<string>)
    | DeleteCert(id: string)
    | BeginIssue(p: string, certId: string)
    | BeginRenew(p: string, certId: string)
    | Insert(p: string, opId: string, now: Time)
    | BeginUpdate(p: string, certId: string, desired: Snapshot, renewBeforeDays: nat, serverIds: seq<string>)
    | CheckLock(p: string)
    | WriteUpdate(p: string)
    | BeginRevoke(p: string, certId: string, versionId: string)
    | Mark(p: string)
    | InsertRevoke(p: string, opId: string, now: Time, fails: bool)
    | Clear(p: string)
    | Disappear(p: string)
    | ClaimOp(opId: string, owner: string, now: Time, expires: Time)
    | RetryOp(opId: string, owner: string, nextAt: Time, summary: string, failures: nat)
    | FailOp(opId: string, owner: string, summary: string, now: Time)
    | SweepOps(now: Time)
    | Activate(opId: string, owner: string, version: Version, expected: Option<string>, now: Time)
    | CompleteRevokeOp(opId: string, owner: string, at: Time, now: Time)
    | RollbackTo(certId: string, versionId: string)

  const Init := State(Db(map[], map[]), map[], {}, {}, {})

  function End(s: State, p: string): State {
    s.(calls := s.calls - {p})
  }

  function Put(s: State, p: string, call: Call): State {
    s.(calls := s.calls[p := call])
  }

  function Db'(s: State, reply: Reply): State {
    s.(db := reply.db)
  }

  function SubmittedOperation(c: Call, opId: string, now: Time): Operation
    requires c.Submitting?
  {
    NewOperation(opId, c.certId, if c.renewal then Renew else Issue, c.snapshot, "", now)
  }

  function DoInsert(s: State, p: string, opId: string, now: Time): State {
    if p !in s.calls || !s.calls[p].Submitting? then s
    else
      var c := s.calls[p];
      Db'(End(s, p), CreateOperation(s.db, SubmittedOperation(c, opId, now)))
  }

  predicate KindInFlight(db: Db, certId: string, kind: Kind) {
    exists i | i in db.ops :: db.ops[i].certId == certId && db.ops[i].kind == kind && InFlight(db.ops[i])
  }

  const AllKinds := [Issue, Renew, Revoke]

  function DoBeginUpdate(s: State, p: string, certId: string, desired: Snapshot, renewBeforeDays: nat,
                         serverIds: seq<string>): State {
    if p in s.calls || certId !in s.db.certs then s
    else Put(s, p, Editing(certId, s.db.certs[certId].desired, AllKinds, desired, renewBeforeDays, serverIds))
  }

  /**
   * The edit lock looks for operations in flight of one kind after the other, and refuses an edit that
   * changes an issue field of the certificate as it was read.
   */
  function DoCheckLock(s: State, p: string): State {
    if p !in s.calls || !s.calls[p].Editing? then s
    else
      var c := s.calls[p];
      if c.unchecked == [] then Put(s, p, Updating(c.certId, c.desired, c.renewBeforeDays, c.serverIds))
      else if KindInFlight(s.db, c.certId, c.unchecked[0]) && c.desired != c.read then End(s, p)
      else Put(s, p, c.(unchecked := c.unchecked[1..]))
  }

  /** The edit lock run through without a break: the three look-ups and the decision. */
  function LockChecked(s: State, p: string): State {
    DoCheckLock(DoCheckLock(DoCheckLock(DoCheckLock(s, p), p), p), p)
  }

  lemma LockLetsThrough(s: State, p: string)
    requires p in s.calls && s.calls[p].Editing? && s.calls[p].unchecked == AllKinds
    ensures var c, u := s.calls[p], LockChecked(s, p);
            && u.db == s.db
            && (p in u.calls <==> c.desired == c.read || forall kind :: !KindInFlight(s.db, c.certId, kind))
            && (p in u.calls ==> u.calls[p] == Updating(c.certId, c.desired, c.renewBeforeDays, c.serverIds))
  {
  }

  function DoWriteUpdate(s: State, p: string): State {
    if p !in s.calls || !s.calls[p].Updating? then s
    else
      var c := s.calls[p];
      Db'(End(s, p), UpdateDesired(s.db, c.certId, c.desired, c.renewBeforeDays, c.serverIds))
  }

  function RevokeSnapshot(c: Cert, v: Version): Snapshot {
    if v.snapshot.domains == [] then c.desired else v.snapshot
  }

  function DoBeginRevoke(s: State, p: string, certId: string, versionId: string): State {
    if p in s.calls || certId !in s.db.certs then s
    else
      var c := s.db.certs[certId];
      match SlotOf(c, versionId)
      case None => s
      case Some(slot) =>
        var v := InSlot(c, slot).value;
        if !Distributable(v) then s
        else Put(s, p, Revoking(certId, versionId, RevokeSnapshot(c, v)))
  }

  function DoMark(s: State, p: string): State {
    if p !in s.calls || !s.calls[p].Revoking? then s
    else
      var c := s.calls[p];
      var reply := MarkPending(s.db, c.certId, c.versionId);
      if reply.result.Err? then End(s, p)
      else Db'(Put(s, p, Marked(c.certId, c.versionId, c.snapshot)), reply)
  }

  /**
   * After the mark: an in-flight Revoke of the certificate that the look-up finds, whatever its target,
   * is returned as it is; any other operation in flight, or an insert that fails or comes too late,
   * leads to the mark being cleared.
   */
  function DoInsertRevoke(s: State, p: string, opId: string, now: Time, fails: bool): State {
    if p !in s.calls || !s.calls[p].Marked? then s
    else
      var c := s.calls[p];
      var reply := CreateOperation(s.db, NewOperation(opId, c.certId, Revoke, c.snapshot, c.versionId, now));
      if fails then Put(s, p, Clearing(c.certId, c.versionId))
      else if KindInFlight(s.db, c.certId, Revoke) then End(s, p)
      else if reply.result.Err? then Put(s, p, Clearing(c.certId, c.versionId))
      else Db'(End(s, p), reply).(revokes := s.revokes + {(c.certId, c.versionId)})
  }

  function DoClear(s: State, p: string): State {
    if p !in s.calls || !s.calls[p].Clearing? then s
    else Db'(End(s, p), ClearPending(s.db, s.calls[p].certId, s.calls[p].versionId))
  }

  /** The failure handler schedules no retry at or after the deadline. */
  function DoRetry(s: State, opId: string, owner: string, nextAt: Time, summary: string, failures: nat): State {
    if opId in s.db.ops && DeadlineExceeded(s.db.ops[opId], nextAt) then s
    else Db'(s, ScheduleRetry(s.db, opId, owner, nextAt, summary, failures))
  }

  function DoActivate(s: State, opId: string, owner: string, version: Version, expected: Option<string>,
                      now: Time): State {
    if opId !in s.db.ops || version.id in s.usedVersions || !Distributable(version) then s
    else
      var o := s.db.ops[opId];
      if o.kind == Revoke || version.snapshot != o.snapshot then s
      else
        var reply :=
          if expected.None? then ActivateFirst(s.db, o.certId, version, opId, owner, now)
          else ActivateSubsequent(s.db, o.certId, version, expected.value, opId, owner, now);
        Db'(s, reply).(usedVersions := s.usedVersions + {version.id})
  }

  function DoCompleteRevoke(s: State, opId: string, owner: string, at: Time, now: Time): State {
    if opId !in s.db.ops || s.db.ops[opId].kind != Revoke then s
    else
      var o := s.db.ops[opId];
      Db'(s, CompleteRevocation(s.db, o.certId, o.targetVersionId, opId, owner, at, now))
  }

  function DoCreateCert(s: State, id: string, desired: Snapshot, renewBeforeDays: nat, serverIds: seq<string>): State {
    if id in s.usedCerts then s
    else
      s.(db := s.db.(certs := s.db.certs[id := Cert(id, desired, renewBeforeDays, serverIds, None, None)]),
         usedCerts := s.usedCerts + {id})
  }

  function DoBeginIssue(s: State, p: string, certId: string): State {
    if p in s.calls || certId !in s.db.certs then s
    else Put(s, p, Submitting(certId, false, s.db.certs[certId].desired))
  }

  function DoBeginRenew(s: State, p: string, certId: string): State {
    if p in s.calls || certId !in s.db.certs || s.db.certs[certId].active.None? then s
    else Put(s, p, Submitting(certId, true, s.db.certs[certId].active.value.snapshot))
  }

  // ---------- Calls that nothing comes in between of ----------

  function Alone(db: Db): State {
    State(db, map[], {}, {}, {})
  }

  function IssueCall(db: Db, certId: string, opId: string, now: Time): Db {
    DoInsert(DoBeginIssue(Alone(db), "p", certId), "p", opId, now).db
  }

  function RenewCall(db: Db, certId: string, opId: string, now: Time): Db {
    DoInsert(DoBeginRenew(Alone(db), "p", certId), "p", opId, now).db
  }

  function UpdateCall(db: Db, certId: string, desired: Snapshot, renewBeforeDays: nat, serverIds: seq<string>): Db {
    DoWriteUpdate(LockChecked(DoBeginUpdate(Alone(db), "p", certId, desired, renewBeforeDays, serverIds), "p"), "p").db
  }

  function RevokeCall(db: Db, certId: string, versionId: string, opId: string, now: Time, fails: bool): Db {
    var marked := DoMark(DoBeginRevoke(Alone(db), "p", certId, versionId), "p");
    DoClear(DoInsertRevoke(marked, "p", opId, now, fails), "p").db
  }

  /** A served version in a slot, and nothing in flight for its certificate. */
  predicate Revocable(db: Db, certId: string, versionId: string) {
    && certId in db.certs && SlotOf(db.certs[certId], versionId).Some?
    && Distributable(InSlot(db.certs[certId], SlotOf(db.certs[certId], versionId).value).value)
    && !HasInFlight(db.ops, certId)
  }

  /** An edit alone: it is written exactly if it keeps the issue fields or nothing is in flight. */
  lemma UpdateCallResult(db: Db, certId: string, desired: Snapshot, days: nat, servers: seq<string>)
    ensures UpdateCall(db, certId, desired, days, servers) ==
            if certId in db.certs && (desired == db.certs[certId].desired || !HasInFlight(db.ops, certId))
            then UpdateDesired(db, certId, desired, days, servers).db
            else db
  {
    if certId in db.certs {
      LockLetsThrough(DoBeginUpdate(Alone(db), "p", certId, desired, days, servers), "p");
      InFlightIsOfSomeKind(db, certId);
      hide LockChecked, KindInFlight, HasInFlight;
    }
  }

  lemma InFlightIsOfSomeKind(db: Db, certId: string)
    ensures HasInFlight(db.ops, certId) <==> exists kind :: KindInFlight(db, certId, kind)
  {
    if HasInFlight(db.ops, certId) {
      var i :| i in db.ops && db.ops[i].certId == certId && InFlight(db.ops[i]);
      assert KindInFlight(db, certId, db.ops[i].kind);
    }
  }

  lemma MarkedAlone(db: Db, certId: string, versionId: string)
    ensures var s := DoMark(DoBeginRevoke(Alone(db), "p", certId, versionId), "p");
            if certId !in db.certs || MarkRevokePending(db.certs[certId], versionId).Err? then s == Alone(db)
            else
              var c := db.certs[certId];
              var snapshot := RevokeSnapshot(c, InSlot(c, SlotOf(c, versionId).value).value);
              s == Put(Alone(MarkPending(db, certId, versionId).db), "p", Marked(certId, versionId, snapshot))
  {
    hide RevokeSnapshot;
  }

  lemma InsertedAlone(db: Db, c: Call, opId: string, now: Time, fails: bool)
    requires c.Marked? && opId !in db.ops && !KindInFlight(db, c.certId, Revoke)
    ensures DoClear(DoInsertRevoke(Put(Alone(db), "p", c), "p", opId, now, fails), "p").db ==
            if fails || HasInFlight(db.ops, c.certId) then ClearPending(db, c.certId, c.versionId).db
            else db.(ops := db.ops[opId := NewOperation(opId, c.certId, Revoke, c.snapshot, c.versionId, now)])
  {
    hide HasInFlight, KindInFlight;
  }

  /** A revocation request alone: it marks the version and creates its Revoke, or takes its own mark back. */
  lemma RevokeCallResult(db: Db, certId: string, versionId: string, opId: string, now: Time, fails: bool)
    requires opId !in db.ops && !KindInFlight(db, certId, Revoke)
    ensures RevokeCall(db, certId, versionId, opId, now, fails) ==
            if fails || !Revocable(db, certId, versionId) then db
            else
              var c := db.certs[certId];
              var v := InSlot(c, SlotOf(c, versionId).value).value;
              Db(MarkPending(db, certId, versionId).db.certs,
                 db.ops[opId := NewOperation(opId, certId, Revoke, RevokeSnapshot(c, v), versionId, now)])
  {
    MarkedAlone(db, certId, versionId);
    if certId in db.certs && MarkRevokePending(db.certs[certId], versionId).Ok? {
      var c := db.certs[certId];
      var marked := MarkPending(db, certId, versionId).db;
      assert KindInFlight(marked, certId, Revoke) <==> KindInFlight(db, certId, Revoke);
      InsertedAlone(marked, Marked(certId, versionId, RevokeSnapshot(c, InSlot(c, SlotOf(c, versionId).value).value)),
                    opId, now, fails);
      MarkUndone(c, versionId);
      assert ClearPending(marked, certId, versionId).db.certs == db.certs;
      hide DoMark, DoBeginRevoke, DoInsertRevoke, DoClear, HasInFlight;
    }
  }

  function Apply(s: State, step: Step): State {
    match step
    case CreateCert(id, desired, days, servers) => DoCreateCert(s, id, desired, days, servers)
    case DeleteCert(id) => Db'(s, DeleteCertificate(s.db, id))
    case BeginIssue(p, certId) => DoBeginIssue(s, p, certId)
    case BeginRenew(p, certId) => DoBeginRenew(s, p, certId)
    case Insert(p, opId, now) => DoInsert(s, p, opId, now)
    case BeginUpdate(p, certId, desired, days, servers) => DoBeginUpdate(s, p, certId, desired, days, servers)
    case CheckLock(p) => DoCheckLock(s, p)
    case WriteUpdate(p) => DoWriteUpdate(s, p)
    case BeginRevoke(p, certId, versionId) => DoBeginRevoke(s, p, certId, versionId)
    case Mark(p) => DoMark(s, p)
    case InsertRevoke(p, opId, now, fails) => DoInsertRevoke(s, p, opId, now, fails)
    case Clear(p) => DoClear(s, p)
    case Disappear(p) => End(s, p)
    case ClaimOp(opId, owner, now, expires) => Db'(s, TryClaim(s.db, opId, owner, now, expires))
    case RetryOp(opId, owner, nextAt, summary, failures) => DoRetry(s, opId, owner, nextAt, summary, failures)
    case FailOp(opId, owner, summary, now) => Db'(s, MarkFailed(s.db, opId, owner, summary, now))
    case SweepOps(now) => s.(db := FailExpired(s.db, now))
    case Activate(opId, owner, version, expected, now) => DoActivate(s, opId, owner, version, expected, now)
    case CompleteRevokeOp(opId, owner, at, now) => DoCompleteRevoke(s, opId, owner, at, now)
    case RollbackTo(certId, versionId) => Db'(s, ActivatePrevious(s.db, certId, versionId))
  }

  /** The steps that are one store call each change the store as the call does, and nothing else. */
  lemma CallsAreSteps(s: State, certId: string, versionId: string, opId: string, owner: string, text: string, t: Time,
                      u: Time, failures: nat)
    ensures Apply(s, DeleteCert(certId)) == s.(db := DeleteCertificate(s.db, certId).db)
    ensures Apply(s, RollbackTo(certId, versionId)) == s.(db := ActivatePrevious(s.db, certId, versionId).db)
    ensures Apply(s, ClaimOp(opId, owner, t, u)) == s.(db := TryClaim(s.db, opId, owner, t, u).db)
    ensures Apply(s, FailOp(opId, owner, text, t)) == s.(db := MarkFailed(s.db, opId, owner, text, t).db)
    ensures opId in s.db.ops && !DeadlineExceeded(s.db.ops[opId], t) ==>
              Apply(s, RetryOp(opId, owner, t, text, failures))
              == s.(db := ScheduleRetry(s.db, opId, owner, t, text, failures).db)
    ensures Apply(s, SweepOps(t)) == s.(db := FailExpired(s.db, t))
  {
    hide DeleteCertificate, ActivatePrevious, TryClaim, MarkFailed, ScheduleRetry, FailExpired;
  }

  function Exec(s: State, steps: seq<Step>): State
    decreases |steps|
  {
    if steps == [] then s else Exec(Apply(s, steps[0]), steps[1..])
  }

  lemma {:induction false} ExecAppend(s: State, steps: seq<Step>, step: Step)
    ensures Exec(s, steps + [step]) == Apply(Exec(s, steps), step)
    decreases |steps|
  {
    if steps == [] {
      assert [step][1..] == [];
    } else {
      assert (steps + [step])[1..] == steps[1..] + [step];
      ExecAppend(Apply(s, steps[0]), steps[1..], step);
    }
  }

  /** Extends a run from the initial state by one step. */
  lemma Then(steps: seq<Step>, s: State, step: Step) returns (steps': seq<Step>, s': State)
    requires Exec(Init, steps) == s
    ensures steps' == steps + [step] && s' == Apply(s, step) && Exec(Init, steps') == s'
  {
    ExecAppend(Init, steps, step);
    steps', s' := steps + [step], Apply(s, step);
  }

  function WithOp(s: State, o: Operation): State {
    s.(db := s.db.(ops := s.db.ops[o.id := o]))
  }

  /** A claim of the only operation in flight. */
  lemma ClaimAlone(s: State, o: Operation, owner: string, now: Time, expires: Time)
    requires forall i | i in s.db.ops && i != o.id :: !InFlight(s.db.ops[i])
    requires o.status == Pending && o.nextAttemptAt.None?
    ensures Apply(WithOp(s, o), ClaimOp(o.id, owner, now, expires)) == WithOp(s, Claim(o, owner, now, expires))
  {
  }

  /** Steps of the operation runner that do not touch a certificate. */
  predicate OpsStep(step: Step) {
    step.ClaimOp? || step.RetryOp? || step.FailOp? || step.SweepOps?
  }

  ghost predicate OpsOnly(s: State, s': State) {
    && s' == s.(db := s.db.(ops := s'.db.ops)) && s'.db.ops.Keys == s.db.ops.Keys
    && forall i | i in s.db.ops ::
         SameRequest(s'.db.ops[i], s.db.ops[i]) && (InFlight(s'.db.ops[i]) ==> InFlight(s.db.ops[i]))
  }

  lemma SweepFrame(s: State, now: Time)
    ensures OpsOnly(s, s.(db := FailExpired(s.db, now)))
  {
  }

  lemma OpsStepFrame(s: State, step: Step)
    requires OpsStep(step)
    ensures OpsOnly(s, Apply(s, step))
  {
    match step
    case ClaimOp(opId, owner, now, expires) => ClaimFrame(s, opId, owner, now, expires);
    case SweepOps(now) => SweepFrame(s, now);
    case RetryOp(opId, owner, nextAt, summary, failures) => RetryFrame(s, opId, owner, nextAt, summary, failures);
    case FailOp(opId, owner, summary, now) => FailFrame(s, opId, owner, summary, now);
  }

  lemma ClaimFrame(s: State, opId: string, owner: string, now: Time, expires: Time)
    ensures OpsOnly(s, Db'(s, TryClaim(s.db, opId, owner, now, expires)))
  {
  }

  lemma RetryFrame(s: State, opId: string, owner: string, nextAt: Time, summary: string, failures: nat)
    ensures OpsOnly(s, DoRetry(s, opId, owner, nextAt, summary, failures))
  {
  }

  lemma FailFrame(s: State, opId: string, owner: string, summary: string, now: Time)
    ensures OpsOnly(s, Db'(s, MarkFailed(s.db, opId, owner, summary, now)))
  {
  }

  /** Steps that rewrite the slots of one certificate. */
  predicate SlotStep(step: Step) {
    step.Mark? || step.Clear? || step.Activate? || step.CompleteRevokeOp? || step.RollbackTo?
  }

  ghost predicate SlotsOnly(s: State, s': State) {
    && s'.usedCerts == s.usedCerts && s'.db.certs.Keys == s.db.certs.Keys && s'.db.ops.Keys == s.db.ops.Keys
    && (forall c | c in s.db.certs :: s'.db.certs[c].desired == s.db.certs[c].desired)
    && (forall i | i in s.db.ops ::
          s'.db.ops[i] == s.db.ops[i] || (s'.db.ops[i].certId == s.db.ops[i].certId && !InFlight(s'.db.ops[i])))
    && (forall p | p in s'.calls ::
          && p in s.calls && s'.calls[p].certId == s.calls[p].certId
          && (s'.calls[p].Submitting? ==> s'.calls[p] == s.calls[p]))
  }

  lemma MarkFrame(s: State, p: string)
    ensures SlotsOnly(s, DoMark(s, p))
  {
  }

  lemma ClearFrame(s: State, p: string)
    ensures SlotsOnly(s, DoClear(s, p))
  {
  }

  lemma ActivateFrame(s: State, opId: string, owner: string, version: Version, expected: Option<string>, now: Time)
    ensures SlotsOnly(s, DoActivate(s, opId, owner, version, expected, now))
  {
  }

  lemma CompleteFrame(s: State, opId: string, owner: string, at: Time, now: Time)
    ensures SlotsOnly(s, DoCompleteRevoke(s, opId, owner, at, now))
  {
  }

  lemma SlotStepFrame(s: State, step: Step)
    requires SlotStep(step)
    ensures SlotsOnly(s, Apply(s, step))
  {
    hide DoMark, DoClear, DoActivate, DoCompleteRevoke;
    match step
    case Mark(p) => MarkFrame(s, p);
    case Clear(p) => ClearFrame(s, p);
    case Activate(opId, owner, version, expected, now) => ActivateFrame(s, opId, owner, version, expected, now);
    case CompleteRevokeOp(opId, owner, at, now) => CompleteFrame(s, opId, owner, at, now);
    case RollbackTo(certId, versionId) =>
  }

  /** Steps that only read the store. */
  predicate ReadStep(step: Step) {
    step.BeginIssue? || step.BeginRenew? || step.BeginUpdate? || step.CheckLock? || step.BeginRevoke? || step.Disappear?
  }

  lemma ReadStepFrame(s: State, step: Step)
    requires ReadStep(step)
    ensures var s' := Apply(s, step);
            && s' == s.(calls := s'.calls)
            && forall p | p in s'.calls ::
                 || (p in s.calls && s'.calls[p] == s.calls[p])
                 || (p in s.calls && s'.calls[p].certId == s.calls[p].certId
                       && (s'.calls[p].Editing? || s'.calls[p].Updating?))
                 || (s'.calls[p].certId in s.db.certs && !s'.calls[p].Marked? && !s'.calls[p].Clearing?
                     && (s'.calls[p].Revoking? ==> SlotOf(s.db.certs[s'.calls[p].certId], s'.calls[p].versionId).Some?)
                     && (s'.calls[p].Submitting? ==>
                           var c := s.db.certs[s'.calls[p].certId];
                           if step.BeginIssue? then !s'.calls[p].renewal && s'.calls[p].snapshot == c.desired
                           else
                             s'.calls[p].renewal && c.active.Some? && s'.calls[p].snapshot == c.active.value.snapshot))
  {
  }

  // ---------- One operation in flight per certificate ----------

  lemma UniqueKept(s: State, step: Step)
    requires OneInFlight(s.db.ops)
    ensures OneInFlight(Apply(s, step).db.ops)
  {
    if OpsStep(step) {
      hide Apply;
      OpsStepFrame(s, step);
    } else if ReadStep(step) {
      hide Apply;
      ReadStepFrame(s, step);
    } else if SlotStep(step) {
      hide Apply;
      SlotStepFrame(s, step);
    } else {
      WritesKeepUnique(s, step);
    }
  }

  lemma WritesKeepUnique(s: State, step: Step)
    requires OneInFlight(s.db.ops) && !OpsStep(step) && !ReadStep(step) && !SlotStep(step)
    ensures OneInFlight(Apply(s, step).db.ops)
  {
  }

  lemma {:induction false} UniqueInRun(s: State, steps: seq<Step>)
    requires OneInFlight(s.db.ops)
    ensures OneInFlight(Exec(s, steps).db.ops)
    decreases |steps|
  {
    if steps != [] {
      UniqueKept(s, steps[0]);
      UniqueInRun(Apply(s, steps[0]), steps[1..]);
    }
  }

  // ---------- Fresh ids ----------

  lemma {:induction false} LongerThan(used: set<string>) returns (n: nat)
    ensures forall u | u in used :: |u| < n
    decreases used
  {
    n := 0;
    if used != {} {
      var u :| u in used;
      n := LongerThan(used - {u});
      n := if n <= |u| then |u| + 1 else n;
    }
  }

  /** An id that was not drawn before. */
  lemma FreshId(used: set<string>) returns (id: string)
    ensures id !in used
  {
    var n := LongerThan(used);
    id := seq(n, _ => 'v');
  }
}
