/**
 * The operation lease protocol: any number of replicas trigger, claim, heartbeat, take over, retry,
 * fail and complete certificate operations through single-document guarded updates.
 *
 * A step that is not possible in a state leaves that state as it is, so every sequence of steps is a
 * run. A captured clock reading may be older than the moment its update takes effect. A replica that
 * dies just loses its attempts; a replica may also drop one attempt after any failed store call.
 * Methods that read, write the certificate and then write the operation take one step for each.
 */
module LeaseProtocol {
  import opened Options
  import opened Certs
  import opened Operations
  import Retry

  /** What an attempt writes to the certificate before it may report success. */
  datatype CertWrite = Installed(version: Version) | Revoked(versionId: string)

  datatype Stage =
    | Overdue
    | Executing
    | Loaded(expected: Option<string>)
    | Held(expected: Option<string>)
    | Copied(expectedId: string, copy: Version)
    | SlotKnown(slot: Slot)
    | Wrote(write: CertWrite)
    | Finished

  /** How far an attempt has come. */
  datatype Attempt =
    | Waiting(since: Time)
    | Checked(since: Time, now: Time)
    | Working(copy: Operation, claimAt: Time, since: Time, granted: Time, stage: Stage)

  /** An attempt of a replica at an operation; `run` tells apart the attempts it makes one after the other. */
  datatype Key = Key(replica: string, op: string, run: nat)

  /** History: claim times of an operation, how many of the claims were takeovers, retries scheduled. */
  datatype History = History(claims: seq<Time>, takeovers: nat, retries: nat)

  /** A heartbeat on its way to the store: who sent it, and the clock reading it carries. */
  datatype Beat = Beat(sender: Key, t: Time)

  /** History: the certificate write of the n-th claim of an operation. */
  datatype Record = Record(op: string, claim: nat, write: CertWrite)

  datatype State = State(
    clock: Time,
    ops: map<string, Operation>,
    certs: map<string, Cert>,
    attempts: map<Key, Attempt>,
    beats: set<Beat>,
    history: map<string, History>,
    writes: set<Record>)

  /** What a replica does about one operation. */
  datatype Action =
    | Trigger
    | CheckConflict(t: Time)
    | ClaimLands
    | SendHeartbeat
    | Heartbeat(t: Time)
    | LateHeartbeat(t: Time)
    | RecordTxt(txt: TxtRecord)
    | LoadCert
    | CheckHeld
    | ReadSlots
    | WriteCert(version: Version, t: Time)
    | WriteSuccess(t: Time)
    | WriteFailure(permanent: bool, summary: string, t1: Time, t2: Time, t3: Time, jitter: nat)
    | Leave

  datatype Step =
    | Tick(to: Time)
    | Create(id: string, certId: string, kind: Kind, snapshot: Snapshot, target: string, t: Time)
    | Act(k: Key, action: Action)
    | ClearTxt(id: string)
    | Crash(replica: string)
    | Sweep(id: string, t: Time)
    | SetCert(certId: string, cert: Option<Cert>)
    | DeleteOps(certId: string)

  const Init := State(0, map[], map[], map[], {}, map[], {})

  function Doc(s: State, id: string): Option<Operation> {
    if id in s.ops then Some(s.ops[id]) else None
  }

  /** The attempt at work under a key, if it has passed its claim and not written its outcome. */
  predicate AtWork(s: State, k: Key) {
    k in s.attempts && s.attempts[k].Working? && s.attempts[k].stage != Finished
  }

  predicate AtStage(s: State, k: Key, test: Stage -> bool) {
    AtWork(s, k) && test(s.attempts[k].stage)
  }

  function SetStage(s: State, k: Key, stage: Stage): State
    requires k in s.attempts && s.attempts[k].Working?
  {
    s.(attempts := s.attempts[k := s.attempts[k].(stage := stage)])
  }

  function SetDoc(s: State, id: string, o: Operation): State {
    s.(ops := s.ops[id := o])
  }

  predicate Matches(s: State, k: Key) {
    k.op in s.ops && OwnedBy(s.ops[k.op], k.replica)
  }

  function DoCreate(s: State, id: string, certId: string, kind: Kind, snapshot: Snapshot, target: string,
                    t: Time): State {
    if id in s.history || t > s.clock || HasInFlight(s.ops, certId) then s
    else s.(ops := s.ops[id := NewOperation(id, certId, kind, snapshot, target, t)],
            history := s.history[id := History([], 0, 0)])
  }

  /** The replica's in-flight table has an entry for the operation as long as an attempt at it lives. */
  predicate Busy(s: State, replica: string, op: string) {
    exists l | l in s.attempts :: l.replica == replica && l.op == op
  }

  function DoTrigger(s: State, k: Key): State {
    if Busy(s, k.replica, k.op) || k.op !in s.ops || k.replica == "" then s
    else s.(attempts := s.attempts[k := Waiting(s.clock)])
  }

  function DoCheck(s: State, k: Key, t: Time): State {
    if k !in s.attempts || !s.attempts[k].Waiting? || !(s.attempts[k].since <= t <= s.clock) then s
    else if k.op !in s.ops || OthersHolding(s.ops, k.op, t) != {} then s.(attempts := s.attempts - {k})
    else s.(attempts := s.attempts[k := Checked(s.attempts[k].since, t)])
  }

  function DoClaim(s: State, k: Key): State {
    if k !in s.attempts || !s.attempts[k].Checked? || k.op !in s.ops
        || !Claimable(s.ops[k.op], s.attempts[k].now) then s
    else
      var t := s.attempts[k].now;
      var o := s.ops[k.op];
      var o' := Claim(o, k.replica, t, t + LEASE);
      var h := if k.op in s.history then s.history[k.op] else History([], 0, 0);
      var h' := h.(claims := h.claims + [t], takeovers := h.takeovers + if o.status == Running then 1 else 0);
      var stage := if DeadlineExceeded(o', t) then Overdue else Executing;
      s.(ops := s.ops[k.op := o'], history := s.history[k.op := h'],
         attempts := s.attempts[k := Working(o', t, s.clock, t + LEASE, stage)])
  }

  function Renewed(s: State, k: Key, t: Time): State {
    if Matches(s, k) && LeaseHeld(s.ops[k.op], t) then SetDoc(s, k.op, s.ops[k.op].(leaseExpiresAt := Some(t + LEASE)))
    else s
  }

  /** A heartbeat carries the time at which it is sent; an attempt whose deadline has passed sends none. */
  function DoSendHeartbeat(s: State, k: Key): State {
    if !AtStage(s, k, st => st != Overdue) then s else s.(beats := s.beats + {Beat(k, s.clock)})
  }

  /** The heartbeat loop takes its clock readings one after the other. */
  function DoHeartbeat(s: State, k: Key, t: Time): State {
    if !AtWork(s, k) || t > s.clock || t < s.attempts[k].since || t + LEASE < s.attempts[k].granted then s
    else if Matches(s, k) && LeaseHeld(s.ops[k.op], t) then
      Renewed(s, k, t).(attempts := s.attempts[k := s.attempts[k].(granted := t + LEASE)])
    else s
  }

  /** A heartbeat that was sent by an attempt that has since ended arrives, once. */
  function DoLateHeartbeat(s: State, k: Key, t: Time): State {
    if k in s.attempts || Beat(k, t) !in s.beats then s
    else Renewed(s, k, t).(beats := s.beats - {Beat(k, t)})
  }

  /** A late heartbeat that moves the lease end. */
  predicate Lands(s: State, k: Key, t: Time) {
    k !in s.attempts && Beat(k, t) in s.beats && Matches(s, k) && LeaseHeld(s.ops[k.op], t)
  }

  function DoRecordTxt(s: State, k: Key, txt: TxtRecord): State {
    if !AtStage(s, k, st => st == Executing) || !Matches(s, k) then s
    else SetDoc(s, k.op, s.ops[k.op].(pendingTxt := s.ops[k.op].pendingTxt + {txt}))
  }

  function DoClearTxt(s: State, id: string): State {
    if id !in s.ops then s else SetDoc(s, id, s.ops[id].(pendingTxt := {}))
  }

  function DoLoad(s: State, k: Key): State {
    if !AtStage(s, k, st => st == Executing) || s.attempts[k].copy.certId !in s.certs then s
    else
      var copy := s.attempts[k].copy;
      var c := s.certs[copy.certId];
      if copy.kind == Revoke && SlotOf(c, copy.targetVersionId).None? then s
      else SetStage(s, k, Loaded(if c.active.Some? then Some(c.active.value.id) else None))
  }

  function DoCheckHeld(s: State, k: Key): State {
    if !AtStage(s, k, (st: Stage) => st.Loaded?) || !Matches(s, k) then s
    else SetStage(s, k, Held(s.attempts[k].stage.expected))
  }

  function DoReadSlots(s: State, k: Key): State {
    if !AtStage(s, k, (st: Stage) => st.Held?) || s.attempts[k].copy.certId !in s.certs then s
    else
      var a := s.attempts[k];
      var c := s.certs[a.copy.certId];
      if a.copy.kind == Revoke then
        if SlotOf(c, a.copy.targetVersionId).None? then s
        else SetStage(s, k, SlotKnown(SlotOf(c, a.copy.targetVersionId).value))
      else if a.stage.expected.None? || !Holds(c, Active, a.stage.expected.value) then s
      else SetStage(s, k, Copied(a.stage.expected.value, c.active.value))
  }

  /** The write the attempt's stage allows, and the certificate it produces. */
  function CertUpdate(a: Attempt, c: Cert, version: Version, t: Time): Option<(Cert, CertWrite)>
    requires a.Working?
  {
    if a.copy.kind == Revoke then
      if !a.stage.SlotKnown? then None
      else
        match SetRevoked(c, a.stage.slot, a.copy.targetVersionId, t)
        case Ok(c') => Some((c', Revoked(a.copy.targetVersionId)))
        case Err(_) => None
    else if version.snapshot != a.copy.snapshot then None
    else
      var r :=
        if a.stage.Held? && a.stage.expected.None? then InstallFirst(c, version)
        else if a.stage.Copied? then SwapIn(c, version, a.stage.expectedId, a.stage.copy)
        else Err(ActiveVersionConflict);
      match r
      case Ok(c') => Some((c', Installed(version)))
      case Err(_) => None
  }

  function DoWriteCert(s: State, k: Key, version: Version, t: Time): State {
    if !AtWork(s, k) || s.attempts[k].copy.certId !in s.certs then s
    else
      var a := s.attempts[k];
      match CertUpdate(a, s.certs[a.copy.certId], version, t)
      case None => s
      case Some(u) =>
        SetStage(s, k, Wrote(u.1)).(
          certs := s.certs[a.copy.certId := u.0],
          writes := s.writes + {Record(k.op, a.copy.attemptCount, u.1)})
  }

  function DoWriteSuccess(s: State, k: Key, t: Time): State {
    if !AtStage(s, k, (st: Stage) => st.Wrote?) then s
    else if !Matches(s, k) then s
    else SetDoc(SetStage(s, k, Finished), k.op, Succeed(s.ops[k.op], t))
  }

  predicate FailureTimes(s: State, k: Key, t1: Time, t2: Time)
    requires k in s.attempts && s.attempts[k].Working?
  {
    s.attempts[k].since <= t1 <= t2 <= s.clock
  }

  /** The failure handler: whatever it decides, the attempt is over; the write lands if the guard matches. */
  function DoWriteFailure(s: State, k: Key, permanent: bool, summary: string, t1: Time, t2: Time, t3: Time,
                          jitter: nat): State {
    if !AtWork(s, k) || !FailureTimes(s, k, t1, t2) then s
    else if !Matches(s, k) then SetStage(s, k, Finished)
    else
      match AfterFailure(s.attempts[k].copy, permanent, summary, t1, t2, jitter)
      case GiveUp(text) => SetDoc(SetStage(s, k, Finished), k.op, Fail(s.ops[k.op], text, t3))
      case TryAgain(nextAt, failures) =>
        var h := if k.op in s.history then s.history[k.op] else History([], 0, 0);
        SetDoc(SetStage(s, k, Finished), k.op, ReleaseForRetry(s.ops[k.op], nextAt, summary, failures)).(
          history := s.history[k.op := h.(retries := h.retries + 1)])
  }

  function DoCrash(s: State, replica: string): State {
    s.(attempts := map k | k in s.attempts && k.replica != replica :: s.attempts[k])
  }

  /** The deadline sweep updates one document at a time. */
  function DoSweep(s: State, id: string, t: Time): State {
    if id !in s.ops || t > s.clock || !Expired(s.ops[id], t) then s
    else SetDoc(s, id, Fail(s.ops[id], TIMEOUT_SUMMARY, t))
  }

  function DoDeleteOps(s: State, certId: string): State {
    s.(ops := map i | i in s.ops && s.ops[i].certId != certId :: s.ops[i])
  }

  function DoSetCert(s: State, certId: string, cert: Option<Cert>): State {
    s.(certs := if cert.Some? then s.certs[certId := cert.value] else s.certs - {certId})
  }

  function ApplyAction(s: State, k: Key, action: Action): State {
    match action
    case Trigger => DoTrigger(s, k)
    case CheckConflict(t) => DoCheck(s, k, t)
    case ClaimLands => DoClaim(s, k)
    case SendHeartbeat => DoSendHeartbeat(s, k)
    case Heartbeat(t) => DoHeartbeat(s, k, t)
    case LateHeartbeat(t) => DoLateHeartbeat(s, k, t)
    case RecordTxt(txt) => DoRecordTxt(s, k, txt)
    case LoadCert => DoLoad(s, k)
    case CheckHeld => DoCheckHeld(s, k)
    case ReadSlots => DoReadSlots(s, k)
    case WriteCert(version, t) => DoWriteCert(s, k, version, t)
    case WriteSuccess(t) => DoWriteSuccess(s, k, t)
    case WriteFailure(permanent, summary, t1, t2, t3, jitter) =>
      DoWriteFailure(s, k, permanent, summary, t1, t2, t3, jitter)
    case Leave => s.(attempts := s.attempts - {k})
  }

  function Apply(s: State, step: Step): State {
    match step
    case Tick(to) => if to < s.clock then s else s.(clock := to)
    case Create(id, certId, kind, snapshot, target, t) => DoCreate(s, id, certId, kind, snapshot, target, t)
    case Act(k, action) => ApplyAction(s, k, action)
    case ClearTxt(id) => DoClearTxt(s, id)
    case Crash(replica) => DoCrash(s, replica)
    case Sweep(id, t) => DoSweep(s, id, t)
    case SetCert(certId, cert) => DoSetCert(s, certId, cert)
    case DeleteOps(certId) => DoDeleteOps(s, certId)
  }

  function Exec(s: State, steps: seq<Step>): State
    decreases |steps|
  {
    if steps == [] then s else Exec(Apply(s, steps[0]), steps[1..])
  }

  // ---------- The invariant ----------

  predicate WriteFits(o: Operation, w: CertWrite) {
    match w
    case Installed(v) => o.kind != Revoke && v.snapshot == o.snapshot
    case Revoked(id) => o.kind == Revoke && id == o.targetVersionId
  }

  /** Attempt and failure counters against the history. */
  predicate Bookkeeping(o: Operation, h: History) {
    && |h.claims| == o.attemptCount
    && (o.status != Succeeded ==> o.consecutiveFailures == h.retries)
    && (o.status == Pending ==> o.attemptCount == h.retries + h.takeovers)
    && (o.status == Running || o.status == Succeeded ==> o.attemptCount == h.retries + h.takeovers + 1)
    && (o.status == Failed ==> h.retries + h.takeovers <= o.attemptCount <= h.retries + h.takeovers + 1)
  }

  predicate LeaseFields(o: Operation) {
    && (o.status == Running <==> o.leaseOwner != "")
    && (o.status == Running <==> o.leaseExpiresAt.Some?)
    && (Terminal(o) <==> o.finishedAt.Some?)
  }

  /** No retry is due before the back-offs so far have passed, nor at or after the deadline. */
  predicate Paced(o: Operation, clock: Time, h: History) {
    && o.createdAt <= clock
    && o.deadlineAt == Some(o.createdAt + Retry.TOTAL_TIMEOUT)
    && Retry.Waited(h.retries) < Retry.TOTAL_TIMEOUT
    && (o.status == Pending && h.retries > 0 ==>
          && o.nextAttemptAt.Some?
          && o.createdAt + Retry.Waited(h.retries) <= o.nextAttemptAt.value < o.deadlineAt.value)
    && (o.status == Running ==> o.createdAt + Retry.Waited(h.retries) <= clock)
  }

  predicate OpOk(o: Operation, id: string, clock: Time, h: History) {
    o.id == id && Bookkeeping(o, h) && LeaseFields(o) && Paced(o, clock, h)
  }

  /** How an attempt's claim-time copy relates to the document as it is now. */
  predicate CopyOk(copy: Operation, stage: Stage, replica: string, o: Operation) {
    && SameRequest(o, copy)
    && copy.attemptCount <= o.attemptCount
    && (OwnedBy(o, replica) ==> copy.attemptCount == o.attemptCount)
    && (copy.attemptCount == o.attemptCount && o.status == Running ==>
          o.leaseOwner == replica && copy.consecutiveFailures == o.consecutiveFailures)
    && (copy.attemptCount == o.attemptCount && stage != Finished ==> o.status != Pending)
  }

  predicate AttemptOk(a: Attempt, k: Key, clock: Time, doc: Option<Operation>) {
    && k.replica != ""
    && match a
       case Waiting(since) => since <= clock && (doc.Some? ==> doc.value.createdAt <= since)
       case Checked(since, now) => since <= now <= clock && (doc.Some? ==> doc.value.createdAt <= since)
       case Working(copy, claimAt, since, granted, stage) =>
         && copy.id == k.op && copy.attemptCount > 0
         && claimAt <= since <= clock
         && copy.deadlineAt.Some?
         && copy.createdAt + Retry.Waited(copy.consecutiveFailures) <= since
         && (doc.Some? ==> CopyOk(copy, stage, k.replica, doc.value))
  }

  /** The certificate write of an attempt is on record exactly when its stage says so. */
  ghost predicate RecordOk(a: Attempt, k: Key, writes: set<Record>) {
    a.Working? ==>
      && (a.stage.Wrote? ==>
            Record(k.op, a.copy.attemptCount, a.stage.write) in writes && WriteFits(a.copy, a.stage.write))
      && (!a.stage.Wrote? && a.stage != Finished ==>
            forall r | r in writes && r.op == k.op :: r.claim != a.copy.attemptCount)
  }

  ghost predicate OpsOk(s: State) {
    && Keyed(s.ops)
    && (forall id | id in s.ops :: id in s.history && OpOk(s.ops[id], id, s.clock, s.history[id]))
  }

  ghost predicate AttemptsOk(s: State) {
    forall k | k in s.attempts ::
      k.op in s.history && AttemptOk(s.attempts[k], k, s.clock, Doc(s, k.op)) && RecordOk(s.attempts[k], k, s.writes)
  }

  /** A replica never has two attempts at one operation. */
  ghost predicate OneAttemptEach(keys: set<Key>) {
    forall k, l | k in keys && l in keys && k.replica == l.replica && k.op == l.op :: k == l
  }

  /** Two attempts at work on one operation are different claims of it. */
  ghost predicate DistinctClaims(s: State) {
    && (forall k | k in s.attempts && s.attempts[k].Working? && k.op in s.history ::
          s.attempts[k].copy.attemptCount <= |s.history[k.op].claims|)
    && (forall k, l | k in s.attempts && l in s.attempts && k != l && k.op == l.op
            && s.attempts[k].Working? && s.attempts[l].Working? ::
          s.attempts[k].copy.attemptCount != s.attempts[l].copy.attemptCount)
  }

  ghost predicate WritesOk(s: State) {
    && (forall r | r in s.writes :: r.op in s.history && 0 < r.claim <= |s.history[r.op].claims|)
    && (forall q, r | q in s.writes && r in s.writes && q.op == r.op && q.claim == r.claim :: q == r)
  }

  /** Success is backed by the certificate write of the latest claim. */
  ghost predicate Backed(s: State, id: string)
    requires id in s.ops
  {
    exists w :: Record(id, s.ops[id].attemptCount, w) in s.writes && WriteFits(s.ops[id], w)
  }

  ghost predicate SuccessBacked(s: State) {
    forall id | id in s.ops && s.ops[id].status == Succeeded :: Backed(s, id)
  }

  ghost predicate Inv(s: State) {
    && OpsOk(s)
    && AttemptsOk(s)
    && OneAttemptEach(s.attempts.Keys)
    && DistinctClaims(s)
    && OneInFlight(s.ops)
    && WritesOk(s)
    && SuccessBacked(s)
  }
}
