/** What the lease protocol guarantees after every run. */
module LeaseTheorems {
  import opened Options
  import opened Certs
  import opened Operations
  import opened LeaseProtocol
  import opened LeaseInvariant
  import Retry

  lemma Reachable(steps: seq<Step>)
    ensures Inv(Exec(Init, steps))
  {
    InitHolds();
    RunKeeps(Init, steps);
  }

  lemma MatchMeansCurrent(s: State, k: Key)
    requires Inv(s) && AtWork(s, k) && Matches(s, k)
    ensures k.op in s.history
    ensures s.attempts[k].copy.attemptCount == s.ops[k.op].attemptCount == |s.history[k.op].claims|
    ensures s.attempts[k].copy.consecutiveFailures == s.ops[k.op].consecutiveFailures
  {
  }

  predicate IsOutcome(action: Action) {
    action.RecordTxt? || action.WriteSuccess? || action.WriteFailure?
  }

  /**
   * Fencing. The guard compares replica ids only; still, an outcome write that lands was made by the
   * attempt of the latest claim, from a copy whose failure counter is the document's own, and touches
   * no other document.
   */
  lemma Fencing(steps: seq<Step>, k: Key, action: Action)
    requires IsOutcome(action)
    ensures var s := Exec(Init, steps);
            var s' := ApplyAction(s, k, action);
            && (forall i | i != k.op :: Doc(s', i) == Doc(s, i))
            && (Doc(s', k.op) != Doc(s, k.op) ==>
                  && AtWork(s, k) && k.op in s.ops && k.op in s.history
                  && s.attempts[k].copy.attemptCount == s.ops[k.op].attemptCount == |s.history[k.op].claims|
                  && s.attempts[k].copy.consecutiveFailures == s.ops[k.op].consecutiveFailures)
  {
    hide Inv;
    var s := Exec(Init, steps);
    Reachable(steps);
    if AtWork(s, k) && Matches(s, k) {
      MatchMeansCurrent(s, k);
    }
  }

  /** A succeeded operation's latest claim wrote the certificate, with the operation's own snapshot or target. */
  lemma SuccessMeansWritten(steps: seq<Step>, id: string)
    requires id in Exec(Init, steps).ops && Exec(Init, steps).ops[id].status == Succeeded
    ensures var s := Exec(Init, steps);
            exists w :: Record(id, s.ops[id].attemptCount, w) in s.writes && WriteFits(s.ops[id], w)
  {
    Reachable(steps);
    assert Backed(Exec(Init, steps), id);
  }

  /** No claim writes the certificate twice, so an operation writes it at most once per claim. */
  lemma OneWritePerClaim(steps: seq<Step>, q: Record, r: Record)
    requires q in Exec(Init, steps).writes && r in Exec(Init, steps).writes && q.op == r.op
    ensures q.claim == r.claim ==> q == r
    ensures q.op in Exec(Init, steps).history && 0 < q.claim <= |Exec(Init, steps).history[q.op].claims|
  {
    Reachable(steps);
  }

  /** Attempt count = retries + takeovers while pending, one more while running; failures = retries until success. */
  lemma AttemptBookkeeping(steps: seq<Step>, id: string)
    requires id in Exec(Init, steps).ops
    ensures var s := Exec(Init, steps); id in s.history && Bookkeeping(s.ops[id], s.history[id])
  {
    Reachable(steps);
  }

  /** No operation is ever scheduled for an eleventh retry, whatever the (nonnegative) jitter. */
  lemma AtMostTenRetries(steps: seq<Step>, id: string)
    requires id in Exec(Init, steps).ops
    ensures var s := Exec(Init, steps); id in s.history && s.history[id].retries <= 10
  {
    Reachable(steps);
    var s := Exec(Init, steps);
    assert OpOk(s.ops[id], id, s.clock, s.history[id]);
    Retry.AtMostTenWaitsFit(s.history[id].retries);
  }

  /**
   * What a failed attempt makes of its operation: it waits for a retry if the error is not permanent, the 72
   * hours since its creation are not over, and will not be over by the next attempt; otherwise it has failed,
   * with the given summary only for a permanent error in time.
   */
  ghost predicate FailedTo(o: Operation, o': Operation, permanent: bool, summary: string, t1: Time, t2: Time, t3: Time,
                           jitter: nat) {
    var nextAt := t2 + Retry.Min(15 * MINUTE * Retry.Pow2(o.consecutiveFailures), 12 * HOUR) + jitter;
    var deadline := o.createdAt + 72 * HOUR;
    if !permanent && t1 < deadline && nextAt < deadline then
      o' == o.(status := Pending, errorSummary := summary, nextAttemptAt := Some(nextAt),
               consecutiveFailures := o.consecutiveFailures + 1, leaseOwner := "", leaseExpiresAt := None)
    else
      o' == o.(status := Failed, finishedAt := Some(t3), leaseOwner := "", leaseExpiresAt := None,
               errorSummary := if permanent && t1 < deadline then summary else "operation total timeout exceeded")
  }

  lemma DecisionIsRight(copy: Operation, o: Operation, permanent: bool, summary: string, t1: Time, t2: Time, t3: Time,
                        jitter: nat)
    requires copy.deadlineAt == Some(o.createdAt + 72 * HOUR) && copy.consecutiveFailures == o.consecutiveFailures
    ensures match AfterFailure(copy, permanent, summary, t1, t2, jitter)
            case GiveUp(text) => FailedTo(o, Fail(o, text, t3), permanent, summary, t1, t2, t3, jitter)
            case TryAgain(nextAt, failures) =>
              FailedTo(o, ReleaseForRetry(o, nextAt, summary, failures), permanent, summary, t1, t2, t3, jitter)
  {
  }

  /** A failure that lands in a run does that to the document as it is then, although it is decided on a copy. */
  lemma FailureOutcome(steps: seq<Step>, k: Key, permanent: bool, summary: string, t1: Time, t2: Time, t3: Time,
                       jitter: nat)
    requires var s := Exec(Init, steps); AtWork(s, k) && Matches(s, k) && FailureTimes(s, k, t1, t2)
    ensures var s := Exec(Init, steps);
            var s' := Apply(s, Act(k, WriteFailure(permanent, summary, t1, t2, t3, jitter)));
            && k.op in s'.ops && s'.ops == s.ops[k.op := s'.ops[k.op]]
            && FailedTo(s.ops[k.op], s'.ops[k.op], permanent, summary, t1, t2, t3, jitter)
  {
    var s := Exec(Init, steps);
    Reachable(steps);
    MatchMeansCurrent(s, k);
    SameDeadlineAsCopy(s, k);
    hide Inv, Exec, Matches, AfterFailure, FailedTo, Fail, ReleaseForRetry;
    DecisionIsRight(s.attempts[k].copy, s.ops[k.op], permanent, summary, t1, t2, t3, jitter);
  }

  lemma SameDeadlineAsCopy(s: State, k: Key)
    requires Inv(s) && AtWork(s, k) && Matches(s, k)
    ensures s.attempts[k].copy.deadlineAt == Some(s.ops[k.op].createdAt + 72 * HOUR)
  {
    assert AttemptOk(s.attempts[k], k, s.clock, Doc(s, k.op));
    assert OpOk(s.ops[k.op], k.op, s.clock, s.history[k.op]);
  }

  /** A certificate never has two operations in flight. */
  lemma AtMostOneInFlight(steps: seq<Step>, i: string, j: string)
    requires var s := Exec(Init, steps);
             && i in s.ops && j in s.ops && s.ops[i].certId == s.ops[j].certId
             && InFlight(s.ops[i]) && InFlight(s.ops[j])
    ensures i == j
  {
    Reachable(steps);
  }

  /** A terminal document keeps its verdict; a document that is gone stays gone. */
  ghost predicate Settled(s: State, s': State, id: string) {
    && (id in s.ops && id in s'.ops && Terminal(s.ops[id]) ==>
          && s'.ops[id].status == s.ops[id].status && s'.ops[id].attemptCount == s.ops[id].attemptCount
          && s'.ops[id].finishedAt == s.ops[id].finishedAt && s'.ops[id].errorSummary == s.ops[id].errorSummary)
    && (id in s.history ==> id in s'.history && (id !in s.ops ==> id !in s'.ops))
  }

  lemma ActionSettled(s: State, k: Key, action: Action, id: string)
    ensures Settled(s, ApplyAction(s, k, action), id)
  {
  }

  lemma StepSettled(s: State, step: Step, id: string)
    requires Inv(s)
    ensures Settled(s, Apply(s, step), id)
  {
    hide ApplyAction, AttemptOk, OpOk, RecordOk;
    if step.Act? {
      ActionSettled(s, step.k, step.action, id);
    }
  }

  lemma {:induction false} VerdictsAreFinal(s: State, steps: seq<Step>, id: string)
    requires Inv(s)
    ensures Settled(s, Exec(s, steps), id)
    decreases |steps|
  {
    if steps != [] {
      StepSettled(s, steps[0], id);
      StepKeeps(s, steps[0]);
      VerdictsAreFinal(Apply(s, steps[0]), steps[1..], id);
    }
  }

  /**
   * The conflict count taken before a claim is redundant: whenever it turns an attempt away, the
   * operation has already ended or is gone, and no later state of any run lets it be claimed.
   */
  lemma ConflictGuardIsRedundant(steps: seq<Step>, k: Key, t: Time, later: seq<Step>, now: Time)
    requires var s := Exec(Init, steps);
             k in s.attempts && k !in DoCheck(s, k, t).attempts
    ensures var s' := Exec(Exec(Init, steps), later);
            k.op in s'.ops ==> !Claimable(s'.ops[k.op], now)
  {
    var s := Exec(Init, steps);
    Reachable(steps);
    if k.op in s.ops {
      if InFlight(s.ops[k.op]) {
        ConflictCountIsZero(s.ops, k.op, t);
        assert false;
      }
    }
    VerdictsAreFinal(s, later, k.op);
  }

  /**
   * The certificate write itself is not fenced: the check that the lease is held is a separate, earlier
   * read. For every write that lands, the attempt's replica is the lease owner if and only if the operation
   * still is running (not failed by the sweep, nor deleted) and has not been claimed again.
   */
  lemma InstallIsFencedExactly(steps: seq<Step>, k: Key, version: Version, t: Time)
    requires DoWriteCert(Exec(Init, steps), k, version, t) != Exec(Init, steps)
    ensures var s := Exec(Init, steps);
            && AtWork(s, k)
            && (Matches(s, k) <==>
                  && k.op in s.ops && s.ops[k.op].status == Running
                  && s.attempts[k].copy.attemptCount == s.ops[k.op].attemptCount)
  {
    Reachable(steps);
    var s := Exec(Init, steps);
    assert AttemptOk(s.attempts[k], k, s.clock, Doc(s, k.op));
  }

  /** What an attempt has copied as the active version is the one it expects to be active. */
  predicate CopiesNamed(s: State) {
    forall k | k in s.attempts && s.attempts[k].Working? && s.attempts[k].stage.Copied? ::
      s.attempts[k].stage.copy.id == s.attempts[k].stage.expectedId
  }

  lemma ActionNames(s: State, k: Key, action: Action)
    requires CopiesNamed(s)
    ensures CopiesNamed(ApplyAction(s, k, action))
  {
    hide CertUpdate, AfterFailure, SlotOf;
  }

  lemma {:induction false} CopiesStayNamed(s: State, steps: seq<Step>)
    requires CopiesNamed(s)
    ensures CopiesNamed(Exec(s, steps))
    decreases |steps|
  {
    if steps != [] {
      hide ApplyAction;
      if steps[0].Act? {
        ActionNames(s, steps[0].k, steps[0].action);
      }
      CopiesStayNamed(Apply(s, steps[0]), steps[1..]);
    }
  }

  /**
   * A later issue that lands in a run, whatever came between its reads and its write, puts its version in the
   * place of the active one and that one, as it was when it was read, in the previous slot.
   */
  lemma LaterIssueMovesActive(steps: seq<Step>, k: Key, version: Version, t: Time)
    requires var s := Exec(Init, steps);
             DoWriteCert(s, k, version, t) != s && s.attempts[k].copy.kind != Revoke && s.attempts[k].stage.Copied?
    ensures var s := Exec(Init, steps);
            var id := s.attempts[k].copy.certId;
            var copy := s.attempts[k].stage.copy;
            && id in s.certs && s.certs[id].active.Some? && s.certs[id].active.value.id == copy.id
            && DoWriteCert(s, k, version, t).certs
               == s.certs[id := s.certs[id].(active := Some(version), previous := Some(copy))]
  {
    CopiesStayNamed(Init, steps);
  }

  const StaleSnapshot := Snapshot(["example.org"], "iss", "dns", "ec_p256")
  const StaleVersion := Version("v1", StaleSnapshot, 0, DAY, false, None)
  const BareCert := Cert("c", StaleSnapshot, 30, [], None, None)

  lemma {:induction false} ExecAppend(s: State, steps: seq<Step>, step: Step)
    ensures Exec(s, steps + [step]) == Apply(Exec(s, steps), step)
    decreases |steps|
  {
    if steps == [] {
      assert [step][1..] == [];
    } else {
      assert (steps + [step])[1..] == steps[1..] + [step];
      ExecAppend(Apply(s, steps[0]), steps[1..], step);
    }
  }

  lemma Then(s0: State, steps: seq<Step>, s: State, step: Step) returns (steps': seq<Step>, s': State)
    requires Exec(s0, steps) == s
    ensures steps' == steps + [step] && s' == Apply(s, step) && Exec(s0, steps') == s'
  {
    ExecAppend(s0, steps, step);
    steps', s' := steps + [step], Apply(s, step);
  }

  lemma NoConflict(s: State, id: string)
    requires Inv(s) && id in s.ops && InFlight(s.ops[id])
    ensures OthersHolding(s.ops, id, s.clock) == {}
  {
  }

  predicate NoLateHeartbeat(steps: seq<Step>) {
    forall i | 0 <= i < |steps| :: !(steps[i].Act? && steps[i].action.LateHeartbeat?)
  }

  function ClaimSteps(k: Key, now: Time): seq<Step> {
    [Act(k, Trigger), Act(k, CheckConflict(now)), Act(k, ClaimLands)]
  }

  lemma Triggered(s: State, k: Key)
    requires !Busy(s, k.replica, k.op) && k.replica != "" && k.op in s.ops
    ensures Apply(s, Act(k, Trigger)) == s.(attempts := s.attempts[k := Waiting(s.clock)])
  {
  }

  lemma CheckPassed(s: State, k: Key, t: Time)
    requires k in s.attempts && s.attempts[k].Waiting? && s.attempts[k].since <= t <= s.clock
    requires k.op in s.ops && OthersHolding(s.ops, k.op, t) == {}
    ensures Apply(s, Act(k, CheckConflict(t))) == s.(attempts := s.attempts[k := Checked(s.attempts[k].since, t)])
  {
  }

  lemma Claimed(s: State, k: Key)
    requires k in s.attempts && s.attempts[k].Checked? && k.op in s.ops && k.op in s.history
    requires Claimable(s.ops[k.op], s.attempts[k].now)
    ensures var t := s.attempts[k].now;
            var s' := Apply(s, Act(k, ClaimLands));
            var o := Claim(s.ops[k.op], k.replica, t, t + LEASE);
            var stage := if DeadlineExceeded(o, t) then Overdue else Executing;
            && s' == s.(ops := s.ops[k.op := o], history := s'.history,
                        attempts := s.attempts[k := Working(o, t, s.clock, t + LEASE, stage)])
            && k.op in s'.history && s'.history[k.op].claims == s.history[k.op].claims + [t]
  {
  }

  lemma CheckNow(s0: State, steps: seq<Step>, s: State, k: Key) returns (steps': seq<Step>, s': State)
    requires Exec(s0, steps) == s && !Busy(s, k.replica, k.op) && k.replica != ""
    requires k.op in s.ops && OthersHolding(s.ops, k.op, s.clock) == {}
    ensures Exec(s0, steps') == s' && steps' == steps + [Act(k, Trigger)] + [Act(k, CheckConflict(s.clock))]
    ensures s' == s.(attempts := s.attempts[k := Checked(s.clock, s.clock)])
  {
    hide Apply, Busy, Exec, OthersHolding;
    Triggered(s, k);
    steps', s' := Then(s0, steps, s, Act(k, Trigger));
    CheckPassed(s', k, s.clock);
    steps', s' := Then(s0, steps', s', Act(k, CheckConflict(s.clock)));
  }

  /** Triggering, checking and claiming a claimable operation, by a replica that is not at it yet. */
  lemma ClaimNow(s0: State, steps: seq<Step>, s: State, k: Key) returns (steps': seq<Step>, s': State)
    requires Exec(s0, steps) == s && Inv(s)
    requires !Busy(s, k.replica, k.op) && k.replica != "" && k.op in s.ops && Claimable(s.ops[k.op], s.clock)
    ensures Exec(s0, steps') == s' && steps' == steps + ClaimSteps(k, s.clock)
    ensures s'.clock == s.clock && s'.certs == s.certs && s'.writes == s.writes && s'.beats == s.beats
    ensures s'.ops == s.ops[k.op := Claim(s.ops[k.op], k.replica, s.clock, s.clock + LEASE)]
    ensures k in s'.attempts && s'.attempts == s.attempts[k := s'.attempts[k]] && AtWork(s', k)
    ensures s'.attempts[k].copy == s'.ops[k.op] && s'.attempts[k].granted == s.clock + LEASE
    ensures !DeadlineExceeded(s.ops[k.op], s.clock) ==> s'.attempts[k].stage == Executing
    ensures k.op in s.history && k.op in s'.history
    ensures s'.history[k.op].claims == s.history[k.op].claims + [s.clock]
  {
    NoConflict(s, k.op);
    assert k.op in s.history;
    hide Inv, Apply, Busy, Claimable, Exec, OthersHolding;
    steps', s' := CheckNow(s0, steps, s, k);
    Claimed(s', k);
    steps', s' := Then(s0, steps', s', Act(k, ClaimLands));
  }

  lemma OneOperation() returns (steps: seq<Step>, s: State)
    ensures Exec(Init, steps) == s && s.clock == 0 && s.attempts == map[]
    ensures s.ops == map["o" := NewOperation("o", "c", Issue, StaleSnapshot, "", 0)]
    ensures s.beats == {} && s.history == map["o" := History([], 0, 0)]
    ensures s.certs == map["c" := BareCert]
  {
    steps, s := Then(Init, [], Init, SetCert("c", Some(BareCert)));
    steps, s := Then(Init, steps, s, Create("o", "c", Issue, StaleSnapshot, "", 0));
  }

  const Leader := Key("a", "o", 0)

  lemma ReadyToInstall(s: State, k: Key)
    requires AtStage(s, k, st => st == Executing) && s.attempts[k].copy.kind == Issue && Matches(s, k)
    requires s.attempts[k].copy.certId in s.certs && s.certs[s.attempts[k].copy.certId].active.None?
    ensures Apply(Apply(s, Act(k, LoadCert)), Act(k, CheckHeld)) == SetStage(s, k, Held(None))
  {
    hide DoClaim, DoWriteCert, DoWriteFailure, DoCreate, DoTrigger, DoCheck, SlotOf;
  }

  lemma OneClaim() returns (steps: seq<Step>, s: State)
    ensures Exec(Init, steps) == s && s.clock == 0 && s.certs == map["c" := BareCert]
    ensures s.attempts.Keys == {Leader} && AtStage(s, Leader, st => st == Executing)
    ensures s.attempts[Leader].copy == Claim(NewOperation("o", "c", Issue, StaleSnapshot, "", 0), "a", 0, LEASE)
    ensures s.ops == map["o" := s.attempts[Leader].copy]
  {
    hide Inv, Apply, Exec;
    steps, s := OneOperation();
    Reachable(steps);
    steps, s := ClaimNow(Init, steps, s, Leader);
  }

  lemma OneHolder() returns (steps: seq<Step>, s: State)
    ensures Exec(Init, steps) == s && s.clock == 0 && s.certs == map["c" := BareCert]
    ensures s.attempts.Keys == {Leader} && s.attempts[Leader].Working? && s.attempts[Leader].stage == Held(None)
    ensures s.attempts[Leader].copy == Claim(NewOperation("o", "c", Issue, StaleSnapshot, "", 0), "a", 0, LEASE)
    ensures s.ops == map["o" := s.attempts[Leader].copy]
  {
    hide Inv, Apply, Exec, Busy;
    steps, s := OneClaim();
    ReadyToInstall(s, Leader);
    steps, s := Then(Init, steps, s, Act(Leader, LoadCert));
    steps, s := Then(Init, steps, s, Act(Leader, CheckHeld));
  }

  lemma InstallLands(s: State, k: Key, version: Version, t: Time)
    requires AtStage(s, k, st => st == Held(None)) && s.attempts[k].copy.kind == Issue
    requires s.attempts[k].copy.certId in s.certs && s.certs[s.attempts[k].copy.certId].active.None?
    requires version.snapshot == s.attempts[k].copy.snapshot
    ensures var s' := Apply(s, Act(k, WriteCert(version, t)));
            var certId := s.attempts[k].copy.certId;
            && s'.ops == s.ops && s'.certs == s.certs[certId := s.certs[certId].(active := Some(version))]
            && s'.writes == s.writes + {Record(k.op, s.attempts[k].copy.attemptCount, Installed(version))}
  {
    hide DoClaim, DoWriteFailure, DoCreate, DoTrigger, DoCheck, DoLoad, DoReadSlots, SlotOf;
  }

  /** Replica "a" passes the check, loses its lease to "b", and then still installs its version. */
  lemma StaleInstallHappens() returns (steps: seq<Step>)
    ensures var s := Exec(Init, steps);
            && Record("o", 1, Installed(StaleVersion)) in s.writes
            && "o" in s.ops && s.ops["o"].attemptCount == 2 && OwnedBy(s.ops["o"], "b")
            && "c" in s.certs && s.certs["c"].active == Some(StaleVersion)
  {
    var s: State;
    hide Inv, ApplyAction;
    steps, s := OneHolder();
    steps, s := Then(Init, steps, s, Tick(LEASE));
    Reachable(steps);
    steps, s := ClaimNow(Init, steps, s, Key("b", "o", 0));
    InstallLands(s, Leader, StaleVersion, LEASE);
    steps, s := Then(Init, steps, s, Act(Leader, WriteCert(StaleVersion, LEASE)));
  }

  /** The deadline sweep fails the operation after the check, and the version is installed all the same. */
  lemma InstallAfterFailureHappens() returns (steps: seq<Step>)
    ensures var s := Exec(Init, steps);
            && Record("o", 1, Installed(StaleVersion)) in s.writes
            && "o" in s.ops && s.ops["o"].status == Failed && s.ops["o"].attemptCount == 1
            && "c" in s.certs && s.certs["c"].active == Some(StaleVersion)
  {
    var s: State;
    hide Inv, ApplyAction;
    steps, s := OneHolder();
    steps, s := Then(Init, steps, s, Tick(72 * HOUR));
    steps, s := Then(Init, steps, s, Sweep("o", 72 * HOUR));
    InstallLands(s, Leader, StaleVersion, LEASE);
    steps, s := Then(Init, steps, s, Act(Leader, WriteCert(StaleVersion, LEASE)));
  }
}
