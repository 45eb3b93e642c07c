/**
 * The steps of the lease protocol are the store's methods. Updates of a single document are one step each;
 * a method that reads, writes the certificate and then the operation is what its steps do when nothing comes
 * in between.
 */
module StoreSteps {
  import opened Options
  import opened Certs
  import opened Operations
  import opened LeaseProtocol
  import opened LeaseInvariant
  import S = CertificateStore

  /** The two collections in a state of the protocol. */
  function Stored(s: State): S.Db {
    S.Db(s.certs, s.ops)
  }

  lemma CreateIsStep(s: State, id: string, certId: string, kind: Kind, snapshot: Snapshot, target: string, t: Time)
    requires Inv(s) && t <= s.clock && (id in s.history ==> id in s.ops)
    ensures Stored(DoCreate(s, id, certId, kind, snapshot, target, t))
            == S.CreateOperation(Stored(s), NewOperation(id, certId, kind, snapshot, target, t)).db
  {
    hide Inv, HasInFlight;
    assert id in s.ops ==> id in s.history by {
      IdsInHistory(s);
    }
  }

  lemma IdsInHistory(s: State)
    requires Inv(s)
    ensures s.ops.Keys <= s.history.Keys
  {
  }

  /** The conflict count and the claim, one right after the other. */
  lemma ClaimIsSteps(s: State, k: Key, t: Time)
    requires Inv(s) && k in s.attempts && s.attempts[k].Waiting? && s.attempts[k].since <= t <= s.clock
    ensures var s' := DoClaim(DoCheck(s, k, t), k);
            var reply := S.TryClaim(Stored(s), k.op, k.replica, t, t + LEASE);
            && Stored(s') == reply.db
            && (AtWork(s', k) <==> reply.result.Ok?)
  {
    hide Inv, OthersHolding, Claimable;
  }

  lemma HeartbeatIsStep(s: State, k: Key, t: Time)
    ensures Stored(Renewed(s, k, t)) == S.RenewLease(Stored(s), k.op, k.replica, t + LEASE, t).db
  {
  }

  lemma RecordTxtIsStep(s: State, k: Key, txt: TxtRecord)
    requires AtStage(s, k, st => st == Executing)
    ensures Stored(DoRecordTxt(s, k, txt)) == S.AddPendingTxt(Stored(s), k.op, k.replica, txt).db
  {
  }

  lemma ClearTxtIsStep(s: State, id: string)
    ensures DoClearTxt(s, id) == s.(ops := DoClearTxt(s, id).ops)
    ensures DoClearTxt(s, id).ops == if id in s.ops then s.ops[id := s.ops[id].(pendingTxt := {})] else s.ops
  {
  }

  lemma FailureIsStep(s: State, k: Key, permanent: bool, summary: string, t1: Time, t2: Time, t3: Time, jitter: nat)
    requires AtWork(s, k) && FailureTimes(s, k, t1, t2)
    ensures Stored(DoWriteFailure(s, k, permanent, summary, t1, t2, t3, jitter)) ==
            match AfterFailure(s.attempts[k].copy, permanent, summary, t1, t2, jitter)
            case GiveUp(text) => S.MarkFailed(Stored(s), k.op, k.replica, text, t3).db
            case TryAgain(nextAt, failures) =>
              S.ScheduleRetry(Stored(s), k.op, k.replica, nextAt, summary, failures).db
  {
    hide AfterFailure, Fail, ReleaseForRetry;
  }

  function Sweeps(ids: seq<string>, t: Time): seq<Step> {
    if ids == [] then [] else [Sweep(ids[0], t)] + Sweeps(ids[1..], t)
  }

  /** The deadline sweep updates the documents one after the other. */
  lemma {:induction false} SweepIsSteps(s: State, ids: seq<string>, t: Time)
    requires t <= s.clock && forall i | i in s.ops && Expired(s.ops[i], t) :: i in ids
    ensures Stored(Exec(s, Sweeps(ids, t))) == S.FailExpired(Stored(s), t)
    decreases |ids|
  {
    hide Expired, Fail, ApplyAction, DoCreate;
    if ids == [] {
      assert S.FailExpired(Stored(s), t).ops == s.ops;
    } else {
      assert Sweeps(ids, t)[1..] == Sweeps(ids[1..], t);
      SweptOnce(s, ids[0], t);
      hide Apply, S.FailExpired;
      SweepIsSteps(Apply(s, Sweep(ids[0], t)), ids[1..], t);
    }
  }

  /** Sweeping one document first makes no difference to the sweep of all. */
  lemma SweptOnce(s: State, id: string, t: Time)
    requires t <= s.clock
    ensures var s' := Apply(s, Sweep(id, t));
            && s'.clock == s.clock && S.FailExpired(Stored(s'), t) == S.FailExpired(Stored(s), t)
            && forall i | i in s'.ops && Expired(s'.ops[i], t) :: i in s.ops && Expired(s.ops[i], t) && i != id
  {
    hide ApplyAction, DoCreate;
    var s' := Apply(s, Sweep(id, t));
    assert S.FailExpired(Stored(s'), t).ops == S.FailExpired(Stored(s), t).ops;
  }

  /** Deleting a certificate deletes its operations, then the certificate. */
  lemma DeleteIsSteps(s: State, certId: string)
    requires certId in s.certs && s.certs[certId].serverIds == [] && !HasInFlight(s.ops, certId)
    ensures Stored(DoSetCert(DoDeleteOps(s, certId), certId, None)) == S.DeleteCertificate(Stored(s), certId).db
  {
  }

  // ---------- Completing an operation ----------

  /** What an attempt reads before it writes the certificate. */
  function Prepare(s: State, k: Key): State {
    DoReadSlots(DoCheckHeld(DoLoad(s, k), k), k)
  }

  function Complete(s: State, k: Key, version: Version, t: Time, now: Time): State {
    DoWriteSuccess(DoWriteCert(s, k, version, t), k, now)
  }

  /** The certificate an attempt is about to write, and the stage in which it knows enough to do so. */
  function ReadyStage(c: Cert, copy: Operation): Option<Stage> {
    if copy.kind == Revoke then
      match SlotOf(c, copy.targetVersionId)
      case None => None
      case Some(slot) => Some(SlotKnown(slot))
    else if c.active.None? then Some(Held(None))
    else Some(Copied(c.active.value.id, c.active.value))
  }

  predicate IsReady(s: State, k: Key)
    requires k in s.attempts && s.attempts[k].Working?
  {
    var copy := s.attempts[k].copy;
    copy.certId in s.certs && Matches(s, k) && ReadyStage(s.certs[copy.certId], copy).Some?
  }

  /** Before the held-check has passed no certificate write lands. */
  ghost predicate Unready(s: State, s': State, k: Key) {
    && Stored(s') == Stored(s) && AtWork(s', k)
    && (s'.attempts[k].stage == Executing || s'.attempts[k].stage.Loaded?)
  }

  lemma Prepared(s: State, k: Key)
    requires AtStage(s, k, st => st == Executing)
    ensures if IsReady(s, k) then
              Prepare(s, k) == SetStage(s, k, ReadyStage(s.certs[s.attempts[k].copy.certId], s.attempts[k].copy).value)
            else Unready(s, Prepare(s, k), k)
  {
  }

  lemma NothingWritten(s: State, k: Key, version: Version, t: Time, now: Time)
    requires AtWork(s, k) && (s.attempts[k].stage == Executing || s.attempts[k].stage.Loaded?)
    ensures Complete(s, k, version, t, now) == s
  {
  }

  /** The two writes in a row, when the held-check has passed and nothing changed since. */
  lemma BothWritten(s: State, k: Key, version: Version, t: Time, now: Time)
    requires AtWork(s, k) && IsReady(s, k)
    requires ReadyStage(s.certs[s.attempts[k].copy.certId], s.attempts[k].copy) == Some(s.attempts[k].stage)
    ensures var copy := s.attempts[k].copy;
            var u := CertUpdate(s.attempts[k], s.certs[copy.certId], version, t);
            Stored(Complete(s, k, version, t, now)) ==
            if u.None? then Stored(s)
            else S.Db(s.certs[copy.certId := u.value.0], s.ops[k.op := Succeed(s.ops[k.op], now)])
  {
    hide CertUpdate, Succeed;
  }

  /** The method that completes an issuance, with the active version the attempt has read. */
  function Activate(s: State, k: Key, certId: string, version: Version, now: Time): S.Reply {
    if certId !in s.certs then S.Refuse(Stored(s), NotFound)
    else if s.certs[certId].active.None? then S.ActivateFirst(Stored(s), certId, version, k.op, k.replica, now)
    else S.ActivateSubsequent(Stored(s), certId, version, s.certs[certId].active.value.id, k.op, k.replica, now)
  }

  lemma Completes(s: State, k: Key, version: Version, t: Time, now: Time)
    requires AtStage(s, k, st => st == Executing)
    ensures var copy := s.attempts[k].copy;
            var s' := Complete(Prepare(s, k), k, version, t, now);
            if !IsReady(s, k) then Stored(s') == Stored(s)
            else
              var stage := ReadyStage(s.certs[copy.certId], copy).value;
              var u := CertUpdate(s.attempts[k].(stage := stage), s.certs[copy.certId], version, t);
              Stored(s') ==
              if u.None? then Stored(s)
              else S.Db(s.certs[copy.certId := u.value.0], s.ops[k.op := Succeed(s.ops[k.op], now)])
  {
    hide Prepare, Complete, CertUpdate, Succeed;
    Prepared(s, k);
    if IsReady(s, k) {
      BothWritten(Prepare(s, k), k, version, t, now);
    } else {
      NothingWritten(Prepare(s, k), k, version, t, now);
    }
  }

  /** Without interleaving, the steps of an issuance are the store's activation of its version. */
  lemma IssuanceIsSteps(s: State, k: Key, version: Version, t: Time, now: Time)
    requires AtStage(s, k, st => st == Executing) && s.attempts[k].copy.kind != Revoke
    requires version.snapshot == s.attempts[k].copy.snapshot
    ensures Stored(Complete(Prepare(s, k), k, version, t, now))
            == Activate(s, k, s.attempts[k].copy.certId, version, now).db
  {
    hide Prepare, Complete, Succeed;
    Completes(s, k, version, t, now);
  }

  /** Without interleaving, the steps of a revocation are the store's completion of it. */
  lemma RevocationIsSteps(s: State, k: Key, version: Version, t: Time, now: Time)
    requires AtStage(s, k, st => st == Executing) && s.attempts[k].copy.kind == Revoke
    ensures var copy := s.attempts[k].copy;
            Stored(Complete(Prepare(s, k), k, version, t, now))
            == S.CompleteRevocation(Stored(s), copy.certId, copy.targetVersionId, k.op, k.replica, t, now).db
  {
    hide Prepare, Complete, Succeed;
    Completes(s, k, version, t, now);
  }
}
