/** Every step of the lease protocol keeps its invariant. */
module LeaseInvariant {
  import opened Options
  import opened Certs
  import opened Operations
  import opened LeaseProtocol
  import Retry

  lemma InitHolds()
    ensures Inv(Init)
  {
  }

  /** Changing one attempt that keeps its claim keeps the invariant. */
  lemma AttemptChange(s: State, k: Key, a: Attempt)
    requires Inv(s) && k.op in s.history && (k in s.attempts || !Busy(s, k.replica, k.op))
    requires AttemptOk(a, k, s.clock, Doc(s, k.op)) && RecordOk(a, k, s.writes)
    requires a.Working? ==>
               k in s.attempts && s.attempts[k].Working? && s.attempts[k].copy.attemptCount == a.copy.attemptCount
    ensures Inv(s.(attempts := s.attempts[k := a]))
  {
    OneMoreAttempt(s, k, a);
    AttemptsStayDistinct(s, k, a);
    AttemptFits(s, k, a);
    hide OneAttemptEach, Busy, OpsOk, SuccessBacked, OneInFlight, WritesOk, AttemptsOk, DistinctClaims;
  }

  lemma AttemptFits(s: State, k: Key, a: Attempt)
    requires AttemptsOk(s) && k.op in s.history && AttemptOk(a, k, s.clock, Doc(s, k.op)) && RecordOk(a, k, s.writes)
    ensures AttemptsOk(s.(attempts := s.attempts[k := a]))
  {
    hide AttemptOk, RecordOk;
  }

  lemma AttemptsStayDistinct(s: State, k: Key, a: Attempt)
    requires DistinctClaims(s)
    requires a.Working? ==>
               k in s.attempts && s.attempts[k].Working? && s.attempts[k].copy.attemptCount == a.copy.attemptCount
    ensures DistinctClaims(s.(attempts := s.attempts[k := a]))
  {
  }

  lemma OneMoreAttempt(s: State, k: Key, a: Attempt)
    requires OneAttemptEach(s.attempts.Keys) && (k in s.attempts || !Busy(s, k.replica, k.op))
    ensures OneAttemptEach(s.attempts[k := a].Keys)
  {
  }

  lemma AttemptsRemoved(s: State, rest: map<Key, Attempt>)
    requires Inv(s)
    requires forall k | k in rest :: k in s.attempts && rest[k] == s.attempts[k]
    ensures Inv(s.(attempts := rest))
  {
  }

  function SetDocAndHistory(s: State, id: string, o: Operation, h: History): State {
    s.(ops := s.ops[id := o], history := s.history[id := h])
  }

  /** Changing one document, and the history of its claims, to ones that suit each other and all its attempts. */
  lemma DocAndHistoryChange(s: State, id: string, o: Operation, h: History)
    requires Inv(s) && id in s.ops
    requires OpOk(o, id, s.clock, h) && SameRequest(o, s.ops[id]) && h.claims == s.history[id].claims
    requires InFlight(o) ==> InFlight(s.ops[id])
    requires o.status == Succeeded ==> exists w :: Record(id, o.attemptCount, w) in s.writes && WriteFits(o, w)
    requires forall k | k in s.attempts && k.op == id :: AttemptOk(s.attempts[k], k, s.clock, Some(o))
    ensures Inv(SetDocAndHistory(s, id, o, h))
  {
    var s' := SetDocAndHistory(s, id, o, h);
    assert AttemptsOk(s') by {
      forall k | k in s'.attempts
        ensures AttemptOk(s'.attempts[k], k, s'.clock, Doc(s', k.op))
      {
        assert AttemptOk(s.attempts[k], k, s.clock, Doc(s, k.op));
      }
    }
    ClaimsUnchanged(s, s');
    assert SuccessBacked(s') by {
      forall i | i in s'.ops && s'.ops[i].status == Succeeded
        ensures Backed(s', i)
      {
        if i != id {
          assert Backed(s, i);
        }
      }
    }
    UpdateKeepsOneInFlight(s.ops, id, o);
  }

  lemma ClaimsUnchanged(s: State, s': State)
    requires DistinctClaims(s) && WritesOk(s)
    requires s'.attempts == s.attempts && s'.writes == s.writes
    requires s'.history.Keys == s.history.Keys
    requires forall i | i in s.history :: s'.history[i].claims == s.history[i].claims
    ensures DistinctClaims(s') && WritesOk(s')
  {
  }

  lemma UpdateKeepsOneInFlight(ops: map<string, Operation>, id: string, o: Operation)
    requires OneInFlight(ops) && id in ops && o.certId == ops[id].certId && (InFlight(o) ==> InFlight(ops[id]))
    ensures OneInFlight(ops[id := o])
  {
  }

  lemma DocChange(s: State, id: string, o: Operation)
    requires Inv(s) && id in s.ops
    requires OpOk(o, id, s.clock, s.history[id]) && SameRequest(o, s.ops[id])
    requires InFlight(o) ==> InFlight(s.ops[id])
    requires o.status == Succeeded ==> exists w :: Record(id, o.attemptCount, w) in s.writes && WriteFits(o, w)
    requires forall k | k in s.attempts && k.op == id :: AttemptOk(s.attempts[k], k, s.clock, Some(o))
    ensures Inv(SetDoc(s, id, o))
  {
    DocAndHistoryChange(s, id, o, s.history[id]);
    assert s.history[id := s.history[id]] == s.history;
  }

  /** Updates that leave owner, status and counters alone suit every attempt. */
  lemma QuietDocChange(s: State, id: string, o: Operation)
    requires Inv(s) && id in s.ops && InFlight(s.ops[id]) && SameRequest(o, s.ops[id])
    requires o.status == s.ops[id].status && o.leaseOwner == s.ops[id].leaseOwner
    requires o.attemptCount == s.ops[id].attemptCount && o.consecutiveFailures == s.ops[id].consecutiveFailures
    requires o.leaseExpiresAt.Some? == s.ops[id].leaseExpiresAt.Some?
    requires o.finishedAt == s.ops[id].finishedAt && o.nextAttemptAt == s.ops[id].nextAttemptAt
    ensures Inv(SetDoc(s, id, o))
  {
    forall k | k in s.attempts && k.op == id
      ensures AttemptOk(s.attempts[k], k, s.clock, Some(o))
    {
      assert AttemptOk(s.attempts[k], k, s.clock, Doc(s, id));
    }
    DocChange(s, id, o);
  }

  lemma TickKeeps(s: State, to: Time)
    requires Inv(s) && s.clock <= to
    ensures Inv(s.(clock := to))
  {
  }

  lemma InsertKeepsOneInFlight(ops: map<string, Operation>, id: string, o: Operation)
    requires OneInFlight(ops) && id !in ops && !HasInFlight(ops, o.certId)
    ensures OneInFlight(ops[id := o])
  {
  }

  lemma CreateKeeps(s: State, id: string, certId: string, kind: Kind, snapshot: Snapshot, target: string, t: Time)
    requires Inv(s)
    ensures Inv(DoCreate(s, id, certId, kind, snapshot, target, t))
  {
    var s' := DoCreate(s, id, certId, kind, snapshot, target, t);
    if s' != s {
      var o := NewOperation(id, certId, kind, snapshot, target, t);
      var h := History([], 0, 0);
      InsertKeepsOneInFlight(s.ops, id, o);
      assert OpOk(o, id, s.clock, h) by {
        assert Retry.Waited(0) == 0;
      }
      InsertKeeps(s, id, o, h);
    }
  }

  lemma InsertKeeps(s: State, id: string, o: Operation, h: History)
    requires Inv(s) && id !in s.history && OneInFlight(s.ops[id := o])
    requires OpOk(o, id, s.clock, h) && o.status == Pending
    ensures Inv(SetDocAndHistory(s, id, o, h))
  {
    var s' := SetDocAndHistory(s, id, o, h);
    forall k | k in s'.attempts
      ensures AttemptOk(s'.attempts[k], k, s'.clock, Doc(s', k.op)) && RecordOk(s'.attempts[k], k, s'.writes)
    {
      assert k.op != id;
      assert AttemptOk(s.attempts[k], k, s.clock, Doc(s, k.op));
    }
    forall i | i in s'.ops && s'.ops[i].status == Succeeded
      ensures Backed(s', i)
    {
      assert Backed(s, i);
    }
  }

  lemma TriggerKeeps(s: State, k: Key)
    requires Inv(s)
    ensures Inv(DoTrigger(s, k))
  {
    if DoTrigger(s, k) != s {
      AttemptChange(s, k, Waiting(s.clock));
    }
  }

  lemma CheckedOk(s: State, k: Key, t: Time)
    requires Inv(s) && DoCheck(s, k, t) != s && k in DoCheck(s, k, t).attempts
    ensures var s' := DoCheck(s, k, t);
            && k in s.attempts && k.op in s.history && s' == s.(attempts := s.attempts[k := s'.attempts[k]])
            && s'.attempts[k].Checked? && AttemptOk(s'.attempts[k], k, s.clock, Doc(s, k.op))
  {
    assert AttemptOk(s.attempts[k], k, s.clock, Doc(s, k.op));
    hide OneAttemptEach, DistinctClaims, OneInFlight, WritesOk, SuccessBacked, OthersHolding;
  }

  lemma CheckKeeps(s: State, k: Key, t: Time)
    requires Inv(s)
    ensures Inv(DoCheck(s, k, t))
  {
    hide Inv, AttemptOk, OthersHolding;
    var s' := DoCheck(s, k, t);
    if k in s'.attempts && s' != s {
      CheckedOk(s, k, t);
      AttemptChange(s, k, s'.attempts[k]);
    } else if s' != s {
      AttemptsRemoved(s, s'.attempts);
    }
  }

  /** After a claim the new copy is current, and every other attempt on the operation is not. */
  lemma ClaimSuits(s: State, k: Key, l: Key)
    requires Inv(s) && DoClaim(s, k) != s && l in s.attempts
    ensures var s' := DoClaim(s, k);
            AttemptOk(s'.attempts[l], l, s'.clock, Doc(s', l.op)) && RecordOk(s'.attempts[l], l, s'.writes)
  {
    assert AttemptOk(s.attempts[k], k, s.clock, Doc(s, k.op));
    assert AttemptOk(s.attempts[l], l, s.clock, Doc(s, l.op));
  }

  lemma ClaimOpOk(s: State, k: Key)
    requires Inv(s) && DoClaim(s, k) != s
    ensures var s' := DoClaim(s, k); OpOk(s'.ops[k.op], k.op, s.clock, s'.history[k.op])
  {
  }

  lemma ClaimOpsOk(s: State, k: Key)
    requires Inv(s) && DoClaim(s, k) != s
    ensures OpsOk(DoClaim(s, k)) && DoClaim(s, k).attempts.Keys == s.attempts.Keys
  {
    ClaimOpOk(s, k);
    hide AttemptOk, RecordOk, OneAttemptEach, DistinctClaims, OneInFlight, WritesOk, SuccessBacked;
  }

  lemma ClaimAttemptsOk(s: State, k: Key)
    requires Inv(s) && DoClaim(s, k) != s
    ensures AttemptsOk(DoClaim(s, k))
  {
    var s' := DoClaim(s, k);
    hide AttemptOk, RecordOk, OpOk, OneAttemptEach, DistinctClaims, OneInFlight, WritesOk, SuccessBacked;
    forall l | l in s'.attempts
      ensures l.op in s'.history && AttemptOk(s'.attempts[l], l, s'.clock, Doc(s', l.op))
              && RecordOk(s'.attempts[l], l, s'.writes)
    {
      ClaimSuits(s, k, l);
    }
  }

  lemma ClaimKeeps(s: State, k: Key)
    requires Inv(s)
    ensures Inv(DoClaim(s, k))
  {
    if DoClaim(s, k) != s {
      ClaimOpsOk(s, k);
      ClaimAttemptsOk(s, k);
      ClaimRest(s, k);
      hide OpsOk, AttemptsOk, OneAttemptEach, DistinctClaims, WritesOk, SuccessBacked, OneInFlight, DoClaim;
    }
  }

  /** What a claim does to the parts of the invariant that span several documents or attempts. */
  lemma ClaimRest(s: State, k: Key)
    requires Inv(s) && DoClaim(s, k) != s
    ensures var s' := DoClaim(s, k);
            DistinctClaims(s') && OneInFlight(s'.ops) && WritesOk(s') && SuccessBacked(s')
  {
    ClaimDistinct(s, k);
    ClaimBacked(s, k);
    ClaimWritesOk(s, k);
    hide OneAttemptEach, DistinctClaims, SuccessBacked, AttemptsOk, WritesOk, OpsOk;
    UpdateKeepsOneInFlight(s.ops, k.op, DoClaim(s, k).ops[k.op]);
  }

  lemma ClaimWritesOk(s: State, k: Key)
    requires Inv(s) && DoClaim(s, k) != s
    ensures WritesOk(DoClaim(s, k))
  {
    hide OneAttemptEach, DistinctClaims, SuccessBacked, OneInFlight, AttemptOk, RecordOk, OpOk;
  }

  lemma ClaimDistinct(s: State, k: Key)
    requires Inv(s) && DoClaim(s, k) != s
    ensures DistinctClaims(DoClaim(s, k))
  {
    hide OneAttemptEach, SuccessBacked, OneInFlight, WritesOk, AttemptOk, RecordOk;
  }

  lemma ClaimBacked(s: State, k: Key)
    requires Inv(s) && DoClaim(s, k) != s
    ensures SuccessBacked(DoClaim(s, k))
  {
    var s' := DoClaim(s, k);
    hide OneAttemptEach, DistinctClaims, OneInFlight, WritesOk, AttemptOk, RecordOk, OpOk;
    forall i | i in s'.ops && s'.ops[i].status == Succeeded
      ensures Backed(s', i)
    {
      assert Backed(s, i);
    }
  }

  lemma RenewalKeeps(s: State, k: Key, t: Time)
    requires Inv(s)
    ensures Inv(Renewed(s, k, t))
  {
    if Renewed(s, k, t) != s {
      QuietDocChange(s, k.op, s.ops[k.op].(leaseExpiresAt := Some(t + LEASE)));
    }
  }

  /** Heartbeats on their way matter to nothing else. */
  lemma BeatsChange(s: State, beats: set<Beat>)
    requires Inv(s)
    ensures Inv(s.(beats := beats))
  {
  }

  lemma LateHeartbeatKeeps(s: State, k: Key, t: Time)
    requires Inv(s)
    ensures Inv(DoLateHeartbeat(s, k, t))
  {
    hide Inv, Renewed;
    RenewalKeeps(s, k, t);
    BeatsChange(Renewed(s, k, t), s.beats - {Beat(k, t)});
  }

  lemma SendHeartbeatKeeps(s: State, k: Key)
    requires Inv(s)
    ensures Inv(DoSendHeartbeat(s, k))
  {
    hide Inv;
    BeatsChange(s, s.beats + {Beat(k, s.clock)});
  }

  lemma GrantKeeps(s: State, k: Key, granted: Time)
    requires Inv(s) && k in s.attempts && s.attempts[k].Working?
    ensures Inv(s.(attempts := s.attempts[k := s.attempts[k].(granted := granted)]))
  {
    assert AttemptOk(s.attempts[k], k, s.clock, Doc(s, k.op)) && RecordOk(s.attempts[k], k, s.writes);
    assert k.op in s.history;
    hide Inv;
    AttemptChange(s, k, s.attempts[k].(granted := granted));
  }

  lemma HeartbeatKeeps(s: State, k: Key, t: Time)
    requires Inv(s)
    ensures Inv(DoHeartbeat(s, k, t))
  {
    RenewalKeeps(s, k, t);
    if DoHeartbeat(s, k, t) != s {
      hide Inv, Renewed;
      GrantKeeps(Renewed(s, k, t), k, t + LEASE);
    }
  }

  lemma TxtKeeps(s: State, id: string, txts: set<TxtRecord>)
    requires Inv(s) && id in s.ops
    ensures Inv(SetDoc(s, id, s.ops[id].(pendingTxt := txts)))
  {
    var o := s.ops[id].(pendingTxt := txts);
    forall k | k in s.attempts && k.op == id
      ensures AttemptOk(s.attempts[k], k, s.clock, Some(o))
    {
      assert AttemptOk(s.attempts[k], k, s.clock, Doc(s, id));
    }
    if o.status == Succeeded {
      assert Backed(s, id);
      var w :| Record(id, o.attemptCount, w) in s.writes && WriteFits(s.ops[id], w);
      assert WriteFits(o, w);
    }
    DocChange(s, id, o);
  }

  /** Moving on to a later stage that is not a certificate write. */
  lemma StageKeeps(s: State, k: Key, stage: Stage)
    requires Inv(s) && AtWork(s, k) && !stage.Wrote?
    requires s.attempts[k].stage.Wrote? ==> stage == Finished
    ensures Inv(SetStage(s, k, stage))
  {
    assert AttemptOk(s.attempts[k], k, s.clock, Doc(s, k.op)) && RecordOk(s.attempts[k], k, s.writes);
    AttemptChange(s, k, s.attempts[k].(stage := stage));
  }

  lemma LoadKeeps(s: State, k: Key)
    requires Inv(s)
    ensures Inv(DoLoad(s, k))
  {
    if DoLoad(s, k) != s {
      StageKeeps(s, k, DoLoad(s, k).attempts[k].stage);
    }
  }

  lemma CheckHeldKeeps(s: State, k: Key)
    requires Inv(s)
    ensures Inv(DoCheckHeld(s, k))
  {
    if DoCheckHeld(s, k) != s {
      StageKeeps(s, k, DoCheckHeld(s, k).attempts[k].stage);
    }
  }

  lemma ReadSlotsKeeps(s: State, k: Key)
    requires Inv(s)
    ensures Inv(DoReadSlots(s, k))
  {
    if DoReadSlots(s, k) != s {
      StageKeeps(s, k, DoReadSlots(s, k).attempts[k].stage);
    }
  }

  /** The state after an attempt's certificate write. */
  function Recorded(s: State, k: Key, w: CertWrite, certs: map<string, Cert>): State
    requires AtWork(s, k)
  {
    SetStage(s, k, Wrote(w)).(certs := certs, writes := s.writes + {Record(k.op, s.attempts[k].copy.attemptCount, w)})
  }

  lemma RecordSuits(s: State, k: Key, w: CertWrite, certs: map<string, Cert>)
    requires Inv(s) && AtWork(s, k) && !s.attempts[k].stage.Wrote? && WriteFits(s.attempts[k].copy, w)
    ensures AttemptsOk(Recorded(s, k, w, certs))
  {
    var s' := Recorded(s, k, w, certs);
    hide OneAttemptEach, OneInFlight, WritesOk, SuccessBacked, OpsOk;
    assert AttemptOk(s.attempts[k], k, s.clock, Doc(s, k.op)) && RecordOk(s.attempts[k], k, s.writes);
    forall l | l in s'.attempts
      ensures AttemptOk(s'.attempts[l], l, s'.clock, Doc(s', l.op)) && RecordOk(s'.attempts[l], l, s'.writes)
    {
      assert AttemptOk(s.attempts[l], l, s.clock, Doc(s, l.op)) && RecordOk(s.attempts[l], l, s.writes);
    }
  }

  lemma RecordBacked(s: State, k: Key, w: CertWrite, certs: map<string, Cert>)
    requires Inv(s) && AtWork(s, k) && !s.attempts[k].stage.Wrote?
    ensures SuccessBacked(Recorded(s, k, w, certs)) && WritesOk(Recorded(s, k, w, certs))
  {
    var s' := Recorded(s, k, w, certs);
    hide OneAttemptEach, OneInFlight, OpsOk, AttemptOk;
    assert RecordOk(s.attempts[k], k, s.writes);
    forall i | i in s'.ops && s'.ops[i].status == Succeeded
      ensures Backed(s', i)
    {
      assert Backed(s, i);
    }
  }

  /** A first certificate write by a claim goes on record; certificates do not matter to the invariant. */
  lemma RecordKeeps(s: State, k: Key, w: CertWrite, certs: map<string, Cert>)
    requires Inv(s) && AtWork(s, k) && !s.attempts[k].stage.Wrote? && WriteFits(s.attempts[k].copy, w)
    ensures Inv(Recorded(s, k, w, certs))
  {
    RecordSuits(s, k, w, certs);
    RecordBacked(s, k, w, certs);
    hide AttemptsOk, WritesOk, SuccessBacked, OneAttemptEach, OneInFlight, OpOk;
    assert Recorded(s, k, w, certs).attempts.Keys == s.attempts.Keys;
  }

  lemma WriteCertKeeps(s: State, k: Key, version: Version, t: Time)
    requires Inv(s)
    ensures Inv(DoWriteCert(s, k, version, t))
  {
    if AtWork(s, k) && s.attempts[k].copy.certId in s.certs {
      var a := s.attempts[k];
      var u := CertUpdate(a, s.certs[a.copy.certId], version, t);
      if u.Some? {
        RecordKeeps(s, k, u.value.1, s.certs[a.copy.certId := u.value.0]);
      }
    }
  }

  /** Releasing the lease suits every other attempt: only the current claim's attempt matches the guard. */
  lemma ReleaseSuits(s: State, k: Key, o: Operation)
    requires Inv(s) && AtWork(s, k) && Matches(s, k)
    requires SameRequest(o, s.ops[k.op]) && o.attemptCount == s.ops[k.op].attemptCount
    requires o.status != Running && o.leaseOwner == ""
    ensures var s1 := SetStage(s, k, Finished);
            forall l | l in s1.attempts && l.op == k.op :: AttemptOk(s1.attempts[l], l, s.clock, Some(o))
  {
  }

  lemma SucceededOk(s: State, k: Key, t: Time)
    requires Inv(s) && AtWork(s, k) && Matches(s, k) && s.attempts[k].stage.Wrote?
    ensures var o := Succeed(s.ops[k.op], t);
            && k.op in s.history && OpOk(o, k.op, s.clock, s.history[k.op])
            && Record(k.op, o.attemptCount, s.attempts[k].stage.write) in s.writes
            && WriteFits(o, s.attempts[k].stage.write)
  {
    assert AttemptOk(s.attempts[k], k, s.clock, Doc(s, k.op)) && RecordOk(s.attempts[k], k, s.writes);
    assert OpOk(s.ops[k.op], k.op, s.clock, s.history[k.op]);
    hide OneAttemptEach, DistinctClaims, OneInFlight, WritesOk, SuccessBacked;
  }

  lemma SuccessKeeps(s: State, k: Key, t: Time)
    requires Inv(s)
    ensures Inv(DoWriteSuccess(s, k, t))
  {
    if DoWriteSuccess(s, k, t) != s {
      hide Inv, OpOk, AttemptOk;
      var o := Succeed(s.ops[k.op], t);
      SucceededOk(s, k, t);
      StageKeeps(s, k, Finished);
      ReleaseSuits(s, k, o);
      DocChange(SetStage(s, k, Finished), k.op, o);
    }
  }

  lemma FailedOk(s: State, k: Key, text: string, t: Time)
    requires Inv(s) && AtWork(s, k) && Matches(s, k)
    ensures k.op in s.history && OpOk(Fail(s.ops[k.op], text, t), k.op, s.clock, s.history[k.op])
  {
    assert OpOk(s.ops[k.op], k.op, s.clock, s.history[k.op]);
    hide OneAttemptEach, DistinctClaims, OneInFlight, WritesOk, SuccessBacked, AttemptOk;
  }

  lemma GiveUpKeeps(s: State, k: Key, text: string, t: Time)
    requires Inv(s) && AtWork(s, k) && Matches(s, k)
    ensures Inv(SetDoc(SetStage(s, k, Finished), k.op, Fail(s.ops[k.op], text, t)))
  {
    hide Inv, OpOk, AttemptOk;
    FailedOk(s, k, text, t);
    StageKeeps(s, k, Finished);
    ReleaseSuits(s, k, Fail(s.ops[k.op], text, t));
    DocChange(SetStage(s, k, Finished), k.op, Fail(s.ops[k.op], text, t));
  }

  /** The next retry is due after all back-offs so far and before the deadline. */
  lemma RetryOpOk(s: State, k: Key, permanent: bool, summary: string, t1: Time, t2: Time, jitter: nat)
    requires Inv(s) && AtWork(s, k) && Matches(s, k) && FailureTimes(s, k, t1, t2)
    requires AfterFailure(s.attempts[k].copy, permanent, summary, t1, t2, jitter).TryAgain?
    ensures var r := AfterFailure(s.attempts[k].copy, permanent, summary, t1, t2, jitter);
            var h := s.history[k.op];
            OpOk(ReleaseForRetry(s.ops[k.op], r.nextAt, summary, r.failures), k.op, s.clock,
                h.(retries := h.retries + 1))
  {
    var a, o, h := s.attempts[k], s.ops[k.op], s.history[k.op];
    assert AttemptOk(a, k, s.clock, Doc(s, k.op));
    assert OpOk(o, k.op, s.clock, h);
    assert a.copy.consecutiveFailures == o.consecutiveFailures == h.retries;
    assert Retry.Waited(h.retries + 1) == Retry.Waited(h.retries) + Retry.RetryBase(h.retries + 1);
  }

  lemma TryAgainKeeps(s: State, k: Key, permanent: bool, summary: string, t1: Time, t2: Time, jitter: nat)
    requires Inv(s) && AtWork(s, k) && Matches(s, k) && FailureTimes(s, k, t1, t2)
    requires AfterFailure(s.attempts[k].copy, permanent, summary, t1, t2, jitter).TryAgain?
    ensures var r := AfterFailure(s.attempts[k].copy, permanent, summary, t1, t2, jitter);
            var h := s.history[k.op];
            Inv(SetDocAndHistory(SetStage(s, k, Finished), k.op,
                  ReleaseForRetry(s.ops[k.op], r.nextAt, summary, r.failures), h.(retries := h.retries + 1)))
  {
    var r := AfterFailure(s.attempts[k].copy, permanent, summary, t1, t2, jitter);
    var o := ReleaseForRetry(s.ops[k.op], r.nextAt, summary, r.failures);
    var h := s.history[k.op].(retries := s.history[k.op].retries + 1);
    RetryOpOk(s, k, permanent, summary, t1, t2, jitter);
    StageKeeps(s, k, Finished);
    ReleaseSuits(s, k, o);
    DocAndHistoryChange(SetStage(s, k, Finished), k.op, o, h);
  }

  lemma TryAgainShape(s: State, k: Key, permanent: bool, summary: string, t1: Time, t2: Time, t3: Time, jitter: nat)
    requires AtWork(s, k) && Matches(s, k) && FailureTimes(s, k, t1, t2) && k.op in s.history
    requires AfterFailure(s.attempts[k].copy, permanent, summary, t1, t2, jitter).TryAgain?
    ensures var r := AfterFailure(s.attempts[k].copy, permanent, summary, t1, t2, jitter);
            var h := s.history[k.op];
            DoWriteFailure(s, k, permanent, summary, t1, t2, t3, jitter)
            == SetDocAndHistory(SetStage(s, k, Finished), k.op,
                 ReleaseForRetry(s.ops[k.op], r.nextAt, summary, r.failures), h.(retries := h.retries + 1))
  {
  }

  lemma FailureKeeps(s: State, k: Key, permanent: bool, summary: string, t1: Time, t2: Time, t3: Time, jitter: nat)
    requires Inv(s)
    ensures Inv(DoWriteFailure(s, k, permanent, summary, t1, t2, t3, jitter))
  {
    if AtWork(s, k) && FailureTimes(s, k, t1, t2) {
      if !Matches(s, k) {
        StageKeeps(s, k, Finished);
      } else if AfterFailure(s.attempts[k].copy, permanent, summary, t1, t2, jitter).TryAgain? {
        TryAgainKeeps(s, k, permanent, summary, t1, t2, jitter);
        TryAgainShape(s, k, permanent, summary, t1, t2, t3, jitter);
      } else {
        GiveUpKeeps(s, k, AfterFailure(s.attempts[k].copy, permanent, summary, t1, t2, jitter).summary, t3);
      }
    }
  }

  lemma SweepKeeps(s: State, id: string, t: Time)
    requires Inv(s)
    ensures Inv(DoSweep(s, id, t))
  {
    if DoSweep(s, id, t) != s {
      var o := Fail(s.ops[id], TIMEOUT_SUMMARY, t);
      forall k | k in s.attempts && k.op == id
        ensures AttemptOk(s.attempts[k], k, s.clock, Some(o))
      {
        assert AttemptOk(s.attempts[k], k, s.clock, Doc(s, id));
      }
      DocChange(s, id, o);
    }
  }

  lemma DeleteKeeps(s: State, certId: string)
    requires Inv(s)
    ensures Inv(DoDeleteOps(s, certId))
  {
  }

  lemma SetCertKeeps(s: State, certId: string, cert: Option<Cert>)
    requires Inv(s)
    ensures Inv(DoSetCert(s, certId, cert))
  {
  }

  lemma RecordTxtKeeps(s: State, k: Key, txt: TxtRecord)
    requires Inv(s)
    ensures Inv(DoRecordTxt(s, k, txt))
  {
    if DoRecordTxt(s, k, txt) != s {
      TxtKeeps(s, k.op, s.ops[k.op].pendingTxt + {txt});
    }
  }

  lemma ClearTxtKeeps(s: State, id: string)
    requires Inv(s)
    ensures Inv(DoClearTxt(s, id))
  {
    if id in s.ops {
      TxtKeeps(s, id, {});
    }
  }

  lemma CrashKeeps(s: State, replica: string)
    requires Inv(s)
    ensures Inv(DoCrash(s, replica))
  {
  }

  lemma ActionKeeps(s: State, k: Key, action: Action)
    requires Inv(s)
    ensures Inv(ApplyAction(s, k, action))
  {
    hide Inv, DoTrigger, DoCheck, DoClaim, DoSendHeartbeat, DoHeartbeat, DoLateHeartbeat, DoRecordTxt, DoLoad,
         DoCheckHeld, DoReadSlots, DoWriteCert, DoWriteSuccess, DoWriteFailure;
    match action
    case Trigger => TriggerKeeps(s, k);
    case CheckConflict(t) => CheckKeeps(s, k, t);
    case ClaimLands => ClaimKeeps(s, k);
    case SendHeartbeat => SendHeartbeatKeeps(s, k);
    case Heartbeat(t) => HeartbeatKeeps(s, k, t);
    case LateHeartbeat(t) => LateHeartbeatKeeps(s, k, t);
    case RecordTxt(txt) => RecordTxtKeeps(s, k, txt);
    case LoadCert => LoadKeeps(s, k);
    case CheckHeld => CheckHeldKeeps(s, k);
    case ReadSlots => ReadSlotsKeeps(s, k);
    case WriteCert(version, t) => WriteCertKeeps(s, k, version, t);
    case WriteSuccess(t) => SuccessKeeps(s, k, t);
    case WriteFailure(permanent, summary, t1, t2, t3, jitter) =>
      FailureKeeps(s, k, permanent, summary, t1, t2, t3, jitter);
    case Leave => AttemptsRemoved(s, s.attempts - {k});
  }

  lemma StepKeeps(s: State, step: Step)
    requires Inv(s)
    ensures Inv(Apply(s, step))
  {
    hide Inv, ApplyAction, DoCreate, DoClearTxt, DoCrash, DoSweep, DoSetCert, DoDeleteOps;
    match step
    case Tick(to) => if s.clock <= to { TickKeeps(s, to); }
    case Create(id, certId, kind, snapshot, target, t) => CreateKeeps(s, id, certId, kind, snapshot, target, t);
    case Act(k, action) => ActionKeeps(s, k, action);
    case ClearTxt(id) => ClearTxtKeeps(s, id);
    case Crash(replica) => CrashKeeps(s, replica);
    case Sweep(id, t) => SweepKeeps(s, id, t);
    case SetCert(certId, cert) => SetCertKeeps(s, certId, cert);
    case DeleteOps(certId) => DeleteKeeps(s, certId);
  }

  /** The invariant holds after every run. */
  lemma {:induction false} RunKeeps(s: State, steps: seq<Step>)
    requires Inv(s)
    ensures Inv(Exec(s, steps))
    decreases |steps|
  {
    if steps != [] {
      StepKeeps(s, steps[0]);
      RunKeeps(Apply(s, steps[0]), steps[1..]);
    }
  }
}
