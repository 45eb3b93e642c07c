/**
 * The revocation mark with its read and its update apart. The update asks that the version is not revoked,
 * but not that it is unmarked, so two requests can both mark a version; if one of them then takes its mark
 * back, it takes the other's with it. All other store methods are one step each here as well.
 */
module MarkRaces {
  import opened Options
  import opened Certs
  import opened Operations
  import opened CertificateStore
  import opened CertificateRuns
  import opened Revocation
  import opened OrphanedMarks
  import opened PendingForever

  /** A request whose look at the certificate has found the version unmarked, in this slot. */
  datatype Approved = Approved(certId: string, versionId: string, snapshot: Snapshot, slot: Slot)

  datatype Split = Split(base: State, approved: map<string, Approved>)

  datatype Event = Whole(step: Step) | ReadMark(p: string) | LandMark(p: string)

  const Start := Split(Init, map[])

  function DoReadMark(s: Split, p: string): Split {
    if p !in s.base.calls || !s.base.calls[p].Revoking? then s
    else
      var c := s.base.calls[p];
      if MarkPending(s.base.db, c.certId, c.versionId).result.Err? then s.(base := End(s.base, p))
      else
        var slot := SlotOf(s.base.db.certs[c.certId], c.versionId).value;
        Split(End(s.base, p), s.approved[p := Approved(c.certId, c.versionId, c.snapshot, slot)])
  }

  predicate MarkMatches(db: Db, a: Approved) {
    && a.certId in db.certs && Holds(db.certs[a.certId], a.slot, a.versionId)
    && InSlot(db.certs[a.certId], a.slot).value.revokedAt.None?
  }

  function DoLandMark(s: Split, p: string): Split {
    if p !in s.approved || p in s.base.calls then s
    else
      var a := s.approved[p];
      var rest := s.approved - {p};
      if !MarkMatches(s.base.db, a) then s.(approved := rest)
      else
        var v := InSlot(s.base.db.certs[a.certId], a.slot).value.(revokePending := true);
        Split(Put(s.base, p, Marked(a.certId, a.versionId, a.snapshot)).(
                db := Rewrite(s.base.db, a.certId, a.slot, v)), rest)
  }

  function Happen(s: Split, e: Event): Split {
    match e
    case Whole(step) => s.(base := Apply(s.base, step))
    case ReadMark(p) => DoReadMark(s, p)
    case LandMark(p) => DoLandMark(s, p)
  }

  function Run(s: Split, es: seq<Event>): Split
    decreases |es|
  {
    if es == [] then s else Run(Happen(s, es[0]), es[1..])
  }

  /** With nothing in between, the two halves are the store's method. */
  lemma MarkIsReadAndLand(s: Split, p: string)
    requires p !in s.approved
    ensures DoLandMark(DoReadMark(s, p), p) == s.(base := DoMark(s.base, p))
  {
    var s1 := DoReadMark(s, p);
    assert p in s1.approved ==> s1.approved - {p} == s.approved;
  }

  // ---------- Which clears are harmless ----------

  /** Taking the mark away would let the version be served. */
  predicate ServedUnmarked(db: Db, certId: string, versionId: string) {
    && InService(db, certId, versionId)
    && InSlot(db.certs[certId], SlotOf(db.certs[certId], versionId).value).value.revokedAt.None?
  }

  /** The condition on a clear: no Revoke of the version exists, and no other request relies on its mark. */
  ghost predicate HarmlessClear(s: State, p: string) {
    p in s.calls && s.calls[p].Clearing? && ServedUnmarked(s.db, s.calls[p].certId, s.calls[p].versionId) ==>
      && (s.calls[p].certId, s.calls[p].versionId) !in s.revokes
      && forall q | q in s.calls && s.calls[q].Marked? :: !Marks(s.calls[q], s.calls[p].certId, s.calls[p].versionId)
  }

  ghost predicate HarmlessEvent(s: Split, e: Event) {
    e.Whole? && e.step.Clear? ==> HarmlessClear(s.base, e.step.p)
  }

  ghost predicate HarmlessRun(s: Split, es: seq<Event>)
    decreases |es|
  {
    es == [] || (HarmlessEvent(s, es[0]) && HarmlessRun(Happen(s, es[0]), es[1..]))
  }

  /** No version that a Revoke targets is served. */
  ghost predicate Sticks(s: State) {
    forall r | r in s.revokes :: Blocked(s.db, r.0, r.1)
  }

  ghost predicate MarkedBlocked(s: State) {
    forall p | p in s.calls && s.calls[p].Marked? :: Blocked(s.db, s.calls[p].certId, s.calls[p].versionId)
  }

  ghost predicate Guarded(s: State) {
    VersionsOk(s) && RevokesOk(s) && MarkedBlocked(s)
  }

  ghost predicate SplitInv(s: Split) {
    && Guarded(s.base) && OneInFlight(s.base.db.ops) && AllStartInTime(s.base)
    && forall p | p in s.approved :: s.approved[p].versionId in s.base.usedVersions
  }

  /** Moving versions between slots, and bringing in fresh ones, blocks what was blocked. */
  lemma BlocksMoved(s: State, db: Db, used: set<string>)
    requires Guarded(s) && s.usedVersions <= used && OpsFit(db.ops, s.revokes)
    requires forall c | c in db.certs ::
               && SlotsOk(db.certs[c], used)
               && SlotFrom(db.certs[c].active, s.db.certs, c, s.usedVersions)
               && SlotFrom(db.certs[c].previous, s.db.certs, c, s.usedVersions)
    ensures Guarded(s.(db := db, usedVersions := used))
  {
  }

  lemma CallsGuarded(s: State, calls: map<string, Call>)
    requires Guarded(s)
    requires forall p | p in calls && Marking(calls[p]) :: calls[p].versionId in s.usedVersions
    requires forall p | p in calls && calls[p].Revoking? :: calls[p].versionId in s.usedVersions
    requires forall p | p in calls && calls[p].Marked? :: Blocked(s.db, calls[p].certId, calls[p].versionId)
    ensures Guarded(s.(calls := calls))
  {
  }

  lemma OtherGuarded(s: State, step: Step)
    requires Guarded(s) && Other(step)
    ensures Guarded(Apply(s, step))
  {
    var s' := Apply(s, step);
    OtherFits(s, step);
    OtherCallsFit(s, step);
    hide Apply;
    BlocksMoved(s, s'.db, s.usedVersions);
    var s1 := s.(db := s'.db);
    CallsGuarded(s1, s'.calls);
    assert s' == s1.(calls := s'.calls, usedCerts := s'.usedCerts);
  }

  /** Marking a version blocks it and touches no other. */
  lemma MarkBlocks(s: State, certId: string, slot: Slot, v: Version)
    requires Guarded(s) && certId in s.db.certs && Holds(s.db.certs[certId], slot, v.id) && v.revokePending
    ensures Guarded(s.(db := Rewrite(s.db, certId, slot, v)))
    ensures Blocked(Rewrite(s.db, certId, slot, v), certId, v.id)
  {
    var db' := Rewrite(s.db, certId, slot, v);
    assert SlotsOk(s.db.certs[certId], s.usedVersions);
    RewriteKeepsSlotsOk(s, certId, slot, v);
    forall c, id | c != certId || id != v.id
      ensures Blocked(db', c, id) <==> Blocked(s.db, c, id)
    {
      RewriteFrame(s, certId, slot, v, c, id);
    }
  }

  lemma PutMarked(s: State, p: string, certId: string, versionId: string, snapshot: Snapshot)
    requires Guarded(s) && Blocked(s.db, certId, versionId) && versionId in s.usedVersions
    ensures Guarded(Put(s, p, Marked(certId, versionId, snapshot)))
  {
  }

  lemma MarkGuarded(s: State, p: string)
    requires Guarded(s)
    ensures Guarded(DoMark(s, p))
  {
    if p in s.calls && s.calls[p].Revoking? {
      var c := s.calls[p];
      if MarkPending(s.db, c.certId, c.versionId).result.Err? {
        CallsGuarded(s, s.calls - {p});
      } else {
        var slot := SlotOf(s.db.certs[c.certId], c.versionId).value;
        var v := InSlot(s.db.certs[c.certId], slot).value.(revokePending := true);
        MarkBlocks(s, c.certId, slot, v);
        PutMarked(s.(db := Rewrite(s.db, c.certId, slot, v)), p, c.certId, c.versionId, c.snapshot);
      }
    }
  }

  lemma LandGuarded(s: Split, p: string)
    requires Guarded(s.base) && (p in s.approved ==> s.approved[p].versionId in s.base.usedVersions)
    ensures Guarded(DoLandMark(s, p).base)
  {
    if p in s.approved && p !in s.base.calls && MarkMatches(s.base.db, s.approved[p]) {
      var a := s.approved[p];
      var v := InSlot(s.base.db.certs[a.certId], a.slot).value.(revokePending := true);
      MarkBlocks(s.base, a.certId, a.slot, v);
      PutMarked(s.base.(db := Rewrite(s.base.db, a.certId, a.slot, v)), p, a.certId, a.versionId, a.snapshot);
    }
  }

  lemma ClearGuarded(s: State, p: string)
    requires Guarded(s) && HarmlessClear(s, p)
    ensures Guarded(DoClear(s, p))
  {
    if p in s.calls && s.calls[p].Clearing? {
      var c := s.calls[p];
      CallsGuarded(s, s.calls - {p});
      if ClearPending(s.db, c.certId, c.versionId).result.Ok? {
        var slot := SlotOf(s.db.certs[c.certId], c.versionId).value;
        var v := InSlot(s.db.certs[c.certId], slot).value.(revokePending := false);
        assert DoClear(s, p).db == Rewrite(s.db, c.certId, slot, v);
        RewriteKeepsSlotsOk(s, c.certId, slot, v);
        forall x, id | x != c.certId || id != c.versionId
          ensures Blocked(Rewrite(s.db, c.certId, slot, v), x, id) <==> Blocked(s.db, x, id)
        {
          assert SlotsOk(s.db.certs[c.certId], s.usedVersions);
          RewriteFrame(s, c.certId, slot, v, x, id);
        }
        assert v.revokedAt.Some? ==> Blocked(Rewrite(s.db, c.certId, slot, v), c.certId, c.versionId);
      }
    }
  }

  lemma CompleteGuarded(s: State, opId: string, owner: string, at: Time, now: Time)
    requires Guarded(s)
    ensures Guarded(DoCompleteRevoke(s, opId, owner, at, now))
  {
  }

  lemma InsertRevokeGuarded(s: State, p: string, opId: string, now: Time, fails: bool)
    requires Guarded(s)
    ensures Guarded(DoInsertRevoke(s, p, opId, now, fails))
  {
    var s' := DoInsertRevoke(s, p, opId, now, fails);
    if p in s.calls && s.calls[p].Marked? && s'.revokes == s.revokes && s'.db == s.db {
      CallsGuarded(s, s'.calls);
    }
  }

  lemma ActivateGuarded(s: State, opId: string, owner: string, version: Version, expected: Option<string>, now: Time)
    requires Guarded(s)
    ensures Guarded(DoActivate(s, opId, owner, version, expected, now))
  {
    var s' := DoActivate(s, opId, owner, version, expected, now);
    if s' != s {
      BlocksMoved(s, s'.db, s'.usedVersions);
    }
  }

  lemma StepGuarded(s: State, step: Step)
    requires Guarded(s) && (step.Clear? ==> HarmlessClear(s, step.p))
    ensures Guarded(Apply(s, step))
  {
    hide Guarded, HarmlessClear, DoMark, DoClear, DoCompleteRevoke, DoInsertRevoke, DoActivate;
    match step
    case Mark(p) => MarkGuarded(s, p);
    case Clear(p) => ClearGuarded(s, p);
    case InsertRevoke(p, opId, now, fails) => InsertRevokeGuarded(s, p, opId, now, fails);
    case CompleteRevokeOp(opId, owner, at, now) => CompleteGuarded(s, opId, owner, at, now);
    case Activate(opId, owner, version, expected, now) => ActivateGuarded(s, opId, owner, version, expected, now);
    case _ => OtherGuarded(s, step);
  }

  lemma VersionsStayUsed(s: State, step: Step)
    ensures s.usedVersions <= Apply(s, step).usedVersions
  {
  }

  lemma ReadKeeps(s: Split, p: string)
    requires SplitInv(s)
    ensures SplitInv(DoReadMark(s, p))
  {
    CallsGuarded(s.base, s.base.calls - {p});
  }

  lemma EventKeeps(s: Split, e: Event)
    requires SplitInv(s) && HarmlessEvent(s, e)
    ensures SplitInv(Happen(s, e))
  {
    hide Guarded, AllStartInTime, HarmlessClear, OneInFlight;
    match e
    case Whole(step) =>
      hide Apply;
      StepGuarded(s.base, step);
      UniqueKept(s.base, step);
      StartsKept(s.base, step);
      VersionsStayUsed(s.base, step);
    case ReadMark(p) => ReadKeeps(s, p);
    case LandMark(p) =>
      LandGuarded(s, p);
      LandKeepsOps(s, p);
  }

  lemma LandKeepsOps(s: Split, p: string)
    ensures var s' := DoLandMark(s, p);
            && s'.base.db.ops == s.base.db.ops && s'.base.usedVersions == s.base.usedVersions
            && s'.approved.Keys <= s.approved.Keys && (forall q | q in s'.approved :: s'.approved[q] == s.approved[q])
            && (AllStartInTime(s'.base) <==> AllStartInTime(s.base))
  {
  }

  /** In every run whose clears are harmless, a version with a Revoke operation is never served. */
  lemma {:induction false} RevocationSticksSplit(s: Split, es: seq<Event>)
    requires SplitInv(s) && HarmlessRun(s, es)
    ensures SplitInv(Run(s, es)) && Sticks(Run(s, es).base)
    decreases |es|
  {
    hide HarmlessEvent, Guarded, AllStartInTime, OneInFlight;
    if es != [] {
      hide Happen;
      EventKeeps(s, es[0]);
      RevocationSticksSplit(Happen(s, es[0]), es[1..]);
    } else {
      GuardedSticks(s.base);
    }
  }

  lemma GuardedSticks(s: State)
    requires Guarded(s)
    ensures Sticks(s)
  {
  }

  // ---------- Harmful clears ----------

  lemma StartHolds()
    ensures SplitInv(Start)
  {
  }

  lemma ClearedIsServed(s: State, p: string)
    requires Guarded(s) && p in s.calls && s.calls[p].Clearing?
    requires ServedUnmarked(s.db, s.calls[p].certId, s.calls[p].versionId)
    ensures var c := s.calls[p];
            var s' := DoClear(s, p);
            && !Blocked(s'.db, c.certId, c.versionId)
            && s'.revokes == s.revokes && s'.db.ops == s.db.ops && s'.calls == s.calls - {p}
  {
    var c := s.calls[p];
    var slot := SlotOf(s.db.certs[c.certId], c.versionId).value;
    var v := InSlot(s.db.certs[c.certId], slot).value.(revokePending := false);
    assert DoClear(s, p).db == Rewrite(s.db, c.certId, slot, v);
    assert InSlot(DoClear(s, p).db.certs[c.certId], slot) == Some(v) && Distributable(v);
  }

  /** A time by which the operation in flight of the certificate, if there is one, is past its deadline. */
  lemma SweepTime(s: State, certId: string) returns (t: Time)
    requires OneInFlight(s.db.ops) && AllStartInTime(s)
    ensures !HasInFlight(FailExpired(s.db, t).ops, certId)
  {
    t := 0;
    if i :| i in s.db.ops && s.db.ops[i].certId == certId && InFlight(s.db.ops[i]) {
      assert StartsInTime(s.db.ops[i]);
      t := s.db.ops[i].deadlineAt.value;
    }
  }

  lemma RevokeInserted(s: State, q: string, opId: string)
    requires q in s.calls && s.calls[q].Marked? && opId !in s.db.ops && !HasInFlight(s.db.ops, s.calls[q].certId)
    ensures var s' := Apply(s, InsertRevoke(q, opId, 0, false));
            s'.revokes == s.revokes + {(s.calls[q].certId, s.calls[q].versionId)} && s'.db.certs == s.db.certs
  {
  }

  lemma RunTwo(s: Split, a: Event, b: Event)
    ensures Run(s, [a, b]) == Happen(Happen(s, a), b)
    ensures !(a.Whole? && a.step.Clear?) && !(b.Whole? && b.step.Clear?) ==> HarmlessRun(s, [a, b])
  {
    hide Happen;
    assert [a, b][1..] == [b] && [b][1..] == [];
    assert Run(Happen(s, a), [b]) == Happen(Happen(s, a), b);
    if !(a.Whole? && a.step.Clear?) && !(b.Whole? && b.step.Clear?) {
      assert HarmlessRun(Happen(Happen(s, a), b), []);
      assert HarmlessRun(Happen(s, a), [b]);
    }
  }

  /** Another request then creates its Revoke for the unmarked version. */
  lemma RevokeOfServed(s: Split, q: string) returns (more: seq<Event>)
    requires OneInFlight(s.base.db.ops) && AllStartInTime(s.base)
    requires q in s.base.calls && s.base.calls[q].Marked?
    requires !Blocked(s.base.db, s.base.calls[q].certId, s.base.calls[q].versionId)
    ensures HarmlessRun(s, more) && !Sticks(Run(s, more).base)
  {
    var c := s.base.calls[q];
    var t := SweepTime(s.base, c.certId);
    var opId := FreshId(s.base.db.ops.Keys);
    var swept := Apply(s.base, SweepOps(t));
    RevokeInserted(swept, q, opId);
    more := [Whole(SweepOps(t)), Whole(InsertRevoke(q, opId, 0, false))];
    RunTwo(s, more[0], more[1]);
    hide Blocked;
    assert (c.certId, c.versionId) in Run(s, more).base.revokes;
  }

  /**
   * Exactly which clears are safe: after a clear, revocation sticks in all continuations whose own clears are
   * harmless if and only if the clear was harmless.
   */
  lemma HarmlessExactly(es: seq<Event>, p: string)
    requires HarmlessRun(Start, es) && p in Run(Start, es).base.calls && Run(Start, es).base.calls[p].Clearing?
    ensures var s := Run(Start, es);
            var s' := Happen(s, Whole(Clear(p)));
            HarmlessClear(s.base, p) <==> forall more | HarmlessRun(s', more) :: Sticks(Run(s', more).base)
  {
    hide Run, HarmlessRun, Sticks, Guarded, OneInFlight, AllStartInTime, Blocked, DoClear;
    StartHolds();
    RevocationSticksSplit(Start, es);
    var s := Run(Start, es);
    var s' := Happen(s, Whole(Clear(p)));
    if HarmlessClear(s.base, p) {
      EventKeeps(s, Whole(Clear(p)));
      forall more | HarmlessRun(s', more)
        ensures Sticks(Run(s', more).base)
      {
        RevocationSticksSplit(s', more);
      }
    } else {
      var more := HarmfulClear(s, p);
    }
  }

  lemma HarmfulClear(s: Split, p: string) returns (more: seq<Event>)
    requires SplitInv(s) && p in s.base.calls && s.base.calls[p].Clearing? && !HarmlessClear(s.base, p)
    ensures var s' := Happen(s, Whole(Clear(p))); HarmlessRun(s', more) && !Sticks(Run(s', more).base)
  {
    var c := s.base.calls[p];
    var s' := Happen(s, Whole(Clear(p)));
    ClearedIsServed(s.base, p);
    hide Guarded, Blocked, OneInFlight, DoClear;
    if (c.certId, c.versionId) in s.base.revokes {
      more := [];
      assert (c.certId, c.versionId) in s'.base.revokes;
    } else {
      var q :| q in s.base.calls && s.base.calls[q].Marked? && Marks(s.base.calls[q], c.certId, c.versionId);
      more := RevokeOfServed(s', q);
    }
  }

  // ---------- A run with a harmful clear ----------

  lemma {:induction false} RunOn(s: Split, es: seq<Event>, e: Event)
    ensures Run(s, es + [e]) == Happen(Run(s, es), e)
    decreases |es|
  {
    if es == [] {
      assert [e][1..] == [];
    } else {
      assert (es + [e])[1..] == es[1..] + [e];
      RunOn(Happen(s, es[0]), es[1..], e);
    }
  }

  lemma Next(es: seq<Event>, s: Split, e: Event) returns (es': seq<Event>, s': Split)
    requires Run(Start, es) == s
    ensures es' == es + [e] && s' == Happen(s, e) && Run(Start, es') == s'
  {
    RunOn(Start, es, e);
    es', s' := es + [e], Happen(s, e);
  }

  function Lift(steps: seq<Step>): seq<Event> {
    if steps == [] then [] else [Whole(steps[0])] + Lift(steps[1..])
  }

  /** Runs without split marks are runs here as well. */
  lemma {:induction false} LiftRuns(s: Split, steps: seq<Step>)
    ensures Run(s, Lift(steps)) == s.(base := Exec(s.base, steps))
    decreases |steps|
  {
    if steps != [] {
      assert Lift(steps)[1..] == Lift(steps[1..]);
      LiftRuns(s.(base := Apply(s.base, steps[0])), steps[1..]);
    }
  }

  const ApprovedSecond := Approved("c", "v2", Config, Active)

  lemma BothApproved() returns (es: seq<Event>, s: Split)
    ensures Run(Start, es) == s && s.base.calls == map[] && s.base.revokes == {}
    ensures s.approved == map["p" := ApprovedSecond, "q" := ApprovedSecond]
    ensures s.base.db == Db(map["c" := CertWith(Some(Second), Some(First))], BothDone)
  {
    hide Run;
    var steps, b := SecondIssued();
    LiftRuns(Start, steps);
    es, s := Lift(steps), Split(b, map[]);
    es, s := Next(es, s, Whole(BeginRevoke("p", "c", "v2")));
    es, s := Next(es, s, ReadMark("p"));
    assert s.base.calls == map[];
    es, s := Next(es, s, Whole(BeginRevoke("q", "c", "v2")));
    es, s := Next(es, s, ReadMark("q"));
    assert s.base.calls == map[];
  }

  lemma BothLanded() returns (es: seq<Event>, s: Split)
    ensures Run(Start, es) == s && s.base.revokes == {}
    ensures s.base.calls == map["p" := Marked2, "q" := Marked2]
    ensures s.base.db == Db(map["c" := CertWith(Some(SecondPending), Some(First))], BothDone)
  {
    hide Run, Done;
    es, s := BothApproved();
    es, s := Next(es, s, LandMark("p"));
    es, s := Next(es, s, LandMark("q"));
  }

  lemma OneRevokeOneClear() returns (es: seq<Event>, s: Split)
    ensures Run(Start, es) == s && s.base.revokes == {("c", "v2")}
    ensures s.base.calls == map["q" := Clearing("c", "v2")]
    ensures s.base.db.certs == map["c" := CertWith(Some(SecondPending), Some(First))]
    ensures "o3" in s.base.db.ops && s.base.db.ops["o3"] == FirstRevoke
  {
    hide Run;
    es, s := BothLanded();
    BothInsert(s.base);
    hide Apply;
    es, s := Next(es, s, Whole(InsertRevoke("p", "o3", 0, false)));
    es, s := Next(es, s, Whole(InsertRevoke("q", "o4", 0, true)));
  }

  lemma BothInsert(s: State)
    requires s.calls == map["p" := Marked2, "q" := Marked2] && s.revokes == {}
    requires "o3" !in s.db.ops && forall i | i in s.db.ops :: !InFlight(s.db.ops[i])
    ensures var s' := Apply(Apply(s, InsertRevoke("p", "o3", 0, false)), InsertRevoke("q", "o4", 0, true));
            && s'.calls == map["q" := Clearing("c", "v2")] && s'.revokes == {("c", "v2")}
            && s'.db.certs == s.db.certs && "o3" in s'.db.ops && s'.db.ops["o3"] == FirstRevoke
  {
    hide InFlight, DoMark, DoActivate, DoCompleteRevoke;
  }

  /** Two requests mark the active version, one creates its Revoke, the other's insert fails and clears the mark. */
  lemma MarkTakenAway() returns (es: seq<Event>)
    ensures var s := Run(Start, es).base;
            && ("c", "v2") in s.revokes && "o3" in s.db.ops && s.db.ops["o3"] == FirstRevoke
            && "c" in s.db.certs && Bundle(s.db.certs["c"], Active) == Some(Second)
  {
    hide Run;
    var s: Split;
    es, s := OneRevokeOneClear();
    es, s := Next(es, s, Whole(Clear("q")));
  }
}
