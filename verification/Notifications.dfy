/**
 * Certificate notifications: markers on the certificate document, changed by guarded updates, decide
 * which event may be sent. Callers on any replica interleave at these updates, each with a clock
 * reading that may be old by then; certificates may be edited or deleted in between.
 */
module Notifications {
  import opened Options
  import opened Certs
  import V = Validity

  const REMINDER_INTERVAL: Time := 24 * HOUR
  const SEVEN_DAYS: Time := 7 * DAY

  datatype Event =
    | FailureSent(at: Time)
    | ReminderSent(at: Time)
    | RecoverySent(at: Time)
    | SevenDaySent(versionId: string)
    | ExpiredSent(versionId: string)

  datatype Markers = Markers(hadFailure: bool, lastFailAt: Option<Time>, sevenDayId: Option<string>,
      expiredId: Option<string>)

  datatype Doc = Doc(active: Option<Version>, renewBeforeDays: V.uint32, notifyGroupIds: seq<string>, markers: Markers)

  /** `sent` holds the events recorded for each certificate id so far. */
  datatype State = State(docs: map<string, Doc>, sent: map<string, seq<Event>>)

  datatype Step =
    | TryFailure(id: string, now: Time)
    | TryReminder(id: string, now: Time)
    | TryRecovery(id: string, now: Time)
    | TrySevenDay(id: string, versionId: string)
    | TryExpired(id: string, versionId: string)
    | Create(id: string, doc: Doc)
    | Edit(id: string, active: Option<Version>, renewBeforeDays: V.uint32, notifyGroupIds: seq<string>)
    | Delete(id: string)

  const Init := State(map[], map[])
  const NoMarkers := Markers(false, None, None, None)

  function Sent(s: State, id: string): seq<Event> {
    if id in s.sent then s.sent[id] else []
  }

  function Record(s: State, id: string, markers: Markers, e: Event): State
    requires id in s.docs
  {
    State(s.docs[id := s.docs[id].(markers := markers)], s.sent[id := Sent(s, id) + [e]])
  }

  predicate FailureFree(s: State, id: string) {
    id in s.docs && !s.docs[id].markers.hadFailure
  }

  /** A comparison with a missing time does not match. */
  predicate ReminderDue(s: State, id: string, now: Time) {
    && id in s.docs && s.docs[id].markers.hadFailure
    && s.docs[id].markers.lastFailAt.Some? && s.docs[id].markers.lastFailAt.value <= now - REMINDER_INTERVAL
  }

  predicate InFailure(s: State, id: string) {
    id in s.docs && s.docs[id].markers.hadFailure
  }

  predicate ActiveIs(s: State, id: string, versionId: string) {
    id in s.docs && s.docs[id].active.Some? && s.docs[id].active.value.id == versionId
  }

  predicate SevenDayOpen(s: State, id: string, versionId: string) {
    ActiveIs(s, id, versionId) && s.docs[id].markers.sevenDayId != Some(versionId)
  }

  predicate ExpiredOpen(s: State, id: string, versionId: string) {
    ActiveIs(s, id, versionId) && s.docs[id].markers.expiredId != Some(versionId)
  }

  function Apply(s: State, step: Step): State {
    match step
    case TryFailure(id, now) =>
      if !FailureFree(s, id) then s
      else Record(s, id, s.docs[id].markers.(hadFailure := true, lastFailAt := Some(now)), FailureSent(now))
    case TryReminder(id, now) =>
      if !ReminderDue(s, id, now) then s
      else Record(s, id, s.docs[id].markers.(lastFailAt := Some(now)), ReminderSent(now))
    case TryRecovery(id, now) =>
      if !InFailure(s, id) then s
      else Record(s, id, s.docs[id].markers.(hadFailure := false, lastFailAt := None), RecoverySent(now))
    case TrySevenDay(id, v) =>
      if !SevenDayOpen(s, id, v) then s
      else Record(s, id, s.docs[id].markers.(sevenDayId := Some(v)), SevenDaySent(v))
    case TryExpired(id, v) =>
      if !ExpiredOpen(s, id, v) then s
      else Record(s, id, s.docs[id].markers.(expiredId := Some(v)), ExpiredSent(v))
    case Create(id, doc) =>
      if id in s.docs || id in s.sent then s else s.(docs := s.docs[id := doc.(markers := NoMarkers)])
    case Edit(id, active, days, groups) =>
      if id !in s.docs then s
      else s.(docs := s.docs[id := s.docs[id].(active := active, renewBeforeDays := days, notifyGroupIds := groups)])
    case Delete(id) => s.(docs := s.docs - {id})
  }

  function Exec(s: State, steps: seq<Step>): State
    decreases |steps|
  {
    if steps == [] then s else Exec(Apply(s, steps[0]), steps[1..])
  }

  // ---------- The shape of what is sent ----------

  datatype Episode = Closed | Open(last: Time) | Broken

  /** Reads a log as (Failure Reminder* Recovery)*, with a reminder at least a day after the event before it. */
  function EpisodeOf(log: seq<Event>): Episode {
    if log == [] then Closed
    else
      var before := EpisodeOf(log[..|log| - 1]);
      match log[|log| - 1]
      case FailureSent(at) => if before == Closed then Open(at) else Broken
      case ReminderSent(at) => if before.Open? && before.last + DAY <= at then Open(at) else Broken
      case RecoverySent(_) => if before.Open? then Closed else Broken
      case _ => before
  }

  function LastSevenDay(log: seq<Event>): Option<string> {
    if log == [] then None
    else if log[|log| - 1].SevenDaySent? then Some(log[|log| - 1].versionId)
    else LastSevenDay(log[..|log| - 1])
  }

  function LastExpired(log: seq<Event>): Option<string> {
    if log == [] then None
    else if log[|log| - 1].ExpiredSent? then Some(log[|log| - 1].versionId)
    else LastExpired(log[..|log| - 1])
  }

  /** No notice repeats the version of the notice of its kind before it. */
  ghost predicate NoRepeat(log: seq<Event>) {
    forall j | 0 <= j < |log| ::
      && (log[j].SevenDaySent? ==> LastSevenDay(log[..j]) != Some(log[j].versionId))
      && (log[j].ExpiredSent? ==> LastExpired(log[..j]) != Some(log[j].versionId))
  }

  ghost predicate MarkersMatch(m: Markers, log: seq<Event>) {
    && EpisodeOf(log) == (if m.hadFailure && m.lastFailAt.Some? then Open(m.lastFailAt.value) else Closed)
    && (m.hadFailure ==> m.lastFailAt.Some?)
    && m.sevenDayId == LastSevenDay(log) && m.expiredId == LastExpired(log)
  }

  ghost predicate LogOk(log: seq<Event>) {
    EpisodeOf(log) != Broken && NoRepeat(log)
  }

  ghost predicate Inv(s: State) {
    && (forall id | id in s.docs :: MarkersMatch(s.docs[id].markers, Sent(s, id)))
    && (forall id | id in s.sent :: LogOk(s.sent[id]))
  }

  lemma EventFits(m: Markers, m': Markers, log: seq<Event>, e: Event)
    requires MarkersMatch(m, log) && LogOk(log)
    requires match e
             case FailureSent(at) => !m.hadFailure && m' == m.(hadFailure := true, lastFailAt := Some(at))
             case ReminderSent(at) => m.hadFailure && m.lastFailAt.value + DAY <= at && m' == m.(lastFailAt := Some(at))
             case RecoverySent(_) => m.hadFailure && m' == m.(hadFailure := false, lastFailAt := None)
             case SevenDaySent(v) => m.sevenDayId != Some(v) && m' == m.(sevenDayId := Some(v))
             case ExpiredSent(v) => m.expiredId != Some(v) && m' == m.(expiredId := Some(v))
    ensures MarkersMatch(m', log + [e]) && LogOk(log + [e])
  {
    var log' := log + [e];
    assert log'[..|log|] == log;
    assert forall j | 0 <= j < |log| :: log'[j] == log[j] && log'[..j] == log[..j];
  }

  lemma RecordKeeps(s: State, id: string, m': Markers, e: Event)
    requires Inv(s) && id in s.docs
    requires MarkersMatch(m', Sent(s, id) + [e]) && LogOk(Sent(s, id) + [e])
    ensures Inv(Record(s, id, m', e))
  {
  }

  lemma StepKeeps(s: State, step: Step)
    requires Inv(s)
    ensures Inv(Apply(s, step))
  {
    var s' := Apply(s, step);
    if s' != s && !step.Create? && !step.Edit? && !step.Delete? {
      var id := step.id;
      var log, e := Sent(s, id), Sent(s', id)[|Sent(s, id)|];
      assert id !in s.sent ==> log == [];
      assert MarkersMatch(s.docs[id].markers, log) && LogOk(log);
      hide Inv, EpisodeOf, LastSevenDay, LastExpired, NoRepeat;
      EventFits(s.docs[id].markers, s'.docs[id].markers, log, e);
      RecordKeeps(s, id, s'.docs[id].markers, e);
    }
  }

  lemma {:induction false} RunKeeps(s: State, steps: seq<Step>)
    requires Inv(s)
    ensures Inv(Exec(s, steps))
    decreases |steps|
  {
    if steps != [] {
      StepKeeps(s, steps[0]);
      RunKeeps(Apply(s, steps[0]), steps[1..]);
    }
  }

  lemma LogsOk(steps: seq<Step>, id: string)
    ensures LogOk(Sent(Exec(Init, steps), id))
  {
    RunKeeps(Init, steps);
    if id !in Exec(Init, steps).sent {
      assert Sent(Exec(Init, steps), id) == [];
    }
  }

  predicate IsFailure(e: Event) {
    e.FailureSent? || e.ReminderSent?
  }

  ghost predicate NoRecoveryIn(log: seq<Event>, i: nat, j: nat) {
    forall r | i <= r < j <= |log| :: !log[r].RecoverySent?
  }

  lemma {:induction false} UnbrokenPrefix(log: seq<Event>, n: nat)
    requires EpisodeOf(log) != Broken && n <= |log|
    ensures EpisodeOf(log[..n]) != Broken
    decreases |log|
  {
    if n < |log| {
      assert log[..|log| - 1][..n] == log[..n];
      UnbrokenPrefix(log[..|log| - 1], n);
    } else {
      assert log[..n] == log;
    }
  }

  /** A failure event that no recovery follows leaves its episode open, with the last event not before it. */
  lemma {:induction false} StaysOpen(log: seq<Event>, i: nat)
    requires EpisodeOf(log) != Broken && i < |log| && IsFailure(log[i]) && NoRecoveryIn(log, i, |log|)
    ensures EpisodeOf(log).Open? && log[i].at <= EpisodeOf(log).last
    decreases |log|
  {
    var shorter := log[..|log| - 1];
    UnbrokenPrefix(log, |log| - 1);
    if i < |log| - 1 {
      StaysOpen(shorter, i);
    }
  }

  /**
   * Under any interleaving, of two failure events of a certificate with no recovery between them the
   * later is a reminder sent at least 24 hours after the earlier.
   */
  lemma FailuresADayApart(steps: seq<Step>, id: string, i: nat, j: nat)
    requires var log := Sent(Exec(Init, steps), id);
             i < j < |log| && IsFailure(log[i]) && IsFailure(log[j]) && NoRecoveryIn(log, i, j)
    ensures var log := Sent(Exec(Init, steps), id); log[j].ReminderSent? && log[i].at + 24 * HOUR <= log[j].at
  {
    var log := Sent(Exec(Init, steps), id);
    LogsOk(steps, id);
    UnbrokenPrefix(log, j + 1);
    UnbrokenPrefix(log, j);
    assert log[..j + 1][..j] == log[..j];
    StaysOpen(log[..j], i);
  }

  /** A recovery is only ever sent after a failure event that no other recovery has answered. */
  lemma RecoveryAnswersAFailure(steps: seq<Step>, id: string, j: nat) returns (i: nat)
    requires var log := Sent(Exec(Init, steps), id); j < |log| && log[j].RecoverySent?
    ensures var log := Sent(Exec(Init, steps), id); i < j && IsFailure(log[i]) && NoRecoveryIn(log, i, j)
  {
    var log := Sent(Exec(Init, steps), id);
    LogsOk(steps, id);
    UnbrokenPrefix(log, j + 1);
    assert log[..j + 1][..j] == log[..j];
    i := OpenedBy(log[..j]);
  }

  lemma {:induction false} OpenedBy(log: seq<Event>) returns (i: nat)
    requires EpisodeOf(log).Open?
    ensures i < |log| && IsFailure(log[i]) && NoRecoveryIn(log, i, |log|)
    decreases |log|
  {
    i := |log| - 1;
    if !IsFailure(log[i]) {
      i := OpenedBy(log[..|log| - 1]);
    }
  }

  lemma {:induction false} LastSevenDayIs(log: seq<Event>, i: nat)
    requires i < |log| && log[i].SevenDaySent? && forall r | i < r < |log| :: !log[r].SevenDaySent?
    ensures LastSevenDay(log) == Some(log[i].versionId)
    decreases |log|
  {
    if i < |log| - 1 {
      LastSevenDayIs(log[..|log| - 1], i);
    }
  }

  lemma {:induction false} LastExpiredIs(log: seq<Event>, i: nat)
    requires i < |log| && log[i].ExpiredSent? && forall r | i < r < |log| :: !log[r].ExpiredSent?
    ensures LastExpired(log) == Some(log[i].versionId)
    decreases |log|
  {
    if i < |log| - 1 {
      LastExpiredIs(log[..|log| - 1], i);
    }
  }

  /** Two successive notices of one kind are never for the same version. */
  lemma NoticesAlternate(steps: seq<Step>, id: string, i: nat, j: nat)
    requires i < j < |Sent(Exec(Init, steps), id)|
    ensures var log := Sent(Exec(Init, steps), id);
            && (log[i].SevenDaySent? && log[j].SevenDaySent? && (forall r | i < r < j :: !log[r].SevenDaySent?) ==>
                  log[i].versionId != log[j].versionId)
            && (log[i].ExpiredSent? && log[j].ExpiredSent? && (forall r | i < r < j :: !log[r].ExpiredSent?) ==>
                  log[i].versionId != log[j].versionId)
  {
    var log := Sent(Exec(Init, steps), id);
    LogsOk(steps, id);
    if log[i].SevenDaySent? && forall r | i < r < j :: !log[r].SevenDaySent? {
      LastSevenDayIs(log[..j], i);
    }
    if log[i].ExpiredSent? && forall r | i < r < j :: !log[r].ExpiredSent? {
      LastExpiredIs(log[..j], i);
    }
  }

  lemma {:induction false} LastSevenDayWasSent(log: seq<Event>) returns (k: nat)
    requires LastSevenDay(log).Some?
    ensures k < |log| && log[k] == SevenDaySent(LastSevenDay(log).value)
    ensures forall r | k < r < |log| :: !log[r].SevenDaySent?
    decreases |log|
  {
    if log[|log| - 1].SevenDaySent? {
      k := |log| - 1;
    } else {
      k := LastSevenDayWasSent(log[..|log| - 1]);
    }
  }

  lemma {:induction false} LastExpiredWasSent(log: seq<Event>) returns (k: nat)
    requires LastExpired(log).Some?
    ensures k < |log| && log[k] == ExpiredSent(LastExpired(log).value)
    ensures forall r | k < r < |log| :: !log[r].ExpiredSent?
    decreases |log|
  {
    if log[|log| - 1].ExpiredSent? {
      k := |log| - 1;
    } else {
      k := LastExpiredWasSent(log[..|log| - 1]);
    }
  }

  predicate SameNotice(e: Event, f: Event) {
    (e.SevenDaySent? && f.SevenDaySent?) || (e.ExpiredSent? && f.ExpiredSent?)
  }

  /**
   * Exactly when a version's notice goes out another time, after any run: the version is active, and since its
   * latest notice of the kind one for another version was sent.
   */
  lemma NoticeRepeatsExactly(steps: seq<Step>, id: string, v: string, i: nat)
    requires var log := Sent(Exec(Init, steps), id);
             && i < |log| && (log[i] == SevenDaySent(v) || log[i] == ExpiredSent(v))
             && forall r | i < r < |log| :: log[r] != log[i]
    ensures var s := Exec(Init, steps);
            var log := Sent(s, id);
            var step := if log[i].SevenDaySent? then TrySevenDay(id, v) else TryExpired(id, v);
            Sent(Apply(s, step), id) != log
            <==> ActiveIs(s, id, v) && exists j | i < j < |log| :: SameNotice(log[i], log[j])
  {
    RunKeeps(Init, steps);
    hide Exec, EpisodeOf, Inv, LastSevenDay, LastExpired, Apply;
    if Sent(Exec(Init, steps), id)[i].SevenDaySent? {
      SevenDayRepeats(Exec(Init, steps), id, v, i);
    } else {
      ExpiredRepeats(Exec(Init, steps), id, v, i);
    }
  }

  lemma SevenDayRepeats(s: State, id: string, v: string, i: nat)
    requires Inv(s) && i < |Sent(s, id)| && Sent(s, id)[i] == SevenDaySent(v)
    requires forall r | i < r < |Sent(s, id)| :: Sent(s, id)[r] != SevenDaySent(v)
    ensures Sent(Apply(s, TrySevenDay(id, v)), id) != Sent(s, id)
            <==> ActiveIs(s, id, v) && exists j | i < j < |Sent(s, id)| :: SameNotice(Sent(s, id)[i], Sent(s, id)[j])
  {
    assert id in s.docs ==> s.docs[id].markers.sevenDayId == LastSevenDay(Sent(s, id));
    hide Inv, LastSevenDay;
    var k := LatestSevenDay(Sent(s, id), i);
  }

  lemma ExpiredRepeats(s: State, id: string, v: string, i: nat)
    requires Inv(s) && i < |Sent(s, id)| && Sent(s, id)[i] == ExpiredSent(v)
    requires forall r | i < r < |Sent(s, id)| :: Sent(s, id)[r] != ExpiredSent(v)
    ensures Sent(Apply(s, TryExpired(id, v)), id) != Sent(s, id)
            <==> ActiveIs(s, id, v) && exists j | i < j < |Sent(s, id)| :: SameNotice(Sent(s, id)[i], Sent(s, id)[j])
  {
    assert id in s.docs ==> s.docs[id].markers.expiredId == LastExpired(Sent(s, id));
    hide Inv, LastExpired;
    var k := LatestExpired(Sent(s, id), i);
  }

  lemma LatestSevenDay(log: seq<Event>, i: nat) returns (k: nat)
    requires i < |log| && log[i].SevenDaySent?
    ensures i <= k < |log| && log[k].SevenDaySent? && LastSevenDay(log) == Some(log[k].versionId)
    ensures forall r | k < r < |log| :: !log[r].SevenDaySent?
  {
    SevenDayEverSent(log, i);
    k := LastSevenDayWasSent(log);
  }

  lemma LatestExpired(log: seq<Event>, i: nat) returns (k: nat)
    requires i < |log| && log[i].ExpiredSent?
    ensures i <= k < |log| && log[k].ExpiredSent? && LastExpired(log) == Some(log[k].versionId)
    ensures forall r | k < r < |log| :: !log[r].ExpiredSent?
  {
    ExpiredEverSent(log, i);
    k := LastExpiredWasSent(log);
  }

  lemma {:induction false} SevenDayEverSent(log: seq<Event>, i: nat)
    requires i < |log| && log[i].SevenDaySent?
    ensures LastSevenDay(log).Some?
    decreases |log|
  {
    if i < |log| - 1 {
      SevenDayEverSent(log[..|log| - 1], i);
    }
  }

  lemma {:induction false} ExpiredEverSent(log: seq<Event>, i: nat)
    requires i < |log| && log[i].ExpiredSent?
    ensures LastExpired(log).Some?
    decreases |log|
  {
    if i < |log| - 1 {
      ExpiredEverSent(log[..|log| - 1], i);
    }
  }

  // ---------- The dispatcher ----------

  lemma {:induction false} ExecAppend(s: State, steps: seq<Step>, step: Step)
    ensures Exec(s, steps + [step]) == Apply(Exec(s, steps), step)
    decreases |steps|
  {
    if steps == [] {
      assert [step][1..] == [];
    } else {
      assert (steps + [step])[1..] == steps[1..] + [step];
      ExecAppend(Apply(s, steps[0]), steps[1..], step);
    }
  }

  /** A certificate as the scan's listing returned it, perhaps some time ago. */
  datatype Listed = Listed(id: string, doc: Doc)

  /** What the scan asks the store to record about one listed certificate. */
  function ScanStep(c: Listed, now: Time, busy: set<string>): Option<Step> {
    if c.doc.active.None? || c.doc.notifyGroupIds == [] then None
    else
      var v := c.doc.active.value;
      if V.PhaseAt(Some(v), c.doc.renewBeforeDays, now) == V.Expired then Some(TryExpired(c.id, v.id))
      else if 0 < v.notAfter - now <= SEVEN_DAYS && c.id !in busy then Some(TrySevenDay(c.id, v.id))
      else None
  }

  /**
   * Exactly what a scan announces: a served version past its end as expired, and any version that ends within
   * seven days as expiring, unless its replacement is in flight.
   */
  lemma ScanAnnounces(c: Listed, now: Time, busy: set<string>)
    ensures c.doc.active.None? || c.doc.notifyGroupIds == [] ==> ScanStep(c, now, busy).None?
    ensures c.doc.active.Some? && c.doc.notifyGroupIds != [] ==>
              var v := c.doc.active.value;
              && (ScanStep(c, now, busy) == Some(TryExpired(c.id, v.id)) <==>
                    now > v.notAfter && !v.revokePending && v.revokedAt.None?)
              && (ScanStep(c, now, busy) == Some(TrySevenDay(c.id, v.id)) <==>
                    v.notAfter - 7 * 24 * HOUR <= now < v.notAfter && c.id !in busy)
              && (ScanStep(c, now, busy).Some? ==>
                    ScanStep(c, now, busy).value in {TryExpired(c.id, v.id), TrySevenDay(c.id, v.id)})
  {
  }

  function ScanSteps(listing: seq<Listed>, now: Time, busy: set<string>): seq<Step> {
    if listing == [] then []
    else
      var step := ScanStep(listing[|listing| - 1], now, busy);
      ScanSteps(listing[..|listing| - 1], now, busy) + if step.Some? then [step.value] else []
  }

  lemma ScanGrows(listing: seq<Listed>, i: nat, now: Time, busy: set<string>)
    requires i < |listing|
    ensures var step := ScanStep(listing[i], now, busy);
            var steps, steps' := ScanSteps(listing[..i], now, busy), ScanSteps(listing[..i + 1], now, busy);
            steps' == if step.Some? then steps + [step.value] else steps
  {
    assert listing[..i + 1][..i] == listing[..i];
    assert ScanSteps(listing[..i], now, busy) + [] == ScanSteps(listing[..i], now, busy);
  }

  class Dispatcher {
    var docs: map<string, Doc>
    ghost var sent: map<string, seq<Event>>

    ghost function Now(): State
      reads this
    {
      State(docs, sent)
    }

    constructor ()
      ensures Now() == Init && Inv(Now())
    {
      docs, sent := map[], map[];
    }

    method TryRecordOperationFailureNotification(id: string, now: Time) returns (recorded: bool)
      modifies this
      ensures Now() == Apply(old(Now()), TryFailure(id, now)) && (recorded <==> FailureFree(old(Now()), id))
      ensures recorded <==> id in old(docs) && !old(docs)[id].markers.hadFailure
      ensures docs == if !recorded then old(docs)
                      else old(docs)[id := old(docs)[id].(markers := old(docs)[id].markers.(
                               hadFailure := true, lastFailAt := Some(now)))]
      ensures sent == if recorded then old(sent)[id := old(Sent(Now(), id)) + [FailureSent(now)]] else old(sent)
    {
      recorded := id in docs && !docs[id].markers.hadFailure;
      if recorded {
        sent := sent[id := Sent(Now(), id) + [FailureSent(now)]];
        docs := docs[id := docs[id].(markers := docs[id].markers.(hadFailure := true, lastFailAt := Some(now)))];
      }
    }

    method TryRecordOperationFailureReminder(id: string, now: Time) returns (recorded: bool)
      modifies this
      ensures Now() == Apply(old(Now()), TryReminder(id, now)) && (recorded <==> ReminderDue(old(Now()), id, now))
      ensures recorded <==> id in old(docs) && old(docs)[id].markers.hadFailure
                            && old(docs)[id].markers.lastFailAt.Some?
                            && old(docs)[id].markers.lastFailAt.value + 24 * HOUR <= now
      ensures docs == if !recorded then old(docs)
                      else old(docs)[id := old(docs)[id].(markers := old(docs)[id].markers.(
                               lastFailAt := Some(now)))]
      ensures sent == if recorded then old(sent)[id := old(Sent(Now(), id)) + [ReminderSent(now)]] else old(sent)
    {
      var cutoff := now - REMINDER_INTERVAL;
      recorded := && id in docs && docs[id].markers.hadFailure
                  && docs[id].markers.lastFailAt.Some? && docs[id].markers.lastFailAt.value <= cutoff;
      if recorded {
        sent := sent[id := Sent(Now(), id) + [ReminderSent(now)]];
        docs := docs[id := docs[id].(markers := docs[id].markers.(lastFailAt := Some(now)))];
      }
    }

    method TryRecordOperationRecovery(id: string, now: Time) returns (recorded: bool)
      modifies this
      ensures Now() == Apply(old(Now()), TryRecovery(id, now)) && (recorded <==> InFailure(old(Now()), id))
      ensures recorded <==> id in old(docs) && old(docs)[id].markers.hadFailure
      ensures docs == if !recorded then old(docs)
                      else old(docs)[id := old(docs)[id].(markers := old(docs)[id].markers.(
                               hadFailure := false, lastFailAt := None))]
      ensures sent == if recorded then old(sent)[id := old(Sent(Now(), id)) + [RecoverySent(now)]] else old(sent)
    {
      recorded := id in docs && docs[id].markers.hadFailure;
      if recorded {
        sent := sent[id := Sent(Now(), id) + [RecoverySent(now)]];
        docs := docs[id := docs[id].(markers := docs[id].markers.(hadFailure := false, lastFailAt := None))];
      }
    }

    method TryRecordSevenDayReminder(id: string, versionId: string) returns (recorded: bool)
      modifies this
      ensures Now() == Apply(old(Now()), TrySevenDay(id, versionId))
              && (recorded <==> SevenDayOpen(old(Now()), id, versionId))
      ensures recorded <==> id in old(docs) && old(docs)[id].active.Some?
                            && old(docs)[id].active.value.id == versionId
                            && old(docs)[id].markers.sevenDayId != Some(versionId)
      ensures docs == if !recorded then old(docs)
                      else old(docs)[id := old(docs)[id].(markers := old(docs)[id].markers.(
                               sevenDayId := Some(versionId)))]
      ensures sent == if recorded then old(sent)[id := old(Sent(Now(), id)) + [SevenDaySent(versionId)]] else old(sent)
    {
      recorded := && id in docs && docs[id].active.Some? && docs[id].active.value.id == versionId
                  && docs[id].markers.sevenDayId != Some(versionId);
      if recorded {
        sent := sent[id := Sent(Now(), id) + [SevenDaySent(versionId)]];
        docs := docs[id := docs[id].(markers := docs[id].markers.(sevenDayId := Some(versionId)))];
      }
    }

    method TryRecordExpiredNotification(id: string, versionId: string) returns (recorded: bool)
      modifies this
      ensures Now() == Apply(old(Now()), TryExpired(id, versionId))
              && (recorded <==> ExpiredOpen(old(Now()), id, versionId))
      ensures recorded <==> id in old(docs) && old(docs)[id].active.Some?
                            && old(docs)[id].active.value.id == versionId
                            && old(docs)[id].markers.expiredId != Some(versionId)
      ensures docs == if !recorded then old(docs)
                      else old(docs)[id := old(docs)[id].(markers := old(docs)[id].markers.(
                               expiredId := Some(versionId)))]
      ensures sent == if recorded then old(sent)[id := old(Sent(Now(), id)) + [ExpiredSent(versionId)]] else old(sent)
    {
      recorded := && id in docs && docs[id].active.Some? && docs[id].active.value.id == versionId
                  && docs[id].markers.expiredId != Some(versionId);
      if recorded {
        sent := sent[id := Sent(Now(), id) + [ExpiredSent(versionId)]];
        docs := docs[id := docs[id].(markers := docs[id].markers.(expiredId := Some(versionId)))];
      }
    }

    /** The first failure of an episode is announced at once, a lasting one again at most every 24 hours. */
    method OnOperationFailure(id: string, notifyGroupIds: seq<string>, now: Time) returns (recorded: bool)
      modifies this
      ensures recorded <==>
                notifyGroupIds != [] && (FailureFree(old(Now()), id) || ReminderDue(old(Now()), id, now))
      ensures Now() == if !recorded then old(Now())
                       else if FailureFree(old(Now()), id) then Apply(old(Now()), TryFailure(id, now))
                       else Apply(old(Now()), TryReminder(id, now))
    {
      if |notifyGroupIds| == 0 {
        return false;
      }
      recorded := TryRecordOperationFailureNotification(id, now);
      if !recorded {
        recorded := TryRecordOperationFailureReminder(id, now);
      }
    }

    method OnOperationSuccess(id: string, notifyGroupIds: seq<string>, now: Time) returns (recorded: bool)
      modifies this
      ensures recorded <==> notifyGroupIds != [] && InFailure(old(Now()), id)
      ensures Now() == if recorded then Apply(old(Now()), TryRecovery(id, now)) else old(Now())
    {
      if |notifyGroupIds| == 0 {
        return false;
      }
      recorded := TryRecordOperationRecovery(id, now);
    }

    method ScanValidityNotifications(listing: seq<Listed>, now: Time, busy: set<string>)
      modifies this
      ensures Now() == Exec(old(Now()), ScanSteps(listing, now, busy))
    {
      ghost var start := Now();
      for i := 0 to |listing|
        invariant Now() == Exec(start, ScanSteps(listing[..i], now, busy))
      {
        ScanGrows(listing, i, now, busy);
        var c := listing[i];
        if c.doc.active.None? || |c.doc.notifyGroupIds| == 0 {
          continue;
        }
        var v := c.doc.active.value;
        var validity := V.PhaseAt(c.doc.active, c.doc.renewBeforeDays, now);
        var remaining := v.notAfter - now;
        if validity == V.Expired {
          ExecAppend(start, ScanSteps(listing[..i], now, busy), TryExpired(c.id, v.id));
          var recorded := TryRecordExpiredNotification(c.id, v.id);
          continue;
        }
        if remaining <= SEVEN_DAYS && remaining > 0 {
          if c.id in busy {
            continue;
          }
          ExecAppend(start, ScanSteps(listing[..i], now, busy), TrySevenDay(c.id, v.id));
          var recorded := TryRecordSevenDayReminder(c.id, v.id);
        }
      }
      assert listing[..|listing|] == listing;
    }
  }

  lemma Then(steps: seq<Step>, s: State, step: Step) returns (steps': seq<Step>, s': State)
    requires Exec(Init, steps) == s
    ensures s' == Apply(s, step) && Exec(Init, steps') == s'
  {
    ExecAppend(Init, steps, step);
    steps', s' := steps + [step], Apply(s, step);
  }

  /** A rollback there and back makes a version's notice go out a second time. */
  lemma RollbackRepeatsNotice(a: Version, b: Version, days: V.uint32) returns (steps: seq<Step>)
    requires a.id != b.id
    ensures Sent(Exec(Init, steps), "c") == [SevenDaySent(a.id), SevenDaySent(b.id), SevenDaySent(a.id)]
  {
    hide Exec;
    var s: State;
    var doc := Doc(Some(a), days, ["n"], NoMarkers);
    steps, s := Then([], Init, Create("c", doc)) by {
      assert Exec(Init, []) == Init by { ExecNothing(); }
    }
    steps, s := Then(steps, s, TrySevenDay("c", a.id));
    assert s.docs == map["c" := doc.(markers := NoMarkers.(sevenDayId := Some(a.id)))];
    steps, s := Then(steps, s, Edit("c", Some(b), days, ["n"]));
    steps, s := Then(steps, s, TrySevenDay("c", b.id));
    assert s.docs == map["c" := doc.(active := Some(b), markers := NoMarkers.(sevenDayId := Some(b.id)))];
    assert Sent(s, "c") == [SevenDaySent(a.id), SevenDaySent(b.id)];
    steps, s := Then(steps, s, Edit("c", Some(a), days, ["n"]));
    steps, s := Then(steps, s, TrySevenDay("c", a.id));
  }

  lemma ExecNothing()
    ensures Exec(Init, []) == Init
  {
  }
}
