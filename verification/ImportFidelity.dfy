/**
 * A dry run predicts the real run: on a well-formed store both report the same counts and the same
 * errors in the same order, no write of the real run fails, and the store stays well-formed.
 */
module ImportFidelity {
  import opened Options
  import opened ConfigModel
  import opened ConfigStore
  import opened ConfigImport

  // ---------- Groups ----------

  /** What the phase knows about the collection it started from. */
  ghost predicate PhaseOf(p: GroupPhase, init: map<string, GroupDoc>) {
    && p.byId == init.Keys
    && (forall n | n in p.owners :: p.owners[n] in init && init[p.owners[n]].name == n)
    && (forall i | i in init :: init[i].name in p.owners)
  }

  lemma ListingGivesPhase(p: GroupPhase, coll: map<string, GroupDoc>, listing: seq<GroupDoc>)
    requires GroupsKeyed(coll) && Lists(listing, coll) && p.byId == ListedIds(listing) && p.owners == Owners(listing)
    ensures PhaseOf(p, coll)
  {
    OwnersAreNames(listing);
    forall id | id in coll
      ensures id in p.byId && coll[id].name in p.owners
    {
      var i :| 0 <= i < |listing| && listing[i] == coll[id];
    }
  }

  /** Every document is as it was, or has been written under a name and an id that the file has used up. */
  ghost predicate GroupInv(p: GroupPhase, init: map<string, GroupDoc>, r: GroupRun) {
    && PhaseOf(p, init) && UniqueNames(init)
    && r.coll.Keys == r.available && p.byId <= r.available <= p.byId + r.seenIds
    && GroupsKeyed(r.coll) && UniqueNames(r.coll) && RefsExist(r.coll, p.notifyIds)
    && (forall i | i in r.coll :: (i in init && r.coll[i] == init[i])
          || (i in r.seenIds && r.coll[i].name in r.seenNames))
  }

  lemma StartInv(p: GroupPhase, coll: map<string, GroupDoc>, listing: seq<GroupDoc>)
    requires GroupsKeyed(coll) && UniqueNames(coll) && RefsExist(coll, p.notifyIds)
    requires Lists(listing, coll) && p.byId == ListedIds(listing) && p.owners == Owners(listing)
    ensures GroupInv(p, coll, StartGroups(coll, listing))
  {
    ListingGivesPhase(p, coll, listing);
    hide UniqueNames, RefsExist, Lists, Owners;
  }

  predicate RefsAgree(p: GroupPhase) {
    p.refs == p.notifyIds && "" !in p.refs
  }

  /** A name that is neither used up by the file nor owned by another id is free in the store. */
  lemma NameIsFree(p: GroupPhase, init: map<string, GroupDoc>, r: GroupRun, e: GroupEntry)
    requires GroupInv(p, init, r) && e.name !in r.seenNames
    requires e.name in p.owners ==> p.owners[e.name] == e.id
    ensures !NameTakenByOther(r.coll, e.id, e.name)
  {
  }

  lemma RefsPass(p: GroupPhase, e: GroupEntry)
    requires RefsAgree(p) && MissingRefs(Refs(e), p.refs).None?
    ensures RefsValid(DocRefs(GroupToStore(e)), p.notifyIds)
  {
    NoneMissing(Refs(e), p.refs);
  }

  predicate Writes(act: Action) {
    act == Create || act == Update
  }

  lemma GroupWriteSucceeds(p: GroupPhase, init: map<string, GroupDoc>, r: GroupRun, e: GroupEntry)
    requires GroupInv(p, init, r) && RefsAgree(p) && GroupVerdict(p, r, e).None? && Writes(GroupAction(p, e))
    ensures WriteGroup(p, r.coll, e, GroupAction(p, e)).Ok?
  {
    NameIsFree(p, init, r, e);
    RefsPass(p, e);
  }

  lemma NotBlankNotEmpty(s: string)
    requires !Blank(s)
    ensures s != ""
  {
  }

  lemma PutKeepsInv(p: GroupPhase, init: map<string, GroupDoc>, r: GroupRun, e: GroupEntry, doc: GroupDoc, act: Action)
    requires GroupInv(p, init, r) && doc.name == e.name
    requires var coll' := r.coll[e.id := doc]; GroupsKeyed(coll') && UniqueNames(coll') && RefsExist(coll', p.notifyIds)
    ensures GroupInv(p, init,
            Seen(r, e).(coll := r.coll[e.id := doc], available := r.available + {e.id}, counts := Done(r.counts, act)))
  {
  }

  lemma WrittenKeepsInv(p: GroupPhase, init: map<string, GroupDoc>, r: GroupRun, e: GroupEntry)
    requires GroupInv(p, init, r) && RefsAgree(p) && !p.opts.dryRun
    requires GroupVerdict(p, r, e).None? && Writes(GroupAction(p, e))
    ensures GroupInv(p, init, GroupWritten(p, Seen(r, e), e, GroupAction(p, e)))
  {
    var act := GroupAction(p, e);
    GroupWriteSucceeds(p, init, r, e);
    NotBlankNotEmpty(e.id);
    var coll' := WriteGroup(p, r.coll, e, act).value;
    var d := GroupToStore(e);
    assert d.id == e.id && d.name == e.name;
    hide GroupToStore, UniqueNames, RefsExist, UpdateGroup, CreateGroup, GroupVerdict, GroupAction;
    GroupWriteKeeps(r.coll, p.notifyIds, d, p.opts.now, coll');
    PutKeepsInv(p, init, r, e, coll'[e.id], act);
    hide GroupInv;
  }

  /** The run of a phase as a dry run sees it: the same, on the unchanged collection. */
  function View(r: GroupRun, init: map<string, GroupDoc>): GroupRun {
    r.(coll := init)
  }

  predicate DryTwin(p: GroupPhase, q: GroupPhase) {
    !p.opts.dryRun && q == p.(opts := p.opts.(dryRun := true), notifyIds := q.notifyIds)
  }

  lemma GroupStepFidelity(p: GroupPhase, q: GroupPhase, init: map<string, GroupDoc>, r: GroupRun, e: GroupEntry)
    requires GroupInv(p, init, r) && RefsAgree(p) && DryTwin(p, q)
    ensures GroupInv(p, init, GroupStep(p, r, e))
    ensures GroupStep(q, View(r, init), e) == View(GroupStep(p, r, e), init)
  {
    if GroupVerdict(p, r, e).None? && Writes(GroupAction(p, e)) {
      WrittenKeepsInv(p, init, r, e);
      WrittenView(p, q, init, r, e);
    } else {
      UnwrittenKeepsInv(p, init, r, e);
      UnwrittenView(p, q, init, r, e);
    }
  }

  lemma WrittenView(p: GroupPhase, q: GroupPhase, init: map<string, GroupDoc>, r: GroupRun, e: GroupEntry)
    requires GroupInv(p, init, r) && RefsAgree(p) && DryTwin(p, q)
    requires GroupVerdict(p, r, e).None? && Writes(GroupAction(p, e))
    ensures GroupStep(p, r, e) == GroupWritten(p, Seen(r, e), e, GroupAction(p, e))
    ensures GroupStep(q, View(r, init), e) == View(GroupStep(p, r, e), init)
  {
    GroupWriteSucceeds(p, init, r, e);
    hide GroupInv, WriteGroup, Verdict, MissingRefs;
  }

  predicate Unwritten(p: GroupPhase, r: GroupRun, e: GroupEntry) {
    GroupVerdict(p, r, e).Some? || !Writes(GroupAction(p, e))
  }

  lemma UnwrittenView(p: GroupPhase, q: GroupPhase, init: map<string, GroupDoc>, r: GroupRun, e: GroupEntry)
    requires DryTwin(p, q) && Unwritten(p, r, e)
    ensures GroupStep(q, View(r, init), e) == View(GroupStep(p, r, e), init)
  {
  }

  lemma UnwrittenKeepsInv(p: GroupPhase, init: map<string, GroupDoc>, r: GroupRun, e: GroupEntry)
    requires GroupInv(p, init, r) && Unwritten(p, r, e)
    ensures GroupInv(p, init, GroupStep(p, r, e))
  {
    hide WriteGroup, Verdict, MissingRefs, UniqueNames, RefsExist, PhaseOf;
    var r' := GroupStep(p, r, e);
    assert r'.coll == r.coll && r'.available == r.available && r.seenIds <= r'.seenIds && r.seenNames <= r'.seenNames;
  }

  lemma {:induction false} GroupFidelity(p: GroupPhase, q: GroupPhase, init: map<string, GroupDoc>, r: GroupRun,
                                        es: seq<GroupEntry>)
    requires GroupInv(p, init, r) && RefsAgree(p) && DryTwin(p, q)
    ensures GroupInv(p, init, RunGroups(p, r, es))
    ensures RunGroups(q, View(r, init), es) == View(RunGroups(p, r, es), init)
    decreases |es|
  {
    if es != [] {
      GroupStepFidelity(p, q, init, r, es[0]);
      GroupFidelity(p, q, init, GroupStep(p, r, es[0]), es[1..]);
    }
  }

  // ---------- Monitors ----------

  /** The monitors of other servers are untouched; an id the file has not used up is stored as before. */
  ghost predicate MonitorInv(p: ServerPhase, db: Db, serverId: string, existing: set<string>, r: MonitorRun) {
    && WellFormed(r.db) && serverId in r.db.servers && r.db == db.(monitors := r.db.monitors)
    && p.groups == r.db.groups.Keys
    && (forall k: (string, string) | k.0 != serverId :: k in r.db.monitors <==> k in db.monitors)
    && (forall x | x !in r.seen :: (serverId, x) in r.db.monitors <==> x in existing)
  }

  lemma DefaultsKeepIdentity(m: Monitor)
    ensures var d := Defaults(m);
            d.id == m.id && d.serverId == m.serverId && d.groupIds == m.groupIds && d.name == m.name
  {
  }

  lemma MonitorWriteSucceeds(p: ServerPhase, db: Db, serverId: string, existing: set<string>, r: MonitorRun,
                             e: MonitorEntry)
    requires MonitorInv(p, db, serverId, existing, r) && MonitorVerdict(p, r.seen, e).None?
    requires Decide(p.opts.mode, e.id in existing, false) != Skip
    ensures WriteMonitor(p, r.db, serverId, e, Decide(p.opts.mode, e.id in existing, false)).Ok?
  {
    hide Defaults;
    NoneMissing(e.groupIds, p.groups);
    assert "" !in r.db.groups;
  }

  lemma MonitorPutKeeps(db: Db, m: Monitor)
    requires WellFormed(db) && m.serverId in db.servers && RefsValid(m.groupIds, db.groups.Keys)
    ensures WellFormed(db.(monitors := db.monitors[(m.serverId, m.id) := m]))
  {
  }

  lemma MonitorWriteKeeps(p: ServerPhase, db: Db, serverId: string, e: MonitorEntry, act: Action, db': Db)
    requires WellFormed(db) && serverId in db.servers && WriteMonitor(p, db, serverId, e, act) == Ok(db')
    ensures WellFormed(db') && (serverId, e.id) in db'.monitors
    ensures db' == db.(monitors := db.monitors[(serverId, e.id) := db'.monitors[(serverId, e.id)]])
  {
    hide WellFormed, Defaults;
    var doc := db'.monitors[(serverId, e.id)];
    forall m: Monitor {
      DefaultsKeepIdentity(m);
    }
    assert doc.serverId == serverId && doc.id == e.id && doc.groupIds == e.groupIds;
    MonitorPutKeeps(db, doc);
  }

  lemma MonitorStepFidelity(p: ServerPhase, q: ServerPhase, db: Db, dry: Db, serverId: string, existing: set<string>,
                            r: MonitorRun, e: MonitorEntry)
    requires MonitorInv(p, db, serverId, existing, r) && !p.opts.dryRun && q == p.(opts := p.opts.(dryRun := true))
    ensures MonitorInv(p, db, serverId, existing, MonitorStep(p, serverId, existing, r, e))
    ensures MonitorStep(q, serverId, existing, r.(db := dry), e) == MonitorStep(p, serverId, existing, r, e).(db := dry)
  {
    hide WellFormed, WriteMonitor;
    var act := Decide(p.opts.mode, e.id in existing, false);
    if MonitorVerdict(p, r.seen, e).None? && act != Skip {
      MonitorWriteSucceeds(p, db, serverId, existing, r, e);
      MonitorWriteKeeps(p, r.db, serverId, e, act, WriteMonitor(p, r.db, serverId, e, act).value);
    }
  }

  lemma {:induction false} MonitorFidelity(p: ServerPhase, q: ServerPhase, db: Db, dry: Db, serverId: string,
                                        existing: set<string>,
                                           r: MonitorRun, es: seq<MonitorEntry>)
    requires MonitorInv(p, db, serverId, existing, r) && !p.opts.dryRun && q == p.(opts := p.opts.(dryRun := true))
    ensures MonitorInv(p, db, serverId, existing, RunMonitors(p, serverId, existing, r, es))
    ensures RunMonitors(q, serverId, existing, r.(db := dry), es)
            == RunMonitors(p, serverId, existing, r, es).(db := dry)
    decreases |es|
  {
    if es != [] {
      hide MonitorInv, MonitorStep;
      MonitorStepFidelity(p, q, db, dry, serverId, existing, r, es[0]);
      MonitorFidelity(p, q, db, dry, serverId, existing, MonitorStep(p, serverId, existing, r, es[0]), es[1..]);
    }
  }

  // ---------- Servers ----------

  /** `init` is the store at the start of the phase. */
  ghost predicate ServerInv(p: ServerPhase, init: Db, r: ServerRun) {
    && WellFormed(init) && WellFormed(r.db) && r.db == init.(servers := r.db.servers, monitors := r.db.monitors)
    && p.byId == init.servers.Keys && p.groups == init.groups.Keys
    && p.byId <= r.db.servers.Keys <= p.byId + r.seen
    && (forall k: (string, string) | k.0 !in r.seen :: k in r.db.monitors <==> k in init.monitors)
  }

  /** The dry run sees the servers and monitors of the start. */
  ghost predicate SameHosts(dry: Db, init: Db) {
    dry.servers == init.servers && dry.monitors == init.monitors
  }

  lemma ServerWriteSucceeds(p: ServerPhase, init: Db, r: ServerRun, e: ServerEntry)
    requires ServerInv(p, init, r) && Verdict(r.seen, {}, e.id, e.name).None?
    requires Decide(p.opts.mode, e.id in p.byId, false) != Skip
    ensures WriteServer(p, r.db.servers, e, Decide(p.opts.mode, e.id in p.byId, false)).Ok?
  {
  }

  lemma ServerWriteKeeps(p: ServerPhase, db: Db, e: ServerEntry, act: Action, servers: map<string, Server>)
    requires WellFormed(db) && WriteServer(p, db.servers, e, act) == Ok(servers)
    ensures WellFormed(db.(servers := servers)) && servers.Keys == db.servers.Keys + {e.id}
  {
  }

  /** What a server's monitors start from, in the real run and in the dry run alike. */
  lemma SameExisting(p: ServerPhase, init: Db, dry: Db, r: ServerRun, db: Db, serverId: string)
    requires ServerInv(p, init, r) && SameHosts(dry, init) && serverId !in r.seen && db.monitors == r.db.monitors
    ensures Existing(p, dry, serverId) == Existing(p, db, serverId)
    ensures forall x :: (serverId, x) in db.monitors <==> x in Existing(p, db, serverId)
  {
  }

  lemma MonitorsKeepInv(p: ServerPhase, init: Db, r: ServerRun, r1: ServerRun, e: ServerEntry, existing: set<string>,
                        m: MonitorRun)
    requires ServerInv(p, init, r) && WellFormed(r1.db) && r1.seen == r.seen + {e.id}
    requires r1.db == r.db.(servers := r1.db.servers) && r1.db.servers.Keys == r.db.servers.Keys + {e.id}
    requires MonitorInv(p, r1.db, e.id, existing, m)
    ensures ServerInv(p, init, r1.(db := m.db, monitors := m.counts, errors := m.errors))
  {
  }

  /** A server that passed, with its monitors. */
  lemma ImportMonitorsFidelity(p: ServerPhase, q: ServerPhase, init: Db, dry: Db, r: ServerRun, r1: ServerRun,
                               e: ServerEntry)
    requires ServerInv(p, init, r) && SameHosts(dry, init) && !p.opts.dryRun && q == p.(opts := p.opts.(dryRun := true))
    requires e.id !in r.seen && r1.seen == r.seen + {e.id} && WellFormed(r1.db)
    requires r1.db == r.db.(servers := r1.db.servers) && r1.db.servers.Keys == r.db.servers.Keys + {e.id}
    ensures ServerInv(p, init, ImportMonitors(p, r1, e))
    ensures ImportMonitors(q, r1.(db := dry), e) == ImportMonitors(p, r1, e).(db := dry)
  {
    hide WellFormed;
    SameExisting(p, init, dry, r, r1.db, e.id);
    var existing := Existing(p, r1.db, e.id);
    var m0 := MonitorRun(r1.db, {}, r1.monitors, r1.errors);
    MonitorFidelity(p, q, r1.db, dry, e.id, existing, m0, e.monitors);
    MonitorsKeepInv(p, init, r, r1, e, existing, RunMonitors(p, e.id, existing, m0, e.monitors));
    assert Existing(q, dry, e.id) == existing;
  }

  lemma {:induction false} RejectedView(r: ServerRun, dry: Db, ms: seq<MonitorEntry>)
    ensures FailMonitors(r.(db := dry), ms) == FailMonitors(r, ms).(db := dry)
    ensures FailMonitors(r, ms).db == r.db && FailMonitors(r, ms).seen == r.seen
            && FailMonitors(r, ms).servers == r.servers
    decreases |ms|
  {
    if ms != [] {
      RejectedView(r.(monitors := OneFailed(r.monitors),
                      errors := r.errors + [Issue(OfMonitor, ms[0].id, ms[0].name, ParentNotImported)]), dry, ms[1..]);
    }
  }

  lemma ServerStepFidelity(p: ServerPhase, q: ServerPhase, init: Db, dry: Db, r: ServerRun, e: ServerEntry)
    requires ServerInv(p, init, r) && SameHosts(dry, init) && !p.opts.dryRun && q == p.(opts := p.opts.(dryRun := true))
    ensures ServerInv(p, init, ServerStep(p, r, e))
    ensures ServerStep(q, r.(db := dry), e) == ServerStep(p, r, e).(db := dry)
  {
    hide WellFormed, WriteServer, ImportMonitors, FailMonitors, Verdict;
    var act := Decide(p.opts.mode, e.id in p.byId, false);
    var r1 := r.(seen := r.seen + {e.id});
    if Verdict(r.seen, {}, e.id, e.name).Some? {
      RejectedView(r.(servers := OneFailed(r.servers),
                      errors := r.errors + [Issue(OfServer, e.id, e.name, Verdict(r.seen, {}, e.id, e.name).value)]),
                          dry, e.monitors);
    } else if act == Skip {
      FreshId(r.seen, e);
      assert r.db.servers.Keys + {e.id} == r.db.servers.Keys;
      ImportMonitorsFidelity(p, q, init, dry, r, r1.(servers := OneSkipped(r1.servers)), e);
    } else {
      FreshId(r.seen, e);
      ServerWriteSucceeds(p, init, r, e);
      var servers := WriteServer(p, r.db.servers, e, act).value;
      ServerWriteKeeps(p, r.db, e, act, servers);
      ImportMonitorsFidelity(p, q, init, dry, r,
          r1.(db := r.db.(servers := servers), servers := Done(r1.servers, act)), e);
    }
  }

  lemma FreshId(seen: set<string>, e: ServerEntry)
    requires Verdict(seen, {}, e.id, e.name).None?
    ensures e.id !in seen
  {
  }

  lemma {:induction false} ServerFidelity(p: ServerPhase, q: ServerPhase, init: Db, dry: Db, r: ServerRun,
                                        es: seq<ServerEntry>)
    requires ServerInv(p, init, r) && SameHosts(dry, init) && !p.opts.dryRun && q == p.(opts := p.opts.(dryRun := true))
    ensures ServerInv(p, init, RunServers(p, r, es))
    ensures RunServers(q, r.(db := dry), es) == RunServers(p, r, es).(db := dry)
    decreases |es|
  {
    if es != [] {
      hide ServerInv, ServerStep;
      ServerStepFidelity(p, q, init, dry, r, es[0]);
      ServerFidelity(p, q, init, dry, ServerStep(p, r, es[0]), es[1..]);
    }
  }

  // ---------- The whole import ----------

  predicate NoWriteError(errors: seq<Issue>) {
    forall i | 0 <= i < |errors| :: !errors[i].message.WriteFailed?
  }

  lemma {:induction false} MissingRefsIsNoWriteError(ids: seq<string>, available: set<string>)
    ensures MissingRefs(ids, available).Some? ==> MissingRefs(ids, available).value.MissingRef?
    decreases |ids|
  {
    if ids != [] {
      MissingRefsIsNoWriteError(ids[1..], available);
    }
  }

  lemma {:induction false} DryGroupsReportNoWriteError(q: GroupPhase, r: GroupRun, es: seq<GroupEntry>)
    requires q.opts.dryRun && NoWriteError(r.errors)
    ensures NoWriteError(RunGroups(q, r, es).errors)
    decreases |es|
  {
    if es != [] {
      MissingRefsIsNoWriteError(Refs(es[0]), q.refs);
      DryGroupsReportNoWriteError(q, GroupStep(q, r, es[0]), es[1..]);
    }
  }

  lemma {:induction false} DryMonitorsReportNoWriteError(q: ServerPhase, id: string, existing: set<string>,
                                        r: MonitorRun, es: seq<MonitorEntry>)
    requires q.opts.dryRun && NoWriteError(r.errors)
    ensures NoWriteError(RunMonitors(q, id, existing, r, es).errors)
    decreases |es|
  {
    if es != [] {
      hide WriteMonitor;
      MissingRefsIsNoWriteError(es[0].groupIds, q.groups);
      DryMonitorsReportNoWriteError(q, id, existing, MonitorStep(q, id, existing, r, es[0]), es[1..]);
    }
  }

  lemma {:induction false} RejectedReportsNoWriteError(r: ServerRun, ms: seq<MonitorEntry>)
    requires NoWriteError(r.errors)
    ensures NoWriteError(FailMonitors(r, ms).errors)
    decreases |ms|
  {
    if ms != [] {
      RejectedReportsNoWriteError(r.(monitors := OneFailed(r.monitors),
                                     errors := r.errors + [Issue(OfMonitor, ms[0].id, ms[0].name, ParentNotImported)]),
                                         ms[1..]);
    }
  }

  lemma {:induction false} DryServersReportNoWriteError(q: ServerPhase, r: ServerRun, es: seq<ServerEntry>)
    requires q.opts.dryRun && NoWriteError(r.errors)
    ensures NoWriteError(RunServers(q, r, es).errors)
    decreases |es|
  {
    if es != [] {
      var e := es[0];
      var v := Verdict(r.seen, {}, e.id, e.name);
      if v.Some? {
        RejectedReportsNoWriteError(r.(servers := OneFailed(r.servers), errors := r.errors
            + [Issue(OfServer, e.id, e.name, v.value)]), e.monitors);
      } else {
        DryMonitorsReportNoWriteError(q, e.id, Existing(q, r.db, e.id), MonitorRun(r.db, {}, r.monitors, r.errors),
            e.monitors);
      }
      DryServersReportNoWriteError(q, ServerStep(q, r, e), es[1..]);
    }
  }

  ghost predicate OfKind(coll: map<string, GroupDoc>, notify: bool) {
    forall i | i in coll :: coll[i].NotifyGroup? == notify
  }

  lemma {:induction false} KindKept(p: GroupPhase, r: GroupRun, es: seq<GroupEntry>, notify: bool)
    requires OfKind(r.coll, notify) && forall i | 0 <= i < |es| :: es[i].NotifyEntry? == notify
    ensures OfKind(RunGroups(p, r, es).coll, notify)
    decreases |es|
  {
    if es != [] {
      KindKept(p, GroupStep(p, r, es[0]), es[1..], notify);
    }
  }

  /** The two group phases, from the store and its listings. */
  lemma NotifyFidelity(db: Db, f: File, o: Opts, listing: seq<GroupDoc>)
    requires WellFormed(db) && Lists(listing, db.notify) && Typed(f) && !o.dryRun
    ensures var r := NotifyRun(db.notify, f, o, listing);
            && NotifyRun(db.notify, f, o.(dryRun := true), listing) == View(r, db.notify)
            && NoWriteError(r.errors)
            && GroupsKeyed(r.coll) && UniqueNames(r.coll) && OfKind(r.coll, true)
            && r.available == r.coll.Keys && db.notify.Keys <= r.coll.Keys
  {
    var p, q := NotifyPhase(o, listing), NotifyPhase(o.(dryRun := true), listing);
    var r := StartGroups(db.notify, listing);
    StartInv(p, db.notify, listing);
    GroupFidelity(p, q, db.notify, r, f.notifyGroups);
    DryGroupsReportNoWriteError(q, View(r, db.notify), f.notifyGroups);
    KindKept(p, r, f.notifyGroups, true);
  }

  lemma GroupsFidelity(db: Db, f: File, o: Opts, listing: seq<GroupDoc>, n: GroupRun, m: GroupRun)
    requires WellFormed(db) && Lists(listing, db.groups) && Typed(f) && !o.dryRun
    requires n.available == n.coll.Keys == m.available && db.notify.Keys <= n.coll.Keys && GroupsKeyed(n.coll)
    ensures var r := GroupsRun(db.groups, f, o, listing, n);
            && GroupsRun(db.groups, f, o.(dryRun := true), listing, m) == View(r, db.groups)
            && NoWriteError(r.errors)
            && GroupsKeyed(r.coll) && UniqueNames(r.coll) && OfKind(r.coll, false) && RefsExist(r.coll, n.coll.Keys)
            && r.available == r.coll.Keys && db.groups.Keys <= r.coll.Keys
  {
    var p, q := MonitorGroupPhase(o, listing, n), MonitorGroupPhase(o.(dryRun := true), listing, m);
    var r := StartGroups(db.groups, listing);
    StartInv(p, db.groups, listing);
    GroupFidelity(p, q, db.groups, r, f.monitorGroups);
    DryGroupsReportNoWriteError(q, View(r, db.groups), f.monitorGroups);
    KindKept(p, r, f.monitorGroups, false);
  }

  lemma GroupsReplaced(db: Db, settings: Option<Settings>, notify: map<string, GroupDoc>, groups: map<string, GroupDoc>)
    requires WellFormed(db) && db.notify.Keys <= notify.Keys && db.groups.Keys <= groups.Keys
    requires GroupsKeyed(notify) && UniqueNames(notify) && OfKind(notify, true)
    requires GroupsKeyed(groups) && UniqueNames(groups) && OfKind(groups, false) && RefsExist(groups, notify.Keys)
    ensures WellFormed(db.(settings := settings, notify := notify, groups := groups))
  {
  }

  lemma ServersRunFidelity(db: Db, dry: Db, f: File, o: Opts, g: GroupRun, h: GroupRun)
    requires WellFormed(db) && SameHosts(dry, db) && !o.dryRun && g.available == h.available == db.groups.Keys
    ensures var v := ServersRun(db, f, o, g);
            && ServersRun(dry, f, o.(dryRun := true), h) == v.(db := dry)
            && WellFormed(v.db) && NoWriteError(v.errors)
  {
    var p, q := ServerPhase(o, db.servers.Keys, g.available),
        ServerPhase(o.(dryRun := true), dry.servers.Keys, h.available);
    var r := ServerRun(db, {}, NONE, NONE, []);
    assert ServerInv(p, db, r);
    ServerFidelity(p, q, db, dry, r, f.servers);
    DryServersReportNoWriteError(q, r.(db := dry), f.servers);
  }

  /**
   * A dry run leaves the store unchanged and reports exactly what the real run reports, in the same
   * order; in the real run no write fails, and the store stays well-formed. Both modes, every file.
   */
  lemma DryRunPredicts(db: Db, f: File, o: Opts, notifyList: seq<GroupDoc>, groupList: seq<GroupDoc>)
    requires WellFormed(db) && Lists(notifyList, db.notify) && Lists(groupList, db.groups) && Typed(f) && !o.dryRun
    ensures var run := Import(db, f, o, notifyList, groupList);
            && Import(db, f, o.(dryRun := true), notifyList, groupList) == Outcome(db, run.report)
            && NoWriteError(run.report.errors) && WellFormed(run.db)
  {
    hide WellFormed, Lists, Typed, NotifyRun, GroupsRun, ServersRun, GroupsKeyed, UniqueNames, OfKind, RefsExist,
         NoWriteError;
    hide UpdateSettings;
    var d := o.(dryRun := true);
    var s := SettingsDone(db, f, o);
    SettingsDoNotMatter(db, s.0.settings);
    NotifyFidelity(db, f, o, notifyList);
    var n, m := NotifyRun(db.notify, f, o, notifyList), NotifyRun(db.notify, f, d, notifyList);
    GroupsFidelity(db, f, o, groupList, n, m);
    var g, h := GroupsRun(db.groups, f, o, groupList, n), GroupsRun(db.groups, f, d, groupList, m);
    GroupsReplaced(db, s.0.settings, n.coll, g.coll);
    var db' := db.(settings := s.0.settings, notify := n.coll, groups := g.coll);
    ServersRunFidelity(db', db, f, o, g, h);
    var v := ServersRun(db', f, o, g);
    NoWriteErrors(n.errors, g.errors, v.errors);
    assert Import(db, f, o, notifyList, groupList) ==
           Outcome(v.db, Report(s.1, n.counts, g.counts, v.servers, v.monitors, n.errors + g.errors + v.errors));
  }

  lemma NoWriteErrors(a: seq<Issue>, b: seq<Issue>, c: seq<Issue>)
    requires NoWriteError(a) && NoWriteError(b) && NoWriteError(c)
    ensures NoWriteError(a + b + c)
  {
  }

  lemma SettingsDoNotMatter(db: Db, settings: Option<Settings>)
    requires WellFormed(db)
    ensures WellFormed(db.(settings := settings))
  {
  }
}
