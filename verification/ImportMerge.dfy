/** Accounting of imports in both modes, and what merging does: it only adds, and a second time it adds nothing. */
module ImportMerge {
  import opened Options
  import opened ConfigModel
  import opened ConfigStore
  import opened ConfigImport
  import opened ImportFidelity

  // ---------- Accounting ----------

  function MonitorCount(es: seq<ServerEntry>): nat {
    if es == [] then 0 else |es[0].monitors| + MonitorCount(es[1..])
  }

  /** Each failure has its issue; an upsert reports nothing else, a merge also the name conflicts it skips. */
  ghost predicate Reported(o: Opts, failures: int, issues: int) {
    failures <= issues && (o.mode == Upsert ==> failures == issues)
  }

  /** Entries, stored groups and issues of a group phase, between two points of a run. */
  ghost predicate GroupsAccounted(o: Opts, r: GroupRun, r': GroupRun, entries: int) {
    && r'.counts.Total() == r.counts.Total() + entries
    && |r'.coll| == |r.coll| + (if o.dryRun then 0 else r'.counts.created - r.counts.created)
    && Reported(o, r'.counts.failed - r.counts.failed, |r'.errors| - |r.errors|)
  }

  lemma WriteGroupGrowth(p: GroupPhase, coll: map<string, GroupDoc>, e: GroupEntry, act: Action)
    ensures var w := WriteGroup(p, coll, e, act);
            w.Ok? ==> |w.value| == |coll| + if act == Update then 0 else 1
  {
  }

  lemma GroupStepAccounting(p: GroupPhase, r: GroupRun, e: GroupEntry)
    ensures GroupsAccounted(p.opts, r, GroupStep(p, r, e), 1)
  {
    hide Verdict, MissingRefs, WriteGroup;
    WriteGroupGrowth(p, r.coll, e, GroupAction(p, e));
  }

  lemma {:induction false} GroupAccounting(p: GroupPhase, r: GroupRun, es: seq<GroupEntry>)
    ensures GroupsAccounted(p.opts, r, RunGroups(p, r, es), |es|)
    decreases |es|
  {
    if es != [] {
      hide GroupStep;
      GroupStepAccounting(p, r, es[0]);
      GroupAccounting(p, GroupStep(p, r, es[0]), es[1..]);
    }
  }

  ghost predicate MonitorsAccounted(o: Opts, r: MonitorRun, r': MonitorRun, entries: int) {
    && r'.counts.Total() == r.counts.Total() + entries
    && |r'.db.monitors| == |r.db.monitors| + (if o.dryRun then 0 else r'.counts.created - r.counts.created)
    && r'.db == r.db.(monitors := r'.db.monitors)
    && |r'.errors| - |r.errors| == r'.counts.failed - r.counts.failed
  }

  lemma WriteMonitorGrowth(p: ServerPhase, db: Db, serverId: string, e: MonitorEntry, act: Action)
    ensures var w := WriteMonitor(p, db, serverId, e, act);
            w.Ok? ==>
              && |w.value.monitors| == |db.monitors| + (if act == Update then 0 else 1)
              && w.value == db.(monitors := w.value.monitors)
  {
  }

  lemma MonitorStepAccounting(p: ServerPhase, id: string, existing: set<string>, r: MonitorRun, e: MonitorEntry)
    ensures MonitorsAccounted(p.opts, r, MonitorStep(p, id, existing, r, e), 1)
  {
    hide Verdict, MissingRefs, ValidKind, WriteMonitor;
    WriteMonitorGrowth(p, r.db, id, e, Decide(p.opts.mode, e.id in existing, false));
  }

  lemma {:induction false} MonitorAccounting(p: ServerPhase, id: string, existing: set<string>, r: MonitorRun,
                                        es: seq<MonitorEntry>)
    ensures MonitorsAccounted(p.opts, r, RunMonitors(p, id, existing, r, es), |es|)
    decreases |es|
  {
    if es != [] {
      hide MonitorStep;
      MonitorStepAccounting(p, id, existing, r, es[0]);
      MonitorAccounting(p, id, existing, MonitorStep(p, id, existing, r, es[0]), es[1..]);
    }
  }

  lemma {:induction false} RejectedAccounting(r: ServerRun, ms: seq<MonitorEntry>)
    ensures var r' := FailMonitors(r, ms);
            && r'.monitors == r.monitors.(failed := r.monitors.failed + |ms|)
            && |r'.errors| == |r.errors| + |ms| && r' == r.(monitors := r'.monitors, errors := r'.errors)
    decreases |ms|
  {
    if ms != [] {
      RejectedAccounting(r.(monitors := OneFailed(r.monitors),
                            errors := r.errors + [Issue(OfMonitor, ms[0].id, ms[0].name, ParentNotImported)]), ms[1..]);
    }
  }

  /** Entries, stored documents and issues of the server phase, between two points of a run. */
  ghost predicate ServersAccounted(o: Opts, r: ServerRun, r': ServerRun, servers: int, monitors: int) {
    && r'.servers.Total() == r.servers.Total() + servers
    && r'.monitors.Total() == r.monitors.Total() + monitors
    && |r'.db.servers| == |r.db.servers| + (if o.dryRun then 0 else r'.servers.created - r.servers.created)
    && |r'.db.monitors| == |r.db.monitors| + (if o.dryRun then 0 else r'.monitors.created - r.monitors.created)
    && |r'.errors| - |r.errors| == r'.servers.failed - r.servers.failed + r'.monitors.failed - r.monitors.failed
  }

  lemma WriteServerGrowth(p: ServerPhase, servers: map<string, Server>, e: ServerEntry, act: Action)
    ensures var w := WriteServer(p, servers, e, act);
            w.Ok? ==> |w.value| == |servers| + if act == Update then 0 else 1
  {
  }

  lemma ImportMonitorsAccounting(p: ServerPhase, r: ServerRun, e: ServerEntry)
    ensures var r' := ImportMonitors(p, r, e);
            ServersAccounted(p.opts, r, r', 0, |e.monitors|) && r'.servers == r.servers && r'.db.servers == r.db.servers
  {
    hide RunMonitors;
    MonitorAccounting(p, e.id, Existing(p, r.db, e.id), MonitorRun(r.db, {}, r.monitors, r.errors), e.monitors);
  }

  lemma ServerRejectedAccounting(o: Opts, r: ServerRun, e: ServerEntry, message: Message)
    ensures ServersAccounted(o, r, ServerRejected(r, e, message), 1, |e.monitors|)
  {
    hide FailMonitors;
    RejectedAccounting(r.(servers := OneFailed(r.servers), errors := r.errors +
                       [Issue(OfServer, e.id, e.name, message)]), e.monitors);
  }

  lemma ServerStepAccounting(p: ServerPhase, r: ServerRun, e: ServerEntry)
    ensures ServersAccounted(p.opts, r, ServerStep(p, r, e), 1, |e.monitors|)
  {
    hide Verdict, ImportMonitors, ServerRejected, WriteServer;
    var v := Verdict(r.seen, {}, e.id, e.name);
    var r1 := r.(seen := r.seen + {e.id});
    var act := Decide(p.opts.mode, e.id in p.byId, false);
    var w := WriteServer(p, r1.db.servers, e, act);
    if v.Some? {
      ServerRejectedAccounting(p.opts, r, e, v.value);
    } else if act == Skip {
      ImportMonitorsAccounting(p, r1.(servers := OneSkipped(r1.servers)), e);
    } else if !p.opts.dryRun && w.Err? {
      ServerRejectedAccounting(p.opts, r1, e, WriteFailed(w.error));
    } else {
      WriteServerGrowth(p, r1.db.servers, e, act);
      ImportMonitorsAccounting(p,
          r1.(db := if p.opts.dryRun then r1.db else r1.db.(servers := w.value), servers := Done(r1.servers, act)), e);
    }
  }

  lemma {:induction false} ServerAccounting(p: ServerPhase, r: ServerRun, es: seq<ServerEntry>)
    ensures ServersAccounted(p.opts, r, RunServers(p, r, es), |es|, MonitorCount(es))
    decreases |es|
  {
    if es != [] {
      hide ServerStep;
      ServerStepAccounting(p, r, es[0]);
      ServerAccounting(p, ServerStep(p, r, es[0]), es[1..]);
    }
  }

  function Failures(r: Report): nat {
    r.notifyGroups.failed + r.monitorGroups.failed + r.servers.failed + r.monitors.failed
  }

  function Grown(o: Opts, created: nat): nat {
    if o.dryRun then 0 else created
  }

  /**
   * For every store, file, mode and listing: every entry is counted exactly once, those nested under
   * rejected servers included; the collections grow by what is reported created; failures are reported.
   */
  lemma EveryEntryCounted(db: Db, f: File, o: Opts, notifyList: seq<GroupDoc>, groupList: seq<GroupDoc>)
    ensures var r := Import(db, f, o, notifyList, groupList).report;
            && r.settings.Total() == (if f.settings.Some? then 1 else 0)
            && r.notifyGroups.Total() == |f.notifyGroups| && r.monitorGroups.Total() == |f.monitorGroups|
            && r.servers.Total() == |f.servers| && r.monitors.Total() == MonitorCount(f.servers)
            && Reported(o, Failures(r), |r.errors|)
    ensures var out := Import(db, f, o, notifyList, groupList);
            var r := out.report;
            && |out.db.notify| == |db.notify| + Grown(o, r.notifyGroups.created)
            && |out.db.groups| == |db.groups| + Grown(o, r.monitorGroups.created)
            && |out.db.servers| == |db.servers| + Grown(o, r.servers.created)
            && |out.db.monitors| == |db.monitors| + Grown(o, r.monitors.created)
  {
    hide SettingsDone, NotifyRun, GroupsRun, ServersRun, Import;
    var s, n, g, v := ImportParts(db, f, o, notifyList, groupList);
    SettingsAccounted(db, f, o);
    NotifyRunAccounting(db.notify, f, o, notifyList);
    GroupsRunAccounting(db.groups, f, o, groupList, n);
    ServersRunAccounting(db.(settings := s.0.settings, notify := n.coll, groups := g.coll), f, o, g);
  }

  lemma NotifyRunAccounting(coll: map<string, GroupDoc>, f: File, o: Opts, listing: seq<GroupDoc>)
    ensures var r := NotifyRun(coll, f, o, listing);
            && r.counts.Total() == |f.notifyGroups| && |r.coll| == |coll| + Grown(o, r.counts.created)
            && Reported(o, r.counts.failed, |r.errors|)
  {
    GroupAccounting(NotifyPhase(o, listing), StartGroups(coll, listing), f.notifyGroups);
  }

  lemma GroupsRunAccounting(coll: map<string, GroupDoc>, f: File, o: Opts, listing: seq<GroupDoc>, n: GroupRun)
    ensures var r := GroupsRun(coll, f, o, listing, n);
            && r.counts.Total() == |f.monitorGroups| && |r.coll| == |coll| + Grown(o, r.counts.created)
            && Reported(o, r.counts.failed, |r.errors|)
  {
    GroupAccounting(MonitorGroupPhase(o, listing, n), StartGroups(coll, listing), f.monitorGroups);
  }

  lemma ServersRunAccounting(db: Db, f: File, o: Opts, g: GroupRun)
    ensures var r := ServersRun(db, f, o, g);
            && r.servers.Total() == |f.servers| && r.monitors.Total() == MonitorCount(f.servers)
            && |r.db.servers| == |db.servers| + Grown(o, r.servers.created)
            && |r.db.monitors| == |db.monitors| + Grown(o, r.monitors.created)
            && r.db == db.(servers := r.db.servers, monitors := r.db.monitors)
            && |r.errors| == r.servers.failed + r.monitors.failed
  {
    var p, r := ServerPhase(o, db.servers.Keys, g.available), ServerRun(db, {}, NONE, NONE, []);
    ServersFrame(p, r, f.servers);
    ServerAccounting(p, r, f.servers);
  }

  lemma SettingsAccounted(db: Db, f: File, o: Opts)
    ensures SettingsDone(db, f, o).1.Total() == (if f.settings.Some? then 1 else 0)
            && SettingsDone(db, f, o).1.failed == 0
  {
  }

  /** The server phase leaves settings and groups alone. */
  lemma {:induction false} ServersFrame(p: ServerPhase, r: ServerRun, es: seq<ServerEntry>)
    ensures var db' := RunServers(p, r, es).db; db' == r.db.(servers := db'.servers, monitors := db'.monitors)
    decreases |es|
  {
    if es != [] {
      ServerStepFrame(p, r, es[0]);
      hide ServerStep;
      ServersFrame(p, ServerStep(p, r, es[0]), es[1..]);
    }
  }

  lemma ServerStepFrame(p: ServerPhase, r: ServerRun, e: ServerEntry)
    ensures var db' := ServerStep(p, r, e).db; db' == r.db.(servers := db'.servers, monitors := db'.monitors)
  {
    hide Verdict, ImportMonitors, ServerRejected, WriteServer;
    var v := Verdict(r.seen, {}, e.id, e.name);
    var r1 := r.(seen := r.seen + {e.id});
    var act := Decide(p.opts.mode, e.id in p.byId, false);
    var w := WriteServer(p, r1.db.servers, e, act);
    if v.Some? {
      ServerRejectedFrame(r, e, v.value);
    } else if act == Skip {
      ImportMonitorsFrame(p, r1.(servers := OneSkipped(r1.servers)), e);
    } else if !p.opts.dryRun && w.Err? {
      ServerRejectedFrame(r1, e, WriteFailed(w.error));
    } else {
      ImportMonitorsFrame(p,
          r1.(db := if p.opts.dryRun then r1.db else r1.db.(servers := w.value), servers := Done(r1.servers, act)), e);
    }
  }

  lemma ImportMonitorsFrame(p: ServerPhase, r: ServerRun, e: ServerEntry)
    ensures var db' := ImportMonitors(p, r, e).db; db' == r.db.(monitors := db'.monitors)
  {
    MonitorAccounting(p, e.id, Existing(p, r.db, e.id), MonitorRun(r.db, {}, r.monitors, r.errors), e.monitors);
  }

  lemma ServerRejectedFrame(r: ServerRun, e: ServerEntry, message: Message)
    ensures ServerRejected(r, e, message).db == r.db
  {
    RejectedAccounting(r.(servers := OneFailed(r.servers), errors := r.errors +
                       [Issue(OfServer, e.id, e.name, message)]), e.monitors);
  }

  // ---------- Merge only adds ----------

  ghost predicate Extends<K(!new), V>(a: map<K, V>, b: map<K, V>) {
    forall k | k in a :: k in b && b[k] == a[k]
  }

  ghost predicate DbExtends(a: Db, b: Db) {
    && b.settings == a.settings && Extends(a.notify, b.notify) && Extends(a.groups, b.groups)
    && Extends(a.servers, b.servers) && Extends(a.monitors, b.monitors)
  }

  lemma {:induction false} MergeGroupsExtend(p: GroupPhase, r: GroupRun, es: seq<GroupEntry>)
    requires p.opts.mode == Merge
    ensures Extends(r.coll, RunGroups(p, r, es).coll)
    decreases |es|
  {
    if es != [] {
      assert Extends(r.coll, GroupStep(p, r, es[0]).coll);
      hide GroupStep;
      MergeGroupsExtend(p, GroupStep(p, r, es[0]), es[1..]);
    }
  }

  lemma MergeMonitorStepExtends(p: ServerPhase, id: string, existing: set<string>, r: MonitorRun, e: MonitorEntry)
    requires p.opts.mode == Merge
    ensures Extends(r.db.monitors, MonitorStep(p, id, existing, r, e).db.monitors)
  {
  }

  lemma {:induction false} MergeMonitorsExtend(p: ServerPhase, id: string, existing: set<string>, r: MonitorRun,
                                        es: seq<MonitorEntry>)
    requires p.opts.mode == Merge
    ensures Extends(r.db.monitors, RunMonitors(p, id, existing, r, es).db.monitors)
    decreases |es|
  {
    if es != [] {
      hide MonitorStep;
      MergeMonitorStepExtends(p, id, existing, r, es[0]);
      MergeMonitorsExtend(p, id, existing, MonitorStep(p, id, existing, r, es[0]), es[1..]);
    }
  }

  lemma MergeServerStepExtends(p: ServerPhase, r: ServerRun, e: ServerEntry)
    requires p.opts.mode == Merge
    ensures var r' := ServerStep(p, r, e);
            Extends(r.db.servers, r'.db.servers) && Extends(r.db.monitors, r'.db.monitors)
  {
    hide Verdict, RunMonitors, ServerRejected;
    var v := Verdict(r.seen, {}, e.id, e.name);
    var r1 := r.(seen := r.seen + {e.id});
    var w := WriteServer(p, r1.db.servers, e, Create);
    if v.Some? {
      ServerRejectedFrame(r, e, v.value);
    } else if e.id in p.byId {
      MergeImportMonitors(p, r1.(servers := OneSkipped(r1.servers)), e);
    } else if !p.opts.dryRun && w.Err? {
      ServerRejectedFrame(r1, e, WriteFailed(w.error));
    } else {
      MergeImportMonitors(p,
          r1.(db := if p.opts.dryRun then r1.db else r1.db.(servers := w.value), servers := Done(r1.servers, Create)),
              e);
    }
  }

  lemma MergeImportMonitors(p: ServerPhase, r: ServerRun, e: ServerEntry)
    requires p.opts.mode == Merge
    ensures var r' := ImportMonitors(p, r, e); r'.db.servers == r.db.servers && Extends(r.db.monitors, r'.db.monitors)
  {
    ImportMonitorsFrame(p, r, e);
    MergeMonitorsExtend(p, e.id, Existing(p, r.db, e.id), MonitorRun(r.db, {}, r.monitors, r.errors), e.monitors);
  }

  lemma {:induction false} MergeServersExtend(p: ServerPhase, r: ServerRun, es: seq<ServerEntry>)
    requires p.opts.mode == Merge
    ensures var r' := RunServers(p, r, es);
            Extends(r.db.servers, r'.db.servers) && Extends(r.db.monitors, r'.db.monitors)
    decreases |es|
  {
    if es != [] {
      hide ServerStep;
      MergeServerStepExtends(p, r, es[0]);
      MergeServersExtend(p, ServerStep(p, r, es[0]), es[1..]);
    }
  }

  /** Every document present before a merge is unchanged after it, whatever the store and the file. */
  lemma MergeOnlyAdds(db: Db, f: File, o: Opts, notifyList: seq<GroupDoc>, groupList: seq<GroupDoc>)
    requires o.mode == Merge
    ensures DbExtends(db, Import(db, f, o, notifyList, groupList).db)
  {
    hide RunGroups, RunServers, Import;
    var s, n, g, v := ImportParts(db, f, o, notifyList, groupList);
    MergeGroupsExtend(NotifyPhase(o, notifyList), StartGroups(db.notify, notifyList), f.notifyGroups);
    MergeGroupsExtend(MonitorGroupPhase(o, groupList, n), StartGroups(db.groups, groupList), f.monitorGroups);
    var db' := db.(settings := s.0.settings, notify := n.coll, groups := g.coll);
    var p := ServerPhase(o, db'.servers.Keys, g.available);
    ServersFrame(p, ServerRun(db', {}, NONE, NONE, []), f.servers);
    MergeServersExtend(p, ServerRun(db', {}, NONE, NONE, []), f.servers);
  }

  // ---------- Merging twice ----------

  /** Two runs of a file, entry by entry: what the first creates the second finds. */
  ghost predicate SecondPass(p: GroupPhase, init: map<string, GroupDoc>, r: GroupRun, p': GroupPhase, r': GroupRun,
                             final: map<string, GroupDoc>) {
    && p.opts.mode == Merge && !p.opts.dryRun && p'.opts.mode == Merge
    && GroupInv(p, init, r) && RefsAgree(p) && p'.refs == p.refs
    && PhaseOf(p', final) && UniqueNames(final) && Extends(init, final)
    && r'.seenIds == r.seenIds && r'.seenNames == r.seenNames && r'.coll == final
  }

  predicate AddedNothing(c: Counts, c': Counts) {
    c'.created == c.created && c'.updated == c.updated
  }

  lemma GroupAgain(p: GroupPhase, init: map<string, GroupDoc>, r: GroupRun, p': GroupPhase, r': GroupRun,
                   final: map<string, GroupDoc>, e: GroupEntry)
    requires SecondPass(p, init, r, p', r', final) && Extends(GroupStep(p, r, e).coll, final)
    ensures SecondPass(p, init, GroupStep(p, r, e), p', GroupStep(p', r', e), final)
    ensures AddedNothing(r'.counts, GroupStep(p', r', e).counts) && GroupStep(p', r', e).available == r'.available
  {
    hide GroupInv, PhaseOf, UniqueNames, Extends, GroupStep, GroupAction;
    GroupStepFidelity(p, p.(opts := p.opts.(dryRun := true)), init, r, e);
    SameVerdict(p, r, p', r', e);
    if GroupVerdict(p, r, e).None? {
      if Writes(GroupAction(p, e)) {
        WrittenExists(p, init, r, e);
        ExistingIsSkipped(p', final, e) by {
          assert e.id in final by { ExtendsHas(GroupStep(p, r, e).coll, final, e.id); }
        }
      } else {
        StillRefused(p, init, p', final, e);
      }
    }
    RefusedAgain(p, r, p', r', e);
  }

  lemma ExtendsHas<K(!new), V>(a: map<K, V>, b: map<K, V>, k: K)
    requires Extends(a, b) && k in a
    ensures k in b
  {
  }

  lemma ExistingIsSkipped(p: GroupPhase, final: map<string, GroupDoc>, e: GroupEntry)
    requires PhaseOf(p, final) && p.opts.mode == Merge && e.id in final
    ensures !Writes(GroupAction(p, e))
  {
  }

  lemma SameVerdict(p: GroupPhase, r: GroupRun, p': GroupPhase, r': GroupRun, e: GroupEntry)
    requires r'.seenIds == r.seenIds && r'.seenNames == r.seenNames && p'.refs == p.refs
    ensures GroupVerdict(p', r', e) == GroupVerdict(p, r, e)
  {
  }

  lemma RefusedAgain(p: GroupPhase, r: GroupRun, p': GroupPhase, r': GroupRun, e: GroupEntry)
    requires r'.seenIds == r.seenIds && r'.seenNames == r.seenNames && p'.refs == p.refs
    requires GroupVerdict(p', r', e).Some? || !Writes(GroupAction(p', e))
    ensures var s, s' := GroupStep(p, r, e), GroupStep(p', r', e);
            && s'.seenIds == s.seenIds && s'.seenNames == s.seenNames
            && s'.coll == r'.coll && s'.available == r'.available && AddedNothing(r'.counts, s'.counts)
  {
    hide Verdict, MissingRefs, WriteGroup;
  }

  lemma WrittenExists(p: GroupPhase, init: map<string, GroupDoc>, r: GroupRun, e: GroupEntry)
    requires GroupInv(p, init, r) && RefsAgree(p) && !p.opts.dryRun && GroupVerdict(p, r, e).None?
             && Writes(GroupAction(p, e))
    ensures e.id in GroupStep(p, r, e).coll
  {
    GroupWriteSucceeds(p, init, r, e);
  }

  lemma StillRefused(p: GroupPhase, init: map<string, GroupDoc>, p': GroupPhase, final: map<string, GroupDoc>,
                     e: GroupEntry)
    requires p.opts.mode == Merge && p'.opts.mode == Merge && !Writes(GroupAction(p, e))
    requires PhaseOf(p, init) && PhaseOf(p', final) && UniqueNames(final) && Extends(init, final)
    ensures !Writes(GroupAction(p', e))
  {
  }

  lemma {:induction false} GroupsAgain(p: GroupPhase, init: map<string, GroupDoc>, r: GroupRun, p': GroupPhase,
                                       r': GroupRun, final: map<string, GroupDoc>,
                                       es: seq<GroupEntry>)
    requires SecondPass(p, init, r, p', r', final) && final == RunGroups(p, r, es).coll
    ensures var out := RunGroups(p', r', es);
            out.coll == final && out.available == r'.available && AddedNothing(r'.counts, out.counts)
    decreases |es|
  {
    if es != [] {
      hide SecondPass, GroupStep;
      MergeGroupsExtend(p, GroupStep(p, r, es[0]), es[1..]) by {
        MergeModes(p, init, r, p', r', final);
      }
      GroupAgain(p, init, r, p', r', final, es[0]);
      GroupsAgain(p, init, GroupStep(p, r, es[0]), p', GroupStep(p', r', es[0]), final, es[1..]);
    } else {
      MergeModes(p, init, r, p', r', final);
    }
  }

  lemma MergeModes(p: GroupPhase, init: map<string, GroupDoc>, r: GroupRun, p': GroupPhase, r': GroupRun,
                   final: map<string, GroupDoc>)
    requires SecondPass(p, init, r, p', r', final)
    ensures p.opts.mode == Merge && r'.coll == final
  {
  }

  predicate BothMerge(p: ServerPhase, p': ServerPhase) {
    p.opts.mode == Merge && !p.opts.dryRun && p'.opts.mode == Merge && p'.groups == p.groups
  }

  lemma MonitorAgain(p: ServerPhase, db: Db, id: string, existing: set<string>, r: MonitorRun,
                     p': ServerPhase, existing': set<string>, r': MonitorRun, e: MonitorEntry)
    requires BothMerge(p, p') && MonitorInv(p, db, id, existing, r) && r'.seen == r.seen
    requires forall x | (id, x) in MonitorStep(p, id, existing, r, e).db.monitors :: x in existing'
    ensures var s, s' := MonitorStep(p, id, existing, r, e), MonitorStep(p', id, existing', r', e);
            s'.seen == s.seen && s'.db == r'.db && AddedNothing(r'.counts, s'.counts)
  {
    hide WellFormed, WriteMonitor, Verdict, ValidKind, MissingRefs;
    if MonitorVerdict(p, r.seen, e).None? {
      MonitorPresent(p, db, id, existing, r, e);
    }
  }

  /** After its step an accepted monitor is stored. */
  lemma MonitorPresent(p: ServerPhase, db: Db, id: string, existing: set<string>, r: MonitorRun, e: MonitorEntry)
    requires p.opts.mode == Merge && !p.opts.dryRun && MonitorInv(p, db, id, existing, r)
             && MonitorVerdict(p, r.seen, e).None?
    ensures (id, e.id) in MonitorStep(p, id, existing, r, e).db.monitors
  {
    if e.id !in existing {
      MonitorWriteSucceeds(p, db, id, existing, r, e);
      hide WellFormed, Defaults, RefsValid;
    }
  }

  lemma {:induction false} MonitorsAgain(p: ServerPhase, db: Db, id: string, existing: set<string>, r: MonitorRun,
                                         p': ServerPhase, existing': set<string>, r': MonitorRun, es: seq<MonitorEntry>)
    requires BothMerge(p, p') && MonitorInv(p, db, id, existing, r) && r'.seen == r.seen
    requires forall x | (id, x) in RunMonitors(p, id, existing, r, es).db.monitors :: x in existing'
    ensures var out := RunMonitors(p', id, existing', r', es); out.db == r'.db && AddedNothing(r'.counts, out.counts)
    decreases |es|
  {
    if es != [] {
      hide MonitorInv, MonitorStep;
      var s := MonitorStep(p, id, existing, r, es[0]);
      MergeMonitorsExtend(p, id, existing, s, es[1..]);
      MonitorAgain(p, db, id, existing, r, p', existing', r', es[0]);
      MonitorStepFidelity(p, p.(opts := p.opts.(dryRun := true)), db, db, id, existing, r, es[0]);
      MonitorsAgain(p, db, id, existing, s, p', existing', MonitorStep(p', id, existing', r', es[0]), es[1..]);
    }
  }

  lemma ImportMonitorsAgain(p: ServerPhase, init: Db, r: ServerRun, r1: ServerRun, p': ServerPhase, r': ServerRun,
                            e: ServerEntry)
    requires BothMerge(p, p') && ServerInv(p, init, r) && e.id !in r.seen && WellFormed(r1.db)
    requires r1.db == r.db.(servers := r1.db.servers) && e.id in r1.db.servers && e.id in p'.byId
    requires Extends(ImportMonitors(p, r1, e).db.monitors, r'.db.monitors)
    ensures var out := ImportMonitors(p', r', e);
            && out.db == r'.db && out.seen == r'.seen && out.servers == r'.servers
                  && AddedNothing(r'.monitors, out.monitors)
  {
    hide WellFormed, RunMonitors;
    SameExisting(p, init, init, r, r1.db, e.id);
    var existing, existing' := Existing(p, r1.db, e.id), Existing(p', r'.db, e.id);
    var m := MonitorRun(r1.db, {}, r1.monitors, r1.errors);
    forall x | (e.id, x) in RunMonitors(p, e.id, existing, m, e.monitors).db.monitors
      ensures x in existing'
    {
      assert (e.id, x).1 in MonitorIds(r'.db, e.id);
    }
    MonitorsAgain(p, r1.db, e.id, existing, m, p', existing', MonitorRun(r'.db, {}, r'.monitors, r'.errors),
        e.monitors);
  }

  ghost predicate SecondServers(p: ServerPhase, init: Db, r: ServerRun, p': ServerPhase, r': ServerRun) {
    BothMerge(p, p') && ServerInv(p, init, r) && p'.byId == r'.db.servers.Keys && r'.seen == r.seen
  }

  lemma ServerAgain(p: ServerPhase, init: Db, r: ServerRun, p': ServerPhase, r': ServerRun, e: ServerEntry)
    requires SecondServers(p, init, r, p', r')
    requires var s := ServerStep(p, r, e);
             Extends(s.db.servers, r'.db.servers) && Extends(s.db.monitors, r'.db.monitors)
    ensures var s' := ServerStep(p', r', e);
            && SecondServers(p, init, ServerStep(p, r, e), p', s') && s'.db == r'.db
            && AddedNothing(r'.servers, s'.servers) && AddedNothing(r'.monitors, s'.monitors)
  {
    hide WellFormed, WriteServer, ImportMonitors, FailMonitors, Verdict, ServerInv;
    ServerStepFidelity(p, p.(opts := p.opts.(dryRun := true)), init, init, r, e) by {
      InvOfSecond(p, init, r, p', r');
    }
    var v := Verdict(r.seen, {}, e.id, e.name);
    var r1 := r.(seen := r.seen + {e.id});
    if v.Some? {
      RejectedAccounting(r'.(servers := OneFailed(r'.servers), errors := r'.errors
          + [Issue(OfServer, e.id, e.name, v.value)]), e.monitors);
      RejectedAccounting(r.(servers := OneFailed(r.servers), errors := r.errors
          + [Issue(OfServer, e.id, e.name, v.value)]), e.monitors);
    } else {
      FreshId(r.seen, e);
      var first := if e.id in p.byId then r1.(servers := OneSkipped(r1.servers))
                   else r1.(db := r1.db.(servers := WriteServer(p, r1.db.servers, e, Create).GetOr(r1.db.servers)),
                       servers := Done(r1.servers, Create));
      ServerPresent(p, init, r, first, e);
      ImportMonitorsFrame(p, first, e);
      var r2 := r'.(seen := r'.seen + {e.id}, servers := OneSkipped(r'.servers));
      ImportMonitorsAgain(p, init, r, first, p', r2, e);
      SeenKept(p, first, e);
    }
  }

  lemma InvOfSecond(p: ServerPhase, init: Db, r: ServerRun, p': ServerPhase, r': ServerRun)
    requires SecondServers(p, init, r, p', r')
    ensures ServerInv(p, init, r) && SameHosts(init, init)
  {
  }

  lemma SeenKept(p: ServerPhase, r: ServerRun, e: ServerEntry)
    ensures ImportMonitors(p, r, e).seen == r.seen
  {
  }

  /** After its step an accepted server is stored; `first` is the run just before its monitors. */
  lemma ServerPresent(p: ServerPhase, init: Db, r: ServerRun, first: ServerRun, e: ServerEntry)
    requires ServerInv(p, init, r) && p.opts.mode == Merge && !p.opts.dryRun && Verdict(r.seen, {}, e.id, e.name).None?
    requires var r1 := r.(seen := r.seen + {e.id});
             first == if e.id in p.byId then r1.(servers := OneSkipped(r1.servers))
                      else r1.(db := r1.db.(servers := WriteServer(p, r1.db.servers, e, Create).GetOr(r1.db.servers)),
                          servers := Done(r1.servers, Create))
    ensures e.id in first.db.servers && WellFormed(first.db) && ServerStep(p, r, e) == ImportMonitors(p, first, e)
  {
    hide ImportMonitors, Verdict;
    if e.id !in p.byId {
      ServerWriteSucceeds(p, init, r, e);
      ServerWriteKeeps(p, r.db, e, Create, WriteServer(p, r.db.servers, e, Create).value);
    }
    hide WellFormed;
  }

  lemma {:induction false} ServersAgain(p: ServerPhase, init: Db, r: ServerRun, p': ServerPhase, r': ServerRun,
                                        es: seq<ServerEntry>)
    requires SecondServers(p, init, r, p', r')
    requires var out := RunServers(p, r, es);
             Extends(out.db.servers, r'.db.servers) && Extends(out.db.monitors, r'.db.monitors)
    ensures var out := RunServers(p', r', es);
            out.db == r'.db && AddedNothing(r'.servers, out.servers) && AddedNothing(r'.monitors, out.monitors)
    decreases |es|
  {
    if es != [] {
      hide ServerStep, ServerInv;
      MergeServersExtend(p, ServerStep(p, r, es[0]), es[1..]);
      ServerAgain(p, init, r, p', r', es[0]);
      ServersAgain(p, init, ServerStep(p, r, es[0]), p', ServerStep(p', r', es[0]), es[1..]);
    }
  }

  lemma ListedKeys(listing: seq<GroupDoc>, coll: map<string, GroupDoc>)
    requires Lists(listing, coll) && GroupsKeyed(coll)
    ensures ListedIds(listing) == coll.Keys
  {
  }

  lemma SecondPassStarts(p: GroupPhase, coll: map<string, GroupDoc>, listing: seq<GroupDoc>, es: seq<GroupEntry>,
                         p': GroupPhase, listing': seq<GroupDoc>)
    requires GroupsKeyed(coll) && UniqueNames(coll) && RefsExist(coll, p.notifyIds)
    requires Lists(listing, coll) && p.byId == ListedIds(listing) && p.owners == Owners(listing)
    requires p.opts.mode == Merge && !p.opts.dryRun && p'.opts.mode == Merge && RefsAgree(p) && p'.refs == p.refs
    requires var final := RunGroups(p, StartGroups(coll, listing), es).coll;
             && GroupsKeyed(final) && UniqueNames(final) && Lists(listing', final)
             && p'.byId == ListedIds(listing') && p'.owners == Owners(listing')
    ensures var final := RunGroups(p, StartGroups(coll, listing), es).coll;
            && SecondPass(p, coll, StartGroups(coll, listing), p', StartGroups(final, listing'), final)
            && ListedIds(listing') == final.Keys
  {
    var r := StartGroups(coll, listing);
    var final := RunGroups(p, r, es).coll;
    StartInv(p, coll, listing);
    ListingGivesPhase(p', final, listing');
    ListedKeys(listing', final);
    MergeGroupsExtend(p, r, es);
    hide GroupsKeyed, UniqueNames, RefsExist, Lists, Owners, ListedIds, Extends, GroupInv, PhaseOf, RunGroups;
  }

  lemma NotifyAgain(db: Db, f: File, o: Opts, listing: seq<GroupDoc>, o': Opts, listing': seq<GroupDoc>)
    requires WellFormed(db) && Lists(listing, db.notify) && Typed(f) && o.mode == Merge && !o.dryRun && o'.mode == Merge
    requires Lists(listing', NotifyRun(db.notify, f, o, listing).coll)
    ensures var r := NotifyRun(db.notify, f, o, listing);
            var r' := NotifyRun(r.coll, f, o', listing');
            r'.coll == r.coll && r'.available == r.available && AddedNothing(NONE, r'.counts)
  {
    NotifyFidelity(db, f, o, listing);
    assert RefsExist(db.notify, {});
    hide RunGroups, UniqueNames, RefsExist, GroupsKeyed, Lists, Owners, OfKind, NoWriteError, SecondPass;
    var r := NotifyRun(db.notify, f, o, listing);
    var p, p' := NotifyPhase(o, listing), NotifyPhase(o', listing');
    SecondPassStarts(p, db.notify, listing, f.notifyGroups, p', listing');
    GroupsAgain(p, db.notify, StartGroups(db.notify, listing), p', StartGroups(r.coll, listing'), r.coll,
        f.notifyGroups);
  }

  lemma GroupsRunAgain(db: Db, f: File, o: Opts, listing: seq<GroupDoc>, n: GroupRun, o': Opts,
                       listing': seq<GroupDoc>, n': GroupRun)
    requires WellFormed(db) && Lists(listing, db.groups) && Typed(f) && o.mode == Merge && !o.dryRun && o'.mode == Merge
    requires n.available == n.coll.Keys == n'.available && db.notify.Keys <= n.coll.Keys && GroupsKeyed(n.coll)
    requires Lists(listing', GroupsRun(db.groups, f, o, listing, n).coll)
    ensures var r := GroupsRun(db.groups, f, o, listing, n);
            var r' := GroupsRun(r.coll, f, o', listing', n');
            r'.coll == r.coll && r'.available == r.available && AddedNothing(NONE, r'.counts)
  {
    GroupsFidelity(db, f, o, listing, n, n);
    assert RefsExist(db.groups, n.coll.Keys) && "" !in n.coll.Keys;
    hide RunGroups, UniqueNames, RefsExist, GroupsKeyed, Lists, Owners, OfKind, NoWriteError, SecondPass;
    var r := GroupsRun(db.groups, f, o, listing, n);
    var p, p' := MonitorGroupPhase(o, listing, n), MonitorGroupPhase(o', listing', n');
    SecondPassStarts(p, db.groups, listing, f.monitorGroups, p', listing');
    GroupsAgain(p, db.groups, StartGroups(db.groups, listing), p', StartGroups(r.coll, listing'), r.coll,
        f.monitorGroups);
  }

  lemma ServersRunAgain(db: Db, f: File, o: Opts, g: GroupRun, o': Opts, g': GroupRun)
    requires WellFormed(db) && o.mode == Merge && !o.dryRun && o'.mode == Merge
    requires g.available == g'.available == db.groups.Keys
    ensures var v := ServersRun(db, f, o, g);
            var v' := ServersRun(v.db, f, o', g');
            v'.db == v.db && AddedNothing(NONE, v'.servers) && AddedNothing(NONE, v'.monitors)
  {
    hide RunServers, WellFormed;
    var v := ServersRun(db, f, o, g);
    var p, p' := ServerPhase(o, db.servers.Keys, g.available), ServerPhase(o', v.db.servers.Keys, g'.available);
    ServersAgain(p, db, ServerRun(db, {}, NONE, NONE, []), p', ServerRun(v.db, {}, NONE, NONE, []), f.servers);
  }

  /** Merging the same file a second time creates and updates nothing and leaves the store equal. */
  lemma MergeTwice(db: Db, f: File, o: Opts, notifyList: seq<GroupDoc>, groupList: seq<GroupDoc>,
                   o': Opts, notifyList': seq<GroupDoc>, groupList': seq<GroupDoc>)
    requires WellFormed(db) && Lists(notifyList, db.notify) && Lists(groupList, db.groups) && Typed(f)
    requires o.mode == Merge && !o.dryRun && o'.mode == Merge
    requires var db1 := Import(db, f, o, notifyList, groupList).db;
             Lists(notifyList', db1.notify) && Lists(groupList', db1.groups)
    ensures var db1 := Import(db, f, o, notifyList, groupList).db;
            var again := Import(db1, f, o', notifyList', groupList');
            var r := again.report;
            && again.db == db1
            && r.settings.created + r.notifyGroups.created + r.monitorGroups.created + r.servers.created
                  + r.monitors.created == 0
            && r.settings.updated + r.notifyGroups.updated + r.monitorGroups.updated + r.servers.updated
                  + r.monitors.updated == 0
  {
    hide WellFormed, Lists, Typed, NotifyRun, GroupsRun, ServersRun, Import, GroupsKeyed, UniqueNames, OfKind,
         RefsExist, NoWriteError;
    var db1 := Import(db, f, o, notifyList, groupList).db;
    var s, n, g, v := ImportParts(db, f, o, notifyList, groupList);
    var s', n', g', v' := ImportParts(db1, f, o', notifyList', groupList');
    NotifyFidelity(db, f, o, notifyList);
    GroupsFidelity(db, f, o, groupList, n, n);
    GroupsReplaced(db, db.settings, n.coll, g.coll);
    ServersRunAccounting(db.(notify := n.coll, groups := g.coll), f, o, g);
    assert db1.notify == n.coll && db1.groups == g.coll;
    NotifyAgain(db, f, o, notifyList, o', notifyList');
    GroupsRunAgain(db, f, o, groupList, n, o', groupList', n');
    ServersRunAgain(db.(notify := n.coll, groups := g.coll), f, o, g, o', g');
  }
}
