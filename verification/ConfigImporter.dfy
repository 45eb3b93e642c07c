/** The importer object: its loops compute the folds of ConfigImport, entry by entry, on the store object. */
module ConfigImporter {
  import opened Options
  import opened ConfigModel
  import opened ConfigStore
  import opened ConfigImport
  import opened ConfigMongoStore

  /** The ids and names a file has used up so far. */
  class SeenSet {
    var ids: set<string>
    var names: set<string>

    constructor ()
      ensures ids == {} && names == {}
    {
      ids, names := {}, {};
    }

    method Check(id: string, name: string, uniqueName: bool) returns (message: Option<Message>)
      modifies this
      ensures message == Verdict(old(ids), if uniqueName then old(names) else {}, id, name)
      ensures ids == if message.None? then old(ids) + {id} else old(ids)
      ensures names == if message.None? && uniqueName then old(names) + {name} else old(names)
    {
      if Blank(id) {
        return Some(IdRequired);
      }
      if Blank(name) {
        return Some(NameRequired);
      }
      if id in ids {
        return Some(DuplicateId);
      }
      if uniqueName && name in names {
        return Some(DuplicateName);
      }
      ids := ids + {id};
      if uniqueName {
        names := names + {name};
      }
      message := None;
    }
  }

  method FindMissingRef(ids: seq<string>, available: set<string>) returns (message: Option<Message>)
    ensures message == MissingRefs(ids, available)
  {
    for i := 0 to |ids|
      invariant MissingRefs(ids, available) == MissingRefs(ids[i..], available)
    {
      assert ids[i..][1..] == ids[i + 1..];
      if ids[i] !in available {
        return Some(MissingRef(ids[i]));
      }
    }
    message := None;
  }

  class Importer {
    const st: MongoStore
    const opts: Opts
    var errors: seq<Issue>

    constructor (st: MongoStore, opts: Opts)
      ensures this.st == st && this.opts == opts && errors == []
    {
      this.st, this.opts := st, opts;
      errors := [];
    }

    function Coll(resource: Resource): map<string, GroupDoc>
      reads st
    {
      if resource == OfNotifyGroup then st.notify else st.groups
    }

    method Report(resource: Resource, id: string, name: string, message: Message)
      modifies this
      ensures errors == old(errors) + [Issue(resource, id, name, message)]
    {
      errors := errors + [Issue(resource, id, name, message)];
    }

    method WriteOne(phase: GroupPhase, e: GroupEntry, act: Action) returns (r: Result<()>)
      requires phase.resource == (if e.NotifyEntry? then OfNotifyGroup else OfMonitorGroup) && phase.opts == opts
      requires phase.notifyIds == if e.NotifyEntry? then {} else st.notify.Keys
      modifies st`notify, st`groups
      ensures Wrote(r, old(Coll(phase.resource)), Coll(phase.resource),
              WriteGroup(phase, old(Coll(phase.resource)), e, act))
      ensures if e.NotifyEntry? then st.groups == old(st.groups) else st.notify == old(st.notify)
    {
      if e.NotifyEntry? {
        if act == Update {
          r := st.UpdateNotifyGroup(e.id, GroupToStore(e), opts.now);
        } else {
          r := st.CreateNotifyGroup(GroupToStore(e), opts.now);
        }
      } else {
        if act == Update {
          r := st.UpdateMonitorGroup(e.id, GroupToStore(e), opts.now);
        } else {
          r := st.CreateMonitorGroup(GroupToStore(e), opts.now);
        }
      }
    }

    /** One entry of a group phase; `r` is what the run has computed so far, after the errors in `before`. */
    method ImportGroup(phase: GroupPhase, e: GroupEntry, seen: SeenSet, available: set<string>, counts: Counts,
                       ghost r: GroupRun, ghost before: seq<Issue>)
      returns (available': set<string>, counts': Counts)
      requires phase.resource == (if e.NotifyEntry? then OfNotifyGroup else OfMonitorGroup) && phase.opts == opts
      requires phase.notifyIds == if e.NotifyEntry? then {} else st.notify.Keys
      requires r == GroupRun(Coll(phase.resource), seen.ids, seen.names, available, counts, r.errors)
               && errors == before + r.errors
      modifies this, st`notify, st`groups, seen
      ensures if e.NotifyEntry? then st.groups == old(st.groups) else st.notify == old(st.notify)
      ensures var r' := GroupStep(phase, r, e);
              && r' == GroupRun(Coll(phase.resource), seen.ids, seen.names, available', counts', r'.errors)
              && errors == before + r'.errors
    {
      hide WriteGroup, Verdict, MissingRefs;
      available', counts' := available, counts;
      var message := seen.Check(e.id, e.name, true);
      if message.None? {
        message := FindMissingRef(Refs(e), phase.refs);
      }
      if message.Some? {
        Report(phase.resource, e.id, e.name, message.value);
        counts' := OneFailed(counts);
        return;
      }
      var taken := e.name in phase.owners;
      var conflict := taken && phase.owners[e.name] != e.id;
      var act := Decide(opts.mode, e.id in phase.byId, conflict);
      if act == Skip {
        counts' := OneSkipped(counts);
      } else if act == SkipConflict {
        Report(phase.resource, e.id, e.name, NameUsedBy(phase.owners[e.name]));
        counts' := OneSkipped(counts);
      } else if act == Conflict {
        Report(phase.resource, e.id, e.name, NameUsedBy(phase.owners[e.name]));
        counts' := OneFailed(counts);
      } else {
        if !opts.dryRun {
          var w := WriteOne(phase, e, act);
          if w.Err? {
            Report(phase.resource, e.id, e.name, WriteFailed(w.error));
            counts' := OneFailed(counts);
            return;
          }
        }
        counts' := Done(counts, act);
        available' := available + {e.id};
      }
    }

    /** The group phase: the listing gives ids and name owners, then each entry takes its step. */
    method ImportGroups(resource: Resource, existing: seq<GroupDoc>, items: seq<GroupEntry>, refs: set<string>,
                        ghost phase: GroupPhase)
      returns (available: set<string>, counts: Counts, ghost run: GroupRun)
      requires resource == OfNotifyGroup || resource == OfMonitorGroup
      requires forall i | 0 <= i < |items| :: items[i].NotifyEntry? == (resource == OfNotifyGroup)
      requires phase == GroupPhase(opts, resource, ListedIds(existing), Owners(existing), refs,
                                   if resource == OfNotifyGroup then {} else st.notify.Keys)
      modifies this, st`notify, st`groups
      ensures run == RunGroups(phase, StartGroups(old(Coll(resource)), existing), items)
      ensures Coll(resource) == run.coll && available == run.available && counts == run.counts
              && errors == old(errors) + run.errors
      ensures if resource == OfNotifyGroup then st.groups == old(st.groups) else st.notify == old(st.notify)
    {
      hide GroupStep;
      var byId, nameOwner := {}, map[];
      for i := 0 to |existing|
        invariant byId == ListedIds(existing[..i]) && nameOwner == Owners(existing[..i])
        invariant errors == old(errors) && st.notify == old(st.notify) && st.groups == old(st.groups)
      {
        ListingGrows(existing, i);
        byId := byId + {existing[i].id};
        nameOwner := nameOwner[existing[i].name := existing[i].id];
      }
      assert existing[..|existing|] == existing;
      available, counts := byId, NONE;
      var seen := new SeenSet();
      var p := GroupPhase(opts, resource, byId, nameOwner, refs, if resource == OfNotifyGroup then {}
          else st.notify.Keys);
      ghost var start := StartGroups(old(Coll(resource)), existing);
      run := start;
      assert errors == old(errors) + [];
      for i := 0 to |items|
        invariant fresh(seen) && p == phase
        invariant run == RunGroups(phase, start, items[..i])
        invariant run == GroupRun(Coll(resource), seen.ids, seen.names, available, counts, run.errors)
                  && errors == old(errors) + run.errors
        invariant if resource == OfNotifyGroup then st.groups == old(st.groups) else st.notify == old(st.notify)
      {
        RunGroupsOneMore(phase, start, items, i);
        available, counts := ImportGroup(p, items[i], seen, available, counts, run, old(errors));
        run := GroupStep(phase, run, items[i]);
      }
      assert items[..|items|] == items;
    }

    method RejectServer(e: ServerEntry, message: Message, servers: Counts, monitors: Counts, ghost r: ServerRun,
                        ghost before: seq<Issue>)
      returns (servers': Counts, monitors': Counts)
      requires r.servers == servers && r.monitors == monitors && errors == before + r.errors
      modifies this
      ensures var r' := ServerRejected(r, e, message);
              servers' == r'.servers && monitors' == r'.monitors && errors == before + r'.errors
    {
      Report(OfServer, e.id, e.name, message);
      servers', monitors' := OneFailed(servers), monitors;
      ghost var q := r.(servers := servers', errors := r.errors + [Issue(OfServer, e.id, e.name, message)]);
      ghost var whole := FailMonitors(q, e.monitors);
      for i := 0 to |e.monitors|
        invariant q.servers == servers' && q.monitors == monitors' && errors == before + q.errors
        invariant whole == FailMonitors(q, e.monitors[i..])
      {
        var m := e.monitors[i];
        Report(OfMonitor, m.id, m.name, ParentNotImported);
        monitors' := OneFailed(monitors');
        q := q.(monitors := monitors', errors := q.errors + [Issue(OfMonitor, m.id, m.name, ParentNotImported)]);
        assert e.monitors[i..][1..] == e.monitors[i + 1..];
      }
    }

    /** One monitor of a server; `r` is what the run has computed so far. */
    method ImportMonitor(phase: ServerPhase, serverId: string, existing: set<string>, e: MonitorEntry, seen: SeenSet,
                         counts: Counts,
                         ghost r: MonitorRun, ghost before: seq<Issue>)
      returns (counts': Counts)
      requires phase.opts == opts && r == MonitorRun(st.Contents(), seen.ids, counts, r.errors)
               && errors == before + r.errors
      modifies this, st`monitors, seen
      ensures var r' := MonitorStep(phase, serverId, existing, r, e);
              r' == MonitorRun(st.Contents(), seen.ids, counts', r'.errors) && errors == before + r'.errors
    {
      hide CreateMonitor, UpdateMonitor, Verdict, MissingRefs, ValidKind;
      counts' := counts;
      var message := seen.Check(e.id, e.name, false);
      if message.None? && !ValidKind(e.kind) {
        message := Some(UnsupportedKind(e.kind));
      }
      if message.None? {
        message := FindMissingRef(e.groupIds, phase.groups);
      }
      if message.Some? {
        Report(OfMonitor, e.id, e.name, message.value);
        counts' := OneFailed(counts);
        return;
      }
      var act := Decide(opts.mode, e.id in existing, false);
      if act == Skip {
        counts' := OneSkipped(counts);
        return;
      }
      if !opts.dryRun {
        var w: Result<()>;
        if act == Update {
          w := st.ReplaceMonitor(serverId, e.id, MonitorToStore(e, serverId), opts.now);
        } else {
          w := st.AddMonitor(serverId, MonitorToStore(e, serverId), opts.now);
        }
        if w.Err? {
          Report(OfMonitor, e.id, e.name, WriteFailed(w.error));
          counts' := OneFailed(counts);
          return;
        }
      }
      counts' := Done(counts, act);
    }

    method ImportServerMonitors(phase: ServerPhase, e: ServerEntry, counts: Counts, ghost r: ServerRun,
                                ghost before: seq<Issue>)
      returns (counts': Counts)
      requires phase.opts == opts && r.db == st.Contents() && r.monitors == counts && errors == before + r.errors
      modifies this, st`monitors
      ensures var r' := ImportMonitors(phase, r, e);
              st.Contents() == r'.db && counts' == r'.monitors && errors == before + r'.errors
    {
      hide MonitorStep;
      counts' := counts;
      var existing := if e.id in phase.byId then MonitorIds(st.Contents(), e.id) else {};
      var seen := new SeenSet();
      ghost var run := MonitorRun(r.db, {}, r.monitors, r.errors);
      ghost var whole := RunMonitors(phase, e.id, existing, run, e.monitors);
      for i := 0 to |e.monitors|
        invariant fresh(seen)
        invariant run == MonitorRun(st.Contents(), seen.ids, counts', run.errors) && errors == before + run.errors
        invariant whole == RunMonitors(phase, e.id, existing, run, e.monitors[i..])
      {
        counts' := ImportMonitor(phase, e.id, existing, e.monitors[i], seen, counts', run, before);
        run := MonitorStep(phase, e.id, existing, run, e.monitors[i]);
        assert e.monitors[i..][1..] == e.monitors[i + 1..];
      }
    }

    /** One server with its monitors; `r` is what the run has computed so far. */
    method ImportServer(phase: ServerPhase, e: ServerEntry, seen: SeenSet, servers: Counts, monitors: Counts,
                        ghost r: ServerRun, ghost before: seq<Issue>)
      returns (servers': Counts, monitors': Counts)
      requires phase.opts == opts
      requires r == ServerRun(st.Contents(), seen.ids, servers, monitors, r.errors) && errors == before + r.errors
      modifies this, st`servers, st`monitors, seen
      ensures var r' := ServerStep(phase, r, e);
              r' == ServerRun(st.Contents(), seen.ids, servers', monitors', r'.errors) && errors == before + r'.errors
    {
      hide CreateServer, UpdateServer, Verdict, ServerRejected, ImportMonitors;
      servers', monitors' := servers, monitors;
      var message := seen.Check(e.id, e.name, false);
      RejectionKeeps(r, e);
      if message.Some? {
        servers', monitors' := RejectServer(e, message.value, servers, monitors, r, before);
        return;
      }
      ghost var r1 := r.(seen := r.seen + {e.id});
      RejectionKeeps(r1, e);
      var act := Decide(opts.mode, e.id in phase.byId, false);
      if act == Skip {
        servers' := OneSkipped(servers);
      } else {
        if !opts.dryRun {
          var w: Result<()>;
          if act == Update {
            w := st.ReplaceServer(e.id, ServerToStore(e), opts.now);
          } else {
            w := st.AddServer(ServerToStore(e), opts.now);
          }
          if w.Err? {
            servers', monitors' := RejectServer(e, WriteFailed(w.error), servers, monitors, r1, before);
            return;
          }
        }
        servers' := Done(servers, act);
      }
      ghost var r2 := r1.(db := st.Contents(), servers := servers');
      MonitorsKeep(phase, r2, e);
      monitors' := ImportServerMonitors(phase, e, monitors, r2, before);
    }

    method ImportSettings(s: Option<SettingsEntry>) returns (counts: Counts)
      modifies st`settings
      ensures forall f: File | f.settings == s :: SettingsDone(old(st.Contents()), f, opts) == (st.Contents(), counts)
    {
      counts := NONE;
      if s.None? {
        return;
      }
      if opts.mode == Merge {
        counts := OneSkipped(counts);
        return;
      }
      if !opts.dryRun {
        st.WriteSettings(s.value, opts.now);
      }
      counts := Done(counts, Update);
    }

    method ImportServers(es: seq<ServerEntry>, groups: set<string>, ghost g: GroupRun, ghost f: File)
      returns (servers: Counts, monitors: Counts)
      requires groups == g.available && f.servers == es
      modifies this, st`servers, st`monitors
      ensures var v := ServersRun(old(st.Contents()), f, opts, g);
              st.Contents() == v.db && servers == v.servers && monitors == v.monitors
                  && errors == old(errors) + v.errors
    {
      hide ServerStep;
      servers, monitors := NONE, NONE;
      var phase := ServerPhase(opts, st.servers.Keys, groups);
      var seen := new SeenSet();
      ghost var run := ServerRun(st.Contents(), {}, NONE, NONE, []);
      ghost var whole := RunServers(phase, run, es);
      assert errors == old(errors) + [];
      for i := 0 to |es|
        invariant fresh(seen) && phase.opts == opts
        invariant run == ServerRun(st.Contents(), seen.ids, servers, monitors, run.errors)
                  && errors == old(errors) + run.errors
        invariant whole == RunServers(phase, run, es[i..])
      {
        servers, monitors := ImportServer(phase, es[i], seen, servers, monitors, run, old(errors));
        run := ServerStep(phase, run, es[i]);
        assert es[i..][1..] == es[i + 1..];
      }
    }

    /**
     * The whole import: what it does to the store and reports is the fold of the file, for the listings
     * that it took of the two group collections.
     */
    method Run(f: File) returns (report: ConfigImport.Report, ghost notifyList: seq<GroupDoc>,
               ghost groupList: seq<GroupDoc>)
      requires Typed(f) && errors == []
      requires forall i | i in st.notify :: st.notify[i].id == i
      requires forall i | i in st.groups :: st.groups[i].id == i
      modifies this, st
      ensures Lists(notifyList, old(st.notify)) && Lists(groupList, old(st.groups))
      ensures Import(old(st.Contents()), f, opts, notifyList, groupList) == Outcome(st.Contents(), report)
    {
      hide RunGroups, RunServers, Lists;
      ghost var db := st.Contents();
      var settings := ImportSettings(f.settings);
      ghost var afterSettings := st.Contents();
      var existing := ListGroups(st.notify);
      notifyList := existing;
      var notify, notifyCounts, n :=
          ImportGroups(OfNotifyGroup, existing, f.notifyGroups, {}, NotifyPhase(opts, existing));
      existing := ListGroups(st.groups);
      groupList := existing;
      var groups, groupCounts, g :=
          ImportGroups(OfMonitorGroup, existing, f.monitorGroups, notify, MonitorGroupPhase(opts, existing, n));
      var servers, monitors := ImportServers(f.servers, groups, g, f);
      report := ConfigImport.Report.Report(settings, notifyCounts, groupCounts, servers, monitors, errors);
    }
  }

  lemma ListingGrows(listing: seq<GroupDoc>, i: nat)
    requires i < |listing|
    ensures ListedIds(listing[..i + 1]) == ListedIds(listing[..i]) + {listing[i].id}
    ensures Owners(listing[..i + 1]) == Owners(listing[..i])[listing[i].name := listing[i].id]
  {
    var longer, shorter := listing[..i + 1], listing[..i];
    assert longer[..|longer| - 1] == shorter;
    assert forall j | 0 <= j < i :: longer[j] == shorter[j];
    assert longer[i] == listing[i];
  }

  lemma {:induction false} RunGroupsAppend(p: GroupPhase, r: GroupRun, es: seq<GroupEntry>, e: GroupEntry)
    ensures RunGroups(p, r, es + [e]) == GroupStep(p, RunGroups(p, r, es), e)
    decreases |es|
  {
    hide GroupStep;
    if es == [] {
      assert [e][1..] == [];
    } else {
      assert (es + [e])[1..] == es[1..] + [e];
      RunGroupsAppend(p, GroupStep(p, r, es[0]), es[1..], e);
    }
  }

  lemma RunGroupsOneMore(p: GroupPhase, r: GroupRun, es: seq<GroupEntry>, i: nat)
    requires i < |es|
    ensures RunGroups(p, r, es[..i + 1]) == GroupStep(p, RunGroups(p, r, es[..i]), es[i])
  {
    assert es[..i + 1] == es[..i] + [es[i]];
    RunGroupsAppend(p, r, es[..i], es[i]);
  }

  lemma {:induction false} FailMonitorsKeeps(r: ServerRun, ms: seq<MonitorEntry>)
    ensures FailMonitors(r, ms) == r.(monitors := FailMonitors(r, ms).monitors, errors := FailMonitors(r, ms).errors)
    decreases |ms|
  {
    if ms != [] {
      FailMonitorsKeeps(r.(monitors := OneFailed(r.monitors),
                           errors := r.errors + [Issue(OfMonitor, ms[0].id, ms[0].name, ParentNotImported)]), ms[1..]);
    }
  }

  lemma RejectionKeeps(r: ServerRun, e: ServerEntry)
    ensures forall m :: ServerRejected(r, e, m).db == r.db && ServerRejected(r, e, m).seen == r.seen
  {
    forall m
      ensures ServerRejected(r, e, m).db == r.db && ServerRejected(r, e, m).seen == r.seen
    {
      FailMonitorsKeeps(r.(servers := OneFailed(r.servers), errors := r.errors + [Issue(OfServer, e.id, e.name, m)]),
          e.monitors);
    }
  }

  lemma MonitorsKeep(p: ServerPhase, r: ServerRun, e: ServerEntry)
    ensures ImportMonitors(p, r, e).seen == r.seen && ImportMonitors(p, r, e).servers == r.servers
  {
  }
}
