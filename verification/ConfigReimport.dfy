/** The round trips of an export through an import, over the whole store. */
module ConfigReimport {
  import opened Options
  import opened ConfigModel
  import opened ConfigStore
  import opened ConfigImport
  import opened ImportFidelity
  import opened ImportMerge
  import opened ConfigRoundTrip

  const EMPTY := Db(None, map[], map[], map[], map[])

  function Target(full: bool, db: Db): Db {
    if full then db else EMPTY
  }

  lemma EmptyWellFormed(full: bool, db: Db)
    requires WellFormed(db)
    ensures WellFormed(Target(full, db))
  {
  }

  lemma ExportTyped(db: Db, l: Listing)
    requires WellFormed(db) && ListingOf(l, db)
    ensures Typed(Export(db, l))
  {
  }

  lemma RedoneNothing(full: bool, src: map<string, GroupDoc>, now: Time)
    ensures RedoneGroups(full, src, {}, now) == Base(full, src)
    ensures RedoneGroups(full, src, src.Keys, now).Keys == src.Keys
  {
  }

  lemma GroupsStart(p: GroupPhase, full: bool, src: map<string, GroupDoc>, listing: seq<GroupDoc>,
                    current: seq<GroupDoc>)
    requires GroupsKeyed(src) && UniqueNames(src) && RefsExist(src, p.notifyIds)
    requires Lists(current, Base(full, src)) && p.byId == ListedIds(current) && p.owners == Owners(current)
    ensures GroupsRedone(p, full, src, listing, 0, StartGroups(Base(full, src), current)) && PhaseOf(p, Base(full, src))
  {
    StartInv(p, Base(full, src), current);
    ListingGivesPhase(p, Base(full, src), current);
    RedoneNothing(full, src, p.opts.now);
    assert listing[..0] == [];
    hide Lists, GroupsKeyed, UniqueNames, RefsExist, Owners, PhaseOf, GroupInv, RedoneGroups;
  }

  lemma GroupsEnd(p: GroupPhase, full: bool, src: map<string, GroupDoc>, listing: seq<GroupDoc>, r: GroupRun)
    requires Lists(listing, src) && GroupsKeyed(src) && GroupsRedone(p, full, src, listing, |listing|, r)
    ensures r.coll == RedoneGroups(full, src, src.Keys, p.opts.now) && r.available == src.Keys
  {
    ListedKeys(listing, src);
    RedoneNothing(full, src, p.opts.now);
    assert listing[..|listing|] == listing;
    hide Lists, GroupsKeyed, UniqueNames, RefsExist, Owners, PhaseOf, RedoneGroups;
  }

  /** A group phase over the whole export of its collection. */
  lemma GroupPhaseRedo(p: GroupPhase, full: bool, src: map<string, GroupDoc>, listing: seq<GroupDoc>,
                       current: seq<GroupDoc>)
    requires Lists(listing, src) && GroupsKeyed(src) && UniqueNames(src) && RefsExist(src, p.notifyIds)
    requires forall i | i in src :: Named(i, src[i].name)
    requires !p.opts.dryRun && (full ==> p.opts.mode == Upsert) && RefsAgree(p)
    requires Lists(current, Base(full, src)) && p.byId == ListedIds(current) && p.owners == Owners(current)
    ensures var r := RunGroups(p, StartGroups(Base(full, src), current), GroupEntries(listing));
            && r.coll == RedoneGroups(full, src, src.Keys, p.opts.now) && r.available == src.Keys && r.errors == []
  {
    hide Lists, GroupsKeyed, UniqueNames, RefsExist, Owners, ListedIds, PhaseOf, RunGroups, Named, RedoneGroups,
         GroupsRedone, GroupEntries;
    var r := StartGroups(Base(full, src), current);
    GroupsStart(p, full, src, listing, current);
    GroupsRedo(p, full, src, listing, 0, r);
    assert GroupEntries(listing)[0..] == GroupEntries(listing);
    GroupsEnd(p, full, src, listing, RunGroups(p, r, GroupEntries(listing)));
  }

  lemma ServersStart(p: ServerPhase, full: bool, src: Db, init: Db, l: Listing)
    requires ServerSource(p, full, src, init, l) && p.byId == init.servers.Keys && p.groups == init.groups.Keys
    ensures ServersRedone(p, full, src, init, l, 0, ServerRun(init, {}, NONE, NONE, []))
  {
    hide RedoServer, RedoMonitor, Importable, ListsServers, ListsMonitors, WellFormed;
    assert l.servers[..0] == [] && ServerIdsOf([]) == {};
  }

  lemma ServersEnd(p: ServerPhase, full: bool, src: Db, init: Db, l: Listing, v: ServerRun)
    requires ServerSource(p, full, src, init, l) && ServersRedone(p, full, src, init, l, |l.servers|, v)
    ensures v.db.servers == RedoneServers(full, src.servers, src.servers.Keys, p.opts.now)
    ensures v.db.monitors == RedoneMonitors(full, src.monitors, src.monitors.Keys, p.opts.now)
  {
    AllServersListed(src, l.servers);
    hide RedoneServers, RedoneMonitors, Importable, ListsServers, ListsMonitors, WellFormed, ServerIdsOf, KeysOf;
    assert l.servers[..|l.servers|] == l.servers;
  }

  lemma ServerPhaseRedo(p: ServerPhase, full: bool, src: Db, init: Db, l: Listing)
    requires ServerSource(p, full, src, init, l) && p.byId == init.servers.Keys && p.groups == init.groups.Keys
    ensures var v := RunServers(p, ServerRun(init, {}, NONE, NONE, []), ServerEntries(l.servers, l.monitors));
            && v.db.servers == RedoneServers(full, src.servers, src.servers.Keys, p.opts.now)
            && v.db.monitors == RedoneMonitors(full, src.monitors, src.monitors.Keys, p.opts.now)
            && v.db == init.(servers := v.db.servers, monitors := v.db.monitors) && v.errors == []
  {
    hide RedoneServers, RedoneMonitors, ServerSource, ServersRedone, RunServers, ServerEntries;
    var r, es := ServerRun(init, {}, NONE, NONE, []), ServerEntries(l.servers, l.monitors);
    ServersStart(p, full, src, init, l);
    ServersRedo(p, full, src, init, l, 0, r);
    ServersFrame(p, r, es);
    assert es[0..] == es;
    ServersEnd(p, full, src, init, l, RunServers(p, r, es));
  }

  lemma AllServersListed(src: Db, listing: seq<Server>)
    requires ListsServers(listing, src.servers) && WellFormed(src)
    ensures ServerIdsOf(listing) == src.servers.Keys
    ensures KeysOf(src.monitors, ServerIdsOf(listing)) == src.monitors.Keys
  {
  }

  lemma NotifyReimport(full: bool, db: Db, l: Listing, o: Opts, current: seq<GroupDoc>)
    requires Importable(db) && ListingOf(l, db) && !o.dryRun && (full ==> o.mode == Upsert)
    requires Lists(current, Target(full, db).notify)
    ensures var r := NotifyRun(Target(full, db).notify, Export(db, l), o, current);
            && r.coll == RedoneGroups(full, db.notify, db.notify.Keys, o.now) && r.available == db.notify.Keys
                  && r.errors == []
  {
    assert RefsExist(db.notify, {});
    hide ListsServers, ListsMonitors, UniqueNames, Lists, Owners, ListedIds, Blank, RunGroups, RedoneGroups,
         GetSettings, RefsExist;
    GroupPhaseRedo(NotifyPhase(o, current), full, db.notify, l.notify, current);
  }

  lemma GroupsReimport(full: bool, db: Db, l: Listing, o: Opts, current: seq<GroupDoc>, n: GroupRun)
    requires Importable(db) && ListingOf(l, db) && !o.dryRun && (full ==> o.mode == Upsert)
    requires Lists(current, Target(full, db).groups) && n.available == n.coll.Keys == db.notify.Keys
    ensures var r := GroupsRun(Target(full, db).groups, Export(db, l), o, current, n);
            && r.coll == RedoneGroups(full, db.groups, db.groups.Keys, o.now) && r.available == db.groups.Keys
                  && r.errors == []
  {
    hide ListsServers, ListsMonitors, UniqueNames, Lists, Owners, ListedIds, Blank, RunGroups, RedoneGroups,
         GetSettings, RefsValid;
    GroupPhaseRedo(MonitorGroupPhase(o, current, n), full, db.groups, l.groups, current);
  }

  /** After the group phases of a re-import, the store is ready for the servers. */
  lemma ReadyForServers(full: bool, db: Db, l: Listing, o: Opts, notifyList: seq<GroupDoc>, groupList: seq<GroupDoc>,
                        settings: Option<Settings>)
    requires Importable(db) && ListingOf(l, db) && !o.dryRun && (full ==> o.mode == Upsert)
    requires Lists(notifyList, Target(full, db).notify) && Lists(groupList, Target(full, db).groups)
    ensures var target, f := Target(full, db), Export(db, l);
            var n := NotifyRun(target.notify, f, o, notifyList);
            var g := GroupsRun(target.groups, f, o, groupList, n);
            var init := target.(settings := settings, notify := n.coll, groups := g.coll);
            && n.available == n.coll.Keys && g.available == g.coll.Keys && WellFormed(init)
  {
    var target, f := Target(full, db), Export(db, l);
    EmptyWellFormed(full, db);
    ExportTyped(db, l);
    hide Importable, WellFormed, ListingOf, Lists, Typed, NotifyRun, GroupsRun, GroupsKeyed, UniqueNames, RefsExist,
         OfKind, NoWriteError, Export;
    NotifyFidelity(target, f, o, notifyList);
    var n := NotifyRun(target.notify, f, o, notifyList);
    GroupsFidelity(target, f, o, groupList, n, n);
    GroupsReplaced(target, settings, n.coll, GroupsRun(target.groups, f, o, groupList, n).coll);
  }

  lemma ServersReimport(full: bool, db: Db, l: Listing, o: Opts, init: Db, g: GroupRun)
    requires Importable(db) && ListingOf(l, db) && !o.dryRun && (full ==> o.mode == Upsert)
    requires WellFormed(init) && init.servers == Target(full, db).servers && init.monitors == Target(full, db).monitors
    requires g.available == init.groups.Keys == db.groups.Keys
    ensures var v := ServersRun(init, Export(db, l), o, g);
            && v.db.servers == RedoneServers(full, db.servers, db.servers.Keys, o.now)
            && v.db.monitors == RedoneMonitors(full, db.monitors, db.monitors.Keys, o.now)
            && v.db == init.(servers := v.db.servers, monitors := v.db.monitors) && v.errors == []
  {
    hide Importable, WellFormed, Lists, ListsServers, ListsMonitors, RunServers, RedoneServers, RedoneMonitors,
         ServerEntries, GetSettings;
    ServerPhaseRedo(ServerPhase(o, init.servers.Keys, g.available), full, db, init, l);
  }

  /**
   * Importing a store's export, into the same store or into an empty one, writes back every document and
   * fails on none.
   */
  lemma Reimport(full: bool, db: Db, l: Listing, o: Opts, notifyList: seq<GroupDoc>, groupList: seq<GroupDoc>)
    requires Importable(db) && ListingOf(l, db) && !o.dryRun && (full ==> o.mode == Upsert)
    requires Lists(notifyList, Target(full, db).notify) && Lists(groupList, Target(full, db).groups)
    ensures var out := Import(Target(full, db), Export(db, l), o, notifyList, groupList);
            && out.report.errors == []
            && out.db.notify == RedoneGroups(full, db.notify, db.notify.Keys, o.now)
            && out.db.groups == RedoneGroups(full, db.groups, db.groups.Keys, o.now)
            && out.db.servers == RedoneServers(full, db.servers, db.servers.Keys, o.now)
            && out.db.monitors == RedoneMonitors(full, db.monitors, db.monitors.Keys, o.now)
            && (o.mode == Upsert ==> out.db.settings == UpdateSettings(db, GetSettings(db), o.now).settings)
  {
    hide Importable, WellFormed, ListingOf, Lists, NotifyRun, GroupsRun, ServersRun, Import, RedoneGroups,
         RedoneServers, RedoneMonitors, GetSettings;
    var target, f := Target(full, db), Export(db, l);
    var s, n, g, v := ImportParts(target, f, o, notifyList, groupList);
    NotifyReimport(full, db, l, o, notifyList);
    ReadyForServers(full, db, l, o, notifyList, groupList, s.0.settings);
    RedoneNothing(full, db.notify, o.now);
    GroupsReimport(full, db, l, o, groupList, n);
    RedoneNothing(full, db.groups, o.now);
    ServersReimport(full, db, l, o, target.(settings := s.0.settings, notify := n.coll, groups := g.coll), g);
  }

  // ---------- Upserting a store's own export ----------

  predicate AtDefaults(db: Db) {
    forall k | k in db.monitors :: Defaults(db.monitors[k]) == db.monitors[k]
  }

  /** Nothing but update times differs; the settings read the same. */
  ghost predicate OnlyTimesDiffer(db: Db, db': Db) {
    && GetSettings(db') == GetSettings(db)
    && db'.notify.Keys == db.notify.Keys
    && (forall i | i in db.notify :: db'.notify[i] == db.notify[i].(updatedAt := db'.notify[i].updatedAt))
    && db'.groups.Keys == db.groups.Keys
    && (forall i | i in db.groups :: db'.groups[i] == db.groups[i].(updatedAt := db'.groups[i].updatedAt))
    && db'.servers.Keys == db.servers.Keys
    && (forall i | i in db.servers :: db'.servers[i] == db.servers[i].(updatedAt := db'.servers[i].updatedAt))
    && db'.monitors.Keys == db.monitors.Keys
    && (forall k | k in db.monitors :: db'.monitors[k] == db.monitors[k].(updatedAt := db'.monitors[k].updatedAt))
  }

  lemma SettingsReadTheSame(db: Db, now: Time)
    ensures GetSettings(UpdateSettings(db, GetSettings(db), now)) == GetSettings(db)
  {
  }

  /**
   * Upserting a store's own export reports no error and keeps every document, runtime fields included;
   * nothing but update times changes if and only if every monitor already has its defaults.
   */
  lemma UpsertOwnExport(db: Db, l: Listing, now: Time, notifyList: seq<GroupDoc>, groupList: seq<GroupDoc>)
    requires Importable(db) && ListingOf(l, db) && Lists(notifyList, db.notify) && Lists(groupList, db.groups)
    ensures var out := Import(db, Export(db, l), Opts(Upsert, false, now), notifyList, groupList);
            && out.report.errors == []
            && (OnlyTimesDiffer(db, out.db) <==> AtDefaults(db))
            && out.db.monitors.Keys == db.monitors.Keys
            && forall k | k in db.monitors :: out.db.monitors[k] == Defaults(db.monitors[k]).(updatedAt := now)
  {
    hide Importable, ListingOf, Lists, Import, GetSettings, UpdateSettings, Defaults;
    var o := Opts(Upsert, false, now);
    Reimport(true, db, l, o, notifyList, groupList);
    SettingsReadTheSame(db, now);
    var db' := Import(db, Export(db, l), o, notifyList, groupList).db;
    assert GetSettings(db') == GetSettings(UpdateSettings(db, GetSettings(db), now)) by {
      SettingsOnly(db', UpdateSettings(db, GetSettings(db), now));
    }
    if OnlyTimesDiffer(db, db') {
      forall k | k in db.monitors
        ensures Defaults(db.monitors[k]) == db.monitors[k]
      {
        DefaultsKeepTimes(db.monitors[k]);
      }
    }
  }

  lemma SettingsOnly(a: Db, b: Db)
    requires a.settings == b.settings
    ensures GetSettings(a) == GetSettings(b)
  {
  }

  lemma DefaultsKeepTimes(m: Monitor)
    ensures Defaults(m).updatedAt == m.updatedAt && Defaults(m).createdAt == m.createdAt
  {
  }

  // ---------- Importing into an empty store ----------

  /** The configuration of a file as sets, whatever the order of its lists. */
  datatype Config = Config(
    notify: set<GroupEntry>, groups: set<GroupEntry>, servers: set<ServerEntry>, monitors: set<(string, MonitorEntry)>)

  function FileConfig(f: File): Config {
    Config(set i | 0 <= i < |f.notifyGroups| :: f.notifyGroups[i],
           set i | 0 <= i < |f.monitorGroups| :: f.monitorGroups[i],
           set i | 0 <= i < |f.servers| :: f.servers[i].(monitors := []),
           set i, j | 0 <= i < |f.servers|
               && 0 <= j < |f.servers[i].monitors| :: (f.servers[i].id, f.servers[i].monitors[j]))
  }

  function GroupSet(coll: map<string, GroupDoc>): set<GroupEntry> {
    set i | i in coll :: GroupFromStore(coll[i])
  }

  function ServerSet(servers: map<string, Server>): set<ServerEntry> {
    set i | i in servers :: ServerFromStore(servers[i], [])
  }

  function MonitorSet(monitors: map<(string, string), Monitor>): set<(string, MonitorEntry)> {
    set k | k in monitors :: (k.0, MonitorFromStore(monitors[k]))
  }

  function DefaultedSet(monitors: map<(string, string), Monitor>): set<(string, MonitorEntry)> {
    set k | k in monitors :: (k.0, ConfigDefaults(MonitorFromStore(monitors[k])))
  }

  function StoreConfig(db: Db): Config {
    Config(GroupSet(db.notify), GroupSet(db.groups), ServerSet(db.servers), MonitorSet(db.monitors))
  }

  lemma GroupsExported(coll: map<string, GroupDoc>, listing: seq<GroupDoc>)
    requires Lists(listing, coll)
    ensures (set i | 0 <= i < |GroupEntries(listing)| :: GroupEntries(listing)[i]) == GroupSet(coll)
  {
    forall id | id in coll
      ensures exists i :: 0 <= i < |GroupEntries(listing)| && GroupEntries(listing)[i] == GroupFromStore(coll[id])
    {
      var i :| 0 <= i < |listing| && listing[i] == coll[id];
      assert GroupEntries(listing)[i] == GroupFromStore(coll[id]);
    }
  }

  lemma ServersExported(db: Db, l: Listing)
    requires ListingOf(l, db) && WellFormed(db)
    ensures FileConfig(Export(db, l)).servers == StoreConfig(db).servers
  {
    var es := Export(db, l).servers;
    forall id | id in db.servers
      ensures exists i :: 0 <= i < |es| && es[i].(monitors := []) == ServerFromStore(db.servers[id], [])
    {
      var i :| 0 <= i < |l.servers| && l.servers[i] == db.servers[id];
      assert es[i] == ServerEntryOf(l.servers[i], l.monitors);
    }
  }

  lemma MonitorsExported(db: Db, l: Listing)
    requires ListingOf(l, db) && WellFormed(db)
    ensures FileConfig(Export(db, l)).monitors == StoreConfig(db).monitors
  {
    var es := Export(db, l).servers;
    hide GroupsKeyed, UniqueNames, RefsExist, MonitorFromStore;
    forall k | k in db.monitors
      ensures (k.0, MonitorFromStore(db.monitors[k])) in FileConfig(Export(db, l)).monitors
    {
      assert MonitorOk(db, k);
      var i :| 0 <= i < |l.servers| && l.servers[i] == db.servers[k.0];
      assert l.servers[i].id == k.0 && (k.0, k.1) == k;
      var j :| 0 <= j < |l.monitors[k.0]| && l.monitors[k.0][j] == db.monitors[(k.0, k.1)];
      assert es[i] == ServerEntryOf(l.servers[i], l.monitors) && es[i].monitors[j] == MonitorFromStore(db.monitors[k]);
    }
    forall i, j | 0 <= i < |es| && 0 <= j < |es[i].monitors|
      ensures (es[i].id, es[i].monitors[j]) in StoreConfig(db).monitors
    {
      assert es[i] == ServerEntryOf(l.servers[i], l.monitors);
      var m := l.monitors[l.servers[i].id][j];
      assert (l.servers[i].id, m.id) in db.monitors;
    }
  }

  /** An export holds exactly the store's configuration, in whatever order the listings come. */
  lemma ExportIsStoreConfig(db: Db, l: Listing)
    requires ListingOf(l, db) && WellFormed(db)
    ensures FileConfig(Export(db, l)) == StoreConfig(db)
  {
    GroupsExported(db.notify, l.notify);
    GroupsExported(db.groups, l.groups);
    ServersExported(db, l);
    MonitorsExported(db, l);
    hide WellFormed, ListingOf, GroupEntries, ServerEntries;
  }

  lemma FreshMonitorConfig(m: Monitor, now: Time)
    ensures MonitorFromStore(RedoMonitor(false, m, now)) == ConfigDefaults(MonitorFromStore(m))
  {
  }

  lemma FreshGroups(coll: map<string, GroupDoc>, now: Time)
    ensures GroupSet(RedoneGroups(false, coll, coll.Keys, now)) == GroupSet(coll)
  {
    var coll' := RedoneGroups(false, coll, coll.Keys, now);
    assert coll'.Keys == coll.Keys && forall i | i in coll :: GroupFromStore(coll'[i]) == GroupFromStore(coll[i]);
  }

  lemma FreshServers(servers: map<string, Server>, now: Time)
    ensures ServerSet(RedoneServers(false, servers, servers.Keys, now)) == ServerSet(servers)
  {
    var servers' := RedoneServers(false, servers, servers.Keys, now);
    assert servers'.Keys == servers.Keys
        && forall i | i in servers :: ServerFromStore(servers'[i], []) == ServerFromStore(servers[i], []);
  }

  lemma FreshMonitors(monitors: map<(string, string), Monitor>, now: Time)
    ensures MonitorSet(RedoneMonitors(false, monitors, monitors.Keys, now)) == DefaultedSet(monitors)
  {
    hide RedoMonitor, ConfigDefaults, MonitorFromStore;
    var monitors' := RedoneMonitors(false, monitors, monitors.Keys, now);
    assert monitors'.Keys == monitors.Keys;
    forall k | k in monitors
      ensures MonitorFromStore(monitors'[k]) == ConfigDefaults(MonitorFromStore(monitors[k]))
    {
      FreshMonitorConfig(monitors[k], now);
    }
  }

  /** Every exported monitor is at the defaults the store applies on creation. */
  ghost predicate ConfigAtDefaults(db: Db) {
    forall k | k in db.monitors :: ConfigDefaults(MonitorFromStore(db.monitors[k])) == MonitorFromStore(db.monitors[k])
  }

  /** A set of entries is its own image under the defaulting only if each entry is at its defaults. */
  lemma SameMonitorsExactly(db: Db)
    ensures DefaultedSet(db.monitors) == MonitorSet(db.monitors) <==> ConfigAtDefaults(db)
  {
    hide ConfigDefaults, MonitorFromStore;
    if DefaultedSet(db.monitors) == MonitorSet(db.monitors) {
      forall k | k in db.monitors
        ensures ConfigDefaults(MonitorFromStore(db.monitors[k])) == MonitorFromStore(db.monitors[k])
      {
        assert (k.0, MonitorFromStore(db.monitors[k])) in DefaultedSet(db.monitors);
        var q :| q in db.monitors
            && (q.0, ConfigDefaults(MonitorFromStore(db.monitors[q]))) == (k.0, MonitorFromStore(db.monitors[k]));
        ConfigDefaultsIdempotent(MonitorFromStore(db.monitors[q]));
      }
    }
  }

  /**
   * Importing an export into an empty store reports no error, and what the new store exports is the
   * same configuration, as a set, if and only if every exported monitor is at its defaults.
   */
  lemma EmptyStoreRoundTrip(db: Db, l: Listing, mode: Mode, now: Time, l': Listing)
    requires Importable(db) && ListingOf(l, db)
    requires ListingOf(l', Import(EMPTY, Export(db, l), Opts(mode, false, now), [], []).db)
    ensures var out := Import(EMPTY, Export(db, l), Opts(mode, false, now), [], []);
            && out.report.errors == [] && WellFormed(out.db)
            && (FileConfig(Export(out.db, l')) == FileConfig(Export(db, l)) <==> ConfigAtDefaults(db))
            && (mode == Upsert ==> Export(out.db, l').settings == Export(db, l).settings)
  {
    hide Importable, WellFormed, ListingOf, Lists, Import, GetSettings, UpdateSettings, FileConfig, StoreConfig,
         ConfigAtDefaults;
    hide RedoneGroups, RedoneServers, RedoneMonitors, GroupEntries, ServerEntries, Typed, NoWriteError;
    var o := Opts(mode, false, now);
    NothingListed();
    WhatIsImportable(db);
    Reimport(false, db, l, o, [], []);
    ExportTyped(db, l);
    EmptyWellFormed(false, db);
    DryRunPredicts(EMPTY, Export(db, l), o, [], []);
    var db' := Import(EMPTY, Export(db, l), o, [], []).db;
    ExportIsStoreConfig(db, l);
    ExportIsStoreConfig(db', l');
    SameConfigExactly(db, db', now);
    if mode == Upsert {
      SettingsReadTheSame(db, now);
      SettingsOnly(db', UpdateSettings(db, GetSettings(db), now));
    }
  }

  lemma NothingListed()
    ensures Lists([], EMPTY.notify) && Lists([], EMPTY.groups)
  {
  }

  lemma WhatIsImportable(db: Db)
    requires Importable(db)
    ensures WellFormed(db)
  {
  }

  lemma SameConfigExactly(db: Db, db': Db, now: Time)
    requires db'.notify == RedoneGroups(false, db.notify, db.notify.Keys, now)
    requires db'.groups == RedoneGroups(false, db.groups, db.groups.Keys, now)
    requires db'.servers == RedoneServers(false, db.servers, db.servers.Keys, now)
    requires db'.monitors == RedoneMonitors(false, db.monitors, db.monitors.Keys, now)
    ensures StoreConfig(db') == StoreConfig(db) <==> ConfigAtDefaults(db)
  {
    hide RedoneGroups, RedoneServers, RedoneMonitors, GroupSet, ServerSet, MonitorSet, DefaultedSet, ConfigAtDefaults;
    FreshGroups(db.notify, now);
    FreshGroups(db.groups, now);
    FreshServers(db.servers, now);
    FreshMonitors(db.monitors, now);
    SameMonitorsExactly(db);
  }
}
