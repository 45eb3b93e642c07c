/**
 * Stores that the code itself has built, by any writes and imports: their monitors have their defaults, so
 * the round trips hold for them without further conditions.
 */
module ConfigBuilt {
  import opened Options
  import opened ConfigModel
  import opened ConfigStore
  import opened ConfigImport
  import opened ImportMerge
  import opened ConfigRoundTrip
  import opened ConfigReimport

  /** What a probe finds; it never leaves the status empty. */
  datatype Probed = Healthy | Warning | Critical | Down

  function StatusText(p: Probed): string {
    match p
    case Healthy => "Healthy"
    case Warning => "Warning"
    case Critical => "Critical"
    case Down => "Down"
  }

  datatype Write =
    | PutSettings(settings: SettingsEntry, now: Time)
    | AddNotify(doc: GroupDoc, now: Time)
    | ReplaceNotify(id: string, doc: GroupDoc, now: Time)
    | AddGroup(doc: GroupDoc, now: Time)
    | ReplaceGroup(id: string, doc: GroupDoc, now: Time)
    | AddServer(server: Server, now: Time)
    | ReplaceServer(id: string, server: Server, now: Time)
    | AddMonitor(serverId: string, monitor: Monitor, now: Time)
    | ReplaceMonitor(serverId: string, id: string, monitor: Monitor, now: Time)
    | SaveResult(k: (string, string), probed: Probed, certificate: Option<CertificateInfo>, endedAt: Time, now: Time)
    | BackfillWarningDays
    | DropMonitor(k: (string, string))
    | DropServer(id: string)
    | DropMonitorGroup(id: string)
    | DropNotifyGroup(id: string)
    | ImportFile(file: File, opts: Opts, notifyList: seq<GroupDoc>, groupList: seq<GroupDoc>)

  /** Spellings of a status that mean the same. */
  function NormalStatus(s: string): string {
    if s in ["Healthy", "healthy", "HEALTHY", "HEALTH_STATUS_HEALTHY"] then "Healthy"
    else if s in ["Warning", "warning", "WARNING", "HEALTH_STATUS_WARNING"] then "Warning"
    else if s in ["Critical", "critical", "CRITICAL", "HEALTH_STATUS_CRITICAL"] then "Critical"
    else if s in ["Down", "down", "DOWN", "HEALTH_STATUS_DOWN"] then "Down"
    else STATUS_UNKNOWN
  }

  /** A probe result goes into its monitor; the certificate stays if the probe saw none. */
  function WithResult(m: Monitor, probed: Probed, certificate: Option<CertificateInfo>, endedAt: Time,
                      now: Time): Monitor {
    m.(status := StatusText(probed), lastCheckAt := endedAt, updatedAt := now,
       certificate := if certificate.Some? then certificate else m.certificate,
       lastStatusChangeAt := if NormalStatus(m.status) == StatusText(probed) then m.lastStatusChangeAt else now)
  }

  /** The backfill at start-up: TLS monitors without a threshold get the default one. */
  function Backfilled(m: Monitor): Monitor {
    if IsTls(m.kind) && m.warningDays == 0 then m.(warningDays := 21) else m
  }

  function Without(ids: seq<string>, id: string): seq<string> {
    if ids == [] then []
    else (if ids[0] == id then [] else [ids[0]]) + Without(ids[1..], id)
  }

  function PullFromGroup(d: GroupDoc, id: string): GroupDoc {
    match d
    case NotifyGroup(_, _, _, _, _, _) => d
    case MonitorGroup(_, _, _, _, policy, _, _) =>
      d.(policy := policy.(notifyGroupIds := Without(policy.notifyGroupIds, id)))
  }

  /** A write that is refused changes nothing. */
  function Apply(db: Db, w: Write): Db {
    match w
    case PutSettings(e, now) => UpdateSettings(db, e, now)
    case AddNotify(d, now) => db.(notify := CreateGroup(db.notify, {}, d, now).GetOr(db.notify))
    case ReplaceNotify(id, d, now) => db.(notify := UpdateGroup(db.notify, {}, id, d, now).GetOr(db.notify))
    case AddGroup(d, now) => db.(groups := CreateGroup(db.groups, db.notify.Keys, d, now).GetOr(db.groups))
    case ReplaceGroup(id, d, now) => db.(groups := UpdateGroup(db.groups, db.notify.Keys, id, d, now).GetOr(db.groups))
    case AddServer(s, now) => db.(servers := CreateServer(db.servers, s, now).GetOr(db.servers))
    case ReplaceServer(id, s, now) => db.(servers := UpdateServer(db.servers, id, s, now).GetOr(db.servers))
    case AddMonitor(serverId, m, now) => CreateMonitor(db, serverId, m, now).GetOr(db)
    case ReplaceMonitor(serverId, id, m, now) => UpdateMonitor(db, serverId, id, m, now).GetOr(db)
    case SaveResult(k, probed, certificate, endedAt, now) =>
      if k !in db.monitors then db
      else db.(monitors := db.monitors[k := WithResult(db.monitors[k], probed, certificate, endedAt, now)])
    case BackfillWarningDays => db.(monitors := map k | k in db.monitors :: Backfilled(db.monitors[k]))
    case DropMonitor(k) => db.(monitors := db.monitors - {k})
    case DropServer(id) =>
      if id !in db.servers then db
      else db.(servers := db.servers - {id}, monitors := map k | k in db.monitors && k.0 != id :: db.monitors[k])
    case DropMonitorGroup(id) =>
      if id !in db.groups then db
      else db.(groups := db.groups - {id},
               monitors := map k | k in db.monitors ::
                 db.monitors[k].(groupIds := Without(db.monitors[k].groupIds, id)))
    case DropNotifyGroup(id) =>
      if id !in db.notify then db
      else db.(notify := db.notify - {id}, groups := map g | g in db.groups :: PullFromGroup(db.groups[g], id))
    case ImportFile(f, o, notifyList, groupList) => Import(db, f, o, notifyList, groupList).db
  }

  function Build(db: Db, ws: seq<Write>): Db
    decreases |ws|
  {
    if ws == [] then db else Build(Apply(db, ws[0]), ws[1..])
  }

  lemma TimesDoNotMatter(m: Monitor, createdAt: Time, updatedAt: Time, changedAt: Time)
    requires Defaults(m) == m
    ensures var m' := m.(createdAt := createdAt, updatedAt := updatedAt, lastStatusChangeAt := changedAt);
            Defaults(m') == m'
  {
  }

  lemma MonitorWritesKeep(db: Db, serverId: string, id: string, m: Monitor, now: Time)
    requires AtDefaults(db)
    ensures AtDefaults(CreateMonitor(db, serverId, m, now).GetOr(db))
    ensures AtDefaults(UpdateMonitor(db, serverId, id, m, now).GetOr(db))
  {
    hide Defaults;
    DefaultsIdempotent(m.(serverId := serverId));
    TimesDoNotMatter(Defaults(m.(serverId := serverId)), now, now, now);
    if (serverId, id) in db.monitors {
      var was := db.monitors[(serverId, id)];
      DefaultsIdempotent(m.(id := id, serverId := serverId, createdAt := was.createdAt,
                            status := Or(m.status, "", was.status), lastCheckAt := was.lastCheckAt,
                            lastStatusChangeAt := was.lastStatusChangeAt, certificate := was.certificate,
                            updatedAt := now));
    }
  }

  lemma MonitorStepKeeps(p: ServerPhase, serverId: string, existing: set<string>, r: MonitorRun, e: MonitorEntry)
    requires AtDefaults(r.db)
    ensures AtDefaults(MonitorStep(p, serverId, existing, r, e).db)
  {
    MonitorWritesKeep(r.db, serverId, e.id, MonitorToStore(e, serverId), p.opts.now);
    hide AtDefaults, CreateMonitor, UpdateMonitor, MonitorVerdict, Verdict;
  }

  lemma {:induction false} MonitorsKeep(p: ServerPhase, serverId: string, existing: set<string>, r: MonitorRun,
                                        es: seq<MonitorEntry>)
    requires AtDefaults(r.db)
    ensures AtDefaults(RunMonitors(p, serverId, existing, r, es).db)
    decreases |es|
  {
    hide AtDefaults, MonitorStep;
    if es != [] {
      MonitorStepKeeps(p, serverId, existing, r, es[0]);
      MonitorsKeep(p, serverId, existing, MonitorStep(p, serverId, existing, r, es[0]), es[1..]);
    }
  }

  lemma ImportMonitorsKeeps(p: ServerPhase, r: ServerRun, e: ServerEntry)
    requires AtDefaults(r.db)
    ensures AtDefaults(ImportMonitors(p, r, e).db)
  {
    hide AtDefaults;
    MonitorsKeep(p, e.id, Existing(p, r.db, e.id), MonitorRun(r.db, {}, r.monitors, r.errors), e.monitors);
  }

  lemma ServersDoNotMatter(db: Db, servers: map<string, Server>)
    requires AtDefaults(db)
    ensures AtDefaults(db.(servers := servers))
  {
  }

  lemma ServerStepKeeps(p: ServerPhase, r: ServerRun, e: ServerEntry)
    requires AtDefaults(r.db)
    ensures AtDefaults(ServerStep(p, r, e).db)
  {
    hide AtDefaults, Verdict, ImportMonitors, ServerRejected, WriteServer;
    var v := Verdict(r.seen, {}, e.id, e.name);
    var r1 := r.(seen := r.seen + {e.id});
    var act := Decide(p.opts.mode, e.id in p.byId, false);
    var w := WriteServer(p, r1.db.servers, e, act);
    if v.Some? {
      ServerRejectedFrame(r, e, v.value);
    } else if act == Skip {
      ImportMonitorsKeeps(p, r1.(servers := OneSkipped(r1.servers)), e);
    } else if !p.opts.dryRun && w.Err? {
      ServerRejectedFrame(r1, e, WriteFailed(w.error));
    } else {
      var db := if p.opts.dryRun then r1.db else r1.db.(servers := w.value);
      ServersDoNotMatter(r1.db, db.servers);
      ImportMonitorsKeeps(p, r1.(db := db, servers := Done(r1.servers, act)), e);
    }
  }

  lemma {:induction false} ServersKeep(p: ServerPhase, r: ServerRun, es: seq<ServerEntry>)
    requires AtDefaults(r.db)
    ensures AtDefaults(RunServers(p, r, es).db)
    decreases |es|
  {
    hide AtDefaults, ServerStep;
    if es != [] {
      ServerStepKeeps(p, r, es[0]);
      ServersKeep(p, ServerStep(p, r, es[0]), es[1..]);
    }
  }

  /** An import of any file, in any mode, stores monitors at their defaults only. */
  lemma ImportKeepsDefaults(db: Db, f: File, o: Opts, notifyList: seq<GroupDoc>, groupList: seq<GroupDoc>)
    requires AtDefaults(db)
    ensures AtDefaults(Import(db, f, o, notifyList, groupList).db)
  {
    hide Import;
    var s, n, g, v := ImportParts(db, f, o, notifyList, groupList);
    var start := db.(settings := s.0.settings, notify := n.coll, groups := g.coll);
    ServersKeep(ServerPhase(o, start.servers.Keys, g.available), ServerRun(start, {}, NONE, NONE, []), f.servers);
  }

  lemma WriteKeepsDefaults(db: Db, w: Write)
    requires AtDefaults(db)
    ensures AtDefaults(Apply(db, w))
  {
    hide AtDefaults, CreateMonitor, UpdateMonitor, Import;
    match w
    case AddMonitor(serverId, m, now) => MonitorWritesKeep(db, serverId, "", m, now);
    case ReplaceMonitor(serverId, id, m, now) => MonitorWritesKeep(db, serverId, id, m, now);
    case ImportFile(f, o, notifyList, groupList) => ImportKeepsDefaults(db, f, o, notifyList, groupList);
    case _ => OtherWriteKeeps(db, w);
  }

  lemma OtherWriteKeeps(db: Db, w: Write)
    requires AtDefaults(db) && !w.AddMonitor? && !w.ReplaceMonitor? && !w.ImportFile?
    ensures AtDefaults(Apply(db, w))
  {
    hide CreateMonitor, UpdateMonitor, Import, Defaults, WithResult, Backfilled, Without;
    forall k | k in Apply(db, w).monitors
      ensures Defaults(Apply(db, w).monitors[k]) == Apply(db, w).monitors[k]
    {
      assert k in db.monitors && Defaults(db.monitors[k]) == db.monitors[k];
      if w.SaveResult? && k == w.k {
        ResultKeeps(db.monitors[k], w.probed, w.certificate, w.endedAt, w.now);
      } else if w.BackfillWarningDays? {
        NothingToBackfill(db.monitors[k]);
      } else if w.DropMonitorGroup? {
        GroupsDoNotMatter(db.monitors[k], Without(db.monitors[k].groupIds, w.id));
      }
    }
  }

  lemma ResultKeeps(m: Monitor, probed: Probed, certificate: Option<CertificateInfo>, endedAt: Time, now: Time)
    requires Defaults(m) == m
    ensures var m' := WithResult(m, probed, certificate, endedAt, now); Defaults(m') == m'
  {
    hide NormalStatus;
  }

  lemma NothingToBackfill(m: Monitor)
    requires Defaults(m) == m
    ensures Backfilled(m) == m
  {
    DefaultsOnlyFill(m);
  }

  lemma GroupsDoNotMatter(m: Monitor, groupIds: seq<string>)
    requires Defaults(m) == m
    ensures Defaults(m.(groupIds := groupIds)) == m.(groupIds := groupIds)
  {
  }

  /**
   * Every store built from nothing, by creates, replaces, deletes, probe results, the start-up backfill and
   * imports, has its monitors at their defaults.
   */
  lemma {:induction false} BuiltAtDefaults(db: Db, ws: seq<Write>)
    requires AtDefaults(db)
    ensures AtDefaults(Build(db, ws))
    decreases |ws|
  {
    hide AtDefaults, Apply;
    if ws != [] {
      WriteKeepsDefaults(db, ws[0]);
      BuiltAtDefaults(Apply(db, ws[0]), ws[1..]);
    }
  }

  lemma ConfigFollows(db: Db)
    requires AtDefaults(db)
    ensures ConfigAtDefaults(db)
  {
    forall k | k in db.monitors
      ensures ConfigDefaults(MonitorFromStore(db.monitors[k])) == MonitorFromStore(db.monitors[k])
    {
      DefaultsIdempotent(db.monitors[k]);
    }
  }

  /**
   * So for a store that the code built, an upsert of its own export changes nothing but update times, and an
   * import into an empty store builds one that exports the same configuration.
   */
  lemma BuiltRoundTrips(ws: seq<Write>, l: Listing, now: Time, notifyList: seq<GroupDoc>, groupList: seq<GroupDoc>,
                        mode: Mode, l': Listing)
    requires var db := Build(EMPTY, ws);
             && Importable(db) && ListingOf(l, db) && Lists(notifyList, db.notify) && Lists(groupList, db.groups)
             && ListingOf(l', Import(EMPTY, Export(db, l), Opts(mode, false, now), [], []).db)
    ensures var db := Build(EMPTY, ws);
            var f := Export(db, l);
            var anew := Import(EMPTY, f, Opts(mode, false, now), [], []);
            && OnlyTimesDiffer(db, Import(db, f, Opts(Upsert, false, now), notifyList, groupList).db)
            && anew.report.errors == [] && FileConfig(Export(anew.db, l')) == FileConfig(f)
  {
    hide Build, Importable, ListingOf, Lists, Import, Export, FileConfig, OnlyTimesDiffer, AtDefaults, ConfigAtDefaults;
    var db := Build(EMPTY, ws);
    assert AtDefaults(EMPTY) by {
      EmptyAtDefaults();
    }
    BuiltAtDefaults(EMPTY, ws);
    ConfigFollows(db);
    UpsertOwnExport(db, l, now, notifyList, groupList);
    EmptyStoreRoundTrip(db, l, mode, now, l');
  }

  lemma EmptyAtDefaults()
    ensures AtDefaults(EMPTY)
  {
  }

  // ---------- A store that the code did not build ----------

  /** A monitor as an older version may have left it, without a retry count. */
  const OldMonitor := Monitor(
    "m", "s", [], "m", "tcp", true, "h", 1, "", "", "", map[], "", false, "", 0, 0, 60, 5, 0,
    STATUS_UNKNOWN, ZERO, ZERO, None, ZERO, ZERO)

  const OldServer := Server("s", "s", "h", "", "", [], 0, true, None, STATUS_UNKNOWN, ZERO, ZERO, ZERO, ZERO)
  const OldStore := Db(None, map[], map[], map["s" := OldServer], map[("s", "m") := OldMonitor])
  const OldListing := Listing([], [], [OldServer], map["s" := [OldMonitor]])

  lemma OldStoreImportable()
    ensures Importable(OldStore)
  {
    hide IsSpace, UniqueNames;
    assert !Blank("s") by {
      NotSpaces();
    }
    assert !Blank("m") by {
      NotSpaces();
    }
    assert UniqueNames(OldStore.notify) && UniqueNames(OldStore.groups) by {
      NothingNamed();
    }
  }

  lemma NothingNamed()
    ensures UniqueNames(map[])
  {
  }

  lemma NotSpaces()
    ensures !IsSpace("s"[0]) && !IsSpace("m"[0])
  {
  }

  lemma OldStoreListed()
    ensures ListingOf(OldListing, OldStore) && Lists([], OldStore.notify) && Lists([], OldStore.groups)
  {
    assert OldListing.servers[0] == OldServer && OldListing.monitors["s"][0] == OldMonitor;
  }

  lemma OldMonitorChanges()
    ensures Defaults(OldMonitor).retries == 3 && !AtDefaults(OldStore)
  {
    assert Defaults(OldMonitor).retries == 3;
    assert ("s", "m") in OldStore.monitors;
  }

  /** There the round trip does change something: the export of the old store, upserted into it, adds the retries. */
  lemma OldStoreChanges(now: Time)
    ensures var db' := Import(OldStore, Export(OldStore, OldListing), Opts(Upsert, false, now), [], []).db;
            && !OnlyTimesDiffer(OldStore, db')
            && ("s", "m") in db'.monitors && db'.monitors[("s", "m")].retries == 3
  {
    hide Importable, ListingOf, Lists, Import, OnlyTimesDiffer, AtDefaults, Defaults;
    OldStoreImportable();
    OldStoreListed();
    OldMonitorChanges();
    UpsertOwnExport(OldStore, OldListing, now, [], []);
  }
}
