/**
 * Importing a store's own export: with upsert into the same store it changes nothing but update times;
 * into an empty store it builds one that exports the same configuration.
 */
module ConfigRoundTrip {
  import opened Options
  import opened ConfigModel
  import opened ConfigStore
  import opened ConfigImport
  import opened ImportFidelity
  import opened ImportMerge

  // ---------- Export ----------

  /** The listings an export reads, each collection in whatever order it comes. */
  datatype Listing = Listing(
    notify: seq<GroupDoc>, groups: seq<GroupDoc>, servers: seq<Server>, monitors: map<string, seq<Monitor>>)

  ghost predicate ListsServers(listing: seq<Server>, servers: map<string, Server>) {
    && (forall i | 0 <= i < |listing| :: listing[i].id in servers && servers[listing[i].id] == listing[i])
    && (forall i, j | 0 <= i < j < |listing| :: listing[i].id != listing[j].id)
    && (forall id | id in servers :: exists i :: 0 <= i < |listing| && listing[i] == servers[id])
  }

  ghost predicate ListsMonitors(listing: seq<Monitor>, monitors: map<(string, string), Monitor>, serverId: string) {
    && (forall i | 0 <= i < |listing| ::
          (serverId, listing[i].id) in monitors && monitors[(serverId, listing[i].id)] == listing[i])
    && (forall i, j | 0 <= i < j < |listing| :: listing[i].id != listing[j].id)
    && (forall id | (serverId, id) in monitors ::
          exists i :: 0 <= i < |listing| && listing[i] == monitors[(serverId, id)])
  }

  ghost predicate ListingOf(l: Listing, db: Db) {
    && Lists(l.notify, db.notify) && Lists(l.groups, db.groups) && ListsServers(l.servers, db.servers)
    && (forall id | id in db.servers :: id in l.monitors && ListsMonitors(l.monitors[id], db.monitors, id))
  }

  function GroupEntries(listing: seq<GroupDoc>): seq<GroupEntry> {
    seq(|listing|, i requires 0 <= i < |listing| => GroupFromStore(listing[i]))
  }

  function MonitorEntries(listing: seq<Monitor>): seq<MonitorEntry> {
    seq(|listing|, i requires 0 <= i < |listing| => MonitorFromStore(listing[i]))
  }

  function ServerEntryOf(s: Server, monitors: map<string, seq<Monitor>>): ServerEntry {
    ServerFromStore(s, if s.id in monitors then MonitorEntries(monitors[s.id]) else [])
  }

  function ServerEntries(listing: seq<Server>, monitors: map<string, seq<Monitor>>): seq<ServerEntry> {
    seq(|listing|, i requires 0 <= i < |listing| => ServerEntryOf(listing[i], monitors))
  }

  function Export(db: Db, l: Listing): File {
    File(Some(GetSettings(db)), GroupEntries(l.notify), GroupEntries(l.groups), ServerEntries(l.servers, l.monitors))
  }

  // ---------- What can be imported again ----------

  predicate Named(id: string, name: string) {
    !Blank(id) && !Blank(name)
  }

  /** Well-formed, with ids and names that are not blank and kinds the import knows. */
  ghost predicate Importable(db: Db) {
    && WellFormed(db)
    && (forall i | i in db.notify :: Named(i, db.notify[i].name))
    && (forall i | i in db.groups :: Named(i, db.groups[i].name))
    && (forall i | i in db.servers :: Named(i, db.servers[i].name))
    && (forall k | k in db.monitors :: Named(k.1, db.monitors[k].name) && ValidKind(db.monitors[k].kind))
  }

  // ---------- Groups ----------

  /** What writing a group's own export does to it: `full` if the store still has the group. */
  function RedoGroup(full: bool, d: GroupDoc, now: Time): GroupDoc {
    if full then d.(updatedAt := now) else d.(createdAt := now, updatedAt := now)
  }

  /** The collection after the ids in `done` have been written, starting from the source or from nothing. */
  function RedoneGroups(full: bool, src: map<string, GroupDoc>, done: set<string>, now: Time): map<string, GroupDoc> {
    map i | i in src && (full || i in done) :: if i in done then RedoGroup(full, src[i], now) else src[i]
  }

  lemma RedoneOneMore(full: bool, src: map<string, GroupDoc>, done: set<string>, id: string, now: Time)
    requires id in src
    ensures RedoneGroups(full, src, done + {id}, now)
            == RedoneGroups(full, src, done, now)[id := RedoGroup(full, src[id], now)]
  {
  }

  function NamesOf(listing: seq<GroupDoc>): set<string> {
    set i | 0 <= i < |listing| :: listing[i].name
  }

  function Base(full: bool, src: map<string, GroupDoc>): map<string, GroupDoc> {
    if full then src else map[]
  }

  /** The exported collection, and a phase that starts from it or from nothing. */
  ghost predicate GroupSource(p: GroupPhase, full: bool, src: map<string, GroupDoc>, listing: seq<GroupDoc>) {
    && Lists(listing, src) && GroupsKeyed(src) && UniqueNames(src) && RefsExist(src, p.notifyIds)
    && (forall i | i in src :: Named(i, src[i].name))
    && !p.opts.dryRun && (full ==> p.opts.mode == Upsert) && RefsAgree(p) && PhaseOf(p, Base(full, src))
  }

  /** The first k entries have been written back. */
  ghost predicate GroupsRedone(p: GroupPhase, full: bool, src: map<string, GroupDoc>, listing: seq<GroupDoc>, k: nat,
                               r: GroupRun) {
    && k <= |listing| && GroupInv(p, Base(full, src), r)
    && r.seenIds == ListedIds(listing[..k]) && r.seenNames == NamesOf(listing[..k])
    && r.coll == RedoneGroups(full, src, r.seenIds, p.opts.now)
  }

  lemma ListedOnce(src: map<string, GroupDoc>, listing: seq<GroupDoc>, k: nat)
    requires Lists(listing, src) && GroupsKeyed(src) && UniqueNames(src) && k < |listing|
    ensures listing[k].id in src && src[listing[k].id] == listing[k]
    ensures listing[k].id !in ListedIds(listing[..k]) && listing[k].name !in NamesOf(listing[..k])
  {
  }

  lemma OwnGroupRefs(p: GroupPhase, src: map<string, GroupDoc>, d: GroupDoc)
    requires RefsExist(src, p.notifyIds) && RefsAgree(p) && d.id in src && src[d.id] == d
    ensures MissingRefs(Refs(GroupFromStore(d)), p.refs).None?
  {
    NoneMissing(DocRefs(d), p.refs);
  }

  lemma OwnGroupAction(p: GroupPhase, full: bool, src: map<string, GroupDoc>, d: GroupDoc)
    requires PhaseOf(p, Base(full, src)) && UniqueNames(src) && (full ==> p.opts.mode == Upsert) && d.id in src
             && src[d.id] == d
    ensures GroupAction(p, GroupFromStore(d)) == if full then Update else Create
  {
  }

  /** Writing a stored group's own entry changes only its times. */
  lemma WriteBack(p: GroupPhase, full: bool, coll: map<string, GroupDoc>, d: GroupDoc)
    requires var act := if full then Update else Create;
             WriteGroup(p, coll, GroupFromStore(d), act).Ok? && (full ==> d.id in coll && coll[d.id] == d)
    ensures var act := if full then Update else Create;
            WriteGroup(p, coll, GroupFromStore(d), act) == Ok(coll[d.id := RedoGroup(full, d, p.opts.now)])
  {
  }

  lemma OwnGroupWritten(p: GroupPhase, full: bool, src: map<string, GroupDoc>, listing: seq<GroupDoc>, k: nat,
                        r: GroupRun)
    requires GroupSource(p, full, src, listing) && GroupsRedone(p, full, src, listing, k, r) && k < |listing|
    ensures var e := GroupFromStore(listing[k]);
            var r' := GroupStep(p, r, e);
            && r'.coll == r.coll[e.id := RedoGroup(full, listing[k], p.opts.now)]
            && r'.seenIds == r.seenIds + {e.id} && r'.seenNames == r.seenNames + {e.name} && r'.errors == r.errors
  {
    hide GroupInv, Lists, UniqueNames, GroupsKeyed, RefsExist, PhaseOf, Blank, MissingRefs, GroupAction, WriteGroup;
    var d := listing[k];
    var e := GroupFromStore(d);
    ListedOnce(src, listing, k);
    OwnGroupRefs(p, src, d);
    OwnGroupAction(p, full, src, d);
    assert Named(d.id, src[d.id].name);
    assert GroupVerdict(p, r, e).None?;
    GroupWriteSucceeds(p, Base(full, src), r, e);
    WriteBack(p, full, r.coll, d);
  }

  lemma OneGroupRedone(p: GroupPhase, full: bool, src: map<string, GroupDoc>, listing: seq<GroupDoc>, k: nat,
                       r: GroupRun)
    requires GroupSource(p, full, src, listing) && GroupsRedone(p, full, src, listing, k, r) && k < |listing|
    ensures var r' := GroupStep(p, r, GroupFromStore(listing[k]));
            GroupsRedone(p, full, src, listing, k + 1, r') && r'.errors == r.errors
  {
    var d := listing[k];
    ListedOnce(src, listing, k) by {
      assert GroupsKeyed(src);
    }
    IdsGrow(listing, k);
    hide GroupInv, Lists, UniqueNames, GroupsKeyed, RefsExist, PhaseOf, GroupStep, ListedIds, NamesOf, RedoneGroups;
    OwnGroupWritten(p, full, src, listing, k, r);
    GroupStepFidelity(p, p.(opts := p.opts.(dryRun := true)), Base(full, src), r, GroupFromStore(d));
    RedoneOneMore(full, src, r.seenIds, d.id, p.opts.now);
  }

  lemma IdsGrow(listing: seq<GroupDoc>, k: nat)
    requires k < |listing|
    ensures ListedIds(listing[..k + 1]) == ListedIds(listing[..k]) + {listing[k].id}
    ensures NamesOf(listing[..k + 1]) == NamesOf(listing[..k]) + {listing[k].name}
  {
  }

  lemma {:induction false} GroupsRedo(p: GroupPhase, full: bool, src: map<string, GroupDoc>, listing: seq<GroupDoc>,
                                      k: nat, r: GroupRun)
    requires GroupSource(p, full, src, listing) && GroupsRedone(p, full, src, listing, k, r)
    ensures var r' := RunGroups(p, r, GroupEntries(listing)[k..]);
            GroupsRedone(p, full, src, listing, |listing|, r') && r'.errors == r.errors
    decreases |listing| - k
  {
    hide GroupSource, GroupStep;
    var es := GroupEntries(listing)[k..];
    if k < |listing| {
      var e := GroupFromStore(listing[k]);
      assert es[0] == e && es[1..] == GroupEntries(listing)[k + 1..];
      OneGroupRedone(p, full, src, listing, k, r);
      GroupsRedo(p, full, src, listing, k + 1, GroupStep(p, r, e));
    } else {
      assert es == [];
    }
  }

  // ---------- Monitors ----------

  /** What writing a monitor's own export does to it: `full` if the store still has the monitor. */
  function RedoMonitor(full: bool, m: Monitor, now: Time): Monitor {
    if full then Defaults(m).(updatedAt := now)
    else
      Defaults(MonitorToStore(MonitorFromStore(m), m.serverId)).(createdAt := now, updatedAt := now,
          lastStatusChangeAt := now)
  }

  function RedoneMonitors(full: bool, src: map<(string, string), Monitor>, done: set<(string, string)>, now: Time)
    : map<(string, string), Monitor>
  {
    map k | k in src && (full || k in done) :: if k in done then RedoMonitor(full, src[k], now) else src[k]
  }

  lemma MonitorRedoneOneMore(full: bool, src: map<(string, string), Monitor>, done: set<(string, string)>,
                             k: (string, string), now: Time)
    requires k in src
    ensures RedoneMonitors(full, src, done + {k}, now)
            == RedoneMonitors(full, src, done, now)[k := RedoMonitor(full, src[k], now)]
  {
  }

  function MonitorIdsOf(listing: seq<Monitor>): set<string> {
    set i | 0 <= i < |listing| :: listing[i].id
  }

  function KeysUnder(serverId: string, ids: set<string>): set<(string, string)> {
    set id | id in ids :: (serverId, id)
  }

  /** The exported monitors of one server, and a phase that can take them in again. */
  ghost predicate MonitorSource(p: ServerPhase, full: bool, src: map<(string, string), Monitor>, serverId: string,
                                listing: seq<Monitor>, existing: set<string>) {
    && ListsMonitors(listing, src, serverId)
    && (forall id | (serverId, id) in src ::
          var m := src[(serverId, id)];
          m.id == id && m.serverId == serverId && Named(id, m.name) && ValidKind(m.kind)
              && RefsValid(m.groupIds, p.groups))
    && !p.opts.dryRun && (full ==> p.opts.mode == Upsert)
    && (forall id :: id in existing <==> full && (serverId, id) in src)
  }

  /** The first k monitors of the server have been written back, after the keys in `before`. */
  ghost predicate MonitorsRedone(p: ServerPhase, full: bool, db: Db, src: map<(string, string), Monitor>,
                                 serverId: string,
                                 listing: seq<Monitor>, existing: set<string>, before: set<(string, string)>, k: nat,
                                     r: MonitorRun) {
    && k <= |listing| && MonitorInv(p, db, serverId, existing, r) && (forall x | x in before :: x.0 != serverId)
    && r.seen == MonitorIdsOf(listing[..k])
    && r.db.monitors == RedoneMonitors(full, src, before + KeysUnder(serverId, r.seen), p.opts.now)
  }

  lemma MonitorListedOnce(src: map<(string, string), Monitor>, serverId: string, listing: seq<Monitor>, k: nat)
    requires ListsMonitors(listing, src, serverId) && k < |listing|
    ensures (serverId, listing[k].id) in src && src[(serverId, listing[k].id)] == listing[k]
    ensures listing[k].id !in MonitorIdsOf(listing[..k])
  {
  }

  lemma MonitorIdsGrow(listing: seq<Monitor>, k: nat)
    requires k < |listing|
    ensures MonitorIdsOf(listing[..k + 1]) == MonitorIdsOf(listing[..k]) + {listing[k].id}
  {
  }

  lemma OwnMonitorPasses(p: ServerPhase, seen: set<string>, m: Monitor)
    requires Named(m.id, m.name) && ValidKind(m.kind) && RefsValid(m.groupIds, p.groups) && m.id !in seen
    ensures MonitorVerdict(p, seen, MonitorFromStore(m)).None?
  {
    NoneMissing(m.groupIds, p.groups);
  }

  /** Writing a stored monitor's own entry keeps its runtime fields; it only applies the defaults. */
  lemma WriteBackMonitor(p: ServerPhase, full: bool, db: Db, m: Monitor)
    requires var act := if full then Update else Create;
             && WriteMonitor(p, db, m.serverId, MonitorFromStore(m), act).Ok?
             && (full ==> (m.serverId, m.id) in db.monitors && db.monitors[(m.serverId, m.id)] == m)
    ensures var act := if full then Update else Create;
            WriteMonitor(p, db, m.serverId, MonitorFromStore(m), act)
            == Ok(db.(monitors := db.monitors[(m.serverId, m.id) := RedoMonitor(full, m, p.opts.now)]))
  {
  }

  lemma OneMonitorRedone(p: ServerPhase, full: bool, db: Db, src: map<(string, string), Monitor>, serverId: string,
                         listing: seq<Monitor>, existing: set<string>, before: set<(string, string)>, k: nat,
                             r: MonitorRun)
    requires MonitorSource(p, full, src, serverId, listing, existing) && k < |listing|
    requires MonitorsRedone(p, full, db, src, serverId, listing, existing, before, k, r)
    ensures var r' := MonitorStep(p, serverId, existing, r, MonitorFromStore(listing[k]));
            MonitorsRedone(p, full, db, src, serverId, listing, existing, before, k + 1, r') && r'.errors == r.errors
  {
    var m := listing[k];
    var e := MonitorFromStore(m);
    OwnMonitorWritten(p, full, db, src, serverId, listing, existing, before, k, r);
    MonitorListedOnce(src, serverId, listing, k);
    MonitorIdsGrow(listing, k);
    assert m.id == e.id;
    hide MonitorInv, ListsMonitors, MonitorSource, RedoneMonitors, RedoMonitor, MonitorIdsOf, MonitorStep, WellFormed,
         MonitorFromStore, KeysUnder;
    MonitorStepFidelity(p, p.(opts := p.opts.(dryRun := true)), db, db, serverId, existing, r, e) by {
      assert MonitorSource(p, full, src, serverId, listing, existing);
      NotDry(p, full, src, serverId, listing, existing);
    }
    MonitorRedoneOneMore(full, src, before + KeysUnder(serverId, r.seen), (serverId, m.id), p.opts.now);
    KeysGrow(before, serverId, r.seen, m.id);
  }

  lemma NotDry(p: ServerPhase, full: bool, src: map<(string, string), Monitor>, serverId: string,
               listing: seq<Monitor>, existing: set<string>)
    requires MonitorSource(p, full, src, serverId, listing, existing)
    ensures !p.opts.dryRun
  {
  }

  lemma KeysGrow(before: set<(string, string)>, serverId: string, ids: set<string>, id: string)
    ensures before + KeysUnder(serverId, ids + {id}) == before + KeysUnder(serverId, ids) + {(serverId, id)}
  {
  }

  lemma OwnMonitorWritten(p: ServerPhase, full: bool, db: Db, src: map<(string, string), Monitor>, serverId: string,
                          listing: seq<Monitor>, existing: set<string>, before: set<(string, string)>, k: nat,
                              r: MonitorRun)
    requires MonitorSource(p, full, src, serverId, listing, existing) && k < |listing|
    requires MonitorsRedone(p, full, db, src, serverId, listing, existing, before, k, r)
    ensures var m := listing[k];
            var r' := MonitorStep(p, serverId, existing, r, MonitorFromStore(m));
            && r'.db.monitors == r.db.monitors[(serverId, m.id) := RedoMonitor(full, m, p.opts.now)]
            && r'.seen == r.seen + {m.id} && r'.errors == r.errors
  {
    hide WellFormed, RedoMonitor, Blank, ValidKind, MissingRefs, RefsValid, Defaults, WriteMonitor;
    var m := listing[k];
    var e := MonitorFromStore(m);
    MonitorListedOnce(src, serverId, listing, k);
    assert src[(serverId, m.id)] == m;
    assert m.serverId == serverId && Named(m.id, m.name);
    OwnMonitorPasses(p, r.seen, m);
    assert (serverId, m.id) !in before + KeysUnder(serverId, r.seen);
    assert full ==> (serverId, m.id) in r.db.monitors && r.db.monitors[(serverId, m.id)] == m;
    MonitorWriteSucceeds(p, db, serverId, existing, r, e);
    WriteBackMonitor(p, full, r.db, m);
  }

  lemma {:induction false} MonitorsRedo(p: ServerPhase, full: bool, db: Db, src: map<(string, string), Monitor>,
                                        serverId: string,
                                        listing: seq<Monitor>, existing: set<string>, before: set<(string, string)>,
                                            k: nat, r: MonitorRun)
    requires MonitorSource(p, full, src, serverId, listing, existing)
    requires MonitorsRedone(p, full, db, src, serverId, listing, existing, before, k, r)
    ensures var r' := RunMonitors(p, serverId, existing, r, MonitorEntries(listing)[k..]);
            MonitorsRedone(p, full, db, src, serverId, listing, existing, before, |listing|, r')
                && r'.errors == r.errors
    decreases |listing| - k
  {
    hide MonitorSource, MonitorStep, MonitorFromStore;
    var es := MonitorEntries(listing)[k..];
    if k < |listing| {
      var e := MonitorFromStore(listing[k]);
      assert es[0] == e && es[1..] == MonitorEntries(listing)[k + 1..];
      OneMonitorRedone(p, full, db, src, serverId, listing, existing, before, k, r);
      MonitorsRedo(p, full, db, src, serverId, listing, existing, before, k + 1,
          MonitorStep(p, serverId, existing, r, e));
    } else {
      assert es == [];
    }
  }

  // ---------- Servers ----------

  function RedoServer(full: bool, s: Server, now: Time): Server {
    if full then s.(updatedAt := now)
    else s.(healthStatus := STATUS_UNKNOWN, createdAt := now, updatedAt := now, lastStatusChangeAt := now,
        lastCheckAt := ZERO)
  }

  function RedoneServers(full: bool, src: map<string, Server>, done: set<string>, now: Time): map<string, Server> {
    map i | i in src && (full || i in done) :: if i in done then RedoServer(full, src[i], now) else src[i]
  }

  lemma ServerRedoneOneMore(full: bool, src: map<string, Server>, done: set<string>, id: string, now: Time)
    requires id in src
    ensures RedoneServers(full, src, done + {id}, now)
            == RedoneServers(full, src, done, now)[id := RedoServer(full, src[id], now)]
  {
  }

  function ServerIdsOf(listing: seq<Server>): set<string> {
    set i | 0 <= i < |listing| :: listing[i].id
  }

  lemma ServerListedOnce(src: map<string, Server>, listing: seq<Server>, k: nat)
    requires ListsServers(listing, src) && k < |listing|
    ensures listing[k].id in src && src[listing[k].id] == listing[k] && listing[k].id !in ServerIdsOf(listing[..k])
  {
  }

  lemma ServerIdsGrow(listing: seq<Server>, k: nat)
    requires k < |listing|
    ensures ServerIdsOf(listing[..k + 1]) == ServerIdsOf(listing[..k]) + {listing[k].id}
  {
  }

  function KeysOf(src: map<(string, string), Monitor>, ids: set<string>): set<(string, string)> {
    set k | k in src && k.0 in ids
  }

  /** The exported store, and a server phase that starts from its servers and monitors or from none. */
  ghost predicate ServerSource(p: ServerPhase, full: bool, src: Db, init: Db, l: Listing) {
    && Importable(src) && ListsServers(l.servers, src.servers)
    && (forall id | id in src.servers :: id in l.monitors && ListsMonitors(l.monitors[id], src.monitors, id))
    && WellFormed(init) && init.groups.Keys == src.groups.Keys
    && init.servers == (if full then src.servers else map[]) && init.monitors == (if full then src.monitors else map[])
    && !p.opts.dryRun && (full ==> p.opts.mode == Upsert)
  }

  ghost predicate ServersRedone(p: ServerPhase, full: bool, src: Db, init: Db, l: Listing, k: nat, r: ServerRun) {
    && k <= |l.servers| && ServerInv(p, init, r)
    && r.seen == ServerIdsOf(l.servers[..k])
    && r.db.servers == RedoneServers(full, src.servers, r.seen, p.opts.now)
    && r.db.monitors == RedoneMonitors(full, src.monitors, KeysOf(src.monitors, r.seen), p.opts.now)
  }

  lemma WriteBackServer(p: ServerPhase, full: bool, servers: map<string, Server>, s: Server, ms: seq<MonitorEntry>)
    requires full <==> s.id in servers
    requires full ==> servers[s.id] == s
    ensures WriteServer(p, servers, ServerFromStore(s, ms), if full then Update else Create)
            == Ok(servers[s.id := RedoServer(full, s, p.opts.now)])
  {
  }

  /** The server's own monitors are a source for its monitor phase. */
  lemma MonitorsAreSource(p: ServerPhase, full: bool, src: Db, init: Db, l: Listing, id: string, db: Db)
    requires ServerSource(p, full, src, init, l) && id in src.servers && p.byId == init.servers.Keys
             && p.groups == init.groups.Keys
    requires forall x :: (id, x) in db.monitors <==> (id, x) in init.monitors
    ensures MonitorSource(p, full, src.monitors, id, l.monitors[id], Existing(p, db, id))
  {
  }

  lemma OwnServerPasses(p: ServerPhase, full: bool, src: Db, init: Db, l: Listing, k: nat, r: ServerRun)
    requires ServerSource(p, full, src, init, l) && ServersRedone(p, full, src, init, l, k, r) && k < |l.servers|
    ensures var s := l.servers[k];
            && s.id !in r.seen && s.id in src.servers && Verdict(r.seen, {}, s.id, s.name).None?
            && Decide(p.opts.mode, s.id in p.byId, false) == (if full then Update else Create)
            && (full <==> s.id in r.db.servers) && (full ==> r.db.servers[s.id] == s)
  {
    ServerListedOnce(src.servers, l.servers, k);
    assert Named(l.servers[k].id, src.servers[l.servers[k].id].name);
    hide ListsServers, ListsMonitors, WellFormed, Blank, ServerIdsOf, RedoServer;
  }

  lemma RewrittenStep(p: ServerPhase, full: bool, r: ServerRun, s: Server, e: ServerEntry)
    requires !p.opts.dryRun && e.id == s.id && e.name == s.name && Verdict(r.seen, {}, s.id, s.name).None?
    requires var act := if full then Update else Create;
             && Decide(p.opts.mode, s.id in p.byId, false) == act
             && WriteServer(p, r.db.servers, e, act) == Ok(r.db.servers[s.id := RedoServer(full, s, p.opts.now)])
    ensures ServerStep(p, r, e) == ImportMonitors(p, Rewritten(p, full, r, s), e)
  {
  }

  lemma OwnServerWritten(p: ServerPhase, full: bool, src: Db, init: Db, l: Listing, k: nat, r: ServerRun)
    requires ServerSource(p, full, src, init, l) && ServersRedone(p, full, src, init, l, k, r) && k < |l.servers|
    ensures var s := l.servers[k];
            var e := ServerEntryOf(s, l.monitors);
            && ServerStep(p, r, e) == ImportMonitors(p, Rewritten(p, full, r, s), e)
            && WellFormed(Rewritten(p, full, r, s).db)
  {
    var s := l.servers[k];
    var e := ServerEntryOf(s, l.monitors);
    OwnServerPasses(p, full, src, init, l, k, r);
    WriteBackServer(p, full, r.db.servers, s, e.monitors);
    assert WellFormed(r.db) && !p.opts.dryRun;
    assert e.id == s.id && e.name == s.name && e == ServerFromStore(s, e.monitors);
    hide ServerSource, ServersRedone, WellFormed, Verdict, ImportMonitors, RedoServer, WriteServer, ServerEntryOf,
         ServerStep, ServerFromStore;
    RewrittenStep(p, full, r, s, e);
    ServerWriteKeeps(p, r.db, e, if full then Update else Create,
        r.db.servers[s.id := RedoServer(full, s, p.opts.now)]);
  }

  /** The run with one server written back and its monitors still to come. */
  function Rewritten(p: ServerPhase, full: bool, r: ServerRun, s: Server): ServerRun {
    r.(seen := r.seen + {s.id}, db := r.db.(servers := r.db.servers[s.id := RedoServer(full, s, p.opts.now)]),
       servers := Done(r.servers, if full then Update else Create))
  }

  lemma KeysOfGrow(src: map<(string, string), Monitor>, ids: set<string>, id: string, mids: set<string>)
    requires forall x :: x in mids <==> (id, x) in src
    ensures KeysOf(src, ids + {id}) == KeysOf(src, ids) + KeysUnder(id, mids)
  {
  }

  lemma AllMonitorsListed(src: map<(string, string), Monitor>, id: string, listing: seq<Monitor>)
    requires ListsMonitors(listing, src, id) && forall x | (id, x) in src :: src[(id, x)].id == x
    ensures forall x :: x in MonitorIdsOf(listing) <==> (id, x) in src
  {
  }

  /** One server written back, then its monitors. */
  lemma OneServerRedone(p: ServerPhase, full: bool, src: Db, init: Db, l: Listing, k: nat, r: ServerRun)
    requires ServerSource(p, full, src, init, l) && ServersRedone(p, full, src, init, l, k, r) && k < |l.servers|
    ensures var r' := ServerStep(p, r, ServerEntryOf(l.servers[k], l.monitors));
            ServersRedone(p, full, src, init, l, k + 1, r') && r'.errors == r.errors
  {
    var s := l.servers[k];
    var e := ServerEntryOf(s, l.monitors);
    OwnServerPasses(p, full, src, init, l, k, r);
    OwnServerWritten(p, full, src, init, l, k, r);
    var r1 := Rewritten(p, full, r, s);
    OwnMonitorsRedone(p, full, src, init, l, k, r);
    ServerIdsGrow(l.servers, k);
    ServerRedoneOneMore(full, src.servers, r.seen, s.id, p.opts.now);
    assert ServerInv(p, init, r) && SameHosts(init, init) && !p.opts.dryRun;
    hide ServerSource, ServerInv, RedoneServers, RedoneMonitors, ServerStep, ServerIdsOf, KeysOf;
    ServerStepFidelity(p, p.(opts := p.opts.(dryRun := true)), init, init, r, e);
  }

  lemma OwnMonitorsRedone(p: ServerPhase, full: bool, src: Db, init: Db, l: Listing, k: nat, r: ServerRun)
    requires ServerSource(p, full, src, init, l) && ServersRedone(p, full, src, init, l, k, r) && k < |l.servers|
    ensures var s := l.servers[k];
            var r1 := Rewritten(p, full, r, s);
            var r' := ImportMonitors(p, r1, ServerEntryOf(s, l.monitors));
            && r'.seen == r1.seen && r'.errors == r.errors && r'.db.servers == r1.db.servers
            && r'.db.monitors == RedoneMonitors(full, src.monitors, KeysOf(src.monitors, r.seen + {s.id}), p.opts.now)
  {
    var s := l.servers[k];
    var r1 := Rewritten(p, full, r, s);
    var e := ServerEntryOf(s, l.monitors);
    OwnServerPasses(p, full, src, init, l, k, r);
    OwnServerWritten(p, full, src, init, l, k, r);
    ImportMonitorsFrame(p, r1, e);
    var listing, existing := l.monitors[s.id], Existing(p, r1.db, s.id);
    OwnMonitorsSource(p, full, src, init, l, r, s.id, r1.db);
    KeysOfGrow(src.monitors, r.seen, s.id, MonitorIdsOf(listing));
    assert WellFormed(r1.db) && ServerInv(p, init, r) && s.id in r1.db.servers;
    hide ServerSource, ServerInv, WellFormed, MonitorSource, RedoneMonitors, RedoServer, KeysOf, MonitorIdsOf,
         ListsMonitors, ImportMonitors, MonitorsRedone;
    var before := KeysOf(src.monitors, r.seen);
    StartMonitors(p, full, src, init, r, r1, s.id, listing, existing, MonitorRun(r1.db, {}, r1.monitors, r1.errors));
    ImportedMonitorsRedone(p, full, src.monitors, r1, e, listing, before);
    SeenKept(p, r1, e);
  }

  lemma ImportedMonitorsRedone(p: ServerPhase, full: bool, src: map<(string, string), Monitor>, r: ServerRun,
                               e: ServerEntry,
                               listing: seq<Monitor>, before: set<(string, string)>)
    requires e.monitors == MonitorEntries(listing)
    requires var existing := Existing(p, r.db, e.id);
             && MonitorSource(p, full, src, e.id, listing, existing)
             && MonitorsRedone(p, full, r.db, src, e.id, listing, existing, before, 0,
                   MonitorRun(r.db, {}, r.monitors, r.errors))
    ensures var r' := ImportMonitors(p, r, e);
            && r'.errors == r.errors
            && r'.db.monitors == RedoneMonitors(full, src, before + KeysUnder(e.id, MonitorIdsOf(listing)), p.opts.now)
  {
    hide MonitorSource, RedoneMonitors, RunMonitors, MonitorEntries, MonitorInv, MonitorIdsOf, KeysUnder;
    MonitorsRedo(p, full, r.db, src, e.id, listing, Existing(p, r.db, e.id), before, 0,
        MonitorRun(r.db, {}, r.monitors, r.errors));
    assert MonitorEntries(listing)[0..] == e.monitors;
    assert listing[..|listing|] == listing;
  }

  lemma OwnMonitorsSource(p: ServerPhase, full: bool, src: Db, init: Db, l: Listing, r: ServerRun, id: string, db: Db)
    requires ServerSource(p, full, src, init, l) && ServerInv(p, init, r) && id in src.servers && id !in r.seen
             && db.monitors == r.db.monitors
    ensures MonitorSource(p, full, src.monitors, id, l.monitors[id], Existing(p, db, id))
    ensures forall x :: (id, x) in db.monitors <==> x in Existing(p, db, id)
    ensures forall x :: x in MonitorIdsOf(l.monitors[id]) <==> (id, x) in src.monitors
  {
    SameExisting(p, init, init, r, db, id);
    hide ListsServers, Blank, ValidKind, GroupsKeyed, UniqueNames, RefsExist, RefsValid;
    MonitorsAreSource(p, full, src, init, l, id, db);
    AllMonitorsListed(src.monitors, id, l.monitors[id]);
  }

  lemma StartMonitors(p: ServerPhase, full: bool, src: Db, init: Db, r: ServerRun, r1: ServerRun, id: string,
                      listing: seq<Monitor>, existing: set<string>, m: MonitorRun)
    requires ServerInv(p, init, r) && WellFormed(r1.db) && id in r1.db.servers && id !in r.seen
    requires r1.db == r.db.(servers := r1.db.servers) && m.db == r1.db && m.seen == {}
    requires r.db.monitors == RedoneMonitors(full, src.monitors, KeysOf(src.monitors, r.seen), p.opts.now)
    requires forall x :: (id, x) in r1.db.monitors <==> x in existing
    ensures MonitorsRedone(p, full, r1.db, src.monitors, id, listing, existing, KeysOf(src.monitors, r.seen), 0, m)
  {
    hide WellFormed, RedoneMonitors;
    var before := KeysOf(src.monitors, r.seen);
    assert before + KeysUnder(id, {}) == before;
    assert MonitorIdsOf(listing[..0]) == {};
  }

  lemma {:induction false} ServersRedo(p: ServerPhase, full: bool, src: Db, init: Db, l: Listing, k: nat, r: ServerRun)
    requires ServerSource(p, full, src, init, l) && ServersRedone(p, full, src, init, l, k, r)
    ensures var r' := RunServers(p, r, ServerEntries(l.servers, l.monitors)[k..]);
            ServersRedone(p, full, src, init, l, |l.servers|, r') && r'.errors == r.errors
    decreases |l.servers| - k
  {
    hide ServerSource, ServerStep, ServerEntryOf;
    var es := ServerEntries(l.servers, l.monitors)[k..];
    if k < |l.servers| {
      var e := ServerEntryOf(l.servers[k], l.monitors);
      assert es[0] == e && es[1..] == ServerEntries(l.servers, l.monitors)[k + 1..];
      OneServerRedone(p, full, src, init, l, k, r);
      ServersRedo(p, full, src, init, l, k + 1, ServerStep(p, r, e));
    } else {
      assert es == [];
    }
  }
}
