/**
 * The import of a configuration file: for each phase the step that handles one entry, and its fold
 * over the file. Existing ids and the owners of names are those of the listing taken before the
 * phase; only the set of ids that later entries may refer to grows.
 */
module ConfigImport {
  import opened Options
  import opened ConfigModel
  import opened ConfigStore

  datatype Mode = Merge | Upsert

  datatype Opts = Opts(mode: Mode, dryRun: bool, now: Time)

  datatype Counts = Counts(created: nat, updated: nat, skipped: nat, failed: nat) {
    function Total(): nat {
      created + updated + skipped + failed
    }
  }

  const NONE := Counts(0, 0, 0, 0)

  datatype Resource = OfSettings | OfNotifyGroup | OfMonitorGroup | OfServer | OfMonitor

  datatype Message =
    | IdRequired
    | NameRequired
    | DuplicateId
    | DuplicateName
    | MissingRef(id: string)
    | NameUsedBy(owner: string)
    | UnsupportedKind(kind: string)
    | ParentNotImported
    | WriteFailed(error: Error)

  datatype Issue = Issue(resource: Resource, id: string, name: string, message: Message)

  datatype Action = Create | Update | Skip | SkipConflict | Conflict

  function Decide(mode: Mode, exists_: bool, conflict: bool): Action {
    if exists_ && mode == Merge then Skip
    else if conflict && mode == Merge then SkipConflict
    else if conflict then Conflict
    else if exists_ then Update
    else Create
  }

  /** The required fields, and duplicates within the file. */
  function Verdict(ids: set<string>, names: set<string>, id: string, name: string): Option<Message> {
    if Blank(id) then Some(IdRequired)
    else if Blank(name) then Some(NameRequired)
    else if id in ids then Some(DuplicateId)
    else if name in names then Some(DuplicateName)
    else None
  }

  /** The first reference that is not available. */
  function MissingRefs(ids: seq<string>, available: set<string>): Option<Message> {
    if ids == [] then None
    else if ids[0] !in available then Some(MissingRef(ids[0]))
    else MissingRefs(ids[1..], available)
  }

  lemma {:induction false} NoneMissing(ids: seq<string>, available: set<string>)
    ensures MissingRefs(ids, available).None? <==> forall i | 0 <= i < |ids| :: ids[i] in available
    decreases |ids|
  {
    if ids != [] {
      NoneMissing(ids[1..], available);
      assert forall i | 0 < i < |ids| :: ids[i] == ids[1..][i - 1];
    }
  }

  function Done(c: Counts, act: Action): Counts {
    if act == Update then c.(updated := c.updated + 1) else c.(created := c.created + 1)
  }

  function OneFailed(c: Counts): Counts {
    c.(failed := c.failed + 1)
  }

  function OneSkipped(c: Counts): Counts {
    c.(skipped := c.skipped + 1)
  }

  // ---------- Groups ----------

  /** `refs` is what entries may refer to, `notifyIds` what the store finds when it checks the references. */
  datatype GroupPhase = GroupPhase(
    opts: Opts, resource: Resource, byId: set<string>, owners: map<string, string>, refs: set<string>,
        notifyIds: set<string>)

  datatype GroupRun = GroupRun(
    coll: map<string, GroupDoc>, seenIds: set<string>, seenNames: set<string>, available: set<string>,
    counts: Counts, errors: seq<Issue>)

  function GroupFailed(p: GroupPhase, r: GroupRun, e: GroupEntry, message: Message): GroupRun {
    r.(counts := OneFailed(r.counts), errors := r.errors + [Issue(p.resource, e.id, e.name, message)])
  }

  function GroupSkipped(p: GroupPhase, r: GroupRun, e: GroupEntry, message: Option<Message>): GroupRun {
    r.(counts := OneSkipped(r.counts),
       errors := r.errors + if message.Some? then [Issue(p.resource, e.id, e.name, message.value)] else [])
  }

  function WriteGroup(p: GroupPhase, coll: map<string, GroupDoc>, e: GroupEntry, act: Action)
    : Result<map<string, GroupDoc>>
  {
    if act == Update then UpdateGroup(coll, p.notifyIds, e.id, GroupToStore(e), p.opts.now)
    else CreateGroup(coll, p.notifyIds, GroupToStore(e), p.opts.now)
  }

  function GroupAction(p: GroupPhase, e: GroupEntry): Action {
    Decide(p.opts.mode, e.id in p.byId, e.name in p.owners && p.owners[e.name] != e.id)
  }

  function GroupWritten(p: GroupPhase, r: GroupRun, e: GroupEntry, act: Action): GroupRun {
    var w := WriteGroup(p, r.coll, e, act);
    if !p.opts.dryRun && w.Err? then GroupFailed(p, r, e, WriteFailed(w.error))
    else
      r.(coll := if p.opts.dryRun then r.coll else w.value,
         available := r.available + {e.id}, counts := Done(r.counts, act))
  }

  function Seen(r: GroupRun, e: GroupEntry): GroupRun {
    r.(seenIds := r.seenIds + {e.id}, seenNames := r.seenNames + {e.name})
  }

  /** What stops an entry before anything is decided about it. */
  function GroupVerdict(p: GroupPhase, r: GroupRun, e: GroupEntry): Option<Message> {
    var v := Verdict(r.seenIds, r.seenNames, e.id, e.name);
    if v.Some? then v else MissingRefs(Refs(e), p.refs)
  }

  function GroupStep(p: GroupPhase, r: GroupRun, e: GroupEntry): GroupRun {
    var r1 := if Verdict(r.seenIds, r.seenNames, e.id, e.name).Some? then r else Seen(r, e);
    match GroupVerdict(p, r, e)
    case Some(message) => GroupFailed(p, r1, e, message)
    case None =>
      match GroupAction(p, e)
      case Skip => GroupSkipped(p, r1, e, None)
      case SkipConflict => GroupSkipped(p, r1, e, if e.name in p.owners then Some(NameUsedBy(p.owners[e.name]))
          else None)
      case Conflict => GroupFailed(p, r1, e, NameUsedBy(if e.name in p.owners then p.owners[e.name] else ""))
      case act => GroupWritten(p, r1, e, act)
  }

  function RunGroups(p: GroupPhase, r: GroupRun, es: seq<GroupEntry>): GroupRun
    decreases |es|
  {
    if es == [] then r else RunGroups(p, GroupStep(p, r, es[0]), es[1..])
  }

  /** A listing of a collection: every document once, in some order. */
  ghost predicate Lists(listing: seq<GroupDoc>, coll: map<string, GroupDoc>) {
    && (forall i | 0 <= i < |listing| :: listing[i].id in coll && coll[listing[i].id] == listing[i])
    && (forall i, j | 0 <= i < j < |listing| :: listing[i].id != listing[j].id)
    && (forall id | id in coll :: exists i :: 0 <= i < |listing| && listing[i] == coll[id])
  }

  function ListedIds(listing: seq<GroupDoc>): set<string> {
    set i | 0 <= i < |listing| :: listing[i].id
  }

  function Owners(listing: seq<GroupDoc>): map<string, string> {
    if listing == [] then map[]
    else
      var d := listing[|listing| - 1];
      Owners(listing[..|listing| - 1])[d.name := d.id]
  }

  lemma {:induction false} OwnersAreNames(listing: seq<GroupDoc>)
    ensures forall n | n in Owners(listing) ::
              exists i :: 0 <= i < |listing| && listing[i].name == n && listing[i].id == Owners(listing)[n]
    ensures forall i | 0 <= i < |listing| :: listing[i].name in Owners(listing)
    decreases |listing|
  {
    if listing != [] {
      var rest := listing[..|listing| - 1];
      OwnersAreNames(rest);
      forall n | n in Owners(listing)
        ensures exists i :: 0 <= i < |listing| && listing[i].name == n && listing[i].id == Owners(listing)[n]
      {
        if n == listing[|listing| - 1].name {
          assert listing[|listing| - 1].id == Owners(listing)[n];
        } else {
          var i :| 0 <= i < |rest| && rest[i].name == n && rest[i].id == Owners(rest)[n];
          assert listing[i] == rest[i];
        }
      }
    }
  }

  function StartGroups(coll: map<string, GroupDoc>, listing: seq<GroupDoc>): GroupRun {
    GroupRun(coll, {}, {}, ListedIds(listing), NONE, [])
  }

  // ---------- Servers and monitors ----------

  datatype ServerPhase = ServerPhase(opts: Opts, byId: set<string>, groups: set<string>)

  datatype ServerRun = ServerRun(db: Db, seen: set<string>, servers: Counts, monitors: Counts, errors: seq<Issue>)

  datatype MonitorRun = MonitorRun(db: Db, seen: set<string>, counts: Counts, errors: seq<Issue>)

  function MonitorFailed(r: MonitorRun, e: MonitorEntry, message: Message): MonitorRun {
    r.(counts := OneFailed(r.counts), errors := r.errors + [Issue(OfMonitor, e.id, e.name, message)])
  }

  function MonitorVerdict(p: ServerPhase, seen: set<string>, e: MonitorEntry): Option<Message> {
    var v := Verdict(seen, {}, e.id, e.name);
    if v.Some? then v
    else if !ValidKind(e.kind) then Some(UnsupportedKind(e.kind))
    else MissingRefs(e.groupIds, p.groups)
  }

  function WriteMonitor(p: ServerPhase, db: Db, serverId: string, e: MonitorEntry, act: Action): Result<Db> {
    if act == Update then UpdateMonitor(db, serverId, e.id, MonitorToStore(e, serverId), p.opts.now)
    else CreateMonitor(db, serverId, MonitorToStore(e, serverId), p.opts.now)
  }

  function MonitorStep(p: ServerPhase, serverId: string, existing: set<string>, r: MonitorRun,
                       e: MonitorEntry): MonitorRun {
    var r1 := if Verdict(r.seen, {}, e.id, e.name).Some? then r else r.(seen := r.seen + {e.id});
    match MonitorVerdict(p, r.seen, e)
    case Some(message) => MonitorFailed(r1, e, message)
    case None =>
      var act := Decide(p.opts.mode, e.id in existing, false);
      if act == Skip then r1.(counts := OneSkipped(r1.counts))
      else
        var w := WriteMonitor(p, r1.db, serverId, e, act);
        if !p.opts.dryRun && w.Err? then MonitorFailed(r1, e, WriteFailed(w.error))
        else r1.(db := if p.opts.dryRun then r1.db else w.value, counts := Done(r1.counts, act))
  }

  function RunMonitors(p: ServerPhase, serverId: string, existing: set<string>, r: MonitorRun,
                       es: seq<MonitorEntry>): MonitorRun
    decreases |es|
  {
    if es == [] then r
    else RunMonitors(p, serverId, existing, MonitorStep(p, serverId, existing, r, es[0]), es[1..])
  }

  function MonitorIds(db: Db, serverId: string): set<string> {
    set k | k in db.monitors && k.0 == serverId :: k.1
  }

  function Existing(p: ServerPhase, db: Db, serverId: string): set<string> {
    if serverId in p.byId then MonitorIds(db, serverId) else {}
  }

  function ImportMonitors(p: ServerPhase, r: ServerRun, e: ServerEntry): ServerRun {
    var m := RunMonitors(p, e.id, Existing(p, r.db, e.id), MonitorRun(r.db, {}, r.monitors, r.errors), e.monitors);
    r.(db := m.db, monitors := m.counts, errors := m.errors)
  }

  /** The monitors of a rejected server all fail. */
  function FailMonitors(r: ServerRun, ms: seq<MonitorEntry>): ServerRun
    decreases |ms|
  {
    if ms == [] then r
    else
      FailMonitors(r.(monitors := OneFailed(r.monitors),
                      errors := r.errors + [Issue(OfMonitor, ms[0].id, ms[0].name, ParentNotImported)]), ms[1..])
  }

  function ServerRejected(r: ServerRun, e: ServerEntry, message: Message): ServerRun {
    FailMonitors(r.(servers := OneFailed(r.servers), errors := r.errors + [Issue(OfServer, e.id, e.name, message)]),
        e.monitors)
  }

  function WriteServer(p: ServerPhase, servers: map<string, Server>, e: ServerEntry, act: Action)
    : Result<map<string, Server>>
  {
    if act == Update then UpdateServer(servers, e.id, ServerToStore(e), p.opts.now)
    else CreateServer(servers, ServerToStore(e), p.opts.now)
  }

  function ServerWritten(p: ServerPhase, r: ServerRun, e: ServerEntry, act: Action): ServerRun {
    var w := WriteServer(p, r.db.servers, e, act);
    if !p.opts.dryRun && w.Err? then ServerRejected(r, e, WriteFailed(w.error))
    else
      var db := if p.opts.dryRun then r.db else r.db.(servers := w.value);
      ImportMonitors(p, r.(db := db, servers := Done(r.servers, act)), e)
  }

  function ServerStep(p: ServerPhase, r: ServerRun, e: ServerEntry): ServerRun {
    match Verdict(r.seen, {}, e.id, e.name)
    case Some(message) => ServerRejected(r, e, message)
    case None =>
      var r1 := r.(seen := r.seen + {e.id});
      var act := Decide(p.opts.mode, e.id in p.byId, false);
      if act == Skip then ImportMonitors(p, r1.(servers := OneSkipped(r1.servers)), e)
      else ServerWritten(p, r1, e, act)
  }

  function RunServers(p: ServerPhase, r: ServerRun, es: seq<ServerEntry>): ServerRun
    decreases |es|
  {
    if es == [] then r else RunServers(p, ServerStep(p, r, es[0]), es[1..])
  }

  // ---------- The whole import ----------

  datatype Report = Report(
    settings: Counts, notifyGroups: Counts, monitorGroups: Counts, servers: Counts, monitors: Counts,
        errors: seq<Issue>)

  datatype Outcome = Outcome(db: Db, report: Report)

  /** Merge leaves the settings alone: the document always exists. */
  function SettingsDone(db: Db, f: File, o: Opts): (r: (Db, Counts))
    ensures r.0 == db.(settings := r.0.settings) && (o.dryRun ==> r.0 == db)
  {
    if f.settings.None? then (db, NONE)
    else if o.mode == Merge then (db, OneSkipped(NONE))
    else (if o.dryRun then db else UpdateSettings(db, f.settings.value, o.now), Done(NONE, Update))
  }

  function NotifyPhase(o: Opts, listing: seq<GroupDoc>): GroupPhase {
    GroupPhase(o, OfNotifyGroup, ListedIds(listing), Owners(listing), {}, {})
  }

  function NotifyRun(coll: map<string, GroupDoc>, f: File, o: Opts, listing: seq<GroupDoc>): GroupRun {
    RunGroups(NotifyPhase(o, listing), StartGroups(coll, listing), f.notifyGroups)
  }

  function MonitorGroupPhase(o: Opts, listing: seq<GroupDoc>, notify: GroupRun): GroupPhase {
    GroupPhase(o, OfMonitorGroup, ListedIds(listing), Owners(listing), notify.available, notify.coll.Keys)
  }

  function GroupsRun(coll: map<string, GroupDoc>, f: File, o: Opts, listing: seq<GroupDoc>,
                     notify: GroupRun): GroupRun {
    RunGroups(MonitorGroupPhase(o, listing, notify), StartGroups(coll, listing), f.monitorGroups)
  }

  function ServersRun(db: Db, f: File, o: Opts, groups: GroupRun): ServerRun {
    RunServers(ServerPhase(o, db.servers.Keys, groups.available), ServerRun(db, {}, NONE, NONE, []), f.servers)
  }

  /** `notifyList` and `groupList` are the listings of the two group collections, in whatever order they come. */
  function Import(db: Db, f: File, o: Opts, notifyList: seq<GroupDoc>, groupList: seq<GroupDoc>): Outcome {
    var s := SettingsDone(db, f, o);
    var n := NotifyRun(s.0.notify, f, o, notifyList);
    var g := GroupsRun(s.0.groups, f, o, groupList, n);
    var v := ServersRun(s.0.(notify := n.coll, groups := g.coll), f, o, g);
    Outcome(v.db, Report(s.1, n.counts, g.counts, v.servers, v.monitors, n.errors + g.errors + v.errors))
  }

  lemma ImportParts(db: Db, f: File, o: Opts, notifyList: seq<GroupDoc>, groupList: seq<GroupDoc>)
    returns (s: (Db, Counts), n: GroupRun, g: GroupRun, v: ServerRun)
    ensures s == SettingsDone(db, f, o)
    ensures n == NotifyRun(db.notify, f, o, notifyList)
    ensures g == GroupsRun(db.groups, f, o, groupList, n)
    ensures v == ServersRun(db.(settings := s.0.settings, notify := n.coll, groups := g.coll), f, o, g)
    ensures Import(db, f, o, notifyList, groupList) ==
            Outcome(v.db, Report(s.1, n.counts, g.counts, v.servers, v.monitors, n.errors + g.errors + v.errors))
  {
    hide SettingsDone, NotifyRun, GroupsRun, ServersRun;
    s := SettingsDone(db, f, o);
    n := NotifyRun(db.notify, f, o, notifyList);
    g := GroupsRun(db.groups, f, o, groupList, n);
    v := ServersRun(db.(settings := s.0.settings, notify := n.coll, groups := g.coll), f, o, g);
  }
}
