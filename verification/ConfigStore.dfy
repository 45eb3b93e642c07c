/** The store's configuration collections and the create and update methods the import uses. */
module ConfigStore {
  import opened Options
  import opened ConfigModel

  datatype Error = NameTaken | InvalidRefs | NotFound | Duplicate

  datatype Result<+T> = Ok(value: T) | Err(error: Error) {
    function GetOr(default: T): T {
      if Ok? then value else default
    }
  }

  /** Monitors are keyed by their server and their own id. */
  datatype Db = Db(
    settings: Option<Settings>,
    notify: map<string, GroupDoc>,
    groups: map<string, GroupDoc>,
    servers: map<string, Server>,
    monitors: map<(string, string), Monitor>)

  const DEFAULT_SITE_NAME := "neo-line"
  const DEFAULT_PAGE_TITLE := "\U{670D}\U{52A1}\U{72B6}\U{6001}"

  function GetSettings(db: Db): SettingsEntry {
    if db.settings.None? then SettingsEntry(DEFAULT_SITE_NAME, DEFAULT_PAGE_TITLE)
    else
      SettingsEntry(Or(db.settings.value.siteName, "", DEFAULT_SITE_NAME),
                    Or(db.settings.value.statusPageTitle, "", DEFAULT_PAGE_TITLE))
  }

  /** Settings that are missing or empty read as the defaults. */
  lemma SettingsShown(db: Db)
    ensures var shown := GetSettings(db);
            && shown.siteName == (if db.settings.None? || db.settings.value.siteName == "" then "neo-line"
                                  else db.settings.value.siteName)
            && shown.statusPageTitle == (if db.settings.None? || db.settings.value.statusPageTitle == ""
                                         then "\U{670D}\U{52A1}\U{72B6}\U{6001}"
                                         else db.settings.value.statusPageTitle)
  {
  }

  function UpdateSettings(db: Db, e: SettingsEntry, now: Time): Db {
    db.(settings := Some(Settings(Or(e.siteName, "", DEFAULT_SITE_NAME),
                                  Or(e.statusPageTitle, "", DEFAULT_PAGE_TITLE), now)))
  }

  /** Every reference is a non-empty id that exists. */
  predicate RefsValid(ids: seq<string>, existing: set<string>) {
    forall i | 0 <= i < |ids| :: ids[i] != "" && ids[i] in existing
  }

  predicate NameTakenByOther(coll: map<string, GroupDoc>, id: string, name: string) {
    exists i | i in coll :: i != id && coll[i].name == name
  }

  function Stamp(d: GroupDoc, id: string, createdAt: Time, updatedAt: Time): GroupDoc {
    d.(id := id, createdAt := createdAt, updatedAt := updatedAt)
  }

  function CreateGroup(coll: map<string, GroupDoc>, notifyIds: set<string>, d: GroupDoc, now: Time)
    : Result<map<string, GroupDoc>>
  {
    if !RefsValid(DocRefs(d), notifyIds) then Err(InvalidRefs)
    else if NameTakenByOther(coll, d.id, d.name) then Err(NameTaken)
    else if d.id in coll then Err(Duplicate)
    else Ok(coll[d.id := Stamp(d, d.id, now, now)])
  }

  function UpdateGroup(coll: map<string, GroupDoc>, notifyIds: set<string>, id: string, d: GroupDoc,
                       now: Time): Result<map<string, GroupDoc>> {
    if !RefsValid(DocRefs(d), notifyIds) then Err(InvalidRefs)
    else if id !in coll then Err(NotFound)
    else if NameTakenByOther(coll, id, d.name) then Err(NameTaken)
    else Ok(coll[id := Stamp(d, id, coll[id].createdAt, now)])
  }

  function CreateServer(servers: map<string, Server>, s: Server, now: Time): Result<map<string, Server>> {
    if s.id in servers then Err(Duplicate)
    else
      Ok(servers[s.id := s.(healthStatus := Or(s.healthStatus, "", STATUS_UNKNOWN),
                            createdAt := now, updatedAt := now, lastStatusChangeAt := now)])
  }

  function UpdateServer(servers: map<string, Server>, id: string, s: Server, now: Time): Result<map<string, Server>> {
    if id !in servers then Err(NotFound)
    else
      var was := servers[id];
      Ok(servers[id := s.(id := id, createdAt := was.createdAt,
                          healthStatus := Or(s.healthStatus, "", was.healthStatus),
                          lastStatusChangeAt := was.lastStatusChangeAt, lastCheckAt := was.lastCheckAt,
                          updatedAt := now)])
  }

  function CreateMonitor(db: Db, serverId: string, m: Monitor, now: Time): Result<Db> {
    if serverId !in db.servers then Err(NotFound)
    else if !RefsValid(m.groupIds, db.groups.Keys) then Err(InvalidRefs)
    else if (serverId, m.id) in db.monitors then Err(Duplicate)
    else
      var doc := Defaults(m.(serverId := serverId)).(createdAt := now, updatedAt := now, lastStatusChangeAt := now);
      Ok(db.(monitors := db.monitors[(serverId, m.id) := doc]))
  }

  function UpdateMonitor(db: Db, serverId: string, id: string, m: Monitor, now: Time): Result<Db> {
    if (serverId, id) !in db.monitors then Err(NotFound)
    else if !RefsValid(m.groupIds, db.groups.Keys) then Err(InvalidRefs)
    else
      var was := db.monitors[(serverId, id)];
      var doc := Defaults(m.(id := id, serverId := serverId, createdAt := was.createdAt,
                             status := Or(m.status, "", was.status), lastCheckAt := was.lastCheckAt,
                             lastStatusChangeAt := was.lastStatusChangeAt, certificate := was.certificate,
                             updatedAt := now));
      Ok(db.(monitors := db.monitors[(serverId, id) := doc]))
  }

  // ---------- Integrity ----------

  ghost predicate UniqueNames(coll: map<string, GroupDoc>) {
    forall i, j | i in coll && j in coll && i != j :: coll[i].name != coll[j].name
  }

  ghost predicate GroupsKeyed(coll: map<string, GroupDoc>) {
    "" !in coll && forall i | i in coll :: coll[i].id == i
  }

  ghost predicate RefsExist(coll: map<string, GroupDoc>, notifyIds: set<string>) {
    forall i | i in coll :: RefsValid(DocRefs(coll[i]), notifyIds)
  }

  ghost predicate MonitorOk(db: Db, k: (string, string)) {
    k in db.monitors ==>
      var m := db.monitors[k];
      m.serverId == k.0 && m.id == k.1 && m.serverId in db.servers && RefsValid(m.groupIds, db.groups.Keys)
  }

  /** Unique group names, and every reference valid. */
  ghost predicate WellFormed(db: Db) {
    && GroupsKeyed(db.notify) && UniqueNames(db.notify) && (forall i | i in db.notify :: db.notify[i].NotifyGroup?)
    && GroupsKeyed(db.groups) && UniqueNames(db.groups) && (forall i | i in db.groups :: db.groups[i].MonitorGroup?)
    && RefsExist(db.groups, db.notify.Keys)
    && (forall i | i in db.servers :: db.servers[i].id == i)
    && (forall k | k in db.monitors :: MonitorOk(db, k))
  }

  lemma PutKeepsUnique(coll: map<string, GroupDoc>, d: GroupDoc)
    requires UniqueNames(coll) && !NameTakenByOther(coll, d.id, d.name)
    ensures UniqueNames(coll[d.id := d])
  {
  }

  lemma PutKeepsRefs(coll: map<string, GroupDoc>, notifyIds: set<string>, d: GroupDoc)
    requires RefsExist(coll, notifyIds) && RefsValid(DocRefs(d), notifyIds)
    ensures RefsExist(coll[d.id := d], notifyIds)
  {
  }

  /** A group write keeps the collection keyed, its names unique and its references valid, and touches one document. */
  lemma GroupWriteKeeps(coll: map<string, GroupDoc>, notifyIds: set<string>, d: GroupDoc, now: Time,
                        coll': map<string, GroupDoc>)
    requires GroupsKeyed(coll) && UniqueNames(coll) && RefsExist(coll, notifyIds) && d.id != ""
    requires CreateGroup(coll, notifyIds, d, now) == Ok(coll')
             || UpdateGroup(coll, notifyIds, d.id, d, now) == Ok(coll')
    ensures GroupsKeyed(coll') && UniqueNames(coll') && RefsExist(coll', notifyIds)
    ensures d.id in coll' && coll' == coll[d.id := coll'[d.id]]
    ensures coll'[d.id].name == d.name && coll'[d.id].NotifyGroup? == d.NotifyGroup?
  {
    hide UniqueNames, RefsExist, NameTakenByOther, RefsValid;
    var doc := coll'[d.id];
    assert coll' == coll[d.id := doc] && doc.id == d.id && doc.name == d.name && DocRefs(doc) == DocRefs(d);
    PutKeepsUnique(coll, doc);
    PutKeepsRefs(coll, notifyIds, doc);
  }
}
