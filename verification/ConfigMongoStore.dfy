/**
 * The configuration store as an object whose methods change its fields, each proved to do what its
 * function in ConfigStore says.
 */
module ConfigMongoStore {
  import opened Options
  import opened ConfigModel
  import opened ConfigStore
  import opened ConfigImport

  class MongoStore {
    var settings: Option<Settings>
    var notify: map<string, GroupDoc>
    var groups: map<string, GroupDoc>
    var servers: map<string, Server>
    var monitors: map<(string, string), Monitor>

    function Contents(): Db
      reads this
    {
      Db(settings, notify, groups, servers, monitors)
    }

    constructor (db: Db)
      ensures Contents() == db
    {
      settings, notify, groups, servers, monitors := db.settings, db.notify, db.groups, db.servers, db.monitors;
    }

    /** Counts how many of the distinct ids exist, and compares with how many there are. */
    method ValidateIds(ids: seq<string>, existing: set<string>) returns (ok: bool)
      ensures ok <==> RefsValid(ids, existing)
      ensures ok <==> forall i | 0 <= i < |ids| :: ids[i] != "" && ids[i] in existing
    {
      var unique := {};
      for i := 0 to |ids|
        invariant unique == set j | 0 <= j < i :: ids[j]
        invariant "" !in unique
      {
        if ids[i] == "" {
          return false;
        }
        unique := unique + {ids[i]};
      }
      var found := unique * existing;
      CountsDecide(unique, existing);
      ok := |found| == |unique|;
    }

    method WriteSettings(e: SettingsEntry, now: Time)
      modifies this`settings
      ensures Contents() == UpdateSettings(old(Contents()), e, now)
      ensures settings.Some? && settings.value.updatedAt == now
              && settings.value.siteName == (if e.siteName == "" then "neo-line" else e.siteName)
    {
      var name := if e.siteName == "" then DEFAULT_SITE_NAME else e.siteName;
      var title := if e.statusPageTitle == "" then DEFAULT_PAGE_TITLE else e.statusPageTitle;
      settings := Some(Settings(name, title, now));
    }

    method CreateNotifyGroup(d: GroupDoc, now: Time) returns (r: Result<()>)
      requires d.NotifyGroup?
      modifies this`notify
      ensures Wrote(r, old(notify), notify, CreateGroup(old(notify), {}, d, now))
      ensures r == if exists i | i in old(notify) :: i != d.id && old(notify)[i].name == d.name then Err(NameTaken)
                   else if d.id in old(notify) then Err(Duplicate) else Ok(())
      ensures notify == if r.Err? then old(notify) else
                        old(notify)[d.id := NotifyGroup(d.id, d.name, d.description, d.channels, now, now)]
    {
      if NameTakenByOther(notify, d.id, d.name) {
        return Err(NameTaken);
      }
      if d.id in notify {
        return Err(Duplicate);
      }
      notify := notify[d.id := Stamp(d, d.id, now, now)];
      r := Ok(());
    }

    method UpdateNotifyGroup(id: string, d: GroupDoc, now: Time) returns (r: Result<()>)
      requires d.NotifyGroup?
      modifies this`notify
      ensures Wrote(r, old(notify), notify, UpdateGroup(old(notify), {}, id, d, now))
      ensures r == if id !in old(notify) then Err(NotFound)
                   else if exists i | i in old(notify) :: i != id && old(notify)[i].name == d.name then Err(NameTaken)
                   else Ok(())
      ensures notify == if r.Err? then old(notify)
                        else old(notify)[id := NotifyGroup(
                                 id, d.name, d.description, d.channels, old(notify)[id].createdAt, now)]
    {
      if id !in notify {
        return Err(NotFound);
      }
      if NameTakenByOther(notify, id, d.name) {
        return Err(NameTaken);
      }
      notify := notify[id := Stamp(d, id, notify[id].createdAt, now)];
      r := Ok(());
    }

    method CreateMonitorGroup(d: GroupDoc, now: Time) returns (r: Result<()>)
      requires d.MonitorGroup?
      modifies this`groups
      ensures Wrote(r, old(groups), groups, CreateGroup(old(groups), notify.Keys, d, now))
      ensures r == if exists i | 0 <= i < |d.policy.notifyGroupIds| ::
                             d.policy.notifyGroupIds[i] == "" || d.policy.notifyGroupIds[i] !in notify
                   then Err(InvalidRefs)
                   else if exists i | i in old(groups) :: i != d.id && old(groups)[i].name == d.name then Err(NameTaken)
                   else if d.id in old(groups) then Err(Duplicate) else Ok(())
      ensures groups == if r.Err? then old(groups) else
                        old(groups)[d.id := MonitorGroup(d.id, d.name, d.description, d.sortOrder, d.policy, now, now)]
    {
      var valid := ValidateIds(d.policy.notifyGroupIds, notify.Keys);
      if !valid {
        return Err(InvalidRefs);
      }
      if NameTakenByOther(groups, d.id, d.name) {
        return Err(NameTaken);
      }
      if d.id in groups {
        return Err(Duplicate);
      }
      groups := groups[d.id := Stamp(d, d.id, now, now)];
      r := Ok(());
    }

    method UpdateMonitorGroup(id: string, d: GroupDoc, now: Time) returns (r: Result<()>)
      requires d.MonitorGroup?
      modifies this`groups
      ensures Wrote(r, old(groups), groups, UpdateGroup(old(groups), notify.Keys, id, d, now))
      ensures r == if exists i | 0 <= i < |d.policy.notifyGroupIds| ::
                             d.policy.notifyGroupIds[i] == "" || d.policy.notifyGroupIds[i] !in notify
                   then Err(InvalidRefs)
                   else if id !in old(groups) then Err(NotFound)
                   else if exists i | i in old(groups) :: i != id && old(groups)[i].name == d.name then Err(NameTaken)
                   else Ok(())
      ensures groups == if r.Err? then old(groups)
                        else old(groups)[id := MonitorGroup(
                                 id, d.name, d.description, d.sortOrder, d.policy, old(groups)[id].createdAt, now)]
    {
      var valid := ValidateIds(d.policy.notifyGroupIds, notify.Keys);
      if !valid {
        return Err(InvalidRefs);
      }
      if id !in groups {
        return Err(NotFound);
      }
      if NameTakenByOther(groups, id, d.name) {
        return Err(NameTaken);
      }
      groups := groups[id := Stamp(d, id, groups[id].createdAt, now)];
      r := Ok(());
    }

    method AddServer(s: Server, now: Time) returns (r: Result<()>)
      modifies this`servers
      ensures Wrote(r, old(servers), servers, CreateServer(old(servers), s, now))
      ensures r == if s.id in old(servers) then Err(Duplicate) else Ok(())
      ensures servers == if r.Err? then old(servers)
                         else old(servers)[s.id := s.(
                                  healthStatus := if s.healthStatus == "" then "Unknown" else s.healthStatus,
                                  createdAt := now, updatedAt := now, lastStatusChangeAt := now)]
    {
      if s.id in servers {
        return Err(Duplicate);
      }
      var health := if s.healthStatus == "" then STATUS_UNKNOWN else s.healthStatus;
      servers := servers[s.id :=
          s.(healthStatus := health, createdAt := now, updatedAt := now, lastStatusChangeAt := now)];
      r := Ok(());
    }

    method ReplaceServer(id: string, s: Server, now: Time) returns (r: Result<()>)
      modifies this`servers
      ensures Wrote(r, old(servers), servers, UpdateServer(old(servers), id, s, now))
      ensures r == if id !in old(servers) then Err(NotFound) else Ok(())
      ensures servers == if r.Err? then old(servers)
                         else
                           var was := old(servers)[id];
                           old(servers)[id := s.(
                               id := id, createdAt := was.createdAt, lastCheckAt := was.lastCheckAt,
                               lastStatusChangeAt := was.lastStatusChangeAt, updatedAt := now,
                               healthStatus := if s.healthStatus == "" then was.healthStatus else s.healthStatus)]
    {
      if id !in servers {
        return Err(NotFound);
      }
      var was := servers[id];
      var health := if s.healthStatus == "" then was.healthStatus else s.healthStatus;
      servers := servers[id := s.(id := id, createdAt := was.createdAt, healthStatus := health,
                                  lastStatusChangeAt := was.lastStatusChangeAt, lastCheckAt := was.lastCheckAt,
                                      updatedAt := now)];
      r := Ok(());
    }

    method AddMonitor(serverId: string, m: Monitor, now: Time) returns (r: Result<()>)
      modifies this`monitors
      ensures Wrote(r, old(Contents()), Contents(), CreateMonitor(old(Contents()), serverId, m, now))
      ensures r == if serverId !in servers then Err(NotFound)
                   else if exists i | 0 <= i < |m.groupIds| :: m.groupIds[i] == "" || m.groupIds[i] !in groups
                   then Err(InvalidRefs)
                   else if (serverId, m.id) in old(monitors) then Err(Duplicate) else Ok(())
      ensures monitors == if r.Err? then old(monitors)
                          else old(monitors)[(serverId, m.id) := Defaults(m.(serverId := serverId)).(
                                   createdAt := now, updatedAt := now, lastStatusChangeAt := now)]
    {
      if serverId !in servers {
        return Err(NotFound);
      }
      var valid := ValidateIds(m.groupIds, groups.Keys);
      if !valid {
        return Err(InvalidRefs);
      }
      if (serverId, m.id) in monitors {
        return Err(Duplicate);
      }
      var doc := ApplyMonitorDefaults(m.(serverId := serverId));
      hide Defaults;
      monitors := monitors[(serverId, m.id) := doc.(createdAt := now, updatedAt := now, lastStatusChangeAt := now)];
      r := Ok(());
    }

    method ReplaceMonitor(serverId: string, id: string, m: Monitor, now: Time) returns (r: Result<()>)
      modifies this`monitors
      ensures Wrote(r, old(Contents()), Contents(), UpdateMonitor(old(Contents()), serverId, id, m, now))
      ensures r == if (serverId, id) !in old(monitors) then Err(NotFound)
                   else if exists i | 0 <= i < |m.groupIds| :: m.groupIds[i] == "" || m.groupIds[i] !in groups
                   then Err(InvalidRefs) else Ok(())
      ensures monitors == if r.Err? then old(monitors)
                          else
                            var was := old(monitors)[(serverId, id)];
                            old(monitors)[(serverId, id) := Defaults(m.(
                                id := id, serverId := serverId, createdAt := was.createdAt,
                                status := if m.status == "" then was.status else m.status,
                                lastCheckAt := was.lastCheckAt, lastStatusChangeAt := was.lastStatusChangeAt,
                                certificate := was.certificate, updatedAt := now))]
    {
      if (serverId, id) !in monitors {
        return Err(NotFound);
      }
      var was := monitors[(serverId, id)];
      var valid := ValidateIds(m.groupIds, groups.Keys);
      if !valid {
        return Err(InvalidRefs);
      }
      var status := if m.status == "" then was.status else m.status;
      var doc := ApplyMonitorDefaults(
        m.(id := id, serverId := serverId, createdAt := was.createdAt, status := status, lastCheckAt := was.lastCheckAt,
           lastStatusChangeAt := was.lastStatusChangeAt, certificate := was.certificate, updatedAt := now));
      hide Defaults;
      monitors := monitors[(serverId, id) := doc];
      r := Ok(());
    }
  }

  /** Every document of a group collection once, in some order. */
  method ListGroups(coll: map<string, GroupDoc>) returns (listing: seq<GroupDoc>)
    requires forall i | i in coll :: coll[i].id == i
    ensures Lists(listing, coll)
  {
    var rest := coll.Keys;
    listing := [];
    while rest != {}
      invariant rest <= coll.Keys
      invariant forall i | 0 <= i < |listing| :: listing[i].id in coll.Keys - rest && coll[listing[i].id] == listing[i]
      invariant forall i, j | 0 <= i < j < |listing| :: listing[i].id != listing[j].id
      invariant forall id | id in coll.Keys - rest :: exists i :: 0 <= i < |listing| && listing[i] == coll[id]
    {
      var id :| id in rest;
      ghost var before := listing;
      listing := listing + [coll[id]];
      forall x | x in coll.Keys - rest
        ensures exists i :: 0 <= i < |listing| && listing[i] == coll[x]
      {
        var i :| 0 <= i < |before| && before[i] == coll[x];
        assert listing[i] == coll[x];
      }
      assert listing[|before|] == coll[id];
      rest := rest - {id};
    }
  }

  /** A write either succeeds with the new contents, or fails and changes nothing. */
  ghost predicate Wrote<T>(r: Result<()>, before: T, after: T, w: Result<T>) {
    match w
    case Ok(v) => r.Ok? && after == v
    case Err(e) => r == Err(e) && after == before
  }

  lemma CountsDecide(unique: set<string>, existing: set<string>)
    ensures |unique * existing| == |unique| <==> unique <= existing
  {
    assert unique == unique * existing + (unique - existing);
    if unique <= existing {
      assert unique * existing == unique;
    }
  }
}
