/**
 * What an import leaves in the store: every entry that is counted created or updated reads back as itself,
 * with the document's own fields kept or fresh. An entry is counted if the report of the file up to it counts
 * one more created or updated than that of the file up to the entry before.
 */
module ImportLands {
  import opened Options
  import opened ConfigModel
  import opened ConfigStore
  import opened ConfigImport
  import opened ImportFidelity
  import opened ImportMerge

  predicate CountedIn(before: Counts, after: Counts) {
    before.created + before.updated < after.created + after.updated
  }

  /** The same entry of a map, present or absent. */
  predicate SameAt<K, V(==)>(a: map<K, V>, b: map<K, V>, k: K) {
    (k in a <==> k in b) && (k in a ==> a[k] == b[k])
  }

  // ---------- Groups ----------

  predicate GroupLanded(before: map<string, GroupDoc>, after: map<string, GroupDoc>, e: GroupEntry, now: Time) {
    && e.id in after && GroupFromStore(after[e.id]) == e && after[e.id].updatedAt == now
    && after[e.id].createdAt == if e.id in before then before[e.id].createdAt else now
  }

  lemma GroupStepLands(p: GroupPhase, r: GroupRun, e: GroupEntry)
    requires !p.opts.dryRun
    ensures var r' := GroupStep(p, r, e);
            && r.seenIds <= r'.seenIds && r'.seenIds <= r.seenIds + {e.id}
            && (forall id | id != e.id || id in r.seenIds :: SameAt(r.coll, r'.coll, id))
            && (forall id | id !in r'.seenIds :: SameAt(r.coll, r'.coll, id))
            && (CountedIn(r.counts, r'.counts) ==>
                  e.id !in r.seenIds && e.id in r'.seenIds && GroupLanded(r.coll, r'.coll, e, p.opts.now))
  {
    hide MissingRefs, NameTakenByOther, RefsValid, Blank;
  }

  /** What the file has used up is not touched again. */
  lemma {:induction false} GroupsKept(p: GroupPhase, r: GroupRun, es: seq<GroupEntry>, id: string)
    requires !p.opts.dryRun
    ensures var r' := RunGroups(p, r, es);
            && r.seenIds <= r'.seenIds
            && (id in r.seenIds || id !in r'.seenIds ==> SameAt(r.coll, r'.coll, id))
    decreases |es|
  {
    if es != [] {
      GroupStepLands(p, r, es[0]);
      hide GroupStep;
      GroupsKept(p, GroupStep(p, r, es[0]), es[1..], id);
    }
  }

  lemma {:induction false} GroupsJoin(p: GroupPhase, r: GroupRun, a: seq<GroupEntry>, b: seq<GroupEntry>)
    ensures RunGroups(p, r, a + b) == RunGroups(p, RunGroups(p, r, a), b)
    decreases |a|
  {
    if a == [] {
      assert a + b == b;
    } else {
      assert (a + b)[1..] == a[1..] + b;
      GroupsJoin(p, GroupStep(p, r, a[0]), a[1..], b);
    }
  }

  lemma OneMoreGroup(p: GroupPhase, r: GroupRun, es: seq<GroupEntry>, i: nat)
    requires i < |es|
    ensures RunGroups(p, r, es[..i + 1]) == GroupStep(p, RunGroups(p, r, es[..i]), es[i])
    ensures RunGroups(p, r, es) == RunGroups(p, RunGroups(p, r, es[..i + 1]), es[i + 1..])
  {
    hide GroupStep;
    assert es[..i + 1] == es[..i] + [es[i]] && es == es[..i + 1] + es[i + 1..];
    GroupsJoin(p, r, es[..i], [es[i]]);
    GroupsJoin(p, r, es[..i + 1], es[i + 1..]);
    assert [es[i]][1..] == [];
  }

  lemma GroupLands(p: GroupPhase, r: GroupRun, es: seq<GroupEntry>, i: nat)
    requires !p.opts.dryRun && i < |es| && r.seenIds == {}
    requires CountedIn(RunGroups(p, r, es[..i]).counts, RunGroups(p, r, es[..i + 1]).counts)
    ensures GroupLanded(r.coll, RunGroups(p, r, es).coll, es[i], p.opts.now)
  {
    hide GroupStep, RunGroups;
    var before, after := RunGroups(p, r, es[..i]), RunGroups(p, r, es[..i + 1]);
    OneMoreGroup(p, r, es, i);
    GroupStepLands(p, before, es[i]);
    GroupsKept(p, r, es[..i], es[i].id);
    GroupsKept(p, after, es[i + 1..], es[i].id);
  }

  // ---------- Monitors ----------

  predicate MonitorLanded(before: map<(string, string), Monitor>, after: map<(string, string), Monitor>,
                          serverId: string, e: MonitorEntry, now: Time) {
    var k := (serverId, e.id);
    && k in after && MonitorFromStore(after[k]) == ConfigDefaults(e)
    && after[k].serverId == serverId && after[k].updatedAt == now
    && if k in before then
         && after[k].createdAt == before[k].createdAt && after[k].lastCheckAt == before[k].lastCheckAt
         && after[k].lastStatusChangeAt == before[k].lastStatusChangeAt && after[k].certificate == before[k].certificate
         && after[k].status == if before[k].status == "" then "Unknown" else before[k].status
       else
         && after[k].createdAt == now && after[k].lastStatusChangeAt == now && after[k].lastCheckAt == ZERO
         && after[k].certificate.None? && after[k].status == "Unknown"
  }

  lemma MonitorWriteLands(p: ServerPhase, db: Db, serverId: string, e: MonitorEntry, act: Action)
    requires WriteMonitor(p, db, serverId, e, act).Ok?
    ensures var db' := WriteMonitor(p, db, serverId, e, act).value;
            && MonitorLanded(db.monitors, db'.monitors, serverId, e, p.opts.now)
            && forall k | k != (serverId, e.id) :: SameAt(db.monitors, db'.monitors, k)
  {
    hide RefsValid, ConfigDefaults;
  }

  lemma MonitorStepLands(p: ServerPhase, serverId: string, existing: set<string>, r: MonitorRun, e: MonitorEntry)
    requires !p.opts.dryRun
    ensures var r' := MonitorStep(p, serverId, existing, r, e);
            && r.seen <= r'.seen && r'.seen <= r.seen + {e.id}
            && (forall k: (string, string) | k.0 != serverId || k.1 in r.seen || k.1 !in r'.seen ::
                  SameAt(r.db.monitors, r'.db.monitors, k))
            && (CountedIn(r.counts, r'.counts) ==>
                  && e.id !in r.seen && e.id in r'.seen
                  && MonitorLanded(r.db.monitors, r'.db.monitors, serverId, e, p.opts.now))
  {
    hide WriteMonitor, MissingRefs, Blank, MonitorLanded, ValidKind;
    var act := Decide(p.opts.mode, e.id in existing, false);
    if WriteMonitor(p, r.db, serverId, e, act).Ok? {
      MonitorWriteLands(p, r.db, serverId, e, act);
    }
  }

  lemma {:induction false} MonitorsKept(p: ServerPhase, serverId: string, existing: set<string>, r: MonitorRun,
                                        es: seq<MonitorEntry>, k: (string, string))
    requires !p.opts.dryRun
    ensures var r' := RunMonitors(p, serverId, existing, r, es);
            && r.seen <= r'.seen
            && (k.0 != serverId || k.1 in r.seen || k.1 !in r'.seen ==> SameAt(r.db.monitors, r'.db.monitors, k))
    decreases |es|
  {
    if es != [] {
      MonitorStepLands(p, serverId, existing, r, es[0]);
      hide MonitorStep;
      MonitorsKept(p, serverId, existing, MonitorStep(p, serverId, existing, r, es[0]), es[1..], k);
    }
  }

  lemma {:induction false} MonitorsJoin(p: ServerPhase, serverId: string, existing: set<string>, r: MonitorRun,
                                        a: seq<MonitorEntry>, b: seq<MonitorEntry>)
    ensures RunMonitors(p, serverId, existing, r, a + b)
            == RunMonitors(p, serverId, existing, RunMonitors(p, serverId, existing, r, a), b)
    decreases |a|
  {
    hide MonitorStep;
    if a == [] {
      assert a + b == b;
    } else {
      assert (a + b)[1..] == a[1..] + b;
      MonitorsJoin(p, serverId, existing, MonitorStep(p, serverId, existing, r, a[0]), a[1..], b);
    }
  }

  lemma OneMoreMonitor(p: ServerPhase, serverId: string, existing: set<string>, r: MonitorRun, es: seq<MonitorEntry>,
                       j: nat)
    requires j < |es|
    ensures RunMonitors(p, serverId, existing, r, es[..j + 1])
            == MonitorStep(p, serverId, existing, RunMonitors(p, serverId, existing, r, es[..j]), es[j])
    ensures RunMonitors(p, serverId, existing, r, es)
            == RunMonitors(p, serverId, existing, RunMonitors(p, serverId, existing, r, es[..j + 1]), es[j + 1..])
  {
    hide MonitorStep;
    assert es[..j + 1] == es[..j] + [es[j]] && es == es[..j + 1] + es[j + 1..];
    MonitorsJoin(p, serverId, existing, r, es[..j], [es[j]]);
    MonitorsJoin(p, serverId, existing, r, es[..j + 1], es[j + 1..]);
    assert [es[j]][1..] == [];
  }

  lemma MonitorLands(p: ServerPhase, serverId: string, existing: set<string>, r: MonitorRun, es: seq<MonitorEntry>,
                     j: nat)
    requires !p.opts.dryRun && j < |es| && r.seen == {}
    requires CountedIn(RunMonitors(p, serverId, existing, r, es[..j]).counts,
                       RunMonitors(p, serverId, existing, r, es[..j + 1]).counts)
    ensures MonitorLanded(r.db.monitors, RunMonitors(p, serverId, existing, r, es).db.monitors, serverId, es[j],
                          p.opts.now)
  {
    hide MonitorStep, RunMonitors;
    var k := (serverId, es[j].id);
    var before := RunMonitors(p, serverId, existing, r, es[..j]);
    var after := RunMonitors(p, serverId, existing, r, es[..j + 1]);
    OneMoreMonitor(p, serverId, existing, r, es, j);
    MonitorStepLands(p, serverId, existing, before, es[j]);
    MonitorsKept(p, serverId, existing, r, es[..j], k);
    MonitorsKept(p, serverId, existing, after, es[j + 1..], k);
  }

  // ---------- Servers ----------

  predicate ServerLanded(before: map<string, Server>, after: map<string, Server>, e: ServerEntry, now: Time) {
    && e.id in after && ServerFromStore(after[e.id], e.monitors) == e && after[e.id].updatedAt == now
    && if e.id in before then
         && after[e.id].createdAt == before[e.id].createdAt && after[e.id].lastCheckAt == before[e.id].lastCheckAt
         && after[e.id].lastStatusChangeAt == before[e.id].lastStatusChangeAt
         && after[e.id].healthStatus == before[e.id].healthStatus
       else
         && after[e.id].createdAt == now && after[e.id].lastStatusChangeAt == now && after[e.id].lastCheckAt == ZERO
         && after[e.id].healthStatus == "Unknown"
  }

  lemma ServerWriteLands(p: ServerPhase, servers: map<string, Server>, e: ServerEntry, act: Action)
    requires WriteServer(p, servers, e, act).Ok?
    ensures var servers' := WriteServer(p, servers, e, act).value;
            && ServerLanded(servers, servers', e, p.opts.now)
            && forall id | id != e.id :: SameAt(servers, servers', id)
  {
  }

  /** How a server's step goes: it is rejected, or its monitors are run from what its own write leaves. */
  predicate Rejected(p: ServerPhase, r: ServerRun, e: ServerEntry) {
    var act := Decide(p.opts.mode, e.id in p.byId, false);
    || Verdict(r.seen, {}, e.id, e.name).Some?
    || (act != Skip && WriteServer(p, r.db.servers, e, act).Err?)
  }

  function ServerDone(p: ServerPhase, r: ServerRun, e: ServerEntry): ServerRun
    requires !p.opts.dryRun && !Rejected(p, r, e)
  {
    var act := Decide(p.opts.mode, e.id in p.byId, false);
    if act == Skip then r.(seen := r.seen + {e.id}, servers := OneSkipped(r.servers))
    else
      r.(seen := r.seen + {e.id}, servers := Done(r.servers, act),
         db := r.db.(servers := WriteServer(p, r.db.servers, e, act).value))
  }

  lemma ServerStepShape(p: ServerPhase, r: ServerRun, e: ServerEntry)
    requires !p.opts.dryRun
    ensures var r' := ServerStep(p, r, e);
            if Rejected(p, r, e) then
              && r'.db == r.db && r.seen <= r'.seen <= r.seen + {e.id}
              && !CountedIn(r.servers, r'.servers) && !CountedIn(r.monitors, r'.monitors)
            else r' == ImportMonitors(p, ServerDone(p, r, e), e)
  {
    hide ImportMonitors, WriteServer, FailMonitors, Blank;
    var r1 := r.(seen := r.seen + {e.id});
    var act := Decide(p.opts.mode, e.id in p.byId, false);
    if Verdict(r.seen, {}, e.id, e.name).Some? {
      RejectedDoesNothing(r, e, Verdict(r.seen, {}, e.id, e.name).value);
    } else if act != Skip && WriteServer(p, r.db.servers, e, act).Err? {
      RejectedDoesNothing(r1, e, WriteFailed(WriteServer(p, r.db.servers, e, act).error));
    }
  }

  lemma RejectedDoesNothing(r: ServerRun, e: ServerEntry, message: Message)
    ensures var r' := ServerRejected(r, e, message);
            && r'.db == r.db && r'.seen == r.seen
            && !CountedIn(r.servers, r'.servers) && !CountedIn(r.monitors, r'.monitors)
  {
    var r1 := r.(servers := OneFailed(r.servers), errors := r.errors + [Issue(OfServer, e.id, e.name, message)]);
    FailedCountNothing(r1, e.monitors);
  }

  lemma {:induction false} FailedCountNothing(r: ServerRun, ms: seq<MonitorEntry>)
    ensures var r' := FailMonitors(r, ms);
            && r'.db == r.db && r'.seen == r.seen && r'.servers == r.servers
            && r'.monitors.created == r.monitors.created && r'.monitors.updated == r.monitors.updated
    decreases |ms|
  {
    if ms != [] {
      FailedCountNothing(r.(monitors := OneFailed(r.monitors),
                            errors := r.errors + [Issue(OfMonitor, ms[0].id, ms[0].name, ParentNotImported)]), ms[1..]);
    }
  }

  /** A server's monitors are the only ones its import touches. */
  lemma OwnMonitorsOnly(p: ServerPhase, r: ServerRun, e: ServerEntry)
    requires !p.opts.dryRun
    ensures var r' := ImportMonitors(p, r, e);
            && r'.seen == r.seen && r'.servers == r.servers && r'.db.servers == r.db.servers
            && forall k: (string, string) | k.0 != e.id :: SameAt(r.db.monitors, r'.db.monitors, k)
  {
    var existing, r0 := Existing(p, r.db, e.id), MonitorRun(r.db, {}, r.monitors, r.errors);
    ImportMonitorsFrame(p, r, e);
    forall k: (string, string) | k.0 != e.id
      ensures SameAt(r.db.monitors, ImportMonitors(p, r, e).db.monitors, k)
    {
      MonitorsKept(p, e.id, existing, r0, e.monitors, k);
    }
  }

  lemma ServerStepLands(p: ServerPhase, r: ServerRun, e: ServerEntry)
    requires !p.opts.dryRun
    ensures var r' := ServerStep(p, r, e);
            && r.seen <= r'.seen <= r.seen + {e.id}
            && (forall id | id != e.id || id in r.seen || id !in r'.seen :: SameAt(r.db.servers, r'.db.servers, id))
            && (forall k: (string, string) | k.0 != e.id || k.0 in r.seen || k.0 !in r'.seen ::
                  SameAt(r.db.monitors, r'.db.monitors, k))
            && (CountedIn(r.servers, r'.servers) ==>
                  e.id !in r.seen && e.id in r'.seen && ServerLanded(r.db.servers, r'.db.servers, e, p.opts.now))
  {
    hide ServerStep, ImportMonitors, WriteServer, Blank, ServerLanded;
    ServerStepShape(p, r, e);
    if !Rejected(p, r, e) {
      OwnMonitorsOnly(p, ServerDone(p, r, e), e);
      var act := Decide(p.opts.mode, e.id in p.byId, false);
      if act != Skip {
        ServerWriteLands(p, r.db.servers, e, act);
      }
    }
  }

  lemma {:induction false} ServersKept(p: ServerPhase, r: ServerRun, es: seq<ServerEntry>, id: string)
    requires !p.opts.dryRun
    ensures var r' := RunServers(p, r, es);
            && r.seen <= r'.seen
            && (id in r.seen || id !in r'.seen ==>
                  && SameAt(r.db.servers, r'.db.servers, id)
                  && forall x :: SameAt(r.db.monitors, r'.db.monitors, (id, x)))
    decreases |es|
  {
    if es != [] {
      ServerStepLands(p, r, es[0]);
      hide ServerStep;
      ServersKept(p, ServerStep(p, r, es[0]), es[1..], id);
    }
  }

  lemma {:induction false} ServersJoin(p: ServerPhase, r: ServerRun, a: seq<ServerEntry>, b: seq<ServerEntry>)
    ensures RunServers(p, r, a + b) == RunServers(p, RunServers(p, r, a), b)
    decreases |a|
  {
    hide ServerStep;
    if a == [] {
      assert a + b == b;
    } else {
      assert (a + b)[1..] == a[1..] + b;
      ServersJoin(p, ServerStep(p, r, a[0]), a[1..], b);
    }
  }

  lemma OneMoreServer(p: ServerPhase, r: ServerRun, es: seq<ServerEntry>, i: nat, e: ServerEntry)
    requires i < |es|
    ensures RunServers(p, r, es[..i] + [e]) == ServerStep(p, RunServers(p, r, es[..i]), e)
    ensures e == es[i] ==>
              && es[..i + 1] == es[..i] + [e]
              && RunServers(p, r, es) == RunServers(p, RunServers(p, r, es[..i + 1]), es[i + 1..])
  {
    hide ServerStep;
    ServersJoin(p, r, es[..i], [e]);
    assert [e][1..] == [];
    if e == es[i] {
      assert es[..i + 1] == es[..i] + [e] && es == es[..i + 1] + es[i + 1..];
      ServersJoin(p, r, es[..i + 1], es[i + 1..]);
    }
  }

  lemma ServerLands(p: ServerPhase, r: ServerRun, es: seq<ServerEntry>, i: nat)
    requires !p.opts.dryRun && i < |es| && r.seen == {}
    requires CountedIn(RunServers(p, r, es[..i]).servers, RunServers(p, r, es[..i + 1]).servers)
    ensures ServerLanded(r.db.servers, RunServers(p, r, es).db.servers, es[i], p.opts.now)
  {
    hide ServerStep, RunServers;
    var before, after := RunServers(p, r, es[..i]), RunServers(p, r, es[..i + 1]);
    OneMoreServer(p, r, es, i, es[i]);
    ServerStepLands(p, before, es[i]);
    ServersKept(p, r, es[..i], es[i].id);
    ServersKept(p, after, es[i + 1..], es[i].id);
  }

  /** The server entry with its first monitors only. */
  function Cut(e: ServerEntry, j: nat): ServerEntry
    requires j <= |e.monitors|
  {
    e.(monitors := e.monitors[..j])
  }

  lemma MonitorLandsInStep(p: ServerPhase, r: ServerRun, e: ServerEntry, j: nat)
    requires !p.opts.dryRun && j < |e.monitors|
    requires CountedIn(ServerStep(p, r, Cut(e, j)).monitors, ServerStep(p, r, Cut(e, j + 1)).monitors)
    ensures e.id !in r.seen && e.id in ServerStep(p, r, e).seen
    ensures MonitorLanded(r.db.monitors, ServerStep(p, r, e).db.monitors, e.id, e.monitors[j], p.opts.now)
  {
    hide ServerStep, WriteServer, Blank, RunMonitors, MonitorLanded;
    ServerStepShape(p, r, e);
    ServerStepShape(p, r, Cut(e, j));
    ServerStepShape(p, r, Cut(e, j + 1));
    SameFate(p, r, e, j);
    SameFate(p, r, e, j + 1);
    if Rejected(p, r, e) {
      RejectedCountsAlike(p, r, e, j);
      assert false;
    }
    var r1 := ServerDone(p, r, e);
    MonitorLands(p, e.id, Existing(p, r1.db, e.id), MonitorRun(r1.db, {}, r1.monitors, r1.errors), e.monitors, j);
  }

  lemma RejectedCountsAlike(p: ServerPhase, r: ServerRun, e: ServerEntry, j: nat)
    requires !p.opts.dryRun && j < |e.monitors| && Rejected(p, r, Cut(e, j)) && Rejected(p, r, Cut(e, j + 1))
    ensures !CountedIn(ServerStep(p, r, Cut(e, j)).monitors, ServerStep(p, r, Cut(e, j + 1)).monitors)
  {
    hide WriteServer, FailMonitors, Blank, ImportMonitors;
    RejectedMonitors(p, r, Cut(e, j));
    RejectedMonitors(p, r, Cut(e, j + 1));
  }

  lemma RejectedMonitors(p: ServerPhase, r: ServerRun, e: ServerEntry)
    requires !p.opts.dryRun && Rejected(p, r, e)
    ensures var r' := ServerStep(p, r, e);
            r'.monitors.created == r.monitors.created && r'.monitors.updated == r.monitors.updated
  {
    hide WriteServer, FailMonitors, Blank, ImportMonitors;
    var v, r1 := Verdict(r.seen, {}, e.id, e.name), r.(seen := r.seen + {e.id});
    if v.Some? {
      FailedCountNothing(r.(servers := OneFailed(r.servers),
                            errors := r.errors + [Issue(OfServer, e.id, e.name, v.value)]), e.monitors);
    } else {
      var act := Decide(p.opts.mode, e.id in p.byId, false);
      FailedCountNothing(r1.(servers := OneFailed(r.servers), errors := r.errors
          + [Issue(OfServer, e.id, e.name, WriteFailed(WriteServer(p, r.db.servers, e, act).error))]), e.monitors);
    }
  }

  /** What becomes of a server does not depend on its monitors. */
  lemma SameFate(p: ServerPhase, r: ServerRun, e: ServerEntry, j: nat)
    requires !p.opts.dryRun && j <= |e.monitors|
    ensures Rejected(p, r, e) <==> Rejected(p, r, Cut(e, j))
    ensures !Rejected(p, r, e) ==> ServerDone(p, r, Cut(e, j)) == ServerDone(p, r, e)
  {
  }

  lemma MonitorInServerLands(p: ServerPhase, r: ServerRun, es: seq<ServerEntry>, i: nat, j: nat)
    requires !p.opts.dryRun && i < |es| && j < |es[i].monitors| && r.seen == {}
    requires CountedIn(RunServers(p, r, es[..i] + [Cut(es[i], j)]).monitors,
                       RunServers(p, r, es[..i] + [Cut(es[i], j + 1)]).monitors)
    ensures MonitorLanded(r.db.monitors, RunServers(p, r, es).db.monitors, es[i].id, es[i].monitors[j], p.opts.now)
  {
    hide ServerStep, RunServers, MonitorLanded;
    var before := RunServers(p, r, es[..i]);
    OneMoreServer(p, r, es, i, es[i]);
    OneMoreServer(p, r, es, i, Cut(es[i], j));
    OneMoreServer(p, r, es, i, Cut(es[i], j + 1));
    MonitorLandsInStep(p, before, es[i], j);
    ServersKept(p, r, es[..i], es[i].id);
    var after := RunServers(p, r, es[..i + 1]);
    ServersKept(p, after, es[i + 1..], es[i].id);
    var k := (es[i].id, es[i].monitors[j].id);
    assert SameAt(r.db.monitors, before.db.monitors, k);
    assert SameAt(after.db.monitors, RunServers(p, r, es).db.monitors, k);
    LandedAlike(r.db.monitors, before.db.monitors, after.db.monitors, RunServers(p, r, es).db.monitors, es[i].id,
                es[i].monitors[j], p.opts.now);
  }

  lemma LandedAlike(a: map<(string, string), Monitor>, a': map<(string, string), Monitor>,
                    b: map<(string, string), Monitor>, b': map<(string, string), Monitor>, serverId: string,
                    e: MonitorEntry, now: Time)
    requires MonitorLanded(a', b, serverId, e, now)
    requires SameAt(a, a', (serverId, e.id)) && SameAt(b, b', (serverId, e.id))
    ensures MonitorLanded(a, b', serverId, e, now)
  {
  }

  // ---------- The whole import ----------

  function UpToNotify(f: File, i: nat): File
    requires i <= |f.notifyGroups|
  {
    f.(notifyGroups := f.notifyGroups[..i])
  }

  function UpToGroup(f: File, i: nat): File
    requires i <= |f.monitorGroups|
  {
    f.(monitorGroups := f.monitorGroups[..i])
  }

  function UpToServer(f: File, i: nat): File
    requires i <= |f.servers|
  {
    f.(servers := f.servers[..i])
  }

  function UpToMonitor(f: File, i: nat, j: nat): File
    requires i < |f.servers| && j <= |f.servers[i].monitors|
  {
    f.(servers := f.servers[..i] + [Cut(f.servers[i], j)])
  }

  /** The server phase of an import, from what the group phases leave. */
  lemma ServerPart(db: Db, f: File, o: Opts, notifyList: seq<GroupDoc>, groupList: seq<GroupDoc>)
    returns (p: ServerPhase, r: ServerRun)
    requires !o.dryRun
    ensures p.opts == o && r.seen == {} && r.db.servers == db.servers && r.db.monitors == db.monitors
    ensures forall es :: var out := Import(db, f.(servers := es), o, notifyList, groupList);
                         var v := RunServers(p, r, es);
                         && out.db == v.db && out.report.servers == v.servers && out.report.monitors == v.monitors
                         && out.db.notify == r.db.notify && out.db.groups == r.db.groups
                         && out.db.settings == r.db.settings
    ensures var n := NotifyRun(db.notify, f, o, notifyList);
            r.db.notify == n.coll && r.db.groups == GroupsRun(db.groups, f, o, groupList, n).coll
            && r.db.settings == SettingsDone(db, f, o).0.settings
  {
    hide RunServers, NotifyRun, GroupsRun, Import, SettingsDone;
    var s, n, g, v := ImportParts(db, f, o, notifyList, groupList);
    var start := db.(settings := s.0.settings, notify := n.coll, groups := g.coll);
    p := ServerPhase(o, start.servers.Keys, g.available);
    r := ServerRun(start, {}, NONE, NONE, []);
    forall es
      ensures var out := Import(db, f.(servers := es), o, notifyList, groupList);
              var v := RunServers(p, r, es);
              && out.db == v.db && out.report.servers == v.servers && out.report.monitors == v.monitors
              && out.db.notify == r.db.notify && out.db.groups == r.db.groups && out.db.settings == r.db.settings
    {
      SamePhases(db, f, es, o, notifyList, groupList);
      var s1, n1, g1, v1 := ImportParts(db, f.(servers := es), o, notifyList, groupList);
      assert v1 == RunServers(p, r, es) by {
        StartOfServers(start, f.(servers := es), o, g);
      }
      ServersFrame(p, r, es);
    }
  }

  lemma StartOfServers(db: Db, f: File, o: Opts, g: GroupRun)
    ensures ServersRun(db, f, o, g)
            == RunServers(ServerPhase(o, db.servers.Keys, g.available), ServerRun(db, {}, NONE, NONE, []), f.servers)
  {
  }

  lemma SamePhases(db: Db, f: File, es: seq<ServerEntry>, o: Opts, notifyList: seq<GroupDoc>, groupList: seq<GroupDoc>)
    ensures SettingsDone(db, f.(servers := es), o) == SettingsDone(db, f, o)
    ensures NotifyRun(db.notify, f.(servers := es), o, notifyList) == NotifyRun(db.notify, f, o, notifyList)
    ensures forall n :: GroupsRun(db.groups, f.(servers := es), o, groupList, n)
                        == GroupsRun(db.groups, f, o, groupList, n)
  {
  }

  lemma NotifyEntryLands(db: Db, f: File, o: Opts, notifyList: seq<GroupDoc>, groupList: seq<GroupDoc>, i: nat)
    requires !o.dryRun && i < |f.notifyGroups|
    requires CountedIn(Import(db, UpToNotify(f, i), o, notifyList, groupList).report.notifyGroups,
                       Import(db, UpToNotify(f, i + 1), o, notifyList, groupList).report.notifyGroups)
    ensures GroupLanded(db.notify, Import(db, f, o, notifyList, groupList).db.notify, f.notifyGroups[i], o.now)
  {
    hide RunServers, RunGroups, Import, GroupLanded;
    var p, q := ServerPart(db, f, o, notifyList, groupList);
    assert f.(servers := f.servers) == f;
    var s0, n0, g0, v0 := ImportParts(db, UpToNotify(f, i), o, notifyList, groupList);
    var s1, n1, g1, v1 := ImportParts(db, UpToNotify(f, i + 1), o, notifyList, groupList);
    GroupLands(NotifyPhase(o, notifyList), StartGroups(db.notify, notifyList), f.notifyGroups, i);
  }

  lemma GroupEntryLands(db: Db, f: File, o: Opts, notifyList: seq<GroupDoc>, groupList: seq<GroupDoc>, i: nat)
    requires !o.dryRun && i < |f.monitorGroups|
    requires CountedIn(Import(db, UpToGroup(f, i), o, notifyList, groupList).report.monitorGroups,
                       Import(db, UpToGroup(f, i + 1), o, notifyList, groupList).report.monitorGroups)
    ensures GroupLanded(db.groups, Import(db, f, o, notifyList, groupList).db.groups, f.monitorGroups[i], o.now)
  {
    hide RunServers, RunGroups, Import, GroupLanded;
    var p, q := ServerPart(db, f, o, notifyList, groupList);
    assert f.(servers := f.servers) == f;
    var s0, n0, g0, v0 := ImportParts(db, UpToGroup(f, i), o, notifyList, groupList);
    var s1, n1, g1, v1 := ImportParts(db, UpToGroup(f, i + 1), o, notifyList, groupList);
    var n := NotifyRun(db.notify, f, o, notifyList);
    GroupLands(MonitorGroupPhase(o, groupList, n), StartGroups(db.groups, groupList), f.monitorGroups, i);
  }

  lemma ServerEntryLands(db: Db, f: File, o: Opts, notifyList: seq<GroupDoc>, groupList: seq<GroupDoc>, i: nat)
    requires !o.dryRun && i < |f.servers|
    requires CountedIn(Import(db, UpToServer(f, i), o, notifyList, groupList).report.servers,
                       Import(db, UpToServer(f, i + 1), o, notifyList, groupList).report.servers)
    ensures ServerLanded(db.servers, Import(db, f, o, notifyList, groupList).db.servers, f.servers[i], o.now)
  {
    hide RunServers, Import, ServerLanded;
    var p, r := ServerPart(db, f, o, notifyList, groupList);
    assert f.(servers := f.servers) == f;
    ServerLands(p, r, f.servers, i);
  }

  lemma MonitorEntryLands(db: Db, f: File, o: Opts, notifyList: seq<GroupDoc>, groupList: seq<GroupDoc>, i: nat, j: nat)
    requires !o.dryRun && i < |f.servers| && j < |f.servers[i].monitors|
    requires CountedIn(Import(db, UpToMonitor(f, i, j), o, notifyList, groupList).report.monitors,
                       Import(db, UpToMonitor(f, i, j + 1), o, notifyList, groupList).report.monitors)
    ensures MonitorLanded(db.monitors, Import(db, f, o, notifyList, groupList).db.monitors, f.servers[i].id,
                          f.servers[i].monitors[j], o.now)
  {
    hide RunServers, Import, MonitorLanded;
    var p, r := ServerPart(db, f, o, notifyList, groupList);
    assert f.(servers := f.servers) == f;
    MonitorInServerLands(p, r, f.servers, i, j);
  }

  /**
   * After a real import of any file into any store, in either mode, every entry that was counted created or
   * updated reads back as itself: an updated document keeps its creation time and what checks have found, a
   * created one starts fresh, and a monitor has its defaults.
   */
  lemma EntriesLand(db: Db, f: File, o: Opts, notifyList: seq<GroupDoc>, groupList: seq<GroupDoc>)
    requires !o.dryRun
    ensures var db' := Import(db, f, o, notifyList, groupList).db;
            && (forall i: nat | i < |f.notifyGroups|
                    && CountedIn(Import(db, UpToNotify(f, i), o, notifyList, groupList).report.notifyGroups,
                                 Import(db, UpToNotify(f, i + 1), o, notifyList, groupList).report.notifyGroups) ::
                  GroupLanded(db.notify, db'.notify, f.notifyGroups[i], o.now))
            && (forall i: nat | i < |f.monitorGroups|
                    && CountedIn(Import(db, UpToGroup(f, i), o, notifyList, groupList).report.monitorGroups,
                                 Import(db, UpToGroup(f, i + 1), o, notifyList, groupList).report.monitorGroups) ::
                  GroupLanded(db.groups, db'.groups, f.monitorGroups[i], o.now))
            && (forall i: nat | i < |f.servers|
                    && CountedIn(Import(db, UpToServer(f, i), o, notifyList, groupList).report.servers,
                                 Import(db, UpToServer(f, i + 1), o, notifyList, groupList).report.servers) ::
                  ServerLanded(db.servers, db'.servers, f.servers[i], o.now))
            && (forall i: nat, j: nat | i < |f.servers| && j < |f.servers[i].monitors|
                    && CountedIn(Import(db, UpToMonitor(f, i, j), o, notifyList, groupList).report.monitors,
                                 Import(db, UpToMonitor(f, i, j + 1), o, notifyList, groupList).report.monitors) ::
                  MonitorLanded(db.monitors, db'.monitors, f.servers[i].id, f.servers[i].monitors[j], o.now))
  {
    hide Import, CountedIn, GroupLanded, ServerLanded, MonitorLanded;
    forall i: nat | i < |f.notifyGroups|
        && CountedIn(Import(db, UpToNotify(f, i), o, notifyList, groupList).report.notifyGroups,
                     Import(db, UpToNotify(f, i + 1), o, notifyList, groupList).report.notifyGroups)
      ensures GroupLanded(db.notify, Import(db, f, o, notifyList, groupList).db.notify, f.notifyGroups[i], o.now)
    {
      NotifyEntryLands(db, f, o, notifyList, groupList, i);
    }
    forall i: nat | i < |f.monitorGroups|
        && CountedIn(Import(db, UpToGroup(f, i), o, notifyList, groupList).report.monitorGroups,
                     Import(db, UpToGroup(f, i + 1), o, notifyList, groupList).report.monitorGroups)
      ensures GroupLanded(db.groups, Import(db, f, o, notifyList, groupList).db.groups, f.monitorGroups[i], o.now)
    {
      GroupEntryLands(db, f, o, notifyList, groupList, i);
    }
    forall i: nat | i < |f.servers|
        && CountedIn(Import(db, UpToServer(f, i), o, notifyList, groupList).report.servers,
                     Import(db, UpToServer(f, i + 1), o, notifyList, groupList).report.servers)
      ensures ServerLanded(db.servers, Import(db, f, o, notifyList, groupList).db.servers, f.servers[i], o.now)
    {
      ServerEntryLands(db, f, o, notifyList, groupList, i);
    }
    forall i: nat, j: nat | i < |f.servers| && j < |f.servers[i].monitors|
        && CountedIn(Import(db, UpToMonitor(f, i, j), o, notifyList, groupList).report.monitors,
                     Import(db, UpToMonitor(f, i, j + 1), o, notifyList, groupList).report.monitors)
      ensures MonitorLanded(db.monitors, Import(db, f, o, notifyList, groupList).db.monitors, f.servers[i].id,
                            f.servers[i].monitors[j], o.now)
    {
      MonitorEntryLands(db, f, o, notifyList, groupList, i, j);
    }
  }

  // ---------- What an import leaves alone ----------

  lemma {:induction false} GroupsAside(p: GroupPhase, r: GroupRun, es: seq<GroupEntry>, id: string)
    requires forall i | 0 <= i < |es| :: es[i].id != id
    ensures SameAt(r.coll, RunGroups(p, r, es).coll, id)
    decreases |es|
  {
    if es != [] {
      hide MissingRefs, NameTakenByOther, RefsValid, Blank;
      assert SameAt(r.coll, GroupStep(p, r, es[0]).coll, id);
      hide GroupStep;
      GroupsAside(p, GroupStep(p, r, es[0]), es[1..], id);
    }
  }

  lemma SameAtTwice<K, V>(a: map<K, V>, b: map<K, V>, c: map<K, V>, k: K)
    requires SameAt(a, b, k) && SameAt(b, c, k)
    ensures SameAt(a, c, k)
  {
  }

  lemma {:induction false} ServersAside(p: ServerPhase, r: ServerRun, es: seq<ServerEntry>, id: string)
    requires !p.opts.dryRun && forall i | 0 <= i < |es| :: es[i].id != id
    ensures SameAt(r.db.servers, RunServers(p, r, es).db.servers, id)
    ensures forall x :: SameAt(r.db.monitors, RunServers(p, r, es).db.monitors, (id, x))
    decreases |es|
  {
    if es != [] {
      ServerStepLands(p, r, es[0]);
      hide ServerStep, SameAt;
      var r1 := ServerStep(p, r, es[0]);
      ServersAside(p, r1, es[1..], id);
      SameAtTwice(r.db.servers, r1.db.servers, RunServers(p, r, es).db.servers, id);
      forall x
        ensures SameAt(r.db.monitors, RunServers(p, r, es).db.monitors, (id, x))
      {
        assert SameAt(r.db.monitors, r1.db.monitors, (id, x));
        SameAtTwice(r.db.monitors, r1.db.monitors, RunServers(p, r, es).db.monitors, (id, x));
      }
    }
  }

  /** Documents that the file does not name, and settings it does not have or may not set, stay as they are. */
  lemma OthersStay(db: Db, f: File, o: Opts, notifyList: seq<GroupDoc>, groupList: seq<GroupDoc>, id: string)
    requires !o.dryRun
    ensures var db' := Import(db, f, o, notifyList, groupList).db;
            && ((forall i | 0 <= i < |f.notifyGroups| :: f.notifyGroups[i].id != id) ==>
                  SameAt(db.notify, db'.notify, id))
            && ((forall i | 0 <= i < |f.monitorGroups| :: f.monitorGroups[i].id != id) ==>
                  SameAt(db.groups, db'.groups, id))
            && ((forall i | 0 <= i < |f.servers| :: f.servers[i].id != id) ==>
                  SameAt(db.servers, db'.servers, id) && forall x :: SameAt(db.monitors, db'.monitors, (id, x)))
            && db'.settings ==
               if f.settings.None? || o.mode == Merge then db.settings
               else
                 var e := f.settings.value;
                 var title := if e.statusPageTitle == "" then "\U{670D}\U{52A1}\U{72B6}\U{6001}" else e.statusPageTitle;
                 Some(Settings(if e.siteName == "" then "neo-line" else e.siteName, title, o.now))
  {
    hide RunServers, RunGroups, Import;
    var p, r := ServerPart(db, f, o, notifyList, groupList);
    assert f.(servers := f.servers) == f;
    var n := NotifyRun(db.notify, f, o, notifyList);
    if forall i | 0 <= i < |f.notifyGroups| :: f.notifyGroups[i].id != id {
      GroupsAside(NotifyPhase(o, notifyList), StartGroups(db.notify, notifyList), f.notifyGroups, id);
    }
    if forall i | 0 <= i < |f.monitorGroups| :: f.monitorGroups[i].id != id {
      GroupsAside(MonitorGroupPhase(o, groupList, n), StartGroups(db.groups, groupList), f.monitorGroups, id);
    }
    if forall i | 0 <= i < |f.servers| :: f.servers[i].id != id {
      ServersAside(p, r, f.servers, id);
    }
  }

  // ---------- What becomes of each entry ----------

  /** The first reference that is not available. */
  predicate FirstMissing(ids: seq<string>, available: set<string>, id: string) {
    exists i :: 0 <= i < |ids| && ids[i] == id && id !in available && forall j | 0 <= j < i :: ids[j] in available
  }

  lemma {:induction false} MissingIsFirst(ids: seq<string>, available: set<string>)
    ensures match MissingRefs(ids, available)
            case None => forall i | 0 <= i < |ids| :: ids[i] in available
            case Some(message) => message.MissingRef? && FirstMissing(ids, available, message.id)
    decreases |ids|
  {
    if ids != [] && ids[0] in available {
      MissingIsFirst(ids[1..], available);
      match MissingRefs(ids[1..], available)
      case None =>
        assert forall i | 0 < i < |ids| :: ids[i] == ids[1..][i - 1];
      case Some(message) =>
        var i :| 0 <= i < |ids[1..]| && ids[1..][i] == message.id && forall j | 0 <= j < i :: ids[1..][j] in available;
        assert ids[i + 1] == message.id;
        assert forall j | 0 < j < i + 1 :: ids[j] == ids[1..][j - 1];
    }
  }

  /** Why an entry with this id and name is refused before its references are looked at, in this order. */
  predicate RefusedFor(id: string, name: string, ids: set<string>, names: set<string>, message: Message) {
    if forall i | 0 <= i < |id| :: IsSpace(id[i]) then message == IdRequired
    else if forall i | 0 <= i < |name| :: IsSpace(name[i]) then message == NameRequired
    else if id in ids then message == DuplicateId
    else name in names && message == DuplicateName
  }

  lemma RefusalsExactly(id: string, name: string, ids: set<string>, names: set<string>, message: Message)
    ensures Verdict(ids, names, id, name) == Some(message) <==> RefusedFor(id, name, ids, names, message)
  {
  }

  function Used(r: GroupRun, e: GroupEntry, counts: Counts, notes: seq<Issue>): GroupRun {
    r.(seenIds := r.seenIds + {e.id}, seenNames := r.seenNames + {e.name}, counts := counts, errors := r.errors + notes)
  }

  predicate RefsThere(p: GroupPhase, e: GroupEntry) {
    forall i | 0 <= i < |Refs(e)| :: Refs(e)[i] in p.refs
  }

  /** A group entry that is not refused so fails for its first missing reference. */
  lemma GroupEntryLacksRef(p: GroupPhase, r: GroupRun, e: GroupEntry, id: string)
    requires Verdict(r.seenIds, r.seenNames, e.id, e.name).None? && FirstMissing(Refs(e), p.refs, id)
    ensures GroupStep(p, r, e) == Used(r, e, r.counts.(failed := r.counts.failed + 1),
                                       [Issue(p.resource, e.id, e.name, MissingRef(id))])
  {
    MissingIsFirst(Refs(e), p.refs);
  }

  /** With its references there, a merge skips it silently if the store had it. */
  lemma GroupEntryExists(p: GroupPhase, init: map<string, GroupDoc>, r: GroupRun, e: GroupEntry)
    requires PhaseOf(p, init) && Verdict(r.seenIds, r.seenNames, e.id, e.name).None? && RefsThere(p, e)
    requires e.id in init && p.opts.mode == Merge
    ensures GroupStep(p, r, e) == Used(r, e, r.counts.(skipped := r.counts.skipped + 1), [])
  {
    MissingIsFirst(Refs(e), p.refs);
  }

  /** If another document of the store has its name, a merge skips it and an upsert fails it, naming the owner. */
  lemma GroupEntryConflicts(p: GroupPhase, init: map<string, GroupDoc>, r: GroupRun, e: GroupEntry, owner: string)
    requires PhaseOf(p, init) && UniqueNames(init) && RefsThere(p, e)
    requires Verdict(r.seenIds, r.seenNames, e.id, e.name).None? && !(e.id in init && p.opts.mode == Merge)
    requires owner in init && owner != e.id && init[owner].name == e.name
    ensures var c := r.counts;
            GroupStep(p, r, e) == Used(r, e, if p.opts.mode == Merge then c.(skipped := c.skipped + 1)
                                             else c.(failed := c.failed + 1),
                                       [Issue(p.resource, e.id, e.name, NameUsedBy(owner))])
  {
    MissingIsFirst(Refs(e), p.refs);
    OwnersOfNames(p, init, e);
    hide PhaseOf;
  }

  /** In all other cases it is counted, updated if the store had it and created if not, unless its write fails. */
  lemma GroupEntryCounted(p: GroupPhase, init: map<string, GroupDoc>, r: GroupRun, e: GroupEntry)
    requires PhaseOf(p, init) && UniqueNames(init) && RefsThere(p, e)
    requires Verdict(r.seenIds, r.seenNames, e.id, e.name).None? && !(e.id in init && p.opts.mode == Merge)
    requires forall i | i in init && init[i].name == e.name :: i == e.id
    ensures var c, c' := r.counts, GroupStep(p, r, e).counts;
            || c' == (if e.id in init then c.(updated := c.updated + 1) else c.(created := c.created + 1))
            || (c' == c.(failed := c.failed + 1) && !p.opts.dryRun)
  {
    MissingIsFirst(Refs(e), p.refs);
    OwnersOfNames(p, init, e);
    hide PhaseOf, WriteGroup;
  }

  lemma OwnersOfNames(p: GroupPhase, init: map<string, GroupDoc>, e: GroupEntry)
    requires PhaseOf(p, init) && UniqueNames(init)
    ensures e.id in p.byId <==> e.id in init
    ensures e.name in p.owners && p.owners[e.name] != e.id
            <==> exists i | i in init :: i != e.id && init[i].name == e.name
    ensures e.name in p.owners ==> p.owners[e.name] in init && init[p.owners[e.name]].name == e.name
  {
  }

  /** The same for a monitor entry: its kind must be known, its groups available; a merge skips what exists. */
  lemma MonitorEntryFate(p: ServerPhase, serverId: string, existing: set<string>, r: MonitorRun, e: MonitorEntry)
    requires Verdict(r.seen, {}, e.id, e.name).None?
    ensures var r' := MonitorStep(p, serverId, existing, r, e);
            var c := r.counts;
            if e.kind !in ["", "tcp", "url", "http", "https", "tls", "tls_port", "tls_certificate"] then
              && r'.counts == c.(failed := c.failed + 1) && r'.db == r.db
              && r'.errors == r.errors + [Issue(OfMonitor, e.id, e.name, UnsupportedKind(e.kind))]
            else if exists j | 0 <= j < |e.groupIds| :: e.groupIds[j] !in p.groups then
              && r'.counts == c.(failed := c.failed + 1) && r'.db == r.db && |r'.errors| == |r.errors| + 1
              && r'.errors[..|r.errors|] == r.errors
              && var issue := r'.errors[|r.errors|];
                 && issue == Issue(OfMonitor, e.id, e.name, issue.message)
                 && issue.message.MissingRef? && FirstMissing(e.groupIds, p.groups, issue.message.id)
            else if e.id in existing && p.opts.mode == Merge then
              r'.counts == c.(skipped := c.skipped + 1) && r'.db == r.db && r'.errors == r.errors
            else
              r'.counts in {if e.id in existing then c.(updated := c.updated + 1) else c.(created := c.created + 1),
                            c.(failed := c.failed + 1)}
              && (p.opts.dryRun ==> r'.counts != c.(failed := c.failed + 1))
  {
    hide WriteMonitor, Verdict;
    MissingIsFirst(e.groupIds, p.groups);
  }

  lemma {:induction false} AllMonitorsFail(r: ServerRun, ms: seq<MonitorEntry>)
    ensures FailMonitors(r, ms)
            == r.(monitors := r.monitors.(failed := r.monitors.failed + |ms|),
                  errors := r.errors + seq(|ms|, i requires 0 <= i < |ms| =>
                    Issue(OfMonitor, ms[i].id, ms[i].name, ParentNotImported)))
    decreases |ms|
  {
    if ms != [] {
      var first := Issue(OfMonitor, ms[0].id, ms[0].name, ParentNotImported);
      var rest := ms[1..];
      AllMonitorsFail(r.(monitors := OneFailed(r.monitors), errors := r.errors + [first]), rest);
      assert seq(|ms|, i requires 0 <= i < |ms| => Issue(OfMonitor, ms[i].id, ms[i].name, ParentNotImported))
          == [first] + seq(|rest|, i requires 0 <= i < |rest| =>
                         Issue(OfMonitor, rest[i].id, rest[i].name, ParentNotImported));
    }
  }

  /** A refused server entry fails with all its monitors, and the store is not touched. */
  lemma ServerEntryRefused(p: ServerPhase, r: ServerRun, e: ServerEntry, message: Message)
    requires Verdict(r.seen, {}, e.id, e.name) == Some(message)
    ensures ServerStep(p, r, e)
            == r.(servers := r.servers.(failed := r.servers.failed + 1),
                  monitors := r.monitors.(failed := r.monitors.failed + |e.monitors|),
                  errors := r.errors + [Issue(OfServer, e.id, e.name, message)]
                            + seq(|e.monitors|, i requires 0 <= i < |e.monitors| =>
                                Issue(OfMonitor, e.monitors[i].id, e.monitors[i].name, ParentNotImported)))
  {
    hide FailMonitors, Verdict;
    AllMonitorsFail(r.(servers := OneFailed(r.servers), errors := r.errors +
                       [Issue(OfServer, e.id, e.name, message)]), e.monitors);
  }

  /** Any other is skipped by a merge if it exists, and else counted, unless its write fails. */
  lemma ServerEntryCounted(p: ServerPhase, r: ServerRun, e: ServerEntry)
    requires Verdict(r.seen, {}, e.id, e.name).None?
    ensures var c, r' := r.servers, ServerStep(p, r, e);
            if e.id in p.byId && p.opts.mode == Merge then
              r'.servers == c.(skipped := c.skipped + 1) && r'.db.servers == r.db.servers
            else
              || r'.servers == (if e.id in p.byId then c.(updated := c.updated + 1) else c.(created := c.created + 1))
              || (r'.servers == c.(failed := c.failed + 1) && !p.opts.dryRun)
  {
    hide FailMonitors, Verdict, WriteServer, RunMonitors, Existing;
    var r1 := r.(seen := r.seen + {e.id});
    var act := Decide(p.opts.mode, e.id in p.byId, false);
    var w := WriteServer(p, r.db.servers, e, act);
    if act == Skip {
      ImportMonitorsFrame(p, r1.(servers := OneSkipped(r1.servers)), e);
    } else if !p.opts.dryRun && w.Err? {
      FailedCountNothing(r1.(servers := OneFailed(r1.servers), errors := r1.errors
          + [Issue(OfServer, e.id, e.name, WriteFailed(w.error))]), e.monitors);
    }
  }
}
