/** Which stores' own exports import without an error: exactly those in which nothing is blank or of an unknown kind. */
module ConfigCleanExport {
  import opened Options
  import opened ConfigModel
  import opened ConfigStore
  import opened ConfigImport
  import opened ImportFidelity
  import opened ImportMerge
  import opened ConfigRoundTrip
  import opened ConfigReimport

  lemma {:induction false} CleanGroups(p: GroupPhase, r: GroupRun, es: seq<GroupEntry>, i: nat)
    requires RunGroups(p, r, es).errors == r.errors && p.opts.mode == Upsert && i < |es|
    ensures Named(es[i].id, es[i].name)
    decreases |es|
  {
    hide GroupStep;
    GroupStepAccounting(p, r, es[0]);
    GroupAccounting(p, GroupStep(p, r, es[0]), es[1..]);
    GroupErrorsGrow(p, r, es[0]);
    ErrorsGrow(p, GroupStep(p, r, es[0]), es[1..]);
    if i > 0 {
      CleanGroups(p, GroupStep(p, r, es[0]), es[1..], i - 1);
    }
  }

  lemma GroupErrorsGrow(p: GroupPhase, r: GroupRun, e: GroupEntry)
    ensures r.errors <= GroupStep(p, r, e).errors
    ensures GroupStep(p, r, e).errors == r.errors && p.opts.mode == Upsert ==> Named(e.id, e.name)
  {
  }

  lemma {:induction false} ErrorsGrow(p: GroupPhase, r: GroupRun, es: seq<GroupEntry>)
    ensures r.errors <= RunGroups(p, r, es).errors
    decreases |es|
  {
    if es != [] {
      hide GroupStep;
      GroupErrorsGrow(p, r, es[0]);
      ErrorsGrow(p, GroupStep(p, r, es[0]), es[1..]);
    }
  }

  lemma MonitorErrorsGrow(p: ServerPhase, id: string, existing: set<string>, r: MonitorRun, e: MonitorEntry)
    ensures r.errors <= MonitorStep(p, id, existing, r, e).errors
    ensures MonitorStep(p, id, existing, r, e).errors == r.errors ==> Named(e.id, e.name) && ValidKind(e.kind)
  {
  }

  lemma {:induction false} CleanMonitors(p: ServerPhase, id: string, existing: set<string>, r: MonitorRun,
                                        es: seq<MonitorEntry>)
    ensures r.errors <= RunMonitors(p, id, existing, r, es).errors
    ensures RunMonitors(p, id, existing, r, es).errors == r.errors ==>
              forall j | 0 <= j < |es| :: Named(es[j].id, es[j].name) && ValidKind(es[j].kind)
    decreases |es|
  {
    if es != [] {
      hide MonitorStep, Named, ValidKind;
      var s := MonitorStep(p, id, existing, r, es[0]);
      MonitorErrorsGrow(p, id, existing, r, es[0]);
      CleanMonitors(p, id, existing, s, es[1..]);
      assert forall j | 0 < j < |es| :: es[j] == es[1..][j - 1];
    }
  }

  predicate CleanServer(e: ServerEntry) {
    && Named(e.id, e.name)
    && forall j | 0 <= j < |e.monitors| ::
         Named(e.monitors[j].id, e.monitors[j].name) && ValidKind(e.monitors[j].kind)
  }

  lemma {:induction false} RejectedGrows(r: ServerRun, ms: seq<MonitorEntry>)
    ensures r.errors <= FailMonitors(r, ms).errors
    decreases |ms|
  {
    if ms != [] {
      RejectedGrows(r.(monitors := OneFailed(r.monitors),
                       errors := r.errors + [Issue(OfMonitor, ms[0].id, ms[0].name, ParentNotImported)]), ms[1..]);
    }
  }

  lemma RejectionReported(r: ServerRun, e: ServerEntry, message: Message)
    ensures r.errors < ServerRejected(r, e, message).errors
  {
    RejectedGrows(r.(servers := OneFailed(r.servers), errors := r.errors + [Issue(OfServer, e.id, e.name, message)]),
        e.monitors);
  }

  lemma ServerErrorsGrow(p: ServerPhase, r: ServerRun, e: ServerEntry)
    ensures r.errors <= ServerStep(p, r, e).errors
    ensures ServerStep(p, r, e).errors == r.errors ==> CleanServer(e)
  {
    hide WriteServer, ServerRejected, RunMonitors, Blank, ValidKind;
    var v := Verdict(r.seen, {}, e.id, e.name);
    var r1 := r.(seen := r.seen + {e.id});
    var act := Decide(p.opts.mode, e.id in p.byId, false);
    var w := WriteServer(p, r1.db.servers, e, act);
    if v.Some? {
      RejectionReported(r, e, v.value);
    } else if act != Skip && !p.opts.dryRun && w.Err? {
      RejectionReported(r1, e, WriteFailed(w.error));
    } else {
      var r2 := if act == Skip then r1 else r1.(db := if p.opts.dryRun then r1.db else r1.db.(servers := w.value));
      CleanMonitors(p, e.id, Existing(p, r2.db, e.id), MonitorRun(r2.db, {}, r2.monitors, r2.errors), e.monitors);
    }
  }

  lemma {:induction false} CleanServers(p: ServerPhase, r: ServerRun, es: seq<ServerEntry>)
    ensures r.errors <= RunServers(p, r, es).errors
    ensures RunServers(p, r, es).errors == r.errors ==> forall i | 0 <= i < |es| :: CleanServer(es[i])
    decreases |es|
  {
    if es != [] {
      hide ServerStep, CleanServer;
      ServerErrorsGrow(p, r, es[0]);
      CleanServers(p, ServerStep(p, r, es[0]), es[1..]);
      assert forall i | 0 < i < |es| :: es[i] == es[1..][i - 1];
    }
  }

  /** An import without errors means that every entry of the file is named and every kind known. */
  lemma CleanImport(db: Db, f: File, o: Opts, notifyList: seq<GroupDoc>, groupList: seq<GroupDoc>)
    requires o.mode == Upsert && Import(db, f, o, notifyList, groupList).report.errors == []
    ensures forall i | 0 <= i < |f.notifyGroups| :: Named(f.notifyGroups[i].id, f.notifyGroups[i].name)
    ensures forall i | 0 <= i < |f.monitorGroups| :: Named(f.monitorGroups[i].id, f.monitorGroups[i].name)
    ensures forall i | 0 <= i < |f.servers| :: CleanServer(f.servers[i])
  {
    hide Named, CleanServer, RunGroups, RunServers, Import;
    var s, n, g, v := ImportParts(db, f, o, notifyList, groupList);
    assert n.errors == [] && g.errors == [] && v.errors == [];
    forall i | 0 <= i < |f.notifyGroups|
      ensures Named(f.notifyGroups[i].id, f.notifyGroups[i].name)
    {
      CleanGroups(NotifyPhase(o, notifyList), StartGroups(db.notify, notifyList), f.notifyGroups, i);
    }
    forall i | 0 <= i < |f.monitorGroups|
      ensures Named(f.monitorGroups[i].id, f.monitorGroups[i].name)
    {
      CleanGroups(MonitorGroupPhase(o, groupList, n), StartGroups(db.groups, groupList), f.monitorGroups, i);
    }
    var db' := db.(settings := s.0.settings, notify := n.coll, groups := g.coll);
    CleanServers(ServerPhase(o, db'.servers.Keys, g.available), ServerRun(db', {}, NONE, NONE, []), f.servers);
  }

  lemma CleanServerDocs(db: Db, l: Listing)
    requires WellFormed(db) && ListingOf(l, db)
    requires var es := ServerEntries(l.servers, l.monitors); forall i | 0 <= i < |es| :: CleanServer(es[i])
    ensures forall id | id in db.servers :: Named(id, db.servers[id].name)
    ensures forall k | k in db.monitors :: Named(k.1, db.monitors[k].name) && ValidKind(db.monitors[k].kind)
  {
    hide Named, ValidKind, UniqueNames, GroupsKeyed, RefsExist, RefsValid;
    var es := ServerEntries(l.servers, l.monitors);
    forall id | id in db.servers
      ensures Named(id, db.servers[id].name)
    {
      var i :| 0 <= i < |l.servers| && l.servers[i] == db.servers[id];
      assert es[i] == ServerEntryOf(l.servers[i], l.monitors) && CleanServer(es[i]);
    }
    forall k | k in db.monitors
      ensures Named(k.1, db.monitors[k].name) && ValidKind(db.monitors[k].kind)
    {
      assert MonitorOk(db, k);
      var i :| 0 <= i < |l.servers| && l.servers[i] == db.servers[k.0];
      assert es[i] == ServerEntryOf(l.servers[i], l.monitors) && CleanServer(es[i]);
      assert (k.0, k.1) == k;
      var j :| 0 <= j < |l.monitors[k.0]| && l.monitors[k.0][j] == db.monitors[(k.0, k.1)];
      assert es[i].monitors[j] == MonitorFromStore(db.monitors[k]);
    }
  }

  lemma CleanExport(db: Db, l: Listing)
    requires WellFormed(db) && ListingOf(l, db)
    requires var es := GroupEntries(l.notify); forall i | 0 <= i < |es| :: Named(es[i].id, es[i].name)
    requires var es := GroupEntries(l.groups); forall i | 0 <= i < |es| :: Named(es[i].id, es[i].name)
    requires var es := ServerEntries(l.servers, l.monitors); forall i | 0 <= i < |es| :: CleanServer(es[i])
    ensures Importable(db)
  {
    hide Named, CleanServer, ValidKind, UniqueNames, RefsExist, RefsValid, Lists, ListsServers, ListsMonitors,
         GroupEntries, ServerEntries;
    CleanGroupDocs(db.notify, l.notify);
    CleanGroupDocs(db.groups, l.groups);
    CleanServerDocs(db, l);
  }

  lemma CleanGroupDocs(coll: map<string, GroupDoc>, listing: seq<GroupDoc>)
    requires Lists(listing, coll) && GroupsKeyed(coll)
    requires forall i | 0 <= i < |GroupEntries(listing)| ::
             Named(GroupEntries(listing)[i].id, GroupEntries(listing)[i].name)
    ensures forall id | id in coll :: Named(id, coll[id].name)
  {
    forall id | id in coll
      ensures Named(id, coll[id].name)
    {
      var i :| 0 <= i < |listing| && listing[i] == coll[id];
      assert GroupEntries(listing)[i] == GroupFromStore(coll[id]);
    }
  }

  /**
   * A well-formed store's own export upserts without an error if and only if nothing in it is blank or
   * of an unknown kind.
   */
  lemma CleanExactly(db: Db, l: Listing, now: Time, notifyList: seq<GroupDoc>, groupList: seq<GroupDoc>)
    requires WellFormed(db) && ListingOf(l, db) && Lists(notifyList, db.notify) && Lists(groupList, db.groups)
    ensures Import(db, Export(db, l), Opts(Upsert, false, now), notifyList, groupList).report.errors == []
            <==> Importable(db)
  {
    hide Importable, WellFormed, ListingOf, Lists, Import, CleanServer, Named, GroupEntries, ServerEntries, GetSettings;
    if Importable(db) {
      UpsertOwnExport(db, l, now, notifyList, groupList);
    }
    if Import(db, Export(db, l), Opts(Upsert, false, now), notifyList, groupList).report.errors == [] {
      CleanImport(db, Export(db, l), Opts(Upsert, false, now), notifyList, groupList);
      CleanExport(db, l);
    }
  }
}
