/** The export: lists each collection and appends its entries to the file, monitors under their server. */
module ConfigExporter {
  import opened Options
  import opened ConfigModel
  import opened ConfigStore
  import opened ConfigImport
  import opened ConfigMongoStore
  import opened ConfigRoundTrip
  import opened ConfigReimport

  method ListServers(servers: map<string, Server>) returns (listing: seq<Server>)
    requires forall i | i in servers :: servers[i].id == i
    ensures ListsServers(listing, servers)
  {
    var rest := servers.Keys;
    listing := [];
    while rest != {}
      invariant rest <= servers.Keys
      invariant forall i | 0 <= i < |listing| ::
                  listing[i].id in servers.Keys - rest && servers[listing[i].id] == listing[i]
      invariant forall i, j | 0 <= i < j < |listing| :: listing[i].id != listing[j].id
      invariant forall id | id in servers.Keys - rest :: exists i :: 0 <= i < |listing| && listing[i] == servers[id]
    {
      var id :| id in rest;
      ghost var before := listing;
      listing := listing + [servers[id]];
      forall x | x in servers.Keys - rest
        ensures exists i :: 0 <= i < |listing| && listing[i] == servers[x]
      {
        var i :| 0 <= i < |before| && before[i] == servers[x];
        assert listing[i] == servers[x];
      }
      assert listing[|before|] == servers[id];
      rest := rest - {id};
    }
  }

  method ListMonitors(monitors: map<(string, string), Monitor>, serverId: string) returns (listing: seq<Monitor>)
    requires forall k | k in monitors :: monitors[k].id == k.1
    ensures ListsMonitors(listing, monitors, serverId)
  {
    var all := set k | k in monitors && k.0 == serverId :: k.1;
    var rest := all;
    forall id
      ensures (serverId, id) in monitors <==> id in all
    {
      if (serverId, id) in monitors {
        assert (serverId, id).1 in all;
      }
    }
    listing := [];
    while rest != {}
      invariant rest <= all
      invariant forall i | 0 <= i < |listing| ::
                  listing[i].id in all - rest && monitors[(serverId, listing[i].id)] == listing[i]
      invariant forall i, j | 0 <= i < j < |listing| :: listing[i].id != listing[j].id
      invariant forall id | id in all - rest :: exists i :: 0 <= i < |listing| && listing[i] == monitors[(serverId, id)]
    {
      var id :| id in rest;
      ghost var before := listing;
      listing := listing + [monitors[(serverId, id)]];
      forall x | x in all - rest
        ensures exists i :: 0 <= i < |listing| && listing[i] == monitors[(serverId, x)]
      {
        var i :| 0 <= i < |before| && before[i] == monitors[(serverId, x)];
        assert listing[i] == monitors[(serverId, x)];
      }
      assert listing[|before|] == monitors[(serverId, id)];
      rest := rest - {id};
    }
  }

  method GroupsFromStore(listing: seq<GroupDoc>) returns (es: seq<GroupEntry>)
    ensures es == GroupEntries(listing)
  {
    es := [];
    for i := 0 to |listing|
      invariant es == GroupEntries(listing[..i])
    {
      es := es + [GroupFromStore(listing[i])];
    }
    assert listing[..|listing|] == listing;
  }

  method MonitorsFromStore(listing: seq<Monitor>) returns (es: seq<MonitorEntry>)
    ensures es == MonitorEntries(listing)
  {
    hide MonitorFromStore;
    es := [];
    for i := 0 to |listing|
      invariant es == MonitorEntries(listing[..i])
    {
      es := es + [MonitorFromStore(listing[i])];
    }
    assert listing[..|listing|] == listing;
  }

  /** Each listed server with its own monitors. */
  method ServersFromStore(listing: seq<Server>, all: map<(string, string), Monitor>)
    returns (es: seq<ServerEntry>, ghost monitors: map<string, seq<Monitor>>)
    requires forall k | k in all :: all[k].id == k.1
    requires forall i, j | 0 <= i < j < |listing| :: listing[i].id != listing[j].id
    ensures |es| == |listing| && forall i | 0 <= i < |es| :: es[i] == ServerFromStore(listing[i], es[i].monitors)
    ensures es == ServerEntries(listing, monitors)
    ensures forall i | 0 <= i < |listing| ::
              listing[i].id in monitors && ListsMonitors(monitors[listing[i].id], all, listing[i].id)
  {
    hide ListsMonitors, MonitorFromStore;
    es, monitors := [], map[];
    for i := 0 to |listing|
      invariant forall id | id in monitors :: exists j :: 0 <= j < i && listing[j].id == id
      invariant forall j | 0 <= j < i ::
                  listing[j].id in monitors && ListsMonitors(monitors[listing[j].id], all, listing[j].id)
      invariant |es| == i && forall j | 0 <= j < i :: es[j] == ServerEntryOf(listing[j], monitors)
    {
      var ms := ListMonitors(all, listing[i].id);
      var entries := MonitorsFromStore(ms);
      assert listing[i].id !in monitors;
      monitors := monitors[listing[i].id := ms];
      es := es + [ServerFromStore(listing[i], entries)];
    }
    assert es == ServerEntries(listing, monitors);
  }

  /** The file is the store's export for the listings that were taken: exactly its configuration, in some order. */
  method ExportStore(st: MongoStore) returns (f: File, ghost l: Listing)
    requires WellFormed(st.Contents())
    ensures FileConfig(f) == StoreConfig(st.Contents()) && f.settings == Some(GetSettings(st.Contents()))
    ensures ListingOf(l, st.Contents()) && f == Export(st.Contents(), l)
  {
    ghost var db := st.Contents();
    forall k | k in db.monitors
      ensures db.monitors[k].id == k.1
    {
      assert MonitorOk(db, k);
    }
    var settings := GetSettings(st.Contents());
    var notify := ListGroups(st.notify);
    var notifyGroups := GroupsFromStore(notify);
    var groups := ListGroups(st.groups);
    var monitorGroups := GroupsFromStore(groups);
    var servers := ListServers(st.servers);
    EveryServerListed(servers, db.servers);
    hide WellFormed, ListsMonitors, Lists, ServerEntries, GroupEntries, GetSettings, FileConfig, StoreConfig;
    var entries, monitors := ServersFromStore(servers, st.monitors);
    f := File(Some(settings), notifyGroups, monitorGroups, entries);
    l := Listing(notify, groups, servers, monitors);
    ExportIsStoreConfig(db, l);
  }

  lemma EveryServerListed(listing: seq<Server>, servers: map<string, Server>)
    requires ListsServers(listing, servers) && forall id | id in servers :: servers[id].id == id
    ensures forall id | id in servers :: exists i :: 0 <= i < |listing| && listing[i].id == id
  {
  }
}
