/** The configuration documents of the store, the entries of the import/export file, and the copying between them. */
module ConfigModel {
  import opened Options

  datatype Channel = Channel(kind: string, target: string, extra: map<string, string>)

  datatype AlertPolicy = AlertPolicy(
    enabled: bool, notifyGroupIds: seq<string>, onDown: bool, onRecover: bool, onWarning: bool, onCritical: bool,
    minIntervalSeconds: nat)

  datatype Ssh = Ssh(enabled: bool, host: string, port: nat, user: string)

  datatype CertificateInfo = CertificateInfo(
    subject: string, issuer: string, dnsNames: seq<string>, serialNumber: string,
    notBefore: Time, notAfter: Time, daysRemaining: int)

  // ---------- Stored documents ----------

  datatype Settings = Settings(siteName: string, statusPageTitle: string, updatedAt: Time)

  datatype GroupDoc =
    | NotifyGroup(id: string, name: string, description: string, channels: seq<Channel>, createdAt: Time,
        updatedAt: Time)
    | MonitorGroup(id: string, name: string, description: string, sortOrder: nat, policy: AlertPolicy,
                   createdAt: Time, updatedAt: Time)

  datatype Server = Server(
    id: string, name: string, host: string, environment: string, region: string, tags: seq<string>,
    sortOrder: nat, enabled: bool, ssh: Option<Ssh>,
    healthStatus: string, lastStatusChangeAt: Time, lastCheckAt: Time, createdAt: Time, updatedAt: Time)

  datatype Monitor = Monitor(
    id: string, serverId: string, groupIds: seq<string>, name: string, kind: string, enabled: bool,
    host: string, port: nat, url: string, verb: string, path: string, headers: map<string, string>,
    expectedStatusCodes: string, tlsVerify: bool, sniName: string, warningDays: nat, criticalDays: nat,
    intervalSeconds: nat, timeoutSeconds: nat, retries: nat,
    status: string, lastCheckAt: Time, lastStatusChangeAt: Time, certificate: Option<CertificateInfo>,
    createdAt: Time, updatedAt: Time)

  // ---------- File entries ----------

  datatype SettingsEntry = SettingsEntry(siteName: string, statusPageTitle: string)

  datatype GroupEntry =
    | NotifyEntry(id: string, name: string, description: string, channels: seq<Channel>)
    | MonitorGroupEntry(id: string, name: string, description: string, sortOrder: nat, policy: AlertPolicy)

  datatype MonitorEntry = MonitorEntry(
    id: string, groupIds: seq<string>, name: string, kind: string, enabled: bool,
    host: string, port: nat, url: string, verb: string, path: string, headers: map<string, string>,
    expectedStatusCodes: string, tlsVerify: bool, sniName: string, warningDays: nat, criticalDays: nat,
    intervalSeconds: nat, timeoutSeconds: nat, retries: nat)

  datatype ServerEntry = ServerEntry(
    id: string, name: string, host: string, environment: string, region: string, tags: seq<string>,
    sortOrder: nat, enabled: bool, ssh: Option<Ssh>, monitors: seq<MonitorEntry>)

  /** A decoded version-1 document. */
  datatype File = File(
    settings: Option<SettingsEntry>, notifyGroups: seq<GroupEntry>, monitorGroups: seq<GroupEntry>,
        servers: seq<ServerEntry>)

  /** Each list holds entries of its own type only. */
  predicate Typed(f: File) {
    && (forall i | 0 <= i < |f.notifyGroups| :: f.notifyGroups[i].NotifyEntry?)
    && (forall i | 0 <= i < |f.monitorGroups| :: f.monitorGroups[i].MonitorGroupEntry?)
  }

  /** The ids a group refers to: notify groups refer to nothing, monitor groups to their policy's notify groups. */
  function Refs(e: GroupEntry): seq<string> {
    if e.NotifyEntry? then [] else e.policy.notifyGroupIds
  }

  function DocRefs(d: GroupDoc): seq<string> {
    if d.NotifyGroup? then [] else d.policy.notifyGroupIds
  }

  // ---------- Copying ----------

  const ZERO: Time := 0

  function GroupToStore(e: GroupEntry): GroupDoc {
    match e
    case NotifyEntry(id, name, description, channels) => NotifyGroup(id, name, description, channels, ZERO, ZERO)
    case MonitorGroupEntry(id, name, description, sortOrder, policy) =>
      MonitorGroup(id, name, description, sortOrder, policy, ZERO, ZERO)
  }

  function GroupFromStore(d: GroupDoc): GroupEntry {
    match d
    case NotifyGroup(id, name, description, channels, _, _) => NotifyEntry(id, name, description, channels)
    case MonitorGroup(id, name, description, sortOrder, policy, _, _) =>
      MonitorGroupEntry(id, name, description, sortOrder, policy)
  }

  function ServerToStore(e: ServerEntry): Server {
    Server(e.id, e.name, e.host, e.environment, e.region, e.tags, e.sortOrder, e.enabled, e.ssh,
           "", ZERO, ZERO, ZERO, ZERO)
  }

  function ServerFromStore(s: Server, monitors: seq<MonitorEntry>): ServerEntry {
    ServerEntry(s.id, s.name, s.host, s.environment, s.region, s.tags, s.sortOrder, s.enabled, s.ssh, monitors)
  }

  function MonitorToStore(e: MonitorEntry, serverId: string): Monitor {
    Monitor(e.id, serverId, e.groupIds, e.name, e.kind, e.enabled, e.host, e.port, e.url, e.verb, e.path, e.headers,
            e.expectedStatusCodes, e.tlsVerify, e.sniName, e.warningDays, e.criticalDays,
            e.intervalSeconds, e.timeoutSeconds, e.retries, "", ZERO, ZERO, None, ZERO, ZERO)
  }

  function MonitorFromStore(m: Monitor): MonitorEntry {
    MonitorEntry(m.id, m.groupIds, m.name, m.kind, m.enabled, m.host, m.port, m.url, m.verb, m.path, m.headers,
                 m.expectedStatusCodes, m.tlsVerify, m.sniName, m.warningDays, m.criticalDays,
                 m.intervalSeconds, m.timeoutSeconds, m.retries)
  }

  // ---------- Monitor defaults ----------

  const STATUS_UNKNOWN := "Unknown"

  /** The white space that trimming removes. */
  predicate IsSpace(c: char) {
    c in "\t\n\U{000B}\U{000C}\r \U{0085}\U{00A0}\U{1680}\U{2028}\U{2029}\U{202F}\U{205F}\U{3000}"
        || '\U{2000}' <= c <= '\U{200A}'
  }

  predicate Blank(s: string) {
    forall i | 0 <= i < |s| :: IsSpace(s[i])
  }

  predicate IsHttp(kind: string) {
    kind == "url" || kind == "http" || kind == "https"
  }

  predicate IsTls(kind: string) {
    kind == "tls" || kind == "tls_port" || kind == "tls_certificate"
  }

  predicate ValidKind(kind: string) {
    kind == "" || kind == "tcp" || IsHttp(kind) || IsTls(kind)
  }

  function Or<T(==)>(value: T, zero: T, default: T): T {
    if value == zero then default else value
  }

  function ConfigDefaults(e: MonitorEntry): MonitorEntry {
    var kind := Or(e.kind, "", "tcp");
    e.(kind := kind,
       intervalSeconds := Or(e.intervalSeconds, 0, 60),
       timeoutSeconds := Or(e.timeoutSeconds, 0, 5),
       retries := Or(e.retries, 0, 3),
       verb := if IsHttp(kind) then Or(e.verb, "", "GET") else e.verb,
       expectedStatusCodes := if IsHttp(kind) && Blank(e.expectedStatusCodes) then "200" else e.expectedStatusCodes,
       port := if IsTls(kind) then Or(e.port, 0, 443) else e.port,
       warningDays := if IsTls(kind) then Or(e.warningDays, 0, 21) else e.warningDays,
       criticalDays := if IsTls(kind) then Or(e.criticalDays, 0, 7) else e.criticalDays)
  }

  /** The defaulting of a monitor, field by field in the order of the code. */
  method ApplyMonitorDefaults(m: Monitor) returns (r: Monitor)
    ensures r == Defaults(m)
  {
    hide Blank, IsHttp, IsTls, Defaults;
    var kind, interval, timeout, retries, status := m.kind, m.intervalSeconds, m.timeoutSeconds, m.retries, m.status;
    ghost var d := ConfigDefaults(MonitorFromStore(m));
    var verb, codes, port, warning, critical := m.verb, m.expectedStatusCodes, m.port, m.warningDays, m.criticalDays;
    if kind == "" {
      kind := "tcp";
    }
    assert kind == d.kind;
    if interval == 0 {
      interval := 60;
    }
    assert interval == d.intervalSeconds;
    if timeout == 0 {
      timeout := 5;
    }
    assert timeout == d.timeoutSeconds;
    if retries == 0 {
      retries := 3;
    }
    assert retries == d.retries;
    if status == "" {
      status := STATUS_UNKNOWN;
    }
    if verb == "" && IsHttp(kind) {
      verb := "GET";
    }
    assert verb == d.verb;
    if Blank(codes) && IsHttp(kind) {
      codes := "200";
    }
    assert codes == d.expectedStatusCodes;
    if IsTls(kind) {
      if port == 0 {
        port := 443;
      }
      if warning == 0 {
        warning := 21;
      }
      if critical == 0 {
        critical := 7;
      }
    }
    assert port == d.port && warning == d.warningDays && critical == d.criticalDays;
    DefaultsByField(m);
    r := m.(kind := kind, intervalSeconds := interval, timeoutSeconds := timeout, retries := retries, status := status,
            verb := verb, expectedStatusCodes := codes, port := port, warningDays := warning, criticalDays := critical);
  }

  lemma DefaultsByField(m: Monitor)
    ensures var d := ConfigDefaults(MonitorFromStore(m));
            Defaults(m) == m.(kind := d.kind, intervalSeconds := d.intervalSeconds, timeoutSeconds := d.timeoutSeconds,
                              retries := d.retries, status := Or(m.status, "", STATUS_UNKNOWN), verb := d.verb,
                              expectedStatusCodes := d.expectedStatusCodes, port := d.port,
                              warningDays := d.warningDays, criticalDays := d.criticalDays)
  {
  }

  /** Puts the configuration of an entry into a document, keeping the document's own fields. */
  function WithConfig(m: Monitor, e: MonitorEntry): Monitor {
    m.(id := e.id, groupIds := e.groupIds, name := e.name, kind := e.kind, enabled := e.enabled, host := e.host,
       port := e.port, url := e.url, verb := e.verb, path := e.path, headers := e.headers,
       expectedStatusCodes := e.expectedStatusCodes, tlsVerify := e.tlsVerify, sniName := e.sniName,
       warningDays := e.warningDays, criticalDays := e.criticalDays,
       intervalSeconds := e.intervalSeconds, timeoutSeconds := e.timeoutSeconds, retries := e.retries)
  }

  function Defaults(m: Monitor): Monitor {
    WithConfig(m, ConfigDefaults(MonitorFromStore(m))).(status := Or(m.status, "", STATUS_UNKNOWN))
  }

  /** The default of each field that is not set, where the kind needs it; a field that is set is kept. */
  lemma DefaultsOnlyFill(m: Monitor)
    ensures var d := Defaults(m);
            var http := d.kind in ["url", "http", "https"];
            var tls := d.kind in ["tls", "tls_port", "tls_certificate"];
            && d.kind == (if m.kind == "" then "tcp" else m.kind)
            && d.status == (if m.status == "" then "Unknown" else m.status)
            && d.intervalSeconds == (if m.intervalSeconds == 0 then 60 else m.intervalSeconds)
            && d.timeoutSeconds == (if m.timeoutSeconds == 0 then 5 else m.timeoutSeconds)
            && d.retries == (if m.retries == 0 then 3 else m.retries)
            && d.verb == (if m.verb == "" && http then "GET" else m.verb)
            && d.expectedStatusCodes == (if Blank(m.expectedStatusCodes) && http then "200" else m.expectedStatusCodes)
            && d.port == (if m.port == 0 && tls then 443 else m.port)
            && d.warningDays == (if m.warningDays == 0 && tls then 21 else m.warningDays)
            && d.criticalDays == (if m.criticalDays == 0 && tls then 7 else m.criticalDays)
    ensures var d := Defaults(m);
            d == m.(kind := d.kind, intervalSeconds := d.intervalSeconds, timeoutSeconds := d.timeoutSeconds,
                retries := d.retries, status := d.status, verb := d.verb,
                expectedStatusCodes := d.expectedStatusCodes, port := d.port,
                warningDays := d.warningDays, criticalDays := d.criticalDays)
  {
    DefaultsByField(m);
    hide Blank, Defaults;
  }

  /** Defaulting twice is defaulting once. */
  lemma DefaultsIdempotent(m: Monitor)
    ensures Defaults(Defaults(m)) == Defaults(m)
    ensures ConfigDefaults(ConfigDefaults(MonitorFromStore(m))) == ConfigDefaults(MonitorFromStore(m))
    ensures MonitorFromStore(Defaults(m)) == ConfigDefaults(MonitorFromStore(m))
  {
  }

  lemma ConfigDefaultsIdempotent(e: MonitorEntry)
    ensures ConfigDefaults(ConfigDefaults(e)) == ConfigDefaults(e)
  {
  }

  /** Each field goes into the field of its name, in both directions. */
  lemma CopyByField(g: GroupEntry, s: ServerEntry, m: MonitorEntry, serverId: string)
    ensures var d := GroupToStore(g);
            && d.NotifyGroup? == g.NotifyEntry? && d.id == g.id && d.name == g.name && d.description == g.description
            && (g.NotifyEntry? ==> d.channels == g.channels)
            && (g.MonitorGroupEntry? ==> d.sortOrder == g.sortOrder && d.policy == g.policy)
    ensures var d := ServerToStore(s);
            && d.id == s.id && d.name == s.name && d.host == s.host && d.environment == s.environment
            && d.region == s.region && d.tags == s.tags && d.sortOrder == s.sortOrder && d.enabled == s.enabled
            && d.ssh == s.ssh
    ensures var d := MonitorToStore(m, serverId);
            && d.id == m.id && d.serverId == serverId && d.groupIds == m.groupIds && d.name == m.name
            && d.kind == m.kind && d.enabled == m.enabled && d.host == m.host && d.port == m.port && d.url == m.url
            && d.verb == m.verb && d.path == m.path && d.headers == m.headers
            && d.expectedStatusCodes == m.expectedStatusCodes && d.tlsVerify == m.tlsVerify && d.sniName == m.sniName
            && d.warningDays == m.warningDays && d.criticalDays == m.criticalDays
            && d.intervalSeconds == m.intervalSeconds && d.timeoutSeconds == m.timeoutSeconds && d.retries == m.retries
  {
  }

  /** Nothing of the configuration is lost or moved to another field on the way into the store and back. */
  lemma CopyRoundTrips(g: GroupEntry, s: ServerEntry, m: MonitorEntry, serverId: string)
    ensures GroupFromStore(GroupToStore(g)) == g
    ensures ServerFromStore(ServerToStore(s), s.monitors) == s
    ensures MonitorFromStore(MonitorToStore(m, serverId)) == m
  {
  }
}
