/** The files generated for a DolphinScheduler 3.2.0 installation:
    `install_env.sh` (which machines get which server), the per-component
    `application.yaml`, `dolphinscheduler_env.sh` and `common.properties`.
    Each file is modelled by the values the configuration decides (node
    lists, the data source, the registry, the storage section, the ports);
    the fixed comment and tuning lines around them are constants. */
module ConfigGen {
  import opened Common
  import opened Strings
  import opened Cluster

  const DbParams := "useUnicode=true&characterEncoding=UTF-8&useSSL=false&allowPublicKeyRetrieval=true"

  // ---- shared pieces ----

  /** `jdbc:mysql://{host}:{port|3306}/{database}?{params}` */
  function JdbcUrl(db: Database): string {
    "jdbc:mysql://" + db.host + ":" + NatToString(OrDefault(db.port, 3306)) + "/" + db.name + "?" + DbParams
  }

  /** A database without a port is reached on MySQL's 3306. */
  lemma JdbcUrlDefaultPort(db: Database)
    requires db.port.None?
    ensures JdbcUrl(db) == "jdbc:mysql://" + db.host + ":3306/" + db.name + "?" + DbParams
  {
    assert NatToString(3306) == "3306" by {
      assert NatToString(3306) == NatToString(330) + [DigitChar(6)];
      assert NatToString(330) == NatToString(33) + [DigitChar(0)];
      assert NatToString(33) == NatToString(3) + [DigitChar(3)];
    }
  }

  /** `','.join(items)` */
  function CommaList(items: seq<string>): string {
    Join(items, ",")
  }

  /** A comma list of items without commas reads back as the items: the
      ZooKeeper connect string names each server, `ips` each machine. */
  lemma CommaListSplits(items: seq<string>)
    requires |items| >= 1
    requires forall i :: 0 <= i < |items| ==> ',' !in items[i]
    ensures Split(CommaList(items), ',') == items
  {
    assert "," == [','];
    SplitJoin(items, ',');
  }

  datatype Datasource = Datasource(url: string, username: string, password: string)

  function DatasourceOf(c: Config): (d: Datasource)
    ensures d.url == JdbcUrl(c.database)
    ensures d.username == c.database.username && d.password == c.database.password
  {
    Datasource(JdbcUrl(c.database), c.database.username, c.database.password)
  }

  /** The `registry.zookeeper` block. */
  datatype RegistryBlock = RegistryBlock(
    kind: string,
    namespace: string,
    connectString: string,
    baseSleepTime: nat,
    maxSleepTime: nat,
    maxRetries: nat,
    sessionTimeout: nat,
    connectionTimeout: nat)

  /** The registry as configured, each absent key at its default. */
  function RegistryOf(c: Config): (b: RegistryBlock)
    ensures b.kind == c.registry.kind
    ensures b.connectString == CommaList(c.registry.servers)
    ensures b.namespace == OrDefault(c.registry.namespace, "dolphinscheduler")
    ensures c.registry.baseSleepTime.None? ==> b.baseSleepTime == 1000
    ensures c.registry.maxSleepTime.None? ==> b.maxSleepTime == 3000
    ensures c.registry.maxRetries.None? ==> b.maxRetries == 5
    ensures c.registry.sessionTimeout.None? ==> b.sessionTimeout == 60000
    ensures c.registry.connectionTimeout.None? ==> b.connectionTimeout == 30000
  {
    var r := c.registry;
    RegistryBlock(r.kind, OrDefault(r.namespace, "dolphinscheduler"), CommaList(r.servers),
      OrDefault(r.baseSleepTime, 1000), OrDefault(r.maxSleepTime, 3000), OrDefault(r.maxRetries, 5),
      OrDefault(r.sessionTimeout, 60000), OrDefault(r.connectionTimeout, 30000))
  }

  /** The resource storage section. */
  datatype StorageBlock =
    | S3Block(region: string, bucket: string, folder: string, accessKeyId: string, secretAccessKey: string, endpoint: string)
    | HdfsBlock(defaultFs: string, uploadPath: string, user: string)
    | LocalBlock(baseDir: string)

  const YamlLocalDir := "/opt/dolphinscheduler/resources"
  const PropertiesLocalDir := "/tmp/dolphinscheduler"

  /** The section is picked from the upper-cased storage type: S3, HDFS, and
      anything else (an absent type included) is local storage, kept under
      `localDir`. Absent keys take their defaults. */
  function StorageBlockFor(c: Config, localDir: string): (b: StorageBlock)
    ensures b.S3Block? <==> StorageType(c) == "S3"
    ensures b.HdfsBlock? <==> StorageType(c) == "HDFS"
    ensures b.LocalBlock? <==> StorageType(c) != "S3" && StorageType(c) != "HDFS"
    ensures b.LocalBlock? ==> b.baseDir == localDir
    ensures b.S3Block? ==>
      var region := OrDefault(StorageOf(c).region, "us-east-2");
      b.region == region &&
      b.bucket == OrDefault(StorageOf(c).bucket, "dolphinscheduler") &&
      b.folder == OrDefault(StorageOf(c).uploadPath, "/dolphinscheduler") &&
      b.endpoint == OrDefault(StorageOf(c).endpoint, "https://s3." + region + ".amazonaws.com")
    ensures b.HdfsBlock? ==>
      b.defaultFs == DefaultFs(c) &&
      b.uploadPath == OrDefault(HdfsOf(c).uploadPath, "/dolphinscheduler") &&
      b.user == OrDefault(HdfsOf(c).user, "hadoop")
  {
    var s := StorageOf(c);
    var kind := StorageType(c);
    if kind == "S3" then
      var region := OrDefault(s.region, "us-east-2");
      S3Block(region, OrDefault(s.bucket, "dolphinscheduler"), OrDefault(s.uploadPath, "/dolphinscheduler"),
        OrDefault(s.accessKeyId, ""), OrDefault(s.secretAccessKey, ""),
        OrDefault(s.endpoint, "https://s3." + region + ".amazonaws.com"))
    else if kind == "HDFS" then
      var h := HdfsOf(c);
      HdfsBlock(DefaultFs(c), OrDefault(h.uploadPath, "/dolphinscheduler"), OrDefault(h.user, "hadoop"))
    else LocalBlock(localDir)
  }

  // ---- application.yaml ----

  /** The component-specific section. */
  datatype ServerBlock =
    | MasterBlock(listenPort: nat, maxCpuLoadAvg: string, reservedMemory: string, maxWaitingTime: string)
    | WorkerBlock(listenPort: nat, maxCpuLoadAvg: string, reservedMemory: string, maxWaitingTime: string)
    | ApiBlock(port: nat)
    | AlertBlock(serverPort: nat, alertPort: nat)

  datatype AppYaml = AppYaml(
    datasource: Option<Datasource>,
    registry: RegistryBlock,
    storage: StorageBlock,
    server: Option<ServerBlock>)

  /** `service_config.get(component, {})` */
  function ServiceOf(c: Config, component: string): ServiceSettings {
    if component == "master" then c.services.master
    else if component == "worker" then c.services.worker
    else if component == "api" then c.services.api
    else if component == "alert" then c.services.alert
    else ServiceSettings(None, None, None, None)
  }

  predicate UsesDatabase(component: string) {
    component == "master" || component == "api" || component == "alert"
  }

  /** `generate_application_yaml_v320(config, component)`. */
  function ApplicationYaml(c: Config, component: string): (y: AppYaml)
    ensures y.datasource.Some? <==> UsesDatabase(component)
    ensures y.datasource.Some? ==> y.datasource.value == DatasourceOf(c)
    ensures y.registry == RegistryOf(c)
    ensures y.storage == StorageBlockFor(c, YamlLocalDir)
    ensures component == "master" ==> y.server.Some? && y.server.value.MasterBlock? && y.server.value.listenPort == 5678
    ensures component == "worker" ==> y.server.Some? && y.server.value.WorkerBlock? && y.server.value.listenPort == 1234
    ensures component == "api" ==> y.server == Some(ApiBlock(OrDefault(c.services.api.port, 12345)))
    ensures component == "alert" ==> y.server == Some(AlertBlock(50052, 50052))
    ensures y.server.None? <==> component !in {"master", "worker", "api", "alert"}
  {
    var s := ServiceOf(c, component);
    var server :=
      if component == "master" || component == "worker" then
        var load := OrDefault(s.maxCpuLoadAvg, "3");
        var memory := OrDefault(s.reservedMemory, "0.1");
        var waiting := OrDefault(s.maxWaitingTime, "150s");
        Some(if component == "master" then MasterBlock(5678, load, memory, waiting) else WorkerBlock(1234, load, memory, waiting))
      else if component == "api" then Some(ApiBlock(OrDefault(s.port, 12345)))
      else if component == "alert" then Some(AlertBlock(50052, 50052))
      else None;
    AppYaml(
      if UsesDatabase(component) then Some(DatasourceOf(c)) else None,
      RegistryOf(c),
      StorageBlockFor(c, YamlLocalDir),
      server)
  }

  const SpringHead := "spring:\n  profiles:\n    active: mysql\n  banner:\n    charset: UTF-8\n  jackson:\n    time-zone: UTC\n    date-format: \"yyyy-MM-dd HH:mm:ss\"\n"
  const HikariPool := "    hikari:\n      pool-name: DolphinScheduler\n"
  const MasterFixed := "  heartbeat-interval: 10s\n"
  const WorkerFixed := "  heartbeat-interval: 10s\n  exec-threads: 100\n"
  const ApiFixed := "  servlet:\n    context-path: /dolphinscheduler\n"

  function DatasourceText(d: Datasource): string {
    "  datasource:\n    driver-class-name: com.mysql.cj.jdbc.Driver\n    url: " + d.url +
      "\n    username: " + d.username + "\n    password: " + d.password + "\n" + HikariPool
  }

  function RegistryText(r: RegistryBlock): string {
    "registry:\n  type: " + r.kind + "\n  zookeeper:\n    namespace: " + r.namespace +
      "\n    connect-string: " + r.connectString +
      "\n    retry-policy:\n      base-sleep-time: " + NatToString(r.baseSleepTime) +
      "ms\n      max-sleep: " + NatToString(r.maxSleepTime) +
      "ms\n      max-retries: " + NatToString(r.maxRetries) +
      "\n    session-timeout: " + NatToString(r.sessionTimeout) +
      "ms\n    connection-timeout: " + NatToString(r.connectionTimeout) + "ms\n\n"
  }

  function StorageText(b: StorageBlock): string {
    match b
    case S3Block(region, bucket, folder, key, secret, endpoint) =>
      "resource-storage:\n  type: S3\n  s3:\n    region: " + region + "\n    bucket-name: " + bucket +
        "\n    folder: " + folder + "\n    access-key-id: " + key + "\n    secret-access-key: " + secret +
        "\n    endpoint: " + endpoint + "\n\n"
    case HdfsBlock(fs, path, user) =>
      "resource-storage:\n  type: HDFS\n  hdfs:\n    fs-default-name: " + fs + "\n    resource-upload-path: " + path +
        "\n    hadoop.user.name: " + user + "\n\n"
    case LocalBlock(dir) =>
      "resource-storage:\n  type: LOCAL\n  local:\n    base-dir: " + dir + "\n\n"
  }

  function ServerText(b: ServerBlock): string {
    match b
    case MasterBlock(port, load, memory, waiting) =>
      "master:\n  listen-port: " + NatToString(port) + "\n  max-cpu-load-avg: " + load +
        "\n  reserved-memory: " + memory + "\n  max-waiting-time: " + waiting + "\n" + MasterFixed
    case WorkerBlock(port, load, memory, waiting) =>
      "worker:\n  listen-port: " + NatToString(port) + "\n  max-cpu-load-avg: " + load +
        "\n  reserved-memory: " + memory + "\n  max-waiting-time: " + waiting + "\n" + WorkerFixed
    case ApiBlock(port) =>
      "server:\n  port: " + NatToString(port) + "\n" + ApiFixed
    case AlertBlock(server, alert) =>
      "server:\n  port: " + NatToString(server) + "\n\nalert:\n  port: " + NatToString(alert) + "\n"
  }

  /** The YAML text, section after section in the order the generator appends
      them. */
  function RenderYaml(y: AppYaml): string {
    SpringHead + (if y.datasource.Some? then DatasourceText(y.datasource.value) else "") + "\n" +
      RegistryText(y.registry) + StorageText(y.storage) +
      (if y.server.Some? then ServerText(y.server.value) else "")
  }

  // ---- dolphinscheduler_env.sh and common.properties ----

  /** The configured exports of `dolphinscheduler_env.sh`. */
  datatype EnvExports = EnvExports(datasource: Datasource, connectString: string)

  function DolphinSchedulerEnv(c: Config): EnvExports {
    EnvExports(DatasourceOf(c), CommaList(c.registry.servers))
  }

  const EnvHead := "#!/bin/bash\nexport JAVA_HOME=${JAVA_HOME:-/usr/lib/jvm/java-1.8.0}\nexport DATABASE=${DATABASE:-mysql}\nexport SPRING_PROFILES_ACTIVE=${DATABASE}\n"

  function RenderEnv(e: EnvExports): string {
    EnvHead + "export SPRING_DATASOURCE_URL=\"" + e.datasource.url + "\"\nexport SPRING_DATASOURCE_USERNAME=" +
      e.datasource.username + "\nexport SPRING_DATASOURCE_PASSWORD=" + e.datasource.password +
      "\nexport REGISTRY_ZOOKEEPER_CONNECT_STRING=${REGISTRY_ZOOKEEPER_CONNECT_STRING:-" + e.connectString + "}\n"
  }

  /** The configured parts of `common.properties`. */
  datatype CommonProps = CommonProps(storage: StorageBlock, datasource: Datasource, registry: RegistryBlock)

  /** `generate_common_properties_v320(config)`. The registry type is
      written as `zookeeper` whatever the configuration says; every other
      registry setting is read from the configuration with the defaults
      `application.yaml` uses. */
  function CommonPropertiesOf(c: Config): (p: CommonProps)
    ensures p.storage == StorageBlockFor(c, PropertiesLocalDir)
    ensures p.datasource == DatasourceOf(c)
    ensures p.registry.kind == "zookeeper"
    ensures p.registry.(kind := c.registry.kind) == RegistryOf(c)
  {
    CommonProps(StorageBlockFor(c, PropertiesLocalDir), DatasourceOf(c), RegistryOf(c).(kind := "zookeeper"))
  }

  /** The two storage descriptions agree with each other except where local
      storage lives. */
  predicate SameStorage(a: StorageBlock, b: StorageBlock) {
    if a.LocalBlock? then b.LocalBlock? else a == b
  }

  /** Every file the generator writes names the same database and the same
      ZooKeeper servers and settings, and chooses the same storage. The one
      place where a component's `application.yaml` and `common.properties`
      disagree is the registry type: they differ exactly when the
      configured type is not `zookeeper`. */
  lemma GeneratedFilesAgree(c: Config, component: string)
    requires UsesDatabase(component)
    ensures var y := ApplicationYaml(c, component);
      var e := DolphinSchedulerEnv(c);
      var p := CommonPropertiesOf(c);
      y.datasource == Some(e.datasource) && p.datasource == e.datasource &&
      y.registry.connectString == e.connectString &&
      p.registry.(kind := y.registry.kind) == y.registry &&
      (p.registry.kind != y.registry.kind <==> c.registry.kind != "zookeeper") &&
      SameStorage(y.storage, p.storage)
    ensures SameStorage(ApplicationYaml(c, "worker").storage, CommonPropertiesOf(c).storage)
  {
  }

  // ---- install_env.sh ----

  /** The machine lists and settings of `install_env.sh`. */
  datatype InstallEnv = InstallEnv(
    ips: seq<string>,
    masters: seq<string>,
    workers: seq<string>,
    alertServer: string,
    apiServers: seq<string>,
    installPath: string,
    deployUser: string,
    zkRoot: string)

  /** `f"{ip}:{','.join(node.get('groups', ['default']))}"` */
  function WorkerEntry(n: Node): string {
    n.host + ":" + CommaList(OrDefault(n.groups, ["default"]))
  }

  function WorkerEntries(nodes: seq<Node>): (es: seq<string>)
    ensures |es| == |nodes| && forall i :: 0 <= i < |nodes| ==> es[i] == WorkerEntry(nodes[i])
  {
    seq(|nodes|, i requires 0 <= i < |nodes| => WorkerEntry(nodes[i]))
  }

  /** `generate_install_env_v320(config)`: the alert list's first node is
      read after the other lists are collected, and raises when there is
      none. */
  function InstallEnvOf(c: Config): Result<InstallEnv> {
    var m := Hosts(Nodes(c, Master));
    var w := Hosts(Nodes(c, Worker));
    var a := Hosts(Nodes(c, Api));
    if Nodes(c, Alert) == [] then Err(IndexOutOfRange)
    else
      var alert := Nodes(c, Alert)[0].host;
      Ok(InstallEnv(m + w + a + [alert], m, WorkerEntries(Nodes(c, Worker)), alert, a,
        c.installPath, c.deployUser, OrDefault(c.registry.namespace, "/dolphinscheduler")))
  }

  /** The file exists iff an alert node is configured. `ips` lists the
      masters, the workers, the API servers and the first alert node, in
      that order, so every host named in another list is one of `ips`; each
      worker carries its groups, `default` when it has none. */
  lemma InstallEnvLists(c: Config)
    ensures InstallEnvOf(c).Ok? <==> |Nodes(c, Alert)| > 0
    ensures InstallEnvOf(c).Err? ==> InstallEnvOf(c).error == IndexOutOfRange
    ensures InstallEnvOf(c).Ok? ==>
      var e := InstallEnvOf(c).value;
      var nm := |Nodes(c, Master)|;
      var nw := |Nodes(c, Worker)|;
      var na := |Nodes(c, Api)|;
      |e.ips| == nm + nw + na + 1 &&
      e.ips[..nm] == e.masters && e.masters == Hosts(Nodes(c, Master)) &&
      e.ips[nm..nm + nw] == Hosts(Nodes(c, Worker)) &&
      e.ips[nm + nw..nm + nw + na] == e.apiServers && e.apiServers == Hosts(Nodes(c, Api)) &&
      e.ips[nm + nw + na] == e.alertServer && e.alertServer == Nodes(c, Alert)[0].host &&
      (forall h :: h in e.masters ==> h in e.ips) &&
      (forall h :: h in e.apiServers ==> h in e.ips) &&
      e.alertServer in e.ips &&
      |e.workers| == nw &&
      (forall i :: 0 <= i < nw ==>
        e.workers[i] == Nodes(c, Worker)[i].host + ":" + CommaList(OrDefault(Nodes(c, Worker)[i].groups, ["default"])) &&
        Nodes(c, Worker)[i].host in e.ips)
  {
    if InstallEnvOf(c).Ok? {
      var e := InstallEnvOf(c).value;
      var m := Hosts(Nodes(c, Master));
      var w := Hosts(Nodes(c, Worker));
      var a := Hosts(Nodes(c, Api));
      assert e.ips == m + w + a + [e.alertServer];
      assert e.ips[..|m|] == m;
      assert e.ips[|m|..|m| + |w|] == w;
      assert e.ips[|m| + |w|..|m| + |w| + |a|] == a;
      forall i | 0 <= i < |w| ensures Nodes(c, Worker)[i].host in e.ips {
        assert e.ips[|m| + i] == w[i];
      }
      forall h | h in a ensures h in e.ips {
        var i :| 0 <= i < |a| && a[i] == h;
        assert e.ips[|m| + |w| + i] == h;
      }
    }
  }

  /** The collecting loops of `generate_install_env_v320`. */
  method CollectInstallEnv(c: Config) returns (r: Result<InstallEnv>)
    ensures r == InstallEnvOf(c)
  {
    var all: seq<string> := [];
    var masters: seq<string> := [];
    var workers: seq<string> := [];
    var apis: seq<string> := [];
    var ms := Nodes(c, Master);
    var ws := Nodes(c, Worker);
    var apiNodes := Nodes(c, Api);
    for i := 0 to |ms|
      invariant masters == Hosts(ms[..i]) && all == masters
    {
      assert ms[..i + 1] == ms[..i] + [ms[i]];
      all := all + [ms[i].host];
      masters := masters + [ms[i].host];
    }
    assert ms[..|ms|] == ms;
    for i := 0 to |ws|
      invariant workers == WorkerEntries(ws[..i])
      invariant all == Hosts(ms) + Hosts(ws[..i])
    {
      assert ws[..i + 1] == ws[..i] + [ws[i]];
      all := all + [ws[i].host];
      workers := workers + [WorkerEntry(ws[i])];
    }
    assert ws[..|ws|] == ws;
    for i := 0 to |apiNodes|
      invariant apis == Hosts(apiNodes[..i])
      invariant all == Hosts(ms) + Hosts(ws) + apis
    {
      assert apiNodes[..i + 1] == apiNodes[..i] + [apiNodes[i]];
      all := all + [apiNodes[i].host];
      apis := apis + [apiNodes[i].host];
    }
    assert apiNodes[..|apiNodes|] == apiNodes;
    if Nodes(c, Alert) == [] {
      return Err(IndexOutOfRange);
    }
    var alert := Nodes(c, Alert)[0].host;
    all := all + [alert];
    r := Ok(InstallEnv(all, masters, workers, alert, apis, c.installPath, c.deployUser,
      OrDefault(c.registry.namespace, "/dolphinscheduler")));
  }

  const InstallEnvHead := "#!/bin/bash\n"

  /** One `key="value"` line per setting, `sshPort` fixed at 22. */
  function InstallEnvLines(e: InstallEnv): seq<string> {
    ["ips=\"" + CommaList(e.ips) + "\"",
     "sshPort=\"22\"",
     "masters=\"" + CommaList(e.masters) + "\"",
     "workers=\"" + CommaList(e.workers) + "\"",
     "alertServer=\"" + e.alertServer + "\"",
     "apiServers=\"" + CommaList(e.apiServers) + "\"",
     "installPath=\"" + e.installPath + "\"",
     "deployUser=\"" + e.deployUser + "\"",
     "zkRoot=\"" + e.zkRoot + "\""]
  }

  function RenderInstallEnv(e: InstallEnv): string {
    InstallEnvHead + Join(InstallEnvLines(e), "\n") + "\n"
  }
}
