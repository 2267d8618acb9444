/** The parts of the cluster configuration that the orchestration code reads,
    as typed records. Keys the code reads with `d.get(k, default)` are
    `Option`s here; keys it reads with `d[k]` are plain fields. */
module Cluster {
  import opened Common
  import opened Strings
  import opened Dicts

  /** One entry of `aws.subnets`. */
  datatype Subnet = Subnet(subnetId: string, az: string)

  /** One entry of `cluster.<role>.nodes`. */
  datatype Node = Node(
    host: string,
    sshPort: nat,
    instanceId: Option<string>,
    subnetId: string,
    az: string,
    groups: Option<seq<string>>)

  /** `cluster.<role>`: the configured count, which the code keeps beside the
      node list and does not re-derive from it. */
  datatype Component = Component(count: int, nodes: seq<Node>, instanceType: string)

  /** A value for each of the four roles. */
  datatype PerRole<T> = PerRole(master: T, worker: T, api: T, alert: T)

  function At<T>(p: PerRole<T>, r: Role): T {
    match r
    case Master => p.master
    case Worker => p.worker
    case Api => p.api
    case Alert => p.alert
  }

  /** `config['cluster'][component] = c`: the other roles keep their value. */
  function With<T>(p: PerRole<T>, r: Role, c: T): (q: PerRole<T>)
    ensures At(q, r) == c
    ensures forall s :: s != r ==> At(q, s) == At(p, s)
  {
    match r
    case Master => p.(master := c)
    case Worker => p.(worker := c)
    case Api => p.(api := c)
    case Alert => p.(alert := c)
  }

  datatype HdfsSettings = HdfsSettings(
    namenodeHost: Option<string>,
    namenodePort: Option<nat>,
    user: Option<string>,
    uploadPath: Option<string>)

  /** `storage`; the whole block may be absent. */
  datatype Storage = Storage(
    kind: Option<string>,
    bucket: Option<string>,
    region: Option<string>,
    uploadPath: Option<string>,
    accessKeyId: Option<string>,
    secretAccessKey: Option<string>,
    endpoint: Option<string>,
    hdfs: Option<HdfsSettings>)

  datatype Database = Database(host: string, port: Option<nat>, username: string, password: string, name: string)

  /** `registry`, with the optional `retry` block's keys flattened. */
  datatype Registry = Registry(
    kind: string,
    servers: seq<string>,
    namespace: Option<string>,
    baseSleepTime: Option<nat>,
    maxSleepTime: Option<nat>,
    maxRetries: Option<nat>,
    sessionTimeout: Option<nat>,
    connectionTimeout: Option<nat>)

  /** `service_config.<role>`; the numeric tuning values are kept as the text
      they are printed as. */
  datatype ServiceSettings = ServiceSettings(
    maxCpuLoadAvg: Option<string>,
    reservedMemory: Option<string>,
    maxWaitingTime: Option<string>,
    port: Option<nat>)

  datatype HealthCheck = HealthCheck(
    path: Option<string>,
    interval: Option<nat>,
    timeout: Option<nat>,
    healthyThreshold: Option<nat>,
    unhealthyThreshold: Option<nat>)

  /** `service_config.api.load_balancer`. */
  datatype LoadBalancerSettings = LoadBalancerSettings(
    enabled: Option<bool>,
    subnets: seq<string>,
    scheme: Option<string>,
    listenerPort: Option<nat>,
    healthCheck: HealthCheck)

  /** `ec2_advanced.<role>`. */
  datatype Ec2Advanced = Ec2Advanced(rootVolumeSize: Option<nat>, rootVolumeType: Option<string>, tags: seq<Item<string>>)

  datatype Config = Config(
    region: string,
    vpcId: string,
    keyName: string,
    iamInstanceProfile: Option<string>,
    subnets: seq<Subnet>,
    securityGroups: PerRole<string>,
    cluster: PerRole<Component>,
    deployUser: string,
    installPath: string,
    version: string,
    downloadOnRemote: Option<bool>,
    downloadUrl: Option<string>,
    database: Database,
    registry: Registry,
    storage: Option<Storage>,
    services: PerRole<ServiceSettings>,
    loadBalancer: Option<LoadBalancerSettings>,
    ec2Advanced: PerRole<Ec2Advanced>)

  function Nodes(c: Config, r: Role): seq<Node> {
    At(c.cluster, r).nodes
  }

  function Hosts(nodes: seq<Node>): (hs: seq<string>)
    ensures |hs| == |nodes| && forall i :: 0 <= i < |nodes| ==> hs[i] == nodes[i].host
  {
    seq(|nodes|, i requires 0 <= i < |nodes| => nodes[i].host)
  }

  /** `config.get('storage', {}).get('type', 'LOCAL').upper()` */
  function StorageType(c: Config): string {
    if c.storage.Some? && c.storage.value.kind.Some? then Upper(c.storage.value.kind.value) else "LOCAL"
  }

  /** `config.get('storage', {})` */
  function StorageOf(c: Config): Storage {
    if c.storage.Some? then c.storage.value else Storage(None, None, None, None, None, None, None, None)
  }

  function HdfsOf(c: Config): HdfsSettings {
    if c.storage.Some? && c.storage.value.hdfs.Some? then c.storage.value.hdfs.value
    else HdfsSettings(None, None, None, None)
  }

  /** `hdfs://{namenode_host|localhost}:{namenode_port|8020}` */
  function DefaultFs(c: Config): string {
    "hdfs://" + OrDefault(HdfsOf(c).namenodeHost, "localhost") + ":" + NatToString(OrDefault(HdfsOf(c).namenodePort, 8020))
  }

  /** `service_config.api.load_balancer.enabled`, falsy when any level is absent. */
  predicate AlbEnabled(c: Config) {
    c.loadBalancer.Some? && c.loadBalancer.value.enabled == Some(true)
  }

  function OrDefault<T>(o: Option<T>, d: T): T {
    if o.Some? then o.value else d
  }

  /** `f"ds-{component}-{i}"`, the Name tag and the host name of a node. */
  function HostName(r: Role, i: nat): string {
    "ds-" + RoleName(r) + "-" + NatToString(i)
  }
}
