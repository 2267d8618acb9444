/** Starting, stopping, checking and restarting the DolphinScheduler daemons
    over SSH, and patching the API servers for HDFS storage. Each operation's
    outcome is a function of the oracle and the world; its effect is stated
    against a plan of the commands and pauses the source prescribes. */
module Services {
  import opened Common
  import opened Strings
  import opened Dicts
  import opened Cluster
  import opened Env
  import opened Ssh
  import opened Sessions

  const DaemonScript := "bin/dolphinscheduler-daemon.sh "
  const FetchHadoopConfig := "download_hadoop_config_from_emr"
  const ShowHdfsKeys := "grep -E \"resource.storage.type|resource.hdfs.fs.defaultFS|resource.hdfs.root.user\" "
  const StorageTypeKey := "resource.storage.type"
  const UploadPathKey := "resource.storage.upload.base.path"
  const HdfsUserKey := "resource.hdfs.root.user"
  const DefaultFsKey := "resource.hdfs.fs.defaultFS"

  /** `cd {install_path} && sudo -u {deploy_user} bash bin/dolphinscheduler-daemon.sh {action} {role}-server` */
  function DaemonCommand(c: Config, action: string, r: Role): string {
    "cd " + c.installPath + " && sudo -u " + c.deployUser + " bash " + DaemonScript +
      action + " " + RoleName(r) + "-server"
  }

  /** The status query runs as the login user. */
  function StatusCommand(c: Config, r: Role): string {
    "cd " + c.installPath + " && bash " + DaemonScript + "status " + RoleName(r) + "-server"
  }

  // ---- HDFS patch of the API servers ----

  /** The address of the HDFS file system: the one read from the cluster's
      `core-site.xml` when fetching succeeded, otherwise built from the
      configured name node. */
  function HdfsAddress(fetched: Option<string>, c: Config): string {
    if fetched.Some? then fetched.value else DefaultFs(c)
  }

  /** With nothing fetched and nothing configured, the address is the local
      default name node. */
  lemma HdfsAddressDefaults(c: Config)
    requires HdfsOf(c).namenodeHost.None? && HdfsOf(c).namenodePort.None?
    ensures HdfsAddress(None, c) == "hdfs://localhost:8020"
  {
    assert NatToString(8020) == "8020" by {
      assert NatToString(8020) == NatToString(802) + [DigitChar(0)];
      assert NatToString(802) == NatToString(80) + [DigitChar(2)];
      assert NatToString(80) == NatToString(8) + [DigitChar(0)];
    }
  }

  /** A `sed -i` line that sets one key of `common.properties`. */
  function SetProperty(file: string, key: string, value: string): string {
    "sudo sed -i 's|" + key + "=.*|" + key + "=" + value + "|g' " + file
  }

  function CommonProperties(c: Config): string {
    c.installPath + "/api-server/conf/common.properties"
  }

  /** The patch script: storage type, upload path, HDFS user and file system
      address, then a grep that shows the result. */
  function PatchScript(c: Config, address: string): string {
    var file := CommonProperties(c);
    Join([
      SetProperty(file, StorageTypeKey, "HDFS"),
      SetProperty(file, UploadPathKey, OrDefault(HdfsOf(c).uploadPath, "/dolphinscheduler")),
      SetProperty(file, HdfsUserKey, OrDefault(HdfsOf(c).user, "hadoop")),
      SetProperty(file, DefaultFsKey, address),
      "echo \"=== HDFS configuration ===\"",
      ShowHdfsKeys + file], "\n")
  }

  /** Stop, three seconds, start: the API server restart inside the patch. */
  function ApiRestartScript(c: Config): string {
    var daemon := "sudo -u " + c.deployUser + " " + c.installPath + "/" + DaemonScript;
    Join([daemon + "stop api-server", "sleep 3", daemon + "start api-server"], "\n")
  }

  function HdfsSteps(c: Config, address: string): seq<Step> {
    [Run(PatchScript(c, address)), Run(ApiRestartScript(c)), Pause(5)]
  }

  /** `apply_hdfs_config_to_api_servers`: fetch the cluster's Hadoop
      configuration (a call outside this model), then patch and restart each
      API server in turn. */
  function ApplyHdfsSpec(o: Oracle, w: World, c: Config): Out<bool> {
    var w1 := Emit(w, Local(FetchHadoopConfig, o.emrHdfsAddress.Some?));
    AsTrue(OnHostsSpec(o, w1, RoleHosts(c, Api), HdfsSteps(c, HdfsAddress(o.emrHdfsAddress, c))))
  }

  method ApplyHdfsConfigToApiServers(o: Oracle, w: World, c: Config) returns (w': World, r: Result<bool>)
    ensures Out(w', r) == ApplyHdfsSpec(o, w, c)
  {
    var w1 := Emit(w, Local(FetchHadoopConfig, o.emrHdfsAddress.Some?));
    var address := HdfsAddress(o.emrHdfsAddress, c);
    var u;
    w', u := OnHosts(o, w1, RoleHosts(c, Api), HdfsSteps(c, address));
    r := if u.Err? then Err(u.error) else Ok(true);
  }

  /** Every API server gets the same patch, naming the fetched or the fallback
      address, and is restarted after it; a failure stops the rest. */
  lemma ApplyHdfsActs(o: Oracle, w: World, c: Config)
    ensures var r := ApplyHdfsSpec(o, w, c);
      Follows(w, r.world, r.result.Ok?, HostsPlan(RoleHosts(c, Api), HdfsSteps(c, HdfsAddress(o.emrHdfsAddress, c))))
  {
    var e := Local(FetchHadoopConfig, o.emrHdfsAddress.Some?);
    var w1 := Emit(w, e);
    EmitActs(w, e);
    var steps := HdfsSteps(c, HdfsAddress(o.emrHdfsAddress, c));
    OnHostsActs(o, w1, RoleHosts(c, Api), steps);
    var r := OnHostsSpec(o, w1, RoleHosts(c, Api), steps);
    FollowsThen(w, w1, r.world, r.result.Ok?, [], HostsPlan(RoleHosts(c, Api), steps));
  }

  // ---- start_services ----

  /** Each start is followed by a pause: five seconds for a master, three for
      a worker or an API server, none for the alert server. */
  function StartSteps(c: Config, r: Role): seq<Step> {
    match r
    case Master => [Run(DaemonCommand(c, "start", Master)), Pause(5)]
    case Worker => [Run(DaemonCommand(c, "start", Worker)), Pause(3)]
    case Api => [Run(DaemonCommand(c, "start", Api)), Pause(3)]
    case Alert => [Run(DaemonCommand(c, "start", Alert))]
  }

  function RoleHosts(c: Config, r: Role): seq<string> {
    Hosts(Nodes(c, r))
  }

  /** The first alert node's plan; none when there is no alert node. */
  function AlertPlan(c: Config, steps: seq<Step>): seq<Act> {
    if |Nodes(c, Alert)| == 0 then [] else PlanActs(Nodes(c, Alert)[0].host, steps)
  }

  function HdfsPlan(o: Oracle, c: Config): seq<Act> {
    if StorageType(c) == "HDFS" then HostsPlan(RoleHosts(c, Api), HdfsSteps(c, HdfsAddress(o.emrHdfsAddress, c)))
    else []
  }

  /** After the API servers: the HDFS patch when the storage type is HDFS,
      then the first alert node. */
  function StartTailSpec(o: Oracle, w: World, c: Config): Out<bool> {
    var h := if StorageType(c) == "HDFS" then ApplyHdfsSpec(o, w, c) else Out(w, Ok(true));
    if h.result.Err? then h
    else if |Nodes(c, Alert)| == 0 then Out(h.world, Err(IndexOutOfRange))
    else AsTrue(Session(o, h.world, Nodes(c, Alert)[0].host, StartSteps(c, Alert)))
  }

  function TailPlan(o: Oracle, c: Config): seq<Act> {
    HdfsPlan(o, c) + AlertPlan(c, StartSteps(c, Alert))
  }

  /** From the API servers on. */
  function StartApisSpec(o: Oracle, w: World, c: Config): Out<bool> {
    var a := OnHostsSpec(o, w, RoleHosts(c, Api), StartSteps(c, Api));
    if a.result.Err? then AsTrue(a) else StartTailSpec(o, a.world, c)
  }

  function ApisPlan(o: Oracle, c: Config): seq<Act> {
    HostsPlan(RoleHosts(c, Api), StartSteps(c, Api)) + TailPlan(o, c)
  }

  /** From the workers on. */
  function StartWorkersSpec(o: Oracle, w: World, c: Config): Out<bool> {
    var k := OnHostsSpec(o, w, RoleHosts(c, Worker), StartSteps(c, Worker));
    if k.result.Err? then AsTrue(k) else StartApisSpec(o, k.world, c)
  }

  function WorkersPlan(o: Oracle, c: Config): seq<Act> {
    HostsPlan(RoleHosts(c, Worker), StartSteps(c, Worker)) + ApisPlan(o, c)
  }

  /** `start_services`: masters, ten seconds for them to settle, workers, API
      servers, the HDFS patch, the alert server; the first failure re-raises. */
  function StartServicesSpec(o: Oracle, w: World, c: Config): Out<bool> {
    var m := OnHostsSpec(o, w, RoleHosts(c, Master), StartSteps(c, Master));
    if m.result.Err? then AsTrue(m) else StartWorkersSpec(o, SleepFor(m.world, 10), c)
  }

  /** The order the source prescribes for starting a cluster. */
  function StartPlan(o: Oracle, c: Config): seq<Act> {
    HostsPlan(RoleHosts(c, Master), StartSteps(c, Master)) + ([Wait(10)] + WorkersPlan(o, c))
  }

  method StartServices(o: Oracle, w: World, c: Config) returns (w': World, r: Result<bool>)
    ensures Out(w', r) == StartServicesSpec(o, w, c)
  {
    var u;
    w', u := OnHosts(o, w, RoleHosts(c, Master), StartSteps(c, Master));
    if u.Err? {
      return w', Err(u.error);
    }
    w', u := OnHosts(o, SleepFor(w', 10), RoleHosts(c, Worker), StartSteps(c, Worker));
    if u.Err? {
      return w', Err(u.error);
    }
    w', u := OnHosts(o, w', RoleHosts(c, Api), StartSteps(c, Api));
    if u.Err? {
      return w', Err(u.error);
    }
    assert StartServicesSpec(o, w, c) == StartTailSpec(o, w', c);
    if StorageType(c) == "HDFS" {
      var h;
      w', h := ApplyHdfsConfigToApiServers(o, w', c);
      if h.Err? {
        return w', h;
      }
    }
    if |Nodes(c, Alert)| == 0 {
      return w', Err(IndexOutOfRange);
    }
    var s := Session(o, w', Nodes(c, Alert)[0].host, StartSteps(c, Alert));
    w', r := s.world, if s.result.Err? then Err(s.result.error) else Ok(true);
  }

  lemma StartTailActs(o: Oracle, w: World, c: Config)
    ensures var r := StartTailSpec(o, w, c);
      Follows(w, r.world, r.result.Ok?, TailPlan(o, c)) &&
      (|Nodes(c, Alert)| == 0 ==> r.result.Err?)
  {
    var h := if StorageType(c) == "HDFS" then ApplyHdfsSpec(o, w, c) else Out(w, Ok(true));
    if StorageType(c) == "HDFS" {
      ApplyHdfsActs(o, w, c);
    } else {
      FollowsNothing(w, true);
    }
    assert Follows(w, h.world, h.result.Ok?, HdfsPlan(o, c));
    if h.result.Err? {
      FollowsStop(w, h.world, HdfsPlan(o, c), AlertPlan(c, StartSteps(c, Alert)));
    } else if |Nodes(c, Alert)| == 0 {
      FollowsStop(w, h.world, HdfsPlan(o, c), []);
    } else {
      var host := Nodes(c, Alert)[0].host;
      SessionActs(o, h.world, host, StartSteps(c, Alert));
      var s := Session(o, h.world, host, StartSteps(c, Alert));
      FollowsThen(w, h.world, s.world, s.result.Ok?, HdfsPlan(o, c), AlertPlan(c, StartSteps(c, Alert)));
    }
  }

  lemma StartApisActs(o: Oracle, w: World, c: Config)
    ensures var r := StartApisSpec(o, w, c);
      Follows(w, r.world, r.result.Ok?, ApisPlan(o, c)) &&
      (|Nodes(c, Alert)| == 0 ==> r.result.Err?)
  {
    var pa := HostsPlan(RoleHosts(c, Api), StartSteps(c, Api));
    var a := OnHostsSpec(o, w, RoleHosts(c, Api), StartSteps(c, Api));
    OnHostsActs(o, w, RoleHosts(c, Api), StartSteps(c, Api));
    if a.result.Err? {
      FollowsStop(w, a.world, pa, TailPlan(o, c));
    } else {
      var t := StartTailSpec(o, a.world, c);
      StartTailActs(o, a.world, c);
      FollowsThen(w, a.world, t.world, t.result.Ok?, pa, TailPlan(o, c));
    }
  }

  lemma StartWorkersActs(o: Oracle, w: World, c: Config)
    ensures var r := StartWorkersSpec(o, w, c);
      Follows(w, r.world, r.result.Ok?, WorkersPlan(o, c)) &&
      (|Nodes(c, Alert)| == 0 ==> r.result.Err?)
  {
    var pk := HostsPlan(RoleHosts(c, Worker), StartSteps(c, Worker));
    var k := OnHostsSpec(o, w, RoleHosts(c, Worker), StartSteps(c, Worker));
    OnHostsActs(o, w, RoleHosts(c, Worker), StartSteps(c, Worker));
    if k.result.Err? {
      FollowsStop(w, k.world, pk, ApisPlan(o, c));
    } else {
      var t := StartApisSpec(o, k.world, c);
      StartApisActs(o, k.world, c);
      FollowsThen(w, k.world, t.world, t.result.Ok?, pk, ApisPlan(o, c));
    }
  }

  /** `start_services` does a prefix of the start order, all of it when it
      returns True: every master, the settling pause, every worker, every API
      server, the HDFS patch when configured, then the alert server. A cluster
      without an alert node fails, with nothing after the API servers and the
      patch. */
  lemma StartServicesActs(o: Oracle, w: World, c: Config)
    ensures var r := StartServicesSpec(o, w, c);
      Follows(w, r.world, r.result.Ok?, StartPlan(o, c)) &&
      (|Nodes(c, Alert)| == 0 ==> r.result.Err?)
  {
    var pm := HostsPlan(RoleHosts(c, Master), StartSteps(c, Master));
    var m := OnHostsSpec(o, w, RoleHosts(c, Master), StartSteps(c, Master));
    OnHostsActs(o, w, RoleHosts(c, Master), StartSteps(c, Master));
    if m.result.Err? {
      FollowsStop(w, m.world, pm, [Wait(10)] + WorkersPlan(o, c));
    } else {
      var w1 := SleepFor(m.world, 10);
      FollowsSleep(m.world, 10);
      var t := StartWorkersSpec(o, w1, c);
      StartWorkersActs(o, w1, c);
      FollowsThen(m.world, w1, t.world, t.result.Ok?, [Wait(10)], WorkersPlan(o, c));
      FollowsThen(w, m.world, t.world, t.result.Ok?, pm, [Wait(10)] + WorkersPlan(o, c));
    }
  }

  // ---- stop_services ----

  function StopSteps(c: Config, r: Role): seq<Step> {
    [Run(DaemonCommand(c, "stop", r))]
  }

  /** From the workers on: workers, then masters. */
  function StopWorkersSpec(o: Oracle, w: World, c: Config): Out<bool> {
    var k := OnHostsSpec(o, w, RoleHosts(c, Worker), StopSteps(c, Worker));
    if k.result.Err? then AsTrue(k)
    else AsTrue(OnHostsSpec(o, k.world, RoleHosts(c, Master), StopSteps(c, Master)))
  }

  function StopWorkersPlan(c: Config): seq<Act> {
    HostsPlan(RoleHosts(c, Worker), StopSteps(c, Worker)) + HostsPlan(RoleHosts(c, Master), StopSteps(c, Master))
  }

  /** From the API servers on. */
  function StopApisSpec(o: Oracle, w: World, c: Config): Out<bool> {
    var a := OnHostsSpec(o, w, RoleHosts(c, Api), StopSteps(c, Api));
    if a.result.Err? then AsTrue(a) else StopWorkersSpec(o, a.world, c)
  }

  function StopApisPlan(c: Config): seq<Act> {
    HostsPlan(RoleHosts(c, Api), StopSteps(c, Api)) + StopWorkersPlan(c)
  }

  /** `stop_services`: the first alert node is looked up before anything
      else, then alert, API servers, workers and masters are stopped, the
      reverse of the start order; the first failure propagates. */
  function StopServicesSpec(o: Oracle, w: World, c: Config): Out<bool> {
    if |Nodes(c, Alert)| == 0 then Out(w, Err(IndexOutOfRange))
    else
      var s := Session(o, w, Nodes(c, Alert)[0].host, StopSteps(c, Alert));
      if s.result.Err? then AsTrue(s) else StopApisSpec(o, s.world, c)
  }

  function StopPlan(c: Config): seq<Act> {
    AlertPlan(c, StopSteps(c, Alert)) + StopApisPlan(c)
  }

  method StopServices(o: Oracle, w: World, c: Config) returns (w': World, r: Result<bool>)
    ensures Out(w', r) == StopServicesSpec(o, w, c)
  {
    if |Nodes(c, Alert)| == 0 {
      return w, Err(IndexOutOfRange);
    }
    var s := Session(o, w, Nodes(c, Alert)[0].host, StopSteps(c, Alert));
    if s.result.Err? {
      return s.world, Err(s.result.error);
    }
    var u;
    w', u := OnHosts(o, s.world, RoleHosts(c, Api), StopSteps(c, Api));
    if u.Err? {
      return w', Err(u.error);
    }
    w', u := OnHosts(o, w', RoleHosts(c, Worker), StopSteps(c, Worker));
    if u.Err? {
      return w', Err(u.error);
    }
    w', u := OnHosts(o, w', RoleHosts(c, Master), StopSteps(c, Master));
    r := if u.Err? then Err(u.error) else Ok(true);
  }

  lemma StopWorkersActs(o: Oracle, w: World, c: Config)
    ensures var r := StopWorkersSpec(o, w, c);
      Follows(w, r.world, r.result.Ok?, StopWorkersPlan(c))
  {
    var pk := HostsPlan(RoleHosts(c, Worker), StopSteps(c, Worker));
    var k := OnHostsSpec(o, w, RoleHosts(c, Worker), StopSteps(c, Worker));
    OnHostsActs(o, w, RoleHosts(c, Worker), StopSteps(c, Worker));
    if k.result.Err? {
      FollowsStop(w, k.world, pk, HostsPlan(RoleHosts(c, Master), StopSteps(c, Master)));
    } else {
      var m := OnHostsSpec(o, k.world, RoleHosts(c, Master), StopSteps(c, Master));
      OnHostsActs(o, k.world, RoleHosts(c, Master), StopSteps(c, Master));
      FollowsThen(w, k.world, m.world, m.result.Ok?, pk, HostsPlan(RoleHosts(c, Master), StopSteps(c, Master)));
    }
  }

  lemma StopApisActs(o: Oracle, w: World, c: Config)
    ensures var r := StopApisSpec(o, w, c);
      Follows(w, r.world, r.result.Ok?, StopApisPlan(c))
  {
    var pa := HostsPlan(RoleHosts(c, Api), StopSteps(c, Api));
    var a := OnHostsSpec(o, w, RoleHosts(c, Api), StopSteps(c, Api));
    OnHostsActs(o, w, RoleHosts(c, Api), StopSteps(c, Api));
    if a.result.Err? {
      FollowsStop(w, a.world, pa, StopWorkersPlan(c));
    } else {
      var t := StopWorkersSpec(o, a.world, c);
      StopWorkersActs(o, a.world, c);
      FollowsThen(w, a.world, t.world, t.result.Ok?, pa, StopWorkersPlan(c));
    }
  }

  /** `stop_services` does a prefix of the stop order, all of it when it
      returns True; without an alert node it raises IndexError before any
      remote call. */
  lemma StopServicesActs(o: Oracle, w: World, c: Config)
    ensures var r := StopServicesSpec(o, w, c);
      Follows(w, r.world, r.result.Ok?, StopPlan(c))
    ensures |Nodes(c, Alert)| == 0 ==> StopServicesSpec(o, w, c) == Out(w, Err(IndexOutOfRange))
  {
    if |Nodes(c, Alert)| == 0 {
      FollowsNothing(w, false);
      return;
    }
    var pl := AlertPlan(c, StopSteps(c, Alert));
    var s := Session(o, w, Nodes(c, Alert)[0].host, StopSteps(c, Alert));
    SessionActs(o, w, Nodes(c, Alert)[0].host, StopSteps(c, Alert));
    if s.result.Err? {
      FollowsStop(w, s.world, pl, StopApisPlan(c));
    } else {
      var t := StopApisSpec(o, s.world, c);
      StopApisActs(o, s.world, c);
      FollowsThen(w, s.world, t.world, t.result.Ok?, pl, StopApisPlan(c));
    }
  }

  // ---- check_service_status ----

  datatype NodeStatus = NodeStatus(host: string, running: bool)

  /** One status query: the connection is made outside the `try`, so its
      failure propagates; a failing query reports the daemon as not running;
      otherwise it runs iff the lower-cased output mentions `running`. */
  function StatusOn(o: Oracle, w: World, c: Config, r: Role, host: string): (out: Out<bool>)
    ensures ConnectSsh(o, w, host).result.Err? ==> out == Out(ConnectSsh(o, w, host).world, Err(ConnectSsh(o, w, host).result.error))
    ensures ConnectSsh(o, w, host).result.Ok? ==>
      var a := Answer(o, Emit(w, Connect(host, true)), host, StatusCommand(c, r));
      out.result.Ok? && out.world.cloud == w.cloud &&
      (out.result.value <==> a.exit == 0 && Contains(Lower(a.out), "running"))
  {
    var k := ConnectSsh(o, w, host);
    if k.result.Err? then Out(k.world, Err(k.result.error))
    else
      var e := ExecuteRemoteCommand(o, k.world, host, StatusCommand(c, r), false);
      Out(CloseSsh(e.world, host), Ok(e.result.Ok? && Contains(Lower(e.result.value), "running")))
  }

  /** The statuses of `hosts` in order, or the first connection failure. */
  function StatusesSpec(o: Oracle, w: World, c: Config, r: Role, hosts: seq<string>): Out<seq<NodeStatus>>
    decreases |hosts|
  {
    if hosts == [] then Out(w, Ok([]))
    else
      var s := StatusOn(o, w, c, r, hosts[0]);
      if s.result.Err? then Out(s.world, Err(s.result.error))
      else
        var rest := StatusesSpec(o, s.world, c, r, hosts[1..]);
        Out(rest.world, if rest.result.Err? then rest.result else Ok([NodeStatus(hosts[0], s.result.value)] + rest.result.value))
  }

  /** `acc` in front of a successful list. */
  function Prepended(acc: seq<NodeStatus>, r: Result<seq<NodeStatus>>): Result<seq<NodeStatus>> {
    if r.Err? then r else Ok(acc + r.value)
  }

  /** One turn of the status loop, on the list still to go. */
  lemma StatusesStep(o: Oracle, w: World, c: Config, r: Role, hosts: seq<string>, acc: seq<NodeStatus>)
    requires hosts != []
    ensures var s := StatusOn(o, w, c, r, hosts[0]);
      var all := StatusesSpec(o, w, c, r, hosts);
      (s.result.Err? ==> all == Out(s.world, Err(s.result.error))) &&
      (s.result.Ok? ==>
        var rest := StatusesSpec(o, s.world, c, r, hosts[1..]);
        Out(rest.world, Prepended(acc + [NodeStatus(hosts[0], s.result.value)], rest.result)) ==
        Out(all.world, Prepended(acc, all.result)))
  {
    var s := StatusOn(o, w, c, r, hosts[0]);
    if s.result.Ok? {
      var rest := StatusesSpec(o, s.world, c, r, hosts[1..]);
      if rest.result.Ok? {
        assert acc + ([NodeStatus(hosts[0], s.result.value)] + rest.result.value) ==
          (acc + [NodeStatus(hosts[0], s.result.value)]) + rest.result.value;
      }
    }
  }

  /** The status loop over the nodes of one role. */
  method StatusesOf(o: Oracle, w: World, c: Config, r: Role, hosts: seq<string>) returns (w': World, res: Result<seq<NodeStatus>>)
    ensures Out(w', res) == StatusesSpec(o, w, c, r, hosts)
  {
    var acc: seq<NodeStatus> := [];
    w' := w;
    var i := 0;
    ghost var all := StatusesSpec(o, w, c, r, hosts);
    assert all.result.Ok? ==> [] + all.result.value == all.result.value;
    assert Out(all.world, Prepended([], all.result)) == all;
    while i < |hosts|
      invariant i <= |hosts|
      invariant var rest := StatusesSpec(o, w', c, r, hosts[i..]);
        Out(rest.world, Prepended(acc, rest.result)) == all
    {
      assert hosts[i..][0] == hosts[i] && hosts[i..][1..] == hosts[i + 1..];
      StatusesStep(o, w', c, r, hosts[i..], acc);
      var s := StatusOn(o, w', c, r, hosts[i]);
      if s.result.Err? {
        return s.world, Err(s.result.error);
      }
      acc := acc + [NodeStatus(hosts[i], s.result.value)];
      w' := s.world;
      i := i + 1;
    }
    assert hosts[i..] == [] && acc + [] == acc;
    res := Ok(acc);
  }

  /** One entry per host, in order, each naming its host. */
  lemma {:induction false} StatusesShape(o: Oracle, w: World, c: Config, r: Role, hosts: seq<string>)
    ensures var s := StatusesSpec(o, w, c, r, hosts);
      s.world.cloud == w.cloud &&
      (s.result.Ok? ==>
        |s.result.value| == |hosts| && forall i :: 0 <= i < |hosts| ==> s.result.value[i].host == hosts[i])
    decreases |hosts|
  {
    if hosts != [] {
      var s := StatusOn(o, w, c, r, hosts[0]);
      if s.result.Ok? {
        StatusesShape(o, s.world, c, r, hosts[1..]);
        var rest := StatusesSpec(o, s.world, c, r, hosts[1..]);
        if rest.result.Ok? {
          var v := [NodeStatus(hosts[0], s.result.value)] + rest.result.value;
          forall i | 0 < i < |hosts| ensures v[i].host == hosts[i] {
            assert v[i] == rest.result.value[i - 1] && hosts[1..][i - 1] == hosts[i];
          }
        }
      }
    }
  }

  /** `check_service_status`: masters, workers and API servers node by node,
      then the first alert node only. */
  function CheckServiceStatusSpec(o: Oracle, w: World, c: Config): Out<PerRole<seq<NodeStatus>>> {
    var m := StatusesSpec(o, w, c, Master, RoleHosts(c, Master));
    if m.result.Err? then Out(m.world, Err(m.result.error))
    else
      var k := StatusesSpec(o, m.world, c, Worker, RoleHosts(c, Worker));
      if k.result.Err? then Out(k.world, Err(k.result.error))
      else
        var a := StatusesSpec(o, k.world, c, Api, RoleHosts(c, Api));
        if a.result.Err? then Out(a.world, Err(a.result.error))
        else if |Nodes(c, Alert)| == 0 then Out(a.world, Err(IndexOutOfRange))
        else
          var host := Nodes(c, Alert)[0].host;
          var s := StatusOn(o, a.world, c, Alert, host);
          if s.result.Err? then Out(s.world, Err(s.result.error))
          else Out(s.world, Ok(PerRole(m.result.value, k.result.value, a.result.value, [NodeStatus(host, s.result.value)])))
  }

  method CheckServiceStatus(o: Oracle, w: World, c: Config) returns (w': World, r: Result<PerRole<seq<NodeStatus>>>)
    ensures Out(w', r) == CheckServiceStatusSpec(o, w, c)
  {
    var m, k, a;
    w', m := StatusesOf(o, w, c, Master, RoleHosts(c, Master));
    if m.Err? {
      return w', Err(m.error);
    }
    w', k := StatusesOf(o, w', c, Worker, RoleHosts(c, Worker));
    if k.Err? {
      return w', Err(k.error);
    }
    w', a := StatusesOf(o, w', c, Api, RoleHosts(c, Api));
    if a.Err? {
      return w', Err(a.error);
    }
    if |Nodes(c, Alert)| == 0 {
      return w', Err(IndexOutOfRange);
    }
    var host := Nodes(c, Alert)[0].host;
    var s := StatusOn(o, w', c, Alert, host);
    if s.result.Err? {
      return s.world, Err(s.result.error);
    }
    w', r := s.world, Ok(PerRole(m.value, k.value, a.value, [NodeStatus(host, s.result.value)]));
  }

  /** The report has all four roles: one entry per configured node, in node
      order, for masters, workers and API servers, and the first alert node
      alone. */
  lemma CheckServiceStatusShape(o: Oracle, w: World, c: Config)
    ensures var s := CheckServiceStatusSpec(o, w, c);
      s.world.cloud == w.cloud &&
      (s.result.Ok? ==>
        |Nodes(c, Alert)| > 0 &&
        s.result.value.alert == [NodeStatus(Nodes(c, Alert)[0].host, s.result.value.alert[0].running)] &&
        forall r :: r != Alert ==>
          |At(s.result.value, r)| == |Nodes(c, r)| &&
          forall i :: 0 <= i < |Nodes(c, r)| ==> At(s.result.value, r)[i].host == Nodes(c, r)[i].host)
  {
    var m := StatusesSpec(o, w, c, Master, RoleHosts(c, Master));
    StatusesShape(o, w, c, Master, RoleHosts(c, Master));
    if m.result.Ok? {
      var k := StatusesSpec(o, m.world, c, Worker, RoleHosts(c, Worker));
      StatusesShape(o, m.world, c, Worker, RoleHosts(c, Worker));
      if k.result.Ok? {
        StatusesShape(o, k.world, c, Api, RoleHosts(c, Api));
      }
    }
  }

  // ---- restart_service and rolling_restart_component ----

  function RestartSteps(c: Config, r: Role): seq<Step> {
    [Run(DaemonCommand(c, "stop", r)), Pause(5), Run(DaemonCommand(c, "start", r))]
  }

  /** `restart_service`: stop, five seconds, start, on one connection. */
  function RestartService(o: Oracle, w: World, c: Config, r: Role, host: string): Out<bool> {
    AsTrue(Session(o, w, host, RestartSteps(c, r)))
  }

  /** A restart stops the daemon before starting it, and does not start it
      when the stop failed. */
  lemma RestartServiceActs(o: Oracle, w: World, c: Config, r: Role, host: string)
    ensures var s := RestartService(o, w, c, r, host);
      Follows(w, s.world, s.result.Ok?, [Cmd(host, DaemonCommand(c, "stop", r)), Wait(5), Cmd(host, DaemonCommand(c, "start", r))])
  {
    SessionActs(o, w, host, RestartSteps(c, r));
    PlanActsIndexwise(host, RestartSteps(c, r));
    assert PlanActs(host, RestartSteps(c, r)) ==
      [Cmd(host, DaemonCommand(c, "stop", r)), Wait(5), Cmd(host, DaemonCommand(c, "start", r))];
  }

  /** The pause after the restart of node `i`: thirty seconds, except after
      the last node. */
  function Gap(w: World, hosts: seq<string>, i: nat): World {
    if i < |hosts| - 1 then SleepFor(w, 30) else w
  }

  function GapPlan(hosts: seq<string>, i: nat): seq<Act> {
    if i < |hosts| - 1 then [Wait(30)] else []
  }

  /** Restarts from node `i` on, with thirty seconds between consecutive
      restarts and none after the last. */
  function RollingFrom(o: Oracle, w: World, c: Config, r: Role, hosts: seq<string>, i: nat): Out<bool>
    decreases |hosts| - i
  {
    if i >= |hosts| then Out(w, Ok(true))
    else
      var s := RestartService(o, w, c, r, hosts[i]);
      if s.result.Err? then s
      else RollingFrom(o, Gap(s.world, hosts, i), c, r, hosts, i + 1)
  }

  function RollingRestartSpec(o: Oracle, w: World, c: Config, r: Role): Out<bool> {
    RollingFrom(o, w, c, r, RoleHosts(c, r), 0)
  }

  method RollingRestartComponent(o: Oracle, w: World, c: Config, r: Role) returns (w': World, res: Result<bool>)
    ensures Out(w', res) == RollingRestartSpec(o, w, c, r)
  {
    var hosts := RoleHosts(c, r);
    w' := w;
    var i := 0;
    while i < |hosts|
      invariant i <= |hosts|
      invariant RollingFrom(o, w', c, r, hosts, i) == RollingRestartSpec(o, w, c, r)
      decreases |hosts| - i
    {
      var s := RestartService(o, w', c, r, hosts[i]);
      if s.result.Err? {
        return s.world, s.result;
      }
      w' := s.world;
      if i < |hosts| - 1 {
        w' := SleepFor(w', 30);
      }
      i := i + 1;
    }
    res := Ok(true);
  }

  /** The rolling order: each node's restart in list order, a thirty-second
      wait between consecutive nodes and none after the last. */
  function RollingPlan(c: Config, r: Role, hosts: seq<string>, i: nat): seq<Act>
    decreases |hosts| - i
  {
    if i >= |hosts| then []
    else
      [Cmd(hosts[i], DaemonCommand(c, "stop", r)), Wait(5), Cmd(hosts[i], DaemonCommand(c, "start", r))] +
      (GapPlan(hosts, i) + RollingPlan(c, r, hosts, i + 1))
  }

  lemma GapActs(w: World, hosts: seq<string>, i: nat)
    ensures Follows(w, Gap(w, hosts, i), true, GapPlan(hosts, i))
  {
    if i < |hosts| - 1 {
      FollowsSleep(w, 30);
    } else {
      FollowsNothing(w, true);
    }
  }

  lemma {:induction false} RollingFromActs(o: Oracle, w: World, c: Config, r: Role, hosts: seq<string>, i: nat)
    ensures var s := RollingFrom(o, w, c, r, hosts, i);
      Follows(w, s.world, s.result.Ok?, RollingPlan(c, r, hosts, i))
    decreases |hosts| - i
  {
    if i >= |hosts| {
      FollowsNothing(w, true);
    } else {
      var one := [Cmd(hosts[i], DaemonCommand(c, "stop", r)), Wait(5), Cmd(hosts[i], DaemonCommand(c, "start", r))];
      var rest := GapPlan(hosts, i) + RollingPlan(c, r, hosts, i + 1);
      var s := RestartService(o, w, c, r, hosts[i]);
      RestartServiceActs(o, w, c, r, hosts[i]);
      if s.result.Err? {
        FollowsStop(w, s.world, one, rest);
      } else {
        var w1 := Gap(s.world, hosts, i);
        GapActs(s.world, hosts, i);
        var t := RollingFrom(o, w1, c, r, hosts, i + 1);
        RollingFromActs(o, w1, c, r, hosts, i + 1);
        FollowsThen(s.world, w1, t.world, t.result.Ok?, GapPlan(hosts, i), RollingPlan(c, r, hosts, i + 1));
        FollowsThen(w, s.world, t.world, t.result.Ok?, one, rest);
      }
    }
  }

  /** `rolling_restart_component` restarts the role's nodes in list order,
      waiting thirty seconds between consecutive restarts and not after the
      last; a failed restart stops the roll. */
  lemma RollingRestartActs(o: Oracle, w: World, c: Config, r: Role)
    ensures var s := RollingRestartSpec(o, w, c, r);
      Follows(w, s.world, s.result.Ok?, RollingPlan(c, r, RoleHosts(c, r), 0))
  {
    RollingFromActs(o, w, c, r, RoleHosts(c, r), 0);
  }
}
