/** `scale_cluster`, `scale_out` and `scale_in`: changing the number of nodes
    of one component of a running cluster. The configuration is a value;
    each operation returns the world, the configuration as it leaves it
    (the source mutates its dict in place) and its result. */
module Scale {
  import opened Common
  import opened Strings
  import opened Cluster
  import opened Env
  import opened Ssh
  import opened Sessions
  import opened Ec2
  import opened NodeInit
  import Create

  /** The world, the configuration afterwards, and the result. */
  datatype Scaled = Scaled(world: World, config: Config, result: Result<bool>)

  /** `cd {install_path} && bash bin/dolphinscheduler-daemon.sh {action} {role}-server`,
      run as the login user. */
  function DaemonCommand(c: Config, action: string, r: Role): string {
    "cd " + c.installPath + " && bash bin/dolphinscheduler-daemon.sh " + action + " " + RoleName(r) + "-server"
  }

  // ---- python slicing ----

  /** Where Python puts the slice bound `i` on a list of length `n`:
      negative bounds count from the end, and both kinds are clamped. */
  function SliceBound(i: int, n: nat): (b: nat)
    ensures b <= n
    ensures 0 <= i <= n ==> b == i
    ensures i < 0 && i + n >= 0 ==> b == i + n
    ensures i + n < 0 ==> b == 0
    ensures i > n ==> b == n
  {
    if i < 0 then (if i + n < 0 then 0 else i + n) else if i > n then n else i
  }

  /** `current_nodes[-reduce_count:]` */
  function Removed(nodes: seq<Node>, k: int): seq<Node> {
    nodes[SliceBound(-k, |nodes|)..]
  }

  /** `current_nodes[:-reduce_count]` */
  function Remaining(nodes: seq<Node>, k: int): seq<Node> {
    nodes[..SliceBound(-k, |nodes|)]
  }

  /** The two slices split the list at one point: the kept prefix and the
      removed tail. For `0 < k <= len` the tail is the last `k` nodes; a
      `k` of 0 (where `-0` is `0`) or beyond the length removes every node. */
  lemma TailSelection(nodes: seq<Node>, k: int)
    ensures Remaining(nodes, k) + Removed(nodes, k) == nodes
    ensures 0 < k <= |nodes| ==>
      && |Removed(nodes, k)| == k
      && Removed(nodes, k) == nodes[|nodes| - k..]
      && Remaining(nodes, k) == nodes[..|nodes| - k]
    ensures (k == 0 || k >= |nodes|) ==> Remaining(nodes, k) == [] && Removed(nodes, k) == nodes
  {
  }

  // ---- scale_in ----

  const MasterFloor := "Cannot scale below 2 Master nodes (high availability requirement)"
  const ApiFloor := "Cannot scale below 1 API node"
  const WorkerFloor := "Cannot scale below 1 Worker node"

  /** The validation before the `try`: the node count (not the `count`
      field) less the reduction must leave two masters, one API server and
      one worker; alert has no floor. */
  function Guard(r: Role, current: int, k: int): Option<Error> {
    if r == Master && current - k < 2 then Some(Error(ValueError, MasterFloor))
    else if r == Api && current - k < 1 then Some(Error(ValueError, ApiFloor))
    else if r == Worker && current - k < 1 then Some(Error(ValueError, WorkerFloor))
    else None
  }

  /** The least number of nodes a role may be scaled down to. */
  function Floor(r: Role): Option<nat> {
    match r
    case Master => Some(2)
    case Api => Some(1)
    case Worker => Some(1)
    case Alert => None
  }

  /** The guard lets a reduction through iff it leaves at least the floor,
      and refusing raises a `ValueError`. */
  lemma GuardSpec(r: Role, current: int, k: int)
    ensures Guard(r, current, k).None? <==> (Floor(r).Some? ==> current - k >= Floor(r).value)
    ensures Guard(r, current, k).Some? ==> Guard(r, current, k).value.kind == ValueError
  {
  }

  /** What `node['instance_id']` raises on a node without one. */
  const MissingInstanceId := Error(KeyError, "'instance_id'")

  /** The logging loop and `[node['instance_id'] for node in nodes_to_remove]`:
      the first node without an id raises; otherwise the ids, in node order. */
  function RemovedIds(nodes: seq<Node>): (r: Result<seq<string>>)
    ensures r.Ok? <==> forall i :: 0 <= i < |nodes| ==> nodes[i].instanceId.Some?
    ensures r.Err? ==> r.error == MissingInstanceId
    ensures r.Ok? ==> |r.value| == |nodes| && forall i :: 0 <= i < |nodes| ==> r.value[i] == nodes[i].instanceId.value
    decreases |nodes|
  {
    if nodes == [] then Ok([])
    else if nodes[0].instanceId.None? then Err(MissingInstanceId)
    else
      var rest := RemovedIds(nodes[1..]);
      if rest.Err? then rest
      else
        assert forall i :: 1 <= i < |nodes| ==> nodes[i] == nodes[1..][i - 1];
        Ok([nodes[0].instanceId.value] + rest.value)
  }

  method CollectInstanceIds(nodes: seq<Node>) returns (r: Result<seq<string>>)
    ensures r == RemovedIds(nodes)
  {
    var ids: seq<string> := [];
    var i := 0;
    while i < |nodes|
      invariant i <= |nodes| && |ids| == i
      invariant forall j :: 0 <= j < i ==> nodes[j].instanceId.Some? && ids[j] == nodes[j].instanceId.value
    {
      if nodes[i].instanceId.None? {
        return Err(MissingInstanceId);
      }
      ids := ids + [nodes[i].instanceId.value];
      i := i + 1;
    }
    assert RemovedIds(nodes).value == ids;
    r := Ok(ids);
  }

  /** The pause that lets a worker's running tasks finish. */
  const DrainSeconds := 30

  /** On each node to remove: stop its service, then, for workers only,
      wait 30 seconds. */
  function RemovalSteps(c: Config, r: Role): seq<Step> {
    [Run(DaemonCommand(c, "stop", r))] + (if r == Worker then [Pause(DrainSeconds)] else [])
  }

  /** Only a worker's removal pauses, and then for 30 seconds right after the stop. */
  lemma RemovalStepsActs(c: Config, r: Role, host: string)
    ensures PlanActs(host, RemovalSteps(c, r)) ==
      [Cmd(host, DaemonCommand(c, "stop", r))] + (if r == Worker then [Wait(DrainSeconds)] else [])
  {
    var head := [Run(DaemonCommand(c, "stop", r))];
    var tail := if r == Worker then [Pause(DrainSeconds)] else [];
    PlanActsAppend(host, head, tail);
    assert PlanActs(host, head) == [Cmd(host, DaemonCommand(c, "stop", r))] + PlanActs(host, []);
    if r == Worker {
      assert PlanActs(host, tail) == [Wait(DrainSeconds)] + PlanActs(host, []);
    }
  }

  /** `nodes := remaining` and `count := len(remaining)`. */
  function Shrunk(c: Config, r: Role, keep: seq<Node>): Config {
    c.(cluster := With(c.cluster, r, At(c.cluster, r).(nodes := keep, count := |keep|)))
  }

  /** The `try` block once the ids are known: stop every removed node,
      then terminate, then write the configuration and save it. */
  function RemoveSpec(o: Oracle, w: World, c: Config, r: Role, k: int, ids: seq<string>, path: string): Scaled {
    var nodes := Nodes(c, r);
    var s := OnHostsSpec(o, w, Hosts(Removed(nodes, k)), RemovalSteps(c, r));
    if s.result.Err? then Scaled(s.world, c, Err(s.result.error))
    else
      var t := Ec2.TerminateInstances(o, s.world, ids);
      if t.result.Err? then Scaled(t.world, c, Err(t.result.error))
      else
        var c' := Shrunk(c, r, Remaining(nodes, k));
        Scaled(Emit(t.world, Saved(path, c')), c', Ok(true))
  }

  /** `scale_in(config, component, reduce_count, config_file)`. */
  function ScaleInSpec(o: Oracle, w: World, c: Config, r: Role, k: int, path: string): Scaled {
    var nodes := Nodes(c, r);
    var g := Guard(r, |nodes|, k);
    if g.Some? then Scaled(w, c, Err(g.value))
    else
      var ids := RemovedIds(Removed(nodes, k));
      if ids.Err? then Scaled(w, c, Err(ids.error))
      else RemoveSpec(o, w, c, r, k, ids.value, path)
  }

  method ScaleIn(o: Oracle, w: World, c: Config, r: Role, k: int, path: string) returns (w': World, c': Config, res: Result<bool>)
    ensures Scaled(w', c', res) == ScaleInSpec(o, w, c, r, k, path)
  {
    var nodes := Nodes(c, r);
    var g := Guard(r, |nodes|, k);
    w', c' := w, c;
    if g.Some? {
      return w, c, Err(g.value);
    }
    var removed := Removed(nodes, k);
    var ids := CollectInstanceIds(removed);
    if ids.Err? {
      return w, c, Err(ids.error);
    }
    var s;
    w', s := OnHosts(o, w, Hosts(removed), RemovalSteps(c, r));
    if s.Err? {
      return w', c, Err(s.error);
    }
    var t := Ec2.TerminateInstances(o, w', ids.value);
    if t.result.Err? {
      return t.world, c, Err(t.result.error);
    }
    c' := Shrunk(c, r, Remaining(nodes, k));
    w' := Emit(t.world, Saved(path, c'));
    res := Ok(true);
  }

  /** After the stops: one terminate call naming exactly the removed
      nodes' instances (none for an empty list), and on success the role
      keeps the prefix, its count becomes the prefix's length, and nothing
      else in the configuration changes. */
  lemma RemoveOutcome(o: Oracle, w: World, c: Config, r: Role, k: int, ids: seq<string>, path: string)
    ensures var x := RemoveSpec(o, w, c, r, k, ids, path);
      var s := OnHostsSpec(o, w, Hosts(Removed(Nodes(c, r), k)), RemovalSteps(c, r));
      && Follows(w, s.world, s.result.Ok?, HostsPlan(Hosts(Removed(Nodes(c, r), k)), RemovalSteps(c, r)))
      && (s.result.Err? ==> x == Scaled(s.world, c, Err(s.result.error)))
      && (s.result.Ok? ==>
            Since(s.world, x.world) <= (if ids == [] then [] else [Aws(Env.TerminateInstances(ids), o.awsOk(Now(s.world)))]) + [Saved(path, x.config)])
      && (x.result.Err? ==> x.config == c)
      && (x.result.Ok? ==>
            && s.result.Ok?
            && (ids != [] ==> o.awsOk(Now(s.world)))
            && Nodes(x.config, r) == Remaining(Nodes(c, r), k)
            && At(x.config.cluster, r).count == |Remaining(Nodes(c, r), k)|
            && At(x.config.cluster, r).instanceType == At(c.cluster, r).instanceType
            && (forall q :: q != r ==> At(x.config.cluster, q) == At(c.cluster, q))
            && x.config.(cluster := c.cluster) == c)
  {
    var s := OnHostsSpec(o, w, Hosts(Removed(Nodes(c, r), k)), RemovalSteps(c, r));
    OnHostsActs(o, w, Hosts(Removed(Nodes(c, r), k)), RemovalSteps(c, r));
    if s.result.Ok? {
      TerminateInstancesOutcome(o, s.world, ids);
      var t := Ec2.TerminateInstances(o, s.world, ids);
      var x := RemoveSpec(o, w, c, r, k, ids, path);
      if t.result.Ok? {
        ExtendsTransitive(s.world, t.world, x.world);
        assert Since(t.world, x.world) == [Saved(path, x.config)];
      } else {
        assert Since(s.world, x.world) == [Aws(Env.TerminateInstances(ids), o.awsOk(Now(s.world)))];
      }
    }
  }

  /** `scale_in` changes nothing when the guard refuses or a node to remove
      has no instance id; otherwise it terminates exactly the removed
      nodes' instances, and only after every one of them was stopped. */
  lemma ScaleInOutcome(o: Oracle, w: World, c: Config, r: Role, k: int, path: string)
    ensures var x := ScaleInSpec(o, w, c, r, k, path);
      var removed := Removed(Nodes(c, r), k);
      var g := Guard(r, |Nodes(c, r)|, k);
      && (g.Some? ==> x == Scaled(w, c, Err(g.value)))
      && (g.None? && RemovedIds(removed).Err? ==> x == Scaled(w, c, Err(MissingInstanceId)))
      && (g.None? && RemovedIds(removed).Ok? ==>
            && |RemovedIds(removed).value| == |removed|
            && (forall i :: 0 <= i < |removed| ==> RemovedIds(removed).value[i] == removed[i].instanceId.value)
            && x == RemoveSpec(o, w, c, r, k, RemovedIds(removed).value, path))
      && (x.result.Err? ==> x.config == c)
  {
    var removed := Removed(Nodes(c, r), k);
    if Guard(r, |Nodes(c, r)|, k).None? && RemovedIds(removed).Ok? {
      RemoveOutcome(o, w, c, r, k, RemovedIds(removed).value, path);
    }
  }

  // ---- sequential loops over hosts ----

  /** `for host in hosts: unit(host)`, the first failure propagating. */
  function InTurn(unit: UnitFn, w: World, hosts: seq<string>): Out<()>
    decreases |hosts|
  {
    if hosts == [] then Out(w, Ok(()))
    else
      var u := unit(w, hosts[0]);
      if u.result.Err? then u else InTurn(unit, u.world, hosts[1..])
  }

  method RunInTurn(unit: UnitFn, w: World, hosts: seq<string>) returns (w': World, r: Result<()>)
    ensures Out(w', r) == InTurn(unit, w, hosts)
  {
    w' := w;
    var i := 0;
    while i < |hosts|
      invariant i <= |hosts|
      invariant InTurn(unit, w', hosts[i..]) == InTurn(unit, w, hosts)
    {
      assert hosts[i..][0] == hosts[i] && hosts[i..][1..] == hosts[i + 1..];
      var u := unit(w', hosts[i]);
      if u.result.Err? {
        return u.world, u.result;
      }
      w' := u.world;
      i := i + 1;
    }
    r := Ok(());
  }

  /** Looping over two lists is looping over the first and, if it got
      through, over the second from where it left off. */
  lemma {:induction false} InTurnAppend(unit: UnitFn, w: World, a: seq<string>, b: seq<string>)
    ensures InTurn(unit, w, a + b) ==
      var x := InTurn(unit, w, a);
      if x.result.Err? then x else InTurn(unit, x.world, b)
    decreases |a|
  {
    if a == [] {
      assert a + b == b;
    } else {
      assert (a + b)[0] == a[0] && (a + b)[1..] == a[1..] + b;
      var u := unit(w, a[0]);
      if u.result.Ok? {
        InTurnAppend(unit, u.world, a[1..], b);
      }
    }
  }

  // ---- scale_out ----

  /** `current_nodes.append(node_info)` for each new instance, then
      `count += additional_count`. */
  function Grown(c: Config, r: Role, added: seq<Instance>, n: int): Config {
    var comp := At(c.cluster, r);
    c.(cluster := With(c.cluster, r, comp.(nodes := comp.nodes + Create.NodeRecords(r, added), count := comp.count + n)))
  }

  method AppendNodeRecords(nodes: seq<Node>, r: Role, added: seq<Instance>) returns (nodes': seq<Node>)
    ensures nodes' == nodes + Create.NodeRecords(r, added)
  {
    nodes' := nodes;
    var i := 0;
    while i < |added|
      invariant i <= |added|
      invariant nodes' == nodes + Create.NodeRecords(r, added[..i])
    {
      assert added[..i + 1] == added[..i] + [added[i]];
      assert Create.NodeRecords(r, added[..i + 1]) == Create.NodeRecords(r, added[..i]) + [Create.NodeRecord(r, added[i])];
      nodes' := nodes' + [Create.NodeRecord(r, added[i])];
      i := i + 1;
    }
    assert added[..i] == added;
  }

  /** One role's entries of the hosts map: `ds-{comp}-{i}` by list position. */
  function RoleRecords(c: Config, r: Role): (rs: seq<HostRecord>)
    ensures |rs| == |Nodes(c, r)|
    ensures forall i :: 0 <= i < |rs| ==> rs[i] == HostRecord(Nodes(c, r)[i].host, Some(HostName(r, i)), Some(RoleName(r)), Some(i))
  {
    seq(|Nodes(c, r)|, i requires 0 <= i < |Nodes(c, r)| =>
      HostRecord(Nodes(c, r)[i].host, Some(HostName(r, i)), Some(RoleName(r)), Some(i)))
  }

  /** The hosts map rebuilt over master, worker, api and alert, in that order. */
  function Topology(c: Config): seq<HostRecord> {
    RoleRecords(c, Master) + RoleRecords(c, Worker) + RoleRecords(c, Api) + RoleRecords(c, Alert)
  }

  method AppendRoleRecords(all: seq<HostRecord>, c: Config, r: Role) returns (all': seq<HostRecord>)
    ensures all' == all + RoleRecords(c, r)
  {
    all' := all;
    var nodes := Nodes(c, r);
    var i := 0;
    while i < |nodes|
      invariant i <= |nodes| && |all'| == |all| + i
      invariant all'[..|all|] == all
      invariant forall j :: 0 <= j < i ==> all'[|all| + j] == RoleRecords(c, r)[j]
    {
      all' := all' + [HostRecord(nodes[i].host, Some(HostName(r, i)), Some(RoleName(r)), Some(i))];
      i := i + 1;
    }
  }

  /** The `for comp in ['master', 'worker', 'api', 'alert']` loop. */
  method BuildTopology(c: Config) returns (all: seq<HostRecord>)
    ensures all == Topology(c)
  {
    all := [];
    var k := 0;
    while k < |RoleOrder|
      invariant k <= |RoleOrder|
      invariant k == 0 ==> all == []
      invariant k == 1 ==> all == RoleRecords(c, Master)
      invariant k == 2 ==> all == RoleRecords(c, Master) + RoleRecords(c, Worker)
      invariant k == 3 ==> all == RoleRecords(c, Master) + RoleRecords(c, Worker) + RoleRecords(c, Api)
      invariant k == 4 ==> all == Topology(c)
    {
      all := AppendRoleRecords(all, c, RoleOrder[k]);
      k := k + 1;
    }
  }

  /** Every entry of the rebuilt map is its node's host under
      `ds-{comp}-{i}`, roles in order and nodes in list order. */
  lemma TopologyEntries(c: Config)
    ensures var t := Topology(c);
      var m := |Nodes(c, Master)|;
      var k := m + |Nodes(c, Worker)|;
      var a := k + |Nodes(c, Api)|;
      && |t| == a + |Nodes(c, Alert)|
      && (forall i :: 0 <= i < m ==> t[i] == RoleRecords(c, Master)[i])
      && (forall i :: m <= i < k ==> t[i] == RoleRecords(c, Worker)[i - m])
      && (forall i :: k <= i < a ==> t[i] == RoleRecords(c, Api)[i - k])
      && (forall i :: a <= i < |t| ==> t[i] == RoleRecords(c, Alert)[i - a])
  {
  }

  /** `download_dolphinscheduler(version)`: the default download URL. */
  function DownloadAction(c: Config): string {
    "download_dolphinscheduler " + c.version
  }

  const WorkerPort := 1234
  const WorkerReadyRetries := 10
  const ReadyInterval := 10

  /** Start a new worker and wait (up to ten probes) for its port; the
      answer is only logged. The connection is made before the `try` and
      closed in its `finally`. */
  function StartWorker(o: Oracle, w: World, c: Config, host: string): Out<()> {
    var s := ConnectSsh(o, w, host);
    if s.result.Err? then s
    else
      var e := ExecuteRemoteCommand(o, s.world, host, DaemonCommand(c, "start", Worker), false);
      if e.result.Err? then Out(CloseSsh(e.world, host), Err(e.result.error))
      else
        var v := ReadyAttempts(o, e.world, host, WorkerPort, ReadyInterval, 0, WorkerReadyRetries);
        Out(CloseSsh(v, host), Ok(()))
  }

  function StartUnit(o: Oracle, c: Config): UnitFn {
    (v: World, h: string) => StartWorker(o, v, c, h)
  }

  /** The worker-start loop over the new hosts. */
  method StartWorkers(o: Oracle, w: World, c: Config, hosts: seq<string>) returns (w': World, r: Result<()>)
    ensures Out(w', r) == InTurn(StartUnit(o, c), w, hosts)
  {
    w' := w;
    var i := 0;
    while i < |hosts|
      invariant i <= |hosts|
      invariant InTurn(StartUnit(o, c), w', hosts[i..]) == InTurn(StartUnit(o, c), w, hosts)
    {
      assert hosts[i..][0] == hosts[i] && hosts[i..][1..] == hosts[i + 1..];
      var host := hosts[i];
      var s := ConnectSsh(o, w', host);
      if s.result.Err? {
        return s.world, s.result;
      }
      var e := ExecuteRemoteCommand(o, s.world, host, DaemonCommand(c, "start", Worker), false);
      if e.result.Err? {
        return CloseSsh(e.world, host), Err(e.result.error);
      }
      var v, ready := WaitForServiceReady(o, e.world, host, WorkerPort, WorkerReadyRetries, ReadyInterval);
      w' := CloseSsh(v, host);
      i := i + 1;
    }
    r := Ok(());
  }

  /** Step 5: only new workers are started, after downloading the package
      (which is not otherwise used); master and API nodes only get a note
      that the cluster needs a restart. */
  function StartPhase(o: Oracle, w: World, c: Config, r: Role, hosts: seq<string>): Out<()> {
    if r != Worker then Out(w, Ok(()))
    else
      var ok := o.localOk(Now(w), DownloadAction(c));
      var d := Emit(w, Local(DownloadAction(c), ok));
      if !ok then Out(d, Err(Error(DeployError, "Download failed")))
      else InTurn(StartUnit(o, c), d, hosts)
  }

  /** The collaborators `scale_out` imports: `create_instances_parallel(config,
      component, n, subnets)`, `wait_for_ssh(host)`, `initialize_node(host)`,
      `create_deployment_user(host, deploy_user)` and
      `configure_hosts_file(nodes)`. */
  datatype Tools = Tools(
    createInstances: (World, Config, Role, int) -> Out<seq<Instance>>,
    waitForSsh: (World, string) -> Out<bool>,
    initializeNode: (World, string) -> Out<bool>,
    createUser: (World, string, string) -> Out<bool>,
    configureHosts: (World, seq<HostRecord>) -> Out<bool>)

  /** Each collaborator bound to its model, with the source's defaults
      (30 SSH attempts 10 seconds apart). */
  function Standard(o: Oracle): Tools {
    Tools((v: World, c: Config, r: Role, n: int) => CreateInstancesParallelSpec(o, v, c, r, n, c.subnets),
          (v: World, h: string) => WaitForSshSpec(o, v, h, Create.SshRetries, Create.SshInterval),
          (v: World, h: string) => InitializeNode(o, v, h),
          (v: World, h: string, u: string) => CreateDeploymentUser(o, v, h, u),
          (v: World, nodes: seq<HostRecord>) => ConfigureHostsFileSpec(o, v, nodes))
  }

  /** `create_instances_parallel` returns one instance per index asked for. */
  ghost predicate CreatesAsAsked(t: Tools) {
    forall v: World, c: Config, r: Role, n: int ::
      t.createInstances(v, c, r, n).result.Ok? ==>
        |t.createInstances(v, c, r, n).result.value| == (if n > 0 then n else 0)
  }

  lemma StandardCreatesAsAsked(o: Oracle)
    ensures CreatesAsAsked(Standard(o))
  {
    forall v: World, c: Config, r: Role, n: int
      ensures Standard(o).createInstances(v, c, r, n) == CreateInstancesParallelSpec(o, v, c, r, n, c.subnets)
    {
    }
    forall v: World, c: Config, r: Role, n: int
      ensures var x := CreateInstancesParallelSpec(o, v, c, r, n, c.subnets);
        x.result.Ok? ==> |x.result.value| == (if n > 0 then n else 0)
    {
      CreateInstancesParallelResult(o, v, c, r, n, c.subnets);
    }
  }

  /** `if not wait_for_ssh(host): raise Exception(...)` */
  function SshUnit(t: Tools): UnitFn {
    (v: World, h: string) => Create.SshReady(t.waitForSsh(v, h), h)
  }

  /** `initialize_node(host)` then `create_deployment_user(host, deploy_user)`. */
  function PrepareUnit(t: Tools, user: string): UnitFn {
    (v: World, h: string) =>
      var i := t.initializeNode(v, h);
      if i.result.Err? then Out(i.world, Err(i.result.error))
      else Unit(t.createUser(i.world, h, user))
  }

  /** Steps 4 and 5 once the configuration holds the new nodes: the hosts
      file on every node, the save, then the start. */
  function AfterGrowth(o: Oracle, t: Tools, w: World, c: Config, r: Role, hosts: seq<string>, path: string): Scaled {
    var h := t.configureHosts(w, Topology(c));
    if h.result.Err? then Scaled(h.world, c, Err(h.result.error))
    else
      var st := StartPhase(o, Emit(h.world, Saved(path, c)), c, r, hosts);
      Scaled(st.world, c, if st.result.Err? then Err(st.result.error) else Ok(true))
  }

  /** Steps 2 to 5 once the new instances are known. */
  function ScaleOutWith(o: Oracle, t: Tools, w: World, c: Config, r: Role, n: int, added: seq<Instance>, path: string): Scaled {
    var hosts := Create.PrivateIps(added);
    var s := InTurn(SshUnit(t), w, hosts);
    if s.result.Err? then Scaled(s.world, c, Err(s.result.error))
    else
      var i := InTurn(PrepareUnit(t, c.deployUser), s.world, hosts);
      if i.result.Err? then Scaled(i.world, c, Err(i.result.error))
      else AfterGrowth(o, t, i.world, Grown(c, r, added, n), r, hosts, path)
  }

  /** `scale_out(config, component, additional_count, config_file)`. */
  function ScaleOutSpec(o: Oracle, t: Tools, w: World, c: Config, r: Role, n: int, path: string): Scaled {
    var x := t.createInstances(w, c, r, n);
    if x.result.Err? then Scaled(x.world, c, Err(x.result.error))
    else ScaleOutWith(o, t, x.world, c, r, n, x.result.value, path)
  }

  method ScaleOutAfter(o: Oracle, t: Tools, w: World, c: Config, r: Role, hosts: seq<string>, path: string) returns (w': World, res: Result<bool>)
    ensures Scaled(w', c, res) == AfterGrowth(o, t, w, c, r, hosts, path)
  {
    var all := BuildTopology(c);
    var h := t.configureHosts(w, all);
    if h.result.Err? {
      return h.world, Err(h.result.error);
    }
    w' := Emit(h.world, Saved(path, c));
    if r == Worker {
      var ok := o.localOk(Now(w'), DownloadAction(c));
      w' := Emit(w', Local(DownloadAction(c), ok));
      if !ok {
        return w', Err(Error(DeployError, "Download failed"));
      }
      var st;
      w', st := StartWorkers(o, w', c, hosts);
      if st.Err? {
        return w', Err(st.error);
      }
    }
    res := Ok(true);
  }

  /** Step 4's append and count, then the rest of steps 4 and 5. */
  method GrowAndFinish(o: Oracle, t: Tools, w: World, c: Config, r: Role, n: int, added: seq<Instance>, hosts: seq<string>, path: string)
    returns (w': World, c': Config, res: Result<bool>)
    ensures c' == Grown(c, r, added, n)
    ensures Scaled(w', c', res) == AfterGrowth(o, t, w, c', r, hosts, path)
  {
    var nodes := AppendNodeRecords(Nodes(c, r), r, added);
    var comp := At(c.cluster, r);
    c' := c.(cluster := With(c.cluster, r, comp.(nodes := nodes, count := comp.count + n)));
    w', res := ScaleOutAfter(o, t, w, c', r, hosts, path);
  }

  /** Steps 2 to 5 of `scale_out`. */
  method ScaleOutRest(o: Oracle, t: Tools, w: World, c: Config, r: Role, n: int, added: seq<Instance>, path: string)
    returns (w': World, c': Config, res: Result<bool>)
    ensures Scaled(w', c', res) == ScaleOutWith(o, t, w, c, r, n, added, path)
  {
    var hosts := Create.PrivateIps(added);
    var s;
    w', s := RunInTurn(SshUnit(t), w, hosts);
    if s.Err? {
      return w', c, Err(s.error);
    }
    w', s := RunInTurn(PrepareUnit(t, c.deployUser), w', hosts);
    if s.Err? {
      return w', c, Err(s.error);
    }
    w', c', res := GrowAndFinish(o, t, w', c, r, n, added, hosts, path);
  }

  method ScaleOut(o: Oracle, t: Tools, w: World, c: Config, r: Role, n: int, path: string) returns (w': World, c': Config, res: Result<bool>)
    ensures Scaled(w', c', res) == ScaleOutSpec(o, t, w, c, r, n, path)
  {
    var created := t.createInstances(w, c, r, n);
    if created.result.Err? {
      return created.world, c, Err(created.result.error);
    }
    w', c', res := ScaleOutRest(o, t, created.world, c, r, n, created.result.value, path);
  }

  /** Once the configuration is grown, it stays grown whatever fails next;
      the hosts file is written from the rebuilt map; master and API nodes
      are not started (nothing follows the save), new workers are. */
  lemma AfterGrowthOutcome(o: Oracle, t: Tools, w: World, c: Config, r: Role, hosts: seq<string>, path: string)
    ensures var x := AfterGrowth(o, t, w, c, r, hosts, path);
      var h := t.configureHosts(w, Topology(c));
      && x.config == c
      && (h.result.Err? ==> x.world == h.world && x.result == Err(h.result.error))
      && (h.result.Ok? && r != Worker ==> x == Scaled(Emit(h.world, Saved(path, c)), c, Ok(true)))
      && (h.result.Ok? && r == Worker ==>
            var v := Emit(h.world, Saved(path, c));
            var d := Emit(v, Local(DownloadAction(c), o.localOk(Now(v), DownloadAction(c))));
            && (!o.localOk(Now(v), DownloadAction(c)) ==> x.world == d && x.result.Err?)
            && (o.localOk(Now(v), DownloadAction(c)) ==>
                  x.world == InTurn(StartUnit(o, c), d, hosts).world
                  && (x.result.Ok? <==> InTurn(StartUnit(o, c), d, hosts).result.Ok?)))
  {
  }

  /** On success the role's node list is the old one with one record per
      new instance appended (the old records untouched), its count grows
      by the number requested, and every other role and setting is as it
      was. Any failure before the append leaves the configuration alone. */
  lemma ScaleOutWithOutcome(o: Oracle, t: Tools, w: World, c: Config, r: Role, n: int, added: seq<Instance>, path: string)
    ensures var x := ScaleOutWith(o, t, w, c, r, n, added, path);
      && (x.config == c || x.config == Grown(c, r, added, n))
      && (x.result.Ok? ==> x.config == Grown(c, r, added, n))
    ensures var g := Grown(c, r, added, n);
      && Nodes(g, r) == Nodes(c, r) + Create.NodeRecords(r, added)
      && Nodes(g, r)[..|Nodes(c, r)|] == Nodes(c, r)
      && |Nodes(g, r)| == |Nodes(c, r)| + |added|
      && At(g.cluster, r).count == At(c.cluster, r).count + n
      && At(g.cluster, r).instanceType == At(c.cluster, r).instanceType
      && (forall q :: q != r ==> At(g.cluster, q) == At(c.cluster, q))
      && g.(cluster := c.cluster) == c
  {
    var hosts := Create.PrivateIps(added);
    var s := InTurn(SshUnit(t), w, hosts);
    if s.result.Ok? {
      var i := InTurn(PrepareUnit(t, c.deployUser), s.world, hosts);
      if i.result.Ok? {
        AfterGrowthOutcome(o, t, i.world, Grown(c, r, added, n), r, hosts, path);
      }
    }
  }

  /** `scale_out` asks `create_instances_parallel` for indices
      `0..additional_count-1`: every new instance carries the name of one of
      those indices, which are the names the hosts map already gives to the
      role's first nodes. With the idempotent lookup, an existing running
      node of that name is returned instead of a new instance. */
  lemma ScaleOutRequestsFromZero(o: Oracle, w: World, c: Config, r: Role, n: int)
    ensures var x := CreateInstancesParallelSpec(o, w, c, r, n, c.subnets);
      && Extends(w, x.world)
      && (x.result.Ok? ==>
            && |x.result.value| == (if n > 0 then n else 0)
            && forall j :: 0 <= j < |x.result.value| ==>
                 exists k :: 0 <= k < n && Named(x.result.value[j], HostName(r, k)))
    ensures forall k :: 0 <= k < |Nodes(c, r)| ==> RoleRecords(c, r)[k].hostname == Some(HostName(r, k))
  {
    CreateInstancesParallelResult(o, w, c, r, n, c.subnets);
  }

  /** `scale_out` either fails before the configuration is touched or
      leaves it grown; failing to create the instances changes nothing. */
  lemma ScaleOutOutcome(o: Oracle, t: Tools, w: World, c: Config, r: Role, n: int, path: string)
    ensures var x := ScaleOutSpec(o, t, w, c, r, n, path);
      var created := t.createInstances(w, c, r, n);
      && (created.result.Err? ==> x == Scaled(created.world, c, Err(created.result.error)))
      && (created.result.Ok? ==>
            && (x.config == c || x.config == Grown(c, r, created.result.value, n))
            && (x.result.Ok? ==> x.config == Grown(c, r, created.result.value, n)))
  {
    var created := t.createInstances(w, c, r, n);
    if created.result.Ok? {
      ScaleOutWithOutcome(o, t, created.world, c, r, n, created.result.value, path);
    }
  }

  // ---- scale_cluster ----

  /** `scale_cluster(config, component, target_count, config_file)`: the
      `count` field decides between doing nothing, growing by the
      difference and shrinking by it. */
  method ScaleCluster(o: Oracle, t: Tools, w: World, c: Config, r: Role, target: int, path: string) returns (w': World, c': Config, res: Result<bool>)
    ensures target == At(c.cluster, r).count ==> w' == w && c' == c && res == Ok(true)
    ensures target > At(c.cluster, r).count ==>
      Scaled(w', c', res) == ScaleOutSpec(o, t, w, c, r, target - At(c.cluster, r).count, path)
    ensures target < At(c.cluster, r).count ==>
      Scaled(w', c', res) == ScaleInSpec(o, w, c, r, At(c.cluster, r).count - target, path)
  {
    var current := At(c.cluster, r).count;
    if target == current {
      return w, c, Ok(true);
    }
    if target > current {
      w', c', res := ScaleOut(o, t, w, c, r, target - current, path);
    } else {
      w', c', res := ScaleIn(o, w, c, r, current - target, path);
    }
  }

  /** The growing branch of `scale_cluster` reaches the target: it appends
      exactly the missing nodes after the old ones and sets the count to
      the target. */
  lemma ScaleOutReachesTarget(o: Oracle, t: Tools, w: World, c: Config, r: Role, target: int, path: string)
    requires CreatesAsAsked(t)
    ensures var current := At(c.cluster, r).count;
      var x := ScaleOutSpec(o, t, w, c, r, target - current, path);
      x.result.Ok? && target > current ==>
        && At(x.config.cluster, r).count == target
        && |Nodes(x.config, r)| == |Nodes(c, r)| + (target - current)
        && Nodes(x.config, r)[..|Nodes(c, r)|] == Nodes(c, r)
  {
    var n := target - At(c.cluster, r).count;
    var created := t.createInstances(w, c, r, n);
    if created.result.Ok? {
      ScaleOutWithOutcome(o, t, created.world, c, r, n, created.result.value, path);
    }
  }

  /** A successful `scale_in` leaves the role with the kept prefix. */
  lemma ScaleInShrinks(o: Oracle, w: World, c: Config, r: Role, k: int, path: string)
    ensures var x := ScaleInSpec(o, w, c, r, k, path);
      x.result.Ok? ==> x.config == Shrunk(c, r, Remaining(Nodes(c, r), k))
  {
    var removed := Removed(Nodes(c, r), k);
    if Guard(r, |Nodes(c, r)|, k).None? && RemovedIds(removed).Ok? {
      RemoveOutcome(o, w, c, r, k, RemovedIds(removed).value, path);
    }
  }

  /** The shrinking branch of `scale_cluster` reaches the target when the
      role's node list matches its count: with `ScaleInShrinks`, a
      successful reduction by `count - target` keeps the first `target`
      nodes (none for a target below one) and the count follows the list. */
  lemma ShrunkToTarget(c: Config, r: Role, target: int)
    requires target < At(c.cluster, r).count == |Nodes(c, r)|
    ensures var c' := Shrunk(c, r, Remaining(Nodes(c, r), At(c.cluster, r).count - target));
      && (target > 0 ==> At(c'.cluster, r).count == target && Nodes(c', r) == Nodes(c, r)[..target])
      && (target <= 0 ==> At(c'.cluster, r).count == 0 && Nodes(c', r) == [])
  {
    TailSelection(Nodes(c, r), At(c.cluster, r).count - target);
  }
}
