/** `create`: provisioning the four roles' instances, recording them for
    rollback, turning them into the cluster topology, preparing the nodes,
    deploying and starting DolphinScheduler, and rolling back on failure. */
module Create {
  import opened Common
  import opened Strings
  import opened Cluster
  import opened Env
  import opened Ssh
  import opened Ec2
  import opened NodeInit
  import opened Installer
  import opened Services

  // ---- DeploymentState ----

  /** The rollback ledger: the instances of the batches returned so far and
      the hosts whose initialization finished. Both lists only ever grow at
      the end. */
  class DeploymentState {
    var createdInstances: seq<Instance>
    var initializedNodes: seq<string>

    constructor ()
      ensures createdInstances == [] && initializedNodes == []
    {
      createdInstances := [];
      initializedNodes := [];
    }

    method AddInstance(instance: Instance)
      modifies this
      ensures createdInstances == old(createdInstances) + [instance]
      ensures initializedNodes == old(initializedNodes)
    {
      createdInstances := createdInstances + [instance];
    }

    method AddInitializedNode(host: string)
      modifies this
      ensures initializedNodes == old(initializedNodes) + [host]
      ensures createdInstances == old(createdInstances)
    {
      initializedNodes := initializedNodes + [host];
    }

    /** The `for instance in batch: state.add_instance(instance)` loop that
        follows each role's batch. */
    method AddInstances(batch: seq<Instance>)
      modifies this
      ensures createdInstances == old(createdInstances) + batch
      ensures initializedNodes == old(initializedNodes)
    {
      var k := 0;
      while k < |batch|
        invariant k <= |batch|
        invariant createdInstances == old(createdInstances) + batch[..k]
        invariant initializedNodes == old(initializedNodes)
      {
        AddInstance(batch[k]);
        assert batch[..k + 1] == batch[..k] + [batch[k]];
        k := k + 1;
      }
      assert batch[..k] == batch;
    }
  }

  // ---- distribute_nodes_across_azs ----

  /** One entry of the distribution: `{index, subnet_id, availability_zone}`. */
  datatype Placement = Placement(index: nat, subnetId: string, az: string)

  /** `count` entries (none for a count below 1), entry `i` in subnet
      `i mod len(subnets)`; with no subnets a positive count divides by zero. */
  method DistributeNodesAcrossAzs(count: int, subnets: seq<Subnet>) returns (r: Result<seq<Placement>>)
    ensures r.Err? <==> count > 0 && subnets == []
    ensures r.Err? ==> r.error == ModuloByZero
    ensures r.Ok? ==> |r.value| == (if count > 0 then count else 0)
    ensures r.Ok? && subnets != [] ==>
      forall i :: 0 <= i < |r.value| ==>
        r.value[i] == Placement(i, subnets[i % |subnets|].subnetId, subnets[i % |subnets|].az)
  {
    if count > 0 && subnets == [] {
      return Err(ModuloByZero);
    }
    var distribution: seq<Placement> := [];
    var i := 0;
    while i < count
      invariant 0 <= i && (count > 0 ==> i <= count) && (count <= 0 ==> i == 0)
      invariant |distribution| == i
      invariant forall k :: 0 <= k < i ==>
        distribution[k] == Placement(k, subnets[k % |subnets|].subnetId, subnets[k % |subnets|].az)
    {
      var subnet := subnets[i % |subnets|];
      distribution := distribution + [Placement(i, subnet.subnetId, subnet.az)];
      i := i + 1;
    }
    r := Ok(distribution);
  }

  // ---- update_config_with_instances ----

  /** One entry of `all_instances`: a role and the instances its batch returned. */
  datatype RoleBatch = RoleBatch(role: Role, instances: seq<Instance>)

  /** The node record written for an instance. */
  function NodeRecord(r: Role, i: Instance): Node {
    Node(i.privateIp, 22, Some(i.id), i.subnetId, i.az, if r == Worker then Some(["default"]) else None)
  }

  function NodeRecords(r: Role, instances: seq<Instance>): (nodes: seq<Node>)
    ensures |nodes| == |instances|
    ensures forall k :: 0 <= k < |instances| ==> nodes[k] == NodeRecord(r, instances[k])
  {
    seq(|instances|, k requires 0 <= k < |instances| => NodeRecord(r, instances[k]))
  }

  /** `config['cluster'][component]['nodes'] = nodes`. */
  function WithNodes(c: Config, r: Role, nodes: seq<Node>): Config {
    c.(cluster := With(c.cluster, r, At(c.cluster, r).(nodes := nodes)))
  }

  /** The configuration after the batches are written in, one after another. */
  function Updated(c: Config, batches: seq<RoleBatch>): Config
    decreases |batches|
  {
    if batches == [] then c
    else Updated(WithNodes(c, batches[0].role, NodeRecords(batches[0].role, batches[0].instances)), batches[1..])
  }

  /** The last batch for a role, if any. */
  function LastFor(batches: seq<RoleBatch>, r: Role): Option<seq<Instance>>
    decreases |batches|
  {
    if batches == [] then None
    else
      var rest := LastFor(batches[1..], r);
      if rest.Some? then rest else if batches[0].role == r then Some(batches[0].instances) else None
  }

  /** The `for i, instance in enumerate(instance_list)` loop, rebuilding one
      role's node list from empty. */
  method BuildNodes(r: Role, instances: seq<Instance>) returns (nodes: seq<Node>)
    ensures nodes == NodeRecords(r, instances)
  {
    nodes := [];
    var i := 0;
    while i < |instances|
      invariant i <= |instances|
      invariant |nodes| == i && forall k :: 0 <= k < i ==> nodes[k] == NodeRecord(r, instances[k])
    {
      nodes := nodes + [NodeRecord(r, instances[i])];
      i := i + 1;
    }
  }

  /** `update_config_with_instances(config, instances)`. */
  method UpdateConfigWithInstances(c: Config, batches: seq<RoleBatch>) returns (c': Config)
    ensures c' == Updated(c, batches)
  {
    c' := c;
    var k := 0;
    while k < |batches|
      invariant k <= |batches|
      invariant Updated(c', batches[k..]) == Updated(c, batches)
    {
      assert batches[k..][0] == batches[k] && batches[k..][1..] == batches[k + 1..];
      var nodes := BuildNodes(batches[k].role, batches[k].instances);
      c' := WithNodes(c', batches[k].role, nodes);
      k := k + 1;
    }
  }

  /** Each role with a batch gets exactly the records of its (last) batch's
      instances, replacing what was there: host, port 22, instance id, subnet
      and zone, and the `default` group for workers only. Roles without a
      batch, every count and everything outside `cluster` are untouched. */
  lemma {:induction false} UpdatedNodes(c: Config, batches: seq<RoleBatch>, r: Role)
    ensures var u := Updated(c, batches);
      && (LastFor(batches, r).Some? ==> Nodes(u, r) == NodeRecords(r, LastFor(batches, r).value))
      && (LastFor(batches, r).None? ==> Nodes(u, r) == Nodes(c, r))
      && At(u.cluster, r).count == At(c.cluster, r).count
      && At(u.cluster, r).instanceType == At(c.cluster, r).instanceType
      && u.(cluster := c.cluster) == c
    decreases |batches|
  {
    if batches != [] {
      var b := batches[0];
      UpdatedNodes(WithNodes(c, b.role, NodeRecords(b.role, b.instances)), batches[1..], r);
    }
  }

  /** With one batch per role, a role's last batch is its only one. */
  lemma {:induction false} LastForOnly(batches: seq<RoleBatch>, r: Role, k: nat)
    requires k < |batches| && batches[k].role == r
    requires forall j :: 0 <= j < |batches| && j != k ==> batches[j].role != r
    ensures LastFor(batches, r) == Some(batches[k].instances)
    decreases |batches|
  {
    if k == 0 {
      LastForAbsent(batches[1..], r);
    } else {
      LastForOnly(batches[1..], r, k - 1);
    }
  }

  /** A role with no batch has no last batch. */
  lemma {:induction false} LastForAbsent(batches: seq<RoleBatch>, r: Role)
    requires forall j :: 0 <= j < |batches| ==> batches[j].role != r
    ensures LastFor(batches, r).None?
    decreases |batches|
  {
    if batches != [] {
      LastForAbsent(batches[1..], r);
    }
  }

  /** Worker records, and only they, carry the `default` group. */
  lemma NodeRecordGroups(r: Role, i: Instance)
    ensures NodeRecord(r, i).groups.Some? <==> r == Worker
    ensures NodeRecord(r, i).groups.Some? ==> NodeRecord(r, i).groups.value == ["default"]
    ensures NodeRecord(r, i).sshPort == 22 && NodeRecord(r, i).instanceId == Some(i.id)
    ensures NodeRecord(r, i).host == i.privateIp && NodeRecord(r, i).subnetId == i.subnetId && NodeRecord(r, i).az == i.az
  {
  }

  // ---- the host lists of steps 2 and 4 ----

  /** Every instance, in batch order: the rollback ledger and `all_hosts`
      both follow it. */
  function AllInstances(batches: seq<RoleBatch>): seq<Instance>
    decreases |batches|
  {
    if batches == [] then [] else batches[0].instances + AllInstances(batches[1..])
  }

  function PrivateIps(instances: seq<Instance>): (ips: seq<string>)
    ensures |ips| == |instances| && forall k :: 0 <= k < |instances| ==> ips[k] == instances[k].privateIp
  {
    seq(|instances|, k requires 0 <= k < |instances| => instances[k].privateIp)
  }

  /** `all_hosts`. */
  function AllHosts(batches: seq<RoleBatch>): seq<string> {
    PrivateIps(AllInstances(batches))
  }

  /** The records of one batch: host, component, index and `ds-{component}-{i}`. */
  function BatchRecords(b: RoleBatch): (rs: seq<HostRecord>)
    ensures |rs| == |b.instances|
    ensures forall i :: 0 <= i < |rs| ==>
      rs[i] == HostRecord(b.instances[i].privateIp, Some(HostName(b.role, i)), Some(RoleName(b.role)), Some(i))
  {
    seq(|b.instances|, i requires 0 <= i < |b.instances| =>
      HostRecord(b.instances[i].privateIp, Some(HostName(b.role, i)), Some(RoleName(b.role)), Some(i)))
  }

  /** `all_nodes`. */
  function ClusterNodes(batches: seq<RoleBatch>): seq<HostRecord>
    decreases |batches|
  {
    if batches == [] then [] else BatchRecords(batches[0]) + ClusterNodes(batches[1..])
  }

  /** The inner loop over one batch's instances for `all_hosts`. */
  method AppendIps(hosts: seq<string>, instances: seq<Instance>) returns (hosts': seq<string>)
    ensures hosts' == hosts + PrivateIps(instances)
  {
    hosts' := hosts;
    var i := 0;
    while i < |instances|
      invariant i <= |instances|
      invariant hosts' == hosts + PrivateIps(instances[..i])
    {
      assert PrivateIps(instances[..i + 1]) == PrivateIps(instances[..i]) + [instances[i].privateIp];
      hosts' := hosts' + [instances[i].privateIp];
      i := i + 1;
    }
    assert instances[..i] == instances;
  }

  /** The step 2 loop over `all_instances`. */
  method CollectHosts(batches: seq<RoleBatch>) returns (hosts: seq<string>)
    ensures hosts == AllHosts(batches)
  {
    hosts := [];
    var k := 0;
    while k < |batches|
      invariant k <= |batches|
      invariant hosts + AllHosts(batches[k..]) == AllHosts(batches)
    {
      assert batches[k..][0] == batches[k] && batches[k..][1..] == batches[k + 1..];
      PrivateIpsAppend(batches[k].instances, AllInstances(batches[k + 1..]));
      hosts := AppendIps(hosts, batches[k].instances);
      k := k + 1;
    }
    assert batches[k..] == [];
  }

  /** The inner loop over one batch's instances for `all_nodes`. */
  method AppendRecords(nodes: seq<HostRecord>, b: RoleBatch) returns (nodes': seq<HostRecord>)
    ensures nodes' == nodes + BatchRecords(b)
  {
    nodes' := nodes;
    var i := 0;
    while i < |b.instances|
      invariant i <= |b.instances|
      invariant nodes' == nodes + BatchRecords(b)[..i]
    {
      assert BatchRecords(b)[..i + 1] == BatchRecords(b)[..i] + [BatchRecords(b)[i]];
      nodes' := nodes' + [HostRecord(b.instances[i].privateIp, Some(HostName(b.role, i)), Some(RoleName(b.role)), Some(i))];
      i := i + 1;
    }
    assert BatchRecords(b)[..i] == BatchRecords(b);
  }

  /** The step 4 loop over `all_instances`. */
  method CollectNodes(batches: seq<RoleBatch>) returns (nodes: seq<HostRecord>)
    ensures nodes == ClusterNodes(batches)
  {
    nodes := [];
    var k := 0;
    while k < |batches|
      invariant k <= |batches|
      invariant nodes + ClusterNodes(batches[k..]) == ClusterNodes(batches)
    {
      assert batches[k..][0] == batches[k] && batches[k..][1..] == batches[k + 1..];
      nodes := AppendRecords(nodes, batches[k]);
      k := k + 1;
    }
    assert batches[k..] == [];
  }

  lemma PrivateIpsAppend(a: seq<Instance>, b: seq<Instance>)
    ensures PrivateIps(a + b) == PrivateIps(a) + PrivateIps(b)
  {
  }

  /** The hosts of `all_nodes` are `all_hosts`, in the same order. */
  lemma {:induction false} ClusterNodesHosts(batches: seq<RoleBatch>)
    ensures NodeHosts(ClusterNodes(batches)) == AllHosts(batches)
    decreases |batches|
  {
    if batches != [] {
      ClusterNodesHosts(batches[1..]);
      PrivateIpsAppend(batches[0].instances, AllInstances(batches[1..]));
      var a := BatchRecords(batches[0]);
      var b := ClusterNodes(batches[1..]);
      assert NodeHosts(a + b) == NodeHosts(a) + NodeHosts(b);
    }
  }

  // ---- rollback_deployment ----

  /** The rollback: terminate exactly the ledger's instances, and make no
      call when it is empty. */
  function RollbackSpec(o: Oracle, w: World, ledger: seq<Instance>): Out<bool> {
    if ledger == [] then Out(w, Ok(true)) else Ec2.TerminateInstances(o, w, InstanceIds(ledger))
  }

  /** `rollback_deployment(config, state)`. */
  method RollbackDeployment(o: Oracle, w: World, state: DeploymentState) returns (w': World, r: Result<bool>)
    ensures Out(w', r) == RollbackSpec(o, w, state.createdInstances)
  {
    if state.createdInstances == [] {
      return w, Ok(true);
    }
    var ids := InstanceIds(state.createdInstances);
    var t := Ec2.TerminateInstances(o, w, ids);
    return t.world, t.result;
  }

  /** An empty ledger is a no-op; otherwise one terminate call that names
      every created instance, in creation order, and nothing else. */
  lemma RollbackOutcome(o: Oracle, w: World, ledger: seq<Instance>)
    ensures ledger == [] ==> RollbackSpec(o, w, ledger) == Out(w, Ok(true))
    ensures var x := RollbackSpec(o, w, ledger);
      ledger != [] ==>
        && Extends(w, x.world)
        && Since(w, x.world) == [Aws(Env.TerminateInstances(InstanceIds(ledger)), o.awsOk(Now(w)))]
        && (x.result.Ok? <==> o.awsOk(Now(w)))
        && |InstanceIds(ledger)| == |ledger|
        && forall k :: 0 <= k < |ledger| ==> InstanceIds(ledger)[k] == ledger[k].id
  {
    TerminateInstancesOutcome(o, w, InstanceIds(ledger));
  }

  // ---- wait_for_ssh_parallel ----

  const SshRetries := 30
  const SshInterval := 10

  /** One host's future: a False answer is raised as an error. */
  function SshReady(r: Out<bool>, host: string): Out<()> {
    if r.result.Err? then Out(r.world, Err(r.result.error))
    else if !r.result.value then Out(r.world, Err(Error(DeployError, "SSH not available on " + host)))
    else Out(r.world, Ok(()))
  }

  function SshUnit(o: Oracle): UnitFn {
    (v: World, h: string) => SshReady(WaitForSshSpec(o, v, h, SshRetries, SshInterval), h)
  }

  function WaitForSshParallelSpec(o: Oracle, w: World, hosts: seq<string>): Out<()> {
    BatchSpec(o, w, SshUnit(o), hosts)
  }

  /** `wait_for_ssh_parallel(hosts)`: `wait_for_ssh` with its defaults on
      every host. */
  method WaitForSshParallel(o: Oracle, w: World, hosts: seq<string>) returns (w': World, r: Result<()>)
    ensures Out(w', r) == WaitForSshParallelSpec(o, w, hosts)
  {
    w', r := Batch(o, w, SshUnit(o), hosts);
  }

  /** The step passes iff every host's unit did. */
  lemma WaitForSshParallelOutcome(o: Oracle, w: World, hosts: seq<string>)
    ensures WaitForSshParallelSpec(o, w, hosts).result.Ok? <==> AllOk(RunAll(SshUnit(o), w, hosts).results)
    ensures forall v: World, h: string :: SshUnit(o)(v, h) == SshReady(WaitForSshSpec(o, v, h, SshRetries, SshInterval), h)
  {
    BatchOutcome(o, w, SshUnit(o), hosts);
  }

  /** A host's unit passes iff its wait answered True; an answer of False
      raises `SSH not available on` that host, and an error is passed on. */
  lemma SshReadyOutcome(r: Out<bool>, host: string)
    ensures SshReady(r, host).world == r.world
    ensures SshReady(r, host).result.Ok? <==> r.result == Ok(true)
    ensures r.result == Ok(false) ==> SshReady(r, host).result == Err(Error(DeployError, "SSH not available on " + host))
    ensures r.result.Err? ==> SshReady(r, host).result == Err(r.result.error)
  {
  }

  // ---- initialize_nodes_parallel, with the ledger of finished nodes ----

  /** The hosts read from `as_completed` before the first failure. */
  function CompletedBefore(results: seq<Result<()>>, order: seq<nat>, hosts: seq<string>): seq<string>
    requires |results| == |hosts| && forall k :: 0 <= k < |order| ==> order[k] < |hosts|
    decreases |order|
  {
    if order == [] || results[order[0]].Err? then []
    else [hosts[order[0]]] + CompletedBefore(results, order[1..], hosts)
  }

  function Initialized(o: Oracle, w: World, hosts: seq<string>): seq<string> {
    var ran := RunAll(InitUnit(o), w, hosts);
    CompletedBefore(ran.results, CompletionOrder(o, Now(w), |hosts|), hosts)
  }

  /** A batch whose `as_completed` loop records each host read without an
      error, until the first one that raises. */
  method TrackedBatch(o: Oracle, w: World, unit: UnitFn, hosts: seq<string>, state: DeploymentState) returns (w': World, r: Result<()>)
    modifies state
    ensures Out(w', r) == BatchSpec(o, w, unit, hosts)
    ensures state.initializedNodes ==
      old(state.initializedNodes) + CompletedBefore(RunAll(unit, w, hosts).results, CompletionOrder(o, Now(w), |hosts|), hosts)
    ensures state.createdInstances == old(state.createdInstances)
  {
    var ran := RunAll(unit, w, hosts);
    var order := CompletionOrder(o, Now(w), |hosts|);
    r := ReadCompleted(ran.results, order, hosts, state);
    w' := ran.world;
  }

  /** The `as_completed` loop of a tracked batch. */
  method ReadCompleted(results: seq<Result<()>>, order: seq<nat>, hosts: seq<string>, state: DeploymentState) returns (r: Result<()>)
    requires |results| == |hosts| && forall j :: 0 <= j < |order| ==> order[j] < |hosts|
    modifies state
    ensures r == FirstFailure(results, order)
    ensures state.initializedNodes == old(state.initializedNodes) + CompletedBefore(results, order, hosts)
    ensures state.createdInstances == old(state.createdInstances)
  {
    ghost var before := state.initializedNodes;
    ghost var done := CompletedBefore(results, order, hosts);
    ghost var read: seq<string> := [];
    var k := 0;
    while k < |order|
      invariant k <= |order|
      invariant FirstFailure(results, order[k..]) == FirstFailure(results, order)
      invariant read + CompletedBefore(results, order[k..], hosts) == done
      invariant state.initializedNodes == before + read
      invariant state.createdInstances == old(state.createdInstances)
    {
      ReadStep(results, order, hosts, k);
      if results[order[k]].Err? {
        assert read + [] == read;
        return results[order[k]];
      }
      var h := hosts[order[k]];
      state.AddInitializedNode(h);
      assert read + [h] + CompletedBefore(results, order[k + 1..], hosts) == done;
      read := read + [h];
      k := k + 1;
    }
    assert order[k..] == [];
    assert read + [] == read;
    r := Ok(());
  }

  /** One turn of the `as_completed` loop, on the outcome read and on the ledger. */
  lemma ReadStep(results: seq<Result<()>>, order: seq<nat>, hosts: seq<string>, k: nat)
    requires |results| == |hosts| && forall j :: 0 <= j < |order| ==> order[j] < |hosts|
    requires k < |order|
    ensures order[k] < |results|
    ensures FirstFailure(results, order[k..]) ==
      if results[order[k]].Err? then results[order[k]] else FirstFailure(results, order[k + 1..])
    ensures CompletedBefore(results, order[k..], hosts) ==
      if results[order[k]].Err? then [] else [hosts[order[k]]] + CompletedBefore(results, order[k + 1..], hosts)
  {
    assert order[k..][0] == order[k] && order[k..][1..] == order[k + 1..];
  }

  /** The `initialize_nodes_parallel` of `create`. */
  method InitializeNodesTracked(o: Oracle, w: World, hosts: seq<string>, state: DeploymentState) returns (w': World, r: Result<bool>)
    modifies state
    ensures Out(w', r) == InitializeNodesParallelSpec(o, w, hosts)
    ensures state.initializedNodes == old(state.initializedNodes) + Initialized(o, w, hosts)
    ensures state.createdInstances == old(state.createdInstances)
  {
    var u;
    w', u := TrackedBatch(o, w, InitUnit(o), hosts, state);
    r := if u.Err? then Err(u.error) else Ok(true);
  }

  /** The ledger holds the hosts read before the first failure, in
      completion order, each of which initialized without error; when the
      step passes, that is every host. */
  lemma {:induction false} CompletedBeforeSpec(results: seq<Result<()>>, order: seq<nat>, hosts: seq<string>)
    requires |results| == |hosts| && forall k :: 0 <= k < |order| ==> order[k] < |hosts|
    ensures var done := CompletedBefore(results, order, hosts);
      && |done| <= |order|
      && (forall k :: 0 <= k < |done| ==> done[k] == hosts[order[k]] && results[order[k]].Ok?)
      && (|done| < |order| ==> results[order[|done|]].Err?)
      && (FirstFailure(results, order).Ok? ==> |done| == |order|)
    decreases |order|
  {
    if order != [] && results[order[0]].Ok? {
      CompletedBeforeSpec(results, order[1..], hosts);
      var done := CompletedBefore(results, order, hosts);
      var rest := CompletedBefore(results, order[1..], hosts);
      forall k | 0 <= k < |done| ensures done[k] == hosts[order[k]] && results[order[k]].Ok? {
        if k > 0 {
          assert done[k] == rest[k - 1] && order[k] == order[1..][k - 1];
        }
      }
      if |done| < |order| {
        assert order[|done|] == order[1..][|rest|];
      }
    }
  }

  // ---- the post-start checks ----

  const ReadyRetries := 10
  const ReadyInterval := 10
  const MasterPort := 5678
  const WorkerPort := 1234
  const ApiPort := 12345

  /** `wait_for_service_ready` on each host in turn, its answer only logged. */
  function ProbeAll(o: Oracle, w: World, hosts: seq<string>, port: nat): World
    decreases |hosts|
  {
    if hosts == [] then w
    else ProbeAll(o, ReadyAttempts(o, w, hosts[0], port, ReadyInterval, 0, ReadyRetries), hosts[1..], port)
  }

  /** Masters on 5678, workers on 1234, API servers on 12345; the alert
      server is not checked. */
  function VerifySpec(o: Oracle, w: World, c: Config): World {
    var m := ProbeAll(o, w, RoleHosts(c, Master), MasterPort);
    var k := ProbeAll(o, m, RoleHosts(c, Worker), WorkerPort);
    ProbeAll(o, k, RoleHosts(c, Api), ApiPort)
  }

  method CheckRole(o: Oracle, w: World, hosts: seq<string>, port: nat) returns (w': World)
    ensures w' == ProbeAll(o, w, hosts, port)
  {
    w' := w;
    var i := 0;
    while i < |hosts|
      invariant i <= |hosts|
      invariant ProbeAll(o, w', hosts[i..], port) == ProbeAll(o, w, hosts, port)
    {
      assert hosts[i..][0] == hosts[i] && hosts[i..][1..] == hosts[i + 1..];
      var ready;
      w', ready := WaitForServiceReady(o, w', hosts[i], port, ReadyRetries, ReadyInterval);
      i := i + 1;
    }
  }

  /** The `Verifying services` block of `create_cluster`. */
  method VerifyServices(o: Oracle, w: World, c: Config) returns (w': World)
    ensures w' == VerifySpec(o, w, c)
  {
    w' := CheckRole(o, w, RoleHosts(c, Master), MasterPort);
    w' := CheckRole(o, w', RoleHosts(c, Worker), WorkerPort);
    w' := CheckRole(o, w', RoleHosts(c, Api), ApiPort);
  }

  /** What a check may do: pause, or probe one of the listed hosts on the port. */
  predicate ProbedOn(e: Event, hosts: seq<string>, port: nat) {
    e == Sleep(ReadyInterval) || (e.Probe? && e.host in hosts && e.port == port)
  }

  lemma {:induction false} ProbeAllEvents(o: Oracle, w: World, hosts: seq<string>, port: nat)
    ensures var v := ProbeAll(o, w, hosts, port);
      Extends(w, v) && v.cloud == w.cloud && forall e :: e in Since(w, v) ==> ProbedOn(e, hosts, port)
    decreases |hosts|
  {
    if hosts != [] {
      var u := ReadyAttempts(o, w, hosts[0], port, ReadyInterval, 0, ReadyRetries);
      ReadyAttemptsEvents(o, w, hosts[0], port, ReadyInterval, 0, ReadyRetries);
      ProbeAllEvents(o, u, hosts[1..], port);
      var v := ProbeAll(o, u, hosts[1..], port);
      ExtendsTransitive(w, u, v);
      forall e | e in Since(w, v) ensures ProbedOn(e, hosts, port) {
        if e in Since(u, v) {
          assert ProbedOn(e, hosts[1..], port);
        }
      }
    }
  }

  /** The checks change no resource and raise nothing; every probe goes to
      a master on 5678, a worker on 1234 or an API server on 12345. */
  lemma VerifyEvents(o: Oracle, w: World, c: Config)
    ensures var v := VerifySpec(o, w, c);
      && Extends(w, v) && v.cloud == w.cloud
      && forall e :: e in Since(w, v) ==>
           ProbedOn(e, RoleHosts(c, Master), MasterPort) || ProbedOn(e, RoleHosts(c, Worker), WorkerPort) ||
           ProbedOn(e, RoleHosts(c, Api), ApiPort)
  {
    var m := ProbeAll(o, w, RoleHosts(c, Master), MasterPort);
    var k := ProbeAll(o, m, RoleHosts(c, Worker), WorkerPort);
    var v := ProbeAll(o, k, RoleHosts(c, Api), ApiPort);
    ProbeAllEvents(o, w, RoleHosts(c, Master), MasterPort);
    ProbeAllEvents(o, m, RoleHosts(c, Worker), WorkerPort);
    ProbeAllEvents(o, k, RoleHosts(c, Api), ApiPort);
    ExtendsTransitive(w, m, k);
    ExtendsTransitive(w, k, v);
  }

  // ---- step 1: the instances ----

  /** The count each role's batch asks for: the alert batch always asks for one. */
  function BatchCount(c: Config, r: Role): int {
    if r == Alert then 1 else At(c.cluster, r).count
  }

  /** Step 1 so far: the world, the batches that returned, and the error
      that stopped it, if any. */
  datatype Provisioned = Provisioned(world: World, batches: seq<RoleBatch>, error: Option<Error>)

  /** One role's block: nothing once an earlier block raised. */
  function ProvisionStep(o: Oracle, c: Config, r: Role, p: Provisioned): Provisioned {
    if p.error.Some? then p
    else
      var x := CreateInstancesParallelSpec(o, p.world, c, r, BatchCount(c, r), c.subnets);
      if x.result.Err? then Provisioned(x.world, p.batches, Some(x.result.error))
      else Provisioned(x.world, p.batches + [RoleBatch(r, x.result.value)], None)
  }

  /** Masters, then workers, then API servers, then the alert server. */
  function Provision(o: Oracle, w: World, c: Config): Provisioned {
    var m := ProvisionStep(o, c, Master, Provisioned(w, [], None));
    var k := ProvisionStep(o, c, Worker, m);
    var a := ProvisionStep(o, c, Api, k);
    ProvisionStep(o, c, Alert, a)
  }

  lemma AllInstancesAppend(batches: seq<RoleBatch>, b: RoleBatch)
    ensures AllInstances(batches + [b]) == AllInstances(batches) + b.instances
    decreases |batches|
  {
    if batches != [] {
      assert (batches + [b])[1..] == batches[1..] + [b];
      AllInstancesAppend(batches[1..], b);
    }
  }

  /** One role's block, and the ledger loop after it. */
  method ProvisionRole(o: Oracle, c: Config, r: Role, p: Provisioned, state: DeploymentState) returns (q: Provisioned)
    requires p.error.None? && state.createdInstances == AllInstances(p.batches)
    modifies state
    ensures q == ProvisionStep(o, c, r, p)
    ensures state.createdInstances == AllInstances(q.batches)
    ensures state.initializedNodes == old(state.initializedNodes)
  {
    var w', res := CreateInstancesParallel(o, p.world, c, r, BatchCount(c, r), c.subnets);
    if res.Err? {
      return Provisioned(w', p.batches, Some(res.error));
    }
    state.AddInstances(res.value);
    AllInstancesAppend(p.batches, RoleBatch(r, res.value));
    q := Provisioned(w', p.batches + [RoleBatch(r, res.value)], None);
  }

  /** Step 1 of `create_cluster`. */
  method ProvisionAll(o: Oracle, w: World, c: Config, state: DeploymentState) returns (p: Provisioned)
    requires state.createdInstances == []
    modifies state
    ensures p == Provision(o, w, c)
    ensures state.createdInstances == AllInstances(p.batches)
    ensures state.initializedNodes == old(state.initializedNodes)
  {
    p := ProvisionRole(o, c, Master, Provisioned(w, [], None), state);
    if p.error.None? {
      p := ProvisionRole(o, c, Worker, p, state);
    }
    if p.error.None? {
      p := ProvisionRole(o, c, Api, p, state);
    }
    if p.error.None? {
      p := ProvisionRole(o, c, Alert, p, state);
    }
  }

  /** A batch that returned for role `r`: one instance per requested index,
      each named after an index below the count. */
  predicate BatchShape(c: Config, b: RoleBatch, r: Role) {
    && b.role == r
    && |b.instances| == (if BatchCount(c, r) > 0 then BatchCount(c, r) else 0)
    && forall j :: 0 <= j < |b.instances| ==>
         exists i :: 0 <= i < BatchCount(c, r) && Named(b.instances[j], HostName(r, i))
  }

  /** What the blocks so far leave: the roles in order, each batch in shape,
      the trace only extended. */
  predicate ProvisionedSoFar(w: World, c: Config, p: Provisioned, roles: nat) {
    && Extends(w, p.world)
    && |p.batches| <= roles <= 4
    && (p.error.None? ==> |p.batches| == roles)
    && (p.error.Some? ==> |p.batches| < roles)
    && forall k :: 0 <= k < |p.batches| ==> BatchShape(c, p.batches[k], RoleOrder[k])
  }

  lemma ProvisionStepOutcome(o: Oracle, w: World, c: Config, p: Provisioned, roles: nat)
    requires roles < 4 && ProvisionedSoFar(w, c, p, roles)
    ensures ProvisionedSoFar(w, c, ProvisionStep(o, c, RoleOrder[roles], p), roles + 1)
  {
    if p.error.None? {
      var r := RoleOrder[roles];
      CreateInstancesParallelResult(o, p.world, c, r, BatchCount(c, r), c.subnets);
      var x := CreateInstancesParallelSpec(o, p.world, c, r, BatchCount(c, r), c.subnets);
      ExtendsTransitive(w, p.world, x.world);
      if x.result.Ok? {
        var b := RoleBatch(r, x.result.value);
        assert BatchShape(c, b, r);
        var q := ProvisionStep(o, c, r, p);
        assert q.batches == p.batches + [b];
        forall k | 0 <= k < |q.batches| ensures BatchShape(c, q.batches[k], RoleOrder[k]) {
          if k < |p.batches| {
            assert q.batches[k] == p.batches[k];
          }
        }
      }
    }
  }

  /** Step 1 asks for masters, workers, API servers and one alert server, in
      that order; it completes iff all four batches return, and each batch
      that returned holds one instance per requested index. A failed batch
      adds nothing, not even the instances it launched before raising: the
      batches before it are all that is recorded. */
  lemma ProvisionOutcome(o: Oracle, w: World, c: Config)
    ensures ProvisionedSoFar(w, c, Provision(o, w, c), 4)
    ensures BatchCount(c, Alert) == 1
  {
    var p0 := Provisioned(w, [], None);
    var m := ProvisionStep(o, c, Master, p0);
    var k := ProvisionStep(o, c, Worker, m);
    var a := ProvisionStep(o, c, Api, k);
    ProvisionStepOutcome(o, w, c, p0, 0);
    ProvisionStepOutcome(o, w, c, m, 1);
    ProvisionStepOutcome(o, w, c, k, 2);
    ProvisionStepOutcome(o, w, c, a, 3);
  }

  // ---- steps 2 to 4: preparing the nodes ----

  /** SSH on every host, then the system packages, then the deployment
      user, then the shared key, then `/etc/hosts`; the first step that
      raises ends the phase. */
  function PrepareNodesSpec(o: Oracle, w: World, c: Config, batches: seq<RoleBatch>): Out<()> {
    var hosts := AllHosts(batches);
    var s := WaitForSshParallelSpec(o, w, hosts);
    if s.result.Err? then s
    else
      var i := InitializeNodesParallelSpec(o, s.world, hosts);
      if i.result.Err? then Out(i.world, Err(i.result.error))
      else
        var u := CreateUsersParallelSpec(o, i.world, hosts, c.deployUser);
        if u.result.Err? then Out(u.world, Err(u.result.error))
        else
          var nodes := ClusterNodes(batches);
          var k := SetupSshKeysSpec(o, u.world, NodeHosts(nodes));
          if k.result.Err? then Out(k.world, Err(k.result.error))
          else
            var h := ConfigureHostsFileSpec(o, k.world, nodes);
            Out(h.world, if h.result.Err? then Err(h.result.error) else Ok(()))
  }

  /** Steps 2, 3 and 4 of `create_cluster`. */
  method PrepareNodes(o: Oracle, w: World, c: Config, batches: seq<RoleBatch>, state: DeploymentState) returns (w': World, r: Result<()>)
    modifies state
    ensures Out(w', r) == PrepareNodesSpec(o, w, c, batches)
    ensures state.createdInstances == old(state.createdInstances)
  {
    var hosts := CollectHosts(batches);
    w', r := WaitForSshParallel(o, w, hosts);
    if r.Err? {
      return;
    }
    var i;
    w', i := InitializeNodesTracked(o, w', hosts, state);
    if i.Err? {
      return w', Err(i.error);
    }
    var u;
    w', u := CreateUsersParallel(o, w', hosts, c.deployUser);
    if u.Err? {
      return w', Err(u.error);
    }
    var nodes := CollectNodes(batches);
    var k;
    w', k := SetupSshKeys(o, w', NodeHosts(nodes));
    if k.Err? {
      return w', Err(k.error);
    }
    var h;
    w', h := ConfigureHostsFile(o, w', nodes);
    r := if h.Err? then Err(h.error) else Ok(());
  }

  // ---- steps 5 and 6: deploying and starting ----

  const CacheDir := "/tmp/ds-cache"

  /** Where `download_dolphinscheduler` leaves the package. */
  function LocalPackage(version: string): string {
    CacheDir + "/apache-dolphinscheduler-" + version + "-bin.tar.gz"
  }

  function DownloadAction(c: Config): string {
    "download_dolphinscheduler " + c.version + (if c.downloadUrl.Some? then " " + c.downloadUrl.value else "")
  }

  /** `download_dolphinscheduler(version, download_url=...)` on this machine. */
  function DownloadPackage(o: Oracle, w: World, c: Config): Out<string> {
    var ok := o.localOk(Now(w), DownloadAction(c));
    Out(Emit(w, Local(DownloadAction(c), ok)),
        if ok then Ok(LocalPackage(c.version)) else Err(Error(DeployError, "Download failed")))
  }

  /** The two collaborators of steps 5 and 6: `deploy_dolphinscheduler`
      (which `create` imports under a name the installer does not define)
      and `start_services`. */
  datatype Collaborators = Collaborators(
    deploy: (World, Config, Option<string>) -> Out<bool>,
    start: (World, Config) -> Out<bool>)

  /** The installer's `deploy_dolphinscheduler_v320` and the service
      manager's `start_services`. */
  function Deployment(o: Oracle): Collaborators {
    Collaborators((v: World, c: Config, p: Option<string>) => DeploySpec(o, v, c, p),
                  (v: World, c: Config) => StartServicesSpec(o, v, c))
  }

  /** Step 5: with `download_on_remote` on (the default) the node fetches
      the package itself; otherwise it is downloaded here and uploaded. */
  function DeployPhase(o: Oracle, w: World, c: Config, col: Collaborators): Out<bool> {
    if OrDefault(c.downloadOnRemote, true) then col.deploy(w, c, None)
    else
      var d := DownloadPackage(o, w, c);
      if d.result.Err? then Out(d.world, Err(d.result.error))
      else col.deploy(d.world, c, Some(d.result.value))
  }

  /** `create_cluster`'s success value. */
  datatype ClusterCreated = ClusterCreated(instances: seq<RoleBatch>, apiEndpoint: string)

  function ApiEndpoint(host: string): string {
    "http://" + host + ":12345/dolphinscheduler"
  }

  /** Deploy, start, check (fail-soft), then read the first API host. */
  function DeployAndStartSpec(o: Oracle, w: World, c: Config, batches: seq<RoleBatch>, col: Collaborators): Out<ClusterCreated> {
    var d := DeployPhase(o, w, c, col);
    if d.result.Err? then Out(d.world, Err(d.result.error))
    else
      var st := col.start(d.world, c);
      if st.result.Err? then Out(st.world, Err(st.result.error))
      else
        var v := VerifySpec(o, st.world, c);
        if Nodes(c, Api) == [] then Out(v, Err(IndexOutOfRange))
        else Out(v, Ok(ClusterCreated(batches, ApiEndpoint(Nodes(c, Api)[0].host))))
  }

  /** Steps 5 and 6 of `create_cluster`, and its return value. */
  method DeployAndStart(o: Oracle, w: World, c: Config, batches: seq<RoleBatch>, col: Collaborators) returns (w': World, r: Result<ClusterCreated>)
    ensures Out(w', r) == DeployAndStartSpec(o, w, c, batches, col)
  {
    var d;
    if OrDefault(c.downloadOnRemote, true) {
      d := col.deploy(w, c, None);
    } else {
      var pkg := DownloadPackage(o, w, c);
      if pkg.result.Err? {
        return pkg.world, Err(pkg.result.error);
      }
      d := col.deploy(pkg.world, c, Some(pkg.result.value));
    }
    if d.result.Err? {
      return d.world, Err(d.result.error);
    }
    var st := col.start(d.world, c);
    if st.result.Err? {
      return st.world, Err(st.result.error);
    }
    w' := st.world;
    w' := VerifyServices(o, w', c);
    if Nodes(c, Api) == [] {
      return w', Err(IndexOutOfRange);
    }
    r := Ok(ClusterCreated(batches, ApiEndpoint(Nodes(c, Api)[0].host)));
  }

  /** The checks decide nothing: the phase succeeds iff the deploy and the
      start go through and there is an API node, whatever the probes answer,
      and its endpoint is the first API node's. */
  lemma DeployAndStartOutcome(o: Oracle, w: World, c: Config, batches: seq<RoleBatch>, col: Collaborators)
    ensures var x := DeployAndStartSpec(o, w, c, batches, col);
      var d := DeployPhase(o, w, c, col);
      var st := col.start(d.world, c);
      && (x.result.Ok? <==> d.result.Ok? && st.result.Ok? && Nodes(c, Api) != [])
      && (d.result.Ok? && st.result.Ok? ==> x.world == VerifySpec(o, st.world, c))
      && (x.result.Ok? ==> x.result.value == ClusterCreated(batches, ApiEndpoint(Nodes(c, Api)[0].host)))
      && (d.result.Ok? && st.result.Ok? && Nodes(c, Api) == [] ==> x.result == Err(IndexOutOfRange))
  {
  }

  /** Downloading here comes first only when `download_on_remote` is off;
      the package is then the cached `apache-dolphinscheduler-{version}-bin.tar.gz`. */
  lemma DeployPhaseOutcome(o: Oracle, w: World, c: Config, col: Collaborators)
    ensures OrDefault(c.downloadOnRemote, true) ==> DeployPhase(o, w, c, col) == col.deploy(w, c, None)
    ensures var d := DownloadPackage(o, w, c);
      !OrDefault(c.downloadOnRemote, true) ==>
        && d.world.trace == w.trace + [Local(DownloadAction(c), o.localOk(Now(w), DownloadAction(c)))]
        && (d.result.Err? ==> DeployPhase(o, w, c, col) == Out(d.world, Err(d.result.error)))
        && (d.result.Ok? ==> DeployPhase(o, w, c, col) == col.deploy(d.world, c, Some(LocalPackage(c.version))))
  {
  }

  // ---- create_cluster ----

  /** The `except` block: roll back, then re-raise; an error raised by the
      rollback itself replaces the original one. */
  function AbortSpec(o: Oracle, w: World, ledger: seq<Instance>, e: Error): Out<ClusterCreated> {
    var rb := RollbackSpec(o, w, ledger);
    Out(rb.world, Err(if rb.result.Err? then rb.result.error else e))
  }

  method Abort(o: Oracle, w: World, state: DeploymentState, e: Error) returns (w': World, r: Result<ClusterCreated>)
    ensures Out(w', r) == AbortSpec(o, w, state.createdInstances, e)
  {
    var rb;
    w', rb := RollbackDeployment(o, w, state);
    r := Err(if rb.Err? then rb.error else e);
  }

  /** The world, the configuration as `create_cluster` leaves it, and its
      result. */
  datatype Creation = Creation(world: World, config: Config, result: Result<ClusterCreated>)

  /** Steps 5 and 6 are done: an error aborts, anything else is returned. */
  function Finish(o: Oracle, c: Config, ledger: seq<Instance>, f: Out<ClusterCreated>): Creation {
    if f.result.Err? then
      var a := AbortSpec(o, f.world, ledger, f.result.error);
      Creation(a.world, c, a.result)
    else Creation(f.world, c, f.result)
  }

  /** Steps 2 to 4 are done (`q`), with the configuration already updated. */
  function AfterPrepare(o: Oracle, c: Config, batches: seq<RoleBatch>, q: Out<()>, col: Collaborators): Creation {
    var ledger := AllInstances(batches);
    if q.result.Err? then
      var a := AbortSpec(o, q.world, ledger, q.result.error);
      Creation(a.world, c, a.result)
    else Finish(o, c, ledger, DeployAndStartSpec(o, q.world, c, batches, col))
  }

  function CreateClusterSpec(o: Oracle, w: World, c: Config, col: Collaborators): Creation {
    var p := Provision(o, w, c);
    if p.error.Some? then
      var a := AbortSpec(o, p.world, AllInstances(p.batches), p.error.value);
      Creation(a.world, c, a.result)
    else
      var c' := Updated(c, p.batches);
      AfterPrepare(o, c', p.batches, PrepareNodesSpec(o, p.world, c', p.batches), col)
  }

  /** `create_cluster(config)`. */
  method CreateCluster(o: Oracle, w: World, c: Config, col: Collaborators) returns (w': World, c': Config, r: Result<ClusterCreated>)
    ensures Creation(w', c', r) == CreateClusterSpec(o, w, c, col)
  {
    var state := new DeploymentState();
    var p := ProvisionAll(o, w, c, state);
    c' := c;
    if p.error.Some? {
      w', r := Abort(o, p.world, state, p.error.value);
      return;
    }
    c' := UpdateConfigWithInstances(c, p.batches);
    var q;
    w', q := PrepareNodes(o, p.world, c', p.batches, state);
    if q.Err? {
      w', r := Abort(o, w', state, q.error);
      return;
    }
    w', r := DeployAndStart(o, w', c', p.batches, col);
    if r.Err? {
      w', r := Abort(o, w', state, r.error);
    }
  }

  /** A failure after step 4 is an abort with the full ledger; success
      returns the batches and the first API node's endpoint, so the API
      list must not be empty. */
  lemma AfterPrepareOutcome(o: Oracle, c: Config, batches: seq<RoleBatch>, q: Out<()>, col: Collaborators)
    ensures var x := AfterPrepare(o, c, batches, q, col);
      && x.config == c
      && (x.result.Err? ==> exists v: World, e: Error :: Out(x.world, x.result) == AbortSpec(o, v, AllInstances(batches), e))
      && (x.result.Ok? ==>
            && q.result.Ok? && Nodes(c, Api) != []
            && x.result.value == ClusterCreated(batches, ApiEndpoint(Nodes(c, Api)[0].host)))
  {
    var ledger := AllInstances(batches);
    if q.result.Err? {
      assert Out(AfterPrepare(o, c, batches, q, col).world, AfterPrepare(o, c, batches, q, col).result)
        == AbortSpec(o, q.world, ledger, q.result.error);
    } else {
      var f := DeployAndStartSpec(o, q.world, c, batches, col);
      DeployAndStartOutcome(o, q.world, c, batches, col);
      if f.result.Err? {
        assert Out(Finish(o, c, ledger, f).world, Finish(o, c, ledger, f).result)
          == AbortSpec(o, f.world, ledger, f.result.error);
      }
    }
  }

  /** After a complete step 1 the API node list is the third batch's records. */
  lemma ProvisionedApiNodes(w: World, c: Config, p: Provisioned)
    requires ProvisionedSoFar(w, c, p, 4) && p.error.None?
    ensures
      && |p.batches| == 4
      && (forall k :: 0 <= k < 4 ==> p.batches[k].role == RoleOrder[k])
      && |p.batches[2].instances| == (if At(c.cluster, Api).count > 0 then At(c.cluster, Api).count else 0)
      && Nodes(Updated(c, p.batches), Api) == NodeRecords(Api, p.batches[2].instances)
  {
    assert BatchShape(c, p.batches[0], Master) && BatchShape(c, p.batches[1], Worker);
    assert BatchShape(c, p.batches[2], Api) && BatchShape(c, p.batches[3], Alert);
    LastForOnly(p.batches, Api, 2);
    UpdatedNodes(c, p.batches, Api);
  }

  /** Every failure rolls back exactly the instances of the batches returned
      so far and re-raises (the rollback's own error, if it raised, taking the place
      of the first); the configuration is written back in place as soon as
      all four batches return, and only then. On success the result holds
      the four batches in role order and the endpoint of the first API
      instance, so a cluster asking for no API server cannot be created.
      Instances that a failing batch launched before it raised never reach
      the ledger and are not rolled back. */
  lemma CreateClusterOutcome(o: Oracle, w: World, c: Config, col: Collaborators)
    ensures var p := Provision(o, w, c);
      var x := CreateClusterSpec(o, w, c, col);
      var ledger := AllInstances(p.batches);
      && (p.error.Some? ==> x.config == c && Out(x.world, x.result) == AbortSpec(o, p.world, ledger, p.error.value))
      && (p.error.None? ==> x.config == Updated(c, p.batches) && |p.batches| == 4)
      && (x.result.Err? ==> exists v: World, e: Error :: Out(x.world, x.result) == AbortSpec(o, v, ledger, e))
      && (x.result.Ok? ==>
            && p.error.None?
            && x.result.value.instances == p.batches
            && |p.batches| == 4
            && (forall k :: 0 <= k < 4 ==> p.batches[k].role == RoleOrder[k])
            && Nodes(x.config, Api) == NodeRecords(Api, p.batches[2].instances)
            && |p.batches[2].instances| > 0
            && x.result.value.apiEndpoint == ApiEndpoint(p.batches[2].instances[0].privateIp))
      && (At(c.cluster, Api).count <= 0 ==> x.result.Err?)
  {
    var p := Provision(o, w, c);
    ProvisionOutcome(o, w, c);
    if p.error.None? {
      var c' := Updated(c, p.batches);
      ProvisionedApiNodes(w, c, p);
      AfterPrepareOutcome(o, c', p.batches, PrepareNodesSpec(o, p.world, c', p.batches), col);
    }
  }
}
