/** The EC2 side of the provisioner: the AMI choice, the tag set of a new
    instance, the launch (`create_instances`, `wait_until_running`,
    `reload`) that is idempotent on the `Name` tag, the parallel launch of
    one role's instances, termination, lookup by tag, and the port-probe
    retry loop. Every boto3 call these make is an `Aws` event whose success
    the oracle decides. */
module Ec2 {
  import opened Common
  import opened Strings
  import opened Dicts
  import opened Cluster
  import opened Env

  /** What a boto3 call that raised becomes. */
  const AwsFailure := Error(AwsError, "AWS call failed")

  /** One boto3 call: it is recorded, and raises when the oracle says so. */
  function Invoke(o: Oracle, w: World, call: Call): (r: Out<()>)
    ensures Extends(w, r.world) && Since(w, r.world) == [Aws(call, o.awsOk(Now(w)))]
    ensures r.world.cloud == w.cloud
    ensures r.result.Ok? <==> o.awsOk(Now(w))
    ensures r.result.Err? ==> r.result.error == AwsFailure
  {
    var ok := o.awsOk(Now(w));
    var v := Emit(w, Aws(call, ok));
    assert Since(w, v) == [Aws(call, ok)];
    Out(v, if ok then Ok(()) else Err(AwsFailure))
  }

  // ---- get_ami_id ----

  const Al2023 := "al2023"

  /** The position of the image that `sorted(images, key=CreationDate,
      reverse=True)[0]` picks among the first `n`. */
  function NewestAmong(images: seq<Image>, n: nat): (k: nat)
    requires 0 < n <= |images|
    ensures k < n
    decreases n
  {
    if n == 1 then 0
    else
      var b := NewestAmong(images, n - 1);
      if LexLt(images[b].creationDate, images[n - 1].creationDate) then n - 1 else b
  }

  /** The chosen image has the latest creation date, and it is the first
      listed among those with that date, since Python's sort is stable also
      when reversed. */
  lemma {:induction false} NewestAmongSpec(images: seq<Image>, n: nat)
    requires 0 < n <= |images|
    ensures var k := NewestAmong(images, n);
      (forall j :: 0 <= j < n ==> LexLe(images[j].creationDate, images[k].creationDate)) &&
      (forall j :: 0 <= j < k ==> images[j].creationDate != images[k].creationDate)
    decreases n
  {
    var k := NewestAmong(images, n);
    if n == 1 {
      LexLeReflexive(images[0].creationDate);
    } else {
      var b := NewestAmong(images, n - 1);
      NewestAmongSpec(images, n - 1);
      var top := images[n - 1].creationDate;
      if LexLt(images[b].creationDate, top) {
        forall j | 0 <= j < n ensures LexLe(images[j].creationDate, top) {
          if j < n - 1 {
            LexLeTransitive(images[j].creationDate, images[b].creationDate, top);
          } else {
            LexLeReflexive(top);
          }
        }
        forall j | 0 <= j < n - 1 ensures images[j].creationDate != top {
          if images[j].creationDate == top {
            LexLeAntisymmetric(images[b].creationDate, top);
          }
        }
      } else {
        LexLeTotal(images[b].creationDate, top);
        assert LexLe(top, images[b].creationDate);
      }
    }
  }

  /** `get_ami_id(region, os_type)`: only `al2023` is known; the images are
      the ones `describe_images` lists for its name, state and architecture
      filters. */
  function GetAmiId(o: Oracle, w: World, osType: string): Out<string> {
    if osType != Al2023 then Out(w, Err(Error(ValueError, "Unsupported OS type: " + osType)))
    else
      var d := Invoke(o, w, DescribeImages);
      if d.result.Err? then Out(d.world, Err(d.result.error))
      else if o.images == [] then Out(d.world, Err(Error(ValueError, "No AMI found for " + osType)))
      else Out(d.world, Ok(o.images[NewestAmong(o.images, |o.images|)].imageId))
  }

  /** Any other OS type raises ValueError before any call; otherwise one
      `describe_images` call is made, an empty answer raises ValueError, and
      the result is the id of an image with the latest creation date. */
  lemma GetAmiIdOutcome(o: Oracle, w: World, osType: string)
    ensures var r := GetAmiId(o, w, osType);
      osType != Al2023 ==> r.world == w && r.result.Err? && r.result.error.kind == ValueError
    ensures var r := GetAmiId(o, w, osType);
      osType == Al2023 ==>
        && Extends(w, r.world) && r.world.cloud == w.cloud
        && Since(w, r.world) == [Aws(DescribeImages, o.awsOk(Now(w)))]
        && (r.result.Ok? <==> o.awsOk(Now(w)) && o.images != [])
        && (o.awsOk(Now(w)) && o.images == [] ==> r.result.Err? && r.result.error.kind == ValueError)
    ensures var r := GetAmiId(o, w, osType);
      r.result.Ok? ==>
        exists k :: 0 <= k < |o.images| && o.images[k].imageId == r.result.value &&
          forall j :: 0 <= j < |o.images| ==> LexLe(o.images[j].creationDate, o.images[k].creationDate)
  {
    if osType == Al2023 && o.awsOk(Now(w)) && o.images != [] {
      NewestAmongSpec(o.images, |o.images|);
    }
  }

  // ---- the tag set ----

  const NameKey := "Name"
  const ComponentKey := "Component"
  const IndexKey := "Index"
  const ManagedByKey := "ManagedBy"
  const ManagedByCli := "dolphinscheduler-cli"

  /** The tags every instance of the tool carries. */
  function BaseTags(r: Role, index: nat): seq<Item<string>> {
    [Item(NameKey, HostName(r, index)), Item(ComponentKey, RoleName(r)),
     Item(IndexKey, NatToString(index)), Item(ManagedByKey, ManagedByCli)]
  }

  /** `{**custom_tags, **base_tags}` with the custom tags of
      `ec2_advanced.<component>.tags`. */
  function InstanceTags(c: Config, r: Role, index: nat): seq<Item<string>> {
    Merge(At(c.ec2Advanced, r).tags, BaseTags(r, index))
  }

  predicate IsBaseKey(k: string) {
    k == NameKey || k == ComponentKey || k == IndexKey || k == ManagedByKey
  }

  lemma BaseTagsDistinct(r: Role, index: nat)
    ensures DistinctKeys(BaseTags(r, index))
  {
  }

  lemma BaseTagsGet(r: Role, index: nat, k: string)
    ensures Get(BaseTags(r, index), k) ==
      if k == NameKey then Some(HostName(r, index))
      else if k == ComponentKey then Some(RoleName(r))
      else if k == IndexKey then Some(NatToString(index))
      else if k == ManagedByKey then Some(ManagedByCli)
      else None
  {
    var b := BaseTags(r, index);
    var b1, b2, b3 := b[1..], b[1..][1..], b[1..][1..][1..];
    assert b1 == [b[1], b[2], b[3]] && b2 == [b[2], b[3]] && b3 == [b[3]] && b3[1..] == [];
    assert Get(b3, k) == if k == ManagedByKey then Some(ManagedByCli) else None;
    assert Get(b2, k) == if k == IndexKey then Some(NatToString(index)) else Get(b3, k);
    assert Get(b1, k) == if k == ComponentKey then Some(RoleName(r)) else Get(b2, k);
  }

  /** The base tags override custom tags with the same key; every other
      custom key keeps its value; and the set is a proper dict whenever the
      custom tags are. */
  lemma InstanceTagsGet(c: Config, r: Role, index: nat, k: string)
    ensures var tags := InstanceTags(c, r, index);
      && (k == NameKey ==> Get(tags, k) == Some(HostName(r, index)))
      && (k == ComponentKey ==> Get(tags, k) == Some(RoleName(r)))
      && (k == IndexKey ==> Get(tags, k) == Some(NatToString(index)))
      && (k == ManagedByKey ==> Get(tags, k) == Some(ManagedByCli))
      && (!IsBaseKey(k) ==> Get(tags, k) == Get(At(c.ec2Advanced, r).tags, k))
    ensures DistinctKeys(At(c.ec2Advanced, r).tags) ==> DistinctKeys(InstanceTags(c, r, index))
  {
    BaseTagsDistinct(r, index);
    BaseTagsGet(r, index, k);
    MergeGet(At(c.ec2Advanced, r).tags, BaseTags(r, index), k);
    if DistinctKeys(At(c.ec2Advanced, r).tags) {
      MergeDistinct(At(c.ec2Advanced, r).tags, BaseTags(r, index));
    }
  }

  // ---- create_ec2_instance ----

  const DefaultVolumeSize := 50
  const DefaultVolumeType := "gp3"

  /** The `create_instances` parameters; the IAM profile only when set and
      non-empty. */
  function LaunchRequestFor(c: Config, r: Role, index: nat, ami: string, subnetId: string): LaunchRequest {
    var adv := At(c.ec2Advanced, r);
    var tags := InstanceTags(c, r, index);
    LaunchRequest(ami, At(c.cluster, r).instanceType, 1, 1, c.keyName, At(c.securityGroups, r), subnetId,
      tags, tags, OrDefault(adv.rootVolumeSize, DefaultVolumeSize), OrDefault(adv.rootVolumeType, DefaultVolumeType),
      if c.iamInstanceProfile.Some? && c.iamInstanceProfile.value != "" then c.iamInstanceProfile else None)
  }

  function WithInstances(w: World, instances: seq<Instance>): World {
    w.(cloud := w.cloud.(instances := instances))
  }

  /** `create_instances`, `wait_until_running` and `reload` with a chosen
      AMI. The instance joins the inventory as pending when launched and is
      running once the wait returns; a failed reload raises with the running
      instance left in place. The availability zone is that of the subnet the
      caller chose. */
  function Launch(o: Oracle, w: World, c: Config, r: Role, index: nat, ami: string, subnetId: string, az: string): Out<Instance> {
    var req := LaunchRequestFor(c, r, index, ami, subnetId);
    var run := Invoke(o, w, RunInstances(req));
    if run.result.Err? then Out(run.world, Err(run.result.error))
    else
      var pending := Instance(o.newInstanceId(Now(w)), o.newPrivateIp(Now(w)), subnetId, az, req.instanceTags, Pending);
      var wait := Invoke(o, WithInstances(run.world, w.cloud.instances + [pending]), WaitUntilRunning(pending.id));
      if wait.result.Err? then Out(wait.world, Err(wait.result.error))
      else
        var running := pending.(state := Running);
        var reload := Invoke(o, WithInstances(wait.world, w.cloud.instances + [running]), Reload(running.id));
        Out(reload.world, if reload.result.Err? then Err(reload.result.error) else Ok(running))
  }

  /** `create_ec2_instance`: the AMI first, then the launch. */
  function CreateEc2Instance(o: Oracle, w: World, c: Config, r: Role, index: nat, subnetId: string, az: string): Out<Instance> {
    var ami := GetAmiId(o, w, Al2023);
    if ami.result.Err? then Out(ami.world, Err(ami.result.error))
    else Launch(o, ami.world, c, r, index, ami.result.value, subnetId, az)
  }

  /** From `w` to `v` exactly one instance was requested, with the same tag
      set on the instance and its volume, the wait for it and its reload
      returned, and `inst`, running in the chosen subnet, was added to the
      inventory. */
  predicate LaunchedOne(w: World, v: World, c: Config, r: Role, index: nat, subnetId: string, inst: Instance) {
    && Extends(w, v)
    && |Since(w, v)| == 3
    && Since(w, v)[0].Aws? && Since(w, v)[0].ok && Since(w, v)[0].call.RunInstances?
    && Since(w, v)[1] == Aws(WaitUntilRunning(inst.id), true)
    && Since(w, v)[2] == Aws(Reload(inst.id), true)
    && var q := Since(w, v)[0].call.launch;
    && q.minCount == 1 && q.maxCount == 1
    && q.instanceTags == InstanceTags(c, r, index) && q.volumeTags == q.instanceTags
    && q.subnetId == subnetId && q.instanceType == At(c.cluster, r).instanceType
    && v.cloud == w.cloud.(instances := w.cloud.instances + [inst])
    && inst.state == Running && inst.subnetId == subnetId && inst.tags == InstanceTags(c, r, index)
  }

  /** From `w` to `v` one instance in `state` was added and nothing else
      changed in the cloud. */
  predicate AddedOne(w: World, v: World, state: InstanceState) {
    && v.cloud.balancers == w.cloud.balancers && v.cloud.targetGroups == w.cloud.targetGroups
    && |v.cloud.instances| == |w.cloud.instances| + 1
    && v.cloud.instances[..|w.cloud.instances|] == w.cloud.instances
    && v.cloud.instances[|w.cloud.instances|].state == state
  }

  /** From `w` to `v` at most one instance was added, pending or running. */
  predicate LeftPartial(w: World, v: World) {
    v.cloud == w.cloud || AddedOne(w, v, Pending) || AddedOne(w, v, Running)
  }

  /** The launch succeeds iff all three calls do, and then did exactly as
      `LaunchedOne` says. A refused `create_instances` changes nothing, a
      failed wait leaves the instance pending, and a failed reload leaves it
      running; none of them is rolled back. */
  lemma LaunchOutcome(o: Oracle, w: World, c: Config, r: Role, index: nat, ami: string, subnetId: string, az: string)
    ensures var x := Launch(o, w, c, r, index, ami, subnetId, az);
      && Extends(w, x.world)
      && (x.result.Ok? <==> o.awsOk(Now(w)) && o.awsOk(Now(w) + 1) && o.awsOk(Now(w) + 2))
      && (x.result.Ok? ==> LaunchedOne(w, x.world, c, r, index, subnetId, x.result.value))
      && (x.result.Err? ==> LeftPartial(w, x.world) && x.result.error == AwsFailure)
      && (!o.awsOk(Now(w)) ==> x.world.cloud == w.cloud)
      && (o.awsOk(Now(w)) && !o.awsOk(Now(w) + 1) ==> AddedOne(w, x.world, Pending))
      && (o.awsOk(Now(w)) && o.awsOk(Now(w) + 1) && !o.awsOk(Now(w) + 2) ==> AddedOne(w, x.world, Running))
  {
    var req := LaunchRequestFor(c, r, index, ami, subnetId);
    var run := Invoke(o, w, RunInstances(req));
    if run.result.Ok? {
      var pending := Instance(o.newInstanceId(Now(w)), o.newPrivateIp(Now(w)), subnetId, az, req.instanceTags, Pending);
      var launched := WithInstances(run.world, w.cloud.instances + [pending]);
      var wait := Invoke(o, launched, WaitUntilRunning(pending.id));
      ExtendsTransitive(w, launched, wait.world);
      assert Since(w, launched) == Since(w, run.world);
      assert (w.cloud.instances + [pending])[..|w.cloud.instances|] == w.cloud.instances;
      if wait.result.Ok? {
        var running := pending.(state := Running);
        var up := WithInstances(wait.world, w.cloud.instances + [running]);
        var reload := Invoke(o, up, Reload(running.id));
        ExtendsTransitive(w, up, reload.world);
        assert Since(w, up) == Since(w, wait.world);
        assert (w.cloud.instances + [running])[..|w.cloud.instances|] == w.cloud.instances;
      }
    }
  }

  /** `create_ec2_instance` makes the `describe_images` call first and then
      launches with the image it chose; it never touches the inventory
      before the launch. */
  lemma CreateEc2InstanceOutcome(o: Oracle, w: World, c: Config, r: Role, index: nat, subnetId: string, az: string)
    ensures var x := CreateEc2Instance(o, w, c, r, index, subnetId, az);
      && Extends(w, x.world)
      && (x.result.Err? ==> LeftPartial(w, x.world))
      && (x.result.Ok? ==>
            var v := Emit(w, Aws(DescribeImages, true));
            && LaunchedOne(v, x.world, c, r, index, subnetId, x.result.value)
            && Since(w, x.world)[0] == Aws(DescribeImages, true))
  {
    var ami := GetAmiId(o, w, Al2023);
    GetAmiIdOutcome(o, w, Al2023);
    if ami.result.Ok? {
      var x := Launch(o, ami.world, c, r, index, ami.result.value, subnetId, az);
      LaunchOutcome(o, ami.world, c, r, index, ami.result.value, subnetId, az);
      ExtendsTransitive(w, ami.world, x.world);
      assert ami.world == Emit(w, Aws(DescribeImages, true)) by {
        assert Since(w, ami.world) == [Aws(DescribeImages, true)];
        assert ami.world.trace == w.trace + Since(w, ami.world);
      }
    }
  }

  // ---- lookups by name ----

  predicate Named(i: Instance, name: string) {
    Get(i.tags, NameKey) == Some(name)
  }

  /** `ec2.instances.filter` on `tag:Name` and the instance states, in the
      order the inventory lists the instances. */
  function Matching(instances: seq<Instance>, name: string, states: seq<InstanceState>): seq<Instance>
    decreases |instances|
  {
    if instances == [] then []
    else
      (if Named(instances[0], name) && instances[0].state in states then [instances[0]] else []) +
      Matching(instances[1..], name, states)
  }

  predicate Matches(i: Instance, name: string, states: seq<InstanceState>) {
    Named(i, name) && i.state in states
  }

  /** The filter keeps exactly the instances with that name in one of those
      states, and the first it yields is the first such in the inventory. */
  lemma {:induction false} MatchingSpec(instances: seq<Instance>, name: string, states: seq<InstanceState>)
    ensures forall x :: x in Matching(instances, name, states) <==> x in instances && Matches(x, name, states)
    ensures Matching(instances, name, states) != [] ==>
      exists k :: 0 <= k < |instances| && instances[k] == Matching(instances, name, states)[0] &&
        forall j :: 0 <= j < k ==> !Matches(instances[j], name, states)
    decreases |instances|
  {
    if instances != [] {
      MatchingSpec(instances[1..], name, states);
      assert instances == [instances[0]] + instances[1..];
      var m := Matching(instances, name, states);
      if m != [] && !Matches(instances[0], name, states) {
        var k :| 0 <= k < |instances[1..]| && instances[1..][k] == Matching(instances[1..], name, states)[0] &&
          forall j :: 0 <= j < k ==> !Matches(instances[1..][j], name, states);
        assert instances[k + 1] == m[0];
        forall j | 0 <= j < k + 1 ensures !Matches(instances[j], name, states) {
          if j > 0 {
            assert instances[j] == instances[1..][j - 1];
          }
        }
      }
    }
  }

  /** With no match in the inventory the filter yields nothing. */
  lemma {:induction false} MatchingNone(instances: seq<Instance>, name: string, states: seq<InstanceState>)
    requires forall i :: i in instances ==> !Matches(i, name, states)
    ensures Matching(instances, name, states) == []
    decreases |instances|
  {
    if instances != [] {
      assert instances[0] in instances;
      assert forall i :: i in instances[1..] ==> i in instances;
      MatchingNone(instances[1..], name, states);
    }
  }

  const LiveStates: seq<InstanceState> := [Running, Pending]

  /** `create_ec2_instance_idempotent`: look the name up among running and
      pending instances; return the first found, or launch a new one. */
  function CreateEc2InstanceIdempotent(o: Oracle, w: World, c: Config, r: Role, index: nat, subnetId: string, az: string): Out<Instance> {
    var name := HostName(r, index);
    var f := Invoke(o, w, FindInstances(name, LiveStates));
    if f.result.Err? then Out(f.world, Err(f.result.error))
    else
      var found := Matching(w.cloud.instances, name, LiveStates);
      if found != [] then Out(f.world, Ok(found[0]))
      else CreateEc2Instance(o, f.world, c, r, index, subnetId, az)
  }

  /** The lookup comes first; whatever follows, an instance returned carries
      the name `ds-{component}-{index}`. */
  lemma IdempotentNamed(o: Oracle, w: World, c: Config, r: Role, index: nat, subnetId: string, az: string)
    ensures var x := CreateEc2InstanceIdempotent(o, w, c, r, index, subnetId, az);
      && Extends(w, x.world)
      && |Since(w, x.world)| >= 1
      && Since(w, x.world)[0] == Aws(FindInstances(HostName(r, index), LiveStates), o.awsOk(Now(w)))
      && (x.result.Ok? ==> Named(x.result.value, HostName(r, index)))
  {
    var name := HostName(r, index);
    var f := Invoke(o, w, FindInstances(name, LiveStates));
    var found := Matching(w.cloud.instances, name, LiveStates);
    if f.result.Ok? {
      if found != [] {
        MatchingSpec(w.cloud.instances, name, LiveStates);
        assert found[0] in found;
      } else {
        var x := CreateEc2Instance(o, f.world, c, r, index, subnetId, az);
        CreateEc2InstanceOutcome(o, f.world, c, r, index, subnetId, az);
        ExtendsTransitive(w, f.world, x.world);
        if x.result.Ok? {
          InstanceTagsGet(c, r, index, NameKey);
        }
      }
    }
  }

  /** When an instance with that name is running or pending, it is returned
      (if the lookup call goes through) and nothing is created. */
  lemma IdempotentFindsExisting(o: Oracle, w: World, c: Config, r: Role, index: nat, subnetId: string, az: string)
    requires exists i :: i in w.cloud.instances && Matches(i, HostName(r, index), LiveStates)
    ensures var x := CreateEc2InstanceIdempotent(o, w, c, r, index, subnetId, az);
      && x.world == Emit(w, Aws(FindInstances(HostName(r, index), LiveStates), o.awsOk(Now(w))))
      && (o.awsOk(Now(w)) ==>
            x.result.Ok? && x.result.value in w.cloud.instances &&
            Matches(x.result.value, HostName(r, index), LiveStates))
  {
    var name := HostName(r, index);
    MatchingSpec(w.cloud.instances, name, LiveStates);
    var found := Matching(w.cloud.instances, name, LiveStates);
    var i :| i in w.cloud.instances && Matches(i, name, LiveStates);
    assert i in found;
    assert found[0] in found;
  }

  /** Only when no instance with that name is running or pending is a new one
      launched, right after the lookup. */
  lemma IdempotentCreatesOnlyWhenAbsent(o: Oracle, w: World, c: Config, r: Role, index: nat, subnetId: string, az: string)
    requires forall i :: i in w.cloud.instances ==> !Matches(i, HostName(r, index), LiveStates)
    requires o.awsOk(Now(w))
    ensures CreateEc2InstanceIdempotent(o, w, c, r, index, subnetId, az) ==
      CreateEc2Instance(o, Emit(w, Aws(FindInstances(HostName(r, index), LiveStates), true)), c, r, index, subnetId, az)
  {
    MatchingNone(w.cloud.instances, HostName(r, index), LiveStates);
  }

  // ---- create_instances_parallel ----

  /** The unit submitted for index `i`: the subnet is chosen round-robin, and
      `i % len(subnets)` raises on an empty list. */
  function LaunchUnit(o: Oracle, w: World, c: Config, r: Role, subnets: seq<Subnet>, i: nat): Out<Instance> {
    if subnets == [] then Out(w, Err(ModuloByZero))
    else
      var s := subnets[i % |subnets|];
      CreateEc2InstanceIdempotent(o, w, c, r, i, s.subnetId, s.az)
  }

  /** The work submitted for one index, from the world it starts in. */
  type LaunchFn = (World, nat) -> Out<Instance>

  function Submitted(o: Oracle, c: Config, r: Role, subnets: seq<Subnet>): LaunchFn {
    (v: World, k: nat) => LaunchUnit(o, v, c, r, subnets, k)
  }

  /** The world after the units and each unit's outcome, by submission index. */
  datatype Launched = Launched(world: World, results: seq<Result<Instance>>)

  /** The units for indices `i..n-1`, one after the other. */
  function LaunchFrom(unit: LaunchFn, w: World, i: nat, n: nat): (l: Launched)
    requires i <= n
    ensures |l.results| == n - i
    decreases n - i
  {
    if i == n then Launched(w, [])
    else
      var u := unit(w, i);
      var rest := LaunchFrom(unit, u.world, i + 1, n);
      Launched(rest.world, [u.result] + rest.results)
  }

  predicate InRange(order: seq<nat>, n: nat) {
    forall k :: 0 <= k < |order| ==> order[k] < n
  }

  /** The `as_completed` loop: the results in `order`, raising at the first
      failure met. */
  function Collect(results: seq<Result<Instance>>, order: seq<nat>): Result<seq<Instance>>
    requires InRange(order, |results|)
    decreases |order|
  {
    if order == [] then Ok([])
    else if results[order[0]].Err? then Err(results[order[0]].error)
    else
      var rest := Collect(results, order[1..]);
      if rest.Err? then rest else Ok([results[order[0]].value] + rest.value)
  }

  const ModuloByZero := Error(ZeroDivisionError, "integer division or modulo by zero")

  /** `create_instances_parallel(config, component, count, subnets)`; a
      negative count submits nothing, like `range(count)`, and an empty
      subnet list raises at the first `i % len(subnets)`. */
  function CreateInstancesParallelSpec(o: Oracle, w: World, c: Config, r: Role, count: int, subnets: seq<Subnet>): Out<seq<Instance>> {
    var n: nat := if count > 0 then count else 0;
    if n == 0 then Out(w, Ok([]))
    else if subnets == [] then Out(w, Err(ModuloByZero))
    else ParallelRun(o, w, Submitted(o, c, r, subnets), n)
  }

  /** All `n` units run in index order; the results are then read in the
      order the futures complete. */
  function ParallelRun(o: Oracle, w: World, unit: LaunchFn, n: nat): Out<seq<Instance>> {
    var l := LaunchFrom(unit, w, 0, n);
    Out(l.world, Collect(l.results, CompletionOrder(o, Now(w), n)))
  }

  function Prefixed(acc: seq<Instance>, r: Result<seq<Instance>>): Result<seq<Instance>> {
    if r.Err? then r else Ok(acc + r.value)
  }

  lemma LaunchStep(unit: LaunchFn, w: World, i: nat, n: nat, done: seq<Result<Instance>>)
    requires i < n
    ensures var u := unit(w, i);
      var rest := LaunchFrom(unit, u.world, i + 1, n);
      var all := LaunchFrom(unit, w, i, n);
      Launched(rest.world, (done + [u.result]) + rest.results) == Launched(all.world, done + all.results)
  {
    var u := unit(w, i);
    var rest := LaunchFrom(unit, u.world, i + 1, n);
    assert (done + [u.result]) + rest.results == done + ([u.result] + rest.results);
  }

  lemma CollectStep(results: seq<Result<Instance>>, order: seq<nat>, k: nat, acc: seq<Instance>)
    requires InRange(order, |results|) && k < |order|
    ensures InRange(order[k..], |results|) && InRange(order[k + 1..], |results|)
    ensures results[order[k]].Err? ==> Prefixed(acc, Collect(results, order[k..])) == Err(results[order[k]].error)
    ensures results[order[k]].Ok? ==>
      Prefixed(acc, Collect(results, order[k..])) ==
      Prefixed(acc + [results[order[k]].value], Collect(results, order[k + 1..]))
  {
    assert order[k..][0] == order[k] && order[k..][1..] == order[k + 1..];
    var rest := Collect(results, order[k + 1..]);
    if results[order[k]].Ok? && rest.Ok? {
      assert acc + ([results[order[k]].value] + rest.value) == (acc + [results[order[k]].value]) + rest.value;
    }
  }

  /** The submission loop: one unit per index, in index order. */
  method SubmitAll(unit: LaunchFn, w: World, n: nat) returns (w': World, results: seq<Result<Instance>>)
    ensures Launched(w', results) == LaunchFrom(unit, w, 0, n)
  {
    results := [];
    w' := w;
    var i := 0;
    ghost var all := LaunchFrom(unit, w, 0, n);
    assert Launched(all.world, [] + all.results) == all;
    while i < n
      invariant i <= n
      invariant var rest := LaunchFrom(unit, w', i, n);
        Launched(rest.world, results + rest.results) == all
    {
      LaunchStep(unit, w', i, n, results);
      var u := unit(w', i);
      results := results + [u.result];
      w' := u.world;
      i := i + 1;
    }
    assert results + [] == results;
  }

  /** The `as_completed` loop. */
  method CollectInOrder(results: seq<Result<Instance>>, order: seq<nat>) returns (res: Result<seq<Instance>>)
    requires InRange(order, |results|)
    ensures res == Collect(results, order)
  {
    var instances: seq<Instance> := [];
    var k := 0;
    assert order[0..] == order;
    assert Collect(results, order).Ok? ==> [] + Collect(results, order).value == Collect(results, order).value;
    while k < |order|
      invariant k <= |order|
      invariant InRange(order[k..], |results|)
      invariant Prefixed(instances, Collect(results, order[k..])) == Collect(results, order)
    {
      CollectStep(results, order, k, instances);
      if results[order[k]].Err? {
        return Err(results[order[k]].error);
      }
      instances := instances + [results[order[k]].value];
      k := k + 1;
    }
    assert order[k..] == [] && instances + [] == instances;
    res := Ok(instances);
  }

  /** `create_instances_parallel`. */
  method CreateInstancesParallel(o: Oracle, w: World, c: Config, r: Role, count: int, subnets: seq<Subnet>)
    returns (w': World, res: Result<seq<Instance>>)
    ensures Out(w', res) == CreateInstancesParallelSpec(o, w, c, r, count, subnets)
  {
    var n: nat := if count > 0 then count else 0;
    if n == 0 {
      return w, Ok([]);
    }
    if subnets == [] {
      return w, Err(ModuloByZero);
    }
    var results;
    w', results := SubmitAll(Submitted(o, c, r, subnets), w, n);
    res := CollectInOrder(results, CompletionOrder(o, Now(w), n));
  }

  /** Index `k`'s outcome is what its unit yields from some world that
      extends `w`. */
  ghost predicate UnitOutcome(unit: LaunchFn, w: World, k: nat, res: Result<Instance>) {
    exists v :: Extends(w, v) && unit(v, k).result == res
  }

  ghost predicate OnlyAdds(unit: LaunchFn) {
    forall v: World, k: nat :: Extends(v, unit(v, k).world)
  }

  /** Every index's result is the outcome of its own unit, reached from the
      worlds the earlier units left behind. */
  lemma {:induction false} LaunchFromUnits(unit: LaunchFn, w: World, i: nat, n: nat)
    requires i <= n && OnlyAdds(unit)
    ensures Extends(w, LaunchFrom(unit, w, i, n).world)
    ensures forall k :: 0 <= k < n - i ==> UnitOutcome(unit, w, i + k, LaunchFrom(unit, w, i, n).results[k])
    decreases n - i
  {
    if i < n {
      var u := unit(w, i);
      assert Extends(w, u.world);
      LaunchFromUnits(unit, u.world, i + 1, n);
      var l := LaunchFrom(unit, w, i, n);
      var rest := LaunchFrom(unit, u.world, i + 1, n);
      ExtendsTransitive(w, u.world, rest.world);
      forall k | 0 <= k < n - i ensures UnitOutcome(unit, w, i + k, l.results[k]) {
        if k == 0 {
          assert Extends(w, w) && unit(w, i).result == l.results[0];
        } else {
          assert l.results[k] == rest.results[k - 1];
          assert UnitOutcome(unit, u.world, (i + 1) + (k - 1), rest.results[k - 1]);
          var v :| Extends(u.world, v) && unit(v, i + k).result == rest.results[k - 1];
          ExtendsTransitive(w, u.world, v);
        }
      }
    }
  }

  /** Every success of `unit` for index `k` is named after `k`. */
  ghost predicate NamesIndices(unit: LaunchFn, r: Role) {
    forall v: World, k: nat :: unit(v, k).result.Ok? ==> Named(unit(v, k).result.value, HostName(r, k))
  }

  /** Each index's launch only adds to the trace, and what it returns is
      named after the index. */
  lemma SubmittedUnits(o: Oracle, c: Config, r: Role, subnets: seq<Subnet>)
    ensures OnlyAdds(Submitted(o, c, r, subnets))
    ensures NamesIndices(Submitted(o, c, r, subnets), r)
  {
    var unit := Submitted(o, c, r, subnets);
    forall v: World, k: nat ensures Extends(v, unit(v, k).world) && (unit(v, k).result.Ok? ==> Named(unit(v, k).result.value, HostName(r, k))) {
      if subnets != [] {
        var s := subnets[k % |subnets|];
        IdempotentNamed(o, v, c, r, k, s.subnetId, s.az);
      }
    }
  }

  /** A successful unit's instance is named after its index. */
  lemma {:induction false} LaunchFromNamed(unit: LaunchFn, r: Role, w: World, i: nat, n: nat)
    requires i <= n && NamesIndices(unit, r)
    ensures forall k :: 0 <= k < n - i && LaunchFrom(unit, w, i, n).results[k].Ok? ==>
      Named(LaunchFrom(unit, w, i, n).results[k].value, HostName(r, i + k))
    decreases n - i
  {
    if i < n {
      var u := unit(w, i);
      LaunchFromNamed(unit, r, u.world, i + 1, n);
      var l := LaunchFrom(unit, w, i, n);
      var rest := LaunchFrom(unit, u.world, i + 1, n);
      forall k | 0 <= k < n - i && l.results[k].Ok? ensures Named(l.results[k].value, HostName(r, i + k)) {
        if k > 0 {
          assert l.results[k] == rest.results[k - 1];
          assert (i + 1) + (k - 1) == i + k;
        }
      }
    }
  }

  /** Reading the results in an order of valid indices succeeds iff every
      index it reads succeeded, yields their instances in that order, and
      otherwise raises the first failure met. */
  lemma {:induction false} CollectSpec(results: seq<Result<Instance>>, order: seq<nat>)
    requires InRange(order, |results|)
    ensures Collect(results, order).Ok? <==> forall k :: 0 <= k < |order| ==> results[order[k]].Ok?
    ensures Collect(results, order).Ok? ==>
      |Collect(results, order).value| == |order| &&
      forall k :: 0 <= k < |order| ==> Collect(results, order).value[k] == results[order[k]].value
    ensures Collect(results, order).Err? ==>
      exists k :: 0 <= k < |order| && results[order[k]].Err? &&
        Collect(results, order).error == results[order[k]].error &&
        forall j :: 0 <= j < k ==> results[order[j]].Ok?
    decreases |order|
  {
    if order != [] {
      var tail := order[1..];
      assert forall k :: 0 <= k < |tail| ==> tail[k] == order[k + 1];
      if results[order[0]].Ok? {
        CollectSpec(results, tail);
        var rest := Collect(results, tail);
        if rest.Ok? {
          forall k | 0 <= k < |order| ensures results[order[k]].Ok? {
            if k > 0 {
              assert results[tail[k - 1]].Ok?;
            }
          }
        } else {
          var k :| 0 <= k < |tail| && results[tail[k]].Err? && rest.error == results[tail[k]].error &&
            forall j :: 0 <= j < k ==> results[tail[j]].Ok?;
          assert results[order[k + 1]].Err?;
          forall j | 0 <= j < k + 1 ensures results[order[j]].Ok? {
            if j > 0 {
              assert results[tail[j - 1]].Ok?;
            }
          }
        }
      }
    }
  }

  /** For units that only add to the trace and name what they return after
      their index, the run succeeds iff every unit succeeded; the result then
      holds one instance per index, in completion order and named after that
      index; a failure raises the failure of a unit that failed, the first to
      complete among them. Each index's outcome is that of its own unit. */
  lemma ParallelRunOutcome(o: Oracle, w: World, unit: LaunchFn, r: Role, n: nat)
    requires OnlyAdds(unit) && NamesIndices(unit, r)
    ensures var x := ParallelRun(o, w, unit, n);
      var l := LaunchFrom(unit, w, 0, n);
      var order := CompletionOrder(o, Now(w), n);
      && x.world == l.world
      && Extends(w, x.world)
      && (forall k :: 0 <= k < n ==> UnitOutcome(unit, w, k, l.results[k]))
      && (x.result.Ok? <==> forall k :: 0 <= k < n ==> l.results[k].Ok?)
      && (x.result.Ok? ==>
            |x.result.value| == n &&
            forall j :: 0 <= j < n ==>
              x.result.value[j] == l.results[order[j]].value && Named(x.result.value[j], HostName(r, order[j])))
      && (x.result.Err? ==>
            exists j :: 0 <= j < n && l.results[order[j]].Err? &&
              x.result.error == l.results[order[j]].error &&
              forall i :: 0 <= i < j ==> l.results[order[i]].Ok?)
  {
    ParallelRunWorld(o, w, unit, n);
    ParallelRunSucceeds(o, w, unit, r, n);
    ParallelRunFails(o, w, unit, n);
  }

  /** The world half of `ParallelRunOutcome`. */
  lemma ParallelRunWorld(o: Oracle, w: World, unit: LaunchFn, n: nat)
    requires OnlyAdds(unit)
    ensures var l := LaunchFrom(unit, w, 0, n);
      && ParallelRun(o, w, unit, n).world == l.world
      && Extends(w, l.world)
      && (forall k :: 0 <= k < n ==> UnitOutcome(unit, w, k, l.results[k]))
  {
    LaunchFromUnits(unit, w, 0, n);
  }

  /** The success half of `ParallelRunOutcome`. */
  lemma ParallelRunSucceeds(o: Oracle, w: World, unit: LaunchFn, r: Role, n: nat)
    requires NamesIndices(unit, r)
    ensures var x := ParallelRun(o, w, unit, n);
      var l := LaunchFrom(unit, w, 0, n);
      var order := CompletionOrder(o, Now(w), n);
      && (x.result.Ok? <==> forall k :: 0 <= k < n ==> l.results[k].Ok?)
      && (x.result.Ok? ==>
            |x.result.value| == n &&
            forall j :: 0 <= j < n ==>
              x.result.value[j] == l.results[order[j]].value && Named(x.result.value[j], HostName(r, order[j])))
  {
    ParallelRunOkIff(o, w, unit, n);
    ParallelRunValues(o, w, unit, r, n);
  }

  /** The run succeeds iff every unit did: the completion order reads each index. */
  lemma ParallelRunOkIff(o: Oracle, w: World, unit: LaunchFn, n: nat)
    ensures ParallelRun(o, w, unit, n).result.Ok? <==> AllLaunched(LaunchFrom(unit, w, 0, n).results)
  {
    CollectPermutationOk(LaunchFrom(unit, w, 0, n).results, CompletionOrder(o, Now(w), n));
  }

  predicate AllLaunched(results: seq<Result<Instance>>) {
    forall k :: 0 <= k < |results| ==> results[k].Ok?
  }

  /** Reading every index once succeeds iff every result is a success. */
  lemma CollectPermutationOk(results: seq<Result<Instance>>, order: seq<nat>)
    requires IsIndexPermutation(order, |results|)
    ensures InRange(order, |results|)
    ensures Collect(results, order).Ok? <==> AllLaunched(results)
  {
    CollectSpec(results, order);
    if forall k :: 0 <= k < |results| ==> results[k].Ok? {
      assert forall j :: 0 <= j < |order| ==> results[order[j]].Ok?;
    } else {
      var i :| 0 <= i < |results| && results[i].Err?;
      assert i in order;
      var k :| 0 <= k < |order| && order[k] == i;
      assert results[order[k]].Err?;
    }
  }

  /** A successful run returns the units' instances in completion order,
      each named after its index. */
  lemma ParallelRunValues(o: Oracle, w: World, unit: LaunchFn, r: Role, n: nat)
    requires NamesIndices(unit, r)
    ensures var x := ParallelRun(o, w, unit, n);
      var l := LaunchFrom(unit, w, 0, n);
      var order := CompletionOrder(o, Now(w), n);
      x.result.Ok? ==>
        (forall k :: 0 <= k < n ==> l.results[k].Ok?) &&
        |x.result.value| == n &&
        forall j :: 0 <= j < n ==>
          x.result.value[j] == l.results[order[j]].value && Named(x.result.value[j], HostName(r, order[j]))
  {
    var l := LaunchFrom(unit, w, 0, n);
    var order := CompletionOrder(o, Now(w), n);
    ParallelRunOkIff(o, w, unit, n);
    CollectSpec(l.results, order);
    LaunchFromNamed(unit, r, w, 0, n);
  }

  /** The failure half of `ParallelRunOutcome`. */
  lemma ParallelRunFails(o: Oracle, w: World, unit: LaunchFn, n: nat)
    ensures var x := ParallelRun(o, w, unit, n);
      var l := LaunchFrom(unit, w, 0, n);
      var order := CompletionOrder(o, Now(w), n);
      x.result.Err? ==>
        exists j :: 0 <= j < n && l.results[order[j]].Err? &&
          x.result.error == l.results[order[j]].error &&
          forall i :: 0 <= i < j ==> l.results[order[i]].Ok?
  {
    var l := LaunchFrom(unit, w, 0, n);
    CollectSpec(l.results, CompletionOrder(o, Now(w), n));
  }

  /** A count of zero or less does nothing; an empty subnet list raises
      before any call; otherwise the run is that of one idempotent launch
      per index, whose units meet the premises of `ParallelRunOutcome`. */
  lemma CreateInstancesParallelOutcome(o: Oracle, w: World, c: Config, r: Role, count: int, subnets: seq<Subnet>)
    ensures count <= 0 ==> CreateInstancesParallelSpec(o, w, c, r, count, subnets) == Out(w, Ok([]))
    ensures count > 0 && subnets == [] ==> CreateInstancesParallelSpec(o, w, c, r, count, subnets) == Out(w, Err(ModuloByZero))
    ensures count > 0 && subnets != [] ==>
      CreateInstancesParallelSpec(o, w, c, r, count, subnets) == ParallelRun(o, w, Submitted(o, c, r, subnets), count)
    ensures OnlyAdds(Submitted(o, c, r, subnets)) && NamesIndices(Submitted(o, c, r, subnets), r)
  {
    SubmittedUnits(o, c, r, subnets);
  }

  // ---- terminate_instances and get_instance_by_tag ----

  /** `[inst.id for inst in instances]`. */
  function InstanceIds(instances: seq<Instance>): (ids: seq<string>)
    ensures |ids| == |instances| && forall k :: 0 <= k < |instances| ==> ids[k] == instances[k].id
  {
    seq(|instances|, k requires 0 <= k < |instances| => instances[k].id)
  }


  /** The inventory after `terminate_instances`: the listed instances shut
      down, except those already terminated. */
  function ShutDown(instances: seq<Instance>, ids: seq<string>): (s: seq<Instance>)
    ensures |s| == |instances|
  {
    seq(|instances|, k requires 0 <= k < |instances| =>
      if instances[k].id in ids && instances[k].state != Terminated then instances[k].(state := ShuttingDown)
      else instances[k])
  }

  /** `terminate_instances(config, instance_ids)`. */
  function TerminateInstances(o: Oracle, w: World, ids: seq<string>): Out<bool> {
    if ids == [] then Out(w, Ok(true))
    else
      var t := Invoke(o, w, Env.TerminateInstances(ids));
      if t.result.Err? then Out(t.world, Err(t.result.error))
      else Out(WithInstances(t.world, ShutDown(w.cloud.instances, ids)), Ok(true))
  }

  /** An empty list returns True without calling EC2; otherwise one call with
      exactly those ids, after which the listed instances and only they are
      shutting down (or stay terminated). */
  lemma TerminateInstancesOutcome(o: Oracle, w: World, ids: seq<string>)
    ensures ids == [] ==> TerminateInstances(o, w, ids) == Out(w, Ok(true))
    ensures var x := TerminateInstances(o, w, ids);
      ids != [] ==>
        && Extends(w, x.world) && Since(w, x.world) == [Aws(Env.TerminateInstances(ids), o.awsOk(Now(w)))]
        && (x.result.Ok? <==> o.awsOk(Now(w)))
        && (x.result.Ok? ==> x.result.value)
        && (x.result.Err? ==> x.world.cloud == w.cloud)
        && (x.result.Ok? ==>
              && |x.world.cloud.instances| == |w.cloud.instances|
              && forall k :: 0 <= k < |w.cloud.instances| ==>
                   var before := w.cloud.instances[k];
                   var after := x.world.cloud.instances[k];
                   && after.id == before.id && after.tags == before.tags
                   && (before.id in ids && before.state != Terminated ==> after.state == ShuttingDown)
                   && (before.id !in ids ==> after == before))
  {
    if ids != [] {
      var t := Invoke(o, w, Env.TerminateInstances(ids));
      assert Since(w, WithInstances(t.world, ShutDown(w.cloud.instances, ids))) == Since(w, t.world);
    }
  }

  const RunningOnly: seq<InstanceState> := [Running]

  /** `get_instance_by_tag(config, tag_name)`. */
  function GetInstanceByTag(o: Oracle, w: World, tagName: string): Out<Option<Instance>> {
    var f := Invoke(o, w, FindInstances(tagName, RunningOnly));
    if f.result.Err? then Out(f.world, Err(f.result.error))
    else
      var found := Matching(w.cloud.instances, tagName, RunningOnly);
      Out(f.world, Ok(if found == [] then None else Some(found[0])))
  }

  /** One lookup call; None iff no running instance has that name; otherwise
      the first running instance with that name in the inventory. */
  lemma GetInstanceByTagOutcome(o: Oracle, w: World, tagName: string)
    ensures var x := GetInstanceByTag(o, w, tagName);
      && x.world.cloud == w.cloud
      && Extends(w, x.world) && Since(w, x.world) == [Aws(FindInstances(tagName, RunningOnly), o.awsOk(Now(w)))]
      && (x.result.Ok? <==> o.awsOk(Now(w)))
    ensures var x := GetInstanceByTag(o, w, tagName);
      x.result.Ok? ==>
        && (x.result.value.None? <==> forall i :: i in w.cloud.instances ==> !(Named(i, tagName) && i.state == Running))
        && (x.result.value.Some? ==>
              exists k :: 0 <= k < |w.cloud.instances| && w.cloud.instances[k] == x.result.value.value &&
                Named(w.cloud.instances[k], tagName) && w.cloud.instances[k].state == Running &&
                forall j :: 0 <= j < k ==> !(Named(w.cloud.instances[j], tagName) && w.cloud.instances[j].state == Running))
  {
    MatchingSpec(w.cloud.instances, tagName, RunningOnly);
    var found := Matching(w.cloud.instances, tagName, RunningOnly);
    if found != [] {
      assert found[0] in found;
    } else {
      forall i | i in w.cloud.instances ensures !(Named(i, tagName) && i.state == Running) {
        assert i in found <==> Matches(i, tagName, RunningOnly);
      }
    }
  }

  // ---- wait_for_service_ready ----

  /** `j` failed probes, each followed by its pause. */
  function ProbeFailures(host: string, port: nat, j: nat, interval: nat): (es: seq<Event>)
    ensures |es| == 2 * j
  {
    if j == 0 then [] else ProbeFailures(host, port, j - 1, interval) + [Probe(host, port, false), Sleep(interval)]
  }

  /** Attempts `i..n-1`: True at the first open port; a closed one sleeps
      unless it was the last attempt. */
  function ReadyAttempts(o: Oracle, w: World, host: string, port: nat, interval: nat, i: nat, n: nat): World
    decreases n - i
  {
    if i >= n then w
    else
      var open := o.portOpen(Now(w), host, port);
      var v := Emit(w, Probe(host, port, open));
      if open || i == n - 1 then v
      else ReadyAttempts(o, SleepFor(v, interval), host, port, interval, i + 1, n)
  }

  /** The answer is the last probe's. */
  predicate LastProbeOpen(w: World, v: World) {
    |v.trace| > |w.trace| && v.trace[|v.trace| - 1].Probe? && v.trace[|v.trace| - 1].open
  }

  /** `wait_for_service_ready(host, port, max_retries, retry_interval)`. */
  method WaitForServiceReady(o: Oracle, w: World, host: string, port: nat, maxRetries: nat, interval: nat)
    returns (w': World, ready: bool)
    ensures w' == ReadyAttempts(o, w, host, port, interval, 0, maxRetries)
    ensures ready == LastProbeOpen(w, w')
  {
    w' := w;
    var i := 0;
    while i < maxRetries
      invariant i <= maxRetries
      invariant Extends(w, w')
      invariant ReadyAttempts(o, w', host, port, interval, i, maxRetries) == ReadyAttempts(o, w, host, port, interval, 0, maxRetries)
      invariant maxRetries > 0 ==> i < maxRetries
      decreases maxRetries - i
    {
      var open := o.portOpen(Now(w'), host, port);
      var v := Emit(w', Probe(host, port, open));
      if open || i == maxRetries - 1 {
        return v, open;
      }
      w' := SleepFor(v, interval);
      i := i + 1;
    }
    ready := false;
  }

  /** Probe `m` (counting from the first) is made at position `p + 2m`. */
  predicate ProbeOpens(o: Oracle, p: nat, host: string, port: nat, m: nat) {
    o.portOpen(p + 2 * m, host, port)
  }

  lemma {:induction false} ProbeFailuresCons(host: string, port: nat, j: nat, interval: nat)
    requires j > 0
    ensures ProbeFailures(host, port, j, interval) ==
      [Probe(host, port, false), Sleep(interval)] + ProbeFailures(host, port, j - 1, interval)
    decreases j
  {
    if j > 1 {
      ProbeFailuresCons(host, port, j - 1, interval);
    }
  }

  lemma {:induction false} ReadyAttemptsOpen(o: Oracle, w: World, host: string, port: nat, interval: nat, i: nat, n: nat, j: nat)
    requires i <= j < n
    requires forall m :: 0 <= m < j - i ==> !ProbeOpens(o, Now(w), host, port, m)
    requires ProbeOpens(o, Now(w), host, port, j - i)
    ensures ReadyAttempts(o, w, host, port, interval, i, n) ==
      World(w.trace + ProbeFailures(host, port, j - i, interval) + [Probe(host, port, true)], w.cloud)
    decreases j - i
  {
    if i < j {
      var f, z := Probe(host, port, false), Sleep(interval);
      assert !ProbeOpens(o, Now(w), host, port, 0);
      var w1 := SleepFor(Emit(w, f), interval);
      assert w1 == World(w.trace + [f, z], w.cloud);
      forall m | 0 <= m < j - (i + 1) ensures !ProbeOpens(o, Now(w1), host, port, m) {
        assert !ProbeOpens(o, Now(w), host, port, m + 1);
      }
      assert ProbeOpens(o, Now(w1), host, port, j - (i + 1));
      assert ReadyAttempts(o, w, host, port, interval, i, n) == ReadyAttempts(o, w1, host, port, interval, i + 1, n);
      ReadyAttemptsOpen(o, w1, host, port, interval, i + 1, n, j);
      ProbeFailuresCons(host, port, j - i, interval);
      assert w.trace + [f, z] + ProbeFailures(host, port, j - (i + 1), interval) ==
        w.trace + ([f, z] + ProbeFailures(host, port, j - (i + 1), interval));
    } else {
      assert ProbeOpens(o, Now(w), host, port, 0);
      assert ProbeFailures(host, port, 0, interval) == [];
    }
  }

  lemma {:induction false} ReadyAttemptsClosed(o: Oracle, w: World, host: string, port: nat, interval: nat, i: nat, n: nat)
    requires i < n
    requires forall m :: 0 <= m < n - i ==> !ProbeOpens(o, Now(w), host, port, m)
    ensures ReadyAttempts(o, w, host, port, interval, i, n) ==
      World(w.trace + ProbeFailures(host, port, n - 1 - i, interval) + [Probe(host, port, false)], w.cloud)
    decreases n - i
  {
    assert !ProbeOpens(o, Now(w), host, port, 0);
    if i < n - 1 {
      var w1 := SleepFor(Emit(w, Probe(host, port, false)), interval);
      forall m | 0 <= m < n - (i + 1) ensures !ProbeOpens(o, Now(w1), host, port, m) {
        assert !ProbeOpens(o, Now(w), host, port, m + 1);
      }
      ReadyAttemptsClosed(o, w1, host, port, interval, i + 1, n);
      ProbeFailuresCons(host, port, n - 1 - i, interval);
    }
  }

  /** The first open probe below `n`, given there is one. */
  lemma FirstOpen(o: Oracle, p: nat, host: string, port: nat, n: nat) returns (j: nat)
    requires exists j :: 0 <= j < n && ProbeOpens(o, p, host, port, j)
    ensures j < n && ProbeOpens(o, p, host, port, j)
    ensures forall m :: 0 <= m < j ==> !ProbeOpens(o, p, host, port, m)
  {
    var k :| 0 <= k < n && ProbeOpens(o, p, host, port, k);
    j := 0;
    while !ProbeOpens(o, p, host, port, j)
      invariant j <= k
      invariant forall m :: 0 <= m < j ==> !ProbeOpens(o, p, host, port, m)
      decreases k - j
    {
      j := j + 1;
    }
  }

  /** The service is reported ready exactly when one of the `max_retries`
      probes finds the port open; the trace is the closed probes with a pause
      after each, then the open probe, or the last closed probe with no pause
      after it. With no retries it returns False at once. */
  lemma WaitForServiceReadyOutcome(o: Oracle, w: World, host: string, port: nat, maxRetries: nat, interval: nat)
    ensures var v := ReadyAttempts(o, w, host, port, interval, 0, maxRetries);
      && v.cloud == w.cloud
      && (LastProbeOpen(w, v) <==> exists j :: 0 <= j < maxRetries && ProbeOpens(o, Now(w), host, port, j))
      && (maxRetries == 0 ==> v == w)
    ensures forall j :: (0 <= j < maxRetries && ProbeOpens(o, Now(w), host, port, j) &&
        (forall m :: 0 <= m < j ==> !ProbeOpens(o, Now(w), host, port, m))) ==>
      ReadyAttempts(o, w, host, port, interval, 0, maxRetries).trace ==
        w.trace + ProbeFailures(host, port, j, interval) + [Probe(host, port, true)]
    ensures maxRetries > 0 && (forall m :: 0 <= m < maxRetries ==> !ProbeOpens(o, Now(w), host, port, m)) ==>
      ReadyAttempts(o, w, host, port, interval, 0, maxRetries).trace ==
        w.trace + ProbeFailures(host, port, maxRetries - 1, interval) + [Probe(host, port, false)]
  {
    if exists j :: 0 <= j < maxRetries && ProbeOpens(o, Now(w), host, port, j) {
      var j := FirstOpen(o, Now(w), host, port, maxRetries);
      ReadyAttemptsOpen(o, w, host, port, interval, 0, maxRetries, j);
      forall j' | 0 <= j' < maxRetries && ProbeOpens(o, Now(w), host, port, j') &&
          (forall m :: 0 <= m < j' ==> !ProbeOpens(o, Now(w), host, port, m))
        ensures j' == j
      {
      }
    } else if maxRetries > 0 {
      ReadyAttemptsClosed(o, w, host, port, interval, 0, maxRetries);
    }
  }

  /** A readiness wait only probes its own host and port, pausing the given
      interval between probes, and changes no cloud resource. */
  lemma {:induction false} ReadyAttemptsEvents(o: Oracle, w: World, host: string, port: nat, interval: nat, i: nat, n: nat)
    ensures var v := ReadyAttempts(o, w, host, port, interval, i, n);
      && Extends(w, v) && v.cloud == w.cloud
      && forall e :: e in Since(w, v) ==> e == Sleep(interval) || (e.Probe? && e.host == host && e.port == port)
    decreases n - i
  {
    if i < n {
      var open := o.portOpen(Now(w), host, port);
      var v := Emit(w, Probe(host, port, open));
      assert Since(w, v) == [Probe(host, port, open)];
      if !(open || i == n - 1) {
        var u := SleepFor(v, interval);
        ExtendsTransitive(w, v, u);
        assert Since(v, u) == [Sleep(interval)];
        ReadyAttemptsEvents(o, u, host, port, interval, i + 1, n);
        ExtendsTransitive(w, u, ReadyAttempts(o, u, host, port, interval, i + 1, n));
      }
    }
  }

  /** A successful parallel create returns one instance per index, each
      named after an index below the count, and only adds to the trace. */
  lemma CreateInstancesParallelResult(o: Oracle, w: World, c: Config, r: Role, count: int, subnets: seq<Subnet>)
    ensures var x := CreateInstancesParallelSpec(o, w, c, r, count, subnets);
      && Extends(w, x.world)
      && (x.result.Ok? ==>
            && |x.result.value| == (if count > 0 then count else 0)
            && forall j :: 0 <= j < |x.result.value| ==>
                 exists k :: 0 <= k < count && Named(x.result.value[j], HostName(r, k)))
  {
    CreateInstancesParallelOutcome(o, w, c, r, count, subnets);
    if count > 0 && subnets != [] {
      ParallelRunOutcome(o, w, Submitted(o, c, r, subnets), r, count);
      var x := CreateInstancesParallelSpec(o, w, c, r, count, subnets);
      var order := CompletionOrder(o, Now(w), count);
      if x.result.Ok? {
        forall j | 0 <= j < |x.result.value|
          ensures exists k :: 0 <= k < count && Named(x.result.value[j], HostName(r, k))
        {
          assert order[j] in order;
        }
      }
    }
  }
}
