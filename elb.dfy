/** The load balancer in front of the API servers: creating it with its
    target group, registration and listener; looking the target group up by
    name; and the two target-health polls, with attempt counters standing in
    for the wall-clock limits. */
module Elb {
  import opened Common
  import opened Dicts
  import opened Cluster
  import opened Env
  import opened Ec2

  const AlbName := "dolphinscheduler-alb"
  const TargetGroupName := "ds-api-tg"
  const ApiTargetPort := 12345
  const DefaultScheme := "internet-facing"
  const DefaultHealthPath := "/dolphinscheduler/actuator/health"
  const DefaultInterval := 30
  const DefaultTimeout := 5
  const DefaultHealthyThreshold := 2
  const DefaultUnhealthyThreshold := 3
  const DefaultListenerPort := 80

  /** The tags `create_alb` puts on the load balancer. */
  const AlbTags: seq<Item<string>> := [Item(NameKey, AlbName), Item(ManagedByKey, ManagedByCli)]

  /** The dict `create_alb` returns. */
  datatype AlbCreated = AlbCreated(albArn: string, albDns: string, targetGroupArn: string)

  function SubnetIds(subnets: seq<Subnet>): (ids: seq<string>)
    ensures |ids| == |subnets| && forall k :: 0 <= k < |subnets| ==> ids[k] == subnets[k].subnetId
  {
    seq(|subnets|, k requires 0 <= k < |subnets| => subnets[k].subnetId)
  }

  /** The configured subnets, or else the ids of the first two subnets of
      `aws.subnets` (fewer when fewer are configured). */
  function AlbSubnets(c: Config, lb: LoadBalancerSettings): (s: seq<string>)
    ensures lb.subnets != [] ==> s == lb.subnets
    ensures lb.subnets == [] ==>
      |s| == (if |c.subnets| < 2 then |c.subnets| else 2) &&
      forall k :: 0 <= k < |s| ==> s[k] == c.subnets[k].subnetId
  {
    if lb.subnets != [] then lb.subnets
    else SubnetIds(c.subnets[..if |c.subnets| < 2 then |c.subnets| else 2])
  }

  /** The `create_target_group` arguments, with the health-check defaults. */
  function TargetGroupRequestFor(c: Config, lb: LoadBalancerSettings): TargetGroupRequest {
    var h := lb.healthCheck;
    TargetGroupRequest(TargetGroupName, ApiTargetPort, c.vpcId,
      OrDefault(h.path, DefaultHealthPath), OrDefault(h.interval, DefaultInterval), OrDefault(h.timeout, DefaultTimeout),
      OrDefault(h.healthyThreshold, DefaultHealthyThreshold), OrDefault(h.unhealthyThreshold, DefaultUnhealthyThreshold))
  }

  /** Each health-check setting is the configured one, or its default when
      absent; the group is always `ds-api-tg` on port 12345 of the VPC. */
  lemma TargetGroupDefaults(c: Config, lb: LoadBalancerSettings)
    ensures var q := TargetGroupRequestFor(c, lb);
      && q.name == TargetGroupName && q.port == ApiTargetPort && q.vpcId == c.vpcId
      && (lb.healthCheck.path.None? ==> q.healthPath == DefaultHealthPath)
      && (lb.healthCheck.path.Some? ==> q.healthPath == lb.healthCheck.path.value)
      && (lb.healthCheck.interval.None? ==> q.interval == DefaultInterval)
      && (lb.healthCheck.interval.Some? ==> q.interval == lb.healthCheck.interval.value)
      && (lb.healthCheck.timeout.None? ==> q.timeout == DefaultTimeout)
      && (lb.healthCheck.timeout.Some? ==> q.timeout == lb.healthCheck.timeout.value)
      && (lb.healthCheck.healthyThreshold.None? ==> q.healthyThreshold == DefaultHealthyThreshold)
      && (lb.healthCheck.healthyThreshold.Some? ==> q.healthyThreshold == lb.healthCheck.healthyThreshold.value)
      && (lb.healthCheck.unhealthyThreshold.None? ==> q.unhealthyThreshold == DefaultUnhealthyThreshold)
      && (lb.healthCheck.unhealthyThreshold.Some? ==> q.unhealthyThreshold == lb.healthCheck.unhealthyThreshold.value)
  {
  }

  function WithBalancers(w: World, balancers: seq<Balancer>): World {
    w.(cloud := w.cloud.(balancers := balancers))
  }

  function WithTargetGroups(w: World, groups: seq<TargetGroup>): World {
    w.(cloud := w.cloud.(targetGroups := groups))
  }

  /** The last two calls of `create_alb`: registering one target per API
      instance and the listener that forwards to the group. */
  function RegisterAndListen(o: Oracle, w: World, c: Config, lb: LoadBalancerSettings, albArn: string, albDns: string,
                             tgArn: string, before: seq<TargetGroup>, apiInstances: seq<Instance>): Out<Option<AlbCreated>> {
    var reg := Invoke(o, w, RegisterTargets(tgArn, InstanceIds(apiInstances)));
    if reg.result.Err? then Out(reg.world, Err(reg.result.error))
    else
      var lis := Invoke(o, reg.world, CreateListener(albArn, OrDefault(lb.listenerPort, DefaultListenerPort), tgArn));
      if lis.result.Err? then Out(lis.world, Err(lis.result.error))
      else
        Out(WithTargetGroups(lis.world, before + [TargetGroup(tgArn, TargetGroupName, Some(albArn))]),
            Ok(Some(AlbCreated(albArn, albDns, tgArn))))
  }

  /** `create_alb(config, api_instances)`: nothing when the load balancer is
      not enabled; otherwise the load balancer, the target group, the
      registration and the listener, each call raising on failure and leaving
      what was already created in place. */
  function CreateAlb(o: Oracle, w: World, c: Config, apiInstances: seq<Instance>): Out<Option<AlbCreated>> {
    if !AlbEnabled(c) then Out(w, Ok(None))
    else
      var lb := c.loadBalancer.value;
      var mk := Invoke(o, w, CreateLoadBalancer(AlbName, AlbSubnets(c, lb), c.securityGroups.api, OrDefault(lb.scheme, DefaultScheme)));
      if mk.result.Err? then Out(mk.world, Err(mk.result.error))
      else
        var albArn := o.newArn(Now(w));
        var w1 := WithBalancers(mk.world, w.cloud.balancers + [Balancer(albArn, AlbName, AlbTags)]);
        var tg := Invoke(o, w1, CreateTargetGroup(TargetGroupRequestFor(c, lb)));
        if tg.result.Err? then Out(tg.world, Err(tg.result.error))
        else
          var tgArn := o.newArn(Now(w1));
          var w2 := WithTargetGroups(tg.world, w.cloud.targetGroups + [TargetGroup(tgArn, TargetGroupName, None)]);
          RegisterAndListen(o, w2, c, lb, albArn, o.newDnsName(Now(w)), tgArn, w.cloud.targetGroups, apiInstances)
  }

  lemma RegisterAndListenOutcome(o: Oracle, w: World, c: Config, lb: LoadBalancerSettings, albArn: string, albDns: string,
                                 tgArn: string, before: seq<TargetGroup>, apiInstances: seq<Instance>)
    ensures var x := RegisterAndListen(o, w, c, lb, albArn, albDns, tgArn, before, apiInstances);
      && Extends(w, x.world)
      && x.world.cloud.instances == w.cloud.instances && x.world.cloud.balancers == w.cloud.balancers
      && (x.result.Err? ==> x.world.cloud == w.cloud)
      && (x.result.Ok? <==> o.awsOk(Now(w)) && o.awsOk(Now(w) + 1))
      && (x.result.Ok? ==>
            && Since(w, x.world) == [Aws(RegisterTargets(tgArn, InstanceIds(apiInstances)), true),
                                     Aws(CreateListener(albArn, OrDefault(lb.listenerPort, DefaultListenerPort), tgArn), true)]
            && x.world.cloud.targetGroups == before + [TargetGroup(tgArn, TargetGroupName, Some(albArn))]
            && x.result.value == Some(AlbCreated(albArn, albDns, tgArn)))
  {
    var reg := Invoke(o, w, RegisterTargets(tgArn, InstanceIds(apiInstances)));
    if reg.result.Ok? {
      var lis := Invoke(o, reg.world, CreateListener(albArn, OrDefault(lb.listenerPort, DefaultListenerPort), tgArn));
      ExtendsTransitive(w, reg.world, lis.world);
      var v := WithTargetGroups(lis.world, before + [TargetGroup(tgArn, TargetGroupName, Some(albArn))]);
      assert Since(w, v) == Since(w, lis.world);
    }
  }

  /** Disabled: None and no call. Enabled: the calls are made in the order
      load balancer, target group, registration, listener; the result is
      returned iff all four go through, and then the inventory holds the new
      load balancer tagged `ManagedBy=dolphinscheduler-cli` and the new group
      forwarding from it, with one target per API instance registered. */
  lemma CreateAlbOutcome(o: Oracle, w: World, c: Config, apiInstances: seq<Instance>)
    ensures !AlbEnabled(c) ==> CreateAlb(o, w, c, apiInstances) == Out(w, Ok(None))
    ensures var x := CreateAlb(o, w, c, apiInstances);
      AlbEnabled(c) ==>
        && Extends(w, x.world)
        && x.world.cloud.instances == w.cloud.instances
        && (x.result.Ok? <==> o.awsOk(Now(w)) && o.awsOk(Now(w) + 1) && o.awsOk(Now(w) + 2) && o.awsOk(Now(w) + 3))
        && (x.result.Ok? ==>
              var lb := c.loadBalancer.value;
              var albArn := o.newArn(Now(w));
              var tgArn := o.newArn(Now(w) + 1);
              && |Since(w, x.world)| == 4
              && Since(w, x.world)[0] == Aws(CreateLoadBalancer(AlbName, AlbSubnets(c, lb), c.securityGroups.api, OrDefault(lb.scheme, DefaultScheme)), true)
              && Since(w, x.world)[1] == Aws(CreateTargetGroup(TargetGroupRequestFor(c, lb)), true)
              && Since(w, x.world)[2] == Aws(RegisterTargets(tgArn, InstanceIds(apiInstances)), true)
              && Since(w, x.world)[3] == Aws(CreateListener(albArn, OrDefault(lb.listenerPort, DefaultListenerPort), tgArn), true)
              && x.world.cloud.balancers == w.cloud.balancers + [Balancer(albArn, AlbName, AlbTags)]
              && x.world.cloud.targetGroups == w.cloud.targetGroups + [TargetGroup(tgArn, TargetGroupName, Some(albArn))]
              && x.result.value == Some(AlbCreated(albArn, o.newDnsName(Now(w)), tgArn)))
  {
    if AlbEnabled(c) {
      var lb := c.loadBalancer.value;
      var mk := Invoke(o, w, CreateLoadBalancer(AlbName, AlbSubnets(c, lb), c.securityGroups.api, OrDefault(lb.scheme, DefaultScheme)));
      if mk.result.Ok? {
        var albArn := o.newArn(Now(w));
        var w1 := WithBalancers(mk.world, w.cloud.balancers + [Balancer(albArn, AlbName, AlbTags)]);
        assert Since(w, w1) == Since(w, mk.world);
        var tg := Invoke(o, w1, CreateTargetGroup(TargetGroupRequestFor(c, lb)));
        ExtendsTransitive(w, w1, tg.world);
        if tg.result.Ok? {
          var tgArn := o.newArn(Now(w1));
          var w2 := WithTargetGroups(tg.world, w.cloud.targetGroups + [TargetGroup(tgArn, TargetGroupName, None)]);
          assert Since(w, w2) == Since(w, tg.world);
          var x := RegisterAndListen(o, w2, c, lb, albArn, o.newDnsName(Now(w)), tgArn, w.cloud.targetGroups, apiInstances);
          RegisterAndListenOutcome(o, w2, c, lb, albArn, o.newDnsName(Now(w)), tgArn, w.cloud.targetGroups, apiInstances);
          ExtendsTransitive(w, w2, x.world);
        }
      }
    }
  }

  // ---- get_target_group_arn ----

  function GroupsNamed(groups: seq<TargetGroup>, name: string): (s: seq<TargetGroup>)
    ensures forall g :: g in s <==> g in groups && g.name == name
    decreases |groups|
  {
    if groups == [] then []
    else
      var rest := GroupsNamed(groups[1..], name);
      assert forall g :: g in groups <==> g == groups[0] || g in groups[1..];
      (if groups[0].name == name then [groups[0]] else []) + rest
  }

  /** `get_target_group_arn(config)`: any failure of the call is swallowed. */
  function GetTargetGroupArn(o: Oracle, w: World): Out<Option<string>> {
    var d := Invoke(o, w, DescribeTargetGroupsNamed(TargetGroupName));
    if d.result.Err? then Out(d.world, Ok(None))
    else
      var found := GroupsNamed(w.cloud.targetGroups, TargetGroupName);
      Out(d.world, Ok(if found == [] then None else Some(found[0].arn)))
  }

  /** It never raises; it yields None when the call fails or no group is
      named `ds-api-tg`, and otherwise the ARN of such a group. */
  lemma GetTargetGroupArnOutcome(o: Oracle, w: World)
    ensures var x := GetTargetGroupArn(o, w);
      && x.result.Ok?
      && x.world == Emit(w, Aws(DescribeTargetGroupsNamed(TargetGroupName), o.awsOk(Now(w))))
      && (!o.awsOk(Now(w)) ==> x.result.value == None)
      && (o.awsOk(Now(w)) ==>
            (x.result.value.None? <==> forall g :: g in w.cloud.targetGroups ==> g.name != TargetGroupName))
      && (x.result.value.Some? ==>
            exists g :: g in w.cloud.targetGroups && g.name == TargetGroupName && g.arn == x.result.value.value)
  {
    var found := GroupsNamed(w.cloud.targetGroups, TargetGroupName);
    if found != [] {
      assert found[0] in found;
    }
  }

  // ---- wait_for_target_draining and wait_for_target_healthy ----

  /** The target-health answer at which a poll stops. */
  type Settled = Option<string> -> bool

  /** No description left, or the state `unused`. */
  predicate Drained(h: Option<string>) {
    h.None? || h.value == "unused"
  }

  predicate Healthy(h: Option<string>) {
    h == Some("healthy")
  }

  const DrainInterval := 5
  const HealthyInterval := 10

  /** Polls `i..n-1`: a `describe_target_health` call raises out of the loop;
      a settled answer returns True; any other answer sleeps and polls again;
      after the last poll's sleep the wait times out with False. */
  function Polls(o: Oracle, w: World, tg: string, id: string, settled: Settled, interval: nat, i: nat, n: nat): Out<bool>
    decreases n - i
  {
    if i >= n then Out(w, Ok(false))
    else
      var d := Invoke(o, w, DescribeTargetHealth(tg, id));
      if d.result.Err? then Out(d.world, Err(d.result.error))
      else if settled(o.targetHealth(Now(w))) then Out(d.world, Ok(true))
      else Polls(o, SleepFor(d.world, interval), tg, id, settled, interval, i + 1, n)
  }

  /** The polling loop shared by both waits. */
  method PollTargetHealth(o: Oracle, w: World, tg: string, id: string, settled: Settled, interval: nat, maxPolls: nat)
    returns (w': World, r: Result<bool>)
    ensures Out(w', r) == Polls(o, w, tg, id, settled, interval, 0, maxPolls)
  {
    w' := w;
    var i := 0;
    while i < maxPolls
      invariant i <= maxPolls
      invariant Polls(o, w', tg, id, settled, interval, i, maxPolls) == Polls(o, w, tg, id, settled, interval, 0, maxPolls)
      decreases maxPolls - i
    {
      var d := Invoke(o, w', DescribeTargetHealth(tg, id));
      if d.result.Err? {
        return d.world, Err(d.result.error);
      }
      if settled(o.targetHealth(Now(w'))) {
        return d.world, Ok(true);
      }
      w' := SleepFor(d.world, interval);
      i := i + 1;
    }
    r := Ok(false);
  }

  /** `wait_for_target_draining(elbv2, target_group_arn, instance_id,
      max_wait)`, with `maxPolls` polls in place of `max_wait` seconds. */
  method WaitForTargetDraining(o: Oracle, w: World, tg: string, id: string, maxPolls: nat) returns (w': World, r: Result<bool>)
    ensures Out(w', r) == Polls(o, w, tg, id, Drained, DrainInterval, 0, maxPolls)
  {
    w', r := PollTargetHealth(o, w, tg, id, Drained, DrainInterval, maxPolls);
  }

  /** `wait_for_target_healthy(elbv2, target_group_arn, instance_id,
      max_wait)`, with `maxPolls` polls in place of `max_wait` seconds. */
  method WaitForTargetHealthy(o: Oracle, w: World, tg: string, id: string, maxPolls: nat) returns (w': World, r: Result<bool>)
    ensures Out(w', r) == Polls(o, w, tg, id, Healthy, HealthyInterval, 0, maxPolls)
  {
    w', r := PollTargetHealth(o, w, tg, id, Healthy, HealthyInterval, maxPolls);
  }

  /** Poll `m` (counting from the first) is made at position `p + 2m`; it
      goes on when the call goes through and the answer has not settled. */
  predicate PollGoesOn(o: Oracle, p: nat, settled: Settled, m: nat) {
    o.awsOk(p + 2 * m) && !settled(o.targetHealth(p + 2 * m))
  }

  /** `j` polls that went on, each followed by its pause. */
  function Unsettled(tg: string, id: string, j: nat, interval: nat): (es: seq<Event>)
    ensures |es| == 2 * j
  {
    if j == 0 then [] else Unsettled(tg, id, j - 1, interval) + [Aws(DescribeTargetHealth(tg, id), true), Sleep(interval)]
  }

  lemma {:induction false} UnsettledCons(tg: string, id: string, j: nat, interval: nat)
    requires j > 0
    ensures Unsettled(tg, id, j, interval) ==
      [Aws(DescribeTargetHealth(tg, id), true), Sleep(interval)] + Unsettled(tg, id, j - 1, interval)
    decreases j
  {
    if j > 1 {
      UnsettledCons(tg, id, j - 1, interval);
    }
  }

  /** After one poll that went on and its pause, the remaining `j - 1`
      make up the `j` counted from before it. */
  lemma UnsettledAfterPoll(w: World, tg: string, id: string, j: nat, interval: nat)
    requires j > 0
    ensures SleepFor(Emit(w, Aws(DescribeTargetHealth(tg, id), true)), interval).trace + Unsettled(tg, id, j - 1, interval) ==
      w.trace + Unsettled(tg, id, j, interval)
  {
    UnsettledCons(tg, id, j, interval);
    var head := [Aws(DescribeTargetHealth(tg, id), true), Sleep(interval)];
    assert SleepFor(Emit(w, Aws(DescribeTargetHealth(tg, id), true)), interval).trace == w.trace + head;
    assert w.trace + head + Unsettled(tg, id, j - 1, interval) == w.trace + (head + Unsettled(tg, id, j - 1, interval));
  }

  /** A poll that goes on leads to the next poll after its pause. */
  lemma PollsStep(o: Oracle, w: World, tg: string, id: string, settled: Settled, interval: nat, i: nat, n: nat)
    requires i < n && PollGoesOn(o, Now(w), settled, 0)
    ensures Polls(o, w, tg, id, settled, interval, i, n) ==
      Polls(o, SleepFor(Emit(w, Aws(DescribeTargetHealth(tg, id), true)), interval), tg, id, settled, interval, i + 1, n)
  {
  }

  /** A poll that does not go on ends the run. */
  lemma PollsStopHere(o: Oracle, w: World, tg: string, id: string, settled: Settled, interval: nat, i: nat, n: nat)
    requires i < n && !PollGoesOn(o, Now(w), settled, 0)
    ensures Polls(o, w, tg, id, settled, interval, i, n) ==
      Out(Emit(w, Aws(DescribeTargetHealth(tg, id), o.awsOk(Now(w)))), if o.awsOk(Now(w)) then Ok(true) else Err(AwsFailure))
  {
  }

  /** The polls after the first that goes on are shifted by two positions. */
  lemma PollsShift(o: Oracle, p: nat, q: nat, settled: Settled, j: nat)
    requires j > 0 && q == p + 2
    requires forall m :: 0 <= m < j ==> PollGoesOn(o, p, settled, m)
    ensures forall m :: 0 <= m < j - 1 ==> PollGoesOn(o, q, settled, m)
  {
    forall m | 0 <= m < j - 1 ensures PollGoesOn(o, q, settled, m) {
      assert PollGoesOn(o, p, settled, m + 1);
    }
  }

  /** When polls `0..j-1` go on and poll `j` does not, the run stops at poll
      `j`: True if it settled, the error if it raised. */
  lemma {:induction false} PollsStopAt(o: Oracle, w: World, tg: string, id: string, settled: Settled, interval: nat, i: nat, n: nat, j: nat)
    requires i <= j < n
    requires forall m :: 0 <= m < j - i ==> PollGoesOn(o, Now(w), settled, m)
    requires !PollGoesOn(o, Now(w), settled, j - i)
    ensures var p := Now(w) + 2 * (j - i);
      Polls(o, w, tg, id, settled, interval, i, n) ==
        Out(World(w.trace + Unsettled(tg, id, j - i, interval) + [Aws(DescribeTargetHealth(tg, id), o.awsOk(p))], w.cloud),
            if o.awsOk(p) then Ok(true) else Err(AwsFailure))
    decreases j - i
  {
    var e := Aws(DescribeTargetHealth(tg, id), true);
    if i < j {
      assert PollGoesOn(o, Now(w), settled, 0);
      var w1 := SleepFor(Emit(w, e), interval);
      assert Now(w1) == Now(w) + 2;
      PollsStep(o, w, tg, id, settled, interval, i, n);
      PollsShift(o, Now(w), Now(w1), settled, j - i);
      PollsStopAt(o, w1, tg, id, settled, interval, i + 1, n, j);
      assert Now(w1) + 2 * (j - (i + 1)) == Now(w) + 2 * (j - i);
      UnsettledAfterPoll(w, tg, id, j - i, interval);
    } else {
      PollsStopHere(o, w, tg, id, settled, interval, i, n);
      assert w.trace + Unsettled(tg, id, 0, interval) == w.trace;
    }
  }

  /** When every poll goes on, the wait times out after the last pause. */
  lemma {:induction false} PollsTimeOut(o: Oracle, w: World, tg: string, id: string, settled: Settled, interval: nat, i: nat, n: nat)
    requires i <= n
    requires forall m :: 0 <= m < n - i ==> PollGoesOn(o, Now(w), settled, m)
    ensures Polls(o, w, tg, id, settled, interval, i, n) ==
      Out(World(w.trace + Unsettled(tg, id, n - i, interval), w.cloud), Ok(false))
    decreases n - i
  {
    if i < n {
      assert PollGoesOn(o, Now(w), settled, 0);
      var w1 := SleepFor(Emit(w, Aws(DescribeTargetHealth(tg, id), true)), interval);
      assert Now(w1) == Now(w) + 2;
      PollsStep(o, w, tg, id, settled, interval, i, n);
      PollsShift(o, Now(w), Now(w1), settled, n - i);
      PollsTimeOut(o, w1, tg, id, settled, interval, i + 1, n);
      UnsettledAfterPoll(w, tg, id, n - i, interval);
      var rest := Unsettled(tg, id, n - i - 1, interval);
      assert Polls(o, w1, tg, id, settled, interval, i + 1, n) == Out(World(w1.trace + rest, w1.cloud), Ok(false));
      assert w1.trace + rest == w.trace + Unsettled(tg, id, n - i, interval) && w1.cloud == w.cloud;
    } else {
      assert Unsettled(tg, id, 0, interval) == [];
      assert World(w.trace + [], w.cloud) == w;
    }
  }

  /** The first poll that does not go on, given there is one. */
  lemma FirstStop(o: Oracle, p: nat, settled: Settled, n: nat) returns (j: nat)
    requires exists j :: 0 <= j < n && !PollGoesOn(o, p, settled, j)
    ensures j < n && !PollGoesOn(o, p, settled, j)
    ensures forall m :: 0 <= m < j ==> PollGoesOn(o, p, settled, m)
  {
    var k :| 0 <= k < n && !PollGoesOn(o, p, settled, k);
    j := 0;
    while PollGoesOn(o, p, settled, j)
      invariant j <= k
      invariant forall m :: 0 <= m < j ==> PollGoesOn(o, p, settled, m)
      decreases k - j
    {
      j := j + 1;
    }
  }

  /** A wait returns True exactly when some poll settles before any poll
      raises; it raises exactly when some poll's call fails before any
      settles; otherwise it returns False after `maxPolls` polls, each
      followed by its pause. The cloud never changes. */
  lemma PollsOutcome(o: Oracle, w: World, tg: string, id: string, settled: Settled, interval: nat, maxPolls: nat)
    ensures var x := Polls(o, w, tg, id, settled, interval, 0, maxPolls);
      && x.world.cloud == w.cloud
      && (x.result == Ok(true) <==>
            exists j :: 0 <= j < maxPolls && o.awsOk(Now(w) + 2 * j) &&
              (forall m :: 0 <= m < j ==> PollGoesOn(o, Now(w), settled, m)) && !PollGoesOn(o, Now(w), settled, j))
      && (x.result == Ok(false) <==> forall m :: 0 <= m < maxPolls ==> PollGoesOn(o, Now(w), settled, m))
      && (x.result.Err? ==> x.result.error == AwsFailure)
    ensures (forall m :: 0 <= m < maxPolls ==> PollGoesOn(o, Now(w), settled, m)) ==>
      Polls(o, w, tg, id, settled, interval, 0, maxPolls).world.trace == w.trace + Unsettled(tg, id, maxPolls, interval)
  {
    if exists j :: 0 <= j < maxPolls && !PollGoesOn(o, Now(w), settled, j) {
      var j := FirstStop(o, Now(w), settled, maxPolls);
      PollsStopAt(o, w, tg, id, settled, interval, 0, maxPolls, j);
    } else {
      PollsTimeOut(o, w, tg, id, settled, interval, 0, maxPolls);
    }
  }

  /** Draining settles on an empty description or `unused`, and on nothing
      else; health settles only on `healthy`, so an empty description keeps
      the poll going. */
  lemma SettledStates(h: Option<string>)
    ensures Drained(h) <==> h == None || h == Some("unused")
    ensures Healthy(h) ==> h.Some?
    ensures Healthy(None) == false && Drained(None)
  {
  }
}
