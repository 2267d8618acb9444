/** The collaborators of the orchestration code (EC2 and ELB, the SSH hosts,
    the local machine) as a value: what the cloud holds, and the trace of every
    outward call in the order it was made. An `Oracle`, fixed for a run,
    answers each call from the call's position in the trace, so a run is a
    function of the oracle and the starting world. */
module Env {
  import opened Common
  import opened Strings
  import opened Dicts
  import opened Cluster

  /** What `exec_command` yields: the exit status and both output streams. */
  datatype Reply = Reply(exit: int, out: string, err: string)

  datatype InstanceState = Pending | Running | Stopping | Stopped | ShuttingDown | Terminated

  /** An EC2 instance as `describe_instances` and boto3's `Instance` show it. */
  datatype Instance = Instance(
    id: string,
    privateIp: string,
    subnetId: string,
    az: string,
    tags: seq<Item<string>>,
    state: InstanceState)

  datatype Balancer = Balancer(arn: string, name: string, tags: seq<Item<string>>)

  /** A target group and the load balancer whose listener forwards to it. */
  datatype TargetGroup = TargetGroup(arn: string, name: string, balancer: Option<string>)

  datatype Cloud = Cloud(instances: seq<Instance>, balancers: seq<Balancer>, targetGroups: seq<TargetGroup>)

  /** The `create_instances` request of `create_ec2_instance`. */
  datatype LaunchRequest = LaunchRequest(
    imageId: string,
    instanceType: string,
    minCount: nat,
    maxCount: nat,
    keyName: string,
    securityGroup: string,
    subnetId: string,
    instanceTags: seq<Item<string>>,
    volumeTags: seq<Item<string>>,
    volumeSize: nat,
    volumeType: string,
    iamProfile: Option<string>)

  /** `create_target_group` arguments. */
  datatype TargetGroupRequest = TargetGroupRequest(
    name: string,
    port: nat,
    vpcId: string,
    healthPath: string,
    interval: nat,
    timeout: nat,
    healthyThreshold: nat,
    unhealthyThreshold: nat)

  /** The AWS API calls, with the arguments the model's properties talk about. */
  datatype Call =
    | DescribeImages
    | FindInstances(name: string, states: seq<InstanceState>)
    | DescribeManagedInstances
    | RunInstances(launch: LaunchRequest)
    | WaitUntilRunning(id: string)
    | Reload(id: string)
    | TerminateInstances(ids: seq<string>)
    | DescribeLoadBalancers
    | DescribeTags(arn: string)
    | DescribeTargetGroups(balancer: string)
    | DescribeTargetGroupsNamed(name: string)
    | DeleteTargetGroup(arn: string)
    | DeleteLoadBalancer(arn: string)
    | CreateLoadBalancer(name: string, subnets: seq<string>, securityGroup: string, scheme: string)
    | CreateTargetGroup(group: TargetGroupRequest)
    | RegisterTargets(targetGroup: string, ids: seq<string>)
    | CreateListener(balancer: string, port: nat, targetGroup: string)
    | DescribeTargetHealth(targetGroup: string, id: string)

  datatype Event =
    | Connect(host: string, ok: bool)                      // paramiko connect
    | Exec(host: string, command: string, exit: int)       // exec_command and its exit status
    | Write(host: string, path: string, content: string, ok: bool)  // an SFTP upload; not ok = it raised
    | Close(host: string)
    | Sleep(seconds: nat)
    | Aws(call: Call, ok: bool)                            // a boto3 call; not ok = it raised
    | Probe(host: string, port: nat, open: bool)           // is_service_running
    | Local(action: string, ok: bool)                      // a local step: download, database check
    | Saved(path: string, config: Config)                  // save_config

  /** An AMI as `describe_images` lists it. */
  datatype Image = Image(imageId: string, name: string, creationDate: string)

  /** The answers of the outside world, indexed by the position of the call in
      the trace. */
  datatype Oracle = Oracle(
    connects: (nat, string) -> bool,
    reply: (nat, string, string) -> Reply,
    writeOk: (nat, string, string) -> bool,
    awsOk: nat -> bool,
    portOpen: (nat, string, nat) -> bool,
    localOk: (nat, string) -> bool,
    images: seq<Image>,
    newInstanceId: nat -> string,
    newPrivateIp: nat -> string,
    newArn: nat -> string,
    newDnsName: nat -> string,
    targetHealth: nat -> Option<string>,
    completion: (nat, nat) -> seq<nat>,
    clock: nat -> nat,
    sshKeyEnv: Option<string>,
    home: string,
    fileExists: string -> bool,
    emrHdfsAddress: Option<string>)

  datatype World = World(trace: seq<Event>, cloud: Cloud)

  /** The world after an operation, and what the operation returned or raised. */
  datatype Out<T> = Out(world: World, result: Result<T>)

  /** The position of the next call. */
  function Now(w: World): nat {
    |w.trace|
  }

  function Emit(w: World, e: Event): World {
    w.(trace := w.trace + [e])
  }

  function SleepFor(w: World, seconds: nat): World {
    Emit(w, Sleep(seconds))
  }

  /** `v` continues `w`: the calls already made stay as they were. */
  predicate Extends(w: World, v: World) {
    w.trace <= v.trace
  }

  /** The calls made between `w` and `v`. */
  function Since(w: World, v: World): seq<Event>
    requires Extends(w, v)
  {
    v.trace[|w.trace|..]
  }

  lemma ExtendsTransitive(u: World, v: World, w: World)
    requires Extends(u, v) && Extends(v, w)
    ensures Extends(u, w)
    ensures Since(u, w) == Since(u, v) + Since(v, w)
  {
    assert w.trace[|u.trace|..] == v.trace[|u.trace|..] + w.trace[|v.trace|..];
  }

  /** What a run does that a plan can prescribe: a remote command (the host
      and the command text), a pause, or a file sent to a host. */
  datatype Act = Cmd(host: string, command: string) | Wait(seconds: nat) | Send(host: string, path: string, content: string)

  /** The remote commands, pauses and uploads among the events, in order. */
  function Acts(es: seq<Event>): seq<Act>
    decreases |es|
  {
    if es == [] then []
    else
      (match es[0]
       case Exec(h, c, _) => [Cmd(h, c)]
       case Sleep(n) => [Wait(n)]
       case Write(h, p, c, _) => [Send(h, p, c)]
       case _ => []) + Acts(es[1..])
  }

  lemma {:induction false} ActsAppend(a: seq<Event>, b: seq<Event>)
    ensures Acts(a + b) == Acts(a) + Acts(b)
    decreases |a|
  {
    if a != [] {
      assert (a + b)[0] == a[0] && (a + b)[1..] == a[1..] + b;
      ActsAppend(a[1..], b);
    } else {
      assert a + b == b;
    }
  }

  /** A file written to a host, as the uploads among the events show it. */
  datatype Upload = Upload(host: string, content: string)

  /** The files that landed, in order: the writes that did not raise. */
  function Uploads(es: seq<Event>): seq<Upload>
    decreases |es|
  {
    if es == [] then []
    else (if es[0].Write? && es[0].ok then [Upload(es[0].host, es[0].content)] else []) + Uploads(es[1..])
  }

  lemma {:induction false} UploadsAppend(a: seq<Event>, b: seq<Event>)
    ensures Uploads(a + b) == Uploads(a) + Uploads(b)
    decreases |a|
  {
    if a != [] {
      assert (a + b)[0] == a[0] && (a + b)[1..] == a[1..] + b;
      UploadsAppend(a[1..], b);
    } else {
      assert a + b == b;
    }
  }

  /** `p` lists each of `0..n-1` exactly once. */
  predicate IsIndexPermutation(p: seq<nat>, n: nat) {
    |p| == n &&
    (forall i :: 0 <= i < n ==> p[i] < n) &&
    (forall i, j :: 0 <= i < j < n ==> p[i] != p[j]) &&
    (forall k :: 0 <= k < n ==> k in p)
  }

  /** The order in which `n` futures submitted at position `t` complete
      (`as_completed`); the index order stands in when the oracle's answer is
      not a permutation. */
  function CompletionOrder(o: Oracle, t: nat, n: nat): (p: seq<nat>)
    ensures IsIndexPermutation(p, n)
  {
    if IsIndexPermutation(o.completion(t, n), n) then o.completion(t, n)
    else
      var id: seq<nat> := seq(n, (i: nat) requires i < n => i);
      assert forall k :: 0 <= k < n ==> id[k] == k;
      assert forall k :: 0 <= k < n ==> k in id by {
        forall k | 0 <= k < n ensures k in id {
          assert id[k] == k;
        }
      }
      id
  }
}
