/** `delete.py`: tearing a cluster down (`delete_cluster`, which uses
    `delete_alb`) and the tag-driven sweep `cleanup_by_tags`. Every boto3 call
    is one `Aws` event; whether it raises is the oracle's answer for its
    position in the trace. */
module Delete {
  import opened Common
  import opened Dicts
  import opened Cluster
  import opened Env
  import opened Ec2
  import Services

  // ---- tags ----

  /** `{tag['Key']: tag['Value'] for tag in tags}`: a later entry of a key
      overwrites an earlier one. */
  function TagDict(tags: seq<Item<string>>): seq<Item<string>>
    decreases |tags|
  {
    if tags == [] then []
    else
      var last := tags[|tags| - 1];
      Set(TagDict(tags[..|tags| - 1]), last.key, last.val)
  }

  /** `tags.get('ManagedBy') == 'dolphinscheduler-cli'` on that dict. */
  predicate Managed(tags: seq<Item<string>>) {
    Get(TagDict(tags), ManagedByKey) == Some(ManagedByCli)
  }

  /** The EC2 filter `tag:ManagedBy` with value `dolphinscheduler-cli`. */
  predicate TaggedForCli(tags: seq<Item<string>>) {
    Item(ManagedByKey, ManagedByCli) in tags
  }

  lemma {:induction false} GetAppendLast(d: seq<Item<string>>, x: Item<string>, k: string)
    ensures Get(d + [x], k) == if Get(d, k).Some? then Get(d, k) else if x.key == k then Some(x.val) else None
    decreases |d|
  {
    if d == [] {
      assert d + [x] == [x];
    } else {
      assert (d + [x])[0] == d[0] && (d + [x])[1..] == d[1..] + [x];
      GetAppendLast(d[1..], x, k);
    }
  }

  /** With distinct keys (as AWS keeps them) `get` finds exactly the listed pair. */
  lemma {:induction false} GetIffListed(d: seq<Item<string>>, k: string, v: string)
    requires DistinctKeys(d)
    ensures Get(d, k) == Some(v) <==> Item(k, v) in d
    decreases |d|
  {
    if d != [] {
      assert d == [d[0]] + d[1..];
      assert DistinctKeys(d[1..]) by {
        forall i, j | 0 <= i < j < |d[1..]| ensures d[1..][i].key != d[1..][j].key {
          assert d[1..][i] == d[i + 1] && d[1..][j] == d[j + 1];
        }
      }
      GetIffListed(d[1..], k, v);
      if d[0].key == k {
        forall i | 0 <= i < |d[1..]| ensures d[1..][i].key != k {
          assert d[1..][i] == d[i + 1];
        }
      }
    }
  }

  lemma {:induction false} GetMissing(d: seq<Item<string>>, k: string)
    requires forall i :: 0 <= i < |d| ==> d[i].key != k
    ensures Get(d, k) == None
    decreases |d|
  {
    if d != [] {
      assert d[0].key != k;
      forall i | 0 <= i < |d[1..]| ensures d[1..][i].key != k {
        assert d[1..][i] == d[i + 1];
      }
      GetMissing(d[1..], k);
    }
  }

  /** With distinct keys the dict comprehension answers as the list does. */
  lemma {:induction false} TagDictGet(tags: seq<Item<string>>, k: string)
    requires DistinctKeys(tags)
    ensures Get(TagDict(tags), k) == Get(tags, k)
    decreases |tags|
  {
    if tags != [] {
      var n := |tags| - 1;
      var p := tags[..n];
      var last := tags[n];
      assert tags == p + [last];
      assert DistinctKeys(p) by {
        forall i, j | 0 <= i < j < |p| ensures p[i].key != p[j].key {
          assert p[i] == tags[i] && p[j] == tags[j];
        }
      }
      TagDictGet(p, k);
      GetAppendLast(p, last, k);
      if k == last.key {
        forall i | 0 <= i < |p| ensures p[i].key != k {
          assert p[i] == tags[i];
        }
        GetMissing(p, k);
      } else {
        SetOther(TagDict(p), last.key, last.val, k);
      }
    }
  }

  /** For a tag list with distinct keys, the managed check on load balancers
      and the EC2 tag filter agree. */
  lemma ManagedIffTagged(tags: seq<Item<string>>)
    requires DistinctKeys(tags)
    ensures Managed(tags) <==> TaggedForCli(tags)
  {
    TagDictGet(tags, ManagedByKey);
    GetIffListed(tags, ManagedByKey, ManagedByCli);
  }

  // ---- the AWS calls of a run ----

  /** The boto3 calls among the events, in order. */
  function Calls(es: seq<Event>): seq<Call>
    decreases |es|
  {
    if es == [] then []
    else (if es[0].Aws? then [es[0].call] else []) + Calls(es[1..])
  }

  lemma {:induction false} CallsAppend(a: seq<Event>, b: seq<Event>)
    ensures Calls(a + b) == Calls(a) + Calls(b)
    decreases |a|
  {
    if a != [] {
      assert (a + b)[0] == a[0] && (a + b)[1..] == a[1..] + b;
      CallsAppend(a[1..], b);
    } else {
      assert a + b == b;
    }
  }

  lemma InvokeCalls(o: Oracle, w: World, call: Call)
    ensures var r := Invoke(o, w, call);
      && Extends(w, r.world) && Calls(Since(w, r.world)) == [call] && r.world.cloud == w.cloud
      && Now(r.world) == Now(w) + 1
  {
    var r := Invoke(o, w, call);
    var e := Aws(call, o.awsOk(Now(w)));
    assert Since(w, r.world) == [e];
    assert [e][1..] == [];
  }

  lemma Chain(u: World, v: World, x: World)
    requires Extends(u, v) && Extends(v, x)
    ensures Extends(u, x)
    ensures Calls(Since(u, x)) == Calls(Since(u, v)) + Calls(Since(v, x))
  {
    ExtendsTransitive(u, v, x);
    CallsAppend(Since(u, v), Since(v, x));
  }

  /** A load-balancer call: listing, tags, target groups and the deletions. */
  predicate ElbCall(k: Call) {
    k.DescribeLoadBalancers? || k.DescribeTags? || k.DescribeTargetGroups? || k.DeleteTargetGroup? || k.DeleteLoadBalancer?
  }

  predicate AllElb(cs: seq<Call>) {
    forall i :: 0 <= i < |cs| ==> ElbCall(cs[i])
  }

  lemma AllElbAppend(a: seq<Call>, b: seq<Call>)
    requires AllElb(a) && AllElb(b)
    ensures AllElb(a + b)
  {
    forall i | 0 <= i < |a + b| ensures ElbCall((a + b)[i]) {
      if i < |a| { assert (a + b)[i] == a[i]; } else { assert (a + b)[i] == b[i - |a|]; }
    }
  }

  lemma AllElbPrefix(a: seq<Call>, b: seq<Call>)
    requires a <= b && AllElb(b)
    ensures AllElb(a)
  {
    forall i | 0 <= i < |a| ensures ElbCall(a[i]) {
      assert a[i] == b[i];
    }
  }

  // ---- the cloud's load balancers and target groups ----

  function DropBalancer(bs: seq<Balancer>, arn: string): (r: seq<Balancer>)
    ensures forall b :: b in r <==> b in bs && b.arn != arn
    decreases |bs|
  {
    if bs == [] then []
    else
      assert bs == [bs[0]] + bs[1..];
      (if bs[0].arn != arn then [bs[0]] else []) + DropBalancer(bs[1..], arn)
  }

  function DropGroup(gs: seq<TargetGroup>, arn: string): (r: seq<TargetGroup>)
    ensures forall g :: g in r <==> g in gs && g.arn != arn
    decreases |gs|
  {
    if gs == [] then []
    else
      assert gs == [gs[0]] + gs[1..];
      (if gs[0].arn != arn then [gs[0]] else []) + DropGroup(gs[1..], arn)
  }

  /** `describe_target_groups(LoadBalancerArn=arn)`: the groups behind `arn`,
      in the order the cloud lists them. */
  function AttachedTo(gs: seq<TargetGroup>, arn: string): (r: seq<TargetGroup>)
    ensures forall g :: g in r <==> g in gs && g.balancer == Some(arn)
    decreases |gs|
  {
    if gs == [] then []
    else
      assert gs == [gs[0]] + gs[1..];
      (if gs[0].balancer == Some(arn) then [gs[0]] else []) + AttachedTo(gs[1..], arn)
  }

  /** `delete_load_balancer(LoadBalancerArn=arn)` once it succeeded. */
  function WithoutBalancer(w: World, arn: string): World {
    w.(cloud := w.cloud.(balancers := DropBalancer(w.cloud.balancers, arn)))
  }

  /** `delete_target_group(TargetGroupArn=arn)` once it succeeded. */
  function WithoutGroup(w: World, arn: string): World {
    w.(cloud := w.cloud.(targetGroups := DropGroup(w.cloud.targetGroups, arn)))
  }

  function ArnsOf(gs: seq<TargetGroup>): set<string> {
    set g | g in gs :: g.arn
  }

  /** The arns of the managed load balancers among `lbs`. */
  function ManagedArns(lbs: seq<Balancer>): set<string> {
    set b | b in lbs && Managed(b.tags) :: b.arn
  }

  /** The arns of the target groups behind any of the load balancers `arns`. */
  function AttachedArns(gs: seq<TargetGroup>, arns: set<string>): set<string> {
    set g | g in gs && g.balancer.Some? && g.balancer.value in arns :: g.arn
  }

  /** From `u` to `v` nothing was added, the instances are as they were, and
      only load balancers with an arn in `lbArns` and target groups with an
      arn in `tgArns` were removed. */
  predicate Shrinks(u: Cloud, v: Cloud, lbArns: set<string>, tgArns: set<string>) {
    && v.instances == u.instances
    && (forall b :: b in v.balancers ==> b in u.balancers)
    && (forall b :: b in u.balancers && b.arn !in lbArns ==> b in v.balancers)
    && (forall g :: g in v.targetGroups ==> g in u.targetGroups)
    && (forall g :: g in u.targetGroups && g.arn !in tgArns ==> g in v.targetGroups)
  }

  lemma ShrinksThen(u: Cloud, v: Cloud, x: Cloud, a: set<string>, b: set<string>, a': set<string>, b': set<string>, a2: set<string>, b2: set<string>)
    requires Shrinks(u, v, a, b) && Shrinks(v, x, a', b')
    requires a + a' <= a2 && b + b' <= b2
    ensures Shrinks(u, x, a2, b2)
  {
  }

  lemma ShrinksWeaken(u: Cloud, v: Cloud, a: set<string>, b: set<string>, a2: set<string>, b2: set<string>)
    requires Shrinks(u, v, a, b) && a <= a2 && b <= b2
    ensures Shrinks(u, v, a2, b2)
  {
  }

  // ---- target groups ----

  /** The deletion calls for `groups`, in order. */
  function GroupDeletes(groups: seq<TargetGroup>): (cs: seq<Call>)
    ensures |cs| == |groups| && forall i :: 0 <= i < |groups| ==> cs[i] == DeleteTargetGroup(groups[i].arn)
  {
    seq(|groups|, i requires 0 <= i < |groups| => DeleteTargetGroup(groups[i].arn))
  }

  lemma GroupDeletesCons(groups: seq<TargetGroup>)
    requires groups != []
    ensures GroupDeletes(groups) == [DeleteTargetGroup(groups[0].arn)] + GroupDeletes(groups[1..])
  {
    assert GroupDeletes(groups)[1..] == GroupDeletes(groups[1..]);
  }

  /** `for tg in tg_response['TargetGroups']: delete_target_group(...)`: the
      first failure ends the loop. */
  function DeleteGroupsSpec(o: Oracle, w: World, groups: seq<TargetGroup>): Out<()>
    decreases |groups|
  {
    if groups == [] then Out(w, Ok(()))
    else
      var d := Invoke(o, w, DeleteTargetGroup(groups[0].arn));
      if d.result.Err? then Out(d.world, Err(d.result.error))
      else DeleteGroupsSpec(o, WithoutGroup(d.world, groups[0].arn), groups[1..])
  }

  method DeleteGroups(o: Oracle, w: World, groups: seq<TargetGroup>) returns (w': World, r: Result<()>)
    ensures Out(w', r) == DeleteGroupsSpec(o, w, groups)
  {
    w' := w;
    var i := 0;
    while i < |groups|
      invariant i <= |groups|
      invariant DeleteGroupsSpec(o, w', groups[i..]) == DeleteGroupsSpec(o, w, groups)
    {
      assert groups[i..][0] == groups[i] && groups[i..][1..] == groups[i + 1..];
      var d := Invoke(o, w', DeleteTargetGroup(groups[i].arn));
      if d.result.Err? {
        return d.world, Err(d.result.error);
      }
      w' := WithoutGroup(d.world, groups[i].arn);
      i := i + 1;
    }
    r := Ok(());
  }

  /** The calls are a prefix of one deletion per group, all of them when
      the loop finished; only those groups can disappear. */
  lemma DeleteGroupsOutcome(o: Oracle, w: World, groups: seq<TargetGroup>)
    ensures var x := DeleteGroupsSpec(o, w, groups);
      && Extends(w, x.world)
      && Calls(Since(w, x.world)) <= GroupDeletes(groups)
      && (x.result.Ok? ==> Calls(Since(w, x.world)) == GroupDeletes(groups))
      && (x.result.Err? ==> x.result.error == AwsFailure)
      && Shrinks(w.cloud, x.world.cloud, {}, ArnsOf(groups))
  {
    DeleteGroupsTrace(o, w, groups);
    DeleteGroupsShrinks(o, w, groups);
  }

  /** The calls half of `DeleteGroupsOutcome`. */
  lemma {:induction false} DeleteGroupsTrace(o: Oracle, w: World, groups: seq<TargetGroup>)
    ensures var x := DeleteGroupsSpec(o, w, groups);
      && Extends(w, x.world)
      && Calls(Since(w, x.world)) <= GroupDeletes(groups)
      && (x.result.Ok? ==> Calls(Since(w, x.world)) == GroupDeletes(groups))
      && (x.result.Err? ==> x.result.error == AwsFailure)
    decreases |groups|
  {
    if groups != [] {
      var g := groups[0];
      var d := Invoke(o, w, DeleteTargetGroup(g.arn));
      InvokeCalls(o, w, DeleteTargetGroup(g.arn));
      GroupDeletesCons(groups);
      if d.result.Ok? {
        var v := WithoutGroup(d.world, g.arn);
        var x := DeleteGroupsSpec(o, v, groups[1..]);
        DeleteGroupsTrace(o, v, groups[1..]);
        Chain(w, v, x.world);
      }
    }
  }

  /** The cloud half of `DeleteGroupsOutcome`: only the listed groups can
      disappear. */
  lemma {:induction false} DeleteGroupsShrinks(o: Oracle, w: World, groups: seq<TargetGroup>)
    ensures Shrinks(w.cloud, DeleteGroupsSpec(o, w, groups).world.cloud, {}, ArnsOf(groups))
    decreases |groups|
  {
    if groups != [] {
      var g := groups[0];
      var d := Invoke(o, w, DeleteTargetGroup(g.arn));
      InvokeCalls(o, w, DeleteTargetGroup(g.arn));
      if d.result.Ok? {
        var v := WithoutGroup(d.world, g.arn);
        var x := DeleteGroupsSpec(o, v, groups[1..]);
        DeleteGroupsShrinks(o, v, groups[1..]);
        assert {g.arn} + ArnsOf(groups[1..]) <= ArnsOf(groups) by {
          assert g in groups;
          forall h | h in groups[1..] ensures h in groups {
          }
        }
        ShrinksThen(w.cloud, v.cloud, x.world.cloud, {}, {g.arn}, {}, ArnsOf(groups[1..]), {}, ArnsOf(groups));
      }
    }
  }

  /** `describe_target_groups(LoadBalancerArn=arn)['TargetGroups']`. */
  function GroupsAttached(o: Oracle, w: World, arn: string): Out<seq<TargetGroup>> {
    var d := Invoke(o, w, DescribeTargetGroups(arn));
    if d.result.Err? then Out(d.world, Err(d.result.error))
    else Out(d.world, Ok(AttachedTo(w.cloud.targetGroups, arn)))
  }

  lemma AttachedArnsOf(gs: seq<TargetGroup>, arn: string)
    ensures ArnsOf(AttachedTo(gs, arn)) <= AttachedArns(gs, {arn})
  {
  }

  // ---- delete_alb ----

  /** `delete_alb`'s inner `try`: the target groups behind `arn` are listed
      and deleted; a failure only ends this part. */
  function DeleteGroupsOf(o: Oracle, w: World, arn: string): World {
    var g := GroupsAttached(o, w, arn);
    if g.result.Err? then g.world else DeleteGroupsSpec(o, g.world, g.result.value).world
  }

  /** The groups are listed, then a prefix of them is deleted in order; only
      groups behind `arn` can disappear. */
  lemma DeleteGroupsOfOutcome(o: Oracle, w: World, arn: string)
    ensures Extends(w, DeleteGroupsOf(o, w, arn))
    ensures var v := DeleteGroupsOf(o, w, arn);
      var cs := Calls(Since(w, v));
      && |cs| >= 1 && cs[0] == DescribeTargetGroups(arn)
      && cs[1..] <= GroupDeletes(AttachedTo(w.cloud.targetGroups, arn))
      && Shrinks(w.cloud, v.cloud, {}, AttachedArns(w.cloud.targetGroups, {arn}))
  {
    var g := GroupsAttached(o, w, arn);
    InvokeCalls(o, w, DescribeTargetGroups(arn));
    AttachedArnsOf(w.cloud.targetGroups, arn);
    if g.result.Ok? {
      var d := DeleteGroupsSpec(o, g.world, g.result.value);
      DeleteGroupsOutcome(o, g.world, g.result.value);
      Chain(w, g.world, d.world);
      var cs := Calls(Since(w, d.world));
      assert cs == [DescribeTargetGroups(arn)] + Calls(Since(g.world, d.world));
      assert cs[1..] == Calls(Since(g.world, d.world));
    } else {
      assert Calls(Since(w, g.world))[1..] == [];
    }
  }

  /** A managed load balancer: its groups, then itself, whatever happened
      to its groups. `Ok(true)` counts a deletion. */
  function DeleteManaged(o: Oracle, w: World, arn: string): Out<bool> {
    var v := DeleteGroupsOf(o, w, arn);
    var d := Invoke(o, v, DeleteLoadBalancer(arn));
    if d.result.Err? then Out(d.world, Err(d.result.error))
    else Out(WithoutBalancer(d.world, arn), Ok(true))
  }

  /** The target-group calls come first and the load balancer's deletion
      last; only it and its groups can disappear. */
  lemma DeleteManagedOutcome(o: Oracle, w: World, arn: string)
    ensures Extends(w, DeleteManaged(o, w, arn).world)
    ensures var x := DeleteManaged(o, w, arn);
      var cs := Calls(Since(w, x.world));
      && |cs| >= 2 && cs[0] == DescribeTargetGroups(arn)
      && cs[1..|cs| - 1] <= GroupDeletes(AttachedTo(w.cloud.targetGroups, arn))
      && cs[|cs| - 1] == DeleteLoadBalancer(arn)
      && AllElb(cs)
      && (x.result.Ok? ==> x.result.value && forall b :: b in x.world.cloud.balancers ==> b.arn != arn)
      && Shrinks(w.cloud, x.world.cloud, {arn}, AttachedArns(w.cloud.targetGroups, {arn}))
  {
    var v := DeleteGroupsOf(o, w, arn);
    DeleteGroupsOfOutcome(o, w, arn);
    var d := Invoke(o, v, DeleteLoadBalancer(arn));
    InvokeCalls(o, v, DeleteLoadBalancer(arn));
    Chain(w, v, d.world);
    var c1 := Calls(Since(w, v));
    var cs := Calls(Since(w, d.world));
    assert cs == c1 + [DeleteLoadBalancer(arn)];
    assert cs[1..|cs| - 1] == c1[1..];
    var groups := GroupDeletes(AttachedTo(w.cloud.targetGroups, arn));
    forall i | 0 <= i < |cs| ensures ElbCall(cs[i]) {
      if 0 < i < |cs| - 1 {
        assert cs[i] == c1[1..][i - 1] == groups[i - 1];
      }
    }
    var a := AttachedArns(w.cloud.targetGroups, {arn});
    if d.result.Ok? {
      ShrinksThen(w.cloud, v.cloud, WithoutBalancer(d.world, arn).cloud, {}, a, {arn}, {}, {arn}, a);
    } else {
      ShrinksWeaken(w.cloud, d.world.cloud, {}, a, {arn}, a);
    }
  }

  /** The body of `delete_alb`'s loop for one listed load balancer: its tags
      are checked (a failure skips it) and a managed one is deleted. */
  function DeleteIfManaged(o: Oracle, w: World, lb: Balancer): Out<bool> {
    var t := Invoke(o, w, DescribeTags(lb.arn));
    if t.result.Err? then Out(t.world, Err(t.result.error))
    else if !Managed(lb.tags) then Out(t.world, Ok(false))
    else DeleteManaged(o, t.world, lb.arn)
  }

  method RemoveIfManaged(o: Oracle, w: World, lb: Balancer) returns (w': World, r: Result<bool>)
    ensures Out(w', r) == DeleteIfManaged(o, w, lb)
  {
    var t := Invoke(o, w, DescribeTags(lb.arn));
    if t.result.Err? {
      return t.world, Err(t.result.error);
    }
    if !Managed(lb.tags) {
      return t.world, Ok(false);
    }
    var g := GroupsAttached(o, t.world, lb.arn);
    w' := g.world;
    if g.result.Ok? {
      var u;
      w', u := DeleteGroups(o, g.world, g.result.value);
    }
    var d := Invoke(o, w', DeleteLoadBalancer(lb.arn));
    if d.result.Err? {
      return d.world, Err(d.result.error);
    }
    w', r := WithoutBalancer(d.world, lb.arn), Ok(true);
  }

  /** An unmanaged or unreadable load balancer costs one tag lookup and
      nothing else. A managed one is looked up, its target groups are listed
      and deleted (a prefix of them, in order), and the load balancer is
      deleted last. Only a managed balancer and the groups behind it can
      disappear. */
  lemma DeleteIfManagedOutcome(o: Oracle, w: World, lb: Balancer)
    ensures Extends(w, DeleteIfManaged(o, w, lb).world)
    ensures var x := DeleteIfManaged(o, w, lb);
      var cs := Calls(Since(w, x.world));
      var a := if Managed(lb.tags) then {lb.arn} else {};
      && (!o.awsOk(Now(w)) ==> cs == [DescribeTags(lb.arn)] && x.result.Err? && x.world.cloud == w.cloud)
      && (o.awsOk(Now(w)) && !Managed(lb.tags) ==> cs == [DescribeTags(lb.arn)] && x.result == Ok(false) && x.world.cloud == w.cloud)
      && (o.awsOk(Now(w)) && Managed(lb.tags) ==>
            && |cs| >= 3
            && cs[..2] == [DescribeTags(lb.arn), DescribeTargetGroups(lb.arn)]
            && cs[2..|cs| - 1] <= GroupDeletes(AttachedTo(w.cloud.targetGroups, lb.arn))
            && cs[|cs| - 1] == DeleteLoadBalancer(lb.arn))
      && (x.result == Ok(true) ==> Managed(lb.tags) && forall b :: b in x.world.cloud.balancers ==> b.arn != lb.arn)
      && AllElb(cs)
      && Shrinks(w.cloud, x.world.cloud, a, AttachedArns(w.cloud.targetGroups, a))
  {
    DeleteIfManagedCalls(o, w, lb);
    DeleteIfManagedEffect(o, w, lb);
  }

  /** The calls half of `DeleteIfManagedOutcome`. */
  lemma DeleteIfManagedCalls(o: Oracle, w: World, lb: Balancer)
    ensures Extends(w, DeleteIfManaged(o, w, lb).world)
    ensures var x := DeleteIfManaged(o, w, lb);
      var cs := Calls(Since(w, x.world));
      && (!o.awsOk(Now(w)) ==> cs == [DescribeTags(lb.arn)] && x.result.Err? && x.world.cloud == w.cloud)
      && (o.awsOk(Now(w)) && !Managed(lb.tags) ==> cs == [DescribeTags(lb.arn)] && x.result == Ok(false) && x.world.cloud == w.cloud)
      && (o.awsOk(Now(w)) && Managed(lb.tags) ==>
            && |cs| >= 3
            && cs[..2] == [DescribeTags(lb.arn), DescribeTargetGroups(lb.arn)]
            && cs[2..|cs| - 1] <= GroupDeletes(AttachedTo(w.cloud.targetGroups, lb.arn))
            && cs[|cs| - 1] == DeleteLoadBalancer(lb.arn))
  {
    InvokeCalls(o, w, DescribeTags(lb.arn));
    if o.awsOk(Now(w)) && Managed(lb.tags) {
      DeleteIfManagedSteps(o, w, lb);
    }
  }

  /** The managed case of `DeleteIfManagedCalls`. */
  lemma DeleteIfManagedSteps(o: Oracle, w: World, lb: Balancer)
    requires o.awsOk(Now(w)) && Managed(lb.tags)
    ensures Extends(w, DeleteIfManaged(o, w, lb).world)
    ensures var cs := Calls(Since(w, DeleteIfManaged(o, w, lb).world));
      && |cs| >= 3
      && cs[..2] == [DescribeTags(lb.arn), DescribeTargetGroups(lb.arn)]
      && cs[2..|cs| - 1] <= GroupDeletes(AttachedTo(w.cloud.targetGroups, lb.arn))
      && cs[|cs| - 1] == DeleteLoadBalancer(lb.arn)
  {
    var t := Invoke(o, w, DescribeTags(lb.arn));
    InvokeCalls(o, w, DescribeTags(lb.arn));
    var x := DeleteManaged(o, t.world, lb.arn);
    DeleteManagedOutcome(o, t.world, lb.arn);
    assert DeleteIfManaged(o, w, lb) == x;
    TagsThenDelete(w, t.world, x.world, lb.arn, GroupDeletes(AttachedTo(w.cloud.targetGroups, lb.arn)));
  }

  /** A tag lookup followed by the deletion of a managed load balancer:
      the deletion's calls shift by one. */
  lemma TagsThenDelete(w: World, t: World, x: World, arn: string, g: seq<Call>)
    requires Extends(w, t) && Extends(t, x) && Calls(Since(w, t)) == [DescribeTags(arn)]
    requires var c2 := Calls(Since(t, x));
      && |c2| >= 2 && c2[0] == DescribeTargetGroups(arn)
      && c2[1..|c2| - 1] <= g
      && c2[|c2| - 1] == DeleteLoadBalancer(arn)
    ensures Extends(w, x)
    ensures var cs := Calls(Since(w, x));
      && |cs| >= 3
      && cs[..2] == [DescribeTags(arn), DescribeTargetGroups(arn)]
      && cs[2..|cs| - 1] <= g
      && cs[|cs| - 1] == DeleteLoadBalancer(arn)
  {
    Chain(w, t, x);
    var c2 := Calls(Since(t, x));
    var cs := Calls(Since(w, x));
    assert cs == [DescribeTags(arn)] + c2;
    assert cs[2..|cs| - 1] == c2[1..|c2| - 1];
  }

  /** The effect half of `DeleteIfManagedOutcome`. */
  lemma DeleteIfManagedEffect(o: Oracle, w: World, lb: Balancer)
    ensures Extends(w, DeleteIfManaged(o, w, lb).world)
    ensures var x := DeleteIfManaged(o, w, lb);
      var cs := Calls(Since(w, x.world));
      var a := if Managed(lb.tags) then {lb.arn} else {};
      && (x.result == Ok(true) ==> Managed(lb.tags) && forall b :: b in x.world.cloud.balancers ==> b.arn != lb.arn)
      && AllElb(cs)
      && Shrinks(w.cloud, x.world.cloud, a, AttachedArns(w.cloud.targetGroups, a))
  {
    var t := Invoke(o, w, DescribeTags(lb.arn));
    InvokeCalls(o, w, DescribeTags(lb.arn));
    if t.result.Ok? && Managed(lb.tags) {
      var x := DeleteManaged(o, t.world, lb.arn);
      DeleteManagedOutcome(o, t.world, lb.arn);
      Chain(w, t.world, x.world);
      var c2 := Calls(Since(t.world, x.world));
      var cs := Calls(Since(w, x.world));
      assert cs == [DescribeTags(lb.arn)] + c2;
      AllElbAppend([DescribeTags(lb.arn)], c2);
    }
  }

  /** The world after `delete_alb`'s loop, and its `deleted_count`. */
  datatype Sweep = Sweep(world: World, deleted: nat)

  function SweepSpec(o: Oracle, w: World, lbs: seq<Balancer>): Sweep
    decreases |lbs|
  {
    if lbs == [] then Sweep(w, 0)
    else
      var x := DeleteIfManaged(o, w, lbs[0]);
      var rest := SweepSpec(o, x.world, lbs[1..]);
      Sweep(rest.world, rest.deleted + if x.result == Ok(true) then 1 else 0)
  }

  method SweepBalancers(o: Oracle, w: World, lbs: seq<Balancer>) returns (w': World, deleted: nat)
    ensures Sweep(w', deleted) == SweepSpec(o, w, lbs)
  {
    w', deleted := w, 0;
    var i := 0;
    while i < |lbs|
      invariant i <= |lbs|
      invariant SweepSpec(o, w, lbs) == Sweep(SweepSpec(o, w', lbs[i..]).world, deleted + SweepSpec(o, w', lbs[i..]).deleted)
    {
      assert lbs[i..][0] == lbs[i] && lbs[i..][1..] == lbs[i + 1..];
      var r;
      w', r := RemoveIfManaged(o, w', lbs[i]);
      if r == Ok(true) {
        deleted := deleted + 1;
      }
      i := i + 1;
    }
  }

  /** The loop makes load-balancer calls only, removes nothing but managed
      listed balancers and the target groups behind them, and counts at most
      one deletion per listed balancer (none when none is managed). */
  lemma SweepOutcome(o: Oracle, w: World, lbs: seq<Balancer>)
    ensures var x := SweepSpec(o, w, lbs);
      && Extends(w, x.world)
      && AllElb(Calls(Since(w, x.world)))
      && Shrinks(w.cloud, x.world.cloud, ManagedArns(lbs), AttachedArns(w.cloud.targetGroups, ManagedArns(lbs)))
      && x.deleted <= |lbs|
      && ((forall k :: 0 <= k < |lbs| ==> !Managed(lbs[k].tags)) ==> x.deleted == 0)
  {
    SweepTrace(o, w, lbs);
    SweepShrinks(o, w, lbs);
    SweepCount(o, w, lbs);
  }

  /** The sweep makes load-balancer calls only. */
  lemma {:induction false} SweepTrace(o: Oracle, w: World, lbs: seq<Balancer>)
    ensures Extends(w, SweepSpec(o, w, lbs).world)
    ensures AllElb(Calls(Since(w, SweepSpec(o, w, lbs).world)))
    decreases |lbs|
  {
    if lbs != [] {
      var y := DeleteIfManaged(o, w, lbs[0]);
      DeleteIfManagedEffect(o, w, lbs[0]);
      var x := SweepSpec(o, y.world, lbs[1..]);
      SweepTrace(o, y.world, lbs[1..]);
      Chain(w, y.world, x.world);
      AllElbAppend(Calls(Since(w, y.world)), Calls(Since(y.world, x.world)));
    }
  }

  /** The sweep removes managed load balancers and their groups only. */
  lemma {:induction false} SweepShrinks(o: Oracle, w: World, lbs: seq<Balancer>)
    ensures var x := SweepSpec(o, w, lbs);
      Shrinks(w.cloud, x.world.cloud, ManagedArns(lbs), AttachedArns(w.cloud.targetGroups, ManagedArns(lbs)))
    decreases |lbs|
  {
    if lbs != [] {
      var lb := lbs[0];
      var y := DeleteIfManaged(o, w, lb);
      DeleteIfManagedEffect(o, w, lb);
      var x := SweepSpec(o, y.world, lbs[1..]);
      SweepShrinks(o, y.world, lbs[1..]);
      var a := if Managed(lb.tags) then {lb.arn} else {};
      var all := ManagedArns(lbs);
      assert a + ManagedArns(lbs[1..]) <= all by {
        assert lb in lbs;
        forall b | b in lbs[1..] ensures b in lbs {
        }
      }
      assert AttachedArns(w.cloud.targetGroups, a) + AttachedArns(y.world.cloud.targetGroups, ManagedArns(lbs[1..]))
          <= AttachedArns(w.cloud.targetGroups, all);
      ShrinksThen(w.cloud, y.world.cloud, x.world.cloud, a, AttachedArns(w.cloud.targetGroups, a),
        ManagedArns(lbs[1..]), AttachedArns(y.world.cloud.targetGroups, ManagedArns(lbs[1..])),
        all, AttachedArns(w.cloud.targetGroups, all));
    }
  }

  /** At most one deletion is counted per listed load balancer, and none
      when no listed load balancer is managed. */
  lemma {:induction false} SweepCount(o: Oracle, w: World, lbs: seq<Balancer>)
    ensures var x := SweepSpec(o, w, lbs);
      && x.deleted <= |lbs|
      && ((forall k :: 0 <= k < |lbs| ==> !Managed(lbs[k].tags)) ==> x.deleted == 0)
    decreases |lbs|
  {
    if lbs != [] {
      var y := DeleteIfManaged(o, w, lbs[0]);
      DeleteIfManagedEffect(o, w, lbs[0]);
      SweepCount(o, y.world, lbs[1..]);
      if forall k :: 0 <= k < |lbs| ==> !Managed(lbs[k].tags) {
        assert !Managed(lbs[0].tags);
        forall k | 0 <= k < |lbs[1..]| ensures !Managed(lbs[1..][k].tags) {
          assert lbs[1..][k] == lbs[k + 1];
        }
      }
    }
  }

  /** `delete_alb(config)`: `True` with no call when the load balancer is
      not enabled; `False` when the listing raises; otherwise the loop over
      the listed load balancers, and `True`. */
  function DeleteAlbSpec(o: Oracle, w: World, c: Config): Out<bool> {
    if !AlbEnabled(c) then Out(w, Ok(true))
    else
      var l := Invoke(o, w, DescribeLoadBalancers);
      if l.result.Err? then Out(l.world, Ok(false))
      else Out(SweepSpec(o, l.world, w.cloud.balancers).world, Ok(true))
  }

  method DeleteAlb(o: Oracle, w: World, c: Config) returns (w': World, r: Result<bool>)
    ensures Out(w', r) == DeleteAlbSpec(o, w, c)
  {
    if !AlbEnabled(c) {
      return w, Ok(true);
    }
    var l := Invoke(o, w, DescribeLoadBalancers);
    if l.result.Err? {
      return l.world, Ok(false);
    }
    var deleted;
    w', deleted := SweepBalancers(o, l.world, w.cloud.balancers);
    r := Ok(true);
  }

  /** `delete_alb` never raises; it answers `False` exactly when it is enabled
      and the listing failed; disabled, it makes no call; enabled, it lists
      first and makes load-balancer calls only, and removes only managed
      load balancers and the target groups behind them. */
  lemma DeleteAlbOutcome(o: Oracle, w: World, c: Config)
    ensures var x := DeleteAlbSpec(o, w, c);
      var managed := ManagedArns(w.cloud.balancers);
      && x.result.Ok?
      && (x.result.value == false <==> AlbEnabled(c) && !o.awsOk(Now(w)))
      && (!AlbEnabled(c) ==> x.world == w)
      && Extends(w, x.world)
      && AllElb(Calls(Since(w, x.world)))
      && (AlbEnabled(c) ==> |Calls(Since(w, x.world))| > 0 && Calls(Since(w, x.world))[0] == DescribeLoadBalancers)
      && Shrinks(w.cloud, x.world.cloud, managed, AttachedArns(w.cloud.targetGroups, managed))
  {
    if AlbEnabled(c) {
      var l := Invoke(o, w, DescribeLoadBalancers);
      InvokeCalls(o, w, DescribeLoadBalancers);
      if l.result.Ok? {
        var s := SweepSpec(o, l.world, w.cloud.balancers);
        SweepOutcome(o, l.world, w.cloud.balancers);
        Chain(w, l.world, s.world);
        var cs := Calls(Since(w, s.world));
        var c2 := Calls(Since(l.world, s.world));
        assert cs == [DescribeLoadBalancers] + c2;
        forall i | 0 <= i < |cs| ensures ElbCall(cs[i]) {
          if i > 0 { assert cs[i] == c2[i - 1]; }
        }
      }
    } else {
      assert Since(w, w) == [];
    }
  }

  // ---- delete_cluster ----

  /** The instance ids of `nodes`, skipping nodes without one. */
  function NodeIds(nodes: seq<Node>): seq<string>
    decreases |nodes|
  {
    if nodes == [] then []
    else (if nodes[0].instanceId.Some? then [nodes[0].instanceId.value] else []) + NodeIds(nodes[1..])
  }

  lemma {:induction false} NodeIdsAppend(a: seq<Node>, b: seq<Node>)
    ensures NodeIds(a + b) == NodeIds(a) + NodeIds(b)
    decreases |a|
  {
    if a != [] {
      assert (a + b)[0] == a[0] && (a + b)[1..] == a[1..] + b;
      NodeIdsAppend(a[1..], b);
    } else {
      assert a + b == b;
    }
  }

  /** An id is collected exactly when some node carries it; none is
      collected from more nodes than there are. */
  lemma {:induction false} NodeIdsMembers(nodes: seq<Node>)
    ensures forall id :: id in NodeIds(nodes) <==> exists k :: 0 <= k < |nodes| && nodes[k].instanceId == Some(id)
    ensures |NodeIds(nodes)| <= |nodes|
    ensures (forall k :: 0 <= k < |nodes| ==> nodes[k].instanceId.None?) ==> NodeIds(nodes) == []
    decreases |nodes|
  {
    if nodes != [] {
      NodeIdsMembers(nodes[1..]);
      forall id ensures id in NodeIds(nodes) <==> exists k :: 0 <= k < |nodes| && nodes[k].instanceId == Some(id) {
        if id in NodeIds(nodes[1..]) {
          var k :| 0 <= k < |nodes[1..]| && nodes[1..][k].instanceId == Some(id);
          assert nodes[k + 1].instanceId == Some(id);
        }
        if exists k :: 0 <= k < |nodes| && nodes[k].instanceId == Some(id) {
          var k :| 0 <= k < |nodes| && nodes[k].instanceId == Some(id);
          if k > 0 {
            assert nodes[1..][k - 1] == nodes[k];
          }
        }
      }
      if forall k :: 0 <= k < |nodes| ==> nodes[k].instanceId.None? {
        assert nodes[0].instanceId.None?;
        forall k | 0 <= k < |nodes[1..]| ensures nodes[1..][k].instanceId.None? {
          assert nodes[1..][k] == nodes[k + 1];
        }
      }
    }
  }

  /** Step 2 of `delete_cluster`: master, worker, api, then alert ids. */
  function ClusterIds(c: Config): seq<string> {
    NodeIds(Nodes(c, Master)) + NodeIds(Nodes(c, Worker)) + NodeIds(Nodes(c, Api)) + NodeIds(Nodes(c, Alert))
  }

  /** Some node of `nodes` carries instance id `id`. */
  predicate Carries(nodes: seq<Node>, id: string) {
    exists k :: 0 <= k < |nodes| && nodes[k].instanceId == Some(id)
  }

  /** One id at a time: it is collected exactly when some node carries it. */
  lemma NodeIdMember(nodes: seq<Node>, id: string)
    ensures id in NodeIds(nodes) <==> Carries(nodes, id)
  {
    NodeIdsMembers(nodes);
  }

  /** The instance ids collected are exactly those the nodes of some role carry. */
  lemma ClusterIdsMembers(c: Config, id: string)
    ensures id in ClusterIds(c) <==> exists r: Role :: Carries(Nodes(c, r), id)
  {
    NodeIdMember(Nodes(c, Master), id);
    NodeIdMember(Nodes(c, Worker), id);
    NodeIdMember(Nodes(c, Api), id);
    NodeIdMember(Nodes(c, Alert), id);
    if exists r: Role :: Carries(Nodes(c, r), id) {
      var r: Role :| Carries(Nodes(c, r), id);
      assert id in NodeIds(Nodes(c, r));
    }
  }

  /** The inner `for node in nodes` loop: appends the ids the nodes carry. */
  method AppendNodeIds(ids: seq<string>, nodes: seq<Node>) returns (out: seq<string>)
    ensures out == ids + NodeIds(nodes)
  {
    out := ids;
    var k := 0;
    while k < |nodes|
      invariant k <= |nodes|
      invariant out == ids + NodeIds(nodes[..k])
    {
      NodeIdsAppend(nodes[..k], [nodes[k]]);
      assert nodes[..k + 1] == nodes[..k] + [nodes[k]];
      assert NodeIds([nodes[k]]) == (if nodes[k].instanceId.Some? then [nodes[k].instanceId.value] else []) + NodeIds([]);
      if nodes[k].instanceId.Some? {
        out := out + [nodes[k].instanceId.value];
      }
      k := k + 1;
    }
    assert nodes[..k] == nodes;
  }

  /** The nested `for component ... for node ...` loop. */
  method CollectClusterIds(c: Config) returns (ids: seq<string>)
    ensures ids == ClusterIds(c)
  {
    ids := [];
    var j := 0;
    while j < |RoleOrder|
      invariant j <= |RoleOrder|
      invariant j == 0 ==> ids == []
      invariant j == 1 ==> ids == NodeIds(Nodes(c, Master))
      invariant j == 2 ==> ids == NodeIds(Nodes(c, Master)) + NodeIds(Nodes(c, Worker))
      invariant j == 3 ==> ids == NodeIds(Nodes(c, Master)) + NodeIds(Nodes(c, Worker)) + NodeIds(Nodes(c, Api))
      invariant j == 4 ==> ids == ClusterIds(c)
    {
      ids := AppendNodeIds(ids, Nodes(c, RoleOrder[j]));
      j := j + 1;
    }
  }

  /** `delete_cluster`'s collaborator `stop_services(config)`. */
  type StopFn = (World, Config) -> Out<bool>

  /** `stop_services` bound to its model. */
  function StandardStop(o: Oracle): StopFn {
    (v: World, c: Config) => Services.StopServicesSpec(o, v, c)
  }

  /** `delete_cluster(config, keep_data)` with its data note printing what
      is present: services are stopped (a failure is only warned about), the
      ids collected, the load balancer deleted, the instances terminated
      (skipped when there are none); a failed termination propagates.
      `keep_data` only chooses what is logged. */
  function DeleteClusterSpec(o: Oracle, stop: StopFn, w: World, c: Config): Out<bool> {
    var s := stop(w, c);
    var ids := ClusterIds(c);
    var a := DeleteAlbSpec(o, s.world, c);
    if ids == [] then Out(a.world, Ok(true))
    else
      var t := Ec2.TerminateInstances(o, a.world, ids);
      if t.result.Err? then Out(t.world, Err(t.result.error)) else Out(t.world, Ok(true))
  }

  method DeleteCluster(o: Oracle, stop: StopFn, w: World, c: Config, keepData: bool) returns (w': World, r: Result<bool>)
    ensures Out(w', r) == DeleteClusterSpec(o, stop, w, c)
  {
    var s := stop(w, c);
    var ids := CollectClusterIds(c);
    var ok;
    w', ok := DeleteAlb(o, s.world, c);
    if ids != [] {
      var t := Ec2.TerminateInstances(o, w', ids);
      if t.result.Err? {
        return t.world, Err(t.result.error);
      }
      w' := t.world;
    }
    r := Ok(true);
  }

  /** Whatever `stop_services` answered, the deletion goes on from where it
      left the world: only the load-balancer calls and then one termination
      of exactly the collected ids follow; the result is `True` unless that
      termination raised. */
  lemma DeleteClusterOutcome(o: Oracle, stop: StopFn, w: World, c: Config)
    ensures var s := stop(w, c);
      var a := DeleteAlbSpec(o, s.world, c);
      var x := DeleteClusterSpec(o, stop, w, c);
      var ids := ClusterIds(c);
      && Extends(s.world, a.world) && Extends(a.world, x.world)
      && AllElb(Calls(Since(s.world, a.world)))
      && Calls(Since(a.world, x.world)) == (if ids == [] then [] else [Env.TerminateInstances(ids)])
      && (x.result.Ok? <==> ids == [] || o.awsOk(Now(a.world)))
      && (x.result.Ok? ==> x.result.value)
      && (x.result.Err? ==> x.result.error == AwsFailure)
  {
    var s := stop(w, c);
    var a := DeleteAlbSpec(o, s.world, c);
    DeleteAlbOutcome(o, s.world, c);
    var ids := ClusterIds(c);
    if ids == [] {
      assert Since(a.world, a.world) == [];
    } else {
      TerminateInstancesOutcome(o, a.world, ids);
      var e := Aws(Env.TerminateInstances(ids), o.awsOk(Now(a.world)));
      assert [e][1..] == [];
    }
  }

  /** Two stops that leave the world alike, one failing and one not, lead
      to the same deletion. */
  lemma DeleteIgnoresStopResult(o: Oracle, stop1: StopFn, stop2: StopFn, w: World, c: Config)
    requires stop1(w, c).world == stop2(w, c).world
    requires stop1(w, c).result.Err? && stop2(w, c).result.Ok?
    ensures DeleteClusterSpec(o, stop1, w, c) == DeleteClusterSpec(o, stop2, w, c)
  {
  }

  /** What the data note of step 5 reads from the configuration:
      `config['database']['database']` (always present) and
      `config['storage']['bucket']`. */
  function BucketNote(c: Config): Result<string> {
    if c.storage.None? then Err(Error(KeyError, "'storage'"))
    else if c.storage.value.bucket.None? then Err(Error(KeyError, "'bucket'"))
    else Ok(c.storage.value.bucket.value)
  }

  /** `delete_cluster` as written: with `keep_data` False the note indexes
      `config['storage']['bucket']`, and its KeyError escapes after the
      instances are gone. */
  function DeleteClusterAsWritten(o: Oracle, stop: StopFn, w: World, c: Config, keepData: bool): Out<bool> {
    var x := DeleteClusterSpec(o, stop, w, c);
    if x.result.Ok? && !keepData && BucketNote(c).Err? then Out(x.world, Err(BucketNote(c).error))
    else x
  }

  /** A configuration without a `storage` block (local storage, the
      default) makes the as-written deletion raise KeyError although every
      call of the teardown, termination included, succeeded; with
      `keep_data` the two agree. */
  lemma DeleteWithoutStorageRaises(o: Oracle, stop: StopFn, w: World, c: Config)
    requires c.storage.None?
    ensures var x := DeleteClusterSpec(o, stop, w, c);
      x.result.Ok? ==>
        DeleteClusterAsWritten(o, stop, w, c, false) == Out(x.world, Err(Error(KeyError, "'storage'")))
    ensures DeleteClusterAsWritten(o, stop, w, c, true) == DeleteClusterSpec(o, stop, w, c)
  {
  }

  // ---- cleanup_by_tags ----

  /** The states `cleanup_by_tags` looks for. */
  const CleanupStates: seq<InstanceState> := [Running, Pending, Stopping, Stopped]

  predicate Selected(i: Instance) {
    TaggedForCli(i.tags) && i.state in CleanupStates
  }

  /** The ids `describe_instances` returns for the two filters, in the
      inventory's order. */
  function SelectedIds(instances: seq<Instance>): seq<string>
    decreases |instances|
  {
    if instances == [] then []
    else (if Selected(instances[0]) then [instances[0].id] else []) + SelectedIds(instances[1..])
  }

  lemma {:induction false} SelectedIdsAppend(a: seq<Instance>, b: seq<Instance>)
    ensures SelectedIds(a + b) == SelectedIds(a) + SelectedIds(b)
    decreases |a|
  {
    if a != [] {
      assert (a + b)[0] == a[0] && (a + b)[1..] == a[1..] + b;
      SelectedIdsAppend(a[1..], b);
    } else {
      assert a + b == b;
    }
  }

  /** Exactly the tagged instances that are not shutting down or terminated
      are selected. */
  lemma {:induction false} SelectedIdsMembers(instances: seq<Instance>)
    ensures forall id :: id in SelectedIds(instances) <==>
      exists k :: 0 <= k < |instances| && instances[k].id == id
        && TaggedForCli(instances[k].tags) && instances[k].state != ShuttingDown && instances[k].state != Terminated
    decreases |instances|
  {
    if instances != [] {
      SelectedIdsMembers(instances[1..]);
      forall id ensures id in SelectedIds(instances) <==>
        exists k :: 0 <= k < |instances| && instances[k].id == id
          && TaggedForCli(instances[k].tags) && instances[k].state != ShuttingDown && instances[k].state != Terminated
      {
        if id in SelectedIds(instances[1..]) {
          var k :| 0 <= k < |instances[1..]| && instances[1..][k].id == id
            && TaggedForCli(instances[1..][k].tags) && instances[1..][k].state != ShuttingDown && instances[1..][k].state != Terminated;
          assert instances[k + 1] == instances[1..][k];
        }
        if exists k :: 0 <= k < |instances| && instances[k].id == id
             && TaggedForCli(instances[k].tags) && instances[k].state != ShuttingDown && instances[k].state != Terminated
        {
          var k :| 0 <= k < |instances| && instances[k].id == id
            && TaggedForCli(instances[k].tags) && instances[k].state != ShuttingDown && instances[k].state != Terminated;
          if k > 0 {
            assert instances[1..][k - 1] == instances[k];
          }
        }
      }
    }
  }

  /** The `for reservation ... for instance ...` loop. */
  method CollectSelectedIds(instances: seq<Instance>) returns (ids: seq<string>)
    ensures ids == SelectedIds(instances)
  {
    ids := [];
    var k := 0;
    while k < |instances|
      invariant k <= |instances|
      invariant ids == SelectedIds(instances[..k])
    {
      SelectedIdsAppend(instances[..k], [instances[k]]);
      assert instances[..k + 1] == instances[..k] + [instances[k]];
      assert SelectedIds([instances[k]]) == (if Selected(instances[k]) then [instances[k].id] else []) + SelectedIds([]);
      if Selected(instances[k]) {
        ids := ids + [instances[k].id];
      }
      k := k + 1;
    }
    assert instances[..k] == instances;
  }

  /** The arns kept by the managed-ALB search, and the world after it. */
  datatype Found = Found(world: World, arns: seq<string>)

  /** The search loop: a load balancer whose tags cannot be read is skipped. */
  function FindManagedSpec(o: Oracle, w: World, lbs: seq<Balancer>): Found
    decreases |lbs|
  {
    if lbs == [] then Found(w, [])
    else
      var t := Invoke(o, w, DescribeTags(lbs[0].arn));
      var rest := FindManagedSpec(o, t.world, lbs[1..]);
      Found(rest.world, (if t.result.Ok? && Managed(lbs[0].tags) then [lbs[0].arn] else []) + rest.arns)
  }

  method FindManaged(o: Oracle, w: World, lbs: seq<Balancer>) returns (f: Found)
    ensures f == FindManagedSpec(o, w, lbs)
  {
    var v := w;
    var arns: seq<string> := [];
    var i := 0;
    while i < |lbs|
      invariant i <= |lbs|
      invariant FindManagedSpec(o, w, lbs) == Found(FindManagedSpec(o, v, lbs[i..]).world, arns + FindManagedSpec(o, v, lbs[i..]).arns)
    {
      assert lbs[i..][0] == lbs[i] && lbs[i..][1..] == lbs[i + 1..];
      var t := Invoke(o, v, DescribeTags(lbs[i].arn));
      var head := if t.result.Ok? && Managed(lbs[i].tags) then [lbs[i].arn] else [];
      var rest := FindManagedSpec(o, t.world, lbs[i + 1..]);
      assert FindManagedSpec(o, v, lbs[i..]) == Found(rest.world, head + rest.arns);
      assert arns + (head + rest.arns) == (arns + head) + rest.arns;
      arns := arns + head;
      v := t.world;
      i := i + 1;
    }
    f := Found(v, arns);
  }

  /** No call at positions `from` up to `to` raises. */
  predicate AllOk(o: Oracle, from: nat, to: nat) {
    forall p :: from <= p < to ==> o.awsOk(p)
  }

  /** The tag lookups of the search, one per listed load balancer. */
  function TagChecks(lbs: seq<Balancer>): (cs: seq<Call>)
    ensures |cs| == |lbs| && forall i :: 0 <= i < |lbs| ==> cs[i] == DescribeTags(lbs[i].arn)
  {
    seq(|lbs|, i requires 0 <= i < |lbs| => DescribeTags(lbs[i].arn))
  }

  lemma TagChecksCons(lbs: seq<Balancer>)
    requires lbs != []
    ensures TagChecks(lbs) == [DescribeTags(lbs[0].arn)] + TagChecks(lbs[1..])
  {
    assert TagChecks(lbs)[1..] == TagChecks(lbs[1..]);
  }

  /** The search reads tags only, in listing order; it keeps only managed
      load balancers, and all of them when every lookup succeeds. */
  lemma FindManagedOutcome(o: Oracle, w: World, lbs: seq<Balancer>)
    ensures var f := FindManagedSpec(o, w, lbs);
      && Extends(w, f.world) && f.world.cloud == w.cloud
      && Calls(Since(w, f.world)) == TagChecks(lbs)
      && Now(f.world) == Now(w) + |lbs|
      && (forall a :: a in f.arns ==> a in ManagedArns(lbs))
      && (AllOk(o, Now(w), Now(w) + |lbs|) ==> forall a :: a in ManagedArns(lbs) ==> a in f.arns)
  {
    FindManagedTrace(o, w, lbs);
    FindManagedFinds(o, w, lbs);
  }

  /** What the search does to the world: tag lookups and nothing else. */
  lemma {:induction false} FindManagedTrace(o: Oracle, w: World, lbs: seq<Balancer>)
    ensures var f := FindManagedSpec(o, w, lbs);
      && Extends(w, f.world) && f.world.cloud == w.cloud
      && Calls(Since(w, f.world)) == TagChecks(lbs)
      && Now(f.world) == Now(w) + |lbs|
    decreases |lbs|
  {
    if lbs != [] {
      var lb := lbs[0];
      var t := Invoke(o, w, DescribeTags(lb.arn));
      InvokeCalls(o, w, DescribeTags(lb.arn));
      var rest := FindManagedSpec(o, t.world, lbs[1..]);
      FindManagedTrace(o, t.world, lbs[1..]);
      Chain(w, t.world, rest.world);
      TagChecksCons(lbs);
    }
  }

  /** What the search finds: managed arns only, and all of them when every
      lookup succeeds. */
  lemma {:induction false} FindManagedFinds(o: Oracle, w: World, lbs: seq<Balancer>)
    ensures var f := FindManagedSpec(o, w, lbs);
      && (forall a :: a in f.arns ==> a in ManagedArns(lbs))
      && (AllOk(o, Now(w), Now(w) + |lbs|) ==> forall a :: a in ManagedArns(lbs) ==> a in f.arns)
    decreases |lbs|
  {
    if lbs != [] {
      var lb := lbs[0];
      var t := Invoke(o, w, DescribeTags(lb.arn));
      InvokeCalls(o, w, DescribeTags(lb.arn));
      var rest := FindManagedSpec(o, t.world, lbs[1..]);
      FindManagedFinds(o, t.world, lbs[1..]);
      assert forall a :: a in rest.arns ==> a in ManagedArns(lbs[1..]);
      var f := FindManagedSpec(o, w, lbs);
      assert f.arns == (if t.result.Ok? && Managed(lb.tags) then [lb.arn] else []) + rest.arns;
      forall a | a in f.arns ensures a in ManagedArns(lbs) {
        if a in rest.arns {
          var b :| b in lbs[1..] && Managed(b.tags) && b.arn == a;
          assert b in lbs;
        } else {
          assert lb in lbs && Managed(lb.tags) && lb.arn == a;
        }
      }
      if AllOk(o, Now(w), Now(w) + |lbs|) {
        assert o.awsOk(Now(w));
        assert AllOk(o, Now(t.world), Now(t.world) + |lbs[1..]|);
        forall a | a in ManagedArns(lbs) ensures a in FindManagedSpec(o, w, lbs).arns {
          var b :| b in lbs && Managed(b.tags) && b.arn == a;
          if b != lb {
            assert b in lbs[1..];
            assert a in ManagedArns(lbs[1..]);
            assert a in rest.arns;
          } else {
            assert t.result.Ok?;
          }
        }
      }
    }
  }

  /** One managed load balancer in `cleanup_by_tags`: its target groups,
      then the load balancer, in a single `try`: any failure skips the rest
      of it. */
  function CleanupBalancer(o: Oracle, w: World, arn: string): Out<()> {
    var g := GroupsAttached(o, w, arn);
    if g.result.Err? then Out(g.world, Err(g.result.error))
    else
      var d := DeleteGroupsSpec(o, g.world, g.result.value);
      if d.result.Err? then d
      else
        var x := Invoke(o, d.world, DeleteLoadBalancer(arn));
        if x.result.Err? then Out(x.world, Err(x.result.error))
        else Out(WithoutBalancer(x.world, arn), Ok(()))
  }

  /** Every call this turn may make, in order. */
  function CleanupPlan(groups: seq<TargetGroup>, arn: string): seq<Call> {
    [DescribeTargetGroups(arn)] + GroupDeletes(groups) + [DeleteLoadBalancer(arn)]
  }

  /** The calls are a prefix of listing the groups, deleting each, then
      deleting the load balancer, and all of it on success: the load
      balancer is never deleted before all its groups are. Only it and its
      groups can disappear. */
  lemma CleanupBalancerOutcome(o: Oracle, w: World, arn: string)
    ensures var x := CleanupBalancer(o, w, arn);
      var plan := CleanupPlan(AttachedTo(w.cloud.targetGroups, arn), arn);
      && Extends(w, x.world)
      && Calls(Since(w, x.world)) <= plan
      && (x.result.Ok? ==> Calls(Since(w, x.world)) == plan && forall b :: b in x.world.cloud.balancers ==> b.arn != arn)
      && Shrinks(w.cloud, x.world.cloud, {arn}, AttachedArns(w.cloud.targetGroups, {arn}))
  {
    var groups := AttachedTo(w.cloud.targetGroups, arn);
    var g := GroupsAttached(o, w, arn);
    InvokeCalls(o, w, DescribeTargetGroups(arn));
    AttachedArnsOf(w.cloud.targetGroups, arn);
    if g.result.Ok? {
      var d := DeleteGroupsSpec(o, g.world, groups);
      DeleteGroupsOutcome(o, g.world, groups);
      Chain(w, g.world, d.world);
      var gs := Calls(Since(g.world, d.world));
      assert Calls(Since(w, d.world)) == [DescribeTargetGroups(arn)] + gs;
      if d.result.Ok? {
        var x := Invoke(o, d.world, DeleteLoadBalancer(arn));
        InvokeCalls(o, d.world, DeleteLoadBalancer(arn));
        Chain(w, d.world, x.world);
        if x.result.Ok? {
          ShrinksThen(w.cloud, d.world.cloud, WithoutBalancer(x.world, arn).cloud, {}, AttachedArns(w.cloud.targetGroups, {arn}),
            {arn}, {}, {arn}, AttachedArns(w.cloud.targetGroups, {arn}));
        }
      }
    }
  }

  /** Those calls are all load-balancer calls. */
  lemma CleanupBalancerElbOnly(o: Oracle, w: World, arn: string)
    ensures Extends(w, CleanupBalancer(o, w, arn).world)
    ensures AllElb(Calls(Since(w, CleanupBalancer(o, w, arn).world)))
  {
    var groups := AttachedTo(w.cloud.targetGroups, arn);
    var plan := CleanupPlan(groups, arn);
    assert AllElb(plan) by {
      forall i | 0 <= i < |plan| ensures ElbCall(plan[i]) {
        if 0 < i < |plan| - 1 {
          assert plan[i] == GroupDeletes(groups)[i - 1];
        }
      }
    }
    CleanupBalancerOutcome(o, w, arn);
    AllElbPrefix(Calls(Since(w, CleanupBalancer(o, w, arn).world)), plan);
  }

  /** The loop over the found load balancers; each failure is only logged. */
  function CleanupBalancersSpec(o: Oracle, w: World, arns: seq<string>): World
    decreases |arns|
  {
    if arns == [] then w
    else CleanupBalancersSpec(o, CleanupBalancer(o, w, arns[0]).world, arns[1..])
  }

  /** One managed load balancer in `cleanup_by_tags`, as the source runs it. */
  method CleanOne(o: Oracle, w: World, arn: string) returns (w': World, r: Result<()>)
    ensures Out(w', r) == CleanupBalancer(o, w, arn)
  {
    var g := GroupsAttached(o, w, arn);
    if g.result.Err? {
      return g.world, Err(g.result.error);
    }
    w', r := DeleteGroups(o, g.world, g.result.value);
    if r.Err? {
      return;
    }
    var x := Invoke(o, w', DeleteLoadBalancer(arn));
    if x.result.Err? {
      return x.world, Err(x.result.error);
    }
    w', r := WithoutBalancer(x.world, arn), Ok(());
  }

  method CleanupBalancers(o: Oracle, w: World, arns: seq<string>) returns (w': World)
    ensures w' == CleanupBalancersSpec(o, w, arns)
  {
    w' := w;
    var i := 0;
    while i < |arns|
      invariant i <= |arns|
      invariant CleanupBalancersSpec(o, w', arns[i..]) == CleanupBalancersSpec(o, w, arns)
    {
      assert arns[i..][0] == arns[i] && arns[i..][1..] == arns[i + 1..];
      var r;
      w', r := CleanOne(o, w', arns[i]);
      i := i + 1;
    }
  }

  /** The loop makes load-balancer calls only and removes nothing but the
      listed load balancers and the target groups behind them. */
  lemma {:induction false} CleanupBalancersOutcome(o: Oracle, w: World, arns: seq<string>)
    ensures var x := CleanupBalancersSpec(o, w, arns);
      var all := set a | a in arns;
      && Extends(w, x)
      && AllElb(Calls(Since(w, x)))
      && Shrinks(w.cloud, x.cloud, all, AttachedArns(w.cloud.targetGroups, all))
    decreases |arns|
  {
    var all := set a | a in arns;
    if arns == [] {
      assert Since(w, w) == [];
    } else {
      var y := CleanupBalancer(o, w, arns[0]);
      CleanupBalancerOutcome(o, w, arns[0]);
      CleanupBalancerElbOnly(o, w, arns[0]);
      var x := CleanupBalancersSpec(o, y.world, arns[1..]);
      CleanupBalancersOutcome(o, y.world, arns[1..]);
      Chain(w, y.world, x);
      var rest := set a | a in arns[1..];
      assert {arns[0]} + rest <= all;
      assert AttachedArns(w.cloud.targetGroups, {arns[0]}) + AttachedArns(y.world.cloud.targetGroups, rest)
          <= AttachedArns(w.cloud.targetGroups, all);
      ShrinksThen(w.cloud, y.world.cloud, x.cloud, {arns[0]}, AttachedArns(w.cloud.targetGroups, {arns[0]}),
        rest, AttachedArns(y.world.cloud.targetGroups, rest), all, AttachedArns(w.cloud.targetGroups, all));
      AllElbAppend(Calls(Since(w, y.world)), Calls(Since(y.world, x)));
    }
  }

  /** After the searches: the load balancers first, then the instances (a
      failed termination is only logged). */
  function Purge(o: Oracle, w: World, arns: seq<string>, ids: seq<string>): World {
    var v := CleanupBalancersSpec(o, w, arns);
    if ids == [] then v else Ec2.TerminateInstances(o, v, ids).world
  }

  /** `cleanup_by_tags(region)`. The two listings are not guarded, so their
      failures propagate; with nothing found it returns `True` at once;
      otherwise the deletions' failures are only logged and it returns
      `True`. */
  function CleanupByTagsSpec(o: Oracle, w: World): Out<bool> {
    var d := Invoke(o, w, DescribeManagedInstances);
    if d.result.Err? then Out(d.world, Err(d.result.error))
    else
      var ids := SelectedIds(w.cloud.instances);
      var l := Invoke(o, d.world, DescribeLoadBalancers);
      if l.result.Err? then Out(l.world, Err(l.result.error))
      else
        var f := FindManagedSpec(o, l.world, w.cloud.balancers);
        if ids == [] && f.arns == [] then Out(f.world, Ok(true))
        else Out(Purge(o, f.world, f.arns, ids), Ok(true))
  }

  method CleanupByTags(o: Oracle, w: World) returns (w': World, r: Result<bool>)
    ensures Out(w', r) == CleanupByTagsSpec(o, w)
  {
    var d := Invoke(o, w, DescribeManagedInstances);
    if d.result.Err? {
      return d.world, Err(d.result.error);
    }
    var ids := CollectSelectedIds(w.cloud.instances);
    var l := Invoke(o, d.world, DescribeLoadBalancers);
    if l.result.Err? {
      return l.world, Err(l.result.error);
    }
    var f := FindManaged(o, l.world, w.cloud.balancers);
    if ids == [] && f.arns == [] {
      return f.world, Ok(true);
    }
    w' := CleanupBalancers(o, f.world, f.arns);
    if ids != [] {
      w' := Ec2.TerminateInstances(o, w', ids).world;
    }
    r := Ok(true);
  }

  /** The load balancers are dealt with by load-balancer calls only, then
      exactly the selected instances are terminated in one call, the last
      one made. */
  lemma PurgeOutcome(o: Oracle, w: World, arns: seq<string>, ids: seq<string>)
    ensures var v := CleanupBalancersSpec(o, w, arns);
      var x := Purge(o, w, arns, ids);
      var all := set a | a in arns;
      && Extends(w, v) && Extends(v, x)
      && AllElb(Calls(Since(w, v)))
      && Calls(Since(v, x)) == (if ids == [] then [] else [Env.TerminateInstances(ids)])
      && Shrinks(w.cloud, v.cloud, all, AttachedArns(w.cloud.targetGroups, all))
      && x.cloud.balancers == v.cloud.balancers && x.cloud.targetGroups == v.cloud.targetGroups
  {
    var v := CleanupBalancersSpec(o, w, arns);
    CleanupBalancersOutcome(o, w, arns);
    if ids == [] {
      assert Since(v, v) == [];
    } else {
      TerminateInstancesOutcome(o, v, ids);
      var e := Aws(Env.TerminateInstances(ids), o.awsOk(Now(v)));
      assert [e][1..] == [];
    }
  }

  /** `cleanup_by_tags` raises exactly when one of its two listings does;
      otherwise it answers `True`, having listed instances and then load
      balancers first; when nothing was found nothing in the cloud changed. */
  lemma CleanupByTagsOutcome(o: Oracle, w: World)
    ensures var x := CleanupByTagsSpec(o, w);
      && Extends(w, x.world)
      && (x.result.Err? <==> !o.awsOk(Now(w)) || !o.awsOk(Now(w) + 1))
      && (x.result.Err? ==> x.result.error == AwsFailure && x.world.cloud == w.cloud)
      && (x.result.Ok? ==>
            && x.result.value
            && |Calls(Since(w, x.world))| >= 2
            && Calls(Since(w, x.world))[..2] == [DescribeManagedInstances, DescribeLoadBalancers])
  {
    var d := Invoke(o, w, DescribeManagedInstances);
    InvokeCalls(o, w, DescribeManagedInstances);
    if d.result.Ok? {
      var l := Invoke(o, d.world, DescribeLoadBalancers);
      InvokeCalls(o, d.world, DescribeLoadBalancers);
      Chain(w, d.world, l.world);
      if l.result.Ok? {
        CleanupListed(o, w);
      }
    }
  }

  /** Once both listings succeed the run answers `True`, and the listings
      were its first two calls. */
  lemma CleanupListed(o: Oracle, w: World)
    requires o.awsOk(Now(w)) && o.awsOk(Now(w) + 1)
    ensures Extends(w, CleanupByTagsSpec(o, w).world)
    ensures var x := CleanupByTagsSpec(o, w);
      && x.result == Ok(true)
      && |Calls(Since(w, x.world))| >= 2
      && Calls(Since(w, x.world))[..2] == [DescribeManagedInstances, DescribeLoadBalancers]
  {
    var d := Invoke(o, w, DescribeManagedInstances);
    InvokeCalls(o, w, DescribeManagedInstances);
    var l := Invoke(o, d.world, DescribeLoadBalancers);
    InvokeCalls(o, d.world, DescribeLoadBalancers);
    Chain(w, d.world, l.world);
    var f := FindManagedSpec(o, l.world, w.cloud.balancers);
    FindManagedTrace(o, l.world, w.cloud.balancers);
    Chain(w, l.world, f.world);
    assert Calls(Since(w, f.world))[..2] == [DescribeManagedInstances, DescribeLoadBalancers];
    var ids := SelectedIds(w.cloud.instances);
    if !(ids == [] && f.arns == []) {
      var x := Purge(o, f.world, f.arns, ids);
      PurgeOutcome(o, f.world, f.arns, ids);
      var v := CleanupBalancersSpec(o, f.world, f.arns);
      Chain(f.world, v, x);
      assert CleanupByTagsSpec(o, w).world == x;
      KeepsFirstCalls(w, f.world, x);
    }
  }

  /** A run that goes on from `v` keeps the calls made up to `v` in front. */
  lemma KeepsFirstCalls(w: World, v: World, x: World)
    requires Extends(w, v) && Extends(v, x) && |Calls(Since(w, v))| >= 2
    ensures Extends(w, x)
    ensures |Calls(Since(w, x))| >= 2 && Calls(Since(w, x))[..2] == Calls(Since(w, v))[..2]
  {
    Chain(w, v, x);
  }

  /** With nothing to delete, only the listings and tag lookups are made and
      the cloud is unchanged. */
  lemma CleanupNothingFound(o: Oracle, w: World)
    ensures var x := CleanupByTagsSpec(o, w);
      var f := FindManagedSpec(o, Invoke(o, Invoke(o, w, DescribeManagedInstances).world, DescribeLoadBalancers).world, w.cloud.balancers);
      x.result.Ok? && SelectedIds(w.cloud.instances) == [] && f.arns == [] ==>
        && x.world == f.world
        && x.world.cloud == w.cloud
        && Extends(w, x.world)
        && Calls(Since(w, x.world)) == [DescribeManagedInstances, DescribeLoadBalancers] + TagChecks(w.cloud.balancers)
  {
    var d := Invoke(o, w, DescribeManagedInstances);
    InvokeCalls(o, w, DescribeManagedInstances);
    var l := Invoke(o, d.world, DescribeLoadBalancers);
    InvokeCalls(o, d.world, DescribeLoadBalancers);
    Chain(w, d.world, l.world);
    var f := FindManagedSpec(o, l.world, w.cloud.balancers);
    FindManagedOutcome(o, l.world, w.cloud.balancers);
    Chain(w, l.world, f.world);
  }

  /** When something was found, every load-balancer call precedes the one
      termination of exactly the selected instances, and only found (thus
      managed) load balancers and the target groups behind them can
      disappear. */
  lemma CleanupDeletesManagedOnly(o: Oracle, w: World)
    ensures var d := Invoke(o, w, DescribeManagedInstances);
      var l := Invoke(o, d.world, DescribeLoadBalancers);
      var f := FindManagedSpec(o, l.world, w.cloud.balancers);
      var ids := SelectedIds(w.cloud.instances);
      var x := CleanupByTagsSpec(o, w);
      var managed := ManagedArns(w.cloud.balancers);
      d.result.Ok? && l.result.Ok? && !(ids == [] && f.arns == []) ==>
        var v := CleanupBalancersSpec(o, f.world, f.arns);
        && Extends(f.world, v) && Extends(v, x.world)
        && AllElb(Calls(Since(f.world, v)))
        && Calls(Since(v, x.world)) == (if ids == [] then [] else [Env.TerminateInstances(ids)])
        && Shrinks(w.cloud, v.cloud, managed, AttachedArns(w.cloud.targetGroups, managed))
  {
    var d := Invoke(o, w, DescribeManagedInstances);
    var l := Invoke(o, d.world, DescribeLoadBalancers);
    InvokeCalls(o, w, DescribeManagedInstances);
    InvokeCalls(o, d.world, DescribeLoadBalancers);
    var f := FindManagedSpec(o, l.world, w.cloud.balancers);
    FindManagedOutcome(o, l.world, w.cloud.balancers);
    var ids := SelectedIds(w.cloud.instances);
    PurgeOutcome(o, f.world, f.arns, ids);
    var all := set a | a in f.arns;
    var managed := ManagedArns(w.cloud.balancers);
    assert all <= managed;
    assert AttachedArns(w.cloud.targetGroups, all) <= AttachedArns(w.cloud.targetGroups, managed);
    var v := CleanupBalancersSpec(o, f.world, f.arns);
    ShrinksWeaken(w.cloud, v.cloud, all, AttachedArns(w.cloud.targetGroups, all), managed, AttachedArns(w.cloud.targetGroups, managed));
  }
}
