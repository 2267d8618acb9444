/** Preparing the cluster hosts: installing the system packages for the
    detected OS, creating the deployment user, sharing one SSH key among all
    nodes and listing every node in each host's `/etc/hosts`. The per-host
    work runs in thread-pool batches; a batch is modelled as running every
    unit, one after the other in submission order, and then raising the
    first failure in the order the units completed. */
module NodeInit {
  import opened Common
  import opened Strings
  import opened Cluster
  import opened Env
  import opened Ssh
  import opened Sessions

  const OsRelease := "cat /etc/os-release"
  const AmazonLinux := "Amazon Linux"
  const Ubuntu := "Ubuntu"
  const UnsupportedOs := "Unsupported OS: "

  /** The two install scripts; their bodies (package lists, fallbacks) are
      not modelled, only which of them is run. */
  const DnfScript := "dnf install: java, mysql client, tools"
  const AptScript := "apt-get install: java, mysql client, tools"

  // ---- initialize_node ----

  /** The script for the OS that `/etc/os-release` describes: Amazon Linux is
      checked first, then Ubuntu; anything else is refused. */
  function ChosenScript(info: string): (r: Result<string>)
    ensures r == Ok(DnfScript) <==> Contains(info, AmazonLinux)
    ensures r == Ok(AptScript) <==> !Contains(info, AmazonLinux) && Contains(info, Ubuntu)
    ensures r.Err? <==> !Contains(info, AmazonLinux) && !Contains(info, Ubuntu)
    ensures r.Err? ==> r.error == Error(DeployError, UnsupportedOs + info)
  {
    if Contains(info, AmazonLinux) then Ok(DnfScript)
    else if Contains(info, Ubuntu) then Ok(AptScript)
    else Err(Error(DeployError, UnsupportedOs + info))
  }

  /** The `try` block of `initialize_node`: detect the OS, then run its
      script. */
  function InstallOn(o: Oracle, w: World, host: string): Out<bool> {
    var info := ExecuteRemoteCommand(o, w, host, OsRelease, false);
    if info.result.Err? then Out(info.world, Err(info.result.error))
    else
      var script := ChosenScript(info.result.value);
      if script.Err? then Out(info.world, Err(script.error))
      else
        var x := ExecuteScript(o, info.world, host, script.value, false);
        Out(x.world, if x.result.Err? then Err(x.result.error) else Ok(true))
  }

  /** `initialize_node(host)`: the connection is made before the `try` and
      closed in its `finally`. */
  function InitializeNode(o: Oracle, w: World, host: string): Out<bool> {
    var c := ConnectSsh(o, w, host);
    if c.result.Err? then Out(c.world, Err(c.result.error))
    else
      var s := InstallOn(o, c.world, host);
      Out(CloseSsh(s.world, host), s.result)
  }

  /** `v` continues `w` and the cloud is as it was. */
  predicate Grows(w: World, v: World) {
    Extends(w, v) && v.cloud == w.cloud
  }

  lemma GrowsUploads(u: World, v: World, x: World)
    requires Grows(u, v) && Grows(v, x)
    ensures Grows(u, x)
    ensures Uploads(Since(u, x)) == Uploads(Since(u, v)) + Uploads(Since(v, x))
  {
    ExtendsTransitive(u, v, x);
    UploadsAppend(Since(u, v), Since(v, x));
  }

  /** An event that is not a file write uploads nothing. */
  lemma EmitUploads(w: World, e: Event)
    ensures Grows(w, Emit(w, e))
    ensures Uploads(Since(w, Emit(w, e))) == if e.Write? && e.ok then [Upload(e.host, e.content)] else []
  {
    assert Since(w, Emit(w, e)) == [e];
  }

  /** Closing the connection after a stretch uploads nothing more and is
      the last event. */
  lemma CloseUploads(w: World, v: World, host: string)
    requires Grows(w, v)
    ensures var x := CloseSsh(v, host);
      Grows(w, x) && Uploads(Since(w, x)) == Uploads(Since(w, v)) &&
      |x.trace| > 0 && x.trace[|x.trace| - 1] == Close(host)
  {
    EmitUploads(v, Close(host));
    GrowsUploads(w, v, CloseSsh(v, host));
    assert Uploads(Since(w, v)) + [] == Uploads(Since(w, v));
  }

  /** A script run uploads the script, and nothing else, to its host when
      the write goes through, and nothing at all when it raises. */
  lemma ScriptUploads(o: Oracle, w: World, host: string, content: string, sudo: bool)
    ensures var x := ExecuteScript(o, w, host, content, sudo);
      Grows(w, x.world) &&
      Uploads(Since(w, x.world)) == (if ScriptWritten(o, w, host) then [Upload(host, content)] else [])
  {
    var x := ExecuteScript(o, w, host, content, sudo);
    var s := Since(w, x.world);
    assert s[0].Write? && s[0].host == host && s[0].content == content && s[0].ok == ScriptWritten(o, w, host);
    assert forall k :: 1 <= k < |s| ==> s[k].Exec?;
    assert Uploads(s[1..]) == [] by {
      NoWrites(s[1..]);
    }
  }

  lemma {:induction false} NoWrites(es: seq<Event>)
    requires forall k :: 0 <= k < |es| ==> es[k].Exec?
    ensures Uploads(es) == []
    decreases |es|
  {
    if es != [] {
      NoWrites(es[1..]);
    }
  }

  /** A connection attempt uploads nothing; on success it is one event. */
  lemma ConnectUploads(o: Oracle, w: World, host: string)
    ensures var c := ConnectSsh(o, w, host);
      Grows(w, c.world) && Uploads(Since(w, c.world)) == []
  {
    var c := ConnectSsh(o, w, host);
    var key := KeyPath(o.sshKeyEnv, o.home, o.fileExists);
    if key.Ok? {
      assert Since(w, c.world) == if o.fileExists(key.value) then [Connect(host, c.result.Ok?)] else [];
    } else {
      assert Since(w, c.world) == [];
    }
  }

  /** The install script lands on the host iff the OS was read, is one of
      the two supported, and the script's write went through; a failed write
      raises the transfer error. */
  lemma InstallOnUploads(o: Oracle, w: World, host: string)
    ensures var s := InstallOn(o, w, host);
      var a := Answer(o, w, host, OsRelease);
      var written := ScriptWritten(o, Emit(w, Exec(host, OsRelease, 0)), host);
      Grows(w, s.world) &&
      Uploads(Since(w, s.world)) ==
        (if a.exit == 0 && ChosenScript(a.out).Ok? && written then [Upload(host, ChosenScript(a.out).value)] else []) &&
      (a.exit == 0 && ChosenScript(a.out).Err? ==> s.result == Err(Error(DeployError, UnsupportedOs + a.out))) &&
      (a.exit == 0 && ChosenScript(a.out).Ok? && !written ==> s.result == Err(SftpFailure)) &&
      (s.result.Ok? ==> a.exit == 0 && ChosenScript(a.out).Ok? && written)
  {
    var info := ExecuteRemoteCommand(o, w, host, OsRelease, false);
    var a := Answer(o, w, host, OsRelease);
    EmitUploads(w, Exec(host, OsRelease, a.exit));
    if a.exit == 0 && ChosenScript(a.out).Ok? {
      ScriptUploads(o, info.world, host, ChosenScript(a.out).value, false);
      var x := ExecuteScript(o, info.world, host, ChosenScript(a.out).value, false);
      GrowsUploads(w, info.world, x.world);
    }
  }

  /** `initialize_node` writes the install script of the detected OS to the
      host, Amazon Linux before Ubuntu, when the write goes through; any
      other OS raises "Unsupported OS" with no script written, and a failed
      write raises with nothing landed. A made connection is closed last. */
  lemma InitializeNodeOutcome(o: Oracle, w: World, host: string)
    ensures var r := InitializeNode(o, w, host);
      Grows(w, r.world) &&
      (ConnectSsh(o, w, host).result.Err? ==> r.result.Err? && Uploads(Since(w, r.world)) == [])
    ensures ConnectSsh(o, w, host).result.Ok? ==>
      var r := InitializeNode(o, w, host);
      var c := Emit(w, Connect(host, true));
      var a := Answer(o, c, host, OsRelease);
      var written := ScriptWritten(o, Emit(c, Exec(host, OsRelease, 0)), host);
      |r.world.trace| > 0 && r.world.trace[|r.world.trace| - 1] == Close(host) &&
      Uploads(Since(w, r.world)) ==
        (if a.exit == 0 && ChosenScript(a.out).Ok? && written then [Upload(host, ChosenScript(a.out).value)] else []) &&
      (a.exit == 0 && ChosenScript(a.out).Err? ==> r.result == Err(Error(DeployError, UnsupportedOs + a.out))) &&
      (a.exit == 0 && ChosenScript(a.out).Ok? && !written ==> r.result == Err(SftpFailure)) &&
      (r.result.Ok? ==> a.exit == 0 && ChosenScript(a.out).Ok? && written)
  {
    var c := ConnectSsh(o, w, host);
    ConnectUploads(o, w, host);
    if c.result.Ok? {
      var s := InstallOn(o, c.world, host);
      InstallOnUploads(o, c.world, host);
      GrowsUploads(w, c.world, s.world);
      CloseUploads(w, s.world, host);
    }
  }

  // ---- create_deployment_user ----

  const UserAdd := "sudo useradd -m -s /bin/bash "
  const SudoersGrant := " ALL=(ALL) NOPASSWD: ALL\" | sudo tee /etc/sudoers.d/"
  const SudoersMode := "sudo chmod 0440 /etc/sudoers.d/"
  const PathExport := " bash -c 'echo \"export PATH=\\$PATH:/opt/dolphinscheduler/bin\" >> ~/.bashrc'"

  /** `id {deploy_user}`, run through `exec_command` directly so that only
      its exit status is looked at. */
  function IdCommand(user: string): string {
    "id " + user
  }

  /** Add the user with a home directory and bash, grant password-less sudo,
      extend its PATH, and show the new identity. */
  function UserScript(user: string): string {
    Join([UserAdd + user,
          "echo \"" + user + SudoersGrant + user,
          SudoersMode + user,
          "sudo -u " + user + PathExport,
          IdCommand(user)], "\n")
  }

  /** The `try` block: an existing user ends the call; otherwise the
      creation script runs. */
  function EnsureUser(o: Oracle, w: World, host: string, user: string): Out<bool> {
    var probe := Answer(o, w, host, IdCommand(user));
    var w1 := Emit(w, Exec(host, IdCommand(user), probe.exit));
    if probe.exit == 0 then Out(w1, Ok(true))
    else
      var x := ExecuteScript(o, w1, host, UserScript(user), false);
      Out(x.world, if x.result.Err? then Err(x.result.error) else Ok(true))
  }

  /** `create_deployment_user(host, deploy_user)`. */
  function CreateDeploymentUser(o: Oracle, w: World, host: string, user: string): Out<bool> {
    var c := ConnectSsh(o, w, host);
    if c.result.Err? then Out(c.world, Err(c.result.error))
    else
      var s := EnsureUser(o, c.world, host, user);
      Out(CloseSsh(s.world, host), s.result)
  }

  /** An existing user ends the call at once; otherwise the creation script
      lands iff its write goes through, and a failed write raises. */
  lemma EnsureUserUploads(o: Oracle, w: World, host: string, user: string)
    ensures var s := EnsureUser(o, w, host, user);
      var probe := Answer(o, w, host, IdCommand(user));
      var written := ScriptWritten(o, Emit(w, Exec(host, IdCommand(user), probe.exit)), host);
      Grows(w, s.world) &&
      (probe.exit == 0 ==> s == Out(Emit(w, Exec(host, IdCommand(user), 0)), Ok(true))) &&
      (probe.exit != 0 ==> Uploads(Since(w, s.world)) == (if written then [Upload(host, UserScript(user))] else [])) &&
      (probe.exit != 0 && !written ==> s.result == Err(SftpFailure))
  {
    var probe := Answer(o, w, host, IdCommand(user));
    var w1 := Emit(w, Exec(host, IdCommand(user), probe.exit));
    EmitUploads(w, Exec(host, IdCommand(user), probe.exit));
    if probe.exit != 0 {
      ScriptUploads(o, w1, host, UserScript(user), false);
      GrowsUploads(w, w1, EnsureUser(o, w, host, user).world);
    }
  }

  /** A user that `id` already finds ends the call with True, having done
      nothing but connect, ask and close. */
  lemma CreateUserExisting(o: Oracle, w: World, host: string, user: string)
    requires ConnectSsh(o, w, host).result.Ok?
    requires Answer(o, Emit(w, Connect(host, true)), host, IdCommand(user)).exit == 0
    ensures var r := CreateDeploymentUser(o, w, host, user);
      r.result == Ok(true) && Extends(w, r.world) &&
      Since(w, r.world) == [Connect(host, true), Exec(host, IdCommand(user), 0), Close(host)]
  {
    var c := ConnectSsh(o, w, host);
    EnsureUserUploads(o, c.world, host, user);
    var r := CreateDeploymentUser(o, w, host, user);
    assert r.world.trace == w.trace + [Connect(host, true), Exec(host, IdCommand(user), 0), Close(host)];
  }

  /** Otherwise the creation script for that user is the one file uploaded
      when its write goes through, and nothing is uploaded and the transfer
      error raised when it does not; a failed connection uploads nothing and
      raises. */
  lemma CreateUserOutcome(o: Oracle, w: World, host: string, user: string)
    ensures var r := CreateDeploymentUser(o, w, host, user);
      Grows(w, r.world) &&
      (ConnectSsh(o, w, host).result.Err? ==> r.result.Err? && Uploads(Since(w, r.world)) == [])
    ensures var c := Emit(w, Connect(host, true));
      var probe := Answer(o, c, host, IdCommand(user));
      var written := ScriptWritten(o, Emit(c, Exec(host, IdCommand(user), probe.exit)), host);
      (ConnectSsh(o, w, host).result.Ok? && probe.exit != 0) ==>
      var r := CreateDeploymentUser(o, w, host, user);
      Uploads(Since(w, r.world)) == (if written then [Upload(host, UserScript(user))] else []) &&
      (!written ==> r.result == Err(SftpFailure))
  {
    var c := ConnectSsh(o, w, host);
    ConnectUploads(o, w, host);
    if c.result.Ok? {
      var s := EnsureUser(o, c.world, host, user);
      EnsureUserUploads(o, c.world, host, user);
      GrowsUploads(w, c.world, s.world);
      CloseUploads(w, s.world, host);
    }
  }

  // ---- the per-host units and their batches ----

  const KeygenScript := "[ -f ~/.ssh/id_rsa ] || ssh-keygen -t rsa -b 4096 -f ~/.ssh/id_rsa -N \"\"; cat ~/.ssh/id_rsa.pub"
  const AuthorizedKeys := "\" >> ~/.ssh/authorized_keys"

  /** Append `key` to the user's `authorized_keys`, creating `~/.ssh`. */
  function AddKeyScript(key: string): string {
    Join(["mkdir -p ~/.ssh", "chmod 700 ~/.ssh", "echo \"" + key + AuthorizedKeys, "chmod 600 ~/.ssh/authorized_keys"], "\n")
  }

  const HostsBackup := "sudo cp /etc/hosts /etc/hosts.bak\ncat << 'EOF' | sudo tee -a /etc/hosts\n"
  const HeredocEnd := "\nEOF"

  /** Back up `/etc/hosts`, then append the block to it. */
  function HostsScript(content: string): string {
    HostsBackup + content + HeredocEnd
  }

  /** `update_hosts_on_node`: one script on one connection. */
  function UpdateHostsOnNode(o: Oracle, w: World, host: string, content: string): Out<bool> {
    var c := ConnectSsh(o, w, host);
    if c.result.Err? then Out(c.world, Err(c.result.error))
    else
      var x := ExecuteScript(o, c.world, host, HostsScript(content), false);
      Out(CloseSsh(x.world, host), if x.result.Err? then Err(x.result.error) else Ok(true))
  }

  lemma UpdateHostsUploads(o: Oracle, w: World, host: string, content: string)
    ensures var r := UpdateHostsOnNode(o, w, host, content);
      Grows(w, r.world) &&
      (r.result.Ok? ==> Uploads(Since(w, r.world)) == [Upload(host, HostsScript(content))])
  {
    var c := ConnectSsh(o, w, host);
    ConnectUploads(o, w, host);
    if c.result.Ok? {
      var x := ExecuteScript(o, c.world, host, HostsScript(content), false);
      ScriptUploads(o, c.world, host, HostsScript(content), false);
      GrowsUploads(w, c.world, x.world);
      CloseUploads(w, x.world, host);
    }
  }

  /** The work a batch does on one host. */
  type UnitFn = (World, string) -> Out<()>

  function Unit(r: Out<bool>): Out<()> {
    Out(r.world, if r.result.Err? then Err(r.result.error) else Ok(()))
  }

  /** The world after all units and each unit's outcome, by submission index. */
  datatype Ran = Ran(world: World, results: seq<Result<()>>)

  function RunAll(unit: UnitFn, w: World, hosts: seq<string>): (r: Ran)
    ensures |r.results| == |hosts|
    decreases |hosts|
  {
    if hosts == [] then Ran(w, [])
    else
      var u := unit(w, hosts[0]);
      var rest := RunAll(unit, u.world, hosts[1..]);
      Ran(rest.world, [u.result] + rest.results)
  }

  /** The first failure met when the outcomes are read in `order`. */
  function FirstFailure(results: seq<Result<()>>, order: seq<nat>): Result<()>
    decreases |order|
  {
    if order == [] then Ok(())
    else if order[0] < |results| && results[order[0]].Err? then results[order[0]]
    else FirstFailure(results, order[1..])
  }

  /** The batch: every unit runs, then `as_completed` re-raises the first
      failure it sees. */
  function BatchSpec(o: Oracle, w: World, unit: UnitFn, hosts: seq<string>): Out<()> {
    var ran := RunAll(unit, w, hosts);
    Out(ran.world, FirstFailure(ran.results, CompletionOrder(o, Now(w), |hosts|)))
  }

  lemma RunAllStep(unit: UnitFn, w: World, hosts: seq<string>, done: seq<Result<()>>)
    requires hosts != []
    ensures var u := unit(w, hosts[0]);
      var rest := RunAll(unit, u.world, hosts[1..]);
      var all := RunAll(unit, w, hosts);
      Ran(rest.world, (done + [u.result]) + rest.results) == Ran(all.world, done + all.results)
  {
    var u := unit(w, hosts[0]);
    var rest := RunAll(unit, u.world, hosts[1..]);
    assert (done + [u.result]) + rest.results == done + ([u.result] + rest.results);
  }

  /** The submission loop and the `as_completed` loop. */
  method Batch(o: Oracle, w: World, unit: UnitFn, hosts: seq<string>) returns (w': World, r: Result<()>)
    ensures Out(w', r) == BatchSpec(o, w, unit, hosts)
  {
    var results: seq<Result<()>> := [];
    w' := w;
    var i := 0;
    ghost var all := RunAll(unit, w, hosts);
    assert Ran(all.world, [] + all.results) == all;
    while i < |hosts|
      invariant i <= |hosts|
      invariant var rest := RunAll(unit, w', hosts[i..]);
        Ran(rest.world, results + rest.results) == all
    {
      assert hosts[i..][0] == hosts[i] && hosts[i..][1..] == hosts[i + 1..];
      RunAllStep(unit, w', hosts[i..], results);
      var u := unit(w', hosts[i]);
      results := results + [u.result];
      w' := u.world;
      i := i + 1;
    }
    assert hosts[i..] == [] && results + [] == results;
    var order := CompletionOrder(o, Now(w), |hosts|);
    var k := 0;
    while k < |order|
      invariant k <= |order|
      invariant FirstFailure(results, order[k..]) == FirstFailure(results, order)
    {
      assert order[k..][0] == order[k] && order[k..][1..] == order[k + 1..];
      if results[order[k]].Err? {
        return w', results[order[k]];
      }
      k := k + 1;
    }
    assert order[k..] == [];
    r := Ok(());
  }

  predicate AllOk(results: seq<Result<()>>) {
    forall i :: 0 <= i < |results| ==> results[i].Ok?
  }

  /** Reading the outcomes in any order of valid indices finds a failure iff
      one of them failed, and then the first such in that order. */
  lemma {:induction false} FirstFailureFinds(results: seq<Result<()>>, order: seq<nat>)
    requires forall k :: 0 <= k < |order| ==> order[k] < |results|
    ensures FirstFailure(results, order).Ok? <==> forall k :: 0 <= k < |order| ==> results[order[k]].Ok?
    ensures FirstFailure(results, order).Err? ==>
      exists k :: 0 <= k < |order| && FirstFailure(results, order) == results[order[k]] &&
        forall j :: 0 <= j < k ==> results[order[j]].Ok?
    decreases |order|
  {
    if order != [] && results[order[0]].Ok? {
      FirstFailureFinds(results, order[1..]);
      assert forall k :: 1 <= k < |order| ==> order[k] == order[1..][k - 1];
      if FirstFailure(results, order).Err? {
        var k :| 0 <= k < |order[1..]| && FirstFailure(results, order[1..]) == results[order[1..][k]] &&
          forall j :: 0 <= j < k ==> results[order[1..][j]].Ok?;
        assert FirstFailure(results, order) == results[order[k + 1]];
        forall j | 0 <= j < k + 1 ensures results[order[j]].Ok? {
          if j > 0 {
            assert order[j] == order[1..][j - 1];
          }
        }
      }
    }
  }

  /** A batch succeeds iff every unit succeeded; a failing batch raises the
      failure of the unit that completed first among the failed ones. */
  lemma BatchOutcome(o: Oracle, w: World, unit: UnitFn, hosts: seq<string>)
    ensures BatchSpec(o, w, unit, hosts).world == RunAll(unit, w, hosts).world
    ensures BatchSpec(o, w, unit, hosts).result.Ok? <==> AllOk(RunAll(unit, w, hosts).results)
    ensures var order := CompletionOrder(o, Now(w), |hosts|);
      var results := RunAll(unit, w, hosts).results;
      BatchSpec(o, w, unit, hosts).result.Err? ==>
        exists k :: 0 <= k < |hosts| && BatchSpec(o, w, unit, hosts).result == results[order[k]] &&
          forall j :: 0 <= j < k ==> results[order[j]].Ok?
  {
    var order := CompletionOrder(o, Now(w), |hosts|);
    var results := RunAll(unit, w, hosts).results;
    FirstFailureFinds(results, order);
    if AllOk(results) {
      assert forall k :: 0 <= k < |order| ==> results[order[k]].Ok?;
    } else {
      var i :| 0 <= i < |results| && results[i].Err?;
      assert i in order;
      var k :| 0 <= k < |order| && order[k] == i;
      assert !results[order[k]].Ok?;
    }
  }

  /** Every unit runs, whatever the others did: given units that keep the
      cloud and only add to the trace, so does the batch. */
  lemma {:induction false} RunAllGrows(unit: UnitFn, w: World, hosts: seq<string>)
    requires forall v: World, h: string :: Grows(v, unit(v, h).world)
    ensures Grows(w, RunAll(unit, w, hosts).world)
    decreases |hosts|
  {
    if hosts != [] {
      var u := unit(w, hosts[0]);
      RunAllGrows(unit, u.world, hosts[1..]);
      ExtendsTransitive(w, u.world, RunAll(unit, u.world, hosts[1..]).world);
    }
  }

  // ---- initialize_nodes_parallel and create_users_parallel ----

  function InitUnit(o: Oracle): UnitFn {
    (v: World, h: string) => Unit(InitializeNode(o, v, h))
  }

  function UserUnit(o: Oracle, user: string): UnitFn {
    (v: World, h: string) => Unit(CreateDeploymentUser(o, v, h, user))
  }

  function InitializeNodesParallelSpec(o: Oracle, w: World, hosts: seq<string>): Out<bool> {
    AsTrue(BatchSpec(o, w, InitUnit(o), hosts))
  }

  method InitializeNodesParallel(o: Oracle, w: World, hosts: seq<string>) returns (w': World, r: Result<bool>)
    ensures Out(w', r) == InitializeNodesParallelSpec(o, w, hosts)
  {
    var u;
    w', u := Batch(o, w, InitUnit(o), hosts);
    r := if u.Err? then Err(u.error) else Ok(true);
  }

  function CreateUsersParallelSpec(o: Oracle, w: World, hosts: seq<string>, user: string): Out<bool> {
    AsTrue(BatchSpec(o, w, UserUnit(o, user), hosts))
  }

  method CreateUsersParallel(o: Oracle, w: World, hosts: seq<string>, user: string) returns (w': World, r: Result<bool>)
    ensures Out(w', r) == CreateUsersParallelSpec(o, w, hosts, user)
  {
    var u;
    w', u := Batch(o, w, UserUnit(o, user), hosts);
    r := if u.Err? then Err(u.error) else Ok(true);
  }

  /** Every host is initialized, in submission order, even after one fails;
      the batch returns True iff every host's `initialize_node` did. */
  lemma InitializeNodesParallelOutcome(o: Oracle, w: World, hosts: seq<string>)
    ensures var r := InitializeNodesParallelSpec(o, w, hosts);
      var ran := RunAll(InitUnit(o), w, hosts);
      Grows(w, r.world) && r.world == ran.world &&
      (r.result.Ok? <==> AllOk(ran.results)) &&
      (hosts == [] ==> r == Out(w, Ok(true)))
  {
    BatchOutcome(o, w, InitUnit(o), hosts);
    forall v: World, h: string ensures Grows(v, InitUnit(o)(v, h).world) {
      InitializeNodeOutcome(o, v, h);
    }
    RunAllGrows(InitUnit(o), w, hosts);
  }

  /** Every host gets the user, in submission order, even after one fails;
      the batch returns True iff every host's `create_deployment_user` did. */
  lemma CreateUsersParallelOutcome(o: Oracle, w: World, hosts: seq<string>, user: string)
    ensures var r := CreateUsersParallelSpec(o, w, hosts, user);
      var ran := RunAll(UserUnit(o, user), w, hosts);
      Grows(w, r.world) && r.world == ran.world &&
      (r.result.Ok? <==> AllOk(ran.results)) &&
      (hosts == [] ==> r == Out(w, Ok(true)))
  {
    BatchOutcome(o, w, UserUnit(o, user), hosts);
    forall v: World, h: string ensures Grows(v, UserUnit(o, user)(v, h).world) {
      CreateUserOutcome(o, v, h, user);
    }
    RunAllGrows(UserUnit(o, user), w, hosts);
  }

  // ---- setup_ssh_keys ----

  /** The key pair is made on the first node if missing, and its public half
      read back, stripped of surrounding whitespace. */
  function ReadPublicKey(o: Oracle, w: World, host: string): Out<string> {
    var c := ConnectSsh(o, w, host);
    if c.result.Err? then Out(c.world, Err(c.result.error))
    else
      var g := ExecuteRemoteCommand(o, c.world, host, KeygenScript, false);
      Out(CloseSsh(g.world, host), if g.result.Err? then Err(g.result.error) else Ok(Strip(g.result.value)))
  }

  /** `add_key_to_node`: one command on one connection. */
  function KeyUnit(o: Oracle, key: string): UnitFn {
    (v: World, h: string) => Session(o, v, h, [Run(AddKeyScript(key))])
  }

  /** `setup_ssh_keys(nodes)`: `nodes[0]` is read before anything else. */
  function SetupSshKeysSpec(o: Oracle, w: World, hosts: seq<string>): Out<bool> {
    if hosts == [] then Out(w, Err(IndexOutOfRange))
    else
      var k := ReadPublicKey(o, w, hosts[0]);
      if k.result.Err? then Out(k.world, Err(k.result.error))
      else AsTrue(BatchSpec(o, k.world, KeyUnit(o, k.result.value), hosts))
  }

  method SetupSshKeys(o: Oracle, w: World, hosts: seq<string>) returns (w': World, r: Result<bool>)
    ensures Out(w', r) == SetupSshKeysSpec(o, w, hosts)
  {
    if hosts == [] {
      return w, Err(IndexOutOfRange);
    }
    var k := ReadPublicKey(o, w, hosts[0]);
    if k.result.Err? {
      return k.world, Err(k.result.error);
    }
    var u;
    w', u := Batch(o, k.world, KeyUnit(o, k.result.value), hosts);
    r := if u.Err? then Err(u.error) else Ok(true);
  }

  /** When every unit of a key batch succeeds, each host got the same
      append command, in host order. */
  lemma {:induction false} KeyBatchActs(o: Oracle, w: World, hosts: seq<string>, key: string)
    ensures var ran := RunAll(KeyUnit(o, key), w, hosts);
      Grows(w, ran.world) &&
      (AllOk(ran.results) ==> Acts(Since(w, ran.world)) == HostsPlan(hosts, [Run(AddKeyScript(key))]))
    decreases |hosts|
  {
    if hosts == [] {
      FollowsNothing(w, true);
    } else {
      var steps := [Run(AddKeyScript(key))];
      var u := Session(o, w, hosts[0], steps);
      SessionActs(o, w, hosts[0], steps);
      KeyBatchActs(o, u.world, hosts[1..], key);
      var rest := RunAll(KeyUnit(o, key), u.world, hosts[1..]);
      ChainActs(w, u.world, rest.world);
      var ran := RunAll(KeyUnit(o, key), w, hosts);
      if AllOk(ran.results) {
        assert ran.results[0] == u.result;
        assert forall i :: 0 <= i < |rest.results| ==> rest.results[i] == ran.results[i + 1];
      }
    }
  }

  lemma ReadPublicKeyActs(o: Oracle, w: World, host: string)
    ensures var k := ReadPublicKey(o, w, host);
      Grows(w, k.world) &&
      (k.result.Ok? ==>
        var a := Answer(o, Emit(w, Connect(host, true)), host, KeygenScript);
        k.result.value == Strip(a.out) && Acts(Since(w, k.world)) == [Cmd(host, KeygenScript)])
  {
    var c := ConnectSsh(o, w, host);
    assert Follows(w, c.world, true, []) by {
      var key := KeyPath(o.sshKeyEnv, o.home, o.fileExists);
      if key.Ok? {
        assert Since(w, c.world) == if o.fileExists(key.value) then [Connect(host, c.result.Ok?)] else [];
      } else {
        assert Since(w, c.world) == [];
      }
    }
    if c.result.Ok? {
      var g := ExecuteRemoteCommand(o, c.world, host, KeygenScript, false);
      var k := ReadPublicKey(o, w, host);
      EmitActs(c.world, Exec(host, KeygenScript, Answer(o, c.world, host, KeygenScript).exit));
      EmitActs(g.world, Close(host));
      ChainActs(c.world, g.world, k.world);
      ChainActs(w, c.world, k.world);
    }
  }

  /** `setup_ssh_keys` reads the public key on the first node only and, when
      it returns True, has appended that one key on every node, the first
      included, in node order. An empty node list raises IndexError before
      any connection. */
  lemma SetupSshKeysActs(o: Oracle, w: World, hosts: seq<string>)
    ensures var r := SetupSshKeysSpec(o, w, hosts);
      Grows(w, r.world) &&
      (hosts == [] ==> r == Out(w, Err(IndexOutOfRange)))
    ensures hosts != [] && SetupSshKeysSpec(o, w, hosts).result.Ok? ==>
      var r := SetupSshKeysSpec(o, w, hosts);
      var key := Strip(Answer(o, Emit(w, Connect(hosts[0], true)), hosts[0], KeygenScript).out);
      Acts(Since(w, r.world)) == [Cmd(hosts[0], KeygenScript)] + HostsPlan(hosts, [Run(AddKeyScript(key))])
  {
    if hosts == [] {
      FollowsNothing(w, false);
      return;
    }
    var k := ReadPublicKey(o, w, hosts[0]);
    ReadPublicKeyActs(o, w, hosts[0]);
    if k.result.Ok? {
      KeyBatchActs(o, k.world, hosts, k.result.value);
      BatchOutcome(o, k.world, KeyUnit(o, k.result.value), hosts);
      ChainActs(w, k.world, RunAll(KeyUnit(o, k.result.value), k.world, hosts).world);
    }
  }

  // ---- configure_hosts_file ----

  /** A node as `configure_hosts_file` reads it: `host`, and the optional
      `hostname`, `component` and `index`. */
  datatype HostRecord = HostRecord(host: string, hostname: Option<string>, component: Option<string>, index: Option<nat>)

  /** `"{host} {hostname}"`, the name defaulting to
      `ds-{component|node}-{index|0}`. */
  function HostLine(n: HostRecord): string {
    n.host + " " +
      (if n.hostname.Some? then n.hostname.value
       else "ds-" + OrDefault(n.component, "node") + "-" + NatToString(OrDefault(n.index, 0)))
  }

  function HostLines(nodes: seq<HostRecord>): (lines: seq<string>)
    ensures |lines| == |nodes| && forall i :: 0 <= i < |nodes| ==> lines[i] == HostLine(nodes[i])
  {
    seq(|nodes|, i requires 0 <= i < |nodes| => HostLine(nodes[i]))
  }

  /** `"\n".join(hosts_entries)`. */
  function HostsContent(nodes: seq<HostRecord>): string {
    Join(HostLines(nodes), "\n")
  }

  /** The entry loop of `configure_hosts_file`. */
  method HostsEntries(nodes: seq<HostRecord>) returns (entries: seq<string>)
    ensures |entries| == |nodes|
    ensures forall i :: 0 <= i < |nodes| ==> entries[i] == HostLine(nodes[i])
  {
    entries := [];
    var i := 0;
    while i < |nodes|
      invariant i <= |nodes| && |entries| == i
      invariant forall j :: 0 <= j < i ==> entries[j] == HostLine(nodes[j])
    {
      entries := entries + [HostLine(nodes[i])];
      i := i + 1;
    }
  }

  /** With no line break in any host or name, the block reads back as one
      line per node, in node order. */
  lemma HostsContentLines(nodes: seq<HostRecord>)
    requires |nodes| >= 1
    requires forall i :: 0 <= i < |nodes| ==> '\n' !in HostLine(nodes[i])
    ensures Split(HostsContent(nodes), '\n') == HostLines(nodes)
  {
    assert "\n" == ['\n'];
    SplitJoin(HostLines(nodes), '\n');
  }

  function NodeHosts(nodes: seq<HostRecord>): (hs: seq<string>)
    ensures |hs| == |nodes| && forall i :: 0 <= i < |nodes| ==> hs[i] == nodes[i].host
  {
    seq(|nodes|, i requires 0 <= i < |nodes| => nodes[i].host)
  }

  function HostsUnit(o: Oracle, content: string): UnitFn {
    (v: World, h: string) => Unit(UpdateHostsOnNode(o, v, h, content))
  }

  function ConfigureHostsFileSpec(o: Oracle, w: World, nodes: seq<HostRecord>): Out<bool> {
    AsTrue(BatchSpec(o, w, HostsUnit(o, HostsContent(nodes)), NodeHosts(nodes)))
  }

  method ConfigureHostsFile(o: Oracle, w: World, nodes: seq<HostRecord>) returns (w': World, r: Result<bool>)
    ensures Out(w', r) == ConfigureHostsFileSpec(o, w, nodes)
  {
    var entries := HostsEntries(nodes);
    assert entries == HostLines(nodes);
    var content := Join(entries, "\n");
    var u;
    w', u := Batch(o, w, HostsUnit(o, content), NodeHosts(nodes));
    r := if u.Err? then Err(u.error) else Ok(true);
  }

  /** The same file content on every host, in host order. */
  function Everywhere(hosts: seq<string>, content: string): (ups: seq<Upload>)
    ensures |ups| == |hosts| && forall i :: 0 <= i < |hosts| ==> ups[i] == Upload(hosts[i], content)
  {
    seq(|hosts|, i requires 0 <= i < |hosts| => Upload(hosts[i], content))
  }

  /** The uploads `each` host is to receive, host after host. */
  function Gathered(each: string -> seq<Upload>, hosts: seq<string>): seq<Upload>
    decreases |hosts|
  {
    if hosts == [] then [] else each(hosts[0]) + Gathered(each, hosts[1..])
  }

  /** Units that keep the cloud, and upload what `each` prescribes when they
      succeed, make a batch that uploads all of it, host by host, when every
      unit succeeded. */
  lemma {:induction false} RunAllUploads(unit: UnitFn, w: World, hosts: seq<string>, each: string -> seq<Upload>)
    requires forall v: World, h: string ::
      Grows(v, unit(v, h).world) && (unit(v, h).result.Ok? ==> Uploads(Since(v, unit(v, h).world)) == each(h))
    ensures var ran := RunAll(unit, w, hosts);
      Grows(w, ran.world) &&
      (AllOk(ran.results) ==> Uploads(Since(w, ran.world)) == Gathered(each, hosts))
    decreases |hosts|
  {
    if hosts != [] {
      var u := unit(w, hosts[0]);
      RunAllUploads(unit, u.world, hosts[1..], each);
      var rest := RunAll(unit, u.world, hosts[1..]);
      GrowsUploads(w, u.world, rest.world);
      var ran := RunAll(unit, w, hosts);
      if AllOk(ran.results) {
        assert ran.results[0] == u.result;
        assert forall i :: 0 <= i < |rest.results| ==> rest.results[i] == ran.results[i + 1];
      }
    }
  }

  lemma {:induction false} GatheredEverywhere(hosts: seq<string>, script: string)
    ensures Gathered((h: string) => [Upload(h, script)], hosts) == Everywhere(hosts, script)
    decreases |hosts|
  {
    if hosts != [] {
      GatheredEverywhere(hosts[1..], script);
      assert Everywhere(hosts, script) == [Upload(hosts[0], script)] + Everywhere(hosts[1..], script);
    }
  }

  lemma HostsBatchUploads(o: Oracle, w: World, hosts: seq<string>, content: string)
    ensures var ran := RunAll(HostsUnit(o, content), w, hosts);
      Grows(w, ran.world) &&
      (AllOk(ran.results) ==> Uploads(Since(w, ran.world)) == Everywhere(hosts, HostsScript(content)))
  {
    var unit := HostsUnit(o, content);
    var each := (h: string) => [Upload(h, HostsScript(content))];
    forall v: World, h: string
      ensures Grows(v, unit(v, h).world)
      ensures unit(v, h).result.Ok? ==> Uploads(Since(v, unit(v, h).world)) == each(h)
    {
      UpdateHostsUploads(o, v, h, content);
    }
    RunAllUploads(unit, w, hosts, each);
    GatheredEverywhere(hosts, HostsScript(content));
  }

  /** When `configure_hosts_file` returns True, every node got the same
      block, the entries of all the nodes, appended to its `/etc/hosts`
      after a backup. */
  lemma ConfigureHostsFileUploads(o: Oracle, w: World, nodes: seq<HostRecord>)
    ensures var r := ConfigureHostsFileSpec(o, w, nodes);
      Grows(w, r.world) &&
      (r.result.Ok? ==> Uploads(Since(w, r.world)) == Everywhere(NodeHosts(nodes), HostsScript(HostsContent(nodes))))
  {
    HostsBatchUploads(o, w, NodeHosts(nodes), HostsContent(nodes));
    BatchOutcome(o, w, HostsUnit(o, HostsContent(nodes)), NodeHosts(nodes));
  }
}
