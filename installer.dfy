/** Installing DolphinScheduler 3.2.0 from the first master node: one SSH
    connection (retried up to three times) carries every step, in a fixed
    order: fetch the package, set its permissions, place the two
    environment files, add the MySQL driver, initialise the schema, place
    each component's `application.yaml`, and run `install.sh`, which
    deploys to the other nodes. */
module Installer {
  import opened Common
  import opened Strings
  import opened Cluster
  import opened Env
  import opened Ssh
  import opened Sessions
  import opened ConfigGen

  // ---- get_ssh_connection ----

  const ConnectionTest := "echo \"connection test\""
  const MaxRetries := 3
  const RetryPause := 5
  const NoConnection := "Failed to establish SSH connection after 3 attempts"

  /** One attempt: connect, then send the test command, whose exit status
      is not looked at. */
  function ConnectAttempt(o: Oracle, w: World, host: string): Out<()> {
    var c := ConnectSsh(o, w, host);
    if c.result.Err? then c
    else Out(Emit(c.world, Exec(host, ConnectionTest, Answer(o, c.world, host, ConnectionTest).exit)), Ok(()))
  }

  /** The attempts from `attempt` on: a failure is followed by a pause,
      except the last, which raises. */
  function ConnectFrom(o: Oracle, w: World, host: string, attempt: nat): Out<()>
    decreases MaxRetries - attempt
  {
    if attempt >= MaxRetries then Out(w, Err(Error(DeployError, NoConnection)))
    else
      var a := ConnectAttempt(o, w, host);
      if a.result.Ok? then a
      else if attempt < MaxRetries - 1 then ConnectFrom(o, SleepFor(a.world, RetryPause), host, attempt + 1)
      else Out(a.world, Err(Error(DeployError, NoConnection)))
  }

  method GetSshConnection(o: Oracle, w: World, host: string) returns (w': World, r: Result<()>)
    ensures Out(w', r) == ConnectFrom(o, w, host, 0)
  {
    w' := w;
    for attempt := 0 to MaxRetries
      invariant ConnectFrom(o, w', host, attempt) == ConnectFrom(o, w, host, 0)
    {
      var a := ConnectAttempt(o, w', host);
      if a.result.Ok? {
        return a.world, a.result;
      }
      if attempt < MaxRetries - 1 {
        w' := SleepFor(a.world, RetryPause);
      } else {
        return a.world, Err(Error(DeployError, NoConnection));
      }
    }
    r := Err(Error(DeployError, NoConnection));
  }

  /** `n` pauses of five seconds. */
  function Pauses(n: nat): (p: seq<Act>)
    ensures |p| == n && forall i :: 0 <= i < n ==> p[i] == Wait(RetryPause)
  {
    seq(n, i => Wait(RetryPause))
  }

  lemma PausesCons(n: nat)
    ensures [Wait(RetryPause)] + Pauses(n) == Pauses(n + 1)
  {
    assert forall i :: 0 <= i < n + 1 ==> ([Wait(RetryPause)] + Pauses(n))[i] == Wait(RetryPause);
  }

  /** The acts of a successful run of the attempts: some pauses, then the test command. */
  predicate PausedThenTried(acts: seq<Act>, host: string, most: nat) {
    1 <= |acts| <= most && acts == Pauses(|acts| - 1) + [Cmd(host, ConnectionTest)]
  }

  lemma ConnectAttemptActs(o: Oracle, w: World, host: string)
    ensures var a := ConnectAttempt(o, w, host);
      Follows(w, a.world, true, if a.result.Ok? then [Cmd(host, ConnectionTest)] else [])
  {
    var c := ConnectSsh(o, w, host);
    var key := KeyPath(o.sshKeyEnv, o.home, o.fileExists);
    assert Follows(w, c.world, true, []) by {
      if key.Ok? {
        assert Since(w, c.world) == if o.fileExists(key.value) then [Connect(host, c.result.Ok?)] else [];
      } else {
        assert Since(w, c.world) == [];
      }
    }
    if c.result.Ok? {
      var e := Exec(host, ConnectionTest, Answer(o, c.world, host, ConnectionTest).exit);
      EmitActs(c.world, e);
      FollowsThen(w, c.world, Emit(c.world, e), true, [], [Cmd(host, ConnectionTest)]);
    }
  }

  /** A failed attempt leaves no act, so what follows its pause is all that
      comes after the pause. */
  lemma PauseBefore(w: World, v: World, x: World)
    requires Follows(w, v, true, [])
    requires Extends(SleepFor(v, RetryPause), x) && x.cloud == v.cloud
    ensures Extends(w, x) && x.cloud == w.cloud
    ensures Acts(Since(w, x)) == [Wait(RetryPause)] + Acts(Since(SleepFor(v, RetryPause), x))
  {
    var s := SleepFor(v, RetryPause);
    FollowsSleep(v, RetryPause);
    ChainActs(v, s, x);
    ChainActs(w, v, x);
  }

  /** From attempt `attempt` on: success comes after some failed attempts,
      each followed by one pause, and then the test command; when every
      attempt fails there is a pause between each two of them and none
      after the last, and the call raises. */
  lemma {:induction false} ConnectFromActs(o: Oracle, w: World, host: string, attempt: nat)
    requires attempt < MaxRetries
    ensures var r := ConnectFrom(o, w, host, attempt);
      Extends(w, r.world) && r.world.cloud == w.cloud &&
      (r.result.Ok? ==> PausedThenTried(Acts(Since(w, r.world)), host, MaxRetries - attempt)) &&
      (r.result.Err? ==>
        r.result.error == Error(DeployError, NoConnection) && Acts(Since(w, r.world)) == Pauses(MaxRetries - 1 - attempt))
    decreases MaxRetries - attempt
  {
    var a := ConnectAttempt(o, w, host);
    ConnectAttemptActs(o, w, host);
    var r := ConnectFrom(o, w, host, attempt);
    if a.result.Ok? {
      assert Pauses(0) + [Cmd(host, ConnectionTest)] == [Cmd(host, ConnectionTest)];
    } else if attempt < MaxRetries - 1 {
      var v := SleepFor(a.world, RetryPause);
      ConnectFromActs(o, v, host, attempt + 1);
      PauseBefore(w, a.world, r.world);
      var tail := Acts(Since(v, r.world));
      if r.result.Ok? {
        PausesCons(|tail| - 1);
      } else {
        PausesCons(MaxRetries - 1 - (attempt + 1));
      }
    } else {
      assert Pauses(0) == [];
    }
  }

  /** `get_ssh_connection`: at most three attempts; success after `k` failed
      ones has paused `k` times, and giving up raises after exactly two
      pauses. */
  lemma GetSshConnectionOutcome(o: Oracle, w: World, host: string)
    ensures var r := ConnectFrom(o, w, host, 0);
      Extends(w, r.world) && r.world.cloud == w.cloud &&
      (r.result.Ok? ==> PausedThenTried(Acts(Since(w, r.world)), host, MaxRetries)) &&
      (r.result.Err? ==>
        r.result.error == Error(DeployError, NoConnection) && Acts(Since(w, r.world)) == [Wait(RetryPause), Wait(RetryPause)])
  {
    ConnectFromActs(o, w, host, 0);
    assert Pauses(2) == [Wait(RetryPause), Wait(RetryPause)];
  }

  // ---- the package steps ----

  /** `/tmp/apache-dolphinscheduler-{version}-bin`, where both ways of
      fetching the package leave it. */
  function ExtractDir(c: Config): string {
    "/tmp/apache-dolphinscheduler-" + c.version + "-bin"
  }

  function RemotePackage(c: Config): string {
    ExtractDir(c) + ".tar.gz"
  }

  /** The download script, the permission script and the driver download
      are not modelled beyond the one remote step each stands for. */
  function DownloadCommand(c: Config): string {
    "download and extract " + RemotePackage(c)
  }

  function PermissionsCommand(c: Config): string {
    "sudo chown -R " + c.deployUser + ":" + c.deployUser + " " + ExtractDir(c)
  }

  function JdbcCommand(c: Config): string {
    "install mysql-connector-j into " + ExtractDir(c)
  }

  /** The package is downloaded on the node unless a local file is given and
      `download_on_remote` (true when absent) is off. */
  predicate DownloadsOnNode(c: Config, packageFile: Option<string>) {
    packageFile.None? || OrDefault(c.downloadOnRemote, true)
  }

  function FetchSteps(c: Config, packageFile: Option<string>): seq<Step> {
    if DownloadsOnNode(c, packageFile) then [Run(DownloadCommand(c))]
    else [Put(RemotePackage(c), packageFile.value), Run("cd /tmp && tar -xzf " + RemotePackage(c))]
  }

  // ---- upload_configuration_files and configure_components ----

  /** Upload to `/tmp`, move into place and hand the file to the deployment
      user (and make it executable, for the shell files). */
  function PlaceSteps(c: Config, temp: string, target: string, content: string, executable: bool): seq<Step> {
    [Put(temp, content), Run("sudo mv " + temp + " " + target), Run("sudo chown " + c.deployUser + ":" + c.deployUser + " " + target)] +
      (if executable then [Run("sudo chmod +x " + target)] else [])
  }

  /** The files the installer generates and places. */
  datatype GeneratedFile =
    | InstallEnvFile(env: InstallEnv)   // bin/env/install_env.sh
    | SchedulerEnvFile                  // bin/env/dolphinscheduler_env.sh
    | ComponentYaml(component: string)  // {component}-server/conf/application.yaml
    | ToolsYaml                         // tools/conf/application.yaml, the master's YAML

  function Content(c: Config, f: GeneratedFile): string {
    match f
    case InstallEnvFile(env) => RenderInstallEnv(env)
    case SchedulerEnvFile => RenderEnv(DolphinSchedulerEnv(c))
    case ComponentYaml(component) => RenderYaml(ApplicationYaml(c, component))
    case ToolsYaml => RenderYaml(ApplicationYaml(c, "master"))
  }

  function TempPath(f: GeneratedFile): string {
    match f
    case InstallEnvFile(_) => "/tmp/install_env.sh"
    case SchedulerEnvFile => "/tmp/dolphinscheduler_env.sh"
    case ComponentYaml(component) => "/tmp/application_" + component + ".yaml"
    case ToolsYaml => "/tmp/application_tools.yaml"
  }

  function TargetPath(c: Config, f: GeneratedFile): string {
    ExtractDir(c) +
      match f
      case InstallEnvFile(_) => "/bin/env/install_env.sh"
      case SchedulerEnvFile => "/bin/env/dolphinscheduler_env.sh"
      case ComponentYaml(component) => "/" + component + "-server/conf/application.yaml"
      case ToolsYaml => "/tools/conf/application.yaml"
  }

  function FileSteps(c: Config, f: GeneratedFile): seq<Step> {
    PlaceSteps(c, TempPath(f), TargetPath(c, f), Content(c, f), f.InstallEnvFile? || f.SchedulerEnvFile?)
  }

  /** The files placed one after the other. */
  function FilesSteps(c: Config, files: seq<GeneratedFile>): seq<Step>
    decreases |files|
  {
    if files == [] then [] else FileSteps(c, files[0]) + FilesSteps(c, files[1..])
  }

  /** `upload_configuration_files`: `install_env.sh`, then
      `dolphinscheduler_env.sh`. */
  function EnvSteps(c: Config, env: InstallEnv): seq<Step> {
    FilesSteps(c, [InstallEnvFile(env), SchedulerEnvFile])
  }

  /** The component loop of `configure_components`, then the tools file. */
  const ComponentFiles := [ComponentYaml("master"), ComponentYaml("worker"), ComponentYaml("api"), ComponentYaml("alert"), ToolsYaml]

  function ComponentSteps(c: Config): seq<Step> {
    FilesSteps(c, ComponentFiles)
  }

  /** What the remaining files do, one file at a time. */
  lemma FilesStepsAt(o: Oracle, w: World, host: string, c: Config, files: seq<GeneratedFile>, i: nat)
    requires i < |files|
    ensures RunSteps(o, w, host, FilesSteps(c, files[i..])) ==
      var s := RunSteps(o, w, host, FileSteps(c, files[i]));
      if s.result.Err? then s else RunSteps(o, s.world, host, FilesSteps(c, files[i + 1..]))
  {
    assert files[i..][0] == files[i] && files[i..][1..] == files[i + 1..];
    RunStepsAppend(o, w, host, FileSteps(c, files[i]), FilesSteps(c, files[i + 1..]));
  }

  /** Generates and places the files in turn, stopping at the first step
      that raises. */
  method PlaceFiles(o: Oracle, w: World, host: string, c: Config, files: seq<GeneratedFile>) returns (w': World, r: Result<()>)
    ensures Out(w', r) == RunSteps(o, w, host, FilesSteps(c, files))
  {
    w' := w;
    assert files[0..] == files;
    for i := 0 to |files|
      invariant RunSteps(o, w', host, FilesSteps(c, files[i..])) == RunSteps(o, w, host, FilesSteps(c, files))
    {
      FilesStepsAt(o, w', host, c, files, i);
      var s := RunSteps(o, w', host, FileSteps(c, files[i]));
      if s.result.Err? {
        return s.world, s.result;
      }
      w' := s.world;
    }
    assert files[|files|..] == [];
    r := Ok(());
  }

  method UploadConfigurationFiles(o: Oracle, w: World, host: string, c: Config, env: InstallEnv) returns (w': World, r: Result<()>)
    ensures Out(w', r) == RunSteps(o, w, host, EnvSteps(c, env))
  {
    w', r := PlaceFiles(o, w, host, c, [InstallEnvFile(env), SchedulerEnvFile]);
  }

  method ConfigureComponents(o: Oracle, w: World, host: string, c: Config) returns (w': World, r: Result<()>)
    ensures Out(w', r) == RunSteps(o, w, host, ComponentSteps(c))
  {
    w', r := PlaceFiles(o, w, host, c, ComponentFiles);
  }

  // ---- initialize_database ----

  const DbCheck := "database connectivity check"
  const CannotConnectDb := "Cannot connect to database"

  function SchemaCommand(c: Config): string {
    "cd " + ExtractDir(c) + " && sudo -u " + c.deployUser + " bash tools/bin/upgrade-schema.sh"
  }

  /** `initialize_database`: the database is probed from the local machine
      first, and an unreachable one raises; the schema script then runs, but
      its failure is only logged. */
  function InitializeDatabase(o: Oracle, w: World, host: string, schema: string): Out<()> {
    var ok := o.localOk(Now(w), DbCheck);
    var w1 := Emit(w, Local(DbCheck, ok));
    if !ok then Out(w1, Err(Error(DeployError, CannotConnectDb)))
    else RunSteps(o, w1, host, [Attempt(schema)])
  }

  /** The call succeeds exactly when the database answered, whatever the
      schema script did; an unreachable database stops it before any remote
      command. */
  lemma InitializeDatabaseOutcome(o: Oracle, w: World, host: string, schema: string)
    ensures var r := InitializeDatabase(o, w, host, schema);
      var ok := o.localOk(Now(w), DbCheck);
      Follows(w, r.world, r.result.Ok?, [Cmd(host, schema)]) &&
      (r.result.Ok? <==> ok) &&
      (!ok ==> r.result == Err(Error(DeployError, CannotConnectDb)) && Acts(Since(w, r.world)) == [])
  {
    var ok := o.localOk(Now(w), DbCheck);
    var e := Local(DbCheck, ok);
    var w1 := Emit(w, e);
    EmitActs(w, e);
    if ok {
      RunStepsActs(o, w1, host, [Attempt(schema)]);
      var r := RunSteps(o, w1, host, [Attempt(schema)]);
      assert PlanActs(host, [Attempt(schema)]) == [Cmd(host, schema)];
      FollowsThen(w, w1, r.world, r.result.Ok?, [], [Cmd(host, schema)]);
    }
  }

  // ---- install.sh ----

  const InstallFailed := "DolphinScheduler installation failed: "

  function InstallCommand(c: Config): string {
    "cd " + ExtractDir(c) + " && sudo -u " + c.deployUser + " bash bin/install.sh"
  }

  /** `install.sh` on the first master; a failure is re-raised as a failed
      installation carrying the command's error. */
  function RunInstall(o: Oracle, w: World, host: string, command: string): (r: Out<()>)
    ensures var a := Answer(o, w, host, command);
      r.world == Emit(w, Exec(host, command, a.exit)) &&
      (r.result.Ok? <==> a.exit == 0) &&
      (r.result.Err? ==> r.result.error == Error(DeployError, InstallFailed + ExecFailed + a.err))
  {
    var e := ExecuteRemoteCommand(o, w, host, command, false);
    Out(e.world, if e.result.Err? then Err(Error(DeployError, InstallFailed + e.result.error.message)) else Ok(()))
  }

  // ---- deploy_dolphinscheduler_v320 ----

  /** Fetching and unpacking the package, and handing it to the deployment
      user. */
  function PrepareSteps(c: Config, packageFile: Option<string>): seq<Step> {
    FetchSteps(c, packageFile) + [Run(PermissionsCommand(c))]
  }

  /** The steps of the `try` block after the package is in place, phase by
      phase: the environment files and the JDBC driver, the schema script,
      the component files, and `install.sh`. */
  datatype InstallPlan = InstallPlan(configure: seq<Step>, schema: string, components: seq<Step>, install: string)

  /** The plan for a configuration; the environment files need the generated
      `install_env.sh`. */
  function PlanFor(c: Config, env: InstallEnv): InstallPlan {
    InstallPlan(EnvSteps(c, env) + [Run(JdbcCommand(c))], SchemaCommand(c), ComponentSteps(c), InstallCommand(c))
  }

  /** The plan, once `install_env.sh` could be generated; without an alert
      node it cannot. */
  function PlanOf(c: Config): (r: Result<InstallPlan>)
    ensures r.Ok? <==> InstallEnvOf(c).Ok?
    ensures r.Err? ==> r.error == InstallEnvOf(c).error
  {
    var env := InstallEnvOf(c);
    if env.Err? then Err(env.error) else Ok(PlanFor(c, env.value))
  }

  /** What a plan prescribes, phase by phase, on one host. */
  function PlanActsOf(host: string, p: InstallPlan): seq<Act> {
    PlanActs(host, p.configure) + ([Cmd(host, p.schema)] + (PlanActs(host, p.components) + [Cmd(host, p.install)]))
  }

  /** Steps 6 and 7: the component files, then `install.sh`. */
  function FinishPhase(o: Oracle, w: World, host: string, p: InstallPlan): Out<()> {
    var y := RunSteps(o, w, host, p.components);
    if y.result.Err? then y else RunInstall(o, y.world, host, p.install)
  }

  /** Steps 5 to 7: the database, then the component files and `install.sh`. */
  function DatabasePhase(o: Oracle, w: World, host: string, p: InstallPlan): Out<()> {
    var d := InitializeDatabase(o, w, host, p.schema);
    if d.result.Err? then d else FinishPhase(o, d.world, host, p)
  }

  /** Steps 3 to 7. */
  function ConfigurePhase(o: Oracle, w: World, host: string, p: InstallPlan): Out<()> {
    var g := RunSteps(o, w, host, p.configure);
    if g.result.Err? then g else DatabasePhase(o, g.world, host, p)
  }

  /** The `try` block on the open connection: the preparation steps, then
      the rest of the plan, or the error of generating `install_env.sh`. */
  function DeployBody(o: Oracle, w: World, host: string, prepare: seq<Step>, plan: Result<InstallPlan>): Out<()> {
    var f := RunSteps(o, w, host, prepare);
    if f.result.Err? then f
    else if plan.Err? then Out(f.world, Err(plan.error))
    else ConfigurePhase(o, f.world, host, plan.value)
  }

  /** Connecting, the body, and closing the connection in `finally`. */
  function DeployOn(o: Oracle, w: World, host: string, prepare: seq<Step>, plan: Result<InstallPlan>): Out<bool> {
    var conn := ConnectFrom(o, w, host, 0);
    if conn.result.Err? then Out(conn.world, Err(conn.result.error))
    else
      var b := DeployBody(o, conn.world, host, prepare, plan);
      AsTrue(Out(CloseSsh(b.world, host), b.result))
  }

  /** `deploy_dolphinscheduler_v320(config, package_file)`: the first master
      is read before anything else. */
  function DeploySpec(o: Oracle, w: World, c: Config, packageFile: Option<string>): Out<bool> {
    if Nodes(c, Master) == [] then Out(w, Err(IndexOutOfRange))
    else DeployOn(o, w, Nodes(c, Master)[0].host, PrepareSteps(c, packageFile), PlanOf(c))
  }

  method DeployDolphinScheduler(o: Oracle, w: World, c: Config, packageFile: Option<string>) returns (w': World, r: Result<bool>)
    ensures Out(w', r) == DeploySpec(o, w, c, packageFile)
    ensures Nodes(c, Master) == [] ==> w' == w && r == Err(IndexOutOfRange)
  {
    if Nodes(c, Master) == [] {
      return w, Err(IndexOutOfRange);
    }
    var host := Nodes(c, Master)[0].host;
    var u;
    w', u := GetSshConnection(o, w, host);
    if u.Err? {
      return w', Err(u.error);
    }
    var b := DeployBody(o, w', host, PrepareSteps(c, packageFile), PlanOf(c));
    w' := CloseSsh(b.world, host);
    r := if b.result.Err? then Err(b.result.error) else Ok(true);
  }

  lemma FinishPhaseActs(o: Oracle, w: World, host: string, p: InstallPlan)
    ensures var r := FinishPhase(o, w, host, p);
      Follows(w, r.world, r.result.Ok?, PlanActs(host, p.components) + [Cmd(host, p.install)])
  {
    var y := RunSteps(o, w, host, p.components);
    RunStepsActs(o, w, host, p.components);
    if y.result.Err? {
      FollowsStop(w, y.world, PlanActs(host, p.components), [Cmd(host, p.install)]);
    } else {
      var i := RunInstall(o, y.world, host, p.install);
      EmitActs(y.world, Exec(host, p.install, Answer(o, y.world, host, p.install).exit));
      FollowsThen(w, y.world, i.world, i.result.Ok?, PlanActs(host, p.components), [Cmd(host, p.install)]);
    }
  }

  /** The phases run in order and stop at the first that raises; the schema
      script's failure does not stop them. */
  lemma ConfigurePhaseActs(o: Oracle, w: World, host: string, p: InstallPlan)
    ensures var r := ConfigurePhase(o, w, host, p);
      Follows(w, r.world, r.result.Ok?, PlanActsOf(host, p))
  {
    var a := PlanActs(host, p.configure);
    var rest := [Cmd(host, p.schema)] + (PlanActs(host, p.components) + [Cmd(host, p.install)]);
    var g := RunSteps(o, w, host, p.configure);
    RunStepsActs(o, w, host, p.configure);
    if g.result.Err? {
      FollowsStop(w, g.world, a, rest);
    } else {
      var d := DatabasePhase(o, g.world, host, p);
      DatabasePhaseActs(o, g.world, host, p);
      FollowsThen(w, g.world, d.world, d.result.Ok?, a, rest);
    }
  }

  /** The database step, then the rest, stopping at the first that raises. */
  lemma DatabasePhaseActs(o: Oracle, w: World, host: string, p: InstallPlan)
    ensures var r := DatabasePhase(o, w, host, p);
      Follows(w, r.world, r.result.Ok?, [Cmd(host, p.schema)] + (PlanActs(host, p.components) + [Cmd(host, p.install)]))
  {
    var b := [Cmd(host, p.schema)];
    var rest := PlanActs(host, p.components) + [Cmd(host, p.install)];
    var d := InitializeDatabase(o, w, host, p.schema);
    InitializeDatabaseOutcome(o, w, host, p.schema);
    if d.result.Err? {
      FollowsStop(w, d.world, b, rest);
    } else {
      var f := FinishPhase(o, d.world, host, p);
      FinishPhaseActs(o, d.world, host, p);
      FollowsThen(w, d.world, f.world, f.result.Ok?, b, rest);
    }
  }

  /** On the open connection the steps run in their fixed order and stop at
      the first that raises: what was done is a prefix of the preparation
      steps followed by the plan, all of it on success. Without a plan the
      body raises after the preparation steps. */
  lemma DeployBodyActs(o: Oracle, w: World, host: string, prepare: seq<Step>, plan: Result<InstallPlan>)
    ensures var r := DeployBody(o, w, host, prepare, plan);
      (plan.Ok? ==> Follows(w, r.world, r.result.Ok?, PlanActs(host, prepare) + PlanActsOf(host, plan.value))) &&
      (plan.Err? ==> r.result.Err? && Follows(w, r.world, false, PlanActs(host, prepare)))
  {
    var f := RunSteps(o, w, host, prepare);
    RunStepsActs(o, w, host, prepare);
    if plan.Ok? {
      if f.result.Err? {
        FollowsStop(w, f.world, PlanActs(host, prepare), PlanActsOf(host, plan.value));
      } else {
        var r := ConfigurePhase(o, f.world, host, plan.value);
        ConfigurePhaseActs(o, f.world, host, plan.value);
        FollowsThen(w, f.world, r.world, r.result.Ok?, PlanActs(host, prepare), PlanActsOf(host, plan.value));
      }
    }
  }

  /** After the connection attempts, everything done is a prefix of the plan
      on that host (all of it when the call returns True), and an opened
      connection is closed last; no connection raises before any step. */
  lemma DeployOnActs(o: Oracle, w: World, host: string, prepare: seq<Step>, plan: Result<InstallPlan>)
    ensures var conn := ConnectFrom(o, w, host, 0);
      var r := DeployOn(o, w, host, prepare, plan);
      (conn.result.Err? ==> r == Out(conn.world, Err(conn.result.error))) &&
      (conn.result.Ok? ==> Extends(conn.world, r.world) && r.world.trace[|r.world.trace| - 1] == Close(host)) &&
      (conn.result.Ok? && plan.Ok? ==>
        Follows(conn.world, r.world, r.result.Ok?, PlanActs(host, prepare) + PlanActsOf(host, plan.value))) &&
      (conn.result.Ok? && plan.Err? ==> r.result.Err? && Follows(conn.world, r.world, false, PlanActs(host, prepare)))
  {
    var conn := ConnectFrom(o, w, host, 0);
    if conn.result.Ok? {
      var b := DeployBody(o, conn.world, host, prepare, plan);
      DeployBodyActs(o, conn.world, host, prepare, plan);
      var v := CloseSsh(b.world, host);
      EmitActs(b.world, Close(host));
      var acts := if plan.Ok? then PlanActs(host, prepare) + PlanActsOf(host, plan.value) else PlanActs(host, prepare);
      FollowsQuiet(conn.world, b.world, v, b.result.Ok? && plan.Ok?, acts);
    }
  }
}
