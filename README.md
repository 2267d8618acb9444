# DolphinScheduler on EC2 — a verified model of the deployment CLI

The modelled program is a command-line tool that creates, scales and deletes an Apache DolphinScheduler cluster (masters, workers, API servers and one alert server) on Amazon EC2.

- **Create.** `create_cluster` provisions the instances role by role and waits for SSH. It prepares every node (packages, deployment user, SSH keys, hosts file), installs DolphinScheduler 3.2.0 through the first master and starts the services. A failure rolls back every instance the run created.
- **Scale.** `scale_cluster` grows a role by launching instances and appending them to the configuration. It shrinks a role by stopping and terminating the tail of its node list.
- **Delete.** `delete_cluster` stops the services, removes the managed load balancer and its target groups, then terminates the cluster's instances. `cleanup_by_tags` does the same for everything tagged `ManagedBy=dolphinscheduler-cli`.
- **Around these commands:**
  - a configuration validator that accumulates all violations;
  - the masking of secrets for logs;
  - configuration load/save, versioned backups and change classification;
  - the generated configuration files (`application.yaml`, `install_env.sh`, `common.properties`);
  - thin wrappers over SSH, EC2 and Elastic Load Balancing.

The model is organised as follows.

- **The world.** Everything outside the process is a value, `Env.World`. It holds:
  - a trace of the events the program caused: remote commands, pauses, AWS calls, local actions, saved files;
  - the cloud inventory: instances with tags and states, load balancers, target groups.

  Every answer from outside (an SSH connect, a command's exit status and output, an AWS call that fails, an open port, a health state, the order in which parallel work completes) comes from an `Env.Oracle`, indexed by the position in the trace. A function that threads the world is therefore deterministic, and a lemma proved for it holds for every oracle, that is, for every behaviour of the outside world.
- **Code style.**
  - Straight-line code is a function.
  - Code that loops is a method with loop invariants, proved equal to a specification function.
  - Objects whose methods update fields are classes: the rollback ledger `Create.DeploymentState` and `ConfigStore.ConfigVersionManager`.
- **Worlds.** `Sessions.Follows(w, v, ok, plan)` says that the run from `w` to `v` left the cloud alone and made a prefix of the planned remote acts, all of them when it succeeded. Most lemmas about the SSH layers are stated this way.
- **Collaborators.** Parts of the program that do not link up in the repository are parameters, each tied by a binding function to the modelled code where that code exists:
  - `Create.Collaborators`: deploy and start;
  - `Scale.Tools`: instance creation, SSH wait, node initialization, hosts file;
  - `Delete.StopFn`: the service stop.

## Model

| member | source | states |
|---|---|---|
| Values.LookupSpec | src/utils/validator.py:26-27 | `key in d` holds iff the key is among the dict's keys, and `d[key]` is the value stored under its first occurrence |
| Values.Get | src/utils/validator.py:72 | `d.get(key, default)` succeeds iff `d` is a dict, gives the value stored under the key's first occurrence when present and the default when absent, and raises AttributeError on a non-dict |
| Values.Len | src/utils/validator.py:129 | `len(v)` is defined exactly for strings, lists and dicts (TypeError otherwise) and is zero iff the value is falsy |
| Values.LessThan | src/utils/validator.py:109 | `count < bound` compares integers as they are and booleans as 0 and 1, and raises TypeError for every other kind |
| Logger.MaskDict | src/utils/logger.py:80-85 | a masked dict keeps its keys in order; a key containing password/secret/key/token/credential (any case) gets `***MASKED***`, every other value is masked recursively |
| Logger.MaskList | src/utils/logger.py:86-87 | a list is masked element by element and keeps its length |
| Logger.MaskScalar | src/utils/logger.py:88-89 | anything that is neither a dict nor a list comes back unchanged |
| Logger.MaskAccessKey | src/utils/logger.py:78-82 | the match is on the lower-cased key: `AWS_Access_KEY` is masked |
| Logger.MaskIdempotent | src/utils/logger.py:68-89 | masking an already masked payload changes nothing |
| Validator.WalkStopsAtNonDict | src/utils/validator.py:25-29 | once the walk reaches a non-dict, any further segment gives None |
| Validator.WalkMissingSegment | src/utils/validator.py:25-29 | a missing key part-way down a path makes the whole lookup None, whatever follows |
| Validator.WalkConcat | src/utils/validator.py:23-30 | a lookup along `a.b` is a lookup along `a` followed by one along `b` |
| Validator.GetNestedValue | src/utils/validator.py:12-30 | the loop over the split path returns the value the dot path names, None as soon as a segment is missing or an intermediate value is not a dict |
| Validator.RequiredFieldsSplit | src/utils/validator.py:49-67 | each required field's dotted name splits back into exactly its segments, so the loop looks up the intended path |
| Validator.RequiredFieldsDotFree | src/utils/validator.py:49-64 | no segment of a required field contains a dot |
| Validator.RequiredFieldStep | src/utils/validator.py:66-69 | one turn of the loop appends a "missing" error for the field iff its value is None or an empty string or list |
| Validator.RequiredFieldErrors | src/utils/validator.py:66-69 | the required-field loop reports the missing fields, in the listed order |
| Validator.MissingFieldReportedIff | src/utils/validator.py:66-69 | a field is reported iff it is one of the listed fields and is missing |
| Validator.NoMissingIff | src/utils/validator.py:66-69 | the loop reports nothing iff no listed field is missing |
| Validator.MissingOnlyWhenEmpty | src/utils/validator.py:68 | a 0, a False or an empty dict is not missing; None, an empty string and an empty list are |
| Validator.GetChain | src/utils/validator.py:72 | a chain of `.get(k, {})` calls raises only AttributeError (a step on a non-dict) |
| Validator.StorageType | src/utils/validator.py:72 | absent storage or a storage block without `type` gives LOCAL; a string type comes back the same up to case and with no lower-case letter; a non-dict configuration or storage block, or a non-string type, raises AttributeError, and nothing else is raised |
| Validator.StorageErrors | src/utils/validator.py:74-95 | the storage rules report only the HDFS namenode host/port and the S3 bucket, region and credentials errors, raise only AttributeError |
| Validator.LocalStorageAddsNothing | src/utils/validator.py:72-95 | with the type LOCAL (the default) the storage rules add no error |
| Validator.PackageErrors | src/utils/validator.py:97-105 | package distribution reports only the package bucket and region errors |
| Validator.CountErrors | src/utils/validator.py:107-118 | a replica rule reports only its own count error; it raises only AttributeError or TypeError |
| Validator.CountErrorsIff | src/utils/validator.py:107-118 | a replica rule reports iff the count (0 when absent) compares below its minimum (2 masters, 1 api, 1 worker) |
| Validator.AzSet | src/utils/validator.py:123 | the zone set holds only truthy, hashable zone values, a bool stored as the integer it equals in Python; the comprehension raises only AttributeError or TypeError |
| Validator.AzSetMembers | src/utils/validator.py:123 | the set holds exactly the truthy zones of the nodes, under Python's equality |
| Validator.OneAndTrueAreOneZone | src/utils/validator.py:123 | zones written `1` and `true` make one zone, as `1 == True` in Python |
| Validator.NodesAzSet | src/utils/validator.py:121-123 | iterating a non-list `nodes` value raises AttributeError or TypeError, as Python would |
| Validator.AzSetErrSticky | src/utils/validator.py:123 | once the comprehension has raised, later nodes change nothing |
| Validator.CollectAzs | src/utils/validator.py:123 | the loop over the master nodes computes the comprehension's set, or its exception |
| Validator.AzErrors | src/utils/validator.py:120-125 | the zone rule reports only the master-zones error |
| Validator.AzErrorsIff | src/utils/validator.py:120-125 | the zone rule reports iff master nodes are listed and fewer than two distinct truthy zones, distinct under Python's equality, appear among them |
| Validator.MasterAzErrors | src/utils/validator.py:120-125 | the zone rule computed with a loop agrees with its definition |
| Validator.SubnetErrors | src/utils/validator.py:127-130 | the subnet rule reports only the subnet error |
| Validator.SubnetErrorsIff | src/utils/validator.py:127-130 | the subnet rule reports iff fewer than two subnets are listed |
| Validator.Rule | src/utils/validator.py:46-130 | rule k yields only violations of rank k, so the rules cannot report each other's errors |
| Validator.RulesRanked | src/utils/validator.py:46-130 | every rule of the configuration is ranked |
| Validator.StageOk | src/utils/validator.py:46-130 | a run that does not raise is made of rules none of which raised |
| Validator.StageMember | src/utils/validator.py:46-130 | with ranked rules, a violation is reported iff its own rule reports it; errors accumulate and none is dropped |
| Validator.StageEmpty | src/utils/validator.py:46-132 | the run reports nothing iff each rule runs and reports nothing |
| Validator.StageErr | src/utils/validator.py:46-130 | a run that raises raises the exception of its first raising rule, all earlier rules having run |
| Validator.ConfigErrorsInOrder | src/utils/validator.py:46-130 | the checks run in the source's order: required fields, storage, package distribution, master, api and worker counts, master zones, subnets |
| Validator.CollectViolations | src/utils/validator.py:46-130 | the straight-line checks appending to one list compute exactly the accumulated violations |
| Validator.ReportedByItsRule | src/utils/validator.py:46-130 | a violation is in the final list iff the rule it belongs to reports it |
| Validator.RequiredReportedIff | src/utils/validator.py:49-69 | a required field is reported iff it is missing, whatever the other rules do |
| Validator.ValidIffRulesClean | src/utils/validator.py:132-136 | `validate_config` returns True iff every rule runs and reports nothing |
| Validator.ValueErrorIffReported | src/utils/validator.py:132-133 | the ValueError is raised iff some violation was collected |
| Validator.CrashKinds | src/utils/validator.py:72-130 | the only exceptions the rules themselves raise are AttributeError and TypeError |
| Validator.ValidateConfig | src/utils/validator.py:33-136 | `validate_config` raises the first crash, raises ValueError when anything was collected, and returns True iff nothing was |
| ConfigStore.LoadConfig | src/config.py:14-33 | loading fails with FileNotFoundError iff the file does not exist, and otherwise gives the stored document |
| ConfigStore.SaveConfig | src/config.py:36-50 | after saving, loading the file gives the saved document back, and every other file is as it was |
| ConfigStore.AnalyzeConfigDiff | src/config.py:126-164 | the loop over the changed values computes the classification `Analyze` defines |
| ConfigStore.SelectAppend | src/config.py:148-162 | one more changed value lands at the end of its own list and leaves the other lists alone |
| ConfigStore.SelectMembers | src/config.py:148-162 | an entry is in a kind's list iff it is among the changed values and has that kind |
| ConfigStore.AnalyzeSpec | src/config.py:139-164 | the jvm, service and cluster lists hold exactly the entries of their kind, in diff order (a path mentioning both `jvm` and `cluster` counts as jvm); a restart is required iff some entry is a jvm or service_config change |
| ConfigStore.SelectShares | src/config.py:148-162 | the three per-kind selections together hold each entry at most as often as the diff does |
| ConfigStore.AnalyzeKeepsEntries | src/config.py:148-162 | each classified entry keeps its path and both values; entries of no kind are dropped; the three lists together are a sub-multiset of the diff, so none is duplicated and they are no longer than the diff |
| ConfigStore.RemoveAllAbsent | src/config.py:96 | `str.replace` of a pattern that does not occur gives the string back |
| ConfigStore.TimestampOfBackupName | src/config.py:79-96 | a backup file written for a timestamp matches `config_*.yaml`, and `list_versions` reads the same timestamp back from its name |
| ConfigStore.ClockTimestampsAreClean | src/config.py:78 | a `%Y%m%d_%H%M%S` timestamp never contains `config_` |
| ConfigStore.BackupNameInjective | src/config.py:79 | two timestamps give the same backup file only if they are equal |
| ConfigStore.InsertDescMultiset | src/config.py:92 | inserting into the listing adds exactly the one name |
| ConfigStore.InsertDescBounded | src/config.py:92 | inserting keeps every name below a common upper bound |
| ConfigStore.InsertDescSorted | src/config.py:92 | inserting into a newest-first listing keeps it newest first |
| ConfigStore.SortDescSpec | src/config.py:92 | `sorted(..., reverse=True)` gives the names newest (greatest) first, and the same names |
| ConfigStore.GlobNamesMembers | src/config.py:92 | the glob keeps exactly the names of the directory that match `config_*.yaml` |
| ConfigStore.Versions | src/config.py:93-100 | one version is listed per matching backup file |
| ConfigStore.VersionsSpec | src/config.py:85-100 | `list_versions` lists every matching backup once, newest first, each with its path, the timestamp taken from its name and the size of that file |
| ConfigStore.BackupListed | src/config.py:67-100 | after a successful backup the listing is non-empty and shows the new backup under its timestamp, with the size of the copied configuration |
| ConfigStore.RollbackRestoresVersion | src/config.py:102-123 | rolling back to a version taken in an earlier second restores that version's content |
| ConfigStore.SameSecondRollbackKeepsCurrent | src/config.py:117-121 | rolling back to a version taken in the same second as the rollback restores nothing: the pre-rollback backup overwrites that version's file first, so the current configuration stays |
| ConfigStore.ConfigVersionManager.constructor | src/config.py:56-65 | the manager starts with the given backup directory, configuration file and existing backups |
| ConfigStore.ConfigVersionManager.BackupCurrentConfig | src/config.py:67-83 | with no configuration file nothing is written and None is returned; otherwise the file is copied to `config_{now}.yaml`, that path is returned and the configuration is unchanged |
| ConfigStore.ConfigVersionManager.RollbackToVersion | src/config.py:102-123 | a missing backup raises ValueError and changes nothing; otherwise the current configuration is backed up, the requested backup is copied over the configuration file and True is returned |
| Ssh.FirstExistingSpec | src/deploy/ssh.py:30-34 | the search returns the first default path that exists, and raises FileNotFoundError exactly when none does |
| Ssh.GetSshKeyPath | src/deploy/ssh.py:13-34 | a non-empty `SSH_KEY_PATH` wins; otherwise `~/.ssh/id_rsa` then `~/.ssh/id_ed25519`; the lookup fails iff the variable is unset or empty and neither file exists |
| Ssh.ConnectWithKey | src/deploy/ssh.py:53-69 | the key's mode is set first, so a missing key file raises before any attempt; otherwise one connection attempt is made, and the call succeeds iff the key exists and the host accepts |
| Ssh.ConnectSsh | src/deploy/ssh.py:37-69 | without a key file the key is resolved first and its error is raised with nothing attempted; a success records one accepted connection |
| Ssh.ExecuteRemoteCommand | src/deploy/ssh.py:106-134 | the command, wrapped in `sudo bash -c '…'` when asked, is issued once; it raises with the standard error text iff the exit status is non-zero, and otherwise returns the standard output |
| Ssh.UploadFile | src/deploy/ssh.py:137-170 | one SFTP transfer is recorded with its outcome; the content lands and True is returned iff it goes through, and otherwise the transfer error is raised |
| Ssh.ExecuteScript | src/deploy/ssh.py:195-224 | the script is written to `/tmp/script_<time>.sh`; a failed write raises the transfer error before anything else is issued, since it comes before the `try` (no chmod, run or removal); then the file is made executable (a failure there raises before anything runs), run, and removed whether or not the run raised; the call succeeds iff the write goes through and all three commands exit 0, and returns the script's output |
| Ssh.ScriptAlwaysRemoved | src/deploy/ssh.py:210-224 | a failed write of the script issues nothing after it; once the script was written and made executable exactly four things happen and the removal is the last command issued, whatever the run's exit status |
| Ssh.Failures | src/deploy/ssh.py:95-98 | `j` failed attempts leave two events each: the refused connection and the pause |
| Ssh.WaitForSsh | src/deploy/ssh.py:72-103 | the retry loop computes the outcome and trace `WaitForSshOutcome` characterises |
| Ssh.WaitAttemptsSucceed | src/deploy/ssh.py:89-98 | when attempt `j` is the first to connect, the trace is `j` failures with their pauses, then the connection and its close, and the answer is True |
| Ssh.WaitAttemptsExhausted | src/deploy/ssh.py:89-101 | when no attempt connects, the last refused attempt is followed by no pause and the answer is False |
| Ssh.WaitAttemptsMissingKey | src/deploy/ssh.py:89-101 | with a key path naming a missing file every attempt raises before connecting, so the attempts only pause between each other and the last returns False |
| Ssh.WaitForSshOutcome | src/deploy/ssh.py:72-103 | `wait_for_ssh` never raises once its key path is resolved; with an existing key file it returns True iff one of the `max_retries` attempts connects, stops at the first one that does and sleeps after every refused attempt but the last; with a key path naming a missing file it returns False after `max_retries - 1` pauses and no connection; with no retries it returns False touching nothing |
| Sessions.PlanActsIndexwise | src/deploy/service_manager.py:135-148 | a host's plan prescribes one act per step, in step order |
| Sessions.PlanActsAppend | src/deploy/service_manager.py:135-148 | the plan of two step lists run in turn is the two plans in turn |
| Sessions.RunStepsAppend | src/deploy/service_manager.py:137-146 | running two step lists in turn is running the first and, only if it got through, the second from where it left off |
| Sessions.RunStepsActs | src/deploy/service_manager.py:137-146 | the commands issued inside one `try` are a prefix of the plan, all of it when no step (command or upload) raised, and nothing in the cloud changes |
| Sessions.SessionActs | src/deploy/service_manager.py:136-148 | a session issues a prefix of its plan, all of it on success; when the connection opened, it is the first event and its close the last, whatever the plan did; when it did not, nothing is issued |
| Sessions.OnHosts | src/deploy/service_manager.py:135-148 | the loop over the nodes runs one session per host, in order, and re-raises the first failure |
| Sessions.OnHostsActs | src/deploy/service_manager.py:135-148 | over several hosts the commands issued are a prefix of the hosts' plans in order, all of them on success |
| Sessions.OnHostsStopsAtFailure | src/deploy/service_manager.py:144-146 | once a host fails the hosts after it are never contacted |
| Services.HdfsAddressDefaults | src/deploy/service_manager.py:47-51 | with nothing fetched from the HDFS cluster and no name node configured, the address is `hdfs://localhost:8020` |
| Services.ApplyHdfsConfigToApiServers | src/deploy/service_manager.py:12-113 | the per-API-server loop computes the run `ApplyHdfsActs` characterises |
| Services.ApplyHdfsActs | src/deploy/service_manager.py:54-102 | every API server gets the same `common.properties` patch naming the fetched (or else the configured) HDFS address and is restarted after it, with the pauses between; a failure stops the rest |
| Services.StartServices | src/deploy/service_manager.py:116-208 | the start sequence computes the run `StartServicesActs` characterises |
| Services.StartWorkersActs | src/deploy/service_manager.py:154-208 | from the workers on, the run follows the rest of the start order |
| Services.StartApisActs | src/deploy/service_manager.py:170-208 | from the API servers on, the run follows the rest of the start order |
| Services.StartTailActs | src/deploy/service_manager.py:186-208 | the HDFS patch (when the storage type is HDFS, in any letter case) and then the alert server; without an alert node the run fails |
| Services.StartServicesActs | src/deploy/service_manager.py:116-208 | `start_services` does a prefix of the start order, all of it when it returns True: every master with a 5 s pause, a 10 s settling pause, every worker and every API server with a 3 s pause, the HDFS patch when configured, then the alert server; a cluster with no alert node fails |
| Services.StopServices | src/deploy/service_manager.py:211-277 | the stop sequence computes the run `StopServicesActs` characterises |
| Services.StopApisActs | src/deploy/service_manager.py:240-277 | from the API servers on, the run follows the rest of the stop order |
| Services.StopWorkersActs | src/deploy/service_manager.py:252-277 | from the workers on, the run follows the rest of the stop order |
| Services.StopServicesActs | src/deploy/service_manager.py:211-277 | `stop_services` does a prefix of the stop order (alert, API servers, workers, masters), all of it when it returns True; with no alert node it raises IndexError before any remote call |
| Services.StatusOn | src/deploy/service_manager.py:302-320 | a failed connection propagates; a failing status command reports the daemon as not running; otherwise it runs iff the lower-cased output contains `running`; the cloud is untouched |
| Services.StatusesStep | src/deploy/service_manager.py:302-320 | one turn of the status loop appends this host's entry, or propagates its connection failure |
| Services.StatusesOf | src/deploy/service_manager.py:302-320 | the status loop over one role's nodes computes its specification |
| Services.StatusesShape | src/deploy/service_manager.py:302-320 | the loop reports one entry per host, in host order, each naming its host, and changes nothing in the cloud |
| Services.CheckServiceStatus | src/deploy/service_manager.py:280-385 | the four status loops compute the report `CheckServiceStatusShape` characterises |
| Services.CheckServiceStatusShape | src/deploy/service_manager.py:280-385 | the report has one entry per configured master, worker and API node, in node order, and one for the first alert node alone; a report exists only if there is an alert node |
| Services.RestartServiceActs | src/deploy/service_manager.py:388-427 | a restart stops the daemon, pauses 5 s and starts it, and does not start it when the stop failed |
| Services.RollingRestartComponent | src/deploy/service_manager.py:430-457 | the rolling loop computes the run `RollingRestartActs` characterises |
| Services.GapActs | src/deploy/service_manager.py:452-454 | the pause comes between two restarts and not after the last |
| Services.RollingFromActs | src/deploy/service_manager.py:447-454 | from node `i` on, the run follows the remaining restarts and pauses |
| Services.RollingRestartActs | src/deploy/service_manager.py:430-457 | `rolling_restart_component` restarts the role's nodes in list order, waiting 30 s between consecutive restarts and not after the last; a failed restart stops the roll |
| Installer.GetSshConnection | src/deploy/installer.py:240-256 | the retry loop computes the outcome `GetSshConnectionOutcome` characterises |
| Installer.Pauses | src/deploy/installer.py:251-252 | `n` pauses of five seconds |
| Installer.ConnectAttemptActs | src/deploy/installer.py:244-248 | one attempt issues the connection test only when it connected, and changes nothing in the cloud |
| Installer.PauseBefore | src/deploy/installer.py:249-252 | a failed attempt leaves no act, so what follows it is its pause and then the later attempts |
| Installer.ConnectFromActs | src/deploy/installer.py:243-254 | from a given attempt on, success comes after some failed attempts with one pause each and then the test; when all fail there is a pause between two attempts, none after the last, and it raises "failed to establish SSH connection" |
| Installer.GetSshConnectionOutcome | src/deploy/installer.py:240-256 | at most three attempts; success after `k` failures has paused `k` times, and giving up raises after exactly two five-second pauses |
| Installer.FilesStepsAt | src/deploy/installer.py:104-128 | the remaining files are placed one at a time, stopping at the first that raises |
| Installer.PlaceFiles | src/deploy/installer.py:104-150 | the loop over the generated files uploads, moves and chowns each in turn and stops at the first step that raises |
| Installer.UploadConfigurationFiles | src/deploy/installer.py:155-217 | `install_env.sh` and then `dolphinscheduler_env.sh` are uploaded, moved to `bin/env`, chowned and made executable, stopping at the first step that raises |
| Installer.ConfigureComponents | src/deploy/installer.py:81-152 | the application.yaml of master, worker, api and alert, then the tools one (generated as for master), are placed in turn |
| Installer.InitializeDatabaseOutcome | src/deploy/installer.py:24-78 | an unreachable database raises "cannot connect to database" before any remote command; otherwise the schema script is issued and the call returns True whatever the script did |
| Installer.RunInstall | src/deploy/installer.py:285-293 | `install.sh` is issued once; a failure is re-raised as a failed installation carrying the command's error |
| Installer.PlanOf | src/deploy/installer.py:271-293 | the installation plan exists iff `install_env.sh` can be generated, and otherwise fails with its error |
| Installer.DeployDolphinScheduler | src/deploy/installer.py:220-299 | the deployment computes its specification; with no master node it raises IndexError before touching anything |
| Installer.FinishPhaseActs | src/deploy/installer.py:279-293 | the component files and then `install.sh`, stopping at the first that raises |
| Installer.DatabasePhaseActs | src/deploy/installer.py:276-293 | the database step, then the component files and `install.sh`, stopping at the first that raises; only an unreachable database stops the run at the database step |
| Installer.ConfigurePhaseActs | src/deploy/installer.py:270-293 | the phases run in their fixed order and stop at the first that raises; a failing schema script does not stop them |
| Installer.DeployBodyActs | src/deploy/installer.py:258-296 | on the open connection what was done is a prefix of the preparation steps followed by the plan, all of it on success; without a plan the body raises after the preparation steps |
| Installer.DeployOnActs | src/deploy/installer.py:256-299 | no connection raises before any step; otherwise everything done is a prefix of the plan on the first master, all of it when True is returned, and the connection is closed last |
| NodeInit.ChosenScript | src/deploy/node_initializer.py:33-130 | the dnf script iff `/etc/os-release` mentions Amazon Linux, otherwise the apt script iff it mentions Ubuntu, otherwise "Unsupported OS" carrying the text read |
| NodeInit.ScriptUploads | src/deploy/node_initializer.py:132 | running a script uploads that script, and nothing else, to its host when the SFTP write goes through, and nothing when it raises |
| NodeInit.ConnectUploads | src/deploy/node_initializer.py:28 | a connection attempt uploads nothing |
| NodeInit.InstallOnUploads | src/deploy/node_initializer.py:30-135 | on the open connection, the chosen install script is the only upload, and it lands iff the OS is read, is supported and the write goes through; an unsupported OS raises "Unsupported OS", a failed write raises the transfer error, and the call succeeds only with a supported OS and a landed script |
| NodeInit.InitializeNodeOutcome | src/deploy/node_initializer.py:13-138 | `initialize_node` writes the install script of the detected OS to the host, Amazon Linux before Ubuntu, when the write goes through; any other OS raises "Unsupported OS" with no script written; a failed write raises with nothing landed; a failed connection raises with nothing uploaded; an opened connection is closed last |
| NodeInit.EnsureUserUploads | src/deploy/node_initializer.py:160-190 | an existing user ends the call with True after the `id` probe alone; otherwise the creation script for that user is the one upload when its write goes through, and a failed write uploads nothing and raises |
| NodeInit.CreateUserExisting | src/deploy/node_initializer.py:157-166 | a user `id` already finds means exactly connect, probe, close, and True |
| NodeInit.CreateUserOutcome | src/deploy/node_initializer.py:141-193 | a failed connection raises with nothing uploaded; a missing user gets the creation script for that user name as the one upload when the write goes through, and otherwise nothing lands and the transfer error is raised |
| NodeInit.UpdateHostsUploads | src/deploy/node_initializer.py:285-301 | a successful update uploads the one script that backs up `/etc/hosts` and appends the block |
| NodeInit.RunAll | src/deploy/node_initializer.py:333-334 | one outcome per submitted host |
| NodeInit.RunAllStep | src/deploy/node_initializer.py:333-334 | the units run in submission order, each from the world the previous one left |
| NodeInit.Batch | src/deploy/node_initializer.py:333-349 | the submission loop and the `as_completed` loop compute the batch's specification |
| NodeInit.FirstFailureFinds | src/deploy/node_initializer.py:338-347 | reading the outcomes in completion order finds a failure iff one failed, and re-raises the first failed in that order |
| NodeInit.BatchOutcome | src/deploy/node_initializer.py:333-349 | every unit runs whatever the others did; the batch succeeds iff every unit succeeded, and a failing batch raises the failure of the unit that completed first among the failed ones |
| NodeInit.RunAllGrows | src/deploy/node_initializer.py:333-334 | units that only add to the trace and keep the cloud make a batch that does the same |
| NodeInit.InitializeNodesParallel | src/deploy/node_initializer.py:319-349 | the batch of `initialize_node` calls computes its specification |
| NodeInit.CreateUsersParallel | src/deploy/node_initializer.py:352-378 | the batch of `create_deployment_user` calls computes its specification |
| NodeInit.InitializeNodesParallelOutcome | src/deploy/node_initializer.py:319-349 | every host is initialized even after one fails; True iff every `initialize_node` succeeded; an empty host list returns True touching nothing |
| NodeInit.CreateUsersParallelOutcome | src/deploy/node_initializer.py:352-378 | every host gets the user even after one fails; True iff every `create_deployment_user` succeeded; an empty host list returns True touching nothing |
| NodeInit.SetupSshKeys | src/deploy/node_initializer.py:196-258 | the key generation and the distribution batch compute their specification |
| NodeInit.KeyBatchActs | src/deploy/node_initializer.py:231-256 | when every unit succeeds, each host got the same append command, in host order |
| NodeInit.ReadPublicKeyActs | src/deploy/node_initializer.py:211-228 | on the first node the generate-or-read script is the only command, and the key is its stripped output |
| NodeInit.SetupSshKeysActs | src/deploy/node_initializer.py:196-258 | the public key is read on the first node only and, when True is returned, appended on every node, the first included, in node order; an empty node list raises IndexError before any connection |
| NodeInit.HostLines | src/deploy/node_initializer.py:278-280 | one `host hostname` line per node |
| NodeInit.HostsEntries | src/deploy/node_initializer.py:277-280 | the entry loop yields one line per node, in node order, the hostname defaulting to `ds-{component}-{index}` |
| NodeInit.HostsContentLines | src/deploy/node_initializer.py:282 | with no line break inside an entry, the joined block reads back as the node lines, in order |
| NodeInit.NodeHosts | src/deploy/node_initializer.py:304 | the hosts the batch is submitted to, in node order |
| NodeInit.ConfigureHostsFile | src/deploy/node_initializer.py:261-316 | the entry loop and the update batch compute their specification |
| NodeInit.Everywhere | src/deploy/node_initializer.py:303-304 | the same content once per host, in host order |
| NodeInit.RunAllUploads | src/deploy/node_initializer.py:303-314 | units that upload what is prescribed for their host make a batch that uploads all of it host by host, when every unit succeeded |
| NodeInit.HostsBatchUploads | src/deploy/node_initializer.py:303-314 | when every update succeeds, each host got the same hosts script |
| NodeInit.ConfigureHostsFileUploads | src/deploy/node_initializer.py:261-316 | when `configure_hosts_file` returns True, every node got the same block, the entries of all the nodes, appended to its `/etc/hosts` after a backup |
| ConfigGen.JdbcUrlDefaultPort | src/deploy/config_generator.py:26-27 | a database without a port is reached on MySQL's 3306, with the fixed connection parameters |
| ConfigGen.CommaListSplits | src/deploy/config_generator.py:30 | a comma-joined list of comma-free items reads back as the items, so the ZooKeeper connect string names each server; the worker groups of line 239 are joined the same way |
| ConfigGen.DatasourceOf | src/deploy/config_generator.py:21-27 | the datasource names the configured database's URL, user and password |
| ConfigGen.RegistryOf | src/deploy/config_generator.py:60-90 | the registry block is the configured ZooKeeper, each absent setting at its default (namespace `dolphinscheduler`, 1000/3000 ms sleeps, 5 retries, 60000/30000 ms timeouts); the defaults come from lines 22 and 30 |
| ConfigGen.StorageBlockFor | src/deploy/config_generator.py:92-135 | the storage section follows the upper-cased type: S3 and HDFS get their sections with defaults (`us-east-2`, the regional endpoint, `localhost:8020`, user `hadoop`), anything else, an absent type included, is local storage |
| ConfigGen.ApplicationYaml | src/deploy/config_generator.py:10-212 | a component's `application.yaml`: the datasource exactly for master, api and alert, the shared registry and storage, and the component's ports (master 5678, worker 1234, api the configured port or 12345, alert 50052) |
| ConfigGen.CommonPropertiesOf | src/deploy/config_generator.py:394-559 | `common.properties` carries the same storage choice and datasource as the YAML files; its registry type is always `zookeeper` (line 496), and every other registry setting is the configured one with the YAML defaults |
| ConfigGen.GeneratedFilesAgree | src/deploy/config_generator.py:10-559 | a component's `application.yaml`, `dolphinscheduler_env.sh` and `common.properties` name the same database, ZooKeeper servers and registry settings and choose the same storage; the registry types of `application.yaml` (line 76) and `common.properties` (line 496) differ exactly when the configured type is not `zookeeper` |
| ConfigGen.WorkerEntries | src/deploy/config_generator.py:237-241 | one `host:groups` entry per worker, in order |
| ConfigGen.InstallEnvLists | src/deploy/config_generator.py:215-319 | `install_env.sh` can be generated iff an alert node exists (else IndexError); `ips` lists the masters, workers, API servers and first alert node in that order, so every host in another list is in `ips`; each worker carries its groups, `default` when it has none |
| ConfigGen.CollectInstallEnv | src/deploy/config_generator.py:226-247 | the collecting loops compute the lists `InstallEnvLists` characterises |
| Ec2.Invoke | src/aws/ec2.py:136-141 | one boto3 call is recorded, changes nothing by itself, and raises exactly when the service refuses it; the same holds for the calls at lines 35 and 241 |
| Ec2.NewestAmong | src/aws/ec2.py:44-45 | the image picked is one of those listed |
| Ec2.NewestAmongSpec | src/aws/ec2.py:43-45 | the image picked has the latest creation date, and is the first listed among those with that date, since a reversed sort is stable |
| Ec2.GetAmiIdOutcome | src/aws/ec2.py:12-48 | any OS type but `al2023` raises ValueError before any call; otherwise one `describe_images` call, an empty answer raises ValueError, and the id returned is that of an image with the latest creation date |
| Ec2.BaseTagsDistinct | src/aws/ec2.py:87-92 | the base tags have four distinct keys |
| Ec2.BaseTagsGet | src/aws/ec2.py:84-92 | the base tags are Name `ds-{component}-{index}`, Component, Index as a decimal string and ManagedBy `dolphinscheduler-cli`, and nothing else |
| Ec2.InstanceTagsGet | src/aws/ec2.py:83-98 | in the merged tag set the base tags win over custom tags with the same key, every other custom key keeps its value, and the keys stay distinct |
| Ec2.LaunchOutcome | src/aws/ec2.py:111-146 | the launch succeeds iff `create_instances`, the wait and `reload` all go through; then exactly one instance was requested with min and max count 1, the same tags on instance and volume, the chosen subnet and type, and it joins the inventory running; a refused `create_instances` changes nothing, a failed wait leaves the instance pending and a failed reload leaves it running, neither rolled back |
| Ec2.CreateEc2InstanceOutcome | src/aws/ec2.py:51-146 | `create_ec2_instance` makes the `describe_images` call first and then launches with the image it chose; the inventory is not touched before the launch |
| Ec2.MatchingSpec | src/aws/ec2.py:167-172 | the filter keeps exactly the instances with that Name tag in one of the states, and yields first the first such in the inventory; `get_instance_by_tag` filters the same way at lines 260-265 |
| Ec2.MatchingNone | src/aws/ec2.py:174 | with no such instance the filter yields nothing |
| Ec2.IdempotentNamed | src/aws/ec2.py:149-180 | the lookup by name comes first, and any instance returned carries the name `ds-{component}-{index}` |
| Ec2.IdempotentFindsExisting | src/aws/ec2.py:174-177 | when an instance with that name is running or pending, it is returned and nothing is created |
| Ec2.IdempotentCreatesOnlyWhenAbsent | src/aws/ec2.py:179-180 | only when none is running or pending is a new one launched, right after the lookup |
| Ec2.LaunchFrom | src/aws/ec2.py:201-211 | one outcome per index submitted |
| Ec2.LaunchStep | src/aws/ec2.py:201-211 | the submission loop runs the units in index order, each from the world the previous one left |
| Ec2.CollectStep | src/aws/ec2.py:213-219 | one turn of the `as_completed` loop appends a completed instance or re-raises its failure |
| Ec2.SubmitAll | src/aws/ec2.py:201-211 | the submission loop computes one outcome per index, in index order |
| Ec2.CollectInOrder | src/aws/ec2.py:213-219 | the collecting loop computes the instances in completion order, or the first failure met |
| Ec2.CreateInstancesParallel | src/aws/ec2.py:183-221 | the two loops compute the outcome `CreateInstancesParallelOutcome` characterises |
| Ec2.LaunchFromUnits | src/aws/ec2.py:201-211 | every index's outcome is that of its own unit, reached from the worlds the earlier units left |
| Ec2.SubmittedUnits | src/aws/ec2.py:203-210 | each submitted unit only adds to the trace, and what it returns is named after its index |
| Ec2.LaunchFromNamed | src/aws/ec2.py:201-211 | a successful unit's instance is named after its index |
| Ec2.CollectSpec | src/aws/ec2.py:213-219 | reading the outcomes in completion order succeeds iff every one succeeded and yields their instances in that order; otherwise it raises the first failure met |
| Ec2.ParallelRunOutcome | src/aws/ec2.py:198-221 | the run succeeds iff every unit did; it then holds one instance per index, in completion order, each named after its index; a failure re-raises the failure of the first failed unit to complete |
| Ec2.ParallelRunWorld | src/aws/ec2.py:198-211 | the run leaves the world the last submitted unit left, which extends the starting world, and each index's outcome is its own unit's |
| Ec2.ParallelRunOkIff | src/aws/ec2.py:213-219 | the run succeeds exactly when every submitted unit succeeded |
| Ec2.CollectPermutationOk | src/aws/ec2.py:213-219 | reading the outcomes in any completion order that is a permutation of the indices succeeds exactly when every outcome succeeded |
| Ec2.ParallelRunValues | src/aws/ec2.py:213-221 | on success the list holds one instance per index, the j-th being the outcome of the j-th unit to complete, each named after its index |
| Ec2.ParallelRunSucceeds | src/aws/ec2.py:213-221 | success iff every unit succeeded, together with the contents and naming of the returned list |
| Ec2.ParallelRunFails | src/aws/ec2.py:215-219 | a failed run re-raises the failure of some unit, the first failed one in completion order |
| Ec2.CreateInstancesParallelOutcome | src/aws/ec2.py:183-221 | a count of zero or less does nothing; an empty subnet list raises (modulo by zero) before any call; otherwise index `i` runs the idempotent launch in subnet `i mod len(subnets)` |
| Ec2.CreateInstancesParallelResult | src/aws/ec2.py:183-221 | a successful run returns one instance per index, each named after an index below the count |
| Ec2.TerminateInstancesOutcome | src/aws/ec2.py:224-244 | an empty list returns True with no call; otherwise one call with exactly those ids, after which the listed instances and only they are shutting down (terminated ones stay terminated); a refused call changes nothing |
| Ec2.GetInstanceByTagOutcome | src/aws/ec2.py:247-267 | one lookup call; None iff no running instance has that name; otherwise the first running instance with that name |
| Ec2.ProbeFailures | src/aws/ec2.py:307-314 | `j` closed probes leave two events each: the probe and the pause |
| Ec2.WaitForServiceReady | src/aws/ec2.py:294-317 | the retry loop computes the trace `WaitForServiceReadyOutcome` characterises and answers whether the last probe found the port open |
| Ec2.ReadyAttemptsOpen | src/aws/ec2.py:307-314 | when probe `j` is the first to find the port open, the trace is `j` closed probes with their pauses and then the open probe |
| Ec2.ReadyAttemptsClosed | src/aws/ec2.py:307-317 | when no probe finds the port open, the last closed probe is followed by no pause |
| Ec2.WaitForServiceReadyOutcome | src/aws/ec2.py:294-317 | the service is reported ready iff one of the `max_retries` probes finds the port open; probing stops at the first that does; with no retries it returns False at once |
| Ec2.ReadyAttemptsEvents | src/aws/ec2.py:270-317 | a readiness wait only probes its own host and port, pauses the given interval between probes, and changes no cloud resource |
| Elb.AlbSubnets | src/aws/elb.py:30-34 | the configured load-balancer subnets, or else the ids of the first two subnets of `aws.subnets` (fewer when fewer are configured) |
| Elb.TargetGroupDefaults | src/aws/elb.py:59-76 | the group is `ds-api-tg` on port 12345 of the configured VPC; each of the five health-check settings is the configured one when present and its default otherwise (`/dolphinscheduler/actuator/health`, 30 s, 5 s, 2, 3) |
| Elb.RegisterAndListenOutcome | src/aws/elb.py:81-113 | registration and then the listener (port 80 by default) forwarding to the group; both must go through, and then the group forwards from the balancer and the three ARNs and the DNS name are returned |
| Elb.CreateAlbOutcome | src/aws/elb.py:11-113 | disabled (the default): None with no call; enabled: load balancer, target group, registration of one target per API instance, listener, in that order; the result is returned iff all four go through, and the inventory then holds the new balancer tagged `ManagedBy=dolphinscheduler-cli` and the group forwarding from it |
| Elb.GroupsNamed | src/aws/elb.py:129-131 | the description by name lists exactly the groups with that name |
| Elb.GetTargetGroupArnOutcome | src/aws/elb.py:116-138 | it never raises; None when the call fails or no group is named `ds-api-tg`, and otherwise the ARN of such a group |
| Elb.PollTargetHealth | src/aws/elb.py:177-196 | the polling loop shared by both waits computes the run `PollsOutcome` characterises; the health wait at lines 235-253 is the same loop |
| Elb.WaitForTargetDraining | src/aws/elb.py:162-196 | the draining wait polls every 5 s until the target settles as drained |
| Elb.WaitForTargetHealthy | src/aws/elb.py:220-253 | the health wait polls every 10 s until the target is healthy |
| Elb.Unsettled | src/aws/elb.py:192-193 | `j` polls that went on leave two events each: the description and the pause; likewise at lines 248-250 |
| Elb.PollsStep | src/aws/elb.py:177-193 | a poll that goes on leads, after its pause, to the next poll |
| Elb.PollsStopHere | src/aws/elb.py:183-190 | a poll that settles ends the wait with True; a failing description call raises; likewise at lines 241-246 |
| Elb.PollsStopAt | src/aws/elb.py:177-193 | when the first polls go on and poll `j` does not, the wait stops at poll `j` |
| Elb.PollsTimeOut | src/aws/elb.py:195-196 | when every poll goes on, the wait returns False after the last pause; likewise at lines 252-253 |
| Elb.PollsOutcome | src/aws/elb.py:162-253 | a wait returns True iff some poll settles before any raises, raises iff some description fails before any settles, and otherwise returns False after every poll and its pause; the cloud never changes |
| Elb.SettledStates | src/aws/elb.py:183-188 | draining settles on an empty description or `unused` and nothing else; health settles only on `healthy`, so an empty description keeps that poll going; the health states are read at lines 241-244 |
| Create.DeploymentState.constructor | src/commands/create.py:97-102 | a new ledger has no created instance and no initialized node |
| Create.DeploymentState.AddInstance | src/commands/create.py:104-105 | the instance is appended to the created list; the other list is unchanged |
| Create.DeploymentState.AddInitializedNode | src/commands/create.py:107-108 | the host is appended to the initialized list; the other list is unchanged |
| Create.DeploymentState.AddInstances | src/commands/create.py:162-163 | the loop after a batch appends the batch's instances, in order |
| Create.DistributeNodesAcrossAzs | src/commands/create.py:111-130 | `count` entries (none for a count below 1), entry `i` in subnet `i mod len(subnets)`; with no subnets a positive count fails with modulo by zero |
| Create.NodeRecords | src/commands/create.py:331-344 | one node record per instance, in order |
| Create.BuildNodes | src/commands/create.py:330-344 | one role's node list is rebuilt from empty, one record per instance |
| Create.UpdateConfigWithInstances | src/commands/create.py:321-344 | the loop over the batches computes the configuration `UpdatedNodes` characterises |
| Create.UpdatedNodes | src/commands/create.py:321-344 | each role with a batch gets exactly the records of its batch's instances, replacing what was there; roles without a batch, every count and instance type, and everything outside `cluster` are untouched |
| Create.LastForOnly | src/commands/create.py:329 | with one batch per role, a role's batch is the one its nodes are rebuilt from |
| Create.LastForAbsent | src/commands/create.py:329 | a role with no batch keeps its nodes |
| Create.NodeRecordGroups | src/commands/create.py:332-342 | a record carries the private IP, SSH port 22, the instance id, subnet and zone; worker records, and only they, carry the `default` group |
| Create.PrivateIps | src/commands/create.py:210-211 | one private IP per instance, in order |
| Create.BatchRecords | src/commands/create.py:241-247 | the records of one batch: host, component, index and `ds-{component}-{i}` |
| Create.AppendIps | src/commands/create.py:210-211 | the inner loop appends the batch's private IPs in order |
| Create.CollectHosts | src/commands/create.py:208-211 | `all_hosts` lists every instance's private IP, batch by batch in role order |
| Create.AppendRecords | src/commands/create.py:241-247 | the inner loop appends the batch's records in order |
| Create.CollectNodes | src/commands/create.py:239-247 | `all_nodes` lists every instance's record, batch by batch in role order |
| Create.ClusterNodesHosts | src/commands/create.py:208-247 | the hosts of `all_nodes` are `all_hosts`, in the same order |
| Create.RollbackDeployment | src/commands/create.py:347-365 | the rollback terminates what the ledger recorded, as `RollbackOutcome` characterises |
| Create.RollbackOutcome | src/commands/create.py:347-365 | an empty ledger is a no-op; otherwise one terminate call naming every created instance, in creation order, and nothing else |
| Create.WaitForSshParallel | src/commands/create.py:22-42 | the batch of `wait_for_ssh` calls computes its specification |
| Create.WaitForSshParallelOutcome | src/commands/create.py:22-42 | the step passes iff every host's wait answered True; each host runs `wait_for_ssh` with its defaults (30 attempts, 10 s) |
| Create.SshReadyOutcome | src/commands/create.py:36-42 | a host's unit passes iff its wait answered True; False raises "SSH not available on" that host, and an error is passed on |
| Create.TrackedBatch | src/commands/create.py:56-71 | a batch whose `as_completed` loop records, in completion order, each host read without an error, until the first that raises |
| Create.ReadCompleted | src/commands/create.py:61-71 | the loop re-raises the first failure in completion order and has recorded exactly the hosts read before it |
| Create.ReadStep | src/commands/create.py:61-71 | one turn of the loop either re-raises or records its host and goes on |
| Create.InitializeNodesTracked | src/commands/create.py:45-71 | the `initialize_nodes_parallel` of `create` runs every host's `initialize_node` and records the hosts it read without error |
| Create.CompletedBeforeSpec | src/commands/create.py:61-71 | the recorded hosts are those read before the first failure, in completion order, each initialized without error; when the step passes, every host is recorded |
| Create.CheckRole | src/commands/create.py:291-303 | one role's readiness loop probes each node in turn |
| Create.VerifyServices | src/commands/create.py:287-305 | the verification block probes masters, workers and API servers, in that order |
| Create.ProbeAllEvents | src/commands/create.py:291-303 | a role's checks probe only that role's hosts on its port and change nothing in the cloud |
| Create.VerifyEvents | src/commands/create.py:287-305 | the checks change no resource and raise nothing; every probe goes to a master on 5678, a worker on 1234 or an API server on 12345 |
| Create.AllInstancesAppend | src/commands/create.py:161-198 | the ledger after one more batch is the ledger before it followed by the batch |
| Create.ProvisionRole | src/commands/create.py:154-198 | one role's block and its ledger loop: the ledger holds every instance of the batches returned so far |
| Create.ProvisionAll | src/commands/create.py:146-198 | step 1 and its ledger: the ledger holds exactly the instances of the returned batches |
| Create.ProvisionStepOutcome | src/commands/create.py:154-198 | each role's block keeps the invariant that the batches returned so far are those of the earlier roles, each complete |
| Create.ProvisionOutcome | src/commands/create.py:146-198 | step 1 asks for masters, workers, API servers and one alert server, in that order; it completes iff all four batches return, each holding one instance per requested index; a failed batch adds nothing to the ledger, so the instances it launched before raising are not rolled back |
| Create.PrepareNodes | src/commands/create.py:203-255 | steps 2 to 4 (SSH wait, node initialization, users, keys, hosts file) compute their specification and leave the created list alone |
| Create.DeployAndStart | src/commands/create.py:257-312 | steps 5 and 6 and the return value compute their specification |
| Create.DeployAndStartOutcome | src/commands/create.py:257-312 | the checks decide nothing: the phase succeeds iff deploy and start go through and there is an API node, whatever the probes answer, and the endpoint is the first API node's |
| Create.DeployPhaseOutcome | src/commands/create.py:262-276 | with `download_on_remote` on (the default) the deploy gets no package; otherwise the package is downloaded locally first and a failed download stops the deploy |
| Create.Abort | src/commands/create.py:314-318 | a failure rolls back the ledger and re-raises |
| Create.CreateCluster | src/commands/create.py:133-318 | `create_cluster` computes the outcome `CreateClusterOutcome` characterises |
| Create.AfterPrepareOutcome | src/commands/create.py:203-318 | a failure after step 1 is a rollback of the full ledger; success returns the batches and the first API node's endpoint, so the API list must not be empty |
| Create.ProvisionedApiNodes | src/commands/create.py:178-201 | after a complete step 1 the API node list is the records of the third batch, which holds one instance per requested API node |
| Create.CreateClusterOutcome | src/commands/create.py:133-318 | every failure rolls back exactly the instances of the batches returned so far and re-raises (the rollback's own error, if any, taking the place of the first); the configuration is updated in place once all four batches return, and only then; success returns the four batches in role order and the endpoint of the first API instance, so a cluster asking for no API server cannot be created |
| Scale.SliceBound | src/commands/scale.py:217-218 | Python's reading of a slice bound: a negative bound counts from the end and both kinds are clamped to the list |
| Scale.TailSelection | src/commands/scale.py:217-218 | the removed and kept slices split the node list at one point; for `0 < k <= len` the last `k` nodes go; for `k == 0` (`-0` is `0`) or `k` past the length every node goes and none is kept |
| Scale.GuardSpec | src/commands/scale.py:203-211 | the reduction is refused, with a `ValueError`, iff it would leave fewer than 2 masters, 1 API node or 1 worker; the alert server has no floor |
| Scale.RemovedIds | src/commands/scale.py:220-221 | the ids of the nodes to remove, in order, when each has one; a node without an `instance_id` raises |
| Scale.CollectInstanceIds | src/commands/scale.py:252 | the comprehension's loop computes `RemovedIds` |
| Scale.RemovalStepsActs | src/commands/scale.py:231-247 | each removed node is sent one `daemon.sh stop {component}-server`, and only a worker's stop is followed by a 30-second pause |
| Scale.ScaleIn | src/commands/scale.py:183-276 | `scale_in` computes its specification |
| Scale.RemoveOutcome | src/commands/scale.py:231-264 | the stops run node by node and the first failure ends the command with the configuration untouched; after them, one terminate call naming exactly the removed nodes' instances and a save; on success the role keeps exactly the kept prefix, its count is the prefix's length, and no other role or setting changes |
| Scale.ScaleInOutcome | src/commands/scale.py:183-276 | a refused guard or a node without an id changes nothing in the cloud or the configuration; otherwise the ids are those of the removed nodes in order and removal proceeds; any failure leaves the configuration as it was |
| Scale.RunInTurn | src/commands/scale.py:81-94 | the `for host in new_hosts` loops run the unit host by host and stop at the first failure |
| Scale.InTurnAppend | src/commands/scale.py:81-94 | running over two lists is running over the first and, if it got through, over the second |
| Scale.AppendNodeRecords | src/commands/scale.py:102-114 | the loop appends one record per new instance after the existing nodes |
| Scale.RoleRecords | src/commands/scale.py:121-127 | one hosts-map entry per node of the role, named `ds-{component}-{i}` by list position |
| Scale.AppendRoleRecords | src/commands/scale.py:121-127 | the inner loop appends one role's entries |
| Scale.BuildTopology | src/commands/scale.py:119-127 | the outer loop rebuilds the hosts map from the configuration |
| Scale.TopologyEntries | src/commands/scale.py:119-127 | the rebuilt map lists masters, workers, API servers and alert servers in that order, each block holding that role's entries in node order |
| Scale.StartWorkers | src/commands/scale.py:153-166 | the worker-start loop runs the start unit on each new host in turn |
| Scale.StandardCreatesAsAsked | src/commands/scale.py:71-73 | with the standard tools, a successful `create_instances_parallel` returns one instance per requested node |
| Scale.ScaleOutAfter | src/commands/scale.py:118-176 | the rest of step 4 and step 5 compute their specification |
| Scale.GrowAndFinish | src/commands/scale.py:101-176 | the configuration is grown by the new records and the count, then the rest runs on the grown configuration |
| Scale.ScaleOutRest | src/commands/scale.py:77-176 | steps 2 to 5 compute their specification |
| Scale.ScaleOut | src/commands/scale.py:47-180 | `scale_out` computes its specification |
| Scale.AfterGrowthOutcome | src/commands/scale.py:118-176 | once grown the configuration stays grown whatever fails; the hosts file is written from the rebuilt map before the save; master and API scaling start nothing; for workers the package is downloaded and each new host is started, a failed download ending the command |
| Scale.ScaleOutWithOutcome | src/commands/scale.py:77-176 | any failure before step 4 leaves the configuration as it was; success leaves it grown: the old records untouched and one record per new instance after them, the count raised by the number requested, every other role and setting unchanged |
| Scale.ScaleOutRequestsFromZero | src/commands/scale.py:71-73 | the new instances are named after indices `0..additional_count-1`, the names the hosts map already gives to the role's first nodes |
| Scale.ScaleOutOutcome | src/commands/scale.py:47-180 | a failed instance creation changes nothing in the configuration; otherwise the configuration is either unchanged or grown by the created batch, and grown on success |
| Scale.ScaleCluster | src/commands/scale.py:20-44 | an unchanged count does nothing and returns True; a larger target grows by the difference, a smaller one shrinks by it |
| Scale.ScaleOutReachesTarget | src/commands/scale.py:39-41 | when creation returns what was asked, a successful grow reaches the target count, with the missing nodes after the old ones |
| Scale.ScaleInShrinks | src/commands/scale.py:257-261 | a successful `scale_in` leaves the role with the kept prefix and its length as count |
| Scale.ShrunkToTarget | src/commands/scale.py:42-44 | when the node list matches the count, keeping the prefix after a reduction by `count - target` leaves the first `target` nodes (none for a target below one) |
| Delete.GetIffListed | src/commands/delete.py:52-54 | with distinct keys, `tags.get(k)` answers `v` exactly when the pair is listed |
| Delete.TagDictGet | src/commands/delete.py:52 | with distinct keys, the dictionary built from the tag list answers lookups as the list does |
| Delete.ManagedIffTagged | src/commands/delete.py:31-34 | the `ManagedBy` check on load balancers and the EC2 tag filter select the same tag lists |
| Delete.DropBalancer | src/commands/delete.py:82 | deleting a load balancer removes exactly the balancers with that arn |
| Delete.DropGroup | src/commands/delete.py:78 | deleting a target group removes exactly the groups with that arn |
| Delete.AttachedTo | src/commands/delete.py:75 | `describe_target_groups(LoadBalancerArn=arn)` lists exactly the groups behind the balancer |
| Delete.GroupDeletes | src/commands/delete.py:220-223 | one deletion call per listed target group, in order |
| Delete.DeleteGroups | src/commands/delete.py:220-223 | the group-deletion loop computes its specification |
| Delete.DeleteGroupsOutcome | src/commands/delete.py:220-225 | the loop deletes the groups in order up to the first failure, all of them if none fails; only those groups can disappear |
| Delete.DeleteGroupsTrace | src/commands/delete.py:220-223 | the calls of the group loop are a prefix of one deletion per group, all of them on success |
| Delete.DeleteGroupsShrinks | src/commands/delete.py:220-223 | the group loop can only remove the groups it was given |
| Delete.DeleteGroupsOfOutcome | src/commands/delete.py:219-225 | the groups behind a managed balancer are listed first, then deleted in order; a failed group deletion is only a warning, and nothing but those groups can disappear |
| Delete.DeleteManagedOutcome | src/commands/delete.py:217-230 | the target-group calls come before the balancer's deletion, which is the last call; on success the balancer is gone; only it and its groups can disappear |
| Delete.RemoveIfManaged | src/commands/delete.py:208-234 | one turn of `delete_alb`'s loop computes its specification |
| Delete.DeleteIfManagedOutcome | src/commands/delete.py:208-234 | an unmanaged or unreadable balancer costs one tag lookup and changes nothing; a managed one gets its groups listed and deleted and is deleted last; a deletion is counted only for a managed balancer that is then gone |
| Delete.DeleteIfManagedCalls | src/commands/delete.py:211-234 | the calls one loop turn makes, case by case |
| Delete.DeleteIfManagedSteps | src/commands/delete.py:215-230 | for a managed balancer: tags, group listing, group deletions, then the balancer |
| Delete.DeleteIfManagedEffect | src/commands/delete.py:211-234 | one loop turn removes at most the managed balancer and its groups, with load-balancer calls only |
| Delete.SweepBalancers | src/commands/delete.py:206-234 | the loop over the listed balancers computes its specification, with the deletion counter |
| Delete.SweepOutcome | src/commands/delete.py:206-239 | the loop makes load-balancer calls only, removes only managed listed balancers and their groups, and counts at most one deletion per balancer, none when none is managed |
| Delete.SweepTrace | src/commands/delete.py:206-234 | the loop makes load-balancer calls only |
| Delete.SweepShrinks | src/commands/delete.py:206-234 | the loop removes only managed balancers and the groups behind them |
| Delete.SweepCount | src/commands/delete.py:206-239 | `deleted_count` is at most the number of listed balancers and 0 when none is managed |
| Delete.DeleteAlb | src/commands/delete.py:184-245 | `delete_alb` computes its specification |
| Delete.DeleteAlbOutcome | src/commands/delete.py:184-245 | `delete_alb` never raises; it answers False exactly when the balancer is enabled and the listing fails; disabled, it makes no call; enabled, it lists first, makes load-balancer calls only and removes only managed balancers and their groups |
| Delete.NodeIdsMembers | src/commands/delete.py:135-137 | an id is collected exactly when some node carries it; nodes without one contribute nothing |
| Delete.NodeIdMember | src/commands/delete.py:135-137 | one id is collected exactly when some node of the list carries it |
| Delete.ClusterIdsMembers | src/commands/delete.py:131-137 | the collected ids are exactly those carried by the nodes of some role |
| Delete.AppendNodeIds | src/commands/delete.py:135-137 | the inner loop appends the ids the role's nodes carry |
| Delete.CollectClusterIds | src/commands/delete.py:131-137 | the nested loop collects the ids of masters, workers, API and alert servers in that order |
| Delete.DeleteCluster | src/commands/delete.py:102-181 | `delete_cluster` computes its (corrected) specification |
| Delete.DeleteClusterOutcome | src/commands/delete.py:113-177 | whatever `stop_services` did, the balancer teardown follows, then one termination of exactly the collected ids (none when there are none); the result is True unless that termination raised |
| Delete.DeleteIgnoresStopResult | src/commands/delete.py:119-124 | a failing stop and a succeeding one that leave the world alike lead to the same deletion |
| Delete.DeleteWithoutStorageRaises | src/commands/delete.py:161-169 | without a `storage` block the code as written raises KeyError after a teardown that fully succeeded; with `keep_data` it matches the corrected specification |
| Delete.SelectedIdsMembers | src/commands/delete.py:31-41 | exactly the tagged instances that are neither shutting down nor terminated are selected |
| Delete.CollectSelectedIds | src/commands/delete.py:38-41 | the nested loop selects the instances the filter matches |
| Delete.FindManaged | src/commands/delete.py:46-58 | the search loop computes its specification |
| Delete.TagChecks | src/commands/delete.py:51 | one tag lookup per listed balancer, in listing order |
| Delete.FindManagedOutcome | src/commands/delete.py:46-58 | the search reads tags only, one lookup per balancer in listing order, and keeps only managed balancers, all of them when every lookup succeeds |
| Delete.FindManagedTrace | src/commands/delete.py:49-58 | the search changes nothing in the cloud and makes exactly the tag lookups |
| Delete.FindManagedFinds | src/commands/delete.py:49-58 | only managed arns are kept, and every one of them when no lookup fails |
| Delete.CleanupBalancerOutcome | src/commands/delete.py:72-84 | the calls are a prefix of listing the groups, deleting each, then the balancer, and all of them on success: the balancer is never deleted before its groups; only it and its groups can disappear |
| Delete.CleanupBalancerElbOnly | src/commands/delete.py:72-84 | those calls are all load-balancer calls |
| Delete.CleanOne | src/commands/delete.py:73-84 | one found balancer's cleanup computes its specification |
| Delete.CleanupBalancers | src/commands/delete.py:70-84 | the loop over the found balancers computes its specification, a failure being logged and skipped |
| Delete.CleanupBalancersOutcome | src/commands/delete.py:70-84 | the loop makes load-balancer calls only and removes only the found balancers and their groups |
| Delete.CleanupByTags | src/commands/delete.py:12-99 | `cleanup_by_tags` computes its specification |
| Delete.PurgeOutcome | src/commands/delete.py:69-93 | the balancers are dealt with first, by load-balancer calls only; then exactly the selected instances are terminated in one last call, none when there are none |
| Delete.CleanupByTagsOutcome | src/commands/delete.py:12-99 | the command raises exactly when one of its two listings does, changing nothing; otherwise it answers True, its first two calls being the instance and balancer listings |
| Delete.CleanupListed | src/commands/delete.py:31-99 | once both listings succeed the answer is True, whatever the later calls do |
| Delete.CleanupNothingFound | src/commands/delete.py:65-67 | with nothing to delete, only the listings and tag lookups are made and the cloud is unchanged |
| Delete.CleanupDeletesManagedOnly | src/commands/delete.py:69-93 | when something was found, every load-balancer call precedes the one termination of exactly the selected instances, and only managed balancers and their groups can disappear |

## Left out

- **AWS, SSH, MySQL, ZooKeeper, S3, HDFS clients** (boto3, paramiko, pymysql and others). The calls the modelled code makes to them are events in the world, and the oracle gives their answers:
  - every boto3 call, `reload` included, raises `AwsFailure` when `awsOk` says so;
  - a connection is accepted or refused as `connects` says, and a refusal raises `RemoteError`;
  - a remote command's exit status and output come from `reply`;
  - an SFTP write (`upload_file`, the script written by `execute_script`) raises `SftpFailure` when `writeOk` says so;
  - a local step (the package download, the database check) fails when `localOk` says so.
  The objects these clients return are not modelled, and neither is the error text they raise. Closing a connection or an SFTP session is taken never to fail.
- **Remote validators.** `validate_aws_resources`, `validate_database_connection`, `validate_zookeeper_connection`, `validate_s3_access` and `validate_hdfs_access` (src/utils/validator.py:139-394) are foreign services and are not modelled.
- **`is_service_running`** (src/aws/ec2.py:270-291) is a socket probe; its answer is the oracle's `portOpen`.
- **Thread pools and progress bars.** Batches run one unit after another:
  - the order in which their futures complete is an oracle answer, a permutation of the indices;
  - `max_workers` and `parallel_init_workers` do not change the outcome and are ignored;
  - tqdm is not modelled.
- **Clocks.** `time.sleep(n)` is a `Wait(n)` act.
- Elb.WaitForTargetDraining: takes a poll budget in place of the wall-clock `max_wait` (src/aws/elb.py:175-196); `time.time` is not modelled.
- Elb.WaitForTargetHealthy: takes a poll budget in place of the wall-clock `max_wait` (src/aws/elb.py:233-253); `time.time` is not modelled.
- **Logging.** `setup_logger` and every log line are not modelled. `print_config_diff` (src/config.py:167-205) only prints and is left out.
- **YAML and the diff library.**
  - The configuration file is a path-to-value store.
  - DeepDiff's `values_changed` entries are an input to `analyze_config_diff`.
  - YAML parsing errors are not modelled.
- **Shell script bodies.**
  - The node installation scripts (src/deploy/node_initializer.py:40-128) are constants chosen by the OS dispatch.
  - The package-manager steps are one remote command or local action each, their mirrors, fallbacks and checks not modelled: `download_and_extract_remote`, `upload_and_extract_package`, `setup_package_permissions` and `install_mysql_jdbc_driver`, with `download_dolphinscheduler` as a local action.
- **Configuration file templates.**
  - Fixed text (licence headers, tuning keys, the body of `generate_dolphinscheduler_env_v320`) is constant text.
  - Only the choices the generators make are modelled: sections, ports, node lists, storage block, JDBC URL, registry string.
- **Typed configuration.** The orchestration layers read the configuration as a typed record (`Cluster.Config`), so a missing key in those layers (a `KeyError` in Python) is not modelled. Two places are the exception: the storage block read at src/commands/delete.py:169, and the validator, which works on untyped values and models each missing key.
- **src/commands/status.py** (AWS queries, floating-point cost estimates and printing) and **cli.py** (the command-line surface) are not part of this model. `cleanup_by_tags` takes only a region, as src/commands/delete.py:12 does; the project filter cli.py passes does not exist in the code.
- **Imports that do not resolve.** As written, src/commands/create.py:8-16, src/commands/scale.py:7-13 and src/commands/delete.py:5 import from src/deploy/installer.py names it does not define; it defines only `initialize_database`, `configure_components`, `upload_configuration_files` and `deploy_dolphinscheduler_v320`. Importing those command modules therefore raises ImportError, and no command runs at all. The model binds the functions the imports evidently mean: the deploy step is a collaborator, and the other collaborators follow the same pattern.
- **HDFS helpers.**
  - service_manager.py imports `download_hadoop_config_from_emr` and `setup_hadoop_config_on_node`, which are not defined anywhere. The address the first one would return is the oracle's `emrHdfsAddress`; the second one and the temporary-directory cleanup are not modelled.
  - `setup_hadoop_config_on_node` is called in the HDFS patch, and its answer is ignored.
- **`connect_ssh` arguments.** As written, every call `connect_ssh(..., config=config)` raises TypeError before connecting, because `connect_ssh` (src/deploy/ssh.py:37) has no `config` parameter. The calls are in src/deploy/node_initializer.py (lines 28, 157, 213, 232, 286), src/deploy/service_manager.py and src/deploy/installer.py:245. The model connects with the host and key alone, as the callers evidently intend.
- **Functions the core never calls.** `download_file` (src/deploy/ssh.py:173-192), `register_target_to_alb` and `deregister_target_from_alb` (src/aws/elb.py:141-159, 199-217) are not modelled.
- **Answers that are only logged.**
  - `DeploymentState.initialized_nodes` is recorded but never read.
  - The answers of `wait_for_service_ready` after a start are only logged. They are events, and the lemmas show they decide nothing.
  - `scale_out`'s per-host deploy loop only logs (src/commands/scale.py:146-149) and is not modelled.
- **Saving** a configuration is a `Saved(path, config)` event; the file contents are not modelled.
- Delete.CleanupByTags: the reservations of `describe_instances` are flattened into one instance list. The tags `describe_tags` answers are the balancer's listed tags.
- Scale.ShrunkToTarget: assumes the role's `count` field equals the length of its node list. The dispatch in `scale_cluster` uses the count while `scale_in` uses the list length (src/commands/scale.py:33, 200-201), and when they differ the shrink does not reach the target.
- Scale.ScaleCluster: states its shrinking branch through `Scale.ScaleInShrinks` and `Scale.ShrunkToTarget`, not as one "target reached" clause.
- **Integer widths.** Integers are unbounded, as in Python.
- **Floating-point values.** The value model has no float, so a YAML float such as `count: 1.5` reaching `count < 2` in the validator cannot be represented.
- Logger.MaskDict: the key match lower-cases ASCII letters only; Python's `str.lower` is Unicode (`'\u212a'.lower() == 'k'`), so a key spelt with such characters is matched by the source and not by the model.
- Validator.StorageType: upper-cases ASCII letters only; Python's `str.upper` is Unicode (`'ſ3'.upper() == 'S3'`).
- ConfigGen.StorageBlockFor: picks the section from the ASCII-upper-cased type, with the same gap as `Validator.StorageType`.
- Services.StartTailActs: the "any letter case" HDFS test upper-cases ASCII letters only, with the same gap as `Validator.StorageType`.
- ConfigStore.ConfigVersionManager.constructor: the configuration file's directory is taken to exist. Were it missing, `mkdir` (src/config.py:65, without `parents=True`) would raise FileNotFoundError, and that is not modelled.
- ConfigStore.VersionsSpec: the byte size of a backup is given by a parameter `sizeOf`, applied to the stored document, because the YAML rendering of a document is not modelled.

## Findings

| source | as written | input that shows it | evidently intended | confidence | as-written member | corrected member |
|---|---|---|---|---|---|---|
| src/commands/delete.py:161-169 | with `keep_data` False, the final report reads `config['storage']['bucket']` | a configuration without a `storage` block (local storage), after a teardown in which every call succeeded | report only the settings that exist and return True | not executed | Delete.DeleteWithoutStorageRaises | Delete.DeleteClusterOutcome |

The as-written function is `Delete.DeleteClusterAsWritten`; the rest of the model uses `Delete.DeleteClusterSpec`, which `Delete.DeleteCluster` computes.

Other behaviours worth knowing are modelled as written and proved:

- `scale_out` asks for indices from 0 (`Scale.ScaleOutRequestsFromZero`). So with the idempotent lookup it finds the role's existing `ds-{component}-0…` instances and creates nothing new.
- A reduction of 0 or more than the list length selects every node for removal, because `-0` is `0` (`Scale.TailSelection`).
- A rollback to a version backed up in the same second as the current configuration overwrites that backup first (`ConfigStore.SameSecondRollbackKeepsCurrent`).
