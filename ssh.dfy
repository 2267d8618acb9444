/** SSH access to the cluster hosts: key resolution, connecting, running a
    command or a script, and waiting for the SSH port to come up. Every call
    that reaches a host leaves an event in the world's trace. */
module Ssh {
  import opened Common
  import opened Strings
  import opened Env

  const KeyNotFound := "SSH key not found. Set SSH_KEY_PATH environment variable"
  const NoSuchFile := "No such file or directory: "
  const ConnectFailed := "SSH connection failed to "
  const ExecFailed := "Command execution failed: "
  const Chmod := "chmod +x "
  const Remove := "rm -f "
  const SudoPrefix := "sudo bash -c '"

  /** `Path(p).expanduser()` for the `~` and `~/...` forms. */
  function ExpandUser(p: string, home: string): string {
    if p == "~" then home
    else if |p| >= 2 && p[..2] == "~/" then home + p[1..]
    else p
  }

  /** `~/.ssh/id_rsa`, then `~/.ssh/id_ed25519`. */
  function DefaultKeyPaths(home: string): seq<string> {
    [home + "/.ssh/id_rsa", home + "/.ssh/id_ed25519"]
  }

  /** The first of `paths` that is present on disk. */
  function FirstExisting(paths: seq<string>, present: string -> bool): Result<string>
    decreases |paths|
  {
    if paths == [] then Err(Error(FileNotFoundError, KeyNotFound))
    else if present(paths[0]) then Ok(paths[0])
    else FirstExisting(paths[1..], present)
  }

  /** The key file `get_ssh_key_path` resolves: a non-empty `SSH_KEY_PATH`
      wins, otherwise the first default path that exists. */
  function KeyPath(env: Option<string>, home: string, present: string -> bool): Result<string> {
    if env.Some? && env.value != "" then Ok(ExpandUser(env.value, home))
    else FirstExisting(DefaultKeyPaths(home), present)
  }

  /** The lookup yields the first present path, and fails with
      FileNotFoundError exactly when none is present. */
  lemma {:induction false} FirstExistingSpec(paths: seq<string>, present: string -> bool)
    ensures FirstExisting(paths, present).Ok? <==> exists i :: 0 <= i < |paths| && present(paths[i])
    ensures FirstExisting(paths, present).Ok? ==>
      exists i :: 0 <= i < |paths| && paths[i] == FirstExisting(paths, present).value &&
        present(paths[i]) && forall j :: 0 <= j < i ==> !present(paths[j])
    ensures FirstExisting(paths, present).Err? ==>
      FirstExisting(paths, present).error == Error(FileNotFoundError, KeyNotFound)
    decreases |paths|
  {
    if paths != [] && !present(paths[0]) {
      FirstExistingSpec(paths[1..], present);
      var r := FirstExisting(paths, present);
      if r.Ok? {
        var i :| 0 <= i < |paths[1..]| && paths[1..][i] == r.value &&
          present(paths[1..][i]) && forall j :: 0 <= j < i ==> !present(paths[1..][j]);
        assert paths[i + 1] == r.value;
        forall j | 0 <= j < i + 1 ensures !present(paths[j]) {
          if j > 0 {
            assert paths[j] == paths[1..][j - 1];
          }
        }
      } else {
        forall i | 0 <= i < |paths| ensures !present(paths[i]) {
          if i > 0 {
            assert paths[i] == paths[1..][i - 1];
          }
        }
      }
    }
  }

  /** The search of `get_ssh_key_path`, a first-match loop over the default
      locations. */
  method GetSshKeyPath(env: Option<string>, home: string, present: string -> bool) returns (r: Result<string>)
    ensures r == KeyPath(env, home, present)
    ensures r.Err? <==>
      (env.None? || env.value == "") && !present(home + "/.ssh/id_rsa") && !present(home + "/.ssh/id_ed25519")
  {
    if env.Some? && env.value != "" {
      return Ok(ExpandUser(env.value, home));
    }
    var paths := DefaultKeyPaths(home);
    var i := 0;
    while i < |paths|
      invariant 0 <= i <= |paths|
      invariant FirstExisting(paths[i..], present) == FirstExisting(paths, present)
      invariant forall j :: 0 <= j < i ==> !present(paths[j])
    {
      if present(paths[i]) {
        return Ok(paths[i]);
      }
      assert paths[i..][1..] == paths[i + 1..];
      i := i + 1;
    }
    r := Err(Error(FileNotFoundError, KeyNotFound));
    assert paths[i..] == [];
  }

  /** `connect_ssh` with a known key file: the file's mode is set first (a
      missing file raises), then one connection attempt is made. */
  function ConnectWithKey(o: Oracle, w: World, host: string, key: string): (r: Out<()>)
    ensures r.result.Ok? <==> o.fileExists(key) && o.connects(Now(w), host)
    ensures r.world.trace == w.trace + (if o.fileExists(key) then [Connect(host, r.result.Ok?)] else [])
    ensures r.world.cloud == w.cloud
  {
    if !o.fileExists(key) then Out(w, Err(Error(FileNotFoundError, NoSuchFile + key)))
    else if o.connects(Now(w), host) then Out(Emit(w, Connect(host, true)), Ok(()))
    else Out(Emit(w, Connect(host, false)), Err(Error(RemoteError, ConnectFailed + host)))
  }

  /** `connect_ssh(host)`: the key is resolved first, so a missing key raises
      before any connection attempt. */
  function ConnectSsh(o: Oracle, w: World, host: string): (r: Out<()>)
    ensures KeyPath(o.sshKeyEnv, o.home, o.fileExists).Err? ==> r == Out(w, Err(KeyPath(o.sshKeyEnv, o.home, o.fileExists).error))
    ensures r.result.Ok? ==> r.world == Emit(w, Connect(host, true))
  {
    var key := KeyPath(o.sshKeyEnv, o.home, o.fileExists);
    if key.Err? then Out(w, Err(key.error)) else ConnectWithKey(o, w, host, key.value)
  }

  function CloseSsh(w: World, host: string): World {
    Emit(w, Close(host))
  }

  function SudoWrap(command: string, sudo: bool): string {
    if sudo then SudoPrefix + command + "'" else command
  }

  /** What the host answers to `command` as the next call. */
  function Answer(o: Oracle, w: World, host: string, command: string): Reply {
    o.reply(Now(w), host, command)
  }

  /** `execute_remote_command`: issues the (sudo-wrapped) command once; raises
      with the standard error text iff the exit status is non-zero, and
      otherwise returns the standard output. */
  function ExecuteRemoteCommand(o: Oracle, w: World, host: string, command: string, sudo: bool): (r: Out<string>)
    ensures var a := Answer(o, w, host, SudoWrap(command, sudo));
      && r.world == Emit(w, Exec(host, SudoWrap(command, sudo), a.exit))
      && (r.result.Err? <==> a.exit != 0)
      && (r.result.Ok? ==> r.result.value == a.out)
      && (r.result.Err? ==> r.result.error == Error(RemoteError, ExecFailed + a.err))
  {
    var cmd := SudoWrap(command, sudo);
    var a := Answer(o, w, host, cmd);
    var v := Emit(w, Exec(host, cmd, a.exit));
    if a.exit != 0 then Out(v, Err(Error(RemoteError, ExecFailed + a.err)))
    else Out(v, Ok(a.out))
  }

  /** What a failed SFTP transfer (`open_sftp`, `put` or a write through
      `sftp.file`) raises; the library's own message is not modelled. */
  const SftpFailure := Error(RemoteError, "SFTP transfer failed")

  /** Whether the SFTP write of `path` on `host`, made as the next call, goes
      through. */
  predicate WriteOk(o: Oracle, w: World, host: string, path: string) {
    o.writeOk(Now(w), host, path)
  }

  /** `upload_file` and writes through `sftp.file`: the write is recorded
      with its outcome; the content lands at the remote path and True is
      returned iff it goes through, and otherwise the transfer raises. */
  function UploadFile(o: Oracle, w: World, host: string, remotePath: string, content: string): (r: Out<bool>)
    ensures Extends(w, r.world) && r.world.cloud == w.cloud
    ensures Since(w, r.world) == [Write(host, remotePath, content, WriteOk(o, w, host, remotePath))]
    ensures r.result.Ok? <==> WriteOk(o, w, host, remotePath)
    ensures r.result.Ok? ==> r.result.value
    ensures r.result.Err? ==> r.result.error == SftpFailure
  {
    var ok := WriteOk(o, w, host, remotePath);
    var v := Emit(w, Write(host, remotePath, content, ok));
    assert Since(w, v) == [Write(host, remotePath, content, ok)];
    Out(v, if ok then Ok(true) else Err(SftpFailure))
  }

  /** `/tmp/script_{int(time.time())}.sh`, named from the clock at position `t`. */
  function ScriptPath(o: Oracle, t: nat): string {
    "/tmp/script_" + NatToString(o.clock(t)) + ".sh"
  }

  /** Whether the script an `execute_script` call made at `w` writes goes
      through. */
  predicate ScriptWritten(o: Oracle, w: World, host: string) {
    WriteOk(o, w, host, ScriptPath(o, Now(w)))
  }

  /** `execute_script`: write the script to a temporary file (a failing
      write raises before anything else is issued), make it executable (a
      failure here raises before the script runs), run it, and remove the
      file whether or not the run raised; a failing removal replaces the
      run's outcome. */
  function ExecuteScript(o: Oracle, w: World, host: string, content: string, sudo: bool): (r: Out<string>)
    ensures var t := Now(w);
      var path := ScriptPath(o, t);
      var written := WriteOk(o, w, host, path);
      var chmod := o.reply(t + 1, host, Chmod + path);
      var run := o.reply(t + 2, host, SudoWrap(path, sudo));
      var rm := o.reply(t + 3, host, Remove + path);
      && r.world.cloud == w.cloud
      && r.world.trace == w.trace + [Write(host, path, content, written)] +
          (if !written then []
           else ([Exec(host, Chmod + path, chmod.exit)] +
                 (if chmod.exit != 0 then [] else [Exec(host, SudoWrap(path, sudo), run.exit), Exec(host, Remove + path, rm.exit)])))
      && (r.result.Ok? <==> written && chmod.exit == 0 && run.exit == 0 && rm.exit == 0)
      && (r.result.Ok? ==> r.result.value == run.out)
      && (!written ==> r.result == Err(SftpFailure))
      && (written && chmod.exit == 0 && run.exit != 0 && rm.exit == 0 ==>
            r.result == Err(Error(RemoteError, ExecFailed + run.err)))
  {
    var path := ScriptPath(o, Now(w));
    var up := UploadFile(o, w, host, path, content);
    if up.result.Err? then Out(up.world, Err(up.result.error))
    else
      var chmod := ExecuteRemoteCommand(o, up.world, host, Chmod + path, false);
      if chmod.result.Err? then Out(chmod.world, Err(chmod.result.error))
      else
        var run := ExecuteRemoteCommand(o, chmod.world, host, path, sudo);
        var rm := ExecuteRemoteCommand(o, run.world, host, Remove + path, false);
        Out(rm.world, if rm.result.Err? then Err(rm.result.error) else run.result)
  }

  /** A failed write of the script issues nothing after it: no `chmod`, no
      run and no removal. Once the script is written and made executable,
      its removal is the last command issued, whether the run succeeded or
      raised. */
  lemma ScriptAlwaysRemoved(o: Oracle, w: World, host: string, content: string, sudo: bool)
    ensures var r := ExecuteScript(o, w, host, content, sudo);
      var path := ScriptPath(o, Now(w));
      Extends(w, r.world) &&
      (!WriteOk(o, w, host, path) ==> Since(w, r.world) == [Write(host, path, content, false)])
    ensures var r := ExecuteScript(o, w, host, content, sudo);
      var path := ScriptPath(o, Now(w));
      WriteOk(o, w, host, path) && o.reply(Now(w) + 1, host, Chmod + path).exit == 0 ==>
      Extends(w, r.world) &&
      |Since(w, r.world)| == 4 &&
      Since(w, r.world)[3].Exec? &&
      Since(w, r.world)[3].command == Remove + path
  {
  }

  // ---- wait_for_ssh ----

  /** `j` failed attempts: each a refused connection and the pause after it. */
  function Failures(host: string, j: nat, interval: nat): (es: seq<Event>)
    ensures |es| == 2 * j
  {
    if j == 0 then [] else Failures(host, j - 1, interval) + [Connect(host, false), Sleep(interval)]
  }

  /** Attempts `i..n-1`: the first successful connection is closed again and
      yields True; a failure sleeps unless it was the last attempt. */
  function WaitAttempts(o: Oracle, w: World, host: string, key: string, interval: nat, i: nat, n: nat): Out<bool>
    decreases n - i
  {
    if i >= n then Out(w, Ok(false))
    else
      var c := ConnectWithKey(o, w, host, key);
      if c.result.Ok? then Out(CloseSsh(c.world, host), Ok(true))
      else if i < n - 1 then WaitAttempts(o, SleepFor(c.world, interval), host, key, interval, i + 1, n)
      else Out(c.world, Ok(false))
  }

  /** `wait_for_ssh(host, max_retries, retry_interval)`: the key is resolved
      once and first, so a missing key raises before any attempt. */
  function WaitForSshSpec(o: Oracle, w: World, host: string, maxRetries: nat, interval: nat): Out<bool> {
    var key := KeyPath(o.sshKeyEnv, o.home, o.fileExists);
    if key.Err? then Out(w, Err(key.error))
    else WaitAttempts(o, w, host, key.value, interval, 0, maxRetries)
  }

  /** The retry loop of `wait_for_ssh`. */
  method WaitForSsh(o: Oracle, w: World, host: string, maxRetries: nat, interval: nat)
    returns (w': World, r: Result<bool>)
    ensures Out(w', r) == WaitForSshSpec(o, w, host, maxRetries, interval)
  {
    var key := GetSshKeyPath(o.sshKeyEnv, o.home, o.fileExists);
    if key.Err? {
      return w, Err(key.error);
    }
    var i := 0;
    w' := w;
    while i < maxRetries
      invariant i <= maxRetries
      invariant WaitAttempts(o, w', host, key.value, interval, i, maxRetries) ==
                WaitAttempts(o, w, host, key.value, interval, 0, maxRetries)
      decreases maxRetries - i
    {
      var c := ConnectWithKey(o, w', host, key.value);
      if c.result.Ok? {
        return CloseSsh(c.world, host), Ok(true);
      }
      if i == maxRetries - 1 {
        return c.world, Ok(false);
      }
      w' := SleepFor(c.world, interval);
      i := i + 1;
    }
    r := Ok(false);
  }

  /** Attempt `m` (counting from the first) is made at position `p + 2m`. */
  predicate AttemptSucceeds(o: Oracle, p: nat, host: string, m: nat) {
    o.connects(p + 2 * m, host)
  }

  lemma {:induction false} WaitAttemptsSucceed(o: Oracle, w: World, host: string, key: string, interval: nat, i: nat, n: nat, j: nat)
    requires o.fileExists(key)
    requires i <= j < n
    requires forall m :: 0 <= m < j - i ==> !AttemptSucceeds(o, Now(w), host, m)
    requires AttemptSucceeds(o, Now(w), host, j - i)
    ensures WaitAttempts(o, w, host, key, interval, i, n) ==
      Out(World(w.trace + Failures(host, j - i, interval) + [Connect(host, true), Close(host)], w.cloud), Ok(true))
    decreases j - i
  {
    if i < j {
      assert !AttemptSucceeds(o, Now(w), host, 0);
      var w1 := SleepFor(Emit(w, Connect(host, false)), interval);
      forall m | 0 <= m < j - (i + 1) ensures !AttemptSucceeds(o, Now(w1), host, m) {
        assert !AttemptSucceeds(o, Now(w), host, m + 1);
      }
      assert AttemptSucceeds(o, Now(w1), host, j - (i + 1));
      WaitAttemptsSucceed(o, w1, host, key, interval, i + 1, n, j);
      FailuresCons(host, j - i, interval);
    }
  }

  lemma {:induction false} WaitAttemptsExhausted(o: Oracle, w: World, host: string, key: string, interval: nat, i: nat, n: nat)
    requires o.fileExists(key)
    requires i < n
    requires forall m :: 0 <= m < n - i ==> !AttemptSucceeds(o, Now(w), host, m)
    ensures WaitAttempts(o, w, host, key, interval, i, n) ==
      Out(World(w.trace + Failures(host, n - 1 - i, interval) + [Connect(host, false)], w.cloud), Ok(false))
    decreases n - i
  {
    assert !AttemptSucceeds(o, Now(w), host, 0);
    if i < n - 1 {
      var w1 := SleepFor(Emit(w, Connect(host, false)), interval);
      forall m | 0 <= m < n - (i + 1) ensures !AttemptSucceeds(o, Now(w1), host, m) {
        assert !AttemptSucceeds(o, Now(w), host, m + 1);
      }
      WaitAttemptsExhausted(o, w1, host, key, interval, i + 1, n);
      FailuresCons(host, n - 1 - i, interval);
    }
  }

  lemma {:induction false} FailuresCons(host: string, j: nat, interval: nat)
    requires j > 0
    ensures Failures(host, j, interval) == [Connect(host, false), Sleep(interval)] + Failures(host, j - 1, interval)
    decreases j
  {
    if j > 1 {
      FailuresCons(host, j - 1, interval);
    }
  }

  /** `j` pauses of `interval` seconds and nothing else. */
  function Pauses(j: nat, interval: nat): (es: seq<Event>)
    ensures |es| == j && forall k :: 0 <= k < j ==> es[k] == Sleep(interval)
  {
    if j == 0 then [] else Pauses(j - 1, interval) + [Sleep(interval)]
  }

  lemma {:induction false} PausesCons(j: nat, interval: nat)
    ensures [Sleep(interval)] + Pauses(j, interval) == Pauses(j + 1, interval)
  {
    var a, b := [Sleep(interval)] + Pauses(j, interval), Pauses(j + 1, interval);
    assert |a| == |b|;
    forall k | 0 <= k < |a| ensures a[k] == b[k] {
      if k > 0 {
        assert a[k] == Pauses(j, interval)[k - 1];
      }
    }
  }

  /** With a key file that does not exist, every attempt raises inside the
      `try` before connecting, so the attempts only pause between each other
      and the last one returns False. */
  lemma {:induction false} WaitAttemptsMissingKey(o: Oracle, w: World, host: string, key: string, interval: nat, i: nat, n: nat)
    requires !o.fileExists(key)
    requires i < n
    ensures WaitAttempts(o, w, host, key, interval, i, n) ==
      Out(World(w.trace + Pauses(n - 1 - i, interval), w.cloud), Ok(false))
    decreases n - i
  {
    if i < n - 1 {
      var w1 := SleepFor(w, interval);
      WaitAttemptsMissingKey(o, w1, host, key, interval, i + 1, n);
      PausesCons(n - 1 - (i + 1), interval);
      assert w1.trace + Pauses(n - 1 - (i + 1), interval) ==
        w.trace + ([Sleep(interval)] + Pauses(n - 1 - (i + 1), interval));
    }
  }

  /** `wait_for_ssh` never raises once its key path is resolved. With an
      existing key file it returns True exactly when one of the `max_retries`
      attempts connects; the trace is the failed attempts with a pause after
      each, then either the successful connection and its close, or the last
      refused attempt with no pause after it. With a key path naming a
      missing file it returns False after `max_retries - 1` pauses and no
      connection. With no retries it returns False and touches nothing. */
  lemma WaitForSshOutcome(o: Oracle, w: World, host: string, maxRetries: nat, interval: nat)
    requires KeyPath(o.sshKeyEnv, o.home, o.fileExists).Ok?
    ensures var r := WaitForSshSpec(o, w, host, maxRetries, interval);
      r.result.Ok? && (maxRetries == 0 ==> r.world == w)
    ensures var key := KeyPath(o.sshKeyEnv, o.home, o.fileExists).value;
      o.fileExists(key) ==>
        (WaitForSshSpec(o, w, host, maxRetries, interval).result == Ok(true) <==>
          exists j :: 0 <= j < maxRetries && AttemptSucceeds(o, Now(w), host, j))
    ensures var key := KeyPath(o.sshKeyEnv, o.home, o.fileExists).value;
      forall j :: (o.fileExists(key) && 0 <= j < maxRetries && AttemptSucceeds(o, Now(w), host, j) &&
        (forall m :: 0 <= m < j ==> !AttemptSucceeds(o, Now(w), host, m))) ==>
      WaitForSshSpec(o, w, host, maxRetries, interval).world.trace ==
        w.trace + Failures(host, j, interval) + [Connect(host, true), Close(host)]
    ensures var key := KeyPath(o.sshKeyEnv, o.home, o.fileExists).value;
      o.fileExists(key) && maxRetries > 0 && (forall m :: 0 <= m < maxRetries ==> !AttemptSucceeds(o, Now(w), host, m)) ==>
      WaitForSshSpec(o, w, host, maxRetries, interval).world.trace ==
        w.trace + Failures(host, maxRetries - 1, interval) + [Connect(host, false)]
    ensures var key := KeyPath(o.sshKeyEnv, o.home, o.fileExists).value;
      !o.fileExists(key) && maxRetries > 0 ==>
      WaitForSshSpec(o, w, host, maxRetries, interval) ==
        Out(World(w.trace + Pauses(maxRetries - 1, interval), w.cloud), Ok(false))
  {
    var key := KeyPath(o.sshKeyEnv, o.home, o.fileExists).value;
    if !o.fileExists(key) {
      if maxRetries > 0 {
        WaitAttemptsMissingKey(o, w, host, key, interval, 0, maxRetries);
      }
    } else if exists j :: 0 <= j < maxRetries && AttemptSucceeds(o, Now(w), host, j) {
      var j := FirstSuccess(o, Now(w), host, maxRetries);
      WaitAttemptsSucceed(o, w, host, key, interval, 0, maxRetries, j);
      forall j' | 0 <= j' < maxRetries && AttemptSucceeds(o, Now(w), host, j') &&
          (forall m :: 0 <= m < j' ==> !AttemptSucceeds(o, Now(w), host, m))
        ensures j' == j
      {
      }
    } else if maxRetries > 0 {
      WaitAttemptsExhausted(o, w, host, key, interval, 0, maxRetries);
    }
  }

  /** The first successful attempt below `n`, given there is one. */
  lemma FirstSuccess(o: Oracle, p: nat, host: string, n: nat) returns (j: nat)
    requires exists j :: 0 <= j < n && AttemptSucceeds(o, p, host, j)
    ensures j < n && AttemptSucceeds(o, p, host, j)
    ensures forall m :: 0 <= m < j ==> !AttemptSucceeds(o, p, host, m)
  {
    var k :| 0 <= k < n && AttemptSucceeds(o, p, host, k);
    j := 0;
    while !AttemptSucceeds(o, p, host, j)
      invariant j <= k
      invariant forall m :: 0 <= m < j ==> !AttemptSucceeds(o, p, host, m)
      decreases k - j
    {
      j := j + 1;
    }
  }
}
