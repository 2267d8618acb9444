/** The shape shared by the service and installer code: connect to a host,
    run a fixed plan of commands and pauses, stop at the first command that
    fails, and close the connection in `finally`; then the same over a list
    of hosts, stopping at the first host that fails. */
module Sessions {
  import opened Common
  import opened Env
  import opened Ssh

  datatype Step =
    | Run(command: string)       // execute_remote_command; a failure raises
    | Attempt(command: string)   // a command whose failure is logged and ignored
    | Pause(seconds: nat)        // time.sleep
    | Put(path: string, content: string)  // upload_file; a failed transfer raises

  /** What a plan prescribes on `host`, in order. */
  function StepAct(host: string, s: Step): Act {
    match s
    case Pause(n) => Wait(n)
    case Put(p, c) => Send(host, p, c)
    case Run(c) => Cmd(host, c)
    case Attempt(c) => Cmd(host, c)
  }

  function PlanActs(host: string, steps: seq<Step>): seq<Act>
    decreases |steps|
  {
    if steps == [] then [] else [StepAct(host, steps[0])] + PlanActs(host, steps[1..])
  }

  lemma {:induction false} PlanActsIndexwise(host: string, steps: seq<Step>)
    ensures |PlanActs(host, steps)| == |steps|
    ensures forall i :: 0 <= i < |steps| ==> PlanActs(host, steps)[i] == StepAct(host, steps[i])
    decreases |steps|
  {
    if steps != [] {
      PlanActsIndexwise(host, steps[1..]);
      forall i | 0 < i < |steps| ensures PlanActs(host, steps)[i] == StepAct(host, steps[i]) {
        assert steps[1..][i - 1] == steps[i];
      }
    }
  }

  lemma {:induction false} PlanActsAppend(host: string, a: seq<Step>, b: seq<Step>)
    ensures PlanActs(host, a + b) == PlanActs(host, a) + PlanActs(host, b)
    decreases |a|
  {
    if a == [] {
      assert a + b == b;
    } else {
      assert (a + b)[0] == a[0] && (a + b)[1..] == a[1..] + b;
      PlanActsAppend(host, a[1..], b);
    }
  }

  /** The plan's commands on each host in turn. */
  function HostsPlan(hosts: seq<string>, steps: seq<Step>): seq<Act>
    decreases |hosts|
  {
    if hosts == [] then [] else PlanActs(hosts[0], steps) + HostsPlan(hosts[1..], steps)
  }

  /** The world after one step and whether the plan goes on. */
  function Perform(o: Oracle, w: World, host: string, s: Step): Out<()> {
    match s
    case Run(c) =>
      var e := ExecuteRemoteCommand(o, w, host, c, false);
      Out(e.world, if e.result.Err? then Err(e.result.error) else Ok(()))
    case Attempt(c) => Out(ExecuteRemoteCommand(o, w, host, c, false).world, Ok(()))
    case Pause(n) => Out(SleepFor(w, n), Ok(()))
    case Put(p, content) =>
      var u := UploadFile(o, w, host, p, content);
      Out(u.world, if u.result.Err? then Err(u.result.error) else Ok(()))
  }

  /** The steps in order, up to and including the first that raises. */
  function RunSteps(o: Oracle, w: World, host: string, steps: seq<Step>): Out<()>
    decreases |steps|
  {
    if steps == [] then Out(w, Ok(()))
    else
      var p := Perform(o, w, host, steps[0]);
      if p.result.Err? then p else RunSteps(o, p.world, host, steps[1..])
  }

  /** Running two plans one after the other is running the first and, if
      it got through, the second from where it left off. */
  lemma {:induction false} RunStepsAppend(o: Oracle, w: World, host: string, a: seq<Step>, b: seq<Step>)
    ensures RunSteps(o, w, host, a + b) ==
      var r := RunSteps(o, w, host, a);
      if r.result.Err? then r else RunSteps(o, r.world, host, b)
    decreases |a|
  {
    if a == [] {
      assert a + b == b;
    } else {
      assert (a + b)[0] == a[0] && (a + b)[1..] == a[1..] + b;
      var p := Perform(o, w, host, a[0]);
      if p.result.Ok? {
        RunStepsAppend(o, p.world, host, a[1..], b);
      }
    }
  }

  /** `ssh = connect_ssh(host)` before the `try`, so a failed connection
      raises with nothing to close; then the plan, then `ssh.close()`. */
  function Session(o: Oracle, w: World, host: string, steps: seq<Step>): Out<()> {
    var c := ConnectSsh(o, w, host);
    if c.result.Err? then c
    else
      var s := RunSteps(o, c.world, host, steps);
      Out(CloseSsh(s.world, host), s.result)
  }

  /** `for node in nodes:` one session per host, re-raising the first failure. */
  function OnHostsSpec(o: Oracle, w: World, hosts: seq<string>, steps: seq<Step>): Out<()>
    decreases |hosts|
  {
    if hosts == [] then Out(w, Ok(()))
    else
      var s := Session(o, w, hosts[0], steps);
      if s.result.Err? then s else OnHostsSpec(o, s.world, hosts[1..], steps)
  }

  /** The per-host loop. */
  method OnHosts(o: Oracle, w: World, hosts: seq<string>, steps: seq<Step>) returns (w': World, r: Result<()>)
    ensures Out(w', r) == OnHostsSpec(o, w, hosts, steps)
  {
    w' := w;
    var i := 0;
    while i < |hosts|
      invariant i <= |hosts|
      invariant OnHostsSpec(o, w', hosts[i..], steps) == OnHostsSpec(o, w, hosts, steps)
    {
      assert hosts[i..][0] == hosts[i] && hosts[i..][1..] == hosts[i + 1..];
      var s := Session(o, w', hosts[i], steps);
      if s.result.Err? {
        return s.world, s.result;
      }
      w' := s.world;
      i := i + 1;
    }
    r := Ok(());
  }

  // ---- what a plan does ----

  /** From `w` to `v` the run kept the cloud as it was and issued a prefix of
      `plan`, all of it when it succeeded. */
  predicate Follows(w: World, v: World, ok: bool, plan: seq<Act>) {
    Extends(w, v) && v.cloud == w.cloud &&
    Acts(Since(w, v)) <= plan &&
    (ok ==> Acts(Since(w, v)) == plan)
  }

  lemma PrefixConcat(a: seq<Act>, x: seq<Act>, b: seq<Act>)
    requires x <= b
    ensures a + x <= a + b
  {
    assert (a + b)[..|a + x|] == a + b[..|x|];
  }

  lemma PrefixExtend(x: seq<Act>, a: seq<Act>, b: seq<Act>)
    requires x <= a
    ensures x <= a + b
  {
    assert (a + b)[..|x|] == a[..|x|];
  }

  /** `Since` across two consecutive stretches of a run. */
  lemma ChainActs(u: World, v: World, x: World)
    requires Extends(u, v) && Extends(v, x)
    ensures Extends(u, x)
    ensures Acts(Since(u, x)) == Acts(Since(u, v)) + Acts(Since(v, x))
  {
    ExtendsTransitive(u, v, x);
    ActsAppend(Since(u, v), Since(v, x));
  }

  /** A stretch that did all of `a`, then one that follows `b`. */
  lemma FollowsThen(u: World, v: World, x: World, ok: bool, a: seq<Act>, b: seq<Act>)
    requires Follows(u, v, true, a) && Follows(v, x, ok, b)
    ensures Follows(u, x, ok, a + b)
  {
    ChainActs(u, v, x);
    PrefixConcat(a, Acts(Since(v, x)), b);
  }

  /** A stretch that failed part-way through `a` did not get to `b`. */
  lemma FollowsStop(u: World, v: World, a: seq<Act>, b: seq<Act>)
    requires Follows(u, v, false, a)
    ensures Follows(u, v, false, a + b)
  {
    PrefixExtend(Acts(Since(u, v)), a, b);
  }

  /** A stretch with no act, such as closing a connection, after one that
      follows `a`. */
  lemma FollowsQuiet(u: World, v: World, x: World, ok: bool, a: seq<Act>)
    requires Follows(u, v, ok, a) && Follows(v, x, true, [])
    ensures Follows(u, x, ok, a)
  {
    ChainActs(u, v, x);
    assert Acts(Since(u, v)) + [] == Acts(Since(u, v));
  }

  /** Doing nothing follows the empty plan. */
  lemma FollowsNothing(w: World, ok: bool)
    ensures Follows(w, w, ok, [])
  {
    assert Since(w, w) == [];
  }

  /** One event: a pause is its act, an Exec its command, anything else none. */
  lemma EmitActs(w: World, e: Event)
    ensures Extends(w, Emit(w, e)) && Since(w, Emit(w, e)) == [e]
    ensures Acts([e]) ==
      if e.Sleep? then [Wait(e.seconds)]
      else if e.Exec? then [Cmd(e.host, e.command)]
      else if e.Write? then [Send(e.host, e.path, e.content)]
      else []
  {
    assert Since(w, Emit(w, e)) == [e];
  }

  /** A pause follows the plan of that one pause. */
  lemma FollowsSleep(w: World, seconds: nat)
    ensures Follows(w, SleepFor(w, seconds), true, [Wait(seconds)])
  {
    EmitActs(w, Sleep(seconds));
  }

  /** A unit-valued outcome as the `True` the source returns. */
  function AsTrue(r: Out<()>): Out<bool> {
    Out(r.world, if r.result.Err? then Err(r.result.error) else Ok(true))
  }

  /** The commands issued are a prefix of the plan, and all of it when the
      plan completes; nothing outside the trace changes. */
  lemma {:induction false} RunStepsActs(o: Oracle, w: World, host: string, steps: seq<Step>)
    ensures var r := RunSteps(o, w, host, steps);
      Follows(w, r.world, r.result.Ok?, PlanActs(host, steps))
    decreases |steps|
  {
    if steps != [] {
      var p := Perform(o, w, host, steps[0]);
      var head := [StepAct(host, steps[0])];
      assert Follows(w, p.world, true, head) by {
        assert Since(w, p.world) == [p.world.trace[|w.trace|]];
        assert Acts([p.world.trace[|w.trace|]]) == head;
      }
      if p.result.Err? {
        FollowsStop(w, p.world, head, PlanActs(host, steps[1..]));
      } else {
        var r := RunSteps(o, p.world, host, steps[1..]);
        RunStepsActs(o, p.world, host, steps[1..]);
        FollowsThen(w, p.world, r.world, r.result.Ok?, head, PlanActs(host, steps[1..]));
      }
    }
  }

  /** A session issues a prefix of its plan, all of it on success, and the
      connection it opened is closed last, whatever the plan did. */
  lemma SessionActs(o: Oracle, w: World, host: string, steps: seq<Step>)
    ensures var r := Session(o, w, host, steps);
      Follows(w, r.world, r.result.Ok?, PlanActs(host, steps))
    ensures var c := ConnectSsh(o, w, host);
      var t := Session(o, w, host, steps).world.trace;
      c.result.Ok? ==> (|w.trace| + 2 <= |t| && t[|w.trace|] == Connect(host, true) && t[|t| - 1] == Close(host))
    ensures ConnectSsh(o, w, host).result.Err? ==> Acts(Since(w, Session(o, w, host, steps).world)) == []
  {
    var c := ConnectSsh(o, w, host);
    var key := KeyPath(o.sshKeyEnv, o.home, o.fileExists);
    assert Follows(w, c.world, true, []) by {
      if key.Ok? {
        assert Since(w, c.world) == if o.fileExists(key.value) then [Connect(host, c.result.Ok?)] else [];
      } else {
        assert Since(w, c.world) == [];
      }
    }
    if c.result.Ok? {
      var s := RunSteps(o, c.world, host, steps);
      RunStepsActs(o, c.world, host, steps);
      var v := CloseSsh(s.world, host);
      assert Follows(s.world, v, true, []) by {
        assert Since(s.world, v) == [Close(host)];
      }
      FollowsThen(w, c.world, s.world, s.result.Ok?, [], PlanActs(host, steps));
      FollowsThen(w, s.world, v, true, Acts(Since(w, s.world)), []);
      assert Acts(Since(w, s.world)) + [] == Acts(Since(w, s.world));
      assert c.world.trace[|w.trace|] == Connect(host, true);
    }
  }

  /** Over several hosts: a prefix of the hosts' plans, all of them on
      success. */
  lemma {:induction false} OnHostsActs(o: Oracle, w: World, hosts: seq<string>, steps: seq<Step>)
    ensures var r := OnHostsSpec(o, w, hosts, steps);
      Follows(w, r.world, r.result.Ok?, HostsPlan(hosts, steps))
    decreases |hosts|
  {
    if hosts == [] {
      FollowsNothing(w, true);
    } else {
      var s := Session(o, w, hosts[0], steps);
      SessionActs(o, w, hosts[0], steps);
      if s.result.Err? {
        FollowsStop(w, s.world, PlanActs(hosts[0], steps), HostsPlan(hosts[1..], steps));
      } else {
        var r := OnHostsSpec(o, s.world, hosts[1..], steps);
        OnHostsActs(o, s.world, hosts[1..], steps);
        FollowsThen(w, s.world, r.world, r.result.Ok?, PlanActs(hosts[0], steps), HostsPlan(hosts[1..], steps));
      }
    }
  }

  /** Once a host fails, the hosts after it are never contacted: the run is
      the run over the hosts up to the failing one. */
  lemma {:induction false} OnHostsStopsAtFailure(o: Oracle, w: World, hosts: seq<string>, steps: seq<Step>, k: nat)
    requires k < |hosts|
    requires OnHostsSpec(o, w, hosts[..k + 1], steps).result.Err?
    ensures OnHostsSpec(o, w, hosts, steps) == OnHostsSpec(o, w, hosts[..k + 1], steps)
    decreases k
  {
    assert hosts[..k + 1][0] == hosts[0];
    var s := Session(o, w, hosts[0], steps);
    if s.result.Ok? {
      assert k > 0;
      assert hosts[..k + 1][1..] == hosts[1..][..k];
      OnHostsStopsAtFailure(o, s.world, hosts[1..], steps, k - 1);
    }
  }
}
