/** The `AgentRun` object: its configuration, its Docker client, and the
    scripts it has written under /tmp.  Each method follows the statements
    of the corresponding Python method and is proved against the
    specification functions of the other modules. */
module Runner {
  import opened Python
  import opened Syntax
  import opened Safety
  import opened Dependencies
  import opened Containers
  import opened Installation
  import opened Orchestration

  function OptionSet(o: Option<string>): set<string> {
    if o.Some? then {o.value} else {}
  }

  class AgentRun {
    const config: Config
    const client: DockerClient
    /** The script files present under /tmp. */
    var staged: set<string>

    constructor(config: Config, client: DockerClient)
      ensures this.config == config && this.client == client && staged == {}
    {
      this.config := config;
      this.client := client;
      staged := {};
    }

    /** The container the client resolves the configured name to, if any. */
    function Target(): set<Container> {
      var lookup := client.containers(config.containerName);
      if lookup.Found? then {lookup.c} else {}
    }

    /** `safety_check`: a syntax error is reported first; then the walk stops
        at the first node that violates a deny-list; only a clean walk reaches
        the restricted compilation. */
    method SafetyCheck(sub: Submission) returns (r: SafetyResult)
      ensures r == Safety.SafetyCheck(sub.parsed, sub.restricted)
    {
      if sub.parsed.SyntaxError? {
        return SafetyResult(false, SyntaxErrorMsg(sub.parsed.msg));
      }
      var nodes := sub.parsed.nodes;
      var i := 0;
      while i < |nodes|
        invariant 0 <= i <= |nodes|
        invariant forall j :: 0 <= j < i ==> NodeViolation(nodes[j]).None?
      {
        var violation := NodeViolation(nodes[i]);
        if violation.Some? {
          return SafetyResult(false, violation.value);
        }
        i := i + 1;
      }
      if sub.restricted.Some? {
        return SafetyResult(false, RestrictedMsg(sub.restricted.value));
      }
      return SafetyResult(true, SafeMessage);
    }

    /** `execute_command_in_container`: the command is issued; a worker still
        running at the timeout raises CommandTimeout, otherwise the exit code
        and the output (empty when there was none) come back. */
    method ExecuteCommandInContainer(c: Container, cmd: string, timeout: nat) returns (r: Completion<CommandResult>)
      modifies c
      ensures c.log == old(c.log) + [Exec(cmd, Some(timeout))]
      ensures r == CommandCompletion(c.behaviour.exec(cmd, timeout))
    {
      var answer := c.TimedExec(cmd, timeout);
      match answer
      case StillRunning =>
        r := Abrupt(CommandTimeout);
      case Done(exitCode, output) =>
        var text := if output.Some? then output.value else "";
        r := Normal(CommandResult(exitCode, text));
    }

    /** `parse_dependencies` over the nodes of the walked tree: exactly the
        non-standard top-level modules imported, each once. */
    method ParseDependencies(nodes: seq<Node>) returns (deps: seq<string>)
      ensures deps == DependencyList(nodes, config.KnownModules())
      ensures NoDuplicates(deps)
      ensures forall d :: d in deps <==> IsDependency(nodes, config.KnownModules(), d)
    {
      var known := config.KnownModules();
      var collected: seq<string> := [];
      var i := 0;
      while i < |nodes|
        invariant 0 <= i <= |nodes|
        invariant collected == Collected(nodes[..i], known)
      {
        CollectedGrow(nodes, i, known);
        ghost var start := collected;
        match nodes[i] {
          case Import(names) =>
            var j := 0;
            while j < |names|
              invariant 0 <= j <= |names|
              invariant collected == start + AliasRoots(names[..j], known)
            {
              AliasRootsGrow(names, j, known);
              var root := TopSegment(names[j]);
              if root !in known {
                AppendAssociative(start, AliasRoots(names[..j], known), [root]);
                collected := collected + [root];
              }
              j := j + 1;
            }
            assert names[..|names|] == names;
          case ImportFrom(fromModule, _) =>
            var root := if fromModule.Some? then TopSegment(fromModule.value) else "";
            if root != "" && root !in known {
              collected := collected + [root];
            }
          case _ =>
        }
        assert collected == start + Contribution(nodes[i], known);
        i := i + 1;
      }
      assert nodes[..|nodes|] == nodes;
      deps := Dedup(collected);
      DependencyListMeaning(nodes, known);
    }

    /** `install_dependencies`: the whitelist pre-check, then one timed
        `pip install` per dependency until one does not exit with 0. */
    method InstallDependencies(c: Container, deps: seq<string>) returns (r: Completion<string>)
      modifies c
      ensures var s := Install(config.whitelist, c.behaviour.exec, deps);
              r == s.result && c.log == old(c.log) + s.issued
    {
      var exec := c.behaviour.exec;
      if Wildcard !in config.whitelist {
        var i := 0;
        while i < |deps|
          invariant 0 <= i <= |deps|
          invariant forall j :: 0 <= j < i ==> deps[j] in config.whitelist
        {
          if deps[i] !in config.whitelist {
            WhitelistRejectsBeforeAnyCommand(config.whitelist, exec, deps, i);
            return Normal(NotWhitelistedMsg(deps[i]));
          }
          i := i + 1;
        }
      }
      var i := 0;
      while i < |deps|
        invariant 0 <= i <= |deps|
        invariant c.log == old(c.log) + Attempts(InstallCommand, deps[..i])
        invariant forall j :: 0 <= j < i ==> Installs(InstallAnswer(exec, deps[j]))
      {
        AttemptsGrow(InstallCommand, deps, i);
        var outcome := ExecuteCommandInContainer(c, InstallCommand(deps[i]), PipTimeout);
        if outcome.Abrupt? {
          InstallStopsAt(config.whitelist, exec, deps, i);
          return Abrupt(outcome.error);
        }
        if outcome.value.exitCode != Some(0) {
          InstallStopsAt(config.whitelist, exec, deps, i);
          return Normal(InstallFailedMsg(deps[i]));
        }
        i := i + 1;
      }
      assert deps[..|deps|] == deps;
      InstallSucceeds(config.whitelist, exec, deps);
      return Normal(InstalledMsg);
    }

    /** `uninstall_dependencies`: one timed `pip uninstall` per dependency,
        whatever its exit code. */
    method UninstallDependencies(c: Container, deps: seq<string>) returns (r: Completion<string>)
      modifies c
      ensures var s := Uninstall(c.behaviour.exec, deps);
              r == s.result && c.log == old(c.log) + s.issued
    {
      var i := 0;
      while i < |deps|
        invariant 0 <= i <= |deps|
        invariant c.log == old(c.log) + Attempts(UninstallCommand, deps[..i])
        invariant forall j :: 0 <= j < i ==> !UninstallAnswer(c.behaviour.exec, deps[j]).StillRunning?
      {
        AttemptsGrow(UninstallCommand, deps, i);
        var outcome := ExecuteCommandInContainer(c, UninstallCommand(deps[i]), PipTimeout);
        if outcome.Abrupt? {
          assert FirstUninstallTimeout(c.behaviour.exec, deps) == i;
          return Abrupt(outcome.error);
        }
        i := i + 1;
      }
      assert deps[..|deps|] == deps;
      return Normal(UninstalledMsg);
    }

    /** `copy_code_to_container`: the script is written under /tmp as
        `script_<token>.py` and uploaded to /code/; the name comes back on
        success, the failure message otherwise. */
    method CopyCodeToContainer(c: Container, token: string) returns (success: bool, message: string)
      modifies this, c
      ensures staged == old(staged) + {ScriptName(token)}
      ensures c.log == old(c.log) + [ArchivePut(CodeDir, ScriptName(token))]
      ensures success == c.behaviour.archiveAccepted
      ensures message == if success then ScriptName(token) else CopyFailedMsg
    {
      var name := ScriptName(token);
      staged := staged + {name};
      var accepted := c.PutArchive(CodeDir, name);
      if accepted {
        return true, name;
      }
      return false, CopyFailedMsg;
    }

    /** `clean_up`: with a non-empty script name, the /tmp file and the
        in-container copy are removed and every dependency is uninstalled. */
    method CleanUp(c: Container, scriptName: string, deps: seq<string>) returns (r: Completion<()>)
      modifies this, c
      ensures var s := CleanUpOutcome(c.behaviour.exec, scriptName, deps);
              r == s.result && c.log == old(c.log) + s.issued
      ensures staged == if scriptName != "" then old(staged) - {scriptName} else old(staged)
    {
      if scriptName != "" {
        staged := staged - {scriptName};
        c.ExecRun(RemoveCommand(scriptName));
        var uninstalled := UninstallDependencies(c, deps);
        if uninstalled.Abrupt? {
          return Abrupt(uninstalled.error);
        }
      }
      return Normal(());
    }

    /** The statements of the try block after a successful upload of `name`. */
    method InstallAndRunScript(c: Container, nodes: seq<Node>, name: string) returns (pending: string, deps: seq<string>)
      modifies c
      ensures var s := InstallAndRun(config, nodes, c.behaviour.exec, name);
              pending == s.pending && deps == s.deps && c.log == old(c.log) + s.issued
    {
      deps := ParseDependencies(nodes);
      var installed := InstallDependencies(c, deps);
      if installed.Abrupt? {
        return ErrorText(installed.error), deps;
      }
      if installed.value != InstalledMsg {
        return installed.value, deps;
      }
      var ran := ExecuteCommandInContainer(c, RunCommand(name), config.defaultTimeout);
      if ran.Abrupt? {
        return TimedOutMsg, deps;
      }
      return ran.value.output, deps;
    }

    /** The upload and what follows it, with the locals they leave bound. */
    method UploadAndRun(c: Container, nodes: seq<Node>, token: string)
      returns (pending: string, script: Option<string>, deps: seq<string>)
      modifies this, c
      ensures var b := Uploading(config, nodes, c, token);
              pending == b.pending && script == b.script && deps == b.deps
              && c.log == old(c.log) + b.issued && staged == old(staged) + OptionSet(b.staged)
    {
      script, deps := None, [];
      ghost var log0 := c.log;
      var success, message := CopyCodeToContainer(c, token);
      if !success {
        return message, script, deps;
      }
      script := Some(message);
      UploadingAccepted(config, nodes, c, token);
      pending, deps := InstallAndRunScript(c, nodes, message);
      ghost var stage := InstallAndRun(config, nodes, c.behaviour.exec, message);
      AppendAssociative(log0, [ArchivePut(CodeDir, message)], stage.issued);
    }

    /** The statements of the try block of `execute_code_in_container` that
        follow a successful lookup, with the locals they leave bound. */
    method TryInContainer(c: Container, nodes: seq<Node>, token: string)
      returns (pending: string, script: Option<string>, deps: seq<string>)
      modifies this, c
      ensures var b := InContainer(config, nodes, c, token);
              pending == b.pending && script == b.script && deps == b.deps
              && c.log == old(c.log) + b.issued && staged == old(staged) + OptionSet(b.staged)
    {
      script, deps := None, [];
      ghost var log0 := c.log;
      var updateError := c.Update(config.cpuQuota, config.memoryLimit, config.memswapLimit);
      if updateError.Some? {
        return updateError.value, script, deps;
      }
      pending, script, deps := UploadAndRun(c, nodes, token);
      ghost var b := Uploading(config, nodes, c, token);
      AppendAssociative(log0, [LimitsUpdated(config.cpuQuota, config.memoryLimit, config.memswapLimit)], b.issued);
    }

    /** The try block of `execute_code_in_container` with its `except`
        clauses: the value it returns and the locals `container`,
        `script_name` and `dependencies` as it leaves them. */
    method TryBlock(sub: Submission, token: string)
      returns (pending: string, container: Option<Container>, script: Option<string>, deps: seq<string>)
      requires client.containers(config.containerName).Found? ==> allocated(client.containers(config.containerName).c)
      modifies this, client, Target()
      ensures var body := TryBody(config, sub, client.containers(config.containerName), token);
              pending == body.pending && container == body.container && script == body.script && deps == body.deps
              && staged == old(staged) + OptionSet(body.staged)
              && client.requests == old(client.requests) + (if body.lookedUp then [config.containerName] else [])
      ensures var lookup := client.containers(config.containerName);
              lookup.Found? ==>
                lookup.c.log == old(lookup.c.log) + TryBody(config, sub, lookup, token).issued
    {
      container, script, deps := None, None, [];
      var safety := SafetyCheck(sub);
      if !safety.safe {
        return safety.message, container, script, deps;
      }
      var lookup := client.Get(config.containerName);
      match lookup
      case NotFound =>
        pending := NotFoundMsg(config.containerName);
      case Failed(msg) =>
        pending := msg;
      case Found(c) =>
        container := Some(c);
        TryBodyResolved(config, sub, lookup, token);
        pending, script, deps := TryInContainer(c, sub.parsed.nodes, token);
    }

    /** The `finally` block of `execute_code_in_container`: once a container
        is set, `clean_up(container, script_name, dependencies)` runs, and an
        unbound `script_name` raises before it starts. */
    method FinallyBlock(container: Option<Container>, script: Option<string>, deps: seq<string>)
      returns (r: Completion<()>)
      modifies this, if container.Some? then {container.value} else {}
      ensures var s := FinallyCleanUp(container, script, deps);
              r == s.result && (container.Some? ==> container.value.log == old(container.value.log) + s.issued)
      ensures staged == old(staged) - OptionSet(FinallyRemoves(container, script))
    {
      if container.None? {
        return Normal(());
      }
      if script.None? {
        return Abrupt(UnboundLocalError(ScriptVar));
      }
      r := CleanUp(container.value, script.value, deps);
    }

    /** `execute_code_in_container` as written: what it returns or raises, the
        lookup, the requests made of the container and the /tmp files left
        are those of `Execution`. */
    method ExecuteCodeInContainer(sub: Submission, token: string) returns (out: Completion<string>)
      requires client.containers(config.containerName).Found? ==> allocated(client.containers(config.containerName).c)
      modifies this, client, Target()
      ensures var run := Execution(config, sub, client.containers(config.containerName), token);
              out == run.result
              && client.requests == old(client.requests) + (if run.lookedUp then [config.containerName] else [])
              && staged == (old(staged) + OptionSet(run.staged)) - OptionSet(run.unstaged)
      ensures var lookup := client.containers(config.containerName);
              lookup.Found? ==>
                lookup.c.log == old(lookup.c.log) + Execution(config, sub, lookup, token).issued
    {
      ghost var lookup := client.containers(config.containerName);
      ghost var body := TryBody(config, sub, lookup, token);
      var pending, container, script, deps := TryBlock(sub, token);
      ghost var tried := if lookup.Found? then lookup.c.log else [];
      var cleaned := FinallyBlock(container, script, deps);
      out := if cleaned.Abrupt? then Abrupt(cleaned.error) else Normal(pending);
      ghost var clean := FinallyCleanUp(container, script, deps);
      TryBodyContainer(config, sub, lookup, token);
      ExecutionIssued(config, sub, lookup, token);
      if lookup.Found? {
        if container.None? {
          assert clean.issued == [] && lookup.c.log == tried;
          assert body.issued + clean.issued == body.issued;
        } else {
          assert lookup.c.log == tried + clean.issued;
        }
        AppendAssociative(old(lookup.c.log), body.issued, clean.issued);
      }
    }
  }
}
