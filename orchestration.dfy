/** The specification of `execute_code_in_container` and `clean_up`: the
    sequence safety check, container lookup, resource limits, upload,
    dependency resolution, install, run, and the `finally` block that calls
    `clean_up` whenever a container was resolved. */
module Orchestration {
  import opened Python
  import opened Syntax
  import opened Safety
  import opened Dependencies
  import opened Containers
  import opened Installation

  /** The runner's construction-time settings.  `stdlibModules` and
      `builtinModules` stand for `sys.stdlib_module_names` and
      `sys.builtin_module_names` of the host interpreter. */
  datatype Config = Config(
    containerName: string,
    whitelist: seq<string>,
    cpuQuota: int,
    defaultTimeout: nat,
    memoryLimit: string,
    memswapLimit: string,
    stdlibModules: set<string>,
    builtinModules: set<string>)
  {
    function KnownModules(): set<string> { stdlibModules + builtinModules }
  }

  /** One piece of submitted code, given by what the parser makes of it and by
      the message RestrictedPython's `compile_restricted` raises (None: none). */
  datatype Submission = Submission(parsed: ParseOutcome, restricted: Option<string>)

  const CodeDir := "/code/"
  const CopyFailedMsg := "Failed to copy script to container."
  const TimedOutMsg := "Execution timed out."
  /** The unbound local that `finally` reads first. */
  const ScriptVar := "script_name"

  /** `f"script_{uuid4().hex}.py"` for the hex digits `token`. */
  function ScriptName(token: string): string { "script_" + token + ".py" }
  function RunCommand(script: string): string { "python /code/" + script }
  function RemoveCommand(script: string): string { "rm /code/" + script }
  function NotFoundMsg(name: string): string { "Container with name " + name + " not found." }

  /** What the `try` block (with its `except` clauses) leaves to `finally`. */
  datatype Body = Body(
    pending: string,               // the value the try block returns
    lookedUp: bool,                // `client.containers.get` was called
    container: Option<Container>,  // `container` is set (a Container is truthy)
    script: Option<string>,        // `script_name` is bound; `dependencies` is bound with it
    deps: seq<string>,
    issued: seq<Action>,           // requests made of the container
    staged: Option<string>)        // the file written under /tmp

  /** The outcome of one call: what it returns or raises, whether the container
      was looked up, the requests made of it, the /tmp file written and the
      /tmp file removed. */
  datatype Run = Run(
    result: Completion<string>,
    lookedUp: bool,
    issued: seq<Action>,
    staged: Option<string>,
    unstaged: Option<string>)

  /** `clean_up(container, script_name, dependencies)`: with a non-empty script
      name, remove the /tmp file, `rm` the in-container copy, then uninstall
      every dependency; an uninstall timeout escapes. */
  function CleanUpOutcome(exec: (string, nat) -> ExecAnswer, script: string, deps: seq<string>): Step<()> {
    if script == "" then Step(Normal(()), [])
    else
      var u := Uninstall(exec, deps);
      Step(if u.result.Abrupt? then Abrupt(u.result.error) else Normal(()),
           [Exec(RemoveCommand(script), None)] + u.issued)
  }

  /** What the try block does once the script is uploaded as `name`: the value
      it returns, the dependencies it binds and the requests it makes. */
  datatype Stage = Stage(pending: string, deps: seq<string>, issued: seq<Action>)

  /** Resolve the dependencies, install them, and run the script when
      installing succeeded; a timed-out install surfaces as its text. */
  function InstallAndRun(cfg: Config, nodes: seq<Node>, exec: (string, nat) -> ExecAnswer, name: string): Stage {
    var deps := DependencyList(nodes, cfg.KnownModules());
    var install := Install(cfg.whitelist, exec, deps);
    if install.result.Abrupt? then Stage(ErrorText(install.result.error), deps, install.issued)
    else if install.result.value != InstalledMsg then Stage(install.result.value, deps, install.issued)
    else
      var cmd := RunCommand(name);
      var ran := CommandCompletion(exec(cmd, cfg.defaultTimeout));
      Stage(if ran.Abrupt? then TimedOutMsg else ran.value.output, deps,
            install.issued + [Exec(cmd, Some(cfg.defaultTimeout))])
  }

  /** The try block once the limits are applied: upload, then install and run. */
  function Uploading(cfg: Config, nodes: seq<Node>, c: Container, token: string): Body {
    var name := ScriptName(token);
    if !c.behaviour.archiveAccepted then
      Body(CopyFailedMsg, true, Some(c), None, [], [ArchivePut(CodeDir, name)], Some(name))
    else
      var stage := InstallAndRun(cfg, nodes, c.behaviour.exec, name);
      Body(stage.pending, true, Some(c), Some(name), stage.deps, [ArchivePut(CodeDir, name)] + stage.issued, Some(name))
  }

  /** The try block from the moment a container has been resolved. */
  function InContainer(cfg: Config, nodes: seq<Node>, c: Container, token: string): Body {
    var limits := LimitsUpdated(cfg.cpuQuota, cfg.memoryLimit, cfg.memswapLimit);
    if c.behaviour.updateError.Some? then
      Body(c.behaviour.updateError.value, true, Some(c), None, [], [limits], None)
    else
      var b := Uploading(cfg, nodes, c, token);
      b.(issued := [limits] + b.issued)
  }

  /** The try block of `execute_code_in_container`; `lookup` is the client's
      answer for the configured container name. */
  function TryBody(cfg: Config, sub: Submission, lookup: Lookup, token: string): Body {
    var safety := SafetyCheck(sub.parsed, sub.restricted);
    if !safety.safe then Body(safety.message, false, None, None, [], [], None)
    else
      match lookup
      case NotFound => Body(NotFoundMsg(cfg.containerName), true, None, None, [], [], None)
      case Failed(msg) => Body(msg, true, None, None, [], [], None)
      case Found(c) => InContainer(cfg, sub.parsed.nodes, c, token)
  }

  /** The `clean_up` call the `finally` block makes, as written: none without a
      container; with one, `clean_up(container, script_name, dependencies)`,
      which raises UnboundLocalError when `script_name` was never bound. */
  function FinallyCleanUp(container: Option<Container>, script: Option<string>, deps: seq<string>): Step<()> {
    match container
    case None => Step(Normal(()), [])
    case Some(c) =>
      if script.None? then Step(Abrupt(UnboundLocalError(ScriptVar)), [])
      else CleanUpOutcome(c.behaviour.exec, script.value, deps)
  }

  /** The script file `finally` removes from /tmp. */
  function FinallyRemoves(container: Option<Container>, script: Option<string>): Option<string> {
    if container.Some? && script.Some? && script.value != "" then script else None
  }

  /** The `finally` block: an exception from the cleanup replaces the value
      the try block returns. */
  function Finally(body: Body): Run {
    var clean := FinallyCleanUp(body.container, body.script, body.deps);
    Run(if clean.result.Abrupt? then Abrupt(clean.result.error) else Normal(body.pending),
        body.lookedUp, body.issued + clean.issued, body.staged, FinallyRemoves(body.container, body.script))
  }

  /** `execute_code_in_container` as written. */
  function Execution(cfg: Config, sub: Submission, lookup: Lookup, token: string): Run {
    Finally(TryBody(cfg, sub, lookup, token))
  }

  /** The code passes the safety gate and a container was found. */
  predicate Resolved(sub: Submission, lookup: Lookup) {
    SafetyCheck(sub.parsed, sub.restricted).safe && lookup.Found?
  }

  /** The limits update raises or the upload fails: `script_name` stays unbound. */
  predicate EarlyFailure(sub: Submission, lookup: Lookup) {
    Resolved(sub, lookup)
    && (lookup.c.behaviour.updateError.Some? || !lookup.c.behaviour.archiveAccepted)
  }

  /** Safe code, a container, limits applied and the script uploaded: from here
      on `script_name` and `dependencies` are bound. */
  predicate ScriptBound(sub: Submission, lookup: Lookup) {
    Resolved(sub, lookup) && !EarlyFailure(sub, lookup)
  }

  /** The dependencies resolved for a submission that passed the safety gate. */
  function Deps(cfg: Config, sub: Submission): seq<string>
    requires sub.parsed.Parsed?
  {
    DependencyList(sub.parsed.nodes, cfg.KnownModules())
  }

  /** No `pip uninstall` of the submission's dependencies times out. */
  predicate UninstallsFinish(cfg: Config, sub: Submission, lookup: Lookup)
    requires ScriptBound(sub, lookup)
  {
    forall j :: 0 <= j < |Deps(cfg, sub)| ==> !UninstallAnswer(lookup.c.behaviour.exec, Deps(cfg, sub)[j]).StillRunning?
  }

  /** Unsafe code gets the safety message back; the container is never looked
      up, nothing is sent to it and nothing is cleaned up. */
  lemma UnsafeCodeNeverReachesContainer(cfg: Config, sub: Submission, lookup: Lookup, token: string)
    requires !SafetyCheck(sub.parsed, sub.restricted).safe
    ensures Execution(cfg, sub, lookup, token)
            == Run(Normal(SafetyCheck(sub.parsed, sub.restricted).message), false, [], None, None)
  {
  }

  /** A missing container is reported by name, with nothing sent and nothing cleaned up. */
  lemma MissingContainerReported(cfg: Config, sub: Submission, token: string)
    requires SafetyCheck(sub.parsed, sub.restricted).safe
    ensures Execution(cfg, sub, NotFound, token)
            == Run(Normal("Container with name " + cfg.containerName + " not found."), true, [], None, None)
  {
  }

  /** As written, a failing limits update or upload does not return its message:
      `clean_up` reads the unbound `script_name`, the UnboundLocalError escapes,
      nothing is cleaned up (no `rm` and no uninstall reaches the container,
      whose only requests are the limits and, if those applied, the upload),
      and a rejected upload leaves its /tmp file behind. */
  lemma EarlyFailureEscapes(cfg: Config, sub: Submission, lookup: Lookup, token: string)
    requires EarlyFailure(sub, lookup)
    ensures Execution(cfg, sub, lookup, token).result == Abrupt(UnboundLocalError("script_name"))
    ensures Execution(cfg, sub, lookup, token).unstaged == None
    ensures lookup.c.behaviour.updateError.None? ==>
              Execution(cfg, sub, lookup, token).staged == Some(ScriptName(token))
    ensures ErrorText(Execution(cfg, sub, lookup, token).result.error) != CopyFailedMsg
    ensures Execution(cfg, sub, lookup, token).issued
            == [LimitsUpdated(cfg.cpuQuota, cfg.memoryLimit, cfg.memswapLimit)]
               + (if lookup.c.behaviour.updateError.None? then [ArchivePut(CodeDir, ScriptName(token))] else [])
  {
    assert ErrorText(UnboundLocalError("script_name"))[0] == 'c';
  }

  /** The fix the `if script_name:` guard of `clean_up` was written for: bind
      `script_name` and `dependencies` before the try block, so that `finally`
      skips cleaning up what was never uploaded. */
  function FinallyIntended(body: Body): Run {
    Finally(if body.script.None? then body.(script := Some(""), deps := []) else body)
  }

  /** `execute_code_in_container` with that fix: the upload failure and the
      limits error come back as text, and every other path is unchanged. */
  function ExecutionIntended(cfg: Config, sub: Submission, lookup: Lookup, token: string): (run: Run)
    ensures EarlyFailure(sub, lookup) && lookup.c.behaviour.updateError.Some? ==>
              run.result == Normal(lookup.c.behaviour.updateError.value)
    ensures EarlyFailure(sub, lookup) && lookup.c.behaviour.updateError.None? ==>
              run.result == Normal(CopyFailedMsg)
    ensures !EarlyFailure(sub, lookup) ==> run == Execution(cfg, sub, lookup, token)
  {
    FinallyIntended(TryBody(cfg, sub, lookup, token))
  }

  /** With the fix, an unbound local never escapes: the only exception left is
      an uninstall timeout during cleanup. */
  lemma IntendedRaisesOnlyCleanupTimeout(cfg: Config, sub: Submission, lookup: Lookup, token: string)
    ensures ExecutionIntended(cfg, sub, lookup, token).result.Abrupt? ==>
              ScriptBound(sub, lookup) && !UninstallsFinish(cfg, sub, lookup)
              && ExecutionIntended(cfg, sub, lookup, token).result == Abrupt(CommandTimeout)
  {
    if ScriptBound(sub, lookup) {
      ScriptBoundIssued(cfg, sub, lookup, token);
      if UninstallsFinish(cfg, sub, lookup) {
        UninstallIssuesEveryDependency(lookup.c.behaviour.exec, Deps(cfg, sub));
      }
    }
  }

  lemma CommandsDiffer(name: string, other: string, dep: string)
    ensures RunCommand(name) != InstallCommand(dep)
    ensures RunCommand(name) != UninstallCommand(dep)
    ensures RunCommand(name) != RemoveCommand(other)
  {
    assert RunCommand(name)[1] == 'y';
    assert InstallCommand(dep)[1] == 'i';
    assert UninstallCommand(dep)[1] == 'i';
    assert RemoveCommand(other)[0] == 'r';
  }

  /** The try block binds the looked-up container, or sends nothing at all. */
  lemma TryBodyContainer(cfg: Config, sub: Submission, lookup: Lookup, token: string)
    ensures var body := TryBody(cfg, sub, lookup, token);
            (body.container.Some? ==> lookup.Found? && body.container == Some(lookup.c))
            && (body.container.None? ==> body.issued == [])
  {
  }

  lemma ExecutionIssued(cfg: Config, sub: Submission, lookup: Lookup, token: string)
    ensures var body := TryBody(cfg, sub, lookup, token);
            Execution(cfg, sub, lookup, token).issued
              == body.issued + FinallyCleanUp(body.container, body.script, body.deps).issued
  {
  }

  lemma TryBodyResolved(cfg: Config, sub: Submission, lookup: Lookup, token: string)
    requires Resolved(sub, lookup)
    ensures TryBody(cfg, sub, lookup, token) == InContainer(cfg, sub.parsed.nodes, lookup.c, token)
  {
  }

  lemma InstallAndRunIssued(cfg: Config, nodes: seq<Node>, exec: (string, nat) -> ExecAnswer, name: string)
    ensures var install := Install(cfg.whitelist, exec, DependencyList(nodes, cfg.KnownModules()));
            InstallAndRun(cfg, nodes, exec, name).issued
              == install.issued
                 + (if install.result == Normal(InstalledMsg) then [Exec(RunCommand(name), Some(cfg.defaultTimeout))] else [])
  {
    var install := Install(cfg.whitelist, exec, DependencyList(nodes, cfg.KnownModules()));
    assert install.issued + [] == install.issued;
  }

  lemma UploadingAccepted(cfg: Config, nodes: seq<Node>, c: Container, token: string)
    requires c.behaviour.archiveAccepted
    ensures var name := ScriptName(token);
            var stage := InstallAndRun(cfg, nodes, c.behaviour.exec, name);
            Uploading(cfg, nodes, c, token)
              == Body(stage.pending, true, Some(c), Some(name), stage.deps, [ArchivePut(CodeDir, name)] + stage.issued, Some(name))
  {
  }

  lemma InContainerUploaded(cfg: Config, nodes: seq<Node>, c: Container, token: string)
    requires c.behaviour.updateError.None? && c.behaviour.archiveAccepted
    ensures var name := ScriptName(token);
            var b := InContainer(cfg, nodes, c, token);
            b.issued == [LimitsUpdated(cfg.cpuQuota, cfg.memoryLimit, cfg.memswapLimit), ArchivePut(CodeDir, name)]
                        + InstallAndRun(cfg, nodes, c.behaviour.exec, name).issued
            && b.container == Some(c) && b.script == Some(name) && b.staged == Some(name)
            && b.deps == DependencyList(nodes, cfg.KnownModules())
            && b.pending == InstallAndRun(cfg, nodes, c.behaviour.exec, name).pending
  {
  }

  /** With a container and a non-empty script name, `finally` cleans up. */
  lemma FinallyCleansUp(body: Body)
    requires body.container.Some? && body.script.Some? && body.script.value != ""
    ensures var exec := body.container.value.behaviour.exec;
            var u := Uninstall(exec, body.deps);
            var run := Finally(body);
            run.issued == body.issued + [Exec(RemoveCommand(body.script.value), None)] + u.issued
            && run.result == (if u.result.Abrupt? then Abrupt(u.result.error) else Normal(body.pending))
            && run.staged == body.staged && run.unstaged == body.script
  {
  }

  /** The requests of a run that has its script bound: limits, upload, the
      installs, the run itself when installing succeeded, then the cleanup. */
  lemma ScriptBoundIssued(cfg: Config, sub: Submission, lookup: Lookup, token: string)
    requires ScriptBound(sub, lookup)
    ensures var exec := lookup.c.behaviour.exec;
            var name := ScriptName(token);
            var install := Install(cfg.whitelist, exec, Deps(cfg, sub));
            var run := Execution(cfg, sub, lookup, token);
            run.issued ==
              [LimitsUpdated(cfg.cpuQuota, cfg.memoryLimit, cfg.memswapLimit), ArchivePut(CodeDir, name)]
              + install.issued
              + (if install.result == Normal(InstalledMsg) then [Exec(RunCommand(name), Some(cfg.defaultTimeout))] else [])
              + [Exec(RemoveCommand(name), None)]
              + Uninstall(exec, Deps(cfg, sub)).issued
            && run.staged == Some(name) && run.unstaged == Some(name)
            && run.result == (if Uninstall(exec, Deps(cfg, sub)).result.Abrupt? then Abrupt(CommandTimeout)
                              else Normal(InstallAndRun(cfg, sub.parsed.nodes, exec, name).pending))
  {
    var exec := lookup.c.behaviour.exec;
    var name := ScriptName(token);
    var nodes := sub.parsed.nodes;
    assert name[0] == 's';
    var body := TryBody(cfg, sub, lookup, token);
    TryBodyResolved(cfg, sub, lookup, token);
    InContainerUploaded(cfg, nodes, lookup.c, token);
    InstallAndRunIssued(cfg, nodes, exec, name);
    var head := [LimitsUpdated(cfg.cpuQuota, cfg.memoryLimit, cfg.memswapLimit), ArchivePut(CodeDir, name)];
    var install := Install(cfg.whitelist, exec, Deps(cfg, sub));
    var ran := if install.result == Normal(InstalledMsg) then [Exec(RunCommand(name), Some(cfg.defaultTimeout))] else [];
    assert body.issued == head + (install.issued + ran);
    AppendAssociative(head, install.issued, ran);
    FinallyCleansUp(body);
  }

  /** Whenever the script was uploaded, cleanup runs: the in-container copy and
      the /tmp file are removed, and unless an uninstall times out every
      dependency of the submission is uninstalled. */
  lemma CleanupWheneverScriptBound(cfg: Config, sub: Submission, lookup: Lookup, token: string)
    requires ScriptBound(sub, lookup)
    ensures Exec(RemoveCommand(ScriptName(token)), None) in Execution(cfg, sub, lookup, token).issued
    ensures Execution(cfg, sub, lookup, token).unstaged == Execution(cfg, sub, lookup, token).staged
    ensures UninstallsFinish(cfg, sub, lookup) ==>
              forall d :: d in Deps(cfg, sub) ==>
                Exec(UninstallCommand(d), Some(PipTimeout)) in Execution(cfg, sub, lookup, token).issued
  {
    ScriptBoundIssued(cfg, sub, lookup, token);
    var run := Execution(cfg, sub, lookup, token);
    var deps := Deps(cfg, sub);
    var exec := lookup.c.behaviour.exec;
    var name := ScriptName(token);
    var install := Install(cfg.whitelist, exec, deps);
    var before := [LimitsUpdated(cfg.cpuQuota, cfg.memoryLimit, cfg.memswapLimit), ArchivePut(CodeDir, name)]
                  + install.issued
                  + (if install.result == Normal(InstalledMsg) then [Exec(RunCommand(name), Some(cfg.defaultTimeout))] else []);
    var tail := Uninstall(exec, deps).issued;
    assert run.issued == before + [Exec(RemoveCommand(name), None)] + tail;
    assert run.issued[|before|] == Exec(RemoveCommand(name), None);
    if UninstallsFinish(cfg, sub, lookup) {
      assert forall d :: d in deps ==> Exec(UninstallCommand(d), Some(PipTimeout)) in tail by {
        UninstallIssuesEveryDependency(exec, deps);
        forall d | d in deps ensures Exec(UninstallCommand(d), Some(PipTimeout)) in tail {
          var j :| 0 <= j < |deps| && deps[j] == d;
          assert tail[j] == Exec(UninstallCommand(d), Some(PipTimeout));
        }
      }
    }
  }

  /** A message from installing other than success (a whitelist rejection or a
      failed install) is returned verbatim and the script is never run. */
  lemma InstallRejectionReturnedVerbatim(cfg: Config, sub: Submission, lookup: Lookup, token: string, m: string)
    requires ScriptBound(sub, lookup) && UninstallsFinish(cfg, sub, lookup)
    requires Install(cfg.whitelist, lookup.c.behaviour.exec, Deps(cfg, sub)).result == Normal(m)
    requires m != InstalledMsg
    ensures Execution(cfg, sub, lookup, token).result == Normal(m)
    ensures forall t :: Exec(RunCommand(ScriptName(token)), t) !in Execution(cfg, sub, lookup, token).issued
  {
    ScriptBoundIssued(cfg, sub, lookup, token);
    UninstallIssuesEveryDependency(lookup.c.behaviour.exec, Deps(cfg, sub));
    ScriptNeverRunUnlessInstalled(cfg, sub, lookup, token);
  }

  /** Unless every install succeeded, the script is never run, whether installing
      was rejected, failed or timed out, and whatever happens during cleanup. */
  lemma ScriptNeverRunUnlessInstalled(cfg: Config, sub: Submission, lookup: Lookup, token: string)
    requires ScriptBound(sub, lookup)
    requires Install(cfg.whitelist, lookup.c.behaviour.exec, Deps(cfg, sub)).result != Normal(InstalledMsg)
    ensures forall t :: Exec(RunCommand(ScriptName(token)), t) !in Execution(cfg, sub, lookup, token).issued
  {
    var exec := lookup.c.behaviour.exec;
    var deps := Deps(cfg, sub);
    var name := ScriptName(token);
    var install := Install(cfg.whitelist, exec, deps).issued;
    var tail := Uninstall(exec, deps).issued;
    var head := [LimitsUpdated(cfg.cpuQuota, cfg.memoryLimit, cfg.memswapLimit), ArchivePut(CodeDir, name)];
    var issued := Execution(cfg, sub, lookup, token).issued;
    UnrunIssued(cfg, sub, lookup, token);
    forall t ensures Exec(RunCommand(name), t) !in issued {
      NoRunAmongPipCommands(cfg.whitelist, exec, deps, name);
      CommandsDiffer(name, name, "");
      NotInConcat(Exec(RunCommand(name), t), head, install, [Exec(RemoveCommand(name), None)], tail);
    }
  }

  /** The requests of a run whose installing did not succeed: limits, upload,
      the installs, `rm`, the uninstalls. */
  lemma UnrunIssued(cfg: Config, sub: Submission, lookup: Lookup, token: string)
    requires ScriptBound(sub, lookup)
    requires Install(cfg.whitelist, lookup.c.behaviour.exec, Deps(cfg, sub)).result != Normal(InstalledMsg)
    ensures var name := ScriptName(token);
            Execution(cfg, sub, lookup, token).issued
              == [LimitsUpdated(cfg.cpuQuota, cfg.memoryLimit, cfg.memswapLimit), ArchivePut(CodeDir, name)]
                 + Install(cfg.whitelist, lookup.c.behaviour.exec, Deps(cfg, sub)).issued
                 + [Exec(RemoveCommand(name), None)]
                 + Uninstall(lookup.c.behaviour.exec, Deps(cfg, sub)).issued
  {
    ScriptBoundIssued(cfg, sub, lookup, token);
    var install := Install(cfg.whitelist, lookup.c.behaviour.exec, Deps(cfg, sub)).issued;
    assert install + [] == install;
  }

  /** No command that installing or uninstalling issues runs a script. */
  lemma NoRunAmongPipCommands(whitelist: seq<string>, exec: (string, nat) -> ExecAnswer, deps: seq<string>, name: string)
    ensures forall t :: Exec(RunCommand(name), t) !in Install(whitelist, exec, deps).issued
    ensures forall t :: Exec(RunCommand(name), t) !in Uninstall(exec, deps).issued
  {
    InstallIssuesPrefix(whitelist, exec, deps);
    var n :| 0 <= n <= |deps| && Install(whitelist, exec, deps).issued == Attempts(InstallCommand, deps[..n]);
    NoRunAmongAttempts(name, deps[..n]);
    UninstallIssuesPrefix(exec, deps);
    var u :| 0 <= u <= |deps| && Uninstall(exec, deps).issued == Attempts(UninstallCommand, deps[..u]);
    NoRunAmongAttempts(name, deps[..u]);
  }

  /** No `pip install` or `pip uninstall` is ever the command that runs a script. */
  lemma NoRunAmongAttempts(name: string, deps: seq<string>)
    ensures forall t :: Exec(RunCommand(name), t) !in Attempts(InstallCommand, deps)
    ensures forall t :: Exec(RunCommand(name), t) !in Attempts(UninstallCommand, deps)
  {
    forall i | 0 <= i < |deps| {
      CommandsDiffer(name, name, deps[i]);
    }
  }


  /** A run that outlasts the configured timeout is reported as such. */
  lemma RunTimeoutReported(cfg: Config, sub: Submission, lookup: Lookup, token: string)
    requires ScriptBound(sub, lookup) && UninstallsFinish(cfg, sub, lookup)
    requires Install(cfg.whitelist, lookup.c.behaviour.exec, Deps(cfg, sub)).result == Normal(InstalledMsg)
    requires lookup.c.behaviour.exec(RunCommand(ScriptName(token)), cfg.defaultTimeout).StillRunning?
    ensures Execution(cfg, sub, lookup, token).result == Normal("Execution timed out.")
  {
    UninstallIssuesEveryDependency(lookup.c.behaviour.exec, Deps(cfg, sub));
  }

  /** A run that finishes returns its output (its exit code is ignored), and the
      requests are exactly: limits, upload, every install, the run, the `rm`,
      every uninstall. */
  lemma SuccessfulRunReturnsOutput(cfg: Config, sub: Submission, lookup: Lookup, token: string)
    requires ScriptBound(sub, lookup) && UninstallsFinish(cfg, sub, lookup)
    requires Install(cfg.whitelist, lookup.c.behaviour.exec, Deps(cfg, sub)).result == Normal(InstalledMsg)
    requires lookup.c.behaviour.exec(RunCommand(ScriptName(token)), cfg.defaultTimeout).Done?
    ensures var a := lookup.c.behaviour.exec(RunCommand(ScriptName(token)), cfg.defaultTimeout);
            Execution(cfg, sub, lookup, token).result == Normal(if a.output.Some? then a.output.value else "")
    ensures var name := ScriptName(token);
            Execution(cfg, sub, lookup, token).issued ==
              [LimitsUpdated(cfg.cpuQuota, cfg.memoryLimit, cfg.memswapLimit), ArchivePut(CodeDir, name)]
              + Attempts(InstallCommand, Deps(cfg, sub))
              + [Exec(RunCommand(name), Some(cfg.defaultTimeout)), Exec(RemoveCommand(name), None)]
              + Attempts(UninstallCommand, Deps(cfg, sub))
  {
    var exec := lookup.c.behaviour.exec;
    var deps := Deps(cfg, sub);
    UninstallIssuesEveryDependency(exec, deps);
    InstallSucceedsIff(cfg.whitelist, exec, deps);
    ScriptBoundIssued(cfg, sub, lookup, token);
    assert FirstNotInstalled(exec, deps) == |deps|;
  }

  /** An install that times out raises CommandTimeout inside the try block; the
      outer `except` turns it into its text. */
  lemma InstallTimeoutReportedAsText(cfg: Config, sub: Submission, lookup: Lookup, token: string)
    requires ScriptBound(sub, lookup) && UninstallsFinish(cfg, sub, lookup)
    requires Install(cfg.whitelist, lookup.c.behaviour.exec, Deps(cfg, sub)).result.Abrupt?
    ensures Execution(cfg, sub, lookup, token).result == Normal("Command timed out")
  {
    UninstallIssuesEveryDependency(lookup.c.behaviour.exec, Deps(cfg, sub));
    var install := Install(cfg.whitelist, lookup.c.behaviour.exec, Deps(cfg, sub));
    assert install.result.error == CommandTimeout;
  }

  /** An uninstall that times out during cleanup escapes from `finally` and
      replaces whatever the try block returned. */
  lemma CleanupTimeoutEscapes(cfg: Config, sub: Submission, lookup: Lookup, token: string)
    requires ScriptBound(sub, lookup) && !UninstallsFinish(cfg, sub, lookup)
    ensures Execution(cfg, sub, lookup, token).result == Abrupt(CommandTimeout)
  {
    var exec := lookup.c.behaviour.exec;
    var deps := Deps(cfg, sub);
    assert Uninstall(exec, deps).result.Abrupt? by {
      var j :| 0 <= j < |deps| && UninstallAnswer(exec, deps[j]).StillRunning?;
      assert FirstUninstallTimeout(exec, deps) <= j;
    }
    ScriptBoundIssued(cfg, sub, lookup, token);
  }
  /** The calls and imports of `import numpy as np` and
      `print(np.array([1, 2, 3]))`, in walk order. */
  const NumpyNodes: seq<Node> := [Import(["numpy"]), Call(Name("print")), Call(Attribute("array"))]

  lemma NumpyNodesFacts(known: set<string>)
    requires "numpy" !in known
    ensures SafetyCheck(Parsed(NumpyNodes), None).safe
    ensures DependencyList(NumpyNodes, known) == ["numpy"]
  {
    NumpyNodesSafe();
    NumpyNodesCollected(known);
    DedupOne("numpy");
  }

  lemma NumpyNodesCollected(known: set<string>)
    requires "numpy" !in known
    ensures Collected(NumpyNodes, known) == ["numpy"]
  {
    var nodes := NumpyNodes;
    assert Contribution(nodes[1], known) == [] && Contribution(nodes[2], known) == [];
    CollectedIgnoresSilentTail(nodes, 1, known);
    assert nodes[..1] == [Import(["numpy"])];
    ImportOneContribution("numpy", known);
    assert [Import(["numpy"])][..0] == [];
  }

  lemma NumpyNodesSafe()
    ensures SafetyCheck(Parsed(NumpyNodes), None).safe
  {
    NumpyImportPasses();
    NumpyCallsPass();
    assert forall i :: 0 <= i < |NumpyNodes| ==> NodeViolation(NumpyNodes[i]).None?;
  }

  lemma NumpyCallsPass()
    ensures NodeViolation(Call(Name("print"))).None?
    ensures NodeViolation(Call(Attribute("array"))).None?
  {
    assert "print" !in DangerousBuiltins && "print" !in UnsafeFunctions;
    assert "array" !in UnsafeFunctions;
  }

  lemma NumpyImportPasses()
    ensures NodeViolation(Import(["numpy"])).None?
  {
    TopSegmentOfUndotted("numpy");
    assert |"numpy"| == 5 && "numpy" !in UnsafeModules;
    assert !AliasUnsafe(["numpy"][0]);
  }

  /** That code under the whitelist ["pandas"]: the whitelist message comes
      back and no install command is issued. */
  lemma WhitelistRejectionExample(cfg: Config, lookup: Lookup, token: string)
    requires cfg.whitelist == ["pandas"] && "numpy" !in cfg.KnownModules()
    requires lookup.Found? && lookup.c.behaviour.updateError.None? && lookup.c.behaviour.archiveAccepted
    requires !UninstallAnswer(lookup.c.behaviour.exec, "numpy").StillRunning?
    ensures var sub := Submission(Parsed(NumpyNodes), None);
            Execution(cfg, sub, lookup, token).result == Normal(NotWhitelistedMsg("numpy"))
            && Install(cfg.whitelist, lookup.c.behaviour.exec, Deps(cfg, sub)).issued == []
  {
    var sub := Submission(Parsed(NumpyNodes), None);
    NumpySubmissionRuns(cfg, lookup);
    NumpyRejectedByWhitelist(cfg, lookup.c.behaviour.exec);
    NotWhitelistedIsNotSuccess("numpy");
    InstallRejectionReturnedVerbatim(cfg, sub, lookup, token, NotWhitelistedMsg("numpy"));
  }

  lemma NumpySubmissionRuns(cfg: Config, lookup: Lookup)
    requires "numpy" !in cfg.KnownModules()
    requires lookup.Found? && lookup.c.behaviour.updateError.None? && lookup.c.behaviour.archiveAccepted
    requires !UninstallAnswer(lookup.c.behaviour.exec, "numpy").StillRunning?
    ensures var sub := Submission(Parsed(NumpyNodes), None);
            ScriptBound(sub, lookup) && Deps(cfg, sub) == ["numpy"] && UninstallsFinish(cfg, sub, lookup)
  {
    NumpyNodesFacts(cfg.KnownModules());
  }

  lemma NumpyRejectedByWhitelist(cfg: Config, exec: (string, nat) -> ExecAnswer)
    requires cfg.whitelist == ["pandas"] && "numpy" !in cfg.KnownModules()
    ensures Install(cfg.whitelist, exec, DependencyList(NumpyNodes, cfg.KnownModules()))
            == Step(Normal(NotWhitelistedMsg("numpy")), [])
  {
    NumpyNodesFacts(cfg.KnownModules());
    assert |"numpy"| == 5 && |"pandas"| == 6 && |Wildcard| == 1;
    assert Wildcard !in cfg.whitelist && "numpy" !in cfg.whitelist;
    WhitelistRejectsBeforeAnyCommand(cfg.whitelist, exec, ["numpy"], 0);
  }
}
