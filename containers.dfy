/** The Docker boundary the runner talks to.  A container is an external object:
    the model records every request the runner makes of it in `log`, and what
    the container answers is fixed by its `behaviour`. */
module Containers {
  import opened Python

  /** What the worker thread of `execute_command_in_container` has seen when the
      caller stops waiting: `exec_run` finished (its exit code and output, either
      of which stays None when `exec_run` itself raised), or it is still running. */
  datatype ExecAnswer = Done(exitCode: Option<int>, output: Option<string>) | StillRunning

  /** The `(exit_code, output)` pair `execute_command_in_container` returns. */
  datatype CommandResult = CommandResult(exitCode: Option<int>, output: string)

  /** How a container answers the runner's requests: the text of the exception
      `container.update` raises (None: it succeeds), whether `put_archive`
      succeeds, and the answer to each command under each timeout. */
  datatype Behaviour = Behaviour(
    updateError: Option<string>,
    archiveAccepted: bool,
    exec: (string, nat) -> ExecAnswer)

  /** A request made of a container. */
  datatype Action =
    | LimitsUpdated(cpuQuota: int, memLimit: string, memswapLimit: string)
    | ArchivePut(path: string, file: string)
    | Exec(cmd: string, wait: Option<nat>) // wait: the caller's timeout, None for a bare exec_run

  /** The outcome of `execute_command_in_container` for a given worker answer:
      a timeout becomes `CommandTimeout`, a missing output the empty text. */
  function CommandCompletion(a: ExecAnswer): (r: Completion<CommandResult>)
    ensures r.Abrupt? <==> a.StillRunning?
    ensures r.Abrupt? ==> r.error == CommandTimeout
    ensures a.Done? ==> r.Normal? && r.value.exitCode == a.exitCode
    ensures a.Done? && a.output.None? ==> r.value.output == ""
    ensures a.Done? && a.output.Some? ==> r.value.output == a.output.value
  {
    match a
    case StillRunning => Abrupt(CommandTimeout)
    case Done(code, out) => Normal(CommandResult(code, if out.Some? then out.value else ""))
  }

  class Container {
    const behaviour: Behaviour
    var log: seq<Action>

    constructor(behaviour: Behaviour)
      ensures this.behaviour == behaviour && log == []
    {
      this.behaviour := behaviour;
      log := [];
    }

    /** `container.update(cpu_quota=..., mem_limit=..., memswap_limit=...)`;
        returns the text of the exception it raises, if any. */
    method Update(cpuQuota: int, memLimit: string, memswapLimit: string) returns (err: Option<string>)
      modifies this
      ensures log == old(log) + [LimitsUpdated(cpuQuota, memLimit, memswapLimit)]
      ensures err == behaviour.updateError
    {
      log := log + [LimitsUpdated(cpuQuota, memLimit, memswapLimit)];
      err := behaviour.updateError;
    }

    /** `container.put_archive(path=..., data=...)` for an archive holding `file`. */
    method PutArchive(path: string, file: string) returns (ok: bool)
      modifies this
      ensures log == old(log) + [ArchivePut(path, file)]
      ensures ok == behaviour.archiveAccepted
    {
      log := log + [ArchivePut(path, file)];
      ok := behaviour.archiveAccepted;
    }

    /** A bare `container.exec_run(cmd=...)` whose result is ignored. */
    method ExecRun(cmd: string)
      modifies this
      ensures log == old(log) + [Exec(cmd, None)]
    {
      log := log + [Exec(cmd, None)];
    }

    /** The timed `exec_run` of `execute_command_in_container`: the command is
        issued whatever the caller then decides about waiting. */
    method TimedExec(cmd: string, timeout: nat) returns (a: ExecAnswer)
      modifies this
      ensures log == old(log) + [Exec(cmd, Some(timeout))]
      ensures a == behaviour.exec(cmd, timeout)
    {
      log := log + [Exec(cmd, Some(timeout))];
      a := behaviour.exec(cmd, timeout);
    }
  }

  /** `client.containers.get(name)`: the container, `docker.errors.NotFound`,
      or another Docker error with its text. */
  datatype Lookup = Found(c: Container) | NotFound | Failed(msg: string)

  class DockerClient {
    const containers: string -> Lookup
    var requests: seq<string>

    constructor(containers: string -> Lookup)
      ensures this.containers == containers && requests == []
    {
      this.containers := containers;
      requests := [];
    }

    method Get(name: string) returns (r: Lookup)
      modifies this
      ensures requests == old(requests) + [name]
      ensures r == containers(name)
    {
      requests := requests + [name];
      r := containers(name);
    }
  }
}
