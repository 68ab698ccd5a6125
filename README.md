# AgentRun in Dafny

AgentRun runs untrusted Python code inside a Docker container that is already
running. One call to `AgentRun.execute_code_in_container` does the following:

- vets the code with a deny-list scan of its syntax tree, then a
  RestrictedPython compile;
- looks the container up by name;
- applies CPU and memory limits;
- uploads the script as `/code/script_<hex>.py`;
- works out the third-party top-level modules the code imports, checks them
  against a whitelist and `pip install`s them;
- runs the script with a timeout;
- in its `finally` block, removes the script and uninstalls the dependencies
  again.

This project models that class and proves what each step promises.

Layout, one module per file:

- `python.dfy` (`Python`): the parts of Python semantics the class relies on.
  These are optional values, returning versus raising (`Completion`), the text
  of the exceptions that can escape, `str.split(".")[0]` (`TopSegment`) and
  `list(set(xs))` (`Dedup`).
- `syntax.dfy` (`Syntax`): the nodes of the syntax tree that matter (calls and
  imports), in `ast.walk` order, or the parser's syntax error.
- `safety.dfy` (`Safety`): `safety_check` as a function. It holds the three
  deny-lists, the message of every verdict, the first-match scan, and lemmas
  that reproduce six of the project's own `safety_check` test cases.
- `dependencies.dfy` (`Dependencies`): `parse_dependencies` as a
  specification, with its declarative meaning: exactly the non-standard
  top-level modules imported, each once, whatever the walk order.
- `containers.dfy` (`Containers`): the Docker boundary. A `Container` object
  records every request made of it in `log`, and its answers are fixed by its
  `behaviour`. `DockerClient.Get` resolves a name.
- `installation.dfy` (`Installation`): `install_dependencies` and
  `uninstall_dependencies` as functions giving the result (or the
  `CommandTimeout` that escapes) and the exact commands issued.
- `orchestration.dfy` (`Orchestration`): `execute_code_in_container` and
  `clean_up` as functions. The try block (`TryBody`) and the `finally` block
  (`Finally`) are separate, so the Python exception semantics are explicit.
  It also holds the end-to-end lemmas and the corrected variant
  (`ExecutionIntended`) of the finding below.
- `runner.dfy` (`Runner`): the `AgentRun` class itself. It holds the
  configuration, the client and the set of script files under `/tmp`. Each
  Python method has a Dafny method with the same top-level loops and early
  returns, proved equal to the specification functions above. The per-node
  checks of `safety_check`, including its loop over an import's aliases, are
  the function `Safety.NodeViolation` (the alias loop is the recursion of
  `Safety.ImportViolation`). The try block of `execute_code_in_container` is
  split over `TryBlock`, `TryInContainer`, `UploadAndRun` and
  `InstallAndRunScript`, and its `finally` block is `FinallyBlock`.

`agentrun/__init__.py` does not cache installed dependencies, does no checks
at construction time and does not clean up in the background; the model has
none of these either.

## Model

| member | source | states |
|---|---|---|
| Python.TopSegment | agentrun/__init__.py:200 | the top segment is a prefix of the name, contains no dot, and is followed by a dot whenever it is shorter than the name |
| Python.Dedup | agentrun/__init__.py:214 | the unique list has no duplicates and holds exactly the elements of its input |
| Safety.ImportViolation | agentrun/__init__.py:141-153 | an import is rejected iff it has an alias and either its `from` module or one of its aliases has an unsafe top segment; an unsafe `from` module is reported first, otherwise the first unsafe alias, by full name |
| Safety.NodeViolation | agentrun/__init__.py:131-168 | the checks made on one node in the order the source makes them: a bare call is tested against the dangerous built-ins before the unsafe functions, a method call against the unsafe functions, an import by `ImportViolation`; stated by `BareCallReported`, `BareEvalIsDangerousBuiltin`, `AttributeCallReportsUnsafeFunction` and `ImportMessagesReportFullNames` |
| Safety.FirstViolating | agentrun/__init__.py:130-168 | the scan stops at the first node in walk order that violates a deny-list, and finds none iff no node violates |
| Safety.SafetyCheck | agentrun/__init__.py:90-183 | a syntax error is reported as such; the code is safe iff it parses, no node violates and the restricted compile succeeds; otherwise the first violating node's message, or the RestrictedPython message when the walk is clean |
| Safety.BareEvalIsDangerousBuiltin | agentrun/__init__.py:131-139 | a bare call to `eval`, `exec` or `compile` is reported as a dangerous built-in, never as an unsafe function call |
| Safety.BareCallReported | agentrun/__init__.py:131-168 | a bare call to a dangerous built-in is reported as one; a bare call to any other unsafe function is reported as an unsafe function call; a bare call passes iff its name is on neither list |
| Safety.AttributeCallReportsUnsafeFunction | agentrun/__init__.py:161-168 | a method call is rejected iff its attribute name is an unsafe function, and the message names the attribute |
| Safety.ImportMessagesReportFullNames | agentrun/__init__.py:141-153 | `from M import ...` reports the whole of M, and `import A` reports the whole dotted alias A |
| Safety.MessageFamiliesDistinct | agentrun/__init__.py:99-181 | the safe message and the five rejection message families never coincide |
| Safety.FromOsImportExample | tests/test_agentrun.py:55-56 | `from os import path` is rejected as "Unsafe module import: os" |
| Safety.ImportOsPathExample | tests/test_agentrun.py:51-52 | `import os.path` is rejected as "Unsafe module import: os.path" |
| Safety.EvalBeforeNestedImportExample | tests/test_agentrun.py:82-83 | the outer `eval` call is reported before the nested `__import__` call |
| Safety.DunderImportExample | tests/test_agentrun.py:74-75 | `__import__(mod_name).system('ls')` is rejected as "Unsafe function call: __import__" |
| Safety.GlobalsExample | tests/test_agentrun.py:86-87 | `globals()[...].system(...)` is rejected as "Use of dangerous built-in function: globals" |
| Safety.OpenExample | tests/test_agentrun.py:99-100 | `with open(...) as file` is rejected as "Unsafe function call: open" |
| Dependencies.DependencyList | agentrun/__init__.py:185-214 | the dependencies of a walked tree, deduplicated; its meaning is stated by `DependencyListMeaning`, `DependencyShape` and `OrderIndependent` |
| Dependencies.AliasRootsMembers | agentrun/__init__.py:197-205 | an `import` statement contributes exactly the unknown top segments of its aliases |
| Dependencies.ContributionMembers | agentrun/__init__.py:196-213 | a node contributes exactly the unknown top segments it imports; `from` imports contribute their module's segment, never their names, and nothing when the module is absent or empty |
| Dependencies.CollectedMembers | agentrun/__init__.py:196-213 | the collected list holds exactly the unknown top segments imported anywhere in the tree |
| Dependencies.CollectedIgnoresSilentTail | agentrun/__init__.py:196-213 | nodes at the end of the walk that import nothing leave the collected list unchanged |
| Dependencies.DependencyListMeaning | agentrun/__init__.py:185-214 | the result has no duplicates and holds exactly the dependencies of the tree |
| Dependencies.DependencyShape | agentrun/__init__.py:200-212 | no dependency contains a dot or is a standard-library or built-in module |
| Dependencies.FromAliasesNeverContribute | agentrun/__init__.py:206-213 | changing the imported names of a `from` import never changes the dependencies |
| Dependencies.OrderIndependent | agentrun/__init__.py:196-214 | any reordering of the walked nodes yields the same set of dependencies |
| Dependencies.NumpyExample | tests/test_agentrun.py:146 | `import sys` then `import numpy as np` yields only numpy |
| Dependencies.ScipyExample | tests/test_agentrun.py:148 | `from scipy.optimize import minimize` yields scipy |
| Containers.CommandCompletion | agentrun/__init__.py:74-88 | a command still running at the timeout raises CommandTimeout; otherwise its exit code comes back unchanged, and its output comes back with a missing output read as empty |
| Containers.Container.Update | agentrun/__init__.py:334-338 | the limits request is recorded and the container's error, if any, comes back |
| Containers.Container.PutArchive | agentrun/__init__.py:281 | the upload is recorded and the container's verdict comes back |
| Containers.Container.ExecRun | agentrun/__init__.py:297 | a bare command is recorded with no timeout |
| Containers.Container.TimedExec | agentrun/__init__.py:76-83 | a timed command is recorded and the worker's answer for that command and timeout comes back |
| Containers.DockerClient.Get | agentrun/__init__.py:330 | the lookup is recorded and the client's answer for the name comes back |
| Installation.Attempts | agentrun/__init__.py:233-237 | one command per dependency, in order, each timed at 120 seconds |
| Installation.FirstNotWhitelisted | agentrun/__init__.py:228-231 | the position of the first dependency missing from the whitelist: every earlier one is whitelisted |
| Installation.FirstNotInstalled | agentrun/__init__.py:233-239 | the position of the first install that does not exit with 0 (a missing exit code included): every earlier one exited with 0 |
| Installation.FirstUninstallTimeout | agentrun/__init__.py:251-256 | the position of the first uninstall that times out: no earlier one did |
| Installation.Install | agentrun/__init__.py:216-241 | `install_dependencies`: the result or the timeout that escapes, and the commands issued; stated by `WhitelistRejectsBeforeAnyCommand`, `InstallStopsAt`, `InstallSucceeds`, `InstallSucceedsIff`, `InstallIssuesPrefix` and `LaterDepsNeverAttempted` |
| Installation.Uninstall | agentrun/__init__.py:243-257 | `uninstall_dependencies`: the result or the timeout that escapes, and the commands issued; stated by `UninstallIssuesEveryDependency`, `UninstallIssuesPrefix` and `UninstallIgnoresExitCodes` |
| Installation.WhitelistRejectsBeforeAnyCommand | agentrun/__init__.py:225-231 | without "*", the first dependency missing from the whitelist is reported and no command at all is issued |
| Installation.LaterDepsNeverAttempted | agentrun/__init__.py:233-239 | installing stops at the first failing dependency: no later dependency is ever attempted |
| Installation.InstallStopsAt | agentrun/__init__.py:233-239 | once the whitelist is passed, the first install that does not exit with 0 ends the call: a timeout raises, another exit code is reported by dependency name, and only the installs up to that one were issued |
| Installation.InstallSucceeds | agentrun/__init__.py:233-241 | once the whitelist is passed and every install exits with 0, every dependency is installed in order and the success message comes back |
| Installation.InstallIssuesPrefix | agentrun/__init__.py:225-239 | whatever happens, the commands issued are the installs of a prefix of the dependencies, in order |
| Installation.UninstallIssuesPrefix | agentrun/__init__.py:251-256 | whatever happens, the commands issued are the uninstalls of a prefix of the dependencies, in order |
| Installation.InstallSucceedsIff | agentrun/__init__.py:225-241 | the success message comes back iff the whitelist admits every dependency (or holds "*") and every install exits with 0 |
| Installation.UninstallIssuesEveryDependency | agentrun/__init__.py:251-257 | without a timeout every dependency is uninstalled in order and the success message comes back |
| Installation.UninstallIgnoresExitCodes | agentrun/__init__.py:251-257 | the result and the commands of uninstalling depend only on which commands time out, not on exit codes |
| Orchestration.CleanUpOutcome | agentrun/__init__.py:287-299 | `clean_up`: nothing for an empty name; otherwise `rm` of the in-container copy, then the uninstalls, whose timeout escapes; stated by `FinallyCleansUp` and `CleanupWheneverScriptBound` |
| Orchestration.InstallAndRun | agentrun/__init__.py:350-360 | resolve, install, and run the script only when installing succeeded; stated by `InstallAndRunIssued`, `InstallRejectionReturnedVerbatim`, `RunTimeoutReported`, `SuccessfulRunReturnsOutput` and `InstallTimeoutReportedAsText` |
| Orchestration.Uploading | agentrun/__init__.py:339-360 | the try block after the limits: a rejected upload leaves "Failed to copy script to container." pending with only the upload issued and nothing bound; an accepted one binds the script name and the dependencies, then installs and runs; stated by `UploadingAccepted` and `EarlyFailureEscapes` |
| Orchestration.InContainer | agentrun/__init__.py:333-360 | the try block once a container is resolved: the limits request comes first, a Docker error from it is left pending with nothing bound, otherwise the upload follows; stated by `InContainerUploaded` and `EarlyFailureEscapes` |
| Orchestration.FinallyCleanUp | agentrun/__init__.py:365-367 | no cleanup without a container; with one, UnboundLocalError when the script name was never bound, otherwise `clean_up`'s `rm` and uninstalls; stated by `FinallyCleansUp` and `EarlyFailureEscapes` |
| Orchestration.FinallyRemoves | agentrun/__init__.py:295-296 | the /tmp file is removed only when a container was found and a non-empty script name is bound; stated by `CleanupWheneverScriptBound` and `EarlyFailureEscapes` |
| Orchestration.TryBody | agentrun/__init__.py:316-363 | the try block with its handlers: the value it leaves pending, the locals it binds and the requests it makes; stated by `UnsafeCodeNeverReachesContainer`, `MissingContainerReported`, `InContainerUploaded` and `TryBodyContainer` |
| Orchestration.Finally | agentrun/__init__.py:365-369 | the `finally` block: a cleanup exception replaces the pending value; stated by `FinallyCleansUp`, `EarlyFailureEscapes` and `CleanupTimeoutEscapes` |
| Orchestration.Execution | agentrun/__init__.py:301-369 | `execute_code_in_container` as written; stated by `ScriptBoundIssued`, `CleanupWheneverScriptBound`, `SuccessfulRunReturnsOutput`, `EarlyFailureEscapes` and `ExecutionIntended` |
| Orchestration.UnsafeCodeNeverReachesContainer | agentrun/__init__.py:323-327 | unsafe code gets the safety message back; the container is never looked up, and nothing is sent to it or cleaned up |
| Orchestration.MissingContainerReported | agentrun/__init__.py:329-332 | a missing container is reported by name, with nothing sent and nothing cleaned up |
| Orchestration.EarlyFailureEscapes | agentrun/__init__.py:334-367 | as written, a failing limits update or a rejected upload makes UnboundLocalError escape instead of the error text; nothing is cleaned up: the only requests the container gets are the limits update and, when that succeeded, the upload (no `rm`, no uninstall), and the rejected script stays under /tmp |
| Orchestration.ExecutionIntended | agentrun/__init__.py:295-367 | with `script_name` and `dependencies` bound before the try block, the limits error and the copy failure come back as text, and every other path is unchanged |
| Orchestration.IntendedRaisesOnlyCleanupTimeout | agentrun/__init__.py:295-298 | with that fix, the only exception left is an uninstall timeout during cleanup |
| Orchestration.InContainerUploaded | agentrun/__init__.py:333-360 | after an uploaded script, the try block has issued the limits request, the upload, then the install and run commands, and has bound the script name and the dependencies |
| Orchestration.FinallyCleansUp | agentrun/__init__.py:295-298 | with a container and a non-empty script name, `finally` removes the script and uninstalls every dependency; an uninstall timeout replaces the return value |
| Orchestration.ScriptBoundIssued | agentrun/__init__.py:334-367 | once the script is uploaded, the requests are: limits, upload, installs, the run (only when installing succeeded), `rm`, uninstalls; the /tmp file is written and removed |
| Orchestration.CleanupWheneverScriptBound | agentrun/__init__.py:365-367 | whenever the script was uploaded, its copies are removed; unless an uninstall times out, every dependency is uninstalled |
| Orchestration.InstallRejectionReturnedVerbatim | agentrun/__init__.py:351-353 | when no uninstall times out during cleanup, a whitelist rejection or a failed install is returned verbatim; the script is never run |
| Orchestration.UnrunIssued | agentrun/__init__.py:334-367 | when installing did not succeed, the requests are exactly: limits, upload, installs, `rm`, uninstalls |
| Orchestration.NoRunAmongPipCommands | agentrun/__init__.py:216-257 | no command issued by installing or uninstalling runs a script, whatever the container answers |
| Orchestration.ScriptNeverRunUnlessInstalled | agentrun/__init__.py:350-360 | unless every install succeeded, no command runs the script, whether installing was rejected, failed or timed out, and whatever happens during cleanup |
| Orchestration.NoRunAmongAttempts | agentrun/__init__.py:234-357 | no `pip install` or `pip uninstall` command is ever the command that runs a script |
| Orchestration.RunTimeoutReported | agentrun/__init__.py:355-360 | when no uninstall times out during cleanup, a run that outlasts the configured timeout returns "Execution timed out." |
| Orchestration.SuccessfulRunReturnsOutput | agentrun/__init__.py:355-369 | a finished run returns its output whatever its exit code, and the requests are exactly: limits, upload, installs, the run, `rm`, uninstalls |
| Orchestration.InstallTimeoutReportedAsText | agentrun/__init__.py:351-363 | when no uninstall times out during cleanup, an install timeout is caught by the outer handler and returned as "Command timed out" |
| Orchestration.CleanupTimeoutEscapes | agentrun/__init__.py:365-367 | an uninstall timeout during cleanup escapes from the call |
| Orchestration.NumpyNodesFacts | tests/test_agentrun.py:171 | `import numpy as np` with `print(np.array(...))` is safe and depends on numpy only |
| Orchestration.WhitelistRejectionExample | tests/test_agentrun.py:170-173 | that code under the whitelist ["pandas"] returns "Dependency: numpy is not in the whitelist." and no install is issued |
| Runner.AgentRun.constructor | agentrun/__init__.py:36-54 | the runner keeps its configuration and client and has no script under /tmp |
| Runner.AgentRun.SafetyCheck | agentrun/__init__.py:90-183 | the early-return loop over the walked nodes computes `Safety.SafetyCheck` |
| Runner.AgentRun.ExecuteCommandInContainer | agentrun/__init__.py:59-88 | the command is issued once with its timeout, and the result is `CommandCompletion` of the worker's answer |
| Runner.AgentRun.ParseDependencies | agentrun/__init__.py:185-214 | the nested loops compute the dependency list: no duplicates, and exactly the dependencies of the tree |
| Runner.AgentRun.InstallDependencies | agentrun/__init__.py:216-241 | the whitelist loop and the install loop give the result and issue exactly the commands of `Install` |
| Runner.AgentRun.UninstallDependencies | agentrun/__init__.py:243-257 | the uninstall loop gives the result and issues exactly the commands of `Uninstall` |
| Runner.AgentRun.CopyCodeToContainer | agentrun/__init__.py:259-285 | the script is staged under /tmp and uploaded to /code/; its name comes back on success, the failure message otherwise |
| Runner.AgentRun.CleanUp | agentrun/__init__.py:287-299 | with a non-empty name, the /tmp file is removed and the requests and result are those of `CleanUpOutcome`; with an empty name nothing happens |
| Runner.AgentRun.InstallAndRunScript | agentrun/__init__.py:349-360 | resolving, installing and running match `InstallAndRun` |
| Runner.AgentRun.UploadAndRun | agentrun/__init__.py:339-360 | the upload and what follows it match `Uploading`, including the locals left bound |
| Runner.AgentRun.TryInContainer | agentrun/__init__.py:333-360 | the statements after the lookup match `InContainer` |
| Runner.AgentRun.TryBlock | agentrun/__init__.py:316-363 | the try block with its handlers matches `TryBody`: the pending value, the bound locals, the lookup and the requests |
| Runner.AgentRun.FinallyBlock | agentrun/__init__.py:365-367 | the `finally` block matches `FinallyCleanUp`: no cleanup without a container, UnboundLocalError when `script_name` is unbound, otherwise `clean_up`'s requests and result; only the removed script leaves /tmp |
| Runner.AgentRun.ExecuteCodeInContainer | agentrun/__init__.py:301-369 | the whole call, `finally` included, matches `Execution`: the value or exception, the lookup, the container's requests and the /tmp files left |

## Left out

- Threads: `execute_command_in_container`'s worker thread, `join(timeout)` and the extra `join(1)` are not modelled. The worker's answer for each command and timeout is part of the container's `behaviour` (finished with an exit code and an output, or still running), and a command left running in the container is not tracked further.
- The `workdir="/code"` argument of every `exec_run` is not recorded in the request log.
- Output decoding: `output.decode("utf-8")` is not modelled. Outputs are text already, and a decoding error is not modelled.
- File and archive I/O in `copy_code_to_container`: writing the script's text to /tmp, building the tar archive and the code's content are not modelled. Only the script's name is tracked, in the runner's set of files under /tmp.
- `uuid4().hex` is a parameter (`token`) of the call.
- An exception raised by `put_archive` is not modelled separately. It ends like a rejected upload: the outer handler catches it, then `finally` raises UnboundLocalError.
- An `exec_run` that raises inside `clean_up` is not modelled. An `exec_run` that raises inside the worker thread is modelled: it leaves the exit code and output missing.
- `os.remove` failing in `clean_up` is not modelled; the call always removes a file it wrote itself.
- `ast.parse`, `ast.walk` and RestrictedPython's `compile_restricted` are inputs. A submission carries the walked nodes (only calls and imports are distinguished) or the syntax error, and the restricted compiler's error message.
- Exceptions from `ast.parse` other than SyntaxError are not modelled.
- `sys.stdlib_module_names` and `sys.builtin_module_names` are the configuration sets `stdlibModules` and `builtinModules`.
- The Docker client is a constructor argument. `docker.from_env()` and the constructor's default values (whitelist `["*"]`, CPU quota 50000, timeout 20, "100m", "512m") are not modelled; every setting is given explicitly.
- Runner.AgentRun.ParseDependencies: returns its list in first-occurrence order (`Dependencies.DependencyList`). Python's `list(set(...))` at agentrun/__init__.py:214 gives an order that depends on the hash seed. `Dependencies.DependencyListMeaning` and `Dependencies.OrderIndependent` hold for any order.
- Orchestration.Execution: its result and its requests hold for the first-occurrence order only, and so do those of `Orchestration.ScriptBoundIssued` and `Orchestration.SuccessfulRunReturnsOutput`. With several dependencies the source may install them in another order, and so report another non-whitelisted dependency or failing install. For example, `import pandas` then `import numpy` under the whitelist ["requests"] always reports pandas here; the source can report numpy.
- Runner.AgentRun.ExecuteCodeInContainer: proved equal to `Orchestration.Execution`, so its result and its requests hold for the first-occurrence order only.
- A whitelist passed as a string makes `in` a substring test. This is not modelled: the whitelist is a list of names.
- The UnboundLocalError text is the wording of Python 3.11 and later.
- Skipping dependencies that are already installed, checks at construction time and cleanup in the background are not modelled, because `agentrun/__init__.py` does none of them.
- The HTTP API service in `agentrun-api/` and the examples in `docs/` are not part of this model.
- Concurrent calls on one runner are not modelled; each call runs alone.

## Findings

| source | as written | input that shows it | evidently intended | confidence | as-written member | corrected member |
|---|---|---|---|---|---|---|
| agentrun/__init__.py:334-367 | `finally` calls `clean_up(container, script_name, dependencies)` whenever a container was found, but both locals are bound only after a successful upload | safe code and a found container whose `update` raises, or whose `put_archive` returns a falsy value | the Docker error text or "Failed to copy script to container." is returned; nothing is cleaned up; a rejected upload leaves its /tmp file behind | not executed | Orchestration.EarlyFailureEscapes | Orchestration.ExecutionIntended |

`Runner.AgentRun.ExecuteCodeInContainer` models the code as written.
`Orchestration.ExecutionIntended` binds `script_name = ""` and
`dependencies = []` before the try block. `clean_up`'s own `if script_name:`
guard then skips the cleanup. `Orchestration.IntendedRaisesOnlyCleanupTimeout`
proves that no unbound local escapes, and `ExecutionIntended`'s contract
proves that it agrees with the code wherever the script was uploaded.
