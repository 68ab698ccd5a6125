/** The specification of `install_dependencies` and `uninstall_dependencies`:
    the result each returns (or the exception it lets through) and the
    commands it issues, in order, for a container whose command answers are
    `exec`. */
module Installation {
  import opened Python
  import opened Containers

  const PipTimeout: nat := 120
  const Wildcard := "*"
  const InstalledMsg := "Dependencies installed successfully."
  const UninstalledMsg := "Dependencies uninstalled successfully."

  function InstallCommand(dep: string): string { "pip install --user " + dep }
  function UninstallCommand(dep: string): string { "pip uninstall -y " + dep }
  function NotWhitelistedMsg(dep: string): string { "Dependency: " + dep + " is not in the whitelist." }
  function InstallFailedMsg(dep: string): string { "Failed to install dependency " + dep }

  /** What a call returns or raises, and the requests it made of the container. */
  datatype Step<T> = Step(result: Completion<T>, issued: seq<Action>)

  /** The timed commands `command(d)` issued for each `d` of `deps`, in order. */
  function Attempts(command: string -> string, deps: seq<string>): (r: seq<Action>)
    ensures |r| == |deps|
    ensures forall j :: 0 <= j < |deps| ==> r[j] == Exec(command(deps[j]), Some(PipTimeout))
  {
    seq(|deps|, j requires 0 <= j < |deps| => Exec(command(deps[j]), Some(PipTimeout)))
  }

  /** One more attempt appends one more command. */
  lemma AttemptsGrow(command: string -> string, deps: seq<string>, i: nat)
    requires i < |deps|
    ensures Attempts(command, deps[..i + 1]) == Attempts(command, deps[..i]) + [Exec(command(deps[i]), Some(PipTimeout))]
  {
    var longer := Attempts(command, deps[..i + 1]);
    var shorter := Attempts(command, deps[..i]) + [Exec(command(deps[i]), Some(PipTimeout))];
    assert |longer| == |shorter|;
    forall j | 0 <= j < |longer| ensures longer[j] == shorter[j] {
      assert deps[..i + 1][j] == deps[j];
      if j < i {
        assert deps[..i][j] == deps[j];
      }
    }
  }

  predicate Installs(a: ExecAnswer) {
    a.Done? && a.exitCode == Some(0)
  }

  function InstallAnswer(exec: (string, nat) -> ExecAnswer, dep: string): ExecAnswer {
    exec(InstallCommand(dep), PipTimeout)
  }

  /** The position of the first dependency missing from `whitelist`, or `|deps|`. */
  function FirstNotWhitelisted(whitelist: seq<string>, deps: seq<string>): (k: nat)
    ensures k <= |deps|
    ensures forall j :: 0 <= j < k ==> deps[j] in whitelist
    ensures k < |deps| ==> deps[k] !in whitelist
  {
    if deps == [] || deps[0] !in whitelist then 0
    else
      var k := FirstNotWhitelisted(whitelist, deps[1..]);
      assert forall j :: 1 <= j < |deps| ==> deps[j] == deps[1..][j - 1];
      k + 1
  }

  /** The position of the first dependency whose install does not exit with 0, or `|deps|`. */
  function FirstNotInstalled(exec: (string, nat) -> ExecAnswer, deps: seq<string>): (k: nat)
    ensures k <= |deps|
    ensures forall j :: 0 <= j < k ==> Installs(InstallAnswer(exec, deps[j]))
    ensures k < |deps| ==> !Installs(InstallAnswer(exec, deps[k]))
  {
    if deps == [] || !Installs(InstallAnswer(exec, deps[0])) then 0
    else
      var k := FirstNotInstalled(exec, deps[1..]);
      assert forall j :: 1 <= j < |deps| ==> deps[j] == deps[1..][j - 1];
      k + 1
  }

  function UninstallAnswer(exec: (string, nat) -> ExecAnswer, dep: string): ExecAnswer {
    exec(UninstallCommand(dep), PipTimeout)
  }

  /** The position of the first dependency whose uninstall times out, or `|deps|`. */
  function FirstUninstallTimeout(exec: (string, nat) -> ExecAnswer, deps: seq<string>): (k: nat)
    ensures k <= |deps|
    ensures forall j :: 0 <= j < k ==> !UninstallAnswer(exec, deps[j]).StillRunning?
    ensures k < |deps| ==> UninstallAnswer(exec, deps[k]).StillRunning?
  {
    if deps == [] || UninstallAnswer(exec, deps[0]).StillRunning? then 0
    else
      var k := FirstUninstallTimeout(exec, deps[1..]);
      assert forall j :: 1 <= j < |deps| ==> deps[j] == deps[1..][j - 1];
      k + 1
  }

  /** `install_dependencies`: the whitelist gate, then one `pip install` per
      dependency up to and including the first that does not exit with 0.
      A timed-out install raises `CommandTimeout` out of the call. */
  function Install(whitelist: seq<string>, exec: (string, nat) -> ExecAnswer, deps: seq<string>): Step<string> {
    var blocked := FirstNotWhitelisted(whitelist, deps);
    if Wildcard !in whitelist && blocked < |deps| then
      Step(Normal(NotWhitelistedMsg(deps[blocked])), [])
    else
      var k := FirstNotInstalled(exec, deps);
      if k == |deps| then Step(Normal(InstalledMsg), Attempts(InstallCommand, deps))
      else if InstallAnswer(exec, deps[k]).StillRunning? then
        Step(Abrupt(CommandTimeout), Attempts(InstallCommand, deps[..k + 1]))
      else Step(Normal(InstallFailedMsg(deps[k])), Attempts(InstallCommand, deps[..k + 1]))
  }

  /** `uninstall_dependencies`: one `pip uninstall` per dependency whatever its
      exit code; only a timeout (an exception) stops it. */
  function Uninstall(exec: (string, nat) -> ExecAnswer, deps: seq<string>): Step<string> {
    var k := FirstUninstallTimeout(exec, deps);
    if k == |deps| then Step(Normal(UninstalledMsg), Attempts(UninstallCommand, deps))
    else Step(Abrupt(CommandTimeout), Attempts(UninstallCommand, deps[..k + 1]))
  }

  /** Without the wildcard, the first dependency missing from the whitelist is
      reported and no command at all is issued. */
  lemma WhitelistRejectsBeforeAnyCommand(whitelist: seq<string>, exec: (string, nat) -> ExecAnswer, deps: seq<string>, i: nat)
    requires Wildcard !in whitelist
    requires i < |deps| && deps[i] !in whitelist
    requires forall j :: 0 <= j < i ==> deps[j] in whitelist
    ensures Install(whitelist, exec, deps) == Step(Normal(NotWhitelistedMsg(deps[i])), [])
  {
  }

  /** With the whitelist passed, the first install that does not exit with 0
      ends the call: a timeout raises, another exit code is reported, and the
      installs up to that one are the only commands issued. */
  lemma InstallStopsAt(whitelist: seq<string>, exec: (string, nat) -> ExecAnswer, deps: seq<string>, i: nat)
    requires Wildcard in whitelist || forall j :: 0 <= j < |deps| ==> deps[j] in whitelist
    requires i < |deps| && !Installs(InstallAnswer(exec, deps[i]))
    requires forall j :: 0 <= j < i ==> Installs(InstallAnswer(exec, deps[j]))
    ensures Install(whitelist, exec, deps)
            == Step(if InstallAnswer(exec, deps[i]).StillRunning? then Abrupt(CommandTimeout) else Normal(InstallFailedMsg(deps[i])),
                    Attempts(InstallCommand, deps[..i + 1]))
  {
    assert FirstNotInstalled(exec, deps) == i;
    assert Wildcard in whitelist || FirstNotWhitelisted(whitelist, deps) == |deps|;
  }

  /** With the whitelist passed and every install exiting with 0, every
      dependency is installed in order and the success message comes back. */
  lemma InstallSucceeds(whitelist: seq<string>, exec: (string, nat) -> ExecAnswer, deps: seq<string>)
    requires Wildcard in whitelist || forall j :: 0 <= j < |deps| ==> deps[j] in whitelist
    requires forall j :: 0 <= j < |deps| ==> Installs(InstallAnswer(exec, deps[j]))
    ensures Install(whitelist, exec, deps) == Step(Normal(InstalledMsg), Attempts(InstallCommand, deps))
  {
    assert FirstNotInstalled(exec, deps) == |deps|;
    assert Wildcard in whitelist || FirstNotWhitelisted(whitelist, deps) == |deps|;
  }

  lemma InstallCommandInjective(a: string, b: string)
    requires InstallCommand(a) == InstallCommand(b)
    ensures a == b
  {
    assert a == InstallCommand(a)[|"pip install --user "|..];
    assert b == InstallCommand(b)[|"pip install --user "|..];
  }

  /** A dependency outside `attempted` gets no install command from it. */
  lemma NotAttempted(attempted: seq<string>, d: string)
    requires d !in attempted
    ensures Exec(InstallCommand(d), Some(PipTimeout)) !in Attempts(InstallCommand, attempted)
  {
    var issued := Attempts(InstallCommand, attempted);
    forall i | 0 <= i < |issued| ensures issued[i] != Exec(InstallCommand(d), Some(PipTimeout)) {
      if InstallCommand(attempted[i]) == InstallCommand(d) {
        InstallCommandInjective(attempted[i], d);
      }
    }
  }

  /** When some install fails, the installs issued are none at all (a whitelist
      rejection), or one per dependency up to and including the failing one. */
  lemma InstallIssued(whitelist: seq<string>, exec: (string, nat) -> ExecAnswer, deps: seq<string>, k: nat)
    requires k == FirstNotInstalled(exec, deps) && k < |deps|
    ensures Install(whitelist, exec, deps).issued == []
            || Install(whitelist, exec, deps).issued == Attempts(InstallCommand, deps[..k + 1])
  {
    if Wildcard in whitelist || FirstNotWhitelisted(whitelist, deps) == |deps| {
      var step := Install(whitelist, exec, deps);
      if InstallAnswer(exec, deps[k]).StillRunning? {
        assert step.result.Abrupt?;
      } else {
        assert step.result == Normal(InstallFailedMsg(deps[k]));
      }
    }
  }

  /** Installing stops at the first failing dependency: with distinct
      dependencies, no later one is ever attempted. */
  lemma LaterDepsNeverAttempted(whitelist: seq<string>, exec: (string, nat) -> ExecAnswer, deps: seq<string>, j: nat)
    requires NoDuplicates(deps)
    requires FirstNotInstalled(exec, deps) < j < |deps|
    ensures Exec(InstallCommand(deps[j]), Some(PipTimeout)) !in Install(whitelist, exec, deps).issued
  {
    var k := FirstNotInstalled(exec, deps);
    NotInEarlierPrefix(deps, k + 1, j);
    InstallIssuesOnlyAttempted(whitelist, exec, deps, k, deps[j]);
  }

  lemma InstallIssuesOnlyAttempted(whitelist: seq<string>, exec: (string, nat) -> ExecAnswer, deps: seq<string>, k: nat, d: string)
    requires k == FirstNotInstalled(exec, deps) && k < |deps|
    requires d !in deps[..k + 1]
    ensures Exec(InstallCommand(d), Some(PipTimeout)) !in Install(whitelist, exec, deps).issued
  {
    NotAttempted(deps[..k + 1], d);
    InstallIssued(whitelist, exec, deps, k);
  }

  /** Whatever happens, the installs issued are those of a prefix of the dependencies. */
  lemma InstallIssuesPrefix(whitelist: seq<string>, exec: (string, nat) -> ExecAnswer, deps: seq<string>)
    ensures exists n :: 0 <= n <= |deps| && Install(whitelist, exec, deps).issued == Attempts(InstallCommand, deps[..n])
  {
    var k := FirstNotInstalled(exec, deps);
    var issued := Install(whitelist, exec, deps).issued;
    assert deps[..0] == [] && deps[..|deps|] == deps;
    if k < |deps| {
      InstallIssued(whitelist, exec, deps, k);
      if issued == [] {
        assert issued == Attempts(InstallCommand, deps[..0]);
      } else {
        assert issued == Attempts(InstallCommand, deps[..k + 1]);
      }
    } else if Wildcard !in whitelist && FirstNotWhitelisted(whitelist, deps) < |deps| {
      assert issued == Attempts(InstallCommand, deps[..0]);
    } else {
      assert issued == Attempts(InstallCommand, deps[..|deps|]);
    }
  }

  /** Whatever happens, the uninstalls issued are those of a prefix of the dependencies. */
  lemma UninstallIssuesPrefix(exec: (string, nat) -> ExecAnswer, deps: seq<string>)
    ensures exists n :: 0 <= n <= |deps| && Uninstall(exec, deps).issued == Attempts(UninstallCommand, deps[..n])
  {
    var k := FirstUninstallTimeout(exec, deps);
    if k == |deps| {
      assert deps[..|deps|] == deps;
      assert Uninstall(exec, deps).issued == Attempts(UninstallCommand, deps[..|deps|]);
    } else {
      assert Uninstall(exec, deps).issued == Attempts(UninstallCommand, deps[..k + 1]);
    }
  }

  lemma NotWhitelistedIsNotSuccess(dep: string)
    ensures NotWhitelistedMsg(dep) != InstalledMsg
  {
    assert NotWhitelistedMsg(dep)[9] == 'y' && InstalledMsg[9] == 'i';
  }

  /** The success message comes back exactly when the whitelist admits every
      dependency and every install exits with 0. */
  lemma InstallSucceedsIff(whitelist: seq<string>, exec: (string, nat) -> ExecAnswer, deps: seq<string>)
    ensures Install(whitelist, exec, deps).result == Normal(InstalledMsg)
            <==> (Wildcard in whitelist || forall j :: 0 <= j < |deps| ==> deps[j] in whitelist)
                 && forall j :: 0 <= j < |deps| ==> Installs(InstallAnswer(exec, deps[j]))
  {
    var blocked := FirstNotWhitelisted(whitelist, deps);
    var k := FirstNotInstalled(exec, deps);
    if Wildcard !in whitelist && blocked < |deps| {
      assert NotWhitelistedMsg(deps[blocked])[9] == 'y';
      assert InstalledMsg[9] == 'i';
    } else if k < |deps| {
      assert InstallFailedMsg(deps[k])[0] == 'F';
    }
  }

  /** When no uninstall times out, every dependency gets its `pip uninstall`, in
      order, and the success message comes back. */
  lemma UninstallIssuesEveryDependency(exec: (string, nat) -> ExecAnswer, deps: seq<string>)
    requires forall j :: 0 <= j < |deps| ==> !UninstallAnswer(exec, deps[j]).StillRunning?
    ensures Uninstall(exec, deps) == Step(Normal(UninstalledMsg), Attempts(UninstallCommand, deps))
  {
  }

  /** Exit codes play no part in uninstalling: two containers that time out on
      the same commands give the same result and the same commands. */
  lemma UninstallIgnoresExitCodes(exec1: (string, nat) -> ExecAnswer, exec2: (string, nat) -> ExecAnswer, deps: seq<string>)
    requires forall j :: 0 <= j < |deps| ==>
      UninstallAnswer(exec1, deps[j]).StillRunning? == UninstallAnswer(exec2, deps[j]).StillRunning?
    ensures Uninstall(exec1, deps) == Uninstall(exec2, deps)
  {
  }
}
