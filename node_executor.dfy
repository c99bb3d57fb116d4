/** The ad-hoc node executor (AnsibleNodeExecutor): one command on one node
    through the shell module, and the job configurations its secret-bundle
    hooks hand to the builder. `systemDebug` is the value of the system
    property "ansible.debug" (None when unset); the outcome of running the
    runner is the parameter `runError` (the message of the exception
    runner.run() throws, None when it returns). */
module NodeExecutor {
  import opened Base
  import opened Resolver
  import opened Runner
  import opened RunnerBuilder
  import SecretBundle
  import K = Describable

  const OsFamily: string := "osFamily"
  const WindowsMarker: string := "windows"
  const ShellModule: string := "shell"
  const WindowsShellModule: string := "win_shell"

  // ---------------------------------------------------------------------------
  // Windows detection and executables

  /** A Windows host: its osFamily attribute, lower-cased, contains "windows". */
  predicate IsWindows(node: Node)
    ensures IsWindows(node) ==> OsFamily in node.attributes
  {
    OsFamily in node.attributes && Contains(ToLower(node.attributes[OsFamily]), WindowsMarker)
  }

  /** `marker` occurs in `s` at position `i`, ignoring letter case. */
  predicate OccursIgnoringCaseAt(s: string, marker: string, i: int) {
    0 <= i && i + |marker| <= |s| && EqualsIgnoreCase(s[i..i + |marker|], marker)
  }

  /** A Windows host has "windows", in some letter case, somewhere in its
      osFamily: the converse of WindowsMarkerAnywhere. */
  lemma WindowsMarkerFound(node: Node)
    requires IsWindows(node)
    ensures OsFamily in node.attributes
    ensures exists i :: OccursIgnoringCaseAt(node.attributes[OsFamily], WindowsMarker, i)
  {
    var family := node.attributes[OsFamily];
    var low := ToLower(family);
    ContainsAt(low, WindowsMarker);
    var i :| OccursAt(low, WindowsMarker, i);
    assert ToLower(family[i..i + |WindowsMarker|]) == low[i..i + |WindowsMarker|];
    assert ToLower(WindowsMarker) == WindowsMarker by {
      assert forall j :: 0 <= j < |WindowsMarker| ==> 'a' <= WindowsMarker[j] <= 'z';
    }
    assert OccursIgnoringCaseAt(family, WindowsMarker, i);
  }

  /** "windows" in any letter case, anywhere in osFamily, marks a Windows host. */
  lemma WindowsMarkerAnywhere(node: Node, before: string, marker: string, after: string)
    requires OsFamily in node.attributes && node.attributes[OsFamily] == before + marker + after
    requires EqualsIgnoreCase(marker, WindowsMarker)
    ensures IsWindows(node)
  {
    ToLowerConcat(before + marker, after);
    ToLowerConcat(before, marker);
    assert ToLower(WindowsMarker) == WindowsMarker by {
      assert forall i :: 0 <= i < |WindowsMarker| ==> 'a' <= WindowsMarker[i] <= 'z';
    }
    ContainsConcat(ToLower(before), WindowsMarker, ToLower(after));
  }

  /** A node without osFamily is never a Windows host. */
  lemma NoOsFamilyIsNotWindows(node: Node)
    requires OsFamily !in node.attributes
    ensures !IsWindows(node)
  {
  }

  /** resolveProperty(key, default, project, framework, node, null): the node
      is consulted directly and there is no job layer. */
  function NodeProperty(ctx: ExecContext, node: Node, key: string, default: string): (r: string)
    ensures key in node.attributes ==> r == node.attributes[key]
    ensures key !in node.attributes && K.ProjectPropPrefix + key in ctx.scopes.projectProps ==>
              r == ctx.scopes.projectProps[K.ProjectPropPrefix + key]
    ensures (key !in node.attributes && K.ProjectPropPrefix + key !in ctx.scopes.projectProps &&
             K.FrameworkPropPrefix + key in ctx.scopes.frameworkProps) ==>
              r == ctx.scopes.frameworkProps[K.FrameworkPropPrefix + key]
    ensures (key !in node.attributes && K.ProjectPropPrefix + key !in ctx.scopes.projectProps &&
             K.FrameworkPropPrefix + key !in ctx.scopes.frameworkProps) ==> r == default
  {
    ResolveProperty(key, Some(default), ctx.scopes, Some(node), map[]).GetOr(default)
  }

  function Executable(ctx: ExecContext, node: Node): string {
    NodeProperty(ctx, node, K.Executable, K.DefaultExecutable)
  }

  function WindowsExecutable(ctx: ExecContext, node: Node): string {
    NodeProperty(ctx, node, K.WindowsExecutable, K.DefaultWindowsExecutable)
  }

  /** With nothing configured anywhere, the shells are /bin/sh and powershell.exe. */
  lemma ExecutablesDefault(ctx: ExecContext, node: Node)
    requires K.Executable !in node.attributes && K.WindowsExecutable !in node.attributes
    requires ctx.scopes.projectProps == map[] && ctx.scopes.frameworkProps == map[]
    ensures Executable(ctx, node) == "/bin/sh"
    ensures WindowsExecutable(ctx, node) == "powershell.exe"
  {
  }

  // ---------------------------------------------------------------------------
  // The module arguments

  /** One command element: single-quoted for a Unix shell (embedded quotes are
      not escaped), bare for Windows; always after one space. */
  function Piece(arg: string, windows: bool): string {
    if windows then " " + arg else " '" + arg + "'"
  }

  /** The cmdArgs text: "executable=" and the shell, then each element. */
  function CommandArgs(executable: string, command: seq<string>, windows: bool): (r: string)
    ensures StartsWith(r, "executable=" + executable)
    ensures command != [] ==>
              var last := Piece(command[|command| - 1], windows);
              |last| <= |r| && r[|r| - |last|..] == last
    decreases |command|
  {
    if command == [] then "executable=" + executable
    else
      var before := CommandArgs(executable, command[..|command| - 1], windows);
      var r := before + Piece(command[|command| - 1], windows);
      assert r[..|"executable=" + executable|] == before[..|"executable=" + executable|];
      r
  }

  /** The arguments of a prefix of the command are a prefix of the arguments. */
  lemma {:induction false} CommandArgsPrefix(executable: string, command: seq<string>, windows: bool, k: nat)
    requires k <= |command|
    ensures |CommandArgs(executable, command[..k], windows)| <= |CommandArgs(executable, command, windows)|
    ensures CommandArgs(executable, command, windows)[..|CommandArgs(executable, command[..k], windows)|]
         == CommandArgs(executable, command[..k], windows)
    decreases |command|
  {
    if k == |command| {
      assert command[..k] == command;
    } else {
      var init := command[..|command| - 1];
      assert command[..k] == init[..k];
      CommandArgsPrefix(executable, init, windows, k);
    }
  }

  /** The text starts with "executable=" and the shell. */
  lemma CommandArgsStartWithExecutable(executable: string, command: seq<string>, windows: bool)
    ensures StartsWith(CommandArgs(executable, command, windows), "executable=" + executable)
  {
    CommandArgsPrefix(executable, command, windows, 0);
    assert command[..0] == [];
  }

  /** One more element appends its piece. */
  lemma CommandArgsStep(executable: string, command: seq<string>, windows: bool, i: nat)
    requires i < |command|
    ensures CommandArgs(executable, command[..i + 1], windows) ==
            CommandArgs(executable, command[..i], windows) + Piece(command[i], windows)
  {
    var pre := command[..i + 1];
    assert pre[..|pre| - 1] == command[..i] && pre[|pre| - 1] == command[i];
  }

  /** Element i sits, quoted as its platform wants, right after the text of
      elements 0..i-1: the elements appear in order and unaltered. */
  lemma ElementInPlace(executable: string, command: seq<string>, windows: bool, i: nat)
    requires i < |command|
    ensures var start := |CommandArgs(executable, command[..i], windows)|;
            var p := Piece(command[i], windows);
            start + |p| <= |CommandArgs(executable, command, windows)| &&
            CommandArgs(executable, command, windows)[start..start + |p|] == p
  {
    var whole := CommandArgs(executable, command, windows);
    var head := CommandArgs(executable, command[..i], windows);
    var p := Piece(command[i], windows);
    CommandArgsPrefix(executable, command, windows, i + 1);
    CommandArgsStep(executable, command, windows, i);
    SliceAfterPrefix(whole, head, p);
  }

  /** The StringBuilder loops of executeCommand, one per platform. */
  method BuildCommandArgs(executable: string, windowsExecutable: string, command: seq<string>, windows: bool)
    returns (cmdArgs: string)
    ensures cmdArgs == CommandArgs(if windows then windowsExecutable else executable, command, windows)
  {
    var exe := if windows then windowsExecutable else executable;
    cmdArgs := "executable=" + exe;
    var i := 0;
    if windows {
      while i < |command|
        invariant 0 <= i <= |command|
        invariant cmdArgs == CommandArgs(exe, command[..i], windows)
      {
        assert command[..i + 1][..i] == command[..i];
        cmdArgs := cmdArgs + " " + command[i];
        i := i + 1;
      }
    } else {
      while i < |command|
        invariant 0 <= i <= |command|
        invariant cmdArgs == CommandArgs(exe, command[..i], windows)
      {
        assert command[..i + 1][..i] == command[..i];
        cmdArgs := cmdArgs + " '" + command[i] + "'";
        i := i + 1;
      }
    }
    assert command[..i] == command;
  }

  // ---------------------------------------------------------------------------
  // The job configuration

  function ModuleFor(windows: bool): string {
    if windows then WindowsShellModule else ShellModule
  }

  /** The debug entry: "True" exactly when the system property is "true". */
  function DebugValue(systemDebug: Option<string>): string {
    if systemDebug == Some("true") then "True" else "False"
  }

  /** The job configuration executeCommand hands to the builder. */
  function AdHocJobConf(nodeName: string, cmdArgs: string, windows: bool, systemDebug: Option<string>): map<string, string> {
    map[K.Module := ModuleFor(windows), K.ModuleArgs := cmdArgs, K.Limit := nodeName, K.Debug := DebugValue(systemDebug)]
  }

  /** The puts of executeCommand into its jobConf map. */
  method BuildJobConf(nodeName: string, cmdArgs: string, windows: bool, systemDebug: Option<string>)
    returns (jobConf: map<string, string>)
    ensures jobConf.Keys == {K.Module, K.ModuleArgs, K.Limit, K.Debug}
    ensures jobConf[K.Module] == (if windows then "win_shell" else "shell")
    ensures jobConf[K.ModuleArgs] == cmdArgs && jobConf[K.Limit] == nodeName
    ensures jobConf[K.Debug] == (if systemDebug == Some("true") then "True" else "False")
    ensures jobConf == AdHocJobConf(nodeName, cmdArgs, windows, systemDebug)
  {
    jobConf := map[];
    if windows {
      jobConf := jobConf[K.Module := WindowsShellModule];
    } else {
      jobConf := jobConf[K.Module := ShellModule];
    }
    jobConf := jobConf[K.ModuleArgs := cmdArgs];
    jobConf := jobConf[K.Limit := nodeName];
    if systemDebug == Some("true") {
      jobConf := jobConf[K.Debug := "True"];
    } else {
      jobConf := jobConf[K.Debug := "False"];
    }
  }

  /** The whole job configuration of executeCommand for a command on a node. */
  function ExecutorJobConf(ctx: ExecContext, node: Node, command: seq<string>, systemDebug: Option<string>): map<string, string> {
    var windows := IsWindows(node);
    AdHocJobConf(node.nodename,
                 CommandArgs(if windows then WindowsExecutable(ctx, node) else Executable(ctx, node), command, windows),
                 windows, systemDebug)
  }

  /** The builder for the executor's node and job configuration. */
  function ExecutorConfig(ctx: ExecContext, node: Node, command: seq<string>, systemDebug: Option<string>): Config {
    ForNode(ctx, node, ExecutorJobConf(ctx, node, command, systemDebug))
  }

  lemma ShellModulesHaveNoReference()
    ensures !HasReference(ShellModule) && !HasReference(WindowsShellModule)
  {
    assert forall i :: 0 <= i < |ShellModule| ==> ShellModule[i] != '$';
    assert forall i :: 0 <= i < |WindowsShellModule| ==> WindowsShellModule[i] != '$';
  }

  /** The builder runs the shell module of the node's platform with the
      (expanded) argument text. */
  lemma AdHocTarget(ctx: ExecContext, node: Node, command: seq<string>, systemDebug: Option<string>)
    ensures var c := ExecutorConfig(ctx, node, command, systemDebug);
            RunTarget(c) == Success(AdHoc(if IsWindows(node) then "win_shell" else "shell",
                                          ExpandRefs(c, Some(c.jobConf[K.ModuleArgs]))))
  {
    ShellModulesHaveNoReference();
  }

  /** The builder limits the run to this node unless the limit is disabled. */
  lemma LimitIsTheNode(ctx: ExecContext, node: Node, command: seq<string>, systemDebug: Option<string>)
    ensures var c := ExecutorConfig(ctx, node, command, systemDebug);
            !LimitDisabled(c) ==> Limit(c) == ExpandRefs(c, Some(node.nodename))
  {
  }

  /** The builder's debug flag (which also keeps temporary files) is on
      exactly when the system property ansible.debug is "true". */
  lemma DebugFollowsSystemProperty(ctx: ExecContext, node: Node, command: seq<string>, systemDebug: Option<string>)
    ensures Debug(ExecutorConfig(ctx, node, command, systemDebug)) <==> systemDebug == Some("true")
  {
    var c := ExecutorConfig(ctx, node, command, systemDebug);
    assert Resolve(c, K.Debug, None) == Some(DebugValue(systemDebug));
    if systemDebug == Some("true") {
      assert ToLower("True") == "true" by {
        assert ToLower("True")[0] == LowerChar('T');
      }
    } else {
      assert |ToLower("False")| != |ToLower("true")|;
    }
  }

  // ---------------------------------------------------------------------------
  // executeCommand

  datatype FailureReason = ParseArgumentsError | AnsibleError

  /** NodeExecutorResultImpl: success, or a failure with its reason and message. */
  datatype ExecutorResult =
    | Succeeded(node: Node)
    | Failed(reason: FailureReason, message: string, node: Node)

  /** buildAnsibleRunner's result when the next temporary file id is `next`. */
  function BuildResult(c: Config, next: nat): Result<Runner> {
    var r0 :- RunnerWithAuth(c);
    RunnerWithSettings(c, r0, InventoryRefFor(c, next))
  }

  /** The outcome: a ConfigurationException while building is a parse-arguments
      failure with its message; any other exception escapes (Failure); a
      failing run is an Ansible failure with its message; otherwise success. */
  function Outcome(node: Node, built: Result<Runner>, runError: Option<string>): (r: Result<ExecutorResult>)
    ensures r == Success(Succeeded(node)) <==> built.Success? && runError.None?
    ensures r.Failure? <==> built.Failure? && !built.error.ConfigurationError?
    ensures r.Failure? ==> r.error == built.error
    ensures r.Success? && r.value.Failed? ==>
              r.value.node == node &&
              (r.value.reason == ParseArgumentsError <==> built.Failure?)
  {
    match built
    case Failure(e) =>
      if e.ConfigurationError? then Success(Failed(ParseArgumentsError, e.message, node)) else Failure(e)
    case Success(_) =>
      if runError.Some? then Success(Failed(AnsibleError, runError.value, node)) else Success(Succeeded(node))
  }

  /** Success exactly when the runner was built and ran without an exception. */
  lemma SucceedsOnlyWhenBuiltAndRun(node: Node, built: Result<Runner>, runError: Option<string>)
    ensures Outcome(node, built, runError) == Success(Succeeded(node)) <==> built.Success? && runError.None?
    ensures built.Failure? && built.error.ConfigurationError? ==>
              Outcome(node, built, runError) == Success(Failed(ParseArgumentsError, built.error.message, node))
    ensures built.Success? && runError.Some? ==>
              Outcome(node, built, runError) == Success(Failed(AnsibleError, runError.value, node))
  {
  }

  /** The temporary file the build creates, if any. */
  function CreatedFiles(c: Config, next: nat): set<nat> {
    if RunnerWithAuth(c).Success? && TempContentOf(c).Some? then {next} else {}
  }

  /** executeCommand: build the arguments and the job configuration, build the
      runner, run it, and clean up only after a successful run (both failure
      returns leave the generated inventory file in place). */
  method ExecuteCommand(ctx: ExecContext, command: seq<string>, node: Node, systemDebug: Option<string>,
                        store: TempFileStore, runError: Option<string>) returns (result: Result<ExecutorResult>)
    requires store.Valid()
    modifies store
    ensures store.Valid()
    ensures var c := ExecutorConfig(ctx, node, command, systemDebug);
            result == Outcome(node, BuildResult(c, old(store.issued)), runError)
    ensures var c := ExecutorConfig(ctx, node, command, systemDebug);
            store.live == if result == Success(Succeeded(node)) && !Debug(c) then old(store.live)
                          else old(store.live) + CreatedFiles(c, old(store.issued))
  {
    var windows := IsWindows(node);
    var executable := Executable(ctx, node);
    var windowsExecutable := WindowsExecutable(ctx, node);
    var cmdArgs := BuildCommandArgs(executable, windowsExecutable, command, windows);
    var jobConf := BuildJobConf(node.nodename, cmdArgs, windows, systemDebug);
    assert ForNode(ctx, node, jobConf) == ExecutorConfig(ctx, node, command, systemDebug);
    result := RunOnNode(ForNode(ctx, node, jobConf), node, store, runError);
  }

  /** The second half of executeCommand: build, run, clean up after success. */
  method RunOnNode(c: Config, node: Node, store: TempFileStore, runError: Option<string>)
    returns (result: Result<ExecutorResult>)
    requires store.Valid()
    modifies store
    ensures store.Valid()
    ensures result == Outcome(node, BuildResult(c, old(store.issued)), runError)
    ensures store.live == if result == Success(Succeeded(node)) && !Debug(c) then old(store.live)
                          else old(store.live) + CreatedFiles(c, old(store.issued))
  {
    ghost var next := store.issued;
    var builder := new AnsibleRunnerBuilder(c, store);
    var runner := builder.BuildAnsibleRunner();
    assert runner.Success? ==> RunnerWithAuth(c).Success?;
    if runner.Failure? {
      if runner.error.ConfigurationError? {
        return Success(Failed(ParseArgumentsError, runner.error.message, node));
      }
      return Failure(runner.error);
    }
    if runError.Some? {
      return Success(Failed(AnsibleError, runError.value, node));
    }
    ghost var built := builder.tempFiles;
    if TempContentOf(c).Some? {
      assert built == [next];
      ghost var deleted := set j | 0 <= j < |built| :: built[j];
      assert built[0] in deleted;
      assert deleted == {next};
    } else {
      assert built == [];
    }
    builder.CleanupTempFiles();
    result := Success(Succeeded(node));
  }

  // ---------------------------------------------------------------------------
  // The secret-bundle hooks

  /** prepareSecretBundle's job configuration: the limit and the debug entry. */
  function BundleJobConf(node: Node, systemDebug: Option<string>): map<string, string> {
    map[K.Limit := node.nodename, K.Debug := DebugValue(systemDebug)]
  }

  /** listSecretsPath's job configuration: the limit only. */
  function SecretsPathJobConf(node: Node): (r: map<string, string>)
    ensures r.Keys == {K.Limit} && r[K.Limit] == node.nodename
  {
    map[K.Limit := node.nodename]
  }

  /** prepareSecretBundle: the bundle of a builder for this node. */
  method PrepareSecretBundle(ctx: ExecContext, node: Node, systemDebug: Option<string>)
    returns (r: Result<SecretBundle.DefaultSecretBundle>)
    ensures var b := SecretBundle.CreateBundleResult(ForNode(ctx, node, BundleJobConf(node, systemDebug)));
            (r.Success? <==> b.Success?) &&
            (r.Success? ==> fresh(r.value) && r.value.secrets == b.value) &&
            (r.Failure? ==> r.error == b.error)
  {
    var jobConf: map<string, string> := map[];
    jobConf := jobConf[K.Limit := node.nodename];
    if systemDebug == Some("true") {
      jobConf := jobConf[K.Debug := "True"];
    } else {
      jobConf := jobConf[K.Debug := "False"];
    }
    r := SecretBundle.CreateBundle(ForNode(ctx, node, jobConf));
  }

  /** The limit and debug entries never name a secret: the bundle's storage
      paths are those of a builder with no job configuration at all. */
  lemma BundleJobConfNamesNoSecret(ctx: ExecContext, node: Node, systemDebug: Option<string>)
    ensures var c := ForNode(ctx, node, BundleJobConf(node, systemDebug));
            var c0 := ForNode(ctx, node, map[]);
            PasswordStoragePath(c) == PasswordStoragePath(c0) &&
            PrivateKeyStoragePath(c) == PrivateKeyStoragePath(c0) &&
            BecomePasswordStoragePath(c) == BecomePasswordStoragePath(c0)
  {
  }
}
