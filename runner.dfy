/** The invocation descriptor handed to the external runner (AnsibleRunner,
    whose source is not part of this model): what to run and every setting the
    builders pass to it. A setting the builders never pass stays at its unset
    value (None or false); the runner's own defaults are not modelled. */
module Runner {
  import opened Base

  /** What to run: a playbook file, an inline playbook, or an ad-hoc module. */
  datatype Target =
    | PlaybookFile(path: string)
    | PlaybookText(text: string)
    | AdHoc(moduleName: string, args: Option<string>)

  /** Where the inventory lives: a temporary file the builder created and
      tracks, or a path taken from the configuration. */
  datatype InventoryRef = TempInventory(id: nat) | InventoryPath(path: string)

  datatype Runner = Runner(
    target: Target,
    sshPrivateKey: Option<string>,
    sshUseAgent: bool,
    sshPassphrase: Option<string>,
    sshUsePassword: bool,
    sshPass: Option<string>,
    options: Option<Vars>,
    inventory: Option<InventoryRef>,
    limit: Option<string>,
    debug: bool,
    ignoreErrors: bool,
    extraParams: Option<string>,
    extraVars: Option<string>,
    sshUser: Option<string>,
    vaultPass: Option<string>,
    sshTimeout: Option<int>,
    become: Option<bool>,
    becomeUser: Option<string>,
    becomeMethod: Option<string>,
    becomePassword: Option<string>,
    executable: Option<string>,
    configFile: Option<string>,
    baseDirectory: Option<string>,
    binariesDirectory: Option<string>)

  /** No setting that the builder passes after the credentials has been set. */
  predicate Unsettled(r: Runner) {
    r.inventory.None? && r.limit.None? && r.extraParams.None? && VariablesUnset(r) && PrivilegesUnset(r)
  }

  /** Extra variables, SSH user, vault key, timeout, become flag and user unset. */
  predicate VariablesUnset(r: Runner) {
    r.extraVars.None? && r.sshUser.None? && r.vaultPass.None? && r.sshTimeout.None? &&
    r.become.None? && r.becomeUser.None?
  }

  /** Become method and password, executable, configuration file and directories unset. */
  predicate PrivilegesUnset(r: Runner) {
    r.becomeMethod.None? && r.becomePassword.None? &&
    r.executable.None? && r.configFile.None? && r.baseDirectory.None? && r.binariesDirectory.None?
  }

  /** The same target, credentials, options and ignore-errors flag. */
  predicate SameCredentials(a: Runner, b: Runner) {
    a.target == b.target && a.sshPrivateKey == b.sshPrivateKey && a.sshUseAgent == b.sshUseAgent &&
    a.sshPassphrase == b.sshPassphrase && a.sshUsePassword == b.sshUsePassword &&
    a.sshPass == b.sshPass && a.options == b.options && a.ignoreErrors == b.ignoreErrors
  }

  /** AnsibleRunner.playbookPath / playbookInline / adHoc: a runner for a target
      with nothing else set. */
  function NewRunner(t: Target): (r: Runner)
    ensures r.target == t
  {
    Runner(t, None, false, None, false, None, None, None, None, false, false,
           None, None, None, None, None, None, None, None, None, None, None, None, None)
  }
}
