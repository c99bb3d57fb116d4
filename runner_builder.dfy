/** Execution-parameter resolution (AnsibleRunnerBuilder): every setting of one
    runner invocation is resolved from the layered configuration, secrets are
    read from the secure options, the storage tree or local files, and the
    temporary inventory files the builder creates are tracked until cleanup. */
module RunnerBuilder {
  import opened Base
  import opened Resolver
  import opened Runner
  import K = Describable

  /** The execution context of one run. `expand` is
      DataContextUtils.replaceDataReferences against this run's data context and
      `decode` is `new String(bytes)`; both are kept abstract. `storage` is the
      key storage tree and `files` the local file system; a path missing from
      either is a failed read. `dataContext` holds the namespaces ("option",
      "export", "data") in the platform's iteration order. */
  datatype ExecContext = ExecContext(
    scopes: Scopes,
    dataContext: map<string, Vars>,
    secureOptions: map<string, string>,
    storage: map<string, seq<byte>>,
    files: map<string, seq<byte>>,
    expand: string -> string,
    decode: seq<byte> -> string,
    lineSeparator: string)

  /** What a builder is constructed with: the context, the job configuration and
      the nodes in scope. */
  datatype Config = Config(ctx: ExecContext, jobConf: map<string, string>, nodes: seq<Node>)

  /** The builder constructed for a single node (the executor's constructor). */
  function ForNode(ctx: ExecContext, node: Node, jobConf: map<string, string>): Config {
    Config(ctx, jobConf, [node])
  }

  /** getNode: the node used for node-level lookups. */
  function TheNode(c: Config): (r: Option<Node>)
    ensures r.Some? <==> |c.nodes| == 1
    ensures r.Some? ==> r.value == c.nodes[0]
  {
    if |c.nodes| == 1 then Some(c.nodes[0]) else None
  }

  function Resolve(c: Config, key: string, default: Option<string>): Option<string> {
    ResolveProperty(key, default, c.ctx.scopes, TheNode(c), c.jobConf)
  }

  /** Expansion of a value already chosen, applied only when it holds "${". */
  function ExpandRefs(c: Config, v: Option<string>): Option<string> {
    if v.Some? && HasReference(v.value) then Some(c.ctx.expand(v.value)) else v
  }

  /** The getters that resolve a key and then expand the chosen value. */
  function ResolvedExpanded(c: Config, key: string): Option<string> {
    ExpandRefs(c, Resolve(c, key, None))
  }

  /** The getters that read the job configuration only, then expand. */
  function JobConfExpanded(c: Config, key: string): Option<string> {
    ExpandRefs(c, Lookup(c.jobConf, key))
  }

  function PrivateKeyfilePath(c: Config): Option<string> { ResolvedExpanded(c, K.SshKeyPath) }
  function PrivateKeyStoragePath(c: Config): Option<string> { ResolvedExpanded(c, K.SshKeyStoragePath) }
  function PasswordStoragePath(c: Config): Option<string> { ResolvedExpanded(c, K.SshPasswordStoragePath) }
  function BecomePasswordStoragePath(c: Config): Option<string> { ResolvedExpanded(c, K.BecomePasswordStoragePath) }
  /** What an expanding getter promises about its raw value: set exactly when
      the raw value is, its expansion when it holds a `${...}` reference, and
      the raw text itself otherwise. */
  predicate ExpandedFrom(c: Config, raw: Option<string>, r: Option<string>) {
    (r.Some? <==> raw.Some?) &&
    (raw.Some? && HasReference(raw.value) ==> r == Some(c.ctx.expand(raw.value))) &&
    (raw.Some? && !HasReference(raw.value) ==> r == raw)
  }

  function SshUser(c: Config): (r: Option<string>)
    ensures ExpandedFrom(c, Resolve(c, K.SshUser, None), r)
  {
    ResolvedExpanded(c, K.SshUser)
  }

  function BecomeUser(c: Config): (r: Option<string>)
    ensures ExpandedFrom(c, Resolve(c, K.BecomeUser, None), r)
  {
    ResolvedExpanded(c, K.BecomeUser)
  }

  function ExtraParams(c: Config): (r: Option<string>)
    ensures ExpandedFrom(c, Resolve(c, K.ExtraParam, None), r)
  {
    ResolvedExpanded(c, K.ExtraParam)
  }

  function Executable(c: Config): (r: Option<string>)
    ensures ExpandedFrom(c, Resolve(c, K.Executable, None), r)
  {
    ResolvedExpanded(c, K.Executable)
  }

  function IgnoreTagsPrefix(c: Config): Option<string> { ResolvedExpanded(c, K.IgnoreTags) }

  function ConfigFile(c: Config): (r: Option<string>)
    ensures ExpandedFrom(c, Resolve(c, K.ConfigFilePath, None), r)
  {
    ResolvedExpanded(c, K.ConfigFilePath)
  }

  function PlaybookPath(c: Config): (r: Option<string>)
    ensures ExpandedFrom(c, Lookup(c.jobConf, K.PlaybookPath), r)
  {
    JobConfExpanded(c, K.PlaybookPath)
  }

  function PlaybookInline(c: Config): (r: Option<string>)
    ensures ExpandedFrom(c, Lookup(c.jobConf, K.PlaybookInline), r)
  {
    JobConfExpanded(c, K.PlaybookInline)
  }

  function ModuleName(c: Config): Option<string> { JobConfExpanded(c, K.Module) }
  function ModuleArgs(c: Config): Option<string> { JobConfExpanded(c, K.ModuleArgs) }

  function BaseDir(c: Config): (r: Option<string>)
    ensures ExpandedFrom(c, Lookup(c.jobConf, K.BaseDirPath), r)
  {
    JobConfExpanded(c, K.BaseDirPath)
  }

  function BinariesFilePath(c: Config): (r: Option<string>)
    ensures ExpandedFrom(c, Lookup(c.jobConf, K.BinariesDirPath), r)
  {
    JobConfExpanded(c, K.BinariesDirPath)
  }

  /** Boolean.parseBoolean of a resolved value; absent stays absent. */
  function OptionalFlag(c: Config, key: string): Option<bool> {
    var v := Resolve(c, key, None);
    if v.Some? then Some(ParseBoolean(v)) else None
  }

  function Become(c: Config): (r: Option<bool>)
    ensures r.Some? <==> Resolve(c, K.Become, None).Some?
    ensures r.Some? ==> (r.value <==> EqualsIgnoreCase(Resolve(c, K.Become, None).value, "true"))
  {
    OptionalFlag(c, K.Become)
  }

  function GatherFacts(c: Config): Option<bool> { OptionalFlag(c, K.GatherFacts) }
  function IgnoreErrors(c: Config): Option<bool> { OptionalFlag(c, K.IgnoreErrors) }
  function GenerateInventory(c: Config): Option<bool> { OptionalFlag(c, K.GenerateInventory) }
  function Debug(c: Config): (r: bool)
    ensures r <==> Resolve(c, K.Debug, None).Some? && EqualsIgnoreCase(Resolve(c, K.Debug, None).value, "true")
  {
    ParseBoolean(Resolve(c, K.Debug, None))
  }

  function UseSshAgent(c: Config): bool { ParseBoolean(Resolve(c, K.SshUseAgent, None)) }

  /** getSshAuthenticationType: privateKey when unset, else the constant named. */
  function SshAuthenticationType(c: Config): (r: Result<K.AuthenticationType>)
    ensures Resolve(c, K.SshAuthType, None).None? ==> r == Success(K.PrivateKey)
    ensures r.Success? && Resolve(c, K.SshAuthType, None).Some? ==>
              K.AuthenticationTypeName(r.value) == Resolve(c, K.SshAuthType, None).value
    ensures r.Failure? <==>
              Resolve(c, K.SshAuthType, None).Some? &&
              K.AuthenticationTypeValueOf(Resolve(c, K.SshAuthType, None).value).None?
    ensures r.Failure? ==> r.error == InvalidEnumName(Resolve(c, K.SshAuthType, None).value)
  {
    match Resolve(c, K.SshAuthType, None)
    case None => Success(K.PrivateKey)
    case Some(name) =>
      match K.AuthenticationTypeValueOf(name)
      case Some(t) => Success(t)
      case None => Failure(InvalidEnumName(name))
  }

  /** getBecomeMethod: absent when unset, else the constant named. */
  function BecomeMethod(c: Config): (r: Result<Option<K.BecomeMethodType>>)
    ensures Resolve(c, K.BecomeMethod, None).None? ==> r == Success(None)
    ensures r.Success? && r.value.Some? ==>
              Resolve(c, K.BecomeMethod, None) == Some(K.BecomeMethodName(r.value.value))
    ensures r.Failure? <==>
              Resolve(c, K.BecomeMethod, None).Some? &&
              K.BecomeMethodValueOf(Resolve(c, K.BecomeMethod, None).value).None?
    ensures r.Failure? ==> r.error == InvalidEnumName(Resolve(c, K.BecomeMethod, None).value)
  {
    match Resolve(c, K.BecomeMethod, None)
    case None => Success(None)
    case Some(name) =>
      match K.BecomeMethodValueOf(name)
      case Some(m) => Success(Some(m))
      case None => Failure(InvalidEnumName(name))
  }

  /** getSSHTimeout: Integer.parseInt of the resolved value. The message names
      the still-null result variable, as the source's concatenation does. */
  function SshTimeout(c: Config): (r: Result<Option<int>>)
    ensures Resolve(c, K.SshTimeout, None).None? ==> r == Success(None)
    ensures r.Success? && r.value.Some? ==>
              Resolve(c, K.SshTimeout, None).Some? &&
              ParseInt(Resolve(c, K.SshTimeout, None).value) == r.value
    ensures r.Failure? <==>
              Resolve(c, K.SshTimeout, None).Some? && ParseInt(Resolve(c, K.SshTimeout, None).value).None?
  {
    match Resolve(c, K.SshTimeout, None)
    case None => Success(None)
    case Some(s) =>
      match ParseInt(s)
      case Some(n) => Success(Some(n))
      case None => Failure(ConfigurationError("Can't parse timeout valuenull"))
  }

  /** The disable-limit flag, compared with "true" exactly and false by default. */
  predicate LimitDisabled(c: Config) {
    ResolveBooleanProperty(K.DisableLimit, K.DisableLimitDefault, c.ctx.scopes, TheNode(c), c.jobConf)
  }

  /** getLimit: the resolved and expanded limit, unless the flag disables it. */
  function Limit(c: Config): (r: Option<string>)
    ensures LimitDisabled(c) ==> r.None?
    ensures !LimitDisabled(c) ==> (r.Some? <==> Resolve(c, K.Limit, None).Some?)
    ensures r.Some? && !HasReference(Resolve(c, K.Limit, None).value) ==> r == Resolve(c, K.Limit, None)
    ensures r.Some? && HasReference(Resolve(c, K.Limit, None).value) ==>
              r == Some(c.ctx.expand(Resolve(c, K.Limit, None).value))
  {
    if LimitDisabled(c) then None else ResolvedExpanded(c, K.Limit)
  }

  // ---------------------------------------------------------------------------
  // Secrets

  /** One logical secret: the secure option naming it (key and default option
      name), the storage-path key, and the local-file key. */
  datatype SecretSlot = SecretSlot(
    what: string,
    option: Option<(string, string)>,
    storageKey: string,
    fileKey: Option<string>)

  const SshPasswordSlot: SecretSlot :=
    SecretSlot("ssh password", Some((K.SshPasswordOption, K.DefaultSshPasswordOption)), K.SshPasswordStoragePath, None)
  const BecomePasswordSlot: SecretSlot :=
    SecretSlot("become password", Some((K.BecomePasswordOption, K.DefaultBecomePasswordOption)), K.BecomePasswordStoragePath, None)
  const PassphraseSlot: SecretSlot :=
    SecretSlot("ssh Passphrase", Some((K.SshPassphraseOption, K.DefaultSshPassphraseOption)), K.SshPassphraseStoragePath, None)
  const PrivateKeySlot: SecretSlot :=
    SecretSlot("ssh private key", None, K.SshKeyStoragePath, Some(K.SshKeyPath))
  const VaultKeySlot: SecretSlot :=
    SecretSlot("vault key", None, K.VaultStoragePath, Some(K.VaultPath))

  /** The secure-option value for a slot that has one. */
  function SecureOptionValue(c: Config, slot: SecretSlot): Option<string> {
    match slot.option
    case None => None
    case Some(opt) =>
      var name := Resolve(c, opt.0, Some(opt.1)).GetOr(opt.1);
      EvaluateSecureOption(name, c.ctx.secureOptions)
  }

  function StorageMessage(what: string, path: string): string {
    "Failed to read the " + what + " for storage path: " + path
  }

  /** Both local-file reads (private key and vault key) report an "ssh private key". */
  function FileMessage(path: string): string {
    "Failed to read the ssh private key from path " + path
  }

  function ReadStorage(c: Config, path: string, what: string): Result<string> {
    if path in c.ctx.storage then Success(c.ctx.decode(c.ctx.storage[path]))
    else Failure(ConfigurationError(StorageMessage(what, path)))
  }

  function ReadFile(c: Config, path: string): Result<string> {
    if path in c.ctx.files then Success(c.ctx.decode(c.ctx.files[path]))
    else Failure(ConfigurationError(FileMessage(path)))
  }

  /** The storage path (expanded) when one is configured, else the local file
      (expanded) when the slot has one, else absent. */
  function StoredSecret(c: Config, slot: SecretSlot): Result<Option<string>> {
    match ResolvedExpanded(c, slot.storageKey)
    case Some(p) =>
      var s :- ReadStorage(c, p, slot.what);
      Success(Some(s))
    case None =>
      if slot.fileKey.None? then Success(None)
      else
        match ResolvedExpanded(c, slot.fileKey.value)
        case None => Success(None)
        case Some(p) =>
          var s :- ReadFile(c, p);
          Success(Some(s))
  }

  /** What every secret getter promises: a non-empty secure option is the
      answer; otherwise a configured storage path is read and decoded, with a
      configuration error naming the path when nothing is stored there;
      otherwise the slot's local file is read the same way; with none of
      them the secret is absent. */
  predicate SecretSpec(c: Config, slot: SecretSlot, r: Result<Option<string>>) {
    var secure := SecureOptionValue(c, slot);
    var storage := ResolvedExpanded(c, slot.storageKey);
    var file := if slot.fileKey.Some? then ResolvedExpanded(c, slot.fileKey.value) else None;
    (secure.Some? ==> r == Success(secure)) &&
    (secure.None? && storage.Some? && storage.value in c.ctx.storage ==>
       r == Success(Some(c.ctx.decode(c.ctx.storage[storage.value])))) &&
    (secure.None? && storage.Some? && storage.value !in c.ctx.storage ==>
       r == Failure(ConfigurationError(StorageMessage(slot.what, storage.value)))) &&
    (secure.None? && storage.None? && file.Some? && file.value in c.ctx.files ==>
       r == Success(Some(c.ctx.decode(c.ctx.files[file.value])))) &&
    (secure.None? && storage.None? && file.Some? && file.value !in c.ctx.files ==>
       r == Failure(ConfigurationError(FileMessage(file.value)))) &&
    (secure.None? && storage.None? && file.None? ==> r == Success(None))
  }

  /** A secret: the secure option first, when the slot has one, then storage, then file. */
  function ResolveSecret(c: Config, slot: SecretSlot): (r: Result<Option<string>>)
    ensures SecretSpec(c, slot, r)
  {
    var secure := SecureOptionValue(c, slot);
    if secure.Some? then Success(secure) else StoredSecret(c, slot)
  }

  function SshPassword(c: Config): (r: Result<Option<string>>)
    ensures SecretSpec(c, SshPasswordSlot, r)
  {
    ResolveSecret(c, SshPasswordSlot)
  }

  function BecomePassword(c: Config): (r: Result<Option<string>>)
    ensures SecretSpec(c, BecomePasswordSlot, r)
  {
    ResolveSecret(c, BecomePasswordSlot)
  }

  function SshPrivateKey(c: Config): (r: Result<Option<string>>)
    ensures SecretSpec(c, PrivateKeySlot, r)
  {
    ResolveSecret(c, PrivateKeySlot)
  }

  function VaultKey(c: Config): (r: Result<Option<string>>)
    ensures SecretSpec(c, VaultKeySlot, r)
  {
    ResolveSecret(c, VaultKeySlot)
  }

  function Passphrase(c: Config): (r: Result<Option<string>>)
    ensures SecretSpec(c, PassphraseSlot, r)
  {
    ResolveSecret(c, PassphraseSlot)
  }
  /** getBecomePassword(prefix): the secure option only. */
  function BecomePasswordOption(c: Config): Option<string> { SecureOptionValue(c, BecomePasswordSlot) }

  /** getPassphraseStoragePath: despite its name, the decoded CONTENT stored at
      the configured path. */
  function PassphraseStoragePath(c: Config): (r: Result<Option<string>>)
    ensures ResolvedExpanded(c, K.SshPassphraseStoragePath).None? ==> r == Success(None)
    ensures r.Success? && r.value.Some? ==>
              var p := ResolvedExpanded(c, K.SshPassphraseStoragePath).value;
              p in c.ctx.storage && r.value.value == c.ctx.decode(c.ctx.storage[p])
    ensures r.Failure? ==>
              var p := ResolvedExpanded(c, K.SshPassphraseStoragePath).value;
              p !in c.ctx.storage && r.error == ConfigurationError(StorageMessage("ssh Passphrase", p))
  {
    StoredSecret(c, PassphraseSlot)
  }

  /** loadStoragePathData: the raw bytes at a path, absent for an absent path. */
  function LoadStoragePathData(c: Config, path: Option<string>): (r: Result<Option<seq<byte>>>)
    ensures path.None? ==> r == Success(None)
    ensures path.Some? && path.value in c.ctx.storage ==> r == Success(Some(c.ctx.storage[path.value]))
    ensures path.Some? && path.value !in c.ctx.storage ==> r == Failure(StorageReadError(path.value))
  {
    match path
    case None => Success(None)
    case Some(p) => if p in c.ctx.storage then Success(Some(c.ctx.storage[p])) else Failure(StorageReadError(p))
  }

  function PasswordStorageData(c: Config): Result<Option<seq<byte>>> { LoadStoragePathData(c, PasswordStoragePath(c)) }
  function PrivateKeyStorageData(c: Config): Result<Option<seq<byte>>> { LoadStoragePathData(c, PrivateKeyStoragePath(c)) }
  function BecomePasswordStorageData(c: Config): Result<Option<seq<byte>>> { LoadStoragePathData(c, BecomePasswordStoragePath(c)) }

  /** The same configuration seen through another storage tree and file system. */
  function WithStores(c: Config, storage: map<string, seq<byte>>, files: map<string, seq<byte>>): Config {
    c.(ctx := c.ctx.(storage := storage, files := files))
  }

  /** A non-empty secure option is returned without any storage or file read. */
  lemma SecureOptionShortCircuits(c: Config, slot: SecretSlot,
                                  storage: map<string, seq<byte>>, files: map<string, seq<byte>>)
    requires SecureOptionValue(c, slot).Some?
    ensures ResolveSecret(c, slot) == ResolveSecret(WithStores(c, storage, files), slot)
                                  == Success(SecureOptionValue(c, slot))
  {
  }

  /** A configured storage path wins over the local-file path: the result is the
      storage read, whatever the file system holds. */
  lemma StorageBeatsFile(c: Config, slot: SecretSlot, files: map<string, seq<byte>>)
    requires SecureOptionValue(c, slot).None?
    requires ResolvedExpanded(c, slot.storageKey).Some?
    ensures var p := ResolvedExpanded(c, slot.storageKey).value;
            ResolveSecret(c, slot) == ResolveSecret(WithStores(c, c.ctx.storage, files), slot)
            == (if p in c.ctx.storage then Success(Some(c.ctx.decode(c.ctx.storage[p])))
                else Failure(ConfigurationError(StorageMessage(slot.what, p))))
  {
  }

  /** A slot without a local-file key never reads the file system. */
  lemma SecretWithoutFileIgnoresFiles(c: Config, slot: SecretSlot, files: map<string, seq<byte>>)
    requires slot.fileKey.None?
    ensures ResolveSecret(c, slot) == ResolveSecret(WithStores(c, c.ctx.storage, files), slot)
    ensures SecureOptionValue(c, slot).None? && ResolvedExpanded(c, slot.storageKey).None? ==>
              ResolveSecret(c, slot) == Success(None)
  {
    var c' := WithStores(c, c.ctx.storage, files);
    assert SecureOptionValue(c', slot) == SecureOptionValue(c, slot);
    assert ResolvedExpanded(c', slot.storageKey) == ResolvedExpanded(c, slot.storageKey);
  }

  /** The SSH and become passwords (and the passphrase) never touch the file
      system; with neither option nor storage path they are absent. */
  lemma PasswordsNeverReadFiles(c: Config, files: map<string, seq<byte>>)
    ensures SshPassword(c) == SshPassword(WithStores(c, c.ctx.storage, files))
    ensures BecomePassword(c) == BecomePassword(WithStores(c, c.ctx.storage, files))
    ensures Passphrase(c) == Passphrase(WithStores(c, c.ctx.storage, files))
    ensures SecureOptionValue(c, SshPasswordSlot).None? && PasswordStoragePath(c).None? ==>
              SshPassword(c) == Success(None)
    ensures SecureOptionValue(c, BecomePasswordSlot).None? && BecomePasswordStoragePath(c).None? ==>
              BecomePassword(c) == Success(None)
  {
    SecretWithoutFileIgnoresFiles(c, SshPasswordSlot, files);
    SecretWithoutFileIgnoresFiles(c, BecomePasswordSlot, files);
    SecretWithoutFileIgnoresFiles(c, PassphraseSlot, files);
  }

  /** Private key and vault key: absent when neither a storage path nor a file
      path is configured; read from the file only when no storage path is. */
  lemma KeysFallBackToFile(c: Config, slot: SecretSlot)
    requires slot == PrivateKeySlot || slot == VaultKeySlot
    ensures ResolvedExpanded(c, slot.storageKey).None? && ResolvedExpanded(c, slot.fileKey.value).None? ==>
              ResolveSecret(c, slot) == Success(None)
    ensures (ResolvedExpanded(c, slot.storageKey).None? && ResolvedExpanded(c, slot.fileKey.value).Some?) ==>
              var p := ResolvedExpanded(c, slot.fileKey.value).value;
              ResolveSecret(c, slot) == (if p in c.ctx.files then Success(Some(c.ctx.decode(c.ctx.files[p])))
                                         else Failure(ConfigurationError(FileMessage(p))))
  {
  }

  /** Every failed secret read is a configuration error whose message carries
      the path that could not be read. */
  lemma {:induction false} SecretFailureNamesPath(c: Config, slot: SecretSlot)
    requires ResolveSecret(c, slot).Failure?
    ensures ResolveSecret(c, slot).error.ConfigurationError?
    ensures var p := if ResolvedExpanded(c, slot.storageKey).Some? then ResolvedExpanded(c, slot.storageKey).value
                     else ResolvedExpanded(c, slot.fileKey.value).value;
            Contains(ResolveSecret(c, slot).error.message, p)
  {
    if ResolvedExpanded(c, slot.storageKey).Some? {
      var p := ResolvedExpanded(c, slot.storageKey).value;
      ContainsConcat("Failed to read the " + slot.what + " for storage path: ", p, "");
      assert StorageMessage(slot.what, p) == "Failed to read the " + slot.what + " for storage path: " + p + "";
    } else {
      var p := ResolvedExpanded(c, slot.fileKey.value).value;
      ContainsConcat("Failed to read the ssh private key from path ", p, "");
      assert FileMessage(p) == "Failed to read the ssh private key from path " + p + "";
    }
  }

  // ---------------------------------------------------------------------------
  // Target

  /** The run target, read from the job configuration only: playbook path, then
      inline playbook, then module (with its arguments). */
  function RunTarget(c: Config): (r: Result<Target>)
    ensures PlaybookPath(c).Some? ==> r == Success(PlaybookFile(PlaybookPath(c).value))
    ensures PlaybookPath(c).None? && PlaybookInline(c).Some? ==>
              r == Success(PlaybookText(PlaybookInline(c).value))
    ensures PlaybookPath(c).None? && PlaybookInline(c).None? && ModuleName(c).Some? ==>
              r == Success(AdHoc(ModuleName(c).value, ModuleArgs(c)))
    ensures r.Failure? <==> PlaybookPath(c).None? && PlaybookInline(c).None? && ModuleName(c).None?
    ensures r.Failure? ==> r.error == ConfigurationError("Missing module or playbook job arguments")
  {
    if PlaybookPath(c).Some? then Success(PlaybookFile(PlaybookPath(c).value))
    else if PlaybookInline(c).Some? then Success(PlaybookText(PlaybookInline(c).value))
    else if ModuleName(c).Some? then Success(AdHoc(ModuleName(c).value, ModuleArgs(c)))
    else Failure(ConfigurationError("Missing module or playbook job arguments"))
  }

  /** The target depends on nothing but the job configuration (and expansion):
      no project, framework or node setting can supply or change it. */
  lemma TargetReadsJobConfOnly(c: Config, scopes: Scopes, nodes: seq<Node>)
    ensures RunTarget(c) == RunTarget(c.(ctx := c.ctx.(scopes := scopes), nodes := nodes))
  {
  }

  // ---------------------------------------------------------------------------
  // Extra variables

  /** One injected line: `key: "${ns.key}"`. */
  function Line(sep: string, ns: string, key: string): string {
    sep + key + ": \"${" + ns + "." + key + "}\""
  }

  /** One line per key of a namespace, in iteration order. */
  function NamespaceLines(sep: string, ns: string, vars: Vars): string {
    if vars == [] then "" else NamespaceLines(sep, ns, vars[..|vars| - 1]) + Line(sep, ns, vars[|vars| - 1].0)
  }

  lemma {:induction false} NamespaceLinesHaveEveryKey(sep: string, ns: string, vars: Vars, i: nat)
    requires i < |vars|
    ensures Contains(NamespaceLines(sep, ns, vars), Line(sep, ns, vars[i].0))
  {
    var init := vars[..|vars| - 1];
    if i == |vars| - 1 {
      ContainsConcat(NamespaceLines(sep, ns, init), Line(sep, ns, vars[i].0), "");
      assert NamespaceLines(sep, ns, init) + Line(sep, ns, vars[i].0) + ""
          == NamespaceLines(sep, ns, vars);
    } else {
      assert init[i] == vars[i];
      NamespaceLinesHaveEveryKey(sep, ns, init, i);
      ContainsLeft(NamespaceLines(sep, ns, init), Line(sep, ns, vars[i].0), Line(sep, ns, vars[|vars| - 1].0));
    }
  }

  /** The "test_export"/"test_data" marker line followed by the namespace's lines,
      or nothing when the namespace is absent. */
  function MarkedBlock(c: Config, ns: string, marker: string): string {
    if ns in c.ctx.dataContext
    then c.ctx.lineSeparator + marker + NamespaceLines(c.ctx.lineSeparator, ns, c.ctx.dataContext[ns])
    else ""
  }

  function OptionBlock(c: Config): string {
    if "option" in c.ctx.dataContext
    then NamespaceLines(c.ctx.lineSeparator, "option", c.ctx.dataContext["option"])
    else ""
  }

  /** The line carrying the raw job-configuration extra variables. */
  function JobConfLine(c: Config): string
    requires K.ExtraVars in c.jobConf
  {
    c.ctx.lineSeparator + "test_job_conf: \"" + c.jobConf[K.ExtraVars] + "\""
  }

  function InjectContextVars(c: Config): bool {
    ParseBoolean(Resolve(c, K.InjectContextVarsAsExtraVars, None))
  }

  /** The extra variables before expansion. With injection on, the source reads
      jobConf["ansible-extra-vars"] without a null check. */
  function ExtraVarsText(c: Config): (r: Result<Option<string>>)
    ensures !InjectContextVars(c) ==> r == Success(Resolve(c, K.ExtraVars, None))
    ensures InjectContextVars(c) ==> (r.Failure? <==> K.ExtraVars !in c.jobConf)
    ensures r.Failure? ==> r.error == MissingJobConfEntry(K.ExtraVars)
  {
    var configured := Resolve(c, K.ExtraVars, None);
    if !InjectContextVars(c) then Success(configured)
    else if K.ExtraVars !in c.jobConf then Failure(MissingJobConfEntry(K.ExtraVars))
    else
      Success(Some(configured.GetOr("") + OptionBlock(c) + JobConfLine(c)
                   + MarkedBlock(c, "export", "test_export: true")
                   + MarkedBlock(c, "data", "test_data: true")))
  }

  /** getExtraVars: the text above, expanded once, after it is complete. */
  function ExtraVars(c: Config): Result<Option<string>> {
    var t :- ExtraVarsText(c);
    Success(ExpandRefs(c, t))
  }

  /** With injection on, the text is the configured value (or ""), then the
      option lines, the test_job_conf line, the export block and the data
      block, in that order. */
  lemma InjectedExtraVarsLayout(c: Config)
    requires InjectContextVars(c) && K.ExtraVars in c.jobConf
    ensures ExtraVarsText(c).Success? && ExtraVarsText(c).value.Some?
    ensures ExtraVarsText(c).value.value ==
              Resolve(c, K.ExtraVars, None).GetOr("") + OptionBlock(c) + JobConfLine(c)
              + MarkedBlock(c, "export", "test_export: true")
              + MarkedBlock(c, "data", "test_data: true")
    ensures StartsWith(ExtraVarsText(c).value.value,
                       Resolve(c, K.ExtraVars, None).GetOr("") + OptionBlock(c) + JobConfLine(c))
  {
  }

  /** With injection on, every option key gets a line referring to ${option.key}. */
  lemma InjectedExtraVarsReferenceEveryOption(c: Config, i: nat)
    requires InjectContextVars(c) && K.ExtraVars in c.jobConf
    requires "option" in c.ctx.dataContext && i < |c.ctx.dataContext["option"]|
    ensures ExtraVarsText(c).Success? && ExtraVarsText(c).value.Some?
    ensures Contains(ExtraVarsText(c).value.value,
                     Line(c.ctx.lineSeparator, "option", c.ctx.dataContext["option"][i].0))
  {
    var sep := c.ctx.lineSeparator;
    var line := Line(sep, "option", c.ctx.dataContext["option"][i].0);
    var base := Resolve(c, K.ExtraVars, None).GetOr("");
    NamespaceLinesHaveEveryKey(sep, "option", c.ctx.dataContext["option"], i);
    assert OptionBlock(c) == NamespaceLines(sep, "option", c.ctx.dataContext["option"]);
    ContainsRight(base, line, OptionBlock(c));
    ContainsLeft(base + OptionBlock(c), line, JobConfLine(c));
    ContainsLeft(base + OptionBlock(c) + JobConfLine(c), line, MarkedBlock(c, "export", "test_export: true"));
    ContainsLeft(base + OptionBlock(c) + JobConfLine(c) + MarkedBlock(c, "export", "test_export: true"),
                 line, MarkedBlock(c, "data", "test_data: true"));
  }

  /** With injection on, a present export or data namespace contributes its
      marker line and a line referring to ${ns.key} for every one of its keys. */
  lemma InjectedExtraVarsReferenceEveryMarkedKey(c: Config, ns: string, marker: string, i: nat)
    requires InjectContextVars(c) && K.ExtraVars in c.jobConf
    requires (ns, marker) == ("export", "test_export: true") || (ns, marker) == ("data", "test_data: true")
    requires ns in c.ctx.dataContext && i < |c.ctx.dataContext[ns]|
    ensures ExtraVarsText(c).Success? && ExtraVarsText(c).value.Some?
    ensures Contains(ExtraVarsText(c).value.value, c.ctx.lineSeparator + marker)
    ensures Contains(ExtraVarsText(c).value.value, Line(c.ctx.lineSeparator, ns, c.ctx.dataContext[ns][i].0))
  {
    var sep := c.ctx.lineSeparator;
    var line := Line(sep, ns, c.ctx.dataContext[ns][i].0);
    var head := Resolve(c, K.ExtraVars, None).GetOr("") + OptionBlock(c) + JobConfLine(c);
    var ex := MarkedBlock(c, "export", "test_export: true");
    var da := MarkedBlock(c, "data", "test_data: true");
    var lines := NamespaceLines(sep, ns, c.ctx.dataContext[ns]);
    NamespaceLinesHaveEveryKey(sep, ns, c.ctx.dataContext[ns], i);
    assert MarkedBlock(c, ns, marker) == sep + marker + lines;
    ContainsRight(sep + marker, line, lines);
    ContainsConcat("", sep + marker, lines);
    if ns == "export" {
      ContainsRight(head, line, ex);
      ContainsLeft(head + ex, line, da);
      ContainsRight(head, sep + marker, ex);
      ContainsLeft(head + ex, sep + marker, da);
    } else {
      ContainsRight(head + ex, line, da);
      ContainsRight(head + ex, sep + marker, da);
    }
  }

  /** Appends one line per key of a namespace (the loops of getExtraVars). */
  method AppendLines(text: string, sep: string, ns: string, vars: Vars) returns (r: string)
    ensures r == text + NamespaceLines(sep, ns, vars)
  {
    r := text;
    var i := 0;
    while i < |vars|
      invariant 0 <= i <= |vars|
      invariant r == text + NamespaceLines(sep, ns, vars[..i])
    {
      assert vars[..i + 1][..i] == vars[..i];
      r := r + Line(sep, ns, vars[i].0);
      i := i + 1;
    }
    assert vars[..|vars|] == vars;
  }

  // ---------------------------------------------------------------------------
  // Inventory and temporary files

  /** Where the inventory comes from, in priority order. */
  datatype InventorySource = FromNodes | FromInline(text: string) | FromPath(path: Option<string>)

  /** Generated from the nodes when the flag is true, else the inline text
      (not expanded), else the configured path (expanded). */
  function InventorySourceOf(c: Config): (r: InventorySource)
    ensures GenerateInventory(c) == Some(true) ==> r == FromNodes
    ensures GenerateInventory(c) != Some(true) && Resolve(c, K.InventoryInline, None).Some? ==>
              r == FromInline(Resolve(c, K.InventoryInline, None).value)
    ensures GenerateInventory(c) != Some(true) && Resolve(c, K.InventoryInline, None).None? ==>
              r == FromPath(ResolvedExpanded(c, K.Inventory))
  {
    if GenerateInventory(c) == Some(true) then FromNodes
    else match Resolve(c, K.InventoryInline, None)
      case Some(text) => FromInline(text)
      case None => FromPath(ResolvedExpanded(c, K.Inventory))
  }

  /** What a temporary inventory file holds. */
  datatype TempContent = NodeInventory(nodes: seq<Node>) | InlineInventory(text: string)

  /** The temporary file getInventory writes, if any. */
  function TempContentOf(c: Config): Option<TempContent> {
    match InventorySourceOf(c)
    case FromNodes => Some(NodeInventory(c.nodes))
    case FromInline(text) => Some(InlineInventory(text))
    case FromPath(_) => None
  }

  /** The inventory reference getInventory returns when the next fresh file id is `next`. */
  function InventoryRefFor(c: Config, next: nat): Option<InventoryRef> {
    match InventorySourceOf(c)
    case FromPath(p) => if p.Some? then Some(InventoryPath(p.value)) else None
    case _ => Some(TempInventory(next))
  }

  /** Exactly one temporary file is tracked for a generated or inline inventory, none for a path. */
  lemma InventoryTempFileCount(c: Config, next: nat)
    ensures TempContentOf(c).Some? <==> (InventorySourceOf(c).FromNodes? || InventorySourceOf(c).FromInline?)
    ensures TempContentOf(c).Some? ==> InventoryRefFor(c, next) == Some(TempInventory(next))
    ensures TempContentOf(c).None? ==> forall id :: InventoryRefFor(c, next) != Some(TempInventory(id))
  {
  }

  /** The temporary files of the process: which exist, what they hold, and how
      many ids have been handed out (each new file gets a fresh id). */
  class TempFileStore {
    var live: set<nat>
    var contents: map<nat, TempContent>
    var issued: nat

    ghost predicate Valid()
      reads this
    {
      (forall f :: f in live ==> f < issued) && (forall f :: f in contents ==> f < issued)
    }

    constructor ()
      ensures Valid() && live == {} && contents == map[] && issued == 0
    {
      live, contents, issued := {}, map[], 0;
    }

    method Create(content: TempContent) returns (f: nat)
      requires Valid()
      modifies this
      ensures Valid()
      ensures f == old(issued) && f !in old(live) && issued == old(issued) + 1
      ensures live == old(live) + {f} && contents == old(contents)[f := content]
    {
      f := issued;
      issued := issued + 1;
      live := live + {f};
      contents := contents[f := content];
    }

    method Delete(f: nat)
      requires Valid()
      modifies this
      ensures Valid()
      ensures live == old(live) - {f} && contents == old(contents) && issued == old(issued)
    {
      live := live - {f};
    }
  }

  class AnsibleRunnerBuilder {
    const cfg: Config
    const store: TempFileStore
    var tempFiles: seq<nat>

    /** The store is consistent and every tracked file was issued by it. */
    ghost predicate Valid()
      reads this, store
    {
      store.Valid() && forall i :: 0 <= i < |tempFiles| ==> tempFiles[i] < store.issued
    }

    constructor (cfg: Config, store: TempFileStore)
      requires store.Valid()
      ensures this.cfg == cfg && this.store == store && tempFiles == [] && Valid()
    {
      this.cfg := cfg;
      this.store := store;
      tempFiles := [];
    }

    /** getExtraVars, with its three loops. */
    method GetExtraVars() returns (r: Result<Option<string>>)
      ensures r == ExtraVars(cfg)
    {
      var extraVars := Resolve(cfg, K.ExtraVars, None);
      if InjectContextVars(cfg) {
        var dc := cfg.ctx.dataContext;
        var sep := cfg.ctx.lineSeparator;
        var text := extraVars.GetOr("");
        if "option" in dc {
          text := AppendLines(text, sep, "option", dc["option"]);
        }
        assert text == extraVars.GetOr("") + OptionBlock(cfg);
        if K.ExtraVars !in cfg.jobConf {
          return Failure(MissingJobConfEntry(K.ExtraVars));
        }
        text := text + JobConfLine(cfg);
        text := AppendMarkedBlock(text, "export", "test_export: true");
        text := AppendMarkedBlock(text, "data", "test_data: true");
        extraVars := Some(text);
      }
      r := Success(ExpandRefs(cfg, extraVars));
    }

    /** A marker line and one line per key of a namespace, when the namespace exists. */
    method AppendMarkedBlock(text: string, ns: string, marker: string) returns (r: string)
      ensures r == text + MarkedBlock(cfg, ns, marker)
    {
      r := text;
      var dc := cfg.ctx.dataContext;
      if ns in dc {
        var sep := cfg.ctx.lineSeparator;
        r := AppendLines(r + sep + marker, sep, ns, dc[ns]);
        assert r == text + (sep + marker + NamespaceLines(sep, ns, dc[ns]));
      }
    }

    /** getInventory: the source in priority order; a generated or inline
        inventory is written to a fresh temporary file that is tracked. */
    method GetInventory() returns (inv: Option<InventoryRef>)
      requires Valid()
      modifies this, store
      ensures Valid()
      ensures inv == InventoryRefFor(cfg, old(store.issued))
      ensures TempContentOf(cfg).Some? ==>
                tempFiles == old(tempFiles) + [old(store.issued)] &&
                store.issued == old(store.issued) + 1 &&
                store.live == old(store.live) + {old(store.issued)} &&
                store.contents == old(store.contents)[old(store.issued) := TempContentOf(cfg).value]
      ensures TempContentOf(cfg).None? ==>
                tempFiles == old(tempFiles) && store.issued == old(store.issued) &&
                store.live == old(store.live) && store.contents == old(store.contents)
    {
      var isGenerated := GenerateInventory(cfg);
      if isGenerated == Some(true) {
        var f := store.Create(NodeInventory(cfg.nodes));
        tempFiles := tempFiles + [f];
        return Some(TempInventory(f));
      }
      var inlineInventory := Resolve(cfg, K.InventoryInline, None);
      if inlineInventory.Some? {
        var f := store.Create(InlineInventory(inlineInventory.value));
        tempFiles := tempFiles + [f];
        return Some(TempInventory(f));
      }
      var inventory := ResolvedExpanded(cfg, K.Inventory);
      inv := if inventory.Some? then Some(InventoryPath(inventory.value)) else None;
    }

    /** cleanupTempFiles: deletes every tracked file unless debug is on, then
        always forgets them. */
    method CleanupTempFiles()
      requires Valid()
      modifies this, store
      ensures Valid() && tempFiles == []
      ensures store.live == if Debug(cfg) then old(store.live)
                            else old(store.live) - (set j | 0 <= j < |old(tempFiles)| :: old(tempFiles)[j])
      ensures store.issued == old(store.issued) && store.contents == old(store.contents)
    {
      var i := 0;
      while i < |tempFiles|
        invariant 0 <= i <= |tempFiles| && tempFiles == old(tempFiles)
        invariant store.Valid() && store.issued == old(store.issued) && store.contents == old(store.contents)
        invariant store.live == if Debug(cfg) then old(store.live)
                                else old(store.live) - (set j | 0 <= j < i :: tempFiles[j])
      {
        if !Debug(cfg) {
          store.Delete(tempFiles[i]);
        }
        i := i + 1;
      }
      tempFiles := [];
    }

    /** buildAnsibleRunner: the runner is reassigned setting by setting; the
        first failing getter ends the build. */
    method BuildAnsibleRunner() returns (r: Result<Runner>)
      requires Valid()
      modifies this, store
      ensures Valid()
      ensures RunnerWithAuth(cfg).Failure? ==>
                r == Failure(RunnerWithAuth(cfg).error) &&
                tempFiles == old(tempFiles) && store.issued == old(store.issued) &&
                store.live == old(store.live) && store.contents == old(store.contents)
      ensures RunnerWithAuth(cfg).Success? ==>
                r == RunnerWithSettings(cfg, RunnerWithAuth(cfg).value, InventoryRefFor(cfg, old(store.issued)))
      ensures RunnerWithAuth(cfg).Success? && TempContentOf(cfg).Some? ==>
                tempFiles == old(tempFiles) + [old(store.issued)] &&
                store.issued == old(store.issued) + 1 &&
                store.live == old(store.live) + {old(store.issued)} &&
                store.contents == old(store.contents)[old(store.issued) := TempContentOf(cfg).value]
      ensures RunnerWithAuth(cfg).Success? && TempContentOf(cfg).None? ==>
                tempFiles == old(tempFiles) && store.issued == old(store.issued) &&
                store.live == old(store.live) && store.contents == old(store.contents)
    {
      var auth := WithAuthentication();
      if auth.Failure? {
        return Failure(auth.error);
      }
      var inventory := GetInventory();
      r := WithSettings(auth.value, inventory);
    }

    /** buildAnsibleRunner up to getInventory: target, credentials, options. */
    method WithAuthentication() returns (r: Result<Runner>)
      ensures r == RunnerWithAuth(cfg)
    {
      var target := RunTarget(cfg);
      if target.Failure? {
        return Failure(target.error);
      }
      var runner := NewRunner(target.value);

      var authType := SshAuthenticationType(cfg);
      if authType.Failure? {
        return Failure(authType.error);
      }
      if authType.value == K.PrivateKey {
        var privateKey := SshPrivateKey(cfg);
        if privateKey.Failure? {
          return Failure(privateKey.error);
        }
        if privateKey.value.Some? {
          runner := runner.(sshPrivateKey := privateKey.value);
        }
        if UseSshAgent(cfg) {
          runner := runner.(sshUseAgent := true);
          var passphrase := Passphrase(cfg);
          if passphrase.Failure? {
            return Failure(passphrase.error);
          }
          runner := runner.(sshPassphrase := passphrase.value);
        }
      } else {
        var password := SshPassword(cfg);
        if password.Failure? {
          return Failure(password.error);
        }
        if password.value.Some? {
          runner := runner.(sshUsePassword := true, sshPass := password.value);
        }
      }

      if "option" in cfg.ctx.dataContext {
        runner := runner.(options := Some(cfg.ctx.dataContext["option"]));
      }
      r := Success(runner);
    }

    /** buildAnsibleRunner after getInventory: every remaining setting. */
    method WithSettings(runner0: Runner, inventory: Option<InventoryRef>) returns (r: Result<Runner>)
      ensures r == RunnerWithSettings(cfg, runner0, inventory)
    {
      var runner := WithLaunchSettings(runner0, inventory);
      var withVariables := WithVariableSettings(runner);
      if withVariables.Failure? {
        return Failure(withVariables.error);
      }
      r := WithPrivilegeSettings(withVariables.value);
    }

    method WithLaunchSettings(runner0: Runner, inventory: Option<InventoryRef>) returns (runner: Runner)
      ensures runner == LaunchSettings(cfg, runner0, inventory)
    {
      runner := runner0;
      if inventory.Some? {
        runner := runner.(inventory := inventory);
      }
      var limit := Limit(cfg);
      if limit.Some? {
        runner := runner.(limit := limit);
      }
      runner := runner.(debug := Debug(cfg));
      var extraParams := ExtraParams(cfg);
      if extraParams.Some? {
        runner := runner.(extraParams := extraParams);
      }
    }

    method WithVariableSettings(runner0: Runner) returns (r: Result<Runner>)
      ensures r == VariableSettings(cfg, runner0)
    {
      r := WithVarsAndVault(runner0);
      if r.Success? {
        r := WithTimeoutAndBecome(r.value);
      }
    }

    method WithVarsAndVault(runner0: Runner) returns (r: Result<Runner>)
      ensures r == VarsAndVault(cfg, runner0)
    {
      var runner := runner0;
      var extraVars := GetExtraVars();
      if extraVars.Failure? {
        return Failure(extraVars.error);
      }
      if extraVars.value.Some? {
        runner := runner.(extraVars := extraVars.value);
      }
      var user := SshUser(cfg);
      if user.Some? {
        runner := runner.(sshUser := user);
      }
      var vault := VaultKey(cfg);
      if vault.Failure? {
        return Failure(vault.error);
      }
      if vault.value.Some? {
        runner := runner.(vaultPass := vault.value);
      }
      r := Success(runner);
    }

    method WithTimeoutAndBecome(runner0: Runner) returns (r: Result<Runner>)
      ensures r == TimeoutAndBecome(cfg, runner0)
    {
      var runner := runner0;
      var timeout := SshTimeout(cfg);
      if timeout.Failure? {
        return Failure(timeout.error);
      }
      if timeout.value.Some? {
        runner := runner.(sshTimeout := timeout.value);
      }
      var become := Become(cfg);
      if become.Some? {
        runner := runner.(become := become);
      }
      var becomeUser := BecomeUser(cfg);
      if becomeUser.Some? {
        runner := runner.(becomeUser := becomeUser);
      }
      r := Success(runner);
    }

    method WithPrivilegeSettings(runner0: Runner) returns (r: Result<Runner>)
      ensures r == PrivilegeSettings(cfg, runner0)
    {
      var runner := runner0;
      var becomeMethod := BecomeMethod(cfg);
      if becomeMethod.Failure? {
        return Failure(becomeMethod.error);
      }
      if becomeMethod.value.Some? {
        runner := runner.(becomeMethod := Some(K.BecomeMethodName(becomeMethod.value.value)));
      }
      var becomePassword := BecomePassword(cfg);
      if becomePassword.Failure? {
        return Failure(becomePassword.error);
      }
      if becomePassword.value.Some? {
        runner := runner.(becomePassword := becomePassword.value);
      }
      runner := WithPaths(runner);
      r := Success(runner);
    }

    method WithPaths(runner0: Runner) returns (runner: Runner)
      ensures runner == PathSettings(cfg, runner0)
    {
      runner := runner0;
      var executable := Executable(cfg);
      if executable.Some? {
        runner := runner.(executable := executable);
      }
      var configFile := ConfigFile(cfg);
      if configFile.Some? {
        runner := runner.(configFile := configFile);
      }
      var baseDir := BaseDir(cfg);
      if baseDir.Some? {
        runner := runner.(baseDirectory := baseDir);
      }
      var binaries := BinariesFilePath(cfg);
      if binaries.Some? {
        runner := runner.(binariesDirectory := binaries);
      }
    }
  }

  /** A runner with the credentials of the chosen authentication type: the
      private key (and, with the SSH agent, the passphrase), or the password. */
  function WithCredentials(c: Config, auth: K.AuthenticationType, r0: Runner): Result<Runner> {
    if auth == K.PrivateKey then
      var key :- SshPrivateKey(c);
      var r1 := if key.Some? then r0.(sshPrivateKey := key) else r0;
      if UseSshAgent(c) then
        var pass :- Passphrase(c);
        Success(r1.(sshUseAgent := true, sshPassphrase := pass))
      else Success(r1)
    else
      var pw :- SshPassword(c);
      Success(if pw.Some? then r0.(sshUsePassword := true, sshPass := pw) else r0)
  }

  /** The part of buildAnsibleRunner before getInventory: target, credentials, options. */
  function RunnerWithAuth(c: Config): Result<Runner> {
    var t :- RunTarget(c);
    var auth :- SshAuthenticationType(c);
    var r1 :- WithCredentials(c, auth, NewRunner(t));
    Success(if "option" in c.ctx.dataContext then r1.(options := Some(c.ctx.dataContext["option"])) else r1)
  }

  /** The part of buildAnsibleRunner after getInventory. */
  function RunnerWithSettings(c: Config, r0: Runner, inv: Option<InventoryRef>): Result<Runner> {
    var r2 :- VariableSettings(c, LaunchSettings(c, r0, inv));
    PrivilegeSettings(c, r2)
  }

  /** Inventory, limit, debug flag and extra parameters (none of them can fail). */
  function LaunchSettings(c: Config, r0: Runner, inv: Option<InventoryRef>): Runner {
    r0.(inventory := if inv.Some? then inv else r0.inventory,
        limit := if Limit(c).Some? then Limit(c) else r0.limit,
        debug := Debug(c),
        extraParams := if ExtraParams(c).Some? then ExtraParams(c) else r0.extraParams)
  }

  /** Extra variables, SSH user, vault key, timeout, become flag and become user. */
  function VariableSettings(c: Config, r1: Runner): Result<Runner> {
    var r :- VarsAndVault(c, r1);
    TimeoutAndBecome(c, r)
  }

  /** Extra variables, ssh user and vault key. */
  function VarsAndVault(c: Config, r1: Runner): Result<Runner> {
    var extraVars :- ExtraVars(c);
    var vault :- VaultKey(c);
    Success(r1.(extraVars := if extraVars.Some? then extraVars else r1.extraVars,
                sshUser := if SshUser(c).Some? then SshUser(c) else r1.sshUser,
                vaultPass := if vault.Some? then vault else r1.vaultPass))
  }

  /** Timeout, become flag and become user. */
  function TimeoutAndBecome(c: Config, r: Runner): Result<Runner> {
    var timeout :- SshTimeout(c);
    Success(r.(sshTimeout := if timeout.Some? then timeout else r.sshTimeout,
               become := if Become(c).Some? then Become(c) else r.become,
               becomeUser := if BecomeUser(c).Some? then BecomeUser(c) else r.becomeUser))
  }

  /** Become method and password, then the paths. */
  function PrivilegeSettings(c: Config, r2: Runner): Result<Runner> {
    var becomeMethod :- BecomeMethod(c);
    var password :- BecomePassword(c);
    Success(PathSettings(c, r2.(becomeMethod := if becomeMethod.Some? then Some(K.BecomeMethodName(becomeMethod.value)) else r2.becomeMethod,
                                becomePassword := if password.Some? then password else r2.becomePassword)))
  }

  /** Executable, configuration file and directories. */
  function PathSettings(c: Config, r: Runner): Runner {
    r.(executable := if Executable(c).Some? then Executable(c) else r.executable,
       configFile := if ConfigFile(c).Some? then ConfigFile(c) else r.configFile,
       baseDirectory := if BaseDir(c).Some? then BaseDir(c) else r.baseDirectory,
       binariesDirectory := if BinariesFilePath(c).Some? then BinariesFilePath(c) else r.binariesDirectory)
  }

  /** With a target and readable credentials, the runner carries the target, the
      credentials of the chosen authentication type, and nothing of the other. */
  lemma CredentialsFollowAuthType(c: Config)
    requires RunnerWithAuth(c).Success?
    ensures var r := RunnerWithAuth(c).value;
            r.target == RunTarget(c).value &&
            (SshAuthenticationType(c).value == K.PrivateKey ==>
               r.sshPrivateKey == SshPrivateKey(c).value && !r.sshUsePassword && r.sshPass.None? &&
               r.sshUseAgent == UseSshAgent(c) &&
               (UseSshAgent(c) ==> r.sshPassphrase == Passphrase(c).value)) &&
            (SshAuthenticationType(c).value == K.Password ==>
               r.sshPrivateKey.None? && r.sshUsePassword == SshPassword(c).value.Some? &&
               r.sshPass == SshPassword(c).value)
  {
  }

  /** After the credentials the runner's options are the "option" data-context
      map when there is one, and no later setting has been made yet. */
  lemma AuthRunnerOptions(c: Config)
    requires RunnerWithAuth(c).Success?
    ensures var r := RunnerWithAuth(c).value;
            r.options == (if "option" in c.ctx.dataContext then Some(c.ctx.dataContext["option"]) else None) &&
            Unsettled(r)
  {
    var t := RunTarget(c).value;
    var auth := SshAuthenticationType(c).value;
    CredentialsTouchOnlyCredentials(c, auth, NewRunner(t));
  }

  /** The credentials step leaves the target, the options and every later
      setting as they were. */
  lemma CredentialsTouchOnlyCredentials(c: Config, auth: K.AuthenticationType, r0: Runner)
    requires WithCredentials(c, auth, r0).Success?
    ensures var r := WithCredentials(c, auth, r0).value;
            r.target == r0.target && r.options == r0.options && (Unsettled(r0) ==> Unsettled(r))
  {
    if auth == K.PrivateKey {
      var key := SshPrivateKey(c).value;
      var r1 := if key.Some? then r0.(sshPrivateKey := key) else r0;
      assert r1.target == r0.target && r1.options == r0.options && (Unsettled(r0) ==> Unsettled(r1));
      if UseSshAgent(c) {
        var r2 := r1.(sshUseAgent := true, sshPassphrase := Passphrase(c).value);
        assert WithCredentials(c, auth, r0) == Success(r2);
      } else {
        assert WithCredentials(c, auth, r0) == Success(r1);
      }
    } else {
      var pw := SshPassword(c).value;
      assert WithCredentials(c, auth, r0) == Success(if pw.Some? then r0.(sshUsePassword := true, sshPass := pw) else r0);
    }
  }

  /** The become method as the runner receives it: the enum's name, when set. */
  function BecomeMethodSetting(c: Config): Option<string>
    requires BecomeMethod(c).Success?
  {
    if BecomeMethod(c).value.Some? then Some(K.BecomeMethodName(BecomeMethod(c).value.value)) else None
  }

  /** Inventory, limit, debug flag and extra parameters reach the runner as
      their getters answer them; nothing else changes. */
  lemma LaunchSettingsReachRunner(c: Config, r0: Runner, inv: Option<InventoryRef>)
    requires r0.inventory.None? && r0.limit.None? && r0.extraParams.None?
    ensures var r := LaunchSettings(c, r0, inv);
            r.inventory == inv && r.limit == Limit(c) && r.debug == Debug(c) && r.extraParams == ExtraParams(c) &&
            SameCredentials(r, r0) && (VariablesUnset(r0) ==> VariablesUnset(r)) &&
            (PrivilegesUnset(r0) ==> PrivilegesUnset(r))
  {
  }

  /** Extra variables, SSH user, vault key, timeout, become flag and become
      user reach the runner as their getters answer them; nothing else changes. */
  lemma VariableSettingsReachRunner(c: Config, r1: Runner)
    requires VariablesUnset(r1) && VariableSettings(c, r1).Success?
    ensures var r := VariableSettings(c, r1).value;
            r.extraVars == ExtraVars(c).value && r.sshUser == SshUser(c) && r.vaultPass == VaultKey(c).value &&
            r.sshTimeout == SshTimeout(c).value && r.become == Become(c) && r.becomeUser == BecomeUser(c)
    ensures var r := VariableSettings(c, r1).value;
            SameCredentials(r, r1) && r.inventory == r1.inventory && r.limit == r1.limit &&
            r.debug == r1.debug && r.extraParams == r1.extraParams &&
            (PrivilegesUnset(r1) ==> PrivilegesUnset(r))
  {
  }

  /** Become method (by its name), become password, executable, configuration
      file and directories reach the runner as their getters answer them;
      nothing else changes. */
  lemma PrivilegeSettingsReachRunner(c: Config, r2: Runner)
    requires PrivilegesUnset(r2) && PrivilegeSettings(c, r2).Success?
    ensures var r := PrivilegeSettings(c, r2).value;
            r.becomeMethod == BecomeMethodSetting(c) && r.becomePassword == BecomePassword(c).value &&
            r.executable == Executable(c) && r.configFile == ConfigFile(c) &&
            r.baseDirectory == BaseDir(c) && r.binariesDirectory == BinariesFilePath(c)
    ensures var r := PrivilegeSettings(c, r2).value;
            SameCredentials(r, r2) && r.inventory == r2.inventory && r.limit == r2.limit &&
            r.debug == r2.debug && r.extraParams == r2.extraParams &&
            r.extraVars == r2.extraVars && r.sshUser == r2.sshUser && r.vaultPass == r2.vaultPass &&
            r.sshTimeout == r2.sshTimeout && r.become == r2.become && r.becomeUser == r2.becomeUser
  {
  }

  /** A build whose settings all read passes every one of them to the runner:
      each field after the credentials is exactly what its getter answers (the
      inventory reference, the limit unless disabled, and so on), and the
      target, credentials and options are left as they were. */
  lemma SettingsReachRunner(c: Config, r0: Runner, inv: Option<InventoryRef>)
    requires Unsettled(r0)
    requires RunnerWithSettings(c, r0, inv).Success?
    ensures var r := RunnerWithSettings(c, r0, inv).value;
            r.inventory == inv && r.limit == Limit(c) && r.debug == Debug(c) &&
            r.extraParams == ExtraParams(c)
    ensures var r := RunnerWithSettings(c, r0, inv).value;
            r.extraVars == ExtraVars(c).value && r.sshUser == SshUser(c) &&
            r.vaultPass == VaultKey(c).value
    ensures var r := RunnerWithSettings(c, r0, inv).value;
            r.sshTimeout == SshTimeout(c).value && r.become == Become(c) && r.becomeUser == BecomeUser(c)
    ensures var r := RunnerWithSettings(c, r0, inv).value;
            r.becomeMethod == BecomeMethodSetting(c) && r.becomePassword == BecomePassword(c).value
    ensures var r := RunnerWithSettings(c, r0, inv).value;
            r.executable == Executable(c) && r.configFile == ConfigFile(c) &&
            r.baseDirectory == BaseDir(c) && r.binariesDirectory == BinariesFilePath(c)
    ensures SameCredentials(RunnerWithSettings(c, r0, inv).value, r0)
  {
    var r1 := LaunchSettings(c, r0, inv);
    LaunchSettingsReachRunner(c, r0, inv);
    var r2 := VariableSettings(c, r1).value;
    VariableSettingsReachRunner(c, r1);
    PrivilegeSettingsReachRunner(c, r2);
    assert RunnerWithSettings(c, r0, inv) == PrivilegeSettings(c, r2);
  }

  /** The settings fail exactly when one of the getters that can throw does,
      and then with the error of the first one in the source's order: extra
      variables, vault key, timeout, become method, become password. */
  lemma SettingsFailOnFirstError(c: Config, r0: Runner, inv: Option<InventoryRef>)
    ensures RunnerWithSettings(c, r0, inv).Failure? <==>
              ExtraVars(c).Failure? || VaultKey(c).Failure? || SshTimeout(c).Failure? ||
              BecomeMethod(c).Failure? || BecomePassword(c).Failure?
    ensures ExtraVars(c).Failure? ==> RunnerWithSettings(c, r0, inv) == Failure(ExtraVars(c).error)
    ensures ExtraVars(c).Success? && VaultKey(c).Failure? ==>
              RunnerWithSettings(c, r0, inv) == Failure(VaultKey(c).error)
    ensures ExtraVars(c).Success? && VaultKey(c).Success? && SshTimeout(c).Failure? ==>
              RunnerWithSettings(c, r0, inv) == Failure(SshTimeout(c).error)
    ensures ExtraVars(c).Success? && VaultKey(c).Success? && SshTimeout(c).Success? && BecomeMethod(c).Failure? ==>
              RunnerWithSettings(c, r0, inv) == Failure(BecomeMethod(c).error)
    ensures ExtraVars(c).Success? && VaultKey(c).Success? && SshTimeout(c).Success? && BecomeMethod(c).Success? &&
            BecomePassword(c).Failure? ==>
              RunnerWithSettings(c, r0, inv) == Failure(BecomePassword(c).error)
  {
  }

  /** Cleanup is idempotent: a second call deletes nothing more. */
  method CleanupTwice(b: AnsibleRunnerBuilder)
    requires b.Valid()
    modifies b, b.store
    ensures b.tempFiles == []
    ensures b.store.live == if Debug(b.cfg) then old(b.store.live)
                            else old(b.store.live) - (set j | 0 <= j < |old(b.tempFiles)| :: old(b.tempFiles)[j])
  {
    b.CleanupTempFiles();
    ghost var afterFirst := b.store.live;
    b.CleanupTempFiles();
    assert b.store.live == afterFirst;
  }
}
